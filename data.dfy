/**
 * The aggregate that the candle and volume charts are drawn from
 * (src/widgets/candles_graph/data.rs): the buffer of candles together with
 * the largest high, the largest volume and the close time of the last candle.
 * Prices, volumes and times are integers here, so NaN does not arise.
 */
module CandlesData {

  /** One candle as the market-data client returns it. */
  datatype Kline = Kline(tOpen: int, tClose: int, open: int, high: int, low: int, close: int, volume: int)

  function High(k: Kline): int { k.high }

  function Volume(k: Kline): int { k.volume }

  /** `v` is the largest `key` of the candles in `vals`: no candle exceeds it and one attains it. */
  ghost predicate IsGreatest(vals: seq<Kline>, key: Kline -> int, v: int)
  {
    (forall k | k in vals :: key(k) <= v) && (exists k | k in vals :: key(k) == v)
  }

  /**
   * `m` is the last of the candles with the greatest key: it sits at a
   * position of `vals` after which every key is strictly smaller.
   */
  ghost predicate LastGreatest(vals: seq<Kline>, key: Kline -> int, m: Kline)
  {
    exists p | 0 <= p < |vals| && vals[p] == m :: forall j | p < j < |vals| :: key(vals[j]) < key(m)
  }

  /**
   * Rust's `Iterator::max_by` over `[acc] + rest` with the comparator of
   * data.rs, which answers `Greater` when the left key is strictly larger and
   * `Less` otherwise: the accumulated candle survives a step only when its key
   * is strictly larger, so on ties the later candle wins.
   */
  function MaxByFrom(acc: Kline, rest: seq<Kline>, key: Kline -> int): (m: Kline)
    ensures m == acc || m in rest
    ensures key(acc) <= key(m)
    ensures forall k | k in rest :: key(k) <= key(m)
    ensures LastGreatest([acc] + rest, key, m)
    decreases |rest|
  {
    if rest == [] then
      assert ([acc] + rest)[0] == acc;
      acc
    else
      var next := if key(acc) > key(rest[0]) then acc else rest[0];
      var m := MaxByFrom(next, rest[1..], key);
      ShiftedLastGreatest(acc, next, rest, key, m);
      m
  }

  /** The step of `MaxByFrom`: the last greatest of `[next] + rest[1..]` is the last greatest of `[acc] + rest`. */
  lemma {:induction false} ShiftedLastGreatest(acc: Kline, next: Kline, rest: seq<Kline>, key: Kline -> int, m: Kline)
    requires |rest| > 0
    requires next == if key(acc) > key(rest[0]) then acc else rest[0]
    requires LastGreatest([next] + rest[1..], key, m)
    ensures LastGreatest([acc] + rest, key, m)
  {
    var tail, whole := [next] + rest[1..], [acc] + rest;
    var p :| 0 <= p < |tail| && tail[p] == m && forall j | p < j < |tail| :: key(tail[j]) < key(m);
    assert forall j | 1 < j < |whole| :: whole[j] == tail[j - 1];
    if p > 0 {
      assert whole[p + 1] == m;
      assert forall j | p + 1 < j < |whole| :: key(whole[j]) < key(m);
    } else if next == rest[0] {
      assert whole[1] == m;
      assert forall j | 1 < j < |whole| :: key(whole[j]) < key(m);
    } else {
      assert whole[0] == m && key(whole[1]) < key(m);
      assert forall j | 0 < j < |whole| :: key(whole[j]) < key(m);
    }
  }

  /** `vals.iter().max_by(..).unwrap()`: defined only on a non-empty buffer. */
  function MaxBy(vals: seq<Kline>, key: Kline -> int): (m: Kline)
    requires |vals| > 0
    ensures m in vals
    ensures forall k | k in vals :: key(k) <= key(m)
    ensures LastGreatest(vals, key, m)
  {
    assert [vals[0]] + vals[1..] == vals;
    MaxByFrom(vals[0], vals[1..], key)
  }

  /** `Data`: the stored buffer and the three extrema; the fields are the accessors. */
  datatype Data = Data(vals: seq<Kline>, maxX: int, maxY: int, maxVol: int)

  /**
   * `Data::new`. The two `unwrap`s and the index `len() - 1` panic on an empty
   * buffer, hence the precondition.
   */
  function NewData(vals: seq<Kline>): (d: Data)
    requires |vals| > 0
    ensures d.vals == vals
    ensures d.maxX == vals[|vals| - 1].tClose
    ensures IsGreatest(vals, High, d.maxY)
    ensures IsGreatest(vals, Volume, d.maxVol)
  {
    var top := MaxBy(vals, High);
    var loudest := MaxBy(vals, Volume);
    Data(vals, vals[|vals| - 1].tClose, top.high, loudest.volume)
  }

  /** The greatest key is unique, so it is the same for any reordering of the candles. */
  lemma {:induction false} GreatestIndependentOfOrder(a: seq<Kline>, b: seq<Kline>, key: Kline -> int, va: int, vb: int)
    requires multiset(a) == multiset(b)
    requires IsGreatest(a, key, va) && IsGreatest(b, key, vb)
    ensures va == vb
  {
    var ka :| ka in a && key(ka) == va;
    var kb :| kb in b && key(kb) == vb;
    assert ka in multiset(b);
    assert kb in multiset(a);
  }

  /** `max_y` and `max_vol` do not depend on the order of the buffer. */
  lemma {:induction false} NewDataOrderIndependent(a: seq<Kline>, b: seq<Kline>)
    requires |a| > 0 && multiset(a) == multiset(b)
    ensures |b| > 0
    ensures NewData(a).maxY == NewData(b).maxY
    ensures NewData(a).maxVol == NewData(b).maxVol
  {
    assert |b| == |multiset(b)| == |multiset(a)| == |a|;
    GreatestIndependentOfOrder(a, b, High, NewData(a).maxY, NewData(b).maxY);
    GreatestIndependentOfOrder(a, b, Volume, NewData(a).maxVol, NewData(b).maxVol);
  }

  /** A candle that is among the candles and bounds all their keys carries the greatest key. */
  lemma GreatestIsTop(vals: seq<Kline>, key: Kline -> int, v: int, top: Kline)
    requires IsGreatest(vals, key, v) && top in vals
    requires forall k | k in vals :: key(k) <= key(top)
    ensures v == key(top)
  {
  }

  /** Highs 10, 25, 7 and volumes 100, 50, 200 give 25 and 200. */
  lemma {:induction false} ThreeCandles()
    ensures var vals := [Kline(0, 59, 8, 10, 5, 9, 100), Kline(60, 119, 9, 25, 8, 20, 50), Kline(120, 179, 20, 7, 6, 7, 200)];
            var d := NewData(vals);
            d.maxY == 25 && d.maxVol == 200 && d.maxX == 179
  {
    var a, b, c := Kline(0, 59, 8, 10, 5, 9, 100), Kline(60, 119, 9, 25, 8, 20, 50), Kline(120, 179, 20, 7, 6, 7, 200);
    var d := NewData([a, b, c]);
    GreatestIsTop([a, b, c], High, d.maxY, b);
    GreatestIsTop([a, b, c], Volume, d.maxVol, c);
  }
}
