/**
 * A worked episode with a concrete loading component whose plan cuts every
 * range into two pages of two hourly candles, starting 2024-01-01T00:00Z.
 */
module EpisodeScenario {
  import opened Wrappers
  import opened CandlesData
  import opened LoadingModel
  import opened Episode

  const HOUR: int := 3_600_000
  /** 2024-01-01T00:00:00Z in milliseconds. */
  const JAN_1: int := 1_704_067_200_000

  /** A planner that always plans two pages, two hours apart, of two candles each. */
  function TwoPages(s: State, p: Props): State
  {
    State(p, Loading(Pages([p.start, p.start + 2 * HOUR], 2), 0, false))
  }

  function HourlyEnv(): Env
  {
    var props := Props(JAN_1, JAN_1 + 4 * HOUR, "1h", []);
    Env(TwoPages, props, State(props, Loading(Pages([], 2), 0, false)))
  }

  /** The candle of the `i`-th hour of the day, closing one millisecond before the next hour. */
  function Hourly(i: int, high: int, volume: int): Kline
  {
    Kline(JAN_1 + i * HOUR, JAN_1 + (i + 1) * HOUR - 1, high - 1, high, high - 2, high - 1, volume)
  }

  function FirstBatch(): seq<Kline> { [Hourly(0, 10, 100), Hourly(1, 25, 50)] }

  function SecondBatch(): seq<Kline> { [Hourly(2, 7, 200), Hourly(3, 12, 80)] }

  /** The widget while the first page is awaited. */
  function AwaitingFirst(): Session
  {
    var env := HourlyEnv();
    Session([], "BTCUSDT", false, Some(Request(0, "BTCUSDT", "1h", JAN_1, 2)), TwoPages(env.defaultState, env.defaultProps), 1)
  }

  /** The widget while the second page is awaited. */
  function AwaitingSecond(): Session
  {
    var st := AwaitingFirst().state;
    AwaitingFirst().(klines := FirstBatch(), pending := Some(Request(1, "BTCUSDT", "1h", JAN_1 + 2 * HOUR, 2)),
                     state := st.(loading := st.loading.(done := 1)), nextId := 2)
  }

  /** Choosing a symbol requests the first page from the window's start, with the page size as limit. */
  lemma {:induction false} SymbolStartsEpisode()
    ensures var env := HourlyEnv();
            Tick(env, Initial(env), Input(None, None, Some("BTCUSDT"), None, None)) ==
            Step(AwaitingFirst(), Effects([Request(0, "BTCUSDT", "1h", JAN_1, 2)], Some("BTCUSDT"), None, None, ProgressBar))
  {
    var env := HourlyEnv();
    var st3 := Intents(env, Initial(env), Input(None, None, Some("BTCUSDT"), None, None));
    assert st3 == OnSymbol(env, Step(Initial(env), NO_EFFECTS), "BTCUSDT");
    assert st3.s == AwaitingFirst();
  }

  /** Two candles for the first page: they are kept and the next page is requested two hours later. */
  lemma {:induction false} FirstPageAdvances()
    ensures var env := HourlyEnv();
            Tick(env, AwaitingFirst(), Input(None, None, None, None, Some(Response(0, Fetched(FirstBatch()))))) ==
            Step(AwaitingSecond(), Effects([Request(1, "BTCUSDT", "1h", JAN_1 + 2 * HOUR, 2)], None, None, None, ProgressBar))
  {
    var env := HourlyEnv();
    var st := Step(AwaitingFirst(), NO_EFFECTS);
    assert Intents(env, AwaitingFirst(), Input(None, None, None, None, Some(Response(0, Fetched(FirstBatch()))))) == st;
    var r := OnReady(st, Response(0, Fetched(FirstBatch())));
    assert LeftEdge(AwaitingSecond().state.loading) == JAN_1 + 2 * HOUR;
    assert r.s == AwaitingSecond();
  }

  /** Highs 10, 25, 7, 12 give 25, volumes 100, 50, 200, 80 give 200. */
  lemma {:induction false} FourCandleMaxima(a: Kline, b: Kline, c: Kline, e: Kline)
    requires a.high == 10 && b.high == 25 && c.high == 7 && e.high == 12
    requires a.volume == 100 && b.volume == 50 && c.volume == 200 && e.volume == 80
    ensures NewData([a, b, c, e]).maxY == 25 && NewData([a, b, c, e]).maxVol == 200
  {
    var d := NewData([a, b, c, e]);
    GreatestIsTop([a, b, c, e], High, d.maxY, b);
    GreatestIsTop([a, b, c, e], Volume, d.maxVol, c);
  }

  /** The aggregate of the four candles. */
  lemma {:induction false} FourCandleAggregate()
    ensures var d := NewData(FirstBatch() + SecondBatch());
            d.maxY == 25 && d.maxVol == 200 && d.maxX == JAN_1 + 4 * HOUR - 1
  {
    assert FirstBatch() + SecondBatch() == [Hourly(0, 10, 100), Hourly(1, 25, 50), Hourly(2, 7, 200), Hourly(3, 12, 80)];
    FourCandleMaxima(Hourly(0, 10, 100), Hourly(1, 25, 50), Hourly(2, 7, 200), Hourly(3, 12, 80));
  }

  /** The widget once the episode is complete. */
  function Loaded(): Session
  {
    var st := AwaitingSecond().state;
    AwaitingSecond().(klines := FirstBatch() + SecondBatch(), pending := None, state := st.(loading := st.loading.(done := 2)))
  }

  /** The second page ends the episode: the aggregate of all four candles is handed over. */
  lemma {:induction false} SecondPageCompletes()
    ensures var env := HourlyEnv();
            Tick(env, AwaitingSecond(), Input(None, None, None, None, Some(Response(1, Fetched(SecondBatch()))))) ==
            Step(Loaded(), Effects([], None, Some(NewData(FirstBatch() + SecondBatch())), None, Chart))
    ensures Complete(Loaded().state.loading)
  {
    var env := HourlyEnv();
    var st := Step(AwaitingSecond(), NO_EFFECTS);
    var input := Input(None, None, None, None, Some(Response(1, Fetched(SecondBatch()))));
    assert Intents(env, AwaitingSecond(), input) == st;
    var r := OnReady(st, Response(1, Fetched(SecondBatch())));
    assert r.s == Loaded();
  }
}
