/**
 * The candle chart widget of src/widgets/graph/graph.rs as an object: the
 * fields its `ui` and `start_download` update in place, and one method per
 * routine. Each method is proved to leave the fields, and to report the
 * effects, that the matching function of module Episode describes, and to keep
 * the request ids fresh.
 */
module GraphWidget {
  import opened Wrappers
  import opened CandlesData
  import opened LoadingModel
  import opened Episode

  class Graph {
    /** The loading component's defaults and page planning, fixed for the widget's life. */
    const env: Env
    var klines: seq<Kline>
    var symbol: string
    var exportTriggered: bool
    /** The promise being awaited, as the request it was spawned for. */
    var pending: Option<Request>
    var state: State
    /** The id the next spawned request gets. */
    var nextId: nat

    ghost function Snapshot(): Session
      reads this
    {
      Session(klines, symbol, exportTriggered, pending, state, nextId)
    }

    ghost predicate Valid()
      reads this
    {
      Episode.Valid(Snapshot())
    }

    /** `Graph::new`: no symbol, an empty buffer, the default state, no promise, no export armed. */
    constructor (env: Env)
      ensures this.env == env
      ensures Valid() && Snapshot() == Initial(env)
    {
      this.env := env;
      klines := [];
      symbol := "";
      exportTriggered := false;
      pending := None;
      state := env.defaultState;
      nextId := 0;
    }

    /** Spawns a promise for `(symbol, interval, from, limit)` in place of the one held. */
    method Issue(from: int, interval: string, limit: nat, fx0: Effects) returns (fx: Effects)
      modifies this
      ensures Step(Snapshot(), fx) == Episode.Issue(Step(old(Snapshot()), fx0), from, interval, limit)
    {
      var req := Request(nextId, symbol, interval, from, limit);
      pending := Some(req);
      nextId := nextId + 1;
      fx := fx0.(issued := fx0.issued + [req]);
    }

    /** `start_download`. */
    method StartDownload(props: Props, exporting: bool, fx0: Effects) returns (fx: Effects)
      modifies this
      ensures Step(Snapshot(), fx) == Episode.StartDownload(env, Step(old(Snapshot()), fx0), props, exporting)
    {
      exportTriggered := exporting;
      state := env.applyProps(state, props);
      fx := fx0;
      if PageCount(state.loading) == 0 {
        return;
      }
      var startTime := props.start;
      var interval := props.interval;
      var limit := state.loading.pages.size;
      fx := Issue(startTime, interval, limit, fx);
    }

    /** The `for_each` that pushes a batch onto the buffer, one candle at a time. */
    method Append(batch: seq<Kline>)
      modifies this`klines
      ensures klines == old(klines) + batch
    {
      var i := 0;
      while i < |batch|
        invariant 0 <= i <= |batch|
        invariant klines == old(klines) + batch[..i]
      {
        klines := klines + [batch[i]];
        i := i + 1;
      }
      assert batch[..i] == batch;
    }

    /** The drag, export and symbol channels of `ui`, polled in that order. */
    method PollIntents(input: Input) returns (fx: Effects)
      modifies this
      ensures Step(Snapshot(), fx) == Intents(env, old(Snapshot()), input)
    {
      ghost var s0 := Snapshot();
      fx := NO_EFFECTS;

      if input.drag.Some? {
        var props := state.props;
        props := props.(bounds := [input.drag.value.bounds]);
        props := props.(start := input.drag.value.start);
        fx := StartDownload(props, false, fx);
      }
      ghost var st1 := Step(Snapshot(), fx);
      assert st1 == if input.drag.Some? then OnDrag(env, Step(s0, NO_EFFECTS), input.drag.value) else Step(s0, NO_EFFECTS);

      if input.toExport.Some? {
        klines := [];
        state := env.defaultState;
        fx := StartDownload(input.toExport.value, true, fx);
      }
      ghost var st2 := Step(Snapshot(), fx);
      assert st2 == if input.toExport.Some? then OnExport(env, st1, input.toExport.value) else st1;

      if input.symbol.Some? {
        klines := [];
        symbol := input.symbol.value;
        fx := fx.(published := Some(symbol));
        state := env.defaultState;
        state := env.applyProps(state, env.defaultProps);
        var startTime := state.props.start;
        var interval := state.props.interval;
        var limit := state.loading.pages.size;
        fx := Issue(startTime, interval, limit, fx);
      }
    }

    /** The show channel: a fresh episode from the chosen props. */
    method PollShow(props: Props, fx0: Effects) returns (fx: Effects)
      modifies this
      ensures Step(Snapshot(), fx) == OnShow(env, Step(old(Snapshot()), fx0), props)
    {
      klines := [];
      state := env.defaultState;
      fx := StartDownload(props, false, fx0);
    }

    /** Looks at the promise: a ready outcome of the pending request is folded in and the promise let go. */
    method Fold(resp: Response, fx0: Effects) returns (fx: Effects)
      modifies this
      ensures Step(Snapshot(), fx) == OnReady(Step(old(Snapshot()), fx0), resp)
    {
      fx := fx0;
      if pending.Some? && pending.value.id == resp.id {
        match resp.result
        case Fetched(batch) =>
          Append(batch);
          var turned := TurnPage(state.loading);
          state := state.(loading := turned.0);
          if turned.1.Some? {
            var start := LeftEdge(state.loading);
            var interval := state.props.interval;
            var limit := state.loading.pages.size;
            fx := Issue(start, interval, limit, fx);
          } else {
            pending := None;
            if klines == [] {
              fx := fx.(screen := Panicked);
              return;
            }
            fx := fx.(aggregate := Some(NewData(klines)));
          }
        case FetchFailed =>
          state := ReportError(state);
          pending := None;
      }
    }

    /** The end of `ui`: the progress bar while loading, else the export if armed and complete. */
    method Conclude(fx0: Effects) returns (fx: Effects)
      modifies this`exportTriggered
      ensures Step(Snapshot(), fx) == Finish(Step(old(Snapshot()), fx0))
    {
      fx := fx0;
      if InProgress(state.loading) && !state.loading.hasError {
        fx := fx.(screen := ProgressBar);
        return;
      }
      if Complete(state.loading) && exportTriggered {
        fx := fx.(exported := Some(klines));
        exportTriggered := false;
      }
    }

    /** One call of `ui`, without the drawing; a panic ends the call. */
    method Tick(input: Input) returns (fx: Effects)
      requires Valid()
      modifies this
      ensures Valid()
      ensures Step(Snapshot(), fx) == Episode.Tick(env, old(Snapshot()), input)
    {
      fx := PollIntents(input);
      if symbol == "" {
        fx := fx.(screen := SymbolPrompt);
        return;
      }
      if input.show.Some? {
        fx := PollShow(input.show.value, fx);
      }
      if input.ready.Some? {
        fx := Fold(input.ready.value, fx);
      }
      if fx.screen == Panicked {
        return;
      }
      fx := Conclude(fx);
    }
  }
}
