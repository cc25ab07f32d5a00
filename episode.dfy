/**
 * What one UI tick of the candle chart widget (`Graph` in
 * src/widgets/graph/graph.rs) does to the load episode, as functions on
 * values. The widget's class in module GraphWidget performs the same steps on
 * its fields and is proved to end in the state and with the effects `Tick`
 * gives; the lemmas here state what the controller promises across steps and
 * ticks.
 *
 * A request stands for the promise the widget holds. Each request carries an
 * id, drawn from a counter, so a fetch outcome says which promise it belongs
 * to: an outcome is looked at only when its id is that of the pending request,
 * which is how a promise that was replaced (and dropped) never delivers.
 */
module Episode {
  import opened Wrappers
  import opened CandlesData
  import opened LoadingModel

  /** `Client::kline(symbol, interval, from, limit)`, spawned as a promise. */
  datatype Request = Request(id: nat, symbol: string, interval: string, from: int, limit: nat)

  datatype FetchResult = Fetched(batch: seq<Kline>) | FetchFailed

  /** A promise that has become ready, with the id of the request it answers. */
  datatype Response = Response(id: nat, result: FetchResult)

  /** A drag event: the new bounds and the start time already converted to milliseconds. */
  datatype Drag = Drag(bounds: Bounds, start: int)

  /** What a tick may receive: one message from each channel and the readiness of a promise. */
  datatype Input = Input(drag: Option<Drag>, toExport: Option<Props>, symbol: Option<string>, show: Option<Props>, ready: Option<Response>)

  /** How the tick ends: the symbol prompt, the progress bar, the chart, or a panic. */
  datatype Screen = SymbolPrompt | ProgressBar | Chart | Panicked

  /**
   * What a tick did besides changing the widget: the requests spawned in
   * order, the symbol published to the time range window, the aggregate handed
   * to the charts and the candles written to the CSV export.
   */
  datatype Effects = Effects(issued: seq<Request>, published: Option<string>, aggregate: Option<Data>, exported: Option<seq<Kline>>, screen: Screen)

  const NO_EFFECTS := Effects([], None, None, None, Chart)

  /** The widget fields the controller reads and writes, with the request-id counter. */
  datatype Session = Session(klines: seq<Kline>, symbol: string, exportTriggered: bool, pending: Option<Request>, state: State, nextId: nat)

  datatype Step = Step(s: Session, fx: Effects)

  /** `Graph::new` / `Graph::default`: no symbol, no candles, no promise, no export. */
  function Initial(env: Env): (r: Session)
    ensures r.klines == [] && r.symbol == "" && !r.exportTriggered && r.pending.None?
    ensures r.state == env.defaultState
    ensures Valid(r)
  {
    Session([], "", false, None, env.defaultState, 0)
  }

  /** The pending request's id is below the counter, so every later request has a different id. */
  predicate Valid(s: Session)
  {
    s.pending.Some? ==> s.pending.value.id < s.nextId
  }

  /** After a step, the pending request is the old one or one issued during the step. */
  predicate OnlyFresh(before: Session, after: Session)
  {
    before.nextId <= after.nextId &&
    (after.pending == before.pending || (after.pending.Some? && before.nextId <= after.pending.value.id))
  }

  /** Spawning a promise for a request; it replaces whatever promise was held. */
  function Issue(st: Step, from: int, interval: string, limit: nat): (r: Step)
    ensures r.s == st.s.(pending := Some(Request(st.s.nextId, st.s.symbol, interval, from, limit)), nextId := st.s.nextId + 1)
    ensures r.fx == st.fx.(issued := st.fx.issued + [r.s.pending.value])
    ensures Valid(r.s) && OnlyFresh(st.s, r.s)
  {
    var req := Request(st.s.nextId, st.s.symbol, interval, from, limit);
    Step(st.s.(pending := Some(req), nextId := st.s.nextId + 1), st.fx.(issued := st.fx.issued + [req]))
  }

  /**
   * `start_download(props, exporting)`: records the export flag, applies the
   * props and, unless the plan has no pages, spawns one request from the props'
   * start time with the plan's page size.
   */
  function StartDownload(env: Env, st: Step, props: Props, exporting: bool): (r: Step)
    ensures r.s.exportTriggered == exporting
    ensures r.s.state == env.applyProps(st.s.state, props)
    ensures r.s.klines == st.s.klines && r.s.symbol == st.s.symbol
    ensures PageCount(r.s.state.loading) == 0 ==> r.s.pending == st.s.pending && r.fx == st.fx
    ensures PageCount(r.s.state.loading) > 0 ==>
              r.s.pending == Some(Request(st.s.nextId, st.s.symbol, props.interval, props.start, r.s.state.loading.pages.size)) &&
              r.fx == st.fx.(issued := st.fx.issued + [r.s.pending.value])
    ensures Valid(st.s) ==> Valid(r.s)
    ensures OnlyFresh(st.s, r.s)
  {
    var s1 := st.s.(exportTriggered := exporting, state := env.applyProps(st.s.state, props));
    if PageCount(s1.state.loading) == 0 then Step(s1, st.fx)
    else Issue(Step(s1, st.fx), props.start, props.interval, s1.state.loading.pages.size)
  }

  /** The current props with the dragged bounds and the new start time. */
  function DragProps(props: Props, d: Drag): (r: Props)
    ensures r.bounds == [d.bounds] && r.start == d.start
    ensures r.end == props.end && r.interval == props.interval
  {
    props.(bounds := [d.bounds], start := d.start)
  }

  /** A drag intent: reloads from the dragged start without clearing the buffer or resetting the state. */
  function OnDrag(env: Env, st: Step, d: Drag): (r: Step)
    ensures r.s.klines == st.s.klines && r.s.symbol == st.s.symbol
    ensures r.s.state == env.applyProps(st.s.state, DragProps(st.s.state.props, d))
    ensures !r.s.exportTriggered
    ensures PageCount(r.s.state.loading) == 0 ==> r.s.pending == st.s.pending && r.fx == st.fx
    ensures PageCount(r.s.state.loading) > 0 ==>
              r.s.pending == Some(Request(st.s.nextId, st.s.symbol, st.s.state.props.interval, d.start, r.s.state.loading.pages.size)) &&
              r.fx == st.fx.(issued := st.fx.issued + [r.s.pending.value])
    ensures Valid(st.s) ==> Valid(r.s)
    ensures OnlyFresh(st.s, r.s)
  {
    StartDownload(env, st, DragProps(st.s.state.props, d), false)
  }

  /** The buffer emptied and the state back to its default, as show and export do before loading. */
  function Reset(env: Env, st: Step): (r: Step)
    ensures r.s.klines == [] && r.s.state == env.defaultState
    ensures r.s.symbol == st.s.symbol && r.s.exportTriggered == st.s.exportTriggered
    ensures r.s.pending == st.s.pending && r.s.nextId == st.s.nextId && r.fx == st.fx
  {
    st.(s := st.s.(klines := [], state := env.defaultState))
  }

  /** An export intent: a fresh episode from the given props, tagged for export. */
  function OnExport(env: Env, st: Step, props: Props): (r: Step)
    ensures r.s.klines == [] && r.s.symbol == st.s.symbol
    ensures r.s.state == env.applyProps(env.defaultState, props)
    ensures r.s.exportTriggered
    ensures PageCount(r.s.state.loading) == 0 ==> r.s.pending == st.s.pending && r.fx == st.fx
    ensures PageCount(r.s.state.loading) > 0 ==>
              r.s.pending == Some(Request(st.s.nextId, st.s.symbol, props.interval, props.start, r.s.state.loading.pages.size)) &&
              r.fx == st.fx.(issued := st.fx.issued + [r.s.pending.value])
    ensures Valid(st.s) ==> Valid(r.s)
    ensures OnlyFresh(st.s, r.s)
  {
    StartDownload(env, Reset(env, st), props, true)
  }

  /** A show intent: a fresh episode from the given props, not tagged for export. */
  function OnShow(env: Env, st: Step, props: Props): (r: Step)
    ensures r.s.klines == [] && r.s.symbol == st.s.symbol
    ensures r.s.state == env.applyProps(env.defaultState, props)
    ensures !r.s.exportTriggered
    ensures PageCount(r.s.state.loading) == 0 ==> r.s.pending == st.s.pending && r.fx == st.fx
    ensures PageCount(r.s.state.loading) > 0 ==>
              r.s.pending == Some(Request(st.s.nextId, st.s.symbol, props.interval, props.start, r.s.state.loading.pages.size)) &&
              r.fx == st.fx.(issued := st.fx.issued + [r.s.pending.value])
    ensures Valid(st.s) ==> Valid(r.s)
    ensures OnlyFresh(st.s, r.s)
  {
    StartDownload(env, Reset(env, st), props, false)
  }

  /**
   * A symbol intent: a fresh episode for the new symbol over the default
   * props. Unlike `start_download` it spawns the request even when the plan
   * has no pages, and it leaves the export flag alone.
   */
  function OnSymbol(env: Env, st: Step, symbol: string): (r: Step)
    ensures r.s.klines == [] && r.s.symbol == symbol
    ensures r.s.exportTriggered == st.s.exportTriggered
    ensures r.s.state == env.applyProps(env.defaultState, env.defaultProps)
    ensures r.s.pending == Some(Request(st.s.nextId, symbol, r.s.state.props.interval, r.s.state.props.start, r.s.state.loading.pages.size))
    ensures r.fx == st.fx.(issued := st.fx.issued + [r.s.pending.value], published := Some(symbol))
    ensures Valid(r.s) && OnlyFresh(st.s, r.s)
  {
    var state := env.applyProps(env.defaultState, env.defaultProps);
    var s1 := st.s.(klines := [], symbol := symbol, state := state);
    Issue(Step(s1, st.fx.(published := Some(symbol))), state.props.start, state.props.interval, state.loading.pages.size)
  }

  /** The outcome is that of the promise currently held. */
  predicate Answers(s: Session, resp: Response)
  {
    s.pending.Some? && s.pending.value.id == resp.id
  }

  /**
   * Folding a ready promise: a batch is appended to the buffer and the page is
   * turned; then either the next page is requested from the new left edge, or
   * the episode ends and the aggregate is built from the whole buffer (a panic
   * when the buffer is empty, as `Data::new` has no candle to take a maximum
   * of). A failure raises the error flag. Either way the promise is let go.
   */
  function OnReady(st: Step, resp: Response): (r: Step)
    ensures !Answers(st.s, resp) ==> r == st
    ensures Answers(st.s, resp) && resp.result.FetchFailed? ==>
              r == st.(s := st.s.(state := ReportError(st.s.state), pending := None))
    ensures Answers(st.s, resp) && resp.result.Fetched? ==>
              r.s.klines == st.s.klines + resp.result.batch &&
              r.s.symbol == st.s.symbol && r.s.exportTriggered == st.s.exportTriggered &&
              r.s.state == st.s.state.(loading := TurnPage(st.s.state.loading).0) &&
              r.fx.published == st.fx.published && r.fx.exported == st.fx.exported
    ensures Answers(st.s, resp) && resp.result.Fetched? && InProgress(r.s.state.loading) ==>
              r.s.pending == Some(Request(st.s.nextId, st.s.symbol, st.s.state.props.interval, LeftEdge(r.s.state.loading), r.s.state.loading.pages.size)) &&
              r.fx == st.fx.(issued := st.fx.issued + [r.s.pending.value])
    ensures Answers(st.s, resp) && resp.result.Fetched? && Complete(r.s.state.loading) ==>
              r.s.pending.None? && r.fx.issued == st.fx.issued &&
              (r.s.klines != [] ==> r.fx == st.fx.(aggregate := Some(NewData(r.s.klines)))) &&
              (r.s.klines == [] ==> r.fx == st.fx.(screen := Panicked))
    ensures Valid(st.s) ==> Valid(r.s)
    ensures OnlyFresh(st.s, r.s) || r.s.pending.None?
    ensures st.s.nextId <= r.s.nextId
  {
    if !Answers(st.s, resp) then st
    else match resp.result
      case FetchFailed =>
        st.(s := st.s.(state := ReportError(st.s.state), pending := None))
      case Fetched(batch) =>
        var turned := TurnPage(st.s.state.loading);
        var s1 := st.s.(klines := st.s.klines + batch, state := st.s.state.(loading := turned.0));
        if turned.1.Some? then
          Issue(Step(s1, st.fx), LeftEdge(s1.state.loading), s1.state.props.interval, s1.state.loading.pages.size)
        else
          var s2 := s1.(pending := None);
          if s2.klines == [] then Step(s2, st.fx.(screen := Panicked))
          else Step(s2, st.fx.(aggregate := Some(NewData(s2.klines))))
  }

  /**
   * The end of the tick: while pages remain and nothing failed the progress
   * bar is shown; once every page is done an export that was asked for is
   * written, once.
   */
  function Finish(st: Step): (r: Step)
    ensures InProgress(st.s.state.loading) && !st.s.state.loading.hasError ==>
              r == st.(fx := st.fx.(screen := ProgressBar))
    ensures r.fx.exported == if Complete(st.s.state.loading) && st.s.exportTriggered then Some(st.s.klines) else st.fx.exported
    ensures r.s.exportTriggered == (st.s.exportTriggered && InProgress(st.s.state.loading))
    ensures r.s == st.s.(exportTriggered := r.s.exportTriggered)
    ensures r.fx.issued == st.fx.issued && r.fx.aggregate == st.fx.aggregate && r.fx.published == st.fx.published
  {
    var l := st.s.state.loading;
    if InProgress(l) && !l.hasError then st.(fx := st.fx.(screen := ProgressBar))
    else if Complete(l) && st.s.exportTriggered then
      Step(st.s.(exportTriggered := false), st.fx.(exported := Some(st.s.klines)))
    else st
  }

  /** The drag, export and symbol channels, polled in that order. */
  function Intents(env: Env, s: Session, input: Input): (r: Step)
    ensures Valid(s) ==> Valid(r.s)
    ensures OnlyFresh(s, r.s)
  {
    var st0 := Step(s, NO_EFFECTS);
    var st1 := if input.drag.Some? then OnDrag(env, st0, input.drag.value) else st0;
    var st2 := if input.toExport.Some? then OnExport(env, st1, input.toExport.value) else st1;
    if input.symbol.Some? then OnSymbol(env, st2, input.symbol.value) else st2
  }

  /** The intents that follow the symbol guard: the show channel and then the promise. */
  function Resume(env: Env, st: Step, input: Input): (r: Step)
    ensures Valid(st.s) ==> Valid(r.s)
    ensures st.s.nextId <= r.s.nextId
  {
    var st4 := if input.show.Some? then OnShow(env, st, input.show.value) else st;
    var st5 := if input.ready.Some? then OnReady(st4, input.ready.value) else st4;
    if st5.fx.screen == Panicked then st5 else Finish(st5)
  }

  /** One call of the widget's `ui`, with the drawing left out. */
  function Tick(env: Env, s: Session, input: Input): (r: Step)
    ensures Valid(s) ==> Valid(r.s)
    ensures s.nextId <= r.s.nextId
  {
    var st3 := Intents(env, s, input);
    if st3.s.symbol == "" then st3.(fx := st3.fx.(screen := SymbolPrompt))
    else Resume(env, st3, input)
  }

  /**
   * The widget after one call of `ui` per input, in order. The `unwrap` of
   * `Data::new` on an empty buffer ends the program, so a run stops at the
   * first tick that panics.
   */
  function Run(env: Env, s: Session, inputs: seq<Input>): (r: Session)
    ensures Valid(s) ==> Valid(r)
    ensures s.nextId <= r.nextId
    decreases |inputs|
  {
    if inputs == [] then s
    else
      var t := Tick(env, s, inputs[0]);
      if t.fx.screen == Panicked then t.s else Run(env, t.s, inputs[1..])
  }

  /** How many of the calls of `ui` in a run wrote an export; none follows a panic. */
  function ExportCount(env: Env, s: Session, inputs: seq<Input>): nat
    decreases |inputs|
  {
    if inputs == [] then 0
    else
      var t := Tick(env, s, inputs[0]);
      (if t.fx.exported.Some? then 1 else 0) + (if t.fx.screen == Panicked then 0 else ExportCount(env, t.s, inputs[1..]))
  }
}
