/**
 * Properties of the chart widget's load episode that relate several steps or
 * several ticks: a result is folded at most once, a superseded promise never
 * delivers, export fires at most once per trigger, nothing past the symbol
 * guard runs without a symbol, and the screen agrees with the progress.
 */
module EpisodeProperties {
  import opened Wrappers
  import opened CandlesData
  import opened LoadingModel
  import opened Episode

  /** Folding the same ready promise a second time changes nothing: the first fold let it go. */
  lemma {:induction false} FoldedAtMostOnce(st: Step, resp: Response)
    requires Valid(st.s)
    ensures OnReady(OnReady(st, resp), resp) == OnReady(st, resp)
  {
    var r := OnReady(st, resp);
    if Answers(st.s, resp) {
      assert r.s.pending.None? || r.s.pending.value.id == st.s.nextId;
      assert !Answers(r.s, resp);
    }
  }

  /** Once `start_download` spawns a request, the promise it replaced can no longer deliver. */
  lemma {:induction false} StartDownloadSupersedes(env: Env, st: Step, props: Props, exporting: bool, resp: Response)
    requires Valid(st.s) && Answers(st.s, resp)
    requires PageCount(env.applyProps(st.s.state, props).loading) > 0
    ensures !Answers(StartDownload(env, st, props, exporting).s, resp)
    ensures OnReady(StartDownload(env, st, props, exporting), resp) == StartDownload(env, st, props, exporting)
  {
    var r := StartDownload(env, st, props, exporting);
    assert r.s.pending.value.id == st.s.nextId;
  }

  /** Freshness carries over two consecutive steps. */
  lemma {:induction false} OnlyFreshTransitive(a: Session, b: Session, c: Session)
    requires OnlyFresh(a, b) && OnlyFresh(b, c)
    ensures OnlyFresh(a, c)
  {
    if c.pending != a.pending {
      if c.pending == b.pending {
        assert b.pending != a.pending;
      }
      assert c.pending.Some? && a.nextId <= c.pending.value.id;
    }
  }

  /**
   * An outcome of an earlier request that is not the one pending at the start
   * of a tick is ignored by that tick altogether: every request the tick
   * spawns has a newer id.
   */
  lemma {:induction false} SupersededOutcomeIgnored(env: Env, s: Session, input: Input, resp: Response)
    requires Valid(s) && input.ready == Some(resp)
    requires resp.id < s.nextId && !Answers(s, resp)
    ensures Tick(env, s, input) == Tick(env, s, input.(ready := None))
  {
    var st3 := Intents(env, s, input);
    assert Intents(env, s, input.(ready := None)) == st3;
    if st3.s.symbol != "" {
      var st4 := if input.show.Some? then OnShow(env, st3, input.show.value) else st3;
      assert OnlyFresh(st3.s, st4.s);
      OnlyFreshTransitive(s, st3.s, st4.s);
      assert !Answers(st4.s, resp);
    }
  }

  /** A fold leaves no promise that the same outcome answers, and keeps the symbol. */
  lemma {:induction false} FoldLeavesNothingToFold(st: Step, resp: Response)
    requires Valid(st.s)
    ensures !Answers(OnReady(st, resp).s, resp)
    ensures OnReady(st, resp).s.symbol == st.s.symbol
  {
    FoldedAtMostOnce(st, resp);
  }

  /** A quiet tick delivering an outcome no promise answers changes nothing once export can no longer fire. */
  lemma {:induction false} QuietRetick(env: Env, s: Session, resp: Response)
    requires !Answers(s, resp) && s.symbol != ""
    requires s.exportTriggered ==> InProgress(s.state.loading)
    ensures Tick(env, s, Input(None, None, None, None, Some(resp))).s == s
  {
    var quiet := Input(None, None, None, None, Some(resp));
    assert Intents(env, s, quiet) == Step(s, NO_EFFECTS);
    assert OnReady(Step(s, NO_EFFECTS), resp) == Step(s, NO_EFFECTS);
  }

  /**
   * A tick that reached its promise and did not panic leaves nothing for the
   * same outcome to do: delivering it again on a tick with no intents leaves
   * the widget exactly as it was.
   */
  lemma {:induction false} SecondDeliveryIsNoOp(env: Env, s: Session, input: Input, resp: Response)
    requires Valid(s) && input.ready == Some(resp)
    requires Intents(env, s, input).s.symbol != ""
    requires Tick(env, s, input).fx.screen != Panicked
    ensures Tick(env, Tick(env, s, input).s, Input(None, None, None, None, Some(resp))).s == Tick(env, s, input).s
  {
    var st3 := Intents(env, s, input);
    var st4 := if input.show.Some? then OnShow(env, st3, input.show.value) else st3;
    assert st4.s.symbol != "" && Valid(st4.s);
    var st5 := OnReady(st4, resp);
    FoldLeavesNothingToFold(st4, resp);
    assert Tick(env, s, input) == Finish(st5);
    QuietRetick(env, Finish(st5).s, resp);
  }

  /** The drag, export and symbol intents export nothing; the trigger they leave armed came from one of them or from before. */
  lemma {:induction false} IntentsArmExport(env: Env, s: Session, input: Input)
    ensures var st3 := Intents(env, s, input);
            st3.fx.exported.None? && st3.fx.screen == Chart &&
            (st3.s.exportTriggered ==> input.toExport.Some? || (input.drag.None? && s.exportTriggered))
  {
    var st0 := Step(s, NO_EFFECTS);
    var st1 := if input.drag.Some? then OnDrag(env, st0, input.drag.value) else st0;
    var st2 := if input.toExport.Some? then OnExport(env, st1, input.toExport.value) else st1;
    assert st1.fx.exported.None? && st1.fx.screen == Chart;
    assert st2.fx.exported.None? && st2.fx.screen == Chart;
    assert st2.s.exportTriggered ==> input.toExport.Some? || (input.drag.None? && s.exportTriggered);
  }

  /** Past the symbol guard, an export needs the trigger armed, no show intent, and every page done. */
  lemma {:induction false} ResumeExport(env: Env, st: Step, input: Input)
    requires st.fx.exported.None? && st.fx.screen == Chart
    ensures var r := Resume(env, st, input);
            r.fx.exported.Some? ==>
              input.show.None? && st.s.exportTriggered &&
              Complete(r.s.state.loading) && !r.s.exportTriggered &&
              r.fx.exported == Some(r.s.klines) && r.fx.screen == Chart
  {
    var st4 := if input.show.Some? then OnShow(env, st, input.show.value) else st;
    assert st4.fx.exported.None? && st4.fx.screen == Chart;
    assert input.show.Some? ==> !st4.s.exportTriggered;
    var st5 := if input.ready.Some? then OnReady(st4, input.ready.value) else st4;
    assert st5.fx.exported.None?;
    assert st5.s.exportTriggered == st4.s.exportTriggered;
  }

  /**
   * An export is written only when every page is done and an export intent
   * arrived on this tick, or an earlier one is still armed and no drag or show
   * disarmed it; writing it disarms the trigger, and what is written is the
   * whole buffer.
   */
  lemma {:induction false} ExportNeedsTrigger(env: Env, s: Session, input: Input)
    ensures var r := Tick(env, s, input);
            r.fx.exported.Some? ==>
              input.show.None? && (input.toExport.Some? || (input.drag.None? && s.exportTriggered)) &&
              Complete(r.s.state.loading) && !r.s.exportTriggered &&
              r.fx.exported == Some(r.s.klines) && r.fx.screen == Chart
  {
    IntentsArmExport(env, s, input);
    var st3 := Intents(env, s, input);
    if st3.s.symbol != "" {
      ResumeExport(env, st3, input);
    }
  }

  /** With export disarmed and no export intent, a tick exports nothing and leaves export disarmed. */
  lemma {:induction false} DisarmedStaysDisarmed(env: Env, s: Session, input: Input)
    requires !s.exportTriggered && input.toExport.None?
    ensures !Tick(env, s, input).s.exportTriggered
    ensures Tick(env, s, input).fx.exported.None?
  {
    IntentsArmExport(env, s, input);
    ExportNeedsTrigger(env, s, input);
  }

  /** A run of ticks without export intents, starting disarmed, exports nothing. */
  lemma {:induction false} DisarmedRunExportsNothing(env: Env, s: Session, inputs: seq<Input>)
    requires !s.exportTriggered
    requires forall i | 0 <= i < |inputs| :: inputs[i].toExport.None?
    ensures ExportCount(env, s, inputs) == 0
    decreases |inputs|
  {
    if inputs != [] {
      DisarmedStaysDisarmed(env, s, inputs[0]);
      DisarmedRunExportsNothing(env, Tick(env, s, inputs[0]).s, inputs[1..]);
    }
  }

  /**
   * Export fires at most once per trigger: over any run of ticks without an
   * export intent at most one tick writes an export, and none does when the
   * run starts disarmed.
   */
  lemma {:induction false} ExportAtMostOncePerTrigger(env: Env, s: Session, inputs: seq<Input>)
    requires forall i | 0 <= i < |inputs| :: inputs[i].toExport.None?
    ensures ExportCount(env, s, inputs) <= 1
    ensures !s.exportTriggered ==> ExportCount(env, s, inputs) == 0
    decreases |inputs|
  {
    if !s.exportTriggered {
      DisarmedRunExportsNothing(env, s, inputs);
    } else if inputs != [] {
      var t := Tick(env, s, inputs[0]);
      if t.fx.exported.Some? {
        ExportNeedsTrigger(env, s, inputs[0]);
        DisarmedRunExportsNothing(env, t.s, inputs[1..]);
      } else {
        ExportAtMostOncePerTrigger(env, t.s, inputs[1..]);
      }
    }
  }

  /** An outcome of an earlier request that is no longer pending stays so after any tick. */
  lemma {:induction false} StaleStaysStale(env: Env, s: Session, input: Input, resp: Response)
    requires Valid(s) && resp.id < s.nextId && !Answers(s, resp)
    ensures var r := Tick(env, s, input).s;
            Valid(r) && resp.id < r.nextId && !Answers(r, resp)
  {
    var st3 := Intents(env, s, input);
    if st3.s.symbol != "" {
      var st4 := if input.show.Some? then OnShow(env, st3, input.show.value) else st3;
      OnlyFreshTransitive(s, st3.s, st4.s);
      assert !Answers(st4.s, resp);
      var st5 := if input.ready.Some? then OnReady(st4, input.ready.value) else st4;
      assert OnlyFresh(st4.s, st5.s) || st5.s.pending.None?;
      if st5.s.pending.Some? {
        OnlyFreshTransitive(s, st4.s, st5.s);
      }
      assert !Answers(st5.s, resp);
    }
  }

  /**
   * An outcome of any request spawned before the end of a tick that gets past
   * the symbol guard with it, including one spawned by that very tick, is
   * stale afterwards, whether the tick folded it or an intent replaced its
   * promise.
   */
  lemma {:induction false} DeliveredOutcomeBecomesStale(env: Env, s: Session, input: Input, resp: Response)
    requires Valid(s) && input.ready == Some(resp) && resp.id < Tick(env, s, input).s.nextId
    requires Intents(env, s, input).s.symbol != ""
    ensures var r := Tick(env, s, input).s;
            Valid(r) && resp.id < r.nextId && !Answers(r, resp)
  {
    var st3 := Intents(env, s, input);
    var st4 := if input.show.Some? then OnShow(env, st3, input.show.value) else st3;
    assert Valid(st4.s);
    FoldLeavesNothingToFold(st4, resp);
  }

  /** The inputs with every delivery of `resp` taken out. */
  function WithoutResponse(inputs: seq<Input>, resp: Response): (r: seq<Input>)
    ensures |r| == |inputs|
    decreases |inputs|
  {
    if inputs == [] then []
    else
      var first := if inputs[0].ready == Some(resp) then inputs[0].(ready := None) else inputs[0];
      [first] + WithoutResponse(inputs[1..], resp)
  }

  /** A stale outcome is never folded: every later delivery of it, on any run of ticks, has no effect. */
  lemma {:induction false} StaleNeverFolded(env: Env, s: Session, inputs: seq<Input>, resp: Response)
    requires Valid(s) && resp.id < s.nextId && !Answers(s, resp)
    ensures Run(env, s, inputs) == Run(env, s, WithoutResponse(inputs, resp))
    decreases |inputs|
  {
    if inputs != [] {
      var rest := WithoutResponse(inputs, resp);
      assert rest[1..] == WithoutResponse(inputs[1..], resp);
      if inputs[0].ready == Some(resp) {
        SupersededOutcomeIgnored(env, s, inputs[0], resp);
      }
      assert Tick(env, s, rest[0]) == Tick(env, s, inputs[0]);
      StaleStaysStale(env, s, inputs[0], resp);
      StaleNeverFolded(env, Tick(env, s, inputs[0]).s, inputs[1..], resp);
    }
  }

  /**
   * No result is folded twice: once a tick past the symbol guard has taken an
   * outcome, delivering it again on any later run of ticks, intents included,
   * changes nothing.
   */
  lemma {:induction false} FoldedNeverFoldedAgain(env: Env, s: Session, input: Input, later: seq<Input>, resp: Response)
    requires Valid(s) && input.ready == Some(resp) && resp.id < Tick(env, s, input).s.nextId
    requires Intents(env, s, input).s.symbol != ""
    ensures var r := Tick(env, s, input).s;
            Run(env, r, later) == Run(env, r, WithoutResponse(later, resp))
  {
    DeliveredOutcomeBecomesStale(env, s, input, resp);
    StaleNeverFolded(env, Tick(env, s, input).s, later, resp);
  }

  /**
   * Without a symbol after the drag, export and symbol channels have been
   * polled, the tick stops at the prompt: the show intent and the promise are
   * not looked at.
   */
  lemma {:induction false} SymbolGuard(env: Env, s: Session, input: Input)
    requires Intents(env, s, input).s.symbol == ""
    ensures Tick(env, s, input) == Tick(env, s, input.(show := None, ready := None))
    ensures Tick(env, s, input).s == Intents(env, s, input).s
    ensures Tick(env, s, input).fx.screen == SymbolPrompt
  {
    assert Intents(env, s, input.(show := None, ready := None)) == Intents(env, s, input);
  }

  /** A fold panics only when it ends the episode on an empty buffer; otherwise it keeps the screen. */
  lemma {:induction false} FoldPanicsOnlyAtEnd(st: Step, resp: Response)
    requires st.fx.screen != Panicked
    ensures var r := OnReady(st, resp);
            r.s.symbol == st.s.symbol &&
            (r.fx.screen == Panicked ==> Complete(r.s.state.loading) && r.s.klines == [] && r.s.pending.None?) &&
            (r.fx.screen != Panicked ==> r.fx.screen == st.fx.screen)
  {
  }

  /** Past the symbol guard the progress bar is shown exactly while pages remain and nothing failed. */
  lemma {:induction false} ResumeScreen(env: Env, st: Step, input: Input)
    requires st.fx.screen == Chart && st.s.symbol != ""
    ensures var r := Resume(env, st, input);
            r.s.symbol != "" &&
            (r.fx.screen == ProgressBar <==> InProgress(r.s.state.loading) && !r.s.state.loading.hasError) &&
            (r.fx.screen == Panicked ==> Complete(r.s.state.loading) && r.s.klines == [] && r.s.pending.None?)
  {
    var st4 := if input.show.Some? then OnShow(env, st, input.show.value) else st;
    assert st4.fx.screen == Chart && st4.s.symbol != "";
    if input.ready.Some? {
      FoldPanicsOnlyAtEnd(st4, input.ready.value);
    }
  }

  /**
   * The progress bar is shown exactly when a symbol is set, pages remain and
   * no fetch failed; a panic happens only at the end of an episode.
   */
  lemma {:induction false} ScreenReflectsProgress(env: Env, s: Session, input: Input)
    ensures var r := Tick(env, s, input);
            (r.fx.screen == ProgressBar <==>
               r.s.symbol != "" && InProgress(r.s.state.loading) && !r.s.state.loading.hasError) &&
            (r.fx.screen == Panicked ==> Complete(r.s.state.loading) && r.s.klines == [] && r.s.pending.None?)
  {
    IntentsArmExport(env, s, input);
    var st3 := Intents(env, s, input);
    if st3.s.symbol != "" {
      ResumeScreen(env, st3, input);
    }
  }

  /**
   * A tick without intents only moves the episode forward: the plan and the
   * props stay, the page count never goes back, a raised error stays raised,
   * and the buffer only grows at its end.
   */
  lemma {:induction false} QuietTickOnlyAdvances(env: Env, s: Session, resp: Option<Response>)
    ensures var r := Tick(env, s, Input(None, None, None, None, resp));
            r.s.state.props == s.state.props && r.s.state.loading.pages == s.state.loading.pages &&
            s.state.loading.done <= r.s.state.loading.done &&
            (s.state.loading.hasError ==> r.s.state.loading.hasError) &&
            |s.klines| <= |r.s.klines| && r.s.klines[..|s.klines|] == s.klines
  {
    var input := Input(None, None, None, None, resp);
    var st := Step(s, NO_EFFECTS);
    assert Intents(env, s, input) == st;
    if s.symbol != "" {
      var st5 := if resp.Some? then OnReady(st, resp.value) else st;
      assert st5.s.state.props == s.state.props && st5.s.state.loading.pages == s.state.loading.pages;
      assert s.state.loading.done <= st5.s.state.loading.done;
      assert |s.klines| <= |st5.s.klines| && st5.s.klines[..|s.klines|] == s.klines;
    }
  }

  /**
   * An export intent whose plan has no pages clears the buffer but keeps the
   * promise of the previous episode, whose batch then lands in the cleared
   * buffer.
   */
  lemma {:induction false} EmptyPlanKeepsOldPromise(env: Env, st: Step, props: Props, batch: seq<Kline>)
    requires st.s.pending.Some?
    requires PageCount(env.applyProps(env.defaultState, props).loading) == 0
    ensures OnExport(env, st, props).s.pending == st.s.pending
    ensures OnReady(OnExport(env, st, props), Response(st.s.pending.value.id, Fetched(batch))).s.klines == batch
  {
    var r := OnExport(env, st, props);
    assert r == StartDownload(env, Reset(env, st), props, true);
    assert r.s.pending == st.s.pending;
    assert Answers(r.s, Response(st.s.pending.value.id, Fetched(batch)));
  }
}
