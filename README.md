# netstrat candle chart: load-episode controller and aggregate

This project models, in Dafny, the two pieces of sequential logic in the
netstrat desktop application that drive its candle chart:

- the **load-episode controller** of the `Graph` widget
  (`src/widgets/graph/graph.rs`). On every UI tick it polls the drag, export,
  symbol and show channels. Every intent except drag first clears the candle
  buffer and resets the loading state. A symbol intent always requests the
  first page. A drag, export or show intent requests it only when the
  applied props plan at least one page; otherwise it starts nothing and
  keeps the promise already held. The tick folds the outcome of the pending page request into the
  buffer, then either requests the next page from the loading component's
  left edge or ends the episode and builds the aggregate. A failed fetch
  raises the error flag. An export that was asked for is written once the
  episode is complete.
- the **aggregate** `Data::new` (`src/widgets/candles_graph/data.rs`): the
  stored buffer, the largest high, the largest volume and the close time of
  the last candle.

## Structure

- `wrappers.dfy` (`Wrappers`): `Option`.
- `data.dfy` (`CandlesData`): `Kline`, the `max_by` fold with the widget's
  comparator, `Data` and `NewData`. The accessors `max_x`, `max_y` and
  `max_vol` are the datatype's field selectors `maxX`, `maxY` and `maxVol`.
  They return the stored field and have no other effect.
- `loading.dfy` (`LoadingModel`): the props and loading state that the widget
  calls into. Their own source is not part of this model. They keep only the
  operations the widget uses:
  - `pages.len()`, `page_size()`, `turn_page()`, `left_edge()`, `progress()`,
    `has_error` and `report_loading_error()`.
  - A plan is a list of page left edges plus a page size. `page_size()` is
    the field `pages.size` of the plan, and `progress()`'s two comparisons
    are the predicates `InProgress` and `Complete`.
  - `turn_page()` counts one more page as done and yields `Some` while pages
    remain.
  - `progress() < 1.0` is "pages done < pages planned", and
    `progress() == 1.0` is its negation.
  - How `State::apply_props` plans the pages, and what `Props::default()`
    and `State::default()` are, are parameters (`Env`). The rest of the
    loading component is a page counter: `turn_page()` adds one done page
    and yields `Some` while pages remain, and `left_edge()` is the planned
    edge of the current page.
- `episode.dfy` (`Episode`): each step of a tick as a function on a
  `Session`, which holds the widget's fields. The steps are `start_download`,
  each intent, the fold of a ready promise and the end of the tick.
  - A tick (`Tick`) takes the optional intents and an optional ready outcome.
    It returns the new session and its effects: the requests spawned, the
    symbol published, the aggregate built, the candles exported, and how the
    tick ended (symbol prompt, progress bar, chart or panic).
  - Each request carries an id drawn from a counter. This is how the model
    stands for promise identity: an outcome is folded only if it answers the
    request currently held.
- `properties.dfy` (`EpisodeProperties`): lemmas that relate several steps
  or ticks.
- `graph.dfy` (`GraphWidget`): the widget as a class. Its fields are
  `klines`, `symbol`, `exportTriggered`, `pending` and `state`.
  - `StartDownload` and `Tick` (split into `PollIntents`, `PollShow`, `Fold`
    and `Conclude`) update those fields in place.
  - `Append` pushes a batch one candle at a time, like the source's
    `for_each`.
  - Every method is proved to reach the session and effects that the
    `Episode` function gives, and `Tick` keeps request ids fresh.
- `scenario.dfy` (`EpisodeScenario`): one worked episode with a two-page
  plan.

Behaviour of the code worth knowing:

- `graph.rs` starts the next request at the loading component's precomputed
  `left_edge()` (line 223). It does not compute it from the last candle
  received.
- An empty batch does not end the episode early; the page is turned as usual
  (`graph.rs` lines 218-222).
- When the episode completes with an empty buffer, `graph.rs` line 233 calls
  `Data::new` on it, whose `unwrap` in `data.rs` panics (`Screen.Panicked`).
  The caller does not guard against this, and the panic ends the program, so
  a `Run` of ticks stops there.
- Outcomes of an abandoned episode are dropped only because their promise is
  replaced. An export or show whose plan has no pages keeps the previous
  promise (`graph.rs` lines 115-118), whose batch then lands in the cleared
  buffer (`EmptyPlanKeepsOldPromise`).
- A symbol intent spawns its request even when the plan has no pages, and it
  leaves the export flag as it was (`graph.rs` lines 174-193).

## Model

| member | source | states |
|---|---|---|
| CandlesData.MaxByFrom | src/widgets/candles_graph/data.rs:19-25 | the `max_by` fold with the strict comparator returns the accumulator or one of the remaining candles, no candle seen has a larger key, and on ties the later candle wins: the result sits at a position after which every key is strictly smaller |
| CandlesData.MaxBy | src/widgets/candles_graph/data.rs:17-39 | on a non-empty buffer the selected candle belongs to the buffer, every candle's key is at most its key, and it is the last candle with the greatest key |
| CandlesData.NewData | src/widgets/candles_graph/data.rs:16-54 | needs a non-empty buffer; stores it unchanged; `max_x` is the last candle's close time; `max_y` bounds every high and equals one; `max_vol` bounds every volume and equals one |
| CandlesData.GreatestIndependentOfOrder | src/widgets/candles_graph/data.rs:19-25 | two buffers with the same candles in any order have the same greatest key |
| CandlesData.NewDataOrderIndependent | src/widgets/candles_graph/data.rs:17-39 | any permutation of the buffer gives the same `max_y` and `max_vol` |
| CandlesData.ThreeCandles | src/widgets/candles_graph/data.rs:16-54 | highs 10, 25, 7 and volumes 100, 50, 200 give `max_y` 25, `max_vol` 200, and `max_x` the last close time |
| LoadingModel.PageCount | src/widgets/graph/graph.rs:115 | `pages.len()` is zero exactly when the plan has no page edges |
| LoadingModel.Complete | src/widgets/graph/graph.rs:260 | `progress() == 1.0` is exactly the negation of `progress() < 1.0`, and a plan with no pages is complete |
| LoadingModel.TurnPage | src/widgets/graph/graph.rs:222 | turning a page counts one more page as done, keeps the plan and the error flag, and yields a page exactly when pages remain, that is when progress is still below 1 |
| LoadingModel.PagesRunOut | src/widgets/graph/graph.rs:222-236 | after any number of further `turn_page()` calls the plan and error flag are unchanged, and progress is still below 1 exactly while fewer than `pages.len()` pages would be done, and equal to 1 otherwise |
| LoadingModel.LeftEdge | src/widgets/graph/graph.rs:223 | while pages remain, the left edge is one of the plan's page edges |
| LoadingModel.ReportError | src/widgets/graph/graph.rs:241 | raises the error flag and keeps the props, plan and page count |
| Episode.Initial | src/widgets/graph/graph.rs:83-108 | a new widget has no candles, no symbol, no promise, export not armed and the default state, and its request ids are fresh |
| Episode.Reset | src/widgets/graph/graph.rs:163-164 | clearing for a new episode empties the buffer and restores the default state, keeping symbol, promise, export flag and counter |
| Episode.DragProps | src/widgets/graph/graph.rs:146-149 | the dragged bound becomes the only bound and the dragged start the new start; end and interval are kept |
| Episode.Issue | src/widgets/graph/graph.rs:129-131 | spawning a request replaces the held promise with one for the given start and limit under a fresh id, and logs it as issued |
| Episode.StartDownload | src/widgets/graph/graph.rs:110-132 | always sets the export flag to its argument and applies the props; with no pages it spawns nothing and keeps the held promise; otherwise it spawns exactly one request from the props' start time with `page_size()` as limit, replacing the previous one; buffer and symbol unchanged |
| Episode.OnDrag | src/widgets/graph/graph.rs:141-153 | a drag keeps the buffer and the state (props are applied to the current state, with the dragged bounds and start substituted) and disarms export; with no pages planned the promise and effects stay, otherwise the one request issued is for the current symbol and interval from the dragged start with `page_size()` as limit |
| Episode.OnExport | src/widgets/graph/graph.rs:159-168 | an export intent clears the buffer, applies the props to the default state and arms export; with no pages planned the promise and effects stay, otherwise the one request issued is for the current symbol and the props' interval and start with `page_size()` as limit |
| Episode.OnSymbol | src/widgets/graph/graph.rs:174-193 | a symbol intent clears the buffer, sets the symbol, publishes it, applies the default props to the default state, and always spawns one request from the applied props' start with `page_size()`; the export flag is unchanged |
| Episode.OnShow | src/widgets/graph/graph.rs:203-212 | a show intent clears the buffer, applies the props to the default state and disarms export; with no pages planned the promise and effects stay, otherwise the one request issued is for the current symbol and the props' interval and start with `page_size()` as limit |
| Episode.OnReady | src/widgets/graph/graph.rs:214-246 | an outcome of a promise not held changes nothing; a batch is appended after the buffer in order and the page turned; then either exactly one request from the new left edge with the props' interval and `page_size()`, or the promise is dropped and the aggregate is built from the whole buffer (a panic if it is empty); a failure raises the error flag, drops the promise and keeps the buffer |
| Episode.Finish | src/widgets/graph/graph.rs:248-281 | while pages remain and no error is raised, the progress bar is shown and nothing else happens; the export is written, as the whole buffer, exactly when every page is done and export is armed, and export stays armed only while pages remain |
| Episode.Intents | src/widgets/graph/graph.rs:137-193 | polling the drag, export and symbol channels keeps request ids fresh, and any promise it leaves is the old one or a new one |
| Episode.Resume | src/widgets/graph/graph.rs:199-281 | the show channel, the fold and the end of the tick keep request ids fresh and never lower the counter |
| Episode.Tick | src/widgets/graph/graph.rs:136-281 | a tick keeps the pending request's id below the counter and never lowers the counter, so no later request shares an earlier id |
| Episode.Run | src/widgets/graph/graph.rs:136-281 | one call of `ui` per input, stopping at the first tick that panics since that ends the program; any run keeps request ids fresh and never lowers the counter |
| EpisodeProperties.FoldedAtMostOnce | src/widgets/graph/graph.rs:214-245 | folding the same outcome twice is the same as folding it once |
| EpisodeProperties.StartDownloadSupersedes | src/widgets/graph/graph.rs:129-131 | after `start_download` spawns a request, the outcome of the request it replaced is ignored |
| EpisodeProperties.SupersededOutcomeIgnored | src/widgets/graph/graph.rs:214-216 | an outcome of an earlier request that is not pending at the start of a tick has no effect on that tick at all |
| EpisodeProperties.SecondDeliveryIsNoOp | src/widgets/graph/graph.rs:214-246 | after a tick that reached the promise without panicking, delivering the same outcome again on the next quiet tick leaves the widget unchanged (`FoldedNeverFoldedAgain` covers any later run) |
| EpisodeProperties.FoldLeavesNothingToFold | src/widgets/graph/graph.rs:222-243 | after a fold no held promise answers the same outcome, and the symbol is unchanged |
| EpisodeProperties.QuietRetick | src/widgets/graph/graph.rs:214-281 | a tick without intents whose outcome answers no held promise, with export unable to fire, leaves the widget unchanged |
| EpisodeProperties.FoldPanicsOnlyAtEnd | src/widgets/graph/graph.rs:231-236 | a fold panics only when it completes the episode on an empty buffer with no promise held; otherwise it keeps the screen and the symbol |
| EpisodeProperties.ResumeScreen | src/widgets/graph/graph.rs:199-258 | past the symbol guard the progress bar is shown exactly while pages remain and no error is raised, and a panic happens only at the end of an episode |
| EpisodeProperties.IntentsArmExport | src/widgets/graph/graph.rs:137-193 | the intents export nothing, and export is left armed only by an export intent or by an earlier arming that no drag disarmed |
| EpisodeProperties.ResumeExport | src/widgets/graph/graph.rs:199-281 | past the symbol guard, an export needs export armed, no show intent and every page done; it disarms export and writes the whole buffer |
| EpisodeProperties.ExportNeedsTrigger | src/widgets/graph/graph.rs:248-281 | a tick exports only with every page done, no show intent, and export armed on this tick or before and not disarmed by a drag; it then disarms export and writes the whole buffer |
| EpisodeProperties.DisarmedStaysDisarmed | src/widgets/graph/graph.rs:141-168 | with export disarmed and no export intent, a tick exports nothing and leaves export disarmed |
| EpisodeProperties.DisarmedRunExportsNothing | src/widgets/graph/graph.rs:260-281 | a run of ticks without export intents that starts disarmed exports nothing |
| EpisodeProperties.ExportAtMostOncePerTrigger | src/widgets/graph/graph.rs:260-281 | over any run of ticks without export intents at most one tick exports, and none does when the run starts disarmed |
| EpisodeProperties.StaleStaysStale | src/widgets/graph/graph.rs:214-216 | an outcome of an earlier request that is not pending is still not pending after any tick, and ids stay fresh |
| EpisodeProperties.DeliveredOutcomeBecomesStale | src/widgets/graph/graph.rs:214-246 | a tick past the symbol guard that receives an outcome of any request issued before the tick ends, including one issued by that tick, leaves that outcome not pending, whether it was folded or its promise replaced |
| EpisodeProperties.StaleNeverFolded | src/widgets/graph/graph.rs:214-216 | on any run of ticks, taking out every delivery of a stale outcome leaves the final widget unchanged |
| EpisodeProperties.FoldedNeverFoldedAgain | src/widgets/graph/graph.rs:214-246 | once a tick past the symbol guard has received an outcome of any request issued before the tick ends, delivering it again on any later run of ticks, intents included, changes nothing |
| EpisodeProperties.SymbolGuard | src/widgets/graph/graph.rs:195-197 | with no symbol after the first three channels, the show intent and the promise are not processed, the state is that after the intents, and the symbol prompt is shown |
| EpisodeProperties.ScreenReflectsProgress | src/widgets/graph/graph.rs:248-258 | the progress bar is shown exactly when a symbol is set, pages remain and no error is raised; a panic happens only with every page done, an empty buffer and no promise held |
| EpisodeProperties.QuietTickOnlyAdvances | src/widgets/graph/graph.rs:214-246 | a tick without intents keeps props and plan, never lowers the page count, keeps a raised error, and only extends the buffer at its end |
| EpisodeProperties.EmptyPlanKeepsOldPromise | src/widgets/graph/graph.rs:115-118 | an export intent whose plan has no pages clears the buffer but keeps the old promise, whose batch then becomes the whole buffer |
| EpisodeScenario.SymbolStartsEpisode | src/widgets/graph/graph.rs:174-193 | selecting a symbol requests the first page from the window's start with limit 2 and shows the progress bar |
| EpisodeScenario.FirstPageAdvances | src/widgets/graph/graph.rs:218-230 | the first page's two candles are kept and the next page is requested two hours later |
| EpisodeScenario.FourCandleAggregate | src/widgets/candles_graph/data.rs:16-54 | the four candles of the episode aggregate to the largest high 25, the largest volume 200 and the last close time |
| EpisodeScenario.SecondPageCompletes | src/widgets/graph/graph.rs:231-236 | the second page completes the episode, drops the promise and hands over the aggregate of all four candles |
| GraphWidget.Graph.constructor | src/widgets/graph/graph.rs:83-108 | a new widget has no symbol, an empty buffer, the default state, no promise and no export armed |
| GraphWidget.Graph.Issue | src/widgets/graph/graph.rs:129-131 | the fields change as `Episode.Issue` describes |
| GraphWidget.Graph.StartDownload | src/widgets/graph/graph.rs:110-132 | the fields and effects change as `Episode.StartDownload` describes |
| GraphWidget.Graph.Append | src/widgets/graph/graph.rs:218-220 | pushing the batch one candle at a time yields the old buffer followed by the batch; nothing else changes |
| GraphWidget.Graph.PollIntents | src/widgets/graph/graph.rs:137-193 | the fields and effects change as `Episode.Intents` describes |
| GraphWidget.Graph.PollShow | src/widgets/graph/graph.rs:199-212 | the fields and effects change as `Episode.OnShow` describes |
| GraphWidget.Graph.Fold | src/widgets/graph/graph.rs:214-246 | the fields and effects change as `Episode.OnReady` describes |
| GraphWidget.Graph.Conclude | src/widgets/graph/graph.rs:248-281 | only the export flag and the effects change, as `Episode.Finish` describes |
| GraphWidget.Graph.Tick | src/widgets/graph/graph.rs:136-281 | one call of `ui` reaches the fields and effects of `Episode.Tick` and keeps request ids fresh |

## Left out

- Rendering: the progress bar, panels, strip layout, the candle and volume widgets, repaint requests and the time range window. These are GUI calls; the model keeps only which screen a tick ends on.
- Channels: the crossbeam polls with short timeouts. Each tick takes at most one message per channel as an input; concurrency is not modelled.
- Fetching: `Promise::spawn_async` and `Client::kline` are asynchronous network I/O. A request is recorded with its symbol, interval, start and limit, and its outcome is a tick input.
- CSV export: creating the file, naming it and serialising the candles are file I/O. They become the effect "the buffer was exported".
- Drag time conversion: the chrono and floating-point conversion of the dragged bound. The new start time is an input.
- The loading component's internals: how `State::apply_props` plans pages, the page size and the defaults are not part of this model. They are parameters in `Env`.
- `progress()` as a floating-point fraction: it is compared only with 1, so it is modelled as a page-count comparison. A plan with no pages counts as complete; the NaN that a 0/0 would give is not modelled.
- Logging: the `tracing` macros.
- Publishing the symbol: the `unwrap` on `symbol_pub.send` cannot fail while the time range window holds the receiver, so it is modelled as an effect without a failure path.
- Numbers: prices, volumes and times are unbounded integers, not `f64`.
