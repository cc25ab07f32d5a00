/**
 * The loading component that the chart widget drives: the chart's `Props`
 * (time range, interval, drag bounds) and the `State` holding them together
 * with the paging progress. Their source (the `netstrat::graph` props and
 * state types and the loading/pages types) is not part of this model, so the
 * module keeps only the operations the widget calls, with the least behaviour
 * that makes those calls meaningful: a plan of pages, a counter of pages
 * done, and an error flag. The page arithmetic (how a time range is cut into
 * pages, which page size is used) and the defaults are parameters, gathered
 * in `Env`.
 */
module LoadingModel {
  import opened Wrappers

  /** A selection on the time axis made by dragging the chart. */
  datatype Bounds = Bounds(left: int, right: int)

  /**
   * The chart's props. `start` is `start_time().timestamp_millis()`, which
   * the real type derives from a date and a time of day; `bounds` is the
   * `BoundsSet`.
   */
  datatype Props = Props(start: int, end: int, interval: string, bounds: seq<Bounds>)

  /** The page plan: the left edge of every page, and `page_size()`, the request limit of every page. */
  datatype Pages = Pages(edges: seq<int>, size: nat)

  /** Paging progress: the plan, how many pages are done, and whether a fetch failed. */
  datatype Loading = Loading(pages: Pages, done: nat, hasError: bool)

  datatype State = State(props: Props, loading: Loading)

  /** `pages.len()`: zero exactly when the plan has no pages. */
  function PageCount(l: Loading): (n: nat)
    ensures n == 0 <==> l.pages.edges == []
  {
    |l.pages.edges|
  }

  /** `progress() < 1.0`: fewer pages done than planned, so some page is planned. */
  predicate InProgress(l: Loading)
  {
    l.done < |l.pages.edges|
  }

  /**
   * `progress() == 1.0`: every planned page is done. With NaN out of the
   * picture this is exactly "not below 1", and a plan with no pages counts as
   * complete.
   */
  predicate Complete(l: Loading)
    ensures Complete(l) <==> !InProgress(l)
    ensures l.pages.edges == [] ==> Complete(l)
  {
    |l.pages.edges| <= l.done
  }

  /**
   * `turn_page()`: counts the current page as done and yields the index of
   * the next page, or `None` once the plan is exhausted.
   */
  function TurnPage(l: Loading): (r: (Loading, Option<nat>))
    ensures r.0.pages == l.pages && r.0.hasError == l.hasError
    ensures r.0.done == l.done + 1
    ensures r.1.Some? <==> InProgress(r.0)
    ensures r.1.Some? ==> r.1.value == r.0.done < PageCount(r.0)
    ensures r.1.None? <==> Complete(r.0)
  {
    var next := Loading(l.pages, l.done + 1, l.hasError);
    (next, if next.done < |next.pages.edges| then Some(next.done) else None)
  }

  /** `k` successive `turn_page()` calls. */
  function TurnPages(l: Loading, k: nat): Loading
    decreases k
  {
    if k == 0 then l else TurnPages(TurnPage(l).0, k - 1)
  }

  /**
   * Paging ends after exactly the planned pages: after `k` more turns the
   * plan is still in progress exactly when fewer than `pages.len()` pages
   * would then be done, and plan and error flag never change.
   */
  lemma {:induction false} PagesRunOut(l: Loading, k: nat)
    ensures TurnPages(l, k).pages == l.pages && TurnPages(l, k).hasError == l.hasError
    ensures InProgress(TurnPages(l, k)) <==> l.done + k < PageCount(l)
    ensures Complete(TurnPages(l, k)) <==> PageCount(l) <= l.done + k
    decreases k
  {
    if k > 0 {
      PagesRunOut(TurnPage(l).0, k - 1);
    }
  }

  /** `left_edge()`: where the page being fetched begins. */
  function LeftEdge(l: Loading): (e: int)
    requires InProgress(l)
    ensures e in l.pages.edges
  {
    l.pages.edges[l.done]
  }

  /** `report_loading_error()`: raises the error flag and changes nothing else. */
  function ReportError(s: State): (r: State)
    ensures r.loading.hasError
    ensures r.props == s.props && r.loading.pages == s.loading.pages && r.loading.done == s.loading.done
  {
    s.(loading := s.loading.(hasError := true))
  }

  /**
   * The parts of the loading component whose code is not modelled:
   * `State::apply_props`, `Props::default()` and `State::default()`.
   */
  datatype Env = Env(applyProps: (State, Props) -> State, defaultProps: Props, defaultState: State)
}
