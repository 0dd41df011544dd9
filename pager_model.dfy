/**
 * The pagination state machine of the `usePager` hook, as values.
 *
 * The hook keeps six state cells (the last dispatched page index, the current
 * page index, the item list and the `loading`, `lastPageLoaded` and `error`
 * flags) and changes them from two actions and from an effect that issues a
 * fetch whenever the current page index differs from the last dispatched one.
 * Here a `State` holds those six cells, plus the fetches that were issued and
 * have not resolved yet, plus the number of page-loaded notifications that
 * were scheduled and have not run yet. Every step of the hook is a function
 * from `State` to `State`; the class in module `UsePager` runs them in place.
 */
module PagerModel {

  /** Value of the last-dispatched marker after `startNewQuery`: no page of this query dispatched yet. */
  const NoPage: int := -1

  /**
   * What the effect captured when it issued a fetch: the page index it asked
   * for, whether it decided to append (the marker was not `NoPage`), and the
   * item list of that moment, onto which a non-empty page is concatenated.
   */
  datatype Fetch<T> = Fetch(page: int, append: bool, base: seq<T>)

  /** How a fetch ends: with a page of items (possibly empty), or rejected. */
  datatype Outcome<T> = Loaded(page: seq<T>) | Failed

  datatype State<T> = State(
    lastPageIndex: int,
    pageIndex: int,
    items: seq<T>,
    loading: bool,
    lastPageLoaded: bool,
    error: bool,
    inFlight: seq<Fetch<T>>,
    notifications: nat)

  /** The effect's guard: a fetch is due when the page index moved away from the last dispatched one. */
  predicate DispatchDue<T>(s: State<T>) {
    s.pageIndex != s.lastPageIndex
  }

  /** The effect's append/replace decision, taken before the marker is updated. */
  predicate Appending<T>(s: State<T>) {
    s.lastPageIndex != NoPage
  }

  /** Page indices are never negative and the last dispatched index never overtakes the current one. */
  predicate Wf<T>(s: State<T>) {
    0 <= s.pageIndex && NoPage <= s.lastPageIndex <= s.pageIndex
  }

  /** The state cells as `usePager(initialPage, initialData, ...)` creates them. */
  function Init<T>(initialPage: nat, initialData: seq<T>): (s: State<T>)
    ensures Wf(s)
    ensures s.lastPageIndex == 0 && s.pageIndex == initialPage && s.items == initialData
    ensures !s.loading && !s.lastPageLoaded && !s.error
    ensures s.inFlight == [] && s.notifications == 0
    ensures DispatchDue(s) <==> initialPage != 0
    ensures Appending(s)
  {
    State(0, initialPage, initialData, false, false, false, [], 0)
  }

  /** `startNewQuery`: rewind to page 0 of a new query; the items stay until page 0 arrives. */
  function StartNewQuery<T>(s: State<T>): (r: State<T>)
    ensures Wf(r)
    ensures r.pageIndex == 0 && DispatchDue(r) && !Appending(r)
    ensures r.loading && !r.lastPageLoaded && !r.error
    ensures r.items == s.items && r.inFlight == s.inFlight && r.notifications == s.notifications
  {
    s.(loading := true, pageIndex := 0, lastPageLoaded := false, lastPageIndex := NoPage, error := false)
  }

  /** `loadNextPage`: move to the following page; nothing else but the two flags changes. */
  function LoadNextPage<T>(s: State<T>): (r: State<T>)
    ensures Wf(s) ==> Wf(r)
    ensures r.pageIndex == s.pageIndex + 1
    ensures r.loading && !r.error
    ensures r.items == s.items && r.lastPageLoaded == s.lastPageLoaded
    ensures r.lastPageIndex == s.lastPageIndex && r.inFlight == s.inFlight && r.notifications == s.notifications
    ensures Wf(s) ==> DispatchDue(r)
  {
    s.(pageIndex := s.pageIndex + 1, loading := true, error := false)
  }

  /**
   * One run of the effect: when a fetch is due, record the page index as
   * dispatched and issue a fetch for it, remembering the append decision and
   * the current items; otherwise do nothing. Returns whether a fetch was issued.
   */
  function Dispatch<T>(s: State<T>): (r: (State<T>, bool))
    ensures r.1 <==> DispatchDue(s)
    ensures !DispatchDue(r.0)
    ensures !r.1 ==> r.0 == s
    ensures r.1 ==> r.0.inFlight == s.inFlight + [Fetch(s.pageIndex, Appending(s), s.items)]
    ensures r.0.lastPageIndex == s.pageIndex
    ensures r.0.pageIndex == s.pageIndex && r.0.items == s.items && r.0.loading == s.loading
    ensures r.0.lastPageLoaded == s.lastPageLoaded && r.0.error == s.error && r.0.notifications == s.notifications
    ensures Wf(s) ==> Wf(r.0)
    ensures Wf(s) && r.1 ==> s.lastPageIndex < s.pageIndex
  {
    var append := s.lastPageIndex != NoPage;
    if s.pageIndex != s.lastPageIndex then
      (s.(lastPageIndex := s.pageIndex, inFlight := s.inFlight + [Fetch(s.pageIndex, append, s.items)]), true)
    else
      (s, false)
  }

  /** The in-flight list without its `k`-th fetch. */
  function Without<T>(fs: seq<Fetch<T>>, k: nat): (r: seq<Fetch<T>>)
    requires k < |fs|
    ensures |r| == |fs| - 1
    ensures forall i :: 0 <= i < k ==> r[i] == fs[i]
    ensures forall i :: k <= i < |r| ==> r[i] == fs[i + 1]
  {
    fs[..k] + fs[k + 1..]
  }

  /**
   * The `k`-th in-flight fetch resolves with `page`. A non-empty page is
   * appended to the items captured at dispatch, or replaces the items when the
   * fetch was the first of a new query; an empty page marks the end of the
   * data and, for page 0, empties the list. Either way loading ends and one
   * page-loaded notification is scheduled.
   */
  function ResolveSuccess<T>(s: State<T>, k: nat, page: seq<T>): (r: State<T>)
    requires k < |s.inFlight|
    ensures Wf(s) ==> Wf(r)
    ensures r.inFlight == Without(s.inFlight, k)
    ensures !r.loading && r.error == s.error
    ensures r.lastPageLoaded <==> s.lastPageLoaded || page == []
    ensures page != [] && s.inFlight[k].append ==> r.items == s.inFlight[k].base + page
    ensures page != [] && !s.inFlight[k].append ==> r.items == page
    ensures page == [] && s.inFlight[k].page == 0 ==> r.items == []
    ensures page == [] && s.inFlight[k].page != 0 ==> r.items == s.items
    ensures r.notifications == s.notifications + 1
    ensures r.pageIndex == s.pageIndex && r.lastPageIndex == s.lastPageIndex
  {
    var f := s.inFlight[k];
    var s' := s.(inFlight := Without(s.inFlight, k));
    var s'' :=
      if |page| > 0 then
        s'.(items := if f.append then f.base + page else page)
      else
        s'.(items := if f.page == 0 then [] else s'.items, lastPageLoaded := true);
    s''.(loading := false, notifications := s''.notifications + 1)
  }

  /** The `k`-th in-flight fetch is rejected: loading ends, the error flag rises, the items are kept. */
  function ResolveFailure<T>(s: State<T>, k: nat): (r: State<T>)
    requires k < |s.inFlight|
    ensures Wf(s) ==> Wf(r)
    ensures r.inFlight == Without(s.inFlight, k)
    ensures !r.loading && r.error
    ensures r.items == s.items && r.lastPageLoaded == s.lastPageLoaded
    ensures r.notifications == s.notifications
    ensures r.pageIndex == s.pageIndex && r.lastPageIndex == s.lastPageIndex
  {
    s.(inFlight := Without(s.inFlight, k), loading := false, error := true)
  }

  function Resolve<T>(s: State<T>, k: nat, o: Outcome<T>): (r: State<T>)
    requires k < |s.inFlight|
  {
    match o
    case Loaded(page) => ResolveSuccess(s, k, page)
    case Failed => ResolveFailure(s, k)
  }

  /** A scheduled page-loaded notification runs (a later timer tick); reports whether one was pending. */
  function NotifyPageLoaded<T>(s: State<T>): (r: (State<T>, bool))
    ensures r.1 <==> s.notifications > 0
    ensures r.0.notifications == if r.1 then s.notifications - 1 else 0
    ensures r.0 == s.(notifications := r.0.notifications)
  {
    if s.notifications > 0 then (s.(notifications := s.notifications - 1), true) else (s, false)
  }

  /** A due fetch is issued and resolves with `o` before anything else happens. */
  function Fetched<T>(s: State<T>, o: Outcome<T>): (r: State<T>)
    requires DispatchDue(s)
  {
    Resolve(Dispatch(s).0, |s.inFlight|, o)
  }

  /**
   * A whole query: `startNewQuery`, then one fetch per outcome in `os`
   * (page 0 first), with `loadNextPage` before every fetch after the first
   * and each fetch resolving before the next action.
   */
  function Epoch<T>(s: State<T>, os: seq<Outcome<T>>): (r: State<T>)
    requires s.inFlight == [] && os != []
    ensures r.inFlight == [] && r.pageIndex == |os| - 1 && r.lastPageIndex == |os| - 1
    decreases |os|
  {
    if |os| == 1 then
      Fetched(StartNewQuery(s), os[0])
    else
      Fetched(LoadNextPage(Epoch(s, os[..|os| - 1])), os[|os| - 1])
  }

  /** The pages of the successful outcomes, in order. */
  function Pages<T>(os: seq<Outcome<T>>): (ps: seq<seq<T>>) {
    if os == [] then []
    else Pages(os[..|os| - 1]) + (if os[|os| - 1].Loaded? then [os[|os| - 1].page] else [])
  }

  function Concat<T>(ps: seq<seq<T>>): (r: seq<T>) {
    if ps == [] then [] else Concat(ps[..|ps| - 1]) + ps[|ps| - 1]
  }

  lemma ConcatSnoc<T>(ps: seq<seq<T>>, p: seq<T>)
    ensures Concat(ps + [p]) == Concat(ps) + p
  {
    assert (ps + [p])[..|ps|] == ps;
  }

  /** Issuing a fetch records the page as dispatched, so running the effect again issues nothing. */
  lemma DispatchIdempotent<T>(s: State<T>)
    ensures Dispatch(Dispatch(s).0) == (Dispatch(s).0, false)
  {
  }

  /** Page 0 of a new query: it replaces the items, empties them when it is empty, and keeps them when it fails. */
  lemma FirstPageFetched<T>(s: State<T>, o: Outcome<T>)
    requires s.inFlight == []
    ensures Fetched(StartNewQuery(s), o).items == if o.Failed? then s.items else o.page
    ensures Fetched(StartNewQuery(s), o).lastPageLoaded <==> o == Loaded([])
    ensures Fetched(StartNewQuery(s), o).error <==> o.Failed?
    ensures !Fetched(StartNewQuery(s), o).loading
    ensures Fetched(StartNewQuery(s), o).notifications == s.notifications + if o.Loaded? then 1 else 0
  {
  }

  /** A later page of the same query: it is appended to the items, and an empty or failed page leaves them alone. */
  lemma NextPageFetched<T>(e: State<T>, o: Outcome<T>)
    requires e.inFlight == [] && 0 <= e.lastPageIndex == e.pageIndex
    ensures Fetched(LoadNextPage(e), o).items == e.items + if o.Loaded? then o.page else []
    ensures Fetched(LoadNextPage(e), o).lastPageLoaded <==> e.lastPageLoaded || o == Loaded([])
    ensures Fetched(LoadNextPage(e), o).error <==> o.Failed?
    ensures !Fetched(LoadNextPage(e), o).loading
    ensures Fetched(LoadNextPage(e), o).notifications == e.notifications + if o.Loaded? then 1 else 0
  {
    var l := LoadNextPage(e);
    assert Appending(l) && l.pageIndex != 0;
    assert Dispatch(l).0.inFlight == [Fetch(l.pageIndex, true, e.items)];
  }

  /** The successful pages of `os + [o]` are those of `os`, then `o`'s page when it has one. */
  lemma PagesSnoc<T>(os: seq<Outcome<T>>, o: Outcome<T>)
    ensures Concat(Pages(os + [o])) == Concat(Pages(os)) + if o.Loaded? then o.page else []
    ensures |Pages(os + [o])| == |Pages(os)| + if o.Loaded? then 1 else 0
  {
    assert (os + [o])[..|os|] == os;
    if o.Loaded? {
      ConcatSnoc(Pages(os), o.page);
    } else {
      assert Pages(os + [o]) == Pages(os);
    }
  }

  /**
   * What one query leaves behind. The items are the concatenation of every
   * page that arrived, in order, on top of the previous query's items when
   * page 0 failed and on top of nothing otherwise; the end-of-data flag is up
   * exactly when some page came back empty; the error flag reports the last
   * fetch; one notification was scheduled per successful fetch.
   */
  lemma {:induction false} EpochContents<T>(s: State<T>, os: seq<Outcome<T>>)
    requires s.inFlight == [] && os != []
    ensures Epoch(s, os).items == (if os[0].Failed? then s.items else []) + Concat(Pages(os))
    ensures Epoch(s, os).lastPageLoaded <==> Loaded([]) in os
    ensures Epoch(s, os).error <==> os[|os| - 1].Failed?
    ensures !Epoch(s, os).loading
    ensures Epoch(s, os).notifications == s.notifications + |Pages(os)|
    decreases |os|
  {
    if |os| == 1 {
      EpochFirstPage(s, os);
    } else {
      EpochContents(s, os[..|os| - 1]);
      EpochNextPage(s, os);
    }
  }

  /** The base case of `EpochContents`. */
  lemma EpochFirstPage<T>(s: State<T>, os: seq<Outcome<T>>)
    requires s.inFlight == [] && |os| == 1
    ensures Epoch(s, os).items == (if os[0].Failed? then s.items else []) + Concat(Pages(os))
    ensures Epoch(s, os).lastPageLoaded <==> Loaded([]) in os
    ensures Epoch(s, os).error <==> os[0].Failed?
    ensures !Epoch(s, os).loading
    ensures Epoch(s, os).notifications == s.notifications + |Pages(os)|
  {
    assert os == [] + [os[0]];
    PagesSnoc([], os[0]);
    FirstPageFetched(s, os[0]);
  }

  /** The induction step of `EpochContents`, from the query without its last page. */
  lemma EpochNextPage<T>(s: State<T>, os: seq<Outcome<T>>)
    requires s.inFlight == [] && |os| > 1
    requires Epoch(s, os[..|os| - 1]).items == (if os[0].Failed? then s.items else []) + Concat(Pages(os[..|os| - 1]))
    requires Epoch(s, os[..|os| - 1]).lastPageLoaded <==> Loaded([]) in os[..|os| - 1]
    requires Epoch(s, os[..|os| - 1]).notifications == s.notifications + |Pages(os[..|os| - 1])|
    ensures Epoch(s, os).items == (if os[0].Failed? then s.items else []) + Concat(Pages(os))
    ensures Epoch(s, os).lastPageLoaded <==> Loaded([]) in os
    ensures Epoch(s, os).error <==> os[|os| - 1].Failed?
    ensures !Epoch(s, os).loading
    ensures Epoch(s, os).notifications == s.notifications + |Pages(os)|
  {
    var prefix, last := os[..|os| - 1], os[|os| - 1];
    var base := if os[0].Failed? then s.items else [];
    var r := Fetched(LoadNextPage(Epoch(s, prefix)), last);
    assert Epoch(s, os) == r by {
      EpochStep(s, os);
    }
    assert os == prefix + [last];
    NextPageKeepsContents(Epoch(s, prefix), prefix, last, base, s.notifications);
  }

  /** The induction step of `EpochContents`, stated for any settled state that summarises the outcomes so far. */
  lemma NextPageKeepsContents<T>(e: State<T>, prefix: seq<Outcome<T>>, last: Outcome<T>, base: seq<T>, n0: nat)
    requires e.inFlight == [] && 0 <= e.lastPageIndex == e.pageIndex
    requires e.items == base + Concat(Pages(prefix))
    requires e.lastPageLoaded <==> Loaded([]) in prefix
    requires e.notifications == n0 + |Pages(prefix)|
    ensures Fetched(LoadNextPage(e), last).items == base + Concat(Pages(prefix + [last]))
    ensures Fetched(LoadNextPage(e), last).lastPageLoaded <==> Loaded([]) in prefix + [last]
    ensures Fetched(LoadNextPage(e), last).error <==> last.Failed?
    ensures !Fetched(LoadNextPage(e), last).loading
    ensures Fetched(LoadNextPage(e), last).notifications == n0 + |Pages(prefix + [last])|
  {
    NextPageFetched(e, last);
    PagesSnoc(prefix, last);
  }

  /** One more page of a query is one more `loadNextPage` and fetch after the query so far. */
  lemma EpochStep<T>(s: State<T>, os: seq<Outcome<T>>)
    requires s.inFlight == [] && |os| > 1
    ensures Epoch(s, os) == Fetched(LoadNextPage(Epoch(s, os[..|os| - 1])), os[|os| - 1])
  {
  }

  /**
   * For any state, a next-page fetch issued before `startNewQuery` and resolved
   * after the new query's page 0 (whatever that page's outcome) writes the items
   * captured when it was issued followed by its own page, while the page index
   * stays on the new query's page 0.
   */
  lemma LateResultMerges<T>(s: State<T>, first: Outcome<T>, page: seq<T>)
    requires DispatchDue(s) && Appending(s) && page != []
    ensures var n := |s.inFlight|;
            var s1 := Dispatch(s).0;
            var s2 := Dispatch(StartNewQuery(s1)).0;
            |s2.inFlight| == n + 2 &&
            var s4 := ResolveSuccess(Resolve(s2, n + 1, first), n, page);
            s4.items == s.items + page && s4.pageIndex == 0
  {
    var n := |s.inFlight|;
    var s1 := Dispatch(s).0;
    assert s1.inFlight[n] == Fetch(s.pageIndex, true, s.items);
    var s2 := Dispatch(StartNewQuery(s1)).0;
    assert s2.inFlight[n] == s1.inFlight[n];
    var s3 := Resolve(s2, n + 1, first);
    assert s3.inFlight[n] == s2.inFlight[n];
  }

  /**
   * The other outcomes of the same late fetch also land on the new query: an
   * empty page keeps the new query's items (unless the late page was page 0)
   * but raises its end-of-data flag, and a rejection raises its error flag
   * and ends its loading.
   */
  lemma LateEmptyOrFailedResult<T>(s: State<T>, first: Outcome<T>, late: Outcome<T>)
    requires DispatchDue(s) && Appending(s)
    requires late.Failed? || late.page == []
    ensures var n := |s.inFlight|;
            var s1 := Dispatch(s).0;
            var s2 := Dispatch(StartNewQuery(s1)).0;
            |s2.inFlight| == n + 2 &&
            var s3 := Resolve(s2, n + 1, first);
            var s4 := Resolve(s3, n, late);
            && s4.pageIndex == 0
            && (late.Loaded? ==> s4.lastPageLoaded && s4.items == (if s.pageIndex == 0 then [] else s3.items))
            && (late.Failed? ==> s4.error && !s4.loading && s4.items == s3.items)
  {
    var n := |s.inFlight|;
    var s1 := Dispatch(s).0;
    assert s1.inFlight[n] == Fetch(s.pageIndex, true, s.items);
    var s2 := Dispatch(StartNewQuery(s1)).0;
    assert s2.inFlight[n] == s1.inFlight[n];
    var s3 := Resolve(s2, n + 1, first);
    assert s3.inFlight[n] == s2.inFlight[n];
  }

  /**
   * Nothing tags a fetch with the query it belongs to, so a late page of a
   * superseded query is still merged: page 1 of the old query, issued before
   * `startNewQuery`, resolves after page 0 of the new query and replaces the
   * new query's items with the old items followed by its own page.
   */
  lemma LateResultOfSupersededQuery()
    ensures var s1 := Dispatch(LoadNextPage(Init(0, ['A', 'B']))).0;
            var s2 := Dispatch(StartNewQuery(s1)).0;
            var s3 := ResolveSuccess(s2, 1, ['X']);
            var s4 := ResolveSuccess(s3, 0, ['C', 'D']);
            s3.items == ['X'] && s4.items == ['A', 'B', 'C', 'D'] && s4.pageIndex == 0
  {
  }
}
