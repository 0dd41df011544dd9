/**
 * The `usePager` hook as an object: its six state cells are fields, its two
 * actions and the body of its fetch effect are methods that update them in
 * place, and the outcome of each fetch is passed in by whoever resolves it.
 * Every method is specified by the matching step of `PagerModel`.
 */
module UsePager {
  import PM = PagerModel

  class Pager<T> {
    var lastPageIndex: int
    var pageIndex: int
    var items: seq<T>
    var loading: bool
    var lastPageLoaded: bool
    var error: bool
    /** Fetches issued by the effect that have not resolved yet, oldest first. */
    var inFlight: seq<PM.Fetch<T>>
    /** Page-loaded notifications scheduled on a later tick and not run yet. */
    var notifications: nat

    /** The state cells as a value. */
    function View(): (v: PM.State<T>)
      reads this
    {
      PM.State(lastPageIndex, pageIndex, items, loading, lastPageLoaded, error, inFlight, notifications)
    }

    constructor (initialPage: nat, initialData: seq<T>)
      ensures View() == PM.Init(initialPage, initialData)
    {
      lastPageIndex := 0;
      pageIndex := initialPage;
      items := initialData;
      loading := false;
      lastPageLoaded := false;
      error := false;
      inFlight := [];
      notifications := 0;
    }

    method StartNewQuery()
      modifies this
      ensures View() == PM.StartNewQuery(old(View()))
    {
      loading := true;
      pageIndex := 0;
      lastPageLoaded := false;
      lastPageIndex := PM.NoPage;
      error := false;
    }

    method LoadNextPage()
      modifies this
      ensures View() == PM.LoadNextPage(old(View()))
    {
      pageIndex := pageIndex + 1;
      loading := true;
      error := false;
    }

    /** The fetch effect: issues a fetch for the current page when it differs from the last dispatched one. */
    method Dispatch() returns (issued: bool)
      modifies this
      ensures (View(), issued) == PM.Dispatch(old(View()))
      ensures issued <==> old(pageIndex) != old(lastPageIndex)
    {
      var append := lastPageIndex != PM.NoPage;
      issued := pageIndex != lastPageIndex;
      if issued {
        lastPageIndex := pageIndex;
        inFlight := inFlight + [PM.Fetch(pageIndex, append, items)];
      }
    }

    /** The `k`-th in-flight fetch comes back with `page`. */
    method ResolveSuccess(k: nat, page: seq<T>)
      requires k < |inFlight|
      modifies this
      ensures View() == PM.ResolveSuccess(old(View()), k, page)
    {
      var f := inFlight[k];
      inFlight := PM.Without(inFlight, k);
      if |page| > 0 {
        items := if f.append then f.base + page else page;
      } else {
        if f.page == 0 {
          items := [];
        }
        lastPageLoaded := true;
      }
      loading := false;
      notifications := notifications + 1;
    }

    /** The `k`-th in-flight fetch is rejected. */
    method ResolveFailure(k: nat)
      requires k < |inFlight|
      modifies this
      ensures View() == PM.ResolveFailure(old(View()), k)
    {
      inFlight := PM.Without(inFlight, k);
      loading := false;
      error := true;
    }

    /** The timer tick that runs one scheduled page-loaded notification, if any is pending. */
    method NotifyPageLoaded() returns (fired: bool)
      modifies this
      ensures (View(), fired) == PM.NotifyPageLoaded(old(View()))
    {
      fired := notifications > 0;
      if fired {
        notifications := notifications - 1;
      }
    }
  }

  /** Mounting the hook on page 0 issues no fetch and schedules no notification. */
  method InitScenario() returns (items: seq<char>, loading: bool, lastPageLoaded: bool, issued: bool, notified: bool)
    ensures items == [] && !loading && !lastPageLoaded && !issued && !notified
  {
    var p := new Pager<char>(0, []);
    items, loading, lastPageLoaded := p.items, p.loading, p.lastPageLoaded;
    issued := p.Dispatch();
    notified := p.NotifyPageLoaded();
  }

  /**
   * Pre-fetched `A, B` on page 0, then `loadNextPage`: page 1 is requested,
   * `C, D` is appended, and the notification runs only on the tick after.
   */
  method FetchNextPageScenario()
    returns (requested: int, fetches: nat, loadingWhileFetching: bool, items: seq<char>, loading: bool,
             lastPageLoaded: bool, pendingAfterUpdate: bool, notifiedLater: bool)
    ensures requested == 1 && fetches == 1 && loadingWhileFetching
    ensures items == ['A', 'B', 'C', 'D'] && !loading && !lastPageLoaded
    ensures pendingAfterUpdate && notifiedLater
  {
    var p := new Pager<char>(0, ['A', 'B']);
    p.LoadNextPage();
    var issued := p.Dispatch();
    requested := p.inFlight[0].page;
    fetches := |p.inFlight|;
    loadingWhileFetching := p.loading;
    p.ResolveSuccess(0, ['C', 'D']);
    items, loading, lastPageLoaded := p.items, p.loading, p.lastPageLoaded;
    pendingAfterUpdate := p.notifications == 1;
    notifiedLater := p.NotifyPageLoaded();
  }

  /** After page 1 brought `C, D`, an empty page 2 marks the end of the data and keeps the items. */
  method FetchLastPageScenario() returns (endBefore: bool, items: seq<char>, lastPageLoaded: bool)
    ensures !endBefore && lastPageLoaded && items == ['A', 'B', 'C', 'D']
  {
    var p := new Pager<char>(0, ['A', 'B']);
    p.LoadNextPage();
    var issued := p.Dispatch();
    p.ResolveSuccess(0, ['C', 'D']);
    var notified := p.NotifyPageLoaded();
    endBefore := p.lastPageLoaded;
    p.LoadNextPage();
    issued := p.Dispatch();
    p.ResolveSuccess(0, []);
    notified := p.NotifyPageLoaded();
    items, lastPageLoaded := p.items, p.lastPageLoaded;
  }

  /** A new query whose page 0 is `C, D` replaces the pre-fetched `A, B` instead of appending to it. */
  method NewQueryScenario() returns (loadingWhileFetching: bool, items: seq<char>, loading: bool, lastPageLoaded: bool)
    ensures loadingWhileFetching && items == ['C', 'D'] && !loading && !lastPageLoaded
  {
    var p := new Pager<char>(0, ['A', 'B']);
    p.StartNewQuery();
    var issued := p.Dispatch();
    loadingWhileFetching := p.loading;
    p.ResolveSuccess(0, ['C', 'D']);
    items, loading, lastPageLoaded := p.items, p.loading, p.lastPageLoaded;
  }

  /** A new query whose page 0 is empty clears the previous query's items. */
  method EmptyNewQueryScenario() returns (items: seq<char>, lastPageLoaded: bool)
    ensures items == [] && lastPageLoaded
  {
    var p := new Pager<char>(0, ['A', 'B']);
    p.StartNewQuery();
    var issued := p.Dispatch();
    p.ResolveSuccess(0, []);
    items, lastPageLoaded := p.items, p.lastPageLoaded;
  }

  /** A rejected page 1 keeps `A, B`, ends loading and raises the error flag only when it resolves. */
  method FailedPageScenario()
    returns (errorWhileFetching: bool, items: seq<char>, loading: bool, lastPageLoaded: bool, error: bool, notified: bool)
    ensures !errorWhileFetching
    ensures items == ['A', 'B'] && !loading && !lastPageLoaded && error && !notified
  {
    var p := new Pager<char>(0, ['A', 'B']);
    p.LoadNextPage();
    var issued := p.Dispatch();
    errorWhileFetching := p.error;
    p.ResolveFailure(0);
    items, loading, lastPageLoaded, error := p.items, p.loading, p.lastPageLoaded, p.error;
    notified := p.NotifyPageLoaded();
  }
}
