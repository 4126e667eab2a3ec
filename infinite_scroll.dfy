/** The infinite-scroll engine that the games list page and the news list page
    each contain, written out identically: state `items`, `page`, `hasMore`,
    `loading`, `error`; `loadMore` guarded against re-entry; a merge that drops
    fetched items whose id is already held; and the mount effect that loads
    page 1. The engine is generic in the item type; `id` reads an item's id. */
module InfiniteScroll {
  import opened Wrappers

  /** Items requested per page, by both the mount effect and `loadMore`. */
  const PageSize: int := 12

  // ---------------------------------------------------------------------------
  // The fetched payload

  /** What the fetch helper resolves to: a bare list (the games helper), or an
      object holding the list and a page count (the news helper). */
  datatype Payload<T> = BareList(items: seq<T>) | Paged(list: seq<T>, totalPages: int)

  /** `data.newsList || data`. */
  function Batch<T>(p: Payload<T>): seq<T> {
    match p
    case BareList(xs) => xs
    case Paged(xs, _) => xs
  }

  /** `data.totalPages || 1`: an absent or zero page count reads as 1. */
  function TotalPages<T>(p: Payload<T>): (n: int)
    ensures n != 0
    ensures p.BareList? ==> n == 1
    ensures p.Paged? ==> n == (if p.totalPages == 0 then 1 else p.totalPages)
  {
    match p
    case BareList(_) => 1
    case Paged(_, n) => if n == 0 then 1 else n
  }

  // ---------------------------------------------------------------------------
  // Ids and the merge

  /** The ids held in `xs` (`new Set(prev.map(g => g.id))`). */
  function Ids<T>(xs: seq<T>, id: T -> int): set<int> {
    set i | 0 <= i < |xs| :: id(xs[i])
  }

  /** No two items of `xs` share an id. */
  ghost predicate Distinct<T>(xs: seq<T>, id: T -> int) {
    forall i, j :: 0 <= i < j < |xs| ==> id(xs[i]) != id(xs[j])
  }

  /** `batch.filter(x => !seen.has(x.id))`. */
  function Unseen<T>(batch: seq<T>, seen: set<int>, id: T -> int): (r: seq<T>)
    ensures |r| <= |batch|
    ensures Ids(r, id) == Ids(batch, id) - seen
    decreases |batch|
  {
    if batch == [] then []
    else
      var rest := Unseen(batch[1..], seen, id);
      var r := if id(batch[0]) in seen then rest else [batch[0]] + rest;
      assert Ids(batch, id) == {id(batch[0])} + Ids(batch[1..], id) by {
        IdsCons(batch, id);
      }
      assert id(batch[0]) !in seen ==> Ids(r, id) == {id(batch[0])} + Ids(rest, id) by {
        if id(batch[0]) !in seen { IdsCons(r, id); assert r[1..] == rest; }
      }
      r
  }

  lemma IdsCons<T>(xs: seq<T>, id: T -> int)
    requires xs != []
    ensures Ids(xs, id) == {id(xs[0])} + Ids(xs[1..], id)
  {
    forall k | k in Ids(xs, id) ensures k in {id(xs[0])} + Ids(xs[1..], id) {
      var i :| 0 <= i < |xs| && id(xs[i]) == k;
      if i > 0 { assert xs[1..][i - 1] == xs[i]; }
    }
    forall k | k in Ids(xs[1..], id) ensures k in Ids(xs, id) {
      var i :| 0 <= i < |xs[1..]| && id(xs[1..][i]) == k;
      assert xs[i + 1] == xs[1..][i];
    }
  }

  lemma IdsConcat<T>(a: seq<T>, b: seq<T>, id: T -> int)
    ensures Ids(a + b, id) == Ids(a, id) + Ids(b, id)
  {
    forall k | k in Ids(a + b, id) ensures k in Ids(a, id) + Ids(b, id) {
      var i :| 0 <= i < |a + b| && id((a + b)[i]) == k;
      if i >= |a| { assert (a + b)[i] == b[i - |a|]; }
    }
    forall k | k in Ids(a, id) ensures k in Ids(a + b, id) {
      var i :| 0 <= i < |a| && id(a[i]) == k;
      assert (a + b)[i] == a[i];
    }
    forall k | k in Ids(b, id) ensures k in Ids(a + b, id) {
      var i :| 0 <= i < |b| && id(b[i]) == k;
      assert (a + b)[|a| + i] == b[i];
    }
  }

  /** Filtering keeps the batch's order: filtering a concatenation is the
      concatenation of the filtered parts. */
  lemma {:induction false} UnseenConcat<T>(a: seq<T>, b: seq<T>, seen: set<int>, id: T -> int)
    ensures Unseen(a + b, seen, id) == Unseen(a, seen, id) + Unseen(b, seen, id)
    decreases |a|
  {
    if a != [] {
      assert (a + b)[0] == a[0];
      assert (a + b)[1..] == a[1..] + b;
      UnseenConcat(a[1..], b, seen, id);
    } else {
      assert a + b == b;
    }
  }

  /** A batch none of whose ids has been seen passes the filter whole. */
  lemma {:induction false} UnseenKeepsFresh<T>(batch: seq<T>, seen: set<int>, id: T -> int)
    requires Ids(batch, id) !! seen
    ensures Unseen(batch, seen, id) == batch
    decreases |batch|
  {
    if batch != [] {
      IdsCons(batch, id);
      UnseenKeepsFresh(batch[1..], seen, id);
    }
  }

  /** A distinct batch stays distinct after filtering. */
  lemma {:induction false} UnseenDistinct<T>(batch: seq<T>, seen: set<int>, id: T -> int)
    requires Distinct(batch, id)
    ensures Distinct(Unseen(batch, seen, id), id)
    decreases |batch|
  {
    if batch != [] {
      var rest := Unseen(batch[1..], seen, id);
      UnseenDistinct(batch[1..], seen, id);
      if id(batch[0]) !in seen {
        forall i | 0 <= i < |batch[1..]| ensures id(batch[1..][i]) != id(batch[0]) {
          assert batch[1..][i] == batch[i + 1];
        }
        assert id(batch[0]) !in Ids(batch[1..], id);
        IdsCons([batch[0]], id);
        assert [batch[0]][1..] == [];
        DistinctConcat([batch[0]], rest, id);
      }
    }
  }

  lemma DistinctConcat<T>(a: seq<T>, b: seq<T>, id: T -> int)
    requires Distinct(a, id) && Distinct(b, id) && Ids(a, id) !! Ids(b, id)
    ensures Distinct(a + b, id)
  {
    forall i, j | 0 <= i < j < |a + b| ensures id((a + b)[i]) != id((a + b)[j]) {
      if j < |a| {
        assert (a + b)[i] == a[i] && (a + b)[j] == a[j];
      } else if i >= |a| {
        assert (a + b)[i] == b[i - |a|] && (a + b)[j] == b[j - |a|];
      } else {
        assert (a + b)[i] == a[i] && (a + b)[j] == b[j - |a|];
        assert id(a[i]) in Ids(a, id) && id(b[j - |a|]) in Ids(b, id);
      }
    }
  }

  /** The state updater of a successful `loadMore`: the previous list, then the
      fetched items whose id was not in the previous list, in fetched order. */
  function Merge<T>(prev: seq<T>, batch: seq<T>, id: T -> int): (r: seq<T>)
    ensures prev <= r
    ensures r[|prev|..] == Unseen(batch, Ids(prev, id), id)
    ensures Ids(r, id) == Ids(prev, id) + Ids(batch, id)
  {
    var r := prev + Unseen(batch, Ids(prev, id), id);
    IdsConcat(prev, Unseen(batch, Ids(prev, id), id), id);
    r
  }

  /** The merge keeps ids distinct when the previous list and the batch are each distinct. */
  lemma MergeDistinct<T>(prev: seq<T>, batch: seq<T>, id: T -> int)
    requires Distinct(prev, id) && Distinct(batch, id)
    ensures Distinct(Merge(prev, batch, id), id)
  {
    var added := Unseen(batch, Ids(prev, id), id);
    UnseenDistinct(batch, Ids(prev, id), id);
    DistinctConcat(prev, added, id);
  }

  /** Overlapping pages are merged first-seen: [1,2,3] then [3,4,5] gives [1,2,3,4,5]. */
  lemma MergeOverlappingPages()
    ensures Merge([1, 2, 3], [3, 4, 5], (k: int) => k) == [1, 2, 3, 4, 5]
  {
    var id := (k: int) => k;
    assert Ids([1, 2, 3], id) == {1, 2, 3} by {
      assert id([1, 2, 3][0]) == 1 && id([1, 2, 3][1]) == 2 && id([1, 2, 3][2]) == 3;
    }
    assert [3, 4, 5][1..] == [4, 5] && [4, 5][1..] == [5] && [5][1..] == [];
  }

  /** The merge only filters against the ids held before it: two items with the
      same id inside one batch are both appended. */
  lemma MergeKeepsDuplicatesWithinBatch()
    ensures Merge([], [7, 7], (k: int) => k) == [7, 7]
    ensures !Distinct(Merge([], [7, 7], (k: int) => k), (k: int) => k)
  {
    var id := (k: int) => k;
    assert Ids([], id) == {};
    assert [7, 7][1..] == [7] && [7][1..] == [];
    var r := Merge([], [7, 7], id);
    assert id(r[0]) == id(r[1]);
  }

  // ---------------------------------------------------------------------------
  // The page state and its transitions

  /** Which fetch is outstanding: none, the mount effect's, or `loadMore`'s for a page. */
  datatype Pending = Idle | FirstPage | NextPage(page: int)

  datatype PageState<T> = PageState(items: seq<T>, page: int, hasMore: bool, loading: bool,
                                    error: Option<string>, inFlight: Pending)

  /** The state invariant: `loading` is set exactly while a fetch is outstanding;
      `loadMore`'s fetch is for the current page and only starts while more
      remain; the mount fetch runs on an empty list at page 1. */
  predicate Consistent<T>(s: PageState<T>) {
    && s.page >= 1
    && (s.loading <==> !s.inFlight.Idle?)
    && (s.inFlight.NextPage? ==> s.hasMore && s.inFlight.page == s.page)
    && (s.inFlight.FirstPage? ==> s.hasMore && s.page == 1 && s.items == [])
  }

  /** The `useState` initial values. */
  function Initial<T>(): (s: PageState<T>)
    ensures Consistent(s)
    ensures s.items == [] && s.page == 1 && s.hasMore && !s.loading && s.error.None? && s.inFlight == Idle
  {
    PageState([], 1, true, false, None, Idle)
  }

  /** The mount effect: empty list, page 1, more to come, loading; the page-1
      fetch is outstanding. `error` is left as it was. */
  function MountEffect<T>(s: PageState<T>): (t: PageState<T>)
    ensures Consistent(t)
    ensures t.items == [] && t.page == 1 && t.hasMore && t.loading && t.inFlight == FirstPage
    ensures t.error == s.error
  {
    PageState([], 1, true, true, s.error, FirstPage)
  }

  /** `loadMore`: nothing while loading or when no pages remain; otherwise set
      `loading` and request the current page. */
  function LoadMoreStart<T>(s: PageState<T>): (t: PageState<T>)
    ensures s.loading || !s.hasMore ==> t == s
    ensures !s.loading && s.hasMore ==>
      t == s.(loading := true, inFlight := NextPage(s.page))
    ensures Consistent(s) ==> Consistent(t)
  {
    if s.loading || !s.hasMore then s else s.(loading := true, inFlight := NextPage(s.page))
  }

  /** The completion of `loadMore`'s fetch. On success: merge, `hasMore` from
      the requested page and the page count, next page, error cleared. On
      failure: only the error is recorded. `loading` ends either way. */
  function LoadMoreSettled<T>(s: PageState<T>, r: Settled<Payload<T>>, id: T -> int): (t: PageState<T>)
    requires s.inFlight.NextPage?
    ensures !t.loading && t.inFlight == Idle
    ensures r.Fulfilled? ==>
      && t.items == Merge(s.items, Batch(r.payload), id)
      && t.hasMore == (s.inFlight.page < TotalPages(r.payload))
      && t.page == s.page + 1
      && t.error == None
    ensures r.Rejected? ==>
      t.items == s.items && t.page == s.page && t.hasMore == s.hasMore && t.error == r.message
    ensures Consistent(s) ==> Consistent(t)
  {
    match r
    case Fulfilled(p) =>
      PageState(Merge(s.items, Batch(p), id), s.page + 1, s.inFlight.page < TotalPages(p), false, None, Idle)
    case Rejected(m) =>
      s.(error := m, loading := false, inFlight := Idle)
  }

  /** The completion of the mount effect's fetch. On success the list is
      replaced by the batch as it is (no dedup), the page becomes 2 and
      `hasMore` is `1 < totalPages`. On failure only the error is recorded. */
  function FirstPageSettled<T>(s: PageState<T>, r: Settled<Payload<T>>): (t: PageState<T>)
    requires s.inFlight.FirstPage?
    ensures !t.loading && t.inFlight == Idle
    ensures r.Fulfilled? ==>
      t.items == Batch(r.payload) && t.page == 2 && t.hasMore == (1 < TotalPages(r.payload)) && t.error == None
    ensures r.Rejected? ==>
      t.items == s.items && t.page == s.page && t.hasMore == s.hasMore && t.error == r.message
    ensures Consistent(s) ==> Consistent(t)
  {
    match r
    case Fulfilled(p) => PageState(Batch(p), 2, 1 < TotalPages(p), false, None, Idle)
    case Rejected(m) => s.(error := m, loading := false, inFlight := Idle)
  }

  /** The sentinel element is part of the page unless the list is empty and the
      page shows the loading screen or the error screen instead. */
  predicate SentinelMounted<T>(s: PageState<T>) {
    !(s.loading && s.items == []) && !(Truthy(s.error) && s.items == [])
  }

  /** The observer exists only while more pages remain and nothing is loading,
      and it only watches a sentinel that is on the page. */
  predicate ObserverArmed<T>(s: PageState<T>) {
    s.hasMore && !s.loading && SentinelMounted(s)
  }

  /** The sentinel is reported intersecting: an armed observer calls `loadMore`. */
  function OnSentinel<T>(s: PageState<T>): (t: PageState<T>)
    ensures !ObserverArmed(s) ==> t == s
    ensures ObserverArmed(s) ==> t == s.(loading := true, inFlight := NextPage(s.page))
  {
    if ObserverArmed(s) then LoadMoreStart(s) else s
  }

  /** Wherever the sentinel is on the page, the observer's gate and `loadMore`'s
      own guard agree, so an intersection is exactly a `loadMore` call. */
  lemma SentinelIsLoadMore<T>(s: PageState<T>)
    requires SentinelMounted(s)
    ensures OnSentinel(s) == LoadMoreStart(s)
  {
  }

  /** What the page shows: the loading screen or the error screen while the list
      is empty, otherwise the list with a loading note and, once no pages remain
      and something was listed, the end-of-list note. */
  datatype ListView<T> = LoadingScreen | ErrorScreen(message: string)
                       | Listing(items: seq<T>, loadingNote: bool, endNote: bool)

  function Render<T>(s: PageState<T>): (v: ListView<T>)
    ensures v.LoadingScreen? <==> s.loading && s.items == []
    ensures v.ErrorScreen? <==> !s.loading && s.items == [] && Truthy(s.error)
    ensures v.ErrorScreen? ==> s.error == Some(v.message)
    ensures v.Listing? <==> SentinelMounted(s)
    ensures v.Listing? ==> v.items == s.items && v.loadingNote == s.loading &&
                           (v.endNote <==> !s.hasMore && s.items != [])
  {
    if s.loading && |s.items| == 0 then LoadingScreen
    else if Truthy(s.error) && |s.items| == 0 then ErrorScreen(s.error.value)
    else Listing(s.items, s.loading, !s.hasMore && |s.items| > 0)
  }

  /** What can happen once the page is mounted: the sentinel comes into view, or
      the outstanding fetch settles. */
  datatype PageEvent<T> = SentinelVisible | FetchSettled(result: Settled<Payload<T>>)

  /** One event. A settlement with no fetch outstanding stands for no event. */
  function Step<T>(s: PageState<T>, e: PageEvent<T>, id: T -> int): PageState<T> {
    match e
    case SentinelVisible => OnSentinel(s)
    case FetchSettled(r) =>
      match s.inFlight
      case Idle => s
      case FirstPage => FirstPageSettled(s, r)
      case NextPage(_) => LoadMoreSettled(s, r, id)
  }

  function Run<T>(s: PageState<T>, es: seq<PageEvent<T>>, id: T -> int): PageState<T>
    decreases |es|
  {
    if es == [] then s else Run(Step(s, es[0], id), es[1..], id)
  }

  lemma StepConsistent<T>(s: PageState<T>, e: PageEvent<T>, id: T -> int)
    requires Consistent(s)
    ensures Consistent(Step(s, e, id))
  {
  }

  /** Exhaustion is final: once `hasMore` is false (with the invariant holding)
      no sequence of events changes anything; only a new mount sets it again. */
  lemma {:induction false} ExhaustedIsFinal<T>(s: PageState<T>, es: seq<PageEvent<T>>, id: T -> int)
    requires Consistent(s) && !s.hasMore
    ensures Run(s, es, id) == s
    decreases |es|
  {
    if es != [] {
      assert Step(s, es[0], id) == s;
      ExhaustedIsFinal(s, es[1..], id);
    }
  }

  /** A failed first page with a message leaves an empty list on the error
      screen; the sentinel is then not on the page, so the observer never fires
      and no sequence of events changes the state again. */
  lemma {:induction false} FailedFirstPageStalls<T>(s: PageState<T>, es: seq<PageEvent<T>>, id: T -> int)
    requires Consistent(s) && s.items == [] && !s.loading && Truthy(s.error)
    ensures Render(Run(s, es, id)) == ErrorScreen(s.error.value)
    ensures Run(s, es, id) == s
    decreases |es|
  {
    if es != [] {
      assert Step(s, es[0], id) == s;
      FailedFirstPageStalls(s, es[1..], id);
    }
  }

  /** The state a failed mount fetch leaves: the error screen, for good. */
  lemma FirstPageFailureIsFinal<T>(msg: string, es: seq<PageEvent<T>>, id: T -> int)
    requires msg != ""
    ensures var s := FirstPageSettled(MountEffect(Initial<T>()), Rejected(Some(msg)));
            Run(s, es, id) == s && Render(s) == ErrorScreen(msg)
  {
    var s := FirstPageSettled(MountEffect(Initial<T>()), Rejected(Some(msg)));
    FailedFirstPageStalls(s, es, id);
  }

  /** Along any run the list only grows at its end, the set of ids held only
      grows, the page never decreases and the invariant holds. */
  lemma {:induction false} RunGrows<T>(s: PageState<T>, es: seq<PageEvent<T>>, id: T -> int)
    requires Consistent(s)
    ensures Consistent(Run(s, es, id))
    ensures s.items <= Run(s, es, id).items
    ensures Ids(s.items, id) <= Ids(Run(s, es, id).items, id)
    ensures s.page <= Run(s, es, id).page
    decreases |es|
  {
    if es != [] {
      var t := Step(s, es[0], id);
      StepConsistent(s, es[0], id);
      assert s.items <= t.items && s.page <= t.page;
      IdsConcat(s.items, t.items[|s.items|..], id);
      assert s.items + t.items[|s.items|..] == t.items;
      RunGrows(t, es[1..], id);
    }
  }

  /** Every batch a run's successful fetches deliver has distinct ids. */
  ghost predicate BatchesDistinct<T>(es: seq<PageEvent<T>>, id: T -> int) {
    forall k :: 0 <= k < |es| && es[k].FetchSettled? && es[k].result.Fulfilled? ==>
      Distinct(Batch(es[k].result.payload), id)
  }

  /** Id-distinctness of the list holds along a run if every fetched batch is
      itself distinct; the merge alone does not give it (see
      `MergeKeepsDuplicatesWithinBatch`), nor does the first page, which is
      taken as it comes. */
  lemma {:induction false} RunKeepsDistinct<T>(s: PageState<T>, es: seq<PageEvent<T>>, id: T -> int)
    requires Consistent(s) && Distinct(s.items, id) && BatchesDistinct(es, id)
    ensures Distinct(Run(s, es, id).items, id)
    decreases |es|
  {
    if es != [] {
      var t := Step(s, es[0], id);
      StepConsistent(s, es[0], id);
      if es[0].FetchSettled? && es[0].result.Fulfilled? && s.inFlight.NextPage? {
        MergeDistinct(s.items, Batch(es[0].result.payload), id);
      }
      assert BatchesDistinct(es[1..], id) by {
        forall k | 0 <= k < |es[1..]| && es[1..][k].FetchSettled? && es[1..][k].result.Fulfilled?
          ensures Distinct(Batch(es[1..][k].result.payload), id)
        {
          assert es[1..][k] == es[k + 1];
        }
      }
      RunKeepsDistinct(t, es[1..], id);
    }
  }

  /** A three-page session with page count 3 and no overlap: pages 1, 2 and 3
      are appended whole, the page counter ends at 4, and after the third page
      `hasMore` is false, so a further intersection changes nothing. */
  lemma ThreePageSession<T>(b1: seq<T>, b2: seq<T>, b3: seq<T>, id: T -> int)
    requires Ids(b1, id) !! Ids(b2, id) && Ids(b1 + b2, id) !! Ids(b3, id)
    ensures var s1 := FirstPageSettled(MountEffect(Initial()), Fulfilled(Paged(b1, 3)));
            var s2 := LoadMoreSettled(LoadMoreStart(s1), Fulfilled(Paged(b2, 3)), id);
            var s3 := LoadMoreSettled(LoadMoreStart(s2), Fulfilled(Paged(b3, 3)), id);
            && s1.items == b1 && s1.page == 2 && s1.hasMore
            && s2.items == b1 + b2 && s2.page == 3 && s2.hasMore
            && s3.items == b1 + b2 + b3 && s3.page == 4 && !s3.hasMore
            && OnSentinel(s3) == s3
  {
    UnseenKeepsFresh(b2, Ids(b1, id), id);
    UnseenKeepsFresh(b3, Ids(b1 + b2, id), id);
  }

  // ---------------------------------------------------------------------------
  // The list page component

  /** The state of one mounted list page; its methods update the fields one by
      one as the component's setters do. */
  class Feed<T> {
    const id: T -> int
    var items: seq<T>
    var page: int
    var hasMore: bool
    var loading: bool
    var error: Option<string>
    var inFlight: Pending

    function Snapshot(): PageState<T>
      reads this
    {
      PageState(items, page, hasMore, loading, error, inFlight)
    }

    ghost predicate Valid()
      reads this
    {
      Consistent(Snapshot())
    }

    /** The first render: the `useState` initial values. */
    constructor (id: T -> int)
      ensures this.id == id && Valid() && Snapshot() == Initial()
    {
      this.id := id;
      items := [];
      page := 1;
      hasMore := true;
      loading := false;
      error := None;
      inFlight := Idle;
    }

    /** The mount effect; it requests page 1. */
    method Mount() returns (request: Request)
      modifies this
      ensures Valid() && Snapshot() == MountEffect(old(Snapshot()))
      ensures request == Request(1, PageSize)
    {
      items := [];
      page := 1;
      hasMore := true;
      loading := true;
      inFlight := FirstPage;
      request := Request(1, PageSize);
    }

    /** `loadMore`; it returns the request it issues, if any. */
    method LoadMore() returns (request: Option<Request>)
      requires Valid()
      modifies this
      ensures Valid() && Snapshot() == LoadMoreStart(old(Snapshot()))
      ensures request == if old(loading) || !old(hasMore) then None else Some(Request(old(page), PageSize))
    {
      if loading || !hasMore {
        return None;
      }
      loading := true;
      inFlight := NextPage(page);
      request := Some(Request(page, PageSize));
    }

    /** The sentinel is reported intersecting. */
    method SentinelVisible() returns (request: Option<Request>)
      requires Valid()
      modifies this
      ensures Valid() && Snapshot() == OnSentinel(old(Snapshot()))
      ensures request == if ObserverArmed(old(Snapshot())) then Some(Request(old(page), PageSize)) else None
    {
      request := None;
      if hasMore && !loading && SentinelMounted(Snapshot()) {
        request := LoadMore();
      }
    }

    /** The outstanding fetch settles. */
    method Settle(r: Settled<Payload<T>>)
      requires Valid() && loading
      modifies this
      ensures Valid()
      ensures Snapshot() == Step(old(Snapshot()), FetchSettled(r), id)
    {
      match r
      case Fulfilled(p) =>
        var fetched := Batch(p);
        if inFlight == FirstPage {
          items := fetched;
          hasMore := 1 < TotalPages(p);
          page := 2;
        } else {
          items := Merge(items, fetched, id);
          hasMore := inFlight.page < TotalPages(p);
          page := page + 1;
        }
        error := None;
        loading := false;
        inFlight := Idle;
      case Rejected(m) =>
        error := m;
        loading := false;
        inFlight := Idle;
    }
  }
}
