/** The follower-list session of GHFollowers/Screens/FollowerListVC.swift as a
    pure state machine. Each UI callback or network completion becomes one event;
    each event yields the next state, the fetch it issues (if any) and what the
    grid is told to show. */
module Session {
  import opened Wrappers
  import opened Followers
  import Search

  /** A page with at least this many followers means more may follow; it is also
      the `per_page` size the followers endpoint is asked for. */
  const PageSize: nat := 100

  /** The six fields of the list screen that drive its behaviour. */
  datatype State = State(
    userName: string,
    followers: seq<Follower>,
    filteredFollowers: seq<Follower>,
    page: int,
    hasMoreFollowers: bool,
    isSearching: bool)

  /** A request for one page of a user's followers. */
  datatype Request = Request(userName: string, page: int)

  /** What the screen does with its grid: nothing, apply a new snapshot, cover
      it with the empty-state view, or present an alert carrying the error text. */
  datatype Display =
    | Keep
    | ShowFollowers(items: seq<Follower>)
    | ShowEmptyState
    | ShowAlert(message: string)

  datatype Transition = Transition(next: State, fetch: Option<Request>, display: Display)

  /** The inputs the screen reacts to, in the order they reach the main queue. */
  datatype Event =
    | PageArrived(batch: seq<Follower>)
    | FetchFailed(message: string)
    | DragEnded(nearBottom: bool)
    | SearchTextChanged(text: Option<string>)
    | SearchCancelled
    | FollowersRequested(userName: string)

  /** The list the grid indexes into when an item is selected. */
  function ActiveList(s: State): seq<Follower> {
    if s.isSearching then s.filteredFollowers else s.followers
  }

  /** What every reachable state satisfies: pages are numbered from 1, and the
      filtered list is an in-order sub-sequence of the accumulated list. */
  ghost predicate Valid(s: State) {
    s.page >= 1 && Search.IsSubsequence(s.filteredFollowers, s.followers)
  }

  /** The screen is created for `userName` and loads: empty lists, page 1, more
      followers assumed, no search, and the first page requested. */
  function Launch(userName: string): (t: Transition)
    ensures Valid(t.next)
    ensures t.next.userName == userName
    ensures t.next.followers == [] && t.next.filteredFollowers == []
    ensures t.next.page == 1 && t.next.hasMoreFollowers && !t.next.isSearching
    ensures t.fetch == Some(Request(userName, 1)) && t.display == Keep
  {
    Search.EmptyIsSubsequence<Follower>([]);
    Transition(State(userName, [], [], 1, true, false), Some(Request(userName, 1)), Keep)
  }

  /** A page of followers arrived. */
  function ReceivePage(s: State, batch: seq<Follower>): (t: Transition)
    ensures t.next.hasMoreFollowers <==> |batch| >= PageSize
    ensures |t.next.followers| == |s.followers| + |batch|
    ensures t.next.followers[..|s.followers|] == s.followers
    ensures t.next.followers[|s.followers|..] == batch
    ensures t.next.userName == s.userName && t.next.page == s.page
    ensures t.next.filteredFollowers == s.filteredFollowers && t.next.isSearching == s.isSearching
    ensures t.fetch == None
    ensures t.display == ShowEmptyState <==> |t.next.followers| == 0
    ensures |t.next.followers| > 0 ==> t.display == ShowFollowers(t.next.followers)
  {
    var next := s.(hasMoreFollowers := |batch| >= PageSize, followers := s.followers + batch);
    if |next.followers| == 0 then Transition(next, None, ShowEmptyState)
    else Transition(next, None, ShowFollowers(next.followers))
  }

  /** The fetch failed: an alert is shown and the state is left as it is. */
  function ReceiveError(s: State, message: string): (t: Transition)
    ensures t.next == s
    ensures t.fetch == None && t.display == ShowAlert(message)
  {
    Transition(s, None, ShowAlert(message))
  }

  /** A drag ended; `nearBottom` abstracts the offset comparison against the
      content height. Only near the bottom and with more followers to come is the
      next page requested. */
  function EndDrag(s: State, nearBottom: bool): (t: Transition)
    ensures !(nearBottom && s.hasMoreFollowers) ==> t.next == s && t.fetch == None
    ensures nearBottom && s.hasMoreFollowers ==>
      && t.next == s.(page := s.page + 1)
      && t.fetch == Some(Request(s.userName, s.page + 1))
    ensures t.display == Keep
  {
    if nearBottom && s.hasMoreFollowers then
      Transition(s.(page := s.page + 1), Some(Request(s.userName, s.page + 1)), Keep)
    else
      Transition(s, None, Keep)
  }

  /** The search bar's text changed. A missing or empty text is ignored;
      otherwise searching starts and the filtered list is recomputed from the
      accumulated list and shown. */
  function UpdateSearch(s: State, text: Option<string>): (t: Transition)
    ensures (text == None || text.value == "") ==> t.next == s && t.fetch == None && t.display == Keep
    ensures text.Some? && text.value != "" ==>
      && t.next == s.(isSearching := true, filteredFollowers := t.next.filteredFollowers)
      && Search.IsSubsequence(t.next.filteredFollowers, s.followers)
      && (forall x :: x in t.next.filteredFollowers <==> x in s.followers && Search.Matches(x, text.value))
      && t.next.filteredFollowers == Search.Filter(s.followers, text.value)
      && t.fetch == None
      && t.display == ShowFollowers(t.next.filteredFollowers)
  {
    if text == None || text.value == "" then
      Transition(s, None, Keep)
    else
      var filtered := Search.Filter(s.followers, text.value);
      Search.FilterIsSubsequence(s.followers, text.value);
      Transition(s.(isSearching := true, filteredFollowers := filtered), None, ShowFollowers(filtered))
  }

  /** The search bar's cancel button: searching stops and the whole list is shown. */
  function CancelSearch(s: State): (t: Transition)
    ensures t.next == s.(isSearching := false) && !t.next.isSearching
    ensures t.fetch == None && t.display == ShowFollowers(s.followers)
  {
    Transition(s.(isSearching := false), None, ShowFollowers(s.followers))
  }

  /** Followers of another user were requested from the profile screen: both
      lists are emptied, paging restarts at 1 and page 1 is requested. The
      end-of-data flag and the search flag are left as they were. */
  function RequestFollowers(s: State, userName: string): (t: Transition)
    ensures t.next.userName == userName && t.next.page == 1
    ensures t.next.followers == [] && t.next.filteredFollowers == []
    ensures t.next.hasMoreFollowers == s.hasMoreFollowers && t.next.isSearching == s.isSearching
    ensures t.fetch == Some(Request(userName, 1)) && t.display == Keep
  {
    var next := s.(userName := userName, page := 1, followers := [], filteredFollowers := []);
    Transition(next, Some(Request(userName, 1)), Keep)
  }

  /** The login of the follower selected at `index`: the filtered list is used
      while searching and the accumulated list otherwise. An index outside the
      active list would trap in the source. */
  function SelectItem(s: State, index: int): (login: string)
    requires 0 <= index < |ActiveList(s)|
    ensures s.isSearching ==> login == s.filteredFollowers[index].login
    ensures !s.isSearching ==> login == s.followers[index].login
  {
    ActiveList(s)[index].login
  }

  function Step(s: State, e: Event): Transition {
    match e
    case PageArrived(batch) => ReceivePage(s, batch)
    case FetchFailed(message) => ReceiveError(s, message)
    case DragEnded(nearBottom) => EndDrag(s, nearBottom)
    case SearchTextChanged(text) => UpdateSearch(s, text)
    case SearchCancelled => CancelSearch(s)
    case FollowersRequested(userName) => RequestFollowers(s, userName)
  }

  /** The state after the events of `events`, in order, starting from `s`. */
  function Run(s: State, events: seq<Event>): State
    decreases |events|
  {
    if |events| == 0 then s
    else Step(Run(s, events[..|events| - 1]), events[|events| - 1]).next
  }

  /** Every event keeps the state valid. */
  lemma StepPreservesValid(s: State, e: Event)
    requires Valid(s)
    ensures Valid(Step(s, e).next)
  {
    match e
    case PageArrived(batch) =>
      Search.SubsequenceOfExtension(s.filteredFollowers, s.followers, batch);
    case FollowersRequested(_) =>
      Search.EmptyIsSubsequence<Follower>([]);
    case _ =>
  }

  /** Every state reached from a launch is valid. */
  lemma {:induction false} RunPreservesValid(userName: string, events: seq<Event>)
    ensures Valid(Run(Launch(userName).next, events))
    decreases |events|
  {
    if |events| > 0 {
      RunPreservesValid(userName, events[..|events| - 1]);
      StepPreservesValid(Run(Launch(userName).next, events[..|events| - 1]), events[|events| - 1]);
    }
  }

  /** In a valid state the selected follower belongs to the accumulated list. */
  lemma SelectedIsAFollower(s: State, index: int)
    requires Valid(s) && 0 <= index < |ActiveList(s)|
    ensures exists f :: f in s.followers && f.login == SelectItem(s, index)
  {
    var f := ActiveList(s)[index];
    if s.isSearching {
      var idx :| Search.Embeds(idx, s.filteredFollowers, s.followers);
      assert s.followers[idx[index]] == f;
    }
    assert f in s.followers;
  }

  /** The page number moves by one only on a drag, is reset to 1 only on a user
      change, and is otherwise untouched. */
  lemma PageMoves(s: State, e: Event)
    ensures e.DragEnded? ==> Step(s, e).next.page in {s.page, s.page + 1}
    ensures e.FollowersRequested? ==> Step(s, e).next.page == 1
    ensures !e.DragEnded? && !e.FollowersRequested? ==> Step(s, e).next.page == s.page
  {
  }

  /** Every fetch asks for the user and page the next state holds, and only a
      drag or a user change issues one. */
  lemma FetchTargetsCurrentPage(s: State, e: Event)
    ensures Step(s, e).fetch.Some? ==>
      && (e.DragEnded? || e.FollowersRequested?)
      && Step(s, e).fetch.value == Request(Step(s, e).next.userName, Step(s, e).next.page)
  {
  }

  /** A failed fetch of the next page does not undo the page increment of the
      drag that requested it. */
  lemma FailedFetchKeepsAdvancedPage(s: State, message: string)
    requires s.hasMoreFollowers
    ensures Step(Step(s, DragEnded(true)).next, FetchFailed(message)).next == s.(page := s.page + 1)
  {
  }

  /** The suffix of `events` after the last user change. */
  function SinceLastRequest(events: seq<Event>): seq<Event>
    decreases |events|
  {
    if |events| == 0 then []
    else if events[|events| - 1].FollowersRequested? then []
    else SinceLastRequest(events[..|events| - 1]) + [events[|events| - 1]]
  }

  /** The arrived batches of `events`, concatenated in arrival order. */
  function Batches(events: seq<Event>): seq<Follower>
    decreases |events|
  {
    if |events| == 0 then []
    else
      var last := events[|events| - 1];
      Batches(events[..|events| - 1]) + (if last.PageArrived? then last.batch else [])
  }

  /** The most recently arrived batch, if any. */
  function LastBatch(events: seq<Event>): Option<seq<Follower>>
    decreases |events|
  {
    if |events| == 0 then None
    else if events[|events| - 1].PageArrived? then Some(events[|events| - 1].batch)
    else LastBatch(events[..|events| - 1])
  }

  /** How one event changes the accumulated list. */
  lemma StepFollowers(s: State, e: Event)
    ensures e.FollowersRequested? ==> Step(s, e).next.followers == []
    ensures !e.FollowersRequested? ==>
      Step(s, e).next.followers == s.followers + (if e.PageArrived? then e.batch else [])
  {
    if e.PageArrived? {
      var t := ReceivePage(s, e.batch);
      assert t.next.followers == t.next.followers[..|s.followers|] + t.next.followers[|s.followers|..];
    } else if !e.FollowersRequested? {
      assert s.followers + [] == s.followers;
    }
  }

  lemma BatchesSnoc(events: seq<Event>, e: Event)
    ensures Batches(events + [e]) == Batches(events) + (if e.PageArrived? then e.batch else [])
  {
    assert (events + [e])[..|events|] == events;
  }

  /** Paging accumulates: after any sequence of events the list holds exactly the
      pages received since the last user change, in arrival order, with nothing
      dropped or repeated. */
  lemma {:induction false} RunAccumulatesPages(userName: string, events: seq<Event>)
    ensures Run(Launch(userName).next, events).followers == Batches(SinceLastRequest(events))
    decreases |events|
  {
    if |events| > 0 {
      var n := |events| - 1;
      var e := events[n];
      var prev := Run(Launch(userName).next, events[..n]);
      assert Run(Launch(userName).next, events) == Step(prev, e).next;
      RunAccumulatesPages(userName, events[..n]);
      StepFollowers(prev, e);
      if !e.FollowersRequested? {
        var prior := SinceLastRequest(events[..n]);
        assert SinceLastRequest(events) == prior + [e];
        BatchesSnoc(prior, e);
      }
    }
  }

  /** The end-of-data flag reflects the last page received, whichever user it
      was for: it is set exactly when that page was full. A user change does not
      touch it, so until the new user's first page arrives it keeps the previous
      user's value; from a launch with no page yet it is set. */
  lemma {:induction false} RunHasMoreFollowers(userName: string, events: seq<Event>)
    ensures Run(Launch(userName).next, events).hasMoreFollowers
            == (LastBatch(events).None? || |LastBatch(events).value| >= PageSize)
    decreases |events|
  {
    if |events| > 0 {
      RunHasMoreFollowers(userName, events[..|events| - 1]);
    }
  }

  /** One hundred followers, a full page. */
  function FullPage(): (page: seq<Follower>)
    ensures |page| == PageSize
  {
    seq(100, i requires 0 <= i < 100 => Follower("follower" + [(48 + i) as char], ""))
  }

  /** A user with exactly one full page: after page 1 more are expected; the
      drag asks for page 2, which comes back empty and ends paging with the 100
      followers kept and shown. */
  lemma FullThenEmptyScenario()
    ensures
      var s1 := Step(Launch("octocat").next, PageArrived(FullPage())).next;
      var s2 := Step(s1, DragEnded(true));
      var s3 := Step(s2.next, PageArrived([]));
      && s1.hasMoreFollowers && |s1.followers| == 100
      && s2.fetch == Some(Request("octocat", 2))
      && !s3.next.hasMoreFollowers && s3.next.followers == FullPage()
      && s3.display == ShowFollowers(FullPage())
  {
    var s1 := Step(Launch("octocat").next, PageArrived(FullPage())).next;
    assert s1.followers == FullPage();
    assert s1.followers + [] == FullPage();
  }

  function Min(a: int, b: int): int {
    if a <= b then a else b
  }

  /** Page `n` of the server's follower list `all`, `PageSize` followers a page;
      pages past the end are empty. */
  function ServerPage(all: seq<Follower>, n: int): (r: seq<Follower>)
    requires n >= 1
    ensures |r| <= PageSize
  {
    all[Min((n - 1) * PageSize, |all|)..Min(n * PageSize, |all|)]
  }

  /** Pages 1 to `n` of `all` arriving in order, each later one requested by a
      drag that ends near the bottom. */
  function PagingTrace(all: seq<Follower>, n: int): seq<Event>
    requires n >= 1
    decreases n
  {
    if n == 1 then [PageArrived(ServerPage(all, 1))]
    else PagingTrace(all, n - 1) + [DragEnded(true)] + [PageArrived(ServerPage(all, n))]
  }

  /** Running one more event is one more step. */
  lemma RunSnoc(s: State, events: seq<Event>, e: Event)
    ensures Run(s, events + [e]) == Step(Run(s, events), e).next
  {
    assert (events + [e])[..|events|] == events;
  }

  /** `Step` on a drag or a page arrival is the matching transition. */
  lemma StepDispatch(s: State, nearBottom: bool, batch: seq<Follower>)
    ensures Step(s, DragEnded(nearBottom)) == EndDrag(s, nearBottom)
    ensures Step(s, PageArrived(batch)) == ReceivePage(s, batch)
  {
  }

  /** One drag near the bottom followed by the arrival of page `n`. */
  lemma NextServerPage(s: State, all: seq<Follower>, n: int)
    requires n >= 2 && (n - 1) * PageSize <= |all|
    requires s.page == n - 1 && s.hasMoreFollowers
    requires s.followers == all[..(n - 1) * PageSize]
    ensures
      var d := EndDrag(s, true);
      var p := ReceivePage(d.next, ServerPage(all, n)).next;
      && d.fetch == Some(Request(s.userName, n))
      && p.userName == s.userName && p.page == n
      && p.followers == all[..Min(n * PageSize, |all|)]
      && (p.hasMoreFollowers <==> n * PageSize <= |all|)
  {
    var lo, hi := (n - 1) * PageSize, Min(n * PageSize, |all|);
    assert Min(lo, |all|) == lo;
    assert ServerPage(all, n) == all[lo..hi];
    assert all[..lo] + all[lo..hi] == all[..hi];
  }

  /** The state after `PagingTrace(all, n)`, built transition by transition. */
  function PagedState(userName: string, all: seq<Follower>, n: int): State
    requires n >= 1
    decreases n
  {
    if n == 1 then ReceivePage(Launch(userName).next, ServerPage(all, 1)).next
    else ReceivePage(EndDrag(PagedState(userName, all, n - 1), true).next, ServerPage(all, n)).next
  }

  /** Running a single page arrival. */
  lemma RunOnePage(s: State, batch: seq<Follower>)
    ensures Run(s, [PageArrived(batch)]) == ReceivePage(s, batch).next
  {
    assert [PageArrived(batch)] == [] + [PageArrived(batch)];
    RunSnoc(s, [], PageArrived(batch));
    StepDispatch(s, true, batch);
  }

  /** Running a drag near the bottom followed by a page arrival. */
  lemma RunDragThenPage(s: State, t: seq<Event>, batch: seq<Follower>)
    ensures Run(s, t + [DragEnded(true)] + [PageArrived(batch)])
      == ReceivePage(EndDrag(Run(s, t), true).next, batch).next
  {
    var td := t + [DragEnded(true)];
    RunSnoc(s, t, DragEnded(true));
    StepDispatch(Run(s, t), true, batch);
    RunSnoc(s, td, PageArrived(batch));
    StepDispatch(Run(s, td), true, batch);
  }

  /** The first page of a paging session, run as a trace. */
  lemma FirstPageIsRun(userName: string, all: seq<Follower>)
    ensures Run(Launch(userName).next, PagingTrace(all, 1)) == PagedState(userName, all, 1)
  {
    RunOnePage(Launch(userName).next, ServerPage(all, 1));
  }

  /** Page `n` of a paging session, run as a trace; together with
      `PagedStateIsRun` an induction on `n`. */
  lemma {:induction false} NextPageIsRun(userName: string, all: seq<Follower>, n: int)
    requires n >= 2
    ensures Run(Launch(userName).next, PagingTrace(all, n)) == PagedState(userName, all, n)
    decreases n, 0
  {
    PagedStateIsRun(userName, all, n - 1);
    RunDragThenPage(Launch(userName).next, PagingTrace(all, n - 1), ServerPage(all, n));
  }

  /** `PagedState` is the state the paging trace leads to. */
  lemma {:induction false} PagedStateIsRun(userName: string, all: seq<Follower>, n: int)
    requires n >= 1
    ensures Run(Launch(userName).next, PagingTrace(all, n)) == PagedState(userName, all, n)
    decreases n, 1
  {
    if n == 1 {
      FirstPageIsRun(userName, all);
    } else {
      NextPageIsRun(userName, all, n);
    }
  }

  /** After page `n` the list is the server list cut after `n` pages. */
  lemma {:induction false} PagedStateCollects(userName: string, all: seq<Follower>, n: int)
    requires n >= 1 && (n - 1) * PageSize <= |all|
    ensures
      var s := PagedState(userName, all, n);
      && s.userName == userName && s.page == n
      && s.followers == all[..Min(n * PageSize, |all|)]
      && (s.hasMoreFollowers <==> n * PageSize <= |all|)
    decreases n
  {
    if n == 1 {
      assert [] + ServerPage(all, 1) == all[..Min(PageSize, |all|)];
    } else {
      assert (n - 2) * PageSize == (n - 1) * PageSize - PageSize;
      PagedStateCollects(userName, all, n - 1);
      assert Min((n - 1) * PageSize, |all|) == (n - 1) * PageSize;
      NextServerPage(PagedState(userName, all, n - 1), all, n);
    }
  }

  /** While the earlier pages were full, the drag after page `n - 1` requests
      page `n` of the same user. */
  lemma PagedDragRequest(userName: string, all: seq<Follower>, n: int)
    requires n >= 2 && (n - 1) * PageSize <= |all|
    ensures EndDrag(PagedState(userName, all, n - 1), true).fetch == Some(Request(userName, n))
  {
    assert (n - 2) * PageSize == (n - 1) * PageSize - PageSize;
    PagedStateCollects(userName, all, n - 1);
    var prev := PagedState(userName, all, n - 1);
    assert prev.hasMoreFollowers && prev.page == n - 1 && prev.userName == userName;
    assert EndDrag(prev, true).fetch == Some(Request(prev.userName, prev.page + 1));
  }

  /** The same, stated on the trace. */
  lemma PagingRequestsNextPage(userName: string, all: seq<Follower>, n: int)
    requires n >= 2 && (n - 1) * PageSize <= |all|
    ensures Step(Run(Launch(userName).next, PagingTrace(all, n - 1)), DragEnded(true)).fetch
      == Some(Request(userName, n))
  {
    PagedStateIsRun(userName, all, n - 1);
    PagedDragRequest(userName, all, n);
    StepDispatch(PagedState(userName, all, n - 1), true, []);
  }

  /** Paging through a server list: while the earlier pages were full, each drag
      requests the next page of the same user, and after page `n` the list is the
      first `n` pages of the server's list in server order, with more expected
      exactly when page `n` was full. */
  lemma PagingCollectsServerPages(userName: string, all: seq<Follower>, n: int)
    requires n >= 1 && (n - 1) * PageSize <= |all|
    ensures
      var s := Run(Launch(userName).next, PagingTrace(all, n));
      && s.userName == userName && s.page == n
      && s.followers == all[..Min(n * PageSize, |all|)]
      && (s.hasMoreFollowers <==> n * PageSize <= |all|)
    ensures n >= 2 ==>
      Step(Run(Launch(userName).next, PagingTrace(all, n - 1)), DragEnded(true)).fetch
        == Some(Request(userName, n))
  {
    PagedStateIsRun(userName, all, n);
    PagedStateCollects(userName, all, n);
    if n >= 2 {
      PagingRequestsNextPage(userName, all, n);
    }
  }

  /** Paging ends with the whole server list: the first page that is not full
      clears the end-of-data flag, and by then the list is the server's list. */
  lemma PagingEndsWithServerList(userName: string, all: seq<Follower>)
    ensures
      var n := |all| / PageSize + 1;
      var s := Run(Launch(userName).next, PagingTrace(all, n));
      && !s.hasMoreFollowers && s.followers == all && s.page == n
  {
    var n := |all| / PageSize + 1;
    assert (n - 1) * PageSize <= |all| < n * PageSize;
    PagingCollectsServerPages(userName, all, n);
  }

  /** A failure skips a page: after the fetch of page k + 1 fails, the next drag
      requests page k + 2, so page k + 1 is not requested again. */
  lemma FailureSkipsPage(s: State, message: string)
    requires s.hasMoreFollowers
    ensures
      var s1 := Step(s, DragEnded(true));
      var s2 := Step(s1.next, FetchFailed(message));
      var s3 := Step(s2.next, DragEnded(true));
      && s1.fetch == Some(Request(s.userName, s.page + 1))
      && s3.fetch == Some(Request(s.userName, s.page + 2))
  {
  }
}
