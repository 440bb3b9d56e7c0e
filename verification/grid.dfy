/** The list screen together with what its collection view shows. Selection
    (FollowerListVC.swift, `collectionView(_:didSelectItemAt:)`) indexes into the
    session's active list, so it is only right while the grid shows that list. */
module Grid {
  import Wrappers
  import opened Followers
  import opened Session

  /** The session state and the items of the snapshot last applied to the grid. */
  datatype Screen = Screen(session: State, shown: seq<Follower>)

  /** The grid after a display instruction: only a new snapshot changes it; the
      empty-state view and alerts are drawn over it. */
  function Apply(shown: seq<Follower>, d: Display): (r: seq<Follower>)
    ensures d.ShowFollowers? ==> r == d.items
    ensures !d.ShowFollowers? ==> r == shown
  {
    match d
    case ShowFollowers(items) => items
    case _ => shown
  }

  /** The screen right after it loads, before any snapshot has been applied. */
  function Start(userName: string): Screen {
    Screen(Launch(userName).next, [])
  }

  /** The grid shows exactly the list a selection indexes into. */
  predicate InSync(scr: Screen) {
    scr.shown == ActiveList(scr.session)
  }

  /** One event with the display instructions the source issues. */
  function Advance(scr: Screen, e: Event): (r: Screen)
    ensures r.session == Step(scr.session, e).next
    ensures r.shown == Apply(scr.shown, Step(scr.session, e).display)
  {
    var t := Step(scr.session, e);
    Screen(t.next, Apply(scr.shown, t.display))
  }

  /** With the display instructions as written, a visible item can lie outside
      the list selection indexes into: search, open a follower's followers, and
      the grid shows two followers while the selection list is empty, so tapping
      the first one traps. */
  lemma AsWrittenTapOutsideActiveList()
    ensures
      var x, y := Follower("x", "ux"), Follower("y", "uy");
      var p, q := Follower("p", "up"), Follower("q", "uq");
      var s1 := Advance(Start("a"), PageArrived([x, y]));
      var s2 := Advance(s1, SearchTextChanged(Wrappers.Some("x")));
      var s3 := Advance(s2, FollowersRequested("x"));
      var s4 := Advance(s3, PageArrived([p, q]));
      && s3.shown != [] && ActiveList(s3.session) == []
      && s4.shown == [p, q] && ActiveList(s4.session) == []
      && !InSync(s4)
  {
    var x, y := Follower("x", "ux"), Follower("y", "uy");
    var p, q := Follower("p", "up"), Follower("q", "uq");
    var s1 := Advance(Start("a"), PageArrived([x, y]));
    assert s1.session.followers == [x, y] && !s1.session.isSearching;
    var s2 := Advance(s1, SearchTextChanged(Wrappers.Some("x")));
    assert s2.session.isSearching;
    assert s2.shown == s2.session.filteredFollowers;
    assert x in s2.shown;
    var s3 := Advance(s2, FollowersRequested("x"));
    assert s3.session.isSearching && s3.session.filteredFollowers == [];
    var s4 := Advance(s3, PageArrived([p, q]));
    assert s4.session.followers == [p, q];
  }

  /** The display instruction that keeps the grid on the active list: a page
      that arrives during a search leaves the filtered list on screen, and a user
      change clears the grid at once. Every other instruction is the source's. */
  function CorrectedDisplay(e: Event, t: Transition): Display {
    match e
    case PageArrived(_) =>
      if t.display == ShowEmptyState then ShowEmptyState else ShowFollowers(ActiveList(t.next))
    case FollowersRequested(_) => ShowFollowers(ActiveList(t.next))
    case _ => t.display
  }

  /** The correction only departs from the source during a search or on a user
      change. */
  lemma CorrectedDisplayDeparts(s: State, e: Event)
    ensures !s.isSearching && !e.FollowersRequested? ==>
      CorrectedDisplay(e, Step(s, e)) == Step(s, e).display
  {
  }

  /** One event with the corrected display instruction; the session state is
      the source's. */
  function AdvanceCorrected(scr: Screen, e: Event): (r: Screen)
    ensures r.session == Step(scr.session, e).next
    ensures InSync(scr) ==> InSync(r)
  {
    var t := Step(scr.session, e);
    Screen(t.next, Apply(scr.shown, CorrectedDisplay(e, t)))
  }

  /** The screen after `events`, in order, with corrected display instructions. */
  function ReplayCorrected(scr: Screen, events: seq<Event>): Screen
    decreases |events|
  {
    if |events| == 0 then scr
    else AdvanceCorrected(ReplayCorrected(scr, events[..|events| - 1]), events[|events| - 1])
  }

  /** From launch on, the corrected grid always shows the active list, and its
      session state is the source's. */
  lemma {:induction false} CorrectedReplayInSync(userName: string, events: seq<Event>)
    ensures InSync(ReplayCorrected(Start(userName), events))
    ensures ReplayCorrected(Start(userName), events).session == Run(Launch(userName).next, events)
    decreases |events|
  {
    if |events| > 0 {
      CorrectedReplayInSync(userName, events[..|events| - 1]);
    }
  }

  /** Tapping the item at `index` of a grid in sync opens the profile of the
      follower shown there, and the selection stays within its list. */
  function Tap(scr: Screen, index: int): (login: string)
    requires InSync(scr) && 0 <= index < |scr.shown|
    ensures login == scr.shown[index].login
  {
    SelectItem(scr.session, index)
  }
}
