# GHFollowers follower-list session, in Dafny

This project models the follower-list screen of GHFollowers, an iOS client that
browses a GitHub user's followers. The screen (`FollowerListVC`) keeps six fields:
the user name, the accumulated `followers`, the `filteredFollowers` of the current
search, the `page` number, the end-of-data flag `hasMoreFollowers` and the search
flag `isSearching`. It changes on a few sequential events: a page of followers
arrives, a fetch fails, a drag ends near the bottom, the search text changes,
the search is cancelled, and the followers of another user are requested. Tapping
an item opens the profile of the follower at that index of the active list.

The model is functional:

- `Followers.Follower` is the follower record, with structural equality on both fields.
- `Text` holds ASCII lowercasing and substring containment. The containment is a
  search by offsets, proved equal to a reference definition.
- `Search` holds the filter. It keeps, in order, the followers whose lowercased
  login contains the lowercased query. It also defines order-preserving
  sub-sequences by strictly increasing positions.
- `Session` holds the session state and one pure transition per event. A
  transition yields the next state, the fetch it issues, if any, and the display
  instruction for the grid.
- `Session` also holds `Step` and `Run` over event traces. Trace lemmas cover the
  validity invariant, page accumulation and the end-of-data flag. They also cover
  paging through a server's follower list, 100 followers a page, until the list
  is complete, and the page a failed fetch skips.
- `Grid` pairs the session with the snapshot the grid shows. It exhibits the
  selection discrepancy listed under Findings and proves a corrected display rule.

Network completions are input events (`PageArrived`, `FetchFailed`). The
floating-point scroll test is a boolean `nearBottom` input. The outgoing request
is an output value `Request(userName, page)`.

## Model

| member | source | states |
|---|---|---|
| Session.Launch | GHFollowers/Screens/FollowerListVC.swift:19-32 | a new screen starts with empty lists, page 1, more followers assumed and no search, in a valid state, and requests page 1 of its user |
| Session.ReceivePage | GHFollowers/Screens/FollowerListVC.swift:89-100 | after a page arrives, more followers are expected exactly when it holds at least 100; the list keeps its old prefix and gains the page as its suffix, so it grows by the page length; the empty state is shown exactly when the list is still empty, and otherwise the whole list is shown even during a search; nothing else changes and nothing is fetched |
| Session.ReceiveError | GHFollowers/Screens/FollowerListVC.swift:101-102 | a failed fetch leaves all six fields unchanged, fetches nothing and raises an alert with the error text |
| Session.EndDrag | GHFollowers/Screens/FollowerListVC.swift:148-154 | away from the bottom, or with no more followers, nothing changes and nothing is fetched; otherwise the page goes up by exactly one and that page of the same user is requested |
| Session.UpdateSearch | GHFollowers/Screens/FollowerListVC.swift:172-179 | missing or empty text leaves everything unchanged; other text turns searching on and makes the filtered list an in-order sub-sequence of the followers that holds exactly the ones that match, then shows it; no other field changes |
| Session.CancelSearch | GHFollowers/Screens/FollowerListVC.swift:181-184 | cancelling turns searching off, changes nothing else and shows the whole list |
| Session.RequestFollowers | GHFollowers/Screens/FollowerListVC.swift:190-198 | a user change sets the user, resets the page to 1, empties both lists and requests page 1; the end-of-data and search flags keep their values |
| Session.SelectItem | GHFollowers/Screens/FollowerListVC.swift:157-162 | selection needs an index inside the active list; it opens the login at that index of the filtered list while searching and of the whole list otherwise |
| Session.StepPreservesValid | GHFollowers/Screens/FollowerListVC.swift:89-198 | every event keeps the page at 1 or more and the filtered list an in-order sub-sequence of the followers |
| Session.RunPreservesValid | GHFollowers/Screens/FollowerListVC.swift:19-198 | every state reachable from a launch is valid |
| Session.SelectedIsAFollower | GHFollowers/Screens/FollowerListVC.swift:157-162 | in a valid state the selected login belongs to a follower in the accumulated list, even while searching |
| Session.PageMoves | GHFollowers/Screens/FollowerListVC.swift:148-198 | the page moves by +1 only on a drag, is reset to 1 on a user change, and no other event touches it |
| Session.FetchTargetsCurrentPage | GHFollowers/Screens/FollowerListVC.swift:148-198 | only a drag or a user change issues a fetch, and it asks for the user and page held by the next state |
| Session.FailedFetchKeepsAdvancedPage | GHFollowers/Screens/FollowerListVC.swift:101-154 | when the fetch issued by a drag fails, the state keeps the advanced page and is otherwise the state before the drag |
| Session.RunAccumulatesPages | GHFollowers/Screens/FollowerListVC.swift:89-195 | after any trace the list is the concatenation of the pages received since the last user change, in arrival order, with nothing dropped or repeated |
| Session.RunHasMoreFollowers | GHFollowers/Screens/FollowerListVC.swift:23-90 | after any trace more followers are expected exactly when no page has arrived yet or the last page to arrive held at least 100, whichever user it was for |
| Session.PagingCollectsServerPages | GHFollowers/Screens/FollowerListVC.swift:82-154 | paging a server list whose earlier pages were full: the drag after page n - 1 requests page n of the same user, and after page n arrives the list is exactly the first n pages of the server list in server order, with more expected exactly when page n was full |
| Session.PagingEndsWithServerList | GHFollowers/Screens/FollowerListVC.swift:82-154 | paging stops at the first page that is not full; by then more followers are no longer expected and the list is the whole server list |
| Session.PagedStateCollects | GHFollowers/Screens/FollowerListVC.swift:89-154 | after page n of a paging session the user and page number are unchanged and the list is the server list cut after n pages |
| Session.FailureSkipsPage | GHFollowers/Screens/FollowerListVC.swift:101-154 | after the fetch of page k + 1 fails, the next drag requests page k + 2, so page k + 1 is never requested again |
| Session.FullThenEmptyScenario | GHFollowers/Screens/FollowerListVC.swift:89-154 | a full page of 100 leaves more expected; the drag requests page 2; an empty page 2 ends paging with the 100 followers kept and shown |
| Text.Lower | GHFollowers/Screens/FollowerListVC.swift:177 | lowercasing keeps the length and maps each character on its own, upper-case ASCII letters to lower case and every other character to itself |
| Text.Contains | GHFollowers/Screens/FollowerListVC.swift:177 | a containment holds only when the needle is no longer than the haystack, and the empty needle is contained in every string |
| Search.Matches | GHFollowers/Screens/FollowerListVC.swift:177 | a follower is kept exactly when the lowercased query occurs at some offset of its lowercased login |
| Search.Filter | GHFollowers/Screens/FollowerListVC.swift:177 | the filter is no longer than its input, keeps only matching followers, and keeps every follower that matches |
| Search.FilterKeepsExactlyMatchingPositions | GHFollowers/Screens/FollowerListVC.swift:177 | the filter takes the followers at exactly the matching positions, in ascending order, so it is an order-preserving sub-sequence |
| Search.FilterIsSubsequence | GHFollowers/Screens/FollowerListVC.swift:177 | the filtered list is an in-order sub-sequence of its input |
| Search.FilterAppend | GHFollowers/Screens/FollowerListVC.swift:177 | filtering a concatenation is the concatenation of the filtered parts, as for a list that grows by pages |
| Search.FilterIgnoresQueryCase | GHFollowers/Screens/FollowerListVC.swift:177 | the result depends only on the lowercased query |
| Search.FilterIdempotent | GHFollowers/Screens/FollowerListVC.swift:177 | filtering twice by the same query is filtering once |
| Search.FilterExample | GHFollowers/Screens/FollowerListVC.swift:177 | the query "AB" keeps the login "xaBy" and drops "cd" |
| Text.ContainsIsSubstring | GHFollowers/Screens/FollowerListVC.swift:177 | the containment test holds exactly when the needle occurs at some offset of the haystack |
| Text.LowerIsLowerAndIdempotent | GHFollowers/Screens/FollowerListVC.swift:177 | lowercasing leaves no upper-case letter, leaves a lower-case string unchanged and is idempotent |
| Grid.Apply | GHFollowers/Screens/FollowerListVC.swift:127-135 | only a new snapshot replaces what the grid shows; the empty-state view (UIViewController+Ext.swift:54-58) and alerts are drawn over the grid and leave its items as they were |
| Grid.Advance | GHFollowers/Extentions/UIViewController+Ext.swift:54-58 | one event moves the session as the source does and applies its display instruction to the grid, which the empty-state view and alerts leave unchanged |
| Grid.AsWrittenTapOutsideActiveList | GHFollowers/Screens/FollowerListVC.swift:89-198 | with the display instructions as written, a reachable grid shows two followers while the selection list is empty |
| Grid.CorrectedDisplayDeparts | GHFollowers/Screens/FollowerListVC.swift:89-198 | the corrected display rule departs from the source's only during a search or on a user change |
| Grid.AdvanceCorrected | GHFollowers/Screens/FollowerListVC.swift:89-198 | with the corrected display rule an event leaves the session state as the source does and keeps the grid on the active list |
| Grid.CorrectedReplayInSync | GHFollowers/Screens/FollowerListVC.swift:89-198 | from launch, along any trace, the corrected grid shows the active list and its session equals the source's |
| Grid.Tap | GHFollowers/Screens/FollowerListVC.swift:157-165 | on a grid in sync, tapping any shown index stays inside the selection list and opens the follower shown at that index |

## Left out

- Favourites (`addButtonTappeed`, FollowerListVC.swift:50-71): they go through `NetworkManager` and `PersistanceManager`, which are not part of this model.
- `NetworkManager` is not part of this model. A fetch is the output `Request(userName, page)`, and its result is a later `PageArrived` or `FetchFailed` event. URL construction and error mapping are not modelled.
- The scroll geometry (FollowerListVC.swift:144-148) compares floating-point offsets. It is the boolean input `nearBottom`.
- The loading view, alert titles and texts, the empty-state message, `setContentOffset`, the title and the presentation of the profile screen are UIKit presentation. Only the display instruction and the selected login are modelled.
- `DispatchQueue.main.async` and `[weak self]` are left out: events form a sequential trace. Events carry no user tag, so a late page for a previous user is appended like any other page. The source does the same.
- Session.PagingCollectsServerPages: holds only on traces without failed fetches. A failed fetch leaves the page advanced (`Session.FailureSkipsPage`), so the next drag requests the page after it and the failed page's followers are never fetched. The source does this; it is not corrected here.
- Text.Lower: lowercases ASCII letters only. Swift's `lowercased()` is Unicode-aware, and its `contains` compares grapheme clusters rather than code points.
- Session.EndDrag: the page is an unbounded integer. Swift's `Int` would trap on overflow after 2^63 - 1 pages, which the model does not represent.
- The `followers != 0` guard of UserInfoVC.swift:131 and the empty-name guard of SearchVC.swift:37 sit in the callers. `Session.RequestFollowers` and `Session.Launch` accept any user name, as the screen itself does.
- Date+Ext.swift, User.swift and the label and item views are formatting and presentation.
- `Follower` equality compares both fields, not only the login (Follower.swift). The page is reset to 1 on a user change (FollowerListVC.swift:193), so it does not only increase. A completion for a superseded request is applied, not discarded.

## Findings

| source | as written | input that shows it | evidently intended | confidence | as-written member | corrected member |
|---|---|---|---|---|---|---|
| GHFollowers/Screens/FollowerListVC.swift:158-159 | Selection indexes `filteredFollowers` whenever `isSearching`. Meanwhile a page that arrives shows the whole `followers` list even during a search (line 100), and a user change empties both lists without clearing the grid (lines 190-198). | Launch for "a"; page [x, y] arrives; search "x"; request the followers of "x" (the grid still shows [x], the selection list is empty); page [p, q] arrives (the grid shows [p, q], the selection list is still empty). Tapping item 0 indexes an empty array and traps. A shorter route is a drag to the bottom during a search: the next full page shows every follower while selection still uses the older, shorter filtered list. | Tapping a visible item opens that item. The grid must always show the list selection indexes into. | medium, because the timing of UIKit search callbacks is not modelled; not executed | Grid.AsWrittenTapOutsideActiveList | Grid.AdvanceCorrected |

The corrected display rule keeps the filtered list on screen when a page arrives
during a search, and it clears the grid on a user change. The session state itself
is unchanged. `Grid.CorrectedReplayInSync` proves that the grid then shows the
active list along every trace. `Grid.Tap` proves that every tap on a shown item is
in range and opens that item.
