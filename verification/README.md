# Clover post adapter: the post-list projection

Clover is an Android client for image boards. Its `PostAdapter` binds a
thread's posts to a scrolling list. This project models the state machine
inside the adapter:

- the **source list** holds the posts of the last loaded thread;
- the **display list** is either the whole source or the source posts that a
  filter kept;
- the `filtering` flag;
- the three **highlight selectors**: a post object, a post id and a post
  number;
- the pending **error** shown on the status row;
- the **growth tracker** `lastPostCount`. It signals the owner to fetch more
  posts when the trailing status row is bound.

Files:

- `posts.dfy` (module `Posts`): the `Post` class. Because `Post` is a class,
  `==` on posts is reference equality, as in Java. Its `id` and `no` are
  constants, so a post never changes. The module also holds the
  specification of filtering (`Filtered`) and its lemmas.
- `post_adapter.dfy` (module `Adapter`): the `PostAdapter` class.
  - Its fields are the adapter's fields.
  - Its methods update them the way the Java methods do. This includes the
    nested filter loop with `break`.
  - Its functions give the row count, row type and row id.
- `scenarios.dfy` (module `AdapterScenarios`): call sequences proved from the
  contracts alone. Examples: last highlight wins, a second growth check never
  signals, and a stale display list after a reload while filtering.

Modelling choices:

- A Java `null` string is `Option<string>`. A null post reference is `Post?`.
- `isThreadMode()` belongs to the loadable outside the adapter. It is a
  `threadMode` parameter.
- The `onListScrolledToBottom()` callback is the boolean that
  `OnScrolledToBottom` returns.
- `notifyDataSetChanged()` is counted in the ghost field `refreshes`. This is
  what lets a contract say "`ClearFilter` sends no refresh when no filter is
  active".
- `Valid()` says that at most one highlight selector differs from its
  default. The constructor, every highlight method and `Cleanup` establish it.
  `SetThread`, `FilterList` and `ClearFilter` preserve it.

Behaviour of the code that is easy to get wrong, and that the model keeps:

- `cleanup` resets `filtering` to false (line 148). The filtered display list
  stays as it is.
- The growth check fires on any change of the source size, including a
  shrink, because the test is `!=` (line 214).
- `setThread` during filtering leaves the display list untouched
  (lines 135-138). The display list can then hold posts that are not in the
  source, so "the display list is a subsequence of the source" is not an
  invariant of the class. `AdapterScenarios.StaleDisplayAfterReload` exhibits
  this.
- The highlight test at line 91 compares all three keys every time, and the
  default number is -1. So a post numbered -1 matches even when the number
  selector is at its default. "Only the most recent highlight call's key
  highlights" therefore holds only for posts not numbered -1. The contracts of
  the highlight methods and `HighlightedByActiveSelector` state this
  `p.no == -1` case explicitly.

## Model

| member | source | states |
|---|---|---|
| `Adapter.PostAdapter.constructor` | Clover/app/src/main/java/org/floens/chan/ui/adapter/PostAdapter.java:44-51 | Initial state: both lists are empty, the count is 0, there is no error, no highlight and no filter; the selector invariant holds |
| `Adapter.PostAdapter.HighlightedByActiveSelector` | Clover/app/src/main/java/org/floens/chan/ui/adapter/PostAdapter.java:91 | With at most one selector active, a post is highlighted iff it matches the active key or is numbered -1. With no selector active, only a post numbered -1 is highlighted |
| `Adapter.PostAdapter.ItemCount` | Clover/app/src/main/java/org/floens/chan/ui/adapter/PostAdapter.java:99-106 | The row count is the display size, or the display size plus one exactly in thread mode |
| `Adapter.PostAdapter.ItemViewType` | Clover/app/src/main/java/org/floens/chan/ui/adapter/PostAdapter.java:108-119 | The type is POST or STATUS. It is STATUS exactly in thread mode, at the position just after the last displayed post |
| `Adapter.PostAdapter.ItemId` | Clover/app/src/main/java/org/floens/chan/ui/adapter/PostAdapter.java:121-128 | For an in-range row: a post row's id is the number of the displayed post at that position; the status row's id is -1 |
| `Adapter.PostAdapter.ShowError` | Clover/app/src/main/java/org/floens/chan/ui/adapter/PostAdapter.java:152-153 | The error becomes the given value; nothing else changes |
| `Adapter.PostAdapter.SetThread` | Clover/app/src/main/java/org/floens/chan/ui/adapter/PostAdapter.java:130-142 | The error is cleared and the source becomes the thread's posts. The display list becomes the source only if no filter was active; otherwise it is unchanged. The filter flag, count and selectors are unchanged. One refresh is sent |
| `Adapter.PostAdapter.Cleanup` | Clover/app/src/main/java/org/floens/chan/ui/adapter/PostAdapter.java:144-150 | All selectors return to default, the filter flag to false and the count to 0. The lists and the error are unchanged, and no refresh is sent |
| `Adapter.PostAdapter.FilterList` | Clover/app/src/main/java/org/floens/chan/ui/adapter/PostAdapter.java:165-179 | Afterwards filtering is on and the display list equals `Filtered(source, filter)`. The source and all other fields are unchanged. One refresh is sent |
| `Adapter.PostAdapter.ClearFilter` | Clover/app/src/main/java/org/floens/chan/ui/adapter/PostAdapter.java:181-190 | When filtering: the flag is cleared, the display list equals the source, one refresh is sent. When not filtering: nothing changes and no refresh is sent |
| `Adapter.PostAdapter.HighlightPost` | Clover/app/src/main/java/org/floens/chan/ui/adapter/PostAdapter.java:192-197 | The selectors become (post, none, -1), so a post is highlighted iff it is that object or is numbered -1. No list, filter, count or error changes. One refresh is sent |
| `Adapter.PostAdapter.HighlightPostId` | Clover/app/src/main/java/org/floens/chan/ui/adapter/PostAdapter.java:199-204 | The selectors become (null, id, -1), so a post is highlighted iff it carries that id or is numbered -1. No list, filter, count or error changes. One refresh is sent |
| `Adapter.PostAdapter.HighlightPostNo` | Clover/app/src/main/java/org/floens/chan/ui/adapter/PostAdapter.java:206-211 | The selectors become (null, none, no), so a post is highlighted iff it carries that number. No list, filter, count or error changes. One refresh is sent |
| `Adapter.PostAdapter.OnScrolledToBottom` | Clover/app/src/main/java/org/floens/chan/ui/adapter/PostAdapter.java:213-218 | Signals exactly when not filtering and the recorded count differs from the source size. The count then becomes the source size; otherwise it is unchanged |
| `Adapter.PostAdapter.OnBindViewHolder` | Clover/app/src/main/java/org/floens/chan/ui/adapter/PostAdapter.java:86-97 | A post row reports whether its post matches the highlighted reference, id or number, and changes nothing. The status row runs the growth check with its exact signal condition |
| `Posts.Filtered` | Clover/app/src/main/java/org/floens/chan/ui/adapter/PostAdapter.java:168-176 | The filtered list is no longer than the source, and every post in it passes the filter by number |
| `Posts.FilteredSelectsMatchingInOrder` | Clover/app/src/main/java/org/floens/chan/ui/adapter/PostAdapter.java:169-176 | The filtered list is the source read at the matching positions. Those positions strictly increase (the contract of `KeptPositions`), so each source post appears at most once and source order is kept |
| `Posts.KeptPositionsComplete` | Clover/app/src/main/java/org/floens/chan/ui/adapter/PostAdapter.java:170-174 | Every source position whose post shares a number with some filter post is among the kept positions |
| `Posts.FilteredMembership` | Clover/app/src/main/java/org/floens/chan/ui/adapter/PostAdapter.java:169-176 | A post is in the filtered list iff it is in the source and some filter post has its number |
| `Posts.FilteredAppend` | Clover/app/src/main/java/org/floens/chan/ui/adapter/PostAdapter.java:169-176 | Filtering a concatenation gives the concatenation of the filtered parts (order preservation) |
| `Posts.FilteredAllMatching` | Clover/app/src/main/java/org/floens/chan/ui/adapter/PostAdapter.java:169-176 | A list whose every post passes the filter is returned unchanged |
| `Posts.FilteredBySelf` | Clover/app/src/main/java/org/floens/chan/ui/adapter/PostAdapter.java:165-179 | Filtering the source by itself gives the whole source, the same display list that clearing the filter gives |
| `Posts.FilteredIdempotent` | Clover/app/src/main/java/org/floens/chan/ui/adapter/PostAdapter.java:165-179 | Filtering twice by the same filter gives the same result as filtering once |
| `Posts.FilteredSubMultiset` | Clover/app/src/main/java/org/floens/chan/ui/adapter/PostAdapter.java:169-176 | The filtered list is a sub-multiset of the source. The `break` means no post is added twice |
| `Posts.FilteredByNumber` | Clover/app/src/main/java/org/floens/chan/ui/adapter/PostAdapter.java:171 | Two filters that admit the same post numbers give the same display list. The comparison is by number, not by reference |
| `Posts.FilteredExample` | Clover/app/src/main/java/org/floens/chan/ui/adapter/PostAdapter.java:165-179 | Posts 1, 2, 3 filtered by posts numbered 1 and 3 leave posts 1 and 3. The filter posts may be different objects |
| `AdapterScenarios.FilterThenClear` | Clover/app/src/main/java/org/floens/chan/ui/adapter/PostAdapter.java:165-190 | After filtering and then clearing, the display list equals the unchanged source and the filter is off |
| `AdapterScenarios.ClearFilterTwice` | Clover/app/src/main/java/org/floens/chan/ui/adapter/PostAdapter.java:181-190 | A second clear sends no refresh |
| `AdapterScenarios.LastHighlightWins` | Clover/app/src/main/java/org/floens/chan/ui/adapter/PostAdapter.java:91 | After highlight-by-number 2 then highlight-by-id "x": post (2, "y") is not highlighted and post (5, "x") is |
| `AdapterScenarios.ScrolledToBottomTwice` | Clover/app/src/main/java/org/floens/chan/ui/adapter/PostAdapter.java:213-218 | An immediate second growth check never signals |
| `AdapterScenarios.NoGrowthSignalWhileFiltering` | Clover/app/src/main/java/org/floens/chan/ui/adapter/PostAdapter.java:213-218 | While filtering, loading any thread and running the growth check does not signal and does not move the count |
| `AdapterScenarios.ShrinkSignals` | Clover/app/src/main/java/org/floens/chan/ui/adapter/PostAdapter.java:214 | After cleanup, loading two posts signals, and then loading one post signals again |
| `AdapterScenarios.StaleDisplayAfterReload` | Clover/app/src/main/java/org/floens/chan/ui/adapter/PostAdapter.java:135-138 | Loading while filtering keeps a display list that shows a post missing from the new source |
| `AdapterScenarios.CleanupKeepsFilteredList` | Clover/app/src/main/java/org/floens/chan/ui/adapter/PostAdapter.java:144-150 | After filter then cleanup, the filter flag is off but the display list is still the filtered one |
| `AdapterScenarios.StatusRowOfFivePosts` | Clover/app/src/main/java/org/floens/chan/ui/adapter/PostAdapter.java:99-128 | In thread mode with five displayed posts: six rows, and row 5 is the status row with id -1 |

## Left out

- View creation and recycling are left out: `onCreateViewHolder`, layout choice by `postViewMode`, `setPostViewMode`, and the `PostViewHolder` / `StatusViewHolder` classes. They build Android views and hold no state of the projection.
- The status-cell refresh in `showError` (the lookup of the view holder at the last position and the cell's `setError` / `update`) is left out. So are `setPost` and `update` in `onBindViewHolder`. These are calls into the UI toolkit; only the assignment of `error` is modelled.
- `notifyDataSetChanged()` is a framework notification. It is modelled only as the ghost counter `refreshes`.
- `ChanThread`, `Loadable`, `PostCellInterface` and `ThreadStatusCell` are not part of this model. A thread is its sequence of posts, and thread mode is a boolean parameter.
- `Adapter.PostAdapter.ItemCount`: Java's 32-bit `int` overflow of `displayList.size() + 1` is not modelled, because a list cannot hold 2^31 posts.
- `Adapter.PostAdapter.OnBindViewHolder`: positions outside the row range are excluded by its precondition. For those positions, Java's `displayList.get` at line 90 would throw `IndexOutOfBoundsException`.
- `Adapter.PostAdapter.ItemId`: positions outside the row range are excluded by its precondition. For those positions, Java's `displayList.get` would throw.
