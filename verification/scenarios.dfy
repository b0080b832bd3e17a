/**
 * Call sequences on one adapter, proved from the operations' contracts alone:
 * what a caller of the adapter can rely on across several calls.
 */
module AdapterScenarios {
  import opened Posts
  import opened Adapter

  /** Filtering and then clearing the filter shows the whole source again. */
  method FilterThenClear(a: PostAdapter, filter: seq<Post>)
    modifies a
    ensures !a.filtering && a.displayList == a.sourceList == old(a.sourceList)
    ensures a.refreshes == old(a.refreshes) + 2
  {
    a.FilterList(filter);
    a.ClearFilter();
  }

  /** Clearing twice: the second call changes nothing and sends no refresh. */
  method ClearFilterTwice(a: PostAdapter)
    modifies a
    ensures !a.filtering && a.refreshes == old(a.refreshes) + (if old(a.filtering) then 1 else 0)
  {
    a.ClearFilter();
    var refreshesBefore := a.refreshes;
    a.ClearFilter();
    assert a.refreshes == refreshesBefore;
  }

  /**
   * Highlighting by number and then by id: the number no longer highlights
   * anything, the id does.
   */
  method LastHighlightWins(a: PostAdapter, p: Post, q: Post)
    requires p.no == 2 && p.id == "y" && q.no == 5 && q.id == "x"
    modifies a
    ensures !a.IsHighlighted(p) && a.IsHighlighted(q)
  {
    a.HighlightPostNo(2);
    a.HighlightPostId(Some("x"));
  }

  /** A second immediate growth check never signals. */
  method ScrolledToBottomTwice(a: PostAdapter) returns (first: bool, second: bool)
    modifies a
    ensures first <==> !a.filtering && old(a.lastPostCount) != |a.sourceList|
    ensures !second
  {
    first := a.OnScrolledToBottom();
    second := a.OnScrolledToBottom();
  }

  /** While a filter is active the growth check never signals, whatever was loaded. */
  method NoGrowthSignalWhileFiltering(a: PostAdapter, filter: seq<Post>, posts: seq<Post>) returns (fired: bool)
    modifies a
    ensures !fired && a.lastPostCount == old(a.lastPostCount)
  {
    a.FilterList(filter);
    a.SetThread(posts);
    fired := a.OnScrolledToBottom();
  }

  /** A thread that shrinks also signals: the detector tests for any change of size. */
  method ShrinkSignals(a: PostAdapter, p: Post, q: Post) returns (grew: bool, shrank: bool)
    modifies a
    ensures grew && shrank && a.lastPostCount == 1
  {
    a.Cleanup();
    a.SetThread([p, q]);
    grew := a.OnScrolledToBottom();
    a.SetThread([p]);
    shrank := a.OnScrolledToBottom();
  }

  /**
   * Loading a thread while filtering keeps the old display list, which then
   * shows a post the new source does not contain.
   */
  method StaleDisplayAfterReload(a: PostAdapter, p: Post, q: Post)
    requires p != q
    modifies a
    ensures a.filtering && a.sourceList == [q] && a.displayList == [p]
    ensures p in a.displayList && p !in a.sourceList
  {
    a.SetThread([p]);
    a.FilterList([p]);
    FilteredBySelf([p]);
    a.SetThread([q]);
  }

  /** Cleanup clears the filter flag but leaves the filtered display list in place. */
  method CleanupKeepsFilteredList(a: PostAdapter, filter: seq<Post>)
    modifies a
    ensures !a.filtering && a.displayList == Filtered(a.sourceList, filter)
    ensures a.lastPostCount == 0 && a.Selectors() == (null, None, NO_POST)
  {
    a.FilterList(filter);
    a.Cleanup();
  }

  /** In thread mode with five displayed posts there are six rows; row 5 is the status row with id -1. */
  method StatusRowOfFivePosts(a: PostAdapter) returns (count: int, lastType: int, lastId: int)
    requires |a.displayList| == 5
    ensures count == 6 && lastType == TYPE_STATUS && lastId == -1
  {
    count := a.ItemCount(true);
    lastType := a.ItemViewType(5, true);
    lastId := a.ItemId(5, true);
  }
}
