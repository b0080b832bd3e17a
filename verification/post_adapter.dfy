/**
 * The post adapter's list projection: the source list of a loaded thread, the
 * display list derived from it (the whole source, or the posts a filter kept),
 * the highlight selectors, the pending error and the growth tracker that asks
 * for more posts when the trailing status row comes into view.
 *
 * Whether the adapter is in thread mode is owned by the loadable outside the
 * adapter; it is a parameter of every member that depends on it.
 */
module Adapter {
  import opened Posts

  /** Row view types. */
  const TYPE_POST: int := 0
  const TYPE_STATUS: int := 1

  /** The sentinel post number meaning "no post number is highlighted". */
  const NO_POST: int := -1

  class PostAdapter {
    var sourceList: seq<Post>
    var displayList: seq<Post>
    var lastPostCount: nat
    var error: Option<string>
    var highlightedPost: Post?
    var highlightedPostId: Option<string>
    var highlightedPostNo: int
    var filtering: bool
    /** Number of full-refresh notifications sent to the view layer. */
    ghost var refreshes: nat

    /** At most one highlight selector differs from its default. */
    ghost predicate Valid()
      reads this
    {
      (highlightedPost != null ==> highlightedPostId == None && highlightedPostNo == NO_POST) &&
      (highlightedPostId != None ==> highlightedPost == null && highlightedPostNo == NO_POST) &&
      (highlightedPostNo != NO_POST ==> highlightedPost == null && highlightedPostId == None)
    }

    /** The three highlight selectors together. */
    ghost function Selectors(): (Post?, Option<string>, int)
      reads this
    {
      (highlightedPost, highlightedPostId, highlightedPostNo)
    }

    constructor ()
      ensures Valid()
      ensures sourceList == [] && displayList == [] && lastPostCount == 0 && error == None
      ensures Selectors() == (null, None, NO_POST) && !filtering && refreshes == 0
    {
      sourceList := [];
      displayList := [];
      lastPostCount := 0;
      error := None;
      highlightedPost := null;
      highlightedPostId := None;
      highlightedPostNo := NO_POST;
      filtering := false;
      refreshes := 0;
    }

    /**
     * Whether `p` is drawn highlighted: it is the selected post object, or
     * carries the selected id, or carries the selected number. All three keys
     * are compared every time; a missing id matches nothing, and the default
     * number -1 still matches a post numbered -1.
     */
    predicate IsHighlighted(p: Post)
      reads this
    {
      p == highlightedPost || (highlightedPostId.Some? && p.id == highlightedPostId.value) ||
      p.no == highlightedPostNo
    }

    /** Under the selector invariant, only the one active key (and the default number) highlights. */
    lemma HighlightedByActiveSelector(p: Post)
      requires Valid()
      ensures highlightedPost != null ==> (IsHighlighted(p) <==> p == highlightedPost || p.no == NO_POST)
      ensures highlightedPostId.Some? ==>
        (IsHighlighted(p) <==> p.id == highlightedPostId.value || p.no == NO_POST)
      ensures highlightedPostNo != NO_POST ==> (IsHighlighted(p) <==> p.no == highlightedPostNo)
      ensures highlightedPost == null && highlightedPostId == None && highlightedPostNo == NO_POST ==>
        (IsHighlighted(p) <==> p.no == NO_POST)
    {
    }

    /** Number of rows: one per displayed post, plus the status row in thread mode. */
    function ItemCount(threadMode: bool): (n: int)
      reads this
      ensures |displayList| <= n <= |displayList| + 1
      ensures n == |displayList| + 1 <==> threadMode
    {
      if threadMode then |displayList| + 1 else |displayList|
    }

    /** The status row is the one just after the last displayed post, in thread mode only. */
    function ItemViewType(position: int, threadMode: bool): (t: int)
      reads this
      ensures t == TYPE_POST || t == TYPE_STATUS
      ensures t == TYPE_STATUS <==> threadMode && position == |displayList|
    {
      if threadMode then
        if position == ItemCount(threadMode) - 1 then TYPE_STATUS else TYPE_POST
      else
        TYPE_POST
    }

    /** Stable row id: the number of the post shown in the row, -1 for the status row. */
    function ItemId(position: int, threadMode: bool): (id: int)
      reads this
      requires 0 <= position < ItemCount(threadMode)
      ensures position < |displayList| ==> id == displayList[position].no
      ensures position == |displayList| ==> id == -1
    {
      if ItemViewType(position, threadMode) != TYPE_POST then -1 else displayList[position].no
    }

    /** Records the error shown on the status row (null clears it). */
    method ShowError(e: Option<string>)
      modifies this`error
      ensures error == e
    {
      error := e;
    }

    /**
     * Loads a thread's posts. The display list follows the new source only
     * when no filter is active; a filtered display list is left as it was.
     */
    method SetThread(posts: seq<Post>)
      modifies this
      ensures error == None && sourceList == posts
      ensures displayList == if old(filtering) then old(displayList) else posts
      ensures filtering == old(filtering) && lastPostCount == old(lastPostCount)
      ensures Selectors() == old(Selectors()) && refreshes == old(refreshes) + 1
      ensures old(Valid()) ==> Valid()
    {
      ShowError(None);
      sourceList := posts;
      if !filtering {
        displayList := sourceList;
      }
      refreshes := refreshes + 1;
    }

    /** Resets highlight, filter flag and growth tracker; the lists and the error stay. */
    method Cleanup()
      modifies this
      ensures Valid()
      ensures Selectors() == (null, None, NO_POST) && !filtering && lastPostCount == 0
      ensures sourceList == old(sourceList) && displayList == old(displayList)
      ensures error == old(error) && refreshes == old(refreshes)
    {
      highlightedPost := null;
      highlightedPostId := None;
      highlightedPostNo := NO_POST;
      filtering := false;
      lastPostCount := 0;
    }

    /** Shows only the source posts whose number is the number of a post of `filter`. */
    method FilterList(filter: seq<Post>)
      modifies this
      ensures filtering && displayList == Filtered(sourceList, filter)
      ensures sourceList == old(sourceList) && lastPostCount == old(lastPostCount)
      ensures error == old(error) && Selectors() == old(Selectors())
      ensures refreshes == old(refreshes) + 1
      ensures old(Valid()) ==> Valid()
    {
      filtering := true;
      displayList := [];
      var i := 0;
      while i < |sourceList|
        invariant 0 <= i <= |sourceList|
        invariant displayList == Filtered(sourceList[..i], filter)
        invariant filtering && unchanged(this`sourceList, this`lastPostCount, this`error)
        invariant Selectors() == old(Selectors()) && refreshes == old(refreshes)
      {
        var item := sourceList[i];
        assert sourceList[..i + 1][..i] == sourceList[..i];
        var j := 0;
        while j < |filter|
          invariant 0 <= j <= |filter|
          invariant displayList == Filtered(sourceList[..i], filter)
          invariant forall k :: 0 <= k < j ==> filter[k].no != item.no
          invariant filtering && unchanged(this`sourceList, this`lastPostCount, this`error)
          invariant Selectors() == old(Selectors()) && refreshes == old(refreshes)
        {
          if filter[j].no == item.no {
            displayList := displayList + [item];
            break;
          }
          j := j + 1;
        }
        i := i + 1;
      }
      assert sourceList[..i] == sourceList;
      refreshes := refreshes + 1;
    }

    /** Drops an active filter and shows the whole source again; otherwise does nothing. */
    method ClearFilter()
      modifies this
      ensures old(filtering) ==> !filtering && displayList == sourceList && refreshes == old(refreshes) + 1
      ensures !old(filtering) ==> displayList == old(displayList) && refreshes == old(refreshes)
      ensures !filtering && sourceList == old(sourceList) && lastPostCount == old(lastPostCount)
      ensures error == old(error) && Selectors() == old(Selectors())
      ensures old(Valid()) ==> Valid()
    {
      if filtering {
        filtering := false;
        displayList := sourceList;
        refreshes := refreshes + 1;
      }
    }

    /** Highlights one post object (null highlights none) and clears the other keys. */
    method HighlightPost(post: Post?)
      modifies this
      ensures Valid() && Selectors() == (post, None, NO_POST)
      ensures forall p: Post :: IsHighlighted(p) <==> p == post || p.no == NO_POST
      ensures sourceList == old(sourceList) && displayList == old(displayList)
      ensures filtering == old(filtering) && lastPostCount == old(lastPostCount) && error == old(error)
      ensures refreshes == old(refreshes) + 1
    {
      highlightedPost := post;
      highlightedPostId := None;
      highlightedPostNo := NO_POST;
      refreshes := refreshes + 1;
    }

    /** Highlights the posts with id `id` (None highlights none) and clears the other keys. */
    method HighlightPostId(id: Option<string>)
      modifies this
      ensures Valid() && Selectors() == (null, id, NO_POST)
      ensures forall p: Post :: IsHighlighted(p) <==> (id.Some? && p.id == id.value) || p.no == NO_POST
      ensures sourceList == old(sourceList) && displayList == old(displayList)
      ensures filtering == old(filtering) && lastPostCount == old(lastPostCount) && error == old(error)
      ensures refreshes == old(refreshes) + 1
    {
      highlightedPost := null;
      highlightedPostId := id;
      highlightedPostNo := NO_POST;
      refreshes := refreshes + 1;
    }

    /** Highlights the post numbered `no` and clears the other keys. */
    method HighlightPostNo(no: int)
      modifies this
      ensures Valid() && Selectors() == (null, None, no)
      ensures forall p: Post :: IsHighlighted(p) <==> p.no == no
      ensures sourceList == old(sourceList) && displayList == old(displayList)
      ensures filtering == old(filtering) && lastPostCount == old(lastPostCount) && error == old(error)
      ensures refreshes == old(refreshes) + 1
    {
      highlightedPost := null;
      highlightedPostId := None;
      highlightedPostNo := no;
      refreshes := refreshes + 1;
    }

    /**
     * The growth detector. Signals (returns true) when no filter is active and
     * the source size differs from the size recorded at the last signal, and
     * then records the new size.
     */
    method OnScrolledToBottom() returns (fired: bool)
      modifies this`lastPostCount
      ensures fired <==> !filtering && old(lastPostCount) != |sourceList|
      ensures lastPostCount == if fired then |sourceList| else old(lastPostCount)
      ensures !filtering ==> lastPostCount == |sourceList|
    {
      fired := false;
      if !filtering && lastPostCount != |sourceList| {
        lastPostCount := |sourceList|;
        fired := true;
      }
    }

    /**
     * Binding a row: a post row reports whether its post is highlighted; the
     * status row runs the growth detector.
     */
    method OnBindViewHolder(position: int, threadMode: bool) returns (highlight: bool, fired: bool)
      requires 0 <= position < ItemCount(threadMode)
      modifies this`lastPostCount
      ensures position < |displayList| ==> highlight == IsHighlighted(displayList[position])
      ensures position < |displayList| ==> !fired && lastPostCount == old(lastPostCount)
      ensures position == |displayList| ==> !highlight
      ensures position == |displayList| ==> (fired <==> !filtering && old(lastPostCount) != |sourceList|)
      ensures position == |displayList| ==> lastPostCount == if fired then |sourceList| else old(lastPostCount)
    {
      highlight, fired := false, false;
      if ItemViewType(position, threadMode) == TYPE_POST {
        var post := displayList[position];
        highlight := IsHighlighted(post);
      } else if ItemViewType(position, threadMode) == TYPE_STATUS {
        fired := OnScrolledToBottom();
      }
    }
  }
}
