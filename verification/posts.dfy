/**
 * Posts of a thread and the filter projection the post adapter applies to them.
 *
 * A post is an object: the adapter compares posts by reference when it
 * decides whether a post is the highlighted one, and by post number when it
 * filters. Both identities are kept here: `Post` is a class (so `==` is
 * reference equality) whose `id` and `no` never change.
 */
module Posts {

  /** The conventional stand-in for a Java reference that may be null. */
  datatype Option<T> = None | Some(value: T)

  /** A post record: string id and thread-unique post number. */
  class Post {
    const id: string
    const no: int

    constructor (id: string, no: int)
      ensures this.id == id && this.no == no
    {
      this.id := id;
      this.no := no;
    }
  }

  /** Some post of `filter` carries the post number of `item`. */
  predicate InFilter(item: Post, filter: seq<Post>)
  {
    exists k :: 0 <= k < |filter| && filter[k].no == item.no
  }

  /**
   * The display list that filtering `source` by `filter` produces: the posts
   * of `source` whose number is the number of some post of `filter`, in
   * source order. Defined on prefixes, the way the adapter builds it.
   */
  function Filtered(source: seq<Post>, filter: seq<Post>): (r: seq<Post>)
    ensures |r| <= |source|
    ensures forall k :: 0 <= k < |r| ==> InFilter(r[k], filter)
  {
    if |source| == 0 then []
    else
      var last := source[|source| - 1];
      Filtered(source[..|source| - 1], filter) + (if InFilter(last, filter) then [last] else [])
  }

  /** The positions of `source` whose post passes `filter`, in increasing order. */
  ghost function KeptPositions(source: seq<Post>, filter: seq<Post>): (ks: seq<int>)
    ensures forall k :: 0 <= k < |ks| ==> 0 <= ks[k] < |source|
    ensures forall k, l :: 0 <= k < l < |ks| ==> ks[k] < ks[l]
  {
    if |source| == 0 then []
    else
      var n := |source| - 1;
      KeptPositions(source[..n], filter) + (if InFilter(source[n], filter) then [n] else [])
  }

  /**
   * The filtered list is the source read at the kept positions: its k-th
   * element is the source element at the k-th matching position. With the
   * positions strictly increasing (the contract of KeptPositions), each source
   * post is taken at most once and source order is kept.
   */
  lemma {:induction false} FilteredSelectsMatchingInOrder(source: seq<Post>, filter: seq<Post>)
    ensures |Filtered(source, filter)| == |KeptPositions(source, filter)|
    ensures forall k :: 0 <= k < |KeptPositions(source, filter)| ==>
      Filtered(source, filter)[k] == source[KeptPositions(source, filter)[k]]
  {
    if |source| > 0 {
      var n := |source| - 1;
      var init := source[..n];
      FilteredSelectsMatchingInOrder(init, filter);
      var r0, ks0 := Filtered(init, filter), KeptPositions(init, filter);
      var r, ks := Filtered(source, filter), KeptPositions(source, filter);
      forall k | 0 <= k < |ks|
        ensures r[k] == source[ks[k]]
      {
        if k < |ks0| {
          assert r[k] == r0[k] && ks[k] == ks0[k];
          assert init[ks0[k]] == source[ks0[k]];
        }
      }
    }
  }

  /** Every position whose post passes the filter is kept. */
  lemma {:induction false} KeptPositionsComplete(source: seq<Post>, filter: seq<Post>, i: int)
    requires 0 <= i < |source| && InFilter(source[i], filter)
    ensures i in KeptPositions(source, filter)
  {
    var n := |source| - 1;
    if i < n {
      assert source[..n][i] == source[i];
      KeptPositionsComplete(source[..n], filter, i);
    }
  }

  /** A post is shown after filtering iff it is in the source and passes the filter. */
  lemma {:induction false} FilteredMembership(source: seq<Post>, filter: seq<Post>, p: Post)
    ensures p in Filtered(source, filter) <==> p in source && InFilter(p, filter)
  {
    if |source| > 0 {
      var n := |source| - 1;
      FilteredMembership(source[..n], filter, p);
      assert source == source[..n] + [source[n]];
    }
  }

  /** Filtering respects concatenation, so relative order is preserved. */
  lemma {:induction false} FilteredAppend(a: seq<Post>, b: seq<Post>, filter: seq<Post>)
    ensures Filtered(a + b, filter) == Filtered(a, filter) + Filtered(b, filter)
    decreases |b|
  {
    if |b| == 0 {
      assert a + b == a;
    } else {
      var n := |b| - 1;
      assert (a + b)[..|a + b| - 1] == a + b[..n];
      FilteredAppend(a, b[..n], filter);
    }
  }

  /** A list in which every post passes the filter is left as it is. */
  lemma {:induction false} FilteredAllMatching(source: seq<Post>, filter: seq<Post>)
    requires forall i :: 0 <= i < |source| ==> InFilter(source[i], filter)
    ensures Filtered(source, filter) == source
  {
    if |source| > 0 {
      var n := |source| - 1;
      FilteredAllMatching(source[..n], filter);
      assert source == source[..n] + [source[n]];
    }
  }

  /** Filtering a list by itself shows the whole list. */
  lemma FilteredBySelf(source: seq<Post>)
    ensures Filtered(source, source) == source
  {
    forall i | 0 <= i < |source|
      ensures InFilter(source[i], source)
    {
      assert source[i].no == source[i].no;
    }
    FilteredAllMatching(source, source);
  }

  /** Applying the same filter twice changes nothing more. */
  lemma FilteredIdempotent(source: seq<Post>, filter: seq<Post>)
    ensures Filtered(Filtered(source, filter), filter) == Filtered(source, filter)
  {
    FilteredAllMatching(Filtered(source, filter), filter);
  }

  /** Filtering never duplicates a post: the result is a sub-multiset of the source. */
  lemma {:induction false} FilteredSubMultiset(source: seq<Post>, filter: seq<Post>)
    ensures multiset(Filtered(source, filter)) <= multiset(source)
  {
    if |source| > 0 {
      var n := |source| - 1;
      FilteredSubMultiset(source[..n], filter);
      assert source == source[..n] + [source[n]];
    }
  }

  /**
   * Filtering compares post numbers, not references: two filters that admit
   * the same numbers give the same display list.
   */
  lemma {:induction false} FilteredByNumber(source: seq<Post>, f: seq<Post>, g: seq<Post>)
    requires forall p: Post :: InFilter(p, f) <==> InFilter(p, g)
    ensures Filtered(source, f) == Filtered(source, g)
  {
    if |source| > 0 {
      FilteredByNumber(source[..|source| - 1], f, g);
    }
  }

  /**
   * Three posts numbered 1, 2, 3 filtered by (possibly different) posts
   * numbered 1 and 3 leave the first and the third.
   */
  lemma FilteredExample(a: Post, b: Post, c: Post, x: Post, y: Post)
    requires a.no == 1 && b.no == 2 && c.no == 3 && x.no == 1 && y.no == 3
    ensures Filtered([a, b, c], [x, y]) == [a, c]
  {
    var f := [x, y];
    assert InFilter(a, f) by { assert f[0].no == a.no; }
    assert !InFilter(b, f);
    assert InFilter(c, f) by { assert f[1].no == c.no; }
    var s1, s2, s3 := [a], [a, b], [a, b, c];
    assert s1[..0] == [] && s2[..1] == s1 && s3[..2] == s2;
    calc {
      Filtered(s3, f);
      Filtered(s2, f) + [c];
      Filtered(s1, f) + [] + [c];
      [] + [a] + [] + [c];
    }
  }
}
