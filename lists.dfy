/** The one list-building pattern of the scrapers that drops elements: walk
    the matched elements in document order and push a record for each one
    that passes a test. `FilterMap(s, f)` is its specification: `f` says, per
    element, whether it contributes and what. */
module Lists {
  import opened Js

  /** The values `f` yields on the elements of `s`, in the order of `s`. */
  function FilterMap<A, B>(s: seq<A>, f: A -> Option<B>): (r: seq<B>)
    ensures |r| <= |s|
  {
    if s == [] then []
    else (match f(s[0]) case Some(b) => [b] case None => []) + FilterMap(s[1..], f)
  }

  /** One record per element, in the order of `s`: the specification of an
      `.each` loop that pushes for every element. */
  function Map<A, B>(s: seq<A>, f: A -> B): (r: seq<B>)
    ensures |r| == |s| && forall i :: 0 <= i < |s| ==> r[i] == f(s[i])
  {
    seq(|s|, i requires 0 <= i < |s| => f(s[i]))
  }

  /** One more element processed: its record goes at the end. */
  lemma MapSnoc<A, B>(s: seq<A>, i: nat, f: A -> B)
    requires i < |s|
    ensures Map(s[..i + 1], f) == Map(s[..i], f) + [f(s[i])]
  {
  }

  /** Filtering a concatenation filters each part and keeps them in order:
      what a loop that pushes one element at a time relies on. */
  lemma {:induction false} FilterMapAppend<A, B>(s: seq<A>, t: seq<A>, f: A -> Option<B>)
    ensures FilterMap(s + t, f) == FilterMap(s, f) + FilterMap(t, f)
  {
    if s == [] {
      assert s + t == t;
    } else {
      assert (s + t)[1..] == s[1..] + t;
      FilterMapAppend(s[1..], t, f);
    }
  }

  /** `idx` lists, strictly increasing, exactly the positions of `s` whose
      element contributes under `f`, and `r[k]` is the value contributed by
      the element at `idx[k]`. */
  ghost predicate Positions<A, B>(s: seq<A>, f: A -> Option<B>, r: seq<B>, idx: seq<nat>) {
    && |idx| == |r|
    && (forall k :: 0 <= k < |idx| ==> idx[k] < |s| && f(s[idx[k]]) == Some(r[k]))
    && Increasing(idx)
    && (forall i :: 0 <= i < |s| && f(s[i]).Some? ==> i in idx)
  }

  predicate Increasing(idx: seq<nat>) {
    forall j, k :: 0 <= j < k < |idx| ==> idx[j] < idx[k]
  }

  /** One more element processed: its value, if any, goes at the end. */
  lemma FilterMapSnoc<A, B>(s: seq<A>, i: nat, f: A -> Option<B>)
    requires i < |s|
    ensures FilterMap(s[..i + 1], f) == FilterMap(s[..i], f) + (match f(s[i]) case Some(b) => [b] case None => [])
  {
    assert s[..i + 1] == s[..i] + [s[i]];
    FilterMapAppend(s[..i], [s[i]], f);
  }

  /** The result is exactly the values of the contributing elements, in
      document order. */
  lemma {:induction false} FilterMapPositions<A, B>(s: seq<A>, f: A -> Option<B>)
    returns (idx: seq<nat>)
    ensures Positions(s, f, FilterMap(s, f), idx)
  {
    if s == [] {
      return [];
    }
    var rest := FilterMapPositions(s[1..], f);
    if f(s[0]).Some? {
      assert FilterMap(s, f) == [f(s[0]).value] + FilterMap(s[1..], f);
      PositionsTake(s, f, FilterMap(s[1..], f), rest);
      idx := [0] + Shift(rest);
    } else {
      assert FilterMap(s, f) == FilterMap(s[1..], f);
      PositionsSkip(s, f, FilterMap(s[1..], f), rest);
      idx := Shift(rest);
    }
  }

  /** A first element that yields nothing moves every position right. */
  lemma PositionsSkip<A, B>(s: seq<A>, f: A -> Option<B>, r: seq<B>, rest: seq<nat>)
    requires s != [] && f(s[0]).None? && Positions(s[1..], f, r, rest)
    ensures Positions(s, f, r, Shift(rest))
  {
  }

  /** A first element that yields a value puts it first, at position 0. */
  lemma PositionsTake<A, B>(s: seq<A>, f: A -> Option<B>, r: seq<B>, rest: seq<nat>)
    requires s != [] && f(s[0]).Some? && Positions(s[1..], f, r, rest)
    ensures Positions(s, f, [f(s[0]).value] + r, [0] + Shift(rest))
  {
  }

  /** Every position moved one place to the right. */
  function Shift(idx: seq<nat>): (r: seq<nat>)
    ensures |r| == |idx| && forall k :: 0 <= k < |idx| ==> r[k] == idx[k] + 1
  {
    seq(|idx|, k requires 0 <= k < |idx| => idx[k] + 1)
  }

  /** A value is in the result exactly when some element yields it. */
  lemma {:induction false} FilterMapMember<A, B>(s: seq<A>, f: A -> Option<B>, b: B)
    ensures b in FilterMap(s, f) <==> exists i :: 0 <= i < |s| && f(s[i]) == Some(b)
  {
    var idx := FilterMapPositions(s, f);
    assert Positions(s, f, FilterMap(s, f), idx);
    if b in FilterMap(s, f) {
      var k :| 0 <= k < |FilterMap(s, f)| && FilterMap(s, f)[k] == b;
      assert f(s[idx[k]]) == Some(b);
    }
    if i :| 0 <= i < |s| && f(s[i]) == Some(b) {
      assert i in idx;
      var k :| 0 <= k < |idx| && idx[k] == i;
      assert FilterMap(s, f)[k] == b;
    }
  }
}
