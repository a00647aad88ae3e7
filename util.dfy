/**
 * The generic collection helpers of Util.java.
 *
 * Java arrays, lists and collections are sequences here, in their iteration
 * order. A null collection is represented by the empty sequence wherever the
 * source treats the two alike (every helper that checks `collection == null`
 * also checks `isEmpty()` and returns the same result for both).
 */
module Util {
  import opened Wrappers

  // ---------------------------------------------------------------------------
  // concatArray / concatAllArray
  // ---------------------------------------------------------------------------

  /** concatArray: the elements of the first array followed by those of the second. */
  function ConcatArray<T>(first: seq<T>, second: seq<T>): (r: seq<T>)
    ensures |r| == |first| + |second|
    ensures r[..|first|] == first && r[|first|..] == second
  {
    first + second
  }

  /** The in-order concatenation of all the given arrays. */
  function Flatten<T>(arrays: seq<seq<T>>): seq<T>
  {
    if arrays == [] then [] else Flatten(arrays[..|arrays| - 1]) + arrays[|arrays| - 1]
  }

  /** Flattening distributes over concatenation of the argument lists. */
  lemma {:induction false} FlattenAppend<T>(xs: seq<seq<T>>, ys: seq<seq<T>>)
    ensures Flatten(xs + ys) == Flatten(xs) + Flatten(ys)
    decreases |ys|
  {
    if ys == [] {
      assert xs + ys == xs;
    } else {
      var n := |ys| - 1;
      assert (xs + ys)[..|xs + ys| - 1] == xs + ys[..n];
      FlattenAppend(xs, ys[..n]);
    }
  }

  /** Three arrays (the shape every command builder uses) flatten to their plain concatenation. */
  lemma FlattenThree<T>(a: seq<T>, b: seq<T>, c: seq<T>)
    ensures Flatten([a, b, c]) == a + b + c
  {
    assert [a, b, c][..2] == [a, b];
    assert [a, b][..1] == [a];
    assert [a][..0] == [];
    assert Flatten([a]) == a;
    assert Flatten([a, b]) == a + b;
  }

  /**
   * concatAllArray: null when no array is given, otherwise the in-order
   * concatenation of all of them.
   */
  method ConcatAllArray<T>(arrays: seq<seq<T>>) returns (result: Option<seq<T>>)
    ensures arrays == [] <==> result == None
    ensures result.Some? ==> result.value == Flatten(arrays)
  {
    result := None;
    for i := 0 to |arrays|
      invariant result.None? <==> i == 0
      invariant result.Some? ==> result.value == Flatten(arrays[..i])
    {
      if result.None? {
        result := Some(arrays[i]);
      } else {
        result := Some(ConcatArray(result.value, arrays[i]));
      }
      assert arrays[..i + 1][..i] == arrays[..i];
    }
    assert arrays[..|arrays|] == arrays;
  }

  // ---------------------------------------------------------------------------
  // Order-preserving selection, the specification of the partition helpers
  // ---------------------------------------------------------------------------

  /** The elements of xs that satisfy p, in their original order. */
  function Filter<T>(xs: seq<T>, p: T -> bool): (r: seq<T>)
    ensures |r| <= |xs|
    ensures forall x :: x in r ==> x in xs && p(x)
  {
    if xs == [] then []
    else Filter(xs[..|xs| - 1], p) + (if p(xs[|xs| - 1]) then [xs[|xs| - 1]] else [])
  }

  /** An element is selected exactly when it occurs in the input and satisfies p. */
  lemma {:induction false} FilterMembership<T>(xs: seq<T>, p: T -> bool, x: T)
    ensures x in Filter(xs, p) <==> x in xs && p(x)
  {
    if xs != [] {
      var n := |xs| - 1;
      assert xs == xs[..n] + [xs[n]];
      FilterMembership(xs[..n], p, x);
    }
  }

  /**
   * Selecting by p and by its negation splits the input: the two selections
   * hold every element exactly as often as the input does.
   */
  lemma {:induction false} FilterSplit<T>(xs: seq<T>, p: T -> bool, q: T -> bool)
    requires forall x :: q(x) == !p(x)
    ensures |Filter(xs, p)| + |Filter(xs, q)| == |xs|
    ensures multiset(Filter(xs, p)) + multiset(Filter(xs, q)) == multiset(xs)
  {
    if xs != [] {
      var n := |xs| - 1;
      assert xs == xs[..n] + [xs[n]];
      FilterSplit(xs[..n], p, q);
    }
  }

  // ---------------------------------------------------------------------------
  // getPairWithCollectionsByFlag (both overloads)
  // ---------------------------------------------------------------------------

  /**
   * getPairWithCollectionsByFlag(collection, getFlag, flag): left receives the
   * elements whose key equals flag, right all the others, both in input order.
   */
  method PairWithCollectionsByFlag<T, V(==)>(collection: seq<T>, getFlag: T -> V, flag: V)
    returns (left: seq<T>, right: seq<T>)
    ensures left == Filter(collection, x => getFlag(x) == flag)
    ensures right == Filter(collection, x => getFlag(x) != flag)
  {
    left, right := [], [];
    if collection == [] {
      return;
    }
    for i := 0 to |collection|
      invariant left == Filter(collection[..i], x => getFlag(x) == flag)
      invariant right == Filter(collection[..i], x => getFlag(x) != flag)
    {
      var t := collection[i];
      if getFlag(t) == flag {
        left := left + [t];
      } else {
        right := right + [t];
      }
      assert collection[..i + 1][..i] == collection[..i];
    }
    assert collection[..|collection|] == collection;
  }

  /** The flag partition loses and invents nothing: the two lists together are the input. */
  lemma PairByFlagIsPartition<T, V>(collection: seq<T>, getFlag: T -> V, flag: V)
    ensures |Filter(collection, x => getFlag(x) == flag)| + |Filter(collection, x => getFlag(x) != flag)| == |collection|
    ensures multiset(Filter(collection, x => getFlag(x) == flag)) + multiset(Filter(collection, x => getFlag(x) != flag))
            == multiset(collection)
  {
    FilterSplit(collection, x => getFlag(x) == flag, x => getFlag(x) != flag);
  }

  /**
   * getPairWithCollectionsByFlag(collection, getFlag, flag, otherFlag): left
   * receives the elements whose key equals flag, right those whose key equals
   * otherFlag; the two tests are independent.
   */
  method PairWithCollectionsByFlags<T, V(==)>(collection: seq<T>, getFlag: T -> V, flag: V, otherFlag: V)
    returns (left: seq<T>, right: seq<T>)
    ensures left == Filter(collection, x => getFlag(x) == flag)
    ensures right == Filter(collection, x => getFlag(x) == otherFlag)
  {
    left, right := [], [];
    if collection == [] {
      return;
    }
    for i := 0 to |collection|
      invariant left == Filter(collection[..i], x => getFlag(x) == flag)
      invariant right == Filter(collection[..i], x => getFlag(x) == otherFlag)
    {
      var t := collection[i];
      if getFlag(t) == flag {
        left := left + [t];
      }
      if getFlag(t) == otherFlag {
        right := right + [t];
      }
      assert collection[..i + 1][..i] == collection[..i];
    }
    assert collection[..|collection|] == collection;
  }

  /**
   * In the two-flag overload an element whose key matches neither flag is in
   * neither list, and one whose key matches both (flag == otherFlag) is in both.
   */
  lemma PairByFlagsMembership<T, V>(collection: seq<T>, getFlag: T -> V, flag: V, otherFlag: V, x: T)
    requires x in collection
    ensures getFlag(x) != flag && getFlag(x) != otherFlag ==>
              x !in Filter(collection, y => getFlag(y) == flag) && x !in Filter(collection, y => getFlag(y) == otherFlag)
    ensures getFlag(x) == flag && getFlag(x) == otherFlag ==>
              x in Filter(collection, y => getFlag(y) == flag) && x in Filter(collection, y => getFlag(y) == otherFlag)
  {
    FilterMembership(collection, y => getFlag(y) == flag, x);
    FilterMembership(collection, y => getFlag(y) == otherFlag, x);
  }

  // ---------------------------------------------------------------------------
  // getTripleWithCollectionsByFlag
  // ---------------------------------------------------------------------------

  /** Which of the three result lists an element goes to. */
  datatype Lanes = Lanes(left: bool, middle: bool, right: bool)

  /**
   * The routing of one element with key `key` for 1 to 3 flags: the first flag
   * always selects the left list; with three flags unmatched elements are
   * dropped, with two they go right, with one they go both middle and right.
   */
  function TripleLanes<V(==)>(key: V, flags: seq<V>): (l: Lanes)
    requires 1 <= |flags| <= 3
    ensures l.left <==> key == flags[0]
    ensures |flags| == 3 ==>
              && (l.middle <==> key != flags[0] && key == flags[1])
              && (l.right <==> key != flags[0] && key != flags[1] && key == flags[2])
    ensures |flags| == 2 ==>
              && (l.middle <==> key != flags[0] && key == flags[1])
              && (l.right <==> key != flags[0] && key != flags[1])
    ensures |flags| == 1 ==> l.middle == l.right == !l.left
  {
    if |flags| == 3 then
      if key == flags[0] then Lanes(true, false, false)
      else if key == flags[1] then Lanes(false, true, false)
      else if key == flags[2] then Lanes(false, false, true)
      else Lanes(false, false, false)
    else if |flags| == 2 then
      if key == flags[0] then Lanes(true, false, false)
      else if key == flags[1] then Lanes(false, true, false)
      else Lanes(false, false, true)
    else
      if key == flags[0] then Lanes(true, false, false)
      else Lanes(false, true, true)
  }

  /**
   * getTripleWithCollectionsByFlag: three empty lists unless 1 to 3 flags are
   * given; otherwise each list holds, in input order, the elements routed to it.
   */
  method TripleWithCollectionsByFlag<T, V(==)>(collection: seq<T>, getFlag: T -> V, flags: seq<V>)
    returns (left: seq<T>, middle: seq<T>, right: seq<T>)
    ensures (|flags| == 0 || |flags| > 3) ==> left == middle == right == []
    ensures 1 <= |flags| <= 3 ==>
              && left == Filter(collection, x => TripleLanes(getFlag(x), flags).left)
              && middle == Filter(collection, x => TripleLanes(getFlag(x), flags).middle)
              && right == Filter(collection, x => TripleLanes(getFlag(x), flags).right)
  {
    left, middle, right := [], [], [];
    if collection == [] || |flags| == 0 || |flags| > 3 {
      return;
    }
    for i := 0 to |collection|
      invariant left == Filter(collection[..i], x => TripleLanes(getFlag(x), flags).left)
      invariant middle == Filter(collection[..i], x => TripleLanes(getFlag(x), flags).middle)
      invariant right == Filter(collection[..i], x => TripleLanes(getFlag(x), flags).right)
    {
      var t := collection[i];
      if |flags| == 3 {
        if getFlag(t) == flags[0] {
          left := left + [t];
        } else if getFlag(t) == flags[1] {
          middle := middle + [t];
        } else if getFlag(t) == flags[2] {
          right := right + [t];
        }
      } else if |flags| == 2 {
        if getFlag(t) == flags[0] {
          left := left + [t];
        } else if getFlag(t) == flags[1] {
          middle := middle + [t];
        } else {
          right := right + [t];
        }
      } else {
        if getFlag(t) == flags[0] {
          left := left + [t];
        } else {
          middle := middle + [t];
          right := right + [t];
        }
      }
      assert collection[..i + 1][..i] == collection[..i];
    }
    assert collection[..|collection|] == collection;
  }

  /** Selections by two pointwise-equal predicates are equal. */
  lemma {:induction false} FilterExt<T>(xs: seq<T>, p: T -> bool, q: T -> bool)
    requires forall x :: p(x) == q(x)
    ensures Filter(xs, p) == Filter(xs, q)
  {
    if xs != [] {
      FilterExt(xs[..|xs| - 1], p, q);
    }
  }

  /** The last element of xs adds itself to the selection exactly when it satisfies p. */
  lemma FilterLastMultiset<T>(xs: seq<T>, p: T -> bool)
    requires xs != []
    ensures multiset(Filter(xs, p))
            == multiset(Filter(xs[..|xs| - 1], p)) + (if p(xs[|xs| - 1]) then multiset{xs[|xs| - 1]} else multiset{})
  {
  }

  /** Three selections by pairwise exclusive predicates hold together at most the input. */
  lemma {:induction false} FilterThreeWay<T>(xs: seq<T>, p: T -> bool, q: T -> bool, r: T -> bool)
    requires forall x :: !(p(x) && q(x)) && !(p(x) && r(x)) && !(q(x) && r(x))
    ensures multiset(Filter(xs, p)) + multiset(Filter(xs, q)) + multiset(Filter(xs, r)) <= multiset(xs)
  {
    if xs != [] {
      var init, y := xs[..|xs| - 1], xs[|xs| - 1];
      FilterThreeWay(init, p, q, r);
      assert multiset(xs) == multiset(init) + multiset{y} by {
        assert xs == init + [y];
      }
      FilterLastMultiset(xs, p);
      FilterLastMultiset(xs, q);
      FilterLastMultiset(xs, r);
    }
  }

  /** One more element, selected by exactly one of three predicates, keeps three parts summing to the whole. */
  lemma CoverStep<T>(a: multiset<T>, b: multiset<T>, c: multiset<T>, m: multiset<T>, y: T, inA: bool, inB: bool, inC: bool)
    requires a + b + c == m
    requires (inA || inB || inC) && !(inA && inB) && !(inA && inC) && !(inB && inC)
    ensures (a + if inA then multiset{y} else multiset{}) + (b + if inB then multiset{y} else multiset{})
            + (c + if inC then multiset{y} else multiset{}) == m + multiset{y}
  {
  }

  /**
   * When every element also satisfies one of the three predicates, the three
   * selections together are exactly the input.
   */
  lemma {:induction false} FilterThreeWayCover<T>(xs: seq<T>, p: T -> bool, q: T -> bool, r: T -> bool)
    requires forall x :: !(p(x) && q(x)) && !(p(x) && r(x)) && !(q(x) && r(x))
    requires forall x :: p(x) || q(x) || r(x)
    ensures multiset(Filter(xs, p)) + multiset(Filter(xs, q)) + multiset(Filter(xs, r)) == multiset(xs)
  {
    if xs != [] {
      var init, y := xs[..|xs| - 1], xs[|xs| - 1];
      FilterThreeWayCover(init, p, q, r);
      assert multiset(xs) == multiset(init) + multiset{y} by {
        assert xs == init + [y];
      }
      FilterLastMultiset(xs, p);
      FilterLastMultiset(xs, q);
      FilterLastMultiset(xs, r);
      CoverStep(multiset(Filter(init, p)), multiset(Filter(init, q)), multiset(Filter(init, r)), multiset(init), y, p(y), q(y), r(y));
    }
  }

  /** The same three selections counted by length. */
  lemma {:induction false} FilterThreeWayLength<T>(xs: seq<T>, p: T -> bool, q: T -> bool, r: T -> bool)
    requires forall x :: !(p(x) && q(x)) && !(p(x) && r(x)) && !(q(x) && r(x))
    ensures |Filter(xs, p)| + |Filter(xs, q)| + |Filter(xs, r)| <= |xs|
    ensures (forall x :: p(x) || q(x) || r(x)) ==> |Filter(xs, p)| + |Filter(xs, q)| + |Filter(xs, r)| == |xs|
  {
    if xs != [] {
      FilterThreeWayLength(xs[..|xs| - 1], p, q, r);
    }
  }

  /**
   * Sizes of the triple partition: with two flags every element lands in
   * exactly one list; with three at most one (unmatched ones are dropped);
   * with one flag the middle and right lists are both the list of the
   * non-matching elements.
   */
  lemma TripleSizes<T, V>(collection: seq<T>, getFlag: T -> V, flags: seq<V>)
    requires 1 <= |flags| <= 3
    ensures var l := Filter(collection, x => TripleLanes(getFlag(x), flags).left);
            var m := Filter(collection, x => TripleLanes(getFlag(x), flags).middle);
            var r := Filter(collection, x => TripleLanes(getFlag(x), flags).right);
            && (|flags| == 2 ==> |l| + |m| + |r| == |collection| && multiset(l) + multiset(m) + multiset(r) == multiset(collection))
            && (|flags| == 3 ==> |l| + |m| + |r| <= |collection| && multiset(l) + multiset(m) + multiset(r) <= multiset(collection))
            && (|flags| == 1 ==> m == r == Filter(collection, x => getFlag(x) != flags[0]))
  {
    var pl := x => TripleLanes(getFlag(x), flags).left;
    var pm := x => TripleLanes(getFlag(x), flags).middle;
    var pr := x => TripleLanes(getFlag(x), flags).right;
    if |flags| == 1 {
      FilterExt(collection, pm, x => getFlag(x) != flags[0]);
      FilterExt(collection, pr, x => getFlag(x) != flags[0]);
    } else {
      FilterThreeWay(collection, pl, pm, pr);
      FilterThreeWayLength(collection, pl, pm, pr);
      if |flags| == 2 {
        FilterThreeWayCover(collection, pl, pm, pr);
      }
    }
  }

  // ---------------------------------------------------------------------------
  // getPairListByFunctions / getListPairByFunctions
  // ---------------------------------------------------------------------------

  /** The image of xs under f, position by position. */
  function MapSeq<T, U>(xs: seq<T>, f: T -> U): (r: seq<U>)
    ensures |r| == |xs|
    ensures forall i :: 0 <= i < |xs| ==> r[i] == f(xs[i])
  {
    seq(|xs|, i requires 0 <= i < |xs| => f(xs[i]))
  }

  /**
   * getPairListByFunctions: two lists as long as the input; position i holds
   * getLeft and getRight of the i-th element.
   */
  method PairListByFunctions<T, V, Y>(collection: seq<T>, getLeft: T -> V, getRight: T -> Y)
    returns (lefts: seq<V>, rights: seq<Y>)
    ensures |lefts| == |rights| == |collection|
    ensures forall i :: 0 <= i < |collection| ==> lefts[i] == getLeft(collection[i]) && rights[i] == getRight(collection[i])
    ensures lefts == MapSeq(collection, getLeft) && rights == MapSeq(collection, getRight)
  {
    lefts, rights := [], [];
    if collection == [] {
      return;
    }
    for i := 0 to |collection|
      invariant |lefts| == |rights| == i
      invariant forall k :: 0 <= k < i ==> lefts[k] == getLeft(collection[k]) && rights[k] == getRight(collection[k])
    {
      var t := collection[i];
      lefts := lefts + [getLeft(t)];
      rights := rights + [getRight(t)];
    }
  }

  /** The first components of a list of pairs. */
  function Firsts<A, B>(ps: seq<(A, B)>): (r: seq<A>)
    ensures |r| == |ps|
  {
    seq(|ps|, i requires 0 <= i < |ps| => ps[i].0)
  }

  /** The second components of a list of pairs. */
  function Seconds<A, B>(ps: seq<(A, B)>): (r: seq<B>)
    ensures |r| == |ps|
  {
    seq(|ps|, i requires 0 <= i < |ps| => ps[i].1)
  }

  /**
   * getListPairByTwoList: the index-wise pairs of two lists when both are
   * non-empty and of equal size, the empty list otherwise. Unzipping the
   * result gives the two inputs back.
   */
  function ListPairByTwoList<A, B>(ts: seq<A>, vs: seq<B>): (r: seq<(A, B)>)
    ensures r != [] <==> 0 < |ts| == |vs|
    ensures r != [] ==> Firsts(r) == ts && Seconds(r) == vs
  {
    if ts == [] || vs == [] || |ts| != |vs| then []
    else seq(|ts|, i requires 0 <= i < |ts| => (ts[i], vs[i]))
  }

  /**
   * getListPairByFunctions: the list of (getLeft(c), getRight(c)) pairs, which
   * is the zip of the two lists getPairListByFunctions returns.
   */
  function ListPairByFunctions<T, V, Y>(collection: seq<T>, getLeft: T -> V, getRight: T -> Y): (r: seq<(V, Y)>)
    ensures |r| == |collection|
    ensures r == ListPairByTwoList(MapSeq(collection, getLeft), MapSeq(collection, getRight))
  {
    if collection == [] then []
    else seq(|collection|, i requires 0 <= i < |collection| => (getLeft(collection[i]), getRight(collection[i])))
  }

  /**
   * getListPairByTwoCollection: the same pairs as getListPairByTwoList, built
   * by advancing one iterator over each collection in step.
   */
  method ListPairByTwoCollection<A, B>(ts: seq<A>, vs: seq<B>) returns (r: seq<(A, B)>)
    ensures r == ListPairByTwoList(ts, vs)
  {
    if ts == [] || vs == [] || |ts| != |vs| {
      return [];
    }
    r := [];
    var i := 0;
    while i < |ts|
      invariant 0 <= i <= |ts|
      invariant |r| == i
      invariant forall k :: 0 <= k < i ==> r[k] == (ts[k], vs[k])
    {
      r := r + [(ts[i], vs[i])];
      i := i + 1;
    }
  }

  // ---------------------------------------------------------------------------
  // getSingleDataByCollections
  // ---------------------------------------------------------------------------

  /**
   * One argument pair of getSingleDataByCollections: a collection (null is
   * None) whose elements may be null, and the function that maps a non-null
   * element to a value that may itself be null.
   */
  datatype Projection<!E, T> = Projection(collection: Option<seq<Option<E>>>, project: E -> Option<T>)

  /** The non-null values of the projection over the non-null elements of one collection. */
  function ProjectedValues<E, T>(items: seq<Option<E>>, project: E -> Option<T>): set<T>
  {
    set i | 0 <= i < |items| && items[i].Some? && project(items[i].value).Some? :: project(items[i].value).value
  }

  /** Whether no pair carries a null collection. */
  predicate AllPresent<E, T>(pairs: seq<Projection<E, T>>)
  {
    forall i :: 0 <= i < |pairs| ==> pairs[i].collection.Some?
  }

  /** The set getSingleDataByCollections fills: the union of the projected values of every pair. */
  function Collected<E, T>(pairs: seq<Projection<E, T>>): set<T>
    requires AllPresent(pairs)
  {
    if pairs == [] then {}
    else
      var last := pairs[|pairs| - 1];
      Collected(pairs[..|pairs| - 1]) + ProjectedValues(last.collection.value, last.project)
  }

  /**
   * getSingleDataByCollections: the one distinct value when the collected set
   * has exactly one element, and null when there are no pairs, when the set
   * has zero or several elements, or when a collection is null (the exception
   * it raises is caught and turned into null).
   */
  method SingleDataByCollections<E, T(==)>(pairs: seq<Projection<E, T>>) returns (r: Option<T>)
    ensures !AllPresent(pairs) ==> r == None
    ensures AllPresent(pairs) ==> (r.Some? <==> |Collected(pairs)| == 1)
    ensures AllPresent(pairs) && r.Some? ==> Collected(pairs) == {r.value}
  {
    if pairs == [] {
      return None;
    }
    var found: set<T> := {};
    for i := 0 to |pairs|
      invariant AllPresent(pairs[..i])
      invariant found == Collected(pairs[..i])
    {
      var pair := pairs[i];
      if pair.collection.None? {
        assert !AllPresent(pairs);
        return None;
      }
      found := found + ProjectedValues(pair.collection.value, pair.project);
      assert pairs[..i + 1][..i] == pairs[..i];
    }
    assert pairs[..|pairs|] == pairs;
    if |found| == 1 {
      var v :| v in found;
      assert |found - {v}| == 0;
      r := Some(v);
    } else {
      r := None;
    }
  }

  // ---------------------------------------------------------------------------
  // allowResolveHeader
  // ---------------------------------------------------------------------------

  /** The lower-cased Content-Length header name. */
  const ContentLength: string := "content-length"

  /** A mutable request-header map: header name to its values. */
  class HeaderMap {
    var entries: map<string, seq<string>>

    constructor (entries: map<string, seq<string>>)
      ensures this.entries == entries
    {
      this.entries := entries;
    }
  }

  /**
   * allowResolveHeader: removes the "content-length" entry from the caller's
   * map in place, leaves every other entry as it was, and returns that same map.
   */
  method AllowResolveHeader(requestHeader: HeaderMap) returns (r: HeaderMap)
    modifies requestHeader
    ensures r == requestHeader
    ensures ContentLength !in requestHeader.entries
    ensures requestHeader.entries.Keys == old(requestHeader.entries).Keys - {ContentLength}
    ensures forall k :: k in requestHeader.entries ==> requestHeader.entries[k] == old(requestHeader.entries)[k]
  {
    if ContentLength in requestHeader.entries.Keys {
      requestHeader.entries := requestHeader.entries - {ContentLength};
    }
    r := requestHeader;
  }
}
