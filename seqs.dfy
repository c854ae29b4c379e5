/**
 * The list operations the views and the pipeline share: `Array.prototype.find`
 * (the first element that satisfies a test), order-preserving filtering
 * (`Array.prototype.filter`, a pandas boolean mask, a list comprehension with
 * a condition) and the distinct values of a column in order of first
 * appearance (`pandas.unique`).
 */
module Seqs {
  import opened Wrappers

  /** No two positions hold the same value. */
  predicate Unique<T(==)>(s: seq<T>)
  {
    forall i, j :: 0 <= i < j < |s| ==> s[i] != s[j]
  }

  /** The position of the first element of `s` that satisfies `p`. */
  function FindIndex<T>(s: seq<T>, p: T -> bool): (r: Option<nat>)
    ensures r.Some? ==> r.value < |s| && p(s[r.value]) && forall j :: 0 <= j < r.value ==> !p(s[j])
    ensures r.None? ==> forall j :: 0 <= j < |s| ==> !p(s[j])
  {
    if s == [] then None
    else if p(s[0]) then Some(0)
    else match FindIndex(s[1..], p)
      case None => None
      case Some(i) => Some(i + 1)
  }

  /** `s.find(p)`: the first element that satisfies `p`, or none. */
  function Find<T>(s: seq<T>, p: T -> bool): (r: Option<T>)
    ensures r.None? <==> forall x :: x in s ==> !p(x)
    ensures r.Some? ==> exists i :: 0 <= i < |s| && s[i] == r.value && p(s[i]) && forall j :: 0 <= j < i ==> !p(s[j])
  {
    match FindIndex(s, p)
    case None => None
    case Some(i) => Some(s[i])
  }

  /** The elements of `s` that satisfy `p`, in their order in `s`. */
  function Filter<T>(s: seq<T>, p: T -> bool): (r: seq<T>)
    ensures |r| <= |s|
    ensures forall i :: 0 <= i < |r| ==> r[i] in s && p(r[i])
    ensures forall i :: 0 <= i < |s| && p(s[i]) ==> s[i] in r
  {
    if s == [] then []
    else (if p(s[0]) then [s[0]] else []) + Filter(s[1..], p)
  }

  /** Filtering distributes over concatenation, so it keeps the input order. */
  lemma {:induction false} FilterAppend<T>(a: seq<T>, b: seq<T>, p: T -> bool)
    ensures Filter(a + b, p) == Filter(a, p) + Filter(b, p)
  {
    if a == [] {
      assert a + b == b;
    } else {
      assert (a + b)[1..] == a[1..] + b;
      FilterAppend(a[1..], b, p);
    }
  }

  /** The prefix of full length is the sequence. */
  lemma TakeAll<T>(s: seq<T>)
    ensures s[..|s|] == s
  {
  }

  /** A prefix one longer is the prefix and the next element. */
  lemma TakeNext<T>(s: seq<T>, k: nat)
    requires k < |s|
    ensures s[..k + 1] == s[..k] + [s[k]]
  {
  }

  /** A test no element passes keeps nothing. */
  lemma {:induction false} FilterNone<T>(s: seq<T>, p: T -> bool)
    requires forall j :: 0 <= j < |s| ==> !p(s[j])
    ensures Filter(s, p) == []
  {
    if s != [] {
      FilterNone(s[1..], p);
    }
  }

  /** A test every element passes keeps the whole sequence. */
  lemma {:induction false} FilterAll<T>(s: seq<T>, p: T -> bool)
    requires forall j :: 0 <= j < |s| ==> p(s[j])
    ensures Filter(s, p) == s
  {
    if s != [] {
      FilterAll(s[1..], p);
    }
  }

  /** The distinct elements of `s` in order of first appearance (`pandas.unique`). */
  function Distinct<T(==)>(s: seq<T>): (r: seq<T>)
    ensures Unique(r)
    ensures forall i :: 0 <= i < |s| ==> s[i] in r
    ensures forall i :: 0 <= i < |r| ==> r[i] in s
  {
    if s == [] then []
    else
      var d := Distinct(s[..|s| - 1]);
      if s[|s| - 1] in d then d else d + [s[|s| - 1]]
  }

  /**
   * `Distinct` lists the elements in order of first appearance: an element
   * listed earlier occurs in `s` before every occurrence of one listed later.
   */
  lemma {:induction false} DistinctFirstAppearance<T>(s: seq<T>, i: int, j: int)
    requires 0 <= i < j < |Distinct(s)|
    ensures (exists a :: 0 <= a < |s| && s[a] == Distinct(s)[i] &&
               (forall b :: 0 <= b < |s| && s[b] == Distinct(s)[j] ==> a < b))
  {
    var init := s[..|s| - 1];
    var x := s[|s| - 1];
    var d := Distinct(init);
    assert forall k :: 0 <= k < |init| ==> init[k] == s[k];
    if j < |d| {
      DistinctFirstAppearance(init, i, j);
      var a :| 0 <= a < |init| && init[a] == d[i] &&
        (forall b :: 0 <= b < |init| && init[b] == d[j] ==> a < b);
      assert s[a] == Distinct(s)[i];
      forall b | 0 <= b < |s| && s[b] == Distinct(s)[j]
        ensures a < b
      {
        if b < |init| {
          assert init[b] == d[j];
        }
      }
    } else {
      assert x !in d && Distinct(s) == d + [x];
      var a :| 0 <= a < |init| && init[a] == d[i];
      assert s[a] == Distinct(s)[i];
      forall b | 0 <= b < |s| && s[b] == Distinct(s)[j]
        ensures a < b
      {
        if b < |init| {
          assert false;
        }
      }
    }
  }

  /** A sequence without repetitions has as many elements as its set. */
  lemma {:induction false} UniqueCard<T>(s: seq<T>)
    requires Unique(s)
    ensures |(set x | x in s)| == |s|
  {
    if s != [] {
      var init := s[..|s| - 1];
      assert forall i :: 0 <= i < |init| ==> init[i] == s[i];
      assert Unique(init);
      UniqueCard(init);
      assert s == init + [s[|s| - 1]];
      assert (set x | x in s) == (set x | x in init) + {s[|s| - 1]};
    }
  }

  /** Two sequences without repetitions that hold the same values have the same length. */
  lemma UniqueSameLength<T>(a: seq<T>, b: seq<T>)
    requires Unique(a) && Unique(b)
    requires forall x :: x in a <==> x in b
    ensures |a| == |b|
  {
    UniqueCard(a);
    UniqueCard(b);
    assert (set x | x in a) == (set x | x in b);
  }
}
