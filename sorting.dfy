/**
 * Sorting by a total preorder, as pandas' `sort_values` and Python's
 * `list.sort(key=...)` do. The model is a stable insertion sort: the
 * result is ordered, is a permutation of the input, and keeps the input
 * order of elements that compare equal.
 */
module Sorting {

  /** `le` is a total preorder: any two elements compare, and it is transitive. */
  ghost predicate TotalPreorder<T(!new)>(le: (T, T) -> bool)
  {
    && (forall a, b :: le(a, b) || le(b, a))
    && (forall a, b, c :: le(a, b) && le(b, c) ==> le(a, c))
  }

  /** Every element is `le` every later one. */
  predicate Sorted<T>(s: seq<T>, le: (T, T) -> bool)
  {
    forall i, j :: 0 <= i < j < |s| ==> le(s[i], s[j])
  }

  /** Places `x` before the first element it is `le`. */
  function Insert<T>(x: T, s: seq<T>, le: (T, T) -> bool): (r: seq<T>)
    ensures |r| == |s| + 1
    ensures multiset(r) == multiset(s) + multiset{x}
  {
    if s == [] then [x]
    else if le(x, s[0]) then [x] + s
    else
      assert s == [s[0]] + s[1..];
      [s[0]] + Insert(x, s[1..], le)
  }

  /** Sorts `s` by `le`. */
  function Sort<T>(s: seq<T>, le: (T, T) -> bool): (r: seq<T>)
    ensures |r| == |s|
    ensures multiset(r) == multiset(s)
  {
    if s == [] then []
    else
      assert s == [s[0]] + s[1..];
      Insert(s[0], Sort(s[1..], le), le)
  }

  /** Sorting keeps exactly the elements of the input. */
  lemma SortSameElements<T>(s: seq<T>, le: (T, T) -> bool)
    ensures forall x :: x in Sort(s, le) <==> x in s
  {
    var r := Sort(s, le);
    assert forall x :: x in r <==> x in multiset(r);
    assert forall x :: x in s <==> x in multiset(s);
  }

  lemma {:induction false} InsertSorted<T(!new)>(x: T, s: seq<T>, le: (T, T) -> bool)
    requires TotalPreorder(le)
    requires Sorted(s, le)
    ensures Sorted(Insert(x, s, le), le)
  {
    if s != [] && !le(x, s[0]) {
      InsertSorted(x, s[1..], le);
      var r := Insert(x, s, le);
      var t := Insert(x, s[1..], le);
      assert r == [s[0]] + t;
      forall k | 0 <= k < |t|
        ensures le(s[0], t[k])
      {
        assert t[k] in multiset(t);
        assert t[k] == x || t[k] in multiset(s[1..]);
        if t[k] != x {
          var j :| 0 <= j < |s[1..]| && s[1..][j] == t[k];
          assert s[j + 1] == t[k];
        }
      }
    }
  }

  /** The sorted sequence is ordered. */
  lemma {:induction false} SortSorted<T(!new)>(s: seq<T>, le: (T, T) -> bool)
    requires TotalPreorder(le)
    ensures Sorted(Sort(s, le), le)
  {
    if s != [] {
      SortSorted(s[1..], le);
      InsertSorted(s[0], Sort(s[1..], le), le);
    }
  }

  /** `x` and `y` compare equal. */
  predicate Equiv<T>(x: T, y: T, le: (T, T) -> bool)
  {
    le(x, y) && le(y, x)
  }

  /** The elements of `s` that compare equal to `v`, in their order in `s`. */
  function Ties<T>(s: seq<T>, v: T, le: (T, T) -> bool): (r: seq<T>)
    ensures |r| <= |s|
  {
    if s == [] then []
    else (if Equiv(s[0], v, le) then [s[0]] else []) + Ties(s[1..], v, le)
  }

  lemma TiesCons<T>(a: T, t: seq<T>, v: T, le: (T, T) -> bool)
    ensures Ties([a] + t, v, le) == (if Equiv(a, v, le) then [a] else []) + Ties(t, v, le)
  {
    assert ([a] + t)[1..] == t;
  }

  /** Two elements in strict order cannot both compare equal to `v`. */
  lemma NotBothTies<T(!new)>(x: T, y: T, v: T, le: (T, T) -> bool)
    requires TotalPreorder(le)
    requires !le(x, y)
    ensures !(Equiv(x, v, le) && Equiv(y, v, le))
  {
  }

  /** The one step of `TiesInsert` that passes the head of `s`. */
  lemma TiesInsertStep<T>(x: T, s: seq<T>, v: T, le: (T, T) -> bool)
    requires s != [] && !le(x, s[0])
    requires !(Equiv(x, v, le) && Equiv(s[0], v, le))
    requires Ties(Insert(x, s[1..], le), v, le)
          == (if Equiv(x, v, le) then [x] else []) + Ties(s[1..], v, le)
    ensures Ties(Insert(x, s, le), v, le)
         == (if Equiv(x, v, le) then [x] else []) + Ties(s, v, le)
  {
    var t := Insert(x, s[1..], le);
    var ex: seq<T> := if Equiv(x, v, le) then [x] else [];
    var e0: seq<T> := if Equiv(s[0], v, le) then [s[0]] else [];
    var rest := Ties(s[1..], v, le);
    assert Insert(x, s, le) == [s[0]] + t;
    TiesCons(s[0], t, v, le);
    assert s == [s[0]] + s[1..];
    TiesCons(s[0], s[1..], v, le);
    assert Ties(Insert(x, s, le), v, le) == e0 + (ex + rest);
    assert Ties(s, v, le) == e0 + rest;
    if ex == [] {
      assert ex + rest == rest;
      assert ex + (e0 + rest) == e0 + rest;
    } else {
      assert e0 == [];
      assert e0 + rest == rest;
      assert e0 + (ex + rest) == ex + rest;
    }
  }

  lemma {:induction false} TiesInsert<T(!new)>(x: T, s: seq<T>, v: T, le: (T, T) -> bool)
    requires TotalPreorder(le)
    requires Sorted(s, le)
    ensures Ties(Insert(x, s, le), v, le)
         == (if Equiv(x, v, le) then [x] else []) + Ties(s, v, le)
  {
    if s == [] {
      TiesCons(x, [], v, le);
    } else if le(x, s[0]) {
      TiesCons(x, s, v, le);
    } else {
      TiesInsert(x, s[1..], v, le);
      NotBothTies(x, s[0], v, le);
      TiesInsertStep(x, s, v, le);
    }
  }

  /**
   * Stability: for every `v`, the elements that compare equal to `v` keep
   * their input order.
   */
  lemma {:induction false} SortStable<T(!new)>(s: seq<T>, v: T, le: (T, T) -> bool)
    requires TotalPreorder(le)
    ensures Ties(Sort(s, le), v, le) == Ties(s, v, le)
  {
    if s != [] {
      SortStable(s[1..], v, le);
      SortSorted(s[1..], le);
      TiesInsert(s[0], Sort(s[1..], le), v, le);
    }
  }
}
