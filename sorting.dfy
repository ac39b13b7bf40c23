/**
  The two uses the script makes of Python's built-in `sorted`: the ascending
  list of a dict's integer keys, and a stable sort of a list by a key.
*/
module Sorting {

  predicate StrictlyIncreasing(s: seq<int>) {
    forall i, j :: 0 <= i < j < |s| ==> s[i] < s[j]
  }

  predicate IsLeast(m: int, s: set<int>) {
    m in s && forall y :: y in s ==> m <= y
  }

  predicate IsGreatest(m: int, s: set<int>) {
    m in s && forall y :: y in s ==> y <= m
  }

  /** Set membership under a name the solver can use as a trigger for `:|` choices. */
  predicate Member(x: int, s: set<int>) {
    x in s
  }

  lemma HasMember(s: set<int>)
    requires s != {}
    ensures exists x :: Member(x, s)
  {
    assert exists x :: x in s by {
      if forall x :: x !in s {
        assert false;
      }
    }
    assert forall x :: x in s ==> Member(x, s);
  }

  /** Some element of a non-empty set, as a `for ... in` over a dict visits its keys in some order. */
  method Pick(s: set<int>) returns (x: int)
    requires s != {}
    ensures x in s
  {
    HasMember(s);
    x :| Member(x, s);
  }

  lemma {:induction false} LeastExists(s: set<int>)
    requires s != {}
    ensures exists m :: IsLeast(m, s)
    decreases |s|
  {
    HasMember(s);
    var x :| Member(x, s);
    if s == {x} {
      assert IsLeast(x, s);
    } else {
      LeastExists(s - {x});
      var m :| IsLeast(m, s - {x});
      forall y | y in s ensures (if x < m then x else m) <= y {
        if y != x {
          assert y in s - {x};
        }
      }
      assert IsLeast(if x < m then x else m, s);
    }
  }

  /** The smallest element of a finite non-empty set. */
  function Least(s: set<int>): (m: int)
    requires s != {}
    ensures IsLeast(m, s)
  {
    LeastExists(s);
    var m :| IsLeast(m, s); m
  }

  /** `sorted(d.keys())` for a dict with integer keys. */
  function SortedKeys(s: set<int>): (r: seq<int>)
    ensures StrictlyIncreasing(r)
    ensures forall x :: x in r <==> x in s
    ensures |r| == |s|
    decreases |s|
  {
    if s == {} then []
    else
      var m := Least(s);
      var rest := SortedKeys(s - {m});
      assert forall x :: x in rest ==> m < x;
      [m] + rest
  }

  /** `le` is a total preorder: every two elements compare, and comparison chains. */
  ghost predicate TotalPreorder<T(!new)>(le: (T, T) -> bool) {
    && (forall a, b :: le(a, b) || le(b, a))
    && (forall a, b, c :: le(a, b) && le(b, c) ==> le(a, c))
  }

  predicate SortedBy<T>(s: seq<T>, le: (T, T) -> bool) {
    forall i, j :: 0 <= i < j < |s| ==> le(s[i], s[j])
  }

  /** The elements `keep` accepts, in their original order. */
  function Filter<T>(s: seq<T>, keep: T -> bool): (r: seq<T>)
    ensures |r| <= |s|
  {
    if s == [] then []
    else (if keep(s[0]) then [s[0]] else []) + Filter(s[1..], keep)
  }

  /** Puts `x` in front of the first element it does not exceed. */
  function Insert<T>(x: T, s: seq<T>, le: (T, T) -> bool): (r: seq<T>)
    ensures multiset(r) == multiset(s) + multiset{x}
  {
    if s == [] then [x]
    else if le(x, s[0]) then [x] + s
    else
      assert s == [s[0]] + s[1..];
      [s[0]] + Insert(x, s[1..], le)
  }

  /** Python's `sorted(s, key=...)`: a stable insertion sort. */
  function SortBy<T>(s: seq<T>, le: (T, T) -> bool): (r: seq<T>)
    ensures multiset(r) == multiset(s)
  {
    if s == [] then []
    else
      assert s == [s[0]] + s[1..];
      Insert(s[0], SortBy(s[1..], le), le)
  }

  lemma {:induction false} InsertSorted<T(!new)>(x: T, s: seq<T>, le: (T, T) -> bool)
    requires TotalPreorder(le) && SortedBy(s, le)
    ensures SortedBy(Insert(x, s, le), le)
  {
    if s != [] && !le(x, s[0]) {
      InsertSorted(x, s[1..], le);
      var t := Insert(x, s[1..], le);
      forall k | 0 <= k < |t| ensures le(s[0], t[k]) {
        assert t[k] in multiset(t);
        assert t[k] in multiset(s[1..]) || t[k] == x;
        if t[k] != x {
          var j :| 0 <= j < |s[1..]| && s[1..][j] == t[k];
          assert s[1 + j] == t[k];
        }
      }
    }
  }

  /** The sort's output is ordered. */
  lemma {:induction false} SortBySorted<T(!new)>(s: seq<T>, le: (T, T) -> bool)
    requires TotalPreorder(le)
    ensures SortedBy(SortBy(s, le), le)
  {
    if s != [] {
      SortBySorted(s[1..], le);
      InsertSorted(s[0], SortBy(s[1..], le), le);
    }
  }

  lemma FilterCons<T>(y: T, s: seq<T>, keep: T -> bool)
    ensures Filter([y] + s, keep) == if keep(y) then [y] + Filter(s, keep) else Filter(s, keep)
  {
    assert ([y] + s)[0] == y && ([y] + s)[1..] == s;
    assert [] + Filter(s, keep) == Filter(s, keep);
  }

  /** Inserting an element puts it, among the elements `keep` accepts, ahead of all of them. */
  lemma {:induction false} InsertStable<T>(x: T, s: seq<T>, le: (T, T) -> bool, keep: T -> bool)
    requires forall a, b :: keep(a) && keep(b) ==> le(a, b)
    ensures Filter(Insert(x, s, le), keep) == if keep(x) then [x] + Filter(s, keep) else Filter(s, keep)
  {
    if s == [] {
      assert [x] + s == [x];
      FilterCons(x, s, keep);
    } else if le(x, s[0]) {
      FilterCons(x, s, keep);
    } else {
      var rest := s[1..];
      assert s == [s[0]] + rest;
      InsertStable(x, rest, le, keep);
      FilterCons(s[0], Insert(x, rest, le), keep);
      FilterCons(s[0], rest, keep);
    }
  }

  /** Every class of equivalent elements keeps its input order: the sort is stable. */
  lemma {:induction false} SortByStable<T>(s: seq<T>, le: (T, T) -> bool, keep: T -> bool)
    requires forall a, b :: keep(a) && keep(b) ==> le(a, b)
    ensures Filter(SortBy(s, le), keep) == Filter(s, keep)
  {
    if s != [] {
      var x, rest := s[0], s[1..];
      calc {
        Filter(SortBy(s, le), keep);
        Filter(Insert(x, SortBy(rest, le), le), keep);
        { InsertStable(x, SortBy(rest, le), le, keep); }
        if keep(x) then [x] + Filter(SortBy(rest, le), keep) else Filter(SortBy(rest, le), keep);
        { SortByStable(rest, le, keep); }
        if keep(x) then [x] + Filter(rest, keep) else Filter(rest, keep);
        { FilterCons(x, rest, keep); }
        Filter([x] + rest, keep);
        { assert s == [x] + rest; }
        Filter(s, keep);
      }
    }
  }

  /** Two sequences with the same elements: every element of one is in the other. */
  lemma PermutationMembers<T>(a: seq<T>, b: seq<T>)
    requires multiset(a) == multiset(b)
    ensures forall i :: 0 <= i < |a| ==> a[i] in b
  {
    forall i | 0 <= i < |a| ensures a[i] in b {
      assert a[i] in multiset(a);
    }
  }
}
