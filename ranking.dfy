/**
  The per-category rankings printed at the end of a run
  (scripts/countMatch.py:371-406).  For `longBd`, `shortBd`, `fpSt` and
  `missing` the binaries are sorted by value (a stable sort over the dict's
  insertion order, which is the order the binaries were scored), walked in
  reverse, the ones with value 0 counted as perfect, and the first five
  listed: the worst five.  For `f1St` they are walked in ascending order,
  value 1 counts as perfect, and the first fifteen are listed: the worst
  fifteen.
*/
module Ranking {
  import opened Sorting

  type Positive = n: nat | n > 0 witness 1

  /**
    One `(fId, res[statType][fId])` item, with the binary's ground-truth size:
    the top-five listing divides by it unguarded, so it is positive.
  */
  datatype Entry = Entry(id: string, value: real, gt: Positive)

  predicate ByValue(a: Entry, b: Entry) {
    a.value <= b.value
  }

  lemma ByValueIsTotalPreorder()
    ensures TotalPreorder(ByValue)
  {
  }

  /** `sorted(items, key=lambda x: x[1])`. */
  function Ascending(items: seq<Entry>): (r: seq<Entry>)
    ensures multiset(r) == multiset(items) && |r| == |items|
    ensures SortedBy(r, ByValue)
  {
    ByValueIsTotalPreorder();
    SortBySorted(items, ByValue);
    var r := SortBy(items, ByValue);
    assert |multiset(r)| == |multiset(items)|;
    r
  }

  function Reverse<T>(s: seq<T>): (r: seq<T>)
    ensures |r| == |s|
  {
    if s == [] then [] else [s[|s| - 1]] + Reverse(s[..|s| - 1])
  }

  lemma {:induction false} ReverseIndex<T>(s: seq<T>)
    ensures |Reverse(s)| == |s|
    ensures forall i :: 0 <= i < |s| ==> Reverse(s)[i] == s[|s| - 1 - i]
    ensures multiset(Reverse(s)) == multiset(s)
  {
    if s != [] {
      var init := s[..|s| - 1];
      ReverseIndex(init);
      assert s == init + [s[|s| - 1]];
    }
  }

  /** The order the top-five blocks walk: `reversed` of the sorted dict, largest value first. */
  function WorstFirst(items: seq<Entry>): seq<Entry> {
    Reverse(Ascending(items))
  }

  /** How many entries of `s` have value `v`. */
  function CountValue(s: seq<Entry>, v: real): nat {
    if s == [] then 0
    else CountValue(s[..|s| - 1], v) + (if s[|s| - 1].value == v then 1 else 0)
  }

  /** The counting loop over the dict, in the order it is walked. */
  method CountPerfect(order: seq<Entry>, v: real) returns (cnt: nat)
    ensures cnt == CountValue(order, v)
  {
    cnt := 0;
    var i := 0;
    while i < |order|
      invariant 0 <= i <= |order|
      invariant cnt == CountValue(order[..i], v)
    {
      assert order[..i + 1][..i] == order[..i];
      if order[i].value == v {
        cnt := cnt + 1;
      }
      i := i + 1;
    }
    assert order[..i] == order;
  }

  lemma {:induction false} CountAppend(s: seq<Entry>, t: seq<Entry>, v: real)
    ensures CountValue(s + t, v) == CountValue(s, v) + CountValue(t, v)
    decreases |t|
  {
    if t != [] {
      var t' := t[..|t| - 1];
      assert (s + t)[..|s + t| - 1] == s + t';
      CountAppend(s, t', v);
    } else {
      assert s + t == s;
    }
  }

  lemma CountSingle(x: Entry, v: real)
    ensures CountValue([x], v) == if x.value == v then 1 else 0
  {
    assert [x][..0] == [];
  }

  /** Taking out the entry at `j` lowers the count by that entry's contribution. */
  lemma CountRemove(b: seq<Entry>, j: nat, v: real)
    requires j < |b|
    ensures CountValue(b, v) == CountValue(b[..j] + b[j + 1..], v) + (if b[j].value == v then 1 else 0)
  {
    var front, x, back := b[..j], b[j], b[j + 1..];
    assert b == front + ([x] + back);
    calc {
      CountValue(b, v);
      { CountAppend(front, [x] + back, v); }
      CountValue(front, v) + CountValue([x] + back, v);
      { CountAppend([x], back, v); CountSingle(x, v); }
      CountValue(front, v) + CountValue(back, v) + (if x.value == v then 1 else 0);
      { CountAppend(front, back, v); }
      CountValue(front + back, v) + (if x.value == v then 1 else 0);
    }
  }

  lemma MultisetRemove<T>(b: seq<T>, j: nat)
    requires j < |b|
    ensures multiset(b[..j] + b[j + 1..]) == multiset(b) - multiset{b[j]}
  {
    assert b == b[..j] + [b[j]] + b[j + 1..];
  }

  /** The count depends only on which entries there are, not on their order. */
  lemma {:induction false} CountPermutation(a: seq<Entry>, b: seq<Entry>, v: real)
    requires multiset(a) == multiset(b)
    ensures CountValue(a, v) == CountValue(b, v)
    decreases |a|
  {
    if a == [] {
      assert |multiset(b)| == 0;
    } else {
      var x := a[|a| - 1];
      var a' := a[..|a| - 1];
      MultisetRemove(a, |a| - 1);
      assert a[..|a| - 1] + a[|a|..] == a';
      assert x in multiset(b);
      var j :| 0 <= j < |b| && b[j] == x;
      MultisetRemove(b, j);
      CountPermutation(a', b[..j] + b[j + 1..], v);
      CountRemove(b, j, v);
    }
  }

  /** The perfect count a ranking prints is the number of binaries with that value, whatever the walk. */
  lemma PerfectCountIsOrderFree(items: seq<Entry>, v: real)
    ensures CountValue(WorstFirst(items), v) == CountValue(items, v)
    ensures CountValue(Ascending(items), v) == CountValue(items, v)
  {
    ReverseIndex(Ascending(items));
    CountPermutation(WorstFirst(items), items, v);
    CountPermutation(Ascending(items), items, v);
  }

  /** One printed line of a ranking: its 1-based rank and the entry. */
  datatype Row = Row(rank: nat, entry: Entry)

  /** The rows the listing loop prints: it prints, steps its counter, and stops once the counter passes `limit`. */
  function Listed(order: seq<Entry>, limit: nat): (rows: seq<Row>) {
    var n := if |order| < limit then |order| else if limit == 0 && |order| > 0 then 1 else limit;
    seq(n, i requires 0 <= i < n => Row(i + 1, order[i]))
  }

  method Leaders(order: seq<Entry>, limit: nat) returns (rows: seq<Row>)
    ensures rows == Listed(order, limit)
  {
    rows := [];
    var cnt := 1;
    var i := 0;
    while i < |order|
      invariant 0 <= i <= |order| && cnt == i + 1 && |rows| == i
      invariant i == 0 || i < limit
      invariant forall j :: 0 <= j < i ==> rows[j] == Row(j + 1, order[j])
    {
      rows := rows + [Row(cnt, order[i])];
      cnt := cnt + 1;
      i := i + 1;
      if cnt > limit {
        assert i == limit || i == 1;
        break;
      }
    }
    assert |rows| == |Listed(order, limit)|;
  }

  /** What a ranking block prints: the perfect count, the number of binaries, and the listed rows. */
  datatype Block = Block(perfect: nat, total: nat, rows: seq<Row>)

  /** A top-five block: worst first, value 0 is perfect. */
  function TopBlockOf(items: seq<Entry>): Block {
    Block(CountValue(items, 0.0), |items|, Listed(WorstFirst(items), 5))
  }

  /** The bottom-fifteen block: ascending, value 1 is perfect. */
  function BottomBlockOf(items: seq<Entry>): Block {
    Block(CountValue(items, 1.0), |items|, Listed(Ascending(items), 15))
  }

  /** The two loops of a top-five block: count the perfect binaries, then list the first five. */
  method TopBlock(items: seq<Entry>) returns (b: Block)
    ensures b == TopBlockOf(items)
  {
    var order := WorstFirst(items);
    var cnt := CountPerfect(order, 0.0);
    PerfectCountIsOrderFree(items, 0.0);
    var rows := Leaders(order, 5);
    b := Block(cnt, |items|, rows);
  }

  /** The two loops of the bottom-fifteen block. */
  method BottomBlock(items: seq<Entry>) returns (b: Block)
    ensures b == BottomBlockOf(items)
  {
    var order := Ascending(items);
    var cnt := CountPerfect(order, 1.0);
    PerfectCountIsOrderFree(items, 1.0);
    var rows := Leaders(order, 15);
    b := Block(cnt, |items|, rows);
  }

  /**
    The listed rows of a top-five block are the binaries with the largest
    values: min(5, n) of them, none smaller than any binary left unlisted,
    and in non-increasing order.
  */
  lemma TopRowsAreWorst(items: seq<Entry>)
    ensures var rows := Listed(WorstFirst(items), 5);
      && |rows| == (if |items| < 5 then |items| else 5)
      && (forall i, j :: 0 <= i < j < |rows| ==> rows[j].entry.value <= rows[i].entry.value)
      && (forall i, k :: 0 <= i < |rows| && |rows| <= k < |items| ==>
            WorstFirst(items)[k].value <= rows[i].entry.value)
  {
    var a := Ascending(items);
    ReverseIndex(a);
    var w := WorstFirst(items);
    forall i, k | 0 <= i < k < |w| ensures w[k].value <= w[i].value {
      assert w[k] == a[|a| - 1 - k] && w[i] == a[|a| - 1 - i];
    }
  }

  /**
    The listed rows of the bottom-fifteen block are the binaries with the
    smallest values: min(15, n) of them, none larger than any binary left
    unlisted, in non-decreasing order.
  */
  lemma BottomRowsAreWorst(items: seq<Entry>)
    ensures var rows := Listed(Ascending(items), 15);
      && |rows| == (if |items| < 15 then |items| else 15)
      && (forall i, j :: 0 <= i < j < |rows| ==> rows[i].entry.value <= rows[j].entry.value)
      && (forall i, k :: 0 <= i < |rows| && |rows| <= k < |items| ==>
            rows[i].entry.value <= Ascending(items)[k].value)
  {
  }

  /** Every listed row is one of the binaries. */
  lemma RowsComeFromItems(items: seq<Entry>)
    ensures var rows := Listed(WorstFirst(items), 5); forall i :: 0 <= i < |rows| ==> rows[i].entry in items
    ensures var rows := Listed(Ascending(items), 15); forall i :: 0 <= i < |rows| ==> rows[i].entry in items
  {
    ReverseIndex(Ascending(items));
    PermutationMembers(WorstFirst(items), items);
    PermutationMembers(Ascending(items), items);
  }

  /** Binaries with equal values keep their scoring order in the ascending walk (the sort is stable). */
  lemma TiesKeepScoringOrder(items: seq<Entry>, v: real)
    ensures Filter(Ascending(items), (e: Entry) => e.value == v) == Filter(items, (e: Entry) => e.value == v)
  {
    SortByStable(items, ByValue, (e: Entry) => e.value == v);
  }

  /**
    The top-five blocks walk the ascending sort in reverse, so binaries with
    equal values come last-scored first.
  */
  lemma TopTiesReverseScoringOrder(items: seq<Entry>, v: real)
    ensures Filter(WorstFirst(items), (e: Entry) => e.value == v) == Reverse(Filter(items, (e: Entry) => e.value == v))
  {
    var keep := (e: Entry) => e.value == v;
    calc {
      Filter(WorstFirst(items), keep);
      { FilterReverse(Ascending(items), keep); }
      Reverse(Filter(Ascending(items), keep));
      { TiesKeepScoringOrder(items, v); }
      Reverse(Filter(items, keep));
    }
  }

  lemma {:induction false} FilterAppend<T>(a: seq<T>, b: seq<T>, keep: T -> bool)
    ensures Filter(a + b, keep) == Filter(a, keep) + Filter(b, keep)
  {
    if a != [] {
      assert (a + b)[0] == a[0] && (a + b)[1..] == a[1..] + b;
      FilterAppend(a[1..], b, keep);
    } else {
      assert a + b == b;
    }
  }

  lemma {:induction false} ReverseAppend<T>(a: seq<T>, b: seq<T>)
    ensures Reverse(a + b) == Reverse(b) + Reverse(a)
    decreases |b|
  {
    if b == [] {
      assert a + b == a;
    } else {
      var b' := b[..|b| - 1];
      assert (a + b)[..|a + b| - 1] == a + b';
      ReverseAppend(a, b');
    }
  }

  lemma {:induction false} FilterReverse<T>(s: seq<T>, keep: T -> bool)
    ensures Filter(Reverse(s), keep) == Reverse(Filter(s, keep))
  {
    if s != [] {
      var init, x := s[..|s| - 1], s[|s| - 1];
      assert s == init + [x];
      var fx := if keep(x) then [x] else [];
      assert Filter([x], keep) == fx by {
        assert [x][1..] == [];
      }
      assert Reverse(fx) == fx by {
        if keep(x) {
          assert fx[..0] == [];
        }
      }
      calc {
        Filter(Reverse(s), keep);
        Filter([x] + Reverse(init), keep);
        { FilterAppend([x], Reverse(init), keep); }
        fx + Filter(Reverse(init), keep);
        { FilterReverse(init, keep); }
        fx + Reverse(Filter(init, keep));
        { ReverseAppend(Filter(init, keep), fx); }
        Reverse(Filter(init, keep) + fx);
        { FilterAppend(init, [x], keep); }
        Reverse(Filter(s, keep));
      }
    }
  }
}
