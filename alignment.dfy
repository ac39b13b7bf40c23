/**
  The alignment of function starts in one binary, inferred from its ground
  truth (scripts/countMatch.py:168-182): 4 when more than 90% of the
  addresses are multiples of 16, otherwise 2 when more than 90% are even
  addresses that are NOT multiples of 16 (the `elif` at line 175 never counts
  a multiple of 16 as even), otherwise 1.  The script compares the float
  quotient `cnt4/cnt` with `.9`; this model uses the exact integer form
  `10 * cnt4 > 9 * cnt`.
*/
module Alignment {
  import opened Tables
  import opened Sorting

  /** The addresses `cnt4` counts. */
  function Multiples16(s: set<int>): set<int> {
    set x | x in s && x % 16 == 0
  }

  /** The addresses `cnt2` counts: even, but not multiples of 16. */
  function EvenNot16(s: set<int>): set<int> {
    set x | x in s && x % 16 != 0 && x % 2 == 0
  }

  function ModeOf(cnt: nat, cnt2: nat, cnt4: nat): int {
    if 10 * cnt4 > 9 * cnt then 4
    else if 10 * cnt2 > 9 * cnt then 2
    else 1
  }

  /** The alignment mode of a ground-truth table. */
  function Mode(sym: Table): (aligned: int)
    ensures aligned == 1 || aligned == 2 || aligned == 4
  {
    ModeOf(|sym|, |EvenNot16(sym.Keys)|, |Multiples16(sym.Keys)|)
  }

  /** How the two counted sets grow when one more address is visited. */
  lemma CountStep(done: set<int>, x: int)
    requires x !in done
    ensures |Multiples16(done + {x})| == |Multiples16(done)| + (if x % 16 == 0 then 1 else 0)
    ensures |EvenNot16(done + {x})| == |EvenNot16(done)| + (if x % 16 != 0 && x % 2 == 0 then 1 else 0)
  {
    if x % 16 == 0 {
      assert Multiples16(done + {x}) == Multiples16(done) + {x};
      assert EvenNot16(done + {x}) == EvenNot16(done);
    } else if x % 2 == 0 {
      assert Multiples16(done + {x}) == Multiples16(done);
      assert EvenNot16(done + {x}) == EvenNot16(done) + {x};
    } else {
      assert Multiples16(done + {x}) == Multiples16(done);
      assert EvenNot16(done + {x}) == EvenNot16(done);
    }
  }

  /** The counting loop over the ground-truth addresses, then the two threshold tests. */
  method DetectAlignment(sym: Table) returns (aligned: int)
    requires sym != map[]
    ensures aligned == Mode(sym)
  {
    var cnt, cnt2, cnt4 := 0, 0, 0;
    aligned := 1;
    var todo := sym.Keys;
    ghost var done: set<int> := {};
    while todo != {}
      invariant todo <= sym.Keys && done == sym.Keys - todo
      invariant cnt == |done|
      invariant cnt4 == |Multiples16(done)|
      invariant cnt2 == |EvenNot16(done)|
      decreases |todo|
    {
      var x := Pick(todo);
      CountStep(done, x);
      todo := todo - {x};
      done := done + {x};
      cnt := cnt + 1;
      if x % 16 == 0 {
        cnt4 := cnt4 + 1;
      } else if x % 2 == 0 {
        cnt2 := cnt2 + 1;
      }
    }
    assert done == sym.Keys;
    if 10 * cnt4 > 9 * cnt {
      aligned := 4;
    } else if 10 * cnt2 > 9 * cnt {
      aligned := 2;
    }
  }

  /** A table whose addresses are all multiples of 16 is 4-aligned. */
  lemma AllMultiplesOf16(sym: Table)
    requires sym != map[]
    requires forall x :: x in sym ==> x % 16 == 0
    ensures Mode(sym) == 4
  {
    assert Multiples16(sym.Keys) == sym.Keys;
    assert |sym.Keys| == |sym| > 0;
  }

  /** All addresses even and none a multiple of 16: 2-aligned. */
  lemma AllEvenNoneMultipleOf16(sym: Table)
    requires sym != map[]
    requires forall x :: x in sym ==> x % 2 == 0 && x % 16 != 0
    ensures Mode(sym) == 2
  {
    assert Multiples16(sym.Keys) == {};
    assert EvenNot16(sym.Keys) == sym.Keys;
    assert |sym.Keys| == |sym| > 0;
  }

  /**
    Every address even is not enough for mode 2 when some are multiples of
    16: with starts 0x10, 0x20 and 0x2 the mode is 1.
  */
  lemma EvenButMixedIsUnaligned()
    ensures Mode(map[0x10 := 8, 0x20 := 8, 0x2 := 8]) == 1
  {
    var sym := map[0x10 := 8, 0x20 := 8, 0x2 := 8];
    assert sym.Keys == {0x10, 0x20, 0x2};
    assert Multiples16(sym.Keys) == {0x10, 0x20};
    assert EvenNot16(sym.Keys) == {0x2};
  }
}
