/**
  Integer parsing and formatting used by the function-boundary counter.

  `MyInt` is the script's `myint` helper: it accepts an int unchanged, and
  for a string drops one leading `$` and then reads `0x...` as hexadecimal,
  `-0x...` as negated hexadecimal and anything else as decimal.  The
  conversions it delegates to are Python's `int(s, 16)` and `int(s)`, modelled
  by `PyInt`.  `Format` is `str.format`'s `{:x}` / `{:d}`, used when the
  reports print addresses and counts; the lemmas below show that `MyInt`
  reads back what `Format` writes.
*/
module Numbers {
  import opened Wrappers

  /** The two bases the script converts in. */
  type Radix = b: nat | b == 10 || b == 16 witness 10

  /** A field as `myint` receives it: already an int, or a word of a line. */
  datatype Token = Number(n: int) | Text(s: string)

  /** The value of an ASCII hexadecimal digit (either case), or -1 for any other character. */
  function DigitValue(c: char): (d: int)
    ensures -1 <= d < 16
    ensures '0' <= c <= '9' ==> d == c as int - '0' as int
  {
    if '0' <= c <= '9' then c as int - '0' as int
    else if 'a' <= c <= 'f' then c as int - 'a' as int + 10
    else if 'A' <= c <= 'F' then c as int - 'A' as int + 10
    else -1
  }

  predicate IsDigit(c: char, base: Radix) {
    0 <= DigitValue(c) < base
  }

  predicate AllDigits(s: string, base: Radix) {
    forall i :: 0 <= i < |s| ==> IsDigit(s[i], base)
  }

  predicate HasPrefix(s: string, p: string) {
    |p| <= |s| && s[..|p|] == p
  }

  /** The number a string of digits denotes, most significant digit first. */
  function DigitsValue(s: string, base: Radix): nat
    requires AllDigits(s, base)
  {
    if s == [] then 0
    else DigitsValue(s[..|s| - 1], base) * base + DigitValue(s[|s| - 1])
  }

  /**
    Python's `int(s, base)` on the inputs this model admits: an optional `+`
    or `-` sign, for base 16 an optional `0x`/`0X` prefix after the sign, then
    at least one digit of the base.  `None` stands for the `ValueError`.
  */
  function PyInt(s: string, base: Radix): Option<int> {
    var negative := |s| > 0 && s[0] == '-';
    var unsigned := if |s| > 0 && (s[0] == '-' || s[0] == '+') then s[1..] else s;
    var digits :=
      if base == 16 && (HasPrefix(unsigned, "0x") || HasPrefix(unsigned, "0X")) then unsigned[2..]
      else unsigned;
    if digits != [] && AllDigits(digits, base) then
      var v: int := DigitsValue(digits, base);
      Some(if negative then -v else v)
    else None
  }

  function Negate(r: Option<int>): Option<int> {
    match r
    case None => None
    case Some(v) => Some(-v)
  }

  /** `myint` (scripts/countMatch.py). */
  function MyInt(t: Token): (r: Option<int>)
    ensures t.Number? ==> r == Some(t.n)
  {
    match t
    case Number(n) => Some(n)
    case Text(s) =>
      var s' := if HasPrefix(s, "$") then s[1..] else s;
      if HasPrefix(s', "0x") then PyInt(s'[2..], 16)
      else if HasPrefix(s', "-0x") then Negate(PyInt(s'[3..], 16))
      else PyInt(s', 10)
  }

  /** The lower-case digit for a value below 16. */
  function DigitChar(d: nat): (c: char)
    requires d < 16
    ensures DigitValue(c) == d
  {
    if d < 10 then ('0' as int + d) as char else ('a' as int + d - 10) as char
  }

  /** The digits of `n` in `base`, most significant first, without leading zeros. */
  function Digits(n: nat, base: Radix): (s: string)
    ensures s != [] && AllDigits(s, base)
    ensures s[0] == '0' ==> n == 0
  {
    if n < base then [DigitChar(n)]
    else Digits(n / base, base) + [DigitChar(n % base)]
  }

  /** `'{:x}'.format(n)` for base 16 and `'{:d}'.format(n)` for base 10. */
  function Format(n: int, base: Radix): string {
    if n < 0 then "-" + Digits(-n, base) else Digits(n, base)
  }

  lemma {:induction false} DigitsRoundTrip(n: nat, base: Radix)
    ensures DigitsValue(Digits(n, base), base) == n
  {
    if n >= base {
      var s := Digits(n, base);
      assert s[..|s| - 1] == Digits(n / base, base);
      DigitsRoundTrip(n / base, base);
    }
  }

  /** The digits `Digits` writes carry no sign and no `0x` prefix. */
  lemma DigitsArePlain(n: nat, base: Radix)
    ensures var d := Digits(n, base);
      d[0] != '-' && d[0] != '+' && !HasPrefix(d, "0x") && !HasPrefix(d, "0X")
  {
    var d := Digits(n, base);
    assert IsDigit(d[0], base);
    assert |d| >= 2 ==> IsDigit(d[1], base);
  }

  /** Python's `int` reads back what `str.format` writes, in both bases. */
  lemma PyIntReadsFormat(n: int, base: Radix)
    ensures PyInt(Format(n, base), base) == Some(n)
  {
    var m := if n < 0 then -n else n;
    var d := Digits(m, base);
    DigitsRoundTrip(m, base);
    DigitsArePlain(m, base);
    if n < 0 {
      assert Format(n, base)[1..] == d;
    }
  }

  /** `myint` reads the `0x{:x}` form the reports write, for every integer. */
  lemma MyIntReadsHex(n: int)
    ensures MyInt(Text("0x" + Format(n, 16))) == Some(n)
  {
    var s := "0x" + Format(n, 16);
    assert s[..1] == "0" && s[..2] == "0x";
    assert s[2..] == Format(n, 16);
    PyIntReadsFormat(n, 16);
  }

  /** `myint` negates what follows a `-0x` prefix. */
  lemma MyIntReadsNegatedHex(n: nat)
    ensures MyInt(Text("-0x" + Digits(n, 16))) == Some(-(n as int))
  {
    var s := "-0x" + Digits(n, 16);
    assert s[..1] == "-" && s[..2] == "-0" && s[..3] == "-0x";
    assert s[3..] == Format(n, 16);
    PyIntReadsFormat(n, 16);
  }

  /** `myint` reads plain decimal, signed or not. */
  lemma MyIntReadsDecimal(n: int)
    ensures MyInt(Text(Format(n, 10))) == Some(n)
  {
    var s := Format(n, 10);
    var d := if n < 0 then Digits(-n, 10) else Digits(n, 10);
    assert IsDigit(d[0], 10);
    assert |d| >= 2 ==> IsDigit(d[1], 10);
    assert !HasPrefix(s, "$");
    assert !HasPrefix(s, "0x");
    assert !HasPrefix(s, "-0x");
    PyIntReadsFormat(n, 10);
  }

  /** Exactly one leading `$` is dropped before the prefix tests. */
  lemma MyIntDropsOneDollar(s: string)
    requires !HasPrefix(s, "$")
    ensures MyInt(Text("$" + s)) == MyInt(Text(s))
  {
    assert ("$" + s)[1..] == s;
  }

  /** A `$`-prefixed hexadecimal address, as symbol dumps write them. */
  lemma MyIntReadsDollarHex()
    ensures MyInt(Text("$0x1f")) == Some(31)
  {
    assert "$0x1f"[1..] == "0x1f";
    assert "0x1f"[2..] == "1f";
    assert DigitsValue("1f", 16) == 31 by {
      assert "1f"[..1] == "1";
      assert "1"[..0] == "";
    }
  }

  lemma MyIntReadsMinusHex()
    ensures MyInt(Text("-0x10")) == Some(-16)
  {
    assert "-0x10"[..1] == "-" && "-0x10"[..2] == "-0" && "-0x10"[..3] == "-0x";
    assert "-0x10"[3..] == "10";
    assert "10"[..2] == "10";
    assert PyInt("10", 16) == Some(DigitsValue("10", 16));
    assert DigitsValue("10", 16) == 16 by {
      assert "10"[..1] == "1";
      assert "1"[..0] == "";
    }
  }

  lemma MyIntReadsPlainDecimal()
    ensures MyInt(Text("42")) == Some(42)
  {
    assert DigitsValue("42", 10) == 42 by {
      assert "42"[..1] == "4";
      assert "4"[..0] == "";
    }
  }

  /** A bare `0x` has no digits: `int('', 16)` raises. */
  lemma MyIntRejectsBarePrefix()
    ensures MyInt(Text("0x")) == None
  {
    assert "0x"[2..] == "";
  }

  /** Only one `$` is dropped: `int('$5')` raises. */
  lemma MyIntRejectsSecondDollar()
    ensures MyInt(Text("$$5")) == None
  {
    assert "$$5"[1..] == "$5";
    assert !IsDigit('$', 10);
  }
}
