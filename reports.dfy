/**
  The two summary files (scripts/countMatch.py:304-351).

  `results.csv` has a header `name,` followed by the fourteen category
  names, and one row per binary in sorted file-name order whose cells are
  the binary's counters (written with `{:d}`) and ratios (written as
  percentages).  `results1.csv` has a header `short,long,missing` and then
  as many rows as the longest of the three sorted key lists of the LAST
  binary scored, each cell `0x` and the key in lower-case hex, or `0x0`
  once a list is used up.  Lines are modelled without their newline.
*/
module Reports {
  import opened Wrappers
  import opened Numbers
  import opened Sorting
  import opened Tables
  import opened Metrics
  import opened Scoring

  // ----- comma-separated lines -----

  /** The cells joined with commas. */
  function Join(cells: seq<string>): string {
    if cells == [] then ""
    else if |cells| == 1 then cells[0]
    else Join(cells[..|cells| - 1]) + "," + cells[|cells| - 1]
  }

  /** Every cell followed by a comma, as the loops build a line before the last comma is cut. */
  function Terminated(cells: seq<string>): string {
    if cells == [] then "" else Terminated(cells[..|cells| - 1]) + cells[|cells| - 1] + ","
  }

  lemma {:induction false} TerminatedIsJoin(cells: seq<string>)
    requires cells != []
    ensures Terminated(cells) == Join(cells) + ","
  {
    if |cells| > 1 {
      var init := cells[..|cells| - 1];
      TerminatedIsJoin(init);
    } else {
      assert cells[..0] == [];
    }
  }

  /** `str.split(',')`. */
  function Split(s: string): (r: seq<string>)
    ensures |r| >= 1
  {
    if s == [] then [""]
    else
      var init := Split(s[..|s| - 1]);
      var c := s[|s| - 1];
      if c == ',' then init + [""] else init[..|init| - 1] + [init[|init| - 1] + [c]]
  }

  predicate Plain(cell: string) {
    forall k :: 0 <= k < |cell| ==> cell[k] != ','
  }

  /** Appending comma-free text extends the last piece. */
  lemma {:induction false} SplitAppendPlain(s: string, t: string)
    requires Plain(t)
    ensures var r := Split(s);
      Split(s + t) == r[..|r| - 1] + [r[|r| - 1] + t]
    decreases |t|
  {
    var r := Split(s);
    if t == [] {
      assert s + t == s && r[|r| - 1] + t == r[|r| - 1];
      assert r[..|r| - 1] + [r[|r| - 1]] == r;
    } else {
      var t' := t[..|t| - 1];
      assert (s + t)[..|s + t| - 1] == s + t';
      SplitAppendPlain(s, t');
      assert r[|r| - 1] + t' + [t[|t| - 1]] == r[|r| - 1] + t;
    }
  }

  lemma SplitAfterComma(s: string)
    ensures Split(s + ",") == Split(s) + [""]
  {
    assert (s + ",")[..|s|] == s;
  }

  /** Joining one more cell puts a comma and the cell at the end. */
  lemma JoinSnoc(init: seq<string>, last: string)
    requires init != []
    ensures Join(init + [last]) == Join(init) + "," + last
  {
    assert (init + [last])[..|init|] == init;
  }

  lemma SplitJoinStep(init: seq<string>, last: string)
    requires init != [] && Split(Join(init)) == init && Plain(last)
    ensures Split(Join(init + [last])) == init + [last]
  {
    var front := Join(init) + ",";
    JoinSnoc(init, last);
    SplitAfterComma(Join(init));
    SplitAppendPlain(front, last);
    assert (init + [""])[..|init|] == init;
    assert "" + last == last;
  }

  /** A comma-free string splits into itself. */
  lemma SplitPlain(t: string)
    requires Plain(t)
    ensures Split(t) == [t]
  {
    SplitAppendPlain("", t);
    assert "" + t == t;
  }

  lemma InitAndLast<T>(s: seq<T>)
    requires s != []
    ensures s[..|s| - 1] + [s[|s| - 1]] == s
  {
  }

  /** Splitting a joined line gives back its cells, when no cell holds a comma. */
  lemma {:induction false} SplitJoin(cells: seq<string>)
    requires cells != [] && forall i :: 0 <= i < |cells| ==> Plain(cells[i])
    ensures Split(Join(cells)) == cells
  {
    var last := cells[|cells| - 1];
    if |cells| == 1 {
      SplitPlain(last);
    } else {
      var init := cells[..|cells| - 1];
      assert forall i :: 0 <= i < |init| ==> init[i] == cells[i];
      SplitJoin(init);
      SplitJoinStep(init, last);
      InitAndLast(cells);
    }
  }

  // ----- results.csv -----

  /** The fourteen categories `res` is keyed by. */
  datatype Column =
    | FpSt | FpBd | TpSt | TpBd | LongBd | ShortBd | Missing | Gt
    | PrecSt | RecallSt | F1St | PrecBd | RecallBd | F1Bd

  function Name(c: Column): string {
    match c
    case FpSt => "fpSt" case FpBd => "fpBd" case TpSt => "tpSt" case TpBd => "tpBd"
    case LongBd => "longBd" case ShortBd => "shortBd" case Missing => "missing" case Gt => "gt"
    case PrecSt => "precSt" case RecallSt => "recallSt" case F1St => "f1St"
    case PrecBd => "precBd" case RecallBd => "recallBd" case F1Bd => "f1Bd"
  }

  /** The `categories` list, in the script's order. */
  const Categories: seq<Column> := [
    FpSt, FpBd, TpSt, TpBd, LongBd, ShortBd, Missing, Gt,
    PrecSt, RecallSt, F1St, PrecBd, RecallBd, F1Bd]

  function Names(cats: seq<Column>): seq<string> {
    seq(|cats|, k requires 0 <= k < |cats| => Name(cats[k]))
  }

  lemma TerminatedStep(cells: seq<string>, n: nat)
    requires n < |cells|
    ensures Terminated(cells[..n + 1]) == Terminated(cells[..n]) + cells[n] + ","
  {
    assert cells[..n + 1][..n] == cells[..n];
  }

  /** The header line: `name` and the category names, comma-separated. */
  method ResultsHeader() returns (line: string)
    ensures line == Join(["name"] + Names(Categories))
  {
    var cells := ["name"] + Names(Categories);
    line := "name,";
    assert line == Terminated(cells[..1]) by {
      assert cells[..1][..0] == [];
    }
    for k := 0 to |Categories|
      invariant line == Terminated(cells[..k + 1])
    {
      TerminatedStep(cells, k + 1);
      line := line + Name(Categories[k]) + ",";
    }
    assert cells[..|Categories| + 1] == cells;
    TerminatedIsJoin(cells);
    line := line[..|line| - 1];
  }

  /** Names made of letters and digits hold no comma. */
  lemma NamesArePlain()
    ensures forall c :: Plain(Name(c))
  {
    forall c ensures Plain(Name(c)) {
      var n := Name(c);
      assert forall k :: 0 <= k < |n| ==> n[k] != ',' by {
        match c
        case FpSt => case FpBd => case TpSt => case TpBd =>
        case LongBd => case ShortBd => case Missing => case Gt =>
        case PrecSt => case RecallSt => case F1St => case PrecBd => case RecallBd => case F1Bd =>
      }
    }
  }

  /** Reading the header back with a comma split gives `name` and the fourteen category names. */
  lemma ResultsHeaderSplits()
    ensures Split(Join(["name"] + Names(Categories))) == ["name"] + Names(Categories)
    ensures |Split(Join(["name"] + Names(Categories)))| == 15
  {
    var cells := ["name"] + Names(Categories);
    NamesArePlain();
    assert Plain("name");
    SplitJoin(cells);
  }

  /** The test choosing the cell format: `startswith('prec')`, `'recall'` or `'f1'`. */
  predicate IsRatioName(cat: string) {
    HasPrefix(cat, "prec") || HasPrefix(cat, "recall") || HasPrefix(cat, "f1")
  }

  /** The six categories that hold ratios. */
  predicate IsRatio(c: Column) {
    c.PrecSt? || c.RecallSt? || c.F1St? || c.PrecBd? || c.RecallBd? || c.F1Bd?
  }

  lemma DiffersAt(s: string, p: string, k: nat)
    requires k < |s| && k < |p| && s[k] != p[k]
    ensures !HasPrefix(s, p)
  {
    if |p| <= |s| {
      assert s[..|p|][k] == s[k];
    }
  }

  /** The name test picks out exactly the ratio categories. */
  lemma CategoryKinds(c: Column)
    ensures IsRatioName(Name(c)) <==> IsRatio(c)
  {
    var n := Name(c);
    if IsRatio(c) {
      match c
      case PrecSt => assert n[..4] == "prec";
      case PrecBd => assert n[..4] == "prec";
      case RecallSt => assert n[..6] == "recall";
      case RecallBd => assert n[..6] == "recall";
      case F1St => assert n[..2] == "f1";
      case F1Bd => assert n[..2] == "f1";
    } else {
      DiffersAt(n, "prec", if n[0] == 'p' then 1 else 0);
      DiffersAt(n, "recall", 0);
      DiffersAt(n, "f1", if n[0] == 'f' then 1 else 0);
    }
  }

  /** A `results.csv` cell: a counter, or a ratio the script prints as a percentage. */
  datatype Cell = Count(n: int) | Percent(r: real)

  /** `res[cat][fId]` for a counter category. */
  function CountOf(s: FileSummary, c: Column): nat
    requires !IsRatio(c)
  {
    var k := s.counts;
    if c == FpSt then k.fpSt else if c == FpBd then k.fpBd else if c == TpSt then k.tpSt
    else if c == TpBd then k.tpBd else if c == LongBd then k.longBd else if c == ShortBd then k.shortBd
    else if c == Missing then k.missing else k.gt
  }

  /** `res[cat][fId]` for a ratio category. */
  function RatioOf(s: FileSummary, c: Column): real
    requires IsRatio(c)
  {
    var r := s.scores;
    if c == PrecSt then r.precSt else if c == RecallSt then r.recallSt else if c == F1St then r.f1St
    else if c == PrecBd then r.precBd else if c == RecallBd then r.recallBd else r.f1Bd
  }

  function CellOf(s: FileSummary, c: Column): Cell {
    if IsRatio(c) then Percent(RatioOf(s, c)) else Count(CountOf(s, c))
  }

  datatype ResultRow = ResultRow(name: string, cells: seq<Cell>)

  /** The row for one binary: its name, then one cell per category in header order. */
  function RowOf(name: string, s: FileSummary): ResultRow {
    ResultRow(name, seq(|Categories|, k requires 0 <= k < |Categories| => CellOf(s, Categories[k])))
  }

  /** A row holds the eight counters and then the six ratios, in header order. */
  lemma RowCellsFollowHeader(name: string, s: FileSummary)
    ensures var cells := RowOf(name, s).cells;
      && |cells| == |Categories| == 14
      && cells[..8] == [Count(s.counts.fpSt), Count(s.counts.fpBd), Count(s.counts.tpSt), Count(s.counts.tpBd),
                        Count(s.counts.longBd), Count(s.counts.shortBd), Count(s.counts.missing), Count(s.counts.gt)]
      && cells[8..] == [Percent(s.scores.precSt), Percent(s.scores.recallSt), Percent(s.scores.f1St),
                        Percent(s.scores.precBd), Percent(s.scores.recallBd), Percent(s.scores.f1Bd)]
  {
  }

  /** The inner loop over the categories, choosing each cell's format by the category's name. */
  method RowCells(s: FileSummary) returns (cells: seq<Cell>)
    ensures cells == RowOf("", s).cells
  {
    cells := [];
    for k := 0 to |Categories|
      invariant |cells| == k && forall j :: 0 <= j < k ==> cells[j] == CellOf(s, Categories[j])
    {
      var cat := Categories[k];
      CategoryKinds(cat);
      if IsRatioName(Name(cat)) {
        cells := cells + [Percent(RatioOf(s, cat))];
      } else {
        cells := cells + [Count(CountOf(s, cat))];
      }
    }
  }

  /** Python's string order: code point by code point, a proper prefix first. */
  predicate LexLe(a: string, b: string)
    decreases |a|
  {
    a == [] || (b != [] && (a[0] < b[0] || (a[0] == b[0] && LexLe(a[1..], b[1..]))))
  }

  lemma {:induction false} LexLeTotal(a: string, b: string)
    ensures LexLe(a, b) || LexLe(b, a)
    decreases |a|
  {
    if a != [] && b != [] && a[0] == b[0] {
      LexLeTotal(a[1..], b[1..]);
    }
  }

  lemma {:induction false} LexLeTransitive(a: string, b: string, c: string)
    requires LexLe(a, b) && LexLe(b, c)
    ensures LexLe(a, c)
    decreases |a|
  {
    if a != [] && a[0] == b[0] && b[0] == c[0] {
      LexLeTransitive(a[1..], b[1..], c[1..]);
    }
  }

  lemma LexLeIsTotalPreorder()
    ensures TotalPreorder(LexLe)
  {
    forall a, b ensures LexLe(a, b) || LexLe(b, a) {
      LexLeTotal(a, b);
    }
    forall a, b, c | LexLe(a, b) && LexLe(b, c) ensures LexLe(a, c) {
      LexLeTransitive(a, b, c);
    }
  }

  /** `sorted(fileIds)`. */
  function SortedNames(fileIds: seq<string>): (r: seq<string>)
    ensures multiset(r) == multiset(fileIds) && SortedBy(r, LexLe)
    ensures |r| == |fileIds| && forall i :: 0 <= i < |r| ==> r[i] in fileIds
  {
    LexLeIsTotalPreorder();
    SortBySorted(fileIds, LexLe);
    var r := SortBy(fileIds, LexLe);
    PermutationMembers(r, fileIds);
    assert |multiset(r)| == |multiset(fileIds)|;
    r
  }

  /** One row per name, in the order given. */
  function RowsFor(names: seq<string>, res: map<string, FileSummary>): (rows: seq<ResultRow>)
    requires forall i :: 0 <= i < |names| ==> names[i] in res
    ensures |rows| == |names|
  {
    seq(|names|, i requires 0 <= i < |names| => RowOf(names[i], res[names[i]]))
  }

  /** The data rows of `results.csv`: one per file name, in sorted order. */
  function ResultsRowsOf(fileIds: seq<string>, res: map<string, FileSummary>): (rows: seq<ResultRow>)
    requires forall id :: id in fileIds ==> id in res
  {
    RowsFor(SortedNames(fileIds), res)
  }

  /** The loop writing one row per name. */
  method WriteRows(names: seq<string>, res: map<string, FileSummary>) returns (rows: seq<ResultRow>)
    requires forall i :: 0 <= i < |names| ==> names[i] in res
    ensures rows == RowsFor(names, res)
  {
    rows := [];
    for i := 0 to |names|
      invariant |rows| == i && forall j :: 0 <= j < i ==> rows[j] == RowOf(names[j], res[names[j]])
    {
      var cells := RowCells(res[names[i]]);
      rows := rows + [ResultRow(names[i], cells)];
    }
  }

  /** The loop writing the data rows, over the sorted names. */
  method ResultsRows(fileIds: seq<string>, res: map<string, FileSummary>) returns (rows: seq<ResultRow>)
    requires forall id :: id in fileIds ==> id in res
    ensures rows == ResultsRowsOf(fileIds, res)
  {
    var names := SortedNames(fileIds);
    rows := WriteRows(names, res);
  }

  /** The rows are in file-name order, one per binary, and each row is that binary's own. */
  lemma ResultsRowsOrdered(fileIds: seq<string>, res: map<string, FileSummary>)
    requires forall id :: id in fileIds ==> id in res
    ensures var rows := ResultsRowsOf(fileIds, res);
      && |rows| == |fileIds|
      && (forall i, j :: 0 <= i < j < |rows| ==> LexLe(rows[i].name, rows[j].name))
      && multiset(RowNames(rows)) == multiset(fileIds)
      && (forall i :: 0 <= i < |rows| ==> rows[i] == RowOf(rows[i].name, res[rows[i].name]))
  {
    var rows := ResultsRowsOf(fileIds, res);
    assert RowNames(rows) == SortedNames(fileIds);
  }

  function RowNames(rows: seq<ResultRow>): seq<string> {
    seq(|rows|, i requires 0 <= i < |rows| => rows[i].name)
  }

  // ----- results1.csv -----

  const Results1Header: string := "short,long,missing"

  /** Column cell `i`: the `i`-th key in hex, or `0x0` padding past the end of the list. */
  function HexCell(keys: seq<int>, i: nat): string {
    if i < |keys| then "0x" + Format(keys[i], 16) else "0x0"
  }

  function Results1Row(sKeys: seq<int>, lKeys: seq<int>, mKeys: seq<int>, i: nat): string {
    Join([HexCell(sKeys, i), HexCell(lKeys, i), HexCell(mKeys, i)])
  }

  lemma JoinThree(a: string, b: string, c: string)
    ensures Join([a, b, c]) == a + "," + b + "," + c
  {
    assert [a, b, c] == [a, b] + [c];
    JoinSnoc([a, b], c);
    assert [a, b] == [a] + [b];
    JoinSnoc([a], b);
  }

  /** One data line: the three cells, each chosen by its own `if`. */
  method Results1Line(sKeys: seq<int>, lKeys: seq<int>, mKeys: seq<int>, i: nat) returns (row: string)
    ensures row == Results1Row(sKeys, lKeys, mKeys, i)
  {
    var shortCell, longCell, missingCell;
    if i < |sKeys| {
      shortCell := "0x" + Format(sKeys[i], 16);
    } else {
      shortCell := "0x0";
    }
    if i < |lKeys| {
      longCell := "0x" + Format(lKeys[i], 16);
    } else {
      longCell := "0x0";
    }
    if i < |mKeys| {
      missingCell := "0x" + Format(mKeys[i], 16);
    } else {
      missingCell := "0x0";
    }
    row := shortCell + "," + longCell + "," + missingCell;
    JoinThree(shortCell, longCell, missingCell);
  }

  function Max3(a: nat, b: nat, c: nat): nat {
    if a >= b && a >= c then a else if b >= c then b else c
  }

  /** The first `n` data lines. */
  function Results1Rows(sKeys: seq<int>, lKeys: seq<int>, mKeys: seq<int>, n: nat): (rows: seq<string>)
    ensures |rows| == n
  {
    seq(n, j requires 0 <= j < n => Results1Row(sKeys, lKeys, mKeys, j))
  }

  lemma Results1RowsStep(sKeys: seq<int>, lKeys: seq<int>, mKeys: seq<int>, n: nat)
    ensures Results1Rows(sKeys, lKeys, mKeys, n + 1) ==
      Results1Rows(sKeys, lKeys, mKeys, n) + [Results1Row(sKeys, lKeys, mKeys, n)]
  {
  }

  /** The writing loop: the header, then data lines `0 .. n-1`. */
  method Results1Body(sKeys: seq<int>, lKeys: seq<int>, mKeys: seq<int>, n: nat) returns (lines: seq<string>)
    ensures lines == [Results1Header] + Results1Rows(sKeys, lKeys, mKeys, n)
  {
    lines := [Results1Header];
    assert Results1Rows(sKeys, lKeys, mKeys, 0) == [];
    for i := 0 to n
      invariant lines == [Results1Header] + Results1Rows(sKeys, lKeys, mKeys, i)
    {
      var row := Results1Line(sKeys, lKeys, mKeys, i);
      Results1RowsStep(sKeys, lKeys, mKeys, i);
      lines := lines + [row];
    }
  }

  /**
    The lines of `results1.csv` for the last binary's `short`, `longGuess`
    and `missing` dicts: the header, then one line per position of the
    longest of the three sorted key lists.
  */
  method Results1Lines(short: Table, longGuess: Table, missing: Table) returns (lines: seq<string>)
    ensures lines == [Results1Header] +
      Results1Rows(SortedKeys(short.Keys), SortedKeys(longGuess.Keys), SortedKeys(missing.Keys),
                   Max3(|short|, |longGuess|, |missing|))
  {
    var sKeys, lKeys, mKeys := SortedKeys(short.Keys), SortedKeys(longGuess.Keys), SortedKeys(missing.Keys);
    var maxShort, maxLong, maxMissing := |sKeys|, |lKeys|, |mKeys|;
    var inner := if maxLong >= maxMissing then maxLong else maxMissing;
    var maxCnt := if maxShort >= inner then maxShort else inner;
    assert maxCnt == Max3(|short|, |longGuess|, |missing|);
    lines := Results1Body(sKeys, lKeys, mKeys, maxCnt);
  }

  lemma FormatIsPlain(n: int)
    ensures Plain(Format(n, 16))
  {
    var d := Digits(if n < 0 then -n else n, 16);
    assert forall k :: 0 <= k < |d| ==> IsDigit(d[k], 16);
  }

  /** A hex cell reads back with `myint` as its key, or 0 for padding, and holds no comma. */
  lemma HexCellReadsBack(keys: seq<int>, i: nat)
    ensures MyInt(Text(HexCell(keys, i))) == Some(if i < |keys| then keys[i] else 0)
    ensures Plain(HexCell(keys, i))
  {
    if i < |keys| {
      MyIntReadsHex(keys[i]);
      FormatIsPlain(keys[i]);
      assert HexCell(keys, i)[2..] == Format(keys[i], 16);
    } else {
      MyIntReadsHex(0);
    }
  }

  /**
    Reading a `results1.csv` row back: it splits into three cells, and
    `myint` of each gives the `i`-th key of that sorted list, or 0 once the
    list is used up.
  */
  lemma Results1RowReadsBack(sKeys: seq<int>, lKeys: seq<int>, mKeys: seq<int>, i: nat)
    ensures var cells := Split(Results1Row(sKeys, lKeys, mKeys, i));
      && |cells| == 3
      && MyInt(Text(cells[0])) == Some(if i < |sKeys| then sKeys[i] else 0)
      && MyInt(Text(cells[1])) == Some(if i < |lKeys| then lKeys[i] else 0)
      && MyInt(Text(cells[2])) == Some(if i < |mKeys| then mKeys[i] else 0)
  {
    HexCellReadsBack(sKeys, i);
    HexCellReadsBack(lKeys, i);
    HexCellReadsBack(mKeys, i);
    SplitThree(HexCell(sKeys, i), HexCell(lKeys, i), HexCell(mKeys, i));
  }

  lemma SplitThree(a: string, b: string, c: string)
    requires Plain(a) && Plain(b) && Plain(c)
    ensures Split(Join([a, b, c])) == [a, b, c]
  {
    var cells := [a, b, c];
    assert forall i :: 0 <= i < |cells| ==> Plain(cells[i]);
    SplitJoin(cells);
  }
}
