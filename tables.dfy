/**
  Reading the two address tables of one binary and the text region that is
  scored.  A line arrives already split on white space (`line.split()`).

  The prediction table (the tool's output, `myGt`) skips lines with fewer
  than two words; every other line assigns `int(word0, 16) -> myint(word1)`.
  The ground-truth table (`sym`) may start with a `text start end` header;
  every other line must be a record, and any bad line stops the run.
*/
module Tables {
  import opened Wrappers
  import opened Numbers
  import opened Sorting

  /** One line after `str.split()`. */
  type Line = seq<string>

  /** A dict from address to length. */
  type Table = map<int, int>

  datatype LoadError =
    | BadPrediction     // `int(words[0], 16)` or `myint(words[1])` raised on a prediction line
    | BadGroundTruth    // anything caught by the handler around the ground-truth reader, which exits
    | EmptyGroundTruth  // an empty ground-truth table, on which the region or the alignment divides by zero

  /** The dict that assigning `entries` in order to `m` leaves: later entries win. */
  function Assign(m: Table, entries: seq<(int, int)>): Table {
    if entries == [] then m
    else
      var last := entries[|entries| - 1];
      Assign(m, entries[..|entries| - 1])[last.0 := last.1]
  }

  /** What `Assign` leaves under a key: the length of the last entry for it. */
  lemma {:induction false} AssignLookup(m: Table, entries: seq<(int, int)>, i: nat)
    requires i < |entries|
    requires forall j :: i < j < |entries| ==> entries[j].0 != entries[i].0
    ensures entries[i].0 in Assign(m, entries) && Assign(m, entries)[entries[i].0] == entries[i].1
  {
    if i < |entries| - 1 {
      AssignLookup(m, entries[..|entries| - 1], i);
    }
  }

  lemma {:induction false} AssignFirst(m: Table, x: (int, int), entries: seq<(int, int)>)
    ensures Assign(m, [x] + entries) == Assign(m[x.0 := x.1], entries)
  {
    if entries != [] {
      assert ([x] + entries)[..|entries|] == [x] + entries[..|entries| - 1];
      AssignFirst(m, x, entries[..|entries| - 1]);
    }
  }

  // ----- prediction table (scripts/countMatch.py:124-133) -----

  /** One prediction line: skipped when it has fewer than two words. */
  function AddPrediction(m: Table, words: Line): Result<Table, LoadError> {
    if |words| < 2 then Ok(m)
    else
      match (PyInt(words[0], 16), MyInt(Text(words[1])))
      case (Some(addr), Some(len)) => Ok(m[addr := len])
      case _ => Err(BadPrediction)
  }

  function PredictionTable(lines: seq<Line>): Result<Table, LoadError> {
    if lines == [] then Ok(map[])
    else
      match PredictionTable(lines[..|lines| - 1])
      case Err(e) => Err(e)
      case Ok(m) => AddPrediction(m, lines[|lines| - 1])
  }

  /** The first bad prediction line decides the outcome: later lines are never read. */
  lemma {:induction false} PredictionErrorSticks(lines: seq<Line>, k: nat)
    requires k <= |lines| && PredictionTable(lines[..k]).Err?
    ensures PredictionTable(lines) == PredictionTable(lines[..k])
    decreases |lines| - k
  {
    if k < |lines| {
      assert lines[..k + 1][..k] == lines[..k];
      PredictionErrorSticks(lines, k + 1);
    } else {
      assert lines[..k] == lines;
    }
  }

  /** The reading loop: one dict assignment per line with at least two words. */
  method LoadPrediction(lines: seq<Line>) returns (r: Result<Table, LoadError>)
    ensures r == PredictionTable(lines)
  {
    var myGt: Table := map[];
    var cnt := 0;
    while cnt < |lines|
      invariant 0 <= cnt <= |lines|
      invariant PredictionTable(lines[..cnt]) == Ok(myGt)
    {
      var words := lines[cnt];
      cnt := cnt + 1;
      assert lines[..cnt][..cnt - 1] == lines[..cnt - 1];
      if |words| < 2 {
        continue;
      }
      var addr := PyInt(words[0], 16);
      var len := MyInt(Text(words[1]));
      if addr.None? || len.None? {
        PredictionErrorSticks(lines, cnt);
        return Err(BadPrediction);
      }
      myGt := myGt[addr.value := len.value];
    }
    assert lines[..cnt] == lines;
    return Ok(myGt);
  }

  /** A line with fewer than two words changes nothing. */
  lemma PredictionSkipsShortLine(lines: seq<Line>, words: Line)
    requires |words| < 2
    ensures PredictionTable(lines + [words]) == PredictionTable(lines)
  {
    assert (lines + [words])[..|lines|] == lines;
  }

  /** Prediction lines as a tool writes them: hexadecimal address, decimal length. */
  function PredictionLines(entries: seq<(int, int)>): (lines: seq<Line>)
    ensures |lines| == |entries|
  {
    seq(|entries|, i requires 0 <= i < |entries| => [Format(entries[i].0, 16), Format(entries[i].1, 10)])
  }

  /** Reading well-formed prediction lines builds the dict of their entries. */
  lemma {:induction false} PredictionRoundTrip(entries: seq<(int, int)>)
    ensures PredictionTable(PredictionLines(entries)) == Ok(Assign(map[], entries))
  {
    if entries != [] {
      var n := |entries|;
      var lines := PredictionLines(entries);
      assert lines[..n - 1] == PredictionLines(entries[..n - 1]);
      PredictionRoundTrip(entries[..n - 1]);
      PyIntReadsFormat(entries[n - 1].0, 16);
      MyIntReadsDecimal(entries[n - 1].1);
    }
  }

  // ----- ground-truth table (scripts/countMatch.py:136-156) -----

  /** `start` and `endByte` are 0 when the file has no `text` header. */
  datatype GroundTruth = GroundTruth(start: int, endByte: int, sym: Table)

  /** One ground-truth record; fewer than two words is fatal here. */
  function AddSymbol(m: Table, words: Line): Result<Table, LoadError> {
    if |words| < 2 then Err(BadGroundTruth)
    else
      match (MyInt(Text(words[0])), MyInt(Text(words[1])))
      case (Some(addr), Some(len)) => Ok(m[addr := len])
      case _ => Err(BadGroundTruth)
  }

  /** The records after the first line, added to `m`. */
  function SymbolTable(m: Table, lines: seq<Line>): Result<Table, LoadError> {
    if lines == [] then Ok(m)
    else
      match SymbolTable(m, lines[..|lines| - 1])
      case Err(e) => Err(e)
      case Ok(m') => AddSymbol(m', lines[|lines| - 1])
  }

  function GroundTruthTable(lines: seq<Line>): Result<GroundTruth, LoadError> {
    if lines == [] || lines[0] == [] then Err(BadGroundTruth)
    else
      var first := lines[0];
      if first[0] == "text" then
        if |first| < 3 then Err(BadGroundTruth)
        else
          match (PyInt(first[1], 16), PyInt(first[2], 16))
          case (Some(start), Some(endByte)) =>
            (match SymbolTable(map[], lines[1..])
             case Ok(sym) => Ok(GroundTruth(start, endByte, sym))
             case Err(e) => Err(e))
          case _ => Err(BadGroundTruth)
      else
        match AddSymbol(map[], first)
        case Err(e) => Err(e)
        case Ok(m) =>
          match SymbolTable(m, lines[1..])
          case Ok(sym) => Ok(GroundTruth(0, 0, sym))
          case Err(e) => Err(e)
  }

  lemma {:induction false} SymbolErrorSticks(m: Table, lines: seq<Line>, k: nat)
    requires k <= |lines| && SymbolTable(m, lines[..k]).Err?
    ensures SymbolTable(m, lines) == SymbolTable(m, lines[..k])
    decreases |lines| - k
  {
    if k < |lines| {
      assert lines[..k + 1][..k] == lines[..k];
      SymbolErrorSticks(m, lines, k + 1);
    } else {
      assert lines[..k] == lines;
    }
  }

  /** The reader: the first line may be the header, every later line must be a record. */
  method LoadGroundTruth(lines: seq<Line>) returns (r: Result<GroundTruth, LoadError>)
    ensures r == GroundTruthTable(lines)
  {
    if |lines| == 0 || |lines[0]| == 0 {
      return Err(BadGroundTruth);
    }
    var words := lines[0];
    var start, endByte := 0, 0;
    var sym: Table := map[];
    if words[0] == "text" {
      if |words| < 3 {
        return Err(BadGroundTruth);
      }
      var s, e := PyInt(words[1], 16), PyInt(words[2], 16);
      if s.None? || e.None? {
        return Err(BadGroundTruth);
      }
      start, endByte := s.value, e.value;
    } else {
      var first := AddSymbol(sym, words);
      if first.Err? {
        return Err(BadGroundTruth);
      }
      sym := first.value;
    }
    ghost var sym0 := sym;
    var rest := lines[1..];
    var i := 0;
    while i < |rest|
      invariant 0 <= i <= |rest|
      invariant SymbolTable(sym0, rest[..i]) == Ok(sym)
    {
      words := rest[i];
      i := i + 1;
      assert rest[..i][..i - 1] == rest[..i - 1];
      if |words| < 2 {
        SymbolErrorSticks(sym0, rest, i);
        return Err(BadGroundTruth);
      }
      var addr, len := MyInt(Text(words[0])), MyInt(Text(words[1]));
      if addr.None? || len.None? {
        SymbolErrorSticks(sym0, rest, i);
        return Err(BadGroundTruth);
      }
      sym := sym[addr.value := len.value];
    }
    assert rest[..i] == rest;
    return Ok(GroundTruth(start, endByte, sym));
  }

  lemma {:induction false} SymbolTableShortLine(m: Table, lines: seq<Line>, j: nat)
    requires j < |lines| && |lines[j]| < 2
    ensures SymbolTable(m, lines).Err?
  {
    assert lines[..j + 1][..j] == lines[..j];
    if SymbolTable(m, lines[..j]).Err? {
      SymbolErrorSticks(m, lines[..j + 1], j);
    }
    SymbolErrorSticks(m, lines, j + 1);
  }

  /** Unlike a prediction line, a ground-truth line with fewer than two words stops the run. */
  lemma GroundTruthShortLineIsFatal(lines: seq<Line>, j: nat)
    requires 0 < j < |lines| && |lines[j]| < 2
    ensures GroundTruthTable(lines).Err?
  {
    if lines[0] != [] {
      assert lines[1..][j - 1] == lines[j];
      if lines[0][0] == "text" {
        SymbolTableShortLine(map[], lines[1..], j - 1);
      } else if AddSymbol(map[], lines[0]).Ok? {
        SymbolTableShortLine(AddSymbol(map[], lines[0]).value, lines[1..], j - 1);
      }
    }
  }

  /** Ground-truth records as the symbol extractor writes them: `0x` address, decimal length. */
  function SymbolLines(entries: seq<(int, int)>): (lines: seq<Line>)
    ensures |lines| == |entries|
  {
    seq(|entries|, i requires 0 <= i < |entries| => ["0x" + Format(entries[i].0, 16), Format(entries[i].1, 10)])
  }

  lemma {:induction false} SymbolRoundTrip(m: Table, entries: seq<(int, int)>)
    ensures SymbolTable(m, SymbolLines(entries)) == Ok(Assign(m, entries))
  {
    if entries != [] {
      var n := |entries|;
      var lines := SymbolLines(entries);
      assert lines[..n - 1] == SymbolLines(entries[..n - 1]);
      SymbolRoundTrip(m, entries[..n - 1]);
      MyIntReadsHex(entries[n - 1].0);
      MyIntReadsDecimal(entries[n - 1].1);
    }
  }

  /** A `text` header followed by records reads back as the header's bounds and the records' dict. */
  lemma GroundTruthRoundTripWithHeader(start: int, endByte: int, entries: seq<(int, int)>)
    ensures GroundTruthTable([["text", Format(start, 16), Format(endByte, 16)]] + SymbolLines(entries))
         == Ok(GroundTruth(start, endByte, Assign(map[], entries)))
  {
    var lines := [["text", Format(start, 16), Format(endByte, 16)]] + SymbolLines(entries);
    assert lines[1..] == SymbolLines(entries);
    PyIntReadsFormat(start, 16);
    PyIntReadsFormat(endByte, 16);
    SymbolRoundTrip(map[], entries);
  }

  /** Without a header the first line is a record and the bounds read as 0. */
  lemma GroundTruthRoundTripNoHeader(entries: seq<(int, int)>)
    requires entries != []
    ensures GroundTruthTable(SymbolLines(entries)) == Ok(GroundTruth(0, 0, Assign(map[], entries)))
  {
    var lines := SymbolLines(entries);
    var x := entries[0];
    assert lines[0] == ["0x" + Format(x.0, 16), Format(x.1, 10)];
    FirstRecordReads(x);
    LaterRecordsRead(entries);
  }

  /** A record line is not a `text` header, and reads as its address and length. */
  lemma FirstRecordReads(x: (int, int))
    ensures var line := ["0x" + Format(x.0, 16), Format(x.1, 10)];
      line[0] != "text" && AddSymbol(map[], line) == Ok(map[x.0 := x.1])
  {
    var line := ["0x" + Format(x.0, 16), Format(x.1, 10)];
    assert line[0][0] == '0' && "text"[0] == 't';
    MyIntReadsHex(x.0);
    MyIntReadsDecimal(x.1);
  }

  lemma LaterRecordsRead(entries: seq<(int, int)>)
    requires entries != []
    ensures SymbolTable(map[entries[0].0 := entries[0].1], SymbolLines(entries)[1..]) == Ok(Assign(map[], entries))
  {
    var x, rest := entries[0], entries[1..];
    calc {
      SymbolTable(map[x.0 := x.1], SymbolLines(entries)[1..]);
      { SymbolLinesTail(entries); }
      SymbolTable(map[x.0 := x.1], SymbolLines(rest));
      { SymbolRoundTrip(map[x.0 := x.1], rest); }
      Ok(Assign(map[x.0 := x.1], rest));
      { AssignFirst(map[], x, rest); assert entries == [x] + rest; }
      Ok(Assign(map[], entries));
    }
  }

  lemma SymbolLinesTail(entries: seq<(int, int)>)
    requires entries != []
    ensures SymbolLines(entries)[1..] == SymbolLines(entries[1..])
  {
  }

  // ----- text region (scripts/countMatch.py:158-161) -----

  /**
    The address range whose predictions are scored: the header's bounds, or,
    when there is no header or its start is 0, from the smallest ground-truth
    address to the last byte of the function at the largest one.
  */
  function TextRegion(g: GroundTruth): (r: Result<(int, int), LoadError>)
    ensures g.start != 0 ==> r == Ok((g.start, g.endByte))
    ensures g.start == 0 ==> (r.Ok? <==> g.sym != map[])
    ensures g.start == 0 && r.Ok? ==> IsLeast(r.value.0, g.sym.Keys)
    ensures g.start == 0 && r.Ok? ==>
      exists hi :: IsGreatest(hi, g.sym.Keys) && r.value.1 == hi + g.sym[hi] - 1
  {
    if g.start != 0 then Ok((g.start, g.endByte))
    else if g.sym == map[] then Err(EmptyGroundTruth)
    else
      var symKeys := SortedKeys(g.sym.Keys);
      assert symKeys[0] in g.sym.Keys;
      var hi := symKeys[|symKeys| - 1];
      assert IsGreatest(hi, g.sym.Keys) by {
        forall y | y in g.sym.Keys ensures y <= hi {
          var j :| 0 <= j < |symKeys| && symKeys[j] == y;
        }
      }
      Ok((symKeys[0], hi + g.sym[hi] - 1))
  }
}
