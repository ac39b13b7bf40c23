/**
  The two classification passes of one binary (scripts/countMatch.py:184-240).

  Pass 1 visits every address of the PREDICTION table (`myGt`) inside the
  text region and files it under exactly one of `other` (not a ground-truth
  start), `match`, `longGuess` or `short`, counting as it goes.  Pass 2
  visits every GROUND-TRUTH address (`sym`), counts it, and records the ones
  the tool never reported as `missing`; a missing address strictly inside the
  span a long prediction claims is also appended to that prediction's
  `buried` list.
*/
module Classify {
  import opened Tables
  import opened Sorting

  datatype Category = Other | Match | Long | Short

  /**
    The boundary rule for an address both tables list, with true length
    `trueLen` (from `sym`) and predicted length `predLen` (from `myGt`).
  */
  function BoundaryRule(trueLen: int, predLen: int, aligned: int): (c: Category)
    ensures c != Other
  {
    if trueLen == 0 || predLen == trueLen then Match
    else if predLen > trueLen then Long
    else if aligned == 4 && trueLen - predLen < 16 then Match
    else if aligned == 2 && trueLen + 1 == predLen then Match
    else if predLen + 1 == trueLen then Match
    else Short
  }

  /** The category Pass 1 gives a predicted address. */
  function CategoryOf(addr: int, myGt: Table, sym: Table, aligned: int): Category
    requires addr in myGt
  {
    if addr !in sym then Other else BoundaryRule(sym[addr], myGt[addr], aligned)
  }

  predicate InRegion(addr: int, region: (int, int)) {
    region.0 <= addr <= region.1
  }

  /** The predictions among `keys` that Pass 1 files under `c`, with their predicted lengths. */
  function Classified(keys: set<int>, myGt: Table, sym: Table, region: (int, int), aligned: int, c: Category): Table {
    map a | a in keys && a in myGt && InRegion(a, region) && CategoryOf(a, myGt, sym, aligned) == c :: myGt[a]
  }

  /** The ground-truth entries the tool never reported. */
  function Missing(myGt: Table, sym: Table): Table {
    map a | a in sym && a !in myGt :: sym[a]
  }

  // ----- the boundary rule -----

  /** When a prediction at a true start counts as a boundary match, is long, or is short. */
  lemma BoundaryRuleCases(trueLen: int, predLen: int, aligned: int)
    ensures BoundaryRule(trueLen, predLen, aligned) == Match <==>
      trueLen == 0 || predLen == trueLen ||
      (predLen < trueLen && ((aligned == 4 && trueLen - predLen < 16) || predLen + 1 == trueLen))
    ensures BoundaryRule(trueLen, predLen, aligned) == Long <==> trueLen != 0 && predLen > trueLen
    ensures BoundaryRule(trueLen, predLen, aligned) == Short <==>
      trueLen != 0 && predLen < trueLen && !(aligned == 4 && trueLen - predLen < 16) && predLen + 1 != trueLen
  {
  }

  /** The alignment-2 tolerance `sym + 1 == myGt` sits where `myGt < sym`: it never applies. */
  lemma AlignmentTwoIsLikeOne(trueLen: int, predLen: int)
    ensures BoundaryRule(trueLen, predLen, 2) == BoundaryRule(trueLen, predLen, 1)
  {
  }

  // ----- pass 1 (scripts/countMatch.py:193-229) -----

  datatype Pass1 = Pass1(
    matched: Table, short: Table, shortLen: Table, longGuess: Table, longLen: Table, other: Table,
    buried: map<int, seq<int>>,
    fpSt: nat, fpBd: nat, tpSt: nat, tpBd: nat, longBd: nat, shortBd: nat)

  /** `m` holds exactly the predictions among `done` that Pass 1 files under `c`, with their lengths. */
  ghost predicate FiledAs(m: Table, done: set<int>, myGt: Table, sym: Table, region: (int, int), aligned: int, c: Category) {
    forall a ::
      (a in m <==> a in done && a in myGt && InRegion(a, region) && CategoryOf(a, myGt, sym, aligned) == c) &&
      (a in m ==> a in myGt && m[a] == myGt[a])
  }

  lemma FiledAsIsClassified(m: Table, done: set<int>, myGt: Table, sym: Table, region: (int, int), aligned: int, c: Category)
    requires FiledAs(m, done, myGt, sym, region, aligned, c)
    ensures m == Classified(done, myGt, sym, region, aligned, c)
  {
    var filed := Classified(done, myGt, sym, region, aligned, c);
    assert forall a :: a in m <==> a in filed;
    assert forall a :: a in m ==> m[a] == filed[a];
  }

  /** The four category dicts after visiting the predicted addresses `done`. */
  ghost predicate Pass1Dicts(p: Pass1, done: set<int>, myGt: Table, sym: Table, region: (int, int), aligned: int) {
    && FiledAs(p.matched, done, myGt, sym, region, aligned, Match)
    && FiledAs(p.longGuess, done, myGt, sym, region, aligned, Long)
    && FiledAs(p.short, done, myGt, sym, region, aligned, Short)
    && FiledAs(p.other, done, myGt, sym, region, aligned, Other)
  }

  /**
    The per-address side tables: `longLen` is the positive excess of each
    long prediction over the true length, `shortLen` the negative shortfall
    of each short one, and every long prediction has an empty buried list.
  */
  predicate Pass1Deltas(p: Pass1, sym: Table) {
    && p.longLen.Keys == p.longGuess.Keys
    && (forall a :: a in p.longLen ==> a in sym && p.longLen[a] == p.longGuess[a] - sym[a] > 0)
    && p.shortLen.Keys == p.short.Keys
    && (forall a :: a in p.shortLen ==> a in sym && p.shortLen[a] == p.short[a] - sym[a] < 0)
    && p.buried.Keys == p.longGuess.Keys && (forall a :: a in p.buried ==> p.buried[a] == [])
  }

  /** Each of the six counters equals the size of the dicts it counts. */
  predicate Pass1Counts(p: Pass1) {
    && p.tpSt == |p.matched| + |p.longGuess| + |p.short| && p.fpSt == |p.other|
    && p.tpBd == |p.matched| && p.fpBd == |p.other| + |p.longGuess| + |p.short|
    && p.longBd == |p.longGuess| && p.shortBd == |p.short|
  }

  /** What Pass 1 has built after visiting the predicted addresses `done`. */
  ghost predicate Pass1Holds(p: Pass1, done: set<int>, myGt: Table, sym: Table, region: (int, int), aligned: int) {
    Pass1Dicts(p, done, myGt, sym, region, aligned) && Pass1Deltas(p, sym) && Pass1Counts(p)
  }

  lemma Pass1Start(myGt: Table, sym: Table, region: (int, int), aligned: int)
    ensures Pass1Holds(Pass1(map[], map[], map[], map[], map[], map[], map[], 0, 0, 0, 0, 0, 0), {}, myGt, sym, region, aligned)
  {
  }

  /** The dicts hold only visited addresses. */
  lemma NotYetFiled(p: Pass1, done: set<int>, addr: int, myGt: Table, sym: Table, region: (int, int), aligned: int)
    requires addr !in done
    requires Pass1Dicts(p, done, myGt, sym, region, aligned)
    ensures Unfiled(p, addr)
  {
  }

  /** Visiting `addr` adds it to the dict of its own category ... */
  lemma FiledAsAdd(m: Table, done: set<int>, addr: int, myGt: Table, sym: Table, region: (int, int), aligned: int, c: Category)
    requires FiledAs(m, done, myGt, sym, region, aligned, c)
    requires addr in myGt && InRegion(addr, region) && CategoryOf(addr, myGt, sym, aligned) == c
    ensures FiledAs(m[addr := myGt[addr]], done + {addr}, myGt, sym, region, aligned, c)
  {
  }

  /** ... and leaves every other dict as it was. */
  lemma FiledAsSkip(m: Table, done: set<int>, addr: int, myGt: Table, sym: Table, region: (int, int), aligned: int, c: Category)
    requires FiledAs(m, done, myGt, sym, region, aligned, c)
    requires addr in myGt && !(InRegion(addr, region) && CategoryOf(addr, myGt, sym, aligned) == c)
    ensures FiledAs(m, done + {addr}, myGt, sym, region, aligned, c)
  {
  }

  /** A prediction at no true start: `fpSt` and `fpBd` grow and `other` records it. */
  function FileOther(p: Pass1, addr: int, predLen: int): Pass1 {
    p.(fpSt := p.fpSt + 1, fpBd := p.fpBd + 1, other := p.other[addr := predLen])
  }

  /** A boundary match: `tpSt` and `tpBd` grow and `match` records it. */
  function FileMatch(p: Pass1, addr: int, predLen: int): Pass1 {
    p.(tpSt := p.tpSt + 1, tpBd := p.tpBd + 1, matched := p.matched[addr := predLen])
  }

  /** A long prediction: a start hit but a boundary miss, with its excess and an empty buried list. */
  function FileLong(p: Pass1, addr: int, predLen: int, trueLen: int): Pass1 {
    p.(tpSt := p.tpSt + 1, longBd := p.longBd + 1, fpBd := p.fpBd + 1,
       longGuess := p.longGuess[addr := predLen], buried := p.buried[addr := []],
       longLen := p.longLen[addr := predLen - trueLen])
  }

  /** A short prediction: a start hit but a boundary miss, with its (negative) shortfall. */
  function FileShort(p: Pass1, addr: int, predLen: int, trueLen: int): Pass1 {
    p.(tpSt := p.tpSt + 1, shortBd := p.shortBd + 1, fpBd := p.fpBd + 1,
       short := p.short[addr := predLen], shortLen := p.shortLen[addr := predLen - trueLen])
  }

  /** A prediction filed nowhere yet. */
  predicate Unfiled(p: Pass1, addr: int) {
    addr !in p.matched && addr !in p.longGuess && addr !in p.short && addr !in p.other
  }

  lemma FileOtherKeeps(p: Pass1, addr: int, predLen: int, sym: Table)
    requires Pass1Deltas(p, sym) && Pass1Counts(p) && Unfiled(p, addr)
    ensures Pass1Deltas(FileOther(p, addr, predLen), sym) && Pass1Counts(FileOther(p, addr, predLen))
  {
  }

  lemma FileMatchKeeps(p: Pass1, addr: int, predLen: int, sym: Table)
    requires Pass1Deltas(p, sym) && Pass1Counts(p) && Unfiled(p, addr)
    ensures Pass1Deltas(FileMatch(p, addr, predLen), sym) && Pass1Counts(FileMatch(p, addr, predLen))
  {
  }

  lemma FileLongKeeps(p: Pass1, addr: int, sym: Table, predLen: int)
    requires Pass1Deltas(p, sym) && Pass1Counts(p) && Unfiled(p, addr)
    requires addr in sym && predLen > sym[addr]
    ensures Pass1Deltas(FileLong(p, addr, predLen, sym[addr]), sym) && Pass1Counts(FileLong(p, addr, predLen, sym[addr]))
  {
  }

  lemma FileShortKeeps(p: Pass1, addr: int, sym: Table, predLen: int)
    requires Pass1Deltas(p, sym) && Pass1Counts(p) && Unfiled(p, addr)
    requires addr in sym && predLen < sym[addr]
    ensures Pass1Deltas(FileShort(p, addr, predLen, sym[addr]), sym) && Pass1Counts(FileShort(p, addr, predLen, sym[addr]))
  {
  }

  /** The state after Pass 1 visits `addr`: unchanged outside the region, else filed under its category. */
  function Filed(p: Pass1, addr: int, myGt: Table, sym: Table, region: (int, int), aligned: int): Pass1
    requires addr in myGt
  {
    if !InRegion(addr, region) then p
    else match CategoryOf(addr, myGt, sym, aligned)
      case Other => FileOther(p, addr, myGt[addr])
      case Match => FileMatch(p, addr, myGt[addr])
      case Long => FileLong(p, addr, myGt[addr], sym[addr])
      case Short => FileShort(p, addr, myGt[addr], sym[addr])
  }

  lemma SkipKeeps(p: Pass1, done: set<int>, addr: int, myGt: Table, sym: Table, region: (int, int), aligned: int)
    requires addr in myGt && !InRegion(addr, region)
    requires Pass1Holds(p, done, myGt, sym, region, aligned)
    ensures Pass1Holds(p, done + {addr}, myGt, sym, region, aligned)
  {
    FiledAsSkip(p.matched, done, addr, myGt, sym, region, aligned, Match);
    FiledAsSkip(p.longGuess, done, addr, myGt, sym, region, aligned, Long);
    FiledAsSkip(p.short, done, addr, myGt, sym, region, aligned, Short);
    FiledAsSkip(p.other, done, addr, myGt, sym, region, aligned, Other);
  }

  lemma FileOtherHolds(p: Pass1, done: set<int>, addr: int, myGt: Table, sym: Table, region: (int, int), aligned: int)
    requires addr in myGt && addr !in done && InRegion(addr, region) && CategoryOf(addr, myGt, sym, aligned) == Other
    requires Pass1Holds(p, done, myGt, sym, region, aligned)
    ensures Pass1Holds(FileOther(p, addr, myGt[addr]), done + {addr}, myGt, sym, region, aligned)
  {
    NotYetFiled(p, done, addr, myGt, sym, region, aligned);
    FileOtherKeeps(p, addr, myGt[addr], sym);
    FiledAsSkip(p.matched, done, addr, myGt, sym, region, aligned, Match);
    FiledAsSkip(p.longGuess, done, addr, myGt, sym, region, aligned, Long);
    FiledAsSkip(p.short, done, addr, myGt, sym, region, aligned, Short);
    FiledAsAdd(p.other, done, addr, myGt, sym, region, aligned, Other);
  }

  lemma FileMatchHolds(p: Pass1, done: set<int>, addr: int, myGt: Table, sym: Table, region: (int, int), aligned: int)
    requires addr in myGt && addr !in done && InRegion(addr, region) && CategoryOf(addr, myGt, sym, aligned) == Match
    requires Pass1Holds(p, done, myGt, sym, region, aligned)
    ensures Pass1Holds(FileMatch(p, addr, myGt[addr]), done + {addr}, myGt, sym, region, aligned)
  {
    NotYetFiled(p, done, addr, myGt, sym, region, aligned);
    FileMatchKeeps(p, addr, myGt[addr], sym);
    FiledAsAdd(p.matched, done, addr, myGt, sym, region, aligned, Match);
    FiledAsSkip(p.longGuess, done, addr, myGt, sym, region, aligned, Long);
    FiledAsSkip(p.short, done, addr, myGt, sym, region, aligned, Short);
    FiledAsSkip(p.other, done, addr, myGt, sym, region, aligned, Other);
  }

  lemma FileLongHolds(p: Pass1, done: set<int>, addr: int, myGt: Table, sym: Table, region: (int, int), aligned: int)
    requires addr in myGt && addr !in done && InRegion(addr, region) && CategoryOf(addr, myGt, sym, aligned) == Long
    requires Pass1Holds(p, done, myGt, sym, region, aligned)
    ensures addr in sym
    ensures Pass1Holds(FileLong(p, addr, myGt[addr], sym[addr]), done + {addr}, myGt, sym, region, aligned)
  {
    NotYetFiled(p, done, addr, myGt, sym, region, aligned);
    FileLongKeeps(p, addr, sym, myGt[addr]);
    FiledAsSkip(p.matched, done, addr, myGt, sym, region, aligned, Match);
    FiledAsAdd(p.longGuess, done, addr, myGt, sym, region, aligned, Long);
    FiledAsSkip(p.short, done, addr, myGt, sym, region, aligned, Short);
    FiledAsSkip(p.other, done, addr, myGt, sym, region, aligned, Other);
  }

  lemma FileShortHolds(p: Pass1, done: set<int>, addr: int, myGt: Table, sym: Table, region: (int, int), aligned: int)
    requires addr in myGt && addr !in done && InRegion(addr, region) && CategoryOf(addr, myGt, sym, aligned) == Short
    requires Pass1Holds(p, done, myGt, sym, region, aligned)
    ensures addr in sym
    ensures Pass1Holds(FileShort(p, addr, myGt[addr], sym[addr]), done + {addr}, myGt, sym, region, aligned)
  {
    NotYetFiled(p, done, addr, myGt, sym, region, aligned);
    FileShortKeeps(p, addr, sym, myGt[addr]);
    FiledAsSkip(p.matched, done, addr, myGt, sym, region, aligned, Match);
    FiledAsSkip(p.longGuess, done, addr, myGt, sym, region, aligned, Long);
    FiledAsAdd(p.short, done, addr, myGt, sym, region, aligned, Short);
    FiledAsSkip(p.other, done, addr, myGt, sym, region, aligned, Other);
  }

  /** Filing one more prediction keeps everything Pass 1 promises. */
  lemma FiledKeeps(p: Pass1, done: set<int>, addr: int, myGt: Table, sym: Table, region: (int, int), aligned: int)
    requires addr in myGt && addr !in done
    requires Pass1Holds(p, done, myGt, sym, region, aligned)
    ensures Pass1Holds(Filed(p, addr, myGt, sym, region, aligned), done + {addr}, myGt, sym, region, aligned)
  {
    if !InRegion(addr, region) {
      SkipKeeps(p, done, addr, myGt, sym, region, aligned);
    } else {
      match CategoryOf(addr, myGt, sym, aligned)
      case Other => FileOtherHolds(p, done, addr, myGt, sym, region, aligned);
      case Match => FileMatchHolds(p, done, addr, myGt, sym, region, aligned);
      case Long => FileLongHolds(p, done, addr, myGt, sym, region, aligned);
      case Short => FileShortHolds(p, done, addr, myGt, sym, region, aligned);
    }
  }

  /** One iteration of Pass 1: file the prediction at `addr`. */
  method Visit(addr: int, p: Pass1, myGt: Table, sym: Table, region: (int, int), aligned: int)
    returns (p': Pass1)
    requires addr in myGt
    ensures p' == Filed(p, addr, myGt, sym, region, aligned)
  {
    if addr < region.0 || addr > region.1 {
      return p;
    }
    if addr !in sym {
      return FileOther(p, addr, myGt[addr]);
    }
    if sym[addr] == 0 || myGt[addr] == sym[addr] {
      p' := FileMatch(p, addr, myGt[addr]);
    } else if myGt[addr] > sym[addr] {
      p' := FileLong(p, addr, myGt[addr], sym[addr]);
    } else {
      if aligned == 4 && sym[addr] - myGt[addr] < 16 {
        p' := FileMatch(p, addr, myGt[addr]);
      } else if aligned == 2 && sym[addr] + 1 == myGt[addr] {
        // here myGt[addr] < sym[addr], so this tolerance is never taken
        assert false;
      } else if myGt[addr] + 1 == sym[addr] {
        p' := FileMatch(p, addr, myGt[addr]);
      } else {
        p' := FileShort(p, addr, myGt[addr], sym[addr]);
      }
    }
  }

  lemma Pass1Done(p: Pass1, myGt: Table, sym: Table, region: (int, int), aligned: int)
    requires Pass1Holds(p, myGt.Keys, myGt, sym, region, aligned)
    ensures p.matched == Classified(myGt.Keys, myGt, sym, region, aligned, Match)
    ensures p.longGuess == Classified(myGt.Keys, myGt, sym, region, aligned, Long)
    ensures p.short == Classified(myGt.Keys, myGt, sym, region, aligned, Short)
    ensures p.other == Classified(myGt.Keys, myGt, sym, region, aligned, Other)
  {
    FiledAsIsClassified(p.matched, myGt.Keys, myGt, sym, region, aligned, Match);
    FiledAsIsClassified(p.longGuess, myGt.Keys, myGt, sym, region, aligned, Long);
    FiledAsIsClassified(p.short, myGt.Keys, myGt, sym, region, aligned, Short);
    FiledAsIsClassified(p.other, myGt.Keys, myGt, sym, region, aligned, Other);
  }

  /** Pass 1 over every predicted address, in whatever order the dict yields them. */
  method ClassifyPredictions(myGt: Table, sym: Table, region: (int, int), aligned: int) returns (p: Pass1)
    ensures p.matched == Classified(myGt.Keys, myGt, sym, region, aligned, Match)
    ensures p.longGuess == Classified(myGt.Keys, myGt, sym, region, aligned, Long)
    ensures p.short == Classified(myGt.Keys, myGt, sym, region, aligned, Short)
    ensures p.other == Classified(myGt.Keys, myGt, sym, region, aligned, Other)
    ensures Pass1Deltas(p, sym) && Pass1Counts(p)
  {
    p := Pass1(map[], map[], map[], map[], map[], map[], map[], 0, 0, 0, 0, 0, 0);
    Pass1Start(myGt, sym, region, aligned);
    var todo := myGt.Keys;
    ghost var done: set<int> := {};
    while todo != {}
      invariant todo <= myGt.Keys && done == myGt.Keys - todo
      invariant Pass1Holds(p, done, myGt, sym, region, aligned)
      decreases |todo|
    {
      var addr := Pick(todo);
      FiledKeeps(p, done, addr, myGt, sym, region, aligned);
      p := Visit(addr, p, myGt, sym, region, aligned);
      todo := todo - {addr};
      done := done + {addr};
    }
    assert done == myGt.Keys;
    Pass1Done(p, myGt, sym, region, aligned);
  }

  /** Every in-region prediction is filed under exactly one category; no other prediction is filed. */
  lemma ClassifiedPartition(myGt: Table, sym: Table, region: (int, int), aligned: int, a: int)
    requires a in myGt
    ensures InRegion(a, region) ==>
      |set c | c in {Other, Match, Long, Short} && a in Classified(myGt.Keys, myGt, sym, region, aligned, c)| == 1
    ensures !InRegion(a, region) ==>
      forall c :: a !in Classified(myGt.Keys, myGt, sym, region, aligned, c)
  {
    if InRegion(a, region) {
      var k := CategoryOf(a, myGt, sym, aligned);
      assert (set c | c in {Other, Match, Long, Short} && a in Classified(myGt.Keys, myGt, sym, region, aligned, c)) == {k};
    }
  }

  /** Start-level hits cannot outnumber the ground truth: the three dicts are disjoint parts of `sym`. */
  lemma {:induction false} StartHitsBounded(myGt: Table, sym: Table, region: (int, int), aligned: int)
    ensures
      var matched := Classified(myGt.Keys, myGt, sym, region, aligned, Match);
      var longGuess := Classified(myGt.Keys, myGt, sym, region, aligned, Long);
      var short := Classified(myGt.Keys, myGt, sym, region, aligned, Short);
      |matched| + |longGuess| + |short| <= |sym|
  {
    var matched := Classified(myGt.Keys, myGt, sym, region, aligned, Match);
    var longGuess := Classified(myGt.Keys, myGt, sym, region, aligned, Long);
    var short := Classified(myGt.Keys, myGt, sym, region, aligned, Short);
    var hits := matched.Keys + longGuess.Keys + short.Keys;
    assert matched.Keys !! longGuess.Keys && (matched.Keys + longGuess.Keys) !! short.Keys;
    assert |hits| == |matched| + |longGuess| + |short|;
    assert hits <= sym.Keys;
    SubsetSize(hits, sym.Keys);
  }

  lemma {:induction false} SubsetSize(a: set<int>, b: set<int>)
    requires a <= b
    ensures |a| <= |b|
  {
    assert b == a + (b - a);
  }

  /** `missing` shares no address with the start-level hits: those are all predicted. */
  lemma MissingDisjointFromHits(myGt: Table, sym: Table, region: (int, int), aligned: int, c: Category)
    ensures Missing(myGt, sym).Keys !! Classified(myGt.Keys, myGt, sym, region, aligned, c).Keys
  {
  }

  // ----- pass 2 (scripts/countMatch.py:231-240) -----

  predicate NoDuplicates(s: seq<int>) {
    forall i, j :: 0 <= i < j < |s| ==> s[i] != s[j]
  }

  /**
    The buried lists: one per long prediction `x`, holding, once each, the
    missing addresses `m` with `x < m < x + longGuess[x]`.
  */
  ghost predicate BuriedLists(buried: map<int, seq<int>>, missing: set<int>, longGuess: Table) {
    && buried.Keys == longGuess.Keys
    && (forall x | x in buried :: NoDuplicates(buried[x]))
    && (forall x, m | x in buried :: m in buried[x] <==> m in missing && x < m < x + longGuess[x])
  }

  /** The summed length of all buried lists. */
  ghost function TotalLength(buried: map<int, seq<int>>): nat
    decreases |buried|
  {
    if buried == map[] then 0
    else
      var x := Least(buried.Keys);
      assert (buried - {x}).Keys == buried.Keys - {x};
      |buried[x]| + TotalLength(buried - {x})
  }

  lemma {:induction false} TotalLengthSplit(buried: map<int, seq<int>>, y: int)
    requires y in buried
    ensures TotalLength(buried) == |buried[y]| + TotalLength(buried - {y})
    decreases |buried|
  {
    var x := Least(buried.Keys);
    if x != y {
      assert (buried - {x}).Keys == buried.Keys - {x};
      assert (buried - {y}).Keys == buried.Keys - {y};
      TotalLengthSplit(buried - {x}, y);
      TotalLengthSplit(buried - {y}, x);
      assert buried - {x} - {y} == buried - {y} - {x};
    }
  }

  /** Appending one address to one buried list adds one to the total. */
  lemma TotalLengthAppend(buried: map<int, seq<int>>, x: int, m: int)
    requires x in buried
    ensures TotalLength(buried[x := buried[x] + [m]]) == TotalLength(buried) + 1
  {
    var b' := buried[x := buried[x] + [m]];
    TotalLengthSplit(buried, x);
    TotalLengthSplit(b', x);
    assert b' - {x} == buried - {x};
  }

  datatype Pass2 = Pass2(gt: nat, missingCount: nat, missing: Table, buried: map<int, seq<int>>, numBuried: nat)

  /** The inner loop of Pass 2: append `addr` to the list of every long prediction whose span holds it. */
  method Bury(addr: int, longGuess: Table, buried: map<int, seq<int>>, numBuried: nat)
    returns (buried': map<int, seq<int>>, numBuried': nat)
    requires buried.Keys == longGuess.Keys
    requires numBuried == TotalLength(buried)
    ensures buried'.Keys == longGuess.Keys
    ensures forall x | x in longGuess ::
      buried'[x] == if x < addr < x + longGuess[x] then buried[x] + [addr] else buried[x]
    ensures numBuried' == TotalLength(buried')
  {
    buried', numBuried' := buried, numBuried;
    var todo := longGuess.Keys;
    while todo != {}
      invariant todo <= longGuess.Keys
      invariant buried'.Keys == longGuess.Keys
      invariant forall x | x in longGuess ::
        buried'[x] == if x !in todo && x < addr < x + longGuess[x] then buried[x] + [addr] else buried[x]
      invariant numBuried' == TotalLength(buried')
      decreases |todo|
    {
      var longAddr := Pick(todo);
      todo := todo - {longAddr};
      if addr > longAddr && addr < longAddr + longGuess[longAddr] {
        TotalLengthAppend(buried', longAddr, addr);
        buried' := buried'[longAddr := buried'[longAddr] + [addr]];
        numBuried' := numBuried' + 1;
      }
    }
  }

  /** `missing` holds exactly the ground-truth entries among `done` that the tool did not report. */
  ghost predicate MissingSoFar(missing: Table, done: set<int>, myGt: Table, sym: Table) {
    forall a ::
      (a in missing <==> a in done && a in sym && a !in myGt) &&
      (a in missing ==> a in sym && missing[a] == sym[a])
  }

  lemma MissingAdd(missing: Table, done: set<int>, addr: int, myGt: Table, sym: Table)
    requires MissingSoFar(missing, done, myGt, sym) && addr !in done && addr in sym && addr !in myGt
    ensures addr !in missing
    ensures MissingSoFar(missing[addr := sym[addr]], done + {addr}, myGt, sym)
  {
  }

  lemma MissingSkip(missing: Table, done: set<int>, addr: int, myGt: Table, sym: Table)
    requires MissingSoFar(missing, done, myGt, sym) && addr in myGt
    ensures MissingSoFar(missing, done + {addr}, myGt, sym)
  {
  }

  lemma MissingAll(missing: Table, myGt: Table, sym: Table)
    requires MissingSoFar(missing, sym.Keys, myGt, sym)
    ensures missing == Missing(myGt, sym)
  {
    var all := Missing(myGt, sym);
    assert forall a :: a in missing <==> a in all;
    assert forall a :: a in missing ==> missing[a] == all[a];
  }

  /** Burying a newly missing address keeps the buried lists exact. */
  lemma BuryKeeps(b: map<int, seq<int>>, b': map<int, seq<int>>, missing: set<int>, addr: int, longGuess: Table)
    requires BuriedLists(b, missing, longGuess) && addr !in missing
    requires b'.Keys == longGuess.Keys
    requires forall x | x in longGuess :: b'[x] == if x < addr < x + longGuess[x] then b[x] + [addr] else b[x]
    ensures BuriedLists(b', missing + {addr}, longGuess)
  {
    forall x | x in b' ensures NoDuplicates(b'[x]) {
      assert addr !in b[x];
    }
  }

  lemma EmptyListsExact(b: map<int, seq<int>>, longGuess: Table)
    requires b.Keys == longGuess.Keys && forall x | x in b :: b[x] == []
    ensures BuriedLists(b, {}, longGuess) && TotalLength(b) == 0
  {
    EmptyListsTotal(b);
  }

  /** What Pass 2 has built after visiting the ground-truth addresses `done`. */
  ghost predicate Pass2Holds(q: Pass2, done: set<int>, myGt: Table, sym: Table, longGuess: Table) {
    && q.gt == |done|
    && MissingSoFar(q.missing, done, myGt, sym)
    && q.missingCount == |q.missing|
    && BuriedLists(q.buried, q.missing.Keys, longGuess)
    && q.numBuried == TotalLength(q.buried)
  }

  /** One iteration of Pass 2: count the ground-truth address `addr`, and if it was never reported, bury it. */
  method Tally(addr: int, q: Pass2, ghost done: set<int>, myGt: Table, sym: Table, longGuess: Table) returns (q': Pass2)
    requires addr in sym && addr !in done
    requires Pass2Holds(q, done, myGt, sym, longGuess)
    ensures Pass2Holds(q', done + {addr}, myGt, sym, longGuess)
  {
    q' := q.(gt := q.gt + 1);
    assert |done + {addr}| == |done| + 1;
    if addr !in myGt {
      MissingAdd(q.missing, done, addr, myGt, sym);
      var buried, numBuried := Bury(addr, longGuess, q.buried, q.numBuried);
      BuryKeeps(q.buried, buried, q.missing.Keys, addr, longGuess);
      assert q.missing[addr := sym[addr]].Keys == q.missing.Keys + {addr};
      q' := q'.(missingCount := q.missingCount + 1, missing := q.missing[addr := sym[addr]],
                buried := buried, numBuried := numBuried);
    } else {
      MissingSkip(q.missing, done, addr, myGt, sym);
    }
  }

  /** Moving one address from the work set to the done set keeps them complementary. */
  lemma TodoStep(todo: set<int>, done: set<int>, keys: set<int>, addr: int)
    requires todo <= keys && done == keys - todo && addr in todo
    ensures addr in keys && addr !in done
    ensures todo - {addr} <= keys && done + {addr} == keys - (todo - {addr})
    ensures |todo - {addr}| < |todo|
  {
  }

  lemma Pass2Start(myGt: Table, sym: Table, longGuess: Table, buried: map<int, seq<int>>)
    requires buried.Keys == longGuess.Keys && forall x | x in buried :: buried[x] == []
    ensures Pass2Holds(Pass2(0, 0, map[], buried, 0), {}, myGt, sym, longGuess)
  {
    EmptyListsExact(buried, longGuess);
  }

  lemma Pass2Done(q: Pass2, myGt: Table, sym: Table, longGuess: Table)
    requires Pass2Holds(q, sym.Keys, myGt, sym, longGuess)
    ensures q.gt == |sym|
    ensures q.missing == Missing(myGt, sym) && q.missingCount == |q.missing|
    ensures BuriedLists(q.buried, q.missing.Keys, longGuess)
    ensures q.numBuried == TotalLength(q.buried)
  {
    MissingAll(q.missing, myGt, sym);
  }

  /** Pass 2: count the ground truth, collect the missing entries, fill the buried lists. */
  method FindMissing(myGt: Table, sym: Table, longGuess: Table, buried: map<int, seq<int>>) returns (q: Pass2)
    requires buried.Keys == longGuess.Keys && forall x | x in buried :: buried[x] == []
    ensures q.gt == |sym|
    ensures q.missing == Missing(myGt, sym) && q.missingCount == |q.missing|
    ensures BuriedLists(q.buried, q.missing.Keys, longGuess)
    ensures q.numBuried == TotalLength(q.buried)
  {
    q := Pass2(0, 0, map[], buried, 0);
    Pass2Start(myGt, sym, longGuess, buried);
    var todo := sym.Keys;
    ghost var done: set<int> := {};
    while todo != {}
      invariant todo <= sym.Keys && done == sym.Keys - todo
      invariant Pass2Holds(q, done, myGt, sym, longGuess)
      decreases |todo|
    {
      var addr := Pick(todo);
      TodoStep(todo, done, sym.Keys, addr);
      q := Tally(addr, q, done, myGt, sym, longGuess);
      todo := todo - {addr};
      done := done + {addr};
    }
    assert done == sym.Keys;
    Pass2Done(q, myGt, sym, longGuess);
  }

  lemma {:induction false} EmptyListsTotal(b: map<int, seq<int>>)
    requires forall x | x in b :: b[x] == []
    ensures TotalLength(b) == 0
    decreases |b|
  {
    if b != map[] {
      var x := Least(b.Keys);
      assert (b - {x}).Keys == b.Keys - {x};
      EmptyListsTotal(b - {x});
    }
  }

  /** A buried address is missing, and lies strictly inside the long prediction's claimed span. */
  lemma BuriedAreMissing(buried: map<int, seq<int>>, myGt: Table, sym: Table, longGuess: Table, x: int, m: int)
    requires BuriedLists(buried, Missing(myGt, sym).Keys, longGuess)
    requires x in buried && m in buried[x]
    ensures m in sym && m !in myGt
    ensures x < m < x + longGuess[x]
  {
    assert m in Missing(myGt, sym);
  }
}
