/**
 * Step (b) of mergeLinesHelper: an index loop over the lines that reads
 * every `jest.mock(` line as a mock block. A line containing `=> ({` opens an
 * extended block that absorbs the following lines up to and including the
 * first one ending in `}));`. One block is kept per module, an extended one
 * in preference to a plain one, and every index the blocks cover is marked
 * as consumed.
 */
module MergeMocks {
  import opened JsText
  import opened LineScan
  import opened KeyedChoice
  import opened GroupImports

  const ExtendedOpen := "=> ({"
  const ExtendedClose := "}));"
  const NewLine := "\n"

  /** A mock block the loop reads: the lines first..end - 1, joined. */
  datatype Scanned = Scanned(target: Option<string>, code: string, extended: bool, first: nat, end: nat)

  /** `allLines[i].trim().endsWith('}));')` */
  predicate ClosesBlock(line: string) { EndsWith(Trim(line), ExtendedClose) }

  /** The first index from j on whose line closes an extended block, or the number of lines. */
  function CloseFrom(lines: seq<string>, j: nat): (k: nat)
    requires j <= |lines|
    ensures j <= k <= |lines|
    ensures forall m :: j <= m < k ==> !ClosesBlock(lines[m])
    ensures k < |lines| ==> ClosesBlock(lines[k])
    decreases |lines| - j
  {
    if j == |lines| || ClosesBlock(lines[j]) then j else CloseFrom(lines, j + 1)
  }

  /** Where an extended block opened at i ends (exclusive). */
  function ExtendedEnd(lines: seq<string>, i: nat): nat
    requires i < |lines|
  {
    var k := CloseFrom(lines, i + 1);
    if k < |lines| then k + 1 else |lines|
  }

  /**
   * The block that a `jest.mock(` line at i starts: the line alone, or, when
   * it opens an extended block, the lines from it through the first later
   * line that closes one (through the last line when none does).
   */
  function BlockAt(lines: seq<string>, i: nat): (s: Scanned)
    requires i < |lines|
    ensures s.first == i < s.end <= |lines|
    ensures !s.extended ==> s.end == i + 1
    ensures s.extended ==> forall m :: i < m < s.end - 1 ==> !ClosesBlock(lines[m])
    ensures s.extended ==> (s.end < |lines| ==> s.end > i + 1 && ClosesBlock(lines[s.end - 1]))
  {
    var extended := Contains(lines[i], ExtendedOpen);
    var end := if extended then ExtendedEnd(lines, i) else i + 1;
    Scanned(GreedyMockModule(lines[i]), Join(lines[i..end], NewLine), extended, i, end)
  }

  /** The blocks the loop reads from index i on. */
  function ScanFrom(lines: seq<string>, i: nat): seq<Scanned>
    decreases |lines| - i
  {
    if i >= |lines| then []
    else if !StartsWith(lines[i], JestMockCall) then ScanFrom(lines, i + 1)
    else [BlockAt(lines, i)] + ScanFrom(lines, BlockAt(lines, i).end)
  }

  /** The indices a through b - 1. */
  function Span(a: nat, b: nat): (r: set<nat>)
    ensures forall k :: k in r <==> a <= k < b
    decreases b
  {
    if b <= a then {} else Span(a, b - 1) + {b - 1}
  }

  /** What `mockByModule` stores. */
  datatype MockCode = MockCode(code: string, isExtended: bool)

  predicate IsExtendedCode(m: MockCode) { m.isExtended }

  predicate NeverReplaces(m: MockCode) { false }

  function CodeOf(m: MockCode): string { m.code }

  /** The blocks that name a module, keyed by it. */
  function MockEntriesOf(scans: seq<Scanned>): seq<Entry<MockCode>>
    decreases |scans|
  {
    if |scans| == 0 then []
    else
      var init := MockEntriesOf(scans[..|scans| - 1]);
      var s := scans[|scans| - 1];
      match s.target
      case Some(m) => init + [Entry(m, MockCode(s.code, s.extended))]
      case None => init
  }

  /** The indices the blocks cover. */
  function ConsumedOf(scans: seq<Scanned>): set<nat>
    decreases |scans|
  {
    if |scans| == 0 then {}
    else
      var s := scans[|scans| - 1];
      ConsumedOf(scans[..|scans| - 1]) + Span(s.first, s.end)
  }

  function MockChoiceOf(scans: seq<Scanned>): Chosen<MockCode>
  {
    ChooseAll(MockEntriesOf(scans), IsExtendedCode, NeverReplaces)
  }

  /** `Object.values(mockByModule).map(obj => obj.code).sort(...)` */
  function MergedMocks(lines: seq<string>): seq<string>
  {
    var scans := ScanFrom(lines, 0);
    var c := MockChoiceOf(scans);
    ChooseAllKeys(MockEntriesOf(scans), IsExtendedCode, NeverReplaces);
    Sort(Map(Values(c.keys, c.pick), CodeOf))
  }

  // ------------------------------------------------------------------
  // The loop

  method ScanMocks(allLines: seq<string>) returns (mocks: seq<string>, consumedMockLineIdxs: set<nat>)
    ensures mocks == MergedMocks(allLines)
    ensures consumedMockLineIdxs == ConsumedOf(ScanFrom(allLines, 0))
  {
    var keys: seq<string> := [];
    var mockByModule: map<string, MockCode> := map[];
    consumedMockLineIdxs := {};
    ghost var scanned: seq<Scanned> := [];
    var i := 0;
    while i < |allLines|
      invariant i <= |allLines| + 1
      invariant scanned + ScanFrom(allLines, i) == ScanFrom(allLines, 0)
      invariant Chosen(keys, mockByModule) == MockChoiceOf(scanned)
      invariant consumedMockLineIdxs == ConsumedOf(scanned)
      decreases |allLines| + 1 - i
    {
      var line := allLines[i];
      if StartsWith(line, JestMockCall) {
        i, keys, mockByModule, consumedMockLineIdxs, scanned :=
          TakeBlock(allLines, i, keys, mockByModule, consumedMockLineIdxs, scanned);
      }
      i := i + 1;
    }
    assert scanned == ScanFrom(allLines, 0);
    ChooseAllKeys(MockEntriesOf(scanned), IsExtendedCode, NeverReplaces);
    mocks := Sort(Map(Values(keys, mockByModule), CodeOf));
  }

  /** One pass of the loop on a line that opens a block: read it, store it, mark its lines consumed. */
  method TakeBlock(allLines: seq<string>, i0: nat, keys0: seq<string>, mockByModule0: map<string, MockCode>,
                   consumed0: set<nat>, ghost scanned0: seq<Scanned>)
    returns (i: nat, keys: seq<string>, mockByModule: map<string, MockCode>, consumed: set<nat>, ghost scanned: seq<Scanned>)
    requires i0 < |allLines| && StartsWith(allLines[i0], JestMockCall)
    requires scanned0 + ScanFrom(allLines, i0) == ScanFrom(allLines, 0)
    requires Chosen(keys0, mockByModule0) == MockChoiceOf(scanned0)
    requires consumed0 == ConsumedOf(scanned0)
    ensures i0 <= i <= |allLines|
    ensures scanned + ScanFrom(allLines, i + 1) == ScanFrom(allLines, 0)
    ensures Chosen(keys, mockByModule) == MockChoiceOf(scanned)
    ensures consumed == ConsumedOf(scanned)
  {
    var s;
    s, i := ReadBlock(allLines, i0);
    assert ScanFrom(allLines, i + 1) == ScanFrom(allLines, s.end);
    assert scanned0 + [s] + ScanFrom(allLines, i + 1) == ScanFrom(allLines, 0);
    scanned := scanned0 + [s];
    ScannedSnoc(scanned0, s);
    keys, mockByModule := keys0, mockByModule0;
    if s.target.Some? {
      keys, mockByModule := StoreMock(keys, mockByModule, s.target.value, MockCode(s.code, s.extended));
    }
    consumed := consumed0 + Span(s.first, s.end);
  }

  /** Storing a block under its module: when the module is new, or an extended block over a plain one. */
  method StoreMock(keys: seq<string>, mockByModule: map<string, MockCode>, mod: string, m: MockCode)
    returns (keys': seq<string>, mockByModule': map<string, MockCode>)
    ensures Chosen(keys', mockByModule') == Step(Chosen(keys, mockByModule), Entry(mod, m), IsExtendedCode, NeverReplaces)
  {
    keys', mockByModule' := keys, mockByModule;
    if mod !in mockByModule {
      keys' := keys + [mod];
      mockByModule' := mockByModule[mod := m];
    } else if m.isExtended && !mockByModule[mod].isExtended {
      mockByModule' := mockByModule[mod := m];
    }
  }

  /** One more block read. */
  lemma ScannedSnoc(scans: seq<Scanned>, s: Scanned)
    ensures ConsumedOf(scans + [s]) == ConsumedOf(scans) + Span(s.first, s.end)
    ensures MockChoiceOf(scans + [s])
            == match s.target
               case Some(m) => Step(MockChoiceOf(scans), Entry(m, MockCode(s.code, s.extended)), IsExtendedCode, NeverReplaces)
               case None => MockChoiceOf(scans)
  {
    assert (scans + [s])[..|scans|] == scans;
    if s.target.Some? {
      ChooseAllSnoc(MockEntriesOf(scans), Entry(s.target.value, MockCode(s.code, s.extended)), IsExtendedCode, NeverReplaces);
    }
  }

  /**
   * The block that starts at line start, and the index the loop stands on
   * once it has read it: start itself for a plain block, the closing line (or
   * the end) for an extended one.
   */
  method ReadBlock(allLines: seq<string>, start: nat) returns (s: Scanned, i: nat)
    requires start < |allLines| && StartsWith(allLines[start], JestMockCall)
    ensures start <= i <= |allLines|
    ensures s == BlockAt(allLines, start)
    ensures i + 1 == s.end || (i == |allLines| && s.end == |allLines|)
  {
    i := start;
    var line := allLines[i];
    var mod := GreedyMockModule(line);
    var block := [line];
    var isExtended := false;
    var end := start + 1;
    if Contains(line, ExtendedOpen) {
      block, i := Absorb(allLines, start);
      isExtended := true;
      end := ExtendedEnd(allLines, start);
    }
    s := Scanned(mod, Join(block, NewLine), isExtended, start, end);
  }

  /** The lines of an extended block opened at line start, and the index of its closing line. */
  method Absorb(allLines: seq<string>, start: nat) returns (block: seq<string>, i: nat)
    requires start < |allLines|
    ensures i == CloseFrom(allLines, start + 1)
    ensures block == allLines[start..ExtendedEnd(allLines, start)]
  {
    block := [allLines[start]];
    i := start + 1;
    while i < |allLines| && !ClosesBlock(allLines[i])
      invariant start + 1 <= i <= |allLines|
      invariant block == allLines[start..i]
      invariant CloseFrom(allLines, start + 1) == CloseFrom(allLines, i)
      decreases |allLines| - i
    {
      block := block + [allLines[i]];
      i := i + 1;
    }
    if i < |allLines| {
      block := block + [allLines[i]];
    }
  }

  // ------------------------------------------------------------------
  // What the scan reads

  /** A block read at a `jest.mock(` line. */
  predicate WellRead(lines: seq<string>, s: Scanned)
  {
    s.first < |lines| && StartsWith(lines[s.first], JestMockCall) && s == BlockAt(lines, s.first)
  }

  /** Every block read from i on starts at or after i. */
  lemma {:induction false} ScanFromAfter(lines: seq<string>, i: nat)
    ensures forall j :: 0 <= j < |ScanFrom(lines, i)| ==> i <= ScanFrom(lines, i)[j].first
    decreases |lines| - i
  {
    if i < |lines| {
      if !StartsWith(lines[i], JestMockCall) {
        ScanFromAfter(lines, i + 1);
      } else {
        ScanFromAfter(lines, BlockAt(lines, i).end);
      }
    }
  }

  /**
   * From i on, every block is read from a `jest.mock(` line: the line alone,
   * or the extended block that line opens.
   */
  lemma {:induction false} ScanFromWellRead(lines: seq<string>, i: nat)
    ensures forall j :: 0 <= j < |ScanFrom(lines, i)| ==> WellRead(lines, ScanFrom(lines, i)[j])
    decreases |lines| - i
  {
    if i < |lines| {
      if !StartsWith(lines[i], JestMockCall) {
        assert ScanFrom(lines, i) == ScanFrom(lines, i + 1);
        ScanFromWellRead(lines, i + 1);
      } else {
        var s := BlockAt(lines, i);
        var rest := ScanFrom(lines, s.end);
        ScanFromWellRead(lines, s.end);
        assert ScanFrom(lines, i) == [s] + rest;
        assert WellRead(lines, s);
      }
    }
  }

  /** Each block ends before the next one starts. */
  predicate Ordered(scans: seq<Scanned>)
  {
    forall j :: 0 <= j < |scans| - 1 ==> scans[j].end <= scans[j + 1].first
  }

  /** The blocks follow each other without overlapping. */
  lemma {:induction false} ScanFromOrdered(lines: seq<string>, i: nat)
    ensures Ordered(ScanFrom(lines, i))
    decreases |lines| - i
  {
    if i < |lines| {
      if !StartsWith(lines[i], JestMockCall) {
        assert ScanFrom(lines, i) == ScanFrom(lines, i + 1);
        ScanFromOrdered(lines, i + 1);
      } else {
        var s := BlockAt(lines, i);
        var rest := ScanFrom(lines, s.end);
        ScanFromOrdered(lines, s.end);
        ScanFromAfter(lines, s.end);
        var scans := [s] + rest;
        assert ScanFrom(lines, i) == scans;
        forall j | 0 <= j < |scans| - 1 ensures scans[j].end <= scans[j + 1].first {
          if j > 0 {
            assert scans[j] == rest[j - 1] && scans[j + 1] == rest[j];
            assert Ordered(rest);
            assert rest[j - 1].end <= rest[j].first;
          } else {
            assert scans[1] == rest[0];
            assert s.end <= rest[0].first;
          }
        }
      }
    }
  }

  /**
   * A line is consumed exactly when it lies inside some block: the
   * `jest.mock(` lines that start blocks and the lines extended blocks absorb.
   */
  lemma {:induction false} ConsumedMembers(scans: seq<Scanned>, k: nat)
    ensures k in ConsumedOf(scans) <==> exists j :: 0 <= j < |scans| && scans[j].first <= k < scans[j].end
    decreases |scans|
  {
    if |scans| > 0 {
      var init := scans[..|scans| - 1];
      ConsumedMembers(init, k);
      assert forall j :: 0 <= j < |init| ==> init[j] == scans[j];
    }
  }

  /** The stored blocks: one per module, keyed by it. */
  lemma MergedMocksPerModule(lines: seq<string>)
    ensures var scans := ScanFrom(lines, 0);
            var c := MockChoiceOf(scans);
            (forall k :: k in c.keys ==> k in c.pick)
            && |MergedMocks(lines)| == |Distinct(Map(MockEntriesOf(scans), KeyOf))|
            && Sorted(MergedMocks(lines))
  {
    var scans := ScanFrom(lines, 0);
    ValuesOfChoice(MockEntriesOf(scans), IsExtendedCode, NeverReplaces);
    var c := MockChoiceOf(scans);
    var codes := Map(Values(c.keys, c.pick), CodeOf);
    assert |multiset(Sort(codes))| == |multiset(codes)|;
  }

  /** The blocks that name module m, in order. */
  function ModuleMocks(scans: seq<Scanned>, m: string): seq<MockCode>
    decreases |scans|
  {
    if |scans| == 0 then []
    else
      var init := ModuleMocks(scans[..|scans| - 1], m);
      var s := scans[|scans| - 1];
      if s.target == Some(m) then init + [MockCode(s.code, s.extended)] else init
  }

  lemma {:induction false} MockEntriesAmong(scans: seq<Scanned>, m: string)
    ensures Among(MockEntriesOf(scans), m) == ModuleMocks(scans, m)
    decreases |scans|
  {
    if |scans| > 0 {
      var init := scans[..|scans| - 1];
      var s := scans[|scans| - 1];
      MockEntriesAmong(init, m);
      match s.target {
        case Some(n) =>
          var es := MockEntriesOf(init) + [Entry(n, MockCode(s.code, s.extended))];
          assert es[..|es| - 1] == MockEntriesOf(init);
        case None =>
      }
    }
  }

  /**
   * The block kept for a module is its first extended block, or else its
   * first block: an extended block replaces a plain one, never the reverse.
   */
  lemma KeptMockOfModule(lines: seq<string>, m: string)
    requires m in Map(MockEntriesOf(ScanFrom(lines, 0)), KeyOf)
    ensures var scans := ScanFrom(lines, 0);
            var c := MockChoiceOf(scans);
            var xs := ModuleMocks(scans, m);
            m in c.pick && |xs| > 0 && c.pick[m] == FirstBetterOrFirst(xs, IsExtendedCode)
            && c.pick[m].code in MergedMocks(lines)
  {
    var scans := ScanFrom(lines, 0);
    KeptMockChoice(scans, m);
    KeptMockListed(scans, m);
  }

  lemma KeptMockChoice(scans: seq<Scanned>, m: string)
    requires m in Map(MockEntriesOf(scans), KeyOf)
    ensures var c := MockChoiceOf(scans);
            var xs := ModuleMocks(scans, m);
            m in c.keys && m in c.pick && |xs| > 0 && c.pick[m] == FirstBetterOrFirst(xs, IsExtendedCode)
  {
    var es := MockEntriesOf(scans);
    var c := MockChoiceOf(scans);
    ValuesOfChoice(es, IsExtendedCode, NeverReplaces);
    DistinctMembers(Map(es, KeyOf));
    var xs := ModuleMocks(scans, m);
    MockEntriesAmong(scans, m);
    PreferWithoutOverwrite(xs, IsExtendedCode, NeverReplaces);
  }

  lemma KeptMockListed(scans: seq<Scanned>, m: string)
    requires var c := MockChoiceOf(scans); m in c.keys && m in c.pick
    ensures var c := MockChoiceOf(scans);
            (forall k :: k in c.keys ==> k in c.pick)
            && c.pick[m].code in Sort(Map(Values(c.keys, c.pick), CodeOf))
  {
    var c := MockChoiceOf(scans);
    ChooseAllKeys(MockEntriesOf(scans), IsExtendedCode, NeverReplaces);
    var i :| 0 <= i < |c.keys| && c.keys[i] == m;
    var codes := Map(Values(c.keys, c.pick), CodeOf);
    assert codes[i] == c.pick[m].code;
    assert codes[i] in multiset(codes);
    assert codes[i] in multiset(Sort(codes));
  }

  // ------------------------------------------------------------------
  // Step (c): the other lines

  /** Lines that are neither imports nor mocks, at indices no block consumed. */
  predicate Eligible(lines: seq<string>, consumed: set<nat>, idx: nat)
    requires idx < |lines|
  {
    !StartsWith(lines[idx], ImportSp) && !StartsWith(lines[idx], JestMockCall) && idx !in consumed
  }

  /** The eligible lines below n, in order. */
  function Candidates(lines: seq<string>, consumed: set<nat>, n: nat): seq<string>
    requires n <= |lines|
  {
    if n == 0 then []
    else
      var init := Candidates(lines, consumed, n - 1);
      if Eligible(lines, consumed, n - 1) then init + [lines[n - 1]] else init
  }

  /** `others`: the eligible lines, each once, in first-seen order. */
  function Others(lines: seq<string>, consumed: set<nat>): seq<string>
  {
    Distinct(Candidates(lines, consumed, |lines|))
  }

  method OtherLines(allLines: seq<string>, consumed: set<nat>) returns (others: seq<string>)
    ensures others == Others(allLines, consumed)
  {
    var otherSet: set<string> := {};
    others := [];
    for idx := 0 to |allLines|
      invariant others == Distinct(Candidates(allLines, consumed, idx))
      invariant forall l :: l in otherSet <==> l in others
    {
      var line := allLines[idx];
      DistinctSnoc(Candidates(allLines, consumed, idx), line);
      DistinctMembers(Candidates(allLines, consumed, idx));
      if !StartsWith(line, ImportSp) && !StartsWith(line, JestMockCall) && idx !in consumed {
        if line !in otherSet {
          otherSet := otherSet + {line};
          others := others + [line];
        }
      }
    }
  }

  lemma {:induction false} CandidatesMembers(lines: seq<string>, consumed: set<nat>, n: nat, x: string)
    requires n <= |lines|
    ensures x in Candidates(lines, consumed, n) <==> exists idx :: 0 <= idx < n && Eligible(lines, consumed, idx) && lines[idx] == x
  {
    if n > 0 {
      CandidatesMembers(lines, consumed, n - 1, x);
    }
  }

  /**
   * The other lines are the eligible ones, each once and in the order of their
   * first eligible occurrence; a line a block absorbed appears only if it also
   * occurs at an index no block consumed.
   */
  lemma OthersSpec(lines: seq<string>, consumed: set<nat>, x: string)
    ensures var os := Others(lines, consumed);
            NoDup(os) && FirstSeenOrder(os, Candidates(lines, consumed, |lines|))
            && (x in os <==> exists idx :: 0 <= idx < |lines| && Eligible(lines, consumed, idx) && lines[idx] == x)
  {
    var cs := Candidates(lines, consumed, |lines|);
    DistinctNoDup(cs);
    DistinctFirstSeen(cs);
    DistinctMembers(cs);
    CandidatesMembers(lines, consumed, |lines|, x);
  }
}
