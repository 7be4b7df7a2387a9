/**
 * The line automaton of normalizeSkeleton: the skeleton's lines are grouped
 * into import blocks and jest.mock blocks (each possibly spanning several
 * lines), every other line is dropped, and the clean skeleton is the import
 * blocks, then the mock blocks, separated by blank lines.
 *
 * `selfClosing` chooses between the code as written (false: the line that
 * opens an import block is never itself checked for a terminator) and the
 * corrected automaton (true: an opening line that already ends the
 * statement is a whole block).
 */
module Skeleton {
  import opened JsText
  import opened LineScan
  import opened ImportCleanup

  const ImportOpen := ImportKw + " "
  const Semi := ";"
  const SingleQuote := "'"
  const DoubleQuote := "\""
  const CallEnd := ");"
  const BlockSep := "\n\n"
  const Eol := "\n"

  // ------------------------------------------------------------------
  // Line classes (all on the trimmed line)

  predicate OpensImport(line: string)
  {
    StartsWith(Trim(line), ImportOpen)
  }

  predicate ClosesImport(line: string)
  {
    EndsStatement(Trim(line))
  }

  predicate OpensMock(line: string)
  {
    StartsWith(Trim(line), JestMockCall)
  }

  predicate ClosesMock(line: string)
  {
    EndsWith(Trim(line), CallEnd)
  }

  /** A line of the skeleton with the four tests the loop makes on it. */
  datatype Line = Line(text: string, opensImport: bool, closesImport: bool, opensMock: bool, closesMock: bool)

  function Classify(line: string): Line
  {
    Line(line, OpensImport(line), ClosesImport(line), OpensMock(line), ClosesMock(line))
  }

  function Texts(b: seq<Line>): (r: seq<string>)
    ensures |r| == |b| && forall k :: 0 <= k < |b| ==> r[k] == b[k].text
  {
    Map(b, (l: Line) => l.text)
  }

  // ------------------------------------------------------------------
  // The automaton, one line at a time

  /**
   * `currentBlock`, `inImport`, `inMock` and the blocks pushed so far, as
   * their lines: an import block is pushed as cleanImportBlock of its lines,
   * a mock block as its lines joined by newlines (ImportText, MockText).
   */
  datatype Grouping = Grouping(block: seq<Line>, inImport: bool, inMock: bool,
                               imports: seq<seq<Line>>, mocks: seq<seq<Line>>)

  const Start := Grouping([], false, false, [], [])

  /** The pending block, if any, pushed to its list; block and flags reset. */
  function Flush(g: Grouping): Grouping
  {
    if |g.block| == 0 then g
    else Grouping([], false, false,
                  if g.inImport then g.imports + [g.block] else g.imports,
                  if g.inMock then g.mocks + [g.block] else g.mocks)
  }

  function CloseImport(g: Grouping): Grouping
  {
    Grouping([], false, g.inMock, g.imports + [g.block], g.mocks)
  }

  function CloseMock(g: Grouping): Grouping
  {
    Grouping([], g.inImport, false, g.imports, g.mocks + [g.block])
  }

  function Push(g: Grouping, line: Line): Grouping
  {
    g.(block := g.block + [line])
  }

  /** One iteration of the loop over the lines. */
  function Step(g: Grouping, line: Line, selfClosing: bool): Grouping
  {
    if line.opensImport then
      var started := Flush(g).(block := [line], inImport := true);
      if selfClosing && line.closesImport then CloseImport(started) else started
    else if g.inImport && line.closesImport then CloseImport(Push(g, line))
    else if g.inImport then Push(g, line)
    else if line.opensMock then
      var started := Flush(g).(block := [line], inMock := true);
      if line.closesMock then CloseMock(started) else started
    else if g.inMock && line.closesMock then CloseMock(Push(g, line))
    else if g.inMock then Push(g, line)
    else g
  }

  /** The state after the lines from i on, starting in g. */
  function FoldFrom(g: Grouping, lines: seq<Line>, i: nat, selfClosing: bool): Grouping
    requires i <= |lines|
    decreases |lines| - i
  {
    if i == |lines| then g else FoldFrom(Step(g, lines[i], selfClosing), lines, i + 1, selfClosing)
  }

  /** The two block lists once the loop has run and the pending block is flushed. */
  function Grouped(lines: seq<Line>, selfClosing: bool): Grouping
  {
    Flush(FoldFrom(Start, lines, 0, selfClosing))
  }

  /** `cleanSkeletonContent`. */
  function SkeletonText(imports: seq<string>, mocks: seq<string>): string
  {
    Join(imports + mocks, BlockSep) + Eol
  }

  // ------------------------------------------------------------------
  // Reference: the blocks as segments of the input

  datatype Segment = ImportSeg(lines: seq<Line>) | MockSeg(lines: seq<Line>)

  /** Where an import block whose lines so far end before j stops. */
  function ImportRest(lines: seq<Line>, j: nat): (e: nat)
    requires j <= |lines|
    ensures j <= e <= |lines|
    decreases |lines| - j
  {
    if j == |lines| || lines[j].opensImport then j
    else if lines[j].closesImport then j + 1
    else ImportRest(lines, j + 1)
  }

  /** Where the import block opened by line i stops. */
  function ImportEnd(lines: seq<Line>, i: nat, selfClosing: bool): (e: nat)
    requires i < |lines|
    ensures i < e <= |lines|
  {
    if selfClosing && lines[i].closesImport then i + 1 else ImportRest(lines, i + 1)
  }

  /** Where a mock block whose lines so far end before j stops. */
  function MockRest(lines: seq<Line>, j: nat): (e: nat)
    requires j <= |lines|
    ensures j <= e <= |lines|
    decreases |lines| - j
  {
    if j == |lines| || lines[j].opensImport || lines[j].opensMock then j
    else if lines[j].closesMock then j + 1
    else MockRest(lines, j + 1)
  }

  /** Where the mock block opened by line i stops. */
  function MockEnd(lines: seq<Line>, i: nat): (e: nat)
    requires i < |lines|
    ensures i < e <= |lines|
  {
    if lines[i].closesMock then i + 1 else MockRest(lines, i + 1)
  }

  /** The blocks of lines[i..]: each opening line starts one, the lines between blocks are dropped. */
  function Segments(lines: seq<Line>, i: nat, selfClosing: bool): seq<Segment>
    requires i <= |lines|
    decreases |lines| - i
  {
    if i == |lines| then []
    else if lines[i].opensImport then
      var e := ImportEnd(lines, i, selfClosing);
      [ImportSeg(lines[i..e])] + Segments(lines, e, selfClosing)
    else if lines[i].opensMock then
      var e := MockEnd(lines, i);
      [MockSeg(lines[i..e])] + Segments(lines, e, selfClosing)
    else Segments(lines, i + 1, selfClosing)
  }

  function ImportSegs(segs: seq<Segment>): seq<seq<Line>>
    decreases |segs|
  {
    if |segs| == 0 then []
    else (if segs[0].ImportSeg? then [segs[0].lines] else []) + ImportSegs(segs[1..])
  }

  function MockSegs(segs: seq<Segment>): seq<seq<Line>>
    decreases |segs|
  {
    if |segs| == 0 then []
    else (if segs[0].MockSeg? then [segs[0].lines] else []) + MockSegs(segs[1..])
  }

  // ------------------------------------------------------------------
  // The automaton follows the segments

  function Closed(imports: seq<seq<Line>>, mocks: seq<seq<Line>>): Grouping
  {
    Grouping([], false, false, imports, mocks)
  }

  /** An open import block meets a line that opens another: the step is the one from the flushed state. */
  lemma OpenerFlushes(g: Grouping, line: Line, selfClosing: bool)
    requires |g.block| > 0 && !(g.inImport && g.inMock)
    requires line.opensImport || (!g.inImport && line.opensMock)
    ensures Step(g, line, selfClosing) == Step(Flush(g), line, selfClosing)
  {
  }

  /**
   * An import block holding lines[i..j] runs to ImportRest(lines, j): from
   * there on, the automaton goes as if that block had been pushed.
   */
  lemma {:induction false} ImportBlockRuns(lines: seq<Line>, i: nat, j: nat, imports: seq<seq<Line>>, mocks: seq<seq<Line>>, selfClosing: bool)
    requires i < j <= |lines|
    ensures var e := ImportRest(lines, j);
            Flush(FoldFrom(Grouping(lines[i..j], true, false, imports, mocks), lines, j, selfClosing))
            == Flush(FoldFrom(Closed(imports + [lines[i..e]], mocks), lines, e, selfClosing))
    decreases |lines| - j
  {
    var g := Grouping(lines[i..j], true, false, imports, mocks);
    if j < |lines| {
      if lines[j].opensImport {
        OpenerFlushes(g, lines[j], selfClosing);
      } else if lines[j].closesImport {
        assert lines[i..j] + [lines[j]] == lines[i..j + 1];
      } else {
        assert lines[i..j] + [lines[j]] == lines[i..j + 1];
        ImportBlockRuns(lines, i, j + 1, imports, mocks, selfClosing);
      }
    }
  }

  /** The same for a mock block holding lines[i..j]. */
  lemma {:induction false} MockBlockRuns(lines: seq<Line>, i: nat, j: nat, imports: seq<seq<Line>>, mocks: seq<seq<Line>>, selfClosing: bool)
    requires i < j <= |lines|
    ensures var e := MockRest(lines, j);
            Flush(FoldFrom(Grouping(lines[i..j], false, true, imports, mocks), lines, j, selfClosing))
            == Flush(FoldFrom(Closed(imports, mocks + [lines[i..e]]), lines, e, selfClosing))
    decreases |lines| - j
  {
    var g := Grouping(lines[i..j], false, true, imports, mocks);
    if j < |lines| {
      if lines[j].opensImport || lines[j].opensMock {
        OpenerFlushes(g, lines[j], selfClosing);
      } else if lines[j].closesMock {
        assert lines[i..j] + [lines[j]] == lines[i..j + 1];
      } else {
        assert lines[i..j] + [lines[j]] == lines[i..j + 1];
        MockBlockRuns(lines, i, j + 1, imports, mocks, selfClosing);
      }
    }
  }

  /** An import block opened by line i: the automaton goes on as if the segment had been pushed. */
  lemma ImportSegmentRuns(lines: seq<Line>, i: nat, imports: seq<seq<Line>>, mocks: seq<seq<Line>>, selfClosing: bool)
    requires i < |lines| && lines[i].opensImport
    ensures var e := ImportEnd(lines, i, selfClosing);
            Flush(FoldFrom(Closed(imports, mocks), lines, i, selfClosing))
            == Flush(FoldFrom(Closed(imports + [lines[i..e]], mocks), lines, e, selfClosing))
  {
    assert [lines[i]] == lines[i..i + 1];
    if !(selfClosing && lines[i].closesImport) {
      ImportBlockRuns(lines, i, i + 1, imports, mocks, selfClosing);
    }
  }

  lemma MockSegmentRuns(lines: seq<Line>, i: nat, imports: seq<seq<Line>>, mocks: seq<seq<Line>>, selfClosing: bool)
    requires i < |lines| && !lines[i].opensImport && lines[i].opensMock
    ensures var e := MockEnd(lines, i);
            Flush(FoldFrom(Closed(imports, mocks), lines, i, selfClosing))
            == Flush(FoldFrom(Closed(imports, mocks + [lines[i..e]]), lines, e, selfClosing))
  {
    assert [lines[i]] == lines[i..i + 1];
    if !lines[i].closesMock {
      MockBlockRuns(lines, i, i + 1, imports, mocks, selfClosing);
    }
  }

  lemma SegsCons(x: Segment, rest: seq<Segment>)
    ensures ImportSegs([x] + rest) == (if x.ImportSeg? then [x.lines] else []) + ImportSegs(rest)
    ensures MockSegs([x] + rest) == (if x.MockSeg? then [x.lines] else []) + MockSegs(rest)
  {
    assert ([x] + rest)[1..] == rest;
  }

  /** The segments from an import line: its block, then the segments after it. */
  lemma SegmentsAtImport(lines: seq<Line>, i: nat, selfClosing: bool)
    requires i < |lines| && lines[i].opensImport
    ensures var e := ImportEnd(lines, i, selfClosing);
            var segs := Segments(lines, i, selfClosing);
            ImportSegs(segs) == [lines[i..e]] + ImportSegs(Segments(lines, e, selfClosing))
            && MockSegs(segs) == MockSegs(Segments(lines, e, selfClosing))
  {
    var e := ImportEnd(lines, i, selfClosing);
    SegsCons(ImportSeg(lines[i..e]), Segments(lines, e, selfClosing));
  }

  lemma SegmentsAtMock(lines: seq<Line>, i: nat, selfClosing: bool)
    requires i < |lines| && !lines[i].opensImport && lines[i].opensMock
    ensures var e := MockEnd(lines, i);
            var segs := Segments(lines, i, selfClosing);
            ImportSegs(segs) == ImportSegs(Segments(lines, e, selfClosing))
            && MockSegs(segs) == [lines[i..e]] + MockSegs(Segments(lines, e, selfClosing))
  {
    var e := MockEnd(lines, i);
    SegsCons(MockSeg(lines[i..e]), Segments(lines, e, selfClosing));
  }

  lemma ImportCase(lines: seq<Line>, i: nat, imports: seq<seq<Line>>, mocks: seq<seq<Line>>, selfClosing: bool)
    requires i < |lines| && lines[i].opensImport
    requires var e := ImportEnd(lines, i, selfClosing);
             var segs := Segments(lines, e, selfClosing);
             Flush(FoldFrom(Closed(imports + [lines[i..e]], mocks), lines, e, selfClosing))
             == Closed(imports + [lines[i..e]] + ImportSegs(segs), mocks + MockSegs(segs))
    ensures var segs := Segments(lines, i, selfClosing);
            Flush(FoldFrom(Closed(imports, mocks), lines, i, selfClosing))
            == Closed(imports + ImportSegs(segs), mocks + MockSegs(segs))
  {
    ImportSegmentRuns(lines, i, imports, mocks, selfClosing);
    SegmentsAtImport(lines, i, selfClosing);
    var e := ImportEnd(lines, i, selfClosing);
    var b := lines[i..e];
    assert imports + [b] + ImportSegs(Segments(lines, e, selfClosing)) == imports + ([b] + ImportSegs(Segments(lines, e, selfClosing)));
  }

  lemma MockCase(lines: seq<Line>, i: nat, imports: seq<seq<Line>>, mocks: seq<seq<Line>>, selfClosing: bool)
    requires i < |lines| && !lines[i].opensImport && lines[i].opensMock
    requires var e := MockEnd(lines, i);
             var segs := Segments(lines, e, selfClosing);
             Flush(FoldFrom(Closed(imports, mocks + [lines[i..e]]), lines, e, selfClosing))
             == Closed(imports + ImportSegs(segs), mocks + [lines[i..e]] + MockSegs(segs))
    ensures var segs := Segments(lines, i, selfClosing);
            Flush(FoldFrom(Closed(imports, mocks), lines, i, selfClosing))
            == Closed(imports + ImportSegs(segs), mocks + MockSegs(segs))
  {
    var e := MockEnd(lines, i);
    var b := lines[i..e];
    var rest := Segments(lines, e, selfClosing);
    var segs := Segments(lines, i, selfClosing);
    SegmentsAtMock(lines, i, selfClosing);
    MockSegmentRuns(lines, i, imports, mocks, selfClosing);
    ClosedAfterMock(Flush(FoldFrom(Closed(imports, mocks), lines, i, selfClosing)), imports, mocks, b,
                    ImportSegs(rest), MockSegs(rest), ImportSegs(segs), MockSegs(segs));
  }

  /** The last step of MockCase, on the values alone. */
  lemma ClosedAfterMock(g: Grouping, imports: seq<seq<Line>>, mocks: seq<seq<Line>>, b: seq<Line>,
                        restImports: seq<seq<Line>>, restMocks: seq<seq<Line>>, allImports: seq<seq<Line>>, allMocks: seq<seq<Line>>)
    requires g == Closed(imports + restImports, mocks + [b] + restMocks)
    requires allImports == restImports && allMocks == [b] + restMocks
    ensures g == Closed(imports + allImports, mocks + allMocks)
  {
    assert mocks + [b] + restMocks == mocks + ([b] + restMocks);
  }

  lemma SkipCase(lines: seq<Line>, i: nat, imports: seq<seq<Line>>, mocks: seq<seq<Line>>, selfClosing: bool)
    requires i < |lines| && !lines[i].opensImport && !lines[i].opensMock
    requires var segs := Segments(lines, i + 1, selfClosing);
             Flush(FoldFrom(Closed(imports, mocks), lines, i + 1, selfClosing))
             == Closed(imports + ImportSegs(segs), mocks + MockSegs(segs))
    ensures var segs := Segments(lines, i, selfClosing);
            Flush(FoldFrom(Closed(imports, mocks), lines, i, selfClosing))
            == Closed(imports + ImportSegs(segs), mocks + MockSegs(segs))
  {
    assert Step(Closed(imports, mocks), lines[i], selfClosing) == Closed(imports, mocks);
  }

  /** From a state with no pending block, the automaton pushes exactly the segments' blocks. */
  lemma {:induction false} FoldSegments(lines: seq<Line>, i: nat, imports: seq<seq<Line>>, mocks: seq<seq<Line>>, selfClosing: bool)
    requires i <= |lines|
    ensures var segs := Segments(lines, i, selfClosing);
            Flush(FoldFrom(Closed(imports, mocks), lines, i, selfClosing))
            == Closed(imports + ImportSegs(segs), mocks + MockSegs(segs))
    decreases |lines| - i
  {
    if i < |lines| {
      if lines[i].opensImport {
        var e := ImportEnd(lines, i, selfClosing);
        FoldSegments(lines, e, imports + [lines[i..e]], mocks, selfClosing);
        ImportCase(lines, i, imports, mocks, selfClosing);
      } else if lines[i].opensMock {
        var e := MockEnd(lines, i);
        FoldSegments(lines, e, imports, mocks + [lines[i..e]], selfClosing);
        MockCase(lines, i, imports, mocks, selfClosing);
      } else {
        FoldSegments(lines, i + 1, imports, mocks, selfClosing);
        SkipCase(lines, i, imports, mocks, selfClosing);
      }
    }
  }

  /**
   * The import blocks are the segments opened by import lines, each cleaned,
   * and the mock blocks the segments opened by jest.mock lines, in input order.
   */
  lemma GroupedIsSegments(lines: seq<Line>, selfClosing: bool)
    ensures var segs := Segments(lines, 0, selfClosing);
            Grouped(lines, selfClosing).imports == ImportSegs(segs)
            && Grouped(lines, selfClosing).mocks == MockSegs(segs)
  {
    FoldSegments(lines, 0, [], [], selfClosing);
  }

  // ------------------------------------------------------------------
  // Block shapes

  /** Opening lines from i on. */
  function ImportOpeners(lines: seq<Line>, i: nat): nat
    requires i <= |lines|
    decreases |lines| - i
  {
    if i == |lines| then 0 else (if lines[i].opensImport then 1 else 0) + ImportOpeners(lines, i + 1)
  }

  lemma {:induction false} ImportRestOpeners(lines: seq<Line>, j: nat)
    requires j <= |lines|
    ensures ImportOpeners(lines, ImportRest(lines, j)) == ImportOpeners(lines, j)
    decreases |lines| - j
  {
    if j < |lines| && !lines[j].opensImport && !lines[j].closesImport {
      ImportRestOpeners(lines, j + 1);
    }
  }

  lemma {:induction false} MockRestOpeners(lines: seq<Line>, j: nat)
    requires j <= |lines|
    ensures ImportOpeners(lines, MockRest(lines, j)) == ImportOpeners(lines, j)
    decreases |lines| - j
  {
    if j < |lines| && !lines[j].opensImport && !lines[j].opensMock && !lines[j].closesMock {
      MockRestOpeners(lines, j + 1);
    }
  }

  /** Each import line opens exactly one import block: there are as many blocks as such lines. */
  lemma {:induction false} ImportBlockCount(lines: seq<Line>, i: nat, selfClosing: bool)
    requires i <= |lines|
    ensures |ImportSegs(Segments(lines, i, selfClosing))| == ImportOpeners(lines, i)
    decreases |lines| - i
  {
    if i < |lines| {
      if lines[i].opensImport {
        var e := ImportEnd(lines, i, selfClosing);
        SegmentsAtImport(lines, i, selfClosing);
        ImportBlockCount(lines, e, selfClosing);
        if !(selfClosing && lines[i].closesImport) {
          ImportRestOpeners(lines, i + 1);
        }
      } else if lines[i].opensMock {
        var e := MockEnd(lines, i);
        SegmentsAtMock(lines, i, selfClosing);
        ImportBlockCount(lines, e, selfClosing);
        if !lines[i].closesMock {
          MockRestOpeners(lines, i + 1);
        }
      } else {
        ImportBlockCount(lines, i + 1, selfClosing);
      }
    }
  }

  /** The shape of an import block: an import line, then lines that open no import, closed only by its last line. */
  predicate ImportShaped(b: seq<Line>)
  {
    |b| > 0 && b[0].opensImport
    && (forall k :: 1 <= k < |b| ==> !b[k].opensImport)
    && (forall k :: 1 <= k < |b| - 1 ==> !b[k].closesImport)
  }

  /** A mock block: a jest.mock line, then lines that open nothing, closed only by its last line. */
  predicate MockShaped(b: seq<Line>)
  {
    |b| > 0 && b[0].opensMock && !b[0].opensImport
    && (forall k :: 1 <= k < |b| ==> !b[k].opensImport && !b[k].opensMock)
    && (forall k :: 0 <= k < |b| - 1 ==> !b[k].closesMock)
  }

  lemma {:induction false} ImportRestShape(lines: seq<Line>, i: nat, j: nat)
    requires i < j <= |lines| && ImportShaped(lines[i..j]) && (j - i > 1 ==> !lines[j - 1].closesImport)
    ensures ImportShaped(lines[i..ImportRest(lines, j)])
    decreases |lines| - j
  {
    if j < |lines| && !lines[j].opensImport {
      var b := lines[i..j + 1];
      assert forall k :: 0 <= k < j - i ==> b[k] == lines[i..j][k];
      if !lines[j].closesImport {
        ImportRestShape(lines, i, j + 1);
      }
    }
  }

  lemma {:induction false} MockRestShape(lines: seq<Line>, i: nat, j: nat)
    requires i < j <= |lines| && MockShaped(lines[i..j]) && !lines[j - 1].closesMock
    ensures MockShaped(lines[i..MockRest(lines, j)])
    decreases |lines| - j
  {
    if j < |lines| && !lines[j].opensImport && !lines[j].opensMock {
      var b := lines[i..j + 1];
      assert forall k :: 0 <= k < j - i ==> b[k] == lines[i..j][k];
      if !lines[j].closesMock {
        MockRestShape(lines, i, j + 1);
      }
    }
  }

  predicate AllImportShaped(bs: seq<seq<Line>>)
  {
    forall k :: 0 <= k < |bs| ==> ImportShaped(bs[k])
  }

  predicate AllMockShaped(bs: seq<seq<Line>>)
  {
    forall k :: 0 <= k < |bs| ==> MockShaped(bs[k])
  }

  lemma ImportShapedCons(b: seq<Line>, bs: seq<seq<Line>>)
    requires ImportShaped(b) && AllImportShaped(bs)
    ensures AllImportShaped([b] + bs)
  {
    assert forall k :: 1 <= k < |bs| + 1 ==> ([b] + bs)[k] == bs[k - 1];
  }

  lemma MockShapedCons(b: seq<Line>, bs: seq<seq<Line>>)
    requires MockShaped(b) && AllMockShaped(bs)
    ensures AllMockShaped([b] + bs)
  {
    assert forall k :: 1 <= k < |bs| + 1 ==> ([b] + bs)[k] == bs[k - 1];
  }

  lemma ImportSegmentShaped(lines: seq<Line>, i: nat, selfClosing: bool)
    requires i < |lines| && lines[i].opensImport
    ensures ImportShaped(lines[i..ImportEnd(lines, i, selfClosing)])
  {
    assert lines[i..i + 1] == [lines[i]];
    if !(selfClosing && lines[i].closesImport) {
      ImportRestShape(lines, i, i + 1);
    }
  }

  lemma MockSegmentShaped(lines: seq<Line>, i: nat)
    requires i < |lines| && !lines[i].opensImport && lines[i].opensMock
    ensures MockShaped(lines[i..MockEnd(lines, i)])
  {
    assert lines[i..i + 1] == [lines[i]];
    if !lines[i].closesMock {
      MockRestShape(lines, i, i + 1);
    }
  }

  /** Every import block has the import shape. */
  lemma {:induction false} ImportBlocksShaped(lines: seq<Line>, i: nat, selfClosing: bool)
    requires i <= |lines|
    ensures AllImportShaped(ImportSegs(Segments(lines, i, selfClosing)))
    decreases |lines| - i
  {
    if i < |lines| {
      if lines[i].opensImport {
        var e := ImportEnd(lines, i, selfClosing);
        SegmentsAtImport(lines, i, selfClosing);
        ImportBlocksShaped(lines, e, selfClosing);
        ImportSegmentShaped(lines, i, selfClosing);
        ImportShapedCons(lines[i..e], ImportSegs(Segments(lines, e, selfClosing)));
      } else if lines[i].opensMock {
        SegmentsAtMock(lines, i, selfClosing);
        ImportBlocksShaped(lines, MockEnd(lines, i), selfClosing);
      } else {
        ImportBlocksShaped(lines, i + 1, selfClosing);
      }
    }
  }

  /** Every mock block has the mock shape. */
  lemma {:induction false} MockBlocksShaped(lines: seq<Line>, i: nat, selfClosing: bool)
    requires i <= |lines|
    ensures AllMockShaped(MockSegs(Segments(lines, i, selfClosing)))
    decreases |lines| - i
  {
    if i < |lines| {
      if lines[i].opensImport {
        SegmentsAtImport(lines, i, selfClosing);
        MockBlocksShaped(lines, ImportEnd(lines, i, selfClosing), selfClosing);
      } else if lines[i].opensMock {
        var e := MockEnd(lines, i);
        SegmentsAtMock(lines, i, selfClosing);
        MockBlocksShaped(lines, e, selfClosing);
        MockSegmentShaped(lines, i);
        MockShapedCons(lines[i..e], MockSegs(Segments(lines, e, selfClosing)));
      } else {
        MockBlocksShaped(lines, i + 1, selfClosing);
      }
    }
  }

  // ------------------------------------------------------------------
  // Printed blocks

  function Tags(lines: seq<string>): seq<Line>
  {
    Map(lines, Classify)
  }

  /** An import block as pushed: cleanImportBlock of its lines. */
  function ImportText(b: seq<Line>): string
  {
    CleanImportBlock(Texts(b))
  }

  /** A mock block as pushed: its lines joined by newlines. */
  function MockText(b: seq<Line>): string
  {
    Join(Texts(b), Eol)
  }

  /** The import blocks and mock blocks of the skeleton's text. */
  function SkeletonBlocks(content: string, selfClosing: bool): (seq<string>, seq<string>)
  {
    var segs := Segments(Tags(Split(content, '\n')), 0, selfClosing);
    (Map(ImportSegs(segs), ImportText), Map(MockSegs(segs), MockText))
  }

  // ------------------------------------------------------------------
  // The loop

  /** The loop's variables hold the state g, with blocks printed. */
  predicate Mirrors(currentBlock: seq<string>, inImport: bool, inMock: bool,
                    importBlocks: seq<string>, mockBlocks: seq<string>, g: Grouping)
  {
    currentBlock == Texts(g.block) && inImport == g.inImport && inMock == g.inMock
    && importBlocks == Map(g.imports, ImportText) && mockBlocks == Map(g.mocks, MockText)
  }

  /** The `if (currentBlock.length)` flush. */
  method FlushBlock(currentBlock: seq<string>, inImport: bool, inMock: bool,
                    importBlocks: seq<string>, mockBlocks: seq<string>, ghost g: Grouping)
    returns (currentBlock': seq<string>, inImport': bool, inMock': bool, importBlocks': seq<string>, mockBlocks': seq<string>)
    requires Mirrors(currentBlock, inImport, inMock, importBlocks, mockBlocks, g)
    ensures Mirrors(currentBlock', inImport', inMock', importBlocks', mockBlocks', Flush(g))
  {
    currentBlock', inImport', inMock', importBlocks', mockBlocks' := currentBlock, inImport, inMock, importBlocks, mockBlocks;
    if |currentBlock| > 0 {
      if inImport {
        importBlocks' := importBlocks + [CleanImportBlock(currentBlock)];
        MapAppend(g.imports, [g.block], ImportText);
      }
      if inMock {
        mockBlocks' := mockBlocks + [Join(currentBlock, Eol)];
        MapAppend(g.mocks, [g.block], MockText);
      }
      currentBlock' := [];
      inImport' := false;
      inMock' := false;
    }
  }

  lemma MirrorPush(currentBlock: seq<string>, inImport: bool, inMock: bool,
                   importBlocks: seq<string>, mockBlocks: seq<string>, g: Grouping, line: Line)
    requires Mirrors(currentBlock, inImport, inMock, importBlocks, mockBlocks, g)
    ensures Mirrors(currentBlock + [line.text], inImport, inMock, importBlocks, mockBlocks, Push(g, line))
  {
    MapAppend(g.block, [line], (l: Line) => l.text);
  }

  lemma MirrorOpen(currentBlock: seq<string>, inImport: bool, inMock: bool,
                   importBlocks: seq<string>, mockBlocks: seq<string>, f: Grouping, tag: Line, isImport: bool)
    requires Mirrors(currentBlock, inImport, inMock, importBlocks, mockBlocks, f)
    ensures isImport ==> Mirrors([tag.text], true, inMock, importBlocks, mockBlocks, f.(block := [tag], inImport := true))
    ensures !isImport ==> Mirrors([tag.text], inImport, true, importBlocks, mockBlocks, f.(block := [tag], inMock := true))
  {
    assert Texts([tag]) == [tag.text];
  }

  lemma MirrorCloseImport(currentBlock: seq<string>, inImport: bool, inMock: bool,
                          importBlocks: seq<string>, mockBlocks: seq<string>, g: Grouping)
    requires Mirrors(currentBlock, inImport, inMock, importBlocks, mockBlocks, g)
    ensures Mirrors([], false, inMock, importBlocks + [CleanImportBlock(currentBlock)], mockBlocks, CloseImport(g))
  {
    MapAppend(g.imports, [g.block], ImportText);
  }

  lemma MirrorCloseMock(currentBlock: seq<string>, inImport: bool, inMock: bool,
                        importBlocks: seq<string>, mockBlocks: seq<string>, g: Grouping)
    requires Mirrors(currentBlock, inImport, inMock, importBlocks, mockBlocks, g)
    ensures Mirrors([], inImport, false, importBlocks, mockBlocks + [Join(currentBlock, Eol)], CloseMock(g))
  {
    MapAppend(g.mocks, [g.block], MockText);
  }

  /** An import line: flush, then open an import block with it (closed at once when `closes`). */
  method OpenImportBlock(line: string, closes: bool, currentBlock: seq<string>, inImport: bool, inMock: bool,
                         importBlocks: seq<string>, mockBlocks: seq<string>, ghost g: Grouping, ghost tag: Line)
    returns (currentBlock': seq<string>, inImport': bool, inMock': bool, importBlocks': seq<string>, mockBlocks': seq<string>)
    requires Mirrors(currentBlock, inImport, inMock, importBlocks, mockBlocks, g) && tag.text == line
    ensures var started := Flush(g).(block := [tag], inImport := true);
            Mirrors(currentBlock', inImport', inMock', importBlocks', mockBlocks', if closes then CloseImport(started) else started)
  {
    currentBlock', inImport', inMock', importBlocks', mockBlocks' := FlushBlock(currentBlock, inImport, inMock, importBlocks, mockBlocks, g);
    ghost var started := Flush(g).(block := [tag], inImport := true);
    MirrorOpen(currentBlock', inImport', inMock', importBlocks', mockBlocks', Flush(g), tag, true);
    currentBlock' := [line];
    inImport' := true;
    if closes {
      MirrorCloseImport(currentBlock', inImport', inMock', importBlocks', mockBlocks', started);
      importBlocks' := importBlocks' + [CleanImportBlock(currentBlock')];
      currentBlock' := [];
      inImport' := false;
    }
  }

  /** A jest.mock line: flush, then open a mock block with it (closed at once when it ends the call). */
  method OpenMockBlock(line: string, closes: bool, currentBlock: seq<string>, inImport: bool, inMock: bool,
                       importBlocks: seq<string>, mockBlocks: seq<string>, ghost g: Grouping, ghost tag: Line)
    returns (currentBlock': seq<string>, inImport': bool, inMock': bool, importBlocks': seq<string>, mockBlocks': seq<string>)
    requires Mirrors(currentBlock, inImport, inMock, importBlocks, mockBlocks, g) && tag.text == line
    ensures var started := Flush(g).(block := [tag], inMock := true);
            Mirrors(currentBlock', inImport', inMock', importBlocks', mockBlocks', if closes then CloseMock(started) else started)
  {
    currentBlock', inImport', inMock', importBlocks', mockBlocks' := FlushBlock(currentBlock, inImport, inMock, importBlocks, mockBlocks, g);
    ghost var started := Flush(g).(block := [tag], inMock := true);
    MirrorOpen(currentBlock', inImport', inMock', importBlocks', mockBlocks', Flush(g), tag, false);
    currentBlock' := [line];
    inMock' := true;
    if closes {
      MirrorCloseMock(currentBlock', inImport', inMock', importBlocks', mockBlocks', started);
      mockBlocks' := mockBlocks' + [Join(currentBlock', Eol)];
      currentBlock' := [];
      inMock' := false;
    }
  }

  predicate EndsStatement(trimmed: string)
  {
    EndsWith(trimmed, Semi) || EndsWith(trimmed, SingleQuote) || EndsWith(trimmed, DoubleQuote)
  }

  /**
   * One pass of the loop body on `line`: as written when `selfClosing` is
   * false, where the opening import line is never checked for a terminator.
   */
  method GroupLine(line: string, selfClosing: bool, currentBlock: seq<string>, inImport: bool, inMock: bool,
                   importBlocks: seq<string>, mockBlocks: seq<string>, ghost g: Grouping)
    returns (currentBlock': seq<string>, inImport': bool, inMock': bool, importBlocks': seq<string>, mockBlocks': seq<string>)
    requires Mirrors(currentBlock, inImport, inMock, importBlocks, mockBlocks, g)
    ensures Mirrors(currentBlock', inImport', inMock', importBlocks', mockBlocks', Step(g, Classify(line), selfClosing))
  {
    currentBlock', inImport', inMock', importBlocks', mockBlocks' := currentBlock, inImport, inMock, importBlocks, mockBlocks;
    var trimmed := Trim(line);
    ghost var tag := Classify(line);
    if StartsWith(trimmed, ImportOpen) {
      currentBlock', inImport', inMock', importBlocks', mockBlocks' :=
        OpenImportBlock(line, selfClosing && EndsStatement(trimmed), currentBlock, inImport, inMock, importBlocks, mockBlocks, g, tag);
    } else if inImport && EndsStatement(trimmed) {
      MirrorPush(currentBlock, inImport, inMock, importBlocks, mockBlocks, g, tag);
      MirrorCloseImport(currentBlock + [line], inImport, inMock, importBlocks, mockBlocks, Push(g, tag));
      importBlocks' := importBlocks + [CleanImportBlock(currentBlock + [line])];
      currentBlock' := [];
      inImport' := false;
    } else if inImport {
      MirrorPush(currentBlock, inImport, inMock, importBlocks, mockBlocks, g, tag);
      currentBlock' := currentBlock + [line];
    } else if StartsWith(trimmed, JestMockCall) {
      currentBlock', inImport', inMock', importBlocks', mockBlocks' :=
        OpenMockBlock(line, EndsWith(trimmed, CallEnd), currentBlock, inImport, inMock, importBlocks, mockBlocks, g, tag);
    } else if inMock && EndsWith(trimmed, CallEnd) {
      MirrorPush(currentBlock, inImport, inMock, importBlocks, mockBlocks, g, tag);
      MirrorCloseMock(currentBlock + [line], inImport, inMock, importBlocks, mockBlocks, Push(g, tag));
      mockBlocks' := mockBlocks + [Join(currentBlock + [line], Eol)];
      currentBlock' := [];
      inMock' := false;
    } else if inMock {
      MirrorPush(currentBlock, inImport, inMock, importBlocks, mockBlocks, g, tag);
      currentBlock' := currentBlock + [line];
    }
  }

  /**
   * normalizeSkeleton after the path and quote rewriting: the import blocks
   * and mock blocks of the text, their Sets, and the clean skeleton. With
   * `selfClosing` false this is the loop as written; with it true, the
   * corrected automaton, where an import line that ends the statement is a
   * block by itself.
   */
  method NormalizeSkeleton(content: string, selfClosing: bool)
    returns (importLines: seq<string>, mockLines: seq<string>, cleanSkeletonContent: string)
    ensures var (imports, mocks) := SkeletonBlocks(content, selfClosing);
            importLines == Distinct(imports) && mockLines == Distinct(mocks)
            && cleanSkeletonContent == SkeletonText(imports, mocks)
  {
    var lines := Split(content, '\n');
    ghost var tags := Tags(lines);
    var importBlocks: seq<string> := [];
    var mockBlocks: seq<string> := [];
    var currentBlock: seq<string> := [];
    var inImport := false;
    var inMock := false;
    ghost var g := Start;
    for j := 0 to |lines|
      invariant FoldFrom(g, tags, j, selfClosing) == FoldFrom(Start, tags, 0, selfClosing)
      invariant Mirrors(currentBlock, inImport, inMock, importBlocks, mockBlocks, g)
    {
      currentBlock, inImport, inMock, importBlocks, mockBlocks := GroupLine(lines[j], selfClosing, currentBlock, inImport, inMock, importBlocks, mockBlocks, g);
      assert tags[j] == Classify(lines[j]);
      g := Step(g, tags[j], selfClosing);
    }
    currentBlock, inImport, inMock, importBlocks, mockBlocks := FlushBlock(currentBlock, inImport, inMock, importBlocks, mockBlocks, g);
    GroupedIsSegments(tags, selfClosing);
    importLines := Distinct(importBlocks);
    mockLines := Distinct(mockBlocks);
    cleanSkeletonContent := Join(importBlocks + mockBlocks, BlockSep) + Eol;
  }

  // ------------------------------------------------------------------
  // A one-line import followed by a jest.mock line

  /**
   * As written: the import line is not checked for a terminator, so a mock
   * line after it that ends in `;` closes the import block as its last
   * line; no mock block is produced.
   */
  lemma MockSwallowedAsWritten(a: Line, m: Line)
    requires a.opensImport && a.closesImport && !m.opensImport && m.opensMock && m.closesMock && m.closesImport
    ensures Grouped([a, m], false).imports == [[a, m]]
    ensures Grouped([a, m], false).mocks == []
  {
    var lines := [a, m];
    var g1 := Step(Start, a, false);
    assert g1 == Grouping([a], true, false, [], []);
    var g2 := Step(g1, m, false);
    assert [a] + [m] == [a, m];
    assert g2 == Closed([[a, m]], []);
    assert FoldFrom(g2, lines, 2, false) == g2;
    assert FoldFrom(g1, lines, 1, false) == g2;
  }

  /** Corrected: the import line is a block by itself and the mock line opens its own block. */
  lemma MockKept(a: Line, m: Line)
    requires a.opensImport && a.closesImport && !m.opensImport && m.opensMock && m.closesMock
    ensures Grouped([a, m], true).imports == [[a]]
    ensures Grouped([a, m], true).mocks == [[m]]
  {
    var lines := [a, m];
    var g1 := Step(Start, a, true);
    assert g1 == Closed([[a]], []);
    var g2 := Step(g1, m, true);
    assert g2 == Closed([[a]], [[m]]);
    assert FoldFrom(g2, lines, 2, true) == g2;
    assert FoldFrom(g1, lines, 1, true) == g2;
  }

  const SampleImport := ImportOpen + "A from \"../A\"" + Semi
  const SampleMock := JestMockCall + "\"../A\"" + CallEnd

  /** Two lines as jest-test-gen writes them meet the conditions above. */
  lemma SampleLines()
    ensures var a := Classify(SampleImport);
            var m := Classify(SampleMock);
            a.opensImport && a.closesImport && !m.opensImport && m.opensMock && m.closesMock && m.closesImport
  {
    assert Trim(SampleImport) == SampleImport;
    assert Trim(SampleMock) == SampleMock;
    assert SampleImport[..|ImportOpen|] == ImportOpen;
    assert SampleImport[|SampleImport| - 1..] == Semi;
    assert SampleMock[..|JestMockCall|] == JestMockCall;
    assert SampleMock[|SampleMock| - 2..] == CallEnd;
    assert SampleMock[..|ImportOpen|] != ImportOpen by {
      assert SampleMock[0] == 'j';
    }
  }
}
