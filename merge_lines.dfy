/**
 * mergeLines and its two stages: groupHelper, which prints the grouped
 * imports, the grouped mocks and the sorted testing-library lines and then
 * keeps each trimmed non-empty line once; and mergeLinesHelper, which merges
 * that text into the skeleton's content as imports, then mocks, then the
 * other lines.
 */
module MergeLines {
  import opened JsText
  import GroupImports
  import GroupMocks
  import MergeImports
  import MergeMocks

  /** The optional Sets of `linesAdded`; a missing one is empty. */
  datatype LinesAdded = LinesAdded(
    importedLines: seq<string>,
    mockedLines: seq<string>,
    testingLibraryLines: seq<string>,
    globalMockLines: seq<string>)

  const Eol := "\n"

  // ------------------------------------------------------------------
  // groupHelper

  /** One group of lines, printed with a trailing newline when present. */
  function Section(present: bool, g: seq<string>): string
  {
    if present then Join(g, Eol) + Eol else ""
  }

  /** The lines a printed section splits into. */
  function SectionLines(present: bool, g: seq<string>): seq<string>
  {
    if present then Split(Join(g, Eol), '\n') else []
  }

  function AllImports(importLinesSet: seq<string>, added: LinesAdded): seq<string>
  {
    Distinct(importLinesSet + added.importedLines)
  }

  function AllMocks(mockLinesSet: seq<string>, added: LinesAdded): seq<string>
  {
    Distinct(mockLinesSet + added.mockedLines + added.globalMockLines)
  }

  function TestingLibraryLines(added: LinesAdded): seq<string>
  {
    Distinct(added.testingLibraryLines)
  }

  /** `allLines` before the final cleanup. */
  function RawGroups(importLinesSet: seq<string>, mockLinesSet: seq<string>, added: LinesAdded): string
  {
    var imports := AllImports(importLinesSet, added);
    var mocks := GroupMocks.GroupedMocks(AllMocks(mockLinesSet, added));
    var libs := TestingLibraryLines(added);
    Section(|imports| > 0, GroupImports.GroupedImports(imports))
    + Section(|mocks| > 0, mocks)
    + Section(|libs| > 0, Sort(libs))
  }

  /** The trimmed `split('\n')` pieces of a text. */
  function TrimmedPieces(raw: string): seq<string>
  {
    Map(Split(raw, '\n'), Trim)
  }

  /** The pieces the cleanup keeps: `line && arr.indexOf(line) === idx`. */
  function KeptPieces(raw: string): seq<string>
  {
    var t := TrimmedPieces(raw);
    Filter(FirstOccurrences(t, |t|), GroupMocks.Truthy)
  }

  /** The final cleanup: the kept pieces joined, with a trailing newline. */
  function Cleanup(raw: string): string
  {
    Join(KeptPieces(raw), Eol) + Eol
  }

  /** What groupHelper returns. */
  function GroupedLines(importLinesSet: seq<string>, mockLinesSet: seq<string>, added: LinesAdded): string
  {
    Cleanup(RawGroups(importLinesSet, mockLinesSet, added))
  }

  method GroupHelper(importLinesSet: seq<string>, mockLinesSet: seq<string>, linesAdded: LinesAdded)
    returns (allLines: string)
    ensures allLines == GroupedLines(importLinesSet, mockLinesSet, linesAdded)
  {
    allLines := "";
    var allImports := Distinct(importLinesSet + linesAdded.importedLines);
    if |allImports| > 0 {
      var groupedImports := GroupImports.GroupImports(allImports);
      allLines := AppendSection(allLines, groupedImports);
    }
    ghost var s1 := Section(|allImports| > 0, GroupImports.GroupedImports(allImports));
    assert allLines == s1;
    var allMocks := Distinct(mockLinesSet + linesAdded.mockedLines + linesAdded.globalMockLines);
    var groupedMocks := GroupMocks.GroupMockBlocks(allMocks);
    if |groupedMocks| > 0 {
      allLines := AppendSection(allLines, groupedMocks);
    }
    ghost var s2 := Section(|groupedMocks| > 0, groupedMocks);
    assert allLines == s1 + s2;
    var testingLibraryLines := Distinct(linesAdded.testingLibraryLines);
    if |testingLibraryLines| > 0 {
      var sortedTestingLibs := Sort(testingLibraryLines);
      allLines := AppendSection(allLines, sortedTestingLibs);
    }
    ghost var s3 := Section(|testingLibraryLines| > 0, Sort(testingLibraryLines));
    assert allLines == s1 + s2 + s3;
    allLines := Cleanup(allLines);
  }

  /** `allLines += lines.join('\n') + '\n'` */
  method AppendSection(allLines: string, lines: seq<string>) returns (r: string)
    ensures r == allLines + Section(true, lines)
  {
    r := allLines + Join(lines, Eol) + Eol;
  }

  // ------------------------------------------------------------------
  // What groupHelper prints

  lemma TrimAvoids(s: string, c: char)
    requires c !in s
    ensures c !in Trim(s)
  {
    var i := TrimIsTrimmed(s);
    forall k | 0 <= k < |Trim(s)| ensures Trim(s)[k] != c {
      assert Trim(s)[k] == s[i + k];
    }
  }

  /** The cleanup's indexOf filter is the Set round trip followed by dropping empty lines. */
  lemma KeptPiecesDistinct(raw: string)
    ensures KeptPieces(raw) == Filter(Distinct(TrimmedPieces(raw)), GroupMocks.Truthy)
  {
    var t := TrimmedPieces(raw);
    FirstOccurrencesIsDistinct(t, |t|);
    assert t[..|t|] == t;
  }

  /** Every piece is trimmed and free of newlines. */
  lemma TrimmedPiecesClean(raw: string)
    ensures forall y :: y in TrimmedPieces(raw) ==> Trim(y) == y && '\n' !in y
  {
    var t := TrimmedPieces(raw);
    var ps := Split(raw, '\n');
    forall y | y in t ensures Trim(y) == y && '\n' !in y {
      var k :| 0 <= k < |t| && t[k] == y;
      TrimIdempotent(ps[k]);
      TrimAvoids(ps[k], '\n');
    }
  }

  /**
   * The kept lines are the distinct non-empty trimmed pieces of the text, each
   * once; none holds a newline or stray white space at either end.
   */
  lemma KeptPiecesSpec(raw: string, x: string)
    ensures var kept := KeptPieces(raw);
            NoDup(kept)
            && (x in kept <==> x != "" && x in TrimmedPieces(raw))
            && forall k :: 0 <= k < |kept| ==> kept[k] != "" && Trim(kept[k]) == kept[k] && '\n' !in kept[k]
  {
    var t := TrimmedPieces(raw);
    var d := Distinct(t);
    var kept := KeptPieces(raw);
    KeptPiecesDistinct(raw);
    assert kept == Filter(d, GroupMocks.Truthy);
    DistinctNoDup(t);
    FilterNoDup(d, GroupMocks.Truthy);
    DistinctMembers(t);
    assert x in kept <==> x in d && x != "";
    TrimmedPiecesClean(raw);
    forall k | 0 <= k < |kept| ensures kept[k] != "" && Trim(kept[k]) == kept[k] && '\n' !in kept[k] {
      assert kept[k] in d;
    }
  }

  lemma {:induction false} JoinSnoc(xs: seq<string>, y: string, sep: string)
    requires |xs| > 0
    ensures Join(xs + [y], sep) == Join(xs, sep) + sep + y
    decreases |xs|
  {
    if |xs| > 1 {
      JoinSnoc(xs[1..], y, sep);
      assert (xs + [y])[1..] == xs[1..] + [y];
    } else {
      assert xs + [y] == [xs[0], y];
    }
  }

  /**
   * The cleaned text splits back into the kept lines and one empty piece
   * after the final newline; with nothing kept it is a lone newline.
   */
  lemma CleanupSplits(raw: string)
    ensures var kept := KeptPieces(raw);
            (|kept| > 0 ==> Split(Cleanup(raw), '\n') == kept + [""])
            && (|kept| == 0 ==> Cleanup(raw) == Eol)
  {
    var kept := KeptPieces(raw);
    if |kept| > 0 {
      forall k | 0 <= k < |kept| ensures '\n' !in kept[k] {
        KeptPiecesSpec(raw, kept[k]);
      }
      JoinSnoc(kept, "", Eol);
      assert Join(kept, Eol) + Eol == Join(kept + [""], Eol);
      SplitJoin(kept + [""], '\n');
    }
  }

  lemma SectionSplit(present: bool, g: seq<string>, rest: string)
    ensures Split(Section(present, g) + rest, '\n') == SectionLines(present, g) + Split(rest, '\n')
  {
    if present {
      assert Section(present, g) + rest == Join(g, Eol) + ['\n'] + rest;
      SplitConcat(Join(g, Eol), rest, '\n');
    } else {
      assert Section(present, g) + rest == rest;
    }
  }

  /** Appending an empty piece changes nothing the cleanup keeps. */
  lemma TrailingEmptyDropped(xs: seq<string>)
    ensures Filter(Distinct(xs + [""]), GroupMocks.Truthy) == Filter(Distinct(xs), GroupMocks.Truthy)
  {
    DistinctSnoc(xs, "");
    FilterAppend(Distinct(xs), [""], GroupMocks.Truthy);
    FilterSingleton("", GroupMocks.Truthy);
  }

  lemma SplitSections(p1: bool, g1: seq<string>, p2: bool, g2: seq<string>, p3: bool, g3: seq<string>)
    ensures Split(Section(p1, g1) + Section(p2, g2) + Section(p3, g3), '\n')
            == (SectionLines(p1, g1) + SectionLines(p2, g2) + SectionLines(p3, g3)) + [""]
  {
    var s1, s2, s3 := Section(p1, g1), Section(p2, g2), Section(p3, g3);
    var l1, l2, l3 := SectionLines(p1, g1), SectionLines(p2, g2), SectionLines(p3, g3);
    SectionSplit(p3, g3, "");
    assert s3 + "" == s3;
    assert Split(s3, '\n') == l3 + [""];
    SectionSplit(p2, g2, s3);
    assert Split(s2 + s3, '\n') == l2 + (l3 + [""]);
    var r := s2 + s3;
    SectionSplit(p1, g1, r);
    assert Split(s1 + r, '\n') == l1 + (l2 + (l3 + [""]));
    Regroup(l1, l2, l3, "");
    Regroup3(s1, s2, s3);
  }

  /** The cleanup of three sections keeps their trimmed lines in section order. */
  lemma ThreeSections(p1: bool, g1: seq<string>, p2: bool, g2: seq<string>, p3: bool, g3: seq<string>)
    ensures var pieces := SectionLines(p1, g1) + SectionLines(p2, g2) + SectionLines(p3, g3);
            KeptPieces(Section(p1, g1) + Section(p2, g2) + Section(p3, g3))
            == Filter(Distinct(Map(pieces, Trim)), GroupMocks.Truthy)
  {
    var s1, s2, s3 := Section(p1, g1), Section(p2, g2), Section(p3, g3);
    var l1, l2, l3 := SectionLines(p1, g1), SectionLines(p2, g2), SectionLines(p3, g3);
    var raw := s1 + s2 + s3;
    SplitSections(p1, g1, p2, g2, p3, g3);
    assert Split(raw, '\n') == (l1 + l2 + l3) + [""];
    MapAppend(l1 + l2 + l3, [""], Trim);
    assert Map([""], Trim) == [""] by { assert Trim("") == ""; }
    TrailingEmptyDropped(Map(l1 + l2 + l3, Trim));
    KeptPiecesDistinct(raw);
  }

  /**
   * groupHelper's output lists, each once and in this order, the trimmed
   * non-empty lines of the grouped imports, then of the grouped mocks, then of
   * the sorted testing-library lines.
   */
  lemma GroupedLinesLayout(importLinesSet: seq<string>, mockLinesSet: seq<string>, added: LinesAdded)
    ensures var imports := AllImports(importLinesSet, added);
            var mocks := GroupMocks.GroupedMocks(AllMocks(mockLinesSet, added));
            var libs := TestingLibraryLines(added);
            var pieces := SectionLines(|imports| > 0, GroupImports.GroupedImports(imports))
                          + SectionLines(|mocks| > 0, mocks)
                          + SectionLines(|libs| > 0, Sort(libs));
            KeptPieces(RawGroups(importLinesSet, mockLinesSet, added)) == Filter(Distinct(Map(pieces, Trim)), GroupMocks.Truthy)
  {
    var imports := AllImports(importLinesSet, added);
    var mocks := GroupMocks.GroupedMocks(AllMocks(mockLinesSet, added));
    var libs := TestingLibraryLines(added);
    ThreeSections(|imports| > 0, GroupImports.GroupedImports(imports), |mocks| > 0, mocks, |libs| > 0, Sort(libs));
  }

  lemma {:induction false} TrimmedNonEmptySameTrim(xs: seq<string>, ys: seq<string>)
    requires |xs| == |ys| && forall k :: 0 <= k < |xs| ==> Trim(xs[k]) == Trim(ys[k])
    ensures TrimmedNonEmpty(xs) == TrimmedNonEmpty(ys)
    decreases |xs|
  {
    if |xs| > 0 {
      TrimmedNonEmptySameTrim(xs[1..], ys[1..]);
    }
  }

  lemma {:induction false} TrimmedNonEmptyOfTrimmed(xs: seq<string>)
    requires forall k :: 0 <= k < |xs| ==> xs[k] != "" && Trim(xs[k]) == xs[k]
    ensures TrimmedNonEmpty(xs) == xs
    decreases |xs|
  {
    if |xs| > 0 {
      TrimmedNonEmptyOfTrimmed(xs[1..]);
      assert xs == [xs[0]] + xs[1..];
    }
  }

  /** The `.split(/\r?\n/).map(trim).filter(Boolean)` of a text. */
  function ReadLines(s: string): seq<string>
  {
    TrimmedNonEmpty(SplitCrLf(s))
  }

  /** Once trimmed, the /\r?\n/ pieces read the same lines as the "\n" pieces. */
  lemma ReadLinesPlain(s: string)
    ensures ReadLines(s) == TrimmedNonEmpty(Lines(s))
  {
    TrimmedCrLfLines(s);
    TrimmedNonEmptySameTrim(SplitCrLf(s), Lines(s));
  }

  lemma TrimmedNonEmptyDropsEmpty(xs: seq<string>)
    requires forall k :: 0 <= k < |xs| ==> xs[k] != "" && Trim(xs[k]) == xs[k]
    ensures TrimmedNonEmpty(xs + [""]) == xs
  {
    TrimmedNonEmptyAppend(xs, [""]);
    TrimmedNonEmptyOfTrimmed(xs);
    assert TrimmedNonEmpty([""]) == [] by { assert Trim("") == ""; }
  }

  /** mergeLinesHelper reads back from groupHelper's text exactly the lines the cleanup kept. */
  lemma CleanupRereads(raw: string)
    ensures ReadLines(Cleanup(raw)) == KeptPieces(raw)
  {
    var out := Cleanup(raw);
    var kept := KeptPieces(raw);
    ReadLinesPlain(out);
    CleanupSplits(raw);
    if |kept| > 0 {
      forall k | 0 <= k < |kept| ensures kept[k] != "" && Trim(kept[k]) == kept[k] {
        KeptPiecesSpec(raw, kept[k]);
      }
      TrimmedNonEmptyDropsEmpty(kept);
    } else {
      assert Split(Eol, '\n') == ["", ""] by { SplitConcat("", "", '\n'); assert Eol == "" + ['\n'] + ""; }
      assert TrimmedNonEmpty(["", ""]) == [] by { assert Trim("") == ""; }
    }
  }

  // ------------------------------------------------------------------
  // mergeLinesHelper

  /** `allLines`: the original lines, then the merged lines not among them. */
  function InputLines(originalContent: string, mergedLines: string): seq<string>
  {
    var origLines := ReadLines(originalContent);
    origLines + Without(ReadLines(mergedLines), origLines)
  }

  /**
   * What mergeLinesHelper returns: with the import pass as written when
   * `corrected` is false, with its readings corrected when it is true.
   */
  function MergedContent(originalContent: string, mergedLines: string, corrected: bool): string
  {
    var all := InputLines(originalContent, mergedLines);
    var consumed := MergeMocks.ConsumedOf(MergeMocks.ScanFrom(all, 0));
    var imports := if corrected then MergeImports.MergedImports(all) else MergeImports.MergedImportsAsWritten(all);
    Join(imports + MergeMocks.MergedMocks(all) + MergeMocks.Others(all, consumed), Eol) + Eol
  }

  method MergeLinesHelper(originalContent: string, mergedLines: string, corrected: bool) returns (r: string)
    ensures r == MergedContent(originalContent, mergedLines, corrected)
  {
    var origLines := ReadLines(originalContent);
    var mergedLinesArr := ReadLines(mergedLines);
    var dedupedMerged := Without(mergedLinesArr, origLines);
    var allLines := origLines + dedupedMerged;
    var imports := MergeImports.RebuildImports(allLines, corrected);
    var mocks, consumedMockLineIdxs := MergeMocks.ScanMocks(allLines);
    var others := MergeMocks.OtherLines(allLines, consumedMockLineIdxs);
    r := Join(imports + mocks + others, Eol) + Eol;
  }

  /**
   * The merge input starts with the original lines, and every line after
   * them is a merged line that is not an original one.
   */
  lemma InputLinesOrder(originalContent: string, mergedLines: string)
    ensures var o := ReadLines(originalContent);
            var all := InputLines(originalContent, mergedLines);
            all[..|o|] == o && forall k :: |o| <= k < |all| ==> all[k] !in o && all[k] in ReadLines(mergedLines)
  {
    WithoutOrder(ReadLines(originalContent), ReadLines(mergedLines));
  }

  lemma WithoutOrder(o: seq<string>, m: seq<string>)
    ensures var all := o + Without(m, o);
            all[..|o|] == o && forall k :: |o| <= k < |all| ==> all[k] !in o && all[k] in m
  {
    var w := Without(m, o);
    WithoutMembers(m, o);
    var all := o + w;
    assert all[..|o|] == o;
    forall k | |o| <= k < |all| ensures all[k] !in o && all[k] in m {
      assert all[k] == w[k - |o|];
    }
  }

  /** A line is in the merge input exactly when it is a line of either text. */
  lemma InputLinesMembers(originalContent: string, mergedLines: string, x: string)
    ensures x in InputLines(originalContent, mergedLines) <==> x in ReadLines(originalContent) || x in ReadLines(mergedLines)
  {
    WithoutMembers(ReadLines(mergedLines), ReadLines(originalContent));
  }

  /** Every line of the merge input is trimmed and non-empty. */
  lemma InputLinesClean(originalContent: string, mergedLines: string)
    ensures var all := InputLines(originalContent, mergedLines);
            forall k :: 0 <= k < |all| ==> all[k] != "" && Trim(all[k]) == all[k]
  {
    var o := ReadLines(originalContent);
    var m := ReadLines(mergedLines);
    var all := InputLines(originalContent, mergedLines);
    TrimmedNonEmptyAreTrimmed(SplitCrLf(originalContent));
    TrimmedNonEmptyAreTrimmed(SplitCrLf(mergedLines));
    InputLinesOrder(originalContent, mergedLines);
    forall k | 0 <= k < |all| ensures all[k] != "" && Trim(all[k]) == all[k] {
      if k < |o| {
        assert all[k] == all[..|o|][k];
      } else {
        var j :| 0 <= j < |m| && m[j] == all[k];
      }
    }
  }

  /**
   * An original line that is neither an import nor a mock and that no mock
   * block absorbed is among the other lines of the result, which hold each
   * line once.
   */
  lemma OriginalLineKept(originalContent: string, mergedLines: string, idx: nat)
    requires idx < |ReadLines(originalContent)|
    ensures var all := InputLines(originalContent, mergedLines);
            var consumed := MergeMocks.ConsumedOf(MergeMocks.ScanFrom(all, 0));
            var others := MergeMocks.Others(all, consumed);
            NoDup(others)
            && (MergeMocks.Eligible(all, consumed, idx) ==> ReadLines(originalContent)[idx] in others)
  {
    var all := InputLines(originalContent, mergedLines);
    var consumed := MergeMocks.ConsumedOf(MergeMocks.ScanFrom(all, 0));
    var o := ReadLines(originalContent);
    assert all[idx] == o[idx];
    MergeMocks.OthersSpec(all, consumed, o[idx]);
  }

  // ------------------------------------------------------------------
  // mergeLines

  function MergedLines(importLinesSet: seq<string>, mockLinesSet: seq<string>, linesAdded: LinesAdded, content: string,
                       corrected: bool): string
  {
    MergedContent(content, GroupedLines(importLinesSet, mockLinesSet, linesAdded), corrected)
  }

  method MergeLines(importLinesSet: seq<string>, mockLinesSet: seq<string>, linesAdded: LinesAdded, content: string,
                    corrected: bool)
    returns (mergedLines: string)
    ensures mergedLines == MergedLines(importLinesSet, mockLinesSet, linesAdded, content, corrected)
  {
    mergedLines := GroupHelper(importLinesSet, mockLinesSet, linesAdded);
    mergedLines := MergeLinesHelper(content, mergedLines, corrected);
  }

  /**
   * The lines mergeLines adds to the content are the grouped lines that the
   * content does not already hold, in groupHelper's order.
   */
  lemma MergedLinesInput(importLinesSet: seq<string>, mockLinesSet: seq<string>, linesAdded: LinesAdded, content: string)
    ensures var kept := KeptPieces(RawGroups(importLinesSet, mockLinesSet, linesAdded));
            InputLines(content, GroupedLines(importLinesSet, mockLinesSet, linesAdded))
            == ReadLines(content) + Without(kept, ReadLines(content))
  {
    CleanupRereads(RawGroups(importLinesSet, mockLinesSet, linesAdded));
  }

  // ------------------------------------------------------------------
  // Sequence identities the proofs above use as steps; they model nothing

  lemma Regroup<T>(a: seq<T>, b: seq<T>, c: seq<T>, x: T)
    ensures a + (b + (c + [x])) == (a + b + c) + [x]
  {
  }

  lemma Regroup3(a: string, b: string, c: string)
    ensures a + (b + c) == a + b + c
  {
  }
}
