/**
 * createIntegratedTestFile and the helpers that print the suggested blocks'
 * lines: allImportLines (one grouped named import per context path),
 * allLibraryLines (the Testing Library import when some block asks for it)
 * and allBlockLines (every block's code, each surrounded by newlines).
 */
module IntegratedFile {
  import opened JsText
  import opened SuggestHelpers
  import LineScan
  import GroupImports
  import GroupMocks
  import MergeLines
  import CleanBlocks

  // ------------------------------------------------------------------
  // allImportLines

  /** A (contextPath, contextName) pair. */
  type Binding = (string, string)

  function PathOf(pn: Binding): string { pn.0 }

  /** `meta.contextsHelpers` when it is an array, or nothing. */
  function BlockHelpers(b: Block): seq<ContextHelper>
  {
    if b.meta.Some? && b.meta.value.contextsHelpers.Some? then b.meta.value.contextsHelpers.value else []
  }

  /** The pairs of the helpers whose context has both a name and a path. */
  function HelperPairs(hs: seq<ContextHelper>): seq<Binding>
    decreases |hs|
  {
    if |hs| == 0 then []
    else
      var h := hs[|hs| - 1];
      HelperPairs(hs[..|hs| - 1]) + (if h.contextName != "" && h.contextPath != "" then [(h.contextPath, h.contextName)] else [])
  }

  /** The pairs of all blocks, block by block. */
  function Pairs(blocks: seq<Block>): seq<Binding>
    decreases |blocks|
  {
    if |blocks| == 0 then []
    else Pairs(blocks[..|blocks| - 1]) + HelperPairs(BlockHelpers(blocks[|blocks| - 1]))
  }

  /** The names paired with path p, with repeats. */
  function NamesAt(ps: seq<Binding>, p: string): seq<string>
    decreases |ps|
  {
    if |ps| == 0 then []
    else
      var last := ps[|ps| - 1];
      NamesAt(ps[..|ps| - 1], p) + (if last.0 == p then [last.1] else [])
  }

  /** `contextImportsMap[p]`: the Set of names of path p, in insertion order. */
  function ContextNames(ps: seq<Binding>, p: string): seq<string>
  {
    Distinct(NamesAt(ps, p))
  }

  /** The keys of `contextImportsMap`, in insertion order. */
  function ContextPaths(ps: seq<Binding>): seq<string>
  {
    Distinct(Map(ps, PathOf))
  }

  /** `import { n1, n2 } from "p";` with the names of p sorted. */
  function ImportLineFor(ps: seq<Binding>, p: string): string
  {
    GroupImports.NamedLine(Sort(ContextNames(ps, p)), p)
  }

  function EmittedLines(ps: seq<Binding>, paths: seq<string>): (r: seq<string>)
    ensures |r| == |paths| && forall k :: 0 <= k < |paths| ==> r[k] == ImportLineFor(ps, paths[k])
    decreases |paths|
  {
    if |paths| == 0 then []
    else EmittedLines(ps, paths[..|paths| - 1]) + [ImportLineFor(ps, paths[|paths| - 1])]
  }

  /** The grouped import lines, one per context path. */
  function ImportLines(blocks: seq<Block>): seq<string>
  {
    var ps := Pairs(blocks);
    EmittedLines(ps, ContextPaths(ps))
  }

  /** What allImportLines returns. */
  function ImportLinesText(blocks: seq<Block>): string
  {
    GroupMocks.Prefixed(ImportLines(blocks))
  }

  /** The map and its key list agree with the pairs visited so far. */
  ghost predicate Gathered(ps: seq<Binding>, m: map<string, seq<string>>, paths: seq<string>)
  {
    && paths == ContextPaths(ps)
    && (forall p :: p in m <==> p in paths)
    && (forall p :: p in m ==> m[p] == ContextNames(ps, p))
  }

  lemma NamesAtSnoc(ps: seq<Binding>, pn: Binding, p: string)
    ensures NamesAt(ps + [pn], p) == NamesAt(ps, p) + (if pn.0 == p then [pn.1] else [])
  {
    assert (ps + [pn])[..|ps|] == ps;
  }

  /** The names of p are exactly those it is paired with. */
  lemma {:induction false} NamesAtMembers(ps: seq<Binding>, p: string)
    ensures forall n :: n in NamesAt(ps, p) <==> (p, n) in ps
    decreases |ps|
  {
    if |ps| > 0 {
      var init := ps[..|ps| - 1];
      NamesAtMembers(init, p);
      assert ps == init + [ps[|ps| - 1]];
    }
  }

  /** A path never visited has no names. */
  lemma {:induction false} NamesAtAbsent(ps: seq<Binding>, p: string)
    requires p !in Map(ps, PathOf)
    ensures NamesAt(ps, p) == []
    decreases |ps|
  {
    if |ps| > 0 {
      var init := ps[..|ps| - 1];
      assert Map(init, PathOf) == Map(ps, PathOf)[..|ps| - 1];
      NamesAtAbsent(init, p);
      assert Map(ps, PathOf)[|ps| - 1] == ps[|ps| - 1].0;
    }
  }

  lemma ContextPathsSnoc(ps: seq<Binding>, pn: Binding)
    ensures ContextPaths(ps + [pn]) == if pn.0 in ContextPaths(ps) then ContextPaths(ps) else ContextPaths(ps) + [pn.0]
  {
    MapAppend(ps, [pn], PathOf);
    DistinctSnoc(Map(ps, PathOf), pn.0);
    DistinctMembers(Map(ps, PathOf));
  }

  lemma ContextNamesSnoc(ps: seq<Binding>, pn: Binding, q: string)
    ensures ContextNames(ps + [pn], q)
            == if pn.0 != q || pn.1 in ContextNames(ps, q) then ContextNames(ps, q) else ContextNames(ps, q) + [pn.1]
  {
    NamesAtSnoc(ps, pn, q);
    DistinctMembers(NamesAt(ps, q));
    if pn.0 == q {
      DistinctSnoc(NamesAt(ps, q), pn.1);
    } else {
      assert NamesAt(ps + [pn], q) == NamesAt(ps, q) + [];
      assert NamesAt(ps, q) + [] == NamesAt(ps, q);
    }
  }

  lemma ContextNamesAbsent(ps: seq<Binding>, p: string)
    requires p !in ContextPaths(ps)
    ensures ContextNames(ps, p) == []
  {
    DistinctMembers(Map(ps, PathOf));
    NamesAtAbsent(ps, p);
  }

  /** One helper pair added to the map and its key list. */
  lemma GatherStep(ps: seq<Binding>, m: map<string, seq<string>>, paths: seq<string>, p: string, n: string)
    requires Gathered(ps, m, paths)
    ensures var names := if p in m then m[p] else [];
            Gathered(ps + [(p, n)], m[p := if n in names then names else names + [n]], if p in m then paths else paths + [p])
  {
    var ps' := ps + [(p, n)];
    var names := if p in m then m[p] else [];
    var m' := m[p := if n in names then names else names + [n]];
    var paths' := if p in m then paths else paths + [p];
    assert paths' == ContextPaths(ps') by {
      GatherPaths(ps, paths, p in m, p, n);
    }
    assert forall q :: q in m' <==> q in paths';
    assert m'[p] == ContextNames(ps', p) by {
      GatherNames(ps, names, p in m, p, n);
    }
    forall q | q in m' && q != p
      ensures m'[q] == ContextNames(ps', q)
    {
      ContextNamesOther(ps, (p, n), q);
    }
  }

  lemma ContextNamesOther(ps: seq<Binding>, pn: Binding, q: string)
    requires pn.0 != q
    ensures ContextNames(ps + [pn], q) == ContextNames(ps, q)
  {
    ContextNamesSnoc(ps, pn, q);
  }

  lemma GatherPaths(ps: seq<Binding>, paths: seq<string>, known: bool, p: string, n: string)
    requires paths == ContextPaths(ps) && (known <==> p in paths)
    ensures ContextPaths(ps + [(p, n)]) == if known then paths else paths + [p]
  {
    ContextPathsSnoc(ps, (p, n));
  }

  lemma GatherNames(ps: seq<Binding>, names: seq<string>, known: bool, p: string, n: string)
    requires known ==> names == ContextNames(ps, p)
    requires !known ==> names == [] && p !in ContextPaths(ps)
    ensures ContextNames(ps + [(p, n)], p) == if n in names then names else names + [n]
  {
    ContextNamesSnoc(ps, (p, n), p);
    if !known {
      ContextNamesAbsent(ps, p);
    }
  }

  lemma HelperPairsSnoc(hs: seq<ContextHelper>, j: nat)
    requires j < |hs|
    ensures var h := hs[j];
            HelperPairs(hs[..j + 1]) == HelperPairs(hs[..j]) + (if h.contextName != "" && h.contextPath != "" then [(h.contextPath, h.contextName)] else [])
  {
    assert hs[..j + 1][..j] == hs[..j];
  }

  /** `if (!map[p]) map[p] = new Set(); map[p].add(n);` */
  method AddName(m0: map<string, seq<string>>, paths0: seq<string>, contextPath: string, contextName: string, ghost ps: seq<Binding>)
    returns (m: map<string, seq<string>>, paths: seq<string>)
    requires Gathered(ps, m0, paths0)
    ensures Gathered(ps + [(contextPath, contextName)], m, paths)
  {
    GatherStep(ps, m0, paths0, contextPath, contextName);
    var names := if contextPath in m0 then m0[contextPath] else [];
    paths := if contextPath in m0 then paths0 else paths0 + [contextPath];
    m := m0[contextPath := if contextName in names then names else names + [contextName]];
  }

  /** The inner forEach over one block's context helpers. */
  method GatherHelpers(hs: seq<ContextHelper>, m0: map<string, seq<string>>, paths0: seq<string>, ghost ps0: seq<Binding>)
    returns (m: map<string, seq<string>>, paths: seq<string>, ghost ps: seq<Binding>)
    requires Gathered(ps0, m0, paths0)
    ensures ps == ps0 + HelperPairs(hs) && Gathered(ps, m, paths)
  {
    m, paths, ps := m0, paths0, ps0;
    assert ps0 + HelperPairs(hs[..0]) == ps0;
    for j := 0 to |hs|
      invariant ps == ps0 + HelperPairs(hs[..j]) && Gathered(ps, m, paths)
    {
      var contextName := hs[j].contextName;
      var contextPath := hs[j].contextPath;
      HelperPairsSnoc(hs, j);
      if contextName != "" && contextPath != "" {
        m, paths := AddName(m, paths, contextPath, contextName, ps);
        ps := ps + [(contextPath, contextName)];
      } else {
        assert HelperPairs(hs[..j + 1]) == HelperPairs(hs[..j]) + [];
      }
    }
    assert hs[..|hs|] == hs;
  }

  lemma PairsSnoc(blocks: seq<Block>, i: nat)
    requires i < |blocks|
    ensures Pairs(blocks[..i + 1]) == Pairs(blocks[..i]) + HelperPairs(BlockHelpers(blocks[i]))
  {
    assert blocks[..i + 1][..i] == blocks[..i];
  }

  lemma PrefixedSnoc(lines: seq<string>, l: string)
    ensures GroupMocks.Prefixed(lines + [l]) == GroupMocks.Prefixed(lines) + "\n" + l
  {
    assert (lines + [l])[..|lines|] == lines;
  }

  /** allImportLines(blocks) */
  method AllImportLines(blocks: seq<Block>) returns (allLines: string)
    ensures allLines == ImportLinesText(blocks)
  {
    var contextImportsMap: map<string, seq<string>> := map[];
    var paths: seq<string> := [];
    ghost var ps: seq<Binding> := [];
    for i := 0 to |blocks|
      invariant ps == Pairs(blocks[..i]) && Gathered(ps, contextImportsMap, paths)
    {
      PairsSnoc(blocks, i);
      var block := blocks[i];
      if block.meta.Some? && block.meta.value.contextsHelpers.Some? {
        contextImportsMap, paths, ps := GatherHelpers(block.meta.value.contextsHelpers.value, contextImportsMap, paths, ps);
      } else {
        assert Pairs(blocks[..i + 1]) == Pairs(blocks[..i]) + [];
      }
    }
    assert blocks[..|blocks|] == blocks;
    allLines := EmitImports(ps, contextImportsMap, paths);
  }

  lemma GatheredLine(ps: seq<Binding>, m: map<string, seq<string>>, paths: seq<string>, k: nat)
    requires Gathered(ps, m, paths) && k < |paths|
    ensures paths[k] in m && GroupImports.NamedLine(Sort(m[paths[k]]), paths[k]) == ImportLineFor(ps, paths[k])
  {
  }

  lemma EmittedSnoc(ps: seq<Binding>, paths: seq<string>, k: nat)
    requires k < |paths|
    ensures EmittedLines(ps, paths[..k + 1]) == EmittedLines(ps, paths[..k]) + [ImportLineFor(ps, paths[k])]
  {
    assert paths[..k + 1][..k] == paths[..k];
  }

  /** The second loop: one line per key of the map. */
  method EmitImports(ghost ps: seq<Binding>, contextImportsMap: map<string, seq<string>>, paths: seq<string>)
    returns (allLines: string)
    requires Gathered(ps, contextImportsMap, paths)
    ensures allLines == GroupMocks.Prefixed(EmittedLines(ps, paths))
  {
    allLines := "";
    for k := 0 to |paths|
      invariant allLines == GroupMocks.Prefixed(EmittedLines(ps, paths[..k]))
    {
      var contextPath := paths[k];
      GatheredLine(ps, contextImportsMap, paths, k);
      var namesArr := Sort(contextImportsMap[contextPath]);
      var importLine := GroupImports.NamedLine(namesArr, contextPath);
      EmittedSnoc(ps, paths, k);
      PrefixedSnoc(EmittedLines(ps, paths[..k]), importLine);
      allLines := allLines + "\n" + importLine;
    }
    assert paths[..|paths|] == paths;
  }

  // ------------------------------------------------------------------
  // What allImportLines promises

  /** A pair is gathered exactly when some helper has that context name and path, both non-empty. */
  lemma {:induction false} HelperPairsMembers(hs: seq<ContextHelper>, p: string, n: string)
    ensures (p, n) in HelperPairs(hs) <==>
            p != "" && n != "" && exists h :: h in hs && h.contextPath == p && h.contextName == n
    decreases |hs|
  {
    if |hs| > 0 {
      var init := hs[..|hs| - 1];
      HelperPairsMembers(init, p, n);
      assert hs == init + [hs[|hs| - 1]];
    }
  }

  lemma {:induction false} PairsMembers(blocks: seq<Block>, p: string, n: string)
    ensures (p, n) in Pairs(blocks) <==>
            exists i :: 0 <= i < |blocks| && (p, n) in HelperPairs(BlockHelpers(blocks[i]))
    decreases |blocks|
  {
    if |blocks| > 0 {
      var init := blocks[..|blocks| - 1];
      PairsMembers(init, p, n);
      if (p, n) in Pairs(blocks) && (p, n) !in HelperPairs(BlockHelpers(blocks[|blocks| - 1])) {
        var i :| 0 <= i < |init| && (p, n) in HelperPairs(BlockHelpers(init[i]));
        assert init[i] == blocks[i];
      }
    }
  }

  /**
   * A context path gets an import line exactly when some block's helper has
   * that path and a context name; each path gets one line.
   */
  lemma ImportPathsSpec(blocks: seq<Block>, p: string)
    ensures NoDup(ContextPaths(Pairs(blocks)))
    ensures |ImportLines(blocks)| == |ContextPaths(Pairs(blocks))|
    ensures p in ContextPaths(Pairs(blocks)) <==> exists n :: (p, n) in Pairs(blocks)
  {
    var ps := Pairs(blocks);
    DistinctNoDup(Map(ps, PathOf));
    DistinctMembers(Map(ps, PathOf));
    if p in Map(ps, PathOf) {
      var i :| 0 <= i < |ps| && Map(ps, PathOf)[i] == p;
      assert (p, ps[i].1) == ps[i];
    }
    if exists n :: (p, n) in ps {
      var n :| (p, n) in ps;
      var i :| 0 <= i < |ps| && ps[i] == (p, n);
      assert Map(ps, PathOf)[i] == p;
    }
  }

  /** The names of a path's line are sorted, distinct, and exactly the names that path was paired with. */
  lemma ImportNamesSpec(ps: seq<Binding>, p: string)
    ensures var names := Sort(ContextNames(ps, p));
            Sorted(names) && NoDup(names) && forall n :: n in names <==> (p, n) in ps
  {
    DistinctNoDup(NamesAt(ps, p));
    SortNoDup(ContextNames(ps, p));
    DistinctMembers(NamesAt(ps, p));
    NamesAtMembers(ps, p);
    forall n ensures n in Sort(ContextNames(ps, p)) <==> n in ContextNames(ps, p) {
      assert n in Sort(ContextNames(ps, p)) <==> n in multiset(Sort(ContextNames(ps, p)));
    }
  }

  /** The paths and names of the gathered pairs are free of newlines, quotes and closing braces. */
  predicate PlainPairs(ps: seq<Binding>)
  {
    forall k :: 0 <= k < |ps| ==>
      GroupImports.PlainPath(ps[k].0) && '\n' !in ps[k].0 && '\n' !in ps[k].1 && '}' !in ps[k].1
  }

  lemma PlainNames(ps: seq<Binding>, p: string)
    requires PlainPairs(ps)
    ensures forall n :: n in Sort(ContextNames(ps, p)) ==> '\n' !in n && '}' !in n
  {
    ImportNamesSpec(ps, p);
    forall n | n in Sort(ContextNames(ps, p)) ensures '\n' !in n && '}' !in n {
      var i :| 0 <= i < |ps| && ps[i] == (p, n);
    }
  }

  /** A named import line is one non-empty line with no white space at either end. */
  lemma NamedLineShape(names: seq<string>, p: string)
    requires '\n' !in Join(names, GroupImports.CommaSp) && '\n' !in p
    ensures var l := GroupImports.NamedLine(names, p);
            l != "" && '\n' !in l && Trim(l) == l
  {
    var mid := GroupImports.BraceOpen + Join(names, GroupImports.CommaSp) + GroupImports.BraceCloseFrom + p;
    assert GroupImports.NamedLine(names, p) == GroupImports.ImportSp + mid + GroupImports.QuoteSemi;
    assert '\n' !in GroupImports.ImportSp && '\n' !in GroupImports.QuoteSemi;
    assert '\n' !in GroupImports.BraceOpen && '\n' !in GroupImports.BraceCloseFrom;
    TrimBetween(GroupImports.ImportSp, mid, GroupImports.QuoteSemi);
  }

  lemma TrimBetween(a: string, m: string, z: string)
    requires |a| > 0 && |z| > 0 && !IsJsSpace(a[0]) && !IsJsSpace(z[|z| - 1])
    ensures Trim(a + m + z) == a + m + z
  {
    var s := a + m + z;
    assert s[0] == a[0] && s[|s| - 1] == z[|z| - 1];
    assert TrimStart(s) == s;
  }

  lemma PlainPathOf(ps: seq<Binding>, p: string)
    requires PlainPairs(ps) && p in ContextPaths(ps)
    ensures GroupImports.PlainPath(p) && '\n' !in p
  {
    DistinctMembers(Map(ps, PathOf));
    var i :| 0 <= i < |ps| && Map(ps, PathOf)[i] == p;
    assert ps[i].0 == p;
  }

  /** Every emitted line reads back as the named import of its own path. */
  lemma ImportLineReparses(ps: seq<Binding>, p: string)
    requires PlainPairs(ps) && p in ContextPaths(ps)
    ensures LineScan.ParseImportShape(ImportLineFor(ps, p)) == LineScan.NamedImport(" " + Join(Sort(ContextNames(ps, p)), GroupImports.CommaSp) + " ", p)
  {
    PlainNames(ps, p);
    PlainPathOf(ps, p);
    GroupImports.NamedLineReparses(Sort(ContextNames(ps, p)), p);
  }

  /** Every emitted line is one non-empty line with no white space at either end. */
  lemma ImportLineClean(ps: seq<Binding>, p: string)
    requires PlainPairs(ps) && p in ContextPaths(ps)
    ensures '\n' !in ImportLineFor(ps, p)
    ensures Trim(ImportLineFor(ps, p)) == ImportLineFor(ps, p) && ImportLineFor(ps, p) != ""
  {
    var names := Sort(ContextNames(ps, p));
    PlainNames(ps, p);
    PlainPathOf(ps, p);
    JoinAvoids(names, GroupImports.CommaSp, '\n');
    NamedLineShape(names, p);
  }

  /** Distinct paths give distinct lines, since each line reads back its path. */
  lemma ImportLinesDistinct(blocks: seq<Block>)
    requires PlainPairs(Pairs(blocks))
    ensures NoDup(ImportLines(blocks))
  {
    var ps := Pairs(blocks);
    var paths := ContextPaths(ps);
    var lines := ImportLines(blocks);
    DistinctNoDup(Map(ps, PathOf));
    forall i, j | 0 <= i < j < |lines| ensures lines[i] != lines[j] {
      ImportLineReparses(ps, paths[i]);
      ImportLineReparses(ps, paths[j]);
    }
  }

  lemma ImportLinesPlain(blocks: seq<Block>)
    requires PlainPairs(Pairs(blocks))
    ensures forall k :: 0 <= k < |ImportLines(blocks)| ==>
              '\n' !in ImportLines(blocks)[k] && ImportLines(blocks)[k] != "" && Trim(ImportLines(blocks)[k]) == ImportLines(blocks)[k]
  {
    var ps := Pairs(blocks);
    var lines := ImportLines(blocks);
    DistinctMembers(Map(ps, PathOf));
    forall k | 0 <= k < |lines|
      ensures '\n' !in lines[k] && lines[k] != "" && Trim(lines[k]) == lines[k]
    {
      ImportLineClean(ps, ContextPaths(ps)[k]);
    }
  }

  lemma TrimmedNonEmptyBlankHead(xs: seq<string>)
    ensures TrimmedNonEmpty([""] + xs) == TrimmedNonEmpty(xs)
  {
    assert ([""] + xs)[0] == "" && ([""] + xs)[1..] == xs;
    assert Trim("") == "";
  }

  /** Distinct trimmed lines, printed each after a newline, are read back as themselves. */
  lemma AddedOfPrefixed(lines: seq<string>)
    requires forall k :: 0 <= k < |lines| ==> '\n' !in lines[k] && lines[k] != "" && Trim(lines[k]) == lines[k]
    requires NoDup(lines)
    ensures AddedLines(GroupMocks.Prefixed(lines)) == lines
  {
    GroupMocks.PrefixedSplit(lines);
    TrimmedNonEmptyBlankHead(lines);
    MergeLines.TrimmedNonEmptyOfTrimmed(lines);
    DistinctOfNoDup(lines);
  }

  /**
   * createIntegratedTestFile's `linesAdded.importedLines` (the trimmed
   * non-empty lines of allImportLines, as a Set) are the grouped import
   * lines themselves, in path order.
   */
  lemma ImportLinesReadBack(blocks: seq<Block>)
    requires PlainPairs(Pairs(blocks))
    ensures AddedLines(ImportLinesText(blocks)) == ImportLines(blocks)
  {
    ImportLinesPlain(blocks);
    ImportLinesDistinct(blocks);
    AddedOfPrefixed(ImportLines(blocks));
  }

  // ------------------------------------------------------------------
  // allLibraryLines

  const LibraryNames: seq<string> := ["render", "screen"]
  const LibraryPath := "@testing-library/react"
  /** `import { render, screen } from "@testing-library/react";` */
  const TestingLibraryImport := GroupImports.NamedLine(LibraryNames, LibraryPath)

  predicate UsesLibrary(b: Block)
  {
    b.meta.Some? && b.meta.value.usesTestingLibrary == Some(true)
  }

  /** What allLibraryLines returns. */
  function LibraryText(blocks: seq<Block>): string
  {
    if exists i :: 0 <= i < |blocks| && UsesLibrary(blocks[i]) then "\n" + TestingLibraryImport else ""
  }

  method AllLibraryLines(blocks: seq<Block>) returns (allLines: string)
    ensures allLines == LibraryText(blocks)
  {
    allLines := "";
    var needsTestingLibrary := NeedsTestingLibrary(blocks);
    if needsTestingLibrary {
      allLines := allLines + "\n" + TestingLibraryImport;
    }
  }

  /** The loop of allLibraryLines: does any block use the testing library? */
  method NeedsTestingLibrary(blocks: seq<Block>) returns (needsTestingLibrary: bool)
    ensures needsTestingLibrary <==> exists k :: 0 <= k < |blocks| && UsesLibrary(blocks[k])
  {
    needsTestingLibrary := false;
    for i := 0 to |blocks|
      invariant needsTestingLibrary <==> exists k :: 0 <= k < i && UsesLibrary(blocks[k])
    {
      var block := blocks[i];
      if block.meta.Some? && block.meta.value.usesTestingLibrary == Some(true) {
        needsTestingLibrary := true;
      }
    }
  }

  /** The trimmed non-empty lines of a text, as a Set. */
  function AddedLines(text: string): seq<string>
  {
    Distinct(TrimmedNonEmpty(Split(text, '\n')))
  }

  /** `linesAdded.testingLibraryLines` holds the import exactly when some block uses the library. */
  lemma LibraryImportClean()
    ensures '\n' !in TestingLibraryImport && TestingLibraryImport != "" && Trim(TestingLibraryImport) == TestingLibraryImport
  {
    JoinAvoids(LibraryNames, GroupImports.CommaSp, '\n');
    NamedLineShape(LibraryNames, LibraryPath);
  }

  lemma LibraryLinesReadBack(blocks: seq<Block>)
    ensures AddedLines(LibraryText(blocks))
            == if exists i :: 0 <= i < |blocks| && UsesLibrary(blocks[i]) then [TestingLibraryImport] else []
  {
    if exists i :: 0 <= i < |blocks| && UsesLibrary(blocks[i]) {
      LibraryImportClean();
      OneLineReadBack(TestingLibraryImport);
    } else {
      assert Split("", '\n') == [""];
      assert Trim("") == "";
    }
  }

  /** A single clean line printed after a newline is read back as itself. */
  lemma OneLineReadBack(t: string)
    requires '\n' !in t && t != "" && Trim(t) == t
    ensures AddedLines("\n" + t) == [t]
  {
    var one: seq<string> := [t];
    assert GroupMocks.Prefixed(one) == "\n" + t by {
      assert one[..0] == [];
    }
    AddedOfPrefixed(one);
  }

  // ------------------------------------------------------------------
  // allBlockLines

  function CodeOf(b: Block): string { b.code }

  /** Each code preceded and followed by a newline. */
  function BlockText(codes: seq<string>): string
    decreases |codes|
  {
    if |codes| == 0 then "" else BlockText(codes[..|codes| - 1]) + "\n" + codes[|codes| - 1] + "\n"
  }

  method AllBlockLines(blocks: seq<Block>) returns (allLines: string)
    ensures allLines == BlockText(Map(blocks, CodeOf))
  {
    allLines := "";
    for i := 0 to |blocks|
      invariant allLines == BlockText(Map(blocks[..i], CodeOf))
    {
      assert Map(blocks[..i + 1], CodeOf)[..i] == Map(blocks[..i], CodeOf);
      allLines := allLines + "\n" + blocks[i].code + "\n";
    }
    assert blocks[..|blocks|] == blocks;
  }

  /** The codes appear in order, separated by blank lines, between an opening and a closing newline. */
  lemma {:induction false} BlockTextJoin(codes: seq<string>)
    requires |codes| > 0
    ensures BlockText(codes) == "\n" + Join(codes, "\n\n") + "\n"
    decreases |codes|
  {
    var init := codes[..|codes| - 1];
    var c := codes[|codes| - 1];
    if |init| > 0 {
      BlockTextJoin(init);
      assert codes == init + [c];
      MergeLines.JoinSnoc(init, c, "\n\n");
    } else {
      assert codes == [c];
    }
  }

  /** Every code is in the printed text, between newlines. */
  lemma {:induction false} BlockTextContains(codes: seq<string>, k: nat)
    requires k < |codes|
    ensures Contains(BlockText(codes), "\n" + codes[k] + "\n")
    decreases |codes|
  {
    var init := codes[..|codes| - 1];
    var c := codes[|codes| - 1];
    var piece := "\n" + codes[k] + "\n";
    if k < |init| {
      BlockTextContains(init, k);
      assert init[k] == codes[k];
      ContainsPrefix(BlockText(init), "\n" + c + "\n", piece);
      assert BlockText(codes) == BlockText(init) + ("\n" + c + "\n");
    } else {
      assert BlockText(codes) == BlockText(init) + piece;
      ContainsAt(piece, piece, 0);
      ContainsSuffix(BlockText(init), piece, piece);
    }
  }

  // ------------------------------------------------------------------
  // createIntegratedTestFile

  const HeadersMerged := "\n// --------------------HEADERS merged --------------------\n"
  const BlankLines := "\n\n"
  const SuggestedTestBlocksHeader :=
    "\n/**\n * Suggested Test Blocks - Generated Automatically\n * -----------------------------------------------\n"
    + " * This section contains suggested test blocks based on static analysis.\n"
    + " * Please review and inform any necessary adjustments.\n * -----------------------------------------------\n */\n"

  /** `text.split('\n').forEach(line => { if (line.trim()) set.add(line.trim()); })` */
  method AddTrimmedLines(text: string) returns (added: seq<string>)
    ensures added == AddedLines(text)
  {
    var lines := Split(text, '\n');
    added := [];
    var addedSet: set<string> := {};
    for i := 0 to |lines|
      invariant added == Distinct(TrimmedNonEmpty(lines[..i]))
      invariant forall x :: x in addedSet <==> x in added
    {
      var line := Trim(lines[i]);
      ghost var before := TrimmedNonEmpty(lines[..i]);
      TrimmedSnoc(lines, i);
      DistinctMembers(before);
      if line != "" {
        DistinctSnoc(before, line);
        if line !in addedSet {
          added := added + [line];
          addedSet := addedSet + {line};
        }
      } else {
        assert before + [] == before;
      }
    }
    assert lines[..|lines|] == lines;
  }

  /** The `linesAdded` record built from the cleaned blocks. */
  function AddedOf(cleaned: seq<Block>): MergeLines.LinesAdded
  {
    MergeLines.LinesAdded(
      AddedLines(ImportLinesText(cleaned)),
      AddedLines(GroupMocks.Prefixed(GroupMocks.DistinctMockLines(cleaned))),
      AddedLines(LibraryText(cleaned)),
      [GroupMocks.GlobalMockText(GroupMocks.GlobalMocks(cleaned))])
  }

  /** The written text around what mergeLines returned: the marker, the header, then the blocks. */
  function IntegratedText(merged: string, cleaned: seq<Block>): string
  {
    merged + HeadersMerged + (BlankLines + SuggestedTestBlocksHeader) + BlockText(Map(cleaned, CodeOf))
  }

  /**
   * What createIntegratedTestFile writes, given the test file's content;
   * `corrected` chooses mergeLines' import pass as written or corrected.
   */
  function IntegratedContent(content: string, suggestedTestBlocks: seq<Block>, importLinesSet: seq<string>,
                             mockLinesSet: seq<string>, serialize: seq<MockObj> -> string, corrected: bool): string
  {
    var cleaned := CleanBlocks.CleanedBlocks(suggestedTestBlocks, serialize);
    IntegratedText(MergeLines.MergedLines(importLinesSet, mockLinesSet, AddedOf(cleaned), TrimEnd(content), corrected), cleaned)
  }

  /** createIntegratedTestFile, from the content read to the content written. */
  method CreateIntegratedTestFile(content: string, suggestedTestBlocks: seq<Block>, importLinesSet: seq<string>,
                                  mockLinesSet: seq<string>, serialize: seq<MockObj> -> string, corrected: bool)
    returns (newContent: string)
    ensures newContent == IntegratedContent(content, suggestedTestBlocks, importLinesSet, mockLinesSet, serialize, corrected)
  {
    var trimmed := TrimEnd(content);
    var cleaned := CleanBlocks.CleanSuggestedTestBlocks(suggestedTestBlocks, serialize);
    var linesAdded := CollectAdded(cleaned);
    newContent := MergeLines.MergeLines(importLinesSet, mockLinesSet, linesAdded, trimmed, corrected);
    newContent := newContent + HeadersMerged;
    newContent := newContent + (BlankLines + SuggestedTestBlocksHeader);
    var blockLines := AllBlockLines(cleaned);
    newContent := newContent + blockLines;
  }

  /** Steps 1 to 3 and the global mocks: the lines each helper prints, as Sets. */
  method CollectAdded(cleaned: seq<Block>) returns (linesAdded: MergeLines.LinesAdded)
    ensures linesAdded == AddedOf(cleaned)
  {
    var importLines := AllImportLines(cleaned);
    var importedLines := AddTrimmedLines(importLines);
    var mockLines := GroupMocks.AllMockLines(cleaned);
    var mockedLines := AddTrimmedLines(mockLines);
    var libraryLines := AllLibraryLines(cleaned);
    var testingLibraryLines := AddTrimmedLines(libraryLines);
    var globalMockLines := GroupMocks.AllGlobalMockLines(cleaned);
    linesAdded := MergeLines.LinesAdded(importedLines, mockedLines, testingLibraryLines, [globalMockLines]);
  }

  // ------------------------------------------------------------------
  // What createIntegratedTestFile promises

  /**
   * The written file ends with the header and then the code of every
   * suggested block that survived cleaning, in order, separated by blank lines.
   */
  lemma IntegratedTail(merged: string, cleaned: seq<Block>)
    requires |cleaned| > 0
    ensures EndsWith(IntegratedText(merged, cleaned),
                     SuggestedTestBlocksHeader + ("\n" + Join(Map(cleaned, CodeOf), "\n\n") + "\n"))
  {
    var codes := Map(cleaned, CodeOf);
    BlockTextJoin(codes);
    EndsWithTail(merged + HeadersMerged, BlankLines, SuggestedTestBlocksHeader, BlockText(codes));
  }

  lemma EndsWithTail(p: string, c: string, h: string, b: string)
    ensures EndsWith(p + (c + h) + b, h + b)
  {
    var s := p + (c + h) + b;
    assert s == (p + c) + (h + b);
    assert s[|s| - |h + b|..] == h + b;
  }

  lemma StartsWithHead(a: string, c: string, b: string)
    ensures StartsWith(a + c + b, a)
  {
    assert (a + c + b)[..|a|] == a;
  }

  /** The written text starts with what mergeLines returned, followed by the marker line. */
  lemma IntegratedHead(merged: string, cleaned: seq<Block>)
    ensures StartsWith(IntegratedText(merged, cleaned), merged + HeadersMerged)
  {
    StartsWithHead(merged + HeadersMerged, BlankLines + SuggestedTestBlocksHeader, BlockText(Map(cleaned, CodeOf)));
  }

  /** Each kept block's code is in the written text on lines of its own. */
  lemma IntegratedBlocks(merged: string, cleaned: seq<Block>, k: nat)
    requires k < |cleaned|
    ensures Contains(IntegratedText(merged, cleaned), "\n" + cleaned[k].code + "\n")
  {
    var codes := Map(cleaned, CodeOf);
    BlockTextContains(codes, k);
    ContainsSuffix(merged + HeadersMerged + (BlankLines + SuggestedTestBlocksHeader), BlockText(codes), "\n" + cleaned[k].code + "\n");
  }

  /**
   * The import lines handed to mergeLines are the grouped import lines of
   * the cleaned blocks, and the Testing Library import is handed over
   * exactly when some cleaned block uses the library.
   */
  lemma IntegratedAdded(suggestedTestBlocks: seq<Block>, serialize: seq<MockObj> -> string)
    requires PlainPairs(Pairs(CleanBlocks.CleanedBlocks(suggestedTestBlocks, serialize)))
    ensures var cleaned := CleanBlocks.CleanedBlocks(suggestedTestBlocks, serialize);
            AddedOf(cleaned).importedLines == ImportLines(cleaned)
            && AddedOf(cleaned).testingLibraryLines
               == if exists i :: 0 <= i < |cleaned| && UsesLibrary(cleaned[i]) then [TestingLibraryImport] else []
  {
    var cleaned := CleanBlocks.CleanedBlocks(suggestedTestBlocks, serialize);
    ImportLinesReadBack(cleaned);
    LibraryLinesReadBack(cleaned);
  }
}
