/**
 * Step (a) of mergeLinesHelper: every line starting with `import ` whose
 * `from "..."` clause names a path contributes the names it binds to the Set
 * of that path in `importByPath`; one line per path is then rebuilt from the
 * sorted names, and the rebuilt lines are sorted.
 */
module MergeImports {
  import opened JsText
  import opened LineScan
  import opened GroupImports
  import opened ImportReparse

  /**
   * What one line contributes to `importByPath`: a path, the names it binds
   * there, and whether it binds them outside braces.
   */
  datatype ImportRead = ImportRead(path: Option<string>, names: seq<string>, bare: bool)

  /**
   * The names of an import line as the source reads them: the split and
   * trimmed `{...}` list when `import\s+\{([^}]+)\}` matches, else the binding
   * of `import\s+([^\s\{]+)\s+from`, else none.
   */
  function ReadNamesAsWritten(line: string): seq<string>
  {
    match BracedNames(line)
    case Some(inner) => NamesOf(inner)
    case None =>
      match BareBinding(line)
      case Some(d) => [d]
      case None => []
  }

  /** The same, and also the namespace binding `* as X` that the bare pattern cannot match. */
  function ReadNames(line: string): seq<string>
  {
    match BracedNames(line)
    case Some(inner) => NamesOf(inner)
    case None =>
      match BareBinding(line)
      case Some(d) => [d]
      case None =>
        match StarBinding(line)
        case Some(star) => [star]
        case None => []
  }

  /** The first `forEach` of step (a), for one line, with the names read by `names`. */
  function ReadImportWith(line: string, names: string -> seq<string>): ImportRead
  {
    if !StartsWith(line, ImportSp) then ImportRead(None, [], false)
    else
      match GreedyPath(line)
      case None => ImportRead(None, [], false)
      case Some(p) => ImportRead(Some(p), names(line), BracedNames(line).None?)
  }

  /** The source keeps no record of how a name was bound: its reads never mark names bare. */
  function ReadImportAsWritten(line: string): ImportRead
  {
    ReadImportWith(line, ReadNamesAsWritten).(bare := false)
  }

  function ReadImport(line: string): ImportRead
  {
    ReadImportWith(line, ReadNames)
  }

  /**
   * `importByPath`: its keys in insertion order and the Set of each; and,
   * for the corrected rebuild, the names of each path bound outside braces.
   */
  datatype ByPath = ByPath(keys: seq<string>, names: map<string, seq<string>>, bare: map<string, seq<string>>)

  const NoPaths := ByPath([], map[], map[])

  function AddRead(acc: ByPath, r: ImportRead): ByPath
  {
    match r.path
    case None => acc
    case Some(p) =>
      ByPath(KeysAfter(acc.keys, acc.names, p), acc.names[p := AddAll(Get(acc.names, p), r.names)],
             if r.bare then acc.bare[p := AddAll(Get(acc.bare, p), r.names)] else acc.bare)
  }

  function CollectReads(rs: seq<ImportRead>): ByPath
    decreases |rs|
  {
    if |rs| == 0 then NoPaths else AddRead(CollectReads(rs[..|rs| - 1]), rs[|rs| - 1])
  }

  /** The paths the reads name, in order. */
  function PathsOf(rs: seq<ImportRead>): seq<string>
    decreases |rs|
  {
    if |rs| == 0 then []
    else
      var init := PathsOf(rs[..|rs| - 1]);
      match rs[|rs| - 1].path
      case Some(p) => init + [p]
      case None => init
  }

  predicate HasStar(n: string) { '*' in n }

  /** `namesArr.some(n => n.includes('*'))` */
  predicate AnyStar(ns: seq<string>)
    decreases |ns|
  {
    |ns| > 0 && (HasStar(ns[0]) || AnyStar(ns[1..]))
  }

  /**
   * The line the source rebuilds for a path from its sorted names: one name
   * without '*' is printed as a default import, names with a '*' after
   * `import ` as they are, and any other list in braces.
   */
  function RebuildImportAsWritten(p: string, names: seq<string>, bare: seq<string>): string
  {
    if |names| == 1 && !HasStar(names[0]) then DefaultLine(names, p)
    else if AnyStar(names) then DefaultLine(names, p)
    else NamedLine(names, p)
  }

  /** The same, printing one name as a default import only when it was bound as one. */
  function RebuildImport(p: string, names: seq<string>, bare: seq<string>): string
  {
    if |names| == 1 && !HasStar(names[0]) && names[0] in bare then DefaultLine(names, p)
    else if AnyStar(names) then DefaultLine(names, p)
    else NamedLine(names, p)
  }

  /** The rebuilt line of each key, in key order. */
  function RebuildAll(acc: ByPath, keys: seq<string>, rebuild: (string, seq<string>, seq<string>) -> string): (r: seq<string>)
    ensures |r| == |keys|
    decreases |keys|
  {
    if |keys| == 0 then []
    else
      var k := keys[|keys| - 1];
      RebuildAll(acc, keys[..|keys| - 1], rebuild) + [rebuild(k, Sort(Get(acc.names, k)), Get(acc.bare, k))]
  }

  /** Step (a) with a given reader and rebuild. */
  function MergedWith(lines: seq<string>, read: string -> ImportRead, rebuild: (string, seq<string>, seq<string>) -> string): seq<string>
  {
    var acc := CollectReads(Map(lines, read));
    Sort(RebuildAll(acc, acc.keys, rebuild))
  }

  /** The `imports` of step (a), as the source computes them. */
  function MergedImportsAsWritten(lines: seq<string>): seq<string>
  {
    MergedWith(lines, ReadImportAsWritten, RebuildImportAsWritten)
  }

  /** The `imports` of step (a), with both readings corrected. */
  function MergedImports(lines: seq<string>): seq<string>
  {
    MergedWith(lines, ReadImport, RebuildImport)
  }

  /** The reader as written (`corrected` false) or corrected. */
  function ReaderOf(corrected: bool): string -> ImportRead
  {
    if corrected then ReadImport else ReadImportAsWritten
  }

  /** The rebuild as written (`corrected` false) or corrected. */
  function RebuildOf(corrected: bool): (string, seq<string>, seq<string>) -> string
  {
    if corrected then RebuildImport else RebuildImportAsWritten
  }

  // ------------------------------------------------------------------
  // The method

  /**
   * Step (a): the source's `imports` when `corrected` is false, the
   * corrected ones when it is true.
   */
  method RebuildImports(allLines: seq<string>, corrected: bool) returns (imports: seq<string>)
    ensures imports == if corrected then MergedImports(allLines) else MergedImportsAsWritten(allLines)
  {
    var acc := CollectEachRead(allLines, corrected);
    var rebuilt := RebuildEach(acc, corrected);
    imports := Sort(rebuilt);
  }

  /** `allLines.forEach(...)` filling `importByPath`. */
  method CollectEachRead(allLines: seq<string>, corrected: bool) returns (acc: ByPath)
    ensures acc == CollectReads(Map(allLines, ReaderOf(corrected)))
  {
    ghost var rs := Map(allLines, ReaderOf(corrected));
    acc := NoPaths;
    for i := 0 to |allLines|
      invariant acc == CollectReads(rs[..i])
    {
      var read := if corrected then ReadImport(allLines[i]) else ReadImportAsWritten(allLines[i]);
      assert rs[..i + 1][..i] == rs[..i];
      assert rs[..i + 1][i] == read;
      acc := CollectOneRead(acc, read);
    }
    assert rs[..|allLines|] == rs;
  }

  /**
   * The body of that `forEach`: create the path's Set when absent, then add
   * the names. Names bound outside braces are also recorded for the
   * corrected rebuild; an as-written read never marks any, so that map
   * stays empty, as the source has none.
   */
  method CollectOneRead(acc: ByPath, read: ImportRead) returns (acc': ByPath)
    ensures acc' == AddRead(acc, read)
  {
    var keys, importByPath, bareByPath := acc.keys, acc.names, acc.bare;
    if read.path.Some? {
      var path := read.path.value;
      if path !in importByPath {
        importByPath := importByPath[path := []];
        keys := keys + [path];
      }
      var names := AddEach(importByPath[path], read.names);
      importByPath := importByPath[path := names];
      if read.bare {
        var bare := AddEach(Get(bareByPath, path), read.names);
        bareByPath := bareByPath[path := bare];
      }
    }
    acc' := ByPath(keys, importByPath, bareByPath);
  }

  /** `Object.entries(importByPath).map(...)` */
  method RebuildEach(acc: ByPath, corrected: bool) returns (rebuilt: seq<string>)
    ensures rebuilt == RebuildAll(acc, acc.keys, RebuildOf(corrected))
  {
    rebuilt := [];
    for k := 0 to |acc.keys|
      invariant rebuilt == RebuildAll(acc, acc.keys[..k], RebuildOf(corrected))
    {
      assert acc.keys[..k + 1][..k] == acc.keys[..k];
      var path := acc.keys[k];
      var namesArr := Sort(Get(acc.names, path));
      var line := if corrected then RebuildImport(path, namesArr, Get(acc.bare, path))
                  else RebuildImportAsWritten(path, namesArr, Get(acc.bare, path));
      rebuilt := rebuilt + [line];
    }
    assert acc.keys[..|acc.keys|] == acc.keys;
  }

  // ------------------------------------------------------------------
  // What the first pass collects

  /** The keys are the distinct paths of the reads, and exactly the keys have a Set. */
  lemma {:induction false} CollectReadsKeys(rs: seq<ImportRead>)
    ensures CollectReads(rs).keys == Distinct(PathsOf(rs))
    ensures forall p :: p in CollectReads(rs).names <==> p in CollectReads(rs).keys
    decreases |rs|
  {
    if |rs| > 0 {
      var init := rs[..|rs| - 1];
      CollectReadsKeys(init);
      match rs[|rs| - 1].path {
        case Some(p) =>
          DistinctSnoc(PathsOf(init), p);
          DistinctMembers(PathsOf(init));
        case None =>
      }
    }
  }

  /** Read i names path p and binds n. */
  predicate ReadBinds(rs: seq<ImportRead>, i: int, p: string, n: string)
  {
    0 <= i < |rs| && rs[i].path == Some(p) && n in rs[i].names
  }

  /** The Set of a path holds exactly the names that reads of that path bind, each once. */
  lemma {:induction false} CollectReadsNames(rs: seq<ImportRead>, p: string, n: string)
    ensures NoDup(Get(CollectReads(rs).names, p))
    ensures n in Get(CollectReads(rs).names, p) <==> exists i :: ReadBinds(rs, i, p, n)
    decreases |rs|
  {
    if |rs| > 0 {
      var k := |rs| - 1;
      var init := rs[..k];
      var acc := CollectReads(init);
      CollectReadsNames(init, p, n);
      assert forall i :: ReadBinds(init, i, p, n) <==> i != k && ReadBinds(rs, i, p, n);
      if rs[k].path == Some(p) {
        AddAllMembers(Get(acc.names, p), rs[k].names);
        AddAllNoDup(Get(acc.names, p), rs[k].names);
        if ReadBinds(rs, k, p, n) {
          assert exists i :: ReadBinds(rs, i, p, n);
        }
      }
    }
  }

  /** Read i names path p and binds n outside braces. */
  predicate ReadBindsBare(rs: seq<ImportRead>, i: int, p: string, n: string)
  {
    ReadBinds(rs, i, p, n) && rs[i].bare
  }

  /** The bare names of a path are exactly those that a read of that path binds outside braces. */
  lemma {:induction false} CollectReadsBare(rs: seq<ImportRead>, p: string, n: string)
    ensures n in Get(CollectReads(rs).bare, p) <==> exists i :: ReadBindsBare(rs, i, p, n)
    decreases |rs|
  {
    if |rs| > 0 {
      var k := |rs| - 1;
      var init := rs[..k];
      var acc := CollectReads(init);
      CollectReadsBare(init, p, n);
      assert forall i :: ReadBindsBare(init, i, p, n) <==> i != k && ReadBindsBare(rs, i, p, n);
      if rs[k].path == Some(p) && rs[k].bare {
        AddAllMembers(Get(acc.bare, p), rs[k].names);
        if ReadBindsBare(rs, k, p, n) {
          assert exists i :: ReadBindsBare(rs, i, p, n);
        }
      }
    }
  }

  lemma {:induction false} RebuildAllAt(acc: ByPath, keys: seq<string>, k: nat, rebuild: (string, seq<string>, seq<string>) -> string)
    requires k < |keys|
    ensures RebuildAll(acc, keys, rebuild)[k] == rebuild(keys[k], Sort(Get(acc.names, keys[k])), Get(acc.bare, keys[k]))
    decreases |keys|
  {
    if k < |keys| - 1 {
      RebuildAllAt(acc, keys[..|keys| - 1], k, rebuild);
    }
  }

  /**
   * The imports step prints one line per distinct path, sorted, and the line
   * of path p is rebuilt from the sorted Set of the names bound to p.
   */
  lemma MergedWithSpec(lines: seq<string>, read: string -> ImportRead, rebuild: (string, seq<string>, seq<string>) -> string, p: string)
    ensures var rs := Map(lines, read);
            var acc := CollectReads(rs);
            var imports := MergedWith(lines, read, rebuild);
            Sorted(imports) && |imports| == |Distinct(PathsOf(rs))|
            && (p in PathsOf(rs) ==> rebuild(p, Sort(Get(acc.names, p)), Get(acc.bare, p)) in imports)
  {
    var rs := Map(lines, read);
    var acc := CollectReads(rs);
    CollectReadsKeys(rs);
    DistinctMembers(PathsOf(rs));
    var rebuilt := RebuildAll(acc, acc.keys, rebuild);
    if p in PathsOf(rs) {
      var k :| 0 <= k < |acc.keys| && acc.keys[k] == p;
      RebuildAllAt(acc, acc.keys, k, rebuild);
      assert rebuilt[k] in multiset(rebuilt);
      assert rebuilt[k] in multiset(Sort(rebuilt));
    }
    assert |multiset(Sort(rebuilt))| == |multiset(rebuilt)|;
  }

  /** The corrected imports step: one sorted line per distinct path, rebuilt from that path's names. */
  lemma MergedImportsSpec(lines: seq<string>, p: string)
    ensures var rs := Map(lines, ReadImport);
            var acc := CollectReads(rs);
            var imports := MergedImports(lines);
            Sorted(imports) && |imports| == |Distinct(PathsOf(rs))|
            && (p in PathsOf(rs) ==> RebuildImport(p, Sort(Get(acc.names, p)), Get(acc.bare, p)) in imports)
  {
    MergedWithSpec(lines, ReadImport, RebuildImport, p);
  }

  /** As written, a path whose Set holds exactly one name without '*' is printed as `import N from "p";`. */
  lemma SingleBindingAsWritten(lines: seq<string>, p: string, n: string)
    requires var rs := Map(lines, ReadImportAsWritten);
             p in PathsOf(rs) && Get(CollectReads(rs).names, p) == [n] && !HasStar(n)
    ensures DefaultLine([n], p) in MergedImportsAsWritten(lines)
  {
    MergedWithSpec(lines, ReadImportAsWritten, RebuildImportAsWritten, p);
    assert Sort([n]) == [n];
  }

  // ------------------------------------------------------------------
  // A single line read back

  /** A single line that names a path is rebuilt from its own names alone. */
  lemma MergedOne(line: string, read: string -> ImportRead, rebuild: (string, seq<string>, seq<string>) -> string)
    requires read(line).path.Some?
    ensures var r := read(line);
            var ns := AddAll([], r.names);
            MergedWith([line], read, rebuild) == [rebuild(r.path.value, Sort(ns), if r.bare then ns else [])]
  {
    var r := read(line);
    var rs := Map([line], read);
    assert rs == [r];
    assert rs[..0] == [];
    var acc := CollectReads(rs);
    assert CollectReads(rs[..0]) == NoPaths;
    assert acc == AddRead(CollectReads(rs[..0]), rs[0]);
    assert acc.keys == [r.path.value];
    var x := rebuild(r.path.value, Sort(Get(acc.names, r.path.value)), Get(acc.bare, r.path.value));
    assert RebuildAll(acc, acc.keys, rebuild) == [x] by {
      assert acc.keys[..0] == [];
    }
    assert Sort([x]) == [x];
  }

  /** Names without '*' contain no namespace binding. */
  lemma {:induction false} NoStar(ns: seq<string>)
    requires forall k :: 0 <= k < |ns| ==> '*' !in ns[k]
    ensures !AnyStar(ns)
    decreases |ns|
  {
    if |ns| > 0 {
      assert forall k :: 0 <= k < |ns[1..]| ==> ns[1..][k] == ns[k + 1];
      NoStar(ns[1..]);
    }
  }

  /** `import { n1, n2 } from "p";` is read as p with the names n1, n2, in braces. */
  lemma NamedLineReads(names: seq<string>, p: string)
    requires |names| > 0 && (forall k :: 0 <= k < |names| ==> Identifier(names[k])) && LinePath(p)
    ensures ReadImportAsWritten(NamedLine(names, p)) == ImportRead(Some(p), names, false)
    ensures ReadImport(NamedLine(names, p)) == ImportRead(Some(p), names, false)
  {
    var s := NamedLine(names, p);
    var J := Join(names, CommaSp);
    forall k | 0 <= k < |names|
      ensures '}' !in names[k] && ',' !in names[k] && Trim(names[k]) == names[k]
    {
      IdentifierAvoids(names[k]);
      IdentifierTrimmed(names[k]);
    }
    NamedLineLits(names, p);
    assert StartsWith(s, ImportSp);
    NamedLineTail(names, p);
    NamedHeadQuoteFree(names);
    GreedyPathOf(NamedHead(J), p);
    NamedLineBraced(names, p);
    NamesReparse(" ", names);
  }

  /** `import d from "p";` is read as p with the name d, bare for the corrected reader. */
  lemma DefaultLineReads(d: string, p: string)
    requires Identifier(d) && LinePath(p) && '{' !in p
    ensures ReadImportAsWritten(DefaultLine([d], p)) == ImportRead(Some(p), [d], false)
    ensures ReadImport(DefaultLine([d], p)) == ImportRead(Some(p), [d], true)
  {
    DefaultLineScans(d, p);
  }

  /**
   * `import * as X from "p";` is read as p with no name by the source, and
   * with the binding `* as X` by the corrected reader.
   */
  lemma StarLineReads(alias: string, p: string)
    requires Identifier(alias) && LinePath(p) && '{' !in p && !Contains(alias, ImportKw) && !Contains(p, ImportKw)
    ensures ReadImportAsWritten(StarLine(p, StarPrefix + alias)) == ImportRead(Some(p), [], false)
    ensures ReadImport(StarLine(p, StarPrefix + alias)) == ImportRead(Some(p), [StarPrefix + alias], true)
  {
    StarLineScans(alias, p);
  }

  // ------------------------------------------------------------------
  // The two readings the source gets wrong, and the corrected ones

  /**
   * As written, a path imported by one braced name is printed as a default
   * import of that name: `import { render } from "x";` becomes
   * `import render from "x";`, which binds the module's default export.
   */
  lemma SingleNamedAsWritten(n: string, p: string)
    requires Identifier(n) && LinePath(p)
    ensures MergedImportsAsWritten([NamedLine([n], p)]) == [DefaultLine([n], p)]
    ensures DefaultLine([n], p) != NamedLine([n], p)
  {
    var s := NamedLine([n], p);
    NamedLineReads([n], p);
    MergedOne(s, ReadImportAsWritten, RebuildImportAsWritten);
    AddAllFresh([], [n]);
    assert [] + [n] == [n];
    assert Sort([n]) == [n];
    IdentifierAvoids(n);
    DefaultDiffersFromNamed(n, p);
  }

  lemma DefaultDiffersFromNamed(n: string, p: string)
    requires Identifier(n)
    ensures DefaultLine([n], p) != NamedLine([n], p)
  {
    DefaultLineLits(n, p);
    NamedLineLits([n], p);
    LitAtChars(DefaultLine([n], p), 7, n);
    LitAtChars(NamedLine([n], p), 7, BraceOpen);
  }

  /**
   * As written, a namespace import loses its binding: no pattern reads
   * `* as X`, the path gets an empty Set, and the line printed is
   * `import {  } from "p";`.
   */
  lemma StarAsWritten(alias: string, p: string)
    requires Identifier(alias) && LinePath(p) && '{' !in p && !Contains(alias, ImportKw) && !Contains(p, ImportKw)
    ensures MergedImportsAsWritten([StarLine(p, StarPrefix + alias)]) == [NamedLine([], p)]
    ensures NamedLine([], p) != StarLine(p, StarPrefix + alias)
  {
    StarLineReads(alias, p);
    MergedOne(StarLine(p, StarPrefix + alias), ReadImportAsWritten, RebuildImportAsWritten);
    assert Sort([]) == [];
    StarDiffersFromNamed(alias, p);
  }

  lemma StarDiffersFromNamed(alias: string, p: string)
    ensures NamedLine([], p) != StarLine(p, StarPrefix + alias)
  {
    NamedLineLits([], p);
    StarLineLits(alias, p);
    LitAtChars(NamedLine([], p), 7, BraceOpen);
    LitAtChars(StarLine(p, StarPrefix + alias), 7, StarPrefix);
  }

  /** Corrected: a braced list stays braced, with its names sorted; a sorted list comes back unchanged. */
  lemma MergedNamedLine(names: seq<string>, p: string)
    requires |names| > 0 && NoDup(names) && (forall k :: 0 <= k < |names| ==> Identifier(names[k])) && LinePath(p)
    ensures MergedImports([NamedLine(names, p)]) == [NamedLine(Sort(names), p)]
    ensures Sorted(names) ==> MergedImports([NamedLine(names, p)]) == [NamedLine(names, p)]
  {
    var s := NamedLine(names, p);
    NamedLineReads(names, p);
    MergedOne(s, ReadImport, RebuildImport);
    AddAllFresh([], names);
    assert [] + names == names;
    SortedNoStar(names);
    assert RebuildImport(p, Sort(names), []) == NamedLine(Sort(names), p);
    if Sorted(names) {
      SortedUnique(Sort(names), names);
    }
  }

  lemma SortedNoStar(names: seq<string>)
    requires forall k :: 0 <= k < |names| ==> Identifier(names[k])
    ensures !AnyStar(Sort(names))
  {
    NoStarAmong(Sort(names), names);
  }

  lemma NoStarAmong(sorted: seq<string>, names: seq<string>)
    requires forall k :: 0 <= k < |names| ==> Identifier(names[k])
    requires multiset(sorted) == multiset(names)
    ensures !AnyStar(sorted)
  {
    forall k | 0 <= k < |sorted| ensures '*' !in sorted[k] {
      var x := sorted[k];
      assert x in multiset(sorted);
      assert x in names;
      var j :| 0 <= j < |names| && names[j] == x;
      IdentifierAvoids(names[j]);
    }
    NoStar(sorted);
  }

  /** Corrected: a default import comes back unchanged. */
  lemma MergedDefaultLine(d: string, p: string)
    requires Identifier(d) && LinePath(p) && '{' !in p
    ensures MergedImports([DefaultLine([d], p)]) == [DefaultLine([d], p)]
  {
    DefaultLineReads(d, p);
    MergedOne(DefaultLine([d], p), ReadImport, RebuildImport);
    AddAllFresh([], [d]);
    assert [] + [d] == [d];
    assert Sort([d]) == [d];
    IdentifierAvoids(d);
  }

  /** Corrected: a namespace import comes back unchanged. */
  lemma MergedStarLine(alias: string, p: string)
    requires Identifier(alias) && LinePath(p) && '{' !in p && !Contains(alias, ImportKw) && !Contains(p, ImportKw)
    ensures MergedImports([StarLine(p, StarPrefix + alias)]) == [StarLine(p, StarPrefix + alias)]
  {
    var star := StarPrefix + alias;
    StarLineReads(alias, p);
    MergedOne(StarLine(p, star), ReadImport, RebuildImport);
    AddAllFresh([], [star]);
    assert [] + [star] == [star];
    assert Sort([star]) == [star];
    assert HasStar(star) by {
      assert star[0] == '*';
    }
    assert AnyStar([star]);
    assert Join([star], CommaSp) == star;
  }
}
