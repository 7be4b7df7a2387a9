/**
 * groupImports: import lines grouped by module path. Named bindings of a
 * path are merged into one Set, default bindings into another, namespace
 * bindings (`* as X`) are kept apart, and lines of no known shape are kept
 * as they are. Paths are emitted in sorted order.
 */
module GroupImports {
  import opened JsText
  import opened LineScan

  // ------------------------------------------------------------------
  // Sets as the list of their members in insertion order

  /** `ns.forEach(n => members.add(n))` */
  function AddAll(members: seq<string>, ns: seq<string>): seq<string>
    decreases |ns|
  {
    if |ns| == 0 then members
    else AddAll(if ns[0] in members then members else members + [ns[0]], ns[1..])
  }

  lemma {:induction false} AddAllMembers(members: seq<string>, ns: seq<string>)
    ensures forall x :: x in AddAll(members, ns) <==> x in members || x in ns
    decreases |ns|
  {
    if |ns| > 0 {
      var next := if ns[0] in members then members else members + [ns[0]];
      AddAllMembers(next, ns[1..]);
      assert forall x :: x in ns <==> x == ns[0] || x in ns[1..];
    }
  }

  lemma {:induction false} AddAllNoDup(members: seq<string>, ns: seq<string>)
    requires NoDup(members)
    ensures NoDup(AddAll(members, ns))
    decreases |ns|
  {
    if |ns| > 0 {
      var next := if ns[0] in members then members else members + [ns[0]];
      assert NoDup(next);
      AddAllNoDup(next, ns[1..]);
    }
  }

  /** Adding the members one at a time, as the source's inner `forEach` does. */
  method AddEach(members: seq<string>, ns: seq<string>) returns (r: seq<string>)
    ensures r == AddAll(members, ns)
  {
    r := members;
    for j := 0 to |ns|
      invariant AddAll(r, ns[j..]) == AddAll(members, ns)
    {
      assert ns[j..][1..] == ns[j + 1..];
      if ns[j] !in r {
        r := r + [ns[j]];
      }
    }
  }

  function Get(m: map<string, seq<string>>, k: string): seq<string>
  {
    if k in m then m[k] else []
  }

  // ------------------------------------------------------------------
  // What the first pass collects

  /**
   * `importMap` (path to the Set of named and namespace bindings, keys in
   * insertion order) and `defaultImports` (path to the Set of default names).
   */
  datatype Groups = Groups(
    bindingKeys: seq<string>,
    bindings: map<string, seq<string>>,
    defaultKeys: seq<string>,
    defaults: map<string, seq<string>>)

  const NoGroups := Groups([], map[], [], map[])

  /** `match[1].split(',').map(s => s.trim())` */
  function NamesOf(inner: string): seq<string>
  {
    TrimAll(Split(inner, ','))
  }

  function TrimAll(pieces: seq<string>): seq<string>
  {
    if |pieces| == 0 then [] else [Trim(pieces[0])] + TrimAll(pieces[1..])
  }

  lemma {:induction false} TrimAllIsMap(pieces: seq<string>)
    ensures TrimAll(pieces) == Map(pieces, Trim)
  {
    if |pieces| > 0 {
      TrimAllIsMap(pieces[1..]);
    }
  }

  /** Writing key k of an object appends k to its key order when it is new. */
  function KeysAfter(keys: seq<string>, m: map<string, seq<string>>, k: string): seq<string>
  {
    if k in m then keys else keys + [k]
  }

  /** Add names to the Set under key p of `importMap`, creating it when absent. */
  function WithBindings(g: Groups, p: string, ns: seq<string>): Groups
  {
    g.(bindingKeys := KeysAfter(g.bindingKeys, g.bindings, p),
       bindings := g.bindings[p := AddAll(Get(g.bindings, p), ns)])
  }

  /** The Sets a line of the given shape writes. */
  function CollectShape(g: Groups, line: string, shape: ImportShape): Groups
  {
    match shape
    case NamedImport(inner, path) => WithBindings(g, path, NamesOf(inner))
    case DefaultImport(name, path) =>
      var g' := WithBindings(g, path, []);
      g'.(defaultKeys := KeysAfter(g.defaultKeys, g.defaults, path),
          defaults := g.defaults[path := AddAll(Get(g.defaults, path), [name])])
    case StarImport(alias, path) => WithBindings(g, path, [StarPrefix + alias])
    case Unmatched => WithBindings(g, line, [])
  }

  /** The shapes of the lines, as the three regexes of the first pass read them. */
  function Shapes(lines: seq<string>): (r: seq<ImportShape>)
    ensures |r| == |lines|
    decreases |lines|
  {
    if |lines| == 0 then [] else Shapes(lines[..|lines| - 1]) + [ParseImportShape(lines[|lines| - 1])]
  }

  lemma {:induction false} ShapesAt(lines: seq<string>, i: nat)
    requires i < |lines|
    ensures Shapes(lines)[i] == ParseImportShape(lines[i])
    decreases |lines|
  {
    if i < |lines| - 1 {
      ShapesAt(lines[..|lines| - 1], i);
    }
  }

  /**
   * The maps after the first pass over the (already rewritten) lines, each
   * line given with its shape.
   */
  function Collect(lines: seq<string>, shapes: seq<ImportShape>): Groups
    requires |shapes| == |lines|
    decreases |lines|
  {
    if |lines| == 0 then NoGroups
    else CollectShape(Collect(lines[..|lines| - 1], shapes[..|lines| - 1]), lines[|lines| - 1], shapes[|lines| - 1])
  }

  // ------------------------------------------------------------------
  // What the second pass emits

  predicate IsStarBinding(n: string) { StartsWith(n, StarPrefix) }

  predicate IsNamedBinding(n: string) { !IsStarBinding(n) }

  const ImportSp := ImportKw + " "
  const BraceOpen := "{ "
  const Quote := "\""
  const FromSp := " from "
  const FromQuote := FromSp + Quote
  const CloseBrace := " }"
  const BraceCloseFrom := CloseBrace + FromQuote
  const QuoteSemi := Quote + ";"
  const CommaSp := ", "

  /** `import D{ n1, n2 } from "p";`: no comma between the default and the braces. */
  function MixedLine(defs: seq<string>, names: seq<string>, p: string): string
  {
    ImportSp + Join(defs, CommaSp) + BraceOpen + Join(names, CommaSp) + BraceCloseFrom + p + QuoteSemi
  }

  /** `import D from "p";` */
  function DefaultLine(defs: seq<string>, p: string): string
  {
    ImportSp + Join(defs, CommaSp) + FromQuote + p + QuoteSemi
  }

  /** `import { n1, n2 } from "p";` */
  function NamedLine(names: seq<string>, p: string): string
  {
    ImportSp + BraceOpen + Join(names, CommaSp) + BraceCloseFrom + p + QuoteSemi
  }

  /** `import * as X from "p";` */
  function StarLine(p: string, star: string): string
  {
    ImportSp + star + FromQuote + p + QuoteSemi
  }

  function NamedOf(g: Groups, p: string): seq<string>
  {
    Filter(Get(g.bindings, p), IsNamedBinding)
  }

  function StarsOf(g: Groups, p: string): seq<string>
  {
    Filter(Get(g.bindings, p), IsStarBinding)
  }

  /** The default or named line of path p, if it has one. */
  function MainLine(g: Groups, p: string): seq<string>
  {
    var defs := Get(g.defaults, p);
    var named := NamedOf(g, p);
    if |defs| > 0 && |named| > 0 then [MixedLine(defs, Sort(named), p)]
    else if |defs| > 0 then [DefaultLine(defs, p)]
    else if |named| > 0 then [NamedLine(Sort(named), p)]
    else []
  }

  /** The lines emitted for one key of the merged key list. */
  function EmitPath(g: Groups, p: string): seq<string>
  {
    if StartsWith(p, ImportKw) then [p]
    else MainLine(g, p) + Map(StarsOf(g, p), s => StarLine(p, s))
  }

  /** `Array.from(new Set([...Object.keys(importMap), ...Object.keys(defaultImports)])).sort()` */
  function AllPaths(g: Groups): seq<string>
  {
    Sort(Distinct(g.bindingKeys + g.defaultKeys))
  }

  function EmitAll(g: Groups, paths: seq<string>): seq<string>
    decreases |paths|
  {
    if |paths| == 0 then []
    else EmitAll(g, paths[..|paths| - 1]) + EmitPath(g, paths[|paths| - 1])
  }

  /** What groupImports returns. */
  function GroupedImports(lines: seq<string>): seq<string>
  {
    var rebased := Map(lines, Rebase);
    var g := Collect(rebased, Shapes(rebased));
    EmitAll(g, AllPaths(g))
  }

  // ------------------------------------------------------------------
  // The method

  method GroupImports(importLines: seq<string>) returns (grouped: seq<string>)
    ensures grouped == GroupedImports(importLines)
  {
    var lines := Map(importLines, Rebase);
    var g := CollectEach(lines, Shapes(lines));
    grouped := EmitEach(g, AllPaths(g));
  }

  /** The first `forEach`. */
  method CollectEach(lines: seq<string>, shapes: seq<ImportShape>) returns (g: Groups)
    requires |shapes| == |lines|
    ensures g == Collect(lines, shapes)
  {
    g := NoGroups;
    for i := 0 to |lines|
      invariant g == Collect(lines[..i], shapes[..i])
    {
      assert lines[..i + 1][..i] == lines[..i] && shapes[..i + 1][..i] == shapes[..i];
      g := CollectOne(g, lines[i], shapes[i]);
    }
    assert lines[..|lines|] == lines && shapes[..|lines|] == shapes;
  }

  /** The second `forEach`, over the sorted paths. */
  method EmitEach(g: Groups, paths: seq<string>) returns (grouped: seq<string>)
    ensures grouped == EmitAll(g, paths)
  {
    grouped := [];
    for k := 0 to |paths|
      invariant grouped == EmitAll(g, paths[..k])
    {
      assert paths[..k + 1][..k] == paths[..k];
      grouped := grouped + EmitPath(g, paths[k]);
    }
    assert paths[..|paths|] == paths;
  }

  /** The body of the first `forEach`: the line's shape decides which Sets it writes. */
  method CollectOne(g: Groups, line: string, shape: ImportShape) returns (g': Groups)
    ensures g' == CollectShape(g, line, shape)
  {
    var bindings, defaults := g.bindings, g.defaults;
    var bindingKeys, defaultKeys := g.bindingKeys, g.defaultKeys;
    var path: string;
    var names: seq<string>;
    match shape {
      case NamedImport(inner, p) =>
        path, names := p, NamesOf(inner);
      case DefaultImport(name, p) =>
        path, names := p, [];
        if p !in defaults {
          defaults := defaults[p := []];
          defaultKeys := defaultKeys + [p];
        }
        var ds := AddEach(defaults[p], [name]);
        defaults := defaults[p := ds];
      case StarImport(alias, p) =>
        path, names := p, [StarPrefix + alias];
      case Unmatched =>
        path, names := line, [];
    }
    if path !in bindings {
      bindings := bindings[path := []];
      bindingKeys := bindingKeys + [path];
    }
    var bs := AddEach(bindings[path], names);
    bindings := bindings[path := bs];
    g' := Groups(bindingKeys, bindings, defaultKeys, defaults);
  }

  // ------------------------------------------------------------------
  // What a path collects

  /** The key a line of the given shape writes in `importMap`: its path, or the line itself. */
  function GroupKey(line: string, shape: ImportShape): string
  {
    match shape
    case Unmatched => line
    case NamedImport(_, path) => path
    case DefaultImport(_, path) => path
    case StarImport(_, path) => path
  }

  /** The members a line of the given shape adds to the Set under its key. */
  function AddedNames(shape: ImportShape): seq<string>
  {
    match shape
    case NamedImport(inner, _) => NamesOf(inner)
    case StarImport(alias, _) => [StarPrefix + alias]
    case _ => []
  }

  /** Line i contributes binding n (named or namespace) to path p. */
  predicate Binds(lines: seq<string>, shapes: seq<ImportShape>, i: int, p: string, n: string)
    requires |shapes| == |lines|
  {
    0 <= i < |lines| && GroupKey(lines[i], shapes[i]) == p && n in AddedNames(shapes[i])
  }

  lemma CollectShapeBindings(g: Groups, line: string, shape: ImportShape, p: string)
    ensures Get(CollectShape(g, line, shape).bindings, p)
            == if GroupKey(line, shape) == p then AddAll(Get(g.bindings, p), AddedNames(shape)) else Get(g.bindings, p)
    ensures Get(CollectShape(g, line, shape).defaults, p)
            == if shape.DefaultImport? && shape.path == p then AddAll(Get(g.defaults, p), [shape.name]) else Get(g.defaults, p)
  {
  }

  /** The Set of a path holds exactly the bindings that lines with that path contribute. */
  lemma BindingsCollected(lines: seq<string>, shapes: seq<ImportShape>, p: string, n: string)
    requires |shapes| == |lines|
    ensures n in Get(Collect(lines, shapes).bindings, p) <==> exists i :: Binds(lines, shapes, i, p, n)
  {
    CollectedBound(lines, shapes, p, n);
    BoundBinds(lines, shapes, p, n);
  }

  /** Everything the lines bring to path p, in order. */
  function BoundNames(lines: seq<string>, shapes: seq<ImportShape>, p: string): seq<string>
    requires |shapes| == |lines|
    decreases |lines|
  {
    if |lines| == 0 then []
    else
      var k := |lines| - 1;
      BoundNames(lines[..k], shapes[..k], p) + (if GroupKey(lines[k], shapes[k]) == p then AddedNames(shapes[k]) else [])
  }

  predicate BindingsAre(g: Groups, p: string, n: string, names: seq<string>)
  {
    n in Get(g.bindings, p) <==> n in names
  }

  lemma BindingsAreStep(g: Groups, line: string, shape: ImportShape, p: string, n: string, names: seq<string>)
    requires BindingsAre(g, p, n, names)
    ensures BindingsAre(CollectShape(g, line, shape), p, n, names + (if GroupKey(line, shape) == p then AddedNames(shape) else []))
  {
    BindingsStep(g, line, shape, p, n);
  }

  lemma {:induction false} CollectedBound(lines: seq<string>, shapes: seq<ImportShape>, p: string, n: string)
    requires |shapes| == |lines|
    ensures BindingsAre(Collect(lines, shapes), p, n, BoundNames(lines, shapes, p))
    decreases |lines|
  {
    if |lines| > 0 {
      var k := |lines| - 1;
      CollectedBound(lines[..k], shapes[..k], p, n);
      BindingsAreStep(Collect(lines[..k], shapes[..k]), lines[k], shapes[k], p, n, BoundNames(lines[..k], shapes[..k], p));
    }
  }

  lemma {:induction false} BoundBinds(lines: seq<string>, shapes: seq<ImportShape>, p: string, n: string)
    requires |shapes| == |lines|
    ensures n in BoundNames(lines, shapes, p) <==> exists i :: Binds(lines, shapes, i, p, n)
    decreases |lines|
  {
    if |lines| > 0 {
      var k := |lines| - 1;
      BoundBinds(lines[..k], shapes[..k], p, n);
      BindsSnoc(lines, shapes, p, n);
    }
  }

  lemma BindingsStep(g: Groups, line: string, shape: ImportShape, p: string, n: string)
    ensures n in Get(CollectShape(g, line, shape).bindings, p)
            <==> n in Get(g.bindings, p) || (GroupKey(line, shape) == p && n in AddedNames(shape))
  {
    CollectShapeBindings(g, line, shape, p);
    AddAllMembers(Get(g.bindings, p), AddedNames(shape));
  }

  lemma BindsSnoc(lines: seq<string>, shapes: seq<ImportShape>, p: string, n: string)
    requires |shapes| == |lines| > 0
    ensures var k := |lines| - 1;
            (exists i :: Binds(lines, shapes, i, p, n))
            <==> (exists i :: Binds(lines[..k], shapes[..k], i, p, n)) || Binds(lines, shapes, k, p, n)
  {
    var k := |lines| - 1;
    assert forall i :: Binds(lines[..k], shapes[..k], i, p, n) <==> i != k && Binds(lines, shapes, i, p, n);
  }

  /** The default Set of a path holds exactly the names of the default imports of that path. */
  lemma DefaultsCollected(lines: seq<string>, shapes: seq<ImportShape>, p: string, n: string)
    requires |shapes| == |lines|
    ensures n in Get(Collect(lines, shapes).defaults, p)
            <==> exists i :: 0 <= i < |lines| && shapes[i] == DefaultImport(n, p)
  {
    CollectedDefaults(lines, shapes, p, n);
    DefaultNamesSpec(shapes, p, n);
  }

  /** The default names the shapes bring to path p, in order. */
  function DefaultNames(shapes: seq<ImportShape>, p: string): seq<string>
    decreases |shapes|
  {
    if |shapes| == 0 then []
    else
      var k := |shapes| - 1;
      DefaultNames(shapes[..k], p) + (if shapes[k].DefaultImport? && shapes[k].path == p then [shapes[k].name] else [])
  }

  predicate DefaultsAre(g: Groups, p: string, n: string, names: seq<string>)
  {
    n in Get(g.defaults, p) <==> n in names
  }

  lemma DefaultsAreStep(g: Groups, line: string, shape: ImportShape, p: string, n: string, names: seq<string>)
    requires DefaultsAre(g, p, n, names)
    ensures DefaultsAre(CollectShape(g, line, shape), p, n,
                        names + (if shape.DefaultImport? && shape.path == p then [shape.name] else []))
  {
    DefaultsStep(g, line, shape, p, n);
  }

  lemma {:induction false} CollectedDefaults(lines: seq<string>, shapes: seq<ImportShape>, p: string, n: string)
    requires |shapes| == |lines|
    ensures DefaultsAre(Collect(lines, shapes), p, n, DefaultNames(shapes, p))
    decreases |lines|
  {
    if |lines| > 0 {
      var k := |lines| - 1;
      CollectedDefaults(lines[..k], shapes[..k], p, n);
      DefaultsAreStep(Collect(lines[..k], shapes[..k]), lines[k], shapes[k], p, n, DefaultNames(shapes[..k], p));
    }
  }

  lemma {:induction false} DefaultNamesSpec(shapes: seq<ImportShape>, p: string, n: string)
    ensures n in DefaultNames(shapes, p) <==> exists i :: 0 <= i < |shapes| && shapes[i] == DefaultImport(n, p)
    decreases |shapes|
  {
    if |shapes| > 0 {
      DefaultNamesSpec(shapes[..|shapes| - 1], p, n);
      DefaultsSnoc(shapes, p, n);
    }
  }

  lemma DefaultsStep(g: Groups, line: string, shape: ImportShape, p: string, n: string)
    ensures n in Get(CollectShape(g, line, shape).defaults, p)
            <==> n in Get(g.defaults, p) || shape == DefaultImport(n, p)
  {
    CollectShapeBindings(g, line, shape, p);
    if shape.DefaultImport? && shape.path == p {
      AddAllMembers(Get(g.defaults, p), [shape.name]);
    }
  }

  lemma DefaultsSnoc(shapes: seq<ImportShape>, p: string, n: string)
    requires |shapes| > 0
    ensures var k := |shapes| - 1;
            (exists i :: 0 <= i < |shapes| && shapes[i] == DefaultImport(n, p))
            <==> (exists i :: 0 <= i < k && shapes[..k][i] == DefaultImport(n, p)) || shapes[k] == DefaultImport(n, p)
  {
    var k := |shapes| - 1;
    assert forall i :: 0 <= i < k ==> shapes[..k][i] == shapes[i];
  }

  /** No Set holds a member twice. */
  lemma {:induction false} CollectNoDup(lines: seq<string>, shapes: seq<ImportShape>, p: string)
    requires |shapes| == |lines|
    ensures SetsNoDup(Collect(lines, shapes), p)
    decreases |lines|
  {
    if |lines| > 0 {
      var k := |lines| - 1;
      CollectNoDup(lines[..k], shapes[..k], p);
      SetsNoDupStep(Collect(lines[..k], shapes[..k]), lines[k], shapes[k], p);
    }
  }

  predicate SetsNoDup(g: Groups, p: string)
  {
    NoDup(Get(g.bindings, p)) && NoDup(Get(g.defaults, p))
  }

  lemma SetsNoDupStep(g: Groups, line: string, shape: ImportShape, p: string)
    requires SetsNoDup(g, p)
    ensures SetsNoDup(CollectShape(g, line, shape), p)
  {
    CollectShapeBindings(g, line, shape, p);
    AddAllNoDup(Get(g.bindings, p), AddedNames(shape));
    if shape.DefaultImport? {
      AddAllNoDup(Get(g.defaults, p), [shape.name]);
    }
  }

  lemma CollectShapeKeys(g: Groups, line: string, shape: ImportShape, x: string)
    ensures x in CollectShape(g, line, shape).bindingKeys
            <==> x in g.bindingKeys || (x == GroupKey(line, shape) && x !in g.bindings)
    ensures x in CollectShape(g, line, shape).bindings <==> x in g.bindings || x == GroupKey(line, shape)
    ensures x in CollectShape(g, line, shape).defaultKeys
            <==> x in g.defaultKeys || (shape.DefaultImport? && x == shape.path && x !in g.defaults)
    ensures x in CollectShape(g, line, shape).defaults <==> x in g.defaults || (shape.DefaultImport? && x == shape.path)
  {
  }

  /** Every line writes its key in `importMap`; a default import writes the same key in both maps. */
  lemma {:induction false} KeysCollected(lines: seq<string>, shapes: seq<ImportShape>, x: string)
    requires |shapes| == |lines|
    ensures x in Collect(lines, shapes).bindingKeys <==> x in Collect(lines, shapes).bindings
    ensures x in Collect(lines, shapes).defaultKeys <==> x in Collect(lines, shapes).defaults
    ensures x in Collect(lines, shapes).defaults ==> x in Collect(lines, shapes).bindings
    ensures x in Collect(lines, shapes).bindings <==> exists i :: 0 <= i < |lines| && GroupKey(lines[i], shapes[i]) == x
  {
    KeysInBoth(lines, shapes, x);
    KeysOfLines(lines, shapes, x);
  }

  /** `importMap`/`defaultImports` and their key lists agree on x, and a default key is also an `importMap` key. */
  predicate KeysAgree(g: Groups, x: string)
  {
    (x in g.bindingKeys <==> x in g.bindings)
    && (x in g.defaultKeys <==> x in g.defaults)
    && (x in g.defaults ==> x in g.bindings)
  }

  lemma CollectShapeAgree(g: Groups, line: string, shape: ImportShape, x: string)
    requires KeysAgree(g, x)
    ensures KeysAgree(CollectShape(g, line, shape), x)
  {
    CollectShapeKeys(g, line, shape, x);
  }

  lemma {:induction false} KeysInBoth(lines: seq<string>, shapes: seq<ImportShape>, x: string)
    requires |shapes| == |lines|
    ensures KeysAgree(Collect(lines, shapes), x)
    decreases |lines|
  {
    if |lines| > 0 {
      var k := |lines| - 1;
      KeysInBoth(lines[..k], shapes[..k], x);
      CollectShapeAgree(Collect(lines[..k], shapes[..k]), lines[k], shapes[k], x);
    }
  }

  lemma {:induction false} KeysOfLines(lines: seq<string>, shapes: seq<ImportShape>, x: string)
    requires |shapes| == |lines|
    ensures x in Collect(lines, shapes).bindings <==> exists i :: 0 <= i < |lines| && GroupKey(lines[i], shapes[i]) == x
    decreases |lines|
  {
    if |lines| > 0 {
      var k := |lines| - 1;
      KeysOfLines(lines[..k], shapes[..k], x);
      CollectShapeKeys(Collect(lines[..k], shapes[..k]), lines[k], shapes[k], x);
      KeysSnoc(lines, shapes, x);
    }
  }

  lemma KeysSnoc(lines: seq<string>, shapes: seq<ImportShape>, x: string)
    requires |shapes| == |lines| > 0
    ensures var k := |lines| - 1;
            (exists i :: 0 <= i < |lines| && GroupKey(lines[i], shapes[i]) == x)
            <==> (exists i :: 0 <= i < k && GroupKey(lines[..k][i], shapes[..k][i]) == x) || GroupKey(lines[k], shapes[k]) == x
  {
    var k := |lines| - 1;
    assert forall i :: 0 <= i < k ==> lines[..k][i] == lines[i] && shapes[..k][i] == shapes[i];
  }

  /** The paths groupImports walks are sorted and each appears once. */
  lemma AllPathsOrdered(g: Groups)
    ensures Sorted(AllPaths(g)) && NoDup(AllPaths(g))
  {
    DistinctNoDup(g.bindingKeys + g.defaultKeys);
    SortNoDup(Distinct(g.bindingKeys + g.defaultKeys));
  }

  /** The paths groupImports walks are the keys of the lines. */
  lemma AllPathsMembers(lines: seq<string>, shapes: seq<ImportShape>, x: string)
    requires |shapes| == |lines|
    ensures x in AllPaths(Collect(lines, shapes)) <==> exists i :: 0 <= i < |lines| && GroupKey(lines[i], shapes[i]) == x
  {
    var g := Collect(lines, shapes);
    var keys := g.bindingKeys + g.defaultKeys;
    DistinctMembers(keys);
    assert x in AllPaths(g) <==> x in Distinct(keys) by {
      assert x in AllPaths(g) <==> x in multiset(AllPaths(g));
      assert x in Distinct(keys) <==> x in multiset(Distinct(keys));
    }
    KeysCollected(lines, shapes, x);
  }

  /**
   * The named list printed for a path is sorted, holds no name twice, and
   * holds exactly the non-namespace bindings that lines with that path bring.
   */
  lemma NamedBindingsOfPath(lines: seq<string>, shapes: seq<ImportShape>, p: string, n: string)
    requires |shapes| == |lines|
    ensures var named := Sort(NamedOf(Collect(lines, shapes), p));
            Sorted(named) && NoDup(named)
            && (n in named <==> IsNamedBinding(n) && exists i :: Binds(lines, shapes, i, p, n))
  {
    var g := Collect(lines, shapes);
    CollectNoDup(lines, shapes, p);
    FilterNoDup(Get(g.bindings, p), IsNamedBinding);
    SortNoDup(NamedOf(g, p));
    BindingsCollected(lines, shapes, p, n);
    assert n in Sort(NamedOf(g, p)) <==> n in multiset(Sort(NamedOf(g, p)));
  }

  /**
   * A path that is not a kept-verbatim line gets at most one default or named
   * line, first, and then one `import * as X from "p";` line per namespace binding.
   */
  lemma EmitPathLines(g: Groups, p: string)
    requires !StartsWith(p, ImportKw)
    ensures |EmitPath(g, p)| == |MainLine(g, p)| + |StarsOf(g, p)| && |MainLine(g, p)| <= 1
    ensures forall k :: |MainLine(g, p)| <= k < |EmitPath(g, p)| ==>
              EmitPath(g, p)[k] == StarLine(p, StarsOf(g, p)[k - |MainLine(g, p)|])
    ensures forall k :: 0 <= k < |StarsOf(g, p)| ==> IsStarBinding(StarsOf(g, p)[k])
  {
  }

  /** Each line of the output belongs to exactly the path it was emitted for. */
  lemma {:induction false} EmitAllMembers(g: Groups, paths: seq<string>, line: string)
    ensures line in EmitAll(g, paths) <==> exists p :: p in paths && line in EmitPath(g, p)
    decreases |paths|
  {
    if |paths| > 0 {
      var init := paths[..|paths| - 1];
      EmitAllMembers(g, init, line);
      assert forall p :: p in paths <==> p in init || p == paths[|paths| - 1];
    }
  }

  /** A line of no known shape that starts with `import` is kept as it is. */
  lemma UnmatchedKeptVerbatim(lines: seq<string>, i: nat)
    requires i < |lines|
    requires ParseImportShape(Rebase(lines[i])).Unmatched? && StartsWith(Rebase(lines[i]), ImportKw)
    ensures Rebase(lines[i]) in GroupedImports(lines)
  {
    var rebased := Map(lines, Rebase);
    var shapes := Shapes(rebased);
    var g := Collect(rebased, shapes);
    var key := rebased[i];
    ShapesAt(rebased, i);
    assert GroupKey(key, shapes[i]) == key;
    AllPathsMembers(rebased, shapes, key);
    EmitAllMembers(g, AllPaths(g), key);
  }

  // ------------------------------------------------------------------
  // The emitted lines read back

  /** A path the parser reads back: non-empty and free of quotes. */
  predicate PlainPath(p: string)
  {
    p != "" && forall k :: 0 <= k < |p| ==> NotQuote(p[k])
  }

  /** A binding the parser reads back as a `[\w$]+` name. */
  predicate Identifier(n: string)
  {
    n != "" && forall k :: 0 <= k < |n| ==> IsIdentChar(n[k])
  }

  lemma FromClauseOf(s: string, i: nat, p: string)
    requires LitAt(s, i, FromQuote) && LitAt(s, i + 7, p) && LitAt(s, i + 7 + |p|, Quote) && PlainPath(p)
    ensures FromClause(s, i) == Some(p)
  {
    LitAtChars(s, i, FromQuote);
    LitAtChars(s, i + 7, p);
    assert s[i + 1..i + 5] == FromKw;
    RunOfOne(s, i, IsJsSpace);
    RunOfOne(s, i + 5, IsJsSpace);
    RunOfExact(s, i + 7, NotQuote, i + 7 + |p|);
  }

  /** `import { J } from "p"` with J's braces at 7 and 10 + |J|. */
  predicate NamedParts(s: string, J: string, p: string)
  {
    var e := 10 + |J|;
    LitAt(s, 0, ImportKw) && e < |s| && s[6] == ' ' && s[7] == '{' && s[e] == '}'
    && (forall k :: 8 <= k < e ==> s[k] != '}')
    && s[8..e] == " " + J + " "
    && LitAt(s, e + 1, FromQuote) && LitAt(s, e + 8, p) && LitAt(s, e + 8 + |p|, Quote)
  }

  /** The named shape, read off the positions of its parts. */
  lemma NamedShapeAt(s: string, J: string, p: string)
    requires NamedParts(s, J, p) && PlainPath(p)
    ensures ParseImportShape(s) == NamedImport(" " + J + " ", p)
  {
    NamedShapeOf(s, J, p);
  }

  lemma NamedShapeOf(s: string, J: string, p: string)
    requires NamedParts(s, J, p) && PlainPath(p)
    ensures NamedShape(s) == NamedImport(" " + J + " ", p)
  {
    var e := 10 + |J|;
    assert Spaces(s, 6) == 7 by { RunOfOne(s, 6, IsJsSpace); }
    assert RunOf(s, 8, NotCloseBrace) == e by { RunOfExact(s, 8, NotCloseBrace, e); }
    assert FromClause(s, e + 1) == Some(p) by { FromClauseOf(s, e + 1, p); }
  }

  /** The literal pieces of `import { J } from "p"`, and where they sit. */
  predicate NamedLits(s: string, J: string, p: string)
  {
    LitAt(s, 0, ImportSp) && LitAt(s, 7, BraceOpen) && LitAt(s, 9, J) && LitAt(s, 9 + |J|, CloseBrace)
    && LitAt(s, 11 + |J|, FromQuote) && LitAt(s, 18 + |J|, p) && LitAt(s, 18 + |J| + |p|, Quote)
  }

  lemma NamedLineLits(names: seq<string>, p: string)
    ensures NamedLits(NamedLine(names, p), Join(names, CommaSp), p)
  {
    var J := Join(names, CommaSp);
    var s := NamedLine(names, p);
    var x2 := ImportSp + BraceOpen;
    var x4 := x2 + J + BraceCloseFrom;
    LitAtWhole(s);
    LitAtCat(s, 0, x4 + p, QuoteSemi);
    LitAtCat(s, 0, x4, p);
    LitAtCat(s, 0, x2 + J, BraceCloseFrom);
    LitAtCat(s, 0, x2, J);
    LitAtCat(s, 0, ImportSp, BraceOpen);
    LitAtCat(s, 9 + |J|, CloseBrace, FromQuote);
    LitAtCat(s, 18 + |J| + |p|, Quote, ";");
  }

  lemma NamedLitsParts(s: string, J: string, p: string)
    requires NamedLits(s, J, p) && '}' !in J
    ensures NamedParts(s, J, p)
  {
    LitAtCat(s, 0, ImportKw, " ");
    LitAtChars(s, 0, ImportSp);
    LitAtChars(s, 7, BraceOpen);
    LitAtChars(s, 9 + |J|, CloseBrace);
    assert LitAt(s, 8, " " + J + " ") by {
      LitAtCat(s, 8, " ", J);
      LitAtCat(s, 8, " " + J, " ");
    }
    assert forall k :: 8 <= k < 10 + |J| ==> s[k] != '}' by {
      LitAtChars(s, 8, " " + J + " ");
    }
  }

  /** `import { n1, n2 } from "p";` is read back as the named shape of p. */
  lemma NamedLineReparses(names: seq<string>, p: string)
    requires forall k :: 0 <= k < |names| ==> '}' !in names[k]
    requires PlainPath(p)
    ensures ParseImportShape(NamedLine(names, p)) == NamedImport(" " + Join(names, CommaSp) + " ", p)
  {
    NamedLineLits(names, p);
    JoinAvoids(names, CommaSp, '}');
    NamedLitsParts(NamedLine(names, p), Join(names, CommaSp), p);
    NamedShapeAt(NamedLine(names, p), Join(names, CommaSp), p);
  }

  /** The names a named line holds are split and trimmed back to themselves. */
  lemma {:induction false} NamesReparse(lead: string, names: seq<string>)
    requires forall k :: 0 <= k < |lead| ==> IsJsSpace(lead[k])
    requires |names| > 0
    requires forall k :: 0 <= k < |names| ==> Trim(names[k]) == names[k] && ',' !in names[k]
    ensures NamesOf(lead + Join(names, CommaSp) + " ") == names
    decreases |names|
  {
    var n := names[0];
    if |names| == 1 {
      assert ',' !in lead + n + " ";
      SplitNoSep(lead + n + " ", ',');
      TrimPadded(lead, n, " ");
      assert TrimAll([lead + n + " "]) == [Trim(lead + n + " ")];
    } else {
      var rest := " " + Join(names[1..], CommaSp) + " ";
      assert lead + Join(names, CommaSp) + " " == (lead + n) + [','] + rest;
      SplitConcat(lead + n, rest, ',');
      assert ',' !in lead + n;
      SplitNoSep(lead + n, ',');
      TrimPadded(lead, n, "");
      assert lead + n + "" == lead + n;
      NamesReparse(" ", names[1..]);
      assert ([lead + n] + Split(rest, ','))[1..] == Split(rest, ',');
      assert names == [n] + names[1..];
    }
  }

  /** The literal pieces of `import d from "p"`, and where they sit. */
  predicate DefaultLits(s: string, d: string, p: string)
  {
    LitAt(s, 0, ImportSp) && LitAt(s, 7, d) && LitAt(s, 7 + |d|, FromQuote)
    && LitAt(s, 14 + |d|, p) && LitAt(s, 14 + |d| + |p|, Quote)
  }

  lemma DefaultLineLits(d: string, p: string)
    ensures DefaultLits(DefaultLine([d], p), d, p)
  {
    var s := DefaultLine([d], p);
    assert Join([d], CommaSp) == d;
    LitAtWhole(s);
    LitAtCat(s, 0, ImportSp + d + FromQuote + p, QuoteSemi);
    LitAtCat(s, 0, ImportSp + d + FromQuote, p);
    LitAtCat(s, 0, ImportSp + d, FromQuote);
    LitAtCat(s, 0, ImportSp, d);
    LitAtCat(s, 14 + |d| + |p|, Quote, ";");
  }

  /** The default shape, read off the positions of its parts. */
  lemma DefaultShapeAt(s: string, d: string, p: string)
    requires DefaultLits(s, d, p) && Identifier(d) && PlainPath(p)
    ensures ParseImportShape(s) == DefaultImport(d, p)
  {
    DefaultRuns(s, d, p);
    FromClauseOf(s, 7 + |d|, p);
  }

  lemma DefaultRuns(s: string, d: string, p: string)
    requires DefaultLits(s, d, p) && Identifier(d)
    ensures LitAt(s, 0, ImportKw) && Spaces(s, 6) == 7 && s[7] != '{' && RunOf(s, 7, IsIdentChar) == 7 + |d|
    ensures s[7..7 + |d|] == d
  {
    var w := 7 + |d|;
    LitAtCat(s, 0, ImportKw, " ");
    LitAtChars(s, 0, ImportSp);
    LitAtChars(s, 7, d);
    LitAtChars(s, w, FromQuote);
    RunOfOne(s, 6, IsJsSpace);
    RunOfExact(s, 7, IsIdentChar, w);
  }

  /** `import D from "p";` is read back as the default shape of p. */
  lemma DefaultLineReparses(d: string, p: string)
    requires Identifier(d) && PlainPath(p)
    ensures ParseImportShape(DefaultLine([d], p)) == DefaultImport(d, p)
  {
    DefaultLineLits(d, p);
    DefaultShapeAt(DefaultLine([d], p), d, p);
  }

  /** The literal pieces of `import * as alias from "p"`, and where they sit. */
  predicate StarLits(s: string, alias: string, p: string)
  {
    LitAt(s, 0, ImportSp) && LitAt(s, 7, StarPrefix) && LitAt(s, 12, alias) && LitAt(s, 12 + |alias|, FromQuote)
    && LitAt(s, 19 + |alias|, p) && LitAt(s, 19 + |alias| + |p|, Quote)
  }

  lemma StarLineLits(alias: string, p: string)
    ensures StarLits(StarLine(p, StarPrefix + alias), alias, p)
  {
    var s := StarLine(p, StarPrefix + alias);
    var x := ImportSp + (StarPrefix + alias);
    LitAtWhole(s);
    LitAtCat(s, 0, x + FromQuote + p, QuoteSemi);
    LitAtCat(s, 0, x + FromQuote, p);
    LitAtCat(s, 0, x, FromQuote);
    LitAtCat(s, 0, ImportSp, StarPrefix + alias);
    LitAtCat(s, 7, StarPrefix, alias);
    LitAtCat(s, 19 + |alias| + |p|, Quote, ";");
  }

  /** `import * as alias from "p"`, character by character where the parser looks. */
  predicate StarParts(s: string, alias: string, p: string)
  {
    var w := 12 + |alias|;
    w < |s| && LitAt(s, 0, ImportKw) && s[6] == ' ' && s[7] == '*' && s[8] == ' ' && LitAt(s, 9, AsKw) && s[11] == ' '
    && s[12..w] == alias && s[w] == ' '
    && LitAt(s, w, FromQuote) && LitAt(s, w + 7, p) && LitAt(s, w + 7 + |p|, Quote)
  }

  lemma StarLitsParts(s: string, alias: string, p: string)
    requires StarLits(s, alias, p)
    ensures StarParts(s, alias, p)
  {
    LitAtCat(s, 0, ImportKw, " ");
    LitAtChars(s, 0, ImportSp);
    LitAtCat(s, 7, "* " + AsKw, " ");
    LitAtCat(s, 7, "* ", AsKw);
    LitAtChars(s, 7, StarPrefix);
    LitAtChars(s, 12 + |alias|, FromQuote);
  }

  /** The namespace shape, read off the positions of its parts. */
  lemma StarShapeAt(s: string, alias: string, p: string)
    requires StarParts(s, alias, p) && Identifier(alias) && PlainPath(p)
    ensures ParseImportShape(s) == StarImport(alias, p)
  {
    RunOfOne(s, 6, IsJsSpace);
    assert NamedShape(s) == Unmatched;
    RunOfExact(s, 7, IsIdentChar, 7);
    assert DefaultShape(s) == Unmatched;
    StarShapeOf(s, alias, p);
  }

  lemma StarShapeOf(s: string, alias: string, p: string)
    requires StarParts(s, alias, p) && Identifier(alias) && PlainPath(p)
    ensures StarShape(s) == StarImport(alias, p)
  {
    var w := 12 + |alias|;
    StarRuns(s, alias, p);
    FromClauseOf(s, w, p);
  }

  lemma StarRuns(s: string, alias: string, p: string)
    requires StarParts(s, alias, p) && Identifier(alias)
    ensures Spaces(s, 6) == 7 && Spaces(s, 8) == 9 && Spaces(s, 11) == 12
    ensures RunOf(s, 12, IsIdentChar) == 12 + |alias|
  {
    var w := 12 + |alias|;
    assert forall k :: 12 <= k < w ==> IsIdentChar(s[k]) by {
      assert forall k :: 12 <= k < w ==> s[k] == s[12..w][k - 12];
    }
    RunOfOne(s, 6, IsJsSpace);
    RunOfOne(s, 8, IsJsSpace);
    RunOfOne(s, 11, IsJsSpace);
    RunOfExact(s, 12, IsIdentChar, w);
  }

  /** `import * as X from "p";` is read back as the namespace shape of p. */
  lemma StarLineReparses(alias: string, p: string)
    requires Identifier(alias) && PlainPath(p)
    ensures ParseImportShape(StarLine(p, StarPrefix + alias)) == StarImport(alias, p)
  {
    StarLineLits(alias, p);
    StarLitsParts(StarLine(p, StarPrefix + alias), alias, p);
    StarShapeAt(StarLine(p, StarPrefix + alias), alias, p);
  }

  /** A first binding followed by `{` or `,` matches none of the three shapes. */
  lemma ListedShapeUnmatched(s: string, d: string)
    requires LitAt(s, 0, ImportSp) && LitAt(s, 7, d) && Identifier(d)
    requires 7 + |d| < |s| && (s[7 + |d|] == '{' || s[7 + |d|] == ',')
    ensures ParseImportShape(s) == Unmatched
  {
    ListedRuns(s, d);
    RunOfExact(s, 7 + |d|, IsJsSpace, 7 + |d|);
  }

  lemma ListedRuns(s: string, d: string)
    requires LitAt(s, 0, ImportSp) && LitAt(s, 7, d) && Identifier(d)
    requires 7 + |d| < |s| && (s[7 + |d|] == '{' || s[7 + |d|] == ',')
    ensures LitAt(s, 0, ImportKw) && Spaces(s, 6) == 7 && s[7] != '{' && s[7] != '*'
    ensures RunOf(s, 7, IsIdentChar) == 7 + |d|
  {
    var w := 7 + |d|;
    LitAtCat(s, 0, ImportKw, " ");
    LitAtChars(s, 0, ImportSp);
    LitAtChars(s, 7, d);
    RunOfOne(s, 6, IsJsSpace);
    RunOfExact(s, 7, IsIdentChar, w);
  }

  /**
   * `import D{ n } from "p";` matches none of the shapes, so a second
   * grouping keeps it as it is.
   */
  lemma MixedLineUnmatched(defs: seq<string>, names: seq<string>, p: string)
    requires |defs| > 0 && Identifier(defs[0])
    ensures ParseImportShape(MixedLine(defs, names, p)) == Unmatched
  {
    var s := MixedLine(defs, names, p);
    MixedLineHead(defs, names, p);
    ListedHead(s, defs);
    ListedShapeUnmatched(s, defs[0]);
  }

  lemma MixedLineHead(defs: seq<string>, names: seq<string>, p: string)
    ensures var s, D := MixedLine(defs, names, p), Join(defs, CommaSp);
            LitAt(s, 0, ImportSp) && LitAt(s, 7, D) && LitAt(s, 7 + |D|, BraceOpen)
  {
    var s := MixedLine(defs, names, p);
    var D := Join(defs, CommaSp);
    var rest := Join(names, CommaSp) + BraceCloseFrom + p + QuoteSemi;
    LitAtWhole(s);
    assert s == ImportSp + D + (BraceOpen + rest);
    LitAtCat(s, 0, ImportSp + D, BraceOpen + rest);
    LitAtCat(s, 0, ImportSp, D);
    LitAtCat(s, 7 + |D|, BraceOpen, rest);
  }

  /** The first of the joined defaults is followed by `,` or by the brace. */
  lemma ListedHead(s: string, defs: seq<string>)
    requires |defs| > 0
    requires var D := Join(defs, CommaSp); LitAt(s, 7, D) && LitAt(s, 7 + |D|, BraceOpen)
    ensures LitAt(s, 7, defs[0]) && 7 + |defs[0]| < |s| && (s[7 + |defs[0]|] == '{' || s[7 + |defs[0]|] == ',')
  {
    var d, D := defs[0], Join(defs, CommaSp);
    LitAtChars(s, 7 + |D|, BraceOpen);
    if |defs| > 1 {
      assert D == d + CommaSp + Join(defs[1..], CommaSp);
      LitAtCat(s, 7, d + CommaSp, Join(defs[1..], CommaSp));
      LitAtCat(s, 7, d, CommaSp);
      LitAtChars(s, 7 + |d|, CommaSp);
    }
  }

  // ------------------------------------------------------------------
  // The `./` to `../` rewrite

  /** Below n, the last place the rewrite applies is q when no quote follows q. */
  lemma {:induction false} LastRebaseIs(s: string, q: nat, n: nat)
    requires q < n <= |s| && RebaseAt(s, q)
    requires forall q' :: q < q' < n ==> !IsQuote(s[q'])
    ensures LastRebase(s, n) == Some(q)
    decreases n
  {
    if q < n - 1 {
      assert !IsQuote(s[n - 1]);
      LastRebaseIs(s, q, n - 1);
    }
  }

  /**
   * A relative path `./r` after `import x from` becomes `../r`, whatever x
   * holds: the rewrite applies at the quote that opens the path.
   */
  lemma RebaseRelativePath(x: string, qt: char, r: string)
    requires IsQuote(qt) && forall k :: 0 <= k < |r| ==> NotQuote(r[k])
    ensures Rebase(ImportSp + x + FromSp + [qt] + "./" + r) == ImportSp + x + FromSp + [qt] + "../" + r
  {
    var pre := ImportSp + x + FromSp;
    var s := pre + [qt] + "./" + r;
    RebaseLineLits(x, qt, r);
    RebaseRelativeAt(s, x, r);
    RebaseSplice(pre, qt, r);
  }

  lemma RebaseLineLits(x: string, qt: char, r: string)
    requires IsQuote(qt) && forall k :: 0 <= k < |r| ==> NotQuote(r[k])
    ensures RelativeLine(ImportSp + x + FromSp + [qt] + "./" + r, x, r)
  {
    var pre := ImportSp + x + FromSp;
    var s := pre + [qt] + "./" + r;
    LitAtWhole(s);
    LitAtCat(s, 0, pre + [qt] + "./", r);
    LitAtCat(s, 0, pre + [qt], "./");
    LitAtCat(s, 0, pre, [qt]);
    LitAtCat(s, 0, ImportSp + x, FromSp);
    LitAtCat(s, 0, ImportSp, x);
  }

  /** Inserting a dot after the quote turns `./` into `../`. */
  lemma RebaseSplice(pre: string, qt: char, r: string)
    ensures var s := pre + [qt] + "./" + r;
            var q := |pre|;
            s[..q + 1] + "." + s[q + 1..] == pre + [qt] + "../" + r
  {
    var s := pre + [qt] + "./" + r;
    var q := |pre|;
    assert s[..q + 1] == pre + [qt];
    assert s[q + 1..] == "./" + r;
    assert "../" + r == "." + ("./" + r);
  }

  /** `import x from ` then a quote, `./` and a quote-free r, up to the end. */
  predicate RelativeLine(s: string, x: string, r: string)
  {
    var q := 13 + |x|;
    q < |s| && LitAt(s, 0, ImportSp) && LitAt(s, 7 + |x|, FromSp) && IsQuote(s[q])
    && LitAt(s, q + 1, "./") && LitAt(s, q + 3, r) && q + 3 + |r| == |s|
    && forall k :: 0 <= k < |r| ==> NotQuote(r[k])
  }

  lemma RebaseRelativeAt(s: string, x: string, r: string)
    requires RelativeLine(s, x, r)
    ensures LastRebase(s, |s|) == Some(13 + |x|)
  {
    var q := 13 + |x|;
    RelativeRebaseAt(s, x, r);
    RelativeQuoteFree(s, x, r);
    LastRebaseIs(s, q, |s|);
  }

  lemma RelativeRebaseAt(s: string, x: string, r: string)
    requires RelativeLine(s, x, r)
    ensures RebaseAt(s, 13 + |x|)
  {
    RebaseLineParts(s, x, 13 + |x|);
    RebaseAtOf(s, 13 + |x|);
  }

  lemma RelativeQuoteFree(s: string, x: string, r: string)
    requires RelativeLine(s, x, r)
    ensures forall q' :: 13 + |x| < q' < |s| ==> !IsQuote(s[q'])
  {
    var q := 13 + |x|;
    LitAtChars(s, q + 1, "./");
    LitAtChars(s, q + 3, r);
  }

  lemma RebaseLineParts(s: string, x: string, q: nat)
    requires q == 13 + |x| && LitAt(s, 0, ImportSp) && LitAt(s, 7 + |x|, FromSp) && q <= |s|
    ensures s[q - 1] == ' ' && LitAt(s, q - 5, FromKw) && s[q - 6] == ' ' && ImportOpensBefore(s, q - 6)
  {
    LitAtCat(s, 0, ImportKw, " ");
    LitAtChars(s, 0, ImportSp);
    LitAtChars(s, 7 + |x|, FromSp);
    assert s[q - 5..q - 1] == FromKw;
    ImportOpensAt(s, 0, q - 6);
  }

  /** A line where no quote is followed by `./` is left as it is. */
  lemma RebaseKeeps(s: string)
    requires forall q :: 0 <= q < |s| && IsQuote(s[q]) ==> !LitAt(s, q + 1, "./")
    ensures Rebase(s) == s
  {
    NoRebaseBelow(s, |s|);
  }
}
