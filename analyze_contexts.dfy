/**
 * scripts/analyze-ast-helper.mjs, findImports, findNamedExports and
 * findContexts: contexts created with `createContext`, `use[A-Z]…` hook calls
 * and `<…Provider>` tags, correlated by name.
 */
module AnalyzeContexts {
  import opened JsText
  import opened AstNodes

  // ------------------------------------------------------------------
  // findImports and findNamedExports

  /** One ImportDeclaration: its source and the local names it binds. */
  datatype ImportRecord = ImportRecord(source: string, specifiers: seq<string>)

  /** The number of ImportDeclarations among the events. */
  function DeclCount(events: seq<Event>): nat
  {
    if |events| == 0 then 0
    else DeclCount(events[..|events| - 1]) + (if events[|events| - 1].ImportDecl? then 1 else 0)
  }

  /**
   * findImports: one record per ImportDeclaration, in visit order: the
   * declaration with j declarations before it gives record j, and each
   * record comes from a declaration.
   */
  function ImportsOf(events: seq<Event>): (r: seq<ImportRecord>)
    ensures |r| == DeclCount(events)
    ensures forall j :: 0 <= j < |events| && events[j].ImportDecl? ==>
              DeclCount(events[..j]) < |r| && r[DeclCount(events[..j])] == ImportRecord(events[j].source, events[j].locals)
    ensures forall k :: 0 <= k < |r| ==> exists j :: 0 <= j < |events| && events[j] == ImportDecl(r[k].source, r[k].specifiers)
  {
    if |events| == 0 then []
    else
      var init := events[..|events| - 1];
      var e := events[|events| - 1];
      var r := ImportsOf(init) + (if e.ImportDecl? then [ImportRecord(e.source, e.locals)] else []);
      assert forall j :: 0 <= j < |init| ==> init[j] == events[j] && init[..j] == events[..j];
      assert events[..|init|] == init;
      r
  }

  /** The truthy names one export statement declares or re-exports. */
  function ExportedNames(e: Event): set<string>
  {
    if !e.ExportNamed? then {}
    else
      var declared: set<string> :=
        match e.namedDecl
        case Some(NVariables(ds)) => set k | 0 <= k < |ds| && Truthy(PatternName(ds[k].id)) :: PatternName(ds[k].id).value
        case Some(NFunction(id, _)) => if Truthy(id) then {id.value} else {}
        case Some(NClass(id)) => if Truthy(id) then {id.value} else {}
        case _ => {};
      declared + set k | 0 <= k < |e.exported| && Truthy(e.exported[k]) :: e.exported[k].value
  }

  /** The `namedExports` set. */
  function NamedExports(events: seq<Event>): set<string>
  {
    if |events| == 0 then {} else NamedExports(events[..|events| - 1]) + ExportedNames(events[|events| - 1])
  }

  // ------------------------------------------------------------------
  // Records

  /** A context's default value shape, as read from the createContext argument. */
  datatype Shape =
    | SUndefined
    | SObject(entries: seq<(string, Option<Lit>)>)  // None is null: a value that is not a literal
    | SArray
    | SLit(lit: Lit)

  /**
   * One entry of `contexts`. `usedProperties` is present on hook entries only,
   * `created` is true on createContext entries only; `path` always equals
   * `importSource` and is not repeated.
   */
  datatype Context = Context(
    name: Option<string>,
    importSource: Option<string>,
    usedProperties: Option<seq<Option<string>>>,
    isHook: bool,
    isProvider: bool,
    valueShape: Shape,
    created: bool,
    isExported: bool)

  datatype ContextsResult = ContextsResult(contexts: seq<Context>, defaultValues: map<string, Shape>)

  // ------------------------------------------------------------------
  // The import map

  /** `names.forEach(name => { m[name] = source })` */
  function AddAll(m: map<string, string>, names: seq<string>, source: string): map<string, string>
  {
    if |names| == 0 then m else AddAll(m, names[..|names| - 1], source)[names[|names| - 1] := source]
  }

  /** `importMap[name] = imp.source` for every imported name; a later import wins. */
  function ImportMap(imports: seq<ImportRecord>): map<string, string>
  {
    if |imports| == 0 then map[]
    else
      var last := imports[|imports| - 1];
      AddAll(ImportMap(imports[..|imports| - 1]), last.specifiers, last.source)
  }

  method BuildImportMap(imports: seq<ImportRecord>) returns (importMap: map<string, string>)
    ensures importMap == ImportMap(imports)
  {
    importMap := map[];
    var i := 0;
    while i < |imports|
      invariant 0 <= i <= |imports|
      invariant importMap == ImportMap(imports[..i])
    {
      assert imports[..i + 1][..i] == imports[..i];
      var imp := imports[i];
      ghost var before := importMap;
      var j := 0;
      while j < |imp.specifiers|
        invariant 0 <= j <= |imp.specifiers|
        invariant importMap == AddAll(before, imp.specifiers[..j], imp.source)
      {
        assert imp.specifiers[..j + 1][..j] == imp.specifiers[..j];
        importMap := importMap[imp.specifiers[j] := imp.source];
        j := j + 1;
      }
      assert imp.specifiers[..j] == imp.specifiers;
      i := i + 1;
    }
    assert imports[..i] == imports;
  }

  lemma {:induction false} AddAllLookup(m: map<string, string>, names: seq<string>, source: string, name: string)
    ensures name in names ==> name in AddAll(m, names, source) && AddAll(m, names, source)[name] == source
    ensures name !in names ==> (name in AddAll(m, names, source) <==> name in m)
    ensures name !in names && name in m ==> AddAll(m, names, source)[name] == m[name]
    decreases |names|
  {
    if |names| > 0 {
      var init := names[..|names| - 1];
      AddAllLookup(m, init, source, name);
      assert names == init + [names[|names| - 1]];
      assert name in names <==> name in init || name == names[|names| - 1];
    }
  }

  /** The source a name was last imported from. */
  lemma {:induction false} ImportMapLastWins(imports: seq<ImportRecord>, name: string, k: nat)
    requires k < |imports| && name in imports[k].specifiers
    requires forall j :: k < j < |imports| ==> name !in imports[j].specifiers
    ensures name in ImportMap(imports) && ImportMap(imports)[name] == imports[k].source
    decreases |imports|
  {
    var init := imports[..|imports| - 1];
    var last := imports[|imports| - 1];
    AddAllLookup(ImportMap(init), last.specifiers, last.source, name);
    if k < |imports| - 1 {
      assert init[k] == imports[k];
      ImportMapLastWins(init, name, k);
    }
  }

  // ------------------------------------------------------------------
  // createContext declarators

  /** `valueShape[key] = value`: a new key goes last, an existing key keeps its place. */
  function SetEntry(entries: seq<(string, Option<Lit>)>, key: string, v: Option<Lit>): seq<(string, Option<Lit>)>
  {
    if |entries| == 0 then [(key, v)]
    else if entries[0].0 == key then [(key, v)] + entries[1..]
    else [entries[0]] + SetEntry(entries[1..], key, v)
  }

  function ObjectShape(props: seq<ObjProp>): seq<(string, Option<Lit>)>
  {
    if |props| == 0 then []
    else
      var last := props[|props| - 1];
      var prev := ObjectShape(props[..|props| - 1]);
      if last.Property? then SetEntry(prev, last.key, ValueOf(last.value)) else prev
  }

  /** The shape of `createContext(arg)`: objects, arrays and literals are read, anything else is undefined. */
  function ShapeOf(args: seq<Expr>): Shape
  {
    if |args| == 0 then SUndefined
    else match args[0]
      case ObjectExpr(props) => SObject(ObjectShape(props))
      case ArrayExpr(_) => SArray
      case Literal(v) => SLit(v)
      case _ => SUndefined
  }

  /** A `const X = createContext(...)` declarator (only an identifier callee is recognised). */
  predicate IsCreateContext(e: Event)
  {
    e.VarDecl? && e.d.init.CallInit? && NameOf(e.d.init.callee) == Some("createContext")
  }

  function RealContextOf(d: Declarator, importMap: map<string, string>, namedExports: set<string>): Context
    requires d.init.CallInit?
  {
    var name := PatternName(d.id);
    var source := if KeyOf(name) in importMap then Some(importMap[KeyOf(name)]) else None;
    Context(name, source, None, false, true, ShapeOf(d.init.args), true, name.Some? && name.value in namedExports)
  }

  /** `realContexts`, in traversal order. */
  function RealContexts(events: seq<Event>, importMap: map<string, string>, namedExports: set<string>): seq<Context>
  {
    if |events| == 0 then []
    else
      var e := events[|events| - 1];
      RealContexts(events[..|events| - 1], importMap, namedExports)
        + (if IsCreateContext(e) then [RealContextOf(e.d, importMap, namedExports)] else [])
  }

  /** `contextDefaultValues`: the shape of the last createContext for each name. */
  function DefaultValues(events: seq<Event>): map<string, Shape>
  {
    if |events| == 0 then map[]
    else
      var e := events[|events| - 1];
      var prev := DefaultValues(events[..|events| - 1]);
      if IsCreateContext(e) then prev[KeyOf(PatternName(e.d.id)) := ShapeOf(e.d.init.args)] else prev
  }

  method CollectRealContexts(events: seq<Event>, importMap: map<string, string>, namedExports: set<string>)
    returns (realContexts: seq<Context>, defaultValues: map<string, Shape>)
    ensures realContexts == RealContexts(events, importMap, namedExports)
    ensures defaultValues == DefaultValues(events)
  {
    realContexts, defaultValues := [], map[];
    var i := 0;
    while i < |events|
      invariant 0 <= i <= |events|
      invariant realContexts == RealContexts(events[..i], importMap, namedExports)
      invariant defaultValues == DefaultValues(events[..i])
    {
      assert events[..i + 1][..i] == events[..i];
      var e := events[i];
      if IsCreateContext(e) {
        var name := PatternName(e.d.id);
        var shape := ShapeOf(e.d.init.args);
        defaultValues := defaultValues[KeyOf(name) := shape];
        var source := if KeyOf(name) in importMap then Some(importMap[KeyOf(name)]) else None;
        realContexts := realContexts + [Context(name, source, None, false, true, shape, true, name.Some? && name.value in namedExports)];
      }
      i := i + 1;
    }
    assert events[..i] == events;
  }

  // ------------------------------------------------------------------
  // Hook calls and provider tags

  /** `/^use[A-Z]/` */
  predicate IsHookName(name: string)
  {
    |name| >= 4 && name[..3] == "use" && IsAsciiUpper(name[3])
  }

  predicate IsRealName(reals: seq<Context>, name: string)
  {
    exists k :: 0 <= k < |reals| && reals[k].name == Some(name)
  }

  /** `path.parent.id.properties.map(p => p.key.name)`: a rest element has no key and throws. */
  function UsedProperties(declaredAs: Option<Pattern>): Result<seq<Option<string>>>
  {
    if declaredAs.Some? && declaredAs.value.PObject? then KeyNamesOf(declaredAs.value.props) else Ok([])
  }

  function KeyNamesOf(props: seq<PatProp>): (r: Result<seq<Option<string>>>)
    ensures r.TypeError? <==> RestProp in props
    ensures r.Ok? ==> |r.value| == |props| && forall k :: 0 <= k < |props| ==> props[k] == KeyProp(r.value[k])
  {
    if |props| == 0 then Ok([])
    else
      var rest := KeyNamesOf(props[1..]);
      assert props == [props[0]] + props[1..];
      if props[0].RestProp? then TypeError("Cannot read properties of undefined (reading 'name')")
      else if rest.TypeError? then rest
      else Ok([props[0].keyName] + rest.value)
  }

  /** The first real context whose name is a prefix of a provider tag. */
  function FirstPrefixContext(reals: seq<Context>, tag: string): (r: Option<nat>)
    ensures r.Some? ==> r.value < |reals| && StartsWith(tag, KeyOf(reals[r.value].name))
                        && forall k :: 0 <= k < r.value ==> !StartsWith(tag, KeyOf(reals[k].name))
    ensures r.None? ==> forall k :: 0 <= k < |reals| ==> !StartsWith(tag, KeyOf(reals[k].name))
  {
    if |reals| == 0 then None
    else if StartsWith(tag, KeyOf(reals[0].name)) then Some(0)
    else match FirstPrefixContext(reals[1..], tag)
      case None => None
      case Some(k) => Some(k + 1)
  }

  function Lookup(m: map<string, Shape>, key: string): Shape
  {
    if key in m then m[key] else SUndefined
  }

  function SourceOf(importMap: map<string, string>, name: string): Option<string>
  {
    if name in importMap then Some(importMap[name]) else None
  }

  /** The entries one event of the second traversal pushes. */
  function UseEntries(e: Event, reals: seq<Context>, dv: map<string, Shape>,
                      importMap: map<string, string>, namedExports: set<string>): Result<seq<Context>>
  {
    match e
    case Call(Ident(name), _, declaredAs) =>
      if !IsHookName(name) then Ok([])
      else
        var used := UsedProperties(declaredAs);
        if used.TypeError? then TypeError(used.message)
        else if IsRealName(reals, name) then Ok([])
        else Ok([Context(Some(name), SourceOf(importMap, name), Some(used.value), true, false,
                         Lookup(dv, name), false, name in namedExports)])
    case JsxOpen(JIdent(name)) =>
      if !EndsWith(name, "Provider") then Ok([])
      else
        var found := FirstPrefixContext(reals, name);
        var shape := if found.Some? then reals[found.value].valueShape else Lookup(dv, name);
        Ok([Context(Some(name), SourceOf(importMap, name), None, false, true, shape, false, name in namedExports)])
    case JsxOpen(JNamespaced) => TypeError("name.endsWith is not a function")
    case _ => Ok([])
  }

  /** `contexts` after the second traversal. */
  function Uses(events: seq<Event>, reals: seq<Context>, dv: map<string, Shape>,
                importMap: map<string, string>, namedExports: set<string>): Result<seq<Context>>
  {
    if |events| == 0 then Ok([])
    else
      var prev := Uses(events[..|events| - 1], reals, dv, importMap, namedExports);
      if prev.TypeError? then prev
      else
        var more := UseEntries(events[|events| - 1], reals, dv, importMap, namedExports);
        if more.TypeError? then TypeError(more.message) else Ok(prev.value + more.value)
  }

  predicate HasProvider(contexts: seq<Context>, name: Option<string>)
  {
    exists k :: 0 <= k < |contexts| && contexts[k].name == name && contexts[k].isProvider
  }

  /** `realContexts.forEach(ctx => { if (!alreadyPresent) contexts.push(ctx) })` */
  function WithReals(contexts: seq<Context>, reals: seq<Context>): seq<Context>
  {
    if |reals| == 0 then contexts
    else
      var prev := WithReals(contexts, reals[..|reals| - 1]);
      var ctx := reals[|reals| - 1];
      if HasProvider(prev, ctx.name) then prev else prev + [ctx]
  }

  function ContextsSpec(events: seq<Event>, imports: seq<ImportRecord>): Result<ContextsResult>
  {
    var importMap := ImportMap(imports);
    var namedExports := NamedExports(events);
    var reals := RealContexts(events, importMap, namedExports);
    var dv := DefaultValues(events);
    var uses := Uses(events, reals, dv, importMap, namedExports);
    if uses.TypeError? then TypeError(uses.message)
    else Ok(ContextsResult(WithReals(uses.value, reals), dv))
  }

  method CollectUses(events: seq<Event>, reals: seq<Context>, dv: map<string, Shape>,
                     importMap: map<string, string>, namedExports: set<string>) returns (r: Result<seq<Context>>)
    ensures r == Uses(events, reals, dv, importMap, namedExports)
  {
    var contexts: seq<Context> := [];
    var i := 0;
    while i < |events|
      invariant 0 <= i <= |events|
      invariant Uses(events[..i], reals, dv, importMap, namedExports) == Ok(contexts)
    {
      assert events[..i + 1][..i] == events[..i];
      var more := UseEntries(events[i], reals, dv, importMap, namedExports);
      if more.TypeError? {
        UsesErrorPersists(events, i + 1, reals, dv, importMap, namedExports);
        return TypeError(more.message);
      }
      contexts := contexts + more.value;
      i := i + 1;
    }
    assert events[..i] == events;
    r := Ok(contexts);
  }

  lemma {:induction false} UsesErrorPersists(events: seq<Event>, k: nat, reals: seq<Context>, dv: map<string, Shape>,
                                             importMap: map<string, string>, namedExports: set<string>)
    requires k <= |events| && Uses(events[..k], reals, dv, importMap, namedExports).TypeError?
    ensures Uses(events, reals, dv, importMap, namedExports) == Uses(events[..k], reals, dv, importMap, namedExports)
    decreases |events| - k
  {
    if k < |events| {
      assert events[..k + 1][..k] == events[..k];
      UsesErrorPersists(events, k + 1, reals, dv, importMap, namedExports);
    } else {
      assert events[..k] == events;
    }
  }

  method AppendReals(contexts: seq<Context>, reals: seq<Context>) returns (r: seq<Context>)
    ensures r == WithReals(contexts, reals)
  {
    r := contexts;
    var i := 0;
    while i < |reals|
      invariant 0 <= i <= |reals|
      invariant r == WithReals(contexts, reals[..i])
    {
      assert reals[..i + 1][..i] == reals[..i];
      var ctx := reals[i];
      var present := false;
      var j := 0;
      while j < |r| && !present
        invariant 0 <= j <= |r|
        invariant present <==> exists k :: 0 <= k < j && r[k].name == ctx.name && r[k].isProvider
      {
        present := r[j].name == ctx.name && r[j].isProvider;
        j := j + 1;
      }
      if !present {
        r := r + [ctx];
      }
      i := i + 1;
    }
    assert reals[..i] == reals;
  }

  method FindContexts(events: seq<Event>, imports: seq<ImportRecord>) returns (result: Result<ContextsResult>)
    ensures result == ContextsSpec(events, imports)
  {
    var importMap := BuildImportMap(imports);
    var namedExports := NamedExports(events);
    var reals, dv := CollectRealContexts(events, importMap, namedExports);
    var uses := CollectUses(events, reals, dv, importMap, namedExports);
    if uses.TypeError? {
      return TypeError(uses.message);
    }
    var contexts := AppendReals(uses.value, reals);
    result := Ok(ContextsResult(contexts, dv));
  }

  // ------------------------------------------------------------------
  // Properties

  /** Appending real contexts keeps what was there, and afterwards every real context has a provider entry of its name. */
  lemma {:induction false} WithRealsCovers(contexts: seq<Context>, reals: seq<Context>)
    requires forall c :: c in reals ==> c.isProvider
    ensures |contexts| <= |WithReals(contexts, reals)| && WithReals(contexts, reals)[..|contexts|] == contexts
    ensures forall k :: 0 <= k < |reals| ==> HasProvider(WithReals(contexts, reals), reals[k].name)
    decreases |reals|
  {
    if |reals| > 0 {
      var init := reals[..|reals| - 1];
      assert forall c :: c in init ==> c in reals;
      WithRealsCovers(contexts, init);
      var prev := WithReals(contexts, init);
      var ctx := reals[|reals| - 1];
      var r := WithReals(contexts, reals);
      assert r == if HasProvider(prev, ctx.name) then prev else prev + [ctx];
      forall k | 0 <= k < |reals| ensures HasProvider(r, reals[k].name) {
        if k < |init| {
          assert init[k] == reals[k];
          var j :| 0 <= j < |prev| && prev[j].name == reals[k].name && prev[j].isProvider;
          assert r[j] == prev[j];
          assert 0 <= j < |r| && r[j].name == reals[k].name && r[j].isProvider;
        } else {
          assert reals[k] == ctx && ctx in reals;
          WithRealsLast(prev, ctx, r);
        }
      }
    }
  }

  lemma WithRealsLast(prev: seq<Context>, ctx: Context, r: seq<Context>)
    requires ctx.isProvider
    requires r == if HasProvider(prev, ctx.name) then prev else prev + [ctx]
    ensures HasProvider(r, ctx.name)
  {
    if !HasProvider(prev, ctx.name) {
      assert r[|prev|] == ctx;
    }
  }

  /** A real context is appended exactly when no provider entry of its name is there yet. */
  lemma WithRealsStep(contexts: seq<Context>, reals: seq<Context>, ctx: Context)
    ensures WithReals(contexts, reals + [ctx]) ==
            var prev := WithReals(contexts, reals); if HasProvider(prev, ctx.name) then prev else prev + [ctx]
  {
    assert (reals + [ctx])[..|reals|] == reals;
  }

  /** The default-value map has a key exactly for each real context's name. */
  predicate KeysAreReal(dv: map<string, Shape>, reals: seq<Context>)
  {
    forall key :: key in dv ==> exists k :: 0 <= k < |reals| && KeyOf(reals[k].name) == key
  }

  /**
   * What a hook or provider entry looks like: a hook is named `use[A-Z]…`,
   * is no createContext variable, and has no value shape; a provider tag ends
   * in "Provider" and takes the shape of the first real context that prefixes
   * it, else none.
   */
  predicate UseShape(c: Context, reals: seq<Context>)
  {
    c.name.Some? && !c.created
    && (c.isHook ==> IsHookName(c.name.value) && !IsRealName(reals, c.name.value) && !c.isProvider
                     && c.valueShape == SUndefined && c.usedProperties.Some?)
    && (!c.isHook ==> c.isProvider && EndsWith(c.name.value, "Provider") && c.usedProperties.None?
                      && var p := FirstPrefixContext(reals, c.name.value);
                         c.valueShape == (if p.Some? then reals[p.value].valueShape else SUndefined))
  }

  lemma UseEntriesShape(e: Event, reals: seq<Context>, dv: map<string, Shape>,
                        importMap: map<string, string>, namedExports: set<string>)
    requires KeysAreReal(dv, reals)
    ensures var m := UseEntries(e, reals, dv, importMap, namedExports);
            m.Ok? ==> forall k :: 0 <= k < |m.value| ==> UseShape(m.value[k], reals)
  {
    if e.Call? && e.callee.Ident? && IsHookName(e.callee.name) && !IsRealName(reals, e.callee.name) {
      var n := e.callee.name;
      assert n[1] == 's' by { assert n[..3][1] == n[1]; }
      assert n != "undefined";
      forall k | 0 <= k < |reals| ensures KeyOf(reals[k].name) != n {
        assert reals[k].name != Some(n);
      }
      assert n !in dv;
    }
    if e.JsxOpen? && e.name.JIdent? && EndsWith(e.name.name, "Provider") && FirstPrefixContext(reals, e.name.name).None? {
      var n := e.name.name;
      forall k | 0 <= k < |reals| ensures KeyOf(reals[k].name) != n {
        assert !StartsWith(n, KeyOf(reals[k].name));
        assert n[..|n|] == n;
      }
      assert n !in dv;
    }
  }

  /** Every entry of the second traversal is a hook entry or a provider entry as UseShape describes. */
  lemma {:induction false} UsesShape(events: seq<Event>, reals: seq<Context>, dv: map<string, Shape>,
                                     importMap: map<string, string>, namedExports: set<string>)
    requires KeysAreReal(dv, reals)
    requires Uses(events, reals, dv, importMap, namedExports).Ok?
    ensures var us := Uses(events, reals, dv, importMap, namedExports).value;
            forall k :: 0 <= k < |us| ==> UseShape(us[k], reals)
    decreases |events|
  {
    if |events| > 0 {
      UsesShape(events[..|events| - 1], reals, dv, importMap, namedExports);
      UseEntriesShape(events[|events| - 1], reals, dv, importMap, namedExports);
    }
  }

  /** The default-value map keys are the names of the real contexts (an absent name reads as "undefined"). */
  lemma {:induction false} DefaultValueKeys(events: seq<Event>, importMap: map<string, string>, namedExports: set<string>)
    ensures KeysAreReal(DefaultValues(events), RealContexts(events, importMap, namedExports))
    decreases |events|
  {
    if |events| > 0 {
      var init := events[..|events| - 1];
      DefaultValueKeys(init, importMap, namedExports);
      var ri := RealContexts(init, importMap, namedExports);
      var r := RealContexts(events, importMap, namedExports);
      var e := events[|events| - 1];
      assert forall k :: 0 <= k < |ri| ==> r[k] == ri[k];
      if IsCreateContext(e) {
        assert r[|ri|].name == PatternName(e.d.id);
        assert DefaultValues(events) == DefaultValues(init)[KeyOf(PatternName(e.d.id)) := ShapeOf(e.d.init.args)];
      } else {
        assert r == ri;
      }
    }
  }

  /**
   * The result of findContexts: the hook and provider entries in traversal
   * order, then the real contexts that had no provider entry of their name;
   * so every createContext variable ends up as a provider entry.
   */
  lemma ContextsShape(events: seq<Event>, imports: seq<ImportRecord>)
    requires ContextsSpec(events, imports).Ok?
    ensures var importMap := ImportMap(imports);
            var reals := RealContexts(events, importMap, NamedExports(events));
            var cs := ContextsSpec(events, imports).value.contexts;
            var uses := Uses(events, reals, DefaultValues(events), importMap, NamedExports(events)).value;
            |uses| <= |cs| && (forall k :: 0 <= k < |uses| ==> cs[k] == uses[k] && UseShape(cs[k], reals))
            && (forall k :: |uses| <= k < |cs| ==> cs[k] in reals)
            && (forall k :: 0 <= k < |reals| ==> HasProvider(cs, reals[k].name))
  {
    var importMap := ImportMap(imports);
    var ne := NamedExports(events);
    var reals := RealContexts(events, importMap, ne);
    DefaultValueKeys(events, importMap, ne);
    UsesShape(events, reals, DefaultValues(events), importMap, ne);
    var uses := Uses(events, reals, DefaultValues(events), importMap, ne).value;
    RealContextsCreated(events, importMap, ne);
    WithRealsCovers(uses, reals);
    WithRealsFromReals(uses, reals);
  }

  /** How a createContext entry is marked. */
  predicate IsRealEntry(c: Context, namedExports: set<string>)
  {
    c.created && c.isProvider && !c.isHook && c.usedProperties.None?
    && c.isExported == (c.name.Some? && c.name.value in namedExports)
  }

  /** Every createContext entry is marked created and provider, and exported when its name is. */
  lemma {:induction false} RealContextsCreated(events: seq<Event>, importMap: map<string, string>, namedExports: set<string>)
    ensures forall c :: c in RealContexts(events, importMap, namedExports) ==> IsRealEntry(c, namedExports)
    decreases |events|
  {
    if |events| > 0 {
      var init := events[..|events| - 1];
      RealContextsCreated(init, importMap, namedExports);
    }
  }

  /** What WithReals adds are real contexts. */
  lemma {:induction false} WithRealsFromReals(contexts: seq<Context>, reals: seq<Context>)
    ensures |contexts| <= |WithReals(contexts, reals)|
    ensures forall k :: |contexts| <= k < |WithReals(contexts, reals)| ==> WithReals(contexts, reals)[k] in reals
    decreases |reals|
  {
    if |reals| > 0 {
      var init := reals[..|reals| - 1];
      WithRealsFromReals(contexts, init);
      assert forall c :: c in init ==> c in reals;
    }
  }

  /** A hook destructuring with a rest element: `const { a, ...rest } = useThing()`. */
  predicate RestInHook(e: Event)
  {
    e.Call? && e.callee.Ident? && IsHookName(e.callee.name)
    && e.declaredAs.Some? && e.declaredAs.value.PObject? && RestProp in e.declaredAs.value.props
  }

  /** The two visits that throw: a rest element in a hook destructuring, and a namespaced tag such as `<a:b>`. */
  predicate Throws(e: Event)
  {
    RestInHook(e) || e == JsxOpen(JNamespaced)
  }

  lemma UseEntriesError(e: Event, reals: seq<Context>, dv: map<string, Shape>,
                        importMap: map<string, string>, namedExports: set<string>)
    ensures UseEntries(e, reals, dv, importMap, namedExports).TypeError? <==> Throws(e)
  {
  }

  /**
   * findContexts throws exactly when some hook call is destructured with a
   * rest element or some opening tag has a namespaced name.
   */
  lemma {:induction false} ContextsErrorIffThrows(events: seq<Event>, reals: seq<Context>, dv: map<string, Shape>,
                                                  importMap: map<string, string>, namedExports: set<string>)
    ensures Uses(events, reals, dv, importMap, namedExports).TypeError? <==>
            exists j :: 0 <= j < |events| && Throws(events[j])
    decreases |events|
  {
    if |events| > 0 {
      var init := events[..|events| - 1];
      ContextsErrorIffThrows(init, reals, dv, importMap, namedExports);
      UseEntriesError(events[|events| - 1], reals, dv, importMap, namedExports);
      assert forall j :: 0 <= j < |init| ==> init[j] == events[j];
      assert (exists j :: 0 <= j < |events| && Throws(events[j])) <==>
             (exists j :: 0 <= j < |init| && Throws(init[j])) || Throws(events[|events| - 1]);
    }
  }
}
