/**
 * scripts/analyze-ast-helper.mjs: the list detectors findStateVariables,
 * findEffectDependencies, findProps, findVariables, findHooks and
 * findParamsKeys, and the dependency report of compareHookDependencies.
 */
module AnalyzeFacts {
  import opened JsText
  import opened AstNodes
  import AstHelpers
  import AnalyzeHints

  // ------------------------------------------------------------------
  // findStateVariables

  /** `const [x, setX] = useState(...)` declares the state variable x. */
  function StateVarOf(e: Event): Option<string>
  {
    if e.VarDecl? && e.d.init.CallInit? && NameOf(e.d.init.callee) == Some("useState")
       && e.d.id.PArray? && Truthy(e.d.id.first)
    then e.d.id.first
    else None
  }

  function StateVariables(events: seq<Event>): seq<string>
  {
    if |events| == 0 then []
    else
      var v := StateVarOf(events[|events| - 1]);
      StateVariables(events[..|events| - 1]) + (if v.Some? then [v.value] else [])
  }

  method FindStateVariables(events: seq<Event>) returns (stateVars: seq<string>)
    ensures stateVars == StateVariables(events)
  {
    stateVars := [];
    var i := 0;
    while i < |events|
      invariant 0 <= i <= |events|
      invariant stateVars == StateVariables(events[..i])
    {
      assert events[..i + 1][..i] == events[..i];
      var e := events[i];
      if e.VarDecl? && e.d.init.CallInit? && e.d.init.callee.Ident? && e.d.init.callee.name == "useState" {
        if e.d.id.PArray? && e.d.id.first.Some? && e.d.id.first.value != "" {
          stateVars := stateVars + [e.d.id.first.value];
        }
      }
      i := i + 1;
    }
    assert events[..i] == events;
  }

  /** The state variables are exactly the non-empty first names of array patterns bound to a useState call. */
  lemma {:induction false} StateVariablesMembers(events: seq<Event>, x: string)
    ensures x in StateVariables(events) <==> exists j :: 0 <= j < |events| && StateVarOf(events[j]) == Some(x)
    ensures x in StateVariables(events) ==> x != ""
    decreases |events|
  {
    if |events| > 0 {
      var init := events[..|events| - 1];
      StateVariablesMembers(init, x);
      assert forall j :: 0 <= j < |init| ==> init[j] == events[j];
      assert (exists j :: 0 <= j < |events| && StateVarOf(events[j]) == Some(x)) <==>
             (exists j :: 0 <= j < |init| && StateVarOf(init[j]) == Some(x)) || StateVarOf(events[|events| - 1]) == Some(x);
    }
  }

  // ------------------------------------------------------------------
  // findEffectDependencies

  /** `el.object.name || (el.object.type === "ThisExpression" ? "this" : undefined)` */
  function ObjectName(e: Expr): Option<string>
  {
    if e.Ident? && e.name != "" then Some(e.name)
    else if e.ThisExpr? then Some("this")
    else None
  }

  /** The dependency one array element names: `x`, or `obj.prop` when both names are there. */
  function DepName(el: Expr): (r: Option<string>)
    ensures el.MemberExpr? && r.Some? ==> '.' in r.value
  {
    match el
    case Ident(n) => Some(n)
    case MemberExpr(obj, prop, _) =>
      var objName := ObjectName(obj);
      var propName := NameOf(prop);
      if Truthy(objName) && Truthy(propName) then
        var r := objName.value + "." + propName.value;
        assert r[|objName.value|] == '.';
        Some(r)
      else None
    case _ => None
  }

  /** `args[1].elements.forEach(el => switch (el.type) ...)`: a hole is null and has no type. */
  function DepsOfElements(elements: seq<Option<Expr>>): Result<seq<string>>
  {
    if |elements| == 0 then Ok([])
    else
      var prev := DepsOfElements(elements[..|elements| - 1]);
      var el := elements[|elements| - 1];
      if prev.TypeError? then prev
      else if el.None? then TypeError("Cannot read properties of null (reading 'type')")
      else
        var n := DepName(el.value);
        Ok(prev.value + (if n.Some? then [n.value] else []))
  }

  /** `useEffect(fn, [deps])`: exactly two arguments, the second an array literal. */
  predicate IsEffectWithDeps(e: Event)
  {
    e.Call? && NameOf(e.callee) == Some("useEffect") && |e.args| == 2 && e.args[1].ArrayExpr?
  }

  function EffectDeps(events: seq<Event>): Result<seq<string>>
  {
    if |events| == 0 then Ok([])
    else
      var prev := EffectDeps(events[..|events| - 1]);
      var e := events[|events| - 1];
      if prev.TypeError? || !IsEffectWithDeps(e) then prev
      else
        var more := DepsOfElements(e.args[1].elements);
        if more.TypeError? then TypeError(more.message) else Ok(prev.value + more.value)
  }

  method ElementDeps(elements: seq<Option<Expr>>) returns (r: Result<seq<string>>)
    ensures r == DepsOfElements(elements)
  {
    var deps: seq<string> := [];
    var i := 0;
    while i < |elements|
      invariant 0 <= i <= |elements|
      invariant DepsOfElements(elements[..i]) == Ok(deps)
    {
      assert elements[..i + 1][..i] == elements[..i];
      var el := elements[i];
      if el.None? {
        DepsErrorPersists(elements, i + 1);
        return TypeError("Cannot read properties of null (reading 'type')");
      }
      var n := DepName(el.value);
      assert elements[..i + 1][i] == el;
      ghost var next := deps + (if n.Some? then [n.value] else []);
      assert DepsOfElements(elements[..i + 1]) == Ok(next);
      if n.Some? {
        deps := deps + [n.value];
      }
      assert deps == next;
      i := i + 1;
    }
    assert elements[..i] == elements;
    r := Ok(deps);
  }

  lemma {:induction false} DepsErrorPersists(elements: seq<Option<Expr>>, k: nat)
    requires k <= |elements| && DepsOfElements(elements[..k]).TypeError?
    ensures DepsOfElements(elements) == DepsOfElements(elements[..k])
    decreases |elements| - k
  {
    if k < |elements| {
      assert elements[..k + 1][..k] == elements[..k];
      DepsErrorPersists(elements, k + 1);
    } else {
      assert elements[..k] == elements;
    }
  }

  lemma {:induction false} EffectErrorPersists(events: seq<Event>, k: nat)
    requires k <= |events| && EffectDeps(events[..k]).TypeError?
    ensures EffectDeps(events) == EffectDeps(events[..k])
    decreases |events| - k
  {
    if k < |events| {
      assert events[..k + 1][..k] == events[..k];
      EffectErrorPersists(events, k + 1);
    } else {
      assert events[..k] == events;
    }
  }

  method FindEffectDependencies(events: seq<Event>) returns (r: Result<seq<string>>)
    ensures r == EffectDeps(events)
  {
    var deps: seq<string> := [];
    var i := 0;
    while i < |events|
      invariant 0 <= i <= |events|
      invariant EffectDeps(events[..i]) == Ok(deps)
    {
      assert events[..i + 1][..i] == events[..i];
      var e := events[i];
      if e.Call? && e.callee.Ident? && e.callee.name == "useEffect" && |e.args| == 2 && e.args[1].ArrayExpr? {
        var more := ElementDeps(e.args[1].elements);
        if more.TypeError? {
          EffectErrorPersists(events, i + 1);
          return TypeError(more.message);
        }
        deps := deps + more.value;
      }
      i := i + 1;
    }
    assert events[..i] == events;
    r := Ok(deps);
  }

  /** The dependency list of one array fails exactly when the array has a hole. */
  lemma {:induction false} DepsErrorIffHole(elements: seq<Option<Expr>>)
    ensures DepsOfElements(elements).TypeError? <==> None in elements
    ensures DepsOfElements(elements).Ok? ==>
              forall x :: x in DepsOfElements(elements).value <==> exists k :: 0 <= k < |elements| && elements[k].Some? && DepName(elements[k].value) == Some(x)
    decreases |elements|
  {
    if |elements| > 0 {
      var init := elements[..|elements| - 1];
      DepsErrorIffHole(init);
      assert elements == init + [elements[|elements| - 1]];
      assert forall k :: 0 <= k < |init| ==> init[k] == elements[k];
    }
  }

  // ------------------------------------------------------------------
  // findProps

  /** One entry of `props`: its name and the hint fields spread into it. */
  datatype PropInfo = PropInfo(name: Option<string>, hint: AnalyzeHints.Hint)

  const NoHint := AnalyzeHints.Hint(None, None, None)

  /** `propValueHints?.[name] || {}` */
  function HintFor(hints: AnalyzeHints.Hints, key: string): AnalyzeHints.Hint
  {
    if key in hints then hints[key] else NoHint
  }

  function PropsOfKeys(keys: seq<string>, hints: AnalyzeHints.Hints): (r: seq<PropInfo>)
    ensures |r| == |keys| && forall k :: 0 <= k < |keys| ==> r[k] == PropInfo(Some(keys[k]), HintFor(hints, keys[k]))
  {
    if |keys| == 0 then [] else PropsOfKeys(keys[..|keys| - 1], hints) + [PropInfo(Some(keys[|keys| - 1]), HintFor(hints, keys[|keys| - 1]))]
  }

  /** `props.x`, read from an identifier named props. */
  predicate IsPropsAccess(e: Event)
  {
    e.Member? && e.m.MemberExpr? && e.m.obj == Ident("props")
  }

  /** The props one visited node lists. */
  function PropsOf(e: Event, hints: AnalyzeHints.Hints): seq<PropInfo>
  {
    if IsPropsAccess(e) then
      var name := NameOf(e.m.prop);
      [PropInfo(name, HintFor(hints, KeyOf(name)))]
    else if e.Function? then PropsOfKeys(AstHelpers.PropKeys(e.params), hints)
    else if e.ExportDefault? && e.defaultDecl.DFunction? then PropsOfKeys(AstHelpers.PropKeys(e.defaultDecl.params), hints)
    else []
  }

  function Props(events: seq<Event>, hints: AnalyzeHints.Hints): seq<PropInfo>
  {
    if |events| == 0 then [] else Props(events[..|events| - 1], hints) + PropsOf(events[|events| - 1], hints)
  }

  method FindProps(events: seq<Event>, hints: AnalyzeHints.Hints) returns (props: seq<PropInfo>)
    ensures props == Props(events, hints)
  {
    props := [];
    var i := 0;
    while i < |events|
      invariant 0 <= i <= |events|
      invariant props == Props(events[..i], hints)
    {
      assert events[..i + 1][..i] == events[..i];
      var e := events[i];
      if e.Member? && e.m.MemberExpr? && e.m.obj == Ident("props") {
        var name := NameOf(e.m.prop);
        props := props + [PropInfo(name, HintFor(hints, KeyOf(name)))];
      } else if e.Function? {
        var keys := AstHelpers.ExtractPropsFromParams(e.params);
        props := props + PropsOfKeys(keys, hints);
      } else if e.ExportDefault? && e.defaultDecl.DFunction? {
        var keys := AstHelpers.ExtractPropsFromParams(e.defaultDecl.params);
        props := props + PropsOfKeys(keys, hints);
      }
      i := i + 1;
    }
    assert events[..i] == events;
  }

  /**
   * Every prop carries the hint recorded under its own name, and each one is
   * either a `props.x` access or a key destructured in a function's
   * parameters; conversely every such access and every such key yields a
   * prop.
   */
  lemma {:induction false} PropsOrigin(events: seq<Event>, hints: AnalyzeHints.Hints)
    ensures forall p :: p in Props(events, hints) ==> p.hint == HintFor(hints, KeyOf(p.name))
    ensures forall p :: p in Props(events, hints) ==>
              exists j :: 0 <= j < |events| && PropFrom(events[j], p.name)
    ensures forall j, name :: 0 <= j < |events| && PropFrom(events[j], name) ==>
              PropInfo(name, HintFor(hints, KeyOf(name))) in Props(events, hints)
    decreases |events|
  {
    if |events| > 0 {
      var init := events[..|events| - 1];
      var e := events[|events| - 1];
      PropsOrigin(init, hints);
      assert forall j :: 0 <= j < |init| ==> init[j] == events[j];
      forall p | p in PropsOf(e, hints)
        ensures p.hint == HintFor(hints, KeyOf(p.name)) && PropFrom(e, p.name)
      {
        if !IsPropsAccess(e) && e.Function? {
          var keys := AstHelpers.PropKeys(e.params);
          var m :| 0 <= m < |keys| && PropsOfKeys(keys, hints)[m] == p;
        } else if !IsPropsAccess(e) && e.ExportDefault? && e.defaultDecl.DFunction? {
          var keys := AstHelpers.PropKeys(e.defaultDecl.params);
          var m :| 0 <= m < |keys| && PropsOfKeys(keys, hints)[m] == p;
        }
      }
      forall j, name | 0 <= j < |events| && PropFrom(events[j], name)
        ensures PropInfo(name, HintFor(hints, KeyOf(name))) in Props(events, hints)
      {
        if j < |init| {
          assert PropFrom(init[j], name);
        } else {
          PropFromListed(e, name, hints);
        }
      }
    }
  }

  /** A visited node lists the prop of every name it is a source of. */
  lemma PropFromListed(e: Event, name: Option<string>, hints: AnalyzeHints.Hints)
    requires PropFrom(e, name)
    ensures PropInfo(name, HintFor(hints, KeyOf(name))) in PropsOf(e, hints)
  {
    if e.Function? {
      var keys := AstHelpers.PropKeys(e.params);
      var m :| 0 <= m < |keys| && keys[m] == name.value;
      assert PropsOfKeys(keys, hints)[m] == PropInfo(name, HintFor(hints, KeyOf(name)));
    } else if e.ExportDefault? {
      var keys := AstHelpers.PropKeys(e.defaultDecl.params);
      var m :| 0 <= m < |keys| && keys[m] == name.value;
      assert PropsOfKeys(keys, hints)[m] == PropInfo(name, HintFor(hints, KeyOf(name)));
    }
  }

  /** Where a prop name can come from. */
  predicate PropFrom(e: Event, name: Option<string>)
  {
    (IsPropsAccess(e) && name == NameOf(e.m.prop))
    || (e.Function? && name.Some? && name.value in AstHelpers.PropKeys(e.params))
    || (e.ExportDefault? && e.defaultDecl.DFunction? && name.Some? && name.value in AstHelpers.PropKeys(e.defaultDecl.params))
  }

  /**
   * `export default function F({ a }) {}` is visited as the export default
   * and again as the function declaration inside it, and both visits list
   * the destructured props: every such prop appears twice.
   */
  lemma ExportedFunctionPropsTwice(id: Option<string>, params: seq<Pattern>, hints: AnalyzeHints.Hints)
    ensures var once := PropsOfKeys(AstHelpers.PropKeys(params), hints);
            Props([ExportDefault(DFunction(FnDeclaration, id, params)), Function(FnDeclaration, params)], hints) == once + once
  {
    var events := [ExportDefault(DFunction(FnDeclaration, id, params)), Function(FnDeclaration, params)];
    assert events[..1][..0] == [];
    assert events[..1] == [events[0]];
    assert Props(events[..1], hints) == PropsOf(events[0], hints);
  }

  // ------------------------------------------------------------------
  // findVariables and findHooks

  /** `path.node.id.name` of every declarator (absent for destructuring patterns). */
  function Variables(events: seq<Event>): (r: seq<Option<string>>)
  {
    if |events| == 0 then []
    else
      var e := events[|events| - 1];
      Variables(events[..|events| - 1]) + (if e.VarDecl? then [PatternName(e.d.id)] else [])
  }

  /** The names of called identifiers that start with "use". */
  function HookOf(e: Event): Option<string>
  {
    if e.Call? && e.callee.Ident? && StartsWith(e.callee.name, "use") then Some(e.callee.name) else None
  }

  function Hooks(events: seq<Event>): seq<string>
  {
    if |events| == 0 then []
    else
      var h := HookOf(events[|events| - 1]);
      Hooks(events[..|events| - 1]) + (if h.Some? then [h.value] else [])
  }

  method FindVariables(events: seq<Event>) returns (vars: seq<Option<string>>)
    ensures vars == Variables(events)
  {
    vars := [];
    var i := 0;
    while i < |events|
      invariant 0 <= i <= |events|
      invariant vars == Variables(events[..i])
    {
      assert events[..i + 1][..i] == events[..i];
      if events[i].VarDecl? {
        vars := vars + [PatternName(events[i].d.id)];
      }
      i := i + 1;
    }
    assert events[..i] == events;
  }

  method FindHooks(events: seq<Event>) returns (hooks: seq<string>)
    ensures hooks == Hooks(events)
  {
    hooks := [];
    var i := 0;
    while i < |events|
      invariant 0 <= i <= |events|
      invariant hooks == Hooks(events[..i])
    {
      assert events[..i + 1][..i] == events[..i];
      var e := events[i];
      if e.Call? && e.callee.Ident? && |e.callee.name| >= 3 && e.callee.name[..3] == "use" {
        hooks := hooks + [e.callee.name];
      }
      i := i + 1;
    }
    assert events[..i] == events;
  }

  lemma {:induction false} HooksMembers(events: seq<Event>, x: string)
    ensures x in Hooks(events) <==> exists j :: 0 <= j < |events| && events[j].Call? && events[j].callee == Ident(x) && StartsWith(x, "use")
    decreases |events|
  {
    if |events| > 0 {
      var init := events[..|events| - 1];
      HooksMembers(init, x);
      assert forall j :: 0 <= j < |init| ==> init[j] == events[j];
      var last := events[|events| - 1];
      assert (exists j :: 0 <= j < |events| && events[j].Call? && events[j].callee == Ident(x) && StartsWith(x, "use")) <==>
             (exists j :: 0 <= j < |init| && init[j].Call? && init[j].callee == Ident(x) && StartsWith(x, "use"))
             || (last.Call? && last.callee == Ident(x) && StartsWith(x, "use"));
    }
  }

  lemma {:induction false} VariablesMembers(events: seq<Event>, x: Option<string>)
    ensures x in Variables(events) <==> exists j :: 0 <= j < |events| && events[j].VarDecl? && PatternName(events[j].d.id) == x
    decreases |events|
  {
    if |events| > 0 {
      var init := events[..|events| - 1];
      VariablesMembers(init, x);
      assert forall j :: 0 <= j < |init| ==> init[j] == events[j];
      var last := events[|events| - 1];
      assert (exists j :: 0 <= j < |events| && events[j].VarDecl? && PatternName(events[j].d.id) == x) <==>
             (exists j :: 0 <= j < |init| && init[j].VarDecl? && PatternName(init[j].d.id) == x)
             || (last.VarDecl? && PatternName(last.d.id) == x);
    }
  }

  // ------------------------------------------------------------------
  // findParamsKeys

  /** `params["asset-class"]` or `params.organization`. */
  function ParamsKeyOf(e: Event): Option<string>
  {
    if e.Member? && e.m.MemberExpr? && e.m.obj == Ident("params") then
      if e.m.computed && e.m.prop.Literal? && e.m.prop.value.LStr? then Some(e.m.prop.value.str)
      else if !e.m.computed && e.m.prop.Ident? then Some(e.m.prop.name)
      else None
    else None
  }

  function ParamsAccesses(events: seq<Event>): seq<string>
  {
    if |events| == 0 then []
    else
      var k := ParamsKeyOf(events[|events| - 1]);
      ParamsAccesses(events[..|events| - 1]) + (if k.Some? then [k.value] else [])
  }

  /** The keys read from `params`, once each in first-read order; none unless both a `params` variable and a useParams call exist. */
  function ParamsKeys(events: seq<Event>): seq<string>
  {
    if Some("params") in Variables(events) && "useParams" in Hooks(events) then Distinct(ParamsAccesses(events)) else []
  }

  method FindParamsKeys(events: seq<Event>) returns (keys: seq<string>)
    ensures keys == ParamsKeys(events)
  {
    var variables := FindVariables(events);
    var hooks := FindHooks(events);
    var hasParamsVar := Some("params") in variables;
    var hasUseParams := "useParams" in hooks;
    if !hasParamsVar || !hasUseParams {
      return [];
    }
    keys := CollectParamsKeys(events);
  }

  /** `keys.add(...)` into a Set, read back with Array.from. */
  method CollectParamsKeys(events: seq<Event>) returns (keys: seq<string>)
    ensures keys == Distinct(ParamsAccesses(events))
  {
    keys := [];
    var i := 0;
    while i < |events|
      invariant 0 <= i <= |events|
      invariant keys == Distinct(ParamsAccesses(events[..i]))
    {
      assert events[..i + 1][..i] == events[..i];
      var k := ParamsKeyOf(events[i]);
      ghost var seen := ParamsAccesses(events[..i]);
      if k.Some? {
        assert ParamsAccesses(events[..i + 1]) == seen + [k.value];
        DistinctSnoc(seen, k.value);
        DistinctMembers(seen);
        if k.value !in keys {
          keys := keys + [k.value];
        }
      } else {
        assert ParamsAccesses(events[..i + 1]) == seen + [] == seen;
      }
      i := i + 1;
    }
    assert events[..i] == events;
  }

  lemma {:induction false} ParamsAccessesMembers(events: seq<Event>, x: string)
    ensures x in ParamsAccesses(events) <==> exists j :: 0 <= j < |events| && ParamsKeyOf(events[j]) == Some(x)
    decreases |events|
  {
    if |events| > 0 {
      var init := events[..|events| - 1];
      ParamsAccessesMembers(init, x);
      assert forall j :: 0 <= j < |init| ==> init[j] == events[j];
      assert (exists j :: 0 <= j < |events| && ParamsKeyOf(events[j]) == Some(x)) <==>
             (exists j :: 0 <= j < |init| && ParamsKeyOf(init[j]) == Some(x)) || ParamsKeyOf(events[|events| - 1]) == Some(x);
    }
  }

  /**
   * A key is reported exactly when a `params` variable and a useParams call
   * exist and the key is read from `params`; each key once, in the order of
   * its first read.
   */
  lemma ParamsKeysSpec(events: seq<Event>)
    ensures forall x :: x in ParamsKeys(events) <==>
              Some("params") in Variables(events) && "useParams" in Hooks(events)
              && exists j :: 0 <= j < |events| && ParamsKeyOf(events[j]) == Some(x)
    ensures NoDup(ParamsKeys(events)) && FirstSeenOrder(ParamsKeys(events), ParamsAccesses(events))
  {
    DistinctMembers(ParamsAccesses(events));
    DistinctNoDup(ParamsAccesses(events));
    DistinctFirstSeen(ParamsAccesses(events));
    forall x ensures x in ParamsAccesses(events) <==> exists j :: 0 <= j < |events| && ParamsKeyOf(events[j]) == Some(x) {
      ParamsAccessesMembers(events, x);
    }
  }

  // ------------------------------------------------------------------
  // compareHookDependencies and getUsedVariablesInFunction

  datatype DepsReport = DepsReport(missingDeps: seq<string>, unusedDeps: seq<string>, mutableDeps: seq<string>)

  /** Inline arrays and objects, calls and member expressions. */
  predicate IsMutableDep(name: string)
  {
    Contains(name, "[") || Contains(name, "{") || Contains(name, "(") || Contains(name, ".")
  }

  function CompareHookDependencies(usedNames: seq<string>, declaredNames: seq<string>): (r: DepsReport)
    ensures forall x :: x in r.missingDeps <==> x in usedNames && x !in declaredNames
    ensures forall x :: x in r.unusedDeps <==> x in declaredNames && x !in usedNames
    ensures NoDup(r.missingDeps) && FirstSeenOrder(r.missingDeps, usedNames)
    ensures NoDup(r.unusedDeps) && FirstSeenOrder(r.unusedDeps, declaredNames)
    ensures forall x :: x in r.mutableDeps <==> x in declaredNames && IsMutableDep(x)
    ensures IsSubsequence(r.mutableDeps, declaredNames)
    ensures forall x :: multiset(r.mutableDeps)[x] == if IsMutableDep(x) then multiset(declaredNames)[x] else 0
  {
    FilterSubsequence(declaredNames, IsMutableDep);
    FilterCounts(declaredNames, IsMutableDep);
    DistinctMembers(usedNames);
    DistinctMembers(declaredNames);
    DistinctFirstSeen(usedNames);
    DistinctFirstSeen(declaredNames);
    FilterFirstSeen(Distinct(usedNames), x => x !in declaredNames, usedNames);
    FilterFirstSeen(Distinct(declaredNames), x => x !in usedNames, declaredNames);
    DistinctNoDup(usedNames);
    DistinctNoDup(declaredNames);
    FilterNoDup(Distinct(usedNames), x => x !in declaredNames);
    FilterNoDup(Distinct(declaredNames), x => x !in usedNames);
    DepsReport(Filter(Distinct(usedNames), x => x !in declaredNames),
               Filter(Distinct(declaredNames), x => x !in usedNames),
               Filter(declaredNames, IsMutableDep))
  }

  /**
   * getUsedVariablesInFunction reads the node's `body`, and the main
   * component records carry no body: the used-variable list is always empty.
   */
  function UsedVariablesInFunction(fnNode: AstHelpers.ComponentInfo): seq<string>
  {
    []
  }

  /**
   * As analyzeASTHelper wires it, nothing is ever reported missing and
   * every declared effect dependency is reported unused, once each.
   */
  lemma AsWiredDependencies(mainComponent: AstHelpers.ComponentInfo, effectDeps: seq<string>)
    ensures var r := CompareHookDependencies(UsedVariablesInFunction(mainComponent), effectDeps);
            r.missingDeps == [] && r.unusedDeps == Distinct(effectDeps)
  {
    var r := CompareHookDependencies([], effectDeps);
    FilterAll(Distinct(effectDeps), x => x !in []);
  }

  lemma {:induction false} FilterAll(xs: seq<string>, p: string -> bool)
    requires forall x :: p(x)
    ensures Filter(xs, p) == xs
    decreases |xs|
  {
    if |xs| > 0 {
      FilterAll(xs[1..], p);
    }
  }
}
