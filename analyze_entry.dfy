/**
 * scripts/analyze-ast-helper.mjs, entry point: findExportDefault (the last
 * handled `export default`, with its nameless fallback) and
 * findMainComponent (export default, else a named export, else a record
 * named after the file).
 */
module AnalyzeEntry {
  import opened JsText
  import opened AstNodes
  import opened AstHelpers

  // ------------------------------------------------------------------
  // File-name fallback

  /** `fileName.split("/").pop().split(".")[0]`: the last path component up to its first dot. */
  function FileBase(fileName: string): (r: string)
    ensures '/' !in r && '.' !in r
  {
    var parts := Split(fileName, '/');
    Split(parts[|parts| - 1], '.')[0]
  }

  /** The file base when it is not empty, else "Component". */
  function FallbackName(fileName: string): (r: string)
    ensures r != ""
    ensures r == FileBase(fileName) || (FileBase(fileName) == "" && r == "Component")
  {
    if FileBase(fileName) != "" then FileBase(fileName) else "Component"
  }

  /** The base of "dir/base.ext" is base, whatever the directory and the extension. */
  lemma FileBaseOfPath(dir: string, base: string, ext: string)
    requires '/' !in base && '.' !in base && '/' !in ext
    ensures FileBase(dir + "/" + base + "." + ext) == base
  {
    var name := base + "." + ext;
    assert dir + "/" + base + "." + ext == dir + ['/'] + name;
    SplitConcat(dir, name, '/');
    assert '/' !in name;
    SplitNoSep(name, '/');
    assert name == base + ['.'] + ext;
    SplitConcat(base, ext, '.');
    SplitNoSep(base, '.');
  }

  /** A bare "base.ext" has the base too. */
  lemma FileBaseOfName(base: string, ext: string)
    requires '/' !in base && '.' !in base && '/' !in ext
    ensures FileBase(base + "." + ext) == base
  {
    var name := base + "." + ext;
    assert '/' !in name;
    SplitNoSep(name, '/');
    assert name == base + ['.'] + ext;
    SplitConcat(base, ext, '.');
    SplitNoSep(base, '.');
  }

  // ------------------------------------------------------------------
  // findExportDefault

  /** `params.map(p => p.name)` */
  function ParamNames(params: seq<Pattern>): (r: seq<Option<string>>)
    ensures |r| == |params| && forall k :: 0 <= k < |params| ==> r[k] == PatternName(params[k])
  {
    Map(params, PatternName)
  }

  /** The record one `export default` declaration yields, before any name fallback; None for the kinds not handled. */
  function ExportDefaultOf(decl: DefaultDecl): Option<ComponentInfo>
  {
    match decl
    case DFunction(kind, id, params) =>
      if kind == FnDeclaration then Some(ComponentInfo(CFunction, id, ParamNames(params), None, None)) else None
    case DClass(id) => Some(ComponentInfo(CClass, id, [], None, None))
    case DIdent(name) => Some(ComponentInfo(CIdentifier, Some(name), [], None, None))
    case DCall(callee, args) =>
      Some(ComponentInfo(CHoc, None, [], NameOf(callee), if |args| > 0 then NameOf(args[0]) else None))
    case DOther => None
  }

  /** An event whose export default declaration findExportDefault handles. */
  predicate Handled(e: Event)
  {
    e.ExportDefault? && ExportDefaultOf(e.defaultDecl).Some?
  }

  /** `result` after the traversal: the record of the last handled export default. */
  function LastExportDefault(events: seq<Event>): Option<ComponentInfo>
  {
    if |events| == 0 then None
    else if Handled(events[|events| - 1]) then ExportDefaultOf(events[|events| - 1].defaultDecl)
    else LastExportDefault(events[..|events| - 1])
  }

  /**
   * The nameless fallback. It first looks for a declaration in the program body
   * when an identifier export has no name; an identifier export always carries
   * its name (ExportDefaultIdentifierNamed), so that lookup never runs and is
   * not modelled. Then the file base, then "Component".
   */
  function WithFallbackName(r: Option<ComponentInfo>, fileName: string): Option<ComponentInfo>
  {
    if r.Some? && !Truthy(r.value.name) then Some(r.value.(name := Some(FallbackName(fileName)))) else r
  }

  function ExportDefaultSpec(events: seq<Event>, fileName: string): Option<ComponentInfo>
  {
    WithFallbackName(LastExportDefault(events), fileName)
  }

  method FindExportDefault(events: seq<Event>, fileName: string) returns (result: Option<ComponentInfo>)
    ensures result == ExportDefaultSpec(events, fileName)
  {
    result := None;
    var i := 0;
    while i < |events|
      invariant 0 <= i <= |events|
      invariant result == LastExportDefault(events[..i])
    {
      assert events[..i + 1][..i] == events[..i];
      var e := events[i];
      if e.ExportDefault? {
        match e.defaultDecl
        case DFunction(kind, id, params) =>
          if kind == FnDeclaration {
            result := Some(ComponentInfo(CFunction, id, ParamNames(params), None, None));
          }
        case DClass(id) =>
          result := Some(ComponentInfo(CClass, id, [], None, None));
        case DIdent(name) =>
          result := Some(ComponentInfo(CIdentifier, Some(name), [], None, None));
        case DCall(callee, args) =>
          var wrapped := if |args| > 0 then NameOf(args[0]) else None;
          result := Some(ComponentInfo(CHoc, None, [], NameOf(callee), wrapped));
        case DOther =>
      }
      i := i + 1;
    }
    assert events[..i] == events;
    if result.Some? && !Truthy(result.value.name) {
      var base := FileBase(fileName);
      var name := if base != "" then base else "Component";
      result := Some(result.value.(name := Some(name)));
    }
  }

  lemma ExportDefaultIdentifierNamed(name: string)
    ensures ExportDefaultOf(DIdent(name)) == Some(ComponentInfo(CIdentifier, Some(name), [], None, None))
  {
  }

  /** There is no result exactly when no export default of a handled kind was visited. */
  lemma {:induction false} ExportDefaultAbsent(events: seq<Event>, fileName: string)
    ensures ExportDefaultSpec(events, fileName).None? <==> forall k :: 0 <= k < |events| ==> !Handled(events[k])
    decreases |events|
  {
    if |events| > 0 {
      var init := events[..|events| - 1];
      ExportDefaultAbsent(init, fileName);
      assert forall k :: 0 <= k < |init| ==> init[k] == events[k];
    }
  }

  /** The result is the record of the last handled export default, with its kind and hoc fields kept. */
  lemma {:induction false} ExportDefaultIsLast(events: seq<Event>, fileName: string, k: nat)
    requires k < |events| && Handled(events[k])
    requires forall j :: k < j < |events| ==> !Handled(events[j])
    ensures var r := ExportDefaultSpec(events, fileName);
            var d := ExportDefaultOf(events[k].defaultDecl).value;
            r.Some? && r.value.kind == d.kind && r.value.params == d.params
            && r.value.hocName == d.hocName && r.value.wrapped == d.wrapped
            && r.value.name == (if Truthy(d.name) then d.name else Some(FallbackName(fileName)))
    decreases |events|
  {
    if k < |events| - 1 {
      var init := events[..|events| - 1];
      assert init[k] == events[k];
      ExportDefaultIsLast(init, fileName, k);
    }
  }

  /** Every record findExportDefault returns has a non-empty name. */
  lemma ExportDefaultNamed(events: seq<Event>, fileName: string)
    ensures var r := ExportDefaultSpec(events, fileName);
            r.Some? ==> Truthy(r.value.name)
  {
  }

  /** An exported call is a higher-order component: callee name, first argument, and a fallback name. */
  lemma ExportDefaultHoc(callee: Expr, args: seq<Expr>, fileName: string)
    ensures var r := ExportDefaultSpec([ExportDefault(DCall(callee, args))], fileName);
            r == Some(ComponentInfo(CHoc, Some(FallbackName(fileName)), [], NameOf(callee),
                                    if |args| > 0 then NameOf(args[0]) else None))
  {
    assert [ExportDefault(DCall(callee, args))][..0] == [];
  }

  // ------------------------------------------------------------------
  // findMainComponent

  /** The candidates one `export ...` contributes: functions, classes and function-valued declarators. */
  function NamedCandidates(decl: NamedDecl): seq<ComponentInfo>
  {
    match decl
    case NFunction(id, params) => [ComponentInfo(CFunction, id, ParamNames(params), None, None)]
    case NClass(id) => [ComponentInfo(CClass, id, [], None, None)]
    case NVariables(ds) => DeclaratorCandidates(ds)
    case NOther => []
  }

  function DeclaratorCandidate(d: Declarator): seq<ComponentInfo>
  {
    if d.init.FunctionInit? then
      [ComponentInfo(if d.init.kind == FnArrow then CArrow else CFunction, PatternName(d.id), ParamNames(d.init.params), None, None)]
    else []
  }

  function DeclaratorCandidates(ds: seq<Declarator>): seq<ComponentInfo>
  {
    if |ds| == 0 then [] else DeclaratorCandidates(ds[..|ds| - 1]) + DeclaratorCandidate(ds[|ds| - 1])
  }

  function EventCandidates(e: Event): seq<ComponentInfo>
  {
    if e.ExportNamed? && e.namedDecl.Some? then NamedCandidates(e.namedDecl.value) else []
  }

  /** The `candidates` array after the traversal. */
  function Candidates(events: seq<Event>): seq<ComponentInfo>
  {
    if |events| == 0 then [] else Candidates(events[..|events| - 1]) + EventCandidates(events[|events| - 1])
  }

  /** `/Provider|Context/i.test(c.name)`; an absent name is matched as "undefined". */
  predicate ProviderLike(c: ComponentInfo)
  {
    var n := Lower(KeyOf(c.name));
    Contains(n, "provider") || Contains(n, "context")
  }

  /** `candidates.findIndex(ProviderLike)` */
  function FirstProviderLike(cands: seq<ComponentInfo>): (r: Option<nat>)
    ensures r.Some? ==> r.value < |cands| && ProviderLike(cands[r.value])
                        && forall k :: 0 <= k < r.value ==> !ProviderLike(cands[k])
    ensures r.None? ==> forall k :: 0 <= k < |cands| ==> !ProviderLike(cands[k])
  {
    FindIndex(cands, ProviderLike)
  }

  function MainComponentSpec(events: seq<Event>, fileName: string): ComponentInfo
  {
    var ed := ExportDefaultSpec(events, fileName);
    if ed.Some? then ed.value
    else
      var cands := Candidates(events);
      var p := FirstProviderLike(cands);
      if p.Some? then cands[p.value]
      else if |cands| > 0 then cands[0]
      else ComponentInfo(CUnknown, Some(FallbackName(fileName)), [], None, None)
  }

  method FindMainComponent(events: seq<Event>, fileName: string) returns (main: ComponentInfo)
    ensures main == MainComponentSpec(events, fileName)
  {
    var exportDefault := FindExportDefault(events, fileName);
    if exportDefault.Some? {
      return exportDefault.value;
    }
    var candidates := CollectCandidates(events);
    var p := FirstProviderLike(candidates);
    if p.Some? {
      main := candidates[p.value];
    } else if |candidates| > 0 {
      main := candidates[0];
    } else {
      var base := FileBase(fileName);
      main := ComponentInfo(CUnknown, Some(if base != "" then base else "Component"), [], None, None);
    }
  }

  /** The traversal that pushes to `candidates`. */
  method CollectCandidates(events: seq<Event>) returns (candidates: seq<ComponentInfo>)
    ensures candidates == Candidates(events)
  {
    candidates := [];
    var i := 0;
    while i < |events|
      invariant 0 <= i <= |events|
      invariant candidates == Candidates(events[..i])
    {
      assert events[..i + 1][..i] == events[..i];
      var e := events[i];
      if e.ExportNamed? && e.namedDecl.Some? {
        match e.namedDecl.value
        case NFunction(id, params) =>
          candidates := candidates + [ComponentInfo(CFunction, id, ParamNames(params), None, None)];
        case NClass(id) =>
          candidates := candidates + [ComponentInfo(CClass, id, [], None, None)];
        case NVariables(ds) =>
          var more := CollectDeclarators(ds);
          candidates := candidates + more;
        case NOther =>
      }
      i := i + 1;
    }
    assert events[..i] == events;
  }

  /** `decl.declarations.forEach(...)`: push the function-valued declarators. */
  method CollectDeclarators(ds: seq<Declarator>) returns (cs: seq<ComponentInfo>)
    ensures cs == DeclaratorCandidates(ds)
  {
    cs := [];
    var j := 0;
    while j < |ds|
      invariant 0 <= j <= |ds|
      invariant cs == DeclaratorCandidates(ds[..j])
    {
      assert ds[..j + 1][..j] == ds[..j];
      var d := ds[j];
      if d.init.FunctionInit? {
        var kind := if d.init.kind == FnArrow then CArrow else CFunction;
        cs := cs + [ComponentInfo(kind, PatternName(d.id), ParamNames(d.init.params), None, None)];
      }
      j := j + 1;
    }
    assert ds[..j] == ds;
  }

  lemma FirstProviderLikeUnique(cands: seq<ComponentInfo>, k: nat)
    requires k < |cands| && ProviderLike(cands[k])
    requires forall j :: 0 <= j < k ==> !ProviderLike(cands[j])
    ensures FirstProviderLike(cands) == Some(k)
  {
    var r := FirstProviderLike(cands);
    if r.None? {
    } else if r.value < k {
    } else if r.value > k {
    }
  }

  /** The priority chain of findMainComponent, one step per case. */
  lemma MainComponentPriority(events: seq<Event>, fileName: string)
    ensures var ed := ExportDefaultSpec(events, fileName);
            var cands := Candidates(events);
            var main := MainComponentSpec(events, fileName);
            (ed.Some? ==> main == ed.value)
            && (ed.None? && (exists k :: 0 <= k < |cands| && ProviderLike(cands[k])) ==>
                  exists k :: 0 <= k < |cands| && main == cands[k] && ProviderLike(cands[k])
                              && forall j :: 0 <= j < k ==> !ProviderLike(cands[j]))
            && (ed.None? && (forall k :: 0 <= k < |cands| ==> !ProviderLike(cands[k])) && |cands| > 0 ==>
                  main == cands[0])
            && (ed.None? && |cands| == 0 ==> main == ComponentInfo(CUnknown, Some(FallbackName(fileName)), [], None, None))
  {
    var cands := Candidates(events);
    var p := FirstProviderLike(cands);
    if ExportDefaultSpec(events, fileName).None? && p.Some? {
      assert MainComponentSpec(events, fileName) == cands[p.value];
    }
  }

  /** A file with neither an export default nor an exported function is named after the file. */
  lemma MainComponentOfEmpty(fileName: string, base: string, ext: string)
    requires '/' !in base && '.' !in base && '/' !in ext && base != ""
    ensures MainComponentSpec([], "src/" + base + "." + ext) == ComponentInfo(CUnknown, Some(base), [], None, None)
  {
    assert "src/" + base + "." + ext == "src" + "/" + base + "." + ext;
    FileBaseOfPath("src", base, ext);
    assert Candidates([]) == [] && LastExportDefault([]) == None;
  }

  /** An arrow-function export default is not handled, so named exports decide. */
  lemma ArrowDefaultIsIgnored(params: seq<Pattern>, fileName: string)
    ensures ExportDefaultSpec([ExportDefault(DFunction(FnArrow, None, params))], fileName).None?
  {
    var es := [ExportDefault(DFunction(FnArrow, None, params))];
    assert !Handled(es[0]);
    assert es[..0] == [];
    assert LastExportDefault(es) == LastExportDefault([]);
  }
}
