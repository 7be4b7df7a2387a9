/**
 * scripts/ast-helpers.mjs: the name constants and small predicates the fact
 * detectors share, and the two extractors that read parameters and JSX nodes.
 */
module AstHelpers {
  import opened JsText
  import opened AstNodes

  // ------------------------------------------------------------------
  // Constant sets

  const CoreHooks: set<string> := {
    "useState", "useEffect", "useMemo", "useCallback", "useContext", "useReducer",
    "useRef", "useImperativeHandle", "useLayoutEffect", "useDebugValue"
  }

  const ApiCalls: set<string> := {"fetch", "axios", "createClient"}

  const SupabaseMethods: set<string> := {"from", "auth", "channel", "removeChannel", "signOut"}

  const Memoization: set<string> := {"useMemo", "useCallback", "React.memo"}

  const ErrorHandling: set<string> := {"try/catch", "throw"}

  const ConditionalRendering: set<string> := {"LogicalExpression", "ConditionalExpression"}

  const DeclarationTypes: set<string> := {
    "VariableDeclarator", "FunctionDeclaration", "FunctionExpression",
    "ArrowFunctionExpression", "ObjectProperty", "ClassDeclaration"
  }

  // ------------------------------------------------------------------
  // Name predicates

  predicate IsCustomHook(name: string)
  {
    StartsWith(name, "use") && name !in CoreHooks
  }

  /** `/^on[A-Z]/` */
  predicate IsEventHandler(name: string)
  {
    |name| >= 3 && name[0] == 'o' && name[1] == 'n' && IsAsciiUpper(name[2])
  }

  predicate IsApiCall(name: string) { name in ApiCalls }

  predicate IsMemoization(name: string) { name in Memoization }

  predicate IsConditionalRendering(nodeType: string) { nodeType in ConditionalRendering }

  predicate IsErrorHandling(kind: string) { kind in ErrorHandling }

  predicate IsDeclarationNode(nodeType: string) { nodeType in DeclarationTypes }

  /** Every core hook is named like a hook, so "use…" names split into core and custom hooks. */
  lemma CustomHookSplit(name: string)
    ensures StartsWith(name, "use") <==> IsCustomHook(name) || name in CoreHooks
    ensures !(IsCustomHook(name) && name in CoreHooks)
  {
    if name in CoreHooks {
      assert name == "useState" || name == "useEffect" || name == "useMemo" || name == "useCallback"
        || name == "useContext" || name == "useReducer" || name == "useRef"
        || name == "useImperativeHandle" || name == "useLayoutEffect" || name == "useDebugValue";
    }
  }

  /** A custom hook name is "use" followed by anything, other than the ten core hook names. */
  lemma CustomHookOfSuffix(rest: string)
    ensures IsCustomHook("use" + rest) <==> "use" + rest !in CoreHooks
  {
    assert ("use" + rest)[..3] == "use";
  }

  /** An event handler name is "on", one upper-case letter, then anything. */
  lemma EventHandlerOfParts(c: char, rest: string)
    ensures IsEventHandler("on" + [c] + rest) <==> IsAsciiUpper(c)
  {
    var n := "on" + [c] + rest;
    assert n[0] == 'o' && n[1] == 'n' && n[2] == c;
  }

  /** Whatever follows the letter does not matter, and nothing shorter than three characters qualifies. */
  lemma EventHandlerPrefix(name: string, rest: string)
    requires IsEventHandler(name)
    ensures IsEventHandler(name + rest) && |name| >= 3
  {
    assert (name + rest)[..3] == name[..3];
  }

  /** No name is both an event handler and a hook. */
  lemma EventHandlerIsNoHook(name: string)
    requires IsEventHandler(name)
    ensures !StartsWith(name, "use") && !IsCustomHook(name)
  {
    assert name[0] != 'u';
  }

  lemma MemoizationNames(name: string)
    ensures IsMemoization(name) <==> name == "useMemo" || name == "useCallback" || name == "React.memo"
  {
  }

  lemma ApiCallNames(name: string)
    ensures IsApiCall(name) <==> name == "fetch" || name == "axios" || name == "createClient"
  {
  }

  /** The two memoization hooks are core hooks, so they never count as custom hooks. */
  lemma MemoHooksAreCore(name: string)
    requires IsMemoization(name) && StartsWith(name, "use")
    ensures name in CoreHooks && !IsCustomHook(name)
  {
    ReactMemoIsNoHook();
  }

  lemma ReactMemoIsNoHook()
    ensures !StartsWith("React.memo", "use")
  {
    assert "React.memo"[..3] == "Rea";
  }

  // ------------------------------------------------------------------
  // extractPropsFromParams

  /** The truthy key names of one ObjectPattern's properties, in order. */
  function KeyNames(props: seq<PatProp>): seq<string>
  {
    if |props| == 0 then []
    else
      var last := props[|props| - 1];
      KeyNames(props[..|props| - 1])
        + (if last.KeyProp? && Truthy(last.keyName) then [last.keyName.value] else [])
  }

  /** What extractPropsFromParams is specified to return: key names of object-pattern parameters, in order. */
  function PropKeys(params: seq<Pattern>): seq<string>
  {
    if |params| == 0 then []
    else
      var last := params[|params| - 1];
      PropKeys(params[..|params| - 1]) + (if last.PObject? then KeyNames(last.props) else [])
  }

  /** The pattern destructures a property whose key is named `x`. */
  predicate DeclaresKey(p: Pattern, x: string)
  {
    p.PObject? && exists j :: 0 <= j < |p.props| && p.props[j] == KeyProp(Some(x))
  }

  method ExtractPropsFromParams(params: seq<Pattern>) returns (props: seq<string>)
    ensures props == PropKeys(params)
  {
    props := [];
    var i := 0;
    while i < |params|
      invariant 0 <= i <= |params|
      invariant props == PropKeys(params[..i])
    {
      assert params[..i + 1][..i] == params[..i];
      var param := params[i];
      if param.PObject? {
        ghost var before := props;
        var j := 0;
        while j < |param.props|
          invariant 0 <= j <= |param.props|
          invariant props == before + KeyNames(param.props[..j])
        {
          assert param.props[..j + 1][..j] == param.props[..j];
          var prop := param.props[j];
          if prop.KeyProp? && prop.keyName.Some? && prop.keyName.value != "" {
            props := props + [prop.keyName.value];
          }
          j := j + 1;
        }
        assert param.props[..j] == param.props;
      }
      i := i + 1;
    }
    assert params[..i] == params;
  }

  lemma {:induction false} KeyNamesMembers(props: seq<PatProp>, x: string)
    ensures x in KeyNames(props) <==> x != "" && exists j :: 0 <= j < |props| && props[j] == KeyProp(Some(x))
    decreases |props|
  {
    if |props| > 0 {
      var init := props[..|props| - 1];
      KeyNamesMembers(init, x);
      if exists j :: 0 <= j < |init| && init[j] == KeyProp(Some(x)) {
        var j :| 0 <= j < |init| && init[j] == KeyProp(Some(x));
        assert props[j] == init[j];
      }
      if exists j :: 0 <= j < |props| && props[j] == KeyProp(Some(x)) {
        var j :| 0 <= j < |props| && props[j] == KeyProp(Some(x));
        if j < |init| { assert init[j] == props[j]; }
      }
    }
  }

  /** A name is extracted exactly when some object-pattern parameter destructures it (and it is not empty). */
  lemma {:induction false} PropKeysMembers(params: seq<Pattern>, x: string)
    ensures x in PropKeys(params) <==> x != "" && exists i :: 0 <= i < |params| && DeclaresKey(params[i], x)
    decreases |params|
  {
    if |params| > 0 {
      var init := params[..|params| - 1];
      var last := params[|params| - 1];
      PropKeysMembers(init, x);
      if last.PObject? { KeyNamesMembers(last.props, x); }
      if exists i :: 0 <= i < |init| && DeclaresKey(init[i], x) {
        var i :| 0 <= i < |init| && DeclaresKey(init[i], x);
        assert params[i] == init[i];
      }
      if exists i :: 0 <= i < |params| && DeclaresKey(params[i], x) {
        var i :| 0 <= i < |params| && DeclaresKey(params[i], x);
        if i < |init| { assert init[i] == params[i]; }
      }
    }
  }

  /** Parameters contribute in parameter order: the names of a concatenation are concatenated. */
  lemma {:induction false} PropKeysAppend(a: seq<Pattern>, b: seq<Pattern>)
    ensures PropKeys(a + b) == PropKeys(a) + PropKeys(b)
    decreases |b|
  {
    if |b| == 0 {
      assert a + b == a;
    } else {
      var b' := b[..|b| - 1];
      assert (a + b)[..|a + b| - 1] == a + b';
      assert (a + b)[|a + b| - 1] == b[|b| - 1];
      PropKeysAppend(a, b');
    }
  }

  /** A parameter that is not an object pattern contributes nothing. */
  lemma PropKeysSkipsOthers(a: seq<Pattern>, p: Pattern)
    requires !p.PObject?
    ensures PropKeys(a + [p]) == PropKeys(a)
  {
    assert (a + [p])[..|a|] == a;
  }

  // ------------------------------------------------------------------
  // getJSXElementName and getMainComponentName

  /** The tag name of an element, "Fragment" for a fragment, and nothing for anything else. */
  function GetJsxElementName(node: Option<JsxNode>): (r: Option<string>)
    ensures node == Some(JsxFragment) ==> r == Some("Fragment")
    ensures forall n :: node == Some(JsxElement(JIdent(n))) ==> r == Some(n)
    ensures r.None? <==> node.None? || node == Some(OtherNode) || node == Some(JsxElement(JMember))
                         || node == Some(JsxElement(JNamespaced))
  {
    match node
    case None => None
    case Some(JsxElement(JIdent(n))) => Some(n)
    case Some(JsxElement(JMember)) => None
    case Some(JsxElement(JNamespaced)) => None
    case Some(JsxFragment) => Some("Fragment")
    case Some(OtherNode) => None
  }

  datatype ComponentKind = CFunction | CClass | CIdentifier | CHoc | CArrow | CUnknown

  /**
   * A component record as findExportDefault / findMainComponent build it:
   * `params` are the parameters' names, `hocName` and `wrapped` are set for
   * an exported higher-order-component call.
   */
  datatype ComponentInfo = ComponentInfo(
    kind: ComponentKind,
    name: Option<string>,
    params: seq<Option<string>>,
    hocName: Option<string>,
    wrapped: Option<string>)

  /** `exportDefault?.name || exportDefault?.wrappedComponent || "Component"` */
  function GetMainComponentName(exportDefault: Option<ComponentInfo>): (r: string)
    ensures r != ""
    ensures exportDefault.Some? && Truthy(exportDefault.value.name) ==> r == exportDefault.value.name.value
    ensures exportDefault.Some? && !Truthy(exportDefault.value.name) && Truthy(exportDefault.value.wrapped) ==>
              r == exportDefault.value.wrapped.value
    ensures r == "Component" || (exportDefault.Some? && (Some(r) == exportDefault.value.name || Some(r) == exportDefault.value.wrapped))
  {
    if exportDefault.Some? && Truthy(exportDefault.value.name) then exportDefault.value.name.value
    else if exportDefault.Some? && Truthy(exportDefault.value.wrapped) then exportDefault.value.wrapped.value
    else "Component"
  }
}
