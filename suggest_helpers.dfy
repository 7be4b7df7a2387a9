/**
 * The helpers the block generators share: the example-value heuristic, the
 * Testing Library detector, the automatic-mock comment, the import/mock/
 * provider helper of a context, and the next/navigation mocks.
 */
module SuggestHelpers {
  import opened JsText
  import opened AstNodes
  import AnalyzeContexts

  // ------------------------------------------------------------------
  // Constant tables

  const TestingLibraryIndicators: seq<string> := [
    "render(", "screen.", "fireEvent.", "waitFor(", "waitForElementToBeRemoved(", "within(",
    "userEvent.", "act(", "findBy", "getBy", "queryBy", "findAllBy", "getAllBy", "queryAllBy",
    "@testing-library/react"]

  const NameString: seq<string> := ["name", "label", "text", "title"]
  const NameNumber: seq<string> := ["count", "age", "total", "amount", "id"]
  const NameBoolean: seq<string> := ["is", "has", "enabled", "active"]
  const NameArray: seq<string> := ["list", "items", "values"]
  const NameObject: seq<string> := ["data", "info", "meta"]

  const TypeString: seq<string> := ["string"]
  const TypeNumber: seq<string> := ["number", "int", "float", "double"]
  const TypeBoolean: seq<string> := ["boolean", "bool"]
  const TypeArray: seq<string> := ["array"]
  const TypeObject: seq<string> := ["object"]
  const TypeFunction: seq<string> := ["function", "func", "handler", "callback"]

  /** Modules never offered as automatic mocks. */
  const ExcludeAutomocks: seq<string> := [
    "react", "react-dom", "@testing-library/react", "classnames", "next/navigation",
    "react-hot-toast", "react-spinners"]

  /** `pats.some(p => s.includes(p))` */
  predicate SomeIncludes(s: string, pats: seq<string>)
  {
    exists k :: 0 <= k < |pats| && Contains(s, pats[k])
  }

  /** `pats.some(p => s.startsWith(p))` */
  predicate SomeStartsWith(s: string, pats: seq<string>)
  {
    exists k :: 0 <= k < |pats| && StartsWith(s, pats[k])
  }

  /** The empty string includes no non-empty pattern. */
  lemma EmptyIncludesNothing(pats: seq<string>)
    requires forall k :: 0 <= k < |pats| ==> pats[k] != ""
    ensures !SomeIncludes("", pats)
  {
    forall k | 0 <= k < |pats| ensures !Contains("", pats[k]) {
      assert |pats[k]| > 0;
    }
  }

  // ------------------------------------------------------------------
  // Example values

  // An example value is what getExampleValue returns: a string, a number or
  // a boolean, with None for undefined.

  const ExampleString := LStr("\"example\"")
  const ExampleNumber := LNum(42)
  const ExampleBoolean := LBool(true)
  const ExampleArray := LStr("[1, 2, 3]")
  const ExampleObject := LStr("{ foo: \"bar\" }")
  const ExampleNull := LStr("null")
  const JestFn := LStr("jest.fn()")
  const TestChildMarker := "data-testid=\"test-child\""
  const ChildOpen := "<span "
  const ChildClose := ">Test</span>"
  /** The child element a render prop named children is given: `<span data-testid="test-child">Test</span>`. */
  const ChildMarkup := ChildOpen + TestChildMarker + ChildClose

  predicate TypeMatches(t: string)
  {
    SomeIncludes(t, TypeString) || SomeIncludes(t, TypeNumber) || SomeIncludes(t, TypeBoolean)
    || SomeIncludes(t, TypeArray) || SomeIncludes(t, TypeObject)
  }

  predicate NameMatches(n: string)
  {
    SomeIncludes(n, NameString) || SomeIncludes(n, NameNumber) || SomeStartsWith(n, NameBoolean)
    || SomeIncludes(n, NameArray) || SomeIncludes(n, NameObject)
  }

  /** The heuristic by type, then by name, then the "null" fallback. */
  function GeneralExample(t: string, n: string): (r: Lit)
    ensures r in {ExampleString, ExampleNumber, ExampleBoolean, ExampleArray, ExampleObject, ExampleNull}
    ensures r == ExampleNull <==> !TypeMatches(t) && !NameMatches(n)
  {
    if SomeIncludes(t, TypeString) then ExampleString
    else if SomeIncludes(t, TypeNumber) then ExampleNumber
    else if SomeIncludes(t, TypeBoolean) then ExampleBoolean
    else if SomeIncludes(t, TypeArray) then ExampleArray
    else if SomeIncludes(t, TypeObject) then ExampleObject
    else if SomeIncludes(n, NameString) then ExampleString
    else if SomeIncludes(n, NameNumber) then ExampleNumber
    else if SomeStartsWith(n, NameBoolean) then ExampleBoolean
    else if SomeIncludes(n, NameArray) then ExampleArray
    else if SomeIncludes(n, NameObject) then ExampleObject
    else ExampleNull
  }

  /** A recognised type decides the example whatever the name says. */
  lemma TypeBeatsName(t: string, n1: string, n2: string)
    requires TypeMatches(t)
    ensures GeneralExample(t, n1) == GeneralExample(t, n2)
  {
  }

  /**
   * The chain is tried in order and by substring: an untyped name that merely
   * contains "id", such as "hidden", is given the number example.
   */
  lemma HiddenIsANumber()
    ensures GeneralExample("", "hidden") == ExampleNumber
  {
    EmptyIncludesNothing(TypeString);
    EmptyIncludesNothing(TypeNumber);
    EmptyIncludesNothing(TypeBoolean);
    EmptyIncludesNothing(TypeArray);
    EmptyIncludesNothing(TypeObject);
    forall k | 0 <= k < |NameString| ensures !Contains("hidden", NameString[k]) {
      NotContainsByFirst("hidden", NameString[k]);
    }
    assert !SomeIncludes("hidden", NameString);
    ContainsAt("hidden", "id", 1);
    assert NameNumber[4] == "id";
    assert SomeIncludes("hidden", NameNumber);
  }

  /** `children` of a render prop gets a marked child element; anything else the general heuristic. */
  function RenderExample(t: string, n: string): (r: Lit)
    ensures n == "children" ==> r == LStr(ChildMarkup)
    ensures n != "children" ==> r == GeneralExample(t, n)
  {
    if n == "children" then LStr(ChildMarkup) else GeneralExample(t, n)
  }

  /** Every branch of the handler heuristic suggests a jest mock function. */
  function HandlerExample(t: string, n: string): (r: Lit)
    ensures r == JestFn
  {
    if SomeIncludes(t, TypeFunction) then JestFn
    else if Contains(n, "handler") || Contains(n, "callback") || StartsWith(n, "on") then JestFn
    else JestFn
  }

  /** The heuristic chosen by the usage type: render, handler, or the general one for anything else. */
  function Heuristic(usage: string, t: string, n: string): Lit
  {
    if usage == "render" then RenderExample(t, n)
    else if usage == "handler" then HandlerExample(t, n)
    else GeneralExample(t, n)
  }

  /** The fields of a prop, state, handler or context record that getExampleValue reads. */
  datatype Def = Def(
    declaredType: Option<string>,
    valueType: Option<string>,
    tsType: Option<string>,
    name: Option<string>,
    key: Option<string>,
    exampleArray: Option<string>,
    possibleValues: Option<seq<Lit>>,
    defaultValue: Option<Lit>,
    enumValues: Option<seq<Lit>>,
    defaultOption: Option<Lit>)

  /** A record with only a name. */
  function NamedDef(name: Option<string>): Def
  {
    Def(None, None, None, name, None, None, None, None, None, None)
  }

  /** `a || b || ... || ''` over optional strings. */
  function FirstTruthy(xs: seq<Option<string>>): (r: string)
    ensures r == "" <==> forall k :: 0 <= k < |xs| ==> !Truthy(xs[k])
    ensures r != "" ==> exists k :: 0 <= k < |xs| && xs[k] == Some(r)
  {
    if |xs| == 0 then ""
    else if Truthy(xs[0]) then xs[0].value
    else
      var r := FirstTruthy(xs[1..]);
      assert forall k :: 1 <= k < |xs| ==> xs[k] == xs[1..][k - 1];
      r
  }

  function DefType(d: Def): string { Lower(FirstTruthy([d.declaredType, d.valueType, d.tsType])) }

  function DefName(d: Def): string { Lower(FirstTruthy([d.name, d.key])) }

  /** JSON.stringify of a literal value. */
  function JsonLit(l: Lit): string
  {
    match l
    case LStr(s) => JsonString(s)
    case LNum(n) => IntToString(n)
    case LBool(b) => if b then "true" else "false"
  }

  /** The first possible value, when the list is present and not empty. */
  function PossibleValues(d: Def): Option<Lit>
  {
    if d.possibleValues.Some? && |d.possibleValues.value| > 0 then Some(d.possibleValues.value[0]) else None
  }

  /** The first enum member, when the list is present and not empty. */
  function FirstEnum(d: Def): Option<Lit>
  {
    if d.enumValues.Some? && |d.enumValues.value| > 0 then Some(d.enumValues.value[0]) else None
  }

  /** The record carries a hint or a constraint that getExampleValue prefers to its heuristic. */
  predicate HasHint(d: Def)
  {
    Truthy(d.exampleArray)
    || (d.possibleValues.Some? && |d.possibleValues.value| > 0)
    || d.defaultValue.Some?
    || (d.enumValues.Some? && |d.enumValues.value| > 0)
    || d.defaultOption.Some?
  }

  /**
   * getExampleValue: undefined for a missing record; otherwise the first of
   * exampleArray, the first possible value, the default value, the first enum
   * member and `default` that is present, and the heuristic by usage when none is.
   */
  function GetExampleValue(def: Option<Def>, usage: string): (r: Option<Lit>)
    ensures r.None? <==> def.None?
    ensures def.Some? && Truthy(def.value.exampleArray) ==> r == Some(LStr(def.value.exampleArray.value))
    ensures def.Some? && !Truthy(def.value.exampleArray) && PossibleValues(def.value).Some?
            ==> r == Some(LStr(JsonLit(PossibleValues(def.value).value)))
    ensures def.Some? && !Truthy(def.value.exampleArray) && PossibleValues(def.value).None? && def.value.defaultValue.Some?
            ==> r == Some(LStr(JsonLit(def.value.defaultValue.value)))
    ensures def.Some? && !Truthy(def.value.exampleArray) && PossibleValues(def.value).None? && def.value.defaultValue.None?
            && FirstEnum(def.value).Some?
            ==> r == Some(LStr(JsonLit(FirstEnum(def.value).value)))
    ensures def.Some? && !Truthy(def.value.exampleArray) && PossibleValues(def.value).None? && def.value.defaultValue.None?
            && FirstEnum(def.value).None? && def.value.defaultOption.Some?
            ==> r == Some(LStr(JsonLit(def.value.defaultOption.value)))
    ensures def.Some? && !HasHint(def.value) ==> r == Some(Heuristic(usage, DefType(def.value), DefName(def.value)))
  {
    if def.None? then None
    else
      var d := def.value;
      if Truthy(d.exampleArray) then Some(LStr(d.exampleArray.value))
      else if d.possibleValues.Some? && |d.possibleValues.value| > 0 then Some(LStr(JsonLit(d.possibleValues.value[0])))
      else if d.defaultValue.Some? then Some(LStr(JsonLit(d.defaultValue.value)))
      else if d.enumValues.Some? && |d.enumValues.value| > 0 then Some(LStr(JsonLit(d.enumValues.value[0])))
      else if d.defaultOption.Some? then Some(LStr(JsonLit(d.defaultOption.value)))
      else Some(Heuristic(usage, DefType(d), DefName(d)))
  }

  /** A hint is rendered as JSON: a string hint keeps its quotes. */
  lemma PossibleValueIsJson(d: Def, usage: string, s: string)
    requires !Truthy(d.exampleArray) && d.possibleValues.Some? && |d.possibleValues.value| > 0
    requires d.possibleValues.value[0] == LStr(s)
    ensures GetExampleValue(Some(d), usage) == Some(LStr(JsonString(s)))
  {
  }

  /** A default value found in the source beats the enum and `default` constraints and the heuristic. */
  lemma DefaultValueBeatsConstraints(d: Def, usage: string)
    requires !Truthy(d.exampleArray) && (d.possibleValues.None? || |d.possibleValues.value| == 0)
    requires d.defaultValue.Some?
    ensures GetExampleValue(Some(d), usage) == Some(LStr(JsonLit(d.defaultValue.value)))
    ensures GetExampleValue(Some(d), usage) == GetExampleValue(Some(d.(enumValues := None, defaultOption := None)), usage)
  {
  }

  /** A handler record without hints always gets `jest.fn()`. */
  lemma HandlerExampleIsJestFn(d: Def)
    requires !HasHint(d)
    ensures GetExampleValue(Some(d), "handler") == Some(JestFn)
  {
  }

  /** A render prop named children (in any case) without hints gets the marked child element. */
  lemma ChildrenRenderExample(d: Def)
    requires !HasHint(d) && DefName(d) == "children"
    ensures GetExampleValue(Some(d), "render") == Some(LStr(ChildMarkup))
  {
  }

  /** A record with neither a type nor a name falls through every heuristic to "null". */
  lemma AnonymousExampleIsNull(d: Def, usage: string)
    requires !HasHint(d) && usage != "render" && usage != "handler"
    requires !Truthy(d.declaredType) && !Truthy(d.valueType) && !Truthy(d.tsType)
    requires !Truthy(d.name) && !Truthy(d.key)
    ensures GetExampleValue(Some(d), usage) == Some(ExampleNull)
  {
    assert DefType(d) == "" && DefName(d) == "";
    EmptyIncludesNothing(TypeString);
    EmptyIncludesNothing(TypeNumber);
    EmptyIncludesNothing(TypeBoolean);
    EmptyIncludesNothing(TypeArray);
    EmptyIncludesNothing(TypeObject);
    EmptyIncludesNothing(NameString);
    EmptyIncludesNothing(NameNumber);
    EmptyIncludesNothing(NameArray);
    EmptyIncludesNothing(NameObject);
    forall k | 0 <= k < |NameBoolean| ensures !StartsWith("", NameBoolean[k]) {
      assert |NameBoolean[k]| > 0;
    }
  }

  /** `${value}` of an example value in a template string. */
  function ValueText(v: Option<Lit>): string
  {
    match v
    case None => "undefined"
    case Some(LStr(s)) => s
    case Some(LNum(n)) => IntToString(n)
    case Some(LBool(b)) => if b then "true" else "false"
  }

  // ------------------------------------------------------------------
  // isBlockUsingTestingLibrary

  /** What isBlockUsingTestingLibrary is handed: a list of lines, one string, or nothing. */
  datatype Code = CodeLines(lines: seq<string>) | CodeText(text: string) | NoCode

  function LinesOfCode(code: Code): seq<string>
  {
    match code
    case CodeLines(ls) => ls
    case CodeText(t) => Lines(t)
    case NoCode => []
  }

  predicate UsesIndicator(line: string)
  {
    SomeIncludes(line, TestingLibraryIndicators)
  }

  function AnyLineUses(lines: seq<string>): (r: bool)
    ensures r <==> exists k :: 0 <= k < |lines| && UsesIndicator(lines[k])
  {
    if |lines| == 0 then false
    else
      var rest := AnyLineUses(lines[1..]);
      assert forall k :: 1 <= k < |lines| ==> lines[k] == lines[1..][k - 1];
      UsesIndicator(lines[0]) || rest
  }

  /** A falsy argument uses nothing; otherwise some line includes some indicator. */
  function IsBlockUsingTestingLibrary(code: Code): (r: bool)
    ensures r <==> !code.NoCode? && !(code.CodeText? && code.text == "")
                   && exists k :: 0 <= k < |LinesOfCode(code)| && UsesIndicator(LinesOfCode(code)[k])
  {
    if code.NoCode? || (code.CodeText? && code.text == "") then false
    else AnyLineUses(LinesOfCode(code))
  }

  /** Handing over the lines or their (non-empty) join gives the same answer. */
  lemma TextAgreesWithLines(lines: seq<string>)
    requires |lines| >= 1 && NoNewlines(lines)
    requires Join(lines, "\n") != ""
    ensures IsBlockUsingTestingLibrary(CodeText(Join(lines, "\n"))) == IsBlockUsingTestingLibrary(CodeLines(lines))
  {
    LinesOfJoin(lines);
  }

  lemma LinesOfJoin(lines: seq<string>)
    requires |lines| >= 1 && NoNewlines(lines)
    ensures Lines(Join(lines, "\n")) == lines
  {
    SplitJoin(lines, '\n');
  }

  // ------------------------------------------------------------------
  // getAutoMocks

  /** A specifier matches a used name, or the object part of a dotted used name. */
  predicate UsedSpecifier(spec: string, used: seq<string>)
  {
    spec in used || exists n :: n in used && '.' in n && Split(n, '.')[0] == spec
  }

  /** The import is mocked: a non-empty source that is not excluded, used when a name list is given. */
  predicate Mockable(imp: AnalyzeContexts.ImportRecord, used: Option<seq<string>>)
  {
    imp.source != "" && imp.source !in ExcludeAutomocks
    && (used.None? || exists s :: s in imp.specifiers && UsedSpecifier(s, used.value))
  }

  function MockCandidates(imports: seq<AnalyzeContexts.ImportRecord>, used: Option<seq<string>>): seq<string>
  {
    Map(Filter(imports, imp => Mockable(imp, used)), (imp: AnalyzeContexts.ImportRecord) => imp.source)
  }

  /** The mocked sources, each once, in first-seen order. */
  function MockSources(imports: seq<AnalyzeContexts.ImportRecord>, used: Option<seq<string>>): seq<string>
  {
    Distinct(MockCandidates(imports, used))
  }

  function QuoteSingle(s: string): string { "'" + s + "'" }

  const MockPrefix := "// Uses mock(s): "
  const MockSuffix := " (customize if needed)"

  /** getAutoMocks: a one-line comment listing the mocked sources, or "" when there are none. */
  function GetAutoMocks(imports: seq<AnalyzeContexts.ImportRecord>, used: Option<seq<string>>): (r: string)
    ensures r == "" <==> |MockSources(imports, used)| == 0
    ensures r != "" ==> StartsWith(r, MockPrefix) && EndsWith(r, MockSuffix)
  {
    var sources := MockSources(imports, used);
    var line := if |sources| > 0 then MockPrefix + Join(Map(sources, QuoteSingle), ", ") + MockSuffix else "";
    TrimEndKeepsClosedLine(line);
    TrimEnd(line)
  }

  /** trimEnd() leaves a line that ends in a non-space character alone. */
  lemma TrimEndKeepsClosedLine(line: string)
    requires line == "" || !IsJsSpace(line[|line| - 1])
    ensures TrimEnd(line) == line
  {
  }

  /** A source is mocked exactly when some import of it is mockable; each once, in first-seen order. */
  lemma MockSourcesSpec(imports: seq<AnalyzeContexts.ImportRecord>, used: Option<seq<string>>)
    ensures forall s :: s in MockSources(imports, used) <==>
                          exists imp :: imp in imports && Mockable(imp, used) && imp.source == s
    ensures NoDup(MockSources(imports, used))
    ensures FirstSeenOrder(MockSources(imports, used), MockCandidates(imports, used))
  {
    var kept := Filter(imports, imp => Mockable(imp, used));
    var cands := MockCandidates(imports, used);
    DistinctMembers(cands);
    DistinctNoDup(cands);
    DistinctFirstSeen(cands);
    forall s ensures s in cands <==> exists imp :: imp in imports && Mockable(imp, used) && imp.source == s {
      if s in cands {
        var k :| 0 <= k < |cands| && cands[k] == s;
        assert kept[k] in kept;
      }
      if imp :| imp in imports && Mockable(imp, used) && imp.source == s {
        assert imp in kept;
        var k :| 0 <= k < |kept| && kept[k] == imp;
        assert cands[k] == s;
      }
    }
  }

  /** An excluded module is never suggested as a mock. */
  lemma ExcludedNeverMocked(imports: seq<AnalyzeContexts.ImportRecord>, used: Option<seq<string>>, s: string)
    requires s in ExcludeAutomocks
    ensures s !in MockSources(imports, used)
  {
    MockSourcesSpec(imports, used);
  }

  /** Each mocked source is named, in single quotes, on the comment line. */
  lemma AutoMocksNameSources(imports: seq<AnalyzeContexts.ImportRecord>, used: Option<seq<string>>, k: nat)
    requires k < |MockSources(imports, used)|
    ensures Contains(GetAutoMocks(imports, used), QuoteSingle(MockSources(imports, used)[k]))
  {
    var sources := MockSources(imports, used);
    var quoted := Map(sources, QuoteSingle);
    JoinContains(quoted, ", ", k);
    ContainsSuffix(MockPrefix, Join(quoted, ", "), quoted[k]);
    ContainsPrefix(MockPrefix + Join(quoted, ", "), MockSuffix, quoted[k]);
  }

  /** Every part of a join occurs in it. */
  lemma {:induction false} JoinContains(parts: seq<string>, sep: string, k: nat)
    requires k < |parts|
    ensures Contains(Join(parts, sep), parts[k])
    decreases |parts|
  {
    if |parts| == 1 {
      ContainsAt(parts[0], parts[0], 0);
    } else if k == 0 {
      ContainsAt(parts[0], parts[0], 0);
      ContainsPrefix(parts[0], sep + Join(parts[1..], sep), parts[0]);
      assert parts[0] + (sep + Join(parts[1..], sep)) == Join(parts, sep);
    } else {
      JoinContains(parts[1..], sep, k - 1);
      ContainsSuffix(parts[0] + sep, Join(parts[1..], sep), parts[k]);
    }
  }

  // ------------------------------------------------------------------
  // Line-level reading of joined text

  /** The lines of `parts.join(",\n")`: every part but the last keeps the comma. */
  function WithCommas(parts: seq<string>): (r: seq<string>)
    requires |parts| >= 1
    ensures |r| == |parts|
  {
    if |parts| == 1 then parts else [parts[0] + ","] + WithCommas(parts[1..])
  }

  predicate NoNewlines(parts: seq<string>)
  {
    forall k :: 0 <= k < |parts| ==> '\n' !in parts[k]
  }

  lemma {:induction false} LinesOfCommaJoin(parts: seq<string>)
    requires |parts| >= 1 && NoNewlines(parts)
    ensures Lines(Join(parts, ",\n")) == WithCommas(parts)
    decreases |parts|
  {
    if |parts| == 1 {
      SplitNoSep(parts[0], '\n');
    } else {
      var head := parts[0] + ",";
      var rest := Join(parts[1..], ",\n");
      assert Join(parts, ",\n") == head + ['\n'] + rest;
      SplitConcat(head, rest, '\n');
      assert '\n' !in head;
      SplitNoSep(head, '\n');
      assert NoNewlines(parts[1..]) by {
        forall k | 0 <= k < |parts[1..]| ensures '\n' !in parts[1..][k] {
          assert parts[1..][k] == parts[k + 1];
        }
      }
      LinesOfCommaJoin(parts[1..]);
    }
  }

  lemma SeqAssoc<T>(a: seq<T>, b: seq<T>, c: seq<T>)
    ensures a + (b + c) == a + b + c
  {
  }

  /** Splitting a newline-joined text line by line. */
  lemma LinesOfCons(x: string, y: string)
    requires '\n' !in x
    ensures Lines(x + "\n" + y) == [x] + Lines(y)
  {
    SplitConcat(x, y, '\n');
    SplitNoSep(x, '\n');
  }

  /** A header line, a comma-joined block of lines, and whatever follows. */
  lemma LinesOfBlock(open: string, parts: seq<string>, rest: string)
    requires '\n' !in open && |parts| >= 1 && NoNewlines(parts)
    ensures Lines(open + "\n" + (Join(parts, ",\n") + "\n" + rest)) == [open] + (WithCommas(parts) + Lines(rest))
  {
    var body := Join(parts, ",\n");
    LinesOfCons(open, body + "\n" + rest);
    LinesOfCommaJoinThen(parts, rest);
  }

  lemma LinesOfCommaJoinThen(parts: seq<string>, rest: string)
    requires |parts| >= 1 && NoNewlines(parts)
    ensures Lines(Join(parts, ",\n") + "\n" + rest) == WithCommas(parts) + Lines(rest)
  {
    SplitConcat(Join(parts, ",\n"), rest, '\n');
    LinesOfCommaJoin(parts);
  }

  // ------------------------------------------------------------------
  // JSON.stringify(value, null, 2) of a context's value shape

  function JsonEntryValue(v: Option<Lit>): string
  {
    if v.None? then "null" else JsonLit(v.value)
  }

  function EntryLine(entry: (string, Option<Lit>)): string
  {
    "  " + JsonString(entry.0) + ": " + JsonEntryValue(entry.1)
  }

  /** An object with two-space indentation: one line per entry between the braces, "{}" when empty. */
  function PrettyObject(entries: seq<(string, Option<Lit>)>): string
  {
    if |entries| == 0 then "{}"
    else "{" + "\n" + (Join(Map(entries, EntryLine), ",\n") + "\n" + "}")
  }

  lemma {:induction false} JsonEscapeAllNoNewline(s: string)
    ensures '\n' !in JsonEscapeAll(s)
    decreases |s|
  {
    if |s| > 0 {
      JsonEscapeAllNoNewline(s[1..]);
      assert '\n' !in JsonEscape(s[0]);
    }
  }

  lemma JsonLitNoNewline(l: Lit)
    ensures '\n' !in JsonLit(l)
  {
    match l
    case LStr(s) => JsonEscapeAllNoNewline(s);
    case LNum(n) =>
      if n < 0 { assert IntToString(n) == "-" + NatToString(-n); }
    case LBool(b) =>
  }

  lemma EntryLineNoNewline(entry: (string, Option<Lit>))
    ensures '\n' !in EntryLine(entry)
  {
    JsonEscapeAllNoNewline(entry.0);
    if entry.1.Some? { JsonLitNoNewline(entry.1.value); }
  }

  /** The printed object reads back as an opening brace, one line per entry, and a closing brace. */
  lemma PrettyObjectLines(entries: seq<(string, Option<Lit>)>)
    requires |entries| > 0
    ensures Lines(PrettyObject(entries)) == ["{"] + WithCommas(Map(entries, EntryLine)) + ["}"]
  {
    var lines := Map(entries, EntryLine);
    forall k | 0 <= k < |lines| ensures '\n' !in lines[k] { EntryLineNoNewline(entries[k]); }
    LinesOfBlock("{", lines, "}");
    SplitNoSep("}", '\n');
    assert Lines("}") == ["}"];
    assert PrettyObject(entries) == "{" + "\n" + (Join(Map(entries, EntryLine), ",\n") + "\n" + "}");
    SeqAssoc(["{"], WithCommas(lines), ["}"]);
  }

  // ------------------------------------------------------------------
  // handlerContextsMockAndImport

  /** What a context block hands to the helper. */
  datatype ContextInfo = ContextInfo(
    contextName: Option<string>,
    contextPath: Option<string>,
    valueShape: AnalyzeContexts.Shape,
    declaredType: Option<string>)

  /** The helper's `context` and `contextMeta` (the provider wrapper is ProviderWrapper). */
  datatype ContextHelper = ContextHelper(
    contextName: string,
    contextPath: string,
    declaredType: Option<string>,
    importLine: string,
    mockVarName: string,
    mockValue: string,
    mockLine: string,
    exampleValue: Option<Lit>)

  predicate IsQuote(c: char) { c == '\'' || c == '"' }

  /** `s.replace(/^['"]|['"]$/g, '')`: one quote off each end. */
  function StripQuotes(s: string): (r: string)
  {
    var a := if |s| > 0 && IsQuote(s[0]) then s[1..] else s;
    if |a| > 0 && IsQuote(a[|a| - 1]) then a[..|a| - 1] else a
  }

  /** Quoting and stripping undo each other. */
  lemma StripQuotesOfQuoted(s: string, open: char, close: char)
    requires IsQuote(open) && IsQuote(close)
    ensures StripQuotes([open] + s + [close]) == s
  {
    var q := [open] + s + [close];
    assert q[1..] == s + [close];
    assert (s + [close])[..|s|] == s;
  }

  lemma StripQuotesOfPlain(s: string)
    requires |s| == 0 || (!IsQuote(s[0]) && !IsQuote(s[|s| - 1]))
    ensures StripQuotes(s) == s
  {
  }

  /** The mocked value: printed JSON for an object or array, a re-quoted string, a printed primitive, or "{}". */
  function MockValue(shape: AnalyzeContexts.Shape): string
  {
    match shape
    case SObject(entries) => PrettyObject(entries)
    case SArray => "[]"
    case SLit(LStr(s)) => "'" + StripQuotes(s) + "'"
    case SLit(LNum(n)) => IntToString(n)
    case SLit(LBool(b)) => if b then "true" else "false"
    case SUndefined => "{}"
  }

  /** The line that imports the context from its module. */
  function ImportLineOf(name: string, path: string): string
  {
    "import { " + name + " } from \"" + path + "\";"
  }

  function MockVarNameOf(name: string): string { "mock" + name + "Value" }

  /**
   * handlerContextsMockAndImport: nothing for a falsy name; otherwise the
   * import line (from "./<name>" when no path is given), the mock constant and
   * its value, and the example value of the record itself.
   */
  function HandlerContextsMockAndImport(info: ContextInfo): (r: Option<ContextHelper>)
    ensures r.None? <==> !Truthy(info.contextName)
    ensures r.Some? ==> r.value.contextName == info.contextName.value
                        && r.value.contextPath == (if Truthy(info.contextPath) then info.contextPath.value
                                                   else "./" + info.contextName.value)
                        && r.value.mockValue == MockValue(info.valueShape)
  {
    if !Truthy(info.contextName) then None
    else
      var name := info.contextName.value;
      var path := if Truthy(info.contextPath) then info.contextPath.value else "./" + name;
      var mockValue := MockValue(info.valueShape);
      var mockVarName := MockVarNameOf(name);
      var exampleValue := GetExampleValue(Some(Def(info.declaredType, None, None, None, None, None, None, None, None, None)), "context");
      Some(ContextHelper(name, path, info.declaredType, ImportLineOf(name, path), mockVarName, mockValue,
                         "const " + mockVarName + " = " + mockValue + ";", exampleValue))
  }

  /** The helper's example value never sees the context's name: without a type it is "null". */
  lemma ContextExampleIsNull(info: ContextInfo)
    requires Truthy(info.contextName) && !Truthy(info.declaredType)
    ensures HandlerContextsMockAndImport(info).value.exampleValue == Some(ExampleNull)
  {
    AnonymousExampleIsNull(Def(info.declaredType, None, None, None, None, None, None, None, None, None), "context");
  }

  /** The mock line declares the helper's variable with its value. */
  lemma MockLineDeclares(info: ContextInfo)
    requires Truthy(info.contextName)
    ensures var h := HandlerContextsMockAndImport(info).value;
            StartsWith(h.mockLine, "const " + h.mockVarName + " = ")
            && h.mockLine == "const " + h.mockVarName + " = " + h.mockValue + ";"
  {
    var h := HandlerContextsMockAndImport(info).value;
    var p := "const " + h.mockVarName + " = ";
    assert h.mockLine == p + (h.mockValue + ";");
    assert h.mockLine[..|p|] == p;
  }

  /** `providerWrapper(children)` */
  function ProviderWrapper(h: ContextHelper, children: string): string
  {
    "<" + h.contextName + ".Provider value={" + h.mockVarName + "}>" + children + "</" + h.contextName + ".Provider>"
  }

  /** The wrapper opens and closes the same provider element around the children. */
  lemma ProviderWrapperEncloses(h: ContextHelper, children: string)
    ensures var w := ProviderWrapper(h, children);
            var open := "<" + h.contextName + ".Provider value={" + h.mockVarName + "}>";
            var close := "</" + h.contextName + ".Provider>";
            StartsWith(w, open) && EndsWith(w, close) && w[|open|..|w| - |close|] == children
  {
    var open := "<" + h.contextName + ".Provider value={" + h.mockVarName + "}>";
    var close := "</" + h.contextName + ".Provider>";
    var w := ProviderWrapper(h, children);
    assert w == open + children + close;
  }

  // ------------------------------------------------------------------
  // next/navigation mocks

  /** The analysis fields the navigation mocks read. */
  datatype MockInput = MockInput(imports: seq<AnalyzeContexts.ImportRecord>, hooks: seq<string>, paramsKeys: seq<string>)

  datatype MockObj = MockObj(code: string, mockType: string, extended: bool)

  const Navigation := "next/navigation"

  predicate ImportsFromNavigation(imports: seq<AnalyzeContexts.ImportRecord>, name: string)
  {
    exists imp :: imp in imports && imp.source == Navigation && name in imp.specifiers
  }

  const ParamsMockHead1 := "jest.mock(\"next/navigation\", () => ({"
  const ParamsMockHead2 := "  ...jest.requireActual(\"next/navigation\"),"
  const ParamsMockHead3 := "  useParams: jest.fn(() => ({"
  const ParamsMockTail1 := "  }))"
  const ParamsMockTail2 := "}));"

  /** One entry of the mocked params object. */
  function ParamLine(k: string): string
  {
    "  \"" + k + "\": \"mocked_" + k + "\""
  }

  function ParamsMockCode(keys: seq<string>): string
  {
    // the four lines joined by newlines; the third holds the params object
    var paramsObj := Join(Map(keys, ParamLine), ",\n");
    ParamsMockHead1 + "\n" + (ParamsMockHead2 + "\n" + (ParamsMockHead3 + "\n" + (paramsObj + "\n" + (ParamsMockTail1 + "\n" + ParamsMockTail2))))
  }

  /** generateUseParamsMock: a mock exactly when useParams is imported from next/navigation, called, and read. */
  function GenerateUseParamsMock(input: MockInput): (r: Option<MockObj>)
    ensures r.Some? <==> ImportsFromNavigation(input.imports, "useParams") && "useParams" in input.hooks
                         && |input.paramsKeys| > 0
    ensures r.Some? ==> r.value.mockType == Navigation && r.value.extended
  {
    if ImportsFromNavigation(input.imports, "useParams") && "useParams" in input.hooks && |input.paramsKeys| > 0 then
      Some(MockObj(ParamsMockCode(input.paramsKeys), Navigation, true))
    else None
  }

  /** The mocked params object has one line per key, in order, each returning `mocked_<key>`. */
  lemma ParamsMockLines(keys: seq<string>)
    requires |keys| > 0 && NoNewlines(keys)
    ensures Lines(ParamsMockCode(keys)) ==
            [ParamsMockHead1, ParamsMockHead2, ParamsMockHead3] + WithCommas(Map(keys, ParamLine))
            + [ParamsMockTail1, ParamsMockTail2]
  {
    var lines := Map(keys, ParamLine);
    forall k | 0 <= k < |lines| ensures '\n' !in lines[k] {
      ParamLineNoNewline(keys[k]);
    }
    MockHeadsAreLines();
    var tail := ParamsMockTail1 + "\n" + ParamsMockTail2;
    var block := ParamsMockHead3 + "\n" + (Join(lines, ",\n") + "\n" + tail);
    LinesOfCons(ParamsMockHead1, ParamsMockHead2 + "\n" + block);
    LinesOfCons(ParamsMockHead2, block);
    LinesOfBlock(ParamsMockHead3, lines, tail);
    LinesOfCons(ParamsMockTail1, ParamsMockTail2);
    SplitNoSep(ParamsMockTail2, '\n');
    Assemble(ParamsMockHead1, ParamsMockHead2, ParamsMockHead3, WithCommas(lines), ParamsMockTail1, ParamsMockTail2);
  }

  lemma MockHeadsAreLines()
    ensures '\n' !in ParamsMockHead1 && '\n' !in ParamsMockHead2 && '\n' !in ParamsMockHead3
    ensures '\n' !in ParamsMockTail1 && '\n' !in ParamsMockTail2
  {
    Head1IsLine();
    Head2IsLine();
    Head3IsLine();
  }

  lemma Head1IsLine() ensures '\n' !in ParamsMockHead1 {}
  lemma Head2IsLine() ensures '\n' !in ParamsMockHead2 {}
  lemma Head3IsLine() ensures '\n' !in ParamsMockHead3 {}

  lemma ParamLineNoNewline(k: string)
    requires '\n' !in k
    ensures '\n' !in ParamLine(k)
  {
  }

  lemma Assemble(h1: string, h2: string, h3: string, w: seq<string>, t1: string, t2: string)
    ensures [h1] + ([h2] + ([h3] + (w + ([t1] + [t2])))) == [h1, h2, h3] + w + [t1, t2]
  {
  }

  /** The fixed useRouter mock: push, replace, prefetch, back, forward and refresh as jest functions, and a mock path. */
  const RouterMockCode: string :=
    "jest.mock(\"next/navigation\", () => ({\n  ...jest.requireActual(\"next/navigation\"),\n  useRouter: jest.fn(() => ({\n"
    + "    push: jest.fn(),\n    replace: jest.fn(),\n    prefetch: jest.fn(),\n    back: jest.fn(),\n    forward: jest.fn(),\n"
    + "    refresh: jest.fn(),\n    pathname: \"/mock-path\",\n    query: {},\n    asPath: \"/mock-path\"\n  }))\n}));"

  /** generateUseRouterMock: the fixed router mock exactly when useRouter is imported from next/navigation and called. */
  function GenerateUseRouterMock(input: MockInput): (r: Option<MockObj>)
    ensures r.Some? <==> ImportsFromNavigation(input.imports, "useRouter") && "useRouter" in input.hooks
    ensures r.Some? ==> r.value.mockType == Navigation && r.value.extended
  {
    if ImportsFromNavigation(input.imports, "useRouter") && "useRouter" in input.hooks then
      Some(MockObj(RouterMockCode, Navigation, true))
    else None
  }

  function Present(m: Option<MockObj>): seq<MockObj>
  {
    if m.Some? then [m.value] else []
  }

  /** generateUseMocks: the params mock, then the router mock, each when it applies. */
  function GenerateUseMocks(input: MockInput): (r: seq<MockObj>)
    ensures |r| <= 2
    ensures forall k :: 0 <= k < |r| ==> r[k].mockType == Navigation && r[k].extended
    ensures GenerateUseParamsMock(input).Some? ==> |r| >= 1 && r[0] == GenerateUseParamsMock(input).value
    ensures GenerateUseRouterMock(input).Some? ==> |r| >= 1 && r[|r| - 1] == GenerateUseRouterMock(input).value
    ensures GenerateUseParamsMock(input).None? && GenerateUseRouterMock(input).None? ==> r == []
  {
    Present(GenerateUseParamsMock(input)) + Present(GenerateUseRouterMock(input))
  }

  // ------------------------------------------------------------------
  // formatSourceLineComment

  /** " (Source line: N)" for a record with a numeric start line, "" otherwise. */
  function FormatSourceLineComment(line: Option<int>): (r: string)
    ensures r == "" <==> line.None?
    ensures line.Some? ==> EndsWith(r, IntToString(line.value) + ")")
  {
    if line.Some? then
      var r := " (Source line: " + (IntToString(line.value) + ")");
      assert r[|r| - |IntToString(line.value) + ")"|..] == IntToString(line.value) + ")";
      r
    else ""
  }

  // ------------------------------------------------------------------
  // blockHelper

  /**
   * The parts of a block's `meta` that the merger reads. `contextsHelpers`
   * and `mocksObjs` are None when they are not arrays, `usesTestingLibrary`
   * when it is not set. `useParamsMockObj` is read by the merger but no block
   * generator sets it.
   */
  datatype Meta = Meta(
    contextsHelpers: Option<seq<ContextHelper>>,
    mocksObjs: Option<seq<MockObj>>,
    usesTestingLibrary: Option<bool>,
    useParamsMockObj: Option<MockObj>)

  const EmptyMeta := Meta(None, None, None, None)

  /** A suggested test block; a missing `meta` is None. */
  datatype Block = Block(kind: string, title: string, description: string, code: string, meta: Option<Meta>)

  /** blockHelper: the fields it is given, with `meta` defaulting to `{}`. */
  function BlockHelper(kind: string, title: string, description: string, code: string, meta: Option<Meta>): (r: Block)
    ensures r.meta.Some?
    ensures meta.Some? ==> r.meta == meta
    ensures meta.None? ==> r.meta == Some(EmptyMeta)
    ensures r.kind == kind && r.title == title && r.description == description && r.code == code
  {
    Block(kind, title, description, code, if meta.Some? then meta else Some(EmptyMeta))
  }
}
