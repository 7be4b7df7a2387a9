// The rule engine that turns analysis results into suggested test blocks: the
// ordered registry with its de-duplication, the performance suggestions, and
// the selection and filtering done by the context, API-call, props and
// event-handler block generators. The prose of the block templates is not
// modelled: a rule's block is a parameter.

module SuggestBlocks {
  import opened JsText
  import opened AstNodes
  import AstHelpers
  import AnalyzeContexts
  import AnalyzeFacts
  import opened SuggestHelpers

  // ------------------------------------------------------------------
  // The registry

  datatype RuleKind =
    | Render | Conditional | Props | EventHandlers | State | ApiCalls | Effects | ErrorHandling
    | Branches | CustomHooks | Memoization | InternalFunctions | PropTypes | Context | Hoc | Performance

  /** The number of entries of `blockAlgorithms`. */
  const RuleCount := 16

  /** `blockAlgorithms[i]`: the registry, in order. */
  function RuleAt(i: nat): (k: RuleKind)
    requires i < RuleCount
    ensures RegistryIndex(k) == i
  {
    match i
    case 0 => Render
    case 1 => Conditional
    case 2 => Props
    case 3 => EventHandlers
    case 4 => State
    case 5 => ApiCalls
    case 6 => Effects
    case 7 => ErrorHandling
    case 8 => Branches
    case 9 => CustomHooks
    case 10 => Memoization
    case 11 => InternalFunctions
    case 12 => PropTypes
    case 13 => Context
    case 14 => Hoc
    case _ => Performance
  }

  /** The position of each rule in the registry. */
  function RegistryIndex(k: RuleKind): (i: nat)
    ensures i < RuleCount
  {
    match k
    case Render => 0
    case Conditional => 1
    case Props => 2
    case EventHandlers => 3
    case State => 4
    case ApiCalls => 5
    case Effects => 6
    case ErrorHandling => 7
    case Branches => 8
    case CustomHooks => 9
    case Memoization => 10
    case InternalFunctions => 11
    case PropTypes => 12
    case Context => 13
    case Hoc => 14
    case Performance => 15
  }

  /** Every rule sits at its own position: the registry lists each rule exactly once. */
  lemma RegistryIndexInverse(k: RuleKind)
    ensures RuleAt(RegistryIndex(k)) == k
  {
  }

  /** The `type` each registry entry declares. */
  function TypeName(k: RuleKind): string
  {
    match k
    case Render => "render"
    case Conditional => "conditional"
    case Props => "props"
    case EventHandlers => "eventHandlers"
    case State => "state"
    case ApiCalls => "apiCalls"
    case Effects => "effects"
    case ErrorHandling => "errorHandling"
    case Branches => "branches"
    case CustomHooks => "customHooks"
    case Memoization => "memoization"
    case InternalFunctions => "internalFunctions"
    case PropTypes => "propTypes"
    case Context => "context"
    case Hoc => "hoc"
    case Performance => "performance"
  }

  /** The lengths of the lists the guard of `performance` reads from `results.performance`. */
  datatype PerfCounts = PerfCounts(missingDeps: nat, unusedDeps: nat, mutableDeps: nat,
                                   inlineFunctionsInJSX: nat, expensiveCalculationsInJSX: nat)

  /**
   * What the guards read from the analysis results: the length of each list,
   * `exportDefault.isHOC` when `exportDefault` is present, and `performance`
   * when present.
   */
  datatype Results = Results(
    returnedJSX: nat, jsxElements: nat, conditionalRendering: nat, props: nat, eventHandlers: nat,
    stateVars: nat, apiCalls: nat, effectDeps: nat, errorHandling: nat, branches: nat,
    customHooks: nat, memoization: nat, internalFunctions: nat, propTypes: nat, contexts: nat,
    exportDefault: Option<bool>,
    performance: Option<PerfCounts>)

  /** A rule's `condition`: a non-empty list, the HOC flag, or some non-empty performance list. */
  predicate Condition(k: RuleKind, r: Results)
  {
    match k
    case Render => r.returnedJSX > 0 || r.jsxElements > 0
    case Conditional => r.conditionalRendering > 0
    case Props => r.props > 0
    case EventHandlers => r.eventHandlers > 0
    case State => r.stateVars > 0
    case ApiCalls => r.apiCalls > 0
    case Effects => r.effectDeps > 0
    case ErrorHandling => r.errorHandling > 0
    case Branches => r.branches > 0
    case CustomHooks => r.customHooks > 0
    case Memoization => r.memoization > 0
    case InternalFunctions => r.internalFunctions > 0
    case PropTypes => r.propTypes > 0
    case Context => r.contexts > 0
    case Hoc => r.exportDefault == Some(true)
    case Performance =>
      r.performance.Some? &&
      var p := r.performance.value;
      p.missingDeps > 0 || p.unusedDeps > 0 || p.mutableDeps > 0
      || p.inlineFunctionsInJSX > 0 || p.expensiveCalculationsInJSX > 0
  }

  /** The rules among the first n registry entries whose condition holds, in registry order. */
  function FiredAmong(r: Results, n: nat): seq<RuleKind>
    requires n <= RuleCount
  {
    if n == 0 then []
    else FiredAmong(r, n - 1) + (if Condition(RuleAt(n - 1), r) then [RuleAt(n - 1)] else [])
  }

  /** The rules whose condition holds, in registry order. */
  function Fired(r: Results): seq<RuleKind>
  {
    FiredAmong(r, RuleCount)
  }

  /**
   * What a rule's `fn` returns: one block, or (for `performance`) the whole
   * array of suggestions, which is pushed as a single entry.
   */
  datatype Suggestion = Single(block: Block) | Batch(blocks: seq<Block>)

  const Bar := "|"
  const Undefined := "undefined"

  /** `${block.type}|${block.code}`; an array has neither field. */
  function SuggestionKey(s: Suggestion): string
  {
    match s
    case Single(b) => b.kind + Bar + b.code
    case Batch(_) => Undefined + Bar + Undefined
  }

  /**
   * suggestTestBlocks: run the fn of every rule whose condition holds, in
   * registry order, then keep the first entry for each `type|code` key.
   * `build(k)` stands for what rule k's fn makes of the results.
   */
  method SuggestTestBlocks(results: Results, build: RuleKind -> Suggestion) returns (suggestions: seq<Suggestion>)
    ensures suggestions == DedupBy(Map(Fired(results), build), SuggestionKey)
    ensures NoDup(Map(suggestions, SuggestionKey))
  {
    var pushed := RunRegistry(results, build);
    suggestions := KeepFirstByKey(pushed, SuggestionKey);
    DedupByNoDup(pushed, SuggestionKey);
  }

  /** The registry's forEach: push what each rule whose condition holds builds. */
  method RunRegistry(results: Results, build: RuleKind -> Suggestion) returns (pushed: seq<Suggestion>)
    ensures pushed == Map(Fired(results), build)
  {
    pushed := [];
    for i := 0 to RuleCount
      invariant pushed == Map(FiredAmong(results, i), build)
    {
      var k := RuleAt(i);
      FiredStep(results, i, build);
      if Condition(k, results) {
        pushed := pushed + [build(k)];
      }
    }
  }

  lemma FiredStep(results: Results, i: nat, build: RuleKind -> Suggestion)
    requires i < RuleCount
    ensures var k := RuleAt(i);
            Map(FiredAmong(results, i + 1), build)
            == Map(FiredAmong(results, i), build) + (if Condition(k, results) then [build(k)] else [])
  {
    var k := RuleAt(i);
    MapAppend(FiredAmong(results, i), if Condition(k, results) then [k] else [], build);
  }

  /** The `seen` set filter: keep an entry only when its key has not been seen before. */
  method KeepFirstByKey<T>(xs: seq<T>, key: T -> string) returns (kept: seq<T>)
    ensures kept == DedupBy(xs, key)
  {
    var seen: set<string> := {};
    kept := [];
    for j := 0 to |xs|
      invariant kept == DedupBy(xs[..j], key)
      invariant forall k :: k in seen <==> k in Map(xs[..j], key)
    {
      var k := key(xs[j]);
      assert xs[..j + 1] == xs[..j] + [xs[j]];
      MapAppend(xs[..j], [xs[j]], key);
      assert xs[..j + 1][..j] == xs[..j];
      if k !in seen {
        seen := seen + {k};
        kept := kept + [xs[j]];
      }
    }
    assert xs[..|xs|] == xs;
  }

  /** The rules fired among the first n entries: exactly those before n whose condition holds, in increasing position. */
  lemma {:induction false} FiredAmongSpec(r: Results, n: nat)
    requires n <= RuleCount
    ensures forall k :: k in FiredAmong(r, n) <==> RegistryIndex(k) < n && Condition(k, r)
    ensures forall i, j :: 0 <= i < j < |FiredAmong(r, n)| ==>
              RegistryIndex(FiredAmong(r, n)[i]) < RegistryIndex(FiredAmong(r, n)[j])
  {
    if n > 0 {
      FiredAmongSpec(r, n - 1);
      var prev := FiredAmong(r, n - 1);
      var k := RuleAt(n - 1);
      forall k' ensures k' in FiredAmong(r, n) <==> RegistryIndex(k') < n && Condition(k', r) {
        RegistryIndexInverse(k');
      }
      forall i | 0 <= i < |prev| ensures RegistryIndex(prev[i]) < n - 1 {
        assert prev[i] in prev;
      }
    }
  }

  /** A rule's fn runs exactly when its condition holds. */
  lemma FiredExactly(r: Results)
    ensures forall k :: k in Fired(r) <==> Condition(k, r)
  {
    FiredAmongSpec(r, RuleCount);
  }

  /** The fired rules keep registry order, so none appears twice. */
  lemma FiredInRegistryOrder(r: Results)
    ensures forall i, j :: 0 <= i < j < |Fired(r)| ==> RegistryIndex(Fired(r)[i]) < RegistryIndex(Fired(r)[j])
    ensures NoDup(Fired(r))
  {
    FiredAmongSpec(r, RuleCount);
  }

  /**
   * The registry entries that `analyzeASTHelper` can feed: its result object
   * has no `exportDefault` key and no `performance` key.
   */
  predicate FromAnalyzer(r: Results)
  {
    r.exportDefault.None? && r.performance.None?
  }

  /** On analyzer output the hoc and performance rules never fire. */
  lemma AnalyzerSkipsHocAndPerformance(r: Results)
    requires FromAnalyzer(r)
    ensures Hoc !in Fired(r) && Performance !in Fired(r)
  {
    FiredExactly(r);
  }

  /** The block types are the registry's type names, which never contain '|'. */
  lemma TypeNameHasNoBar(k: RuleKind)
    ensures '|' !in TypeName(k) && TypeName(k) != Undefined && '|' !in Undefined
  {
  }

  /** Different rules declare different types. */
  lemma TypeNameInjective(k1: RuleKind, k2: RuleKind)
    requires TypeName(k1) == TypeName(k2)
    ensures k1 == k2
  {
    assert RuleOfType(TypeName(k1)) == Some(k1);
    assert RuleOfType(TypeName(k2)) == Some(k2);
  }

  function RuleOfType(name: string): (r: Option<RuleKind>)
    ensures r.Some? ==> TypeName(r.value) == name
  {
    if name == "render" then Some(Render)
    else if name == "conditional" then Some(Conditional)
    else if name == "props" then Some(Props)
    else if name == "eventHandlers" then Some(EventHandlers)
    else if name == "state" then Some(State)
    else if name == "apiCalls" then Some(ApiCalls)
    else if name == "effects" then Some(Effects)
    else if name == "errorHandling" then Some(ErrorHandling)
    else if name == "branches" then Some(Branches)
    else if name == "customHooks" then Some(CustomHooks)
    else if name == "memoization" then Some(Memoization)
    else if name == "internalFunctions" then Some(InternalFunctions)
    else if name == "propTypes" then Some(PropTypes)
    else if name == "context" then Some(Context)
    else if name == "hoc" then Some(Hoc)
    else if name == "performance" then Some(Performance)
    else None
  }

  /** `a|x` and `b|y` with no bar in a or b agree on the part before the bar. */
  lemma KeyPrefixUnique(a: string, b: string, x: string, y: string)
    requires '|' !in a && '|' !in b && a + Bar + x == b + Bar + y
    ensures a == b
  {
    var s := a + Bar + x;
    assert s[|a|] == '|' && s[..|a|] == a;
    IndexOfUnique(s, '|', |a|);
    var t := b + Bar + y;
    assert t[|b|] == '|' && t[..|b|] == b;
    IndexOfUnique(t, '|', |b|);
    assert a == s[..|a|] == t[..|b|] == b;
  }

  /** Rules that build blocks of their own types have different keys. */
  lemma KeysDiffer(k1: RuleKind, k2: RuleKind, build: RuleKind -> Suggestion)
    requires forall k :: k != Performance ==> build(k).Single? && build(k).block.kind == TypeName(k)
    requires build(Performance).Batch?
    requires k1 != k2
    ensures SuggestionKey(build(k1)) != SuggestionKey(build(k2))
  {
    TypeNameHasNoBar(k1);
    TypeNameHasNoBar(k2);
    if SuggestionKey(build(k1)) == SuggestionKey(build(k2)) {
      if k1 == Performance {
        KeyPrefixUnique(Undefined, TypeName(k2), Undefined, build(k2).block.code);
      } else if k2 == Performance {
        KeyPrefixUnique(TypeName(k1), Undefined, build(k1).block.code, Undefined);
      } else {
        KeyPrefixUnique(TypeName(k1), TypeName(k2), build(k1).block.code, build(k2).block.code);
        TypeNameInjective(k1, k2);
      }
    }
  }

  /**
   * When every fn builds a block of its own rule's type (and performance
   * returns its array), the de-duplication drops nothing: each fired rule
   * contributes exactly its entry.
   */
  lemma OwnTypesKeepEverything(r: Results, build: RuleKind -> Suggestion)
    requires forall k :: k != Performance ==> build(k).Single? && build(k).block.kind == TypeName(k)
    requires build(Performance).Batch?
    ensures DedupBy(Map(Fired(r), build), SuggestionKey) == Map(Fired(r), build)
  {
    var f := Fired(r);
    var m := Map(Map(f, build), SuggestionKey);
    FiredInRegistryOrder(r);
    forall i, j | 0 <= i < j < |m| ensures m[i] != m[j] {
      KeysDiffer(f[i], f[j], build);
    }
    DedupByOfDistinctKeys(Map(f, build), SuggestionKey);
  }

  // ------------------------------------------------------------------
  // generatePerformanceSuggestions

  /** An entry of `inlineFunctionsInJSX`: the attribute name, the function's node type and its line. */
  datatype InlineFunction = InlineFunction(name: Option<string>, fnType: string, line: Option<int>)

  /** An entry of `expensiveCalculationsInJSX`. */
  datatype ExpensiveCalculation = ExpensiveCalculation(line: Option<int>, code: string)

  /** `${x}` of an optional line number. */
  function LineText(line: Option<int>): string
  {
    if line.Some? then IntToString(line.value) else "undefined"
  }

  /** `${x}` of an optional name. */
  function NameText(name: Option<string>): string
  {
    KeyOf(name)
  }

  const PerformanceType := "performance"
  const PerfCode := "// \U{26A0}\U{FE0F} Performance: "
  const MissingTitle := "Missing hook dependencies"
  const UnusedTitle := "Unused hook dependencies"
  const MutableTitle := "Mutable hook dependencies"
  const InlineTitle := "Inline function in JSX"
  const ExpensiveTitle := "Expensive calculation in JSX"

  function PerfBlock(title: string, description: string, code: string): Block
  {
    Block(PerformanceType, title, description, code, Some(EmptyMeta))
  }

  const MissingDescription := "Variables used in useEffect/useMemo/useCallback but not declared as dependencies: "
  const MissingCode := "Missing hook dependencies: "
  const UnusedDescription := "Variables declared as dependencies but not used: "
  const UnusedCode := "Unused hook dependencies: "
  const MutableDescription := "Mutable dependencies detected (may cause unnecessary renders): "
  const MutableCode := "Mutable hook dependencies: "
  const InlineWord := "Inline "
  const InlineDescriptionProp := " passed as prop/event handler '"
  const InlineCodeProp := " in prop '"
  const AtLine := "' at line "
  const ExpensiveDescription := "Expensive calculation detected in JSX at line "
  const ExpensiveCode := "Expensive calculation in JSX at line "
  const ColonSpace := ": "
  const CommaSpace := ", "

  function MissingSuggestion(deps: seq<string>): Block
  {
    var names := Join(deps, CommaSpace);
    PerfBlock(MissingTitle, MissingDescription + names, PerfCode + MissingCode + names)
  }

  function UnusedSuggestion(deps: seq<string>): Block
  {
    var names := Join(deps, CommaSpace);
    PerfBlock(UnusedTitle, UnusedDescription + names, PerfCode + UnusedCode + names)
  }

  function MutableSuggestion(deps: seq<string>): Block
  {
    var names := Join(deps, CommaSpace);
    PerfBlock(MutableTitle, MutableDescription + names, PerfCode + MutableCode + names)
  }

  function InlineSuggestion(fn: InlineFunction): Block
  {
    PerfBlock(InlineTitle,
              InlineWord + fn.fnType + InlineDescriptionProp + NameText(fn.name) + AtLine + LineText(fn.line),
              PerfCode + InlineWord + fn.fnType + InlineCodeProp + NameText(fn.name) + AtLine + LineText(fn.line))
  }

  function ExpensiveSuggestion(ec: ExpensiveCalculation): Block
  {
    PerfBlock(ExpensiveTitle,
              ExpensiveDescription + LineText(ec.line) + ColonSpace + ec.code,
              PerfCode + ExpensiveCode + LineText(ec.line) + ColonSpace + ec.code)
  }

  /** The hook-dependency entries: one per non-empty list. */
  function DepsSuggestions(d: AnalyzeFacts.DepsReport): seq<Block>
  {
    (if |d.missingDeps| > 0 then [MissingSuggestion(d.missingDeps)] else [])
    + (if |d.unusedDeps| > 0 then [UnusedSuggestion(d.unusedDeps)] else [])
    + (if |d.mutableDeps| > 0 then [MutableSuggestion(d.mutableDeps)] else [])
  }

  function PerformanceSuggestions(d: AnalyzeFacts.DepsReport, inline: seq<InlineFunction>,
                                  expensive: seq<ExpensiveCalculation>): seq<Block>
  {
    DepsSuggestions(d) + Map(inline, InlineSuggestion) + Map(expensive, ExpensiveSuggestion)
  }

  /** generatePerformanceSuggestions: the pushes, in source order. */
  method GeneratePerformanceSuggestions(d: AnalyzeFacts.DepsReport, inline: seq<InlineFunction>,
                                        expensive: seq<ExpensiveCalculation>) returns (s: seq<Block>)
    ensures s == PerformanceSuggestions(d, inline, expensive)
  {
    var missing: seq<Block> := [];
    if |d.missingDeps| > 0 {
      missing := [MissingSuggestion(d.missingDeps)];
    }
    var unused: seq<Block> := [];
    if |d.unusedDeps| > 0 {
      unused := [UnusedSuggestion(d.unusedDeps)];
    }
    var mutable: seq<Block> := [];
    if |d.mutableDeps| > 0 {
      mutable := [MutableSuggestion(d.mutableDeps)];
    }
    s := missing + unused + mutable;
    s := PushEach(s, inline, InlineSuggestion);
    s := PushEach(s, expensive, ExpensiveSuggestion);
  }

  /** `xs.forEach(x => s.push(f(x)))`. */
  method PushEach<T, U>(s0: seq<U>, xs: seq<T>, f: T -> U) returns (s: seq<U>)
    ensures s == s0 + Map(xs, f)
  {
    s := s0;
    for k := 0 to |xs|
      invariant s == s0 + Map(xs[..k], f)
    {
      assert Map(xs[..k + 1], f) == Map(xs[..k], f) + [f(xs[k])];
      s := s + [f(xs[k])];
    }
    assert xs[..|xs|] == xs;
  }

  /** The place of a suggestion's title in the order the source emits them. */
  function Rank(b: Block): nat
  {
    if b.title == MissingTitle then 0
    else if b.title == UnusedTitle then 1
    else if b.title == MutableTitle then 2
    else if b.title == InlineTitle then 3
    else 4
  }

  lemma TitlesDiffer()
    ensures MissingTitle != UnusedTitle && MissingTitle != MutableTitle && MissingTitle != InlineTitle
    ensures UnusedTitle != MutableTitle && UnusedTitle != InlineTitle && MutableTitle != InlineTitle
    ensures ExpensiveTitle != MissingTitle && ExpensiveTitle != UnusedTitle
    ensures ExpensiveTitle != MutableTitle && ExpensiveTitle != InlineTitle
  {
    assert MissingTitle[0] == 'M' && MissingTitle[1] == 'i';
    assert MutableTitle[0] == 'M' && MutableTitle[1] == 'u';
    assert UnusedTitle[0] == 'U' && InlineTitle[0] == 'I' && ExpensiveTitle[0] == 'E';
  }

  /** Each kind of suggestion has its own rank. */
  lemma RanksOfSuggestions(deps: seq<string>, fn: InlineFunction, ec: ExpensiveCalculation)
    ensures Rank(MissingSuggestion(deps)) == 0 && Rank(UnusedSuggestion(deps)) == 1
    ensures Rank(MutableSuggestion(deps)) == 2
    ensures Rank(InlineSuggestion(fn)) == 3 && Rank(ExpensiveSuggestion(ec)) == 4
  {
    TitlesDiffer();
  }

  function CountNonEmpty(d: AnalyzeFacts.DepsReport): nat
  {
    (if |d.missingDeps| > 0 then 1 else 0) + (if |d.unusedDeps| > 0 then 1 else 0)
    + (if |d.mutableDeps| > 0 then 1 else 0)
  }

  /** The ranks of the dependency entries: 0, 1 and 2, each present when its list is non-empty. */
  function DepsRanks(d: AnalyzeFacts.DepsReport): seq<nat>
  {
    (if |d.missingDeps| > 0 then [0] else []) + (if |d.unusedDeps| > 0 then [1] else [])
    + (if |d.mutableDeps| > 0 then [2] else [])
  }

  lemma DepsSuggestionsRanks(d: AnalyzeFacts.DepsReport)
    ensures Map(DepsSuggestions(d), Rank) == DepsRanks(d)
  {
    RanksOfSuggestions(d.missingDeps, InlineFunction(None, "", None), ExpensiveCalculation(None, ""));
    RanksOfSuggestions(d.unusedDeps, InlineFunction(None, "", None), ExpensiveCalculation(None, ""));
    RanksOfSuggestions(d.mutableDeps, InlineFunction(None, "", None), ExpensiveCalculation(None, ""));
  }

  /** The dependency ranks: at most 0, 1, 2 in increasing order, each present when its list is non-empty. */
  lemma DepsRanksOrder(d: AnalyzeFacts.DepsReport)
    ensures |DepsRanks(d)| == CountNonEmpty(d)
    ensures forall i :: 0 <= i < |DepsRanks(d)| ==> DepsRanks(d)[i] < 3
    ensures forall i, j :: 0 <= i < j < |DepsRanks(d)| ==> DepsRanks(d)[i] < DepsRanks(d)[j]
    ensures 0 in DepsRanks(d) <==> |d.missingDeps| > 0
    ensures 1 in DepsRanks(d) <==> |d.unusedDeps| > 0
    ensures 2 in DepsRanks(d) <==> |d.mutableDeps| > 0
  {
  }

  /**
   * The dependency entries: one per non-empty list, in the order missing,
   * unused, mutable, and each present exactly when its list is non-empty.
   */
  lemma DepsSuggestionsOrder(d: AnalyzeFacts.DepsReport)
    ensures |DepsSuggestions(d)| == CountNonEmpty(d)
    ensures forall i :: 0 <= i < |DepsSuggestions(d)| ==> Rank(DepsSuggestions(d)[i]) < 3
    ensures forall i, j :: 0 <= i < j < |DepsSuggestions(d)| ==>
              Rank(DepsSuggestions(d)[i]) < Rank(DepsSuggestions(d)[j])
    ensures 0 in Map(DepsSuggestions(d), Rank) <==> |d.missingDeps| > 0
    ensures 1 in Map(DepsSuggestions(d), Rank) <==> |d.unusedDeps| > 0
    ensures 2 in Map(DepsSuggestions(d), Rank) <==> |d.mutableDeps| > 0
  {
    DepsSuggestionsRanks(d);
    DepsRanksOrder(d);
    RanksPointwise(DepsSuggestions(d), DepsRanks(d));
  }

  lemma RanksPointwise(ds: seq<Block>, ranks: seq<nat>)
    requires Map(ds, Rank) == ranks
    ensures |ds| == |ranks| && forall i :: 0 <= i < |ds| ==> Rank(ds[i]) == ranks[i]
  {
  }

  /**
   * Ranks in bands: the first n are below 3, the next m are 3, and they
   * never decrease.
   */
  ghost predicate Banded(r: seq<nat>, n: nat, m: nat)
  {
    && (forall i :: 0 <= i < |r| ==> (r[i] < 3 <==> i < n))
    && (forall i :: 0 <= i < |r| ==> (r[i] == 3 <==> n <= i < n + m))
    && (forall i, j :: 0 <= i < j < |r| ==> r[i] <= r[j])
  }

  /** Increasing ranks below 3, then a run of 3s, then a run of 4s, are banded. */
  lemma BandsOfRanks(r0: seq<nat>, a: nat, b: nat)
    requires forall i :: 0 <= i < |r0| ==> r0[i] < 3
    requires forall i, j :: 0 <= i < j < |r0| ==> r0[i] < r0[j]
    ensures Banded(r0 + seq(a, _ => 3) + seq(b, _ => 4), |r0|, a)
  {
  }

  lemma InlineRanks(inline: seq<InlineFunction>)
    ensures Map(Map(inline, InlineSuggestion), Rank) == seq(|inline|, _ => 3)
  {
    forall k | 0 <= k < |inline| ensures Rank(InlineSuggestion(inline[k])) == 3 {
      RanksOfSuggestions([], inline[k], ExpensiveCalculation(None, ""));
    }
  }

  lemma ExpensiveRanks(expensive: seq<ExpensiveCalculation>)
    ensures Map(Map(expensive, ExpensiveSuggestion), Rank) == seq(|expensive|, _ => 4)
  {
    forall k | 0 <= k < |expensive| ensures Rank(ExpensiveSuggestion(expensive[k])) == 4 {
      RanksOfSuggestions([], InlineFunction(None, "", None), expensive[k]);
    }
  }

  /**
   * generatePerformanceSuggestions emits the dependency entries first, then one
   * entry per inline function, then one per expensive calculation.
   */
  lemma PerformanceOrder(d: AnalyzeFacts.DepsReport, inline: seq<InlineFunction>, expensive: seq<ExpensiveCalculation>)
    ensures var s := PerformanceSuggestions(d, inline, expensive);
            |s| == CountNonEmpty(d) + |inline| + |expensive| && Banded(Map(s, Rank), CountNonEmpty(d), |inline|)
  {
    var ds := DepsSuggestions(d);
    var ins := Map(inline, InlineSuggestion);
    var es := Map(expensive, ExpensiveSuggestion);
    MapAppend(ds + ins, es, Rank);
    MapAppend(ds, ins, Rank);
    DepsSuggestionsRanks(d);
    DepsRanksOrder(d);
    InlineRanks(inline);
    ExpensiveRanks(expensive);
    BandsOfRanks(DepsRanks(d), |inline|, |expensive|);
  }

  // ------------------------------------------------------------------
  // suggestContextBlock

  /** `ctx.valueShape || ...`: undefined and the falsy primitives are falsy; objects and arrays are truthy. */
  predicate ShapeTruthy(s: AnalyzeContexts.Shape)
  {
    match s
    case SUndefined => false
    case SObject(_) => true
    case SArray => true
    case SLit(LStr(v)) => v != ""
    case SLit(LNum(n)) => n != 0
    case SLit(LBool(b)) => b
  }

  /**
   * The enriched value shape: the recorded default of a context created in
   * this file, else its own truthy shape, else the example value of a record
   * that has only the context's name (contexts carry no `defaultValue`).
   */
  function EnrichedShape(ctx: AnalyzeContexts.Context, dv: map<string, AnalyzeContexts.Shape>): AnalyzeContexts.Shape
  {
    if ctx.created && KeyOf(ctx.name) in dv && dv[KeyOf(ctx.name)] != AnalyzeContexts.SUndefined then dv[KeyOf(ctx.name)]
    else if ShapeTruthy(ctx.valueShape) then ctx.valueShape
    else AnalyzeContexts.SLit(GetExampleValue(Some(NamedDef(ctx.name)), "context").value)
  }

  function Enrich(ctx: AnalyzeContexts.Context, dv: map<string, AnalyzeContexts.Shape>): AnalyzeContexts.Context
  {
    ctx.(valueShape := EnrichedShape(ctx, dv))
  }

  /** The contexts the block works on: the providers, enriched. */
  function ProviderContexts(contexts: seq<AnalyzeContexts.Context>, dv: map<string, AnalyzeContexts.Shape>): seq<AnalyzeContexts.Context>
  {
    Map(Filter(contexts, (c: AnalyzeContexts.Context) => c.isProvider), (c: AnalyzeContexts.Context) => Enrich(c, dv))
  }

  /** What the block hands to handlerContextsMockAndImport for one context (contexts have no `type`). */
  function InfoOf(ctx: AnalyzeContexts.Context): ContextInfo
  {
    ContextInfo(ctx.name, ctx.importSource, ctx.valueShape, None)
  }

  /** The helpers that exist (a helper is dropped when the context has no name). */
  function ValidHelpers(contexts: seq<AnalyzeContexts.Context>): (r: seq<ContextHelper>)
    ensures forall h :: h in r <==> exists c :: c in contexts && HandlerContextsMockAndImport(InfoOf(c)) == Some(h)
  {
    if |contexts| == 0 then []
    else
      var h := HandlerContextsMockAndImport(InfoOf(contexts[0]));
      var rest := ValidHelpers(contexts[1..]);
      assert forall c :: c in contexts[1..] ==> c in contexts;
      assert forall c :: c in contexts ==> c == contexts[0] || c in contexts[1..];
      (if h.Some? then [h.value] else []) + rest
  }

  function ImportLineKey(h: ContextHelper): string { h.importLine }

  /** The block's `contextsHelpers`: the valid helpers of the providers, one per import line, first kept. */
  function ContextsHelpers(contexts: seq<AnalyzeContexts.Context>, dv: map<string, AnalyzeContexts.Shape>): seq<ContextHelper>
  {
    DedupBy(ValidHelpers(ProviderContexts(contexts, dv)), ImportLineKey)
  }

  /** The enriched shape is never undefined. */
  lemma EnrichedShapeDefined(ctx: AnalyzeContexts.Context, dv: map<string, AnalyzeContexts.Shape>)
    ensures EnrichedShape(ctx, dv) != AnalyzeContexts.SUndefined
  {
  }

  /** A context that has neither a recorded default nor a truthy shape is mocked by its name's example value. */
  lemma EnrichedFallsBackToExample(ctx: AnalyzeContexts.Context, dv: map<string, AnalyzeContexts.Shape>)
    requires !(ctx.created && KeyOf(ctx.name) in dv && dv[KeyOf(ctx.name)] != AnalyzeContexts.SUndefined)
    requires !ShapeTruthy(ctx.valueShape)
    ensures EnrichedShape(ctx, dv) == AnalyzeContexts.SLit(Heuristic("context", "", DefName(NamedDef(ctx.name))))
  {
    var d := NamedDef(ctx.name);
    assert !HasHint(d);
    assert FirstTruthy([d.declaredType, d.valueType, d.tsType]) == "";
  }

  /** No two helpers of the context block share an import line. */
  lemma ContextsHelpersUnique(contexts: seq<AnalyzeContexts.Context>, dv: map<string, AnalyzeContexts.Shape>)
    ensures NoDup(Map(ContextsHelpers(contexts, dv), ImportLineKey))
  {
    DedupByNoDup(ValidHelpers(ProviderContexts(contexts, dv)), ImportLineKey);
  }

  /** Each helper of the context block is the helper of some enriched provider. */
  lemma ContextsHelpersFromProviders(contexts: seq<AnalyzeContexts.Context>, dv: map<string, AnalyzeContexts.Shape>,
                                     h: ContextHelper)
    requires h in ContextsHelpers(contexts, dv)
    ensures exists c :: c in contexts && c.isProvider && HandlerContextsMockAndImport(InfoOf(Enrich(c, dv))) == Some(h)
  {
    var ps := ProviderContexts(contexts, dv);
    var vs := ValidHelpers(ps);
    DedupByFirst(vs, ImportLineKey);
    var provs := Filter(contexts, (c: AnalyzeContexts.Context) => c.isProvider);
    assert h in vs;
    var e :| e in ps && HandlerContextsMockAndImport(InfoOf(e)) == Some(h);
    var k :| 0 <= k < |ps| && ps[k] == e;
    assert provs[k] in provs;
  }

  /** Every provider with a name has its import line among the helpers. */
  lemma ContextsHelpersCover(contexts: seq<AnalyzeContexts.Context>, dv: map<string, AnalyzeContexts.Shape>,
                             c: AnalyzeContexts.Context)
    requires c in contexts && c.isProvider && Truthy(c.name)
    ensures exists h :: h in ContextsHelpers(contexts, dv)
                        && h.importLine == HandlerContextsMockAndImport(InfoOf(Enrich(c, dv))).value.importLine
  {
    var ps := ProviderContexts(contexts, dv);
    var vs := ValidHelpers(ps);
    var provs := Filter(contexts, (c: AnalyzeContexts.Context) => c.isProvider);
    assert c in provs;
    var k :| 0 <= k < |provs| && provs[k] == c;
    assert ps[k] == Enrich(c, dv) && ps[k] in ps;
    var h := HandlerContextsMockAndImport(InfoOf(Enrich(c, dv))).value;
    assert h in vs;
    var i :| 0 <= i < |vs| && vs[i] == h;
    DedupByCovers(vs, ImportLineKey, i);
  }

  /** The helper's example value is "null" for every context of the block. */
  lemma ContextsHelpersExampleIsNull(contexts: seq<AnalyzeContexts.Context>, dv: map<string, AnalyzeContexts.Shape>)
    ensures forall h :: h in ContextsHelpers(contexts, dv) ==> h.exampleValue == Some(ExampleNull)
  {
    forall h | h in ContextsHelpers(contexts, dv) ensures h.exampleValue == Some(ExampleNull) {
      ContextsHelpersFromProviders(contexts, dv, h);
      var c :| c in contexts && c.isProvider && HandlerContextsMockAndImport(InfoOf(Enrich(c, dv))) == Some(h);
      ContextExampleIsNull(InfoOf(Enrich(c, dv)));
    }
  }

  predicate WarnedProvider(c: AnalyzeContexts.Context) { c.isProvider && !c.isExported }

  /**
   * The `contextWarnings` pushes made while mapping the providers: one per
   * provider that is not exported, carrying its name, in order.
   */
  method ContextWarnings(contexts: seq<AnalyzeContexts.Context>) returns (warnings: seq<Option<string>>)
    ensures warnings == Map(Filter(contexts, WarnedProvider), (c: AnalyzeContexts.Context) => c.name)
  {
    warnings := [];
    for i := 0 to |contexts|
      invariant warnings == Map(Filter(contexts[..i], WarnedProvider), (c: AnalyzeContexts.Context) => c.name)
    {
      var c := contexts[i];
      assert contexts[..i + 1] == contexts[..i] + [c];
      FilterAppend(contexts[..i], [c], WarnedProvider);
      FilterSingleton(c, WarnedProvider);
      MapAppend(Filter(contexts[..i], WarnedProvider), Filter([c], WarnedProvider), (c: AnalyzeContexts.Context) => c.name);
      if c.isProvider && !c.isExported {
        warnings := warnings + [c.name];
      }
    }
    assert contexts[..|contexts|] == contexts;
  }

  /** Enrichment keeps a context's name and flags, so the warnings are about the enriched providers too. */
  lemma EnrichKeepsIdentity(ctx: AnalyzeContexts.Context, dv: map<string, AnalyzeContexts.Shape>)
    ensures Enrich(ctx, dv).name == ctx.name && Enrich(ctx, dv).isExported == ctx.isExported
    ensures Enrich(ctx, dv).isProvider == ctx.isProvider && Enrich(ctx, dv).importSource == ctx.importSource
  {
  }

  /** The names the block asks getAutoMocks about: the truthy provider names. */
  function TruthyNames(names: seq<Option<string>>): (r: seq<string>)
    ensures forall n :: n in r <==> Some(n) in names && n != ""
  {
    if |names| == 0 then []
    else
      var rest := TruthyNames(names[1..]);
      assert forall x :: x in names <==> x == names[0] || x in names[1..];
      (if Truthy(names[0]) then [names[0].value] else []) + rest
  }

  function ContextNames(contexts: seq<AnalyzeContexts.Context>): seq<string>
  {
    TruthyNames(Map(Filter(contexts, (c: AnalyzeContexts.Context) => c.isProvider), (c: AnalyzeContexts.Context) => c.name))
  }

  // ------------------------------------------------------------------
  // suggestApiCallsBlock

  /** The import brings in the API function itself, or the object before the dot of `obj.method`. */
  predicate ImportServesApi(imp: AnalyzeContexts.ImportRecord, api: string)
  {
    api in imp.specifiers || ('.' in api && Split(api, '.')[0] in imp.specifiers)
  }

  /** `usedApiImports`: the sources of the imports that serve some API call. */
  function UsedApiImports(apiCalls: seq<string>, imports: seq<AnalyzeContexts.ImportRecord>): set<string>
  {
    set imp, api | imp in imports && api in apiCalls && ImportServesApi(imp, api) :: imp.source
  }

  function ApiImports(apiCalls: seq<string>, imports: seq<AnalyzeContexts.ImportRecord>): seq<AnalyzeContexts.ImportRecord>
  {
    var used := UsedApiImports(apiCalls, imports);
    Filter(imports, (imp: AnalyzeContexts.ImportRecord) => imp.source in used)
  }

  /** The block's mocks comment: getAutoMocks over the imports whose source serves an API call. */
  function ApiCallsMocks(apiCalls: seq<string>, imports: seq<AnalyzeContexts.ImportRecord>): string
  {
    GetAutoMocks(ApiImports(apiCalls, imports), None)
  }

  /**
   * The API-call block mocks exactly the non-excluded sources of imports that
   * serve a call (through the name or its part before '.'), each once; this is
   * the set getAutoMocks picks when given the call names as used names.
   */
  lemma ApiCallsMocksSpec(apiCalls: seq<string>, imports: seq<AnalyzeContexts.ImportRecord>, s: string)
    ensures s in MockSources(ApiImports(apiCalls, imports), None) <==>
              s != "" && s !in ExcludeAutomocks
              && exists imp, api :: imp in imports && api in apiCalls && ImportServesApi(imp, api) && imp.source == s
    ensures s in MockSources(ApiImports(apiCalls, imports), None) <==> s in MockSources(imports, Some(apiCalls))
    ensures NoDup(MockSources(ApiImports(apiCalls, imports), None))
  {
    var used := UsedApiImports(apiCalls, imports);
    var ai := ApiImports(apiCalls, imports);
    MockSourcesSpec(ai, None);
    MockSourcesSpec(imports, Some(apiCalls));
    if s in MockSources(ai, None) {
      var imp :| imp in ai && Mockable(imp, None) && imp.source == s;
      assert s in used;
      var imp2, api :| imp2 in imports && api in apiCalls && ImportServesApi(imp2, api) && imp2.source == s;
      ServesIsUsed(imp2, api, apiCalls);
      assert Mockable(imp2, Some(apiCalls));
    }
    if s != "" && s !in ExcludeAutomocks
       && exists imp, api :: imp in imports && api in apiCalls && ImportServesApi(imp, api) && imp.source == s {
      var imp, api :| imp in imports && api in apiCalls && ImportServesApi(imp, api) && imp.source == s;
      assert s in used;
      assert imp in ai && Mockable(imp, None);
    }
    if s in MockSources(imports, Some(apiCalls)) {
      var imp :| imp in imports && Mockable(imp, Some(apiCalls)) && imp.source == s;
      var spec :| spec in imp.specifiers && UsedSpecifier(spec, apiCalls);
      var api := UsedApi(spec, apiCalls);
      assert ImportServesApi(imp, api);
      assert s in used;
      assert imp in ai && Mockable(imp, None);
    }
  }

  lemma ServesIsUsed(imp: AnalyzeContexts.ImportRecord, api: string, apiCalls: seq<string>)
    requires api in apiCalls && ImportServesApi(imp, api)
    ensures exists spec :: spec in imp.specifiers && UsedSpecifier(spec, apiCalls)
  {
    if api in imp.specifiers {
      assert UsedSpecifier(api, apiCalls);
    } else {
      assert UsedSpecifier(Split(api, '.')[0], apiCalls);
    }
  }

  lemma UsedApi(spec: string, apiCalls: seq<string>) returns (api: string)
    requires UsedSpecifier(spec, apiCalls)
    ensures api in apiCalls && (api == spec || ('.' in api && Split(api, '.')[0] == spec))
  {
    if spec in apiCalls {
      api := spec;
    } else {
      api :| api in apiCalls && '.' in api && Split(api, '.')[0] == spec;
    }
  }

  // ------------------------------------------------------------------
  // suggestEventHandlersBlock

  /** The `fireEvent` method: the handler name with its first "on" removed, lowercased. */
  function FireEventName(handler: string): string
  {
    Lower(ReplaceFirst(handler, "on", ""))
  }

  /** For a detected handler (`on` and an upper-case letter) that is the lowercased rest of the name. */
  lemma FireEventOfHandler(handler: string)
    requires AstHelpers.IsEventHandler(handler)
    ensures FireEventName(handler) == Lower(handler[2..])
    ensures |FireEventName(handler)| == |handler| - 2 && IsAsciiLower(FireEventName(handler)[0])
  {
    assert handler == "on" + handler[2..];
    ReplaceFirstAtStart("on", handler[2..], "");
    assert "" + handler[2..] == handler[2..];
    assert FireEventName(handler)[0] == LowerChar(handler[2]);
  }

  /** The example handler printed for each handler record (it has only a name). */
  function HandlerExampleValue(handler: string): Option<Lit>
  {
    GetExampleValue(Some(NamedDef(Some(handler))), "handler")
  }

  lemma HandlerExampleAlwaysJestFn(handler: string)
    ensures HandlerExampleValue(handler) == Some(JestFn)
  {
    HandlerExampleIsJestFn(NamedDef(Some(handler)));
  }

  // ------------------------------------------------------------------
  // suggestPropsBlock

  /** A prop record as getExampleValue sees it: its name and the hint fields spread into it. */
  function PropDef(p: AnalyzeFacts.PropInfo): Def
  {
    Def(None, None, None, p.name, None, p.hint.exampleArray, p.hint.possibleValues, p.hint.defaultValue, None, None)
  }

  function PropExample(p: AnalyzeFacts.PropInfo): Option<Lit>
  {
    GetExampleValue(Some(PropDef(p)), "render")
  }

  const DefaultExpect := "expect(...).toBeInTheDocument();"
  const TestIdExpect := "expect(screen.getByTestId('test-child')).toBeInTheDocument();"

  /** The expectation line of a prop's test. */
  function ExpectLine(p: AnalyzeFacts.PropInfo): string
  {
    var ex := PropExample(p);
    if Truthy(p.name) && Lower(p.name.value) == "children" && ex.Some? && ex.value.LStr? && Contains(ex.value.str, TestChildMarker)
    then TestIdExpect
    else DefaultExpect
  }

  lemma MarkupHasMarker()
    ensures Contains(ChildMarkup, TestChildMarker)
  {
    assert ChildMarkup[|ChildOpen|..|ChildOpen| + |TestChildMarker|] == TestChildMarker;
    ContainsAt(ChildMarkup, TestChildMarker, |ChildOpen|);
  }

  /** A children prop without hints renders the marked child and expects it by test id. */
  lemma ChildrenExpectsTestId(p: AnalyzeFacts.PropInfo)
    requires Truthy(p.name) && Lower(p.name.value) == "children" && !HasHint(PropDef(p))
    ensures PropExample(p) == Some(LStr(ChildMarkup))
    ensures ExpectLine(p) == TestIdExpect
  {
    assert DefName(PropDef(p)) == Lower(p.name.value);
    ChildrenRenderExample(PropDef(p));
    MarkupHasMarker();
  }

  /** Any other prop keeps the generic expectation. */
  lemma OtherPropsExpectDefault(p: AnalyzeFacts.PropInfo)
    requires !Truthy(p.name) || Lower(p.name.value) != "children"
    ensures ExpectLine(p) == DefaultExpect
  {
  }

  function PropNames(props: seq<AnalyzeFacts.PropInfo>): seq<string>
  {
    TruthyNames(Map(props, (p: AnalyzeFacts.PropInfo) => p.name))
  }
}
