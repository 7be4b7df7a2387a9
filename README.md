# A verified model of the React/Jest test generator

This project models, in Dafny, the deterministic core of a generator of Jest test files for React
components. The generator runs in two stages.

- **Facts.** The first stage walks a parsed component file and collects facts:
  - the main component;
  - props and the values hinted for them;
  - contexts, hook dependencies and route parameters.
- **Blocks and merge.** The second stage turns the facts into suggested test blocks. It merges the
  blocks' import and mock lines into the header of a file produced by `jest-test-gen`, and then cleans
  that file.

The parser, the traversal library, the sub-process and the files are outside the model. What is
modelled is the list, map and string logic written in the repository itself:

| module (file) | what it models |
|---|---|
| `JsText` (js_text.dfy) | JavaScript string and array built-ins the scripts use: `trim`, `startsWith`, `includes`, `split`, `join`, `new Set`, `filter` by first index, `findIndex`, code-unit string order and sorting, ASCII lower-casing, JSON string quoting, number printing |
| `AstNodes` (ast_nodes.dfy) | the fields of the syntax-tree nodes the detectors read, as a sequence of visit events in traversal order |
| `AstHelpers` (ast_helpers.dfy) | `scripts/ast-helpers.mjs`: the name sets, the predicates, `extractPropsFromParams`, `getJSXElementName`, `getMainComponentName` |
| `AnalyzeHints`, `AnalyzeContexts`, `AnalyzeFacts`, `AnalyzeEntry` | the detectors of `scripts/analyze-ast-helper.mjs`: value hints, contexts, hook dependencies, state, props, route keys, the main component |
| `SuggestHelpers` (suggest_helpers.dfy) | `scripts/suggest-helpers.mjs`: example values, automatic mocks, context helpers, the `useParams`/`useRouter` mocks, the testing-library test |
| `SuggestBlocks` (suggest_blocks.dfy) | `scripts/suggest-test-blocks.mjs`: the rule registry, the deduplication of blocks, the performance suggestions, the filtering inside the context, API, handler and props blocks |
| `LineScan`, `GroupImports`, `KeyedChoice`, `GroupMocks`, `MergeMocks`, `ImportReparse`, `MergeImports`, `MergeLines` | `scripts/jest-test-gen-helpers.mjs`: grouping of imports and mocks, the global line deduplication, and `mergeLinesHelper` with its index loop |
| `CleanBlocks`, `Skeleton`, `ImportCleanup`, `IntegratedFile` | `scripts/jest-test-gen-helpers.mjs`: `cleanSuggestedTestBlocks`, the line automaton of `normalizeSkeleton`, `cleanImportBlock`, and the text assembled by `createIntegratedTestFile` |
| `FinalCleanup` (clean_final.dfy) | `scripts/clean-final-test.mjs`: `cleanBasicTest` and `cleanFinalTest` as text-to-text methods |

The source's form is kept. Code that pushes into arrays, fills maps or runs an index loop is written as
a Dafny `method` with a loop, and each method is proved equal to a specification function. The
properties the scripts promise are proved about those functions as lemmas.

A Babel traversal is modelled as a sequence of `AstNodes.Event` values, one per visited node, in visit
order. A detector is a fold over that sequence. `JSON.stringify` of arbitrary objects is a parameter
`serialize` of the members that use it.

## Model

| member | source | states |
|---|---|---|
| AstHelpers.CustomHookSplit | scripts/ast-helpers.mjs:12-14 | a name starts with "use" exactly when it is a custom hook or one of the core hooks, and never both |
| AstHelpers.CustomHookOfSuffix | scripts/ast-helpers.mjs:58-60 | "use" followed by anything is a custom hook exactly when it is not one of the ten core hooks |
| AstHelpers.EventHandlerOfParts | scripts/ast-helpers.mjs:15 | "on", a letter and a rest is an event handler name exactly when the letter is an upper-case ASCII letter |
| AstHelpers.EventHandlerPrefix | scripts/ast-helpers.mjs:63-65 | the test reads only the first three characters: an event handler name stays one whatever follows, and has at least three characters |
| AstHelpers.EventHandlerIsNoHook | scripts/ast-helpers.mjs:58-65 | an event handler name neither starts with "use" nor is a custom hook |
| AstHelpers.MemoizationNames | scripts/ast-helpers.mjs:18 | `isMemoization` holds exactly for useMemo, useCallback and React.memo |
| AstHelpers.ApiCallNames | scripts/ast-helpers.mjs:16 | `isApiCall` holds exactly for fetch, axios and createClient |
| AstHelpers.MemoHooksAreCore | scripts/ast-helpers.mjs:12-18 | a memoization name that starts with "use" is a core hook, so it is never a custom hook |
| AstHelpers.ReactMemoIsNoHook | scripts/ast-helpers.mjs:18 | React.memo does not start with "use" |
| AstHelpers.ExtractPropsFromParams | scripts/ast-helpers.mjs:33-43 | the nested forEach loops return exactly the key names of the object-pattern parameters, in parameter order and then property order |
| AstHelpers.KeyNamesMembers | scripts/ast-helpers.mjs:36-38 | a name comes from one pattern exactly when it is non-empty and some property has it as its key name |
| AstHelpers.PropKeysMembers | scripts/ast-helpers.mjs:33-43 | a name is extracted exactly when it is non-empty and some object-pattern parameter destructures it |
| AstHelpers.PropKeysAppend | scripts/ast-helpers.mjs:35 | the names of concatenated parameter lists are the concatenated names, so parameters contribute in order |
| AstHelpers.PropKeysSkipsOthers | scripts/ast-helpers.mjs:36 | a parameter that is not an object pattern adds nothing |
| AstHelpers.GetJsxElementName | scripts/ast-helpers.mjs:46-55 | an element gives its opening tag's identifier name and a fragment gives "Fragment". No input, any other node, a member-expression tag and a namespaced tag give no name |
| AstHelpers.GetMainComponentName | scripts/ast-helpers.mjs:28-30 | the result is never empty. It is the export's name when that is truthy, else its wrapped component when that is truthy, else "Component" |
| AnalyzeHints.FindPropValueHints | scripts/analyze-ast-helper.mjs:376-518 | the traversal's per-visit updates of `hints` give exactly `HintsOf(events)`, the fold of the rules over the events, which ends at the first TypeError |
| AnalyzeHints.HintsDescribed | scripts/analyze-ast-helper.mjs:376-518 | when no TypeError is raised, each name has a record exactly when a rule fired for it. The record has `possibleValues` exactly when the first such rule added a value, and they are then the distinct values in first-seen order. `exampleArray` is set exactly when the name was mapped over, and its text depends on the name only. `defaultValue` is the last destructuring default |
| AnalyzeHints.HintsErrorIffClash | scripts/analyze-ast-helper.mjs:392-486 | the traversal throws exactly when a value rule meets a record that the `.map` rule or the default rule created without `possibleValues` |
| AnalyzeHints.HintsErrorPersists | scripts/analyze-ast-helper.mjs:379 | once a prefix of the events throws, the result for all the events is that same error |
| AnalyzeHints.RelationalHint | scripts/analyze-ast-helper.mjs:435-449 | a comparison `x > N` or `x >= N` suggests N+1, and `x < N` or `x <= N` suggests N-1 |
| AnalyzeHints.BooleanHints | scripts/analyze-ast-helper.mjs:420-514 | `!x` adds false and `if (x)` adds true, and an equality test against a number adds nothing |
| AnalyzeHints.MapThenCompareThrows | scripts/analyze-ast-helper.mjs:392-414 | `x.map(...)` followed by `x === "s"` raises the TypeError |
| AnalyzeHints.CompareThenMapIsFine | scripts/analyze-ast-helper.mjs:383-432 | in the other order the record holds `["s"]` and the example array chosen by the name |
| AnalyzeHints.StepOtherName | scripts/analyze-ast-helper.mjs:391-413 | a rule for one name leaves every other name's record as it was |
| AnalyzeHints.Untouched | scripts/analyze-ast-helper.mjs:376-518 | a name no rule fired for has no values, no default and no `.map` use |
| AnalyzeContexts.ImportsOf | scripts/analyze-ast-helper.mjs:817-831 | one import record per import declaration among the events, in visit order: the j-th declaration gives the record at the position counting the declarations before it, with its source and local names, and every record comes from such a declaration |
| AnalyzeContexts.BuildImportMap | scripts/analyze-ast-helper.mjs:227-237 | the nested forEach loops build exactly `ImportMap(imports)` |
| AnalyzeContexts.AddAllLookup | scripts/analyze-ast-helper.mjs:231-233 | after the specifier loop, every listed name maps to the source and every other name keeps its entry |
| AnalyzeContexts.ImportMapLastWins | scripts/analyze-ast-helper.mjs:227-237 | a name maps to the source of the last import that lists it |
| AnalyzeContexts.CollectRealContexts | scripts/analyze-ast-helper.mjs:245-285 | the first traversal builds exactly `realContexts`, in traversal order, and `contextDefaultValues`, where the last createContext of a name wins |
| AnalyzeContexts.RealContextsCreated | scripts/analyze-ast-helper.mjs:272-282 | every real context is marked created and provider, is not a hook, and is exported exactly when its name is a named export |
| AnalyzeContexts.DefaultValueKeys | scripts/analyze-ast-helper.mjs:270 | every key of `contextDefaultValues` is the name of a real context |
| AnalyzeContexts.KeyNamesOf | scripts/analyze-ast-helper.mjs:296-301 | `properties.map(p => p.key.name)` throws exactly when the pattern has a rest element, and otherwise gives one key name per property |
| AnalyzeContexts.FirstPrefixContext | scripts/analyze-ast-helper.mjs:325 | `realContexts.find(...)` gives the first real context whose name prefixes the tag, and none when no name does |
| AnalyzeContexts.CollectUses | scripts/analyze-ast-helper.mjs:288-337 | the second traversal pushes exactly the entries `Uses(...)` lists, and stops at the first TypeError |
| AnalyzeContexts.UsesErrorPersists | scripts/analyze-ast-helper.mjs:288 | once a prefix of the events throws, the whole traversal gives that same error |
| AnalyzeContexts.UseEntriesError | scripts/analyze-ast-helper.mjs:293-323 | one event throws exactly when it is a `use[A-Z]` call destructured by an object pattern with a rest element, or an opening tag with a namespaced name, whose `name.endsWith` is not a function |
| AnalyzeContexts.ContextsErrorIffThrows | scripts/analyze-ast-helper.mjs:288-337 | the traversal throws exactly when some hook call is destructured with a rest element or some opening tag is namespaced |
| AnalyzeContexts.UseEntriesShape | scripts/analyze-ast-helper.mjs:290-335 | every entry one event pushes is a hook that is not a createContext variable and has no shape, or a `…Provider` tag that takes the shape of the first real context prefixing it |
| AnalyzeContexts.UsesShape | scripts/analyze-ast-helper.mjs:288-337 | every entry of the second traversal has that shape |
| AnalyzeContexts.AppendReals | scripts/analyze-ast-helper.mjs:339-346 | the forEach adds exactly `WithReals(contexts, realContexts)` |
| AnalyzeContexts.WithRealsCovers | scripts/analyze-ast-helper.mjs:339-346 | the earlier entries stay in front, unchanged, and afterwards every real context has a provider entry with its name |
| AnalyzeContexts.WithRealsFromReals | scripts/analyze-ast-helper.mjs:343-345 | every entry added at the end is a real context |
| AnalyzeContexts.WithRealsStep | scripts/analyze-ast-helper.mjs:341-345 | a real context is added exactly when no provider entry with its name is present yet |
| AnalyzeContexts.WithRealsLast | scripts/analyze-ast-helper.mjs:341-345 | after that step a provider entry with its name is present |
| AnalyzeContexts.FindContexts | scripts/analyze-ast-helper.mjs:224-357 | `findContexts` returns exactly `ContextsSpec(events, imports)`: the hook and tag entries, then the real contexts not yet present, and the default values |
| AnalyzeContexts.ContextsShape | scripts/analyze-ast-helper.mjs:288-346 | the result starts with the hook and tag entries, each of the shape above, followed by real contexts only. Every real context has a provider entry |
| AnalyzeFacts.FindStateVariables | scripts/analyze-ast-helper.mjs:662-684 | the traversal pushes exactly `StateVariables(events)`, one name per `useState` array destructuring, in order |
| AnalyzeFacts.StateVariablesMembers | scripts/analyze-ast-helper.mjs:670-675 | a name is a state variable exactly when some `const [x, …] = useState(…)` declares it, and it is never empty |
| AnalyzeFacts.DepName | scripts/analyze-ast-helper.mjs:697-708 | a member-expression dependency is printed as `obj.prop`, so its name contains a dot |
| AnalyzeFacts.ElementDeps | scripts/analyze-ast-helper.mjs:694-712 | the forEach over the array elements gives exactly `DepsOfElements(elements)`, where a hole throws |
| AnalyzeFacts.DepsErrorPersists | scripts/analyze-ast-helper.mjs:694 | once a prefix of the elements throws, so do all the elements, with the same error |
| AnalyzeFacts.DepsErrorIffHole | scripts/analyze-ast-helper.mjs:694-712 | the elements throw exactly when one is a hole. Otherwise a name is listed exactly when some element names it |
| AnalyzeFacts.FindEffectDependencies | scripts/analyze-ast-helper.mjs:688-718 | the traversal gives exactly `EffectDeps(events)`: the dependencies of every two-argument `useEffect` with an array literal, in order |
| AnalyzeFacts.EffectErrorPersists | scripts/analyze-ast-helper.mjs:690 | once a prefix of the events throws, the whole traversal gives that same error |
| AnalyzeFacts.PropsOfKeys | scripts/analyze-ast-helper.mjs:847-851 | one entry per extracted name, in order, each carrying the hint for its name or the empty hint |
| AnalyzeFacts.FindProps | scripts/analyze-ast-helper.mjs:833-878 | the five visitors push exactly `Props(events, hints)` |
| AnalyzeFacts.PropsOrigin | scripts/analyze-ast-helper.mjs:833-878 | every prop carries the hint of its own name and comes from a `props.x` access or from the parameters of a function node; conversely every such access or parameter name is listed with its hint |
| AnalyzeFacts.ExportedFunctionPropsTwice | scripts/analyze-ast-helper.mjs:845-876 | an exported function declaration is visited both as the export and as the function, so its props are listed twice |
| AnalyzeFacts.FindVariables | scripts/analyze-ast-helper.mjs:1023-1031 | the traversal pushes the name of every variable declarator, in order |
| AnalyzeFacts.VariablesMembers | scripts/analyze-ast-helper.mjs:1023-1031 | a name is listed exactly when some declarator has it |
| AnalyzeFacts.FindHooks | scripts/analyze-ast-helper.mjs:990-1004 | the traversal pushes the callee name of every identifier call starting with "use", in order |
| AnalyzeFacts.HooksMembers | scripts/analyze-ast-helper.mjs:994-997 | a name is a hook exactly when some identifier call has it as its callee and it starts with "use" |
| AnalyzeFacts.CollectParamsKeys | scripts/analyze-ast-helper.mjs:1215-1230 | the traversal adds to the Set exactly the distinct keys read from `params`, in first-read order |
| AnalyzeFacts.FindParamsKeys | scripts/analyze-ast-helper.mjs:1204-1233 | `findParamsKeys` returns exactly `ParamsKeys(events)` |
| AnalyzeFacts.ParamsAccessesMembers | scripts/analyze-ast-helper.mjs:1217-1228 | a key is read exactly when some `params["k"]` or `params.k` access names it |
| AnalyzeFacts.ParamsKeysSpec | scripts/analyze-ast-helper.mjs:1204-1233 | a key is returned exactly when a `params` variable and a `useParams` call both exist and some access reads the key. The keys have no repeats and keep first-read order |
| AnalyzeFacts.CompareHookDependencies | scripts/analyze-ast-helper.mjs:1171-1198 | `missingDeps` are the used names not declared and `unusedDeps` the declared names not used, both without repeats and in first-appearance order. `mutableDeps` is a subsequence of the declared names, in their order, holding each declared name containing '[', '{', '(' or '.' exactly as often as it is declared, and no other name |
| AnalyzeFacts.AsWiredDependencies | scripts/analyze-ast-helper.mjs:1135-1137 | since component records have no body, nothing is ever missing and every declared dependency is unused, once each |
| AnalyzeEntry.FileBase | scripts/analyze-ast-helper.mjs:184-190 | the base taken from a file name holds no '/' and no '.' |
| AnalyzeEntry.FallbackName | scripts/analyze-ast-helper.mjs:184-190 | the fallback name is never empty: the file base when there is one, else "Component" |
| AnalyzeEntry.FileBaseOfPath | scripts/analyze-ast-helper.mjs:184-190 | for `dir/base.ext` the base is `base` |
| AnalyzeEntry.FileBaseOfName | scripts/analyze-ast-helper.mjs:184-190 | for `base.ext` without a directory the base is `base` |
| AnalyzeEntry.FindExportDefault | scripts/analyze-ast-helper.mjs:901-989 | the traversal keeps the record of the last handled `export default` (function declaration, class, identifier or call) and then gives a nameless record the file base or "Component" |
| AnalyzeEntry.ExportDefaultIdentifierNamed | scripts/analyze-ast-helper.mjs:928-935 | `export default Name` gives an identifier record named `Name` with no params |
| AnalyzeEntry.ExportDefaultAbsent | scripts/analyze-ast-helper.mjs:901-958 | the result is null exactly when no `export default` of a handled kind occurs |
| AnalyzeEntry.ExportDefaultIsLast | scripts/analyze-ast-helper.mjs:904-958 | the last handled `export default` decides kind, params and HOC names; its name is kept when truthy, else the fallback name is used |
| AnalyzeEntry.ExportDefaultNamed | scripts/analyze-ast-helper.mjs:960-985 | a non-null result always carries a truthy name |
| AnalyzeEntry.ExportDefaultHoc | scripts/analyze-ast-helper.mjs:936-948 | `export default Hoc(Inner, ...)` gives a HOC record with the callee's name, the first argument's name and the fallback name |
| AnalyzeEntry.ArrowDefaultIsIgnored | scripts/analyze-ast-helper.mjs:907-953 | an arrow function as `export default` is not handled, so the result is null |
| AnalyzeEntry.FirstProviderLike | scripts/analyze-ast-helper.mjs:180 | the index found is the first candidate whose name matches /Provider\|Context/i; no index means no candidate matches |
| AnalyzeEntry.FirstProviderLikeUnique | scripts/analyze-ast-helper.mjs:180 | a matching candidate preceded by no matching one is the one found |
| AnalyzeEntry.CollectCandidates | scripts/analyze-ast-helper.mjs:140-176 | the candidates are the exported function declarations, classes and function-valued declarators, in traversal order |
| AnalyzeEntry.CollectDeclarators | scripts/analyze-ast-helper.mjs:158-172 | one candidate per declarator initialised with a function or arrow, in order |
| AnalyzeEntry.FindMainComponent | scripts/analyze-ast-helper.mjs:132-191 | the result is the one the priority chain below describes |
| AnalyzeEntry.MainComponentPriority | scripts/analyze-ast-helper.mjs:132-191 | the export default wins; else the first Provider/Context-like candidate; else the first candidate; else an unknown record named by the fallback |
| AnalyzeEntry.MainComponentOfEmpty | scripts/analyze-ast-helper.mjs:184-190 | a file `src/base.ext` with no exports gives an unknown record named `base` |
| SuggestHelpers.EmptyIncludesNothing | scripts/suggest-helpers.mjs:188-202 | an empty type or name matches none of the non-empty pattern tables |
| SuggestHelpers.GeneralExample | scripts/suggest-helpers.mjs:188-202 | the general heuristic yields one of `"example"`, 42, true, `[1, 2, 3]`, `{ foo: "bar" }` or `null`, and `null` exactly when neither the type nor the name matches a table |
| SuggestHelpers.TypeBeatsName | scripts/suggest-helpers.mjs:189-193 | a type that matches a type table decides the example whatever the name |
| SuggestHelpers.HiddenIsANumber | scripts/suggest-helpers.mjs:195-196 | the name tables are matched by substring after the type tables, so an untyped "hidden" gets 42 because it contains "id" |
| SuggestHelpers.RenderExample | scripts/suggest-helpers.mjs:165-174 | a render prop named "children" gets the `data-testid="test-child"` span; any other name the general heuristic |
| SuggestHelpers.HandlerExample | scripts/suggest-helpers.mjs:179-183 | every branch of the handler heuristic yields `jest.fn()` |
| SuggestHelpers.FirstTruthy | scripts/suggest-helpers.mjs:129-131 | `a \|\| b \|\| ''` is "" exactly when every operand is falsy, and otherwise one of the operands |
| SuggestHelpers.GetExampleValue | scripts/suggest-helpers.mjs:127-157 | undefined exactly for a missing record. Otherwise the first of these that applies decides, and each is stated: a truthy `exampleArray`; the first possible value as JSON; the default value as JSON; the first enum member as JSON; the `default` constraint as JSON; the heuristic chosen by the usage type |
| SuggestHelpers.PossibleValueIsJson | scripts/suggest-helpers.mjs:136-137 | the first possible value is returned as its JSON text, so a string keeps its quotes |
| SuggestHelpers.DefaultValueBeatsConstraints | scripts/suggest-helpers.mjs:138-143 | a default value read from the source is used before the enum and `default` constraints, which then do not matter |
| SuggestHelpers.HandlerExampleIsJestFn | scripts/suggest-helpers.mjs:145-183 | a handler record without hints always gets `jest.fn()` |
| SuggestHelpers.ChildrenRenderExample | scripts/suggest-helpers.mjs:145-170 | a render prop whose lowercased name is "children" and that has no hints gets the marked child element |
| SuggestHelpers.AnonymousExampleIsNull | scripts/suggest-helpers.mjs:129-202 | a record with no type and no name, outside render and handler usage, gets `null` |
| SuggestHelpers.AnyLineUses | scripts/suggest-helpers.mjs:95-97 | true exactly when some line contains some Testing Library indicator |
| SuggestHelpers.IsBlockUsingTestingLibrary | scripts/suggest-helpers.mjs:92-98 | false for falsy code; otherwise true exactly when some line of the code, split on '\n' when it is text, contains an indicator |
| SuggestHelpers.TextAgreesWithLines | scripts/suggest-helpers.mjs:94 | code given as text and the same code given as its lines get the same answer |
| SuggestHelpers.LinesOfJoin | scripts/suggest-helpers.mjs:94 | splitting lines joined by '\n' gives the lines back |
| SuggestHelpers.GetAutoMocks | scripts/suggest-helpers.mjs:358-389 | the comment is "" exactly when no source remains; otherwise it is `// Uses mock(s): ... (customize if needed)` |
| SuggestHelpers.MockSourcesSpec | scripts/suggest-helpers.mjs:361-385 | a source is listed exactly when some mockable import has it (a source outside the exclusion list, and with used names, a specifier equal to a used name or to the part before '.' of a dotted one); no source twice, in first-seen order |
| SuggestHelpers.ExcludedNeverMocked | scripts/suggest-helpers.mjs:358-389 | a module of the exclusion list is never listed |
| SuggestHelpers.AutoMocksNameSources | scripts/suggest-helpers.mjs:385-387 | every listed source appears in the comment in single quotes |
| SuggestHelpers.TrimEndKeepsClosedLine | scripts/suggest-helpers.mjs:388 | the final `trimEnd` leaves a line that does not end in white space as it is |
| SuggestHelpers.JoinContains | scripts/suggest-helpers.mjs:386 | every part of a join occurs in the joined text |
| SuggestHelpers.LinesOfCommaJoin | scripts/suggest-helpers.mjs:414 | parts joined by ",\n" split back into the parts, each but the last followed by a comma |
| SuggestHelpers.PrettyObjectLines | scripts/suggest-helpers.mjs:229-231 | a pretty-printed flat object is "{", one `"key": value` line per entry with commas between, and "}" |
| SuggestHelpers.StripQuotesOfQuoted | scripts/suggest-helpers.mjs:235-237 | one leading and one trailing quote character are removed |
| SuggestHelpers.StripQuotesOfPlain | scripts/suggest-helpers.mjs:235-237 | a string that neither starts nor ends with a quote is kept |
| SuggestHelpers.HandlerContextsMockAndImport | scripts/suggest-helpers.mjs:212-268 | nothing exactly when the context has no name; otherwise its name, its path (or `./<name>` when it has none) and the mock value of its value shape |
| SuggestHelpers.ContextExampleIsNull | scripts/suggest-helpers.mjs:221-223 | a named context without a declared type gets the `null` example: a context record has no `name` or `key` field, so the name tables never apply |
| SuggestHelpers.MockLineDeclares | scripts/suggest-helpers.mjs:241-244 | the mock line is `const mock<Name>Value = <value>;` |
| SuggestHelpers.ProviderWrapperEncloses | scripts/suggest-helpers.mjs:247-248 | the provider wrapper opens `<Name.Provider value={mockVar}>`, closes `</Name.Provider>` and holds exactly the children between |
| SuggestHelpers.GenerateUseParamsMock | scripts/suggest-helpers.mjs:410-428 | a mock exists exactly when a next/navigation import includes useParams, a useParams hook call exists and there is a params key; it is an extended next/navigation mock |
| SuggestHelpers.ParamsMockLines | scripts/suggest-helpers.mjs:415-421 | the mock code's lines are the three head lines, one `"k": "mocked_k"` line per key with commas between, and the two tail lines |
| SuggestHelpers.MockHeadsAreLines | scripts/suggest-helpers.mjs:416-420 | the fixed head and tail lines hold no line break |
| SuggestHelpers.GenerateUseRouterMock | scripts/suggest-helpers.mjs:57-83 | a mock exists exactly when a next/navigation import includes useRouter and a useRouter hook call exists; it is an extended next/navigation mock |
| SuggestHelpers.GenerateUseMocks | scripts/suggest-helpers.mjs:106-114 | at most two mocks, all extended next/navigation ones: the useParams mock first and the useRouter mock last when they exist, none when neither does |
| SuggestHelpers.FormatSourceLineComment | scripts/suggest-helpers.mjs:296-299 | "" exactly when the record has no line number; otherwise a comment ending in the number and ')' |
| SuggestHelpers.BlockHelper | scripts/suggest-helpers.mjs:272-280 | the block carries the given type, title, description and code, and the given meta or `{}` when none is given |
| SuggestBlocks.RuleAt | scripts/suggest-test-blocks.mjs:877-996 | the registry index of the i-th rule is i |
| SuggestBlocks.RegistryIndex | scripts/suggest-test-blocks.mjs:877-996 | every rule has a place among the sixteen registry entries |
| SuggestBlocks.RegistryIndexInverse | scripts/suggest-test-blocks.mjs:877-996 | the rule at a rule's place is that rule, so the registry lists each rule once |
| SuggestBlocks.RunRegistry | scripts/suggest-test-blocks.mjs:34-44 | the pushed entries are the fn results of the rules whose condition holds, in registry order |
| SuggestBlocks.FiredStep | scripts/suggest-test-blocks.mjs:34-44 | one more registry entry adds its fn result exactly when its condition holds |
| SuggestBlocks.KeepFirstByKey | scripts/suggest-test-blocks.mjs:46-53 | the filter against the `seen` set keeps the first entry of each key, in order |
| SuggestBlocks.SuggestTestBlocks | scripts/suggest-test-blocks.mjs:26-56 | the result is the fired rules' blocks with every repeated `type\|code` key dropped after its first occurrence; no two results share a key |
| SuggestBlocks.FiredAmongSpec | scripts/suggest-test-blocks.mjs:34-44 | among the first n entries, a rule fires exactly when it is one of them and its condition holds, and fired rules keep registry order |
| SuggestBlocks.FiredExactly | scripts/suggest-test-blocks.mjs:34-44 | a rule's fn runs exactly when its condition holds |
| SuggestBlocks.FiredInRegistryOrder | scripts/suggest-test-blocks.mjs:34-44 | fired rules are in strictly increasing registry order, with no rule twice |
| SuggestBlocks.AnalyzerSkipsHocAndPerformance | scripts/suggest-test-blocks.mjs:979-992 | on analyzer output, which has neither `exportDefault.isHOC` nor `performance`, the hoc and performance rules never fire |
| SuggestBlocks.TypeNameHasNoBar | scripts/suggest-test-blocks.mjs:877-996 | no registry type name holds '\|' or equals "undefined" |
| SuggestBlocks.TypeNameInjective | scripts/suggest-test-blocks.mjs:877-996 | different rules have different type names |
| SuggestBlocks.RuleOfType | scripts/suggest-test-blocks.mjs:877-996 | the rule found for a type name has that name |
| SuggestBlocks.KeyPrefixUnique | scripts/suggest-test-blocks.mjs:48 | two keys `a\|x` and `b\|y` with bar-free types are equal only when the types are |
| SuggestBlocks.KeysDiffer | scripts/suggest-test-blocks.mjs:48 | when each rule's block carries its own type, different rules give different keys |
| SuggestBlocks.OwnTypesKeepEverything | scripts/suggest-test-blocks.mjs:46-53 | then the de-duplication removes nothing |
| SuggestBlocks.GeneratePerformanceSuggestions | scripts/suggest-test-blocks.mjs:817-873 | the pushed list is the performance suggestion list below |
| SuggestBlocks.PushEach | scripts/suggest-test-blocks.mjs:855-870 | a `forEach` push appends one mapped entry per element, in order |
| SuggestBlocks.TitlesDiffer | scripts/suggest-test-blocks.mjs:825-866 | the five suggestion titles are pairwise different |
| SuggestBlocks.RanksOfSuggestions | scripts/suggest-test-blocks.mjs:821-870 | missing, unused and mutable entries, inline functions and expensive calculations rank 0 to 4 |
| SuggestBlocks.DepsRanksOrder | scripts/suggest-test-blocks.mjs:821-850 | the dependency entries are one per non-empty list, in the order missing, unused, mutable |
| SuggestBlocks.DepsSuggestionsOrder | scripts/suggest-test-blocks.mjs:821-850 | at most one entry each for missing, unused and mutable dependencies, present exactly when the list is non-empty, in that order |
| SuggestBlocks.DepsSuggestionsRanks | scripts/suggest-test-blocks.mjs:821-850 | the ranks of the dependency entries are the rank list of the report |
| SuggestBlocks.RanksPointwise | scripts/suggest-test-blocks.mjs:817-873 | a rank list read element by element |
| SuggestBlocks.BandsOfRanks | scripts/suggest-test-blocks.mjs:817-873 | increasing dependency ranks followed by the inline and expensive ranks form the three bands |
| SuggestBlocks.InlineRanks | scripts/suggest-test-blocks.mjs:855-862 | one inline-function entry per inline function |
| SuggestBlocks.ExpensiveRanks | scripts/suggest-test-blocks.mjs:864-870 | one expensive-calculation entry per calculation |
| SuggestBlocks.PerformanceOrder | scripts/suggest-test-blocks.mjs:817-873 | the list is the dependency entries, then one entry per inline function, then one per expensive calculation |
| SuggestBlocks.ValidHelpers | scripts/suggest-test-blocks.mjs:145-156 | a helper is kept exactly when it is the helper of some context, which holds exactly when the context has a name |
| SuggestBlocks.EnrichedShapeDefined | scripts/suggest-test-blocks.mjs:116-125 | the enriched value shape is never undefined |
| SuggestBlocks.EnrichedFallsBackToExample | scripts/suggest-test-blocks.mjs:118-121 | without a recorded default and without a truthy shape, a context gets the example value of its name |
| SuggestBlocks.ContextsHelpersUnique | scripts/suggest-test-blocks.mjs:159-161 | no two context helpers share an import line |
| SuggestBlocks.ContextsHelpersFromProviders | scripts/suggest-test-blocks.mjs:108-161 | every helper comes from a provider context |
| SuggestBlocks.ContextsHelpersCover | scripts/suggest-test-blocks.mjs:108-161 | every named provider context is represented by a helper with its import line |
| SuggestBlocks.ContextsHelpersExampleIsNull | scripts/suggest-test-blocks.mjs:145-150 | every helper's example value is `null`, since the record passed has no name or type field |
| SuggestBlocks.ContextWarnings | scripts/suggest-test-blocks.mjs:129-146 | one warning per provider that is not exported, carrying its name, in order |
| SuggestBlocks.EnrichKeepsIdentity | scripts/suggest-test-blocks.mjs:122-125 | enrichment changes only the value shape |
| SuggestBlocks.TruthyNames | scripts/suggest-test-blocks.mjs:112 | `.map(ctx => ctx.name).filter(Boolean)` keeps exactly the non-empty names present |
| SuggestBlocks.ApiCallsMocksSpec | scripts/suggest-test-blocks.mjs:605-627 | the API block mocks exactly the non-excluded sources of imports whose specifiers hold a call name or its part before '.', each once; the same set getAutoMocks picks with the call names as used names |
| SuggestBlocks.ServesIsUsed | scripts/suggest-test-blocks.mjs:612-619 | an import that serves a call has a specifier that getAutoMocks counts as used |
| SuggestBlocks.UsedApi | scripts/suggest-helpers.mjs:373-379 | a used specifier is a call name or the part before '.' of a dotted one |
| SuggestBlocks.FireEventOfHandler | scripts/suggest-test-blocks.mjs:735 | for a detected handler the fireEvent method is the rest of the name after "on", lowercased, and it starts with a lower-case letter |
| SuggestBlocks.HandlerExampleAlwaysJestFn | scripts/suggest-test-blocks.mjs:722 | every handler's example is `jest.fn()` |
| SuggestBlocks.MarkupHasMarker | scripts/suggest-helpers.mjs:169 | the children markup holds `data-testid="test-child"` |
| SuggestBlocks.ChildrenExpectsTestId | scripts/suggest-test-blocks.mjs:771-779 | a children prop without hints renders the marked child and gets the `getByTestId('test-child')` expectation |
| SuggestBlocks.OtherPropsExpectDefault | scripts/suggest-test-blocks.mjs:776-779 | any other prop keeps the generic expectation |
| LineScan.RunOf | scripts/jest-test-gen-helpers.mjs:725-747 | a greedy character-class run: every character up to the end satisfies the class and the one after does not |
| LineScan.RunOfExact | scripts/jest-test-gen-helpers.mjs:725-747 | any end with those two properties is the run's end |
| LineScan.LastQuote | scripts/jest-test-gen-helpers.mjs:497 | the quote found is the last quote in the window, and none means the window holds no quote |
| LineScan.Leftmost | scripts/jest-test-gen-helpers.mjs:497-538 | an unanchored match succeeds at some position, and fails only when it fails at every position |
| LineScan.LeftmostAt | scripts/jest-test-gen-helpers.mjs:497-538 | the match found is the one at the first position where the pattern matches |
| LineScan.LeftmostNone | scripts/jest-test-gen-helpers.mjs:497-538 | no position matching means no match |
| LineScan.NoRebaseBelow | scripts/jest-test-gen-helpers.mjs:715 | the `./` rewrite has no place to apply on a line where no quote opens `./` |
| LineScan.RebaseAtOf | scripts/jest-test-gen-helpers.mjs:715 | a quote opening `./` after `import ... from ` is a place where the rewrite applies |
| LineScan.TokensFrom | scripts/jest-test-gen-helpers.mjs:504-505 | splitting on runs of white space and commas and dropping empty pieces gives non-empty tokens free of both |
| GroupImports.AddAllMembers | scripts/jest-test-gen-helpers.mjs:730 | adding names to a Set holds exactly the old members and the added names |
| GroupImports.AddAllNoDup | scripts/jest-test-gen-helpers.mjs:730 | a Set never holds a member twice |
| GroupImports.AddEach | scripts/jest-test-gen-helpers.mjs:730 | the `forEach(add)` loop builds that Set, in insertion order |
| GroupImports.TrimAllIsMap | scripts/jest-test-gen-helpers.mjs:727 | the names of a braced list are its comma-separated pieces, each trimmed |
| GroupImports.Shapes | scripts/jest-test-gen-helpers.mjs:725-756 | one shape per line |
| GroupImports.ShapesAt | scripts/jest-test-gen-helpers.mjs:725-756 | each line's shape is the first of the named, default and namespace patterns that matches it, or none |
| GroupImports.GroupImports | scripts/jest-test-gen-helpers.mjs:711-790 | the result is the `./` rewrite of every line, the first pass over the rewritten lines and the second pass over the sorted keys |
| GroupImports.CollectEach | scripts/jest-test-gen-helpers.mjs:723-757 | the first pass fills the two maps line by line |
| GroupImports.CollectOne | scripts/jest-test-gen-helpers.mjs:724-756 | one line writes the Sets its shape names: named bindings, a default, a namespace binding, or an empty entry under the line itself |
| GroupImports.EmitEach | scripts/jest-test-gen-helpers.mjs:768-788 | the second pass emits each key's lines in key order |
| GroupImports.CollectShapeBindings | scripts/jest-test-gen-helpers.mjs:724-756 | a line changes the bindings and the defaults of its own key only |
| GroupImports.BindingsCollected | scripts/jest-test-gen-helpers.mjs:723-757 | a name is bound under a path exactly when some line of that path binds it |
| GroupImports.CollectedBound | scripts/jest-test-gen-helpers.mjs:723-757 | the bindings of a path are the names its lines bind, each once, in first-bound order |
| GroupImports.BoundBinds | scripts/jest-test-gen-helpers.mjs:723-757 | a name is in that list exactly when some line binds it |
| GroupImports.DefaultsCollected | scripts/jest-test-gen-helpers.mjs:735-744 | a default name is recorded for a path exactly when some line is `import name from "path"` |
| GroupImports.CollectedDefaults | scripts/jest-test-gen-helpers.mjs:735-744 | the defaults of a path are its default names, each once, in first-seen order |
| GroupImports.DefaultNamesSpec | scripts/jest-test-gen-helpers.mjs:735-744 | a name is among these exactly when some line imports it as the default of the path |
| GroupImports.CollectNoDup | scripts/jest-test-gen-helpers.mjs:723-757 | no Set holds a name twice |
| GroupImports.KeysCollected | scripts/jest-test-gen-helpers.mjs:723-764 | the key lists are exactly the keys of the maps; every default path is also a binding key; a key exists exactly when some line's path (or the line itself, when unmatched) is it |
| GroupImports.KeysInBoth | scripts/jest-test-gen-helpers.mjs:723-764 | the key lists and the maps agree after every line |
| GroupImports.KeysOfLines | scripts/jest-test-gen-helpers.mjs:723-757 | a binding key exists exactly when some line has that key |
| GroupImports.AllPathsOrdered | scripts/jest-test-gen-helpers.mjs:762-765 | the merged keys are sorted and have no repeats |
| GroupImports.AllPathsMembers | scripts/jest-test-gen-helpers.mjs:762-765 | a key is merged exactly when some line has it |
| GroupImports.NamedBindingsOfPath | scripts/jest-test-gen-helpers.mjs:774-786 | the named bindings printed for a path are sorted, have no repeats and are exactly the non-namespace names its lines bind |
| GroupImports.EmitPathLines | scripts/jest-test-gen-helpers.mjs:768-788 | a path gives at most one default or named line, then one `import * as X from "p";` line per namespace binding |
| GroupImports.EmitAllMembers | scripts/jest-test-gen-helpers.mjs:768-788 | a line is emitted exactly when some key emits it |
| GroupImports.UnmatchedKeptVerbatim | scripts/jest-test-gen-helpers.mjs:755-773 | a rewritten line of no known shape that starts with `import` is emitted as it is |
| GroupImports.FromClauseOf | scripts/jest-test-gen-helpers.mjs:725 | ` from "p"` is read as the path p |
| GroupImports.NamedShapeOf | scripts/jest-test-gen-helpers.mjs:725 | `import { J } from "p"` matches the named pattern with the inner text ` J ` |
| GroupImports.NamedShapeAt | scripts/jest-test-gen-helpers.mjs:725-733 | and is read as a named import |
| GroupImports.NamedLineReparses | scripts/jest-test-gen-helpers.mjs:786 | an emitted named line reads back as the named import of the same names and path |
| GroupImports.NamesReparse | scripts/jest-test-gen-helpers.mjs:727 | names joined by ", " split and trim back into the names |
| GroupImports.DefaultLineReparses | scripts/jest-test-gen-helpers.mjs:784 | an emitted default line with one identifier reads back as that default import |
| GroupImports.DefaultShapeAt | scripts/jest-test-gen-helpers.mjs:735 | `import d from "p"` is a default import |
| GroupImports.StarLineReparses | scripts/jest-test-gen-helpers.mjs:788 | an emitted namespace line reads back as the namespace import of the alias |
| GroupImports.StarShapeOf | scripts/jest-test-gen-helpers.mjs:747 | `import * as X from "p"` matches the namespace pattern |
| GroupImports.StarShapeAt | scripts/jest-test-gen-helpers.mjs:725-750 | and is read as a namespace import, the other two patterns failing |
| GroupImports.ListedShapeUnmatched | scripts/jest-test-gen-helpers.mjs:725-756 | a line whose identifier after `import ` is followed by '{' or ',' matches none of the three patterns |
| GroupImports.MixedLineUnmatched | scripts/jest-test-gen-helpers.mjs:781-782 | so the emitted `import D{ n } from "p";` line matches none of them when read again |
| GroupImports.LastRebaseIs | scripts/jest-test-gen-helpers.mjs:715 | the greedy rewrite applies at the last place it can |
| GroupImports.RebaseRelativePath | scripts/jest-test-gen-helpers.mjs:715 | `import x from "./r"` becomes `import x from "../r"` |
| GroupImports.RebaseKeeps | scripts/jest-test-gen-helpers.mjs:715 | a line where no quote opens `./` is not changed |
| KeyedChoice.ChooseAllSnoc | scripts/jest-test-gen-helpers.mjs:689-704 | visiting one more entry is one more step of the keyed choice |
| KeyedChoice.Values | scripts/jest-test-gen-helpers.mjs:705 | `Object.values` lists the stored item of each key, in key order |
| KeyedChoice.AmongMembers | scripts/jest-test-gen-helpers.mjs:689-704 | the items visited under a key are exactly the entries with that key |
| KeyedChoice.Prefer | scripts/jest-test-gen-helpers.mjs:689-704 | a key holds an item exactly when some item was visited under it |
| KeyedChoice.ChooseAllKeys | scripts/jest-test-gen-helpers.mjs:689-705 | the object's keys are the distinct keys of the entries in first-seen order, and exactly the keys it holds |
| KeyedChoice.ChooseAllPick | scripts/jest-test-gen-helpers.mjs:689-704 | the item stored under a key is the preferred one among the items visited under it |
| KeyedChoice.ValuesOfChoice | scripts/jest-test-gen-helpers.mjs:689-705 | the values are one per distinct key, in first-seen order, each the preferred item of its key |
| KeyedChoice.PreferMember | scripts/jest-test-gen-helpers.mjs:689-704 | the preferred item is one of the visited ones |
| KeyedChoice.PreferWithoutOverwrite | scripts/jest-test-gen-helpers.mjs:192-200 | without overwrites the first better item is kept, or the first item when none is better |
| KeyedChoice.PreferAllOverwrite | scripts/jest-test-gen-helpers.mjs:701-703 | when every item overwrites, the last one is kept |
| GroupMocks.MockEntriesKeys | scripts/jest-test-gen-helpers.mjs:684-703 | the keys visited are the module names of the blocks, or 'others' for an unrecognised block |
| GroupMocks.MockEntriesAmong | scripts/jest-test-gen-helpers.mjs:684-703 | the blocks visited under a key are the non-empty blocks with that key, in order |
| GroupMocks.ModuleBlocksMembers | scripts/jest-test-gen-helpers.mjs:684-703 | a block is among them exactly when it is a non-empty input block with that key |
| GroupMocks.MockKeysMembers | scripts/jest-test-gen-helpers.mjs:684-703 | a key is visited exactly when some non-empty block has it |
| GroupMocks.MockKeysBy | scripts/jest-test-gen-helpers.mjs:684-703 | the keys are those of the non-empty blocks, in order |
| GroupMocks.KeysByMember | scripts/jest-test-gen-helpers.mjs:684-703 | a key is listed exactly when some non-empty block has it |
| GroupMocks.GroupedMocksKeys | scripts/jest-test-gen-helpers.mjs:678-708 | one block per distinct key, in first-seen order, each an input block with its key; every non-empty input block's key is represented |
| GroupMocks.GroupedMockOfModule | scripts/jest-test-gen-helpers.mjs:687-697 | for a module, the kept block is the first factory mock of that module, or its first mock when none has a factory |
| GroupMocks.GroupedMockOthers | scripts/jest-test-gen-helpers.mjs:698-701 | for the 'others' slot, the kept block is the last unrecognised block |
| GroupMocks.GroupMockBlocks | scripts/jest-test-gen-helpers.mjs:678-708 | the loop over the blocks computes the grouping above |
| GroupMocks.GlobalEntriesAmong | scripts/jest-test-gen-helpers.mjs:188-199 | the mocks visited under a module are the `useParamsMockObj` of the blocks with that type, in order |
| GroupMocks.TypeMocksOfType | scripts/jest-test-gen-helpers.mjs:188-199 | every one of them has that type |
| GroupMocks.GlobalMocksTypes | scripts/jest-test-gen-helpers.mjs:185-216 | one mock per distinct module type |
| GroupMocks.GlobalMockOfType | scripts/jest-test-gen-helpers.mjs:192-199 | for each module, the first extended mock, or the first mock when none is extended |
| GroupMocks.NoGlobalMocks | scripts/jest-test-gen-helpers.mjs:185-216 | when no block carries a `useParamsMockObj` the text is "" |
| GroupMocks.GlobalMockTextShape | scripts/jest-test-gen-helpers.mjs:203-215 | the text is "" exactly when no kept mock has code, and otherwise ends with '\n' |
| GroupMocks.AllGlobalMockLines | scripts/jest-test-gen-helpers.mjs:185-216 | the result is the trimmed codes of the kept mocks joined by blank lines, plus '\n' |
| GroupMocks.PrefixedSplit | scripts/jest-test-gen-helpers.mjs:174 | lines each prefixed by '\n' split back into an empty line and the lines |
| GroupMocks.AllMockLinesSpec | scripts/jest-test-gen-helpers.mjs:166-182 | the mock lines printed are the non-empty helper mock lines, each once, in first-seen order, one per line |
| GroupMocks.DistinctTruthySnoc | scripts/jest-test-gen-helpers.mjs:173-176 | one more line is added exactly when it is non-empty and new |
| GroupMocks.AllMockLines | scripts/jest-test-gen-helpers.mjs:166-182 | the loop appends `\n<line>` for each such line |
| GroupMocks.BlockMockStep | scripts/jest-test-gen-helpers.mjs:169-179 | one block's helpers extend the text and the Set by its new mock lines |
| GroupMocks.HelperMockLines | scripts/jest-test-gen-helpers.mjs:171-178 | the inner loop over one block's helpers does the same, helper by helper |
| MergeMocks.CloseFrom | scripts/jest-test-gen-helpers.mjs:544-548 | the inner loop stops at the first line from j on whose trim ends in `}));`, or at the end of the lines |
| MergeMocks.BlockAt | scripts/jest-test-gen-helpers.mjs:533-558 | a plain mock takes its own line; an extended one (`=> ({`) also takes the following lines up to and including the first that closes it, or to the end |
| MergeMocks.Span | scripts/jest-test-gen-helpers.mjs:566 | the indices a block marks consumed are exactly those it covers |
| MergeMocks.ScanMocks | scripts/jest-test-gen-helpers.mjs:531-569 | the `while` loop leaves the sorted mock codes of the per-module choice and consumes exactly the lines of the blocks read |
| MergeMocks.TakeBlock | scripts/jest-test-gen-helpers.mjs:534-566 | reading one block advances the scan by that block and updates the choice and the consumed indices accordingly |
| MergeMocks.StoreMock | scripts/jest-test-gen-helpers.mjs:559-564 | a module's first block is stored, and a later one replaces it only when it is extended and the stored one is not |
| MergeMocks.ScannedSnoc | scripts/jest-test-gen-helpers.mjs:559-566 | one more block adds its span to the consumed indices and, when its module is known, one step to the choice |
| MergeMocks.ReadBlock | scripts/jest-test-gen-helpers.mjs:534-558 | reading from a `jest.mock(` line yields that line's block and leaves the index on its last line |
| MergeMocks.Absorb | scripts/jest-test-gen-helpers.mjs:542-553 | the block holds the lines from the opening one up to and including the closing one |
| MergeMocks.ScanFromAfter | scripts/jest-test-gen-helpers.mjs:531-569 | blocks read from i start at i or later |
| MergeMocks.ScanFromWellRead | scripts/jest-test-gen-helpers.mjs:531-569 | every block read starts on a `jest.mock(` line and is the block of that line |
| MergeMocks.ScanFromOrdered | scripts/jest-test-gen-helpers.mjs:531-569 | blocks read do not overlap and come in line order |
| MergeMocks.ConsumedMembers | scripts/jest-test-gen-helpers.mjs:566 | an index is consumed exactly when some block read covers it |
| MergeMocks.MergedMocksPerModule | scripts/jest-test-gen-helpers.mjs:571-574 | one mock per distinct module, sorted |
| MergeMocks.MockEntriesAmong | scripts/jest-test-gen-helpers.mjs:559-564 | the blocks visited under a module are that module's blocks, in order |
| MergeMocks.KeptMockOfModule | scripts/jest-test-gen-helpers.mjs:559-574 | a module keeps its first extended block, or its first block when none is extended, and that block is printed |
| MergeMocks.KeptMockChoice | scripts/jest-test-gen-helpers.mjs:559-564 | the choice over the blocks read keeps, for each module, that block |
| MergeMocks.KeptMockListed | scripts/jest-test-gen-helpers.mjs:571-574 | every kept block is among the sorted codes |
| MergeMocks.OtherLines | scripts/jest-test-gen-helpers.mjs:577-586 | the loop collects the remaining lines |
| MergeMocks.CandidatesMembers | scripts/jest-test-gen-helpers.mjs:579 | a line is a candidate exactly when it is neither an import nor a mock line and its index was not consumed |
| MergeMocks.OthersSpec | scripts/jest-test-gen-helpers.mjs:577-586 | the other lines are those candidates, each once, in first-seen order |
| ImportReparse.IdentifierTrimmed | scripts/jest-test-gen-helpers.mjs:505 | an identifier is unchanged by trim |
| ImportReparse.AddAllFresh | scripts/jest-test-gen-helpers.mjs:505 | adding names that are all new to a Set appends them in order |
| ImportReparse.GreedyPathOf | scripts/jest-test-gen-helpers.mjs:497 | on a line `... from "p";` with no quote before `from`, the greedy path match reads p |
| ImportReparse.BracedNamesNone | scripts/jest-test-gen-helpers.mjs:502 | a line without '{' has no braced names |
| ImportReparse.NamedLineBraced | scripts/jest-test-gen-helpers.mjs:502 | the braced names of `import { n1, n2 } from "p";` are ` n1, n2 ` |
| ImportReparse.DefaultLineBinding | scripts/jest-test-gen-helpers.mjs:507 | `import d from "p";` has the bare binding d |
| ImportReparse.StarLineNoBinding | scripts/jest-test-gen-helpers.mjs:507 | `import * as X from "p";` has no bare binding, since `*` is followed by a space, whenever `import` does not occur in X or p |
| ImportReparse.StarLineBinding | scripts/jest-test-gen-helpers.mjs:507 | for every identifier X, the line is read as the namespace binding `* as X` |
| ImportReparse.StarLineScans | scripts/jest-test-gen-helpers.mjs:495-510 | how a namespace line emitted by groupImports is read: its path, no braced names, the `* as X` binding, whenever `import` does not occur in X or p |
| ImportReparse.DefaultLineScans | scripts/jest-test-gen-helpers.mjs:495-510 | how a default line emitted by groupImports is read: its path, no braced names, the default name |
| MergeImports.RebuildImports | scripts/jest-test-gen-helpers.mjs:492-527 | step (a) of the merge: the rebuilt, sorted import lines, one per path. With `corrected` false they are the lines the source computes (Findings A and B); with `corrected` true, the corrected reading and rebuild |
| MergeImports.CollectEachRead | scripts/jest-test-gen-helpers.mjs:493-511 | the first `forEach` fills `importByPath` exactly as the reads of the lines, folded in order, define it, for the reader as written or the corrected one as `corrected` selects |
| MergeImports.CollectOneRead | scripts/jest-test-gen-helpers.mjs:494-510 | one line of that `forEach`: a new path gets an empty Set and joins the key order; its names are added to that Set. The record of bare bindings, which only the corrected rebuild reads, stays empty for reads as written |
| MergeImports.RebuildEach | scripts/jest-test-gen-helpers.mjs:515-526 | the `Object.entries(...).map(...)`: one rebuilt line per key, in insertion order, from the sorted Set, with the rebuild as written or the corrected one as `corrected` selects |
| MergeImports.CollectReadsKeys | scripts/jest-test-gen-helpers.mjs:497-499 | the keys of `importByPath` are the distinct paths of the import lines in first-seen order, and exactly the keys have a Set |
| MergeImports.CollectReadsNames | scripts/jest-test-gen-helpers.mjs:499-508 | the Set of a path has no repeats and holds a name exactly when some import line of that path binds it |
| MergeImports.CollectReadsBare | scripts/jest-test-gen-helpers.mjs:504-508 | the names of a path bound outside braces are exactly those some line of that path binds without braces |
| MergeImports.RebuildAllAt | scripts/jest-test-gen-helpers.mjs:515-526 | the k-th rebuilt line is the rebuild of the k-th key from its sorted Set |
| MergeImports.MergedWithSpec | scripts/jest-test-gen-helpers.mjs:515-527 | for any reader and rebuild: the result is sorted, has one line per distinct path, and holds the rebuild of every path that appears |
| MergeImports.MergedImportsSpec | scripts/jest-test-gen-helpers.mjs:515-527 | the same for the corrected reading and rebuild used by the rest of the model |
| MergeImports.SingleBindingAsWritten | scripts/jest-test-gen-helpers.mjs:517-519 | as written, a path whose Set holds one name without `*` is always rebuilt as a default import, whatever line bound it |
| MergeImports.MergedOne | scripts/jest-test-gen-helpers.mjs:492-527 | a lone import line with a path is merged into exactly the rebuild of its own read |
| MergeImports.NamedLineReads | scripts/jest-test-gen-helpers.mjs:497-503 | a braced line `import { a, b } from "p";` is read, both as written and corrected, as path p, names a, b, bound in braces |
| MergeImports.DefaultLineReads | scripts/jest-test-gen-helpers.mjs:497-508 | `import d from "p";` is read, both ways, as path p, the bare name d |
| MergeImports.StarLineReads | scripts/jest-test-gen-helpers.mjs:497-508 | `import * as X from "p";` is read as written with no name at all, and corrected with the name `* as X`, whenever `import` does not occur in X or p |
| MergeImports.SingleNamedAsWritten | scripts/jest-test-gen-helpers.mjs:517-519 | as written, `import { a } from "p";` alone is merged into `import a from "p";`, a different line (Finding A) |
| MergeImports.StarAsWritten | scripts/jest-test-gen-helpers.mjs:505-525 | as written, `import * as X from "p";` alone is merged into `import {  } from "p";`, a different line (Finding B), whenever `import` does not occur in X or p |
| MergeImports.MergedNamedLine | scripts/jest-test-gen-helpers.mjs:515-527 | corrected: a braced line with distinct names merges into the braced line of its sorted names, and into itself when they are sorted |
| MergeImports.MergedDefaultLine | scripts/jest-test-gen-helpers.mjs:515-527 | corrected: a default line merges into itself |
| MergeImports.MergedStarLine | scripts/jest-test-gen-helpers.mjs:515-527 | corrected: a namespace line merges into itself, whenever `import` does not occur in X or p |
| MergeLines.GroupHelper | scripts/jest-test-gen-helpers.mjs:612-675 | groupHelper returns the grouped imports, grouped mocks and sorted testing-library lines, each present group with a newline, cut into trimmed lines each kept once and non-empty |
| MergeLines.AppendSection | scripts/jest-test-gen-helpers.mjs:636 | a present group is appended as its lines joined by newlines plus a final newline |
| MergeLines.KeptPiecesDistinct | scripts/jest-test-gen-helpers.mjs:667-670 | the `indexOf(line) === idx` filter keeps the first occurrence of each trimmed piece, in order, dropping the empty one |
| MergeLines.KeptPiecesSpec | scripts/jest-test-gen-helpers.mjs:667-670 | the kept lines have no repeats, are non-empty, trimmed and newline-free, and a line is kept exactly when it is a non-empty trimmed piece |
| MergeLines.CleanupSplits | scripts/jest-test-gen-helpers.mjs:667-671 | the cleaned text splits back into the kept lines and a final empty piece, and is a lone newline when nothing is kept |
| MergeLines.GroupedLinesLayout | scripts/jest-test-gen-helpers.mjs:620-671 | the kept lines are those of the import group, then the mock group, then the sorted testing-library group, trimmed, once each, non-empty |
| MergeLines.CleanupRereads | scripts/jest-test-gen-helpers.mjs:476-477 | reading groupHelper's text back with `split(/\r?\n/)`, trim and `filter(Boolean)` gives exactly the kept lines |
| MergeLines.MergeLinesHelper | scripts/jest-test-gen-helpers.mjs:469-594 | mergeLinesHelper returns the merged imports, then the merged mocks, then the other lines, joined with newlines and a final newline. With `corrected` false the imports are merged as the source does; with `corrected` true, as Findings A and B correct it |
| MergeLines.InputLinesOrder | scripts/jest-test-gen-helpers.mjs:476-489 | `allLines` starts with the original lines, and every later line is a merged line not among the original ones |
| MergeLines.InputLinesMembers | scripts/jest-test-gen-helpers.mjs:476-489 | a line is in `allLines` exactly when it is an original line or a merged line |
| MergeLines.InputLinesClean | scripts/jest-test-gen-helpers.mjs:476-477 | every line of `allLines` is non-empty and trimmed |
| MergeLines.OriginalLineKept | scripts/jest-test-gen-helpers.mjs:576-586 | the other lines have no repeats, and an original line that is not an import, not a mock and not consumed by a mock is among them |
| MergeLines.MergeLines | scripts/jest-test-gen-helpers.mjs:447-466 | mergeLines is mergeLinesHelper of the content and groupHelper's text, with the same choice of the import merge as written or corrected |
| MergeLines.MergedLinesInput | scripts/jest-test-gen-helpers.mjs:456-489 | the merge input is the content's lines followed by groupHelper's kept lines that the content does not already have |
| CleanBlocks.CodeHead | scripts/jest-test-gen-helpers.mjs:414 | `(code \|\| '').slice(0, 40)` is a prefix of the code, of length 40 or the whole code when shorter |
| CleanBlocks.CleanSuggestedTestBlocks | scripts/jest-test-gen-helpers.mjs:395-443 | cleanSuggestedTestBlocks returns, in order, every block without meta and every other block whose key was not seen before, with its context helpers reduced |
| CleanBlocks.UniqueHelpersSpec | scripts/jest-test-gen-helpers.mjs:407-410 | the helpers kept have distinct import lines, one for each import line of the input in first-seen order, each the first helper with that line |
| CleanBlocks.UniqueHelpersIdempotent | scripts/jest-test-gen-helpers.mjs:407-410 | reducing the reduced helpers changes nothing |
| CleanBlocks.CleanedStable | scripts/jest-test-gen-helpers.mjs:406-414 | reducing a block's helpers keeps its key, and reducing twice is reducing once |
| CleanBlocks.CleanedKeys | scripts/jest-test-gen-helpers.mjs:396-440 | the keys of the kept blocks are the distinct keys of the input, in first-seen order |
| CleanBlocks.CleanedKeysDistinct | scripts/jest-test-gen-helpers.mjs:415-439 | no two kept blocks share a key |
| CleanBlocks.NoMetaKept | scripts/jest-test-gen-helpers.mjs:400-403 | a block without meta is always kept, unchanged |
| CleanBlocks.CleanedIdempotent | scripts/jest-test-gen-helpers.mjs:395-443 | cleaning the cleaned blocks gives them back |
| Skeleton.OpenerFlushes | scripts/jest-test-gen-helpers.mjs:324-331 | a line that opens an import, or a mock outside an import, first pushes the pending block, so the step is the one from the flushed state |
| Skeleton.ImportSegmentRuns | scripts/jest-test-gen-helpers.mjs:324-341 | from a state with no pending block, the loop run over an import block's lines pushes exactly that segment of the input as one import block |
| Skeleton.MockSegmentRuns | scripts/jest-test-gen-helpers.mjs:343-365 | from a state with no pending block, the loop run over a mock block's lines pushes exactly that segment as one mock block |
| Skeleton.FoldSegments | scripts/jest-test-gen-helpers.mjs:321-371 | the loop and the final flush, from any closed state, append the import segments and the mock segments of the remaining lines |
| Skeleton.GroupedIsSegments | scripts/jest-test-gen-helpers.mjs:321-371 | the blocks the loop pushes are exactly the segments of the input: each opening line starts a block, and lines between blocks are dropped |
| Skeleton.ImportBlockCount | scripts/jest-test-gen-helpers.mjs:324-333 | there is one import block per line whose trim starts with `import ` |
| Skeleton.ImportBlocksShaped | scripts/jest-test-gen-helpers.mjs:324-341 | every import block starts with an import line, holds no other import line, and only its last line can end the statement |
| Skeleton.MockBlocksShaped | scripts/jest-test-gen-helpers.mjs:343-365 | every mock block starts with a `jest.mock(` line that is not an import, holds no other opening line, and only its last line can end in `);` |
| Skeleton.FlushBlock | scripts/jest-test-gen-helpers.mjs:325-331 | the flush of the loop's variables mirrors the flush of the abstract state |
| Skeleton.OpenImportBlock | scripts/jest-test-gen-helpers.mjs:324-333 | opening an import block: flush, start the block with the line, and close it at once exactly when `closes` holds. GroupLine passes `closes` false as the source does, or, with `selfClosing`, whether the line ends the statement (Finding C) |
| Skeleton.OpenMockBlock | scripts/jest-test-gen-helpers.mjs:343-357 | opening a mock block: flush, start the block with the line, close it at once when the line ends in `);` |
| Skeleton.GroupLine | scripts/jest-test-gen-helpers.mjs:321-366 | one iteration of the loop on the variables mirrors one step of the abstract automaton, as written when `selfClosing` is false and corrected when it is true |
| Skeleton.NormalizeSkeleton | scripts/jest-test-gen-helpers.mjs:292-389 | the returned Sets are the distinct import and mock blocks of the skeleton, and the clean skeleton is the import blocks then the mock blocks joined by blank lines. With `selfClosing` false the blocks are those the source builds (Finding C); with `selfClosing` true, the corrected ones |
| Skeleton.MockSwallowedAsWritten | scripts/jest-test-gen-helpers.mjs:324-341 | as written, a one-line import followed by a one-line `jest.mock(...);` gives one import block holding both lines and no mock block (Finding C) |
| Skeleton.MockKept | scripts/jest-test-gen-helpers.mjs:324-357 | corrected, the same two lines give an import block and a mock block |
| Skeleton.SampleLines | scripts/jest-test-gen-helpers.mjs:324-358 | `import A from "../A";` and `jest.mock("../A");` meet the conditions of the two lemmas above |
| ImportCleanup.StripAppend | scripts/jest-test-gen-helpers.mjs:301-319 | dropping separators distributes over concatenation |
| ImportCleanup.WordsAreWords | scripts/jest-test-gen-helpers.mjs:308-311 | every piece of `split(/[\s,]+/)` kept by `filter(Boolean)` is non-empty and holds no white space or comma |
| ImportCleanup.WordsStrip | scripts/jest-test-gen-helpers.mjs:308-311 | the pieces, concatenated, are the text without its white space and commas |
| ImportCleanup.WordsOfJoin | scripts/jest-test-gen-helpers.mjs:308-312 | splitting the `, `-joined pieces again gives the same pieces |
| ImportCleanup.BraceGroup | scripts/jest-test-gen-helpers.mjs:306 | `/\{([^}]*)\}/` finds the first `{` and the first `}` after it |
| ImportCleanup.DropOpenCommasStrip | scripts/jest-test-gen-helpers.mjs:316 | `.replace(/\{\s*,/g, '{')` changes only white space and commas |
| ImportCleanup.DropCloseCommasStrip | scripts/jest-test-gen-helpers.mjs:316 | `.replace(/,\s*\}/g, ' }')` changes only white space and commas |
| ImportCleanup.TidyBracesStrip | scripts/jest-test-gen-helpers.mjs:306-314 | rewriting the first brace group changes only white space and commas |
| ImportCleanup.CleanImportBlockStrip | scripts/jest-test-gen-helpers.mjs:301-319 | cleanImportBlock keeps every character of the joined block other than white space and commas, in order |
| ImportCleanup.TidyBracesForm | scripts/jest-test-gen-helpers.mjs:306-314 | the rewritten group is `{ ` + the pieces joined by `, ` + ` }`, and those pieces read back unchanged |
| IntegratedFile.EmittedLines | scripts/jest-test-gen-helpers.mjs:246-250 | one import line per path, in path order, each the braced import of that path's sorted names |
| IntegratedFile.NamesAtMembers | scripts/jest-test-gen-helpers.mjs:234-240 | the names gathered for a path are exactly those paired with it |
| IntegratedFile.GatherStep | scripts/jest-test-gen-helpers.mjs:238-239 | adding a name to the Set of its path, creating the Set when the path is new, keeps the map in step with the pairs visited |
| IntegratedFile.AddName | scripts/jest-test-gen-helpers.mjs:237-240 | one helper's name and path update `contextImportsMap` as the pairs so far define it |
| IntegratedFile.GatherHelpers | scripts/jest-test-gen-helpers.mjs:234-241 | one block's helpers add exactly their named, pathed pairs, in order |
| IntegratedFile.AllImportLines | scripts/jest-test-gen-helpers.mjs:228-252 | allImportLines returns `\n` + line for each path's braced import, in first-seen path order |
| IntegratedFile.EmitImports | scripts/jest-test-gen-helpers.mjs:246-250 | the second loop prints the import line of each key in key order |
| IntegratedFile.HelperPairsMembers | scripts/jest-test-gen-helpers.mjs:235-237 | a pair is gathered from a block's helpers exactly when some helper has that non-empty context name and non-empty path |
| IntegratedFile.PairsMembers | scripts/jest-test-gen-helpers.mjs:232-243 | a pair is gathered exactly when some block's helpers give it |
| IntegratedFile.ImportPathsSpec | scripts/jest-test-gen-helpers.mjs:238-250 | the paths have no repeats, one import line each, and a path has a line exactly when some pair names it |
| IntegratedFile.ImportNamesSpec | scripts/jest-test-gen-helpers.mjs:238-247 | a path's names are sorted, without repeats, and exactly those paired with it |
| IntegratedFile.ImportLineReparses | scripts/jest-test-gen-helpers.mjs:248 | groupImports reads an emitted line back as a named import of the path with the sorted names |
| IntegratedFile.ImportLineClean | scripts/jest-test-gen-helpers.mjs:248 | an emitted line is non-empty, trimmed and holds no newline |
| IntegratedFile.ImportLinesDistinct | scripts/jest-test-gen-helpers.mjs:246-250 | no two emitted import lines are equal |
| IntegratedFile.AddedOfPrefixed | scripts/jest-test-gen-helpers.mjs:48-50 | reading clean distinct lines back from their `\n`-prefixed text gives those lines |
| IntegratedFile.ImportLinesReadBack | scripts/jest-test-gen-helpers.mjs:46-50 | `linesAdded.importedLines` is exactly the list of emitted import lines |
| IntegratedFile.AllLibraryLines | scripts/jest-test-gen-helpers.mjs:255-270 | allLibraryLines prints the Testing Library import exactly when some block uses the library, and nothing otherwise |
| IntegratedFile.NeedsTestingLibrary | scripts/jest-test-gen-helpers.mjs:257-263 | the flag is set exactly when some block's meta has a truthy `usesTestingLibrary` |
| IntegratedFile.LibraryLinesReadBack | scripts/jest-test-gen-helpers.mjs:62-65 | `linesAdded.testingLibraryLines` holds the import exactly when some block uses the library |
| IntegratedFile.OneLineReadBack | scripts/jest-test-gen-helpers.mjs:63-65 | one clean line after a newline is read back as that line |
| IntegratedFile.AllBlockLines | scripts/jest-test-gen-helpers.mjs:219-225 | allBlockLines appends `\n` + code + `\n` for each block, in order |
| IntegratedFile.BlockTextJoin | scripts/jest-test-gen-helpers.mjs:219-225 | for a non-empty list the text is the codes joined by blank lines, between newlines |
| IntegratedFile.BlockTextContains | scripts/jest-test-gen-helpers.mjs:221-223 | every block's code appears on lines of its own |
| IntegratedFile.AddTrimmedLines | scripts/jest-test-gen-helpers.mjs:48-50 | `split('\n')` then `if (line.trim()) Set.add(line.trim())` gives the distinct non-empty trimmed lines in order |
| JsText.TrimmedSnoc | scripts/jest-test-gen-helpers.mjs:49 | one line adds its trim exactly when the trim is non-empty |
| IntegratedFile.CreateIntegratedTestFile | scripts/jest-test-gen-helpers.mjs:21-99 | the written content is the merged lines of the trimmed file, the merge marker, the header, and the cleaned blocks' code. With `corrected` false the import merge is the one the source runs; with `corrected` true, the corrected one |
| IntegratedFile.CollectAdded | scripts/jest-test-gen-helpers.mjs:38-70 | `linesAdded` holds the read-back import, mock and library lines and the one global-mock text |
| IntegratedFile.IntegratedTail | scripts/jest-test-gen-helpers.mjs:82-87 | the written file ends with the header followed by the code of every kept block, in order, separated by blank lines |
| IntegratedFile.IntegratedHead | scripts/jest-test-gen-helpers.mjs:74-82 | the written file starts with the merged lines and the merge marker |
| IntegratedFile.IntegratedBlocks | scripts/jest-test-gen-helpers.mjs:87 | the code of every kept block appears in the file on lines of its own |
| IntegratedFile.IntegratedAdded | scripts/jest-test-gen-helpers.mjs:35-65 | after cleaning, the imported lines are the emitted import lines and the library lines are the import exactly when a kept block uses the library |
| FinalCleanup.MarkerIndex | scripts/clean-final-test.mjs:100-106 | the index found is the first line holding the renderTree marker, and none is found only when no line holds it |
| FinalCleanup.CleanBasicTest | scripts/clean-final-test.mjs:93-120 | cleanBasicTest writes the lines before the first marker line, joined by newlines, or leaves the file unchanged when no line has the marker |
| FinalCleanup.BasicTestKeepsHeader | scripts/clean-final-test.mjs:100-115 | with a marker at line k the result is the first k lines (empty when k is 0), and none of them holds the marker |
| FinalCleanup.BasicTestUnchanged | scripts/clean-final-test.mjs:108-113 | a file without the marker is left as it is |
| FinalCleanup.BasicTestIdempotent | scripts/clean-final-test.mjs:93-120 | cleaning a cleaned file changes nothing |
| FinalCleanup.OutLines | scripts/clean-final-test.mjs:49-64 | one output line per input line, each the line or its marked repeat |
| FinalCleanup.CollectHeader | scripts/clean-final-test.mjs:35-43 | the header is the distinct non-empty trimmed Testing Library lines in order, and the Set holds exactly them |
| FinalCleanup.SeenStep | scripts/clean-final-test.mjs:50-63 | a tracked line already seen is pushed with the `//cleanFinal A BORRAR! ` mark, any other line as it is, and a tracked line joins the seen Set |
| FinalCleanup.CleanFinalTest | scripts/clean-final-test.mjs:22-75 | cleanFinalTest writes the header lines then every line of the file, each repeat of a tracked line marked |
| FinalCleanup.FinalLayout | scripts/clean-final-test.mjs:35-64 | the output is the header followed by one line per input line, and the header is trimmed, non-empty, distinct and holds exactly the trimmed library lines |
| FinalCleanup.UntrackedKept | scripts/clean-final-test.mjs:52-63 | a line whose trim is not an added line is written unchanged |
| FinalCleanup.FirstOccurrenceKept | scripts/clean-final-test.mjs:52-63 | the first line with a given trim that is not a header line is written unchanged |
| FinalCleanup.RepeatMarked | scripts/clean-final-test.mjs:52-60 | a tracked line is marked when an earlier line has the same trim or the header already holds it |
| FinalCleanup.AtMostOneUnmarked | scripts/clean-final-test.mjs:46-63 | of two lines with the same tracked trim, the later one is marked, and the earlier one too when the header holds it |
| FinalCleanup.CleanInputUnchanged | scripts/clean-final-test.mjs:49-64 | a file without a repeat of a tracked line, none of them in the header, comes out line for line as it went in |
| JsText.Lower | scripts/suggest-helpers.mjs:130-132 | `toLowerCase()` keeps the length and lowers each ASCII letter, position by position |
| JsText.IndexOfStr | scripts/suggest-helpers.mjs:188-202 | `indexOf`/`includes` on text: absent exactly when p occurs nowhere, and otherwise a position where p occurs |
| JsText.IndexOfChar | scripts/jest-test-gen-helpers.mjs:306 | the first position of a character, absent exactly when it does not occur |
| JsText.NotContainsByFirst | scripts/suggest-helpers.mjs:188-202 | text in which p's first character never starts a window of p's length does not contain p |
| JsText.TrimStartSpec | scripts/jest-test-gen-helpers.mjs:29 | trimming the start drops exactly a white-space prefix and stops at a non-space |
| JsText.TrimEndSpec | scripts/jest-test-gen-helpers.mjs:29 | `trimEnd()` drops exactly a white-space suffix and stops at a non-space |
| JsText.TrimIsTrimmed | scripts/jest-test-gen-helpers.mjs:322 | `trim()` returns a slice of its input with no white space at either end |
| JsText.TrimIdempotent | scripts/jest-test-gen-helpers.mjs:667-670 | trimming a trimmed line changes nothing |
| JsText.Split | scripts/jest-test-gen-helpers.mjs:295 | `split('\n')` gives at least one piece, no piece holds the separator, and joining the pieces gives the text back |
| JsText.SplitJoin | scripts/jest-test-gen-helpers.mjs:667-671 | splitting a join on a separator no piece holds gives the pieces back |
| JsText.TrimmedCrLfLines | scripts/jest-test-gen-helpers.mjs:476-477 | `split(/\r?\n/)` then `trim()` gives the same lines as `split('\n')` then `trim()` |
| JsText.TrimmedNonEmptyAreTrimmed | scripts/jest-test-gen-helpers.mjs:476-477 | `.map(l => l.trim()).filter(Boolean)` keeps only non-empty trimmed lines |
| JsText.DistinctMembers | scripts/jest-test-gen-helpers.mjs:624-629 | `Array.from(new Set(xs))` holds exactly the elements of xs |
| JsText.DistinctNoDup | scripts/jest-test-gen-helpers.mjs:624-629 | and holds each of them once |
| JsText.DistinctFirstSeen | scripts/jest-test-gen-helpers.mjs:624-629 | and lists them in first-insertion order |
| JsText.FirstOccurrencesIsDistinct | scripts/jest-test-gen-helpers.mjs:670 | the `arr.indexOf(line) === idx` filter gives the same list as the Set round trip |
| JsText.DedupByKeys | scripts/jest-test-gen-helpers.mjs:407-410 | the `findIndex(...) === i` filter keeps one element per key, and the survivors' keys are the distinct keys in first-seen order |
| JsText.DedupByFirst | scripts/jest-test-gen-helpers.mjs:407-410 | every survivor is the first element with its key |
| JsText.FilterSubsequence | scripts/analyze-ast-helper.mjs:1181-1189 | `.filter(...)` keeps a subsequence of its input, in input order |
| JsText.FilterCounts | scripts/analyze-ast-helper.mjs:1181-1189 | `.filter(...)` keeps every element that passes the test as often as it occurs, and no other element |
| JsText.FindIndex | scripts/jest-test-gen-helpers.mjs:409 | `findIndex` gives the first index whose element satisfies the test, and none only when no element does |
| JsText.LessTotal | scripts/jest-test-gen-helpers.mjs:517 | the default sort order on strings is total |
| JsText.Sort | scripts/jest-test-gen-helpers.mjs:517 | `.sort()` returns a sorted permutation of its input |
| JsText.SortNoDup | scripts/jest-test-gen-helpers.mjs:517 | sorting a list without repeats gives a list without repeats |
| JsText.SortedUnique | scripts/jest-test-gen-helpers.mjs:527 | two sorted orderings of the same elements are equal, so the sort ignores input order |
| JsText.NatToString | scripts/suggest-helpers.mjs:137-143 | the decimal rendering of a number is a non-empty string of digits |
| JsText.JsonString | scripts/suggest-helpers.mjs:137-143 | `JSON.stringify` of a string is a double-quoted literal |

## Left out

- Babel parsing and traversal: the parser and `traverse` are foreign libraries. A traversal is a sequence of `AstNodes.Event` values in visit order, and how Babel orders its visits is not modelled.
- `astNameToString` and `formatAstInfoComment`: they only print names and JSON for comments.
- `JSON.stringify` of objects (the `mocksObjs` key, the pretty-printed context value): it is the parameter `serialize`, or the shape is printed entry by entry. Only strings, numbers and booleans are printed exactly.
- Floating point: the ±1 hints are computed on `int`, while the source uses JavaScript doubles.
- Case folding: `toLowerCase()` and the `/i` patterns fold ASCII letters only.
- `localeCompare` and `.sort()`: both are modelled as one fixed order on character codes. The source's locale order is not modelled.
- Object key order: `Object.entries`/`Object.values` are read in insertion order. JavaScript lists integer-like keys first, and keys that coincide with `Object.prototype` members (`constructor`, `__proto__`) behave differently. Neither is modelled.
- Undefined values in helper records: a missing `contextMeta.importLine`, `mockLine` or `mockVarName` is the empty string, so template literals that would print `undefined` are not reproduced.
- Falsy blocks: `cleanSuggestedTestBlocks` passes `null`/`undefined` blocks through. The model's blocks are always records; a block without `meta` takes that path instead.
- Aliasing: `cleanSuggestedTestBlocks` overwrites `block.meta.contextsHelpers` on the caller's objects. The model returns the reduced blocks as new values, so the caller's array does not see the change.
- `createBasicTestSkeleton`: it only computes paths, runs `npx jest-test-gen` through `execSync` and calls the two cleaners on files.
- `createIntegratedTestFile`: the `.complete` path suffix and the file reading and writing are left out. The console output and the `try`/`catch` are left out too. Only the text it writes is modelled.
- `normalizeSkeleton`: the path and quote rewriting at scripts/jest-test-gen-helpers.mjs:282-291 is a chain of general regular expressions that is not modelled. The model starts from the rewritten text, and the file reading and writing are left out.
- `cleanBasicTest` and `cleanFinalTest`: the file reading and writing, console output and `try`/`catch` are left out; both are modelled as text to text.
- `mergeImports` in scripts/clean-final-test.mjs: its body is commented out.
- `getTestBlockImportsAndMocks`: an empty stub.
- The batch driver scripts/gen-test-babel.mjs and the utilities in scripts/generate/utils.mjs (`writeLog`, `getAllFiles`, `getToday`, `showDiff`) are not part of this model. They do I/O, walk directories or read the clock.
- scripts/config.mjs is not part of this model; it holds constants only.
- The block templates' describe/it prose: each generator's text is the parameter `build`. The model covers what is selected, filtered and deduplicated.
- The Identifier/MemberExpression visitors of `getUsedVariablesInFunction`: they cannot run for the records `findMainComponent` builds, which have no body, so the function is modelled as returning `[]`.
- `allGlobalMockLines` reads `meta.useParamsMockObj`, which no block generator sets. The model keeps the field so the function can be stated in general, and `GroupMocks.NoGlobalMocks` states the case that actually arises.
- MergeImports.ReadNames: the corrected reading still gives no names for a mixed line `import D{ n } from "p";` or `import A, { b } from "p";`. Such a line still comes out of the merge as `import {  } from "p";`, as it does in the source, so merging is not stated idempotent in general.
- JavaScript `trim()` is modelled with the ECMAScript white-space and line-terminator set, comparing character by character.
- Characters outside the Basic Multilingual Plane: a Dafny `char` is a Unicode scalar value, so such a character is one `char`, where a JavaScript string holds two UTF-16 code units. On text holding such characters, `.length`, indices, the `.sort()` order of `JsText.LessTotal`/`JsText.Sort` (which compares code units in JavaScript) and `trim()` can differ from the source.
- AstHelpers.GetJsxElementName: for a namespaced tag such as `<a:b>` the source returns the name node itself rather than a string; the model gives no name for it.
- LineScan.RebaseAt: the `.*` of `(import\s+.*\s+from\s+['"])(\.\/)` does not cross a line terminator in the source, and the model does not check for one. On an import entry spanning several lines the model can rewrite a `./` path that the source leaves alone; on single lines the two agree.

## Findings

| source | as written | input that shows it | evidently intended | confidence | as-written member | corrected member |
|---|---|---|---|---|---|---|
| scripts/jest-test-gen-helpers.mjs:516-519 | a path whose Set holds one name without `*` is always printed as a default import, even when the name was imported in braces | the lone line `import { a } from "p";` is merged into `import a from "p";`, which imports the default export instead of `a` | a single name is printed as a default import only when it was bound as one, and a braced name stays in braces | medium, not executed | MergeImports.SingleNamedAsWritten | MergeImports.MergedNamedLine |
| scripts/jest-test-gen-helpers.mjs:502-508 | `import\s+([^\s\{]+)\s+from` cannot match `import * as X from`, so a namespace import adds no name to its path, and the path is rebuilt as an empty braced import | the lone line `import * as X from "p";` is merged into `import {  } from "p";`, losing the binding X | the namespace binding `* as X` is kept, and the `namesArr.some(n => n.includes('*'))` branch at line 520 prints it back | medium, not executed | MergeImports.StarAsWritten | MergeImports.MergedStarLine |
| scripts/jest-test-gen-helpers.mjs:324-341 | the line that opens an import block is never checked for a terminator, so a one-line import stays open and swallows the following lines up to the next one ending in `;`, `'` or `"`, including a `jest.mock(...)` line | the lines `import A from "../A";` and `jest.mock("../A");` give one import block holding both lines and no mock block | a one-line import is a block by itself, and the `jest.mock` line opens its own mock block, as the "supports multiline" comments describe | medium, not executed | Skeleton.MockSwallowedAsWritten | Skeleton.MockKept |

Findings A, B and C are the three rows above, in order.

The members that run the whole pipeline take a selector, so that each runs both halves:
- `MergeImports.RebuildImports`, `MergeLines.MergeLinesHelper`, `MergeLines.MergeLines` and `IntegratedFile.CreateIntegratedTestFile` take `corrected`. With `corrected` false they run `MergeImports.MergedImportsAsWritten`, the source as written. With `corrected` true they run `MergeImports.MergedImports`, which reads with `ReadNames` and rebuilds with `RebuildImport`.
- `Skeleton.GroupLine` and `Skeleton.NormalizeSkeleton` take `selfClosing`. With `selfClosing` false they run the automaton as written; with `selfClosing` true, the corrected one.

Both automata are stated by the same generic lemmas: `Skeleton.GroupedIsSegments`, `Skeleton.ImportBlockCount` and the two shape lemmas.

`MergeImports.MergedDefaultLine` shows that the correction keeps default imports as they are.
