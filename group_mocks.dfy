/**
 * The mock side of the merged test file (scripts/jest-test-gen-helpers.mjs):
 * groupMocks keeps one `jest.mock` block per mocked module, preferring one
 * with a factory; allGlobalMockLines keeps one global mock per mock type,
 * preferring an extended one; allMockLines concatenates the distinct mock
 * lines of the context helpers.
 */
module GroupMocks {
  import opened JsText
  import opened LineScan
  import opened KeyedChoice
  import SuggestHelpers

  // ------------------------------------------------------------------
  // groupMocks

  /** Blocks that are not a recognisable `jest.mock(...)` share this key. */
  const OthersKey := "others"

  /** The key a block is grouped under. */
  function MockKey(b: string): string
  {
    match QuotedMockModule(b)
    case Some(m) => m
    case None => OthersKey
  }

  /** A block that is not a recognisable `jest.mock(...)` always replaces the stored one. */
  predicate Unrecognised(b: string) { QuotedMockModule(b).None? }

  /** The visited blocks with their keys; falsy (empty) blocks are skipped. */
  function MockEntries(blocks: seq<string>): seq<Entry<string>>
    decreases |blocks|
  {
    if |blocks| == 0 then []
    else
      var init := MockEntries(blocks[..|blocks| - 1]);
      var b := blocks[|blocks| - 1];
      if b == "" then init else init + [Entry(MockKey(b), b)]
  }

  /** The keys of the non-empty blocks, in order. */
  function MockKeys(blocks: seq<string>): seq<string>
    decreases |blocks|
  {
    if |blocks| == 0 then []
    else
      var init := MockKeys(blocks[..|blocks| - 1]);
      var b := blocks[|blocks| - 1];
      if b == "" then init else init + [MockKey(b)]
  }

  /** The non-empty blocks grouped under key m, in order. */
  function ModuleBlocks(blocks: seq<string>, m: string): seq<string>
    decreases |blocks|
  {
    if |blocks| == 0 then []
    else
      var init := ModuleBlocks(blocks[..|blocks| - 1], m);
      var b := blocks[|blocks| - 1];
      if b != "" && MockKey(b) == m then init + [b] else init
  }

  /** `mockByModule` after the visit. */
  function MockChoice(blocks: seq<string>): Chosen<string>
  {
    ChooseAll(MockEntries(blocks), IsFactory, Unrecognised)
  }

  /** `Object.values(mockByModule)`. */
  function GroupedMocks(blocks: seq<string>): seq<string>
  {
    var c := MockChoice(blocks);
    ChooseAllKeys(MockEntries(blocks), IsFactory, Unrecognised);
    Values(c.keys, c.pick)
  }

  lemma {:induction false} MockEntriesKeys(blocks: seq<string>)
    ensures Map(MockEntries(blocks), KeyOf) == MockKeys(blocks)
    decreases |blocks|
  {
    if |blocks| > 0 {
      var init := blocks[..|blocks| - 1];
      var b := blocks[|blocks| - 1];
      MockEntriesKeys(init);
      MapAppend(MockEntries(init), [Entry(MockKey(b), b)], KeyOf);
    }
  }

  lemma {:induction false} MockEntriesAmong(blocks: seq<string>, m: string)
    ensures Among(MockEntries(blocks), m) == ModuleBlocks(blocks, m)
    decreases |blocks|
  {
    if |blocks| > 0 {
      var init := blocks[..|blocks| - 1];
      var b := blocks[|blocks| - 1];
      MockEntriesAmong(init, m);
      var es := MockEntries(init) + [Entry(MockKey(b), b)];
      assert es[..|es| - 1] == MockEntries(init);
    }
  }

  /** The blocks under key m are exactly the non-empty input blocks whose key is m. */
  lemma {:induction false} ModuleBlocksMembers(blocks: seq<string>, m: string)
    ensures forall x :: x in ModuleBlocks(blocks, m) <==> x in blocks && x != "" && MockKey(x) == m
    decreases |blocks|
  {
    if |blocks| > 0 {
      ModuleBlocksMembers(blocks[..|blocks| - 1], m);
      assert blocks == blocks[..|blocks| - 1] + [blocks[|blocks| - 1]];
    }
  }

  lemma MockKeysMembers(blocks: seq<string>)
    ensures forall k :: k in MockKeys(blocks) <==> exists b :: b in blocks && b != "" && MockKey(b) == k
  {
    MockKeysBy(blocks);
    forall k ensures k in MockKeys(blocks) <==> exists b :: b in blocks && b != "" && MockKey(b) == k {
      KeysByMember(blocks, MockKey, k);
    }
  }

  /** The keys of the non-empty blocks under any key function. */
  function KeysBy(blocks: seq<string>, key: string -> string): seq<string>
    decreases |blocks|
  {
    if |blocks| == 0 then []
    else
      var init := KeysBy(blocks[..|blocks| - 1], key);
      var b := blocks[|blocks| - 1];
      if b == "" then init else init + [key(b)]
  }

  lemma {:induction false} MockKeysBy(blocks: seq<string>)
    ensures MockKeys(blocks) == KeysBy(blocks, MockKey)
    decreases |blocks|
  {
    if |blocks| > 0 {
      MockKeysBy(blocks[..|blocks| - 1]);
    }
  }

  lemma {:induction false} KeysByMember(blocks: seq<string>, key: string -> string, k: string)
    ensures k in KeysBy(blocks, key) <==> exists b :: b in blocks && b != "" && key(b) == k
    decreases |blocks|
  {
    if |blocks| > 0 {
      var init := blocks[..|blocks| - 1];
      var b := blocks[|blocks| - 1];
      KeysByMember(init, key, k);
      assert blocks == init + [b];
      assert forall x :: x in blocks <==> x in init || x == b;
    }
  }

  /**
   * One output block per key, in the order the keys first appear among the
   * non-empty blocks; every non-empty block's key is represented, and each
   * output block is an input block of its own key.
   */
  lemma GroupedMocksKeys(blocks: seq<string>)
    ensures var g := GroupedMocks(blocks);
            var order := Distinct(MockKeys(blocks));
            |g| == |order| && NoDup(order)
            && (forall b :: b in blocks && b != "" ==> MockKey(b) in order)
            && forall i :: 0 <= i < |g| ==> g[i] in blocks && g[i] != "" && MockKey(g[i]) == order[i]
  {
    var es := MockEntries(blocks);
    var c := MockChoice(blocks);
    ValuesOfChoice(es, IsFactory, Unrecognised);
    MockEntriesKeys(blocks);
    DistinctMembers(MockKeys(blocks));
    MockKeysMembers(blocks);
    var g := GroupedMocks(blocks);
    forall i | 0 <= i < |g| ensures g[i] in blocks && g[i] != "" && MockKey(g[i]) == c.keys[i] {
      MockEntriesAmong(blocks, c.keys[i]);
      PreferMember(ModuleBlocks(blocks, c.keys[i]), IsFactory, Unrecognised);
      ModuleBlocksMembers(blocks, c.keys[i]);
    }
  }

  /** The block kept for a module is its first block with a factory, or else its first block. */
  lemma GroupedMockOfModule(blocks: seq<string>, i: nat)
    requires i < |Distinct(MockKeys(blocks))|
    requires Distinct(MockKeys(blocks))[i] != OthersKey
    ensures var xs := ModuleBlocks(blocks, Distinct(MockKeys(blocks))[i]);
            i < |GroupedMocks(blocks)| && |xs| > 0 && GroupedMocks(blocks)[i] == FirstBetterOrFirst(xs, IsFactory)
  {
    var es := MockEntries(blocks);
    ValuesOfChoice(es, IsFactory, Unrecognised);
    MockEntriesKeys(blocks);
    var m := Distinct(MockKeys(blocks))[i];
    var xs := ModuleBlocks(blocks, m);
    MockEntriesAmong(blocks, m);
    ModuleBlocksMembers(blocks, m);
    forall j | 0 <= j < |xs| ensures !Unrecognised(xs[j]) {
      assert xs[j] in xs;
    }
    PreferWithoutOverwrite(xs, IsFactory, Unrecognised);
  }

  /**
   * When no module is literally called "others", the block kept under that
   * key is the last unrecognised block.
   */
  lemma GroupedMockOthers(blocks: seq<string>, i: nat)
    requires i < |Distinct(MockKeys(blocks))|
    requires Distinct(MockKeys(blocks))[i] == OthersKey
    requires forall b :: b in blocks ==> QuotedMockModule(b) != Some(OthersKey)
    ensures var xs := ModuleBlocks(blocks, OthersKey);
            i < |GroupedMocks(blocks)| && |xs| > 0 && GroupedMocks(blocks)[i] == xs[|xs| - 1] && Unrecognised(xs[|xs| - 1])
  {
    var es := MockEntries(blocks);
    ValuesOfChoice(es, IsFactory, Unrecognised);
    MockEntriesKeys(blocks);
    var xs := ModuleBlocks(blocks, OthersKey);
    MockEntriesAmong(blocks, OthersKey);
    ModuleBlocksMembers(blocks, OthersKey);
    forall j | 0 <= j < |xs| ensures Unrecognised(xs[j]) {
      assert xs[j] in xs;
    }
    PreferAllOverwrite(xs, IsFactory, Unrecognised);
  }

  /** groupMocks(allMocks) */
  method GroupMockBlocks(allMocks: seq<string>) returns (grouped: seq<string>)
    ensures grouped == GroupedMocks(allMocks)
  {
    var keys: seq<string> := [];
    var mockByModule: map<string, string> := map[];
    var i := 0;
    while i < |allMocks|
      invariant i <= |allMocks|
      invariant Chosen(keys, mockByModule) == MockChoice(allMocks[..i])
    {
      var mockBlock := allMocks[i];
      assert allMocks[..i + 1][..i] == allMocks[..i];
      if mockBlock != "" {
        ChooseAllSnoc(MockEntries(allMocks[..i]), Entry(MockKey(mockBlock), mockBlock), IsFactory, Unrecognised);
        var match_ := QuotedMockModule(mockBlock);
        if match_.Some? {
          var moduleName := match_.value;
          if moduleName !in mockByModule {
            keys := keys + [moduleName];
            mockByModule := mockByModule[moduleName := mockBlock];
          } else {
            var isFactory := IsFactory(mockBlock);
            var prevIsFactory := IsFactory(mockByModule[moduleName]);
            if isFactory && !prevIsFactory {
              mockByModule := mockByModule[moduleName := mockBlock];
            }
          }
        } else {
          if OthersKey !in mockByModule {
            keys := keys + [OthersKey];
          }
          mockByModule := mockByModule[OthersKey := mockBlock];
        }
      }
      i := i + 1;
    }
    assert allMocks[..i] == allMocks;
    ChooseAllKeys(MockEntries(allMocks), IsFactory, Unrecognised);
    grouped := Values(keys, mockByModule);
  }

  // ------------------------------------------------------------------
  // allGlobalMockLines

  /** The global mock a block carries, when `meta.useParamsMockObj` is set and has a type. */
  function GlobalMockOf(b: SuggestHelpers.Block): Option<SuggestHelpers.MockObj>
  {
    if b.meta.Some? && b.meta.value.useParamsMockObj.Some? && b.meta.value.useParamsMockObj.value.mockType != ""
    then b.meta.value.useParamsMockObj
    else None
  }

  function GlobalEntries(blocks: seq<SuggestHelpers.Block>): seq<Entry<SuggestHelpers.MockObj>>
    decreases |blocks|
  {
    if |blocks| == 0 then []
    else
      var init := GlobalEntries(blocks[..|blocks| - 1]);
      match GlobalMockOf(blocks[|blocks| - 1])
      case Some(obj) => init + [Entry(obj.mockType, obj)]
      case None => init
  }

  predicate IsExtended(o: SuggestHelpers.MockObj) { o.extended }

  predicate NeverOverwrites(o: SuggestHelpers.MockObj) { false }

  predicate HasCode(o: SuggestHelpers.MockObj) { o.code != "" }

  function TrimmedCode(o: SuggestHelpers.MockObj): string { Trim(o.code) }

  /** `globalMocksByModule` after the visit. */
  function GlobalMockChoice(blocks: seq<SuggestHelpers.Block>): Chosen<SuggestHelpers.MockObj>
  {
    ChooseAll(GlobalEntries(blocks), IsExtended, NeverOverwrites)
  }

  /** The kept mocks, in the order their types first appear. */
  function GlobalMocks(blocks: seq<SuggestHelpers.Block>): seq<SuggestHelpers.MockObj>
  {
    var c := GlobalMockChoice(blocks);
    ChooseAllKeys(GlobalEntries(blocks), IsExtended, NeverOverwrites);
    Values(c.keys, c.pick)
  }

  const MockSeparator := "\n\n"

  /** The text allGlobalMockLines returns for a list of kept mocks. */
  function GlobalMockText(kept: seq<SuggestHelpers.MockObj>): string
  {
    var mocks := Map(Filter(kept, HasCode), TrimmedCode);
    if |mocks| > 0 then Join(mocks, MockSeparator) + "\n" else ""
  }

  /** The global mocks of one type, in order. */
  function TypeMocks(blocks: seq<SuggestHelpers.Block>, t: string): seq<SuggestHelpers.MockObj>
    decreases |blocks|
  {
    if |blocks| == 0 then []
    else
      var init := TypeMocks(blocks[..|blocks| - 1], t);
      match GlobalMockOf(blocks[|blocks| - 1])
      case Some(obj) => if obj.mockType == t then init + [obj] else init
      case None => init
  }

  lemma {:induction false} GlobalEntriesAmong(blocks: seq<SuggestHelpers.Block>, t: string)
    ensures Among(GlobalEntries(blocks), t) == TypeMocks(blocks, t)
    decreases |blocks|
  {
    if |blocks| > 0 {
      var init := blocks[..|blocks| - 1];
      GlobalEntriesAmong(init, t);
      match GlobalMockOf(blocks[|blocks| - 1])
      case Some(obj) => {
        var es := GlobalEntries(init) + [Entry(obj.mockType, obj)];
        assert es[..|es| - 1] == GlobalEntries(init);
      }
      case None => {}
    }
  }

  lemma {:induction false} TypeMocksOfType(blocks: seq<SuggestHelpers.Block>, t: string)
    ensures forall o :: o in TypeMocks(blocks, t) ==> o.mockType == t
    decreases |blocks|
  {
    if |blocks| > 0 {
      TypeMocksOfType(blocks[..|blocks| - 1], t);
    }
  }

  /** The types of the typed global mocks, in order. */
  function GlobalTypes(blocks: seq<SuggestHelpers.Block>): seq<string>
  {
    Map(GlobalEntries(blocks), KeyOf)
  }

  /** One kept mock per distinct type, in the order the types first appear. */
  lemma GlobalMocksTypes(blocks: seq<SuggestHelpers.Block>)
    ensures |GlobalMocks(blocks)| == |Distinct(GlobalTypes(blocks))| && NoDup(Distinct(GlobalTypes(blocks)))
  {
    ValuesOfChoice(GlobalEntries(blocks), IsExtended, NeverOverwrites);
  }

  /** The mock kept for a type is of that type: the first extended mock of the type, or else its first mock. */
  lemma GlobalMockOfType(blocks: seq<SuggestHelpers.Block>, i: nat)
    requires i < |Distinct(GlobalTypes(blocks))|
    ensures var t := Distinct(GlobalTypes(blocks))[i];
            var xs := TypeMocks(blocks, t);
            i < |GlobalMocks(blocks)| && |xs| > 0
            && GlobalMocks(blocks)[i].mockType == t && GlobalMocks(blocks)[i] == FirstBetterOrFirst(xs, IsExtended)
  {
    var es := GlobalEntries(blocks);
    var c := GlobalMockChoice(blocks);
    ValuesOfChoice(es, IsExtended, NeverOverwrites);
    var xs := TypeMocks(blocks, c.keys[i]);
    GlobalEntriesAmong(blocks, c.keys[i]);
    PreferWithoutOverwrite(xs, IsExtended, NeverOverwrites);
    PreferMember(xs, IsExtended, NeverOverwrites);
    TypeMocksOfType(blocks, c.keys[i]);
  }

  /** Without any block carrying a typed global mock, there is nothing to emit. */
  lemma {:induction false} NoGlobalMocks(blocks: seq<SuggestHelpers.Block>)
    requires forall i :: 0 <= i < |blocks| ==> GlobalMockOf(blocks[i]).None?
    ensures GlobalMockText(GlobalMocks(blocks)) == ""
    decreases |blocks|
  {
    if |blocks| > 0 {
      NoGlobalMocks(blocks[..|blocks| - 1]);
    }
  }

  /** The emitted text is empty exactly when no kept mock has code, and otherwise ends with a newline. */
  lemma GlobalMockTextShape(kept: seq<SuggestHelpers.MockObj>)
    ensures GlobalMockText(kept) == "" <==> forall i :: 0 <= i < |kept| ==> !HasCode(kept[i])
    ensures GlobalMockText(kept) != "" ==> EndsWith(GlobalMockText(kept), "\n")
  {
    var f := Filter(kept, HasCode);
    if exists i :: 0 <= i < |kept| && HasCode(kept[i]) {
      var i :| 0 <= i < |kept| && HasCode(kept[i]);
      assert kept[i] in f;
    }
    if |f| > 0 {
      assert f[0] in kept;
      var j :| 0 <= j < |kept| && kept[j] == f[0];
    }
  }

  /** allGlobalMockLines(blocks) */
  method AllGlobalMockLines(blocks: seq<SuggestHelpers.Block>) returns (r: string)
    ensures r == GlobalMockText(GlobalMocks(blocks))
  {
    var keys: seq<string> := [];
    var globalMocksByModule: map<string, SuggestHelpers.MockObj> := map[];
    var i := 0;
    while i < |blocks|
      invariant i <= |blocks|
      invariant Chosen(keys, globalMocksByModule) == GlobalMockChoice(blocks[..i])
    {
      var block := blocks[i];
      assert blocks[..i + 1][..i] == blocks[..i];
      if block.meta.Some? && block.meta.value.useParamsMockObj.Some? {
        var obj := block.meta.value.useParamsMockObj.value;
        if obj.mockType != "" {
          ChooseAllSnoc(GlobalEntries(blocks[..i]), Entry(obj.mockType, obj), IsExtended, NeverOverwrites);
          if obj.mockType !in globalMocksByModule {
            keys := keys + [obj.mockType];
            globalMocksByModule := globalMocksByModule[obj.mockType := obj];
          } else if obj.extended && !globalMocksByModule[obj.mockType].extended {
            globalMocksByModule := globalMocksByModule[obj.mockType := obj];
          }
        }
      }
      i := i + 1;
    }
    assert blocks[..i] == blocks;
    ChooseAllKeys(GlobalEntries(blocks), IsExtended, NeverOverwrites);
    var mocks := Map(Filter(Values(keys, globalMocksByModule), HasCode), TrimmedCode);
    if |mocks| > 0 {
      r := Join(mocks, MockSeparator) + "\n";
    } else {
      r := "";
    }
  }

  // ------------------------------------------------------------------
  // allMockLines

  function MockLineOf(h: SuggestHelpers.ContextHelper): string { h.mockLine }

  /** The mock lines of a block's context helpers, when `meta.contextsHelpers` is an array. */
  function BlockMockLines(b: SuggestHelpers.Block): seq<string>
  {
    if b.meta.Some? && b.meta.value.contextsHelpers.Some? then Map(b.meta.value.contextsHelpers.value, MockLineOf)
    else []
  }

  /** All helpers' mock lines, block by block. */
  function MockLinesOf(blocks: seq<SuggestHelpers.Block>): seq<string>
    decreases |blocks|
  {
    if |blocks| == 0 then []
    else MockLinesOf(blocks[..|blocks| - 1]) + BlockMockLines(blocks[|blocks| - 1])
  }

  predicate Truthy(s: string) { s != "" }

  /** The Set of distinct non-empty mock lines, in insertion order. */
  function DistinctMockLines(blocks: seq<SuggestHelpers.Block>): seq<string>
  {
    Distinct(Filter(MockLinesOf(blocks), Truthy))
  }

  /** Each line preceded by a newline. */
  function Prefixed(lines: seq<string>): string
    decreases |lines|
  {
    if |lines| == 0 then "" else Prefixed(lines[..|lines| - 1]) + "\n" + lines[|lines| - 1]
  }

  /** Splitting the concatenation at newlines gives an empty first piece and then the lines. */
  lemma {:induction false} PrefixedSplit(lines: seq<string>)
    requires forall k :: 0 <= k < |lines| ==> '\n' !in lines[k]
    ensures Split(Prefixed(lines), '\n') == [""] + lines
    decreases |lines|
  {
    if |lines| > 0 {
      var init := lines[..|lines| - 1];
      var l := lines[|lines| - 1];
      PrefixedSplit(init);
      SplitConcat(Prefixed(init), l, '\n');
      SplitNoSep(l, '\n');
      assert Prefixed(lines) == Prefixed(init) + ['\n'] + l;
      assert [""] + lines == [""] + init + [l];
    }
  }

  /**
   * allMockLines lists each distinct non-empty mock line exactly once, in the
   * order of first occurrence, and the lines can be read back by splitting.
   */
  lemma AllMockLinesSpec(blocks: seq<SuggestHelpers.Block>)
    requires forall l :: l in MockLinesOf(blocks) ==> '\n' !in l
    ensures var d := DistinctMockLines(blocks);
            Split(Prefixed(d), '\n') == [""] + d
            && NoDup(d) && FirstSeenOrder(d, Filter(MockLinesOf(blocks), Truthy))
            && forall l :: l in d <==> l in MockLinesOf(blocks) && l != ""
  {
    var ls := MockLinesOf(blocks);
    var f := Filter(ls, Truthy);
    var d := Distinct(f);
    DistinctMembers(f);
    DistinctNoDup(f);
    PrefixedSplit(d);
    DistinctFirstSeen(f);
  }

  /** One more visited mock line: it joins the Set when it is non-empty and new. */
  lemma DistinctTruthySnoc(xs: seq<string>, l: string)
    ensures var d := Distinct(Filter(xs, Truthy));
            Distinct(Filter(xs + [l], Truthy)) == if l != "" && l !in d then d + [l] else d
  {
    FilterAppend(xs, [l], Truthy);
    FilterSingleton(l, Truthy);
    var f := Filter(xs, Truthy);
    if l != "" {
      DistinctSnoc(f, l);
      DistinctMembers(f);
    } else {
      assert f + [] == f;
    }
  }

  /** allMockLines(blocks) */
  method AllMockLines(blocks: seq<SuggestHelpers.Block>) returns (allLines: string)
    ensures allLines == Prefixed(DistinctMockLines(blocks))
  {
    allLines := "";
    var mockLinesSet: set<string> := {};
    ghost var seen: seq<string> := [];
    var i := 0;
    while i < |blocks|
      invariant i <= |blocks|
      invariant seen == Distinct(Filter(MockLinesOf(blocks[..i]), Truthy))
      invariant allLines == Prefixed(seen)
      invariant forall l :: l in mockLinesSet <==> l in seen
    {
      allLines, mockLinesSet, seen := BlockMockStep(blocks, i, allLines, mockLinesSet, seen);
      i := i + 1;
    }
    assert blocks[..i] == blocks;
  }

  /** One block of allMockLines' outer forEach. */
  method BlockMockStep(blocks: seq<SuggestHelpers.Block>, i: nat, lines0: string, set0: set<string>, ghost seen0: seq<string>)
    returns (allLines: string, mockLinesSet: set<string>, ghost seen: seq<string>)
    requires i < |blocks|
    requires seen0 == Distinct(Filter(MockLinesOf(blocks[..i]), Truthy)) && lines0 == Prefixed(seen0)
    requires forall l :: l in set0 <==> l in seen0
    ensures seen == Distinct(Filter(MockLinesOf(blocks[..i + 1]), Truthy))
    ensures allLines == Prefixed(seen)
    ensures forall l :: l in mockLinesSet <==> l in seen
  {
    var block := blocks[i];
    MockLinesSnoc(blocks, i);
    if block.meta.Some? && block.meta.value.contextsHelpers.Some? {
      allLines, mockLinesSet, seen := HelperMockLines(MockLinesOf(blocks[..i]), block.meta.value.contextsHelpers.value, lines0, set0, seen0);
    } else {
      allLines, mockLinesSet, seen := lines0, set0, seen0;
    }
  }

  lemma MockLinesSnoc(blocks: seq<SuggestHelpers.Block>, i: nat)
    requires i < |blocks|
    ensures MockLinesOf(blocks[..i + 1]) == MockLinesOf(blocks[..i]) + BlockMockLines(blocks[i])
    ensures BlockMockLines(blocks[i]) == [] ==> MockLinesOf(blocks[..i + 1]) == MockLinesOf(blocks[..i])
  {
    assert blocks[..i + 1][..i] == blocks[..i];
    assert MockLinesOf(blocks[..i]) + [] == MockLinesOf(blocks[..i]);
  }

  lemma PrefixedSnoc(lines: seq<string>, l: string)
    ensures Prefixed(lines + [l]) == Prefixed(lines) + "\n" + l
  {
    assert (lines + [l])[..|lines|] == lines;
  }

  lemma HelperLinesSnoc(before: seq<string>, helpers: seq<SuggestHelpers.ContextHelper>, j: nat)
    requires j < |helpers|
    ensures before + Map(helpers[..j + 1], MockLineOf) == (before + Map(helpers[..j], MockLineOf)) + [helpers[j].mockLine]
  {
    assert helpers[..j + 1] == helpers[..j] + [helpers[j]];
    MapAppend(helpers[..j], [helpers[j]], MockLineOf);
  }

  /** The inner forEach over one block's context helpers. */
  method HelperMockLines(before: seq<string>, helpers: seq<SuggestHelpers.ContextHelper>, lines0: string, set0: set<string>, ghost seen0: seq<string>)
    returns (allLines: string, mockLinesSet: set<string>, ghost seen: seq<string>)
    requires seen0 == Distinct(Filter(before, Truthy)) && lines0 == Prefixed(seen0)
    requires forall l :: l in set0 <==> l in seen0
    ensures seen == Distinct(Filter(before + Map(helpers, MockLineOf), Truthy))
    ensures allLines == Prefixed(seen)
    ensures forall l :: l in mockLinesSet <==> l in seen
  {
    allLines, mockLinesSet, seen := lines0, set0, seen0;
    var j := 0;
    assert before + Map(helpers[..0], MockLineOf) == before;
    while j < |helpers|
      invariant j <= |helpers|
      invariant seen == Distinct(Filter(before + Map(helpers[..j], MockLineOf), Truthy))
      invariant allLines == Prefixed(seen)
      invariant forall l :: l in mockLinesSet <==> l in seen
    {
      var mockLine := helpers[j].mockLine;
      ghost var xs := before + Map(helpers[..j], MockLineOf);
      HelperLinesSnoc(before, helpers, j);
      DistinctTruthySnoc(xs, mockLine);
      if mockLine != "" && mockLine !in mockLinesSet {
        PrefixedSnoc(seen, mockLine);
        allLines := allLines + "\n" + mockLine;
        mockLinesSet := mockLinesSet + {mockLine};
        seen := seen + [mockLine];
      }
      j := j + 1;
    }
    assert helpers[..j] == helpers;
  }
}
