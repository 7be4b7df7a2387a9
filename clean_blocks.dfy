/**
 * cleanSuggestedTestBlocks: a block without `meta` always passes; any other
 * block passes when its key (its helpers' lines, or its `mocksObjs`
 * serialised, plus `usesTestingLibrary`, its type and the first 40
 * characters of its code) has not been seen, and its context helpers are
 * first reduced to one per import line.
 */
module CleanBlocks {
  import opened JsText
  import opened SuggestHelpers

  const FieldSep := "|"
  const HelperSep := "||"
  const FlagKey := "|usesTestingLibrary:"
  const TypeKey := "|type:"
  const CodeKey := "|code:"
  const MocksKey := "mocksObjs:"
  const NoHelpersKey := "noHelpers"
  const CodeKeyLength := 40

  function HelperImportLine(h: ContextHelper): string { h.importLine }

  /** `${importLine}|${mockLine}|${mockVarName}` */
  function HelperKey(h: ContextHelper): string
  {
    h.importLine + FieldSep + h.mockLine + FieldSep + h.mockVarName
  }

  /** A template literal's rendering of an optional boolean. */
  function FlagText(u: Option<bool>): string
  {
    match u
    case None => "undefined"
    case Some(true) => "true"
    case Some(false) => "false"
  }

  /** `(code || '').slice(0, 40)` */
  function CodeHead(code: string): (r: string)
    ensures |r| == if |code| < CodeKeyLength then |code| else CodeKeyLength
    ensures StartsWith(code, r)
  {
    if |code| <= CodeKeyLength then code else code[..CodeKeyLength]
  }

  function KeyTail(m: Meta, b: Block): string
  {
    FlagKey + FlagText(m.usesTestingLibrary) + TypeKey + b.kind + CodeKey + CodeHead(b.code)
  }

  /** `filter((h, i, arr) => arr.findIndex(x => x.importLine === h.importLine) === i)` */
  function UniqueHelpers(hs: seq<ContextHelper>): seq<ContextHelper>
  {
    DedupBy(hs, HelperImportLine)
  }

  /** The block as it is pushed: its helpers, when it has some, reduced to one per import line. */
  function Cleaned(b: Block): Block
  {
    if b.meta.Some? && b.meta.value.contextsHelpers.Some? then
      b.(meta := Some(b.meta.value.(contextsHelpers := Some(UniqueHelpers(b.meta.value.contextsHelpers.value)))))
    else b
  }

  /** `uniqueKey`; None for a block without meta. `serialize` stands for JSON.stringify. */
  function BlockKey(b: Block, serialize: seq<MockObj> -> string): Option<string>
  {
    match b.meta
    case None => None
    case Some(m) =>
      if m.contextsHelpers.Some? then
        Some(Join(Map(UniqueHelpers(m.contextsHelpers.value), HelperKey), HelperSep) + KeyTail(m, b))
      else if m.mocksObjs.Some? then
        Some(MocksKey + serialize(m.mocksObjs.value) + KeyTail(m, b))
      else Some(NoHelpersKey + KeyTail(m, b))
  }

  /** The keys of the blocks that have one, in order. */
  function Keys(blocks: seq<Block>, serialize: seq<MockObj> -> string): seq<string>
    decreases |blocks|
  {
    if |blocks| == 0 then []
    else
      var k := BlockKey(blocks[|blocks| - 1], serialize);
      Keys(blocks[..|blocks| - 1], serialize) + (if k.Some? then [k.value] else [])
  }

  predicate Passes(k: Option<string>, seen: seq<string>)
  {
    k.None? || k.value !in seen
  }

  /** The blocks that pass, cleaned, in order. */
  function CleanedBlocks(blocks: seq<Block>, serialize: seq<MockObj> -> string): seq<Block>
    decreases |blocks|
  {
    if |blocks| == 0 then []
    else
      var init := blocks[..|blocks| - 1];
      var b := blocks[|blocks| - 1];
      CleanedBlocks(init, serialize) + (if Passes(BlockKey(b, serialize), Keys(init, serialize)) then [Cleaned(b)] else [])
  }

  method CleanSuggestedTestBlocks(suggestedTestBlocks: seq<Block>, serialize: seq<MockObj> -> string)
    returns (cleanedBlocks: seq<Block>)
    ensures cleanedBlocks == CleanedBlocks(suggestedTestBlocks, serialize)
  {
    var seen: set<string> := {};
    cleanedBlocks := [];
    for j := 0 to |suggestedTestBlocks|
      invariant cleanedBlocks == CleanedBlocks(suggestedTestBlocks[..j], serialize)
      invariant forall k :: k in seen <==> k in Keys(suggestedTestBlocks[..j], serialize)
    {
      var block := suggestedTestBlocks[j];
      assert suggestedTestBlocks[..j + 1][..j] == suggestedTestBlocks[..j];
      if block.meta.None? {
        cleanedBlocks := cleanedBlocks + [block];
      } else {
        var m := block.meta.value;
        var uniqueKey;
        if m.contextsHelpers.Some? {
          var uniqueHelpers := UniqueHelpers(m.contextsHelpers.value);
          block := block.(meta := Some(m.(contextsHelpers := Some(uniqueHelpers))));
          uniqueKey := Join(Map(uniqueHelpers, HelperKey), HelperSep) + KeyTail(m, block);
        } else if m.mocksObjs.Some? {
          uniqueKey := MocksKey + serialize(m.mocksObjs.value) + KeyTail(m, block);
        } else {
          uniqueKey := NoHelpersKey + KeyTail(m, block);
        }
        if uniqueKey !in seen {
          seen := seen + {uniqueKey};
          cleanedBlocks := cleanedBlocks + [block];
        }
      }
    }
    assert suggestedTestBlocks[..|suggestedTestBlocks|] == suggestedTestBlocks;
  }

  // ------------------------------------------------------------------
  // Properties

  /** The helpers kept: one per import line, the first with it, every import line represented. */
  lemma UniqueHelpersSpec(hs: seq<ContextHelper>)
    ensures Map(UniqueHelpers(hs), HelperImportLine) == Distinct(Map(hs, HelperImportLine))
    ensures NoDup(Map(UniqueHelpers(hs), HelperImportLine))
    ensures forall h :: h in UniqueHelpers(hs) ==>
              exists i :: 0 <= i < |hs| && hs[i] == h && h.importLine !in Map(hs[..i], HelperImportLine)
  {
    DedupByKeys(hs, HelperImportLine);
    DedupByNoDup(hs, HelperImportLine);
    DedupByFirst(hs, HelperImportLine);
  }

  lemma UniqueHelpersIdempotent(hs: seq<ContextHelper>)
    ensures UniqueHelpers(UniqueHelpers(hs)) == UniqueHelpers(hs)
  {
    DedupByNoDup(hs, HelperImportLine);
    DedupByOfDistinctKeys(UniqueHelpers(hs), HelperImportLine);
  }

  /** Cleaning a block keeps its key and is idempotent. */
  lemma CleanedStable(b: Block, serialize: seq<MockObj> -> string)
    ensures BlockKey(Cleaned(b), serialize) == BlockKey(b, serialize)
    ensures Cleaned(Cleaned(b)) == Cleaned(b)
  {
    if b.meta.Some? && b.meta.value.contextsHelpers.Some? {
      UniqueHelpersIdempotent(b.meta.value.contextsHelpers.value);
    }
  }

  lemma KeysSnoc(xs: seq<Block>, b: Block, serialize: seq<MockObj> -> string)
    ensures var k := BlockKey(b, serialize);
            Keys(xs + [b], serialize) == Keys(xs, serialize) + (if k.Some? then [k.value] else [])
  {
    assert (xs + [b])[..|xs|] == xs;
  }

  lemma CleanedSnoc(xs: seq<Block>, b: Block, serialize: seq<MockObj> -> string)
    ensures CleanedBlocks(xs + [b], serialize)
            == CleanedBlocks(xs, serialize) + (if Passes(BlockKey(b, serialize), Keys(xs, serialize)) then [Cleaned(b)] else [])
  {
    assert (xs + [b])[..|xs|] == xs;
  }

  /** The kept keys are the distinct keys of the input, in first-seen order. */
  lemma {:induction false} CleanedKeys(blocks: seq<Block>, serialize: seq<MockObj> -> string)
    ensures Keys(CleanedBlocks(blocks, serialize), serialize) == Distinct(Keys(blocks, serialize))
    decreases |blocks|
  {
    if |blocks| > 0 {
      var init := blocks[..|blocks| - 1];
      var b := blocks[|blocks| - 1];
      var k := BlockKey(b, serialize);
      CleanedKeys(init, serialize);
      assert blocks == init + [b];
      KeysSnoc(init, b, serialize);
      var r := CleanedBlocks(init, serialize);
      CleanedStable(b, serialize);
      if Passes(k, Keys(init, serialize)) {
        KeysSnoc(r, Cleaned(b), serialize);
      } else {
        assert r + [] == r;
      }
      if k.Some? {
        DistinctSnoc(Keys(init, serialize), k.value);
      } else {
        assert Keys(init, serialize) + [] == Keys(init, serialize);
      }
    }
  }

  /** No two kept blocks share a key. */
  lemma CleanedKeysDistinct(blocks: seq<Block>, serialize: seq<MockObj> -> string)
    ensures NoDup(Keys(CleanedBlocks(blocks, serialize), serialize))
  {
    CleanedKeys(blocks, serialize);
    DistinctNoDup(Keys(blocks, serialize));
  }

  /** A block without meta is always kept, unchanged. */
  lemma {:induction false} NoMetaKept(blocks: seq<Block>, i: nat, serialize: seq<MockObj> -> string)
    requires i < |blocks| && blocks[i].meta.None?
    ensures blocks[i] in CleanedBlocks(blocks, serialize)
    decreases |blocks|
  {
    var init := blocks[..|blocks| - 1];
    if i < |blocks| - 1 {
      NoMetaKept(init, i, serialize);
    }
  }

  /** Cleaning the cleaned blocks changes nothing. */
  lemma {:induction false} CleanedIdempotent(blocks: seq<Block>, serialize: seq<MockObj> -> string)
    ensures CleanedBlocks(CleanedBlocks(blocks, serialize), serialize) == CleanedBlocks(blocks, serialize)
    decreases |blocks|
  {
    if |blocks| > 0 {
      var init := blocks[..|blocks| - 1];
      var b := blocks[|blocks| - 1];
      var r := CleanedBlocks(init, serialize);
      var k := BlockKey(b, serialize);
      CleanedIdempotent(init, serialize);
      if Passes(k, Keys(init, serialize)) {
        CleanedStable(b, serialize);
        CleanedSnoc(r, Cleaned(b), serialize);
        CleanedKeys(init, serialize);
        DistinctMembers(Keys(init, serialize));
        assert Passes(BlockKey(Cleaned(b), serialize), Keys(r, serialize));
        assert CleanedBlocks(blocks, serialize) == r + [Cleaned(b)];
      } else {
        assert CleanedBlocks(blocks, serialize) == r + [];
        assert r + [] == r;
      }
    }
  }
}
