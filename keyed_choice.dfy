/**
 * The "object keyed by string, keep the preferred value per key" pattern
 * shared by groupMocks, allGlobalMockLines and the mock grouping inside
 * mergeLinesHelper: a visited item is stored under its key when the key is
 * new, and otherwise replaces the stored one when it is an overwrite, or
 * when it is better and the stored one is not. `Object.values` then lists
 * the stored items in first-insertion order of their keys.
 */
module KeyedChoice {
  import opened JsText

  datatype Entry<T> = Entry(key: string, item: T)

  /** A plain JavaScript object: its keys in insertion order and its contents. */
  datatype Chosen<T> = Chosen(keys: seq<string>, pick: map<string, T>)

  function KeyOf<T>(e: Entry<T>): string { e.key }

  /** Whether x takes the place of the stored prev. */
  predicate Replaces<T>(x: T, prev: T, better: T -> bool, overwrite: T -> bool)
  {
    overwrite(x) || (better(x) && !better(prev))
  }

  /** One visited entry. */
  function Step<T>(c: Chosen<T>, e: Entry<T>, better: T -> bool, overwrite: T -> bool): Chosen<T>
  {
    if e.key !in c.pick then Chosen(c.keys + [e.key], c.pick[e.key := e.item])
    else if Replaces(e.item, c.pick[e.key], better, overwrite) then Chosen(c.keys, c.pick[e.key := e.item])
    else c
  }

  /** All entries, visited in order. */
  function ChooseAll<T>(es: seq<Entry<T>>, better: T -> bool, overwrite: T -> bool): Chosen<T>
    decreases |es|
  {
    if |es| == 0 then Chosen([], map[])
    else Step(ChooseAll(es[..|es| - 1], better, overwrite), es[|es| - 1], better, overwrite)
  }

  lemma ChooseAllSnoc<T>(es: seq<Entry<T>>, e: Entry<T>, better: T -> bool, overwrite: T -> bool)
    ensures ChooseAll(es + [e], better, overwrite) == Step(ChooseAll(es, better, overwrite), e, better, overwrite)
  {
    assert (es + [e])[..|es|] == es;
  }

  /** `Object.values`: the stored items in key order. */
  function Values<T>(keys: seq<string>, pick: map<string, T>): (r: seq<T>)
    requires forall k :: k in keys ==> k in pick
    ensures |r| == |keys| && forall i :: 0 <= i < |keys| ==> r[i] == pick[keys[i]]
  {
    if |keys| == 0 then [] else [pick[keys[0]]] + Values(keys[1..], pick)
  }

  /** The items stored under key k, in visiting order. */
  function Among<T>(es: seq<Entry<T>>, k: string): seq<T>
    decreases |es|
  {
    if |es| == 0 then []
    else
      var init := Among(es[..|es| - 1], k);
      if es[|es| - 1].key == k then init + [es[|es| - 1].item] else init
  }

  /** Among lists exactly the items that come with key k. */
  lemma {:induction false} AmongMembers<T>(es: seq<Entry<T>>, k: string)
    ensures forall x :: x in Among(es, k) <==> Entry(k, x) in es
    decreases |es|
  {
    if |es| > 0 {
      AmongMembers(es[..|es| - 1], k);
      assert es == es[..|es| - 1] + [es[|es| - 1]];
    }
  }

  /** The choice among the items of one key, visited in order. */
  function Prefer<T>(xs: seq<T>, better: T -> bool, overwrite: T -> bool): (r: Option<T>)
    ensures r.None? <==> |xs| == 0
    decreases |xs|
  {
    if |xs| == 0 then None
    else
      var x := xs[|xs| - 1];
      match Prefer(xs[..|xs| - 1], better, overwrite)
      case None => Some(x)
      case Some(p) => if Replaces(x, p, better, overwrite) then Some(x) else Some(p)
  }

  /** The keys are the distinct keys of the entries, in first-seen order, and exactly the stored ones. */
  lemma {:induction false} ChooseAllKeys<T>(es: seq<Entry<T>>, better: T -> bool, overwrite: T -> bool)
    ensures ChooseAll(es, better, overwrite).keys == Distinct(Map(es, KeyOf))
    ensures forall k :: k in ChooseAll(es, better, overwrite).pick <==> k in ChooseAll(es, better, overwrite).keys
    decreases |es|
  {
    if |es| > 0 {
      var init := es[..|es| - 1];
      var e := es[|es| - 1];
      assert es == init + [e];
      ChooseAllKeys(init, better, overwrite);
      var ks := Map(init, KeyOf);
      MapAppend(init, [e], KeyOf);
      assert Map(es, KeyOf) == ks + [e.key];
      DistinctSnoc(ks, e.key);
      DistinctMembers(ks);
      assert e.key in ChooseAll(init, better, overwrite).pick <==> e.key in Distinct(ks);
    }
  }

  /** What is stored under a key is the choice among that key's items. */
  lemma {:induction false} ChooseAllPick<T>(es: seq<Entry<T>>, k: string, better: T -> bool, overwrite: T -> bool)
    ensures var c := ChooseAll(es, better, overwrite);
            Prefer(Among(es, k), better, overwrite) == if k in c.pick then Some(c.pick[k]) else None
    decreases |es|
  {
    if |es| > 0 {
      var init := es[..|es| - 1];
      var e := es[|es| - 1];
      ChooseAllPick(init, k, better, overwrite);
      if e.key == k {
        var xs := Among(init, k) + [e.item];
        assert xs[..|xs| - 1] == Among(init, k);
      }
    }
  }

  /** Object.values of the whole visit: one item per distinct key, each the choice among that key's items. */
  lemma ValuesOfChoice<T>(es: seq<Entry<T>>, better: T -> bool, overwrite: T -> bool)
    ensures var c := ChooseAll(es, better, overwrite);
            (forall k :: k in c.keys ==> k in c.pick)
            && var vs := Values(c.keys, c.pick);
               c.keys == Distinct(Map(es, KeyOf)) && NoDup(c.keys)
               && forall i :: 0 <= i < |vs| ==> Prefer(Among(es, c.keys[i]), better, overwrite) == Some(vs[i])
  {
    var c := ChooseAll(es, better, overwrite);
    ChooseAllKeys(es, better, overwrite);
    DistinctNoDup(Map(es, KeyOf));
    forall i | 0 <= i < |c.keys| ensures Prefer(Among(es, c.keys[i]), better, overwrite) == Some(c.pick[c.keys[i]]) {
      ChooseAllPick(es, c.keys[i], better, overwrite);
    }
  }

  /** The choice is one of the items. */
  lemma {:induction false} PreferMember<T>(xs: seq<T>, better: T -> bool, overwrite: T -> bool)
    ensures |xs| > 0 ==> Prefer(xs, better, overwrite).value in xs
    decreases |xs|
  {
    if |xs| > 1 {
      PreferMember(xs[..|xs| - 1], better, overwrite);
      assert xs == xs[..|xs| - 1] + [xs[|xs| - 1]];
    }
  }

  /** The first better item, or the first item when none is better. */
  function FirstBetterOrFirst<T>(xs: seq<T>, better: T -> bool): T
    requires |xs| > 0
  {
    match FindIndex(xs, better)
    case Some(i) => xs[i]
    case None => xs[0]
  }

  /**
   * Without overwrites, the choice is the first better item, or else the
   * first item: later items never displace an earlier better one.
   */
  lemma {:induction false} PreferWithoutOverwrite<T>(xs: seq<T>, better: T -> bool, overwrite: T -> bool)
    requires forall i :: 0 <= i < |xs| ==> !overwrite(xs[i])
    ensures |xs| > 0 ==> Prefer(xs, better, overwrite) == Some(FirstBetterOrFirst(xs, better))
    decreases |xs|
  {
    if |xs| > 1 {
      var init := xs[..|xs| - 1];
      var x := xs[|xs| - 1];
      PreferWithoutOverwrite(init, better, overwrite);
      var p := FirstBetterOrFirst(init, better);
      forall j | 0 <= j < |init| ensures xs[j] == init[j] { }
      match FindIndex(init, better)
      case Some(i) => {
        var r := FindIndex(xs, better);
        assert r.Some? && r.value <= i;
      }
      case None => {
        assert p == xs[0];
        var r := FindIndex(xs, better);
        assert r.Some? ==> r.value == |xs| - 1;
      }
    }
  }

  /** When every item overwrites, the last one is kept. */
  lemma {:induction false} PreferAllOverwrite<T>(xs: seq<T>, better: T -> bool, overwrite: T -> bool)
    requires forall i :: 0 <= i < |xs| ==> overwrite(xs[i])
    ensures |xs| > 0 ==> Prefer(xs, better, overwrite) == Some(xs[|xs| - 1])
  {
  }
}
