/**
 * scripts/analyze-ast-helper.mjs, findPropValueHints: a per-name record of
 * example values gathered from how a name is used (`.map`, string methods,
 * comparisons, `switch` cases, destructuring defaults, `!x` and `if (x)`).
 */
module AnalyzeHints {
  import opened JsText
  import opened AstNodes

  /**
   * `hints[name]`: each field is present or absent. A record created by the
   * `.map` rule or the default-value rule has no `possibleValues` array.
   */
  datatype Hint = Hint(possibleValues: Option<seq<Lit>>, exampleArray: Option<string>, defaultValue: Option<Lit>)

  type Hints = map<string, Hint>

  /** What one visited node does to the hints of one name. */
  datatype Action =
    | MapUse(name: string)               // name.map(...)
    | AddValue(name: string, value: Lit) // a value the name is compared with
    | SetDefault(name: string, value: Lit)

  const ObjectArrayExample := "[{ id: 1, label: \"Example\" }]"
  const NumberArrayExample := "[1, 2, 3]"

  /** `/class|option|list|items|array/i.test(name)` */
  predicate ArrayLikeName(name: string)
  {
    var l := Lower(name);
    Contains(l, "class") || Contains(l, "option") || Contains(l, "list") || Contains(l, "items") || Contains(l, "array")
  }

  function ExampleArrayFor(name: string): string
  {
    if ArrayLikeName(name) then ObjectArrayExample else NumberArrayExample
  }

  predicate IsEquality(op: string) { op == "===" || op == "==" || op == "!==" || op == "!=" }

  predicate IsRelational(op: string) { op == "<" || op == ">" || op == "<=" || op == ">=" }

  predicate IsStringMethod(name: string)
  {
    name == "includes" || name == "indexOf" || name == "startsWith" || name == "endsWith"
  }

  /** The value a relational comparison against n suggests: one past the bound, on the side the test accepts. */
  function RelationalExample(op: string, n: int): int
    requires IsRelational(op)
  {
    if op == ">" || op == ">=" then n + 1 else n - 1
  }

  /** The rule, if any, that fires for one event. At most one rule fires per node. */
  function ActionOf(e: Event): Option<Action>
  {
    match e
    case Call(MemberExpr(Ident(obj), property, _), args, _) =>
      if NameOf(property) == Some("map") then Some(MapUse(obj))
      else if NameOf(property).Some? && IsStringMethod(NameOf(property).value)
              && |args| > 0 && args[0].Literal? && args[0].value.LStr?
      then Some(AddValue(obj, args[0].value))
      else None
    case Binary(op, Ident(name), right) =>
      var v := ValueOf(right);
      if IsEquality(op) && v.Some? && (v.value.LStr? || v.value.LBool?) then Some(AddValue(name, v.value))
      else if IsRelational(op) && v.Some? && v.value.LNum? then Some(AddValue(name, LNum(RelationalExample(op, v.value.num))))
      else None
    case SwitchCase(Ident(name), Some(test)) =>
      if ValueOf(test).Some? then Some(AddValue(name, ValueOf(test).value)) else None
    case AssignPattern(PIdent(name), defaultExpr) =>
      if ValueOf(defaultExpr).Some? then Some(SetDefault(name, ValueOf(defaultExpr).value)) else None
    case Unary(op, Ident(name)) =>
      if op == "!" then Some(AddValue(name, LBool(false))) else None
    case If(Ident(name)) => Some(AddValue(name, LBool(true)))
    case _ => None
  }

  /** One rule applied to the hints: the in-place updates of `hints[name]`. */
  function Step(h: Hints, a: Action): Result<Hints>
  {
    match a
    case MapUse(n) =>
      var cur := if n in h then h[n] else Hint(None, None, None);
      if cur.exampleArray.Some? then Ok(h[n := cur])
      else Ok(h[n := cur.(exampleArray := Some(ExampleArrayFor(n)))])
    case AddValue(n, v) =>
      if n !in h then Ok(h[n := Hint(Some([v]), None, None)])
      else if h[n].possibleValues.None? then TypeError("Cannot read properties of undefined (reading 'includes')")
      else if v in h[n].possibleValues.value then Ok(h)
      else Ok(h[n := h[n].(possibleValues := Some(h[n].possibleValues.value + [v]))])
    case SetDefault(n, v) =>
      var cur := if n in h then h[n] else Hint(None, None, None);
      Ok(h[n := cur.(defaultValue := Some(v))])
  }

  /** The hints after visiting the events in order; the first TypeError ends the traversal. */
  function HintsOf(events: seq<Event>): Result<Hints>
  {
    if |events| == 0 then Ok(map[])
    else
      var prev := HintsOf(events[..|events| - 1]);
      if prev.TypeError? then prev
      else
        var a := ActionOf(events[|events| - 1]);
        if a.None? then prev else Step(prev.value, a.value)
  }

  method FindPropValueHints(events: seq<Event>) returns (result: Result<Hints>)
    ensures result == HintsOf(events)
  {
    var hints: Hints := map[];
    var i := 0;
    while i < |events|
      invariant 0 <= i <= |events|
      invariant HintsOf(events[..i]) == Ok(hints)
    {
      assert events[..i + 1][..i] == events[..i];
      var a := ActionOf(events[i]);
      assert HintsOf(events[..i + 1]) == if a.None? then Ok(hints) else Step(hints, a.value);
      ghost var h0 := hints;
      if a.Some? {
        match a.value
        case MapUse(n) =>
          if n !in hints { hints := hints[n := Hint(None, None, None)]; }
          if hints[n].exampleArray.None? {
            var example := if ArrayLikeName(n) then ObjectArrayExample else NumberArrayExample;
            hints := hints[n := hints[n].(exampleArray := Some(example))];
          }
          assert a.value == MapUse(n);
          ghost var cur := if n in h0 then h0[n] else Hint(None, None, None);
          assert hints == if cur.exampleArray.Some? then h0[n := cur] else h0[n := cur.(exampleArray := Some(ExampleArrayFor(n)))];
        case AddValue(n, v) =>
          if n !in hints { hints := hints[n := Hint(Some([]), None, None)]; }
          if hints[n].possibleValues.None? {
            HintsErrorPersists(events, i + 1);
            return TypeError("Cannot read properties of undefined (reading 'includes')");
          }
          if v !in hints[n].possibleValues.value {
            hints := hints[n := hints[n].(possibleValues := Some(hints[n].possibleValues.value + [v]))];
          }
          assert a.value == AddValue(n, v);
          if n !in h0 {
            assert [] + [v] == [v];
            assert hints == h0[n := Hint(Some([v]), None, None)];
          } else {
            assert hints == if v in h0[n].possibleValues.value then h0
              else h0[n := h0[n].(possibleValues := Some(h0[n].possibleValues.value + [v]))];
          }
        case SetDefault(n, v) =>
          if n !in hints { hints := hints[n := Hint(None, None, None)]; }
          hints := hints[n := hints[n].(defaultValue := Some(v))];
          assert a.value == SetDefault(n, v);
          ghost var cur := if n in h0 then h0[n] else Hint(None, None, None);
          assert hints == h0[n := cur.(defaultValue := Some(v))];
      }
      i := i + 1;
    }
    assert events[..i] == events;
    result := Ok(hints);
  }

  /** Once a rule throws, the traversal is over: the result is that error. */
  lemma {:induction false} HintsErrorPersists(events: seq<Event>, k: nat)
    requires k <= |events| && HintsOf(events[..k]).TypeError?
    ensures HintsOf(events) == HintsOf(events[..k])
    decreases |events| - k
  {
    if k < |events| {
      assert events[..k + 1][..k] == events[..k];
      HintsErrorPersists(events, k + 1);
    } else {
      assert events[..k] == events;
    }
  }

  // ------------------------------------------------------------------
  // What the hints of one name are, stated per name over the event list

  predicate Touches(a: Action, n: string) { a.name == n }

  /** The values the events compare name n with, in order (with repetitions). */
  function ValuesFor(n: string, events: seq<Event>): seq<Lit>
  {
    if |events| == 0 then []
    else
      var a := ActionOf(events[|events| - 1]);
      ValuesFor(n, events[..|events| - 1]) + (if a.Some? && a.value.AddValue? && a.value.name == n then [a.value.value] else [])
  }

  /** The first rule that fires for name n. */
  function FirstAction(n: string, events: seq<Event>): Option<Action>
  {
    if |events| == 0 then None
    else
      var prev := FirstAction(n, events[..|events| - 1]);
      var a := ActionOf(events[|events| - 1]);
      if prev.Some? then prev else if a.Some? && Touches(a.value, n) then a else None
  }

  predicate HasMapUse(n: string, events: seq<Event>)
  {
    exists k :: 0 <= k < |events| && ActionOf(events[k]) == Some(MapUse(n))
  }

  /** The value of the last destructuring default for n. */
  function LastDefault(n: string, events: seq<Event>): Option<Lit>
  {
    if |events| == 0 then None
    else
      var a := ActionOf(events[|events| - 1]);
      if a.Some? && a.value.SetDefault? && a.value.name == n then Some(a.value.value)
      else LastDefault(n, events[..|events| - 1])
  }

  /** What the record of name n is, given the events, when no TypeError was raised. */
  predicate HintDescribes(h: Hints, n: string, events: seq<Event>)
  {
    var first := FirstAction(n, events);
    (n in h <==> first.Some?)
    && (n in h ==>
          (h[n].possibleValues.Some? <==> first.value.AddValue?)
          && (h[n].possibleValues.Some? ==> h[n].possibleValues.value == Distinct(ValuesFor(n, events)))
          && (h[n].exampleArray.Some? <==> HasMapUse(n, events))
          && (h[n].exampleArray.Some? ==> h[n].exampleArray.value == ExampleArrayFor(n))
          && h[n].defaultValue == LastDefault(n, events))
  }

  lemma HasMapUseSnoc(n: string, events: seq<Event>, e: Event)
    ensures HasMapUse(n, events + [e]) <==> HasMapUse(n, events) || ActionOf(e) == Some(MapUse(n))
  {
    var es := events + [e];
    assert es[|events|] == e;
    assert forall k :: 0 <= k < |events| ==> es[k] == events[k];
  }

  /**
   * The hint record of each name: it exists once a rule fired for the name;
   * it has `possibleValues` exactly when the first such rule added a value, and
   * then they are the distinct compared values in first-seen order;
   * `exampleArray` is set exactly when the name was mapped over, and depends on
   * the name only; `defaultValue` is the last destructuring default.
   */
  lemma {:induction false} HintsDescribed(events: seq<Event>, n: string)
    requires HintsOf(events).Ok?
    ensures HintDescribes(HintsOf(events).value, n, events)
    decreases |events|
  {
    if |events| > 0 {
      var init := events[..|events| - 1];
      var e := events[|events| - 1];
      assert events == init + [e];
      HintsDescribed(init, n);
      var a := ActionOf(e);
      if a.Some? && Touches(a.value, n) {
        DescribedTouched(init, e, n);
      } else {
        DescribedUntouched(init, e, n);
      }
    }
  }

  lemma DescribedUntouched(init: seq<Event>, e: Event, n: string)
    requires HintsOf(init).Ok? && HintsOf(init + [e]).Ok?
    requires HintDescribes(HintsOf(init).value, n, init)
    requires ActionOf(e).None? || !Touches(ActionOf(e).value, n)
    ensures HintDescribes(HintsOf(init + [e]).value, n, init + [e])
  {
    var events := init + [e];
    assert events[..|events| - 1] == init;
    HasMapUseSnoc(n, init, e);
    assert ValuesFor(n, events) == ValuesFor(n, init);
    assert LastDefault(n, events) == LastDefault(n, init);
    assert FirstAction(n, events) == FirstAction(n, init);
    if ActionOf(e).Some? {
      StepOtherName(HintsOf(init).value, ActionOf(e).value, n);
    }
  }

  lemma DescribedTouched(init: seq<Event>, e: Event, n: string)
    requires HintsOf(init).Ok? && HintsOf(init + [e]).Ok?
    requires HintDescribes(HintsOf(init).value, n, init)
    requires ActionOf(e).Some? && Touches(ActionOf(e).value, n)
    ensures HintDescribes(HintsOf(init + [e]).value, n, init + [e])
  {
    if n !in HintsOf(init).value { Untouched(n, init); }
    match ActionOf(e).value
    case MapUse(_) => DescribedKeepsValues(init, e, n);
    case SetDefault(_, _) => DescribedKeepsValues(init, e, n);
    case AddValue(_, v) => DescribedAddValue(init, e, n, v);
  }

  /** The `.map` rule and the default rule leave `possibleValues` alone. */
  lemma DescribedKeepsValues(init: seq<Event>, e: Event, n: string)
    requires HintsOf(init).Ok? && HintsOf(init + [e]).Ok?
    requires HintDescribes(HintsOf(init).value, n, init)
    requires n !in HintsOf(init).value ==> ValuesFor(n, init) == [] && LastDefault(n, init).None? && !HasMapUse(n, init)
    requires ActionOf(e).Some? && Touches(ActionOf(e).value, n) && !ActionOf(e).value.AddValue?
    ensures HintDescribes(HintsOf(init + [e]).value, n, init + [e])
  {
    var events := init + [e];
    assert events[..|events| - 1] == init;
    HasMapUseSnoc(n, init, e);
    assert ValuesFor(n, events) == ValuesFor(n, init);
  }

  /** A value rule adds the value once. */
  lemma DescribedAddValue(init: seq<Event>, e: Event, n: string, v: Lit)
    requires HintsOf(init).Ok? && HintsOf(init + [e]).Ok?
    requires HintDescribes(HintsOf(init).value, n, init)
    requires n !in HintsOf(init).value ==> ValuesFor(n, init) == [] && LastDefault(n, init).None? && !HasMapUse(n, init)
    requires ActionOf(e) == Some(AddValue(n, v))
    ensures HintDescribes(HintsOf(init + [e]).value, n, init + [e])
  {
    var events := init + [e];
    assert events[..|events| - 1] == init;
    HasMapUseSnoc(n, init, e);
    var h := HintsOf(init).value;
    assert ValuesFor(n, events) == ValuesFor(n, init) + [v];
    if n in h {
      DistinctSnoc(ValuesFor(n, init), v);
      DistinctMembers(ValuesFor(n, init));
    } else {
      assert ValuesFor(n, events) == [v];
      assert Distinct([v]) == [v] by { assert [v][..0] == []; }
    }
  }

  lemma StepOtherName(h: Hints, a: Action, n: string)
    requires !Touches(a, n) && Step(h, a).Ok?
    ensures n in Step(h, a).value <==> n in h
    ensures n in h ==> Step(h, a).value[n] == h[n]
  {
  }

  /** A name no rule fired for has no values, no default and no `.map` use. */
  lemma {:induction false} Untouched(n: string, events: seq<Event>)
    requires FirstAction(n, events).None?
    ensures ValuesFor(n, events) == [] && LastDefault(n, events).None? && !HasMapUse(n, events)
    decreases |events|
  {
    if |events| > 0 {
      var init := events[..|events| - 1];
      Untouched(n, init);
      HasMapUseSnoc(n, init, events[|events| - 1]);
      assert events == init + [events[|events| - 1]];
    }
  }

  /** The clash: a value rule for a name whose record was created without `possibleValues`. */
  predicate Clash(events: seq<Event>, j: int)
  {
    0 <= j < |events|
    && var a := ActionOf(events[j]);
    var first := FirstAction(if a.Some? then a.value.name else "", events[..j]);
    a.Some? && a.value.AddValue? && first.Some? && !first.value.AddValue?
  }

  /** findPropValueHints throws exactly when some value rule meets a record created by `.map` or a default. */
  lemma {:induction false} HintsErrorIffClash(events: seq<Event>)
    ensures HintsOf(events).TypeError? <==> exists j :: Clash(events, j)
    decreases |events|
  {
    if |events| > 0 {
      var init := events[..|events| - 1];
      var e := events[|events| - 1];
      HintsErrorIffClash(init);
      forall j | 0 <= j < |init| ensures Clash(init, j) <==> Clash(events, j) {
        assert events[..j] == init[..j] && events[j] == init[j];
      }
      assert events[..|init|] == init;
      if HintsOf(init).Ok? {
        var h := HintsOf(init).value;
        var a := ActionOf(e);
        if a.Some? && a.value.AddValue? {
          var m := a.value.name;
          HintsDescribed(init, m);
          assert Clash(events, |init|) <==> m in h && h[m].possibleValues.None?;
          assert HintsOf(events).TypeError? <==> m in h && h[m].possibleValues.None?;
        } else {
          assert !Clash(events, |init|);
          assert HintsOf(events).Ok?;
        }
        assert (exists j :: Clash(events, j)) <==> Clash(events, |init|);
      } else {
        var j :| Clash(init, j);
        assert Clash(events, j);
      }
    }
  }

  /** The candidate rule values: a relational test against n suggests n + 1 for > and >=, n - 1 for < and <=. */
  lemma RelationalHint(op: string, name: string, n: int, e: Event)
    requires IsRelational(op) && e == Binary(op, Ident(name), Literal(LNum(n)))
    ensures (op == ">" || op == ">=") ==> ActionOf(e) == Some(AddValue(name, LNum(n + 1)))
    ensures (op == "<" || op == "<=") ==> ActionOf(e) == Some(AddValue(name, LNum(n - 1)))
  {
  }

  /** `!x` suggests false, `if (x)` suggests true, and an equality test against a number suggests nothing. */
  lemma BooleanHints(name: string, n: int)
    ensures ActionOf(Unary("!", Ident(name))) == Some(AddValue(name, LBool(false)))
    ensures ActionOf(If(Ident(name))) == Some(AddValue(name, LBool(true)))
    ensures ActionOf(Binary("===", Ident(name), Literal(LNum(n)))).None?
  {
  }

  /** A `.map` followed by a comparison on the same name throws. */
  lemma MapThenCompareThrows(name: string, s: string)
    ensures HintsOf([Call(MemberExpr(Ident(name), Ident("map"), false), [], None),
                     Binary("===", Ident(name), Literal(LStr(s)))]).TypeError?
  {
    var es := [Call(MemberExpr(Ident(name), Ident("map"), false), [], None),
               Binary("===", Ident(name), Literal(LStr(s)))];
    assert es[..1][..0] == [];
    assert ActionOf(es[0]) == Some(MapUse(name));
    assert HintsOf(es[..1]) == Ok(map[name := Hint(None, Some(ExampleArrayFor(name)), None)]);
    assert ActionOf(es[1]) == Some(AddValue(name, LStr(s)));
  }

  /** The same comparisons in the other order are fine: values first, then the example array. */
  lemma CompareThenMapIsFine(name: string, s: string)
    ensures HintsOf([Binary("===", Ident(name), Literal(LStr(s))),
                     Call(MemberExpr(Ident(name), Ident("map"), false), [], None)])
            == Ok(map[name := Hint(Some([LStr(s)]), Some(ExampleArrayFor(name)), None)])
  {
    var es := [Binary("===", Ident(name), Literal(LStr(s))),
               Call(MemberExpr(Ident(name), Ident("map"), false), [], None)];
    assert es[..1][..0] == [];
    assert ActionOf(es[0]) == Some(AddValue(name, LStr(s)));
    var h1 := map[name := Hint(Some([LStr(s)]), None, None)];
    assert HintsOf(es[..1]) == Ok(h1);
    assert ActionOf(es[1]) == Some(MapUse(name));
    assert HintsOf(es) == Step(h1, MapUse(name));
    assert h1[name := h1[name].(exampleArray := Some(ExampleArrayFor(name)))]
        == map[name := Hint(Some([LStr(s)]), Some(ExampleArrayFor(name)), None)];
  }
}
