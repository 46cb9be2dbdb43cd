/** Scenario expansion (`load_overrides_from_scenario`, calliope/preprocess/model_run.py):
    a declared scenario expands, recursively through the scenarios it names, to a set
    of override names; any other name is read as a comma-separated list. The source
    has no cycle guard, so a cyclic definition recurses until Python's recursion limit:
    the model bounds the depth with `fuel` and reports `RecursionLimit`. */
module Scenarios {
  import opened Text
  import opened Values
  import opened Paths

  /** The overrides found, and the warnings emitted, in order. */
  datatype Expansion = Expansion(names: set<Value>, warnings: seq<string>)

  function CommaWarning(scenario: string): string {
    "Scenario name `" + scenario + "` includes commas that won't be parsed as a list of overrides."
  }

  /** `config_model.get("scenarios", {}).keys()`. */
  function Declared(cm: Doc): Result<set<string>> {
    var v := if "scenarios" in cm then cm["scenarios"] else Dict(map[]);
    if v.Dict? then Ok(v.entries.Keys) else Err(NoAttribute)
  }

  /** `_get_overrides(name)`: the definition of a scenario, a single value wrapped in a list. */
  function Members(cm: Doc, name: string): seq<Value> {
    var v := GetKeyOr(cm, "scenarios." + name, List([Str(name)]));
    if v.List? then v.items else [v]
  }

  /** `scenario.split(",")`. */
  function Pieces(scenario: string): seq<Value> {
    var parts := SplitOn(scenario, ',');
    seq(|parts|, i requires 0 <= i < |parts| => Str(parts[i]))
  }

  /** `load_overrides_from_scenario(config_model, scenario)` with at most `fuel` nested calls. */
  function LoadOverrides(cm: Doc, scenario: string, fuel: nat): Result<Expansion>
    decreases fuel, 0
  {
    if fuel == 0 then Err(RecursionLimit)
    else match Declared(cm)
      case Err(e) => Err(e)
      case Ok(declared) =>
        if scenario in declared then
          var warnings := if ',' in scenario then [CommaWarning(scenario)] else [];
          ExpandMembers(cm, declared, Members(cm, scenario), fuel - 1, Expansion({}, warnings))
        else ExpandMembers(cm, declared, Pieces(scenario), fuel - 1, Expansion({}, []))
  }

  /** The loop over the members: a dict raises, a declared scenario is expanded,
      anything else is an override name. */
  function ExpandMembers(cm: Doc, declared: set<string>, items: seq<Value>, fuel: nat, acc: Expansion): Result<Expansion>
    decreases fuel, 1, |items|
  {
    if items == [] then Ok(acc)
    else
      var item := items[0];
      if item.Dict? then Err(InvalidScenario)
      else if item.List? then Err(Unhashable)
      else if item.Str? && item.s in declared then
        match LoadOverrides(cm, item.s, fuel)
        case Err(e) => Err(e)
        case Ok(sub) =>
          ExpandMembers(cm, declared, items[1..], fuel, Expansion(acc.names + sub.names, acc.warnings + sub.warnings))
      else ExpandMembers(cm, declared, items[1..], fuel, Expansion(acc.names + {item}, acc.warnings))
  }

  /** `load_overrides_from_scenario(config_model, scenario)`: looks the name up and
      expands what it stands for. */
  method LoadOverridesFromScenario(cm: Doc, scenario: string, fuel: nat) returns (r: Result<Expansion>)
    ensures r == LoadOverrides(cm, scenario, fuel)
    decreases fuel, 0
  {
    if fuel == 0 {
      return Err(RecursionLimit);
    }
    var declared := Declared(cm);
    if declared.Err? {
      return Err(declared.error);
    }
    var items: seq<Value>, warnings: seq<string>;
    if scenario in declared.value {
      items, warnings := Members(cm, scenario), [];
      if ',' in scenario {
        warnings := [CommaWarning(scenario)];
      }
    } else {
      items, warnings := Pieces(scenario), [];
    }
    r := ExpandLoop(cm, declared.value, items, fuel - 1, warnings);
  }

  /** The loop over the members of one scenario, gathering into a set. */
  method ExpandLoop(cm: Doc, declared: set<string>, items: seq<Value>, fuel: nat, warnings0: seq<string>)
    returns (r: Result<Expansion>)
    ensures r == ExpandMembers(cm, declared, items, fuel, Expansion({}, warnings0))
    decreases fuel, 1
  {
    var names: set<Value> := {};
    var warnings := warnings0;
    var i := 0;
    while i < |items|
      invariant 0 <= i <= |items|
      invariant ExpandMembers(cm, declared, items[i..], fuel, Expansion(names, warnings))
             == ExpandMembers(cm, declared, items, fuel, Expansion({}, warnings0))
    {
      var item := items[i];
      assert items[i..][0] == item && items[i..][1..] == items[i + 1..];
      if item.Dict? {
        return Err(InvalidScenario);
      }
      if item.List? {
        return Err(Unhashable);
      }
      if item.Str? && item.s in declared {
        var sub := LoadOverridesFromScenario(cm, item.s, fuel);
        if sub.Err? {
          return Err(sub.error);
        }
        names := names + sub.value.names;
        warnings := warnings + sub.value.warnings;
      } else {
        names := names + {item};
      }
      i := i + 1;
    }
    assert items[|items|..] == [];
    return Ok(Expansion(names, warnings));
  }

  // ----- the depth bound -----

  /** Once the recursion finishes within `fuel` levels, more fuel changes nothing:
      the bound only stands for Python's recursion limit. */
  lemma {:induction false} LoadFuel(cm: Doc, scenario: string, fuel: nat, more: nat)
    requires LoadOverrides(cm, scenario, fuel) != Err(RecursionLimit) && fuel <= more
    ensures LoadOverrides(cm, scenario, more) == LoadOverrides(cm, scenario, fuel)
    decreases fuel, 0
  {
    if Declared(cm).Ok? {
      var declared := Declared(cm).value;
      if scenario in declared {
        var warnings := if ',' in scenario then [CommaWarning(scenario)] else [];
        ExpandFuel(cm, declared, Members(cm, scenario), fuel - 1, more - 1, Expansion({}, warnings));
      } else {
        ExpandFuel(cm, declared, Pieces(scenario), fuel - 1, more - 1, Expansion({}, []));
      }
    }
  }

  lemma {:induction false} ExpandFuel(cm: Doc, declared: set<string>, items: seq<Value>, fuel: nat, more: nat, acc: Expansion)
    requires ExpandMembers(cm, declared, items, fuel, acc) != Err(RecursionLimit) && fuel <= more
    ensures ExpandMembers(cm, declared, items, more, acc) == ExpandMembers(cm, declared, items, fuel, acc)
    decreases fuel, 1, |items|
  {
    if items != [] {
      var item := items[0];
      if !item.Dict? && !item.List? {
        if item.Str? && item.s in declared {
          LoadFuel(cm, item.s, fuel, more);
          var sub := LoadOverrides(cm, item.s, fuel);
          if sub.Ok? {
            var acc1 := Expansion(acc.names + sub.value.names, acc.warnings + sub.value.warnings);
            ExpandFuel(cm, declared, items[1..], fuel, more, acc1);
          }
        } else {
          ExpandFuel(cm, declared, items[1..], fuel, more, Expansion(acc.names + {item}, acc.warnings));
        }
      }
    }
  }

  // ----- what the expansion yields -----

  /** A value that is left as an override name: a string, number, boolean or `None`
      that is not a declared scenario. */
  predicate Plain(v: Value, declared: set<string>) {
    !v.Dict? && !v.List? && !(v.Str? && v.s in declared)
  }

  /** Every declared scenario met is expanded: no scenario name, and no dict or
      list, is left in the result; the names and warnings gathered before are kept. */
  lemma {:induction false} LoadFlat(cm: Doc, scenario: string, fuel: nat)
    requires LoadOverrides(cm, scenario, fuel).Ok?
    ensures forall v :: v in LoadOverrides(cm, scenario, fuel).value.names ==> Plain(v, Declared(cm).value)
    decreases fuel, 0
  {
    var declared := Declared(cm).value;
    var warnings := if scenario in declared && ',' in scenario then [CommaWarning(scenario)] else [];
    var items := if scenario in declared then Members(cm, scenario) else Pieces(scenario);
    assert LoadOverrides(cm, scenario, fuel) == ExpandMembers(cm, declared, items, fuel - 1, Expansion({}, warnings));
    ExpandFlat(cm, declared, items, fuel - 1, Expansion({}, warnings));
  }

  lemma {:induction false} ExpandFlat(cm: Doc, declared: set<string>, items: seq<Value>, fuel: nat, acc: Expansion)
    requires Declared(cm).Ok? && declared == Declared(cm).value
    requires ExpandMembers(cm, declared, items, fuel, acc).Ok?
    ensures var r := ExpandMembers(cm, declared, items, fuel, acc).value;
      acc.names <= r.names && acc.warnings <= r.warnings
      && forall v :: v in r.names && v !in acc.names ==> Plain(v, declared)
    decreases fuel, 1, |items|
  {
    if items != [] {
      var item := items[0];
      if item.Str? && item.s in declared {
        var sub := LoadOverrides(cm, item.s, fuel).value;
        LoadFlat(cm, item.s, fuel);
        ExpandFlat(cm, declared, items[1..], fuel, Expansion(acc.names + sub.names, acc.warnings + sub.warnings));
      } else {
        ExpandFlat(cm, declared, items[1..], fuel, Expansion(acc.names + {item}, acc.warnings));
      }
    }
  }

  /** Members that are all plain names are collected as they are. */
  lemma {:induction false} PlainMembers(cm: Doc, declared: set<string>, items: seq<Value>, fuel: nat, acc: Expansion)
    requires forall i :: 0 <= i < |items| ==> Plain(items[i], declared)
    ensures ExpandMembers(cm, declared, items, fuel, acc)
         == Ok(Expansion(acc.names + (set v | v in items), acc.warnings))
    decreases |items|
  {
    if items != [] {
      var acc1 := Expansion(acc.names + {items[0]}, acc.warnings);
      assert ExpandMembers(cm, declared, items, fuel, acc) == ExpandMembers(cm, declared, items[1..], fuel, acc1);
      PlainMembers(cm, declared, items[1..], fuel, acc1);
      assert items == [items[0]] + items[1..];
      assert (set v | v in items) == {items[0]} + (set v | v in items[1..]);
      assert acc1.names + (set v | v in items[1..]) == acc.names + (set v | v in items);
    } else {
      assert acc.names + (set v | v in items) == acc.names;
    }
  }

  /** A declared scenario without a comma whose members are all plain names expands
      to exactly those names, with no warning. */
  lemma PlainScenario(cm: Doc, scenario: string, fuel: nat)
    requires fuel > 0 && Declared(cm).Ok? && scenario in Declared(cm).value && ',' !in scenario
    requires forall i :: 0 <= i < |Members(cm, scenario)| ==> Plain(Members(cm, scenario)[i], Declared(cm).value)
    ensures LoadOverrides(cm, scenario, fuel) == Ok(Expansion(set v | v in Members(cm, scenario), []))
  {
    var declared := Declared(cm).value;
    var items := Members(cm, scenario);
    var e := Expansion({}, []);
    assert LoadOverrides(cm, scenario, fuel) == ExpandMembers(cm, declared, items, fuel - 1, e);
    PlainMembers(cm, declared, items, fuel - 1, e);
    assert {} + (set v | v in items) == set v | v in items;
  }

  /** A name that is not a declared scenario is split on commas; when no piece names
      a scenario, the pieces are the overrides and nothing is warned. */
  lemma UndeclaredSplits(cm: Doc, scenario: string, fuel: nat)
    requires fuel > 0 && Declared(cm).Ok? && scenario !in Declared(cm).value
    requires forall p :: p in SplitOn(scenario, ',') ==> p !in Declared(cm).value
    ensures LoadOverrides(cm, scenario, fuel)
         == Ok(Expansion(set p | p in SplitOn(scenario, ',') :: Str(p), []))
  {
    var parts := SplitOn(scenario, ',');
    var items := Pieces(scenario);
    assert forall i :: 0 <= i < |items| ==> items[i] == Str(parts[i]);
    var declared := Declared(cm).value;
    assert forall i :: 0 <= i < |items| ==> Plain(items[i], declared);
    PlainMembers(cm, declared, items, fuel - 1, Expansion({}, []));
    var names := set p | p in parts :: Str(p);
    assert (set v | v in items) == names by {
      forall v | v in items ensures v in names {
        var i :| 0 <= i < |items| && items[i] == v;
        assert parts[i] in parts;
      }
      forall v | v in names ensures v in items {
        var p :| p in parts && v == Str(p);
        var i :| 0 <= i < |parts| && parts[i] == p;
        assert items[i] == v;
      }
    }
    assert {} + names == names;
    assert LoadOverrides(cm, scenario, fuel) == ExpandMembers(cm, declared, items, fuel - 1, Expansion({}, []));
  }

  /** A declared name containing a comma is warned about first, and not split: its
      definition is expanded. */
  lemma CommaWarned(cm: Doc, scenario: string, fuel: nat)
    requires Declared(cm).Ok? && scenario in Declared(cm).value && ',' in scenario
    requires LoadOverrides(cm, scenario, fuel).Ok?
    ensures var r := LoadOverrides(cm, scenario, fuel).value;
      |r.warnings| >= 1 && r.warnings[0] == CommaWarning(scenario)
    ensures LoadOverrides(cm, scenario, fuel)
         == ExpandMembers(cm, Declared(cm).value, Members(cm, scenario), fuel - 1, Expansion({}, [CommaWarning(scenario)]))
  {
    ExpandFlat(cm, Declared(cm).value, Members(cm, scenario), fuel - 1, Expansion({}, [CommaWarning(scenario)]));
  }

  /** A dict among the members of a scenario stops the expansion with "Scenario
      definition must be a list of override or other scenario names." */
  lemma DictMemberRaises(cm: Doc, scenario: string, fuel: nat)
    requires fuel > 0 && Declared(cm).Ok? && scenario in Declared(cm).value
    requires |Members(cm, scenario)| >= 1 && Members(cm, scenario)[0].Dict?
    ensures LoadOverrides(cm, scenario, fuel) == Err(InvalidScenario)
  {
  }

  /** The expansion keeps the names gathered before it and every member that is a
      plain override name. */
  lemma {:induction false} ExpandKeeps(cm: Doc, declared: set<string>, items: seq<Value>, fuel: nat, acc: Expansion)
    requires ExpandMembers(cm, declared, items, fuel, acc).Ok?
    ensures acc.names <= ExpandMembers(cm, declared, items, fuel, acc).value.names
    ensures forall i :: 0 <= i < |items| && Plain(items[i], declared) ==>
              items[i] in ExpandMembers(cm, declared, items, fuel, acc).value.names
    decreases |items|
  {
    if items != [] {
      var item := items[0];
      var next := if Plain(item, declared) then Expansion(acc.names + {item}, acc.warnings)
                  else var sub := LoadOverrides(cm, item.s, fuel).value;
                       Expansion(acc.names + sub.names, acc.warnings + sub.warnings);
      assert ExpandMembers(cm, declared, items, fuel, acc) == ExpandMembers(cm, declared, items[1..], fuel, next);
      ExpandKeeps(cm, declared, items[1..], fuel, next);
      assert forall i :: 1 <= i < |items| ==> items[i] == items[1..][i - 1];
    }
  }

  /** Converse of `LoadFlat` for a declared scenario: each of its members that is a
      plain override name is among the overrides it expands to. */
  lemma PlainMembersKept(cm: Doc, scenario: string, fuel: nat)
    requires LoadOverrides(cm, scenario, fuel).Ok? && Declared(cm).Ok? && scenario in Declared(cm).value
    ensures forall i :: 0 <= i < |Members(cm, scenario)| && Plain(Members(cm, scenario)[i], Declared(cm).value) ==>
              Members(cm, scenario)[i] in LoadOverrides(cm, scenario, fuel).value.names
  {
    var start := Expansion({}, if ',' in scenario then [CommaWarning(scenario)] else []);
    ExpandKeeps(cm, Declared(cm).value, Members(cm, scenario), fuel - 1, start);
  }

  /** A dict at position `j` of the members makes the expansion fail; when the members
      before it expand without error, it fails with the dict's own error. */
  lemma {:induction false} ExpandAtDict(cm: Doc, declared: set<string>, items: seq<Value>, j: nat, fuel: nat, acc: Expansion)
    requires j < |items| && items[j].Dict?
    ensures ExpandMembers(cm, declared, items, fuel, acc).Err?
    ensures ExpandMembers(cm, declared, items[..j], fuel, acc).Ok?
            ==> ExpandMembers(cm, declared, items, fuel, acc) == Err(InvalidScenario)
    decreases |items|
  {
    if j > 0 {
      var item := items[0];
      assert items[..j][0] == item && items[..j][1..] == items[1..][..j - 1];
      assert items[1..][j - 1] == items[j];
      if item.Str? && item.s in declared && LoadOverrides(cm, item.s, fuel).Ok? {
        var sub := LoadOverrides(cm, item.s, fuel).value;
        ExpandAtDict(cm, declared, items[1..], j - 1, fuel, Expansion(acc.names + sub.names, acc.warnings + sub.warnings));
      } else if !item.Dict? && !item.List? && !(item.Str? && item.s in declared) {
        ExpandAtDict(cm, declared, items[1..], j - 1, fuel, Expansion(acc.names + {item}, acc.warnings));
      }
    }
  }

  /** A dict anywhere among the members of a declared scenario makes the lookup fail,
      and with "Scenario definition must be a list of override or other scenario names."
      when the members before it expand without error. */
  lemma DictMemberAnywhereRaises(cm: Doc, scenario: string, fuel: nat, j: nat)
    requires fuel > 0 && Declared(cm).Ok? && scenario in Declared(cm).value
    requires j < |Members(cm, scenario)| && Members(cm, scenario)[j].Dict?
    ensures LoadOverrides(cm, scenario, fuel).Err?
    ensures var start := Expansion({}, if ',' in scenario then [CommaWarning(scenario)] else []);
      ExpandMembers(cm, Declared(cm).value, Members(cm, scenario)[..j], fuel - 1, start).Ok?
      ==> LoadOverrides(cm, scenario, fuel) == Err(InvalidScenario)
  {
    var start := Expansion({}, if ',' in scenario then [CommaWarning(scenario)] else []);
    ExpandAtDict(cm, Declared(cm).value, Members(cm, scenario), j, fuel - 1, start);
  }

  /** A scenario name without '.' is looked up as one key under `scenarios`. */
  lemma MembersDeclared(cm: Doc, name: string)
    requires Declared(cm).Ok? && name in Declared(cm).value && '.' !in name
    ensures var v := cm["scenarios"].entries[name];
      Members(cm, name) == if v.List? then v.items else [v]
  {
    assert SplitOn("scenarios", '.') == ["scenarios"];
    SplitAppend("scenarios", '.', name);
    assert "scenarios." + name == "scenarios" + ['.'] + name;
  }

  // ----- examples -----

  function Nested(): Doc {
    map["scenarios" := Dict(map[
      "s1" := List([Str("o1"), Str("o2")]),
      "s2" := List([Str("s1"), Str("o3")])])]
  }

  lemma NestedDeclared()
    ensures Declared(Nested()) == Ok({"s1", "s2"})
    ensures Members(Nested(), "s1") == [Str("o1"), Str("o2")]
    ensures Members(Nested(), "s2") == [Str("s1"), Str("o3")]
  {
    var m := Nested()["scenarios"].entries;
    assert "s1" in m && "s2" in m;
    assert m.Keys == {"s1", "s2"};
    assert Declared(Nested()) == Ok({"s1", "s2"});
    MembersDeclared(Nested(), "s1");
    MembersDeclared(Nested(), "s2");
  }

  lemma NestedInner()
    ensures LoadOverrides(Nested(), "s1", 2) == Ok(Expansion({Str("o1"), Str("o2")}, []))
  {
    NestedDeclared();
    PlainScenario(Nested(), "s1", 2);
    var items := [Str("o1"), Str("o2")];
    assert (set v | v in items) == {Str("o1"), Str("o2")};
  }

  /** The first member of `s2` is the declared scenario `s1`, whose overrides join the set. */
  lemma NestedFirstStep()
    ensures ExpandMembers(Nested(), {"s1", "s2"}, [Str("s1"), Str("o3")], 2, Expansion({}, []))
         == ExpandMembers(Nested(), {"s1", "s2"}, [Str("o3")], 2, Expansion({Str("o1"), Str("o2")}, []))
  {
    NestedInner();
    var e := Expansion({}, []);
    var e1 := Expansion({Str("o1"), Str("o2")}, []);
    assert Expansion(e.names + e1.names, e.warnings + e1.warnings) == e1;
    assert [Str("s1"), Str("o3")][1..] == [Str("o3")];
  }

  /** A scenario naming another scenario yields the overrides of both, flattened. */
  lemma NestedScenario()
    ensures LoadOverrides(Nested(), "s2", 3) == Ok(Expansion({Str("o1"), Str("o2"), Str("o3")}, []))
  {
    var cm := Nested();
    var declared := {"s1", "s2"};
    NestedDeclared();
    var items := [Str("s1"), Str("o3")];
    var e1 := Expansion({Str("o1"), Str("o2")}, []);
    assert ',' !in "s2";
    assert LoadOverrides(cm, "s2", 3) == ExpandMembers(cm, declared, items, 2, Expansion({}, []));
    NestedFirstStep();
    PlainMembers(cm, declared, [Str("o3")], 2, e1);
    assert e1.names + (set v | v in [Str("o3")]) == {Str("o1"), Str("o2"), Str("o3")};
  }

  function SelfNamed(): Doc {
    map["scenarios" := Dict(map["s" := List([Str("s")])])]
  }

  /** No cycle guard: a scenario that names itself never finishes, at any depth. */
  lemma {:induction false} CyclicScenario(fuel: nat)
    ensures LoadOverrides(SelfNamed(), "s", fuel) == Err(RecursionLimit)
  {
    if fuel > 0 {
      var cm := SelfNamed();
      assert "s" in cm["scenarios"].entries;
      assert cm["scenarios"].entries.Keys == {"s"};
      assert Declared(cm) == Ok({"s"});
      MembersDeclared(cm, "s");
      if fuel > 1 {
        CyclicScenario(fuel - 1);
      }
      assert ExpandMembers(cm, {"s"}, [Str("s")], fuel - 1, Expansion({}, [])) == Err(RecursionLimit);
    }
  }
}
