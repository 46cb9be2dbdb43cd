/** The dotted keys of the placeholder tech, node and link that the defaults define
    and `apply_overrides` deletes, and their segments. */
module Placeholders {
  import opened Text

  const TechName := "default_tech"
  const NodeName := "default_node"
  const LinkName := "default_node_from,default_node_to"
  const DefaultTech := "techs." + TechName
  const DefaultNode := "nodes." + NodeName
  const DefaultLink := "links." + LinkName

  lemma TwoSegments(a: string, b: string)
    requires '.' !in a && '.' !in b
    ensures Segments(a + "." + b) == [a, b]
  {
    assert SplitOn(a, '.') == [a];
    SplitAppend(a, '.', b);
    assert a + "." + b == a + ['.'] + b;
  }

  lemma DefaultSegments()
    ensures Segments(DefaultTech) == ["techs", TechName]
    ensures Segments(DefaultNode) == ["nodes", NodeName]
    ensures Segments(DefaultLink) == ["links", LinkName]
  {
    assert '.' !in TechName && '.' !in NodeName && '.' !in LinkName;
    TwoSegments("techs", TechName);
    TwoSegments("nodes", NodeName);
    TwoSegments("links", LinkName);
    assert DefaultTech == "techs" + "." + TechName;
    assert DefaultNode == "nodes" + "." + NodeName;
    assert DefaultLink == "links" + "." + LinkName;
  }
}

/** Override composition and layering (calliope/preprocess/model_run.py):
    `combine_overrides` unions named overrides into one document, refusing any leaf
    defined twice, and `apply_overrides` layers the defaults, the model configuration,
    the override dict, the scenario's overrides and the override dict again, keeping
    a debug document that says where each overridden leaf came from. */
module Overrides {
  import opened Text
  import opened Values
  import opened Paths
  import opened Flatten
  import opened Merge
  import opened Imports
  import opened Scenarios
  import opened Placeholders
  import AttrDicts

  // ----- combine_overrides -----

  /** `config_model.overrides[name]`, written out as YAML and read back, which resolves
      its top-level imports. Every KeyError on the way, one raised while resolving
      the imports included, is reported as an undefined override. */
  function OverrideDoc(cm: Doc, name: string, load: Value -> Result<Doc>): Result<Doc> {
    if "overrides" !in cm then Err(UndefinedOverride(name))
    else if !cm["overrides"].Dict? then Err(NotSubscriptable)
    else
      var os := cm["overrides"].entries;
      if name !in os then Err(UndefinedOverride(name))
      else if !os[name].Dict? then Err(NoAttribute)
      else match ResolveImports(os[name].entries, AtTop(true), load)
        case Ok(r) => Ok(r)
        case Err(e) => if IsKeyError(e) then Err(UndefinedOverride(name)) else Err(e)
  }

  /** `override_dict.union(o, allow_override=False)`; a KeyError names the override. */
  function CombineStep(acc: Doc, o: Doc, name: string): Result<Doc> {
    match Union(acc, o, false, false)
    case Ok(r) => Ok(r)
    case Err(e) => if IsKeyError(e) then Err(OverrideClash(e, name)) else Err(e)
  }

  function CombineFrom(acc: Doc, cm: Doc, names: seq<string>, load: Value -> Result<Doc>): Result<Doc>
    decreases |names|
  {
    if names == [] then Ok(acc)
    else match OverrideDoc(cm, names[0], load)
      case Err(e) => Err(e)
      case Ok(o) =>
        match CombineStep(acc, o, names[0])
        case Err(e) => Err(e)
        case Ok(acc1) => CombineFrom(acc1, cm, names[1..], load)
  }

  /** `combine_overrides(config_model, names)`. */
  function CombineOverrides(cm: Doc, names: seq<string>, load: Value -> Result<Doc>): Result<Doc> {
    CombineFrom(map[], cm, names, load)
  }

  /** A name not under `overrides` stops the composition with "not defined". */
  lemma FirstUndefined(acc: Doc, cm: Doc, names: seq<string>, load: Value -> Result<Doc>)
    requires names != []
    requires "overrides" !in cm || (cm["overrides"].Dict? && names[0] !in cm["overrides"].entries)
    ensures CombineFrom(acc, cm, names, load) == Err(UndefinedOverride(names[0]))
  {
  }

  /** A composition that succeeds has read every name as a defined override. */
  lemma {:induction false} CombineDefined(acc: Doc, cm: Doc, names: seq<string>, load: Value -> Result<Doc>)
    requires CombineFrom(acc, cm, names, load).Ok?
    ensures forall i :: 0 <= i < |names| ==> OverrideDoc(cm, names[i], load).Ok?
    decreases |names|
  {
    if names != [] {
      var o := OverrideDoc(cm, names[0], load).value;
      CombineDefined(CombineStep(acc, o, names[0]).value, cm, names[1..], load);
      forall i | 1 <= i < |names| ensures OverrideDoc(cm, names[i], load).Ok? {
        assert names[1..][i - 1] == names[i];
      }
    }
  }

  /** "Not defined" only ever names one of the overrides asked for. */
  lemma {:induction false} UndefinedNamed(acc: Doc, cm: Doc, names: seq<string>, load: Value -> Result<Doc>, n: string)
    requires forall v :: load(v).Err? ==> !load(v).error.UndefinedOverride?
    requires CombineFrom(acc, cm, names, load) == Err(UndefinedOverride(n))
    ensures n in names
    decreases |names|
  {
    var o := OverrideDoc(cm, names[0], load);
    if o.Ok? {
      var s := CombineStep(acc, o.value, names[0]);
      UnionNotUndefined(acc, o.value);
      UndefinedNamed(s.value, cm, names[1..], load, n);
    } else {
      OverrideDocNotUndefined(cm, names[0], load);
    }
  }

  lemma OverrideDocNotUndefined(cm: Doc, name: string, load: Value -> Result<Doc>)
    requires forall v :: load(v).Err? ==> !load(v).error.UndefinedOverride?
    requires OverrideDoc(cm, name, load).Err?
    ensures OverrideDoc(cm, name, load).error.UndefinedOverride? ==> OverrideDoc(cm, name, load).error == UndefinedOverride(name)
  {
    if "overrides" in cm && cm["overrides"].Dict? && name in cm["overrides"].entries && cm["overrides"].entries[name].Dict? {
      var o := cm["overrides"].entries[name].entries;
      ResolveNotUndefined(o, load);
    }
  }

  lemma ResolveNotUndefined(o: Doc, load: Value -> Result<Doc>)
    requires forall v :: load(v).Err? ==> !load(v).error.UndefinedOverride?
    requires ResolveImports(o, AtTop(true), load).Err?
    ensures !ResolveImports(o, AtTop(true), load).error.UndefinedOverride?
  {
    if ImportKey in o && o[ImportKey].List? {
      LayerNotUndefined(o, o[ImportKey].items, load);
    }
  }

  lemma {:induction false} LayerNotUndefined(local: Doc, imports: seq<Value>, load: Value -> Result<Doc>)
    requires forall v :: load(v).Err? ==> !load(v).error.UndefinedOverride?
    ensures Layer(local, imports, load).Err? ==> !Layer(local, imports, load).error.UndefinedOverride?
    decreases |imports|
  {
    if imports != [] && load(imports[0]).Ok? {
      var imported := load(imports[0]).value;
      UnionNotUndefined(imported, local);
      if Union(imported, local, false, false).Ok? {
        LayerNotUndefined(Union(imported, local, false, false).value, imports[1..], load);
      }
    }
  }

  lemma UnionNotUndefined(d: Doc, other: Doc)
    ensures var r := Union(d, other, false, false);
      r.Err? ==> !r.error.UndefinedOverride? && !r.error.OverrideClash?
  {
    UnionNoReplacement(d, other, false);
    OverridePassBasic(d, KeysNested(d), other, KeysNested(other));
  }

  lemma {:induction false} OverridePassBasic(d: Doc, selfKeys: seq<string>, other: Doc, keys: seq<string>)
    ensures var r := OverridePass(d, selfKeys, other, keys, false);
      r.Err? ==> !r.error.UndefinedOverride? && !r.error.OverrideClash?
    decreases |keys|
  {
    if keys != [] {
      var s := UnionStep(d, selfKeys, other, keys[0], false);
      if GetKey(other, keys[0]).Err? {
        GetPathBasic(other, Segments(keys[0]));
      }
      if s.Ok? {
        OverridePassBasic(s.value, selfKeys, other, keys[1..]);
      }
    }
  }

  lemma {:induction false} GetPathBasic(d: Doc, p: Path)
    ensures GetPath(d, p).Err? ==> !GetPath(d, p).error.UndefinedOverride? && !GetPath(d, p).error.OverrideClash?
    decreases |p|
  {
    if |p| > 1 && p[0] in d && d[p[0]].Dict? {
      GetPathBasic(d[p[0]].entries, p[1..]);
    }
  }

  /** One override without imports, composed alone, is that override. */
  lemma CombineSingle(cm: Doc, name: string, o: Doc, load: Value -> Result<Doc>)
    requires "overrides" in cm && cm["overrides"].Dict? && name in cm["overrides"].entries
    requires cm["overrides"].entries[name] == Dict(o) && ImportKey !in o && WellFormedDoc(o)
    ensures CombineOverrides(cm, [name], load) == Ok(o)
  {
    NoImportUnchanged(o, true, load);
    UnionIntoEmpty(o);
    assert OverrideDoc(cm, name, load) == Ok(o);
    assert CombineStep(map[], o, name) == Ok(o);
    assert [name][1..] == [];
    assert CombineFrom(o, cm, [], load) == Ok(o);
    assert CombineFrom(map[], cm, [name], load) == CombineFrom(o, cm, [name][1..], load);
  }

  /** Two overrides that define the same leaf clash, and the error names the second. */
  lemma CombineClash(cm: Doc, a: string, b: string, load: Value -> Result<Doc>, k: string)
    requires OverrideDoc(cm, a, load).Ok? && OverrideDoc(cm, b, load).Ok?
    requires WellFormedDoc(OverrideDoc(cm, a, load).value) && WellFormedDoc(OverrideDoc(cm, b, load).value)
    requires k in KeysNested(OverrideDoc(cm, a, load).value) && k in KeysNested(OverrideDoc(cm, b, load).value)
    ensures CombineOverrides(cm, [a, b], load).Err?
    ensures CombineOverrides(cm, [a, b], load).error.OverrideClash?
    ensures CombineOverrides(cm, [a, b], load).error.name == b
    ensures IsKeyError(CombineOverrides(cm, [a, b], load).error.cause)
  {
    var oa := OverrideDoc(cm, a, load).value;
    var ob := OverrideDoc(cm, b, load).value;
    UnionIntoEmpty(oa);
    assert CombineStep(map[], oa, a) == Ok(oa);
    assert [a, b][1..] == [b];
    assert CombineFrom(map[], cm, [a, b], load) == CombineFrom(oa, cm, [b], load);
    UnionSharedLeafFails(oa, ob, false, k);
    UnionErrorIsKeyError(oa, ob, false);
  }

  // ----- debug comments -----

  const ScenarioComment := "Applied from override"
  const OverrideDictComment := "Overridden via override dictionary."

  /** The loop `debug_comments.set_key(k, text)` over the keys of a flattened override. */
  function Comment(d: Doc, keys: seq<string>, text: string): Result<Doc>
    decreases |keys|
  {
    if keys == [] then Ok(d)
    else match SetKey(d, keys[0], Str(text))
      case Err(e) => Err(e)
      case Ok(d1) => Comment(d1, keys[1..], text)
  }

  /** Commenting keys that all diverge from `q` leaves `q` alone. */
  lemma {:induction false} CommentFrame(d: Doc, keys: seq<string>, text: string, q: Path)
    requires Comment(d, keys, text).Ok?
    requires forall i :: 0 <= i < |keys| ==> Diverge(Segments(keys[i]), q)
    ensures Find(Comment(d, keys, text).value, q) == Find(d, q)
    decreases |keys|
  {
    if keys != [] {
      var d1 := SetKey(d, keys[0], Str(text)).value;
      SetPathFrame(d, Segments(keys[0]), q, Str(text));
      forall i | 0 <= i < |keys[1..]| ensures Diverge(Segments(keys[1..][i]), q) {
        assert keys[1..][i] == keys[i + 1];
      }
      CommentFrame(d1, keys[1..], text, q);
    }
  }

  /** Every key of a set of leaf keys carries the comment afterwards. */
  lemma {:induction false} CommentLeaf(d: Doc, keys: seq<string>, text: string, j: nat)
    requires Comment(d, keys, text).Ok?
    requires j < |keys| && PairwiseDiverge(keys)
    ensures Find(Comment(d, keys, text).value, Segments(keys[j])) == Some(Str(text))
    decreases |keys|
  {
    var p := Segments(keys[j]);
    var d1 := SetKey(d, keys[0], Str(text)).value;
    var rest := keys[1..];
    forall i, l | 0 <= i < l < |rest| ensures Diverge(Segments(rest[i]), Segments(rest[l])) {
      assert rest[i] == keys[i + 1] && rest[l] == keys[l + 1];
    }
    if j == 0 {
      SetPathGet(d, p, Str(text));
      forall i | 0 <= i < |rest| ensures Diverge(Segments(rest[i]), p) {
        assert rest[i] == keys[i + 1];
        DivergeSymmetric(p, Segments(rest[i]));
      }
      CommentFrame(d1, rest, text, p);
    } else {
      assert rest[j - 1] == keys[j];
      CommentLeaf(d1, rest, text, j - 1);
    }
  }

  // ----- apply_overrides -----

  /** The result of `apply_overrides`: the layered configuration, the debug comments
      and the overrides the scenario expanded to (none without a scenario). */
  datatype Applied = Applied(config: Doc, debug: Doc, overrides: set<Value>)

  /** `i in config_model.get("overrides", {})`. */
  predicate Defined(cm: Doc, v: Value) {
    v.Str? && "overrides" in cm && cm["overrides"].Dict? && v.s in cm["overrides"].entries
  }

  /** The names of a set of override names that are strings. */
  function Strings(names: set<Value>): set<string> {
    set v | v in names && v.Str? :: v.s
  }

  /** The defaults, then the model configuration, then the override dict (when not empty).
      The `timeseries_data_path` test reads `config.model` first, so a configuration
      without a `model` section raises KeyError. */
  function Base(defaults: Doc, config: Doc, overrideDict: Doc): Result<Doc> {
    if "model" !in config then Err(KeyNotFound(Str("model")))
    else match Union(defaults, config, true, false)
    case Err(e) => Err(e)
    case Ok(c1) => if overrideDict == map[] then Ok(c1) else Union(c1, overrideDict, true, true)
  }

  /** The scenario's overrides, combined in the order `listing` gives to the set of
      their names, applied to `cm` and commented. */
  function WithScenario(cm: Doc, scenario: string, fuel: nat, load: Value -> Result<Doc>,
                        listing: set<string> -> seq<string>): Result<Applied>
  {
    if scenario == "" then Ok(Applied(cm, map[], {}))
    else match LoadOverrides(cm, scenario, fuel)
      case Err(e) => Err(e)
      case Ok(x) =>
        if !(forall v :: v in x.names ==> Defined(cm, v)) then Err(InvalidScenario)
        else match CombineOverrides(cm, listing(Strings(x.names)), load)
          case Err(e) => Err(e)
          case Ok(combined) =>
            match Union(cm, combined, true, true)
            case Err(e) => Err(e)
            case Ok(c3) =>
              match AsDictFlat(combined)
              case Err(e) => Err(e)
              case Ok(_) =>
                match Comment(map[], KeysNested(combined), ScenarioComment)
                case Err(e) => Err(e)
                case Ok(debug) => Ok(Applied(c3, debug, x.names))
  }

  /** The second pass of the override dict, over whatever the scenario set. */
  function Again(a: Applied, overrideDict: Doc): (r: Result<Applied>)
    ensures r.Ok? ==> r.value.overrides == a.overrides
    ensures overrideDict == map[] ==> r == Ok(a)
  {
    if overrideDict == map[] then Ok(a)
    else match Union(a.config, overrideDict, true, true)
      case Err(e) => Err(e)
      case Ok(c4) =>
        match AsDictFlat(overrideDict)
        case Err(e) => Err(e)
        case Ok(_) =>
          match Comment(a.debug, KeysNested(overrideDict), OverrideDictComment)
          case Err(e) => Err(e)
          case Ok(debug) => Ok(Applied(c4, debug, a.overrides))
  }

  /** The placeholder tech, node and link of the defaults are deleted; a missing one
      raises KeyError. */
  function DropDefaults(d: Doc): Result<Doc> {
    match DelKey(d, DefaultTech)
    case Err(e) => Err(e)
    case Ok(d1) =>
      match DelKey(d1, DefaultNode)
      case Err(e) => Err(e)
      case Ok(d2) => DelKey(d2, DefaultLink)
  }

  /** `apply_overrides(config, scenario, override_dict)` with the defaults document
      given; `scenario == ""` stands for no scenario and an empty override dict for none. */
  function ApplyOverrides(defaults: Doc, config: Doc, scenario: string, overrideDict: Doc, fuel: nat,
                          load: Value -> Result<Doc>, listing: set<string> -> seq<string>): Result<Applied>
  {
    match Base(defaults, config, overrideDict)
    case Err(e) => Err(e)
    case Ok(c2) =>
      match WithScenario(c2, scenario, fuel, load, listing)
      case Err(e) => Err(e)
      case Ok(a3) =>
        match Again(a3, overrideDict)
        case Err(e) => Err(e)
        case Ok(a4) =>
          match DropDefaults(a4.config)
          case Err(e) => Err(e)
          case Ok(c5) => Ok(Applied(c5, a4.debug, a4.overrides))
  }

  /** `";".join(applied_overrides)` of the model run, in the order `listing` gives. */
  function AppliedOverrides(a: Applied, listing: set<string> -> seq<string>): string {
    JoinWith(';', listing(Strings(a.overrides)))
  }

  // ----- what apply_overrides guarantees -----

  lemma BaseParts(defaults: Doc, config: Doc, overrideDict: Doc)
    requires Base(defaults, config, overrideDict).Ok?
    ensures "model" in config
    ensures Union(defaults, config, true, false).Ok?
    ensures var c1 := Union(defaults, config, true, false).value;
      Base(defaults, config, overrideDict) == if overrideDict == map[] then Ok(c1) else Union(c1, overrideDict, true, true)
  {
  }

  lemma ScenarioParts(cm: Doc, scenario: string, fuel: nat, load: Value -> Result<Doc>,
                      listing: set<string> -> seq<string>, x: Expansion, combined: Doc)
    requires WithScenario(cm, scenario, fuel, load, listing).Ok?
    requires scenario != "" && LoadOverrides(cm, scenario, fuel) == Ok(x)
    requires CombineOverrides(cm, listing(Strings(x.names)), load) == Ok(combined)
    ensures Union(cm, combined, true, true).Ok? && Comment(map[], KeysNested(combined), ScenarioComment).Ok?
    ensures WithScenario(cm, scenario, fuel, load, listing)
         == Ok(Applied(Union(cm, combined, true, true).value, Comment(map[], KeysNested(combined), ScenarioComment).value, x.names))
  {
  }

  lemma AgainParts(a: Applied, overrideDict: Doc)
    requires Again(a, overrideDict).Ok? && overrideDict != map[]
    ensures Union(a.config, overrideDict, true, true).Ok?
    ensures Comment(a.debug, KeysNested(overrideDict), OverrideDictComment).Ok?
    ensures Again(a, overrideDict) == Ok(Applied(Union(a.config, overrideDict, true, true).value,
                                              Comment(a.debug, KeysNested(overrideDict), OverrideDictComment).value, a.overrides))
  {
  }

  /** A run that succeeds passed every stage. */
  lemma ApplyStages(defaults: Doc, config: Doc, scenario: string, overrideDict: Doc, fuel: nat,
                    load: Value -> Result<Doc>, listing: set<string> -> seq<string>)
    requires ApplyOverrides(defaults, config, scenario, overrideDict, fuel, load, listing).Ok?
    ensures Base(defaults, config, overrideDict).Ok?
    ensures WithScenario(Base(defaults, config, overrideDict).value, scenario, fuel, load, listing).Ok?
    ensures Again(WithScenario(Base(defaults, config, overrideDict).value, scenario, fuel, load, listing).value, overrideDict).Ok?
    ensures var a4 := Again(WithScenario(Base(defaults, config, overrideDict).value, scenario, fuel, load, listing).value, overrideDict).value;
      DropDefaults(a4.config).Ok?
      && ApplyOverrides(defaults, config, scenario, overrideDict, fuel, load, listing)
         == Ok(Applied(DropDefaults(a4.config).value, a4.debug, a4.overrides))
  {
  }

  /** The placeholders are gone from the result, and nothing off their paths changes. */
  lemma DropDefaultsSpec(d: Doc, q: Path)
    requires DropDefaults(d).Ok?
    ensures Find(DropDefaults(d).value, Segments(DefaultTech)).None?
    ensures Find(DropDefaults(d).value, Segments(DefaultNode)).None?
    ensures Find(DropDefaults(d).value, Segments(DefaultLink)).None?
    ensures Diverge(q, Segments(DefaultTech)) && Diverge(q, Segments(DefaultNode)) && Diverge(q, Segments(DefaultLink))
            ==> Find(DropDefaults(d).value, q) == Find(d, q)
  {
    DefaultSegments();
    var t, n, l := Segments(DefaultTech), Segments(DefaultNode), Segments(DefaultLink);
    var d1 := DelPath(d, t).value;
    var d2 := DelPath(d1, n).value;
    var d3 := DelPath(d2, l).value;
    DelPathRemoves(d, t);
    DelPathRemoves(d1, n);
    DelPathRemoves(d2, l);
    DelPathFrame(d1, n, t);
    DelPathFrame(d2, l, t);
    DelPathFrame(d2, l, n);
    if Diverge(q, t) && Diverge(q, n) && Diverge(q, l) {
      DivergeSymmetric(q, t);
      DivergeSymmetric(q, n);
      DivergeSymmetric(q, l);
      DelPathFrame(d, t, q);
      DelPathFrame(d1, n, q);
      DelPathFrame(d2, l, q);
    }
  }

  /** Whatever the layers held, the default tech, node and link are not in the result. */
  lemma DefaultsDropped(defaults: Doc, config: Doc, scenario: string, overrideDict: Doc, fuel: nat,
                        load: Value -> Result<Doc>, listing: set<string> -> seq<string>)
    requires ApplyOverrides(defaults, config, scenario, overrideDict, fuel, load, listing).Ok?
    ensures var c := ApplyOverrides(defaults, config, scenario, overrideDict, fuel, load, listing).value.config;
      Find(c, Segments(DefaultTech)).None? && Find(c, Segments(DefaultNode)).None?
      && Find(c, Segments(DefaultLink)).None?
  {
    ApplyStages(defaults, config, scenario, overrideDict, fuel, load, listing);
    var c2 := Base(defaults, config, overrideDict).value;
    var a3 := WithScenario(c2, scenario, fuel, load, listing).value;
    var a4 := Again(a3, overrideDict).value;
    DropDefaultsSpec(a4.config, Segments(DefaultTech));
  }

  /** A scenario expanding to a name that is not a defined override is refused. */
  lemma ScenarioInvalid(defaults: Doc, config: Doc, scenario: string, overrideDict: Doc, fuel: nat,
                        load: Value -> Result<Doc>, listing: set<string> -> seq<string>, v: Value)
    requires scenario != "" && Base(defaults, config, overrideDict).Ok?
    requires var c2 := Base(defaults, config, overrideDict).value;
      LoadOverrides(c2, scenario, fuel).Ok? && v in LoadOverrides(c2, scenario, fuel).value.names && !Defined(c2, v)
    ensures ApplyOverrides(defaults, config, scenario, overrideDict, fuel, load, listing) == Err(InvalidScenario)
  {
  }

  /** The overrides reported are the scenario's expansion, each a defined override name;
      without a scenario there are none. */
  lemma AppliedNames(defaults: Doc, config: Doc, scenario: string, overrideDict: Doc, fuel: nat,
                     load: Value -> Result<Doc>, listing: set<string> -> seq<string>)
    requires ApplyOverrides(defaults, config, scenario, overrideDict, fuel, load, listing).Ok?
    ensures var a := ApplyOverrides(defaults, config, scenario, overrideDict, fuel, load, listing).value;
      var c2 := Base(defaults, config, overrideDict).value;
      (scenario == "" ==> a.overrides == {})
      && (scenario != "" ==> LoadOverrides(c2, scenario, fuel) == Ok(Expansion(a.overrides, LoadOverrides(c2, scenario, fuel).value.warnings)))
      && forall v :: v in a.overrides ==> Defined(c2, v)
  {
    ApplyStages(defaults, config, scenario, overrideDict, fuel, load, listing);
    var c2 := Base(defaults, config, overrideDict).value;
    var a3 := WithScenario(c2, scenario, fuel, load, listing).value;
    var a := ApplyOverrides(defaults, config, scenario, overrideDict, fuel, load, listing).value;
    assert a.overrides == a3.overrides;
    ScenarioNames(c2, scenario, fuel, load, listing);
  }

  lemma ScenarioNames(cm: Doc, scenario: string, fuel: nat, load: Value -> Result<Doc>,
                      listing: set<string> -> seq<string>)
    requires WithScenario(cm, scenario, fuel, load, listing).Ok?
    ensures var a := WithScenario(cm, scenario, fuel, load, listing).value;
      (scenario == "" ==> a.overrides == {})
      && (scenario != "" ==> LoadOverrides(cm, scenario, fuel) == Ok(Expansion(a.overrides, LoadOverrides(cm, scenario, fuel).value.warnings)))
      && forall v :: v in a.overrides ==> Defined(cm, v)
  {
  }

  /** `applied_overrides` lists the names separated by ';' and splits back into them
      when no name has a ';' itself. */
  lemma AppliedOverridesSplit(a: Applied, listing: set<string> -> seq<string>)
    requires var names := listing(Strings(a.overrides));
      |names| >= 1 && forall i :: 0 <= i < |names| ==> ';' !in names[i]
    ensures SplitOn(AppliedOverrides(a, listing), ';') == listing(Strings(a.overrides))
  {
    SplitJoin(listing(Strings(a.overrides)), ';');
  }

  // ----- layering order -----

  /** No key of `d` carries the `_REPLACE_` marker. */
  predicate Unmarked(d: Doc) {
    forall k :: k in KeysNested(d) ==> !Contains(k, WipeMarker)
  }

  predicate OffPlaceholders(p: Path) {
    Diverge(p, Segments(DefaultTech)) && Diverge(p, Segments(DefaultNode)) && Diverge(p, Segments(DefaultLink))
  }

  /** Union with `allow_replacement` of a document without markers: a scalar leaf of
      it is stored, and paths off its leaves are left alone. */
  lemma UnionUnmarked(d: Doc, other: Doc, p: Path, w: Value, q: Path)
    requires WellFormedDoc(other) && Unmarked(other) && Union(d, other, true, true).Ok?
    ensures p in LeafPaths(other) && Find(other, p) == Some(w) && !w.Dict? && !w.Null?
            ==> Find(Union(d, other, true, true).value, p) == Some(w)
    ensures (forall r :: r in LeafPaths(other) ==> Diverge(r, q))
            ==> Find(Union(d, other, true, true).value, q) == Find(d, q)
  {
    UnionWithoutMarkers(d, other, true);
    if p in LeafPaths(other) && Find(other, p) == Some(w) && !w.Dict? && !w.Null? {
      UnionLeaf(d, other, true, p, w);
    }
    if forall r :: r in LeafPaths(other) ==> Diverge(r, q) {
      UnionFrame(d, other, true, q);
    }
  }

  /** The second pass of the override dict lays its scalar leaves over the configuration. */
  lemma AgainOverrideWins(a: Applied, overrideDict: Doc, p: Path, w: Value)
    requires Again(a, overrideDict).Ok?
    requires WellFormedDoc(overrideDict) && Unmarked(overrideDict)
    requires p in LeafPaths(overrideDict) && Find(overrideDict, p) == Some(w) && !w.Dict? && !w.Null?
    ensures Find(Again(a, overrideDict).value.config, p) == Some(w)
  {
    assert overrideDict != map[];
    assert Again(a, overrideDict).value.config == Union(a.config, overrideDict, true, true).value;
    UnionUnmarked(a.config, overrideDict, p, w, p);
  }

  /** Any scalar leaf of the override dict ends with the override dict's value: its
      second pass comes after the scenario. */
  lemma OverrideDictWins(defaults: Doc, config: Doc, scenario: string, overrideDict: Doc, fuel: nat,
                         load: Value -> Result<Doc>, listing: set<string> -> seq<string>, p: Path, w: Value)
    requires ApplyOverrides(defaults, config, scenario, overrideDict, fuel, load, listing).Ok?
    requires WellFormedDoc(overrideDict) && Unmarked(overrideDict)
    requires p in LeafPaths(overrideDict) && Find(overrideDict, p) == Some(w) && !w.Dict? && !w.Null?
    requires OffPlaceholders(p)
    ensures Find(ApplyOverrides(defaults, config, scenario, overrideDict, fuel, load, listing).value.config, p) == Some(w)
  {
    ApplyStages(defaults, config, scenario, overrideDict, fuel, load, listing);
    var c2 := Base(defaults, config, overrideDict).value;
    var a3 := WithScenario(c2, scenario, fuel, load, listing).value;
    AgainOverrideWins(a3, overrideDict, p, w);
    DropDefaultsSpec(Again(a3, overrideDict).value.config, p);
  }

  /** The second pass of the override dict replaces each `_REPLACE_` target: the value
      under `<target>._REPLACE_` is laid over what the first part of that union left at
      the target, and taken as it is when nothing was there. */
  lemma AgainReplaces(a: Applied, overrideDict: Doc, j: nat)
    requires Again(a, overrideDict).Ok?
    requires Separate(WipeTargets(KeysNested(overrideDict))) && j < |WipeTargets(KeysNested(overrideDict))|
    ensures var t := WipeTargets(KeysNested(overrideDict))[j];
      var p := Segments(t);
      var v := GetKey(overrideDict, t + "." + WipeMarker);
      && FirstPass(a.config, overrideDict, true).Ok? && v.Ok?
      && (Find(FirstPass(a.config, overrideDict, true).value, p).Some? ==>
            Overlay(Find(FirstPass(a.config, overrideDict, true).value, p).value, v.value).Ok?)
      && Find(Again(a, overrideDict).value.config, p)
         == Some(Written(Find(FirstPass(a.config, overrideDict, true).value, p), v.value))
  {
    assert Again(a, overrideDict).value.config == Union(a.config, overrideDict, true, true).value;
    UnionReplacement(a.config, overrideDict, true, j);
  }

  /** A `_REPLACE_` target of the override dict that is off the placeholders ends with
      the replacement value laid over what the last union's first part left there,
      whatever the scenario set before. */
  lemma OverrideDictReplaces(defaults: Doc, config: Doc, scenario: string, overrideDict: Doc, fuel: nat,
                             load: Value -> Result<Doc>, listing: set<string> -> seq<string>, j: nat)
    requires ApplyOverrides(defaults, config, scenario, overrideDict, fuel, load, listing).Ok?
    requires Separate(WipeTargets(KeysNested(overrideDict))) && j < |WipeTargets(KeysNested(overrideDict))|
    requires OffPlaceholders(Segments(WipeTargets(KeysNested(overrideDict))[j]))
    ensures var a3 := WithScenario(Base(defaults, config, overrideDict).value, scenario, fuel, load, listing).value;
      var t := WipeTargets(KeysNested(overrideDict))[j];
      var v := GetKey(overrideDict, t + "." + WipeMarker);
      && FirstPass(a3.config, overrideDict, true).Ok? && v.Ok?
      && (Find(FirstPass(a3.config, overrideDict, true).value, Segments(t)).Some? ==>
            Overlay(Find(FirstPass(a3.config, overrideDict, true).value, Segments(t)).value, v.value).Ok?)
      && Find(ApplyOverrides(defaults, config, scenario, overrideDict, fuel, load, listing).value.config, Segments(t))
         == Some(Written(Find(FirstPass(a3.config, overrideDict, true).value, Segments(t)), v.value))
  {
    ApplyStages(defaults, config, scenario, overrideDict, fuel, load, listing);
    var c2 := Base(defaults, config, overrideDict).value;
    var a3 := WithScenario(c2, scenario, fuel, load, listing).value;
    var p := Segments(WipeTargets(KeysNested(overrideDict))[j]);
    AgainReplaces(a3, overrideDict, j);
    DropDefaultsSpec(Again(a3, overrideDict).value.config, p);
  }

  /** The second pass comments every key of the override dict. */
  lemma AgainComments(a: Applied, overrideDict: Doc, k: string)
    requires Again(a, overrideDict).Ok?
    requires WellFormedDoc(overrideDict) && k in KeysNested(overrideDict)
    ensures Find(Again(a, overrideDict).value.debug, Segments(k)) == Some(Str(OverrideDictComment))
  {
    var keys := KeysNested(overrideDict);
    assert overrideDict != map[];
    assert Again(a, overrideDict).value.debug == Comment(a.debug, keys, OverrideDictComment).value;
    LeafKeysDiverge(overrideDict);
    var j :| 0 <= j < |keys| && keys[j] == k;
    CommentLeaf(a.debug, keys, OverrideDictComment, j);
  }

  /** Every key of the override dict is commented as overridden by it, whatever the
      scenario commented first. */
  lemma DebugOverrideDictWins(defaults: Doc, config: Doc, scenario: string, overrideDict: Doc, fuel: nat,
                              load: Value -> Result<Doc>, listing: set<string> -> seq<string>, k: string)
    requires ApplyOverrides(defaults, config, scenario, overrideDict, fuel, load, listing).Ok?
    requires WellFormedDoc(overrideDict) && k in KeysNested(overrideDict)
    ensures Find(ApplyOverrides(defaults, config, scenario, overrideDict, fuel, load, listing).value.debug, Segments(k))
         == Some(Str(OverrideDictComment))
  {
    ApplyStages(defaults, config, scenario, overrideDict, fuel, load, listing);
    var c2 := Base(defaults, config, overrideDict).value;
    var a3 := WithScenario(c2, scenario, fuel, load, listing).value;
    AgainComments(a3, overrideDict, k);
  }

  /** Without a scenario, a scalar leaf of the model configuration that the override
      dict does not touch overrides the defaults and survives to the result. */
  lemma ConfigOverDefaults(defaults: Doc, config: Doc, overrideDict: Doc, fuel: nat,
                           load: Value -> Result<Doc>, listing: set<string> -> seq<string>, p: Path, w: Value)
    requires ApplyOverrides(defaults, config, "", overrideDict, fuel, load, listing).Ok?
    requires WellFormedDoc(config) && p in LeafPaths(config) && Find(config, p) == Some(w) && !w.Dict? && !w.Null?
    requires WellFormedDoc(overrideDict) && Unmarked(overrideDict)
    requires forall r :: r in LeafPaths(overrideDict) ==> Diverge(r, p)
    requires OffPlaceholders(p)
    ensures Find(ApplyOverrides(defaults, config, "", overrideDict, fuel, load, listing).value.config, p) == Some(w)
  {
    ApplyStages(defaults, config, "", overrideDict, fuel, load, listing);
    BaseParts(defaults, config, overrideDict);
    var c1 := Union(defaults, config, true, false).value;
    UnionLeaf(defaults, config, true, p, w);
    var c2 := Base(defaults, config, overrideDict).value;
    var a3 := WithScenario(c2, "", fuel, load, listing).value;
    assert a3.config == c2;
    var a4 := Again(a3, overrideDict).value;
    if overrideDict != map[] {
      UnionUnmarked(c1, overrideDict, p, w, p);
      AgainParts(a3, overrideDict);
      UnionUnmarked(c2, overrideDict, p, w, p);
    }
    DropDefaultsSpec(a4.config, p);
  }

  /** Every key of the scenario's combined overrides is commented as applied from an
      override. */
  lemma ScenarioCommented(cm: Doc, scenario: string, fuel: nat, load: Value -> Result<Doc>,
                          listing: set<string> -> seq<string>, x: Expansion, combined: Doc, k: string)
    requires WithScenario(cm, scenario, fuel, load, listing).Ok?
    requires scenario != "" && LoadOverrides(cm, scenario, fuel) == Ok(x)
    requires CombineOverrides(cm, listing(Strings(x.names)), load) == Ok(combined)
    requires WellFormedDoc(combined) && k in KeysNested(combined)
    ensures Find(WithScenario(cm, scenario, fuel, load, listing).value.debug, Segments(k)) == Some(Str(ScenarioComment))
  {
    var keys := KeysNested(combined);
    ScenarioParts(cm, scenario, fuel, load, listing, x, combined);
    LeafKeysDiverge(combined);
    var j :| 0 <= j < |keys| && keys[j] == k;
    CommentLeaf(map[], keys, ScenarioComment, j);
  }

  /** A scenario's comment survives unless the override dict comments the same key. */
  lemma ScenarioCommentKept(defaults: Doc, config: Doc, scenario: string, overrideDict: Doc, fuel: nat,
                            load: Value -> Result<Doc>, listing: set<string> -> seq<string>,
                            x: Expansion, combined: Doc, k: string)
    requires ApplyOverrides(defaults, config, scenario, overrideDict, fuel, load, listing).Ok?
    requires scenario != "" && Base(defaults, config, overrideDict).Ok?
    requires var c2 := Base(defaults, config, overrideDict).value;
      LoadOverrides(c2, scenario, fuel) == Ok(x) && CombineOverrides(c2, listing(Strings(x.names)), load) == Ok(combined)
    requires WellFormedDoc(combined) && k in KeysNested(combined)
    requires forall i :: 0 <= i < |KeysNested(overrideDict)| ==> Diverge(Segments(KeysNested(overrideDict)[i]), Segments(k))
    ensures Find(ApplyOverrides(defaults, config, scenario, overrideDict, fuel, load, listing).value.debug, Segments(k))
         == Some(Str(ScenarioComment))
  {
    ApplyStages(defaults, config, scenario, overrideDict, fuel, load, listing);
    var c2 := Base(defaults, config, overrideDict).value;
    var a3 := WithScenario(c2, scenario, fuel, load, listing).value;
    ScenarioCommented(c2, scenario, fuel, load, listing, x, combined, k);
    if overrideDict != map[] {
      AgainParts(a3, overrideDict);
      CommentFrame(a3.debug, KeysNested(overrideDict), OverrideDictComment, Segments(k));
    }
  }

  /** A scalar leaf of the scenario's overrides that the override dict does not touch
      ends in the result. */
  lemma ScenarioApplied(defaults: Doc, config: Doc, scenario: string, overrideDict: Doc, fuel: nat,
                        load: Value -> Result<Doc>, listing: set<string> -> seq<string>,
                        x: Expansion, combined: Doc, p: Path, w: Value)
    requires ApplyOverrides(defaults, config, scenario, overrideDict, fuel, load, listing).Ok?
    requires scenario != "" && Base(defaults, config, overrideDict).Ok?
    requires var c2 := Base(defaults, config, overrideDict).value;
      LoadOverrides(c2, scenario, fuel) == Ok(x) && CombineOverrides(c2, listing(Strings(x.names)), load) == Ok(combined)
    requires WellFormedDoc(combined) && Unmarked(combined)
    requires p in LeafPaths(combined) && Find(combined, p) == Some(w) && !w.Dict? && !w.Null?
    requires WellFormedDoc(overrideDict) && Unmarked(overrideDict)
    requires forall r :: r in LeafPaths(overrideDict) ==> Diverge(r, p)
    requires OffPlaceholders(p)
    ensures Find(ApplyOverrides(defaults, config, scenario, overrideDict, fuel, load, listing).value.config, p) == Some(w)
  {
    ApplyStages(defaults, config, scenario, overrideDict, fuel, load, listing);
    var c2 := Base(defaults, config, overrideDict).value;
    var a3 := WithScenario(c2, scenario, fuel, load, listing).value;
    ScenarioParts(c2, scenario, fuel, load, listing, x, combined);
    UnionUnmarked(c2, combined, p, w, p);
    var a4 := Again(a3, overrideDict).value;
    if overrideDict != map[] {
      AgainParts(a3, overrideDict);
      UnionUnmarked(a3.config, overrideDict, p, w, p);
    }
    DropDefaultsSpec(a4.config, p);
  }

  // ----- the imperative procedures -----

  /** `AttrDict.from_yaml_string(config_model.overrides[name].to_yaml())`. */
  method ReadOverride(cm: Doc, name: string, load: Value -> Result<Doc>) returns (o: AttrDicts.AttrDict, err: Option<Error>)
    ensures fresh(o)
    ensures OverrideDoc(cm, name, load).Ok? ==> err == None && o.entries == OverrideDoc(cm, name, load).value
    ensures OverrideDoc(cm, name, load).Err? ==> err == Some(OverrideDoc(cm, name, load).error)
  {
    o := new AttrDicts.AttrDict();
    if "overrides" !in cm || (cm["overrides"].Dict? && name !in cm["overrides"].entries) {
      return o, Some(UndefinedOverride(name));
    }
    if !cm["overrides"].Dict? {
      return o, Some(NotSubscriptable);
    }
    var v := cm["overrides"].entries[name];
    if !v.Dict? {
      return o, Some(NoAttribute);
    }
    o := new AttrDicts.AttrDict.Of(v.entries);
    err := o.ResolveImports(AtTop(true), load);
    if err.Some? && IsKeyError(err.value) {
      err := Some(UndefinedOverride(name));
    }
  }

  /** `combine_overrides(config_model, names)`: each override is unioned into a fresh
      `AttrDict` in turn. */
  method Combine(cm: Doc, names: seq<string>, load: Value -> Result<Doc>) returns (res: AttrDicts.AttrDict, err: Option<Error>)
    ensures fresh(res)
    ensures CombineOverrides(cm, names, load).Ok? ==> err == None && res.entries == CombineOverrides(cm, names, load).value
    ensures CombineOverrides(cm, names, load).Err? ==> err == Some(CombineOverrides(cm, names, load).error)
  {
    res := new AttrDicts.AttrDict();
    var i := 0;
    while i < |names|
      invariant 0 <= i <= |names| && fresh(res)
      invariant CombineFrom(res.entries, cm, names[i..], load) == CombineOverrides(cm, names, load)
    {
      assert names[i..][0] == names[i] && names[i..][1..] == names[i + 1..];
      var o, e := ReadOverride(cm, names[i], load);
      if e.Some? {
        return res, e;
      }
      e := res.Union(o.entries, false, false);
      if e.Some? {
        if IsKeyError(e.value) {
          e := Some(OverrideClash(e.value, names[i]));
        }
        return res, e;
      }
      i := i + 1;
    }
    err := None;
  }

  /** The loop `debug_comments.set_key(k, text)` over `keys`. */
  method CommentAll(debug: AttrDicts.AttrDict, keys: seq<string>, text: string) returns (err: Option<Error>)
    modifies debug
    ensures Comment(old(debug.entries), keys, text).Ok? ==> err == None && debug.entries == Comment(old(debug.entries), keys, text).value
    ensures Comment(old(debug.entries), keys, text).Err? ==> err == Some(Comment(old(debug.entries), keys, text).error)
  {
    var i := 0;
    while i < |keys|
      invariant 0 <= i <= |keys|
      invariant Comment(debug.entries, keys[i..], text) == Comment(old(debug.entries), keys, text)
    {
      assert keys[i..][0] == keys[i] && keys[i..][1..] == keys[i + 1..];
      err := debug.SetKey(keys[i], Str(text));
      if err.Some? {
        return;
      }
      i := i + 1;
    }
    err := None;
  }

  /** The defaults, then the model configuration, then the override dict, unioned in
      place into a fresh `AttrDict`. */
  method ApplyBase(defaults: Doc, config: Doc, overrideDict: Doc) returns (configModel: AttrDicts.AttrDict, err: Option<Error>)
    ensures fresh(configModel)
    ensures Base(defaults, config, overrideDict).Ok? ==> err == None && configModel.entries == Base(defaults, config, overrideDict).value
    ensures Base(defaults, config, overrideDict).Err? ==> err == Some(Base(defaults, config, overrideDict).error)
  {
    configModel := new AttrDicts.AttrDict.Of(defaults);
    if "model" !in config {
      return configModel, Some(KeyNotFound(Str("model")));
    }
    err := configModel.Union(config, true, false);
    if err.None? && overrideDict != map[] {
      err := configModel.Union(overrideDict, true, true);
    }
  }

  /** The scenario's overrides unioned into `configModel` and commented in `debug`. */
  method ApplyScenario(configModel: AttrDicts.AttrDict, debug: AttrDicts.AttrDict, scenario: string, fuel: nat,
                       load: Value -> Result<Doc>, listing: set<string> -> seq<string>)
    returns (overrides: set<Value>, err: Option<Error>)
    requires configModel != debug && debug.entries == map[]
    modifies configModel, debug
    ensures var r := WithScenario(old(configModel.entries), scenario, fuel, load, listing);
      (r.Ok? ==> err == None && configModel.entries == r.value.config && debug.entries == r.value.debug
                 && overrides == r.value.overrides)
      && (r.Err? ==> err == Some(r.error))
  {
    overrides := {};
    if scenario == "" {
      return {}, None;
    }
    var x := LoadOverridesFromScenario(configModel.entries, scenario, fuel);
    if x.Err? {
      return {}, Some(x.error);
    }
    if !(forall v :: v in x.value.names ==> Defined(configModel.entries, v)) {
      return {}, Some(InvalidScenario);
    }
    var combined, e := Combine(configModel.entries, listing(Strings(x.value.names)), load);
    if e.Some? {
      return {}, e;
    }
    err := configModel.Union(combined.entries, true, true);
    if err.Some? {
      return;
    }
    var flat := AsDictFlat(combined.entries);
    if flat.Err? {
      return {}, Some(flat.error);
    }
    err := CommentAll(debug, KeysNested(combined.entries), ScenarioComment);
    overrides := x.value.names;
  }

  /** The second pass of the override dict. */
  method ApplyAgain(configModel: AttrDicts.AttrDict, debug: AttrDicts.AttrDict, overrideDict: Doc, ghost names: set<Value>)
    returns (err: Option<Error>)
    requires configModel != debug
    modifies configModel, debug
    ensures var r := Again(Applied(old(configModel.entries), old(debug.entries), names), overrideDict);
      (r.Ok? ==> err == None && configModel.entries == r.value.config && debug.entries == r.value.debug)
      && (r.Err? ==> err == Some(r.error))
  {
    if overrideDict == map[] {
      return None;
    }
    err := configModel.Union(overrideDict, true, true);
    if err.Some? {
      return;
    }
    var flat := AsDictFlat(overrideDict);
    if flat.Err? {
      return Some(flat.error);
    }
    err := CommentAll(debug, KeysNested(overrideDict), OverrideDictComment);
  }

  /** The three `del_key` calls on the placeholders. */
  method ApplyDrop(configModel: AttrDicts.AttrDict) returns (err: Option<Error>)
    modifies configModel
    ensures DropDefaults(old(configModel.entries)).Ok? ==> err == None && configModel.entries == DropDefaults(old(configModel.entries)).value
    ensures DropDefaults(old(configModel.entries)).Err? ==> err == Some(DropDefaults(old(configModel.entries)).error)
  {
    err := configModel.DelKey(DefaultTech);
    if err.None? {
      err := configModel.DelKey(DefaultNode);
      if err.None? {
        err := configModel.DelKey(DefaultLink);
      }
    }
  }

  /** `apply_overrides`: successive in-place unions into the configuration, with the
      debug comments gathered alongside. */
  method Apply(defaults: Doc, config: Doc, scenario: string, overrideDict: Doc, fuel: nat,
               load: Value -> Result<Doc>, listing: set<string> -> seq<string>)
    returns (configModel: AttrDicts.AttrDict, debug: AttrDicts.AttrDict, overrides: set<Value>, err: Option<Error>)
    ensures var r := ApplyOverrides(defaults, config, scenario, overrideDict, fuel, load, listing);
      (r.Ok? ==> err == None && configModel.entries == r.value.config && debug.entries == r.value.debug
                 && overrides == r.value.overrides)
      && (r.Err? ==> err == Some(r.error))
  {
    debug := new AttrDicts.AttrDict();
    overrides := {};
    configModel, err := ApplyBase(defaults, config, overrideDict);
    if err.Some? {
      return;
    }
    ghost var c2 := configModel.entries;
    overrides, err := ApplyScenario(configModel, debug, scenario, fuel, load, listing);
    if err.Some? {
      return;
    }
    ghost var a3 := Applied(configModel.entries, debug.entries, overrides);
    assert WithScenario(c2, scenario, fuel, load, listing) == Ok(a3);
    err := ApplyAgain(configModel, debug, overrideDict, overrides);
    if err.Some? {
      return;
    }
    ghost var a4 := Applied(configModel.entries, debug.entries, overrides);
    assert Again(a3, overrideDict) == Ok(a4);
    err := ApplyDrop(configModel);
    assert ApplyOverrides(defaults, config, scenario, overrideDict, fuel, load, listing)
        == match DropDefaults(a4.config)
           case Err(e) => Err(e)
           case Ok(c5) => Ok(Applied(c5, a4.debug, a4.overrides));
  }
}
