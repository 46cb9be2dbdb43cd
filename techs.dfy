/** The inheritance chain of a technology (calliope/preprocess/model_run.py,
    `get_parents`): a tech names its parent group in `essentials.parent`, each group
    in `tech_groups` names its own parent the same way, and the chain ends at the
    group whose parent is `None`. */
module Parents {
  import opened Values

  /** `model_config.tech_groups[g]`: a string index into the `tech_groups` mapping. */
  function Group(mc: Doc, g: Value): (r: Result<Value>)
    ensures r.Ok? <==> "tech_groups" in mc && mc["tech_groups"].Dict? && g.Str? && g.s in mc["tech_groups"].entries
    ensures r.Ok? ==> r.value == mc["tech_groups"].entries[g.s]
  {
    match Attr(Dict(mc), "tech_groups")
    case Err(e) => Err(e)
    case Ok(tg) => if tg.Dict? then IndexBy(tg.entries, g) else Err(NotSubscriptable)
  }

  /** `v.essentials.parent`. */
  function ParentOf(v: Value): (r: Result<Value>)
    ensures r.Ok? <==> v.Dict? && "essentials" in v.entries && v.entries["essentials"].Dict?
                       && "parent" in v.entries["essentials"].entries
    ensures r.Ok? ==> r.value == v.entries["essentials"].entries["parent"]
  {
    match Attr(v, "essentials")
    case Err(e) => Err(e)
    case Ok(es) => Attr(es, "parent")
  }

  /** `model_config.techs[tech_id]`. */
  function Tech(mc: Doc, techId: string): (r: Result<Value>)
    ensures r.Ok? <==> "techs" in mc && mc["techs"].Dict? && techId in mc["techs"].entries
    ensures r.Ok? ==> r.value == mc["techs"].entries[techId]
  {
    match Attr(Dict(mc), "techs")
    case Err(e) => Err(e)
    case Ok(ts) => Attr(ts, techId)
  }

  /** The parent `tech_groups[g].essentials.parent` of group `g`. */
  function GroupParent(mc: Doc, g: Value): (r: Result<Value>)
    ensures r.Ok? ==> Group(mc, g).Ok? && g.Str?
  {
    match Group(mc, g)
    case Err(e) => Err(e)
    case Ok(grp) => ParentOf(grp)
  }

  /** The groups the `while True` loop appends after looking up `g`, with `fuel`
      lookups to spend; running out means the loop would never stop. */
  function Walk(mc: Doc, g: Value, fuel: nat): (r: Result<seq<string>>)
    ensures r.Ok? ==> g.Str? && Group(mc, g).Ok?
    decreases fuel
  {
    if fuel == 0 then Err(Diverges)
    else match GroupParent(mc, g)
      case Err(e) => Err(e)
      case Ok(p) =>
        if p.Null? then Ok([])
        else match Walk(mc, p, fuel - 1)
          case Err(e) => Err(e)
          case Ok(rest) => Ok([p.s] + rest)
  }

  /** `get_parents(tech_id, model_config)`. */
  function GetParents(mc: Doc, techId: string, fuel: nat): (r: Result<seq<string>>)
    ensures r.Ok? ==> |r.value| >= 1
  {
    match Tech(mc, techId)
    case Err(e) => Err(e)
    case Ok(t) =>
      match ParentOf(t)
      case Err(e) => Err(e)
      case Ok(p) =>
        match Walk(mc, p, fuel)
        case Err(e) => Err(e)
        case Ok(rest) => Ok([p.s] + rest)
  }

  /** The number of groups, plus one: enough lookups for any chain that ends. */
  function Fuel(mc: Doc): nat {
    if "tech_groups" in mc && mc["tech_groups"].Dict? then |mc["tech_groups"].entries.Keys| + 1 else 1
  }

  /** `chain` is a path through `tech_groups`: every entry is a group, each one's
      parent is the next entry and the last one's parent is `None`. */
  ghost predicate IsChain(mc: Doc, chain: seq<string>) {
    && |chain| >= 1
    && (forall i :: 0 <= i < |chain| - 1 ==> GroupParent(mc, Str(chain[i])) == Ok(Str(chain[i + 1])))
    && GroupParent(mc, Str(chain[|chain| - 1])) == Ok(Null)
  }

  lemma {:induction false} WalkChain(mc: Doc, g: string, fuel: nat)
    requires Walk(mc, Str(g), fuel).Ok?
    ensures IsChain(mc, [g] + Walk(mc, Str(g), fuel).value)
    decreases fuel
  {
    var p := GroupParent(mc, Str(g)).value;
    if !p.Null? {
      WalkChain(mc, p.s, fuel - 1);
      var rest := Walk(mc, p, fuel - 1).value;
      assert [g] + ([p.s] + rest) == [g] + ([p.s] + rest);
      assert ([g] + ([p.s] + rest))[1..] == [p.s] + rest;
    }
  }

  lemma {:induction false} ChainWalk(mc: Doc, chain: seq<string>, fuel: nat)
    requires IsChain(mc, chain) && |chain| <= fuel
    ensures Walk(mc, Str(chain[0]), fuel) == Ok(chain[1..])
    decreases fuel
  {
    if |chain| > 1 {
      assert GroupParent(mc, Str(chain[0])) == Ok(Str(chain[1]));
      assert IsChain(mc, chain[1..]) by {
        forall i | 0 <= i < |chain[1..]| - 1
          ensures GroupParent(mc, Str(chain[1..][i])) == Ok(Str(chain[1..][i + 1]))
        {
          assert GroupParent(mc, Str(chain[i + 1])) == Ok(Str(chain[i + 2]));
        }
      }
      ChainWalk(mc, chain[1..], fuel - 1);
      assert [chain[1]] + chain[2..] == chain[1..];
    }
  }

  /** get_parents returns the tech's parent followed by each group's parent in turn,
      up to the group whose parent is `None`; and it returns exactly that chain
      whenever the chain exists and the lookups do not run out. */
  lemma ParentsAreChain(mc: Doc, techId: string, fuel: nat, chain: seq<string>)
    ensures GetParents(mc, techId, fuel) == Ok(chain) ==>
              Tech(mc, techId).Ok? && ParentOf(Tech(mc, techId).value) == Ok(Str(chain[0])) && IsChain(mc, chain)
    ensures (Tech(mc, techId).Ok? && |chain| >= 1 && ParentOf(Tech(mc, techId).value) == Ok(Str(chain[0]))
             && IsChain(mc, chain) && |chain| <= fuel) ==> GetParents(mc, techId, fuel) == Ok(chain)
  {
    if GetParents(mc, techId, fuel) == Ok(chain) {
      var p := ParentOf(Tech(mc, techId).value).value;
      WalkChain(mc, p.s, fuel);
    }
    if Tech(mc, techId).Ok? && |chain| >= 1 && ParentOf(Tech(mc, techId).value) == Ok(Str(chain[0]))
       && IsChain(mc, chain) && |chain| <= fuel {
      ChainWalk(mc, chain, fuel);
      assert [chain[0]] + chain[1..] == chain;
    }
  }

  /** Every member of a successful chain is a key of `tech_groups`. */
  lemma ChainInGroups(mc: Doc, chain: seq<string>, i: nat)
    requires IsChain(mc, chain) && i < |chain|
    ensures "tech_groups" in mc && mc["tech_groups"].Dict? && chain[i] in mc["tech_groups"].entries
  {
    if i < |chain| - 1 {
      assert GroupParent(mc, Str(chain[i])) == Ok(Str(chain[i + 1]));
    }
    assert Group(mc, Str(chain[i])).Ok?;
  }

  /** A parent that is not a key of `tech_groups` raises `KeyError(parent)`. */
  lemma MissingGroup(mc: Doc, techId: string, fuel: nat, g: string)
    requires Tech(mc, techId).Ok? && ParentOf(Tech(mc, techId).value) == Ok(Str(g))
    requires "tech_groups" in mc && mc["tech_groups"].Dict? && g !in mc["tech_groups"].entries
    requires fuel > 0
    ensures GetParents(mc, techId, fuel) == Err(KeyNotFound(Str(g)))
  {
  }

  /** The groups the loop looks up, in order, while it spends `fuel`. */
  ghost function Trace(mc: Doc, g: Value, fuel: nat): seq<Value>
    decreases fuel
  {
    if fuel == 0 then []
    else match GroupParent(mc, g)
      case Err(_) => [g]
      case Ok(p) => if p.Null? then [g] else [g] + Trace(mc, p, fuel - 1)
  }

  lemma {:induction false} DivergesTrace(mc: Doc, g: Value, fuel: nat)
    requires Walk(mc, g, fuel) == Err(Diverges)
    ensures |Trace(mc, g, fuel)| == fuel
    ensures forall i :: 0 <= i < fuel ==> Group(mc, Trace(mc, g, fuel)[i]).Ok?
    ensures forall i :: 0 <= i < fuel - 1 ==> GroupParent(mc, Trace(mc, g, fuel)[i]) == Ok(Trace(mc, g, fuel)[i + 1])
    decreases fuel
  {
    if fuel > 0 {
      var p := GroupParent(mc, g).value;
      DivergesTrace(mc, p, fuel - 1);
      var t := Trace(mc, p, fuel - 1);
      assert Trace(mc, g, fuel) == [g] + t;
      if fuel > 1 {
        assert Trace(mc, g, fuel)[1] == t[0];
      }
    }
  }

  /** A sequence longer than the set it is drawn from repeats an element. */
  lemma {:induction false} Pigeonhole(t: seq<string>, keys: set<string>)
    requires forall i :: 0 <= i < |t| ==> t[i] in keys
    requires |t| > |keys|
    ensures exists i, j :: 0 <= i < j < |t| && t[i] == t[j]
    decreases |t|
  {
    if t[0] in t[1..] {
      var j :| 0 <= j < |t[1..]| && t[1..][j] == t[0];
      assert t[0] == t[j + 1];
    } else {
      var rest := keys - {t[0]};
      forall i | 0 <= i < |t[1..]| ensures t[1..][i] in rest {
        assert t[1..][i] in t[1..];
      }
      Pigeonhole(t[1..], rest);
      var i, j :| 0 <= i < j < |t[1..]| && t[1..][i] == t[1..][j];
      assert t[i + 1] == t[j + 1];
    }
  }

  /** With one lookup more than there are groups, running out of lookups means the
      loop visited some group twice: the groups form a cycle, and `get_parents`
      never returns. */
  lemma DivergesOnlyOnCycle(mc: Doc, techId: string)
    requires GetParents(mc, techId, Fuel(mc)) == Err(Diverges)
    ensures Tech(mc, techId).Ok? && ParentOf(Tech(mc, techId).value).Ok?
    ensures var t := Trace(mc, ParentOf(Tech(mc, techId).value).value, Fuel(mc));
            && (forall i :: 0 <= i < |t| - 1 ==> GroupParent(mc, t[i]) == Ok(t[i + 1]))
            && exists i, j :: 0 <= i < j < |t| && t[i] == t[j]
  {
    var p := ParentOf(Tech(mc, techId).value).value;
    var fuel := Fuel(mc);
    DivergesTrace(mc, p, fuel);
    var t := Trace(mc, p, fuel);
    var tg := mc["tech_groups"].entries;
    var names := seq(|t|, i requires 0 <= i < |t| => t[i].s);
    forall i | 0 <= i < |names| ensures names[i] in tg.Keys {
      assert Group(mc, t[i]).Ok?;
    }
    Pigeonhole(names, tg.Keys);
    var i, j :| 0 <= i < j < |names| && names[i] == names[j];
    assert Group(mc, t[i]).Ok? && Group(mc, t[j]).Ok?;
    assert t[i] == t[j];
  }

  /** `cycle` closes on itself: each group's parent is the next one, and the last
      one's parent is the first. */
  ghost predicate IsCycle(mc: Doc, cycle: seq<string>) {
    && |cycle| >= 1
    && forall i :: 0 <= i < |cycle| ==> GroupParent(mc, Str(cycle[i])) == Ok(Str(cycle[(i + 1) % |cycle|]))
  }

  lemma {:induction false} CycleWalk(mc: Doc, cycle: seq<string>, k: nat, fuel: nat)
    requires IsCycle(mc, cycle) && k < |cycle|
    ensures Walk(mc, Str(cycle[k]), fuel) == Err(Diverges)
    decreases fuel
  {
    if fuel > 0 {
      assert GroupParent(mc, Str(cycle[k])) == Ok(Str(cycle[(k + 1) % |cycle|]));
      CycleWalk(mc, cycle, (k + 1) % |cycle|, fuel - 1);
    }
  }

  /** Conversely, a tech whose parent lies on a cycle of groups never gets a chain:
      however many lookups are allowed, they run out. */
  lemma CycleDiverges(mc: Doc, techId: string, cycle: seq<string>, fuel: nat)
    requires IsCycle(mc, cycle)
    requires Tech(mc, techId).Ok? && ParentOf(Tech(mc, techId).value) == Ok(Str(cycle[0]))
    ensures GetParents(mc, techId, fuel) == Err(Diverges)
  {
    CycleWalk(mc, cycle, 0, fuel);
  }

  /** `get_parents` as the source writes it: a `while True` loop appending to
      `parents`, stopped after `Fuel(mc)` lookups. */
  method GetParentsLoop(mc: Doc, techId: string) returns (r: Result<seq<string>>)
    ensures r == GetParents(mc, techId, Fuel(mc))
  {
    var t := Tech(mc, techId);
    if t.Err? { return Err(t.error); }
    var p := ParentOf(t.value);
    if p.Err? { return Err(p.error); }
    var tech := p.value;
    var parents: seq<string> := [];
    var fuel := Fuel(mc);
    if Walk(mc, tech, fuel).Ok? {
      assert [] + [tech.s] + Walk(mc, tech, fuel).value == [tech.s] + Walk(mc, tech, fuel).value;
    }
    while fuel > 0
      invariant GetParents(mc, techId, Fuel(mc)) == Then(parents, tech, Walk(mc, tech, fuel))
      decreases fuel
    {
      var next := GroupParent(mc, tech);
      if next.Err? { return Err(next.error); }
      if next.value.Null? {
        assert parents + [tech.s] + [] == parents + [tech.s];
        return Ok(parents + [tech.s]);
      }
      ghost var w := Walk(mc, next.value, fuel - 1);
      if w.Ok? {
        assert parents + [tech.s] + ([next.value.s] + w.value) == parents + [tech.s] + [next.value.s] + w.value;
      }
      parents := parents + [tech.s];
      tech := next.value;
      fuel := fuel - 1;
    }
    return Err(Diverges);
  }

  /** The list the loop holds: `parents` so far, the current group, then what the walk
      still appends. */
  function Then(parents: seq<string>, tech: Value, walk: Result<seq<string>>): Result<seq<string>>
    requires walk.Ok? ==> tech.Str?
  {
    match walk
    case Err(e) => Err(e)
    case Ok(rest) => Ok(parents + [tech.s] + rest)
  }
}

/** Filling in every technology (calliope/preprocess/model_run.py, `process_techs` and
    `process_tech_groups`): each tech's essentials and system-wide constraints are
    merged from its root group down to the tech itself, the lists of allowed and
    required constraints are taken from the root group, missing carriers, primary
    carriers and colours are filled in, and every problem found is collected as a
    message instead of being raised at once. */
module Techs {
  import opened Text
  import opened Values
  import opened Paths
  import opened Flatten
  import opened Merge
  import opened Parents
  import Overrides

  /** `_DEFAULT_PALETTE`: ten colours, handed out in turn to techs without one. */
  const Palette: seq<string> := ["#19122b", "#17344c", "#185b48", "#3c7632", "#7e7a36",
                                 "#bc7967", "#d486af", "#caa9e7", "#c2d2f3", "#d6f0ef"]

  /** The colour `next(default_palette_cycler)` yields the `n`-th time (from 0). */
  function PaletteColour(n: nat): (c: string)
    ensures c in Palette && c != ""
  {
    Palette[n % |Palette|]
  }

  const Supply := "supply"
  const SupplyPlus := "supply_plus"
  const Demand := "demand"
  const Transmission := "transmission"
  const Storage := "storage"
  const ConversionPlus := "conversion_plus"

  /** What `process_techs` is given from outside the core: the keys of
      `checks.DEFAULTS.tech_groups`, `util.get_systemwide_constraints` and
      `util.flatten_list`. */
  datatype Context = Context(builtin: set<string>, systemwide: Value -> Doc, flatten: seq<Value> -> seq<Value>)

  /** The four lists copied from the root group, each `[]` when the group has none. */
  datatype Allowed = Allowed(required: Value, allowed: Value, costs: Value, switches: Value)

  /** One entry of the `result` of `process_techs`. */
  datatype TechResult = TechResult(inheritance: seq<string>, essentials: Doc, constraints: Doc, allowed: Allowed)

  /** The state `process_techs` carries from tech to tech: `result`, `debug_comments`,
      `errors` and how many colours the palette cycler has handed out. */
  datatype Run = Run(techs: map<string, TechResult>, debug: Doc, errors: seq<Message>, colours: nat)

  /** The essentials, the constraints and the debug comments while a tech's groups are
      merged. */
  datatype Layers = Layers(essentials: Doc, constraints: Doc, debug: Doc)

  /** The essentials, the debug comments and the errors while a tech is checked. */
  datatype Checked = Checked(essentials: Doc, debug: Doc, errors: seq<Message>)

  // ----- messages -----

  /** The messages `process_techs` appends to `errors`, one constructor per message. */
  datatype Message =
    | NotBuiltin(tech: string)
    | NoCarrierIn(tech: string)
    | CarrierInMissing(tech: string)
    | NoCarrierOut(tech: string)
    | CarrierOutMissing(tech: string)
    | PrimaryUnassigned(dir: string, tech: string)
    | PrimaryUnknown(dir: string, primary: string, tech: string)

  /** The text of each message. */
  function Render(m: Message): string {
    match m
    case NotBuiltin(t) => "tech " + t + " must inherit from a built-in tech group"
    case NoCarrierIn(t) => "`carrier` or `carrier_in` must be defined for " + t
    case CarrierInMissing(t) => "`carrier_in` must be defined for " + t
    case NoCarrierOut(t) => "`carrier` or `carrier_out` must be defined for " + t
    case CarrierOutMissing(t) => "`carrier_out` must be defined for " + t
    case PrimaryUnassigned(dir, t) =>
      "Primary_carrier" + dir + " must be assigned for tech `" + t + "` as there are multiple carriers" + dir
    case PrimaryUnknown(dir, p, t) =>
      "Primary_carrier" + dir + " `" + p + "` not one of the available carriers" + dir + " for `" + t + "`"
  }

  /** The text of each message, in order. */
  function Rendered(ms: seq<Message>): seq<string> {
    seq(|ms|, i requires 0 <= i < |ms| => Render(ms[i]))
  }

  function ParentComment(parent: string): string { "From parent tech_group `" + parent + "`" }
  const CarrierComment := "Set from essentials.carrier"
  const PaletteComment := "From Calliope default palette"

  /** `str(v)` of a hashable value. */
  function Show(v: Value): string
    requires !v.List? && !v.Dict?
  {
    match v
    case Null => "None"
    case Bool(b) => if b then "True" else "False"
    case Int(i) => IntToString(i)
    case Str(s) => s
  }

  /** The debug keys `"{tech_id}.essentials.{k}"`. */
  function EssentialKeys(techId: string, keys: seq<string>): (r: seq<string>)
    ensures |r| == |keys|
    ensures forall i :: 0 <= i < |keys| ==> r[i] == techId + ".essentials." + keys[i]
  {
    seq(|keys|, i requires 0 <= i < |keys| => techId + ".essentials." + keys[i])
  }

  // ----- inheritance -----

  /** One pass of the `for parent in reversed(...)` loop: comment every flat key of the
      group's essentials, then merge its essentials and its system-wide constraints. */
  function AddLayer(acc: Layers, techId: string, parent: string, group: Value, systemwide: Value -> Doc): Result<Layers> {
    match Attr(group, "essentials")
    case Err(e) => Err(e)
    case Ok(pe) =>
      if !pe.Dict? then Err(NoAttribute)
      else match AsDictFlat(pe.entries)
        case Err(e) => Err(e)
        case Ok(_) =>
          match Overrides.Comment(acc.debug, EssentialKeys(techId, KeysNested(pe.entries)), ParentComment(parent))
          case Err(e) => Err(e)
          case Ok(debug) =>
            match Union(acc.essentials, pe.entries, true, false)
            case Err(e) => Err(e)
            case Ok(es) =>
              match Union(acc.constraints, systemwide(group), true, false)
              case Err(e) => Err(e)
              case Ok(cs) => Ok(Layers(es, cs, debug))
  }

  /** One pass of the loop over `reversed(parents)`: look the group up, then merge it. */
  function GroupLayer(mc: Doc, techId: string, systemwide: Value -> Doc): (string, Layers) -> Result<Layers> {
    (parent: string, acc: Layers) =>
      var g := Group(mc, Str(parent));
      if g.Err? then Err(g.error) else AddLayer(acc, techId, parent, g.value, systemwide)
  }

  /** The loop over `reversed(parents)` with one pass as `layer`: the root group (last)
      first, the tech's own parent (first) last. */
  function InheritFrom(parents: seq<string>, layer: (string, Layers) -> Result<Layers>, acc: Layers): Result<Layers>
    decreases |parents|
  {
    if parents == [] then Ok(acc)
    else match layer(parents[|parents| - 1], acc)
      case Err(e) => Err(e)
      case Ok(a) => InheritFrom(parents[..|parents| - 1], layer, a)
  }

  /** The tech's own essentials and system-wide constraints, merged last. */
  function OwnLayer(acc: Layers, techConfig: Value, systemwide: Value -> Doc): Result<Layers> {
    match Attr(techConfig, "essentials")
    case Err(e) => Err(e)
    case Ok(te) =>
      if !te.Dict? then Err(NoAttribute)
      else match Union(acc.essentials, te.entries, true, false)
        case Err(e) => Err(e)
        case Ok(es) =>
          match Union(acc.constraints, systemwide(techConfig), true, false)
          case Err(e) => Err(e)
          case Ok(cs) => Ok(Layers(es, cs, acc.debug))
  }

  function Inherit(mc: Doc, techId: string, techConfig: Value, parents: seq<string>, systemwide: Value -> Doc, debug: Doc)
    : Result<Layers>
  {
    match InheritFrom(parents, GroupLayer(mc, techId, systemwide), Layers(map[], map[], debug))
    case Err(e) => Err(e)
    case Ok(a) => OwnLayer(a, techConfig, systemwide)
  }

  /** `d.get(k, [])`. */
  function GetOrEmpty(d: Doc, k: string): Value {
    if k in d then d[k] else List([])
  }

  /** The `keys_to_add` loop: the four lists of the root group. */
  function RootKeys(mc: Doc, root: string): Result<Allowed> {
    match Group(mc, Str(root))
    case Err(e) => Err(e)
    case Ok(g) =>
      if !g.Dict? then Err(NoAttribute)
      else Ok(Allowed(GetOrEmpty(g.entries, "required_constraints"), GetOrEmpty(g.entries, "allowed_constraints"),
                      GetOrEmpty(g.entries, "allowed_costs"), GetOrEmpty(g.entries, "allowed_switches")))
  }

  // ----- checks -----

  /** The `carrier_in` check: supply techs need none, demand, transmission and
      storage techs copy `carrier`, every other tech must name one. */
  function CarrierIn(c: Checked, root: string, techId: string): Result<Checked> {
    var e := c.essentials;
    if "carrier_in" in e || root == Supply || root == SupplyPlus then Ok(c)
    else if root == Demand || root == Transmission || root == Storage then
      if "carrier" in e then
        var e1 := e["carrier_in" := e["carrier"]];
        match SetKey(c.debug, techId + ".essentials.carrier_in", Str(CarrierComment))
        case Ok(d) => Ok(Checked(e1, d, c.errors))
        case Err(err) => if IsKeyError(err) then Ok(Checked(e1, c.debug, c.errors + [NoCarrierIn(techId)])) else Err(err)
      else Ok(c.(errors := c.errors + [NoCarrierIn(techId)]))
    else Ok(c.(errors := c.errors + [CarrierInMissing(techId)]))
  }

  /** The `carrier_out` check: demand techs need none, supply, transmission and
      storage techs copy `carrier`, every other tech must name one. */
  function CarrierOut(c: Checked, root: string, techId: string): Checked {
    var e := c.essentials;
    if "carrier_out" in e || root == Demand then c
    else if root == Supply || root == SupplyPlus || root == Transmission || root == Storage then
      if "carrier" in e then c.(essentials := e["carrier_out" := e["carrier"]])
      else c.(errors := c.errors + [NoCarrierOut(techId)])
    else c.(errors := c.errors + [CarrierOutMissing(techId)])
  }

  /** The keys of `ks` that start with `prefix`, in order. */
  function WithPrefix(ks: seq<string>, prefix: string): (r: seq<string>)
    ensures forall k :: k in r <==> k in ks && StartsWith(k, prefix)
  {
    if ks == [] then []
    else (if StartsWith(ks[0], prefix) then [ks[0]] else []) + WithPrefix(ks[1..], prefix)
  }

  /** `util.flatten_list([v for k, v in essentials.items() if k.startswith(prefix)])`. */
  function CarrierList(e: Doc, prefix: string, flatten: seq<Value> -> seq<Value>): seq<Value> {
    var ks := WithPrefix(SortedKeys(e), prefix);
    flatten(seq(|ks|, i requires 0 <= i < |ks| => if ks[i] in e then e[ks[i]] else Null))
  }

  predicate Hashable(v: Value) {
    !v.List? && !v.Dict?
  }

  /** `set(...)` of these values raises TypeError unless every one is hashable. */
  predicate AllHashable(xs: seq<Value>) {
    forall i :: 0 <= i < |xs| ==> Hashable(xs[i])
  }

  /** One direction of the `conversion_plus` check. */
  function Primary(c: Checked, dir: string, techId: string, flatten: seq<Value> -> seq<Value>): Result<Checked> {
    var flat := CarrierList(c.essentials, "carrier" + dir, flatten);
    if !AllHashable(flat) then Err(Unhashable) else Choose(c, PrimaryKey(dir), dir, techId, flat)
  }

  /** The choice of primary carrier `key` among the carriers `flat`. */
  function Choose(c: Checked, key: string, dir: string, techId: string, flat: seq<Value>): Result<Checked> {
    var e := c.essentials;
    var carriers := set v | v in flat;
    var primary := if key in e then e[key] else Null;
    if primary.Null? && |carriers| == 1 then Ok(c.(essentials := e[key := flat[0]]))
    else if primary.Null? && |carriers| > 1 then Ok(c.(errors := c.errors + [PrimaryUnassigned(dir, techId)]))
    else if !Hashable(primary) then Err(Unhashable)
    else if primary !in carriers then Ok(c.(errors := c.errors + [PrimaryUnknown(dir, Show(primary), techId)]))
    else Ok(c)
  }

  /** The directions of the primary carrier loop. */
  const Directions: seq<string> := ["_in", "_out"]

  /** `for direction in dirs`: the primary carrier check for each direction in turn. */
  function PrimaryFrom(c: Checked, dirs: seq<string>, techId: string, flatten: seq<Value> -> seq<Value>): Result<Checked>
    decreases |dirs|
  {
    if dirs == [] then Ok(c)
    else match Primary(c, dirs[0], techId, flatten)
      case Err(e) => Err(e)
      case Ok(c1) => PrimaryFrom(c1, dirs[1..], techId, flatten)
  }

  /** The carrier checks in source order; the primary carriers only for
      `conversion_plus` techs. */
  function Checks(c: Checked, root: string, techId: string, flatten: seq<Value> -> seq<Value>): Result<Checked> {
    match CarrierIn(c, root, techId)
    case Err(e) => Err(e)
    case Ok(c1) =>
      var c2 := CarrierOut(c1, root, techId);
      if root != ConversionPlus then Ok(c2)
      else PrimaryFrom(c2, Directions, techId, flatten)
  }

  /** A tech whose `color` is missing or false gets the next palette colour.
      (`get_key("color", None)` on a key without dots is a plain lookup.) */
  function Colour(c: Checked, techId: string, colours: nat): Result<(Checked, nat)> {
    var current := if "color" in c.essentials then c.essentials["color"] else Null;
    if Truthy(current) then Ok((c, colours))
    else
      var e := c.essentials["color" := Str(PaletteColour(colours))];
      match SetKey(c.debug, techId + ".essentials.color", Str(PaletteComment))
      case Err(err) => Err(err)
      case Ok(d) => Ok((Checked(e, d, c.errors), colours + 1))
  }

  // ----- one tech, all techs -----

  /** Everything after `get_parents` for one existing tech. */
  function Finish(mc: Doc, techId: string, techConfig: Value, parents: seq<string>, ctx: Context, run: Run): Result<Run>
    requires |parents| >= 1
  {
    var root := parents[|parents| - 1];
    var errors := run.errors + (if root in ctx.builtin then [] else [NotBuiltin(techId)]);
    match Inherit(mc, techId, techConfig, parents, ctx.systemwide, run.debug)
    case Err(e) => Err(e)
    case Ok(layers) =>
      match RootKeys(mc, root)
      case Err(e) => Err(e)
      case Ok(allowed) => Complete(techId, parents, root, layers, allowed, errors, ctx.flatten, run.techs, run.colours)
  }

  /** The carrier checks and the colour of a merged tech, then its entry in `result`. */
  function Complete(techId: string, parents: seq<string>, root: string, layers: Layers, allowed: Allowed,
                    errors: seq<Message>, flatten: seq<Value> -> seq<Value>, techs: map<string, TechResult>, colours: nat)
    : Result<Run>
  {
    match Checks(Checked(layers.essentials, layers.debug, errors), root, techId, flatten)
    case Err(e) => Err(e)
    case Ok(c) =>
      match Colour(c, techId, colours)
      case Err(e) => Err(e)
      case Ok(cc) =>
        Ok(Run(techs[techId := TechResult(parents, cc.0.essentials, layers.constraints, allowed)],
               cc.0.debug, cc.0.errors, cc.1))
  }

  /** `tech_config.get("exists", True)`. */
  function Exists(techConfig: Value): Result<bool> {
    match DictGet(techConfig, "exists", Bool(true))
    case Err(e) => Err(e)
    case Ok(v) => Ok(Truthy(v))
  }

  /** One pass of the `for tech_id, tech_config in config_model.techs.items()` loop. */
  function ResolveTech(mc: Doc, techId: string, ctx: Context, run: Run): Result<Run> {
    match Tech(mc, techId)
    case Err(e) => Err(e)
    case Ok(tc) =>
      match Exists(tc)
      case Err(e) => Err(e)
      case Ok(ex) =>
        if !ex then Ok(run)
        else match GetParents(mc, techId, Fuel(mc))
          case Err(e) => Err(e)
          case Ok(parents) => Finish(mc, techId, tc, parents, ctx, run)
  }

  /** The loop over the techs, with one pass as `step`. */
  function Loop(ids: seq<string>, step: (string, Run) -> Result<Run>, run: Run): Result<Run>
    decreases |ids|
  {
    if ids == [] then Ok(run)
    else match step(ids[0], run)
      case Err(e) => Err(e)
      case Ok(r) => Loop(ids[1..], step, r)
  }

  function Step(mc: Doc, ctx: Context): (string, Run) -> Result<Run> {
    (techId: string, run: Run) => ResolveTech(mc, techId, ctx, run)
  }

  /** `process_techs(config_model)`; `listing` gives the order of `techs.items()`. */
  function ProcessTechs(mc: Doc, ctx: Context, listing: set<string> -> seq<string>): Result<Run> {
    match Attr(Dict(mc), "techs")
    case Err(e) => Err(e)
    case Ok(ts) =>
      if !ts.Dict? then Err(NoAttribute)
      else Loop(listing(ts.entries.Keys), Step(mc, ctx), Run(map[], map[], [], 0))
  }

  /** Step 2 of `generate_model_run`: the techs, their debug comments stored under
      `model_run.techs`, and every collected message raised together. */
  function ModelRunTechs(mc: Doc, debug: Doc, ctx: Context, listing: set<string> -> seq<string>)
    : Result<(map<string, TechResult>, Doc)>
  {
    match ProcessTechs(mc, ctx, listing)
    case Err(e) => Err(e)
    case Ok(run) =>
      match SetKey(debug, "model_run.techs", Dict(run.debug))
      case Err(e) => Err(e)
      case Ok(d) =>
        if run.errors != [] then Err(TechErrors(Rendered(run.errors)))
        else Ok((run.techs, d))
  }

  /** `process_tech_groups(config_model, techs)`: for each group, the sorted names of
      the techs that inherit from it. */
  function ProcessTechGroups(mc: Doc, techs: map<string, TechResult>): Result<map<string, seq<string>>> {
    match Attr(Dict(mc), "tech_groups")
    case Err(e) => Err(e)
    case Ok(tg) =>
      if !tg.Dict? then Err(NoAttribute)
      else Ok(map g | g in tg.entries :: SortedStrings(set k | k in techs && g in techs[k].inheritance))
  }

  // ----- tech groups -----

  /** Every group of `tech_groups` is listed, with exactly the techs whose inheritance
      names it, in ascending order without repeats. */
  lemma TechGroupMembers(mc: Doc, techs: map<string, TechResult>)
    ensures ProcessTechGroups(mc, techs).Ok? <==> "tech_groups" in mc && mc["tech_groups"].Dict?
    ensures ProcessTechGroups(mc, techs).Ok? ==>
      var r := ProcessTechGroups(mc, techs).value;
      && r.Keys == mc["tech_groups"].entries.Keys
      && forall g :: g in r ==>
           && (forall k :: k in r[g] <==> k in techs && g in techs[k].inheritance)
           && (forall i, j :: 0 <= i < j < |r[g]| ==> StrLt(r[g][i], r[g][j]))
  {
  }

  // ----- existence -----

  /** A tech with `exists: false` (or any false value) leaves the state unchanged. */
  lemma SkipsAbsent(mc: Doc, techId: string, ctx: Context, run: Run)
    requires Tech(mc, techId).Ok? && Exists(Tech(mc, techId).value) == Ok(false)
    ensures ResolveTech(mc, techId, ctx, run) == Ok(run)
  {
  }

  /** The stages of `Finish`. */
  lemma FinishParts(mc: Doc, techId: string, techConfig: Value, parents: seq<string>, ctx: Context, run: Run)
    requires |parents| >= 1 && Finish(mc, techId, techConfig, parents, ctx, run).Ok?
    ensures var root := parents[|parents| - 1];
      var errors := run.errors + (if root in ctx.builtin then [] else [NotBuiltin(techId)]);
      && Inherit(mc, techId, techConfig, parents, ctx.systemwide, run.debug).Ok?
      && var layers := Inherit(mc, techId, techConfig, parents, ctx.systemwide, run.debug).value;
      && RootKeys(mc, root).Ok?
      && var c0 := Checked(layers.essentials, layers.debug, errors);
      && Checks(c0, root, techId, ctx.flatten).Ok?
      && var c := Checks(c0, root, techId, ctx.flatten).value;
      && Colour(c, techId, run.colours).Ok?
      && var cc := Colour(c, techId, run.colours).value;
      && Finish(mc, techId, techConfig, parents, ctx, run).value
         == Run(run.techs[techId := TechResult(parents, cc.0.essentials, layers.constraints, RootKeys(mc, root).value)],
                cc.0.debug, cc.0.errors, cc.1)
  {
  }

  /** When the merge and the root group's lists succeed, `Finish` is `Complete` of them. */
  lemma FinishIsComplete(mc: Doc, techId: string, techConfig: Value, parents: seq<string>, ctx: Context, run: Run,
                         layers: Layers, allowed: Allowed)
    requires |parents| >= 1
    requires Inherit(mc, techId, techConfig, parents, ctx.systemwide, run.debug) == Ok(layers)
    requires RootKeys(mc, parents[|parents| - 1]) == Ok(allowed)
    ensures var root := parents[|parents| - 1];
      Finish(mc, techId, techConfig, parents, ctx, run)
      == Complete(techId, parents, root, layers, allowed, run.errors + (if root in ctx.builtin then [] else [NotBuiltin(techId)]),
                  ctx.flatten, run.techs, run.colours)
  {
  }

  lemma FinishGrows(mc: Doc, techId: string, techConfig: Value, parents: seq<string>, ctx: Context, run: Run)
    requires |parents| >= 1 && Finish(mc, techId, techConfig, parents, ctx, run).Ok?
    ensures var r := Finish(mc, techId, techConfig, parents, ctx, run).value;
      && r.techs.Keys == run.techs.Keys + {techId}
      && (forall t :: t in run.techs && t != techId ==> r.techs[t] == run.techs[t])
      && |run.errors| <= |r.errors| && r.errors[..|run.errors|] == run.errors
      && run.colours <= r.colours
  {
    FinishParts(mc, techId, techConfig, parents, ctx, run);
    var root := parents[|parents| - 1];
    var errors := run.errors + (if root in ctx.builtin then [] else [NotBuiltin(techId)]);
    var layers := Inherit(mc, techId, techConfig, parents, ctx.systemwide, run.debug).value;
    var c0 := Checked(layers.essentials, layers.debug, errors);
    ChecksErrors(c0, root, techId, ctx.flatten);
    var c := Checks(c0, root, techId, ctx.flatten).value;
    PrefixTrans(run.errors, errors, c.errors);
  }

  /** What `process_techs` stores for an existing tech: its chain of groups, the four
      lists of its root group, its merged constraints and its merged essentials with the
      carriers filled in and a true colour; a root that is not built in is reported
      first among its messages. */
  lemma FinishStores(mc: Doc, techId: string, techConfig: Value, parents: seq<string>, ctx: Context, run: Run)
    requires |parents| >= 1 && Finish(mc, techId, techConfig, parents, ctx, run).Ok?
    ensures var root := parents[|parents| - 1];
      var layers := Inherit(mc, techId, techConfig, parents, ctx.systemwide, run.debug).value;
      var r := Finish(mc, techId, techConfig, parents, ctx, run).value;
      && techId in r.techs
      && var t := r.techs[techId];
      && t.inheritance == parents
      && t.allowed == RootKeys(mc, root).value
      && t.constraints == layers.constraints
      && "color" in t.essentials && Truthy(t.essentials["color"])
      && (forall k :: k in layers.essentials && k != "color" && !(k in Filled && layers.essentials[k].Null?) ==>
            k in t.essentials && t.essentials[k] == layers.essentials[k])
      && t.essentials.Keys <= layers.essentials.Keys + Filled + {"color"}
      && (root !in ctx.builtin ==> |run.errors| < |r.errors| && r.errors[|run.errors|] == NotBuiltin(techId))
  {
    FinishParts(mc, techId, techConfig, parents, ctx, run);
    var root := parents[|parents| - 1];
    var errors := run.errors + (if root in ctx.builtin then [] else [NotBuiltin(techId)]);
    var layers := Inherit(mc, techId, techConfig, parents, ctx.systemwide, run.debug).value;
    var c0 := Checked(layers.essentials, layers.debug, errors);
    ChecksFrame(c0, root, techId, ctx.flatten);
    var c := Checks(c0, root, techId, ctx.flatten).value;
    ColourRule(c, techId, run.colours);
    if root !in ctx.builtin {
      assert errors[|run.errors|] == NotBuiltin(techId);
      assert c.errors[..|errors|] == errors;
      assert c.errors[|run.errors|] == errors[|run.errors|];
    }
  }

  lemma PrefixTrans<T>(a: seq<T>, b: seq<T>, c: seq<T>)
    requires |a| <= |b| && b[..|a|] == a && |b| <= |c| && c[..|b|] == b
    ensures |a| <= |c| && c[..|a|] == a
  {
    assert c[..|b|][..|a|] == c[..|a|];
  }

  /** The checks only append messages. */
  lemma ChecksErrors(c: Checked, root: string, techId: string, flatten: seq<Value> -> seq<Value>)
    requires Checks(c, root, techId, flatten).Ok?
    ensures var r := Checks(c, root, techId, flatten).value;
      |c.errors| <= |r.errors| && r.errors[..|c.errors|] == c.errors
  {
    ChecksFrame(c, root, techId, flatten);
  }

  /** One tech adds its own entry if it exists and nothing otherwise; messages are only
      appended and the palette counter only moves forward. */
  lemma ResolveTechGrows(mc: Doc, techId: string, ctx: Context, run: Run)
    requires ResolveTech(mc, techId, ctx, run).Ok?
    ensures Tech(mc, techId).Ok? && Exists(Tech(mc, techId).value).Ok?
    ensures var r := ResolveTech(mc, techId, ctx, run).value;
      && r.techs.Keys == run.techs.Keys + (if Exists(Tech(mc, techId).value).value then {techId} else {})
      && (forall t :: t in run.techs && t != techId ==> r.techs[t] == run.techs[t])
      && |run.errors| <= |r.errors| && r.errors[..|run.errors|] == run.errors
      && run.colours <= r.colours
  {
    var tc := Tech(mc, techId).value;
    if Exists(tc).value {
      FinishGrows(mc, techId, tc, GetParents(mc, techId, Fuel(mc)).value, ctx, run);
    }
  }

  /** `r` is `run` with the entry for `techId` added when `added`, the other entries
      kept and messages appended. */
  ghost predicate Grew(run: Run, r: Run, techId: string, added: bool) {
    && r.techs.Keys == run.techs.Keys + (if added then {techId} else {})
    && |run.errors| <= |r.errors| && r.errors[..|run.errors|] == run.errors
  }

  lemma {:induction false} LoopGrows(ids: seq<string>, step: (string, Run) -> Result<Run>, adds: string -> bool, run: Run)
    requires forall t, r :: step(t, r).Ok? ==> Grew(r, step(t, r).value, t, adds(t))
    requires Loop(ids, step, run).Ok?
    ensures var r := Loop(ids, step, run).value;
      && (forall t :: t in r.techs <==> t in run.techs || (t in ids && adds(t)))
      && |run.errors| <= |r.errors| && r.errors[..|run.errors|] == run.errors
    decreases |ids|
  {
    if ids != [] {
      var r1 := step(ids[0], run).value;
      assert Grew(run, r1, ids[0], adds(ids[0]));
      LoopGrows(ids[1..], step, adds, r1);
      var r := Loop(ids, step, run).value;
      PrefixTrans(run.errors, r1.errors, r.errors);
      forall t ensures t in r.techs <==> t in run.techs || (t in ids && adds(t)) {
        if t in ids && t != ids[0] {
          assert t in ids[1..];
        }
      }
    }
  }

  /** A tech that is listed and neither missing nor marked `exists: false`. */
  ghost predicate Present(mc: Doc, techId: string) {
    Tech(mc, techId).Ok? && Exists(Tech(mc, techId).value) == Ok(true)
  }

  /** `process_techs` keeps exactly the techs that exist, and the messages it returns are
      those of each tech in turn. */
  lemma ProcessTechsKeys(mc: Doc, ctx: Context, listing: set<string> -> seq<string>)
    requires ProcessTechs(mc, ctx, listing).Ok?
    ensures var r := ProcessTechs(mc, ctx, listing).value;
      forall t :: t in r.techs <==> t in listing(mc["techs"].entries.Keys) && Present(mc, t)
  {
    var step := Step(mc, ctx);
    var adds := (t: string) => Present(mc, t);
    forall t, r | step(t, r).Ok? ensures Grew(r, step(t, r).value, t, adds(t)) {
      ResolveTechGrows(mc, t, ctx, r);
    }
    LoopGrows(listing(mc["techs"].entries.Keys), step, adds, Run(map[], map[], [], 0));
  }

  /** What holds of every tech `process_techs` stores, whatever the state it was resolved
      in: its chain is `get_parents` of it, its four lists are those of the root of that
      chain, and its colour is true. */
  ghost predicate Stored(mc: Doc, techId: string, t: TechResult) {
    && GetParents(mc, techId, Fuel(mc)) == Ok(t.inheritance)
    && |t.inheritance| >= 1
    && RootKeys(mc, t.inheritance[|t.inheritance| - 1]) == Ok(t.allowed)
    && "color" in t.essentials && Truthy(t.essentials["color"])
  }

  ghost predicate AllStored(mc: Doc, techs: map<string, TechResult>) {
    forall t :: t in techs ==> Stored(mc, t, techs[t])
  }

  /** One tech is either skipped or finished with its `get_parents` chain. */
  lemma ResolveTechParts(mc: Doc, techId: string, ctx: Context, run: Run)
    requires ResolveTech(mc, techId, ctx, run).Ok?
    ensures Tech(mc, techId).Ok? && Exists(Tech(mc, techId).value).Ok?
    ensures !Exists(Tech(mc, techId).value).value ==> ResolveTech(mc, techId, ctx, run) == Ok(run)
    ensures Exists(Tech(mc, techId).value).value ==>
      && GetParents(mc, techId, Fuel(mc)).Ok? && |GetParents(mc, techId, Fuel(mc)).value| >= 1
      && ResolveTech(mc, techId, ctx, run)
         == Finish(mc, techId, Tech(mc, techId).value, GetParents(mc, techId, Fuel(mc)).value, ctx, run)
  {
  }

  lemma FinishStored(mc: Doc, techId: string, techConfig: Value, ctx: Context, run: Run)
    requires GetParents(mc, techId, Fuel(mc)).Ok? && |GetParents(mc, techId, Fuel(mc)).value| >= 1
    requires Finish(mc, techId, techConfig, GetParents(mc, techId, Fuel(mc)).value, ctx, run).Ok?
    ensures var r := Finish(mc, techId, techConfig, GetParents(mc, techId, Fuel(mc)).value, ctx, run).value;
      && techId in r.techs && Stored(mc, techId, r.techs[techId])
      && forall t :: t in r.techs && t != techId ==> t in run.techs && r.techs[t] == run.techs[t]
  {
    var parents := GetParents(mc, techId, Fuel(mc)).value;
    FinishStores(mc, techId, techConfig, parents, ctx, run);
    FinishGrows(mc, techId, techConfig, parents, ctx, run);
  }

  lemma ResolveTechStores(mc: Doc, techId: string, ctx: Context, run: Run)
    requires AllStored(mc, run.techs) && ResolveTech(mc, techId, ctx, run).Ok?
    ensures AllStored(mc, ResolveTech(mc, techId, ctx, run).value.techs)
  {
    ResolveTechParts(mc, techId, ctx, run);
    var tc := Tech(mc, techId).value;
    if Exists(tc).value {
      FinishStored(mc, techId, tc, ctx, run);
    }
  }

  lemma {:induction false} LoopStores(mc: Doc, ids: seq<string>, step: (string, Run) -> Result<Run>, run: Run)
    requires forall t: string, r: Run :: AllStored(mc, r.techs) && step(t, r).Ok? ==> AllStored(mc, step(t, r).value.techs)
    requires AllStored(mc, run.techs) && Loop(ids, step, run).Ok?
    ensures AllStored(mc, Loop(ids, step, run).value.techs)
    decreases |ids|
  {
    if ids != [] {
      LoopStores(mc, ids[1..], step, step(ids[0], run).value);
    }
  }

  /** Every tech in the result is stored as `Stored` says. */
  lemma ProcessTechsStores(mc: Doc, ctx: Context, listing: set<string> -> seq<string>)
    requires ProcessTechs(mc, ctx, listing).Ok?
    ensures AllStored(mc, ProcessTechs(mc, ctx, listing).value.techs)
  {
    var step := Step(mc, ctx);
    forall t: string, r: Run | AllStored(mc, r.techs) && step(t, r).Ok? ensures AllStored(mc, step(t, r).value.techs) {
      ResolveTechStores(mc, t, ctx, r);
    }
    LoopStores(mc, listing(mc["techs"].entries.Keys), step, Run(map[], map[], [], 0));
  }

  /** The messages of every tech are raised together, in order, after the debug comments
      are stored; without messages the techs are returned. */
  lemma ModelRunRaises(mc: Doc, debug: Doc, ctx: Context, listing: set<string> -> seq<string>)
    requires ProcessTechs(mc, ctx, listing).Ok?
    ensures var run := ProcessTechs(mc, ctx, listing).value;
      var r := ModelRunTechs(mc, debug, ctx, listing);
      && (r.Ok? <==> run.errors == [] && SetKey(debug, "model_run.techs", Dict(run.debug)).Ok?)
      && (r.Ok? ==> r.value.0 == run.techs && AllStored(mc, r.value.0))
      && (SetKey(debug, "model_run.techs", Dict(run.debug)).Ok? && run.errors != [] ==>
            r.Err? && r.error.TechErrors? && |r.error.messages| == |run.errors|
            && forall i :: 0 <= i < |run.errors| ==> r.error.messages[i] == Render(run.errors[i]))
  {
    ProcessTechsStores(mc, ctx, listing);
  }

  // ----- inheritance -----

  /** The essentials (`constraints` false) or the system-wide constraints (`constraints`
      true) of a stage of the merge. */
  function Part(l: Layers, constraints: bool): Doc {
    if constraints then l.constraints else l.essentials
  }

  /** What group `g` contributes to that part, or nothing when it has no essentials. */
  function GroupPart(mc: Doc, systemwide: Value -> Doc, g: string, constraints: bool): Doc {
    var r := Group(mc, Str(g));
    if constraints then (if r.Ok? then systemwide(r.value) else map[])
    else if r.Ok? && r.value.Dict? && "essentials" in r.value.entries && r.value.entries["essentials"].Dict?
    then r.value.entries["essentials"].entries
    else map[]
  }

  /** What the tech itself contributes to that part. */
  function OwnPart(techConfig: Value, systemwide: Value -> Doc, constraints: bool): Doc {
    if constraints then systemwide(techConfig)
    else if techConfig.Dict? && "essentials" in techConfig.entries && techConfig.entries["essentials"].Dict?
    then techConfig.entries["essentials"].entries
    else map[]
  }

  /** `util.get_systemwide_constraints` picks values out of a well-formed configuration. */
  ghost predicate SystemwideWellFormed(systemwide: Value -> Doc) {
    forall v :: WellFormed(v) ==> WellFormedDoc(systemwide(v))
  }

  lemma GroupPartWellFormed(mc: Doc, systemwide: Value -> Doc, g: string, constraints: bool)
    requires WellFormedDoc(mc) && SystemwideWellFormed(systemwide)
    ensures WellFormedDoc(GroupPart(mc, systemwide, g, constraints))
  {
    var r := Group(mc, Str(g));
    if r.Ok? {
      assert WellFormed(mc["tech_groups"]);
      assert WellFormed(r.value);
      if r.value.Dict? && "essentials" in r.value.entries {
        assert WellFormed(r.value.entries["essentials"]);
      }
    }
  }

  /** `b` carries every non-null scalar leaf of `e` at its path. */
  ghost predicate KeepsLeaves(e: Doc, b: Doc) {
    forall p, w :: p in LeafPaths(e) && Find(e, p) == Some(w) && !w.Dict? && !w.Null? ==> Find(b, p) == Some(w)
  }

  /** Every path that no leaf of `e` reaches has the same value in `a` and in `b`. */
  ghost predicate KeepsOthers(a: Doc, e: Doc, b: Doc) {
    forall q: Path :: (forall p :: p in LeafPaths(e) ==> Diverge(p, q)) ==> Find(b, q) == Find(a, q)
  }

  /** A union without replacement of well-formed `e` into `a` lays the leaves of `e` over `a`. */
  lemma UnionLaysOver(a: Doc, e: Doc, b: Doc)
    requires WellFormedDoc(e) && Union(a, e, true, false) == Ok(b)
    ensures KeepsLeaves(e, b) && KeepsOthers(a, e, b)
  {
    forall p, w | p in LeafPaths(e) && Find(e, p) == Some(w) && !w.Dict? && !w.Null? ensures Find(b, p) == Some(w) {
      UnionLeaf(a, e, true, p, w);
    }
    forall q: Path | (forall p :: p in LeafPaths(e) ==> Diverge(p, q)) ensures Find(b, q) == Find(a, q) {
      UnionFrame(a, e, true, q);
    }
  }

  /** Each pass of `layer` lays the contribution `ess(p)` of its group `p` over the
      `part` merged so far. */
  ghost predicate LaysOver(layer: (string, Layers) -> Result<Layers>, part: Layers -> Doc, ess: string -> Doc) {
    forall p, a :: layer(p, a).Ok? ==>
      KeepsLeaves(ess(p), part(layer(p, a).value)) && KeepsOthers(part(a), ess(p), part(layer(p, a).value))
  }

  /** A pass that succeeds merged the group's essentials and its system-wide
      constraints. */
  lemma AddLayerParts(acc: Layers, techId: string, parent: string, group: Value, systemwide: Value -> Doc)
    requires AddLayer(acc, techId, parent, group, systemwide).Ok?
    ensures group.Dict? && "essentials" in group.entries && group.entries["essentials"].Dict?
    ensures var r := AddLayer(acc, techId, parent, group, systemwide).value;
      && Union(acc.essentials, group.entries["essentials"].entries, true, false) == Ok(r.essentials)
      && Union(acc.constraints, systemwide(group), true, false) == Ok(r.constraints)
  {
  }

  lemma GroupLayerPart(mc: Doc, techId: string, systemwide: Value -> Doc, constraints: bool, p: string, a: Layers)
    requires WellFormedDoc(mc) && SystemwideWellFormed(systemwide)
    requires GroupLayer(mc, techId, systemwide)(p, a).Ok?
    ensures var b := GroupLayer(mc, techId, systemwide)(p, a).value;
      KeepsLeaves(GroupPart(mc, systemwide, p, constraints), Part(b, constraints))
      && KeepsOthers(Part(a, constraints), GroupPart(mc, systemwide, p, constraints), Part(b, constraints))
  {
    var g := Group(mc, Str(p)).value;
    AddLayerParts(a, techId, p, g, systemwide);
    GroupPartWellFormed(mc, systemwide, p, constraints);
    UnionLaysOver(Part(a, constraints), GroupPart(mc, systemwide, p, constraints), Part(GroupLayer(mc, techId, systemwide)(p, a).value, constraints));
  }

  lemma GroupLayerLaysOver(mc: Doc, techId: string, systemwide: Value -> Doc, constraints: bool)
    requires WellFormedDoc(mc) && SystemwideWellFormed(systemwide)
    ensures LaysOver(GroupLayer(mc, techId, systemwide), l => Part(l, constraints), g => GroupPart(mc, systemwide, g, constraints))
  {
    forall p, a | GroupLayer(mc, techId, systemwide)(p, a).Ok?
      ensures KeepsLeaves(GroupPart(mc, systemwide, p, constraints), Part(GroupLayer(mc, techId, systemwide)(p, a).value, constraints))
      ensures KeepsOthers(Part(a, constraints), GroupPart(mc, systemwide, p, constraints),
                          Part(GroupLayer(mc, techId, systemwide)(p, a).value, constraints))
    {
      GroupLayerPart(mc, techId, systemwide, constraints, p, a);
    }
  }

  lemma InheritFromStep(parents: seq<string>, layer: (string, Layers) -> Result<Layers>, acc: Layers)
    requires parents != [] && InheritFrom(parents, layer, acc).Ok?
    ensures layer(parents[|parents| - 1], acc).Ok?
    ensures InheritFrom(parents[..|parents| - 1], layer, layer(parents[|parents| - 1], acc).value) == InheritFrom(parents, layer, acc)
  {
  }

  /** A path that no merged group's contribution reaches keeps its value. */
  lemma {:induction false} InheritFromFrame(parents: seq<string>, layer: (string, Layers) -> Result<Layers>, part: Layers -> Doc,
                                            ess: string -> Doc, acc: Layers, q: Path)
    requires LaysOver(layer, part, ess)
    requires InheritFrom(parents, layer, acc).Ok?
    requires forall i, p :: 0 <= i < |parents| && p in LeafPaths(ess(parents[i])) ==> Diverge(p, q)
    ensures Find(part(InheritFrom(parents, layer, acc).value), q) == Find(part(acc), q)
    decreases |parents|
  {
    if parents != [] {
      var n := |parents| - 1;
      var a := layer(parents[n], acc).value;
      assert Find(part(a), q) == Find(part(acc), q);
      var front := parents[..n];
      forall i, p | 0 <= i < |front| && p in LeafPaths(ess(front[i])) ensures Diverge(p, q) {
        assert front[i] == parents[i];
      }
      InheritFromFrame(front, layer, part, ess, a, q);
    }
  }

  lemma RootmostLeaf(parents: seq<string>, layer: (string, Layers) -> Result<Layers>, part: Layers -> Doc, ess: string -> Doc,
                     acc: Layers, p: Path, w: Value)
    requires LaysOver(layer, part, ess)
    requires InheritFrom(parents, layer, acc).Ok?
    requires |parents| >= 1 && !w.Dict? && !w.Null?
    requires var g := ess(parents[|parents| - 1]); p in LeafPaths(g) && Find(g, p) == Some(w)
    requires forall i, q :: 0 <= i < |parents| - 1 && q in LeafPaths(ess(parents[i])) ==> Diverge(q, p)
    ensures Find(part(InheritFrom(parents, layer, acc).value), p) == Some(w)
  {
    var n := |parents| - 1;
    var a := layer(parents[n], acc).value;
    assert Find(part(a), p) == Some(w);
    var front := parents[..n];
    forall i, q | 0 <= i < |front| && q in LeafPaths(ess(front[i])) ensures Diverge(q, p) {
      assert front[i] == parents[i];
    }
    InheritFromFrame(front, layer, part, ess, a, p);
  }

  /** What holds of the first `j` groups holds of them in any prefix that keeps them. */
  lemma FrontDiverges(parents: seq<string>, front: seq<string>, ess: string -> Doc, j: nat, p: Path)
    requires j <= |front| <= |parents| && front == parents[..|front|]
    requires forall i, q :: 0 <= i < j && q in LeafPaths(ess(parents[i])) ==> Diverge(q, p)
    ensures forall i, q :: 0 <= i < j && q in LeafPaths(ess(front[i])) ==> Diverge(q, p)
  {
    forall i, q | 0 <= i < j && q in LeafPaths(ess(front[i])) ensures Diverge(q, p) {
      assert front[i] == parents[i];
    }
  }

  /** A leaf of group `parents[j]` that no group nearer the tech overrides survives the
      merge: groups further up are merged first and nearer ones win. */
  lemma {:induction false} InheritFromLeaf(parents: seq<string>, layer: (string, Layers) -> Result<Layers>, part: Layers -> Doc,
                                           ess: string -> Doc, acc: Layers, j: nat, p: Path, w: Value)
    requires LaysOver(layer, part, ess)
    requires InheritFrom(parents, layer, acc).Ok?
    requires j < |parents| && !w.Dict? && !w.Null?
    requires p in LeafPaths(ess(parents[j])) && Find(ess(parents[j]), p) == Some(w)
    requires forall i, q :: 0 <= i < j && q in LeafPaths(ess(parents[i])) ==> Diverge(q, p)
    ensures Find(part(InheritFrom(parents, layer, acc).value), p) == Some(w)
    decreases |parents|
  {
    var n := |parents| - 1;
    if j == n {
      RootmostLeaf(parents, layer, part, ess, acc, p, w);
    } else {
      InheritFromStep(parents, layer, acc);
      FrontDiverges(parents, parents[..n], ess, j, p);
      assert parents[..n][j] == parents[j];
      InheritFromLeaf(parents[..n], layer, part, ess, layer(parents[n], acc).value, j, p, w);
    }
  }

  /** The own layer is a union of the tech's contribution into the groups' merge. */
  lemma OwnLayerPart(acc: Layers, techConfig: Value, systemwide: Value -> Doc, constraints: bool)
    requires OwnLayer(acc, techConfig, systemwide).Ok?
    ensures Union(Part(acc, constraints), OwnPart(techConfig, systemwide, constraints), true, false)
            == Ok(Part(OwnLayer(acc, techConfig, systemwide).value, constraints))
  {
  }

  lemma InheritParts(mc: Doc, techId: string, techConfig: Value, parents: seq<string>, systemwide: Value -> Doc, debug: Doc,
                     constraints: bool)
    requires WellFormed(techConfig) && SystemwideWellFormed(systemwide)
    requires Inherit(mc, techId, techConfig, parents, systemwide, debug).Ok?
    ensures InheritFrom(parents, GroupLayer(mc, techId, systemwide), Layers(map[], map[], debug)).Ok?
    ensures WellFormedDoc(OwnPart(techConfig, systemwide, constraints))
    ensures Union(Part(InheritFrom(parents, GroupLayer(mc, techId, systemwide), Layers(map[], map[], debug)).value, constraints),
                  OwnPart(techConfig, systemwide, constraints), true, false)
            == Ok(Part(Inherit(mc, techId, techConfig, parents, systemwide, debug).value, constraints))
  {
    var a := InheritFrom(parents, GroupLayer(mc, techId, systemwide), Layers(map[], map[], debug)).value;
    OwnLayerPart(a, techConfig, systemwide, constraints);
    if !constraints {
      assert WellFormed(techConfig.entries["essentials"]);
    }
  }

  /** The tech's own essentials and system-wide constraints win over every group's. */
  lemma OwnPartWins(mc: Doc, techId: string, techConfig: Value, parents: seq<string>, systemwide: Value -> Doc, debug: Doc,
                    constraints: bool, p: Path, w: Value)
    requires WellFormed(techConfig) && SystemwideWellFormed(systemwide)
    requires Inherit(mc, techId, techConfig, parents, systemwide, debug).Ok?
    requires var own := OwnPart(techConfig, systemwide, constraints);
      p in LeafPaths(own) && Find(own, p) == Some(w) && !w.Dict? && !w.Null?
    ensures Find(Part(Inherit(mc, techId, techConfig, parents, systemwide, debug).value, constraints), p) == Some(w)
  {
    InheritParts(mc, techId, techConfig, parents, systemwide, debug, constraints);
    var a := InheritFrom(parents, GroupLayer(mc, techId, systemwide), Layers(map[], map[], debug)).value;
    UnionLeaf(Part(a, constraints), OwnPart(techConfig, systemwide, constraints), true, p, w);
  }

  /** The merge of the groups alone keeps a group's leaf that no nearer group sets. */
  lemma GroupsLeaf(mc: Doc, techId: string, parents: seq<string>, systemwide: Value -> Doc, debug: Doc, constraints: bool,
                   j: nat, p: Path, w: Value)
    requires WellFormedDoc(mc) && SystemwideWellFormed(systemwide)
    requires InheritFrom(parents, GroupLayer(mc, techId, systemwide), Layers(map[], map[], debug)).Ok?
    requires j < |parents| && !w.Dict? && !w.Null?
    requires var g := GroupPart(mc, systemwide, parents[j], constraints); p in LeafPaths(g) && Find(g, p) == Some(w)
    requires forall i, q :: 0 <= i < j && q in LeafPaths(GroupPart(mc, systemwide, parents[i], constraints)) ==> Diverge(q, p)
    ensures Find(Part(InheritFrom(parents, GroupLayer(mc, techId, systemwide), Layers(map[], map[], debug)).value, constraints), p)
            == Some(w)
  {
    var part := (l: Layers) => Part(l, constraints);
    var ess := (g: string) => GroupPart(mc, systemwide, g, constraints);
    GroupLayerLaysOver(mc, techId, systemwide, constraints);
    InheritFromLeaf(parents, GroupLayer(mc, techId, systemwide), part, ess, Layers(map[], map[], debug), j, p, w);
  }

  /** A group's essential or system-wide constraint survives when neither the tech nor
      any group nearer to it sets that path. */
  lemma GroupPartKept(mc: Doc, techId: string, techConfig: Value, parents: seq<string>, systemwide: Value -> Doc, debug: Doc,
                      constraints: bool, j: nat, p: Path, w: Value)
    requires WellFormedDoc(mc) && WellFormed(techConfig) && SystemwideWellFormed(systemwide)
    requires Inherit(mc, techId, techConfig, parents, systemwide, debug).Ok?
    requires j < |parents| && !w.Dict? && !w.Null?
    requires var g := GroupPart(mc, systemwide, parents[j], constraints); p in LeafPaths(g) && Find(g, p) == Some(w)
    requires forall i, q :: 0 <= i < j && q in LeafPaths(GroupPart(mc, systemwide, parents[i], constraints)) ==> Diverge(q, p)
    requires forall q :: q in LeafPaths(OwnPart(techConfig, systemwide, constraints)) ==> Diverge(q, p)
    ensures Find(Part(Inherit(mc, techId, techConfig, parents, systemwide, debug).value, constraints), p) == Some(w)
  {
    InheritParts(mc, techId, techConfig, parents, systemwide, debug, constraints);
    GroupsLeaf(mc, techId, parents, systemwide, debug, constraints, j, p, w);
    var a := InheritFrom(parents, GroupLayer(mc, techId, systemwide), Layers(map[], map[], debug)).value;
    UnionFrame(Part(a, constraints), OwnPart(techConfig, systemwide, constraints), true, p);
  }

  // ----- carriers -----

  /** The keys the checks may fill in. */
  const Filled: set<string> := {"carrier_in", "carrier_out", PrimaryKey("_in"), PrimaryKey("_out")}

  /** A check never overwrites an essential that is already set (a primary carrier set
      to `None` counts as unset), adds nothing but the carrier and primary carrier keys,
      and only appends messages. */
  ghost predicate Extends(c: Checked, r: Checked) {
    && (forall k :: k in c.essentials && !(k in Filled && c.essentials[k].Null?) ==>
          k in r.essentials && r.essentials[k] == c.essentials[k])
    && r.essentials.Keys <= c.essentials.Keys + Filled
    && |c.errors| <= |r.errors| && r.errors[..|c.errors|] == c.errors
  }

  function PrimaryKey(dir: string): string { "primary_carrier" + dir }

  lemma ExtendsTrans(a: Checked, b: Checked, c: Checked)
    requires Extends(a, b) && Extends(b, c)
    ensures Extends(a, c)
  {
    PrefixTrans(a.errors, b.errors, c.errors);
  }

  /** The `carrier_in` check, case by case on the root group. It always completes: storing
      the carrier comment can only fail with a KeyError, which the `try` turns into a
      message. A tech with a `carrier_in`, or rooted in supply or supply_plus, is left
      alone. A demand, transmission or storage tech copies `carrier` and records the
      comment, or gets the message when it has no `carrier`. Any other tech gets the
      message that it must define `carrier_in`. */
  lemma CarrierInRule(c: Checked, root: string, techId: string)
    ensures CarrierIn(c, root, techId).Ok?
    ensures var r := CarrierIn(c, root, techId).value;
      var e := c.essentials;
      var key := techId + ".essentials.carrier_in";
      && Extends(c, r)
      && ("carrier_in" in e || root in {Supply, SupplyPlus} ==> r == c)
      && ("carrier_in" !in e && root in {Demand, Transmission, Storage} && "carrier" in e ==>
            r.essentials == e["carrier_in" := e["carrier"]]
            && (SetKey(c.debug, key, Str(CarrierComment)).Ok? ==>
                  r.debug == SetKey(c.debug, key, Str(CarrierComment)).value && r.errors == c.errors)
            && (SetKey(c.debug, key, Str(CarrierComment)).Err? ==>
                  r.debug == c.debug && r.errors == c.errors + [NoCarrierIn(techId)]))
      && ("carrier_in" !in e && root in {Demand, Transmission, Storage} && "carrier" !in e ==>
            r == c.(errors := c.errors + [NoCarrierIn(techId)]))
      && ("carrier_in" !in e && root !in {Supply, SupplyPlus, Demand, Transmission, Storage} ==>
            r == c.(errors := c.errors + [CarrierInMissing(techId)]))
  {
    var e := c.essentials;
    if !("carrier_in" in e || root == Supply || root == SupplyPlus) && (root == Demand || root == Transmission || root == Storage)
       && "carrier" in e {
      var p := Segments(techId + ".essentials.carrier_in");
      if SetPath(c.debug, p, Str(CarrierComment)).Err? {
        SetPathLeafError(c.debug, p, Str(CarrierComment));
      }
    }
  }

  /** The `carrier_out` check, case by case on the root group. A tech with a `carrier_out`,
      or rooted in demand, is left alone. A supply, supply_plus, transmission or storage
      tech copies `carrier`, or gets the message when it has none. Any other tech gets
      the message that it must define `carrier_out`. The debug comments are never
      touched. */
  lemma CarrierOutRule(c: Checked, root: string, techId: string)
    ensures var r := CarrierOut(c, root, techId);
      var e := c.essentials;
      && Extends(c, r) && r.debug == c.debug
      && ("carrier_out" in e || root == Demand ==> r == c)
      && ("carrier_out" !in e && root in {Supply, SupplyPlus, Transmission, Storage} && "carrier" in e ==>
            r == c.(essentials := e["carrier_out" := e["carrier"]]))
      && ("carrier_out" !in e && root in {Supply, SupplyPlus, Transmission, Storage} && "carrier" !in e ==>
            r == c.(errors := c.errors + [NoCarrierOut(techId)]))
      && ("carrier_out" !in e && root !in {Supply, SupplyPlus, Demand, Transmission, Storage} ==>
            r == c.(errors := c.errors + [CarrierOutMissing(techId)]))
  {
  }

  /** The carriers one direction of a `conversion_plus` tech offers. */
  function Carriers(e: Doc, dir: string, flatten: seq<Value> -> seq<Value>): set<Value> {
    set v | v in CarrierList(e, "carrier" + dir, flatten)
  }

  /** Choosing a primary carrier changes nothing but `key`, which it only adds, and
      at most appends one message. */
  lemma ChooseExtends(c: Checked, key: string, dir: string, techId: string, flat: seq<Value>)
    requires Choose(c, key, dir, techId, flat).Ok?
    ensures var r := Choose(c, key, dir, techId, flat).value;
      && (forall k :: k in c.essentials && (k != key || !c.essentials[k].Null?) ==> k in r.essentials && r.essentials[k] == c.essentials[k])
      && r.essentials.Keys <= c.essentials.Keys + {key}
      && |c.errors| <= |r.errors| && r.errors[..|c.errors|] == c.errors && r.debug == c.debug
  {
  }

  lemma PrimaryExtends(c: Checked, dir: string, techId: string, flatten: seq<Value> -> seq<Value>)
    requires dir == "_in" || dir == "_out"
    requires Primary(c, dir, techId, flatten).Ok?
    ensures var r := Primary(c, dir, techId, flatten).value;
      Extends(c, r) && r.debug == c.debug
  {
    ChooseExtends(c, PrimaryKey(dir), dir, techId, CarrierList(c.essentials, "carrier" + dir, flatten));
  }

  /** The primary carrier is one of the carriers exactly when no message was appended;
      otherwise the message says which rule failed. */
  lemma ChooseResolved(c: Checked, key: string, dir: string, techId: string, flat: seq<Value>)
    requires Choose(c, key, dir, techId, flat).Ok?
    ensures var r := Choose(c, key, dir, techId, flat).value;
      var cs := set v | v in flat;
      && (r.errors == c.errors ==> key in r.essentials && r.essentials[key] in cs)
      && (key in r.essentials && !r.essentials[key].Null? && r.essentials[key] in cs ==> r.errors == c.errors)
      && (r.errors != c.errors ==>
            r.errors == c.errors + [PrimaryUnassigned(dir, techId)]
            || (key in c.essentials && r.errors == c.errors + [PrimaryUnknown(dir, Show(c.essentials[key]), techId)])
            || (key !in c.essentials && r.errors == c.errors + [PrimaryUnknown(dir, "None", techId)]))
  {
    if flat != [] {
      assert flat[0] in set v | v in flat;
    }
  }

  /** After one direction of the `conversion_plus` check, the tech's primary carrier is
      one of its carriers exactly when no message was appended. */
  lemma PrimaryResolved(c: Checked, dir: string, techId: string, flatten: seq<Value> -> seq<Value>)
    requires Primary(c, dir, techId, flatten).Ok?
    ensures var r := Primary(c, dir, techId, flatten).value;
      var key := PrimaryKey(dir);
      var cs := Carriers(c.essentials, dir, flatten);
      && (r.errors == c.errors ==> key in r.essentials && r.essentials[key] in cs)
      && (key in r.essentials && !r.essentials[key].Null? && r.essentials[key] in cs ==> r.errors == c.errors)
      && (r.errors != c.errors ==>
            r.errors == c.errors + [PrimaryUnassigned(dir, techId)]
            || (key in c.essentials && r.errors == c.errors + [PrimaryUnknown(dir, Show(c.essentials[key]), techId)])
            || (key !in c.essentials && r.errors == c.errors + [PrimaryUnknown(dir, "None", techId)]))
  {
    ChooseResolved(c, PrimaryKey(dir), dir, techId, CarrierList(c.essentials, "carrier" + dir, flatten));
  }

  /** A missing primary carrier is filled in when there is exactly one carrier to
      choose, and reported when there are several. */
  lemma ChooseOnly(c: Checked, key: string, dir: string, techId: string, flat: seq<Value>)
    requires Choose(c, key, dir, techId, flat).Ok?
    requires key !in c.essentials || c.essentials[key].Null?
    ensures var r := Choose(c, key, dir, techId, flat).value;
      var cs := set v | v in flat;
      && (|cs| == 1 ==> key in r.essentials && cs == {r.essentials[key]} && r.errors == c.errors)
      && (|cs| > 1 ==> r.errors == c.errors + [PrimaryUnassigned(dir, techId)])
  {
    var cs := set v | v in flat;
    if |cs| == 1 {
      assert flat[0] in cs;
      assert |cs - {flat[0]}| == 0;
      assert cs == {flat[0]};
    }
  }

  lemma PrimaryChosen(c: Checked, dir: string, techId: string, flatten: seq<Value> -> seq<Value>)
    requires Primary(c, dir, techId, flatten).Ok?
    requires PrimaryKey(dir) !in c.essentials || c.essentials[PrimaryKey(dir)].Null?
    ensures var r := Primary(c, dir, techId, flatten).value;
      var cs := Carriers(c.essentials, dir, flatten);
      && (|cs| == 1 ==> PrimaryKey(dir) in r.essentials && cs == {r.essentials[PrimaryKey(dir)]} && r.errors == c.errors)
      && (|cs| > 1 ==> r.errors == c.errors + [PrimaryUnassigned(dir, techId)])
  {
    ChooseOnly(c, PrimaryKey(dir), dir, techId, CarrierList(c.essentials, "carrier" + dir, flatten));
  }

  /** The checks in order never overwrite a set essential, and only append messages. */
  lemma {:induction false} PrimaryFromExtends(c: Checked, dirs: seq<string>, techId: string, flatten: seq<Value> -> seq<Value>)
    requires forall i :: 0 <= i < |dirs| ==> dirs[i] == "_in" || dirs[i] == "_out"
    requires PrimaryFrom(c, dirs, techId, flatten).Ok?
    ensures Extends(c, PrimaryFrom(c, dirs, techId, flatten).value)
    decreases |dirs|
  {
    if dirs == [] {
      PrefixTrans(c.errors, c.errors, c.errors);
    } else {
      PrimaryExtends(c, dirs[0], techId, flatten);
      var c1 := Primary(c, dirs[0], techId, flatten).value;
      PrimaryFromExtends(c1, dirs[1..], techId, flatten);
      ExtendsTrans(c, c1, PrimaryFrom(c1, dirs[1..], techId, flatten).value);
    }
  }

  lemma DirectionsValid()
    ensures forall i :: 0 <= i < |Directions| ==> Directions[i] == "_in" || Directions[i] == "_out"
  {
  }

  lemma ChecksFrame(c: Checked, root: string, techId: string, flatten: seq<Value> -> seq<Value>)
    requires Checks(c, root, techId, flatten).Ok?
    ensures Extends(c, Checks(c, root, techId, flatten).value)
  {
    CarrierInRule(c, root, techId);
    var c1 := CarrierIn(c, root, techId).value;
    CarrierOutRule(c1, root, techId);
    var c2 := CarrierOut(c1, root, techId);
    ExtendsTrans(c, c1, c2);
    if root == ConversionPlus {
      DirectionsValid();
      PrimaryFromExtends(c2, Directions, techId, flatten);
      ExtendsTrans(c, c2, PrimaryFrom(c2, Directions, techId, flatten).value);
    }
  }

  // ----- colours -----

  /** A tech without a true `color` gets palette colour number `colours` (counted
      modulo the ten colours) and the counter moves on; a tech with one keeps it. Either
      way it ends up with a true colour, and nothing else in its essentials changes. */
  lemma ColourRule(c: Checked, techId: string, colours: nat)
    requires Colour(c, techId, colours).Ok?
    ensures var (r, n) := Colour(c, techId, colours).value;
      var current := if "color" in c.essentials then c.essentials["color"] else Null;
      && "color" in r.essentials && Truthy(r.essentials["color"])
      && (forall k :: k in c.essentials && k != "color" ==> k in r.essentials && r.essentials[k] == c.essentials[k])
      && r.essentials.Keys == c.essentials.Keys + {"color"} && r.errors == c.errors
      && (Truthy(current) ==> r == c && n == colours)
      && (!Truthy(current) ==> r.essentials["color"] == Str(Palette[colours % 10]) && n == colours + 1)
  {
  }
}
