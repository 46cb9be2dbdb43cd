/** `process_techs` (calliope/preprocess/model_run.py) as the source runs it: one loop
    over the techs that merges in place into fresh `AttrDict`s for each tech, comments
    into one shared `debug_comments` object, appends to `errors` and advances the
    palette counter. Each method is proved against the function of `Techs` that states
    the same step, whose properties are proved there. */
module Process {
  import opened Values
  import opened Flatten
  import opened Parents
  import opened Techs
  import AttrDicts
  import Overrides

  // ----- inheritance -----

  /** One pass of `for parent in reversed(tech_result.inheritance)`. */
  method AddParent(mc: Doc, techId: string, parent: string, systemwide: Value -> Doc,
                   essentials: AttrDicts.AttrDict, constraints: AttrDicts.AttrDict, debug: AttrDicts.AttrDict)
    returns (err: Option<Error>)
    requires essentials != constraints && essentials != debug && constraints != debug
    modifies essentials, constraints, debug
    ensures var r := GroupLayer(mc, techId, systemwide)(parent, Layers(old(essentials.entries), old(constraints.entries), old(debug.entries)));
      && (r.Ok? ==> err == None && Layers(essentials.entries, constraints.entries, debug.entries) == r.value)
      && (r.Err? ==> err == Some(r.error))
  {
    var g := Group(mc, Str(parent));
    if g.Err? {
      return Some(g.error);
    }
    var pe := Attr(g.value, "essentials");
    if pe.Err? {
      return Some(pe.error);
    }
    if !pe.value.Dict? {
      return Some(NoAttribute);
    }
    var flat := AsDictFlat(pe.value.entries);
    if flat.Err? {
      return Some(flat.error);
    }
    err := Overrides.CommentAll(debug, EssentialKeys(techId, KeysNested(pe.value.entries)), ParentComment(parent));
    if err.Some? {
      return;
    }
    err := essentials.Union(pe.value.entries, true, false);
    if err.Some? {
      return;
    }
    err := constraints.Union(systemwide(g.value), true, false);
  }

  /** The inheritance loop, root group first, then the tech's own essentials and
      system-wide constraints, merged into fresh `essentials` and `constraints`. */
  method InheritInto(mc: Doc, techId: string, techConfig: Value, parents: seq<string>, systemwide: Value -> Doc,
                     debug: AttrDicts.AttrDict)
    returns (essentials: AttrDicts.AttrDict, constraints: AttrDicts.AttrDict, err: Option<Error>)
    modifies debug
    ensures fresh(essentials) && fresh(constraints) && essentials != constraints
    ensures var r := Inherit(mc, techId, techConfig, parents, systemwide, old(debug.entries));
      && (r.Ok? ==> err == None && essentials.entries == r.value.essentials && constraints.entries == r.value.constraints
                    && debug.entries == r.value.debug)
      && (r.Err? ==> err == Some(r.error))
  {
    essentials := new AttrDicts.AttrDict();
    constraints := new AttrDicts.AttrDict();
    var layer := GroupLayer(mc, techId, systemwide);
    ghost var whole := InheritFrom(parents, layer, Layers(map[], map[], old(debug.entries)));
    var i := |parents|;
    assert parents[..i] == parents;
    while i > 0
      invariant 0 <= i <= |parents|
      invariant fresh(essentials) && fresh(constraints) && essentials != constraints
      invariant InheritFrom(parents[..i], layer, Layers(essentials.entries, constraints.entries, debug.entries)) == whole
      decreases i
    {
      ghost var acc := Layers(essentials.entries, constraints.entries, debug.entries);
      assert parents[..i][i - 1] == parents[i - 1] && parents[..i][..i - 1] == parents[..i - 1];
      err := AddParent(mc, techId, parents[i - 1], systemwide, essentials, constraints, debug);
      if err.Some? {
        return;
      }
      i := i - 1;
    }
    assert whole == Ok(Layers(essentials.entries, constraints.entries, debug.entries));
    var te := Attr(techConfig, "essentials");
    if te.Err? {
      return essentials, constraints, Some(te.error);
    }
    if !te.value.Dict? {
      return essentials, constraints, Some(NoAttribute);
    }
    err := essentials.Union(te.value.entries, true, false);
    if err.Some? {
      return;
    }
    err := constraints.Union(systemwide(techConfig), true, false);
  }

  // ----- checks -----

  /** The `carrier_in` check, on the tech's `essentials` in place. */
  method CheckCarrierIn(essentials: AttrDicts.AttrDict, debug: AttrDicts.AttrDict, errors: seq<Message>, root: string, techId: string)
    returns (errs: seq<Message>, err: Option<Error>)
    requires essentials != debug
    modifies essentials, debug
    ensures var r := CarrierIn(Checked(old(essentials.entries), old(debug.entries), errors), root, techId);
      && (r.Ok? ==> err == None && Checked(essentials.entries, debug.entries, errs) == r.value)
      && (r.Err? ==> err == Some(r.error))
  {
    errs, err := errors, None;
    if "carrier_in" in essentials.entries || root == Supply || root == SupplyPlus {
      return;
    }
    if root == Demand || root == Transmission || root == Storage {
      if "carrier" in essentials.entries {
        essentials.Put("carrier_in", essentials.entries["carrier"]);
        var e := debug.SetKey(techId + ".essentials.carrier_in", Str(CarrierComment));
        if e.Some? {
          if IsKeyError(e.value) {
            errs := errs + [NoCarrierIn(techId)];
          } else {
            err := e;
          }
        }
      } else {
        errs := errs + [NoCarrierIn(techId)];
      }
    } else {
      errs := errs + [CarrierInMissing(techId)];
    }
  }

  /** The `carrier_out` check, on the tech's `essentials` in place. */
  method CheckCarrierOut(essentials: AttrDicts.AttrDict, ghost debug: Doc, errors: seq<Message>, root: string, techId: string)
    returns (errs: seq<Message>)
    modifies essentials
    ensures CarrierOut(Checked(old(essentials.entries), debug, errors), root, techId) == Checked(essentials.entries, debug, errs)
  {
    errs := errors;
    if "carrier_out" in essentials.entries || root == Demand {
      return;
    }
    if root == Supply || root == SupplyPlus || root == Transmission || root == Storage {
      if "carrier" in essentials.entries {
        essentials.Put("carrier_out", essentials.entries["carrier"]);
      } else {
        errs := errs + [NoCarrierOut(techId)];
      }
    } else {
      errs := errs + [CarrierOutMissing(techId)];
    }
  }

  /** The primary carrier check for one direction. */
  method CheckPrimary(essentials: AttrDicts.AttrDict, ghost debug: Doc, errors: seq<Message>, dir: string, techId: string,
                      flatten: seq<Value> -> seq<Value>)
    returns (errs: seq<Message>, err: Option<Error>)
    modifies essentials
    ensures var r := Primary(Checked(old(essentials.entries), debug, errors), dir, techId, flatten);
      && (r.Ok? ==> err == None && r.value == Checked(essentials.entries, debug, errs))
      && (r.Err? ==> err == Some(r.error))
  {
    errs, err := errors, None;
    var flat := CarrierList(essentials.entries, "carrier" + dir, flatten);
    if !AllHashable(flat) {
      return errs, Some(Unhashable);
    }
    var carriers := set v | v in flat;
    var key := PrimaryKey(dir);
    var primary := if key in essentials.entries then essentials.entries[key] else Null;
    if primary.Null? && |carriers| == 1 {
      essentials.Put(key, flat[0]);
    } else if primary.Null? && |carriers| > 1 {
      errs := errs + [PrimaryUnassigned(dir, techId)];
    } else if !Hashable(primary) {
      err := Some(Unhashable);
    } else if primary !in carriers {
      errs := errs + [PrimaryUnknown(dir, Show(primary), techId)];
    }
  }

  /** The checks in source order, with `for direction in ["_in", "_out"]` as a loop. */
  method CheckCarriers(essentials: AttrDicts.AttrDict, debug: AttrDicts.AttrDict, errors: seq<Message>, root: string,
                       techId: string, flatten: seq<Value> -> seq<Value>)
    returns (errs: seq<Message>, err: Option<Error>)
    requires essentials != debug
    modifies essentials, debug
    ensures var r := Checks(Checked(old(essentials.entries), old(debug.entries), errors), root, techId, flatten);
      && (r.Ok? ==> err == None && Checked(essentials.entries, debug.entries, errs) == r.value)
      && (r.Err? ==> err == Some(r.error))
  {
    errs, err := CheckCarrierIn(essentials, debug, errors, root, techId);
    if err.Some? {
      return;
    }
    errs := CheckCarrierOut(essentials, debug.entries, errs, root, techId);
    if root != ConversionPlus {
      return;
    }
    errs, err := CheckPrimaries(essentials, debug.entries, errs, Directions, techId, flatten);
  }

  /** `for direction in dirs`: the primary carrier check for each direction in turn. */
  method CheckPrimaries(essentials: AttrDicts.AttrDict, ghost debug: Doc, errors: seq<Message>, dirs: seq<string>,
                        techId: string, flatten: seq<Value> -> seq<Value>)
    returns (errs: seq<Message>, err: Option<Error>)
    modifies essentials
    ensures var r := PrimaryFrom(Checked(old(essentials.entries), debug, errors), dirs, techId, flatten);
      && (r.Ok? ==> err == None && r.value == Checked(essentials.entries, debug, errs))
      && (r.Err? ==> err == Some(r.error))
  {
    errs, err := errors, None;
    ghost var whole := PrimaryFrom(Checked(essentials.entries, debug, errors), dirs, techId, flatten);
    assert dirs[0..] == dirs;
    for j := 0 to |dirs|
      invariant PrimaryFrom(Checked(essentials.entries, debug, errs), dirs[j..], techId, flatten) == whole
      invariant err == None
    {
      assert dirs[j..][0] == dirs[j] && dirs[j..][1..] == dirs[j + 1..];
      errs, err := CheckPrimary(essentials, debug, errs, dirs[j], techId, flatten);
      if err.Some? {
        return;
      }
    }
    assert dirs[|dirs|..] == [];
  }

  // ----- colours -----

  /** `if not tech_result.essentials.get_key("color", None)`: take the next colour of the
      palette cycle. */
  method PickColour(essentials: AttrDicts.AttrDict, debug: AttrDicts.AttrDict, ghost errors: seq<Message>, techId: string,
                    colours: nat)
    returns (next: nat, err: Option<Error>)
    requires essentials != debug
    modifies essentials, debug
    ensures var r := Colour(Checked(old(essentials.entries), old(debug.entries), errors), techId, colours);
      && (r.Ok? ==> err == None && r.value == (Checked(essentials.entries, debug.entries, errors), next))
      && (r.Err? ==> err == Some(r.error))
  {
    next, err := colours, None;
    var current := if "color" in essentials.entries then essentials.entries["color"] else Null;
    if Truthy(current) {
      return;
    }
    essentials.Put("color", Str(PaletteColour(colours)));
    err := debug.SetKey(techId + ".essentials.color", Str(PaletteComment));
    next := colours + 1;
  }

  // ----- one tech, all techs -----

  /** Everything after `get_parents` for one existing tech; `techs` is `result` and
      `colours` the number of palette colours handed out so far. */
  method FinishTech(mc: Doc, techId: string, techConfig: Value, parents: seq<string>, ctx: Context,
                    techs: map<string, TechResult>, debug: AttrDicts.AttrDict, errors: seq<Message>, colours: nat)
    returns (techs': map<string, TechResult>, errors': seq<Message>, colours': nat, err: Option<Error>)
    requires |parents| >= 1
    modifies debug
    ensures var r := Finish(mc, techId, techConfig, parents, ctx, Run(techs, old(debug.entries), errors, colours));
      && (r.Ok? ==> err == None && Run(techs', debug.entries, errors', colours') == r.value)
      && (r.Err? ==> err == Some(r.error))
  {
    techs', colours' := techs, colours;
    var root := parents[|parents| - 1];
    errors' := errors + if root in ctx.builtin then [] else [NotBuiltin(techId)];
    var essentials, constraints;
    essentials, constraints, err := InheritInto(mc, techId, techConfig, parents, ctx.systemwide, debug);
    if err.Some? {
      return;
    }
    var allowed := RootKeys(mc, root);
    if allowed.Err? {
      err := Some(allowed.error);
      return;
    }
    FinishIsComplete(mc, techId, techConfig, parents, ctx, Run(techs, old(debug.entries), errors, colours),
                     Layers(essentials.entries, constraints.entries, debug.entries), allowed.value);
    techs', errors', colours', err := CompleteTech(techId, parents, root, essentials, constraints.entries, allowed.value,
                                                   ctx.flatten, techs, debug, errors', colours);
  }

  /** The carrier checks and the colour on the merged `essentials`, then
      `result[tech_id] = tech_result`. */
  method CompleteTech(techId: string, parents: seq<string>, root: string, essentials: AttrDicts.AttrDict, constraints: Doc,
                      allowed: Allowed, flatten: seq<Value> -> seq<Value>,
                      techs: map<string, TechResult>, debug: AttrDicts.AttrDict, errors: seq<Message>, colours: nat)
    returns (techs': map<string, TechResult>, errors': seq<Message>, colours': nat, err: Option<Error>)
    requires essentials != debug
    modifies essentials, debug
    ensures var r := Complete(techId, parents, root, Layers(old(essentials.entries), constraints, old(debug.entries)), allowed,
                              errors, flatten, techs, colours);
      && (r.Ok? ==> err == None && Run(techs', debug.entries, errors', colours') == r.value)
      && (r.Err? ==> err == Some(r.error))
  {
    techs', errors', colours' := techs, errors, colours;
    errors', err := CheckCarriers(essentials, debug, errors, root, techId, flatten);
    if err.Some? {
      return;
    }
    colours', err := PickColour(essentials, debug, errors', techId, colours);
    if err.Some? {
      return;
    }
    techs' := techs[techId := TechResult(parents, essentials.entries, constraints, allowed)];
  }

  /** One pass of the `for tech_id, tech_config in config_model.techs.items()` loop. */
  method ResolveTechStep(mc: Doc, techId: string, ctx: Context,
                         techs: map<string, TechResult>, debug: AttrDicts.AttrDict, errors: seq<Message>, colours: nat)
    returns (techs': map<string, TechResult>, errors': seq<Message>, colours': nat, err: Option<Error>)
    modifies debug
    ensures var r := ResolveTech(mc, techId, ctx, Run(techs, old(debug.entries), errors, colours));
      && (r.Ok? ==> err == None && Run(techs', debug.entries, errors', colours') == r.value)
      && (r.Err? ==> err == Some(r.error))
  {
    techs', errors', colours', err := techs, errors, colours, None;
    var techConfig := Tech(mc, techId);
    if techConfig.Err? {
      err := Some(techConfig.error);
      return;
    }
    var present := Exists(techConfig.value);
    if present.Err? {
      err := Some(present.error);
      return;
    }
    if !present.value {
      return;
    }
    var parents := GetParentsLoop(mc, techId);
    if parents.Err? {
      err := Some(parents.error);
      return;
    }
    techs', errors', colours', err := FinishTech(mc, techId, techConfig.value, parents.value, ctx, techs, debug, errors, colours);
  }

  /** `process_techs(config_model)`: the techs in the order `listing` gives, with a fresh
      `debug_comments` object; returns `result`, `debug_comments` and `errors`. */
  method ProcessTechsRun(mc: Doc, ctx: Context, listing: set<string> -> seq<string>)
    returns (techs: map<string, TechResult>, debug: AttrDicts.AttrDict, errors: seq<Message>, err: Option<Error>)
    ensures fresh(debug)
    ensures var r := ProcessTechs(mc, ctx, listing);
      && (r.Ok? ==> err == None && techs == r.value.techs && debug.entries == r.value.debug && errors == r.value.errors)
      && (r.Err? ==> err == Some(r.error))
  {
    techs, errors, err := map[], [], None;
    debug := new AttrDicts.AttrDict();
    var ts := Attr(Dict(mc), "techs");
    if ts.Err? {
      err := Some(ts.error);
      return;
    }
    if !ts.value.Dict? {
      err := Some(NoAttribute);
      return;
    }
    var ids := listing(ts.value.entries.Keys);
    var colours := 0;
    ghost var whole := Loop(ids, Step(mc, ctx), Run(map[], map[], [], 0));
    var i := 0;
    while i < |ids|
      invariant 0 <= i <= |ids| && fresh(debug)
      invariant Loop(ids[i..], Step(mc, ctx), Run(techs, debug.entries, errors, colours)) == whole
      invariant err == None
    {
      assert ids[i..][0] == ids[i] && ids[i..][1..] == ids[i + 1..];
      techs, errors, colours, err := ResolveTechStep(mc, ids[i], ctx, techs, debug, errors, colours);
      if err.Some? {
        return;
      }
      i := i + 1;
    }
    assert ids[|ids|..] == [];
  }

  /** Step 2 of `generate_model_run`: `process_techs`, its comments stored under
      `model_run.techs` of `debugComments`, then every message raised at once. */
  method PopulateTechs(mc: Doc, ctx: Context, listing: set<string> -> seq<string>, debugComments: AttrDicts.AttrDict)
    returns (techs: map<string, TechResult>, err: Option<Error>)
    modifies debugComments
    ensures var r := ModelRunTechs(mc, old(debugComments.entries), ctx, listing);
      && (r.Ok? ==> err == None && techs == r.value.0 && debugComments.entries == r.value.1)
      && (r.Err? ==> err == Some(r.error))
  {
    var debug, errors;
    techs, debug, errors, err := ProcessTechsRun(mc, ctx, listing);
    if err.Some? {
      return;
    }
    err := debugComments.SetKey("model_run.techs", Dict(debug.entries));
    if err.Some? {
      return;
    }
    if errors != [] {
      err := Some(TechErrors(Rendered(errors)));
    }
  }
}
