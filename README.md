# Calliope configuration core, modelled in Dafny

Calliope reads an energy-system model as a tree of YAML documents. The tree is held
in `AttrDict`s: dictionaries with dotted-key access (`set_key("a.b", 1)`), leaf
listings (`keys_nested`), flattening (`as_dict_flat`), a recursive merge (`union`)
and `import:` resolution. Before a model is built, the configuration is layered:
1. `apply_overrides` starts from the built-in defaults.
2. It merges in the user's model configuration.
3. It merges in an override dict.
4. It merges in the overrides named by a scenario. A scenario expands recursively
   through the scenarios it names (`load_overrides_from_scenario`), and
   `combine_overrides` refuses a leaf defined by two of its overrides.
5. It merges in the override dict again, so that the override dict wins.
6. It deletes the placeholder tech, node and link.

A debug document records where each overridden leaf came from. Then `process_techs`
resolves every tech:
- it follows the tech's inheritance chain of tech groups (`get_parents`);
- it merges the essentials and constraints from the root group down to the tech;
- it takes the allowed and required constraint lists from the root group;
- it fills `carrier_in` and `carrier_out` from `carrier`;
- it chooses the primary carriers of conversion_plus techs;
- it picks a colour from a ten-colour palette.

`process_techs` collects every error and raises them together. `process_tech_groups`
lists the members of each group. `_get_names` finds the `file=`/`df=` references in a
flattened configuration.

The model works on values. `Values.Value` is a YAML value, and a document (`Doc`) is
the map inside an `AttrDict`. Each operation is a function over documents. The
operations that update state step by step are methods that update an
`AttrDicts.AttrDict` object or loop variables. Each method is proved equal to its
function, and the properties are proved as lemmas about the functions.

Modules, following the source:
- `Text`: sorted strings; `split`, `join` and `rsplit`; integer formatting.
- `Values`: values and the exceptions.
- In calliope/core/attrdict.py:
  - `Paths`: `get_key`, `set_key` and `del_key`.
  - `Flatten`: `keys_nested` and `as_dict_flat`.
  - `Merge`: `union`.
  - `Construct`: `__init__` and `init_from_dict`.
  - `Imports`: `_resolve_imports`.
  - `AttrDicts`: the `AttrDict` class, with its mutating methods.
- In calliope/preprocess/model_run.py:
  - `Scenarios`: `load_overrides_from_scenario`.
  - `Placeholders` and `Overrides`: `combine_overrides` and `apply_overrides`.
  - `Parents`: `get_parents`.
  - `Techs`: the specification of `process_techs` and `process_tech_groups`.
  - `Process`: the imperative `process_techs`.
  - `Names`: `_get_names`.

Where the documentation and the code disagree, the model follows the code:
- `union(allow_replacement=True)` is documented to replace a whole sub-dict under
  `_REPLACE_`. The code writes the replacement with `set_key`, and `set_key` merges a
  dict into an existing dict, so nothing is wiped (`Merge.ReplacementMergesIntoDict`).
- `_resolve_imports` with a key path writes the merged sub-dict back with `set_key`.
  That merge keeps the `import` list under the path whenever the list is not empty
  (`Imports.UnderKeepsImport`).

## Model

| member | source | states |
|---|---|---|
| Paths.GetPath | calliope/core/attrdict.py:241-260 | `get_key` without a default succeeds exactly when the segments lead through nested dicts to a value, and returns that value; it fails only with KeyError or AttributeError |
| Paths.GetPathError | calliope/core/attrdict.py:241-260 | a failing `get_key` stops at some segment `p[i]`: with a dict there that lacks `p[i]` it raises KeyError naming `p[i]`, with a non-dict there it raises AttributeError |
| Paths.GetPathStuck | calliope/core/attrdict.py:241-260 | conversely, when the walk reaches a dict without the next segment, or a non-dict, `get_key` raises exactly that error |
| Paths.GetPathOr | calliope/core/attrdict.py:244-252 | `get_key` with a default returns the value the segments lead to, or the default when a segment is missing or crosses a non-dict |
| Paths.GetKeyMissing | calliope/core/attrdict.py:253-260 | a missing first segment raises KeyError naming that segment |
| Paths.GetKeyOrAgrees | calliope/core/attrdict.py:232-261 | with a default, `get_key` agrees with the lookup without a default where that succeeds, and returns the default exactly where it raises |
| Paths.FindConcat | calliope/core/attrdict.py:241-254 | looking up `p + q` is looking up `q` inside the dict that `p` leads to, and finds nothing when `p` does not lead to a dict |
| Paths.GetKeyStepwise | calliope/core/attrdict.py:241-254 | `get_key("a.rest")` is `get_key("rest")` on the dict at `a`; a non-dict at `a` raises AttributeError, and a missing `a` raises the same error as `get_key("a")` |
| Paths.Nest | calliope/core/attrdict.py:210-216 | `set_key` on an absent path builds nested dicts with the one first key, holding the value at the end of the path |
| Paths.MergeEntriesDisjoint | calliope/core/attrdict.py:226-228 | setting a dict onto a dict with disjoint keys yields the union of the two |
| Paths.SetPath | calliope/core/attrdict.py:198-230 | `set_key` fails only with the "Cannot set nested key on non-dict key" KeyError or an AttributeError |
| Paths.SetPathErrorIff | calliope/core/attrdict.py:208-230 | `set_key` fails exactly when a non-dict, non-None value sits on the path or a dict is merged into a non-dict leaf |
| Paths.SetPathGet | calliope/core/attrdict.py:198-230 | after `set_key` succeeds, the key holds the value, or the merge of the value into the dict already there |
| Paths.SetKeyThenGetKey | calliope/core/attrdict.py:198-261 | `get_key` after a successful `set_key` of a non-dict value returns that value |
| Paths.SetPathFrame | calliope/core/attrdict.py:198-230 | `set_key` leaves every path that diverges from the key unchanged |
| Paths.SetPathKeys | calliope/core/attrdict.py:210-230 | `set_key` adds at most the key's first segment to the top-level keys |
| Paths.OverlayKeeps | calliope/core/attrdict.py:226-228 | merging a dict into a dict keeps every leaf the new dict does not touch |
| Paths.OverlayWins | calliope/core/attrdict.py:226-228 | merging a dict into any value puts every non-dict leaf of the new dict in place |
| Paths.OverlayIdempotent | calliope/core/attrdict.py:226-230 | merging the same value a second time changes nothing |
| Paths.SetPathIdempotent | calliope/core/attrdict.py:198-230 | `set_key(k, v)` twice is `set_key(k, v)` once |
| Paths.SetPathWellFormed | calliope/core/attrdict.py:198-230 | `set_key` with a dot-free path keeps every stored key dot-free |
| Paths.DelPath | calliope/core/attrdict.py:263-277 | `del_key` fails only with KeyError, or with TypeError on a value that is not a mapping |
| Paths.DelPathErrorIff | calliope/core/attrdict.py:263-277 | `del_key` fails exactly when the key does not exist |
| Paths.DelPathRemoves | calliope/core/attrdict.py:263-277 | after `del_key` the key no longer exists |
| Paths.DelPathFrame | calliope/core/attrdict.py:263-277 | `del_key` leaves every path that diverges from the key unchanged |
| Paths.DelPathPrunes | calliope/core/attrdict.py:272-274 | no dict left on the deleted key's path is empty |
| Paths.SetPathAsWrittenLosesSiblings | calliope/core/attrdict.py:212-224 | as written, `set_key("a.b.c", 2)` on `{a: {b: 1, x: 5}}` succeeds and loses `a.x`; the corrected `SetPath` raises |
| Flatten.KeysNested | calliope/core/attrdict.py:342-365 | `keys_nested()` as a list; what it lists is `Flatten.KeysNestedSpec` |
| Flatten.AsDictFlat | calliope/core/attrdict.py:301-306 | `as_dict_flat()`; what it holds is `Flatten.AsDictFlatSpec` |
| Flatten.SortedKeys | calliope/core/attrdict.py:355 | the keys of a dict, each exactly once |
| Flatten.SortedKeysIncreasing | calliope/core/attrdict.py:355 | `sorted(self.items())` visits the keys in strictly increasing order |
| Flatten.KeysNestedSingleton | calliope/core/attrdict.py:355-364 | a single entry lists its key alone, or its non-empty dict's nested keys, each prefixed with the key and a dot |
| Flatten.PrefixedMember | calliope/core/attrdict.py:360 | a prefixed path is exactly the key followed by one of the sub-paths |
| Flatten.LeafPathsMember | calliope/core/attrdict.py:354-365 | a path is listed exactly when it leads to a leaf: a non-dict or an empty dict |
| Flatten.LeafPathsSorted | calliope/core/attrdict.py:354-365 | the leaf paths come in strictly increasing order |
| Flatten.KeysNestedSpec | calliope/core/attrdict.py:342-365 | `keys_nested` lists the dotted leaf paths, one per leaf, with no duplicates; each splits back into its path |
| Flatten.AsDictFlatSpec | calliope/core/attrdict.py:301-306 | `as_dict_flat` of a well-formed document succeeds; its keys are exactly `keys_nested`, each mapped to the value at that leaf |
| Flatten.RebuildFromFlat | calliope/core/attrdict.py:301-306 | setting every key of `as_dict_flat` with `set_key` into an empty document rebuilds the document |
| Merge.Union | calliope/core/attrdict.py:367-414 | `union`: the override pass over the leaf keys, then the pass over the `_REPLACE_` targets; its properties are the `Merge.Union…` lemmas |
| Merge.OverridePass | calliope/core/attrdict.py:402-412 | the `for k in override_keys` loop; its properties are `Merge.UnionLeaf`, `Merge.UnionFrame` and `Merge.UnionDefinedTwice` |
| Merge.WipePass | calliope/core/attrdict.py:413-414 | the `for k in wipe_keys` loop; its properties are `Merge.WipePassTarget` and `Merge.WipePassFrame` |
| Merge.WithoutMarker | calliope/core/attrdict.py:393-395 | the override keys are exactly the leaf keys that do not contain `_REPLACE_` |
| Merge.WipeTargets | calliope/core/attrdict.py:396-398 | without a `_REPLACE_` key there is nothing to wipe |
| Merge.UnionDefinedTwice | calliope/core/attrdict.py:402-404 | "Key defined twice: k" is raised only without `allow_override`, and only for a leaf key of both documents |
| Merge.UnionSharedLeafFails | calliope/core/attrdict.py:402-404 | conversely, without `allow_override` a leaf key shared by both documents makes `union` fail |
| Merge.UnionLeaf | calliope/core/attrdict.py:402-412 | every non-dict leaf of `other` ends up in the result, except a None over an existing sub-dict, which is skipped |
| Merge.UnionFrame | calliope/core/attrdict.py:402-412 | paths that diverge from every leaf of `other` are unchanged |
| Merge.UnionIntoEmpty | calliope/core/attrdict.py:367-414 | the union of a well-formed document into an empty one is that document |
| Merge.UnionErrorIsKeyError | calliope/core/attrdict.py:402-412 | without replacement, every failure of `union` on a well-formed document is a KeyError |
| Merge.UnionWithoutMarkers | calliope/core/attrdict.py:393-401 | without `_REPLACE_` keys, `allow_replacement` makes no difference |
| Merge.WipePassTarget | calliope/core/attrdict.py:413-414 | for targets that are pairwise equal or diverging, each target ends with the value under `<target>._REPLACE_` merged into what was there before, or stored as it is when nothing was there |
| Merge.WipePassFrame | calliope/core/attrdict.py:413-414 | the wipe loop leaves every path that diverges from all targets unchanged |
| Merge.UnionReplacement | calliope/core/attrdict.py:393-414 | with `allow_replacement`, each `_REPLACE_` target of `other` ends with `other[<target>._REPLACE_]` merged into what the override pass left there (stored as it is when nothing was there): a sub-dict is merged into, not wiped |
| Merge.UnionReplacementFrame | calliope/core/attrdict.py:393-414 | with `allow_replacement`, a path that diverges from every target keeps what the override pass left there |
| Merge.ReplacementMergesIntoDict | calliope/core/attrdict.py:413-414 | example: `{a: {x: 1}}` with `{a: {_REPLACE_: {y: 2}}}` gives `{a: {x: 1, y: 2}}` |
| Merge.UnionWellFormed | calliope/core/attrdict.py:367-414 | `union` of well-formed documents is well formed |
| Construct.KeyString | calliope/core/attrdict.py:96-98 | a string key is kept; an integer key becomes a dot-free decimal numeral whose value, read back, is the integer; a boolean key becomes `True` or `False` |
| Text.IntToString | calliope/core/attrdict.py:96-98 | `str(i)` of an integer: an optional `-` and digits, without a dot, that parse back to `i` |
| Text.IntToStringInjective | calliope/core/attrdict.py:96-98 | two different integers become two different keys |
| Construct.InitEntries | calliope/core/attrdict.py:95-111 | the successive `set_key`s of `init_from_dict`, the first failure stopping them; its properties are `Construct.LastEntryWins` and `Construct.SingleEntry` |
| Construct.Convert | calliope/core/attrdict.py:86-111 | the conversion of a raw YAML value into a `Value`; its property is `Construct.ConvertWellFormed` |
| Construct.FromRaw | calliope/core/attrdict.py:73-80 | `AttrDict(None)` is empty; `AttrDict(x)` raises ValueError when `x` is neither None nor a dict; for a dict it succeeds exactly when converting the dict does, with that result |
| Construct.LastEntryWins | calliope/core/attrdict.py:95-111 | the last entry written for a key gives that key's non-dict value |
| Construct.IntKeyStringified | calliope/core/attrdict.py:96-98 | `{1: v}` becomes `{"1": v}` |
| Construct.DottedKeyNests | calliope/core/attrdict.py:100-111 | `{"a.b": v}` becomes `{a: {b: v}}` |
| Construct.SingleEntry | calliope/core/attrdict.py:95-111 | a one-entry dict becomes the nested path of its key's segments holding its converted value |
| Construct.ConvertWellFormed | calliope/core/attrdict.py:86-111 | a converted value only has dot-free keys |
| Imports.ResolveImports | calliope/core/attrdict.py:114-151 | `_resolve_imports` in both modes; its properties are the `Imports` lemmas below |
| Imports.ResolveLocal | calliope/core/attrdict.py:130-132 | an `import` that is not a list raises "`import` must be a list." |
| Imports.NonListImportRaises | calliope/core/attrdict.py:115-132 | at the top level, a non-list `import` raises ValueError |
| Imports.NoImportUnchanged | calliope/core/attrdict.py:115-127 | with imports off, or no `import` key, the document is returned unchanged |
| Imports.TopLevelDropsImport | calliope/core/attrdict.py:143-149 | after top-level resolution, no `import` key is left |
| Imports.SharedLeafRaises | calliope/core/attrdict.py:139-141 | a leaf defined both in the first imported file and the importing one makes resolution fail |
| Imports.LocalWins | calliope/core/attrdict.py:140-142 | with one import, every non-dict leaf of the importing document is kept over the imported one, except a None over an imported sub-dict, which gives way to it |
| Imports.LayerKeepsLeaf | calliope/core/attrdict.py:136-142 | through any number of imports of well-formed documents, a local value that is neither a dict nor None stays in place |
| Imports.LocalLeafWins | calliope/core/attrdict.py:130-149 | with any number of imports, every local value outside `import` that is neither a dict nor None is in the resolved document |
| Imports.UnderKeepsImport | calliope/core/attrdict.py:144-147 | with a key path and a non-empty import list, the write-back by `set_key` keeps `<path>.import` |
| Imports.UnderEmptyDropsImport | calliope/core/attrdict.py:130-147 | with a key path and an empty import list, only the `import` key under the path is removed |
| Imports.UnderFrame | calliope/core/attrdict.py:146-147 | with a key path, everything outside that path is unchanged |
| AttrDicts.AttrDict.constructor | calliope/core/attrdict.py:73-75 | a new `AttrDict` is empty |
| AttrDicts.AttrDict.Put | calliope/core/attrdict.py:71 | attribute assignment stores one top-level entry |
| AttrDicts.AttrDict.SetKey | calliope/core/attrdict.py:198-230 | the object holds the `set_key` result, or is unchanged and reports that function's exception |
| AttrDicts.AttrDict.DelKey | calliope/core/attrdict.py:263-277 | the object holds the `del_key` result, or reports its exception |
| AttrDicts.AttrDict.OverrideLoop | calliope/core/attrdict.py:402-412 | the override loop leaves the object as the override pass specifies, or reports its exception |
| AttrDicts.AttrDict.WipeLoop | calliope/core/attrdict.py:413-414 | the wipe loop leaves the object as the wipe pass specifies, or reports its exception |
| AttrDicts.AttrDict.Union | calliope/core/attrdict.py:367-414 | `union` in place leaves the object equal to `Merge.Union` of its old contents, or reports its exception |
| AttrDicts.AttrDict.InitFromDict | calliope/core/attrdict.py:86-111 | the loop over the source entries leaves the object equal to the successive `set_key`s of the converted entries |
| AttrDicts.AttrDict.ResolveImports | calliope/core/attrdict.py:114-151 | the object holds `Imports.ResolveImports` of its old contents, or reports its exception |
| Scenarios.LoadOverrides | calliope/preprocess/model_run.py:440-470 | the recursive expansion of a scenario name; its properties are the `Scenarios` lemmas below |
| Scenarios.LoadOverridesFromScenario | calliope/preprocess/model_run.py:440-470 | the recursive expansion returns exactly the overrides and warnings of `LoadOverrides` |
| Scenarios.ExpandLoop | calliope/preprocess/model_run.py:457-468 | the loop over a scenario's members accumulates exactly what expanding them specifies |
| Scenarios.LoadFuel | calliope/preprocess/model_run.py:463-466 | a result that did not hit the recursion limit is the same with any larger limit |
| Scenarios.LoadFlat | calliope/preprocess/model_run.py:457-470 | every name returned is an override name, never a declared scenario |
| Scenarios.ExpandKeeps | calliope/preprocess/model_run.py:457-468 | the expansion keeps every name gathered before it and every member that is a plain override name |
| Scenarios.PlainMembersKept | calliope/preprocess/model_run.py:441-470 | conversely to `LoadFlat`, every plain override name among a declared scenario's members is in the result |
| Scenarios.PlainScenario | calliope/preprocess/model_run.py:448-468 | a declared scenario listing only override names yields exactly those names and no warning |
| Scenarios.UndeclaredSplits | calliope/preprocess/model_run.py:455-456 | a name that is not a scenario yields its comma-separated parts |
| Scenarios.CommaWarned | calliope/preprocess/model_run.py:449-452 | a declared scenario whose name has a comma is expanded as declared, with the comma warning first |
| Scenarios.DictMemberRaises | calliope/preprocess/model_run.py:459-462 | a dict as the first scenario member raises the "must be a list" error |
| Scenarios.ExpandAtDict | calliope/preprocess/model_run.py:457-468 | a dict at any position makes the expansion fail, with the "must be a list" error when the members before it expand without error |
| Scenarios.DictMemberAnywhereRaises | calliope/preprocess/model_run.py:440-468 | a dict anywhere among a declared scenario's members makes the lookup fail, with the "must be a list" error when the earlier members expand without error |
| Scenarios.MembersDeclared | calliope/preprocess/model_run.py:441-446 | a scenario's definition is its list, or its single value wrapped in a list |
| Scenarios.NestedScenario | calliope/preprocess/model_run.py:463-466 | a scenario naming another scenario includes that scenario's overrides |
| Scenarios.CyclicScenario | calliope/preprocess/model_run.py:463-466 | a scenario naming itself never terminates within any recursion limit |
| Overrides.CombineOverrides | calliope/preprocess/model_run.py:130-148 | `combine_overrides`; its properties are `Overrides.FirstUndefined` to `Overrides.CombineClash` |
| Overrides.Base | calliope/preprocess/model_run.py:165-203 | the defaults unioned with the configuration, then the override dict; a configuration without `model` raises KeyError; its parts are `Overrides.BaseParts` |
| Overrides.BaseParts | calliope/preprocess/model_run.py:170-203 | a successful first stage had a `model` section and is the two unions |
| Overrides.WithScenario | calliope/preprocess/model_run.py:205-238 | the scenario stage; its parts are `Overrides.ScenarioParts` |
| Overrides.ApplyOverrides | calliope/preprocess/model_run.py:151-265 | `apply_overrides`, stage by stage; its parts are `Overrides.ApplyStages` |
| Overrides.FirstUndefined | calliope/preprocess/model_run.py:133-139 | a name missing under `overrides` raises "Override `name` is not defined." |
| Overrides.CombineDefined | calliope/preprocess/model_run.py:130-148 | when `combine_overrides` succeeds, every named override could be read |
| Overrides.UndefinedNamed | calliope/preprocess/model_run.py:133-139 | an "is not defined" error always names one of the requested overrides |
| Overrides.CombineSingle | calliope/preprocess/model_run.py:130-148 | combining one import-free override yields that override |
| Overrides.CombineClash | calliope/preprocess/model_run.py:140-146 | two overrides sharing a leaf raise "Already specified but defined again in override `b`", naming the second, from a KeyError |
| Overrides.Again | calliope/preprocess/model_run.py:242-247 | the second pass keeps the scenario's override names, and does nothing without an override dict |
| Overrides.DefaultsDropped | calliope/preprocess/model_run.py:262-265 | the result has no placeholder tech, node or link |
| Overrides.DropDefaultsSpec | calliope/preprocess/model_run.py:262-265 | deleting the placeholders removes them and leaves every other path unchanged |
| Overrides.ScenarioInvalid | calliope/preprocess/model_run.py:205-210 | a scenario expanding to a name not under `overrides` raises the "must be a list" error |
| Overrides.AppliedNames | calliope/preprocess/model_run.py:205-238 | the overrides returned are exactly the scenario's expansion (none without a scenario), and all are defined |
| Overrides.AppliedOverridesSplit | calliope/preprocess/model_run.py:701 | the `;`-joined `applied_overrides` splits back into the names |
| Overrides.OverrideDictWins | calliope/preprocess/model_run.py:240-247 | every non-None leaf of the override dict is in the result, whatever the scenario set |
| Overrides.AgainReplaces | calliope/preprocess/model_run.py:242-243 | in the second pass, each `_REPLACE_` target of the override dict ends with its replacement value merged into what that union's override pass left there |
| Overrides.OverrideDictReplaces | calliope/preprocess/model_run.py:240-265 | a `_REPLACE_` target of the override dict off the placeholders ends in the result as `Overrides.AgainReplaces` says, whatever the scenario set |
| Overrides.DebugOverrideDictWins | calliope/preprocess/model_run.py:244-247 | every key of the override dict is commented "Overridden via override dictionary." |
| Overrides.ConfigOverDefaults | calliope/preprocess/model_run.py:182-183 | without a scenario, a non-None leaf of the model configuration is in the result, unless the override dict touches it |
| Overrides.ScenarioCommentKept | calliope/preprocess/model_run.py:235-236 | every key of the scenario's overrides is commented "Applied from override", unless the override dict comments it again |
| Overrides.ScenarioApplied | calliope/preprocess/model_run.py:232-234 | every non-None leaf of the scenario's overrides is in the result, unless the override dict touches it |
| Overrides.ReadOverride | calliope/preprocess/model_run.py:133-139 | reading one override gives its document with its imports resolved, or the error |
| Overrides.Combine | calliope/preprocess/model_run.py:130-148 | the loop gives `combine_overrides`'s document or its error |
| Overrides.CommentAll | calliope/preprocess/model_run.py:235-236 | the comment loop sets each key's comment in the debug document |
| Overrides.ApplyBase | calliope/preprocess/model_run.py:183-203 | the defaults, merged with the configuration and then the override dict |
| Overrides.ApplyScenario | calliope/preprocess/model_run.py:205-238 | the scenario's overrides are applied and commented as `WithScenario` specifies |
| Overrides.ApplyAgain | calliope/preprocess/model_run.py:242-247 | the second pass of the override dict, as `Again` specifies |
| Overrides.ApplyDrop | calliope/preprocess/model_run.py:263-265 | the three `del_key`s of the placeholders |
| Overrides.Apply | calliope/preprocess/model_run.py:151-267 | `apply_overrides` returns the configuration, the debug comments and the overrides of `ApplyOverrides`, or its error |
| Parents.Group | calliope/preprocess/model_run.py:289 | a tech group is found exactly when `tech_groups` holds it |
| Parents.ParentOf | calliope/preprocess/model_run.py:285-289 | `essentials.parent` exists exactly when there is an essentials dict with a `parent` |
| Parents.GetParents | calliope/preprocess/model_run.py:270-293 | a chain found is never empty |
| Parents.ParentsAreChain | calliope/preprocess/model_run.py:285-293 | `get_parents` returns exactly the chain of groups from the tech's parent up to a group whose parent is None, in both directions |
| Parents.ChainInGroups | calliope/preprocess/model_run.py:289 | every group on the chain is a defined tech group |
| Parents.MissingGroup | calliope/preprocess/model_run.py:285-289 | a parent that is not a tech group raises KeyError naming it |
| Parents.DivergesOnlyOnCycle | calliope/preprocess/model_run.py:288-292 | when `get_parents` does not stop, the chain of parents revisits a group |
| Parents.CycleDiverges | calliope/preprocess/model_run.py:288-292 | a tech whose parent lies on a cycle of groups never stops |
| Parents.GetParentsLoop | calliope/preprocess/model_run.py:270-293 | the `while True` loop returns exactly the chain of `GetParents` |
| Techs.PaletteColour | calliope/preprocess/model_run.py:30-41 | the palette gives a non-empty colour of the ten |
| Techs.WithPrefix | calliope/preprocess/model_run.py:404-405 | the essentials keys starting with `carrier_in` or `carrier_out`, exactly |
| Techs.ResolveTech | calliope/preprocess/model_run.py:304-437 | one pass of the loop over the techs; its properties are `Techs.SkipsAbsent`, `Techs.FinishGrows` and `Techs.FinishStores` |
| Techs.ProcessTechs | calliope/preprocess/model_run.py:296-437 | `process_techs`; its properties are `Techs.ProcessTechsKeys` and `Techs.ProcessTechsStores` |
| Techs.ProcessTechGroups | calliope/preprocess/model_run.py:473-478 | `process_tech_groups`; its property is `Techs.TechGroupMembers` |
| Techs.TechGroupMembers | calliope/preprocess/model_run.py:473-478 | one entry per tech group, listing exactly the techs whose inheritance contains the group, sorted |
| Techs.SkipsAbsent | calliope/preprocess/model_run.py:306-308 | a tech with `exists: false` changes nothing |
| Techs.FinishGrows | calliope/preprocess/model_run.py:310-437 | resolving a tech adds only that tech, keeps the others, and only appends errors |
| Techs.FinishStores | calliope/preprocess/model_run.py:310-435 | the stored tech has its chain, its root group's lists, the merged constraints, a colour, and every merged essential except the filled carriers |
| Techs.ProcessTechsKeys | calliope/preprocess/model_run.py:304-308 | the result holds exactly the techs that exist |
| Techs.ProcessTechsStores | calliope/preprocess/model_run.py:304-437 | every tech in the result is stored as its own chain and root group specify |
| Techs.ModelRunRaises | calliope/preprocess/model_run.py:709-711 | the techs are returned exactly when no error was collected; otherwise every message is raised together, in order |
| Techs.OwnPartWins | calliope/preprocess/model_run.py:341-345 | every non-None leaf of the tech's own essentials or constraints is in the merged result |
| Techs.GroupPartKept | calliope/preprocess/model_run.py:322-345 | a leaf of a group that no nearer group and not the tech itself touches is in the merged result |
| Techs.CarrierInRule | calliope/preprocess/model_run.py:359-377 | case by case: with `carrier_in` given, or a supply or supply_plus root, nothing changes; a demand, transmission or storage root with `carrier` gets `carrier_in := carrier` and the "Set from essentials.carrier" debug comment (or the "`carrier` or `carrier_in` must be defined" error when the comment cannot be set), and without `carrier` gets that error; any other root gets "`carrier_in` must be defined" |
| Techs.CarrierOutRule | calliope/preprocess/model_run.py:379-396 | case by case: with `carrier_out` given, or a demand root, nothing changes; a supply, supply_plus, transmission or storage root with `carrier` gets `carrier_out := carrier`, and without it "`carrier` or `carrier_out` must be defined"; any other root gets "`carrier_out` must be defined"; the debug document is never touched |
| Techs.PrimaryResolved | calliope/preprocess/model_run.py:397-425 | no error is added exactly when the primary carrier ends up one of the carriers; otherwise the one error names what is wrong |
| Techs.PrimaryChosen | calliope/preprocess/model_run.py:409-420 | with no primary carrier given, a single carrier is chosen, and several carriers are an error |
| Techs.ChecksFrame | calliope/preprocess/model_run.py:359-425 | the checks only fill the carrier keys and only append errors |
| Techs.ColourRule | calliope/preprocess/model_run.py:427-434 | a truthy colour is kept; otherwise the next palette colour, the counter mod 10, is set and the counter advances |
| Process.AddParent | calliope/preprocess/model_run.py:325-339 | one parent's essentials, constraints and debug comments are merged in as `GroupLayer` specifies |
| Process.InheritInto | calliope/preprocess/model_run.py:322-345 | the inheritance loop and the tech's own layer give `Inherit` |
| Process.CheckCarrierIn | calliope/preprocess/model_run.py:361-377 | the `carrier_in` check as `CarrierIn` specifies |
| Process.CheckCarrierOut | calliope/preprocess/model_run.py:379-396 | the `carrier_out` check as `CarrierOut` specifies |
| Process.CheckPrimary | calliope/preprocess/model_run.py:400-425 | one direction of the primary carrier check as `Primary` specifies |
| Process.CheckPrimaries | calliope/preprocess/model_run.py:399-425 | the loop over `_in` and `_out` |
| Process.CheckCarriers | calliope/preprocess/model_run.py:359-425 | all carrier checks as `Checks` specifies |
| Process.PickColour | calliope/preprocess/model_run.py:429-434 | the colour step as `Colour` specifies |
| Process.CompleteTech | calliope/preprocess/model_run.py:347-435 | the lists, checks and colour, and storing the tech |
| Process.FinishTech | calliope/preprocess/model_run.py:310-435 | one tech's resolution as `Finish` specifies |
| Process.ResolveTechStep | calliope/preprocess/model_run.py:304-435 | one loop iteration, skipping a tech that does not exist |
| Process.ProcessTechsRun | calliope/preprocess/model_run.py:296-437 | `process_techs` returns the techs, the debug comments and the errors of `ProcessTechs` |
| Process.PopulateTechs | calliope/preprocess/model_run.py:709-711 | the techs are stored and the debug comments set under `model_run.techs`, or all errors are raised together |
| Names.NamesOf | calliope/preprocess/model_run.py:538-553 | `_get_names`; its properties are `Names.NamesMembers` and `Names.FailsIff` |
| Names.GetNames | calliope/preprocess/model_run.py:538-553 | the loop returns exactly the references and variables of `NamesOf`, or its AttributeError |
| Names.NamesMembers | calliope/preprocess/model_run.py:545-552 | every string value with `=` contributes its pair and its variable, and nothing else is in either set |
| Names.FailsIff | calliope/preprocess/model_run.py:545-546 | AttributeError is raised exactly when some non-string value mentions `=` |
| Names.PairOfReference | calliope/preprocess/model_run.py:546 | `source=name:column` yields `(source, name)` |
| Names.PairOfBareReference | calliope/preprocess/model_run.py:546 | `source=name` yields `(source, name)` |
| Names.PairHalves | calliope/preprocess/model_run.py:546 | neither half of a pair has `=`, and the source is the text before the first `=` |
| Names.VarsAreSegments | calliope/preprocess/model_run.py:547-552 | every variable is one key segment, `cost_` and a segment, or `carrier_ratios` |
| Names.CostVariable | calliope/preprocess/model_run.py:547-548 | a key under `.costs.` feeds `cost_` followed by its last segment |
| Names.PlainVariable | calliope/preprocess/model_run.py:551-552 | a key under neither `.costs.` nor `.carrier_ratios.` feeds its last segment |

## Left out

- YAML parsing and writing (`from_yaml`, `from_yaml_string`, `to_yaml`) and file I/O. A loaded file is the `load` parameter, from a file name to a document or an error.
- `relative_path` and `base_path`: an import names its file directly.
- Attribute reads (`__getattr__`), `copy` and `as_dict`. `as_dict_nested` is the identity on `Value`s, which already are plain nested maps.
- Floating-point and NumPy values. `Value` has integers, strings, booleans, None, lists and dicts.
- The time series loading around `_get_names`, with its file reading and pandas work. Only `_get_names` is modelled.
- `util.get_systemwide_constraints` and `util.flatten_list` are the `systemwide` and `flatten` parameters of `Techs.Context`, and the built-in group names of `checks.DEFAULTS` are its `builtin` set. Properties of the merged constraints require `systemwide` to yield well-formed documents.
- `checks.check_overrides`, `checks.check_initial`, `nodes.process_nodes` and the rest of `generate_model_run`: not part of this model.
- Logging, the `FutureWarning` about the objective cost class and the warnings of `check_overrides`. The comma warning of scenario expansion is kept, as the `warnings` of `Scenarios.Expansion`.
- `timeseries_data_path` rewriting in `apply_overrides`: a path operation. Of the test `"timeseries_data_path" in config.model`, only the KeyError of a configuration without `model` is modelled (`Overrides.Base`). A `model` that is not a dict passes; in Python `in` would test a list's elements or a string's substrings, or raise TypeError.
- The override dict given as a YAML string or a plain dict: the model takes it as a document; an empty document stands for no override dict.
- Python dict and set iteration order. The order of the techs and the order in which the set of scenario overrides is combined are the `listing` parameters. `_get_names` builds sets, so its result does not depend on the order.
- AttrDicts.AttrDict.SetKey: on failure the object keeps its old contents, while Python may leave intermediate dicts created before the exception.
- AttrDicts.AttrDict.DelKey: on failure the contents after the exception are not described.
- Names.Mentions: `"=" in str(v)` on a list or dict is modelled as "some string inside, or some key, contains `=`". The `repr` text itself is not modelled.
- Python's `1 == True` and `hash(1) == hash(True)`: `Int(1)` and `Bool(true)` are different values.
- Scenarios.LoadOverrides: Python's recursion limit is the `fuel` bound, and running out of it is `RecursionLimit`.
- Parents.GetParents: the endless `while True` on a cycle of groups is bounded by `Fuel`, one more than the number of groups, and reported as `Diverges`. `Parents.DivergesOnlyOnCycle` and `Parents.CycleDiverges` show the bound loses nothing.
- Construct.Convert: dicts nested inside lists are converted at every depth; the source converts only dicts that are direct elements of a list.
- Overrides.Defined: an `overrides` section that is not a dict counts as defining nothing, so the model raises the "must be a list" error. Python differs. On a list, `in` tests the elements; on a string, it tests substrings. Names that pass that test then fail with TypeError at `config_model.overrides[override]` (calliope/preprocess/model_run.py:132), since neither takes a string index. On any other value, the membership test itself raises TypeError.
- Paths.SetPath: every caller uses the corrected `set_key` of the Findings row: `Merge.Union`, `Imports`, `Overrides`, `Techs` and `AttrDicts.AttrDict.SetKey`. The `set_key` as written is only `Paths.SetPathAsWritten`. So `{a: {b: 1, x: 5}}.union({a: {b: {c: 2}}}, allow_override=True)` gives `{a: {b: {c: 2}}}` in the source and `NonDictKey` in the model.
- Sharing between `AttrDict`s. `set_key` stores the `AttrDict` it is given by reference (calliope/core/attrdict.py:230). So `union` can leave an empty sub-dict, or a `_REPLACE_` value, of the override dict shared with the configuration. A later write into the configuration then also changes the override dict. The model copies values. Example: a configuration without `a`, the override dict `{a: {}}` and a scenario override `a.b: 1`. In the source, the second pass comments `a.b` as "Overridden via override dictionary."; in the model it comments `a`.
- Merge.UnionReplacement, Merge.WipePassTarget, Overrides.AgainReplaces, Overrides.OverrideDictReplaces: proved for `_REPLACE_` targets that are pairwise equal or diverging (`Merge.Separate`). A target nested inside another target is not covered.
- Imports.LayerKeepsLeaf, Imports.LocalLeafWins: these require every imported document to be well formed. `from_yaml` builds its result as an `AttrDict`, which guarantees that, but the `load` parameter does not promise it.

## Findings

| source | as written | input that shows it | evidently intended | confidence | as-written member | corrected member |
|---|---|---|---|---|---|---|
| calliope/core/attrdict.py:212-224 | `except KeyError` around the nested `set_key` also catches the "Cannot set nested key on non-dict key." KeyError raised one level down, then replaces the intermediate dict with an empty one and retries | `{"a": {"b": 1, "x": 5}}.set_key("a.b.c", 2)` gives `{"a": {"b": {"c": 2}}}`, losing `a.x` | a non-dict, non-None value at any depth makes `set_key` raise and leaves siblings alone | not executed | Paths.SetPathAsWrittenLosesSiblings | Paths.SetPathErrorIff |
