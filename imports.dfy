/** Import layering (`AttrDict._resolve_imports`, calliope/core/attrdict.py). Reading
    and parsing the imported YAML files (`from_yaml`, which resolves the imports of
    each imported file in turn, and `relative_path`) is the parameter `load`. */
module Imports {
  import opened Text
  import opened Values
  import opened Paths
  import opened Flatten
  import opened Merge

  /** The `resolve_imports` argument: a boolean, or the dotted path of a sub-dict. */
  datatype Mode = AtTop(enabled: bool) | Under(path: string)

  const ImportKey := "import"

  /** The import loop: each imported document becomes the base and the document
      built so far is unioned into it with the default flags, so it takes precedence. */
  function Layer(local: Doc, imports: seq<Value>, load: Value -> Result<Doc>): Result<Doc>
    decreases |imports|
  {
    if imports == [] then Ok(local)
    else match load(imports[0])
      case Err(e) => Err(e)
      case Ok(imported) =>
        match Union(imported, local, false, false)
        case Err(e) => Err(e)
        case Ok(acc) => Layer(acc, imports[1..], load)
  }

  /** The dict at the dotted path `p`, replaced by `v` without merging. */
  function ReplaceAt(d: Doc, p: Path, v: Value): (r: Doc)
    requires Find(d, p).Some?
    ensures r.Keys == d.Keys
    ensures Find(r, p) == Some(v)
    decreases |p|
  {
    if |p| == 1 then d[p[0] := v]
    else d[p[0] := Dict(ReplaceAt(d[p[0]].entries, p[1..], v))]
  }

  /** The import list of `local`, layered and with its `import` key deleted. */
  function ResolveLocal(local: Doc, imports: Value, load: Value -> Result<Doc>): (r: Result<Doc>)
    ensures !imports.List? ==> r == Err(ImportNotList)
  {
    if !imports.List? then Err(ImportNotList)
    else match Layer(local, imports.items, load)
      case Err(e) => Err(e)
      case Ok(acc) => DelKey(acc, ImportKey)
  }

  /** `_resolve_imports(loaded, resolve_imports)`. In string mode the resolved sub-dict
      is written back with `set_key`, which merges it into the sub-dict still there,
      so the `import` key survives there unless the list was empty: then the sub-dict
      itself was edited in place and writing it back onto itself changes nothing. */
  function ResolveImports(loaded: Doc, mode: Mode, load: Value -> Result<Doc>): Result<Doc> {
    match mode
    case AtTop(enabled) =>
      if enabled && ImportKey in loaded then ResolveLocal(loaded, loaded[ImportKey], load)
      else Ok(loaded)
    case Under(path) =>
      if path + "." + ImportKey !in KeysNested(loaded) then Ok(loaded)
      else match GetKey(loaded, path)
        case Err(e) => Err(e)
        case Ok(sub) =>
          if !sub.Dict? then Err(NoAttribute)
          else match GetKey(sub.entries, ImportKey)
            case Err(e) => Err(e)
            case Ok(imports) =>
              match ResolveLocal(sub.entries, imports, load)
              case Err(e) => Err(e)
              case Ok(resolved) =>
                if imports.items == [] then
                  assert Find(loaded, Segments(path)).Some?;
                  Ok(ReplaceAt(loaded, Segments(path), Dict(resolved)))
                else SetKey(loaded, path, Dict(resolved))
  }

  /** `"import"` has no dot, so it is a path of one segment. */
  lemma ImportSegments()
    ensures Segments(ImportKey) == [ImportKey]
  {
    assert '.' !in ImportKey;
  }

  // ----- top-level mode -----

  /** An `import` value that is not a list raises ValueError before anything is loaded. */
  lemma NonListImportRaises(loaded: Doc, load: Value -> Result<Doc>)
    requires ImportKey in loaded && !loaded[ImportKey].List?
    ensures ResolveImports(loaded, AtTop(true), load) == Err(ImportNotList)
  {
  }

  /** Nothing is imported when importing is switched off or there is no `import` key. */
  lemma NoImportUnchanged(loaded: Doc, enabled: bool, load: Value -> Result<Doc>)
    requires !enabled || ImportKey !in loaded
    ensures ResolveImports(loaded, AtTop(enabled), load) == Ok(loaded)
  {
  }

  /** The resolved document has no `import` key. */
  lemma TopLevelDropsImport(loaded: Doc, load: Value -> Result<Doc>)
    requires ResolveImports(loaded, AtTop(true), load).Ok?
    ensures ImportKey !in ResolveImports(loaded, AtTop(true), load).value
  {
    if ImportKey in loaded {
      var acc := Layer(loaded, loaded[ImportKey].items, load).value;
      ImportSegments();
      DelPathRemoves(acc, [ImportKey]);
    }
  }

  /** A leaf path shared by the first imported document and the local one raises:
      the union uses `allow_override=False`. */
  lemma SharedLeafRaises(loaded: Doc, load: Value -> Result<Doc>, imported: Doc, k: string)
    requires ImportKey in loaded && loaded[ImportKey].List? && loaded[ImportKey].items != []
    requires load(loaded[ImportKey].items[0]) == Ok(imported)
    requires k in KeysNested(imported) && k in KeysNested(loaded)
    ensures ResolveImports(loaded, AtTop(true), load).Err?
  {
    UnionSharedLeafFails(imported, loaded, false, k);
  }

  /** With a single import, every local leaf outside `import` that holds neither a dict
      nor `None` ends with its local value; a local `None` gives way to an imported dict. */
  lemma LocalWins(loaded: Doc, load: Value -> Result<Doc>, imported: Doc, p: Path, w: Value)
    requires WellFormedDoc(loaded)
    requires ImportKey in loaded && loaded[ImportKey].List? && |loaded[ImportKey].items| == 1
    requires load(loaded[ImportKey].items[0]) == Ok(imported)
    requires ResolveImports(loaded, AtTop(true), load).Ok?
    requires p in LeafPaths(loaded) && Find(loaded, p) == Some(w) && !w.Dict? && p[0] != ImportKey
    ensures Find(ResolveImports(loaded, AtTop(true), load).value, p)
         == if w.Null? && Find(imported, p).Some? && Find(imported, p).value.Dict?
            then Find(imported, p) else Some(w)
  {
    var acc := Union(imported, loaded, false, false).value;
    assert Layer(loaded, loaded[ImportKey].items, load) == Layer(acc, [], load);
    UnionLeaf(imported, loaded, false, p, w);
    ImportSegments();
    DelPathFrame(acc, [ImportKey], p);
  }

  /** Every import that loads gives a well-formed document. */
  ghost predicate LoadsWellFormed(imports: seq<Value>, load: Value -> Result<Doc>) {
    forall i :: 0 <= i < |imports| && load(imports[i]).Ok? ==> WellFormedDoc(load(imports[i]).value)
  }

  /** One step of the import loop keeps a local value that is neither a dict nor `None`. */
  lemma LayerStep(local: Doc, imports: seq<Value>, load: Value -> Result<Doc>, p: Path, w: Value) returns (acc: Doc)
    requires WellFormedDoc(local) && LoadsWellFormed(imports, load)
    requires imports != [] && Layer(local, imports, load).Ok?
    requires Find(local, p) == Some(w) && !w.Dict? && !w.Null?
    ensures WellFormedDoc(acc) && LoadsWellFormed(imports[1..], load) && Find(acc, p) == Some(w)
    ensures Layer(local, imports, load) == Layer(acc, imports[1..], load)
  {
    acc := Union(load(imports[0]).value, local, false, false).value;
    KeepsLocal(load(imports[0]).value, local, p, w);
    LoadsRest(imports, load);
  }

  /** The first import loads a well-formed document, and so do the rest. */
  lemma LoadsRest(imports: seq<Value>, load: Value -> Result<Doc>)
    requires imports != [] && LoadsWellFormed(imports, load)
    ensures load(imports[0]).Ok? ==> WellFormedDoc(load(imports[0]).value)
    ensures LoadsWellFormed(imports[1..], load)
  {
    var rest := imports[1..];
    assert forall i :: 0 <= i < |rest| ==> rest[i] == imports[i + 1];
  }

  /** A union into an import keeps a local value that is neither a dict nor `None`. */
  lemma KeepsLocal(imported: Doc, local: Doc, p: Path, w: Value)
    requires WellFormedDoc(imported) && WellFormedDoc(local) && Union(imported, local, false, false).Ok?
    requires Find(local, p) == Some(w) && !w.Dict? && !w.Null?
    ensures WellFormedDoc(Union(imported, local, false, false).value)
    ensures Find(Union(imported, local, false, false).value, p) == Some(w)
  {
    LeafPathsMember(local, p);
    UnionLeaf(imported, local, false, p, w);
    UnionWellFormed(imported, local, false, false);
  }

  /** Through any number of imports, a local value that is neither a dict nor `None`
      stays where it is: each union lays the document built so far over the next import. */
  lemma {:induction false} LayerKeepsLeaf(local: Doc, imports: seq<Value>, load: Value -> Result<Doc>, p: Path, w: Value)
    requires WellFormedDoc(local) && LoadsWellFormed(imports, load)
    requires Layer(local, imports, load).Ok?
    requires Find(local, p) == Some(w) && !w.Dict? && !w.Null?
    ensures Find(Layer(local, imports, load).value, p) == Some(w)
    decreases |imports|
  {
    if imports != [] {
      var acc := LayerStep(local, imports, load, p, w);
      LayerKeepsLeaf(acc, imports[1..], load, p, w);
    }
  }

  /** With any number of imports of well-formed documents, every local value outside
      `import` that is neither a dict nor `None` ends with its local value. */
  lemma LocalLeafWins(loaded: Doc, load: Value -> Result<Doc>, p: Path, w: Value)
    requires WellFormedDoc(loaded) && ImportKey in loaded && loaded[ImportKey].List?
    requires LoadsWellFormed(loaded[ImportKey].items, load)
    requires ResolveImports(loaded, AtTop(true), load).Ok?
    requires Find(loaded, p) == Some(w) && !w.Dict? && !w.Null? && p[0] != ImportKey
    ensures Find(ResolveImports(loaded, AtTop(true), load).value, p) == Some(w)
  {
    LayerKeepsLeaf(loaded, loaded[ImportKey].items, load, p, w);
    var acc := Layer(loaded, loaded[ImportKey].items, load).value;
    ImportSegments();
    DelPathFrame(acc, [ImportKey], p);
  }

  // ----- string mode -----

  /** The dotted key `<path>.import` splits into the segments of `path` and `import`. */
  lemma ImportPath(path: string)
    ensures Segments(path + "." + ImportKey) == Segments(path) + [ImportKey]
  {
    assert path + "." + ImportKey == path + ['.'] + ImportKey;
    SplitAppend(path, '.', ImportKey);
  }

  /** The facts the string-mode branch establishes before it writes back. */
  lemma UnderParts(loaded: Doc, path: string) returns (sub: Doc, imports: Value)
    requires path + "." + ImportKey in KeysNested(loaded)
    requires GetKey(loaded, path).Ok? && GetKey(loaded, path).value.Dict?
    requires GetKey(GetKey(loaded, path).value.entries, ImportKey).Ok?
    ensures sub == GetKey(loaded, path).value.entries && Find(loaded, Segments(path)) == Some(Dict(sub))
    ensures ImportKey in sub && imports == sub[ImportKey]
    ensures Find(loaded, Segments(path) + [ImportKey]) == Some(imports)
  {
    sub := GetKey(loaded, path).value.entries;
    ImportSegments();
    imports := sub[ImportKey];
    FindConcat(loaded, Segments(path), [ImportKey]);
  }

  /** What a successful string-mode resolution computed on the way to writing back. */
  lemma UnderWrite(loaded: Doc, path: string, load: Value -> Result<Doc>) returns (sub: Doc, imports: Value, resolved: Doc)
    requires path + "." + ImportKey in KeysNested(loaded)
    requires ResolveImports(loaded, Under(path), load).Ok?
    ensures GetKey(loaded, path) == Ok(Dict(sub)) && Find(loaded, Segments(path)) == Some(Dict(sub))
    ensures ImportKey in sub && imports == sub[ImportKey] && GetKey(sub, ImportKey) == Ok(imports) && imports.List?
    ensures Find(loaded, Segments(path) + [ImportKey]) == Some(imports)
    ensures ResolveLocal(sub, imports, load) == Ok(resolved)
    ensures imports.items != [] ==> ResolveImports(loaded, Under(path), load) == SetKey(loaded, path, Dict(resolved))
  {
    sub, imports := UnderParts(loaded, path);
    resolved := ResolveLocal(sub, imports, load).value;
  }

  /** In string mode with a non-empty list, the write-back merges the resolved sub-dict
      into the one still in place, so `<path>.import` keeps its list. */
  lemma UnderKeepsImport(loaded: Doc, path: string, load: Value -> Result<Doc>)
    requires path + "." + ImportKey in KeysNested(loaded)
    requires ResolveImports(loaded, Under(path), load).Ok?
    requires GetKey(loaded, path).Ok? && GetKey(loaded, path).value.Dict?
    requires GetKey(GetKey(loaded, path).value.entries, ImportKey) != Ok(List([]))
    ensures var p := Segments(path) + [ImportKey];
      Find(ResolveImports(loaded, Under(path), load).value, p) == Find(loaded, p)
  {
    var sub, imports, resolved := UnderWrite(loaded, path, load);
    var acc := Layer(sub, imports.items, load).value;
    ImportSegments();
    DelPathRemoves(acc, [ImportKey]);
    assert Untouched(resolved, [ImportKey]);
    var P := Segments(path);
    SetPathGet(loaded, P, Dict(resolved));
    var r := SetKey(loaded, path, Dict(resolved)).value;
    if resolved != map[] {
      OverlayKeeps(sub, resolved, [ImportKey], imports);
    }
    FindConcat(r, P, [ImportKey]);
    FindConcat(loaded, P, [ImportKey]);
  }

  /** In string mode with an empty list, the sub-dict loses its `import` key and
      stays in place, even when that leaves it empty. */
  lemma UnderEmptyDropsImport(loaded: Doc, path: string, load: Value -> Result<Doc>)
    requires path + "." + ImportKey in KeysNested(loaded)
    requires GetKey(loaded, path).Ok? && GetKey(loaded, path).value.Dict?
    requires GetKey(GetKey(loaded, path).value.entries, ImportKey) == Ok(List([]))
    ensures ResolveImports(loaded, Under(path), load)
         == Ok(ReplaceAt(loaded, Segments(path), Dict(GetKey(loaded, path).value.entries - {ImportKey})))
  {
    var sub, imports := UnderParts(loaded, path);
    ImportSegments();
    assert ResolveLocal(sub, imports, load) == Ok(sub - {ImportKey});
  }

  /** In string mode with a non-empty list, only the sub-dict at `path` is written. */
  lemma UnderFrame(loaded: Doc, path: string, load: Value -> Result<Doc>, q: Path)
    requires path + "." + ImportKey in KeysNested(loaded)
    requires ResolveImports(loaded, Under(path), load).Ok?
    requires GetKey(loaded, path).Ok? && GetKey(loaded, path).value.Dict?
    requires GetKey(GetKey(loaded, path).value.entries, ImportKey) != Ok(List([]))
    requires Diverge(Segments(path), q)
    ensures Find(ResolveImports(loaded, Under(path), load).value, q) == Find(loaded, q)
  {
    var sub, imports, resolved := UnderWrite(loaded, path, load);
    SetPathFrame(loaded, Segments(path), q, Dict(resolved));
  }
}
