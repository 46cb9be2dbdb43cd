/** The `AttrDict` object (calliope/core/attrdict.py): a dict whose mutating methods
    rewrite it in place. Each method is proved against the function of the same name
    over documents, whose properties are proved in `Paths`, `Merge`, `Construct` and
    `Imports`. After an exception the partly updated object is not described: the
    contracts say what happens when the source returns normally, and which exception
    it raises otherwise. */
module AttrDicts {
  import Text
  import opened Values
  import Paths
  import Flatten
  import Merge
  import Construct
  import Imports

  class AttrDict {
    var entries: Doc

    /** `AttrDict()`. */
    constructor ()
      ensures entries == map[]
    {
      entries := map[];
    }

    /** An `AttrDict` holding `d`. */
    constructor Of(d: Doc)
      ensures entries == d
    {
      entries := d;
    }

    /** `self.set_key(key, value)`. */
    method SetKey(key: string, v: Value) returns (err: Option<Error>)
      modifies this
      ensures Paths.SetKey(old(entries), key, v).Ok? ==> err == None && entries == Paths.SetKey(old(entries), key, v).value
      ensures Paths.SetKey(old(entries), key, v).Err? ==> err == Some(Paths.SetKey(old(entries), key, v).error) && entries == old(entries)
    {
      match Paths.SetKey(entries, key, v)
      case Ok(d) =>
        entries := d;
        err := None;
      case Err(e) =>
        err := Some(e);
    }

    /** `self[key] = v`, also spelt `self.key = v`. */
    method Put(key: string, v: Value)
      modifies this
      ensures entries == old(entries)[key := v]
    {
      entries := entries[key := v];
    }

    /** `self.del_key(key)`. */
    method DelKey(key: string) returns (err: Option<Error>)
      modifies this
      ensures Paths.DelKey(old(entries), key).Ok? ==> err == None && entries == Paths.DelKey(old(entries), key).value
      ensures Paths.DelKey(old(entries), key).Err? ==> err == Some(Paths.DelKey(old(entries), key).error)
    {
      match Paths.DelKey(entries, key)
      case Ok(d) =>
        entries := d;
        err := None;
      case Err(e) =>
        err := Some(e);
    }

    /** The first loop of `union`: each key of `keys` that is not defined twice is
        copied from `other`, except that `None` does not replace a dict. */
    method OverrideLoop(selfKeys: seq<string>, other: Doc, keys: seq<string>, allowOverride: bool) returns (err: Option<Error>)
      modifies this
      ensures var r := Merge.OverridePass(old(entries), selfKeys, other, keys, allowOverride);
        (r.Ok? ==> err == None && entries == r.value) && (r.Err? ==> err == Some(r.error))
    {
      ghost var start := entries;
      var i := 0;
      while i < |keys|
        invariant 0 <= i <= |keys|
        invariant Merge.OverridePass(start, selfKeys, other, keys, allowOverride)
               == Merge.OverridePass(entries, selfKeys, other, keys[i..], allowOverride)
      {
        var k := keys[i];
        assert keys[i..][1..] == keys[i + 1..];
        if !allowOverride && k in selfKeys {
          return Some(KeyDefinedTwice(k));
        }
        match Paths.GetKey(other, k)
        case Err(e) =>
          return Some(e);
        case Ok(ov) =>
          if !(ov.Null? && Paths.GetKeyOr(entries, k, Null).Dict?) {
            var e := SetKey(k, ov);
            if e.Some? {
              return e;
            }
          }
        i := i + 1;
      }
      return None;
    }

    /** The second loop of `union`: each target `k` is set to `other`'s `k._REPLACE_`. */
    method WipeLoop(other: Doc, keys: seq<string>) returns (err: Option<Error>)
      modifies this
      ensures var r := Merge.WipePass(old(entries), other, keys);
        (r.Ok? ==> err == None && entries == r.value) && (r.Err? ==> err == Some(r.error))
    {
      ghost var start := entries;
      var j := 0;
      while j < |keys|
        invariant 0 <= j <= |keys|
        invariant Merge.WipePass(start, other, keys) == Merge.WipePass(entries, other, keys[j..])
      {
        var k := keys[j];
        assert keys[j..][0] == k && keys[j..][1..] == keys[j + 1..];
        var v := Paths.GetKey(other, k + "." + Merge.WipeMarker);
        if v.Err? {
          return Some(v.error);
        }
        ghost var before := entries;
        var e := SetKey(k, v.value);
        if e.Some? {
          return e;
        }
        assert Merge.WipePass(before, other, keys[j..]) == Merge.WipePass(entries, other, keys[j + 1..]);
        j := j + 1;
      }
      return None;
    }

    /** `self.union(other, allow_override, allow_replacement)`. Both key lists are
        computed before `self` changes. */
    method Union(other: Doc, allowOverride: bool, allowReplacement: bool) returns (err: Option<Error>)
      modifies this
      ensures Merge.Union(old(entries), other, allowOverride, allowReplacement).Ok? ==>
        err == None && entries == Merge.Union(old(entries), other, allowOverride, allowReplacement).value
      ensures Merge.Union(old(entries), other, allowOverride, allowReplacement).Err? ==>
        err == Some(Merge.Union(old(entries), other, allowOverride, allowReplacement).error)
    {
      var selfKeys := Flatten.KeysNested(entries);
      var otherKeys := Flatten.KeysNested(other);
      err := OverrideLoop(selfKeys, other, Merge.OverrideKeys(otherKeys, allowReplacement), allowOverride);
      if err.None? {
        err := WipeLoop(other, Merge.WipeKeys(otherKeys, allowReplacement));
      }
    }

    /** `self.init_from_dict(d)` for the items `ps` of `d`, in order. */
    method InitFromDict(ps: seq<(Construct.RawKey, Construct.Raw)>) returns (err: Option<Error>)
      modifies this
      ensures var rs := seq(|ps|, i requires 0 <= i < |ps| => Construct.Convert(ps[i].1));
        var r := Construct.InitEntries(old(entries), Construct.Keys(ps), rs);
        (r.Ok? ==> err == None && entries == r.value) && (r.Err? ==> err == Some(r.error))
    {
      ghost var rs := seq(|ps|, i requires 0 <= i < |ps| => Construct.Convert(ps[i].1));
      ghost var ks := Construct.Keys(ps);
      ghost var start := entries;
      var i := 0;
      while i < |ps|
        invariant 0 <= i <= |ps|
        invariant Construct.InitEntries(start, ks, rs) == Construct.InitEntries(entries, ks[i..], rs[i..])
      {
        assert ks[i..][1..] == ks[i + 1..] && rs[i..][1..] == rs[i + 1..];
        var k := Construct.KeyString(ps[i].0);
        match Construct.Convert(ps[i].1)
        case Err(e) =>
          return Some(e);
        case Ok(v) =>
          var e := SetKey(k, v);
          if e.Some? {
            return e;
          }
        i := i + 1;
      }
      return None;
    }
 
    /** The import loop of `_resolve_imports` on the document `local` (the object
        itself, or a copy of the sub-dict in string mode): each import becomes the
        new base and the document so far is unioned into it, then `import` is deleted.
        `res` is the object `loaded_dict` names at the end. */
    static method ResolveLocal(local: AttrDict, imports: Value, load: Value -> Result<Doc>)
      returns (res: AttrDict, err: Option<Error>)
      modifies local
      ensures var r := Imports.ResolveLocal(old(local.entries), imports, load);
        (r.Ok? ==> err == None && res.entries == r.value) && (r.Err? ==> err == Some(r.error))
    {
      res := local;
      if !imports.List? {
        return res, Some(ImportNotList);
      }
      var items := imports.items;
      ghost var start := local.entries;
      var i := 0;
      while i < |items|
        invariant 0 <= i <= |items|
        invariant res == local || fresh(res)
        invariant Imports.Layer(start, items, load) == Imports.Layer(res.entries, items[i..], load)
      {
        assert items[i..][1..] == items[i + 1..];
        var loadedDoc := load(items[i]);
        if loadedDoc.Err? {
          return res, Some(loadedDoc.error);
        }
        var imported := new AttrDict.Of(loadedDoc.value);
        var e := imported.Union(res.entries, false, false);
        if e.Some? {
          return res, e;
        }
        res := imported;
        i := i + 1;
      }
      err := res.DelKey(Imports.ImportKey);
    }

    /** `_resolve_imports(self, resolve_imports)`, with `self` rebound to the result. */
    method ResolveImports(mode: Imports.Mode, load: Value -> Result<Doc>) returns (err: Option<Error>)
      modifies this
      ensures Imports.ResolveImports(old(entries), mode, load).Ok? ==>
        err == None && entries == Imports.ResolveImports(old(entries), mode, load).value
      ensures Imports.ResolveImports(old(entries), mode, load).Err? ==>
        err == Some(Imports.ResolveImports(old(entries), mode, load).error)
    {
      if mode.AtTop? {
        if !(mode.enabled && Imports.ImportKey in entries) {
          return None;
        }
        var res, e := ResolveLocal(this, entries[Imports.ImportKey], load);
        if e.Some? {
          return e;
        }
        entries := res.entries;
        return None;
      }
      var path := mode.path;
      if path + "." + Imports.ImportKey !in Flatten.KeysNested(entries) {
        return None;
      }
      var found := Paths.GetKey(entries, path);
      if found.Err? {
        return Some(found.error);
      }
      var sub := found.value;
      if !sub.Dict? {
        return Some(NoAttribute);
      }
      var listed := Paths.GetKey(sub.entries, Imports.ImportKey);
      if listed.Err? {
        return Some(listed.error);
      }
      var imports := listed.value;
      var local := new AttrDict.Of(sub.entries);
      var res, e := ResolveLocal(local, imports, load);
      if e.Some? {
        return e;
      }
      if imports.items == [] {
        entries := Imports.ReplaceAt(entries, Text.Segments(path), Dict(res.entries));
        return None;
      }
      err := SetKey(path, Dict(res.entries));
    }
  }
}
