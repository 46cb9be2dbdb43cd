/** `AttrDict.union` (calliope/core/attrdict.py): merge `other` into `self` leaf by
    leaf. The leaf keys of `self` are taken once, before any change; each leaf key of
    `other` is then set with `set_key`, unless it is already a leaf of `self` and
    overriding is not allowed, or its value is `None` and `self` holds a dict there.
    With `allow_replacement`, keys containing `_REPLACE_` are held back and, after the
    pass, the value under `<p>._REPLACE_` is set at `<p>` (again with `set_key`).
    The `allow_subdict_override_with_none` flag of the source is never read, so it
    has no counterpart here. */
module Merge {
  import opened Text
  import opened Values
  import opened Paths
  import opened Flatten

  const WipeMarker := "_REPLACE_"

  /** `[k for k in other_keys if WIPE_KEY not in k]`. */
  function WithoutMarker(ks: seq<string>): (r: seq<string>)
    ensures forall i :: 0 <= i < |r| ==> !Contains(r[i], WipeMarker)
    ensures forall k :: k in r <==> k in ks && !Contains(k, WipeMarker)
  {
    if ks == [] then []
    else (if Contains(ks[0], WipeMarker) then [] else [ks[0]]) + WithoutMarker(ks[1..])
  }

  /** `[k.split("." + WIPE_KEY)[0] for k in other_keys if WIPE_KEY in k]`. */
  function WipeTargets(ks: seq<string>): (r: seq<string>)
    ensures (forall i :: 0 <= i < |ks| ==> !Contains(ks[i], WipeMarker)) ==> r == []
  {
    if ks == [] then []
    else
      var head := if Contains(ks[0], WipeMarker) then [BeforeFirst(ks[0], "." + WipeMarker)] else [];
      head + WipeTargets(ks[1..])
  }

  function OverrideKeys(otherKeys: seq<string>, allowReplacement: bool): seq<string> {
    if allowReplacement then WithoutMarker(otherKeys) else otherKeys
  }

  function WipeKeys(otherKeys: seq<string>, allowReplacement: bool): seq<string> {
    if allowReplacement then WipeTargets(otherKeys) else []
  }

  /** One iteration of the first loop of `union`, for the key `k` of `other`. */
  function UnionStep(d: Doc, selfKeys: seq<string>, other: Doc, k: string, allowOverride: bool): Result<Doc> {
    if !allowOverride && k in selfKeys then Err(KeyDefinedTwice(k))
    else match GetKey(other, k)
      case Err(e) => Err(e)
      case Ok(ov) => if ov.Null? && GetKeyOr(d, k, Null).Dict? then Ok(d) else SetKey(d, k, ov)
  }

  /** The first loop of `union`, over `keys`. */
  function OverridePass(d: Doc, selfKeys: seq<string>, other: Doc, keys: seq<string>, allowOverride: bool): Result<Doc>
    decreases |keys|
  {
    if keys == [] then Ok(d)
    else match UnionStep(d, selfKeys, other, keys[0], allowOverride)
      case Err(e) => Err(e)
      case Ok(d1) => OverridePass(d1, selfKeys, other, keys[1..], allowOverride)
  }

  /** The second loop of `union`: `set_key(k, other.get_key(k + "._REPLACE_"))`. */
  function WipePass(d: Doc, other: Doc, keys: seq<string>): Result<Doc>
    decreases |keys|
  {
    if keys == [] then Ok(d)
    else match GetKey(other, keys[0] + "." + WipeMarker)
      case Err(e) => Err(e)
      case Ok(v) =>
        match SetKey(d, keys[0], v)
        case Err(e) => Err(e)
        case Ok(d1) => WipePass(d1, other, keys[1..])
  }

  /** `self.union(other, allow_override, allow_replacement)`: the new `self`. */
  function Union(d: Doc, other: Doc, allowOverride: bool, allowReplacement: bool): Result<Doc> {
    var selfKeys := KeysNested(d);
    var otherKeys := KeysNested(other);
    match OverridePass(d, selfKeys, other, OverrideKeys(otherKeys, allowReplacement), allowOverride)
    case Err(e) => Err(e)
    case Ok(d1) => WipePass(d1, other, WipeKeys(otherKeys, allowReplacement))
  }

  // ----- duplicate keys -----

  lemma {:induction false} OverridePassDefinedTwice(d: Doc, selfKeys: seq<string>, other: Doc, keys: seq<string>, allowOverride: bool, k: string)
    requires OverridePass(d, selfKeys, other, keys, allowOverride) == Err(KeyDefinedTwice(k))
    ensures !allowOverride && k in selfKeys && k in keys
    decreases |keys|
  {
    match UnionStep(d, selfKeys, other, keys[0], allowOverride)
    case Err(e) =>
    case Ok(d1) => OverridePassDefinedTwice(d1, selfKeys, other, keys[1..], allowOverride, k);
  }

  lemma {:induction false} WipePassNotDefinedTwice(d: Doc, other: Doc, keys: seq<string>)
    ensures WipePass(d, other, keys).Err? ==> !WipePass(d, other, keys).error.KeyDefinedTwice?
    decreases |keys|
  {
    if keys != [] {
      match GetKey(other, keys[0] + "." + WipeMarker)
      case Err(_) =>
      case Ok(v) =>
        match SetKey(d, keys[0], v)
        case Err(_) =>
        case Ok(d1) => WipePassNotDefinedTwice(d1, other, keys[1..]);
    }
  }

  /** `union` reports "Key defined twice: k" only without `allow_override`, and only
      for a key that is a leaf key of both documents. */
  lemma UnionDefinedTwice(d: Doc, other: Doc, allowOverride: bool, allowReplacement: bool, k: string)
    requires Union(d, other, allowOverride, allowReplacement) == Err(KeyDefinedTwice(k))
    ensures !allowOverride && k in KeysNested(d) && k in KeysNested(other)
  {
    var otherKeys := KeysNested(other);
    var keys := OverrideKeys(otherKeys, allowReplacement);
    match OverridePass(d, KeysNested(d), other, keys, allowOverride)
    case Err(_) => OverridePassDefinedTwice(d, KeysNested(d), other, keys, allowOverride, k);
    case Ok(d1) => WipePassNotDefinedTwice(d1, other, WipeKeys(otherKeys, allowReplacement));
  }

  lemma {:induction false} OverridePassFailsOnShared(d: Doc, selfKeys: seq<string>, other: Doc, keys: seq<string>, k: string)
    requires k in selfKeys && k in keys
    ensures OverridePass(d, selfKeys, other, keys, false).Err?
    decreases |keys|
  {
    if keys[0] != k {
      match UnionStep(d, selfKeys, other, keys[0], false)
      case Err(_) =>
      case Ok(d1) => OverridePassFailsOnShared(d1, selfKeys, other, keys[1..], k);
    }
  }

  /** Without `allow_override`, a leaf key of `other` that is also a leaf key of `self`
      makes `union` raise (unless it is held back as a `_REPLACE_` key). */
  lemma UnionSharedLeafFails(d: Doc, other: Doc, allowReplacement: bool, k: string)
    requires k in KeysNested(d) && k in KeysNested(other)
    requires allowReplacement ==> !Contains(k, WipeMarker)
    ensures Union(d, other, false, allowReplacement).Err?
  {
    OverridePassFailsOnShared(d, KeysNested(d), other, OverrideKeys(KeysNested(other), allowReplacement), k);
  }

  // ----- precedence -----

  ghost predicate PairwiseDiverge(keys: seq<string>) {
    forall i, l :: 0 <= i < l < |keys| ==> Diverge(Segments(keys[i]), Segments(keys[l]))
  }

  /** A pass over keys that all diverge from `q` leaves `q` alone. */
  lemma {:induction false} OverridePassFrame(d: Doc, selfKeys: seq<string>, other: Doc, keys: seq<string>, allowOverride: bool, q: Path)
    requires OverridePass(d, selfKeys, other, keys, allowOverride).Ok?
    requires forall i :: 0 <= i < |keys| ==> Diverge(Segments(keys[i]), q)
    ensures Find(OverridePass(d, selfKeys, other, keys, allowOverride).value, q) == Find(d, q)
    decreases |keys|
  {
    if keys != [] {
      var k := keys[0];
      var d1 := UnionStep(d, selfKeys, other, k, allowOverride).value;
      var ov := GetKey(other, k).value;
      if !(ov.Null? && GetKeyOr(d, k, Null).Dict?) {
        SetPathFrame(d, Segments(k), q, ov);
      }
      OverridePassFrame(d1, selfKeys, other, keys[1..], allowOverride, q);
    }
  }

  /** The pass leaves each key's non-dict value of `other` at its path, except that a
      `None` does not replace a dict already there. */
  lemma {:induction false} OverridePassLeaf(d: Doc, selfKeys: seq<string>, other: Doc, keys: seq<string>, allowOverride: bool, j: nat, w: Value)
    requires OverridePass(d, selfKeys, other, keys, allowOverride).Ok?
    requires j < |keys| && PairwiseDiverge(keys)
    requires GetKey(other, keys[j]) == Ok(w) && !w.Dict?
    ensures var p := Segments(keys[j]);
      Find(OverridePass(d, selfKeys, other, keys, allowOverride).value, p)
      == if w.Null? && Find(d, p).Some? && Find(d, p).value.Dict? then Find(d, p) else Some(w)
    decreases |keys|
  {
    var k := keys[0];
    var p0 := Segments(k);
    var p := Segments(keys[j]);
    var d1 := UnionStep(d, selfKeys, other, k, allowOverride).value;
    var ov := GetKey(other, k).value;
    var skip := ov.Null? && GetKeyOr(d, k, Null).Dict?;
    var rest := keys[1..];
    forall i, l | 0 <= i < l < |rest| ensures Diverge(Segments(rest[i]), Segments(rest[l])) {
      assert rest[i] == keys[i + 1] && rest[l] == keys[l + 1];
    }
    if j == 0 {
      if !skip {
        SetPathGet(d, p0, ov);
      }
      forall i | 0 <= i < |rest| ensures Diverge(Segments(rest[i]), p) {
        assert rest[i] == keys[i + 1];
        DivergeSymmetric(p, Segments(rest[i]));
      }
      OverridePassFrame(d1, selfKeys, other, rest, allowOverride, p);
    } else {
      if !skip {
        SetPathFrame(d, p0, p, ov);
      }
      assert rest[j - 1] == keys[j];
      OverridePassLeaf(d1, selfKeys, other, rest, allowOverride, j - 1, w);
    }
  }

  lemma LeafKeysDiverge(other: Doc)
    requires WellFormedDoc(other)
    ensures PairwiseDiverge(KeysNested(other))
  {
    var keys := KeysNested(other);
    var ps := LeafPaths(other);
    KeysNestedSpec(other);
    LeafPathsSorted(other);
    forall i, l | 0 <= i < l < |keys| ensures Diverge(Segments(keys[i]), Segments(keys[l])) {
      PathLtDiverge(ps[i], ps[l]);
    }
  }

  /** Without `allow_replacement`, `union` is the first pass alone. */
  lemma UnionNoReplacement(d: Doc, other: Doc, allowOverride: bool)
    ensures Union(d, other, allowOverride, false) == OverridePass(d, KeysNested(d), other, KeysNested(other), allowOverride)
  {
  }

  /** The `j`-th leaf key of a well-formed document names the `j`-th leaf path. */
  lemma LeafKey(other: Doc, p: Path, w: Value) returns (j: nat)
    requires WellFormedDoc(other) && p in LeafPaths(other) && Find(other, p) == Some(w)
    ensures j < |KeysNested(other)| && Segments(KeysNested(other)[j]) == p
    ensures GetKey(other, KeysNested(other)[j]) == Ok(w)
  {
    var ps := LeafPaths(other);
    KeysNestedSpec(other);
    LeafPathsMember(other, p);
    j :| 0 <= j < |ps| && ps[j] == p;
  }

  /** Without `allow_replacement`, `other` wins at each of its leaves that holds neither
      a dict nor `None`; a `None` in `other` is written unless `self` holds a dict
      there, which is then kept. */
  lemma {:induction false} UnionLeaf(d: Doc, other: Doc, allowOverride: bool, p: Path, w: Value)
    requires WellFormedDoc(other)
    requires Union(d, other, allowOverride, false).Ok?
    requires p in LeafPaths(other) && Find(other, p) == Some(w) && !w.Dict?
    ensures Find(Union(d, other, allowOverride, false).value, p)
      == if w.Null? && Find(d, p).Some? && Find(d, p).value.Dict? then Find(d, p) else Some(w)
  {
    UnionNoReplacement(d, other, allowOverride);
    LeafKeysDiverge(other);
    var j := LeafKey(other, p, w);
    OverridePassLeaf(d, KeysNested(d), other, KeysNested(other), allowOverride, j, w);
  }

  /** Without `allow_replacement`, a path of `self` that diverges from every leaf of
      `other` is left unchanged. */
  lemma {:induction false} UnionFrame(d: Doc, other: Doc, allowOverride: bool, q: Path)
    requires WellFormedDoc(other)
    requires Union(d, other, allowOverride, false).Ok?
    requires forall p :: p in LeafPaths(other) ==> Diverge(p, q)
    ensures Find(Union(d, other, allowOverride, false).value, q) == Find(d, q)
  {
    var keys := KeysNested(other);
    var ps := LeafPaths(other);
    KeysNestedSpec(other);
    UnionNoReplacement(d, other, allowOverride);
    forall i | 0 <= i < |keys| ensures Diverge(Segments(keys[i]), q) {
      assert ps[i] in ps;
    }
    OverridePassFrame(d, KeysNested(d), other, keys, allowOverride, q);
  }

  /** Onto paths not yet present, the first pass stores each leaf exactly as
      `set_key` rebuilds a document from its flat form. */
  lemma {:induction false} OverridePassFresh(acc: Doc, other: Doc, keys: seq<string>, flat: map<string, Value>)
    requires PairwiseDiverge(keys)
    requires forall j :: 0 <= j < |keys| ==> Find(acc, Segments(keys[j])) == None
    requires forall j :: 0 <= j < |keys| ==> keys[j] in flat && GetKey(other, keys[j]) == Ok(flat[keys[j]])
    ensures OverridePass(acc, [], other, keys, false) == Rebuild(acc, keys, flat)
    decreases |keys|
  {
    if keys != [] {
      var k := keys[0];
      var rest := keys[1..];
      assert GetKeyOr(acc, k, Null) == Null;
      match SetKey(acc, k, flat[k])
      case Err(_) =>
      case Ok(a) =>
        forall j | 0 <= j < |rest| ensures Find(a, Segments(rest[j])) == None {
          assert rest[j] == keys[j + 1];
          SetPathFrame(acc, Segments(k), Segments(rest[j]), flat[k]);
        }
        forall i, l | 0 <= i < l < |rest| ensures Diverge(Segments(rest[i]), Segments(rest[l])) {
          assert rest[i] == keys[i + 1] && rest[l] == keys[l + 1];
        }
        forall j | 0 <= j < |rest| ensures rest[j] in flat && GetKey(other, rest[j]) == Ok(flat[rest[j]]) {
          assert rest[j] == keys[j + 1];
        }
        OverridePassFresh(a, other, rest, flat);
    }
  }

  /** `AttrDict().union(other)` copies `other`. */
  lemma UnionIntoEmpty(other: Doc)
    requires WellFormedDoc(other)
    ensures Union(map[], other, false, false) == Ok(other)
  {
    UnionNoReplacement(map[], other, false);
    assert SortedKeys(map[]) == [];
    assert KeysNested(map[]) == [];
    var keys := KeysNested(other);
    var ps := LeafPaths(other);
    LeafKeysDiverge(other);
    KeysNestedSpec(other);
    AsDictFlatSpec(other);
    RebuildFromFlat(other);
    var f := AsDictFlat(other).value;
    forall j | 0 <= j < |keys| ensures keys[j] in f && GetKey(other, keys[j]) == Ok(f[keys[j]]) {
      assert Segments(keys[j]) == ps[j];
    }
    OverridePassFresh(map[], other, keys, f);
  }

  /** Setting a value that is not a non-empty dict can only fail with the
      "Cannot set nested key" KeyError. */
  lemma {:induction false} SetPathLeafError(d: Doc, p: Path, v: Value)
    requires !Descends(v) && SetPath(d, p, v).Err?
    ensures SetPath(d, p, v).error == NonDictKey
  {
  }

  lemma {:induction false} OverridePassKeyError(d: Doc, selfKeys: seq<string>, other: Doc, keys: seq<string>, allowOverride: bool)
    requires forall j :: 0 <= j < |keys| ==> GetKey(other, keys[j]).Ok? && !Descends(GetKey(other, keys[j]).value)
    requires OverridePass(d, selfKeys, other, keys, allowOverride).Err?
    ensures IsKeyError(OverridePass(d, selfKeys, other, keys, allowOverride).error)
    decreases |keys|
  {
    var k := keys[0];
    var ov := GetKey(other, k).value;
    if allowOverride || k !in selfKeys {
      if !(ov.Null? && GetKeyOr(d, k, Null).Dict?) && SetKey(d, k, ov).Err? {
        SetPathLeafError(d, Segments(k), ov);
      } else {
        var d1 := UnionStep(d, selfKeys, other, k, allowOverride).value;
        assert forall j :: 0 <= j < |keys[1..]| ==> keys[1..][j] == keys[j + 1];
        OverridePassKeyError(d1, selfKeys, other, keys[1..], allowOverride);
      }
    }
  }

  /** Without `allow_replacement`, a failing `union` raises a KeyError: "Key defined
      twice" or "Cannot set nested key on non-dict key.". */
  lemma UnionErrorIsKeyError(d: Doc, other: Doc, allowOverride: bool)
    requires WellFormedDoc(other) && Union(d, other, allowOverride, false).Err?
    ensures IsKeyError(Union(d, other, allowOverride, false).error)
  {
    UnionNoReplacement(d, other, allowOverride);
    var keys := KeysNested(other);
    var ps := LeafPaths(other);
    KeysNestedSpec(other);
    forall j | 0 <= j < |keys| ensures GetKey(other, keys[j]).Ok? && !Descends(GetKey(other, keys[j]).value) {
      LeafPathsMember(other, ps[j]);
      assert Segments(keys[j]) == ps[j];
    }
    OverridePassKeyError(d, KeysNested(d), other, keys, allowOverride);
  }

  // ----- `_REPLACE_` -----

  /** Every two wipe targets are the same key or lie on diverging paths. */
  ghost predicate Separate(keys: seq<string>) {
    forall i, l :: 0 <= i < l < |keys| ==> keys[i] == keys[l] || Diverge(Segments(keys[i]), Segments(keys[l]))
  }

  /** What `set_key` leaves at a path that held `prev`: `v` merged onto it. */
  function Written(prev: Option<Value>, v: Value): Value
    requires prev.Some? ==> Overlay(prev.value, v).Ok?
  {
    if prev.Some? then Overlay(prev.value, v).value else v
  }

  /** The replacement loop leaves a path that diverges from every target alone. */
  lemma {:induction false} WipePassFrame(d: Doc, other: Doc, keys: seq<string>, q: Path)
    requires WipePass(d, other, keys).Ok?
    requires forall i :: 0 <= i < |keys| ==> Diverge(Segments(keys[i]), q)
    ensures Find(WipePass(d, other, keys).value, q) == Find(d, q)
    decreases |keys|
  {
    if keys != [] {
      var v := GetKey(other, keys[0] + "." + WipeMarker).value;
      SetPathFrame(d, Segments(keys[0]), q, v);
      var rest := keys[1..];
      forall i | 0 <= i < |rest| ensures Diverge(Segments(rest[i]), q) {
        assert rest[i] == keys[i + 1];
      }
      WipePassFrame(SetKey(d, keys[0], v).value, other, rest, q);
    }
  }

  /** Writing the same target twice leaves what the first write left. */
  lemma WrittenTwice(prev: Option<Value>, v: Value)
    requires prev.Some? ==> Overlay(prev.value, v).Ok?
    ensures Overlay(Written(prev, v), v) == Ok(Written(prev, v))
  {
    if prev.Some? {
      OverlayIdempotent(prev.value, v);
    } else {
      OverlaySelf(v);
    }
  }

  /** The replacement loop leaves at each target `t` the value under `t._REPLACE_` in
      `other`, merged by `set_key` onto what was at `t` before the loop. */
  lemma {:induction false} WipePassTarget(d: Doc, other: Doc, keys: seq<string>, j: nat)
    requires WipePass(d, other, keys).Ok? && j < |keys| && Separate(keys)
    ensures var p := Segments(keys[j]);
      var v := GetKey(other, keys[j] + "." + WipeMarker);
      && v.Ok? && (Find(d, p).Some? ==> Overlay(Find(d, p).value, v.value).Ok?)
      && Find(WipePass(d, other, keys).value, p) == Some(Written(Find(d, p), v.value))
    decreases |keys|
  {
    var k := keys[0];
    var p0 := Segments(k);
    var v0 := GetKey(other, k + "." + WipeMarker).value;
    var d1 := SetKey(d, k, v0).value;
    var rest := keys[1..];
    forall i, l | 0 <= i < l < |rest| ensures rest[i] == rest[l] || Diverge(Segments(rest[i]), Segments(rest[l])) {
      assert rest[i] == keys[i + 1] && rest[l] == keys[l + 1];
    }
    if keys[j] == k {
      SetPathGet(d, p0, v0);
      if l :| 0 <= l < |rest| && rest[l] == k {
        WipePassTarget(d1, other, rest, l);
        WrittenTwice(Find(d, p0), v0);
      } else {
        forall i | 0 <= i < |rest| ensures Diverge(Segments(rest[i]), p0) {
          assert rest[i] == keys[i + 1] && rest[i] != k;
          DivergeSymmetric(p0, Segments(rest[i]));
        }
        WipePassFrame(d1, other, rest, p0);
      }
    } else {
      SetPathFrame(d, p0, Segments(keys[j]), v0);
      assert rest[j - 1] == keys[j];
      WipePassTarget(d1, other, rest, j - 1);
    }
  }

  /** The first pass of `union` with `allow_replacement`: the keys without `_REPLACE_`. */
  function FirstPass(d: Doc, other: Doc, allowOverride: bool): Result<Doc> {
    OverridePass(d, KeysNested(d), other, WithoutMarker(KeysNested(other)), allowOverride)
  }

  /** With `allow_replacement`, each target `p` of a `p._REPLACE_` key holds afterwards
      the value under `p._REPLACE_`, merged by `set_key` onto what the first pass left
      at `p`. */
  lemma UnionReplacement(d: Doc, other: Doc, allowOverride: bool, j: nat)
    requires Union(d, other, allowOverride, true).Ok?
    requires Separate(WipeTargets(KeysNested(other))) && j < |WipeTargets(KeysNested(other))|
    ensures var t := WipeTargets(KeysNested(other))[j];
      var p := Segments(t);
      var v := GetKey(other, t + "." + WipeMarker);
      && FirstPass(d, other, allowOverride).Ok? && v.Ok?
      && (Find(FirstPass(d, other, allowOverride).value, p).Some? ==>
            Overlay(Find(FirstPass(d, other, allowOverride).value, p).value, v.value).Ok?)
      && Find(Union(d, other, allowOverride, true).value, p)
         == Some(Written(Find(FirstPass(d, other, allowOverride).value, p), v.value))
  {
    WipePassTarget(FirstPass(d, other, allowOverride).value, other, WipeTargets(KeysNested(other)), j);
  }

  /** With `allow_replacement`, a path that diverges from every target keeps what the
      first pass left there. */
  lemma UnionReplacementFrame(d: Doc, other: Doc, allowOverride: bool, q: Path)
    requires Union(d, other, allowOverride, true).Ok?
    requires forall t :: t in WipeTargets(KeysNested(other)) ==> Diverge(Segments(t), q)
    ensures FirstPass(d, other, allowOverride).Ok?
    ensures Find(Union(d, other, allowOverride, true).value, q) == Find(FirstPass(d, other, allowOverride).value, q)
  {
    var ts := WipeTargets(KeysNested(other));
    assert forall i :: 0 <= i < |ts| ==> ts[i] in ts;
    WipePassFrame(FirstPass(d, other, allowOverride).value, other, ts, q);
  }

  /** The replacement flag only matters when some leaf key of `other` contains `_REPLACE_`. */
  lemma UnionWithoutMarkers(d: Doc, other: Doc, allowOverride: bool)
    requires forall k :: k in KeysNested(other) ==> !Contains(k, WipeMarker)
    ensures Union(d, other, allowOverride, true) == Union(d, other, allowOverride, false)
  {
    var ks := KeysNested(other);
    WithoutMarkerIdentity(ks);
  }

  lemma {:induction false} WithoutMarkerIdentity(ks: seq<string>)
    requires forall k :: k in ks ==> !Contains(k, WipeMarker)
    ensures WithoutMarker(ks) == ks
  {
    if ks != [] {
      assert forall k :: k in ks[1..] ==> k in ks;
      WithoutMarkerIdentity(ks[1..]);
      assert ks == [ks[0]] + ks[1..];
    }
  }

  /** A one-entry dict over a document with a single leaf key has a single leaf key. */
  lemma ExampleKeysStep(k: string, m: Doc, s: string)
    requires m != map[] && KeysNested(m) == [s]
    ensures KeysNested(map[k := Dict(m)]) == [k + "." + s]
  {
    KeysNestedSingleton(k, Dict(m));
    var sub := KeysNested(m);
    var r := seq(|sub|, i requires 0 <= i < |sub| => k + "." + sub[i]);
    assert |r| == 1 && r[0] == k + "." + s;
  }

  /** The leaf keys of `{a: {_REPLACE_: {y: 2}}}`. */
  lemma ExampleKeys()
    ensures KeysNested(map["a" := Dict(map[WipeMarker := Dict(map["y" := Int(2)])])]) == ["a._REPLACE_.y"]
  {
    var n := map["y" := Int(2)];
    KeysNestedSingleton("y", Int(2));
    assert "y" in n;
    ExampleKeysStep(WipeMarker, n, "y");
    var r := map[WipeMarker := Dict(n)];
    assert WipeMarker in r;
    assert WipeMarker + "." + "y" == WipeMarker + ".y";
    ExampleKeysStep("a", r, WipeMarker + ".y");
    ExampleKeyText();
  }

  lemma ExampleKeyText()
    ensures "a" + "." + (WipeMarker + ".y") == "a._REPLACE_.y"
  {
    assert WipeMarker == "_REPLACE_";
  }

  lemma ExampleMarked()
    ensures Contains("a._REPLACE_.y", WipeMarker)
  {
    var key := "a._REPLACE_.y";
    assert key[2..][..|WipeMarker|] == WipeMarker;
  }

  lemma ExampleBefore()
    ensures BeforeFirst("a._REPLACE_.y", "." + WipeMarker) == "a"
  {
    var key := "a._REPLACE_.y";
    var sub := "." + WipeMarker;
    assert key[..|sub|][0] == 'a' != sub[0];
    assert key[1..][..|sub|] == sub;
    assert BeforeFirst(key[1..], sub) == "";
  }

  /** `a._REPLACE_.y` is held back and names the target `a`. */
  lemma ExampleTargets()
    ensures WithoutMarker(["a._REPLACE_.y"]) == []
    ensures WipeTargets(["a._REPLACE_.y"]) == ["a"]
  {
    ExampleMarked();
    ExampleBefore();
  }

  lemma ExampleLookup()
    ensures GetKey(map["a" := Dict(map[WipeMarker := Dict(map["y" := Int(2)])])], "a." + WipeMarker)
         == Ok(Dict(map["y" := Int(2)]))
  {
    var wk := "a." + WipeMarker;
    assert IndexOf(wk, '.') == 1;
    assert wk[..1] == "a";
    assert wk[2..] == WipeMarker;
    assert '.' !in WipeMarker;
    assert SplitOn(WipeMarker, '.') == [WipeMarker];
    assert Segments(wk) == ["a", WipeMarker];
  }

  lemma ExampleMerge()
    ensures SetKey(map["a" := Dict(map["x" := Int(1)])], "a", Dict(map["y" := Int(2)]))
         == Ok(map["a" := Dict(map["x" := Int(1), "y" := Int(2)])])
  {
    var n := map["y" := Int(2)];
    var m := map["x" := Int(1)];
    assert Segments("a") == ["a"];
    MergeEntriesDisjoint(m, n);
    assert m + n == map["x" := Int(1), "y" := Int(2)];
    var d := map["a" := Dict(m)];
    assert "y" in n;
    assert Overlay(Dict(m), Dict(n)) == Ok(Dict(m + n));
    assert Assign(d, "a", Dict(n)) == Ok(d["a" := Dict(m + n)]);
    assert SetKey(d, "a", Dict(n)) == Assign(d, "a", Dict(n));
    assert d["a" := Dict(m + n)] == map["a" := Dict(map["x" := Int(1), "y" := Int(2)])];
  }

  /** With `allow_replacement`, the only key of the example is held back for the second loop. */
  lemma ExampleUnionIsWipe()
    ensures Union(map["a" := Dict(map["x" := Int(1)])],
                  map["a" := Dict(map[WipeMarker := Dict(map["y" := Int(2)])])], true, true)
         == WipePass(map["a" := Dict(map["x" := Int(1)])],
                     map["a" := Dict(map[WipeMarker := Dict(map["y" := Int(2)])])], ["a"])
  {
    var other := map["a" := Dict(map[WipeMarker := Dict(map["y" := Int(2)])])];
    ExampleKeys();
    ExampleTargets();
  }

  lemma ExampleWipe()
    ensures WipePass(map["a" := Dict(map["x" := Int(1)])],
                     map["a" := Dict(map[WipeMarker := Dict(map["y" := Int(2)])])], ["a"])
         == Ok(map["a" := Dict(map["x" := Int(1), "y" := Int(2)])])
  {
    ExampleLookup();
    ExampleMerge();
    assert "a" + "." + WipeMarker == "a." + WipeMarker;
  }

  /** A `_REPLACE_` dict is set with `set_key`, which merges it into the dict already
      at that path: `{a: {x: 1}}` with `{a: {_REPLACE_: {y: 2}}}` gives
      `{a: {x: 1, y: 2}}`, keeping `a.x`. */
  lemma ReplacementMergesIntoDict()
    ensures Union(map["a" := Dict(map["x" := Int(1)])],
                  map["a" := Dict(map[WipeMarker := Dict(map["y" := Int(2)])])], true, true)
         == Ok(map["a" := Dict(map["x" := Int(1), "y" := Int(2)])])
  {
    ExampleUnionIsWipe();
    ExampleWipe();
  }

  // ----- well-formedness -----

  lemma {:induction false} OverridePassWellFormed(d: Doc, selfKeys: seq<string>, other: Doc, keys: seq<string>, allowOverride: bool)
    requires WellFormedDoc(d) && WellFormedDoc(other)
    requires OverridePass(d, selfKeys, other, keys, allowOverride).Ok?
    ensures WellFormedDoc(OverridePass(d, selfKeys, other, keys, allowOverride).value)
    decreases |keys|
  {
    if keys != [] {
      var k := keys[0];
      var ov := GetKey(other, k).value;
      FindWellFormed(other, Segments(k));
      if !(ov.Null? && GetKeyOr(d, k, Null).Dict?) {
        SetPathWellFormed(d, Segments(k), ov);
      }
      OverridePassWellFormed(UnionStep(d, selfKeys, other, k, allowOverride).value, selfKeys, other, keys[1..], allowOverride);
    }
  }

  lemma {:induction false} WipePassWellFormed(d: Doc, other: Doc, keys: seq<string>)
    requires WellFormedDoc(d) && WellFormedDoc(other)
    requires WipePass(d, other, keys).Ok?
    ensures WellFormedDoc(WipePass(d, other, keys).value)
    decreases |keys|
  {
    if keys != [] {
      var k := keys[0];
      var v := GetKey(other, k + "." + WipeMarker).value;
      FindWellFormed(other, Segments(k + "." + WipeMarker));
      SetPathWellFormed(d, Segments(k), v);
      WipePassWellFormed(SetKey(d, k, v).value, other, keys[1..]);
    }
  }

  /** `union` of well-formed documents is well-formed. */
  lemma UnionWellFormed(d: Doc, other: Doc, allowOverride: bool, allowReplacement: bool)
    requires WellFormedDoc(d) && WellFormedDoc(other)
    requires Union(d, other, allowOverride, allowReplacement).Ok?
    ensures WellFormedDoc(Union(d, other, allowOverride, allowReplacement).value)
  {
    var keys := OverrideKeys(KeysNested(other), allowReplacement);
    OverridePassWellFormed(d, KeysNested(d), other, keys, allowOverride);
    WipePassWellFormed(OverridePass(d, KeysNested(d), other, keys, allowOverride).value, other,
      WipeKeys(KeysNested(other), allowReplacement));
  }
}
