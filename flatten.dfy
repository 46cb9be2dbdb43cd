/** Flattening an `AttrDict` (calliope/core/attrdict.py): `keys_nested` lists the
    dotted paths of its leaves level by level in sorted key order, descending only
    into non-empty dicts; `as_dict_flat` maps each such path to `get_key` of it. */
module Flatten {
  import opened Text
  import opened Values
  import opened Paths

  /** `sorted(self.items())`: the keys in increasing order. */
  function SortedKeys(d: Doc): (ks: seq<string>)
    ensures forall i :: 0 <= i < |ks| ==> ks[i] in d
    ensures forall k :: k in d <==> k in ks
  {
    SortedStrings(d.Keys)
  }

  lemma SortedKeysIncreasing(d: Doc)
    ensures forall i, j :: 0 <= i < j < |SortedKeys(d)| ==> StrLt(SortedKeys(d)[i], SortedKeys(d)[j])
  {
  }

  lemma SortedKeysDistinct(d: Doc)
    ensures forall i, j :: 0 <= i < j < |SortedKeys(d)| ==> SortedKeys(d)[i] != SortedKeys(d)[j]
  {
    var ks := SortedKeys(d);
    SortedKeysIncreasing(d);
    forall i, j | 0 <= i < j < |ks| ensures ks[i] != ks[j] {
      StrLtIrreflexive(ks[i]);
    }
  }

  /** A path lies in a block of paths under `k` exactly when it continues one of them. */
  lemma PrefixedMember(k: string, ps: seq<Path>, p: Path)
    ensures p in Prefixed(k, ps) <==> |p| > 1 && p[0] == k && p[1..] in ps
  {
    var r := Prefixed(k, ps);
    if p in r {
      var i :| 0 <= i < |r| && r[i] == p;
      assert p[1..] == ps[i];
    }
    if |p| > 1 && p[0] == k && p[1..] in ps {
      var i :| 0 <= i < |ps| && ps[i] == p[1..];
      assert r[i] == p;
    }
  }

  /** A value `keys_nested` descends into. */
  predicate Descends(v: Value) {
    v.Dict? && v.entries != map[]
  }

  /** `keys_nested()` restricted to the keys `ks` of `d`, in their order. */
  function KeysNestedOf(d: Doc, ks: seq<string>): seq<string>
    requires forall i :: 0 <= i < |ks| ==> ks[i] in d
    decreases Dict(d), |ks|
  {
    if ks == [] then []
    else
      var k := ks[0];
      var v := d[k];
      (if Descends(v) then
         var sub := KeysNestedOf(v.entries, SortedKeys(v.entries));
         seq(|sub|, i requires 0 <= i < |sub| => k + "." + sub[i])
       else [k])
      + KeysNestedOf(d, ks[1..])
  }

  function KeysNested(d: Doc): seq<string> {
    KeysNestedOf(d, SortedKeys(d))
  }

  /** The leaf keys of a one-entry document. */
  lemma KeysNestedSingleton(k: string, v: Value)
    ensures KeysNested(map[k := v]) == if Descends(v) then
      var sub := KeysNested(v.entries);
      seq(|sub|, i requires 0 <= i < |sub| => k + "." + sub[i])
    else [k]
  {
    var d := map[k := v];
    assert SortedKeys(d) == [k];
    assert KeysNestedOf(d, [k])[..] == KeysNestedOf(d, [k]);
  }

  /** Each path of `ps` under the key `k`. */
  function Prefixed(k: string, ps: seq<Path>): (r: seq<Path>)
    ensures |r| == |ps| && forall i :: 0 <= i < |ps| ==> r[i] == [k] + ps[i]
  {
    seq(|ps|, i requires 0 <= i < |ps| => [k] + ps[i])
  }

  /** The leaf paths `keys_nested` walks, as segments rather than dotted strings. */
  function LeafPathsOf(d: Doc, ks: seq<string>): seq<Path>
    requires forall i :: 0 <= i < |ks| ==> ks[i] in d
    decreases Dict(d), |ks|
  {
    if ks == [] then []
    else
      var k := ks[0];
      var v := d[k];
      (if Descends(v) then Prefixed(k, LeafPathsOf(v.entries, SortedKeys(v.entries))) else [[k]])
      + LeafPathsOf(d, ks[1..])
  }

  function LeafPaths(d: Doc): seq<Path> {
    LeafPathsOf(d, SortedKeys(d))
  }

  /** A leaf: something is at `p` and it is not a non-empty dict. */
  ghost predicate IsLeaf(d: Doc, p: Path) {
    Find(d, p).Some? && !Descends(Find(d, p).value)
  }

  /** Segment-wise order of paths, the order the level-by-level sort produces. */
  predicate PathLt(p: seq<string>, q: seq<string>) {
    |p| > 0 && |q| > 0 && (StrLt(p[0], q[0]) || (p[0] == q[0] && PathLt(p[1..], q[1..])))
  }

  lemma {:induction false} DottedCons(k: string, p: Path)
    ensures Dotted([k] + p) == k + "." + Dotted(p)
  {
    assert ([k] + p)[1..] == p;
  }

  /** The dotted keys are the leaf paths joined with '.'. */
  lemma {:induction false} KeysNestedDotted(d: Doc, ks: seq<string>)
    requires forall i :: 0 <= i < |ks| ==> ks[i] in d
    ensures |KeysNestedOf(d, ks)| == |LeafPathsOf(d, ks)|
    ensures forall i :: 0 <= i < |KeysNestedOf(d, ks)| ==>
      KeysNestedOf(d, ks)[i] == Dotted(LeafPathsOf(d, ks)[i])
    decreases Dict(d), |ks|
  {
    if ks != [] {
      var k := ks[0];
      var v := d[k];
      KeysNestedDotted(d, ks[1..]);
      if Descends(v) {
        var e := v.entries;
        KeysNestedDotted(e, SortedKeys(e));
        var sub := LeafPathsOf(e, SortedKeys(e));
        forall i | 0 <= i < |sub| ensures Dotted([k] + sub[i]) == k + "." + Dotted(sub[i]) {
          DottedCons(k, sub[i]);
        }
      }
    }
  }

  /** A path is walked by `keys_nested` exactly when it is a leaf under one of `ks`. */
  lemma {:induction false} LeafPathsOfMember(d: Doc, ks: seq<string>, p: Path)
    requires forall i :: 0 <= i < |ks| ==> ks[i] in d
    ensures p in LeafPathsOf(d, ks) <==> p[0] in ks && IsLeaf(d, p)
    decreases Dict(d), |ks|
  {
    if ks != [] {
      var k := ks[0];
      var v := d[k];
      LeafPathsOfMember(d, ks[1..], p);
      assert p[0] in ks <==> p[0] == k || p[0] in ks[1..];
      if Descends(v) {
        var sub := LeafPathsOf(v.entries, SortedKeys(v.entries));
        assert LeafPathsOf(d, ks) == Prefixed(k, sub) + LeafPathsOf(d, ks[1..]);
        PrefixedMember(k, sub, p);
        if |p| > 1 {
          LeafPathsOfMember(v.entries, SortedKeys(v.entries), p[1..]);
          if p[0] == k {
            assert Find(d, p) == Find(v.entries, p[1..]);
            assert IsLeaf(v.entries, p[1..]) ==> p[1..][0] in SortedKeys(v.entries);
          }
        }
      } else {
        assert LeafPathsOf(d, ks) == [[k]] + LeafPathsOf(d, ks[1..]);
        if p[0] == k && |p| > 1 {
          if v.Dict? {
            assert Find(v.entries, p[1..]).None?;
          }
          assert Find(d, p).None?;
        } else if p[0] == k {
          assert p == [k];
        }
      }
    }
  }

  /** `keys_nested` lists exactly the leaves. */
  lemma LeafPathsMember(d: Doc, p: Path)
    ensures p in LeafPaths(d) <==> IsLeaf(d, p)
  {
    LeafPathsOfMember(d, SortedKeys(d), p);
  }

  lemma {:induction false} PrefixedSorted(k: string, ps: seq<Path>)
    requires forall i, j :: 0 <= i < j < |ps| ==> PathLt(ps[i], ps[j])
    ensures forall i, j :: 0 <= i < j < |ps| ==> PathLt(Prefixed(k, ps)[i], Prefixed(k, ps)[j])
  {
    forall i, j | 0 <= i < j < |ps| ensures PathLt(Prefixed(k, ps)[i], Prefixed(k, ps)[j]) {
      assert Prefixed(k, ps)[i][1..] == ps[i];
      assert Prefixed(k, ps)[j][1..] == ps[j];
    }
  }

  /** The walk over increasing keys lists the leaves in increasing path order. */
  lemma {:induction false} LeafPathsOfSorted(d: Doc, ks: seq<string>)
    requires forall i :: 0 <= i < |ks| ==> ks[i] in d
    requires forall i, j :: 0 <= i < j < |ks| ==> StrLt(ks[i], ks[j])
    ensures forall i, j :: 0 <= i < j < |LeafPathsOf(d, ks)| ==>
      PathLt(LeafPathsOf(d, ks)[i], LeafPathsOf(d, ks)[j])
    decreases Dict(d), |ks|
  {
    if ks != [] {
      var k := ks[0];
      var v := d[k];
      var rest := LeafPathsOf(d, ks[1..]);
      LeafPathsOfSorted(d, ks[1..]);
      var block := if Descends(v) then Prefixed(k, LeafPathsOf(v.entries, SortedKeys(v.entries))) else [[k]];
      if Descends(v) {
        SortedKeysIncreasing(v.entries);
        LeafPathsOfSorted(v.entries, SortedKeys(v.entries));
        PrefixedSorted(k, LeafPathsOf(v.entries, SortedKeys(v.entries)));
      }
      assert forall i :: 0 <= i < |block| ==> |block[i]| > 0 && block[i][0] == k;
      LaterHeads(d, ks);
      assert LeafPathsOf(d, ks) == block + rest;
      SortedJoin(k, block, rest);
    }
  }

  /** Every path listed under the later keys starts with a key greater than the first. */
  lemma LaterHeads(d: Doc, ks: seq<string>)
    requires ks != [] && forall i :: 0 <= i < |ks| ==> ks[i] in d
    requires forall i, j :: 0 <= i < j < |ks| ==> StrLt(ks[i], ks[j])
    ensures forall j :: 0 <= j < |LeafPathsOf(d, ks[1..])| ==>
      |LeafPathsOf(d, ks[1..])[j]| > 0 && StrLt(ks[0], LeafPathsOf(d, ks[1..])[j][0])
  {
    var rest := LeafPathsOf(d, ks[1..]);
    forall j | 0 <= j < |rest| ensures |rest[j]| > 0 && StrLt(ks[0], rest[j][0]) {
      LeafPathsOfMember(d, ks[1..], rest[j]);
      var t :| 0 <= t < |ks[1..]| && ks[1..][t] == rest[j][0];
      assert ks[t + 1] == rest[j][0];
    }
  }

  /** Paths under one key followed by paths under greater keys stay in order. */
  lemma {:induction false} SortedJoin(k: string, block: seq<Path>, rest: seq<Path>)
    requires forall i, j :: 0 <= i < j < |block| ==> PathLt(block[i], block[j])
    requires forall i, j :: 0 <= i < j < |rest| ==> PathLt(rest[i], rest[j])
    requires forall i :: 0 <= i < |block| ==> |block[i]| > 0 && block[i][0] == k
    requires forall j :: 0 <= j < |rest| ==> |rest[j]| > 0 && StrLt(k, rest[j][0])
    ensures forall i, j :: 0 <= i < j < |block + rest| ==> PathLt((block + rest)[i], (block + rest)[j])
  {
    var all := block + rest;
    forall i, j | 0 <= i < j < |all| ensures PathLt(all[i], all[j]) {
      if j < |block| {
        assert all[i] == block[i] && all[j] == block[j];
      } else if i >= |block| {
        assert all[i] == rest[i - |block|] && all[j] == rest[j - |block|];
      } else {
        assert all[i] == block[i] && all[j] == rest[j - |block|];
      }
    }
  }

  /** `keys_nested` is sorted by segment-wise order. */
  lemma LeafPathsSorted(d: Doc)
    ensures forall i, j :: 0 <= i < j < |LeafPaths(d)| ==> PathLt(LeafPaths(d)[i], LeafPaths(d)[j])
  {
    SortedKeysIncreasing(d);
    LeafPathsOfSorted(d, SortedKeys(d));
  }

  /** Ordered paths are different and neither is a prefix of the other. */
  lemma {:induction false} PathLtDiverge(p: seq<string>, q: seq<string>)
    requires PathLt(p, q)
    ensures Diverge(p, q) && p != q
  {
    if StrLt(p[0], q[0]) {
      StrLtIrreflexive(p[0]);
    } else {
      PathLtDiverge(p[1..], q[1..]);
    }
  }

  /** The path to anything in a well-formed document is dot-free. */
  lemma {:induction false} FindDotFree(d: Doc, p: Path)
    requires WellFormedDoc(d) && Find(d, p).Some?
    ensures DotFree(p)
    decreases |p|
  {
    if |p| > 1 {
      FindDotFree(d[p[0]].entries, p[1..]);
      assert forall i :: 1 <= i < |p| ==> p[i] == p[1..][i - 1];
    }
  }

  /** The keys `keys_nested` returns are the leaves' paths, one string per leaf, no repeats. */
  lemma KeysNestedSpec(d: Doc)
    requires WellFormedDoc(d)
    ensures |KeysNested(d)| == |LeafPaths(d)|
    ensures forall i :: 0 <= i < |KeysNested(d)| ==> KeysNested(d)[i] == Dotted(LeafPaths(d)[i])
    ensures forall i :: 0 <= i < |KeysNested(d)| ==> Segments(KeysNested(d)[i]) == LeafPaths(d)[i]
    ensures forall i, j :: 0 <= i < j < |KeysNested(d)| ==> KeysNested(d)[i] != KeysNested(d)[j]
  {
    var ps := LeafPaths(d);
    KeysNestedDotted(d, SortedKeys(d));
    LeafPathsSorted(d);
    forall i | 0 <= i < |ps| ensures Segments(Dotted(ps[i])) == ps[i] {
      LeafPathsMember(d, ps[i]);
      FindDotFree(d, ps[i]);
      DottedSegments(ps[i]);
    }
    forall i, j | 0 <= i < j < |ps| ensures Dotted(ps[i]) != Dotted(ps[j]) {
      PathLtDiverge(ps[i], ps[j]);
    }
  }

  /** `as_dict_flat` over the keys `keys`: `get_key` of each, in order. */
  function AsDictFlatOf(d: Doc, keys: seq<string>): Result<map<string, Value>> {
    if keys == [] then Ok(map[])
    else match GetKey(d, keys[0])
      case Err(e) => Err(e)
      case Ok(v) =>
        match AsDictFlatOf(d, keys[1..])
        case Err(e) => Err(e)
        case Ok(m) => Ok(map[keys[0] := v] + m)
  }

  function AsDictFlat(d: Doc): Result<map<string, Value>> {
    AsDictFlatOf(d, KeysNested(d))
  }

  lemma {:induction false} AsDictFlatOfOk(d: Doc, keys: seq<string>)
    requires forall i :: 0 <= i < |keys| ==> GetKey(d, keys[i]).Ok?
    ensures AsDictFlatOf(d, keys).Ok?
    ensures forall k :: k in AsDictFlatOf(d, keys).value <==> k in keys
    ensures forall i :: 0 <= i < |keys| ==> AsDictFlatOf(d, keys).value[keys[i]] == GetKey(d, keys[i]).value
  {
    if keys != [] {
      var rest := keys[1..];
      forall i | 0 <= i < |rest| ensures GetKey(d, rest[i]).Ok? {
        assert rest[i] == keys[i + 1];
      }
      AsDictFlatOfOk(d, rest);
      var m := AsDictFlatOf(d, rest).value;
      var v := GetKey(d, keys[0]).value;
      assert AsDictFlatOf(d, keys) == Ok(map[keys[0] := v] + m);
      ConsEntries(d, keys, v, m);
    }
  }

  /** One more entry in front of a flat dict that already holds the rest of `keys`. */
  lemma ConsEntries(d: Doc, keys: seq<string>, v: Value, m: map<string, Value>)
    requires keys != [] && GetKey(d, keys[0]) == Ok(v)
    requires forall k :: k in m <==> k in keys[1..]
    requires forall i :: 1 <= i < |keys| ==> GetKey(d, keys[i]).Ok?
    requires forall i :: 0 <= i < |keys[1..]| ==> m[keys[1..][i]] == GetKey(d, keys[1..][i]).value
    ensures forall k :: k in map[keys[0] := v] + m <==> k in keys
    ensures forall i :: 0 <= i < |keys| ==> (map[keys[0] := v] + m)[keys[i]] == GetKey(d, keys[i]).value
  {
    var r := map[keys[0] := v] + m;
    var rest := keys[1..];
    assert keys == [keys[0]] + rest;
    forall i | 0 <= i < |keys| ensures r[keys[i]] == GetKey(d, keys[i]).value {
      if i > 0 {
        assert keys[i] == rest[i - 1];
      }
    }
  }

  /** For a well-formed document, `as_dict_flat` succeeds, its keys are exactly
      those `keys_nested` lists, and it maps the dotted path of each leaf to the
      value there. */
  lemma AsDictFlatSpec(d: Doc)
    requires WellFormedDoc(d)
    ensures AsDictFlat(d).Ok?
    ensures forall k :: k in AsDictFlat(d).value <==> k in KeysNested(d)
    ensures forall i :: 0 <= i < |LeafPaths(d)| ==>
      Find(d, LeafPaths(d)[i]).Some? && Dotted(LeafPaths(d)[i]) in AsDictFlat(d).value
      && AsDictFlat(d).value[Dotted(LeafPaths(d)[i])] == Find(d, LeafPaths(d)[i]).value
  {
    var keys := KeysNested(d);
    var ps := LeafPaths(d);
    KeysNestedSpec(d);
    forall i | 0 <= i < |keys| ensures Find(d, ps[i]).Some? && GetKey(d, keys[i]) == Ok(Find(d, ps[i]).value) {
      LeafPathsMember(d, ps[i]);
    }
    AsDictFlatOfOk(d, keys);
    var f := AsDictFlat(d).value;
    forall k ensures k in f <==> k in keys {
      if k in f {
        var i :| 0 <= i < |keys| && keys[i] == k;
      }
    }
  }

  // ----- rebuilding from the flat form -----

  /** `set_key(k, flat[k])` for each of `keys` in turn: what `AttrDict(flat)` does
      with a flat dict whose items come in the order `keys`. */
  function Rebuild(acc: Doc, keys: seq<string>, flat: map<string, Value>): Result<Doc>
    requires forall i :: 0 <= i < |keys| ==> keys[i] in flat
    decreases |keys|
  {
    if keys == [] then Ok(acc)
    else match SetKey(acc, keys[0], flat[keys[0]])
      case Err(e) => Err(e)
      case Ok(a) => Rebuild(a, keys[1..], flat)
  }

  /** The same on paths, taking each value from `src`. */
  function BuildFrom(acc: Doc, ps: seq<Path>, src: Doc): Result<Doc>
    decreases |ps|
  {
    if ps == [] then Ok(acc)
    else match SetPath(acc, ps[0], GetPathOr(src, ps[0], Null))
      case Err(e) => Err(e)
      case Ok(a) => BuildFrom(a, ps[1..], src)
  }

  lemma {:induction false} BuildFromConcat(acc: Doc, a: seq<Path>, b: seq<Path>, src: Doc)
    ensures BuildFrom(acc, a + b, src) == match BuildFrom(acc, a, src)
      case Ok(x) => BuildFrom(x, b, src)
      case Err(e) => Err(e)
    decreases |a|
  {
    if a != [] {
      assert (a + b)[0] == a[0] && (a + b)[1..] == a[1..] + b;
      match SetPath(acc, a[0], GetPathOr(src, a[0], Null))
      case Err(_) =>
      case Ok(x) => BuildFromConcat(x, a[1..], b, src);
    } else {
      assert a + b == b;
    }
  }

  /** Setting a block of paths under `k` where a dict `m` already is: the same as
      building inside `m`. */
  lemma {:induction false} BuildBlock(acc: Doc, k: string, m: Doc, qs: seq<Path>, src: Doc, c: Doc)
    requires k in acc && acc[k] == Dict(m)
    requires k in src && src[k] == Dict(c)
    requires BuildFrom(m, qs, c).Ok?
    ensures BuildFrom(acc, Prefixed(k, qs), src) == Ok(acc[k := Dict(BuildFrom(m, qs, c).value)])
    decreases |qs|
  {
    var ps := Prefixed(k, qs);
    if qs == [] {
      assert acc[k := Dict(m)] == acc;
    } else {
      var p := ps[0];
      assert p[0] == k && p[1..] == qs[0];
      assert GetPathOr(src, p, Null) == GetPathOr(c, qs[0], Null);
      var m1 := SetPath(m, qs[0], GetPathOr(c, qs[0], Null)).value;
      var acc1 := acc[k := Dict(m1)];
      assert SetPath(acc, p, GetPathOr(src, p, Null)) == Ok(acc1);
      assert ps[1..] == Prefixed(k, qs[1..]);
      BuildBlock(acc1, k, m1, qs[1..], src, c);
      assert acc1[k := Dict(BuildFrom(m1, qs[1..], c).value)] == acc[k := Dict(BuildFrom(m1, qs[1..], c).value)];
    }
  }

  /** The same where nothing is at `k` yet: the first path creates the dict. */
  lemma {:induction false} BuildBlockFresh(acc: Doc, k: string, qs: seq<Path>, src: Doc, c: Doc)
    requires k !in acc && |qs| >= 1
    requires k in src && src[k] == Dict(c)
    requires BuildFrom(map[], qs, c).Ok?
    ensures BuildFrom(acc, Prefixed(k, qs), src) == Ok(acc[k := Dict(BuildFrom(map[], qs, c).value)])
  {
    var ps := Prefixed(k, qs);
    var p := ps[0];
    assert p[0] == k && p[1..] == qs[0];
    var v := GetPathOr(c, qs[0], Null);
    assert GetPathOr(src, p, Null) == v;
    var n := Nest(qs[0], v);
    assert SetPath(map[], qs[0], v) == Ok(n);
    var acc1 := acc[k := Dict(n)];
    assert SetPath(acc, p, v) == Ok(acc1);
    assert ps[1..] == Prefixed(k, qs[1..]);
    BuildBlock(acc1, k, n, qs[1..], src, c);
    assert acc1[k := Dict(BuildFrom(n, qs[1..], c).value)] == acc[k := Dict(BuildFrom(n, qs[1..], c).value)];
  }

  lemma {:induction false} LeafPathsOfNonEmpty(d: Doc, ks: seq<string>)
    requires forall i :: 0 <= i < |ks| ==> ks[i] in d
    requires ks != []
    ensures |LeafPathsOf(d, ks)| >= 1
    decreases Dict(d), |ks|
  {
    var v := d[ks[0]];
    if Descends(v) {
      LeafPathsOfNonEmpty(v.entries, SortedKeys(v.entries));
    }
  }

  /** The paths `keys_nested` walks under the key `k`. */
  function Block(d: Doc, k: string): seq<Path>
    requires k in d
  {
    if Descends(d[k]) then Prefixed(k, LeafPaths(d[k].entries)) else [[k]]
  }

  /** `ks` restricted to `d`, as a dict. */
  function Restrict(d: Doc, ks: seq<string>): (r: Doc)
    requires forall i :: 0 <= i < |ks| ==> ks[i] in d
    ensures r.Keys == set i | 0 <= i < |ks| :: ks[i]
  {
    map k | k in ks :: d[k]
  }

  lemma RestrictAll(d: Doc)
    ensures Restrict(d, SortedKeys(d)) == d
  {
    var r := Restrict(d, SortedKeys(d));
    assert r.Keys == d.Keys;
  }

  lemma RestrictCons(d: Doc, ks: seq<string>, acc: Doc)
    requires |ks| >= 1 && forall i :: 0 <= i < |ks| ==> ks[i] in d
    requires forall i :: 1 <= i < |ks| ==> ks[i] != ks[0]
    ensures acc[ks[0] := d[ks[0]]] + Restrict(d, ks[1..]) == acc + Restrict(d, ks)
  {
    var l := acc[ks[0] := d[ks[0]]] + Restrict(d, ks[1..]);
    var r := acc + Restrict(d, ks);
    forall k | k in ks ensures k == ks[0] || k in ks[1..] {
      var i :| 0 <= i < |ks| && ks[i] == k;
      if i > 0 {
        assert ks[1..][i - 1] == k;
      }
    }
    assert l.Keys == r.Keys;
    forall k | k in l ensures l[k] == r[k] {
    }
  }

  lemma EmptyPlus(e: Doc)
    ensures map[] + e == e
  {
    assert (map[] + e).Keys == e.Keys;
  }

  /** Setting the leaves under one key `k` of `d`, where `k` is not yet set, copies `d[k]`. */
  lemma {:induction false} BuildBlockOf(d: Doc, k: string, acc: Doc)
    requires k in d && k !in acc
    ensures BuildFrom(acc, Block(d, k), d) == Ok(acc[k := d[k]])
    decreases Dict(d), 0
  {
    var v := d[k];
    if Descends(v) {
      var e := v.entries;
      var qs := LeafPaths(e);
      SortedKeysDistinct(e);
      BuildLeaves(e, SortedKeys(e), map[]);
      RestrictAll(e);
      EmptyPlus(e);
      LeafPathsOfNonEmpty(e, SortedKeys(e));
      BuildBlockFresh(acc, k, qs, d, e);
    } else {
      var p: Path := [k];
      assert GetPathOr(d, p, Null) == v;
      assert SetPath(acc, p, v) == Ok(acc[k := v]);
    }
  }

  /** Setting every leaf of `d` under the keys `ks`, into a document that has none
      of those keys, adds exactly those entries of `d`. */
  lemma {:induction false} BuildLeaves(d: Doc, ks: seq<string>, acc: Doc)
    requires forall i :: 0 <= i < |ks| ==> ks[i] in d && ks[i] !in acc
    requires forall i, j :: 0 <= i < j < |ks| ==> ks[i] != ks[j]
    ensures BuildFrom(acc, LeafPathsOf(d, ks), d) == Ok(acc + Restrict(d, ks))
    decreases Dict(d), |ks| + 1
  {
    if ks == [] {
      assert acc + Restrict(d, ks) == acc;
    } else {
      var k := ks[0];
      assert LeafPathsOf(d, ks) == Block(d, k) + LeafPathsOf(d, ks[1..]);
      BuildFromConcat(acc, Block(d, k), LeafPathsOf(d, ks[1..]), d);
      BuildBlockOf(d, k, acc);
      var acc1 := acc[k := d[k]];
      forall i | 0 <= i < |ks[1..]| ensures ks[1..][i] in d && ks[1..][i] !in acc1 {
        assert ks[1..][i] == ks[i + 1];
      }
      BuildLeaves(d, ks[1..], acc1);
      RestrictCons(d, ks, acc);
    }
  }

  /** Setting each leaf path of `d` to its value, in `keys_nested` order and starting
      from an empty dict, rebuilds `d`. */
  lemma {:induction false} BuildFromLeaves(d: Doc)
    ensures BuildFrom(map[], LeafPaths(d), d) == Ok(d)
  {
    var ks := SortedKeys(d);
    SortedKeysDistinct(d);
    BuildLeaves(d, ks, map[]);
    RestrictAll(d);
    EmptyPlus(d);
  }

  lemma {:induction false} RebuildAsBuild(acc: Doc, keys: seq<string>, ps: seq<Path>, flat: map<string, Value>, src: Doc)
    requires |keys| == |ps|
    requires forall i :: 0 <= i < |keys| ==> keys[i] in flat
    requires forall i :: 0 <= i < |keys| ==> Segments(keys[i]) == ps[i]
    requires forall i :: 0 <= i < |keys| ==> flat[keys[i]] == GetPathOr(src, ps[i], Null)
    ensures Rebuild(acc, keys, flat) == BuildFrom(acc, ps, src)
    decreases |keys|
  {
    if keys != [] {
      match SetKey(acc, keys[0], flat[keys[0]])
      case Err(_) =>
      case Ok(a) => RebuildAsBuild(a, keys[1..], ps[1..], flat, src);
    }
  }

  /** Rebuilding a well-formed document from its flat form with `set_key`, in
      `keys_nested` order, gives back the same document. */
  lemma RebuildFromFlat(d: Doc)
    requires WellFormedDoc(d)
    ensures AsDictFlat(d).Ok?
    ensures forall i :: 0 <= i < |KeysNested(d)| ==> KeysNested(d)[i] in AsDictFlat(d).value
    ensures Rebuild(map[], KeysNested(d), AsDictFlat(d).value) == Ok(d)
  {
    var keys := KeysNested(d);
    var ps := LeafPaths(d);
    KeysNestedSpec(d);
    AsDictFlatSpec(d);
    var f := AsDictFlat(d).value;
    forall i | 0 <= i < |keys| ensures keys[i] in f && f[keys[i]] == GetPathOr(d, ps[i], Null) {
    }
    RebuildAsBuild(map[], keys, ps, f, d);
    BuildFromLeaves(d);
  }
}
