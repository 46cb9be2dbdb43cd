/** Dotted-path access to an `AttrDict` (calliope/core/attrdict.py): `get_key`,
    `set_key` and `del_key`, on the document as a value. A dotted key is handled
    as its list of segments; `key.split(".", 1)` repeated is `Text.Segments`. */
module Paths {
  import opened Text
  import opened Values

  /** The segments of a dotted key: never empty. */
  type Path = p: seq<string> | |p| >= 1 witness [""]

  /** Stepwise lookup: follow the segments through nested dicts. */
  function Find(d: Doc, p: Path): Option<Value>
    decreases |p|
  {
    if p[0] !in d then None
    else if |p| == 1 then Some(d[p[0]])
    else match d[p[0]]
      case Dict(m) => Find(m, p[1..])
      case _ => None
  }

  /** `get_key(key)` without a default, on the segments of `key`: a missing segment
      raises KeyError for that segment, a non-dict intermediate has no `get_key`. */
  function GetPath(d: Doc, p: Path): (r: Result<Value>)
    ensures r.Ok? <==> Find(d, p).Some?
    ensures r.Ok? ==> Find(d, p) == Some(r.value)
    ensures r.Err? ==> r.error.KeyNotFound? || r.error == NoAttribute
    decreases |p|
  {
    if p[0] !in d then Err(KeyNotFound(Str(p[0])))
    else if |p| == 1 then Ok(d[p[0]])
    else match d[p[0]]
      case Dict(m) => GetPath(m, p[1..])
      case _ => Err(NoAttribute)
  }

  function GetKey(d: Doc, key: string): Result<Value> {
    GetPath(d, Segments(key))
  }

  /** `get_key(key, default)`: both exceptions of the nested lookup are caught. */
  function GetPathOr(d: Doc, p: Path, default: Value): (r: Value)
    ensures r == match Find(d, p) case Some(v) => v case None => default
    decreases |p|
  {
    if |p| == 1 then (if p[0] in d then d[p[0]] else default)
    else if p[0] !in d then default
    else match d[p[0]]
      case Dict(m) => GetPathOr(m, p[1..], default)
      case _ => default
  }

  function GetKeyOr(d: Doc, key: string, default: Value): Value {
    GetPathOr(d, Segments(key), default)
  }

  /** What the first `i` segments of `p` lead to: the document itself when `i` is 0. */
  function Reach(d: Doc, p: Path, i: nat): Option<Value>
    requires i < |p|
  {
    if i == 0 then Some(Dict(d)) else Find(d, p[..i])
  }

  /** The lookup of segment `k` in `v` fails with `e`: a dict without `k` raises KeyError
      for `k`, anything else has no `get_key`. */
  predicate StuckAt(v: Value, k: string, e: Error) {
    if v.Dict? then k !in v.entries && e == KeyNotFound(Str(k)) else e == NoAttribute
  }

  /** A failed `get_key` stops at a segment the walk reached: KeyError names the segment
      missing from the dict reached there, AttributeError means a non-dict was reached. */
  lemma {:induction false} GetPathError(d: Doc, p: Path)
    requires GetPath(d, p).Err?
    ensures exists i :: 0 <= i < |p| && Reach(d, p, i).Some? && StuckAt(Reach(d, p, i).value, p[i], GetPath(d, p).error)
    decreases |p|
  {
    if p[0] !in d {
      assert Reach(d, p, 0) == Some(Dict(d));
    } else {
      assert p[..1] == [p[0]];
      match d[p[0]]
      case Dict(m) =>
        GetPathError(m, p[1..]);
        var j :| 0 <= j < |p[1..]| && Reach(m, p[1..], j).Some? && StuckAt(Reach(m, p[1..], j).value, p[1..][j], GetPath(m, p[1..]).error);
        if j > 0 {
          assert p[..j + 1][1..] == p[1..][..j];
        }
        assert Reach(d, p, j + 1) == Reach(m, p[1..], j);
      case _ =>
        assert Reach(d, p, 1) == Some(d[p[0]]);
    }
  }

  /** Conversely, a walk that reaches a value it cannot step through fails with that error. */
  lemma {:induction false} GetPathStuck(d: Doc, p: Path, i: nat, e: Error)
    requires i < |p| && Reach(d, p, i).Some? && StuckAt(Reach(d, p, i).value, p[i], e)
    ensures GetPath(d, p) == Err(e)
    decreases i
  {
    if i > 0 {
      assert p[..i][0] == p[0];
      var m := d[p[0]];
      if i == 1 {
        assert p[..1] == [p[0]];
        if m.Dict? {
          GetPathStuck(m.entries, p[1..], 0, e);
        }
      } else {
        assert p[..i][1..] == p[1..][..i - 1];
        assert Reach(m.entries, p[1..], i - 1) == Reach(d, p, i);
        GetPathStuck(m.entries, p[1..], i - 1, e);
      }
    }
  }

  /** Without a default, a missing first segment raises KeyError for that segment. */
  lemma GetKeyMissing(d: Doc, key: string)
    requires Segments(key)[0] !in d
    ensures GetKey(d, key) == Err(KeyNotFound(Str(Segments(key)[0])))
  {
  }

  /** With a default, `get_key` returns the value exactly when the lookup without a
      default succeeds, and the default otherwise. */
  lemma GetKeyOrAgrees(d: Doc, key: string, default: Value)
    ensures GetKey(d, key).Ok? ==> GetKeyOr(d, key, default) == GetKey(d, key).value
    ensures GetKey(d, key).Err? ==> GetKeyOr(d, key, default) == default
  {
  }

  /** Lookup along `p + q` is lookup along `p`, then along `q` inside the dict found. */
  lemma {:induction false} FindConcat(d: Doc, p: Path, q: Path)
    ensures Find(d, p + q) == match Find(d, p)
      case Some(Dict(m)) => Find(m, q)
      case _ => None
    decreases |p|
  {
    assert (p + q)[0] == p[0];
    if |p| > 1 && p[0] in d && d[p[0]].Dict? {
      assert (p + q)[1..] == p[1..] + q;
      FindConcat(d[p[0]].entries, p[1..], q);
    } else if |p| == 1 {
      assert (p + q)[1..] == q;
    }
  }

  /** `get_key("a.b")` with dot-free `a` is `get_key("b")` on the dict under `a`. */
  lemma GetKeyStepwise(d: Doc, a: string, b: string)
    requires '.' !in a
    ensures GetKey(d, a + "." + b) == match GetKey(d, a)
      case Ok(Dict(m)) => GetKey(m, b)
      case Ok(_) => Err(NoAttribute)
      case Err(e) => Err(e)
  {
    var s := a + "." + b;
    assert s[|a|] == '.' && s[..|a|] == a;
    var i := IndexOf(s, '.');
    assert s[..i + 1][|a|] == '.' ==> i <= |a|;
    assert i == |a|;
    assert s[i + 1..] == b;
    assert Segments(s) == [a] + Segments(b);
    assert Segments(a) == [a];
  }

  // ----- set_key -----

  /** Storing `v` at a key that already holds `prev`: a dict `v` is merged into the
      dict there key by key, anything else replaces it. A non-empty dict merged onto
      a non-dict calls `set_key` on that value, which has no such method. */
  function Overlay(prev: Value, v: Value): (r: Result<Value>)
    ensures r.Err? ==> r.error == NoAttribute
    decreases v, 1
  {
    if !v.Dict? then Ok(v)
    else if v.entries == map[] then Ok(prev)
    else if !prev.Dict? then Err(NoAttribute)
    else MergeEntries(prev.entries, v.entries)
  }

  /** `for k, v in value.items(): self[key].set_key(k, v)` on the dict `m` already there. */
  function MergeEntries(m: Doc, n: Doc): (r: Result<Value>)
    ensures r.Err? ==> r.error == NoAttribute
    decreases Dict(n), 0
  {
    if exists k :: k in n && k in m && Overlay(m[k], n[k]).Err? then Err(NoAttribute)
    else Ok(Dict(map k | k in m.Keys + n.Keys ::
      if k in n then (if k in m then Overlay(m[k], n[k]).value else n[k]) else m[k]))
  }

  /** Dicts with no key in common merge into their union. */
  lemma MergeEntriesDisjoint(m: Doc, n: Doc)
    requires m.Keys !! n.Keys
    ensures MergeEntries(m, n) == Ok(Dict(m + n))
  {
    assert forall k :: !(k in n && k in m);
    var r := MergeEntries(m, n);
    assert r.Ok?;
    forall k | k in m.Keys + n.Keys ensures k in r.value.entries && r.value.entries[k] == (m + n)[k] {
      if k in n {
        assert k !in m;
      }
    }
    assert r.value.entries.Keys == (m + n).Keys;
    assert r.value.entries == m + n;
    assert r == Ok(Dict(r.value.entries));
  }

  /** The last segment: merge into an existing key, otherwise assign. */
  function Assign(d: Doc, k: string, v: Value): Result<Doc> {
    if k in d then
      match Overlay(d[k], v)
      case Ok(x) => Ok(d[k := x])
      case Err(e) => Err(e)
    else Ok(d[k := v])
  }

  /** The document holding only `v` at `p`: what `set_key` builds in a fresh `AttrDict`. */
  function Nest(p: Path, v: Value): (r: Doc)
    ensures r.Keys == {p[0]}
    ensures Find(r, p) == Some(v)
  {
    if |p| == 1 then map[p[0] := v] else map[p[0] := Dict(Nest(p[1..], v))]
  }

  /** `set_key`, as evidently intended: a missing or `None` intermediate becomes a
      fresh dict; any other non-dict intermediate, at any depth, raises KeyError
      "Cannot set nested key on non-dict key.". */
  function SetPath(d: Doc, p: Path, v: Value): (r: Result<Doc>)
    ensures r.Err? ==> r.error == NonDictKey || r.error == NoAttribute
    decreases |p|
  {
    if |p| == 1 then Assign(d, p[0], v)
    else
      var k := p[0];
      if k !in d || d[k].Null? then Ok(d[k := Dict(Nest(p[1..], v))])
      else if d[k].Dict? then
        match SetPath(d[k].entries, p[1..], v)
        case Ok(m) => Ok(d[k := Dict(m)])
        case Err(_) => Err(NonDictKey)
      else Err(NonDictKey)
  }

  function SetKey(d: Doc, key: string, v: Value): Result<Doc> {
    SetPath(d, Segments(key), v)
  }

  /** `set_key` as written: its `except KeyError` also catches the "Cannot set nested
      key" KeyError raised one level further down, then wipes the dict at this level
      and sets the key in a fresh one. */
  function SetPathAsWritten(d: Doc, p: Path, v: Value): Result<Doc>
    decreases |p|
  {
    if |p| == 1 then Assign(d, p[0], v)
    else
      var k := p[0];
      if k !in d || d[k].Null? then Ok(d[k := Dict(Nest(p[1..], v))])
      else if d[k].Dict? then
        match SetPathAsWritten(d[k].entries, p[1..], v)
        case Ok(m) => Ok(d[k := Dict(m)])
        case Err(e) => if IsKeyError(e) then Ok(d[k := Dict(Nest(p[1..], v))]) else Err(NonDictKey)
      else Err(NonDictKey)
  }

  /** `{"a": {"b": 1, "x": 5}}.set_key("a.b.c", 2)` loses `a.x` as written; the
      intended behaviour raises. */
  lemma SetPathAsWrittenLosesSiblings()
    ensures SetPathAsWritten(map["a" := Dict(map["b" := Int(1), "x" := Int(5)])], ["a", "b", "c"], Int(2))
         == Ok(map["a" := Dict(map["b" := Dict(map["c" := Int(2)])])])
    ensures SetPath(map["a" := Dict(map["b" := Int(1), "x" := Int(5)])], ["a", "b", "c"], Int(2))
         == Err(NonDictKey)
  {
    var inner := map["b" := Int(1), "x" := Int(5)];
    var p: Path := ["a", "b", "c"];
    assert p[1..] == ["b", "c"];
    var q: Path := ["b", "c"];
    assert q[1..] == ["c"];
    assert SetPathAsWritten(inner, q, Int(2)) == Err(NonDictKey);
    assert SetPath(inner, q, Int(2)) == Err(NonDictKey);
    assert Nest(q, Int(2)) == map["b" := Dict(map["c" := Int(2)])];
    var d := map["a" := Dict(inner)];
    assert d["a" := Dict(Nest(q, Int(2)))] == map["a" := Dict(map["b" := Dict(map["c" := Int(2)])])];
    assert SetPathAsWritten(d, p, Int(2)) == Ok(d["a" := Dict(Nest(q, Int(2)))]);
  }

  /** A strict prefix `p[..i]` of the path holds a value that is neither a dict nor `None`. */
  ghost predicate BlockedAt(d: Doc, q: Path) {
    Find(d, q).Some? && !Find(d, q).value.Dict? && !Find(d, q).value.Null?
  }

  ghost predicate Blocked(d: Doc, p: Path) {
    exists i :: 1 <= i < |p| && BlockedAt(d, p[..i])
  }

  /** The value already at `p` cannot take `v` merged onto it. */
  ghost predicate MergeConflict(d: Doc, p: Path, v: Value) {
    Find(d, p).Some? && Overlay(Find(d, p).value, v).Err?
  }

  /** Lookup along a prefix of length at least 2 goes through the first segment. */
  lemma PrefixStep(d: Doc, p: Path, i: nat)
    requires 2 <= i <= |p| && p[0] in d && d[p[0]].Dict?
    ensures Find(d, p[..i]) == Find(d[p[0]].entries, p[1..][..i - 1])
  {
    assert p[..i][1..] == p[1..][..i - 1];
  }

  /** `set_key` fails exactly when a strict prefix holds a non-dict, non-`None` value,
      or the value at the path cannot be merged with. */
  lemma {:induction false} SetPathErrorIff(d: Doc, p: Path, v: Value)
    ensures SetPath(d, p, v).Err? <==> Blocked(d, p) || MergeConflict(d, p, v)
    decreases |p|
  {
    if |p| > 1 {
      var k := p[0];
      if k !in d || d[k].Null? {
      } else if d[k].Dict? {
        var m := d[k].entries;
        SetPathErrorIff(m, p[1..], v);
        if Blocked(d, p) {
          var i :| 1 <= i < |p| && BlockedAt(d, p[..i]);
          assert p[..1] == [k];
          PrefixStep(d, p, i);
          assert BlockedAt(m, p[1..][..i - 1]);
        }
        if Blocked(m, p[1..]) {
          var j :| 1 <= j < |p| - 1 && BlockedAt(m, p[1..][..j]);
          PrefixStep(d, p, j + 1);
          assert BlockedAt(d, p[..j + 1]);
        }
      } else {
        assert p[..1] == [k];
        assert BlockedAt(d, p[..1]);
      }
    }
  }

  /** After a successful `set_key`, the path holds `v`, merged onto what was there. */
  lemma {:induction false} SetPathGet(d: Doc, p: Path, v: Value)
    requires SetPath(d, p, v).Ok?
    ensures Find(d, p).Some? ==> Overlay(Find(d, p).value, v).Ok?
    ensures Find(SetPath(d, p, v).value, p)
         == Some(if Find(d, p).Some? then Overlay(Find(d, p).value, v).value else v)
    decreases |p|
  {
    if |p| > 1 && p[0] in d && d[p[0]].Dict? {
      SetPathGet(d[p[0]].entries, p[1..], v);
    }
  }

  /** `set_key(key, v)` followed by `get_key(key)` gives back a non-dict `v`. */
  lemma SetKeyThenGetKey(d: Doc, key: string, v: Value)
    requires SetKey(d, key, v).Ok? && !v.Dict?
    ensures GetKey(SetKey(d, key, v).value, key) == Ok(v)
  {
    SetPathGet(d, Segments(key), v);
  }

  /** Neither path is a prefix of the other. */
  predicate Diverge(p: seq<string>, q: seq<string>) {
    |p| > 0 && |q| > 0 && (p[0] != q[0] || Diverge(p[1..], q[1..]))
  }

  lemma {:induction false} DivergeSymmetric(p: seq<string>, q: seq<string>)
    requires Diverge(p, q)
    ensures Diverge(q, p)
  {
    if p[0] == q[0] {
      DivergeSymmetric(p[1..], q[1..]);
    }
  }

  /** Whatever a well-formed document holds is well-formed. */
  lemma {:induction false} FindWellFormed(d: Doc, p: Path)
    requires WellFormedDoc(d) && Find(d, p).Some?
    ensures WellFormed(Find(d, p).value)
    decreases |p|
  {
    if |p| > 1 {
      FindWellFormed(d[p[0]].entries, p[1..]);
    }
  }

  lemma {:induction false} FindNestDiverge(p: Path, q: Path, v: Value)
    requires Diverge(p, q)
    ensures Find(Nest(p, v), q) == None
    decreases |p|
  {
    if p[0] == q[0] && |q| > 1 && |p| > 1 {
      FindNestDiverge(p[1..], q[1..], v);
    }
  }

  /** `set_key` changes nothing at a path that diverges from the one it sets. */
  lemma {:induction false} SetPathFrame(d: Doc, p: Path, q: Path, v: Value)
    requires SetPath(d, p, v).Ok? && Diverge(p, q)
    ensures Find(SetPath(d, p, v).value, q) == Find(d, q)
    decreases |p|
  {
    if |p| > 1 && p[0] == q[0] {
      var k := p[0];
      if k !in d || d[k].Null? {
        FindNestDiverge(p[1..], q[1..], v);
      } else {
        SetPathFrame(d[k].entries, p[1..], q[1..], v);
      }
    }
  }

  /** `set_key` adds the first segment to the top-level keys and removes none. */
  lemma SetPathKeys(d: Doc, p: Path, v: Value)
    requires SetPath(d, p, v).Ok?
    ensures SetPath(d, p, v).value.Keys == d.Keys + {p[0]}
  {
  }

  /** The paths that a dict `n` merged onto a key leaves alone: absent from `n`, or
      under an empty dict of `n`, or under a key of `n` whose dict leaves them alone. */
  predicate Untouched(n: Doc, q: Path)
    decreases |q|
  {
    q[0] !in n || n[q[0]] == Dict(map[])
      || (|q| > 1 && n[q[0]].Dict? && Untouched(n[q[0]].entries, q[1..]))
  }

  /** The shape of a successful merge: every key of either dict, the new dict's
      entries merged onto the old ones, the old dict's other entries unchanged. */
  lemma MergeEntriesShape(m: Doc, n: Doc)
    ensures MergeEntries(m, n).Ok? <==> forall k :: k in n && k in m ==> Overlay(m[k], n[k]).Ok?
    ensures MergeEntries(m, n).Ok? ==>
      var r := MergeEntries(m, n).value;
      r.Dict? && r.entries.Keys == m.Keys + n.Keys
      && (forall k :: k in n && k in m ==> r.entries[k] == Overlay(m[k], n[k]).value)
      && (forall k :: k in n && k !in m ==> r.entries[k] == n[k])
      && (forall k :: k in m && k !in n ==> r.entries[k] == m[k])
  {
  }

  /** Merging changes nothing when every entry merges onto itself unchanged. */
  lemma MergeEntriesFixed(m: Doc, n: Doc)
    requires n.Keys <= m.Keys
    requires forall k :: k in n ==> Overlay(m[k], n[k]) == Ok(m[k])
    ensures MergeEntries(m, n) == Ok(Dict(m))
  {
    MergeEntriesShape(m, n);
    var r := MergeEntries(m, n).value.entries;
    assert r.Keys == m.Keys;
    assert forall k :: k in m ==> r[k] == m[k];
    assert r == m;
  }

  /** Merging a dict keeps every value of the old dict that the new one leaves alone:
      siblings already there survive. */
  lemma {:induction false} OverlayKeeps(m: Doc, n: Doc, q: Path, w: Value)
    requires Overlay(Dict(m), Dict(n)).Ok?
    requires Find(m, q) == Some(w) && Untouched(n, q)
    ensures Overlay(Dict(m), Dict(n)).value.Dict?
    ensures Find(Overlay(Dict(m), Dict(n)).value.entries, q) == Some(w)
    decreases |q|
  {
    if n != map[] {
      MergeEntriesShape(m, n);
      var r := Overlay(Dict(m), Dict(n)).value.entries;
      var k := q[0];
      assert k in m;
      if k in n && n[k] != Dict(map[]) {
        assert |q| > 1 && n[k].Dict? && Untouched(n[k].entries, q[1..]);
        OverlayKeeps(m[k].entries, n[k].entries, q[1..], w);
      } else {
        assert r[k] == m[k];
      }
    }
  }

  /** Merging a dict writes each of its non-dict values at its path. */
  lemma {:induction false} OverlayWins(prev: Value, n: Doc, q: Path, w: Value)
    requires Overlay(prev, Dict(n)).Ok?
    requires Find(n, q) == Some(w) && !w.Dict?
    ensures Overlay(prev, Dict(n)).value.Dict?
    ensures Find(Overlay(prev, Dict(n)).value.entries, q) == Some(w)
    decreases |q|
  {
    var m := prev.entries;
    MergeEntriesShape(m, n);
    var k := q[0];
    if |q| > 1 && k in m {
      OverlayWins(m[k], n[k].entries, q[1..], w);
    }
  }

  /** Merging a value onto itself changes nothing. */
  lemma {:induction false} OverlaySelf(v: Value)
    ensures Overlay(v, v) == Ok(v)
    decreases v
  {
    if v.Dict? && v.entries != map[] {
      var n := v.entries;
      forall k | k in n ensures Overlay(n[k], n[k]) == Ok(n[k]) {
        OverlaySelf(n[k]);
      }
      MergeEntriesFixed(n, n);
    }
  }

  /** Merging the same value twice is merging it once. */
  lemma {:induction false} OverlayIdempotent(prev: Value, v: Value)
    requires Overlay(prev, v).Ok?
    ensures Overlay(Overlay(prev, v).value, v) == Overlay(prev, v)
    decreases v
  {
    if v.Dict? && v.entries != map[] {
      var m := prev.entries;
      var n := v.entries;
      MergeEntriesShape(m, n);
      var r := Overlay(prev, v).value.entries;
      forall k | k in n ensures Overlay(r[k], n[k]) == Ok(r[k]) {
        if k in m {
          OverlayIdempotent(m[k], n[k]);
        } else {
          OverlaySelf(n[k]);
        }
      }
      MergeEntriesFixed(r, n);
    } else if !v.Dict? {
      OverlaySelf(v);
    }
  }

  /** Setting the same key to the same value twice is setting it once. */
  lemma {:induction false} SetPathIdempotent(d: Doc, p: Path, v: Value)
    requires SetPath(d, p, v).Ok?
    ensures SetPath(SetPath(d, p, v).value, p, v) == SetPath(d, p, v)
    decreases |p|
  {
    var k := p[0];
    var d1 := SetPath(d, p, v).value;
    if |p| == 1 {
      if k in d {
        OverlayIdempotent(d[k], v);
      } else {
        OverlaySelf(v);
      }
      assert d1[k := d1[k]] == d1;
    } else if k !in d || d[k].Null? {
      var n := Nest(p[1..], v);
      NestSet(p[1..], v);
      assert d1[k := Dict(n)] == d1;
    } else {
      SetPathIdempotent(d[k].entries, p[1..], v);
      var m1 := SetPath(d[k].entries, p[1..], v).value;
      assert d1[k := Dict(m1)] == d1;
    }
  }

  /** Setting `v` at `p` in the document that holds only `v` at `p` changes nothing. */
  lemma {:induction false} NestSet(p: Path, v: Value)
    ensures SetPath(Nest(p, v), p, v) == Ok(Nest(p, v))
    decreases |p|
  {
    var k := p[0];
    if |p| == 1 {
      OverlaySelf(v);
      assert map[k := v][k := v] == map[k := v];
    } else {
      NestSet(p[1..], v);
      var n := Nest(p[1..], v);
      assert map[k := Dict(n)][k := Dict(n)] == map[k := Dict(n)];
    }
  }

  lemma {:induction false} OverlayWellFormed(prev: Value, v: Value)
    requires WellFormed(prev) && WellFormed(v) && Overlay(prev, v).Ok?
    ensures WellFormed(Overlay(prev, v).value)
    decreases v
  {
    if v.Dict? && v.entries != map[] {
      var m := prev.entries;
      var n := v.entries;
      var r := Overlay(prev, v).value.entries;
      forall k | k in r ensures '.' !in k && WellFormed(r[k]) {
        if k in n && k in m {
          OverlayWellFormed(m[k], n[k]);
        }
      }
    }
  }

  lemma {:induction false} NestWellFormed(p: Path, v: Value)
    requires DotFree(p) && WellFormed(v)
    ensures WellFormedDoc(Nest(p, v))
    decreases |p|
  {
    if |p| > 1 {
      NestWellFormed(p[1..], v);
    }
  }

  /** `set_key` with dot-free segments keeps every stored key dot-free. */
  lemma {:induction false} SetPathWellFormed(d: Doc, p: Path, v: Value)
    requires WellFormedDoc(d) && DotFree(p) && WellFormed(v) && SetPath(d, p, v).Ok?
    ensures WellFormedDoc(SetPath(d, p, v).value)
    decreases |p|
  {
    var k := p[0];
    if |p| == 1 {
      if k in d {
        OverlayWellFormed(d[k], v);
      }
    } else if k !in d || d[k].Null? {
      NestWellFormed(p[1..], v);
    } else {
      SetPathWellFormed(d[k].entries, p[1..], v);
    }
  }

  // ----- del_key -----

  /** `del_key`: delete the addressed entry, then every ancestor left empty. A missing
      segment raises KeyError; a non-dict intermediate raises TypeError (`del` on a
      value that is not a mapping). */
  function DelPath(d: Doc, p: Path): (r: Result<Doc>)
    ensures r.Err? ==> r.error.KeyNotFound? || r.error == NotDeletable
    decreases |p|
  {
    if p[0] !in d then Err(KeyNotFound(Str(p[0])))
    else if |p| == 1 then Ok(d - {p[0]})
    else match d[p[0]]
      case Dict(m) =>
        (match DelPath(m, p[1..])
         case Err(e) => Err(e)
         case Ok(m1) => Ok(if |m1| == 0 then d - {p[0]} else d[p[0] := Dict(m1)]))
      case _ => Err(NotDeletable)
  }

  function DelKey(d: Doc, key: string): Result<Doc> {
    DelPath(d, Segments(key))
  }

  /** `del_key` fails exactly when there is nothing at the path. */
  lemma {:induction false} DelPathErrorIff(d: Doc, p: Path)
    ensures DelPath(d, p).Err? <==> Find(d, p).None?
    decreases |p|
  {
    if |p| > 1 && p[0] in d && d[p[0]].Dict? {
      DelPathErrorIff(d[p[0]].entries, p[1..]);
    }
  }

  /** After `del_key` nothing is left at the path. */
  lemma {:induction false} DelPathRemoves(d: Doc, p: Path)
    requires DelPath(d, p).Ok?
    ensures Find(DelPath(d, p).value, p).None?
    decreases |p|
  {
    if |p| > 1 {
      DelPathRemoves(d[p[0]].entries, p[1..]);
    }
  }

  /** `del_key` changes nothing at a path that diverges from the one it deletes. */
  lemma {:induction false} DelPathFrame(d: Doc, p: Path, q: Path)
    requires DelPath(d, p).Ok? && Diverge(p, q)
    ensures Find(DelPath(d, p).value, q) == Find(d, q)
    decreases |p|
  {
    if |p| > 1 && p[0] == q[0] {
      var m := d[p[0]].entries;
      DelPathFrame(m, p[1..], q[1..]);
      var m1 := DelPath(m, p[1..]).value;
      if |m1| == 0 {
        assert q[1..][0] !in m1;
      }
    }
  }

  /** After `del_key`, every ancestor of the path that is still there is a non-empty dict. */
  lemma {:induction false} DelPathPrunes(d: Doc, p: Path, i: nat)
    requires DelPath(d, p).Ok? && 1 <= i < |p|
    requires Find(DelPath(d, p).value, p[..i]).Some?
    ensures Find(DelPath(d, p).value, p[..i]).value.Dict?
    ensures |Find(DelPath(d, p).value, p[..i]).value.entries| > 0
    decreases |p|
  {
    var k := p[0];
    var m := d[k].entries;
    var m1 := DelPath(m, p[1..]).value;
    var d1 := DelPath(d, p).value;
    assert d1[k] == Dict(m1);
    if i == 1 {
      assert p[..1] == [k];
    } else {
      PrefixStep(d1, p, i);
      DelPathPrunes(m, p[1..], i - 1);
    }
  }
}
