/** Building an `AttrDict` from a freshly loaded Python dict (`AttrDict.__init__` and
    `init_from_dict`, calliope/core/attrdict.py): keys are stringified, nested dicts
    become `AttrDict`s, and every entry is stored through `set_key`, so a dotted
    source key becomes nested structure. */
module Construct {
  import opened Text
  import opened Values
  import opened Paths

  /** A key of a loaded dict: YAML gives strings, integers and booleans. */
  datatype RawKey = SKey(s: string) | IKey(i: int) | BKey(b: bool)

  /** A loaded value before conversion: dicts are plain, with their items in order. */
  datatype Raw =
    | RNull
    | RBool(b: bool)
    | RInt(i: int)
    | RStr(s: string)
    | RList(items: seq<Raw>)
    | RDict(pairs: seq<(RawKey, Raw)>)

  /** `str(k)` for an `int` key (a `bool` is an `int` in Python); strings are kept. An
      integer key becomes a single segment without a dot that reads back as the integer,
      so distinct integer keys stay distinct. */
  function KeyString(k: RawKey): (r: string)
    ensures k.SKey? ==> r == k.s
    ensures k.IKey? ==> '.' !in r && IsNumeral(r) && ParseInt(r) == k.i
    ensures k.BKey? ==> r == (if k.b then "True" else "False")
  {
    match k
    case SKey(s) => s
    case IKey(i) => IntToString(i)
    case BKey(b) => if b then "True" else "False"
  }

  /** The results of converting the items of a list: the first error, or all values. */
  function AllOk(rs: seq<Result<Value>>): (r: Result<seq<Value>>)
    ensures r.Ok? <==> forall i :: 0 <= i < |rs| ==> rs[i].Ok?
    ensures r.Ok? ==> |r.value| == |rs| && forall i :: 0 <= i < |rs| ==> r.value[i] == rs[i].value
  {
    if rs == [] then Ok([])
    else match rs[0]
      case Err(e) => Err(e)
      case Ok(v) =>
        match AllOk(rs[1..])
        case Err(e) => Err(e)
        case Ok(vs) => Ok([v] + vs)
  }

  /** The loop of `init_from_dict`: entry `i` has the key `ks[i]` and the converted
      value `rs[i]`; each is stored with `set_key` in order. */
  function InitEntries(acc: Doc, ks: seq<string>, rs: seq<Result<Value>>): Result<Doc>
    requires |ks| == |rs|
    decreases |ks|
  {
    if ks == [] then Ok(acc)
    else match rs[0]
      case Err(e) => Err(e)
      case Ok(v) =>
        match SetKey(acc, ks[0], v)
        case Err(e) => Err(e)
        case Ok(acc1) => InitEntries(acc1, ks[1..], rs[1..])
  }

  /** The stringified keys of the items of a dict. */
  function Keys(ps: seq<(RawKey, Raw)>): (ks: seq<string>)
    ensures |ks| == |ps| && forall i :: 0 <= i < |ps| ==> ks[i] == KeyString(ps[i].0)
  {
    seq(|ps|, i requires 0 <= i < |ps| => KeyString(ps[i].0))
  }

  /** A loaded value as it is stored: a dict becomes an `AttrDict` through `init_from_dict`,
      and the dict items of a list are converted. */
  function Convert(v: Raw): Result<Value>
    decreases v
  {
    match v
    case RNull => Ok(Null)
    case RBool(b) => Ok(Bool(b))
    case RInt(i) => Ok(Int(i))
    case RStr(s) => Ok(Str(s))
    case RList(xs) =>
      (match AllOk(seq(|xs|, i requires 0 <= i < |xs| => Convert(xs[i])))
       case Err(e) => Err(e)
       case Ok(vs) => Ok(List(vs)))
    case RDict(ps) =>
      match InitEntries(map[], Keys(ps), seq(|ps|, i requires 0 <= i < |ps| => Convert(ps[i].1)))
      case Err(e) => Err(e)
      case Ok(d) => Ok(Dict(d))
  }

  /** `AttrDict(source_dict)`: `None`, the default, gives an empty `AttrDict`; any other
      value that is not a dict is refused. */
  function FromRaw(src: Raw): (r: Result<Doc>)
    ensures src.RNull? ==> r == Ok(map[])
    ensures !src.RNull? && !src.RDict? ==> r == Err(NotADict)
    ensures src.RDict? ==> (r.Ok? <==> Convert(src).Ok?)
    ensures src.RDict? && r.Ok? ==> Convert(src) == Ok(Dict(r.value))
  {
    if src.RNull? then Ok(map[])
    else if src.RDict? then
      match Convert(src)
      case Err(e) => Err(e)
      case Ok(v) => if v.Dict? then Ok(v.entries) else assert false; Err(NotADict)
    else Err(NotADict)
  }

  // ----- the loop of init_from_dict -----

  /** One more entry at the end is one more `set_key` on the dict built so far. */
  lemma {:induction false} InitEntriesAppend(acc: Doc, ks: seq<string>, rs: seq<Result<Value>>, k: string, r: Result<Value>)
    requires |ks| == |rs|
    ensures InitEntries(acc, ks + [k], rs + [r]) == match InitEntries(acc, ks, rs)
      case Err(e) => Err(e)
      case Ok(d) => (match r case Err(e) => Err(e) case Ok(v) => SetKey(d, k, v))
    decreases |ks|
  {
    if ks == [] {
      assert ks + [k] == [k] && rs + [r] == [r];
    } else {
      assert (ks + [k])[1..] == ks[1..] + [k];
      assert (rs + [r])[1..] == rs[1..] + [r];
      match rs[0]
      case Err(_) =>
      case Ok(v) =>
        match SetKey(acc, ks[0], v)
        case Err(_) =>
        case Ok(acc1) => InitEntriesAppend(acc1, ks[1..], rs[1..], k, r);
    }
  }

  /** The last entry of a dict is readable at its (dotted) key unless it is a dict,
      which `set_key` merges into what the earlier entries built. */
  lemma LastEntryWins(acc: Doc, ks: seq<string>, rs: seq<Result<Value>>, k: string, v: Value)
    requires |ks| == |rs| && !v.Dict?
    requires InitEntries(acc, ks + [k], rs + [Ok(v)]).Ok?
    ensures GetKey(InitEntries(acc, ks + [k], rs + [Ok(v)]).value, k) == Ok(v)
  {
    InitEntriesAppend(acc, ks, rs, k, Ok(v));
    SetKeyThenGetKey(InitEntries(acc, ks, rs).value, k, v);
  }

  // ----- what a single entry becomes -----

  /** `set_key` on an empty dict builds the nested path. */
  lemma {:induction false} SetPathEmpty(p: Path, v: Value)
    ensures SetPath(map[], p, v) == Ok(Nest(p, v))
  {
  }

  /** A one-entry dict is stored as the nested path of its stringified key. */
  lemma SingleEntry(k: RawKey, v: Raw)
    requires Convert(v).Ok?
    ensures Convert(RDict([(k, v)])) == Ok(Dict(Nest(Segments(KeyString(k)), Convert(v).value)))
  {
    var ps := [(k, v)];
    var rs := seq(|ps|, i requires 0 <= i < |ps| => Convert(ps[i].1));
    assert rs == [Convert(v)];
    assert Keys(ps) == [KeyString(k)];
    var p := Segments(KeyString(k));
    var cv := Convert(v).value;
    SetPathEmpty(p, cv);
    assert SetKey(map[], KeyString(k), cv) == Ok(Nest(p, cv));
    assert InitEntries(map[], [KeyString(k)], [Convert(v)]) == InitEntries(Nest(p, cv), [], []);
  }

  /** An integer key is stored as its decimal string. */
  lemma IntKeyStringified(i: int, v: Raw)
    requires Convert(v).Ok?
    ensures Convert(RDict([(IKey(i), v)])) == Ok(Dict(map[IntToString(i) := Convert(v).value]))
  {
    SingleEntry(IKey(i), v);
    assert Segments(IntToString(i)) == [IntToString(i)];
  }

  /** A dotted key `a.b` is stored as `a` holding a dict with `b`. */
  lemma DottedKeyNests(a: string, b: string, v: Raw)
    requires '.' !in a && '.' !in b && Convert(v).Ok?
    ensures Convert(RDict([(SKey(a + "." + b), v)]))
         == Ok(Dict(map[a := Dict(map[b := Convert(v).value])]))
  {
    var key := a + "." + b;
    SingleEntry(SKey(key), v);
    assert Dotted([a, b]) == key by {
      assert JoinWith('.', [a, b][1..]) == b;
    }
    DottedSegments([a, b]);
    var p: Path := [a, b];
    assert Segments(key) == p;
    assert p[1..] == [b];
    assert Nest(p, Convert(v).value) == map[a := Dict(map[b := Convert(v).value])];
  }

  // ----- well-formedness -----

  lemma {:induction false} InitEntriesWellFormed(acc: Doc, ks: seq<string>, rs: seq<Result<Value>>)
    requires |ks| == |rs| && WellFormedDoc(acc)
    requires forall i :: 0 <= i < |rs| && rs[i].Ok? ==> WellFormed(rs[i].value)
    requires InitEntries(acc, ks, rs).Ok?
    ensures WellFormedDoc(InitEntries(acc, ks, rs).value)
    decreases |ks|
  {
    if ks != [] {
      var v := rs[0].value;
      SetPathWellFormed(acc, Segments(ks[0]), v);
      InitEntriesWellFormed(SetKey(acc, ks[0], v).value, ks[1..], rs[1..]);
    }
  }

  /** Every key stored by `init_from_dict`, at every depth, is free of '.'. */
  lemma {:induction false} ConvertWellFormed(v: Raw)
    requires Convert(v).Ok?
    ensures WellFormed(Convert(v).value)
    decreases v
  {
    match v
    case RList(xs) =>
      var rs := seq(|xs|, i requires 0 <= i < |xs| => Convert(xs[i]));
      assert AllOk(rs).Ok?;
      forall i | 0 <= i < |xs| ensures WellFormed(Convert(v).value.items[i]) {
        assert rs[i].Ok?;
        ConvertWellFormed(xs[i]);
      }
    case RDict(ps) =>
      var rs := seq(|ps|, i requires 0 <= i < |ps| => Convert(ps[i].1));
      forall i | 0 <= i < |rs| && rs[i].Ok? ensures WellFormed(rs[i].value) {
        ConvertWellFormed(ps[i].1);
      }
      InitEntriesWellFormed(map[], Keys(ps), rs);
    case _ =>
  }
}
