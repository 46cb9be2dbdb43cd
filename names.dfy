/** `_get_names` (calliope/preprocess/model_run.py): the `file=`/`df=` references of a
    flattened configuration, as the set of `(source, name)` pairs to load and the set
    of variables they feed. */
module Names {
  import opened Text
  import opened Values
  import Techs

  /** The pairs `(before '=', name)` and the variable names. */
  datatype Found = Found(tsnames: set<(string, string)>, tsvars: set<string>)

  /** `"=" in str(v)`. `str` of a list or dict spells out every string inside it
      (keys included); numbers, booleans and `None` never contain '='. */
  predicate Mentions(v: Value) {
    match v
    case Str(s) => '=' in s
    case List(xs) => exists i :: 0 <= i < |xs| && Mentions(xs[i])
    case Dict(m) => exists k :: k in m && ('=' in k || Mentions(m[k]))
    case _ => false
  }

  /** A value whose `str` contains '=' but which is not a string has no `split`. */
  predicate Fails(v: Value) {
    Mentions(v) && !v.Str?
  }

  /** A string value naming a file or dataframe. */
  predicate Refers(v: Value) {
    v.Str? && '=' in v.s
  }

  /** `(v.split("=")[0], v.split("=")[1].rsplit(":", 1)[0])`. */
  function Pair(s: string): (string, string)
    requires '=' in s
  {
    var parts := SplitOn(s, '=');
    (parts[0], BeforeLast(parts[1], ':'))
  }

  /** The variable a key feeds: `cost_<last>` under `.costs.`, `carrier_ratios`
      under `.carrier_ratios.`, otherwise the last segment of the key. */
  function VarName(k: string): string {
    if Contains(k, ".costs.") then "cost_" + AfterLast(k, '.')
    else if Contains(k, ".carrier_ratios.") then "carrier_ratios"
    else AfterLast(k, '.')
  }

  /** What the entries under `keys` contribute. */
  function NamesIn(config: Doc, keys: set<string>): set<(string, string)> {
    set k | k in keys && k in config && Refers(config[k]) :: Pair(config[k].s)
  }

  function VarsIn(config: Doc, keys: set<string>): set<string> {
    set k | k in keys && k in config && Refers(config[k]) :: VarName(k)
  }

  /** `_get_names(config)`: an `AttributeError` when some value that is not a string
      mentions '=', otherwise every reference and its variable. The result does not
      depend on the order of the entries. */
  function NamesOf(config: Doc): Result<Found> {
    if exists k :: k in config && Fails(config[k]) then Err(NoAttribute)
    else Ok(Found(NamesIn(config, config.Keys), VarsIn(config, config.Keys)))
  }

  /** The loop of `_get_names` over `config.items()`. */
  method GetNames(config: Doc) returns (r: Result<Found>)
    ensures r == NamesOf(config)
  {
    var tsnames: set<(string, string)> := {};
    var tsvars: set<string> := {};
    var rest := config.Keys;
    ghost var done: set<string> := {};
    while rest != {}
      invariant rest <= config.Keys && done <= config.Keys
      invariant forall x :: x in config ==> (x in done <==> x !in rest)
      invariant tsnames == NamesIn(config, done)
      invariant tsvars == VarsIn(config, done)
      invariant forall k :: k in done ==> !Fails(config[k])
      decreases |rest|
    {
      var k :| k in rest;
      var failed;
      tsnames, tsvars, failed := Visit(k, config[k], tsnames, tsvars);
      if failed {
        return Err(NoAttribute);
      }
      Step(config, done, k);
      rest := rest - {k};
      done := done + {k};
    }
    assert done == config.Keys;
    return Ok(Found(tsnames, tsvars));
  }

  /** One pass of the loop: the entry `k: v` adds its reference and its variable when
      `"=" in str(v)`, or fails. */
  method Visit(k: string, v: Value, tsnames: set<(string, string)>, tsvars: set<string>)
    returns (tsnames': set<(string, string)>, tsvars': set<string>, failed: bool)
    ensures failed <==> Fails(v)
    ensures !failed ==> tsnames' == tsnames + (if Refers(v) then {Pair(v.s)} else {})
    ensures !failed ==> tsvars' == tsvars + (if Refers(v) then {VarName(k)} else {})
  {
    tsnames', tsvars', failed := tsnames, tsvars, false;
    if Mentions(v) {
      if !v.Str? {
        return tsnames, tsvars, true;
      }
      var parts := SplitOn(v.s, '=');
      tsnames' := tsnames + {(parts[0], BeforeLast(parts[1], ':'))};
      if Contains(k, ".costs.") {
        tsvars' := tsvars + {"cost_" + AfterLast(k, '.')};
      } else if Contains(k, ".carrier_ratios.") {
        tsvars' := tsvars + {"carrier_ratios"};
      } else {
        tsvars' := tsvars + {AfterLast(k, '.')};
      }
    }
  }

  /** Adding one key adds its reference, if it has one, and nothing else. */
  lemma Step(config: Doc, done: set<string>, k: string)
    requires k in config
    ensures NamesIn(config, done + {k})
         == NamesIn(config, done) + (if Refers(config[k]) then {Pair(config[k].s)} else {})
    ensures VarsIn(config, done + {k})
         == VarsIn(config, done) + (if Refers(config[k]) then {VarName(k)} else {})
  {
  }

  // ----- properties -----

  /** `str` of a number, boolean or `None` has no '='. */
  lemma ScalarsMentionNothing(v: Value)
    requires !v.List? && !v.Dict?
    ensures Mentions(v) <==> '=' in Techs.Show(v)
  {
  }

  /** Each string value mentioning '=' contributes its pair and its variable, and
      nothing else is in either set. */
  lemma NamesMembers(config: Doc)
    requires NamesOf(config).Ok?
    ensures forall k :: k in config && Refers(config[k]) ==>
      Pair(config[k].s) in NamesOf(config).value.tsnames && VarName(k) in NamesOf(config).value.tsvars
    ensures forall q :: q in NamesOf(config).value.tsnames ==>
      exists k :: k in config && Refers(config[k]) && q == Pair(config[k].s)
    ensures forall n :: n in NamesOf(config).value.tsvars ==>
      exists k :: k in config && Refers(config[k]) && n == VarName(k)
  {
  }

  /** The error is raised exactly when some value that is not a string mentions '=',
      whatever the order in which the entries come. */
  lemma FailsIff(config: Doc)
    ensures NamesOf(config).Err? <==> exists k :: k in config && Fails(config[k])
    ensures NamesOf(config).Err? ==> NamesOf(config).error == NoAttribute
  {
  }

  /** The text before the last ':' of `name + ":" + col`, when `col` has no ':'. */
  lemma BeforeColumn(name: string, col: string)
    requires ':' !in col
    ensures BeforeLast(name + ":" + col, ':') == name
  {
    assert (name + ":" + col)[|name|] == ':';
  }

  /** `"<source>=<rest>"` splits at its only '=': the source before it, the rest
      after it with its last ':'-suffix dropped. */
  lemma PairSplit(source: string, rest: string)
    requires '=' !in source && '=' !in rest
    ensures Pair(source + "=" + rest) == (source, BeforeLast(rest, ':'))
  {
    var s := source + "=" + rest;
    assert s == source + ("=" + rest);
    IndexOfAfter(source, '=', "=" + rest);
    assert s[..|source|] == source;
    assert s[|source| + 1..] == rest;
    assert SplitOn(rest, '=') == [rest];
    assert SplitOn(s, '=') == [source] + [rest];
  }

  /** `"<source>=<name>:<column>"` yields `(source, name)`: the column is dropped. */
  lemma PairOfReference(source: string, name: string, col: string)
    requires '=' !in source && '=' !in name && '=' !in col && ':' !in col
    ensures Pair(source + "=" + name + ":" + col) == (source, name)
  {
    assert source + "=" + name + ":" + col == source + "=" + (name + ":" + col);
    PairSplit(source, name + ":" + col);
    BeforeColumn(name, col);
  }

  /** `"<source>=<name>"` without a column yields `(source, name)`. */
  lemma PairOfBareReference(source: string, name: string)
    requires '=' !in source && '=' !in name && ':' !in name
    ensures Pair(source + "=" + name) == (source, name)
  {
    PairSplit(source, name);
  }

  /** Neither half of a pair contains '=': the source is the text before the first '='
      and the name comes from the text between the first and the second. */
  lemma PairHalves(s: string)
    requires '=' in s
    ensures '=' !in Pair(s).0 && '=' !in Pair(s).1
    ensures Pair(s).0 == s[..IndexOf(s, '=')]
  {
    var parts := SplitOn(s, '=');
    assert '=' !in parts[1];
  }

  /** Every variable is a single key segment, with `cost_` in front for costs, or
      `carrier_ratios`. */
  lemma VarsAreSegments(config: Doc)
    requires NamesOf(config).Ok?
    ensures forall n :: n in NamesOf(config).value.tsvars ==>
      n == "carrier_ratios" || '.' !in n
  {
    forall n | n in NamesOf(config).value.tsvars
      ensures n == "carrier_ratios" || '.' !in n
    {
      var k :| k in config && Refers(config[k]) && n == VarName(k);
      var last := AfterLast(k, '.');
      assert '.' !in last;
      if Contains(k, ".costs.") {
        assert n == "cost_" + last;
        assert '.' !in "cost_";
      }
    }
  }

  /** The key `"<...>.costs.<class>.<cost>"` of a tech feeds `cost_<cost>`. */
  lemma CostVariable(p: seq<string>)
    requires |p| >= 1 && DotFree(p) && Contains(Dotted(p), ".costs.")
    ensures VarName(Dotted(p)) == "cost_" + p[|p| - 1]
  {
    DottedSegments(p);
  }

  /** A key under neither `.costs.` nor `.carrier_ratios.` feeds its last segment. */
  lemma PlainVariable(p: seq<string>)
    requires |p| >= 1 && DotFree(p)
    requires !Contains(Dotted(p), ".costs.") && !Contains(Dotted(p), ".carrier_ratios.")
    ensures VarName(Dotted(p)) == p[|p| - 1]
  {
    DottedSegments(p);
  }
}
