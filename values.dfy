/** The values an `AttrDict` holds (calliope/core/attrdict.py), the exceptions the
    configuration core raises, and the Python built-ins on values it uses:
    truthiness, attribute access on an `AttrDict`, `dict.get` and `d[key]`. */
module Values {

  /** A YAML-loaded value. `Dict` is an `AttrDict`: a mapping from string keys. */
  datatype Value =
    | Null
    | Bool(b: bool)
    | Int(i: int)
    | Str(s: string)
    | List(items: seq<Value>)
    | Dict(entries: map<string, Value>)

  /** The contents of one `AttrDict`. */
  type Doc = map<string, Value>

  /** The exceptions of the core, named after the situation that raises them. */
  datatype Error =
    | KeyNotFound(key: Value)             // KeyError(key): `d[key]` on a missing key
    | NonDictKey                          // KeyError("Cannot set nested key on non-dict key.")
    | KeyDefinedTwice(path: string)       // KeyError("Key defined twice: <path>")
    | NoAttribute                         // AttributeError: a method or key access on a non-AttrDict
    | NotDeletable                        // TypeError: `del x[k]` on a value that is not a mapping
    | Unhashable                          // TypeError: a list or dict used as a key
    | NotSubscriptable                    // TypeError: a string index into a value that is not a mapping
    | ImportNotList                       // ValueError("`import` must be a list.")
    | NotADict                            // ValueError("Must pass a dict to AttrDict")
    | UndefinedOverride(name: string)     // ModelError("Override `<name>` is not defined.")
    | OverrideClash(cause: Error, name: string)
                                          // ModelError("<cause>. Already specified but defined again in override `<name>`.")
    | InvalidScenario                     // ModelError("Scenario definition must be a list of override or other scenario names.")
    | RecursionLimit                      // RecursionError: the interpreter's recursion limit was reached
    | Diverges                            // the source loops forever here (an inheritance cycle)
    | TechErrors(messages: seq<string>)   // ModelError carrying every accumulated tech message

  datatype Result<T> = Ok(value: T) | Err(error: Error)

  datatype Option<T> = None | Some(value: T)

  /** The exceptions a Python `except KeyError` catches. */
  predicate IsKeyError(e: Error) {
    e.KeyNotFound? || e.NonDictKey? || e.KeyDefinedTwice?
  }

  /** `str(e)[1:-1]` of a KeyError: its argument without the quotes `str` adds. */
  function KeyErrorText(e: Error): string
    requires IsKeyError(e)
  {
    match e
    case KeyNotFound(k) => if k.Str? then k.s else "<key>"
    case NonDictKey => "Cannot set nested key on non-dict key."
    case KeyDefinedTwice(p) => "Key defined twice: " + p
  }

  /** Python truthiness: `None`, `False`, `0`, `""`, `[]` and `{}` are false. */
  predicate Truthy(v: Value) {
    match v
    case Null => false
    case Bool(b) => b
    case Int(i) => i != 0
    case Str(s) => s != ""
    case List(xs) => |xs| > 0
    case Dict(m) => |m| > 0
  }

  /** Every key of every mapping inside `v` (lists included) is free of '.'.
      `set_key` splits every key it stores on '.', so every `AttrDict` built through it
      has this property. */
  predicate WellFormed(v: Value) {
    match v
    case List(xs) => forall i :: 0 <= i < |xs| ==> WellFormed(xs[i])
    case Dict(m) => forall k :: k in m ==> '.' !in k && WellFormed(m[k])
    case _ => true
  }

  predicate WellFormedDoc(d: Doc) {
    WellFormed(Dict(d))
  }

  /** Attribute access `v.k` on an `AttrDict` (its `__getattr__` is `dict.__getitem__`). */
  function Attr(v: Value, k: string): (r: Result<Value>)
    ensures r.Ok? <==> v.Dict? && k in v.entries
    ensures r.Ok? ==> r.value == v.entries[k]
    ensures !v.Dict? ==> r == Err(NoAttribute)
  {
    match v
    case Dict(m) => if k in m then Ok(m[k]) else Err(KeyNotFound(Str(k)))
    case _ => Err(NoAttribute)
  }

  /** `v.get(k, default)`. */
  function DictGet(v: Value, k: string, default: Value): (r: Result<Value>)
    ensures r.Ok? <==> v.Dict?
    ensures v.Dict? ==> r.value == if k in v.entries then v.entries[k] else default
  {
    match v
    case Dict(m) => Ok(if k in m then m[k] else default)
    case _ => Err(NoAttribute)
  }

  /** `d[key]` where the key is a value: only a string can be present, since every
      stored key is a string; a list or dict key is unhashable. */
  function IndexBy(d: Doc, key: Value): (r: Result<Value>)
    ensures r.Ok? <==> key.Str? && key.s in d
    ensures r.Ok? ==> r.value == d[key.s]
  {
    match key
    case Str(s) => if s in d then Ok(d[s]) else Err(KeyNotFound(key))
    case List(_) => Err(Unhashable)
    case Dict(_) => Err(Unhashable)
    case _ => Err(KeyNotFound(key))
  }
}
