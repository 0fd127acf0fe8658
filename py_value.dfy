/**
 * A JSON document as Python's `json` module hands it over (None, bool, int,
 * float, str, list, dict), with the pieces of Python semantics the renderer
 * depends on: truthiness (`if x:`), `len`, `dict.get`, iteration, `== True`,
 * `str()` and `repr()`, and raised exceptions.
 */
module PyValue {

  import opened Wrappers
  import opened Strings

  /** A parsed JSON value.  An object keeps its keys in insertion order. */
  datatype Json =
    | JNull
    | JBool(b: bool)
    | JInt(i: int)
    | JFloat(r: real)
    | JStr(s: string)
    | JArr(elems: seq<Json>)
    | JObj(fields: seq<(string, Json)>)

  /** The exceptions the renderer can raise before its catch-all handler. */
  datatype PyError =
    | TypeError       // len() of a value without a length; list + str
    | AttributeError  // .get on a value that is not a dict
    | KeyError        // slicing a dict (TypeError before Python 3.12)

  /** A computation that returns a value or raises. */
  datatype Outcome<+T> = Ok(value: T) | Raised(error: PyError)
  {
    predicate IsFailure() { Raised? }

    function PropagateFailure<U>(): Outcome<U>
      requires Raised?
    {
      Raised(error)
    }

    function Extract(): T
      requires Ok?
    {
      value
    }
  }

  /** Python truthiness: `None`, `False`, zero and empty containers are false. */
  predicate Truthy(v: Json)
  {
    match v
    case JNull => false
    case JBool(b) => b
    case JInt(i) => i != 0
    case JFloat(r) => r != 0.0
    case JStr(s) => s != ""
    case JArr(es) => es != []
    case JObj(fs) => fs != []
  }

  /** Python's `len(v)`; `None` where `len` raises TypeError. */
  function Len(v: Json): Option<nat>
  {
    match v
    case JStr(s) => Some(|s|)
    case JArr(es) => Some(|es|)
    case JObj(fs) => Some(|fs|)
    case _ => None
  }

  /** Python's `v == True`: true for `True`, `1` and `1.0`. */
  predicate EqualsTrue(v: Json)
  {
    match v
    case JBool(b) => b
    case JInt(i) => i == 1
    case JFloat(r) => r == 1.0
    case _ => false
  }

  /** The value stored under `key`, looking at the fields in order. */
  function Lookup(fields: seq<(string, Json)>, key: string): (r: Option<Json>)
    ensures r.None? <==> forall i :: 0 <= i < |fields| ==> fields[i].0 != key
    ensures r.Some? ==> exists i :: 0 <= i < |fields| && fields[i] == (key, r.value)
                          && forall j :: 0 <= j < i ==> fields[j].0 != key
  {
    if |fields| == 0 then None
    else if fields[0].0 == key then Some(fields[0].1)
    else
      var r := Lookup(fields[1..], key);
      if r.Some? then
        var i :| 0 <= i < |fields[1..]| && fields[1..][i] == (key, r.value)
                 && forall j :: 0 <= j < i ==> fields[1..][j].0 != key;
        assert fields[i + 1] == (key, r.value);
        assert forall j :: 1 <= j < i + 1 ==> fields[j] == fields[1..][j - 1];
        r
      else r
  }

  /** Python's `d.get(key, default)`: chosen by presence of the key, not by its value. */
  function Get(fields: seq<(string, Json)>, key: string, default: Json): Json
  {
    Lookup(fields, key).GetOr(default)
  }

  /** Python's `for x in v`: a list yields its elements, a str its characters, a dict its keys. */
  function Iterate(v: Json): (r: Outcome<seq<Json>>)
    ensures r.Ok? <==> Len(v).Some?
    ensures r.Ok? ==> |r.value| == Len(v).value
    ensures v.JArr? ==> r == Ok(v.elems)
  {
    match v
    case JArr(es) => Ok(es)
    case JStr(s) => Ok(seq(|s|, i requires 0 <= i < |s| => JStr([s[i]])))
    case JObj(fs) => Ok(seq(|fs|, i requires 0 <= i < |fs| => JStr(fs[i].0)))
    case _ => Raised(TypeError)
  }

  /** Iterating a str yields its characters as one-character strs, and a dict its keys, in order. */
  lemma IterateYields(v: Json)
    ensures v.JStr? ==> Iterate(v).Ok? && forall i :: 0 <= i < |v.s| ==> Iterate(v).value[i] == JStr([v.s[i]])
    ensures v.JObj? ==> Iterate(v).Ok? && forall i :: 0 <= i < |v.fields| ==> Iterate(v).value[i] == JStr(v.fields[i].0)
  {
  }

  /**
   * The parts of `repr` the model does not spell out: the shortest
   * round-trip form of a float, and the quoted, escaped form of a str.
   */
  datatype Printer = Printer(reprFloat: real -> string, reprStr: string -> string)

  /** Python's `repr(v)`: containers show their elements with `repr`. */
  function Repr(v: Json, p: Printer): string
    decreases v
  {
    match v
    case JNull => "None"
    case JBool(b) => if b then "True" else "False"
    case JInt(i) => IntToString(i)
    case JFloat(r) => p.reprFloat(r)
    case JStr(s) => p.reprStr(s)
    case JArr(es) =>
      "[" + Join(", ", seq(|es|, i requires 0 <= i < |es| => Repr(es[i], p))) + "]"
    case JObj(fs) =>
      "{" + Join(", ", seq(|fs|, i requires 0 <= i < |fs| => p.reprStr(fs[i].0) + ": " + Repr(fs[i].1, p))) + "}"
  }

  /** Python's `str(v)`, also what an f-string prints: a str is itself, anything else its `repr`. */
  function Show(v: Json, p: Printer): (r: string)
    ensures v.JStr? ==> r == v.s
    ensures v == JNull ==> r == "None"
  {
    match v
    case JStr(s) => s
    case _ => Repr(v, p)
  }
}
