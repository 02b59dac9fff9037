/** The Python values the checks handle: decoded JSON and configuration
    dictionaries, with the handful of Python operations the checks apply to
    them (`dict.get`, `d[k]`, truthiness, `str()`, multiplication by a float). */
module Values {
  import opened Results
  import Decimal

  /** A JSON-like Python value. A `Dict` keeps its entries in insertion order,
      as a Python dict does; `Float` holds the number a Python float denotes. */
  datatype Value =
    | Null
    | Bool(b: bool)
    | Int(i: int)
    | Float(r: real)
    | Str(s: string)
    | List(items: seq<Value>)
    | Dict(entries: seq<(string, Value)>)

  type Dict = seq<(string, Value)>

  /** One output item, a dict literal: its fields in the order written. */
  type Record = Dict

  /** The keys of a dict, in order. */
  function Keys(d: Dict): (ks: seq<string>)
    ensures |ks| == |d| && forall i :: 0 <= i < |d| ==> ks[i] == d[i].0
  {
    seq(|d|, i requires 0 <= i < |d| => d[i].0)
  }

  /** A check's result: section name to the list of its items. */
  type State = map<string, seq<Record>>

  /** The entry stored under `k`, if any. */
  function Lookup(d: Dict, k: string): (r: Option<Value>)
    ensures r.None? <==> forall i :: 0 <= i < |d| ==> d[i].0 != k
    ensures r.Some? ==> exists i :: 0 <= i < |d| && d[i] == (k, r.value)
  {
    if |d| == 0 then None
    else if d[0].0 == k then Some(d[0].1)
    else Lookup(d[1..], k)
  }

  /** An entry found at index `i`, with no earlier entry under the same key,
      is the one `Lookup` returns. */
  lemma {:induction false} LookupAt(d: Dict, i: nat)
    requires i < |d| && forall j :: 0 <= j < i ==> d[j].0 != d[i].0
    ensures Lookup(d, d[i].0) == Some(d[i].1)
  {
    if i > 0 {
      LookupAt(d[1..], i - 1);
    }
  }

  /** In a dict whose keys are distinct, as a decoded JSON object's and a
      Python dict's are, every entry is the one its key finds. */
  lemma LookupUniqueKeys(d: Dict)
    requires forall i, j :: 0 <= i < j < |d| ==> d[i].0 != d[j].0
    ensures forall i :: 0 <= i < |d| ==> Lookup(d, d[i].0) == Some(d[i].1)
  {
    forall i | 0 <= i < |d|
      ensures Lookup(d, d[i].0) == Some(d[i].1)
    {
      LookupAt(d, i);
    }
  }

  /** The dict literal `{out: d.get(src), ...}` for a table of (out, src) field names. */
  function Copied(d: Dict, fields: seq<(string, string)>): (r: Record)
    ensures |r| == |fields|
    ensures forall i :: 0 <= i < |fields| ==> r[i] == (fields[i].0, Get(d, fields[i].1))
  {
    seq(|fields|, i requires 0 <= i < |fields| => (fields[i].0, Get(d, fields[i].1)))
  }

  /** A table of fields copied under their own names. */
  function Same(names: seq<string>): (fields: seq<(string, string)>)
    ensures |fields| == |names| && forall i :: 0 <= i < |names| ==> fields[i] == (names[i], names[i])
  {
    seq(|names|, i requires 0 <= i < |names| => (names[i], names[i]))
  }

  /** `d.get(k, default)`. */
  function GetOr(d: Dict, k: string, default: Value): (r: Value)
    ensures Lookup(d, k).None? ==> r == default
    ensures Lookup(d, k).Some? ==> r == Lookup(d, k).value
  {
    match Lookup(d, k)
    case None => default
    case Some(v) => v
  }

  /** `d.get(k)`: `None` both for a missing key and for a key holding `None`. */
  function Get(d: Dict, k: string): (r: Value)
  {
    GetOr(d, k, Null)
  }

  /** `v[k]` for a string key: a `KeyError` on a dict without `k`, a
      `TypeError` on anything that is not a dict. */
  function Subscript(v: Value, k: string): (r: Result<Value>)
    ensures r.Ok? <==> v.Dict? && Lookup(v.entries, k).Some?
    ensures r.Ok? ==> r.value == Get(v.entries, k)
    ensures r.Err? ==> r.error == if v.Dict? then KeyError(k) else TypeError
  {
    match v
    case Dict(d) =>
      (match Lookup(d, k)
       case None => Err(KeyError(k))
       case Some(x) => Ok(x))
    case _ => Err(TypeError)
  }

  /** Python truthiness, `bool(v)`. */
  predicate Truthy(v: Value) {
    match v
    case Null => false
    case Bool(b) => b
    case Int(i) => i != 0
    case Float(r) => r != 0.0
    case Str(s) => s != ""
    case List(items) => items != []
    case Dict(entries) => entries != []
  }

  /** Exactly seven values are falsy. */
  lemma FalsyValues(v: Value)
    ensures !Truthy(v) <==> v in {Null, Bool(false), Int(0), Float(0.0), Str(""), List([]), Dict([])}
  {
  }

  /** The number a value stands for in Python arithmetic (`bool` is a
      subclass of `int`); `None` for values arithmetic rejects. */
  function Numeric(v: Value): Option<real> {
    match v
    case Bool(b) => Some(if b then 1.0 else 0.0)
    case Int(i) => Some(i as real)
    case Float(r) => Some(r)
    case _ => None
  }

  /** `v * 100.0`: a float for a number, a `TypeError` otherwise. */
  function TimesHundred(v: Value): (r: Result<Value>)
    ensures r.Ok? <==> Numeric(v).Some?
    ensures r.Ok? ==> r.value.Float? && r.value.r == 100.0 * Numeric(v).value
    ensures r.Err? ==> r.error == TypeError
  {
    match Numeric(v)
    case None => Err(TypeError)
    case Some(x) => Ok(Float(x * 100.0))
  }

  /** What `str(v)` and an f-string placeholder produce. Floats, lists and
      dicts are rendered as a fixed marker (see the README). */
  function Show(v: Value): (s: string)
    ensures v == Null ==> s == "None"
    ensures v.Bool? ==> s == (if v.b then "True" else "False")
    ensures v.Str? ==> s == v.s
    // An integer becomes its decimal numeral, with a minus sign exactly when negative.
    ensures v.Int? ==> |s| > 0 && (s[0] == '-' <==> v.i < 0)
  {
    match v
    case Null => "None"
    case Bool(b) => if b then "True" else "False"
    case Int(i) => Decimal.IntToDecimal(i)
    case Str(s) => s
    case _ => "<unrendered>"
  }

  /** `str()` of an integer is its decimal numeral, and distinct integers get
      distinct strings. */
  lemma ShowIntInjective(a: int, b: int)
    ensures Show(Int(a)) == Show(Int(b)) <==> a == b
  {
    if Show(Int(a)) == Show(Int(b)) {
      Decimal.IntToDecimalInjective(a, b);
    }
  }
}
