/** The dynamic values the client passes around: the parsed-response
    dictionaries, host records and request parameters are Python dicts whose
    values are None, bool, int, float, str, list or dict; and the exceptions the
    client raises. */
module Values {
  import opened Wrappers
  import opened Text

  datatype Value =
    | VNone
    | VBool(b: bool)
    | VInt(i: int)
    | VReal(r: real)
    | VStr(s: string)
    | VList(items: seq<Value>)
    | VMap(fields: map<string, Value>)

  /** A Python dict with string keys (key order is not modelled). */
  type Dict = map<string, Value>

  /** Python truthiness. */
  predicate Truthy(v: Value) {
    match v
    case VNone => false
    case VBool(b) => b
    case VInt(i) => i != 0
    case VReal(r) => r != 0.0
    case VStr(s) => s != ""
    case VList(items) => items != []
    case VMap(fields) => fields != map[]
  }

  /** Python truthiness of an optional string argument: given and non-empty. */
  predicate Filled(s: Option<string>) {
    s.Some? && s.value != ""
  }

  /** `d.get(key, default)`. */
  function Get(d: Dict, key: string, default: Value): Value {
    if key in d then d[key] else default
  }

  /** A value made a list the way the client does it: a list as it is, anything else wrapped. */
  function AsList(v: Value): (r: seq<Value>)
    ensures v.VList? ==> r == v.items
    ensures !v.VList? ==> r == [v]
  {
    if v.VList? then v.items else [v]
  }

  /** The dicts among `records`, in order; the client's loops skip the rest. */
  function Dicts(records: seq<Value>): (ds: seq<Dict>)
    ensures |ds| <= |records|
  {
    if records == [] then []
    else
      var n := |records| - 1;
      Dicts(records[..n]) + (if records[n].VMap? then [records[n].fields] else [])
  }

  /** The dict records are exactly the dicts listed. */
  lemma {:induction false} DictsMembers(records: seq<Value>)
    ensures forall d :: d in Dicts(records) <==> VMap(d) in records
  {
    if records != [] {
      var n := |records| - 1;
      DictsMembers(records[..n]);
      assert records == records[..n] + [records[n]];
    }
  }

  /** `isinstance(v, int)`; a Python bool is an int. */
  predicate IsInt(v: Value) {
    v.VInt? || v.VBool?
  }

  /** The values whose `str()` the model renders. */
  predicate IsScalar(v: Value) {
    v.VNone? || v.VBool? || v.VInt? || v.VStr?
  }

  /** Python's `str(v)` for None, bools, ints and strings. */
  function Str(v: Value): string
    requires IsScalar(v)
  {
    match v
    case VNone => "None"
    case VBool(b) => if b then "True" else "False"
    case VInt(i) => IntToStr(i)
    case VStr(s) => s
  }

  /** The exceptions the modelled code raises. */
  datatype Error =
    | ValueError(message: string)
      /** the `ValueError` of `set_hosts` naming a record type outside the allowed set */
    | InvalidRecordType(recordType: Value)
      /** the `ValueError` of `set_hosts` naming a TTL that is not an integer in 60..86400 */
    | InvalidTtl(ttl: Value)
      /** the `ValueError` of `float(text)` */
    | FloatError(text: string)
    | TypeError
    | KeyError(key: string)
    | IndexError
    | AttributeError
      /** `NamecheapException(code, message)` */
    | ApiError(code: string, message: string)
}
