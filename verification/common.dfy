/** Values shared by every part of the agent: a failure-compatible Result, the
    exception record that each raise site builds, the JSON values a model reply
    decodes to, and the few Python conversions (`str`, truthiness, `isinstance`)
    that the dispatch and validation code applies to them. */
module Common {

  datatype Option<+T> = None | Some(value: T)

  datatype Result<+T, +E> = Success(value: T) | Failure(error: E) {
    predicate IsFailure() {
      Failure?
    }

    function PropagateFailure<U>(): Result<U, E>
      requires Failure?
    {
      Failure(error)
    }

    function Extract(): T
      requires Success?
    {
      value
    }
  }

  /** The exception classes that the core raises. */
  datatype ErrorKind =
    | BrowseMindError     // the package's base class, raised for an unknown action
    | ConfigurationError
    | BrowserError
    | LLMError
    | AttributeError      // Python's own: `.get` called on a value that is not a dict
    | IndexError          // Python's own: the first element of an empty deque
    | PlainException      // a bare `Exception`

  /** A raised exception: its class, its message and the error code handed to the
      constructor as second argument (None where a raise site passes none). */
  datatype Error = Error(kind: ErrorKind, message: string, code: Option<string>)

  /** A JSON value as `json.loads` returns it: integral literals become `int`,
      other numbers `float`, objects `dict`. */
  datatype Json =
    | JNull
    | JBool(b: bool)
    | JInt(i: int)
    | JFloat(f: real)
    | JString(s: string)
    | JArray(items: seq<Json>)
    | JObject(fields: map<string, Json>)

  /** `d.get(key)`: the value under `key`, or None. */
  function Get(d: map<string, Json>, key: string): (r: Option<Json>)
    ensures r.Some? <==> key in d
    ensures r.Some? ==> r.value == d[key]
  {
    if key in d then Some(d[key]) else None
  }

  /** Python truthiness of a JSON value: exactly the null, false, zero and
      empty values are falsy. */
  function Truthy(v: Json): (t: bool)
    ensures !t <==> v in {JNull, JBool(false), JInt(0), JFloat(0.0), JString(""), JArray([]), JObject(map[])}
  {
    match v
    case JNull => false
    case JBool(b) => b
    case JInt(i) => i != 0
    case JFloat(f) => f != 0.0
    case JString(s) => s != ""
    case JArray(items) => items != []
    case JObject(fields) => fields != map[]
  }

  /** `isinstance(v, int)`: Python's `bool` is a subclass of `int`. */
  function IsPyInt(v: Json): (r: bool)
    ensures r <==> TypeName(v) == "int" || TypeName(v) == "bool"
  {
    v.JInt? || v.JBool?
  }

  /** The name `type(v).__name__` gives. */
  function TypeName(v: Json): string {
    match v
    case JNull => "NoneType"
    case JBool(_) => "bool"
    case JInt(_) => "int"
    case JFloat(_) => "float"
    case JString(_) => "str"
    case JArray(_) => "list"
    case JObject(_) => "dict"
  }

  function DigitChar(d: nat): char
    requires d < 10
  {
    "0123456789"[d]
  }

  /** Decimal digits of a natural number, most significant first, with no
      leading zero. */
  function Digits(n: nat): (s: string)
    ensures |s| >= 1
    ensures forall k :: 0 <= k < |s| ==> '0' <= s[k] <= '9'
    ensures s[0] == '0' ==> n == 0
  {
    if n < 10 then [DigitChar(n)] else Digits(n / 10) + [DigitChar(n % 10)]
  }

  /** The number a string of decimal digits denotes. */
  function DecimalValue(s: string): nat
    requires forall k :: 0 <= k < |s| ==> '0' <= s[k] <= '9'
  {
    if s == [] then 0 else 10 * DecimalValue(s[..|s| - 1]) + (s[|s| - 1] as int - '0' as int)
  }

  /** Reading the digits back gives the number. */
  lemma {:induction false} DigitsRoundTrip(n: nat)
    ensures DecimalValue(Digits(n)) == n
  {
    if n >= 10 {
      DigitsRoundTrip(n / 10);
      var s := Digits(n);
      assert s[..|s| - 1] == Digits(n / 10);
    }
  }

  /** `str(i)` for a Python `int`: a minus sign exactly for negative values,
      followed by the digits of the magnitude, which read back as it. */
  function IntToString(i: int): (s: string)
    ensures |s| >= 1
    ensures s[0] == '-' <==> i < 0
    ensures i < 0 ==> s[1..] == Digits(-i)
    ensures i >= 0 ==> s == Digits(i)
    ensures DecimalValue(if i < 0 then s[1..] else s) == (if i < 0 then -i else i)
  {
    DigitsRoundTrip(if i < 0 then -i else i);
    if i < 0 then "-" + Digits(-i) else Digits(i)
  }

  /** `str(v)`: a string is itself, None, booleans and integers are spelled as
      Python spells them; `repr` stands for Python's rendering of floats, lists
      and dicts. */
  function PyStr(v: Json, repr: Json -> string): (s: string)
    ensures v.JString? ==> s == v.s
    ensures v.JNull? ==> s == "None"
    ensures v.JBool? ==> (s == "True" <==> v.b) && (s == "False" <==> !v.b)
    ensures v.JInt? ==> s == IntToString(v.i)
    ensures v.JInt? ==> |s| >= 1 && (s[0] == '-' <==> v.i < 0)
  {
    match v
    case JString(s) => s
    case JNull => "None"
    case JBool(b) => if b then "True" else "False"
    case JInt(i) => IntToString(i)
    case _ => repr(v)
  }

  /** `str()` of a string, None, a bool or an int does not depend on how
      floats, lists and dicts are rendered. */
  lemma ScalarStrIgnoresRepr(v: Json, repr1: Json -> string, repr2: Json -> string)
    requires v.JString? || v.JNull? || v.JBool? || v.JInt?
    ensures PyStr(v, repr1) == PyStr(v, repr2)
    ensures v.JString? ==> PyStr(v, repr1) == v.s
  {
  }
}
