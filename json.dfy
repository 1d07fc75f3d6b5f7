/** JavaScript values as they travel between the pages, the API and the
    database: JSON scalars, objects as finite maps (a missing key is
    `undefined`), truthiness, `||`, `??`, `Number(...)` and `String(...)`. */
module JsValue {
  import opened Wrappers
  import opened Text

  /** A JSON scalar. Numbers are integers; fractional numbers are not modelled. */
  datatype Json = Null | Bool(b: bool) | Num(n: int) | Str(s: string)

  /** A plain object; keys that are absent read as `undefined`. */
  type Obj = map<string, Json>

  /** `o[k]`, with `None` for `undefined`. */
  function Get(o: Obj, k: string): Option<Json>
  {
    if k in o then Some(o[k]) else None
  }

  /** Spreading `m2` over `m1`: its keys win. */
  lemma GetMerge(m1: Obj, m2: Obj, k: string)
    ensures Get(m1 + m2, k) == if k in m2 then Get(m2, k) else Get(m1, k)
  {
  }

  /** Dropping the keys in `s`. */
  lemma GetMinus(m: Obj, s: set<string>, k: string)
    ensures Get(m - s, k) == if k in s then None else Get(m, k)
  {
  }

  /** JavaScript truthiness of a possibly undefined value. */
  predicate Truthy(v: Option<Json>)
  {
    match v
    case None => false
    case Some(Null) => false
    case Some(Bool(b)) => b
    case Some(Num(n)) => n != 0
    case Some(Str(s)) => s != ""
  }

  /** `a || b`. */
  function Or(a: Option<Json>, b: Option<Json>): Option<Json>
  {
    if Truthy(a) then a else b
  }

  /** `null` or `undefined`. */
  predicate IsNullish(v: Option<Json>)
  {
    v == None || v == Some(Null)
  }

  /** `a ?? b`. */
  function Coalesce(a: Option<Json>, b: Option<Json>): Option<Json>
  {
    if IsNullish(a) then b else a
  }

  /** The value stored for `v` in a JSON body or an SQL parameter: `undefined` becomes `null`. */
  function OrNull(v: Option<Json>): Json
  {
    if v.Some? then v.value else Null
  }

  /** A string value, or `None` when `v` is not a string. */
  function AsString(v: Option<Json>): Option<string>
  {
    if v.Some? && v.value.Str? then Some(v.value.s) else None
  }

  /** `Number(v)`; `None` stands for `NaN`. Strings are read after trimming, the
      empty string is 0, and only integer numerals are recognised. */
  function ToNumber(v: Option<Json>): Option<int>
  {
    match v
    case None => None
    case Some(Null) => Some(0)
    case Some(Bool(b)) => Some(if b then 1 else 0)
    case Some(Num(n)) => Some(n)
    case Some(Str(s)) => if Trim(s) == "" then Some(0) else ParseSignedDecimal(Trim(s))
  }

  /** `Number(v) || d`: `NaN` and 0 both fall back to `d`. */
  function NumberOr(v: Option<Json>, d: int): int
  {
    var n := ToNumber(v);
    if n.None? || n.value == 0 then d else n.value
  }

  /** A number as it appears in a JSON body: `NaN` is sent as `null`. */
  function NumberJson(n: Option<int>): Json
  {
    if n.Some? then Num(n.value) else Null
  }

  /** `String(v)`. */
  function JsString(v: Option<Json>): string
  {
    match v
    case None => "undefined"
    case Some(Null) => "null"
    case Some(Bool(b)) => if b then "true" else "false"
    case Some(Num(n)) => IntToString(n)
    case Some(Str(s)) => s
  }

  lemma DecimalIsTrimmed(n: int)
    ensures IsTrimmed(IntToString(n))
  {
    var t := IntToString(n);
    NatToStringShape(if n < 0 then -n else n);
    assert forall i :: 0 <= i < |t| ==> t[i] == '-' || IsDigit(t[i]);
  }

  /** `Number(String(n)) === n` for every integer `n`. */
  lemma NumberOfString(n: int)
    ensures ToNumber(Some(Str(JsString(Some(Num(n)))))) == Some(n)
  {
    DecimalIsTrimmed(n);
    TrimmedIsFixed(IntToString(n));
    IntToStringRoundTrip(n);
  }
}
