/**
 * The slice of Python's runtime the pipeline's data handling depends on:
 * optional values, "returned or raised" outcomes, dynamically typed JSON-like
 * values with `dict.get` defaults, truthiness, and the `int()`, `float()` and
 * `str` coercions applied to them (the latter as pydantic v1 applies it to a
 * `str` field).
 */
module Py {
  import opened Text

  datatype Option<+T> = None | Some(value: T)

  /** The list holding the value, if any: what `if x is not None: out.append(x)` adds. */
  function OptionToSeq<T>(o: Option<T>): (r: seq<T>)
    ensures |r| <= 1
    ensures o.Some? ==> r == [o.value]
    ensures o.None? ==> r == []
  {
    if o.Some? then [o.value] else []
  }

  /** The result of a Python call: a value, or an exception carrying its message. */
  datatype Outcome<+T> = Returned(value: T) | Raised(error: string)
  {
    predicate IsFailure() { Raised? }

    function PropagateFailure<U>(): Outcome<U>
      requires Raised?
    {
      Raised(error)
    }

    function Extract(): T
      requires Returned?
    {
      value
    }
  }

  /** A dynamically typed value as decoded from JSON (`None`, bool, int, float, str, list, dict). */
  datatype Json =
    | JNull
    | JBool(b: bool)
    | JInt(i: int)
    | JFloat(f: real)
    | JStr(s: string)
    | JArr(items: seq<Json>)
    | JObj(fields: map<string, Json>)

  /** A Python number that remembers whether it was an `int` or a `float`. */
  datatype Number = IntNum(i: int) | FloatNum(f: real)

  function NumValue(n: Number): real
  {
    match n
    case IntNum(i) => i as real
    case FloatNum(f) => f
  }

  /** `str(n)` */
  function NumberString(n: Number): string
  {
    match n
    case IntNum(i) => IntToString(i)
    case FloatNum(f) => ReprFloat(f)
  }

  /** `int(x)` on a float: truncation toward zero. */
  function Trunc(x: real): (n: int)
    ensures x >= 0.0 ==> n == x.Floor
    ensures x >= 0.0 ==> n >= 0
  {
    if x >= 0.0 then x.Floor else -((-x).Floor)
  }

  function Abs(x: real): (r: real)
    ensures r >= 0.0 && (r == x || r == -x)
  {
    if x < 0.0 then -x else x
  }

  function MinReal(a: real, b: real): (r: real)
    ensures r <= a && r <= b && (r == a || r == b)
  {
    if a <= b then a else b
  }

  function MinInt(a: int, b: int): (r: int)
    ensures r <= a && r <= b && (r == a || r == b)
  {
    if a <= b then a else b
  }

  /** Python's `bool(x)`. */
  predicate Truthy(j: Json)
  {
    match j
    case JNull => false
    case JBool(b) => b
    case JInt(i) => i != 0
    case JFloat(f) => f != 0.0
    case JStr(s) => s != ""
    case JArr(items) => items != []
    case JObj(fields) => fields != map[]
  }

  /** `d.get(key, default)` */
  function Get(d: map<string, Json>, key: string, default: Json): (r: Json)
    ensures key !in d ==> r == default
  {
    if key in d then d[key] else default
  }

  /** `type(x).__name__` of a decoded JSON value. */
  function TypeName(j: Json): string
  {
    match j
    case JNull => "NoneType"
    case JBool(_) => "bool"
    case JInt(_) => "int"
    case JFloat(_) => "float"
    case JStr(_) => "str"
    case JArr(_) => "list"
    case JObj(_) => "dict"
  }

  /** `str(e)` of the `AttributeError` that `x.get` raises on a value that is not a dict. */
  function NoGetError(j: Json): string
  {
    "'" + TypeName(j) + "' object has no attribute 'get'"
  }

  /** `x.get(...)` needs a dict: any other value raises `AttributeError`. */
  function DictOf(j: Json): (r: Outcome<map<string, Json>>)
    ensures r.Returned? <==> j.JObj?
    ensures j.JObj? ==> r.value == j.fields
    ensures r.Raised? ==> r.error == NoGetError(j)
  {
    if j.JObj? then Returned(j.fields) else Raised(NoGetError(j))
  }

  /**
   * `str(e)` of what `x[0]` raises: `IndexError` for an empty list or string,
   * `KeyError(0)` (whose text is `0`) for a dict, whose JSON keys are strings,
   * and `TypeError` for a value that cannot be indexed.
   */
  function IndexError0(j: Json): string
  {
    match j
    case JArr(_) => "list index out of range"
    case JStr(_) => "string index out of range"
    case JObj(_) => "0"
    case _ => "'" + TypeName(j) + "' object is not subscriptable"
  }

  /** `x[0]` on any value: a non-empty list yields its first item, a non-empty string its first character. */
  function Index0(j: Json): (r: Outcome<Json>)
    ensures j.JArr? && |j.items| > 0 ==> r == Returned(j.items[0])
    ensures j.JStr? && |j.s| > 0 ==> r == Returned(JStr(j.s[..1]))
    ensures r.Returned? <==> (j.JArr? && |j.items| > 0) || (j.JStr? && |j.s| > 0)
    ensures r.Raised? ==> r.error == IndexError0(j)
  {
    match j
    case JArr(items) => if |items| > 0 then Returned(items[0]) else Raised(IndexError0(j))
    case JStr(s) => if |s| > 0 then Returned(JStr(s[..1])) else Raised(IndexError0(j))
    case _ => Raised(IndexError0(j))
  }

  /** `x[0]` on a truthy value: a list yields its first item, a string its first character, anything else raises. */
  function First(j: Json): (r: Outcome<Json>)
    requires Truthy(j)
    ensures j.JArr? ==> r == Returned(j.items[0])
    ensures r.Returned? <==> j.JArr? || j.JStr?
  {
    Index0(j)
  }

  /**
   * The items `for x in j` visits when the loop body calls `x.get`: a list's
   * items; an empty dict or string visits nothing; a non-empty dict or string
   * yields a string first, whose `.get` raises; other values are not iterable.
   */
  function DictLoopItems(j: Json): (r: Outcome<seq<Json>>)
    ensures j.JArr? ==> r == Returned(j.items)
    ensures r.Returned? ==> j.JArr? || r.value == []
  {
    match j
    case JArr(items) => Returned(items)
    case JObj(f) => if f == map[] then Returned([]) else Raised("'str' object has no attribute 'get'")
    case JStr(s) => if s == "" then Returned([]) else Raised("'str' object has no attribute 'get'")
    case _ => Raised("'" + TypeName(j) + "' object is not iterable")
  }

  /** `x == 0` in Python: true for the numbers zero and for `False`. */
  predicate EqualsZero(j: Json)
  {
    j == JInt(0) || j == JFloat(0.0) || j == JBool(false)
  }

  /** `bool(s)` for an optional string field. */
  predicate Filled(o: Option<string>)
  {
    o.Some? && o.value != ""
  }

  /** `f"{o}"`: a missing value renders as `None`. */
  function Show(o: Option<string>): string
  {
    match o
    case None => "None"
    case Some(s) => s
  }

  /** `o or default` for an optional string. */
  function OrDefault(o: Option<string>, default: string): (r: string)
    ensures Filled(o) ==> r == o.value
    ensures !Filled(o) ==> r == default
  {
    if Filled(o) then o.value else default
  }

  /** Sign and digits accepted by `int(s)` after `strip()`. */
  predicate IsIntLiteral(s: string)
  {
    IsDigits(s) || (|s| > 0 && (s[0] == '-' || s[0] == '+') && IsDigits(s[1..]))
  }

  function IntLiteralValue(s: string): int
    requires IsIntLiteral(s)
  {
    if IsDigits(s) then DecimalValue(s)
    else if s[0] == '-' then -DecimalValue(s[1..])
    else DecimalValue(s[1..])
  }

  /** `int(x)`: floats truncate toward zero, bools are 0/1, strings must be an integer literal. */
  function PyInt(j: Json): (r: Outcome<int>)
    ensures j.JInt? ==> r == Returned(j.i)
    ensures j.JNull? || j.JArr? || j.JObj? ==> r.Raised?
  {
    match j
    case JInt(i) => Returned(i)
    case JBool(b) => Returned(if b then 1 else 0)
    case JFloat(f) => Returned(Trunc(f))
    case JStr(s) =>
      var t := Strip(s);
      if IsIntLiteral(t) then Returned(IntLiteralValue(t))
      else Raised("invalid literal for int() with base 10: '" + s + "'")
    case JNull => Raised("int() argument must be a string, a bytes-like object or a real number, not 'NoneType'")
    case JArr(_) => Raised("int() argument must be a string, a bytes-like object or a real number, not 'list'")
    case JObj(_) => Raised("int() argument must be a string, a bytes-like object or a real number, not 'dict'")
  }

  /** The digits after a decimal point, read as a fraction. */
  function FractionValue(s: string): real
    requires forall i :: 0 <= i < |s| ==> IsAsciiDigit(s[i])
  {
    DecimalValue(s) as real / Pow10(|s|) as real
  }

  predicate AllDigits(s: string)
  {
    forall i :: 0 <= i < |s| ==> IsAsciiDigit(s[i])
  }

  /** Position of the first `.` in `s`, or `|s|` when there is none. */
  function PointIndex(s: string): (k: nat)
    ensures k <= |s|
    ensures k < |s| ==> s[k] == '.'
    ensures forall i :: 0 <= i < k ==> s[i] != '.'
  {
    if |s| == 0 || s[0] == '.' then 0 else 1 + PointIndex(s[1..])
  }

  /** A signed decimal literal (`12`, `-12.5`, `12.`, `.5`) and its value. */
  function DecimalLiteral(t: string): Option<real>
  {
    var neg := |t| > 0 && t[0] == '-';
    var body := if |t| > 0 && (t[0] == '-' || t[0] == '+') then t[1..] else t;
    var k := PointIndex(body);
    var whole := body[..k];
    var frac := if k < |body| then body[k + 1..] else "";
    if |whole| + |frac| > 0 && AllDigits(whole) && AllDigits(frac) then
      var v := DecimalValue(whole) as real + FractionValue(frac);
      Some(if neg then -v else v)
    else None
  }

  /** `float(x)`: numbers and bools convert, strings must be a decimal literal. */
  function PyFloat(j: Json): (r: Outcome<real>)
    ensures j.JFloat? ==> r == Returned(j.f)
    ensures j.JInt? ==> r == Returned(j.i as real)
    ensures j.JNull? || j.JArr? || j.JObj? ==> r.Raised?
  {
    match j
    case JInt(i) => Returned(i as real)
    case JBool(b) => Returned(if b then 1.0 else 0.0)
    case JFloat(f) => Returned(f)
    case JStr(s) =>
      var lit := DecimalLiteral(Strip(s));
      if lit.Some? then Returned(lit.value) else Raised("could not convert string to float: '" + s + "'")
    case JNull => Raised("float() argument must be a string or a real number, not 'NoneType'")
    case JArr(_) => Raised("float() argument must be a string or a real number, not 'list'")
    case JObj(_) => Raised("float() argument must be a string or a real number, not 'dict'")
  }

  /** Pydantic's message for a value that cannot become a string. */
  const StrTypeExpected := "str type expected"

  /** An `Optional[str]` model field as pydantic v1 fills it: `None` stays missing, numbers and bools become their `str`, containers are rejected. */
  function PyStr(j: Json): (r: Outcome<Option<string>>)
    ensures j.JStr? ==> r == Returned(Some(j.s))
    ensures r.Raised? ==> r.error == StrTypeExpected
    ensures j.JNull? <==> r == Returned(None)
    ensures r.Raised? <==> j.JArr? || j.JObj?
  {
    match j
    case JNull => Returned(None)
    case JStr(s) => Returned(Some(s))
    case JInt(i) => Returned(Some(IntToString(i)))
    case JFloat(f) => Returned(Some(ReprFloat(f)))
    case JBool(b) => Returned(Some(if b then "True" else "False"))
    case JArr(_) => Raised(StrTypeExpected)
    case JObj(_) => Raised(StrTypeExpected)
  }

  /** `int(s)` and `str(n)` are inverse on integers. */
  lemma IntRoundTrip(i: int)
    ensures PyInt(JStr(IntToString(i))) == Returned(i)
  {
    var s := IntToString(i);
    if i < 0 {
      NatToStringRoundTrip(-i);
      assert s[1..] == NatToString(-i);
      assert !IsDigits(s);
    } else {
      NatToStringRoundTrip(i);
    }
    assert Strip(s) == s;
  }
}
