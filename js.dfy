/** JavaScript values as far as the nutrition service sees them: parsed JSON, `undefined`,
    and the conversions of ECMA-262 that the service relies on (ToBoolean, section 7.1.2;
    ToNumber, section 7.1.4; ToString, section 7.1.17). Engine behaviour that is a library
    matter (JSON.parse, the number grammar, number formatting) is a field of `Runtime`. */
module Js {

  datatype Option<T> = None | Some(value: T)

  datatype Result<T, E> = Ok(value: T) | Fail(error: E)

  /** A value produced by JSON.parse. `undefined` is never one of these: a missing
      property is `None` in an `Option<Json>`. */
  datatype Json =
    | Null
    | Bool(b: bool)
    | Num(n: real)
    | Str(s: string)
    | Arr(items: seq<Json>)
    | Obj(fields: map<string, Json>)

  /** A JavaScript number, reduced to what the service can observe: NaN or a finite value. */
  datatype Number = NaN | Finite(value: real)

  /** JSON.parse can only turn a text that begins with `{` into an object (ECMA-404: the
      text's first token then begins an object). */
  ghost predicate BraceTextsParseToObjects(p: string -> Option<Json>)
  {
    forall s :: |s| > 0 && s[0] == '{' && p(s).Some? ==> p(s).value.Obj?
  }

  /** JSON.parse: `None` when it throws a SyntaxError. */
  type Parser = p: string -> Option<Json> | BraceTextsParseToObjects(p) witness (s: string) => None

  /** The engine's library behaviour that the model leaves abstract. */
  datatype Runtime = Runtime(
    stringToNumber: string -> Number,   // StringToNumber of a non-empty string
    numberToString: real -> string,     // Number::toString
    parse: Parser,                      // JSON.parse
    readError: (string, string) -> string) // message of the TypeError raised by reading key k of "null"/"undefined"

  /** ToBoolean (ECMA-262 section 7.1.2); JSON never produces NaN. */
  predicate Truthy(v: Option<Json>)
  {
    match v
    case None => false
    case Some(Null) => false
    case Some(Bool(b)) => b
    case Some(Num(x)) => x != 0.0
    case Some(Str(s)) => s != ""
    case Some(Arr(_)) => true
    case Some(Obj(_)) => true
  }

  /** ToString (ECMA-262 section 7.1.17) of a JSON value; arrays go through
      Array.prototype.join with ",", where null elements become "". */
  function ToString(rt: Runtime, v: Json): string
    decreases v, 1
  {
    match v
    case Null => "null"
    case Bool(b) => if b then "true" else "false"
    case Num(x) => rt.numberToString(x)
    case Str(s) => s
    case Arr(xs) => Join(rt, xs)
    case Obj(_) => "[object Object]"
  }

  /** ToString of a possibly missing value: `undefined` prints as "undefined". */
  function ToStringOpt(rt: Runtime, v: Option<Json>): string
  {
    match v
    case None => "undefined"
    case Some(j) => ToString(rt, j)
  }

  function Join(rt: Runtime, xs: seq<Json>): string
    decreases xs, 0
  {
    if |xs| == 0 then ""
    else
      var first := if xs[0].Null? then "" else ToString(rt, xs[0]);
      if |xs| == 1 then first else first + "," + Join(rt, xs[1..])
  }

  /** StringToNumber: the empty string is +0; the rest of the numeric-literal grammar is the engine's. */
  function StringToNumber(rt: Runtime, s: string): Number
  {
    if s == "" then Finite(0.0) else rt.stringToNumber(s)
  }

  /** ToNumber (ECMA-262 section 7.1.4), i.e. `Number(v)`. Arrays and objects go through
      ToPrimitive, whose `valueOf` returns the object itself, so their string form is converted. */
  function ToNumber(rt: Runtime, v: Option<Json>): Number
  {
    match v
    case None => NaN
    case Some(Null) => Finite(0.0)
    case Some(Bool(b)) => Finite(if b then 1.0 else 0.0)
    case Some(Num(x)) => Finite(x)
    case Some(Str(s)) => StringToNumber(rt, s)
    case Some(j) => StringToNumber(rt, ToString(rt, j))
  }

  /** `Number(v) || d`: the converted number unless it is falsy (NaN or zero), else `d`. */
  function NumberOr(rt: Runtime, v: Option<Json>, d: real): (r: real)
    ensures ToNumber(rt, v).Finite? && ToNumber(rt, v).value != 0.0 ==> r == ToNumber(rt, v).value
    ensures ToNumber(rt, v).NaN? || ToNumber(rt, v) == Finite(0.0) ==> r == d
    ensures d != 0.0 ==> r != 0.0
  {
    match ToNumber(rt, v)
    case NaN => d
    case Finite(x) => if x != 0.0 then x else d
  }

  /** The fixed cases of `Number(v) || d`: a missing field, null, false and "" give the default,
      true gives 1, and a non-zero JSON number is kept as it is. */
  lemma NumberOrFixedCases(rt: Runtime, d: real, x: real)
    ensures NumberOr(rt, None, d) == d
    ensures NumberOr(rt, Some(Null), d) == d
    ensures NumberOr(rt, Some(Bool(false)), d) == d
    ensures NumberOr(rt, Some(Bool(true)), d) == 1.0
    ensures NumberOr(rt, Some(Str("")), d) == d
    ensures NumberOr(rt, Some(Arr([])), d) == d
    ensures x != 0.0 ==> NumberOr(rt, Some(Num(x)), d) == x
    ensures NumberOr(rt, Some(Num(0.0)), d) == d
  {
    assert ToString(rt, Arr([])) == "";
  }

  /** `v || d` for a JSON-valued property. */
  function OrElse(v: Option<Json>, d: Json): (r: Json)
    ensures Truthy(v) ==> Some(r) == v
    ensures !Truthy(v) ==> r == d
  {
    if Truthy(v) then v.value else d
  }

  /** A destructuring default (`{ k = d } = obj`): applies only when the property is undefined. */
  function Defaulted(v: Option<Json>, d: Json): (r: Json)
    ensures v.None? ==> r == d
    ensures v.Some? ==> r == v.value
  {
    match v
    case None => d
    case Some(j) => j
  }

  /** Property read `v.key` on a value that is not null (reading from null throws, which
      callers model themselves). Only objects have the named properties the service reads. */
  function Member(v: Json, key: string): (r: Option<Json>)
    ensures r.Some? <==> v.Obj? && key in v.fields
    ensures r.Some? ==> r.value == v.fields[key]
  {
    match v
    case Obj(m) => if key in m then Some(m[key]) else None
    case _ => None
  }

  /** Property read `v[0]` on a value that is not null: an array's first element, an
      object's "0" property, a string's first character. */
  function Index0(v: Json): Option<Json>
  {
    match v
    case Arr(xs) => if |xs| > 0 then Some(xs[0]) else None
    case Obj(m) => if "0" in m then Some(m["0"]) else None
    case Str(s) => if |s| > 0 then Some(Str([s[0]])) else None
    case _ => None
  }

  /** A property read `v.key` (or `v[0]` when `index0`) where `v` may be undefined or null:
      those two throw a TypeError whose message the engine composes. */
  function Read(rt: Runtime, v: Option<Json>, key: string): (r: Result<Option<Json>, string>)
    ensures r.Fail? <==> v.None? || v == Some(Null)
    ensures v.Some? && !v.value.Null? ==> r == Ok(if key == "0" then Index0(v.value) else Member(v.value, key))
  {
    match v
    case None => Fail(rt.readError("undefined", key))
    case Some(Null) => Fail(rt.readError("null", key))
    case Some(j) => Ok(if key == "0" then Index0(j) else Member(j, key))
  }

  /** Decimal text of an integer, as a template literal prints it: the digits of its
      magnitude, after a minus sign when it is negative. */
  function IntToString(i: int): (r: string)
    ensures |r| > 0
    ensures i >= 0 ==> IsDecimal(r) && DigitsValue(r) == i
    ensures i < 0 ==> r[0] == '-' && IsDecimal(r[1..]) && DigitsValue(r[1..]) == -i
  {
    if i < 0 then
      var m := NatToString(-i);
      assert ("-" + m)[1..] == m;
      "-" + m
    else NatToString(i)
  }

  /** Non-empty, all digits and no leading zero unless the text is "0". */
  predicate IsDecimal(s: string)
  {
    && |s| > 0
    && (forall k :: 0 <= k < |s| ==> '0' <= s[k] <= '9')
    && (|s| > 1 ==> s[0] != '0')
  }

  /** The number a string of decimal digits denotes, most significant digit first. */
  function DigitsValue(s: string): int
  {
    if |s| == 0 then 0 else DigitsValue(s[..|s| - 1]) * 10 + (s[|s| - 1] as int - '0' as int)
  }

  /** Number::toString of a natural number: the canonical decimal text that denotes it. */
  function NatToString(n: nat): (r: string)
    ensures IsDecimal(r) && DigitsValue(r) == n
    decreases n
  {
    var d := [(('0' as int) + n % 10) as char];
    if n < 10 then d
    else
      var p := NatToString(n / 10);
      assert (p + d)[..|p + d| - 1] == p;
      p + d
  }
}
