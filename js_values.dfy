/** The JavaScript values the client handles: filter objects, request and
    response bodies and the todo records the backend sends. Numbers are
    integers here; `NaN`, `-0` and fractions are not modelled. */
module JsValues {
  import opened Wrappers

  datatype Value =
    | Undefined
    | Null
    | Bool(b: bool)
    | Num(n: int)
    | Str(s: string)
    | Arr(items: seq<Value>)
    | Obj(fields: map<string, Value>)

  /** Exceptions that the client code can see raised. */
  datatype Thrown =
    | Error(message: string)            // `new Error(message)`
    | PropertyOfNullish(property: string) // TypeError: reading a property of null or undefined
    | NetworkFailure(cause: string)       // the rejection of `fetch`
    | InvalidJson(cause: string)          // the rejection of `response.json()`

  predicate IsNullish(v: Value) {
    v.Undefined? || v.Null?
  }

  /** JavaScript's ToBoolean: the test of `if (v)`, `!v` and `v || w`. */
  predicate Truthy(v: Value)
    ensures Truthy(v) ==> !IsNullish(v)
    ensures v.Str? ==> (Truthy(v) <==> v.s != "")
    ensures v.Arr? || v.Obj? ==> Truthy(v)
  {
    match v
    case Undefined => false
    case Null => false
    case Bool(b) => b
    case Num(n) => n != 0
    case Str(s) => s != ""
    case Arr(_) => true
    case Obj(_) => true
  }

  /** The property read `v.key`: it throws on null and undefined, yields
      the own field of an object, and yields undefined for a missing field
      and for the other primitives. Inherited properties are not modelled:
      `"abc".search`, for one, is `String.prototype.search` in JavaScript. */
  function Get(v: Value, key: string): (r: Result<Value, Thrown>)
    ensures r.Failure? <==> IsNullish(v)
    ensures r.Failure? ==> r.error == PropertyOfNullish(key)
    ensures v.Obj? ==> r == Success(if key in v.fields then v.fields[key] else Undefined)
    ensures !v.Obj? && !IsNullish(v) ==> r == Success(Undefined)
  {
    match v
    case Undefined => Failure(PropertyOfNullish(key))
    case Null => Failure(PropertyOfNullish(key))
    case Obj(fields) => Success(if key in fields then fields[key] else Undefined)
    case _ => Success(Undefined)
  }

  /** A property read that cannot throw: null and undefined read as undefined. */
  function Field(v: Value, key: string): (r: Value)
    ensures IsNullish(v) ==> r == Undefined
    ensures !IsNullish(v) ==> Get(v, key) == Success(r)
  {
    Get(v, key).GetOr(Undefined)
  }

  function Digit(d: int): (c: char)
    requires 0 <= d < 10
    ensures '0' <= c <= '9'
  {
    "0123456789"[d]
  }

  /** The decimal numeral of `n`, without leading zeros. */
  function NatToDecimal(n: nat): (s: string)
    ensures |s| > 0
    ensures forall i :: 0 <= i < |s| ==> '0' <= s[i] <= '9'
    ensures |s| > 1 ==> s[0] != '0'
  {
    if n < 10 then [Digit(n)] else NatToDecimal(n / 10) + [Digit(n % 10)]
  }

  /** The number a string of decimal digits denotes. */
  function DecimalValue(s: string): int
    requires forall i :: 0 <= i < |s| ==> '0' <= s[i] <= '9'
  {
    if s == [] then 0 else 10 * DecimalValue(s[..|s| - 1]) + (s[|s| - 1] as int - '0' as int)
  }

  lemma {:induction false} DecimalRoundTrip(n: nat)
    ensures DecimalValue(NatToDecimal(n)) == n
  {
    var s := NatToDecimal(n);
    if n < 10 {
      assert s[..|s| - 1] == [];
    } else {
      DecimalRoundTrip(n / 10);
      assert s[..|s| - 1] == NatToDecimal(n / 10);
    }
  }

  /** The decimal numeral of an integer, with a leading "-" when negative.
      This is what `String(n)` prints for a safe integer below 10^21. */
  function IntToDecimal(n: int): (s: string)
    ensures |s| > 0
    ensures n < 0 <==> s[0] == '-'
  {
    if n < 0 then "-" + NatToDecimal(-n) else NatToDecimal(n)
  }

  /** `items.join(sep)` on strings. */
  function Join(items: seq<string>, sep: string): (r: string)
    ensures |items| > 0 ==> |r| >= |items[0]| && r[..|items[0]|] == items[0]
  {
    if |items| == 0 then ""
    else if |items| == 1 then items[0]
    else items[0] + sep + Join(items[1..], sep)
  }

  /** JavaScript's `String(v)`, as done by `new Error(v)`, a template
      literal and `URLSearchParams.append`. An array joins its items with
      "," and shows null and undefined items as empty. */
  function ToJsString(v: Value): (r: string)
    ensures v.Str? ==> r == v.s
    ensures v.Num? ==> r == IntToDecimal(v.n)
    ensures v.Bool? ==> (r == "true" <==> v.b) && (r == "false" <==> !v.b)
    ensures v.Obj? ==> r == "[object Object]"
    ensures v.Arr? && |v.items| == 1 && v.items[0].Str? ==> r == v.items[0].s
  {
    match v
    case Undefined => "undefined"
    case Null => "null"
    case Bool(b) => if b then "true" else "false"
    case Num(n) => IntToDecimal(n)
    case Str(s) => s
    case Arr(items) =>
      Join(seq(|items|, i requires 0 <= i < |items| =>
             if IsNullish(items[i]) then "" else ToJsString(items[i])), ",")
    case Obj(_) => "[object Object]"
  }

  /** Converting a number and reading it back gives the number. */
  lemma IntToDecimalRoundTrip(n: int)
    ensures var s := IntToDecimal(n);
      if n < 0 then (forall i :: 1 <= i < |s| ==> '0' <= s[i] <= '9') && -DecimalValue(s[1..]) == n
      else (forall i :: 0 <= i < |s| ==> '0' <= s[i] <= '9') && DecimalValue(s) == n
  {
    var s := IntToDecimal(n);
    if n < 0 {
      var d := NatToDecimal(-n);
      assert s == "-" + d && s[1..] == d;
      DecimalRoundTrip(-n);
    } else {
      assert s == NatToDecimal(n);
      DecimalRoundTrip(n);
    }
  }
}
