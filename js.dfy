/**
 * The JavaScript values the routes receive, build and return: request bodies
 * parsed from JSON, provider replies, and the objects the handlers assemble.
 * Truthiness, `||`, destructuring defaults and property reads (which throw on
 * `null` and `undefined`) follow the language's rules.
 */
module Js {
  import opened Wrappers

  datatype Value =
    | Undefined
    | Null
    | Bool(b: bool)
    | Num(n: real)
    | Str(s: string)
    | Arr(items: seq<Value>)
    | Obj(fields: map<string, Value>)

  /**
   * The most specific class of a thrown error. The Anthropic SDK declares
   * APIConnectionTimeoutError as a subclass of APIConnectionError and that as a
   * subclass of APIError; PlainError stands for every other Error (a TypeError,
   * an HTTP client error from the search request).
   */
  datatype ErrorClass = APIErrorClass | ConnectionErrorClass | TimeoutErrorClass | PlainError

  /**
   * A thrown error: its class, `status` (absent outside the SDK), `name`
   * (empty when unset), `message`, and the `request-id` response header.
   */
  datatype Fault = Fault(cls: ErrorClass, status: Option<int>, name: string, message: string, requestId: Option<string>)

  /** `JSON.stringify(v)` and `JSON.stringify(v, null, 2)`, which the model does not define. */
  datatype Serializer = Serializer(compact: Value -> string, indented: Value -> string)

  /** The error the engine throws for a property read on a nullish value or a call of a non-function. */
  function TypeError(message: string): Fault {
    Fault(PlainError, None, "TypeError", message, None)
  }

  predicate IsNullish(v: Value) {
    v.Undefined? || v.Null?
  }

  /** Whether `v` counts as true in a condition: all but undefined, null, false, 0 and "". */
  predicate Truthy(v: Value) {
    match v
    case Undefined => false
    case Null => false
    case Bool(b) => b
    case Num(n) => n != 0.0
    case Str(s) => s != ""
    case Arr(_) => true
    case Obj(_) => true
  }

  /** `a || b`. */
  function Or(a: Value, b: Value): Value {
    if Truthy(a) then a else b
  }

  /** The default of a destructuring pattern `{ k = d }`: used only when the property is undefined. */
  function Default(v: Value, d: Value): Value {
    if v.Undefined? then d else v
  }

  /** Property `k` of a value that is not nullish; `undefined` when it has none. */
  function Field(v: Value, k: string): Value {
    if v.Obj? && k in v.fields then v.fields[k] else Undefined
  }

  /** `v.k`, which throws a TypeError when `v` is null or undefined. */
  function Get(v: Value, k: string): (r: Result<Value, Fault>)
    ensures r.Err? <==> IsNullish(v)
    ensures r.Ok? ==> r.value == Field(v, k)
    ensures r.Err? ==> r.error.cls == PlainError && r.error.name == "TypeError"
  {
    if IsNullish(v) then
      Err(TypeError("Cannot read properties of " + (if v.Null? then "null" else "undefined") + " (reading '" + k + "')"))
    else
      Ok(Field(v, k))
  }

  function Digit(d: nat): char
    requires d < 10
  {
    "0123456789"[d]
  }

  predicate IsDigits(s: string) {
    forall i :: 0 <= i < |s| ==> '0' <= s[i] <= '9'
  }

  /** The decimal text of a whole number, as `String(n)` gives it. */
  function NatText(n: nat): (s: string)
    ensures |s| > 0 && IsDigits(s)
    ensures (|s| > 1) == (n >= 10)
    ensures n >= 1 ==> s[0] != '0'
  {
    if n < 10 then [Digit(n)] else NatText(n / 10) + [Digit(n % 10)]
  }

  /** The number a string of decimal digits denotes. */
  function DigitsValue(s: string): nat
    requires IsDigits(s)
  {
    if s == [] then 0 else DigitsValue(s[..|s| - 1]) * 10 + ((s[|s| - 1] as int) - ('0' as int))
  }

  /** NatText is injective: reading the digits back gives the number. */
  lemma {:induction false} NatTextRoundTrip(n: nat)
    ensures DigitsValue(NatText(n)) == n
  {
    if n >= 10 {
      NatTextRoundTrip(n / 10);
      var s := NatText(n);
      assert s[..|s| - 1] == NatText(n / 10);
    }
  }

  /**
   * The text a template literal `${v}` inserts. A number prints as
   * JSON.stringify prints it; an array joins its elements with commas, with
   * null and undefined as the empty string.
   */
  function ToText(ser: Serializer, v: Value): string
    decreases v, 1
  {
    match v
    case Undefined => "undefined"
    case Null => "null"
    case Bool(b) => if b then "true" else "false"
    case Num(_) => ser.compact(v)
    case Str(s) => s
    case Arr(items) => if items == [] then "" else JoinFrom(ser, v, 0)
    case Obj(_) => "[object Object]"
  }

  /** The elements of array `whole` from index `i` on, as `Array.prototype.join` with "," renders them. */
  function JoinFrom(ser: Serializer, whole: Value, i: nat): string
    requires whole.Arr? && i < |whole.items|
    decreases whole, 0, |whole.items| - i
  {
    var item := whole.items[i];
    var first := if IsNullish(item) then "" else ToText(ser, item);
    if i + 1 == |whole.items| then first else first + "," + JoinFrom(ser, whole, i + 1)
  }
}
