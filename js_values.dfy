/**
 * The JavaScript values the client handles: whatever `res.json()` can produce,
 * plus `undefined`, together with the three pieces of JavaScript semantics the
 * client relies on: truthiness (`!v`), property reads (`v.key`) and the message
 * that `new Error(v)` keeps.
 */
module JsValues {
  import opened Wrappers

  /** A JavaScript value. JSON numbers are modelled as integers. */
  datatype Value =
    | Undefined
    | Null
    | Bool(b: bool)
    | Num(n: int)
    | Str(s: string)
    | Arr(elems: seq<Value>)
    | Obj(props: map<string, Value>)

  /**
   * An error thrown by the client: `new Error(message)`, or the TypeError that
   * reading a property of `undefined` or `null` raises (its text is not modelled).
   */
  datatype Error = Error(message: string) | TypeError

  predicate Nullish(v: Value) {
    v.Undefined? || v.Null?
  }

  /** JavaScript truthiness; `!v` holds exactly when `Truthy(v)` does not. */
  predicate Truthy(v: Value) {
    match v
    case Undefined | Null => false
    case Bool(b) => b
    case Num(n) => n != 0
    case Str(s) => s != ""
    case Arr(_) | Obj(_) => true
  }

  /**
   * The value of an own property, `undefined` when there is none. The client
   * reads the keys `error`, `message`, `result`, `signature` and `token`, which
   * no prototype of a JSON value defines.
   */
  function Get(v: Value, key: string): Value {
    if v.Obj? && key in v.props then v.props[key] else Undefined
  }

  /** The property read `v.key`, which throws a TypeError on `undefined` and `null`. */
  function Member(v: Value, key: string): Result<Value, Error> {
    if Nullish(v) then Failure(TypeError) else Success(Get(v, key))
  }

  /**
   * `String(v)` returns rather than throws. An object is converted through its
   * `toString`; an own `toString` property of a parsed object is never callable,
   * and the inherited `valueOf` gives the object back, so the conversion throws.
   * An array is converted by joining its elements, each converted in turn.
   */
  ghost predicate Printable(v: Value) {
    match v
    case Obj(props) => "toString" !in props
    case Arr(elems) => forall i :: 0 <= i < |elems| ==> Printable(elems[i])
    case _ => true
  }

  /** The message of `new Error(v)`: empty for `undefined`, `String(v)` otherwise. */
  function ErrorMessage(v: Value): (m: Result<string, Error>)
    ensures m.Success? <==> Printable(v)
    ensures m.Failure? ==> m.error == TypeError
    ensures v.Str? ==> m == Success(v.s)
    ensures v.Undefined? ==> m == Success("")
    ensures v.Null? ==> m == Success("null")
    ensures v.Obj? && Printable(v) ==> m == Success("[object Object]")
  {
    if v.Undefined? then Success("") else JsString(v)
  }

  /** What `new Error(message)` throws: an Error with that message, or the TypeError of converting it. */
  function NewError(message: Value): (e: Error)
    ensures Printable(message) ==> e == Error(ErrorMessage(message).value)
    ensures !Printable(message) ==> e == TypeError
  {
    match ErrorMessage(message)
    case Success(m) => Error(m)
    case Failure(e) => e
  }

  /** `String(v)`. */
  function JsString(v: Value): (r: Result<string, Error>)
    ensures r.Success? <==> Printable(v)
    ensures r.Failure? ==> r.error == TypeError
    decreases v, if v.Arr? then |v.elems| + 1 else 0
  {
    match v
    case Undefined => Success("undefined")
    case Null => Success("null")
    case Bool(b) => Success(if b then "true" else "false")
    case Num(n) => Success(Decimal(n))
    case Str(s) => Success(s)
    case Arr(elems) => JoinFrom(v, 0)
    case Obj(props) => if "toString" in props then Failure(TypeError) else Success("[object Object]")
  }

  /** `arr.join(",")` from index i on: `undefined` and `null` elements print as nothing. */
  function JoinFrom(arr: Value, i: nat): (r: Result<string, Error>)
    requires arr.Arr? && i <= |arr.elems|
    ensures r.Success? <==> forall j :: i <= j < |arr.elems| ==> Printable(arr.elems[j])
    ensures r.Failure? ==> r.error == TypeError
    decreases arr, |arr.elems| - i
  {
    if i == |arr.elems| then Success("")
    else
      var e := arr.elems[i];
      var head := if Nullish(e) then Success("") else JsString(e);
      if head.Failure? then head
      else if i + 1 == |arr.elems| then head
      else
        var tail := JoinFrom(arr, i + 1);
        if tail.Failure? then tail else Success(head.value + "," + tail.value)
  }

  /** The decimal text of an integer, with a leading minus sign when negative. */
  function Decimal(n: int): string {
    if n < 0 then "-" + Digits(-n) else Digits(n)
  }

  function Digits(n: nat): string {
    var d := "0123456789"[n % 10];
    if n < 10 then [d] else Digits(n / 10) + [d]
  }
}
