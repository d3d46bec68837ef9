/** Values shared by the engine's components: optional values, results, the
    decoded JSON payloads the brokerage returns, and the Python conversions
    (`dict.get`, subscripting, `int()`, `float()`, truthiness) applied to them. */
module Common {

  datatype Option<+T> = None | Some(value: T)

  datatype Result<+T, +E> = Success(value: T) | Failure(error: E) {
    predicate IsFailure() { Failure? }
    function PropagateFailure<U>(): Result<U, E>
      requires Failure?
    {
      Failure(error)
    }
    function Extract(): T
      requires Success?
    {
      value
    }
  }

  /** The ways an operation of the engine can fail. */
  datatype Error =
    | NoPriceData              // no quote arrived before the price wait timed out
    | ZeroDivision             // a float division by zero
    | Gateway(message: string) // the brokerage call raised
    | Malformed                // a lookup or conversion on a response raised
                               // (KeyError, TypeError, AttributeError, ValueError)

  /** A decoded JSON payload from the brokerage, typed field by field by how
      the engine uses it. A field the engine converts with `int()` or
      `float()` (units, prices, costs, balances) is a `Num`, whether the wire
      carries it as a number or as a numeric string. A field it keeps or
      compares as text (identifiers, times, reasons, states, instruments) is
      a `Text`, even when its characters are digits: an order id such as
      "6372" is `Text("6372")`. */
  datatype Value = Text(s: string) | Num(r: real) | Obj(fields: map<string, Value>)

  const EmptyObj: Value := Obj(map[])

  /** Python truthiness of a payload value. */
  predicate Truthy(v: Value) {
    match v
    case Text(s) => s != ""
    case Num(r) => r != 0.0
    case Obj(m) => |m| > 0
  }

  /** What `v.get(key, default)` yields when `v` is a dict. */
  function Field(v: Value, key: string, default: Value): Value {
    if v.Obj? && key in v.fields then v.fields[key] else default
  }

  /** `v.get(key, default)`: only a dict has `get`. */
  function Get(v: Value, key: string, default: Value): (r: Result<Value, Error>)
    ensures r.Success? <==> v.Obj?
    ensures r.Success? ==> r.value == Field(v, key, default)
    ensures r.Failure? ==> r.error == Malformed
  {
    match v
    case Obj(m) => Success(if key in m then m[key] else default)
    case _ => Failure(Malformed)
  }

  /** Whether `float(v.get(key, 0))` succeeds on a dict `v`. */
  predicate NumericField(v: Value, key: string) {
    Field(v, key, Num(0.0)).Num?
  }

  /** The number `float(v.get(key, 0))` yields when it succeeds. */
  function NumberAt(v: Value, key: string): real
    requires NumericField(v, key)
  {
    Field(v, key, Num(0.0)).r
  }

  /** `v[key]`: a missing key or a value that is not a dict raises. */
  function Index(v: Value, key: string): Result<Value, Error> {
    if v.Obj? && key in v.fields then Success(v.fields[key]) else Failure(Malformed)
  }

  /** `float(v)`. */
  function ToFloat(v: Value): Result<real, Error> {
    if v.Num? then Success(v.r) else Failure(Malformed)
  }

  /** `int(v)`: a number is truncated toward zero. */
  function ToInt(v: Value): Result<int, Error> {
    if v.Num? then Success(Trunc(v.r)) else Failure(Malformed)
  }

  /** `float(v.get(key, 0))`. */
  function FloatField(v: Value, key: string): (r: Result<real, Error>)
    ensures r.Success? <==> v.Obj? && NumericField(v, key)
    ensures r.Success? ==> r.value == NumberAt(v, key)
    ensures r.Failure? ==> r.error == Malformed
  {
    var x :- Get(v, key, Num(0.0));
    ToFloat(x)
  }

  function Abs(x: real): real {
    if x < 0.0 then -x else x
  }

  function Min(a: int, b: int): int {
    if a <= b then a else b
  }

  /** Python's `int()` on a float: the integer part, rounded toward zero. */
  function Trunc(x: real): (n: int)
    ensures Abs(n as real) <= Abs(x) < Abs(n as real) + 1.0
    ensures x >= 0.0 ==> n >= 0
    ensures x <= 0.0 ==> n <= 0
  {
    if x >= 0.0 then x.Floor else -((-x).Floor)
  }
}
