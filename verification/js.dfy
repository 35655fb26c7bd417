/**
 Values as the dashboard's JavaScript sees them once a JSON message has been
 decoded, and the three ways the code inspects them: truthiness (`if (x)`,
 `x || d`, `x ? a : b`), strict equality with `true`, and the optional field
 that is simply absent. NaN is not modelled.
 */
module Js {

  /** An optional value: `None` stands for `null`/`undefined`. */
  datatype Option<+T> = None | Some(value: T)

  /** A decoded JSON field whose type the code does not pin down. */
  datatype Value =
    | Undefined
    | Null
    | Bool(b: bool)
    | Num(n: real)
    | Str(s: string)
    | Object

  /** JavaScript's ToBoolean. */
  predicate Truthy(v: Value)
  {
    match v
    case Undefined => false
    case Null => false
    case Bool(b) => b
    case Num(n) => n != 0.0
    case Str(s) => s != ""
    case Object => true
  }

  /** `v === true`. */
  predicate IsTrue(v: Value)
  {
    v == Bool(true)
  }

  /** Truthiness of an optional string field: absent and "" are both falsy. */
  predicate TruthyString(o: Option<string>)
  {
    o.Some? && o.value != ""
  }

  /** `x || d` for an optional numeric field: an absent field and 0 are both
      falsy, so both give the default. */
  function OrNumber(x: Option<real>, d: real): (r: real)
    ensures x.Some? && x.value != 0.0 ==> r == x.value
    ensures x.None? || x.value == 0.0 ==> r == d
    ensures d != 0.0 ==> r != 0.0
  {
    if x.Some? && x.value != 0.0 then x.value else d
  }

  /** Strict `=== true` implies truthiness, but not the other way round:
      the number 1 is truthy and is not `true`. */
  lemma StrictTrueIsStrongerThanTruthy(v: Value)
    ensures IsTrue(v) ==> Truthy(v)
    ensures Truthy(Num(1.0)) && !IsTrue(Num(1.0))
  {
  }
}
