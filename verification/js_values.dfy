/**
 * The JavaScript values the two forms work with, reduced to what their rules
 * can tell apart: optional values, the three states of a property in a JSON
 * request body, and the contents of a numeric form input.
 */
module JsValues {

  /** A value that may be `null` or `undefined`; the forms never tell the two apart when reading. */
  datatype Option<T> = None | Some(value: T)

  /** `o ?? fallback`: the value when there is one, the fallback for `null` and `undefined`. */
  function Coalesce<T>(o: Option<T>, fallback: T): T {
    if o.Some? then o.value else fallback
  }

  /**
   * A property of an object that is serialised into a request body:
   * `undefined` (the key is dropped from the JSON), `null`, or a value.
   */
  datatype Field<+T> = Undefined | Null | Present(value: T)

  /**
   * What Formik stores for an `<input type="number">`: the parsed number,
   * or the empty string `''` when the input is blank.
   */
  datatype NumberInput = Num(value: real) | Blank

  /** JavaScript truthiness of a number field: `''` and `0` are falsy. */
  predicate NumberTruthy(n: NumberInput) {
    n.Num? && n.value != 0.0
  }

  /** JavaScript truthiness of an optional boolean: only `true` is truthy. */
  predicate BoolTruthy(b: Option<bool>) {
    b == Some(true)
  }

  /** JavaScript truthiness of an optional string: `null`, `undefined` and `''` are falsy. */
  predicate StringTruthy(s: Option<string>) {
    s.Some? && s.value != ""
  }

  /**
   * The number a number field contributes to an arithmetic product:
   * `x * ''` coerces `''` to `0`.
   */
  function NumberValue(n: NumberInput): real {
    match n
    case Num(v) => v
    case Blank => 0.0
  }

  /**
   * `value == '' ? null : value` on a body property: the empty string
   * becomes `null`, anything else (including `undefined` and `null`, which
   * are not loosely equal to `''`) is passed on.
   */
  function EmptyToNull(f: Field<string>): (r: Field<string>)
    ensures r.Present? <==> f.Present? && f.value != ""
    ensures r.Present? ==> r == f
    ensures r.Undefined? <==> f.Undefined?
  {
    if f == Present("") then Null else f
  }
}
