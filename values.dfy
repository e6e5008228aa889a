/** The JavaScript values that reach the library's argument checks, and the
    errors those checks throw. Numbers are exact reals: there is no IEEE
    rounding, no NaN and no infinity among the inputs. */
module JsValues {

  /** A value passed where the library expects a dimension, an index or a
      data array. An array is an array of numbers. */
  datatype Value =
    | Num(x: real)
    | Str(s: string)
    | Arr(items: seq<real>)
    | Null
    | Undefined

  /** `Number.isInteger`: a number without a fractional part. */
  predicate IsInteger(v: Value)
  {
    v.Num? && v.x.Floor as real == v.x
  }

  /** The integer that an integral number stands for. */
  function IntOf(v: Value): int
    requires IsInteger(v)
  {
    v.x.Floor
  }

  /** The number that stands for integer `k`. */
  function Int(k: int): Value
  {
    Num(k as real)
  }

  /** The three kinds of exception the library throws (or, for
      `ReferenceError`, that the engine throws on its behalf). */
  datatype Error = TypeError | RangeError | ReferenceError

  /** A check that either passes or throws. */
  datatype Outcome = Pass | Fail(error: Error)

  /** A computation that either returns a value or throws. */
  datatype Result<T> = Ok(value: T) | Err(error: Error)

  /** `IsInteger` accepts exactly the numbers that stand for some integer,
      and `IntOf` recovers that integer. */
  lemma IsIntegerIffInt(v: Value)
    ensures IsInteger(v) <==> exists k: int :: v == Int(k)
    ensures IsInteger(v) ==> v == Int(IntOf(v))
  {
    if IsInteger(v) {
      assert v == Int(v.x.Floor);
    }
  }

  /** `IntOf` inverts `Int`. */
  lemma IntOfInt(k: int)
    ensures IsInteger(Int(k)) && IntOf(Int(k)) == k
  {
  }
}
