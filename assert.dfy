/** The stateless validators of `src/assert.js`. Each either passes or throws;
    the integer test always runs before any bound test. The `caller` label
    only feeds the error message and is not modelled. */
module Assert {
  import opened JsValues

  /** `Assert.integer`: passes exactly on numbers that stand for an integer,
      otherwise throws a TypeError. */
  function Integer(value: Value): (r: Outcome)
    ensures r == Pass || r == Fail(TypeError)
    ensures r == Pass <==> exists k: int :: value == Int(k)
  {
    IsIntegerIffInt(value);
    if !IsInteger(value) then Fail(TypeError) else Pass
  }

  /** `Assert.integerMin`: an integer at least `min`; a non-integer is a
      TypeError, an integer below `min` a RangeError. */
  function IntegerMin(value: Value, min: int): (r: Outcome)
    ensures r == Pass <==> exists k: int :: value == Int(k) && min <= k
    ensures r == Fail(RangeError) <==> exists k: int :: value == Int(k) && k < min
    ensures r == Fail(TypeError) <==> Integer(value) != Pass
  {
    IsIntegerIffInt(value);
    match Integer(value)
    case Fail(e) => Fail(e)
    case Pass => if value.x < min as real then Fail(RangeError) else Pass
  }

  /** `Assert.integerMax`: an integer at most `max`; a non-integer is a
      TypeError, an integer above `max` a RangeError. */
  function IntegerMax(value: Value, max: int): (r: Outcome)
    ensures r == Pass <==> exists k: int :: value == Int(k) && k <= max
    ensures r == Fail(RangeError) <==> exists k: int :: value == Int(k) && max < k
    ensures r == Fail(TypeError) <==> Integer(value) != Pass
  {
    IsIntegerIffInt(value);
    match Integer(value)
    case Fail(e) => Fail(e)
    case Pass => if value.x > max as real then Fail(RangeError) else Pass
  }

  /** `Assert.index`: a zero-based index, i.e. a non-negative integer. */
  function Index(value: Value): (r: Outcome)
    ensures r == Pass <==> exists k: nat :: value == Int(k)
    ensures r == Fail(RangeError) <==> exists k: int :: value == Int(k) && k < 0
    ensures r == Fail(TypeError) <==> Integer(value) != Pass
  {
    IntegerMin(value, 0)
  }

  /** `index` is `integerMin` with bound 0. */
  lemma IndexIsIntegerMinZero(value: Value)
    ensures Index(value) == IntegerMin(value, 0)
  {
  }

  /** A value that is not an integer gets a TypeError from every validator,
      never a RangeError, whatever the bound. */
  lemma NonIntegerIsTypeError(value: Value, min: int, max: int)
    requires !IsInteger(value)
    ensures Integer(value) == Fail(TypeError)
    ensures IntegerMin(value, min) == Fail(TypeError)
    ensures IntegerMax(value, max) == Fail(TypeError)
    ensures Index(value) == Fail(TypeError)
  {
    IsIntegerIffInt(value);
  }

  /** Every validator throws only the two kinds named in the source. */
  lemma OnlyTypeOrRangeErrors(value: Value, min: int, max: int)
    ensures IntegerMin(value, min) in {Pass, Fail(TypeError), Fail(RangeError)}
    ensures IntegerMax(value, max) in {Pass, Fail(TypeError), Fail(RangeError)}
    ensures Index(value) in {Pass, Fail(TypeError), Fail(RangeError)}
  {
  }

  /** A lower and an upper check both pass exactly on the integers of the
      closed interval `[lo, hi]`. */
  lemma {:induction false} BothBoundsPass(value: Value, lo: int, hi: int)
    ensures IntegerMin(value, lo) == Pass && IntegerMax(value, hi) == Pass
            <==> exists k: int :: value == Int(k) && lo <= k <= hi
  {
    if IntegerMin(value, lo) == Pass && IntegerMax(value, hi) == Pass {
      IsIntegerIffInt(value);
      assert value == Int(IntOf(value));
    }
  }

  /** The cases the repository's tests exercise (test/assert-test.js). */
  lemma TestCases()
    ensures Integer(Undefined) == Fail(TypeError)
    ensures Integer(Null) == Fail(TypeError)
    ensures Integer(Str("1")) == Fail(TypeError)
    ensures Integer(Arr([1.0])) == Fail(TypeError)
    ensures Integer(Num(0.95)) == Fail(TypeError)
    ensures Integer(Int(0)) == Pass
    ensures IntegerMin(Int(0), 1) == Fail(RangeError)
    ensures IntegerMin(Int(1), 1) == Pass
    ensures IntegerMin(Int(1), 0) == Pass
    ensures IntegerMax(Int(1), 0) == Fail(RangeError)
    ensures IntegerMax(Int(1), 1) == Pass
    ensures IntegerMax(Int(0), 1) == Pass
  {
    assert (0.95).Floor == 0;
  }
}
