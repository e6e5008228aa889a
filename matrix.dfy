/** `src/matrix.js` as written: a `rows × cols` grid of numbers stored as a
    flat row-major array, its validated construction, element access, index
    conversions and elementwise `add`/`sub`. The defects of this revision are
    kept and stated as lemmas at the end of the module; the corrected
    behaviour lives in module MatrixIntended. */
module Matrices {
  import opened JsValues
  import Assert

  /** A grid of `rows × cols` numbers; element (r, c) is `data[cols * r + c]`.
      No operation changes a Matrix after construction. */
  datatype Matrix = Matrix(rows: int, cols: int, data: seq<real>)
  {
    /** What the constructor establishes. */
    predicate Valid()
    {
      rows > 0 && cols > 0 && |data| == rows * cols
    }
  }

  // ---------------------------------------------------------------------------
  // ErrorCheckHelper.assertIndices

  /** One entry of the `options` object handed to `assertIndices`: the name
      of an argument (used only in the error message) and its value. */
  type Entry = (string, Value)

  /** What `assertIndices` demands of every value. */
  predicate IsPositiveInteger(v: Value)
  {
    IsInteger(v) && v.x > 0.0
  }

  /** The error `assertIndices` throws for a value it rejects: the integer
      test runs before the sign test. */
  function Rejection(v: Value): Error
  {
    if !IsInteger(v) then TypeError else RangeError
  }

  /** `assertIndices` as a function of its entries, in insertion order: the
      first entry that is not a positive integer decides the error. */
  function CheckIndices(entries: seq<Entry>): (r: Outcome)
    ensures r == Pass <==> forall i :: 0 <= i < |entries| ==> IsPositiveInteger(entries[i].1)
    ensures r.Fail? ==> r.error != ReferenceError
  {
    if entries == [] then Pass
    else if !IsInteger(entries[0].1) then Fail(TypeError)
    else if entries[0].1.x <= 0.0 then Fail(RangeError)
    else CheckIndices(entries[1..])
  }

  /** The loop of `ErrorCheckHelper.assertIndices`, which walks the entries
      in order and throws at the first bad one. */
  method AssertIndices(entries: seq<Entry>) returns (r: Outcome)
    ensures r == CheckIndices(entries)
  {
    var i := 0;
    while i < |entries|
      invariant 0 <= i <= |entries|
      invariant CheckIndices(entries) == CheckIndices(entries[i..])
    {
      var (_, value) := entries[i];
      assert entries[i..][1..] == entries[i + 1..];
      if !IsInteger(value) {
        return Fail(TypeError);
      }
      if value.x <= 0.0 {
        return Fail(RangeError);
      }
      i := i + 1;
    }
    return Pass;
  }

  /** The error of `assertIndices` is that of its first rejected entry. */
  lemma {:induction false} CheckIndicesFirstRejection(entries: seq<Entry>, k: int)
    requires 0 <= k < |entries|
    requires forall i :: 0 <= i < k ==> IsPositiveInteger(entries[i].1)
    requires !IsPositiveInteger(entries[k].1)
    ensures CheckIndices(entries) == Fail(Rejection(entries[k].1))
  {
    if k > 0 {
      assert IsPositiveInteger(entries[0].1);
      CheckIndicesFirstRejection(entries[1..], k - 1);
    }
  }

  /** `assertIndices` on one entry. */
  lemma CheckOne(key: string, v: Value)
    ensures CheckIndices([(key, v)]) == if IsPositiveInteger(v) then Pass else Fail(Rejection(v))
  {
    assert [(key, v)][1..] == [];
  }

  /** `assertIndices` on two entries: the first one is checked first. */
  lemma CheckTwo(key1: string, v1: Value, key2: string, v2: Value)
    ensures CheckIndices([(key1, v1), (key2, v2)]) ==
            if !IsPositiveInteger(v1) then Fail(Rejection(v1))
            else if !IsPositiveInteger(v2) then Fail(Rejection(v2))
            else Pass
  {
    assert [(key1, v1), (key2, v2)][1..] == [(key2, v2)];
    CheckOne(key2, v2);
  }

  /** On one value `assertIndices` behaves as `Assert.integerMin(v, 1)`. */
  lemma CheckIndicesIsIntegerMinOne(key: string, v: Value)
    ensures CheckIndices([(key, v)]) == Assert.IntegerMin(v, 1)
  {
    IsIntegerIffInt(v);
  }

  /** `data[k]` exists and is `x`. */
  predicate HoldsAt(data: seq<real>, k: int, x: real)
  {
    0 <= k < |data| && data[k] == x
  }

  // ---------------------------------------------------------------------------
  // Arithmetic facts the layout proofs use

  lemma MulSucc(a: int, b: int)
    ensures a * (b + 1) == a * b + a
  {
  }

  lemma MulMonotone(a: nat, b: int, c: int)
    requires b <= c
    ensures a * b <= a * c
  {
    MulSucc(a, b);
    assert a * c == a * b + a * (c - b);
  }

  /** Taking away the remainder leaves a multiple of the divisor. */
  lemma ModLeavesMultiple(x: int, d: int)
    requires d > 0
    ensures (x - x % d) % d == 0
  {
    var q := x / d;
    var y := x - x % d;
    assert y == d * q;
    var k := q - y / d;
    assert y % d == d * k by {
      assert y == d * (y / d) + y % d;
      assert d * q - d * (y / d) == d * k;
    }
    if k >= 1 {
      MulMonotone(d, 1, k);
    } else if k <= -1 {
      MulMonotone(d, k, -1);
    }
  }

  // ---------------------------------------------------------------------------
  // Construction

  /** The entries the constructor and `filled` check. */
  function Dimensions(rows: Value, cols: Value): seq<Entry>
  {
    [("rows", rows), ("cols", cols)]
  }

  /** `new Matrix(rows, cols, data)`: checks rows then cols, then that `data`
      is an array, then that its length is `rows * cols`; then stores the
      three unchanged. */
  function New(rows: Value, cols: Value, data: Value): (r: Result<Matrix>)
    ensures r.Ok? <==> IsPositiveInteger(rows) && IsPositiveInteger(cols) && data.Arr?
                       && IntOf(rows) * IntOf(cols) == |data.items|
    ensures r.Ok? ==> r.value.Valid() && r.value == Matrix(IntOf(rows), IntOf(cols), data.items)
    ensures !IsInteger(rows) ==> r == Err(TypeError)
    ensures IsInteger(rows) && IntOf(rows) <= 0 ==> r == Err(RangeError)
    ensures IsPositiveInteger(rows) && !IsInteger(cols) ==> r == Err(TypeError)
    ensures IsPositiveInteger(rows) && IsInteger(cols) && IntOf(cols) <= 0 ==> r == Err(RangeError)
    ensures IsPositiveInteger(rows) && IsPositiveInteger(cols) && !data.Arr? ==> r == Err(TypeError)
    ensures (IsPositiveInteger(rows) && IsPositiveInteger(cols) && data.Arr?
             && IntOf(rows) * IntOf(cols) != |data.items|) ==> r == Err(RangeError)
  {
    CheckTwo("rows", rows, "cols", cols);
    match CheckIndices(Dimensions(rows, cols))
    case Fail(e) => Err(e)
    case Pass =>
      if !data.Arr? then Err(TypeError)
      else if IntOf(rows) * IntOf(cols) != |data.items| then Err(RangeError)
      else Ok(Matrix(IntOf(rows), IntOf(cols), data.items))
  }

  /** A row of the nested array handed to `from2DArray`. */
  datatype Row =
    | Cells(cells: seq<real>)  // an array of numbers
    | Scalar(x: real)          // a number: its `length` is undefined
    | Nullish                  // null or undefined: reading `length` throws

  /** The argument of `from2DArray`: an array of rows, or anything else. */
  datatype Grid = Nested(rows: seq<Row>) | Other(v: Value)

  /** `data.every(val => val.length === width)`, which stops at the first row
      whose length differs and throws a TypeError on a row without one. */
  function RowsMatch(rows: seq<Row>, width: nat): (r: Outcome)
    ensures r == Pass <==> forall i :: 0 <= i < |rows| ==> rows[i].Cells? && |rows[i].cells| == width
    ensures r.Fail? ==> r.error != ReferenceError
  {
    if rows == [] then Pass
    else match rows[0]
      case Cells(c) => if |c| == width then RowsMatch(rows[1..], width) else Fail(RangeError)
      case Scalar(_) => Fail(RangeError)
      case Nullish => Fail(TypeError)
  }

  /** Whether the row at `k` is the one `every` stops at. */
  predicate Mismatch(row: Row, width: nat)
  {
    !row.Cells? || |row.cells| != width
  }

  /** The outcome of the rectangularity test is decided by its first
      mismatching row: TypeError for null or undefined, RangeError otherwise. */
  lemma {:induction false} RowsMatchFirstMismatch(rows: seq<Row>, width: nat, k: int)
    requires 0 <= k < |rows|
    requires forall i :: 0 <= i < k ==> !Mismatch(rows[i], width)
    requires Mismatch(rows[k], width)
    ensures RowsMatch(rows, width) == Fail(if rows[k].Nullish? then TypeError else RangeError)
  {
    if k > 0 {
      assert !Mismatch(rows[0], width);
      RowsMatchFirstMismatch(rows[1..], width, k - 1);
    }
  }

  /** `flat(2)` of an array of arrays of numbers: their concatenation. */
  function Flat(rows: seq<Row>): seq<real>
    requires forall i :: 0 <= i < |rows| ==> rows[i].Cells?
  {
    if rows == [] then [] else rows[0].cells + Flat(rows[1..])
  }

  /** Rows of equal width concatenate to `rows * width` numbers. */
  lemma {:induction false} FlatLength(rows: seq<Row>, width: nat)
    requires forall i :: 0 <= i < |rows| ==> rows[i].Cells? && |rows[i].cells| == width
    ensures |Flat(rows)| == |rows| * width
  {
    if rows != [] {
      FlatLength(rows[1..], width);
      MulSucc(width, |rows| - 1);
    }
  }

  /** Cell `j` of row `i` lands at position `width * i + j`. */
  lemma {:induction false} FlatAt(rows: seq<Row>, width: nat, i: int, j: int)
    requires forall i :: 0 <= i < |rows| ==> rows[i].Cells? && |rows[i].cells| == width
    requires 0 <= i < |rows| && 0 <= j < width
    ensures 0 <= width * i + j < |Flat(rows)|
    ensures Flat(rows)[width * i + j] == rows[i].cells[j]
  {
    FlatLength(rows, width);
    MulMonotone(width, i + 1, |rows|);
    MulSucc(width, i);
    if i > 0 {
      var rest := rows[1..];
      FlatAt(rest, width, i - 1, j);
      MulSucc(width, i - 1);
      assert rest[i - 1] == rows[i];
    }
  }

  /** Concatenating rows of equal width lays them out row-major. */
  lemma {:induction false} FlatRowMajor(rows: seq<Row>, width: nat)
    requires forall i :: 0 <= i < |rows| ==> rows[i].Cells? && |rows[i].cells| == width
    ensures |Flat(rows)| == |rows| * width
    ensures forall i, j :: 0 <= i < |rows| && 0 <= j < width ==> HoldsAt(Flat(rows), width * i + j, rows[i].cells[j])
  {
    FlatLength(rows, width);
    forall i, j | 0 <= i < |rows| && 0 <= j < width
      ensures HoldsAt(Flat(rows), width * i + j, rows[i].cells[j])
    {
      FlatAt(rows, width, i, j);
    }
  }

  /** `Matrix.from2DArray(data)`: the outer value must be a non-empty array
      whose first element is an array; every row must have the first row's
      length; then the concatenated rows go to the constructor. */
  function From2DArray(grid: Grid): (r: Result<Matrix>)
    ensures r.Ok? <==> grid.Nested? && |grid.rows| > 0 && grid.rows[0].Cells? && |grid.rows[0].cells| > 0
                       && RowsMatch(grid.rows, |grid.rows[0].cells|) == Pass
    ensures r.Ok? ==> r.value.Valid() && r.value.rows == |grid.rows| && r.value.cols == |grid.rows[0].cells|
    ensures r.Ok? ==> forall i, j :: 0 <= i < r.value.rows && 0 <= j < r.value.cols
                         ==> HoldsAt(r.value.data, r.value.cols * i + j, grid.rows[i].cells[j])
    ensures grid.Other? ==> r == Err(TypeError)
    ensures grid.Nested? && (|grid.rows| == 0 || !grid.rows[0].Cells?) ==> r == Err(TypeError)
    ensures grid.Nested? && |grid.rows| > 0 && grid.rows[0].Cells? && RowsMatch(grid.rows, |grid.rows[0].cells|).Fail?
            ==> r == Err(RowsMatch(grid.rows, |grid.rows[0].cells|).error)
    ensures (grid.Nested? && |grid.rows| > 0 && grid.rows[0].Cells? && |grid.rows[0].cells| == 0
             && RowsMatch(grid.rows, 0) == Pass) ==> r == Err(RangeError)
  {
    match grid
    case Other(_) => Err(TypeError)
    case Nested(rows) =>
      if |rows| == 0 || !rows[0].Cells? then Err(TypeError)
      else
        var width := |rows[0].cells|;
        match RowsMatch(rows, width)
        case Fail(e) => Err(e)
        case Pass =>
          FlatRowMajor(rows, width);
          IntOfInt(|rows|);
          IntOfInt(width);
          New(Int(|rows|), Int(width), Arr(Flat(rows)))
  }

  /** `new Array(n)` accepts lengths up to 2^32 - 1 and throws a RangeError
      for a longer one. */
  const ArrayLengthLimit: int := 0x1_0000_0000

  /** `Matrix.filled(rows, cols, value)`: checks the dimensions, allocates an
      array of `rows * cols` slots and fills it with `value`, then constructs. */
  method Filled(rows: Value, cols: Value, value: real) returns (r: Result<Matrix>)
    ensures r.Ok? <==> IsPositiveInteger(rows) && IsPositiveInteger(cols)
                       && IntOf(rows) * IntOf(cols) < ArrayLengthLimit
    ensures CheckIndices(Dimensions(rows, cols)).Fail? ==> r == Err(CheckIndices(Dimensions(rows, cols)).error)
    ensures (IsPositiveInteger(rows) && IsPositiveInteger(cols)
             && IntOf(rows) * IntOf(cols) >= ArrayLengthLimit) ==> r == Err(RangeError)
    ensures r.Ok? ==> r.value.Valid() && r.value.rows == IntOf(rows) && r.value.cols == IntOf(cols)
    ensures r.Ok? ==> forall i :: 0 <= i < |r.value.data| ==> r.value.data[i] == value
  {
    var check := AssertIndices(Dimensions(rows, cols));
    if check.Fail? {
      return Err(check.error);
    }
    assert IsPositiveInteger(Dimensions(rows, cols)[0].1) && IsPositiveInteger(Dimensions(rows, cols)[1].1);
    var n := IntOf(rows) * IntOf(cols);
    if n >= ArrayLengthLimit {
      return Err(RangeError);
    }
    var a := new real[n];
    var i := 0;
    while i < n
      invariant 0 <= i <= n
      invariant forall j :: 0 <= j < i ==> a[j] == value
    {
      a[i] := value;
      i := i + 1;
    }
    r := New(rows, cols, Arr(a[..]));
  }

  /** `Matrix.zeros(rows, cols)`: `filled` with 0. */
  method Zeros(rows: Value, cols: Value) returns (r: Result<Matrix>)
    ensures r.Ok? <==> IsPositiveInteger(rows) && IsPositiveInteger(cols)
                       && IntOf(rows) * IntOf(cols) < ArrayLengthLimit
    ensures CheckIndices(Dimensions(rows, cols)).Fail? ==> r == Err(CheckIndices(Dimensions(rows, cols)).error)
    ensures (IsPositiveInteger(rows) && IsPositiveInteger(cols)
             && IntOf(rows) * IntOf(cols) >= ArrayLengthLimit) ==> r == Err(RangeError)
    ensures r.Ok? ==> r.value.Valid() && r.value.rows == IntOf(rows) && r.value.cols == IntOf(cols)
    ensures r.Ok? ==> forall i :: 0 <= i < |r.value.data| ==> r.value.data[i] == 0.0
  {
    r := Filled(rows, cols, 0.0);
  }

  /** `Matrix.ones(rows, cols)`: `filled` with 1. */
  method Ones(rows: Value, cols: Value) returns (r: Result<Matrix>)
    ensures r.Ok? <==> IsPositiveInteger(rows) && IsPositiveInteger(cols)
                       && IntOf(rows) * IntOf(cols) < ArrayLengthLimit
    ensures CheckIndices(Dimensions(rows, cols)).Fail? ==> r == Err(CheckIndices(Dimensions(rows, cols)).error)
    ensures (IsPositiveInteger(rows) && IsPositiveInteger(cols)
             && IntOf(rows) * IntOf(cols) >= ArrayLengthLimit) ==> r == Err(RangeError)
    ensures r.Ok? ==> r.value.Valid() && r.value.rows == IntOf(rows) && r.value.cols == IntOf(cols)
    ensures r.Ok? ==> forall i :: 0 <= i < |r.value.data| ==> r.value.data[i] == 1.0
  {
    r := Filled(rows, cols, 1.0);
  }

  // ---------------------------------------------------------------------------
  // Length, element access and index conversions

  /** `len()`: the length of the data, which is `rows * cols`. */
  function Len(m: Matrix): (n: nat)
    requires m.Valid()
    ensures n == m.rows * m.cols
    ensures n > 0
  {
    |m.data|
  }

  /** The outcome of `at`: an element, the `undefined` that JavaScript reads
      beyond the end of an array, or an exception. */
  datatype Access = Element(x: real) | PastEnd | Raised(error: Error)

  /** `this.data[index]` for an index the checks let through. */
  function Read(m: Matrix, index: int): Access
  {
    if 0 <= index < |m.data| then Element(m.data[index]) else PastEnd
  }

  /** `rowFromIndex(index)`: checks the index with `assertIndices`, then
      `floor(index / cols)`. */
  function RowFromIndex(m: Matrix, index: Value): (r: Result<int>)
    requires m.Valid()
    ensures r.Ok? <==> IsPositiveInteger(index)
    ensures r.Ok? ==> m.cols * r.value <= IntOf(index) < m.cols * (r.value + 1)
    ensures r.Err? ==> r.error == Rejection(index)
  {
    CheckOne("index", index);
    match CheckIndices([("index", index)])
    case Fail(e) => Err(e)
    case Pass => Ok(IntOf(index) / m.cols)
  }

  /** `colFromIndex(index)`: checks the index with `assertIndices`, then
      takes it modulo `cols + 1`. */
  function ColFromIndex(m: Matrix, index: Value): (r: Result<int>)
    requires m.Valid()
    ensures r.Ok? <==> IsPositiveInteger(index)
    ensures r.Ok? ==> 0 <= r.value <= m.cols
    ensures r.Ok? ==> (IntOf(index) - r.value) % (m.cols + 1) == 0
    ensures r.Err? ==> r.error == Rejection(index)
  {
    CheckOne("index", index);
    match CheckIndices([("index", index)])
    case Fail(e) => Err(e)
    case Pass =>
      ModLeavesMultiple(IntOf(index), m.cols + 1);
      Ok(IntOf(index) % (m.cols + 1))
  }

  /** The names visible in a method body, with the values bound to them. */
  type Scope = map<string, Value>

  /** Evaluating a name: its value, or a ReferenceError when nothing binds it. */
  function Lookup(scope: Scope, name: string): (r: Result<Value>)
    ensures r.Ok? <==> name in scope
    ensures r.Err? ==> r.error == ReferenceError
  {
    if name in scope then Ok(scope[name]) else Err(ReferenceError)
  }

  /** The values `indexFromRowCol` can name: its parameters. Besides them it
      sees only `this` and the module's two classes; neither the method nor
      the module declares `rows` or `cols`. */
  function IndexFromRowColScope(row: real, col: real): Scope
  {
    map["row" := Num(row), "col" := Num(col)]
  }

  /** The body of `indexFromRowCol(row, col)` evaluated in `scope`: look up
      `rows` and `cols`, check them with `assertIndices`, then compute the
      row-major index `this.cols * row + col`. */
  function IndexFromRowColIn(m: Matrix, scope: Scope, row: real, col: real): (r: Result<real>)
    requires m.Valid()
    ensures ("rows" !in scope || "cols" !in scope) ==> r == Err(ReferenceError)
    ensures ("rows" in scope && "cols" in scope) ==>
              (r.Ok? <==> IsPositiveInteger(scope["rows"]) && IsPositiveInteger(scope["cols"]))
    ensures r.Err? && "rows" in scope && "cols" in scope ==>
              CheckIndices(Dimensions(scope["rows"], scope["cols"])) == Fail(r.error)
    ensures r.Ok? ==> r.value == m.cols as real * row + col
  {
    match Lookup(scope, "rows")
    case Err(e) => Err(e)
    case Ok(rows) =>
      match Lookup(scope, "cols")
      case Err(e) => Err(e)
      case Ok(cols) =>
        CheckTwo("rows", rows, "cols", cols);
        match CheckIndices(Dimensions(rows, cols))
        case Fail(e) => Err(e)
        case Pass => Ok(m.cols as real * row + col)
  }

  /** `indexFromRowCol(row, col)` in the scope it is defined in. */
  function IndexFromRowCol(m: Matrix, row: real, col: real): Result<real>
    requires m.Valid()
  {
    IndexFromRowColIn(m, IndexFromRowColScope(row, col), row, col)
  }

  /** `at(rowIndex, colIndex)`. With a column argument: checks both indices
      with `assertIndices`, rejects `rowIndex > rows` and `colIndex > cols`,
      then converts with `indexFromRowCol`. Without one: checks the index
      with `assertIndices`, rejects `index > len()`, and reads the data. */
  function At(m: Matrix, rowIndex: Value, colIndex: Value): (r: Access)
    requires m.Valid()
    ensures r.Element? ==> colIndex == Undefined && IsInteger(rowIndex)
                           && 0 < IntOf(rowIndex) < Len(m) && r.x == m.data[IntOf(rowIndex)]
    ensures r == PastEnd ==> colIndex == Undefined && rowIndex == Int(Len(m))
    ensures colIndex == Undefined ==> (r == Raised(TypeError) <==> !IsInteger(rowIndex))
    ensures colIndex != Undefined ==> r.Raised?
  {
    CheckTwo("rowIndex", rowIndex, "colIndex", colIndex);
    CheckOne("rowIndex", rowIndex);
    if colIndex != Undefined then
      match CheckIndices([("rowIndex", rowIndex), ("colIndex", colIndex)])
      case Fail(e) => Raised(e)
      case Pass =>
        if IntOf(rowIndex) > m.rows then Raised(RangeError)
        else if IntOf(colIndex) > m.cols then Raised(RangeError)
        else match IndexFromRowCol(m, rowIndex.x, colIndex.x)
          case Err(e) => Raised(e)
          case Ok(index) => Read(m, index.Floor)
    else
      match CheckIndices([("rowIndex", rowIndex)])
      case Fail(e) => Raised(e)
      case Pass =>
        IsIntegerIffInt(rowIndex);
        if IntOf(rowIndex) > Len(m) then Raised(RangeError)
        else Read(m, IntOf(rowIndex))
  }

  /** The single-argument `at` on an integer, case by case. */
  lemma AtFlat(m: Matrix, i: int)
    requires m.Valid()
    ensures At(m, Int(i), Undefined) ==
            if i <= 0 || i > Len(m) then Raised(RangeError)
            else if i < Len(m) then Element(m.data[i])
            else PastEnd
  {
    IntOfInt(i);
  }

  /** The two-argument `at` never returns an element: the checks of
      `assertIndices` come first, in argument order, then the bound tests
      `rowIndex > rows` and `colIndex > cols`, and an index that passes them
      all meets the ReferenceError of `indexFromRowCol`. */
  lemma AtPairAlwaysThrows(m: Matrix, rowIndex: Value, colIndex: Value)
    requires m.Valid() && colIndex != Undefined
    ensures At(m, rowIndex, colIndex) ==
            Raised(if !IsPositiveInteger(rowIndex) then Rejection(rowIndex)
                   else if !IsPositiveInteger(colIndex) then Rejection(colIndex)
                   else if IntOf(rowIndex) > m.rows || IntOf(colIndex) > m.cols then RangeError
                   else ReferenceError)
  {
    CheckTwo("rowIndex", rowIndex, "colIndex", colIndex);
    if IsPositiveInteger(rowIndex) && IsPositiveInteger(colIndex) {
      IndexFromRowColNeverReturns(m, rowIndex.x, colIndex.x);
    }
  }

  // ---------------------------------------------------------------------------
  // add and sub

  /** The argument of `add`/`sub`: a Matrix (what `isMatrix` accepts) or any
      other value. */
  datatype Operand = MatrixOperand(m: Matrix) | Plain(v: Value)

  /** A cell of the plain array `add`/`sub` return: adding `undefined` to a
      number gives NaN. */
  datatype Number = Finite(x: real) | NaN

  datatype Op = Plus | Minus

  function Apply(op: Op, a: real, b: real): real
  {
    match op
    case Plus => a + b
    case Minus => a - b
  }

  /** One cell of the mapped array: `val op other.at(index)`, which is NaN
      when `at` reads past the end. */
  function Combine(op: Op, val: real, y: Access): Number
  {
    match y
    case Element(x) => Finite(Apply(op, val, x))
    case _ => NaN
  }

  /** `data.map((val, index) => val op other.at(index))` from position `i`
      on: the callback runs in index order, so the first throw wins. */
  function MapWithAt(data: seq<real>, other: Matrix, op: Op, i: nat): (r: Result<seq<Number>>)
    requires other.Valid() && i <= |data|
    ensures r.Ok? <==> forall k :: i <= k < |data| ==> !At(other, Int(k), Undefined).Raised?
    ensures r.Ok? ==> |r.value| == |data| - i
    ensures r.Ok? ==> forall k :: i <= k < |data| ==>
                        r.value[k - i] == Combine(op, data[k], At(other, Int(k), Undefined))
    ensures r.Err? ==> exists k :: i <= k < |data| && At(other, Int(k), Undefined) == Raised(r.error)
                                   && forall j :: i <= j < k ==> !At(other, Int(j), Undefined).Raised?
    decreases |data| - i
  {
    if i == |data| then Ok([])
    else
      var y := At(other, Int(i), Undefined);
      if y.Raised? then Err(y.error)
      else
        match MapWithAt(data, other, op, i + 1)
        case Err(e) => Err(e)
        case Ok(rest) => Ok([Combine(op, data[i], y)] + rest)
  }

  /** `add(other)`: a TypeError unless `other` is a Matrix; otherwise the
      plain array that maps over this matrix's data. */
  function Add(m: Matrix, other: Operand): (r: Result<seq<Number>>)
    requires m.Valid()
    requires other.MatrixOperand? ==> other.m.Valid()
    ensures other.Plain? ==> r == Err(TypeError)
    ensures other.MatrixOperand? ==> r == Err(RangeError)
  {
    match other
    case Plain(_) => Err(TypeError)
    case MatrixOperand(o) =>
      AtFlat(o, 0);
      MapWithAt(m.data, o, Plus, 0)
  }

  /** `sub(other)`: as `add`, with subtraction. */
  function Sub(m: Matrix, other: Operand): (r: Result<seq<Number>>)
    requires m.Valid()
    requires other.MatrixOperand? ==> other.m.Valid()
    ensures other.Plain? ==> r == Err(TypeError)
    ensures other.MatrixOperand? ==> r == Err(RangeError)
  {
    match other
    case Plain(_) => Err(TypeError)
    case MatrixOperand(o) =>
      AtFlat(o, 0);
      MapWithAt(m.data, o, Minus, 0)
  }

  // ---------------------------------------------------------------------------
  // Properties and the defects of this revision

  /** Construction stores its arguments unchanged, so `len()` is `rows * cols`. */
  lemma NewLength(rows: Value, cols: Value, data: Value)
    requires New(rows, cols, data).Ok?
    ensures Len(New(rows, cols, data).value) == IntOf(rows) * IntOf(cols) == |data.items|
  {
  }

  /** The cases of test/matrix-test.js for the constructor and `from2DArray`. */
  lemma ConstructionExamples()
    ensures New(Int(2), Int(2), Int(1)) == Err(TypeError)
    ensures New(Int(2), Int(2), Str("11")) == Err(TypeError)
    ensures New(Int(2), Int(2), Arr([1.0, 2.0, 3.0])) == Err(RangeError)
    ensures New(Int(2), Int(2), Arr([1.0, 2.0, 3.0, 4.0, 5.0])) == Err(RangeError)
    ensures New(Int(1), Int(5), Arr([1.0, 2.0, 3.0, 4.0])) == Err(RangeError)
    ensures New(Int(2), Int(3), Arr([1.0, 2.0, 3.0, 4.0, 5.0, 6.0])) == Ok(Matrix(2, 3, [1.0, 2.0, 3.0, 4.0, 5.0, 6.0]))
    ensures From2DArray(Other(Int(1))) == Err(TypeError)
    ensures From2DArray(Other(Str("11"))) == Err(TypeError)
    ensures From2DArray(Nested([Scalar(1.0), Scalar(2.0), Scalar(3.0), Scalar(4.0)])) == Err(TypeError)
    ensures From2DArray(Nested([Cells([1.0, 2.0]), Cells([1.0, 2.0, 3.0])])) == Err(RangeError)
    ensures From2DArray(Nested([Cells([1.0, 2.0, 3.0]), Cells([1.0, 2.0, 3.0, 4.0]), Cells([1.0, 2.0, 3.0])])) == Err(RangeError)
    ensures From2DArray(Nested([Cells([1.0, 2.0, 3.0]), Cells([4.0, 5.0, 6.0])])) == Ok(Matrix(2, 3, [1.0, 2.0, 3.0, 4.0, 5.0, 6.0]))
  {
    IntOfInt(1);
    IntOfInt(2);
    IntOfInt(3);
    IntOfInt(5);
    var rows := [Cells([1.0, 2.0, 3.0]), Cells([4.0, 5.0, 6.0])];
    assert rows[1..][1..] == [];
    assert RowsMatch(rows, 3) == Pass;
    assert Flat(rows) == [1.0, 2.0, 3.0] + Flat(rows[1..]);
    assert Flat(rows[1..]) == [4.0, 5.0, 6.0] + Flat(rows[1..][1..]);
    assert Flat(rows) == [1.0, 2.0, 3.0, 4.0, 5.0, 6.0];
  }

  /** Defect: every index check goes through `assertIndices`, which rejects
      0, so the first element cannot be read, and nor can any index whose
      row or column is 0. */
  lemma AtRejectsIndexZero(m: Matrix, other: Value)
    requires m.Valid()
    ensures At(m, Int(0), other) == Raised(RangeError)
    ensures At(m, other, Int(0)) == Raised(if IsInteger(other) then RangeError else TypeError)
    ensures RowFromIndex(m, Int(0)) == Err(RangeError)
    ensures ColFromIndex(m, Int(0)) == Err(RangeError)
  {
    IntOfInt(0);
    CheckOne("rowIndex", Int(0));
    CheckTwo("rowIndex", Int(0), "colIndex", other);
    CheckTwo("rowIndex", other, "colIndex", Int(0));
  }

  /** Defect: the single-argument bound test is `index > len()`, so
      `at(len())` passes it and reads beyond the end of the data. */
  lemma AtReadsPastEnd(m: Matrix)
    requires m.Valid()
    ensures At(m, Int(Len(m)), Undefined) == PastEnd
  {
    AtFlat(m, Len(m));
  }

  /** Defect: `indexFromRowCol(row, col)` cannot return, for any arguments:
      the lookup of `rows` fails, so the formula is never reached. */
  lemma IndexFromRowColNeverReturns(m: Matrix, row: real, col: real)
    requires m.Valid()
    ensures IndexFromRowCol(m, row, col) == Err(ReferenceError)
  {
    assert "rows" !in IndexFromRowColScope(row, col);
  }

  /** `rowFromIndex` inverts the row-major layout wherever it accepts the
      index. */
  lemma {:induction false} RowFromIndexOfCell(m: Matrix, r: int, c: int)
    requires m.Valid() && 0 <= r && 0 <= c < m.cols && m.cols * r + c > 0
    ensures RowFromIndex(m, Int(m.cols * r + c)) == Ok(r)
  {
    IntOfInt(m.cols * r + c);
    var q := RowFromIndex(m, Int(m.cols * r + c)).value;
    assert m.cols * q <= m.cols * r + c < m.cols * (q + 1);
    MulSucc(m.cols, q);
    MulSucc(m.cols, r);
    if q < r {
      MulMonotone(m.cols, q + 1, r);
    } else if q > r {
      MulMonotone(m.cols, r + 1, q);
    }
  }

  /** Defect: `colFromIndex` takes the index modulo `cols + 1`, which does
      not invert the row-major layout: index `cols` is the first cell of row
      1, yet `colFromIndex(cols)` is `cols`, which is not a column at all. */
  lemma ColFromIndexDoesNotInvert(m: Matrix)
    requires m.Valid()
    ensures RowFromIndex(m, Int(m.cols * 1 + 0)) == Ok(1)
    ensures ColFromIndex(m, Int(m.cols * 1 + 0)) == Ok(m.cols)
  {
    RowFromIndexOfCell(m, 1, 0);
    IntOfInt(m.cols);
    CheckOne("index", Int(m.cols));
  }

  /** The two validators disagree on zero: `Assert.index` accepts it and
      `assertIndices` rejects it. */
  lemma ValidatorsDisagreeOnZero(key: string)
    ensures Assert.Index(Int(0)) == Pass
    ensures CheckIndices([(key, Int(0))]) == Fail(RangeError)
  {
    IntOfInt(0);
    CheckOne(key, Int(0));
  }

  /** The element-access cases of test/matrix-test.js, as this revision
      answers them: `at(7)`, `at(0, 4)` and `at(3, 1)` throw RangeError as
      the tests expect and `at(4)` reads 5, but `at(0)` and `at(0, 0)` throw
      RangeError and `at(1, 2)` throws ReferenceError where the tests expect
      1, 1 and 6. The two-argument bound tests are off by one as well:
      `at(2, 1)` and `at(2, 3)` pass them and meet the ReferenceError, where
      `at(3, 1)` is stopped by them. */
  lemma AtExamples()
    ensures Matrix(2, 3, [1.0, 2.0, 3.0, 4.0, 5.0, 6.0]).Valid()
    ensures At(Matrix(2, 3, [1.0, 2.0, 3.0, 4.0, 5.0, 6.0]), Int(7), Undefined) == Raised(RangeError)
    ensures At(Matrix(2, 3, [1.0, 2.0, 3.0, 4.0, 5.0, 6.0]), Int(0), Int(4)) == Raised(RangeError)
    ensures At(Matrix(2, 3, [1.0, 2.0, 3.0, 4.0, 5.0, 6.0]), Int(3), Int(1)) == Raised(RangeError)
    ensures At(Matrix(2, 3, [1.0, 2.0, 3.0, 4.0, 5.0, 6.0]), Int(0), Undefined) == Raised(RangeError)
    ensures At(Matrix(2, 3, [1.0, 2.0, 3.0, 4.0, 5.0, 6.0]), Int(4), Undefined) == Element(5.0)
    ensures At(Matrix(2, 3, [1.0, 2.0, 3.0, 4.0, 5.0, 6.0]), Int(0), Int(0)) == Raised(RangeError)
    ensures At(Matrix(2, 3, [1.0, 2.0, 3.0, 4.0, 5.0, 6.0]), Int(1), Int(2)) == Raised(ReferenceError)
    ensures At(Matrix(2, 3, [1.0, 2.0, 3.0, 4.0, 5.0, 6.0]), Int(2), Int(1)) == Raised(ReferenceError)
    ensures At(Matrix(2, 3, [1.0, 2.0, 3.0, 4.0, 5.0, 6.0]), Int(2), Int(3)) == Raised(ReferenceError)
  {
    var m := Matrix(2, 3, [1.0, 2.0, 3.0, 4.0, 5.0, 6.0]);
    AtFlat(m, 7);
    AtFlat(m, 0);
    AtFlat(m, 4);
    IntOfInt(0);
    IntOfInt(1);
    IntOfInt(2);
    IntOfInt(3);
    IntOfInt(4);
    CheckTwo("rowIndex", Int(0), "colIndex", Int(4));
    CheckTwo("rowIndex", Int(3), "colIndex", Int(1));
    CheckTwo("rowIndex", Int(0), "colIndex", Int(0));
    AtPairAlwaysThrows(m, Int(0), Int(4));
    AtPairAlwaysThrows(m, Int(3), Int(1));
    AtPairAlwaysThrows(m, Int(0), Int(0));
    AtPairAlwaysThrows(m, Int(1), Int(2));
    AtPairAlwaysThrows(m, Int(2), Int(1));
    AtPairAlwaysThrows(m, Int(2), Int(3));
  }
}
