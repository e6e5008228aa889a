/** The behaviour `src/matrix.js` evidently intends and the repository's tests
    expect: zero-based indices checked like `Assert.index`, bounds that stop
    one before the size, `colFromIndex` modulo `cols`, an `indexFromRowCol`
    that checks its own arguments, and `add`/`sub` that check shapes and
    return a Matrix. Dimensions keep the `assertIndices` check (positive
    integers), which is right for them. */
module MatrixIntended {
  import opened JsValues
  import Assert
  import opened Matrices

  /** `Assert.index` on two values in order: the first failure wins. */
  function CheckPair(a: Value, b: Value): (r: Outcome)
    ensures r == Pass <==> Assert.Index(a) == Pass && Assert.Index(b) == Pass
    ensures Assert.Index(a).Fail? ==> r == Assert.Index(a)
  {
    match Assert.Index(a)
    case Fail(e) => Fail(e)
    case Pass => Assert.Index(b)
  }

  /** A value `Assert.index` accepts is a non-negative integer. */
  lemma IndexPassed(v: Value)
    requires Assert.Index(v) == Pass
    ensures IsInteger(v) && IntOf(v) >= 0
  {
    IsIntegerIffInt(v);
  }

  /** `indexFromRowCol(row, col)` with its check on `row` and `col`: the
      flat position `cols * row + col`. */
  function IndexFromRowColIntended(m: Matrix, row: Value, col: Value): (r: Result<int>)
    requires m.Valid()
    ensures r.Ok? <==> Assert.Index(row) == Pass && Assert.Index(col) == Pass
    ensures r.Ok? ==> r.value == m.cols * IntOf(row) + IntOf(col) && r.value >= 0
    ensures r.Err? ==> r.error == (if Assert.Index(row).Fail? then Assert.Index(row).error else Assert.Index(col).error)
  {
    match CheckPair(row, col)
    case Fail(e) => Err(e)
    case Pass =>
      IndexPassed(row);
      IndexPassed(col);
      Ok(m.cols * IntOf(row) + IntOf(col))
  }

  /** `rowFromIndex(index)` accepting index 0: `floor(index / cols)`. */
  function RowFromIndexIntended(m: Matrix, index: Value): (r: Result<int>)
    requires m.Valid()
    ensures r.Ok? <==> Assert.Index(index) == Pass
    ensures r.Ok? ==> 0 <= r.value && m.cols * r.value <= IntOf(index) < m.cols * (r.value + 1)
    ensures r.Err? ==> Assert.Index(index) == Fail(r.error)
  {
    match Assert.Index(index)
    case Fail(e) => Err(e)
    case Pass =>
      IndexPassed(index);
      Ok(IntOf(index) / m.cols)
  }

  /** `colFromIndex(index)` modulo `cols`, accepting index 0. */
  function ColFromIndexIntended(m: Matrix, index: Value): (r: Result<int>)
    requires m.Valid()
    ensures r.Ok? <==> Assert.Index(index) == Pass
    ensures r.Ok? ==> 0 <= r.value < m.cols
    ensures r.Err? ==> Assert.Index(index) == Fail(r.error)
  {
    match Assert.Index(index)
    case Fail(e) => Err(e)
    case Pass =>
      IndexPassed(index);
      Ok(IntOf(index) % m.cols)
  }

  /** Row and column of a flat position put back together give that
      position. */
  lemma SplitIndex(m: Matrix, k: nat)
    requires m.Valid()
    ensures RowFromIndexIntended(m, Int(k)).Ok? && ColFromIndexIntended(m, Int(k)).Ok?
    ensures m.cols * RowFromIndexIntended(m, Int(k)).value + ColFromIndexIntended(m, Int(k)).value == k
  {
    IntOfInt(k);
    IsIntegerIffInt(Int(k));
    assert k == m.cols * (k / m.cols) + k % m.cols;
  }

  /** Converting a flat position to (row, column) and back is the identity. */
  lemma IndexRoundTripFromFlat(m: Matrix, k: nat)
    requires m.Valid()
    ensures RowFromIndexIntended(m, Int(k)).Ok? && ColFromIndexIntended(m, Int(k)).Ok?
    ensures IndexFromRowColIntended(m, Int(RowFromIndexIntended(m, Int(k)).value),
                                       Int(ColFromIndexIntended(m, Int(k)).value)) == Ok(k)
  {
    SplitIndex(m, k);
    var row := RowFromIndexIntended(m, Int(k)).value;
    var col := ColFromIndexIntended(m, Int(k)).value;
    IntOfInt(row);
    IntOfInt(col);
    IsIntegerIffInt(Int(row));
    IsIntegerIffInt(Int(col));
  }

  /** Converting (row, column) to a flat position and back is the identity. */
  lemma {:induction false} IndexRoundTripFromCell(m: Matrix, row: nat, col: nat)
    requires m.Valid() && col < m.cols
    ensures IndexFromRowColIntended(m, Int(row), Int(col)) == Ok(m.cols * row + col)
    ensures RowFromIndexIntended(m, Int(m.cols * row + col)) == Ok(row)
    ensures ColFromIndexIntended(m, Int(m.cols * row + col)) == Ok(col)
  {
    IntOfInt(row);
    IntOfInt(col);
    IsIntegerIffInt(Int(row));
    IsIntegerIffInt(Int(col));
    var k := m.cols * row + col;
    SplitIndex(m, k);
    var q := RowFromIndexIntended(m, Int(k)).value;
    var c := ColFromIndexIntended(m, Int(k)).value;
    MulSucc(m.cols, q);
    MulSucc(m.cols, row);
    if q < row {
      MulMonotone(m.cols, q + 1, row);
    } else if q > row {
      MulMonotone(m.cols, row + 1, q);
    }
    assert q == row;
  }

  /** Cell (row, col) of a valid matrix lies inside its data. */
  lemma CellInBounds(m: Matrix, row: int, col: int)
    requires m.Valid() && 0 <= row < m.rows && 0 <= col < m.cols
    ensures 0 <= m.cols * row + col < |m.data|
  {
    MulSucc(m.cols, row);
    MulMonotone(m.cols, row + 1, m.rows);
  }

  /** `at(rowIndex, colIndex)` with zero-based checks and strict bounds. */
  function AtIntended(m: Matrix, rowIndex: Value, colIndex: Value): (r: Access)
    requires m.Valid()
    ensures r != PastEnd
    ensures r.Element? ==> IsInteger(rowIndex) && (colIndex != Undefined ==> IsInteger(colIndex))
    ensures (colIndex == Undefined && IsInteger(rowIndex))
            ==> (r.Element? <==> 0 <= IntOf(rowIndex) < Len(m))
    ensures (colIndex == Undefined && r.Element?) ==> r.x == m.data[IntOf(rowIndex)]
    ensures (colIndex != Undefined && r.Element?)
            ==> 0 <= IntOf(rowIndex) < m.rows && 0 <= IntOf(colIndex) < m.cols
                && HoldsAt(m.data, m.cols * IntOf(rowIndex) + IntOf(colIndex), r.x)
  {
    if colIndex != Undefined then
      match CheckPair(rowIndex, colIndex)
      case Fail(e) => Raised(e)
      case Pass =>
        IndexPassed(rowIndex);
        IndexPassed(colIndex);
        if IntOf(rowIndex) >= m.rows then Raised(RangeError)
        else if IntOf(colIndex) >= m.cols then Raised(RangeError)
        else
          CellInBounds(m, IntOf(rowIndex), IntOf(colIndex));
          var index := IndexFromRowColIntended(m, rowIndex, colIndex).value;
          Element(m.data[index])
    else
      IsIntegerIffInt(rowIndex);
      match Assert.Index(rowIndex)
      case Fail(e) => Raised(e)
      case Pass =>
        IndexPassed(rowIndex);
        if IntOf(rowIndex) >= Len(m) then Raised(RangeError)
        else Element(m.data[IntOf(rowIndex)])
  }

  /** The single-argument `at` on an integer reads every position of the
      data, and exactly those. */
  lemma AtIntendedFlat(m: Matrix, i: int)
    requires m.Valid()
    ensures AtIntended(m, Int(i), Undefined) ==
            if 0 <= i < Len(m) then Element(m.data[i]) else Raised(RangeError)
  {
    IntOfInt(i);
    IsIntegerIffInt(Int(i));
  }

  /** The two-argument `at` reads cell (row, col) at the same place as the
      single-argument `at` reads its flat position, and rejects a row or a
      column beyond the shape. */
  lemma AtIntendedCell(m: Matrix, row: int, col: int)
    requires m.Valid() && 0 <= row && 0 <= col
    ensures (row < m.rows && col < m.cols) ==>
            AtIntended(m, Int(row), Int(col)) == AtIntended(m, Int(m.cols * row + col), Undefined)
                                              == Element(m.data[m.cols * row + col])
    ensures (row >= m.rows || col >= m.cols) ==> AtIntended(m, Int(row), Int(col)) == Raised(RangeError)
  {
    IntOfInt(row);
    IntOfInt(col);
    IsIntegerIffInt(Int(row));
    IsIntegerIffInt(Int(col));
    if row < m.rows && col < m.cols {
      CellInBounds(m, row, col);
      AtIntendedFlat(m, m.cols * row + col);
    }
  }

  /** `add`/`sub` as intended: a TypeError unless `other` is a Matrix, a
      RangeError unless the shapes agree, otherwise a new Matrix of the same
      shape combining the cells position by position. */
  function Elementwise(m: Matrix, other: Operand, op: Op): (r: Result<Matrix>)
    requires m.Valid()
    requires other.MatrixOperand? ==> other.m.Valid()
    ensures other.Plain? ==> r == Err(TypeError)
    ensures other.MatrixOperand? ==>
              (r.Ok? <==> other.m.rows == m.rows && other.m.cols == m.cols)
    ensures r.Err? ==> r.error == (if other.Plain? then TypeError else RangeError)
    ensures r.Ok? ==> r.value.Valid() && r.value.rows == m.rows && r.value.cols == m.cols
    ensures r.Ok? ==> forall i :: 0 <= i < |m.data| ==> r.value.data[i] == Apply(op, m.data[i], other.m.data[i])
  {
    match other
    case Plain(_) => Err(TypeError)
    case MatrixOperand(o) =>
      if o.rows != m.rows || o.cols != m.cols then Err(RangeError)
      else Ok(Matrix(m.rows, m.cols, seq(|m.data|, i requires 0 <= i < |m.data| => Apply(op, m.data[i], o.data[i]))))
  }

  function AddIntended(m: Matrix, other: Operand): (r: Result<Matrix>)
    requires m.Valid()
    requires other.MatrixOperand? ==> other.m.Valid()
    ensures r.Ok? <==> other.MatrixOperand? && other.m.rows == m.rows && other.m.cols == m.cols
    ensures r.Err? ==> r.error == (if other.Plain? then TypeError else RangeError)
    ensures r.Ok? ==> r.value.Valid() && r.value.rows == m.rows && r.value.cols == m.cols
    ensures r.Ok? ==> forall i :: 0 <= i < |m.data| ==> r.value.data[i] == m.data[i] + other.m.data[i]
  {
    Elementwise(m, other, Plus)
  }

  function SubIntended(m: Matrix, other: Operand): (r: Result<Matrix>)
    requires m.Valid()
    requires other.MatrixOperand? ==> other.m.Valid()
    ensures r.Ok? <==> other.MatrixOperand? && other.m.rows == m.rows && other.m.cols == m.cols
    ensures r.Err? ==> r.error == (if other.Plain? then TypeError else RangeError)
    ensures r.Ok? ==> r.value.Valid() && r.value.rows == m.rows && r.value.cols == m.cols
    ensures r.Ok? ==> forall i :: 0 <= i < |m.data| ==> r.value.data[i] == m.data[i] - other.m.data[i]
  {
    Elementwise(m, other, Minus)
  }

  /** Subtracting what was added gives back the original matrix. */
  lemma SubUndoesAdd(m: Matrix, o: Matrix)
    requires m.Valid() && o.Valid() && o.rows == m.rows && o.cols == m.cols
    ensures AddIntended(m, MatrixOperand(o)).Ok?
    ensures SubIntended(AddIntended(m, MatrixOperand(o)).value, MatrixOperand(o)) == Ok(m)
  {
    var s := AddIntended(m, MatrixOperand(o)).value;
    var d := SubIntended(s, MatrixOperand(o)).value;
    assert d.data == m.data;
  }

  /** Addition does not depend on the order of its operands. */
  lemma AddCommutes(m: Matrix, o: Matrix)
    requires m.Valid() && o.Valid()
    ensures AddIntended(m, MatrixOperand(o)) == AddIntended(o, MatrixOperand(m))
            || (AddIntended(m, MatrixOperand(o)) == Err(RangeError) && AddIntended(o, MatrixOperand(m)) == Err(RangeError))
  {
    if o.rows == m.rows && o.cols == m.cols {
      assert AddIntended(m, MatrixOperand(o)).value.data == AddIntended(o, MatrixOperand(m)).value.data;
    }
  }

  /** The element-access cases of test/matrix-test.js, all answered as the
      tests expect. */
  lemma AtIntendedExamples()
    ensures Matrix(2, 3, [1.0, 2.0, 3.0, 4.0, 5.0, 6.0]).Valid()
    ensures AtIntended(Matrix(2, 3, [1.0, 2.0, 3.0, 4.0, 5.0, 6.0]), Int(7), Undefined) == Raised(RangeError)
    ensures AtIntended(Matrix(2, 3, [1.0, 2.0, 3.0, 4.0, 5.0, 6.0]), Int(0), Int(4)) == Raised(RangeError)
    ensures AtIntended(Matrix(2, 3, [1.0, 2.0, 3.0, 4.0, 5.0, 6.0]), Int(3), Int(1)) == Raised(RangeError)
    ensures AtIntended(Matrix(2, 3, [1.0, 2.0, 3.0, 4.0, 5.0, 6.0]), Int(0), Undefined) == Element(1.0)
    ensures AtIntended(Matrix(2, 3, [1.0, 2.0, 3.0, 4.0, 5.0, 6.0]), Int(4), Undefined) == Element(5.0)
    ensures AtIntended(Matrix(2, 3, [1.0, 2.0, 3.0, 4.0, 5.0, 6.0]), Int(0), Int(0)) == Element(1.0)
    ensures AtIntended(Matrix(2, 3, [1.0, 2.0, 3.0, 4.0, 5.0, 6.0]), Int(1), Int(2)) == Element(6.0)
  {
    var m := Matrix(2, 3, [1.0, 2.0, 3.0, 4.0, 5.0, 6.0]);
    AtIntendedFlat(m, 7);
    AtIntendedFlat(m, 0);
    AtIntendedFlat(m, 4);
    AtIntendedCell(m, 0, 4);
    AtIntendedCell(m, 3, 1);
    AtIntendedCell(m, 0, 0);
    AtIntendedCell(m, 1, 2);
  }

  /** The `add`/`sub` cases of test/matrix-test.js with a Matrix argument:
      mismatched shapes throw RangeError, equal shapes combine cell by cell. */
  lemma AddSubIntendedExamples()
    ensures Matrix(2, 3, [1.0, 2.0, 3.0, 4.0, 5.0, 6.0]).Valid()
    ensures Matrix(3, 2, [1.0, 2.0, 3.0, 4.0, 5.0, 6.0]).Valid()
    ensures Matrix(2, 3, [2.0, 0.0, -3.1, 1.0, 6.0, 1.95]).Valid()
    ensures AddIntended(Matrix(2, 3, [1.0, 2.0, 3.0, 4.0, 5.0, 6.0]),
                        MatrixOperand(Matrix(3, 2, [1.0, 2.0, 3.0, 4.0, 5.0, 6.0]))) == Err(RangeError)
    ensures SubIntended(Matrix(2, 3, [1.0, 2.0, 3.0, 4.0, 5.0, 6.0]),
                        MatrixOperand(Matrix(3, 2, [1.0, 2.0, 3.0, 4.0, 5.0, 6.0]))) == Err(RangeError)
    ensures AddIntended(Matrix(2, 3, [1.0, 2.0, 3.0, 4.0, 5.0, 6.0]),
                        MatrixOperand(Matrix(2, 3, [2.0, 0.0, -3.1, 1.0, 6.0, 1.95])))
            == Ok(Matrix(2, 3, [3.0, 2.0, -0.1, 5.0, 11.0, 7.95]))
    ensures SubIntended(Matrix(2, 3, [1.0, 2.0, 3.0, 4.0, 5.0, 6.0]),
                        MatrixOperand(Matrix(2, 3, [2.0, 0.0, -3.1, 1.0, 6.0, 1.95])))
            == Ok(Matrix(2, 3, [-1.0, 2.0, 6.1, 3.0, -1.0, 4.05]))
  {
    var m1 := Matrix(2, 3, [1.0, 2.0, 3.0, 4.0, 5.0, 6.0]);
    var m2 := Matrix(2, 3, [2.0, 0.0, -3.1, 1.0, 6.0, 1.95]);
    assert AddIntended(m1, MatrixOperand(m2)).value.data == [3.0, 2.0, -0.1, 5.0, 11.0, 7.95];
    assert SubIntended(m1, MatrixOperand(m2)).value.data == [-1.0, 2.0, 6.1, 3.0, -1.0, 4.05];
  }
}
