# JS-Matrix in Dafny

This project models the two source files of the JS-Matrix library, `src/matrix.js` and `src/assert.js`, and proves properties of the model.

- **`Matrix`** is a `rows × cols` grid of numbers kept as one flat, row-major array. Element (r, c) lives at position `cols * r + c`. The model covers:
  - construction by the constructor, `from2DArray`, `filled`, `zeros` and `ones`;
  - `len`, the one- and two-argument forms of `at`, and the index conversions `rowFromIndex`, `colFromIndex` and `indexFromRowCol`;
  - elementwise `add` and `sub`;
  - the validation helper `ErrorCheckHelper.assertIndices`.
- **`Assert`** holds four stateless validators: `integer`, `integerMin`, `integerMax` and `index`. Each one passes or throws. A TypeError (not an integer) always takes precedence over a RangeError (out of bounds).

The model is split into four modules, one per file:

- `values.dfy`, module `JsValues`: the JavaScript values that reach the checks, `Number.isInteger`, and the error kinds. `Value` is a tagged union of number, string, array of numbers, `null` and `undefined`. The error kinds are `TypeError`, `RangeError` and `ReferenceError`. A thrown exception becomes an `Err`/`Fail` value.
- `assert.dfy`, module `Assert`: the validators of `src/assert.js`, as pure functions.
- `matrix.dfy`, module `Matrices`: `src/matrix.js` **as written**, with its defects.
  - A Matrix is a datatype. Construction can throw, and no operation changes a Matrix afterwards.
  - `assertIndices` is a loop with early exits, so it is a method (`AssertIndices`). It is proved equal to the function `CheckIndices`, which the other operations use.
  - `filled` allocates an array and fills it, so it is a method (`Filled`) with a loop over a Dafny `array`.
  - The defects of this revision are stated as lemmas at the end of the module.
- `matrix_intended.dfy`, module `MatrixIntended`: the corrected behaviour that the code's own comments and the repository's tests ask for. Its index checks go through `Assert.index`, its bounds are strict, `colFromIndex` works modulo `cols`, and `add`/`sub` check shapes and return a new Matrix. The round-trip and identity properties are proved here.

Numbers are exact `real`s. The code and the repository's tests disagree in places: test/matrix-test.js expects zero-based indices, `set`, scalar operands and Matrix results from `add`/`sub`. `Matrices` follows the code. `MatrixIntended` gives the behaviour the tests expect, but only for operations that exist in this revision.

## Model

| member | source | states |
|---|---|---|
| `JsValues.IsIntegerIffInt` | src/assert.js:4 | `Number.isInteger` accepts exactly the numbers that stand for an integer, and `IntOf` recovers that integer |
| `Assert.Integer` | src/assert.js:3-6 | passes iff the value is an integer; the only failure is TypeError |
| `Assert.IntegerMin` | src/assert.js:8-12 | passes iff the value is an integer `k` with `min <= k` (so `k == min` is accepted); RangeError iff it is an integer below `min`; TypeError iff it is not an integer |
| `Assert.IntegerMax` | src/assert.js:14-18 | passes iff the value is an integer `k <= max`; RangeError iff it is an integer above `max`; TypeError iff it is not an integer |
| `Assert.Index` | src/assert.js:20-22 | passes exactly on the non-negative integers (0 included); RangeError for negative integers, TypeError for non-integers |
| `Assert.IndexIsIntegerMinZero` | src/assert.js:20-22 | `index(v)` is `integerMin(v, 0)` |
| `Assert.NonIntegerIsTypeError` | src/assert.js:8-22 | a non-integer gets TypeError from every validator, whatever the bound, because the integer check runs first |
| `Assert.OnlyTypeOrRangeErrors` | src/assert.js:3-22 | the validators throw no kind of error other than TypeError and RangeError |
| `Assert.BothBoundsPass` | src/assert.js:8-18 | `integerMin(v, lo)` and `integerMax(v, hi)` both pass iff `v` is an integer in `[lo, hi]` |
| `Assert.TestCases` | test/assert-test.js:6-27 | the tested values get the expected verdicts: 0 passes; 0.95, `'1'`, `[1]`, null and undefined fail; the boundary values pass |
| `Matrices.CheckIndices` | src/matrix.js:109-114 | `assertIndices` passes iff every supplied value is a positive integer |
| `Matrices.AssertIndices` | src/matrix.js:109-114 | the loop over the entries, with its early throws, returns exactly the verdict of `CheckIndices` |
| `Matrices.CheckIndicesFirstRejection` | src/matrix.js:110-113 | the error is decided by the first rejected entry in order: TypeError if it is not an integer, else RangeError |
| `Matrices.CheckIndicesIsIntegerMinOne` | src/matrix.js:111-112 | on one value, `assertIndices` gives the same verdict as `Assert.integerMin(v, 1)` |
| `Matrices.ValidatorsDisagreeOnZero` | src/matrix.js:112 | `Assert.index` accepts 0 and `assertIndices` rejects it with RangeError |
| `Matrices.New` | src/matrix.js:3-10 | succeeds iff rows and cols are positive integers, data is an array and its length is `rows*cols`, and then stores all three unchanged (and valid). The failures come in this order: rows (TypeError, then RangeError), cols (same), data not an array (TypeError), wrong length (RangeError) |
| `Matrices.NewLength` | src/matrix.js:36-38 | after successful construction, `len()` is `rows * cols`, which is the data's length |
| `Matrices.RowsMatch` | src/matrix.js:14 | the rectangularity test passes iff every row is an array of the first row's length |
| `Matrices.RowsMatchFirstMismatch` | src/matrix.js:14 | the test stops at the first mismatching row: TypeError if that row is null or undefined, RangeError otherwise |
| `Matrices.FlatRowMajor` | src/matrix.js:15 | flattening rows of width `w` gives (number of rows) × `w` numbers, and cell `j` of row `i` ends up at position `w*i + j` |
| `Matrices.From2DArray` | src/matrix.js:12-16 | succeeds iff the input is a non-empty rectangular array of arrays whose first row is non-empty. The result then has `rows` = number of rows, `cols` = first row's length and row-major data. Errors: TypeError for a non-array, an empty array or a non-array first row; the rectangularity test's own error; RangeError for empty rows |
| `Matrices.ConstructionExamples` | test/matrix-test.js:6-38 | the tested constructor and `from2DArray` inputs give the expected TypeError, RangeError or matrix. Not among them is `from2DArray(['11', '22'])` (line 27), whose string rows the model cannot represent |
| `Matrices.Filled` | src/matrix.js:26-30 | succeeds iff rows and cols are positive integers whose product is below 2^32. Otherwise it gives the error of `assertIndices`, or the RangeError of `new Array` for a product of 2^32 or more. On success it gives a valid `rows × cols` matrix every cell of which is `value` |
| `Matrices.Zeros` | src/matrix.js:18-20 | as `Filled`, with every cell 0 |
| `Matrices.Ones` | src/matrix.js:22-24 | as `Filled`, with every cell 1 |
| `Matrices.Len` | src/matrix.js:36-38 | the length of a valid matrix is `rows * cols`, which is positive |
| `Matrices.RowFromIndex` | src/matrix.js:89-92 | accepts only positive integers; the result `q` satisfies `cols*q <= index < cols*(q+1)`, i.e. it is `floor(index / cols)` |
| `Matrices.RowFromIndexOfCell` | src/matrix.js:89-92 | `rowFromIndex(cols*r + c) == r` for every `0 <= c < cols` for which the index is accepted |
| `Matrices.ColFromIndex` | src/matrix.js:95-98 | accepts only positive integers; the result lies in `[0, cols]` and differs from the index by a multiple of `cols + 1`, i.e. it is `index mod (cols + 1)`; it can equal `cols`, which is not a column |
| `Matrices.ColFromIndexDoesNotInvert` | src/matrix.js:97 | on every valid matrix, index `cols` lies in row 1 (`rowFromIndex` gives 1), yet `colFromIndex(cols)` is `cols` instead of 0 |
| `Matrices.IndexFromRowColIn` | src/matrix.js:101-104 | the method body in a given scope: ReferenceError when `rows` or `cols` is unbound; otherwise it succeeds iff both are positive integers (with `assertIndices`'s error if not), and the result is `cols*row + col` |
| `Matrices.IndexFromRowColNeverReturns` | src/matrix.js:102 | in the scope where the method is defined, the lookup of `rows` fails, so `indexFromRowCol` throws ReferenceError for every argument and line 103 is never reached |
| `Matrices.At` | src/matrix.js:40-56 | an element is returned only by the one-argument form, for `0 < i < len()`, and it is `data[i]`; a read past the end happens only for `i == len()`; the one-argument form throws TypeError iff the index is not an integer; the two-argument form always throws |
| `Matrices.AtFlat` | src/matrix.js:49-55 | one-argument `at(i)` on an integer: RangeError if `i <= 0` or `i > len()`, `data[i]` if `i < len()`, and a read past the end if `i == len()` |
| `Matrices.AtPairAlwaysThrows` | src/matrix.js:42-48 | two-argument `at(r, c)` never returns an element. It throws the check error of `r` (TypeError for a non-integer, RangeError for `r <= 0`), else that of `c`, else RangeError if `r > rows` or `c > cols`, else ReferenceError |
| `Matrices.AtRejectsIndexZero` | src/matrix.js:43-51 | index 0 is rejected with RangeError by `at(0)` and `at(0, c)` for every `c`, by `at(r, 0)` for every integer `r` (TypeError for a non-integer `r`), and by `rowFromIndex(0)` and `colFromIndex(0)` |
| `Matrices.AtReadsPastEnd` | src/matrix.js:52-55 | `at(len())` passes the bound check and reads beyond the data |
| `Matrices.AtExamples` | test/matrix-test.js:82-100 | on the tested 2×3 matrix: `at(7)`, `at(0,4)` and `at(3,1)` throw RangeError and `at(4)` is 5, as expected; `at(0)` and `at(0,0)` throw RangeError and `at(1,2)` throws ReferenceError instead of returning 1, 1 and 6; `at(2,1)` and `at(2,3)` slip past the bound tests and throw ReferenceError |
| `Matrices.MapWithAt` | src/matrix.js:61-63 | mapping from position `i` succeeds iff no `other.at(k)` throws; then cell `k` is `data[k] op other.at(k)`, or NaN where `at` reads past the end; otherwise it throws the error of the first `k` whose `at` throws |
| `Matrices.Add` | src/matrix.js:59-64 | a non-Matrix argument throws TypeError; a Matrix argument, of any shape, throws RangeError (from `other.at(0)`), so no array is ever returned |
| `Matrices.Sub` | src/matrix.js:67-72 | a non-Matrix argument throws TypeError; a Matrix argument, of any shape, throws RangeError (from `other.at(0)`) |
| `MatrixIntended.IndexFromRowColIntended` | src/matrix.js:101-104 | with `row` and `col` checked as zero-based indices, succeeds iff both pass and gives `cols*row + col`; otherwise gives the first failing check's error |
| `MatrixIntended.RowFromIndexIntended` | src/matrix.js:89-92 | accepts every non-negative integer and gives `floor(index / cols)` |
| `MatrixIntended.ColFromIndexIntended` | src/matrix.js:95-98 | accepts every non-negative integer and gives a column in `[0, cols)` |
| `MatrixIntended.SplitIndex` | src/matrix.js:89-98 | `cols * rowFromIndex(k) + colFromIndex(k) == k` for every `k >= 0` |
| `MatrixIntended.IndexRoundTripFromFlat` | src/matrix.js:89-104 | `indexFromRowCol(rowFromIndex(k), colFromIndex(k)) == k` |
| `MatrixIntended.IndexRoundTripFromCell` | src/matrix.js:89-104 | for `0 <= c < cols`: `rowFromIndex(indexFromRowCol(r, c)) == r` and `colFromIndex(indexFromRowCol(r, c)) == c` |
| `MatrixIntended.AtIntended` | src/matrix.js:40-56 | never reads past the end; one-argument form returns `data[i]` iff `0 <= i < len()`; two-argument form returns only cells with `0 <= r < rows`, `0 <= c < cols`, at `cols*r + c` |
| `MatrixIntended.AtIntendedFlat` | src/matrix.js:49-55 | `at(i)` is `data[i]` for `0 <= i < len()` and RangeError for every other integer |
| `MatrixIntended.AtIntendedCell` | src/matrix.js:42-48 | `at(r, c)` equals `at(cols*r + c)`, which is `data[cols*r + c]`, inside the shape, and is RangeError outside it |
| `MatrixIntended.AtIntendedExamples` | test/matrix-test.js:82-100 | every tested access gets the value or error the test expects |
| `MatrixIntended.Elementwise` | src/matrix.js:59-72 | TypeError for a non-Matrix; RangeError iff the shapes differ; otherwise a new valid matrix of the same shape whose cell `i` combines cell `i` of both operands |
| `MatrixIntended.AddIntended` | src/matrix.js:59-64 | a new same-shape Matrix with cell `i` = `a[i] + b[i]`; errors as for `Elementwise` |
| `MatrixIntended.SubIntended` | src/matrix.js:67-72 | a new same-shape Matrix with cell `i` = `a[i] - b[i]`; errors as for `Elementwise` |
| `MatrixIntended.SubUndoesAdd` | src/matrix.js:59-72 | `(m + o) - o == m` for matrices of equal shape |
| `MatrixIntended.AddCommutes` | src/matrix.js:59-64 | `m + o == o + m`, and both throw RangeError when the shapes differ |
| `MatrixIntended.AddSubIntendedExamples` | test/matrix-test.js:114-147 | the tested matrix `add`/`sub` cases: mismatched shapes throw RangeError, and equal shapes give the expected cells |

## Left out

- `mul` and `div` (src/matrix.js:75-86) are not modelled. Beyond the TypeError guard they are unfinished stubs (`mul` maps to `undefined`, `div` returns nothing), so there is no product or division to model. The repository's tests for them (test/matrix-test.js:156-194) describe code this revision does not have.
- `Matrix.isMatrix` (src/matrix.js:32-34) is not a function of its own. It is the case split of `Operand`: a `MatrixOperand` passes it and a `Plain` value fails.
- Floating point: elements and arguments are exact reals. There is no IEEE rounding, and no NaN or Infinity among the inputs. The tested sums such as 7.95 are therefore exact here.
- Dynamic typing beyond the error cases:
  - the `data` array holds numbers only;
  - `from2DArray` rows are arrays of numbers, numbers, or null/undefined. A string row is not modelled: its `length` takes part in the rectangularity test, and a one-character string in a one-column grid would become an element.
  - deeper nesting that `flat(2)` would also flatten is not modelled.
- `Matrices.IndexFromRowCol` takes `row` and `col` as numbers. The method is public, but the JavaScript coercion that line 103 would apply to other argument types is not modelled, because that line is never reached.
- The constructor stores the caller's array by reference. The model is by value, so a caller changing that array later is not captured.
- Error message strings, the `caller` labels of `Assert`, the keys' role in messages, and the `exports` wiring are not modelled.
- test/test.js is a console script that calls functions this revision does not define, and it is not part of this model.

## Findings

| source | as written | input that shows it | evidently intended | confidence | as-written member | corrected member |
|---|---|---|---|---|---|---|
| src/matrix.js:43-54 | every index goes through `assertIndices`, which rejects `value <= 0` | `at(0)` on any matrix throws RangeError | zero-based indices, 0 accepted (as `Assert.index` and the tests do) | high (the code's own comments say so); not executed | `Matrices.AtRejectsIndexZero` | `MatrixIntended.AtIntendedFlat` |
| src/matrix.js:52 | bound test `index > len()` | `at(len())` passes and reads `undefined` past the end | `index >= len()` rejected | high; not executed | `Matrices.AtReadsPastEnd` | `MatrixIntended.AtIntended` |
| src/matrix.js:102 | `indexFromRowCol` checks the names `rows`/`cols`, which are unbound there | `indexFromRowCol(1, 2)`, or `at(1, 2)`, throws ReferenceError | check its own `row`/`col` and return `cols*row + col` | high; not executed | `Matrices.IndexFromRowColNeverReturns` | `MatrixIntended.IndexRoundTripFromCell` |
| src/matrix.js:97 | `index % (cols + 1)` | 3 columns: `colFromIndex(3)` is 3, but index 3 is cell (1, 0) | `index % cols` | high; not executed | `Matrices.ColFromIndexDoesNotInvert` | `MatrixIntended.IndexRoundTripFromFlat` |
| src/matrix.js:59-72 | `add`/`sub` map over the data calling `other.at(index)`, with no shape check, and return a plain array | `m.add(m)` throws RangeError at `other.at(0)` | shape check, then a new Matrix of cellwise sums/differences | high; not executed | `Matrices.Add` | `MatrixIntended.SubUndoesAdd` |

The two-argument bound tests `rowIndex > rows` and `colIndex > cols` (src/matrix.js:45-46) have the same off-by-one as line 52. It shows in which error is thrown: on a 2×3 matrix, `at(2, 1)` passes the test and meets the ReferenceError of `indexFromRowCol`, while `at(3, 1)` is stopped with RangeError (`Matrices.AtExamples`, `Matrices.AtPairAlwaysThrows`). `MatrixIntended.AtIntendedCell` states the corrected bounds.
