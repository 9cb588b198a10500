# Chavp.Math vectors and matrices in Dafny

This project models the `Vector` and `Matrix` types of the Chavp.Math
library, and proves what their operations compute.

A `Vector` is a struct over a mutable list of nullable doubles. Its
operators work componentwise, and most of them iterate over the left
operand's length. A `Matrix` is a list of row `Vector`s. Its algebra is
built from the vector operators:

- sum, difference and scaling;
- product and transpose;
- submatrix, recursive Laplace determinant, cofactor matrix, adjugate and inverse;
- trace;
- the column sums and means, computed as products with a matrix of ones.

The cross product of two vectors is computed through a 3-by-3 matrix. The
diagonal builders produce a matrix.

Modules:

- `Outcomes`: the `Error` values that stand for the exceptions the library throws (and for the one case, `Singular`, that the model reports although the library does not throw), and a `Result` type.
- `Vectors`:
  - specification functions on `seq<real>`;
  - the vector operators as methods with loops, each proved equal to its specification function;
  - the `Vector` class with its in-place members (the indexer's setter, `Add`, `RemoveAt`, `Absolute`);
  - lemmas about the operators.
- `MatrixSpec`:
  - the matrix specification functions, including `Det` (the expansion along row 0, as the library computes it), `CofactorMatrix`, `AdjugateOf` and `InverseOf`;
  - the algebraic lemmas about them.
- `Matrices`:
  - the static matrix operators as methods over row sequences;
  - the `Matrix` class. It holds row `Vector` objects and has the setters, `Clone`, `Submatrix` and the determinant family.
- `VectorMatrix`: `Cross`, `Diag` and `Revdiag`, with their lemmas.
- `TestCases`: the worked examples of the library's unit tests, stated as lemmas.

Scalars are exact `real`s. Operations that throw return `Failure(e)`:

| error | when it is returned |
|---|---|
| `IndexOutOfRange` | the library throws: reading past a list's end |
| `NotSquare` | the library throws: the square-matrix check fails |
| `ShapeMismatch` | the library throws: the product's dimension check fails |
| `NotThreeD` | the library throws: the cross product's check fails |
| `EmptyMatrix` | the library throws: the size of a matrix without rows is asked for |
| `Singular` | the library does not throw: inverting a matrix of determinant 0 returns infinities and NaN there, and the model reports this case as an error instead |

## Model

| member | source | states |
|---|---|---|
| Vectors.Add | Chavp.Math.Tests/Chavp.Math.Tests/Models/Vector.cs:26-34 | `c1 + c2` fails with IndexOutOfRange exactly when `c2` is shorter than `c1`. Otherwise it has `c1`'s length and component i is `c1[i] + c2[i]`. |
| Vectors.Subtract | Chavp.Math.Tests/Chavp.Math.Tests/Models/Vector.cs:66-74 | `c1 - c2`: the same failure condition; component i is `c1[i] - c2[i]`. |
| Vectors.Multiply | Chavp.Math.Tests/Chavp.Math.Tests/Models/Vector.cs:36-44 | `c1 * c2`: the same failure condition; component i is `c1[i] * c2[i]`. |
| Vectors.Divide | Chavp.Math.Tests/Chavp.Math.Tests/Models/Vector.cs:76-84 | `c1 / c2`: the same failure condition. Each quotient times its divisor gives back `c1[i]`. |
| Vectors.Scale | Chavp.Math.Tests/Chavp.Math.Tests/Models/Vector.cs:86-94 | `v * c` has `v`'s length, and component i is `v[i] * c`. |
| Vectors.ScaleLeft | Chavp.Math.Tests/Chavp.Math.Tests/Models/Vector.cs:106-109 | `c * v` equals `v * c`, component i being `c * v[i]`. |
| Vectors.And | Chavp.Math.Tests/Chavp.Math.Tests/Models/Vector.cs:46-54 | `c1 & c2`: the same failure condition. Every component is 0 or 1, and it is 1 if and only if both operands' components are positive. |
| Vectors.Or | Chavp.Math.Tests/Chavp.Math.Tests/Models/Vector.cs:56-64 | The or operator: the same failure condition. Every component is 0 or 1, and it is 1 if and only if either operand's component is positive. |
| Vectors.Equal | Chavp.Math.Tests/Chavp.Math.Tests/Models/Vector.cs:116-123 | `c1 == c2` is true if and only if `c1` is a prefix of `c2`. It throws if and only if `c2` is shorter and agrees with `c1` as far as it goes. |
| Vectors.NotEqual | Chavp.Math.Tests/Chavp.Math.Tests/Models/Vector.cs:111-114 | `c1 != c2` is the negation of the prefix test, and throws exactly when `==` does. |
| Vectors.Dot | Chavp.Math.Tests/Chavp.Math.Tests/Models/Vector.cs:158-166 | `v.Dot(c)` fails when `v` is shorter than `c`. Otherwise it is the sum of `v[i] * c[i]` over `c`'s length. |
| Vectors.Vector.constructor | Chavp.Math.Tests/Chavp.Math.Tests/Models/Vector.cs:12-15 | A new vector holds exactly the given components. |
| Vectors.Vector.Set | Chavp.Math.Tests/Chavp.Math.Tests/Models/Vector.cs:235-245 | The indexer's setter replaces component i and leaves every other component as it was. |
| Vectors.Vector.Append | Chavp.Math.Tests/Chavp.Math.Tests/Models/Vector.cs:202-205 | `Add(value)` appends `value` after the existing components. |
| Vectors.Vector.RemoveAt | Chavp.Math.Tests/Chavp.Math.Tests/Models/Vector.cs:212-215 | `RemoveAt(k)` shortens the vector by one and keeps the other components in order. |
| Vectors.Vector.Absolute | Chavp.Math.Tests/Chavp.Math.Tests/Models/Vector.cs:217-225 | `Absolute` returns the receiver itself, whose components have become their absolute values: the clone shares the list. |
| Vectors.MinusUndoesPlus | Chavp.Math.Tests/Chavp.Math.Tests/Models/Vector.cs:66-74 | `(a + b) - b == a` whenever `b` is at least as long as `a`. |
| Vectors.TimesUndoesOver | Chavp.Math.Tests/Chavp.Math.Tests/Models/Vector.cs:76-84 | `(a / b) * b == a` when the divisors are nonzero. |
| Vectors.PlusCommutes | Chavp.Math.Tests/Chavp.Math.Tests/Models/Vector.cs:26-34 | `a + b == b + a` for vectors of equal length. |
| Vectors.AndIsProductOfIndicators | Chavp.Math.Tests/Chavp.Math.Tests/Models/Vector.cs:46-54 | `a & b` is the componentwise product of the 0/1 "is positive" indicators of `a` and `b`. |
| Vectors.OrIsInclusionExclusion | Chavp.Math.Tests/Chavp.Math.Tests/Models/Vector.cs:56-64 | The or operator on `a` and `b` equals `ind(a) + ind(b) - ind(a) * ind(b)`, where `ind` is the 0/1 indicator. |
| Vectors.DotSymmetric | Chavp.Math.Tests/Chavp.Math.Tests/Models/Vector.cs:158-166 | `v.Dot(c) == c.Dot(v)` for vectors of equal length. |
| Vectors.Total | Chavp.Math.Tests/Chavp.Math.Tests/Models/Vector.cs:207-210 | `Sum()` is the sum of the components, a null component counting as 0. Non-negative components have a non-negative sum. |
| Vectors.TotalFromFront | Chavp.Math.Tests/Chavp.Math.Tests/Models/Vector.cs:207-210 | The sum does not depend on the order of accumulation: summing from the first component gives the same total as summing from the last. |
| Vectors.TotalAppend | Chavp.Math.Tests/Chavp.Math.Tests/Models/Vector.cs:202-210 | `Sum` after `Add(value)` has grown by `value`. |
| Vectors.TotalRemoveAt | Chavp.Math.Tests/Chavp.Math.Tests/Models/Vector.cs:207-215 | `Sum` after `RemoveAt(k)` has dropped by the removed component. |
| Vectors.AbsAllIdempotent | Chavp.Math.Tests/Chavp.Math.Tests/Models/Vector.cs:217-225 | After `Absolute`, every component is non-negative, and a second `Absolute` changes nothing. |
| Vectors.TotalAbsBound | Chavp.Math.Tests/Chavp.Math.Tests/Models/Vector.cs:207-225 | Triangle inequality: the absolute value of `Sum` is at most the `Sum` after `Absolute`. |
| MatrixSpec.MinorOfSquare | Chavp.Math.Tests/Chavp.Math.Tests/Models/Matrix.cs:154-164 | Removing a row and a column of an n-by-n matrix, n >= 2, leaves an (n-1)-by-(n-1) matrix. |
| MatrixSpec.PlusCommutes | Chavp.Math.Tests/Chavp.Math.Tests/Models/Matrix.cs:28-36 | `A + B == B + A` for matrices of the same shape. |
| MatrixSpec.PlusAssociates | Chavp.Math.Tests/Chavp.Math.Tests/Models/Matrix.cs:28-36 | `(A + B) + C == A + (B + C)` for matrices of the same shape. |
| MatrixSpec.MinusUndoesPlus | Chavp.Math.Tests/Chavp.Math.Tests/Models/Matrix.cs:38-46 | `(A + B) - B == A` whenever `B` covers `A`'s shape. |
| MatrixSpec.TransposeInvolution | Chavp.Math.Tests/Chavp.Math.Tests/Models/Matrix.cs:115-127 | `~~A == A` for a non-empty rectangular matrix with at least one column. |
| MatrixSpec.ProductIdentityRight | Chavp.Math.Tests/Chavp.Math.Tests/Models/Matrix.cs:65-88 | `A * I == A`. |
| MatrixSpec.ProductIdentityLeft | Chavp.Math.Tests/Chavp.Math.Tests/Models/Matrix.cs:65-88 | `I * A == A`. |
| MatrixSpec.ProductTranspose | Chavp.Math.Tests/Chavp.Math.Tests/Models/Matrix.cs:65-88 | `~(A * B) == ~B * ~A`. |
| MatrixSpec.ProductScaledRight | Chavp.Math.Tests/Chavp.Math.Tests/Models/Matrix.cs:48-88 | `A * (B * k) == (A * B) * k`. |
| MatrixSpec.TraceTranspose | Chavp.Math.Tests/Chavp.Math.Tests/Models/Matrix.cs:166-179 | A square matrix and its transpose have the same trace. |
| MatrixSpec.SumThroughOnes | Chavp.Math.Tests/Chavp.Math.Tests/Models/Matrix.cs:217-222 | For any shape, `~(~A * ONE)` with a column of one 1 per row of `A` is defined, and is the single row of `A`'s column sums. |
| MatrixSpec.ColumnSumsOfOnes | Chavp.Math.Tests/Chavp.Math.Tests/Models/Matrix.cs:224-233 | The column sums of an n-by-k ones matrix are all n, for every k: `Mean` divides by the row count. |
| MatrixSpec.Det2 | Chavp.Math.Tests/Chavp.Math.Tests/Models/Matrix.cs:235-260 | The expansion gives `ad - bc` for a 2-by-2 matrix. |
| MatrixSpec.DetOfRows | Chavp.Math.Tests/Chavp.Math.Tests/Models/Matrix.cs:235-260 | For a 3-by-3 matrix, the expansion is the six-term rule of Sarrus. |
| MatrixSpec.RepeatedRow3 | Chavp.Math.Tests/Chavp.Math.Tests/Models/Matrix.cs:235-260 | A 3-by-3 matrix with two equal rows has determinant 0. |
| MatrixSpec.CofactorDotUpTo | Chavp.Math.Tests/Chavp.Math.Tests/Models/Matrix.cs:244-259 | At every step, the running total of the determinant loop is the dot product of row 0 with the same prefix of the cofactor matrix's row 0. |
| MatrixSpec.ProductWithAdjugateFirstEntry | Chavp.Math.Tests/Chavp.Math.Tests/Models/Matrix.cs:201-204 | For every order n >= 2, entry (0, 0) of `A * Adjugate(A)` is `Det(A)`. |
| MatrixSpec.CrossIsExpansion | Chavp.Math.Tests/Chavp.Math.Tests/Models/Vector.cs:141-156 | `e . (a x b)` is the determinant of the matrix with rows `e`, `a`, `b`. |
| MatrixSpec.CofactorRow0 | Chavp.Math.Tests/Chavp.Math.Tests/Models/Matrix.cs:181-199 | Row 0 of the cofactor matrix of `[e, a, b]` is `a x b`. |
| MatrixSpec.CofactorRow1 | Chavp.Math.Tests/Chavp.Math.Tests/Models/Matrix.cs:181-199 | Row 1 of the cofactor matrix of `[e, a, b]` is `b x e`. |
| MatrixSpec.CofactorRow2 | Chavp.Math.Tests/Chavp.Math.Tests/Models/Matrix.cs:181-199 | Row 2 of the cofactor matrix of `[e, a, b]` is `e x a`. |
| MatrixSpec.DotCofactorRow3 | Chavp.Math.Tests/Chavp.Math.Tests/Models/Matrix.cs:181-199 | The dot product of `w` with cofactor row c is the determinant with row c replaced by `w`. |
| MatrixSpec.AdjugateProduct3 | Chavp.Math.Tests/Chavp.Math.Tests/Models/Matrix.cs:201-204 | `A * Adjugate(A) == Det(A) * I` for every 3-by-3 matrix. |
| MatrixSpec.InverseProduct3 | Chavp.Math.Tests/Chavp.Math.Tests/Models/Matrix.cs:206-215 | `A * Invert(A) == I` for every 3-by-3 matrix with nonzero determinant. |
| Matrices.Init | Chavp.Math.Tests/Chavp.Math.Tests/Models/Matrix.cs:90-103 | `rows` rows of `cols` entries, each the default value. |
| Matrices.OneMatrix | Chavp.Math.Tests/Chavp.Math.Tests/Models/Matrix.cs:285-288 | A `rows` by `columns` matrix with every entry 1. |
| Matrices.InitRows | Chavp.Math.Tests/Chavp.Math.Tests/Models/Matrix.cs:105-113 | `rows` rows, each equal to the given vector. |
| Matrices.Add | Chavp.Math.Tests/Chavp.Math.Tests/Models/Matrix.cs:28-36 | `A + B` fails with IndexOutOfRange exactly when `B` does not cover `A`'s shape. Otherwise it has `A`'s shape, and entry (j, l) is `A[j][l] + B[j][l]`. |
| Matrices.Subtract | Chavp.Math.Tests/Chavp.Math.Tests/Models/Matrix.cs:38-46 | `A - B`: the same failure condition; entry (j, l) is `A[j][l] - B[j][l]`. |
| Matrices.Scale | Chavp.Math.Tests/Chavp.Math.Tests/Models/Matrix.cs:48-58 | `A * c` has `A`'s shape, and entry (j, l) is `A[j][l] * c`. |
| Matrices.ScaleLeft | Chavp.Math.Tests/Chavp.Math.Tests/Models/Matrix.cs:60-63 | `c * A` equals `A * c`. |
| Matrices.Multiply | Chavp.Math.Tests/Chavp.Math.Tests/Models/Matrix.cs:65-88 | `A * B` fails on an empty operand, and fails with ShapeMismatch when `A`'s column count is not `B`'s row count. Otherwise it is the row-by-column product. |
| Matrices.Transpose | Chavp.Math.Tests/Chavp.Math.Tests/Models/Matrix.cs:115-127 | `~A` fails on an empty matrix. Otherwise it is `A`'s column count by `A`'s row count, and entry (j, i) is `A[i][j]`. |
| Matrices.Trace | Chavp.Math.Tests/Chavp.Math.Tests/Models/Matrix.cs:166-179 | `Trace` fails with NotSquare on a non-square matrix. Otherwise it is the sum of the main diagonal. |
| Matrices.Sum | Chavp.Math.Tests/Chavp.Math.Tests/Models/Matrix.cs:217-222 | As written: `Sum` fails with ShapeMismatch on every non-square matrix. On a square matrix it is the single row of column sums. |
| Matrices.SumOfColumns | Chavp.Math.Tests/Chavp.Math.Tests/Models/Matrix.cs:217-222 | `Sum` corrected: for every non-empty shape, the single row of column sums. |
| Matrices.Mean | Chavp.Math.Tests/Chavp.Math.Tests/Models/Matrix.cs:224-233 | As written, since it calls `Sum`: it fails on a non-square matrix. On a square matrix it is the row of column sums, each divided by the row count. |
| Matrices.MeanOfColumns | Chavp.Math.Tests/Chavp.Math.Tests/Models/Matrix.cs:224-233 | `Mean` corrected: built on `SumOfColumns`, it gives every column sum divided by the row count, for every non-empty shape. |
| Matrices.Matrix.constructor | Chavp.Math.Tests/Chavp.Math.Tests/Models/Matrix.cs:12-15 | A new matrix has no rows. |
| Matrices.Matrix.FromRows | Chavp.Math.Tests/Chavp.Math.Tests/Models/Vector.cs:145-149 | `new Matrix(rows...)` holds exactly the given row objects. |
| Matrices.Matrix.SetRow | Chavp.Math.Tests/Chavp.Math.Tests/Models/Matrix.cs:129-139 | The row setter replaces row i with the given object, and nothing else. |
| Matrices.Matrix.SetEntry | Chavp.Math.Tests/Chavp.Math.Tests/Models/Matrix.cs:141-152 | The entry setter writes into row i's list. Every row that is the same object changes with it, and every other row is unchanged. |
| Matrices.Matrix.Clone | Chavp.Math.Tests/Chavp.Math.Tests/Models/Matrix.cs:262-275 | `Clone` returns a fresh matrix with the same rows. Its rows are fresh, pairwise distinct vectors. |
| Matrices.Matrix.Submatrix | Chavp.Math.Tests/Chavp.Math.Tests/Models/Matrix.cs:154-164 | `Submatrix(i, j)` is the matrix without row i and column j. It is a fresh matrix over fresh, pairwise distinct row vectors, so changing it cannot touch the receiver, which is left unchanged. |
| Matrices.Matrix.Determinant | Chavp.Math.Tests/Chavp.Math.Tests/Models/Matrix.cs:235-260 | `Determinant` fails on an empty or non-square matrix. Otherwise it is `Det`: the single entry for order 1, and the alternating expansion along row 0 above that. |
| Matrices.Matrix.Expand | Chavp.Math.Tests/Chavp.Math.Tests/Models/Matrix.cs:244-259 | The loop of `Determinant` computes `Det` for every order n >= 2. |
| Matrices.Matrix.ExpandColumn | Chavp.Math.Tests/Chavp.Math.Tests/Models/Matrix.cs:247-256 | One turn of that loop moves the running total from the first i terms to the first i + 1. |
| Matrices.Matrix.DropRowAndColumn | Chavp.Math.Tests/Chavp.Math.Tests/Models/Matrix.cs:157-161 | On a matrix whose row objects are pairwise distinct, removing row object i and then entry j of every remaining row leaves the minor without row i and column j. The remaining row objects keep their order and stay distinct. |
| Matrices.Matrix.SubmatrixDeterminant | Chavp.Math.Tests/Chavp.Math.Tests/Models/Matrix.cs:190 | `Submatrix(i, j).Determinant()` is the determinant of the minor. It fails for an order-1 matrix, whose submatrix has no rows. |
| Matrices.Matrix.Cofactor | Chavp.Math.Tests/Chavp.Math.Tests/Models/Matrix.cs:181-199 | `Cofactor` fails on an empty, non-square or order-1 matrix. Otherwise it is the matrix of signed minor determinants. |
| Matrices.Matrix.CofactorRow | Chavp.Math.Tests/Chavp.Math.Tests/Models/Matrix.cs:188-196 | One pass of the inner loop fills row i with the signed minor determinants and leaves every other row as it was. It fails on an order-1 matrix. |
| Matrices.Matrix.Adjugate | Chavp.Math.Tests/Chavp.Math.Tests/Models/Matrix.cs:201-204 | `Adjugate` has the same failures as `Cofactor`. Otherwise it is the transpose of the cofactor matrix. |
| Matrices.Matrix.Invert | Chavp.Math.Tests/Chavp.Math.Tests/Models/Matrix.cs:206-215 | `Invert` has the same failures as `Adjugate`. It fails with Singular at determinant 0. Otherwise it is `(1 / Det) * Adjugate`, whose product with the matrix is the identity at order 3. |
| VectorMatrix.Cross | Chavp.Math.Tests/Chavp.Math.Tests/Models/Vector.cs:141-156 | `v.Cross(c)` fails with "Not 3D" unless `c` has 3 components. It fails when `v` is empty, fails with NotSquare when `v` has another length than 3, and otherwise is the closed-form cross product. |
| VectorMatrix.TopMinorDeterminant | Chavp.Math.Tests/Chavp.Math.Tests/Models/Vector.cs:151-153 | The minor determinants `Cross` computes are those of the 3-by-3 matrix `[1, v, c]`, and they exist exactly when `v` has 3 components. |
| VectorMatrix.MinorsAlongFirstRow | Chavp.Math.Tests/Chavp.Math.Tests/Models/Vector.cs:151-155 | The three minor determinants along row 0, the middle one negated, are the cross product of rows 1 and 2. |
| VectorMatrix.CrossOrthogonalLeft | Chavp.Math.Tests/Chavp.Math.Tests/Models/Vector.cs:141-156 | `a . (a x b) == 0`. |
| VectorMatrix.CrossOrthogonalRight | Chavp.Math.Tests/Chavp.Math.Tests/Models/Vector.cs:141-156 | `b . (a x b) == 0`. |
| VectorMatrix.CrossAnticommutes | Chavp.Math.Tests/Chavp.Math.Tests/Models/Vector.cs:141-156 | `b x a == -(a x b)`. |
| VectorMatrix.Diag | Chavp.Math.Tests/Chavp.Math.Tests/Models/Vector.cs:182-190 | `v.Diag()` is the n-by-n matrix with `v` on the main diagonal and 0 elsewhere. |
| VectorMatrix.Revdiag | Chavp.Math.Tests/Chavp.Math.Tests/Models/Vector.cs:192-200 | `v.Revdiag()` is the n-by-n matrix with `v` on the anti-diagonal, top right to bottom left, and 0 elsewhere. |
| VectorMatrix.DiagonalSymmetric | Chavp.Math.Tests/Chavp.Math.Tests/Models/Vector.cs:182-190 | `Diag(v)` is its own transpose. |
| VectorMatrix.TraceOfDiagonal | Chavp.Math.Tests/Chavp.Math.Tests/Models/Vector.cs:182-190 | The trace of `Diag(v)` is `v.Sum()`. |
| VectorMatrix.AntiDiagonalTranspose | Chavp.Math.Tests/Chavp.Math.Tests/Models/Vector.cs:192-200 | The transpose of `Revdiag(v)` is `Revdiag` of `v` reversed. |
| TestCases.ProductExample | Chavp.Math.Tests/Chavp.Math.Tests/MatrixTest.cs:52-76 | `[[2,3,4],[1,0,0]] * [[0,1000],[1,100],[0,10]] == [[3,2340],[0,1000]]`. |
| TestCases.SubmatrixExample | Chavp.Math.Tests/Chavp.Math.Tests/MatrixTest.cs:79-94 | Removing row 2 and column 1 of the 3-by-4 matrix 1..12 leaves `[[1,3,4],[5,7,8]]`. |
| TestCases.TraceExample | Chavp.Math.Tests/Chavp.Math.Tests/MatrixTest.cs:97-113 | The test matrix and its transpose both have trace -2. |
| TestCases.DeterminantOfOrder2 | Chavp.Math.Tests/Chavp.Math.Tests/MatrixTest.cs:116-128 | `[[-1,3],[2,-1]]` has determinant -5. |
| TestCases.DeterminantOfOrder3 | Chavp.Math.Tests/Chavp.Math.Tests/MatrixTest.cs:131-144 | `[[-2,2,-3],[-1,1,3],[2,0,-1]]` has determinant 18. |
| TestCases.AdjugateExample | Chavp.Math.Tests/Chavp.Math.Tests/MatrixTest.cs:164-177 | The adjugate of `[[-3,2,-5],[-1,0,-2],[3,-4,1]]` is `[[-8,18,-4],[-5,12,-1],[4,-6,2]]`. |
| TestCases.InvertExample | Chavp.Math.Tests/Chavp.Math.Tests/MatrixTest.cs:180-195 | That matrix has determinant -6, and its product with its inverse is the identity. |
| TestCases.SumExample | Chavp.Math.Tests/Chavp.Math.Tests/MatrixTest.cs:198-220 | The column sums of `[[1,4,3],[2,5,2],[1,6,4]]` are `[4,15,9]`. |
| TestCases.SumOfNonSquare | Chavp.Math.Tests/Chavp.Math.Tests/Models/Matrix.cs:217-222 | For `[[1,2,3],[4,5,6]]`, the column of 3 ones `Sum` builds does not conform with the transpose, and a column of 2 ones does. The column sums are `[5,7,9]`. |
| TestCases.CrossOfUnitVectors | Chavp.Math.Tests/Chavp.Math.Tests/Models/Vector.cs:141-156 | The unit vectors along x and y have the unit vector along z as cross product. |

## Left out

- Floating point: scalars are exact reals. Rounding, overflow, infinities and NaN are not modelled.
- `Magnitude`, `^`, `Unit`, `Radians` and `Shadow` are left out. They rest on square roots and trigonometry in floating point.
- `ToString`, `Equals(object)` and `GetHashCode` are left out. They are formatting and hashing plumbing.
- Nullable components: a null component reads as 0 through the indexer, and every reader in the model takes it so. `Init` without a default is `Init` with 0.
- A default `Vector` (a struct value with no list) is modelled as the empty vector throughout. `Dim` agrees with that, since it reports 0 there. The library throws NullReferenceException or ArgumentNullException in these cases, and the model does not:
  - `Dot` with a default argument (modelled by `Vectors.Dot`);
  - `Sum` (`Vectors.Total`);
  - `Add` (`Vectors.Vector.Append`);
  - `RemoveAt` (`Vectors.Vector.RemoveAt`);
  - `Absolute` (`Vectors.Vector.Absolute`);
  - `Values`, and so `Matrix.Clone` of a matrix with such a row (`Matrices.Matrix.Clone`).
- Exception types and messages are collapsed into the `Error` values above.
- `Size` is not a member of its own. It is the row count and the first row's length, and fails with EmptyMatrix on a matrix without rows.
- Matrices.InitRows: `Init(rows, vector)` puts the same row object in every row. The model returns the rows as values, so that sharing is not modelled. `SetEntry` models sharing between row objects in general.
- Vectors.Divide: requires nonzero divisors, because a zero divisor gives an IEEE infinity or NaN in the library.
- Matrices.Matrix.Invert: at determinant 0 the library divides by zero and returns infinities and NaN. The model reports that case as the Singular error instead.
- Matrices.Matrix.Invert: its product with the matrix is proved to be the identity only for order 3 (`InverseProduct3`). For general order, only entry (0, 0) of `A * Adjugate(A)` is proved (`ProductWithAdjugateFirstEntry`). Laplace expansion along rows other than row 0 is not developed.
- Vectors.Vector.Set: requires an index in range; for an index out of range the list throws ArgumentOutOfRangeException, which is not modelled.
- Vectors.Vector.RemoveAt: requires an index in range; for an index out of range `List.RemoveAt` throws ArgumentOutOfRangeException, which is not modelled.
- Matrices.Matrix.SetRow: requires a row index in range; for one out of range the row list throws ArgumentOutOfRangeException, which is not modelled.
- Matrices.Matrix.SetEntry: requires row and column indices in range; for one out of range a list throws ArgumentOutOfRangeException, which is not modelled.
- Matrices.Matrix.Submatrix: requires a row i and a column j in range; for one out of range the removal throws ArgumentOutOfRangeException, which is not modelled.
- Matrices.Multiply: requires both operands rectangular. On a ragged row list the library reads as many entries per row as the first row holds: a shorter row throws an index exception, and later rows longer than the first can yield a value rather than an exception. Neither case is modelled.
- Matrices.Transpose: requires a rectangular operand, for the same reason as `Multiply`.
- Matrices.Sum: requires a rectangular operand; it goes through `Transpose` and `Multiply`, so a ragged list behaves as described for `Multiply`.
- Matrices.SumOfColumns: requires a rectangular operand, as `Sum` does.
- Matrices.Mean: requires a rectangular operand, as `Sum` does.
- Matrices.MeanOfColumns: requires a rectangular operand, as `Sum` does.
- Matrices.Trace: requires a rectangular operand once the square check (row count equals first row length) passes. The library reads only the diagonal entries: later rows longer than the first yield a value rather than an exception, and row i throws only when it has at most i entries. Neither case is modelled.
- Matrices.Matrix.Determinant: requires a rectangular operand once the square check passes. On a ragged list whose later rows are longer than the first, the expansion can yield a value rather than an exception; a shorter row throws. Neither is modelled.
- Matrices.Matrix.Expand: requires a square matrix of order at least 2, which `Determinant` establishes before calling it; the ragged cases are those of `Determinant`.
- Matrices.Matrix.ExpandColumn: requires a square matrix, as `Expand` does.
- Matrices.Matrix.SubmatrixDeterminant: requires a square matrix, as `Expand` does.
- Matrices.Matrix.Cofactor: requires a rectangular operand once the square check passes; the ragged cases are those of `Determinant`.
- Matrices.Matrix.Adjugate: requires a rectangular operand once the square check passes, as `Cofactor` does.
- Matrices.Matrix.Invert: requires a rectangular operand once the square check passes, as `Cofactor` does.
- `Vector.Cross` builds its matrix with `new Matrix(v1, v2, v3)`. `Matrix.cs` has no such constructor: it is modelled as `Matrices.Matrix.FromRows`.
- The loops of the matrix operators are modelled on row sequences. Each row is a fresh `Vector`, so no aliasing is lost, except in `Init(rows, vector)` as noted above.
- The `determinant_4` unit test only prints its result, and is not stated.

## Findings

| source | as written | input that shows it | evidently intended | confidence | as-written member | corrected member |
|---|---|---|---|---|---|---|
| Chavp.Math.Tests/Chavp.Math.Tests/Models/Matrix.cs:217-222 | `Sum` builds its column of ones with `Size.Item2` entries, one per column. `~this` has one column per row, so the product's dimension check throws for every non-square matrix. `Mean` calls `Sum` and inherits this. | `[[1,2,3],[4,5,6]]`: the ones column has 3 entries, but the transposed matrix has 2 columns. | The column of ones has one entry per row (`Size.Item1`), giving the column sums `[5,7,9]` for every shape; `Mean` built on it gives the column means for every shape. | medium; not executed | Matrices.Sum, Matrices.Mean, TestCases.SumOfNonSquare | Matrices.SumOfColumns, Matrices.MeanOfColumns |
