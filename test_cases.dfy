/**
 * The worked examples of the library's unit tests, stated on the
 * specification functions: the values the tests assert, and for the tests
 * that only print a result, the value that result has.
 */
module TestCases {
  import V = Vectors
  import opened MatrixSpec

  /** `determinant`: the 2-by-2 matrix [[-1, 3], [2, -1]] has determinant -5. */
  lemma DeterminantOfOrder2()
    ensures IsSquare([[-1.0, 3.0], [2.0, -1.0]])
    ensures Det([[-1.0, 3.0], [2.0, -1.0]]) == -5.0
  {
    Det2Of(-1.0, 3.0, 2.0, -1.0);
  }

  /** `determinant_3`: [[-2, 2, -3], [-1, 1, 3], [2, 0, -1]] has determinant 18. */
  lemma DeterminantOfOrder3()
    ensures IsSquare([[-2.0, 2.0, -3.0], [-1.0, 1.0, 3.0], [2.0, 0.0, -1.0]])
    ensures Det([[-2.0, 2.0, -3.0], [-1.0, 1.0, 3.0], [2.0, 0.0, -1.0]]) == 18.0
  {
    DetOfRows([-2.0, 2.0, -3.0], [-1.0, 1.0, 3.0], [2.0, 0.0, -1.0]);
  }

  /** `trace`: the trace is -2, and the transpose has the same trace. */
  lemma TraceExample()
    ensures IsSquare([[-1.0, 0.0, 3.0], [11.0, 5.0, 2.0], [6.0, 12.0, -6.0]])
    ensures TraceOf([[-1.0, 0.0, 3.0], [11.0, 5.0, 2.0], [6.0, 12.0, -6.0]]) == -2.0
    ensures TraceOf(Transposed([[-1.0, 0.0, 3.0], [11.0, 5.0, 2.0], [6.0, 12.0, -6.0]])) == -2.0
  {
    var a := [[-1.0, 0.0, 3.0], [11.0, 5.0, 2.0], [6.0, 12.0, -6.0]];
    assert DiagonalSum(a, 1) == -1.0;
    assert DiagonalSum(a, 2) == 4.0;
    TraceTranspose(a);
  }

  /** `multiplication`: [[2, 3, 4], [1, 0, 0]] * [[0, 1000], [1, 100], [0, 10]] == [[3, 2340], [0, 1000]]. */
  lemma ProductExample()
    ensures Conformable([[2.0, 3.0, 4.0], [1.0, 0.0, 0.0]], [[0.0, 1000.0], [1.0, 100.0], [0.0, 10.0]])
    ensures Product([[2.0, 3.0, 4.0], [1.0, 0.0, 0.0]], [[0.0, 1000.0], [1.0, 100.0], [0.0, 10.0]])
      == [[3.0, 2340.0], [0.0, 1000.0]]
  {
    var a := [[2.0, 3.0, 4.0], [1.0, 0.0, 0.0]];
    var b := [[0.0, 1000.0], [1.0, 100.0], [0.0, 10.0]];
    var p := Product(a, b);
    assert Column(b, 0) == [0.0, 1.0, 0.0];
    assert Column(b, 1) == [1000.0, 100.0, 10.0];
    V.DotUpTo3(a[0], 0.0, 1.0, 0.0);
    V.DotUpTo3(a[0], 1000.0, 100.0, 10.0);
    V.DotUpTo3(a[1], 0.0, 1.0, 0.0);
    V.DotUpTo3(a[1], 1000.0, 100.0, 10.0);
    assert p[0] == [3.0, 2340.0];
    assert p[1] == [0.0, 1000.0];
  }

  /** `submatrix`: removing row 2 and column 1 of the 3-by-4 matrix 1..12. */
  lemma SubmatrixExample()
    ensures ColumnInRange([[1.0, 2.0, 3.0, 4.0], [5.0, 6.0, 7.0, 8.0], [9.0, 10.0, 11.0, 12.0]], 2, 1)
    ensures Minor([[1.0, 2.0, 3.0, 4.0], [5.0, 6.0, 7.0, 8.0], [9.0, 10.0, 11.0, 12.0]], 2, 1)
      == [[1.0, 3.0, 4.0], [5.0, 7.0, 8.0]]
  {
    var a := [[1.0, 2.0, 3.0, 4.0], [5.0, 6.0, 7.0, 8.0], [9.0, 10.0, 11.0, 12.0]];
    var r := Minor(a, 2, 1);
    assert r[0] == [1.0, 3.0, 4.0];
    assert r[1] == [5.0, 7.0, 8.0];
  }

  /** `adjugate`: the adjugate of [[-3, 2, -5], [-1, 0, -2], [3, -4, 1]]. */
  lemma AdjugateExample()
    ensures IsSquare([[-3.0, 2.0, -5.0], [-1.0, 0.0, -2.0], [3.0, -4.0, 1.0]])
    ensures AdjugateOf([[-3.0, 2.0, -5.0], [-1.0, 0.0, -2.0], [3.0, -4.0, 1.0]])
      == [[-8.0, 18.0, -4.0], [-5.0, 12.0, -1.0], [4.0, -6.0, 2.0]]
  {
    var e, a, b := [-3.0, 2.0, -5.0], [-1.0, 0.0, -2.0], [3.0, -4.0, 1.0];
    CofactorRow0(e, a, b);
    CofactorRow1(e, a, b);
    CofactorRow2(e, a, b);
    var co := CofactorMatrix([e, a, b]);
    assert co == [[-8.0, -5.0, 4.0], [18.0, 12.0, -6.0], [-4.0, -1.0, 2.0]];
    var adj := AdjugateOf([e, a, b]);
    assert adj[0] == [-8.0, 18.0, -4.0];
    assert adj[1] == [-5.0, 12.0, -1.0];
    assert adj[2] == [4.0, -6.0, 2.0];
  }

  /** `invert`: the matrix has determinant -6, so `A * A.Invert()` is the identity. */
  lemma InvertExample()
    ensures IsSquare([[-3.0, 2.0, -5.0], [-1.0, 0.0, -2.0], [3.0, -4.0, 1.0]])
    ensures Det([[-3.0, 2.0, -5.0], [-1.0, 0.0, -2.0], [3.0, -4.0, 1.0]]) == -6.0
    ensures Product([[-3.0, 2.0, -5.0], [-1.0, 0.0, -2.0], [3.0, -4.0, 1.0]],
      InverseOf([[-3.0, 2.0, -5.0], [-1.0, 0.0, -2.0], [3.0, -4.0, 1.0]])) == Identity(3)
  {
    DetOfRows([-3.0, 2.0, -5.0], [-1.0, 0.0, -2.0], [3.0, -4.0, 1.0]);
    InverseProduct3([[-3.0, 2.0, -5.0], [-1.0, 0.0, -2.0], [3.0, -4.0, 1.0]]);
  }

  /** `sum`: the column sums of [[1, 4, 3], [2, 5, 2], [1, 6, 4]] are 4, 15 and 9. */
  lemma SumExample()
    ensures IsMatrix([[1.0, 4.0, 3.0], [2.0, 5.0, 2.0], [1.0, 6.0, 4.0]])
    ensures ColumnSums([[1.0, 4.0, 3.0], [2.0, 5.0, 2.0], [1.0, 6.0, 4.0]]) == [4.0, 15.0, 9.0]
  {
    var a := [[1.0, 4.0, 3.0], [2.0, 5.0, 2.0], [1.0, 6.0, 4.0]];
    assert Column(a, 0) == [1.0, 2.0, 1.0];
    assert Column(a, 1) == [4.0, 5.0, 6.0];
    assert Column(a, 2) == [3.0, 2.0, 4.0];
    assert V.Total([1.0, 2.0]) == 3.0;
    assert V.Total([4.0, 5.0]) == 9.0;
    assert V.Total([3.0, 2.0]) == 5.0;
    assert [1.0, 2.0, 1.0][..2] == [1.0, 2.0];
    assert [4.0, 5.0, 6.0][..2] == [4.0, 5.0];
    assert [3.0, 2.0, 4.0][..2] == [3.0, 2.0];
  }

  /**
   * `Sum` on the 2-by-3 matrix [[1, 2, 3], [4, 5, 6]]: the library's column
   * of ones has 3 entries, one per column, but the transposed matrix has only
   * 2 columns, so the product's guard throws. A column of 2 ones, one per
   * row, gives the column sums 5, 7, 9.
   */
  lemma SumOfNonSquare()
    ensures !Conformable(Transposed([[1.0, 2.0, 3.0], [4.0, 5.0, 6.0]]), Filled(3, 1, 1.0))
    ensures Conformable(Transposed([[1.0, 2.0, 3.0], [4.0, 5.0, 6.0]]), Filled(2, 1, 1.0))
    ensures ColumnSums([[1.0, 2.0, 3.0], [4.0, 5.0, 6.0]]) == [5.0, 7.0, 9.0]
  {
    var a := [[1.0, 2.0, 3.0], [4.0, 5.0, 6.0]];
    assert Column(a, 0) == [1.0, 4.0];
    assert Column(a, 1) == [2.0, 5.0];
    assert Column(a, 2) == [3.0, 6.0];
    assert [1.0, 4.0][..1] == [1.0];
    assert [2.0, 5.0][..1] == [2.0];
    assert [3.0, 6.0][..1] == [3.0];
    assert V.Total([1.0]) == 1.0 && V.Total([2.0]) == 2.0 && V.Total([3.0]) == 3.0;
    assert |Transposed(a)[0]| == 2;
  }

  /** The unit vectors along x and y have the unit vector along z as cross product. */
  lemma CrossOfUnitVectors()
    ensures V.CrossOf([1.0, 0.0, 0.0], [0.0, 1.0, 0.0]) == [0.0, 0.0, 1.0]
  {
  }
}
