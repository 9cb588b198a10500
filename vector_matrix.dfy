/**
 * The members of `Vector` that build a `Matrix`: the 3-D cross product,
 * computed through the determinants of the 2-by-2 minors of a 3-by-3
 * matrix, and the diagonal and anti-diagonal builders. They sit in a
 * module of their own because `Matrix` is itself made of vectors.
 */
module VectorMatrix {
  import opened Outcomes
  import V = Vectors
  import opened MatrixSpec
  import opened Matrices

  // ---------------------------------------------------------------------
  // Cross product
  // ---------------------------------------------------------------------

  /** The rows of the matrix `Cross` builds: a row of ones above the two operands. */
  lemma RowsOfThree(m: Matrix, one: V.Vector, a: V.Vector, c: V.Vector)
    requires m.elements == [one, a, c]
    ensures m.Rows() == [one.x, a.x, c.x]
  {
  }

  /**
   * `v.Cross(c)`: throws unless `c` has 3 components. Otherwise the
   * determinants of the three minors of `[[1, 1, 1], v, c]` along the first
   * row, the middle one negated. The first minor is the 2-row matrix of `v`
   * and `c` without their first component: when `v` is empty removing that
   * component throws, and when `v` has any other length than 3 the minor is
   * not square and its determinant throws.
   */
  method Cross(v: V.Vector, c: V.Vector) returns (r: Result<seq<real>>)
    ensures |c.x| != 3 ==> r == Failure(NotThreeD)
    ensures |c.x| == 3 && |v.x| == 0 ==> r == Failure(IndexOutOfRange)
    ensures |c.x| == 3 && 0 < |v.x| != 3 ==> r == Failure(NotSquare)
    ensures |c.x| == 3 && |v.x| == 3 ==> r == Success(V.CrossOf(v.x, c.x))
  {
    if |c.x| != 3 {
      return Failure(NotThreeD);
    }
    var one := new V.Vector([1.0, 1.0, 1.0]);
    var m1 := new Matrix.FromRows([one, v, c]);
    RowsOfThree(m1, one, v, c);
    ghost var m := m1.Rows();
    if |v.x| == 0 {
      return Failure(IndexOutOfRange);
    }
    var x1 :- TopMinorDeterminant(m1, 0);
    // The first minor is square, so `v` has 3 components and the other two minors are square too.
    var d2 := TopMinorDeterminant(m1, 1);
    var d3 := TopMinorDeterminant(m1, 2);
    var x2, x3 := d2.value, d3.value;
    MinorsAlongFirstRow(m);
    r := Success([x1, (-1.0) * x2, x3]);
  }

  /**
   * `m1.Submatrix(0, j).Determinant()` on the matrix `Cross` builds, whose
   * first and last rows have 3 entries: the minor is square exactly when
   * the middle row has 3 entries too.
   */
  method TopMinorDeterminant(m1: Matrix, j: nat) returns (d: Result<real>)
    requires |m1.elements| == 3 && |m1.elements[0].x| == 3 && |m1.elements[2].x| == 3
    requires j < 3 && j < |m1.elements[1].x|
    ensures |m1.elements[1].x| != 3 ==> d == Failure(NotSquare)
    ensures |m1.elements[1].x| == 3 ==>
      IsSquare(m1.Rows()) && ColumnInRange(m1.Rows(), 0, j) && d == Success(Det(Minor(m1.Rows(), 0, j)))
  {
    ghost var m := m1.Rows();
    assert m == [m1.elements[0].x, m1.elements[1].x, m1.elements[2].x];
    var sub := m1.Submatrix(0, j);
    assert |sub.Rows()| == 2 && |sub.Rows()[0]| == |m[1]| - 1 && |sub.Rows()[1]| == 2;
    d := sub.Determinant();
  }

  /**
   * The determinants of the three minors along row 0 of a 3-by-3 matrix
   * are the components of the cross product of rows 1 and 2, the middle
   * one negated.
   */
  lemma MinorsAlongFirstRow(m: seq<seq<real>>)
    requires |m| == 3 && IsSquare(m)
    ensures ColumnInRange(m, 0, 0) && IsSquare(Minor(m, 0, 0))
    ensures ColumnInRange(m, 0, 1) && IsSquare(Minor(m, 0, 1))
    ensures ColumnInRange(m, 0, 2) && IsSquare(Minor(m, 0, 2))
    ensures [Det(Minor(m, 0, 0)), -Det(Minor(m, 0, 1)), Det(Minor(m, 0, 2))] == V.CrossOf(m[1], m[2])
  {
    MinorOfSquare(m, 0, 0);
    MinorOfSquare(m, 0, 1);
    MinorOfSquare(m, 0, 2);
    TopRowMinor(m, 0, 1, 2);
    TopRowMinor(m, 1, 0, 2);
    TopRowMinor(m, 2, 0, 1);
    var r := V.CrossOf(m[1], m[2]);
    assert r[0] == m[1][1] * m[2][2] - m[1][2] * m[2][1];
    assert r[1] == m[1][2] * m[2][0] - m[1][0] * m[2][2];
    assert r[2] == m[1][0] * m[2][1] - m[1][1] * m[2][0];
    assert Det(Minor(m, 0, 0)) == r[0];
    assert -Det(Minor(m, 0, 1)) == r[1];
    assert Det(Minor(m, 0, 2)) == r[2];
  }

  /** The minor without row 0 and column `j` of a 3-by-3 matrix, `p` and `q` being the other columns. */
  lemma TopRowMinor(m: seq<seq<real>>, j: nat, p: nat, q: nat)
    requires |m| == 3 && IsSquare(m) && j < 3
    requires p == Skip(0, j) && q == Skip(1, j)
    ensures ColumnInRange(m, 0, j) && IsSquare(Minor(m, 0, j))
    ensures Det(Minor(m, 0, j)) == m[1][p] * m[2][q] - m[1][q] * m[2][p]
  {
    MinorOfSquare(m, 0, j);
    var r := Minor(m, 0, j);
    Det2(r);
    assert r[0][0] == m[1][p] && r[0][1] == m[1][q];
    assert r[1][0] == m[2][p] && r[1][1] == m[2][q];
  }

  /** The cross product is perpendicular to its left operand. */
  lemma CrossOrthogonalLeft(a: seq<real>, b: seq<real>)
    requires |a| == 3 && |b| == 3
    ensures V.DotUpTo(a, V.CrossOf(a, b), 3) == 0.0
  {
    CrossIsExpansion(a, a, b);
    DetOfRows(a, a, b);
  }

  /** The cross product is perpendicular to its right operand. */
  lemma CrossOrthogonalRight(a: seq<real>, b: seq<real>)
    requires |a| == 3 && |b| == 3
    ensures V.DotUpTo(b, V.CrossOf(a, b), 3) == 0.0
  {
    CrossIsExpansion(b, a, b);
    DetOfRows(b, a, b);
  }

  /** Swapping the operands negates the cross product. */
  lemma CrossAnticommutes(a: seq<real>, b: seq<real>)
    requires |a| == 3 && |b| == 3
    ensures V.CrossOf(b, a) == V.Scaled(V.CrossOf(a, b), -1.0)
  {
  }

  // ---------------------------------------------------------------------
  // Diagonal builders
  // ---------------------------------------------------------------------

  /** The square matrix with `v` on the main diagonal and 0 elsewhere. */
  function DiagonalOf(v: seq<real>): (m: seq<seq<real>>)
    ensures |m| == |v| && IsRect(m, |v|)
  {
    seq(|v|, i requires 0 <= i < |v| => seq(|v|, j requires 0 <= j < |v| => if i == j then v[i] else 0.0))
  }

  /** The square matrix with `v` on the anti-diagonal, top right to bottom left, and 0 elsewhere. */
  function AntiDiagonalOf(v: seq<real>): (m: seq<seq<real>>)
    ensures |m| == |v| && IsRect(m, |v|)
  {
    seq(|v|, i requires 0 <= i < |v| =>
      seq(|v|, j requires 0 <= j < |v| => if j == |v| - 1 - i then v[i] else 0.0))
  }

  /** `v.Diag()`: a zero n-by-n matrix, then entry (i, i) set to component i. */
  method Diag(v: seq<real>) returns (result: seq<seq<real>>)
    ensures |result| == |v| && IsRect(result, |v|)
    ensures forall i, j :: 0 <= i < |v| && 0 <= j < |v| ==> result[i][j] == if i == j then v[i] else 0.0
    ensures result == DiagonalOf(v)
  {
    var n := |v|;
    result := Init(n, n, 0.0);
    for i := 0 to n
      invariant |result| == n && IsRect(result, n)
      invariant forall p, q :: 0 <= p < n && 0 <= q < n ==>
        result[p][q] == if p == q && p < i then v[p] else 0.0
    {
      result := result[i := result[i][i := v[i]]];
    }
    assert forall p :: 0 <= p < n ==> result[p] == DiagonalOf(v)[p];
  }

  /** `v.Revdiag()`: a zero n-by-n matrix, then entry (i, n - 1 - i) set to component i. */
  method Revdiag(v: seq<real>) returns (result: seq<seq<real>>)
    ensures |result| == |v| && IsRect(result, |v|)
    ensures forall i, j :: 0 <= i < |v| && 0 <= j < |v| ==>
      result[i][j] == if j == |v| - 1 - i then v[i] else 0.0
    ensures result == AntiDiagonalOf(v)
  {
    var n := |v|;
    result := Init(n, n, 0.0);
    for i := 0 to n
      invariant |result| == n && IsRect(result, n)
      invariant forall p, q :: 0 <= p < n && 0 <= q < n ==>
        result[p][q] == if q == n - 1 - p && p < i then v[p] else 0.0
    {
      result := result[i := result[i][n - 1 - i := v[i]]];
    }
    assert forall p :: 0 <= p < n ==> result[p] == AntiDiagonalOf(v)[p];
  }

  /** A diagonal matrix is its own transpose. */
  lemma DiagonalSymmetric(v: seq<real>)
    requires |v| > 0
    ensures Transposed(DiagonalOf(v)) == DiagonalOf(v)
  {
    var d := DiagonalOf(v);
    var t := Transposed(d);
    forall i | 0 <= i < |v| ensures t[i] == d[i] {
      forall j | 0 <= j < |v| ensures t[i][j] == d[i][j] {
        assert t[i][j] == d[j][i];
      }
    }
  }

  /** The trace of `Diag(v)` is the sum of the components of `v`. */
  lemma {:induction false} DiagonalSumOfDiagonal(v: seq<real>, n: nat)
    requires n <= |v|
    ensures DiagonalSum(DiagonalOf(v), n) == V.Total(v[..n])
  {
    if n > 0 {
      DiagonalSumOfDiagonal(v, n - 1);
      assert v[..n][..n - 1] == v[..n - 1];
    }
  }

  lemma TraceOfDiagonal(v: seq<real>)
    requires |v| > 0
    ensures IsSquare(DiagonalOf(v)) && TraceOf(DiagonalOf(v)) == V.Total(v)
  {
    DiagonalSumOfDiagonal(v, |v|);
    assert v[..|v|] == v;
  }

  /** The transpose of `Revdiag(v)` is `Revdiag` of `v` reversed. */
  lemma AntiDiagonalTranspose(v: seq<real>)
    requires |v| > 0
    ensures Transposed(AntiDiagonalOf(v)) == AntiDiagonalOf(seq(|v|, k requires 0 <= k < |v| => v[|v| - 1 - k]))
  {
    var n := |v|;
    var w := seq(n, k requires 0 <= k < n => v[n - 1 - k]);
    var a := AntiDiagonalOf(v);
    var t := Transposed(a);
    var b := AntiDiagonalOf(w);
    forall i | 0 <= i < n ensures t[i] == b[i] {
      forall j | 0 <= j < n ensures t[i][j] == b[i][j] {
        assert t[i][j] == a[j][i];
      }
    }
  }
}
