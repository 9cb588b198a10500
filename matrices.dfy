/**
 * The `Matrix` class of the library.
 *
 * The static operators, `Init`, `Trace`, `Sum` and `Mean` only read their
 * operands and build a fresh list of rows, so they take and return the rows
 * as values (`seq<seq<real>>`). `Clone`, `Submatrix` and the determinant
 * family work on the matrix object itself: a `Matrix` holds a list of row
 * `Vector` objects, and `Submatrix` mutates the rows of a deep copy.
 */
module Matrices {
  import opened Outcomes
  import V = Vectors
  import opened MatrixSpec

  // ---------------------------------------------------------------------
  // Builders
  // ---------------------------------------------------------------------

  /**
   * `Init(rows, cols, defaultVal)`: `rows` fresh rows of `cols` entries.
   * Without a default the entries are null, which every reader takes as 0.
   */
  method Init(rows: nat, cols: nat, defaultVal: real) returns (m: seq<seq<real>>)
    ensures |m| == rows && IsRect(m, cols)
    ensures forall i, j :: 0 <= i < rows && 0 <= j < cols ==> m[i][j] == defaultVal
    ensures m == Filled(rows, cols, defaultVal)
  {
    m := [];
    for i := 0 to rows
      invariant m == Filled(i, cols, defaultVal)
    {
      var list := seq(cols, _ => 0.0);
      for j := 0 to cols
        invariant |list| == cols
        invariant forall k :: 0 <= k < j ==> list[k] == defaultVal
      {
        list := list[j := defaultVal];
      }
      assert list == seq(cols, _ => defaultVal);
      m := m + [list];
    }
  }

  /** `OneMatrix(rows, columns)`: every entry 1. */
  method OneMatrix(rows: nat, columns: nat) returns (m: seq<seq<real>>)
    ensures |m| == rows && IsRect(m, columns)
    ensures forall i, j :: 0 <= i < rows && 0 <= j < columns ==> m[i][j] == 1.0
    ensures m == Filled(rows, columns, 1.0)
  {
    m := Init(rows, columns, 1.0);
  }

  /** `Init(rows, vector)`: `rows` rows, each the given vector. */
  method InitRows(rows: nat, vector: seq<real>) returns (m: seq<seq<real>>)
    ensures |m| == rows && forall i :: 0 <= i < rows ==> m[i] == vector
    ensures m == Broadcast(rows, vector)
  {
    m := [];
    for i := 0 to rows
      invariant m == Broadcast(i, vector)
    {
      m := m + [vector];
    }
  }

  // ---------------------------------------------------------------------
  // Entrywise arithmetic: row by row through the vector operators
  // ---------------------------------------------------------------------

  /**
   * `c1 + c2`: row by row over c1's rows. Reading a row of c2, or an entry
   * of one, past its end throws, so c2 must have at least c1's shape.
   */
  method Add(c1: seq<seq<real>>, c2: seq<seq<real>>) returns (result: Result<seq<seq<real>>>)
    ensures !Covers(c2, c1) ==> result == Failure(IndexOutOfRange)
    ensures Covers(c2, c1) ==> result.Success? && |result.value| == |c1|
    ensures Covers(c2, c1) ==> forall j :: 0 <= j < |c1| ==> |result.value[j]| == |c1[j]|
    ensures Covers(c2, c1) ==>
      forall j, l :: 0 <= j < |c1| && 0 <= l < |c1[j]| ==> result.value[j][l] == c1[j][l] + c2[j][l]
    ensures Covers(c2, c1) ==> result == Success(Plus(c1, c2))
  {
    var m := [];
    for j := 0 to |c1|
      invariant j <= |c2| && forall k :: 0 <= k < j ==> |c1[k]| <= |c2[k]|
      invariant m == Plus(c1[..j], c2[..j])
    {
      if j == |c2| {
        return Failure(IndexOutOfRange);
      }
      var row :- V.Add(c1[j], c2[j]);
      m := m + [row];
    }
    assert c1[..|c1|] == c1;
    assert Covers(c2, c1);
    assert forall k :: 0 <= k < |c1| ==> m[k] == Plus(c1, c2)[k];
    assert m == Plus(c1, c2);
    return Success(m);
  }


  /**
   * `c1 - c2`: row by row over c1's rows. Reading a row of c2, or an entry
   * of one, past its end throws, so c2 must have at least c1's shape.
   */
  method Subtract(c1: seq<seq<real>>, c2: seq<seq<real>>) returns (result: Result<seq<seq<real>>>)
    ensures !Covers(c2, c1) ==> result == Failure(IndexOutOfRange)
    ensures Covers(c2, c1) ==> result.Success? && |result.value| == |c1|
    ensures Covers(c2, c1) ==> forall j :: 0 <= j < |c1| ==> |result.value[j]| == |c1[j]|
    ensures Covers(c2, c1) ==>
      forall j, l :: 0 <= j < |c1| && 0 <= l < |c1[j]| ==> result.value[j][l] == c1[j][l] - c2[j][l]
    ensures Covers(c2, c1) ==> result == Success(Minus(c1, c2))
  {
    var m := [];
    for j := 0 to |c1|
      invariant j <= |c2| && forall k :: 0 <= k < j ==> |c1[k]| <= |c2[k]|
      invariant m == Minus(c1[..j], c2[..j])
    {
      if j == |c2| {
        return Failure(IndexOutOfRange);
      }
      var row :- V.Subtract(c1[j], c2[j]);
      m := m + [row];
    }
    assert c1[..|c1|] == c1;
    assert Covers(c2, c1);
    assert forall k :: 0 <= k < |c1| ==> m[k] == Minus(c1, c2)[k];
    assert m == Minus(c1, c2);
    return Success(m);
  }


  /** `c1 * c`: every row scaled by `c` (through the vector's `c * row`). */
  method Scale(c1: seq<seq<real>>, c: real) returns (m: seq<seq<real>>)
    ensures |m| == |c1| && forall j :: 0 <= j < |c1| ==> |m[j]| == |c1[j]|
    ensures forall j, l :: 0 <= j < |c1| && 0 <= l < |c1[j]| ==> m[j][l] == c1[j][l] * c
    ensures m == Scaled(c1, c)
  {
    m := [];
    for j := 0 to |c1|
      invariant m == Scaled(c1[..j], c)
    {
      var row := V.ScaleLeft(c, c1[j]);
      assert row == V.Scaled(c1[j], c);
      m := m + [row];
    }
    assert c1[..|c1|] == c1;
  }

  /** `c * c1`, defined as `c1 * c`: scaling a matrix commutes. */
  method ScaleLeft(c: real, c1: seq<seq<real>>) returns (m: seq<seq<real>>)
    ensures |m| == |c1| && forall j :: 0 <= j < |c1| ==> |m[j]| == |c1[j]|
    ensures forall j, l :: 0 <= j < |c1| && 0 <= l < |c1[j]| ==> m[j][l] == c * c1[j][l]
    ensures m == Scaled(c1, c)
  {
    m := Scale(c1, c);
    forall j, l | 0 <= j < |c1| && 0 <= l < |c1[j]| ensures m[j][l] == c * c1[j][l] {
      assert m[j][l] == c1[j][l] * c;
    }
  }

  // ---------------------------------------------------------------------
  // Product and transpose
  // ---------------------------------------------------------------------

  /**
   * `c1 * c2`: throws unless c1's column count equals c2's row count;
   * otherwise entry (r, i) is the sum over j of c1[r, j] * c2[j, i].
   */
  method Multiply(c1: seq<seq<real>>, c2: seq<seq<real>>) returns (result: Result<seq<seq<real>>>)
    requires IsMatrix(c1) && IsMatrix(c2)
    ensures (|c1| == 0 || |c2| == 0) ==> result == Failure(EmptyMatrix)
    ensures |c1| > 0 && |c2| > 0 && Cols(c1) != |c2| ==> result == Failure(ShapeMismatch)
    ensures Conformable(c1, c2) ==> result == Success(Product(c1, c2))
  {
    if |c1| == 0 || |c2| == 0 {
      return Failure(EmptyMatrix);
    }
    if Cols(c1) != |c2| {
      return Failure(ShapeMismatch);
    }
    var rows, cols, inner := |c1|, Cols(c2), |c2|;
    ghost var p := Product(c1, c2);
    var m := Init(rows, cols, 0.0);
    for r := 0 to rows
      invariant |m| == rows && IsRect(m, cols)
      invariant forall r', i' :: 0 <= r' < r && 0 <= i' < cols ==> m[r'][i'] == p[r'][i']
    {
      for i := 0 to cols
        invariant |m| == rows && IsRect(m, cols)
        invariant forall r', i' :: 0 <= r' < r && 0 <= i' < cols ==> m[r'][i'] == p[r'][i']
        invariant forall i' :: 0 <= i' < i ==> m[r][i'] == p[r][i']
      {
        var sum := 0.0;
        for j := 0 to inner
          invariant sum == V.DotUpTo(c1[r], Column(c2, i), j)
        {
          sum := sum + c1[r][j] * c2[j][i];
        }
        m := m[r := m[r][i := sum]];
      }
    }
    assert forall r :: 0 <= r < rows ==> m[r] == p[r];
    assert m == p;
    return Success(m);
  }

  /** `~c1`: entry (j, i) of the result is entry (i, j) of c1. */
  method Transpose(c1: seq<seq<real>>) returns (result: Result<seq<seq<real>>>)
    requires IsMatrix(c1)
    ensures |c1| == 0 ==> result == Failure(EmptyMatrix)
    ensures |c1| > 0 ==> result.Success? && |result.value| == Cols(c1) && IsRect(result.value, |c1|)
    ensures |c1| > 0 ==> forall i, j :: 0 <= i < |c1| && 0 <= j < Cols(c1) ==> result.value[j][i] == c1[i][j]
    ensures |c1| > 0 ==> result == Success(Transposed(c1))
  {
    if |c1| == 0 {
      return Failure(EmptyMatrix);
    }
    var rows, cols := |c1|, Cols(c1);
    var t := Init(cols, rows, 0.0);
    for i := 0 to rows
      invariant |t| == cols && IsRect(t, rows)
      invariant forall i', j' :: 0 <= i' < i && 0 <= j' < cols ==> t[j'][i'] == c1[i'][j']
    {
      for j := 0 to cols
        invariant |t| == cols && IsRect(t, rows)
        invariant forall i', j' :: 0 <= i' < i && 0 <= j' < cols ==> t[j'][i'] == c1[i'][j']
        invariant forall j' :: 0 <= j' < j ==> t[j'][i] == c1[i][j']
      {
        t := t[j := t[j][i := c1[i][j]]];
      }
    }
    assert forall j :: 0 <= j < cols ==> t[j] == Transposed(c1)[j];
    assert t == Transposed(c1);
    return Success(t);
  }

  // ---------------------------------------------------------------------
  // Trace, Sum, Mean
  // ---------------------------------------------------------------------

  /** `Trace`: throws on a matrix that is not square, else the diagonal sum. */
  method Trace(m: seq<seq<real>>) returns (result: Result<real>)
    requires PassesSquareCheck(m) ==> IsMatrix(m)
    ensures |m| == 0 ==> result == Failure(EmptyMatrix)
    ensures |m| > 0 && !IsSquare(m) ==> result == Failure(NotSquare)
    ensures IsSquare(m) ==> result == Success(TraceOf(m))
  {
    if |m| == 0 {
      return Failure(EmptyMatrix);
    }
    if |m| != |m[0]| {
      return Failure(NotSquare);
    }
    var trace := 0.0;
    for i := 0 to |m|
      invariant trace == DiagonalSum(m, i)
    {
      trace := trace + m[i][i];
    }
    return Success(trace);
  }

  /**
   * `Sum`: `~(~this * ONE)` with ONE a column of Cols ones. The product's
   * guard compares the row count of `this` with its column count, so only a
   * square matrix gets through; the result is the one row of column sums.
   */
  method Sum(m: seq<seq<real>>) returns (result: Result<seq<seq<real>>>)
    requires IsMatrix(m)
    ensures |m| == 0 || Cols(m) == 0 ==> result == Failure(EmptyMatrix)
    ensures |m| > 0 && Cols(m) > 0 && |m| != Cols(m) ==> result == Failure(ShapeMismatch)
    ensures IsSquare(m) ==> result == Success([ColumnSums(m)])
  {
    if |m| == 0 {
      return Failure(EmptyMatrix);
    }
    var one := OneMatrix(Cols(m), 1);
    var transposed := Transpose(m);
    var p :- Multiply(transposed.value, one);
    if IsSquare(m) {
      SumThroughOnes(m);
    }
    result := Transpose(p);
  }

  /**
   * `Sum` as evidently intended: the column of ones has one entry per row of
   * the matrix, so the product is defined for every shape and the result is
   * the row of column sums.
   */
  method SumOfColumns(m: seq<seq<real>>) returns (result: Result<seq<seq<real>>>)
    requires IsMatrix(m)
    ensures |m| == 0 || Cols(m) == 0 ==> result == Failure(EmptyMatrix)
    ensures |m| > 0 && Cols(m) > 0 ==> result == Success([ColumnSums(m)])
  {
    if |m| == 0 {
      return Failure(EmptyMatrix);
    }
    var one := OneMatrix(|m|, 1);
    var transposed := Transpose(m);
    var p :- Multiply(transposed.value, one);
    SumThroughOnes(m);
    result := Transpose(p);
  }

  /**
   * `Mean`: the column sums divided, through vector division, by the
   * column sums of a ones matrix of the same shape (the row count).
   */
  method Mean(m: seq<seq<real>>) returns (result: Result<seq<seq<real>>>)
    requires IsMatrix(m)
    ensures |m| == 0 || Cols(m) == 0 ==> result == Failure(EmptyMatrix)
    ensures |m| > 0 && Cols(m) > 0 && |m| != Cols(m) ==> result == Failure(ShapeMismatch)
    ensures IsSquare(m) ==> result == Success([ColumnMeans(m)])
  {
    var sum :- Sum(m);
    var one := OneMatrix(|m|, Cols(m));
    var ones := Sum(one);
    var n := ones.value;
    ColumnSumsOfOnes(|m|, |m|);
    assert n[0] == seq(|m|, _ => |m| as real);
    var quotient := V.Divide(sum[0], n[0]);
    var mean := sum[0 := quotient.value];
    assert mean[0] == ColumnMeans(m) by {
      forall c | 0 <= c < |m| ensures mean[0][c] == ColumnMeans(m)[c] {
        assert mean[0][c] == ColumnSums(m)[c] / (|m| as real);
      }
    }
    assert mean == [mean[0]];
    return Success(mean);
  }

  /**
   * `Mean` as evidently intended: built on the corrected `SumOfColumns`, so
   * both the column sums and the row counts they are divided by exist for
   * every shape.
   */
  method MeanOfColumns(m: seq<seq<real>>) returns (result: Result<seq<seq<real>>>)
    requires IsMatrix(m)
    ensures |m| == 0 || Cols(m) == 0 ==> result == Failure(EmptyMatrix)
    ensures |m| > 0 && Cols(m) > 0 ==> result == Success([ColumnMeans(m)])
  {
    var sum :- SumOfColumns(m);
    var one := OneMatrix(|m|, Cols(m));
    var ones := SumOfColumns(one);
    var n := ones.value;
    ColumnSumsOfOnes(|m|, Cols(m));
    assert n[0] == seq(Cols(m), _ => |m| as real);
    var quotient := V.Divide(sum[0], n[0]);
    var mean := sum[0 := quotient.value];
    assert mean[0] == ColumnMeans(m) by {
      forall c | 0 <= c < Cols(m) ensures mean[0][c] == ColumnMeans(m)[c] {
        assert mean[0][c] == ColumnSums(m)[c] / (|m| as real);
      }
    }
    assert mean == [mean[0]];
    return Success(mean);
  }

  // ---------------------------------------------------------------------
  // Matrix objects
  // ---------------------------------------------------------------------

  /** The rows' current components. */
  function RowsOf(vs: seq<V.Vector>): (rows: seq<seq<real>>)
    reads vs
    ensures |rows| == |vs|
  {
    seq(|vs|, k reads vs requires 0 <= k < |vs| => vs[k].x)
  }

  /** No row object occurs twice. */
  predicate Distinct(vs: seq<V.Vector>)
  {
    forall p, q :: 0 <= p < q < |vs| ==> vs[p] != vs[q]
  }

  /**
   * Removing the row object at `i`: position `q` of what is left holds the
   * object at `Skip(q, i)`, and a list without repeats keeps none.
   */
  lemma DistinctWithout(vs: seq<V.Vector>, i: nat, ws: seq<V.Vector>)
    requires Distinct(vs) && i < |vs| && ws == vs[..i] + vs[i + 1..]
    ensures |ws| == |vs| - 1
    ensures forall q :: 0 <= q < |ws| ==> ws[q] == vs[Skip(q, i)]
    ensures Distinct(ws)
  {
    forall p, q | 0 <= p < q < |ws| ensures ws[p] != ws[q] {
      assert ws[p] == vs[Skip(p, i)] && ws[q] == vs[Skip(q, i)];
    }
  }

  /**
   * The loop of `Submatrix` that removes entry `j` from each row, in place.
   * The rows are distinct objects, so each removal touches one row only.
   */
  method RemoveColumn(vs: seq<V.Vector>, j: nat, ghost rows: seq<seq<real>>)
    requires Distinct(vs) && |rows| == |vs|
    requires forall q :: 0 <= q < |vs| ==> vs[q].x == rows[q] && j < |rows[q]|
    modifies set q | 0 <= q < |vs| :: vs[q]
    ensures forall q :: 0 <= q < |vs| ==> vs[q].x == rows[q][..j] + rows[q][j + 1..]
  {
    for k := 0 to |vs|
      invariant forall q :: 0 <= q < k ==> vs[q].x == rows[q][..j] + rows[q][j + 1..]
      invariant forall q :: k <= q < |vs| ==> vs[q].x == rows[q]
    {
      vs[k].RemoveAt(j);
    }
  }

  /** Row objects whose lists are `rows`, position by position, read as `rows`. */
  lemma RowsOfLists(vs: seq<V.Vector>, rows: seq<seq<real>>)
    requires |vs| == |rows| && forall q :: 0 <= q < |vs| ==> vs[q].x == rows[q]
    ensures RowsOf(vs) == rows
  {
  }

  /** Row `q` of the minor is row `q` of the remaining rows with entry `j` removed. */
  lemma MinorIsRemovals(m: seq<seq<real>>, i: nat, j: nat, rows: seq<seq<real>>)
    requires i < |m| && ColumnInRange(m, i, j) && rows == m[..i] + m[i + 1..]
    ensures |rows| == |Minor(m, i, j)|
    ensures forall q :: 0 <= q < |rows| ==> j < |rows[q]| && Minor(m, i, j)[q] == rows[q][..j] + rows[q][j + 1..]
  {
    forall q | 0 <= q < |rows| ensures j < |rows[q]| {
      assert rows[q] == m[Skip(q, i)];
    }
  }

  /**
   * A matrix object: a list of row `Vector` objects. Rows may be shared
   * with other matrices or with each other (see `SetEntry`).
   */
  class Matrix {
    var elements: seq<V.Vector>

    constructor ()
      ensures elements == []
    {
      elements := [];
    }

    /** `new Matrix(rows...)`: the matrix over exactly these row objects. */
    constructor FromRows(rows: seq<V.Vector>)
      ensures elements == rows
    {
      elements := rows;
    }

    function Rows(): seq<seq<real>>
      reads this, elements
    {
      RowsOf(elements)
    }

    /** The setter `this[i] = v`: row i becomes the object v. */
    method SetRow(i: nat, v: V.Vector)
      requires i < |elements|
      modifies this
      ensures elements == old(elements)[i := v]
    {
      elements := elements[i := v];
    }

    /**
     * The setter `this[i, j] = value` writes into row i's list, so every
     * row that is the same object changes with it.
     */
    method SetEntry(i: nat, j: nat, value: real)
      requires i < |elements| && j < |elements[i].x|
      modifies elements[i]
      ensures elements[i].x == old(elements[i].x)[j := value]
      ensures forall k :: 0 <= k < |elements| ==>
        Rows()[k] == if elements[k] == elements[i] then old(Rows()[i])[j := value] else old(Rows()[k])
    {
      elements[i].Set(j, value);
    }

    /** `Clone`: a new matrix whose rows are new vectors over copies of the lists. */
    method Clone() returns (copy: Matrix)
      ensures fresh(copy)
      ensures copy.Rows() == Rows()
      ensures forall k :: 0 <= k < |copy.elements| ==> fresh(copy.elements[k])
      ensures Distinct(copy.elements)
    {
      copy := new Matrix();
      for k := 0 to |elements|
        invariant fresh(copy)
        invariant |copy.elements| == k
        invariant forall q :: 0 <= q < k ==> fresh(copy.elements[q])
        invariant forall q :: 0 <= q < k ==> copy.elements[q].x == elements[q].x
        invariant Distinct(copy.elements)
      {
        var row := new V.Vector(elements[k].x);
        copy.elements := copy.elements + [row];
      }
    }

    /**
     * The removals `Submatrix` performs on its clone: row object i leaves the
     * list, then entry j leaves every remaining row's list.
     */
    method DropRowAndColumn(i: nat, j: nat)
      requires i < |elements| && ColumnInRange(Rows(), i, j) && Distinct(elements)
      modifies this, elements
      ensures Rows() == Minor(old(Rows()), i, j)
      ensures |elements| == |old(elements)| - 1
      ensures forall q :: 0 <= q < |elements| ==> elements[q] == old(elements)[Skip(q, i)]
      ensures Distinct(elements)
    {
      ghost var m := Rows();
      ghost var rows := m[..i] + m[i + 1..];
      MinorIsRemovals(m, i, j, rows);
      var kept := elements[..i] + elements[i + 1..];
      DistinctWithout(elements, i, kept);
      forall q | 0 <= q < |kept| ensures kept[q].x == rows[q] {
        assert kept[q] == elements[Skip(q, i)] && rows[q] == m[Skip(q, i)];
      }
      elements := kept;
      RemoveColumn(kept, j, rows);
      RowsOfLists(kept, Minor(m, i, j));
    }

    /**
     * `Submatrix(i, j)`: row i and column j removed. The removals are done on
     * a deep clone, so the receiver and its rows are left as they were.
     */
    method Submatrix(i: nat, j: nat) returns (sub: Matrix)
      requires i < |elements| && ColumnInRange(Rows(), i, j)
      ensures sub.Rows() == Minor(Rows(), i, j)
      ensures fresh(sub)
      ensures forall k :: 0 <= k < |sub.elements| ==> fresh(sub.elements[k])
      ensures Distinct(sub.elements)
    {
      sub := Clone();
      sub.DropRowAndColumn(i, j);
    }

    /**
     * `Determinant`: throws unless square; the single entry for order 1;
     * otherwise the Laplace expansion along row 0, each minor's determinant
     * computed recursively on a `Submatrix`.
     */
    method Determinant() returns (result: Result<real>)
      requires PassesSquareCheck(Rows()) ==> IsMatrix(Rows())
      ensures |elements| == 0 ==> result == Failure(EmptyMatrix)
      ensures |elements| > 0 && !IsSquare(Rows()) ==> result == Failure(NotSquare)
      ensures IsSquare(Rows()) ==> result == Success(Det(Rows()))
      decreases |elements|, 3
    {
      if |elements| == 0 {
        return Failure(EmptyMatrix);
      }
      var n := |elements|;
      if |elements[0].x| != n {
        return Failure(NotSquare);
      }
      if n == 1 {
        return Success(elements[0].x[0]);
      }
      var determinant := Expand(Rows());
      return Success(determinant);
    }

    /** The loop of `Determinant` for order two and up: the expansion along row 0. */
    method Expand(ghost m: seq<seq<real>>) returns (determinant: real)
      requires m == Rows() && IsSquare(m) && |m| >= 2
      ensures determinant == Det(m)
      decreases |elements|, 2
    {
      var n := |elements|;
      var first := elements[0].x;
      determinant := 0.0;
      for i := 0 to n
        invariant determinant == ExpansionUpTo(m, i)
      {
        determinant := ExpandColumn(m, first, i, determinant);
      }
    }

    /**
     * One turn of the loop of `Determinant`: the entry in column `i` of row 0
     * times its submatrix's determinant, added to the running total for an
     * even column and subtracted for an odd one.
     */
    method ExpandColumn(ghost m: seq<seq<real>>, first: seq<real>, i: nat, total: real) returns (next: real)
      requires m == Rows() && IsSquare(m) && |m| >= 2 && first == m[0] && i < |m|
      requires total == ExpansionUpTo(m, i)
      ensures next == ExpansionUpTo(m, i + 1)
      decreases |elements|, 1
    {
      var minor := SubmatrixDeterminant(m, 0, i);
      if i % 2 == 0 {
        next := total + first[i] * minor.value;
      } else {
        next := total - first[i] * minor.value;
      }
    }

    /**
     * `Submatrix(i, j).Determinant()`, the step `Determinant` and `Cofactor`
     * share. The submatrix of an order-1 matrix has no rows, so its
     * determinant throws.
     */
    method SubmatrixDeterminant(ghost m: seq<seq<real>>, i: nat, j: nat) returns (r: Result<real>)
      requires m == Rows() && IsSquare(m) && i < |m| && j < |m|
      ensures |m| == 1 ==> r == Failure(EmptyMatrix)
      ensures |m| >= 2 ==> ColumnInRange(m, i, j) && r == Success(Det(Minor(m, i, j)))
      decreases |elements|, 0
    {
      if |m| >= 2 {
        MinorOfSquare(m, i, j);
      }
      var sub := Submatrix(i, j);
      r := sub.Determinant();
    }

    /**
     * `Cofactor`: entry (i, j) is the determinant of `Submatrix(i, j)`,
     * negated when i + j is odd. On an order-1 matrix the submatrix has no
     * rows and its determinant throws.
     */
    method Cofactor() returns (result: Result<seq<seq<real>>>)
      requires PassesSquareCheck(Rows()) ==> IsMatrix(Rows())
      ensures |elements| == 0 ==> result == Failure(EmptyMatrix)
      ensures |elements| > 0 && !IsSquare(Rows()) ==> result == Failure(NotSquare)
      ensures IsSquare(Rows()) && |elements| == 1 ==> result == Failure(EmptyMatrix)
      ensures IsSquare(Rows()) && |elements| >= 2 ==> result == Success(CofactorMatrix(Rows()))
    {
      if |elements| == 0 {
        return Failure(EmptyMatrix);
      }
      if |elements[0].x| != |elements| {
        return Failure(NotSquare);
      }
      var n := |elements[0].x|;
      ghost var m := Rows();
      var co := Init(n, n, 0.0);
      for i := 0 to n
        invariant Rows() == m
        invariant |co| == n && IsRect(co, n)
        invariant i > 0 ==> n >= 2
        invariant n >= 2 ==> forall i', j' :: 0 <= i' < i && 0 <= j' < n ==> co[i'][j'] == CofactorEntry(m, i', j')
      {
        co :- CofactorRow(m, i, co);
      }
      if n >= 2 {
        forall r | 0 <= r < n ensures co[r] == CofactorMatrix(m)[r] {
          assert |co[r]| == n;
        }
        SameRows(co, CofactorMatrix(m), n);
      }
      return Success(co);
    }

    /**
     * The inner loop of `Cofactor` for row i: entry (i, j) becomes the
     * determinant of `Submatrix(i, j)`, negated when i + j is odd; the other
     * rows are left as they were.
     */
    method CofactorRow(ghost m: seq<seq<real>>, i: nat, co: seq<seq<real>>) returns (result: Result<seq<seq<real>>>)
      requires m == Rows() && IsSquare(m) && i < |m| && |co| == |m| && IsRect(co, |m|)
      ensures |m| == 1 ==> result == Failure(EmptyMatrix)
      ensures |m| >= 2 ==> result.Success? && |result.value| == |m| && IsRect(result.value, |m|)
      ensures |m| >= 2 ==> forall j :: 0 <= j < |m| ==> result.value[i][j] == CofactorEntry(m, i, j)
      ensures |m| >= 2 ==> forall r :: 0 <= r < |m| && r != i ==> result.value[r] == co[r]
    {
      var n := |co|;
      var row := co;
      for j := 0 to n
        invariant |row| == n && IsRect(row, n)
        invariant j > 0 ==> n >= 2
        invariant forall r :: 0 <= r < n && r != i ==> row[r] == co[r]
        invariant n >= 2 ==> forall j' :: 0 <= j' < j ==> row[i][j'] == CofactorEntry(m, i, j')
      {
        var d :- SubmatrixDeterminant(m, i, j);
        row := row[i := row[i][j := d]];
        if (i + j) % 2 != 0 {
          row := row[i := row[i][j := (-1.0) * row[i][j]]];
        }
      }
      return Success(row);
    }

    /** `Adjugate`: the transpose of the cofactor matrix. */
    method Adjugate() returns (result: Result<seq<seq<real>>>)
      requires PassesSquareCheck(Rows()) ==> IsMatrix(Rows())
      ensures |elements| == 0 ==> result == Failure(EmptyMatrix)
      ensures |elements| > 0 && !IsSquare(Rows()) ==> result == Failure(NotSquare)
      ensures IsSquare(Rows()) && |elements| == 1 ==> result == Failure(EmptyMatrix)
      ensures IsSquare(Rows()) && |elements| >= 2 ==> result == Success(AdjugateOf(Rows()))
    {
      var co :- Cofactor();
      result := Transpose(co);
    }

    /**
     * `Invert`: (1 / det) * Adjugate. Where det is 0 the library divides by
     * zero in floating point; here that case is the Singular error.
     */
    method Invert() returns (result: Result<seq<seq<real>>>)
      requires PassesSquareCheck(Rows()) ==> IsMatrix(Rows())
      ensures |elements| == 0 ==> result == Failure(EmptyMatrix)
      ensures |elements| > 0 && !IsSquare(Rows()) ==> result == Failure(NotSquare)
      ensures IsSquare(Rows()) && |elements| == 1 ==> result == Failure(EmptyMatrix)
      ensures IsSquare(Rows()) && |elements| >= 2 && Det(Rows()) == 0.0 ==> result == Failure(Singular)
      ensures IsSquare(Rows()) && |elements| >= 2 && Det(Rows()) != 0.0 ==>
        result == Success(InverseOf(Rows()))
    {
      if |elements| == 0 {
        return Failure(EmptyMatrix);
      }
      if |elements[0].x| != |elements| {
        return Failure(NotSquare);
      }
      var det :- Determinant();
      var adj :- Adjugate();
      if det == 0.0 {
        return Failure(Singular);
      }
      var inverse := ScaleLeft(1.0 / det, adj);
      return Success(inverse);
    }
  }
}
