/**
 * The `Vector` struct of the library: an ordered list of scalars with
 * componentwise arithmetic, 0/1 boolean operators, a prefix equality test,
 * a dot product, and the in-place mutators that `Matrix.Submatrix` relies on.
 *
 * Scalars are exact reals. The source stores `double?` components and its
 * indexer reads a null component as 0; every component here is present.
 */
module Vectors {
  import opened Outcomes

  // ---------------------------------------------------------------------
  // Specification functions over component sequences
  // ---------------------------------------------------------------------

  /** Componentwise sum; the result has the left operand's length. */
  function Plus(a: seq<real>, b: seq<real>): seq<real>
    requires |a| <= |b|
  {
    seq(|a|, i requires 0 <= i < |a| => a[i] + b[i])
  }

  /** Componentwise difference; the result has the left operand's length. */
  function Minus(a: seq<real>, b: seq<real>): seq<real>
    requires |a| <= |b|
  {
    seq(|a|, i requires 0 <= i < |a| => a[i] - b[i])
  }

  /** Componentwise (Hadamard) product; the result has the left operand's length. */
  function Times(a: seq<real>, b: seq<real>): seq<real>
    requires |a| <= |b|
  {
    seq(|a|, i requires 0 <= i < |a| => a[i] * b[i])
  }

  /** No component of `b` that a componentwise division reads is zero. */
  predicate NonZeroUpTo(b: seq<real>, n: nat)
    requires n <= |b|
  {
    forall i :: 0 <= i < n ==> b[i] != 0.0
  }

  /** Componentwise quotient; the result has the left operand's length. */
  function Over(a: seq<real>, b: seq<real>): seq<real>
    requires |a| <= |b| && NonZeroUpTo(b, |a|)
  {
    seq(|a|, i requires 0 <= i < |a| => a[i] / b[i])
  }

  /** Every component multiplied by the scalar `c`. */
  function Scaled(a: seq<real>, c: real): seq<real>
  {
    seq(|a|, i requires 0 <= i < |a| => a[i] * c)
  }

  /** The 0/1 truth value the boolean operators give a component: positive or not. */
  function Indicator(x: real): real
  {
    if x > 0.0 then 1.0 else 0.0
  }

  function Indicators(a: seq<real>): seq<real>
  {
    seq(|a|, i requires 0 <= i < |a| => Indicator(a[i]))
  }

  /** Componentwise logical AND of "is positive", as 0/1. */
  function AndOf(a: seq<real>, b: seq<real>): seq<real>
    requires |a| <= |b|
  {
    seq(|a|, i requires 0 <= i < |a| => if a[i] > 0.0 && b[i] > 0.0 then 1.0 else 0.0)
  }

  /** Componentwise logical OR of "is positive", as 0/1. */
  function OrOf(a: seq<real>, b: seq<real>): seq<real>
    requires |a| <= |b|
  {
    seq(|a|, i requires 0 <= i < |a| => if a[i] > 0.0 || b[i] > 0.0 then 1.0 else 0.0)
  }

  /** The sum of the products a[i] * b[i] over the first `n` components. */
  function DotUpTo(a: seq<real>, b: seq<real>, n: nat): real
    requires n <= |a| && n <= |b|
  {
    if n == 0 then 0.0 else DotUpTo(a, b, n - 1) + a[n - 1] * b[n - 1]
  }

  /** Every component is at least 0. */
  predicate NonNegative(s: seq<real>)
  {
    forall i :: 0 <= i < |s| ==> s[i] >= 0.0
  }

  /**
   * The sum of all components (`Sum`, where a null component counts as 0),
   * accumulated from the last component. Non-negative components have a
   * non-negative sum.
   */
  function Total(s: seq<real>): (t: real)
    ensures NonNegative(s) ==> t >= 0.0
  {
    if |s| == 0 then 0.0 else Total(s[..|s| - 1]) + s[|s| - 1]
  }

  function Abs(x: real): real
  {
    if x < 0.0 then -x else x
  }

  function AbsAll(s: seq<real>): seq<real>
  {
    seq(|s|, i requires 0 <= i < |s| => Abs(s[i]))
  }

  // ---------------------------------------------------------------------
  // The operators: each fills a fresh list of c1.Dim entries in a loop,
  // and reading the right operand past its end throws
  // ---------------------------------------------------------------------

  /**
   * The `+` operator `c1 + c2`: c1.Dim sums; reading c2 past its end throws.
   * (The method `Add` that appends a component is `Vector.Append`.)
   */
  method Add(c1: seq<real>, c2: seq<real>) returns (r: Result<seq<real>>)
    ensures |c2| < |c1| ==> r == Failure(IndexOutOfRange)
    ensures |c1| <= |c2| ==> r.Success? && |r.value| == |c1|
    ensures |c1| <= |c2| ==> forall i :: 0 <= i < |c1| ==> r.value[i] == c1[i] + c2[i]
    ensures |c1| <= |c2| ==> r == Success(Plus(c1, c2))
  {
    var list := seq(|c1|, _ => 0.0);
    for i := 0 to |c1|
      invariant i <= |c2|
      invariant |list| == |c1|
      invariant forall k :: 0 <= k < i ==> list[k] == c1[k] + c2[k]
    {
      if i == |c2| {
        return Failure(IndexOutOfRange);
      }
      list := list[i := c1[i] + c2[i]];
    }
    assert forall i :: 0 <= i < |c1| ==> list[i] == Plus(c1, c2)[i];
    assert list == Plus(c1, c2);
    r := Success(list);
  }


  /** `c1 - c2`: c1.Dim differences; reading c2 past its end throws. */
  method Subtract(c1: seq<real>, c2: seq<real>) returns (r: Result<seq<real>>)
    ensures |c2| < |c1| ==> r == Failure(IndexOutOfRange)
    ensures |c1| <= |c2| ==> r.Success? && |r.value| == |c1|
    ensures |c1| <= |c2| ==> forall i :: 0 <= i < |c1| ==> r.value[i] == c1[i] - c2[i]
    ensures |c1| <= |c2| ==> r == Success(Minus(c1, c2))
  {
    var list := seq(|c1|, _ => 0.0);
    for i := 0 to |c1|
      invariant i <= |c2|
      invariant |list| == |c1|
      invariant forall k :: 0 <= k < i ==> list[k] == c1[k] - c2[k]
    {
      if i == |c2| {
        return Failure(IndexOutOfRange);
      }
      list := list[i := c1[i] - c2[i]];
    }
    assert forall i :: 0 <= i < |c1| ==> list[i] == Minus(c1, c2)[i];
    assert list == Minus(c1, c2);
    r := Success(list);
  }


  /** `c1 * c2`, the componentwise product; reading c2 past its end throws. */
  method Multiply(c1: seq<real>, c2: seq<real>) returns (r: Result<seq<real>>)
    ensures |c2| < |c1| ==> r == Failure(IndexOutOfRange)
    ensures |c1| <= |c2| ==> r.Success? && |r.value| == |c1|
    ensures |c1| <= |c2| ==> forall i :: 0 <= i < |c1| ==> r.value[i] == c1[i] * c2[i]
    ensures |c1| <= |c2| ==> r == Success(Times(c1, c2))
  {
    var list := seq(|c1|, _ => 0.0);
    for i := 0 to |c1|
      invariant i <= |c2|
      invariant |list| == |c1|
      invariant forall k :: 0 <= k < i ==> list[k] == c1[k] * c2[k]
    {
      if i == |c2| {
        return Failure(IndexOutOfRange);
      }
      list := list[i := c1[i] * c2[i]];
    }
    assert forall i :: 0 <= i < |c1| ==> list[i] == Times(c1, c2)[i];
    assert list == Times(c1, c2);
    r := Success(list);
  }


  /**
   * `c1 / c2`, the componentwise quotient; reading c2 past its end throws.
   * A zero divisor gives an IEEE infinity or NaN in the library and is
   * excluded here.
   */
  method Divide(c1: seq<real>, c2: seq<real>) returns (r: Result<seq<real>>)
    requires forall i :: 0 <= i < |c1| && i < |c2| ==> c2[i] != 0.0
    ensures |c2| < |c1| ==> r == Failure(IndexOutOfRange)
    ensures |c1| <= |c2| ==> r.Success? && |r.value| == |c1|
    ensures |c1| <= |c2| ==> forall i :: 0 <= i < |c1| ==> r.value[i] * c2[i] == c1[i]
    ensures |c1| <= |c2| ==> r == Success(Over(c1, c2))
  {
    var list := seq(|c1|, _ => 0.0);
    for i := 0 to |c1|
      invariant i <= |c2|
      invariant |list| == |c1|
      invariant forall k :: 0 <= k < i ==> list[k] == c1[k] / c2[k]
    {
      if i == |c2| {
        return Failure(IndexOutOfRange);
      }
      list := list[i := c1[i] / c2[i]];
    }
    forall i | 0 <= i < |c1| ensures list[i] * c2[i] == c1[i] {
      assert c2[i] != 0.0;
    }
    assert list == Over(c1, c2);
    r := Success(list);
  }


  /** `c1 * c`, every component scaled by `c`. */
  method Scale(c1: seq<real>, c: real) returns (r: seq<real>)
    ensures |r| == |c1|
    ensures forall i :: 0 <= i < |c1| ==> r[i] == c1[i] * c
    ensures r == Scaled(c1, c)
  {
    var list := seq(|c1|, _ => 0.0);
    for i := 0 to |c1|
      invariant |list| == |c1|
      invariant forall k :: 0 <= k < i ==> list[k] == c1[k] * c
    {
      list := list[i := c1[i] * c];
    }
    r := list;
    assert forall i :: 0 <= i < |c1| ==> r[i] == Scaled(c1, c)[i];
  }

  /** `c * c1`, defined by the library as `c1 * c`: scaling commutes. */
  method ScaleLeft(c: real, c1: seq<real>) returns (r: seq<real>)
    ensures |r| == |c1|
    ensures forall i :: 0 <= i < |c1| ==> r[i] == c * c1[i]
    ensures r == Scaled(c1, c)
  {
    r := Scale(c1, c);
    forall i | 0 <= i < |c1| ensures r[i] == c * c1[i] {
      assert r[i] == c1[i] * c;
    }
  }

  /** `c1 & c2`: 1 where both components are positive, else 0; reading c2 past its end throws. */
  method And(c1: seq<real>, c2: seq<real>) returns (r: Result<seq<real>>)
    ensures |c2| < |c1| ==> r == Failure(IndexOutOfRange)
    ensures |c1| <= |c2| ==> r.Success? && |r.value| == |c1|
    ensures |c1| <= |c2| ==> forall i :: 0 <= i < |c1| ==> (r.value[i] == 0.0 || r.value[i] == 1.0)
    ensures |c1| <= |c2| ==> forall i :: 0 <= i < |c1| ==> (r.value[i] == 1.0 <==> c1[i] > 0.0 && c2[i] > 0.0)
    ensures |c1| <= |c2| ==> r == Success(AndOf(c1, c2))
  {
    var list := seq(|c1|, _ => 0.0);
    for i := 0 to |c1|
      invariant i <= |c2|
      invariant |list| == |c1|
      invariant forall k :: 0 <= k < i ==> list[k] == if c1[k] > 0.0 && c2[k] > 0.0 then 1.0 else 0.0
    {
      if i == |c2| {
        return Failure(IndexOutOfRange);
      }
      var b1: int := if c1[i] > 0.0 then 1 else 0;
      var b2: int := if c2[i] > 0.0 then 1 else 0;
      list := list[i := if b1 == 1 && b2 == 1 then 1.0 else 0.0];
    }
    assert list == AndOf(c1, c2);
    r := Success(list);
  }


  /** `c1 | c2`: 1 where either component is positive, else 0; reading c2 past its end throws. */
  method Or(c1: seq<real>, c2: seq<real>) returns (r: Result<seq<real>>)
    ensures |c2| < |c1| ==> r == Failure(IndexOutOfRange)
    ensures |c1| <= |c2| ==> r.Success? && |r.value| == |c1|
    ensures |c1| <= |c2| ==> forall i :: 0 <= i < |c1| ==> (r.value[i] == 0.0 || r.value[i] == 1.0)
    ensures |c1| <= |c2| ==> forall i :: 0 <= i < |c1| ==> (r.value[i] == 1.0 <==> c1[i] > 0.0 || c2[i] > 0.0)
    ensures |c1| <= |c2| ==> r == Success(OrOf(c1, c2))
  {
    var list := seq(|c1|, _ => 0.0);
    for i := 0 to |c1|
      invariant i <= |c2|
      invariant |list| == |c1|
      invariant forall k :: 0 <= k < i ==> list[k] == if c1[k] > 0.0 || c2[k] > 0.0 then 1.0 else 0.0
    {
      if i == |c2| {
        return Failure(IndexOutOfRange);
      }
      var b1: int := if c1[i] > 0.0 then 1 else 0;
      var b2: int := if c2[i] > 0.0 then 1 else 0;
      list := list[i := if b1 == 1 || b2 == 1 then 1.0 else 0.0];
    }
    assert list == OrOf(c1, c2);
    r := Success(list);
  }


  /**
   * `c1 == c2` compares only the first c1.Dim components, so it is a prefix
   * test: it holds exactly when c1 is a prefix of c2. It reads c2 past its
   * end, and throws, only when c2 is shorter and matches c1 that far.
   */
  method Equal(c1: seq<real>, c2: seq<real>) returns (r: Result<bool>)
    ensures r.Failure? <==> |c2| < |c1| && c1[..|c2|] == c2
    ensures r.Failure? ==> r.error == IndexOutOfRange
    ensures r.Success? ==> (r.value <==> c1 <= c2)
  {
    for i := 0 to |c1|
      invariant i <= |c2|
      invariant c1[..i] == c2[..i]
    {
      if i == |c2| {
        assert c1[..|c2|] == c2;
        return Failure(IndexOutOfRange);
      }
      if c1[i] != c2[i] {
        if |c1| <= |c2| {
          assert c2[..|c1|][i] != c1[i];
        }
        if |c2| < |c1| {
          assert c1[..|c2|][i] != c2[i];
        }
        return Success(false);
      }
      assert c1[..i + 1] == c1[..i] + [c1[i]];
      assert c2[..i + 1] == c2[..i] + [c2[i]];
    }
    assert c1 == c1[..|c1|];
    return Success(true);
  }

  /** `c1 != c2`, the negation of `==` (which it calls, so it throws when `==` does). */
  method NotEqual(c1: seq<real>, c2: seq<real>) returns (r: Result<bool>)
    ensures r.Failure? <==> |c2| < |c1| && c1[..|c2|] == c2
    ensures r.Failure? ==> r.error == IndexOutOfRange
    ensures r.Success? ==> (r.value <==> !(c1 <= c2))
  {
    var same :- Equal(c1, c2);
    return Success(!same);
  }

  /** `v.Dot(c)`: sums v[i] * c[i] over c's length; reading v past its end throws. */
  method Dot(v: seq<real>, c: seq<real>) returns (r: Result<real>)
    ensures |v| < |c| ==> r == Failure(IndexOutOfRange)
    ensures |c| <= |v| ==> r == Success(DotUpTo(v, c, |c|))
  {
    var dot := 0.0;
    for i := 0 to |c|
      invariant i <= |v|
      invariant dot == DotUpTo(v, c, i)
    {
      if i == |v| {
        return Failure(IndexOutOfRange);
      }
      dot := dot + v[i] * c[i];
    }
    r := Success(dot);
  }


  // ---------------------------------------------------------------------
  // The list a Vector wraps, which copies of the struct share
  // ---------------------------------------------------------------------

  /**
   * The mutable list behind a `Vector`. The struct is a value, but a copy of
   * it shares this list, so a change through one copy is seen by all.
   */
  class Vector {
    var x: seq<real>

    constructor (values: seq<real>)
      ensures x == values
    {
      x := values;
    }

    /** The indexer's setter. */
    method Set(i: nat, value: real)
      requires i < |x|
      modifies this
      ensures x == old(x)[i := value]
    {
      x := x[i := value];
    }

    /**
     * The method `Add`: append a component at the end. Named `Append` here
     * to keep it apart from the `+` operator, which is `Vectors.Add`.
     */
    method Append(value: real)
      modifies this
      ensures x == old(x) + [value]
    {
      x := x + [value];
    }

    /** `RemoveAt`: drop one component, keeping the others in order. */
    method RemoveAt(index: nat)
      requires index < |x|
      modifies this
      ensures |x| == |old(x)| - 1
      ensures x == old(x)[..index] + old(x)[index + 1..]
    {
      x := x[..index] + x[index + 1..];
    }

    /**
     * `Absolute`: the member-wise clone shares this list, so writing the
     * absolute values through the clone overwrites the receiver's components
     * as well; the clone returned is the receiver.
     */
    method Absolute() returns (v: Vector)
      modifies this
      ensures v == this
      ensures x == AbsAll(old(x))
    {
      v := this;
      for j := 0 to |x|
        invariant |x| == |old(x)|
        invariant forall k :: 0 <= k < j ==> x[k] == Abs(old(x)[k])
        invariant forall k :: j <= k < |x| ==> x[k] == old(x)[k]
      {
        v.Set(j, Abs(x[j]));
      }
    }
  }

  // ---------------------------------------------------------------------
  // Properties
  // ---------------------------------------------------------------------

  /** Subtraction undoes addition, componentwise. */
  lemma MinusUndoesPlus(a: seq<real>, b: seq<real>)
    requires |a| <= |b|
    ensures Minus(Plus(a, b), b) == a
  {
  }

  /** Multiplying back by a nonzero divisor undoes division. */
  lemma TimesUndoesOver(a: seq<real>, b: seq<real>)
    requires |a| <= |b| && NonZeroUpTo(b, |a|)
    ensures Times(Over(a, b), b) == a
  {
    var q := Over(a, b);
    forall i | 0 <= i < |a| ensures Times(q, b)[i] == a[i] {
      assert b[i] != 0.0;
      assert q[i] == a[i] / b[i];
      assert Times(q, b)[i] == q[i] * b[i];
    }
  }

  /** Addition commutes on vectors of equal length. */
  lemma PlusCommutes(a: seq<real>, b: seq<real>)
    requires |a| == |b|
    ensures Plus(a, b) == Plus(b, a)
  {
  }

  /** `&` is the product of the two 0/1 indicator vectors. */
  lemma AndIsProductOfIndicators(a: seq<real>, b: seq<real>)
    requires |a| <= |b|
    ensures AndOf(a, b) == Times(Indicators(a), Indicators(b))
  {
  }

  /** `|` follows inclusion-exclusion on the 0/1 indicator vectors. */
  lemma OrIsInclusionExclusion(a: seq<real>, b: seq<real>)
    requires |a| <= |b|
    ensures OrOf(a, b) ==
      Minus(Plus(Indicators(a), Indicators(b)), Times(Indicators(a), Indicators(b)))
  {
  }

  /** The dot product is symmetric over a common prefix. */
  lemma {:induction false} DotUpToSymmetric(a: seq<real>, b: seq<real>, n: nat)
    requires n <= |a| && n <= |b|
    ensures DotUpTo(a, b, n) == DotUpTo(b, a, n)
  {
    if n > 0 {
      DotUpToSymmetric(a, b, n - 1);
    }
  }

  /** The cross product of two 3-vectors, in closed form. */
  function CrossOf(a: seq<real>, b: seq<real>): (r: seq<real>)
    requires |a| == 3 && |b| == 3
    ensures |r| == 3
  {
    [a[1] * b[2] - a[2] * b[1], a[2] * b[0] - a[0] * b[2], a[0] * b[1] - a[1] * b[0]]
  }

  /** The dot product of a 3-vector with the 3-vector `[x, y, z]`, written out. */
  lemma DotUpTo3(a: seq<real>, x: real, y: real, z: real)
    requires |a| == 3
    ensures DotUpTo(a, [x, y, z], 3) == a[0] * x + a[1] * y + a[2] * z
  {
    assert DotUpTo(a, [x, y, z], 1) == a[0] * x;
    assert DotUpTo(a, [x, y, z], 2) == a[0] * x + a[1] * y;
  }

  /** `v.Dot(c) == c.Dot(v)` for vectors of equal length. */
  lemma DotSymmetric(v: seq<real>, c: seq<real>)
    requires |v| == |c|
    ensures DotUpTo(v, c, |c|) == DotUpTo(c, v, |v|)
  {
    DotUpToSymmetric(v, c, |c|);
  }

  /** `Sum` after `Add(value)` grows by `value`. */
  lemma TotalAppend(s: seq<real>, value: real)
    ensures Total(s + [value]) == Total(s) + value
  {
    assert (s + [value])[..|s|] == s;
  }

  /** `Sum` is additive over concatenation. */
  lemma {:induction false} TotalConcat(a: seq<real>, b: seq<real>)
    ensures Total(a + b) == Total(a) + Total(b)
  {
    if |b| == 0 {
      assert a + b == a;
    } else {
      var b' := b[..|b| - 1];
      assert a + b == (a + b') + [b[|b| - 1]];
      TotalAppend(a + b', b[|b| - 1]);
      TotalConcat(a, b');
      TotalAppend(b', b[|b| - 1]);
      assert b' + [b[|b| - 1]] == b;
    }
  }

  /** Summing from the first component gives the same total as summing from the last. */
  lemma TotalFromFront(s: seq<real>)
    requires |s| > 0
    ensures Total(s) == s[0] + Total(s[1..])
  {
    assert s == [s[0]] + s[1..];
    TotalConcat([s[0]], s[1..]);
  }

  /** `Sum` after `RemoveAt(k)` drops by the removed component. */
  lemma {:induction false} TotalRemoveAt(s: seq<real>, k: nat)
    requires k < |s|
    ensures Total(s[..k] + s[k + 1..]) == Total(s) - s[k]
    decreases |s|
  {
    var n := |s| - 1;
    if k == n {
      assert s[..k] + s[k + 1..] == s[..n];
    } else {
      var s' := s[..n];
      TotalRemoveAt(s', k);
      assert s[..k] + s[k + 1..] == (s'[..k] + s'[k + 1..]) + [s[n]];
      TotalAppend(s'[..k] + s'[k + 1..], s[n]);
    }
  }

  /** After `Absolute` every component is non-negative, and a second `Absolute` changes nothing. */
  lemma AbsAllIdempotent(s: seq<real>)
    ensures forall i :: 0 <= i < |s| ==> AbsAll(s)[i] >= 0.0
    ensures AbsAll(AbsAll(s)) == AbsAll(s)
  {
  }

  /** The triangle inequality: |Sum(v)| is at most Sum(Absolute(v)). */
  lemma {:induction false} TotalAbsBound(s: seq<real>)
    ensures Abs(Total(s)) <= Total(AbsAll(s))
  {
    if |s| > 0 {
      var s' := s[..|s| - 1];
      TotalAbsBound(s');
      assert AbsAll(s)[..|s| - 1] == AbsAll(s');
    }
  }
}
