/** The optional value the source writes as `None`. */
module Options {
  datatype Option<+T> = None | Some(value: T)
}

/**
 * Real vectors: the NumPy arrays and Python float lists of the source,
 * with the element-wise operations it uses and the sums over them.
 */
module Vectors {

  /** Left-to-right sum, the order in which the source's loops accumulate. */
  function Sum(v: seq<real>): real
  {
    if |v| == 0 then 0.0 else Sum(v[..|v| - 1]) + v[|v| - 1]
  }

  /** `np.zeros(n)` */
  function Zeros(n: nat): (r: seq<real>)
    ensures |r| == n
    ensures forall i :: 0 <= i < n ==> r[i] == 0.0
  {
    seq(n, _ => 0.0)
  }

  /** `np.full(n, x)` */
  function Fill(n: nat, x: real): (r: seq<real>)
    ensures |r| == n
    ensures forall i :: 0 <= i < n ==> r[i] == x
  {
    seq(n, _ => x)
  }

  /** `u + v` */
  function Add(u: seq<real>, v: seq<real>): (r: seq<real>)
    requires |u| == |v|
    ensures |r| == |u|
    ensures forall i :: 0 <= i < |u| ==> r[i] == u[i] + v[i]
  {
    seq(|u|, i requires 0 <= i < |u| => u[i] + v[i])
  }

  /** `u - v` */
  function Sub(u: seq<real>, v: seq<real>): (r: seq<real>)
    requires |u| == |v|
    ensures |r| == |u|
    ensures forall i :: 0 <= i < |u| ==> r[i] == u[i] - v[i]
  {
    seq(|u|, i requires 0 <= i < |u| => u[i] - v[i])
  }

  /** `u * v`, element-wise */
  function Mul(u: seq<real>, v: seq<real>): (r: seq<real>)
    requires |u| == |v|
    ensures |r| == |u|
    ensures forall i :: 0 <= i < |u| ==> r[i] == u[i] * v[i]
  {
    seq(|u|, i requires 0 <= i < |u| => u[i] * v[i])
  }

  /** `c * v` */
  function Scale(c: real, v: seq<real>): (r: seq<real>)
    ensures |r| == |v|
    ensures forall i :: 0 <= i < |v| ==> r[i] == c * v[i]
  {
    seq(|v|, i requires 0 <= i < |v| => c * v[i])
  }

  /** `v / c` */
  function DivideBy(v: seq<real>, c: real): (r: seq<real>)
    requires c != 0.0
    ensures |r| == |v|
    ensures forall i :: 0 <= i < |v| ==> r[i] == v[i] / c
  {
    seq(|v|, i requires 0 <= i < |v| => v[i] / c)
  }

  predicate NonNegative(v: seq<real>)
  {
    forall i :: 0 <= i < |v| ==> v[i] >= 0.0
  }

  /** A probability vector: non-negative entries summing to one. */
  predicate IsDistribution(v: seq<real>)
  {
    NonNegative(v) && Sum(v) == 1.0
  }

  lemma {:induction false} SumPrefix(v: seq<real>, i: nat)
    requires i < |v|
    ensures Sum(v[..i + 1]) == Sum(v[..i]) + v[i]
  {
    assert v[..i + 1][..i] == v[..i];
  }

  lemma {:induction false} SumNonNegative(v: seq<real>)
    requires NonNegative(v)
    ensures Sum(v) >= 0.0
  {
    if |v| > 0 {
      SumNonNegative(v[..|v| - 1]);
    }
  }

  lemma {:induction false} SumScale(c: real, v: seq<real>)
    ensures Sum(Scale(c, v)) == c * Sum(v)
  {
    if |v| > 0 {
      var w := v[..|v| - 1];
      assert forall i :: 0 <= i < |w| ==> Scale(c, v)[i] == Scale(c, w)[i];
      assert Scale(c, v)[..|v| - 1] == Scale(c, w);
      SumScale(c, w);
    }
  }

  lemma {:induction false} SumDivideBy(v: seq<real>, c: real)
    requires c != 0.0
    ensures Sum(DivideBy(v, c)) == Sum(v) / c
  {
    if |v| > 0 {
      assert DivideBy(v, c)[..|v| - 1] == DivideBy(v[..|v| - 1], c);
      SumDivideBy(v[..|v| - 1], c);
    }
  }

  lemma {:induction false} SumFill(n: nat, x: real)
    ensures Sum(Fill(n, x)) == n as real * x
  {
    if n > 0 {
      assert Fill(n, x)[..n - 1] == Fill(n - 1, x);
      SumFill(n - 1, x);
    }
  }

  lemma {:induction false} SumAdd(u: seq<real>, v: seq<real>)
    requires |u| == |v|
    ensures Sum(Add(u, v)) == Sum(u) + Sum(v)
  {
    if |u| > 0 {
      assert Add(u, v)[..|u| - 1] == Add(u[..|u| - 1], v[..|v| - 1]);
      SumAdd(u[..|u| - 1], v[..|v| - 1]);
    }
  }

  lemma {:induction false} SumSub(u: seq<real>, v: seq<real>)
    requires |u| == |v|
    ensures Sum(Sub(u, v)) == Sum(u) - Sum(v)
  {
    if |u| > 0 {
      assert Sub(u, v)[..|u| - 1] == Sub(u[..|u| - 1], v[..|v| - 1]);
      SumSub(u[..|u| - 1], v[..|v| - 1]);
    }
  }

  /** Sums of vectors that agree entry by entry are equal. */
  lemma {:induction false} SumPointwise(u: seq<real>, v: seq<real>)
    requires |u| == |v|
    requires forall i :: 0 <= i < |u| ==> u[i] == v[i]
    ensures Sum(u) == Sum(v)
  {
    assert u == v;
  }

  /** A vector whose entries are all zero sums to zero. */
  lemma {:induction false} SumZeros(v: seq<real>)
    requires forall i :: 0 <= i < |v| ==> v[i] == 0.0
    ensures Sum(v) == 0.0
  {
    if |v| > 0 {
      SumZeros(v[..|v| - 1]);
    }
  }

  /** The sum of a vector that is zero everywhere except at `k` is its entry at `k`. */
  lemma {:induction false} SumSingle(v: seq<real>, k: nat)
    requires k < |v|
    requires forall i :: 0 <= i < |v| && i != k ==> v[i] == 0.0
    ensures Sum(v) == v[k]
  {
    if k < |v| - 1 {
      SumSingle(v[..|v| - 1], k);
    } else {
      SumZeros(v[..|v| - 1]);
    }
  }

  lemma DivideSelf(s: real)
    requires s != 0.0
    ensures s / s == 1.0
  {
  }

  /** Scaling a vector by the reciprocal of its positive sum leaves a distribution. */
  lemma NormalizedIsDistribution(v: seq<real>)
    requires NonNegative(v) && Sum(v) > 0.0
    ensures IsDistribution(DivideBy(v, Sum(v)))
  {
    var s := Sum(v);
    var d := DivideBy(v, s);
    SumDivideBy(v, s);
    assert Sum(d) == s / s;
    DivideSelf(s);
    forall i | 0 <= i < |d|
      ensures d[i] >= 0.0
    {
      assert d[i] == v[i] / s;
    }
  }

  lemma SumAppend(v: seq<real>, x: real)
    ensures Sum(v + [x]) == Sum(v) + x
  {
    assert (v + [x])[..|v|] == v;
  }

  /** `np.dot(u, v)`, summed left to right. */
  function Dot(u: seq<real>, v: seq<real>): real
    requires |u| == |v|
  {
    Sum(Mul(u, v))
  }

  lemma DotAppend(u: seq<real>, v: seq<real>, x: real, y: real)
    requires |u| == |v|
    ensures Dot(u + [x], v + [y]) == Dot(u, v) + x * y
  {
    var lhs := Mul(u + [x], v + [y]);
    forall i | 0 <= i < |u|
      ensures lhs[i] == Mul(u, v)[i]
    {
      assert (u + [x])[i] == u[i] && (v + [y])[i] == v[i];
    }
    assert lhs[|u|] == x * y;
    assert lhs == Mul(u, v) + [x * y];
    SumAppend(Mul(u, v), x * y);
  }

  /** Shifting every value by `c` shifts the weighted sum by `c` times the total weight. */
  lemma Distribute(a: real, b: real, c: real)
    ensures a * (b - c) == a * b - c * a
  {
  }

  lemma DotShift(w: seq<real>, v: seq<real>, c: real)
    requires |w| == |v|
    ensures Dot(w, Sub(v, Fill(|v|, c))) == Dot(w, v) - c * Sum(w)
  {
    var shifted := Mul(w, Sub(v, Fill(|v|, c)));
    forall i | 0 <= i < |w|
      ensures shifted[i] == Sub(Mul(w, v), Scale(c, w))[i]
    {
      assert shifted[i] == w[i] * (v[i] - c);
      Distribute(w[i], v[i], c);
    }
    assert shifted == Sub(Mul(w, v), Scale(c, w));
    SumSub(Mul(w, v), Scale(c, w));
    SumScale(c, w);
  }

  /** A matrix whose rows all have `width` entries. */
  predicate Rectangular(m: seq<seq<real>>, width: nat)
  {
    forall i :: 0 <= i < |m| ==> |m[i]| == width
  }

  /** Entry `j` of every row. */
  function Column(m: seq<seq<real>>, j: nat): (c: seq<real>)
    requires forall i :: 0 <= i < |m| ==> j < |m[i]|
    ensures |c| == |m|
    ensures forall i :: 0 <= i < |m| ==> c[i] == m[i][j]
  {
    seq(|m|, i requires 0 <= i < |m| => m[i][j])
  }

  function RowSums(m: seq<seq<real>>): (r: seq<real>)
    ensures |r| == |m|
  {
    seq(|m|, i requires 0 <= i < |m| => Sum(m[i]))
  }

  function ColumnSums(m: seq<seq<real>>, width: nat): (r: seq<real>)
    requires Rectangular(m, width)
    ensures |r| == width
  {
    seq(width, j requires 0 <= j < width => Sum(Column(m, j)))
  }

  /** Summing a matrix row by row or column by column gives the same total. */
  lemma {:induction false} SumExchange(m: seq<seq<real>>, width: nat)
    requires Rectangular(m, width)
    ensures Sum(RowSums(m)) == Sum(ColumnSums(m, width))
  {
    if |m| == 0 {
      SumZeros(ColumnSums(m, width));
    } else {
      var n := |m| - 1;
      var top := m[..n];
      SumExchange(top, width);
      assert RowSums(m) == RowSums(top) + [Sum(m[n])];
      SumAppend(RowSums(top), Sum(m[n]));
      forall j | 0 <= j < width
        ensures ColumnSums(m, width)[j] == Add(ColumnSums(top, width), m[n])[j]
      {
        assert Column(m, j) == Column(top, j) + [m[n][j]];
        SumAppend(Column(top, j), m[n][j]);
      }
      assert ColumnSums(m, width) == Add(ColumnSums(top, width), m[n]);
      SumAdd(ColumnSums(top, width), m[n]);
    }
  }

  lemma ColumnAppend(m: seq<seq<real>>, k: nat, j: nat)
    requires k < |m| && forall i :: 0 <= i < |m| ==> j < |m[i]|
    ensures Column(m[..k + 1], j) == Column(m[..k], j) + [m[k][j]]
  {
    assert forall i :: 0 <= i < k ==> Column(m[..k + 1], j)[i] == Column(m[..k], j)[i];
  }

  lemma MulMonotone(w: real, a: real, b: real)
    requires w >= 0.0 && a <= b
    ensures w * a <= w * b
  {
  }

  /** The elementwise product of two non-negative vectors is non-negative. */
  lemma MulNonNegative(u: seq<real>, v: seq<real>)
    requires |u| == |v| && NonNegative(u) && NonNegative(v)
    ensures NonNegative(Mul(u, v))
  {
    forall i | 0 <= i < |u|
      ensures Mul(u, v)[i] >= 0.0
    {
      MulMonotone(u[i], 0.0, v[i]);
    }
  }
}
