/** Real-valued sums and weighted sums, and the inequalities the aggregates rest on. */
module Sums {
  function Sum(s: seq<real>): real {
    if s == [] then 0.0 else Sum(s[..|s| - 1]) + s[|s| - 1]
  }

  lemma SumSnoc(s: seq<real>, x: real)
    ensures Sum(s + [x]) == Sum(s) + x
  {
    assert (s + [x])[..|s|] == s;
  }

  lemma {:induction false} SumAppend(a: seq<real>, b: seq<real>)
    ensures Sum(a + b) == Sum(a) + Sum(b)
  {
    if b == [] {
      assert a + b == a;
    } else {
      var init, x := b[..|b| - 1], b[|b| - 1];
      assert a + b == (a + init) + [x];
      SumSnoc(a + init, x);
      SumAppend(a, init);
    }
  }

  function Times(a: real, b: real): real {
    a * b
  }

  lemma {:induction false} SumScale(f: real, s: seq<real>, t: seq<real>)
    requires |t| == |s| && forall j :: 0 <= j < |s| ==> t[j] == Times(f, s[j])
    ensures Sum(t) == Times(f, Sum(s))
  {
    if s != [] {
      SumScale(f, s[..|s| - 1], t[..|s| - 1]);
      Distribute(f, Sum(s[..|s| - 1]), s[|s| - 1]);
    }
  }

  lemma Distribute(f: real, a: real, b: real)
    ensures Times(f, a + b) == Times(f, a) + Times(f, b)
  {
  }

  lemma ProductOrder(a: real, b: real, x: real, y: real)
    requires 0.0 <= a <= b && 0.0 <= x <= y
    ensures 0.0 <= Times(a, x) <= Times(b, y)
  {
    assert a * x <= a * y <= b * y;
  }

  lemma PartBound(total: real, cap: real, f: real, c: real)
    requires 0.0 <= total <= cap && f >= 0.0 && 0.0 <= c <= 1.0
    ensures 0.0 <= total + Times(f, c) <= cap + f
  {
    assert 0.0 <= f * c <= f;
  }

  /** Every member in [lo, hi] puts the mean in [lo, hi]. */
  lemma {:induction false} SumBounds(s: seq<real>, lo: real, hi: real)
    requires forall i :: 0 <= i < |s| ==> lo <= s[i] <= hi
    ensures |s| as real * lo <= Sum(s) <= |s| as real * hi
  {
    if s != [] {
      SumBounds(s[..|s| - 1], lo, hi);
      var n := (|s| - 1) as real;
      assert |s| as real == n + 1.0;
      assert (n + 1.0) * lo == n * lo + lo && (n + 1.0) * hi == n * hi + hi;
    }
  }

  lemma {:induction false} SumPositive(s: seq<real>)
    requires s != [] && forall i :: 0 <= i < |s| ==> s[i] > 0.0
    ensures Sum(s) > 0.0
  {
    if |s| == 1 {
      assert s[..0] == [];
    } else {
      SumPositive(s[..|s| - 1]);
    }
  }

  lemma MeanBounds(s: seq<real>, lo: real, hi: real)
    requires s != [] && forall i :: 0 <= i < |s| ==> lo <= s[i] <= hi
    ensures lo <= Sum(s) / |s| as real <= hi
  {
    SumBounds(s, lo, hi);
    DivBounds(Sum(s), |s| as real, lo, hi);
  }

  lemma DivBounds(x: real, w: real, lo: real, hi: real)
    requires w > 0.0 && w * lo <= x <= w * hi
    ensures lo <= x / w <= hi
  {
    var q := x / w;
    assert q * w == x;
    assert w * (q - lo) >= 0.0 && w * (hi - q) >= 0.0;
  }

  lemma MeanPositive(s: seq<real>)
    requires s != [] && forall i :: 0 <= i < |s| ==> s[i] > 0.0
    ensures Sum(s) > 0.0 && Sum(s) / |s| as real > 0.0
  {
    SumPositive(s);
    MeanSpread(Sum(s), |s| as real, |s| as real);
  }

  /** A weighted term: a contribution and the quantity it carries. */
  datatype Term = Term(weight: real, x: real)

  function Weight(ts: seq<Term>): real {
    if ts == [] then 0.0 else Weight(ts[..|ts| - 1]) + ts[|ts| - 1].weight
  }

  /** Sum of weight * x. */
  function Moment(ts: seq<Term>): real {
    if ts == [] then 0.0 else Moment(ts[..|ts| - 1]) + ts[|ts| - 1].weight * ts[|ts| - 1].x
  }

  /** Sum of weight^2 * x: the variance of independent terms whose relative variance is x. */
  function Variance(ts: seq<Term>): real {
    if ts == [] then 0.0
    else
      var t := ts[|ts| - 1];
      Variance(ts[..|ts| - 1]) + t.weight * t.weight * t.x
  }

  ghost predicate Weighted(ts: seq<Term>, lo: real, hi: real) {
    forall i :: 0 <= i < |ts| ==> ts[i].weight >= 0.0 && lo <= ts[i].x <= hi
  }

  lemma {:induction false} WeightNonNegative(ts: seq<Term>)
    requires forall i :: 0 <= i < |ts| ==> ts[i].weight >= 0.0
    ensures Weight(ts) >= 0.0
  {
    if ts != [] {
      WeightNonNegative(ts[..|ts| - 1]);
    }
  }

  /** A weighted mean stays in the hull of its terms. */
  lemma {:induction false} MomentBounds(ts: seq<Term>, lo: real, hi: real)
    requires Weighted(ts, lo, hi)
    ensures Weight(ts) >= 0.0
    ensures Weight(ts) * lo <= Moment(ts) <= Weight(ts) * hi
  {
    if ts != [] {
      var init, t := ts[..|ts| - 1], ts[|ts| - 1];
      MomentBounds(init, lo, hi);
      MomentStep(Weight(init), Moment(init), t.weight, t.x, lo, hi);
    }
  }

  lemma MomentStep(w: real, m: real, v: real, x: real, lo: real, hi: real)
    requires w * lo <= m <= w * hi && v >= 0.0 && lo <= x <= hi
    ensures (w + v) * lo <= m + v * x <= (w + v) * hi
  {
    assert v * lo <= v * x <= v * hi;
    assert (w + v) * lo == w * lo + v * lo && (w + v) * hi == w * hi + v * hi;
  }

  /** The variance `v` of a total weight `w` has relative variance at most `hi`. */
  predicate Within(v: real, w: real, hi: real) {
    0.0 <= v <= hi * (w * w)
  }

  /** Averaging independent terms never raises the relative variance. */
  lemma {:induction false} VarianceBound(ts: seq<Term>, hi: real)
    requires Weighted(ts, 0.0, hi) && hi >= 0.0
    ensures Within(Variance(ts), Weight(ts), hi)
  {
    if ts != [] {
      var init, t := ts[..|ts| - 1], ts[|ts| - 1];
      VarianceBound(init, hi);
      WeightNonNegative(init);
      VarianceStep(Weight(init), Variance(init), t.weight, t.x, hi);
    }
  }

  lemma VarianceStep(w: real, var0: real, v: real, x: real, hi: real)
    requires w >= 0.0 && v >= 0.0 && 0.0 <= x <= hi
    requires Within(var0, w, hi)
    ensures Within(var0 + v * v * x, w + v, hi)
  {
    var s, c := v * v, w * v;
    assert s >= 0.0 && c >= 0.0;
    assert 0.0 <= s * x <= hi * s;
    assert (w + v) * (w + v) == w * w + s + 2.0 * c;
    MulSum(hi, w * w, s, 2.0 * c);
    assert hi * (2.0 * c) >= 0.0;
  }

  lemma MulSum(h: real, a: real, b: real, c: real)
    ensures h * (a + b + c) == h * a + h * b + h * c
  {
  }

  function SquaredRatio(v: real, k: real, mean: real): real
    requires k != 0.0 && mean != 0.0
  {
    v / (k * k) / (mean * mean)
  }

  lemma MulOrder(a: real, b: real, c: real)
    requires a <= b && c >= 0.0
    ensures a * c <= b * c
  {
  }

  lemma SquareOrder(a: real, b: real)
    requires 0.0 <= a <= b
    ensures a * a <= b * b
  {
    assert a * a <= a * b <= b * b;
  }

  lemma DivideTwice(x: real, a: real, b: real, hi: real)
    requires a > 0.0 && b > 0.0 && 0.0 <= x <= hi * (a * b)
    ensures 0.0 <= x / a / b <= hi
  {
    var q := x / a;
    assert q * a == x;
    assert hi * (a * b) == a * (hi * b);
    DivBounds(x, a, 0.0, hi * b);
    DivBounds(q, b, 0.0, hi);
  }

  /** The mean of `m` terms, taken `k >= m` times, covers their sum. */
  lemma MeanSpread(sum: real, m: real, k: real)
    requires sum > 0.0 && 1.0 <= m <= k
    ensures sum / m > 0.0 && sum <= Times(k, sum / m)
  {
    var mean := sum / m;
    assert mean * m == sum;
    assert mean > 0.0;
    MulOrder(m, k, mean);
  }

  lemma ScaledVariance(v: real, w: real, mean: real, k: real, hi: real)
    requires Within(v, w, hi) && hi >= 0.0
    requires mean > 0.0 && k >= 1.0 && 0.0 <= w <= Times(k, mean)
    ensures 0.0 <= SquaredRatio(v, k, mean) <= hi
  {
    var cap := k * mean;
    SquareOrder(w, cap);
    assert (k * mean) * (k * mean) == (k * k) * (mean * mean);
    assert k * k > 0.0 && mean * mean > 0.0;
    MulOrder(w * w, (k * k) * (mean * mean), hi);
    DivideTwice(v, k * k, mean * mean, hi);
  }

  /** The relative variance of a mean is within the bound of its terms' relative variances. */
  lemma PooledVariance(ts: seq<Term>, sum: real, m: nat, k: nat, hi: real)
    requires Weighted(ts, 0.0, hi) && hi >= 0.0
    requires Weight(ts) <= sum && sum > 0.0 && 1 <= m <= k
    ensures sum / m as real > 0.0
    ensures 0.0 <= SquaredRatio(Variance(ts), k as real, sum / m as real) <= hi
  {
    VarianceBound(ts, hi);
    WeightNonNegative(ts);
    assert sum / (m as real) > 0.0 && 0.0 <= SquaredRatio(Variance(ts), k as real, sum / (m as real)) <= hi by {
      MeanSpread(sum, m as real, k as real);
      ScaledVariance(Variance(ts), Weight(ts), sum / (m as real), k as real, hi);
    }
  }

  /** Larger relative variances on the same weights give a larger variance. */
  lemma {:induction false} VarianceMonotone(a: seq<Term>, b: seq<Term>)
    requires |a| == |b|
    requires forall i :: 0 <= i < |a| ==> a[i].weight == b[i].weight && a[i].x <= b[i].x
    ensures Weight(a) == Weight(b)
    ensures Variance(a) <= Variance(b)
  {
    if a != [] {
      VarianceMonotone(a[..|a| - 1], b[..|b| - 1]);
      var s := a[|a| - 1].weight * a[|a| - 1].weight;
      assert s >= 0.0;
      assert s * a[|a| - 1].x <= s * b[|b| - 1].x;
    }
  }

  lemma DivOrder(v: real, w: real, s: real)
    requires v <= w && s > 0.0
    ensures v / s <= w / s
  {
  }

  lemma ProductPositive(a: real, b: real) returns (s: real)
    requires a > 0.0 && b > 0.0
    ensures s == a * b && s > 0.0
  {
    s := a * b;
  }

  lemma RatioOrder(v: real, w: real, k: real, mean: real)
    requires v <= w && k > 0.0 && mean > 0.0
    ensures SquaredRatio(v, k, mean) <= SquaredRatio(w, k, mean)
  {
    var a := ProductPositive(k, k);
    var b := ProductPositive(mean, mean);
    assert SquaredRatio(v, k, mean) <= SquaredRatio(w, k, mean) by {
      assert v / a / b <= w / a / b by {
        DivOrder(v, w, a);
        DivOrder(v / a, w / a, b);
      }
      assert SquaredRatio(v, k, mean) == v / a / b;
      assert SquaredRatio(w, k, mean) == w / a / b;
    }
  }

  lemma WholeOfItself(k: nat)
    requires k > 0
    ensures k as real / k as real == 1.0
  {
  }
}
