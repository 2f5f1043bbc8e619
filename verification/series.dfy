/** Elementwise arithmetic on sampled series (the numpy array operations the simulator uses). */
module Series {

  /** An all-zero series of length `n` (`np.zeros_like`). */
  function Zeros(n: nat): (z: seq<real>)
    ensures |z| == n
    ensures forall i :: 0 <= i < n ==> z[i] == 0.0
  {
    seq(n, _ => 0.0)
  }

  /** Elementwise sum of two series of equal length. */
  function Add(a: seq<real>, b: seq<real>): (c: seq<real>)
    requires |a| == |b|
    ensures |c| == |a|
    ensures forall i :: 0 <= i < |a| ==> c[i] == a[i] + b[i]
  {
    seq(|a|, i requires 0 <= i < |a| => a[i] + b[i])
  }

  /** Every sample multiplied by `k`. */
  function Scale(k: real, a: seq<real>): (c: seq<real>)
    ensures |c| == |a|
    ensures forall i :: 0 <= i < |a| ==> c[i] == k * a[i]
  {
    seq(|a|, i requires 0 <= i < |a| => k * a[i])
  }

  /** Sum of the samples, added from the first to the last. */
  function Sum(xs: seq<real>): (total: real)
    decreases |xs|
  {
    if |xs| == 0 then 0.0 else Sum(xs[..|xs| - 1]) + xs[|xs| - 1]
  }

  /** The sum of a concatenation is the sum of the sums. */
  lemma {:induction false} SumConcat(a: seq<real>, b: seq<real>)
    ensures Sum(a + b) == Sum(a) + Sum(b)
    decreases |b|
  {
    if |b| == 0 {
      assert a + b == a;
    } else {
      var n := |b| - 1;
      assert (a + b)[..|a + b| - 1] == a + b[..n];
      assert (a + b)[|a + b| - 1] == b[n];
      SumConcat(a, b[..n]);
    }
  }

  /** Scaling every sample by `k` scales the sum by `k`. */
  lemma {:induction false} SumScale(k: real, xs: seq<real>)
    ensures Sum(Scale(k, xs)) == k * Sum(xs)
    decreases |xs|
  {
    if |xs| > 0 {
      var n := |xs| - 1;
      var prefix := Scale(k, xs[..n]);
      assert Scale(k, xs)[..n] == prefix by {
        assert forall j :: 0 <= j < n ==> Scale(k, xs)[..n][j] == prefix[j];
      }
      SumScale(k, xs[..n]);
    }
  }

  /** A series that is `k` times another, sample by sample, is `Scale(k, ...)` of it. */
  lemma ScalePointwise(k: real, a: seq<real>, c: seq<real>)
    requires |c| == |a|
    requires forall i :: 0 <= i < |a| ==> c[i] == k * a[i]
    ensures c == Scale(k, a)
  {
    assert forall i :: 0 <= i < |a| ==> c[i] == Scale(k, a)[i];
  }

  /**
   Equal factors give equal products. Stated on its own because, once the
   concentration formula is unfolded nearby, the solver does not find this
   step by itself within its resource limit.
   */
  lemma MultiplyEqual(k: real, x: real, y: real)
    requires x == y
    ensures k * x == k * y
  {
  }
}
