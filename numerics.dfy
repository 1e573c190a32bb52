/**
 * Exact-real stand-ins for the NumPy helpers the simulator uses:
 * `np.ceil`, `np.linspace`, `np.sum` and element-wise scaling.
 */
module Numerics {

  /** `np.ceil` on an exact real: the least integer that is not below `x`. */
  function Ceil(x: real): (r: int)
    ensures r as real - 1.0 < x <= r as real
  {
    -((-x).Floor)
  }

  /** `np.ceil` gives a count that `np.linspace` accepts exactly when `x > -1`. */
  lemma CeilNonNegative(x: real)
    ensures Ceil(x) >= 0 <==> x > -1.0
  {
  }

  /** No integer at or above `x` is below `Ceil(x)`. */
  lemma CeilLeast(x: real, n: int)
    requires x <= n as real
    ensures Ceil(x) <= n
  {
  }

  /** `s * k`, element by element. */
  function Scale(s: seq<real>, k: real): (r: seq<real>)
    ensures |r| == |s|
    ensures forall i :: 0 <= i < |s| ==> r[i] == s[i] * k
  {
    seq(|s|, i requires 0 <= i < |s| => s[i] * k)
  }

  /** Scaling by `k` turns an even step `d` into an even step `d * k`. */
  lemma ScaleKeepsSteps(s: seq<real>, k: real, d: real)
    requires forall i :: 0 <= i < |s| - 1 ==> s[i + 1] - s[i] == d
    ensures forall i :: 0 <= i < |s| - 1 ==> Scale(s, k)[i + 1] - Scale(s, k)[i] == d * k
  {
    var r := Scale(s, k);
    forall i | 0 <= i < |s| - 1 ensures r[i + 1] - r[i] == d * k {
      assert r[i + 1] - r[i] == (s[i + 1] - s[i]) * k;
    }
  }

  /** Scaling a concatenation scales each part. */
  lemma ScaleAppend(a: seq<real>, b: seq<real>, k: real)
    ensures Scale(a + b, k) == Scale(a, k) + Scale(b, k)
  {
    var l, r := Scale(a + b, k), Scale(a, k) + Scale(b, k);
    assert forall i :: 0 <= i < |l| ==> l[i] == r[i];
  }

  /** `np.sum`, accumulated from the first element to the last. */
  function Sum(s: seq<real>): real
  {
    if s == [] then 0.0 else Sum(s[..|s| - 1]) + s[|s| - 1]
  }

  /** No negative entry, no negative sum. */
  lemma {:induction false} SumNonNegative(s: seq<real>)
    requires forall i :: 0 <= i < |s| ==> s[i] >= 0.0
    ensures Sum(s) >= 0.0
  {
    if s != [] {
      SumNonNegative(s[..|s| - 1]);
    }
  }

  /** The arithmetic progression `a, a + d, ..., a + (n - 1) * d`. */
  function Progression(a: real, d: real, n: nat): (r: seq<real>)
    ensures |r| == n
    ensures forall i :: 0 <= i < n ==> r[i] == a + i as real * d
  {
    seq(n, i requires 0 <= i < n => a + i as real * d)
  }

  /**
   * `np.linspace(start, stop, num)` with its default `endpoint=True`:
   * `num` evenly spaced values, the last one set to `stop` exactly.
   */
  function Linspace(start: real, stop: real, num: nat): (r: seq<real>)
    ensures |r| == num
    ensures num >= 1 ==> r[0] == start
    ensures num >= 2 ==> r[num - 1] == stop
    ensures num >= 2 ==> forall i :: 0 <= i < num - 1 ==>
      r[i + 1] - r[i] == (stop - start) / (num - 1) as real
  {
    if num == 0 then []
    else if num == 1 then [start]
    else
      var step := (stop - start) / (num - 1) as real;
      LastStepReachesStop(start, stop, num);
      seq(num, i requires 0 <= i < num => if i == num - 1 then stop else start + i as real * step)
  }

  lemma LastStepReachesStop(start: real, stop: real, num: nat)
    requires num >= 2
    ensures start + (num - 1) as real * ((stop - start) / (num - 1) as real) == stop
  {
  }

  /** A linspace with at least two points is the progression with step `(stop - start) / (num - 1)`. */
  lemma {:induction false} LinspaceIsProgression(start: real, stop: real, num: nat)
    requires num >= 2
    ensures Linspace(start, stop, num) == Progression(start, (stop - start) / (num - 1) as real, num)
  {
    var step := (stop - start) / (num - 1) as real;
    LastStepReachesStop(start, stop, num);
    var l, p := Linspace(start, stop, num), Progression(start, step, num);
    assert forall i :: 0 <= i < num ==> l[i] == p[i];
  }

  lemma {:induction false} SumAppend(a: seq<real>, b: seq<real>)
    ensures Sum(a + b) == Sum(a) + Sum(b)
    decreases |b|
  {
    if b == [] {
      assert a + b == a;
    } else {
      var b' := b[..|b| - 1];
      assert (a + b)[..|a + b| - 1] == a + b';
      SumAppend(a, b');
    }
  }

  /** Scaling commutes with summing: `np.sum(s * k) == np.sum(s) * k`. */
  lemma {:induction false} SumScale(s: seq<real>, k: real)
    ensures Sum(Scale(s, k)) == Sum(s) * k
    decreases |s|
  {
    if s != [] {
      var s' := s[..|s| - 1];
      var l, r := Scale(s, k)[..|s| - 1], Scale(s', k);
      assert |l| == |r| && forall i :: 0 <= i < |l| ==> l[i] == r[i];
      assert l == r;
      SumScale(s', k);
      calc {
        Sum(Scale(s, k));
        Sum(Scale(s', k)) + s[|s| - 1] * k;
        Sum(s') * k + s[|s| - 1] * k;
        (Sum(s') + s[|s| - 1]) * k;
      }
    }
  }

  /** Extending a prefix by one element adds that element, scaled, to the scaled sum. */
  lemma SumScalePrefix(s: seq<real>, i: nat, k: real)
    requires 0 < i <= |s|
    ensures Sum(Scale(s[..i], k)) == Sum(Scale(s[..i - 1], k)) + s[i - 1] * k
  {
    var whole, shorter := Scale(s[..i], k), Scale(s[..i - 1], k);
    assert whole[..i - 1] == shorter by {
      assert forall j :: 0 <= j < i - 1 ==> whole[..i - 1][j] == shorter[j];
    }
  }

  /** Scaling twice scales the sum by both factors. */
  lemma SumScaleTwice(s: seq<real>, a: real, b: real)
    ensures Sum(Scale(Scale(s, a), b)) == Sum(s) * a * b
  {
    SumScale(Scale(s, a), b);
    SumScale(s, a);
  }

  /** Gauss: the progression sums to `n * a + d * n * (n - 1) / 2`. */
  lemma {:induction false} SumProgression(a: real, d: real, n: nat)
    ensures Sum(Progression(a, d, n)) == n as real * a + d * (n as real * (n as real - 1.0)) / 2.0
    decreases n
  {
    if n > 0 {
      assert Progression(a, d, n)[..n - 1] == Progression(a, d, n - 1);
      SumProgression(a, d, n - 1);
    }
  }

  /** A linspace with at least two points sums to `num * (start + stop) / 2`. */
  lemma {:induction false} SumLinspace(start: real, stop: real, num: nat)
    requires num >= 2
    ensures Sum(Linspace(start, stop, num)) == num as real * (start + stop) / 2.0
  {
    var step := (stop - start) / (num - 1) as real;
    LinspaceIsProgression(start, stop, num);
    SumProgression(start, step, num);
    LastStepReachesStop(start, stop, num);
    var n := num as real;
    calc {
      n * start + step * (n * (n - 1.0)) / 2.0;
      n * start + n * ((n - 1.0) * step) / 2.0;
      n * start + n * (stop - start) / 2.0;
      n * (start + stop) / 2.0;
    }
  }

  /**
   * The number of iterations of `while k * dt < limit` that start from `k = 0`
   * and add one step each time: the least `m` with `m * dt >= limit`.
   */
  function StepCount(limit: real, dt: real): (m: nat)
    requires dt > 0.0 && limit >= 0.0
    ensures limit <= m as real * dt
    ensures m == 0 || (m - 1) as real * dt < limit
  {
    CeilOfQuotient(limit, dt);
    Ceil(limit / dt)
  }

  lemma CeilOfQuotient(limit: real, dt: real)
    requires dt > 0.0 && limit >= 0.0
    ensures Ceil(limit / dt) >= 0
    ensures limit <= Ceil(limit / dt) as real * dt
    ensures Ceil(limit / dt) == 0 || (Ceil(limit / dt) - 1) as real * dt < limit
  {
    var x := limit / dt;
    var c := Ceil(x);
    assert x * dt == limit;
    assert (c - 1) as real < x;
    assert (c - 1) as real * dt < x * dt;
    assert x * dt <= c as real * dt;
    assert (Ceil(limit / dt) - 1) as real * dt < limit;
  }

  /** The clock after `k` steps of `dt` from 0, summed one step at a time as a simulation loop does. */
  function Elapsed(k: nat, dt: real): real
  {
    if k == 0 then 0.0 else Elapsed(k - 1, dt) + dt
  }

  /** Summing `k` steps of `dt` gives `k * dt`. */
  lemma {:induction false} ElapsedIsMultiple(k: nat, dt: real)
    ensures Elapsed(k, dt) == k as real * dt
  {
    if k > 0 {
      ElapsedIsMultiple(k - 1, dt);
      assert k as real * dt == (k - 1) as real * dt + dt;
    }
  }

  /** The loop guard `elapsed < limit` holds exactly for the first `StepCount` values of `k`. */
  lemma StepBelowLimit(limit: real, dt: real, k: nat)
    requires dt > 0.0 && limit >= 0.0
    ensures k < StepCount(limit, dt) <==> Elapsed(k, dt) < limit
  {
    ElapsedIsMultiple(k, dt);
    var m := StepCount(limit, dt);
    if k < m {
      assert k as real <= (m - 1) as real;
      assert k as real * dt <= (m - 1) as real * dt;
    } else {
      assert k as real * dt >= m as real * dt;
    }
  }
}
