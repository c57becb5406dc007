/**
 * Exact statistics of a sensor channel's samples: the sum, the mean, the sum
 * of squared deviations (`m2`), the population variance and the z-score,
 * together with the bounded buffer that keeps the newest samples.
 *
 * These are the reference definitions that the running fields of
 * `SensorHistory` (anomaly_detector.py) are proved to agree with.
 */
module Statistics {
  import opened Wrappers

  /** `deque(maxlen=100)`: the number of values a channel's buffer retains. */
  const Capacity: nat := 100

  /** `MIN_SAMPLES_FOR_ZSCORE`: samples a channel needs before it has a z-score. */
  const MinSamplesForZScore: nat := 10

  // ---------------------------------------------------------------------
  // Sums, mean and squared deviations (summed left to right, like `sum`)
  // ---------------------------------------------------------------------

  function Sum(s: seq<real>): real
    decreases |s|
  {
    if s == [] then 0.0 else Sum(s[..|s| - 1]) + s[|s| - 1]
  }

  function SumSq(s: seq<real>): real
    decreases |s|
  {
    if s == [] then 0.0 else SumSq(s[..|s| - 1]) + Square(s[|s| - 1])
  }

  /** Arithmetic mean; 0.0 for no samples, the initial `mean` of a history. */
  function Mean(s: seq<real>): real {
    if s == [] then 0.0 else Sum(s) / (|s| as real)
  }

  /** Sum over `s` of `(x - c) ** 2`. */
  function SumSqDev(s: seq<real>, c: real): real
    decreases |s|
  {
    if s == [] then 0.0
    else SumSqDev(s[..|s| - 1], c) + Square(s[|s| - 1] - c)
  }

  function Square(x: real): real {
    x * x
  }

  /** `sum (x - c) ** 2` written out from `q = sum x ** 2`, `t = sum x` and the count `n`. */
  function Expanded(q: real, t: real, n: real, c: real): real {
    q - 2.0 * c * t + n * Square(c)
  }

  /** The samples' `m2`: squared deviations from their own mean. */
  function M2(s: seq<real>): real {
    SumSqDev(s, Mean(s))
  }

  /** Population variance: 0.0 below two samples, else `m2 / count`. */
  function PopVariance(s: seq<real>): real {
    if |s| < 2 then 0.0 else M2(s) / (|s| as real)
  }

  // ---------------------------------------------------------------------
  // Square root: `math.sqrt` is not part of the model; any function that
  // meets `IsSqrt` on the non-negative reals may be supplied
  // ---------------------------------------------------------------------

  ghost predicate IsSqrt(sqrt: real -> real) {
    && sqrt(0.0) == 0.0
    && forall x: real :: 0.0 <= x ==> 0.0 <= sqrt(x) && sqrt(x) * sqrt(x) == x
  }

  function Abs(x: real): real {
    if x < 0.0 then -x else x
  }

  /**
   * Reference z-score of `v` against the samples `s`: undefined below
   * `MinSamplesForZScore` samples; against a zero standard deviation, 0.0
   * for a value equal to the mean and undefined for any other; otherwise
   * the deviation from the mean in standard deviations.
   */
  function ZScore(s: seq<real>, v: real, sqrt: real -> real): Option<real> {
    if |s| < MinSamplesForZScore then None
    else
      var sd := sqrt(PopVariance(s));
      if sd == 0.0 then (if v == Mean(s) then Some(0.0) else None)
      else Some((v - Mean(s)) / sd)
  }

  // ---------------------------------------------------------------------
  // The bounded buffer
  // ---------------------------------------------------------------------

  /** The newest `Capacity` values of `seen`: what `deque(maxlen=100)` holds. */
  function Window(seen: seq<real>): seq<real> {
    if |seen| <= Capacity then seen else seen[|seen| - Capacity..]
  }

  /** `deque.append` with maxlen `Capacity`: a full buffer drops its oldest value. */
  function DequeAppend(q: seq<real>, v: real): seq<real> {
    if |q| >= Capacity then q[|q| + 1 - Capacity..] + [v] else q + [v]
  }

  /**
   * The samples a history's `count`, `mean` and `m2` describe. When
   * `maxSamples` is at most the buffer's capacity this is the retained
   * window; otherwise the buffer never fills up to `maxSamples`, the
   * one-pass update never stops, and the statistics cover every value seen.
   */
  function Basis(seen: seq<real>, maxSamples: int): seq<real> {
    if maxSamples <= Capacity then Window(seen) else seen
  }

  // ---------------------------------------------------------------------
  // Algebra on plain reals, used by the lemmas below
  // ---------------------------------------------------------------------

  lemma MulDivCancel(a: real, n: real)
    requires n != 0.0
    ensures n * (a / n) == a
  {
  }

  lemma SquareNonneg(d: real)
    ensures Square(d) >= 0.0
  {
    assert Square(d) == d * d;
  }

  lemma SquareZero(d: real)
    requires d == 0.0
    ensures Square(d) == 0.0
  {
  }

  /** One step of expanding the square, over the totals before (`d`, `q`, `t`, `n`) and after (`dd`, `qq`, `tt`, `nn`) adding `x`. */
  lemma ExpandStep(dd: real, qq: real, tt: real, nn: real, d: real, q: real, t: real, n: real, x: real, c: real)
    requires d == Expanded(q, t, n, c)
    requires dd == d + Square(x - c) && qq == q + Square(x) && tt == t + x && nn == n + 1.0
    ensures dd == Expanded(qq, tt, nn, c)
  {
    assert Square(x - c) == (x - c) * (x - c) && Square(x) == x * x && Square(c) == c * c;
  }

  /** The mean update: `m + (v - m) / (n + 1)` is the mean of `n` samples of mean `m` together with `v`. */
  lemma MeanUpdate(total: real, count: real, n: real, m: real, v: real)
    requires n >= 0.0 && total == n * m + v && count == n + 1.0
    ensures total / count == m + (v - m) / (n + 1.0)
  {
    assert (v - m) / (n + 1.0) * (n + 1.0) == v - m;
  }

  /**
   * The `m2` update: with `a` and `b` the expanded squared deviations of the
   * samples before and after adding `v`, from the old mean `m` and the new
   * mean `m'` respectively, `b == a + (v - m) * (v - m')`.
   */
  lemma M2Update(a: real, b: real, q: real, t: real, n: real, m: real, v: real, m': real)
    requires n >= 0.0
    requires t == n * m
    requires (n + 1.0) * m' == n * m + v
    requires a == Expanded(q, t, n, m)
    requires b == Expanded(q + Square(v), t + v, n + 1.0, m')
    ensures b == a + (v - m) * (v - m')
  {
    assert Square(m) == m * m && Square(m') == m' * m' && Square(v) == v * v;
  }

  lemma MeanTimesCount(n: real, m: real, v: real, m': real)
    requires n >= 0.0 && m' == m + (v - m) / (n + 1.0)
    ensures (n + 1.0) * m' == n * m + v
  {
    assert (v - m) / (n + 1.0) * (n + 1.0) == v - m;
  }

  /** For a positive `sd`, `|z| > t` exactly when `|z * sd| > t * sd`. */
  lemma ScaleExceeds(z: real, sd: real, d: real, t: real)
    requires sd > 0.0 && z * sd == d
    ensures Abs(z) > t <==> Abs(d) > t * sd
  {
  }

  // ---------------------------------------------------------------------
  // Lemmas on the reference statistics
  // ---------------------------------------------------------------------

  lemma SumAppend(s: seq<real>, v: real)
    ensures Sum(s + [v]) == Sum(s) + v
    ensures SumSq(s + [v]) == SumSq(s) + Square(v)
  {
    assert (s + [v])[..|s|] == s;
  }

  /** `count * mean == sum`, for every sample including the empty one. */
  lemma SumIsCountTimesMean(s: seq<real>)
    ensures Sum(s) == (|s| as real) * Mean(s)
  {
    if s != [] {
      MulDivCancel(Sum(s), |s| as real);
    }
  }

  /** Squared deviations are never negative in total. */
  lemma {:induction false} SumSqDevNonneg(s: seq<real>, c: real)
    ensures SumSqDev(s, c) >= 0.0
    decreases |s|
  {
    if s != [] {
      SumSqDevNonneg(s[..|s| - 1], c);
      SquareNonneg(s[|s| - 1] - c);
    }
  }

  /** Expanding the square: `sum (x-c)^2 == sum x^2 - 2c sum x + n c^2`. */
  lemma {:induction false} SumSqDevExpand(s: seq<real>, c: real)
    ensures SumSqDev(s, c) == Expanded(SumSq(s), Sum(s), |s| as real, c)
    decreases |s|
  {
    if s != [] {
      var p := s[..|s| - 1];
      SumSqDevExpand(p, c);
      ExpandStep(SumSqDev(s, c), SumSq(s), Sum(s), |s| as real,
                 SumSqDev(p, c), SumSq(p), Sum(p), |p| as real, s[|s| - 1], c);
    }
  }

  /** Adding `v` moves the mean by `(v - mean) / (count + 1)` (anomaly_detector.py:100-102). */
  lemma MeanAppend(s: seq<real>, v: real)
    ensures Mean(s + [v]) == Mean(s) + (v - Mean(s)) / ((|s| + 1) as real)
  {
    SumAppend(s, v);
    SumIsCountTimesMean(s);
    MeanUpdate(Sum(s + [v]), |s + [v]| as real, |s| as real, Mean(s), v);
  }

  /** `SumSqDevExpand` after appending `v`, in terms of the totals before it. */
  lemma SumSqDevAppendExpand(s: seq<real>, v: real, c: real)
    ensures SumSqDev(s + [v], c) == Expanded(SumSq(s) + Square(v), Sum(s) + v, |s| as real + 1.0, c)
  {
    SumSqDevExpand(s + [v], c);
    SumAppend(s, v);
  }

  /** The appended mean, scaled by the new count: `(n + 1) * mean' == n * mean + v`. */
  lemma MeanAppendScaled(s: seq<real>, v: real)
    ensures (|s| as real + 1.0) * Mean(s + [v]) == (|s| as real) * Mean(s) + v
  {
    MeanAppend(s, v);
    MeanTimesCount(|s| as real, Mean(s), v, Mean(s + [v]));
  }

  /**
   * The `m2` update for given centres: when `m` is the mean of `s` and `m'`
   * the mean of `s + [v]`, written without division.
   */
  lemma SumSqDevAppendAt(s: seq<real>, v: real, m: real, m': real)
    requires Sum(s) == (|s| as real) * m
    requires (|s| as real + 1.0) * m' == (|s| as real) * m + v
    ensures SumSqDev(s + [v], m') == SumSqDev(s, m) + (v - m) * (v - m')
  {
    SumSqDevExpand(s, m);
    SumSqDevAppendExpand(s, v, m');
    M2Update(SumSqDev(s, m), SumSqDev(s + [v], m'), SumSq(s), Sum(s), |s| as real, m, v, m');
  }

  /** Welford's `m2` update (anomaly_detector.py:103-104) is exact. */
  lemma M2Append(s: seq<real>, v: real)
    ensures M2(s + [v]) == M2(s) + (v - Mean(s)) * (v - Mean(s + [v]))
  {
    MeanAppendScaled(s, v);
    SumIsCountTimesMean(s);
    SumSqDevAppendAt(s, v, Mean(s), Mean(s + [v]));
  }

  /**
   * Welford's one-pass step (anomaly_detector.py:100-104) is exact: when the
   * running `mean` and `m2` are those of `s`, the updated fields `mean'` and
   * `m2'` are the mean and `m2` of `s + [v]`.
   */
  lemma WelfordFields(s: seq<real>, v: real, mean: real, m2: real, mean': real, m2': real)
    requires mean == Mean(s) && m2 == M2(s)
    requires mean' == mean + (v - mean) / ((|s| + 1) as real)
    requires m2' == m2 + (v - mean) * (v - mean')
    ensures mean' == Mean(s + [v]) && m2' == M2(s + [v])
  {
    MeanAppend(s, v);
    M2Append(s, v);
  }

  /** A sample whose values all equal `c` has mean `c` and no spread. */
  lemma {:induction false} ConstantStatistics(s: seq<real>, c: real)
    requires s != []
    requires forall i | 0 <= i < |s| :: s[i] == c
    ensures Mean(s) == c
    ensures M2(s) == 0.0
    ensures PopVariance(s) == 0.0
  {
    SumOfConstant(s, c);
    MulDivCancel(c, |s| as real);
    SumSqDevOfConstant(s, c);
  }

  lemma {:induction false} SumOfConstant(s: seq<real>, c: real)
    requires forall i | 0 <= i < |s| :: s[i] == c
    ensures Sum(s) == (|s| as real) * c
    decreases |s|
  {
    if s != [] {
      var p := s[..|s| - 1];
      assert forall i | 0 <= i < |p| :: p[i] == c by {
        forall i | 0 <= i < |p| ensures p[i] == c { assert p[i] == s[i]; }
      }
      SumOfConstant(p, c);
    }
  }

  lemma {:induction false} SumSqDevOfConstant(s: seq<real>, c: real)
    requires forall i | 0 <= i < |s| :: s[i] == c
    ensures SumSqDev(s, c) == 0.0
    decreases |s|
  {
    if s != [] {
      var p := s[..|s| - 1];
      assert forall i | 0 <= i < |p| :: p[i] == c by {
        forall i | 0 <= i < |p| ensures p[i] == c { assert p[i] == s[i]; }
      }
      SumSqDevOfConstant(p, c);
      SquareZero(s[|s| - 1] - c);
    }
  }

  /** The population variance is never negative, and is zero below two samples. */
  lemma PopVarianceNonneg(s: seq<real>)
    ensures PopVariance(s) >= 0.0
    ensures |s| < 2 ==> PopVariance(s) == 0.0
  {
    SumSqDevNonneg(s, Mean(s));
  }

  /** Under `IsSqrt`, the standard deviation is zero exactly when the variance is. */
  lemma SqrtZeroIff(sqrt: real -> real, x: real)
    requires IsSqrt(sqrt)
    requires 0.0 <= x
    ensures 0.0 <= sqrt(x)
    ensures sqrt(x) == 0.0 <==> x == 0.0
  {
    assert 0.0 <= sqrt(x) && sqrt(x) * sqrt(x) == x;
  }

  /**
   * The z-score as anomaly_detector.py:130-139 computes it: undefined below
   * ten samples; with a zero standard deviation, 0.0 for a value equal to
   * the mean and undefined for any other; otherwise defined, and the
   * deviation from the mean is the z-score times the standard deviation.
   */
  lemma ZScoreCases(s: seq<real>, v: real, sqrt: real -> real)
    requires IsSqrt(sqrt)
    ensures |s| < MinSamplesForZScore ==> ZScore(s, v, sqrt) == None
    ensures |s| >= MinSamplesForZScore && PopVariance(s) == 0.0 ==>
              ZScore(s, v, sqrt) == if v == Mean(s) then Some(0.0) else None
    ensures |s| >= MinSamplesForZScore && PopVariance(s) != 0.0 ==>
              && ZScore(s, v, sqrt).Some?
              && sqrt(PopVariance(s)) > 0.0
              && ZScore(s, v, sqrt).value * sqrt(PopVariance(s)) == v - Mean(s)
  {
    PopVarianceNonneg(s);
    SqrtZeroIff(sqrt, PopVariance(s));
    var sd := sqrt(PopVariance(s));
    if sd != 0.0 {
      MulDivCancel(v - Mean(s), sd);
    }
  }

  /** Ten or more samples of one value: the z-score of that value is 0.0 and of any other is undefined. */
  lemma ZScoreOfConstant(s: seq<real>, c: real, v: real, sqrt: real -> real)
    requires IsSqrt(sqrt)
    requires |s| >= MinSamplesForZScore
    requires forall i | 0 <= i < |s| :: s[i] == c
    ensures ZScore(s, v, sqrt) == if v == c then Some(0.0) else None
  {
    ConstantStatistics(s, c);
  }

  /**
   * A defined, non-zero-spread z-score exceeds a threshold `t` in absolute
   * value exactly when the value lies more than `t` standard deviations
   * from the mean.
   */
  lemma ZScoreExceedsIff(s: seq<real>, v: real, sqrt: real -> real, t: real)
    requires IsSqrt(sqrt)
    requires |s| >= MinSamplesForZScore && PopVariance(s) != 0.0
    ensures ZScore(s, v, sqrt).Some?
    ensures Abs(ZScore(s, v, sqrt).value) > t <==> Abs(v - Mean(s)) > t * sqrt(PopVariance(s))
  {
    ZScoreCases(s, v, sqrt);
    ScaleExceeds(ZScore(s, v, sqrt).value, sqrt(PopVariance(s)), v - Mean(s), t);
  }

  /** The window is the newest `min(|seen|, Capacity)` values of `seen`, in order. */
  lemma WindowIsNewest(seen: seq<real>)
    ensures |Window(seen)| == if |seen| <= Capacity then |seen| else Capacity
    ensures forall k | 0 <= k < |Window(seen)| :: Window(seen)[k] == seen[|seen| - |Window(seen)| + k]
  {
  }

  /** Appending to the values seen appends to the window, evicting the oldest when full. */
  lemma WindowAppend(seen: seq<real>, v: real)
    ensures Window(seen + [v]) == DequeAppend(Window(seen), v)
  {
    if |seen| >= Capacity {
      assert (seen + [v])[|seen| + 1 - Capacity..] == seen[|seen| - Capacity..][1..] + [v];
    }
  }

  /** While the buffer is below `maxSamples`, the statistics basis grows by exactly the new value. */
  lemma BasisAppendBelow(seen: seq<real>, maxSamples: int, v: real)
    requires |Window(seen)| < maxSamples
    ensures Basis(seen + [v], maxSamples) == Basis(seen, maxSamples) + [v]
  {
  }

  /** Once the buffer has reached `maxSamples`, the statistics basis is the retained window. */
  lemma BasisAtCapacity(seen: seq<real>, maxSamples: int, v: real)
    requires |Window(seen)| >= maxSamples
    ensures Basis(seen + [v], maxSamples) == Window(seen + [v])
  {
  }
}
