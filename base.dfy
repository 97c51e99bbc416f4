/**
 * The helpers every evaluator inherits from `BaseEvaluator`: the arithmetic
 * mean of a score list (0.0 for an empty list) and the higher-is-better pass
 * rule `score >= threshold`. Scores are exact reals, so the mean is the
 * mathematical one rather than a floating-point approximation.
 */
module Base {

  /** The threshold an evaluator gets when its constructor is given none. */
  const DefaultThreshold: real := 0.7

  /** What a judge metric holds after `measure()`: its `score` and its `reason`. */
  datatype Measurement = Measurement(score: real, reason: string)

  /** The `score` / `passed` / `reason` entry of a per-case record. */
  datatype MetricResult = MetricResult(score: real, passed: bool, reason: string)

  /**
   * `sum(scores)`. Python adds from the left, `((0 + s0) + s1) + ...`; this
   * recursion groups to the right, which over exact reals is the same value.
   */
  function Sum(scores: seq<real>): (total: real)
  {
    if |scores| == 0 then 0.0 else scores[0] + Sum(scores[1..])
  }

  /** `calculate_average_score`: the mean of `scores`, and 0.0 when there are none. */
  function CalculateAverageScore(scores: seq<real>): (r: real)
    ensures |scores| == 0 ==> r == 0.0
    ensures |scores| > 0 ==> r * (|scores| as real) == Sum(scores)
  {
    if |scores| == 0 then 0.0 else Sum(scores) / (|scores| as real)
  }

  /** `check_pass_threshold`: higher is better, and the threshold itself passes. */
  predicate CheckPassThreshold(threshold: real, score: real)
  {
    score >= threshold
  }

  /** `m` records the judge's `measured` score and reason, graded with `check_pass_threshold`. */
  predicate Grades(m: MetricResult, measured: Measurement, threshold: real)
  {
    m.score == measured.score && m.reason == measured.reason
    && (m.passed <==> CheckPassThreshold(threshold, measured.score))
  }

  lemma ThresholdItselfPasses(threshold: real)
    ensures CheckPassThreshold(threshold, threshold)
    ensures forall score :: CheckPassThreshold(threshold, score) <==> score >= threshold
  {
  }

  lemma {:induction false} SumConcat(a: seq<real>, b: seq<real>)
    ensures Sum(a + b) == Sum(a) + Sum(b)
  {
    if |a| == 0 {
      assert a + b == b;
    } else {
      assert (a + b)[1..] == a[1..] + b;
      SumConcat(a[1..], b);
    }
  }

  /** Removing the element at `j` takes exactly that element out of the sum. */
  lemma SumRemove(s: seq<real>, j: nat)
    requires j < |s|
    ensures Sum(s) == s[j] + Sum(s[..j] + s[j + 1..])
  {
    assert s == s[..j] + s[j..];
    SumConcat(s[..j], s[j..]);
    SumConcat(s[..j], s[j + 1..]);
  }

  /** Removing the element at `j` takes exactly one copy of it out of the multiset. */
  lemma MultisetRemove(s: seq<real>, j: nat)
    requires j < |s|
    ensures multiset(s[..j] + s[j + 1..]) == multiset(s) - multiset{s[j]}
  {
    assert s == s[..j] + [s[j]] + s[j + 1..];
    assert multiset(s) == multiset(s[..j]) + multiset{s[j]} + multiset(s[j + 1..]);
  }

  /** The sum, and so the mean, does not depend on the order of the scores. */
  lemma {:induction false} SumPermutation(a: seq<real>, b: seq<real>)
    requires multiset(a) == multiset(b)
    ensures Sum(a) == Sum(b)
    decreases |a|
  {
    if |a| == 0 {
      assert |b| == |multiset(b)| == 0;
    } else {
      var x := a[0];
      assert x in multiset(b);
      var j :| 0 <= j < |b| && b[j] == x;
      MultisetRemove(a, 0);
      MultisetRemove(b, j);
      assert a[..0] + a[1..] == a[1..];
      SumPermutation(a[1..], b[..j] + b[j + 1..]);
      SumRemove(b, j);
    }
  }

  lemma AveragePermutation(a: seq<real>, b: seq<real>)
    requires multiset(a) == multiset(b)
    ensures CalculateAverageScore(a) == CalculateAverageScore(b)
  {
    assert |a| == |multiset(a)| == |multiset(b)| == |b|;
    SumPermutation(a, b);
  }

  lemma {:induction false} SumBounds(s: seq<real>, lo: real, hi: real)
    requires forall i | 0 <= i < |s| :: lo <= s[i] <= hi
    ensures (|s| as real) * lo <= Sum(s) <= (|s| as real) * hi
  {
    if |s| > 0 {
      SumBounds(s[1..], lo, hi);
    }
  }

  /** A non-empty list whose scores lie in [lo, hi] has its mean in [lo, hi] too. */
  lemma AverageBounds(s: seq<real>, lo: real, hi: real)
    requires |s| > 0
    requires forall i | 0 <= i < |s| :: lo <= s[i] <= hi
    ensures lo <= CalculateAverageScore(s) <= hi
  {
    SumBounds(s, lo, hi);
    var n := |s| as real;
    var avg := CalculateAverageScore(s);
    assert avg * n == Sum(s);
    assert n * lo <= n * avg <= n * hi;
  }

  /** Pooling two lists of equal, positive length averages their two means. */
  lemma PooledAverageOfTwo(a: seq<real>, b: seq<real>)
    requires |a| == |b| > 0
    ensures CalculateAverageScore(a + b)
         == (CalculateAverageScore(a) + CalculateAverageScore(b)) / 2.0
  {
    SumConcat(a, b);
    var n := |a| as real;
    assert |a + b| as real == 2.0 * n;
    var x, y := CalculateAverageScore(a), CalculateAverageScore(b);
    assert x * n == Sum(a) && y * n == Sum(b);
    var p := CalculateAverageScore(a + b);
    assert p * (2.0 * n) == Sum(a) + Sum(b);
    assert p * (2.0 * n) == ((x + y) / 2.0) * (2.0 * n);
  }

  /** Pooling three lists of equal, positive length averages their three means. */
  lemma PooledAverageOfThree(a: seq<real>, b: seq<real>, c: seq<real>)
    requires |a| == |b| == |c| > 0
    ensures CalculateAverageScore(a + b + c)
         == (CalculateAverageScore(a) + CalculateAverageScore(b) + CalculateAverageScore(c)) / 3.0
  {
    SumConcat(a, b);
    SumConcat(a + b, c);
    var n := |a| as real;
    assert |a + b + c| as real == 3.0 * n;
    var x, y, z := CalculateAverageScore(a), CalculateAverageScore(b), CalculateAverageScore(c);
    assert x * n == Sum(a) && y * n == Sum(b) && z * n == Sum(c);
    var p := CalculateAverageScore(a + b + c);
    assert p * (3.0 * n) == Sum(a) + Sum(b) + Sum(c);
    assert p * (3.0 * n) == ((x + y + z) / 3.0) * (3.0 * n);
  }
}
