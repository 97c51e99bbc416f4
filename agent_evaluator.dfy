/**
 * `AgentEvaluator.evaluate`: one pass over the cases in input order, two
 * judge metrics per case (correctness, answer relevancy), then the two
 * averages, a pooled average and the verdict. `judgements[i]` is what the
 * two metrics reported after being measured on case `i`.
 */
module AgentEvaluator {
  import opened Base
  import opened Loader

  /** What the two metrics reported for one case. */
  datatype AgentJudgement = AgentJudgement(correctness: Measurement, answerRelevancy: Measurement)

  /** One entry of `individual_results`. */
  datatype AgentCaseResult = AgentCaseResult(
    testCaseId: nat, input: string, correctness: MetricResult, answerRelevancy: MetricResult)

  /** The `results` dictionary that `evaluate` returns. */
  datatype AgentResults = AgentResults(
    totalCases: nat,
    correctnessScores: seq<real>,
    answerRelevancyScores: seq<real>,
    individualResults: seq<AgentCaseResult>,
    averageCorrectness: real,
    averageAnswerRelevancy: real,
    overallAverage: real,
    passed: bool)

  /** The verdict rule: the pooled mean and both metric means must reach the threshold. */
  predicate AgentVerdict(threshold: real, c: seq<real>, a: seq<real>)
  {
    && CalculateAverageScore(c + a) >= threshold
    && CalculateAverageScore(c) >= threshold
    && CalculateAverageScore(a) >= threshold
  }

  method Evaluate(threshold: real, cases: seq<TestCase>, judgements: seq<AgentJudgement>)
    returns (r: AgentResults)
    requires |judgements| == |cases|
    // Each case's `expected_output` is read; a chatbot case has none.
    requires forall i | 0 <= i < |cases| :: !cases[i].ChatbotTestCase?
    ensures r.totalCases == |cases|
    ensures |r.correctnessScores| == |r.answerRelevancyScores| == |cases|
    ensures forall i | 0 <= i < |cases| ::
              && r.correctnessScores[i] == judgements[i].correctness.score
              && r.answerRelevancyScores[i] == judgements[i].answerRelevancy.score
    ensures |r.individualResults| == |cases|
    ensures forall i | 0 <= i < |cases| ::
              && r.individualResults[i].testCaseId == i
              && r.individualResults[i].input == cases[i].input
              && Grades(r.individualResults[i].correctness, judgements[i].correctness, threshold)
              && Grades(r.individualResults[i].answerRelevancy, judgements[i].answerRelevancy, threshold)
    ensures r.averageCorrectness == CalculateAverageScore(r.correctnessScores)
    ensures r.averageAnswerRelevancy == CalculateAverageScore(r.answerRelevancyScores)
    ensures r.overallAverage == CalculateAverageScore(r.correctnessScores + r.answerRelevancyScores)
    ensures |cases| > 0 ==>
              (r.overallAverage == (r.averageCorrectness + r.averageAnswerRelevancy) / 2.0)
    ensures r.passed == AgentVerdict(threshold, r.correctnessScores, r.answerRelevancyScores)
    ensures |cases| == 0 ==> (r.passed <==> threshold <= 0.0)
  {
    var correctness: seq<real> := [];
    var relevancy: seq<real> := [];
    var individual: seq<AgentCaseResult> := [];
    var i := 0;
    while i < |cases|
      invariant 0 <= i <= |cases|
      invariant |correctness| == |relevancy| == |individual| == i
      invariant forall k | 0 <= k < i ::
                  && correctness[k] == judgements[k].correctness.score
                  && relevancy[k] == judgements[k].answerRelevancy.score
      invariant forall k | 0 <= k < i ::
                  && individual[k].testCaseId == k
                  && individual[k].input == cases[k].input
                  && Grades(individual[k].correctness, judgements[k].correctness, threshold)
                  && Grades(individual[k].answerRelevancy, judgements[k].answerRelevancy, threshold)
    {
      var j := judgements[i];
      correctness := correctness + [j.correctness.score];
      relevancy := relevancy + [j.answerRelevancy.score];
      var entry := AgentCaseResult(
        i, cases[i].input,
        MetricResult(j.correctness.score, CheckPassThreshold(threshold, j.correctness.score), j.correctness.reason),
        MetricResult(j.answerRelevancy.score, CheckPassThreshold(threshold, j.answerRelevancy.score), j.answerRelevancy.reason));
      individual := individual + [entry];
      i := i + 1;
    }
    var avgC := CalculateAverageScore(correctness);
    var avgA := CalculateAverageScore(relevancy);
    var overall := CalculateAverageScore(correctness + relevancy);
    var passed := overall >= threshold && avgC >= threshold && avgA >= threshold;
    if |cases| > 0 {
      PooledAverageOfTwo(correctness, relevancy);
    }
    r := AgentResults(|cases|, correctness, relevancy, individual, avgC, avgA, overall, passed);
  }

  /**
   * For the equal-length lists `evaluate` builds, the pooled-mean condition
   * is implied by the two per-metric ones.
   */
  lemma VerdictNeedsBothMetrics(threshold: real, c: seq<real>, a: seq<real>)
    requires |c| == |a| > 0
    ensures AgentVerdict(threshold, c, a) <==>
              CalculateAverageScore(c) >= threshold && CalculateAverageScore(a) >= threshold
  {
    PooledAverageOfTwo(c, a);
  }

  /**
   * One low metric fails the run even when the pooled mean clears the bar:
   * with threshold 0.7, correctness 1.0 and relevancy 0.5 pool to 0.75.
   */
  lemma PooledMeanDoesNotRescueLowMetric()
    ensures CalculateAverageScore([1.0] + [0.5]) >= 0.7
    ensures !AgentVerdict(0.7, [1.0], [0.5])
  {
    assert [1.0] + [0.5] == [1.0, 0.5];
    assert Sum([1.0, 0.5]) == 1.5 by {
      assert [1.0, 0.5][1..] == [0.5];
      assert [0.5][1..] == [];
    }
  }

  /** Zero cases: both means are 0.0, so the run passes exactly when the threshold is at most 0. */
  lemma EmptyRunVerdict(threshold: real)
    ensures AgentVerdict(threshold, [], []) <==> threshold <= 0.0
  {
    var empty: seq<real> := [];
    assert empty + empty == empty;
  }
}
