/**
 * `RAGEvaluator.evaluate`: one pass over the cases in input order, three
 * judge metrics per case (faithfulness, contextual recall, answer
 * relevancy), then per-metric averages, a pooled average and the verdict.
 * The judge is not modelled: `judgements[i]` is what the three metrics
 * reported (score and reason) after being measured on case `i`.
 */
module RagEvaluator {
  import opened Base
  import opened Loader

  /** What the three metrics reported for one case. */
  datatype RagJudgement = RagJudgement(
    faithfulness: Measurement, contextualRecall: Measurement, answerRelevancy: Measurement)

  /** One entry of `individual_results`. */
  datatype RagCaseResult = RagCaseResult(
    testCaseId: nat, input: string,
    faithfulness: MetricResult, contextualRecall: MetricResult, answerRelevancy: MetricResult)

  /** The `results` dictionary that `evaluate` returns. */
  datatype RagResults = RagResults(
    totalCases: nat,
    faithfulnessScores: seq<real>,
    contextualRecallScores: seq<real>,
    answerRelevancyScores: seq<real>,
    individualResults: seq<RagCaseResult>,
    averageFaithfulness: real,
    averageContextualRecall: real,
    averageAnswerRelevancy: real,
    overallAverage: real,
    passed: bool)

  /** The verdict rule: the pooled mean and each metric's mean must all reach the threshold. */
  predicate RagVerdict(threshold: real, f: seq<real>, c: seq<real>, a: seq<real>)
  {
    && CalculateAverageScore(f + c + a) >= threshold
    && CalculateAverageScore(f) >= threshold
    && CalculateAverageScore(c) >= threshold
    && CalculateAverageScore(a) >= threshold
  }

  method Evaluate(threshold: real, cases: seq<TestCase>, judgements: seq<RagJudgement>)
    returns (r: RagResults)
    requires |judgements| == |cases|
    // Each case's `context` is read; only a RAG case has one.
    requires forall i | 0 <= i < |cases| :: cases[i].RagTestCase?
    ensures r.totalCases == |cases|
    ensures |r.faithfulnessScores| == |r.contextualRecallScores| == |r.answerRelevancyScores| == |cases|
    ensures forall i | 0 <= i < |cases| ::
              && r.faithfulnessScores[i] == judgements[i].faithfulness.score
              && r.contextualRecallScores[i] == judgements[i].contextualRecall.score
              && r.answerRelevancyScores[i] == judgements[i].answerRelevancy.score
    ensures |r.individualResults| == |cases|
    ensures forall i | 0 <= i < |cases| ::
              && r.individualResults[i].testCaseId == i
              && r.individualResults[i].input == cases[i].input
              && Grades(r.individualResults[i].faithfulness, judgements[i].faithfulness, threshold)
              && Grades(r.individualResults[i].contextualRecall, judgements[i].contextualRecall, threshold)
              && Grades(r.individualResults[i].answerRelevancy, judgements[i].answerRelevancy, threshold)
    ensures r.averageFaithfulness == CalculateAverageScore(r.faithfulnessScores)
    ensures r.averageContextualRecall == CalculateAverageScore(r.contextualRecallScores)
    ensures r.averageAnswerRelevancy == CalculateAverageScore(r.answerRelevancyScores)
    ensures r.overallAverage
         == CalculateAverageScore(r.faithfulnessScores + r.contextualRecallScores + r.answerRelevancyScores)
    ensures |cases| > 0 ==>
              (r.overallAverage
               == (r.averageFaithfulness + r.averageContextualRecall + r.averageAnswerRelevancy) / 3.0)
    ensures r.passed == RagVerdict(threshold, r.faithfulnessScores, r.contextualRecallScores, r.answerRelevancyScores)
    ensures |cases| == 0 ==> (r.passed <==> threshold <= 0.0)
  {
    var faithfulness: seq<real> := [];
    var recall: seq<real> := [];
    var relevancy: seq<real> := [];
    var individual: seq<RagCaseResult> := [];
    var i := 0;
    while i < |cases|
      invariant 0 <= i <= |cases|
      invariant |faithfulness| == |recall| == |relevancy| == |individual| == i
      invariant forall k | 0 <= k < i ::
                  && faithfulness[k] == judgements[k].faithfulness.score
                  && recall[k] == judgements[k].contextualRecall.score
                  && relevancy[k] == judgements[k].answerRelevancy.score
      invariant forall k | 0 <= k < i ::
                  && individual[k].testCaseId == k
                  && individual[k].input == cases[k].input
                  && Grades(individual[k].faithfulness, judgements[k].faithfulness, threshold)
                  && Grades(individual[k].contextualRecall, judgements[k].contextualRecall, threshold)
                  && Grades(individual[k].answerRelevancy, judgements[k].answerRelevancy, threshold)
    {
      var j := judgements[i];
      faithfulness := faithfulness + [j.faithfulness.score];
      recall := recall + [j.contextualRecall.score];
      relevancy := relevancy + [j.answerRelevancy.score];
      var entry := RagCaseResult(
        i, cases[i].input,
        MetricResult(j.faithfulness.score, CheckPassThreshold(threshold, j.faithfulness.score), j.faithfulness.reason),
        MetricResult(j.contextualRecall.score, CheckPassThreshold(threshold, j.contextualRecall.score), j.contextualRecall.reason),
        MetricResult(j.answerRelevancy.score, CheckPassThreshold(threshold, j.answerRelevancy.score), j.answerRelevancy.reason));
      individual := individual + [entry];
      i := i + 1;
    }
    var avgF := CalculateAverageScore(faithfulness);
    var avgC := CalculateAverageScore(recall);
    var avgA := CalculateAverageScore(relevancy);
    var overall := CalculateAverageScore(faithfulness + recall + relevancy);
    var passed := overall >= threshold && avgF >= threshold && avgC >= threshold && avgA >= threshold;
    if |cases| > 0 {
      PooledAverageOfThree(faithfulness, recall, relevancy);
    }
    r := RagResults(|cases|, faithfulness, recall, relevancy, individual, avgF, avgC, avgA, overall, passed);
  }

  /**
   * For the equal-length lists `evaluate` builds, the pooled-mean condition
   * is implied by the three per-metric ones: the verdict is exactly "every
   * metric's mean reaches the threshold".
   */
  lemma VerdictNeedsEveryMetric(threshold: real, f: seq<real>, c: seq<real>, a: seq<real>)
    requires |f| == |c| == |a| > 0
    ensures RagVerdict(threshold, f, c, a) <==>
              && CalculateAverageScore(f) >= threshold
              && CalculateAverageScore(c) >= threshold
              && CalculateAverageScore(a) >= threshold
  {
    PooledAverageOfThree(f, c, a);
  }

  /**
   * A high pooled mean does not rescue a low metric: with threshold 0.7 and
   * one case scoring 0.9 / 0.9 / 0.5, the pooled mean is 2.3 / 3, about
   * 0.767, yet the run fails.
   */
  lemma PooledMeanDoesNotRescueLowMetric()
    ensures CalculateAverageScore([0.9] + [0.9] + [0.5]) >= 0.7
    ensures !RagVerdict(0.7, [0.9], [0.9], [0.5])
  {
    assert [0.9] + [0.9] + [0.5] == [0.9, 0.9, 0.5];
    assert Sum([0.9, 0.9, 0.5]) == 2.3 by {
      assert [0.9, 0.9, 0.5][1..] == [0.9, 0.5];
      assert [0.9, 0.5][1..] == [0.5];
      assert [0.5][1..] == [];
    }
  }

  /** Zero cases: every mean is 0.0, so the run passes exactly when the threshold is at most 0. */
  lemma EmptyRunVerdict(threshold: real)
    ensures RagVerdict(threshold, [], [], []) <==> threshold <= 0.0
  {
    var empty: seq<real> := [];
    assert empty + empty + empty == empty;
  }
}
