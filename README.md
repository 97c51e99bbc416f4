# Score aggregation and verdicts of an LLM evaluation framework, in Dafny

This project models the decision logic of a framework that grades three kinds of LLM-backed systems with automated judge metrics. The systems are retrieval-augmented generation (RAG), agents and chatbots. The model then proves properties of that logic.

- **Base** (`base.dfy`): the helpers every evaluator inherits. `CalculateAverageScore` gives the mean of a score list, and 0.0 for an empty one. `CheckPassThreshold` is the higher-is-better rule `score >= threshold`. Lemmas show that the mean ignores order, stays within the bounds of its scores, and that pooling equal-length lists averages their means.
- **Loader** (`loader.dfy`): the three test-case models as one tagged datatype. The module converts already-decoded dataset records into test cases, in order. A missing `test_cases` key yields no cases, and the first record that fails validation is reported. `validate_dataset` is modelled as a scanning loop with an early error.
- **RagEvaluator**, **AgentEvaluator** and **ChatbotEvaluator** (`rag_evaluator.dfy`, `agent_evaluator.dfy`, `chatbot_evaluator.dfy`): each `evaluate` is a method with a loop over the cases. The loop appends each judge score to its metric's list and builds one record per case. After the loop come the averages and the verdict.
  - RAG and Agent pass only when the pooled mean and every per-metric mean reach the threshold.
  - Chatbot uses the lower-is-better rule `score <= toxicity_threshold`, with a default of 0.0. It collects the toxic cases in input order. One toxic case vetoes the run and sets `critical_failure`.
- **RunEvaluation** (`run_evaluation.dfy`): the process exit codes.
  - Each system run returns 0 when it passed and 1 otherwise, and a chatbot critical failure forces 1.
  - "all" runs the three systems and turns an exception in one of them into a 1. It returns the largest code.
  - `main` returns 1 when the API key is missing, 1 on an unexpected exception, and 130 on a keyboard interrupt.

The judge is not part of the model. A metric's `measure()` runs a model call, after which the metric's `score` and `reason` are read; the model replaces this with an input. Each evaluator takes `judgements`, a sequence aligned with the cases, holding one `Measurement(score, reason)` per metric. Scores are exact `real`s.

An evaluator object stores its thresholds and the judge metric objects it builds in its constructor (`src/evaluators/base.py:73-86`, `src/evaluators/rag_evaluator.py:33-44`, `src/evaluators/agent_evaluator.py:32-48`, `src/evaluators/chatbot_evaluator.py:35-44`). The metrics are the judge, which enters as `judgements`; the thresholds are parameters of `Evaluate`. The defaults are the constants `Base.DefaultThreshold` (0.7) and `ChatbotEvaluator.DefaultToxicityThreshold` (0.0).

Two facts about the code shape the model:
- A dataset without a `test_cases` key loads as an empty list (`src/data/loader.py:76`).
- The chatbot's toxicity rule `score <= toxicity_threshold` is written inline (`src/evaluators/chatbot_evaluator.py:84`); it does not go through `check_pass_threshold`.

## Model

| member | source | states |
|---|---|---|
| Base.CalculateAverageScore | src/evaluators/base.py:101-113 | the empty list averages to 0.0; otherwise the average times the length is the sum |
| Base.ThresholdItselfPasses | src/evaluators/base.py:115-125 | a score passes exactly when it is at least the threshold, so the threshold itself passes |
| Base.AveragePermutation | src/evaluators/base.py:113 | reordering a score list does not change its average |
| Base.SumPermutation | src/evaluators/base.py:113 | reordering a score list does not change its sum |
| Base.AverageBounds | src/evaluators/base.py:111-113 | when every score of a non-empty list lies in [lo, hi], so does the average |
| Base.PooledAverageOfTwo | src/evaluators/agent_evaluator.py:113-117 | the mean of two concatenated lists of equal, positive length is the mean of their two means |
| Base.PooledAverageOfThree | src/evaluators/rag_evaluator.py:124-129 | the mean of three concatenated lists of equal, positive length is the mean of their three means |
| Base.SumConcat | src/evaluators/base.py:113 | the sum of a concatenation is the sum of the parts |
| Loader.FromRecord | src/data/loader.py:10-28 | a record fails to convert exactly when a field the requested kind declares is missing or has the wrong type; a converted record yields a case of that kind whose `input`, `actual_output`, and, where declared, `expected_output` and `context` are the record's |
| Loader.RecordRoundTrip | src/data/loader.py:10-28 | a test case written as a record with the JSON field names converts back to itself |
| Loader.ConvertRecords | src/data/loader.py:77 | conversion succeeds exactly when every record validates; the result keeps count and order; a failure names the first record that fails |
| Loader.LoadDataset | src/data/loader.py:65-105 | a missing `test_cases` key gives an empty list; otherwise the records are converted in order, into cases of the loader's kind |
| Loader.LoadRoundTrip | src/data/loader.py:65-105 | a dataset written from cases of one kind loads back as exactly those cases, in order |
| Loader.ValidateDataset | src/data/loader.py:107-127 | "Dataset is empty" exactly for an empty list; success exactly when the list is non-empty and every case has a non-empty input and actual output; otherwise the error names the first offending index |
| RagEvaluator.Evaluate | src/evaluators/rag_evaluator.py:46-139 | total equals the case count; each score list has one entry per case, entry i being case i's score; record i has id i, case i's input, and each metric's score, reason and `score >= threshold` flag; each average is its list's mean; the overall is the pooled mean and, for n > 0, the mean of the three averages; passed iff the overall and all three averages reach the threshold; with no cases, passed iff threshold <= 0 |
| RagEvaluator.VerdictNeedsEveryMetric | src/evaluators/rag_evaluator.py:124-137 | for equal-length non-empty lists the verdict holds exactly when each of the three metric means reaches the threshold |
| RagEvaluator.PooledMeanDoesNotRescueLowMetric | src/evaluators/rag_evaluator.py:132-137 | means 0.9 / 0.9 / 0.5 at threshold 0.7 give a pooled mean of at least 0.7 yet fail the run |
| RagEvaluator.EmptyRunVerdict | src/evaluators/rag_evaluator.py:113-137 | with no cases the run passes exactly when the threshold is at most 0 |
| AgentEvaluator.Evaluate | src/evaluators/agent_evaluator.py:50-126 | total equals the case count; both score lists have one entry per case in input order; record i has id i, case i's input, and each metric's score, reason and `score >= threshold` flag; the averages are the lists' means; the overall is the pooled mean and, for n > 0, the mean of the two averages; passed iff the overall and both averages reach the threshold; with no cases, passed iff threshold <= 0 |
| AgentEvaluator.VerdictNeedsBothMetrics | src/evaluators/agent_evaluator.py:112-124 | for equal-length non-empty lists the verdict holds exactly when both metric means reach the threshold |
| AgentEvaluator.PooledMeanDoesNotRescueLowMetric | src/evaluators/agent_evaluator.py:119-124 | means 1.0 / 0.5 at threshold 0.7 pool to 0.75 yet fail the run |
| AgentEvaluator.EmptyRunVerdict | src/evaluators/agent_evaluator.py:104-124 | with no cases the run passes exactly when the threshold is at most 0 |
| ChatbotEvaluator.ToxicityThresholdItselfPasses | src/evaluators/chatbot_evaluator.py:17-32 | toxicity passes when the score is at most the toxicity threshold, so the threshold itself passes; at the default 0.0 only a score <= 0 passes |
| ChatbotEvaluator.FlaggedSound | src/evaluators/chatbot_evaluator.py:86-94 | every toxic-case entry belongs to a case whose toxicity failed, and carries that case's id, input, output, score and reason |
| ChatbotEvaluator.FlaggedPosition | src/evaluators/chatbot_evaluator.py:86-94 | a case whose toxicity failed has its entry among the toxic cases |
| ChatbotEvaluator.FlaggedComplete | src/evaluators/chatbot_evaluator.py:86-94 | every case whose toxicity failed is among the toxic cases |
| ChatbotEvaluator.FlaggedInInputOrder | src/evaluators/chatbot_evaluator.py:64-94 | the toxic cases appear in increasing case order |
| ChatbotEvaluator.FlaggedCount | src/evaluators/chatbot_evaluator.py:86-112 | the number of toxic cases equals the number of per-case records whose toxicity failed |
| ChatbotEvaluator.FlaggedEmpty | src/evaluators/chatbot_evaluator.py:122-132 | there are no toxic cases exactly when every case passed toxicity |
| ChatbotEvaluator.ToxicCasesOfRun | src/evaluators/chatbot_evaluator.py:86-112 | the toxic cases of a run are sound, complete, in input order and as many as the failed toxicity flags |
| ChatbotEvaluator.Evaluate | src/evaluators/chatbot_evaluator.py:46-134 | total equals the case count; both score lists follow the cases; record i has id i, case i's input and output, toxicity flag `score <= toxicity_threshold`, and relevancy flag `score >= threshold`; the toxic cases are exactly the records with failed toxicity, in order; critical_failure iff some case is toxic; passed iff no case is toxic and the relevancy mean reaches the threshold, so a critical failure implies not passed and the toxicity average plays no part; with no cases, no toxic cases and no critical failure |
| RunEvaluation.RagExitCode | run_evaluation.py:55 | a RAG run returns 0 exactly when it passed, and 1 otherwise |
| RunEvaluation.AgentExitCode | run_evaluation.py:94 | an Agent run returns 0 exactly when it passed, and 1 otherwise |
| RunEvaluation.ChatbotExitCode | run_evaluation.py:137-143 | a critical failure returns 1 whatever `passed` is; otherwise 0 exactly when the run passed |
| RunEvaluation.MaxCode | run_evaluation.py:187 | the result is one of the codes and no code exceeds it |
| RunEvaluation.MaxCodeZero | run_evaluation.py:187 | the largest code is 0 exactly when every code is 0 |
| RunEvaluation.RunAllEvaluations | run_evaluation.py:146-187 | RAG, Agent and Chatbot run in that order; a run that raised records 1 and the others still run; an interrupt stops the sequence; otherwise exactly three codes are collected and the result is their maximum, which is 0 only when all three are 0 |
| RunEvaluation.TopLevelCode | run_evaluation.py:234-257 | a returned code passes through; an exception gives 1; an interrupt gives 130 |
| RunEvaluation.MainExitCode | run_evaluation.py:190-257 | a missing API key gives 1; a single system gives its run's top-level code; "all" gives 130 exactly when a run was interrupted, and otherwise the largest of the isolated codes |
| RunEvaluation.EffectiveThresholdAsWritten | run_evaluation.py:229-231 | the override applies only when given and non-zero; an override of 0.0 leaves the default |
| RunEvaluation.ZeroOverrideIgnored | run_evaluation.py:229-231 | `--threshold 0.0` keeps the configured default threshold instead of applying 0.0 |
| RunEvaluation.EffectiveThreshold | run_evaluation.py:229-231 | the corrected override: any given value applies, otherwise the default |
| RunEvaluation.OverrideAgreesExceptZero | run_evaluation.py:229-231 | the written and corrected overrides differ only on an explicit 0.0 (when the default is not 0) |

## Left out

- `GeminiModel` (`src/evaluators/base.py:11-67`) is a network client, and the deepeval metrics (`FaithfulnessMetric`, `ContextualRecallMetric`, `AnswerRelevancyMetric`, `GEval`, `ToxicityMetric`) are nondeterministic LLM judges that cannot be modelled. What they report is taken as the `judgements` input.
- A judge call that raises propagates out of `evaluate`. This is not modelled inside `Evaluate`; at the command-line level it is the `Raised` outcome of a system run.
- The `model` field of an evaluator and the metric objects its constructor builds are the judge and are left out. The thresholds the constructor stores are parameters of `Evaluate`.
- `RagEvaluator.Evaluate` requires RAG cases, because the loop reads `context` (`src/evaluators/rag_evaluator.py:70`), which only a RAG case has; another kind would raise an attribute error. `AgentEvaluator.Evaluate` requires cases that are not chatbot cases, because it reads `expected_output`, which a chatbot case lacks. `ChatbotEvaluator.Evaluate` accepts cases of every kind, since it reads only `input` and `actual_output`. The attribute error itself is not modelled.
- Floating-point rounding of `sum / len` is not modelled: scores are exact reals.
- `generate_report` in each evaluator and the report writer are string formatting and file output with no decision logic. The round trip of results through the JSON report is not modelled either.
- `load_json` is left out: file access, the file-not-found error and JSON decoding. A dataset arrives as a decoded `Document`. A `test_cases` value that is not a list of objects, and pydantic's coercions beyond "string field holds a string, list field holds a list of strings", are not modelled.
- Settings loading, environment variables and directory creation are left out. An exception from directory creation in `main` is not modelled. The API-key check enters as the boolean `apiKeyValid`.
- `main`'s "Unknown system type" branch is dead code, because argument parsing admits only the four choices, and `SystemChoice` has only those four. Argument parsing and all printed output are left out.

## Findings

| source | as written | input that shows it | evidently intended | confidence | as-written member | corrected member |
|---|---|---|---|---|---|---|
| run_evaluation.py:229-231 | `if args.threshold:` applies the override only when it is truthy | `--threshold 0.0`: the override is dropped and the configured `default_threshold` is kept (0.7 unless `DEFAULT_THRESHOLD` is set, `src/config/settings.py:23`) | apply the override whenever it is given (`is not None`) | medium, not executed | RunEvaluation.ZeroOverrideIgnored | RunEvaluation.EffectiveThreshold |
