/**
 * The exit codes of the command-line entry point. A system run loads its
 * dataset, evaluates it and writes its reports; all of that is abstracted
 * into a `RunOutcome`: the code the run returned, an ordinary exception,
 * or a keyboard interrupt (which `except Exception` does not catch).
 */
module RunEvaluation {
  import opened Wrappers
  import Base
  import RagEvaluator
  import AgentEvaluator
  import ChatbotEvaluator

  /** What a `run_*_evaluation` function returns: 0 for a pass, 1 for a failure. */
  type RunCode = c: nat | c <= 1

  /** How one `run_*_evaluation` call ended. */
  datatype RunOutcome = Returned(code: RunCode) | Raised | Interrupted

  /** The `system` argument; argparse admits no other value. */
  datatype SystemChoice = Rag | Agent | Chatbot | All

  /** Exit code for interruption by the user. */
  const InterruptedExitCode: nat := 130

  /** `run_rag_evaluation`'s return value: 0 for a passed run, 1 otherwise. */
  function RagExitCode(results: RagEvaluator.RagResults): (code: RunCode)
    ensures code == 0 <==> results.passed
  {
    if results.passed then 0 else 1
  }

  /** `run_agent_evaluation`'s return value: 0 for a passed run, 1 otherwise. */
  function AgentExitCode(results: AgentEvaluator.AgentResults): (code: RunCode)
    ensures code == 0 <==> results.passed
  {
    if results.passed then 0 else 1
  }

  /** `run_chatbot_evaluation`'s return value: a critical failure forces 1. */
  function ChatbotExitCode(results: ChatbotEvaluator.ChatbotResults): (code: RunCode)
    ensures results.criticalFailure ==> code == 1
    ensures !results.criticalFailure ==> (code == 0 <==> results.passed)
  {
    if results.criticalFailure then 1
    else if results.passed then 0
    else 1
  }

  /** The largest of a non-empty list of codes, as Python's `max`. */
  function MaxCode(codes: seq<nat>): (m: nat)
    requires |codes| > 0
    ensures m in codes
    ensures forall k | 0 <= k < |codes| :: codes[k] <= m
  {
    if |codes| == 1 then codes[0]
    else
      var rest := MaxCode(codes[1..]);
      if codes[0] >= rest then codes[0] else rest
  }

  /** The worst code is 0 exactly when every code is 0. */
  lemma MaxCodeZero(codes: seq<nat>)
    requires |codes| > 0
    ensures MaxCode(codes) == 0 <==> forall k | 0 <= k < |codes| :: codes[k] == 0
  {
  }

  /** The code `run_all_evaluations` records for a system run it isolated with `except Exception`. */
  function IsolatedCode(o: RunOutcome): (code: RunCode)
    requires !o.Interrupted?
  {
    if o.Returned? then o.code else 1
  }

  /**
   * `run_all_evaluations`: runs RAG, Agent and Chatbot in that order,
   * recording 1 for a run that raised and carrying on; an interrupt stops
   * it. Returns the worst code, and the codes recorded so far.
   */
  method RunAllEvaluations(rag: RunOutcome, agent: RunOutcome, chatbot: RunOutcome)
    returns (r: RunOutcome, exitCodes: seq<nat>)
    ensures r.Interrupted? <==> rag.Interrupted? || agent.Interrupted? || chatbot.Interrupted?
    ensures rag.Interrupted? ==> exitCodes == []
    ensures !rag.Interrupted? && agent.Interrupted? ==> exitCodes == [IsolatedCode(rag)]
    ensures !rag.Interrupted? && !agent.Interrupted? && chatbot.Interrupted? ==>
              exitCodes == [IsolatedCode(rag), IsolatedCode(agent)]
    ensures !r.Interrupted? ==>
              && exitCodes == [IsolatedCode(rag), IsolatedCode(agent), IsolatedCode(chatbot)]
              && r.Returned?
              && r.code in exitCodes
              && (forall k | 0 <= k < 3 :: exitCodes[k] <= r.code)
              && (r.code == 0 <==> forall k | 0 <= k < 3 :: exitCodes[k] == 0)
  {
    exitCodes := [];
    if rag.Interrupted? {
      return Interrupted, exitCodes;
    }
    exitCodes := exitCodes + [IsolatedCode(rag)];
    if agent.Interrupted? {
      return Interrupted, exitCodes;
    }
    exitCodes := exitCodes + [IsolatedCode(agent)];
    if chatbot.Interrupted? {
      return Interrupted, exitCodes;
    }
    exitCodes := exitCodes + [IsolatedCode(chatbot)];
    MaxCodeZero(exitCodes);
    r := Returned(MaxCode(exitCodes));
  }

  /** How `main` turns a single system run's outcome into the process exit code. */
  function TopLevelCode(o: RunOutcome): (code: nat)
    ensures o.Returned? ==> code == o.code
    ensures o.Raised? ==> code == 1
    ensures o.Interrupted? ==> code == InterruptedExitCode
  {
    match o
    case Returned(c) => c
    case Raised => 1
    case Interrupted => InterruptedExitCode
  }

  /**
   * `main` after argument parsing: a missing API key gives 1 without
   * running anything; otherwise the selected system runs and its outcome
   * decides the code.
   */
  method MainExitCode(apiKeyValid: bool, system: SystemChoice,
                      rag: RunOutcome, agent: RunOutcome, chatbot: RunOutcome)
    returns (code: nat)
    ensures !apiKeyValid ==> code == 1
    ensures apiKeyValid && system == Rag ==> code == TopLevelCode(rag)
    ensures apiKeyValid && system == Agent ==> code == TopLevelCode(agent)
    ensures apiKeyValid && system == Chatbot ==> code == TopLevelCode(chatbot)
    ensures apiKeyValid && system == All ==>
              (code == InterruptedExitCode
               <==> rag.Interrupted? || agent.Interrupted? || chatbot.Interrupted?)
    ensures apiKeyValid && system == All && !(rag.Interrupted? || agent.Interrupted? || chatbot.Interrupted?) ==>
              code == MaxCode([IsolatedCode(rag), IsolatedCode(agent), IsolatedCode(chatbot)])
  {
    if !apiKeyValid {
      return 1;
    }
    match system
    case Rag => code := TopLevelCode(rag);
    case Agent => code := TopLevelCode(agent);
    case Chatbot => code := TopLevelCode(chatbot);
    case All =>
      var outcome, codes := RunAllEvaluations(rag, agent, chatbot);
      code := TopLevelCode(outcome);
  }

  /**
   * The threshold override as written: `if args.threshold:` applies it only
   * when it is truthy, so an explicit 0.0 is dropped.
   */
  function EffectiveThresholdAsWritten(default: real, override: Option<real>): (t: real)
    ensures override.None? ==> t == default
    ensures override.Some? && override.value != 0.0 ==> t == override.value
    ensures override == Some(0.0) ==> t == default
  {
    if override.Some? && override.value != 0.0 then override.value else default
  }

  /** `--threshold 0.0` is ignored: the configured default stays in force. */
  lemma ZeroOverrideIgnored()
    ensures EffectiveThresholdAsWritten(Base.DefaultThreshold, Some(0.0)) == Base.DefaultThreshold
    ensures EffectiveThresholdAsWritten(Base.DefaultThreshold, Some(0.0)) != 0.0
  {
  }

  /** The override as evidently intended: applied whenever it is given. */
  function EffectiveThreshold(default: real, override: Option<real>): (t: real)
    ensures override.Some? ==> t == override.value
    ensures override.None? ==> t == default
  {
    if override.Some? then override.value else default
  }

  /** The two agree on every override except an explicit 0.0. */
  lemma OverrideAgreesExceptZero(default: real, override: Option<real>)
    ensures EffectiveThresholdAsWritten(default, override) == EffectiveThreshold(default, override)
            <==> override != Some(0.0) || default == 0.0
  {
  }
}
