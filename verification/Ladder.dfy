// The verification ladder's decision (src/ladder.rs).
module Ladder {
  import opened Prelude

  datatype FailureKind =
    | NoChain | EmptyDiff | AgentError | Timeout | RateLimited | GateFailed | TestProvenance
    | ReviewInputTooLarge | ReviewInputOpaque | ReviewFailed | ReviewUnavailable
    | NeedsHuman | Declined | Interrupted

  datatype FailureOrigin = Worker | Reviewer

  /// src/ir.rs:400
  datatype QuestionKind = Unblock | ApproveSpend | Continue | Clarify

  /// A failure of the surroundings, not of the work (src/ladder.rs:108-114).
  predicate IsOutage(kind: FailureKind, origin: FailureOrigin) {
    kind.RateLimited? || kind.ReviewUnavailable? || (kind.Timeout? && origin.Reviewer?)
  }

  predicate IsReviewInput(kind: FailureKind) {
    kind.ReviewInputTooLarge? || kind.ReviewInputOpaque?
  }

  datatype LadderPolicy = LadderPolicy(attemptsPer: u32, rungs: nat, maxDefers: u32)

  datatype LadderState = LadderState(rung: nat, attemptsOnRung: u32, defers: u32, resumable: bool)

  datatype Next = RetrySameRung(resume: bool) | Escalate | Defer | AskHuman(kind: QuestionKind) | Fail

  function NextStep(kind: FailureKind, origin: FailureOrigin, state: LadderState, policy: LadderPolicy): Next {
    if kind.NeedsHuman? then AskHuman(Clarify)
    else if IsReviewInput(kind) then AskHuman(Unblock)
    else if IsOutage(kind, origin) then
      if state.defers < policy.maxDefers then Defer else AskHuman(Unblock)
    else if kind.NoChain? || policy.rungs == 0 then Fail
    else if state.attemptsOnRung < policy.attemptsPer then RetrySameRung(state.resumable)
    else if state.rung + 1 < policy.rungs then Escalate
    else AskHuman(Unblock)
  }

  // ------------------------------------------------- what it comes to

  /// The ladder by kind of failure: who is asked, what waits, what fails, and what spends an attempt.
  lemma NextStepIsExact(kind: FailureKind, origin: FailureOrigin, state: LadderState, policy: LadderPolicy)
    ensures
      var waits := if state.defers < policy.maxDefers then Defer else AskHuman(Unblock);
      var spends :=
        if policy.rungs == 0 then Fail
        else if state.attemptsOnRung < policy.attemptsPer then RetrySameRung(state.resumable)
        else if state.rung + 1 < policy.rungs then Escalate
        else AskHuman(Unblock);
      NextStep(kind, origin, state, policy) ==
        match kind
        case NeedsHuman => AskHuman(Clarify)
        case ReviewInputTooLarge => AskHuman(Unblock)
        case ReviewInputOpaque => AskHuman(Unblock)
        case RateLimited => waits
        case ReviewUnavailable => waits
        case NoChain => Fail
        case Timeout => if origin == Reviewer then waits else spends
        case EmptyDiff => spends
        case AgentError => spends
        case GateFailed => spends
        case TestProvenance => spends
        case ReviewFailed => spends
        case Declined => spends
        case Interrupted => spends
  {
  }

  /// What is deferred, exactly; and an outage never costs an attempt, a rung or the task.
  lemma OutagesWait(kind: FailureKind, origin: FailureOrigin, state: LadderState, policy: LadderPolicy)
    requires policy.rungs > 0
    ensures
      var outage := kind in {RateLimited, ReviewUnavailable} || (kind == Timeout && origin == Reviewer);
      var next := NextStep(kind, origin, state, policy);
      && (next == Defer <==> outage && state.defers < policy.maxDefers)
      && (outage ==> next == Defer || next == AskHuman(Unblock))
  {
  }

  /// A worker that ran out of time is charged for it, in every state and under every policy, as for a failed gate.
  lemma WorkerTimeoutsAreRejections(state: LadderState, policy: LadderPolicy, origin: FailureOrigin)
    ensures NextStep(Timeout, Worker, state, policy) == NextStep(GateFailed, origin, state, policy)
  {
  }
}
