// One failed attempt's decision: how the engine writes it, and the two independent checks that read it
// back (src/engine.rs:2435-2500, src/events.rs:2323-2394, src/export.rs:463-530).
module Decisions {
  import opened Prelude
  import opened Ladder
  import opened Events

  /// The kinds an attempt can fail with. A task without a rung fails before any attempt (src/engine.rs:2247-2255), and
  /// the other two are written by an answer and by a crash.
  predicate FromAttempt(kind: FailureKind) {
    !kind.NoChain? && !kind.Declined? && !kind.Interrupted?
  }

  predicate AsksAbout(parking: AttemptParking, task: TaskId) {
    parking.question.affected == [task]
  }

  /// `rung_number.saturating_add(1)`, the rung number itself already cut to 32 bits.
  function NextRung(rung: nat): u32 {
    if rung >= U32_MAX then U32_MAX else rung + 1
  }

  /// The decision part of `attempt_finished` that the engine writes for one ladder answer, field by field.
  predicate Writes(
    task: TaskId, f: FailureRecord, tier: Tier, state: LadderState, next: Next,
    transition: Option<AttemptTransition>, parking: Option<AttemptParking>)
  {
    match next
    case RetrySameRung(resume) =>
      && parking.None? && transition.Some? && transition.value.ToRetry?
      && var retry := transition.value.retry;
      && retry.resume == resume && retry.tier == tier && retry.summary == f.reason
    case Escalate =>
      && transition.Some? && transition.value.ToEscalate?
      && var to := transition.value.escalation;
      && to.toRung == NextRung(state.rung) && to.tier == tier && to.summary == f.reason
      && (parking.Some? ==>
            parking.value.question.kind.ApproveSpend? && AsksAbout(parking.value, task) && !parking.value.refund)
    case Defer =>
      && parking.None? && transition.Some? && transition.value.ToDefer?
      && transition.value.deferral == Deferral(f.reason, SatInc(state.defers))
    case AskHuman(kind) =>
      && transition.None? && parking.Some?
      && parking.value.question.kind == kind && AsksAbout(parking.value, task)
      && (parking.value.refund <==> kind.Clarify? || IsOutage(f.kind, f.origin))
    case Fail =>
      && parking.None? && transition.Some? && transition.value.ToFail?
      && transition.value.failure.kind == f.kind && transition.value.failure.reason == f.reason
  }

  /// The reader's own list of what is nobody's fault (src/events.rs:2334-2338).
  predicate ReadAsOutage(f: FailureRecord) {
    match f.kind
    case RateLimited => true
    case ReviewUnavailable => true
    case Timeout => f.origin.Reviewer?
    case _ => false
  }

  /// And of what no automatic retry can help (src/events.rs:2352-2355).
  predicate ReadAsReviewInput(f: FailureRecord) {
    match f.kind
    case ReviewInputTooLarge => true
    case ReviewInputOpaque => true
    case _ => false
  }

  /// `valid_attempt_decision`, the check every whole-log reader makes.
  predicate ValidAttemptDecision(task: TaskId, f: FailureRecord, transition: Option<AttemptTransition>, parking: Option<AttemptParking>) {
    var parked := (kind, refund) =>
      parking.Some? && AsksAbout(parking.value, task) && parking.value.question.kind == kind && parking.value.refund == refund;
    if f.kind.NeedsHuman? then transition.None? && parked(Clarify, true)
    else if ReadAsReviewInput(f) then f.origin.Reviewer? && transition.None? && parked(Unblock, false)
    else if ReadAsOutage(f) then
      (transition.Some? && transition.value.ToDefer? && parking.None?) || (transition.None? && parked(Unblock, true))
    else if f.kind.Declined? || f.kind.Interrupted? then false
    else if transition.None? then parked(Unblock, false)
    else match transition.value
      case ToRetry(_) => parking.None?
      case ToEscalate(_) => parking.None? || parked(ApproveSpend, false)
      case ToFail(failure) => parking.None? && failure.kind == f.kind
      case ToDefer(_) => false
  }

  /// The exporter's list of outages (src/export.rs:465-471).
  predicate ExportsAsOutage(f: Option<FailureRecord>) {
    f.Some? &&
      (f.value.kind == RateLimited || f.value.kind == ReviewUnavailable || (f.value.kind, f.value.origin) == (Timeout, Reviewer))
  }

  /// The exporter's own check of the same two fields (src/export.rs:463-530), for any settlement.
  predicate ExportsDecision(
    task: TaskId, f: Option<FailureRecord>, transition: Option<AttemptTransition>, parking: Option<AttemptParking>)
  {
    var outage := ExportsAsOutage(f);
    && (transition.Some? ==>
          match transition.value
          case ToRetry(_) => f.Some?
          case ToEscalate(_) => f.Some?
          case ToDefer(_) => outage
          case ToFail(failure) => f.Some? && f.value.kind == failure.kind)
    && (parking.Some? ==>
          && AsksAbout(parking.value, task)
          && match parking.value.question.kind
             case Clarify => f.Some? && f.value.kind.NeedsHuman? && transition.None? && parking.value.refund
             case ApproveSpend => transition.Some? && transition.value.ToEscalate? && !parking.value.refund
             case Unblock =>
               if f.Some? && f.value.kind in {ReviewInputTooLarge, ReviewInputOpaque} then
                 f.value.origin.Reviewer? && transition.None? && !parking.value.refund
               else if outage then transition.None? && parking.value.refund
               else f.Some? && transition.None? && !parking.value.refund
             case Continue => false)
  }

  /// The three lists are written down three times and are the same.
  lemma OutagesAreAgreed(f: FailureRecord)
    ensures ReadAsOutage(f) <==> IsOutage(f.kind, f.origin)
    ensures ExportsAsOutage(Some(f)) <==> IsOutage(f.kind, f.origin)
    ensures ReadAsReviewInput(f) <==> IsReviewInput(f.kind)
  {
  }

  /// Which deferrals a reader lets through: those of exactly these failures, with nothing else decided.
  lemma DeferralsRead(task: TaskId, f: FailureRecord, deferral: Deferral, parking: Option<AttemptParking>)
    ensures ValidAttemptDecision(task, f, Some(ToDefer(deferral)), parking) <==>
      parking.None? && (f.kind in {RateLimited, ReviewUnavailable} || (f.kind == Timeout && f.origin == Reviewer))
  {
  }

  /// What the exporter lets through, by decision and question together.
  lemma ExportsExactly(
    task: TaskId, f: Option<FailureRecord>, transition: Option<AttemptTransition>, parking: Option<AttemptParking>)
    ensures
      var kind := if f.Some? then Some(f.value.kind) else None;
      var outage := kind == Some(RateLimited) || kind == Some(ReviewUnavailable) || (kind == Some(Timeout) && f.value.origin == Reviewer);
      ExportsDecision(task, f, transition, parking) <==>
        match (transition, parking)
        case (None, None) => true
        case (Some(ToRetry(_)), None) => kind.Some?
        case (Some(ToEscalate(_)), None) => kind.Some?
        case (Some(ToDefer(_)), None) => outage
        case (Some(ToFail(failure)), None) => kind == Some(failure.kind)
        case (Some(ToEscalate(_)), Some(AttemptParking(q, refund))) =>
          kind.Some? && q.affected == [task] && q.kind == ApproveSpend && !refund
        case (Some(_), Some(_)) => false
        case (None, Some(AttemptParking(q, refund))) =>
          && q.affected == [task]
          && if q.kind == Clarify then kind == Some(NeedsHuman) && refund
             else
               && q.kind == Unblock && kind.Some? && refund == outage
               && (kind.value in {ReviewInputTooLarge, ReviewInputOpaque} ==> f.value.origin == Reviewer)
  {
  }

  /// A session the next attempt could continue: this attempt's own, or the one it was resuming.
  predicate HasSession(record: AttemptRecord) {
    record.sessionId.Some? || record.resumed
  }

  /// What the engine can put into the settlement of a failed attempt that ran on this rung: the ladder's answer in some
  /// state and under some policy with that rung, written down.
  ghost predicate EngineWrites(
    task: TaskId, rung: u32, record: AttemptRecord, transition: Option<AttemptTransition>, parking: Option<AttemptParking>)
    requires record.failure.Some?
  {
    exists state: LadderState, policy: LadderPolicy ::
      WritesIn(task, rung, record, state, policy, transition, parking)
  }

  predicate WritesIn(
    task: TaskId, rung: u32, record: AttemptRecord, state: LadderState, policy: LadderPolicy,
    transition: Option<AttemptTransition>, parking: Option<AttemptParking>)
    requires record.failure.Some?
  {
    var f := record.failure.value;
    && FromAttempt(f.kind) && (IsReviewInput(f.kind) ==> f.origin.Reviewer?)
    && state.rung == rung < policy.rungs && state.attemptsOnRung >= 1 && policy.attemptsPer >= 1
    && (state.resumable ==> HasSession(record))
    && Writes(task, f, record.tier, state, NextStep(f.kind, f.origin, state, policy), transition, parking)
  }

  // What the reader lets through although no engine writes it.

  /// An attempt that ran without a chain to run on.
  predicate Chainless(record: AttemptRecord)
    requires record.failure.Some?
  {
    record.failure.value.kind.NoChain?
  }

  /// A task failed outright by an attempt: the ladder does that only where there is no rung.
  predicate FailsOutright(transition: Option<AttemptTransition>) {
    transition.Some? && transition.value.ToFail?
  }

  predicate LeavesTheLadder(rung: u32, transition: Option<AttemptTransition>) {
    transition.Some? && transition.value.ToEscalate? && transition.value.escalation.toRung != NextRung(rung)
  }

  predicate CountsNoDeferral(transition: Option<AttemptTransition>) {
    transition.Some? && transition.value.ToDefer? && transition.value.deferral.defers == 0
  }

  predicate ResumesNothing(record: AttemptRecord, transition: Option<AttemptTransition>) {
    transition.Some? && transition.value.ToRetry? && transition.value.retry.resume && !HasSession(record)
  }

  /// A tier or a reason that is not the attempt's own.
  predicate Miscopies(record: AttemptRecord, transition: Option<AttemptTransition>)
    requires record.failure.Some?
  {
    && transition.Some?
    && match transition.value
       case ToRetry(retry) => retry.tier != record.tier || retry.summary != record.failure.value.reason
       case ToEscalate(to) => to.tier != record.tier || to.summary != record.failure.value.reason
       case ToDefer(deferral) => deferral.reason != record.failure.value.reason
       case ToFail(_) => false
  }

  /// Whatever the ladder answers, in any state and under any policy, the reader accepts.
  lemma WrittenIsValid(
    task: TaskId, f: FailureRecord, tier: Tier, state: LadderState, policy: LadderPolicy,
    transition: Option<AttemptTransition>, parking: Option<AttemptParking>)
    requires !f.kind.Declined? && !f.kind.Interrupted? && (IsReviewInput(f.kind) ==> f.origin.Reviewer?)
    requires Writes(task, f, tier, state, NextStep(f.kind, f.origin, state, policy), transition, parking)
    ensures ValidAttemptDecision(task, f, transition, parking)
  {
  }

  /// A ladder state and a policy that lead to an accepted decision.
  function Witness(rung: u32, transition: Option<AttemptTransition>): (LadderState, LadderPolicy) {
    if transition.None? then (LadderState(rung, 1, 0, false), LadderPolicy(1, rung + 1, 0))
    else match transition.value
      case ToRetry(retry) => (LadderState(rung, 1, 0, retry.resume), LadderPolicy(2, rung + 1, 0))
      case ToDefer(deferral) =>
        (LadderState(rung, 1, SatDec(deferral.defers), false), LadderPolicy(1, rung + 1, deferral.defers))
      case _ => (LadderState(rung, 1, 0, false), LadderPolicy(1, rung + 2, 0))
  }

  /// The reader's check against the writer, exactly: an accepted decision is one the engine could have written if and
  /// only if it is none of six things the check does not look at.
  lemma ValidatorAcceptsTheLadder(
    task: TaskId, rung: u32, record: AttemptRecord, transition: Option<AttemptTransition>, parking: Option<AttemptParking>)
    requires record.failure.Some?
    ensures EngineWrites(task, rung, record, transition, parking) <==>
      && ValidAttemptDecision(task, record.failure.value, transition, parking)
      && !Chainless(record) && !FailsOutright(transition) && !LeavesTheLadder(rung, transition)
      && !CountsNoDeferral(transition) && !ResumesNothing(record, transition) && !Miscopies(record, transition)
  {
    if EngineWrites(task, rung, record, transition, parking) {
      var state: LadderState, policy: LadderPolicy :| WritesIn(task, rung, record, state, policy, transition, parking);
      WrittenIsValid(task, record.failure.value, record.tier, state, policy, transition, parking);
    }
    if ValidAttemptDecision(task, record.failure.value, transition, parking)
       && !Chainless(record) && !FailsOutright(transition) && !LeavesTheLadder(rung, transition)
       && !CountsNoDeferral(transition) && !ResumesNothing(record, transition) && !Miscopies(record, transition)
    {
      var (state, policy) := Witness(rung, transition);
      assert WritesIn(task, rung, record, state, policy, transition, parking);
    }
  }

  /// A first attempt on the first rung that failed like this.
  function FailedFirst(kind: FailureKind): AttemptRecord {
    AttemptRecord(1, Small, "model", None, false, None, [], None, Some(FailureRecord(kind, Worker, "why")))
  }

  ghost predicate AcceptedButNeverWritten(kind: FailureKind, transition: AttemptTransition) {
    && ValidAttemptDecision("t", FailedFirst(kind).failure.value, Some(transition), None)
    && !EngineWrites("t", 0, FailedFirst(kind), Some(transition), None)
  }

  lemma NeverWritten(kind: FailureKind, transition: AttemptTransition)
    requires ValidAttemptDecision("t", FailedFirst(kind).failure.value, Some(transition), None)
    requires
      || Chainless(FailedFirst(kind)) || FailsOutright(Some(transition)) || LeavesTheLadder(0, Some(transition))
      || CountsNoDeferral(Some(transition)) || ResumesNothing(FailedFirst(kind), Some(transition))
      || Miscopies(FailedFirst(kind), Some(transition))
    ensures AcceptedButNeverWritten(kind, transition)
  {
    ValidatorAcceptsTheLadder("t", 0, FailedFirst(kind), Some(transition), None);
  }

  /// Each of the six is real: a decision the reader accepts and no engine writes. The third folds to a rung that was
  /// left behind, the fourth forgets every deferral.
  lemma AllSixGapsAreReal()
    ensures AcceptedButNeverWritten(NoChain, ToRetry(Retry(false, Small, "why", None)))
    ensures AcceptedButNeverWritten(GateFailed, ToFail(TaskFailure(GateFailed, "why", false)))
    ensures AcceptedButNeverWritten(GateFailed, ToEscalate(Escalation(0, Small, "why", None)))
    ensures AcceptedButNeverWritten(RateLimited, ToDefer(Deferral("why", 0)))
    ensures AcceptedButNeverWritten(GateFailed, ToRetry(Retry(true, Small, "why", None)))
    ensures AcceptedButNeverWritten(GateFailed, ToRetry(Retry(false, Small, "another", None)))
  {
    NeverWritten(NoChain, ToRetry(Retry(false, Small, "why", None)));
    NeverWritten(GateFailed, ToFail(TaskFailure(GateFailed, "why", false)));
    NeverWritten(GateFailed, ToEscalate(Escalation(0, Small, "why", None)));
    NeverWritten(RateLimited, ToDefer(Deferral("why", 0)));
    NeverWritten(GateFailed, ToRetry(Retry(true, Small, "why", None)));
    NeverWritten(GateFailed, ToRetry(Retry(false, Small, "another", None)));
  }

  /// The reader's check is the stronger of the two, so nothing it accepts fails to export.
  lemma ValidDecisionsExport(task: TaskId, f: FailureRecord, transition: Option<AttemptTransition>, parking: Option<AttemptParking>)
    requires ValidAttemptDecision(task, f, transition, parking)
    ensures ExportsDecision(task, Some(f), transition, parking)
  {
  }
}
