// The event log's vocabulary and the fold that is the run's state (src/events.rs).
module Events {
  import opened Prelude
  import opened Ladder
  import Review

  type TaskId = string
  type QuestionId = string

  // ---------------------------------------------------------------- payloads

  datatype Question = Question(id: QuestionId, kind: QuestionKind, affected: seq<TaskId>, context: string, options: seq<string>)

  datatype Answer = Answered(text: string) | Declined | Unanswered

  datatype QuestionRecord = QuestionRecord(question: Question, answer: Option<Answer>)

  datatype ReviewPassOutcome = Passed | Failed | Unavailable

  datatype ReviewRecord = ReviewRecord(pool: Option<string>, cost: Option<real>, outcome: ReviewPassOutcome)

  datatype FailureRecord = FailureRecord(kind: FailureKind, origin: FailureOrigin, reason: string)

  datatype AttemptRecord = AttemptRecord(
    attempt: u32, tier: Tier, model: string, pool: Option<string>, resumed: bool,
    cost: Option<real>, reviews: seq<ReviewRecord>, sessionId: Option<string>, failure: Option<FailureRecord>)

  datatype AttemptStart = AttemptStart(tier: Tier, model: string, pool: Option<string>, resumeSession: Option<string>)

  datatype PreparedCommit = PreparedCommit(
    branchRef: string, parentSha: string, treeSha: string, commitSha: string, message: string, pinRef: string)

  datatype AttemptParking = AttemptParking(question: Question, refund: bool)

  datatype Retry = Retry(resume: bool, tier: Tier, summary: string, detail: Option<string>)

  datatype Escalation = Escalation(toRung: u32, tier: Tier, summary: string, detail: Option<string>)

  datatype Deferral = Deferral(reason: string, defers: u32)

  datatype TaskFailure = TaskFailure(kind: FailureKind, reason: string, haltsRun: bool)

  datatype AttemptTransition =
    | ToRetry(retry: Retry) | ToEscalate(escalation: Escalation) | ToDefer(deferral: Deferral) | ToFail(failure: TaskFailure)

  datatype BudgetStop = BudgetStop(ofRun: bool, limit: real, spent: real, task: TaskId)

  datatype RunOutcome = Complete | Parked | Halted | OverBudget

  datatype Finish = Finish(outcome: RunOutcome, haltedAt: Option<TaskId>, committed: u32, parked: u32)

  datatype ChainSummary = ChainSummary(task: TaskId, tiers: seq<Tier>, attemptsPer: u32)

  datatype RunHeader = RunHeader(
    schema: nat, runId: string, branch: string, planHash: string, chains: seq<ChainSummary>,
    normalizedPlanDigest: Option<string>, reviews: Option<Review.ReviewPlan>)

  datatype ResumeRecord = ResumeRecord(interrupted: nat, reviews: Option<Review.ReviewPlan>, normalizedPlanDigest: Option<string>)

  /// One constructor per event tag (src/events.rs:101-238).
  datatype Event =
    | RunStarted(header: RunHeader)
    | RunResumed(resume: ResumeRecord)
    | RunSchemaUpgraded(from: nat, to: nat)
    | AttemptStarted(task: TaskId, attempt: u32, rung: u32, profile: string, start: AttemptStart)
    | AttemptFinished(
        task: TaskId, attempt: u32, rung: u32, profile: string, record: AttemptRecord,
        parking: Option<AttemptParking>, transition: Option<AttemptTransition>, prepared: Option<PreparedCommit>)
    | AttemptInterrupted(task: TaskId, attempt: u32, rung: u32, profile: string, record: AttemptRecord)
    | LadderRetry(task: TaskId, attempt: u32, rung: u32, retry: Retry)
    | LadderEscalated(task: TaskId, attempt: u32, rung: u32, escalation: Escalation)
    | TaskDeferred(task: TaskId, deferral: Deferral)
    | DeferWaitElapsed
    | TaskParked(task: TaskId, question: QuestionId, refund: bool)
    | TaskCommitted(task: TaskId, sha: string, message: string)
    | TaskFailed(task: TaskId, failure: TaskFailure)
    | QuestionRaised(task: TaskId, raised: Question)
    | QuestionAnswered(question: QuestionId, answer: Answer, declineHaltsRun: Option<bool>)
    | DesignDefect(question: QuestionId)
    | CapacitySnapshot
    | PoolExhausted(task: TaskId, pool: string, resetAt: Option<string>)
    | BudgetExceeded(stop: BudgetStop)
    | RunFinished(finish: Finish)

  // ------------------------------------------------------------------- state

  datatype TaskState =
    | Pending | Deferred | AwaitingInput(question: QuestionId) | Done(sha: string)
    | FailedTask(kind: FailureKind, reason: string)

  datatype InFlight = InFlight(attempt: u32, rung: u32, tier: Tier, model: string, profile: string, pool: Option<string>)

  datatype Feedback = Feedback(attempt: u32, tier: Option<Tier>, summary: string, detail: Option<string>, human: bool)

  datatype Progress = Progress(
    rung: nat, attemptsOnRung: u32, attempts: u32, session: Option<string>, resumeNext: bool,
    feedback: seq<Feedback>, defers: u32, records: seq<AttemptRecord>, inFlight: Option<InFlight>)

  const FRESH: Progress := Progress(0, 0, 0, None, false, [], 0, [], None)

  datatype State = State(
    taskIds: seq<TaskId>, states: seq<TaskState>, progress: seq<Progress>, questions: seq<QuestionRecord>,
    order: seq<nat>, haltedAt: Option<TaskId>, budgetStop: Option<BudgetStop>, finished: Option<Finish>)
  {
    /// One state and one progress record per task id (src/events.rs:1022-1041).
    predicate Aligned() {
      |states| == |taskIds| == |progress|
    }

    function Put(i: nat, st: TaskState, p: Progress): State
      requires Aligned() && i < |taskIds|
    {
      this.(states := states[i := st], progress := progress[i := p])
    }
  }

  function NewState(ids: seq<TaskId>): (s: State)
    ensures s.Aligned()
  {
    State(ids, seq(|ids|, _ => Pending), seq(|ids|, _ => FRESH), [], [], None, None, None)
  }

  /// The first position holding a task id, as `Iterator::position` finds it.
  function IndexOf(ids: seq<TaskId>, task: TaskId): (r: Option<nat>)
    ensures r.Some? ==> r.value < |ids| && ids[r.value] == task
    ensures r.Some? ==> forall k :: 0 <= k < r.value ==> ids[k] != task
    ensures r.None? ==> task !in ids
  {
    if ids == [] then None
    else if ids[0] == task then Some(0)
    else match IndexOf(ids[1..], task) case None => None case Some(k) => Some(k + 1)
  }

  // ------------------------------------------------- what one event changes

  function DropSession(p: Progress): Progress {
    p.(session := None, resumeNext := false)
  }

  function Refund(p: Progress, refund: bool): Progress {
    if refund then p.(attemptsOnRung := SatDec(p.attemptsOnRung)) else p
  }

  function AfterStart(p: Progress, attempt: u32, rung: u32, profile: string, start: AttemptStart): Progress {
    p.(rung := rung, attempts := attempt, attemptsOnRung := SatInc(p.attemptsOnRung),
       inFlight := Some(InFlight(attempt, rung, start.tier, start.model, profile, start.pool)),
       session := start.resumeSession)
  }

  function AfterFinish(p: Progress, record: AttemptRecord): Progress {
    p.(inFlight := None,
       session := if record.sessionId.Some? then record.sessionId else p.session,
       records := p.records + [record])
  }

  function AfterInterrupt(p: Progress, record: AttemptRecord): Progress {
    DropSession(Refund(p, true)).(inFlight := None, records := p.records + [record])
  }

  function AfterRetry(p: Progress, attempt: u32, retry: Retry): Progress {
    p.(feedback := p.feedback + [Feedback(attempt, Some(retry.tier), retry.summary, retry.detail, false)],
       resumeNext := retry.resume)
  }

  function AfterEscalation(p: Progress, attempt: u32, to: Escalation): Progress {
    DropSession(p).(
      feedback := p.feedback + [Feedback(attempt, Some(to.tier), to.summary, to.detail, false)],
      rung := to.toRung, attemptsOnRung := 0)
  }

  function AfterDeferral(p: Progress, deferral: Deferral): Progress {
    DropSession(Refund(p, true)).(defers := deferral.defers)
  }

  function Retried(s: State, task: TaskId, attempt: u32, retry: Retry): (r: State)
    requires s.Aligned()
    ensures r.Aligned()
  {
    match IndexOf(s.taskIds, task)
    case None => s
    case Some(i) => s.Put(i, s.states[i], AfterRetry(s.progress[i], attempt, retry))
  }

  function Escalated(s: State, task: TaskId, attempt: u32, to: Escalation): (r: State)
    requires s.Aligned()
    ensures r.Aligned()
  {
    match IndexOf(s.taskIds, task)
    case None => s
    case Some(i) => s.Put(i, s.states[i], AfterEscalation(s.progress[i], attempt, to))
  }

  function DeferredBy(s: State, task: TaskId, deferral: Deferral): (r: State)
    requires s.Aligned()
    ensures r.Aligned()
  {
    match IndexOf(s.taskIds, task)
    case None => s
    case Some(i) => s.Put(i, Deferred, AfterDeferral(s.progress[i], deferral))
  }

  function FailedBy(s: State, task: TaskId, failure: TaskFailure): (r: State)
    requires s.Aligned()
    ensures r.Aligned()
  {
    match IndexOf(s.taskIds, task)
    case None => s
    case Some(i) =>
      s.Put(i, FailedTask(failure.kind, failure.reason), s.progress[i])
       .(haltedAt := if failure.haltsRun && s.haltedAt.None? then Some(task) else s.haltedAt)
  }

  function Transitioned(s: State, task: TaskId, attempt: u32, t: AttemptTransition): (r: State)
    requires s.Aligned()
    ensures r.Aligned()
  {
    match t
    case ToRetry(retry) => Retried(s, task, attempt, retry)
    case ToEscalate(to) => Escalated(s, task, attempt, to)
    case ToDefer(deferral) => DeferredBy(s, task, deferral)
    case ToFail(failure) => FailedBy(s, task, failure)
  }

  function ParkedOn(s: State, task: TaskId, question: QuestionId, refund: bool): (r: State)
    requires s.Aligned()
    ensures r.Aligned()
  {
    match IndexOf(s.taskIds, task)
    case None => s
    case Some(i) => s.Put(i, AwaitingInput(question), Refund(DropSession(s.progress[i]), refund))
  }

  function Asked(s: State, question: Question): (r: State)
    ensures s.Aligned() ==> r.Aligned()
  {
    s.(questions := s.questions + [QuestionRecord(question, None)])
  }

  /// Deferred work made runnable again.
  function Woken(states: seq<TaskState>): (r: seq<TaskState>)
    ensures |r| == |states|
  {
    seq(|states|, i requires 0 <= i < |states| => if states[i].Deferred? then Pending else states[i])
  }

  function Position(questions: seq<QuestionRecord>, id: QuestionId): (r: Option<nat>)
    ensures r.Some? ==> r.value < |questions| && questions[r.value].question.id == id
    ensures r.Some? ==> forall k :: 0 <= k < r.value ==> questions[k].question.id != id
    ensures r.None? ==> forall k :: 0 <= k < |questions| ==> questions[k].question.id != id
  {
    if questions == [] then None
    else if questions[0].question.id == id then Some(0)
    else match Position(questions[1..], id) case None => None case Some(k) => Some(k + 1)
  }

  /// The tasks one answered question un-parks: those it names that still wait on it.
  predicate Releases(s: State, q: Question, i: nat)
    requires s.Aligned() && i < |s.taskIds|
  {
    s.taskIds[i] in q.affected && IndexOf(s.taskIds, s.taskIds[i]) == Some(i) && s.states[i] == AwaitingInput(q.id)
  }

  /// Only free text becomes feedback, never the text of an offered option (src/events.rs:1404-1430).
  function AfterAnswer(p: Progress, q: Question, text: string): Progress {
    p.(feedback := if q.kind.ApproveSpend? || text in q.options then p.feedback else
         p.feedback + [Feedback(p.attempts, None, "the operator answered the open question", Some(text), true)],
       attemptsOnRung := if q.kind.Unblock? then 0 else p.attemptsOnRung,
       defers := 0, resumeNext := false)
  }

  function AnsweredBy(s: State, id: QuestionId, answer: Answer): (r: State)
    requires s.Aligned()
    ensures r.Aligned()
  {
    match Position(s.questions, id)
    case None => s
    case Some(k) =>
      if s.questions[k].answer.Some? then s
      else
        var q := s.questions[k].question;
        var closed := s.(questions := s.questions[k := QuestionRecord(q, Some(answer))]);
        match answer
        case Answered(text) =>
          closed.(
            states := seq(|s.states|, i requires 0 <= i < |s.states| => if Releases(s, q, i) then Pending else s.states[i]),
            progress := seq(|s.progress|, i requires 0 <= i < |s.progress| =>
              if Releases(s, q, i) then AfterAnswer(s.progress[i], q, text) else s.progress[i]))
        case _ => closed
  }

  function Resumed(s: State): (r: State)
    ensures s.Aligned() ==> r.Aligned()
  {
    s.(finished := None, budgetStop := None, states := Woken(s.states),
       progress := seq(|s.progress|, i requires 0 <= i < |s.progress| => DropSession(s.progress[i])))
  }

  /// What each event means (`RunState::apply`, src/events.rs:1069-1270).
  function Step(s: State, e: Event): (r: State)
    requires s.Aligned()
    ensures r.Aligned() && r.taskIds == s.taskIds
  {
    match e
    case RunStarted(_) => s
    case RunSchemaUpgraded(_, _) => s
    case DesignDefect(_) => s
    case CapacitySnapshot => s
    case PoolExhausted(_, _, _) => s
    case BudgetExceeded(stop) => s.(budgetStop := if s.budgetStop.None? then Some(stop) else s.budgetStop)
    case RunResumed(_) => Resumed(s)
    case AttemptStarted(task, attempt, rung, profile, start) =>
      (match IndexOf(s.taskIds, task)
       case None => s
       case Some(i) =>
         s.Put(i, s.states[i], AfterStart(s.progress[i], attempt, rung, profile, start))
          .(order := if i in s.order then s.order else s.order + [i]))
    case AttemptInterrupted(task, _, _, _, record) =>
      (match IndexOf(s.taskIds, task)
       case None => s
       case Some(i) => s.Put(i, s.states[i], AfterInterrupt(s.progress[i], record)))
    case AttemptFinished(task, attempt, _, _, record, parking, transition, _) =>
      (match IndexOf(s.taskIds, task)
       case None => s
       case Some(i) =>
         var finished := s.Put(i, s.states[i], AfterFinish(s.progress[i], record));
         var decided := if transition.None? then finished else Transitioned(finished, task, attempt, transition.value);
         if parking.None? then decided
         else Asked(ParkedOn(decided, task, parking.value.question.id, parking.value.refund), parking.value.question))
    case LadderRetry(task, attempt, _, retry) => Retried(s, task, attempt, retry)
    case LadderEscalated(task, attempt, _, to) => Escalated(s, task, attempt, to)
    case TaskDeferred(task, deferral) => DeferredBy(s, task, deferral)
    case DeferWaitElapsed => s.(states := Woken(s.states))
    case TaskParked(task, question, refund) => ParkedOn(s, task, question, refund)
    case TaskCommitted(task, sha, _) =>
      (match IndexOf(s.taskIds, task) case None => s case Some(i) => s.Put(i, Done(sha), s.progress[i]))
    case TaskFailed(task, failure) => FailedBy(s, task, failure)
    case QuestionRaised(_, question) => Asked(s, question)
    case QuestionAnswered(question, answer, _) => AnsweredBy(s, question, answer)
    case RunFinished(finish) => s.(finished := Some(finish))
  }

  function Fold(s: State, log: seq<Event>): (r: State)
    requires s.Aligned()
    ensures r.Aligned() && r.taskIds == s.taskIds
  {
    if log == [] then s else Step(Fold(s, log[..|log| - 1]), log[|log| - 1])
  }

  lemma FoldOne(s: State, e: Event)
    requires s.Aligned()
    ensures Fold(s, [e]) == Step(s, e)
  {
    assert [e][..0] == [];
  }

  lemma {:induction false} FoldConcat(s: State, a: seq<Event>, b: seq<Event>)
    requires s.Aligned()
    ensures Fold(s, a + b) == Fold(Fold(s, a), b)
  {
    if b == [] {
      assert a + b == a;
    } else {
      var n := |b| - 1;
      assert (a + b)[..|a| + n] == a + b[..n];
      FoldConcat(s, a, b[..n]);
    }
  }
}
