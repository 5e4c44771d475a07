// What a log says of each field of the state, field by field (src/events.rs:1000-1433). The fold goes event by event; here
// every field is read from the whole log on its own, for any log and any plan.
module Readback {
  import opened Prelude
  import opened Ladder
  import opened Events
  import RunState

  /// Task i is the one this id names: the first of the plan with it.
  ghost predicate Names(ids: seq<TaskId>, i: nat, task: TaskId) {
    i < |ids| && ids[i] == task && forall j :: 0 <= j < i ==> ids[j] != task
  }

  lemma NamesIsIndex(ids: seq<TaskId>, i: nat, task: TaskId)
    ensures Names(ids, i, task) <==> IndexOf(ids, task) == Some(i)
  {
  }

  // --------------------------------------------------- one event, one field

  /// What the ladder decided, whichever way it was recorded: with the settlement, or in an append of its own.
  function DecisionIn(e: Event): Option<(TaskId, u32, AttemptTransition)> {
    match e
    case AttemptFinished(task, attempt, _, _, _, _, Some(transition), _) => Some((task, attempt, transition))
    case LadderRetry(task, attempt, _, retry) => Some((task, attempt, ToRetry(retry)))
    case LadderEscalated(task, attempt, _, to) => Some((task, attempt, ToEscalate(to)))
    case TaskDeferred(task, deferral) => Some((task, 0, ToDefer(deferral)))
    case TaskFailed(task, failure) => Some((task, 0, ToFail(failure)))
    case _ => None
  }

  /// A task parked on a question, whichever way it was recorded.
  function ParkIn(e: Event): Option<(TaskId, QuestionId, bool)> {
    match e
    case AttemptFinished(task, _, _, _, _, Some(parking), _, _) => Some((task, parking.question.id, parking.refund))
    case TaskParked(task, question, refund) => Some((task, question, refund))
    case _ => None
  }

  ghost predicate Decides(ids: seq<TaskId>, i: nat, e: Event) {
    DecisionIn(e).Some? && Names(ids, i, DecisionIn(e).value.0)
  }

  function Decision(e: Event): AttemptTransition
    requires DecisionIn(e).Some?
  {
    DecisionIn(e).value.2
  }

  ghost predicate Parks(ids: seq<TaskId>, i: nat, e: Event) {
    ParkIn(e).Some? && Names(ids, i, ParkIn(e).value.0)
  }

  ghost predicate Starts(ids: seq<TaskId>, i: nat, e: Event) {
    e.AttemptStarted? && Names(ids, i, e.task)
  }

  ghost predicate Settles(ids: seq<TaskId>, i: nat, e: Event) {
    (e.AttemptFinished? || e.AttemptInterrupted?) && Names(ids, i, e.task)
  }

  /// These words reach task i: it waits on that question, which names it and nobody has answered.
  ghost predicate Frees(s: State, i: nat, e: Event)
    requires s.Aligned() && i < |s.taskIds|
  {
    && e.QuestionAnswered? && e.answer.Answered? && s.states[i] == AwaitingInput(e.question)
    && Names(s.taskIds, i, s.taskIds[i]) && Open(s, e.question).Some?
    && s.taskIds[i] in Open(s, e.question).value.affected
  }

  /// The question of this name, if nobody has answered it; of two with the same name, the one asked first.
  ghost function Open(s: State, id: QuestionId): Option<Question> {
    if exists k :: AskedFirst(s.questions, id, k) && s.questions[k].answer.None? then
      var k :| AskedFirst(s.questions, id, k) && s.questions[k].answer.None?;
      Some(s.questions[k].question)
    else None
  }

  ghost predicate AskedFirst(qs: seq<QuestionRecord>, id: QuestionId, k: int) {
    0 <= k < |qs| && qs[k].question.id == id && forall j :: 0 <= j < k ==> qs[j].question.id != id
  }

  lemma OpenIs(s: State, id: QuestionId)
    ensures
      var k := Position(s.questions, id);
      Open(s, id) == if k.Some? && s.questions[k.value].answer.None? then Some(s.questions[k.value].question) else None
  {
    var k := Position(s.questions, id);
    if k.Some? {
      assert AskedFirst(s.questions, id, k.value);
    }
  }

  lemma FreesIs(s: State, i: nat, e: Event)
    requires s.Aligned() && i < |s.taskIds| && e.QuestionAnswered?
    ensures
      var r, k := Step(s, e), Position(s.questions, e.question);
      && r.states[i] == (if Frees(s, i, e) then Pending else s.states[i])
      && (Frees(s, i, e) ==>
            && k.Some? && Open(s, e.question) == Some(s.questions[k.value].question)
            && r.progress[i] == AfterAnswer(s.progress[i], s.questions[k.value].question, e.answer.text))
      && (!Frees(s, i, e) ==> r.progress[i] == s.progress[i])
  {
    NamesIsIndex(s.taskIds, i, s.taskIds[i]);
    OpenIs(s, e.question);
  }

  function Or<T>(said: Option<T>, before: T): T {
    if said.Some? then said.value else before
  }

  ghost function RungSaid(ids: seq<TaskId>, i: nat, e: Event): Option<nat> {
    if Starts(ids, i, e) then Some(e.rung)
    else if Decides(ids, i, e) && Decision(e).ToEscalate? then Some(Decision(e).escalation.toRung)
    else None
  }

  ghost function AttemptsSaid(ids: seq<TaskId>, i: nat, e: Event): Option<u32> {
    if Starts(ids, i, e) then Some(e.attempt) else None
  }

  ghost function FlightSaid(ids: seq<TaskId>, i: nat, e: Event): Option<Option<InFlight>> {
    if Starts(ids, i, e) then Some(Some(InFlight(e.attempt, e.rung, e.start.tier, e.start.model, e.profile, e.start.pool)))
    else if Settles(ids, i, e) then Some(None)
    else None
  }

  /// Anything that throws the attempt's tree away throws its conversation away with it.
  ghost predicate Discards(ids: seq<TaskId>, i: nat, e: Event) {
    || e.RunResumed? || Parks(ids, i, e) || (e.AttemptInterrupted? && Names(ids, i, e.task))
    || (Decides(ids, i, e) && (Decision(e).ToEscalate? || Decision(e).ToDefer?))
  }

  ghost function SessionSaid(ids: seq<TaskId>, i: nat, e: Event): Option<Option<string>> {
    if Discards(ids, i, e) then Some(None)
    else if Starts(ids, i, e) then Some(e.start.resumeSession)
    else if Settles(ids, i, e) && e.record.sessionId.Some? then Some(e.record.sessionId)
    else None
  }

  ghost function ResumeSaid(ids: seq<TaskId>, i: nat, e: Event): Option<bool> {
    if Discards(ids, i, e) then Some(false)
    else if Decides(ids, i, e) && Decision(e).ToRetry? then Some(Decision(e).retry.resume)
    else None
  }

  ghost function DefersSaid(ids: seq<TaskId>, i: nat, e: Event): Option<u32> {
    if Decides(ids, i, e) && Decision(e).ToDefer? then Some(Decision(e).deferral.defers) else None
  }

  ghost function RecordsSaid(ids: seq<TaskId>, i: nat, e: Event): seq<AttemptRecord> {
    if Settles(ids, i, e) then [e.record] else []
  }

  /// What the next attempt is told: the ladder's summary of a retry or a climb, and a person's own words.
  ghost function FeedbackSaid(s: State, i: nat, e: Event): seq<Feedback>
    requires s.Aligned() && i < |s.taskIds|
  {
    if Decides(s.taskIds, i, e) then
      var attempt := DecisionIn(e).value.1;
      match Decision(e)
      case ToRetry(Retry(_, tier, summary, detail)) => [Feedback(attempt, Some(tier), summary, detail, false)]
      case ToEscalate(Escalation(_, tier, summary, detail)) => [Feedback(attempt, Some(tier), summary, detail, false)]
      case _ => []
    else if Frees(s, i, e) && Open(s, e.question).value.kind != ApproveSpend && e.answer.text !in Open(s, e.question).value.options
    then [Feedback(s.progress[i].attempts, None, "the operator answered the open question", Some(e.answer.text), true)]
    else []
  }

  /// How many attempts the rung is charged with after this event, if it says anything about that.
  ghost function Charged(s: State, i: nat, e: Event): u32
    requires s.Aligned() && i < |s.taskIds|
  {
    var ids, n := s.taskIds, s.progress[i].attemptsOnRung;
    if Starts(ids, i, e) then (if n < 0xFFFF_FFFF then n + 1 else n)
    else if e.AttemptInterrupted? && Names(ids, i, e.task) then OneLess(n)
    else if Frees(s, i, e) then (if Open(s, e.question).value.kind == Unblock then 0 else n)
    else
      var decided :=
        if Decides(ids, i, e) && Decision(e).ToEscalate? then 0
        else if Decides(ids, i, e) && Decision(e).ToDefer? then OneLess(n)
        else n;
      if Parks(ids, i, e) && ParkIn(e).value.2 then OneLess(decided) else decided
  }

  function OneLess(n: u32): u32 {
    if n > 0 then n - 1 else 0
  }

  ghost function StateSaid(s: State, i: nat, e: Event): Option<TaskState>
    requires s.Aligned() && i < |s.taskIds|
  {
    if Parks(s.taskIds, i, e) then Some(AwaitingInput(ParkIn(e).value.1))
    else if Decides(s.taskIds, i, e) && Decision(e).ToDefer? then Some(Deferred)
    else if Decides(s.taskIds, i, e) && Decision(e).ToFail? then
      Some(FailedTask(Decision(e).failure.kind, Decision(e).failure.reason))
    else if e.TaskCommitted? && Names(s.taskIds, i, e.task) then Some(Done(e.sha))
    else if Frees(s, i, e) then Some(Pending)
    else if (e.RunResumed? || e.DeferWaitElapsed?) && s.states[i] == Deferred then Some(Pending)
    else None
  }

  /// The run stops over a failure that says so, of a task it knows.
  ghost predicate Halts(ids: seq<TaskId>, e: Event) {
    && DecisionIn(e).Some? && Decision(e).ToFail? && Decision(e).failure.haltsRun
    && DecisionIn(e).value.0 in ids
  }

  /// The questions an event opens; a settlement opens its own only for a task it knows.
  function Opens(ids: seq<TaskId>, e: Event): seq<Question> {
    match e
    case QuestionRaised(_, question) => [question]
    case AttemptFinished(task, _, _, _, _, Some(parking), _, _) => if task in ids then [parking.question] else []
    case _ => []
  }

  // ------------------------------------------------------ the fold, by field

  /// Where the attempt stands.
  ghost predicate ReadsAttempt(ids: seq<TaskId>, i: nat, e: Event, p: Progress, q: Progress) {
    && q.rung == Or(RungSaid(ids, i, e), p.rung)
    && q.attempts == Or(AttemptsSaid(ids, i, e), p.attempts)
    && q.inFlight == Or(FlightSaid(ids, i, e), p.inFlight)
    && q.session == Or(SessionSaid(ids, i, e), p.session)
    && q.records == p.records + RecordsSaid(ids, i, e)
  }

  /// What was decided about it, and by whom.
  ghost predicate ReadsDecision(s: State, i: nat, e: Event, q: Progress, st: TaskState)
    requires s.Aligned() && i < |s.taskIds|
  {
    var ids, p := s.taskIds, s.progress[i];
    && q.resumeNext == (if Frees(s, i, e) then false else Or(ResumeSaid(ids, i, e), p.resumeNext))
    && q.defers == (if Frees(s, i, e) then 0 else Or(DefersSaid(ids, i, e), p.defers))
    && q.feedback == p.feedback + FeedbackSaid(s, i, e)
    && q.attemptsOnRung == Charged(s, i, e)
    && st == Or(StateSaid(s, i, e), s.states[i])
  }

  ghost predicate ReadsTask(s: State, e: Event, i: nat)
    requires s.Aligned() && i < |s.taskIds|
  {
    && ReadsAttempt(s.taskIds, i, e, s.progress[i], Step(s, e).progress[i])
    && ReadsDecision(s, i, e, Step(s, e).progress[i], Step(s, e).states[i])
  }

  /// Events about one task leave the others alone.
  function About(e: Event): Option<TaskId> {
    match e
    case AttemptStarted(task, _, _, _, _) => Some(task)
    case AttemptInterrupted(task, _, _, _, _) => Some(task)
    case AttemptFinished(task, _, _, _, _, _, _, _) => Some(task)
    case LadderRetry(task, _, _, _) => Some(task)
    case LadderEscalated(task, _, _, _) => Some(task)
    case TaskDeferred(task, _) => Some(task)
    case TaskFailed(task, _) => Some(task)
    case TaskParked(task, _, _) => Some(task)
    case TaskCommitted(task, _, _) => Some(task)
    case _ => None
  }

  lemma OthersStay(s: State, e: Event, i: nat)
    requires s.Aligned() && i < |s.taskIds| && About(e).Some? && IndexOf(s.taskIds, About(e).value) != Some(i)
    ensures Step(s, e).progress[i] == s.progress[i] && Step(s, e).states[i] == s.states[i]
  {
    if e.AttemptFinished? {
      OthersStayFinished(s, e, i);
    }
  }

  lemma OthersStayFinished(s: State, e: Event, i: nat)
    requires s.Aligned() && i < |s.taskIds| && e.AttemptFinished? && IndexOf(s.taskIds, e.task) != Some(i)
    ensures Step(s, e).progress[i] == s.progress[i] && Step(s, e).states[i] == s.states[i]
  {
    match IndexOf(s.taskIds, e.task)
    case None =>
    case Some(j) =>
      var finished := s.Put(j, s.states[j], AfterFinish(s.progress[j], e.record));
      if e.transition.Some? {
        TransitionSpares(finished, e.task, e.attempt, e.transition.value, i);
      }
  }

  lemma TransitionSpares(s: State, task: TaskId, attempt: u32, t: AttemptTransition, i: nat)
    requires s.Aligned() && i < |s.taskIds| && IndexOf(s.taskIds, task) != Some(i)
    ensures
      var r := Transitioned(s, task, attempt, t);
      r.taskIds == s.taskIds && r.progress[i] == s.progress[i] && r.states[i] == s.states[i]
  {
  }

  lemma NothingSaid(s: State, e: Event, i: nat)
    requires s.Aligned() && i < |s.taskIds| && About(e).Some? && !Names(s.taskIds, i, About(e).value)
    ensures ReadsAttempt(s.taskIds, i, e, s.progress[i], s.progress[i]) && ReadsDecision(s, i, e, s.progress[i], s.states[i])
  {
  }

  lemma OtherReads(s: State, e: Event, i: nat)
    requires s.Aligned() && i < |s.taskIds| && About(e).Some? && IndexOf(s.taskIds, About(e).value) != Some(i)
    ensures ReadsTask(s, e, i)
  {
    NamesIsIndex(s.taskIds, i, About(e).value);
    OthersStay(s, e, i);
    NothingSaid(s, e, i);
  }

  lemma StartReads(s: State, e: Event, i: nat)
    requires s.Aligned() && i < |s.taskIds| && e.AttemptStarted? && IndexOf(s.taskIds, e.task) == Some(i)
    ensures ReadsTask(s, e, i)
  {
    NamesIsIndex(s.taskIds, i, e.task);
  }

  lemma InterruptReads(s: State, e: Event, i: nat)
    requires s.Aligned() && i < |s.taskIds| && e.AttemptInterrupted? && IndexOf(s.taskIds, e.task) == Some(i)
    ensures ReadsTask(s, e, i)
  {
    NamesIsIndex(s.taskIds, i, e.task);
  }

  /// The decision of an append of its own.
  lemma RetryReads(s: State, e: Event, i: nat)
    requires s.Aligned() && i < |s.taskIds| && e.LadderRetry? && IndexOf(s.taskIds, e.task) == Some(i)
    ensures ReadsTask(s, e, i)
  {
    NamesIsIndex(s.taskIds, i, e.task);
  }

  lemma EscalationReads(s: State, e: Event, i: nat)
    requires s.Aligned() && i < |s.taskIds| && e.LadderEscalated? && IndexOf(s.taskIds, e.task) == Some(i)
    ensures ReadsTask(s, e, i)
  {
    NamesIsIndex(s.taskIds, i, e.task);
  }

  lemma DeferralReads(s: State, e: Event, i: nat)
    requires s.Aligned() && i < |s.taskIds| && e.TaskDeferred? && IndexOf(s.taskIds, e.task) == Some(i)
    ensures ReadsTask(s, e, i)
  {
    NamesIsIndex(s.taskIds, i, e.task);
  }

  lemma FailureReads(s: State, e: Event, i: nat)
    requires s.Aligned() && i < |s.taskIds| && e.TaskFailed? && IndexOf(s.taskIds, e.task) == Some(i)
    ensures ReadsTask(s, e, i)
  {
    NamesIsIndex(s.taskIds, i, e.task);
  }

  lemma ParkReads(s: State, e: Event, i: nat)
    requires s.Aligned() && i < |s.taskIds| && (e.TaskParked? || e.TaskCommitted?) && IndexOf(s.taskIds, e.task) == Some(i)
    ensures ReadsTask(s, e, i)
  {
    NamesIsIndex(s.taskIds, i, e.task);
  }

  lemma AnswerReads(s: State, e: Event, i: nat)
    requires s.Aligned() && i < |s.taskIds| && e.QuestionAnswered?
    ensures ReadsTask(s, e, i)
  {
    FreesIs(s, i, e);
  }

  lemma ResumeReads(s: State, e: Event, i: nat)
    requires s.Aligned() && i < |s.taskIds| && (e.RunResumed? || e.DeferWaitElapsed?)
    ensures ReadsTask(s, e, i)
  {
  }

  lemma NoneReads(s: State, e: Event, i: nat)
    requires s.Aligned() && i < |s.taskIds| && About(e).None? && !e.QuestionAnswered? && !e.RunResumed? && !e.DeferWaitElapsed?
    ensures ReadsTask(s, e, i)
  {
    NothingSaidAtAll(s, e, i);
  }

  lemma NothingSaidAtAll(s: State, e: Event, i: nat)
    requires s.Aligned() && i < |s.taskIds| && About(e).None? && !e.QuestionAnswered? && !e.RunResumed? && !e.DeferWaitElapsed?
    ensures ReadsAttempt(s.taskIds, i, e, s.progress[i], s.progress[i]) && ReadsDecision(s, i, e, s.progress[i], s.states[i])
  {
  }

  function Decided(p: Progress, attempt: u32, t: AttemptTransition): Progress {
    match t
    case ToRetry(retry) => AfterRetry(p, attempt, retry)
    case ToEscalate(to) => AfterEscalation(p, attempt, to)
    case ToDefer(deferral) => AfterDeferral(p, deferral)
    case ToFail(_) => p
  }

  function DecidedState(st: TaskState, t: AttemptTransition): TaskState {
    match t
    case ToDefer(_) => Deferred
    case ToFail(failure) => FailedTask(failure.kind, failure.reason)
    case _ => st
  }

  /// What a settlement makes of its own task: the record, then the decision, then the park.
  function Settled(p: Progress, e: Event): Progress
    requires e.AttemptFinished?
  {
    var finished := AfterFinish(p, e.record);
    var decided := if e.transition.None? then finished else Decided(finished, e.attempt, e.transition.value);
    if e.parking.None? then decided else Refund(DropSession(decided), e.parking.value.refund)
  }

  function SettledState(st: TaskState, e: Event): TaskState
    requires e.AttemptFinished?
  {
    if e.parking.Some? then AwaitingInput(e.parking.value.question.id)
    else if e.transition.Some? then DecidedState(st, e.transition.value)
    else st
  }

  lemma TransitionIsLocal(s: State, task: TaskId, attempt: u32, t: AttemptTransition, i: nat)
    requires s.Aligned() && i < |s.taskIds| && IndexOf(s.taskIds, task) == Some(i)
    ensures
      var r := Transitioned(s, task, attempt, t);
      && r.taskIds == s.taskIds && r.progress[i] == Decided(s.progress[i], attempt, t)
      && r.states[i] == DecidedState(s.states[i], t)
  {
  }

  lemma FinishIsLocal(s: State, e: Event, i: nat)
    requires s.Aligned() && i < |s.taskIds| && e.AttemptFinished? && IndexOf(s.taskIds, e.task) == Some(i)
    ensures Step(s, e).progress[i] == Settled(s.progress[i], e) && Step(s, e).states[i] == SettledState(s.states[i], e)
  {
    var finished := s.Put(i, s.states[i], AfterFinish(s.progress[i], e.record));
    if e.transition.Some? {
      TransitionIsLocal(finished, e.task, e.attempt, e.transition.value, i);
    }
  }

  lemma FinishReads(s: State, e: Event, i: nat)
    requires s.Aligned() && i < |s.taskIds| && e.AttemptFinished? && IndexOf(s.taskIds, e.task) == Some(i)
    ensures ReadsTask(s, e, i)
  {
    NamesIsIndex(s.taskIds, i, e.task);
    FinishIsLocal(s, e, i);
    SettledAttempt(s.taskIds, i, e, s.progress[i]);
    SettledDecision(s, i, e);
  }

  lemma SettledAttempt(ids: seq<TaskId>, i: nat, e: Event, p: Progress)
    requires e.AttemptFinished? && Names(ids, i, e.task)
    ensures ReadsAttempt(ids, i, e, p, Settled(p, e))
  {
  }

  lemma SettledDecision(s: State, i: nat, e: Event)
    requires s.Aligned() && i < |s.taskIds| && e.AttemptFinished? && Names(s.taskIds, i, e.task)
    ensures ReadsDecision(s, i, e, Settled(s.progress[i], e), SettledState(s.states[i], e))
  {
  }

  /// Every field of every task, after every event.
  lemma StepReadsTask(s: State, e: Event, i: nat)
    requires s.Aligned() && i < |s.taskIds|
    ensures ReadsTask(s, e, i)
  {
    if About(e).None? {
      if e.QuestionAnswered? {
        AnswerReads(s, e, i);
      } else if e.RunResumed? || e.DeferWaitElapsed? {
        ResumeReads(s, e, i);
      } else {
        NoneReads(s, e, i);
      }
    } else if IndexOf(s.taskIds, About(e).value) != Some(i) {
      OtherReads(s, e, i);
    } else if e.AttemptStarted? {
      StartReads(s, e, i);
    } else if e.AttemptInterrupted? {
      InterruptReads(s, e, i);
    } else if e.AttemptFinished? {
      FinishReads(s, e, i);
    } else if e.TaskParked? || e.TaskCommitted? {
      ParkReads(s, e, i);
    } else if e.LadderRetry? {
      RetryReads(s, e, i);
    } else if e.LadderEscalated? {
      EscalationReads(s, e, i);
    } else if e.TaskDeferred? {
      DeferralReads(s, e, i);
    } else {
      FailureReads(s, e, i);
    }
  }

  // ------------------------------------------------------------ the run itself

  /// The run's own fields, after every event.
  ghost predicate ReadsRun(s: State, e: Event)
    requires s.Aligned()
  {
    var r := Step(s, e);
    && r.questions == AnswersKept(s, e) + Unanswered(Opens(s.taskIds, e))
    && r.order == (if FirstStart(s, e) then s.order + [IndexOf(s.taskIds, e.task).value] else s.order)
    && r.haltedAt == (if s.haltedAt.None? && Halts(s.taskIds, e) then Some(DecisionIn(e).value.0) else s.haltedAt)
    && r.budgetStop == (if e.RunResumed? then None
                        else if e.BudgetExceeded? && s.budgetStop.None? then Some(e.stop)
                        else s.budgetStop)
    && r.finished == (if e.RunResumed? then None else if e.RunFinished? then Some(e.finish) else s.finished)
  }

  /// A task starts whose position is not in the running order yet.
  ghost predicate FirstStart(s: State, e: Event) {
    e.AttemptStarted? && e.task in s.taskIds && IndexOf(s.taskIds, e.task).value !in s.order
  }

  /// An answer is kept with its question, the first of that name, unless that one has an answer already.
  ghost function AnswersKept(s: State, e: Event): seq<QuestionRecord> {
    seq(|s.questions|, k requires 0 <= k < |s.questions| =>
      if e.QuestionAnswered? && AskedFirst(s.questions, e.question, k) && s.questions[k].answer.None?
      then QuestionRecord(s.questions[k].question, Some(e.answer)) else s.questions[k])
  }

  function Unanswered(questions: seq<Question>): seq<QuestionRecord> {
    seq(|questions|, k requires 0 <= k < |questions| => QuestionRecord(questions[k], None))
  }

  lemma KeptUnlessAnswered(s: State, e: Event)
    requires !e.QuestionAnswered?
    ensures AnswersKept(s, e) == s.questions
  {
  }

  lemma AnswerReadsRun(s: State, e: Event)
    requires s.Aligned() && e.QuestionAnswered?
    ensures ReadsRun(s, e)
  {
    var k, r := Position(s.questions, e.question), Step(s, e);
    assert r.questions + Unanswered([]) == r.questions;
    if k.Some? {
      assert AskedFirst(s.questions, e.question, k.value);
    }
    assert r.questions == AnswersKept(s, e);
  }

  lemma TransitionReadsRun(s: State, task: TaskId, attempt: u32, t: AttemptTransition)
    requires s.Aligned()
    ensures
      var r := Transitioned(s, task, attempt, t);
      && r.questions == s.questions && r.order == s.order && r.budgetStop == s.budgetStop && r.finished == s.finished
      && r.taskIds == s.taskIds
      && r.haltedAt ==
           if t.ToFail? && t.failure.haltsRun && task in s.taskIds && s.haltedAt.None? then Some(task) else s.haltedAt
  {
  }

  lemma FinishReadsRun(s: State, e: Event)
    requires s.Aligned() && e.AttemptFinished?
    ensures ReadsRun(s, e)
  {
    KeptUnlessAnswered(s, e);
    match IndexOf(s.taskIds, e.task)
    case None => assert s.questions + Unanswered([]) == s.questions;
    case Some(i) =>
      var finished := s.Put(i, s.states[i], AfterFinish(s.progress[i], e.record));
      if e.transition.Some? {
        TransitionReadsRun(finished, e.task, e.attempt, e.transition.value);
      }
      OpenedOne(s, e);
  }

  lemma OpenedOne(s: State, e: Event)
    requires e.AttemptFinished? && e.task in s.taskIds
    ensures Unanswered(Opens(s.taskIds, e)) == if e.parking.Some? then [QuestionRecord(e.parking.value.question, None)] else []
    ensures s.questions + [] == s.questions
  {
  }

  lemma DecisionReadsRun(s: State, e: Event)
    requires s.Aligned() && (e.LadderRetry? || e.LadderEscalated? || e.TaskDeferred? || e.TaskFailed?)
    ensures ReadsRun(s, e)
  {
    KeptUnlessAnswered(s, e);
    TransitionReadsRun(s, e.task, DecisionIn(e).value.1, Decision(e));
    assert s.questions + Unanswered([]) == s.questions;
  }

  lemma StepReadsRun(s: State, e: Event)
    requires s.Aligned()
    ensures ReadsRun(s, e)
  {
    if e.QuestionAnswered? {
      AnswerReadsRun(s, e);
    } else if e.AttemptFinished? {
      FinishReadsRun(s, e);
    } else if e.LadderRetry? || e.LadderEscalated? || e.TaskDeferred? || e.TaskFailed? {
      DecisionReadsRun(s, e);
    } else {
      RestReadsRun(s, e);
    }
  }

  lemma RestReadsRun(s: State, e: Event)
    requires s.Aligned() && DecisionIn(e).None? && !e.QuestionAnswered? && !e.AttemptFinished?
    ensures ReadsRun(s, e)
  {
    KeptUnlessAnswered(s, e);
    assert s.questions + Unanswered([]) == s.questions;
    if e.QuestionRaised? {
      assert Unanswered(Opens(s.taskIds, e)) == [QuestionRecord(e.raised, None)];
    }
  }

  // ------------------------------------------------------------- whole logs

  /// The last thing said in a log, or how it was before.
  ghost predicate Latest<T(!new)>(log: seq<Event>, say: Event -> Option<T>, first: T, v: T) {
    || (v == first && forall k :: 0 <= k < |log| ==> say(log[k]).None?)
    || exists k :: 0 <= k < |log| && SaidLast(log, say, v, k)
  }

  ghost predicate SaidLast<T(!new)>(log: seq<Event>, say: Event -> Option<T>, v: T, k: int)
    requires 0 <= k < |log|
  {
    say(log[k]) == Some(v) && forall j :: k < j < |log| ==> say(log[j]).None?
  }

  lemma LatestGrows<T(!new)>(log: seq<Event>, e: Event, say: Event -> Option<T>, first: T, v: T)
    requires Latest(log, say, first, v)
    ensures Latest(log + [e], say, first, Or(say(e), v))
  {
    var after := log + [e];
    assert forall k :: 0 <= k < |log| ==> after[k] == log[k];
    if say(e).Some? {
      assert SaidLast(after, say, say(e).value, |log|);
    } else if k :| 0 <= k < |log| && SaidLast(log, say, v, k) {
      assert SaidLast(after, say, v, k);
    }
  }

  function RecordsOf(log: seq<Event>, said: Event -> seq<AttemptRecord>): seq<AttemptRecord> {
    if log == [] then [] else RecordsOf(log[..|log| - 1], said) + said(log[|log| - 1])
  }

  /// Everything task i was told, in the order of the log.
  ghost function FeedbackOf(s: State, log: seq<Event>, i: nat): seq<Feedback>
    requires s.Aligned() && i < |s.taskIds|
  {
    if log == [] then []
    else
      var before := log[..|log| - 1];
      FeedbackOf(s, before, i) + FeedbackSaid(Fold(s, before), i, log[|log| - 1])
  }

  ghost function SayRung(ids: seq<TaskId>, i: nat): Event -> Option<nat> { e => RungSaid(ids, i, e) }

  ghost function SayAttempts(ids: seq<TaskId>, i: nat): Event -> Option<u32> { e => AttemptsSaid(ids, i, e) }

  ghost function SayFlight(ids: seq<TaskId>, i: nat): Event -> Option<Option<InFlight>> { e => FlightSaid(ids, i, e) }

  ghost function SaySession(ids: seq<TaskId>, i: nat): Event -> Option<Option<string>> { e => SessionSaid(ids, i, e) }

  ghost function SayRecords(ids: seq<TaskId>, i: nat): Event -> seq<AttemptRecord> { e => RecordsSaid(ids, i, e) }

  /// Any log, any plan: where a task stands is the last thing the log said of it, its records are its settlements', and its
  /// feedback is, in log order, one entry for each retry and climb and one for each answer in words that freed it.
  ghost predicate LogReads(ids: seq<TaskId>, log: seq<Event>, i: nat)
    requires i < |ids|
  {
    var p := Fold(NewState(ids), log).progress[i];
    && Latest(log, SayRung(ids, i), 0, p.rung)
    && Latest(log, SayAttempts(ids, i), 0, p.attempts)
    && Latest(log, SayFlight(ids, i), None, p.inFlight)
    && Latest(log, SaySession(ids, i), None, p.session)
    && p.records == RecordsOf(log, SayRecords(ids, i))
    && p.feedback == FeedbackOf(NewState(ids), log, i)
  }

  lemma LogReadsNext(ids: seq<TaskId>, log: seq<Event>, e: Event, i: nat)
    requires i < |ids| && LogReads(ids, log, i)
    ensures LogReads(ids, log + [e], i)
  {
    var s := Fold(NewState(ids), log);
    assert (log + [e])[..|log|] == log;
    StepReadsTask(s, e, i);
    LatestGrows(log, e, SayRung(ids, i), 0, s.progress[i].rung);
    LatestGrows(log, e, SayAttempts(ids, i), 0, s.progress[i].attempts);
    LatestGrows(log, e, SayFlight(ids, i), None, s.progress[i].inFlight);
    LatestGrows(log, e, SaySession(ids, i), None, s.progress[i].session);
  }

  lemma {:induction false} LogReadsTask(ids: seq<TaskId>, log: seq<Event>, i: nat)
    requires i < |ids|
    ensures LogReads(ids, log, i)
  {
    if log == [] {
      NothingReads(ids, i);
    } else {
      var before, last := log[..|log| - 1], log[|log| - 1];
      LogReadsTask(ids, before, i);
      LogReadsNext(ids, before, last, i);
      assert before + [last] == log;
    }
  }

  lemma NothingReads(ids: seq<TaskId>, i: nat)
    requires i < |ids|
    ensures LogReads(ids, [], i)
  {
  }

  /// The run ended as its last finish says, unless it was resumed since; and halted at the first failure that halts.
  ghost predicate RunReads(ids: seq<TaskId>, log: seq<Event>) {
    var s := Fold(NewState(ids), log);
    && Latest(log, SayFinish(), None, s.finished)
    && if exists k :: HaltsFirst(ids, log, k) then exists k :: HaltsFirst(ids, log, k) && s.haltedAt == Some(DecisionIn(log[k]).value.0)
       else s.haltedAt == None
  }

  ghost predicate HaltsFirst(ids: seq<TaskId>, log: seq<Event>, k: int) {
    0 <= k < |log| && Halts(ids, log[k]) && forall j :: 0 <= j < k ==> !Halts(ids, log[j])
  }

  function FinishSaid(e: Event): Option<Option<Finish>> {
    match e
    case RunResumed(_) => Some(None)
    case RunFinished(finish) => Some(Some(finish))
    case _ => None
  }

  ghost function SayFinish(): Event -> Option<Option<Finish>> { e => FinishSaid(e) }

  lemma HaltsGrows(ids: seq<TaskId>, log: seq<Event>, e: Event)
    ensures (exists k :: HaltsFirst(ids, log + [e], k)) <==> ((exists k :: HaltsFirst(ids, log, k)) || Halts(ids, e))
    ensures forall k :: HaltsFirst(ids, log, k) ==> HaltsFirst(ids, log + [e], k)
    ensures (forall k :: !HaltsFirst(ids, log, k)) && Halts(ids, e) ==> HaltsFirst(ids, log + [e], |log|)
  {
    var after := log + [e];
    assert after[|log|] == e && forall k :: 0 <= k < |log| ==> after[k] == log[k];
    if k :| HaltsFirst(ids, log, k) {
      assert HaltsFirst(ids, after, k);
    } else {
      NobodyHalts(ids, log, |log|);
      if Halts(ids, e) {
        assert HaltsFirst(ids, after, |log|);
      }
    }
  }

  lemma {:induction false} NobodyHalts(ids: seq<TaskId>, log: seq<Event>, n: nat)
    requires n <= |log| && forall k :: !HaltsFirst(ids, log, k)
    ensures forall k :: 0 <= k < n ==> !Halts(ids, log[k])
  {
    if n > 0 {
      NobodyHalts(ids, log, n - 1);
      assert !HaltsFirst(ids, log, n - 1);
    }
  }

  lemma {:induction false} LogReadsRun(ids: seq<TaskId>, log: seq<Event>)
    ensures RunReads(ids, log)
  {
    if log != [] {
      var before, last := log[..|log| - 1], log[|log| - 1];
      LogReadsRun(ids, before);
      RunReadsNext(ids, before, last);
      assert before + [last] == log;
    }
  }

  lemma RunReadsNext(ids: seq<TaskId>, log: seq<Event>, e: Event)
    requires RunReads(ids, log)
    ensures RunReads(ids, log + [e])
  {
    var s := Fold(NewState(ids), log);
    assert (log + [e])[..|log|] == log;
    StepReadsRun(s, e);
    LatestGrows(log, e, SayFinish(), None, s.finished);
    HaltsGrows(ids, log, e);
    assert (log + [e])[|log|] == e && forall k :: 0 <= k < |log| ==> (log + [e])[k] == log[k];
  }

  lemma AnswerFeeds(s: State, e: Event, i: nat)
    requires s.Aligned() && i < |s.taskIds| && e.QuestionAnswered? && e.answer.Answered?
    ensures
      var r := AnsweredBy(s, e.question, e.answer);
      && r.progress[i].feedback == s.progress[i].feedback + FeedbackSaid(s, i, e)
      && (r.states[i] != s.states[i] <==> Frees(s, i, e))
  {
    StepReadsTask(s, e, i);
  }

  /// An answer tells a task it frees exactly one thing, the person's words, if they are words and not one of the answers
  /// offered, and not about spending; it tells no other task anything.
  lemma AnswersTell(s: State, id: QuestionId, text: string, i: nat)
    requires s.Aligned() && i < |s.taskIds|
    ensures
      var r := AnsweredBy(s, id, Answered(text));
      var told := r.progress[i].feedback;
      var q := Open(s, id);
      if r.states[i] != s.states[i] && q.Some? && q.value.kind != ApproveSpend && text !in q.value.options then
        exists f :: told == s.progress[i].feedback + [f] && f.human && f.attempt == s.progress[i].attempts && f.detail == Some(text)
      else told == s.progress[i].feedback
  {
    var e := QuestionAnswered(id, Answered(text), None);
    AnswerFeeds(s, e, i);
    if FeedbackSaid(s, i, e) != [] {
      var f := FeedbackSaid(s, i, e)[0];
      assert FeedbackSaid(s, i, e) == [f] && f.human && f.attempt == s.progress[i].attempts && f.detail == Some(text);
    }
  }

  /// What a reader settles after a death: for each task with an attempt in flight, in the order of the plan, that attempt
  /// as interrupted, with its own identity and nothing reported.
  lemma {:induction false} InterruptionsAre(s: State, n: nat) returns (at: seq<nat>)
    requires s.Aligned() && n <= |s.taskIds|
    ensures |at| == |RunState.Interruptions(s, n)|
    ensures forall k: nat :: k in at <==> k < n && s.progress[k].inFlight != None
    ensures forall j, k :: 0 <= j < k < |at| ==> at[j] < at[k]
    ensures forall j :: 0 <= j < |at| ==> IsInterruption(RunState.Interruptions(s, n)[j], s, at[j])
  {
    at := [];
    if n > 0 {
      at := InterruptionsAre(s, n - 1);
      if s.progress[n - 1].inFlight.Some? {
        at := at + [n - 1];
      }
    }
  }

  predicate IsInterruption(e: Event, s: State, i: nat)
    requires s.Aligned()
  {
    && i < |s.taskIds| && s.progress[i].inFlight.Some? && e.AttemptInterrupted?
    && var f := s.progress[i].inFlight.value;
    && e.task == s.taskIds[i] && (e.attempt, e.rung, e.profile) == (f.attempt, f.rung, f.profile)
    && (e.record.attempt, e.record.tier, e.record.model, e.record.pool) == (f.attempt, f.tier, f.model, f.pool)
    && e.record.cost == None && e.record.reviews == [] && e.record.sessionId == None && !e.record.resumed
    && e.record.failure.Some? && e.record.failure.value.kind == Interrupted && e.record.failure.value.origin == Worker
  }
}
