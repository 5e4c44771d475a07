// What every run of the writer keeps, through crashes and resumes.
module Runs {
  import opened Prelude
  import opened Ladder
  import opened Events
  import opened Decisions
  import opened Writer
  import RunState
  import Schema

  // ------------------------------------------------------------ invariant

  predicate Succeeded(sys: Sys, i: nat)
    requires i < |sys.state.taskIds|
  {
    Owed(sys.log).Some? && Owed(sys.log).value.0 == sys.state.taskIds[i]
  }

  /// A parked task's question is in the state, is about it alone, and was not answered with words.
  predicate ParkedWell(s: State, pol: LadderPolicy, i: nat)
    requires s.Aligned() && i < |s.taskIds|
  {
    s.states[i].AwaitingInput? ==>
      var k := Position(s.questions, s.states[i].question);
      && k.Some?
      && var r := s.questions[k.value];
      && r.question.affected == [s.taskIds[i]]
      && !(r.answer.Some? && r.answer.value.Answered?)
      && (!r.question.kind.Unblock? ==> s.progress[i].attemptsOnRung < pol.attemptsPer)
  }

  /// One task's counters against its policy.
  predicate WithinPolicy(sys: Sys, pol: LadderPolicy, i: nat)
    requires sys.state.Aligned() && i < |sys.state.taskIds|
  {
    var p, st := sys.state.progress[i], sys.state.states[i];
    && p.rung < pol.rungs && p.attemptsOnRung <= pol.attemptsPer && p.defers <= pol.maxDefers
    && (p.inFlight.Some? ==>
          st.Pending? && p.attemptsOnRung >= 1 && p.inFlight.value.rung == p.rung && p.inFlight.value.attempt == p.attempts)
    && ((st.Pending? || st.Deferred?) && p.inFlight.None? && !Succeeded(sys, i) ==> p.attemptsOnRung < pol.attemptsPer)
    && (p.resumeNext ==> p.session.Some?)
    && (st.Deferred? || st.AwaitingInput? ==> !p.resumeNext)
  }

  /// The mode and the state tell the same story.
  predicate ModeAgrees(sys: Sys) 
    requires sys.state.Aligned()
  {
    var s, m := sys.state, sys.mode;
    && (forall i, j :: 0 <= i < |s.progress| && 0 <= j < |s.progress| && s.progress[i].inFlight.Some? && s.progress[j].inFlight.Some? ==> i == j)
    && (forall i :: 0 <= i < |s.progress| && s.progress[i].inFlight.Some? ==> m == Running(i) || m.Down? || m.Repairing?)
    && (m.Running? ==> m.i < |s.taskIds| && s.progress[m.i].inFlight.Some? && s.haltedAt.None? && s.budgetStop.None?)
    && (m.Driving? ==> m.i < |s.taskIds| && s.states[m.i].Pending? && s.haltedAt.None? && s.budgetStop.None?)
    && (m.Publishing? ==> m.i < |s.taskIds| && Succeeded(sys, m.i) && s.haltedAt.None? && s.budgetStop.None?)
    && (Owed(sys.log).Some? ==> Idle(s) && (m.Publishing? || m.Down? || m.Repairing?))
    && (s.finished.Some? ==> Idle(s) && (m.Down? || m.Repairing?))
  }

  /// A conversation to resume belongs to the task the engine is inside of, or the budget stopped the run
  /// before it could be used.
  predicate SessionsHeld(sys: Sys)
    requires sys.state.Aligned()
  {
    var s, m := sys.state, sys.mode;
    m.Down? || m.Repairing? || s.budgetStop.Some? ||
    forall i :: 0 <= i < |s.progress| && s.progress[i].resumeNext && s.states[i].Pending? ==>
      m == Driving(i) || m == Running(i) || m == Publishing(i)
  }

  ghost predicate Inv(cfg: Config, sys: Sys) {
    && sys.state.Aligned() && sys.state.taskIds == Ids(cfg)
    && (forall i :: 0 <= i < |sys.state.taskIds| ==> WithinPolicy(sys, Policy(cfg, i), i))
    && (forall i :: 0 <= i < |sys.state.taskIds| ==> ParkedWell(sys.state, Policy(cfg, i), i))
    && ModeAgrees(sys) && SessionsHeld(sys)
  }

  // ------------------------------------------------------- preservation

  lemma PositionGrows(qs: seq<QuestionRecord>, r: QuestionRecord, id: QuestionId)
    ensures Position(qs, id).Some? ==> Position(qs + [r], id) == Position(qs, id)
    ensures Position(qs, id).None? && r.question.id == id ==> Position(qs + [r], id) == Some(|qs|)
  {
    var k := Position(qs + [r], id);
    assert (qs + [r])[|qs|] == r;
    if Position(qs, id).Some? {
      assert (qs + [r])[Position(qs, id).value] == qs[Position(qs, id).value];
    }
  }

  lemma StartKeeps(cfg: Config, sys: Sys, i: nat, e: Event)
    requires WellFormed(cfg) && Inv(cfg, sys) && Starts(cfg, sys.state, i, e) && Idle(sys.state) && Owed(sys.log).None?
    requires sys.mode.Scheduling? || sys.mode == Driving(i)
    ensures Inv(cfg, Do(sys, Emit(e)))
  {
    forall j | 0 <= j < |sys.state.taskIds|
      ensures WithinPolicy(Do(sys, Emit(e)), Policy(cfg, j), j) && ParkedWell(Do(sys, Emit(e)).state, Policy(cfg, j), j)
    {
      assert WithinPolicy(sys, Policy(cfg, j), j) && ParkedWell(sys.state, Policy(cfg, j), j);
      StartKeepsOne(cfg, sys, i, e, j);
    }
    StartModes(cfg, sys, i, e);
  }

  lemma StartKeepsOne(cfg: Config, sys: Sys, i: nat, e: Event, j: nat)
    requires sys.state.Aligned() && |sys.state.taskIds| == |cfg.header.chains| && RunState.Distinct(sys.state.taskIds)
    requires Starts(cfg, sys.state, i, e) && Owed(sys.log).None? && j < |sys.state.taskIds|
    requires WithinPolicy(sys, Policy(cfg, j), j) && ParkedWell(sys.state, Policy(cfg, j), j)
    requires sys.state.progress[j].inFlight.None?
    ensures WithinPolicy(Do(sys, Emit(e)), Policy(cfg, j), j) && ParkedWell(Do(sys, Emit(e)).state, Policy(cfg, j), j)
  {
    RunState.DistinctIndex(sys.state.taskIds, i);
    assert (sys.log + [e])[|sys.log|] == e;
  }

  lemma StartModes(cfg: Config, sys: Sys, i: nat, e: Event)
    requires sys.state.Aligned() && |sys.state.taskIds| == |cfg.header.chains| && RunState.Distinct(sys.state.taskIds)
    requires Starts(cfg, sys.state, i, e) && ModeAgrees(sys) && SessionsHeld(sys) && Idle(sys.state) && Owed(sys.log).None?
    requires sys.mode.Scheduling? || sys.mode == Driving(i)
    ensures ModeAgrees(Do(sys, Emit(e))) && SessionsHeld(Do(sys, Emit(e)))
  {
    RunState.DistinctIndex(sys.state.taskIds, i);
    assert (sys.log + [e])[|sys.log|] == e;
  }

  /// What a ladder decision does to its own task's progress and state.
  function DecidedProgress(p: Progress, attempt: u32, t: AttemptTransition): Progress {
    match t
    case ToRetry(retry) => AfterRetry(p, attempt, retry)
    case ToEscalate(to) => AfterEscalation(p, attempt, to)
    case ToDefer(deferral) => AfterDeferral(p, deferral)
    case ToFail(_) => p
  }

  function DecidedState(st: TaskState, t: AttemptTransition): TaskState {
    match t
    case ToDefer(_) => Deferred
    case ToFail(failure) => FailedTask(failure.kind, failure.reason)
    case _ => st
  }

  function SettledProgress(p: Progress, e: Event): Progress
    requires e.AttemptFinished?
  {
    var finished := AfterFinish(p, e.record);
    var decided := if e.transition.None? then finished else DecidedProgress(finished, e.attempt, e.transition.value);
    if e.parking.None? then decided else Refund(DropSession(decided), e.parking.value.refund)
  }

  function SettledState(st: TaskState, e: Event): TaskState
    requires e.AttemptFinished?
  {
    if e.parking.Some? then AwaitingInput(e.parking.value.question.id)
    else if e.transition.Some? then DecidedState(st, e.transition.value)
    else st
  }

  function HaltedBy(s: State, task: TaskId, t: AttemptTransition): Option<TaskId> {
    if t.ToFail? && t.failure.haltsRun && s.haltedAt.None? then Some(task) else s.haltedAt
  }

  lemma DecisionIsLocal(s: State, i: nat, task: TaskId, attempt: u32, t: AttemptTransition)
    requires s.Aligned() && IndexOf(s.taskIds, task) == Some(i)
    ensures Transitioned(s, task, attempt, t) ==
      s.Put(i, DecidedState(s.states[i], t), DecidedProgress(s.progress[i], attempt, t)).(haltedAt := HaltedBy(s, task, t))
  {
  }

  lemma SettlementIsLocal(s: State, i: nat, e: Event)
    requires s.Aligned() && e.AttemptFinished? && IndexOf(s.taskIds, e.task) == Some(i)
    ensures
      var halted := if e.transition.None? then s.haltedAt else HaltedBy(s, e.task, e.transition.value);
      var local := s.Put(i, SettledState(s.states[i], e), SettledProgress(s.progress[i], e)).(haltedAt := halted);
      Step(s, e) == if e.parking.None? then local else Asked(local, e.parking.value.question)
  {
    var finished := s.Put(i, s.states[i], AfterFinish(s.progress[i], e.record));
    if e.transition.Some? {
      DecisionIsLocal(finished, i, e.task, e.attempt, e.transition.value);
    }
    assert forall p', st' :: finished.Put(i, st', p').progress == s.progress[i := p'] && finished.Put(i, st', p').states == s.states[i := st'];
  }

  /// A settlement of task i, and what its own counters promise before it.
  ghost predicate SettlesOwn(cfg: Config, sys: Sys, i: nat, e: Event) {
    && sys.state.Aligned() && |sys.state.taskIds| == |cfg.header.chains| && i < |sys.state.taskIds|
    && sys.mode == Running(i) && Settles(cfg, sys.state, i, e) && IndexOf(sys.state.taskIds, e.task) == Some(i)
    && WithinPolicy(sys, Policy(cfg, i), i) && |cfg.header.chains[i].tiers| <= U32_MAX
  }

  lemma SettlementWithin(cfg: Config, sys: Sys, i: nat, e: Event)
    requires SettlesOwn(cfg, sys, i, e)
    ensures WithinPolicy(Do(sys, Emit(e)), Policy(cfg, i), i)
  {
    SettlementIsLocal(sys.state, i, e);
    assert (sys.log + [e])[|sys.log|] == e;
    if e.record.failure.Some? {
      DecidedWithin(cfg, sys.state, i, e);
    }
  }

  /// What the ladder's decision leaves its task with.
  lemma DecidedWithin(cfg: Config, s: State, i: nat, e: Event)
    requires s.Aligned() && |s.taskIds| == |cfg.header.chains| && Settles(cfg, s, i, e) && e.record.failure.Some?
    requires s.states[i].Pending? && |cfg.header.chains[i].tiers| <= U32_MAX
    requires
      var p, pol := s.progress[i], Policy(cfg, i);
      p.rung < pol.rungs && p.attemptsOnRung <= pol.attemptsPer && p.defers <= pol.maxDefers
      && (p.resumeNext ==> p.session.Some?)
      && p.attemptsOnRung >= 1
    ensures
      var q, st, pol := SettledProgress(s.progress[i], e), SettledState(s.states[i], e), Policy(cfg, i);
      && q.rung < pol.rungs && q.attemptsOnRung <= pol.attemptsPer && q.defers <= pol.maxDefers && q.inFlight.None?
      && (st.Pending? || st.Deferred? ==> q.attemptsOnRung < pol.attemptsPer)
      && (q.resumeNext ==> q.session.Some?)
      && (st.Deferred? || st.AwaitingInput? ==> !q.resumeNext)
  {
  }

  lemma DecidedParks(cfg: Config, s: State, i: nat, e: Event)
    requires s.Aligned() && |s.taskIds| == |cfg.header.chains| && Settles(cfg, s, i, e) && e.parking.Some?
    requires 1 <= s.progress[i].attemptsOnRung <= Policy(cfg, i).attemptsPer
    ensures e.parking.value.question.affected == [e.task] && FreshQuestion(s, e.parking.value.question.id)
    ensures !e.parking.value.question.kind.Unblock? ==>
      SettledProgress(s.progress[i], e).attemptsOnRung < Policy(cfg, i).attemptsPer
  {
  }

  lemma SettlementParks(cfg: Config, sys: Sys, i: nat, e: Event)
    requires SettlesOwn(cfg, sys, i, e)
    ensures ParkedWell(Do(sys, Emit(e)).state, Policy(cfg, i), i)
  {
    SettlementIsLocal(sys.state, i, e);
    if e.parking.Some? {
      DecidedParks(cfg, sys.state, i, e);
      var q := QuestionRecord(e.parking.value.question, None);
      PositionGrows(sys.state.questions, q, q.question.id);
      assert (sys.state.questions + [q])[|sys.state.questions|] == q;
    }
  }

  lemma SettlementKeepsOther(cfg: Config, sys: Sys, i: nat, e: Event, j: nat)
    requires WellFormed(cfg) && Inv(cfg, sys) && sys.mode == Running(i) && Settles(cfg, sys.state, i, e)
    requires j < |sys.state.taskIds| && j != i
    ensures WithinPolicy(Do(sys, Emit(e)), Policy(cfg, j), j) && ParkedWell(Do(sys, Emit(e)).state, Policy(cfg, j), j)
  {
    var s := sys.state;
    RunState.DistinctIndex(s.taskIds, i);
    SettlementIsLocal(s, i, e);
    assert (sys.log + [e])[|sys.log|] == e;
    assert WithinPolicy(sys, Policy(cfg, j), j) && ParkedWell(s, Policy(cfg, j), j);
    assert s.taskIds[j] != s.taskIds[i];
    if e.parking.Some? && s.states[j].AwaitingInput? {
      PositionGrows(s.questions, QuestionRecord(e.parking.value.question, None), s.states[j].question);
    }
  }

  lemma SettlementModes(cfg: Config, sys: Sys, i: nat, e: Event)
    requires SettlesOwn(cfg, sys, i, e) && ModeAgrees(sys)
    ensures ModeAgrees(Do(sys, Emit(e)))
  {
    SettlementIdles(cfg, sys, i, e);
    SettlementIsLocal(sys.state, i, e);
    assert (sys.log + [e])[|sys.log|] == e;
  }

  lemma SettlementIdles(cfg: Config, sys: Sys, i: nat, e: Event)
    requires SettlesOwn(cfg, sys, i, e) && ModeAgrees(sys)
    ensures Idle(Step(sys.state, e))
  {
    SettlementIsLocal(sys.state, i, e);
  }

  lemma SettlementSessions(cfg: Config, sys: Sys, i: nat, e: Event)
    requires SettlesOwn(cfg, sys, i, e) && SessionsHeld(sys)
    ensures SessionsHeld(Do(sys, Emit(e)))
  {
    SettlementIsLocal(sys.state, i, e);
    assert (sys.log + [e])[|sys.log|] == e;
  }

  lemma SettlementKeeps(cfg: Config, sys: Sys, i: nat, e: Event)
    requires WellFormed(cfg) && Inv(cfg, sys) && sys.mode == Running(i) && Settles(cfg, sys.state, i, e)
    ensures Inv(cfg, Do(sys, Emit(e)))
  {
    RunState.DistinctIndex(sys.state.taskIds, i);
    assert WithinPolicy(sys, Policy(cfg, i), i);
    assert SettlesOwn(cfg, sys, i, e);
    forall j | 0 <= j < |sys.state.taskIds|
      ensures WithinPolicy(Do(sys, Emit(e)), Policy(cfg, j), j) && ParkedWell(Do(sys, Emit(e)).state, Policy(cfg, j), j)
    {
      if j == i {
        SettlementWithin(cfg, sys, i, e);
        SettlementParks(cfg, sys, i, e);
      } else {
        SettlementKeepsOther(cfg, sys, i, e, j);
      }
    }
    SettlementModes(cfg, sys, i, e);
    SettlementSessions(cfg, sys, i, e);
  }

  lemma CommitKeepsOne(sys: Sys, pol: LadderPolicy, e: Event, j: nat)
    requires sys.state.Aligned() && RunState.Distinct(sys.state.taskIds) && Commits(sys.log, e) && Idle(sys.state)
    requires j < |sys.state.taskIds| && WithinPolicy(sys, pol, j) && ParkedWell(sys.state, pol, j)
    ensures WithinPolicy(Do(sys, Emit(e)), pol, j) && ParkedWell(Do(sys, Emit(e)).state, pol, j)
  {
    assert (sys.log + [e])[|sys.log|] == e;
    if e.task == sys.state.taskIds[j] {
      RunState.DistinctIndex(sys.state.taskIds, j);
    }
  }

  lemma CommitModes(sys: Sys, e: Event)
    requires sys.state.Aligned() && RunState.Distinct(sys.state.taskIds) && ModeAgrees(sys) && SessionsHeld(sys)
    requires Commits(sys.log, e) && (sys.mode.Publishing? || sys.mode.Repairing?)
    ensures ModeAgrees(Do(sys, Emit(e))) && SessionsHeld(Do(sys, Emit(e)))
  {
    assert (sys.log + [e])[|sys.log|] == e;
    if sys.mode.Publishing? {
      RunState.DistinctIndex(sys.state.taskIds, sys.mode.i);
    }
  }

  lemma CommitKeeps(cfg: Config, sys: Sys, e: Event)
    requires WellFormed(cfg) && Inv(cfg, sys) && Commits(sys.log, e) && (sys.mode.Publishing? || sys.mode.Repairing?)
    ensures Inv(cfg, Do(sys, Emit(e)))
  {
    forall j | 0 <= j < |sys.state.taskIds|
      ensures WithinPolicy(Do(sys, Emit(e)), Policy(cfg, j), j) && ParkedWell(Do(sys, Emit(e)).state, Policy(cfg, j), j)
    {
      assert WithinPolicy(sys, Policy(cfg, j), j) && ParkedWell(sys.state, Policy(cfg, j), j);
      CommitKeepsOne(sys, Policy(cfg, j), e, j);
    }
    CommitModes(sys, e);
  }

  /// Events that move no task: they fold to nothing, or only mark the run.
  lemma QuietKeeps(cfg: Config, sys: Sys, e: Event)
    requires Inv(cfg, sys) && Owed(sys.log).None? && (sys.mode.Repairing? || sys.mode.Scheduling? || sys.mode.Driving?)
    requires Quiet(sys.mode, e)
    ensures Inv(cfg, Do(sys, Emit(e)))
  {
    forall j | 0 <= j < |sys.state.taskIds|
      ensures WithinPolicy(Do(sys, Emit(e)), Policy(cfg, j), j) && ParkedWell(Do(sys, Emit(e)).state, Policy(cfg, j), j)
    {
      assert WithinPolicy(sys, Policy(cfg, j), j) && ParkedWell(sys.state, Policy(cfg, j), j);
      QuietKeepsOne(sys, Policy(cfg, j), e, j);
    }
    QuietModes(sys, e);
    QuietSessions(sys, e);
  }

  predicate Quiet(mode: Mode, e: Event) {
    e.DesignDefect? || e.CapacitySnapshot? || e.PoolExhausted? || (e.RunFinished? && mode.Scheduling?)
    || (e.BudgetExceeded? && !mode.Repairing?)
  }

  lemma QuietKeepsOne(sys: Sys, pol: LadderPolicy, e: Event, j: nat)
    requires sys.state.Aligned() && j < |sys.state.taskIds| && Quiet(sys.mode, e) && Owed(sys.log).None?
    requires WithinPolicy(sys, pol, j) && ParkedWell(sys.state, pol, j)
    ensures WithinPolicy(Do(sys, Emit(e)), pol, j) && ParkedWell(Do(sys, Emit(e)).state, pol, j)
  {
    assert (sys.log + [e])[|sys.log|] == e;
  }

  lemma QuietSessions(sys: Sys, e: Event)
    requires sys.state.Aligned() && SessionsHeld(sys) && Quiet(sys.mode, e)
    requires sys.mode.Repairing? || sys.mode.Scheduling? || sys.mode.Driving?
    ensures SessionsHeld(Do(sys, Emit(e)))
  {
  }

  lemma QuietModes(sys: Sys, e: Event)
    requires sys.state.Aligned() && ModeAgrees(sys) && Owed(sys.log).None? && Quiet(sys.mode, e)
    requires sys.mode.Repairing? || sys.mode.Scheduling? || sys.mode.Driving?
    ensures ModeAgrees(Do(sys, Emit(e)))
  {
    assert (sys.log + [e])[|sys.log|] == e;
  }

  lemma DeclineKeepsOne(cfg: Config, sys: Sys, e: Event, j: nat)
    requires Inv(cfg, sys) && FailsDeclined(sys.state, e) && Owed(sys.log).None? && j < |sys.state.taskIds|
    ensures WithinPolicy(Do(sys, Emit(e)), Policy(cfg, j), j) && ParkedWell(Do(sys, Emit(e)).state, Policy(cfg, j), j)
  {
    assert (sys.log + [e])[|sys.log|] == e;
    assert WithinPolicy(sys, Policy(cfg, j), j) && ParkedWell(sys.state, Policy(cfg, j), j);
  }

  lemma DeclineKeeps(cfg: Config, sys: Sys, e: Event)
    requires WellFormed(cfg) && Inv(cfg, sys) && FailsDeclined(sys.state, e) && Owed(sys.log).None?
    requires sys.mode.Repairing? || sys.mode.Scheduling?
    ensures Inv(cfg, Do(sys, Emit(e)))
  {
    forall j | 0 <= j < |sys.state.taskIds|
      ensures WithinPolicy(Do(sys, Emit(e)), Policy(cfg, j), j) && ParkedWell(Do(sys, Emit(e)).state, Policy(cfg, j), j)
    {
      DeclineKeepsOne(cfg, sys, e, j);
    }
    DeclineModes(sys, e);
  }

  lemma DeclineModes(sys: Sys, e: Event)
    requires sys.state.Aligned() && ModeAgrees(sys) && SessionsHeld(sys) && FailsDeclined(sys.state, e) && Owed(sys.log).None?
    requires sys.mode.Repairing? || sys.mode.Scheduling?
    ensures ModeAgrees(Do(sys, Emit(e))) && SessionsHeld(Do(sys, Emit(e)))
  {
    assert (sys.log + [e])[|sys.log|] == e;
  }

  /// Waking deferred work, on its own or as part of a resume that also drops every session.
  lemma WakeKeeps(cfg: Config, sys: Sys, e: Event)
    requires Inv(cfg, sys) && Owed(sys.log).None? && Idle(sys.state)
    requires (e.DeferWaitElapsed? && sys.mode.Scheduling?) || (e.RunResumed? && sys.mode.Repairing?)
    ensures Inv(cfg, Do(sys, Emit(e)))
  {
    assert (sys.log + [e])[|sys.log|] == e;
    var r := Do(sys, Emit(e));
    forall j | 0 <= j < |r.state.taskIds|
      ensures WithinPolicy(r, Policy(cfg, j), j) && ParkedWell(r.state, Policy(cfg, j), j)
    {
      assert WithinPolicy(sys, Policy(cfg, j), j) && ParkedWell(sys.state, Policy(cfg, j), j);
    }
    forall j | 0 <= j < |r.state.taskIds| && r.state.progress[j].resumeNext && r.state.states[j].Pending?
      ensures sys.state.states[j].Pending? && sys.state.progress[j].resumeNext && e.DeferWaitElapsed?
    {
      assert WithinPolicy(sys, Policy(cfg, j), j);
    }
  }

  lemma InterruptKeeps(cfg: Config, sys: Sys, e: Event)
    requires WellFormed(cfg) && Inv(cfg, sys) && Interrupts(sys.state, e) && sys.mode.Repairing? && Owed(sys.log).None?
    ensures Inv(cfg, Do(sys, Emit(e)))
  {
    assert (sys.log + [e])[|sys.log|] == e;
    var r := Do(sys, Emit(e));
    var i := IndexOf(sys.state.taskIds, e.task).value;
    assert WithinPolicy(sys, Policy(cfg, i), i);
    forall j | 0 <= j < |r.state.taskIds|
      ensures WithinPolicy(r, Policy(cfg, j), j) && ParkedWell(r.state, Policy(cfg, j), j)
    {
      assert WithinPolicy(sys, Policy(cfg, j), j) && ParkedWell(sys.state, Policy(cfg, j), j);
    }
  }

  lemma AnswerKeepsPosition(qs: seq<QuestionRecord>, k: nat, a: Answer, id: QuestionId)
    requires k < |qs|
    ensures Position(qs[k := QuestionRecord(qs[k].question, Some(a))], id) == Position(qs, id)
  {
    var after := qs[k := QuestionRecord(qs[k].question, Some(a))];
    assert forall j :: 0 <= j < |qs| ==> after[j].question == qs[j].question;
    assert Position(qs, id).Some? ==> after[Position(qs, id).value].question.id == id;
  }

  /// What an answer does to each task: a task it finds waiting is released, no other is touched.
  lemma AnswerIsLocal(s: State, e: Event, j: nat)
    requires s.Aligned() && RunState.Distinct(s.taskIds) && Answers(s, e) && j < |s.taskIds|
    requires s.states[j] == AwaitingInput(e.question) ==>
      s.questions[Position(s.questions, e.question).value].question.affected == [s.taskIds[j]]
    ensures
      var q := s.questions[Position(s.questions, e.question).value].question;
      var released := e.answer.Answered? && s.states[j] == AwaitingInput(e.question);
      && Step(s, e).states[j] == (if released then Pending else s.states[j])
      && Step(s, e).progress[j] == (if released then AfterAnswer(s.progress[j], q, e.answer.text) else s.progress[j])
  {
    RunState.DistinctIndex(s.taskIds, j);
  }

  lemma AnswerQuestions(s: State, e: Event)
    requires s.Aligned() && Answers(s, e)
    ensures
      var k, r := Position(s.questions, e.question).value, Step(s, e);
      && r.questions == s.questions[k := QuestionRecord(s.questions[k].question, Some(e.answer))]
      && r.haltedAt == s.haltedAt && r.budgetStop == s.budgetStop && r.finished == s.finished
  {
  }

  /// An answer launches nothing and resumes nothing.
  predicate AnswerMoves(sys: Sys, e: Event, j: nat)
    requires sys.state.Aligned() && j < |sys.state.taskIds|
  {
    var s, r := sys.state, Step(sys.state, e);
    && r.progress[j].inFlight == s.progress[j].inFlight
    && (r.progress[j].resumeNext && r.states[j].Pending? ==> s.progress[j].resumeNext && s.states[j].Pending?)
  }

  lemma AnswerKeepsOne(cfg: Config, sys: Sys, e: Event, j: nat)
    requires WellFormed(cfg) && Inv(cfg, sys) && Answers(sys.state, e) && sys.mode.Scheduling? && j < |sys.state.taskIds|
    ensures AnswerMoves(sys, e, j)
    ensures WithinPolicy(Do(sys, Emit(e)), Policy(cfg, j), j) && ParkedWell(Do(sys, Emit(e)).state, Policy(cfg, j), j)
  {
    var s, r := sys.state, Do(sys, Emit(e));
    var k := Position(s.questions, e.question).value;
    assert (sys.log + [e])[|sys.log|] == e;
    assert WithinPolicy(sys, Policy(cfg, j), j) && ParkedWell(s, Policy(cfg, j), j);
    AnswerIsLocal(s, e, j);
    AnswerQuestions(s, e);
    if s.states[j].AwaitingInput? {
      AnswerKeepsPosition(s.questions, k, e.answer, s.states[j].question);
    }
  }

  lemma AnswerKeeps(cfg: Config, sys: Sys, e: Event)
    requires WellFormed(cfg) && Inv(cfg, sys) && Answers(sys.state, e) && sys.mode.Scheduling?
    ensures Inv(cfg, Do(sys, Emit(e)))
  {
    forall j | 0 <= j < |sys.state.taskIds|
      ensures AnswerMoves(sys, e, j)
      ensures WithinPolicy(Do(sys, Emit(e)), Policy(cfg, j), j) && ParkedWell(Do(sys, Emit(e)).state, Policy(cfg, j), j)
    {
      AnswerKeepsOne(cfg, sys, e, j);
    }
    AnswerModes(sys, e);
  }

  lemma AnswerModes(sys: Sys, e: Event)
    requires sys.state.Aligned() && ModeAgrees(sys) && SessionsHeld(sys) && Answers(sys.state, e) && sys.mode.Scheduling?
    requires forall j :: 0 <= j < |sys.state.taskIds| ==> AnswerMoves(sys, e, j)
    ensures ModeAgrees(Do(sys, Emit(e))) && SessionsHeld(Do(sys, Emit(e)))
  {
    assert (sys.log + [e])[|sys.log|] == e;
    AnswerQuestions(sys.state, e);
  }

  lemma RepairKeeps(cfg: Config, sys: Sys, e: Event)
    requires WellFormed(cfg) && Inv(cfg, sys) && Legal(cfg, sys, Emit(e)) && sys.mode.Repairing?
    ensures Inv(cfg, Do(sys, Emit(e)))
  {
    if Owed(sys.log).Some? { CommitKeeps(cfg, sys, e); }
    else if e.DesignDefect? { QuietKeeps(cfg, sys, e); }
    else if e.TaskFailed? { DeclineKeeps(cfg, sys, e); }
    else if e.AttemptInterrupted? { InterruptKeeps(cfg, sys, e); }
    else { WakeKeeps(cfg, sys, e); }
  }

  lemma ScheduleKeeps(cfg: Config, sys: Sys, e: Event)
    requires WellFormed(cfg) && Inv(cfg, sys) && Legal(cfg, sys, Emit(e)) && sys.mode.Scheduling?
    ensures Inv(cfg, Do(sys, Emit(e)))
  {
    if e.AttemptStarted? {
      var i :| 0 <= i < |sys.state.taskIds| && (Starts(cfg, sys.state, i, e) || StopsOnBudget(sys.state, i, e));
      StartKeeps(cfg, sys, i, e);
    }
    else if e.QuestionAnswered? { AnswerKeeps(cfg, sys, e); }
    else if e.TaskFailed? { DeclineKeeps(cfg, sys, e); }
    else if e.DeferWaitElapsed? { WakeKeeps(cfg, sys, e); }
    else { QuietKeeps(cfg, sys, e); }
  }

  lemma ProcessKeeps(cfg: Config, sys: Sys, m: Move)
    requires Inv(cfg, sys) && Legal(cfg, sys, m) && !m.Emit?
    ensures Inv(cfg, Do(sys, m))
  {
    var r := Do(sys, m);
    forall j | 0 <= j < |r.state.taskIds|
      ensures WithinPolicy(r, Policy(cfg, j), j) && ParkedWell(r.state, Policy(cfg, j), j)
    {
      assert WithinPolicy(sys, Policy(cfg, j), j) && ParkedWell(sys.state, Policy(cfg, j), j);
    }
  }

  lemma MoveKeeps(cfg: Config, sys: Sys, m: Move)
    requires WellFormed(cfg) && Inv(cfg, sys) && Legal(cfg, sys, m)
    ensures Inv(cfg, Do(sys, m))
  {
    if m.Emit? {
      var e := m.e;
      match sys.mode
      case Running(i) => SettlementKeeps(cfg, sys, i, e);
      case Publishing(_) => CommitKeeps(cfg, sys, e);
      case Driving(i) =>
        if e.BudgetExceeded? { QuietKeeps(cfg, sys, e); } else { StartKeeps(cfg, sys, i, e); }
      case Repairing => RepairKeeps(cfg, sys, e);
      case Scheduling => ScheduleKeeps(cfg, sys, e);
      case Down =>
    } else {
      ProcessKeeps(cfg, sys, m);
    }
  }

  lemma {:induction false} RunKeeps(cfg: Config, moves: seq<Move>)
    requires ValidRun(cfg, moves)
    ensures Inv(cfg, After(cfg, moves))
  {
    if moves == [] {
      assert forall i :: 0 <= i < |Ids(cfg)| ==> WithinPolicy(Start(cfg), Policy(cfg, i), i) && ParkedWell(Start(cfg).state, Policy(cfg, i), i);
    } else {
      var before := moves[..|moves| - 1];
      assert forall k :: 0 <= k < |before| ==> before[..k] == moves[..k];
      RunKeeps(cfg, before);
      MoveKeeps(cfg, After(cfg, before), moves[|moves| - 1]);
    }
  }
}
