// What a run can spend on one task: the allowance ledger and the attempt bound.
module Spending {
  import opened Prelude
  import opened Ladder
  import opened Events
  import opened Decisions
  import opened Writer
  import opened Runs
  import RunState
  import Schema

  lemma PrefixRun(cfg: Config, moves: seq<Move>, n: nat)
    requires ValidRun(cfg, moves) && n <= |moves|
    ensures ValidRun(cfg, moves[..n])
  {
    assert forall k :: 0 <= k < n ==> moves[..n][..k] == moves[..k];
  }

  lemma ExtendRun(cfg: Config, moves: seq<Move>, m: Move)
    requires ValidRun(cfg, moves) && Legal(cfg, After(cfg, moves), m)
    ensures ValidRun(cfg, moves + [m]) && After(cfg, moves + [m]) == Do(After(cfg, moves), m)
  {
    assert (moves + [m])[..|moves|] == moves;
    assert forall k :: 0 <= k < |moves| ==> (moves + [m])[..k] == moves[..k];
  }

  // ------------------------------------------------------ live is replay

  /// The state a live engine holds is the one any reader folds from its log.
  lemma {:induction false} LiveEqualsReplay(cfg: Config, moves: seq<Move>)
    requires ValidRun(cfg, moves)
    ensures After(cfg, moves).state == Fold(NewState(Ids(cfg)), After(cfg, moves).log)
  {
    if moves == [] {
      FoldOne(NewState(Ids(cfg)), RunStarted(cfg.header));
    } else {
      var n := |moves| - 1;
      PrefixRun(cfg, moves, n);
      LiveEqualsReplay(cfg, moves[..n]);
      if moves[n].Emit? {
        FoldOneMore(NewState(Ids(cfg)), After(cfg, moves[..n]).log, moves[n].e);
      }
    }
  }

  lemma FoldOneMore(s: State, log: seq<Event>, e: Event)
    requires s.Aligned()
    ensures Fold(s, log + [e]) == Step(Fold(s, log), e)
  {
    assert (log + [e])[..|log|] == log;
  }

  // ------------------------------------------------------ the allowance

  /// The rung's account in exact arithmetic: what an event does to the number of attempts charged to
  /// task i since its last reset. Nothing here saturates, so the account could go negative.
  function Charge(s: State, e: Event, i: nat, spent: int): int
    requires s.Aligned() && i < |s.taskIds|
  {
    var mine := task => IndexOf(s.taskIds, task) == Some(i);
    match e
    case AttemptStarted(task, _, _, _, _) => if mine(task) then spent + 1 else spent
    case AttemptInterrupted(task, _, _, _, _) => if mine(task) then spent - 1 else spent
    case LadderEscalated(task, _, _, _) => if mine(task) then 0 else spent
    case TaskDeferred(task, _) => if mine(task) then spent - 1 else spent
    case TaskParked(task, _, refund) => if mine(task) && refund then spent - 1 else spent
    case AttemptFinished(task, _, _, _, _, parking, transition, _) =>
      if !mine(task) then spent
      else
        var decided :=
          if transition.Some? && transition.value.ToEscalate? then 0
          else if transition.Some? && transition.value.ToDefer? then spent - 1
          else spent;
        if parking.Some? && parking.value.refund then decided - 1 else decided
    case QuestionAnswered(id, answer, _) =>
      var k := Position(s.questions, id);
      if k.Some? && s.questions[k.value].answer.None? && answer.Answered?
         && s.questions[k.value].question.kind.Unblock? && Releases(s, s.questions[k.value].question, i)
      then 0 else spent
    case _ => spent
  }

  function Account(s: State, log: seq<Event>, i: nat): int
    requires s.Aligned() && i < |s.taskIds|
  {
    if log == [] then 0
    else
      var before := log[..|log| - 1];
      Charge(Fold(s, before), log[|log| - 1], i, Account(s, before, i))
  }

  /// What a settlement by the engine does to task i, whichever task it settles.
  lemma SettlementSeenBy(cfg: Config, sys: Sys, e: Event, i: nat)
    requires WellFormed(cfg) && Inv(cfg, sys) && Legal(cfg, sys, Emit(e)) && i < |sys.state.taskIds| && e.AttemptFinished?
    ensures sys.mode.Running? && Settles(cfg, sys.state, sys.mode.i, e)
    ensures
      var s, r := sys.state, Step(sys.state, e);
      if e.task == s.taskIds[i] then
        sys.mode.i == i && IndexOf(s.taskIds, e.task) == Some(i)
        && r.progress[i] == SettledProgress(s.progress[i], e) && r.states[i] == SettledState(s.states[i], e)
      else
        IndexOf(s.taskIds, e.task) != Some(i) && r.progress[i] == s.progress[i] && r.states[i] == s.states[i]
  {
    SettlementSeenAt(sys.state, sys.mode.i, e, i);
  }

  lemma SettlementSeenAt(s: State, j: nat, e: Event, i: nat)
    requires s.Aligned() && RunState.Distinct(s.taskIds) && j < |s.taskIds| && i < |s.taskIds|
    requires e.AttemptFinished? && e.task == s.taskIds[j]
    ensures
      var r := Step(s, e);
      if e.task == s.taskIds[i] then
        j == i && IndexOf(s.taskIds, e.task) == Some(i)
        && r.progress[i] == SettledProgress(s.progress[i], e) && r.states[i] == SettledState(s.states[i], e)
      else
        IndexOf(s.taskIds, e.task) != Some(i) && r.progress[i] == s.progress[i] && r.states[i] == s.states[i]
  {
    RunState.DistinctIndex(s.taskIds, j);
    SettlementIsLocal(s, j, e);
  }

  lemma ChargeOfSettlement(cfg: Config, sys: Sys, e: Event, i: nat)
    requires WellFormed(cfg) && Inv(cfg, sys) && Legal(cfg, sys, Emit(e)) && i < |sys.state.taskIds| && e.AttemptFinished?
    ensures Step(sys.state, e).progress[i].attemptsOnRung == Charge(sys.state, e, i, sys.state.progress[i].attemptsOnRung)
  {
    SettlementSeenBy(cfg, sys, e, i);
    assert WithinPolicy(sys, Policy(cfg, i), i);
    if e.task == sys.state.taskIds[i] {
      ChargeOfOwn(cfg, sys, i, e);
    }
  }

  lemma ChargeOfOwn(cfg: Config, sys: Sys, i: nat, e: Event)
    requires sys.state.Aligned() && |sys.state.taskIds| == |cfg.header.chains| && Settles(cfg, sys.state, i, e)
    requires IndexOf(sys.state.taskIds, e.task) == Some(i) && sys.state.progress[i].attemptsOnRung >= 1
    ensures SettledProgress(sys.state.progress[i], e).attemptsOnRung ==
      Charge(sys.state, e, i, sys.state.progress[i].attemptsOnRung)
  {
  }

  /// The writer's remaining events, none of which touches a counter.
  predicate Neutral(e: Event) {
    e.RunStarted? || e.RunResumed? || e.DesignDefect? || e.CapacitySnapshot? || e.PoolExhausted? || e.BudgetExceeded?
    || e.DeferWaitElapsed? || e.TaskCommitted? || e.TaskFailed? || e.RunFinished?
  }

  lemma WriterKinds(cfg: Config, sys: Sys, e: Event)
    requires sys.state.Aligned() && |sys.state.taskIds| == |cfg.header.chains| && Legal(cfg, sys, Emit(e))
    ensures Neutral(e) || e.AttemptFinished?
      || (e.AttemptStarted? && exists j :: 0 <= j < |sys.state.taskIds| && Starts(cfg, sys.state, j, e))
      || (e.AttemptInterrupted? && Interrupts(sys.state, e))
      || (e.QuestionAnswered? && Answers(sys.state, e))
    ensures e.AttemptStarted? || e.QuestionAnswered? ==> sys.mode.Scheduling? || sys.mode.Driving?
  {
  }

  lemma NeutralKeepsCounters(s: State, e: Event, i: nat)
    requires s.Aligned() && i < |s.taskIds| && Neutral(e)
    ensures
      var p, r := s.progress[i], Step(s, e);
      && (r.progress[i] == p || r.progress[i] == DropSession(p))
      && (Open(s.states[i]) && !Ends(e, s.taskIds[i]) ==> Open(r.states[i]))
  {
  }

  lemma StartCounts(cfg: Config, s: State, j: nat, e: Event, i: nat)
    requires s.Aligned() && |s.taskIds| == |cfg.header.chains| && RunState.Distinct(s.taskIds) && i < |s.taskIds|
    requires Starts(cfg, s, j, e)
    ensures
      var r := Step(s, e);
      && r.states == s.states
      && if e.task == s.taskIds[i]
         then i == j && IndexOf(s.taskIds, e.task) == Some(i)
              && r.progress[i] == AfterStart(s.progress[i], e.attempt, e.rung, e.profile, e.start)
         else IndexOf(s.taskIds, e.task) != Some(i) && r.progress[i] == s.progress[i]
  {
    RunState.DistinctIndex(s.taskIds, j);
  }

  lemma InterruptCounts(s: State, e: Event, i: nat)
    requires s.Aligned() && RunState.Distinct(s.taskIds) && i < |s.taskIds| && Interrupts(s, e)
    ensures
      var r := Step(s, e);
      && r.states == s.states
      && if e.task == s.taskIds[i]
         then IndexOf(s.taskIds, e.task) == Some(i) && s.progress[i].inFlight.Some? && r.progress[i] == AfterInterrupt(s.progress[i], e.record)
         else IndexOf(s.taskIds, e.task) != Some(i) && r.progress[i] == s.progress[i]
  {
    RunState.DistinctIndex(s.taskIds, i);
  }

  lemma AnswerCounts(cfg: Config, sys: Sys, e: Event, i: nat)
    requires WellFormed(cfg) && Inv(cfg, sys) && i < |sys.state.taskIds| && Answers(sys.state, e)
    ensures
      var s, r := sys.state, Step(sys.state, e);
      && r.progress[i].attemptsOnRung == Charge(s, e, i, s.progress[i].attemptsOnRung)
      && (Open(s.states[i]) ==> r.progress[i] == s.progress[i] && r.states[i] == s.states[i])
  {
    assert ParkedWell(sys.state, Policy(cfg, i), i);
    AnswerCharges(sys.state, e, i);
  }

  lemma AnswerCharges(s: State, e: Event, i: nat)
    requires s.Aligned() && RunState.Distinct(s.taskIds) && Answers(s, e) && i < |s.taskIds|
    requires s.states[i] == AwaitingInput(e.question) ==>
      s.questions[Position(s.questions, e.question).value].question.affected == [s.taskIds[i]]
    ensures
      var r := Step(s, e);
      && r.progress[i].attemptsOnRung == Charge(s, e, i, s.progress[i].attemptsOnRung)
      && (Open(s.states[i]) ==> r.progress[i] == s.progress[i] && r.states[i] == s.states[i])
  {
    RunState.DistinctIndex(s.taskIds, i);
    AnswerIsLocal(s, e, i);
  }

  lemma ChargeIsExact(cfg: Config, sys: Sys, e: Event, i: nat)
    requires WellFormed(cfg) && Inv(cfg, sys) && Legal(cfg, sys, Emit(e)) && i < |sys.state.taskIds|
    ensures Step(sys.state, e).progress[i].attemptsOnRung == Charge(sys.state, e, i, sys.state.progress[i].attemptsOnRung)
  {
    WriterKinds(cfg, sys, e);
    if e.AttemptFinished? {
      ChargeOfSettlement(cfg, sys, e, i);
    } else if e.QuestionAnswered? {
      AnswerCounts(cfg, sys, e, i);
    } else if e.AttemptStarted? {
      StartIsCharged(cfg, sys, e, i);
    } else if e.AttemptInterrupted? {
      assert WithinPolicy(sys, Policy(cfg, i), i);
      ChargeOfInterrupt(sys.state, e, i);
    } else {
      NeutralIsFree(sys.state, e, i);
    }
  }

  lemma StartIsCharged(cfg: Config, sys: Sys, e: Event, i: nat)
    requires WellFormed(cfg) && Inv(cfg, sys) && Legal(cfg, sys, Emit(e)) && i < |sys.state.taskIds| && e.AttemptStarted?
    ensures Step(sys.state, e).progress[i].attemptsOnRung == Charge(sys.state, e, i, sys.state.progress[i].attemptsOnRung)
  {
    WriterKinds(cfg, sys, e);
    var j :| 0 <= j < |sys.state.taskIds| && Starts(cfg, sys.state, j, e);
    StartHasRoom(cfg, sys, j, e);
    ChargeOfStart(cfg, sys.state, j, e, i);
  }

  lemma NeutralIsFree(s: State, e: Event, i: nat)
    requires s.Aligned() && i < |s.taskIds| && Neutral(e)
    ensures Step(s, e).progress[i].attemptsOnRung == Charge(s, e, i, s.progress[i].attemptsOnRung)
  {
    NeutralKeepsCounters(s, e, i);
  }

  lemma ChargeOfStart(cfg: Config, s: State, j: nat, e: Event, i: nat)
    requires s.Aligned() && |s.taskIds| == |cfg.header.chains| && RunState.Distinct(s.taskIds) && i < |s.taskIds|
    requires Starts(cfg, s, j, e) && s.progress[j].attemptsOnRung < Policy(cfg, j).attemptsPer
    ensures Step(s, e).progress[i].attemptsOnRung == Charge(s, e, i, s.progress[i].attemptsOnRung)
  {
    StartCounts(cfg, s, j, e, i);
  }

  lemma ChargeOfInterrupt(s: State, e: Event, i: nat)
    requires s.Aligned() && RunState.Distinct(s.taskIds) && i < |s.taskIds| && Interrupts(s, e)
    requires s.progress[i].inFlight.Some? ==> s.progress[i].attemptsOnRung >= 1
    ensures Step(s, e).progress[i].attemptsOnRung == Charge(s, e, i, s.progress[i].attemptsOnRung)
  {
    InterruptCounts(s, e, i);
  }

  lemma StartHasRoom(cfg: Config, sys: Sys, j: nat, e: Event)
    requires WellFormed(cfg) && Inv(cfg, sys) && Legal(cfg, sys, Emit(e)) && Starts(cfg, sys.state, j, e)
    ensures sys.state.progress[j].attemptsOnRung < Policy(cfg, j).attemptsPer && sys.state.progress[j].inFlight.None?
  {
    assert WithinPolicy(sys, Policy(cfg, j), j);
  }

  /// Allowance conservation. In every reachable state, however often the process died, a task's
  /// `attempts_on_rung` is exactly starts minus refunds since its last reset: no saturating operation ever
  /// clamps.
  lemma {:induction false} AllowanceIsExact(cfg: Config, moves: seq<Move>, i: nat)
    requires ValidRun(cfg, moves) && i < |cfg.header.chains|
    ensures After(cfg, moves).state.progress[i].attemptsOnRung == Account(NewState(Ids(cfg)), After(cfg, moves).log, i)
  {
    var s0 := NewState(Ids(cfg));
    if moves == [] {
      assert After(cfg, moves).log[..0] == [];
    } else {
      var n := |moves| - 1;
      PrefixRun(cfg, moves, n);
      AllowanceIsExact(cfg, moves[..n], i);
      if moves[n].Emit? {
        var sys, e := After(cfg, moves[..n]), moves[n].e;
        RunKeeps(cfg, moves[..n]);
        LiveEqualsReplay(cfg, moves[..n]);
        assert Legal(cfg, sys, Emit(e));
        ChargeIsExact(cfg, sys, e, i);
        assert (sys.log + [e])[..|sys.log|] == sys.log;
      }
    }
  }

  /// A task that can run again has allowance left on a real rung and deferrals within bounds; and settling
  /// whatever a crash left in flight keeps that true.
  lemma RunnableTasksCanPay(cfg: Config, moves: seq<Move>, i: nat)
    requires ValidRun(cfg, moves) && i < |cfg.header.chains|
    requires !Succeeded(After(cfg, moves), i)
    ensures
      var s := After(cfg, moves).state;
      var settled := Fold(s, RunState.Interruptions(s, |s.taskIds|));
      var pol := Policy(cfg, i);
      && (settled.states[i].Pending? || settled.states[i].Deferred? ==>
            settled.progress[i].attemptsOnRung < pol.attemptsPer && settled.progress[i].rung < pol.rungs
            && settled.progress[i].defers <= pol.maxDefers)
      && (s.progress[i].inFlight.None? ==> settled.progress[i] == s.progress[i] && settled.states[i] == s.states[i])
  {
    var sys := After(cfg, moves);
    RunKeeps(cfg, moves);
    assert WithinPolicy(sys, Policy(cfg, i), i);
    SettlingOne(sys.state, i);
  }

  lemma SettlingOne(s: State, i: nat)
    requires s.Aligned() && RunState.Distinct(s.taskIds) && i < |s.taskIds|
    ensures
      var settled, p := Fold(s, RunState.Interruptions(s, |s.taskIds|)), s.progress[i];
      && settled.states[i] == s.states[i]
      && settled.progress[i] == if p.inFlight.None? then p else AfterInterrupt(p, RunState.InterruptRecord(p.inFlight.value))
  {
    RunState.SettlingIsExact(s, |s.taskIds|);
  }

  // ------------------------------------------------------ the spend bound

  /// Attempts task i could still start before the ladder runs out: the strictly decreasing measure.
  function Budget(p: Progress, pol: LadderPolicy): int {
    (pol.rungs - p.rung) * pol.attemptsPer - p.attemptsOnRung + (pol.maxDefers - p.defers)
  }

  /// Starts and crash settlements of one task in a stretch of log.
  function Started(log: seq<Event>, task: TaskId): nat {
    if log == [] then 0
    else Started(log[..|log| - 1], task) + if log[|log| - 1].AttemptStarted? && log[|log| - 1].task == task then 1 else 0
  }

  function Crashed(log: seq<Event>, task: TaskId): nat {
    if log == [] then 0
    else Crashed(log[..|log| - 1], task) + if log[|log| - 1].AttemptInterrupted? && log[|log| - 1].task == task then 1 else 0
  }

  /// The events that end a task's run of attempts: it commits, fails, or parks.
  predicate Ends(e: Event, task: TaskId) {
    || (e.TaskCommitted? && e.task == task) || (e.TaskFailed? && e.task == task)
    || (e.AttemptFinished? && e.task == task && (e.parking.Some? || (e.transition.Some? && e.transition.value.ToFail?)))
  }

  predicate Open(st: TaskState) {
    st.Pending? || st.Deferred?
  }

  lemma AtLeastOnce(a: int, b: nat)
    requires a >= 1
    ensures a * b >= b
  {
    assert a * b - b == (a - 1) * b;
  }

  lemma BudgetIsSound(p: Progress, pol: LadderPolicy)
    requires p.rung < pol.rungs && p.attemptsOnRung <= pol.attemptsPer && p.defers <= pol.maxDefers
    ensures Budget(p, pol) >= 0
  {
    AtLeastOnce(pol.rungs - p.rung, pol.attemptsPer);
  }

  lemma FreshBudget(p: Progress, pol: LadderPolicy)
    requires p.rung == 0 && p.attemptsOnRung == 0 && p.defers == 0
    ensures Budget(p, pol) == pol.rungs * pol.attemptsPer + pol.maxDefers
  {
  }

  /// Climbing a rung costs exactly one rung's attempts.
  lemma BudgetOfNextRung(p: Progress, q: Progress, pol: LadderPolicy)
    requires q.rung == p.rung + 1 && q.attemptsOnRung == 0 && q.defers == p.defers && p.attemptsOnRung == pol.attemptsPer
    ensures Budget(q, pol) == Budget(p, pol)
  {
    var a, b := pol.rungs - p.rung, pol.attemptsPer;
    assert (a - 1) * b == a * b - b;
  }

  /// The ladder's own arithmetic on one settlement that lets the task go on.
  lemma DecisionSpendsNothing(cfg: Config, sys: Sys, i: nat, e: Event)
    requires WellFormed(cfg) && sys.state.Aligned() && |sys.state.taskIds| == |cfg.header.chains|
    requires Settles(cfg, sys.state, i, e) && !Ends(e, e.task) && e.record.failure.Some?
    requires WithinPolicy(sys, Policy(cfg, i), i)
    ensures Open(SettledState(sys.state.states[i], e))
    ensures Budget(SettledProgress(sys.state.progress[i], e), Policy(cfg, i)) == Budget(sys.state.progress[i], Policy(cfg, i))
  {
    var p, q, pol := sys.state.progress[i], SettledProgress(sys.state.progress[i], e), Policy(cfg, i);
    match e.transition.value
    case ToEscalate(_) => BudgetOfNextRung(p, q, pol);
    case ToRetry(_) => assert q.rung == p.rung && q.attemptsOnRung == p.attemptsOnRung && q.defers == p.defers;
    case ToDefer(_) => assert q.rung == p.rung && q.attemptsOnRung == p.attemptsOnRung - 1 && q.defers == p.defers + 1;
    case ToFail(_) => assert false;
  }

  lemma SettlementSpends(cfg: Config, sys: Sys, e: Event, i: nat)
    requires WellFormed(cfg) && Inv(cfg, sys) && Legal(cfg, sys, Emit(e)) && i < |sys.state.taskIds| && e.AttemptFinished?
    requires Open(sys.state.states[i]) && !Ends(e, sys.state.taskIds[i])
    ensures
      var r := Step(sys.state, e);
      Open(r.states[i]) && Budget(r.progress[i], Policy(cfg, i)) == Budget(sys.state.progress[i], Policy(cfg, i))
  {
    SettlementSeenBy(cfg, sys, e, i);
    assert WithinPolicy(sys, Policy(cfg, i), i);
    if e.task == sys.state.taskIds[i] {
      OwnSettlementSpends(cfg, sys, i, e);
    }
  }

  lemma OwnSettlementSpends(cfg: Config, sys: Sys, i: nat, e: Event)
    requires WellFormed(cfg) && sys.state.Aligned() && |sys.state.taskIds| == |cfg.header.chains|
    requires Settles(cfg, sys.state, i, e) && !Ends(e, e.task)
    requires Open(sys.state.states[i]) && WithinPolicy(sys, Policy(cfg, i), i)
    ensures Open(SettledState(sys.state.states[i], e))
    ensures Budget(SettledProgress(sys.state.progress[i], e), Policy(cfg, i)) == Budget(sys.state.progress[i], Policy(cfg, i))
  {
    if e.record.failure.Some? {
      DecisionSpendsNothing(cfg, sys, i, e);
    } else {
      var p, q := sys.state.progress[i], SettledProgress(sys.state.progress[i], e);
      assert q.rung == p.rung && q.attemptsOnRung == p.attemptsOnRung && q.defers == p.defers;
    }
  }

  lemma BudgetMoves(p: Progress, q: Progress, pol: LadderPolicy)
    requires q.rung == p.rung && q.defers == p.defers
    ensures Budget(q, pol) == Budget(p, pol) + p.attemptsOnRung - q.attemptsOnRung
  {
  }

  lemma OneEvent(e: Event, task: TaskId)
    ensures Started([e], task) == if e.AttemptStarted? && e.task == task then 1 else 0
    ensures Crashed([e], task) == if e.AttemptInterrupted? && e.task == task then 1 else 0
  {
    assert [e][..0] == [];
  }

  lemma StartSpends(cfg: Config, sys: Sys, j: nat, e: Event, i: nat)
    requires sys.state.Aligned() && |sys.state.taskIds| == |cfg.header.chains| && RunState.Distinct(sys.state.taskIds)
    requires i < |sys.state.taskIds| && Starts(cfg, sys.state, j, e)
    requires sys.state.progress[j].attemptsOnRung < Policy(cfg, j).attemptsPer
    ensures
      var r, task := Step(sys.state, e), sys.state.taskIds[i];
      && r.states == sys.state.states
      && Budget(r.progress[i], Policy(cfg, i)) + Started([e], task) == Budget(sys.state.progress[i], Policy(cfg, i))
      && Crashed([e], task) == 0
  {
    OneEvent(e, sys.state.taskIds[i]);
    StartCounts(cfg, sys.state, j, e, i);
    BudgetMoves(sys.state.progress[i], Step(sys.state, e).progress[i], Policy(cfg, i));
  }

  lemma InterruptSpends(s: State, e: Event, i: nat, pol: LadderPolicy)
    requires s.Aligned() && RunState.Distinct(s.taskIds) && i < |s.taskIds| && Interrupts(s, e)
    requires s.progress[i].inFlight.Some? ==> s.progress[i].attemptsOnRung >= 1
    ensures
      var r, task := Step(s, e), s.taskIds[i];
      && r.states == s.states && Started([e], task) == 0
      && Budget(r.progress[i], pol) == Budget(s.progress[i], pol) + Crashed([e], task)
  {
    OneEvent(e, s.taskIds[i]);
    InterruptCounts(s, e, i);
    BudgetMoves(s.progress[i], Step(s, e).progress[i], pol);
  }

  lemma NeutralSpends(s: State, e: Event, i: nat, pol: LadderPolicy)
    requires s.Aligned() && i < |s.taskIds| && Neutral(e) && Open(s.states[i]) && !Ends(e, s.taskIds[i])
    ensures
      var r, task := Step(s, e), s.taskIds[i];
      && Open(r.states[i]) && Started([e], task) == 0 && Crashed([e], task) == 0
      && Budget(r.progress[i], pol) == Budget(s.progress[i], pol)
  {
    OneEvent(e, s.taskIds[i]);
    NeutralKeepsCounters(s, e, i);
  }

  /// One event: a start spends one, a crash gives one back, and every decision of the ladder that lets the
  /// task go on (retry, escalate, defer, wait) spends nothing.
  lemma EventSpends(cfg: Config, sys: Sys, e: Event, i: nat)
    requires WellFormed(cfg) && Inv(cfg, sys) && Legal(cfg, sys, Emit(e)) && i < |sys.state.taskIds|
    requires Open(sys.state.states[i]) && !Ends(e, sys.state.taskIds[i])
    ensures
      var r, task := Step(sys.state, e), sys.state.taskIds[i];
      && Open(r.states[i])
      && Budget(r.progress[i], Policy(cfg, i)) + Started([e], task) == Budget(sys.state.progress[i], Policy(cfg, i)) + Crashed([e], task)
  {
    var s := sys.state;
    WriterKinds(cfg, sys, e);
    if e.AttemptFinished? {
      OneEvent(e, s.taskIds[i]);
      SettlementSpends(cfg, sys, e, i);
    } else if e.QuestionAnswered? {
      OneEvent(e, s.taskIds[i]);
      AnswerCounts(cfg, sys, e, i);
    } else if e.AttemptStarted? {
      var j :| 0 <= j < |s.taskIds| && Starts(cfg, s, j, e);
      StartHasRoom(cfg, sys, j, e);
      StartSpends(cfg, sys, j, e, i);
    } else if e.AttemptInterrupted? {
      assert WithinPolicy(sys, Policy(cfg, i), i);
      InterruptSpends(s, e, i, Policy(cfg, i));
    } else {
      NeutralSpends(s, e, i, Policy(cfg, i));
    }
  }

  predicate Continues(cfg: Config, moves: seq<Move>, n: nat, i: nat)
    requires n <= |moves| && i < |cfg.header.chains|
  {
    forall k :: n <= k < |moves| && moves[k].Emit? ==> !Ends(moves[k].e, Ids(cfg)[i])
  }

  function Emitted(moves: seq<Move>): seq<Event> {
    if moves == [] then []
    else
      var m := moves[|moves| - 1];
      Emitted(moves[..|moves| - 1]) + if m.Emit? then [m.e] else []
  }

  lemma {:induction false} CountConcat(a: seq<Event>, b: seq<Event>, task: TaskId)
    ensures Started(a + b, task) == Started(a, task) + Started(b, task)
    ensures Crashed(a + b, task) == Crashed(a, task) + Crashed(b, task)
  {
    if b == [] {
      assert a + b == a;
    } else {
      assert (a + b)[..|a + b| - 1] == a + b[..|b| - 1];
      CountConcat(a, b[..|b| - 1], task);
    }
  }

  lemma EmittedGrows(moves: seq<Move>, n: nat)
    requires n < |moves|
    ensures
      var before, last := moves[..|moves| - 1], moves[|moves| - 1];
      Emitted(moves[n..]) == if last.Emit? then Emitted(before[n..]) + [last.e] else Emitted(before[n..])
  {
    assert moves[n..][..|moves[n..]| - 1] == moves[..|moves| - 1][n..];
  }

  /// What task i has left after a stretch, plus what it spent in it.
  ghost predicate Conserves(pol: LadderPolicy, p: Progress, q: Progress, stretch: seq<Event>, task: TaskId) {
    Budget(q, pol) + Started(stretch, task) == Budget(p, pol) + Crashed(stretch, task)
  }

  lemma ConservesOneMore(cfg: Config, sys: Sys, m: Move, i: nat, p: Progress, stretch: seq<Event>)
    requires WellFormed(cfg) && Inv(cfg, sys) && Legal(cfg, sys, m) && i < |sys.state.taskIds|
    requires Open(sys.state.states[i]) && (m.Emit? ==> !Ends(m.e, sys.state.taskIds[i]))
    requires Conserves(Policy(cfg, i), p, sys.state.progress[i], stretch, sys.state.taskIds[i])
    ensures Open(Do(sys, m).state.states[i])
    ensures Conserves(Policy(cfg, i), p, Do(sys, m).state.progress[i], if m.Emit? then stretch + [m.e] else stretch, sys.state.taskIds[i])
  {
    if m.Emit? {
      EventSpends(cfg, sys, m.e, i);
      CountConcat(stretch, [m.e], sys.state.taskIds[i]);
    }
  }

  /// The exact conservation law. Over any stretch of any run in which task i neither commits, fails nor
  /// parks, what is left of its budget plus the attempts it started is what it had plus the attempts a
  /// crash gave back.
  lemma {:induction false} SpendIsConserved(cfg: Config, moves: seq<Move>, n: nat, i: nat)
    requires ValidRun(cfg, moves) && n <= |moves| && i < |cfg.header.chains|
    requires Open(After(cfg, moves[..n]).state.states[i]) && Continues(cfg, moves, n, i)
    ensures Open(After(cfg, moves).state.states[i])
    ensures Conserves(Policy(cfg, i), After(cfg, moves[..n]).state.progress[i], After(cfg, moves).state.progress[i],
                      Emitted(moves[n..]), Ids(cfg)[i])
  {
    if n == |moves| {
      assert moves[..n] == moves && moves[n..] == [];
      ConservesNothing(Policy(cfg, i), After(cfg, moves).state.progress[i], Ids(cfg)[i]);
    } else {
      ShorterStretch(cfg, moves, n, i);
      SpendIsConserved(cfg, moves[..|moves| - 1], n, i);
      ConservesLast(cfg, moves, n, i, After(cfg, moves[..n]).state.progress[i]);
    }
  }

  lemma ConservesNothing(pol: LadderPolicy, p: Progress, task: TaskId)
    ensures Conserves(pol, p, p, [], task)
  {
  }

  lemma ShorterStretch(cfg: Config, moves: seq<Move>, n: nat, i: nat)
    requires ValidRun(cfg, moves) && n < |moves| && i < |cfg.header.chains| && Continues(cfg, moves, n, i)
    ensures var before := moves[..|moves| - 1]; ValidRun(cfg, before) && before[..n] == moves[..n] && Continues(cfg, before, n, i)
  {
    PrefixRun(cfg, moves, |moves| - 1);
    ContinuesBefore(cfg, moves, n, i);
  }

  lemma ContinuesBefore(cfg: Config, moves: seq<Move>, n: nat, i: nat)
    requires n < |moves| && i < |cfg.header.chains| && Continues(cfg, moves, n, i)
    ensures moves[..|moves| - 1][..n] == moves[..n] && Continues(cfg, moves[..|moves| - 1], n, i)
  {
  }

  lemma ConservesLast(cfg: Config, moves: seq<Move>, n: nat, i: nat, p: Progress)
    requires ValidRun(cfg, moves) && n < |moves| && i < |cfg.header.chains| && Continues(cfg, moves, n, i)
    requires
      var before := moves[..|moves| - 1];
      && Open(After(cfg, before).state.states[i])
      && Conserves(Policy(cfg, i), p, After(cfg, before).state.progress[i], Emitted(before[n..]), Ids(cfg)[i])
    ensures Open(After(cfg, moves).state.states[i])
    ensures Conserves(Policy(cfg, i), p, After(cfg, moves).state.progress[i], Emitted(moves[n..]), Ids(cfg)[i])
  {
    var before, last := moves[..|moves| - 1], moves[|moves| - 1];
    EmittedGrows(moves, n);
    LastMove(cfg, moves);
    ConservesOneMore(cfg, After(cfg, before), last, i, p, Emitted(before[n..]));
  }

  /// The last move of a run was made in a state that keeps the invariant.
  lemma LastMove(cfg: Config, moves: seq<Move>)
    requires ValidRun(cfg, moves) && moves != []
    ensures
      var sys, last := After(cfg, moves[..|moves| - 1]), moves[|moves| - 1];
      WellFormed(cfg) && Inv(cfg, sys) && Legal(cfg, sys, last) && After(cfg, moves) == Do(sys, last)
  {
    PrefixRun(cfg, moves, |moves| - 1);
    RunKeeps(cfg, moves[..|moves| - 1]);
  }

  /// The bound: from a fresh task, at most rungs * attempts_per + max_defers attempts, plus one for each
  /// attempt a crash cut off, start before the task commits, fails or parks.
  lemma AttemptsAreBounded(cfg: Config, moves: seq<Move>, n: nat, i: nat)
    requires ValidRun(cfg, moves) && n <= |moves| && i < |cfg.header.chains|
    requires Open(After(cfg, moves[..n]).state.states[i]) && Continues(cfg, moves, n, i)
    requires
      var p := After(cfg, moves[..n]).state.progress[i];
      p.rung == 0 && p.attemptsOnRung == 0 && p.defers == 0
    ensures
      var pol, stretch := Policy(cfg, i), Emitted(moves[n..]);
      Started(stretch, Ids(cfg)[i]) <= pol.rungs * pol.attemptsPer + pol.maxDefers + Crashed(stretch, Ids(cfg)[i])
  {
    SpendIsConserved(cfg, moves, n, i);
    FreshBudget(After(cfg, moves[..n]).state.progress[i], Policy(cfg, i));
    RunKeeps(cfg, moves);
    assert WithinPolicy(After(cfg, moves), Policy(cfg, i), i);
    BudgetIsSound(After(cfg, moves).state.progress[i], Policy(cfg, i));
  }

  // ----------------------------------------------------- the bound is reached

  /// A live engine about to run task i.
  predicate ReadyFor(sys: Sys, i: nat, id: QuestionId)
    requires sys.state.Aligned()
  {
    && i < |sys.state.taskIds| && (sys.mode.Scheduling? || sys.mode == Driving(i))
    && sys.state.states[i].Pending? && sys.state.haltedAt.None? && sys.state.budgetStop.None?
    && FreshQuestion(sys.state, id)
  }

  function NextStart(cfg: Config, s: State, i: nat): Event
    requires s.Aligned() && |s.taskIds| == |cfg.header.chains| && i < |s.taskIds|
    requires s.progress[i].attempts < U32_MAX && s.progress[i].rung < |cfg.header.chains[i].tiers| <= U32_MAX
  {
    var p := s.progress[i];
    AttemptStarted(s.taskIds[i], p.attempts + 1, p.rung, "worker",
      AttemptStart(cfg.header.chains[i].tiers[p.rung], "model", None, if p.resumeNext then p.session else None))
  }

  /// What the engine writes for a failure, asking this question where it asks one.
  function Written(f: FailureRecord, tier: Tier, state: LadderState, pol: LadderPolicy, task: TaskId, id: QuestionId)
    : (Option<AttemptTransition>, Option<AttemptParking>)
  {
    match NextStep(f.kind, f.origin, state, pol)
    case RetrySameRung(resume) => (Some(ToRetry(Retry(resume, tier, f.reason, None))), None)
    case Escalate => (Some(ToEscalate(Escalation(NextRung(state.rung), tier, f.reason, None))), None)
    case Defer => (Some(ToDefer(Deferral(f.reason, SatInc(state.defers)))), None)
    case AskHuman(kind) =>
      (None, Some(AttemptParking(Question(id, kind, [task], "", []), kind.Clarify? || IsOutage(f.kind, f.origin))))
    case Fail => (Some(ToFail(TaskFailure(f.kind, f.reason, false))), None)
  }

  lemma WrittenWrites(f: FailureRecord, tier: Tier, state: LadderState, pol: LadderPolicy, task: TaskId, id: QuestionId)
    ensures
      var w := Written(f, tier, state, pol, task, id);
      && Writes(task, f, tier, state, NextStep(f.kind, f.origin, state, pol), w.0, w.1)
      && (w.1.Some? ==> w.1.value.question.id == id)
  {
  }

  /// A failure that spends as much as it can: an outage while deferrals last, then a rejection.
  function WorstFailure(cfg: Config, p: Progress): FailureRecord {
    FailureRecord(if p.defers < cfg.maxDefers then RateLimited else GateFailed, Worker, "")
  }

  function WorstSettlement(cfg: Config, s: State, i: nat, id: QuestionId): Event
    requires s.Aligned() && |s.taskIds| == |cfg.header.chains| && i < |s.taskIds| && s.progress[i].inFlight.Some?
  {
    var p, f, task := s.progress[i], s.progress[i].inFlight.value, s.taskIds[i];
    var failure := WorstFailure(cfg, p);
    var record := AttemptRecord(f.attempt, f.tier, f.model, f.pool, p.session.Some?, None, [], None, Some(failure));
    var w := Written(failure, f.tier, LadderState(p.rung, p.attemptsOnRung, p.defers, false), Policy(cfg, i), task, id);
    AttemptFinished(task, f.attempt, f.rung, f.profile, record, w.1, w.0, None)
  }

  /// At the ladder's end no budget is left: the worst failure parks only then, and never fails the task outright.
  lemma WorstEnds(cfg: Config, p: Progress, pol: LadderPolicy)
    requires p.rung < pol.rungs && p.attemptsOnRung <= pol.attemptsPer && p.defers <= pol.maxDefers == cfg.maxDefers
    ensures
      var f := WorstFailure(cfg, p);
      var next := NextStep(f.kind, f.origin, LadderState(p.rung, p.attemptsOnRung, p.defers, false), pol);
      !next.Fail? && (next.RetrySameRung? ==> !next.resume)
      && (next.AskHuman? ==>
            Budget(p, pol) == 0 && next.kind.Unblock? && p.rung + 1 == pol.rungs && !IsOutage(f.kind, f.origin))
  {
    if p.rung + 1 == pol.rungs && p.attemptsOnRung == pol.attemptsPer && p.defers == pol.maxDefers {
      NothingLeft(p, pol);
    }
  }

  lemma NothingLeft(p: Progress, pol: LadderPolicy)
    requires p.rung + 1 == pol.rungs && p.attemptsOnRung == pol.attemptsPer && p.defers == pol.maxDefers
    ensures Budget(p, pol) == 0
  {
    assert pol.rungs - p.rung == 1;
  }

  /// The question that parks a task at the end of its ladder.
  function Stuck(id: QuestionId, task: TaskId): Question {
    Question(id, Unblock, [task], "", [])
  }

  /// The engine is between tasks, and this one waits at the end of its ladder for an answer to this question.
  predicate Waits(cfg: Config, sys: Sys, i: nat, id: QuestionId)
    requires sys.state.Aligned() && |sys.state.taskIds| == |cfg.header.chains| && i < |sys.state.taskIds|
  {
    var s, k := sys.state, Position(sys.state.questions, id);
    && sys.mode.Scheduling? && s.haltedAt.None? && s.budgetStop.None?
    && s.states[i] == AwaitingInput(id) && s.progress[i].rung + 1 == Policy(cfg, i).rungs
    && k.Some? && s.questions[k.value] == QuestionRecord(Stuck(id, s.taskIds[i]), None)
  }

  lemma WorstParks(cfg: Config, sys: Sys, i: nat, id: QuestionId)
    requires WellFormed(cfg) && Inv(cfg, sys) && sys.mode == Running(i) && FreshQuestion(sys.state, id)
    requires WorstSettlement(cfg, sys.state, i, id).parking.Some?
    ensures Waits(cfg, Do(sys, Emit(WorstSettlement(cfg, sys.state, i, id))), i, id)
  {
    RunState.DistinctIndex(sys.state.taskIds, i);
    WorstIsLegal(cfg, sys, i, id);
    SettlementIsLocal(sys.state, i, WorstSettlement(cfg, sys.state, i, id));
    var q := QuestionRecord(Stuck(id, sys.state.taskIds[i]), None);
    PositionGrows(sys.state.questions, q, id);
    assert (sys.state.questions + [q])[|sys.state.questions|] == q;
  }

  lemma WorstIsLegal(cfg: Config, sys: Sys, i: nat, id: QuestionId)
    requires WellFormed(cfg) && Inv(cfg, sys) && sys.mode == Running(i) && FreshQuestion(sys.state, id)
    ensures sys.state.progress[i].rung + 1 <= U32_MAX
    ensures Settles(cfg, sys.state, i, WorstSettlement(cfg, sys.state, i, id))
    ensures WorstSettlement(cfg, sys.state, i, id).parking.Some? ==>
      && Budget(sys.state.progress[i], Policy(cfg, i)) == 0 && sys.state.progress[i].rung + 1 == Policy(cfg, i).rungs
      && WorstSettlement(cfg, sys.state, i, id).parking.value == AttemptParking(Stuck(id, sys.state.taskIds[i]), false)
    ensures WorstSettlement(cfg, sys.state, i, id).transition.None? <==> WorstSettlement(cfg, sys.state, i, id).parking.Some?
    ensures !(WorstSettlement(cfg, sys.state, i, id).transition.Some? && WorstSettlement(cfg, sys.state, i, id).transition.value.ToFail?)
  {
    assert WithinPolicy(sys, Policy(cfg, i), i);
    var p := sys.state.progress[i];
    var f, tier := WorstFailure(cfg, p), p.inFlight.value.tier;
    WorstEnds(cfg, p, Policy(cfg, i));
    WrittenWrites(f, tier, LadderState(p.rung, p.attemptsOnRung, p.defers, false), Policy(cfg, i), sys.state.taskIds[i], id);
  }

  /// The three appends of a worst attempt, one at a time.
  lemma WorstStart(cfg: Config, sys: Sys, i: nat, id: QuestionId)
    requires WellFormed(cfg) && Inv(cfg, sys) && ReadyFor(sys, i, id) && sys.state.progress[i].attempts < U32_MAX
    ensures sys.state.progress[i].rung < |cfg.header.chains[i].tiers| <= U32_MAX
    ensures
      var e := NextStart(cfg, sys.state, i);
      var r := Do(sys, Emit(e));
      && Legal(cfg, sys, Emit(e)) && r.mode == Running(i) && FreshQuestion(r.state, id)
      && r.state.progress[i].attempts == sys.state.progress[i].attempts + 1
      && Budget(r.state.progress[i], Policy(cfg, i)) == Budget(sys.state.progress[i], Policy(cfg, i)) - 1
  {
    assert WithinPolicy(sys, Policy(cfg, i), i);
    RunState.DistinctIndex(sys.state.taskIds, i);
    var e := NextStart(cfg, sys.state, i);
    assert Starts(cfg, sys.state, i, e);
    StartCounts(cfg, sys.state, i, e, i);
    BudgetMoves(sys.state.progress[i], Step(sys.state, e).progress[i], Policy(cfg, i));
  }

  lemma WorstSettle(cfg: Config, sys: Sys, i: nat, id: QuestionId)
    requires WellFormed(cfg) && Inv(cfg, sys) && sys.mode == Running(i) && FreshQuestion(sys.state, id)
    ensures sys.state.progress[i].rung + 1 <= U32_MAX
    ensures
      var e := WorstSettlement(cfg, sys.state, i, id);
      var r := Do(sys, Emit(e));
      && Legal(cfg, sys, Emit(e)) && e.AttemptFinished?
      && r.state.progress[i].attempts == sys.state.progress[i].attempts
      && if e.parking.Some? then Waits(cfg, r, i, id) && Budget(sys.state.progress[i], Policy(cfg, i)) == 0
         else
           && !Ends(e, sys.state.taskIds[i]) && FreshQuestion(r.state, id)
           && r.state.haltedAt.None? && r.state.budgetStop.None?
           && Budget(r.state.progress[i], Policy(cfg, i)) == Budget(sys.state.progress[i], Policy(cfg, i))
           && if r.state.states[i].Deferred? then r.mode.Scheduling? else r.mode == Driving(i) && r.state.states[i].Pending?
  {
    assert WithinPolicy(sys, Policy(cfg, i), i);
    RunState.DistinctIndex(sys.state.taskIds, i);
    WorstIsLegal(cfg, sys, i, id);
    var e := WorstSettlement(cfg, sys.state, i, id);
    SettlementIsLocal(sys.state, i, e);
    if e.parking.None? {
      DecisionSpendsNothing(cfg, sys, i, e);
    } else {
      WorstParks(cfg, sys, i, id);
    }
  }

  lemma WorstWait(sys: Sys, i: nat, id: QuestionId)
    requires sys.state.Aligned() && sys.mode.Scheduling? && i < |sys.state.taskIds| && FreshQuestion(sys.state, id)
    requires sys.state.states[i].Deferred? && sys.state.haltedAt.None? && sys.state.budgetStop.None?
    ensures ReadyFor(Do(sys, Emit(DeferWaitElapsed)), i, id)
    ensures Do(sys, Emit(DeferWaitElapsed)).state.progress[i] == sys.state.progress[i]
  {
  }

  /// Neither a crash nor an answer.
  predicate Plain(m: Move) {
    m.Emit? && !m.e.AttemptInterrupted? && !m.e.QuestionAnswered?
  }

  /// A run that crashes and answers nothing after its first n moves and has started task i that often since.
  ghost predicate Calm(cfg: Config, moves: seq<Move>, n: nat, i: nat, starts: nat)
    requires i < |cfg.header.chains|
  {
    && ValidRun(cfg, moves) && n <= |moves|
    && (forall k :: n <= k < |moves| ==> Plain(moves[k]))
    && Started(Emitted(moves[n..]), Ids(cfg)[i]) == starts
  }

  lemma Append(cfg: Config, moves: seq<Move>, e: Event, n: nat, i: nat, starts: nat) returns (next: seq<Move>)
    requires i < |cfg.header.chains| && Calm(cfg, moves, n, i, starts) && Plain(Emit(e))
    requires Legal(cfg, After(cfg, moves), Emit(e))
    ensures next == moves + [Emit(e)] && After(cfg, next) == Do(After(cfg, moves), Emit(e))
    ensures Calm(cfg, next, n, i, if e.AttemptStarted? && e.task == Ids(cfg)[i] then starts + 1 else starts)
    ensures Continues(cfg, moves, n, i) && !Ends(e, Ids(cfg)[i]) ==> Continues(cfg, next, n, i)
  {
    next := moves + [Emit(e)];
    AppendIsValid(cfg, moves, e);
    AppendCounts(moves, e, n, Ids(cfg)[i]);
    AppendStaysCalm(moves, e, n);
    if Continues(cfg, moves, n, i) && !Ends(e, Ids(cfg)[i]) {
      AppendContinues(cfg, moves, e, n, i);
    }
  }

  lemma AppendIsValid(cfg: Config, moves: seq<Move>, e: Event)
    requires ValidRun(cfg, moves) && Legal(cfg, After(cfg, moves), Emit(e))
    ensures ValidRun(cfg, moves + [Emit(e)]) && After(cfg, moves + [Emit(e)]) == Do(After(cfg, moves), Emit(e))
  {
    ExtendRun(cfg, moves, Emit(e));
  }

  lemma AppendStaysCalm(moves: seq<Move>, e: Event, n: nat)
    requires n <= |moves| && Plain(Emit(e)) && forall k :: n <= k < |moves| ==> Plain(moves[k])
    ensures forall k :: n <= k < |moves| + 1 ==> Plain((moves + [Emit(e)])[k])
  {
  }

  lemma AppendContinues(cfg: Config, moves: seq<Move>, e: Event, n: nat, i: nat)
    requires n <= |moves| && i < |cfg.header.chains| && Continues(cfg, moves, n, i) && !Ends(e, Ids(cfg)[i])
    ensures Continues(cfg, moves + [Emit(e)], n, i)
  {
  }

  lemma AppendCounts(moves: seq<Move>, e: Event, n: nat, task: TaskId)
    requires n <= |moves|
    ensures Started(Emitted((moves + [Emit(e)])[n..]), task) ==
      Started(Emitted(moves[n..]), task) + if e.AttemptStarted? && e.task == task then 1 else 0
  {
    var next := moves + [Emit(e)];
    EmittedGrows(next, n);
    assert next[..|next| - 1] == moves;
    OneEvent(e, task);
    CountConcat(Emitted(moves[n..]), [e], task);
  }

  /// Calm and not yet ended, with this much budget left and this attempt number reached.
  ghost predicate Going(cfg: Config, moves: seq<Move>, n: nat, i: nat, starts: nat, id: QuestionId, budget: int, attempts: nat)
    requires i < |cfg.header.chains|
  {
    && Calm(cfg, moves, n, i, starts) && Continues(cfg, moves, n, i)
    && FreshQuestion(After(cfg, moves).state, id)
    && Budget(After(cfg, moves).state.progress[i], Policy(cfg, i)) == budget
    && After(cfg, moves).state.progress[i].attempts == attempts
  }

  /// The task parked by the last move, everything before it going on.
  ghost predicate Spent(cfg: Config, moves: seq<Move>, n: nat, i: nat, starts: nat)
    requires i < |cfg.header.chains|
  {
    && |moves| > n && Calm(cfg, moves, n, i, starts) && Continues(cfg, moves[..|moves| - 1], n, i)
    && After(cfg, moves).state.states[i].AwaitingInput?
  }

  ghost predicate WaitsAfter(cfg: Config, moves: seq<Move>, i: nat, id: QuestionId, attempts: nat)
    requires i < |cfg.header.chains|
  {
    Waits(cfg, After(cfg, moves), i, id) && After(cfg, moves).state.progress[i].attempts == attempts
  }

  lemma GoStart(cfg: Config, moves: seq<Move>, n: nat, i: nat, starts: nat, id: QuestionId, budget: int, attempts: nat)
    returns (next: seq<Move>)
    requires i < |cfg.header.chains| && Going(cfg, moves, n, i, starts, id, budget, attempts)
    requires ReadyFor(After(cfg, moves), i, id) && attempts < U32_MAX
    ensures moves <= next
    ensures Going(cfg, next, n, i, starts + 1, id, budget - 1, attempts + 1) && After(cfg, next).mode == Running(i)
  {
    RunKeeps(cfg, moves);
    var sys := After(cfg, moves);
    WorstStart(cfg, sys, i, id);
    var e := NextStart(cfg, sys.state, i);
    assert e.AttemptStarted? && e.task == Ids(cfg)[i] && !Ends(e, Ids(cfg)[i]);
    next := Append(cfg, moves, e, n, i, starts);
  }

  lemma GoSettle(cfg: Config, moves: seq<Move>, n: nat, i: nat, starts: nat, id: QuestionId, budget: int, attempts: nat)
    returns (next: seq<Move>)
    requires i < |cfg.header.chains| && Going(cfg, moves, n, i, starts, id, budget, attempts) && After(cfg, moves).mode == Running(i)
    ensures moves <= next
    ensures
      if After(cfg, next).state.states[i].AwaitingInput? then
        budget == 0 && Spent(cfg, next, n, i, starts) && WaitsAfter(cfg, next, i, id, attempts)
      else
        && Going(cfg, next, n, i, starts, id, budget, attempts)
        && After(cfg, next).state.haltedAt.None? && After(cfg, next).state.budgetStop.None?
        && if After(cfg, next).state.states[i].Deferred? then After(cfg, next).mode.Scheduling? else ReadyFor(After(cfg, next), i, id)
  {
    RunKeeps(cfg, moves);
    WorstSettle(cfg, After(cfg, moves), i, id);
    next := Append(cfg, moves, WorstSettlement(cfg, After(cfg, moves).state, i, id), n, i, starts);
    assert next[..|next| - 1] == moves;
  }

  lemma GoWait(cfg: Config, moves: seq<Move>, n: nat, i: nat, starts: nat, id: QuestionId, budget: int, attempts: nat)
    returns (next: seq<Move>)
    requires i < |cfg.header.chains| && Going(cfg, moves, n, i, starts, id, budget, attempts) && After(cfg, moves).mode.Scheduling?
    requires var s := After(cfg, moves).state; s.states[i].Deferred? && s.haltedAt.None? && s.budgetStop.None?
    ensures moves <= next && Going(cfg, next, n, i, starts, id, budget, attempts) && ReadyFor(After(cfg, next), i, id)
  {
    WorstWait(After(cfg, moves), i, id);
    assert Legal(cfg, After(cfg, moves), Emit(DeferWaitElapsed));
    next := Append(cfg, moves, DeferWaitElapsed, n, i, starts);
  }

  lemma {:induction false} ExhaustFrom(
    cfg: Config, moves: seq<Move>, n: nat, i: nat, starts: nat, id: QuestionId, budget: nat, attempts: nat)
    returns (all: seq<Move>)
    requires i < |cfg.header.chains| && Going(cfg, moves, n, i, starts, id, budget, attempts)
    requires ReadyFor(After(cfg, moves), i, id) && attempts + budget <= U32_MAX
    ensures moves <= all && Spent(cfg, all, n, i, starts + budget) && WaitsAfter(cfg, all, i, id, attempts + budget)
    decreases budget
  {
    ReadyHasBudget(cfg, moves, i, id);
    var parked, next := GoOnce(cfg, moves, n, i, starts, id, budget, attempts);
    all := next;
    if !parked {
      all := ExhaustFrom(cfg, next, n, i, starts + 1, id, budget - 1, attempts + 1);
    }
  }

  /// One attempt, and the wait after it if it was deferred.
  lemma GoOnce(cfg: Config, moves: seq<Move>, n: nat, i: nat, starts: nat, id: QuestionId, budget: int, attempts: nat)
    returns (parked: bool, next: seq<Move>)
    requires i < |cfg.header.chains| && Going(cfg, moves, n, i, starts, id, budget, attempts)
    requires ReadyFor(After(cfg, moves), i, id) && attempts < U32_MAX
    ensures moves <= next
    ensures parked ==> budget == 1 && Spent(cfg, next, n, i, starts + 1) && WaitsAfter(cfg, next, i, id, attempts + 1)
    ensures !parked ==> Going(cfg, next, n, i, starts + 1, id, budget - 1, attempts + 1) && ReadyFor(After(cfg, next), i, id)
  {
    var running := GoStart(cfg, moves, n, i, starts, id, budget, attempts);
    next := GoSettle(cfg, running, n, i, starts + 1, id, budget - 1, attempts + 1);
    parked := After(cfg, next).state.states[i].AwaitingInput?;
    if After(cfg, next).state.states[i].Deferred? {
      next := GoWait(cfg, next, n, i, starts + 1, id, budget - 1, attempts + 1);
    }
  }

  lemma OpenHasBudget(p: Progress, pol: LadderPolicy)
    requires p.rung < pol.rungs && p.attemptsOnRung < pol.attemptsPer && p.defers <= pol.maxDefers
    ensures Budget(p, pol) >= 1
  {
    AtLeastOnce(pol.rungs - p.rung, pol.attemptsPer);
  }

  lemma ReadyHasBudget(cfg: Config, moves: seq<Move>, i: nat, id: QuestionId)
    requires ValidRun(cfg, moves) && ReadyFor(After(cfg, moves), i, id)
    ensures Budget(After(cfg, moves).state.progress[i], Policy(cfg, i)) >= 1
  {
    RunKeeps(cfg, moves);
    assert WithinPolicy(After(cfg, moves), Policy(cfg, i), i);
    OpenHasBudget(After(cfg, moves).state.progress[i], Policy(cfg, i));
  }

  /// The bound is exact: for every well-formed plan and every task in it there is a run without a crash in
  /// which the task starts rungs * attempts_per + max_defers attempts and only the very last event ends it,
  /// by parking it (as long as attempt numbers stay within u32).
  lemma BoundIsReached(cfg: Config, i: nat) returns (moves: seq<Move>)
    requires WellFormed(cfg) && i < |cfg.header.chains|
    requires Policy(cfg, i).rungs * Policy(cfg, i).attemptsPer + cfg.maxDefers <= U32_MAX
    ensures Spent(cfg, moves, 0, i, Policy(cfg, i).rungs * Policy(cfg, i).attemptsPer + cfg.maxDefers)
    ensures WaitsAfter(cfg, moves, i, "q", Policy(cfg, i).rungs * Policy(cfg, i).attemptsPer + cfg.maxDefers)
  {
    FreshBudget(FRESH, Policy(cfg, i));
    moves := FirstSpent(cfg, i, Policy(cfg, i).rungs * Policy(cfg, i).attemptsPer + cfg.maxDefers);
  }

  lemma FirstSpent(cfg: Config, i: nat, budget: nat) returns (moves: seq<Move>)
    requires WellFormed(cfg) && i < |cfg.header.chains| && budget == Budget(FRESH, Policy(cfg, i)) && budget <= U32_MAX
    ensures Spent(cfg, moves, 0, i, budget) && WaitsAfter(cfg, moves, i, "q", budget)
  {
    assert ValidRun(cfg, []);
    ReadyHasBudget(cfg, [], i, "q");
    moves := ExhaustFrom(cfg, [], 0, i, 0, "q", budget, 0);
  }
}
