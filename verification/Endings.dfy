// Why a task of a run fails, what still happens after a halt or a budget stop, and what a settlement leaves behind, all
// told from the log.
module Endings {
  import opened Prelude
  import opened Ladder
  import opened Events
  import opened Decisions
  import opened Writer
  import opened Runs
  import opened Spending
  import Histories
  import Readback
  import RunState
  import Legacy

  // --------------------------------------------------------------- refusals

  /// Somebody gave this answer to this question.
  ghost predicate Said(log: seq<Event>, question: QuestionId, answer: Answer) {
    exists j :: 0 <= j < |log| && log[j].QuestionAnswered? && log[j].question == question && log[j].answer == answer
  }

  lemma SaidStays(log: seq<Event>, e: Event, question: QuestionId, answer: Answer)
    requires Said(log, question, answer)
    ensures Said(log + [e], question, answer)
  {
    var j :| 0 <= j < |log| && log[j].QuestionAnswered? && log[j].question == question && log[j].answer == answer;
    assert (log + [e])[j] == log[j];
  }

  /// No question has an answer that the log does not have.
  lemma {:induction false} AnswersAreLogged(ids: seq<TaskId>, log: seq<Event>, k: nat)
    requires
      var s := Fold(NewState(ids), log);
      k < |s.questions| && s.questions[k].answer.Some?
    ensures
      var q := Fold(NewState(ids), log).questions[k];
      Said(log, q.question.id, q.answer.value)
  {
    var before, e := log[..|log| - 1], log[|log| - 1];
    assert before + [e] == log;
    var s := Fold(NewState(ids), before);
    FoldOneMore(NewState(ids), before, e);
    Readback.StepReadsRun(s, e);
    if k < |s.questions| {
      if s.questions[k].answer.Some? {
        AnswersAreLogged(ids, before, k);
        SaidStays(before, e, s.questions[k].question.id, s.questions[k].answer.value);
      } else {
        assert log[|log| - 1].QuestionAnswered?;
      }
    }
  }

  lemma NoAttemptFailsItsTask(cfg: Config, moves: seq<Move>, e: Event)
    requires ValidRun(cfg, moves) && Legal(cfg, After(cfg, moves), Emit(e)) && e.AttemptFinished?
    ensures e.transition.Some? ==> !e.transition.value.ToFail?
  {
    WriterKinds(cfg, After(cfg, moves), e);
    if e.record.failure.Some? {
      Histories.SettlementsAreWritten(cfg, moves, e);
      ValidatorAcceptsTheLadder(e.task, e.rung, e.record, e.transition, e.parking);
    }
  }

  /// A task of a run fails in one case only: it waits on a question that somebody declined.
  lemma OnlyRefusalsFail(cfg: Config, moves: seq<Move>, e: Event)
    requires ValidRun(cfg, moves) && Legal(cfg, After(cfg, moves), Emit(e))
    requires Readback.DecisionIn(e).Some? && Readback.Decision(e).ToFail?
    ensures
      var sys := After(cfg, moves);
      && e.TaskFailed? && e.failure.kind == FailureKind.Declined
      && exists i, question :: 0 <= i < |Ids(cfg)| && Ids(cfg)[i] == e.task
           && sys.state.states[i] == AwaitingInput(question) && Said(sys.log, question, Answer.Declined)
  {
    var s := After(cfg, moves).state;
    if e.AttemptFinished? {
      NoAttemptFailsItsTask(cfg, moves, e);
    }
    LiveEqualsReplay(cfg, moves);
    var i := IndexOf(s.taskIds, e.task).value;
    var question := s.states[i].question;
    AnswersAreLogged(Ids(cfg), After(cfg, moves).log, Position(s.questions, question).value);
    assert s.states[i] == AwaitingInput(question);
  }

  lemma Refused(s: State, i: nat, e: Event)
    requires s.Aligned() && i < |s.taskIds| && e.QuestionAnswered? && e.answer.Declined? && e.declineHaltsRun.Some?
    requires s.states[i] == AwaitingInput(e.question)
    requires exists k :: Readback.AskedFirst(s.questions, e.question, k) && s.questions[k].answer.None?
    ensures Answers(s, e) && Step(s, e).states == s.states
    ensures
      var k := Position(Step(s, e).questions, e.question);
      k.Some? && Step(s, e).questions[k.value].answer == Some(Answer.Declined)
  {
    var k := Position(s.questions, e.question).value;
    assert Readback.AskedFirst(s.questions, e.question, k);
    Readback.StepReadsRun(s, e);
    assert forall j :: 0 <= j < |s.questions| ==> Step(s, e).questions[j].question == s.questions[j].question;
    assert Step(s, e).questions[k].answer == Some(Answer.Declined);
    assert Position(Step(s, e).questions, e.question) == Some(k);
  }

  lemma FailedAfterwards(s: State, i: nat, failure: TaskFailure)
    requires s.Aligned() && RunState.Distinct(s.taskIds) && i < |s.taskIds| && failure.kind == FailureKind.Declined
    requires s.states[i].AwaitingInput?
    requires
      var k := Position(s.questions, s.states[i].question);
      k.Some? && s.questions[k.value].answer == Some(Answer.Declined)
    ensures FailsDeclined(s, TaskFailed(s.taskIds[i], failure))
    ensures
      var r := Step(s, TaskFailed(s.taskIds[i], failure));
      r.states[i] == FailedTask(failure.kind, failure.reason) && (failure.haltsRun ==> r.haltedAt.Some?)
  {
    RunState.DistinctIndex(s.taskIds, i);
  }

  /// And that one goes through: a task that waits on an open question can be refused and then failed.
  lemma ARefusalGoesThrough(cfg: Config, moves: seq<Move>, i: nat, failure: TaskFailure, halts: bool)
    requires ValidRun(cfg, moves) && i < |Ids(cfg)| && failure.kind == FailureKind.Declined
    requires
      var sys := After(cfg, moves);
      && sys.mode.Scheduling? && sys.state.states[i].AwaitingInput?
      && exists k :: Readback.AskedFirst(sys.state.questions, sys.state.states[i].question, k) && sys.state.questions[k].answer.None?
    ensures
      var refusal := Emit(QuestionAnswered(After(cfg, moves).state.states[i].question, Answer.Declined, Some(halts)));
      var next := moves + [refusal] + [Emit(TaskFailed(Ids(cfg)[i], failure))];
      && ValidRun(cfg, next)
      && After(cfg, next).state.states[i] == FailedTask(failure.kind, failure.reason)
      && (failure.haltsRun ==> After(cfg, next).state.haltedAt.Some?)
  {
    var s := After(cfg, moves).state;
    RunKeeps(cfg, moves);
    var e := QuestionAnswered(s.states[i].question, Answer.Declined, Some(halts));
    Refused(s, i, e);
    FailedAfterwards(Step(s, e), i, failure);
    ExtendRun(cfg, moves, Emit(e));
    ExtendRun(cfg, moves + [Emit(e)], Emit(TaskFailed(Ids(cfg)[i], failure)));
  }

  // ------------------------------------------------------ halts and budget stops

  /// No event of the log is a budget stop without a resume after it.
  ghost predicate StopsAreLifted(log: seq<Event>) {
    forall k :: 0 <= k < |log| && log[k].BudgetExceeded? ==> exists j :: k < j < |log| && log[j].RunResumed?
  }

  lemma {:induction false} WithoutAStop(ids: seq<TaskId>, log: seq<Event>)
    requires Fold(NewState(ids), log).budgetStop.None?
    ensures StopsAreLifted(log)
  {
    if log != [] {
      var before, e := log[..|log| - 1], log[|log| - 1];
      assert before + [e] == log;
      FoldOneMore(NewState(ids), before, e);
      Readback.StepReadsRun(Fold(NewState(ids), before), e);
      if !e.RunResumed? {
        WithoutAStop(ids, before);
        forall k | 0 <= k < |log| && log[k].BudgetExceeded? ensures exists j :: k < j < |log| && log[j].RunResumed? {
          assert before[k].BudgetExceeded?;
          var j :| k < j < |before| && before[j].RunResumed?;
          assert log[j].RunResumed?;
        }
      }
    }
  }

  /// After a failure that halts the run no attempt starts, nothing deferred is woken and no budget is checked, ever; and
  /// after a budget stop not until the run is resumed.
  lemma StoppedRunsStartNothing(cfg: Config, moves: seq<Move>, e: Event)
    requires ValidRun(cfg, moves) && Legal(cfg, After(cfg, moves), Emit(e))
    requires e.AttemptStarted? || e.BudgetExceeded? || e.DeferWaitElapsed?
    ensures
      var log := After(cfg, moves).log;
      (forall k :: 0 <= k < |log| ==> !Readback.Halts(Ids(cfg), log[k])) && StopsAreLifted(log)
  {
    var sys := After(cfg, moves);
    LiveEqualsReplay(cfg, moves);
    assert sys.state.haltedAt.None? && sys.state.budgetStop.None?;
    WithoutAStop(Ids(cfg), sys.log);
    Readback.LogReadsRun(Ids(cfg), sys.log);
    Readback.NobodyHalts(Ids(cfg), sys.log, |sys.log|);
  }

  // ------------------------------------------------------------ settlements

  /// A retried task has a session to go on with if and only if the engine may resume it.
  lemma RetriesKeepTheirSession(cfg: Config, moves: seq<Move>, e: Event, i: nat)
    requires ValidRun(cfg, moves) && Legal(cfg, After(cfg, moves), Emit(e))
    requires e.AttemptFinished? && e.transition.Some? && e.transition.value.ToRetry?
    requires i < |Ids(cfg)| && Ids(cfg)[i] == e.task
    ensures Step(After(cfg, moves).state, e).progress[i].session.Some? <==> HasSession(e.record)
  {
    var s := After(cfg, moves).state;
    RunKeeps(cfg, moves);
    RunState.DistinctIndex(s.taskIds, i);
    Readback.StepReadsTask(s, e, i);
  }

  lemma AppendIsAtomic(cfg: Config, moves: seq<Move>, e: Event)
    requires ValidRun(cfg, moves) && Legal(cfg, After(cfg, moves), Emit(e))
    ensures Legacy.Atomic(e)
  {
    WriterKinds(cfg, After(cfg, moves), e);
    if e.AttemptFinished? && e.record.failure.Some? {
      Histories.SettlementsAreWritten(cfg, moves, e);
      ValidatorAcceptsTheLadder(e.task, e.rung, e.record, e.transition, e.parking);
    }
  }

  /// What the engine writes is what the detector of half-written settlements takes for granted.
  lemma {:induction false} EveryLogIsAtomic(cfg: Config, moves: seq<Move>)
    requires ValidRun(cfg, moves)
    ensures Legacy.AtomicLog(After(cfg, moves).log)
  {
    if moves != [] {
      var n := |moves| - 1;
      PrefixRun(cfg, moves, n);
      EveryLogIsAtomic(cfg, moves[..n]);
      if moves[n].Emit? {
        AppendIsAtomic(cfg, moves[..n], moves[n].e);
      }
    }
  }
}
