// The object the engine mutates and every reader derives (src/events.rs:1022-1472).
module RunState {
  import opened Prelude
  import opened Ladder
  import opened Events
  import Schema

  /// The line a dead process never wrote (`InterruptedAttempt::event`, src/events.rs:947-984).
  function InterruptRecord(f: InFlight): AttemptRecord {
    AttemptRecord(f.attempt, f.tier, f.model, f.pool, false, None, [], None,
      Some(FailureRecord(Interrupted, Worker, "the engine stopped while this attempt was running")))
  }

  function InterruptEvent(task: TaskId, f: InFlight): Event {
    AttemptInterrupted(task, f.attempt, f.rung, f.profile, InterruptRecord(f))
  }

  /// The settlements owed by the first n tasks, in plan order.
  function Interruptions(s: State, n: nat): seq<Event>
    requires s.Aligned() && n <= |s.taskIds|
  {
    if n == 0 then []
    else
      var before := Interruptions(s, n - 1);
      if s.progress[n - 1].inFlight.None? then before
      else before + [InterruptEvent(s.taskIds[n - 1], s.progress[n - 1].inFlight.value)]
  }

  class RunState {
    const taskIds: seq<TaskId>
    var states: seq<TaskState>
    var progress: seq<Progress>
    var questions: seq<QuestionRecord>
    var order: seq<nat>
    var haltedAt: Option<TaskId>
    var budgetStop: Option<BudgetStop>
    var finished: Option<Finish>

    ghost function View(): State
      reads this
    {
      State(taskIds, states, progress, questions, order, haltedAt, budgetStop, finished)
    }

    ghost predicate Valid()
      reads this
    {
      View().Aligned()
    }

    constructor (ids: seq<TaskId>)
      ensures Valid() && View() == NewState(ids)
    {
      taskIds := ids;
      states := seq(|ids|, _ => Pending);
      progress := seq(|ids|, _ => FRESH);
      questions, order, haltedAt, budgetStop, finished := [], [], None, None, None;
    }

    /// Fold one event in, in place.
    method Apply(e: Event)
      requires Valid()
      modifies this
      ensures Valid() && View() == Step(old(View()), e)
    {
      match e
      case RunStarted(_) =>
      case RunSchemaUpgraded(_, _) =>
      case DesignDefect(_) =>
      case CapacitySnapshot =>
      case PoolExhausted(_, _, _) =>
      case BudgetExceeded(stop) =>
        if budgetStop.None? {
          budgetStop := Some(stop);
        }
      case RunResumed(_) => ApplyResumed();
      case DeferWaitElapsed => WakeDeferred();
      case QuestionRaised(_, question) => Raise(question);
      case QuestionAnswered(question, answer, _) => AnswerQuestion(question, answer);
      case RunFinished(finish) => finished := Some(finish);
      case _ => ApplyToTask(e);
    }

    /// The events about one task.
    method ApplyToTask(e: Event)
      requires Valid()
      requires e.AttemptStarted? || e.AttemptInterrupted? || e.AttemptFinished? || e.LadderRetry? || e.LadderEscalated?
        || e.TaskDeferred? || e.TaskParked? || e.TaskCommitted? || e.TaskFailed?
      modifies this
      ensures View() == Step(old(View()), e)
    {
      match e
      case AttemptStarted(task, attempt, rung, profile, start) => ApplyStarted(task, attempt, rung, profile, start);
      case AttemptInterrupted(task, _, _, _, record) => ApplyInterrupted(task, record);
      case AttemptFinished(task, attempt, _, _, record, parking, transition, _) =>
        ApplyFinished(task, attempt, record, parking, transition);
      case LadderRetry(task, attempt, _, retry) => ApplyLadderRetry(task, attempt, retry);
      case LadderEscalated(task, attempt, _, to) => ApplyLadderEscalated(task, attempt, to);
      case TaskDeferred(task, deferral) => ApplyTaskDeferred(task, deferral);
      case TaskParked(task, question, refund) => Park(task, question, refund);
      case TaskCommitted(task, sha, _) => ApplyTaskCommitted(task, sha);
      case TaskFailed(task, failure) => ApplyTaskFailed(task, failure);
    }

    method ApplyStarted(task: TaskId, attempt: u32, rung: u32, profile: string, start: AttemptStart)
      requires Valid()
      modifies this
      ensures View() == Step(old(View()), AttemptStarted(task, attempt, rung, profile, start))
    {
      var index := IndexOf(taskIds, task);
      if index.Some? {
        var i := index.value;
        if i !in order {
          order := order + [i];
        }
        var p := progress[i];
        p := p.(rung := rung, attempts := attempt, attemptsOnRung := SatInc(p.attemptsOnRung));
        p := p.(inFlight := Some(InFlight(attempt, rung, start.tier, start.model, profile, start.pool)));
        progress := progress[i := p.(session := start.resumeSession)];
      }
    }

    method ApplyInterrupted(task: TaskId, record: AttemptRecord)
      requires Valid()
      modifies this
      ensures forall attempt, rung, profile ::
        View() == Step(old(View()), AttemptInterrupted(task, attempt, rung, profile, record))
    {
      var index := IndexOf(taskIds, task);
      if index.Some? {
        var i := index.value;
        var p := progress[i].(inFlight := None);
        p := p.(attemptsOnRung := SatDec(p.attemptsOnRung), session := None, resumeNext := false);
        progress := progress[i := p.(records := p.records + [record])];
      }
    }

    method ApplyResumed()
      requires Valid()
      modifies this
      ensures View() == Resumed(old(View()))
    {
      finished := None;
      for i := 0 to |progress|
        invariant |progress| == |old(progress)|
        invariant forall k :: 0 <= k < i ==> progress[k] == DropSession(old(progress)[k])
        invariant forall k :: i <= k < |progress| ==> progress[k] == old(progress)[k]
        invariant states == old(states) && questions == old(questions) && order == old(order)
        invariant haltedAt == old(haltedAt) && finished == None
      {
        progress := progress[i := progress[i].(session := None, resumeNext := false)];
      }
      WakeDeferred();
      budgetStop := None;
    }

    method WakeDeferred()
      modifies this`states
      ensures states == Woken(old(states))
    {
      for i := 0 to |states|
        invariant |states| == |old(states)|
        invariant forall k :: 0 <= k < i ==> states[k] == Woken(old(states))[k]
        invariant forall k :: i <= k < |states| ==> states[k] == old(states)[k]
      {
        if states[i] == Deferred {
          states := states[i := Pending];
        }
      }
    }

    method ApplyFinished(task: TaskId, attempt: u32, record: AttemptRecord,
                         parking: Option<AttemptParking>, transition: Option<AttemptTransition>)
      requires Valid()
      modifies this
      ensures forall rung, profile, prepared ::
        View() == Step(old(View()), AttemptFinished(task, attempt, rung, profile, record, parking, transition, prepared))
    {
      var index := IndexOf(taskIds, task);
      if index.None? {
        return;
      }
      var i := index.value;
      var p := progress[i].(inFlight := None);
      if record.sessionId.Some? {
        p := p.(session := record.sessionId);
      }
      progress := progress[i := p.(records := p.records + [record])];
      assert View() == old(View()).Put(i, old(states)[i], AfterFinish(old(progress)[i], record));
      if transition.Some? {
        ApplyTransition(task, attempt, transition.value);
      }
      if parking.Some? {
        Park(task, parking.value.question.id, parking.value.refund);
        Raise(parking.value.question);
      }
    }

    method Raise(question: Question)
      modifies this`questions
      ensures View() == Asked(old(View()), question)
    {
      questions := questions + [QuestionRecord(question, None)];
    }

    method ApplyTaskCommitted(task: TaskId, sha: string)
      requires Valid()
      modifies this`states
      ensures forall message :: View() == Step(old(View()), TaskCommitted(task, sha, message))
    {
      var index := IndexOf(taskIds, task);
      if index.Some? {
        states := states[index.value := Done(sha)];
      }
    }

    method ApplyTransition(task: TaskId, attempt: u32, transition: AttemptTransition)
      requires Valid()
      modifies this`progress, this`states, this`haltedAt
      ensures View() == Transitioned(old(View()), task, attempt, transition)
    {
      match transition
      case ToRetry(retry) => ApplyLadderRetry(task, attempt, retry);
      case ToEscalate(to) => ApplyLadderEscalated(task, attempt, to);
      case ToDefer(deferral) => ApplyTaskDeferred(task, deferral);
      case ToFail(failure) => ApplyTaskFailed(task, failure);
    }

    method ApplyLadderRetry(task: TaskId, attempt: u32, retry: Retry)
      requires Valid()
      modifies this`progress
      ensures View() == Retried(old(View()), task, attempt, retry)
    {
      var index := IndexOf(taskIds, task);
      if index.Some? {
        var p := progress[index.value];
        p := p.(feedback := p.feedback + [Feedback(attempt, Some(retry.tier), retry.summary, retry.detail, false)]);
        progress := progress[index.value := p.(resumeNext := retry.resume)];
      }
    }

    method ApplyLadderEscalated(task: TaskId, attempt: u32, to: Escalation)
      requires Valid()
      modifies this`progress
      ensures View() == Escalated(old(View()), task, attempt, to)
    {
      var index := IndexOf(taskIds, task);
      if index.Some? {
        var p := progress[index.value];
        p := p.(feedback := p.feedback + [Feedback(attempt, Some(to.tier), to.summary, to.detail, false)]);
        p := p.(rung := to.toRung, attemptsOnRung := 0);
        progress := progress[index.value := p.(session := None, resumeNext := false)];
      }
    }

    method ApplyTaskDeferred(task: TaskId, deferral: Deferral)
      requires Valid()
      modifies this`progress, this`states
      ensures View() == DeferredBy(old(View()), task, deferral)
    {
      var index := IndexOf(taskIds, task);
      if index.Some? {
        var p := progress[index.value];
        p := p.(attemptsOnRung := SatDec(p.attemptsOnRung), defers := deferral.defers);
        progress := progress[index.value := p.(session := None, resumeNext := false)];
        states := states[index.value := Deferred];
      }
    }

    method ApplyTaskFailed(task: TaskId, failure: TaskFailure)
      requires Valid()
      modifies this`states, this`haltedAt
      ensures View() == FailedBy(old(View()), task, failure)
    {
      var index := IndexOf(taskIds, task);
      if index.Some? {
        states := states[index.value := FailedTask(failure.kind, failure.reason)];
        if failure.haltsRun && haltedAt.None? {
          haltedAt := Some(task);
        }
      }
    }

    method Park(task: TaskId, question: QuestionId, refund: bool)
      requires Valid()
      modifies this`progress, this`states
      ensures View() == ParkedOn(old(View()), task, question, refund)
    {
      var index := IndexOf(taskIds, task);
      if index.Some? {
        var p := progress[index.value].(session := None, resumeNext := false);
        if refund {
          p := p.(attemptsOnRung := SatDec(p.attemptsOnRung));
        }
        progress := progress[index.value := p];
        states := states[index.value := AwaitingInput(question)];
      }
    }

    /// Takes an answer to an open question and frees the tasks that waited for it (src/events.rs:1356-1433).
    method AnswerQuestion(id: QuestionId, answer: Answer)
      requires Valid()
      modifies this`questions, this`progress, this`states
      ensures View() == AnsweredBy(old(View()), id, answer)
    {
      var position := Position(questions, id);
      if position.None? || questions[position.value].answer.Some? {
        return;
      }
      var q := questions[position.value].question;
      questions := questions[position.value := QuestionRecord(q, Some(answer))];
      if !answer.Answered? {
        return;
      }
      ReleaseAffected(q, answer.text);
      ghost var expected := AnsweredBy(old(View()), id, answer);
      assert states == expected.states;
      assert progress == expected.progress;
    }

    method ReleaseAffected(q: Question, text: string)
      requires Valid()
      modifies this`progress, this`states
      ensures |states| == |old(states)| && |progress| == |old(progress)|
      ensures forall i :: 0 <= i < |states| ==>
        states[i] == (if Releases(old(View()), q, i) then Pending else old(states)[i]) &&
        progress[i] == (if Releases(old(View()), q, i) then AfterAnswer(old(progress)[i], q, text) else old(progress)[i])
    {
      ghost var was := old(View());
      var canned := text in q.options;
      for n := 0 to |q.affected|
        invariant |states| == |was.states| && |progress| == |was.progress|
        invariant forall i :: 0 <= i < |states| ==>
          var released := Releases(was, q, i) && taskIds[i] in q.affected[..n];
          states[i] == (if released then Pending else was.states[i]) &&
          progress[i] == (if released then AfterAnswer(was.progress[i], q, text) else was.progress[i])
      {
        var index := IndexOf(taskIds, q.affected[n]);
        if index.Some? && states[index.value] == AwaitingInput(q.id) {
          ReleaseTask(index.value, q, text, canned);
        }
        assert q.affected[..n + 1] == q.affected[..n] + [q.affected[n]];
      }
      assert q.affected[..|q.affected|] == q.affected;
    }

    method ReleaseTask(i: nat, q: Question, text: string, canned: bool)
      requires Valid() && i < |taskIds| && canned == (text in q.options)
      modifies this`progress, this`states
      ensures progress == old(progress)[i := AfterAnswer(old(progress)[i], q, text)]
      ensures states == old(states)[i := Pending]
    {
      var p := progress[i];
      if q.kind != ApproveSpend && !canned {
        p := p.(feedback := p.feedback +
          [Feedback(p.attempts, None, "the operator answered the open question", Some(text), true)]);
      }
      if q.kind == Unblock {
        p := p.(attemptsOnRung := 0);
      }
      progress := progress[i := p.(defers := 0, resumeNext := false)];
      states := states[i := Pending];
    }

    /// A reader settles what a dead process left in flight without writing; a resume appends the same events.
    method SettleInterrupted() returns (settled: nat)
      requires Valid()
      modifies this
      ensures Valid() && View() == Fold(old(View()), Interruptions(old(View()), |taskIds|))
      ensures settled == |Interruptions(old(View()), |taskIds|)|
    {
      var dangling: seq<Event> := [];
      for n := 0 to |taskIds|
        invariant View() == old(View())
        invariant dangling == Interruptions(View(), n)
      {
        if progress[n].inFlight.Some? {
          dangling := dangling + [InterruptEvent(taskIds[n], progress[n].inFlight.value)];
        }
      }
      for k := 0 to |dangling|
        invariant Valid() && View() == Fold(old(View()), dangling[..k])
      {
        Apply(dangling[k]);
        assert dangling[..k + 1][..k] == dangling[..k];
      }
      assert dangling[..|dangling|] == dangling;
      settled := |dangling|;
    }
  }

  datatype ReplayError = NoRunStarted | Unsupported(error: Schema.SchemaError)

  datatype Replayed = Replayed(state: RunState, header: RunHeader, resumes: nat)

  /// `replay`: a log that does not start or that a reader must refuse is refused; any other is folded, with the same
  /// fold the engine runs.
  method Replay(log: seq<Event>, ids: seq<TaskId>) returns (r: Result<Replayed, ReplayError>)
    ensures r.Ok? <==> Schema.StartedOf(log).Some? && Schema.Accepted(Schema.StartedOf(log).value, log)
    ensures r.Ok? ==>
      && fresh(r.value.state) && r.value.state.Valid() && r.value.state.View() == Fold(NewState(ids), log)
      && Some(r.value.header) == Schema.StartedOf(log)
      && r.value.resumes == |set k | 0 <= k < |log| && log[k].RunResumed?|
    ensures r == Err(NoRunStarted) <==> Schema.StartedOf(log).None?
    ensures r.Err? && r.error.Unsupported? ==> Schema.RefusedFor(Schema.StartedOf(log).value, log, r.error.error)
  {
    var header := Schema.StartedOf(log);
    if header.None? {
      return Err(NoRunStarted);
    }
    var schema := Schema.EnsureSupportedSchema(header.value, log);
    if schema.Err? {
      return Err(Unsupported(schema.error));
    }
    var state, resumes := FoldLog(log, ids);
    r := Ok(Replayed(state, header.value, resumes));
  }

  method FoldLog(log: seq<Event>, ids: seq<TaskId>) returns (state: RunState, resumes: nat)
    ensures fresh(state) && state.Valid()
    ensures state.View() == Fold(NewState(ids), log)
    ensures resumes == |set k | 0 <= k < |log| && log[k].RunResumed?|
  {
    state := new RunState(ids);
    resumes := 0;
    for k := 0 to |log|
      invariant fresh(state) && state.Valid() && state.View() == Fold(NewState(ids), log[..k])
      invariant resumes == |set j | 0 <= j < k && log[j].RunResumed?|
    {
      OneMoreResume(log, k);
      if log[k].RunResumed? {
        resumes := resumes + 1;
      }
      state.Apply(log[k]);
      assert log[..k + 1][..k] == log[..k];
    }
    assert log[..|log|] == log;
  }

  lemma OneMoreResume(log: seq<Event>, k: nat)
    requires k < |log|
    ensures |set j | 0 <= j < k + 1 && log[j].RunResumed?| ==
      |set j | 0 <= j < k && log[j].RunResumed?| + if log[k].RunResumed? then 1 else 0
  {
    var before := set j | 0 <= j < k && log[j].RunResumed?;
    assert (set j | 0 <= j < k + 1 && log[j].RunResumed?) == if log[k].RunResumed? then before + {k} else before;
  }

  // ------------------------------------------- what settling amounts to

  ghost predicate Distinct(ids: seq<TaskId>) {
    forall i, j :: 0 <= i < j < |ids| ==> ids[i] != ids[j]
  }

  lemma DistinctIndex(ids: seq<TaskId>, i: nat)
    requires Distinct(ids) && i < |ids|
    ensures IndexOf(ids, ids[i]) == Some(i)
  {
    assert ids[i] in ids;
  }

  function SettledProgress(ps: seq<Progress>, n: nat): seq<Progress>
    requires n <= |ps|
  {
    seq(|ps|, i requires 0 <= i < |ps| =>
      if i < n && ps[i].inFlight.Some? then AfterInterrupt(ps[i], InterruptRecord(ps[i].inFlight.value)) else ps[i])
  }

  lemma InterruptChangesOne(s: State, i: nat, f: InFlight)
    requires s.Aligned() && Distinct(s.taskIds) && i < |s.taskIds|
    ensures Step(s, InterruptEvent(s.taskIds[i], f)) ==
      s.(progress := s.progress[i := AfterInterrupt(s.progress[i], InterruptRecord(f))])
  {
    DistinctIndex(s.taskIds, i);
    assert s.states[i := s.states[i]] == s.states;
  }

  lemma SettleNext(mid: State, before: seq<Event>, s: State, i: nat, f: InFlight)
    requires s.Aligned() && Distinct(s.taskIds) && i < |s.taskIds| && mid == Fold(s, before)
    requires mid.Aligned() && mid.taskIds == s.taskIds
    ensures Fold(s, before + [InterruptEvent(s.taskIds[i], f)]) ==
      mid.(progress := mid.progress[i := AfterInterrupt(mid.progress[i], InterruptRecord(f))])
  {
    var e := InterruptEvent(s.taskIds[i], f);
    FoldConcat(s, before, [e]);
    FoldOne(mid, e);
    InterruptChangesOne(mid, i, f);
  }

  /// Settling touches exactly the tasks with an attempt in flight: each loses its session, gets its
  /// allowance back and gains one record; nothing else in the state moves.
  lemma {:induction false} SettlingIsExact(s: State, n: nat)
    requires s.Aligned() && Distinct(s.taskIds) && n <= |s.taskIds|
    ensures Settles(s, n)
  {
    if n == 0 {
      SettlesNothing(s);
    } else {
      SettlingIsExact(s, n - 1);
      SettlesNext(s, n);
    }
  }

  ghost predicate Settles(s: State, n: nat)
    requires s.Aligned() && n <= |s.taskIds|
  {
    Fold(s, Interruptions(s, n)) == s.(progress := SettledProgress(s.progress, n))
  }

  lemma SettlesNothing(s: State)
    requires s.Aligned()
    ensures Settles(s, 0)
  {
    NothingSettled(s.progress);
  }

  lemma NothingSettled(ps: seq<Progress>)
    ensures SettledProgress(ps, 0) == ps
  {
  }

  lemma SettlesNext(s: State, n: nat)
    requires s.Aligned() && Distinct(s.taskIds) && 0 < n <= |s.taskIds| && Settles(s, n - 1)
    ensures Settles(s, n)
  {
    SettledOneMore(s.progress, n - 1);
    if s.progress[n - 1].inFlight.Some? {
      SettlesOne(s, n);
    } else {
      assert Interruptions(s, n) == Interruptions(s, n - 1);
    }
  }

  lemma SettlesOne(s: State, n: nat)
    requires s.Aligned() && Distinct(s.taskIds) && 0 < n <= |s.taskIds| && Settles(s, n - 1)
    requires s.progress[n - 1].inFlight.Some?
    ensures Settles(s, n)
  {
    var i, before := n - 1, Interruptions(s, n - 1);
    SettledOneMore(s.progress, i);
    SettleNext(Fold(s, before), before, s, i, s.progress[i].inFlight.value);
  }

  lemma SettledOneMore(ps: seq<Progress>, i: nat)
    requires i < |ps|
    ensures SettledProgress(ps, i)[i] == ps[i]
    ensures SettledProgress(ps, i + 1) ==
      if ps[i].inFlight.None? then SettledProgress(ps, i)
      else SettledProgress(ps, i)[i := AfterInterrupt(ps[i], InterruptRecord(ps[i].inFlight.value))]
  {
  }
}
