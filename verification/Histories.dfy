// What the log of a run says about itself, read back by the checks that did not write it.
module Histories {
  import opened Prelude
  import opened Ladder
  import opened Events
  import opened Decisions
  import opened Writer
  import opened Runs
  import opened Spending
  import RunState
  import Schema

  // ------------------------------------------------- sessions and trees

  /// What one event says about resuming a task's conversation, if anything.
  function Word(e: Event, task: TaskId): Option<bool> {
    match e
    case AttemptFinished(t, _, _, _, _, parking, transition, _) =>
      if t != task then None
      else if parking.Some? then Some(false)
      else if transition.None? || transition.value.ToFail? then None
      else Some(transition.value.ToRetry? && transition.value.retry.resume)
    case AttemptInterrupted(t, _, _, _, _) => if t == task then Some(false) else None
    case RunResumed(_) => Some(false)
    case _ => None
  }

  /// The last word in a log: a park, deferral, escalation, interruption or resume of the run after the
  /// retry that asked to keep the conversation makes this false.
  predicate LastWord(log: seq<Event>, task: TaskId) {
    log != [] &&
    match Word(log[|log| - 1], task)
    case Some(resumes) => resumes
    case None => LastWord(log[..|log| - 1], task)
  }

  lemma WordIsObeyed(cfg: Config, sys: Sys, e: Event, i: nat)
    requires WellFormed(cfg) && Inv(cfg, sys) && Legal(cfg, sys, Emit(e)) && i < |sys.state.taskIds|
    ensures
      var word := Word(e, sys.state.taskIds[i]);
      Step(sys.state, e).progress[i].resumeNext == if word.Some? then word.value else sys.state.progress[i].resumeNext
  {
    var s := sys.state;
    WriterKinds(cfg, sys, e);
    if e.AttemptFinished? {
      SettlementSeenBy(cfg, sys, e, i);
      SettlementSpeaks(s.progress[i], e, s.taskIds[i]);
    } else if e.QuestionAnswered? {
      assert WithinPolicy(sys, Policy(cfg, i), i) && ParkedWell(s, Policy(cfg, i), i);
      AnswerSpeaks(s, e, i);
    } else if e.AttemptStarted? {
      StartIsSilent(cfg, sys, e, i);
    } else if e.AttemptInterrupted? {
      InterruptSpeaks(s, e, i);
    } else {
      NeutralSpeaks(s, e, i);
    }
  }

  lemma StartIsSilent(cfg: Config, sys: Sys, e: Event, i: nat)
    requires WellFormed(cfg) && Inv(cfg, sys) && Legal(cfg, sys, Emit(e)) && i < |sys.state.taskIds| && e.AttemptStarted?
    ensures Step(sys.state, e).progress[i].resumeNext == sys.state.progress[i].resumeNext && Word(e, sys.state.taskIds[i]).None?
  {
    WriterKinds(cfg, sys, e);
    var j :| 0 <= j < |sys.state.taskIds| && Starts(cfg, sys.state, j, e);
    StartSpeaks(cfg, sys.state, j, e, i);
  }

  lemma SettlementSpeaks(p: Progress, e: Event, task: TaskId)
    requires e.AttemptFinished?
    ensures e.task == task ==>
      SettledProgress(p, e).resumeNext == if Word(e, task).Some? then Word(e, task).value else p.resumeNext
    ensures e.task != task ==> Word(e, task).None?
  {
  }

  lemma AnswerSpeaks(s: State, e: Event, i: nat)
    requires s.Aligned() && RunState.Distinct(s.taskIds) && Answers(s, e) && i < |s.taskIds|
    requires s.states[i] == AwaitingInput(e.question) ==>
      !s.progress[i].resumeNext
      && s.questions[Position(s.questions, e.question).value].question.affected == [s.taskIds[i]]
    ensures Step(s, e).progress[i].resumeNext == s.progress[i].resumeNext && Word(e, s.taskIds[i]).None?
  {
    AnswerIsLocal(s, e, i);
  }

  lemma StartSpeaks(cfg: Config, s: State, j: nat, e: Event, i: nat)
    requires s.Aligned() && |s.taskIds| == |cfg.header.chains| && RunState.Distinct(s.taskIds) && i < |s.taskIds|
    requires Starts(cfg, s, j, e)
    ensures Step(s, e).progress[i].resumeNext == s.progress[i].resumeNext && Word(e, s.taskIds[i]).None?
  {
    StartCounts(cfg, s, j, e, i);
  }

  lemma InterruptSpeaks(s: State, e: Event, i: nat)
    requires s.Aligned() && RunState.Distinct(s.taskIds) && i < |s.taskIds| && Interrupts(s, e)
    ensures Step(s, e).progress[i].resumeNext == (s.progress[i].resumeNext && e.task != s.taskIds[i])
    ensures Word(e, s.taskIds[i]) == if e.task == s.taskIds[i] then Some(false) else None
  {
    InterruptCounts(s, e, i);
  }

  lemma NeutralSpeaks(s: State, e: Event, i: nat)
    requires s.Aligned() && i < |s.taskIds| && Neutral(e)
    ensures Step(s, e).progress[i].resumeNext == (s.progress[i].resumeNext && !e.RunResumed?)
    ensures Word(e, s.taskIds[i]) == if e.RunResumed? then Some(false) else None
  {
  }

  /// In every reachable state the next attempt will resume a conversation exactly when the log's last word on
  /// that task was a resuming retry, and then there is a session to resume.
  lemma {:induction false} ResumeIsTheLastWord(cfg: Config, moves: seq<Move>, i: nat)
    requires ValidRun(cfg, moves) && i < |cfg.header.chains|
    ensures
      var sys := After(cfg, moves);
      && (sys.state.progress[i].resumeNext <==> LastWord(sys.log, Ids(cfg)[i]))
      && (sys.state.progress[i].resumeNext ==> sys.state.progress[i].session.Some?)
  {
    RunKeeps(cfg, moves);
    assert WithinPolicy(After(cfg, moves), Policy(cfg, i), i);
    if moves == [] {
      assert [RunStarted(cfg.header)][..0] == [];
    } else {
      var n := |moves| - 1;
      PrefixRun(cfg, moves, n);
      ResumeIsTheLastWord(cfg, moves[..n], i);
      if moves[n].Emit? {
        var sys, e := After(cfg, moves[..n]), moves[n].e;
        RunKeeps(cfg, moves[..n]);
        assert Legal(cfg, sys, Emit(e));
        WordIsObeyed(cfg, sys, e, i);
        LastWordGrows(sys.log, e, Ids(cfg)[i]);
      }
    }
  }

  lemma LastWordGrows(log: seq<Event>, e: Event, task: TaskId)
    ensures LastWord(log + [e], task) == if Word(e, task).Some? then Word(e, task).value else LastWord(log, task)
  {
    assert (log + [e])[..|log|] == log;
  }

  predicate ResumingRetry(e: Event, task: TaskId) {
    e.AttemptFinished? && e.task == task && e.parking.None? && e.transition.Some?
    && e.transition.value.ToRetry? && e.transition.value.retry.resume
  }

  /// A live engine's last append, while it is inside a task.
  predicate EndsWell(sys: Sys)
    requires sys.state.Aligned()
  {
    var s, m, n := sys.state, sys.mode, |sys.log|;
    && n > 0
    && (m.Running? && m.i < |s.taskIds| ==>
          sys.log[n - 1].AttemptStarted? && sys.log[n - 1].task == s.taskIds[m.i]
          && sys.log[n - 1].start.resumeSession == s.progress[m.i].session)
    && (m.Driving? && m.i < |s.taskIds| && s.progress[m.i].resumeNext ==>
          && n > 1 && ResumingRetry(sys.log[n - 1], s.taskIds[m.i])
          && sys.log[n - 2].AttemptStarted? && sys.log[n - 2].task == s.taskIds[m.i]
          && s.progress[m.i].session ==
               (if sys.log[n - 1].record.sessionId.Some? then sys.log[n - 1].record.sessionId else sys.log[n - 2].start.resumeSession))
  }

  lemma SettledEndsWell(cfg: Config, sys: Sys, e: Event)
    requires WellFormed(cfg) && Inv(cfg, sys) && Legal(cfg, sys, Emit(e)) && EndsWell(sys) && e.AttemptFinished?
    ensures EndsWell(Do(sys, Emit(e)))
  {
    assert (sys.log + [e])[|sys.log|] == e;
    WriterKinds(cfg, sys, e);
    SettlementSeenBy(cfg, sys, e, sys.mode.i);
    WordIsObeyed(cfg, sys, e, sys.mode.i);
  }

  lemma StartedEndsWell(cfg: Config, sys: Sys, e: Event)
    requires WellFormed(cfg) && Inv(cfg, sys) && Legal(cfg, sys, Emit(e)) && e.AttemptStarted?
    ensures EndsWell(Do(sys, Emit(e)))
  {
    var s := sys.state;
    assert (sys.log + [e])[|sys.log|] == e;
    WriterKinds(cfg, sys, e);
    var j :| 0 <= j < |s.taskIds| && Starts(cfg, s, j, e);
    StartCounts(cfg, s, j, e, j);
    RunState.DistinctIndex(s.taskIds, j);
  }

  lemma EndsWellKept(cfg: Config, sys: Sys, m: Move)
    requires WellFormed(cfg) && Inv(cfg, sys) && Legal(cfg, sys, m) && EndsWell(sys)
    ensures EndsWell(Do(sys, m))
  {
    if m.Emit? {
      WriterKinds(cfg, sys, m.e);
      if m.e.AttemptFinished? {
        SettledEndsWell(cfg, sys, m.e);
      } else if m.e.AttemptStarted? {
        StartedEndsWell(cfg, sys, m.e);
      } else {
        assert !Do(sys, m).mode.Running? && !Do(sys, m).mode.Driving?;
      }
    }
  }

  lemma {:induction false} RunEndsWell(cfg: Config, moves: seq<Move>)
    requires ValidRun(cfg, moves)
    ensures EndsWell(After(cfg, moves))
  {
    if moves != [] {
      var n := |moves| - 1;
      PrefixRun(cfg, moves, n);
      RunEndsWell(cfg, moves[..n]);
      RunKeeps(cfg, moves[..n]);
      EndsWellKept(cfg, After(cfg, moves[..n]), moves[n]);
    }
  }

  lemma ResumingMeansDriving(cfg: Config, sys: Sys, j: nat, e: Event)
    requires Inv(cfg, sys) && |sys.state.taskIds| == |cfg.header.chains| && Starts(cfg, sys.state, j, e)
    requires sys.mode.Scheduling? || sys.mode.Driving?
    requires e.start.resumeSession.Some?
    ensures sys.mode == Driving(j) && sys.state.progress[j].resumeNext && e.start.resumeSession == sys.state.progress[j].session
  {
  }

  /// The log ends in the start of an attempt and the retry that asked to keep its conversation, which e resumes.
  predicate FollowsItsRetry(log: seq<Event>, e: Event)
    requires e.AttemptStarted?
  {
    var n := |log|;
    && n > 1 && ResumingRetry(log[n - 1], e.task)
    && log[n - 2].AttemptStarted? && log[n - 2].task == e.task
    && e.start.resumeSession ==
         (if log[n - 1].record.sessionId.Some? then log[n - 1].record.sessionId else log[n - 2].start.resumeSession)
  }

  /// Session and tree stay paired: an attempt that resumes a conversation comes immediately after the retry
  /// that asked for it, which comes immediately after the start of the attempt that held it. No other task,
  /// crash or resume lies between, so the tree it finds is the one the session left.
  lemma ResumedAttemptsAreAdjacent(cfg: Config, moves: seq<Move>, e: Event)
    requires ValidRun(cfg, moves) && Legal(cfg, After(cfg, moves), Emit(e))
    requires e.AttemptStarted? && e.start.resumeSession.Some?
    ensures FollowsItsRetry(After(cfg, moves).log, e)
  {
    RunKeeps(cfg, moves);
    RunEndsWell(cfg, moves);
    AdjacentAt(cfg, After(cfg, moves), e);
  }

  lemma AdjacentAt(cfg: Config, sys: Sys, e: Event)
    requires WellFormed(cfg) && Inv(cfg, sys) && EndsWell(sys) && Legal(cfg, sys, Emit(e))
    requires e.AttemptStarted? && e.start.resumeSession.Some?
    ensures FollowsItsRetry(sys.log, e)
  {
    WriterKinds(cfg, sys, e);
    var j :| 0 <= j < |sys.state.taskIds| && Starts(cfg, sys.state, j, e);
    ResumingMeansDriving(cfg, sys, j, e);
  }

  /// A run that recorded its end has nothing in flight, so settling a finished run changes nothing.
  lemma FinishedRunsAreIdle(cfg: Config, moves: seq<Move>)
    requires ValidRun(cfg, moves) && After(cfg, moves).state.finished.Some?
    ensures var s := After(cfg, moves).state; Fold(s, RunState.Interruptions(s, |s.taskIds|)) == s
  {
    RunKeeps(cfg, moves);
    var s := After(cfg, moves).state;
    RunState.SettlingIsExact(s, |s.taskIds|);
    assert RunState.SettledProgress(s.progress, |s.taskIds|) == s.progress;
  }

  // ------------------------------------------------- the reader's check

  lemma {:induction false} AlwaysThree(cfg: Config, log: seq<Event>, k: nat)
    requires cfg.header.schema == 3 && k <= |log| && forall j :: 0 <= j < |log| ==> !log[j].RunSchemaUpgraded?
    ensures Schema.SchemaBefore(cfg.header, log, k) == 3
  {
    if k > 0 {
      AlwaysThree(cfg, log, k - 1);
    }
  }

  lemma ChainIsIndex(cfg: Config, i: nat)
    requires WellFormed(cfg) && i < |cfg.header.chains|
    ensures Schema.ChainOf(cfg.header.chains, Ids(cfg)[i]) == Some(i)
  {
    assert forall k :: 0 <= k < |cfg.header.chains| ==> Ids(cfg)[k] == cfg.header.chains[k].task;
  }

  lemma SettlementsAreOk(cfg: Config, s: State, i: nat, e: Event)
    requires WellFormed(cfg) && s.Aligned() && s.taskIds == Ids(cfg) && Settles(cfg, s, i, e)
    ensures Schema.SettlementOk(cfg.header, e)
  {
    if e.record.failure.Some? {
      var f, p := e.record.failure.value, s.progress[i];
      var resumes := e.transition.Some? && e.transition.value.ToRetry? && e.transition.value.retry.resume;
      var ladder := LadderState(p.rung, p.attemptsOnRung, p.defers, resumes);
      WrittenIsValid(e.task, f, e.record.tier, ladder, Policy(cfg, i), e.transition, e.parking);
    }
  }

  /// Every failed settlement a run can append is one the engine's own account of its writing allows.
  lemma SettlementsAreWritten(cfg: Config, moves: seq<Move>, e: Event)
    requires ValidRun(cfg, moves) && Legal(cfg, After(cfg, moves), Emit(e)) && e.AttemptFinished? && e.record.failure.Some?
    ensures EngineWrites(e.task, e.rung, e.record, e.transition, e.parking)
  {
    var sys := After(cfg, moves);
    RunKeeps(cfg, moves);
    WriterKinds(cfg, sys, e);
    var i := sys.mode.i;
    assert WithinPolicy(sys, Policy(cfg, i), i) && Settles(cfg, sys.state, i, e);
    var p := sys.state.progress[i];
    var resumes := e.transition.Some? && e.transition.value.ToRetry? && e.transition.value.retry.resume;
    assert WritesIn(e.task, e.rung, e.record, LadderState(p.rung, p.attemptsOnRung, p.defers, resumes), Policy(cfg, i),
                    e.transition, e.parking);
  }

  lemma AppendAccepted(cfg: Config, sys: Sys, e: Event)
    requires WellFormed(cfg) && Inv(cfg, sys) && Legal(cfg, sys, Emit(e)) && Schema.Accepted(cfg.header, sys.log)
    requires forall j :: 0 <= j < |sys.log| ==> !sys.log[j].RunSchemaUpgraded?
    ensures Schema.Accepted(cfg.header, sys.log + [e]) && !e.RunSchemaUpgraded?
  {
    WriterKinds(cfg, sys, e);
    AlwaysThree(cfg, sys.log + [e], |sys.log| + 1);
    forall k | 0 <= k < |sys.log| + 1
      ensures Schema.UpgradeOk(cfg.header, sys.log + [e], k) && Schema.EventOk(cfg.header, sys.log + [e], k)
    {
      if k < |sys.log| {
        EventStaysOk(cfg, sys.log, e, k);
      } else {
        LastEventOk(cfg, sys, e);
      }
    }
  }

  lemma EventStaysOk(cfg: Config, prior: seq<Event>, e: Event, k: nat)
    requires cfg.header.schema == 3 && k < |prior| && Schema.EventOk(cfg.header, prior, k)
    requires !e.RunSchemaUpgraded? && forall j :: 0 <= j < |prior| ==> !prior[j].RunSchemaUpgraded?
    ensures Schema.UpgradeOk(cfg.header, prior + [e], k) && Schema.EventOk(cfg.header, prior + [e], k)
  {
    AlwaysThree(cfg, prior, k);
    AlwaysThree(cfg, prior + [e], k);
    if k > 0 {
      AlwaysThree(cfg, prior, k - 1);
      AlwaysThree(cfg, prior + [e], k - 1);
    }
  }

  lemma LastEventOk(cfg: Config, sys: Sys, e: Event)
    requires WellFormed(cfg) && Inv(cfg, sys) && Legal(cfg, sys, Emit(e)) && !e.RunSchemaUpgraded?
    requires forall j :: 0 <= j < |sys.log| ==> !sys.log[j].RunSchemaUpgraded?
    ensures Schema.UpgradeOk(cfg.header, sys.log + [e], |sys.log|) && Schema.EventOk(cfg.header, sys.log + [e], |sys.log|)
  {
    OwedIsPublished(cfg, sys.log, e);
    if Owed(sys.log).None? && e.AttemptFinished? {
      WriterKinds(cfg, sys, e);
      SettlementsAreOk(cfg, sys.state, sys.mode.i, e);
    }
  }

  /// A success that ends the log is the one whose commit a reader expects next.
  lemma OwedIsPublished(cfg: Config, prior: seq<Event>, e: Event)
    requires cfg.header.schema == 3 && !e.RunSchemaUpgraded?
    requires forall j :: 0 <= j < |prior| ==> !prior[j].RunSchemaUpgraded?
    ensures Schema.SchemaBefore(cfg.header, prior + [e], |prior|) == 3
    ensures Schema.Publishes(cfg.header, prior + [e], |prior| - 1) <==> Owed(prior).Some?
    ensures Owed(prior).Some? ==> prior[|prior| - 1].AttemptFinished? && prior[|prior| - 1].prepared.Some?
  {
    AlwaysThree(cfg, prior + [e], |prior|);
    if prior != [] {
      AlwaysThree(cfg, prior + [e], |prior| - 1);
    }
  }

  /// Every log the writer can leave behind, at any crash point, passes the check every reader makes.
  lemma {:induction false} EveryLogIsAccepted(cfg: Config, moves: seq<Move>)
    requires ValidRun(cfg, moves)
    ensures Schema.Accepted(cfg.header, After(cfg, moves).log)
    ensures forall j :: 0 <= j < |After(cfg, moves).log| ==> !After(cfg, moves).log[j].RunSchemaUpgraded?
  {
    if moves != [] {
      var n := |moves| - 1;
      PrefixRun(cfg, moves, n);
      EveryLogIsAccepted(cfg, moves[..n]);
      RunKeeps(cfg, moves[..n]);
      if moves[n].Emit? {
        assert Legal(cfg, After(cfg, moves[..n]), moves[n]);
        AppendAccepted(cfg, After(cfg, moves[..n]), moves[n].e);
      }
    }
  }

  // ------------------------------------------------- the exporter's check

  predicate IsSettlement(e: Event) {
    e.AttemptFinished? || e.AttemptInterrupted?
  }

  /// Two events about the same attempt (`AttemptKey`: task, attempt, rung).
  predicate SameKey(a: Event, b: Event)
    requires (a.AttemptStarted? || IsSettlement(a)) && (b.AttemptStarted? || IsSettlement(b))
  {
    a.task == b.task && a.attempt == b.attempt && a.rung == b.rung
  }

  /// `validate_settlement` (src/export.rs:431-562), but for the order of the two events.
  predicate ValidSettlement(start: Event, done: Event)
    requires start.AttemptStarted? && IsSettlement(done)
  {
    && SameKey(start, done) && done.profile == start.profile
    && done.record.attempt == done.attempt && done.record.tier == start.start.tier
    && done.record.model == start.start.model && done.record.pool == start.start.pool
    && (done.AttemptFinished? ==>
          && ExportsDecision(done.task, done.record.failure, done.transition, done.parking)
          && !(done.record.failure.Some? && done.record.failure.value.kind.Interrupted?))
    && (done.AttemptInterrupted? ==>
          done.record.failure.Some? && done.record.failure.value.kind.Interrupted? && done.record.failure.value.origin.Worker?)
  }

  /// A start the exporter can place: a positive attempt on a rung of its task's recorded chain.
  predicate PlacesStart(header: RunHeader, e: Event)
    requires e.AttemptStarted?
  {
    var chain := Schema.ChainOf(header.chains, e.task);
    && e.attempt > 0 && chain.Some?
    && e.rung < |header.chains[chain.value].tiers| && e.start.tier == header.chains[chain.value].tiers[e.rung]
  }

  /// The attempt join (src/export.rs:208-297): no start or settlement appears twice, and each settlement
  /// follows its start and agrees with it.
  ghost predicate Exports(header: RunHeader, log: seq<Event>) {
    && (forall j :: 0 <= j < |log| && log[j].AttemptStarted? ==> PlacesStart(header, log[j]))
    && (forall j, k :: 0 <= j < k < |log| && log[j].AttemptStarted? && log[k].AttemptStarted? ==> !SameKey(log[j], log[k]))
    && (forall j, k :: 0 <= j < k < |log| && IsSettlement(log[j]) && IsSettlement(log[k]) ==> !SameKey(log[j], log[k]))
    && (forall k :: 0 <= k < |log| && IsSettlement(log[k]) ==>
          exists j :: 0 <= j < k && log[j].AttemptStarted? && ValidSettlement(log[j], log[k]))
  }

  /// How far attempt numbering has come for one task, as seen in the log.
  ghost predicate Numbered(log: seq<Event>, task: TaskId, p: Progress) {
    && (forall j :: 0 <= j < |log| && log[j].AttemptStarted? && log[j].task == task ==> log[j].attempt <= p.attempts)
    && (forall j :: 0 <= j < |log| && IsSettlement(log[j]) && log[j].task == task ==>
          log[j].attempt <= p.attempts && (p.inFlight.Some? ==> log[j].attempt < p.attempts))
    && (p.inFlight.Some? ==>
          exists j :: 0 <= j < |log| && log[j].AttemptStarted? && log[j].task == task && Launched(log[j], p.inFlight.value))
  }

  predicate Launched(e: Event, f: InFlight)
    requires e.AttemptStarted?
  {
    f == InFlight(e.attempt, e.rung, e.start.tier, e.start.model, e.profile, e.start.pool)
  }

  /// The three things an append can do to one task's numbering.
  predicate Numbers(e: Event, task: TaskId, p: Progress, q: Progress) {
    || (!((e.AttemptStarted? || IsSettlement(e)) && e.task == task) && q.attempts == p.attempts && q.inFlight == p.inFlight)
    || (e.AttemptStarted? && e.task == task && e.attempt == p.attempts + 1 == q.attempts
        && q.inFlight.Some? && Launched(e, q.inFlight.value))
    || (IsSettlement(e) && e.task == task && e.attempt == p.attempts == q.attempts && q.inFlight.None?)
  }

  lemma NumberedAppend(log: seq<Event>, e: Event, task: TaskId, p: Progress, q: Progress)
    requires Numbered(log, task, p) && Numbers(e, task, p, q)
    ensures Numbered(log + [e], task, q)
  {
    var after := log + [e];
    assert forall j :: 0 <= j < |log| ==> after[j] == log[j];
    assert after[|log|] == e;
    if q.inFlight.Some? && q.inFlight == p.inFlight && !(e.AttemptStarted? && e.task == task) {
      var j :| 0 <= j < |log| && log[j].AttemptStarted? && log[j].task == task && Launched(log[j], p.inFlight.value);
      assert after[j].AttemptStarted? && after[j].task == task && Launched(after[j], q.inFlight.value);
    }
  }

  lemma NeutralKeepsNumbers(s: State, e: Event, i: nat)
    requires s.Aligned() && i < |s.taskIds| && Neutral(e)
    ensures Step(s, e).progress[i].attempts == s.progress[i].attempts && Step(s, e).progress[i].inFlight == s.progress[i].inFlight
  {
  }

  lemma SettlementNumbers(cfg: Config, sys: Sys, e: Event, i: nat)
    requires WellFormed(cfg) && Inv(cfg, sys) && Legal(cfg, sys, Emit(e)) && i < |sys.state.taskIds| && IsSettlement(e)
    ensures Numbers(e, sys.state.taskIds[i], sys.state.progress[i], Step(sys.state, e).progress[i])
  {
    var s := sys.state;
    var j := SettledIndex(cfg, sys, e);
    assert e.task == s.taskIds[i] ==> i == j;
    if e.AttemptFinished? {
      SettlementSeenBy(cfg, sys, e, i);
      FinishNumbers(e, s.taskIds[i], s.progress[i], Step(s, e).progress[i]);
    } else {
      InterruptNumbers(s, e, i);
    }
  }

  lemma FinishNumbers(e: Event, task: TaskId, p: Progress, q: Progress)
    requires e.AttemptFinished? && q == if e.task == task then SettledProgress(p, e) else p
    requires e.task == task ==> e.attempt == p.attempts
    ensures Numbers(e, task, p, q)
  {
  }

  lemma InterruptNumbers(s: State, e: Event, i: nat)
    requires s.Aligned() && RunState.Distinct(s.taskIds) && i < |s.taskIds| && e.AttemptInterrupted? && Interrupts(s, e)
    requires e.task == s.taskIds[i] ==> e.attempt == s.progress[i].attempts
    ensures Numbers(e, s.taskIds[i], s.progress[i], Step(s, e).progress[i])
  {
    InterruptCounts(s, e, i);
  }

  lemma StartNumbers(cfg: Config, sys: Sys, e: Event, i: nat)
    requires WellFormed(cfg) && Inv(cfg, sys) && Legal(cfg, sys, Emit(e)) && i < |sys.state.taskIds| && e.AttemptStarted?
    ensures Numbers(e, sys.state.taskIds[i], sys.state.progress[i], Step(sys.state, e).progress[i])
  {
    WriterKinds(cfg, sys, e);
    var j :| 0 <= j < |sys.state.taskIds| && Starts(cfg, sys.state, j, e);
    StartCounts(cfg, sys.state, j, e, i);
  }

  lemma AnswerNumbers(cfg: Config, sys: Sys, e: Event, i: nat)
    requires WellFormed(cfg) && Inv(cfg, sys) && Legal(cfg, sys, Emit(e)) && i < |sys.state.taskIds| && e.QuestionAnswered?
    ensures Numbers(e, sys.state.taskIds[i], sys.state.progress[i], Step(sys.state, e).progress[i])
  {
    WriterKinds(cfg, sys, e);
    assert ParkedWell(sys.state, Policy(cfg, i), i);
    AnswerIsLocal(sys.state, e, i);
  }

  lemma NumberingKept(cfg: Config, sys: Sys, e: Event, i: nat)
    requires WellFormed(cfg) && Inv(cfg, sys) && Legal(cfg, sys, Emit(e)) && i < |sys.state.taskIds|
    requires Numbered(sys.log, sys.state.taskIds[i], sys.state.progress[i])
    ensures Numbered(sys.log + [e], sys.state.taskIds[i], Step(sys.state, e).progress[i])
  {
    WriterKinds(cfg, sys, e);
    if IsSettlement(e) {
      SettlementNumbers(cfg, sys, e, i);
    } else if e.QuestionAnswered? {
      AnswerNumbers(cfg, sys, e, i);
    } else if e.AttemptStarted? {
      StartNumbers(cfg, sys, e, i);
    } else {
      NeutralKeepsNumbers(sys.state, e, i);
    }
    NumberedAppend(sys.log, e, sys.state.taskIds[i], sys.state.progress[i], Step(sys.state, e).progress[i]);
  }

  lemma ExportsAppend(header: RunHeader, log: seq<Event>, e: Event)
    requires Exports(header, log)
    requires e.AttemptStarted? ==> PlacesStart(header, e) && forall j :: 0 <= j < |log| && log[j].AttemptStarted? ==> !SameKey(log[j], e)
    requires IsSettlement(e) ==> forall j :: 0 <= j < |log| && IsSettlement(log[j]) ==> !SameKey(log[j], e)
    requires IsSettlement(e) ==> exists j :: 0 <= j < |log| && log[j].AttemptStarted? && ValidSettlement(log[j], e)
    ensures Exports(header, log + [e])
  {
    var after, n := log + [e], |log|;
    SettlementsStillFollow(header, log, e);
    forall j, k | 0 <= j < k < |after| && after[j].AttemptStarted? && after[k].AttemptStarted? ensures !SameKey(after[j], after[k]) {
      assert after[j] == log[j];
    }
    forall j, k | 0 <= j < k < |after| && IsSettlement(after[j]) && IsSettlement(after[k]) ensures !SameKey(after[j], after[k]) {
      assert after[j] == log[j];
    }
  }

  lemma SettlementsStillFollow(header: RunHeader, log: seq<Event>, e: Event)
    requires forall k :: 0 <= k < |log| && IsSettlement(log[k]) ==>
      exists j :: 0 <= j < k && log[j].AttemptStarted? && ValidSettlement(log[j], log[k])
    requires IsSettlement(e) ==> exists j :: 0 <= j < |log| && log[j].AttemptStarted? && ValidSettlement(log[j], e)
    ensures forall k :: 0 <= k < |log + [e]| && IsSettlement((log + [e])[k]) ==>
      exists j :: 0 <= j < k && (log + [e])[j].AttemptStarted? && ValidSettlement((log + [e])[j], (log + [e])[k])
  {
    var after, n := log + [e], |log|;
    forall k | 0 <= k < |after| && IsSettlement(after[k])
      ensures exists j :: 0 <= j < k && after[j].AttemptStarted? && ValidSettlement(after[j], after[k])
    {
      var j :| 0 <= j < (if k < n then k else n) && log[j].AttemptStarted? && ValidSettlement(log[j], after[k]);
      assert after[j].AttemptStarted? && ValidSettlement(after[j], after[k]);
    }
  }

  lemma StartExports(cfg: Config, sys: Sys, e: Event)
    requires WellFormed(cfg) && Inv(cfg, sys) && Legal(cfg, sys, Emit(e)) && e.AttemptStarted?
    requires forall i :: 0 <= i < |sys.state.taskIds| ==> Numbered(sys.log, sys.state.taskIds[i], sys.state.progress[i])
    ensures PlacesStart(cfg.header, e)
    ensures forall j :: 0 <= j < |sys.log| && sys.log[j].AttemptStarted? ==> !SameKey(sys.log[j], e)
  {
    WriterKinds(cfg, sys, e);
    var i :| 0 <= i < |sys.state.taskIds| && Starts(cfg, sys.state, i, e);
    ChainIsIndex(cfg, i);
    assert Numbered(sys.log, sys.state.taskIds[i], sys.state.progress[i]);
  }

  lemma SettlementExports(cfg: Config, sys: Sys, e: Event)
    requires WellFormed(cfg) && Inv(cfg, sys) && Legal(cfg, sys, Emit(e)) && IsSettlement(e)
    requires forall i :: 0 <= i < |sys.state.taskIds| ==> Numbered(sys.log, sys.state.taskIds[i], sys.state.progress[i])
    ensures forall j :: 0 <= j < |sys.log| && IsSettlement(sys.log[j]) ==> !SameKey(sys.log[j], e)
    ensures exists j :: 0 <= j < |sys.log| && sys.log[j].AttemptStarted? && ValidSettlement(sys.log[j], e)
  {
    var i := SettledIndex(cfg, sys, e);
    var task, p := sys.state.taskIds[i], sys.state.progress[i];
    assert Numbered(sys.log, task, p);
    var j :| 0 <= j < |sys.log| && sys.log[j].AttemptStarted? && sys.log[j].task == task && Launched(sys.log[j], p.inFlight.value);
    if e.AttemptFinished? {
      FinishExports(cfg, sys.state, i, e);
    }
    LaunchedThenSettled(sys.log[j], e, p.inFlight.value);
  }

  lemma LaunchedThenSettled(start: Event, done: Event, f: InFlight)
    requires start.AttemptStarted? && IsSettlement(done) && start.task == done.task && Launched(start, f)
    requires done.attempt == f.attempt && done.rung == f.rung && done.profile == f.profile && Identifies(done.record, f)
    requires done.AttemptFinished? ==>
      && ExportsDecision(done.task, done.record.failure, done.transition, done.parking)
      && !(done.record.failure.Some? && done.record.failure.value.kind.Interrupted?)
    requires done.AttemptInterrupted? ==> done == RunState.InterruptEvent(done.task, f)
    ensures ValidSettlement(start, done)
  {
  }

  lemma AppendExports(cfg: Config, sys: Sys, e: Event)
    requires WellFormed(cfg) && Inv(cfg, sys) && Legal(cfg, sys, Emit(e)) && Exports(cfg.header, sys.log)
    requires forall i :: 0 <= i < |sys.state.taskIds| ==> Numbered(sys.log, sys.state.taskIds[i], sys.state.progress[i])
    ensures Exports(cfg.header, sys.log + [e])
  {
    if e.AttemptStarted? {
      StartExports(cfg, sys, e);
    } else if IsSettlement(e) {
      SettlementExports(cfg, sys, e);
    }
    ExportsAppend(cfg.header, sys.log, e);
  }

  lemma SettledIndex(cfg: Config, sys: Sys, e: Event) returns (i: nat)
    requires WellFormed(cfg) && Inv(cfg, sys) && Legal(cfg, sys, Emit(e)) && IsSettlement(e)
    ensures i < |sys.state.taskIds| && e.task == sys.state.taskIds[i] && sys.state.progress[i].inFlight.Some?
    ensures
      var f := sys.state.progress[i].inFlight.value;
      && e.attempt == f.attempt == sys.state.progress[i].attempts && e.rung == f.rung && e.profile == f.profile
      && Identifies(e.record, f)
    ensures e.AttemptFinished? ==> Settles(cfg, sys.state, i, e)
    ensures e.AttemptInterrupted? ==>
      Interrupts(sys.state, e) && e == RunState.InterruptEvent(e.task, sys.state.progress[i].inFlight.value)
  {
    WriterKinds(cfg, sys, e);
    if e.AttemptFinished? {
      i := sys.mode.i;
    } else {
      i := IndexOf(sys.state.taskIds, e.task).value;
    }
    assert WithinPolicy(sys, Policy(cfg, i), i);
  }

  lemma FinishExports(cfg: Config, s: State, i: nat, e: Event)
    requires WellFormed(cfg) && s.Aligned() && s.taskIds == Ids(cfg) && Settles(cfg, s, i, e)
    ensures ExportsDecision(e.task, e.record.failure, e.transition, e.parking)
    ensures !(e.record.failure.Some? && e.record.failure.value.kind.Interrupted?)
  {
    SettlementsAreOk(cfg, s, i, e);
    if e.record.failure.Some? {
      ValidDecisionsExport(e.task, e.record.failure.value, e.transition, e.parking);
    }
  }

  /// Every log the writer can leave behind also passes the exporter's independent join.
  lemma {:induction false} EveryLogExports(cfg: Config, moves: seq<Move>)
    requires ValidRun(cfg, moves)
    ensures Exports(cfg.header, After(cfg, moves).log)
    ensures forall i :: 0 <= i < |cfg.header.chains| ==> Numbered(After(cfg, moves).log, Ids(cfg)[i], After(cfg, moves).state.progress[i])
  {
    if moves != [] {
      var n := |moves| - 1;
      PrefixRun(cfg, moves, n);
      EveryLogExports(cfg, moves[..n]);
      RunKeeps(cfg, moves[..n]);
      var sys := After(cfg, moves[..n]);
      if moves[n].Emit? {
        assert Legal(cfg, sys, moves[n]);
        AppendExports(cfg, sys, moves[n].e);
        forall i | 0 <= i < |cfg.header.chains|
          ensures Numbered(After(cfg, moves).log, Ids(cfg)[i], After(cfg, moves).state.progress[i])
        {
          NumberingKept(cfg, sys, moves[n].e, i);
        }
      }
    }
  }
}
