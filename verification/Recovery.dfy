// A run that dies can always be taken up again (src/engine.rs:1700-1830), and one that goes through to the end.
module Recovery {
  import opened Prelude
  import opened Ladder
  import opened Events
  import opened Decisions
  import opened Writer
  import opened Runs
  import opened Spending
  import opened Identity
  import RunState
  import Schema
  import Review
  import Rfc3339
  import Histories

  // --------------------------------------------------------------- recovery

  /// These moves take up a run: a process ends and another starts, makes good what the first left behind, and resumes.
  predicate TakesUp(more: seq<Move>) {
    && 3 <= |more| <= 5 && more[0] == Die && more[1] == Boot
    && (forall k :: 2 <= k < |more| - 1 ==>
          more[k].Emit? && (more[k].e.TaskCommitted? || more[k].e.AttemptInterrupted?))
    && more[|more| - 1].Emit? && more[|more| - 1].e.RunResumed?
  }

  /// An engine at work again with nothing left over: nothing in flight, no commit owed, no conversation that describes a
  /// tree which is gone, no budget stop, nothing waiting for a pool.
  ghost predicate Afresh(sys: Sys) {
    && sys.mode.Scheduling? && Idle(sys.state) && Owed(sys.log).None?
    && sys.state.budgetStop.None? && sys.state.finished.None?
    && (forall i :: 0 <= i < |sys.state.progress| ==> sys.state.progress[i].session.None? && !sys.state.progress[i].resumeNext)
    && (forall i :: 0 <= i < |sys.state.states| ==> !sys.state.states[i].Deferred?)
  }

  lemma Rebooted(cfg: Config, moves: seq<Move>) returns (next: seq<Move>)
    requires ValidRun(cfg, moves)
    ensures next == moves + [Die, Boot] && ValidRun(cfg, next)
    ensures After(cfg, next) == After(cfg, moves).(mode := Repairing)
  {
    ExtendRun(cfg, moves, Die);
    ExtendRun(cfg, moves + [Die], Boot);
    next := moves + [Die] + [Boot];
    assert next == moves + [Die, Boot];
  }

  lemma CommitOwed(cfg: Config, moves: seq<Move>) returns (next: seq<Move>, made: seq<Move>)
    requires ValidRun(cfg, moves) && After(cfg, moves).mode == Repairing
    ensures next == moves + made && ValidRun(cfg, next)
    ensures After(cfg, next).mode == Repairing && Owed(After(cfg, next).log).None?
    ensures |made| <= 1 && forall k :: 0 <= k < |made| ==> made[k].Emit? && made[k].e.TaskCommitted?
    ensures After(cfg, moves).state.progress == After(cfg, next).state.progress
    ensures made != [] ==> Idle(After(cfg, moves).state)
  {
    var sys := After(cfg, moves);
    RunKeeps(cfg, moves);
    if Owed(sys.log).None? {
      next, made := moves, [];
    } else {
      var owed := Owed(sys.log).value;
      var e := TaskCommitted(owed.0, owed.1.commitSha, owed.1.message);
      assert Legal(cfg, sys, Emit(e));
      ExtendRun(cfg, moves, Emit(e));
      next, made := moves + [Emit(e)], [Emit(e)];
      assert (sys.log + [e])[|sys.log|] == e;
    }
  }

  lemma InterruptsWhatIsLeft(cfg: Config, moves: seq<Move>) returns (next: seq<Move>, made: seq<Move>)
    requires ValidRun(cfg, moves) && After(cfg, moves).mode == Repairing && Owed(After(cfg, moves).log).None?
    ensures next == moves + made && ValidRun(cfg, next)
    ensures After(cfg, next).mode == Repairing && Owed(After(cfg, next).log).None? && Idle(After(cfg, next).state)
    ensures |made| <= 1 && forall k :: 0 <= k < |made| ==> made[k].Emit? && made[k].e.AttemptInterrupted?
    ensures Idle(After(cfg, moves).state) ==> made == []
  {
    var sys := After(cfg, moves);
    if Idle(sys.state) {
      next, made := moves, [];
    } else {
      var i :| 0 <= i < |sys.state.progress| && sys.state.progress[i].inFlight.Some?;
      var e := RunState.InterruptEvent(sys.state.taskIds[i], sys.state.progress[i].inFlight.value);
      InterruptGoes(cfg, moves, i, e);
      next, made := moves + [Emit(e)], [Emit(e)];
    }
  }

  lemma InterruptGoes(cfg: Config, moves: seq<Move>, i: nat, e: Event)
    requires ValidRun(cfg, moves) && After(cfg, moves).mode == Repairing && Owed(After(cfg, moves).log).None?
    requires i < |After(cfg, moves).state.taskIds| && After(cfg, moves).state.progress[i].inFlight.Some?
    requires
      var s := After(cfg, moves).state;
      e == RunState.InterruptEvent(s.taskIds[i], s.progress[i].inFlight.value)
    ensures ValidRun(cfg, moves + [Emit(e)])
    ensures
      var after := After(cfg, moves + [Emit(e)]);
      after.mode == Repairing && Owed(after.log).None? && Idle(after.state)
  {
    var sys := After(cfg, moves);
    RunKeeps(cfg, moves);
    InterruptIsLegal(cfg, sys, i, e);
    InterruptedIsIdle(cfg, sys, i, e);
    ExtendRun(cfg, moves, Emit(e));
    NothingOwed(sys.log, e);
  }

  lemma NothingOwed(log: seq<Event>, e: Event)
    requires e.AttemptInterrupted?
    ensures Owed(log + [e]).None?
  {
    assert (log + [e])[|log|] == e;
  }

  lemma InterruptIsLegal(cfg: Config, sys: Sys, i: nat, e: Event)
    requires WellFormed(cfg) && Inv(cfg, sys) && i < |sys.state.taskIds| && sys.state.progress[i].inFlight.Some?
    requires sys.mode == Repairing && Owed(sys.log).None?
    requires e == RunState.InterruptEvent(sys.state.taskIds[i], sys.state.progress[i].inFlight.value)
    ensures Legal(cfg, sys, Emit(e))
  {
    RunState.DistinctIndex(sys.state.taskIds, i);
    assert Interrupts(sys.state, e);
  }

  lemma InterruptedIsIdle(cfg: Config, sys: Sys, i: nat, e: Event)
    requires WellFormed(cfg) && Inv(cfg, sys) && i < |sys.state.taskIds| && sys.state.progress[i].inFlight.Some?
    requires e == RunState.InterruptEvent(sys.state.taskIds[i], sys.state.progress[i].inFlight.value)
    ensures Idle(Step(sys.state, e))
  {
    RunState.DistinctIndex(sys.state.taskIds, i);
    assert ModeAgrees(sys);
  }

  lemma ResumesAfresh(cfg: Config, moves: seq<Move>, resume: ResumeRecord)
    requires ValidRun(cfg, moves) && After(cfg, moves).mode == Repairing
    requires Owed(After(cfg, moves).log).None? && Idle(After(cfg, moves).state)
    ensures ValidRun(cfg, moves + [Emit(RunResumed(resume))])
    ensures Afresh(After(cfg, moves + [Emit(RunResumed(resume))]))
  {
    var sys, e := After(cfg, moves), RunResumed(resume);
    assert Legal(cfg, sys, Emit(e));
    ExtendRun(cfg, moves, Emit(e));
    assert (sys.log + [e])[|sys.log|] == e;
  }

  /// Every run, wherever it is and however often it has died, can be taken up: at most one commit and one interruption
  /// make good what was left behind, the resume follows, and the engine starts afresh.
  lemma EveryRunCanBeTakenUp(cfg: Config, moves: seq<Move>, resume: ResumeRecord) returns (more: seq<Move>)
    requires ValidRun(cfg, moves)
    ensures TakesUp(more) && ValidRun(cfg, moves + more) && Afresh(After(cfg, moves + more))
    ensures more[|more| - 1] == Emit(RunResumed(resume))
  {
    var booted := Rebooted(cfg, moves);
    var settled, commit := CommitOwed(cfg, booted);
    var idle, interrupt := InterruptsWhatIsLeft(cfg, settled);
    ResumesAfresh(cfg, idle, resume);
    more := [Die, Boot] + commit + interrupt + [Emit(RunResumed(resume))];
    Assembled(moves, [Die, Boot], commit, interrupt, [Emit(RunResumed(resume))]);
    PartsTakeUp(commit, interrupt, RunResumed(resume));
  }

  lemma Assembled(moves: seq<Move>, a: seq<Move>, b: seq<Move>, c: seq<Move>, d: seq<Move>)
    ensures moves + (a + b + c + d) == moves + a + b + c + d
  {
  }

  lemma PartsTakeUp(commit: seq<Move>, interrupt: seq<Move>, e: Event)
    requires |commit| <= 1 && forall k :: 0 <= k < |commit| ==> commit[k].Emit? && commit[k].e.TaskCommitted?
    requires |interrupt| <= 1 && forall k :: 0 <= k < |interrupt| ==> interrupt[k].Emit? && interrupt[k].e.AttemptInterrupted?
    requires e.RunResumed?
    ensures TakesUp([Die, Boot] + commit + interrupt + [Emit(e)])
  {
  }

  // --------------------------------------------------------------- one run

  function Zeros(n: nat): string { seq(n, _ => '0') }

  const HEADER := RunHeader(
    3, "r1", "tactus/r1", "hash", [ChainSummary("t", [Small], 1)], Some("sha256:" + Zeros(64)),
    Some(Review.ReviewPlan(Some(false), Some(false), Some(5400), None, None, [None])))

  const CONFIG := Config(HEADER, 0)

  function Oid(c: char): string { seq(40, _ => c) }

  const PREPARED := PreparedCommit(
    "refs/heads/tactus/r1", Oid('1'), Oid('2'), Oid('3'), "[tactus] t: done", "refs/tactus/prepared/r1/0-1")

  const STARTED := AttemptStarted("t", 1, 0, "worker", AttemptStart(Small, "model", None, None))

  const SETTLED := AttemptFinished(
    "t", 1, 0, "worker", AttemptRecord(1, Small, "model", None, false, None, [], None, None), None, None, Some(PREPARED))

  const COMMITTED := TaskCommitted("t", Oid('3'), "[tactus] t: done")

  const FINISHED := RunFinished(Finish(Complete, None, 1, 0))

  const THROUGH: seq<Move> := [Emit(STARTED), Emit(SETTLED), Emit(COMMITTED), Emit(FINISHED)]

  lemma HeaderKnows()
    ensures Knows(HEADER)
  {
    assert Zeros(64)[0] == '0' && '0' in HEX;
    assert Over(Zeros(64), HEX);
    assert NamesBytes("sha256:" + Zeros(64));
    assert ReviewIsOff(HEADER.reviews.value);
  }

  lemma ConfigIsWellFormed()
    ensures WellFormed(CONFIG) && Ids(CONFIG) == ["t"]
  {
    HeaderKnows();
    KnowsIs(HEADER);
  }

  lemma OidIsAnOid(c: char)
    requires c in DIGITS
    ensures IsOid(Oid(c))
  {
    assert c in HEX;
  }

  lemma CommitIsPrepared()
    ensures IsPrepared(HEADER, "t", 1, PREPARED)
  {
    OidIsAnOid('1');
    OidIsAnOid('2');
    OidIsAnOid('3');
    assert Oid('1')[0] != Oid('3')[0];
    BranchIs();
    MessageIs();
    PinIs();
    PinIsPlain();
    assert IsPreparedAs(HEADER, "t", 1, PREPARED, 0, "done");
  }

  lemma BranchIs()
    ensures PREPARED.branchRef == "refs/heads/" + HEADER.branch && NoDots(PREPARED.branchRef)
  {
  }

  lemma MessageIs()
    ensures PREPARED.message == "[tactus] " + "t" + ": " + "done" && '\r' !in PREPARED.message && '\n' !in PREPARED.message
  {
  }

  lemma PinIs()
    ensures PREPARED.pinRef == "refs/tactus/prepared/" + HEADER.runId + "/" + Rfc3339.Pad(0, 0) + "-" + Rfc3339.Pad(1, 0)
  {
    assert Rfc3339.Pad(0, 0) == "0" && Rfc3339.Pad(1, 0) == "1";
  }

  lemma PinIsPlain()
    ensures NoDots(PREPARED.pinRef) && Over(PREPARED.pinRef, REF)
  {
    assert forall k :: 0 <= k < 21 ==> Schema.IsRefChar("refs/tactus/prepared/"[k]);
    assert forall k :: 0 <= k < 6 ==> Schema.IsRefChar("r1/0-1"[k]);
    RefChars("refs/tactus/prepared/");
    RefChars("r1/0-1");
    assert PREPARED.pinRef == "refs/tactus/prepared/" + "r1/0-1";
    OverBoth("refs/tactus/prepared/", "r1/0-1");
    PlainHasNoDots(PREPARED.pinRef);
  }

  lemma RefChars(s: string)
    requires forall k :: 0 <= k < |s| ==> Schema.IsRefChar(s[k])
    ensures Over(s, REF)
  {
    forall k | 0 <= k < |s| ensures s[k] in REF {
      RefIsRef(s[k]);
    }
  }

  lemma OverBoth(a: string, b: string)
    requires Over(a, REF) && Over(b, REF)
    ensures Over(a + b, REF)
  {
  }

  lemma PlainHasNoDots(s: string)
    requires Over(s, REF)
    ensures NoDots(s)
  {
    RefIsRef('.');
  }

  /// The run's states, append by append.
  function Through(k: nat): Sys
    requires k <= |THROUGH|
  {
    var flight := InFlight(1, 0, Small, "model", "worker", None);
    var running := Progress(0, 1, 1, None, false, [], 0, [], Some(flight));
    var settled := Progress(0, 1, 1, None, false, [], 0, [SETTLED.record], None);
    match k
    case 0 => Sys([RunStarted(HEADER)], State(["t"], [Pending], [FRESH], [], [], None, None, None), Scheduling)
    case 1 => Sys([RunStarted(HEADER), STARTED], State(["t"], [Pending], [running], [], [0], None, None, None), Running(0))
    case 2 =>
      Sys([RunStarted(HEADER), STARTED, SETTLED], State(["t"], [Pending], [settled], [], [0], None, None, None), Publishing(0))
    case 3 =>
      Sys([RunStarted(HEADER), STARTED, SETTLED, COMMITTED],
          State(["t"], [Done(Oid('3'))], [settled], [], [0], None, None, None), Scheduling)
    case _ =>
      Sys([RunStarted(HEADER), STARTED, SETTLED, COMMITTED, FINISHED],
          State(["t"], [Done(Oid('3'))], [settled], [], [0], None, None, Some(FINISHED.finish)), Down)
  }

  lemma ThroughStarts()
    ensures Start(CONFIG) == Through(0)
  {
    ConfigIsWellFormed();
    assert NewState(["t"]).states == [Pending] && NewState(["t"]).progress == [FRESH];
  }

  lemma StartGoes()
    ensures Legal(CONFIG, Through(0), Emit(STARTED)) && Do(Through(0), Emit(STARTED)) == Through(1)
  {
    assert Starts(CONFIG, Through(0).state, 0, STARTED);
    assert IndexOf(["t"], "t") == Some(0);
  }

  lemma SettlementGoes()
    ensures Legal(CONFIG, Through(1), Emit(SETTLED)) && Do(Through(1), Emit(SETTLED)) == Through(2)
  {
    CommitIsBound();
    SuccessSettles(CONFIG, Through(1).state, 0, SETTLED);
    SettlementLeads();
  }

  lemma CommitIsBound()
    ensures Schema.BindsPrepared(HEADER, "t", 1, PREPARED)
  {
    CommitIsPrepared();
    PreparedIs(HEADER, "t", 1, PREPARED);
  }

  lemma SuccessSettles(cfg: Config, s: State, i: nat, e: Event)
    requires s.Aligned() && |s.taskIds| == |cfg.header.chains| && i < |s.taskIds| && e.AttemptFinished? && e.task == s.taskIds[i]
    requires s.progress[i].inFlight.Some? && e.attempt == s.progress[i].inFlight.value.attempt
    requires e.rung == s.progress[i].inFlight.value.rung && e.profile == s.progress[i].inFlight.value.profile
    requires Identifies(e.record, s.progress[i].inFlight.value) && e.record.resumed == s.progress[i].session.Some?
    requires e.record.failure.None? && e.parking.None? && e.transition.None? && e.prepared.Some?
    requires Schema.BindsPrepared(cfg.header, e.task, e.attempt, e.prepared.value)
    ensures Settles(cfg, s, i, e)
  {
  }

  lemma SettlementLeads()
    ensures Do(Through(1), Emit(SETTLED)) == Through(2)
  {
    SettlementIsLocal(Through(1).state, 0, SETTLED);
    assert SettledProgress(Through(1).state.progress[0], SETTLED) == Through(2).state.progress[0];
  }

  lemma CommitGoes()
    ensures Legal(CONFIG, Through(2), Emit(COMMITTED)) && Do(Through(2), Emit(COMMITTED)) == Through(3)
  {
    assert IndexOf(["t"], "t") == Some(0);
  }

  lemma FinishGoes()
    ensures Legal(CONFIG, Through(3), Emit(FINISHED)) && Do(Through(3), Emit(FINISHED)) == Through(4)
  {
  }

  lemma Goes(k: nat)
    requires k < |THROUGH|
    ensures Legal(CONFIG, Through(k), THROUGH[k]) && Do(Through(k), THROUGH[k]) == Through(k + 1)
  {
    match k
    case 0 => StartGoes();
    case 1 => SettlementGoes();
    case 2 => CommitGoes();
    case 3 => FinishGoes();
  }

  lemma {:induction false} GoesThrough(k: nat)
    requires k <= |THROUGH|
    ensures ValidRun(CONFIG, THROUGH[..k]) && After(CONFIG, THROUGH[..k]) == Through(k)
  {
    ConfigIsWellFormed();
    if k == 0 {
      ThroughStarts();
    } else {
      GoesThrough(k - 1);
      Goes(k - 1);
      ExtendRun(CONFIG, THROUGH[..k - 1], THROUGH[k - 1]);
      assert THROUGH[..k - 1] + [THROUGH[k - 1]] == THROUGH[..k];
    }
  }

  /// There is such a configuration and such a run: a plan of one task, its bytes named by a digest of 64 digits, its
  /// review off, one attempt, and one commit of 40-digit objects on the branch, under the ref and with the message that
  /// only this attempt can have. A reader takes its log.
  lemma OneRunGoesThrough()
    ensures WellFormed(CONFIG) && ValidRun(CONFIG, THROUGH)
    ensures After(CONFIG, THROUGH).log == [RunStarted(HEADER), STARTED, SETTLED, COMMITTED, FINISHED]
    ensures After(CONFIG, THROUGH).state.states == [Done(Oid('3'))]
    ensures Schema.Accepted(HEADER, [RunStarted(HEADER), STARTED, SETTLED, COMMITTED, FINISHED])
  {
    ConfigIsWellFormed();
    GoesThrough(|THROUGH|);
    assert THROUGH[..|THROUGH|] == THROUGH;
    Histories.EveryLogIsAccepted(CONFIG, THROUGH);
  }
}
