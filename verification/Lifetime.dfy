// What one task can cost over a whole run, through every park, answer, crash and resume (src/ladder.rs:163-209,
// src/events.rs:1356-1433).
module Lifetime {
  import opened Prelude
  import opened Ladder
  import opened Events
  import opened Writer
  import opened Runs
  import opened Spending
  import RunState

  /// What a task can still start without a person: its budget while it can run, the rungs above while it waits for an
  /// answer, nothing once it has ended.
  function Left(st: TaskState, p: Progress, pol: LadderPolicy): int {
    if Open(st) then Budget(p, pol)
    else if st.AwaitingInput? then (pol.rungs - 1 - p.rung) * pol.attemptsPer
    else 0
  }

  /// What one answer that lets a task go on is worth.
  function Fresh(pol: LadderPolicy): nat {
    pol.attemptsPer + pol.maxDefers
  }

  predicate LetsGoOn(s: State, e: Event, i: nat)
    requires s.Aligned() && i < |s.taskIds|
  {
    e.QuestionAnswered? && s.states[i].AwaitingInput? && Step(s, e).states[i].Pending?
  }

  /// The answers in a log that un-parked task i.
  function Released(s: State, log: seq<Event>, i: nat): nat
    requires s.Aligned() && i < |s.taskIds|
  {
    if log == [] then 0
    else
      var before := log[..|log| - 1];
      Released(s, before, i) + if LetsGoOn(Fold(s, before), log[|log| - 1], i) then 1 else 0
  }

  /// One event never leaves more than there was, but for what a crash gives back and an answer adds.
  ghost predicate Costs(s: State, e: Event, i: nat, pol: LadderPolicy)
    requires s.Aligned() && i < |s.taskIds|
  {
    var r, task := Step(s, e), s.taskIds[i];
    Left(r.states[i], r.progress[i], pol) + Started([e], task) <=
      Left(s.states[i], s.progress[i], pol) + Crashed([e], task) + (if LetsGoOn(s, e, i) then Fresh(pol) else 0)
  }

  lemma RungsAbove(p: Progress, pol: LadderPolicy)
    requires p.rung < pol.rungs && p.attemptsOnRung <= pol.attemptsPer && p.defers <= pol.maxDefers
    ensures 0 <= (pol.rungs - 1 - p.rung) * pol.attemptsPer <= Budget(p, pol)
    ensures (pol.rungs - p.rung) * pol.attemptsPer == (pol.rungs - 1 - p.rung) * pol.attemptsPer + pol.attemptsPer
  {
    var a, b := pol.rungs - 1 - p.rung, pol.attemptsPer;
    assert (a + 1) * b == a * b + b;
    assert a * b >= 0;
  }

  lemma HigherIsLess(rung: nat, higher: nat, pol: LadderPolicy)
    requires rung <= higher
    ensures (pol.rungs - 1 - higher) * pol.attemptsPer <= (pol.rungs - 1 - rung) * pol.attemptsPer
  {
    var a, d, b := pol.rungs - 1 - higher, higher - rung, pol.attemptsPer;
    assert (a + d) * b == a * b + d * b;
    assert d * b >= 0;
  }

  /// A settlement that parks a task leaves it the rungs above the one it ran on at most.
  lemma ParkCosts(cfg: Config, sys: Sys, e: Event, i: nat)
    requires WellFormed(cfg) && Inv(cfg, sys) && Legal(cfg, sys, Emit(e)) && i < |sys.state.taskIds| && e.AttemptFinished?
    requires e.task == sys.state.taskIds[i] && Ends(e, e.task)
    ensures Costs(sys.state, e, i, Policy(cfg, i))
  {
    OneEvent(e, sys.state.taskIds[i]);
    SettlementSeenBy(cfg, sys, e, i);
    assert WithinPolicy(sys, Policy(cfg, i), i);
    ParkedLeft(sys.state.states[i], sys.state.progress[i], e, Policy(cfg, i));
  }

  lemma ParkedLeft(st: TaskState, p: Progress, e: Event, pol: LadderPolicy)
    requires e.AttemptFinished? && Open(st) && p.rung < pol.rungs && p.attemptsOnRung <= pol.attemptsPer && p.defers <= pol.maxDefers
    requires SettledProgress(p, e).rung >= p.rung && !Open(SettledState(st, e))
    ensures Left(SettledState(st, e), SettledProgress(p, e), pol) <= Left(st, p, pol)
  {
    RungsAbove(p, pol);
    HigherIsLess(p.rung, SettledProgress(p, e).rung, pol);
  }

  /// An answer that lets a task go on gives it at most one rung's attempts and every deferral back.
  lemma AnswerGives(cfg: Config, sys: Sys, e: Event, i: nat)
    requires WellFormed(cfg) && Inv(cfg, sys) && i < |sys.state.taskIds| && Answers(sys.state, e)
    ensures Costs(sys.state, e, i, Policy(cfg, i))
  {
    var s, pol := sys.state, Policy(cfg, i);
    OneEvent(e, s.taskIds[i]);
    assert WithinPolicy(sys, pol, i) && ParkedWell(s, pol, i);
    AnswerIsLocal(s, e, i);
    if LetsGoOn(s, e, i) {
      AnsweredBudget(s.progress[i], Step(s, e).progress[i], pol);
    }
  }

  lemma AnsweredBudget(p: Progress, q: Progress, pol: LadderPolicy)
    requires p.rung < pol.rungs && q.rung == p.rung && q.defers == 0
    ensures Budget(q, pol) <= (pol.rungs - 1 - p.rung) * pol.attemptsPer + Fresh(pol)
  {
    var a, b := pol.rungs - 1 - p.rung, pol.attemptsPer;
    assert (a + 1) * b == a * b + b;
  }

  lemma ClosedStaysClosed(cfg: Config, sys: Sys, e: Event, i: nat)
    requires WellFormed(cfg) && Inv(cfg, sys) && Legal(cfg, sys, Emit(e)) && i < |sys.state.taskIds|
    requires !Open(sys.state.states[i]) && !e.QuestionAnswered?
    ensures Costs(sys.state, e, i, Policy(cfg, i))
  {
    var s, pol := sys.state, Policy(cfg, i);
    assert WithinPolicy(sys, pol, i);
    WriterKinds(cfg, sys, e);
    if e.AttemptFinished? {
      SettlementSeenBy(cfg, sys, e, i);
      assert Unmoved(s, e, i);
    } else if e.AttemptStarted? {
      var j :| 0 <= j < |s.taskIds| && Starts(cfg, s, j, e);
      StartKeepsClosed(cfg, s, j, e, i);
    } else if e.AttemptInterrupted? {
      InterruptKeepsClosed(s, e, i);
    } else {
      NeutralKeepsClosed(s, e, i);
    }
    UnmovedCosts(s, e, i, pol);
  }

  /// The task keeps its rung and stays closed, and does not start.
  predicate Unmoved(s: State, e: Event, i: nat)
    requires s.Aligned() && i < |s.taskIds|
  {
    var r := Step(s, e);
    && r.progress[i].rung == s.progress[i].rung && !(e.AttemptStarted? && e.task == s.taskIds[i])
    && (r.states[i] == s.states[i] || r.states[i].Done? || r.states[i].FailedTask?)
  }

  lemma UnmovedCosts(s: State, e: Event, i: nat, pol: LadderPolicy)
    requires s.Aligned() && i < |s.taskIds| && !Open(s.states[i]) && Unmoved(s, e, i)
    requires var p := s.progress[i]; p.rung < pol.rungs && p.attemptsOnRung <= pol.attemptsPer && p.defers <= pol.maxDefers
    ensures Costs(s, e, i, pol)
  {
    OneEvent(e, s.taskIds[i]);
    ClosedLeft(s.states[i], s.progress[i], Step(s, e).states[i], Step(s, e).progress[i], pol);
  }

  lemma ClosedLeft(st: TaskState, p: Progress, after: TaskState, q: Progress, pol: LadderPolicy)
    requires p.rung < pol.rungs && p.attemptsOnRung <= pol.attemptsPer && p.defers <= pol.maxDefers
    requires !Open(st) && q.rung == p.rung && (after == st || after.Done? || after.FailedTask?)
    ensures Left(after, q, pol) <= Left(st, p, pol)
  {
    RungsAbove(p, pol);
  }

  lemma StartKeepsClosed(cfg: Config, s: State, j: nat, e: Event, i: nat)
    requires s.Aligned() && |s.taskIds| == |cfg.header.chains| && RunState.Distinct(s.taskIds) && i < |s.taskIds|
    requires Starts(cfg, s, j, e) && !Open(s.states[i])
    ensures Unmoved(s, e, i)
  {
    StartCounts(cfg, s, j, e, i);
  }

  lemma InterruptKeepsClosed(s: State, e: Event, i: nat)
    requires s.Aligned() && RunState.Distinct(s.taskIds) && i < |s.taskIds| && Interrupts(s, e)
    ensures Unmoved(s, e, i)
  {
    InterruptCounts(s, e, i);
  }

  lemma NeutralKeepsClosed(s: State, e: Event, i: nat)
    requires s.Aligned() && i < |s.taskIds| && Neutral(e) && !Open(s.states[i])
    ensures Unmoved(s, e, i)
  {
  }

  lemma NeutralEnds(cfg: Config, sys: Sys, e: Event, i: nat)
    requires WellFormed(cfg) && Inv(cfg, sys) && i < |sys.state.taskIds| && Neutral(e) && Ends(e, sys.state.taskIds[i])
    ensures Costs(sys.state, e, i, Policy(cfg, i))
  {
    var s, pol := sys.state, Policy(cfg, i);
    OneEvent(e, s.taskIds[i]);
    RunState.DistinctIndex(s.taskIds, i);
    assert WithinPolicy(sys, pol, i);
    RungsAbove(s.progress[i], pol);
  }

  lemma EventCosts(cfg: Config, sys: Sys, e: Event, i: nat)
    requires WellFormed(cfg) && Inv(cfg, sys) && Legal(cfg, sys, Emit(e)) && i < |sys.state.taskIds|
    ensures Costs(sys.state, e, i, Policy(cfg, i))
  {
    WriterKinds(cfg, sys, e);
    if e.QuestionAnswered? {
      AnswerGives(cfg, sys, e, i);
    } else if !Open(sys.state.states[i]) {
      ClosedStaysClosed(cfg, sys, e, i);
    } else if !Ends(e, sys.state.taskIds[i]) {
      EventSpends(cfg, sys, e, i);
    } else if e.AttemptFinished? {
      ParkCosts(cfg, sys, e, i);
    } else {
      NeutralEnds(cfg, sys, e, i);
    }
  }

  /// What the answers in a log were worth together.
  function Given(s: State, log: seq<Event>, i: nat, unit: nat): nat
    requires s.Aligned() && i < |s.taskIds|
  {
    if log == [] then 0
    else
      var before := log[..|log| - 1];
      Given(s, before, i, unit) + if LetsGoOn(Fold(s, before), log[|log| - 1], i) then unit else 0
  }

  lemma GivenGrows(s: State, log: seq<Event>, e: Event, i: nat, unit: nat)
    requires s.Aligned() && i < |s.taskIds|
    ensures Given(s, log + [e], i, unit) == Given(s, log, i, unit) + if LetsGoOn(Fold(s, log), e, i) then unit else 0
  {
    assert (log + [e])[..|log|] == log;
  }

  lemma {:induction false} GivenIsReleases(s: State, log: seq<Event>, i: nat, unit: nat)
    requires s.Aligned() && i < |s.taskIds|
    ensures Given(s, log, i, unit) == Released(s, log, i) * unit
  {
    if log != [] {
      var before := log[..|log| - 1];
      GivenIsReleases(s, before, i, unit);
      OneMoreTime(Released(s, before, i), LetsGoOn(Fold(s, before), log[|log| - 1], i), unit);
    }
  }

  lemma OneMoreTime(n: nat, more: bool, unit: nat)
    ensures (n + if more then 1 else 0) * unit == n * unit + if more then unit else 0
  {
  }

  lemma StepCosts(cfg: Config, sys: Sys, e: Event, i: nat, bound: int)
    requires sys.state.Aligned() && |sys.state.taskIds| == |cfg.header.chains| && i < |sys.state.taskIds|
    requires sys.state == Fold(NewState(Ids(cfg)), sys.log)
    requires Within(cfg, sys, i, bound) && Costs(sys.state, e, i, Policy(cfg, i))
    ensures Within(cfg, Do(sys, Emit(e)), i, bound)
  {
    var task, s0, pol := sys.state.taskIds[i], NewState(Ids(cfg)), Policy(cfg, i);
    var s, r, more := sys.state, Step(sys.state, e), if LetsGoOn(sys.state, e, i) then Fresh(pol) else 0;
    CountConcat(sys.log, [e], task);
    GivenGrows(s0, sys.log, e, i, Fresh(pol));
    BillMoves(
      Started(sys.log, task), Left(s.states[i], s.progress[i], pol), bound, Given(s0, sys.log, i, Fresh(pol)),
      Crashed(sys.log, task), Started([e], task), Left(r.states[i], r.progress[i], pol), more, Crashed([e], task));
  }

  predicate Bill(started: int, left: int, bound: int, given: int, crashed: int) {
    started + left <= bound + given + crashed
  }

  lemma BillMoves(
    started: int, left: int, bound: int, given: int, crashed: int, starts: int, left': int, gives: int, crashes: int)
    requires Bill(started, left, bound, given, crashed) && left' + starts <= left + crashes + gives
    ensures Bill(started + starts, left', bound, given + gives, crashed + crashes)
  {
  }

  /// Starts so far and what is left never exceed the bound, crashes and answers added.
  ghost predicate Within(cfg: Config, sys: Sys, i: nat, bound: int)
    requires sys.state.Aligned() && |sys.state.taskIds| == |cfg.header.chains| && i < |sys.state.taskIds|
  {
    var pol, task := Policy(cfg, i), sys.state.taskIds[i];
    Bill(Started(sys.log, task), Left(sys.state.states[i], sys.state.progress[i], pol), bound,
         Given(NewState(Ids(cfg)), sys.log, i, Fresh(pol)), Crashed(sys.log, task))
  }

  lemma {:induction false} AlwaysWithin(cfg: Config, moves: seq<Move>, i: nat)
    requires ValidRun(cfg, moves) && i < |cfg.header.chains|
    ensures Within(cfg, After(cfg, moves), i, Policy(cfg, i).rungs * Policy(cfg, i).attemptsPer + Policy(cfg, i).maxDefers)
  {
    var pol := Policy(cfg, i);
    if moves == [] {
      FreshBudget(After(cfg, []).state.progress[i], pol);
      OneEvent(RunStarted(cfg.header), Ids(cfg)[i]);
    } else {
      var n := |moves| - 1;
      PrefixRun(cfg, moves, n);
      AlwaysWithin(cfg, moves[..n], i);
      RunKeeps(cfg, moves[..n]);
      LiveEqualsReplay(cfg, moves[..n]);
      assert Legal(cfg, After(cfg, moves[..n]), moves[n]);
      if moves[n].Emit? {
        EventCosts(cfg, After(cfg, moves[..n]), moves[n].e, i);
        StepCosts(cfg, After(cfg, moves[..n]), moves[n].e, i, pol.rungs * pol.attemptsPer + pol.maxDefers);
      }
    }
  }

  /// The whole bill of a task. However often it is parked and answered, deferred, crashed and resumed, over a whole run
  /// it starts at most its ladder's attempts and deferrals, plus one rung's attempts and deferrals for each answer that
  /// let it go on, plus one for each attempt a crash cut off.
  lemma WholeRunIsBounded(cfg: Config, moves: seq<Move>, i: nat)
    requires ValidRun(cfg, moves) && i < |cfg.header.chains|
    ensures
      var pol, log, task := Policy(cfg, i), After(cfg, moves).log, Ids(cfg)[i];
      Started(log, task) <=
        pol.rungs * pol.attemptsPer + pol.maxDefers
        + Released(NewState(Ids(cfg)), log, i) * Fresh(pol) + Crashed(log, task)
  {
    AlwaysWithin(cfg, moves, i);
    RunKeeps(cfg, moves);
    NeverOverdrawn(cfg, After(cfg, moves), i);
    GivenIsReleases(NewState(Ids(cfg)), After(cfg, moves).log, i, Fresh(Policy(cfg, i)));
  }

  lemma NeverOverdrawn(cfg: Config, sys: Sys, i: nat)
    requires Inv(cfg, sys) && i < |sys.state.taskIds|
    ensures Left(sys.state.states[i], sys.state.progress[i], Policy(cfg, i)) >= 0
  {
    assert WithinPolicy(sys, Policy(cfg, i), i);
    RungsAbove(sys.state.progress[i], Policy(cfg, i));
  }

  // ------------------------------------------------- and the bill is run up

  lemma LongerIsNew(qs: seq<QuestionRecord>, id: QuestionId)
    requires forall k :: 0 <= k < |qs| ==> |qs[k].question.id| < |id|
    ensures Position(qs, id).None?
  {
  }

  /// There is always another name for a question.
  lemma {:induction false} NewName(qs: seq<QuestionRecord>) returns (id: QuestionId)
    ensures forall k :: 0 <= k < |qs| ==> |qs[k].question.id| < |id|
  {
    if qs == [] {
      id := "q";
    } else {
      var last := |qs| - 1;
      id := NewName(qs[..last]);
      if |qs[last].question.id| >= |id| {
        id := seq(|qs[last].question.id| + 1, _ => 'q');
      }
    }
  }

  function Reply(id: QuestionId): Event {
    QuestionAnswered(id, Answered("go on"), None)
  }

  /// An answer to the question at the end of the ladder gives the last rung and every deferral back.
  lemma ReplyReleases(cfg: Config, sys: Sys, i: nat, id: QuestionId, next: QuestionId)
    requires WellFormed(cfg) && Inv(cfg, sys) && i < |sys.state.taskIds| && Waits(cfg, sys, i, id)
    requires FreshQuestion(sys.state, next)
    ensures
      var r := Do(sys, Emit(Reply(id)));
      && Legal(cfg, sys, Emit(Reply(id))) && ReadyFor(r, i, next) && LetsGoOn(sys.state, Reply(id), i)
      && r.state.progress[i].attempts == sys.state.progress[i].attempts
      && Budget(r.state.progress[i], Policy(cfg, i)) == Fresh(Policy(cfg, i))
  {
    var s, e := sys.state, Reply(id);
    assert Answers(s, e);
    AnswerIsLocal(s, e, i);
    AnswerQuestions(s, e);
    AnswerKeepsPosition(s.questions, Position(s.questions, id).value, e.answer, next);
    OneRung(Step(s, e).progress[i], Policy(cfg, i));
  }

  lemma OneRung(p: Progress, pol: LadderPolicy)
    requires p.rung + 1 == pol.rungs && p.attemptsOnRung == 0 && p.defers == 0
    ensures Budget(p, pol) == Fresh(pol)
  {
    assert pol.rungs - p.rung == 1;
  }

  /// Nothing in these events is a crash or an answer.
  predicate Uneventful(log: seq<Event>) {
    forall k :: 0 <= k < |log| ==> !log[k].AttemptInterrupted? && !log[k].QuestionAnswered?
  }

  lemma {:induction false} PlainIsUneventful(moves: seq<Move>)
    requires forall k :: 0 <= k < |moves| ==> Plain(moves[k])
    ensures Uneventful(Emitted(moves))
  {
    if moves != [] {
      PlainIsUneventful(moves[..|moves| - 1]);
    }
  }

  lemma {:induction false} UneventfulCounts(s: State, log: seq<Event>, more: seq<Event>, i: nat, task: TaskId)
    requires s.Aligned() && i < |s.taskIds| && Uneventful(more)
    ensures Crashed(more, task) == 0 && Released(s, log + more, i) == Released(s, log, i)
  {
    if more == [] {
      assert log + more == log;
    } else {
      var n, e := |more| - 1, more[|more| - 1];
      UneventfulCounts(s, log, more[..n], i, task);
      assert log + more == log + more[..n] + [e];
      NothingReleased(s, log + more[..n], e, i);
    }
  }

  lemma NothingReleased(s: State, log: seq<Event>, e: Event, i: nat)
    requires s.Aligned() && i < |s.taskIds| && !e.QuestionAnswered?
    ensures Released(s, log + [e], i) == Released(s, log, i)
  {
    ReleasedGrows(s, log, e, i);
  }

  lemma ReleasedGrows(s: State, log: seq<Event>, e: Event, i: nat)
    requires s.Aligned() && i < |s.taskIds|
    ensures Released(s, log + [e], i) == Released(s, log, i) + if LetsGoOn(Fold(s, log), e, i) then 1 else 0
  {
    assert (log + [e])[..|log|] == log;
  }

  /// So many units, one after another.
  function Units(n: nat, unit: nat): nat {
    if n == 0 then 0 else Units(n - 1, unit) + unit
  }

  lemma {:induction false} UnitsMultiply(n: nat, unit: nat)
    ensures Units(n, unit) == n * unit
  {
    if n > 0 {
      UnitsMultiply(n - 1, unit);
      assert n * unit == (n - 1) * unit + unit;
    }
  }

  /// A run's log is what it was before a stretch and what the stretch appended.
  lemma {:induction false} LogIsEmitted(cfg: Config, before: seq<Move>, stretch: seq<Move>)
    ensures After(cfg, before + stretch).log == After(cfg, before).log + Emitted(stretch)
    decreases |stretch|
  {
    if stretch == [] {
      assert before + stretch == before;
    } else {
      LogIsEmitted(cfg, before, stretch[..|stretch| - 1]);
      assert (before + stretch)[..|before + stretch| - 1] == before + stretch[..|stretch| - 1];
    }
  }

  /// What the log of a run says of one task: so many starts, so many answers that let it go on, and no crash.
  ghost predicate Counts(cfg: Config, moves: seq<Move>, i: nat, starts: nat, answers: nat)
    requires i < |cfg.header.chains|
  {
    var log, task := After(cfg, moves).log, Ids(cfg)[i];
    Started(log, task) == starts && Crashed(log, task) == 0 && Released(NewState(Ids(cfg)), log, i) == answers
  }

  lemma CountsAfterCalm(cfg: Config, moves: seq<Move>, n: nat, i: nat, before: nat, answers: nat, starts: nat)
    requires i < |cfg.header.chains| && Calm(cfg, moves, n, i, starts) && Counts(cfg, moves[..n], i, before, answers)
    ensures Counts(cfg, moves, i, before + starts, answers)
  {
    var s0, log, more, task := NewState(Ids(cfg)), After(cfg, moves[..n]).log, Emitted(moves[n..]), Ids(cfg)[i];
    assert moves[..n] + moves[n..] == moves;
    LogIsEmitted(cfg, moves[..n], moves[n..]);
    PlainIsUneventful(moves[n..]);
    CountConcat(log, more, task);
    UneventfulCounts(s0, log, more, i, task);
  }

  lemma CountsAfterReply(cfg: Config, moves: seq<Move>, next: seq<Move>, i: nat, id: QuestionId, starts: nat, answers: nat)
    requires i < |cfg.header.chains| && ValidRun(cfg, moves) && Counts(cfg, moves, i, starts, answers)
    requires After(cfg, next) == Do(After(cfg, moves), Emit(Reply(id))) && LetsGoOn(After(cfg, moves).state, Reply(id), i)
    ensures Counts(cfg, next, i, starts, answers + 1)
  {
    LiveEqualsReplay(cfg, moves);
    ReleasedGrows(NewState(Ids(cfg)), After(cfg, moves).log, Reply(id), i);
    OneEvent(Reply(id), Ids(cfg)[i]);
    CountConcat(After(cfg, moves).log, [Reply(id)], Ids(cfg)[i]);
  }

  lemma AnswerOnce(cfg: Config, moves: seq<Move>, i: nat, id: QuestionId, starts: nat, answers: nat)
    returns (mid: seq<Move>, next: QuestionId)
    requires i < |cfg.header.chains| && ValidRun(cfg, moves) && Counts(cfg, moves, i, starts, answers)
    requires WaitsAfter(cfg, moves, i, id, starts)
    ensures Going(cfg, mid, |mid|, i, 0, next, Fresh(Policy(cfg, i)), starts) && ReadyFor(After(cfg, mid), i, next)
    ensures Counts(cfg, mid, i, starts, answers + 1)
  {
    RunKeeps(cfg, moves);
    next := NewName(After(cfg, moves).state.questions);
    LongerIsNew(After(cfg, moves).state.questions, next);
    ReplyReleases(cfg, After(cfg, moves), i, id, next);
    ExtendRun(cfg, moves, Emit(Reply(id)));
    mid := moves + [Emit(Reply(id))];
    CountsAfterReply(cfg, moves, mid, i, id, starts, answers);
    assert mid[|mid|..] == [];
  }

  /// One more answer, and all that it is worth spent.
  lemma AnswerAndSpend(cfg: Config, moves: seq<Move>, i: nat, id: QuestionId, starts: nat, answers: nat)
    returns (all: seq<Move>, next: QuestionId)
    requires i < |cfg.header.chains| && ValidRun(cfg, moves) && Counts(cfg, moves, i, starts, answers)
    requires WaitsAfter(cfg, moves, i, id, starts) && starts + Fresh(Policy(cfg, i)) <= U32_MAX
    ensures ValidRun(cfg, all) && Counts(cfg, all, i, starts + Fresh(Policy(cfg, i)), answers + 1)
    ensures WaitsAfter(cfg, all, i, next, starts + Fresh(Policy(cfg, i)))
  {
    var budget := Fresh(Policy(cfg, i));
    var mid;
    mid, next := AnswerOnce(cfg, moves, i, id, starts, answers);
    all := ExhaustFrom(cfg, mid, |mid|, i, 0, next, budget, starts);
    assert all[..|mid|] == mid;
    CountsAfterCalm(cfg, all, |mid|, i, starts, answers + 1, budget);
  }

  /// The ladder run up once, with nothing answered.
  lemma FirstBill(cfg: Config, i: nat, first: nat) returns (moves: seq<Move>)
    requires WellFormed(cfg) && i < |cfg.header.chains| && first <= U32_MAX && first == Budget(FRESH, Policy(cfg, i))
    ensures ValidRun(cfg, moves) && Counts(cfg, moves, i, first, 0) && WaitsAfter(cfg, moves, i, "q", first)
  {
    moves := FirstSpent(cfg, i, first);
    NothingYet(cfg, i);
    assert moves[..0] == [];
    CountsAfterCalm(cfg, moves, 0, i, 0, 0, first);
  }

  lemma NothingYet(cfg: Config, i: nat)
    requires i < |cfg.header.chains|
    ensures Counts(cfg, [], i, 0, 0)
  {
    OneEvent(RunStarted(cfg.header), Ids(cfg)[i]);
  }

  lemma {:induction false} RunUp(cfg: Config, i: nat, first: nat, answers: nat) returns (moves: seq<Move>, id: QuestionId)
    requires WellFormed(cfg) && i < |cfg.header.chains| && first == Budget(FRESH, Policy(cfg, i))
    requires first + Units(answers, Fresh(Policy(cfg, i))) <= U32_MAX
    ensures
      var starts := first + Units(answers, Fresh(Policy(cfg, i)));
      ValidRun(cfg, moves) && Counts(cfg, moves, i, starts, answers) && WaitsAfter(cfg, moves, i, id, starts)
    decreases answers
  {
    if answers == 0 {
      moves := FirstBill(cfg, i, first);
      id := "q";
    } else {
      moves, id := RunUp(cfg, i, first, answers - 1);
      moves, id := AnswerAndSpend(cfg, moves, i, id, first + Units(answers - 1, Fresh(Policy(cfg, i))), answers - 1);
    }
  }

  /// The whole bill can be run up. For every plan, every task in it and every number of answers there is a run without
  /// a crash in which exactly that many answers let the task go on and it starts as often as `WholeRunIsBounded` allows,
  /// and it ends waiting for the next answer (as long as attempt numbers stay within u32).
  lemma WholeBoundIsReached(cfg: Config, i: nat, answers: nat) returns (moves: seq<Move>, id: QuestionId)
    requires WellFormed(cfg) && i < |cfg.header.chains|
    requires
      var pol := Policy(cfg, i);
      pol.rungs * pol.attemptsPer + pol.maxDefers + answers * Fresh(pol) <= U32_MAX
    ensures
      var pol := Policy(cfg, i);
      var starts := pol.rungs * pol.attemptsPer + pol.maxDefers + answers * Fresh(pol);
      ValidRun(cfg, moves) && Counts(cfg, moves, i, starts, answers) && WaitsAfter(cfg, moves, i, id, starts)
  {
    var pol := Policy(cfg, i);
    var first: nat := pol.rungs * pol.attemptsPer + pol.maxDefers;
    UnitsMultiply(answers, Fresh(pol));
    FreshBudget(FRESH, pol);
    moves, id := RunUp(cfg, i, first, answers);
  }
}
