// The engine as the log sees it: which event a live, dying or resuming process may append next
// (src/engine.rs:2142-2650 and 3003-3110, and its resume, 1732-1810).
module Writer {
  import opened Prelude
  import opened Ladder
  import opened Events
  import opened Decisions
  import RunState
  import Schema

  datatype Config = Config(header: RunHeader, maxDefers: u32)

  /// Pre-flight's promises: a schema-3 identity, distinct tasks, and a non-empty chain with at least one
  /// attempt per rung for each.
  ghost predicate WellFormed(cfg: Config) {
    && cfg.header.schema == 3
    && Schema.IdentityOk(cfg.header.normalizedPlanDigest, cfg.header.reviews, |cfg.header.chains|)
    && RunState.Distinct(Ids(cfg))
    && forall i :: 0 <= i < |cfg.header.chains| ==>
         cfg.header.chains[i].attemptsPer >= 1 && 1 <= |cfg.header.chains[i].tiers| <= U32_MAX
  }

  function Ids(cfg: Config): (r: seq<TaskId>)
    ensures |r| == |cfg.header.chains|
    ensures forall i :: 0 <= i < |r| ==> r[i] == cfg.header.chains[i].task
  {
    seq(|cfg.header.chains|, i requires 0 <= i < |cfg.header.chains| => cfg.header.chains[i].task)
  }

  function Policy(cfg: Config, i: nat): LadderPolicy
    requires i < |cfg.header.chains|
  {
    LadderPolicy(cfg.header.chains[i].attemptsPer, |cfg.header.chains[i].tiers|, cfg.maxDefers)
  }

  /// Where the engine process is: none, repairing a log it resumed, between tasks, or inside one.
  datatype Mode = Down | Repairing | Scheduling | Driving(i: nat) | Running(i: nat) | Publishing(i: nat)

  datatype Sys = Sys(log: seq<Event>, state: State, mode: Mode)

  datatype Move = Emit(e: Event) | Die | Boot

  function Start(cfg: Config): Sys {
    Sys([RunStarted(cfg.header)], NewState(Ids(cfg)), Scheduling)
  }

  // -------------------------------------------------------- what may be written

  predicate Starts(cfg: Config, s: State, i: nat, e: Event)
    requires s.Aligned() && |s.taskIds| == |cfg.header.chains|
  {
    && i < |s.taskIds| && e.AttemptStarted? && e.task == s.taskIds[i]
    && s.states[i].Pending? && s.haltedAt.None? && s.budgetStop.None?
    && e.attempt == s.progress[i].attempts + 1
    && e.rung == s.progress[i].rung
    && e.rung < |cfg.header.chains[i].tiers| && e.start.tier == cfg.header.chains[i].tiers[e.rung]
    && e.start.resumeSession == (if s.progress[i].resumeNext then s.progress[i].session else None)
  }

  predicate Identifies(record: AttemptRecord, f: InFlight) {
    record.attempt == f.attempt && record.tier == f.tier && record.model == f.model && record.pool == f.pool
  }

  predicate FreshQuestion(s: State, id: QuestionId) {
    Position(s.questions, id).None?
  }

  /// A failure, and the ladder's decision on it in the same append.
  predicate Decides(cfg: Config, s: State, i: nat, e: Event)
    requires s.Aligned() && |s.taskIds| == |cfg.header.chains| && i < |s.taskIds|
    requires e.AttemptFinished? && e.record.failure.Some?
  {
    var p, f := s.progress[i], e.record.failure.value;
    var resumes := e.transition.Some? && e.transition.value.ToRetry? && e.transition.value.retry.resume;
    var ladder := LadderState(p.rung, p.attemptsOnRung, p.defers, resumes);
    && FromAttempt(f.kind) && (IsReviewInput(f.kind) ==> f.origin.Reviewer?)
    && (resumes ==> HasSession(e.record))
    && Writes(e.task, f, e.record.tier, ladder, NextStep(f.kind, f.origin, ladder, Policy(cfg, i)), e.transition, e.parking)
    && (e.parking.Some? ==> FreshQuestion(s, e.parking.value.question.id))
    && e.prepared.None?
  }

  predicate Settles(cfg: Config, s: State, i: nat, e: Event)
    requires s.Aligned() && |s.taskIds| == |cfg.header.chains|
  {
    && i < |s.taskIds| && e.AttemptFinished? && e.task == s.taskIds[i]
    && s.progress[i].inFlight.Some?
    && var f := s.progress[i].inFlight.value;
    && e.attempt == f.attempt && e.rung == f.rung && e.profile == f.profile && Identifies(e.record, f)
    && e.record.resumed == s.progress[i].session.Some?
    && if e.record.failure.Some? then Decides(cfg, s, i, e)
       else e.parking.None? && e.transition.None? && e.prepared.Some?
            && Schema.BindsPrepared(cfg.header, e.task, e.attempt, e.prepared.value)
  }

  /// The success the log ends in, if it does: its commit is owed before anything else.
  function Owed(log: seq<Event>): Option<(TaskId, PreparedCommit)> {
    if log != [] && log[|log| - 1].AttemptFinished? && log[|log| - 1].prepared.Some?
    then Some((log[|log| - 1].task, log[|log| - 1].prepared.value)) else None
  }

  predicate Commits(log: seq<Event>, e: Event) {
    Owed(log).Some? && Schema.CommitsExactly(e, Owed(log).value.0, Owed(log).value.1)
  }

  predicate Idle(s: State) {
    forall i :: 0 <= i < |s.progress| ==> s.progress[i].inFlight.None?
  }

  /// A task declined at the human rung is failed by whoever finds it still waiting.
  predicate FailsDeclined(s: State, e: Event)
    requires s.Aligned()
  {
    && e.TaskFailed? && e.failure.kind.Declined?
    && var index := IndexOf(s.taskIds, e.task);
    && index.Some? && s.states[index.value].AwaitingInput?
    && var k := Position(s.questions, s.states[index.value].question);
    && k.Some? && s.questions[k.value].answer == Some(Answer.Declined)
  }

  predicate Answers(s: State, e: Event) {
    && e.QuestionAnswered? && !e.answer.Unanswered? && (e.answer.Declined? <==> e.declineHaltsRun.Some?)
    && Position(s.questions, e.question).Some?
    && s.questions[Position(s.questions, e.question).value].answer.None?
  }

  predicate Interrupts(s: State, e: Event)
    requires s.Aligned()
  {
    && e.AttemptInterrupted?
    && var index := IndexOf(s.taskIds, e.task);
    && index.Some? && s.progress[index.value].inFlight.Some?
    && e == RunState.InterruptEvent(e.task, s.progress[index.value].inFlight.value)
  }

  predicate StopsOnBudget(s: State, i: nat, e: Event)
    requires s.Aligned()
  {
    i < |s.taskIds| && s.states[i].Pending? && s.haltedAt.None? && s.budgetStop.None?
    && e.BudgetExceeded? && e.stop.task == s.taskIds[i]
  }

  predicate MayEmit(cfg: Config, sys: Sys, e: Event)
    requires sys.state.Aligned() && |sys.state.taskIds| == |cfg.header.chains|
  {
    var s := sys.state;
    match sys.mode
    case Down => false
    case Repairing =>
      if Owed(sys.log).Some? then Commits(sys.log, e)
      else e.DesignDefect? || FailsDeclined(s, e) || Interrupts(s, e) || (e.RunResumed? && Idle(s))
    case Scheduling =>
      || (exists i :: 0 <= i < |s.taskIds| && (Starts(cfg, s, i, e) || StopsOnBudget(s, i, e)))
      || Answers(s, e) || FailsDeclined(s, e)
      || (e.DeferWaitElapsed? && s.haltedAt.None? && s.budgetStop.None?)
      || e.DesignDefect? || e.CapacitySnapshot? || e.PoolExhausted? || e.RunFinished?
    case Driving(i) => Starts(cfg, s, i, e) || StopsOnBudget(s, i, e)
    case Running(i) => Settles(cfg, s, i, e)
    case Publishing(_) => Commits(sys.log, e)
  }

  function ModeAfter(sys: Sys, e: Event): Mode {
    match e
    case AttemptStarted(task, _, _, _, _) =>
      (match IndexOf(sys.state.taskIds, task) case Some(i) => Running(i) case None => sys.mode)
    case AttemptFinished(task, _, _, _, _, parking, transition, prepared) =>
      (match IndexOf(sys.state.taskIds, task)
       case None => sys.mode
       case Some(i) =>
         if prepared.Some? then Publishing(i)
         else if parking.None? && transition.Some? && (transition.value.ToRetry? || transition.value.ToEscalate?) then Driving(i)
         else Scheduling)
    case TaskCommitted(_, _, _) => if sys.mode.Repairing? then Repairing else Scheduling
    case BudgetExceeded(_) => Scheduling
    case RunResumed(_) => Scheduling
    case RunFinished(_) => Down
    case _ => sys.mode
  }

  predicate Legal(cfg: Config, sys: Sys, m: Move)
    requires sys.state.Aligned() && |sys.state.taskIds| == |cfg.header.chains|
  {
    match m
    case Emit(e) => MayEmit(cfg, sys, e)
    case Die => true
    case Boot => sys.mode.Down?
  }

  function Do(sys: Sys, m: Move): (r: Sys)
    requires sys.state.Aligned()
    ensures r.state.Aligned() && r.state.taskIds == sys.state.taskIds
  {
    match m
    case Emit(e) => Sys(sys.log + [e], Step(sys.state, e), ModeAfter(sys, e))
    case Die => sys.(mode := Down)
    case Boot => sys.(mode := Repairing)
  }

  function After(cfg: Config, moves: seq<Move>): (r: Sys)
    ensures r.state.Aligned() && r.state.taskIds == Ids(cfg)
  {
    if moves == [] then Start(cfg) else Do(After(cfg, moves[..|moves| - 1]), moves[|moves| - 1])
  }

  /// Every run: a well-formed start, then legal moves; the process may die between any two appends.
  ghost predicate ValidRun(cfg: Config, moves: seq<Move>) {
    && WellFormed(cfg)
    && forall k {:trigger Legal(cfg, After(cfg, moves[..k]), moves[k])} ::
         0 <= k < |moves| ==> Legal(cfg, After(cfg, moves[..k]), moves[k])
  }
}
