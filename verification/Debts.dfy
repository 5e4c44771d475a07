// What an older log owes, read off it directly (src/events.rs:2161-2274): the decisions and the binding parks that are
// missing, and that the detector reports the oldest of them.
module Debts {
  import opened Prelude
  import opened Ladder
  import opened Events
  import opened Legacy

  // ------------------------------------------------------- what is missing

  /// The schema in force at the end of a log.
  function SchemaAfter(schema: nat, log: seq<Event>): nat {
    if log == [] then schema
    else if log[|log| - 1].RunSchemaUpgraded? then log[|log| - 1].to
    else SchemaAfter(schema, log[..|log| - 1])
  }

  /// A failed attempt settled without its decision, in a log that puts the two in separate appends.
  predicate Undecided(schema: nat, log: seq<Event>, k: int) {
    && 0 <= k < |log| && log[k].AttemptFinished? && log[k].record.failure != None
    && log[k].parking == None && log[k].transition == None && SchemaAfter(schema, log[..k]) < 3
  }

  /// A later append that decides it: a retry or a climb of this very attempt, or anything that takes the task off the
  /// ladder.
  predicate DecidesLater(e: Event, task: TaskId, attempt: u32, rung: u32) {
    || (e.LadderRetry? && (e.task, e.attempt, e.rung) == (task, attempt, rung))
    || (e.LadderEscalated? && (e.task, e.attempt, e.rung) == (task, attempt, rung))
    || ((e.TaskDeferred? || e.TaskFailed? || e.TaskParked?) && e.task == task)
  }

  ghost predicate OwesDecision(schema: nat, log: seq<Event>, k: int) {
    && Undecided(schema, log, k)
    && forall j :: k < j < |log| ==> !DecidesLater(log[j], log[k].task, log[k].attempt, log[k].rung)
  }

  /// The task's last climb, not yet followed by another attempt, another climb, or a way off the ladder.
  predicate OpenClimb(log: seq<Event>, e: int, n: int) {
    && 0 <= e < n <= |log| && log[e].LadderEscalated?
    && forall j :: e < j < n ==> !EndsClimb(log[j], log[e].task)
  }

  predicate EndsClimb(e: Event, task: TaskId) {
    (e.AttemptStarted? || e.LadderEscalated? || e.TaskDeferred? || e.TaskFailed? || e.TaskParked?) && e.task == task
  }

  /// Approval asked for such a climb.
  predicate AsksApproval(log: seq<Event>, r: int) {
    && 0 <= r < |log| && log[r].QuestionRaised? && log[r].raised.kind == ApproveSpend
    && exists e :: 0 <= e < r && OpenClimb(log, e, r) && log[e].task == log[r].task
  }

  /// And never made binding by parking the task, nor asked again.
  predicate OwesPark(log: seq<Event>, r: int) {
    && AsksApproval(log, r)
    && forall j :: r < j < |log| ==> !(log[j].TaskParked? && log[j].task == log[r].task)
                                     && !(AsksApproval(log, j) && log[j].task == log[r].task)
  }

  function Names(e: Event, kind: UnsettledKind): Unsettled {
    match e
    case AttemptFinished(task, attempt, rung, _, _, _, _, _) => Unsettled(task, attempt, rung, kind)
    case LadderEscalated(task, attempt, rung, _) => Unsettled(task, attempt, rung, kind)
    case _ => Unsettled("", 0, 0, kind)
  }

  // -------------------------------------------------- lists with positions

  function Filtered(xs: seq<Unsettled>, keep: Unsettled -> bool): seq<Unsettled> {
    if xs == [] then []
    else Filtered(xs[..|xs| - 1], keep) + if keep(xs[|xs| - 1]) then [xs[|xs| - 1]] else []
  }

  lemma {:induction false} FilteredFirst(xs: seq<Unsettled>, keep: Unsettled -> bool)
    requires xs != []
    ensures Filtered(xs, keep) == (if keep(xs[0]) then [xs[0]] else []) + Filtered(xs[1..], keep)
  {
    if |xs| > 1 {
      var front := xs[..|xs| - 1];
      FilteredFirst(front, keep);
      assert front[1..] == xs[1..][..|xs| - 2];
    } else {
      assert xs[..0] == [] && xs[1..] == [];
    }
  }

  function OtherTask(task: TaskId): Unsettled -> bool {
    (u: Unsettled) => u.task != task
  }

  function OtherAttempt(task: TaskId, attempt: u32, rung: u32): Unsettled -> bool {
    (u: Unsettled) => !(u.task == task && u.attempt == attempt && u.rung == rung)
  }

  function Everything(): Unsettled -> bool {
    (u: Unsettled) => true
  }

  lemma {:induction false} WithoutTaskFilters(xs: seq<Unsettled>, task: TaskId)
    ensures WithoutTask(xs, task) == Filtered(xs, OtherTask(task))
  {
    if xs != [] {
      WithoutTaskFilters(xs[1..], task);
      FilteredFirst(xs, OtherTask(task));
    }
  }

  lemma {:induction false} WithoutAttemptFilters(xs: seq<Unsettled>, task: TaskId, attempt: u32, rung: u32)
    ensures WithoutAttempt(xs, task, attempt, rung) == Filtered(xs, OtherAttempt(task, attempt, rung))
  {
    if xs != [] {
      WithoutAttemptFilters(xs[1..], task, attempt, rung);
      FilteredFirst(xs, OtherAttempt(task, attempt, rung));
    }
  }

  lemma {:induction false} EverythingStays(xs: seq<Unsettled>)
    ensures Filtered(xs, Everything()) == xs
  {
    if xs != [] {
      EverythingStays(xs[..|xs| - 1]);
    }
  }

  /// A list names, in the order of the log, exactly the positions before n that have a debt.
  ghost predicate Lists(xs: seq<Unsettled>, at: seq<nat>, n: nat, of: nat -> Unsettled, has: nat -> bool) {
    && |xs| == |at|
    && (forall j :: 0 <= j < |at| ==> at[j] < n && xs[j] == of(at[j]))
    && (forall i, j :: 0 <= i < j < |at| ==> at[i] < at[j])
    && (forall k: nat :: k in at <==> k < n && has(k))
  }

  lemma {:induction false} FilterLists(xs: seq<Unsettled>, at: seq<nat>, n: nat, of: nat -> Unsettled, keep: Unsettled -> bool)
    returns (kept: seq<nat>)
    requires |xs| == |at| && forall j :: 0 <= j < |at| ==> at[j] < n && xs[j] == of(at[j])
    requires forall i, j :: 0 <= i < j < |at| ==> at[i] < at[j]
    ensures |kept| == |Filtered(xs, keep)|
    ensures forall j :: 0 <= j < |kept| ==> kept[j] < n && Filtered(xs, keep)[j] == of(kept[j])
    ensures forall i, j :: 0 <= i < j < |kept| ==> kept[i] < kept[j]
    ensures forall k: nat :: k in kept <==> k in at && keep(of(k))
  {
    if xs == [] {
      kept := [];
    } else {
      var m := |xs| - 1;
      kept := FilterLists(xs[..m], at[..m], n, of, keep);
      assert at == at[..m] + [at[m]];
      if keep(xs[m]) {
        kept := kept + [at[m]];
      }
    }
  }

  /// One event on: some debts are paid, and at most one is made.
  ghost predicate StepsTo(
    n: nat, of: nat -> Unsettled, has: nat -> bool, keep: Unsettled -> bool, made: bool, x: Unsettled,
    of': nat -> Unsettled, has': nat -> bool)
  {
    && (forall k: nat :: k < n && has(k) ==> of'(k) == of(k))
    && (forall k: nat :: k < n ==> (has'(k) <==> has(k) && keep(of(k))))
    && (has'(n) <==> made) && (made ==> of'(n) == x)
  }

  lemma ListsStep(
    xs: seq<Unsettled>, at: seq<nat>, n: nat, of: nat -> Unsettled, has: nat -> bool,
    keep: Unsettled -> bool, made: bool, x: Unsettled, of': nat -> Unsettled, has': nat -> bool) returns (at': seq<nat>)
    requires Lists(xs, at, n, of, has) && StepsTo(n, of, has, keep, made, x, of', has')
    ensures Lists(Filtered(xs, keep) + (if made then [x] else []), at', n + 1, of', has')
  {
    var kept := ListsKept(xs, at, n, of, has, keep, of', has');
    at' := if made then kept + [n] else kept;
    ListsPush(Filtered(xs, keep), kept, n, made, x, of', has');
  }

  ghost predicate Listed(xs: seq<Unsettled>, n: nat, of: nat -> Unsettled, has: nat -> bool) {
    exists at :: Lists(xs, at, n, of, has)
  }

  lemma ListedStep(
    xs: seq<Unsettled>, n: nat, of: nat -> Unsettled, has: nat -> bool,
    keep: Unsettled -> bool, made: bool, x: Unsettled, of': nat -> Unsettled, has': nat -> bool, ys: seq<Unsettled>)
    requires Listed(xs, n, of, has) && StepsTo(n, of, has, keep, made, x, of', has')
    requires ys == Filtered(xs, keep) + if made then [x] else []
    ensures Listed(ys, n + 1, of', has')
  {
    var at :| Lists(xs, at, n, of, has);
    var at' := ListsStep(xs, at, n, of, has, keep, made, x, of', has');
  }

  lemma ListsKept(
    xs: seq<Unsettled>, at: seq<nat>, n: nat, of: nat -> Unsettled, has: nat -> bool,
    keep: Unsettled -> bool, of': nat -> Unsettled, has': nat -> bool) returns (kept: seq<nat>)
    requires Lists(xs, at, n, of, has)
    requires forall k: nat :: k < n && has(k) ==> of'(k) == of(k)
    requires forall k: nat :: k < n ==> (has'(k) <==> has(k) && keep(of(k)))
    ensures Lists(Filtered(xs, keep), kept, n, of', has')
  {
    kept := FilterLists(xs, at, n, of, keep);
    forall j | 0 <= j < |kept| ensures Filtered(xs, keep)[j] == of'(kept[j]) {
      assert kept[j] in kept;
    }
  }

  lemma ListsPush(
    ys: seq<Unsettled>, kept: seq<nat>, n: nat, made: bool, x: Unsettled, of': nat -> Unsettled, has': nat -> bool)
    requires Lists(ys, kept, n, of', has') && (has'(n) <==> made) && (made ==> of'(n) == x)
    ensures Lists(ys + (if made then [x] else []), if made then kept + [n] else kept, n + 1, of', has')
  {
    if made {
      forall k: nat ensures k in kept + [n] <==> k < n + 1 && has'(k) {
      }
    } else {
      assert ys + [] == ys;
    }
  }

  lemma OldestIsFirst(xs: seq<Unsettled>, at: seq<nat>, n: nat, of: nat -> Unsettled, has: nat -> bool)
    requires Lists(xs, at, n, of, has)
    ensures xs == [] <==> forall k: nat :: k < n ==> !has(k)
    ensures xs != [] ==> exists k: nat :: k < n && has(k) && xs[0] == of(k) && forall j: nat :: j < k ==> !has(j)
  {
    if xs != [] {
      assert at[0] in at;
      forall j: nat | j < at[0] ensures !has(j) {
        assert has(j) ==> j in at;
      }
    } else {
      forall k: nat | k < n ensures !has(k) {
        assert k !in at;
      }
    }
  }

  // ------------------------------------------------------- the three lists

  ghost function OfFinish(log: seq<Event>): nat -> Unsettled {
    (k: nat) => if k < |log| then Names(log[k], MissingDecision) else Unsettled("", 0, 0, MissingDecision)
  }

  ghost function HasDecision(schema: nat, log: seq<Event>): nat -> bool {
    (k: nat) => OwesDecision(schema, log, k)
  }

  ghost function OfClimb(log: seq<Event>): nat -> Unsettled {
    (k: nat) => if k < |log| then Names(log[k], MissingSpendParking) else Unsettled("", 0, 0, MissingSpendParking)
  }

  ghost function HasClimb(log: seq<Event>): nat -> bool {
    (k: nat) => OpenClimb(log, k, |log|)
  }

  /// The climb an approval was asked for.
  ghost function ClimbOf(log: seq<Event>, r: nat): (e: nat)
    requires AsksApproval(log, r)
    ensures e < r && OpenClimb(log, e, r) && log[e].task == log[r].task
  {
    var e :| 0 <= e < r && OpenClimb(log, e, r) && log[e].task == log[r].task;
    e
  }

  lemma OneClimb(log: seq<Event>, d: int, e: int, n: int)
    requires OpenClimb(log, d, n) && OpenClimb(log, e, n) && log[d].task == log[e].task
    ensures d == e
  {
  }

  ghost function OfAsk(log: seq<Event>): nat -> Unsettled {
    (k: nat) => if AsksApproval(log, k) then Names(log[ClimbOf(log, k)], MissingSpendParking) else Unsettled("", 0, 0, MissingSpendParking)
  }

  ghost function HasPark(log: seq<Event>): nat -> bool {
    (k: nat) => OwesPark(log, k)
  }

  // ---------------------------------------------------------- one event on

  lemma SchemaNext(schema: nat, log: seq<Event>, e: Event)
    ensures SchemaAfter(schema, log + [e]) == if e.RunSchemaUpgraded? then e.to else SchemaAfter(schema, log)
  {
    assert (log + [e])[..|log|] == log;
  }

  function PaysDecisions(e: Event): Unsettled -> bool {
    match e
    case LadderRetry(task, attempt, rung, _) => OtherAttempt(task, attempt, rung)
    case LadderEscalated(task, attempt, rung, _) => OtherAttempt(task, attempt, rung)
    case TaskDeferred(task, _) => OtherTask(task)
    case TaskFailed(task, _) => OtherTask(task)
    case TaskParked(task, _, _) => OtherTask(task)
    case _ => Everything()
  }

  function EndsClimbs(e: Event): Unsettled -> bool {
    match e
    case AttemptStarted(task, _, _, _, _) => OtherTask(task)
    case LadderEscalated(task, _, _, _) => OtherTask(task)
    case TaskDeferred(task, _) => OtherTask(task)
    case TaskFailed(task, _) => OtherTask(task)
    case TaskParked(task, _, _) => OtherTask(task)
    case _ => Everything()
  }

  function PaysParks(e: Event, asks: bool): Unsettled -> bool {
    match e
    case TaskParked(task, _, _) => OtherTask(task)
    case QuestionRaised(task, _) => if asks then OtherTask(task) else Everything()
    case _ => Everything()
  }

  lemma DecisionNext(schema: nat, log: seq<Event>, e: Event, k: nat)
    ensures k < |log| ==>
      OfFinish(log + [e])(k) == OfFinish(log)(k)
      && (OwesDecision(schema, log + [e], k) <==> OwesDecision(schema, log, k) && PaysDecisions(e)(OfFinish(log)(k)))
    ensures k == |log| ==> (OwesDecision(schema, log + [e], k) <==>
      e.AttemptFinished? && e.record.failure.Some? && e.parking.None? && e.transition.None? && SchemaAfter(schema, log) < 3)
  {
    var after := log + [e];
    assert after[|log|] == e && forall j :: 0 <= j < |log| ==> after[j] == log[j];
    if k <= |log| {
      assert after[..k] == log[..k];
    }
    assert log[..|log|] == log;
  }

  lemma ClimbNext(log: seq<Event>, e: Event, k: nat)
    ensures k < |log| ==>
      OfClimb(log + [e])(k) == OfClimb(log)(k)
      && (OpenClimb(log + [e], k, |log| + 1) <==> OpenClimb(log, k, |log|) && EndsClimbs(e)(OfClimb(log)(k)))
    ensures k == |log| ==> (OpenClimb(log + [e], k, |log| + 1) <==> e.LadderEscalated?)
  {
    var after := log + [e];
    assert after[|log|] == e && forall j :: 0 <= j < |log| ==> after[j] == log[j];
  }

  lemma ClimbKept(log: seq<Event>, e: Event, d: int, n: int)
    requires n <= |log|
    ensures OpenClimb(log + [e], d, n) <==> OpenClimb(log, d, n)
  {
    var after := log + [e];
    assert after[|log|] == e && forall j :: 0 <= j < |log| ==> after[j] == log[j];
  }

  lemma AskKept(log: seq<Event>, e: Event, r: int)
    requires r < |log|
    ensures AsksApproval(log + [e], r) <==> AsksApproval(log, r)
    ensures 0 <= r && AsksApproval(log, r) ==> AsksApproval(log + [e], r) && OfAsk(log + [e])(r) == OfAsk(log)(r)
  {
    var after := log + [e];
    assert after[|log|] == e && forall j :: 0 <= j < |log| ==> after[j] == log[j];
    forall d ensures OpenClimb(after, d, r) <==> OpenClimb(log, d, r) {
      ClimbKept(log, e, d, r);
    }
    if 0 <= r && AsksApproval(log, r) {
      var d := ClimbOf(log, r);
      assert OpenClimb(after, d, r) && after[d].task == after[r].task;
      OneClimb(after, d, ClimbOf(after, r), r);
    }
  }

  /// What the open climbs of a log say of a task.
  lemma AskNow(log: seq<Event>, q: Event, climbs: seq<Unsettled>, at: seq<nat>)
    requires q.QuestionRaised? && q.raised.kind == ApproveSpend && Lists(climbs, at, |log|, OfClimb(log), HasClimb(log))
    ensures AsksApproval(log + [q], |log|) <==> LastOf(climbs, q.task).Some?
    ensures LastOf(climbs, q.task).Some? ==> OfAsk(log + [q])(|log|) == LastOf(climbs, q.task).value
  {
    var after, n := log + [q], |log|;
    assert after[n] == q && forall j :: 0 <= j < n ==> after[j] == log[j];
    forall d ensures OpenClimb(after, d, n) <==> OpenClimb(log, d, n) {
      ClimbKept(log, q, d, n);
    }
    var last := LastOf(climbs, q.task);
    if last.Some? {
      var j :| 0 <= j < |climbs| && climbs[j] == last.value;
      assert at[j] in at;
      assert OpenClimb(after, at[j], n) && after[at[j]].task == q.task;
      OneClimb(after, at[j], ClimbOf(after, n), n);
    }
    if AsksApproval(after, n) {
      var d := ClimbOf(after, n);
      assert HasClimb(log)(d) && d in at;
      var j :| 0 <= j < |at| && at[j] == d;
      assert climbs[j] in climbs && climbs[j].task == q.task;
    }
  }

  lemma ParkNext(log: seq<Event>, e: Event, k: nat)
    ensures k < |log| ==>
      (HasPark(log)(k) ==> OfAsk(log + [e])(k) == OfAsk(log)(k))
      && (OwesPark(log + [e], k) <==> OwesPark(log, k) && PaysParks(e, AsksApproval(log + [e], |log|))(OfAsk(log)(k)))
    ensures k == |log| ==> (OwesPark(log + [e], k) <==> AsksApproval(log + [e], k))
  {
    var after, n := log + [e], |log|;
    assert after[n] == e && forall j :: 0 <= j < n ==> after[j] == log[j];
    if k < n {
      AskKept(log, e, k);
      forall j | k < j < n ensures AsksApproval(after, j) <==> AsksApproval(log, j) {
        AskKept(log, e, j);
      }
      if AsksApproval(log, k) {
        assert OfAsk(log)(k).task == log[k].task;
      }
    }
  }

  // --------------------------------------------------------- the detector

  ghost predicate Undecideds(schema: nat, log: seq<Event>, xs: seq<Unsettled>) {
    Listed(xs, |log|, OfFinish(log), HasDecision(schema, log))
  }

  ghost predicate Climbs(log: seq<Event>, xs: seq<Unsettled>) {
    Listed(xs, |log|, OfClimb(log), HasClimb(log))
  }

  ghost predicate Parks(log: seq<Event>, xs: seq<Unsettled>) {
    Listed(xs, |log|, OfAsk(log), HasPark(log))
  }

  ghost predicate Tracked(schema: nat, log: seq<Event>, t: Tracker) {
    t.schema == SchemaAfter(schema, log) && Undecideds(schema, log, t.pending) && Climbs(log, t.escalations) && Parks(log, t.spendParks)
  }

  /// The same three filters in the detector's own words.
  function UndecidedLeft(xs: seq<Unsettled>, e: Event): seq<Unsettled> {
    match e
    case LadderRetry(task, attempt, rung, _) => WithoutAttempt(xs, task, attempt, rung)
    case LadderEscalated(task, attempt, rung, _) => WithoutAttempt(xs, task, attempt, rung)
    case TaskDeferred(task, _) => WithoutTask(xs, task)
    case TaskFailed(task, _) => WithoutTask(xs, task)
    case TaskParked(task, _, _) => WithoutTask(xs, task)
    case _ => xs
  }

  function ClimbsLeft(xs: seq<Unsettled>, e: Event): seq<Unsettled> {
    match e
    case AttemptStarted(task, _, _, _, _) => WithoutTask(xs, task)
    case LadderEscalated(task, _, _, _) => WithoutTask(xs, task)
    case TaskDeferred(task, _) => WithoutTask(xs, task)
    case TaskFailed(task, _) => WithoutTask(xs, task)
    case TaskParked(task, _, _) => WithoutTask(xs, task)
    case _ => xs
  }

  function ParksLeft(xs: seq<Unsettled>, e: Event, asks: bool): seq<Unsettled> {
    match e
    case TaskParked(task, _, _) => WithoutTask(xs, task)
    case QuestionRaised(task, _) => if asks then WithoutTask(xs, task) else xs
    case _ => xs
  }

  lemma UndecidedLeftFilters(xs: seq<Unsettled>, e: Event)
    ensures UndecidedLeft(xs, e) == Filtered(xs, PaysDecisions(e))
  {
    if e.LadderRetry? || e.LadderEscalated? {
      WithoutAttemptFilters(xs, e.task, e.attempt, e.rung);
    } else if e.TaskDeferred? || e.TaskFailed? || e.TaskParked? {
      WithoutTaskFilters(xs, e.task);
    } else {
      EverythingStays(xs);
    }
  }

  lemma ClimbsLeftFilters(xs: seq<Unsettled>, e: Event)
    ensures ClimbsLeft(xs, e) == Filtered(xs, EndsClimbs(e))
  {
    if e.AttemptStarted? || e.LadderEscalated? || e.TaskDeferred? || e.TaskFailed? || e.TaskParked? {
      WithoutTaskFilters(xs, e.task);
    } else {
      EverythingStays(xs);
    }
  }

  lemma ParksLeftFilters(xs: seq<Unsettled>, e: Event, asks: bool)
    ensures ParksLeft(xs, e, asks) == Filtered(xs, PaysParks(e, asks))
  {
    match e
    case TaskParked(task, _, _) => WithoutTaskFilters(xs, task);
    case QuestionRaised(task, _) => if asks { WithoutTaskFilters(xs, task); } else { EverythingStays(xs); }
    case _ => EverythingStays(xs);
  }

  lemma PendingIs(t: Tracker, e: Event)
    ensures Track(t, e).pending == UndecidedLeft(t.pending, e) + if Bare(e, t.schema) then [Names(e, MissingDecision)] else []
  {
  }

  lemma ClimbsAre(t: Tracker, e: Event)
    ensures Track(t, e).escalations ==
      ClimbsLeft(t.escalations, e) + if e.LadderEscalated? then [Names(e, MissingSpendParking)] else []
  {
  }

  lemma ParksAre(t: Tracker, e: Event)
    ensures Track(t, e).spendParks == ParksLeft(t.spendParks, e, Asks(t, e)) + if Asks(t, e) then [Asked(t, e)] else []
  {
  }

  predicate Bare(e: Event, schema: nat) {
    e.AttemptFinished? && e.record.failure.Some? && e.parking.None? && e.transition.None? && schema < 3
  }

  lemma DecisionsStep(schema: nat, log: seq<Event>, e: Event, bare: bool)
    requires bare <==> Bare(e, SchemaAfter(schema, log))
    ensures StepsTo(|log|, OfFinish(log), HasDecision(schema, log), PaysDecisions(e), bare,
                    Names(e, MissingDecision), OfFinish(log + [e]), HasDecision(schema, log + [e]))
  {
    forall k: nat
      ensures k < |log| ==> OfFinish(log + [e])(k) == OfFinish(log)(k)
      ensures k < |log| ==>
        (HasDecision(schema, log + [e])(k) <==> HasDecision(schema, log)(k) && PaysDecisions(e)(OfFinish(log)(k)))
      ensures k == |log| ==> (HasDecision(schema, log + [e])(k) <==> bare)
    {
      DecisionNext(schema, log, e, k);
    }
  }

  lemma UndecidedsGrow(schema: nat, log: seq<Event>, e: Event, bare: bool, xs: seq<Unsettled>, ys: seq<Unsettled>)
    requires Undecideds(schema, log, xs) && (bare <==> Bare(e, SchemaAfter(schema, log)))
    requires ys == Filtered(xs, PaysDecisions(e)) + if bare then [Names(e, MissingDecision)] else []
    ensures Undecideds(schema, log + [e], ys)
  {
    DecisionsStep(schema, log, e, bare);
    ListedStep(xs, |log|, OfFinish(log), HasDecision(schema, log), PaysDecisions(e), bare,
               Names(e, MissingDecision), OfFinish(log + [e]), HasDecision(schema, log + [e]), ys);
  }

  lemma PendingNext(schema: nat, log: seq<Event>, t: Tracker, e: Event)
    requires t.schema == SchemaAfter(schema, log) && Undecideds(schema, log, t.pending)
    ensures Undecideds(schema, log + [e], Track(t, e).pending)
  {
    PendingIs(t, e);
    UndecidedLeftFilters(t.pending, e);
    UndecidedsGrow(schema, log, e, Bare(e, t.schema), t.pending, Track(t, e).pending);
  }

  lemma ClimbsStep(log: seq<Event>, e: Event)
    ensures StepsTo(|log|, OfClimb(log), HasClimb(log), EndsClimbs(e), e.LadderEscalated?, Names(e, MissingSpendParking),
                    OfClimb(log + [e]), HasClimb(log + [e]))
  {
    forall k: nat
      ensures k < |log| ==> OfClimb(log + [e])(k) == OfClimb(log)(k)
      ensures k < |log| ==> (HasClimb(log + [e])(k) <==> HasClimb(log)(k) && EndsClimbs(e)(OfClimb(log)(k)))
      ensures k == |log| ==> (HasClimb(log + [e])(k) <==> e.LadderEscalated?)
    {
      ClimbNext(log, e, k);
    }
  }

  lemma ClimbsGrow(log: seq<Event>, e: Event, xs: seq<Unsettled>, ys: seq<Unsettled>)
    requires Climbs(log, xs)
    requires ys == Filtered(xs, EndsClimbs(e)) + if e.LadderEscalated? then [Names(e, MissingSpendParking)] else []
    ensures Climbs(log + [e], ys)
  {
    ClimbsStep(log, e);
    ListedStep(xs, |log|, OfClimb(log), HasClimb(log), EndsClimbs(e), e.LadderEscalated?,
               Names(e, MissingSpendParking), OfClimb(log + [e]), HasClimb(log + [e]), ys);
  }

  lemma ClimbsNext(log: seq<Event>, t: Tracker, e: Event)
    requires Climbs(log, t.escalations)
    ensures Climbs(log + [e], Track(t, e).escalations)
  {
    ClimbsAre(t, e);
    ClimbsLeftFilters(t.escalations, e);
    ClimbsGrow(log, e, t.escalations, Track(t, e).escalations);
  }

  predicate Asks(t: Tracker, e: Event) {
    e.QuestionRaised? && e.raised.kind.ApproveSpend? && LastOf(t.escalations, e.task).Some?
  }

  function Asked(t: Tracker, e: Event): Unsettled {
    if Asks(t, e) then LastOf(t.escalations, e.task).value else Names(e, MissingSpendParking)
  }

  lemma ParksStep(log: seq<Event>, t: Tracker, e: Event)
    requires Climbs(log, t.escalations)
    ensures StepsTo(|log|, OfAsk(log), HasPark(log), PaysParks(e, Asks(t, e)), Asks(t, e), Asked(t, e),
                    OfAsk(log + [e]), HasPark(log + [e]))
  {
    AsksAre(log, t, e);
    forall k: nat
      ensures k < |log| && HasPark(log)(k) ==> OfAsk(log + [e])(k) == OfAsk(log)(k)
      ensures k < |log| ==> (HasPark(log + [e])(k) <==> HasPark(log)(k) && PaysParks(e, Asks(t, e))(OfAsk(log)(k)))
      ensures k == |log| ==> (HasPark(log + [e])(k) <==> Asks(t, e))
    {
      ParkNext(log, e, k);
    }
  }

  lemma ParksGrow(log: seq<Event>, t: Tracker, e: Event, ys: seq<Unsettled>)
    requires Climbs(log, t.escalations) && Parks(log, t.spendParks)
    requires ys == Filtered(t.spendParks, PaysParks(e, Asks(t, e))) + if Asks(t, e) then [Asked(t, e)] else []
    ensures Parks(log + [e], ys)
  {
    ParksStep(log, t, e);
    ListedStep(t.spendParks, |log|, OfAsk(log), HasPark(log), PaysParks(e, Asks(t, e)), Asks(t, e), Asked(t, e),
               OfAsk(log + [e]), HasPark(log + [e]), ys);
  }

  lemma ParksNext(log: seq<Event>, t: Tracker, e: Event)
    requires Climbs(log, t.escalations) && Parks(log, t.spendParks)
    ensures Parks(log + [e], Track(t, e).spendParks)
  {
    ParksAre(t, e);
    ParksLeftFilters(t.spendParks, e, Asks(t, e));
    ParksGrow(log, t, e, Track(t, e).spendParks);
  }

  lemma AsksAre(log: seq<Event>, t: Tracker, e: Event)
    requires Climbs(log, t.escalations)
    ensures AsksApproval(log + [e], |log|) <==> Asks(t, e)
    ensures AsksApproval(log + [e], |log|) ==> OfAsk(log + [e])(|log|) == Asked(t, e)
  {
    assert (log + [e])[|log|] == e;
    if e.QuestionRaised? && e.raised.kind.ApproveSpend? {
      var at :| Lists(t.escalations, at, |log|, OfClimb(log), HasClimb(log));
      AskNow(log, e, t.escalations, at);
    }
  }

  lemma SchemaIs(t: Tracker, e: Event)
    ensures Track(t, e).schema == if e.RunSchemaUpgraded? then e.to else t.schema
  {
  }

  lemma TrackedNext(schema: nat, log: seq<Event>, t: Tracker, e: Event)
    requires Tracked(schema, log, t)
    ensures Tracked(schema, log + [e], Track(t, e))
  {
    SchemaNext(schema, log, e);
    SchemaIs(t, e);
    PendingNext(schema, log, t, e);
    ClimbsNext(log, t, e);
    ParksNext(log, t, e);
  }

  lemma {:induction false} AlwaysTracked(schema: nat, log: seq<Event>)
    ensures Tracked(schema, log, TrackAll(Tracker(schema, [], [], []), log))
  {
    if log == [] {
      assert Lists([], [], 0, OfFinish([]), HasDecision(schema, []));
      assert Lists([], [], 0, OfClimb([]), HasClimb([]));
      assert Lists([], [], 0, OfAsk([]), HasPark([]));
    } else {
      var before, last := log[..|log| - 1], log[|log| - 1];
      AlwaysTracked(schema, before);
      TrackedNext(schema, before, TrackAll(Tracker(schema, [], [], []), before), last);
      assert before + [last] == log;
    }
  }

  /// What the detector reports, for any log whatever: the oldest approval that was asked for and never made binding; if
  /// there is none, the oldest failure that was never decided; and nothing only if there is neither.
  ghost predicate Reports(schema: nat, log: seq<Event>, r: Option<Unsettled>) {
    if exists k :: OwesPark(log, k) then
      exists k: nat :: OldestPark(log, k) && r == Some(Names(log[ClimbOf(log, k)], MissingSpendParking))
    else if exists k :: OwesDecision(schema, log, k) then
      exists k: nat :: OldestDecision(schema, log, k) && r == Some(Names(log[k], MissingDecision))
    else r == None
  }

  ghost predicate OldestPark(log: seq<Event>, k: nat) {
    OwesPark(log, k) && forall j :: 0 <= j < k ==> !OwesPark(log, j)
  }

  ghost predicate OldestDecision(schema: nat, log: seq<Event>, k: nat) {
    OwesDecision(schema, log, k) && forall j :: 0 <= j < k ==> !OwesDecision(schema, log, j)
  }

  lemma VerdictReports(schema: nat, log: seq<Event>)
    ensures Reports(schema, log, Verdict(schema, log))
  {
    AlwaysTracked(schema, log);
    var t := TrackAll(Tracker(schema, [], [], []), log);
    ParkIsOldest(schema, log, t);
    DecisionIsOldest(schema, log, t);
  }

  lemma ParkIsOldest(schema: nat, log: seq<Event>, t: Tracker)
    requires Tracked(schema, log, t)
    ensures t.spendParks == [] <==> forall k :: !OwesPark(log, k)
    ensures t.spendParks != [] ==>
      exists k: nat :: OldestPark(log, k) && t.spendParks[0] == Names(log[ClimbOf(log, k)], MissingSpendParking)
  {
    var at :| Lists(t.spendParks, at, |log|, OfAsk(log), HasPark(log));
    OldestIsFirst(t.spendParks, at, |log|, OfAsk(log), HasPark(log));
    assert forall k: nat :: HasPark(log)(k) <==> OwesPark(log, k);
  }

  lemma DebtsArePlaced(schema: nat, log: seq<Event>)
    ensures forall k: nat :: HasDecision(schema, log)(k) <==> OwesDecision(schema, log, k)
    ensures forall k :: OwesDecision(schema, log, k) ==> 0 <= k < |log|
  {
  }

  lemma DecisionIsOldest(schema: nat, log: seq<Event>, t: Tracker)
    requires Tracked(schema, log, t)
    ensures t.pending == [] <==> forall k :: !OwesDecision(schema, log, k)
    ensures t.pending != [] ==>
      exists k: nat :: OldestDecision(schema, log, k) && t.pending[0] == Names(log[k], MissingDecision)
  {
    var at :| Lists(t.pending, at, |log|, OfFinish(log), HasDecision(schema, log));
    OldestIsFirst(t.pending, at, |log|, OfFinish(log), HasDecision(schema, log));
    DebtsArePlaced(schema, log);
    if t.pending != [] {
      var k: nat :| k < |log| && HasDecision(schema, log)(k) && t.pending[0] == OfFinish(log)(k)
                    && forall j: nat :: j < k ==> !HasDecision(schema, log)(j);
      forall j | 0 <= j < k ensures !OwesDecision(schema, log, j) {
        assert !HasDecision(schema, log)(j);
      }
    }
  }
}
