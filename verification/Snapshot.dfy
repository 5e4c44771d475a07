// A reader that may not stop the writer: bytes paired with a liveness answer, and what `status` does with the pair
// (src/status.rs:469-498 and 150-164).
module Snapshot {
  import opened Prelude
  import opened Events
  import opened EventLog
  import opened LogWorld
  import opened Writer
  import RunState
  import Schema
  import Spending
  import Histories

  const MAX_SNAPSHOT_ATTEMPTS: nat := 8

  datatype SnapshotError<X> = ReadFailed(error: X) | KeptChanging

  datatype Snap = Snap(bytes: seq<byte>, held: bool)

  /// One loop round from observation `k` on, and the rounds after it. `held(k)` and `read(k)` are what the two
  /// closures answer when they are called as the k-th observation.
  function Stable<X>(held: nat -> bool, read: nat -> Result<seq<byte>, X>, k: nat, rounds: nat)
    : Result<Snap, SnapshotError<X>>
    decreases rounds
  {
    if rounds == 0 then Err(KeptChanging)
    else if read(k + 1).Err? then Err(ReadFailed(read(k + 1).error))
    else if held(k) != held(k + 2) then Stable(held, read, k + 3, rounds - 1)
    else if held(k + 2) then Ok(Snap(read(k + 1).value, true))
    else if read(k + 3).Err? then Err(ReadFailed(read(k + 3).error))
    else if !held(k + 4) && read(k + 1).value == read(k + 3).value then Ok(Snap(read(k + 3).value, false))
    else Stable(held, read, k + 5, rounds - 1)
  }

  /// A round from observation k that settles nothing and fails at nothing: its first two probes differ, or they both say
  /// "not held" and its last probe says "held" or its two reads differ.
  predicate Undecided<X>(held: nat -> bool, read: nat -> Result<seq<byte>, X>, k: nat) {
    && read(k + 1).Ok?
    && (held(k) != held(k + 2)
        || (!held(k) && read(k + 3).Ok? && (held(k + 4) || read(k + 1).value != read(k + 3).value)))
  }

  /// Where each of some consecutive rounds starts, the first at observation `from`; all but the last settle nothing.
  ghost predicate Rounds<X>(held: nat -> bool, read: nat -> Result<seq<byte>, X>, from: nat, starts: seq<nat>) {
    && starts != [] && starts[0] == from
    && forall j :: 0 <= j < |starts| - 1 ==> RoundFollows(held, read, starts, j)
  }

  /// A round whose first two probes differ makes three observations, any other five.
  ghost predicate RoundFollows<X>(held: nat -> bool, read: nat -> Result<seq<byte>, X>, starts: seq<nat>, j: nat)
    requires j + 1 < |starts|
  {
    && Undecided(held, read, starts[j])
    && starts[j + 1] == starts[j] + if held(starts[j]) != held(starts[j] + 2) then 3 else 5
  }

  /// The round from observation k fails with this error: in its first read, or in its second, made only when the two
  /// probes around the first said "not held".
  predicate FailsAt<X(==)>(held: nat -> bool, read: nat -> Result<seq<byte>, X>, k: nat, error: X) {
    read(k + 1) == Err(error) || (read(k + 1).Ok? && !held(k) && !held(k + 2) && read(k + 3) == Err(error))
  }

  predicate SeesHeld<X(==)>(held: nat -> bool, read: nat -> Result<seq<byte>, X>, k: nat, bytes: seq<byte>) {
    held(k) && read(k + 1) == Ok(bytes) && held(k + 2)
  }

  predicate SeesIdle<X(==)>(held: nat -> bool, read: nat -> Result<seq<byte>, X>, k: nat, bytes: seq<byte>) {
    !held(k) && read(k + 1) == Ok(bytes) && !held(k + 2) && read(k + 3) == Ok(bytes) && !held(k + 4)
  }

  /// One of the first eight rounds is the first to come to something, and this is what.
  ghost predicate Comes<X(!new)>(
    held: nat -> bool, read: nat -> Result<seq<byte>, X>, r: Result<Snap, SnapshotError<X>>, starts: seq<nat>)
  {
    && 1 <= |starts| <= 8 && Rounds(held, read, 0, starts)
    && var last := starts[|starts| - 1];
    match r
    case Err(KeptChanging) => false
    case Err(ReadFailed(error)) => FailsAt(held, read, last, error)
    case Ok(Snap(bytes, true)) => SeesHeld(held, read, last, bytes)
    case Ok(Snap(bytes, false)) => SeesIdle(held, read, last, bytes)
  }

  /// Eight rounds came to nothing.
  ghost predicate GivesUp<X(!new)>(held: nat -> bool, read: nat -> Result<seq<byte>, X>) {
    exists starts :: |starts| == 9 && Rounds(held, read, 0, starts)
  }

  /// Every answer exactly, by the observations the call makes.
  ghost predicate Explains<X(!new)>(
    held: nat -> bool, read: nat -> Result<seq<byte>, X>, r: Result<Snap, SnapshotError<X>>)
  {
    && (r == Err(KeptChanging) <==> GivesUp(held, read))
    && (r != Err(KeptChanging) ==> exists starts :: Comes(held, read, r, starts))
    && (forall other, starts :: Comes(held, read, other, starts) ==> r == other)
  }

  lemma {:induction false} PathOf<X(!new)>(held: nat -> bool, read: nat -> Result<seq<byte>, X>, k: nat, rounds: nat)
    returns (starts: seq<nat>)
    ensures Rounds(held, read, k, starts)
    ensures
      var r, last := Stable(held, read, k, rounds), starts[|starts| - 1];
      match r
      case Err(KeptChanging) => |starts| == rounds + 1
      case Err(ReadFailed(error)) => |starts| <= rounds && FailsAt(held, read, last, error)
      case Ok(Snap(bytes, true)) => |starts| <= rounds && SeesHeld(held, read, last, bytes)
      case Ok(Snap(bytes, false)) => |starts| <= rounds && SeesIdle(held, read, last, bytes)
    decreases rounds
  {
    if rounds == 0 || !Undecided(held, read, k) {
      starts := [k];
    } else {
      var later := PathOf(held, read, k + if held(k) != held(k + 2) then 3 else 5, rounds - 1);
      starts := [k] + later;
      forall j: nat | j < |starts| - 1 ensures RoundFollows(held, read, starts, j) {
        assert j > 0 ==> RoundFollows(held, read, later, j - 1);
      }
    }
  }

  /// A round that settles something settles the call.
  lemma {:induction false} PathLeads<X(!new)>(
    held: nat -> bool, read: nat -> Result<seq<byte>, X>, k: nat, rounds: nat, starts: seq<nat>)
    requires Rounds(held, read, k, starts) && |starts| <= rounds + 1
    ensures |starts| == rounds + 1 ==> Stable(held, read, k, rounds) == Err(KeptChanging)
    ensures |starts| <= rounds ==>
      var r, last := Stable(held, read, k, rounds), starts[|starts| - 1];
      && (forall error :: FailsAt(held, read, last, error) ==> r == Err(ReadFailed(error)))
      && (forall bytes :: SeesHeld(held, read, last, bytes) ==> r == Ok(Snap(bytes, true)))
      && (forall bytes :: SeesIdle(held, read, last, bytes) ==> r == Ok(Snap(bytes, false)))
    decreases rounds
  {
    if |starts| > 1 {
      assert RoundFollows(held, read, starts, 0);
      forall j: nat | j < |starts| - 2 ensures RoundFollows(held, read, starts[1..], j) {
        assert RoundFollows(held, read, starts, j + 1);
      }
      PathLeads(held, read, starts[1], rounds - 1, starts[1..]);
    }
  }

  lemma StableComes<X(!new)>(held: nat -> bool, read: nat -> Result<seq<byte>, X>, r: Result<Snap, SnapshotError<X>>)
    requires r == Stable(held, read, 0, MAX_SNAPSHOT_ATTEMPTS)
    ensures r == Err(KeptChanging) ==> GivesUp(held, read)
    ensures r != Err(KeptChanging) ==> exists starts :: Comes(held, read, r, starts)
  {
    var path := PathOf(held, read, 0, MAX_SNAPSHOT_ATTEMPTS);
    assert r != Err(KeptChanging) ==> Comes(held, read, r, path);
  }

  lemma NothingElseComes<X(!new)>(
    held: nat -> bool, read: nat -> Result<seq<byte>, X>, other: Result<Snap, SnapshotError<X>>, starts: seq<nat>)
    requires Comes(held, read, other, starts)
    ensures other == Stable(held, read, 0, MAX_SNAPSHOT_ATTEMPTS)
  {
    PathLeads(held, read, 0, MAX_SNAPSHOT_ATTEMPTS, starts);
  }

  lemma StableIsExplained<X(!new)>(held: nat -> bool, read: nat -> Result<seq<byte>, X>)
    ensures Explains(held, read, Stable(held, read, 0, MAX_SNAPSHOT_ATTEMPTS))
  {
    StableComes(held, read, Stable(held, read, 0, MAX_SNAPSHOT_ATTEMPTS));
    if starts :| |starts| == 9 && Rounds(held, read, 0, starts) {
      PathLeads(held, read, 0, MAX_SNAPSHOT_ATTEMPTS, starts);
    }
    forall other, starts | Comes(held, read, other, starts) ensures other == Stable(held, read, 0, MAX_SNAPSHOT_ATTEMPTS) {
      NothingElseComes(held, read, other, starts);
    }
  }

  /// Where nothing moves the answer is what is there: every probe of the first round says v, both reads give b.
  lemma NothingMoves<X(!new)>(
    held: nat -> bool, read: nat -> Result<seq<byte>, X>, r: Result<Snap, SnapshotError<X>>, v: bool, bytes: seq<byte>)
    requires Explains(held, read, r) && forall k: nat :: k < 5 ==> held(k) == v && read(k) == Ok(bytes)
    ensures r == Ok(Snap(bytes, v))
  {
    assert Rounds(held, read, 0, [0]);
    assert Comes(held, read, Ok(Snap(bytes, v)), [0]);
  }

  method StableEventBytes<X(!new)>(held: nat -> bool, read: nat -> Result<seq<byte>, X>)
    returns (r: Result<Snap, SnapshotError<X>>)
    ensures r == Stable(held, read, 0, MAX_SNAPSHOT_ATTEMPTS)
    ensures Explains(held, read, r)
    ensures forall v, bytes :: (forall k: nat :: k < 5 ==> held(k) == v && read(k) == Ok(bytes)) ==> r == Ok(Snap(bytes, v))
  {
    StableIsExplained(held, read);
    forall v, bytes | forall k: nat :: k < 5 ==> held(k) == v && read(k) == Ok(bytes)
      ensures Stable(held, read, 0, MAX_SNAPSHOT_ATTEMPTS) == Ok(Snap(bytes, v))
    {
      NothingMoves(held, read, Stable(held, read, 0, MAX_SNAPSHOT_ATTEMPTS), v, bytes);
    }
    var k := 0;
    for round := 0 to MAX_SNAPSHOT_ATTEMPTS
      invariant Stable(held, read, 0, MAX_SNAPSHOT_ATTEMPTS) == Stable(held, read, k, MAX_SNAPSHOT_ATTEMPTS - round)
    {
      var before, first, after := held(k), read(k + 1), held(k + 2);
      if first.Err? {
        return Err(ReadFailed(first.error));
      }
      if before != after {
        k := k + 3;
        continue;
      }
      if after {
        return Ok(Snap(first.value, true));
      }
      var second, final := read(k + 3), held(k + 4);
      if second.Err? {
        return Err(ReadFailed(second.error));
      }
      if !final && first.value == second.value {
        return Ok(Snap(second.value, false));
      }
      k := k + 5;
    }
    r := Err(KeptChanging);
  }

  /// The observations happen one after another in one history. A probe that answers "not held" is believed: nobody
  /// could write at that instant. A probe that answers "held" need not be right.
  ghost predicate Observes<E(!new), X(!new)>(
    h: seq<World<E>>, at: nat -> nat, held: nat -> bool, read: nat -> Result<seq<byte>, X>)
  {
    && (forall j: nat, k: nat :: j <= k ==> at(j) <= at(k))
    && (forall k: nat :: at(k) < |h|)
    && (forall k: nat :: !held(k) ==> h[at(k)].proc.Free?)
    && (forall k: nat :: read(k).Ok? ==> read(k).value == h[at(k)].bytes)
  }

  /// The instant the snapshot is of.
  ghost predicate TrueAt<E>(c: Codec<E>, h: seq<World<E>>, i: nat, bytes: seq<byte>) {
    && i < |h| && h[i].proc.Free?
    && Parse(c, bytes).Ok? && Parse(c, bytes).value.events == Committed(c, h[i].bytes)
  }

  lemma AgreeingReads<E(!new)>(c: Codec<E>, h: seq<World<E>>, first: nat, probe: nat, second: nat)
    requires Sound(c) && History(c, h) && first <= probe <= second < |h|
    requires h[first].bytes == h[second].bytes && h[probe].proc.Free?
    ensures TrueAt(c, h, probe, h[second].bytes)
  {
    CommittedOnlyGrows(c, h, first, probe);
    CommittedOnlyGrows(c, h, probe, second);
    CrashRefinement(c, h, second);
  }

  /// What the deciding round saw.
  ghost predicate Decided<X>(held: nat -> bool, read: nat -> Result<seq<byte>, X>, k: nat, snap: Snap) {
    && read(k + 1).Ok? && read(k + 1).value == snap.bytes && held(k + 2) == snap.held && held(k) == snap.held
    && (!snap.held ==> read(k + 3).Ok? && read(k + 3).value == snap.bytes && !held(k + 4))
  }

  lemma {:induction false} DecidingRound<X>(
    held: nat -> bool, read: nat -> Result<seq<byte>, X>, k: nat, rounds: nat) returns (round: nat)
    requires Stable(held, read, k, rounds).Ok?
    ensures k <= round && round + (if Stable(held, read, k, rounds).value.held then 2 else 4) < k + 5 * rounds
    ensures Decided(held, read, round, Stable(held, read, k, rounds).value)
    decreases rounds
  {
    if held(k) != held(k + 2) {
      round := DecidingRound(held, read, k + 3, rounds - 1);
    } else if held(k + 2) || (!held(k + 4) && read(k + 1).value == read(k + 3).value) {
      round := k;
    } else {
      round := DecidingRound(held, read, k + 5, rounds - 1);
    }
  }

  lemma RoundIsTrue<E(!new), X(!new)>(
    c: Codec<E>, h: seq<World<E>>, at: nat -> nat, held: nat -> bool, read: nat -> Result<seq<byte>, X>, k: nat, bytes: seq<byte>)
    requires Sound(c) && History(c, h) && Observes(h, at, held, read) && Decided(held, read, k, Snap(bytes, false))
    ensures TrueAt(c, h, at(k + 2), bytes)
  {
    AgreeingReads(c, h, at(k + 1), at(k + 2), at(k + 3));
  }

  /// "Not held" comes with one instant, that of the deciding round's second probe, between its two equal reads and so
  /// within the call, at which nobody could write and the committed events were exactly the ones returned, whatever the
  /// writers did around it: started, appended, died, reopened.
  lemma ConsistentSnapshot<E(!new), X(!new)>(
    c: Codec<E>, h: seq<World<E>>, at: nat -> nat, held: nat -> bool, read: nat -> Result<seq<byte>, X>, k: nat, rounds: nat)
    requires Sound(c) && History(c, h) && Observes(h, at, held, read)
    ensures
      match Stable(held, read, k, rounds)
      case Err(_) => true
      case Ok(Snap(bytes, false)) =>
        exists round: nat :: k <= round && round + 4 < k + 5 * rounds
          && BetweenEqualReads(read, round, bytes) && TrueAt(c, h, at(round + 2), bytes)
      case Ok(Snap(bytes, true)) =>
        exists round: nat :: k <= round && round + 2 < k + 5 * rounds
          && held(round) && held(round + 2) && h[at(round + 1)].bytes == bytes
  {
    var r := Stable(held, read, k, rounds);
    if r.Ok? {
      var round := DecidingRound(held, read, k, rounds);
      if r.value.held {
        assert held(round) && held(round + 2) && h[at(round + 1)].bytes == r.value.bytes;
      } else {
        RoundIsTrue(c, h, at, held, read, round, r.value.bytes);
        assert BetweenEqualReads(read, round, r.value.bytes);
      }
    }
  }

  /// The two reads of a round on either side of its second probe.
  predicate BetweenEqualReads<X(==)>(read: nat -> Result<seq<byte>, X>, round: nat, bytes: seq<byte>) {
    read(round + 1) == Ok(bytes) && read(round + 3) == Ok(bytes)
  }

  // ------------------------------------------------------------------ load

  /// What `load` reports: the fold, settled in memory unless a live process owns an unfinished run.
  function Loaded(log: seq<Event>, ids: seq<TaskId>, held: bool): State {
    var s := Fold(NewState(ids), log);
    if held && s.finished.None? then s else Fold(s, RunState.Interruptions(s, |s.taskIds|))
  }

  datatype Plan = Plan(sourceHash: string, tasks: seq<TaskId>)

  /// The frozen plan as it is on disk: the digest of its bytes, and the plan if they parse.
  datatype PlanFile = PlanFile(digest: string, plan: Option<Plan>)

  datatype LoadError<X> =
    | Unstable(why: SnapshotError<X>) | Corrupt(where: ParseError) | Refused(reason: RunState.ReplayError) | OtherRun
    | PlanUnread(cause: X) | NoDigest | OtherPlanBytes | PlanCorrupt | OtherPlan

  datatype Status = Status(state: RunState.RunState, running: bool, held: bool, interrupted: nat)

  /// The snapshot reads as the log of this run.
  ghost predicate Trusted<X>(c: Codec<Event>, snap: Result<Snap, SnapshotError<X>>, runId: string) {
    && snap.Ok? && Parse(c, snap.value.bytes).Ok?
    && var log := Parse(c, snap.value.bytes).value.events;
    && Schema.StartedOf(log).Some? && Schema.Accepted(Schema.StartedOf(log).value, log)
    && Schema.StartedOf(log).value.runId == runId
  }

  /// From schema 3 on a log says which bytes its plan had; at any schema it says which document it came from.
  predicate BytesAreTheRuns(header: RunHeader, log: seq<Event>, file: PlanFile) {
    Schema.SchemaBefore(header, log, |log|) >= 3 ==> Schema.RecordedDigest(log) == Some(file.digest)
  }

  predicate PlanIsTheRuns(header: RunHeader, log: seq<Event>, file: PlanFile) {
    BytesAreTheRuns(header, log, file) && file.plan.Some? && file.plan.value.sourceHash == header.planHash
  }

  ghost predicate Loadable<X>(
    c: Codec<Event>, snap: Result<Snap, SnapshotError<X>>, runId: string, plan: Result<PlanFile, X>)
  {
    && Trusted(c, snap, runId) && plan.Ok?
    && var log := Parse(c, snap.value.bytes).value.events;
    PlanIsTheRuns(Schema.StartedOf(log).value, log, plan.value)
  }

  /// Why it is refused: the first of the checks, in the order `load` makes them, that fails.
  ghost predicate LoadFails<X>(
    c: Codec<Event>, snap: Result<Snap, SnapshotError<X>>, runId: string, plan: Result<PlanFile, X>, error: LoadError<X>)
  {
    match error
    case Unstable(why) => snap == Err(why)
    case Corrupt(where) => snap.Ok? && Parse(c, snap.value.bytes) == Err(where)
    case Refused(reason) =>
      && snap.Ok? && Parse(c, snap.value.bytes).Ok?
      && var log := Parse(c, snap.value.bytes).value.events;
      && (reason == RunState.NoRunStarted <==> Schema.StartedOf(log).None?)
      && (reason.Unsupported? ==> Schema.RefusedFor(Schema.StartedOf(log).value, log, reason.error))
    case OtherRun =>
      && snap.Ok? && Parse(c, snap.value.bytes).Ok?
      && var log := Parse(c, snap.value.bytes).value.events;
      && Schema.StartedOf(log).Some? && Schema.Accepted(Schema.StartedOf(log).value, log)
      && Schema.StartedOf(log).value.runId != runId
    case PlanUnread(cause) => Trusted(c, snap, runId) && plan == Err(cause)
    case _ =>
      && Trusted(c, snap, runId) && plan.Ok?
      && var log := Parse(c, snap.value.bytes).value.events;
      PlanFails(Schema.StartedOf(log).value, log, plan.value, error)
  }

  predicate PlanFails<X>(header: RunHeader, log: seq<Event>, file: PlanFile, error: LoadError<X>) {
    match error
    case NoDigest => Schema.SchemaBefore(header, log, |log|) >= 3 && Schema.RecordedDigest(log).None?
    case OtherPlanBytes => Schema.RecordedDigest(log).Some? && !BytesAreTheRuns(header, log, file)
    case PlanCorrupt => BytesAreTheRuns(header, log, file) && file.plan.None?
    case OtherPlan =>
      BytesAreTheRuns(header, log, file) && file.plan.Some? && file.plan.value.sourceHash != header.planHash
    case _ => false
  }

  /// What `load` asks of the frozen plan.
  method CheckPlan<X>(header: RunHeader, log: seq<Event>, schema: nat, file: PlanFile) returns (r: Result<Plan, LoadError<X>>)
    requires schema == Schema.SchemaBefore(header, log, |log|)
    ensures r.Ok? <==> PlanIsTheRuns(header, log, file)
    ensures r.Ok? ==> file.plan == Some(r.value)
    ensures r.Err? ==> PlanFails(header, log, file, r.error)
  {
    if schema >= 3 {
      var recorded := Schema.RecordedNormalizedPlanDigest(log);
      if recorded.None? {
        return Err(NoDigest);
      }
      if file.digest != recorded.value {
        return Err(OtherPlanBytes);
      }
    }
    if file.plan.None? {
      return Err(PlanCorrupt);
    }
    if file.plan.value.sourceHash != header.planHash {
      return Err(OtherPlan);
    }
    r := Ok(file.plan.value);
  }

  /// What `load` asks of the log before it looks at the plan.
  method CheckLog<X>(c: Codec<Event>, snap: Result<Snap, SnapshotError<X>>, runId: string)
    returns (r: Result<(seq<Event>, RunHeader, nat), LoadError<X>>)
    ensures r.Ok? <==> Trusted(c, snap, runId)
    ensures r.Ok? ==>
      && Parse(c, snap.value.bytes).value.events == r.value.0 && Schema.StartedOf(r.value.0) == Some(r.value.1)
      && r.value.2 == Schema.SchemaBefore(r.value.1, r.value.0, |r.value.0|)
    ensures r.Err? ==> forall plan :: LoadFails(c, snap, runId, plan, r.error)
  {
    if snap.Err? {
      return Err(Unstable(snap.error));
    }
    var parsed := ParseBytes(c, snap.value.bytes);
    if parsed.Err? {
      return Err(Corrupt(parsed.error));
    }
    var log := parsed.value.events;
    var started := Schema.StartedOf(log);
    if started.None? {
      return Err(Refused(RunState.NoRunStarted));
    }
    var schema := Schema.EnsureSupportedSchema(started.value, log);
    if schema.Err? {
      return Err(Refused(RunState.Unsupported(schema.error)));
    }
    if started.value.runId != runId {
      return Err(OtherRun);
    }
    r := Ok((log, started.value, schema.value));
  }

  /// `load`, from the snapshot on. `plan` is what reading the frozen plan gives.
  method Load<X>(c: Codec<Event>, snap: Result<Snap, SnapshotError<X>>, runId: string, plan: Result<PlanFile, X>)
    returns (r: Result<Status, LoadError<X>>)
    ensures r.Ok? <==> Loadable(c, snap, runId, plan)
    ensures r.Err? ==> LoadFails(c, snap, runId, plan, r.error)
    ensures r.Ok? ==>
      var log, ids := Parse(c, snap.value.bytes).value.events, plan.value.plan.value.tasks;
      var s := Fold(NewState(ids), log);
      var cut := RunState.Interruptions(s, |s.taskIds|);
      && fresh(r.value.state) && r.value.state.Valid() && r.value.state.View() == Loaded(log, ids, snap.value.held)
      && r.value.held == snap.value.held
      && r.value.running == (snap.value.held && s.finished.None?)
      && r.value.state.View() == (if r.value.running then s else Fold(s, cut))
      && r.value.interrupted == (if r.value.running then 0 else |cut|)
  {
    var checked := CheckLog(c, snap, runId);
    if checked.Err? {
      return Err(checked.error);
    }
    var (log, header, schema) := checked.value;
    if plan.Err? {
      return Err(PlanUnread(plan.error));
    }
    var frozen := CheckPlan(header, log, schema, plan.value);
    if frozen.Err? {
      return Err(frozen.error);
    }
    var replayed := RunState.Replay(log, frozen.value.tasks);
    var state := replayed.value.state;
    var running, interrupted := snap.value.held && state.finished.None?, 0;
    if !running {
      interrupted := state.SettleInterrupted();
    }
    r := Ok(Status(state, running, snap.value.held, interrupted));
  }

  /// A held run is reported as its log says, whether or not it has finished: nothing an engine is doing is settled.
  lemma HeldRunsAreNeverSettled(cfg: Config, moves: seq<Writer.Move>)
    requires ValidRun(cfg, moves)
    ensures Loaded(After(cfg, moves).log, Ids(cfg), true) == After(cfg, moves).state
  {
    Spending.LiveEqualsReplay(cfg, moves);
    if After(cfg, moves).state.finished.Some? {
      Histories.FinishedRunsAreIdle(cfg, moves);
    }
  }
}
