// The engine and its file together: the process that writes the bytes of LogWorld is the engine of Writer, so what any
// reader finds at any instant is the log of a run (src/engine.rs:2076-2080, src/events.rs:1502-1580).
module LiveLog {
  import opened Prelude
  import opened Events
  import opened EventLog
  import opened Writer
  import L = LogWorld
  import Runs
  import RunState
  import Schema
  import Snapshot
  import Spending
  import Histories

  // --------------------------------------------------- records and events

  /// The wire: records, one to a line, and the event each of them is read as. Several events an engine can have in
  /// memory may be written as one record, so no event need survive the trip; a record does.
  datatype Wire<!W> = Wire(records: Codec<W>, view: W -> Event)

  function Seen<W>(wire: Wire<W>, records: seq<W>): (r: seq<Event>)
    ensures |r| == |records| && forall k :: 0 <= k < |r| ==> r[k] == wire.view(records[k])
  {
    seq(|records|, k requires 0 <= k < |records| => wire.view(records[k]))
  }

  /// The codec of events that the program has: it reads a line as the record's event, and whatever it writes and can
  /// read back is the line of some record.
  ghost predicate Speaks<W(!new)>(wire: Wire<W>, c: Codec<Event>) {
    && c.utf8 == wire.records.utf8 && c.blank == wire.records.blank
    && (forall line {:trigger c.decode(line)} :: c.decode(line) == ViewOf(wire, wire.records.decode(line)))
    && (forall e {:trigger c.encode(e)} ::
          c.decode(c.encode(e)).Some? ==> exists w :: wire.records.encode(w) == c.encode(e))
  }

  function ViewOf<W>(wire: Wire<W>, record: Option<W>): Option<Event> {
    match record case None => None case Some(w) => Some(wire.view(w))
  }

  lemma {:induction false} LinesAreSeen<W(!new)>(wire: Wire<W>, c: Codec<Event>, bytes: seq<byte>, position: nat)
    requires Speaks(wire, c)
    ensures
      match ParseLines(wire.records, bytes, position)
      case Err(error) => ParseLines(c, bytes, position) == Err(error)
      case Ok(records) => ParseLines(c, bytes, position) == Ok(Seen(wire, records))
    decreases |bytes|
  {
    if NL in bytes {
      var k := FirstNewline(bytes);
      LinesAreSeen(wire, c, bytes[k + 1..], position + 1);
      FirstLineOf(wire.records, bytes, k, position);
      FirstLineOf(c, bytes, k, position);
      LineIsSeen(wire, c, Chomp(bytes[..k]), ParseLines(wire.records, bytes[k + 1..], position + 1));
    }
  }

  lemma LineIsSeen<W(!new)>(wire: Wire<W>, c: Codec<Event>, line: seq<byte>, rest: Result<seq<W>, ParseError>)
    requires Speaks(wire, c)
    ensures
      match wire.records.decode(line)
      case None => c.decode(line).None?
      case Some(w) =>
        c.decode(line) == Some(wire.view(w))
        && (rest.Ok? ==> Seen(wire, [w] + rest.value) == [wire.view(w)] + Seen(wire, rest.value))
  {
    if wire.records.decode(line).Some? && rest.Ok? {
      SeenFirst(wire, wire.records.decode(line).value, rest.value);
    }
  }

  lemma SeenFirst<W>(wire: Wire<W>, w: W, records: seq<W>)
    ensures Seen(wire, [w] + records) == [wire.view(w)] + Seen(wire, records)
  {
  }

  /// Reading events is reading records and seeing each as its event, errors and torn tails included.
  lemma ParseIsSeen<W(!new)>(wire: Wire<W>, c: Codec<Event>, bytes: seq<byte>)
    requires Speaks(wire, c)
    ensures
      match Parse(wire.records, bytes)
      case Err(error) => Parse(c, bytes) == Err(error)
      case Ok(p) => Parse(c, bytes) == Ok(Parsed(Seen(wire, p.events), p.torn))
  {
    LinesAreSeen(wire, c, bytes[..CommittedEnd(bytes)], 1);
  }

  /// An append of any event that survives at all is the append of one record, and what it hands back, which is what the
  /// engine folds, is that record's event.
  lemma AppendsARecord<W(!new)>(wire: Wire<W>, c: Codec<Event>, e: Event) returns (w: W)
    requires Sound(wire.records) && Speaks(wire, c) && c.decode(c.encode(e)).Some?
    ensures Line(c, e) == Line(wire.records, w) && c.decode(c.encode(e)) == Some(wire.view(w))
  {
    w :| wire.records.encode(w) == c.encode(e);
  }

  // ------------------------------------------------------------ the machine

  /// The file, and the moves of the run so far: none before its first event is in the log.
  datatype Joint<W> = Joint(world: L.World<W>, run: Option<seq<Writer.Move>>)

  function LogOf(cfg: Config, run: Option<seq<Writer.Move>>): seq<Event> {
    if run.None? then [] else After(cfg, run.value).log
  }

  /// What the engine begins to append is what the writer's rules allow it to, and first of all its opening event.
  predicate Drives(cfg: Config, run: Option<seq<Writer.Move>>, e: Event) {
    if run.None? then e == RunStarted(cfg.header) else Legal(cfg, After(cfg, run.value), Emit(e))
  }

  predicate Can<W>(cfg: Config, wire: Wire<W>, j: Joint<W>, m: L.Move<W>) {
    L.Can(j.world, m) && (m.Begin? ==> Drives(cfg, j.run, wire.view(m.event)))
  }

  function Emitted(run: Option<seq<Writer.Move>>, e: Event): Option<seq<Writer.Move>> {
    if run.None? then Some([]) else Some(run.value + [Emit(e)])
  }

  function Also(run: Option<seq<Writer.Move>>, m: Writer.Move): Option<seq<Writer.Move>> {
    if run.None? then None else Some(run.value + [m])
  }

  /// An append that returned was made; one that was cut was made exactly if its newline reached the file. A process
  /// that stops has died to the run, and one that opens the log resumes it.
  function RunAfter<W>(wire: Wire<W>, j: Joint<W>, m: L.Move<W>): Option<seq<Writer.Move>>
    requires L.Can(j.world, m)
  {
    match m
    case Ack => Emitted(j.run, wire.view(j.world.proc.event))
    case Fail => Cut(wire, j)
    case Quit => Cut(wire, j)
    case OpenLog => Also(j.run, Boot)
    case _ => j.run
  }

  /// The run whose log the file holds: the one so far, or that and the append whose newline is already there.
  function Visible<W>(wire: Wire<W>, j: Joint<W>): Option<seq<Writer.Move>> {
    if j.world.proc.Writing? && j.world.proc.rest == [] then Emitted(j.run, wire.view(j.world.proc.event)) else j.run
  }

  function Cut<W>(wire: Wire<W>, j: Joint<W>): Option<seq<Writer.Move>> {
    Also(Visible(wire, j), Die)
  }

  function Do<W>(wire: Wire<W>, j: Joint<W>, m: L.Move<W>): Joint<W>
    requires L.Can(j.world, m)
  {
    Joint(L.Do(wire.records, j.world, m), RunAfter(wire, j, m))
  }

  ghost predicate Step<W(!new)>(cfg: Config, wire: Wire<W>, j: Joint<W>, j': Joint<W>) {
    exists m :: Can(cfg, wire, j, m) && j' == Do(wire, j, m)
  }

  ghost predicate Follows<W(!new)>(cfg: Config, wire: Wire<W>, h: seq<Joint<W>>, i: int)
    requires 0 < i < |h|
  {
    Step(cfg, wire, h[i - 1], h[i])
  }

  ghost predicate History<W(!new)>(cfg: Config, wire: Wire<W>, h: seq<Joint<W>>) {
    && WellFormed(cfg) && h != [] && h[0] == Joint(L.World([], [], L.Free), None)
    && forall i :: 0 < i < |h| ==> Follows(cfg, wire, h, i)
  }

  function Worlds<W>(h: seq<Joint<W>>): (w: seq<L.World<W>>)
    ensures |w| == |h| && forall i :: 0 <= i < |h| ==> w[i] == h[i].world
  {
    seq(|h|, i requires 0 <= i < |h| => h[i].world)
  }

  lemma WorldsAreAHistory<W(!new)>(cfg: Config, wire: Wire<W>, h: seq<Joint<W>>)
    requires History(cfg, wire, h)
    ensures L.History(wire.records, Worlds(h))
  {
    forall i | 0 < i < |h| ensures L.Follows(wire.records, Worlds(h), i) {
      assert Follows(cfg, wire, h, i);
    }
  }

  // ------------------------------------------------------------ the invariant

  ghost predicate Known(cfg: Config, run: Option<seq<Writer.Move>>) {
    run.Some? ==> ValidRun(cfg, run.value)
  }

  predicate Stopped(cfg: Config, run: Option<seq<Writer.Move>>) {
    run.Some? ==> After(cfg, run.value).mode.Down?
  }

  /// The run's log is what the writer knows to be in the file, and without a writer exactly what the file holds.
  ghost predicate Inv<W>(cfg: Config, wire: Wire<W>, j: Joint<W>) {
    && Known(cfg, j.run)
    && match j.world.proc
       case Ready => LogOf(cfg, j.run) == Seen(wire, j.world.acked)
       case Writing(w, _) => LogOf(cfg, j.run) == Seen(wire, j.world.acked) && Drives(cfg, j.run, wire.view(w))
       case _ => LogOf(cfg, j.run) == Seen(wire, L.Committed(wire.records, j.world.bytes)) && Stopped(cfg, j.run)
  }

  lemma SeenOneMore<W>(wire: Wire<W>, records: seq<W>, w: W)
    ensures Seen(wire, records + [w]) == Seen(wire, records) + [wire.view(w)]
  {
  }

  lemma EmittedIsARun(cfg: Config, run: Option<seq<Writer.Move>>, e: Event)
    requires WellFormed(cfg) && Known(cfg, run) && Drives(cfg, run, e)
    ensures Known(cfg, Emitted(run, e)) && LogOf(cfg, Emitted(run, e)) == LogOf(cfg, run) + [e]
  {
    if run.Some? {
      Spending.ExtendRun(cfg, run.value, Emit(e));
    }
  }

  lemma DeadIsARun(cfg: Config, run: Option<seq<Writer.Move>>)
    requires WellFormed(cfg) && Known(cfg, run)
    ensures Known(cfg, Also(run, Die)) && LogOf(cfg, Also(run, Die)) == LogOf(cfg, run) && Stopped(cfg, Also(run, Die))
  {
    if run.Some? {
      Spending.ExtendRun(cfg, run.value, Die);
    }
  }

  lemma BootedIsARun(cfg: Config, run: Option<seq<Writer.Move>>)
    requires WellFormed(cfg) && Known(cfg, run) && Stopped(cfg, run)
    ensures Known(cfg, Also(run, Boot)) && LogOf(cfg, Also(run, Boot)) == LogOf(cfg, run)
  {
    if run.Some? {
      Spending.ExtendRun(cfg, run.value, Boot);
    }
  }

  /// What the file holds is the log of the visible run.
  lemma VisibleIsHeld<W(!new)>(cfg: Config, wire: Wire<W>, j: Joint<W>)
    requires WellFormed(cfg) && Sound(wire.records) && L.Inv(wire.records, j.world) && Inv(cfg, wire, j)
    ensures Known(cfg, Visible(wire, j))
    ensures LogOf(cfg, Visible(wire, j)) == Seen(wire, L.Committed(wire.records, j.world.bytes))
  {
    L.InvReads(wire.records, j.world);
    if j.world.proc.Writing? && j.world.proc.rest == [] {
      EmittedIsARun(cfg, j.run, wire.view(j.world.proc.event));
      SeenOneMore(wire, j.world.acked, j.world.proc.event);
    }
  }

  /// Whatever a process was doing when it stopped, the run has exactly the events the file has.
  lemma CutKeeps<W(!new)>(cfg: Config, wire: Wire<W>, j: Joint<W>)
    requires WellFormed(cfg) && Sound(wire.records) && L.Inv(wire.records, j.world) && Inv(cfg, wire, j)
    ensures Known(cfg, Cut(wire, j)) && Stopped(cfg, Cut(wire, j))
    ensures LogOf(cfg, Cut(wire, j)) == Seen(wire, L.Committed(wire.records, j.world.bytes))
  {
    VisibleIsHeld(cfg, wire, j);
    DeadIsARun(cfg, Visible(wire, j));
  }

  lemma StepKeeps<W(!new)>(cfg: Config, wire: Wire<W>, j: Joint<W>, m: L.Move<W>)
    requires WellFormed(cfg) && Sound(wire.records) && L.Inv(wire.records, j.world) && Inv(cfg, wire, j) && Can(cfg, wire, j, m)
    ensures Inv(cfg, wire, Do(wire, j, m))
  {
    match m
    case Ack =>
      EmittedIsARun(cfg, j.run, wire.view(j.world.proc.event));
      SeenOneMore(wire, j.world.acked, j.world.proc.event);
    case Fail => CutKeeps(cfg, wire, j);
    case Quit => CutKeeps(cfg, wire, j);
    case OpenLog => BootedIsARun(cfg, j.run);
    case _ =>
  }

  lemma {:induction false} HistoryKeeps<W(!new)>(cfg: Config, wire: Wire<W>, h: seq<Joint<W>>, i: nat)
    requires Sound(wire.records) && History(cfg, wire, h) && i < |h|
    ensures L.Inv(wire.records, h[i].world) && Inv(cfg, wire, h[i])
  {
    WorldKeeps(cfg, wire, h, i);
    if i == 0 {
      NothingIsKept(cfg, wire);
    } else {
      HistoryKeeps(cfg, wire, h, i - 1);
      FollowerKeeps(cfg, wire, h, i);
    }
  }

  lemma NothingIsKept<W(!new)>(cfg: Config, wire: Wire<W>)
    requires Sound(wire.records)
    ensures Inv(cfg, wire, Joint(L.World([], [], L.Free), None))
  {
    assert EncodeAll(wire.records, []) == [];
    L.InvReads(wire.records, L.World([], [], L.Free));
  }

  lemma WorldKeeps<W(!new)>(cfg: Config, wire: Wire<W>, h: seq<Joint<W>>, i: nat)
    requires Sound(wire.records) && History(cfg, wire, h) && i < |h|
    ensures L.Inv(wire.records, h[i].world)
  {
    WorldsAreAHistory(cfg, wire, h);
    L.HistoryKeeps(wire.records, Worlds(h), i);
  }

  lemma FollowerKeeps<W(!new)>(cfg: Config, wire: Wire<W>, h: seq<Joint<W>>, i: nat)
    requires Sound(wire.records) && History(cfg, wire, h) && 0 < i < |h|
    requires L.Inv(wire.records, h[i - 1].world) && Inv(cfg, wire, h[i - 1])
    ensures Inv(cfg, wire, h[i])
  {
    assert Follows(cfg, wire, h, i);
    NextKeeps(cfg, wire, h[i - 1], h[i]);
  }

  lemma NextKeeps<W(!new)>(cfg: Config, wire: Wire<W>, j: Joint<W>, j': Joint<W>)
    requires WellFormed(cfg) && Sound(wire.records) && L.Inv(wire.records, j.world) && Inv(cfg, wire, j) && Step(cfg, wire, j, j')
    ensures Inv(cfg, wire, j')
  {
    var m :| Can(cfg, wire, j, m) && j' == Do(wire, j, m);
    StepKeeps(cfg, wire, j, m);
  }

  // ------------------------------------------------------ what a reader finds

  /// These events are the whole log of some run, which every reader accepts and whose fold is a state a run can be in.
  ghost predicate LogOfARun(cfg: Config, events: seq<Event>, run: seq<Writer.Move>) {
    && ValidRun(cfg, run) && After(cfg, run).log == events
    && Runs.Inv(cfg, After(cfg, run)) && After(cfg, run).state == Fold(NewState(Ids(cfg)), events)
    && Schema.StartedOf(events) == Some(cfg.header) && Schema.Accepted(cfg.header, events)
  }

  lemma {:induction false} OpensWithItsHeader(cfg: Config, run: seq<Writer.Move>)
    ensures After(cfg, run).log != [] && After(cfg, run).log[0] == RunStarted(cfg.header)
  {
    if run != [] {
      OpensWithItsHeader(cfg, run[..|run| - 1]);
    }
  }

  lemma RunsLog(cfg: Config, run: seq<Writer.Move>)
    requires ValidRun(cfg, run)
    ensures LogOfARun(cfg, After(cfg, run).log, run)
  {
    Runs.RunKeeps(cfg, run);
    Spending.LiveEqualsReplay(cfg, run);
    Histories.EveryLogIsAccepted(cfg, run);
    OpensWithItsHeader(cfg, run);
  }

  /// These bytes read, as nothing or as the log of this run.
  ghost predicate Shows(cfg: Config, c: Codec<Event>, bytes: seq<byte>, run: Option<seq<Writer.Move>>) {
    && Parse(c, bytes).Ok?
    && var events := Parse(c, bytes).value.events;
    if run.None? then events == [] else LogOfARun(cfg, events, run.value)
  }

  /// At every instant, mid-append and mid-crash, the committed events are nothing or the log of a run of the engine.
  lemma CommittedIsARun<W(!new)>(cfg: Config, wire: Wire<W>, c: Codec<Event>, h: seq<Joint<W>>, i: nat)
    requires Sound(wire.records) && Speaks(wire, c) && History(cfg, wire, h) && i < |h|
    ensures Shows(cfg, c, h[i].world.bytes, Visible(wire, h[i]))
  {
    HistoryKeeps(cfg, wire, h, i);
    VisibleIsHeld(cfg, wire, h[i]);
    L.InvReads(wire.records, h[i].world);
    ParseIsSeen(wire, c, h[i].world.bytes);
    if Visible(wire, h[i]).Some? {
      RunsLog(cfg, Visible(wire, h[i]).value);
    }
  }

  // ------------------------------------------------------------------ status

  /// What a status reader makes of a snapshot holds of instant i: its bytes read as the log of the run visible then.
  /// "Held" reports the run's own state. "Not held" reports it settled, and no engine was at work then.
  ghost predicate StatusAt<W>(cfg: Config, wire: Wire<W>, c: Codec<Event>, h: seq<Joint<W>>, i: nat, snap: Snapshot.Snap) {
    && i < |h|
    && var run := Visible(wire, h[i]);
    && Shows(cfg, c, snap.bytes, run)
    && (!snap.held ==> h[i].world.proc.Free? && Stopped(cfg, run))
    && (run.Some? ==>
          var s := After(cfg, run.value).state;
          Snapshot.Loaded(Parse(c, snap.bytes).value.events, Ids(cfg), snap.held) ==
            if snap.held then s else Fold(s, RunState.Interruptions(s, |s.taskIds|)))
  }

  lemma HeldIsARun<W(!new)>(cfg: Config, wire: Wire<W>, c: Codec<Event>, h: seq<Joint<W>>, i: nat)
    requires Sound(wire.records) && Speaks(wire, c) && History(cfg, wire, h) && i < |h|
    ensures StatusAt(cfg, wire, c, h, i, Snapshot.Snap(h[i].world.bytes, true))
  {
    CommittedIsARun(cfg, wire, c, h, i);
    if Visible(wire, h[i]).Some? {
      Snapshot.HeldRunsAreNeverSettled(cfg, Visible(wire, h[i]).value);
    }
  }

  lemma NotHeldIsDead<W(!new)>(cfg: Config, wire: Wire<W>, c: Codec<Event>, h: seq<Joint<W>>, i: nat, bytes: seq<byte>)
    requires Sound(wire.records) && Speaks(wire, c) && History(cfg, wire, h)
    requires Snapshot.TrueAt(wire.records, Worlds(h), i, bytes)
    ensures StatusAt(cfg, wire, c, h, i, Snapshot.Snap(bytes, false))
  {
    CommittedIsARun(cfg, wire, c, h, i);
    HistoryKeeps(cfg, wire, h, i);
    ParseIsSeen(wire, c, bytes);
    ParseIsSeen(wire, c, h[i].world.bytes);
  }

  /// Status over a live system, both answers, and when they are true: at one of the observations the call itself made.
  /// "Held": the report is a run's own state, unsettled. "Not held": no engine ran at that instant and the log was
  /// exactly this, so what the report settles was dead then. Either way the log is one the schema check accepts, or it
  /// is empty.
  lemma StatusNeverSettlesALiveAttempt<W(!new), X(!new)>(
    cfg: Config, wire: Wire<W>, c: Codec<Event>, h: seq<Joint<W>>, at: nat -> nat, held: nat -> bool,
    read: nat -> Result<seq<byte>, X>, k: nat, rounds: nat)
    requires Sound(wire.records) && Speaks(wire, c) && History(cfg, wire, h) && Snapshot.Observes(Worlds(h), at, held, read)
    ensures
      var r := Snapshot.Stable(held, read, k, rounds);
      r.Ok? ==> exists o: nat :: k < o < k + 5 * rounds && StatusAt(cfg, wire, c, h, at(o), r.value)
  {
    var r := Snapshot.Stable(held, read, k, rounds);
    if r.Ok? {
      var round := Snapshot.DecidingRound(held, read, k, rounds);
      if r.value.held {
        HeldIsARun(cfg, wire, c, h, at(round + 1));
        assert h[at(round + 1)].world.bytes == r.value.bytes;
      } else {
        WorldsAreAHistory(cfg, wire, h);
        Snapshot.RoundIsTrue(wire.records, Worlds(h), at, held, read, round, r.value.bytes);
        NotHeldIsDead(cfg, wire, c, h, at(round + 2), r.value.bytes);
      }
    }
  }

  /// Status of a log of the engine is refused only over its name or its plan: `load` succeeds if and only if the run
  /// asked for is the one that started, and the frozen plan has the bytes and comes from the document it recorded.
  lemma RunsAreLoaded<X(!new)>(
    cfg: Config, c: Codec<Event>, snap: Snapshot.Snap, run: seq<Writer.Move>, runId: string, plan: Result<Snapshot.PlanFile, X>)
    requires Shows(cfg, c, snap.bytes, Some(run))
    ensures Snapshot.Loadable(c, Ok(snap), runId, plan) <==>
      && runId == cfg.header.runId && plan.Ok?
      && cfg.header.normalizedPlanDigest == Some(plan.value.digest)
      && plan.value.plan.Some? && plan.value.plan.value.sourceHash == cfg.header.planHash
  {
    var log := Parse(c, snap.bytes).value.events;
    OpensWithItsHeader(cfg, run);
    Histories.EveryLogIsAccepted(cfg, run);
    Histories.AlwaysThree(cfg, log, |log|);
    assert Schema.RecordedDigest(log) == cfg.header.normalizedPlanDigest;
  }

  // -------------------------------------------------- every run can be lived

  function FirstAt(log: seq<Event>, e: Event): (r: nat)
    requires e in log
    ensures r < |log| && log[r] == e
  {
    if log[0] == e then 0 else FirstAt(log[1..], e) + 1
  }

  /// Records for the events of one log: their positions in it.
  function Positions(log: seq<Event>): Wire<nat>
    requires log != []
  {
    Wire(TALLY, (n: nat) => if n < |log| then log[n] else log[0])
  }

  function PositionCodec(log: seq<Event>): Codec<Event>
    requires log != []
  {
    Codec(e => if e in log then Marks(FirstAt(log, e)) else [],
          line => ViewOf(Positions(log), CountMarks(line)), TALLY.utf8, TALLY.blank)
  }

  lemma PositionsSpeak(log: seq<Event>)
    requires log != []
    ensures Sound(Positions(log).records) && Speaks(Positions(log), PositionCodec(log))
    ensures forall e :: e in log ==> PositionCodec(log).decode(PositionCodec(log).encode(e)) == Some(e)
  {
    SomeFormatIsSound();
    var wire, c := Positions(log), PositionCodec(log);
    forall e | c.decode(c.encode(e)).Some? ensures exists w :: wire.records.encode(w) == c.encode(e) {
      assert wire.records.encode(FirstAt(log, e)) == c.encode(e);
    }
    forall e | e in log ensures c.decode(c.encode(e)) == Some(e) {
      assert TALLY.decode(TALLY.encode(FirstAt(log, e))) == Some(FirstAt(log, e));
    }
  }

  /// A history whose last instant is an engine between appends, or none, and this run so far.
  ghost predicate Lives<W(!new)>(cfg: Config, wire: Wire<W>, h: seq<Joint<W>>, sys: Writer.Sys) {
    && History(cfg, wire, h)
    && var last := h[|h| - 1];
    && (last.world.proc.Ready? || last.world.proc.Free?)
    && last.run.Some? && After(cfg, last.run.value) == sys
  }

  lemma Onward<W(!new)>(cfg: Config, wire: Wire<W>, h: seq<Joint<W>>, m: L.Move<W>) returns (h': seq<Joint<W>>)
    requires History(cfg, wire, h) && Can(cfg, wire, h[|h| - 1], m)
    ensures h' == h + [Do(wire, h[|h| - 1], m)] && History(cfg, wire, h')
  {
    h' := h + [Do(wire, h[|h| - 1], m)];
    forall i | 0 < i < |h'| ensures Follows(cfg, wire, h', i) {
      assert i < |h| ==> Follows(cfg, wire, h, i);
    }
  }

  lemma AlsoDoes(cfg: Config, run: seq<Writer.Move>, m: Writer.Move)
    ensures After(cfg, run + [m]) == Writer.Do(After(cfg, run), m)
  {
    assert (run + [m])[..|run|] == run;
  }

  lemma LiveAppend<W(!new)>(cfg: Config, wire: Wire<W>, h: seq<Joint<W>>, w: W) returns (h': seq<Joint<W>>)
    requires History(cfg, wire, h) && h[|h| - 1].world.proc.Ready? && Drives(cfg, h[|h| - 1].run, wire.view(w))
    ensures History(cfg, wire, h') && h'[|h'| - 1].world.proc.Ready?
    ensures h'[|h'| - 1].run == Emitted(h[|h| - 1].run, wire.view(w))
  {
    h' := Onward(cfg, wire, h, L.Begin(w));
    h' := Onward(cfg, wire, h', L.Write(|Line(wire.records, w)|));
    h' := Onward(cfg, wire, h', L.Ack);
  }

  lemma LiveDeath<W(!new)>(cfg: Config, wire: Wire<W>, h: seq<Joint<W>>, sys: Writer.Sys) returns (h': seq<Joint<W>>)
    requires Sound(wire.records) && Lives(cfg, wire, h, sys)
    ensures Lives(cfg, wire, h', Writer.Do(sys, Die)) && h'[|h'| - 1].world.proc.Free?
  {
    h' := h;
    if h[|h| - 1].world.proc.Ready? {
      h' := Onward(cfg, wire, h, L.Quit);
      AlsoDoes(cfg, h[|h| - 1].run.value, Die);
    } else {
      HistoryKeeps(cfg, wire, h, |h| - 1);
    }
  }

  lemma LiveBoot<W(!new)>(cfg: Config, wire: Wire<W>, h: seq<Joint<W>>, sys: Writer.Sys) returns (h': seq<Joint<W>>)
    requires Sound(wire.records) && Lives(cfg, wire, h, sys) && sys.mode.Down?
    ensures Lives(cfg, wire, h', Writer.Do(sys, Boot))
  {
    h' := LiveDeath(cfg, wire, h, sys);
    AlsoDoes(cfg, h'[|h'| - 1].run.value, Boot);
    h' := Onward(cfg, wire, h', L.Acquire);
    h' := Onward(cfg, wire, h', L.OpenLog);
  }

  lemma EngineIsUp<W(!new)>(cfg: Config, wire: Wire<W>, h: seq<Joint<W>>, sys: Writer.Sys)
    requires Sound(wire.records) && Lives(cfg, wire, h, sys) && !sys.mode.Down?
    ensures h[|h| - 1].world.proc.Ready?
  {
    HistoryKeeps(cfg, wire, h, |h| - 1);
  }

  lemma LiveEmit<W(!new)>(cfg: Config, wire: Wire<W>, h: seq<Joint<W>>, sys: Writer.Sys, e: Event, w: W)
    returns (h': seq<Joint<W>>)
    requires Sound(wire.records) && Lives(cfg, wire, h, sys) && |sys.state.taskIds| == |cfg.header.chains|
    requires sys.state.Aligned() && Legal(cfg, sys, Emit(e)) && wire.view(w) == e
    ensures Lives(cfg, wire, h', Writer.Do(sys, Emit(e)))
  {
    EngineIsUp(cfg, wire, h, sys);
    AlsoDoes(cfg, h[|h| - 1].run.value, Emit(e));
    h' := LiveAppend(cfg, wire, h, w);
  }

  lemma LiveMove<W(!new)>(cfg: Config, wire: Wire<W>, h: seq<Joint<W>>, sys: Writer.Sys, m: Writer.Move, w: W)
    returns (h': seq<Joint<W>>)
    requires Sound(wire.records) && Lives(cfg, wire, h, sys) && |sys.state.taskIds| == |cfg.header.chains|
    requires sys.state.Aligned() && Legal(cfg, sys, m) && (m.Emit? ==> wire.view(w) == m.e)
    ensures Lives(cfg, wire, h', Writer.Do(sys, m))
  {
    match m
    case Emit(e) => h' := LiveEmit(cfg, wire, h, sys, e, w);
    case Die => h' := LiveDeath(cfg, wire, h, sys);
    case Boot => h' := LiveBoot(cfg, wire, h, sys);
  }

  lemma FirstAppend<W(!new)>(cfg: Config, wire: Wire<W>, w: W) returns (h: seq<Joint<W>>)
    requires WellFormed(cfg) && wire.view(w) == RunStarted(cfg.header)
    ensures Lives(cfg, wire, h, After(cfg, []))
  {
    h := [Joint(L.World([], [], L.Free), None)];
    h := Onward(cfg, wire, h, L.Acquire);
    h := Onward(cfg, wire, h, L.OpenLog);
    h := LiveAppend(cfg, wire, h, w);
  }

  /// What is in the log by the m-th move is still there, in place, at the end.
  lemma {:induction false} LogOnlyGrows(cfg: Config, moves: seq<Writer.Move>, m: nat)
    requires m <= |moves|
    ensures After(cfg, moves[..m]).log <= After(cfg, moves).log
    decreases |moves|
  {
    if m < |moves| {
      var before := moves[..|moves| - 1];
      LogOnlyGrows(cfg, before, m);
      assert before[..m] == moves[..m];
    } else {
      assert moves[..m] == moves;
    }
  }

  lemma {:induction false} LivedUpTo(cfg: Config, moves: seq<Writer.Move>, m: nat) returns (h: seq<Joint<nat>>)
    requires ValidRun(cfg, moves) && m <= |moves| && After(cfg, moves).log != []
    ensures Lives(cfg, Positions(After(cfg, moves).log), h, After(cfg, moves[..m]))
  {
    var wire := Positions(After(cfg, moves).log);
    if m == 0 {
      LogOnlyGrows(cfg, moves, 0);
      OpensWithItsHeader(cfg, []);
      h := FirstAppend(cfg, wire, 0);
    } else {
      h := LivedUpTo(cfg, moves, m - 1);
      SomeFormatIsSound();
      NextRecord(cfg, moves, m);
      h := LiveMove(cfg, wire, h, After(cfg, moves[..m - 1]), moves[m - 1], |After(cfg, moves[..m - 1]).log|);
    }
  }

  lemma NextRecord(cfg: Config, moves: seq<Writer.Move>, m: nat)
    requires ValidRun(cfg, moves) && 0 < m <= |moves|
    ensures
      var sys, log := After(cfg, moves[..m - 1]), After(cfg, moves).log;
      && Legal(cfg, sys, moves[m - 1]) && After(cfg, moves[..m]) == Writer.Do(sys, moves[m - 1])
      && (moves[m - 1].Emit? ==> |sys.log| < |log| && log[|sys.log|] == moves[m - 1].e)
  {
    var before := moves[..m - 1];
    assert Legal(cfg, After(cfg, before), moves[m - 1]);
    AlsoDoes(cfg, before, moves[m - 1]);
    assert moves[..m] == before + [moves[m - 1]];
    LogOnlyGrows(cfg, moves, m);
  }

  /// The converse, and with it a witness for everything the results above ask: for every run of the writer, deaths and
  /// resumes included, there is a wire whose records survive, a codec of events that speaks it, and a history of the
  /// file at whose end the log is the run's and the engine is where the run left it.
  lemma EveryRunCanBeLived(cfg: Config, moves: seq<Writer.Move>)
    returns (wire: Wire<nat>, c: Codec<Event>, h: seq<Joint<nat>>)
    requires ValidRun(cfg, moves)
    ensures Sound(wire.records) && Speaks(wire, c) && Lives(cfg, wire, h, After(cfg, moves))
    ensures forall e :: e in After(cfg, moves).log ==> c.decode(c.encode(e)) == Some(e)
    ensures Parse(c, h[|h| - 1].world.bytes).Ok? && Parse(c, h[|h| - 1].world.bytes).value.events == After(cfg, moves).log
  {
    OpensWithItsHeader(cfg, moves);
    var log := After(cfg, moves).log;
    wire, c := Positions(log), PositionCodec(log);
    PositionsSpeak(log);
    h := LivedUpTo(cfg, moves, |moves|);
    assert moves[..|moves|] == moves;
    LivesShow(cfg, wire, c, h, After(cfg, moves));
  }

  lemma LivesShow<W(!new)>(cfg: Config, wire: Wire<W>, c: Codec<Event>, h: seq<Joint<W>>, sys: Writer.Sys)
    requires Sound(wire.records) && Speaks(wire, c) && Lives(cfg, wire, h, sys)
    ensures Parse(c, h[|h| - 1].world.bytes).Ok? && Parse(c, h[|h| - 1].world.bytes).value.events == sys.log
  {
    CommittedIsARun(cfg, wire, c, h, |h| - 1);
    ShowsItsLog(cfg, c, h[|h| - 1].world.bytes, h[|h| - 1].run.value);
  }

  lemma ShowsItsLog(cfg: Config, c: Codec<Event>, bytes: seq<byte>, run: seq<Writer.Move>)
    requires Shows(cfg, c, bytes, Some(run))
    ensures Parse(c, bytes).Ok? && Parse(c, bytes).value.events == After(cfg, run).log
  {
  }
}
