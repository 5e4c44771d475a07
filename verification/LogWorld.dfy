// The log file as a machine of single steps: a process takes the run lock, opens the log, appends byte by byte,
// and may die between any two steps (src/events.rs:1502-1585; src/rundir.rs:436-519 says who may write).
module LogWorld {
  import opened Prelude
  import opened EventLog

  /// What the process that may write is doing. `Writing` keeps the bytes of the line still to be written.
  datatype Proc<E> = Free | Locked | Ready | Writing(event: E, rest: seq<byte>)

  /// `acked` is what the writer has been told is in the log: what it read on opening, and every append that returned.
  datatype World<E> = World(bytes: seq<byte>, acked: seq<E>, proc: Proc<E>)

  datatype Move<E> = Acquire | OpenLog | Begin(event: E) | Write(count: nat) | Ack | Fail | Quit

  function Committed<E>(c: Codec<E>, bytes: seq<byte>): seq<E> {
    match Parse(c, bytes) case Ok(p) => p.events case Err(_) => []
  }

  predicate Can<E>(w: World<E>, m: Move<E>) {
    match m
    case Acquire => w.proc.Free?
    case OpenLog => w.proc.Locked?
    case Begin(_) => w.proc.Ready?
    case Write(count) => w.proc.Writing? && 0 < count <= |w.proc.rest|
    case Ack => w.proc.Writing? && w.proc.rest == []
    case Fail => w.proc.Writing?
    case Quit => !w.proc.Free?
  }

  function Do<E>(c: Codec<E>, w: World<E>, m: Move<E>): World<E>
    requires Can(w, m)
  {
    match m
    case Acquire => w.(proc := Locked)
    case OpenLog => World(Repaired(w.bytes), Committed(c, w.bytes), Ready)
    case Begin(e) => w.(proc := Writing(e, Line(c, e)))
    case Write(count) =>
      w.(bytes := w.bytes + w.proc.rest[..count], proc := Writing(w.proc.event, w.proc.rest[count..]))
    case Ack => w.(acked := w.acked + [w.proc.event], proc := Ready)
    // An append that returned an error leaves a handle nobody may use again: the log is reopened.
    case Fail => w.(proc := Locked)
    case Quit => w.(proc := Free)
  }

  ghost predicate Step<E(!new)>(c: Codec<E>, w: World<E>, w': World<E>) {
    exists m :: Can(w, m) && Do(c, w, m) == w'
  }

  ghost predicate Follows<E(!new)>(c: Codec<E>, h: seq<World<E>>, i: int)
    requires 0 < i < |h|
  {
    Step(c, h[i - 1], h[i])
  }

  /// Every world a run goes through, from the empty file.
  ghost predicate History<E(!new)>(c: Codec<E>, h: seq<World<E>>) {
    && h != [] && h[0] == World([], [], Free)
    && forall i :: 0 < i < |h| ==> Follows(c, h, i)
  }

  // ------------------------------------------------------------ the invariant

  /// The first `n` bytes of one line follow the acknowledged ones.
  ghost predicate InFlight<E>(c: Codec<E>, w: World<E>, e: E, n: nat) {
    n <= |Line(c, e)| && w.bytes == EncodeAll(c, w.acked) + Line(c, e)[..n]
  }

  ghost predicate Inv<E(!new)>(c: Codec<E>, w: World<E>) {
    match w.proc
    case Ready => w.bytes == EncodeAll(c, w.acked)
    case Writing(e, rest) =>
      var n := |Line(c, e)| - |rest|;
      n >= 0 && InFlight(c, w, e, n) && rest == Line(c, e)[n..]
    case _ => w.bytes == EncodeAll(c, w.acked) || exists e, n: nat :: InFlight(c, w, e, n)
  }

  /// A line counts exactly when its newline is there.
  lemma WhatIsRead<E(!new)>(c: Codec<E>, w: World<E>, e: E, n: nat)
    requires Sound(c) && InFlight(c, w, e, n)
    ensures Parse(c, w.bytes) ==
      if n == |Line(c, e)| then Ok(Parsed(w.acked + [e], false)) else Ok(Parsed(w.acked, n > 0))
    ensures n == |Line(c, e)| ==> w.bytes == EncodeAll(c, w.acked + [e])
    ensures Repaired(w.bytes) == EncodeAll(c, Committed(c, w.bytes))
  {
    var partial := Line(c, e)[..n];
    if n == |Line(c, e)| {
      assert partial == Line(c, e) == EncodeAll(c, [e]);
      EncodeAllConcat(c, w.acked, [e]);
      NothingTorn(c, w.bytes, w.acked + [e]);
    } else {
      assert forall k :: 0 <= k < n ==> partial[k] == c.encode(e)[k];
      ParseRoundTrip(c, w.acked, partial);
      EncodeAllEnds(c, w.acked);
      EndOfCommitted(EncodeAll(c, w.acked), partial);
    }
  }

  lemma NothingTorn<E(!new)>(c: Codec<E>, bytes: seq<byte>, events: seq<E>)
    requires Sound(c) && bytes == EncodeAll(c, events)
    ensures Parse(c, bytes) == Ok(Parsed(events, false)) && Repaired(bytes) == bytes
  {
    assert bytes + [] == bytes;
    ParseRoundTrip(c, events, []);
    EncodeAllEnds(c, events);
    EndOfCommitted(bytes, []);
  }

  /// What the invariant says of a reader: the acknowledged events, or those and the one in flight.
  lemma InvReads<E(!new)>(c: Codec<E>, w: World<E>)
    requires Sound(c) && Inv(c, w)
    ensures Parse(c, w.bytes).Ok? && Repaired(w.bytes) == EncodeAll(c, Committed(c, w.bytes))
    ensures w.acked <= Committed(c, w.bytes) && |Committed(c, w.bytes)| <= |w.acked| + 1
    ensures w.proc.Ready? ==> Parse(c, w.bytes) == Ok(Parsed(w.acked, false))
    ensures w.proc.Writing? ==>
      Parse(c, w.bytes).value.events == if w.proc.rest == [] then w.acked + [w.proc.event] else w.acked
  {
    if w.bytes == EncodeAll(c, w.acked) && !w.proc.Writing? {
      NothingTorn(c, w.bytes, w.acked);
    } else if w.proc.Writing? {
      WhatIsRead(c, w, w.proc.event, |Line(c, w.proc.event)| - |w.proc.rest|);
    } else {
      var e, n: nat :| InFlight(c, w, e, n);
      WhatIsRead(c, w, e, n);
    }
  }

  lemma BeginKeeps<E(!new)>(c: Codec<E>, w: World<E>, e: E)
    requires Sound(c) && Inv(c, w) && w.proc.Ready?
    ensures Inv(c, Do(c, w, Begin(e)))
  {
    assert Line(c, e)[..0] == [] && Line(c, e)[0..] == Line(c, e) && w.bytes + [] == w.bytes;
  }

  lemma WriteContinues<E(!new)>(c: Codec<E>, w: World<E>, count: nat)
    requires Inv(c, w) && Can(w, Write(count))
    ensures
      var line, w' := Line(c, w.proc.event), Do(c, w, Write(count));
      && |w.proc.rest| <= |line| && InFlight(c, w', w.proc.event, |line| - |w.proc.rest| + count)
      && w'.proc.rest == line[|line| - |w.proc.rest| + count..]
  {
    var line := Line(c, w.proc.event);
    var n := |line| - |w.proc.rest|;
    assert line[..n] + line[n..][..count] == line[..n + count] && line[n..][count..] == line[n + count..];
    var a := EncodeAll(c, w.acked);
    assert a + line[..n] + line[n..][..count] == a + (line[..n] + line[n..][..count]);
  }

  lemma WriteKeeps<E(!new)>(c: Codec<E>, w: World<E>, count: nat)
    requires Sound(c) && Inv(c, w) && Can(w, Write(count))
    ensures Inv(c, Do(c, w, Write(count))) && Committed(c, w.bytes) <= Committed(c, Do(c, w, Write(count)).bytes)
  {
    WriteIsStillInFlight(c, w, count);
    InvReads(c, w);
    InvReads(c, Do(c, w, Write(count)));
    assert Parse(c, w.bytes).value.events == w.acked;
  }

  lemma WriteIsStillInFlight<E(!new)>(c: Codec<E>, w: World<E>, count: nat)
    requires Inv(c, w) && Can(w, Write(count))
    ensures Inv(c, Do(c, w, Write(count)))
  {
    WriteContinues(c, w, count);
  }

  lemma AckKeeps<E(!new)>(c: Codec<E>, w: World<E>)
    requires Sound(c) && Inv(c, w) && Can(w, Ack)
    ensures Inv(c, Do(c, w, Ack))
  {
    WhatIsRead(c, w, w.proc.event, |Line(c, w.proc.event)|);
  }

  lemma LeaveKeeps<E(!new)>(c: Codec<E>, w: World<E>)
    requires Sound(c) && Inv(c, w)
    ensures Inv(c, w.(proc := Free)) && Inv(c, w.(proc := Locked))
  {
    if w.proc.Writing? {
      assert InFlight(c, w.(proc := Free), w.proc.event, |Line(c, w.proc.event)| - |w.proc.rest|);
      assert InFlight(c, w.(proc := Locked), w.proc.event, |Line(c, w.proc.event)| - |w.proc.rest|);
    } else if w.bytes != EncodeAll(c, w.acked) {
      var e, n: nat :| InFlight(c, w, e, n);
      assert InFlight(c, w.(proc := Free), e, n) && InFlight(c, w.(proc := Locked), e, n);
    }
  }

  lemma StepKeeps<E(!new)>(c: Codec<E>, w: World<E>, m: Move<E>)
    requires Sound(c) && Inv(c, w) && Can(w, m)
    ensures Inv(c, Do(c, w, m)) && Committed(c, w.bytes) <= Committed(c, Do(c, w, m).bytes)
  {
    match m
    case OpenLog =>
      InvReads(c, w);
      NothingTorn(c, Repaired(w.bytes), Committed(c, w.bytes));
    case Begin(e) => BeginKeeps(c, w, e);
    case Write(count) => WriteKeeps(c, w, count);
    case Ack => AckKeeps(c, w);
    case _ => LeaveKeeps(c, w);
  }

  /// `append` in single steps: whatever part of the line reached the file, the steps lead there, and only a whole line
  /// can be acknowledged.
  lemma AppendIsItsSteps<E>(c: Codec<E>, w: World<E>, e: E, n: nat)
    requires w.proc.Ready? && 0 < n <= |Line(c, e)|
    ensures
      var begun := Do(c, w, Begin(e));
      && Can(begun, Write(n))
      && var written := Do(c, begun, Write(n));
      && written.bytes == w.bytes + Reached(c, e, n)
      && Can(written, Fail) && Do(c, written, Fail) == World(w.bytes + Reached(c, e, n), w.acked, Locked)
      && (Can(written, Ack) <==> n == |Line(c, e)|)
      && (Can(written, Ack) ==> Do(c, written, Ack) == World(w.bytes + Line(c, e), w.acked + [e], Ready))
  {
    assert Line(c, e)[..|Line(c, e)|] == Line(c, e);
  }

  // ------------------------------------------------------------ whole runs

  lemma {:induction false} HistoryKeeps<E(!new)>(c: Codec<E>, h: seq<World<E>>, i: nat)
    requires Sound(c) && History(c, h) && i < |h|
    ensures Inv(c, h[i])
  {
    if i == 0 {
      assert EncodeAll(c, h[0].acked) == [];
    } else {
      HistoryKeeps(c, h, i - 1);
      assert Follows(c, h, i);
      var m :| Can(h[i - 1], m) && Do(c, h[i - 1], m) == h[i];
      StepKeeps(c, h[i - 1], m);
    }
  }

  /// The event whose append is in flight, or was cut off when the writer last stopped and not yet reopened.
  ghost function Pending<E>(h: seq<World<E>>, i: nat): Option<E>
    requires i < |h|
  {
    if h[i].proc.Writing? then Some(h[i].proc.event)
    else if h[i].proc.Ready? || i == 0 then None
    else Pending(h, i - 1)
  }

  /// What the file holds beyond the acknowledged events is the beginning of that one line, and nothing else.
  ghost predicate HoldsPending<E>(c: Codec<E>, h: seq<World<E>>, i: nat)
    requires i < |h|
  {
    match Pending(h, i)
    case None => h[i].bytes == EncodeAll(c, h[i].acked)
    case Some(e) => exists n: nat :: InFlight(c, h[i], e, n)
  }

  lemma PendingStep<E(!new)>(c: Codec<E>, h: seq<World<E>>, i: nat)
    requires Sound(c) && History(c, h) && 0 < i < |h| && HoldsPending(c, h, i - 1)
    ensures HoldsPending(c, h, i)
  {
    HistoryKeeps(c, h, i);
    assert Follows(c, h, i);
    if h[i].proc.Writing? {
      assert InFlight(c, h[i], h[i].proc.event, |Line(c, h[i].proc.event)| - |h[i].proc.rest|);
    } else if !h[i].proc.Ready? {
      assert h[i].bytes == h[i - 1].bytes && h[i].acked == h[i - 1].acked;
      if Pending(h, i - 1).Some? {
        var e := Pending(h, i - 1).value;
        var n: nat :| InFlight(c, h[i - 1], e, n);
        assert InFlight(c, h[i], e, n);
      }
    }
  }

  lemma {:induction false} PendingAlways<E(!new)>(c: Codec<E>, h: seq<World<E>>, i: nat)
    requires Sound(c) && History(c, h) && i < |h|
    ensures HoldsPending(c, h, i)
  {
    if i == 0 {
      assert EncodeAll(c, h[0].acked) == [];
    } else {
      PendingAlways(c, h, i - 1);
      PendingStep(c, h, i);
    }
  }

  /// Whatever was killed and whenever, a reader gets exactly the acknowledged events and at most the one whose append
  /// is in flight or was cut; and right after opening it gets exactly the acknowledged ones, with no torn tail.
  lemma CrashRefinement<E(!new)>(c: Codec<E>, h: seq<World<E>>, i: nat)
    requires Sound(c) && History(c, h) && i < |h|
    ensures
      && Parse(c, h[i].bytes).Ok?
      && var events := Parse(c, h[i].bytes).value.events;
      && (events == h[i].acked || (Pending(h, i).Some? && events == h[i].acked + [Pending(h, i).value]))
      && (h[i].proc.Ready? ==> Parse(c, h[i].bytes) == Ok(Parsed(h[i].acked, false)))
      && (h[i].proc.Writing? ==> events == if h[i].proc.rest == [] then h[i].acked + [h[i].proc.event] else h[i].acked)
  {
    HistoryKeeps(c, h, i);
    InvReads(c, h[i]);
    PendingAlways(c, h, i);
    match Pending(h, i)
    case None => NothingTorn(c, h[i].bytes, h[i].acked);
    case Some(e) =>
      var n: nat :| InFlight(c, h[i], e, n);
      WhatIsRead(c, h[i], e, n);
  }

  ghost predicate Begun<E>(h: seq<World<E>>, i: nat, e: E)
    requires i < |h|
  {
    exists j :: 0 <= j <= i && h[j].proc.Writing? && h[j].proc.event == e
  }

  lemma {:induction false} PendingWasBegun<E(!new)>(h: seq<World<E>>, i: nat)
    requires i < |h| && Pending(h, i).Some?
    ensures Begun(h, i, Pending(h, i).value)
  {
    if !h[i].proc.Writing? {
      PendingWasBegun(h, i - 1);
      BegunStays(h, i - 1, i, Pending(h, i).value);
    }
  }

  lemma BegunStays<E>(h: seq<World<E>>, i: nat, j: nat, e: E)
    requires i <= j < |h| && Begun(h, i, e)
    ensures Begun(h, j, e)
  {
    var k :| 0 <= k <= i && h[k].proc.Writing? && h[k].proc.event == e;
  }

  lemma CommittedWereBegun<E(!new)>(c: Codec<E>, h: seq<World<E>>, i: nat)
    requires Sound(c) && History(c, h) && i < |h|
    requires forall k :: 0 <= k < |h[i].acked| ==> Begun(h, i, h[i].acked[k])
    ensures forall k :: 0 <= k < |Committed(c, h[i].bytes)| ==> Begun(h, i, Committed(c, h[i].bytes)[k])
  {
    CrashRefinement(c, h, i);
    if Pending(h, i).Some? {
      PendingWasBegun(h, i);
    }
  }

  lemma AckedGrows<E(!new)>(c: Codec<E>, h: seq<World<E>>, i: nat)
    requires Sound(c) && History(c, h) && 0 < i < |h|
    ensures h[i].acked <= Committed(c, h[i - 1].bytes)
  {
    HistoryKeeps(c, h, i - 1);
    assert Follows(c, h, i);
    var m :| Can(h[i - 1], m) && Do(c, h[i - 1], m) == h[i];
    AckedAreRead(c, h[i - 1], m);
  }

  lemma AckedAreRead<E(!new)>(c: Codec<E>, w: World<E>, m: Move<E>)
    requires Sound(c) && Inv(c, w) && Can(w, m)
    ensures Do(c, w, m).acked <= Committed(c, w.bytes)
  {
    InvReads(c, w);
  }

  /// Nothing is made up: every event a reader gets was once appended by somebody.
  lemma {:induction false} OnlyBegunEvents<E(!new)>(c: Codec<E>, h: seq<World<E>>, i: nat)
    requires Sound(c) && History(c, h) && i < |h|
    ensures forall k :: 0 <= k < |h[i].acked| ==> Begun(h, i, h[i].acked[k])
    ensures forall k :: 0 <= k < |Committed(c, h[i].bytes)| ==> Begun(h, i, Committed(c, h[i].bytes)[k])
  {
    if i > 0 {
      OnlyBegunEvents(c, h, i - 1);
      AckedGrows(c, h, i);
      forall k | 0 <= k < |h[i].acked| ensures Begun(h, i, h[i].acked[k]) {
        BegunStays(h, i - 1, i, Committed(c, h[i - 1].bytes)[k]);
      }
    }
    CommittedWereBegun(c, h, i);
  }

  lemma NextKeeps<E(!new)>(c: Codec<E>, h: seq<World<E>>, i: nat)
    requires Sound(c) && History(c, h) && i + 1 < |h|
    ensures Committed(c, h[i].bytes) <= Committed(c, h[i + 1].bytes)
  {
    HistoryKeeps(c, h, i);
    assert Follows(c, h, i + 1);
    var m :| Can(h[i], m) && Do(c, h[i], m) == h[i + 1];
    StepKeeps(c, h[i], m);
  }

  /// The committed events at every instant of a history.
  ghost function CommittedAlong<E(!new)>(c: Codec<E>, h: seq<World<E>>): (r: seq<seq<E>>)
    ensures |r| == |h| && forall k :: 0 <= k < |h| ==> r[k] == Committed(c, h[k].bytes)
  {
    seq(|h|, k requires 0 <= k < |h| => Committed(c, h[k].bytes))
  }

  ghost predicate Grows<T>(xs: seq<seq<T>>, k: int)
    requires 0 < k < |xs|
  {
    xs[k - 1] <= xs[k]
  }

  lemma {:induction false} FirstStaysPrefix<T>(xs: seq<seq<T>>, i: nat, j: nat)
    requires i <= j < |xs| && forall k :: i < k <= j ==> Grows(xs, k)
    ensures xs[i] <= xs[j]
    decreases j - i
  {
    if i < j {
      FirstStaysPrefix(xs, i, j - 1);
      assert Grows(xs, j);
    }
  }

  lemma PrefixOfLater<E(!new)>(c: Codec<E>, h: seq<World<E>>, i: nat, j: nat)
    requires Sound(c) && History(c, h) && i <= j < |h|
    ensures Committed(c, h[i].bytes) <= Committed(c, h[j].bytes)
  {
    AlongGrows(c, h);
    FirstStaysPrefix(CommittedAlong(c, h), i, j);
  }

  lemma AlongGrows<E(!new)>(c: Codec<E>, h: seq<World<E>>)
    requires Sound(c) && History(c, h)
    ensures forall k :: 0 < k < |h| ==> Grows(CommittedAlong(c, h), k)
  {
    forall k | 0 < k < |h| ensures Grows(CommittedAlong(c, h), k) {
      AlongGrowsAt(c, h, k);
    }
  }

  lemma AlongGrowsAt<E(!new)>(c: Codec<E>, h: seq<World<E>>, k: nat)
    requires Sound(c) && History(c, h) && 0 < k < |h|
    ensures Grows(CommittedAlong(c, h), k)
  {
    NextKeeps(c, h, k - 1);
  }

  /// Nothing a reader has once been shown is ever taken back, and so nothing acknowledged is lost.
  lemma CommittedOnlyGrows<E(!new)>(c: Codec<E>, h: seq<World<E>>, i: nat, j: nat)
    requires Sound(c) && History(c, h) && i <= j < |h|
    ensures Committed(c, h[i].bytes) <= Committed(c, h[j].bytes)
    ensures h[i].acked <= Committed(c, h[j].bytes)
  {
    HistoryKeeps(c, h, i);
    InvReads(c, h[i]);
    PrefixOfLater(c, h, i, j);
  }

  /// Bytes and events tell the same story: the committed bytes are the encoding of the committed events.
  lemma CommittedIsEncoded<E(!new)>(c: Codec<E>, h: seq<World<E>>, i: nat)
    requires Sound(c) && History(c, h) && i < |h|
    ensures EncodeAll(c, Committed(c, h[i].bytes)) == Repaired(h[i].bytes)
  {
    HistoryKeeps(c, h, i);
    InvReads(c, h[i]);
  }
}
