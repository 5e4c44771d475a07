// Many processes, one lock and one log: a thread touches the file only between getting the lock and closing it. What
// LogWorld takes for granted of its one writer, and Snapshot of its probe, is proved here of the lock
// (src/rundir.rs:436-519 and 619-652, src/events.rs:1502-1580).
module LockedLog {
  import opened Prelude
  import opened EventLog
  import K = RunLock
  import L = LogWorld
  import S = Snapshot

  /// The lock, the file, and what each thread is doing to the file.
  datatype Shared<E> = Shared(lock: K.Sys, bytes: seq<byte>, acked: seq<E>, procs: seq<L.Proc<E>>)

  datatype Move<E> = Lock(lock: K.Move) | File(t: nat, file: L.Move<E>)

  predicate InCharge<E>(s: Shared<E>, t: nat) {
    t < |s.lock.threads| && K.Locked(s.lock.threads[t].pc)
  }

  /// The file as one thread has it.
  function Own<E>(s: Shared<E>, t: nat): L.World<E>
    requires t < |s.procs|
  {
    L.World(s.bytes, s.acked, s.procs[t])
  }

  /// Any step of the lock, at any time; and, by a thread that holds it, a step that opens, writes or acknowledges.
  predicate Can<E>(s: Shared<E>, m: Move<E>) {
    && |s.procs| == |s.lock.threads|
    && match m
       case Lock(k) => K.Can(s.lock, k)
       case File(t, f) => K.At(s.lock, t, K.Holding) && !f.Acquire? && !f.Quit? && L.Can(Own(s, t), f)
  }

  /// Getting the lock gives a thread the right to open the log; closing it, or dying, ends whatever it was doing.
  function Handles<E>(procs: seq<L.Proc<E>>, lock: K.Sys): (r: seq<L.Proc<E>>)
    requires |procs| == |lock.threads|
    ensures |r| == |procs|
  {
    seq(|procs|, t requires 0 <= t < |procs| =>
      if !K.Locked(lock.threads[t].pc) then L.Free else if procs[t].Free? then L.Locked else procs[t])
  }

  function Do<E>(c: Codec<E>, s: Shared<E>, m: Move<E>): Shared<E>
    requires Can(s, m)
  {
    match m
    case Lock(k) => s.(lock := K.Do(s.lock, k), procs := Handles(s.procs, K.Do(s.lock, k)))
    case File(t, f) =>
      var w := L.Do(c, Own(s, t), f);
      Shared(s.lock, w.bytes, w.acked, s.procs[t := w.proc])
  }

  function Start<E>(pids: seq<K.Pid>): Shared<E> {
    Shared(K.Start(pids), [], [], seq(|pids|, _ => L.Free))
  }

  /// Every instant of an interleaving, and the step taken at each.
  ghost predicate History<E>(c: Codec<E>, pids: seq<K.Pid>, h: seq<Shared<E>>, ms: seq<Move<E>>) {
    && |h| == |ms| + 1 && h[0] == Start(pids)
    && forall i {:trigger ms[i]} :: 0 <= i < |ms| ==> Can(h[i], ms[i]) && h[i + 1] == Do(c, h[i], ms[i])
  }

  predicate Stray<E>(s: Shared<E>, m: Move<E>) {
    m.Lock? && K.Stray(s.lock, m.lock)
  }

  ghost predicate NoStray<E>(h: seq<Shared<E>>, ms: seq<Move<E>>)
    requires |h| == |ms| + 1
  {
    forall i {:trigger Stray(h[i], ms[i])} :: 0 <= i < |ms| ==> !Stray(h[i], ms[i])
  }

  // ------------------------------------------------------------ one writer

  predicate Tied<E>(s: Shared<E>) {
    && |s.procs| == |s.lock.threads|
    && forall t :: 0 <= t < |s.procs| ==> (s.procs[t].Free? <==> !InCharge(s, t))
  }

  lemma {:induction false} AlwaysTied<E(!new)>(c: Codec<E>, pids: seq<K.Pid>, h: seq<Shared<E>>, ms: seq<Move<E>>, i: nat)
    requires History(c, pids, h, ms) && i < |h|
    ensures Tied(h[i]) && K.Inv(h[i].lock)
  {
    if i > 0 {
      AlwaysTied(c, pids, h, ms, i - 1);
      var s, m := h[i - 1], ms[i - 1];
      if m.Lock? {
        K.InvKept(s.lock, m.lock);
      }
    }
  }

  lemma {:induction false} SafeWithoutStray<E(!new)>(c: Codec<E>, pids: seq<K.Pid>, h: seq<Shared<E>>, ms: seq<Move<E>>, i: nat)
    requires History(c, pids, h, ms) && i < |h| && NoStray(h, ms)
    ensures K.Safe(h[i].lock)
  {
    if i > 0 {
      SafeWithoutStray(c, pids, h, ms, i - 1);
      AlwaysTied(c, pids, h, ms, i - 1);
      assert !Stray(h[i - 1], ms[i - 1]);
      SafeNext(c, h[i - 1], ms[i - 1]);
    }
  }

  lemma SafeNext<E(!new)>(c: Codec<E>, s: Shared<E>, m: Move<E>)
    requires K.Inv(s.lock) && K.Safe(s.lock) && Can(s, m) && !Stray(s, m)
    ensures K.Safe(Do(c, s, m).lock)
  {
    if m.Lock? {
      K.SafeStep(s.lock, m.lock);
    }
  }

  /// With files beside the lock its exact condition is the same one.
  lemma OwnershipIsExact<E(!new)>(c: Codec<E>, pids: seq<K.Pid>, h: seq<Shared<E>>, ms: seq<Move<E>>)
    requires History(c, pids, h, ms)
    ensures (forall i :: 0 <= i < |h| ==> K.Safe(h[i].lock)) <==> NoStray(h, ms)
  {
    if NoStray(h, ms) {
      forall i | 0 <= i < |h| ensures K.Safe(h[i].lock) {
        SafeWithoutStray(c, pids, h, ms, i);
      }
    } else {
      var i :| 0 <= i < |ms| && Stray(h[i], ms[i]);
      AlwaysTied(c, pids, h, ms, i);
      if K.Safe(h[i].lock) {
        K.SafeStep(h[i].lock, ms[i].lock);
        assert !K.Safe(h[i + 1].lock);
      }
    }
  }

  lemma AloneLocked(s: K.Sys, t: nat, u: nat)
    requires K.Inv(s) && K.Safe(s) && t < |s.threads| && u < |s.threads|
    requires K.Locked(s.threads[t].pc) && K.Locked(s.threads[u].pc)
    ensures t == u
  {
    assert K.BothInside(s.threads[t], s.threads[u]);
  }

  /// Without a stray close at most one thread of all processes can do anything to the file, and its process owns the lock.
  lemma OneWriter<E(!new)>(
    c: Codec<E>, pids: seq<K.Pid>, h: seq<Shared<E>>, ms: seq<Move<E>>, i: nat, t: nat, u: nat)
    requires History(c, pids, h, ms) && NoStray(h, ms) && i < |h| && t < |h[i].procs| && u < |h[i].procs|
    ensures |h[i].procs| == |h[i].lock.threads|
    ensures !h[i].procs[t].Free? ==> h[i].lock.owner == Some(h[i].lock.threads[t].pid)
    ensures !h[i].procs[t].Free? && !h[i].procs[u].Free? ==> t == u
  {
    AlwaysTied(c, pids, h, ms, i);
    SafeWithoutStray(c, pids, h, ms, i);
    if InCharge(h[i], t) && InCharge(h[i], u) {
      AloneLocked(h[i].lock, t, u);
    }
  }

  // ------------------------------------------------ the one-writer machine

  /// A thread in charge, if there is one.
  ghost function Chief<E>(s: Shared<E>): (r: Option<nat>)
    ensures r.Some? ==> InCharge(s, r.value)
    ensures r.None? ==> forall t: nat :: !InCharge(s, t)
  {
    if exists t: nat :: InCharge(s, t) then
      var t: nat :| InCharge(s, t);
      Some(t)
    else None
  }

  /// The file as the one thread in charge has it, or as nobody does.
  ghost function View<E>(s: Shared<E>): L.World<E>
    requires |s.procs| == |s.lock.threads|
  {
    match Chief(s) case Some(t) => Own(s, t) case None => L.World(s.bytes, s.acked, L.Free)
  }

  lemma ViewIs<E>(s: Shared<E>, t: nat)
    requires Tied(s) && K.Inv(s.lock) && K.Safe(s.lock) && InCharge(s, t)
    ensures View(s) == Own(s, t)
  {
    AloneLocked(s.lock, t, Chief(s).value);
  }

  predicate Sane<E>(s: Shared<E>) {
    Tied(s) && K.Inv(s.lock) && K.Safe(s.lock)
  }

  lemma FileIsAStep<E(!new)>(c: Codec<E>, s: Shared<E>, t: nat, f: L.Move<E>)
    requires Sane(s) && Can(s, File(t, f)) && Sane(Do(c, s, File(t, f)))
    ensures L.Step(c, View(s), View(Do(c, s, File(t, f))))
  {
    ViewIs(s, t);
    ViewIs(Do(c, s, File(t, f)), t);
    assert L.Can(Own(s, t), f) && L.Do(c, Own(s, t), f) == Own(Do(c, s, File(t, f)), t);
  }

  /// Nobody passes the lock from one thread to another in one step.
  lemma NoHandover(s: K.Sys, m: K.Move, t: nat, u: nat)
    requires K.Inv(s) && K.Safe(s) && K.Can(s, m) && K.Safe(K.Do(s, m)) && K.Inv(K.Do(s, m))
    requires t < |s.threads| && u < |s.threads| && K.Locked(s.threads[t].pc) && K.Locked(K.Do(s, m).threads[u].pc)
    ensures t == u
  {
    if K.Locked(s.threads[u].pc) {
      AloneLocked(s, t, u);
    } else {
      StillLocked(s, m, t, u);
      AloneLocked(K.Do(s, m), t, u);
    }
  }

  /// A step by which one thread gets the lock leaves every other thread where it was.
  lemma StillLocked(s: K.Sys, m: K.Move, t: nat, u: nat)
    requires K.Can(s, m) && t < |s.threads| && u < |s.threads| && K.Locked(s.threads[t].pc)
    requires !K.Locked(s.threads[u].pc) && K.Locked(K.Do(s, m).threads[u].pc)
    ensures K.Locked(K.Do(s, m).threads[t].pc)
  {
  }

  lemma LockIsAStep<E(!new)>(c: Codec<E>, s: Shared<E>, k: K.Move)
    requires Sane(s) && Can(s, Lock(k)) && Sane(Do(c, s, Lock(k)))
    ensures View(Do(c, s, Lock(k))) == View(s) || L.Step(c, View(s), View(Do(c, s, Lock(k))))
  {
    var r := Do(c, s, Lock(k));
    match Chief(s)
    case Some(t) =>
      if InCharge(r, t) {
        ViewIs(r, t);
      } else {
        if Chief(r).Some? {
          NoHandover(s.lock, k, t, Chief(r).value);
        }
        assert L.Can(View(s), L.Quit) && L.Do(c, View(s), L.Quit) == View(r);
      }
    case None =>
      if Chief(r).Some? {
        assert s.procs[Chief(r).value].Free?;
        assert L.Can(View(s), L.Acquire) && L.Do(c, View(s), L.Acquire) == View(r);
      }
  }

  /// Instants of the shared history, in order, among those of a history of one writer.
  ghost predicate Places<E(!new)>(c: Codec<E>, h: seq<Shared<E>>, n: nat, w: seq<L.World<E>>, pos: seq<nat>) {
    && n < |h| && |pos| == n + 1 && L.History(c, w) && pos[n] == |w| - 1
    && (forall i :: 0 <= i <= n ==> |h[i].procs| == |h[i].lock.threads| && pos[i] < |w| && w[pos[i]] == View(h[i]))
    && (forall i, j :: 0 <= i <= j <= n ==> pos[i] <= pos[j])
  }

  lemma PlacesNext<E(!new)>(c: Codec<E>, h: seq<Shared<E>>, n: nat, w: seq<L.World<E>>, pos: seq<nat>)
    returns (w': seq<L.World<E>>, pos': seq<nat>)
    requires Places(c, h, n, w, pos) && n + 1 < |h| && |h[n + 1].procs| == |h[n + 1].lock.threads|
    requires View(h[n + 1]) == View(h[n]) || L.Step(c, View(h[n]), View(h[n + 1]))
    ensures Places(c, h, n + 1, w', pos')
  {
    if View(h[n + 1]) == View(h[n]) {
      w', pos' := w, pos + [|w| - 1];
    } else {
      w', pos' := w + [View(h[n + 1])], pos + [|w|];
      forall i | 0 < i < |w'| ensures L.Follows(c, w', i) {
        assert i < |w| ==> L.Follows(c, w, i);
      }
    }
  }

  /// Under the lock's exact condition the shared file goes through a history of one writer: what is proved of that holds
  /// of the file whichever of the threads was at it.
  lemma {:induction false} OneWriterHistory<E(!new)>(
    c: Codec<E>, pids: seq<K.Pid>, h: seq<Shared<E>>, ms: seq<Move<E>>, n: nat) returns (w: seq<L.World<E>>, pos: seq<nat>)
    requires History(c, pids, h, ms) && NoStray(h, ms) && n < |h|
    ensures Places(c, h, n, w, pos)
  {
    AlwaysTied(c, pids, h, ms, n);
    if n == 0 {
      assert View(h[0]) == L.World([], [], L.Free);
      w, pos := [View(h[0])], [0];
    } else {
      var w0, pos0 := OneWriterHistory(c, pids, h, ms, n - 1);
      AnyStep(c, pids, h, ms, n - 1);
      w, pos := PlacesNext(c, h, n - 1, w0, pos0);
    }
  }

  lemma AnyStep<E(!new)>(c: Codec<E>, pids: seq<K.Pid>, h: seq<Shared<E>>, ms: seq<Move<E>>, i: nat)
    requires History(c, pids, h, ms) && NoStray(h, ms) && i < |ms|
    ensures |h[i].procs| == |h[i].lock.threads| && |h[i + 1].procs| == |h[i + 1].lock.threads|
    ensures View(h[i + 1]) == View(h[i]) || L.Step(c, View(h[i]), View(h[i + 1]))
  {
    AlwaysTied(c, pids, h, ms, i);
    AlwaysTied(c, pids, h, ms, i + 1);
    SafeWithoutStray(c, pids, h, ms, i);
    SafeWithoutStray(c, pids, h, ms, i + 1);
    match ms[i]
    case Lock(k) => LockIsAStep(c, h[i], k);
    case File(t, f) => FileIsAStep(c, h[i], t, f);
  }

  /// So whoever writes, and however they die, the file parses to what was acknowledged and at most one event more.
  lemma SharedFileIsReadable<E(!new)>(c: Codec<E>, pids: seq<K.Pid>, h: seq<Shared<E>>, ms: seq<Move<E>>, i: nat)
    requires Sound(c) && History(c, pids, h, ms) && NoStray(h, ms) && i < |h|
    ensures Parse(c, h[i].bytes).Ok?
    ensures h[i].acked <= L.Committed(c, h[i].bytes) && |L.Committed(c, h[i].bytes)| <= |h[i].acked| + 1
  {
    var w, pos := OneWriterHistory(c, pids, h, ms, i);
    L.HistoryKeeps(c, w, pos[i]);
    L.InvReads(c, w[pos[i]]);
  }

  // ------------------------------------------------------------ the probe

  /// At this step a thread's probe gets the answer "not running": there is no lock file, or the kernel says so.
  predicate SaysFree<E>(s: Shared<E>, m: Move<E>, t: nat) {
    && Can(s, m) && m.Lock?
    && (|| (m.lock == K.ProbeOpen(t, false) && !s.lock.created)
        || (m.lock.Query? && m.lock.t == t && K.Do(s.lock, m.lock).threads[t].pc == K.Answered(false)))
  }

  /// "Not running" is true if and only if the asker's own process does not have the lock: the kernel answers about the
  /// others only, and the claims are what keeps a process from asking about itself.
  lemma FreeIsExact<E(!new)>(c: Codec<E>, pids: seq<K.Pid>, h: seq<Shared<E>>, ms: seq<Move<E>>, i: nat, t: nat)
    requires History(c, pids, h, ms) && NoStray(h, ms) && i < |ms| && SaysFree(h[i], ms[i], t)
    ensures t < |h[i].lock.threads|
    ensures (forall u: nat :: !InCharge(h[i], u)) <==> h[i].lock.owner != Some(h[i].lock.threads[t].pid)
  {
    AlwaysTied(c, pids, h, ms, i);
    SafeWithoutStray(c, pids, h, ms, i);
    var s := h[i].lock;
    if s.owner.Some? {
      var u: nat :| 0 <= u < |s.threads| && s.threads[u].pid == s.owner.value && K.Locked(s.threads[u].pc);
      assert InCharge(h[i], u);
    }
  }

  ghost predicate Ordered(at: nat -> nat) {
    forall j: nat, k: nat :: j <= k ==> at(j) <= at(k)
  }

  /// A reader of the shared file: what it reads is there at that instant, and when a probe of it says "not running" a
  /// thread has asked whose process does not have the lock then.
  ghost predicate Watches<E(!new), X(!new)>(
    h: seq<Shared<E>>, ms: seq<Move<E>>, at: nat -> nat, held: nat -> bool, read: nat -> Result<seq<byte>, X>)
    requires |h| == |ms| + 1
  {
    && Ordered(at)
    && (forall k: nat :: at(k) < |h|)
    && (forall k: nat :: read(k).Ok? ==> read(k).value == h[at(k)].bytes)
    && (forall k: nat :: !held(k) ==> at(k) < |ms| && AskedByAnother(h[at(k)], ms[at(k)]))
  }

  ghost predicate AskedByAnother<E>(s: Shared<E>, m: Move<E>) {
    exists t: nat :: SaysFree(s, m, t) && t < |s.lock.threads| && s.lock.owner != Some(s.lock.threads[t].pid)
  }

  lemma FreeThen<E(!new)>(c: Codec<E>, pids: seq<K.Pid>, h: seq<Shared<E>>, ms: seq<Move<E>>, i: nat)
    requires History(c, pids, h, ms) && NoStray(h, ms) && i < |ms| && AskedByAnother(h[i], ms[i])
    ensures |h[i].procs| == |h[i].lock.threads| && View(h[i]).proc.Free?
  {
    AlwaysTied(c, pids, h, ms, i);
    QuietThen(c, pids, h, ms, i);
  }

  function PlaceOf(pos: seq<nat>, i: nat): nat {
    if i < |pos| then pos[i] else 0
  }

  function Moved(pos: seq<nat>, at: nat -> nat): nat -> nat {
    k => PlaceOf(pos, at(k))
  }

  /// Such a reader is one that `Snapshot.Observes` describes: its belief in the probe is earned.
  lemma WatchingIsObserving<E(!new), X(!new)>(
    c: Codec<E>, pids: seq<K.Pid>, h: seq<Shared<E>>, ms: seq<Move<E>>, w: seq<L.World<E>>, pos: seq<nat>,
    at: nat -> nat, held: nat -> bool, read: nat -> Result<seq<byte>, X>)
    requires History(c, pids, h, ms) && NoStray(h, ms) && Watches(h, ms, at, held, read) && Places(c, h, |ms|, w, pos)
    ensures S.Observes(w, Moved(pos, at), held, read)
  {
    MovedInOrder(c, h, ms, w, pos, at, held, read);
    AllSeen(c, pids, h, ms, w, pos, at, held, read);
    SeeingIsObserving(w, Moved(pos, at), held, read);
  }

  lemma AllSeen<E(!new), X(!new)>(
    c: Codec<E>, pids: seq<K.Pid>, h: seq<Shared<E>>, ms: seq<Move<E>>, w: seq<L.World<E>>, pos: seq<nat>,
    at: nat -> nat, held: nat -> bool, read: nat -> Result<seq<byte>, X>)
    requires History(c, pids, h, ms) && NoStray(h, ms) && Watches(h, ms, at, held, read) && Places(c, h, |ms|, w, pos)
    ensures SeesAll(w, Moved(pos, at), held, read)
  {
    forall k: nat ensures SeesIt(w, Moved(pos, at)(k), held(k), read(k)) {
      WatchedThen(c, pids, h, ms, w, pos, at, held, read, k);
    }
  }

  ghost predicate SeesIt<E, X(!new)>(w: seq<L.World<E>>, i: nat, held: bool, read: Result<seq<byte>, X>) {
    i < |w| && (!held ==> w[i].proc.Free?) && (read.Ok? ==> read.value == w[i].bytes)
  }

  ghost predicate SeesAll<E, X(!new)>(
    w: seq<L.World<E>>, there: nat -> nat, held: nat -> bool, read: nat -> Result<seq<byte>, X>)
  {
    forall k: nat :: SeesIt(w, there(k), held(k), read(k))
  }

  lemma SeeingIsObserving<E(!new), X(!new)>(
    w: seq<L.World<E>>, there: nat -> nat, held: nat -> bool, read: nat -> Result<seq<byte>, X>)
    requires Ordered(there) && SeesAll(w, there, held, read)
    ensures S.Observes(w, there, held, read)
  {
    forall k: nat
      ensures there(k) < |w| && (!held(k) ==> w[there(k)].proc.Free?) && (read(k).Ok? ==> read(k).value == w[there(k)].bytes)
    {
      assert SeesIt(w, there(k), held(k), read(k));
    }
  }

  lemma MovedInOrder<E(!new), X(!new)>(
    c: Codec<E>, h: seq<Shared<E>>, ms: seq<Move<E>>, w: seq<L.World<E>>, pos: seq<nat>,
    at: nat -> nat, held: nat -> bool, read: nat -> Result<seq<byte>, X>)
    requires |h| == |ms| + 1 && Watches(h, ms, at, held, read) && Places(c, h, |ms|, w, pos)
    ensures Ordered(Moved(pos, at))
  {
    forall j: nat, k: nat | j <= k ensures Moved(pos, at)(j) <= Moved(pos, at)(k) {
      MovedTwo(c, h, ms, w, pos, at, held, read, j, k);
    }
  }

  lemma MovedTwo<E(!new), X(!new)>(
    c: Codec<E>, h: seq<Shared<E>>, ms: seq<Move<E>>, w: seq<L.World<E>>, pos: seq<nat>,
    at: nat -> nat, held: nat -> bool, read: nat -> Result<seq<byte>, X>, j: nat, k: nat)
    requires |h| == |ms| + 1 && Watches(h, ms, at, held, read) && Places(c, h, |ms|, w, pos) && j <= k
    ensures Moved(pos, at)(j) <= Moved(pos, at)(k)
  {
    PlacesInOrder(c, h, w, pos, at(j), at(k));
  }

  lemma WatchedThen<E(!new), X(!new)>(
    c: Codec<E>, pids: seq<K.Pid>, h: seq<Shared<E>>, ms: seq<Move<E>>, w: seq<L.World<E>>, pos: seq<nat>,
    at: nat -> nat, held: nat -> bool, read: nat -> Result<seq<byte>, X>, k: nat)
    requires History(c, pids, h, ms) && NoStray(h, ms) && Watches(h, ms, at, held, read) && Places(c, h, |ms|, w, pos)
    ensures SeesIt(w, Moved(pos, at)(k), held(k), read(k))
  {
    PlaceIs(c, h, w, pos, at(k));
    if !held(k) {
      FreeThen(c, pids, h, ms, at(k));
    }
  }

  lemma PlaceIs<E(!new)>(c: Codec<E>, h: seq<Shared<E>>, w: seq<L.World<E>>, pos: seq<nat>, i: nat)
    requires h != [] && Places(c, h, |h| - 1, w, pos) && i < |h|
    ensures |h[i].procs| == |h[i].lock.threads| && PlaceOf(pos, i) < |w| && w[PlaceOf(pos, i)] == View(h[i])
    ensures w[PlaceOf(pos, i)].bytes == h[i].bytes
  {
  }

  lemma PlacesInOrder<E(!new)>(c: Codec<E>, h: seq<Shared<E>>, w: seq<L.World<E>>, pos: seq<nat>, i: nat, j: nat)
    requires h != [] && Places(c, h, |h| - 1, w, pos) && i <= j < |h|
    ensures PlaceOf(pos, i) <= PlaceOf(pos, j)
  {
  }

  ghost predicate QuietAt<E>(c: Codec<E>, h: seq<Shared<E>>, i: nat, bytes: seq<byte>) {
    && i < |h| && (forall t: nat :: !InCharge(h[i], t))
    && Parse(c, bytes).Ok? && Parse(c, bytes).value.events == L.Committed(c, h[i].bytes)
  }

  /// A snapshot of a file many processes contend for. "Not held" comes with an instant within the call at which no
  /// thread of any process was in charge and the committed events were exactly those returned.
  lemma SharedSnapshot<E(!new), X(!new)>(
    c: Codec<E>, pids: seq<K.Pid>, h: seq<Shared<E>>, ms: seq<Move<E>>,
    at: nat -> nat, held: nat -> bool, read: nat -> Result<seq<byte>, X>, k: nat, rounds: nat)
    requires Sound(c) && History(c, pids, h, ms) && NoStray(h, ms) && Watches(h, ms, at, held, read)
    ensures
      match S.Stable(held, read, k, rounds)
      case Ok(Snap(bytes, false)) => exists o: nat :: k < o < k + 5 * rounds && QuietAt(c, h, at(o), bytes)
      case _ => true
  {
    var r := S.Stable(held, read, k, rounds);
    if r.Ok? && !r.value.held {
      var round := S.DecidingRound(held, read, k, rounds);
      QuietRound(c, pids, h, ms, at, held, read, round, r.value.bytes);
    }
  }

  lemma QuietRound<E(!new), X(!new)>(
    c: Codec<E>, pids: seq<K.Pid>, h: seq<Shared<E>>, ms: seq<Move<E>>,
    at: nat -> nat, held: nat -> bool, read: nat -> Result<seq<byte>, X>, round: nat, bytes: seq<byte>)
    requires Sound(c) && History(c, pids, h, ms) && NoStray(h, ms) && Watches(h, ms, at, held, read)
    requires S.Decided(held, read, round, S.Snap(bytes, false))
    ensures QuietAt(c, h, at(round + 2), bytes)
  {
    var w, pos := OneWriterHistory(c, pids, h, ms, |ms|);
    WatchingIsObserving(c, pids, h, ms, w, pos, at, held, read);
    S.RoundIsTrue(c, w, Moved(pos, at), held, read, round, bytes);
    PlaceIs(c, h, w, pos, at(round + 2));
    QuietThen(c, pids, h, ms, at(round + 2));
  }

  lemma QuietThen<E(!new)>(c: Codec<E>, pids: seq<K.Pid>, h: seq<Shared<E>>, ms: seq<Move<E>>, i: nat)
    requires History(c, pids, h, ms) && NoStray(h, ms) && i < |ms| && AskedByAnother(h[i], ms[i])
    ensures forall t: nat :: !InCharge(h[i], t)
  {
    var t: nat :| SaysFree(h[i], ms[i], t) && t < |h[i].lock.threads| && h[i].lock.owner != Some(h[i].lock.threads[t].pid);
    FreeIsExact(c, pids, h, ms, i, t);
  }

  // ------------------------------------------- what a stray close can cost

  /// No file is open: a thread in charge has only the right to.
  function InCase(lock: K.Sys): (r: seq<L.Proc<nat>>)
    ensures |r| == |lock.threads|
  {
    seq(|lock.threads|, t requires 0 <= t < |lock.threads| => if K.Locked(lock.threads[t].pc) then L.Locked else L.Free)
  }

  function GivenAway(k: nat): Shared<nat>
    requires k <= |K.GIVEN_AWAY|
  {
    Shared(K.GivenAway(k), [], [], InCase(K.GivenAway(k)))
  }

  lemma GivenAwayStep(k: nat)
    requires k < |K.GIVEN_AWAY|
    ensures Can(GivenAway(k), Lock(K.GIVEN_AWAY[k]))
    ensures Do(TALLY, GivenAway(k), Lock(K.GIVEN_AWAY[k])) == GivenAway(k + 1)
  {
    K.GivenAwayStep(k);
    assert Handles(InCase(K.GivenAway(k)), K.GivenAway(k + 1)) == InCase(K.GivenAway(k + 1));
  }

  lemma GivenAwayStart()
    ensures GivenAway(0) == Start([7, 7, 9])
  {
    K.GivenAwayRun(0);
    assert K.GIVEN_AWAY[..0] == [];
    assert GivenAway(0).procs == Start<nat>([7, 7, 9]).procs;
  }

  /// Both holders at the file: the second opens it, and so repairs it, in the middle of the first one's line.
  const TORN: seq<Move<nat>> := [
    File(0, L.OpenLog), File(0, L.Begin(1)), File(0, L.Write(1)), File(2, L.OpenLog), File(0, L.Write(2)), File(0, L.Ack)]

  function TornAt(k: nat): Shared<nat>
    requires k <= |TORN|
  {
    var g, locked, line := K.GivenAway(|K.GIVEN_AWAY|), L.Locked, Line(TALLY, 1);
    match k
    case 0 => Shared(g, [], [], [locked, L.Free, locked])
    case 1 => Shared(g, [], [], [L.Ready, L.Free, locked])
    case 2 => Shared(g, [], [], [L.Writing(1, [1, 1, NL]), L.Free, locked])
    case 3 => Shared(g, [1], [], [L.Writing(1, [1, NL]), L.Free, locked])
    case 4 => Shared(g, [], [], [L.Writing(1, [1, NL]), L.Free, L.Ready])
    case 5 => Shared(g, [1, NL], [], [L.Writing(1, []), L.Free, L.Ready])
    case _ => Shared(g, [1, NL], [1], [L.Ready, L.Free, L.Ready])
  }

  lemma NothingCommitted(bytes: seq<byte>)
    requires NL !in bytes
    ensures Repaired(bytes) == [] && L.Committed(TALLY, bytes) == []
  {
    EndOfCommitted([], bytes);
    assert [] + bytes == bytes;
  }

  lemma LineOfOne()
    ensures Line(TALLY, 1) == [1, 1, NL]
  {
    assert Marks(1) == [1, 1];
  }

  lemma TornStep(k: nat)
    requires k < |TORN|
    ensures Can(TornAt(k), TORN[k]) && Do(TALLY, TornAt(k), TORN[k]) == TornAt(k + 1)
  {
    var s := TornAt(k);
    if TORN[k].file.OpenLog? {
      NothingCommitted(s.bytes);
      assert s.procs[TORN[k].t := L.Ready] == TornAt(k + 1).procs;
    } else if TORN[k].file.Write? {
      Written(s.bytes, s.procs[0].rest, TORN[k].file.count);
      assert s.procs[0 := TornAt(k + 1).procs[0]] == TornAt(k + 1).procs;
    } else {
      LineOfOne();
      assert s.procs[0 := TornAt(k + 1).procs[0]] == TornAt(k + 1).procs;
    }
  }

  lemma Written(bytes: seq<byte>, rest: seq<byte>, count: nat)
    requires (bytes == [] && rest == [1, 1, NL] && count == 1) || (bytes == [] && rest == [1, NL] && count == 2)
    ensures count == 1 ==> bytes + rest[..1] == [1] && rest[1..] == [1, NL]
    ensures count == 2 ==> bytes + rest[..2] == [1, NL] && rest[2..] == []
  {
  }

  function Torn(): (h: seq<Shared<nat>>)
    ensures |h| == |K.GIVEN_AWAY| + |TORN| + 1
  {
    seq(|K.GIVEN_AWAY|, k requires 0 <= k < |K.GIVEN_AWAY| => GivenAway(k))
    + seq(|TORN| + 1, k requires 0 <= k < |TORN| + 1 => TornAt(k))
  }

  function TornMoves(): (ms: seq<Move<nat>>)
    ensures |ms| == |K.GIVEN_AWAY| + |TORN|
  {
    seq(|K.GIVEN_AWAY|, k requires 0 <= k < |K.GIVEN_AWAY| => Lock(K.GIVEN_AWAY[k])) + TORN
  }

  lemma TornIsAHistory()
    ensures History(TALLY, [7, 7, 9], Torn(), TornMoves())
  {
    var n := |K.GIVEN_AWAY|;
    GivenAwayStart();
    assert InCase(K.GivenAway(n)) == [L.Locked, L.Free, L.Locked];
    assert GivenAway(n) == TornAt(0);
    forall i | 0 <= i < |TornMoves()|
      ensures Can(Torn()[i], TornMoves()[i]) && Torn()[i + 1] == Do(TALLY, Torn()[i], TornMoves()[i])
    {
      if i < n {
        GivenAwayStep(i);
      } else {
        TornStep(i - n);
      }
    }
  }

  /// What the condition is for. After a stray close two holders are at the file, and an append that was acknowledged as
  /// 1 is read back as 0, by a wire that loses nothing.
  lemma StrayCloseLosesAnEvent()
    ensures Sound(TALLY) && History(TALLY, [7, 7, 9], Torn(), TornMoves())
    ensures var last := Torn()[|Torn()| - 1]; last.acked == [1] && L.Committed(TALLY, last.bytes) == [0]
  {
    SomeFormatIsSound();
    TornIsAHistory();
    ShortLine();
    assert Torn()[|Torn()| - 1] == TornAt(|TORN|);
  }

  lemma ShortLine()
    ensures L.Committed(TALLY, [1, NL]) == [0]
  {
    SomeFormatIsSound();
    assert Marks(0) == [1];
    assert Line(TALLY, 0) == [1, NL];
    assert EncodeAll(TALLY, [0][1..]) == [];
    assert EncodeAll(TALLY, [0]) == [1, NL];
    L.NothingTorn(TALLY, [1, NL], [0]);
  }
}
