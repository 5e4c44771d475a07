// One run's lock, statement by statement: threads of many processes, each process with its own set of claims, over an
// `fcntl` lock that belongs to the process and is dropped by closing any descriptor of the file
// (src/rundir.rs:436-519, 583-604 and 619-652; IEEE Std 1003.1, System Interfaces, fcntl()).
module RunLock {
  import opened Prelude

  type Pid = nat

  /// The statement a thread is about to run. `Taken` to `Releasing` are the ones at which it believes it has the lock.
  datatype Pc =
    | Idle
    | Claimed | Opened | Taken | Holding | Releasing | Refused | Closed
    | Probing | ProbeOpened | Answered(running: bool)

  datatype Thread = Thread(pid: Pid, pc: Pc)

  /// `owner` is the process the kernel records; `claimed` is the processes whose claims hold this run.
  datatype Sys = Sys(threads: seq<Thread>, claimed: set<Pid>, owner: Option<Pid>, created: bool)

  datatype Move =
    | Claim(t: nat) | Open(t: nat, ok: bool) | Take(t: nat, works: bool) | Lease(t: nat, ok: bool)
    | Drop(t: nat) | Close(t: nat) | Unclaim(t: nat)
    | Probe(t: nat) | ProbeOpen(t: nat, ok: bool) | Query(t: nat, works: bool) | ProbeClose(t: nat)
    | Die(pid: Pid)

  predicate At(s: Sys, t: nat, pc: Pc) {
    t < |s.threads| && s.threads[t].pc == pc
  }

  predicate Can(s: Sys, m: Move) {
    match m
    case Claim(t) => At(s, t, Idle) && s.threads[t].pid !in s.claimed
    case Open(t, _) => At(s, t, Claimed)
    case Take(t, _) => At(s, t, Opened)
    case Lease(t, _) => At(s, t, Taken)
    case Drop(t) => At(s, t, Holding)
    case Close(t) => At(s, t, Releasing) || At(s, t, Refused)
    case Unclaim(t) => At(s, t, Closed)
    // A probe that finds its own claim answers without touching the file: no step.
    case Probe(t) => At(s, t, Idle) && s.threads[t].pid !in s.claimed
    case ProbeOpen(t, ok) => At(s, t, Probing) && (ok ==> s.created)
    case Query(t, _) => At(s, t, ProbeOpened)
    case ProbeClose(t) => t < |s.threads| && s.threads[t].pc.Answered?
    case Die(_) => true
  }

  function Goto(s: Sys, t: nat, pc: Pc): Sys
    requires t < |s.threads|
  {
    s.(threads := s.threads[t := s.threads[t].(pc := pc)])
  }

  /// Closing a descriptor of the lock file: every lock this process has on it is gone.
  function AfterClose(owner: Option<Pid>, pid: Pid): Option<Pid> {
    if owner == Some(pid) then None else owner
  }

  /// What `F_GETLK` says to this process: its own lock never conflicts with it.
  predicate Conflicts(owner: Option<Pid>, pid: Pid) {
    owner.Some? && owner.value != pid
  }

  function Do(s: Sys, m: Move): (r: Sys)
    requires Can(s, m)
    ensures |r.threads| == |s.threads| && forall k :: 0 <= k < |s.threads| ==> r.threads[k].pid == s.threads[k].pid
  {
    match m
    case Claim(t) => Goto(s, t, Claimed).(claimed := s.claimed + {s.threads[t].pid})
    case Open(t, ok) => if ok then Goto(s, t, Opened).(created := true) else Goto(s, t, Closed)
    case Take(t, works) =>
      if works && !Conflicts(s.owner, s.threads[t].pid) then Goto(s, t, Taken).(owner := Some(s.threads[t].pid))
      else Goto(s, t, Refused)
    case Lease(t, ok) => Goto(s, t, if ok then Holding else Releasing)
    case Drop(t) => Goto(s, t, Releasing)
    case Close(t) => Goto(s, t, Closed).(owner := AfterClose(s.owner, s.threads[t].pid))
    case Unclaim(t) => Goto(s, t, Idle).(claimed := s.claimed - {s.threads[t].pid})
    case Probe(t) => Goto(s, t, Probing)
    case ProbeOpen(t, ok) => Goto(s, t, if ok then ProbeOpened else Idle)
    case Query(t, works) => Goto(s, t, Answered(!works || Conflicts(s.owner, s.threads[t].pid)))
    case ProbeClose(t) => Goto(s, t, Idle).(owner := AfterClose(s.owner, s.threads[t].pid))
    case Die(pid) =>
      Sys(seq(|s.threads|, k requires 0 <= k < |s.threads| =>
            if s.threads[k].pid == pid then Thread(pid, Idle) else s.threads[k]),
          s.claimed - {pid}, AfterClose(s.owner, pid), s.created)
  }

  function After(s: Sys, moves: seq<Move>): Option<Sys> {
    if moves == [] then Some(s)
    else
      var before := After(s, moves[..|moves| - 1]);
      if before.Some? && Can(before.value, moves[|moves| - 1]) then Some(Do(before.value, moves[|moves| - 1])) else None
  }

  /// Before anything has run: any threads of any processes, no claim, no lock, no file.
  function Start(pids: seq<Pid>): Sys {
    Sys(seq(|pids|, k requires 0 <= k < |pids| => Thread(pids[k], Idle)), {}, None, false)
  }

  // -------------------------------------------------- what always holds

  predicate Acquiring(pc: Pc) {
    pc.Claimed? || pc.Opened? || pc.Refused? || pc.Closed? || Locked(pc)
  }

  predicate Locked(pc: Pc) {
    pc.Taken? || pc.Holding? || pc.Releasing?
  }

  predicate BothInside(a: Thread, b: Thread) {
    a.pid == b.pid && Acquiring(a.pc) && Acquiring(b.pc)
  }

  /// In one process at most one thread is anywhere inside `acquire` or holds a lock, and the claim says so.
  predicate ClaimsAreExact(s: Sys) {
    && (forall t :: 0 <= t < |s.threads| && Acquiring(s.threads[t].pc) ==> s.threads[t].pid in s.claimed)
    && (forall t, u :: 0 <= t < |s.threads| && 0 <= u < |s.threads| && BothInside(s.threads[t], s.threads[u]) ==> t == u)
  }

  predicate OwnerIsInside(s: Sys) {
    s.owner.Some? ==> exists t :: 0 <= t < |s.threads| && s.threads[t].pid == s.owner.value && Locked(s.threads[t].pc)
  }

  predicate FileOpened(s: Sys) {
    forall t :: 0 <= t < |s.threads| && (s.threads[t].pc.Opened? || Locked(s.threads[t].pc)) ==> s.created
  }

  predicate Inv(s: Sys) {
    ClaimsAreExact(s) && OwnerIsInside(s) && FileOpened(s)
  }

  /// Whoever believes it has the lock does.
  predicate Safe(s: Sys) {
    forall t :: 0 <= t < |s.threads| && Locked(s.threads[t].pc) ==> s.owner == Some(s.threads[t].pid)
  }

  /// A probe closing its descriptor in the process that owns the lock.
  predicate Stray(s: Sys, m: Move) {
    m.ProbeClose? && m.t < |s.threads| && s.owner == Some(s.threads[m.t].pid)
  }

  /// A step other than a claim brings nobody into `acquire`, and takes a claim away only with the thread it is for.
  lemma NobodyEnters(s: Sys, m: Move, t: nat)
    requires ClaimsAreExact(s) && Can(s, m) && !m.Claim? && t < |s.threads| && Acquiring(Do(s, m).threads[t].pc)
    ensures Acquiring(s.threads[t].pc) && s.threads[t].pid in Do(s, m).claimed
  {
    match m
    case Unclaim(u) => assert BothInside(s.threads[t], s.threads[u]) ==> t == u;
    case _ =>
  }

  lemma ClaimsKept(s: Sys, m: Move)
    requires ClaimsAreExact(s) && Can(s, m)
    ensures ClaimsAreExact(Do(s, m))
  {
    var r := Do(s, m);
    if !m.Claim? {
      forall t | 0 <= t < |s.threads| && Acquiring(r.threads[t].pc)
        ensures Acquiring(s.threads[t].pc) && r.threads[t].pid in r.claimed
      {
        NobodyEnters(s, m, t);
      }
      forall t, u | 0 <= t < |s.threads| && 0 <= u < |s.threads| && BothInside(r.threads[t], r.threads[u]) ensures t == u {
        assert BothInside(s.threads[t], s.threads[u]);
      }
    }
  }

  lemma OwnerKept(s: Sys, m: Move)
    requires OwnerIsInside(s) && Can(s, m)
    ensures OwnerIsInside(Do(s, m))
  {
    var r := Do(s, m);
    if r.owner.Some? {
      if m.Take? && r.threads[m.t].pc.Taken? {
        assert Locked(r.threads[m.t].pc);
      } else {
        var t :| 0 <= t < |s.threads| && s.threads[t].pid == s.owner.value && Locked(s.threads[t].pc);
        assert r.threads[t].pid == r.owner.value && Locked(r.threads[t].pc);
      }
    }
  }

  lemma FileKept(s: Sys, m: Move)
    requires FileOpened(s) && Can(s, m)
    ensures FileOpened(Do(s, m))
  {
  }

  lemma InvKept(s: Sys, m: Move)
    requires Inv(s) && Can(s, m)
    ensures Inv(Do(s, m))
  {
    ClaimsKept(s, m);
    OwnerKept(s, m);
    FileKept(s, m);
  }

  lemma OwnersAreClaimed(s: Sys)
    requires Inv(s)
    ensures s.owner.Some? ==> s.owner.value in s.claimed
  {
    if s.owner.Some? {
      var t :| 0 <= t < |s.threads| && s.threads[t].pid == s.owner.value && Locked(s.threads[t].pc);
      assert Acquiring(s.threads[t].pc);
    }
  }

  /// One step takes a lock away from its holder exactly when it is a stray close.
  lemma SafeStep(s: Sys, m: Move)
    requires Inv(s) && Safe(s) && Can(s, m)
    ensures Safe(Do(s, m)) <==> !Stray(s, m)
  {
    if Stray(s, m) {
      StrayBreaks(s, m);
    } else {
      OthersKeep(s, m);
    }
  }

  lemma StrayBreaks(s: Sys, m: Move)
    requires OwnerIsInside(s) && Can(s, m) && Stray(s, m)
    ensures !Safe(Do(s, m))
  {
    var t :| 0 <= t < |s.threads| && s.threads[t].pid == s.owner.value && Locked(s.threads[t].pc);
    assert Locked(Do(s, m).threads[t].pc) && Do(s, m).owner.None?;
  }

  lemma OthersKeep(s: Sys, m: Move)
    requires ClaimsAreExact(s) && OwnerIsInside(s) && Safe(s) && Can(s, m) && !Stray(s, m)
    ensures Safe(Do(s, m))
  {
    if m.Take? {
      TakeKeeps(s, m.t, m.works);
    } else if m.Close? {
      CloseKeeps(s, m.t);
    }
  }

  lemma TakeKeeps(s: Sys, t: nat, works: bool)
    requires ClaimsAreExact(s) && OwnerIsInside(s) && Safe(s) && Can(s, Take(t, works))
    ensures Safe(Do(s, Take(t, works)))
  {
    if s.owner.Some? {
      var u :| 0 <= u < |s.threads| && s.threads[u].pid == s.owner.value && Locked(s.threads[u].pc);
    }
  }

  lemma CloseKeeps(s: Sys, t: nat)
    requires ClaimsAreExact(s) && Safe(s) && Can(s, Close(t))
    ensures Safe(Do(s, Close(t)))
  {
    forall u | 0 <= u < |s.threads| && Locked(Do(s, Close(t)).threads[u].pc) ensures s.threads[u].pid != s.threads[t].pid {
      assert BothInside(s.threads[t], s.threads[u]) ==> t == u;
    }
  }

  // ------------------------------------------------------- over whole runs

  ghost predicate Runs(s: Sys, moves: seq<Move>) {
    forall k :: 0 <= k <= |moves| ==> After(s, moves[..k]).Some?
  }

  function SysAt(s: Sys, moves: seq<Move>, k: nat): Sys
    requires k <= |moves| && After(s, moves[..k]).Some?
  {
    After(s, moves[..k]).value
  }

  lemma Next(s: Sys, moves: seq<Move>, k: nat)
    requires Runs(s, moves) && k < |moves|
    ensures Can(SysAt(s, moves, k), moves[k]) && SysAt(s, moves, k + 1) == Do(SysAt(s, moves, k), moves[k])
  {
    assert moves[..k + 1][..k] == moves[..k];
    assert After(s, moves[..k + 1]).Some?;
  }

  lemma {:induction false} InvAlways(pids: seq<Pid>, moves: seq<Move>, k: nat)
    requires Runs(Start(pids), moves) && k <= |moves|
    ensures Inv(SysAt(Start(pids), moves, k))
  {
    if k > 0 {
      InvAlways(pids, moves, k - 1);
      Next(Start(pids), moves, k - 1);
      InvKept(SysAt(Start(pids), moves, k - 1), moves[k - 1]);
    }
  }

  ghost predicate NoStrayBefore(pids: seq<Pid>, moves: seq<Move>, n: nat)
    requires Runs(Start(pids), moves) && n <= |moves|
  {
    forall k :: 0 <= k < n ==> !Stray(SysAt(Start(pids), moves, k), moves[k])
  }

  lemma {:induction false} SafeUntilStray(pids: seq<Pid>, moves: seq<Move>, n: nat)
    requires Runs(Start(pids), moves) && n <= |moves| && NoStrayBefore(pids, moves, n)
    ensures Safe(SysAt(Start(pids), moves, n))
  {
    if n > 0 {
      SafeUntilStray(pids, moves, n - 1);
      InvAlways(pids, moves, n - 1);
      Next(Start(pids), moves, n - 1);
      SafeStep(SysAt(Start(pids), moves, n - 1), moves[n - 1]);
    }
  }

  /// In every interleaving of every run, each thread that believes it has the lock has it at every instant, if and
  /// only if no probe ever closes the lock file in the process that owns it.
  lemma OwnershipIsExact(pids: seq<Pid>, moves: seq<Move>)
    requires Runs(Start(pids), moves)
    ensures (forall k :: 0 <= k <= |moves| ==> Safe(SysAt(Start(pids), moves, k))) <==> NoStrayBefore(pids, moves, |moves|)
  {
    if NoStrayBefore(pids, moves, |moves|) {
      forall k | 0 <= k <= |moves| ensures Safe(SysAt(Start(pids), moves, k)) {
        SafeUntilStray(pids, moves, k);
      }
    } else {
      var k :| 0 <= k < |moves| && Stray(SysAt(Start(pids), moves, k), moves[k]);
      InvAlways(pids, moves, k);
      Next(Start(pids), moves, k);
      if Safe(SysAt(Start(pids), moves, k)) {
        SafeStep(SysAt(Start(pids), moves, k), moves[k]);
        assert !Safe(SysAt(Start(pids), moves, k + 1));
      }
    }
  }

  /// What a caller can see to: its process has no claim on the run when one of its probes ends.
  ghost predicate ProbesApart(pids: seq<Pid>, moves: seq<Move>)
    requires Runs(Start(pids), moves)
  {
    forall k :: 0 <= k < |moves| && moves[k].ProbeClose? && moves[k].t < |pids| ==>
      pids[moves[k].t] !in SysAt(Start(pids), moves, k).claimed
  }

  lemma {:induction false} SamePids(pids: seq<Pid>, moves: seq<Move>, k: nat)
    requires Runs(Start(pids), moves) && k <= |moves|
    ensures |SysAt(Start(pids), moves, k).threads| == |pids|
    ensures forall t :: 0 <= t < |pids| ==> SysAt(Start(pids), moves, k).threads[t].pid == pids[t]
  {
    if k > 0 {
      SamePids(pids, moves, k - 1);
      Next(Start(pids), moves, k - 1);
    }
  }

  /// No claim is left behind by the thread it was made for.
  ghost predicate ClaimsHaveThreads(s: Sys) {
    forall pid :: pid in s.claimed ==> exists t :: 0 <= t < |s.threads| && s.threads[t].pid == pid && Acquiring(s.threads[t].pc)
  }

  lemma ThreadsKeepClaims(s: Sys, m: Move)
    requires ClaimsHaveThreads(s) && Can(s, m)
    ensures ClaimsHaveThreads(Do(s, m))
  {
    var r := Do(s, m);
    forall pid | pid in r.claimed ensures exists t :: 0 <= t < |r.threads| && r.threads[t].pid == pid && Acquiring(r.threads[t].pc) {
      if pid in s.claimed {
        var t :| 0 <= t < |s.threads| && s.threads[t].pid == pid && Acquiring(s.threads[t].pc);
        assert Acquiring(r.threads[t].pc);
      } else {
        assert Acquiring(r.threads[m.t].pc);
      }
    }
  }

  lemma {:induction false} NoClaimLeaks(pids: seq<Pid>, moves: seq<Move>, k: nat)
    requires Runs(Start(pids), moves) && k <= |moves|
    ensures ClaimsHaveThreads(SysAt(Start(pids), moves, k))
  {
    if k > 0 {
      NoClaimLeaks(pids, moves, k - 1);
      Next(Start(pids), moves, k - 1);
      ThreadsKeepClaims(SysAt(Start(pids), moves, k - 1), moves[k - 1]);
    }
  }

  /// An idle thread may start to acquire, or to ask, if and only if no thread of its process is inside an acquisition or
  /// has the lock: at every instant of every run, deaths and failures included.
  lemma EntersAlone(pids: seq<Pid>, moves: seq<Move>, k: nat, t: nat)
    requires Runs(Start(pids), moves) && k <= |moves| && t < |pids|
    ensures
      var s := SysAt(Start(pids), moves, k);
      && |s.threads| == |pids|
      && var alone := forall u :: 0 <= u < |pids| && pids[u] == pids[t] ==> !Acquiring(s.threads[u].pc);
      && (Can(s, Claim(t)) <==> s.threads[t].pc == Idle && alone)
      && (Can(s, Probe(t)) <==> s.threads[t].pc == Idle && alone)
  {
    SamePids(pids, moves, k);
    InvAlways(pids, moves, k);
    NoClaimLeaks(pids, moves, k);
  }

  /// Mutual exclusion: with probes kept apart from acquisitions of their own process, at most one thread of all
  /// processes is past taking the lock and before closing it, and the kernel agrees it owns it.
  lemma MutualExclusion(pids: seq<Pid>, moves: seq<Move>, k: nat, t: nat, u: nat)
    requires Runs(Start(pids), moves) && ProbesApart(pids, moves) && k <= |moves| && t < |pids| && u < |pids|
    ensures |SysAt(Start(pids), moves, k).threads| == |pids|
    ensures
      var s := SysAt(Start(pids), moves, k);
      && (Locked(s.threads[t].pc) ==> s.owner == Some(pids[t]))
      && (Locked(s.threads[t].pc) && Locked(s.threads[u].pc) ==> t == u)
  {
    SamePids(pids, moves, k);
    InvAlways(pids, moves, k);
    forall j | 0 <= j < k ensures !Stray(SysAt(Start(pids), moves, j), moves[j]) {
      SamePids(pids, moves, j);
      InvAlways(pids, moves, j);
      OwnersAreClaimed(SysAt(Start(pids), moves, j));
    }
    SafeUntilStray(pids, moves, k);
  }

  /// And then a probe that could ask tells the truth: "not running" means nobody has the lock, "running" that
  /// somebody does. So does one that finds no file.
  lemma ProbesTellTheTruth(pids: seq<Pid>, moves: seq<Move>, k: nat, t: nat)
    requires Runs(Start(pids), moves) && ProbesApart(pids, moves) && k <= |moves| && t < |pids|
    ensures
      var s := SysAt(Start(pids), moves, k);
      && |s.threads| == |pids|
      && (!s.created ==> forall u :: 0 <= u < |pids| ==> !Locked(s.threads[u].pc))
      && (s.threads[t].pc.ProbeOpened? && pids[t] !in s.claimed ==>
            (Do(s, Query(t, true)).threads[t].pc.running <==> exists u :: 0 <= u < |pids| && Locked(s.threads[u].pc)))
  {
    var s := SysAt(Start(pids), moves, k);
    SamePids(pids, moves, k);
    InvAlways(pids, moves, k);
    forall u | 0 <= u < |pids| ensures Locked(s.threads[u].pc) ==> s.owner == Some(pids[u]) {
      MutualExclusion(pids, moves, k, u, u);
    }
    if s.threads[t].pc.ProbeOpened? && pids[t] !in s.claimed && s.owner.Some? {
      var u :| 0 <= u < |s.threads| && s.threads[u].pid == s.owner.value && Locked(s.threads[u].pc);
      assert Acquiring(s.threads[u].pc);
    }
  }

  /// The claim check and the open of a probe are two steps. A thread of process 7 probes, another acquires in
  /// between, the probe's close gives the lock away, and process 9 acquires it too: two holders.
  lemma ProbeGivesTheRunAway()
    ensures
      var moves := GIVEN_AWAY;
      && Runs(Start([7, 7, 9]), moves)
      && SysAt(Start([7, 7, 9]), moves, |moves|).threads == [Thread(7, Holding), Thread(7, Idle), Thread(9, Holding)]
  {
    forall k | 0 <= k <= |GIVEN_AWAY| ensures After(Start([7, 7, 9]), GIVEN_AWAY[..k]) == Some(GivenAway(k)) {
      GivenAwayRun(k);
    }
    assert GIVEN_AWAY[..|GIVEN_AWAY|] == GIVEN_AWAY;
  }

  const GIVEN_AWAY: seq<Move> := [
    Probe(1), Claim(0), Open(0, true), Take(0, true), Lease(0, true),
    ProbeOpen(1, true), Query(1, true), ProbeClose(1),
    Claim(2), Open(2, true), Take(2, true), Lease(2, true)
  ]

  function Three(first: Pc, prober: Pc, other: Pc, claimed: set<Pid>, owner: Option<Pid>, created: bool): Sys {
    Sys([Thread(7, first), Thread(7, prober), Thread(9, other)], claimed, owner, created)
  }

  function Climb(k: int): Pc {
    if k < 1 then Idle else if k == 1 then Claimed else if k == 2 then Opened else if k == 3 then Taken else Holding
  }

  /// What the given-away run looks like after k moves.
  function GivenAway(k: nat): Sys {
    if k == 0 then Three(Idle, Idle, Idle, {}, None, false)
    else if k < 6 then Three(Climb(k - 1), Probing, Idle, if k < 2 then {} else {7}, if k < 4 then None else Some(7), k >= 3)
    else if k < 9 then
      var prober := if k == 6 then ProbeOpened else if k == 7 then Answered(false) else Idle;
      Three(Holding, prober, Idle, {7}, if k < 8 then Some(7) else None, true)
    else Three(Holding, Idle, Climb(k - 8), {7, 9}, if k < 11 then None else Some(9), true)
  }

  lemma GivenAwayStep(k: nat)
    requires k < |GIVEN_AWAY|
    ensures Can(GivenAway(k), GIVEN_AWAY[k]) && Do(GivenAway(k), GIVEN_AWAY[k]) == GivenAway(k + 1)
  {
    if k < 4 {
      GivenAwayTaken(k);
    } else {
      GivenAwayLost(k);
    }
  }

  lemma GivenAwayTaken(k: nat)
    requires k < 4
    ensures Can(GivenAway(k), GIVEN_AWAY[k]) && Do(GivenAway(k), GIVEN_AWAY[k]) == GivenAway(k + 1)
  {
  }

  lemma GivenAwayLost(k: nat)
    requires 4 <= k < |GIVEN_AWAY|
    ensures Can(GivenAway(k), GIVEN_AWAY[k]) && Do(GivenAway(k), GIVEN_AWAY[k]) == GivenAway(k + 1)
  {
  }

  lemma {:induction false} GivenAwayRun(k: nat)
    requires k <= |GIVEN_AWAY|
    ensures After(Start([7, 7, 9]), GIVEN_AWAY[..k]) == Some(GivenAway(k))
  {
    if k == 0 {
      assert Start([7, 7, 9]).threads == GivenAway(0).threads;
    } else {
      GivenAwayRun(k - 1);
      GivenAwayStep(k - 1);
      assert GIVEN_AWAY[..k][..k - 1] == GIVEN_AWAY[..k - 1];
    }
  }

  // ------------------------------------------------------- the code itself

  lemma Extend(s: Sys, moves: seq<Move>, m: Move)
    requires After(s, moves).Some? && Can(After(s, moves).value, m)
    ensures After(s, moves + [m]) == Some(Do(After(s, moves).value, m))
  {
    assert (moves + [m])[..|moves|] == moves;
  }

  /// What `acquire` does when no other thread runs in between. `opens`, `locks` and `leases` say which of its calls
  /// the system lets succeed.
  function AcquireMoves(s: Sys, t: nat, opens: bool, locks: bool, leases: bool): seq<Move>
    requires t < |s.threads|
  {
    if s.threads[t].pid in s.claimed then []
    else if !opens then [Claim(t)] + [Open(t, false)] + [Unclaim(t)]
    else if !locks || Conflicts(s.owner, s.threads[t].pid) then
      [Claim(t)] + [Open(t, true)] + [Take(t, locks)] + [Close(t)] + [Unclaim(t)]
    else if !leases then
      [Claim(t)] + [Open(t, true)] + [Take(t, locks)] + [Lease(t, false)] + [Close(t)] + [Unclaim(t)]
    else [Claim(t)] + [Open(t, true)] + [Take(t, locks)] + [Lease(t, true)]
  }

  /// Where those steps lead.
  function Acquired(s: Sys, t: nat, opens: bool, locks: bool, leases: bool): Sys
    requires t < |s.threads|
  {
    var pid := s.threads[t].pid;
    if pid in s.claimed || !opens then s
    else if !locks || Conflicts(s.owner, pid) || !leases then s.(created := true)
    else Goto(s, t, Holding).(claimed := s.claimed + {pid}, owner := Some(pid), created := true)
  }

  /// The thread inside `acquire`, its file open.
  function Inside(s: Sys, t: nat, pc: Pc, owner: Option<Pid>): Sys
    requires t < |s.threads|
  {
    Goto(s, t, pc).(claimed := s.claimed + {s.threads[t].pid}, owner := owner, created := true)
  }

  lemma Opens(s: Sys, t: nat)
    requires At(s, t, Idle) && s.threads[t].pid !in s.claimed
    ensures After(s, [Claim(t)] + [Open(t, true)]) == Some(Inside(s, t, Opened, s.owner))
  {
    Extend(s, [], Claim(t));
    assert [] + [Claim(t)] == [Claim(t)];
    Extend(s, [Claim(t)], Open(t, true));
    assert Do(Do(s, Claim(t)), Open(t, true)) == Inside(s, t, Opened, s.owner);
  }

  lemma Enters(s: Sys, t: nat, locks: bool)
    requires At(s, t, Idle) && s.threads[t].pid !in s.claimed
    ensures
      var moves, pid := [Claim(t)] + [Open(t, true)] + [Take(t, locks)], s.threads[t].pid;
      After(s, moves) == Some(
        if locks && !Conflicts(s.owner, pid) then Inside(s, t, Taken, Some(pid)) else Inside(s, t, Refused, s.owner))
  {
    var s2 := Inside(s, t, Opened, s.owner);
    Opens(s, t);
    Extend(s, [Claim(t)] + [Open(t, true)], Take(t, locks));
    SameSys(Goto(s2, t, Taken), Inside(s, t, Taken, s.owner), t);
    SameSys(Goto(s2, t, Refused), Inside(s, t, Refused, s.owner), t);
  }

  lemma Leaves(s: Sys, t: nat, moves: seq<Move>, pc: Pc, owner: Option<Pid>)
    requires At(s, t, Idle) && s.threads[t].pid !in s.claimed && (pc.Refused? || pc.Releasing?)
    requires After(s, moves) == Some(Inside(s, t, pc, owner))
    ensures After(s, moves + [Close(t)] + [Unclaim(t)]) ==
      Some(s.(created := true, owner := AfterClose(owner, s.threads[t].pid)))
  {
    var s3 := Inside(s, t, pc, owner);
    Extend(s, moves, Close(t));
    var s4 := Do(s3, Close(t));
    Extend(s, moves + [Close(t)], Unclaim(t));
    SameSys(Do(s4, Unclaim(t)), s.(created := true, owner := AfterClose(owner, s.threads[t].pid)), t);
  }

  lemma AcquireRuns(s: Sys, t: nat, opens: bool, locks: bool, leases: bool)
    requires At(s, t, Idle) && Inv(s)
    ensures After(s, AcquireMoves(s, t, opens, locks, leases)) == Some(Acquired(s, t, opens, locks, leases))
  {
    OwnersAreClaimed(s);
    if s.threads[t].pid !in s.claimed {
      if opens {
        Enters(s, t, locks);
        AcquireFrom(s, t, locks, leases);
      } else {
        Extend(s, [], Claim(t));
        assert [] + [Claim(t)] == [Claim(t)];
        Extend(s, [Claim(t)], Open(t, false));
        var s2 := Do(Do(s, Claim(t)), Open(t, false));
        Extend(s, [Claim(t)] + [Open(t, false)], Unclaim(t));
        SameSys(Do(s2, Unclaim(t)), s, t);
      }
    }
  }

  lemma AcquireFrom(s: Sys, t: nat, locks: bool, leases: bool)
    requires At(s, t, Idle) && s.threads[t].pid !in s.claimed && s.owner != Some(s.threads[t].pid)
    requires
      var moves, pid := [Claim(t)] + [Open(t, true)] + [Take(t, locks)], s.threads[t].pid;
      After(s, moves) == Some(
        if locks && !Conflicts(s.owner, pid) then Inside(s, t, Taken, Some(pid)) else Inside(s, t, Refused, s.owner))
    ensures After(s, AcquireMoves(s, t, true, locks, leases)) == Some(Acquired(s, t, true, locks, leases))
  {
    var pid, moves := s.threads[t].pid, [Claim(t)] + [Open(t, true)] + [Take(t, locks)];
    if !locks || Conflicts(s.owner, pid) {
      Leaves(s, t, moves, Refused, s.owner);
    } else {
      var pc := if leases then Holding else Releasing;
      Extend(s, moves, Lease(t, leases));
      SameSys(Do(Inside(s, t, Taken, Some(pid)), Lease(t, leases)), Inside(s, t, pc, Some(pid)), t);
      if !leases {
        Leaves(s, t, moves + [Lease(t, leases)], pc, Some(pid));
      }
    }
  }

  lemma SameSys(a: Sys, b: Sys, t: nat)
    requires |a.threads| == |b.threads| && t < |a.threads| && a.threads[t] == b.threads[t]
    requires forall k :: 0 <= k < |a.threads| && k != t ==> a.threads[k] == b.threads[k]
    requires a.claimed == b.claimed && a.owner == b.owner && a.created == b.created
    ensures a == b
  {
    assert a.threads == b.threads;
  }

  lemma {:induction false} AfterConcat(s: Sys, a: seq<Move>, b: seq<Move>)
    requires After(s, a).Some?
    ensures After(s, a + b) == After(After(s, a).value, b)
  {
    if b == [] {
      assert a + b == a;
    } else {
      assert (a + b)[..|a + b| - 1] == a + b[..|b| - 1];
      AfterConcat(s, a, b[..|b| - 1]);
    }
  }

  function OpenedMoves(t: nat, locks: bool, leases: bool, conflicts: bool): seq<Move> {
    [Take(t, locks)] + if !locks || conflicts then [Close(t)] + [Unclaim(t)] else TakenMoves(t, leases)
  }

  function TakenMoves(t: nat, leases: bool): seq<Move> {
    [Lease(t, leases)] + if leases then [] else [Close(t)] + [Unclaim(t)]
  }

  lemma TakenFirst(trace: seq<Move>, t: nat, locks: bool, leases: bool)
    ensures trace + [Take(t, locks)] + TakenMoves(t, leases) == trace + ([Take(t, locks)] + TakenMoves(t, leases))
  {
  }

  lemma OpenedFirst(trace: seq<Move>, t: nat, locks: bool, leases: bool, conflicts: bool)
    ensures trace + [Claim(t)] + [Open(t, true)] + OpenedMoves(t, locks, leases, conflicts) ==
      trace + (
        if !locks || conflicts then [Claim(t)] + [Open(t, true)] + [Take(t, locks)] + [Close(t)] + [Unclaim(t)]
        else if !leases then
          [Claim(t)] + [Open(t, true)] + [Take(t, locks)] + [Lease(t, false)] + [Close(t)] + [Unclaim(t)]
        else [Claim(t)] + [Open(t, true)] + [Take(t, locks)] + [Lease(t, true)])
  {
  }

  /// A machine the statements run on. Each primitive is one step of the relation above, allowed only where that step
  /// is, and puts itself on the trace: a trace is what was done, in the order it was done.
  class Host {
    var threads: seq<Thread>
    var claimed: set<Pid>
    var owner: Option<Pid>
    var created: bool
    ghost var start: Sys
    ghost var trace: seq<Move>

    ghost function View(): Sys
      reads this
    {
      Sys(threads, claimed, owner, created)
    }

    ghost predicate Valid()
      reads this
    {
      After(start, trace) == Some(View())
    }

    constructor (pids: seq<Pid>)
      ensures Valid() && start == Start(pids) && trace == []
    {
      threads := seq(|pids|, k requires 0 <= k < |pids| => Thread(pids[k], Idle));
      claimed, owner, created := {}, None, false;
      start, trace := Start(pids), [];
    }

    /// One step was made, and no other.
    ghost predicate Did(before: Sys, start0: Sys, trace0: seq<Move>, m: Move)
      reads this
    {
      Valid() && start == start0 && trace == trace0 + [m] && Can(before, m) && View() == Do(before, m)
    }

    method Enter(t: nat, pc: Pc)
      requires t < |threads|
      modifies this`threads
      ensures View() == Goto(old(View()), t, pc)
    {
      threads := threads[t := threads[t].(pc := pc)];
    }

    method InsertClaim(t: nat) returns (inserted: bool)
      requires Valid() && At(View(), t, Idle)
      modifies this
      ensures inserted == (old(threads[t]).pid !in old(claimed))
      ensures if inserted then Did(old(View()), old(start), old(trace), Claim(t))
              else View() == old(View()) && start == old(start) && trace == old(trace)
    {
      var pid := threads[t].pid;
      inserted := pid !in claimed;
      if inserted {
        Extend(start, trace, Claim(t));
        claimed := claimed + {pid};
        Enter(t, Claimed);
        trace := trace + [Claim(t)];
      }
    }

    method RemoveClaim(t: nat)
      requires Valid() && Can(View(), Unclaim(t))
      modifies this
      ensures Did(old(View()), old(start), old(trace), Unclaim(t))
    {
      Extend(start, trace, Unclaim(t));
      claimed := claimed - {threads[t].pid};
      Enter(t, Idle);
      trace := trace + [Unclaim(t)];
    }

    method OpenFile(t: nat, ok: bool)
      requires Valid() && Can(View(), Open(t, ok))
      modifies this
      ensures Did(old(View()), old(start), old(trace), Open(t, ok))
    {
      Extend(start, trace, Open(t, ok));
      if ok {
        created := true;
        Enter(t, Opened);
      } else {
        Enter(t, Closed);
      }
      trace := trace + [Open(t, ok)];
    }

    method TakeLock(t: nat, works: bool) returns (taken: bool)
      requires Valid() && Can(View(), Take(t, works))
      modifies this
      ensures Did(old(View()), old(start), old(trace), Take(t, works))
      ensures taken <==> works && !Conflicts(old(owner), old(threads[t].pid))
    {
      Extend(start, trace, Take(t, works));
      var pid := threads[t].pid;
      taken := works && !(owner.Some? && owner.value != pid);
      if taken {
        owner := Some(pid);
        Enter(t, Taken);
      } else {
        Enter(t, Refused);
      }
      trace := trace + [Take(t, works)];
    }

    method TakeLease(t: nat, ok: bool)
      requires Valid() && Can(View(), Lease(t, ok))
      modifies this
      ensures Did(old(View()), old(start), old(trace), Lease(t, ok))
    {
      Extend(start, trace, Lease(t, ok));
      Enter(t, if ok then Holding else Releasing);
      trace := trace + [Lease(t, ok)];
    }

    method BeginDrop(t: nat)
      requires Valid() && Can(View(), Drop(t))
      modifies this
      ensures Did(old(View()), old(start), old(trace), Drop(t))
    {
      Extend(start, trace, Drop(t));
      Enter(t, Releasing);
      trace := trace + [Drop(t)];
    }

    method CloseFile(t: nat)
      requires Valid() && Can(View(), Close(t))
      modifies this
      ensures Did(old(View()), old(start), old(trace), Close(t))
    {
      Extend(start, trace, Close(t));
      if owner == Some(threads[t].pid) {
        owner := None;
      }
      Enter(t, Closed);
      trace := trace + [Close(t)];
    }

    /// `release_claim_after_file`: the descriptor first, the claim second.
    method ReleaseClaimAfterFile(t: nat)
      requires Valid() && Can(View(), Close(t))
      modifies this
      ensures Valid() && start == old(start) && trace == old(trace) + [Close(t)] + [Unclaim(t)]
      ensures Can(Do(old(View()), Close(t)), Unclaim(t))
      ensures View() == Do(Do(old(View()), Close(t)), Unclaim(t))
    {
      CloseFile(t);
      RemoveClaim(t);
    }

    /// An acquisition does the steps of `AcquireMoves` in that order and no others. One that fails leaves no claim and
    /// no lock of its own; one that succeeds has both.
    method Acquire(t: nat, opens: bool, locks: bool, leases: bool) returns (ok: bool)
      requires Valid() && At(View(), t, Idle) && Inv(View())
      modifies this
      ensures Valid() && start == old(start)
      ensures trace == old(trace) + AcquireMoves(old(View()), t, opens, locks, leases)
      ensures View() == Acquired(old(View()), t, opens, locks, leases)
      ensures ok <==> opens && locks && leases && old(threads[t].pid !in claimed && !Conflicts(owner, threads[t].pid))
      ensures ok ==> At(View(), t, Holding) && owner == Some(threads[t].pid) && claimed == old(claimed) + {threads[t].pid}
      ensures !ok ==> threads == old(threads) && claimed == old(claimed) && owner == old(owner)
    {
      OwnersAreClaimed(View());
      AcquireRuns(View(), t, opens, locks, leases);
      AfterConcat(start, trace, AcquireMoves(View(), t, opens, locks, leases));
      ok := AcquireSteps(t, opens, locks, leases);
    }

    method AcquireSteps(t: nat, opens: bool, locks: bool, leases: bool) returns (ok: bool)
      requires Valid() && At(View(), t, Idle)
      modifies this
      ensures Valid() && start == old(start)
      ensures trace == old(trace) + AcquireMoves(old(View()), t, opens, locks, leases)
      ensures ok <==> opens && locks && leases && old(threads[t].pid !in claimed && !Conflicts(owner, threads[t].pid))
    {
      var inserted := InsertClaim(t);
      if !inserted {
        assert trace == old(trace) + [];
        return false;
      }
      OpenFile(t, opens);
      if !opens {
        RemoveClaim(t);
        assert trace == old(trace) + ([Claim(t)] + [Open(t, false)] + [Unclaim(t)]);
        return false;
      }
      label L:
      ok := TakeSteps(t, locks, leases);
      OpenedFirst(old(trace), t, locks, leases, old@L(Conflicts(owner, threads[t].pid)));
    }

    /// The rest of an acquisition whose file is open.
    method TakeSteps(t: nat, locks: bool, leases: bool) returns (ok: bool)
      requires Valid() && At(View(), t, Opened)
      modifies this
      ensures Valid() && start == old(start)
      ensures trace == old(trace) + OpenedMoves(t, locks, leases, old(Conflicts(owner, threads[t].pid)))
      ensures ok <==> locks && leases && !old(Conflicts(owner, threads[t].pid))
    {
      var taken := TakeLock(t, locks);
      if !taken {
        ReleaseClaimAfterFile(t);
        assert trace == old(trace) + ([Take(t, locks)] + ([Close(t)] + [Unclaim(t)]));
        return false;
      }
      ok := LeaseSteps(t, leases);
      TakenFirst(old(trace), t, locks, leases);
    }

    /// The rest of an acquisition that has the lock.
    method LeaseSteps(t: nat, leases: bool) returns (ok: bool)
      requires Valid() && At(View(), t, Taken)
      modifies this
      ensures Valid() && start == old(start)
      ensures trace == old(trace) + TakenMoves(t, leases)
      ensures ok == leases
    {
      TakeLease(t, leases);
      if !leases {
        ReleaseClaimAfterFile(t);
        assert trace == old(trace) + TakenMoves(t, false);
      }
      ok := leases;
    }

    /// Dropping a lock.
    method Release(t: nat)
      requires Valid() && At(View(), t, Holding) && Inv(View())
      modifies this
      ensures Valid() && start == old(start) && trace == old(trace) + [Drop(t)] + [Close(t)] + [Unclaim(t)]
      ensures Inv(View()) && threads[t].pid !in claimed && owner != Some(threads[t].pid)
    {
      InvKept(View(), Drop(t));
      BeginDrop(t);
      InvKept(View(), Close(t));
      InvKept(Do(View(), Close(t)), Unclaim(t));
      ReleaseClaimAfterFile(t);
    }
  }
}
