// The compatibility boundary every whole-log reader crosses (src/events.rs:1883-2159).
module Schema {
  import opened Prelude
  import opened Events
  import opened Decisions
  import Review

  const SCHEMA_VERSION: nat := 3

  // ------------------------------------------------------------- strings

  predicate IsHex(c: char) {
    '0' <= c <= '9' || 'a' <= c <= 'f' || 'A' <= c <= 'F'
  }

  predicate AllHex(s: string) {
    forall k :: 0 <= k < |s| ==> IsHex(s[k])
  }

  predicate HasDotDot(s: string) {
    exists k :: 0 <= k < |s| - 1 && s[k] == '.' && s[k + 1] == '.'
  }

  /// Unicode White_Space, what `str::trim` strips.
  predicate IsSpace(c: char) {
    var n := c as int;
    9 <= n <= 13 || n == 0x20 || n == 0x85 || n == 0xA0 || n == 0x1680 || 0x2000 <= n <= 0x200A
    || n == 0x2028 || n == 0x2029 || n == 0x202F || n == 0x205F || n == 0x3000
  }

  predicate IsRefChar(c: char) {
    '0' <= c <= '9' || 'a' <= c <= 'z' || 'A' <= c <= 'Z' || c == '/' || c == '-' || c == '_'
  }

  function Digits(n: nat): string {
    if n < 10 then [('0' as int + n) as char] else Digits(n / 10) + Digits(n % 10)
  }

  predicate ValidOid(s: string) {
    (|s| == 40 || |s| == 64) && AllHex(s)
  }

  predicate ValidDigest(s: string) {
    "sha256:" <= s && |s| == 7 + 64 && AllHex(s[7..])
  }

  predicate ValidPreparedShape(p: PreparedCommit) {
    && "refs/heads/" <= p.branchRef && !HasDotDot(p.branchRef)
    && ValidOid(p.parentSha) && ValidOid(p.treeSha) && ValidOid(p.commitSha)
    && |p.parentSha| == |p.treeSha| == |p.commitSha|
    && p.parentSha != p.commitSha
    && (exists k :: 0 <= k < |p.message| && !IsSpace(p.message[k]))
    && '\r' !in p.message && '\n' !in p.message
    && "refs/tactus/prepared/" <= p.pinRef && !HasDotDot(p.pinRef)
    && forall k :: 0 <= k < |p.pinRef| ==> IsRefChar(p.pinRef[k])
  }

  // ---------------------------------------------------- what a log must say

  /// The position of a task among the recorded chains.
  function ChainOf(chains: seq<ChainSummary>, task: TaskId): (r: Option<nat>)
    ensures r.Some? ==> r.value < |chains| && chains[r.value].task == task
    ensures r.Some? ==> forall k :: 0 <= k < r.value ==> chains[k].task != task
    ensures r.None? ==> forall k :: 0 <= k < |chains| ==> chains[k].task != task
  {
    if chains == [] then None
    else if chains[0].task == task then Some(0)
    else match ChainOf(chains[1..], task) case None => None case Some(k) => Some(k + 1)
  }

  /// The commit a success binds is deterministic for its run, task and attempt.
  predicate BindsPrepared(header: RunHeader, task: TaskId, attempt: u32, p: PreparedCommit) {
    var chain := ChainOf(header.chains, task);
    && ValidPreparedShape(p)
    && chain.Some?
    && p.branchRef == "refs/heads/" + header.branch
    && p.pinRef == "refs/tactus/prepared/" + header.runId + "/" + Digits(chain.value) + "-" + Digits(attempt)
    && "[tactus] " + task + ": " <= p.message
  }

  predicate SettlementOk(header: RunHeader, e: Event)
    requires e.AttemptFinished?
  {
    && e.record.attempt == e.attempt
    && (e.record.failure.Some? <==> e.parking.Some? || e.transition.Some?)
    && (e.record.failure.Some? ==> e.prepared.None? && ValidAttemptDecision(e.task, e.record.failure.value, e.transition, e.parking))
    && (e.record.failure.None? ==> e.prepared.Some? && BindsPrepared(header, e.task, e.attempt, e.prepared.value))
  }

  /// `started_of`: the first `run_started` of a log (src/events.rs:1834-1847).
  function StartedOf(log: seq<Event>): (r: Option<RunHeader>)
    ensures r.None? ==> forall k :: 0 <= k < |log| ==> !log[k].RunStarted?
    ensures r.Some? ==>
      exists k :: 0 <= k < |log| && log[k] == RunStarted(r.value) && forall j :: 0 <= j < k ==> !log[j].RunStarted?
  {
    if log == [] then None
    else if log[0].RunStarted? then Some(log[0].header)
    else
      var later := StartedOf(log[1..]);
      assert forall k :: 0 <= k < |log| - 1 ==> log[1..][k] == log[k + 1];
      later
  }

  /// The schema in force just before event k.
  function SchemaBefore(header: RunHeader, log: seq<Event>, k: nat): nat
    requires k <= |log|
  {
    if k == 0 then header.schema
    else if log[k - 1].RunSchemaUpgraded? then log[k - 1].to
    else SchemaBefore(header, log, k - 1)
  }

  predicate UpgradeOk(header: RunHeader, log: seq<Event>, k: nat)
    requires k < |log|
  {
    log[k].RunSchemaUpgraded? ==> log[k].from == SchemaBefore(header, log, k) && log[k].to > log[k].from
  }

  /// A success whose commit must be the very next event.
  predicate Publishes(header: RunHeader, log: seq<Event>, k: int)
    requires k < |log|
  {
    k >= 0 && SchemaBefore(header, log, k) >= 3 && log[k].AttemptFinished? && log[k].prepared.Some?
  }

  predicate CommitsExactly(e: Event, task: TaskId, p: PreparedCommit) {
    e.TaskCommitted? && e.task == task && e.sha == p.commitSha && e.message == p.message
  }

  predicate EventOk(header: RunHeader, log: seq<Event>, k: nat)
    requires k < |log|
  {
    if log[k].RunSchemaUpgraded? || SchemaBefore(header, log, k) < 3 then true
    else if Publishes(header, log, k - 1) then CommitsExactly(log[k], log[k - 1].task, log[k - 1].prepared.value)
    else match log[k]
      case AttemptFinished(_, _, _, _, _, _, _, _) => SettlementOk(header, log[k])
      case QuestionAnswered(_, answer, policy) => answer.Declined? ==> policy.Some?
      case TaskCommitted(_, _, _) => false
      case _ => true
  }

  predicate CompleteReviews(reviews: Option<Review.ReviewPlan>, tasks: nat) {
    && reviews.Some?
    && reviews.value.passTimeoutSecs.Some? && reviews.value.passTimeoutSecs.value > 0
    && Review.ValidReviewIdentity(reviews.value, tasks)
  }

  predicate IdentityOk(digest: Option<string>, reviews: Option<Review.ReviewPlan>, tasks: nat) {
    digest.Some? && ValidDigest(digest.value) && CompleteReviews(reviews, tasks)
  }

  /// A resume written after the upgrade to schema 3.
  predicate CompletingResume(header: RunHeader, log: seq<Event>, k: nat)
    requires k < |log|
  {
    log[k].RunResumed? && SchemaBefore(header, log, k) >= 3
  }

  predicate ResumeIdentityOk(header: RunHeader, log: seq<Event>, k: nat)
    requires k < |log|
  {
    CompletingResume(header, log, k) && (forall j :: 0 <= j < k ==> !CompletingResume(header, log, j)) ==>
      IdentityOk(log[k].resume.normalizedPlanDigest, log[k].resume.reviews, |header.chains|)
  }

  ghost predicate Accepted(header: RunHeader, log: seq<Event>) {
    && (forall k :: 0 <= k < |log| ==> UpgradeOk(header, log, k))
    && SchemaBefore(header, log, |log|) <= SCHEMA_VERSION
    && (forall k :: 0 <= k < |log| ==> EventOk(header, log, k))
    && (if header.schema >= 3 then IdentityOk(header.normalizedPlanDigest, header.reviews, |header.chains|)
        else forall k :: 0 <= k < |log| ==> ResumeIdentityOk(header, log, k))
  }

  // ------------------------------------------------------------ the check

  datatype SchemaError = InvalidTransition(at: nat) | NewerSchema | InvalidEvent(at: nat) | InvalidIdentity

  ghost predicate UpgradesOk(header: RunHeader, log: seq<Event>) {
    forall k :: 0 <= k < |log| ==> UpgradeOk(header, log, k)
  }

  ghost predicate EventsOk(header: RunHeader, log: seq<Event>, n: nat)
    requires n <= |log|
  {
    forall k :: 0 <= k < n ==> EventOk(header, log, k)
  }

  ghost predicate IdentityKnown(header: RunHeader, log: seq<Event>) {
    if header.schema >= 3 then IdentityOk(header.normalizedPlanDigest, header.reviews, |header.chains|)
    else forall k :: 0 <= k < |log| ==> ResumeIdentityOk(header, log, k)
  }

  /// What each refusal means: the first check that fails, at the first event it fails at.
  ghost predicate RefusedFor(header: RunHeader, log: seq<Event>, error: SchemaError) {
    match error
    case InvalidTransition(at) =>
      at < |log| && !UpgradeOk(header, log, at) && forall k :: 0 <= k < at ==> UpgradeOk(header, log, k)
    case NewerSchema => UpgradesOk(header, log) && SchemaBefore(header, log, |log|) > SCHEMA_VERSION
    case InvalidEvent(at) =>
      && UpgradesOk(header, log) && SchemaBefore(header, log, |log|) <= SCHEMA_VERSION
      && at < |log| && !EventOk(header, log, at) && EventsOk(header, log, at)
    case InvalidIdentity =>
      && UpgradesOk(header, log) && SchemaBefore(header, log, |log|) <= SCHEMA_VERSION
      && EventsOk(header, log, |log|) && !IdentityKnown(header, log)
  }

  method EnsureSupportedSchema(header: RunHeader, log: seq<Event>) returns (r: Result<nat, SchemaError>)
    ensures r.Ok? <==> Accepted(header, log)
    ensures r.Ok? ==> r.value == SchemaBefore(header, log, |log|)
    ensures r.Err? ==> RefusedFor(header, log, r.error)
  {
    var effective := CheckUpgrades(header, log);
    if effective.Err? {
      return effective;
    }
    if effective.value > SCHEMA_VERSION {
      return Err(NewerSchema);
    }
    var bad := CheckEvents(header, log);
    if bad.Some? {
      return Err(InvalidEvent(bad.value));
    }
    var known := CheckIdentity(header, log, effective.value);
    if !known {
      return Err(InvalidIdentity);
    }
    r := effective;
  }

  method CheckUpgrades(header: RunHeader, log: seq<Event>) returns (r: Result<nat, SchemaError>)
    ensures r.Ok? ==> UpgradesOk(header, log) && r.value == SchemaBefore(header, log, |log|)
    ensures r.Err? ==> r.error.InvalidTransition? && RefusedFor(header, log, r.error)
  {
    var effective := header.schema;
    for k := 0 to |log|
      invariant effective == SchemaBefore(header, log, k)
      invariant forall j :: 0 <= j < k ==> UpgradeOk(header, log, j)
    {
      if log[k].RunSchemaUpgraded? {
        if log[k].from != effective || log[k].to <= log[k].from {
          return Err(InvalidTransition(k));
        }
        effective := log[k].to;
      }
    }
    r := Ok(effective);
  }

  /// One event against the success that may be waiting for its commit, at schema 3.
  predicate EventPasses(header: RunHeader, pending: Option<(TaskId, PreparedCommit)>, e: Event) {
    if pending.Some? then CommitsExactly(e, pending.value.0, pending.value.1)
    else match e
      case AttemptFinished(_, _, _, _, _, _, _, _) => SettlementOk(header, e)
      case QuestionAnswered(_, answer, policy) => answer.Declined? ==> policy.Some?
      case TaskCommitted(_, _, _) => false
      case _ => true
  }

  function PendingAfter(header: RunHeader, log: seq<Event>, k: nat): Option<(TaskId, PreparedCommit)>
    requires k <= |log|
  {
    if k > 0 && Publishes(header, log, k - 1) then Some((log[k - 1].task, log[k - 1].prepared.value)) else None
  }

  lemma EventOkIs(header: RunHeader, log: seq<Event>, k: nat)
    requires k < |log| && !log[k].RunSchemaUpgraded? && SchemaBefore(header, log, k) >= 3
    ensures EventOk(header, log, k) <==> EventPasses(header, PendingAfter(header, log, k), log[k])
  {
  }

  /// A success waits for its commit until the very next event, and nothing else ever waits.
  lemma PendingMoves(header: RunHeader, log: seq<Event>, k: nat)
    requires k < |log| && UpgradesOk(header, log) && SchemaBefore(header, log, |log|) <= SCHEMA_VERSION
    requires SchemaBefore(header, log, k) >= 3 ==> EventOk(header, log, k)
    ensures log[k].RunSchemaUpgraded? ==> SchemaBefore(header, log, k) < 3 && PendingAfter(header, log, k).None?
    ensures PendingAfter(header, log, k + 1) ==
      if SchemaBefore(header, log, k) >= 3 && log[k].AttemptFinished? && log[k].prepared.Some?
      then Some((log[k].task, log[k].prepared.value)) else None
  {
    if log[k].RunSchemaUpgraded? {
      SchemaGrows(header, log, k + 1, |log|);
      assert UpgradeOk(header, log, k);
      if k > 0 {
        SchemaGrows(header, log, k - 1, k);
      }
    }
  }

  /// The pass over the events, carrying the success whose commit must come next.
  method CheckEvents(header: RunHeader, log: seq<Event>) returns (bad: Option<nat>)
    requires UpgradesOk(header, log) && SchemaBefore(header, log, |log|) <= SCHEMA_VERSION
    ensures bad.None? ==> EventsOk(header, log, |log|)
    ensures bad.Some? ==> bad.value < |log| && !EventOk(header, log, bad.value) && EventsOk(header, log, bad.value)
  {
    var schema := header.schema;
    var pending: Option<(TaskId, PreparedCommit)> := None;
    for k := 0 to |log|
      invariant schema == SchemaBefore(header, log, k) && EventsOk(header, log, k)
      invariant pending == PendingAfter(header, log, k)
    {
      var e := log[k];
      if e.RunSchemaUpgraded? {
        PendingMoves(header, log, k);
        schema := e.to;
        continue;
      }
      if schema < 3 {
        PendingMoves(header, log, k);
        NothingPendsBelowThree(header, log, k);
        continue;
      }
      EventOkIs(header, log, k);
      if !EventPasses(header, pending, e) {
        return Some(k);
      }
      PendingMoves(header, log, k);
      pending := if e.AttemptFinished? && e.prepared.Some? then Some((e.task, e.prepared.value)) else None;
    }
    bad := None;
  }

  lemma NothingPendsBelowThree(header: RunHeader, log: seq<Event>, k: nat)
    requires k < |log| && UpgradesOk(header, log) && SchemaBefore(header, log, k) < 3
    ensures PendingAfter(header, log, k).None?
  {
    if k > 0 {
      SchemaGrows(header, log, k - 1, k);
    }
  }

  /// A schema-3 run knows its identity from its header, an upgraded one from its first resume after the upgrade.
  method CheckIdentity(header: RunHeader, log: seq<Event>, effective: nat) returns (known: bool)
    requires UpgradesOk(header, log) && effective == SchemaBefore(header, log, |log|)
    ensures known <==> IdentityKnown(header, log)
  {
    if header.schema >= 3 {
      return IdentityOk(header.normalizedPlanDigest, header.reviews, |header.chains|);
    }
    if effective < 3 {
      forall k | 0 <= k < |log| ensures !CompletingResume(header, log, k) {
        SchemaGrows(header, log, k, |log|);
      }
      return true;
    }
    var schema := header.schema;
    for k := 0 to |log|
      invariant schema == SchemaBefore(header, log, k)
      invariant forall j :: 0 <= j < k ==> !CompletingResume(header, log, j)
    {
      match log[k]
      case RunSchemaUpgraded(_, to) => schema := to;
      case RunResumed(resume) =>
        if schema >= 3 {
          known := IdentityOk(resume.normalizedPlanDigest, resume.reviews, |header.chains|);
          FirstResumeDecides(header, log, k);
          return;
        }
      case _ =>
    }
    known := true;
  }

  lemma FirstResumeDecides(header: RunHeader, log: seq<Event>, k: nat)
    requires k < |log| && header.schema < 3 && CompletingResume(header, log, k)
    requires forall j :: 0 <= j < k ==> !CompletingResume(header, log, j)
    ensures IdentityKnown(header, log) <==>
      IdentityOk(log[k].resume.normalizedPlanDigest, log[k].resume.reviews, |header.chains|)
  {
    assert ResumeIdentityOk(header, log, k) <==>
      IdentityOk(log[k].resume.normalizedPlanDigest, log[k].resume.reviews, |header.chains|);
  }

  // ------------------------------------------------------------- lemmas

  /// Upgrades only move forward.
  lemma {:induction false} SchemaGrows(header: RunHeader, log: seq<Event>, i: nat, j: nat)
    requires i <= j <= |log|
    requires forall k :: 0 <= k < |log| ==> UpgradeOk(header, log, k)
    ensures SchemaBefore(header, log, i) <= SchemaBefore(header, log, j)
  {
    if i < j {
      assert UpgradeOk(header, log, j - 1);
      SchemaGrows(header, log, i, j - 1);
    }
  }

  lemma {:induction false} SchemaOfPrefix(header: RunHeader, log: seq<Event>, n: nat, k: nat)
    requires k <= n <= |log|
    ensures SchemaBefore(header, log[..n], k) == SchemaBefore(header, log, k)
  {
    if k > 0 {
      SchemaOfPrefix(header, log, n, k - 1);
    }
  }

  /// Crash closure: whatever event a process dies after, what is left of an accepted log is accepted.
  lemma AcceptedIsPrefixClosed(header: RunHeader, log: seq<Event>, n: nat)
    requires Accepted(header, log) && n <= |log|
    ensures Accepted(header, log[..n])
  {
    var cut := log[..n];
    SchemaOfPrefix(header, log, n, n);
    SchemaGrows(header, log, n, |log|);
    forall k | 0 <= k < n
      ensures UpgradeOk(header, cut, k) && EventOk(header, cut, k)
      ensures header.schema < 3 ==> ResumeIdentityOk(header, cut, k)
    {
      assert UpgradeOk(header, log, k) && EventOk(header, log, k);
      SchemaOfPrefix(header, log, n, k);
      if k > 0 {
        SchemaOfPrefix(header, log, n, k - 1);
      }
      if header.schema < 3 && CompletingResume(header, cut, k) && forall j :: 0 <= j < k ==> !CompletingResume(header, cut, j) {
        forall j | 0 <= j < k ensures !CompletingResume(header, log, j) {
          SchemaOfPrefix(header, log, n, j);
          assert !CompletingResume(header, cut, j);
        }
        assert ResumeIdentityOk(header, log, k);
      }
    }
  }

  /// Once a log is at schema 3 it stays there, to the end.
  lemma NoUpgradePastThree(header: RunHeader, log: seq<Event>, k: nat)
    requires Accepted(header, log) && k < |log| && SchemaBefore(header, log, k) >= 3
    ensures SchemaBefore(header, log, k) == 3 && !log[k].RunSchemaUpgraded?
  {
    assert UpgradeOk(header, log, k);
    SchemaGrows(header, log, k, |log|);
    SchemaGrows(header, log, k + 1, |log|);
  }

  /// A commit and the success that bound it are adjacent, both ways round: at schema 3 an event is a
  /// `task_committed` exactly when the event before it is a success, and then it is for that success's task,
  /// object and message.
  lemma CommitsAreBound(header: RunHeader, log: seq<Event>, k: nat)
    requires Accepted(header, log) && k < |log| && SchemaBefore(header, log, k) >= 3
    ensures log[k].TaskCommitted? <==>
      k > 0 && SchemaBefore(header, log, k - 1) >= 3 && log[k - 1].AttemptFinished? && log[k - 1].record.failure.None?
    ensures log[k].TaskCommitted? ==>
      && log[k].task == log[k - 1].task && log[k - 1].prepared.Some?
      && log[k].sha == log[k - 1].prepared.value.commitSha && log[k].message == log[k - 1].prepared.value.message
      && BindsPrepared(header, log[k].task, log[k - 1].attempt, log[k - 1].prepared.value)
  {
    assert EventOk(header, log, k);
    NoUpgradePastThree(header, log, k);
    if k > 0 && SchemaBefore(header, log, k - 1) >= 3 && log[k - 1].AttemptFinished? {
      assert EventOk(header, log, k - 1);
      assert SettlementOk(header, log[k - 1]);
    }
  }

  // --------------------------------------------------- the plan's identity

  /// The first digest of the plan's bytes recorded at schema 3, from event k on (src/events.rs:1715-1737).
  function DigestFrom(log: seq<Event>, k: nat, schema: nat): Option<string>
    requires k <= |log|
    decreases |log| - k
  {
    if k == |log| then None
    else match log[k]
      case RunStarted(header) =>
        if header.schema >= 3 && header.normalizedPlanDigest.Some? then header.normalizedPlanDigest
        else DigestFrom(log, k + 1, header.schema)
      case RunSchemaUpgraded(_, to) => DigestFrom(log, k + 1, to)
      case RunResumed(resume) =>
        if schema >= 3 && resume.normalizedPlanDigest.Some? then resume.normalizedPlanDigest
        else DigestFrom(log, k + 1, schema)
      case _ => DigestFrom(log, k + 1, schema)
  }

  function RecordedDigest(log: seq<Event>): Option<string> {
    DigestFrom(log, 0, 0)
  }

  method RecordedNormalizedPlanDigest(log: seq<Event>) returns (r: Option<string>)
    ensures r == RecordedDigest(log)
  {
    var schema: nat := 0;
    for k := 0 to |log|
      invariant RecordedDigest(log) == DigestFrom(log, k, schema)
    {
      match log[k]
      case RunStarted(header) =>
        schema := header.schema;
        if schema >= 3 && header.normalizedPlanDigest.Some? {
          return header.normalizedPlanDigest;
        }
      case RunSchemaUpgraded(_, to) => schema := to;
      case RunResumed(resume) =>
        if schema >= 3 && resume.normalizedPlanDigest.Some? {
          return resume.normalizedPlanDigest;
        }
      case _ =>
    }
    r := None;
  }

  /// A log as an engine leaves it: it says once, and first, how the run began.
  ghost predicate StartsOnce(header: RunHeader, log: seq<Event>) {
    log != [] && log[0] == RunStarted(header) && forall k :: 0 < k < |log| ==> !log[k].RunStarted?
  }

  lemma {:induction false} DigestAfter(header: RunHeader, log: seq<Event>, k: nat)
    requires StartsOnce(header, log) && header.schema < 3 && Accepted(header, log) && 0 < k <= |log|
    requires forall j :: 0 <= j < k ==> !CompletingResume(header, log, j)
    ensures
      var digest := DigestFrom(log, k, SchemaBefore(header, log, k));
      && (digest.None? <==> forall j :: 0 <= j < |log| ==> !CompletingResume(header, log, j))
      && (digest.Some? ==> ValidDigest(digest.value))
    decreases |log| - k
  {
    if k < |log| {
      assert ResumeIdentityOk(header, log, k);
      if !CompletingResume(header, log, k) {
        DigestAfter(header, log, k + 1);
      }
    }
  }

  /// Which accepted logs at schema 3 do not say what bytes their plan had: exactly those of an older run that was
  /// upgraded and stopped before the resume that completes the upgrade. Any other has a well-formed digest.
  lemma NoDigestMeans(header: RunHeader, log: seq<Event>)
    requires StartsOnce(header, log) && Accepted(header, log)
    ensures RecordedDigest(log).None? <==>
      header.schema < 3 && forall k :: 0 <= k < |log| ==> !CompletingResume(header, log, k)
    ensures RecordedDigest(log).Some? ==> ValidDigest(RecordedDigest(log).value)
  {
    if header.schema < 3 {
      assert SchemaBefore(header, log, 1) == header.schema;
      DigestAfter(header, log, 1);
    }
  }
}
