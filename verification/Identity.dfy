// What makes a log a reader will take (src/events.rs:1883-2160 and 2276-2321), spelled out in full: which headers, which
// settlements and which events, and one run that goes through.
module Identity {
  import opened Prelude
  import opened Events
  import opened Decisions
  import opened Schema
  import Routing = Config
  import Review
  import Rfc3339

  const DIGITS := "0123456789"
  const HEX := DIGITS + "abcdef" + "ABCDEF"
  const REF := "abcdefghijklmnopqrstuvwxyz" + "ABCDEFGHIJKLMNOPQRSTUVWXYZ" + DIGITS + "/-_"

  predicate Over(s: string, alphabet: string) {
    forall k :: 0 <= k < |s| ==> s[k] in alphabet
  }

  lemma HexIsHex(c: char)
    ensures IsHex(c) <==> c in HEX
  {
    HexDigits(c);
  }

  lemma HexDigits(c: char)
    ensures '0' <= c <= '9' <==> c in DIGITS
    ensures 'a' <= c <= 'f' <==> c in "abcdef"
    ensures 'A' <= c <= 'F' <==> c in "ABCDEF"
  {
  }

  lemma AllHexIsOver(s: string)
    ensures AllHex(s) <==> Over(s, HEX)
  {
    forall k | 0 <= k < |s| ensures IsHex(s[k]) <==> s[k] in HEX {
      HexIsHex(s[k]);
    }
  }

  // ---------------------------------------------------------------- headers

  /// `sha256:` and 64 hexadecimal digits.
  ghost predicate NamesBytes(digest: string) {
    exists h :: |h| == 64 && Over(h, HEX) && digest == "sha256:" + h
  }

  lemma DigestNamesBytes(digest: string)
    ensures ValidDigest(digest) <==> NamesBytes(digest)
  {
    if ValidDigest(digest) {
      AllHexIsOver(digest[7..]);
      assert digest == "sha256:" + digest[7..];
    }
    if h :| |h| == 64 && Over(h, HEX) && digest == "sha256:" + h {
      AllHexIsOver(h);
      assert digest[7..] == h;
    }
  }

  /// A recorded plan of review that is on: a primary, and a slot for every task.
  ghost predicate ReviewIsOn(plan: Review.ReviewPlan, tasks: nat) {
    exists primary, alternative: Option<Review.PassBinding>, seconds: seq<Option<Review.PassBinding>> ::
      |seconds| == tasks
      && plan == Review.ReviewPlan(Some(true), Some(alternative.Some?), plan.passTimeoutSecs, Some(primary), alternative, seconds)
  }

  /// One that is off: it binds nobody.
  ghost predicate ReviewIsOff(plan: Review.ReviewPlan) {
    exists seconds: seq<Option<Review.PassBinding>> ::
      (forall k :: 0 <= k < |seconds| ==> seconds[k] == None)
      && plan == Review.ReviewPlan(Some(false), Some(false), plan.passTimeoutSecs, None, None, seconds)
  }

  lemma ReviewIdentityIs(plan: Review.ReviewPlan, tasks: nat)
    ensures Review.ValidReviewIdentity(plan, tasks) <==> ReviewIsOn(plan, tasks) || ReviewIsOff(plan)
  {
    if Review.ValidReviewIdentity(plan, tasks) {
      if plan.primary.Some? {
        assert plan == Review.ReviewPlan(
          Some(true), Some(plan.alternative.Some?), plan.passTimeoutSecs, Some(plan.primary.value), plan.alternative, plan.secondOpinion);
      } else {
        assert plan == Review.ReviewPlan(Some(false), Some(false), plan.passTimeoutSecs, None, None, plan.secondOpinion);
      }
    }
  }

  /// What a run knows of itself from the start at schema 3: the bytes of its plan, and who reviews it for how long.
  ghost predicate Knows(header: RunHeader) {
    && header.normalizedPlanDigest.Some? && NamesBytes(header.normalizedPlanDigest.value)
    && header.reviews.Some?
    && var plan := header.reviews.value;
    && plan.passTimeoutSecs.Some? && plan.passTimeoutSecs.value > 0
    && (ReviewIsOn(plan, |header.chains|) || ReviewIsOff(plan))
  }

  lemma KnowsIs(header: RunHeader)
    ensures IdentityOk(header.normalizedPlanDigest, header.reviews, |header.chains|) <==> Knows(header)
  {
    if header.normalizedPlanDigest.Some? {
      DigestNamesBytes(header.normalizedPlanDigest.value);
    }
    if header.reviews.Some? {
      ReviewIdentityIs(header.reviews.value, |header.chains|);
    }
  }

  /// A run that has just started is read, at schema 3, if and only if it knows itself; otherwise it is refused for that
  /// and for nothing else.
  lemma FreshRunsAreRead(header: RunHeader)
    requires header.schema == 3
    ensures Accepted(header, [RunStarted(header)]) <==> Knows(header)
    ensures SchemaBefore(header, [RunStarted(header)], 1) == 3
    ensures forall error :: RefusedFor(header, [RunStarted(header)], error) ==> error == InvalidIdentity && !Knows(header)
    ensures !Knows(header) ==> RefusedFor(header, [RunStarted(header)], InvalidIdentity)
  {
    KnowsIs(header);
    assert SchemaBefore(header, [RunStarted(header)], 0) == 3;
  }

  /// Whatever pre-flight plans for review, with a time limit that is not zero, a run that records it and 64 hexadecimal
  /// digits for its plan's bytes is read, also after the alternative reviewer is given up.
  lemma PlannedRunsAreRead(
    header: RunHeader, h: string, tasks: seq<Routing.Task>, chains: seq<Review.Bindings>, cfg: Routing.Config,
    hasAdapter: string -> bool, isMatch: Routing.GlobMatch, planned: Review.Planned)
    requires Review.Answers(tasks, chains, cfg, hasAdapter, isMatch, Ok(planned)) && cfg.reviewPassTimeoutSecs > 0
    requires header.schema == 3 && |h| == 64 && Over(h, HEX) && header.normalizedPlanDigest == Some("sha256:" + h)
    requires |tasks| == |header.chains|
    requires header.reviews == Some(planned.plan) || header.reviews == Some(Review.Dropped(planned.plan))
    ensures Accepted(header, [RunStarted(header)])
  {
    FreshRunsAreRead(header);
    KnowsIs(header);
    DigestNamesBytes("sha256:" + h);
    Review.PlansAreValidIdentities(tasks, chains, cfg, hasAdapter, isMatch, Ok(planned));
  }

  /// The first chain recorded for a task.
  ghost predicate IsChain(header: RunHeader, i: nat, task: TaskId) {
    i < |header.chains| && header.chains[i].task == task && forall j :: 0 <= j < i ==> header.chains[j].task != task
  }

  // ------------------------------------------------------------- settlements

  predicate IsOid(s: string) {
    (|s| == 40 || |s| == 64) && Over(s, HEX)
  }

  predicate NoDots(s: string) {
    forall k :: 0 < k < |s| ==> !(s[k - 1] == '.' && s[k] == '.')
  }

  /// The commit prepared for attempt n of a task, all of it: the run's branch, three objects of one length of which the
  /// new commit is not its own parent, a message of one line that opens with the task, and a ref that only this attempt
  /// of this run can have.
  ghost predicate IsPrepared(header: RunHeader, task: TaskId, n: u32, p: PreparedCommit) {
    exists i: nat, text: string :: IsPreparedAs(header, task, n, p, i, text)
  }

  ghost predicate IsPreparedAs(header: RunHeader, task: TaskId, n: u32, p: PreparedCommit, i: nat, text: string) {
    && IsChain(header, i, task)
    && p.branchRef == "refs/heads/" + header.branch && NoDots(p.branchRef)
    && IsOid(p.parentSha) && IsOid(p.treeSha) && IsOid(p.commitSha)
    && |p.parentSha| == |p.treeSha| == |p.commitSha| && p.parentSha != p.commitSha
    && p.message == "[tactus] " + task + ": " + text && '\r' !in p.message && '\n' !in p.message
    && p.pinRef == "refs/tactus/prepared/" + header.runId + "/" + Rfc3339.Pad(i, 0) + "-" + Rfc3339.Pad(n, 0)
    && NoDots(p.pinRef) && Over(p.pinRef, REF)
  }

  lemma {:induction false} DigitsAreDecimal(n: nat)
    ensures Digits(n) == Rfc3339.Pad(n, 0)
  {
    if n >= 10 {
      DigitsAreDecimal(n / 10);
      LastDigit(n % 10);
    } else {
      LastDigit(n);
    }
  }

  lemma LastDigit(d: nat)
    requires d < 10
    ensures Digits(d) == [Rfc3339.Digit(d)] && Rfc3339.Pad(d, 0) == [Rfc3339.Digit(d)]
  {
  }

  lemma DotsAre(s: string)
    ensures HasDotDot(s) <==> !NoDots(s)
  {
    if HasDotDot(s) {
      var k :| 0 <= k < |s| - 1 && s[k] == '.' && s[k + 1] == '.';
      assert s[k + 1 - 1] == '.';
    }
  }

  lemma RefIsRef(c: char)
    ensures IsRefChar(c) <==> c in REF
  {
    LowerCase(c);
    UpperCase(c);
    Decimals(c);
    InEither("abcdefghijklmnopqrstuvwxyz", "ABCDEFGHIJKLMNOPQRSTUVWXYZ", c);
    InEither("abcdefghijklmnopqrstuvwxyz" + "ABCDEFGHIJKLMNOPQRSTUVWXYZ", DIGITS, c);
    InEither("abcdefghijklmnopqrstuvwxyz" + "ABCDEFGHIJKLMNOPQRSTUVWXYZ" + DIGITS, "/-_", c);
  }

  lemma InEither(a: string, b: string, c: char)
    ensures c in a + b <==> c in a || c in b
  {
  }

  lemma LowerCase(c: char)
    ensures 'a' <= c <= 'z' <==> c in "abcdefghijklmnopqrstuvwxyz"
  {
  }

  lemma UpperCase(c: char)
    ensures 'A' <= c <= 'Z' <==> c in "ABCDEFGHIJKLMNOPQRSTUVWXYZ"
  {
  }

  lemma Decimals(c: char)
    ensures '0' <= c <= '9' <==> c in DIGITS
  {
  }

  lemma OidIs(s: string)
    ensures ValidOid(s) <==> IsOid(s)
  {
    AllHexIsOver(s);
  }

  lemma ShapeIs(p: PreparedCommit)
    requires "refs/heads/" <= p.branchRef && "[tactus] " <= p.message && "refs/tactus/prepared/" <= p.pinRef
    ensures ValidPreparedShape(p) <==>
      && NoDots(p.branchRef) && IsOid(p.parentSha) && IsOid(p.treeSha) && IsOid(p.commitSha)
      && |p.parentSha| == |p.treeSha| == |p.commitSha| && p.parentSha != p.commitSha
      && '\r' !in p.message && '\n' !in p.message && NoDots(p.pinRef) && Over(p.pinRef, REF)
  {
    OidIs(p.parentSha);
    OidIs(p.treeSha);
    OidIs(p.commitSha);
    DotsAre(p.branchRef);
    DotsAre(p.pinRef);
    assert p.message[0] == '[' && !IsSpace('[');
    forall k | 0 <= k < |p.pinRef| ensures IsRefChar(p.pinRef[k]) <==> p.pinRef[k] in REF {
      RefIsRef(p.pinRef[k]);
    }
  }

  lemma PreparedIs(header: RunHeader, task: TaskId, n: u32, p: PreparedCommit)
    ensures BindsPrepared(header, task, n, p) <==> IsPrepared(header, task, n, p)
  {
    var chain := ChainOf(header.chains, task);
    if BindsPrepared(header, task, n, p) {
      var i, start := chain.value, "[tactus] " + task + ": ";
      DigitsAreDecimal(i);
      DigitsAreDecimal(n);
      PrefixOfMessage(p.message, task);
      ShapeIs(p);
      assert IsPreparedAs(header, task, n, p, i, p.message[|start|..]);
    }
    if IsPrepared(header, task, n, p) {
      PreparedBinds(header, task, n, p);
    }
  }

  lemma PrefixOfMessage(message: string, task: TaskId)
    requires "[tactus] " + task + ": " <= message
    ensures "[tactus] " <= message && message == "[tactus] " + task + ": " + message[|"[tactus] " + task + ": "|..]
  {
  }

  lemma PreparedBinds(header: RunHeader, task: TaskId, n: u32, p: PreparedCommit)
    requires IsPrepared(header, task, n, p)
    ensures BindsPrepared(header, task, n, p)
  {
    var i: nat, text: string :| IsPreparedAs(header, task, n, p, i, text);
    assert ChainOf(header.chains, task) == Some(i);
    DigitsAreDecimal(i);
    DigitsAreDecimal(n);
    assert "[tactus] " <= p.message && "refs/heads/" <= p.branchRef && "refs/tactus/prepared/" <= p.pinRef;
    ShapeIs(p);
    assert "[tactus] " + task + ": " <= p.message;
  }

  /// Which settlements a reader at schema 3 lets through: a failure with its decision and no commit, or a success with
  /// exactly the commit prepared for it and no decision.
  lemma SettlementsRead(header: RunHeader, e: Event)
    requires e.AttemptFinished?
    ensures SettlementOk(header, e) <==>
      && e.record.attempt == e.attempt
      && match e.record.failure
         case Some(f) => e.prepared == None && ValidAttemptDecision(e.task, f, e.transition, e.parking)
         case None =>
           && e.transition == None && e.parking == None
           && e.prepared.Some? && IsPrepared(header, e.task, e.attempt, e.prepared.value)
  {
    if e.prepared.Some? {
      PreparedIs(header, e.task, e.attempt, e.prepared.value);
    }
  }

  /// And which events, after one that publishes nothing: every event but a bare commit, a settlement out of order, and a
  /// refusal without the policy of its time.
  lemma EventsRead(header: RunHeader, log: seq<Event>, k: nat)
    requires k < |log| && SchemaBefore(header, log, k) == 3 && !log[k].RunSchemaUpgraded?
    requires k == 0 || !(SchemaBefore(header, log, k - 1) == 3 && log[k - 1].AttemptFinished? && log[k - 1].prepared != None)
    requires k > 0 ==> SchemaBefore(header, log, k - 1) <= 3
    ensures EventOk(header, log, k) <==>
      && (log[k].AttemptFinished? ==> SettlementOk(header, log[k]))
      && (log[k].QuestionAnswered? && log[k].answer == Answer.Declined ==> log[k].declineHaltsRun != None)
      && !log[k].TaskCommitted?
  {
  }

  // --------------------------------------------------------------- older runs

  ghost predicate NeverUpgraded(log: seq<Event>) {
    forall k :: 0 <= k < |log| ==> !log[k].RunSchemaUpgraded?
  }

  lemma {:induction false} SchemaStays(header: RunHeader, log: seq<Event>, more: seq<Event>, k: nat)
    requires NeverUpgraded(log) && k <= |log|
    ensures SchemaBefore(header, log + more, k) == header.schema
  {
    if k > 0 {
      assert (log + more)[k - 1] == log[k - 1];
      SchemaStays(header, log, more, k - 1);
    }
  }

  /// Before schema 3 nothing is asked of a log. Its one upgrade that is read goes to a schema this reader knows.
  lemma OlderRunsAreRead(header: RunHeader, log: seq<Event>, from: nat, to: nat)
    requires header.schema < 3 && NeverUpgraded(log)
    ensures Accepted(header, log)
    ensures Accepted(header, log + [RunSchemaUpgraded(from, to)]) <==> from == header.schema < to <= 3
  {
    var after := log + [RunSchemaUpgraded(from, to)];
    forall k | 0 <= k <= |log| ensures SchemaBefore(header, log, k) == SchemaBefore(header, after, k) == header.schema {
      SchemaStays(header, log, [], k);
      assert log + [] == log;
      SchemaStays(header, log, [RunSchemaUpgraded(from, to)], k);
    }
    assert after[|log|] == RunSchemaUpgraded(from, to);
    assert UpgradeOk(header, after, |log|) <==> from == header.schema < to;
  }

  /// The resume that completes an upgrade to schema 3 says what a start at schema 3 would have said.
  lemma CompletedUpgradesAreRead(header: RunHeader, log: seq<Event>, resume: ResumeRecord)
    requires header.schema < 3 && NeverUpgraded(log)
    ensures
      Accepted(header, log + [RunSchemaUpgraded(header.schema, 3), RunResumed(resume)]) <==>
      Knows(header.(reviews := resume.reviews, normalizedPlanDigest := resume.normalizedPlanDigest))
  {
    var more := [RunSchemaUpgraded(header.schema, 3), RunResumed(resume)];
    var after := log + more;
    KnowsIs(header.(reviews := resume.reviews, normalizedPlanDigest := resume.normalizedPlanDigest));
    forall k | 0 <= k <= |log| ensures SchemaBefore(header, after, k) == header.schema {
      SchemaStays(header, log, more, k);
    }
    assert after[|log|] == more[0] && after[|log| + 1] == more[1];
    assert SchemaBefore(header, after, |log| + 1) == 3 && SchemaBefore(header, after, |log| + 2) == 3;
    assert !Publishes(header, after, |log|);
    assert CompletingResume(header, after, |log| + 1);
    forall k | 0 <= k < |after| ensures UpgradeOk(header, after, k) && EventOk(header, after, k) {}
    assert ResumeIdentityOk(header, after, |log| + 1) <==> IdentityOk(resume.normalizedPlanDigest, resume.reviews, |header.chains|);
  }
}
