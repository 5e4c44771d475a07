// What a run's events say about the pools it drew on (src/capacity.rs:265-421).
module Capacity {
  import opened Prelude
  import opened Ladder
  import opened Events
  import opened Tallies

  type Pool = string

  // --------------------------------------------------------------- spending

  datatype Spend = Spend(usd: Option<real>, attempts: u32, unpriced: u32)

  /// One attributed cost: an attempt's own, or one of its review passes'.
  datatype Line = Line(pool: Pool, cost: Option<real>)

  function ReviewLines(reviews: seq<ReviewRecord>): seq<Line> {
    if reviews == [] then []
    else
      var last := reviews[|reviews| - 1];
      ReviewLines(reviews[..|reviews| - 1]) + if last.pool.Some? then [Line(last.pool.value, last.cost)] else []
  }

  function Lines(r: AttemptRecord): seq<Line> {
    (if r.pool.Some? then [Line(r.pool.value, r.cost)] else []) + ReviewLines(r.reviews)
  }

  function AllLines(records: seq<AttemptRecord>): seq<Line> {
    if records == [] then [] else AllLines(records[..|records| - 1]) + Lines(records[|records| - 1])
  }

  function One(cost: Option<real>): Tally {
    if cost.Some? then Tally(1, 0, cost.value) else Tally(1, 1, 0.0)
  }

  /// What a line adds to one pool.
  function Share(line: Line, p: Pool): Tally {
    if line.pool == p then One(line.cost) else Nothing()
  }

  function TallyOf(lines: seq<Line>, p: Pool): Tally {
    Sum(lines, Shares(p))
  }

  function Shares(p: Pool): Line -> Tally {
    (line: Line) => Share(line, p)
  }

  predicate Countable(t: Tally) {
    t.unpriced <= t.count && (t.count == t.unpriced ==> t.dollars == 0.0)
  }

  function Capped(n: nat): u32 {
    if n <= U32_MAX then n else U32_MAX
  }

  /// A pool's entry: counters that stop at the type's limit, and dollars only where some line reported any.
  function SpendOf(t: Tally): Spend
  {
    Spend(if t.count > t.unpriced then Some(t.dollars) else None, Capped(t.count), Capped(t.unpriced))
  }

  function Pools(lines: seq<Line>): set<Pool> {
    set k | 0 <= k < |lines| :: lines[k].pool
  }

  function Drained(lines: seq<Line>): map<Pool, Spend> {
    map p | p in Pools(lines) :: SpendOf(TallyOf(lines, p))
  }

  /// The map `accumulate` and `drain_of` update in place.
  class Meter {
    var drain: map<Pool, Spend>

    constructor ()
      ensures drain == Drained([])
    {
      drain := map[];
    }

    /// `drain.entry(pool).or_default().add(cost)`.
    method Add(pool: Pool, cost: Option<real>, ghost before: seq<Line>)
      requires drain == Drained(before)
      modifies this
      ensures drain == Drained(before + [Line(pool, cost)])
    {
      DrainedGrows(before, Line(pool, cost));
      EntryGrows(before, pool, cost);
      var entry := Entry(drain, pool);
      entry := entry.(attempts := SatInc(entry.attempts));
      if cost.Some? {
        entry := entry.(usd := Some((if entry.usd.Some? then entry.usd.value else 0.0) + cost.value));
      } else {
        entry := entry.(unpriced := SatInc(entry.unpriced));
      }
      drain := drain[pool := entry];
    }

    method Accumulate(record: AttemptRecord, ghost before: seq<Line>)
      requires drain == Drained(before)
      modifies this
      ensures drain == Drained(before + Lines(record))
    {
      ghost var seen := before;
      if record.pool.Some? {
        Add(record.pool.value, record.cost, seen);
        seen := seen + [Line(record.pool.value, record.cost)];
      }
      ghost var worker := seen;
      assert worker + ReviewLines(record.reviews[..0]) == worker;
      for k := 0 to |record.reviews|
        invariant seen == worker + ReviewLines(record.reviews[..k]) && drain == Drained(seen)
      {
        var review := record.reviews[k];
        assert record.reviews[..k + 1][..k] == record.reviews[..k];
        if review.pool.Some? {
          Add(review.pool.value, review.cost, seen);
          seen := seen + [Line(review.pool.value, review.cost)];
        }
      }
      assert record.reviews[..|record.reviews|] == record.reviews;
      assert seen == before + Lines(record);
    }
  }

  lemma PoolsGrow(before: seq<Line>, line: Line)
    ensures Pools(before + [line]) == Pools(before) + {line.pool}
  {
    var after := before + [line];
    assert after[|before|].pool == line.pool;
    assert forall k :: 0 <= k < |before| ==> after[k] == before[k];
  }

  lemma DrainedGrows(before: seq<Line>, line: Line)
    ensures Drained(before + [line]) ==
      Drained(before)[line.pool := SpendOf(Plus(TallyOf(before, line.pool), One(line.cost)))]
  {
    var after, grown := before + [line], Plus(TallyOf(before, line.pool), One(line.cost));
    PoolsGrow(before, line);
    forall p | p in Pools(after)
      ensures TallyOf(after, p) == if p == line.pool then grown else TallyOf(before, p)
    {
      SumSnoc(before, line, Shares(p));
    }
    SameMap(Drained(after), Drained(before)[line.pool := SpendOf(grown)]);
  }

  lemma SameMap(a: map<Pool, Spend>, b: map<Pool, Spend>)
    requires a.Keys == b.Keys && forall p :: p in a ==> a[p] == b[p]
    ensures a == b
  {
  }

  function Entry(drain: map<Pool, Spend>, pool: Pool): Spend {
    if pool in drain then drain[pool] else Spend(None, 0, 0)
  }

  /// One more line on an entry, or on the empty one where the pool has none yet.
  lemma EntryGrows(before: seq<Line>, pool: Pool, cost: Option<real>)
    ensures
      var t, entry := TallyOf(before, pool), Entry(Drained(before), pool);
      SpendOf(Plus(t, One(cost))) == Spend(
        if cost.Some? then Some((if entry.usd.Some? then entry.usd.value else 0.0) + cost.value) else entry.usd,
        SatInc(entry.attempts), if cost.Some? then entry.unpriced else SatInc(entry.unpriced))
  {
    CountedPools(before, pool);
    assert Entry(Drained(before), pool) == SpendOf(TallyOf(before, pool));
    SpendGrows(TallyOf(before, pool), cost);
  }

  lemma SpendGrows(t: Tally, cost: Option<real>)
    requires Countable(t)
    ensures
      var entry := SpendOf(t);
      SpendOf(Plus(t, One(cost))) == Spend(
        if cost.Some? then Some((if entry.usd.Some? then entry.usd.value else 0.0) + cost.value) else entry.usd,
        SatInc(entry.attempts), if cost.Some? then entry.unpriced else SatInc(entry.unpriced))
  {
  }

  method DrainOf(records: seq<AttemptRecord>) returns (drain: map<Pool, Spend>)
    ensures drain == Drained(AllLines(records)) && LedgerOf(drain, records)
  {
    DrainedIsLedger(records);
    var meter := new Meter();
    for k := 0 to |records|
      invariant meter.drain == Drained(AllLines(records[..k]))
    {
      assert records[..k + 1][..k] == records[..k];
      meter.Accumulate(records[k], AllLines(records[..k]));
    }
    assert records[..|records|] == records;
    drain := meter.drain;
  }

  lemma CountableGrows(t: Tally, line: Line, p: Pool)
    requires Countable(t)
    ensures Countable(Plus(t, Share(line, p)))
    ensures Plus(t, Share(line, p)).count > 0 <==> t.count > 0 || line.pool == p
  {
  }

  lemma {:induction false} CountedPools(lines: seq<Line>, p: Pool)
    ensures Countable(TallyOf(lines, p)) && (p in Pools(lines) <==> TallyOf(lines, p).count > 0)
  {
    if lines == [] {
      assert TallyOf(lines, p) == Nothing();
    } else {
      var line, rest := lines[|lines| - 1], lines[..|lines| - 1];
      assert lines == rest + [line];
      CountedPools(rest, p);
      PoolsGrow(rest, line);
      SumSnoc(rest, line, Shares(p));
      CountableGrows(TallyOf(rest, p), line, p);
    }
  }

  function RecordShares(p: Pool): AttemptRecord -> Tally {
    (r: AttemptRecord) => TallyOf(Lines(r), p)
  }

  lemma {:induction false} TallyByRecord(records: seq<AttemptRecord>, p: Pool)
    ensures TallyOf(AllLines(records), p) == Sum(records, RecordShares(p))
  {
    if records != [] {
      var rest, last := records[..|records| - 1], records[|records| - 1];
      TallyByRecord(rest, p);
      SumConcat(AllLines(rest), Lines(last), Shares(p));
      assert records == rest + [last];
      SumSnoc(rest, last, RecordShares(p));
    }
  }

  /// The ledger does not depend on the order attempts settled in.
  lemma DrainIsOrderFree(a: seq<AttemptRecord>, b: seq<AttemptRecord>)
    requires multiset(a) == multiset(b)
    ensures Drained(AllLines(a)) == Drained(AllLines(b))
  {
    forall p
      ensures TallyOf(AllLines(a), p) == TallyOf(AllLines(b), p) && (p in Pools(AllLines(a)) <==> p in Pools(AllLines(b)))
    {
      SumIsOrderFree(a, b, RecordShares(p));
      TallyByRecord(a, p);
      TallyByRecord(b, p);
      CountedPools(AllLines(a), p);
      CountedPools(AllLines(b), p);
    }
    SameMap(Drained(AllLines(a)), Drained(AllLines(b)));
  }

  function Total(lines: seq<Line>): Tally {
    Sum(lines, Costs())
  }

  function Costs(): Line -> Tally {
    (line: Line) => One(line.cost)
  }

  function OverPools(lines: seq<Line>, pools: seq<Pool>): Tally {
    Sum(pools, PoolTally(lines))
  }

  function PoolTally(lines: seq<Line>): Pool -> Tally {
    p => TallyOf(lines, p)
  }

  predicate DistinctPools(pools: seq<Pool>) {
    forall j, k :: 0 <= j < k < |pools| ==> pools[j] != pools[k]
  }

  lemma OverPoolsGrows(before: seq<Line>, line: Line, pools: seq<Pool>)
    requires DistinctPools(pools) && line.pool in pools
    ensures OverPools(before + [line], pools) == Plus(OverPools(before, pools), One(line.cost))
  {
    forall p ensures TallyOf(before + [line], p) == Plus(TallyOf(before, p), Share(line, p)) {
      SumSnoc(before, line, Shares(p));
    }
    var share := p => Share(line, p);
    SumSplits(pools, PoolTally(before), share, PoolTally(before + [line]), |pools|);
    var i :| 0 <= i < |pools| && pools[i] == line.pool;
    SumOfOne(pools, i, share, |pools|);
  }

  /// Before any counter is cut to size: each line is in exactly one pool's tally.
  lemma {:induction false} TotalsAreConserved(lines: seq<Line>, pools: seq<Pool>)
    requires DistinctPools(pools) && forall k :: 0 <= k < |lines| ==> lines[k].pool in pools
    ensures OverPools(lines, pools) == Total(lines) && Total(lines).count == |lines|
  {
    if lines == [] {
      SumOfNothing(pools, PoolTally(lines), |pools|);
    } else {
      var rest, line := lines[..|lines| - 1], lines[|lines| - 1];
      assert lines == rest + [line] && line.pool in pools;
      TotalsAreConserved(rest, pools);
      OverPoolsGrows(rest, line, pools);
      SumSnoc(rest, line, Costs());
    }
  }

  /// A ledger entry as it stands, saturated counters and all.
  function AsTally(entry: Spend): Tally {
    Tally(entry.attempts, entry.unpriced, if entry.usd.Some? then entry.usd.value else 0.0)
  }

  function EntryTally(drain: map<Pool, Spend>): Pool -> Tally {
    p => if p in drain then AsTally(drain[p]) else Nothing()
  }

  /// What the entries of some pools add up to.
  function LedgerTotal(drain: map<Pool, Spend>, pools: seq<Pool>): Tally {
    Sum(pools, EntryTally(drain))
  }

  /// A tally in counters 32 bits wide.
  function Cap(t: Tally): Tally {
    Tally(Capped(t.count), Capped(t.unpriced), t.dollars)
  }

  lemma EntryIsCapped(lines: seq<Line>, p: Pool)
    ensures EntryTally(Drained(lines))(p) == Cap(TallyOf(lines, p))
  {
    CountedPools(lines, p);
  }

  predicate CountsFit(pools: seq<Pool>, f: Pool -> Tally, n: nat)
    requires n <= |pools|
  {
    n == 0 || (f(pools[n - 1]).count <= U32_MAX && CountsFit(pools, f, n - 1))
  }

  predicate UnpricedFit(pools: seq<Pool>, f: Pool -> Tally, n: nat)
    requires n <= |pools|
  {
    n == 0 || (f(pools[n - 1]).unpriced <= U32_MAX && UnpricedFit(pools, f, n - 1))
  }

  lemma {:induction false} FitMeans(pools: seq<Pool>, f: Pool -> Tally, n: nat)
    requires n <= |pools|
    ensures CountsFit(pools, f, n) <==> forall k :: 0 <= k < n ==> f(pools[k]).count <= U32_MAX
    ensures UnpricedFit(pools, f, n) <==> forall k :: 0 <= k < n ==> f(pools[k]).unpriced <= U32_MAX
  {
    if n > 0 {
      FitMeans(pools, f, n - 1);
    }
  }

  /// Cut counters never add up to more than the true ones, and to as much exactly when none was cut.
  ghost predicate CutFrom(cut: Tally, exact: Tally, counts: bool, unpriced: bool) {
    && cut.count <= exact.count && cut.unpriced <= exact.unpriced && cut.dollars == exact.dollars
    && (cut.count == exact.count <==> counts) && (cut.unpriced == exact.unpriced <==> unpriced)
  }

  lemma CutOneMore(cut: Tally, exact: Tally, t: Tally, counts: bool, unpriced: bool)
    requires CutFrom(cut, exact, counts, unpriced)
    ensures CutFrom(Plus(cut, Cap(t)), Plus(exact, t), counts && t.count <= U32_MAX, unpriced && t.unpriced <= U32_MAX)
  {
  }

  lemma {:induction false} SumOfCaps(pools: seq<Pool>, f: Pool -> Tally, g: Pool -> Tally, n: nat)
    requires n <= |pools| && forall p :: g(p) == Cap(f(p))
    ensures CutFrom(SumTo(pools, g, n), SumTo(pools, f, n), CountsFit(pools, f, n), UnpricedFit(pools, f, n))
  {
    if n > 0 {
      SumOfCaps(pools, f, g, n - 1);
      CutOneMore(
        SumTo(pools, g, n - 1), SumTo(pools, f, n - 1), f(pools[n - 1]), CountsFit(pools, f, n - 1), UnpricedFit(pools, f, n - 1));
    }
  }

  /// Conservation of the ledger itself, whose counters are 32 bits wide and stop at their limit. Its dollars always add
  /// up to those of the attributed lines. Its attempts add up to the number of lines if and only if no pool has more
  /// lines than a counter can hold, and its unpriced attempts likewise.
  lemma LedgerIsConserved(lines: seq<Line>, pools: seq<Pool>)
    requires DistinctPools(pools) && forall p :: p in pools <==> p in Drained(lines)
    ensures
      var ledger := LedgerTotal(Drained(lines), pools);
      && ledger.dollars == Total(lines).dollars
      && (ledger.count == |lines| <==> forall p :: p in pools ==> TallyOf(lines, p).count <= U32_MAX)
      && (ledger.unpriced == Total(lines).unpriced <==> forall p :: p in pools ==> TallyOf(lines, p).unpriced <= U32_MAX)
  {
    forall k | 0 <= k < |lines| ensures lines[k].pool in pools {
      assert lines[k].pool in Pools(lines);
    }
    TotalsAreConserved(lines, pools);
    forall p ensures EntryTally(Drained(lines))(p) == Cap(PoolTally(lines)(p)) {
      EntryIsCapped(lines, p);
    }
    SumOfCaps(pools, PoolTally(lines), EntryTally(Drained(lines)), |pools|);
    FitMeans(pools, PoolTally(lines), |pools|);
  }

  // ------------------------------------------------- the ledger, by record

  /// One cost as a pool sees it: counted if it is the pool's, and unpriced if nobody reported it.
  function Draw(pool: Option<Pool>, cost: Option<real>, p: Pool): Tally {
    if pool != Some(p) then Tally(0, 0, 0.0)
    else match cost case None => Tally(1, 1, 0.0) case Some(usd) => Tally(1, 0, usd)
  }

  /// What a record drew from a pool: its attempt, and each of its review passes.
  function Drew(r: AttemptRecord, p: Pool): Tally {
    Plus(Draw(r.pool, r.cost, p), Sum(r.reviews, ReviewDraws(p)))
  }

  function ReviewDraws(p: Pool): ReviewRecord -> Tally {
    (review: ReviewRecord) => Draw(review.pool, review.cost, p)
  }

  function Draws(p: Pool): AttemptRecord -> Tally {
    (r: AttemptRecord) => Drew(r, p)
  }

  /// The ledger of some records, pool by pool: in it if anything was drawn, dollars only if some were reported, and counts
  /// that stop at 32 bits.
  ghost predicate LedgerOf(drain: map<Pool, Spend>, records: seq<AttemptRecord>) {
    forall p ::
      var t := Sum(records, Draws(p));
      && (p in drain <==> t.count > 0)
      && (p in drain ==> drain[p] == Spend(
           if t.count > t.unpriced then Some(t.dollars) else None,
           if t.count < 0xFFFF_FFFF then t.count else 0xFFFF_FFFF,
           if t.unpriced < 0xFFFF_FFFF then t.unpriced else 0xFFFF_FFFF))
  }

  lemma {:induction false} ReviewLinesDraw(reviews: seq<ReviewRecord>, p: Pool)
    ensures TallyOf(ReviewLines(reviews), p) == Sum(reviews, ReviewDraws(p))
  {
    if reviews != [] {
      var rest, last := reviews[..|reviews| - 1], reviews[|reviews| - 1];
      ReviewLinesDraw(rest, p);
      assert reviews == rest + [last];
      SumSnoc(rest, last, ReviewDraws(p));
      if last.pool.Some? {
        SumSnoc(ReviewLines(rest), Line(last.pool.value, last.cost), Shares(p));
      } else {
        assert ReviewLines(rest) + [] == ReviewLines(rest);
      }
    }
  }

  lemma LinesDraw(r: AttemptRecord, p: Pool)
    ensures TallyOf(Lines(r), p) == Drew(r, p)
  {
    ReviewLinesDraw(r.reviews, p);
    OwnLineDraws(r.pool, r.cost, p);
    SumConcat(if r.pool.Some? then [Line(r.pool.value, r.cost)] else [], ReviewLines(r.reviews), Shares(p));
  }

  lemma OwnLineDraws(pool: Option<Pool>, cost: Option<real>, p: Pool)
    ensures TallyOf(if pool.Some? then [Line(pool.value, cost)] else [], p) == Draw(pool, cost, p)
  {
    if pool.Some? {
      SumOne(Line(pool.value, cost), Shares(p));
      ShareIsDraw(pool.value, cost, p);
    }
  }

  lemma ShareIsDraw(pool: Pool, cost: Option<real>, p: Pool)
    ensures Share(Line(pool, cost), p) == Draw(Some(pool), cost, p)
  {
  }

  lemma {:induction false} SumIsSame<T>(xs: seq<T>, f: T -> Tally, g: T -> Tally, n: nat)
    requires n <= |xs| && forall x :: f(x) == g(x)
    ensures SumTo(xs, f, n) == SumTo(xs, g, n)
  {
    if n > 0 {
      SumIsSame(xs, f, g, n - 1);
    }
  }

  lemma DrainedIsLedger(records: seq<AttemptRecord>)
    ensures LedgerOf(Drained(AllLines(records)), records)
  {
    forall p
      ensures TallyOf(AllLines(records), p) == Sum(records, Draws(p))
      ensures p in Pools(AllLines(records)) <==> TallyOf(AllLines(records), p).count > 0
    {
      TallyByRecord(records, p);
      forall r ensures RecordShares(p)(r) == Draws(p)(r) {
        LinesDraw(r, p);
      }
      SumIsSame(records, RecordShares(p), Draws(p), |records|);
      CountedPools(AllLines(records), p);
    }
  }

  // -------------------------------------------------------------- exhaustion

  datatype Evidence = Limited(resetAt: Option<string>) | Served

  /// A settled attempt limits the pool its refusal came from: its own, or its last review pass's.
  predicate Limits(r: AttemptRecord, p: Pool) {
    && r.failure.Some? && r.failure.value.kind.RateLimited?
    && match r.failure.value.origin
       case Worker => r.pool == Some(p)
       case Reviewer => r.reviews != [] && r.reviews[|r.reviews| - 1].pool == Some(p)
  }

  predicate WorkerServed(r: AttemptRecord) {
    r.failure.Some? ==>
      !r.failure.value.kind.Interrupted? && !(r.failure.value.kind.RateLimited? && r.failure.value.origin.Worker?)
  }

  predicate ReviewServed(review: ReviewRecord, p: Pool) {
    !review.outcome.Unavailable? && review.pool == Some(p)
  }

  predicate Serves(r: AttemptRecord, p: Pool) {
    (WorkerServed(r) && r.pool == Some(p)) || exists k :: 0 <= k < |r.reviews| && ReviewServed(r.reviews[k], p)
  }

  /// What one event says about one pool.
  function EvidenceIn(e: Event, p: Pool): Option<Evidence> {
    match e
    case PoolExhausted(_, pool, resetAt) => if pool == p then Some(Limited(resetAt)) else None
    case AttemptFinished(_, _, _, _, record, _, _, _) => RecordEvidence(record, p)
    case AttemptInterrupted(_, _, _, _, record) => RecordEvidence(record, p)
    case _ => None
  }

  function RecordEvidence(r: AttemptRecord, p: Pool): Option<Evidence> {
    if Limits(r, p) then Some(Limited(None)) else if Serves(r, p) then Some(Served) else None
  }

  /// Scanning the log backwards meets a limit signal with this reset time before any proof of service.
  ghost predicate LastSaysLimited(log: seq<Event>, p: Pool, resetAt: Option<string>) {
    exists k :: 0 <= k < |log| && EvidenceIn(log[k], p) == Some(Limited(resetAt))
      && forall j :: k < j < |log| ==> EvidenceIn(log[j], p) == None
  }

  ghost predicate Marks(exhausted: map<Pool, Option<string>>, log: seq<Event>) {
    forall p, resetAt :: (p in exhausted && exhausted[p] == resetAt) <==> LastSaysLimited(log, p, resetAt)
  }

  /// What one piece of evidence, or none, does to one pool's mark.
  predicate Follows(before: map<Pool, Option<string>>, after: map<Pool, Option<string>>, p: Pool, e: Option<Evidence>) {
    match e
    case None => (p in after <==> p in before) && (p in after ==> after[p] == before[p])
    case Some(Served) => p !in after
    case Some(Limited(resetAt)) => p in after && after[p] == resetAt
  }

  /// A pool refused work: a signal said so, or an attempt's worker or last reviewer was turned away by it.
  ghost predicate Refuses(e: Event, p: Pool, resetAt: Option<string>) {
    || (e.PoolExhausted? && e.pool == p && e.resetAt == resetAt)
    || ((e.AttemptFinished? || e.AttemptInterrupted?) && resetAt == None && TurnedAway(e.record, p))
  }

  predicate TurnedAway(r: AttemptRecord, p: Pool) {
    match r.failure
    case Some(FailureRecord(RateLimited, Worker, _)) => r.pool == Some(p)
    case Some(FailureRecord(RateLimited, Reviewer, _)) => r.reviews != [] && r.reviews[|r.reviews| - 1].pool == Some(p)
    case _ => false
  }

  /// A pool gave an answer: a worker that was neither turned away nor cut off, or a review that came to a verdict.
  predicate Answered(e: Event, p: Pool) {
    && (e.AttemptFinished? || e.AttemptInterrupted?)
    && (|| (e.record.pool == Some(p)
            && match e.record.failure
               case None => true
               case Some(FailureRecord(Interrupted, _, _)) => false
               case Some(FailureRecord(RateLimited, Worker, _)) => false
               case Some(_) => true)
        || exists k :: 0 <= k < |e.record.reviews| && e.record.reviews[k].pool == Some(p)
             && (e.record.reviews[k].outcome == Passed || e.record.reviews[k].outcome == Failed))
  }

  lemma EvidenceIsExact(e: Event, p: Pool)
    ensures forall resetAt :: EvidenceIn(e, p) == Some(Limited(resetAt)) <==> Refuses(e, p, resetAt)
    ensures EvidenceIn(e, p) == None <==> !Answered(e, p) && forall resetAt :: !Refuses(e, p, resetAt)
  {
    if e.AttemptFinished? || e.AttemptInterrupted? {
      assert Limits(e.record, p) <==> TurnedAway(e.record, p);
      ServesIsAnswered(e, p);
      assert TurnedAway(e.record, p) ==> Refuses(e, p, None);
    } else if e.PoolExhausted? && e.pool == p {
      assert Refuses(e, p, e.resetAt);
    }
  }

  lemma ServesIsAnswered(e: Event, p: Pool)
    requires e.AttemptFinished? || e.AttemptInterrupted?
    ensures Serves(e.record, p) <==> Answered(e, p)
  {
    var r := e.record;
    if k :| 0 <= k < |r.reviews| && ReviewServed(r.reviews[k], p) {
      assert r.reviews[k].pool == Some(p) && (r.reviews[k].outcome == Passed || r.reviews[k].outcome == Failed);
    }
    if k :| 0 <= k < |r.reviews| && r.reviews[k].pool == Some(p) && (r.reviews[k].outcome == Passed || r.reviews[k].outcome == Failed) {
      assert ReviewServed(r.reviews[k], p);
    }
  }

  /// A pool is marked with this reset time exactly when some event refused it so and no later one refused or answered.
  ghost predicate MarkedAsSeen(exhausted: map<Pool, Option<string>>, log: seq<Event>) {
    forall p, resetAt :: (p in exhausted && exhausted[p] == resetAt) <==> RefusedLast(log, p, resetAt)
  }

  ghost predicate RefusedLast(log: seq<Event>, p: Pool, resetAt: Option<string>) {
    exists k :: 0 <= k < |log| && Refuses(log[k], p, resetAt) && forall j :: k < j < |log| ==> SaysNothing(log[j], p)
  }

  ghost predicate SaysNothing(e: Event, p: Pool) {
    !Answered(e, p) && forall resetAt :: !Refuses(e, p, resetAt)
  }

  lemma RefusedLastIs(log: seq<Event>, p: Pool, resetAt: Option<string>)
    ensures RefusedLast(log, p, resetAt) <==> LastSaysLimited(log, p, resetAt)
  {
    forall k | 0 <= k < |log|
      ensures EvidenceIn(log[k], p) == Some(Limited(resetAt)) <==> Refuses(log[k], p, resetAt)
      ensures EvidenceIn(log[k], p) == None <==> SaysNothing(log[k], p)
    {
      EvidenceIsExact(log[k], p);
    }
  }

  lemma MarksAreSeen(exhausted: map<Pool, Option<string>>, log: seq<Event>)
    requires Marks(exhausted, log)
    ensures MarkedAsSeen(exhausted, log)
  {
    forall p, resetAt ensures (p in exhausted && exhausted[p] == resetAt) <==> RefusedLast(log, p, resetAt) {
      RefusedLastIs(log, p, resetAt);
    }
  }

  function RecordsOf(log: seq<Event>): seq<AttemptRecord> {
    if log == [] then []
    else
      var last := log[|log| - 1];
      RecordsOf(log[..|log| - 1]) + if last.AttemptFinished? || last.AttemptInterrupted? then [last.record] else []
  }

  class Observations {
    var exhausted: map<Pool, Option<string>>
    const selfSpend: Meter

    constructor ()
      ensures exhausted == map[] && selfSpend.drain == Drained([]) && fresh(selfSpend)
    {
      exhausted := map[];
      selfSpend := new Meter();
    }

    /// Removes the pools this attempt proves are serving, then marks the one it proves is not.
    method RetireSignals(record: AttemptRecord)
      modifies this
      ensures forall p :: Follows(old(exhausted), exhausted, p, RecordEvidence(record, p))
    {
      var before := exhausted;
      if WorkerServed(record) && record.pool.Some? {
        exhausted := exhausted - {record.pool.value};
      }
      for k := 0 to |record.reviews|
        invariant exhausted == map p | p in before && !(WorkerServed(record) && record.pool == Some(p))
                    && !(exists j :: 0 <= j < k && ReviewServed(record.reviews[j], p)) :: before[p]
      {
        var review := record.reviews[k];
        if !review.outcome.Unavailable? && review.pool.Some? {
          exhausted := exhausted - {review.pool.value};
        }
      }
      if record.failure.Some? && record.failure.value.kind.RateLimited? {
        var pool := match record.failure.value.origin
          case Worker => record.pool
          case Reviewer => if record.reviews == [] then None else record.reviews[|record.reviews| - 1].pool;
        if pool.Some? {
          exhausted := exhausted[pool.value := None];
        }
      }
    }
  }

  lemma MarksGrow(before: map<Pool, Option<string>>, after: map<Pool, Option<string>>, log: seq<Event>, e: Event)
    requires Marks(before, log) && forall p :: Follows(before, after, p, EvidenceIn(e, p))
    ensures Marks(after, log + [e])
  {
    forall p, resetAt ensures (p in after && after[p] == resetAt) <==> LastSaysLimited(log + [e], p, resetAt) {
      assert Follows(before, after, p, EvidenceIn(e, p));
      LastGrows(log, e, p, resetAt);
    }
  }

  lemma LastGrows(log: seq<Event>, e: Event, p: Pool, resetAt: Option<string>)
    ensures LastSaysLimited(log + [e], p, resetAt) <==>
      match EvidenceIn(e, p)
      case None => LastSaysLimited(log, p, resetAt)
      case Some(evidence) => evidence == Limited(resetAt)
  {
    var after := log + [e];
    assert after[|log|] == e && forall k :: 0 <= k < |log| ==> after[k] == log[k];
    if EvidenceIn(e, p).None? && LastSaysLimited(log, p, resetAt) {
      var k :| 0 <= k < |log| && EvidenceIn(log[k], p) == Some(Limited(resetAt))
        && forall j :: k < j < |log| ==> EvidenceIn(log[j], p) == None;
      assert EvidenceIn(after[k], p) == Some(Limited(resetAt));
    }
  }

  /// The records of a log are those of its settlements, finished and interrupted, one each.
  lemma {:induction false} RecordsAreSettlements(log: seq<Event>)
    ensures |RecordsOf(log)| == |SettledAt(log)|
    ensures forall k :: k in SettledAt(log) ==> log[k].record in RecordsOf(log)
  {
    if log != [] {
      var n := |log| - 1;
      RecordsAreSettlements(log[..n]);
      SettledOnceMore(log);
      assert forall k :: k in SettledAt(log[..n]) ==> log[..n][k] == log[k];
    }
  }

  function SettledAt(log: seq<Event>): (r: set<nat>)
    ensures forall k :: k in r ==> k < |log| && (log[k].AttemptFinished? || log[k].AttemptInterrupted?)
  {
    set k: nat | k < |log| && (log[k].AttemptFinished? || log[k].AttemptInterrupted?)
  }

  lemma SettledOnceMore(log: seq<Event>)
    requires log != []
    ensures
      var n := |log| - 1;
      SettledAt(log) == if log[n].AttemptFinished? || log[n].AttemptInterrupted? then SettledAt(log[..n]) + {n} else SettledAt(log[..n])
    ensures |log| - 1 !in SettledAt(log[..|log| - 1])
  {
  }

  lemma RecordsGrow(log: seq<Event>, e: Event)
    ensures AllLines(RecordsOf(log + [e])) ==
      if e.AttemptFinished? || e.AttemptInterrupted? then AllLines(RecordsOf(log)) + Lines(e.record)
      else AllLines(RecordsOf(log))
  {
    assert (log + [e])[..|log|] == log;
    if e.AttemptFinished? || e.AttemptInterrupted? {
      assert (RecordsOf(log) + [e.record])[..|RecordsOf(log)|] == RecordsOf(log);
    } else {
      assert RecordsOf(log) + [] == RecordsOf(log);
    }
  }

  /// One event's share of the fold.
  method See(obs: Observations, e: Event, ghost before: seq<Line>)
    requires obs.selfSpend.drain == Drained(before)
    modifies obs, obs.selfSpend
    ensures forall p :: Follows(old(obs.exhausted), obs.exhausted, p, EvidenceIn(e, p))
    ensures obs.selfSpend.drain ==
      if e.AttemptFinished? || e.AttemptInterrupted? then Drained(before + Lines(e.record)) else Drained(before)
  {
    if e.PoolExhausted? {
      obs.exhausted := obs.exhausted[e.pool := e.resetAt];
    } else if e.AttemptFinished? || e.AttemptInterrupted? {
      obs.selfSpend.Accumulate(e.record, before);
      obs.RetireSignals(e.record);
    }
  }

  /// `observe`: a pool is marked exhausted, with a reset time, exactly when the last evidence about it is a limit
  /// signal with that time; and its self-metered spend is `drain_of` of the attempts' records.
  method Observe(log: seq<Event>) returns (obs: Observations)
    ensures Marks(obs.exhausted, log) && MarkedAsSeen(obs.exhausted, log)
    ensures LedgerOf(obs.selfSpend.drain, RecordsOf(log))
    ensures obs.selfSpend.drain == Drained(AllLines(RecordsOf(log)))
  {
    obs := new Observations();
    for k := 0 to |log|
      invariant fresh(obs) && fresh(obs.selfSpend)
      invariant Marks(obs.exhausted, log[..k]) && obs.selfSpend.drain == Drained(AllLines(RecordsOf(log[..k])))
    {
      ghost var before := obs.exhausted;
      See(obs, log[k], AllLines(RecordsOf(log[..k])));
      assert log[..k + 1] == log[..k] + [log[k]];
      MarksGrow(before, obs.exhausted, log[..k], log[k]);
      RecordsGrow(log[..k], log[k]);
    }
    assert log[..|log|] == log;
    MarksAreSeen(obs.exhausted, log);
    DrainedIsLedger(RecordsOf(log));
  }
}
