// Logs written before schema 3, where one failed attempt was settled by several appends
// (src/events.rs:2161-2274).
module Legacy {
  import opened Prelude
  import opened Ladder
  import opened Events
  import opened Decisions

  // ---------------------------------------------------- the two encodings

  function DecisionEvents(e: Event): seq<Event>
    requires e.AttemptFinished?
  {
    if e.transition.None? then []
    else match e.transition.value
      case ToRetry(retry) => [LadderRetry(e.task, e.attempt, e.rung, retry)]
      case ToEscalate(to) => [LadderEscalated(e.task, e.attempt, e.rung, to)]
      case ToDefer(deferral) => [TaskDeferred(e.task, deferral)]
      case ToFail(failure) => [TaskFailed(e.task, failure)]
  }

  function ParkingEvents(e: Event): seq<Event>
    requires e.AttemptFinished?
  {
    if e.parking.None? then []
    else [QuestionRaised(e.task, e.parking.value.question), TaskParked(e.task, e.parking.value.question.id, e.parking.value.refund)]
  }

  /// The appends an older writer made for one event of a current one.
  function Expanded(e: Event): (r: seq<Event>)
    ensures 1 <= |r| <= 4
  {
    if e.AttemptFinished? then [e.(parking := None, transition := None)] + DecisionEvents(e) + ParkingEvents(e)
    else [e]
  }

  function Expand(log: seq<Event>): seq<Event> {
    if log == [] then [] else Expand(log[..|log| - 1]) + Expanded(log[|log| - 1])
  }

  lemma ExpandAppend(log: seq<Event>, e: Event)
    ensures Expand(log + [e]) == Expand(log) + Expanded(e)
  {
    assert (log + [e])[..|log|] == log;
  }

  // --------------------------------------------- expansion preserves state

  lemma FoldTwo(s: State, a: Event, b: Event)
    requires s.Aligned()
    ensures Fold(s, [a, b]) == Step(Step(s, a), b)
  {
    assert [a, b][..1] == [a];
    FoldOne(s, a);
  }

  lemma StepDecision(s: State, e: Event)
    requires s.Aligned() && e.AttemptFinished? && e.transition.Some?
    ensures |DecisionEvents(e)| == 1
    ensures Step(s, DecisionEvents(e)[0]) == Transitioned(s, e.task, e.attempt, e.transition.value)
  {
  }

  lemma FoldDecision(s: State, e: Event)
    requires s.Aligned() && e.AttemptFinished?
    ensures Fold(s, DecisionEvents(e)) == if e.transition.None? then s else Transitioned(s, e.task, e.attempt, e.transition.value)
  {
    if e.transition.Some? {
      StepDecision(s, e);
      var d := DecisionEvents(e)[0];
      assert DecisionEvents(e) == [d];
      FoldOne(s, d);
    }
  }

  lemma ParkAndAskCommute(s: State, task: TaskId, q: Question, refund: bool)
    requires s.Aligned()
    ensures ParkedOn(Asked(s, q), task, q.id, refund) == Asked(ParkedOn(s, task, q.id, refund), q)
  {
  }

  lemma FoldParking(s: State, e: Event)
    requires s.Aligned() && e.AttemptFinished?
    ensures Fold(s, ParkingEvents(e)) ==
      if e.parking.None? then s
      else Asked(ParkedOn(s, e.task, e.parking.value.question.id, e.parking.value.refund), e.parking.value.question)
  {
    if e.parking.Some? {
      FoldRaisedAndParked(s, e.task, e.parking.value.question, e.parking.value.refund);
    }
  }

  lemma FoldRaisedAndParked(s: State, task: TaskId, q: Question, refund: bool)
    requires s.Aligned()
    ensures Fold(s, [QuestionRaised(task, q), TaskParked(task, q.id, refund)]) == Asked(ParkedOn(s, task, q.id, refund), q)
  {
    FoldTwo(s, QuestionRaised(task, q), TaskParked(task, q.id, refund));
    StepRaised(s, task, q);
    StepParked(Asked(s, q), task, q.id, refund);
    ParkAndAskCommute(s, task, q, refund);
  }

  lemma StepRaised(s: State, task: TaskId, q: Question)
    requires s.Aligned()
    ensures Step(s, QuestionRaised(task, q)) == Asked(s, q)
  {
  }

  lemma StepParked(s: State, task: TaskId, id: QuestionId, refund: bool)
    requires s.Aligned()
    ensures Step(s, TaskParked(task, id, refund)) == ParkedOn(s, task, id, refund)
  {
  }

  /// An atomic settlement about a task the plan has means what its legacy appends mean; about any other
  /// task it means nothing, while the legacy appends still raise its question.
  lemma ExpandedMeans(s: State, e: Event)
    requires s.Aligned()
    ensures Fold(s, Expanded(e)) ==
      if e.AttemptFinished? && e.parking.Some? && IndexOf(s.taskIds, e.task).None? then Asked(s, e.parking.value.question)
      else Step(s, e)
  {
    if e.AttemptFinished? {
      FoldSettlement(s, e);
      SettlementMeans(s, e);
    } else {
      FoldOne(s, e);
    }
  }

  /// What the appends of one settlement fold to, one after the other.
  function Legacy(s: State, e: Event): State
    requires s.Aligned() && e.AttemptFinished?
  {
    var bare := Step(s, e.(parking := None, transition := None));
    var decided := if e.transition.None? then bare else Transitioned(bare, e.task, e.attempt, e.transition.value);
    if e.parking.None? then decided
    else Asked(ParkedOn(decided, e.task, e.parking.value.question.id, e.parking.value.refund), e.parking.value.question)
  }

  lemma FoldSettlement(s: State, e: Event)
    requires s.Aligned() && e.AttemptFinished?
    ensures Fold(s, Expanded(e)) == Legacy(s, e)
  {
    var bare := e.(parking := None, transition := None);
    FoldOne(s, bare);
    FoldConcat(s, [bare], DecisionEvents(e));
    FoldConcat(s, [bare] + DecisionEvents(e), ParkingEvents(e));
    FoldDecision(Step(s, bare), e);
    FoldParking(Fold(Step(s, bare), DecisionEvents(e)), e);
  }

  lemma SettlementMeans(s: State, e: Event)
    requires s.Aligned() && e.AttemptFinished?
    ensures Legacy(s, e) ==
      if e.parking.Some? && IndexOf(s.taskIds, e.task).None? then Asked(s, e.parking.value.question) else Step(s, e)
  {
  }

  /// A parked settlement about a task the plan does not have.
  predicate Stray(ids: seq<TaskId>, e: Event) {
    e.AttemptFinished? && e.parking.Some? && IndexOf(ids, e.task).None?
  }

  lemma StepRaises(s: State, e: Event)
    requires s.Aligned()
    ensures |Step(s, e).questions| ==
      |s.questions| + if e.QuestionRaised? || (e.AttemptFinished? && e.parking.Some? && IndexOf(s.taskIds, e.task).Some?) then 1 else 0
  {
  }

  /// How many questions one event raises: in its legacy form one more than in its atomic form exactly if it strays.
  lemma ExpandedRaises(legacy: State, atomic: State, e: Event)
    requires legacy.Aligned() && atomic.Aligned() && legacy.taskIds == atomic.taskIds
    requires |legacy.questions| >= |atomic.questions|
    ensures |Fold(legacy, Expanded(e)).questions| - |Step(atomic, e).questions| ==
      |legacy.questions| - |atomic.questions| + if Stray(atomic.taskIds, e) then 1 else 0
  {
    ExpandedMeans(legacy, e);
    StepRaises(legacy, e);
    StepRaises(atomic, e);
  }

  function Strays(ids: seq<TaskId>, log: seq<Event>): nat {
    if log == [] then 0 else Strays(ids, log[..|log| - 1]) + if Stray(ids, log[|log| - 1]) then 1 else 0
  }

  lemma {:induction false} StraysCount(ids: seq<TaskId>, log: seq<Event>)
    ensures Strays(ids, log) == 0 <==> forall k :: 0 <= k < |log| ==> !Stray(ids, log[k])
  {
    if log != [] {
      StraysCount(ids, log[..|log| - 1]);
      assert forall k :: 0 <= k < |log| - 1 ==> log[..|log| - 1][k] == log[k];
    }
  }

  /// The expanded fold has one more question for each stray, and is the same fold when there is none.
  lemma {:induction false} ExpansionLeads(s: State, log: seq<Event>)
    requires s.Aligned()
    ensures |Fold(s, Expand(log)).questions| == |Fold(s, log).questions| + Strays(s.taskIds, log)
    ensures Strays(s.taskIds, log) == 0 ==> Fold(s, Expand(log)) == Fold(s, log)
  {
    if log != [] {
      var before, e := log[..|log| - 1], log[|log| - 1];
      ExpansionLeads(s, before);
      FoldConcat(s, Expand(before), Expanded(e));
      ExpandedRaises(Fold(s, Expand(before)), Fold(s, before), e);
      if Strays(s.taskIds, log) == 0 {
        ExpandedMeans(Fold(s, before), e);
      }
    }
  }

  /// The transformation preserves the fold for exactly the logs whose parked settlements are all about
  /// tasks in the plan.
  lemma ExpansionPreservesFold(s: State, log: seq<Event>)
    requires s.Aligned()
    ensures Fold(s, Expand(log)) == Fold(s, log) <==> forall k :: 0 <= k < |log| ==> !Stray(s.taskIds, log[k])
  {
    ExpansionLeads(s, log);
    StraysCount(s.taskIds, log);
  }

  // ------------------------------------------------------ crash detection

  datatype UnsettledKind = MissingDecision | MissingSpendParking

  datatype Unsettled = Unsettled(task: TaskId, attempt: u32, rung: u32, kind: UnsettledKind)

  datatype Tracker = Tracker(schema: nat, pending: seq<Unsettled>, escalations: seq<Unsettled>, spendParks: seq<Unsettled>)

  function WithoutTask(xs: seq<Unsettled>, task: TaskId): (r: seq<Unsettled>)
    ensures forall u :: u in r <==> u in xs && u.task != task
  {
    if xs == [] then []
    else if xs[0].task != task then [xs[0]] + WithoutTask(xs[1..], task) else WithoutTask(xs[1..], task)
  }

  function WithoutAttempt(xs: seq<Unsettled>, task: TaskId, attempt: u32, rung: u32): (r: seq<Unsettled>)
    ensures forall u :: u in r <==> u in xs && !(u.task == task && u.attempt == attempt && u.rung == rung)
  {
    if xs == [] then []
    else
      var rest := WithoutAttempt(xs[1..], task, attempt, rung);
      if xs[0].task != task || xs[0].attempt != attempt || xs[0].rung != rung then [xs[0]] + rest else rest
  }

  function LastOf(xs: seq<Unsettled>, task: TaskId): (r: Option<Unsettled>)
    ensures r.Some? ==> r.value in xs && r.value.task == task
    ensures r.None? ==> forall u :: u in xs ==> u.task != task
  {
    if xs == [] then None
    else if xs[|xs| - 1].task == task then Some(xs[|xs| - 1])
    else LastOf(xs[..|xs| - 1], task)
  }

  function Track(t: Tracker, e: Event): Tracker {
    match e
    case RunSchemaUpgraded(_, to) => t.(schema := to)
    case AttemptFinished(task, attempt, rung, _, record, parking, transition, _) =>
      if t.schema < 3 && record.failure.Some? && parking.None? && transition.None?
      then t.(pending := t.pending + [Unsettled(task, attempt, rung, MissingDecision)]) else t
    case LadderRetry(task, attempt, rung, _) => t.(pending := WithoutAttempt(t.pending, task, attempt, rung))
    case LadderEscalated(task, attempt, rung, _) =>
      t.(pending := WithoutAttempt(t.pending, task, attempt, rung),
         escalations := WithoutTask(t.escalations, task) + [Unsettled(task, attempt, rung, MissingSpendParking)])
    case QuestionRaised(task, q) =>
      var escalation := LastOf(t.escalations, task);
      if q.kind.ApproveSpend? && escalation.Some?
      then t.(spendParks := WithoutTask(t.spendParks, task) + [escalation.value]) else t
    case TaskDeferred(task, _) => t.(pending := WithoutTask(t.pending, task), escalations := WithoutTask(t.escalations, task))
    case TaskFailed(task, _) => t.(pending := WithoutTask(t.pending, task), escalations := WithoutTask(t.escalations, task))
    case TaskParked(task, _, _) =>
      t.(pending := WithoutTask(t.pending, task), escalations := WithoutTask(t.escalations, task),
         spendParks := WithoutTask(t.spendParks, task))
    case AttemptStarted(task, _, _, _, _) => t.(escalations := WithoutTask(t.escalations, task))
    case _ => t
  }

  function TrackAll(t: Tracker, log: seq<Event>): Tracker {
    if log == [] then t else Track(TrackAll(t, log[..|log| - 1]), log[|log| - 1])
  }

  function Verdict(schema: nat, log: seq<Event>): Option<Unsettled> {
    var t := TrackAll(Tracker(schema, [], [], []), log);
    if t.spendParks != [] then Some(t.spendParks[0]) else if t.pending != [] then Some(t.pending[0]) else None
  }

  /// The body of the detector's loop.
  method TrackEvent(
    schema0: nat, pending0: seq<Unsettled>, escalations0: seq<Unsettled>, spendParks0: seq<Unsettled>, e: Event)
    returns (schema: nat, pending: seq<Unsettled>, escalations: seq<Unsettled>, spendParks: seq<Unsettled>)
    ensures Tracker(schema, pending, escalations, spendParks) == Track(Tracker(schema0, pending0, escalations0, spendParks0), e)
  {
    schema, pending, escalations, spendParks := schema0, pending0, escalations0, spendParks0;
    match e
    case RunSchemaUpgraded(_, to) => schema := to;
    case AttemptFinished(task, attempt, rung, _, record, parking, transition, _) =>
      if schema < 3 && record.failure.Some? && parking.None? && transition.None? {
        pending := pending + [Unsettled(task, attempt, rung, MissingDecision)];
      }
    case LadderRetry(task, attempt, rung, _) =>
      pending := WithoutAttempt(pending, task, attempt, rung);
    case LadderEscalated(task, attempt, rung, _) =>
      pending := WithoutAttempt(pending, task, attempt, rung);
      escalations := WithoutTask(escalations, task);
      escalations := escalations + [Unsettled(task, attempt, rung, MissingSpendParking)];
    case QuestionRaised(task, q) =>
      if q.kind == ApproveSpend {
        var escalation := LastOf(escalations, task);
        if escalation.Some? {
          spendParks := WithoutTask(spendParks, task);
          spendParks := spendParks + [escalation.value];
        }
      }
    case TaskDeferred(task, _) =>
      pending, escalations := WithoutTask(pending, task), WithoutTask(escalations, task);
    case TaskFailed(task, _) =>
      pending, escalations := WithoutTask(pending, task), WithoutTask(escalations, task);
    case TaskParked(task, _, _) =>
      pending, escalations := WithoutTask(pending, task), WithoutTask(escalations, task);
      spendParks := WithoutTask(spendParks, task);
    case AttemptStarted(task, _, _, _, _) => escalations := WithoutTask(escalations, task);
    case _ =>
  }

  method LegacyUnsettledFailure(startedSchema: nat, log: seq<Event>) returns (r: Option<Unsettled>)
    ensures r == Verdict(startedSchema, log)
  {
    var schema := startedSchema;
    var pending: seq<Unsettled>, escalations: seq<Unsettled>, spendParks: seq<Unsettled> := [], [], [];
    for k := 0 to |log|
      invariant Tracker(schema, pending, escalations, spendParks) == TrackAll(Tracker(startedSchema, [], [], []), log[..k])
    {
      assert log[..k + 1][..k] == log[..k];
      schema, pending, escalations, spendParks := TrackEvent(schema, pending, escalations, spendParks, log[k]);
    }
    assert log[..|log|] == log;
    if spendParks != [] {
      return Some(spendParks[0]);
    }
    return if pending != [] then Some(pending[0]) else None;
  }

  /// What a current writer would have put in a schema-2 log: no legacy appends, every failure decided.
  predicate Atomic(e: Event) {
    && !e.LadderRetry? && !e.LadderEscalated? && !e.TaskDeferred? && !e.TaskParked? && !e.QuestionRaised?
    && (e.RunSchemaUpgraded? ==> e.to < 3)
    && (e.AttemptFinished? ==>
          if e.record.failure.Some? then ValidAttemptDecision(e.task, e.record.failure.value, e.transition, e.parking)
          else e.parking.None? && e.transition.None?)
  }

  ghost predicate AtomicLog(log: seq<Event>) {
    forall k :: 0 <= k < |log| ==> Atomic(log[k])
  }

  /// Nothing owed.
  predicate Quiet(t: Tracker) {
    t.schema < 3 && t.pending == [] && t.spendParks == []
  }

  lemma {:induction false} TrackConcat(t: Tracker, a: seq<Event>, b: seq<Event>)
    ensures TrackAll(t, a + b) == TrackAll(TrackAll(t, a), b)
  {
    if b == [] {
      assert a + b == a;
    } else {
      assert (a + b)[..|a + b| - 1] == a + b[..|b| - 1];
      TrackConcat(t, a, b[..|b| - 1]);
    }
  }

  lemma TrackOne(t: Tracker, e: Event)
    ensures TrackAll(t, [e]) == Track(t, e)
  {
    assert [e][..0] == [];
  }

  lemma HeadIsIn(xs: seq<Unsettled>)
    ensures xs == [] || xs[0] in xs
  {
  }

  /// A bare failed finish is owed a decision; its own decision events discharge it.
  lemma TrackFinish(t: Tracker, e: Event)
    requires Quiet(t) && Atomic(e) && e.AttemptFinished? && e.record.failure.Some?
    ensures
      var bare := Track(t, e.(parking := None, transition := None));
      && bare == t.(pending := [Unsettled(e.task, e.attempt, e.rung, MissingDecision)])
      && TrackAll(t, [e.(parking := None, transition := None)]) == bare
      && (e.transition.Some? ==> Quiet(TrackAll(bare, DecisionEvents(e))))
      && (e.transition.None? ==> TrackAll(bare, DecisionEvents(e)) == bare)
  {
    var bare := Track(t, e.(parking := None, transition := None));
    TrackOne(t, e.(parking := None, transition := None));
    if e.transition.Some? {
      var d := DecisionEvents(e)[0];
      assert DecisionEvents(e) == [d];
      TrackOne(bare, d);
      HeadIsIn(WithoutTask(bare.pending, e.task));
      HeadIsIn(WithoutAttempt(bare.pending, e.task, e.attempt, e.rung));
    }
  }

  /// Where a settlement's decision leaves the tracker before its question, if it has one, is raised.
  function Decided(t: Tracker, e: Event): Tracker
    requires e.AttemptFinished?
  {
    TrackAll(Track(t, e.(parking := None, transition := None)), DecisionEvents(e))
  }

  /// Raising the question leaves the settlement owed something: its decision, or after an escalation the
  /// park that makes the approval binding.
  lemma TrackQuestion(t: Tracker, e: Event)
    requires Quiet(t) && Atomic(e) && e.AttemptFinished? && e.parking.Some?
    ensures
      var raised := Track(Decided(t, e), QuestionRaised(e.task, e.parking.value.question));
      && (raised.pending != [] || raised.spendParks != [])
      && (forall u :: u in raised.pending || u in raised.spendParks ==> u.task == e.task)
      && raised.schema < 3
  {
    TrackFinish(t, e);
    var bare := Track(t, e.(parking := None, transition := None));
    if e.transition.Some? {
      var d := DecisionEvents(e)[0];
      assert DecisionEvents(e) == [d];
      TrackOne(bare, d);
      var owed := Unsettled(e.task, e.attempt, e.rung, MissingSpendParking);
      var escalations := Decided(t, e).escalations;
      assert escalations[|escalations| - 1] == owed;
      assert LastOf(escalations, e.task) == Some(owed);
    }
  }

  /// Parking discharges whatever the task was owed.
  lemma TrackPark(raised: Tracker, e: Event)
    requires e.TaskParked? && raised.schema < 3
    requires forall u :: u in raised.pending || u in raised.spendParks ==> u.task == e.task
    ensures Quiet(Track(raised, e))
  {
    HeadIsIn(WithoutTask(raised.pending, e.task));
    HeadIsIn(WithoutTask(raised.spendParks, e.task));
  }

  lemma TrackParking(t: Tracker, e: Event)
    requires Quiet(t) && Atomic(e) && e.AttemptFinished? && e.parking.Some?
    ensures
      var raised := TrackAll(Decided(t, e), ParkingEvents(e)[..1]);
      raised.pending != [] || raised.spendParks != []
    ensures Quiet(TrackAll(Decided(t, e), ParkingEvents(e)))
  {
    var question, parked := ParkingEvents(e)[0], ParkingEvents(e)[1];
    TrackQuestion(t, e);
    TrackPark(Track(Decided(t, e), question), parked);
    assert ParkingEvents(e) == [question] + [parked] && ParkingEvents(e)[..1] == [question];
    TrackOne(Decided(t, e), question);
    TrackOne(Track(Decided(t, e), question), parked);
    TrackConcat(Decided(t, e), [question], [parked]);
  }

  /// Reading a whole settlement leaves nothing owed.
  lemma TrackExpanded(t: Tracker, e: Event)
    requires Quiet(t) && Atomic(e)
    ensures Quiet(TrackAll(t, Expanded(e)))
  {
    if e.AttemptFinished? && e.record.failure.Some? {
      var bare := e.(parking := None, transition := None);
      TrackFinish(t, e);
      TrackConcat(t, [bare], DecisionEvents(e));
      TrackConcat(t, [bare] + DecisionEvents(e), ParkingEvents(e));
      if e.parking.Some? {
        TrackParking(t, e);
      }
    } else {
      TrackOne(t, e);
      assert Expanded(e) == [e];
    }
  }

  lemma {:induction false} TrackExpansion(schema: nat, log: seq<Event>)
    requires AtomicLog(log) && schema < 3
    ensures Quiet(TrackAll(Tracker(schema, [], [], []), Expand(log)))
  {
    if log != [] {
      var before := log[..|log| - 1];
      TrackExpansion(schema, before);
      TrackConcat(Tracker(schema, [], [], []), Expand(before), Expanded(log[|log| - 1]));
      TrackExpanded(TrackAll(Tracker(schema, [], [], []), Expand(before)), log[|log| - 1]);
    }
  }

  /// Where a cut of an expanded log falls: after some whole settlements, m events into the next one.
  lemma {:induction false} CutPoint(log: seq<Event>, n: nat) returns (k: nat, m: nat)
    requires n <= |Expand(log)|
    ensures k <= |log| && (k == |log| ==> m == 0)
    ensures k < |log| ==> m < |Expanded(log[k])|
    ensures Expand(log)[..n] == Expand(log[..k]) + if k < |log| then Expanded(log[k])[..m] else []
  {
    if log == [] {
      k, m := 0, 0;
    } else {
      var before, e := log[..|log| - 1], log[|log| - 1];
      if n < |Expand(before)| {
        k, m := CutPoint(before, n);
        assert before[..k] == log[..k];
        assert Expand(log)[..n] == Expand(before)[..n];
      } else if n == |Expand(log)| {
        k, m := |log|, 0;
        assert log[..k] == log;
      } else {
        k, m := |before|, n - |Expand(before)|;
        assert log[..k] == before;
        assert Expand(log)[..n] == Expand(before) + Expanded(e)[..m];
      }
    }
  }

  /// A cut inside one settlement is itself a whole settlement exactly when the detector stays silent; the
  /// only such cut is after an escalation, before its approval question.
  lemma CutInside(t: Tracker, e: Event, m: nat)
    requires Quiet(t) && Atomic(e) && 0 < m < |Expanded(e)|
    ensures
      var after := TrackAll(t, Expanded(e)[..m]);
      if e.parking.Some? && e.transition.Some? && m == 2
      then Atomic(e.(parking := None)) && Expanded(e)[..m] == Expanded(e.(parking := None))
      else after.pending != [] || after.spendParks != []
  {
    var bare := e.(parking := None, transition := None);
    TrackFinish(t, e);
    TrackConcat(t, [bare], DecisionEvents(e));
    if m == 1 {
      assert Expanded(e)[..1] == [bare];
    } else {
      TrackParking(t, e);
      if e.transition.Some? {
        assert |DecisionEvents(e)| == 1;
        if m == 3 {
          assert Expanded(e)[..3] == ([bare] + DecisionEvents(e)) + ParkingEvents(e)[..1];
          TrackConcat(t, [bare] + DecisionEvents(e), ParkingEvents(e)[..1]);
        } else {
          assert Expanded(e)[..2] == [bare] + DecisionEvents(e) == Expanded(e.(parking := None));
        }
      } else {
        assert Expanded(e)[..2] == [bare] + ParkingEvents(e)[..1];
        assert DecisionEvents(e) == [];
        TrackConcat(t, [bare], ParkingEvents(e)[..1]);
      }
    }
  }

  lemma SilentCutIsWhole(schema: nat, log: seq<Event>, n: nat) returns (whole: seq<Event>)
    requires AtomicLog(log) && schema < 3 && n <= |Expand(log)| && Verdict(schema, Expand(log)[..n]).None?
    ensures AtomicLog(whole) && Expand(whole) == Expand(log)[..n]
  {
    var start := Tracker(schema, [], [], []);
    var k, m := CutPoint(log, n);
    whole := log[..k];
    if m > 0 {
      var before, e := log[..k], log[k];
      TrackExpansion(schema, before);
      TrackConcat(start, Expand(before), Expanded(e)[..m]);
      CutInside(TrackAll(start, Expand(before)), e, m);
      ExpandAppend(before, e.(parking := None));
      whole := before + [e.(parking := None)];
    }
  }

  /// The detector is exact. For any cut of an expanded schema-1 or schema-2 log it reports nothing if and
  /// only if what is left is the expansion of some log of whole settlements.
  lemma DetectorIsExact(schema: nat, log: seq<Event>, n: nat)
    requires AtomicLog(log) && schema < 3 && n <= |Expand(log)|
    ensures Verdict(schema, Expand(log)[..n]).None? <==> exists whole :: AtomicLog(whole) && Expand(whole) == Expand(log)[..n]
  {
    if whole :| AtomicLog(whole) && Expand(whole) == Expand(log)[..n] {
      TrackExpansion(schema, whole);
    }
    if Verdict(schema, Expand(log)[..n]).None? {
      var whole := SilentCutIsWhole(schema, log, n);
    }
  }
}
