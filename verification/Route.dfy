// How a task's escalation chain is resolved (src/route.rs:55-158).
module Route {
  import opened Prelude
  import opened Config
  import Catalog

  datatype ChainSource = Default | Annotation | Override

  datatype Step = Step(tier: Tier, source: ChainSource)

  datatype Binding = Binding(agent: string, model: string, pinned: bool)

  datatype Rung = Rung(tier: Tier, source: ChainSource, binding: Binding)

  function Tiers(steps: seq<Step>): (r: seq<Tier>)
    ensures |r| == |steps| && forall k :: 0 <= k < |r| ==> r[k] == steps[k].tier
  {
    seq(|steps|, k requires 0 <= k < |steps| => steps[k].tier)
  }

  // --------------------------------------------------------- the specification

  function Keep(tiers: seq<Tier>, floor: Tier): seq<Tier> {
    if tiers == [] then []
    else Keep(tiers[..|tiers| - 1], floor) + if tiers[|tiers| - 1].Rank() >= floor.Rank() then [tiers[|tiers| - 1]] else []
  }

  /// What one floor does to a chain of tiers.
  function Clip(tiers: seq<Tier>, floor: Tier): seq<Tier> {
    if Keep(tiers, floor) == [] then [floor] else Keep(tiers, floor)
  }

  function ClipAll(tiers: seq<Tier>, floors: seq<Tier>): seq<Tier> {
    if floors == [] then tiers else Clip(ClipAll(tiers, floors[..|floors| - 1]), floors[|floors| - 1])
  }

  function Higher(a: Tier, b: Tier): Tier {
    if a.Rank() >= b.Rank() then a else b
  }

  function Highest(floors: seq<Tier>): (r: Tier)
    requires floors != []
    ensures r in floors && forall k :: 0 <= k < |floors| ==> floors[k].Rank() <= r.Rank()
  {
    if |floors| == 1 then floors[0]
    else
      var rest := floors[..|floors| - 1];
      assert floors == rest + [floors[|floors| - 1]];
      Higher(Highest(rest), floors[|floors| - 1])
  }

  predicate AllMeet(tiers: seq<Tier>, floor: Tier) {
    forall k :: 0 <= k < |tiers| ==> tiers[k].Rank() >= floor.Rank()
  }

  predicate AllBelow(tiers: seq<Tier>, floor: Tier) {
    forall k :: 0 <= k < |tiers| ==> tiers[k].Rank() < floor.Rank()
  }

  lemma AllOfSnoc(tiers: seq<Tier>, t: Tier, floor: Tier)
    ensures AllMeet(tiers + [t], floor) <==> AllMeet(tiers, floor) && t.Rank() >= floor.Rank()
    ensures AllBelow(tiers + [t], floor) <==> AllBelow(tiers, floor) && t.Rank() < floor.Rank()
  {
    assert (tiers + [t])[|tiers|] == t && forall k :: 0 <= k < |tiers| ==> (tiers + [t])[k] == tiers[k];
  }

  lemma {:induction false} KeepIsExact(tiers: seq<Tier>, floor: Tier)
    ensures |Keep(tiers, floor)| <= |tiers| && AllMeet(Keep(tiers, floor), floor)
    ensures Keep(tiers, floor) == tiers <==> AllMeet(tiers, floor)
    ensures Keep(tiers, floor) == [] <==> AllBelow(tiers, floor)
  {
    if tiers != [] {
      var rest, last := tiers[..|tiers| - 1], tiers[|tiers| - 1];
      KeepIsExact(rest, floor);
      assert tiers == rest + [last];
      AllOfSnoc(rest, last, floor);
      AllOfSnoc(Keep(rest, floor), last, floor);
      assert Keep(rest, floor) + [] == Keep(rest, floor);
    }
  }

  lemma KeepSnoc(tiers: seq<Tier>, t: Tier, floor: Tier)
    ensures Keep(tiers + [t], floor) == Keep(tiers, floor) + if t.Rank() >= floor.Rank() then [t] else []
  {
    assert (tiers + [t])[..|tiers|] == tiers;
  }

  lemma {:induction false} KeepTwice(tiers: seq<Tier>, a: Tier, b: Tier)
    ensures Keep(Keep(tiers, a), b) == Keep(tiers, Higher(a, b))
  {
    if tiers != [] {
      var rest, last := tiers[..|tiers| - 1], tiers[|tiers| - 1];
      KeepTwice(rest, a, b);
      if last.Rank() >= a.Rank() {
        KeepSnoc(Keep(rest, a), last, b);
      } else {
        assert Keep(tiers, a) == Keep(rest, a);
      }
    }
  }

  /// Two floors, one after the other, are the higher of the two.
  lemma ClipTwice(tiers: seq<Tier>, a: Tier, b: Tier)
    ensures Clip(Clip(tiers, a), b) == Clip(tiers, Higher(a, b))
  {
    KeepTwice(tiers, a, b);
    KeepIsExact(tiers, a);
    KeepIsExact(tiers, b);
    KeepIsExact(tiers, Higher(a, b));
    KeepSnoc([], a, b);
  }

  /// Any list of floors is one floor: the highest.
  lemma {:induction false} FloorsCollapse(tiers: seq<Tier>, floors: seq<Tier>)
    requires floors != []
    ensures ClipAll(tiers, floors) == Clip(tiers, Highest(floors))
  {
    var rest, last := floors[..|floors| - 1], floors[|floors| - 1];
    if rest != [] {
      FloorsCollapse(tiers, rest);
      ClipTwice(tiers, Highest(rest), last);
    }
  }

  lemma NotAbove(a: seq<Tier>, b: seq<Tier>)
    requires a != [] && b != [] && multiset(a) == multiset(b)
    ensures Highest(a).Rank() <= Highest(b).Rank()
  {
    var top := Highest(a);
    assert top in multiset(b);
    var k :| 0 <= k < |b| && b[k] == top;
    assert b[k].Rank() <= Highest(b).Rank();
  }

  lemma SameHighest(a: seq<Tier>, b: seq<Tier>)
    requires a != [] && b != [] && multiset(a) == multiset(b)
    ensures Highest(a) == Highest(b)
  {
    NotAbove(a, b);
    NotAbove(b, a);
  }

  lemma FloorOrderIsFree(tiers: seq<Tier>, a: seq<Tier>, b: seq<Tier>)
    requires multiset(a) == multiset(b)
    ensures ClipAll(tiers, a) == ClipAll(tiers, b)
  {
    assert |a| == |multiset(a)| == |multiset(b)| == |b|;
    if a != [] {
      SameHighest(a, b);
      FloorsCollapse(tiers, a);
      FloorsCollapse(tiers, b);
    }
  }

  /// The resolved chain is never empty, and every rung meets every floor.
  lemma EveryRungMeetsEveryFloor(tiers: seq<Tier>, floors: seq<Tier>)
    requires tiers != []
    ensures ClipAll(tiers, floors) != []
    ensures forall k, j :: 0 <= k < |ClipAll(tiers, floors)| && 0 <= j < |floors| ==>
      ClipAll(tiers, floors)[k].Rank() >= floors[j].Rank()
  {
    if floors != [] {
      FloorsCollapse(tiers, floors);
      KeepIsExact(tiers, Highest(floors));
    }
  }

  /// A chain a floor has changed is not changed back by a later one.
  lemma StaysRaised(tiers: seq<Tier>, floors: seq<Tier>, floor: Tier)
    requires tiers != [] && ClipAll(tiers, floors) != tiers
    ensures Clip(ClipAll(tiers, floors), floor) != tiers
  {
    FloorsCollapse(tiers, floors);
    var a := Highest(floors);
    ClipTwice(tiers, a, floor);
    KeepIsExact(tiers, a);
    KeepIsExact(tiers, Higher(a, floor));
    assert AllMeet(tiers, Higher(a, floor)) ==> AllMeet(tiers, a);
  }

  // --------------------------------------------------------------- the code

  /// What `retain` leaves.
  function KeepSteps(steps: seq<Step>, floor: Tier): seq<Step> {
    if steps == [] then []
    else
      var last := steps[|steps| - 1];
      KeepSteps(steps[..|steps| - 1], floor) + if last.tier.Rank() >= floor.Rank() then [last] else []
  }

  lemma {:induction false} KeepStepsTiers(steps: seq<Step>, floor: Tier)
    ensures Tiers(KeepSteps(steps, floor)) == Keep(Tiers(steps), floor)
  {
    if steps != [] {
      var rest, last := steps[..|steps| - 1], steps[|steps| - 1];
      KeepStepsTiers(rest, floor);
      assert Tiers(steps) == Tiers(rest) + [last.tier];
      KeepSnoc(Tiers(rest), last.tier, floor);
      TiersSnoc(KeepSteps(rest, floor), last);
      assert KeepSteps(rest, floor) + [] == KeepSteps(rest, floor) && Keep(Tiers(rest), floor) + [] == Keep(Tiers(rest), floor);
    }
  }

  lemma TiersSnoc(steps: seq<Step>, last: Step)
    ensures Tiers(steps + [last]) == Tiers(steps) + [last.tier]
  {
  }

  lemma {:induction false} KeepStepsLength(steps: seq<Step>, floor: Tier)
    ensures |KeepSteps(steps, floor)| <= |steps|
    ensures |KeepSteps(steps, floor)| == |steps| ==> KeepSteps(steps, floor) == steps
  {
    if steps != [] {
      var front := steps[..|steps| - 1];
      KeepStepsLength(front, floor);
      assert steps == front + [steps[|steps| - 1]];
    }
  }

  /// Only the start of a chain carries a label.
  predicate PlainTail(steps: seq<Step>) {
    forall k :: 1 <= k < |steps| ==> steps[k].source == Default
  }

  lemma {:induction false} KeepStepsPlain(steps: seq<Step>, floor: Tier)
    requires PlainTail(steps)
    ensures PlainTail(KeepSteps(steps, floor))
  {
    if steps != [] {
      var rest, last := steps[..|steps| - 1], steps[|steps| - 1];
      KeepStepsPlain(rest, floor);
      KeepStepsLength(rest, floor);
      assert rest != [] ==> last.source == Default;
    }
  }

  lemma RelabelIsHarmless(steps: seq<Step>, source: ChainSource)
    requires steps != []
    ensures
      var relabeled := steps[0 := steps[0].(source := source)];
      Tiers(relabeled) == Tiers(steps) && (PlainTail(steps) ==> PlainTail(relabeled))
  {
  }

  class Chain {
    var steps: seq<Step>

    constructor (tiers: seq<Tier>)
      ensures Tiers(steps) == tiers && forall k :: 0 <= k < |steps| ==> steps[k].source == Default
    {
      steps := seq(|tiers|, k requires 0 <= k < |tiers| => Step(tiers[k], Default));
    }

    method Retain(floor: Tier)
      modifies this
      ensures steps == KeepSteps(old(steps), floor)
    {
      var kept := [];
      for i := 0 to |steps|
        invariant steps == old(steps) && kept == KeepSteps(steps[..i], floor)
      {
        assert steps[..i + 1][..i] == steps[..i];
        if steps[i].tier.Rank() >= floor.Rank() {
          kept := kept + [steps[i]];
        }
      }
      assert steps[..|steps|] == steps;
      steps := kept;
    }

    /// Drops the rungs below a floor, or leaves the floor itself as the only rung; a start that moved gets a new label.
    method RaiseStart(floor: Tier, source: ChainSource) returns (changed: bool)
      modifies this
      ensures Tiers(steps) == Clip(old(Tiers(steps)), floor) && steps != []
      ensures changed <==> Tiers(steps) != old(Tiers(steps))
      ensures !changed ==> steps == old(steps)
      ensures changed ==> steps[0].source == source
      ensures PlainTail(old(steps)) ==> PlainTail(steps)
    {
      var before := |steps|;
      KeepStepsTiers(steps, floor);
      KeepStepsLength(steps, floor);
      if PlainTail(steps) {
        KeepStepsPlain(steps, floor);
      }
      KeepIsExact([floor], floor);
      Retain(floor);
      if steps == [] {
        steps := [Step(floor, source)];
        return true;
      }
      changed := |steps| != before;
      if changed {
        RelabelIsHarmless(steps, source);
        steps := steps[0 := steps[0].(source := source)];
      }
    }
  }

  function Floor(t: Option<Tier>): seq<Tier> {
    if t.Some? then [t.value] else []
  }

  /// The floors of the first n overrides, in configuration order.
  function OverrideFloors(task: Task, cfg: Config, isMatch: GlobMatch, n: nat): seq<Tier>
    requires n <= |cfg.overrides|
  {
    if n == 0 then []
    else
      OverrideFloors(task, cfg, isMatch, n - 1)
        + if Touches(task, cfg.overrides[n - 1], isMatch) then Floor(cfg.overrides[n - 1].startAt) else []
  }

  function Floors(task: Task, cfg: Config, isMatch: GlobMatch): seq<Tier> {
    OverrideFloors(task, cfg, isMatch, |cfg.overrides|) + Floor(task.suggestedTier) + Floor(task.minTier)
  }

  function Bind(tier: Tier, cfg: Config): Binding {
    var pin := PinFor(cfg.pins, tier);
    if pin.Some? then Binding(pin.value.agent, pin.value.model, true)
    else Binding(Catalog.ExampleBinding(tier).agent, Catalog.ExampleBinding(tier).model, false)
  }

  /// Who is credited with where a chain starts: what last raised it, else a designer's hint that names the default
  /// start. A hint that merely agrees with an override takes no credit.
  function StartSource(tiers: seq<Tier>, afterOverrides: seq<Tier>, resolved: seq<Tier>, hint: Option<Tier>): ChainSource
    requires tiers != []
  {
    if resolved != afterOverrides then Annotation
    else if afterOverrides != tiers then ChainSource.Override
    else if hint == Some(tiers[0]) then Annotation
    else Default
  }

  /// The chain itself: what `resolve` does before it binds the rungs. A configured chain is never empty
  /// (src/config.rs:597-601).
  method ResolveSteps(task: Task, tiers: seq<Tier>, cfg: Config, isMatch: GlobMatch) returns (steps: seq<Step>)
    requires tiers != []
    ensures steps != [] && Tiers(steps) == ClipAll(tiers, Floors(task, cfg, isMatch))
    ensures PlainTail(steps)
    ensures
      var afterOverrides := ClipAll(tiers, OverrideFloors(task, cfg, isMatch, |cfg.overrides|));
      steps[0].source == StartSource(tiers, afterOverrides, Tiers(steps), task.suggestedTier)
  {
    var chain := new Chain(tiers);
    ApplyOverrides(chain, task, tiers, cfg, isMatch);
    ghost var floors := OverrideFloors(task, cfg, isMatch, |cfg.overrides|);
    ghost var base := Tiers(chain.steps);
    ApplyHint(chain, task.suggestedTier);
    ghost var hinted := floors + Floor(task.suggestedTier);
    FloorSnoc(tiers, floors, task.suggestedTier);
    FloorSnoc(tiers, hinted, task.minTier);
    if task.minTier.Some? {
      var _ := chain.RaiseStart(task.minTier.value, Annotation);
      if ClipAll(base, Floor(task.suggestedTier)) != base {
        StaysRaised(base, Floor(task.suggestedTier), task.minTier.value);
      }
    }
    steps := chain.steps;
  }

  method ApplyOverrides(chain: Chain, task: Task, tiers: seq<Tier>, cfg: Config, isMatch: GlobMatch)
    requires tiers != [] && Raised(chain.steps, tiers, [])
    modifies chain
    ensures Raised(chain.steps, tiers, OverrideFloors(task, cfg, isMatch, |cfg.overrides|))
  {
    for i := 0 to |cfg.overrides|
      invariant Raised(chain.steps, tiers, OverrideFloors(task, cfg, isMatch, i))
    {
      var ov := cfg.overrides[i];
      ghost var floors := OverrideFloors(task, cfg, isMatch, i);
      if ov.startAt.Some? && Touches(task, ov, isMatch) {
        var _ := chain.RaiseStart(ov.startAt.value, ChainSource.Override);
        ClipAllSnoc(tiers, floors, ov.startAt.value);
        if ClipAll(tiers, floors) != tiers {
          StaysRaised(tiers, floors, ov.startAt.value);
        }
      } else {
        assert floors + [] == floors;
      }
    }
  }

  /// The designer's `tier=`.
  method ApplyHint(chain: Chain, hint: Option<Tier>)
    requires chain.steps != [] && PlainTail(chain.steps)
    modifies chain
    ensures chain.steps != [] && PlainTail(chain.steps)
    ensures Tiers(chain.steps) == ClipAll(old(Tiers(chain.steps)), Floor(hint))
    ensures chain.steps[0].source ==
      if Tiers(chain.steps) != old(Tiers(chain.steps)) then Annotation
      else if old(chain.steps[0].source) == Default && hint == Some(old(chain.steps[0].tier)) then Annotation
      else old(chain.steps[0].source)
  {
    ghost var before := Tiers(chain.steps);
    if hint.Some? {
      var raised := chain.RaiseStart(hint.value, Annotation);
      ClipAllSnoc(before, [], hint.value);
      assert [] + [hint.value] == Floor(hint);
      if !raised && chain.steps[0] == Step(hint.value, Default) {
        chain.steps := chain.steps[0 := Step(hint.value, Annotation)];
        assert Tiers(chain.steps) == before;
      }
    }
  }

  lemma FloorSnoc(tiers: seq<Tier>, floors: seq<Tier>, floor: Option<Tier>)
    ensures ClipAll(tiers, floors + Floor(floor)) == ClipAll(ClipAll(tiers, floors), Floor(floor))
  {
    if floor.Some? {
      ClipAllSnoc(tiers, floors, floor.value);
      ClipAllSnoc(ClipAll(tiers, floors), [], floor.value);
      assert [] + [floor.value] == [floor.value];
    } else {
      assert floors + [] == floors;
    }
  }

  /// A chain the overrides have been at: its start is theirs exactly if they moved it.
  ghost predicate Raised(steps: seq<Step>, tiers: seq<Tier>, floors: seq<Tier>) {
    && steps != [] && Tiers(steps) == ClipAll(tiers, floors)
    && steps[0].source == (if ClipAll(tiers, floors) == tiers then Default else ChainSource.Override)
    && PlainTail(steps)
  }

  lemma ClipAllSnoc(tiers: seq<Tier>, floors: seq<Tier>, floor: Tier)
    ensures ClipAll(tiers, floors + [floor]) == Clip(ClipAll(tiers, floors), floor)
  {
    assert (floors + [floor])[..|floors|] == floors;
  }

  // ------------------------------------------------- what a chain comes to

  /// Small < Mid < Frontier.
  predicate Reaches(t: Tier, floor: Tier) {
    floor == Small || t == Frontier || t == floor
  }

  /// A tier the task must start at or above: its binding minimum, its designer's suggestion, or the start of an override
  /// that touches one of its paths.
  ghost predicate IsFloor(task: Task, cfg: Config, isMatch: GlobMatch, t: Tier) {
    || task.minTier == Some(t) || task.suggestedTier == Some(t) || OverridesTo(task, cfg, isMatch, t)
  }

  ghost predicate OverridesTo(task: Task, cfg: Config, isMatch: GlobMatch, t: Tier) {
    exists k, p :: 0 <= k < |cfg.overrides| && 0 <= p < |task.pathHints|
      && cfg.overrides[k].startAt == Some(t) && isMatch(cfg.overrides[k].globs, task.pathHints[p])
  }

  /// The configured tiers that reach a floor, all of them and in order.
  ghost predicate ThoseThatReach(tiers: seq<Tier>, floor: Tier, got: seq<Tier>) {
    exists at: seq<nat> :: PickedAt(tiers, floor, got, at)
  }

  ghost predicate PickedAt(tiers: seq<Tier>, floor: Tier, got: seq<Tier>, at: seq<nat>) {
    && |at| == |got| && (forall j :: 0 <= j < |at| ==> at[j] < |tiers| && got[j] == tiers[at[j]])
    && (forall i, j :: 0 <= i < j < |at| ==> at[i] < at[j])
    && (forall k :: 0 <= k < |tiers| ==> (k in at <==> Reaches(tiers[k], floor)))
  }

  /// A chain under these floors: the chain itself where there is none; under the highest of them, the configured tiers
  /// that reach it, or if none does that floor alone.
  ghost predicate Clipped(tiers: seq<Tier>, isFloor: Tier -> bool, got: seq<Tier>) {
    && ((forall t :: !isFloor(t)) ==> got == tiers)
    && (forall t, k :: isFloor(t) && 0 <= k < |got| ==> Reaches(got[k], t))
    && (forall top :: isFloor(top) && (forall t :: isFloor(t) ==> Reaches(top, t)) ==>
          if exists k :: 0 <= k < |tiers| && Reaches(tiers[k], top) then ThoseThatReach(tiers, top, got) else got == [top])
  }

  lemma RankIsOrder(a: Tier, b: Tier)
    ensures a.Rank() >= b.Rank() <==> Reaches(a, b)
  {
  }

  lemma {:induction false} KeepPicks(tiers: seq<Tier>, floor: Tier) returns (at: seq<nat>)
    ensures PickedAt(tiers, floor, Keep(tiers, floor), at)
  {
    at := [];
    if tiers != [] {
      var n := |tiers| - 1;
      var rest := KeepPicks(tiers[..n], floor);
      RankIsOrder(tiers[n], floor);
      at := if Reaches(tiers[n], floor) then rest + [n] else rest;
      PickOneMore(tiers, floor, Keep(tiers[..n], floor), rest);
      assert Keep(tiers[..n], floor) + [] == Keep(tiers[..n], floor);
    }
  }

  lemma PickOneMore(tiers: seq<Tier>, floor: Tier, got: seq<Tier>, at: seq<nat>)
    requires tiers != [] && PickedAt(tiers[..|tiers| - 1], floor, got, at)
    ensures
      var n := |tiers| - 1;
      if Reaches(tiers[n], floor) then PickedAt(tiers, floor, got + [tiers[n]], at + [n]) else PickedAt(tiers, floor, got, at)
  {
    var n := |tiers| - 1;
    assert forall k :: 0 <= k < n ==> tiers[..n][k] == tiers[k];
    if Reaches(tiers[n], floor) {
      forall k | 0 <= k < |tiers| ensures k in at + [n] <==> Reaches(tiers[k], floor) {
        assert k in at + [n] <==> k in at || k == n;
      }
    } else {
      forall k | 0 <= k < |tiers| ensures k in at <==> Reaches(tiers[k], floor) {
        assert n !in at;
      }
    }
  }

  /// What the clip does, said of the floors as a set.
  lemma ClipAllIsClipped(tiers: seq<Tier>, floors: seq<Tier>, isFloor: Tier -> bool)
    requires tiers != [] && forall t :: isFloor(t) <==> t in floors
    ensures Clipped(tiers, isFloor, ClipAll(tiers, floors))
  {
    if floors != [] {
      FloorsCollapse(tiers, floors);
      EveryRungMeetsEveryFloor(tiers, floors);
      assert isFloor(floors[0]);
      var got := ClipAll(tiers, floors);
      forall t, k | isFloor(t) && 0 <= k < |got| ensures Reaches(got[k], t) {
        var j :| 0 <= j < |floors| && floors[j] == t;
        RankIsOrder(got[k], floors[j]);
      }
      forall top | isFloor(top) && forall t :: isFloor(t) ==> Reaches(top, t)
        ensures if exists k :: 0 <= k < |tiers| && Reaches(tiers[k], top) then ThoseThatReach(tiers, top, got) else got == [top]
      {
        assert isFloor(Highest(floors));
        RankIsOrder(top, Highest(floors));
        assert top == Highest(floors);
        HighestPicks(tiers, top);
      }
    }
  }

  lemma HighestPicks(tiers: seq<Tier>, top: Tier)
    ensures if exists k :: 0 <= k < |tiers| && Reaches(tiers[k], top) then ThoseThatReach(tiers, top, Clip(tiers, top))
            else Clip(tiers, top) == [top]
  {
    var at := KeepPicks(tiers, top);
    if at == [] {
      forall k | 0 <= k < |tiers| ensures !Reaches(tiers[k], top) {
        assert k !in at;
      }
    } else {
      assert at[0] in at;
    }
  }

  lemma {:induction false} OverrideFloorsAre(task: Task, cfg: Config, isMatch: GlobMatch, n: nat, t: Tier)
    requires n <= |cfg.overrides|
    ensures t in OverrideFloors(task, cfg, isMatch, n) <==>
      exists k, p :: 0 <= k < n && 0 <= p < |task.pathHints|
        && cfg.overrides[k].startAt == Some(t) && isMatch(cfg.overrides[k].globs, task.pathHints[p])
  {
    if n > 0 {
      OverrideFloorsAre(task, cfg, isMatch, n - 1, t);
    }
  }

  lemma FloorsAre(task: Task, cfg: Config, isMatch: GlobMatch, t: Tier)
    ensures t in Floors(task, cfg, isMatch) <==> IsFloor(task, cfg, isMatch, t)
    ensures t in OverrideFloors(task, cfg, isMatch, |cfg.overrides|) <==> OverridesTo(task, cfg, isMatch, t)
  {
    OverrideFloorsAre(task, cfg, isMatch, |cfg.overrides|, t);
  }

  /// The floors of a task, and those its overrides alone set, as sets.
  ghost function AllFloors(task: Task, cfg: Config, isMatch: GlobMatch): Tier -> bool {
    t => IsFloor(task, cfg, isMatch, t)
  }

  ghost function OverridesAlone(task: Task, cfg: Config, isMatch: GlobMatch): Tier -> bool {
    t => OverridesTo(task, cfg, isMatch, t)
  }

  /// What runs a tier: the first pin for it, else, unpinned, a listed model of that tier.
  ghost predicate Runs(tier: Tier, cfg: Config, b: Binding) {
    || (exists k :: 0 <= k < |cfg.pins| && cfg.pins[k].tier == tier && (forall j :: 0 <= j < k ==> cfg.pins[j].tier != tier)
          && b == Binding(cfg.pins[k].agent, cfg.pins[k].model, true))
    || (&& (forall k :: 0 <= k < |cfg.pins| ==> cfg.pins[k].tier != tier)
        && !b.pinned && Catalog.Lists(b.agent, b.model, tier))
  }

  lemma BindRuns(tier: Tier, cfg: Config)
    ensures Runs(tier, cfg, Bind(tier, cfg))
  {
    Catalog.ExamplesAreListed(tier);
  }

  /// The start's credit: the annotations if they moved the chain beyond where the overrides put it, else the overrides
  /// if they moved it, else a suggestion that names the configured start.
  ghost predicate Credits(task: Task, tiers: seq<Tier>, cfg: Config, isMatch: GlobMatch, got: seq<Tier>, source: ChainSource) {
    exists base ::
      && Clipped(tiers, OverridesAlone(task, cfg, isMatch), base)
      && source == if got != base then Annotation
                   else if base != tiers then ChainSource.Override
                   else if tiers != [] && task.suggestedTier == Some(tiers[0]) then Annotation
                   else Default
  }

  /// What `resolve` returns, with nothing of how it gets there.
  ghost predicate AsConfigured(task: Task, tiers: seq<Tier>, cfg: Config, isMatch: GlobMatch, rungs: seq<Rung>) {
    var got := seq(|rungs|, k requires 0 <= k < |rungs| => rungs[k].tier);
    && rungs != [] && Clipped(tiers, AllFloors(task, cfg, isMatch), got)
    && (forall k :: 0 <= k < |rungs| ==> Runs(rungs[k].tier, cfg, rungs[k].binding))
    && (forall k :: 1 <= k < |rungs| ==> rungs[k].source == Default)
    && Credits(task, tiers, cfg, isMatch, got, rungs[0].source)
  }

  lemma ResolvedAsConfigured(task: Task, tiers: seq<Tier>, cfg: Config, isMatch: GlobMatch, rungs: seq<Rung>)
    requires tiers != [] && |rungs| == |ClipAll(tiers, Floors(task, cfg, isMatch))| > 0
    requires forall k :: 0 <= k < |rungs| ==>
      rungs[k].tier == ClipAll(tiers, Floors(task, cfg, isMatch))[k] && rungs[k].binding == Bind(rungs[k].tier, cfg)
    requires forall k :: 1 <= k < |rungs| ==> rungs[k].source == Default
    requires
      var afterOverrides := ClipAll(tiers, OverrideFloors(task, cfg, isMatch, |cfg.overrides|));
      rungs[0].source == StartSource(tiers, afterOverrides, ClipAll(tiers, Floors(task, cfg, isMatch)), task.suggestedTier)
    ensures AsConfigured(task, tiers, cfg, isMatch, rungs)
  {
    var got := seq(|rungs|, k requires 0 <= k < |rungs| => rungs[k].tier);
    assert got == ClipAll(tiers, Floors(task, cfg, isMatch));
    forall t
      ensures AllFloors(task, cfg, isMatch)(t) <==> t in Floors(task, cfg, isMatch)
      ensures OverridesAlone(task, cfg, isMatch)(t) <==> t in OverrideFloors(task, cfg, isMatch, |cfg.overrides|)
    {
      FloorsAre(task, cfg, isMatch, t);
    }
    ClipAllIsClipped(tiers, Floors(task, cfg, isMatch), AllFloors(task, cfg, isMatch));
    ClipAllIsClipped(tiers, OverrideFloors(task, cfg, isMatch, |cfg.overrides|), OverridesAlone(task, cfg, isMatch));
    forall k | 0 <= k < |rungs| ensures Runs(rungs[k].tier, cfg, rungs[k].binding) {
      BindRuns(rungs[k].tier, cfg);
    }
  }

  method Resolve(task: Task, tiers: seq<Tier>, cfg: Config, isMatch: GlobMatch) returns (rungs: seq<Rung>)
    requires tiers != []
    ensures |rungs| == |ClipAll(tiers, Floors(task, cfg, isMatch))| > 0
    ensures forall k :: 0 <= k < |rungs| ==>
      rungs[k].tier == ClipAll(tiers, Floors(task, cfg, isMatch))[k] && rungs[k].binding == Bind(rungs[k].tier, cfg)
    ensures forall k :: 1 <= k < |rungs| ==> rungs[k].source == Default
    ensures
      var afterOverrides := ClipAll(tiers, OverrideFloors(task, cfg, isMatch, |cfg.overrides|));
      rungs[0].source == StartSource(tiers, afterOverrides, ClipAll(tiers, Floors(task, cfg, isMatch)), task.suggestedTier)
    ensures AsConfigured(task, tiers, cfg, isMatch, rungs)
  {
    var steps := ResolveSteps(task, tiers, cfg, isMatch);
    rungs := seq(|steps|, k requires 0 <= k < |steps| => Rung(steps[k].tier, steps[k].source, Bind(steps[k].tier, cfg)));
    ResolvedAsConfigured(task, tiers, cfg, isMatch, rungs);
  }
}
