// Which review passes a task gets, and when a model would judge its own work (src/review.rs:119-464).
module Review {
  import opened Prelude
  import opened Config
  import Catalog

  datatype PassBinding = PassBinding(agent: string, model: string)

  datatype ReviewPlan = ReviewPlan(
    enabled: Option<bool>,
    alternativeAvailable: Option<bool>,
    passTimeoutSecs: Option<nat>,
    primary: Option<PassBinding>,
    alternative: Option<PassBinding>,
    secondOpinion: seq<Option<PassBinding>>)

  datatype Lens = Acceptance | SecondOpinion

  datatype ReviewPass = ReviewPass(lens: Lens, binding: PassBinding)

  /// What a replay demands of a recorded plan (src/events.rs:2276-2321).
  predicate ValidReviewIdentity(plan: ReviewPlan, tasks: nat) {
    && plan.enabled.Some? && plan.enabled.value == plan.primary.Some?
    && plan.alternativeAvailable.Some? && plan.alternativeAvailable.value == plan.alternative.Some?
    && (plan.enabled.value ==> |plan.secondOpinion| == tasks)
    && (!plan.enabled.value ==> plan.alternative.None? && forall k :: 0 <= k < |plan.secondOpinion| ==> plan.secondOpinion[k].None?)
  }

  // ------------------------------------------------------------- the passes

  function SecondFor(plan: ReviewPlan, index: nat): Option<PassBinding> {
    if index < |plan.secondOpinion| then plan.secondOpinion[index] else None
  }

  /// Who judges one task's code, in order, depending on who wrote it.
  function PassesFor(plan: ReviewPlan, index: nat, implementer: PassBinding): seq<ReviewPass> {
    if plan.primary.None? then []
    else if SecondFor(plan, index).Some? then
      [ReviewPass(Acceptance, plan.primary.value), ReviewPass(SecondOpinion, SecondFor(plan, index).value)]
    else if plan.alternative.Some? && plan.primary.value == implementer then [ReviewPass(Acceptance, plan.alternative.value)]
    else [ReviewPass(Acceptance, plan.primary.value)]
  }

  /// A chain as review sees it: what each rung runs on.
  type Bindings = seq<PassBinding>

  /// The tasks from `index` on that `self_review_warning` names.
  function AtRisk(plan: ReviewPlan, chains: seq<Bindings>, tasks: nat, index: nat): seq<nat>
    requires plan.primary.Some?
    decreases tasks - index
  {
    if index >= tasks || index >= |chains| then []
    else
      (if SecondFor(plan, index).None? && plan.primary.value in chains[index] then [index] else [])
        + AtRisk(plan, chains, tasks, index + 1)
  }

  /// The tasks named, in plan order, or nothing.
  function SelfReviewWarning(plan: ReviewPlan, chains: seq<Bindings>, tasks: nat): Option<seq<nat>> {
    if plan.alternative.Some? || plan.primary.None? then None
    else if AtRisk(plan, chains, tasks, 0) == [] then None
    else Some(AtRisk(plan, chains, tasks, 0))
  }

  function Dropped(plan: ReviewPlan): ReviewPlan {
    plan.(alternative := None, alternativeAvailable := Some(false))
  }

  /// The plan pre-flight holds and may weaken.
  class Reviews {
    var plan: ReviewPlan

    constructor (plan: ReviewPlan)
      ensures this.plan == plan
    {
      this.plan := plan;
    }

    method DropAlternative()
      modifies this
      ensures plan == Dropped(old(plan))
    {
      plan := plan.(alternative := None);
      plan := plan.(alternativeAvailable := Some(false));
    }
  }

  // ------------------------------------------------------------- the plan

  predicate Demanded(task: Task, cfg: Config, isMatch: GlobMatch) {
    exists k :: 0 <= k < |cfg.overrides| && cfg.overrides[k].secondOpinion && Touches(task, cfg.overrides[k], isMatch)
  }

  function ReviewTier(cfg: Config): Tier {
    if cfg.reviewTier.Some? then cfg.reviewTier.value else Frontier
  }

  function Primary(cfg: Config): PassBinding {
    var pin := PinFor(cfg.pins, ReviewTier(cfg));
    if pin.Some? then PassBinding(pin.value.agent, pin.value.model)
    else PassBinding(Catalog.ExampleBinding(ReviewTier(cfg)).agent, Catalog.ExampleBinding(ReviewTier(cfg)).model)
  }

  function FamilyOf(binding: PassBinding): Option<Catalog.Family> {
    match Catalog.Lookup(binding.agent, binding.model) case None => None case Some(e) => Some(e.family)
  }

  /// A reviewer of the review tier from another family than the primary's, if this build can drive one.
  function Cross(cfg: Config, hasAdapter: string -> bool): Option<PassBinding> {
    match FamilyOf(Primary(cfg))
    case None => None
    case Some(family) =>
      match Catalog.DifferentFamilyAt(ReviewTier(cfg), family, hasAdapter)
      case None => None
      case Some(e) => Some(PassBinding(e.agent, e.model))
  }

  datatype PlanError = ReviewIsOff(task: nat) | UnknownFamily(task: nat) | NoOtherFamily(task: nat)

  datatype Planned = Planned(plan: ReviewPlan, unknownFamily: bool, selfReview: Option<seq<nat>>)

  ghost predicate FirstDemanded(tasks: seq<Task>, cfg: Config, isMatch: GlobMatch, i: nat) {
    i < |tasks| && Demanded(tasks[i], cfg, isMatch) && forall j :: 0 <= j < i ==> !Demanded(tasks[j], cfg, isMatch)
  }

  ghost predicate NoneDemanded(tasks: seq<Task>, cfg: Config, isMatch: GlobMatch) {
    forall j :: 0 <= j < |tasks| ==> !Demanded(tasks[j], cfg, isMatch)
  }

  const DEFAULT_REVIEW_PASS_TIMEOUT_SECS: nat := 90 * 60

  function PlanWith(tasks: seq<Task>, cfg: Config, isMatch: GlobMatch, cross: Option<PassBinding>): ReviewPlan {
    ReviewPlan(Some(true), Some(cross.Some?), Some(cfg.reviewPassTimeoutSecs), Some(Primary(cfg)), cross,
      seq(|tasks|, i requires 0 <= i < |tasks| => if Demanded(tasks[i], cfg, isMatch) then cross else None))
  }

  function PlanWithout(tasks: nat): ReviewPlan {
    ReviewPlan(Some(false), Some(false), Some(DEFAULT_REVIEW_PASS_TIMEOUT_SECS), None, None, seq(tasks, _ => None))
  }

  /// Everything `plan_for` may answer.
  ghost predicate Answers(
    tasks: seq<Task>, chains: seq<Bindings>, cfg: Config, hasAdapter: string -> bool, isMatch: GlobMatch,
    r: Result<Planned, PlanError>)
  {
    var cross := Cross(cfg, hasAdapter);
    match r
    case Err(ReviewIsOff(i)) => !cfg.reviewEnabled && FirstDemanded(tasks, cfg, isMatch, i)
    case Err(UnknownFamily(i)) => cfg.reviewEnabled && FamilyOf(Primary(cfg)).None? && FirstDemanded(tasks, cfg, isMatch, i)
    case Err(NoOtherFamily(i)) =>
      cfg.reviewEnabled && FamilyOf(Primary(cfg)).Some? && cross.None? && FirstDemanded(tasks, cfg, isMatch, i)
    case Ok(planned) =>
      if cfg.reviewEnabled then
        && planned.plan == PlanWith(tasks, cfg, isMatch, cross)
        && (cross.None? ==> NoneDemanded(tasks, cfg, isMatch))
        && planned.unknownFamily == FamilyOf(Primary(cfg)).None?
        && planned.selfReview == SelfReviewWarning(planned.plan, chains, |tasks|)
      else
        && planned == Planned(PlanWithout(|tasks|), false, None) && NoneDemanded(tasks, cfg, isMatch)
  }

  method DemandedBy(tasks: seq<Task>, cfg: Config, isMatch: GlobMatch) returns (demanded: seq<bool>, first: Option<nat>)
    ensures |demanded| == |tasks| && forall j :: 0 <= j < |tasks| ==> demanded[j] == Demanded(tasks[j], cfg, isMatch)
    ensures first.Some? ==> FirstDemanded(tasks, cfg, isMatch, first.value)
    ensures first.None? ==> NoneDemanded(tasks, cfg, isMatch)
  {
    demanded, first := [], None;
    for i := 0 to |tasks|
      invariant |demanded| == i && forall j :: 0 <= j < i ==> demanded[j] == Demanded(tasks[j], cfg, isMatch)
      invariant first.Some? ==> first.value < i && FirstDemanded(tasks, cfg, isMatch, first.value)
      invariant first.None? ==> forall j :: 0 <= j < i ==> !demanded[j]
    {
      var demands := Demanded(tasks[i], cfg, isMatch);
      if demands && first.None? {
        first := Some(i);
      }
      demanded := demanded + [demands];
    }
  }

  method SecondOpinions(demanded: seq<bool>, family: Option<Catalog.Family>, cross: Option<PassBinding>)
    returns (r: Result<seq<Option<PassBinding>>, PlanError>)
    requires family.None? ==> cross.None?
    ensures r.Ok? ==>
      && r.value == seq(|demanded|, i requires 0 <= i < |demanded| => if demanded[i] then cross else None)
      && (cross.None? ==> forall i :: 0 <= i < |demanded| ==> !demanded[i])
    ensures r.Err? ==>
      && cross.None? && (r.error == if family.None? then UnknownFamily(r.error.task) else NoOtherFamily(r.error.task))
      && r.error.task < |demanded| && demanded[r.error.task] && forall j :: 0 <= j < r.error.task ==> !demanded[j]
  {
    var second := [];
    for i := 0 to |demanded|
      invariant second == seq(i, j requires 0 <= j < i => if demanded[j] then cross else None)
      invariant cross.None? ==> forall j :: 0 <= j < i ==> !demanded[j]
    {
      if !demanded[i] {
        second := second + [None];
        continue;
      }
      if family.None? {
        return Err(UnknownFamily(i));
      }
      if cross.None? {
        return Err(NoOtherFamily(i));
      }
      second := second + [cross];
    }
    r := Ok(second);
  }

  // ------------------------------------------- the answer, in its own terms

  /// An override that wants a second opinion touches one of the task's paths.
  ghost predicate Asks(task: Task, cfg: Config, isMatch: GlobMatch) {
    exists k, p :: 0 <= k < |cfg.overrides| && 0 <= p < |task.pathHints|
      && cfg.overrides[k].secondOpinion && isMatch(cfg.overrides[k].globs, task.pathHints[p])
  }

  /// The tier that reviews: the configured one, or the highest.
  predicate ReviewsAt(cfg: Config, tier: Tier) {
    if cfg.reviewTier == None then tier == Frontier else cfg.reviewTier == Some(tier)
  }

  /// Who reviews first: the first pin of that tier, or where none is pinned Claude Code's model of it.
  ghost predicate ReviewsFirst(cfg: Config, tier: Tier, b: PassBinding) {
    || (exists k :: 0 <= k < |cfg.pins| && cfg.pins[k].tier == tier && (forall j :: 0 <= j < k ==> cfg.pins[j].tier != tier)
          && b == PassBinding(cfg.pins[k].agent, cfg.pins[k].model))
    || (&& (forall k :: 0 <= k < |cfg.pins| ==> cfg.pins[k].tier != tier)
        && b == PassBinding("claude-code",
             match tier case Small => "claude-haiku-4-5" case Mid => "claude-sonnet-5" case Frontier => "claude-opus-5"))
  }

  predicate IsListed(b: PassBinding, k: int) {
    0 <= k < |Catalog.CATALOG| && Catalog.CATALOG[k].agent == b.agent && Catalog.CATALOG[k].model == b.model
  }

  /// A listed model of that tier, from another family than a listed reviewer's, that this build can drive.
  ghost predicate CouldCross(first: PassBinding, tier: Tier, hasAdapter: string -> bool, k: int) {
    && 0 <= k < |Catalog.CATALOG| && Catalog.CATALOG[k].tier == tier && hasAdapter(Catalog.CATALOG[k].agent)
    && exists j :: IsListed(first, j) && Catalog.CATALOG[j].family != Catalog.CATALOG[k].family
  }

  /// The other reviewer is the first listed of those, if there is one.
  ghost predicate IsOther(first: PassBinding, tier: Tier, hasAdapter: string -> bool, other: Option<PassBinding>) {
    match other
    case None => forall k :: !CouldCross(first, tier, hasAdapter, k)
    case Some(b) =>
      exists k :: CouldCross(first, tier, hasAdapter, k) && (forall j :: 0 <= j < k ==> !CouldCross(first, tier, hasAdapter, j))
        && b == PassBinding(Catalog.CATALOG[k].agent, Catalog.CATALOG[k].model)
  }

  ghost predicate AsksFirst(tasks: seq<Task>, cfg: Config, isMatch: GlobMatch, i: nat) {
    i < |tasks| && Asks(tasks[i], cfg, isMatch) && forall j :: 0 <= j < i ==> !Asks(tasks[j], cfg, isMatch)
  }

  ghost predicate NoneAsks(tasks: seq<Task>, cfg: Config, isMatch: GlobMatch) {
    forall i :: 0 <= i < |tasks| ==> !Asks(tasks[i], cfg, isMatch)
  }

  /// A plan of review that is on: these two reviewers, the configured limit, and the second one for the tasks that ask.
  ghost predicate Provides(
    plan: ReviewPlan, tasks: seq<Task>, cfg: Config, isMatch: GlobMatch, first: PassBinding, other: Option<PassBinding>)
  {
    && plan.enabled == Some(true) && plan.primary == Some(first) && plan.alternative == other
    && plan.alternativeAvailable == Some(other.Some?) && plan.passTimeoutSecs == Some(cfg.reviewPassTimeoutSecs)
    && |plan.secondOpinion| == |tasks|
    && forall i :: 0 <= i < |tasks| ==> plan.secondOpinion[i] == if Asks(tasks[i], cfg, isMatch) then other else None
  }

  /// The answer, given who reviews first and who else could.
  ghost predicate AnswersFor(
    tasks: seq<Task>, cfg: Config, isMatch: GlobMatch, first: PassBinding, other: Option<PassBinding>,
    r: Result<Planned, PlanError>)
  {
    match r
    case Err(ReviewIsOff(i)) => !cfg.reviewEnabled && AsksFirst(tasks, cfg, isMatch, i)
    case Err(UnknownFamily(i)) =>
      cfg.reviewEnabled && (forall k :: !IsListed(first, k)) && AsksFirst(tasks, cfg, isMatch, i)
    case Err(NoOtherFamily(i)) =>
      cfg.reviewEnabled && (exists k :: IsListed(first, k)) && other == None && AsksFirst(tasks, cfg, isMatch, i)
    case Ok(planned) =>
      if cfg.reviewEnabled then
        && Provides(planned.plan, tasks, cfg, isMatch, first, other)
        && (other == None ==> NoneAsks(tasks, cfg, isMatch))
        && (planned.unknownFamily <==> forall k :: !IsListed(first, k))
      else
        && planned.plan == ReviewPlan(Some(false), Some(false), Some(5400), None, None, seq(|tasks|, _ => None))
        && !planned.unknownFamily && planned.selfReview == None && NoneAsks(tasks, cfg, isMatch)
  }

  ghost predicate AsAsked(
    tasks: seq<Task>, cfg: Config, hasAdapter: string -> bool, isMatch: GlobMatch, r: Result<Planned, PlanError>)
  {
    exists tier, first, other ::
      && ReviewsAt(cfg, tier) && ReviewsFirst(cfg, tier, first) && IsOther(first, tier, hasAdapter, other)
      && AnswersFor(tasks, cfg, isMatch, first, other, r)
  }

  lemma DemandedIsAsked(task: Task, cfg: Config, isMatch: GlobMatch)
    ensures Demanded(task, cfg, isMatch) <==> Asks(task, cfg, isMatch)
  {
    if k :| 0 <= k < |cfg.overrides| && cfg.overrides[k].secondOpinion && Touches(task, cfg.overrides[k], isMatch) {
      var p :| 0 <= p < |task.pathHints| && isMatch(cfg.overrides[k].globs, task.pathHints[p]);
    }
    if Asks(task, cfg, isMatch) {
      var k, p :| 0 <= k < |cfg.overrides| && 0 <= p < |task.pathHints|
        && cfg.overrides[k].secondOpinion && isMatch(cfg.overrides[k].globs, task.pathHints[p]);
      assert Touches(task, cfg.overrides[k], isMatch);
    }
  }

  lemma PrimaryIsFirst(cfg: Config)
    ensures ReviewsAt(cfg, ReviewTier(cfg)) && ReviewsFirst(cfg, ReviewTier(cfg), Primary(cfg))
  {
    Catalog.ExamplesAreListed(ReviewTier(cfg));
  }

  lemma FamilyIs(b: PassBinding)
    ensures FamilyOf(b).Some? <==> exists k :: IsListed(b, k)
    ensures forall k :: IsListed(b, k) ==> FamilyOf(b) == Some(Catalog.CATALOG[k].family)
  {
    forall k | IsListed(b, k) ensures FamilyOf(b) == Some(Catalog.CATALOG[k].family) {
      Catalog.LookupFindsTheEntry(Catalog.CATALOG[k]);
    }
    var found := Catalog.Lookup(b.agent, b.model);
    if found.Some? {
      var k :| 0 <= k < |Catalog.CATALOG| && Catalog.CATALOG[k] == found.value;
      assert IsListed(b, k);
    }
  }

  lemma CouldCrossIs(first: PassBinding, tier: Tier, hasAdapter: string -> bool, k: int)
    ensures CouldCross(first, tier, hasAdapter, k) <==>
      FamilyOf(first).Some? && Catalog.Crosses(tier, FamilyOf(first).value, hasAdapter, k)
  {
    FamilyIs(first);
  }

  lemma CrossIsOther(cfg: Config, hasAdapter: string -> bool)
    ensures IsOther(Primary(cfg), ReviewTier(cfg), hasAdapter, Cross(cfg, hasAdapter))
  {
    var first, tier := Primary(cfg), ReviewTier(cfg);
    forall k
      ensures CouldCross(first, tier, hasAdapter, k) <==>
        FamilyOf(first).Some? && Catalog.Crosses(tier, FamilyOf(first).value, hasAdapter, k)
    {
      CouldCrossIs(first, tier, hasAdapter, k);
    }
    if FamilyOf(first).Some? {
      Catalog.FirstThatCrosses(tier, FamilyOf(first).value, hasAdapter);
    }
  }

  lemma AnswersAsAsked(
    tasks: seq<Task>, chains: seq<Bindings>, cfg: Config, hasAdapter: string -> bool, isMatch: GlobMatch,
    r: Result<Planned, PlanError>)
    requires Answers(tasks, chains, cfg, hasAdapter, isMatch, r)
    ensures AsAsked(tasks, cfg, hasAdapter, isMatch, r)
  {
    PrimaryIsFirst(cfg);
    CrossIsOther(cfg, hasAdapter);
    FamilyIs(Primary(cfg));
    forall i | 0 <= i < |tasks| ensures Demanded(tasks[i], cfg, isMatch) <==> Asks(tasks[i], cfg, isMatch) {
      DemandedIsAsked(tasks[i], cfg, isMatch);
    }
    assert AnswersFor(tasks, cfg, isMatch, Primary(cfg), Cross(cfg, hasAdapter), r);
  }

  method PlanFor(tasks: seq<Task>, chains: seq<Bindings>, cfg: Config, hasAdapter: string -> bool, isMatch: GlobMatch)
    returns (r: Result<Planned, PlanError>)
    ensures Answers(tasks, chains, cfg, hasAdapter, isMatch, r) && AsAsked(tasks, cfg, hasAdapter, isMatch, r)
  {
    r := MakePlan(tasks, chains, cfg, hasAdapter, isMatch);
    AnswersAsAsked(tasks, chains, cfg, hasAdapter, isMatch, r);
  }

  method MakePlan(tasks: seq<Task>, chains: seq<Bindings>, cfg: Config, hasAdapter: string -> bool, isMatch: GlobMatch)
    returns (r: Result<Planned, PlanError>)
    ensures Answers(tasks, chains, cfg, hasAdapter, isMatch, r)
  {
    var demanded, first := DemandedBy(tasks, cfg, isMatch);
    if !cfg.reviewEnabled {
      return if first.Some? then Err(ReviewIsOff(first.value)) else Ok(Planned(PlanWithout(|tasks|), false, None));
    }
    var family, alternative := FamilyOf(Primary(cfg)), Cross(cfg, hasAdapter);
    var second := SecondOpinions(demanded, family, alternative);
    if second.Err? {
      return Err(second.error);
    }
    var plan := ReviewPlan(
      Some(true), Some(alternative.Some?), Some(cfg.reviewPassTimeoutSecs), Some(Primary(cfg)), alternative, second.value);
    assert plan.secondOpinion == PlanWith(tasks, cfg, isMatch, alternative).secondOpinion;
    r := Ok(Planned(plan, family.None?, SelfReviewWarning(plan, chains, |tasks|)));
  }

  // ------------------------------------------------------- what a plan gives

  /// A plan as `plan_for` resolves it for enabled review, or that plan after its alternative was given up.
  ghost predicate Resolved(
    plan: ReviewPlan, tasks: seq<Task>, cfg: Config, hasAdapter: string -> bool, isMatch: GlobMatch)
  {
    var cross := Cross(cfg, hasAdapter);
    && (cross.None? ==> NoneDemanded(tasks, cfg, isMatch))
    && (plan == PlanWith(tasks, cfg, isMatch, cross) || plan == Dropped(PlanWith(tasks, cfg, isMatch, cross)))
  }

  lemma CrossIsAnotherFamily(cfg: Config, hasAdapter: string -> bool)
    requires Cross(cfg, hasAdapter).Some?
    ensures FamilyOf(Primary(cfg)).Some? && FamilyOf(Cross(cfg, hasAdapter).value).Some?
    ensures FamilyOf(Primary(cfg)) != FamilyOf(Cross(cfg, hasAdapter).value)
    ensures hasAdapter(Cross(cfg, hasAdapter).value.agent)
  {
    var e := Catalog.DifferentFamilyAt(ReviewTier(cfg), FamilyOf(Primary(cfg)).value, hasAdapter).value;
    Catalog.LookupFindsTheEntry(e);
  }

  /// Every reviewed task gets a pass, whatever rung wrote its code; a task whose paths asked for a second opinion gets
  /// two, from two families, and the second from an agent with an adapter.
  lemma PassesAreEnough(
    plan: ReviewPlan, tasks: seq<Task>, cfg: Config, hasAdapter: string -> bool, isMatch: GlobMatch,
    i: nat, implementer: PassBinding)
    requires Resolved(plan, tasks, cfg, hasAdapter, isMatch) && i < |tasks|
    ensures
      var passes := PassesFor(plan, i, implementer);
      && |passes| == (if Demanded(tasks[i], cfg, isMatch) then 2 else 1)
      && passes[0].lens == Acceptance
      && (|passes| == 2 ==>
            && passes[0].binding == Primary(cfg) && passes[1].lens == SecondOpinion
            && FamilyOf(passes[0].binding).Some? && FamilyOf(passes[1].binding).Some?
            && FamilyOf(passes[0].binding) != FamilyOf(passes[1].binding)
            && hasAdapter(passes[1].binding.agent))
      && (|passes| == 1 ==>
            passes[0].binding ==
              if implementer == Primary(cfg) && plan.alternative != None then plan.alternative.value else Primary(cfg))
  {
    if Cross(cfg, hasAdapter).Some? {
      CrossIsAnotherFamily(cfg, hasAdapter);
    }
  }

  /// The only judge this binding's code would have is the binding itself.
  predicate JudgesItself(plan: ReviewPlan, i: nat, rung: PassBinding) {
    var passes := PassesFor(plan, i, rung);
    passes != [] && forall k :: 0 <= k < |passes| ==> passes[k].binding == rung
  }

  /// No reviewer other than the primary is the primary again.
  lemma OthersDiffer(
    plan: ReviewPlan, tasks: seq<Task>, cfg: Config, hasAdapter: string -> bool, isMatch: GlobMatch, i: nat)
    requires Resolved(plan, tasks, cfg, hasAdapter, isMatch) && i < |tasks|
    ensures plan.primary.Some? && plan.alternative != plan.primary && SecondFor(plan, i) != plan.primary
  {
    CrossIsAnother(cfg, hasAdapter);
    OthersAreCross(tasks, cfg, isMatch, Cross(cfg, hasAdapter), i);
  }

  lemma CrossIsAnother(cfg: Config, hasAdapter: string -> bool)
    ensures Cross(cfg, hasAdapter) != Some(Primary(cfg))
  {
    if Cross(cfg, hasAdapter).Some? {
      CrossIsAnotherFamily(cfg, hasAdapter);
    }
  }

  lemma OthersAreCross(tasks: seq<Task>, cfg: Config, isMatch: GlobMatch, cross: Option<PassBinding>, i: nat)
    requires i < |tasks|
    ensures
      var plan := PlanWith(tasks, cfg, isMatch, cross);
      && plan.primary == Some(Primary(cfg)) && plan.alternative in {None, cross} && SecondFor(plan, i) in {None, cross}
  {
  }

  lemma SelfJudgement(plan: ReviewPlan, i: nat, rung: PassBinding)
    requires plan.primary.Some? && plan.alternative != plan.primary && SecondFor(plan, i) != plan.primary
    ensures JudgesItself(plan, i, rung) <==>
      plan.alternative.None? && SecondFor(plan, i).None? && rung == plan.primary.value
  {
    var passes := PassesFor(plan, i, rung);
    if |passes| == 2 {
      assert passes[0].binding != passes[1].binding;
    } else {
      assert JudgesItself(plan, i, rung) <==> passes[0].binding == rung;
    }
  }

  lemma {:induction false} AtRiskIsExact(plan: ReviewPlan, chains: seq<Bindings>, tasks: nat, from: nat, i: nat)
    requires plan.primary.Some?
    ensures i in AtRisk(plan, chains, tasks, from) <==>
      from <= i < tasks && i < |chains| && SecondFor(plan, i).None? && plan.primary.value in chains[i]
    decreases tasks - from
  {
    if from < tasks && from < |chains| {
      AtRiskIsExact(plan, chains, tasks, from + 1, i);
    }
  }

  /// The warning names exactly the tasks some rung of which would be judged by its own model alone, and there is no
  /// warning exactly when there is no such task. It holds before and after the alternative is dropped.
  lemma WarningIsExact(
    plan: ReviewPlan, tasks: seq<Task>, chains: seq<Bindings>, cfg: Config, hasAdapter: string -> bool, isMatch: GlobMatch,
    i: nat)
    requires Resolved(plan, tasks, cfg, hasAdapter, isMatch)
    ensures
      var warning := SelfReviewWarning(plan, chains, |tasks|);
      && (warning.Some? ==> warning.value != [])
      && ((warning.Some? && i in warning.value) <==>
            i < |tasks| && i < |chains| && exists r :: 0 <= r < |chains[i]| && JudgesItself(plan, i, chains[i][r]))
  {
    if i < |tasks| {
      OthersDiffer(plan, tasks, cfg, hasAdapter, isMatch, i);
    }
    assert plan.primary.Some?;
    WarningWhere(plan, chains, |tasks|, i);
  }

  lemma WarningWhere(plan: ReviewPlan, chains: seq<Bindings>, tasks: nat, i: nat)
    requires plan.primary.Some?
    requires i < tasks ==> plan.alternative != plan.primary && SecondFor(plan, i) != plan.primary
    ensures
      var warning := SelfReviewWarning(plan, chains, tasks);
      && (warning.Some? ==> warning.value != [])
      && ((warning.Some? && i in warning.value) <==>
            i < tasks && i < |chains| && exists r :: 0 <= r < |chains[i]| && JudgesItself(plan, i, chains[i][r]))
  {
    AtRiskIsExact(plan, chains, tasks, 0, i);
    if i < tasks && i < |chains| {
      forall r | 0 <= r < |chains[i]|
        ensures JudgesItself(plan, i, chains[i][r]) <==>
          plan.alternative.None? && SecondFor(plan, i).None? && chains[i][r] == plan.primary.value
      {
        SelfJudgement(plan, i, chains[i][r]);
      }
    }
  }

  /// Whatever `plan_for` returns can be recorded and replayed, also after the alternative is dropped.
  lemma PlansAreValidIdentities(
    tasks: seq<Task>, chains: seq<Bindings>, cfg: Config, hasAdapter: string -> bool, isMatch: GlobMatch,
    r: Result<Planned, PlanError>)
    requires Answers(tasks, chains, cfg, hasAdapter, isMatch, r) && r.Ok?
    ensures ValidReviewIdentity(r.value.plan, |tasks|) && ValidReviewIdentity(Dropped(r.value.plan), |tasks|)
    ensures cfg.reviewEnabled ==> Resolved(r.value.plan, tasks, cfg, hasAdapter, isMatch)
    ensures cfg.reviewEnabled ==> Resolved(Dropped(r.value.plan), tasks, cfg, hasAdapter, isMatch)
  {
  }
}
