// The models this build knows, and the choice of a reviewer from another family (src/catalog.rs).
module Catalog {
  import opened Prelude

  /// Who trained the model, whoever serves it.
  datatype Family = Anthropic | OpenAI | Google

  datatype CatalogEntry = CatalogEntry(agent: string, model: string, tier: Tier, family: Family)

  const EXAMPLE_SMALL := CatalogEntry("claude-code", "claude-haiku-4-5", Small, Anthropic)
  const EXAMPLE_MID := CatalogEntry("claude-code", "claude-sonnet-5", Mid, Anthropic)
  const EXAMPLE_FRONTIER := CatalogEntry("claude-code", "claude-opus-5", Frontier, Anthropic)

  /// Earlier entries are preferred.
  const CATALOG: seq<CatalogEntry> := [
    EXAMPLE_SMALL,
    CatalogEntry("claude-code", "claude-sonnet-4-5", Mid, Anthropic),
    EXAMPLE_MID,
    EXAMPLE_FRONTIER,
    CatalogEntry("claude-code", "claude-opus-4-8", Frontier, Anthropic),
    CatalogEntry("copilot", "gpt-5-mini", Small, OpenAI),
    CatalogEntry("copilot", "gemini-3.1-pro", Mid, Google),
    CatalogEntry("copilot", "claude-sonnet-5", Mid, Anthropic),
    CatalogEntry("copilot", "gpt-5.3-codex", Frontier, OpenAI),
    CatalogEntry("copilot", "claude-opus-5", Frontier, Anthropic),
    CatalogEntry("codex", "gpt-5.6-sol", Frontier, OpenAI)
  ]

  function ExampleBinding(tier: Tier): CatalogEntry {
    match tier
    case Small => EXAMPLE_SMALL
    case Mid => EXAMPLE_MID
    case Frontier => EXAMPLE_FRONTIER
  }

  /// The first entry, from position k on, that passes a test.
  function FindFrom(test: CatalogEntry -> bool, k: nat): (r: Option<CatalogEntry>)
    requires k <= |CATALOG|
    ensures r.Some? ==> r.value in CATALOG && test(r.value)
    ensures r.None? ==> forall j :: k <= j < |CATALOG| ==> !test(CATALOG[j])
    ensures r.Some? ==> exists j :: k <= j < |CATALOG| && CATALOG[j] == r.value && forall i :: k <= i < j ==> !test(CATALOG[i])
    decreases |CATALOG| - k
  {
    if k == |CATALOG| then None
    else if test(CATALOG[k]) then Some(CATALOG[k])
    else FindFrom(test, k + 1)
  }

  function Lookup(agent: string, model: string): Option<CatalogEntry> {
    FindFrom((e: CatalogEntry) => e.agent == agent && e.model == model, 0)
  }

  function DifferentFamilyAt(tier: Tier, notFamily: Family, hasAdapter: string -> bool): Option<CatalogEntry> {
    FindFrom((e: CatalogEntry) => e.tier == tier && e.family != notFamily && hasAdapter(e.agent), 0)
  }

  /// An entry of that tier from another family that this build can drive.
  predicate Crosses(tier: Tier, notFamily: Family, hasAdapter: string -> bool, k: int) {
    0 <= k < |CATALOG| && CATALOG[k].tier == tier && CATALOG[k].family != notFamily && hasAdapter(CATALOG[k].agent)
  }

  /// The choice is the first such entry, and nothing only where there is none.
  lemma FirstThatCrosses(tier: Tier, notFamily: Family, hasAdapter: string -> bool)
    ensures
      var found := DifferentFamilyAt(tier, notFamily, hasAdapter);
      && (found.None? ==> forall k :: !Crosses(tier, notFamily, hasAdapter, k))
      && (found.Some? ==>
            exists k :: Crosses(tier, notFamily, hasAdapter, k) && CATALOG[k] == found.value
              && forall j :: 0 <= j < k ==> !Crosses(tier, notFamily, hasAdapter, j))
  {
    var test := (e: CatalogEntry) => e.tier == tier && e.family != notFamily && hasAdapter(e.agent);
    assert forall k :: 0 <= k < |CATALOG| ==> (test(CATALOG[k]) <==> Crosses(tier, notFamily, hasAdapter, k));
  }

  ghost predicate Lists(agent: string, model: string, tier: Tier) {
    exists k :: 0 <= k < |CATALOG| && CATALOG[k].agent == agent && CATALOG[k].model == model && CATALOG[k].tier == tier
  }

  /// The preview's models are Claude Code's, by name, and each is listed at the tier it stands for.
  lemma ExamplesAreListed(tier: Tier)
    ensures Lists(ExampleBinding(tier).agent, ExampleBinding(tier).model, tier)
    ensures ExampleBinding(tier).agent == "claude-code"
    ensures ExampleBinding(tier).model ==
      match tier case Small => "claude-haiku-4-5" case Mid => "claude-sonnet-5" case Frontier => "claude-opus-5"
  {
    var at := match tier case Small => 0 case Mid => 2 case Frontier => 3;
    assert CATALOG[at] == ExampleBinding(tier);
  }

  lemma NoTwoAlike(i: nat, j: nat)
    requires i < j < |CATALOG|
    ensures CATALOG[i].agent != CATALOG[j].agent || CATALOG[i].model != CATALOG[j].model
  {
  }

  /// No agent lists a model twice, so looking an entry up finds that entry and its family.
  lemma LookupFindsTheEntry(e: CatalogEntry)
    requires e in CATALOG
    ensures Lookup(e.agent, e.model) == Some(e)
  {
    SomethingIsFound(e);
    SameEntry(Lookup(e.agent, e.model).value, e);
  }

  lemma SomethingIsFound(e: CatalogEntry)
    requires e in CATALOG
    ensures
      var found := Lookup(e.agent, e.model);
      found.Some? && found.value in CATALOG && found.value.agent == e.agent && found.value.model == e.model
  {
    var j :| 0 <= j < |CATALOG| && CATALOG[j] == e;
  }

  lemma SameEntry(a: CatalogEntry, b: CatalogEntry)
    requires a in CATALOG && b in CATALOG && a.agent == b.agent && a.model == b.model
    ensures a == b
  {
    var i :| 0 <= i < |CATALOG| && CATALOG[i] == a;
    var j :| 0 <= j < |CATALOG| && CATALOG[j] == b;
    if i < j {
      NoTwoAlike(i, j);
    } else if j < i {
      NoTwoAlike(j, i);
    }
  }
}
