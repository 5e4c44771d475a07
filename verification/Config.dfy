// The parts of the configuration and the plan that routing and review read (src/config.rs:262-285, 378-387).
module Config {
  import opened Prelude
  import Catalog

  type Globs = seq<string>

  datatype Override = Override(globs: Globs, startAt: Option<Tier>, secondOpinion: bool)

  datatype Pin = Pin(tier: Tier, agent: string, model: string)

  datatype Config = Config(
    overrides: seq<Override>, pins: seq<Pin>,
    reviewEnabled: bool, reviewTier: Option<Tier>, reviewPassTimeoutSecs: nat)

  datatype Task = Task(id: string, pathHints: seq<string>, suggestedTier: Option<Tier>, minTier: Option<Tier>)

  /// Glob matching is the library's; everything here takes it as a parameter.
  type GlobMatch = (Globs, string) -> bool

  predicate Touches(task: Task, ov: Override, isMatch: GlobMatch) {
    exists k :: 0 <= k < |task.pathHints| && isMatch(ov.globs, task.pathHints[k])
  }

  /// The first pin for a tier, as `find` returns it.
  function PinFor(pins: seq<Pin>, tier: Tier): (r: Option<Pin>)
    ensures r.None? ==> forall k :: 0 <= k < |pins| ==> pins[k].tier != tier
    ensures r.Some? ==>
      exists k :: 0 <= k < |pins| && pins[k] == r.value && pins[k].tier == tier && forall j :: 0 <= j < k ==> pins[j].tier != tier
  {
    if pins == [] then None
    else if pins[0].tier == tier then Some(pins[0])
    else
      var later := PinFor(pins[1..], tier);
      assert later.Some? ==> forall k :: 0 <= k < |pins| - 1 ==> pins[1..][k] == pins[k + 1];
      later
  }
}
