// The exporter's join of starts and settlements (src/export.rs:208-297 and 365-429).
module Join {
  import opened Prelude
  import opened Ladder
  import opened Decisions
  import opened Events
  import opened Histories
  import Schema

  type AttemptKey = (TaskId, u32, u32)

  function KeyOf(e: Event): AttemptKey
    requires e.AttemptStarted? || IsSettlement(e)
  {
    (e.task, e.attempt, e.rung)
  }

  /// The map holds every settlement before n under its key, and nothing else.
  ghost predicate Collected(log: seq<Event>, n: nat, found: map<AttemptKey, nat>)
    requires n <= |log|
  {
    && (forall k :: 0 <= k < n && IsSettlement(log[k]) ==> KeyOf(log[k]) in found && found[KeyOf(log[k])] == k)
    && (forall key :: key in found ==> found[key] < n && IsSettlement(log[found[key]]) && KeyOf(log[found[key]]) == key)
  }

  method Settlements(log: seq<Event>) returns (r: Option<map<AttemptKey, nat>>)
    ensures r.Some? ==> Collected(log, |log|, r.value)
    ensures r.None? <==>
      exists j, k :: 0 <= j < k < |log| && IsSettlement(log[j]) && IsSettlement(log[k]) && SameKey(log[j], log[k])
  {
    var found: map<AttemptKey, nat> := map[];
    for k := 0 to |log|
      invariant Collected(log, k, found)
    {
      var e := log[k];
      if IsSettlement(e) {
        if KeyOf(e) in found {
          assert SameKey(log[found[KeyOf(e)]], e);
          return None;
        }
        found := found[KeyOf(e) := k];
      }
    }
    r := Some(found);
  }

  /// The starts before n are all in order: placed, distinct, and each agrees with its settlement if it has one.
  ghost predicate Joined(header: RunHeader, log: seq<Event>, n: nat, found: map<AttemptKey, nat>, seen: set<AttemptKey>)
    requires n <= |log| && Collected(log, |log|, found)
  {
    && (forall j :: 0 <= j < n && log[j].AttemptStarted? ==> StartJoined(header, log, j, found, seen))
    && StartsDiffer(log, n) && SeenBefore(log, n, seen)
  }

  ghost predicate StartJoined(header: RunHeader, log: seq<Event>, j: nat, found: map<AttemptKey, nat>, seen: set<AttemptKey>)
    requires j < |log| && log[j].AttemptStarted? && Collected(log, |log|, found)
  {
    PlacesStart(header, log[j]) && KeyOf(log[j]) in seen && Agrees(log, j, found)
  }

  ghost predicate StartsDiffer(log: seq<Event>, n: nat)
    requires n <= |log|
  {
    forall j, k :: 0 <= j < k < n && log[j].AttemptStarted? && log[k].AttemptStarted? ==> KeyOf(log[j]) != KeyOf(log[k])
  }

  ghost predicate SeenBefore(log: seq<Event>, n: nat, seen: set<AttemptKey>)
    requires n <= |log|
  {
    forall key :: key in seen ==> exists j :: 0 <= j < n && log[j].AttemptStarted? && KeyOf(log[j]) == key
  }

  predicate Agrees(log: seq<Event>, j: nat, found: map<AttemptKey, nat>)
    requires j < |log| && log[j].AttemptStarted?
    requires forall key :: key in found ==> found[key] < |log| && IsSettlement(log[found[key]])
  {
    var key := KeyOf(log[j]);
    key in found ==> j < found[key] && ValidSettlement(log[j], log[found[key]])
  }

  /// The loop over starts; nothing if one of them cannot be exported.
  method JoinStarts(header: RunHeader, log: seq<Event>, found: map<AttemptKey, nat>) returns (r: Option<set<AttemptKey>>)
    requires Collected(log, |log|, found)
    ensures r.Some? ==> Joined(header, log, |log|, found, r.value)
    ensures r.None? ==> !Exports(header, log)
  {
    var seen: set<AttemptKey> := {};
    for i := 0 to |log|
      invariant Joined(header, log, i, found, seen)
    {
      var e := log[i];
      if e.AttemptStarted? {
        if !PlacesStart(header, e) {
          return None;
        }
        if KeyOf(e) in seen {
          StartsTwice(header, log, i, found, seen);
          return None;
        }
        if !Agrees(log, i, found) {
          Disagrees(header, log, i, found);
          return None;
        }
        OneMoreStart(header, log, i, found, seen);
        seen := seen + {KeyOf(e)};
      } else {
        NotAStart(header, log, i, found, seen);
      }
    }
    r := Some(seen);
  }

  lemma StartsTwice(header: RunHeader, log: seq<Event>, i: nat, found: map<AttemptKey, nat>, seen: set<AttemptKey>)
    requires i < |log| && log[i].AttemptStarted? && Collected(log, |log|, found) && Joined(header, log, i, found, seen)
    requires KeyOf(log[i]) in seen
    ensures !Exports(header, log)
  {
    var j :| 0 <= j < i && log[j].AttemptStarted? && KeyOf(log[j]) == KeyOf(log[i]);
    assert SameKey(log[j], log[i]);
  }

  lemma SeenGrows(log: seq<Event>, i: nat, seen: set<AttemptKey>)
    requires i < |log| && SeenBefore(log, i, seen)
    ensures SeenBefore(log, i + 1, seen)
    ensures log[i].AttemptStarted? ==> SeenBefore(log, i + 1, seen + {KeyOf(log[i])})
  {
    forall key | key in seen ensures exists j :: 0 <= j < i + 1 && log[j].AttemptStarted? && KeyOf(log[j]) == key {
      var j :| 0 <= j < i && log[j].AttemptStarted? && KeyOf(log[j]) == key;
      assert KeyOf(log[j]) == key;
    }
  }

  lemma OneMoreStart(header: RunHeader, log: seq<Event>, i: nat, found: map<AttemptKey, nat>, seen: set<AttemptKey>)
    requires i < |log| && log[i].AttemptStarted? && Collected(log, |log|, found) && Joined(header, log, i, found, seen)
    requires PlacesStart(header, log[i]) && KeyOf(log[i]) !in seen && Agrees(log, i, found)
    ensures Joined(header, log, i + 1, found, seen + {KeyOf(log[i])})
  {
    SeenGrows(log, i, seen);
    forall j | 0 <= j < i + 1 && log[j].AttemptStarted?
      ensures StartJoined(header, log, j, found, seen + {KeyOf(log[i])})
    {
      assert j < i ==> StartJoined(header, log, j, found, seen);
    }
    forall j | 0 <= j < i && log[j].AttemptStarted? ensures KeyOf(log[j]) != KeyOf(log[i]) {
      assert StartJoined(header, log, j, found, seen);
    }
  }

  lemma NotAStart(header: RunHeader, log: seq<Event>, i: nat, found: map<AttemptKey, nat>, seen: set<AttemptKey>)
    requires i < |log| && !log[i].AttemptStarted? && Collected(log, |log|, found) && Joined(header, log, i, found, seen)
    ensures Joined(header, log, i + 1, found, seen)
  {
    SeenGrows(log, i, seen);
    forall j | 0 <= j < i + 1 && log[j].AttemptStarted? ensures StartJoined(header, log, j, found, seen) {
      assert j < i;
    }
  }

  /// The join succeeds exactly on the logs whose every settlement follows the one start it agrees with.
  method JoinAttempts(header: RunHeader, log: seq<Event>) returns (ok: bool)
    ensures ok <==> Exports(header, log)
  {
    var found := Settlements(log);
    if found.None? {
      return false;
    }
    var seen := JoinStarts(header, log, found.value);
    if seen.None? {
      return false;
    }
    ok := found.value.Keys <= seen.value;
    if ok {
      JoinedExports(header, log, found.value, seen.value);
    } else {
      ghost var key :| key in found.value && key !in seen.value;
      StartIsMissing(header, log, found.value[key]);
    }
  }

  /// Starts are unique, so a start that disagrees with the settlement of its key leaves that settlement without one.
  lemma Disagrees(header: RunHeader, log: seq<Event>, i: nat, found: map<AttemptKey, nat>)
    requires i < |log| && log[i].AttemptStarted? && Collected(log, |log|, found) && !Agrees(log, i, found)
    ensures !Exports(header, log)
  {
    var k := found[KeyOf(log[i])];
    forall j | 0 <= j < k && log[j].AttemptStarted? && ValidSettlement(log[j], log[k])
      ensures !(forall a, b :: 0 <= a < b < |log| && log[a].AttemptStarted? && log[b].AttemptStarted? ==> !SameKey(log[a], log[b]))
    {
      assert SameKey(log[j], log[i]) && SameKey(log[i], log[j]) && j != i;
    }
  }

  lemma HasStart(header: RunHeader, log: seq<Event>, found: map<AttemptKey, nat>, seen: set<AttemptKey>, k: nat)
    requires Collected(log, |log|, found) && Joined(header, log, |log|, found, seen) && found.Keys <= seen
    requires k < |log| && IsSettlement(log[k])
    ensures exists j :: 0 <= j < k && log[j].AttemptStarted? && ValidSettlement(log[j], log[k])
  {
    var key := KeyOf(log[k]);
    assert key in found.Keys && found[key] == k;
    var j :| 0 <= j < |log| && log[j].AttemptStarted? && KeyOf(log[j]) == key;
    assert StartJoined(header, log, j, found, seen);
    assert j < k && ValidSettlement(log[j], log[k]);
  }

  lemma SettledOnce(log: seq<Event>, found: map<AttemptKey, nat>, j: nat, k: nat)
    requires Collected(log, |log|, found) && j < k < |log| && IsSettlement(log[j]) && IsSettlement(log[k])
    ensures !SameKey(log[j], log[k])
  {
    assert found[KeyOf(log[j])] == j && found[KeyOf(log[k])] == k;
  }

  lemma JoinedExports(header: RunHeader, log: seq<Event>, found: map<AttemptKey, nat>, seen: set<AttemptKey>)
    requires Collected(log, |log|, found) && Joined(header, log, |log|, found, seen) && found.Keys <= seen
    ensures Exports(header, log)
  {
    forall k | 0 <= k < |log| && IsSettlement(log[k])
      ensures exists j :: 0 <= j < k && log[j].AttemptStarted? && ValidSettlement(log[j], log[k])
    {
      HasStart(header, log, found, seen, k);
    }
    forall j, k | 0 <= j < k < |log| && IsSettlement(log[j]) && IsSettlement(log[k]) ensures !SameKey(log[j], log[k]) {
      SettledOnce(log, found, j, k);
    }
    forall j | 0 <= j < |log| && log[j].AttemptStarted? ensures PlacesStart(header, log[j]) {
      assert StartJoined(header, log, j, found, seen);
    }
  }

  lemma StartIsMissing(header: RunHeader, log: seq<Event>, k: nat)
    requires k < |log| && IsSettlement(log[k])
    requires forall j :: 0 <= j < |log| && log[j].AttemptStarted? ==> KeyOf(log[j]) != KeyOf(log[k])
    ensures !Exports(header, log)
  {
  }

  // -------------------------------------------------------- what must agree

  datatype Identity = Identity(
    task: TaskId, attempt: u32, rung: u32, profile: string, tier: Tier, model: string, pool: Option<string>)

  function IdentityOf(e: Event): Identity
    requires e.AttemptStarted? || IsSettlement(e)
  {
    match e
    case AttemptStarted(task, attempt, rung, profile, start) =>
      Identity(task, attempt, rung, profile, start.tier, start.model, start.pool)
    case AttemptFinished(task, attempt, rung, profile, record, _, _, _) =>
      Identity(task, attempt, rung, profile, record.tier, record.model, record.pool)
    case AttemptInterrupted(task, attempt, rung, profile, record) =>
      Identity(task, attempt, rung, profile, record.tier, record.model, record.pool)
  }

  /// A settlement is exported with a start if and only if the two say the same of everything both say, the record has the
  /// attempt's number, and a crash, and nothing else, is recorded as an interruption of the worker.
  lemma SettlementsAgree(start: Event, done: Event)
    requires start.AttemptStarted? && IsSettlement(done)
    ensures ValidSettlement(start, done) <==>
      && IdentityOf(start) == IdentityOf(done) && done.record.attempt == done.attempt
      && match done.record.failure
         case Some(FailureRecord(Interrupted, origin, _)) => done.AttemptInterrupted? && origin == Worker
         case _ => done.AttemptFinished? && ExportsDecision(done.task, done.record.failure, done.transition, done.parking)
  {
  }

  /// A start is exported if and only if its attempt is counted from 1 and its tier is that of its rung in the first chain
  /// recorded for its task.
  lemma StartsArePlaced(header: RunHeader, e: Event)
    requires e.AttemptStarted?
    ensures PlacesStart(header, e) <==>
      && e.attempt >= 1
      && exists i :: 0 <= i < |header.chains| && header.chains[i].task == e.task
           && (forall j :: 0 <= j < i ==> header.chains[j].task != e.task)
           && e.rung < |header.chains[i].tiers| && header.chains[i].tiers[e.rung] == e.start.tier
  {
    var chain := Schema.ChainOf(header.chains, e.task);
  }
}
