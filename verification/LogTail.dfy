// The incremental reader behind `status --follow` (src/events.rs:2407-2448), under any interleaving with the writer.
module LogTail {
  import opened Prelude
  import opened EventLog
  import opened LogWorld

  /// A poll: whether the file could be opened, its length when asked, and its bytes when read a moment later.
  datatype View = View(found: bool, length: nat, contents: seq<byte>)

  datatype Polled<E> = Polled(offset: nat, read: Result<seq<E>, ParseError>)

  function EventsOf<E>(r: Result<Parsed<E>, ParseError>): Result<seq<E>, ParseError> {
    match r case Err(error) => Err(error) case Ok(p) => Ok(p.events)
  }

  function PollStep<E>(c: Codec<E>, offset: nat, v: View): Polled<E> {
    var start := if v.length < offset then 0 else offset;
    if !v.found then Polled(offset, Ok([]))
    else if v.length == start || start > |v.contents| || CommittedEnd(v.contents[start..]) == 0 then Polled(start, Ok([]))
    else
      var end := CommittedEnd(v.contents[start..]);
      Polled(start + end, EventsOf(Parse(c, v.contents[start..][..end])))
  }

  class LogTail<E> {
    const codec: Codec<E>
    var offset: nat

    constructor (codec: Codec<E>)
      ensures this.codec == codec && offset == 0
    {
      this.codec, offset := codec, 0;
    }

    method Poll(v: View) returns (r: Result<seq<E>, ParseError>)
      modifies this
      ensures Polled(offset, r) == PollStep(codec, old(offset), v)
    {
      if !v.found {
        return Ok([]);
      }
      if v.length <= offset {
        if v.length < offset {
          offset := 0;
        }
        if v.length == offset {
          return Ok([]);
        }
      }
      var buffer := if offset <= |v.contents| then v.contents[offset..] else [];
      var end := LastNewline(buffer);
      if end == 0 {
        return Ok([]);
      }
      offset := offset + end;
      var parsed := ParseBytes(codec, buffer[..end]);
      r := EventsOf(parsed);
    }
  }

  /// A file that has become shorter than what was read is read from its beginning; one that cannot be opened, or has
  /// shrunk again since its length was asked, is left for the next poll; and the offset only ever moves to a line's end.
  lemma PollStartsOver<E>(c: Codec<E>, offset: nat, v: View)
    ensures v.found && v.length < offset ==> PollStep(c, offset, v) == PollStep(c, 0, v)
    ensures !v.found ==> PollStep(c, offset, v) == Polled(offset, Ok([]))
    ensures v.found && v.length >= offset > |v.contents| ==> PollStep(c, offset, v) == Polled(offset, Ok([]))
    ensures
      var p := PollStep(c, offset, v);
      p.offset == offset || p.offset == 0 || (p.offset <= |v.contents| && v.contents[p.offset - 1] == NL)
  {
  }

  // ------------------------------------------------------------ against the writer

  /// One poll of a running log: the instants at which it asks the length and reads, if it could open the file at all.
  datatype Look = Look(found: bool, probe: nat, read: nat)

  /// What a follower has after some polls.
  datatype Following<E> = Following(offset: nat, seen: seq<E>, failed: bool)

  /// The instants of the polls come one after another, within the history.
  ghost predicate InOrder(looks: seq<Look>, length: nat) {
    && (forall k :: 0 <= k < |looks| ==> looks[k].probe <= looks[k].read < length)
    && (forall k :: 0 < k < |looks| ==> looks[k - 1].read <= looks[k].probe)
  }

  function Seen<E>(h: seq<World<E>>, look: Look): View
    requires look.probe < |h| && look.read < |h|
  {
    View(look.found, |h[look.probe].bytes|, h[look.read].bytes)
  }

  ghost function Follow<E>(c: Codec<E>, h: seq<World<E>>, looks: seq<Look>): Following<E>
    requires InOrder(looks, |h|)
  {
    if looks == [] then Following(0, [], false)
    else
      var before := Follow(c, h, looks[..|looks| - 1]);
      Added(before, PollStep(c, before.offset, Seen(h, looks[|looks| - 1])))
  }

  function Added<E>(before: Following<E>, polled: Polled<E>): Following<E> {
    match polled.read
    case Ok(events) => Following(polled.offset, before.seen + events, before.failed)
    case Err(_) => Following(polled.offset, before.seen, true)
  }

  /// Reading on from a record boundary yields exactly the events committed since.
  lemma PollCatchesUp<E(!new)>(c: Codec<E>, seen: seq<E>, all: seq<E>, v: View)
    requires Sound(c) && seen <= all && v.found
    requires |EncodeAll(c, seen)| <= v.length
    requires Repaired(v.contents) == EncodeAll(c, all)
    ensures
      var p := PollStep(c, |EncodeAll(c, seen)|, v);
      if v.length == |EncodeAll(c, seen)| then p == Polled(|EncodeAll(c, seen)|, Ok([]))
      else p == Polled(|EncodeAll(c, all)|, Ok(all[|seen|..]))
  {
    var start, later := |EncodeAll(c, seen)|, all[|seen|..];
    var partial := RestOfFile(c, seen, all, v.contents);
    EncodeAllEnds(c, later);
    EndOfCommitted(EncodeAll(c, later), partial);
    assert v.contents[start..][..|EncodeAll(c, later)|] == EncodeAll(c, later);
    NothingTorn(c, EncodeAll(c, later), later);
    SomethingIsWritten(c, later);
    EncodedPrefix(c, seen, all);
    assert later == [] ==> seen == all;
  }

  lemma RestOfFile<E(!new)>(c: Codec<E>, seen: seq<E>, all: seq<E>, contents: seq<byte>) returns (partial: seq<byte>)
    requires seen <= all && Repaired(contents) == EncodeAll(c, all)
    ensures NL !in partial && |EncodeAll(c, seen)| <= |contents|
    ensures |EncodeAll(c, all)| == |EncodeAll(c, seen)| + |EncodeAll(c, all[|seen|..])|
    ensures contents[|EncodeAll(c, seen)|..] == EncodeAll(c, all[|seen|..]) + partial
  {
    assert seen + all[|seen|..] == all;
    EncodeAllConcat(c, seen, all[|seen|..]);
    partial := SplitAt(contents, CommittedEnd(contents), EncodeAll(c, seen), EncodeAll(c, all[|seen|..]));
  }

  lemma SplitAt(contents: seq<byte>, end: nat, head: seq<byte>, tail: seq<byte>) returns (partial: seq<byte>)
    requires end <= |contents| && contents[..end] == head + tail && forall k :: end <= k < |contents| ==> contents[k] != NL
    ensures NL !in partial && |head| <= |contents| && contents[|head|..] == tail + partial
  {
    partial := contents[end..];
    assert forall k :: 0 <= k < |partial| ==> partial[k] == contents[end + k];
    assert contents == head + tail + partial;
  }

  lemma SomethingIsWritten<E>(c: Codec<E>, events: seq<E>)
    ensures EncodeAll(c, events) == [] ==> events == []
  {
    if events != [] {
      assert |Line(c, events[0])| > 0;
    }
  }

  lemma EncodedPrefix<E>(c: Codec<E>, a: seq<E>, b: seq<E>)
    requires a <= b
    ensures EncodeAll(c, a) <= EncodeAll(c, b)
  {
    assert a + b[|a|..] == b;
    EncodeAllConcat(c, a, b[|a|..]);
  }

  /// The file is never shorter than what was committed before, so the offset never points past it.
  lemma NeverTruncatedPast<E(!new)>(c: Codec<E>, h: seq<World<E>>, i: nat, j: nat, seen: seq<E>)
    requires Sound(c) && History(c, h) && i <= j < |h| && seen <= Committed(c, h[i].bytes)
    ensures seen <= Committed(c, h[j].bytes) && EncodeAll(c, seen) <= h[j].bytes
  {
    CommittedOnlyGrows(c, h, i, j);
    CommittedIsEncoded(c, h, j);
    EncodedPrefix(c, seen, Committed(c, h[j].bytes));
  }

  /// Whatever the writer does meanwhile, the polls of a follower put together are a prefix of the whole log, its offset
  /// is the end of a record the file still holds, and no poll fails.
  lemma {:induction false} FollowsThePrefix<E(!new)>(c: Codec<E>, h: seq<World<E>>, looks: seq<Look>)
    requires Sound(c) && History(c, h) && InOrder(looks, |h|)
    ensures
      var f := Follow(c, h, looks);
      && !f.failed && f.offset == |EncodeAll(c, f.seen)|
      && (looks == [] ==> f.seen == [])
      && (looks != [] ==> f.seen <= Committed(c, h[looks[|looks| - 1].read].bytes))
    decreases |looks|, 1
  {
    if looks != [] {
      PollKeepsUp(c, h, looks);
    }
  }

  /// One poll picks up everything that was committed when it asked for the length, and nothing that was not committed
  /// when it read: a poll after the writer stopped has the whole log.
  lemma {:induction false} PollKeepsUp<E(!new)>(c: Codec<E>, h: seq<World<E>>, looks: seq<Look>)
    requires Sound(c) && History(c, h) && InOrder(looks, |h|) && looks != []
    ensures
      var f, last := Follow(c, h, looks), looks[|looks| - 1];
      && !f.failed && f.offset == |EncodeAll(c, f.seen)|
      && f.seen <= Committed(c, h[last.read].bytes)
      && (last.found ==> Committed(c, h[last.probe].bytes) <= f.seen)
    decreases |looks|, 0
  {
    var last, earlier := looks[|looks| - 1], looks[..|looks| - 1];
    FollowsThePrefix(c, h, earlier);
    var before := Follow(c, h, earlier);
    if earlier != [] {
      NeverTruncatedPast(c, h, earlier[|earlier| - 1].read, last.probe, before.seen);
    }
    var after := OnePoll(c, h, last, before);
    assert Follow(c, h, looks) == Following(|EncodeAll(c, after)|, after, false);
  }

  lemma OnePoll<E(!new)>(c: Codec<E>, h: seq<World<E>>, look: Look, before: Following<E>) returns (after: seq<E>)
    requires Sound(c) && History(c, h) && look.probe <= look.read < |h|
    requires before == Following(|EncodeAll(c, before.seen)|, before.seen, false)
    requires before.seen <= Committed(c, h[look.probe].bytes)
    ensures before.seen <= after <= Committed(c, h[look.read].bytes)
    ensures look.found ==> Committed(c, h[look.probe].bytes) <= after
    ensures Added(before, PollStep(c, before.offset, Seen(h, look))) == Following(|EncodeAll(c, after)|, after, false)
  {
    var seen := before.seen;
    NeverTruncatedPast(c, h, look.probe, look.probe, seen);
    CommittedOnlyGrows(c, h, look.probe, look.read);
    CommittedIsEncoded(c, h, look.read);
    NothingNew(c, h, look.probe, seen);
    after := OneView(c, before, Committed(c, h[look.probe].bytes), Committed(c, h[look.read].bytes), Seen(h, look));
  }

  lemma OneView<E(!new)>(c: Codec<E>, before: Following<E>, earlier: seq<E>, now: seq<E>, v: View) returns (after: seq<E>)
    requires Sound(c) && before.seen <= earlier <= now
    requires before == Following(|EncodeAll(c, before.seen)|, before.seen, false)
    requires before.offset <= v.length && Repaired(v.contents) == EncodeAll(c, now)
    requires v.length == before.offset ==> earlier == before.seen
    ensures before.seen <= after <= now && (v.found ==> earlier <= after)
    ensures Added(before, PollStep(c, before.offset, v)) == Following(|EncodeAll(c, after)|, after, false)
  {
    after := if v.found && v.length != before.offset then now else before.seen;
    if v.found {
      PollCatchesUp(c, before.seen, now, v);
    }
    assert before.seen + after[|before.seen|..] == after;
    assert before.seen + [] == before.seen;
  }

  /// A file exactly as long as what was already read holds nothing new.
  lemma NothingNew<E(!new)>(c: Codec<E>, h: seq<World<E>>, i: nat, seen: seq<E>)
    requires Sound(c) && History(c, h) && i < |h| && seen <= Committed(c, h[i].bytes)
    ensures |h[i].bytes| == |EncodeAll(c, seen)| ==> Committed(c, h[i].bytes) == seen
  {
    var all := Committed(c, h[i].bytes);
    CommittedIsEncoded(c, h, i);
    assert seen + all[|seen|..] == all;
    EncodeAllConcat(c, seen, all[|seen|..]);
    SomethingIsWritten(c, all[|seen|..]);
  }
}
