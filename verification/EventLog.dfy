// The crash-safe byte log: its writer, its whole-file reader and its repair (src/events.rs:1487-1683).
// E is whatever one line says. The format is abstract; it need not be able to say everything an engine has in memory.
module EventLog {
  import opened Prelude

  newtype byte = n: int | 0 <= n < 256

  const NL: byte := 10
  const CR: byte := 13

  datatype Codec<!E> = Codec(
    encode: E -> seq<byte>, decode: seq<byte> -> Option<E>, utf8: seq<byte> -> bool, blank: seq<byte> -> bool)

  /// What the wire format is trusted for: what a line says is read back, and its text is one line, as section 7 of
  /// RFC 8259 makes it by escaping every control character.
  ghost predicate Sound<E(!new)>(c: Codec<E>) {
    && (forall e {:trigger c.encode(e)} ::
          && c.decode(c.encode(e)) == Some(e) && c.utf8(c.encode(e)) && !c.blank(c.encode(e))
          && NL !in c.encode(e) && CR !in c.encode(e))
    && c.utf8([]) && c.utf8([NL])
    && (forall a, b :: c.utf8(a) && c.utf8(b) ==> c.utf8(a + b))
  }

  /// A number as that many marks and one more.
  function Marks(n: nat): seq<byte> {
    seq(n + 1, _ => 1)
  }

  function CountMarks(line: seq<byte>): Option<nat> {
    if line != [] && forall b :: b in line ==> b == 1 then Some(|line| - 1) else None
  }

  const TALLY: Codec<nat> := Codec((n: nat) => Marks(n), (line: seq<byte>) => CountMarks(line), _ => true, (line: seq<byte>) => line == [])

  /// The trust is not empty: a format that earns it, with a line for every number.
  lemma SomeFormatIsSound()
    ensures Sound(TALLY)
  {
    forall n: nat ensures CountMarks(Marks(n)) == Some(n) && NL !in Marks(n) && CR !in Marks(n) {
      assert Marks(n)[0] == 1;
    }
  }

  function Line<E>(c: Codec<E>, e: E): seq<byte> {
    c.encode(e) + [NL]
  }

  /// The bytes of a log that holds exactly these events.
  function EncodeAll<E>(c: Codec<E>, events: seq<E>): seq<byte> {
    if events == [] then [] else Line(c, events[0]) + EncodeAll(c, events[1..])
  }

  // ------------------------------------------------------------ reading

  datatype Parsed<E> = Parsed(events: seq<E>, torn: bool)

  datatype ParseError = InvalidUtf8 | InvalidLine(position: nat)

  /// One past the last newline: everything before it is committed.
  function CommittedEnd(bytes: seq<byte>): (r: nat)
    ensures r <= |bytes| && (r > 0 ==> bytes[r - 1] == NL)
    ensures forall k :: r <= k < |bytes| ==> bytes[k] != NL
  {
    if bytes == [] then 0
    else if bytes[|bytes| - 1] == NL then |bytes|
    else CommittedEnd(bytes[..|bytes| - 1])
  }

  function FirstNewline(bytes: seq<byte>): (r: nat)
    requires NL in bytes
    ensures r < |bytes| && bytes[r] == NL
    ensures forall k :: 0 <= k < r ==> bytes[k] != NL
  {
    if bytes[0] == NL then 0 else FirstNewline(bytes[1..]) + 1
  }

  /// `str::lines` drops a carriage return that ends a line.
  function Chomp(line: seq<byte>): seq<byte> {
    if line != [] && line[|line| - 1] == CR then line[..|line| - 1] else line
  }

  function ParseLines<E>(c: Codec<E>, bytes: seq<byte>, position: nat): Result<seq<E>, ParseError> {
    if NL !in bytes then Ok([])
    else
      var k := FirstNewline(bytes);
      var line := Chomp(bytes[..k]);
      if c.blank(line) then ParseLines(c, bytes[k + 1..], position + 1)
      else
        var e := c.decode(line);
        if e.None? then Err(InvalidLine(position))
        else
          match ParseLines(c, bytes[k + 1..], position + 1)
          case Err(error) => Err(error)
          case Ok(rest) => Ok([e.value] + rest)
  }

  function Parse<E>(c: Codec<E>, bytes: seq<byte>): Result<Parsed<E>, ParseError> {
    var end := CommittedEnd(bytes);
    if !c.utf8(bytes[..end]) then Err(InvalidUtf8)
    else match ParseLines(c, bytes[..end], 1)
      case Err(error) => Err(error)
      case Ok(events) => Ok(Parsed(events, end < |bytes|))
  }

  function Prepend<E>(events: seq<E>, rest: Result<seq<E>, ParseError>): Result<seq<E>, ParseError> {
    match rest case Err(error) => Err(error) case Ok(tail) => Ok(events + tail)
  }

  /// What the lines already read, and the bytes still to read, say of the whole.
  ghost predicate Reading<E>(
    c: Codec<E>, whole: Result<seq<E>, ParseError>, events: seq<E>, rest: seq<byte>, position: nat)
  {
    whole == Prepend(events, ParseLines(c, rest, position))
  }

  lemma ReadingStarts<E>(c: Codec<E>, committed: seq<byte>)
    ensures Reading(c, ParseLines(c, committed, 1), [], committed, 1)
  {
    var whole := ParseLines(c, committed, 1);
    assert whole.Ok? ==> [] + whole.value == whole.value;
  }

  lemma ReadingEnds<E>(c: Codec<E>, whole: Result<seq<E>, ParseError>, events: seq<E>, position: nat)
    requires Reading(c, whole, events, [], position)
    ensures whole == Ok(events)
  {
    assert events + [] == events;
  }

  lemma PrependTwice<E>(events: seq<E>, e: E, rest: Result<seq<E>, ParseError>)
    ensures Prepend(events, Prepend([e], rest)) == Prepend(events + [e], rest)
  {
    if rest.Ok? {
      assert events + ([e] + rest.value) == events + [e] + rest.value;
    }
  }

  /// The parse of some bytes from the parse of all but their first line.
  lemma FirstLineOf<E>(c: Codec<E>, bytes: seq<byte>, stop: nat, position: nat)
    requires stop < |bytes| && bytes[stop] == NL && forall k :: 0 <= k < stop ==> bytes[k] != NL
    ensures
      var line, rest := Chomp(bytes[..stop]), ParseLines(c, bytes[stop + 1..], position + 1);
      ParseLines(c, bytes, position) ==
        if c.blank(line) then rest
        else match c.decode(line) case None => Err(InvalidLine(position)) case Some(e) => Prepend([e], rest)
  {
    assert FirstNewline(bytes) == stop;
  }

  lemma ReadingStep<E>(
    c: Codec<E>, whole: Result<seq<E>, ParseError>, events: seq<E>, bytes: seq<byte>, stop: nat, position: nat)
    requires Reading(c, whole, events, bytes, position)
    requires stop < |bytes| && bytes[stop] == NL && forall k :: 0 <= k < stop ==> bytes[k] != NL
    ensures
      var line := Chomp(bytes[..stop]);
      if c.blank(line) then Reading(c, whole, events, bytes[stop + 1..], position + 1)
      else match c.decode(line)
        case None => whole == Err(InvalidLine(position))
        case Some(e) => Reading(c, whole, events + [e], bytes[stop + 1..], position + 1)
  {
    FirstLineOf(c, bytes, stop, position);
    var line := Chomp(bytes[..stop]);
    if !c.blank(line) && c.decode(line).Some? {
      PrependTwice(events, c.decode(line).value, ParseLines(c, bytes[stop + 1..], position + 1));
    }
  }

  /// `parse_bytes`: split at the last newline, check the encoding, then read line by line.
  method ParseBytes<E>(c: Codec<E>, bytes: seq<byte>) returns (r: Result<Parsed<E>, ParseError>)
    ensures r == Parse(c, bytes)
    ensures forall lines, partial ::
      Unbroken(lines) && NL !in partial && bytes == Unlines(lines) + partial ==> ReadsLines(c, lines, partial, r)
  {
    forall lines, partial | Unbroken(lines) && NL !in partial && bytes == Unlines(lines) + partial
      ensures ReadsLines(c, lines, partial, Parse(c, bytes))
    {
      ParseIsByLine(c, lines, partial);
    }
    var end := LastNewline(bytes);
    if !c.utf8(bytes[..end]) {
      return Err(InvalidUtf8);
    }
    var events := ParseCommitted(c, bytes[..end]);
    r := match events case Err(error) => Err(error) case Ok(read) => Ok(Parsed(read, end < |bytes|));
  }

  /// The loop of `parse_bytes` over `committed.lines()`.
  method ParseCommitted<E>(c: Codec<E>, committed: seq<byte>) returns (r: Result<seq<E>, ParseError>)
    requires committed == [] || committed[|committed| - 1] == NL
    ensures r == ParseLines(c, committed, 1)
  {
    var events, rest, position := [], committed, 1;
    ghost var whole := ParseLines(c, committed, 1);
    ReadingStarts(c, committed);
    while rest != []
      invariant rest == [] || rest[|rest| - 1] == NL
      invariant Reading(c, whole, events, rest, position)
    {
      var stop := LineEnd(rest);
      ReadingStep(c, whole, events, rest, stop, position);
      var line := Chomp(rest[..stop]);
      if !c.blank(line) {
        var e := c.decode(line);
        if e.None? {
          return Err(InvalidLine(position));
        }
        events := events + [e.value];
      }
      rest, position := rest[stop + 1..], position + 1;
    }
    ReadingEnds(c, whole, events, position);
    r := Ok(events);
  }

  method LineEnd(bytes: seq<byte>) returns (stop: nat)
    requires bytes != [] && bytes[|bytes| - 1] == NL
    ensures stop < |bytes| && bytes[stop] == NL && forall k :: 0 <= k < stop ==> bytes[k] != NL
  {
    stop := 0;
    while bytes[stop] != NL
      invariant stop < |bytes| && forall k :: 0 <= k < stop ==> bytes[k] != NL
      decreases |bytes| - stop
    {
      stop := stop + 1;
    }
  }

  /// The scan `parse_bytes`, `EventLog::open` and `LogTail::poll` share: `rposition` of a newline, plus one.
  method LastNewline(bytes: seq<byte>) returns (end: nat)
    ensures end == CommittedEnd(bytes)
  {
    end := |bytes|;
    while end > 0 && bytes[end - 1] != NL
      invariant 0 <= end <= |bytes| && CommittedEnd(bytes[..end]) == CommittedEnd(bytes)
    {
      assert bytes[..end][..end - 1] == bytes[..end - 1];
      end := end - 1;
    }
  }

  lemma LineIsFirst(bytes: seq<byte>, start: nat, stop: nat)
    requires start <= stop < |bytes| && bytes[stop] == NL && forall k :: start <= k < stop ==> bytes[k] != NL
    ensures NL in bytes[start..] && FirstNewline(bytes[start..]) == stop - start
    ensures bytes[start..][..stop - start] == bytes[start..stop]
    ensures bytes[start..][stop - start + 1..] == bytes[stop + 1..]
  {
    var rest := bytes[start..];
    assert rest[stop - start] == NL;
    assert forall k :: 0 <= k < stop - start ==> rest[k] == bytes[start + k];
  }

  // ------------------------------------------------ what the reader reads

  lemma EndOfCommitted(a: seq<byte>, partial: seq<byte>)
    requires NL !in partial && (a == [] || a[|a| - 1] == NL)
    ensures CommittedEnd(a + partial) == |a|
  {
    assert forall k :: |a| <= k < |a + partial| ==> (a + partial)[k] == partial[k - |a|];
    assert a != [] ==> (a + partial)[|a| - 1] == NL;
  }

  lemma {:induction false} EncodeAllEnds<E(!new)>(c: Codec<E>, events: seq<E>)
    requires Sound(c)
    ensures c.utf8(EncodeAll(c, events))
    ensures events != [] ==> EncodeAll(c, events) != [] && EncodeAll(c, events)[|EncodeAll(c, events)| - 1] == NL
  {
    if events != [] {
      EncodeAllEnds(c, events[1..]);
      assert c.utf8(c.encode(events[0]));
    }
  }

  lemma FirstLine<E(!new)>(c: Codec<E>, e: E, rest: seq<byte>)
    requires Sound(c)
    ensures var bytes := Line(c, e) + rest;
      && NL in bytes && FirstNewline(bytes) == |c.encode(e)|
      && Chomp(bytes[..FirstNewline(bytes)]) == c.encode(e) && bytes[FirstNewline(bytes) + 1..] == rest
  {
    var bytes, k := Line(c, e) + rest, |c.encode(e)|;
    assert bytes[0..k] == c.encode(e) && bytes[k] == NL;
    LineIsFirst(bytes, 0, k);
    assert bytes[0..] == bytes && bytes[k + 1..] == rest;
  }

  lemma {:induction false} LinesRoundTrip<E(!new)>(c: Codec<E>, events: seq<E>, position: nat)
    requires Sound(c)
    ensures ParseLines(c, EncodeAll(c, events), position) == Ok(events)
    decreases |events|
  {
    if events != [] {
      FirstLine(c, events[0], EncodeAll(c, events[1..]));
      LinesRoundTrip(c, events[1..], position + 1);
      assert [events[0]] + events[1..] == events;
    }
  }

  /// Whole lines, then an unfinished one: the reader returns exactly the events of the whole lines.
  lemma ParseRoundTrip<E(!new)>(c: Codec<E>, events: seq<E>, partial: seq<byte>)
    requires Sound(c) && NL !in partial
    ensures Parse(c, EncodeAll(c, events) + partial) == Ok(Parsed(events, partial != []))
  {
    EncodeAllEnds(c, events);
    EndOfCommitted(EncodeAll(c, events), partial);
    LinesRoundTrip(c, events, 1);
    assert (EncodeAll(c, events) + partial)[..|EncodeAll(c, events)|] == EncodeAll(c, events);
  }

  lemma {:induction false} EncodeAllConcat<E>(c: Codec<E>, a: seq<E>, b: seq<E>)
    ensures EncodeAll(c, a + b) == EncodeAll(c, a) + EncodeAll(c, b)
  {
    if a == [] {
      assert a + b == b;
    } else {
      assert (a + b)[1..] == a[1..] + b;
      EncodeAllConcat(c, a[1..], b);
    }
  }

  // --------------------------------------------------- reading, by the line

  /// Some lines, each ended by a newline.
  function Unlines(lines: seq<seq<byte>>): seq<byte> {
    if lines == [] then [] else lines[0] + [NL] + Unlines(lines[1..])
  }

  predicate Unbroken(lines: seq<seq<byte>>) {
    forall k :: 0 <= k < |lines| ==> NL !in lines[k]
  }

  /// A line without the carriage return that may end it.
  function Text(line: seq<byte>): seq<byte> {
    if |line| > 0 && line[|line| - 1] == 13 then line[..|line| - 1] else line
  }

  predicate Garbled<E>(c: Codec<E>, line: seq<byte>) {
    !c.blank(Text(line)) && c.decode(Text(line)).None?
  }

  function LineSays<E>(c: Codec<E>, line: seq<byte>): seq<E> {
    if c.blank(Text(line)) then [] else match c.decode(Text(line)) case None => [] case Some(e) => [e]
  }

  /// What good lines say, in order; blank ones say nothing.
  function Said<E>(c: Codec<E>, lines: seq<seq<byte>>): seq<E> {
    if lines == [] then [] else Said(c, lines[..|lines| - 1]) + LineSays(c, lines[|lines| - 1])
  }

  /// The first line that cannot be read, counted from 1.
  ghost predicate GarbledFirst<E>(c: Codec<E>, lines: seq<seq<byte>>, position: nat) {
    1 <= position <= |lines| && Garbled(c, lines[position - 1]) && forall k :: 0 <= k < position - 1 ==> !Garbled(c, lines[k])
  }

  /// The reading of whole lines with an unfinished one after them.
  ghost predicate ReadsLines<E>(c: Codec<E>, lines: seq<seq<byte>>, partial: seq<byte>, r: Result<Parsed<E>, ParseError>) {
    match r
    case Err(InvalidUtf8) => !c.utf8(Unlines(lines))
    case Err(InvalidLine(position)) => c.utf8(Unlines(lines)) && GarbledFirst(c, lines, position)
    case Ok(Parsed(events, torn)) =>
      && c.utf8(Unlines(lines)) && (forall k :: 0 <= k < |lines| ==> !Garbled(c, lines[k]))
      && events == Said(c, lines) && (torn <==> partial != [])
  }

  lemma {:induction false} SaidFirst<E>(c: Codec<E>, lines: seq<seq<byte>>)
    requires lines != []
    ensures Said(c, lines) == LineSays(c, lines[0]) + Said(c, lines[1..])
  {
    if |lines| > 1 {
      var front := lines[..|lines| - 1];
      SaidFirst(c, front);
      assert front[1..] == lines[1..][..|lines| - 2];
    } else {
      assert lines[..0] == [] && lines[1..] == [];
    }
  }

  lemma UnlinesFirst(lines: seq<seq<byte>>)
    requires lines != [] && Unbroken(lines)
    ensures
      var bytes, stop := Unlines(lines), |lines[0]|;
      && stop < |bytes| && bytes[stop] == NL && (forall k :: 0 <= k < stop ==> bytes[k] != NL)
      && bytes[..stop] == lines[0] && bytes[stop + 1..] == Unlines(lines[1..])
  {
    var bytes, stop := Unlines(lines), |lines[0]|;
    assert bytes[..stop] == lines[0];
    assert forall k :: 0 <= k < stop ==> bytes[k] == lines[0][k];
  }

  /// How whole lines are read, counting from this position.
  ghost predicate Reads<E>(c: Codec<E>, lines: seq<seq<byte>>, position: nat, r: Result<seq<E>, ParseError>) {
    match r
    case Err(InvalidLine(at)) => at >= position && GarbledFirst(c, lines, at - position + 1)
    case Err(InvalidUtf8) => false
    case Ok(events) => (forall k :: 0 <= k < |lines| ==> !Garbled(c, lines[k])) && events == Said(c, lines)
  }

  lemma {:induction false} LinesAreRead<E>(c: Codec<E>, lines: seq<seq<byte>>, position: nat)
    requires Unbroken(lines)
    ensures Reads(c, lines, position, ParseLines(c, Unlines(lines), position))
    decreases |lines|
  {
    if lines != [] {
      LinesAreRead(c, lines[1..], position + 1);
      UnlinesFirst(lines);
      FirstLineOf(c, Unlines(lines), |lines[0]|, position);
      FirstIsRead(c, lines, ParseLines(c, Unlines(lines[1..]), position + 1), position);
    }
  }

  lemma FirstIsRead<E>(c: Codec<E>, lines: seq<seq<byte>>, rest: Result<seq<E>, ParseError>, position: nat)
    requires lines != [] && Reads(c, lines[1..], position + 1, rest)
    ensures
      var line := Chomp(lines[0]);
      Reads(c, lines, position,
        if c.blank(line) then rest
        else match c.decode(line) case None => Err(InvalidLine(position)) case Some(e) => Prepend([e], rest))
  {
    assert forall k :: 0 < k < |lines| ==> lines[k] == lines[1..][k - 1];
    SaidFirst(c, lines);
    if rest.Err? && !Garbled(c, lines[0]) {
      var at := rest.error.position;
      assert forall k :: 0 < k < at - position ==> !Garbled(c, lines[k]);
      assert GarbledFirst(c, lines, at - position + 1);
    }
  }

  lemma {:induction false} UnlinesEnds(lines: seq<seq<byte>>)
    ensures lines != [] ==> Unlines(lines) != [] && Unlines(lines)[|Unlines(lines)| - 1] == NL
  {
    if lines != [] {
      UnlinesEnds(lines[1..]);
    }
  }

  /// Whatever is in the file: the whole lines are read one by one, blank ones skipped and a carriage return at the end of
  /// one dropped; the first that cannot be read is named; and what follows the last newline is dropped and reported.
  lemma ParseIsByLine<E>(c: Codec<E>, lines: seq<seq<byte>>, partial: seq<byte>)
    requires Unbroken(lines) && NL !in partial
    ensures ReadsLines(c, lines, partial, Parse(c, Unlines(lines) + partial))
  {
    UnlinesEnds(lines);
    EndOfCommitted(Unlines(lines), partial);
    LinesAreRead(c, lines, 1);
    assert (Unlines(lines) + partial)[..|Unlines(lines)|] == Unlines(lines);
  }

  /// And every file is some lines and an unfinished one.
  lemma {:induction false} EveryFileIsLines(bytes: seq<byte>) returns (lines: seq<seq<byte>>, partial: seq<byte>)
    ensures Unbroken(lines) && NL !in partial && bytes == Unlines(lines) + partial
    decreases |bytes|
  {
    if NL in bytes {
      var stop := FirstNewline(bytes);
      var later;
      later, partial := EveryFileIsLines(bytes[stop + 1..]);
      lines := [bytes[..stop]] + later;
      assert lines[1..] == later;
      assert bytes == bytes[..stop] + [NL] + bytes[stop + 1..];
    } else {
      lines, partial := [], bytes;
    }
  }

  // ------------------------------------------------------------ repairing

  function Repaired(bytes: seq<byte>): seq<byte> {
    bytes[..CommittedEnd(bytes)]
  }

  /// Opening never changes what parses, on any bytes whatever, and leaves no torn tail.
  lemma RepairKeepsParse<E>(c: Codec<E>, bytes: seq<byte>)
    ensures
      match Parse(c, bytes)
      case Ok(p) => Parse(c, Repaired(bytes)) == Ok(p.(torn := false))
      case Err(error) => Parse(c, Repaired(bytes)) == Err(error)
  {
    var end := CommittedEnd(bytes);
    EndOfCommitted(bytes[..end], []);
    assert bytes[..end] + [] == bytes[..end];
    assert bytes[..end][..end] == bytes[..end];
  }

  /// The file both the writer and its readers see.
  class File {
    var bytes: seq<byte>

    constructor ()
      ensures bytes == []
    {
      bytes := [];
    }
  }

  datatype AppendError = NotOnTheWire | WriteFailed

  class EventLog<E> {
    const codec: Codec<E>
    const file: File

    constructor Open(codec: Codec<E>, file: File)
      modifies file
      ensures this.codec == codec && this.file == file && file.bytes == Repaired(old(file.bytes))
    {
      this.codec, this.file := codec, file;
      new;
      var bytes := file.bytes;
      if bytes != [] && bytes[|bytes| - 1] != NL {
        var keep := LastNewline(bytes);
        file.bytes := bytes[..keep];
      }
    }

    /// Hands back what a replay would decode; an event no replay could decode is not written at all. `fault` is a
    /// write, flush or sync error, and how many bytes of the line the file has after it.
    method Append(e: E, fault: Option<nat>) returns (r: Result<E, AppendError>)
      modifies file
      ensures codec.decode(codec.encode(e)).None? ==> r == Err(NotOnTheWire) && file.bytes == old(file.bytes)
      ensures codec.decode(codec.encode(e)).Some? && fault.None? ==>
        r == Ok(codec.decode(codec.encode(e)).value) && file.bytes == old(file.bytes) + Line(codec, e)
      ensures codec.decode(codec.encode(e)).Some? && fault.Some? ==>
        r == Err(WriteFailed) && file.bytes == old(file.bytes) + Reached(codec, e, fault.value)
    {
      var line := codec.encode(e);
      var written := codec.decode(line);
      if written.None? {
        return Err(NotOnTheWire);
      }
      line := line + [NL];
      if fault.Some? {
        file.bytes := file.bytes + if fault.value < |line| then line[..fault.value] else line;
        return Err(WriteFailed);
      }
      file.bytes := file.bytes + line;
      r := Ok(written.value);
    }
  }

  /// The part of a line that n bytes are enough for.
  function Reached<E>(c: Codec<E>, e: E, n: nat): seq<byte> {
    if n < |Line(c, e)| then Line(c, e)[..n] else Line(c, e)
  }
}
