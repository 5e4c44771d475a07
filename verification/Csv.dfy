// The CSV printer (src/export.rs:1031-1050) against the grammar of section 2 of RFC 4180.
module Csv {
  import opened Prelude

  type Record = seq<string>

  const QUOTE := '\"'
  const COMMA := ','
  const CR := '\r'
  const LF := '\n'

  predicate Special(c: char) {
    c == COMMA || c == QUOTE || c == CR || c == LF
  }

  predicate NeedsQuotes(value: string) {
    exists k :: 0 <= k < |value| && Special(value[k])
  }

  /// `value.replace('"', "\"\"")`.
  function Doubled(value: string): string {
    if value == [] then []
    else (if value[0] == QUOTE then [QUOTE, QUOTE] else [value[0]]) + Doubled(value[1..])
  }

  function Field(value: string): string {
    if NeedsQuotes(value) then [QUOTE] + Doubled(value) + [QUOTE] else value
  }

  function Encoded(r: Record): (texts: seq<string>)
    ensures |texts| == |r| && forall k :: 0 <= k < |r| ==> texts[k] == Field(r[k])
  {
    seq(|r|, k requires 0 <= k < |r| => Field(r[k]))
  }

  /// Encoded fields from position k on, and the line end.
  function Joined(texts: seq<string>, k: nat): (s: string)
    requires k <= |texts|
    ensures |s| >= 2
    decreases |texts| - k
  {
    if k == |texts| then [CR, LF]
    else (if k == 0 then [] else [COMMA]) + texts[k] + Joined(texts, k + 1)
  }

  function Line(r: Record): string {
    Joined(Encoded(r), 0)
  }

  function Printed(records: seq<Record>): string {
    if records == [] then [] else Printed(records[..|records| - 1]) + Line(records[|records| - 1])
  }

  class Sink {
    var text: string

    constructor ()
      ensures text == []
    {
      text := [];
    }

    method WriteAll(bytes: string)
      modifies this
      ensures text == old(text) + bytes
    {
      text := text + bytes;
    }
  }

  method WriteCsvField(value: string, out: Sink)
    modifies out
    ensures out.text == old(out.text) + Field(value)
  {
    if NeedsQuotes(value) {
      Regroup(out.text, [QUOTE], Doubled(value), [QUOTE]);
      out.WriteAll([QUOTE]);
      out.WriteAll(Doubled(value));
      out.WriteAll([QUOTE]);
    } else {
      out.WriteAll(value);
    }
  }

  lemma JoinedAt(before: string, texts: seq<string>, k: nat)
    requires k < |texts|
    ensures before + Joined(texts, k) == before + (if k == 0 then [] else [COMMA]) + texts[k] + Joined(texts, k + 1)
  {
    var comma := if k == 0 then [] else [COMMA];
    assert Joined(texts, k) == comma + texts[k] + Joined(texts, k + 1);
    Regroup(before, comma, texts[k], Joined(texts, k + 1));
  }

  method WriteRecord(fields: Record, out: Sink)
    modifies out
    ensures out.text == old(out.text) + Line(fields)
  {
    ghost var start, texts := out.text, Encoded(fields);
    for k := 0 to |fields|
      invariant start + Joined(texts, 0) == out.text + Joined(texts, k)
    {
      ghost var before := out.text;
      if k != 0 {
        out.WriteAll([COMMA]);
      }
      WriteCsvField(fields[k], out);
      JoinedAt(before, texts, k);
    }
    out.WriteAll([CR, LF]);
  }

  method WriteCsv(records: seq<Record>, out: Sink)
    modifies out
    ensures out.text == old(out.text) + Printed(records)
  {
    for i := 0 to |records|
      invariant out.text == old(out.text) + Printed(records[..i])
    {
      assert records[..i + 1][..i] == records[..i];
      WriteRecord(records[i], out);
    }
    assert records[..|records|] == records;
  }

  /// A field is written bare exactly when it holds none of the four characters, and otherwise between quotes.
  lemma FieldIsExact(value: string)
    ensures Field(value) == value <==> forall k :: 0 <= k < |value| ==> value[k] !in {',', '"', '\r', '\n'}
    ensures Field(value) != value ==> exists inner :: Field(value) == "\"" + inner + "\""
  {
    DoubledIsNoShorter(value);
    if NeedsQuotes(value) {
      assert Field(value) == "\"" + Doubled(value) + "\"";
    }
  }

  lemma {:induction false} DoubledIsNoShorter(value: string)
    ensures |Doubled(value)| >= |value|
  {
    if value != [] {
      DoubledIsNoShorter(value[1..]);
    }
  }

  // ------------------------------------------------------------- the grammar

  /// What one scan found, and what is left.
  datatype Scanned<T> = Scanned(value: T, rest: string)

  /// Up to the closing quote; two quotes are one.
  function ScanQuoted(text: string): (r: Option<Scanned<string>>)
    ensures r.Some? ==> |r.value.rest| < |text|
  {
    if text == [] then None
    else if text[0] != QUOTE then Before(text[0], ScanQuoted(text[1..]))
    else if |text| >= 2 && text[1] == QUOTE then Before(QUOTE, ScanQuoted(text[2..]))
    else Some(Scanned([], text[1..]))
  }

  function Before(c: char, r: Option<Scanned<string>>): Option<Scanned<string>> {
    match r case None => None case Some(s) => Some(Scanned([c] + s.value, s.rest))
  }

  function ScanPlain(text: string): (r: Scanned<string>)
    ensures |r.rest| <= |text|
  {
    if text == [] || Special(text[0]) then Scanned([], text)
    else
      var later := ScanPlain(text[1..]);
      Scanned([text[0]] + later.value, later.rest)
  }

  /// `field = (escaped / non-escaped)`
  function ScanField(text: string): (r: Option<Scanned<string>>)
    ensures r.Some? ==> |r.value.rest| <= |text|
  {
    if text != [] && text[0] == QUOTE then ScanQuoted(text[1..]) else Some(ScanPlain(text))
  }

  /// `record = field *(COMMA field)`, and its CRLF.
  function ScanRecord(text: string): (r: Option<Scanned<Record>>)
    ensures r.Some? ==> |r.value.rest| < |text|
    decreases |text|
  {
    match ScanField(text)
    case None => None
    case Some(field) =>
      if |field.rest| >= 1 && field.rest[0] == COMMA then
        match ScanRecord(field.rest[1..])
        case None => None
        case Some(later) => Some(Scanned([field.value] + later.value, later.rest))
      else if |field.rest| >= 2 && field.rest[0] == CR && field.rest[1] == LF then
        Some(Scanned([field.value], field.rest[2..]))
      else None
  }

  function ParseCsv(text: string): Option<seq<Record>>
    decreases |text|
  {
    if text == [] then Some([])
    else
      match ScanRecord(text)
      case None => None
      case Some(first) =>
        match ParseCsv(first.rest)
        case None => None
        case Some(later) => Some([first.value] + later)
  }

  // ------------------------------------------------------------ round trip

  lemma Regroup(a: string, b: string, c: string, d: string)
    ensures a + b + c + d == a + (b + c + d)
  {
  }

  lemma ScanStep(c: char, later: string)
    ensures c != QUOTE ==> ScanQuoted([c] + later) == Before(c, ScanQuoted(later))
    ensures ScanQuoted([QUOTE, QUOTE] + later) == Before(QUOTE, ScanQuoted(later))
  {
    assert ([c] + later)[1..] == later && ([QUOTE, QUOTE] + later)[2..] == later;
  }

  lemma {:induction false} QuotedIsRead(value: string, rest: string)
    requires rest != [] && rest[0] != QUOTE
    ensures ScanQuoted(Doubled(value) + [QUOTE] + rest) == Some(Scanned(value, rest))
  {
    if value == [] {
      assert (Doubled(value) + [QUOTE] + rest)[1..] == rest;
    } else {
      var c, later := value[0], Doubled(value[1..]) + [QUOTE] + rest;
      QuotedIsRead(value[1..], rest);
      ScanStep(c, later);
      Regroup(if c == QUOTE then [QUOTE, QUOTE] else [c], Doubled(value[1..]), [QUOTE], rest);
      assert [c] + value[1..] == value;
    }
  }

  lemma {:induction false} PlainIsRead(value: string, rest: string)
    requires !NeedsQuotes(value) && rest != [] && Special(rest[0])
    ensures ScanPlain(value + rest) == Scanned(value, rest)
  {
    if value == [] {
      assert value + rest == rest;
    } else {
      assert !Special(value[0]) && forall k :: 0 <= k < |value[1..]| ==> value[1..][k] == value[k + 1];
      PlainIsRead(value[1..], rest);
      assert (value + rest)[1..] == value[1..] + rest;
      assert value == [value[0]] + value[1..];
    }
  }

  lemma FieldIsRead(value: string, rest: string)
    requires rest != [] && Special(rest[0]) && rest[0] != QUOTE
    ensures ScanField(Field(value) + rest) == Some(Scanned(value, rest))
  {
    if NeedsQuotes(value) {
      QuotedIsRead(value, rest);
      var text := [QUOTE] + Doubled(value) + [QUOTE] + rest;
      assert text[0] == QUOTE && text[1..] == Doubled(value) + [QUOTE] + rest;
    } else {
      PlainIsRead(value, rest);
      assert (value + rest)[0] == (if value == [] then rest else value)[0];
      assert value != [] ==> !Special(value[0]);
    }
  }

  /// A record without a field is printed as an empty line, which the grammar reads as one empty field.
  function AsRead(r: Record): Record {
    if r == [] then [[]] else r
  }

  lemma LastFieldIsRead(value: string, text: string, rest: string)
    requires text == Field(value)
    ensures ScanRecord(text + ([CR, LF] + rest)) == Some(Scanned([value], rest))
  {
    var after := [CR, LF] + rest;
    FieldIsRead(value, after);
    assert after[2..] == rest;
  }

  lemma EarlierFieldIsRead(value: string, text: string, later: string, values: Record, rest: string)
    requires text == Field(value) && ScanRecord(later) == Some(Scanned(values, rest))
    ensures ScanRecord(text + ([COMMA] + later)) == Some(Scanned([value] + values, rest))
  {
    var after := [COMMA] + later;
    FieldIsRead(value, after);
    assert after[1..] == later;
  }

  lemma JoinedStep(texts: seq<string>, k: nat, rest: string)
    requires k + 1 < |texts|
    ensures Joined(texts, k + 1) + rest == [COMMA] + (texts[k + 1] + (Joined(texts, k + 2) + rest))
  {
  }

  /// The text of a record from its k-th field on.
  function Remaining(texts: seq<string>, k: nat, rest: string): string
    requires k < |texts|
  {
    texts[k] + (Joined(texts, k + 1) + rest)
  }

  lemma RemainingStep(texts: seq<string>, k: nat, rest: string)
    requires k + 1 < |texts|
    ensures Remaining(texts, k, rest) == texts[k] + ([COMMA] + Remaining(texts, k + 1, rest))
  {
    JoinedStep(texts, k, rest);
  }

  lemma RecordEnds(r: Record, texts: seq<string>, k: nat, rest: string)
    requires k + 1 == |r| == |texts| && texts[k] == Field(r[k])
    ensures ScanRecord(Remaining(texts, k, rest)) == Some(Scanned(r[k..], rest))
  {
    LastFieldIsRead(r[k], texts[k], rest);
    assert Joined(texts, k + 1) == [CR, LF];
    assert [r[k]] == r[k..];
  }

  lemma RecordGoesOn(r: Record, texts: seq<string>, k: nat, rest: string)
    requires k + 1 < |r| == |texts| && texts[k] == Field(r[k])
    requires ScanRecord(Remaining(texts, k + 1, rest)) == Some(Scanned(r[k + 1..], rest))
    ensures ScanRecord(Remaining(texts, k, rest)) == Some(Scanned(r[k..], rest))
  {
    RemainingStep(texts, k, rest);
    EarlierFieldIsRead(r[k], texts[k], Remaining(texts, k + 1, rest), r[k + 1..], rest);
    assert [r[k]] + r[k + 1..] == r[k..];
  }

  lemma {:induction false} RecordIsRead(r: Record, texts: seq<string>, k: nat, rest: string)
    requires k < |r| && texts == Encoded(r)
    ensures ScanRecord(Remaining(texts, k, rest)) == Some(Scanned(r[k..], rest))
    decreases |r| - k
  {
    if k + 1 == |r| {
      RecordEnds(r, texts, k, rest);
    } else {
      RecordIsRead(r, texts, k + 1, rest);
      RecordGoesOn(r, texts, k, rest);
    }
  }

  lemma EmptyLineIsRead(rest: string)
    ensures ScanRecord([CR, LF] + rest) == Some(Scanned([[]], rest))
  {
    LastFieldIsRead([], [], rest);
    assert [] + ([CR, LF] + rest) == [CR, LF] + rest;
  }

  lemma JoinedStart(texts: seq<string>, rest: string)
    requires texts != []
    ensures Joined(texts, 0) + rest == texts[0] + (Joined(texts, 1) + rest)
  {
  }

  lemma LineIsRead(r: Record, rest: string)
    ensures ScanRecord(Line(r) + rest) == Some(Scanned(AsRead(r), rest))
  {
    if r == [] {
      EmptyLineIsRead(rest);
    } else {
      JoinedStart(Encoded(r), rest);
      RecordIsRead(r, Encoded(r), 0, rest);
      assert r[0..] == r;
    }
  }

  function AllAsRead(records: seq<Record>): seq<Record> {
    seq(|records|, k requires 0 <= k < |records| => AsRead(records[k]))
  }

  lemma PrintedSnoc(records: seq<Record>, last: Record)
    ensures Printed(records + [last]) == Printed(records) + Line(last)
  {
    assert (records + [last])[..|records|] == records;
  }

  lemma Associates(a: string, b: string, c: string)
    ensures (a + b) + c == a + (b + c)
  {
  }

  lemma {:induction false} PrintedFromFirst(records: seq<Record>)
    requires records != []
    ensures Printed(records) == Line(records[0]) + Printed(records[1..])
  {
    var front, last := records[..|records| - 1], records[|records| - 1];
    PrintedSnoc(front, last);
    assert records == front + [last];
    if front != [] {
      PrintedFromFirst(front);
      PrintedSnoc(front[1..], last);
      assert records[1..] == front[1..] + [last];
      Associates(Line(records[0]), Printed(front[1..]), Line(last));
    }
  }

  lemma ParseStep(text: string, first: Record, rest: string, later: seq<Record>)
    requires text != [] && ScanRecord(text) == Some(Scanned(first, rest)) && ParseCsv(rest) == Some(later)
    ensures ParseCsv(text) == Some([first] + later)
  {
  }

  lemma FirstIsRead(r: Record, rest: string, later: seq<Record>)
    requires ParseCsv(rest) == Some(later)
    ensures ParseCsv(Line(r) + rest) == Some([AsRead(r)] + later)
  {
    LineIsRead(r, rest);
    assert Line(r) + rest != [];
    ParseStep(Line(r) + rest, AsRead(r), rest, later);
  }

  lemma {:induction false} PrintedIsRead(records: seq<Record>)
    ensures ParseCsv(Printed(records)) == Some(AllAsRead(records))
    decreases |records|
  {
    if records == [] {
      assert AllAsRead(records) == [];
    } else {
      PrintedIsRead(records[1..]);
      FirstIsRead(records[0], Printed(records[1..]), AllAsRead(records[1..]));
      PrintedFromFirst(records);
      AllAsReadFromFirst(records);
    }
  }

  lemma AllAsReadFromFirst(records: seq<Record>)
    requires records != []
    ensures AllAsRead(records) == [AsRead(records[0])] + AllAsRead(records[1..])
  {
  }

  /// What is printed is read back exactly, whatever the fields contain, if and only if every record has a field.
  lemma CsvRoundTrip(records: seq<Record>)
    ensures ParseCsv(Printed(records)) == Some(records) <==> forall k :: 0 <= k < |records| ==> records[k] != []
  {
    PrintedIsRead(records);
    if forall k :: 0 <= k < |records| ==> records[k] != [] {
      assert AllAsRead(records) == records;
    } else {
      var k :| 0 <= k < |records| && records[k] == [];
      assert AllAsRead(records)[k] != records[k];
    }
  }
}
