// Timestamps as they are written (src/util.rs:251-261) and as they are checked (src/export.rs:831-900); the profile
// of RFC 3339, sections 5.6 and 5.7, without leap seconds.
module Rfc3339 {
  import opened Prelude
  import opened Calendar

  // --------------------------------------------------------------- numbers

  predicate IsDigit(c: char) {
    '0' <= c <= '9'
  }

  function Digit(n: nat): char
    requires n <= 9
  {
    '0' + n as char
  }

  /// `{n:0width}`: decimal, padded with zeros to at least `width` characters.
  function Pad(n: nat, width: nat): string
    decreases n + width
  {
    if n < 10 && width <= 1 then [Digit(n)]
    else Pad(n / 10, if width == 0 then 0 else width - 1) + [Digit(n % 10)]
  }

  function Decimal(digits: string): Option<nat> {
    if digits == [] then Some(0)
    else
      var last := digits[|digits| - 1];
      match Decimal(digits[..|digits| - 1])
      case Some(n) => if IsDigit(last) then Some(10 * n + (last - '0') as nat) else None
      case None => None
  }

  function Pow10(n: nat): nat {
    if n == 0 then 1 else 10 * Pow10(n - 1)
  }

  lemma {:induction false} PadIsRead(n: nat, width: nat)
    ensures Decimal(Pad(n, width)) == Some(n) && forall k :: 0 <= k < |Pad(n, width)| ==> IsDigit(Pad(n, width)[k])
    decreases n + width
  {
    if n < 10 && width <= 1 {
      assert Decimal([]) == Some(0);
      assert [Digit(n)][..0] == [];
    } else {
      var front := Pad(n / 10, if width == 0 then 0 else width - 1);
      PadIsRead(n / 10, if width == 0 then 0 else width - 1);
      assert (front + [Digit(n % 10)])[..|front|] == front;
    }
  }

  lemma {:induction false} PadLength(n: nat, width: nat)
    requires width >= 1
    ensures n < Pow10(width) ==> |Pad(n, width)| == width
    ensures n >= Pow10(width) ==> |Pad(n, width)| > width
    decreases n + width
  {
    if width == 1 {
      if n >= 10 {
        PadIsNotEmpty(n / 10);
      }
    } else {
      PadLength(n / 10, width - 1);
    }
  }

  lemma PadIsNotEmpty(n: nat)
    ensures |Pad(n, 0)| >= 1
  {
  }

  // ----------------------------------------------------------------- order

  predicate DiffersAt(a: string, b: string, k: nat) {
    k < |a| && k < |b| && a[..k] == b[..k] && a[k] < b[k]
  }

  ghost predicate DiffersBelow(a: string, b: string) {
    exists k: nat :: DiffersAt(a, b, k)
  }

  /// String order, byte by byte.
  ghost predicate LexLess(a: string, b: string) {
    a < b || DiffersBelow(a, b)
  }

  lemma NotBothWays(a: string, b: string, k: nat, j: nat)
    requires DiffersAt(a, b, k)
    ensures !DiffersAt(b, a, j) && !(b < a)
  {
    if j < k {
      assert a[..k][j] == a[j] && b[..k][j] == b[j];
    } else if k < j && j < |a| && j < |b| {
      assert a[..j][k] == a[k] && b[..j][k] == b[k];
    }
  }

  lemma LexIsAsymmetric(a: string, b: string)
    requires DiffersBelow(a, b)
    ensures !LexLess(b, a)
  {
    var k: nat :| DiffersAt(a, b, k);
    forall j: nat ensures !DiffersAt(b, a, j) {
      NotBothWays(a, b, k, j);
    }
    NotBothWays(a, b, k, 0);
  }

  lemma DifferLater(pre: string, a: string, b: string)
    requires DiffersBelow(a, b)
    ensures DiffersBelow(pre + a, pre + b)
  {
    var k: nat :| DiffersAt(a, b, k);
    assert (pre + a)[..|pre| + k] == pre + a[..k] && (pre + b)[..|pre| + k] == pre + b[..k];
    assert DiffersAt(pre + a, pre + b, |pre| + k);
  }

  lemma DifferEarlier(a: string, b: string, x: string, y: string)
    requires DiffersBelow(a, b)
    ensures DiffersBelow(a + x, b + y)
  {
    var k: nat :| DiffersAt(a, b, k);
    assert (a + x)[..k] == a[..k] && (b + y)[..k] == b[..k];
    assert DiffersAt(a + x, b + y, k);
  }

  lemma {:induction false} PadKeepsOrder(n: nat, m: nat, width: nat)
    requires width >= 1 && n < m < Pow10(width)
    ensures DiffersBelow(Pad(n, width), Pad(m, width))
  {
    if width == 1 {
      assert DiffersAt(Pad(n, 1), Pad(m, 1), 0);
    } else if n / 10 < m / 10 {
      PadKeepsOrder(n / 10, m / 10, width - 1);
      DifferEarlier(Pad(n / 10, width - 1), Pad(m / 10, width - 1), [Digit(n % 10)], [Digit(m % 10)]);
    } else {
      var front, a, b := Pad(n / 10, width - 1), [Digit(n % 10)], [Digit(m % 10)];
      assert DiffersAt(a, b, 0);
      DifferLater(front, a, b);
    }
  }

  // ---------------------------------------------------------------- writing

  /// A number and the character after it.
  datatype Item = Item(value: nat, width: nat, sep: char)

  function Render(items: seq<Item>): string {
    if items == [] then []
    else Pad(items[0].value, items[0].width) + [items[0].sep] + Render(items[1..])
  }

  function Items(year: nat, month: nat, day: nat, secondOfDay: nat): seq<Item> {
    [Item(year, 4, '-'), Item(month, 2, '-'), Item(day, 2, 'T'),
     Item(secondOfDay / 3600, 2, ':'), Item(secondOfDay % 3600 / 60, 2, ':'), Item(secondOfDay % 60, 2, 'Z')]
  }

  lemma AfterTheEpoch(days: nat)
    ensures CivilFromDays(days).year >= 1970 && CivilFromDays(days).month >= 1 && CivilFromDays(days).day >= 1
  {
    EpochIsDayZero();
    CivilIsExact(days);
    if days > 0 {
      CivilIsMonotone(0, days);
    }
  }

  function ItemsOf(seconds: nat): seq<Item> {
    var days := seconds / 86_400;
    AfterTheEpoch(days);
    var date := CivilFromDays(days);
    Items(date.year, date.month, date.day, seconds % 86_400)
  }

  function Rfc3339Utc(seconds: nat): string {
    Render(ItemsOf(seconds))
  }

  ghost predicate SameShape(a: seq<Item>, b: seq<Item>) {
    && |a| == |b|
    && forall k :: 0 <= k < |a| ==>
         a[k].width == b[k].width >= 1 && a[k].sep == b[k].sep
         && a[k].value < Pow10(a[k].width) && b[k].value < Pow10(b[k].width)
  }

  /// The first field in which two timestamps differ is smaller in the first.
  ghost predicate FieldsBefore(a: seq<Item>, b: seq<Item>) {
    exists k :: 0 <= k < |a| && k < |b| && a[k].value < b[k].value && forall j :: 0 <= j < k ==> a[j] == b[j]
  }

  lemma {:induction false} RenderKeepsOrder(a: seq<Item>, b: seq<Item>)
    requires SameShape(a, b) && FieldsBefore(a, b)
    ensures DiffersBelow(Render(a), Render(b))
  {
    var k :| 0 <= k < |a| && k < |b| && a[k].value < b[k].value && forall j :: 0 <= j < k ==> a[j] == b[j];
    var x, y := Pad(a[0].value, a[0].width), Pad(b[0].value, b[0].width);
    if k == 0 {
      PadKeepsOrder(a[0].value, b[0].value, a[0].width);
      DifferEarlier(x, y, [a[0].sep], [b[0].sep]);
      DifferEarlier(x + [a[0].sep], y + [b[0].sep], Render(a[1..]), Render(b[1..]));
    } else {
      assert a[0] == b[0];
      assert a[1..][k - 1].value < b[1..][k - 1].value;
      assert forall j :: 0 <= j < k - 1 ==> a[1..][j] == a[j + 1] && b[1..][j] == b[j + 1];
      RenderKeepsOrder(a[1..], b[1..]);
      DifferLater(x + [a[0].sep], Render(a[1..]), Render(b[1..]));
    }
  }

  // --------------------------------------------------------------- checking

  function Number(t: string, start: nat, len: nat): Option<nat> {
    if start + len <= |t| then Decimal(t[start..start + len]) else None
  }

  predicate AtMost(n: Option<nat>, limit: nat) {
    n.Some? && n.value <= limit
  }

  /// Nothing, or a point and at least one digit.
  predicate Fraction(t: string, start: nat, end: nat)
    requires start <= end <= |t|
  {
    start == end || (t[start] == '.' && start + 1 < end && forall k :: start < k < end ==> IsDigit(t[k]))
  }

  predicate Zone(z: string) {
    z == "Z" || z == "z"
    || (|z| == 6 && (z[0] == '+' || z[0] == '-') && z[3] == ':' && AtMost(Number(z, 1, 2), 23) && AtMost(Number(z, 4, 2), 59))
  }

  predicate DateAndTime(t: string)
    requires |t| >= 20
  {
    && t[4] == '-' && t[7] == '-' && (t[10] == 'T' || t[10] == 't') && t[13] == ':' && t[16] == ':'
    && Number(t, 0, 4).Some? && Number(t, 5, 2).Some? && Number(t, 8, 2).Some?
    && Valid(Date(Number(t, 0, 4).value, Number(t, 5, 2).value, Number(t, 8, 2).value))
    && AtMost(Number(t, 11, 2), 23) && AtMost(Number(t, 14, 2), 59) && AtMost(Number(t, 17, 2), 59)
  }

  ghost predicate Supported(t: string) {
    |t| >= 20 && DateAndTime(t) && exists z :: 19 <= z <= |t| && Fraction(t, 19, z) && Zone(t[z..])
  }

  /// `is_supported_rfc3339`, with its cursor over the fraction.
  method IsSupportedRfc3339(t: string) returns (ok: bool)
    ensures ok <==> Supported(t)
    ensures ok <==> InProfile(t)
  {
    SupportedIsTheProfile(t);
    if |t| < 20 || t[4] != '-' || t[7] != '-' || !(t[10] == 'T' || t[10] == 't') || t[13] != ':' || t[16] != ':' {
      return false;
    }
    var year, month, day := Number(t, 0, 4), Number(t, 5, 2), Number(t, 8, 2);
    var hour, minute, second := Number(t, 11, 2), Number(t, 14, 2), Number(t, 17, 2);
    if year.None? || month.None? || day.None? || hour.None? || minute.None? || second.None? {
      return false;
    }
    var leapYear := year.value % 4 == 0 && (year.value % 100 != 0 || year.value % 400 == 0);
    var days;
    if month.value in {1, 3, 5, 7, 8, 10, 12} {
      days := 31;
    } else if month.value in {4, 6, 9, 11} {
      days := 30;
    } else if month.value == 2 {
      days := if leapYear then 29 else 28;
    } else {
      return false;
    }
    if day.value == 0 || day.value > days || hour.value > 23 || minute.value > 59 || second.value > 59 {
      return false;
    }
    assert DateAndTime(t);
    var zone := 19;
    if t[zone] == '.' {
      zone := zone + 1;
      while zone < |t| && IsDigit(t[zone])
        invariant 20 <= zone <= |t| && forall k :: 20 <= k < zone ==> IsDigit(t[k])
      {
        zone := zone + 1;
      }
      FractionEnds(t, zone);
      if zone == 20 {
        return false;
      }
    } else {
      FractionIsEmpty(t);
    }
    ok := Zone(t[zone..]);
  }

  /// The cursor stops at the only place where a zone can start.
  lemma FractionEnds(t: string, zone: nat)
    requires 20 <= zone <= |t| && t[19] == '.' && forall k :: 20 <= k < zone ==> IsDigit(t[k])
    requires zone < |t| ==> !IsDigit(t[zone])
    ensures forall z :: 19 <= z <= |t| && Fraction(t, 19, z) && Zone(t[z..]) ==> z == zone
    ensures zone > 20 ==> Fraction(t, 19, zone)
  {
    forall z | 19 <= z <= |t| && Fraction(t, 19, z) && Zone(t[z..]) ensures z == zone {
      assert z < |t| ==> t[z..][0] == t[z];
    }
  }

  lemma FractionIsEmpty(t: string)
    requires |t| >= 20 && t[19] != '.'
    ensures forall z :: 19 <= z <= |t| && Fraction(t, 19, z) ==> z == 19
  {
  }

  // ------------------------------------------------------ written, then read

  /// The last second of year 9999.
  const LAST_SECOND: nat := 253_402_300_799

  lemma YearsUpTo9999(seconds: nat)
    ensures seconds <= LAST_SECOND <==> CivilFromDays(seconds / 86_400).year <= 9999
  {
    var days, last := seconds / 86_400, Date(9999, 12, 31);
    assert DaysFromCivil(last) == 2_932_896;
    CivilIsExact(days);
    if days <= 2_932_896 {
      if days < 2_932_896 {
        MoreIsLater(CivilFromDays(days), last);
      } else {
        SameCount(CivilFromDays(days), last);
      }
    } else {
      MoreIsLater(last, CivilFromDays(days));
    }
  }

  /// Six fields, each with its width and separator, and each fitting.
  ghost predicate Printable(a: seq<Item>) {
    |a| == 6 && forall k :: 0 <= k < 6 ==>
      a[k].width == (if k == 0 then 4 else 2) && a[k].sep == ['-', '-', 'T', ':', ':', 'Z'][k] && a[k].value < Pow10(a[k].width)
  }

  lemma FieldsFit(seconds: nat)
    requires seconds <= LAST_SECOND
    ensures Printable(ItemsOf(seconds))
  {
    YearsUpTo9999(seconds);
    CivilIsExact(seconds / 86_400);
    assert Pow10(1) == 10 && Pow10(2) == 100 && Pow10(3) == 1000 && Pow10(4) == 10_000;
  }

  lemma DateFirst(x: Date, y: Date, s: nat, t: nat)
    requires Before(x, y) && x.year >= 0 && x.month >= 0 && x.day >= 0 && y.year >= 0 && y.month >= 0 && y.day >= 0
    ensures FieldsBefore(Items(x.year, x.month, x.day, s), Items(y.year, y.month, y.day, t))
  {
    var a, b := Items(x.year, x.month, x.day, s), Items(y.year, y.month, y.day, t);
    var k := if x.year < y.year then 0 else if x.month < y.month then 1 else 2;
    assert a[k].value < b[k].value && forall j :: 0 <= j < k ==> a[j] == b[j];
  }

  lemma ClockNext(year: nat, month: nat, day: nat, x: nat, y: nat)
    requires x < y
    ensures FieldsBefore(Items(year, month, day, x), Items(year, month, day, y))
  {
    var a, b := Items(year, month, day, x), Items(year, month, day, y);
    ClockFields(x, y);
    var k := if x / 3600 < y / 3600 then 3 else if x % 3600 / 60 < y % 3600 / 60 then 4 else 5;
    assert a[k].value < b[k].value && forall j :: 0 <= j < k ==> a[j] == b[j];
  }

  /// A later second differs first in a field that is larger.
  lemma LaterFields(s: nat, t: nat)
    requires s < t
    ensures FieldsBefore(ItemsOf(s), ItemsOf(t))
  {
    var x, y := CivilFromDays(s / 86_400), CivilFromDays(t / 86_400);
    AfterTheEpoch(s / 86_400);
    AfterTheEpoch(t / 86_400);
    if s / 86_400 < t / 86_400 {
      CivilIsMonotone(s / 86_400, t / 86_400);
      DateFirst(x, y, s % 86_400, t % 86_400);
    } else {
      assert s / 86_400 == t / 86_400;
      ClockNext(x.year, x.month, x.day, s % 86_400, t % 86_400);
    }
  }

  lemma ClockParts(x: nat)
    ensures x == 3600 * (x / 3600) + 60 * (x % 3600 / 60) + x % 60 && x % 3600 / 60 <= 59
  {
    var rest := x % 3600;
    MinutesOf(x / 3600, rest / 60, rest % 60);
  }

  lemma MinutesOf(h: nat, m: nat, s: nat)
    requires s < 60
    ensures (3600 * h + 60 * m + s) % 60 == s
  {
    assert 3600 * h + 60 * m + s == 60 * (60 * h + m) + s;
  }

  lemma ClockFields(x: nat, y: nat)
    requires x < y
    ensures x / 3600 < y / 3600
      || (x / 3600 == y / 3600 && (x % 3600 / 60 < y % 3600 / 60 || (x % 3600 / 60 == y % 3600 / 60 && x % 60 < y % 60)))
  {
    ClockParts(x);
    ClockParts(y);
  }

  lemma WrittenInOrder(s: nat, t: nat)
    requires s < t <= LAST_SECOND
    ensures DiffersBelow(Rfc3339Utc(s), Rfc3339Utc(t))
  {
    FieldsFit(s);
    FieldsFit(t);
    LaterFields(s, t);
    FieldsInOrder(ItemsOf(s), ItemsOf(t));
  }

  lemma FieldsInOrder(a: seq<Item>, b: seq<Item>)
    requires Printable(a) && Printable(b) && FieldsBefore(a, b)
    ensures DiffersBelow(Render(a), Render(b))
  {
    RenderKeepsOrder(a, b);
  }

  /// Up to the end of year 9999, comparing timestamps as strings compares the times.
  lemma StringOrderIsTimeOrder(s: nat, t: nat)
    requires s <= LAST_SECOND && t <= LAST_SECOND
    ensures LexLess(Rfc3339Utc(s), Rfc3339Utc(t)) <==> s < t
  {
    if s < t {
      WrittenInOrder(s, t);
    } else if t < s {
      WrittenInOrder(t, s);
      LexIsAsymmetric(Rfc3339Utc(t), Rfc3339Utc(s));
    }
  }

  lemma PiecesStand(pre: string, field: string, sep: char, rest: string, t: string)
    requires t == pre + (field + [sep] + rest)
    ensures |t| == |pre| + |field| + 1 + |rest| && t[|pre|..|pre| + |field|] == field
    ensures t[|pre| + |field|] == sep && t == pre + (field + [sep]) + rest
  {
  }

  /// Where one field of a rendered timestamp stands.
  lemma FieldStands(pre: string, items: seq<Item>, t: string) returns (next: string)
    requires items != [] && t == pre + Render(items)
    requires items[0].value < Pow10(items[0].width) && items[0].width >= 1
    ensures |next| == |pre| + items[0].width + 1 <= |t| && t == next + Render(items[1..])
    ensures t[|next| - 1] == items[0].sep && Number(t, |pre|, items[0].width) == Some(items[0].value)
  {
    var field := Pad(items[0].value, items[0].width);
    PadLength(items[0].value, items[0].width);
    PadIsRead(items[0].value, items[0].width);
    PiecesStand(pre, field, items[0].sep, Render(items[1..]), t);
    next := pre + (field + [items[0].sep]);
  }

  /// Where the k-th field of a timestamp starts.
  function StartOf(k: nat): nat {
    if k == 0 then 0 else 3 * k + 2
  }

  ghost predicate SixFields(items: seq<Item>) {
    |items| == 6 && forall k :: 0 <= k < 6 ==>
      items[k].width == (if k == 0 then 4 else 2) && items[k].value < Pow10(items[k].width)
  }

  predicate FieldIs(t: string, items: seq<Item>, k: nat)
    requires k < |items|
  {
    && StartOf(k + 1) <= |t| && t[StartOf(k + 1) - 1] == items[k].sep
    && Number(t, StartOf(k), items[k].width) == Some(items[k].value)
  }

  lemma {:induction false} FieldsStand(items: seq<Item>, t: string, k: nat, pre: string)
    requires SixFields(items) && k <= 6
    requires |pre| == StartOf(k) && t == pre + Render(items[k..])
    ensures |t| == 20 && forall j :: k <= j < 6 ==> FieldIs(t, items, j)
    decreases 6 - k
  {
    if k < 6 {
      var next := FieldStands(pre, items[k..], t);
      assert items[k..][1..] == items[k + 1..];
      FieldsStand(items, t, k + 1, next);
    }
  }

  lemma ReadBack(items: seq<Item>, t: string)
    requires |items| == 6 && items[0].width == 4 && forall k :: 1 <= k < 6 ==> items[k].width == 2
    requires |t| == 20 && forall k :: 0 <= k < 6 ==> FieldIs(t, items, k)
    requires [items[0].sep, items[1].sep, items[2].sep, items[3].sep, items[4].sep, items[5].sep] == "--T::Z"
    requires Valid(Date(items[0].value, items[1].value, items[2].value))
    requires items[3].value <= 23 && items[4].value <= 59 && items[5].value <= 59
    ensures Supported(t)
  {
    assert FieldIs(t, items, 0) && FieldIs(t, items, 1) && FieldIs(t, items, 2);
    assert FieldIs(t, items, 3) && FieldIs(t, items, 4) && FieldIs(t, items, 5);
    var seps := "--T::Z";
    assert items[0].sep == seps[0] && items[1].sep == seps[1] && items[2].sep == seps[2];
    assert items[3].sep == seps[3] && items[4].sep == seps[4] && items[5].sep == seps[5];
    assert DateAndTime(t);
    assert Fraction(t, 19, 19) && t[19..] == "Z";
  }

  lemma WrittenIsAccepted(seconds: nat)
    requires seconds <= LAST_SECOND
    ensures Supported(Rfc3339Utc(seconds))
  {
    var items, t := ItemsOf(seconds), Rfc3339Utc(seconds);
    FieldsFit(seconds);
    assert [] + t == t && items[0..] == items;
    FieldsStand(items, t, 0, []);
    CivilIsExact(seconds / 86_400);
    ReadBack(items, t);
  }

  /// The exporter accepts what the writer writes exactly up to the end of year 9999: a longer year does not fit.
  lemma WrittenThenRead(seconds: nat)
    ensures Supported(Rfc3339Utc(seconds)) <==> seconds <= LAST_SECOND
  {
    if seconds <= LAST_SECOND {
      WrittenIsAccepted(seconds);
    } else {
      YearsUpTo9999(seconds);
      var items, t := ItemsOf(seconds), Rfc3339Utc(seconds);
      assert Pow10(1) == 10 && Pow10(2) == 100 && Pow10(3) == 1000 && Pow10(4) == 10_000;
      PadLength(items[0].value, 4);
      PadIsRead(items[0].value, 4);
      assert t[4] == Pad(items[0].value, 4)[4];
    }
  }

  // ------------------------------------------------------ the profile itself

  /// Nothing, or a point and some digits.
  ghost predicate IsFraction(f: string) {
    f == "" || exists digits: string :: digits != "" && f == "." + digits && AllDigits(digits)
  }

  predicate AllDigits(digits: string) {
    forall k :: 0 <= k < |digits| ==> digits[k] in "0123456789"
  }

  /// UTC by letter, or an offset of hours and minutes.
  ghost predicate IsZone(z: string) {
    z == "Z" || z == "z"
    || exists hours: nat, minutes: nat :: IsOffset(z, hours, minutes)
  }

  ghost predicate IsOffset(z: string, hours: nat, minutes: nat) {
    && hours <= 23 && minutes <= 59
    && (z == "+" + Pad(hours, 2) + ":" + Pad(minutes, 2) || z == "-" + Pad(hours, 2) + ":" + Pad(minutes, 2))
  }

  /// A date, a time of day, and what follows the seconds.
  ghost predicate Reads(t: string, date: Date, time: string, h: nat, m: nat, s: nat, tail: string) {
    && 0 <= date.year <= 9999 && Valid(date) && (time == "T" || time == "t") && h <= 23 && m <= 59 && s <= 59
    && t == Pad(date.year, 4) + "-" + Pad(date.month, 2) + "-" + Pad(date.day, 2) + time
         + Pad(h, 2) + ":" + Pad(m, 2) + ":" + Pad(s, 2) + tail
  }

  ghost predicate IsTail(tail: string) {
    exists f, z :: tail == f + z && IsFraction(f) && IsZone(z)
  }

  lemma {:induction false} DecimalIsPadded(digits: string, n: nat)
    requires digits != [] && Decimal(digits) == Some(n)
    ensures digits == Pad(n, |digits|) && n < Pow10(|digits|)
  {
    var front, last := digits[..|digits| - 1], digits[|digits| - 1];
    assert digits == front + [last];
    var m, d := Decimal(front).value, (last - '0') as nat;
    assert n == 10 * m + d && d < 10 && Digit(d) == last;
    if front != [] {
      DecimalIsPadded(front, m);
      assert n / 10 == m && n % 10 == d;
    }
  }

  lemma PaddedReads(n: nat, width: nat)
    requires width >= 1 && n < Pow10(width)
    ensures |Pad(n, width)| == width && Decimal(Pad(n, width)) == Some(n)
  {
    PadIsRead(n, width);
    PadLength(n, width);
  }

  /// A timestamp cut at its fixed places.
  lemma Cut(t: string, y: string, mo: string, d: string, time: string, h: string, m: string, s: string, tail: string)
    requires |y| == 4 && |mo| == |d| == |h| == |m| == |s| == 2 && |time| == 1
    requires t == y + "-" + mo + "-" + d + time + h + ":" + m + ":" + s + tail
    ensures |t| == 19 + |tail| && t[4] == '-' && t[7] == '-' && [t[10]] == time && t[13] == ':' && t[16] == ':'
    ensures t[0..4] == y && t[5..7] == mo && t[8..10] == d && t[11..13] == h && t[14..16] == m && t[17..19] == s && t[19..] == tail
  {
    var date, clock := y + "-" + mo + "-" + d + time, h + ":" + m + ":" + s + tail;
    assert t == date + clock;
    assert t[0..4] == date[0..4] == y && t[5..7] == date[5..7] == mo && t[8..10] == date[8..10] == d;
    assert t[11..13] == clock[0..2] == h && t[14..16] == clock[3..5] == m && t[17..19] == clock[6..8] == s;
    assert t[19..] == clock[8..] == tail;
  }

  lemma Glued(t: string)
    requires |t| >= 19 && t[4] == '-' && t[7] == '-' && t[13] == ':' && t[16] == ':'
    ensures t == t[0..4] + "-" + t[5..7] + "-" + t[8..10] + [t[10]] + t[11..13] + ":" + t[14..16] + ":" + t[17..19] + t[19..]
  {
    assert t[..11] == t[0..4] + "-" + t[5..7] + "-" + t[8..10] + [t[10]];
    assert t[11..] == t[11..13] + ":" + t[14..16] + ":" + t[17..19] + t[19..];
    assert t == t[..11] + t[11..];
  }

  lemma ZoneIs(z: string)
    ensures Zone(z) <==> IsZone(z)
  {
    if Zone(z) && |z| == 6 {
      var hours, minutes := Number(z, 1, 2).value, Number(z, 4, 2).value;
      DecimalIsPadded(z[1..3], hours);
      DecimalIsPadded(z[4..6], minutes);
      assert z == [z[0]] + z[1..3] + ":" + z[4..6];
      assert IsOffset(z, hours, minutes);
    }
    if hours: nat, minutes: nat :| IsOffset(z, hours, minutes) {
      OffsetReads(z, hours, minutes);
    }
  }

  lemma OffsetReads(z: string, hours: nat, minutes: nat)
    requires IsOffset(z, hours, minutes)
    ensures Zone(z)
  {
    assert Pow10(2) == 100 by { assert Pow10(1) == 10; }
    PaddedReads(hours, 2);
    PaddedReads(minutes, 2);
    OffsetCut(z, [z[0]], Pad(hours, 2), Pad(minutes, 2));
  }

  lemma OffsetCut(z: string, sign: string, hours: string, minutes: string)
    requires |sign| == 1 && |hours| == |minutes| == 2 && z == sign + hours + ":" + minutes
    ensures |z| == 6 && z[0] == sign[0] && z[3] == ':' && z[1..3] == hours && z[4..6] == minutes
  {
  }

  lemma DigitIs(c: char)
    ensures IsDigit(c) <==> c in "0123456789"
  {
  }

  lemma FractionIs(t: string, z: nat)
    requires 19 <= z <= |t|
    ensures Fraction(t, 19, z) <==> IsFraction(t[19..z])
  {
    if z > 19 {
      DigitsOf(t, 20, z);
      PointAndRest(t, z);
    }
  }

  lemma DigitsOf(t: string, a: nat, b: nat)
    requires a <= b <= |t|
    ensures AllDigits(t[a..b]) <==> forall k :: a <= k < b ==> IsDigit(t[k])
  {
    forall k | a <= k < b ensures t[a..b][k - a] == t[k] && (IsDigit(t[k]) <==> t[k] in "0123456789") {
      DigitIs(t[k]);
    }
    if forall k :: a <= k < b ==> IsDigit(t[k]) {
      assert forall j :: 0 <= j < b - a ==> t[a..b][j] == t[j + a];
    }
  }

  lemma PointAndRest(t: string, z: nat)
    requires 19 < z <= |t|
    ensures IsFraction(t[19..z]) <==> t[19] == '.' && z > 20 && AllDigits(t[20..z])
  {
    if t[19] == '.' {
      assert t[19..z] == "." + t[20..z];
    }
    if digits: string :| digits != "" && t[19..z] == "." + digits && AllDigits(digits) {
      assert t[19] == t[19..z][0] == '.';
      assert digits == t[19..z][1..] == t[20..z];
    }
  }

  lemma TailIs(t: string)
    requires |t| >= 19
    ensures (exists z :: 19 <= z <= |t| && Fraction(t, 19, z) && Zone(t[z..])) <==> IsTail(t[19..])
  {
    if z :| 19 <= z <= |t| && Fraction(t, 19, z) && Zone(t[z..]) {
      FractionIs(t, z);
      ZoneIs(t[z..]);
      assert t[19..] == t[19..z] + t[z..];
    }
    if f, z :| t[19..] == f + z && IsFraction(f) && IsZone(z) {
      TailStands(t, f, z);
    }
  }

  lemma TailStands(t: string, f: string, z: string)
    requires |t| >= 19 && t[19..] == f + z && IsFraction(f) && IsZone(z)
    ensures exists at :: 19 <= at <= |t| && Fraction(t, 19, at) && Zone(t[at..])
  {
    var at := 19 + |f|;
    assert t[19..at] == t[19..][..|f|] == f && t[at..] == t[19..][|f|..] == z;
    FractionIs(t, at);
    ZoneIs(z);
    assert Fraction(t, 19, at) && Zone(t[at..]);
  }

  lemma DateAndTimeReads(t: string)
    requires |t| >= 20 && DateAndTime(t)
    ensures exists date, time, h, m, s :: Reads(t, date, time, h, m, s, t[19..])
  {
    var y, mo, d := Number(t, 0, 4).value, Number(t, 5, 2).value, Number(t, 8, 2).value;
    var h, m, s := Number(t, 11, 2).value, Number(t, 14, 2).value, Number(t, 17, 2).value;
    DecimalIsPadded(t[0..4], y);
    DecimalIsPadded(t[5..7], mo);
    DecimalIsPadded(t[8..10], d);
    DecimalIsPadded(t[11..13], h);
    DecimalIsPadded(t[14..16], m);
    DecimalIsPadded(t[17..19], s);
    Powers();
    Glued(t);
    assert Reads(t, Date(y, mo, d), [t[10]], h, m, s, t[19..]);
  }

  lemma Powers()
    ensures Pow10(1) == 10 && Pow10(2) == 100 && Pow10(3) == 1000 && Pow10(4) == 10_000
  {
  }

  lemma ReadsDateAndTime(t: string, date: Date, time: string, h: nat, m: nat, s: nat, tail: string)
    requires Reads(t, date, time, h, m, s, tail) && tail != ""
    ensures |t| >= 20 && DateAndTime(t) && t[19..] == tail
  {
    Powers();
    PaddedReads(date.year, 4);
    PaddedReads(date.month, 2);
    PaddedReads(date.day, 2);
    PaddedReads(h, 2);
    PaddedReads(m, 2);
    PaddedReads(s, 2);
    Cut(t, Pad(date.year, 4), Pad(date.month, 2), Pad(date.day, 2), time, Pad(h, 2), Pad(m, 2), Pad(s, 2), tail);
  }

  ghost predicate InProfile(t: string) {
    exists date, time, h, m, s, tail :: IsTail(tail) && Reads(t, date, time, h, m, s, tail)
  }

  /// The check accepts exactly the dates of the calendar up to year 9999 at a time of day without leap seconds, with any
  /// fraction and any offset within a day.
  lemma SupportedIsTheProfile(t: string)
    ensures Supported(t) <==> InProfile(t)
  {
    if Supported(t) {
      DateAndTimeReads(t);
      TailIs(t);
      var date, time, h, m, s :| Reads(t, date, time, h, m, s, t[19..]);
      assert IsTail(t[19..]);
    }
    if date, time, h, m, s, tail :| IsTail(tail) && Reads(t, date, time, h, m, s, tail) {
      TailIsSomething(tail);
      ReadsDateAndTime(t, date, time, h, m, s, tail);
      TailIs(t);
    }
  }

  lemma TailIsSomething(tail: string)
    requires IsTail(tail)
    ensures tail != ""
  {
    var f, z :| tail == f + z && IsFraction(f) && IsZone(z);
    ZoneIs(z);
  }

  /// A timestamp says what time it is: its date and its time of day are those of the second it was written for.
  lemma WrittenIsTheTime(seconds: nat)
    requires seconds <= LAST_SECOND
    ensures exists date, h, m, s :: Tells(Rfc3339Utc(seconds), seconds, date, h, m, s)
  {
    var date, h, m, s := UtcIs(seconds);
    YearsUpTo9999(seconds);
    assert Tells(Rfc3339Utc(seconds), seconds, date, h, m, s);
  }

  ghost predicate Tells(t: string, seconds: nat, date: Date, h: nat, m: nat, s: nat) {
    Reads(t, date, "T", h, m, s, "Z") && DaysFromCivil(date) * 86_400 + h * 3600 + m * 60 + s == seconds
  }

  lemma UtcIs(seconds: nat) returns (date: Date, h: nat, m: nat, s: nat)
    ensures date == CivilFromDays(seconds / 86_400) && Valid(date) && date.year >= 0
    ensures h <= 23 && m <= 59 && s <= 59 && DaysFromCivil(date) * 86_400 + h * 3600 + m * 60 + s == seconds
    ensures Rfc3339Utc(seconds) ==
      Pad(date.year, 4) + "-" + Pad(date.month, 2) + "-" + Pad(date.day, 2) + "T" + Pad(h, 2) + ":" + Pad(m, 2) + ":" + Pad(s, 2) + "Z"
  {
    date := CivilFromDays(seconds / 86_400);
    CivilIsExact(seconds / 86_400);
    AfterTheEpoch(seconds / 86_400);
    h, m, s := TimeOfDay(seconds % 86_400);
    RenderedIs(date, seconds % 86_400);
  }

  lemma TimeOfDay(clock: nat) returns (h: nat, m: nat, s: nat)
    requires clock < 86_400
    ensures h == clock / 3600 && m == clock % 3600 / 60 && s == clock % 60
    ensures h <= 23 && m <= 59 && s <= 59 && h * 3600 + m * 60 + s == clock
  {
    h, m, s := clock / 3600, clock % 3600 / 60, clock % 60;
    ClockParts(clock);
  }

  lemma RenderedIs(date: Date, clock: nat)
    requires date.year >= 0 && date.month >= 0 && date.day >= 0
    ensures Render(Items(date.year, date.month, date.day, clock)) ==
      Pad(date.year, 4) + "-" + Pad(date.month, 2) + "-" + Pad(date.day, 2) + "T"
      + Pad(clock / 3600, 2) + ":" + Pad(clock % 3600 / 60, 2) + ":" + Pad(clock % 60, 2) + "Z"
  {
    var items := Items(date.year, date.month, date.day, clock);
    RenderThree(items[3], items[4], items[5]);
    RenderThree(items[0], items[1], items[2]);
    assert items == [items[0], items[1], items[2]] + [items[3], items[4], items[5]];
    RenderConcat([items[0], items[1], items[2]], [items[3], items[4], items[5]]);
  }

  lemma RenderThree(a: Item, b: Item, c: Item)
    ensures Render([a, b, c]) ==
      Pad(a.value, a.width) + [a.sep] + Pad(b.value, b.width) + [b.sep] + Pad(c.value, c.width) + [c.sep]
  {
    assert [a, b, c][1..] == [b, c] && [b, c][1..] == [c] && [c][1..] == [];
    assert Render([c]) == Pad(c.value, c.width) + [c.sep];
  }

  lemma {:induction false} RenderConcat(a: seq<Item>, b: seq<Item>)
    ensures Render(a + b) == Render(a) + Render(b)
  {
    if a == [] {
      assert a + b == b;
    } else {
      assert (a + b)[1..] == a[1..] + b;
      RenderConcat(a[1..], b);
    }
  }
}
