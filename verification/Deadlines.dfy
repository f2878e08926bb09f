/** Due times are RFC 3339 texts with the trailing zeros of the fraction removed.
    The scan filters by text, each candidate is then checked as an instant.
    internal/infrastructure/persistence/database/integration/provider_worker_deadline.go */
module Deadlines {
  import opened Basics
  import opened Text
  import opened Sorting

  datatype Instant = Instant(year: nat, month: nat, day: nat, hour: nat, minute: nat, second: nat, nano: nat)

  predicate Leap(year: nat) {
    year % 4 == 0 && (year % 100 != 0 || year % 400 == 0)
  }

  function DaysIn(year: nat, month: nat): nat {
    if month == 2 then (if Leap(year) then 29 else 28)
    else if month == 4 || month == 6 || month == 9 || month == 11 then 30 else 31
  }

  /** A UTC instant of the years 0000 to 9999. */
  predicate Valid(t: Instant) {
    && t.year <= 9999 && 1 <= t.month <= 12 && 1 <= t.day <= DaysIn(t.year, t.month)
    && t.hour < 24 && t.minute < 60 && t.second < 60 && t.nano < 1_000_000_000
  }

  function Fields(t: Instant): seq<nat> {
    [t.year, t.month, t.day, t.hour, t.minute, t.second]
  }

  predicate FieldsLess(a: seq<nat>, b: seq<nat>)
    requires |a| == |b|
  {
    a != [] && (a[0] < b[0] || (a[0] == b[0] && FieldsLess(a[1..], b[1..])))
  }

  predicate Before(a: Instant, b: Instant) {
    FieldsLess(Fields(a), Fields(b)) || (Fields(a) == Fields(b) && a.nano < b.nano)
  }

  predicate AtOrBefore(a: Instant, b: Instant) {
    !Before(b, a)
  }

  /** `Truncate(time.Second).Add(time.Second)`. */
  function NextSecond(t: Instant): Instant {
    if t.second < 59 then t.(second := t.second + 1, nano := 0)
    else if t.minute < 59 then t.(minute := t.minute + 1, second := 0, nano := 0)
    else if t.hour < 23 then t.(hour := t.hour + 1, minute := 0, second := 0, nano := 0)
    else if t.day < DaysIn(t.year, t.month) then t.(day := t.day + 1, hour := 0, minute := 0, second := 0, nano := 0)
    else if t.month < 12 then Instant(t.year, t.month + 1, 1, 0, 0, 0, 0)
    else Instant(t.year + 1, 1, 1, 0, 0, 0, 0)
  }

  // ----- rendering -----

  function Pow10(w: nat): nat {
    if w == 0 then 1 else 10 * Pow10(w - 1)
  }

  /** Exactly `w` decimal digits. */
  function Pad(n: nat, w: nat): (r: string)
    ensures |r| == w
  {
    if w == 0 then "" else Pad(n / 10, w - 1) + [Digit(n % 10)]
  }

  const WIDTHS: seq<nat> := [4, 2, 2, 2, 2, 2]
  const SEPARATORS: seq<string> := ["-", "-", "T", ":", ":", ""]

  function Render(fs: seq<nat>, ws: seq<nat>, seps: seq<string>): string
    requires |fs| == |ws| == |seps|
  {
    if fs == [] then "" else Pad(fs[0], ws[0]) + seps[0] + Render(fs[1..], ws[1..], seps[1..])
  }

  /** The second of an instant; a five-digit year is written out. */
  function Stamp(t: Instant): string {
    Render(Fields(t), if t.year <= 9999 then WIDTHS else WIDTHS[0 := |Decimal(t.year)|], SEPARATORS)
  }

  function Digits(n: nat, w: nat): string {
    if w == 0 then "" else if n % 10 == 0 then Digits(n / 10, w - 1) else Pad(n, w)
  }

  function Fraction(nano: nat): string {
    if nano == 0 then "" else "." + Digits(nano, 9)
  }

  /** `Format(time.RFC3339Nano)` in UTC. */
  function Format(t: Instant): string {
    Stamp(t) + (Fraction(t.nano) + "Z")
  }

  function ScanEnd(now: Instant): string {
    Stamp(NextSecond(now))
  }

  // ----- text order of fixed-width numerals -----

  lemma {:induction false} PadLess(n: nat, m: nat, w: nat, x: string, y: string)
    requires n < m < Pow10(w)
    ensures Less(Pad(n, w) + x, Pad(m, w) + y)
  {
    var a, b := [Digit(n % 10)] + x, [Digit(m % 10)] + y;
    assert Pad(n, w) + x == Pad(n / 10, w - 1) + a;
    assert Pad(m, w) + y == Pad(m / 10, w - 1) + b;
    if n / 10 < m / 10 {
      PadLess(n / 10, m / 10, w - 1, a, b);
    } else {
      LessAfterCommonPrefix(Pad(n / 10, w - 1), a, b);
    }
  }

  predicate Fits(fs: seq<nat>, ws: seq<nat>) {
    |fs| == |ws| && forall i :: 0 <= i < |fs| ==> fs[i] < Pow10(ws[i])
  }

  lemma RenderSplit(fs: seq<nat>, ws: seq<nat>, seps: seq<string>, x: string)
    requires |fs| == |ws| == |seps| && fs != []
    ensures Render(fs, ws, seps) + x == Pad(fs[0], ws[0]) + (seps[0] + (Render(fs[1..], ws[1..], seps[1..]) + x))
  {
    Regroup(Pad(fs[0], ws[0]), seps[0], Render(fs[1..], ws[1..], seps[1..]), x);
  }

  lemma Regroup(a: string, b: string, c: string, d: string)
    ensures a + b + c + d == a + (b + (c + d))
  {
  }

  /** Earlier fields, smaller text, whatever follows. */
  lemma {:induction false} RenderLess(a: seq<nat>, b: seq<nat>, ws: seq<nat>, seps: seq<string>, x: string, y: string)
    requires |a| == |b| == |ws| == |seps| && Fits(a, ws) && Fits(b, ws)
    requires FieldsLess(a, b)
    ensures Less(Render(a, ws, seps) + x, Render(b, ws, seps) + y)
    decreases |a|
  {
    var p, q := seps[0] + (Render(a[1..], ws[1..], seps[1..]) + x), seps[0] + (Render(b[1..], ws[1..], seps[1..]) + y);
    RenderSplit(a, ws, seps, x);
    RenderSplit(b, ws, seps, y);
    if a[0] < b[0] {
      PadLess(a[0], b[0], ws[0], p, q);
    } else {
      RenderLess(a[1..], b[1..], ws[1..], seps[1..], x, y);
      LessAfterCommonPrefix(seps[0], Render(a[1..], ws[1..], seps[1..]) + x, Render(b[1..], ws[1..], seps[1..]) + y);
      LessAfterCommonPrefix(Pad(a[0], ws[0]), p, q);
    }
  }

  lemma {:induction false} LessAsymmetric(a: string, b: string)
    requires Less(a, b)
    ensures !Less(b, a)
  {
    if a != "" && a[0] == b[0] {
      LessAsymmetric(a[1..], b[1..]);
    }
  }

  lemma {:induction false} FieldsTotal(a: seq<nat>, b: seq<nat>)
    requires |a| == |b|
    ensures FieldsLess(a, b) || a == b || FieldsLess(b, a)
    ensures !(FieldsLess(a, b) && FieldsLess(b, a)) && !FieldsLess(a, a)
    decreases |a|
  {
    if a != [] {
      FieldsTotal(a[1..], b[1..]);
      FieldsTotal(a[1..], a[1..]);
      assert a == [a[0]] + a[1..] && b == [b[0]] + b[1..];
    }
  }

  lemma StampFits(t: Instant)
    requires Valid(t)
    ensures Fits(Fields(t), WIDTHS)
  {
    assert Pow10(2) == 100 && Pow10(4) == 10_000;
    assert DaysIn(t.year, t.month) <= 31;
  }

  /** The text filter keeps exactly the instants that lie before the scan's second. */
  lemma TextFilterIsBeforeSecond(t: Instant, s: Instant)
    requires Valid(t) && Valid(s)
    ensures Less(Format(t), Stamp(s)) <==> FieldsLess(Fields(t), Fields(s))
  {
    StampFits(t);
    StampFits(s);
    var rest := Fraction(t.nano) + "Z";
    FieldsTotal(Fields(t), Fields(s));
    assert Stamp(s) + "" == Stamp(s);
    if FieldsLess(Fields(t), Fields(s)) {
      RenderLess(Fields(t), Fields(s), WIDTHS, SEPARATORS, rest, "");
    } else if FieldsLess(Fields(s), Fields(t)) {
      RenderLess(Fields(s), Fields(t), WIDTHS, SEPARATORS, "", rest);
      LessAsymmetric(Stamp(s), Format(t));
    } else {
      LessAfterCommonPrefix(Stamp(s), rest, "");
    }
  }

  /** No second lies between one second and the next. */
  lemma NextSecondIsNext(t: Instant, now: Instant)
    requires Valid(t) && Valid(now)
    ensures FieldsLess(Fields(t), Fields(NextSecond(now))) <==> !FieldsLess(Fields(now), Fields(t))
    ensures NextSecond(now).year <= 9999 ==> Valid(NextSecond(now))
  {
    FieldsLess6(t, NextSecond(now));
    FieldsLess6(now, t);
  }

  predicate Earlier6(a: Instant, b: Instant) {
    || a.year < b.year
    || (a.year == b.year && (|| a.month < b.month
    || (a.month == b.month && (|| a.day < b.day
    || (a.day == b.day && (|| a.hour < b.hour
    || (a.hour == b.hour && (|| a.minute < b.minute
    || (a.minute == b.minute && a.second < b.second)))))))))
  }

  lemma FieldsLessCons(h: nat, a: seq<nat>, h': nat, b: seq<nat>)
    requires |a| == |b|
    ensures FieldsLess([h] + a, [h'] + b) <==> h < h' || (h == h' && FieldsLess(a, b))
  {
    assert ([h] + a)[1..] == a && ([h'] + b)[1..] == b;
  }

  lemma FieldsLess6(a: Instant, b: Instant)
    ensures FieldsLess(Fields(a), Fields(b)) <==> Earlier6(a, b)
  {
    var a6, b6 := [a.second], [b.second];
    var a5, b5 := [a.minute] + a6, [b.minute] + b6;
    var a4, b4 := [a.hour] + a5, [b.hour] + b5;
    var a3, b3 := [a.day] + a4, [b.day] + b4;
    var a2, b2 := [a.month] + a3, [b.month] + b3;
    assert Fields(a) == [a.year] + a2 && Fields(b) == [b.year] + b2;
    FieldsLessCons(a.year, a2, b.year, b2);
    FieldsLessCons(a.month, a3, b.month, b3);
    FieldsLessCons(a.day, a4, b.day, b4);
    FieldsLessCons(a.hour, a5, b.hour, b5);
    FieldsLessCons(a.minute, a6, b.minute, b6);
  }

  predicate LastSecond(t: Instant) {
    t.year == 9999 && t.month == 12 && t.day == 31 && t.hour == 23 && t.minute == 59 && t.second == 59
  }

  /** The scan passes a row exactly when its second is not after the current one. */
  lemma ScanIsWholeSecond(t: Instant, now: Instant)
    requires Valid(t) && Valid(now) && !LastSecond(now)
    ensures Less(Format(t), ScanEnd(now)) <==> !FieldsLess(Fields(now), Fields(t))
  {
    NextSecondIsNext(t, now);
    TextFilterIsBeforeSecond(t, NextSecond(now));
  }

  /** No due row is missed, except in the very last second of the year 9999, when every row is. */
  lemma FilterMissesNothingIff(now: Instant)
    requires Valid(now)
    ensures (forall t :: Valid(t) && AtOrBefore(t, now) ==> Less(Format(t), ScanEnd(now))) <==> !LastSecond(now)
  {
    if LastSecond(now) {
      LastSecondMissesItself(now);
    } else {
      forall t | Valid(t) && AtOrBefore(t, now) ensures Less(Format(t), ScanEnd(now)) {
        ScanIsWholeSecond(t, now);
      }
    }
  }

  lemma FourDigitYear()
    ensures Pad(9999, 4)[0] == '9'
  {
    assert Pad(9, 1) == "9" && Pad(99, 2)[0] == '9' && Pad(999, 3)[0] == '9';
  }

  lemma FiveDigitYear()
    ensures Pad(10_000, 5)[0] == '1'
  {
    assert Pad(1, 1) == "1" && Pad(10, 2)[0] == '1' && Pad(100, 3)[0] == '1' && Pad(1000, 4)[0] == '1';
  }

  lemma FiveDigits()
    ensures |Decimal(10_000)| == 5
  {
    assert |Decimal(1)| == 1 && |Decimal(10)| == 2 && |Decimal(100)| == 3 && |Decimal(1000)| == 4;
  }

  lemma StampStartsWith(t: Instant, w: nat)
    requires w > 0 && w == if t.year <= 9999 then 4 else |Decimal(t.year)|
    ensures Stamp(t) != "" && Stamp(t)[0] == Pad(t.year, w)[0]
  {
    assert Pad(t.year, w) == Pad(t.year, w)[..];
  }

  lemma LastSecondMissesItself(now: Instant)
    requires Valid(now) && LastSecond(now)
    ensures AtOrBefore(now, now) && !Less(Format(now), ScanEnd(now))
  {
    FieldsTotal(Fields(now), Fields(now));
    FourDigitYear();
    FiveDigitYear();
    FiveDigits();
    StampStartsWith(now, 4);
    StampStartsWith(NextSecond(now), 5);
    assert Format(now)[0] == Stamp(now)[0];
  }

  // ----- parsing -----

  predicate IsDigit(c: char) {
    '0' <= c <= '9'
  }

  function Value(s: string): nat
    requires forall i :: 0 <= i < |s| ==> IsDigit(s[i])
  {
    if s == "" then 0
    else
      var last := s[|s| - 1];
      assert IsDigit(last);
      10 * Value(s[..|s| - 1]) + (last as int - '0' as int)
  }

  predicate AllDigits(s: string) {
    forall i :: 0 <= i < |s| ==> IsDigit(s[i])
  }

  lemma {:induction false} PadValue(n: nat, w: nat)
    requires n < Pow10(w)
    ensures AllDigits(Pad(n, w)) && Value(Pad(n, w)) == n
  {
    if w > 0 {
      PadValue(n / 10, w - 1);
      assert Pad(n, w)[..w - 1] == Pad(n / 10, w - 1);
    }
  }

  /** Reads the fixed-width fields off a text and returns what follows them. */
  function ParseFields(s: string, ws: seq<nat>, seps: seq<string>): Option<(seq<nat>, string)>
    requires |ws| == |seps|
    decreases |ws|
  {
    if ws == [] then Some(([], s))
    else if |s| < ws[0] + |seps[0]| || !AllDigits(s[..ws[0]]) || s[ws[0]..ws[0] + |seps[0]|] != seps[0] then None
    else
      match ParseFields(s[ws[0] + |seps[0]|..], ws[1..], seps[1..])
      case None => None
      case Some((fs, rest)) => Some(([Value(s[..ws[0]])] + fs, rest))
  }

  function ParseFraction(s: string): Option<nat> {
    if s == "Z" then Some(0)
    else if 3 <= |s| <= 11 && s[0] == '.' && s[|s| - 1] == 'Z' && AllDigits(s[1..|s| - 1])
    then Some(Value(s[1..|s| - 1]) * Pow10(11 - |s|)) else None
  }

  /** `time.Parse(time.RFC3339Nano, s)` on UTC texts. */
  function Parse(s: string): (r: Option<Instant>)
    ensures r.Some? ==> Valid(r.value)
  {
    match ParseFields(s, WIDTHS, SEPARATORS)
    case None => None
    case Some((fs, rest)) =>
      match ParseFraction(rest)
      case None => None
      case Some(nano) =>
        if |fs| == 6 && Valid(Instant(fs[0], fs[1], fs[2], fs[3], fs[4], fs[5], nano))
        then Some(Instant(fs[0], fs[1], fs[2], fs[3], fs[4], fs[5], nano)) else None
  }

  lemma ParseStep(digits: string, tail: string, ws: seq<nat>, seps: seq<string>, fs: seq<nat>, rest: string)
    requires |ws| == |seps| && ws != [] && |digits| == ws[0] && AllDigits(digits)
    requires ParseFields(tail, ws[1..], seps[1..]) == Some((fs, rest))
    ensures ParseFields(digits + (seps[0] + tail), ws, seps) == Some(([Value(digits)] + fs, rest))
  {
    var s := digits + (seps[0] + tail);
    assert s[..ws[0]] == digits && s[ws[0]..ws[0] + |seps[0]|] == seps[0] && s[ws[0] + |seps[0]|..] == tail;
  }

  lemma {:induction false} ParseRendered(fs: seq<nat>, ws: seq<nat>, seps: seq<string>, rest: string)
    requires |ws| == |seps| && Fits(fs, ws)
    ensures ParseFields(Render(fs, ws, seps) + rest, ws, seps) == Some((fs, rest))
    decreases |fs|
  {
    if fs == [] {
      assert Render(fs, ws, seps) + rest == rest;
    } else {
      PadValue(fs[0], ws[0]);
      RenderSplit(fs, ws, seps, rest);
      ParseRendered(fs[1..], ws[1..], seps[1..], rest);
      ParseStep(Pad(fs[0], ws[0]), Render(fs[1..], ws[1..], seps[1..]) + rest, ws, seps, fs[1..], rest);
      assert fs == [fs[0]] + fs[1..];
    }
  }

  /** The number left when the trailing zeros are removed. */
  function Core(n: nat, w: nat): nat {
    if w > 0 && n % 10 == 0 then Core(n / 10, w - 1) else n
  }

  lemma TimesTen(c: nat, p: nat, n: nat)
    requires c * p == n / 10 && n % 10 == 0
    ensures c * (10 * p) == n
  {
    assert c * (10 * p) == 10 * (c * p);
  }

  /** Removing trailing zeros keeps the value, shifted by what was removed. */
  lemma {:induction false} DigitsCore(n: nat, w: nat)
    requires 0 < n < Pow10(w)
    ensures 0 < |Digits(n, w)| <= w && 0 < Core(n, w) < Pow10(|Digits(n, w)|)
    ensures Digits(n, w) == Pad(Core(n, w), |Digits(n, w)|)
    ensures Core(n, w) * Pow10(w - |Digits(n, w)|) == n
  {
    if n % 10 == 0 {
      DigitsCore(n / 10, w - 1);
      TimesTen(Core(n, w), Pow10(w - 1 - |Digits(n, w)|), n);
    } else {
      assert Core(n, w) == n && Pow10(0) == 1;
    }
  }

  lemma DigitsValue(n: nat, w: nat)
    requires 0 < n < Pow10(w)
    ensures 0 < |Digits(n, w)| <= w && AllDigits(Digits(n, w))
    ensures Value(Digits(n, w)) * Pow10(w - |Digits(n, w)|) == n
  {
    DigitsCore(n, w);
    PadValue(Core(n, w), |Digits(n, w)|);
  }

  lemma ParseFractionOf(nano: nat)
    requires nano < 1_000_000_000
    ensures ParseFraction(Fraction(nano) + "Z") == Some(nano)
  {
    if nano > 0 {
      assert Pow10(9) == 1_000_000_000 by { assert Pow10(3) == 1000 && Pow10(6) == 1_000_000; }
      DigitsValue(nano, 9);
      var s := Fraction(nano) + "Z";
      assert s[1..|s| - 1] == Digits(nano, 9);
    }
  }

  /** What the worker writes, it reads back as the same instant. */
  lemma FormatRoundTrip(t: Instant)
    requires Valid(t)
    ensures Parse(Format(t)) == Some(t)
  {
    StampFits(t);
    ParseRendered(Fields(t), WIDTHS, SEPARATORS, Fraction(t.nano) + "Z");
    ParseFractionOf(t.nano);
  }

  // ----- the scan -----

  datatype Row = Row(id: string, eligible: bool, due: string, lease: string)

  datatype Readiness = Invalid | Ready(ready: bool)

  function DeadlineReady(due: string, lease: string, now: Instant): Readiness {
    match Parse(due)
    case None => Invalid
    case Some(t) =>
      if !AtOrBefore(t, now) then Ready(false)
      else if lease == "" then Ready(true)
      else match Parse(lease)
        case None => Invalid
        case Some(expiry) => Ready(AtOrBefore(expiry, now))
  }

  predicate Passes(row: Row, end: string) {
    row.eligible && Less(row.due, end) && (row.lease == "" || Less(row.lease, end))
  }

  function Keep(rows: seq<Row>, p: Row -> bool): seq<Row> {
    if rows == [] then [] else (if p(rows[0]) then [rows[0]] else []) + Keep(rows[1..], p)
  }

  function PassesBefore(end: string): Row -> bool {
    (r: Row) => Passes(r, end)
  }

  function Scanned(table: seq<Row>, end: string): seq<Row> {
    Keep(table, PassesBefore(end))
  }

  /** A stored row: its times are what `Format` wrote. */
  ghost predicate Stored(row: Row) {
    && (exists t :: Valid(t) && row.due == Format(t))
    && (row.lease == "" || exists t :: Valid(t) && row.lease == Format(t))
  }

  predicate Due(row: Row, now: Instant) {
    row.eligible && DeadlineReady(row.due, row.lease, now) == Ready(true)
  }

  function ReadinessAt(now: Instant): Row -> Readiness {
    (r: Row) => DeadlineReady(r.due, r.lease, now)
  }

  function ReadyBy(readiness: Row -> Readiness): Row -> bool {
    (r: Row) => r.eligible && readiness(r) == Ready(true)
  }

  function DueAt(now: Instant): Row -> bool {
    ReadyBy(ReadinessAt(now))
  }

  function DueRows(table: seq<Row>, now: Instant): seq<Row> {
    Keep(table, DueAt(now))
  }

  /** A stored time parses, and sorts below the scan end unless it is after now. */
  lemma StoredTimePasses(t: Instant, now: Instant)
    requires Valid(t) && Valid(now)
    ensures Parse(Format(t)) == Some(t)
    ensures !LastSecond(now) && AtOrBefore(t, now) ==> Less(Format(t), ScanEnd(now))
  {
    FormatRoundTrip(t);
    if !LastSecond(now) { ScanIsWholeSecond(t, now); }
  }

  lemma DueRowPasses(row: Row, now: Instant)
    requires Stored(row) && Valid(now)
    ensures !LastSecond(now) && Due(row, now) ==> Passes(row, ScanEnd(now))
    ensures DeadlineReady(row.due, row.lease, now) != Invalid
  {
    var t :| Valid(t) && row.due == Format(t);
    StoredTimePasses(t, now);
    if row.lease != "" {
      var e :| Valid(e) && row.lease == Format(e);
      StoredTimePasses(e, now);
    }
  }

  lemma {:induction false} KeepTwice(rows: seq<Row>, p: Row -> bool, q: Row -> bool)
    requires forall i :: 0 <= i < |rows| && q(rows[i]) ==> p(rows[i])
    ensures Keep(Keep(rows, p), q) == Keep(rows, q)
  {
    if rows != [] {
      KeepTwice(rows[1..], p, q);
      var rest := Keep(rows[1..], p);
      if p(rows[0]) {
        assert ([rows[0]] + rest)[1..] == rest;
      } else {
        assert [] + rest == rest;
      }
    }
  }

  lemma {:induction false} KeepSnoc(rows: seq<Row>, row: Row, p: Row -> bool)
    ensures Keep(rows + [row], p) == Keep(rows, p) + if p(row) then [row] else []
  {
    if rows == [] {
      assert [row][1..] == [] && [] + [row] == [row];
    } else {
      assert (rows + [row])[1..] == rows[1..] + [row];
      KeepSnoc(rows[1..], row, p);
      var head, last := if p(rows[0]) then [rows[0]] else [], if p(row) then [row] else [];
      assert head + (Keep(rows[1..], p) + last) == (head + Keep(rows[1..], p)) + last;
    }
  }

  lemma {:induction false} KeepMembers(rows: seq<Row>, p: Row -> bool)
    ensures forall i :: 0 <= i < |Keep(rows, p)| ==> Keep(rows, p)[i] in rows && p(Keep(rows, p)[i])
  {
    if rows != [] {
      KeepMembers(rows[1..], p);
    }
  }

  /** Text scan and instant recheck together select exactly the due rows. */
  lemma RecheckedScanIsDue(table: seq<Row>, now: Instant)
    requires Valid(now) && !LastSecond(now)
    requires forall i :: 0 <= i < |table| && table[i].eligible ==> Stored(table[i])
    ensures DueRows(Scanned(table, ScanEnd(now)), now) == DueRows(table, now)
  {
    forall i | 0 <= i < |table| && DueAt(now)(table[i]) ensures PassesBefore(ScanEnd(now))(table[i]) {
      DueRowPasses(table[i], now);
    }
    KeepTwice(table, PassesBefore(ScanEnd(now)), DueAt(now));
  }

  /** The loop over scanned rows: recheck each one, stop at a time that does not parse. */
  method KeepReady(rows: seq<Row>, readiness: Row -> Readiness) returns (candidates: Option<seq<Row>>)
    requires forall i :: 0 <= i < |rows| ==> rows[i].eligible
    ensures candidates.None? <==> exists i :: 0 <= i < |rows| && readiness(rows[i]) == Invalid
    ensures candidates.Some? ==> candidates.value == Keep(rows, ReadyBy(readiness))
  {
    var kept: seq<Row> := [];
    for i := 0 to |rows|
      invariant kept == Keep(rows[..i], ReadyBy(readiness))
      invariant forall j :: 0 <= j < i ==> readiness(rows[j]) != Invalid
    {
      assert rows[..i + 1] == rows[..i] + [rows[i]];
      KeepSnoc(rows[..i], rows[i], ReadyBy(readiness));
      match readiness(rows[i]) {
        case Invalid => return None;
        case Ready(ready) =>
          if ready {
            kept := kept + [rows[i]];
          }
      }
    }
    assert rows[..|rows|] == rows;
    candidates := Some(kept);
  }

  /** The order of the scan; rows due at the same text come in any order. */
  function DueFirst(): (Row, Row) -> bool {
    (a: Row, b: Row) => Less(a.due, b.due)
  }

  lemma DueFirstIsWeak()
    ensures WeakOrder(DueFirst())
  {
    forall a: Row, b: Row ensures !(DueFirst()(a, b) && DueFirst()(b, a)) {
      if Less(a.due, b.due) { LessAsymmetric(a.due, b.due); }
    }
    forall a: Row, b: Row, c: Row | !DueFirst()(a, b) && !DueFirst()(b, c) ensures !DueFirst()(a, c) {
      LessIsTotal(a.due, b.due);
      LessIsTotal(b.due, c.due);
      if Less(a.due, c.due) && Less(b.due, a.due) { LessIsTransitive(b.due, a.due, c.due); }
    }
  }

  lemma {:induction false} KeepCounts(rows: seq<Row>, p: Row -> bool, row: Row)
    ensures multiset(Keep(rows, p))[row] == if p(row) then multiset(rows)[row] else 0
  {
    if rows != [] {
      KeepCounts(rows[1..], p, row);
      assert rows == [rows[0]] + rows[1..];
    }
  }

  lemma KeepPermutes(a: seq<Row>, b: seq<Row>, p: Row -> bool)
    requires multiset(a) == multiset(b)
    ensures multiset(Keep(a, p)) == multiset(Keep(b, p))
  {
    forall row ensures multiset(Keep(a, p))[row] == multiset(Keep(b, p))[row] {
      KeepCounts(a, p, row);
      KeepCounts(b, p, row);
    }
  }

  /** What LIMIT leaves. */
  function Cut(rows: seq<Row>, limit: nat): seq<Row> {
    if |rows| > limit then rows[..limit] else rows
  }

  /** The rows passed the scan, come in due order and are cut at the limit. */
  ghost predicate Selected(table: seq<Row>, end: string, limit: nat, rows: seq<Row>) {
    exists ordered :: InDueOrder(table, end, ordered) && rows == Cut(ordered, limit)
  }

  ghost predicate InDueOrder(table: seq<Row>, end: string, ordered: seq<Row>) {
    multiset(ordered) == multiset(Scanned(table, end)) && Sorted(ordered, DueFirst())
  }

  lemma ScanParses(table: seq<Row>, now: Instant, row: Row)
    requires Valid(now) && (forall i :: 0 <= i < |table| && table[i].eligible ==> Stored(table[i])) && row in Scanned(table, ScanEnd(now))
    ensures row.eligible && ReadinessAt(now)(row) != Invalid
  {
    KeepMembers(table, PassesBefore(ScanEnd(now)));
    DueRowPasses(row, now);
  }

  function ScanLimit(limit: int): nat {
    if limit <= 0 || limit > 500 then 25 else limit
  }

  /** Scan in due order, cut at the limit, recheck. The cut comes before the recheck, so
      only an uncut scan finds every due row. */
  method SelectCandidates(table: seq<Row>, now: Instant, requested: int) returns (candidates: Option<seq<Row>>)
    requires Valid(now)
    requires forall i :: 0 <= i < |table| && table[i].eligible ==> Stored(table[i])
    ensures candidates.Some?
    ensures exists rows :: Selected(table, ScanEnd(now), ScanLimit(requested), rows) && candidates.value == DueRows(rows, now)
    ensures !LastSecond(now) && |Scanned(table, ScanEnd(now))| <= ScanLimit(requested) ==> multiset(candidates.value) == multiset(DueRows(table, now))
  {
    var end, limit := ScanEnd(now), ScanLimit(requested);
    var ordered := Sort(Scanned(table, end), DueFirst());
    DueFirstIsWeak();
    SortSorts(Scanned(table, end), DueFirst());
    SameMultisetSameElements(ordered, Scanned(table, end));
    assert InDueOrder(table, end, ordered);
    var rows := Cut(ordered, limit);
    assert Selected(table, end, limit, rows);
    forall i | 0 <= i < |rows| ensures rows[i].eligible && ReadinessAt(now)(rows[i]) != Invalid {
      assert rows[i] == ordered[i];
      ScanParses(table, now, rows[i]);
    }
    candidates := KeepReady(rows, ReadinessAt(now));
    if !LastSecond(now) {
      RecheckedScanIsDue(table, now);
      KeepPermutes(ordered, Scanned(table, end), DueAt(now));
    }
    assert |ordered| == |multiset(ordered)| == |multiset(Scanned(table, end))| == |Scanned(table, end)|;
  }

  // ----- why the naive comparison is not used -----

  /** With equally long fractions text order is instant order (RFC 3339, section 5.1). */
  lemma EqualFractionsOrder(a: Instant, b: Instant)
    requires Valid(a) && Valid(b) && |Fraction(a.nano)| == |Fraction(b.nano)|
    ensures Less(Format(a), Format(b)) <==> Before(a, b)
  {
    StampFits(a);
    StampFits(b);
    var x, y := Fraction(a.nano) + "Z", Fraction(b.nano) + "Z";
    FieldsTotal(Fields(a), Fields(b));
    if FieldsLess(Fields(a), Fields(b)) {
      RenderLess(Fields(a), Fields(b), WIDTHS, SEPARATORS, x, y);
    } else if FieldsLess(Fields(b), Fields(a)) {
      RenderLess(Fields(b), Fields(a), WIDTHS, SEPARATORS, y, x);
      LessAsymmetric(Format(b), Format(a));
    } else {
      LessAfterCommonPrefix(Stamp(a), x, y);
      FractionOrder(a.nano, b.nano);
    }
  }

  lemma FractionShape(n: nat)
    requires 0 < n < 1_000_000_000
    ensures var k := |Digits(n, 9)|;
            && 0 < k <= 9 && Core(n, 9) < Pow10(k) && Core(n, 9) * Pow10(9 - k) == n
            && Fraction(n) + "Z" == "." + (Pad(Core(n, 9), k) + "Z")
  {
    assert Pow10(9) == 1_000_000_000 by { assert Pow10(3) == 1000 && Pow10(6) == 1_000_000; }
    DigitsCore(n, 9);
  }

  lemma PadOrder(p: nat, q: nat, k: nat)
    requires p < Pow10(k) && q < Pow10(k)
    ensures Less(Pad(p, k) + "Z", Pad(q, k) + "Z") <==> p < q
  {
    if p < q {
      PadLess(p, q, k, "Z", "Z");
    } else if q < p {
      PadLess(q, p, k, "Z", "Z");
      LessAsymmetric(Pad(q, k) + "Z", Pad(p, k) + "Z");
    } else {
      LessIsIrreflexive(Pad(p, k) + "Z");
    }
  }

  lemma FractionOrder(m: nat, n: nat)
    requires m < 1_000_000_000 && n < 1_000_000_000 && |Fraction(m)| == |Fraction(n)|
    ensures Less(Fraction(m) + "Z", Fraction(n) + "Z") <==> m < n
  {
    if m > 0 && n > 0 {
      FractionShape(m);
      FractionShape(n);
      var k, p, q := |Digits(m, 9)|, Core(m, 9), Core(n, 9);
      LessAfterCommonPrefix(".", Pad(p, k) + "Z", Pad(q, k) + "Z");
      PadOrder(p, q, k);
      ScaledOrder(p, q, Pow10(9 - k), m, n);
    } else {
      LessIsIrreflexive(Fraction(m) + "Z");
    }
  }

  lemma ScaledOrder(p: nat, q: nat, s: nat, m: nat, n: nat)
    requires s > 0 && m == p * s && n == q * s
    ensures p < q <==> m < n
  {
    if p < q {
      assert (q - p) * s > 0;
    } else {
      assert (p - q) * s >= 0;
    }
  }

  /** Without equal lengths it is not: .123 s is due at .1231 s, and its text sorts after. */
  lemma NaiveOrderMissesDueRow(a: Instant, b: Instant)
    requires Valid(a) && a.nano == 123_000_000 && b == a.(nano := 123_100_000)
    ensures Before(a, b) && Less(Format(b), Format(a))
  {
    FieldsTotal(Fields(a), Fields(b));
    FractionDigits();
    LessAfterCommonPrefix(Stamp(a), ".1231Z", ".123Z");
    LessAfterCommonPrefix(".123", "1Z", "Z");
    assert ".123" + "1Z" == ".1231Z" && ".123" + "Z" == ".123Z" && ".1231" + "Z" == ".1231Z";
    assert Fields(b) == Fields(a) && Format(b) == Stamp(a) + ".1231Z" && Format(a) == Stamp(a) + ".123Z";
  }

  lemma FractionDigits()
    ensures Fraction(123_000_000) == ".123" && Fraction(123_100_000) == ".1231"
  {
    assert Pad(123, 3) == "123" by { assert Pad(1, 1) == "1" && Pad(12, 2) == "12"; }
    assert Pad(1231, 4) == "1231" by { assert Pad(123, 3) == "123"; }
    assert Digits(123, 3) == "123" && Digits(1230, 4) == "123" && Digits(12_300, 5) == "123" && Digits(123_000, 6) == "123";
    assert Digits(1_230_000, 7) == "123" && Digits(12_300_000, 8) == "123" && Digits(123_000_000, 9) == "123";
    assert Digits(1231, 4) == "1231" && Digits(12_310, 5) == "1231" && Digits(123_100, 6) == "1231";
    assert Digits(1_231_000, 7) == "1231" && Digits(12_310_000, 8) == "1231" && Digits(123_100_000, 9) == "1231";
  }
}
