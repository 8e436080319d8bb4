/** The coordinator's timestamp strings: sortable as text, and readable back. */
module Timestamp {
  import opened Order
  import opened Wrappers

  /** A UTC `datetime` without time zone. */
  datatype DateTime = DateTime(year: nat, month: nat, day: nat, hour: nat, minute: nat, second: nat, micro: nat)

  predicate IsLeap(year: nat) {
    year % 4 == 0 && (year % 100 != 0 || year % 400 == 0)
  }

  function MonthLength(year: nat, month: nat): nat {
    if month == 2 then (if IsLeap(year) then 29 else 28)
    else if month in {4, 6, 9, 11} then 30
    else 31
  }

  function YearLength(year: nat): nat {
    if IsLeap(year) then 366 else 365
  }

  /** A point in time whose year has four digits. */
  predicate Valid(d: DateTime) {
    && 1000 <= d.year < 10000 && 1 <= d.month <= 12 && 1 <= d.day <= MonthLength(d.year, d.month)
    && d.hour < 24 && d.minute < 60 && d.second < 60 && d.micro < 1000000
  }

  function DaysBeforeYear(year: nat): nat {
    if year == 0 then 0 else DaysBeforeYear(year - 1) + YearLength(year - 1)
  }

  function DaysBeforeMonth(year: nat, month: nat): nat {
    if month <= 1 then 0 else DaysBeforeMonth(year, month - 1) + MonthLength(year, month - 1)
  }

  /** Days, and then microseconds, on the proleptic calendar. */
  function DayNumber(d: DateTime): nat {
    DaysBeforeYear(d.year) + DaysBeforeMonth(d.year, d.month) + d.day
  }

  function Instant(d: DateTime): nat {
    ((DayNumber(d) * 24 + d.hour) * 60 + d.minute) * 60 * 1000000 + d.second * 1000000 + d.micro
  }

  /** The fields of `_timestamp_format`: width and the character that follows. */
  datatype Field = Field(width: nat, mark: char)

  const SHAPE: seq<Field> :=
    [Field(4, '-'), Field(2, '-'), Field(2, ' '), Field(2, ':'), Field(2, ':'), Field(2, '.'), Field(6, 'Z')]

  function Values(d: DateTime): seq<nat> {
    [d.year, d.month, d.day, d.hour, d.minute, d.second, d.micro]
  }

  function Digit(n: nat): char
    requires n < 10
  {
    (48 + n) as char
  }

  function Pow10(w: nat): nat {
    if w == 0 then 1 else 10 * Pow10(w - 1)
  }

  /** Decimal digits of `n`, padded with zeros to width `w`. */
  function Pad(n: nat, w: nat): (s: string)
    ensures |s| == w
  {
    if w == 0 then "" else Pad(n / 10, w - 1) + [Digit(n % 10)]
  }

  predicate Fits(vals: seq<nat>, shape: seq<Field>) {
    |vals| == |shape| && forall i :: 0 <= i < |vals| ==> vals[i] < Pow10(shape[i].width)
  }

  function Render(vals: seq<nat>, shape: seq<Field>): string
    requires |vals| == |shape|
  {
    if vals == [] then "" else Pad(vals[0], shape[0].width) + [shape[0].mark] + Render(vals[1..], shape[1..])
  }

  /** `strftime` with the coordinator's format. */
  function Format(d: DateTime): string {
    Render(Values(d), SHAPE)
  }

  /** The value of a string of digits. */
  function Number(s: string): Option<nat> {
    if s == "" then Some(0)
    else if '0' <= s[|s| - 1] <= '9' && Number(s[..|s| - 1]).Some? then
      Some(Number(s[..|s| - 1]).value * 10 + (s[|s| - 1] as int - 48))
    else None
  }

  function Scan(s: string, shape: seq<Field>): Option<seq<nat>> {
    if shape == [] then (if s == "" then Some([]) else None)
    else
      var w := shape[0].width;
      if |s| <= w || s[w] != shape[0].mark then None
      else
        var n, rest := Number(s[..w]), Scan(s[w + 1..], shape[1..]);
        if n.Some? && rest.Some? then Some([n.value] + rest.value) else None
  }

  /** `strptime` with the coordinator's format, on full-width fields. */
  function Parse(s: string): Option<DateTime> {
    var v := Scan(s, SHAPE);
    if v.Some? && |v.value| == 7 then
      var d := DateTime(v.value[0], v.value[1], v.value[2], v.value[3], v.value[4], v.value[5], v.value[6]);
      if Valid(d) then Some(d) else None
    else None
  }

  // ----- order -----

  lemma {:induction false} LessAppend(x: string, y: string, s: string, t: string)
    requires |x| == |y|
    ensures Less(x + s, y + t) <==> Less(x, y) || (x == y && Less(s, t))
  {
    if x == [] {
      assert x + s == s && y + t == t;
    } else {
      assert (x + s)[1..] == x[1..] + s && (y + t)[1..] == y[1..] + t;
      LessAppend(x[1..], y[1..], s, t);
      assert x == [x[0]] + x[1..] && y == [y[0]] + y[1..];
    }
  }

  lemma {:induction false} PadOrder(a: nat, b: nat, w: nat)
    requires a < Pow10(w) && b < Pow10(w)
    ensures Less(Pad(a, w), Pad(b, w)) <==> a < b
    ensures Pad(a, w) == Pad(b, w) <==> a == b
  {
    if w > 0 {
      PadOrder(a / 10, b / 10, w - 1);
      LessAppend(Pad(a / 10, w - 1), Pad(b / 10, w - 1), [Digit(a % 10)], [Digit(b % 10)]);
      var p, q := Pad(a, w), Pad(b, w);
      assert p[..w - 1] == Pad(a / 10, w - 1) && q[..w - 1] == Pad(b / 10, w - 1);
      assert p[w - 1] == Digit(a % 10) && q[w - 1] == Digit(b % 10);
    }
  }

  /** Python's order on tuples of the same length. */
  predicate ValuesLess(a: seq<nat>, b: seq<nat>)
    requires |a| == |b|
  {
    a != [] && (a[0] < b[0] || (a[0] == b[0] && ValuesLess(a[1..], b[1..])))
  }

  lemma {:induction false} RenderOrder(a: seq<nat>, b: seq<nat>, shape: seq<Field>)
    requires Fits(a, shape) && Fits(b, shape)
    ensures Less(Render(a, shape), Render(b, shape)) <==> ValuesLess(a, b)
  {
    if a != [] {
      var w, m := shape[0].width, [shape[0].mark];
      PadOrder(a[0], b[0], w);
      RenderOrder(a[1..], b[1..], shape[1..]);
      var ra, rb := Render(a[1..], shape[1..]), Render(b[1..], shape[1..]);
      LessAppend(Pad(a[0], w) + m, Pad(b[0], w) + m, ra, rb);
      LessAppend(Pad(a[0], w), Pad(b[0], w), m, m);
      LessIrreflexive(m);
      assert Pad(a[0], w) + m == Pad(b[0], w) + m ==> Pad(a[0], w) == (Pad(a[0], w) + m)[..w] == Pad(b[0], w) by {
        assert (Pad(b[0], w) + m)[..w] == Pad(b[0], w);
      }
    }
  }

  lemma ShapeWidths()
    ensures Pow10(2) == 100 && Pow10(4) == 10000 && Pow10(6) == 1000000
  {
    assert Pow10(1) == 10 && Pow10(3) == 1000 && Pow10(5) == 100000;
  }

  lemma ValidFits(d: DateTime)
    requires Valid(d)
    ensures Fits(Values(d), SHAPE)
  {
    ShapeWidths();
    assert d.day <= 31;
  }

  lemma {:induction false} YearsBefore(a: nat, b: nat)
    requires a < b
    ensures DaysBeforeYear(a) + YearLength(a) <= DaysBeforeYear(b)
  {
    if a + 1 < b {
      YearsBefore(a, b - 1);
    }
  }

  lemma {:induction false} MonthsBefore(year: nat, a: nat, b: nat)
    requires 1 <= a < b
    ensures DaysBeforeMonth(year, a) + MonthLength(year, a) <= DaysBeforeMonth(year, b)
  {
    if a + 1 < b {
      MonthsBefore(year, a, b - 1);
    }
  }

  lemma WithinYear(year: nat, month: nat)
    requires 1 <= month <= 12
    ensures DaysBeforeMonth(year, month) + MonthLength(year, month) <= YearLength(year)
  {
    if month < 12 {
      MonthsBefore(year, month, 12);
    }
    DecemberEnds(year);
  }

  lemma DecemberEnds(year: nat)
    ensures DaysBeforeMonth(year, 12) + MonthLength(year, 12) == YearLength(year)
  {
    assert DaysBeforeMonth(year, 2) == 31;
    assert DaysBeforeMonth(year, 3) == 31 + MonthLength(year, 2);
    assert DaysBeforeMonth(year, 4) == DaysBeforeMonth(year, 3) + 31;
    assert DaysBeforeMonth(year, 5) == DaysBeforeMonth(year, 3) + 61;
    assert DaysBeforeMonth(year, 6) == DaysBeforeMonth(year, 3) + 92;
    assert DaysBeforeMonth(year, 7) == DaysBeforeMonth(year, 3) + 122;
    assert DaysBeforeMonth(year, 8) == DaysBeforeMonth(year, 3) + 153;
    assert DaysBeforeMonth(year, 9) == DaysBeforeMonth(year, 3) + 184;
    assert DaysBeforeMonth(year, 10) == DaysBeforeMonth(year, 3) + 214;
    assert DaysBeforeMonth(year, 11) == DaysBeforeMonth(year, 3) + 245;
    assert DaysBeforeMonth(year, 12) == DaysBeforeMonth(year, 3) + 275;
  }

  predicate DateLess(a: DateTime, b: DateTime) {
    a.year < b.year || (a.year == b.year && (a.month < b.month || (a.month == b.month && a.day < b.day)))
  }

  lemma DateOrder(a: DateTime, b: DateTime)
    requires Valid(a) && Valid(b) && DateLess(a, b)
    ensures DayNumber(a) < DayNumber(b)
  {
    WithinYear(a.year, a.month);
    if a.year < b.year {
      YearsBefore(a.year, b.year);
    } else if a.month < b.month {
      MonthsBefore(a.year, a.month, b.month);
    }
  }

  lemma InstantOrder(a: DateTime, b: DateTime)
    requires Valid(a) && Valid(b) && ValuesLess(Values(a), Values(b))
    ensures Instant(a) < Instant(b)
  {
    ValuesUnfold(a, b);
    if DateLess(a, b) {
      DateOrder(a, b);
    } else if DateLess(b, a) {
      DateOrder(b, a);
    }
  }

  predicate FieldsLess(a: DateTime, b: DateTime) {
    DateLess(a, b) || (a.year == b.year && a.month == b.month && a.day == b.day && TimeLess(a, b))
  }

  lemma ValuesCons(p: nat, q: nat, s: seq<nat>, t: seq<nat>)
    requires |s| == |t|
    ensures ValuesLess([p] + s, [q] + t) <==> p < q || (p == q && ValuesLess(s, t))
  {
    assert ([p] + s)[1..] == s && ([q] + t)[1..] == t;
  }

  function TimeOf(d: DateTime): seq<nat> {
    [d.hour, d.minute, d.second, d.micro]
  }

  predicate TimeLess(a: DateTime, b: DateTime) {
    a.hour < b.hour || (a.hour == b.hour && (a.minute < b.minute || (a.minute == b.minute &&
                        (a.second < b.second || (a.second == b.second && a.micro < b.micro)))))
  }

  lemma TimeUnfold(a: DateTime, b: DateTime)
    ensures ValuesLess(TimeOf(a), TimeOf(b)) <==> TimeLess(a, b)
  {
    hide ValuesLess;
    var x, y := TimeOf(a), TimeOf(b);
    ValuesNone();
    ValuesCons(a.micro, b.micro, [], []);
    ValuesCons(a.second, b.second, [a.micro], [b.micro]);
    ValuesCons(a.minute, b.minute, x[2..], y[2..]);
    ValuesCons(a.hour, b.hour, x[1..], y[1..]);
    assert x == [a.hour] + x[1..] && x[1..] == [a.minute] + x[2..] && x[2..] == [a.second] + [a.micro];
    assert y == [b.hour] + y[1..] && y[1..] == [b.minute] + y[2..] && y[2..] == [b.second] + [b.micro];
    assert [a.micro] == [a.micro] + [] && [b.micro] == [b.micro] + [];
  }

  lemma ValuesNone()
    ensures !ValuesLess([], [])
  {
  }

  lemma ValuesUnfold(a: DateTime, b: DateTime)
    ensures ValuesLess(Values(a), Values(b)) <==> FieldsLess(a, b)
  {
    hide ValuesLess;
    var x, y := Values(a), Values(b);
    TimeUnfold(a, b);
    ValuesCons(a.day, b.day, x[3..], y[3..]);
    ValuesCons(a.month, b.month, x[2..], y[2..]);
    ValuesCons(a.year, b.year, x[1..], y[1..]);
    assert x == [a.year] + x[1..] && x[1..] == [a.month] + x[2..] && x[2..] == [a.day] + x[3..];
    assert y == [b.year] + y[1..] && y[1..] == [b.month] + y[2..] && y[2..] == [b.day] + y[3..];
    assert x[3..] == TimeOf(a) && y[3..] == TimeOf(b);
  }

  /** Sorting timestamps as text sorts them in time. */
  lemma TextOrderIsTimeOrder(a: DateTime, b: DateTime)
    requires Valid(a) && Valid(b)
    ensures Less(Format(a), Format(b)) <==> Instant(a) < Instant(b)
  {
    ValidFits(a);
    ValidFits(b);
    RenderOrder(Values(a), Values(b), SHAPE);
    ValuesUnfold(a, b);
    ValuesUnfold(b, a);
    if FieldsLess(a, b) {
      InstantOrder(a, b);
    } else if FieldsLess(b, a) {
      InstantOrder(b, a);
    } else {
      assert a == b;
    }
  }

  // ----- reading back -----

  lemma {:induction false} NumberOfPad(n: nat, w: nat)
    requires n < Pow10(w)
    ensures Number(Pad(n, w)) == Some(n)
  {
    if w > 0 {
      NumberOfPad(n / 10, w - 1);
      var s := Pad(n, w);
      assert s[..|s| - 1] == Pad(n / 10, w - 1) && s[|s| - 1] == Digit(n % 10);
    }
  }

  lemma {:induction false} PadOfNumber(s: string)
    requires Number(s).Some?
    ensures Number(s).value < Pow10(|s|) && Pad(Number(s).value, |s|) == s
  {
    if s != "" {
      var front := s[..|s| - 1];
      PadOfNumber(front);
      var n, d := Number(front).value, s[|s| - 1] as int - 48;
      assert (n * 10 + d) / 10 == n && (n * 10 + d) % 10 == d;
      assert s == front + [s[|s| - 1]];
    }
  }

  lemma {:induction false} ScanOfRender(vals: seq<nat>, shape: seq<Field>)
    requires Fits(vals, shape)
    ensures Scan(Render(vals, shape), shape) == Some(vals)
  {
    if vals != [] {
      var w := shape[0].width;
      var s := Render(vals, shape);
      NumberOfPad(vals[0], w);
      ScanOfRender(vals[1..], shape[1..]);
      assert s[..w] == Pad(vals[0], w) && s[w] == shape[0].mark && s[w + 1..] == Render(vals[1..], shape[1..]);
      assert vals == [vals[0]] + vals[1..];
    }
  }

  lemma {:induction false} RenderOfScan(s: string, shape: seq<Field>)
    requires Scan(s, shape).Some?
    ensures |Scan(s, shape).value| == |shape| && Render(Scan(s, shape).value, shape) == s
  {
    if shape != [] {
      var w := shape[0].width;
      PadOfNumber(s[..w]);
      RenderOfScan(s[w + 1..], shape[1..]);
      var vals := Scan(s, shape).value;
      assert vals[1..] == Scan(s[w + 1..], shape[1..]).value;
      assert s == s[..w] + [s[w]] + s[w + 1..];
    }
  }

  /** Parsing undoes formatting. */
  lemma ParseUndoesFormat(d: DateTime)
    requires Valid(d)
    ensures Parse(Format(d)) == Some(d)
  {
    ValidFits(d);
    ScanOfRender(Values(d), SHAPE);
  }

  /** Whatever parses is the formatted text of its value, so no two texts stand for one time. */
  lemma FormatUndoesParse(s: string)
    requires Parse(s).Some?
    ensures Format(Parse(s).value) == s
  {
    RenderOfScan(s, SHAPE);
    var v := Scan(s, SHAPE).value;
    assert v == Values(Parse(s).value);
  }

  /** The text, field by field. */
  lemma FormatWrittenOut(d: DateTime)
    ensures Format(d) == Pad(d.year, 4) + "-" + Pad(d.month, 2) + "-" + Pad(d.day, 2) + " " + Pad(d.hour, 2) + ":" +
                         Pad(d.minute, 2) + ":" + Pad(d.second, 2) + "." + Pad(d.micro, 6) + "Z"
  {
    hide Pad, Render;
    var v := Values(d);
    RenderOne(v, SHAPE);
    RenderOne(v[1..], SHAPE[1..]);
    RenderOne(v[2..], SHAPE[2..]);
    RenderOne(v[3..], SHAPE[3..]);
    RenderOne(v[4..], SHAPE[4..]);
    RenderOne(v[5..], SHAPE[5..]);
    RenderOne(v[6..], SHAPE[6..]);
    RenderNone();
    assert v[7..] == [] && SHAPE[7..] == [];
    assert v[6..][1..] == [] && v[5..][1..] == v[6..] && v[4..][1..] == v[5..] && v[3..][1..] == v[4..];
    assert v[2..][1..] == v[3..] && v[1..][1..] == v[2..];
    assert SHAPE[6..][1..] == [] && SHAPE[5..][1..] == SHAPE[6..] && SHAPE[4..][1..] == SHAPE[5..];
    assert SHAPE[3..][1..] == SHAPE[4..] && SHAPE[2..][1..] == SHAPE[3..] && SHAPE[1..][1..] == SHAPE[2..];
  }

  lemma RenderOne(vals: seq<nat>, shape: seq<Field>)
    requires |vals| == |shape| > 0
    ensures Render(vals, shape) == Pad(vals[0], shape[0].width) + [shape[0].mark] + Render(vals[1..], shape[1..])
  {
  }

  lemma RenderNone()
    ensures Render([], []) == ""
  {
  }

  /** Leap years before a year: every fourth, but not every hundredth, but every four hundredth. */
  function LeapsBefore(year: nat): int {
    (year + 3) / 4 - (year + 99) / 100 + (year + 399) / 400
  }

  lemma Every4(y: nat)
    ensures (y + 4) / 4 == (y + 3) / 4 + if y % 4 == 0 then 1 else 0
  {
  }

  lemma Every100(y: nat)
    ensures (y + 100) / 100 == (y + 99) / 100 + if y % 100 == 0 then 1 else 0
  {
    var q, r := y / 100, y % 100;
    assert y + 100 == 100 * (q + 1) + r;
    assert r > 0 ==> y + 99 == 100 * (q + 1) + (r - 1);
    assert r == 0 ==> y + 99 == 100 * q + 99;
  }

  lemma Every400(y: nat)
    ensures (y + 400) / 400 == (y + 399) / 400 + if y % 400 == 0 then 1 else 0
  {
    var q, r := y / 400, y % 400;
    assert y + 400 == 400 * (q + 1) + r;
    assert r > 0 ==> y + 399 == 400 * (q + 1) + (r - 1);
    assert r == 0 ==> y + 399 == 400 * q + 399;
  }

  lemma Leaps400(y: nat)
    ensures y % 400 == 0 ==> y % 100 == 0
    ensures y % 100 == 0 ==> y % 4 == 0
  {
    assert y == 400 * (y / 400) + y % 400 && y == 100 * (y / 100) + y % 100;
    assert y % 400 == 0 ==> y == 100 * (4 * (y / 400));
    assert y % 100 == 0 ==> y == 4 * (25 * (y / 100));
  }

  lemma OneMoreYear(y: nat)
    ensures LeapsBefore(y + 1) == LeapsBefore(y) + if IsLeap(y) then 1 else 0
  {
    Every4(y);
    Every100(y);
    Every400(y);
    Leaps400(y);
  }

  /** The days before a year on the proleptic Gregorian calendar, in closed form. */
  lemma {:induction false} DaysBeforeYearClosed(year: nat)
    ensures DaysBeforeYear(year) == 365 * year + LeapsBefore(year)
  {
    if year > 0 {
      DaysBeforeYearClosed(year - 1);
      OneMoreYear(year - 1);
      hide LeapsBefore, IsLeap;
    }
  }

  /** A formatted timestamp is never the empty string that `acquire` takes for no request. */
  lemma TimestampNotEmpty(d: DateTime)
    ensures Format(d) != ""
  {
    assert |Pad(d.year, 4)| == 4;
  }
}
