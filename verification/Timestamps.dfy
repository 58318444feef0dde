/**
 The text timestamps of controller/run_store.py. `_iso` writes an aware UTC datetime with
 `isoformat`, which drops the fraction when it is zero; the tables compare that text, the
 lease code compares datetimes. Both orders agree for every pair of datetimes.
 */
module Timestamps {
  import opened Labels

  datatype DateTime = DateTime(year: nat, month: nat, day: nat, hour: nat, minute: nat, second: nat, micro: nat)

  predicate Leap(year: nat) {
    year % 4 == 0 && (year % 100 != 0 || year % 400 == 0)
  }

  function DaysIn(year: nat, month: nat): nat {
    if month == 2 then (if Leap(year) then 29 else 28)
    else if month in {4, 6, 9, 11} then 30
    else 31
  }

  /** The datetimes Python can represent. */
  predicate Valid(t: DateTime) {
    && 1 <= t.year <= 9999
    && 1 <= t.month <= 12
    && 1 <= t.day <= DaysIn(t.year, t.month)
    && t.hour < 24 && t.minute < 60 && t.second < 60 && t.micro < 1_000_000
  }

  // ---------------------------------------------------------------- time order

  /** Days of the proleptic Gregorian calendar before the first of January. */
  function DaysBeforeYear(year: nat): nat
    requires year >= 1
  {
    var y := year - 1;
    y * 365 + y / 4 - y / 100 + y / 400
  }

  function DaysBeforeMonth(year: nat, month: nat): nat
    requires 1 <= month <= 12
  {
    if month == 1 then 0 else DaysBeforeMonth(year, month - 1) + DaysIn(year, month - 1)
  }

  function Days(t: DateTime): nat
    requires Valid(t)
  {
    DaysBeforeYear(t.year) + DaysBeforeMonth(t.year, t.month) + t.day
  }

  /** Microseconds since the start of year 1: the order of datetimes. */
  function Micros(t: DateTime): nat
    requires Valid(t)
  {
    (((Days(t) * 24 + t.hour) * 60 + t.minute) * 60 + t.second) * 1_000_000 + t.micro
  }

  lemma NextQuotient(n: nat, k: nat)
    requires n >= 1 && k in {4, 100, 400}
    ensures n / k == (n - 1) / k + (if n % k == 0 then 1 else 0)
  {
    if k == 4 {
    } else if k == 100 {
    } else {
    }
  }

  lemma YearLength(year: nat)
    requires year >= 1
    ensures DaysBeforeYear(year + 1) == DaysBeforeYear(year) + (if Leap(year) then 366 else 365)
  {
    NextQuotient(year, 4);
    NextQuotient(year, 100);
    NextQuotient(year, 400);
    assert year % 400 == 0 ==> year % 100 == 0 && year % 4 == 0;
    assert year % 100 == 0 ==> year % 4 == 0;
  }

  lemma {:induction false} YearsAdvance(year: nat, later: nat)
    requires 1 <= year <= later
    ensures DaysBeforeYear(year) <= DaysBeforeYear(later)
    decreases later - year
  {
    if year < later {
      YearLength(year);
      YearsAdvance(year + 1, later);
    }
  }

  lemma {:induction false} MonthsAdvance(year: nat, month: nat, later: nat)
    requires 1 <= month <= later <= 12
    ensures month < later ==> DaysBeforeMonth(year, month) + DaysIn(year, month) <= DaysBeforeMonth(year, later)
    decreases later - month
  {
    if month + 1 < later {
      MonthsAdvance(year, month, later - 1);
    }
  }

  lemma DayOfYear(year: nat, month: nat)
    requires 1 <= month <= 12
    ensures DaysBeforeMonth(year, month) + DaysIn(year, month) <= if Leap(year) then 366 else 365
  {
    MonthsAdvance(year, month, 12);
    assert DaysBeforeMonth(year, 12) + DaysIn(year, 12) == if Leap(year) then 366 else 365 by {
      assert DaysBeforeMonth(year, 5) == DaysIn(year, 2) + 92 by {
        assert DaysBeforeMonth(year, 3) == 31 + DaysIn(year, 2);
      }
      assert DaysBeforeMonth(year, 9) == DaysBeforeMonth(year, 5) + 123 by {
        assert DaysBeforeMonth(year, 7) == DaysBeforeMonth(year, 5) + 61;
      }
      assert DaysBeforeMonth(year, 11) == DaysBeforeMonth(year, 9) + 61;
    }
  }

  lemma DaysAdvance(a: DateTime, b: DateTime)
    requires Valid(a) && Valid(b)
    requires a.year < b.year || (a.year == b.year && (a.month < b.month || (a.month == b.month && a.day < b.day)))
    ensures Days(a) < Days(b)
  {
    if a.year < b.year {
      DayOfYear(a.year, a.month);
      YearLength(a.year);
      YearsAdvance(a.year + 1, b.year);
    } else if a.month < b.month {
      MonthsAdvance(a.year, a.month, b.month);
    }
  }

  // ---------------------------------------------------------------- text order

  /** The code-point order SQLite uses for TEXT columns. */
  predicate TextLess(a: string, b: string)
    decreases |a|
  {
    b != [] && (a == [] || a[0] < b[0] || (a[0] == b[0] && TextLess(a[1..], b[1..])))
  }

  function Pad(n: nat, width: nat): (s: string)
    ensures |s| == width
  {
    if width == 0 then "" else Pad(n / 10, width - 1) + [Digit(n % 10)]
  }

  function Power10(k: nat): nat {
    if k == 0 then 1 else 10 * Power10(k - 1)
  }

  datatype Field = Field(value: nat, width: nat, mark: char)

  function Render(fields: seq<Field>): string {
    if fields == [] then "" else Pad(fields[0].value, fields[0].width) + [fields[0].mark] + Render(fields[1..])
  }

  function Fields(t: DateTime): seq<Field> {
    [Field(t.year, 4, '-'), Field(t.month, 2, '-'), Field(t.day, 2, 'T'),
     Field(t.hour, 2, ':'), Field(t.minute, 2, ':')]
  }

  function Tail(t: DateTime): string {
    Pad(t.second, 2) + (if t.micro == 0 then "" else "." + Pad(t.micro, 6)) + "+00:00"
  }

  /** `datetime.isoformat` of a UTC datetime. */
  function Iso(t: DateTime): string {
    Render(Fields(t)) + Tail(t)
  }

  lemma {:induction false} FixedPrefixDecides(p: string, q: string, x: string, y: string)
    requires |p| == |q|
    ensures TextLess(p + x, q + y) <==> TextLess(p, q) || (p == q && TextLess(x, y))
    decreases |p|
  {
    if p == [] {
      assert p + x == x && q + y == y;
    } else {
      assert (p + x)[1..] == p[1..] + x && (q + y)[1..] == q[1..] + y;
      assert p == [p[0]] + p[1..] && q == [q[0]] + q[1..];
      FixedPrefixDecides(p[1..], q[1..], x, y);
    }
  }

  lemma {:induction false} PaddedNumbersCompare(m: nat, n: nat, width: nat)
    requires m < Power10(width) && n < Power10(width)
    ensures TextLess(Pad(m, width), Pad(n, width)) <==> m < n
    ensures Pad(m, width) == Pad(n, width) <==> m == n
  {
    if width > 0 {
      PaddedNumbersCompare(m / 10, n / 10, width - 1);
      var p, q, x, y := Pad(m / 10, width - 1), Pad(n / 10, width - 1), [Digit(m % 10)], [Digit(n % 10)];
      FixedPrefixDecides(p, q, x, y);
      assert TextLess(x, y) <==> m % 10 < n % 10 by {
        assert x[1..] == [] && y[1..] == [];
      }
      assert p + x == q + y <==> p == q && x == y by {
        assert (p + x)[..width - 1] == p && (q + y)[..width - 1] == q;
        assert (p + x)[width - 1] == x[0] && (q + y)[width - 1] == y[0];
      }
    }
  }

  ghost predicate SameShape(f: seq<Field>, g: seq<Field>) {
    && |f| == |g|
    && forall i :: 0 <= i < |f| ==>
         f[i].width == g[i].width && f[i].mark == g[i].mark
         && f[i].value < Power10(f[i].width) && g[i].value < Power10(g[i].width)
  }

  predicate FieldsLess(f: seq<Field>, g: seq<Field>)
    decreases |f|
  {
    f != [] && g != [] &&
    (f[0].value < g[0].value || (f[0].value == g[0].value && FieldsLess(f[1..], g[1..])))
  }

  lemma MarkedPrefixDecides(p: string, q: string, mark: char, x: string, y: string)
    requires |p| == |q|
    ensures TextLess(p + [mark] + x, q + [mark] + y) <==> TextLess(p, q) || (p == q && TextLess(x, y))
  {
    assert p + [mark] + x == p + ([mark] + x) && q + [mark] + y == q + ([mark] + y);
    FixedPrefixDecides(p, q, [mark] + x, [mark] + y);
    assert ([mark] + x)[1..] == x && ([mark] + y)[1..] == y;
  }

  lemma RenderedHead(f: seq<Field>, x: string)
    requires f != []
    ensures Render(f) + x == Pad(f[0].value, f[0].width) + [f[0].mark] + (Render(f[1..]) + x)
  {
  }

  lemma {:induction false} RenderedFieldsCompare(f: seq<Field>, g: seq<Field>, x: string, y: string)
    requires SameShape(f, g)
    ensures TextLess(Render(f) + x, Render(g) + y) <==> FieldsLess(f, g) || (f == g && TextLess(x, y))
    decreases |f|
  {
    if f == [] {
      assert Render(f) + x == x && Render(g) + y == y;
    } else {
      var p, q := Pad(f[0].value, f[0].width), Pad(g[0].value, g[0].width);
      var r, s := Render(f[1..]) + x, Render(g[1..]) + y;
      calc <==> {
        TextLess(Render(f) + x, Render(g) + y);
        { RenderedHead(f, x); RenderedHead(g, y); }
        TextLess(p + [f[0].mark] + r, q + [f[0].mark] + s);
        { MarkedPrefixDecides(p, q, f[0].mark, r, s); }
        TextLess(p, q) || (p == q && TextLess(r, s));
        { PaddedNumbersCompare(f[0].value, g[0].value, f[0].width); }
        f[0].value < g[0].value || (f[0].value == g[0].value && TextLess(r, s));
        { RenderedFieldsCompare(f[1..], g[1..], x, y); }
        f[0].value < g[0].value ||
          (f[0].value == g[0].value && (FieldsLess(f[1..], g[1..]) || (f[1..] == g[1..] && TextLess(x, y))));
        { assert f[0].value == g[0].value && f[1..] == g[1..] <==> f == g by {
            assert f == [f[0]] + f[1..] && g == [g[0]] + g[1..];
          } }
        FieldsLess(f, g) || (f == g && TextLess(x, y));
      }
    }
  }

  /** The seconds and fraction compare correctly when both, one or neither has a fraction. */
  lemma TailsCompare(a: DateTime, b: DateTime)
    requires Valid(a) && Valid(b)
    ensures TextLess(Tail(a), Tail(b)) <==> a.second < b.second || (a.second == b.second && a.micro < b.micro)
  {
    var p, q := Pad(a.second, 2), Pad(b.second, 2);
    var x := (if a.micro == 0 then "" else "." + Pad(a.micro, 6)) + "+00:00";
    var y := (if b.micro == 0 then "" else "." + Pad(b.micro, 6)) + "+00:00";
    assert Tail(a) == p + x && Tail(b) == q + y;
    assert Power10(2) == 100 && Power10(6) == 1_000_000;
    PaddedNumbersCompare(a.second, b.second, 2);
    FixedPrefixDecides(p, q, x, y);
    FractionsCompare(a.micro, b.micro, x, y);
  }

  lemma FractionsCompare(m: nat, n: nat, x: string, y: string)
    requires m < 1_000_000 && n < 1_000_000
    requires x == (if m == 0 then "" else "." + Pad(m, 6)) + "+00:00"
    requires y == (if n == 0 then "" else "." + Pad(n, 6)) + "+00:00"
    ensures TextLess(x, y) <==> m < n
  {
    if m > 0 && n > 0 {
      assert Power10(6) == 1_000_000;
      PaddedNumbersCompare(m, n, 6);
      FixedPrefixDecides("." + Pad(m, 6), "." + Pad(n, 6), "+00:00", "+00:00");
      FixedPrefixDecides(".", ".", Pad(m, 6), Pad(n, 6));
      NotLessThanItself(".");
      NotLessThanItself("+00:00");
    } else if m == 0 && n == 0 {
      NotLessThanItself(x);
    } else {
      assert (if m == 0 then x else y)[0] == '+' && (if m == 0 then y else x)[0] == '.';
    }
  }

  lemma {:induction false} NotLessThanItself(s: string)
    ensures !TextLess(s, s)
    decreases |s|
  {
    if s != [] {
      NotLessThanItself(s[1..]);
    }
  }

  // ---------------------------------------------------------------- both orders agree

  predicate Earlier(a: DateTime, b: DateTime) {
    FieldsLess(Fields(a), Fields(b)) ||
    (Fields(a) == Fields(b) && (a.second < b.second || (a.second == b.second && a.micro < b.micro)))
  }

  lemma FieldsLessUnrolled(a: DateTime, b: DateTime)
    ensures FieldsLess(Fields(a), Fields(b)) <==>
            || a.year < b.year
            || (a.year == b.year && (a.month < b.month || (a.month == b.month && (a.day < b.day || (a.day == b.day &&
               (a.hour < b.hour || (a.hour == b.hour && a.minute < b.minute)))))))
  {
    var f, g := Fields(a), Fields(b);
    var f3, g3 := [f[3], f[4]], [g[3], g[4]];
    assert f[1..][1..][1..] == f3 && g[1..][1..][1..] == g3;
    assert f3[1..] == [f[4]] && g3[1..] == [g[4]];
    assert [f[4]][1..] == [] && [g[4]][1..] == [];
    assert FieldsLess(f3[1..], g3[1..]) <==> a.minute < b.minute;
    assert FieldsLess(f3, g3) <==> a.hour < b.hour || (a.hour == b.hour && a.minute < b.minute);
    var f2, g2 := f[1..][1..], g[1..][1..];
    assert f2[0] == f[2] && g2[0] == g[2] && f2[1..] == f3 && g2[1..] == g3;
    assert FieldsLess(f[1..], g[1..]) <==> a.month < b.month || (a.month == b.month && FieldsLess(f2, g2));
  }

  lemma EarlierIsLessMicros(a: DateTime, b: DateTime)
    requires Valid(a) && Valid(b) && Earlier(a, b)
    ensures Micros(a) < Micros(b)
  {
    FieldsLessUnrolled(a, b);
    if !FieldsLess(Fields(a), Fields(b)) {
      var f, g := Fields(a), Fields(b);
      assert f[0] == g[0] && f[1] == g[1] && f[2] == g[2] && f[3] == g[3] && f[4] == g[4];
    } else if a.year < b.year || a.month < b.month || a.day < b.day {
      DaysAdvance(a, b);
    }
  }

  lemma {:induction false} FieldsTrichotomy(f: seq<Field>, g: seq<Field>)
    requires SameShape(f, g)
    ensures FieldsLess(f, g) || FieldsLess(g, f) || f == g
    decreases |f|
  {
    if f != [] {
      FieldsTrichotomy(f[1..], g[1..]);
      assert f == [f[0]] + f[1..] && g == [g[0]] + g[1..];
    }
  }

  lemma FieldsFit(a: DateTime, b: DateTime)
    requires Valid(a) && Valid(b)
    ensures SameShape(Fields(a), Fields(b))
  {
    assert Power10(2) == 100;
    assert Power10(4) == 10_000;
  }

  /**
   Text order is time order, with or without fractions: the `expires_at <= ?` text test of
   `claim_next_run` and the datetime test of `renew_worker_lease` never disagree.
   */
  lemma TextOrderIsTimeOrder(a: DateTime, b: DateTime)
    requires Valid(a) && Valid(b)
    ensures TextLess(Iso(a), Iso(b)) <==> Micros(a) < Micros(b)
    ensures Iso(a) == Iso(b) <==> Micros(a) == Micros(b)
  {
    FieldsFit(a, b);
    FieldsFit(b, a);
    RenderedFieldsCompare(Fields(a), Fields(b), Tail(a), Tail(b));
    RenderedFieldsCompare(Fields(b), Fields(a), Tail(b), Tail(a));
    TailsCompare(a, b);
    TailsCompare(b, a);
    FieldsTrichotomy(Fields(a), Fields(b));
    if Earlier(a, b) {
      EarlierIsLessMicros(a, b);
    } else if Earlier(b, a) {
      EarlierIsLessMicros(b, a);
      NotLessThanItself(Iso(a));
    } else {
      var f, g := Fields(a), Fields(b);
      assert f[0] == g[0] && f[1] == g[1] && f[2] == g[2] && f[3] == g[3] && f[4] == g[4];
      assert a == b;
      NotLessThanItself(Iso(a));
    }
    if Iso(a) == Iso(b) {
      NotLessThanItself(Iso(a));
    }
  }
}
