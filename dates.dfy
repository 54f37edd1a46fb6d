/**
 * How `new Date` reads the expiry strings the app stores: the `YYYY-MM-DD`
 * form the date inputs produce, which it reads as midnight UTC of that day,
 * and the `YYYY-MM-DDTHH:MM:SS.sssZ` form `toISOString` writes, which the
 * seeded batches and the services created in Settings carry. Anything else,
 * the empty expiry of a freshly added batch included, is an Invalid Date,
 * and every comparison involving one is false.
 */
module Dates {
  import opened Text

  /** The `YYYY-MM-DD` form. */
  predicate IsDay(s: string)
  {
    |s| == 10 && s[4] == '-' && s[7] == '-' &&
    forall i :: 0 <= i < 10 && i != 4 && i != 7 ==> IsDigit(s[i])
  }

  /** The `YYYY-MM-DDTHH:MM:SS.sssZ` form. */
  predicate IsStamp(s: string)
  {
    |s| == 24 && IsDay(s[..10]) && s[10] == 'T' && s[13] == ':' && s[16] == ':' && s[19] == '.' && s[23] == 'Z' &&
    forall i :: 10 < i < 23 && i != 13 && i != 16 && i != 19 ==> IsDigit(s[i])
  }

  predicate IsDate(s: string) { IsDay(s) || IsStamp(s) }

  /** `T00:00:00.000Z`, the time part of midnight, built position by position. */
  function Midnight(): (r: string)
    ensures |r| == 14 && forall i :: 0 <= i < 14 ==> r[i] == MidnightChar(i)
  {
    seq(14, MidnightChar)
  }

  function MidnightChar(i: int): char
  {
    if i == 0 then 'T' else if i == 3 || i == 6 then ':' else if i == 9 then '.' else if i == 13 then 'Z' else '0'
  }

  /**
   * The instant a date denotes, written as a timestamp: a day is midnight UTC
   * of that day. Timestamps of this fixed width compare as their instants do.
   */
  function Instant(s: string): (r: string)
    ensures IsDate(s) ==> IsStamp(r) && r[..10] == s[..10]
    ensures IsDay(s) ==> r[10..] == Midnight()
    ensures IsStamp(s) ==> r == s
  {
    if IsDay(s) then
      assert (s + Midnight())[..10] == s;
      s + Midnight()
    else s
  }

  /** `new Date(a) < new Date(b)`: both valid and `a` the earlier instant. */
  predicate DateBefore(a: string, b: string)
  {
    IsDate(a) && IsDate(b) && StrLt(Instant(a), Instant(b))
  }

  lemma DateBeforeIrreflexive(a: string)
    ensures !DateBefore(a, a)
  {
    StrLtIrreflexive(Instant(a));
  }

  lemma DateBeforeTransitive(a: string, b: string, c: string)
    requires DateBefore(a, b) && DateBefore(b, c)
    ensures DateBefore(a, c)
  {
    StrLtTransitive(Instant(a), Instant(b), Instant(c));
  }

  /** Two valid dates are the same instant, or one is strictly before the other, and not both ways. */
  lemma DateTrichotomy(a: string, b: string)
    requires IsDate(a) && IsDate(b)
    ensures Instant(a) == Instant(b) || DateBefore(a, b) || DateBefore(b, a)
    ensures !(DateBefore(a, b) && DateBefore(b, a))
    ensures Instant(a) == Instant(b) ==> !DateBefore(a, b)
  {
    StrLtTotal(Instant(a), Instant(b));
    StrLtIrreflexive(Instant(a));
    if StrLt(Instant(a), Instant(b)) {
      StrLtAsymmetric(Instant(a), Instant(b));
    }
  }

  lemma {:induction false} StrLtExtend(p: string, q: string, u: string, v: string)
    requires |p| == |q| && StrLt(p, q)
    ensures StrLt(p + u, q + v)
  {
    assert p != [] && q != [];
    assert (p + u)[0] == p[0] && (q + v)[0] == q[0];
    if p[0] == q[0] {
      assert (p + u)[1..] == p[1..] + u && (q + v)[1..] == q[1..] + v;
      StrLtExtend(p[1..], q[1..], u, v);
    }
  }

  /**
   * The day decides first: a valid date on an earlier calendar day is before
   * any instant of a later day, whichever of the two forms either is written in.
   */
  lemma EarlierDayIsBefore(a: string, b: string)
    requires IsDate(a) && IsDate(b) && StrLt(a[..10], b[..10])
    ensures DateBefore(a, b)
  {
    var x, y := Instant(a), Instant(b);
    assert x == x[..10] + x[10..] && y == y[..10] + y[10..];
    StrLtExtend(x[..10], y[..10], x[10..], y[10..]);
  }

  /** A day is no later than any instant on that day, and the same instant as its midnight. */
  lemma DayIsItsMidnight(d: string, t: string)
    requires IsDay(d) && IsStamp(t) && t[..10] == d
    ensures !DateBefore(t, d)
    ensures DateBefore(d, t) <==> t[10..] != Midnight()
  {
    var x := Instant(d);
    assert x == d + Midnight();
    if t[10..] == Midnight() {
      assert t == d + Midnight();
      DateBeforeIrreflexive(t);
    } else {
      assert t == d + t[10..];
      MidnightFirst(t[10..]);
      StrLtCommonPrefix(d, Midnight(), t[10..]);
    }
    DateTrichotomy(d, t);
  }

  /** Midnight is the earliest time of day in the fixed-width form. */
  lemma MidnightFirst(s: string)
    requires |s| == 14 && s[0] == 'T' && s[3] == ':' && s[6] == ':' && s[9] == '.' && s[13] == 'Z'
    requires forall i :: 0 < i < 13 && i != 3 && i != 6 && i != 9 ==> IsDigit(s[i])
    requires s != Midnight()
    ensures StrLt(Midnight(), s)
  {
    forall i | 0 <= i < 14 ensures ZeroOrSame(Midnight()[i], s[i]) {
      assert Midnight()[i] == MidnightChar(i);
    }
    ZerosFirst(Midnight(), s);
  }

  /** The character is the same, or a zero below a digit. */
  predicate ZeroOrSame(c: char, d: char)
  {
    c == d || (c == '0' && IsDigit(d))
  }

  /** A string that agrees with another except for zeros where it has digits comes first. */
  lemma {:induction false} ZerosFirst(u: string, v: string)
    requires |u| == |v| && u != v
    requires forall i :: 0 <= i < |u| ==> ZeroOrSame(u[i], v[i])
    ensures StrLt(u, v)
  {
    assert ZeroOrSame(u[0], v[0]);
    if u[0] == v[0] {
      assert u == [u[0]] + u[1..] && v == [v[0]] + v[1..];
      forall i | 0 <= i < |u[1..]| ensures ZeroOrSame(u[1..][i], v[1..][i]) {
        assert ZeroOrSame(u[i + 1], v[i + 1]);
      }
      ZerosFirst(u[1..], v[1..]);
    }
  }

  /** Strings equal up to position m, smaller there, are in order. */
  lemma {:induction false} StrLtAtFirstDiff(a: string, b: string, m: nat)
    requires m < |a| && m < |b| && a[..m] == b[..m] && a[m] < b[m]
    ensures StrLt(a, b)
  {
    if m > 0 {
      assert a[0] == a[..m][0] == b[..m][0] == b[0];
      assert a[1..][..m - 1] == a[..m][1..] == b[..m][1..] == b[1..][..m - 1];
      StrLtAtFirstDiff(a[1..], b[1..], m - 1);
    }
  }

  /** The last second of a day, as `toISOString` writes it. */
  const EndOfDay: string := "T23:59:59.000Z"

  lemma EndOfDayIsStamp(d: string)
    requires IsDay(d)
    ensures IsStamp(d + EndOfDay) && (d + EndOfDay)[..10] == d
  {
    var t := d + EndOfDay;
    assert t[..10] == d;
    forall i | 10 < i < 23 && i != 13 && i != 16 && i != 19 ensures IsDigit(t[i]) {
      assert t[i] == EndOfDay[i - 10];
    }
  }

  lemma {:induction false} StrLtCommonPrefix(p: string, u: string, v: string)
    requires StrLt(u, v)
    ensures StrLt(p + u, p + v)
  {
    if p == [] {
      assert p + u == u && p + v == v;
    } else {
      assert (p + u)[1..] == p[1..] + u && (p + v)[1..] == p[1..] + v;
      StrLtCommonPrefix(p[1..], u, v);
    }
  }
}
