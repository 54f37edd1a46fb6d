/**
 * The appointment scheduler of the operational dashboard: which days a doctor
 * can be booked, the 15-minute slots generated from the doctor's ranges, the
 * slots already taken, and the low-stock panel.
 */
module Scheduling {
  import opened Wrappers
  import opened Model
  import opened Seqs
  import opened Text
  import Availability
  import InventoryView
  import Stock

  // ------------------------------------------------------------ clock labels

  lemma PadOne(c: char)
    ensures PadStart([c], 2, '0') == ['0', c]
  {
    assert PadStart([c], 2, '0') == seq(1, _ => '0') + [c];
  }

  lemma TwoDigits(n: nat, tens: nat, units: nat)
    requires n == 10 * tens + units && tens < 10 && units < 10
    ensures Pad2(n) == [DigitChar(tens), DigitChar(units)]
  {
    assert IntToString(n) == NatToString(n);
    if tens == 0 {
      assert NatToString(n) == [DigitChar(units)];
      PadOne(DigitChar(units));
      assert DigitChar(0) == '0';
    } else {
      assert n / 10 == tens && n % 10 == units;
      assert NatToString(tens) == [DigitChar(tens)];
      assert NatToString(n) == [DigitChar(tens), DigitChar(units)];
    }
  }

  /** A slot label `HH:MM`. */
  function Format(h: nat, m: nat): string
  {
    Pad2(h) + ":" + Pad2(m)
  }

  /** Below 100 hours and 100 minutes a label is five characters: two digits, a colon, two digits. */
  lemma FormatShape(h: nat, m: nat, h1: nat, h0: nat, m1: nat, m0: nat)
    requires h == 10 * h1 + h0 && m == 10 * m1 + m0
    requires h1 < 10 && h0 < 10 && m1 < 10 && m0 < 10
    ensures Format(h, m) == [DigitChar(h1), DigitChar(h0), ':', DigitChar(m1), DigitChar(m0)]
  {
    TwoDigits(h, h1, h0);
    TwoDigits(m, m1, m0);
    var a, b := Pad2(h), Pad2(m);
    assert Format(h, m) == a + ":" + b;
    assert a + ":" + b == [a[0], a[1], ':', b[0], b[1]];
  }

  /** The label of the time t minutes after midnight. */
  function AtMinute(t: nat): string
  {
    Format(t / 60, t % 60)
  }

  lemma MinuteSplit(h: nat, m: nat)
    requires m < 60
    ensures (h * 60 + m) / 60 == h && (h * 60 + m) % 60 == m
  {
  }

  /** The labels of a list of times. */
  function Labels(ts: seq<nat>): (r: seq<string>)
    ensures |r| == |ts| && forall i :: 0 <= i < |ts| ==> r[i] == AtMinute(ts[i])
  {
    Map(ts, AtMinute)
  }

  lemma LabelsAppend(a: seq<nat>, b: seq<nat>)
    ensures Labels(a + b) == Labels(a) + Labels(b)
  {
    MapAppend(a, b, AtMinute);
  }

  /** The times from minute S on, every 15 minutes, strictly before minute E: ⌈(E - S) / 15⌉ of them. */
  function SlotTimes(S: nat, E: nat): (r: seq<nat>)
    ensures forall k :: 0 <= k < |r| ==> r[k] == S + 15 * k < E
  {
    var n := if S < E then (E - S + 14) / 15 else 0;
    seq(n, k requires 0 <= k < n => S + 15 * k)
  }

  /** The times are the start, then the times from 15 minutes later. */
  lemma SlotTimesCons(S: nat, E: nat)
    ensures SlotTimes(S, E) == if S < E then [S] + SlotTimes(S + 15, E) else []
  {
    if S < E {
      var r, q := SlotTimes(S, E), SlotTimes(S + 15, E);
      var p := [S] + q;
      SlotTimesCount(S, E);
      forall k | 0 <= k < |r|
        ensures r[k] == p[k]
      {
        if k > 0 {
          assert p[k] == q[k - 1];
        }
      }
      assert r == p;
    }
  }

  lemma SlotTimesCount(S: nat, E: nat)
    requires S < E
    ensures |SlotTimes(S, E)| == |SlotTimes(S + 15, E)| + 1
  {
  }

  /** k quarters after S there are exactly k times. */
  lemma SlotTimesQuarters(S: nat, k: nat)
    ensures |SlotTimes(S, S + 15 * k)| == k
  {
    if k > 0 {
      assert (15 * k + 14) / 15 == k;
    }
  }

  lemma SlotTimesSnoc(S: nat, k: nat)
    ensures SlotTimes(S, S + 15 * k + 15) == SlotTimes(S, S + 15 * k) + [S + 15 * k]
  {
    var r, q := SlotTimes(S, S + 15 * k + 15), SlotTimes(S, S + 15 * k);
    SlotTimesQuarters(S, k);
    SlotTimesQuarters(S, k + 1);
    assert |r| == |q| + 1;
    assert r[k] == S + 15 * k;
  }

  /** The fallback day opens at 09:00 and closes at 17:00, in minutes after midnight. */
  const Opening: nat := 9 * 60
  const Closing: nat := 17 * 60

  /** The fallback's times: 09:00 to 16:45. */
  function FallbackTimes(): seq<nat>
  {
    SlotTimes(Opening, Closing)
  }

  /**
   * The fallback when no schedule is set: 09:00 to 16:45 every 15 minutes,
   * written as the source's two nested loops; k counts the slots so far and
   * end is the time after the last one.
   */
  method DefaultSlots() returns (slots: seq<string>)
    ensures slots == Labels(FallbackTimes())
  {
    slots := [];
    ghost var k, end := 0, 540;
    for hour := 9 to 17
      invariant end == 540 + 15 * k && end == hour * 60
      invariant slots == Labels(SlotTimes(540, end))
    {
      var minute := 0;
      while minute < 60
        invariant minute == 0 || minute == 15 || minute == 30 || minute == 45 || minute == 60
        invariant end == 540 + 15 * k && end == hour * 60 + minute
        invariant slots == Labels(SlotTimes(540, end))
      {
        SlotStep(k, end, hour, minute);
        slots := slots + [Format(hour, minute)];
        minute := minute + 15;
        k, end := k + 1, end + 15;
      }
    }
    FallbackAt(end);
  }

  /** The times up to a closing time given as a variable are the fallback's. */
  lemma FallbackAt(end: nat)
    requires end == Closing
    ensures SlotTimes(Opening, end) == FallbackTimes()
  {
  }

  /** The slot k quarters after opening, at time end, is labelled with its hour and minute. */
  lemma SlotStep(k: nat, end: nat, hour: nat, minute: nat)
    requires end == Opening + 15 * k && end == hour * 60 + minute && minute < 60
    ensures Labels(SlotTimes(Opening, end + 15)) == Labels(SlotTimes(Opening, end)) + [Format(hour, minute)]
  {
    SlotTimesSnoc(Opening, k);
    assert Labels([end]) == [Format(hour, minute)] by {
      AtMinuteOf(hour, minute);
    }
    LabelsSnoc(SlotTimes(Opening, end + 15), SlotTimes(Opening, end), end, Format(hour, minute));
  }

  /** Labelling a list with one time appended appends that time's label. */
  lemma LabelsSnoc(ts: seq<nat>, before: seq<nat>, t: nat, tag: string)
    requires ts == before + [t] && Labels([t]) == [tag]
    ensures Labels(ts) == Labels(before) + [tag]
  {
    LabelsAppend(before, [t]);
  }

  /** The label of hour h and minute m below 60 is that of the time h * 60 + m. */
  lemma AtMinuteOf(h: nat, m: nat)
    requires m < 60
    ensures AtMinute(h * 60 + m) == Format(h, m)
  {
    MinuteSplit(h, m);
  }

  lemma AtMinuteIs(t: nat, h: nat, m: nat)
    requires m < 60 && t == h * 60 + m
    ensures AtMinute(t) == Format(h, m)
  {
    MinuteSplit(h, m);
    assert t / 60 == h && t % 60 == m;
  }

  /** The fallback offers 32 slots. */
  lemma FallbackCount()
    ensures |Labels(FallbackTimes())| == 32
  {
  }

  /** The label of the time h:m, for two-digit h and m with m below 60. */
  lemma ClockLabel(h: nat, m: nat, h1: nat, h0: nat, m1: nat, m0: nat)
    requires m < 60
    requires h == 10 * h1 + h0 && m == 10 * m1 + m0
    requires h1 < 10 && h0 < 10 && m1 < 10 && m0 < 10
    ensures AtMinute(h * 60 + m) == [DigitChar(h1), DigitChar(h0), ':', DigitChar(m1), DigitChar(m0)]
  {
    AtMinuteOf(h, m);
    FormatShape(h, m, h1, h0, m1, m0);
  }

  /** The first fallback slot is 09:00. */
  lemma FallbackFirst()
    ensures Labels(FallbackTimes())[0] == "09:00"
  {
    var ts := FallbackTimes();
    assert ts[0] == 9 * 60 + 0;
    assert AtMinute(ts[0]) == "09:00" by {
      ClockLabel(9, 0, 0, 9, 0, 0);
    }
  }

  /** The last fallback slot is 16:45. */
  lemma FallbackLast()
    ensures Labels(FallbackTimes())[31] == "16:45"
  {
    var ts := FallbackTimes();
    assert |ts| == 32 && ts[31] == 16 * 60 + 45 by {
      SlotTimesQuarters(Opening, 32);
    }
    assert AtMinute(ts[31]) == "16:45" by {
      ClockLabel(16, 45, 1, 6, 4, 5);
    }
  }

  // ---------------------------------------------------------- range parsing

  /**
   * `Number(s)` on the fields of an `NN:NN-NN:NN` range: a digit run (the empty one is 0) has its value.
   * Other strings stand for NaN here; `Number` reads some of them (signs, spaces,
   * decimals, hexadecimal) as numbers, but no range of that form reaches it with one.
   */
  function JsNumber(s: string): Option<nat>
  {
    if AllDigits(s) then Some(DigitsValue(s)) else None
  }

  /** The numbers of `start.split(':').map(Number)`; a missing minute is undefined, like NaN. */
  datatype Clock = Clock(hour: Option<nat>, minute: Option<nat>)

  function ParseClock(s: string): Clock
  {
    var p := Split(s, ':');
    Clock(JsNumber(p[0]), if |p| > 1 then JsNumber(p[1]) else None)
  }

  /** `range.split('-')` and the guard `!start || !end`. */
  function ParseRange(range: string): Option<(Clock, Clock)>
  {
    var p := Split(range, '-');
    if p[0] == "" || |p| < 2 || p[1] == "" then None
    else Some((ParseClock(p[0]), ParseClock(p[1])))
  }

  /** The loop guard: hour below the end hour, or equal with the minute below the end minute (false on NaN). */
  predicate Before(h: nat, m: nat, eh: Option<nat>, em: Option<nat>)
  {
    eh.Some? && (h < eh.value || (h == eh.value && em.Some? && m < em.value))
  }

  /** The clock readings the loop visits from (h, m) on: 15 minutes a step, the minute carrying into the hour at 60. */
  function ClocksFrom(h: nat, m: nat, eh: Option<nat>, em: Option<nat>): seq<(nat, nat)>
    decreases (if eh.Some? && h <= eh.value then eh.value + 1 - h else 0), (if m < 60 then 60 - m else 0)
  {
    if !Before(h, m, eh, em) then []
    else if m + 15 >= 60 then [(h, m)] + ClocksFrom(h + 1, m + 15 - 60, eh, em)
    else [(h, m)] + ClocksFrom(h, m + 15, eh, em)
  }

  /** The labels of a list of clock readings. */
  function Render(cs: seq<(nat, nat)>): (r: seq<string>)
    ensures |r| == |cs| && forall i :: 0 <= i < |cs| ==> r[i] == Format(cs[i].0, cs[i].1)
  {
    seq(|cs|, i requires 0 <= i < |cs| => Format(cs[i].0, cs[i].1))
  }

  lemma RenderSnoc(cs: seq<(nat, nat)>, h: nat, m: nat)
    ensures Render(cs + [(h, m)]) == Render(cs) + [Format(h, m)]
  {
    assert forall i :: 0 <= i < |cs| + 1 ==> Render(cs + [(h, m)])[i] == (Render(cs) + [Format(h, m)])[i];
  }

  /** The minutes after midnight of a list of clock readings. */
  function Minutes(cs: seq<(nat, nat)>): (r: seq<nat>)
    ensures |r| == |cs| && forall i :: 0 <= i < |cs| ==> r[i] == cs[i].0 * 60 + cs[i].1
  {
    seq(|cs|, i requires 0 <= i < |cs| => cs[i].0 * 60 + cs[i].1)
  }

  lemma MinutesCons(c: (nat, nat), cs: seq<(nat, nat)>)
    ensures Minutes([c] + cs) == [c.0 * 60 + c.1] + Minutes(cs)
  {
    var l, r := Minutes([c] + cs), [c.0 * 60 + c.1] + Minutes(cs);
    assert forall i :: 0 < i < |l| ==> l[i] == Minutes(cs)[i - 1];
    assert |l| == |r|;
  }

  /** Readings whose minute is below 60 are labelled as the times they stand for. */
  lemma RenderMinutes(cs: seq<(nat, nat)>)
    requires forall i :: 0 <= i < |cs| ==> cs[i].1 < 60
    ensures Render(cs) == Labels(Minutes(cs))
  {
    var r, l := Render(cs), Labels(Minutes(cs));
    forall i | 0 <= i < |cs|
      ensures r[i] == l[i]
    {
      RenderAt(cs, i);
    }
  }

  lemma RenderAt(cs: seq<(nat, nat)>, i: nat)
    requires i < |cs| && cs[i].1 < 60
    ensures Render(cs)[i] == Labels(Minutes(cs))[i]
  {
    var h, m := cs[i].0, cs[i].1;
    var ts := Minutes(cs);
    var t := ts[i];
    AtMinuteIs(t, h, m);
    assert Labels(ts)[i] == AtMinute(t);
    assert Render(cs)[i] == Format(h, m);
  }

  /** From a minute below 60 every reading the loop visits has its minute below 60. */
  lemma {:induction false} ClocksFromMinuteBelow60(h: nat, m: nat, eh: Option<nat>, em: Option<nat>)
    requires m < 60
    ensures forall i :: 0 <= i < |ClocksFrom(h, m, eh, em)| ==> ClocksFrom(h, m, eh, em)[i].1 < 60
    decreases (if eh.Some? && h <= eh.value then eh.value + 1 - h else 0), 60 - m
  {
    if Before(h, m, eh, em) {
      if m + 15 >= 60 {
        ClocksFromMinuteBelow60(h + 1, m + 15 - 60, eh, em);
      } else {
        ClocksFromMinuteBelow60(h, m + 15, eh, em);
      }
    }
  }

  /**
   * With the start and end minutes below 60 the loop visits exactly the times
   * from the start, every 15 minutes, strictly before the end.
   */
  lemma {:induction false} ClocksFromBetween(h: nat, m: nat, eh: nat, em: nat)
    requires m < 60 && em < 60
    ensures Minutes(ClocksFrom(h, m, Some(eh), Some(em))) == SlotTimes(h * 60 + m, eh * 60 + em)
    decreases eh * 60 + em - (h * 60 + m)
  {
    if Before(h, m, Some(eh), Some(em)) {
      var h', m' := if m + 15 >= 60 then h + 1 else h, if m + 15 >= 60 then m + 15 - 60 else m + 15;
      assert h' * 60 + m' == h * 60 + m + 15;
      ClocksFromBetween(h', m', eh, em);
      BetweenStep(h, m, eh, em, h', m');
    } else {
      BetweenStop(h, m, eh, em);
    }
  }

  /** One step of the loop adds its start time in front of the times from 15 minutes later. */
  lemma BetweenStep(h: nat, m: nat, eh: nat, em: nat, h': nat, m': nat)
    requires m < 60 && em < 60 && Before(h, m, Some(eh), Some(em))
    requires h' == (if m + 15 >= 60 then h + 1 else h) && m' == (if m + 15 >= 60 then m + 15 - 60 else m + 15)
    requires h' * 60 + m' == h * 60 + m + 15
    requires Minutes(ClocksFrom(h', m', Some(eh), Some(em))) == SlotTimes(h * 60 + m + 15, eh * 60 + em)
    ensures Minutes(ClocksFrom(h, m, Some(eh), Some(em))) == SlotTimes(h * 60 + m, eh * 60 + em)
  {
    var t, e := h * 60 + m, eh * 60 + em;
    var cs, rest := ClocksFrom(h, m, Some(eh), Some(em)), ClocksFrom(h', m', Some(eh), Some(em));
    assert cs == [(h, m)] + rest;
    assert Minutes(cs) == [t] + Minutes(rest) by {
      MinutesCons((h, m), rest);
    }
    assert SlotTimes(t, e) == [t] + SlotTimes(t + 15, e) by {
      assert t < e;
      SlotTimesCons(t, e);
    }
    calc {
      Minutes(cs);
      [t] + Minutes(rest);
      [t] + SlotTimes(t + 15, e);
      SlotTimes(t, e);
    }
  }

  /** Once the guard fails the loop visits nothing, and no time lies before the end. */
  lemma BetweenStop(h: nat, m: nat, eh: nat, em: nat)
    requires m < 60 && em < 60 && !Before(h, m, Some(eh), Some(em))
    ensures Minutes(ClocksFrom(h, m, Some(eh), Some(em))) == SlotTimes(h * 60 + m, eh * 60 + em)
  {
    if h > eh {
      assert h * 60 >= eh * 60 + 60;
    }
    SlotTimesCons(h * 60 + m, eh * 60 + em);
  }

  /**
   * A start minute the loop cannot read (a missing or non-numeric one) never
   * advances the hour, so the loop ends only if the start hour is not below the end hour.
   */
  predicate Terminates(range: string)
  {
    match ParseRange(range)
    case None => true
    case Some((s, e)) => s.hour.None? || s.minute.Some? || !(e.hour.Some? && s.hour.value < e.hour.value)
  }

  /** The clock readings one range visits. */
  function RangeClocks(range: string): seq<(nat, nat)>
    requires Terminates(range)
  {
    match ParseRange(range)
    case None => []
    case Some((s, e)) =>
      if s.hour.None? || s.minute.None? then []
      else ClocksFrom(s.hour.value, s.minute.value, e.hour, e.minute)
  }

  /** The slots one range contributes. */
  function RangeSlots(range: string): seq<string>
    requires Terminates(range)
  {
    Render(RangeClocks(range))
  }

  /** The `while` loop for one range. */
  method GenerateRange(range: string) returns (slots: seq<string>)
    requires Terminates(range)
    ensures slots == RangeSlots(range)
  {
    slots := [];
    var parsed := ParseRange(range);
    if parsed.None? {
      return;
    }
    var (start, end) := parsed.value;
    if start.hour.None? || start.minute.None? {
      return;
    }
    var currentHour: nat := start.hour.value;
    var currentMinute: nat := start.minute.value;
    ghost var visited: seq<(nat, nat)> := [];
    while Before(currentHour, currentMinute, end.hour, end.minute)
      invariant visited + ClocksFrom(currentHour, currentMinute, end.hour, end.minute) == RangeClocks(range)
      invariant slots == Render(visited)
      decreases (if end.hour.Some? && currentHour <= end.hour.value then end.hour.value + 1 - currentHour else 0),
        (if currentMinute < 60 then 60 - currentMinute else 0)
    {
      ghost var (h, m) := (currentHour, currentMinute);
      RenderSnoc(visited, currentHour, currentMinute);
      slots := slots + [Format(currentHour, currentMinute)];
      currentMinute := currentMinute + 15;
      if currentMinute >= 60 {
        currentHour := currentHour + 1;
        currentMinute := currentMinute - 60;
      }
      ClocksStep(visited, h, m, currentHour, currentMinute, end.hour, end.minute);
      visited := visited + [(h, m)];
    }
    assert visited == RangeClocks(range);
  }

  /** One turn of the loop: the reading just labelled moves from the readings ahead to those visited. */
  lemma ClocksStep(visited: seq<(nat, nat)>, h: nat, m: nat, h': nat, m': nat, eh: Option<nat>, em: Option<nat>)
    requires Before(h, m, eh, em)
    requires if m + 15 >= 60 then h' == h + 1 && m' == m + 15 - 60 else h' == h && m' == m + 15
    ensures (visited + [(h, m)]) + ClocksFrom(h', m', eh, em) == visited + ClocksFrom(h, m, eh, em)
  {
    Stock.ConcatAssoc(visited, [(h, m)], ClocksFrom(h', m', eh, em));
  }

  lemma {:induction false} DigitPairValue(s: string)
    requires |s| == 2 && AllDigits(s)
    ensures DigitsValue(s) == DigitValue(s[0]) * 10 + DigitValue(s[1]) && DigitsValue(s) < 100
  {
    var first := s[..1];
    assert first[..0] == [] && first[0] == s[0];
    assert DigitsValue(first) == DigitValue(s[0]);
    assert s[..|s| - 1] == first;
  }

  lemma TwoDigitField(s: string, a: char, b: char)
    requires s == [a, b] && IsDigit(a) && IsDigit(b)
    ensures DigitsValue(s) == DigitValue(a) * 10 + DigitValue(b)
  {
    DigitPairValue(s);
  }

  /** An `NN:NN` field reads as two numbers below 100. */
  lemma ClockOfValid(s: string)
    requires |s| == 5 && IsDigit(s[0]) && IsDigit(s[1]) && s[2] == ':' && IsDigit(s[3]) && IsDigit(s[4])
    ensures ParseClock(s) == Clock(Some(DigitsValue(s[..2])), Some(DigitsValue(s[3..])))
    ensures DigitsValue(s[..2]) < 100 && DigitsValue(s[3..]) < 100
  {
    assert s == s[..2] + [':'] + s[3..];
    SplitAt(s[..2], ':', s[3..]);
    SplitNoSep(s[3..], ':');
    DigitPairValue(s[..2]);
    DigitPairValue(s[3..]);
  }

  /** A range that passed the doctor form's check parses to four numbers below 100, so the loop ends. */
  lemma ValidRangeParses(range: string)
    requires Availability.ValidRange(range)
    ensures ParseRange(range) == Some((ParseClock(range[..5]), ParseClock(range[6..])))
    ensures var (s, e) := ParseRange(range).value;
      s.hour.Some? && s.minute.Some? && e.hour.Some? && e.minute.Some? &&
      s.hour.value < 100 && s.minute.value < 100 && e.hour.value < 100 && e.minute.value < 100
    ensures Terminates(range)
  {
    var a := range[..5];
    var b := range[6..];
    assert range == a + ['-'] + b;
    SplitAt(a, '-', b);
    SplitNoSep(b, '-');
    ClockOfValid(a);
    ClockOfValid(b);
  }

  /**
   * A range whose start and end read as clock times with minutes below 60 gives
   * the labels of the times from its start, every 15 minutes, strictly before its end.
   */
  lemma RangeSlotsBetween(range: string, h: nat, m: nat, eh: nat, em: nat)
    requires ParseRange(range) == Some((Clock(Some(h), Some(m)), Clock(Some(eh), Some(em))))
    requires m < 60 && em < 60
    ensures Terminates(range)
    ensures RangeSlots(range) == Labels(SlotTimes(h * 60 + m, eh * 60 + em))
  {
    ClocksFromBetween(h, m, eh, em);
    ClocksFromMinuteBelow60(h, m, Some(eh), Some(em));
    RenderMinutes(RangeClocks(range));
  }

  /** A field `ab:cd` of four digits reads as the clock ab:cd. */
  lemma ClockOfDigits(s: string, a: char, b: char, c: char, d: char)
    requires s == [a, b, ':', c, d] && IsDigit(a) && IsDigit(b) && IsDigit(c) && IsDigit(d)
    ensures ParseClock(s) == Clock(Some(DigitValue(a) * 10 + DigitValue(b)), Some(DigitValue(c) * 10 + DigitValue(d)))
  {
    ClockOfValid(s);
    TwoDigitField(s[..2], a, b);
    TwoDigitField(s[3..], c, d);
  }

  lemma DefaultRangeFields(range: string)
    requires range == Availability.DefaultRange
    ensures Availability.ValidRange(range) && range[..5] == "09:00" && range[6..] == "17:00"
  {
  }

  /** The form's default range "09:00-17:00" reads as 09:00 to 17:00. */
  lemma DefaultRangeParses(range: string)
    requires range == Availability.DefaultRange
    ensures ParseRange(range) == Some((Clock(Some(9), Some(0)), Clock(Some(17), Some(0))))
  {
    DefaultRangeFields(range);
    ValidRangeParses(range);
    OpeningField(range[..5]);
    ClosingField(range[6..]);
  }

  lemma OpeningField(s: string)
    requires s == "09:00"
    ensures ParseClock(s) == Clock(Some(9), Some(0))
  {
    ClockOfDigits(s, '0', '9', '0', '0');
  }

  lemma ClosingField(s: string)
    requires s == "17:00"
    ensures ParseClock(s) == Clock(Some(17), Some(0))
  {
    ClockOfDigits(s, '1', '7', '0', '0');
  }

  /** A range reading as the fallback's opening to its closing time gives exactly the fallback slots. */
  lemma OpeningHoursAreFallback(range: string, h: nat, m: nat, eh: nat, em: nat)
    requires ParseRange(range) == Some((Clock(Some(h), Some(m)), Clock(Some(eh), Some(em))))
    requires m < 60 && em < 60 && h * 60 + m == Opening && eh * 60 + em == Closing
    ensures Terminates(range) && RangeSlots(range) == Labels(FallbackTimes())
  {
    RangeSlotsBetween(range, h, m, eh, em);
  }

  /** The form's default range gives exactly the fallback slots. */
  lemma DefaultRangeIsFallback(range: string)
    requires range == Availability.DefaultRange
    ensures Terminates(range) && RangeSlots(range) == Labels(FallbackTimes())
  {
    DefaultRangeParses(range);
    OpeningHoursAreFallback(range, 9, 0, 17, 0);
  }
}
