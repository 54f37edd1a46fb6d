/** The weekly availability editor of the doctor form, and its summary in the doctor list. */
module Availability {
  import opened Wrappers
  import opened Model
  import opened Seqs
  import opened Text

  /** `obj[day]`: the ranges stored under a weekday, if any. */
  function Lookup(av: seq<DaySlots>, day: string): Option<seq<string>>
  {
    if av == [] then None
    else if av[0].day == day then Some(av[0].ranges)
    else Lookup(av[1..], day)
  }

  /** `Object.keys(obj)`. */
  function Keys(av: seq<DaySlots>): (r: seq<string>)
    ensures |r| == |av| && forall i :: 0 <= i < |av| ==> r[i] == av[i].day
  {
    seq(|av|, i requires 0 <= i < |av| => av[i].day)
  }

  lemma {:induction false} LookupKeys(av: seq<DaySlots>, day: string)
    ensures Lookup(av, day).Some? <==> day in Keys(av)
  {
    if av != [] {
      LookupKeys(av[1..], day);
      assert Keys(av) == [av[0].day] + Keys(av[1..]);
    }
  }

  lemma KeysCons(x: DaySlots, rest: seq<DaySlots>)
    ensures Keys([x] + rest) == [x.day] + Keys(rest)
  {
  }

  lemma LookupCons(x: DaySlots, rest: seq<DaySlots>, d: string)
    ensures Lookup([x] + rest, d) == if x.day == d then Some(x.ranges) else Lookup(rest, d)
  {
    assert ([x] + rest)[0] == x && ([x] + rest)[1..] == rest;
  }

  /** The first key of a schedule occurs nowhere after it. */
  lemma HeadNotInTail(av: Schedule)
    requires av != []
    ensures av[0].day !in Keys(av[1..])
  {
  }

  /** A key not among the rest's can go in front without a clash. */
  lemma DistinctCons(x: DaySlots, rest: Schedule)
    requires x.day !in Keys(rest)
    ensures DistinctDays([x] + rest)
  {
    assert forall i :: 0 <= i < |rest| ==> rest[i].day in Keys(rest);
  }

  /**
   * `obj[day] = ranges`: an existing key keeps its place, a new one goes last;
   * every other key keeps its ranges.
   */
  function Put(av: Schedule, day: string, ranges: seq<string>): (r: Schedule)
    ensures Lookup(r, day) == Some(ranges)
    ensures forall d :: d != day ==> Lookup(r, d) == Lookup(av, d)
    ensures Keys(r) == if day in Keys(av) then Keys(av) else Keys(av) + [day]
  {
    if av == [] then [DaySlots(day, ranges)]
    else
      assert av == [av[0]] + av[1..];
      KeysCons(av[0], av[1..]);
      HeadNotInTail(av);
      if av[0].day == day then
        var x := DaySlots(day, ranges);
        DistinctCons(x, av[1..]);
        var r: Schedule := [x] + av[1..];
        KeysCons(x, av[1..]);
        assert forall d :: Lookup(r, d) == if d == day then Some(ranges) else Lookup(av, d) by {
          forall d
            ensures Lookup(r, d) == if d == day then Some(ranges) else Lookup(av, d)
          {
            LookupCons(x, av[1..], d);
            LookupCons(av[0], av[1..], d);
          }
        }
        r
      else
        var rest := Put(av[1..], day, ranges);
        DistinctCons(av[0], rest);
        var r: Schedule := [av[0]] + rest;
        KeysCons(av[0], rest);
        assert forall d :: Lookup(r, d) == if d == day then Some(ranges) else Lookup(av, d) by {
          forall d
            ensures Lookup(r, d) == if d == day then Some(ranges) else Lookup(av, d)
          {
            LookupCons(av[0], rest, d);
            LookupCons(av[0], av[1..], d);
          }
        }
        r
  }

  /** `delete obj[day]`: the key is gone, the others keep their ranges and order. */
  function Delete(av: Schedule, day: string): (r: Schedule)
    ensures Lookup(r, day) == None
    ensures forall d :: d != day ==> Lookup(r, d) == Lookup(av, d)
    ensures forall d :: d in Keys(r) <==> d in Keys(av) && d != day
  {
    if av == [] then []
    else
      var rest := Delete(av[1..], day);
      assert Keys(av) == [av[0].day] + Keys(av[1..]);
      if av[0].day == day then
        rest
      else
        assert av[0].day !in Keys(av[1..]);
        DistinctCons(av[0], rest);
        var r: Schedule := [av[0]] + rest;
        assert Keys(r) == [av[0].day] + Keys(rest);
        r
  }

  /** The range a newly ticked day starts with. */
  const DefaultRange := "09:00-17:00"

  /** `handleDayToggle`: a ticked day is removed, an unticked one gets the default range. */
  function ToggleDay(av: Schedule, day: string): (r: Schedule)
    ensures Lookup(r, day) == if Lookup(av, day).Some? then None else Some([DefaultRange])
    ensures forall d :: d != day ==> Lookup(r, d) == Lookup(av, d)
  {
    if Lookup(av, day).Some? then Delete(av, day) else Put(av, day, [DefaultRange])
  }

  lemma {:induction false} DeleteAbsent(av: Schedule, day: string)
    requires day !in Keys(av)
    ensures Delete(av, day) == av
  {
    if av != [] {
      assert Keys(av) == [av[0].day] + Keys(av[1..]);
      DeleteAbsent(av[1..], day);
    }
  }

  lemma {:induction false} DeleteAppended(av: Schedule, x: DaySlots)
    requires x.day !in Keys(av) && DistinctDays(av + [x])
    ensures Delete(av + [x], x.day) == av
  {
    if av == [] {
      assert [] + [x] == [x];
    } else {
      assert Keys(av) == [av[0].day] + Keys(av[1..]);
      assert (av + [x])[1..] == av[1..] + [x];
      DeleteAppended(av[1..], x);
    }
  }

  lemma {:induction false} PutAbsent(av: Schedule, day: string, ranges: seq<string>)
    requires day !in Keys(av)
    ensures Put(av, day, ranges) == av + [DaySlots(day, ranges)]
  {
    if av != [] {
      assert Keys(av) == [av[0].day] + Keys(av[1..]);
      PutAbsent(av[1..], day, ranges);
    }
  }

  /** Ticking an unticked day and unticking it again gives back the same object. */
  lemma ToggleTwiceRestores(av: Schedule, day: string)
    requires Lookup(av, day).None?
    ensures ToggleDay(ToggleDay(av, day), day) == av
  {
    LookupKeys(av, day);
    PutAbsent(av, day, [DefaultRange]);
    DeleteAppended(av, DaySlots(day, [DefaultRange]));
  }

  /** `handleTimeChange`: overwrites one range of a ticked day; an unticked day is ignored. */
  function TimeChange(av: Schedule, day: string, index: nat, value: string): (r: Schedule)
    requires Lookup(av, day).Some? ==> index < |Lookup(av, day).value|
    ensures Lookup(av, day).None? ==> r == av
    ensures Lookup(av, day).Some? ==> Lookup(r, day) == Some(Lookup(av, day).value[index := value])
    ensures Keys(r) == Keys(av)
    ensures forall d :: d != day ==> Lookup(r, d) == Lookup(av, d)
  {
    LookupKeys(av, day);
    match Lookup(av, day)
    case None => av
    case Some(ts) => Put(av, day, ts[index := value])
  }

  /** `addTimeSlot`: a blank range at the end of a ticked day; an unticked day is ignored. */
  function AddTimeSlot(av: Schedule, day: string): (r: Schedule)
    ensures Lookup(av, day).None? ==> r == av
    ensures Lookup(av, day).Some? ==> Lookup(r, day) == Some(Lookup(av, day).value + [""])
    ensures Keys(r) == Keys(av)
    ensures forall d :: d != day ==> Lookup(r, d) == Lookup(av, d)
  {
    LookupKeys(av, day);
    match Lookup(av, day)
    case None => av
    case Some(ts) => Put(av, day, ts + [""])
  }

  /** `ts.filter((_, i) => i !== index)`. */
  function RemoveAt(ts: seq<string>, index: nat): (r: seq<string>)
    ensures index < |ts| ==> r == ts[..index] + ts[index + 1..]
    ensures index >= |ts| ==> r == ts
  {
    if index < |ts| then ts[..index] + ts[index + 1..] else ts
  }

  /**
   * `removeTimeSlot`: drops one range of a ticked day, and the day itself once it
   * has none left; an unticked day is ignored.
   */
  function RemoveTimeSlot(av: Schedule, day: string, index: nat): (r: Schedule)
    ensures Lookup(av, day).None? ==> r == av
    ensures Lookup(av, day).Some? ==>
      var rest := RemoveAt(Lookup(av, day).value, index);
      Lookup(r, day) == if rest == [] then None else Some(rest)
    ensures forall d :: d != day ==> Lookup(r, d) == Lookup(av, d)
  {
    match Lookup(av, day)
    case None => av
    case Some(ts) =>
      var rest := RemoveAt(ts, index);
      if rest == [] then Delete(av, day) else Put(av, day, rest)
  }

  /** A range in the form the submit check accepts: `NN:NN-NN:NN`, N a decimal digit. */
  predicate ValidRange(s: string)
  {
    |s| == 11 &&
    IsDigit(s[0]) && IsDigit(s[1]) && s[2] == ':' && IsDigit(s[3]) && IsDigit(s[4]) &&
    s[5] == '-' &&
    IsDigit(s[6]) && IsDigit(s[7]) && s[8] == ':' && IsDigit(s[9]) && IsDigit(s[10])
  }

  /** The ranges of one day that pass the check, or nothing when none does. */
  function CleanDay(ts: seq<string>): (r: Option<seq<string>>)
    ensures r.Some? ==> r.value != [] && forall t :: t in r.value <==> t in ts && ValidRange(t)
    ensures r.None? ==> forall t :: t in ts ==> !ValidRange(t)
  {
    var valid := Filter(ts, ValidRange);
    if valid == [] then None else Some(valid)
  }

  /**
   * The availability saved by `handleSubmit`: only ranges of the form `NN:NN-NN:NN`
   * are kept and a day left with none is dropped. The hours and minutes are not
   * range-checked and the start need not precede the end.
   */
  function Clean(av: Schedule): (r: Schedule)
    ensures forall d :: Lookup(r, d) == match Lookup(av, d) case None => None case Some(ts) => CleanDay(ts)
    ensures forall d :: d in Keys(r) ==> d in Keys(av)
  {
    if av == [] then []
    else
      var rest := Clean(av[1..]);
      assert Keys(av) == [av[0].day] + Keys(av[1..]);
      assert av[0].day !in Keys(av[1..]);
      LookupKeys(rest, av[0].day);
      match CleanDay(av[0].ranges)
      case None => rest
      case Some(v) =>
        DistinctCons(DaySlots(av[0].day, v), rest);
        var r: Schedule := [DaySlots(av[0].day, v)] + rest;
        assert Keys(r) == [av[0].day] + Keys(rest);
        r
  }

  /** Every range that survives the submit has the `NN:NN-NN:NN` form, and every day keeps at least one. */
  lemma {:induction false} CleanIsValid(av: Schedule)
    ensures forall i :: 0 <= i < |Clean(av)| ==>
      Clean(av)[i].ranges != [] && forall t :: t in Clean(av)[i].ranges ==> ValidRange(t)
  {
    if av != [] {
      CleanIsValid(av[1..]);
    }
  }

  const NotSet := "Not Set"

  /** The first three letters of each weekday, in key order. */
  function ShortNames(av: seq<DaySlots>): (r: seq<string>)
    ensures |r| == |av| && forall i :: 0 <= i < |r| ==> |r[i]| <= 3
  {
    seq(|av|, i requires 0 <= i < |av| => Take(av[i].day, 3))
  }

  lemma JoinShortNotSet(parts: seq<string>)
    requires parts != [] && forall i :: 0 <= i < |parts| ==> |parts[i]| <= 3
    ensures Join(parts, ", ") != NotSet
  {
    if |parts| > 1 {
      var j := Join(parts, ", ");
      assert j == parts[0] + ", " + Join(parts[1..], ", ");
      assert j[|parts[0]|] == ',';
    }
  }

  /** `formatAvailability`: "Not Set" exactly when no weekday is set, else the short names joined by ", ". */
  function FormatAvailability(av: Option<Schedule>): (r: string)
    ensures r == NotSet <==> av.None? || av.value == []
    ensures av.Some? && av.value != [] ==> r == Join(ShortNames(av.value), ", ")
  {
    if av.None? || av.value == [] then NotSet
    else
      JoinShortNotSet(ShortNames(av.value));
      Join(ShortNames(av.value), ", ")
  }
}
