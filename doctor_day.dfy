/**
 * A doctor's day on the operational dashboard: which days the date picker
 * offers, and the 15-minute slots listed for a chosen day.
 */
module DoctorDay {
  import opened Wrappers
  import opened Model
  import opened Scheduling
  import Availability
  import Stock

  /** No doctor, no availability, or an empty one: the scheduler falls back to defaults. */
  predicate NoSchedule(doctor: Option<Doctor>)
  {
    doctor.None? || doctor.value.availability.None? || doctor.value.availability.value == []
  }

  /** `isDayAvailable`: every day without a schedule, otherwise the days with an entry. */
  function IsDayAvailable(doctor: Option<Doctor>, dayName: string): (r: bool)
    ensures NoSchedule(doctor) ==> r
    ensures !NoSchedule(doctor) ==> (r <==> Availability.Lookup(doctor.value.availability.value, dayName).Some?)
  {
    NoSchedule(doctor) || Availability.Lookup(doctor.value.availability.value, dayName).Some?
  }

  /** Every range of a day's entry lets the slot loop end. */
  predicate DayTerminates(doctor: Option<Doctor>, dayName: string)
  {
    NoSchedule(doctor) ||
    match Availability.Lookup(doctor.value.availability.value, dayName)
    case None => true
    case Some(ranges) => forall i :: 0 <= i < |ranges| ==> Terminates(ranges[i])
  }

  /** The slots of a day's ranges, range after range. */
  function ConcatSlots(ranges: seq<string>): seq<string>
    requires forall i :: 0 <= i < |ranges| ==> Terminates(ranges[i])
  {
    if ranges == [] then [] else RangeSlots(ranges[0]) + ConcatSlots(ranges[1..])
  }

  /** `timeSlots`: the fallback, nothing for a day without an entry, or each range's slots in turn. */
  function TimeSlotsOf(doctor: Option<Doctor>, dayName: string): seq<string>
    requires DayTerminates(doctor, dayName)
  {
    if NoSchedule(doctor) then Labels(FallbackTimes())
    else match Availability.Lookup(doctor.value.availability.value, dayName)
      case None => []
      case Some(ranges) => ConcatSlots(ranges)
  }

  method TimeSlots(doctor: Option<Doctor>, dayName: string) returns (slots: seq<string>)
    requires DayTerminates(doctor, dayName)
    ensures slots == TimeSlotsOf(doctor, dayName)
  {
    if NoSchedule(doctor) {
      slots := DefaultSlots();
      return;
    }
    var daySlots := Availability.Lookup(doctor.value.availability.value, dayName);
    if daySlots.None? {
      return [];
    }
    slots := RangesSlots(daySlots.value);
  }

  /** The slots of each range in turn, appended as the ranges are walked. */
  method RangesSlots(ranges: seq<string>) returns (slots: seq<string>)
    requires forall i :: 0 <= i < |ranges| ==> Terminates(ranges[i])
    ensures slots == ConcatSlots(ranges)
  {
    slots := [];
    for k := 0 to |ranges|
      invariant slots + ConcatSlots(ranges[k..]) == ConcatSlots(ranges)
    {
      var more := GenerateRange(ranges[k]);
      ConcatSlotsAt(ranges, k);
      Stock.ConcatAssoc(slots, more, ConcatSlots(ranges[k + 1..]));
      slots := slots + more;
    }
    assert ranges[|ranges|..] == [];
  }

  lemma ConcatSlotsAt(ranges: seq<string>, k: nat)
    requires forall i :: 0 <= i < |ranges| ==> Terminates(ranges[i])
    requires k < |ranges|
    ensures ConcatSlots(ranges[k..]) == RangeSlots(ranges[k]) + ConcatSlots(ranges[k + 1..])
  {
    assert ranges[k..][0] == ranges[k] && ranges[k..][1..] == ranges[k + 1..];
  }

  /** A day the date picker greys out offers no slot. */
  lemma UnavailableDayHasNoSlots(doctor: Option<Doctor>, dayName: string)
    requires !IsDayAvailable(doctor, dayName)
    ensures DayTerminates(doctor, dayName) && TimeSlotsOf(doctor, dayName) == []
  {
  }

  /** Every day of a schedule saved through the doctor form lets the slot loop end. */
  lemma CleanedScheduleTerminates(d: Doctor, av: Schedule, dayName: string)
    requires d.availability == Some(Availability.Clean(av))
    ensures DayTerminates(Some(d), dayName)
  {
    Availability.CleanIsValid(av);
    var cleaned := Availability.Clean(av);
    match Availability.Lookup(cleaned, dayName)
    case None =>
    case Some(ranges) =>
      LookupFound(cleaned, dayName);
      forall i | 0 <= i < |ranges|
        ensures Terminates(ranges[i])
      {
        assert ranges[i] in ranges;
        ValidRangeParses(ranges[i]);
      }
  }

  lemma {:induction false} LookupFound(av: seq<DaySlots>, day: string)
    requires Availability.Lookup(av, day).Some?
    ensures exists i :: 0 <= i < |av| && av[i].ranges == Availability.Lookup(av, day).value
  {
    if av[0].day != day {
      LookupFound(av[1..], day);
      var i :| 0 <= i < |av[1..]| && av[1..][i].ranges == Availability.Lookup(av[1..], day).value;
      assert av[i + 1].ranges == Availability.Lookup(av, day).value;
    }
  }
}
