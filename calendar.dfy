/**
 * The doctor's weekly calendar: the half-hour grid, the doctor's confirmed
 * appointments, and whether a cell is unavailable, booked or available.
 * The weekday name and the ISO date of a column are parameters.
 */
module Calendar {
  import opened Wrappers
  import opened Model
  import opened Seqs
  import opened Text
  import Availability
  import Scheduling
  import Dashboard

  // ------------------------------------------------------------ ranges

  /** `isTimeInRange`: the range's two fields must both be non-empty; then `start <= time < end` on strings. */
  predicate IsTimeInRange(time: string, range: string)
  {
    var p := Split(range, '-');
    p[0] != "" && |p| >= 2 && p[1] != "" && StrLe(p[0], time) && StrLt(time, p[1])
  }

  /** A range the scheduler cannot parse contains no time on the calendar either. */
  lemma UnparsedRangeContainsNothing(time: string, range: string)
    requires Scheduling.ParseRange(range).None?
    ensures !IsTimeInRange(time, range)
  {
  }

  /** A range contains exactly the times between its two fields, the start included and the end excluded. */
  lemma RangeBounds(start: string, end: string, time: string)
    requires start != "" && end != "" && '-' !in start && '-' !in end
    ensures IsTimeInRange(time, start + "-" + end) <==> StrLe(start, time) && StrLt(time, end)
  {
    SplitNoSep(end, '-');
    SplitAt(start, '-', end);
    assert start + "-" + end == start + ['-'] + end;
  }

  /** Every non-empty range contains its own start. */
  lemma RangeContainsStart(start: string, end: string)
    requires start != "" && end != "" && '-' !in start && '-' !in end
    requires StrLt(start, end)
    ensures IsTimeInRange(start, start + "-" + end)
  {
    RangeBounds(start, end, start);
    StrLtIrreflexive(start);
  }

  // ------------------------------------------------------------ the grid

  /** The first n half-hour marks from 08:00, in minutes after midnight. */
  function HalfHours(n: nat): (r: seq<nat>)
    ensures |r| == n && forall i :: 0 <= i < n ==> r[i] == 480 + 30 * i
  {
    seq(n, i requires 0 <= i < n => 480 + 30 * i)
  }

  lemma HalfHoursStep(h: nat, m0: nat, m30: nat)
    requires 8 <= h && m0 == 0 && m30 == 30
    ensures HalfHours(2 * (h - 8) + 2) == HalfHours(2 * (h - 8)) + [h * 60 + m0, h * 60 + m30]
  {
    var n := 2 * (h - 8);
    var l, r := HalfHours(n + 2), HalfHours(n) + [h * 60 + m0, h * 60 + m30];
    forall k | 0 <= k < n + 2
      ensures l[k] == r[k]
    {
    }
  }

  /** The label of minute m of hour h, for a two-digit minute below 60; `tail` is the `:MM` it ends with. */
  lemma HourLabel(h: nat, m: nat, d1: nat, d0: nat, tail: string)
    requires m == 10 * d1 + d0 && d1 < 6 && d0 < 10
    requires tail == [':', DigitChar(d1), DigitChar(d0)]
    ensures Scheduling.AtMinute(h * 60 + m) == Pad2(h) + tail
  {
    Scheduling.AtMinuteOf(h, m);
    Scheduling.TwoDigits(m, d1, d0);
    LabelJoin(Pad2(h), Pad2(m), DigitChar(d1), DigitChar(d0));
  }

  lemma LabelJoin(a: string, b: string, c1: char, c0: char)
    requires b == [c1, c0]
    ensures a + ":" + b == a + [':', c1, c0]
  {
  }

  lemma LabelsPair(t0: nat, t1: nat)
    ensures Scheduling.Labels([t0, t1]) == [Scheduling.AtMinute(t0), Scheduling.AtMinute(t1)]
  {
  }

  /** The labels of hour h and half past it; the minutes are parameters so that no literal call unfolds. */
  lemma PairLabels(h: nat, m0: nat, m30: nat)
    requires m0 == 0 && m30 == 30
    ensures Scheduling.Labels([h * 60 + m0, h * 60 + m30]) == [Pad2(h) + ":00", Pad2(h) + ":30"]
  {
    var t0, t30, p := h * 60 + m0, h * 60 + m30, Pad2(h);
    var x, y := Scheduling.AtMinute(t0), Scheduling.AtMinute(t30);
    assert x == p + ":00" by {
      HourLabel(h, m0, 0, 0, ":00");
    }
    assert y == p + ":30" by {
      HourLabel(h, m30, 3, 0, ":30");
    }
    LabelsPair(t0, t30);
  }

  /** Two more marks label hour h on the hour and at half past. */
  lemma GridStep(slots: seq<string>, h: nat, m0: nat, m30: nat)
    requires m0 == 0 && m30 == 30
    requires 8 <= h && slots == Scheduling.Labels(HalfHours(2 * (h - 8)))
    ensures slots + [Pad2(h) + ":00", Pad2(h) + ":30"] ==
      Scheduling.Labels(HalfHours(2 * (h - 8) + 2))
  {
    var ts, pair := HalfHours(2 * (h - 8)), [h * 60 + m0, h * 60 + m30];
    HalfHoursStep(h, m0, m30);
    Scheduling.LabelsAppend(ts, pair);
    PairLabels(h, m0, m30);
    assert Scheduling.Labels(ts + pair) == slots + Scheduling.Labels(pair);
  }

  /** `timeSlots`: for each hour from 8 to 19, its `HH:00` and `HH:30` labels. */
  method TimeSlots() returns (slots: seq<string>)
    ensures slots == Scheduling.Labels(HalfHours(24))
  {
    var onTheHour, halfPast := 0, 30;
    slots := [];
    for h := 8 to 20
      invariant slots == Scheduling.Labels(HalfHours(2 * (h - 8)))
    {
      GridStep(slots, h, onTheHour, halfPast);
      slots := slots + [Pad2(h) + ":00", Pad2(h) + ":30"];
    }
  }

  /** The grid has 24 rows and starts at 08:00. */
  lemma GridFirst(n: nat)
    requires n == 24
    ensures |Scheduling.Labels(HalfHours(n))| == 24
    ensures Scheduling.Labels(HalfHours(n))[0] == "08:00"
  {
    assert HalfHours(n)[0] == 8 * 60 + 0;
    Scheduling.AtMinuteOf(8, 0);
    Scheduling.FormatShape(8, 0, 0, 8, 0, 0);
  }

  /** The grid's last row is 19:30. */
  lemma GridLast(n: nat)
    requires n == 24
    ensures Scheduling.Labels(HalfHours(n))[n - 1] == "19:30"
  {
    assert HalfHours(n)[n - 1] == 19 * 60 + 30;
    Scheduling.AtMinuteOf(19, 30);
    Scheduling.FormatShape(19, 30, 1, 9, 3, 0);
  }

  // ------------------------------------------------------------ appointments

  /** The id of the doctor a request names, if any doctor has that name. */
  function NamedDoctorId(doctors: seq<Doctor>, app: AppointmentRequest): Option<string>
  {
    match Dashboard.FindDoctorByName(doctors, app.requestDetail)
    case None => None
    case Some(d) => Some(d.id)
  }

  predicate IsOwnConfirmed(doctors: seq<Doctor>, currentUserId: Option<string>, app: AppointmentRequest)
  {
    NamedDoctorId(doctors, app) == currentUserId && app.status == Confirmed
  }

  /**
   * `doctorAppointments`: the confirmed requests whose named doctor's id is
   * the current user's. With no current user the `undefined === undefined`
   * comparison keeps the confirmed requests that name no known doctor.
   */
  function DoctorAppointments(requests: seq<AppointmentRequest>, doctors: seq<Doctor>,
                              currentUserId: Option<string>): (r: seq<AppointmentRequest>)
    ensures forall a :: a in r <==>
      (a in requests && a.status == Confirmed && NamedDoctorId(doctors, a) == currentUserId)
  {
    Filter(requests, a => IsOwnConfirmed(doctors, currentUserId, a))
  }

  /** A signed-in doctor sees exactly the confirmed requests whose first same-named doctor has the doctor's id. */
  lemma OwnAppointments(requests: seq<AppointmentRequest>, doctors: seq<Doctor>, uid: string, a: AppointmentRequest)
    requires a in requests
    ensures a in DoctorAppointments(requests, doctors, Some(uid)) <==>
      a.status == Confirmed &&
      exists k :: 0 <= k < |doctors| && doctors[k].name == a.requestDetail && doctors[k].id == uid &&
        forall j :: 0 <= j < k ==> doctors[j].name != a.requestDetail
  {
    var i := IndexOf(doctors, (d: Doctor) => d.name == a.requestDetail);
    if i.Some? {
      var k := i.value;
      if a.status == Confirmed && doctors[k].id == uid {
        assert forall j :: 0 <= j < k ==> doctors[j].name != a.requestDetail;
      }
    }
  }

  // ------------------------------------------------------------ cells

  datatype SlotInfo = Unavailable | Booked(appointment: AppointmentRequest) | Open

  /** The time's first four characters begin the appointment's time on the column's date. */
  predicate BooksSlot(app: AppointmentRequest, dateString: string, time: string)
  {
    app.appointmentDate == Some(dateString) && app.appointmentTime.Some? &&
    StartsWith(app.appointmentTime.value, Take(time, 4))
  }

  /** Position k holds the first appointment that books the slot. */
  predicate FirstBooking(appointments: seq<AppointmentRequest>, k: int, dateString: string, time: string)
  {
    0 <= k < |appointments| && BooksSlot(appointments[k], dateString, time) &&
    forall j :: 0 <= j < k ==> !BooksSlot(appointments[j], dateString, time)
  }

  /** Some range of the day contains the time. */
  predicate AnyRangeHolds(ranges: seq<string>, time: string)
  {
    exists k :: 0 <= k < |ranges| && IsTimeInRange(time, ranges[k])
  }

  /** The ranges the doctor set for the column's weekday, when a doctor with a schedule is signed in. */
  function DayRanges(doctor: Option<Doctor>, dayName: string): Option<seq<string>>
  {
    if doctor.None? || doctor.value.availability.None? then None
    else Availability.Lookup(doctor.value.availability.value, dayName)
  }

  /**
   * `getSlotInfo`: unavailable without a schedule, without ranges that day or
   * outside every range; otherwise booked by the first own appointment on that
   * date whose time starts with the slot's first four characters, else open.
   */
  function SlotInfoOf(doctor: Option<Doctor>, appointments: seq<AppointmentRequest>,
                      dayName: string, dateString: string, time: string): (r: SlotInfo)
    ensures r.Unavailable? <==>
      var rs := DayRanges(doctor, dayName); rs.None? || !AnyRangeHolds(rs.value, time)
    ensures r.Booked? ==> r.appointment in appointments && BooksSlot(r.appointment, dateString, time)
    ensures r.Booked? ==> exists k :: FirstBooking(appointments, k, dateString, time) && appointments[k] == r.appointment
    ensures r.Open? <==>
      (DayRanges(doctor, dayName).Some? && AnyRangeHolds(DayRanges(doctor, dayName).value, time) &&
       forall a :: a in appointments ==> !BooksSlot(a, dateString, time))
  {
    var rs := DayRanges(doctor, dayName);
    if rs.None? || |rs.value| == 0 then Unavailable
    else if !AnyRangeHolds(rs.value, time) then Unavailable
    else match IndexOf(appointments, (a: AppointmentRequest) => BooksSlot(a, dateString, time))
      case Some(k) => Booked(appointments[k])
      case None => Open
  }

  /** A cell of a day the doctor has not scheduled is unavailable whatever the time. */
  lemma UnscheduledDayUnavailable(doctor: Option<Doctor>, appointments: seq<AppointmentRequest>,
                                  dayName: string, dateString: string, time: string)
    requires doctor.Some? && doctor.value.availability.Some?
    requires dayName !in Availability.Keys(doctor.value.availability.value)
    ensures SlotInfoOf(doctor, appointments, dayName, dateString, time) == Unavailable
  {
    Availability.LookupKeys(doctor.value.availability.value, dayName);
  }

  /** A confirmed own appointment at a slot's exact time, inside the doctor's hours, marks that slot booked. */
  lemma AppointmentBooksSlot(doctor: Option<Doctor>, appointments: seq<AppointmentRequest>,
                             dayName: string, dateString: string, time: string, a: AppointmentRequest)
    requires a in appointments && a.appointmentDate == Some(dateString) && a.appointmentTime == Some(time)
    requires DayRanges(doctor, dayName).Some? && AnyRangeHolds(DayRanges(doctor, dayName).value, time)
    ensures SlotInfoOf(doctor, appointments, dayName, dateString, time).Booked?
  {
    assert StartsWith(time, Take(time, 4));
    assert BooksSlot(a, dateString, time);
  }
}
