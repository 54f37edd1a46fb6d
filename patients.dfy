/**
 * The patient screens (components/PatientManagement.tsx): the live timers of
 * the patient-flow board, its counts, the pincode lookup of the patient form
 * and the bed assignment on submit. Times are milliseconds since the epoch.
 */
module Patients {
  import opened Wrappers
  import opened Model
  import opened Seqs
  import opened Text

  // ------------------------------------------------------------- timers

  /** JavaScript's `a % 60000`: the remainder takes the dividend's sign. */
  function JsRemMinute(a: int): (r: int)
    ensures a >= 0 ==> 0 <= r < 60000 && a == (a / 60000) * 60000 + r
    ensures a < 0 ==> -60000 < r <= 0
    ensures (a - r) % 60000 == 0
  {
    if a >= 0 then a % 60000 else -((-a) % 60000)
  }

  /** The minutes and seconds `formatWaitTime` shows; `Math.floor` of a quotient by a positive divisor is `/`. */
  function WaitParts(diffMs: int): (int, int)
  {
    (diffMs / 60000, JsRemMinute(diffMs) / 1000)
  }

  /** `formatWaitTime`: `MM:SS` since the check-in. */
  function FormatWaitTime(nowMs: int, startMs: int): string
  {
    var (mins, secs) := WaitParts(nowMs - startMs);
    Pad2(mins) + ":" + Pad2(secs)
  }

  /** For a non-negative wait the parts are whole minutes and the seconds left over, below 60. */
  lemma WaitPartsExact(diffMs: int)
    requires diffMs >= 0
    ensures var (mins, secs) := WaitParts(diffMs);
      mins >= 0 && 0 <= secs < 60 && mins * 60000 + secs * 1000 <= diffMs < mins * 60000 + secs * 1000 + 1000
  {
  }

  /** A padded non-negative number is digits only and reads back as the number. */
  lemma Pad2Value(n: int)
    requires n >= 0
    ensures AllDigits(Pad2(n)) && |Pad2(n)| >= 2 && DigitsValue(Pad2(n)) == n
  {
    assert IntToString(n) == NatToString(n);
    PadStartZerosValue(n, 2);
  }

  /** The wait shown splits at its colon into the minutes and the seconds. */
  lemma FormatWaitTimeReadsBack(nowMs: int, startMs: int)
    requires nowMs >= startMs
    ensures var (mins, secs) := WaitParts(nowMs - startMs);
      var p := Split(FormatWaitTime(nowMs, startMs), ':');
      |p| == 2 && AllDigits(p[0]) && AllDigits(p[1]) && DigitsValue(p[0]) == mins && DigitsValue(p[1]) == secs
  {
    var (mins, secs) := WaitParts(nowMs - startMs);
    var a, b := Pad2(mins), Pad2(secs);
    Pad2Value(mins);
    Pad2Value(secs);
    assert ':' !in a by { assert forall i :: 0 <= i < |a| ==> IsDigit(a[i]); }
    assert ':' !in b by { assert forall i :: 0 <= i < |b| ==> IsDigit(b[i]); }
    SplitNoSep(b, ':');
    SplitAt(a, ':', b);
    assert FormatWaitTime(nowMs, startMs) == a + [':'] + b;
  }

  /** The hours and minutes `formatTotalVisitTime` shows for a non-negative span. */
  function VisitParts(diffMs: int): (int, int)
  {
    var mins := diffMs / 60000;
    (mins / 60, mins % 60)
  }

  /** `formatTotalVisitTime`: `00h 00m` for an end before the start, else `HHh MMm`. */
  function FormatTotalVisitTime(startMs: int, endMs: int): (r: string)
    ensures endMs < startMs ==> r == "00h 00m"
  {
    var diffMs := endMs - startMs;
    if diffMs < 0 then "00h 00m"
    else
      var (hours, minutes) := VisitParts(diffMs);
      Pad2(hours) + "h " + Pad2(minutes) + "m"
  }

  /** A visit's hours and minutes add up to its whole minutes, the minutes below 60. */
  lemma VisitPartsExact(diffMs: int)
    requires diffMs >= 0
    ensures var (hours, minutes) := VisitParts(diffMs);
      hours >= 0 && 0 <= minutes < 60 && hours * 60 + minutes == diffMs / 60000
  {
  }

  /** A non-negative span shows both parts as padded digits. */
  lemma FormatTotalVisitTimeShape(startMs: int, endMs: int)
    requires endMs >= startMs
    ensures var (hours, minutes) := VisitParts(endMs - startMs);
      FormatTotalVisitTime(startMs, endMs) == Pad2(hours) + "h " + Pad2(minutes) + "m" &&
      DigitsValue(Pad2(hours)) == hours && DigitsValue(Pad2(minutes)) == minutes && |Pad2(minutes)| == 2
  {
    var (hours, minutes) := VisitParts(endMs - startMs);
    VisitPartsExact(endMs - startMs);
    Pad2Value(hours);
    Pad2Value(minutes);
    assert NatToString(minutes) == IntToString(minutes);
    assert |NatToString(minutes)| <= 2 by {
      if minutes >= 10 {
        assert NatToString(minutes) == NatToString(minutes / 10) + [DigitChar(minutes % 10)];
      }
    }
  }

  // ------------------------------------------------------------ live flow

  predicate IsActive(v: PatientVisit) { v.status != Completed }

  /** `activeVisits`: the visits not yet completed. */
  function ActiveVisits(visits: seq<PatientVisit>): (r: seq<PatientVisit>)
    ensures forall v :: v in r <==> v in visits && v.status != Completed
  {
    Filter(visits, IsActive)
  }

  predicate IsWaiting(v: PatientVisit) { v.status == WaitingForDoctor }
  predicate IsConsulting(v: PatientVisit) { v.status == InConsultation }
  predicate IsInLabsOrPharmacy(v: PatientVisit) { v.status == InPathology || v.status == WaitingForPharmacy }

  /** The three counters of the board, each over the active visits. */
  datatype FlowCounts = FlowCounts(waiting: nat, inConsultation: nat, inLabsOrPharmacy: nat)

  function Counts(visits: seq<PatientVisit>): FlowCounts
  {
    var active := ActiveVisits(visits);
    FlowCounts(Count(active, IsWaiting), Count(active, IsConsulting), Count(active, IsInLabsOrPharmacy))
  }

  /** Filtering by p after q is filtering by p alone when p excludes what q drops. */
  lemma {:induction false} FilterFilter(s: seq<PatientVisit>, p: PatientVisit -> bool)
    requires forall v :: p(v) ==> IsActive(v)
    ensures Filter(Filter(s, IsActive), p) == Filter(s, p)
  {
    if s != [] {
      FilterFilter(s[1..], p);
      var t := Filter(s[1..], IsActive);
      if IsActive(s[0]) {
        var u := [s[0]] + t;
        assert Filter(s, IsActive) == u;
        assert u[0] == s[0] && u[1..] == t;
        assert Filter(u, p) == (if p(s[0]) then [s[0]] else []) + Filter(t, p);
      } else {
        assert Filter(s, IsActive) == t;
        assert !p(s[0]);
      }
    }
  }

  /** Each counter counts the same visits over all visits, since none of them is completed. */
  lemma CountsOverAllVisits(visits: seq<PatientVisit>)
    ensures Counts(visits).waiting == Count(visits, IsWaiting)
    ensures Counts(visits).inConsultation == Count(visits, IsConsulting)
    ensures Counts(visits).inLabsOrPharmacy == Count(visits, IsInLabsOrPharmacy)
  {
    FilterFilter(visits, IsWaiting);
    FilterFilter(visits, IsConsulting);
    FilterFilter(visits, IsInLabsOrPharmacy);
  }

  /** The three counters never exceed the number of active visits together. */
  lemma {:induction false} CountsBounded(visits: seq<PatientVisit>)
    ensures Count(visits, IsWaiting) + Count(visits, IsConsulting) + Count(visits, IsInLabsOrPharmacy)
      <= Count(visits, IsActive)
  {
    if visits != [] {
      CountsBounded(visits[1..]);
      assert visits == [visits[0]] + visits[1..];
      FilterAppend([visits[0]], visits[1..], IsWaiting);
      FilterAppend([visits[0]], visits[1..], IsConsulting);
      FilterAppend([visits[0]], visits[1..], IsInLabsOrPharmacy);
      FilterAppend([visits[0]], visits[1..], IsActive);
    }
  }

  // ------------------------------------------------------------ the form

  /** A pincode's entry in the lookup table. */
  datatype Place = Place(city: string, state: string)

  /** The pincode effect: city and state from the table for a known six-character pincode, else both cleared. */
  function PincodeLookup(pincode: string, table: map<string, Place>): (r: (string, string))
    ensures |pincode| == 6 && pincode in table ==> r == (table[pincode].city, table[pincode].state)
    ensures !(|pincode| == 6 && pincode in table) ==> r == ("", "")
  {
    if |pincode| == 6 && pincode in table then (table[pincode].city, table[pincode].state) else ("", "")
  }

  /** The fields of the patient form. */
  datatype PatientFields = PatientFields(
    name: string,
    contact: string,
    pincode: string,
    city: string,
    state: string,
    patientType: PatientType,
    assignedDoctorId: string,
    ward: string,
    bedNumber: string)

  /**
   * The form once the pincode effect has run: city and state take the lookup
   * of the pincode field and every other field is kept. The effect runs when
   * the form mounts and after every change of the pincode field.
   */
  function AfterPincodeEffect(f: PatientFields, table: map<string, Place>): (g: PatientFields)
    ensures (g.city, g.state) == PincodeLookup(f.pincode, table)
    ensures g.(city := f.city, state := f.state) == f
  {
    var (city, state) := PincodeLookup(f.pincode, table);
    f.(city := city, state := state)
  }

  /** Typing a pincode: the effect re-runs only when the value differs, as its dependency list says. */
  function PincodeChange(f: PatientFields, pincode: string, table: map<string, Place>): PatientFields
  {
    if pincode == f.pincode then f else AfterPincodeEffect(f.(pincode := pincode), table)
  }

  /** City and state are what the table says for the pincode. */
  predicate PlaceAgrees(f: PatientFields, table: map<string, Place>)
  {
    (f.city, f.state) == PincodeLookup(f.pincode, table)
  }

  /**
   * The effect leaves the form alone exactly when city and state already agree
   * with the pincode, so running it again changes nothing. On the mount of an
   * edit form this means a stored city and state survive only when they agree
   * with the table: an unknown pincode clears them.
   */
  lemma PincodeEffectFixedIff(f: PatientFields, table: map<string, Place>)
    ensures AfterPincodeEffect(f, table) == f <==> PlaceAgrees(f, table)
    ensures AfterPincodeEffect(AfterPincodeEffect(f, table), table) == AfterPincodeEffect(f, table)
    ensures !(|f.pincode| == 6 && f.pincode in table) ==> AfterPincodeEffect(f, table).city == "" && AfterPincodeEffect(f, table).state == ""
  {
    var g := AfterPincodeEffect(f, table);
    assert g.pincode == f.pincode;
  }

  /**
   * Once mounted, the form keeps city and state in agreement with the pincode
   * through every pincode edit, and an edit that leaves the pincode unchanged
   * leaves city and state unchanged.
   */
  lemma PincodeChangeKeepsAgreement(f: PatientFields, pincode: string, table: map<string, Place>)
    requires PlaceAgrees(f, table)
    ensures PlaceAgrees(PincodeChange(f, pincode, table), table)
    ensures PincodeChange(f, pincode, table).pincode == pincode
    ensures pincode == f.pincode ==> PincodeChange(f, pincode, table) == f
    ensures PincodeChange(f, pincode, table).(city := f.city, state := f.state, pincode := f.pincode) == f
  {
  }

  /** What the form dispatches. */
  datatype PatientCommand = AddPatient(patient: Patient) | UpdatePatient(patient: Patient)

  /**
   * `handleSubmit`: an edited patient keeps its other fields and takes the
   * form's; a new one takes the id given. An IPD patient gets the chosen bed;
   * an OPD update deletes the bed, and a new OPD patient has none.
   */
  method Submit(existing: Option<Patient>, f: PatientFields, newId: string) returns (cmd: PatientCommand)
    ensures existing.Some? <==> cmd.UpdatePatient?
    ensures cmd.patient.bedInfo == if f.patientType == IPD then Some(BedInfo(f.ward, f.bedNumber)) else None
    ensures existing.Some? ==> cmd.patient == existing.value.(name := f.name, contact := f.contact,
      pincode := f.pincode, city := f.city, state := f.state, patientType := f.patientType,
      assignedDoctorId := f.assignedDoctorId, bedInfo := cmd.patient.bedInfo)
    ensures existing.None? ==> cmd.patient == Patient(newId, f.name, f.contact, f.patientType, f.assignedDoctorId,
      f.pincode, f.city, f.state, cmd.patient.bedInfo, None, None)
    ensures cmd.patient.patientType == f.patientType && cmd.patient.name == f.name
  {
    if existing.Some? {
      var p := existing.value.(name := f.name, contact := f.contact, pincode := f.pincode, city := f.city,
        state := f.state, patientType := f.patientType, assignedDoctorId := f.assignedDoctorId);
      if f.patientType == IPD {
        p := p.(bedInfo := Some(BedInfo(f.ward, f.bedNumber)));
      } else {
        p := p.(bedInfo := None);
      }
      cmd := UpdatePatient(p);
    } else {
      var p := Patient(newId, f.name, f.contact, f.patientType, f.assignedDoctorId, f.pincode, f.city, f.state,
        None, None, None);
      if f.patientType == IPD {
        p := p.(bedInfo := Some(BedInfo(f.ward, f.bedNumber)));
      }
      cmd := AddPatient(p);
    }
  }
}
