/**
 * The staff and consultation branches of the application reducer
 * (context/AppContext.tsx): generating a salary slip, deciding a roster
 * update request and finalizing a doctor's consultation. They are plain
 * functions of the state.
 */
module Reducer {
  import opened Wrappers
  import opened Model
  import opened Seqs
  import opened Text

  // ---------------------------------------------------- GENERATE_SALARY_SLIP

  /** Two slips are for the same employee and the same month of the same year. */
  predicate SameSlot(a: SalarySlip, b: SalarySlip)
  {
    a.userId == b.userId && a.month == b.month && a.year == b.year
  }

  predicate SlipExists(slips: seq<SalarySlip>, slip: SalarySlip)
  {
    exists k | 0 <= k < |slips| :: SameSlot(slips[k], slip)
  }

  /** No two slips share an employee, month and year. */
  predicate UniqueSlots(slips: seq<SalarySlip>)
  {
    forall i, j | 0 <= i < j < |slips| :: !SameSlot(slips[i], slips[j])
  }

  /**
   * GENERATE_SALARY_SLIP: a slip for an employee and month that already has
   * one is dropped; otherwise the slip is prepended.
   */
  function GenerateSalarySlip(s: AppState, slip: SalarySlip): (r: AppState)
    ensures r == s.(salarySlips := r.salarySlips)
    ensures SlipExists(s.salarySlips, slip) ==> r == s
    ensures !SlipExists(s.salarySlips, slip) ==> r.salarySlips == [slip] + s.salarySlips
    ensures SlipExists(r.salarySlips, slip)
  {
    if SlipExists(s.salarySlips, slip) then s
    else
      assert SameSlot(([slip] + s.salarySlips)[0], slip);
      s.(salarySlips := [slip] + s.salarySlips)
  }

  /** Generating the same slip twice is the same as generating it once. */
  lemma GenerateSalarySlipIdempotent(s: AppState, slip: SalarySlip)
    ensures GenerateSalarySlip(GenerateSalarySlip(s, slip), slip) == GenerateSalarySlip(s, slip)
  {
  }

  /** The duplicate check keeps at most one slip per employee and month. */
  lemma GenerateKeepsUniqueSlots(s: AppState, slip: SalarySlip)
    requires UniqueSlots(s.salarySlips)
    ensures UniqueSlots(GenerateSalarySlip(s, slip).salarySlips)
  {
    var r := GenerateSalarySlip(s, slip).salarySlips;
    if !SlipExists(s.salarySlips, slip) {
      forall i, j | 0 <= i < j < |r| ensures !SameSlot(r[i], r[j]) {
        if i == 0 {
          assert r[j] == s.salarySlips[j - 1];
          assert !SameSlot(s.salarySlips[j - 1], slip);
        } else {
          assert r[i] == s.salarySlips[i - 1] && r[j] == s.salarySlips[j - 1];
        }
      }
    }
  }

  // --------------------------------------------- UPDATE_ROSTER_UPDATE_STATUS

  /** `a.date < periodStartDate || a.date > periodEndDate`, on ISO date strings. */
  predicate OutsidePeriod(a: DutyAssignment, start: string, end: string)
  {
    StrLt(a.date, start) || StrLt(end, a.date)
  }

  /** The roster entries an approved update keeps: those outside its period. */
  function Outside(roster: seq<DutyAssignment>, start: string, end: string): (r: seq<DutyAssignment>)
    ensures forall a :: a in r <==> a in roster && OutsidePeriod(a, start, end)
  {
    Filter(roster, (a: DutyAssignment) => OutsidePeriod(a, start, end))
  }

  function FindRosterRequest(reqs: seq<RosterUpdateRequest>, id: string): (r: Option<nat>)
    ensures r.Some? ==> r.value < |reqs| && reqs[r.value].id == id
    ensures r.Some? ==> forall k :: 0 <= k < r.value ==> reqs[k].id != id
    ensures r.None? ==> forall k :: 0 <= k < |reqs| ==> reqs[k].id != id
  {
    IndexOf(reqs, (q: RosterUpdateRequest) => q.id == id)
  }

  /**
   * UPDATE_ROSTER_UPDATE_STATUS: an unknown request changes nothing;
   * otherwise every request with that id takes the status, and an approval
   * replaces the roster's entries inside the request's period by the
   * request's assignments, appended after the kept entries.
   */
  function UpdateRosterUpdateStatus(s: AppState, id: string, status: RosterUpdateStatus): (r: AppState)
    ensures FindRosterRequest(s.rosterUpdateRequests, id).None? ==> r == s
    ensures FindRosterRequest(s.rosterUpdateRequests, id).Some? ==>
      var req := s.rosterUpdateRequests[FindRosterRequest(s.rosterUpdateRequests, id).value];
      r == s.(rosterUpdateRequests := r.rosterUpdateRequests, dutyRoster := r.dutyRoster) &&
      |r.rosterUpdateRequests| == |s.rosterUpdateRequests| &&
      (forall k :: 0 <= k < |s.rosterUpdateRequests| ==>
        r.rosterUpdateRequests[k] == if s.rosterUpdateRequests[k].id == id
                                     then s.rosterUpdateRequests[k].(status := status)
                                     else s.rosterUpdateRequests[k]) &&
      (status != RosterApproved ==> r.dutyRoster == s.dutyRoster) &&
      (status == RosterApproved ==>
        r.dutyRoster == Outside(s.dutyRoster, req.periodStartDate, req.periodEndDate) + req.assignments)
  {
    match FindRosterRequest(s.rosterUpdateRequests, id)
    case None => s
    case Some(k) =>
      var req := s.rosterUpdateRequests[k];
      var updated := seq(|s.rosterUpdateRequests|, j requires 0 <= j < |s.rosterUpdateRequests| =>
        if s.rosterUpdateRequests[j].id == id then s.rosterUpdateRequests[j].(status := status)
        else s.rosterUpdateRequests[j]);
      if status == RosterApproved then
        s.(dutyRoster := Outside(s.dutyRoster, req.periodStartDate, req.periodEndDate) + req.assignments,
           rosterUpdateRequests := updated)
      else
        s.(rosterUpdateRequests := updated)
  }

  /**
   * After an approval the roster holds exactly the request's assignments
   * and the old entries outside the period: an old entry inside the period
   * is gone unless the request re-assigns it, and when all of the request's
   * assignments fall inside its period they are the only entries there.
   */
  lemma ApprovalReplacesPeriod(s: AppState, id: string)
    requires FindRosterRequest(s.rosterUpdateRequests, id).Some?
    ensures var req := s.rosterUpdateRequests[FindRosterRequest(s.rosterUpdateRequests, id).value];
      var roster := UpdateRosterUpdateStatus(s, id, RosterApproved).dutyRoster;
      (forall a :: a in roster <==>
        a in req.assignments || (a in s.dutyRoster && OutsidePeriod(a, req.periodStartDate, req.periodEndDate))) &&
      ((forall a :: a in req.assignments ==> !OutsidePeriod(a, req.periodStartDate, req.periodEndDate)) ==>
        forall a :: a in roster && !OutsidePeriod(a, req.periodStartDate, req.periodEndDate) <==> a in req.assignments)
  {
  }

  // ------------------------------------------------- FINALIZE_DOCTOR_VISIT

  /**
   * Where the patient goes after the consultation: to pathology when tests
   * were ordered, else to the pharmacy when medicines were prescribed, else
   * straight to billing.
   */
  function NextStatus(labRequest: Option<LabRequest>, prescription: Prescription): (st: PatientStatus)
    ensures st == InPathology <==> labRequest.Some?
    ensures st == WaitingForPharmacy <==> labRequest.None? && |prescription.items| > 0
    ensures st == WaitingForBilling <==> labRequest.None? && |prescription.items| == 0
  {
    if labRequest.Some? then InPathology
    else if |prescription.items| > 0 then WaitingForPharmacy
    else WaitingForBilling
  }

  function ConsultLogs(visit: PatientVisit, prescription: Prescription, labRequest: Option<LabRequest>,
                       actor: User, now: string): seq<LogEntry>
  {
    [CreateLog(actor, now, "CONSULTATION_FINALIZED", ConsultationFinalized(visit.patientName, visit.patientId)),
     CreateLog(actor, now, "PRESCRIPTION_CREATED", PrescriptionCreated(prescription.id, visit.patientName))]
    + (match labRequest
       case None => []
       case Some(lr) => [CreateLog(actor, now, "LAB_REQUEST_CREATED", LabRequestCreated(lr.id, visit.patientName))])
  }

  /**
   * FINALIZE_DOCTOR_VISIT: the prescription (and the lab request, if any)
   * are prepended; every patient with the visit's patient id takes the
   * vitals and history; every visit with the visit's id moves on, stamped
   * with the time and linked to the prescription and lab request; the
   * entries are prepended newest first.
   */
  function FinalizeDoctorVisit(s: AppState, visit: PatientVisit, vitals: Option<Vitals>, history: MedicalHistory,
                               prescription: Prescription, labRequest: Option<LabRequest>,
                               actor: User, now: string): (r: AppState)
    ensures r == s.(patients := r.patients, prescriptions := r.prescriptions, labRequests := r.labRequests,
                    patientVisits := r.patientVisits, auditLogs := r.auditLogs)
    ensures r.prescriptions == [prescription] + s.prescriptions
    ensures labRequest.None? ==> r.labRequests == s.labRequests
    ensures labRequest.Some? ==> r.labRequests == [labRequest.value] + s.labRequests
    ensures |r.patients| == |s.patients|
    ensures forall k :: 0 <= k < |s.patients| ==>
      r.patients[k] == if s.patients[k].id == visit.patientId
                       then s.patients[k].(vitals := vitals, medicalHistory := Some(history))
                       else s.patients[k]
    ensures |r.patientVisits| == |s.patientVisits|
    ensures forall k :: 0 <= k < |s.patientVisits| ==>
      r.patientVisits[k] == if s.patientVisits[k].id == visit.id
        then s.patientVisits[k].(status := NextStatus(labRequest, prescription), statusUpdateTime := now,
                                 prescriptionId := Some(prescription.id),
                                 labRequestId := if labRequest.Some? then Some(labRequest.value.id) else None)
        else s.patientVisits[k]
    ensures |r.auditLogs| == |s.auditLogs| + (if labRequest.Some? then 3 else 2)
    ensures r.auditLogs[|r.auditLogs| - |s.auditLogs|..] == s.auditLogs
    ensures r.auditLogs[|r.auditLogs| - |s.auditLogs| - 1].action == "CONSULTATION_FINALIZED"
    ensures r.auditLogs[0].action == if labRequest.Some? then "LAB_REQUEST_CREATED" else "PRESCRIPTION_CREATED"
  {
    var labId := if labRequest.Some? then Some(labRequest.value.id) else None;
    s.(patients := RecordClinical(s.patients, visit.patientId, vitals, history),
       prescriptions := [prescription] + s.prescriptions,
       labRequests := if labRequest.Some? then [labRequest.value] + s.labRequests else s.labRequests,
       patientVisits := MarkConsulted(s.patientVisits, visit.id, NextStatus(labRequest, prescription), now,
                                      prescription.id, labId),
       auditLogs := NewestConsultLogs(visit, prescription, labRequest, actor, now) + s.auditLogs)
  }

  /** Every patient with the id takes the vitals and the history. */
  function RecordClinical(ps: seq<Patient>, patientId: string, vitals: Option<Vitals>, history: MedicalHistory): (r: seq<Patient>)
    ensures |r| == |ps|
    ensures forall k :: 0 <= k < |ps| ==>
      r[k] == if ps[k].id == patientId then ps[k].(vitals := vitals, medicalHistory := Some(history)) else ps[k]
  {
    seq(|ps|, j requires 0 <= j < |ps| =>
      if ps[j].id == patientId then ps[j].(vitals := vitals, medicalHistory := Some(history)) else ps[j])
  }

  /** Every visit with the id moves to the status, stamped and linked to the prescription and lab request. */
  function MarkConsulted(vs: seq<PatientVisit>, visitId: string, status: PatientStatus, now: string,
                         prescriptionId: string, labId: Option<string>): (r: seq<PatientVisit>)
    ensures |r| == |vs|
    ensures forall k :: 0 <= k < |vs| ==>
      r[k] == if vs[k].id == visitId
        then vs[k].(status := status, statusUpdateTime := now, prescriptionId := Some(prescriptionId), labRequestId := labId)
        else vs[k]
  {
    seq(|vs|, j requires 0 <= j < |vs| =>
      if vs[j].id == visitId
      then vs[j].(status := status, statusUpdateTime := now, prescriptionId := Some(prescriptionId), labRequestId := labId)
      else vs[j])
  }

  /** The consultation's entries as the log holds them, the last one added first. */
  function NewestConsultLogs(visit: PatientVisit, prescription: Prescription, labRequest: Option<LabRequest>,
                             actor: User, now: string): (r: seq<LogEntry>)
    ensures |r| == if labRequest.Some? then 3 else 2
    ensures r[|r| - 1].action == "CONSULTATION_FINALIZED"
    ensures r[0].action == if labRequest.Some? then "LAB_REQUEST_CREATED" else "PRESCRIPTION_CREATED"
  {
    Reverse(ConsultLogs(visit, prescription, labRequest, actor, now))
  }
}
