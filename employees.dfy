/**
 * The HR screens (components/Employees.tsx): employee-id generation, the
 * two-stage approval of leave and shift-change requests, the weekly roster
 * planner and payslip generation.
 */
module Employees {
  import opened Wrappers
  import opened Model
  import opened Seqs
  import opened Text
  import Reducer

  // ------------------------------------------------------- employee ids

  /** `rolePrefixMap`: every role has a prefix, so the `'EMP'` fallback is never taken. */
  function RolePrefix(role: Role): (p: string)
    ensures p != "" && '-' !in p
  {
    match role
    case Doctor => "DOC"
    case Nurse => "NUR"
    case Receptionist => "REC"
    case Pharmacist => "PHM"
    case StoreIncharge => "STO"
    case HR => "HR"
    case Admin => "ADM"
    case Paramedical => "PAR"
    case Housekeeping => "HSE"
    case MasterIT => "IT"
  }

  /** `parseInt(id.split('-')[1] || '0')`; `None` stands for NaN. */
  function SuffixNumber(id: string): Option<int>
  {
    var p := Split(id, '-');
    ParseInt(if |p| > 1 && p[1] != "" then p[1] else "0")
  }

  /** A field without a minus sign never parses to a negative number. */
  lemma ParseIntNoMinus(s: string)
    requires '-' !in s
    ensures ParseInt(s).Some? ==> ParseInt(s).value >= 0
  {
    var t := TrimStart(s);
    if t != [] {
      assert t[0] == s[|s| - |t|];
    }
  }

  lemma SuffixNonNegative(id: string)
    ensures SuffixNumber(id).Some? ==> SuffixNumber(id).value >= 0
  {
    var p := Split(id, '-');
    if |p| > 1 && p[1] != "" {
      ParseIntNoMinus(p[1]);
    } else {
      ParseIntNoMinus("0");
    }
  }

  /** The numeric suffixes of the ids that start with `prefix-`, in the users' order. */
  function Suffixes(ids: seq<string>, prefix: string): (r: seq<int>)
    ensures forall k :: 0 <= k < |ids| && StartsWith(ids[k], prefix + "-") && SuffixNumber(ids[k]).Some? ==>
      SuffixNumber(ids[k]).value in r
    ensures forall x :: x in r ==> x >= 0
  {
    if ids == [] then []
    else
      SuffixNonNegative(ids[0]);
      var rest := Suffixes(ids[1..], prefix);
      assert forall k :: 1 <= k < |ids| ==> ids[k] == ids[1..][k - 1];
      if StartsWith(ids[0], prefix + "-") && SuffixNumber(ids[0]).Some?
      then [SuffixNumber(ids[0]).value] + rest
      else rest
  }

  /** `existingIds[0] || 0` after the descending sort: the largest suffix, 0 when there is none. */
  function Highest(xs: seq<int>): (m: int)
    requires forall x :: x in xs ==> x >= 0
    ensures m >= 0 && forall x :: x in xs ==> x <= m
    ensures xs != [] ==> m in xs
    ensures xs == [] ==> m == 0
  {
    if xs == [] then 0
    else
      assert forall x :: x in xs[1..] ==> x in xs;
      assert forall x :: x in xs ==> x == xs[0] || x in xs[1..];
      assert xs[0] in xs;
      var rest := Highest(xs[1..]);
      if xs[1..] == [] || xs[0] >= rest then xs[0] else rest
  }

  function Ids(users: seq<User>): (r: seq<string>)
    ensures |r| == |users| && forall k :: 0 <= k < |users| ==> r[k] == users[k].id
  {
    seq(|users|, k requires 0 <= k < |users| => users[k].id)
  }

  /** The number of a new employee's id: one past the highest used with the prefix. */
  function NextNumber(role: Role, users: seq<User>): (n: nat)
    ensures n >= 1
  {
    Highest(Suffixes(Ids(users), RolePrefix(role))) + 1
  }

  /** `generateEmployeeId`: the role's prefix, a hyphen and the number padded to three digits. */
  function GenerateEmployeeId(role: Role, users: seq<User>): (id: string)
    ensures StartsWith(id, RolePrefix(role) + "-")
    ensures id == RolePrefix(role) + "-" + PadStart(NatToString(NextNumber(role, users)), 3, '0')
  {
    RolePrefix(role) + "-" + PadStart(NatToString(NextNumber(role, users)), 3, '0')
  }

  /** The new id's suffix parses back to its number. */
  lemma GeneratedSuffix(role: Role, users: seq<User>)
    ensures SuffixNumber(GenerateEmployeeId(role, users)) == Some(NextNumber(role, users) as int)
  {
    var n := NextNumber(role, users);
    var digits := PadStart(NatToString(n), 3, '0');
    assert AllDigits(digits) && DigitsValue(digits) == n by {
      PadStartZerosValue(n, 3);
    }
    SuffixOfDigits(RolePrefix(role), digits);
  }

  /** The suffix of a prefix without a hyphen, a hyphen and a digit run is the run's value. */
  lemma SuffixOfDigits(prefix: string, digits: string)
    requires '-' !in prefix && digits != [] && AllDigits(digits)
    ensures SuffixNumber(prefix + "-" + digits) == Some(DigitsValue(digits) as int)
  {
    assert '-' !in digits by {
      assert forall i :: 0 <= i < |digits| ==> IsDigit(digits[i]);
    }
    SplitNoSep(digits, '-');
    SplitAt(prefix, '-', digits);
    assert prefix + "-" + digits == prefix + ['-'] + digits;
    ParseIntDigits(digits);
  }

  /** The generated id differs from every existing user's id. */
  lemma GeneratedIdIsFresh(role: Role, users: seq<User>)
    ensures forall u :: u in users ==> u.id != GenerateEmployeeId(role, users)
  {
    var g, prefix := GenerateEmployeeId(role, users), RolePrefix(role);
    var ids := Ids(users);
    GeneratedSuffix(role, users);
    forall k | 0 <= k < |users|
      ensures users[k].id != g
    {
      if StartsWith(ids[k], prefix + "-") && SuffixNumber(ids[k]).Some? {
        assert SuffixNumber(ids[k]).value in Suffixes(ids, prefix);
        assert SuffixNumber(ids[k]) != SuffixNumber(g);
      }
    }
  }

  // --------------------------------------------------------- approvals

  /** The status of a leave or shift-change request. */
  datatype ApprovalStatus = PendingAdminApproval | PendingHRApproval | LeaveApproved | LeaveRejected

  /** A leave request or a shift-change request; both move through the same approval stages. */
  datatype ApprovalRequest = ApprovalRequest(id: string, userId: string, status: ApprovalStatus)

  /** The request is in the viewer's queue: Admin sees the first stage, HR the second. */
  predicate InQueue(viewer: Option<Role>, s: ApprovalStatus)
  {
    (viewer == Some(Admin) && s == PendingAdminApproval) || (viewer == Some(HR) && s == PendingHRApproval)
  }

  /** How far along the approval a status is. */
  function Stage(s: ApprovalStatus): nat
  {
    match s
    case PendingAdminApproval => 0
    case PendingHRApproval => 1
    case LeaveApproved => 2
    case LeaveRejected => 3
  }

  /**
   * The status `handleLeaveUpdate` and `handleRosterChangeUpdate` dispatch:
   * Admin passes a first-stage request to HR, HR approves a second-stage one,
   * anything else keeps its status.
   */
  function NextApprovalStatus(viewer: Option<Role>, s: ApprovalStatus): (r: ApprovalStatus)
    ensures r != s <==> InQueue(viewer, s)
    ensures r != s ==> Stage(r) == Stage(s) + 1 && r != LeaveRejected
  {
    if viewer == Some(Admin) && s == PendingAdminApproval then PendingHRApproval
    else if viewer == Some(HR) && s == PendingHRApproval then LeaveApproved
    else s
  }

  /** Approval takes both stages: Admin then HR approves a new request, and no single role can. */
  lemma TwoStageApproval(viewer: Option<Role>)
    ensures NextApprovalStatus(Some(HR), NextApprovalStatus(Some(Admin), PendingAdminApproval)) == LeaveApproved
    ensures NextApprovalStatus(viewer, NextApprovalStatus(viewer, PendingAdminApproval)) != LeaveApproved
  {
  }

  datatype ApprovalAction =
    | UpdateLeaveStatus(id: string, status: ApprovalStatus)
    | UpdateRosterChangeStatus(id: string, status: ApprovalStatus)

  /** `handleLeaveUpdate`. */
  function HandleLeaveUpdate(viewer: Option<Role>, req: ApprovalRequest): (a: ApprovalAction)
    ensures a.UpdateLeaveStatus? && a.id == req.id
    ensures a.status != req.status <==> InQueue(viewer, req.status)
  {
    UpdateLeaveStatus(req.id, NextApprovalStatus(viewer, req.status))
  }

  /** `handleRosterChangeUpdate`. */
  function HandleRosterChangeUpdate(viewer: Option<Role>, req: ApprovalRequest): (a: ApprovalAction)
    ensures a.UpdateRosterChangeStatus? && a.id == req.id
    ensures a.status != req.status <==> InQueue(viewer, req.status)
  {
    UpdateRosterChangeStatus(req.id, NextApprovalStatus(viewer, req.status))
  }

  /** `pendingLeave` and `pendingRosterChanges`: the requests in the viewer's queue. */
  function PendingQueue(reqs: seq<ApprovalRequest>, viewer: Option<Role>): (r: seq<ApprovalRequest>)
    ensures forall q :: q in r <==> q in reqs && InQueue(viewer, q.status)
  {
    Filter(reqs, (q: ApprovalRequest) => InQueue(viewer, q.status))
  }

  /** The queue holds exactly the requests the viewer's action moves on. */
  lemma QueueIsActionable(reqs: seq<ApprovalRequest>, viewer: Option<Role>, q: ApprovalRequest)
    requires q in reqs
    ensures q in PendingQueue(reqs, viewer) <==> HandleLeaveUpdate(viewer, q).status != q.status
  {
  }

  /** `pendingRosterUpdates`: HR sees the roster updates awaiting it; nobody else sees any. */
  function PendingRosterUpdates(reqs: seq<RosterUpdateRequest>, viewer: Option<Role>): (r: seq<RosterUpdateRequest>)
    ensures forall q :: q in r <==> q in reqs && viewer == Some(HR) && q.status == RosterPendingHR
  {
    Filter(reqs, (q: RosterUpdateRequest) => viewer == Some(HR) && q.status == RosterPendingHR)
  }

  // ------------------------------------------------------- roster planner

  /** A shift picked in the planner, or `'Off'`. */
  datatype ShiftChoice = Off | Assign(shift: Shift)

  /** The keys of a plan, in the object's insertion order. */
  function PlanKeys(plan: seq<(string, Shift)>): (r: seq<string>)
    ensures |r| == |plan| && forall k :: 0 <= k < |plan| ==> r[k] == plan[k].0
  {
    seq(|plan|, k requires 0 <= k < |plan| => plan[k].0)
  }

  /** No key occurs twice. */
  predicate DistinctKeys(plan: seq<(string, Shift)>)
  {
    forall i, j :: 0 <= i < j < |plan| ==> plan[i].0 != plan[j].0
  }

  /** `plan[key]`. */
  function PlanGet(plan: seq<(string, Shift)>, key: string): (r: Option<Shift>)
    ensures r.Some? <==> key in PlanKeys(plan)
    ensures forall k :: 0 <= k < |plan| && plan[k].0 == key && r.Some? && DistinctKeys(plan) ==> r.value == plan[k].1
  {
    if plan == [] then None
    else if plan[0].0 == key then Some(plan[0].1)
    else
      var r := PlanGet(plan[1..], key);
      assert PlanKeys(plan) == [plan[0].0] + PlanKeys(plan[1..]);
      assert forall k :: 1 <= k < |plan| ==> plan[k] == plan[1..][k - 1];
      r
  }

  /** `plan[key] = shift`: an existing key keeps its place, a new key goes last. */
  function PlanSet(plan: seq<(string, Shift)>, key: string, shift: Shift): (r: seq<(string, Shift)>)
    requires DistinctKeys(plan)
    ensures DistinctKeys(r)
    ensures PlanGet(r, key) == Some(shift)
    ensures forall other :: other != key ==> PlanGet(r, other) == PlanGet(plan, other)
    ensures PlanKeys(r) == PlanKeys(plan) || PlanKeys(r) == PlanKeys(plan) + [key]
  {
    match IndexOf(plan, (e: (string, Shift)) => e.0 == key)
    case Some(i) =>
      var r := plan[i := (key, shift)];
      assert PlanKeys(r) == PlanKeys(plan);
      assert r[i].0 == key;
      r
    case None =>
      var r := plan + [(key, shift)];
      assert PlanKeys(r) == PlanKeys(plan) + [key];
      assert r[|plan|].0 == key;
      r
  }

  /** `delete plan[key]`. */
  function PlanDelete(plan: seq<(string, Shift)>, key: string): (r: seq<(string, Shift)>)
    requires DistinctKeys(plan)
    ensures DistinctKeys(r)
    ensures PlanGet(r, key) == None
    ensures forall other :: other != key ==> PlanGet(r, other) == PlanGet(plan, other)
  {
    var r := Filter(plan, (e: (string, Shift)) => e.0 != key);
    DeleteKeepsDistinct(plan, key);
    DeleteGet(plan, key);
    r
  }

  lemma {:induction false} DeleteKeepsDistinct(plan: seq<(string, Shift)>, key: string)
    requires DistinctKeys(plan)
    ensures DistinctKeys(Filter(plan, (e: (string, Shift)) => e.0 != key))
  {
    if plan != [] {
      var tail := Filter(plan[1..], (e: (string, Shift)) => e.0 != key);
      DeleteKeepsDistinct(plan[1..], key);
      assert forall e :: e in tail ==> e in plan[1..];
      assert forall e :: e in plan[1..] ==> e.0 != plan[0].0;
    }
  }

  lemma DeleteGet(plan: seq<(string, Shift)>, key: string)
    requires DistinctKeys(plan)
    ensures PlanGet(Filter(plan, (e: (string, Shift)) => e.0 != key), key) == None
    ensures forall other :: other != key ==>
      PlanGet(Filter(plan, (e: (string, Shift)) => e.0 != key), other) == PlanGet(plan, other)
  {
    DeleteGetAt(plan, key, key);
    forall other | other != key
      ensures PlanGet(Filter(plan, (e: (string, Shift)) => e.0 != key), other) == PlanGet(plan, other)
    {
      DeleteGetAt(plan, key, other);
    }
  }

  /** Deleting a key hides it and leaves the lookup of every other key as it was. */
  lemma {:induction false} DeleteGetAt(plan: seq<(string, Shift)>, key: string, other: string)
    ensures PlanGet(Filter(plan, (e: (string, Shift)) => e.0 != key), other) ==
      if other == key then None else PlanGet(plan, other)
  {
    if plan != [] {
      DeleteGetAt(plan[1..], key, other);
      var f := Filter(plan, (e: (string, Shift)) => e.0 != key);
      var tail := Filter(plan[1..], (e: (string, Shift)) => e.0 != key);
      if plan[0].0 != key {
        assert f == [plan[0]] + tail;
        assert f[0] == plan[0] && f[1..] == tail;
      } else {
        assert f == tail;
      }
    }
  }

  /** The roster entries the planner loads: those dated within the week. */
  predicate InWeek(a: DutyAssignment, weekStart: string, weekEnd: string)
  {
    StrLe(weekStart, a.date) && StrLe(a.date, weekEnd)
  }

  /** The planner key of a roster entry. */
  function EntryKey(a: DutyAssignment): string
  {
    RosterKey(a.userId, a.date)
  }

  /** The planner's load: each entry of the week sets its key in turn, in roster order. */
  function LoadPlan(roster: seq<DutyAssignment>, weekStart: string, weekEnd: string): (r: seq<(string, Shift)>)
    ensures DistinctKeys(r)
    decreases |roster|
  {
    if roster == [] then []
    else
      var before := LoadPlan(roster[..|roster| - 1], weekStart, weekEnd);
      var a := roster[|roster| - 1];
      if InWeek(a, weekStart, weekEnd) then PlanSet(before, EntryKey(a), a.shift) else before
  }

  /** Entry k is the last entry of the week with the key. */
  predicate LastInWeek(roster: seq<DutyAssignment>, k: int, weekStart: string, weekEnd: string, key: string)
  {
    0 <= k < |roster| && InWeek(roster[k], weekStart, weekEnd) && EntryKey(roster[k]) == key &&
    forall j :: k < j < |roster| && InWeek(roster[j], weekStart, weekEnd) ==> EntryKey(roster[j]) != key
  }

  /**
   * After the load a key holds the shift of the last entry of the week with
   * that key, and nothing when no entry of the week has it, so entries
   * outside the week leave no key behind.
   */
  lemma {:induction false} LoadPlanGet(roster: seq<DutyAssignment>, weekStart: string, weekEnd: string, key: string)
    ensures PlanGet(LoadPlan(roster, weekStart, weekEnd), key).None? <==>
      forall k :: 0 <= k < |roster| && InWeek(roster[k], weekStart, weekEnd) ==> EntryKey(roster[k]) != key
    ensures forall k :: LastInWeek(roster, k, weekStart, weekEnd, key) ==>
      PlanGet(LoadPlan(roster, weekStart, weekEnd), key) == Some(roster[k].shift)
    decreases |roster|
  {
    if roster != [] {
      var n := |roster| - 1;
      var a := roster[n];
      assert roster == roster[..n] + [a];
      var before := LoadPlan(roster[..n], weekStart, weekEnd);
      LoadPlanGet(roster[..n], weekStart, weekEnd, key);
      assert PlanGet(LoadPlan(roster, weekStart, weekEnd), key) ==
        (if InWeek(a, weekStart, weekEnd) && EntryKey(a) == key then Some(a.shift) else PlanGet(before, key));
      LoadStep(roster, roster[..n], a, weekStart, weekEnd, key,
               PlanGet(LoadPlan(roster, weekStart, weekEnd), key), PlanGet(before, key));
    }
  }

  /** One entry more: the lookup after it, from the lookup before it. */
  lemma LoadStep(roster: seq<DutyAssignment>, pre: seq<DutyAssignment>, a: DutyAssignment,
                 weekStart: string, weekEnd: string, key: string, got: Option<Shift>, prev: Option<Shift>)
    requires roster == pre + [a]
    requires prev.None? <==>
      forall k :: 0 <= k < |pre| && InWeek(pre[k], weekStart, weekEnd) ==> EntryKey(pre[k]) != key
    requires forall k :: LastInWeek(pre, k, weekStart, weekEnd, key) ==> prev == Some(pre[k].shift)
    requires got == if InWeek(a, weekStart, weekEnd) && EntryKey(a) == key then Some(a.shift) else prev
    ensures got.None? <==>
      forall k :: 0 <= k < |roster| && InWeek(roster[k], weekStart, weekEnd) ==> EntryKey(roster[k]) != key
    ensures forall k :: LastInWeek(roster, k, weekStart, weekEnd, key) ==> got == Some(roster[k].shift)
  {
    assert forall k :: 0 <= k < |pre| ==> roster[k] == pre[k];
    assert roster[|pre|] == a;
    forall k | LastInWeek(roster, k, weekStart, weekEnd, key)
      ensures got == Some(roster[k].shift)
    {
      if k < |pre| {
        assert LastInWeek(pre, k, weekStart, weekEnd, key);
      }
    }
  }

  /** `` `${userId}-${date}` ``. */
  function RosterKey(userId: string, date: string): string
  {
    userId + "-" + date
  }

  /** `key.split('-')` keeping the first two fields, as `handleSubmitRoster` does. */
  function KeyFields(key: string): (string, string)
  {
    var p := Split(key, '-');
    (p[0], if |p| > 1 then p[1] else "")
  }

  /** A roster key taken apart at its last ten characters, the ISO date, as the planner meant it. */
  function KeyFieldsIntended(key: string): (string, string)
  {
    if |key| < 11 then (key, "") else (key[..|key| - 11], key[|key| - 10..])
  }

  /** The intended split recovers the user id and an ISO (ten-character) date whatever the id holds. */
  lemma KeyFieldsIntendedRoundTrip(userId: string, date: string)
    requires |date| == 10
    ensures KeyFieldsIntended(RosterKey(userId, date)) == (userId, date)
  {
    var key := RosterKey(userId, date);
    assert key[..|key| - 11] == userId;
    assert key[|key| - 10..] == date;
  }

  /** The split as written keeps only the year of an ISO date. */
  lemma KeyFieldsKeepYear(userId: string, y: string, m: string, d: string)
    requires '-' !in userId && '-' !in y && '-' !in m && '-' !in d
    ensures KeyFields(RosterKey(userId, y + "-" + m + "-" + d)) == (userId, y)
  {
    var md := m + ['-'] + d;
    var date := y + ['-'] + md;
    assert y + "-" + m + "-" + d == date;
    SplitNoSep(d, '-');
    SplitAt(m, '-', d);
    assert Split(md, '-') == [m, d];
    SplitAt(y, '-', md);
    assert Split(date, '-') == [y, m, d];
    SplitAt(userId, '-', date);
    assert RosterKey(userId, date) == userId + ['-'] + date;
    assert Split(RosterKey(userId, date), '-') == [userId, y, m, d];
  }

  /**
   * A generated employee id holds a hyphen itself (`DOC-001`), so the split as
   * written takes the id's prefix for the user and its number for the date,
   * where the intended split recovers both.
   */
  lemma KeyFieldsSplitHyphenatedId(prefix: string, number: string, date: string)
    requires '-' !in prefix && '-' !in number && |date| == 10
    ensures KeyFields(RosterKey(prefix + "-" + number, date)) == (prefix, number)
    ensures KeyFieldsIntended(RosterKey(prefix + "-" + number, date)) == (prefix + "-" + number, date)
  {
    var key := RosterKey(prefix + "-" + number, date);
    assert key == prefix + ['-'] + (number + ['-'] + date);
    SplitAt(number, '-', date);
    SplitAt(prefix, '-', number + ['-'] + date);
    assert Split(key, '-') == [prefix, number] + Split(date, '-');
    KeyFieldsIntendedRoundTrip(prefix + "-" + number, date);
  }

  /** The request `handleSubmitRoster` builds from a plan; the assignment ids are parameters. */
  function RosterRequestFrom(plan: seq<(string, Shift)>, requestId: string, assignmentIds: nat -> string,
                             requester: User, requestDate: string, weekStart: string, weekEnd: string): RosterUpdateRequest
  {
    RosterUpdateRequest(requestId, requester.id, requestDate, weekStart, weekEnd,
      seq(|plan|, k requires 0 <= k < |plan| =>
        DutyAssignment(assignmentIds(k), KeyFields(plan[k].0).0, KeyFields(plan[k].0).1, plan[k].1)),
      RosterPendingHR)
  }

  /** The weekly planner's local assignments, keyed `userId-date`. */
  class RosterPlanner {
    var plan: seq<(string, Shift)>

    ghost predicate Valid()
      reads this
    {
      DistinctKeys(plan)
    }

    /** The effect that loads the roster entries of the week, the later entry for a key winning. */
    constructor (roster: seq<DutyAssignment>, weekStart: string, weekEnd: string)
      ensures Valid()
      ensures plan == LoadPlan(roster, weekStart, weekEnd)
    {
      var p: seq<(string, Shift)> := [];
      for i := 0 to |roster|
        invariant p == LoadPlan(roster[..i], weekStart, weekEnd)
      {
        var a := roster[i];
        assert roster[..i + 1][..i] == roster[..i] && roster[..i + 1][i] == a;
        if StrLe(weekStart, a.date) && StrLe(a.date, weekEnd) {
          p := PlanSet(p, RosterKey(a.userId, a.date), a.shift);
        }
      }
      assert roster[..|roster|] == roster;
      plan := p;
    }

    /** `handleShiftChange`: `'Off'` removes the user's day, a shift sets it; no other key changes. */
    method ShiftChange(userId: string, date: string, choice: ShiftChoice)
      requires Valid()
      modifies this
      ensures Valid()
      ensures plan == if choice.Off? then PlanDelete(old(plan), RosterKey(userId, date))
                      else PlanSet(old(plan), RosterKey(userId, date), choice.shift)
      ensures PlanGet(plan, RosterKey(userId, date)) == if choice.Off? then None else Some(choice.shift)
      ensures forall key :: key != RosterKey(userId, date) ==> PlanGet(plan, key) == PlanGet(old(plan), key)
    {
      var key := RosterKey(userId, date);
      if choice.Off? {
        plan := PlanDelete(plan, key);
      } else {
        plan := PlanSet(plan, key, choice.shift);
      }
    }

    /**
     * `handleSubmitRoster`: nothing without a signed-in user; otherwise one
     * assignment per planned key, its user id and date read back from the key
     * as the source splits it, and the request awaits HR.
     */
    method SubmitRoster(currentUser: Option<User>, requestId: string, assignmentIds: nat -> string,
                        requestDate: string, weekStart: string, weekEnd: string)
      returns (req: Option<RosterUpdateRequest>)
      ensures currentUser.None? ==> req.None?
      ensures currentUser.Some? ==>
        (req.Some? && req.value.status == RosterPendingHR &&
         req.value.requestedById == currentUser.value.id &&
         req.value.periodStartDate == weekStart && req.value.periodEndDate == weekEnd &&
         |req.value.assignments| == |plan| &&
         forall k :: 0 <= k < |plan| ==>
           req.value.assignments[k].shift == plan[k].1 &&
           (req.value.assignments[k].userId, req.value.assignments[k].date) == KeyFields(plan[k].0))
    {
      if currentUser.None? {
        return None;
      }
      req := Some(RosterRequestFrom(plan, requestId, assignmentIds, currentUser.value, requestDate, weekStart, weekEnd));
    }
  }

  // ------------------------------------------------------------- payroll

  /** An employee's salary structure. */
  datatype EmployeeSalary = EmployeeSalary(
    userId: string,
    basicPay: Money,
    allowances: seq<PayComponent>,
    deductions: seq<PayComponent>)

  function Amount(c: PayComponent): Money { c.amount }

  /** `employeeSalaries.find(s => s.userId === user.id)`. */
  function FindSalary(salaries: seq<EmployeeSalary>, userId: string): (r: Option<EmployeeSalary>)
    ensures r.Some? ==> r.value in salaries && r.value.userId == userId
    ensures r.None? ==> forall s :: s in salaries ==> s.userId != userId
  {
    match IndexOf(salaries, (s: EmployeeSalary) => s.userId == userId)
    case None => None
    case Some(k) => Some(salaries[k])
  }

  /** A slip for the user, month and year exists already. */
  predicate HasSlip(slips: seq<SalarySlip>, userId: string, month: int, year: int)
  {
    exists k :: 0 <= k < |slips| && slips[k].userId == userId && slips[k].month == month && slips[k].year == year
  }

  /** The slip generated for a user from the salary structure; `stamp` stands for `Date.now()`. */
  function NewSlip(user: User, salary: EmployeeSalary, month: int, year: int, stamp: string): (s: SalarySlip)
    ensures s.userId == user.id && s.month == month && s.year == year
    ensures s.netSalary == salary.basicPay + SumR(salary.allowances, Amount) - SumR(salary.deductions, Amount)
  {
    SalarySlip("SLIP" + stamp + user.id, user.id, month, year, salary.basicPay, salary.allowances,
               salary.deductions, salary.basicPay + SumR(salary.allowances, Amount) - SumR(salary.deductions, Amount))
  }

  /** What the payroll run does for one user. */
  datatype Outcome = NoSalary | AlreadyExists | Generate(slip: SalarySlip)

  function OutcomeFor(user: User, salaries: seq<EmployeeSalary>, slips: seq<SalarySlip>,
                      month: int, year: int, stamp: string): Outcome
  {
    match FindSalary(salaries, user.id)
    case None => NoSalary
    case Some(salary) =>
      if HasSlip(slips, user.id, month, year) then AlreadyExists
      else Generate(NewSlip(user, salary, month, year, stamp))
  }

  /** The slips dispatched for a list of users, in the users' order. */
  function Dispatched(users: seq<User>, salaries: seq<EmployeeSalary>, slips: seq<SalarySlip>,
                      month: int, year: int, stamp: string): seq<SalarySlip>
  {
    if users == [] then []
    else
      var front := Dispatched(users[..|users| - 1], salaries, slips, month, year, stamp);
      match OutcomeFor(users[|users| - 1], salaries, slips, month, year, stamp)
      case Generate(s) => front + [s]
      case _ => front
  }

  /** The number of users whose slip existed already. */
  function Existed(users: seq<User>, salaries: seq<EmployeeSalary>, slips: seq<SalarySlip>,
                   month: int, year: int): nat
  {
    if users == [] then 0
    else
      var last := users[|users| - 1];
      Existed(users[..|users| - 1], salaries, slips, month, year) +
      (if FindSalary(salaries, last.id).Some? && HasSlip(slips, last.id, month, year) then 1 else 0)
  }

  /** The number of users with a salary structure. */
  function WithSalary(users: seq<User>, salaries: seq<EmployeeSalary>): nat
  {
    if users == [] then 0
    else WithSalary(users[..|users| - 1], salaries) + (if FindSalary(salaries, users[|users| - 1].id).Some? then 1 else 0)
  }

  /**
   * `handleGenerateSlips`: for every user with a salary structure, count the
   * slip as existing when the month already has one, else dispatch a new one.
   * The existence check reads the slips as they were when the run began.
   */
  method GenerateSlips(users: seq<User>, salaries: seq<EmployeeSalary>, slips: seq<SalarySlip>,
                       month: int, year: int, stamp: string)
    returns (dispatched: seq<SalarySlip>, generated: nat, existed: nat)
    ensures dispatched == Dispatched(users, salaries, slips, month, year, stamp)
    ensures generated == |dispatched|
    ensures existed == Existed(users, salaries, slips, month, year)
    ensures generated + existed == WithSalary(users, salaries)
  {
    dispatched, generated, existed := [], 0, 0;
    for i := 0 to |users|
      invariant dispatched == Dispatched(users[..i], salaries, slips, month, year, stamp)
      invariant generated == |dispatched|
      invariant existed == Existed(users[..i], salaries, slips, month, year)
      invariant generated + existed == WithSalary(users[..i], salaries)
    {
      var user := users[i];
      assert users[..i + 1][..i] == users[..i] && users[..i + 1][i] == user;
      var salary := FindSalary(salaries, user.id);
      if salary.Some? {
        if HasSlip(slips, user.id, month, year) {
          existed := existed + 1;
        } else {
          dispatched := dispatched + [NewSlip(user, salary.value, month, year, stamp)];
          generated := generated + 1;
        }
      }
    }
    assert users[..|users|] == users;
  }

  /** Every dispatched slip is for a user with a salary structure and no slip yet for the month. */
  lemma {:induction false} DispatchedAreNew(users: seq<User>, salaries: seq<EmployeeSalary>, slips: seq<SalarySlip>,
                                            month: int, year: int, stamp: string)
    ensures forall s :: s in Dispatched(users, salaries, slips, month, year, stamp) ==>
      s.month == month && s.year == year && !Reducer.SlipExists(slips, s) &&
      exists k :: 0 <= k < |users| && users[k].id == s.userId && FindSalary(salaries, s.userId).Some?
  {
    if users != [] {
      var front := users[..|users| - 1];
      DispatchedAreNew(front, salaries, slips, month, year, stamp);
      forall s | s in Dispatched(users, salaries, slips, month, year, stamp)
        ensures exists k :: 0 <= k < |users| && users[k].id == s.userId && FindSalary(salaries, s.userId).Some?
      {
        if s in Dispatched(front, salaries, slips, month, year, stamp) {
          var k :| 0 <= k < |front| && front[k].id == s.userId && FindSalary(salaries, s.userId).Some?;
          assert users[k] == front[k];
        } else {
          assert users[|users| - 1].id == s.userId;
        }
      }
    }
  }

  /** Users with distinct ids get slips for distinct employees. */
  lemma {:induction false} DispatchedUnique(users: seq<User>, salaries: seq<EmployeeSalary>, slips: seq<SalarySlip>,
                                            month: int, year: int, stamp: string)
    requires forall i, j :: 0 <= i < j < |users| ==> users[i].id != users[j].id
    ensures Reducer.UniqueSlots(Dispatched(users, salaries, slips, month, year, stamp))
    ensures forall s :: s in Dispatched(users, salaries, slips, month, year, stamp) ==>
      exists k :: 0 <= k < |users| && users[k].id == s.userId
  {
    if users != [] {
      var front := users[..|users| - 1];
      var last := users[|users| - 1];
      DispatchedUnique(front, salaries, slips, month, year, stamp);
      var d := Dispatched(front, salaries, slips, month, year, stamp);
      forall s | s in d
        ensures s.userId != last.id
      {
        var k :| 0 <= k < |front| && front[k].id == s.userId;
        assert users[k] == front[k];
      }
      forall s | s in Dispatched(users, salaries, slips, month, year, stamp)
        ensures exists k :: 0 <= k < |users| && users[k].id == s.userId
      {
        if s in d {
          var k :| 0 <= k < |front| && front[k].id == s.userId;
          assert users[k] == front[k];
        } else {
          assert users[|users| - 1].id == s.userId;
        }
      }
      var r := Dispatched(users, salaries, slips, month, year, stamp);
      if r != d {
        forall i, j | 0 <= i < j < |r|
          ensures !Reducer.SameSlot(r[i], r[j])
        {
          if j == |r| - 1 {
            assert r[i] in d;
          } else {
            assert r[i] == d[i] && r[j] == d[j];
          }
        }
      }
    }
  }

  /** The reducer applied to each dispatched slip in turn. */
  function ApplySlips(s: AppState, ds: seq<SalarySlip>): AppState
    decreases |ds|
  {
    if ds == [] then s else ApplySlips(Reducer.GenerateSalarySlip(s, ds[0]), ds[1..])
  }

  /** Slips new to the state and to each other are all kept, the last dispatched first. */
  lemma {:induction false} ApplySlipsPrependsAll(s: AppState, ds: seq<SalarySlip>)
    requires Reducer.UniqueSlots(ds)
    requires forall d :: d in ds ==> !Reducer.SlipExists(s.salarySlips, d)
    ensures ApplySlips(s, ds).salarySlips == Reverse(ds) + s.salarySlips
    decreases |ds|
  {
    if ds != [] {
      var s1 := Reducer.GenerateSalarySlip(s, ds[0]);
      assert s1.salarySlips == [ds[0]] + s.salarySlips;
      forall d | d in ds[1..]
        ensures !Reducer.SlipExists(s1.salarySlips, d)
      {
        var i :| 0 <= i < |ds[1..]| && ds[1..][i] == d;
        assert ds[i + 1] == d;
        assert !Reducer.SameSlot(ds[0], d);
        assert !Reducer.SlipExists(s.salarySlips, d);
        forall k | 0 <= k < |s1.salarySlips|
          ensures !Reducer.SameSlot(s1.salarySlips[k], d)
        {
          if k > 0 {
            assert s1.salarySlips[k] == s.salarySlips[k - 1];
          }
        }
      }
      assert Reducer.UniqueSlots(ds[1..]) by {
        forall i, j | 0 <= i < j < |ds[1..]|
          ensures !Reducer.SameSlot(ds[1..][i], ds[1..][j])
        {
          assert ds[1..][i] == ds[i + 1] && ds[1..][j] == ds[j + 1];
        }
      }
      ApplySlipsPrependsAll(s1, ds[1..]);
      assert Reverse(ds) == Reverse(ds[1..]) + [ds[0]];
    }
  }

  /** A payroll run over users with distinct ids adds exactly the generated slips to the state. */
  lemma PayrollAddsGenerated(st: AppState, users: seq<User>, salaries: seq<EmployeeSalary>,
                             month: int, year: int, stamp: string)
    requires forall i, j :: 0 <= i < j < |users| ==> users[i].id != users[j].id
    ensures var ds := Dispatched(users, salaries, st.salarySlips, month, year, stamp);
      ApplySlips(st, ds).salarySlips == Reverse(ds) + st.salarySlips
  {
    DispatchedAreNew(users, salaries, st.salarySlips, month, year, stamp);
    DispatchedUnique(users, salaries, st.salarySlips, month, year, stamp);
    ApplySlipsPrependsAll(st, Dispatched(users, salaries, st.salarySlips, month, year, stamp));
  }
}
