/** Assignment of field work: service.apply_case_assignment behind queue claims, manager reassignment
    and technician-created cases, and service.list_assignment_queue, for one tenant. */
module FieldDispatch {
  import opened Common
  import opened FieldService
  import OrderedLimit

  datatype AppointmentStatus = Suggested | Scheduled | AppointmentInProgress | AppointmentCompleted | AppointmentCancelled

  /** A visit; `arrived` and `departed` say whether attendance is signed. */
  datatype Visit = Visit(technician: int, number: int, status: VisitStatus, arrived: bool, departed: bool)

  datatype Appointment = Appointment(technician: int, status: AppointmentStatus)

  /** An audit record of a changed assignment. */
  datatype Audit = Audit(previous: Option<int>, technician: int, self: bool, visit: int)

  /** A case with the rows of other tables that refer to it, in order of insertion. */
  datatype Case = Case(id: int, status: CaseStatus, priority: Priority, createdAt: real, assignee: Option<int>,
                       visits: seq<Visit>, appointments: seq<Appointment>, audit: seq<Audit>)

  datatype Error =
    | CaseNotFound | NotAssignable | AlreadyClaimed | AlreadyScheduled | AttendedVisit | AlreadyAssigned
    | DispatchDisabled | SessionRequired | SelfAssignmentDisabled | IdentifyTechnician
    | ManagerAndReasonRequired | EligibleTechnicianNotFound
    | AccessDenied | InvalidView | IndividualAccountRequired
    | CreationUnavailable | TechnicianSessionRequired | CustomerNotFound | LocationRequired

  datatype Result<T> = Ok(value: T) | Raised(error: Error)

  predicate Attended(v: Visit) {
    v.status == Arrived || v.status == Departed || v.status == Reported
  }

  predicate Active(v: Visit) {
    v.status != VisitCancelled
  }

  predicate Ended(status: CaseStatus) {
    status == CaseClosed || status == CaseCompleted || status == CaseCancelled
  }

  // ---- apply_case_assignment ----------------------------------------------------------------------

  /** The first check that fails, in the order of the checks. */
  function Blocked(c: Case, technician: int, self: bool): Option<Error> {
    if Ended(c.status) then Some(NotAssignable)
    else if c.assignee.Some? && c.assignee.value != technician && self then Some(AlreadyClaimed)
    else if self && exists i :: 0 <= i < |c.appointments| && c.appointments[i].technician != technician
                                && c.appointments[i].status != AppointmentCancelled then Some(AlreadyScheduled)
    else if exists i :: 0 <= i < |c.visits| && c.visits[i].technician != technician && Attended(c.visits[i]) then Some(AttendedVisit)
    else if self && exists i :: 0 <= i < |c.visits| && c.visits[i].technician != technician && Active(c.visits[i])
      then Some(AlreadyAssigned)
    else None
  }

  function OthersCancelled(visits: seq<Visit>, technician: int): seq<Visit> {
    seq(|visits|, i requires 0 <= i < |visits| =>
      if visits[i].technician != technician && visits[i].status == Assigned then visits[i].(status := VisitCancelled) else visits[i])
  }

  function OthersWithdrawn(appointments: seq<Appointment>, technician: int): seq<Appointment> {
    seq(|appointments|, i requires 0 <= i < |appointments| =>
      if appointments[i].technician != technician && (appointments[i].status == Suggested || appointments[i].status == Scheduled)
      then appointments[i].(status := AppointmentCancelled) else appointments[i])
  }

  /** The technician's visit that is not cancelled and has the highest number. */
  function LastVisit(visits: seq<Visit>, technician: int): (k: Option<nat>)
    ensures k.Some? ==> k.value < |visits|
  {
    if visits == [] then None
    else
      var n := |visits| - 1;
      var before := LastVisit(visits[..n], technician);
      if visits[n].technician == technician && Active(visits[n])
         && (before == None || visits[n].number >= visits[before.value].number)
      then Some(n) else before
  }

  /** `coalesce(max(visit_number), 0)`. */
  function MaxNumber(visits: seq<Visit>): int {
    if visits == [] then 0
    else
      var n := |visits| - 1;
      if n == 0 || visits[n].number > MaxNumber(visits[..n]) then visits[n].number else MaxNumber(visits[..n])
  }

  /** A technician without a visit gets the next one. */
  function WithVisit(visits: seq<Visit>, technician: int): seq<Visit> {
    if LastVisit(visits, technician) == None then visits + [Visit(technician, MaxNumber(visits) + 1, Assigned, false, false)] else visits
  }

  function VisitsAfter(c: Case, technician: int): seq<Visit> {
    WithVisit(OthersCancelled(c.visits, technician), technician)
  }

  function VisitNumber(visits: seq<Visit>, technician: int): int {
    match LastVisit(visits, technician)
    case None => 0
    case Some(k) => visits[k].number
  }

  function AssignedTo(c: Case, technician: int, self: bool): Case {
    var visits := VisitsAfter(c, technician);
    c.(assignee := Some(technician), visits := visits, appointments := OthersWithdrawn(c.appointments, technician),
       audit := if c.assignee == Some(technician) then c.audit
                else c.audit + [Audit(c.assignee, technician, self, VisitNumber(visits, technician))])
  }

  function ApplyAssignment(c: Case, technician: int, self: bool): (Case, Result<int>) {
    match Blocked(c, technician, self)
    case Some(error) => (c, Raised(error))
    case None => (AssignedTo(c, technician, self), Ok(VisitNumber(VisitsAfter(c, technician), technician)))
  }

  class CaseRecord {
    const id: int
    var status: CaseStatus
    const priority: Priority
    const createdAt: real
    var assignee: Option<int>
    var visits: seq<Visit>
    var appointments: seq<Appointment>
    var audit: seq<Audit>

    ghost function State(): Case
      reads this
    {
      Case(id, status, priority, createdAt, assignee, visits, appointments, audit)
    }

    /** The update behind the checks. */
    method Assign(technician: int, self: bool) returns (number: int)
      modifies this
      ensures State() == AssignedTo(old(State()), technician, self)
      ensures number == VisitNumber(VisitsAfter(old(State()), technician), technician)
    {
      var prior := assignee;
      visits := OthersCancelled(visits, technician);
      appointments := OthersWithdrawn(appointments, technician);
      assignee := Some(technician);
      var visit := LastVisit(visits, technician);
      if visit == None {
        var inserted := Visit(technician, MaxNumber(visits) + 1, Assigned, false, false);
        LastOfInserted(visits, inserted);
        visits := visits + [inserted];
        visit := Some(|visits| - 1);
      }
      number := visits[visit.value].number;
      if prior != Some(technician) {
        audit := audit + [Audit(prior, technician, self, number)];
      }
    }

    method Apply(technician: int, self: bool) returns (r: Result<int>)
      modifies this
      ensures (State(), r) == ApplyAssignment(old(State()), technician, self)
    {
      if status == CaseClosed || status == CaseCompleted || status == CaseCancelled {
        return Raised(NotAssignable);
      }
      if assignee.Some? && assignee.value != technician && self {
        return Raised(AlreadyClaimed);
      }
      if self && exists i :: 0 <= i < |appointments| && appointments[i].technician != technician
                             && appointments[i].status != AppointmentCancelled
      {
        return Raised(AlreadyScheduled);
      }
      if exists i :: 0 <= i < |visits| && visits[i].technician != technician && Attended(visits[i]) {
        return Raised(AttendedVisit);
      }
      if self && exists i :: 0 <= i < |visits| && visits[i].technician != technician && Active(visits[i]) {
        return Raised(AlreadyAssigned);
      }
      var number := Assign(technician, self);
      r := Ok(number);
    }
  }

  // ---- visits -------------------------------------------------------------------------------------

  lemma {:induction false} LastVisitMeaning(visits: seq<Visit>, technician: int)
    ensures var k := LastVisit(visits, technician);
            match k
            case None => forall i :: 0 <= i < |visits| ==> visits[i].technician != technician || !Active(visits[i])
            case Some(j) => j < |visits| && visits[j].technician == technician && Active(visits[j])
  {
    if visits != [] {
      LastVisitMeaning(visits[..|visits| - 1], technician);
    }
  }

  lemma LastOfInserted(visits: seq<Visit>, v: Visit)
    requires LastVisit(visits, v.technician) == None && Active(v)
    ensures LastVisit(visits + [v], v.technician) == Some(|visits|)
  {
    assert (visits + [v])[..|visits|] == visits;
  }

  predicate Numbered(visits: seq<Visit>) {
    forall i :: 0 <= i < |visits| ==> visits[i].number == i + 1
  }

  lemma {:induction false} MaxOfNumbered(visits: seq<Visit>)
    requires Numbered(visits)
    ensures MaxNumber(visits) == |visits|
  {
    if visits != [] {
      MaxOfNumbered(visits[..|visits| - 1]);
    }
  }

  /** Visits that are not cancelled belong to the assigned technician. */
  predicate Owned(visits: seq<Visit>, assignee: Option<int>) {
    forall i :: 0 <= i < |visits| && Active(visits[i]) ==> assignee == Some(visits[i].technician)
  }

  predicate AtMostOneActive(visits: seq<Visit>) {
    forall i, j :: 0 <= i < j < |visits| ==> !Active(visits[i]) || !Active(visits[j])
  }

  function AssigneeAfter(audit: seq<Audit>): Option<int> {
    if audit == [] then None else Some(audit[|audit| - 1].technician)
  }

  /** The audit records lead from no technician to the last one without a gap. */
  predicate Chained(audit: seq<Audit>) {
    forall i :: 0 <= i < |audit| ==>
      audit[i].previous == AssigneeAfter(audit[..i]) && audit[i].previous != Some(audit[i].technician)
  }

  predicate SomeActive(visits: seq<Visit>) {
    exists i :: 0 <= i < |visits| && Active(visits[i])
  }

  /** Exactly one visit of a case with visits is not cancelled, and it is the assigned technician's. */
  predicate InOrder(c: Case) {
    && Owned(c.visits, c.assignee) && AtMostOneActive(c.visits) && (c.visits != [] ==> SomeActive(c.visits))
    && Numbered(c.visits)
    && Chained(c.audit) && c.assignee == AssigneeAfter(c.audit)
  }

  lemma ChainAdded(audit: seq<Audit>, record: Audit)
    requires Chained(audit) && record.previous == AssigneeAfter(audit) && record.previous != Some(record.technician)
    ensures Chained(audit + [record]) && AssigneeAfter(audit + [record]) == Some(record.technician)
  {
  }

  /** What an assignment leaves of the visits there are belongs to the assigned technician. */
  lemma CancelledAreOwned(c: Case, technician: int, self: bool)
    requires Blocked(c, technician, self) == None
    ensures Owned(OthersCancelled(c.visits, technician), Some(technician))
  {
    var visits := OthersCancelled(c.visits, technician);
    forall i | 0 <= i < |visits| && Active(visits[i]) ensures visits[i].technician == technician {
      assert !(c.visits[i].technician != technician && Attended(c.visits[i]));
    }
  }

  lemma VisitIsOwned(visits: seq<Visit>, technician: int)
    requires Owned(visits, Some(technician))
    ensures Owned(WithVisit(visits, technician), Some(technician))
    ensures LastVisit(WithVisit(visits, technician), technician).Some?
  {
    if LastVisit(visits, technician) == None {
      LastOfInserted(visits, Visit(technician, MaxNumber(visits) + 1, Assigned, false, false));
    }
  }

  /** From any state whatever: an assignment that succeeds leaves every visit that is not cancelled with
      the assigned technician, who has one. */
  lemma AssignmentOwnsVisits(c: Case, technician: int, self: bool)
    requires Blocked(c, technician, self) == None
    ensures AssignedTo(c, technician, self).visits == VisitsAfter(c, technician)
    ensures Owned(VisitsAfter(c, technician), Some(technician))
    ensures LastVisit(VisitsAfter(c, technician), technician).Some?
  {
    CancelledAreOwned(c, technician, self);
    VisitIsOwned(OthersCancelled(c.visits, technician), technician);
  }

  lemma AssignmentLeavesOne(c: Case, technician: int)
    requires LastVisit(VisitsAfter(c, technician), technician).Some?
    ensures SomeActive(VisitsAfter(c, technician))
  {
    LastVisitMeaning(VisitsAfter(c, technician), technician);
  }

  /** A claim is refused exactly when the case has ended or belongs to another technician in any way: by
      assignment, by an appointment or by a visit that is not cancelled. */
  lemma ClaimIsRefusedIff(c: Case, technician: int)
    ensures ApplyAssignment(c, technician, true).1.Raised? <==>
              || Ended(c.status)
              || (c.assignee.Some? && c.assignee != Some(technician))
              || (exists i :: 0 <= i < |c.appointments| && c.appointments[i].technician != technician
                              && c.appointments[i].status != AppointmentCancelled)
              || (exists i :: 0 <= i < |c.visits| && c.visits[i].technician != technician && Active(c.visits[i]))
  {
  }

  predicate Pending(a: Appointment) {
    a.status == Suggested || a.status == Scheduled
  }

  /** An assignment leaves no other technician a pending appointment, and every other appointment as it is. */
  lemma OnlyOthersAreWithdrawn(c: Case, technician: int, self: bool, i: nat)
    requires i < |c.appointments| && ApplyAssignment(c, technician, self).1.Ok?
    ensures var after := ApplyAssignment(c, technician, self).0.appointments;
            && |after| == |c.appointments| && after[i].technician == c.appointments[i].technician
            && (after[i].technician != technician ==> !Pending(after[i]))
            && (after[i] == c.appointments[i] <==> after[i].technician == technician || !Pending(c.appointments[i]))
  {
  }

  lemma VisitsStayInOrder(c: Case, technician: int, self: bool)
    requires AtMostOneActive(c.visits) && Numbered(c.visits) && Blocked(c, technician, self) == None
    ensures AtMostOneActive(VisitsAfter(c, technician)) && Numbered(VisitsAfter(c, technician))
  {
    var visits := OthersCancelled(c.visits, technician);
    assert AtMostOneActive(visits) && Numbered(visits);
    MaxOfNumbered(visits);
    LastVisitMeaning(visits, technician);
    CancelledAreOwned(c, technician, self);
  }

  lemma AssignmentStaysInOrder(c: Case, technician: int, self: bool)
    requires InOrder(c)
    ensures InOrder(ApplyAssignment(c, technician, self).0)
  {
    if Blocked(c, technician, self) == None {
      AssignmentOwnsVisits(c, technician, self);
      AssignmentLeavesOne(c, technician);
      VisitsStayInOrder(c, technician, self);
      if c.assignee != Some(technician) {
        ChainAdded(c.audit, Audit(c.assignee, technician, self, VisitNumber(VisitsAfter(c, technician), technician)));
      }
    }
  }

  // ---- entry points -------------------------------------------------------------------------------

  /** What the session settings and the policy say about the caller. */
  datatype Context = Context(enabled: bool, sessionActive: bool, role: string, selfAssignment: bool, shared: bool,
                             sessionTechnician: Option<int>, activeTechnicians: set<int>)

  function Claimant(ctx: Context, technician: Option<int>, reason: string): Result<int> {
    if !ctx.enabled then Raised(DispatchDisabled)
    else if !ctx.sessionActive then Raised(SessionRequired)
    else if technician == None then
      if !ctx.selfAssignment then Raised(SelfAssignmentDisabled)
      else if ctx.sessionTechnician == None && ctx.shared then Raised(IdentifyTechnician)
      else if ctx.sessionTechnician == None then Raised(EligibleTechnicianNotFound)
      else Ok(ctx.sessionTechnician.value)
    else if ctx.role !in {"owner", "admin"} || !(3 <= |Trim(reason)| <= 1000) then Raised(ManagerAndReasonRequired)
    else if technician.value !in ctx.activeTechnicians then Raised(EligibleTechnicianNotFound)
    else Ok(technician.value)
  }

  /** assign_case: without a technician the session's own claims the case. */
  function AssignCase(ctx: Context, cases: seq<Case>, k: nat, technician: Option<int>, reason: string): (seq<Case>, Result<int>) {
    match Claimant(ctx, technician, reason)
    case Raised(error) => (cases, Raised(error))
    case Ok(t) =>
      if k >= |cases| then (cases, Raised(CaseNotFound))
      else
        var (c, r) := ApplyAssignment(cases[k], t, technician == None);
        (cases[k := c], r)
  }

  function NewCase(id: int, priority: Priority, createdAt: real): Case {
    Case(id, AwaitingScheduling, priority, createdAt, None, [], [], [])
  }

  /** create_technician_case; the customer and location checks are inputs. */
  function CreateTechnicianCase(ctx: Context, cases: seq<Case>, id: int, priority: Priority, createdAt: real,
                                customerFound: bool, locationValid: bool): (seq<Case>, Result<int>)
  {
    if !ctx.enabled then (cases, Raised(CreationUnavailable))
    else if ctx.role != "technician" then (cases, Raised(TechnicianSessionRequired))
    else if !ctx.sessionActive then (cases, Raised(SessionRequired))
    else if ctx.sessionTechnician == None then
      (cases, Raised(if ctx.shared then IdentifyTechnician else IndividualAccountRequired))
    else if !customerFound then (cases, Raised(CustomerNotFound))
    else if !locationValid then (cases, Raised(LocationRequired))
    else
      var (c, r) := ApplyAssignment(NewCase(id, priority, createdAt), ctx.sessionTechnician.value, true);
      (cases + [c], r)
  }

  // ---- list_assignment_queue ----------------------------------------------------------------------

  predicate Available(c: Case) {
    && !Ended(c.status) && c.assignee == None
    && (forall i :: 0 <= i < |c.visits| ==> !Active(c.visits[i]))
    && (forall i :: 0 <= i < |c.appointments| ==> c.appointments[i].status == AppointmentCancelled)
  }

  predicate Mine(c: Case, technician: Option<int>) {
    && !Ended(c.status) && technician.Some?
    && (c.assignee == technician
        || exists i :: 0 <= i < |c.visits| && c.visits[i].technician == technician.value && Active(c.visits[i]))
  }

  predicate Listed(c: Case, view: string, technician: Option<int>) {
    if view == "available" then Available(c) else Mine(c, technician)
  }

  function Key(cases: seq<Case>, k: nat): OrderedLimit.Item
    requires k < |cases|
  {
    var urgency := match cases[k].priority case Urgent => 0.0 case High => 1.0 case _ => 2.0;
    OrderedLimit.Item(urgency, cases[k].createdAt, cases[k].id, k)
  }

  function Matching(cases: seq<Case>, n: nat, view: string, technician: Option<int>): seq<OrderedLimit.Item>
    requires n <= |cases|
  {
    if n == 0 then []
    else Matching(cases, n - 1, view, technician) + if Listed(cases[n - 1], view, technician) then [Key(cases, n - 1)] else []
  }

  const LISTED_ROWS: nat := 100

  function ListQueue(ctx: Context, cases: seq<Case>, view: string): Result<seq<nat>> {
    if !ctx.enabled || ctx.role !in {"owner", "admin", "agent", "technician"} then Raised(AccessDenied)
    else if view != "available" && view != "mine" then Raised(InvalidView)
    else if ctx.role == "technician" && ctx.sessionTechnician == None then
      Raised(if ctx.shared then IdentifyTechnician else IndividualAccountRequired)
    else if view == "available" && !ctx.selfAssignment && ctx.role == "technician" then Ok([])
    else
      var rows := OrderedLimit.Limited(Matching(cases, |cases|, view, ctx.sessionTechnician), LISTED_ROWS);
      Ok(seq(|rows|, i requires 0 <= i < |rows| => rows[i].row))
  }

  lemma {:induction false} MatchingMembers(cases: seq<Case>, n: nat, view: string, technician: Option<int>)
    requires n <= |cases|
    ensures var rows := Matching(cases, n, view, technician);
            && OrderedLimit.Distinct(rows)
            && forall i :: 0 <= i < |rows| ==>
                 rows[i].row < n && rows[i] == Key(cases, rows[i].row) && Listed(cases[rows[i].row], view, technician)
  {
    if n > 0 {
      MatchingMembers(cases, n - 1, view, technician);
    }
  }

  lemma {:induction false} ListedMatches(cases: seq<Case>, n: nat, view: string, technician: Option<int>, k: nat)
    requires k < n <= |cases| && Listed(cases[k], view, technician)
    ensures Key(cases, k) in Matching(cases, n, view, technician)
  {
    if k < n - 1 {
      ListedMatches(cases, n - 1, view, technician, k);
    }
  }

  /** Every listed row satisfies the view, and appears once. */
  lemma ListedSatisfiesView(ctx: Context, cases: seq<Case>, view: string, i: nat)
    requires ListQueue(ctx, cases, view).Ok? && i < |ListQueue(ctx, cases, view).value|
    ensures var k := ListQueue(ctx, cases, view).value[i];
            && k < |cases| && Listed(cases[k], view, ctx.sessionTechnician)
            && forall j :: 0 <= j < |ListQueue(ctx, cases, view).value| && j != i ==> ListQueue(ctx, cases, view).value[j] != k
  {
    var all := Matching(cases, |cases|, view, ctx.sessionTechnician);
    MatchingMembers(cases, |cases|, view, ctx.sessionTechnician);
    OrderedLimit.LimitedSelects(all, LISTED_ROWS);
    assert OrderedLimit.Limited(all, LISTED_ROWS)[i] in all;
  }

  /** A case of the view is left out only when a hundred more urgent, or equally urgent and older, cases
      fill the list. */
  lemma LeftOutIsPreceded(ctx: Context, cases: seq<Case>, view: string, k: nat)
    requires k < |cases| && Listed(cases[k], view, ctx.sessionTechnician) && ListQueue(ctx, cases, view).Ok?
    requires k !in ListQueue(ctx, cases, view).value
    ensures (ctx.role == "technician" && view == "available" && !ctx.selfAssignment)
            || (|ListQueue(ctx, cases, view).value| == LISTED_ROWS
                && forall i :: 0 <= i < LISTED_ROWS ==>
                     ListQueue(ctx, cases, view).value[i] < |cases|
                     && OrderedLimit.Precedes(Key(cases, ListQueue(ctx, cases, view).value[i]), Key(cases, k)))
  {
    if !(ctx.role == "technician" && view == "available" && !ctx.selfAssignment) {
      var all := Matching(cases, |cases|, view, ctx.sessionTechnician);
      var rows := OrderedLimit.Limited(all, LISTED_ROWS);
      var listed := ListQueue(ctx, cases, view).value;
      MatchingMembers(cases, |cases|, view, ctx.sessionTechnician);
      ListedMatches(cases, |cases|, view, ctx.sessionTechnician, k);
      OrderedLimit.LimitedSelects(all, LISTED_ROWS);
      forall i | 0 <= i < |rows| ensures rows[i] != Key(cases, k) {
        assert listed[i] in listed;
      }
      OrderedLimit.LimitedTakesFirst(all, LISTED_ROWS, Key(cases, k));
      forall i | 0 <= i < |rows| ensures rows[i].row < |cases| && rows[i] == Key(cases, rows[i].row) {
        assert rows[i] in all;
      }
    }
  }

  // ---- the queue agrees with claiming -------------------------------------------------------------

  /** Any available case can be claimed by the technician of any session that may claim; it then leaves the
      available view and is in the claimant's own. */
  lemma AvailableCanBeClaimed(ctx: Context, cases: seq<Case>, k: nat, reason: string)
    requires k < |cases| && Available(cases[k]) && Claimant(ctx, None, reason).Ok?
    ensures var (after, r) := AssignCase(ctx, cases, k, None, reason);
            && r.Ok? && |after| == |cases| && k < |after|
            && after[k].assignee == ctx.sessionTechnician
            && !Available(after[k]) && Mine(after[k], ctx.sessionTechnician)
            && forall j :: 0 <= j < |cases| && j != k ==> after[j] == cases[j]
  {
    assert Blocked(cases[k], ctx.sessionTechnician.value, true) == None;
  }

  /** In particular whatever a technician's session sees in the list. */
  lemma ListedCanBeClaimed(ctx: Context, cases: seq<Case>, k: nat, reason: string)
    requires ctx.role == "technician" && ctx.sessionActive
    requires ListQueue(ctx, cases, "available").Ok? && k in ListQueue(ctx, cases, "available").value
    ensures AssignCase(ctx, cases, k, None, reason).1.Ok?
  {
    var listed := ListQueue(ctx, cases, "available").value;
    var i :| 0 <= i < |listed| && listed[i] == k;
    ListedSatisfiesView(ctx, cases, "available", i);
    AvailableCanBeClaimed(ctx, cases, k, reason);
  }

  lemma NewCaseIsAssigned(id: int, priority: Priority, createdAt: real, technician: int)
    ensures var (c, r) := ApplyAssignment(NewCase(id, priority, createdAt), technician, true);
            r == Ok(1) && c.assignee == Some(technician) && c.visits == [Visit(technician, 1, Assigned, false, false)]
            && c.audit == [Audit(None, technician, true, 1)]
  {
    var c := NewCase(id, priority, createdAt);
    var v := Visit(technician, 1, Assigned, false, false);
    assert OthersCancelled(c.visits, technician) == [];
    LastOfInserted([], v);
    assert [] + [v] == [v];
    assert VisitsAfter(c, technician) == [v];
    assert VisitNumber([v], technician) == 1;
    assert Blocked(c, technician, true) == None;
  }

  // ---- runs ---------------------------------------------------------------------------------------

  /** The calls of this model and what other parts of the system do to the same rows. */
  datatype Step =
    | Assign(ctx: Context, k: nat, technician: Option<int>, reason: string)
    | Create(ctx: Context, id: int, priority: Priority, createdAt: real, customerFound: bool, locationValid: bool)
    | Open(id: int, priority: Priority, createdAt: real)
    | Sign(ctx: Context, k: nat, visit: nat, departure: bool)
    | Report(k: nat, visit: nat)
    | Move(k: nat, status: CaseStatus)
    | Book(k: nat, appointments: seq<Appointment>)

  /** current_actor_can_access_case: a session with the technician role reaches the cases of its technician only. */
  predicate Accessible(c: Case, ctx: Context) {
    ctx.role != "technician" || (ctx.sessionTechnician.Some? && Concerns(c, ctx.sessionTechnician.value))
  }

  /** The case is assigned to the technician, or has an appointment or a visit of theirs that is not cancelled. */
  predicate Concerns(c: Case, technician: int) {
    || c.assignee == Some(technician)
    || (exists i :: 0 <= i < |c.appointments| && c.appointments[i].technician == technician
                    && c.appointments[i].status != AppointmentCancelled)
    || (exists i :: 0 <= i < |c.visits| && c.visits[i].technician == technician && Active(c.visits[i]))
  }

  /** The signature is the first of its kind, and a departure follows an arrival. */
  predicate NewSignature(v: Visit, departure: bool) {
    if departure then v.arrived && !v.departed else !v.arrived
  }

  /** Attendance is signed; the status of the visit is not looked at. */
  function Signed(v: Visit, departure: bool): Visit {
    if !NewSignature(v, departure) then v
    else if departure then v.(status := Departed, departed := true)
    else v.(status := Arrived, arrived := true)
  }

  /** The report is finalized. */
  function ReportedOn(v: Visit): Visit {
    if v.status == Assigned || v.status == Arrived || v.status == Departed then v.(status := Reported) else v
  }

  function SignedAt(c: Case, visit: nat, departure: bool): Case {
    if visit < |c.visits| then c.(visits := c.visits[visit := Signed(c.visits[visit], departure)]) else c
  }

  function ReportedAt(c: Case, visit: nat): Case {
    if visit < |c.visits| then c.(visits := c.visits[visit := ReportedOn(c.visits[visit])]) else c
  }

  function Apply(cases: seq<Case>, step: Step): (r: seq<Case>)
    ensures |r| >= |cases|
  {
    match step
    case Assign(ctx, k, technician, reason) => AssignCase(ctx, cases, k, technician, reason).0
    case Create(ctx, id, priority, createdAt, customerFound, locationValid) =>
      CreateTechnicianCase(ctx, cases, id, priority, createdAt, customerFound, locationValid).0
    case Open(id, priority, createdAt) => cases + [NewCase(id, priority, createdAt)]
    case Sign(ctx, k, visit, departure) =>
      if k < |cases| && Accessible(cases[k], ctx) then cases[k := SignedAt(cases[k], visit, departure)] else cases
    case Report(k, visit) => if k < |cases| then cases[k := ReportedAt(cases[k], visit)] else cases
    case Move(k, status) => if k < |cases| then cases[k := cases[k].(status := status)] else cases
    case Book(k, appointments) => if k < |cases| then cases[k := cases[k].(appointments := appointments)] else cases
  }

  function Run(cases: seq<Case>, steps: seq<Step>): (r: seq<Case>)
    ensures |r| >= |cases|
    decreases |steps|
  {
    if steps == [] then cases else Apply(Run(cases, steps[..|steps| - 1]), steps[|steps| - 1])
  }

  predicate AllInOrder(cases: seq<Case>) {
    forall k :: 0 <= k < |cases| ==> InOrder(cases[k])
  }

  /** The signature brings a cancelled visit back. */
  predicate RevivesVisit(c: Case, visit: nat, departure: bool) {
    visit < |c.visits| && !Active(c.visits[visit]) && NewSignature(c.visits[visit], departure)
  }

  predicate Revives(cases: seq<Case>, step: Step) {
    step.Sign? && step.k < |cases| && Accessible(cases[step.k], step.ctx) && RevivesVisit(cases[step.k], step.visit, step.departure)
  }

  lemma SigningStaysInOrderIff(c: Case, visit: nat, departure: bool)
    requires InOrder(c)
    ensures InOrder(SignedAt(c, visit, departure)) <==> !RevivesVisit(c, visit, departure)
  {
    var after := SignedAt(c, visit, departure);
    if visit < |c.visits| {
      var i :| 0 <= i < |c.visits| && Active(c.visits[i]);
      assert Active(after.visits[i]);
      if RevivesVisit(c, visit, departure) {
        assert i != visit && Active(after.visits[visit]);
      }
    }
  }

  lemma ReportStaysInOrder(c: Case, visit: nat)
    requires InOrder(c)
    ensures InOrder(ReportedAt(c, visit))
  {
    var after := ReportedAt(c, visit);
    if c.visits != [] {
      var i :| 0 <= i < |c.visits| && Active(c.visits[i]);
      assert Active(after.visits[i]);
    }
  }

  lemma NewCaseInOrder(id: int, priority: Priority, createdAt: real)
    ensures InOrder(NewCase(id, priority, createdAt))
  {
  }

  lemma StepStaysInOrderIff(cases: seq<Case>, step: Step)
    requires AllInOrder(cases)
    ensures AllInOrder(Apply(cases, step)) <==> !Revives(cases, step)
  {
    match step
    case Assign(ctx, k, technician, reason) =>
      var claimant := Claimant(ctx, technician, reason);
      if claimant.Ok? && k < |cases| {
        AssignmentStaysInOrder(cases[k], claimant.value, technician == None);
        OneCaseChanged(cases, k, ApplyAssignment(cases[k], claimant.value, technician == None).0);
      }
    case Create(ctx, id, priority, createdAt, _, _) =>
      NewCaseInOrder(id, priority, createdAt);
      if ctx.sessionTechnician.Some? {
        AssignmentStaysInOrder(NewCase(id, priority, createdAt), ctx.sessionTechnician.value, true);
      }
    case Open(id, priority, createdAt) =>
      NewCaseInOrder(id, priority, createdAt);
    case Sign(ctx, k, visit, departure) =>
      if k < |cases| && Accessible(cases[k], ctx) {
        SigningStaysInOrderIff(cases[k], visit, departure);
        OneCaseChanged(cases, k, SignedAt(cases[k], visit, departure));
      }
    case Report(k, visit) =>
      if k < |cases| {
        ReportStaysInOrder(cases[k], visit);
        OneCaseChanged(cases, k, ReportedAt(cases[k], visit));
      }
    case Move(k, status) =>
      if k < |cases| { OneCaseChanged(cases, k, cases[k].(status := status)); }
    case Book(k, appointments) =>
      if k < |cases| { OneCaseChanged(cases, k, cases[k].(appointments := appointments)); }
  }

  lemma OneCaseChanged(cases: seq<Case>, k: nat, c: Case)
    requires AllInOrder(cases) && k < |cases|
    ensures AllInOrder(cases[k := c]) <==> InOrder(c)
  {
    assert cases[k := c][k] == c;
  }

  /** Every case is in order after each step of the run. */
  predicate AlwaysInOrder(cases: seq<Case>, steps: seq<Step>)
    decreases |steps|
  {
    AllInOrder(Run(cases, steps)) && (steps != [] ==> AlwaysInOrder(cases, steps[..|steps| - 1]))
  }

  predicate RevivesSometime(cases: seq<Case>, steps: seq<Step>)
    decreases |steps|
  {
    steps != []
    && (Revives(Run(cases, steps[..|steps| - 1]), steps[|steps| - 1]) || RevivesSometime(cases, steps[..|steps| - 1]))
  }

  /** In every run from an empty tenant: each case keeps exactly one visit that is not cancelled, the
      assigned technician's, with visits numbered 1 to n and audit records that tell how the assigned
      technician came about, if and only if nobody signs a visit that was cancelled. */
  lemma {:induction false} RunsStayInOrderIff(steps: seq<Step>)
    ensures AlwaysInOrder([], steps) <==> !RevivesSometime([], steps)
    decreases |steps|
  {
    if steps != [] {
      var n := |steps| - 1;
      RunsStayInOrderIff(steps[..n]);
      if AlwaysInOrder([], steps[..n]) {
        assert AllInOrder(Run([], steps[..n]));
        StepStaysInOrderIff(Run([], steps[..n]), steps[n]);
      }
    }
  }

  /** When a manager gave a case away, the former technician's visit can still be signed where the case can be
      reached: two visits of two technicians are then not cancelled. */
  lemma ReassignedVisitCanBeSigned(c: Case, technician: int, i: nat) returns (j: nat)
    requires i < |c.visits| && c.visits[i].status == Assigned && !c.visits[i].arrived && c.visits[i].technician != technician
    requires ApplyAssignment(c, technician, false).1.Ok?
    ensures var signed := SignedAt(ApplyAssignment(c, technician, false).0, i, false);
            && i < |signed.visits| && j < |signed.visits| && Active(signed.visits[i]) && Active(signed.visits[j])
            && signed.visits[i].technician != signed.visits[j].technician
  {
    AssignmentOwnsVisits(c, technician, false);
    LastVisitMeaning(VisitsAfter(c, technician), technician);
    j := LastVisit(VisitsAfter(c, technician), technician).value;
  }

  /** A session still reaches a case that was given to another technician if and only if its role is not that
      of a technician, or its technician has an appointment there that is in progress or completed. */
  lemma FormerTechnicianReachesIff(c: Case, technician: int, ctx: Context)
    requires ApplyAssignment(c, technician, false).1.Ok?
    requires ctx.sessionTechnician.Some? && ctx.sessionTechnician.value != technician
    ensures Accessible(ApplyAssignment(c, technician, false).0, ctx) <==>
              || ctx.role != "technician"
              || exists i :: 0 <= i < |c.appointments| && c.appointments[i].technician == ctx.sessionTechnician.value
                             && (c.appointments[i].status == AppointmentInProgress || c.appointments[i].status == AppointmentCompleted)
  {
    var after := ApplyAssignment(c, technician, false).0;
    var former := ctx.sessionTechnician.value;
    AssignmentOwnsVisits(c, technician, false);
    if i :| 0 <= i < |after.appointments| && after.appointments[i].technician == former
            && after.appointments[i].status != AppointmentCancelled
    {
      assert c.appointments[i].technician == former;
    }
    if i :| 0 <= i < |c.appointments| && c.appointments[i].technician == former
            && (c.appointments[i].status == AppointmentInProgress || c.appointments[i].status == AppointmentCompleted)
    {
      assert after.appointments[i] == c.appointments[i];
    }
  }

  /** Two technicians never find the same case in their own lists, in any run in which nobody signs a
      cancelled visit. */
  lemma OwnListsAreDisjoint(steps: seq<Step>, first: Context, second: Context, k: nat)
    requires !RevivesSometime([], steps) && first.sessionTechnician != second.sessionTechnician
    requires ListQueue(first, Run([], steps), "mine").Ok? && ListQueue(second, Run([], steps), "mine").Ok?
    ensures k !in ListQueue(first, Run([], steps), "mine").value || k !in ListQueue(second, Run([], steps), "mine").value
  {
    RunsStayInOrderIff(steps);
    var cases := Run([], steps);
    var a := ListQueue(first, cases, "mine").value;
    var b := ListQueue(second, cases, "mine").value;
    if i, j :| 0 <= i < |a| && a[i] == k && 0 <= j < |b| && b[j] == k {
      ListedSatisfiesView(first, cases, "mine", i);
      ListedSatisfiesView(second, cases, "mine", j);
      assert InOrder(cases[k]);
      MineMeansAssigned(cases[k], first.sessionTechnician);
      MineMeansAssigned(cases[k], second.sessionTechnician);
    }
  }

  lemma MineMeansAssigned(c: Case, technician: Option<int>)
    requires InOrder(c) && Mine(c, technician)
    ensures c.assignee == technician
  {
  }

  predicate SameVisit(before: Visit, after: Visit) {
    before.technician == after.technician && before.number == after.number && (Attended(before) ==> Attended(after))
  }

  lemma AssignmentKeepsVisit(c: Case, technician: int, self: bool, i: nat)
    requires i < |c.visits|
    ensures var after := ApplyAssignment(c, technician, self).0;
            i < |after.visits| && SameVisit(c.visits[i], after.visits[i])
  {
  }

  lemma SigningKeepsVisit(c: Case, visit: nat, departure: bool, i: nat)
    requires i < |c.visits|
    ensures i < |SignedAt(c, visit, departure).visits| && SameVisit(c.visits[i], SignedAt(c, visit, departure).visits[i])
    ensures i < |ReportedAt(c, visit).visits| && SameVisit(c.visits[i], ReportedAt(c, visit).visits[i])
  {
  }

  lemma StepKeepsVisit(cases: seq<Case>, step: Step, k: nat, i: nat)
    requires k < |cases| && i < |cases[k].visits|
    ensures i < |Apply(cases, step)[k].visits| && SameVisit(cases[k].visits[i], Apply(cases, step)[k].visits[i])
  {
    match step
    case Assign(ctx, _, technician, reason) =>
      var claimant := Claimant(ctx, technician, reason);
      if claimant.Ok? { AssignmentKeepsVisit(cases[k], claimant.value, technician == None, i); }
    case Sign(_, _, visit, departure) => SigningKeepsVisit(cases[k], visit, departure, i);
    case Report(_, visit) => SigningKeepsVisit(cases[k], visit, false, i);
    case _ =>
  }

  /** From any state on, a visit keeps its technician and number, and an attended one is never cancelled. */
  lemma {:induction false} AttendedVisitsStay(cases: seq<Case>, steps: seq<Step>, k: nat, i: nat)
    requires k < |cases| && i < |cases[k].visits|
    ensures i < |Run(cases, steps)[k].visits| && SameVisit(cases[k].visits[i], Run(cases, steps)[k].visits[i])
    decreases |steps|
  {
    if steps != [] {
      AttendedVisitsStay(cases, steps[..|steps| - 1], k, i);
      StepKeepsVisit(Run(cases, steps[..|steps| - 1]), steps[|steps| - 1], k, i);
    }
  }

  predicate Reassigns(step: Step, k: nat) {
    step.Assign? && step.k == k && step.technician.Some?
  }

  lemma ClaimedStaysClaimed(cases: seq<Case>, step: Step, k: nat, technician: int)
    requires k < |cases| && cases[k].assignee == Some(technician) && !Reassigns(step, k)
    ensures Apply(cases, step)[k].assignee == Some(technician)
  {
  }

  lemma ClaimFails(cases: seq<Case>, k: nat, technician: int, other: Context, reason: string)
    requires k < |cases| && cases[k].assignee == Some(technician) && other.sessionTechnician != Some(technician)
    ensures AssignCase(other, cases, k, None, reason).0 == cases && AssignCase(other, cases, k, None, reason).1.Raised?
  {
    if Claimant(other, None, reason).Ok? {
      assert cases[k := cases[k]] == cases;
    }
  }

  /** Until a manager steps in, the first claim wins: in every interleaving the case stays with its
      technician, and a claim from any other session fails and changes nothing. */
  lemma {:induction false} FirstClaimWins(cases: seq<Case>, steps: seq<Step>, k: nat, technician: int, other: Context, reason: string)
    requires k < |cases| && cases[k].assignee == Some(technician)
    requires forall i :: 0 <= i < |steps| ==> !Reassigns(steps[i], k)
    requires other.sessionTechnician != Some(technician)
    ensures Run(cases, steps)[k].assignee == Some(technician)
    ensures var now := Run(cases, steps);
            AssignCase(other, now, k, None, reason).0 == now && AssignCase(other, now, k, None, reason).1.Raised?
    decreases |steps|
  {
    if steps != [] {
      FirstClaimWins(cases, steps[..|steps| - 1], k, technician, other, reason);
      ClaimedStaysClaimed(Run(cases, steps[..|steps| - 1]), steps[|steps| - 1], k, technician);
    }
    ClaimFails(Run(cases, steps), k, technician, other, reason);
  }

  /** A manager's reassignment is refused exactly when the case has ended or another technician attended. */
  lemma ManagerIsRefusedOnlyByAttendance(c: Case, technician: int)
    ensures ApplyAssignment(c, technician, false).1.Raised? <==>
              Ended(c.status) || exists i :: 0 <= i < |c.visits| && c.visits[i].technician != technician && Attended(c.visits[i])
  {
  }
}
