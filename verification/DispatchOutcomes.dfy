/** What the calls on field work answer and do, column by column. */
module DispatchOutcomes {
  import opened Common
  import opened FieldService
  import opened FieldDispatch
  import OrderedLimit

  // ---- one assignment -----------------------------------------------------------------------------

  /** The last visit is the technician's, is not cancelled and has the highest number of these. */
  lemma {:induction false} LastIsHighest(visits: seq<Visit>, technician: int)
    ensures match LastVisit(visits, technician)
            case None => forall i :: 0 <= i < |visits| ==> visits[i].technician != technician || !Active(visits[i])
            case Some(k) =>
              && k < |visits| && visits[k].technician == technician && Active(visits[k])
              && forall i :: 0 <= i < |visits| && visits[i].technician == technician && Active(visits[i]) ==>
                   visits[i].number <= visits[k].number
  {
    if visits != [] {
      LastIsHighest(visits[..|visits| - 1], technician);
    }
  }

  /** The maximum of the numbers, and 0 without visits. */
  lemma {:induction false} MaxIsHighest(visits: seq<Visit>)
    ensures visits == [] ==> MaxNumber(visits) == 0
    ensures visits != [] ==> exists i :: 0 <= i < |visits| && visits[i].number == MaxNumber(visits)
    ensures forall i :: 0 <= i < |visits| ==> visits[i].number <= MaxNumber(visits)
  {
    if |visits| == 1 {
      assert visits[0].number == MaxNumber(visits);
    } else if visits != [] {
      var n := |visits| - 1;
      MaxIsHighest(visits[..n]);
      if MaxNumber(visits) == visits[n].number {
        assert visits[n].number == MaxNumber(visits);
      } else {
        var i :| 0 <= i < n && visits[..n][i].number == MaxNumber(visits[..n]);
        assert visits[i].number == MaxNumber(visits);
      }
    }
  }

  /** The visit as another's assignment leaves it. */
  predicate LeftBy(v: Visit, technician: int, before: Visit) {
    if before.technician != technician && before.status == Assigned then v == before.(status := VisitCancelled) else v == before
  }

  /** A visit of the technician that is not cancelled. */
  predicate OpenVisit(v: Visit, technician: int) {
    v.technician == technician && v.status != VisitCancelled
  }

  lemma ActiveVisitStays(visits: seq<Visit>, technician: int, i: nat)
    requires i < |visits|
    ensures |OthersCancelled(visits, technician)| == |visits|
    ensures LeftBy(OthersCancelled(visits, technician)[i], technician, visits[i])
    ensures OpenVisit(OthersCancelled(visits, technician)[i], technician) <==> OpenVisit(visits[i], technician)
    ensures OthersCancelled(visits, technician)[i].number == visits[i].number
  {
  }

  /** The visits after an assignment: each old one is as before, or was another's assigned visit and is now
      cancelled; a technician without one gets one more, numbered after the highest. */
  lemma VisitsEffect(c: Case, technician: int)
    ensures var after := VisitsAfter(c, technician);
            && |after| == |c.visits| + (if exists i :: 0 <= i < |c.visits| && OpenVisit(c.visits[i], technician) then 0 else 1)
            && (forall i :: 0 <= i < |c.visits| ==> LeftBy(after[i], technician, c.visits[i]))
            && (|after| > |c.visits| ==>
                 && after[|c.visits|] == Visit(technician, MaxNumber(c.visits) + 1, Assigned, false, false))
  {
    var visits := OthersCancelled(c.visits, technician);
    LastIsHighest(visits, technician);
    forall i | 0 <= i < |visits|
      ensures LeftBy(visits[i], technician, c.visits[i]) && visits[i].number == c.visits[i].number
              && (OpenVisit(visits[i], technician) <==> OpenVisit(c.visits[i], technician))
    {
      ActiveVisitStays(c.visits, technician, i);
    }
    SameNumbersSameMax(visits, c.visits);
    if i :| 0 <= i < |c.visits| && OpenVisit(c.visits[i], technician) {
      assert OpenVisit(visits[i], technician);
    }
    if LastVisit(visits, technician).Some? {
      assert OpenVisit(c.visits[LastVisit(visits, technician).value], technician);
    }
  }

  lemma {:induction false} SameNumbersSameMax(a: seq<Visit>, b: seq<Visit>)
    requires |a| == |b| && forall i :: 0 <= i < |a| ==> a[i].number == b[i].number
    ensures MaxNumber(a) == MaxNumber(b)
  {
    if a != [] {
      SameNumbersSameMax(a[..|a| - 1], b[..|b| - 1]);
    }
  }

  lemma SomeVisit(visits: seq<Visit>, technician: int)
    ensures LastVisit(WithVisit(visits, technician), technician).Some?
  {
    if LastVisit(visits, technician) == None {
      LastOfInserted(visits, Visit(technician, MaxNumber(visits) + 1, Assigned, false, false));
    }
  }

  /** The answer is the highest number among the technician's visits that are not cancelled. */
  lemma AnswerIsOwnNumber(c: Case, technician: int)
    ensures var after := VisitsAfter(c, technician);
            var n := VisitNumber(after, technician);
            && (exists i :: 0 <= i < |after| && OpenVisit(after[i], technician) && after[i].number == n)
            && forall i :: 0 <= i < |after| && OpenVisit(after[i], technician) ==> after[i].number <= n
  {
    var after := VisitsAfter(c, technician);
    LastIsHighest(after, technician);
    SomeVisit(OthersCancelled(c.visits, technician), technician);
    var k := LastVisit(after, technician).value;
    assert OpenVisit(after[k], technician) && after[k].number == VisitNumber(after, technician);
  }

  /** Old visits stand but for the cancelled ones of others; at most one visit of the technician is added, where
      there was no open one, with the first number or the next. */
  predicate VisitsFollow(before: seq<Visit>, after: seq<Visit>, technician: int) {
    && |before| <= |after| <= |before| + 1
    && (forall i :: 0 <= i < |before| ==> LeftBy(after[i], technician, before[i]))
    && (|after| > |before| <==> forall i :: 0 <= i < |before| ==> !OpenVisit(before[i], technician))
    && (|after| > |before| ==>
         var added := after[|before|];
         && added == Visit(technician, added.number, Assigned, false, false)
         && (forall i :: 0 <= i < |before| ==> before[i].number < added.number)
         && if before == [] then added.number == 1 else exists i :: 0 <= i < |before| && before[i].number + 1 == added.number)
  }

  lemma AssignedVisits(c: Case, technician: int)
    ensures VisitsFollow(c.visits, VisitsAfter(c, technician), technician)
  {
    VisitsEffect(c, technician);
    MaxIsHighest(c.visits);
  }

  /** The number is the highest among the technician's open visits. */
  predicate IsOwnNumber(visits: seq<Visit>, technician: int, n: int) {
    && (exists i :: 0 <= i < |visits| && OpenVisit(visits[i], technician) && visits[i].number == n)
    && forall i :: 0 <= i < |visits| && OpenVisit(visits[i], technician) ==> visits[i].number <= n
  }

  /** The whole effect of an assignment that answers n: id, status, priority and time of creation stand; the
      technician is assigned; visits follow; n is the number of an open visit of the technician; one audit record
      is added exactly when the assignee changes, with the old assignee, the technician, whether it was a claim,
      and n. */
  lemma AssignmentEffect(c: Case, technician: int, self: bool)
    requires ApplyAssignment(c, technician, self).1.Ok?
    ensures var (after, r) := ApplyAssignment(c, technician, self);
            && after == Case(c.id, c.status, c.priority, c.createdAt, Some(technician), after.visits, after.appointments, after.audit)
            && VisitsFollow(c.visits, after.visits, technician) && IsOwnNumber(after.visits, technician, r.value)
            && |after.appointments| == |c.appointments|
            && after.audit == c.audit + if c.assignee == Some(technician) then [] else [Audit(c.assignee, technician, self, r.value)]
  {
    AssignedVisits(c, technician);
    AnswerIsOwnNumber(c, technician);
  }

  /** What stands against an assignment: the case has ended, the others' visits were attended, and against a claim
      also whatever another technician has in the case. */
  predicate Against(c: Case, technician: int, self: bool, error: Error) {
    match error
    case NotAssignable => c.status == CaseClosed || c.status == CaseCompleted || c.status == CaseCancelled
    case AlreadyClaimed => self && c.assignee.Some? && c.assignee.value != technician
    case AlreadyScheduled =>
      self && exists i :: 0 <= i < |c.appointments| && c.appointments[i].technician != technician
                          && c.appointments[i].status != AppointmentCancelled
    case AttendedVisit =>
      exists i :: 0 <= i < |c.visits| && c.visits[i].technician != technician && c.visits[i].status in {Arrived, Departed, Reported}
    case AlreadyAssigned =>
      self && exists i :: 0 <= i < |c.visits| && c.visits[i].technician != technician && c.visits[i].status != VisitCancelled
    case _ => false
  }

  /** The order in which the checks are made. */
  function Order(error: Error): nat {
    match error
    case NotAssignable => 0
    case AlreadyClaimed => 1
    case AlreadyScheduled => 2
    case AttendedVisit => 3
    case _ => 4
  }

  /** An assignment is refused if and only if something stands against it; it then changes nothing, and its answer
      is the first thing in the order of the checks. */
  lemma RefusalIsTrue(c: Case, technician: int, self: bool)
    ensures var (after, r) := ApplyAssignment(c, technician, self);
            if r.Raised? then
              after == c && Against(c, technician, self, r.error)
              && forall error :: Against(c, technician, self, error) ==> Order(r.error) <= Order(error)
            else forall error :: !Against(c, technician, self, error)
  {
    forall i | 0 <= i < |c.visits|
      ensures (Attended(c.visits[i]) <==> c.visits[i].status in {Arrived, Departed, Reported})
              && (Active(c.visits[i]) <==> c.visits[i].status != VisitCancelled)
    {
    }
  }

  // ---- who may assign -----------------------------------------------------------------------------

  /** A call may assign a technician if and only if dispatch and the session are active and it is either a claim
      for the session's own technician with self-assignment on, or an owner's or admin's with a reason of 3 to
      1000 characters for an active technician. */
  lemma ClaimantIff(ctx: Context, technician: Option<int>, reason: string, t: int)
    ensures Claimant(ctx, technician, reason) == Ok(t) <==>
              && ctx.enabled && ctx.sessionActive
              && if technician.Some? then
                   t == technician.value && (ctx.role == "owner" || ctx.role == "admin")
                   && t in ctx.activeTechnicians && 3 <= |Trim(reason)| <= 1000
                 else
                   ctx.selfAssignment && ctx.sessionTechnician == Some(t)
  {
  }

  /** Else the answer names the first thing that is wrong: with dispatch, the session, and then the claim or the
      manager's choice. */
  lemma ClaimantErrorIsTrue(ctx: Context, technician: Option<int>, reason: string)
    requires Claimant(ctx, technician, reason).Raised?
    ensures Claimant(ctx, technician, reason).error ==
              if !ctx.enabled then DispatchDisabled
              else if !ctx.sessionActive then SessionRequired
              else match technician
              case None =>
                if !ctx.selfAssignment then SelfAssignmentDisabled
                else if ctx.shared then IdentifyTechnician else EligibleTechnicianNotFound
              case Some(t) =>
                if (ctx.role == "owner" || ctx.role == "admin") && 3 <= |Trim(reason)| <= 1000 then EligibleTechnicianNotFound
                else ManagerAndReasonRequired
  {
  }

  /** An assignment of a case is the assignment of the claimant, as a claim when no technician is named; other
      cases stand. */
  lemma AssignCaseEffect(ctx: Context, cases: seq<Case>, k: nat, technician: Option<int>, reason: string, t: int)
    requires k < |cases| && Claimant(ctx, technician, reason) == Ok(t)
    ensures var (after, r) := AssignCase(ctx, cases, k, technician, reason);
            && |after| == |cases| && (after[k], r) == ApplyAssignment(cases[k], t, technician == None)
            && forall j :: 0 <= j < |cases| && j != k ==> after[j] == cases[j]
  {
  }

  /** Otherwise, and for a case that is not there, nothing changes. */
  lemma NoClaimantNoChange(ctx: Context, cases: seq<Case>, k: nat, technician: Option<int>, reason: string)
    ensures var (after, r) := AssignCase(ctx, cases, k, technician, reason);
            match Claimant(ctx, technician, reason)
            case Raised(error) => after == cases && r == Raised(error)
            case Ok(_) => k >= |cases| ==> after == cases && r == Raised(CaseNotFound)
  {
  }

  /** A technician's session with a technician creates a case, for a customer and a place that exist; it starts
      without anything but its first visit and its audit record. */
  lemma CreationIff(ctx: Context, cases: seq<Case>, id: int, priority: Priority, createdAt: real, customer: bool, place: bool)
    ensures var (after, r) := CreateTechnicianCase(ctx, cases, id, priority, createdAt, customer, place);
            if ctx.enabled && ctx.role == "technician" && ctx.sessionActive && ctx.sessionTechnician.Some? && customer && place then
              var t := ctx.sessionTechnician.value;
              r == Ok(1)
              && after == cases + [Case(id, AwaitingScheduling, priority, createdAt, Some(t), [Visit(t, 1, Assigned, false, false)], [],
                                        [Audit(None, t, true, 1)])]
            else r.Raised? && after == cases
  {
    if ctx.sessionTechnician.Some? {
      var t := ctx.sessionTechnician.value;
      NewCaseIsAssigned(id, priority, createdAt, t);
      AssignmentEffect(NewCase(id, priority, createdAt), t, true);
    }
  }

  lemma CreationErrorIsTrue(ctx: Context, cases: seq<Case>, id: int, priority: Priority, createdAt: real, customer: bool, place: bool)
    requires CreateTechnicianCase(ctx, cases, id, priority, createdAt, customer, place).1.Raised?
    ensures CreateTechnicianCase(ctx, cases, id, priority, createdAt, customer, place).1.error ==
              if !ctx.enabled then CreationUnavailable
              else if ctx.role != "technician" then TechnicianSessionRequired
              else if !ctx.sessionActive then SessionRequired
              else if ctx.sessionTechnician == None then if ctx.shared then IdentifyTechnician else IndividualAccountRequired
              else if !customer then CustomerNotFound
              else LocationRequired
  {
    if ctx.sessionTechnician.Some? {
      NewCaseIsAssigned(id, priority, createdAt, ctx.sessionTechnician.value);
    }
  }

  // ---- the queue ----------------------------------------------------------------------------------

  lemma ClaimableIsFree(c: Case)
    requires forall t: int :: ApplyAssignment(c, t, true).1.Ok?
    ensures !Ended(c.status) && c.assignee == None
    ensures forall i :: 0 <= i < |c.visits| ==> !Active(c.visits[i])
    ensures forall i :: 0 <= i < |c.appointments| ==> c.appointments[i].status == AppointmentCancelled
  {
    assert ApplyAssignment(c, 0, true).1.Ok?;
    if c.assignee.Some? {
      ClaimIsRefusedIff(c, c.assignee.value + 1);
    }
    forall i | 0 <= i < |c.visits| ensures !Active(c.visits[i]) {
      ClaimIsRefusedIff(c, c.visits[i].technician + 1);
    }
    forall i | 0 <= i < |c.appointments| ensures c.appointments[i].status == AppointmentCancelled {
      ClaimIsRefusedIff(c, c.appointments[i].technician + 1);
    }
  }

  /** A case is available if and only if every technician could claim it. */
  lemma AvailableIff(c: Case)
    ensures Available(c) <==> forall t: int :: ApplyAssignment(c, t, true).1.Ok?
  {
    if Available(c) {
      forall t: int ensures ApplyAssignment(c, t, true).1.Ok? {
        ClaimIsRefusedIff(c, t);
      }
    } else if forall t: int :: ApplyAssignment(c, t, true).1.Ok? {
      ClaimableIsFree(c);
      assert false;
    }
  }

  /** A technician's own cases are the open ones assigned to the technician or with an open visit of theirs. */
  lemma MineIff(c: Case, t: int)
    ensures Mine(c, Some(t)) <==>
              && c.status != CaseClosed && c.status != CaseCompleted && c.status != CaseCancelled
              && (c.assignee == Some(t) || exists i :: 0 <= i < |c.visits| && OpenVisit(c.visits[i], t))
    ensures !Mine(c, None)
  {
    if i :| 0 <= i < |c.visits| && OpenVisit(c.visits[i], t) {
      assert Active(c.visits[i]);
    }
    if i :| 0 <= i < |c.visits| && c.visits[i].technician == t && Active(c.visits[i]) {
      assert OpenVisit(c.visits[i], t);
    }
  }

  /** The list is given to owners, admins, agents and technicians with dispatch enabled, for the two views; a
      technician needs to be known, and sees nothing available when self-assignment is off. */
  lemma ListIsGivenIff(ctx: Context, cases: seq<Case>, view: string)
    ensures ListQueue(ctx, cases, view).Ok? <==>
              && ctx.enabled && ctx.role in {"owner", "admin", "agent", "technician"} && view in {"available", "mine"}
              && (ctx.role == "technician" ==> ctx.sessionTechnician.Some?)
    ensures ListQueue(ctx, cases, view).Ok? && ctx.role == "technician" && view == "available" && !ctx.selfAssignment ==>
              ListQueue(ctx, cases, view) == Ok([])
    ensures ListQueue(ctx, cases, view).Raised? ==>
              match ListQueue(ctx, cases, view).error
              case AccessDenied => !ctx.enabled || ctx.role !in {"owner", "admin", "agent", "technician"}
              case InvalidView => ctx.enabled && view != "available" && view != "mine"
              case IdentifyTechnician => ctx.enabled && (view == "available" || view == "mine") && ctx.shared
              case IndividualAccountRequired => ctx.enabled && (view == "available" || view == "mine") && !ctx.shared
              case _ => false
  {
  }

  /** With room for every case, the list shows exactly the cases of its view. */
  lemma ListShowsIff(ctx: Context, cases: seq<Case>, view: string, k: nat)
    requires k < |cases| <= 100 && ListQueue(ctx, cases, view).Ok?
    requires !(ctx.role == "technician" && view == "available" && !ctx.selfAssignment)
    ensures k in ListQueue(ctx, cases, view).value <==>
              if view == "available" then Available(cases[k]) else Mine(cases[k], ctx.sessionTechnician)
  {
    var listed := ListQueue(ctx, cases, view).value;
    if i :| 0 <= i < |listed| && listed[i] == k {
      ListedSatisfiesView(ctx, cases, view, i);
    }
    if Listed(cases[k], view, ctx.sessionTechnician) && k !in listed {
      LeftOutIsPreceded(ctx, cases, view, k);
      forall i | 0 <= i < |listed| ensures listed[i] < |cases| && listed[i] != k {
        assert listed[i] in listed;
      }
      forall i, j | 0 <= i < j < |listed| ensures listed[i] != listed[j] {
        ListedSatisfiesView(ctx, cases, view, i);
      }
      OrderedLimit.DistinctAreFew(listed, |cases|, k);
    }
  }

  function Rank(priority: Priority): int {
    match priority
    case Urgent => 0
    case High => 1
    case Normal => 2
    case Low => 2
  }

  /** What is left out is less urgent than everything listed, or as urgent and younger, or of the same time with a
      greater id; urgent comes before high, and high before the rest. */
  lemma LeftOutIsLater(ctx: Context, cases: seq<Case>, view: string, k: nat, i: nat)
    requires k < |cases| && Listed(cases[k], view, ctx.sessionTechnician) && ListQueue(ctx, cases, view).Ok?
    requires k !in ListQueue(ctx, cases, view).value && i < |ListQueue(ctx, cases, view).value|
    ensures |ListQueue(ctx, cases, view).value| == 100
    ensures var p := ListQueue(ctx, cases, view).value[i];
            && p < |cases|
            && (Rank(cases[p].priority) < Rank(cases[k].priority)
                || (Rank(cases[p].priority) == Rank(cases[k].priority)
                    && (cases[p].createdAt < cases[k].createdAt
                        || (cases[p].createdAt == cases[k].createdAt && cases[p].id <= cases[k].id))))
  {
    LeftOutIsPreceded(ctx, cases, view, k);
  }

  // ---- other steps --------------------------------------------------------------------------------

  /** A session reaches a case unless it has the technician role and its technician has nothing there: neither the
      assignment, nor an appointment or a visit that is not cancelled. */
  lemma AccessibleIff(c: Case, ctx: Context)
    ensures Accessible(c, ctx) <==>
              ctx.role == "technician" ==>
                && ctx.sessionTechnician.Some?
                && (c.assignee == ctx.sessionTechnician
                    || (exists a :: a in c.appointments && Some(a.technician) == ctx.sessionTechnician && a.status != AppointmentCancelled)
                    || exists v :: v in c.visits && Some(v.technician) == ctx.sessionTechnician && v.status != VisitCancelled)
  {
    if i :| 0 <= i < |c.visits| && Some(c.visits[i].technician) == ctx.sessionTechnician && Active(c.visits[i]) {
      assert c.visits[i] in c.visits;
    }
    if i :| 0 <= i < |c.appointments| && Some(c.appointments[i].technician) == ctx.sessionTechnician
            && c.appointments[i].status != AppointmentCancelled {
      assert c.appointments[i] in c.appointments;
    }
  }

  /** Signing the arrival once, or the departure once after it, sets the visit's status and that it is signed;
      anything else leaves the visit alone. */
  lemma SigningEffect(v: Visit, departure: bool)
    ensures Signed(v, departure) ==
              if departure && v.arrived && !v.departed then Visit(v.technician, v.number, Departed, true, true)
              else if !departure && !v.arrived then Visit(v.technician, v.number, Arrived, true, v.departed)
              else v
  {
  }

  /** A finalized report sets the status of a visit that is neither cancelled nor reported. */
  lemma ReportEffect(v: Visit)
    ensures ReportedOn(v) == v.(status := if v.status == VisitCancelled then VisitCancelled else Reported)
  {
  }

  /** Signing and reporting change one visit of one case, where the session reaches the case. */
  lemma OneVisitChanges(cases: seq<Case>, ctx: Context, k: nat, visit: nat, departure: bool)
    requires k < |cases|
    ensures var signed := Apply(cases, Sign(ctx, k, visit, departure));
            signed == if visit < |cases[k].visits| && Accessible(cases[k], ctx)
                      then cases[k := cases[k].(visits := cases[k].visits[visit := Signed(cases[k].visits[visit], departure)])]
                      else cases
    ensures var reported := Apply(cases, Report(k, visit));
            reported == if visit < |cases[k].visits|
                        then cases[k := cases[k].(visits := cases[k].visits[visit := ReportedOn(cases[k].visits[visit])])]
                        else cases
  {
    assert cases[k := cases[k]] == cases;
  }

  lemma StatusAfterStep(cases: seq<Case>, step: Step, k: nat)
    requires k < |cases|
    ensures Apply(cases, step)[k].status == if step.Move? && step.k == k then step.status else cases[k].status
    ensures Apply(cases, step)[k].id == cases[k].id && Apply(cases, step)[k].priority == cases[k].priority
    ensures Apply(cases, step)[k].createdAt == cases[k].createdAt
  {
    if step.Assign? && step.k == k && Claimant(step.ctx, step.technician, step.reason).Ok? {
      var t := Claimant(step.ctx, step.technician, step.reason).value;
      if ApplyAssignment(cases[k], t, step.technician == None).1.Ok? {
        AssignmentEffect(cases[k], t, step.technician == None);
      }
    }
  }

  /** The status of the last outside change of the case in the run. */
  function LastMove(steps: seq<Step>, k: nat, status: CaseStatus): CaseStatus {
    if steps == [] then status
    else
      var last := steps[|steps| - 1];
      if last.Move? && last.k == k then last.status else LastMove(steps[..|steps| - 1], k, status)
  }

  /** In every run the status of a case is the one it had, or was last given from outside: no assignment, signature
      or report touches it; nor do they touch id, priority and time of creation. */
  lemma {:induction false} OnlyMovesChangeStatus(cases: seq<Case>, steps: seq<Step>, k: nat)
    requires k < |cases|
    ensures Run(cases, steps)[k].status == LastMove(steps, k, cases[k].status)
    ensures Run(cases, steps)[k].id == cases[k].id && Run(cases, steps)[k].priority == cases[k].priority
    ensures Run(cases, steps)[k].createdAt == cases[k].createdAt
    decreases |steps|
  {
    if steps != [] {
      OnlyMovesChangeStatus(cases, steps[..|steps| - 1], k);
      StatusAfterStep(Run(cases, steps[..|steps| - 1]), steps[|steps| - 1], k);
    }
  }
}
