/** The recorded times of one visit: service.record_visit_event, service.correct_visit_time, the triggers
    that forbid other changes, the evidence gates and the table's constraints. */
module VisitTimeline {
  import opened Common
  import opened FieldService

  datatype Field = EnRoute | Arrival | WorkStarted | WorkCompleted | Departure

  /** A row of service.visits; a time that is NULL is not in `times`. */
  datatype Visit = Visit(id: int, technician: int, status: VisitStatus, times: map<Field, int>,
                         arrivalSignature: Option<int>, arrivalIdentity: Option<string>,
                         departureSignature: Option<int>, departureIdentity: Option<string>)

  /** The evidence part of the case's pinned policy. */
  datatype Evidence = Evidence(beforePhotoRequired: bool, afterPhotoRequired: bool)

  /** An attachment of the case; `usable` is an available image object. */
  datatype Photo = Photo(visit: Option<int>, category: string, usable: bool)

  datatype Correction = Correction(field: Field, previous: Option<int>, value: int, reason: string)

  /** The visit, its case and the correction log.  `original` is a history variable: the value with which
      an event, a signature or a plain update first filled each time. */
  datatype Timeline = Timeline(visit: Visit, caseStatus: CaseStatus, policy: Evidence, photos: seq<Photo>,
                               corrections: seq<Correction>, original: map<Field, int>)

  datatype Error =
    | UnsupportedEvent | Disabled | SessionRequired | NotAssignedTechnician | VisitClosed
    | PreparationRequired | ArrivalRequired | WorkStartRequired | BeforePhotoRequired | AfterPhotoRequired
    | ManagerRequired | UnsupportedField | ReasonRequired | InFuture | AttendanceNotSigned
    | SignedAttendanceImmutable | RecordedTimeImmutable | VisitGate | CaseGate | ConstraintViolated

  datatype Result<T> = Ok(value: T) | Raised(error: Error)

  function At(visit: Visit, f: Field): Option<int> {
    if f in visit.times then Some(visit.times[f]) else None
  }

  // ---- constraints, triggers and gates --------------------------------------------------------------

  predicate Signed(time: Option<int>, signature: Option<int>, identity: Option<string>) {
    (time.Some? && signature.Some? && identity.Some?) || (time == None && signature == None && identity == None)
  }

  /** The CHECK constraints of the visit row. */
  predicate Constraints(v: Visit) {
    && Signed(At(v, Arrival), v.arrivalSignature, v.arrivalIdentity)
    && Signed(At(v, Departure), v.departureSignature, v.departureIdentity)
    && (Departure in v.times ==> Arrival in v.times && v.times[Departure] >= v.times[Arrival])
    && (WorkStarted in v.times ==> Arrival in v.times)
    && (WorkCompleted in v.times ==> WorkStarted in v.times && v.times[WorkCompleted] >= v.times[WorkStarted])
  }

  predicate PhotoExists(photos: seq<Photo>, visit: Option<int>, category: string) {
    exists i :: 0 <= i < |photos| && photos[i].category == category && photos[i].usable
                && (visit == None || photos[i].visit == visit)
  }

  /** prevent_signed_visit_mutation, unless a correction is active. */
  function MutationError(old_: Visit, new_: Visit): Option<Error> {
    if old_.arrivalSignature.Some?
       && (new_.arrivalSignature != old_.arrivalSignature || At(new_, Arrival) != At(old_, Arrival)
           || new_.arrivalIdentity != old_.arrivalIdentity) then Some(SignedAttendanceImmutable)
    else if old_.departureSignature.Some?
       && (new_.departureSignature != old_.departureSignature || At(new_, Departure) != At(old_, Departure)
           || new_.departureIdentity != old_.departureIdentity) then Some(SignedAttendanceImmutable)
    else if (EnRoute in old_.times && At(new_, EnRoute) != At(old_, EnRoute))
         || (WorkStarted in old_.times && At(new_, WorkStarted) != At(old_, WorkStarted))
         || (WorkCompleted in old_.times && At(new_, WorkCompleted) != At(old_, WorkCompleted)) then Some(RecordedTimeImmutable)
    else None
  }

  /** enforce_visit_evidence, unless a correction is active. */
  function VisitGateError(t: Timeline, new_: Visit): Option<Error> {
    if WorkStarted in new_.times && WorkStarted !in t.visit.times
       && t.policy.beforePhotoRequired && !PhotoExists(t.photos, Some(new_.id), "before_photo") then Some(VisitGate)
    else if WorkCompleted in new_.times && WorkCompleted !in t.visit.times
       && t.policy.afterPhotoRequired && !PhotoExists(t.photos, Some(new_.id), "after_photo") then Some(VisitGate)
    else None
  }

  /** An UPDATE of the visit row. */
  function UpdateError(t: Timeline, new_: Visit, correcting: bool): Option<Error> {
    if !correcting && MutationError(t.visit, new_).Some? then MutationError(t.visit, new_)
    else if !correcting && VisitGateError(t, new_).Some? then VisitGateError(t, new_)
    else if !Constraints(new_) then Some(ConstraintViolated)
    else None
  }

  /** enforce_case_evidence on an UPDATE of the case status. */
  function CaseGateError(t: Timeline, status: CaseStatus): Option<Error> {
    if status == CaseInProgress && t.caseStatus != CaseInProgress
       && t.policy.beforePhotoRequired && !PhotoExists(t.photos, None, "before_photo") then Some(CaseGate)
    else if status == CaseCompleted && t.caseStatus != CaseCompleted
       && t.policy.afterPhotoRequired && !PhotoExists(t.photos, None, "after_photo") then Some(CaseGate)
    else None
  }

  /** The row as updated, with the times that it fills for the first time. */
  function Stored(t: Timeline, new_: Visit): Timeline {
    t.(visit := new_, original := t.original + map f | f in new_.times && f !in t.visit.times :: new_.times[f])
  }

  // ---- record_visit_event -------------------------------------------------------------------------

  /** The caller's session, the tenant's preparation settings and the server clock.  `flag` is the
      session's setting of service.visit_time_correction, which anyone may have switched on. */
  datatype Situation = Situation(enabled: bool, sessionActive: bool, technician: Option<int>, preparationRequired: bool,
                                 acknowledgedCurrent: bool, acknowledgedEver: bool, now: int, flag: bool)

  function Refused(t: Timeline, event: string, s: Situation): Option<Error> {
    if event !in {"en_route", "work_started", "work_completed"} then Some(UnsupportedEvent)
    else if !s.enabled then Some(Disabled)
    else if !s.sessionActive then Some(SessionRequired)
    else if s.technician != Some(t.visit.technician) then Some(NotAssignedTechnician)
    else if t.visit.status == VisitCancelled || t.visit.status == Reported then Some(VisitClosed)
    else None
  }

  function FieldOf(event: string): Field {
    if event == "en_route" then EnRoute else if event == "work_started" then WorkStarted else WorkCompleted
  }

  function Missing(t: Timeline, event: string, s: Situation): Option<Error> {
    if event == "en_route" then
      if EnRoute !in t.visit.times && s.preparationRequired && !s.acknowledgedCurrent then Some(PreparationRequired) else None
    else if event == "work_started" then
      if Arrival !in t.visit.times then Some(ArrivalRequired)
      else if WorkStarted in t.visit.times then None
      else if s.preparationRequired && !s.acknowledgedEver then Some(PreparationRequired)
      else if t.policy.beforePhotoRequired && !PhotoExists(t.photos, Some(t.visit.id), "before_photo") then Some(BeforePhotoRequired)
      else None
    else
      if WorkStarted !in t.visit.times && WorkCompleted !in t.visit.times then Some(WorkStartRequired)
      else if WorkCompleted !in t.visit.times && t.policy.afterPhotoRequired
              && !PhotoExists(t.photos, Some(t.visit.id), "after_photo") then Some(AfterPhotoRequired)
      else None
  }

  function WithTime(v: Visit, f: Field, value: int): Visit {
    v.(times := v.times[f := value])
  }

  predicate StartsCase(t: Timeline, event: string) {
    event == "work_started" && (t.caseStatus == AwaitingScheduling || t.caseStatus == CaseScheduled)
  }

  /** Answers whether the event was new. */
  function Recorded(t: Timeline, event: string, s: Situation): (Timeline, Result<bool>) {
    var f := FieldOf(event);
    if Refused(t, event, s).Some? then (t, Raised(Refused(t, event, s).value))
    else if Missing(t, event, s).Some? then (t, Raised(Missing(t, event, s).value))
    else if f in t.visit.times then (t, Ok(false))
    else
      var next := WithTime(t.visit, f, s.now);
      if UpdateError(t, next, s.flag).Some? then (t, Raised(UpdateError(t, next, s.flag).value))
      else if StartsCase(t, event) && CaseGateError(t, CaseInProgress).Some? then (t, Raised(CaseGate))
      else (Stored(t, next).(caseStatus := if StartsCase(t, event) then CaseInProgress else t.caseStatus), Ok(true))
  }

  // ---- correct_visit_time -------------------------------------------------------------------------

  datatype Manager = Manager(role: string, known: bool, enabled: bool)

  function NamedField(name: string): Option<Field> {
    match name
    case "en_route_at" => Some(EnRoute)
    case "arrival_at" => Some(Arrival)
    case "work_started_at" => Some(WorkStarted)
    case "work_completed_at" => Some(WorkCompleted)
    case "departure_at" => Some(Departure)
    case _ => None
  }

  const CLOCK_ALLOWANCE := 300

  function CorrectionError(t: Timeline, m: Manager, name: string, value: Option<int>, reason: string, now: int): Option<Error> {
    if m.role !in {"owner", "admin"} || !m.known then Some(ManagerRequired)
    else if !m.enabled then Some(Disabled)
    else if NamedField(name) == None || value == None then Some(UnsupportedField)
    else if !(3 <= |Trim(reason)| <= 1000) then Some(ReasonRequired)
    else if value.value > now + CLOCK_ALLOWANCE then Some(InFuture)
    else if (name == "arrival_at" || name == "departure_at") && At(t.visit, NamedField(name).value) == None then Some(AttendanceNotSigned)
    else UpdateError(t, WithTime(t.visit, NamedField(name).value, value.value), true)
  }

  function Corrected(t: Timeline, m: Manager, name: string, value: Option<int>, reason: string, now: int): (Timeline, Result<nat>) {
    match CorrectionError(t, m, name, value, reason, now)
    case Some(error) => (t, Raised(error))
    case None =>
      var f := NamedField(name).value;
      (t.(visit := WithTime(t.visit, f, value.value),
          corrections := t.corrections + [Correction(f, At(t.visit, f), value.value, Trim(reason))]), Ok(|t.corrections|))
  }

  // ---- the row object -----------------------------------------------------------------------------

  class VisitRecord {
    var visit: Visit
    var caseStatus: CaseStatus
    var policy: Evidence
    var photos: seq<Photo>
    var corrections: seq<Correction>
    var flag: bool
    ghost var original: map<Field, int>

    ghost function State(): Timeline
      reads this
    {
      Timeline(visit, caseStatus, policy, photos, corrections, original)
    }

    /** UPDATE of the visit row, with its triggers and constraints. */
    method Update(next: Visit) returns (error: Option<Error>)
      modifies this`visit
      ensures error == UpdateError(old(State()), next, flag)
      ensures visit == if error == None then next else old(visit)
    {
      if !flag {
        error := MutationError(visit, next);
        if error.Some? { return; }
        error := VisitGateError(Timeline(visit, caseStatus, policy, photos, corrections, map[]), next);
        if error.Some? { return; }
      }
      if !Constraints(next) {
        return Some(ConstraintViolated);
      }
      visit := next;
      error := None;
    }

    /** The update of an event that has passed its checks, with the triggers nested in it. */
    method Store(event: string, s: Situation) returns (r: Result<bool>)
      requires flag == s.flag && FieldOf(event) !in visit.times
      requires Refused(State(), event, s) == None && Missing(State(), event, s) == None
      modifies this
      ensures flag == old(flag) && (State(), r) == Recorded(old(State()), event, s)
    {
      NestedGatesNeverReject(State(), event, s);
      var before := visit;
      var error := Update(WithTime(visit, FieldOf(event), s.now));
      if error.Some? { return Raised(error.value); }
      original := original + map f | f in visit.times && f !in before.times :: visit.times[f];
      // The gate on the case cannot reject: any photo of the visit is one of the case.
      if event == "work_started" && (caseStatus == AwaitingScheduling || caseStatus == CaseScheduled) {
        caseStatus := CaseInProgress;
      }
      r := Ok(true);
    }

    method RecordVisitEvent(event: string, s: Situation) returns (r: Result<bool>)
      requires flag == s.flag
      modifies this
      ensures flag == old(flag) && (State(), r) == Recorded(old(State()), event, s)
    {
      if event !in {"en_route", "work_started", "work_completed"} { return Raised(UnsupportedEvent); }
      if !s.enabled { return Raised(Disabled); }
      if !s.sessionActive { return Raised(SessionRequired); }
      if s.technician != Some(visit.technician) { return Raised(NotAssignedTechnician); }
      if visit.status == VisitCancelled || visit.status == Reported { return Raised(VisitClosed); }
      if event == "en_route" {
        if EnRoute !in visit.times && s.preparationRequired && !s.acknowledgedCurrent { return Raised(PreparationRequired); }
      } else if event == "work_started" {
        if Arrival !in visit.times { return Raised(ArrivalRequired); }
        if WorkStarted !in visit.times {
          if s.preparationRequired && !s.acknowledgedEver { return Raised(PreparationRequired); }
          if policy.beforePhotoRequired && !PhotoExists(photos, Some(visit.id), "before_photo") { return Raised(BeforePhotoRequired); }
        }
      } else {
        if WorkStarted !in visit.times && WorkCompleted !in visit.times { return Raised(WorkStartRequired); }
        if WorkCompleted !in visit.times && policy.afterPhotoRequired && !PhotoExists(photos, Some(visit.id), "after_photo") {
          return Raised(AfterPhotoRequired);
        }
      }
      if FieldOf(event) in visit.times { return Ok(false); }
      r := Store(event, s);
    }

    method CorrectVisitTime(m: Manager, name: string, value: Option<int>, reason: string, now: int) returns (r: Result<nat>)
      modifies this
      ensures (State(), r) == Corrected(old(State()), m, name, value, reason, now)
      ensures r.Ok? ==> !flag
      ensures r.Raised? ==> flag == old(flag)
    {
      if m.role !in {"owner", "admin"} || !m.known { return Raised(ManagerRequired); }
      if !m.enabled { return Raised(Disabled); }
      var field := NamedField(name);
      if field == None || value == None { return Raised(UnsupportedField); }
      if !(3 <= |Trim(reason)| <= 1000) { return Raised(ReasonRequired); }
      if value.value > now + CLOCK_ALLOWANCE { return Raised(InFuture); }
      var previous := At(visit, field.value);
      if (name == "arrival_at" || name == "departure_at") && previous == None { return Raised(AttendanceNotSigned); }
      var saved := flag;
      flag := true;
      var error := Update(WithTime(visit, field.value, value.value));
      if error.Some? {
        flag := saved;
        return Raised(error.value);
      }
      flag := false;
      corrections := corrections + [Correction(field.value, previous, value.value, Trim(reason))];
      r := Ok(|corrections| - 1);
    }
  }

  // ---- runs ---------------------------------------------------------------------------------------

  const RUNTIME_ROLES := {"platform_web", "platform_worker", "platform_messaging", "platform_voice", "platform_readonly"}

  /** `Write` is an UPDATE of any columns that a role issues itself, with the flag on or off. */
  datatype Step =
    | Record(event: string, situation: Situation)
    | Correct(manager: Manager, name: string, value: Option<int>, reason: string, now: int)
    | Write(role: string, flag: bool, row: Visit)
    | Attach(photos: seq<Photo>)
    | Move(status: CaseStatus)

  /** visit_time_correction_active for a statement that the role issues itself. */
  predicate CorrectionActive(role: string, flag: bool) {
    flag && role !in RUNTIME_ROLES
  }

  function Apply(t: Timeline, step: Step): Timeline {
    match step
    case Record(event, situation) => Recorded(t, event, situation).0
    case Correct(manager, name, value, reason, now) => Corrected(t, manager, name, value, reason, now).0
    case Write(role, flag, row) => if UpdateError(t, row, CorrectionActive(role, flag)).Some? then t else Stored(t, row)
    case Attach(photos) => t.(photos := photos)
    case Move(status) => if CaseGateError(t, status).Some? then t else t.(caseStatus := status)
  }

  function Run(t: Timeline, steps: seq<Step>): Timeline
    decreases |steps|
  {
    if steps == [] then t else Apply(Run(t, steps[..|steps| - 1]), steps[|steps| - 1])
  }

  predicate ByRuntimeRoles(steps: seq<Step>) {
    forall i :: 0 <= i < |steps| && steps[i].Write? ==> steps[i].role in RUNTIME_ROLES
  }

  /** A visit as it is inserted: no time, no signature, no correction. */
  predicate Untouched(t: Timeline) {
    t.visit.times == map[] && t.original == map[] && t.corrections == [] && Constraints(t.visit)
  }

  // ---- the correction log -------------------------------------------------------------------------

  function LogOf(corrections: seq<Correction>, f: Field): seq<Correction> {
    if corrections == [] then []
    else
      var n := |corrections| - 1;
      LogOf(corrections[..n], f) + if corrections[n].field == f then [corrections[n]] else []
  }

  lemma LogAfter(corrections: seq<Correction>, c: Correction, f: Field)
    ensures LogOf(corrections + [c], f) == LogOf(corrections, f) + if c.field == f then [c] else []
  {
  }

  function Original(t: Timeline, f: Field): Option<int> {
    if f in t.original then Some(t.original[f]) else None
  }

  /** The log leads from the original value to the present one, each entry from where the one before ended. */
  predicate Unbroken(log: seq<Correction>, original: Option<int>, present: Option<int>) {
    if log == [] then present == original
    else
      && log[0].previous == original
      && present == Some(log[|log| - 1].value)
      && forall i :: 0 < i < |log| ==> log[i].previous == Some(log[i - 1].value)
  }

  predicate LogUnbroken(t: Timeline, f: Field) {
    Unbroken(LogOf(t.corrections, f), Original(t, f), At(t.visit, f))
  }

  predicate Sound(t: Timeline) {
    Constraints(t.visit) && forall f :: LogUnbroken(t, f)
  }

  /** Without an active correction, an update keeps every time that is already there. */
  lemma UpdatesKeepTimes(t: Timeline, new_: Visit, f: Field)
    requires Constraints(t.visit) && UpdateError(t, new_, false) == None && f in t.visit.times
    ensures At(new_, f) == At(t.visit, f)
  {
  }

  /** An update that keeps the times there are extends the originals and leaves the log unbroken. */
  lemma StoredIsSound(t: Timeline, new_: Visit)
    requires Sound(t) && Constraints(new_)
    requires forall f :: f in t.visit.times ==> At(new_, f) == At(t.visit, f)
    ensures Sound(Stored(t, new_))
  {
    forall f ensures LogUnbroken(Stored(t, new_), f) {
      assert LogUnbroken(t, f);
      if f !in t.visit.times {
        assert LogOf(t.corrections, f) == [];
      }
    }
  }

  lemma RecordedIsSound(t: Timeline, event: string, s: Situation)
    requires Sound(t)
    ensures Sound(Recorded(t, event, s).0)
  {
    var (after, r) := Recorded(t, event, s);
    if after != t {
      var next := WithTime(t.visit, FieldOf(event), s.now);
      StoredIsSound(t, next);
      assert forall f :: LogUnbroken(after, f) <==> LogUnbroken(Stored(t, next), f);
    }
  }

  lemma CorrectedIsSound(t: Timeline, m: Manager, name: string, value: Option<int>, reason: string, now: int)
    requires Sound(t)
    ensures Sound(Corrected(t, m, name, value, reason, now).0)
  {
    var after := Corrected(t, m, name, value, reason, now).0;
    if CorrectionError(t, m, name, value, reason, now) == None {
      var field := NamedField(name).value;
      var c := Correction(field, At(t.visit, field), value.value, Trim(reason));
      forall f ensures LogUnbroken(after, f) {
        LogAfter(t.corrections, c, f);
        assert LogUnbroken(t, f);
      }
    }
  }

  lemma WriteIsSound(t: Timeline, role: string, flag: bool, row: Visit)
    requires Sound(t) && role in RUNTIME_ROLES
    ensures Sound(Apply(t, Write(role, flag, row)))
  {
    if UpdateError(t, row, false) == None {
      forall f | f in t.visit.times ensures At(row, f) == At(t.visit, f) {
        UpdatesKeepTimes(t, row, f);
      }
      StoredIsSound(t, row);
    }
  }

  lemma SameTimesSameLog(t: Timeline, u: Timeline)
    requires Sound(t) && u.visit == t.visit && u.corrections == t.corrections && u.original == t.original
    ensures Sound(u)
  {
    forall f ensures LogUnbroken(u, f) { assert LogUnbroken(t, f); }
  }

  lemma StepIsSound(t: Timeline, step: Step)
    requires Sound(t) && (step.Write? ==> step.role in RUNTIME_ROLES)
    ensures Sound(Apply(t, step))
  {
    match step
    case Record(event, situation) => RecordedIsSound(t, event, situation);
    case Correct(manager, name, value, reason, now) => CorrectedIsSound(t, manager, name, value, reason, now);
    case Write(role, flag, row) => WriteIsSound(t, role, flag, row);
    case Attach(_) => SameTimesSameLog(t, Apply(t, step));
    case Move(_) => SameTimesSameLog(t, Apply(t, step));
  }

  /** In every run of events, corrections, status moves and updates by runtime roles, with the flag set or
      not: for each of the five times the log is an unbroken chain from the value first recorded to the
      present one, and completion implies an earlier-or-equal start and an arrival. */
  lemma {:induction false} LogsStayUnbroken(t: Timeline, steps: seq<Step>)
    requires Untouched(t) && ByRuntimeRoles(steps)
    ensures Sound(Run(t, steps))
    decreases |steps|
  {
    if steps == [] {
      forall f ensures LogUnbroken(t, f) { assert LogOf(t.corrections, f) == []; }
    } else {
      LogsStayUnbroken(t, steps[..|steps| - 1]);
      StepIsSound(Run(t, steps[..|steps| - 1]), steps[|steps| - 1]);
    }
  }

  /** The value first recorded, read from the row and its log alone. */
  function Replayed(t: Timeline, f: Field): Option<int> {
    var log := LogOf(t.corrections, f);
    if log == [] then At(t.visit, f) else log[0].previous
  }

  lemma OriginalCanBeReplayed(t: Timeline, steps: seq<Step>, f: Field)
    requires Untouched(t) && ByRuntimeRoles(steps)
    ensures var now := Run(t, steps);
            && Replayed(now, f) == Original(now, f)
            && (WorkCompleted in now.visit.times ==>
                 Arrival in now.visit.times && WorkStarted in now.visit.times
                 && now.visit.times[WorkStarted] <= now.visit.times[WorkCompleted])
  {
    LogsStayUnbroken(t, steps);
    assert LogUnbroken(Run(t, steps), f);
  }

  /** A role outside the runtime roles can break the chain with the flag: the time changes and the log
      does not say so. */
  lemma OtherRolesCanBreakTheLog(t: Timeline, role: string, value: int)
    requires Sound(t) && role !in RUNTIME_ROLES && EnRoute in t.visit.times && value != t.visit.times[EnRoute]
    ensures !LogUnbroken(Apply(t, Write(role, true, WithTime(t.visit, EnRoute, value))), EnRoute)
  {
    assert LogUnbroken(t, EnRoute);
  }

  // ---- events -------------------------------------------------------------------------------------

  /** Recording an event again, however much later, answers that nothing changed and changes nothing. */
  lemma RecordingIsIdempotent(t: Timeline, event: string, s: Situation, again: Situation)
    requires Recorded(t, event, s).1.Ok?
    requires var after := Recorded(t, event, s).0; Refused(after, event, again) == None
    ensures var after := Recorded(t, event, s).0; Recorded(after, event, again) == (after, Ok(false))
  {
  }

  lemma {:induction false} TimesStayRecorded(t: Timeline, steps: seq<Step>, f: Field)
    requires Sound(t) && ByRuntimeRoles(steps) && f in t.visit.times
    ensures Sound(Run(t, steps)) && f in Run(t, steps).visit.times
    decreases |steps|
  {
    if steps != [] {
      var n := |steps| - 1;
      var before := Run(t, steps[..n]);
      TimesStayRecorded(t, steps[..n], f);
      StepIsSound(before, steps[n]);
      if steps[n].Write? && UpdateError(before, steps[n].row, false) == None {
        UpdatesKeepTimes(before, steps[n].row, f);
      }
    }
  }

  /** Repeating an event after any other steps changes nothing either. */
  lemma RepeatedEventChangesNothing(t: Timeline, event: string, s: Situation, between: seq<Step>, again: Situation)
    requires Sound(t) && ByRuntimeRoles(between) && Recorded(t, event, s).1.Ok?
    requires Refused(Run(Recorded(t, event, s).0, between), event, again) == None
    ensures var later := Run(Recorded(t, event, s).0, between);
            Recorded(later, event, again) == (later, Ok(false))
  {
    var after := Recorded(t, event, s).0;
    RecordedIsSound(t, event, s);
    TimesStayRecorded(after, between, FieldOf(event));
  }

  /** The triggers nested in an event never reject what its own checks have passed: neither the gate on the
      visit row, nor the mutation trigger, nor the gate on the case it moves to in progress. */
  lemma NestedGatesNeverReject(t: Timeline, event: string, s: Situation)
    ensures var r := Recorded(t, event, s).1;
            r.Raised? ==> r.error !in {VisitGate, CaseGate, SignedAttendanceImmutable, RecordedTimeImmutable}
  {
  }

  /** What remains is the CHECK on the row: it rejects an event exactly when the work is completed before
      a start that a correction has set ahead of the clock. */
  lemma ConstraintRejectsOnlyAheadStart(t: Timeline, event: string, s: Situation)
    requires Constraints(t.visit) && Refused(t, event, s) == None && Missing(t, event, s) == None
    ensures Recorded(t, event, s).1 == Raised(ConstraintViolated) <==>
              event == "work_completed" && WorkCompleted !in t.visit.times && t.visit.times[WorkStarted] > s.now
  {
  }
}
