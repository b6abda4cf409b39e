/** What the calls on a visit's times answer and do, column by column. */
module VisitOutcomes {
  import opened Common
  import opened FieldService
  import opened VisitTimeline

  // ---- the row ------------------------------------------------------------------------------------

  function Column(f: Field): string {
    match f
    case EnRoute => "en_route_at"
    case Arrival => "arrival_at"
    case WorkStarted => "work_started_at"
    case WorkCompleted => "work_completed_at"
    case Departure => "departure_at"
  }

  /** What the row's constraints say about the order of its times. */
  predicate Ordered(times: map<Field, int>) {
    && (Departure in times ==> Arrival in times && times[Arrival] <= times[Departure])
    && (WorkStarted in times ==> Arrival in times)
    && (WorkCompleted in times ==> WorkStarted in times && times[WorkStarted] <= times[WorkCompleted])
  }

  /** A row is storable if and only if its times are in order and attendance is signed and identified exactly
      where it has a time. */
  lemma StorableIff(v: Visit)
    ensures Constraints(v) <==>
              && Ordered(v.times)
              && (v.arrivalSignature.Some? <==> Arrival in v.times) && (v.arrivalIdentity.Some? <==> Arrival in v.times)
              && (v.departureSignature.Some? <==> Departure in v.times) && (v.departureIdentity.Some? <==> Departure in v.times)
  {
  }

  /** A usable photo of the kind, of the visit. */
  predicate Shown(t: Timeline, kind: string) {
    exists i :: 0 <= i < |t.photos| && t.photos[i] == Photo(Some(t.visit.id), kind, true)
  }

  lemma ShownIsFound(t: Timeline, kind: string)
    ensures Shown(t, kind) <==> PhotoExists(t.photos, Some(t.visit.id), kind)
  {
    if i :| 0 <= i < |t.photos| && t.photos[i].category == kind && t.photos[i].usable && t.photos[i].visit == Some(t.visit.id) {
      assert t.photos[i] == Photo(Some(t.visit.id), kind, true);
    }
  }

  /** An update of the row is stored if and only if the row is storable and either a role that is none of the
      runtime ones has switched corrections on, or signed attendance and the explicit times there are stand and new
      work times have the photos they need. */
  lemma WriteIsStoredIff(t: Timeline, role: string, flag: bool, row: Visit)
    requires Constraints(t.visit) && row.id == t.visit.id
    ensures Apply(t, Write(role, flag, row)).visit == row <==>
              || row == t.visit
              || (&& Constraints(row)
                  && ((flag && role !in {"platform_web", "platform_worker", "platform_messaging", "platform_voice", "platform_readonly"})
                      || (&& AttendanceStands(t.visit, row)
                          && (forall f :: f in t.visit.times ==> f in row.times && row.times[f] == t.visit.times[f])
                          && (WorkStarted in row.times && WorkStarted !in t.visit.times && t.policy.beforePhotoRequired ==>
                               Shown(t, "before_photo"))
                          && (WorkCompleted in row.times && WorkCompleted !in t.visit.times && t.policy.afterPhotoRequired ==>
                               Shown(t, "after_photo")))))
  {
    UpdateErrorIsTrue(t, row);
    if UpdateError(t, row, CorrectionActive(role, flag)) == None {
      assert Apply(t, Write(role, flag, row)).visit == row;
    } else {
      assert Apply(t, Write(role, flag, row)) == t;
    }
  }

  /** Photos and the policy are exchanged by themselves. */
  lemma AttachingEffect(t: Timeline, photos: seq<Photo>)
    ensures Apply(t, Attach(photos)) == Timeline(t.visit, t.caseStatus, t.policy, photos, t.corrections, t.original)
  {
  }

  lemma TimesStandIff(old_: Visit, new_: Visit)
    requires Constraints(old_)
    ensures MutationError(old_, new_) == None <==>
              && (forall f :: f in old_.times ==> f in new_.times && new_.times[f] == old_.times[f])
              && (Arrival in old_.times ==> new_.arrivalSignature == old_.arrivalSignature
                                            && new_.arrivalIdentity == old_.arrivalIdentity)
              && (Departure in old_.times ==> new_.departureSignature == old_.departureSignature
                                              && new_.departureIdentity == old_.departureIdentity)
  {
    if MutationError(old_, new_) == None {
      forall f | f in old_.times ensures f in new_.times && new_.times[f] == old_.times[f] {
        match f
        case EnRoute => assert At(new_, EnRoute) == At(old_, EnRoute);
        case Arrival => assert At(new_, Arrival) == At(old_, Arrival);
        case WorkStarted => assert At(new_, WorkStarted) == At(old_, WorkStarted);
        case WorkCompleted => assert At(new_, WorkCompleted) == At(old_, WorkCompleted);
        case Departure => assert At(new_, Departure) == At(old_, Departure);
      }
    }
  }

  /** A refused update changes nothing; a stored one changes the row, and fills the history of what is new. */
  lemma WriteEffect(t: Timeline, role: string, flag: bool, row: Visit)
    ensures var after := Apply(t, Write(role, flag, row));
            || after == t
            || (after == t.(visit := row, original := after.original)
                && forall f :: if f in row.times && f !in t.visit.times then Original(after, f) == Some(row.times[f])
                               else Original(after, f) == Original(t, f))
  {
  }

  /** The case moves to a status unless a photo is missing: before work starts, one of any visit of the case
      before, and before it is completed, one after. */
  lemma MoveIsRefusedIff(t: Timeline, status: CaseStatus)
    ensures Apply(t, Move(status)) == t.(caseStatus := if Apply(t, Move(status)).caseStatus == status then status else t.caseStatus)
    ensures Apply(t, Move(status)).caseStatus != status <==>
              && status != t.caseStatus
              && ((status == CaseInProgress && t.policy.beforePhotoRequired && !Usable(t, "before_photo"))
                  || (status == CaseCompleted && t.policy.afterPhotoRequired && !Usable(t, "after_photo")))
  {
    UsableIsFound(t, "before_photo");
    UsableIsFound(t, "after_photo");
  }

  /** A usable photo of the kind, of any visit or none. */
  predicate Usable(t: Timeline, kind: string) {
    exists i :: 0 <= i < |t.photos| && t.photos[i] == Photo(t.photos[i].visit, kind, true)
  }

  lemma UsableIsFound(t: Timeline, kind: string)
    ensures Usable(t, kind) <==> PhotoExists(t.photos, None, kind)
  {
    if i :| 0 <= i < |t.photos| && t.photos[i].category == kind && t.photos[i].usable {
      assert t.photos[i] == Photo(t.photos[i].visit, kind, true);
    }
  }

  // ---- corrections --------------------------------------------------------------------------------

  /** Who may correct a time, and with what. */
  predicate MayCorrect(m: Manager, value: int, reason: string, now: int) {
    (m.role == "owner" || m.role == "admin") && m.known && m.enabled && value <= now + 300 && 3 <= |Trim(reason)| <= 1000
  }

  /** A correction is made if and only if a known owner or admin makes it with field service enabled, with a
      trimmed reason of 3 to 1000 characters and a value at most 300 seconds ahead, attendance has been signed
      where it is attendance that is corrected, and the times with the new value are in order. */
  lemma CorrectionIsMadeIff(t: Timeline, m: Manager, f: Field, value: int, reason: string, now: int)
    requires Constraints(t.visit)
    ensures Corrected(t, m, Column(f), Some(value), reason, now).1.Ok? <==>
              && MayCorrect(m, value, reason, now)
              && (f == Arrival || f == Departure ==> f in t.visit.times)
              && Ordered(t.visit.times[f := value])
  {
    StorableIff(t.visit);
    StorableIff(WithTime(t.visit, f, value));
  }

  /** Any other name, or a NULL value, is refused. */
  lemma OtherNamesAreRefused(t: Timeline, m: Manager, name: string, value: Option<int>, reason: string, now: int)
    requires value == None || forall f :: name != Column(f)
    ensures Corrected(t, m, name, value, reason, now).1.Raised?
  {
    assert Column(EnRoute) == "en_route_at" && Column(Arrival) == "arrival_at" && Column(WorkStarted) == "work_started_at"
           && Column(WorkCompleted) == "work_completed_at" && Column(Departure) == "departure_at";
  }

  /** A correction that is made changes the one time and adds one log entry, with the value before, the new one
      and the trimmed reason; one that is not made changes nothing. */
  lemma CorrectionEffect(t: Timeline, m: Manager, f: Field, value: int, reason: string, now: int)
    ensures var (after, r) := Corrected(t, m, Column(f), Some(value), reason, now);
            if r.Ok? then
              && r == Ok(|t.corrections|)
              && after == Timeline(t.visit.(times := t.visit.times[f := value]), t.caseStatus, t.policy, t.photos,
                                   t.corrections + [Correction(f, if f in t.visit.times then Some(t.visit.times[f]) else None,
                                                               value, Trim(reason))], t.original)
            else after == t
  {
  }

  /** The answer to a refused correction names the first thing that is wrong with it. */
  lemma CorrectionErrorIsTrue(t: Timeline, m: Manager, name: string, value: Option<int>, reason: string, now: int)
    requires Corrected(t, m, name, value, reason, now).1.Raised?
    ensures var manager := (m.role == "owner" || m.role == "admin") && m.known;
            var named := value.Some? && exists f :: name == Column(f);
            var reasoned := 3 <= |Trim(reason)| <= 1000;
            match Corrected(t, m, name, value, reason, now).1.error
            case ManagerRequired => !manager
            case Disabled => manager && !m.enabled
            case UnsupportedField => manager && m.enabled && !named
            case ReasonRequired => manager && m.enabled && named && !reasoned
            case InFuture => manager && m.enabled && named && reasoned && value.value > now + 300
            case AttendanceNotSigned =>
              named && MayCorrect(m, value.value, reason, now)
              && ((name == Column(Arrival) && Arrival !in t.visit.times) || (name == Column(Departure) && Departure !in t.visit.times))
            case ConstraintViolated =>
              named && MayCorrect(m, value.value, reason, now)
              && exists f :: name == Column(f) && (f == Arrival || f == Departure ==> f in t.visit.times)
                             && !Constraints(WithTime(t.visit, f, value.value))
            case _ => false
  {
    if NamedField(name).Some? { assert name == Column(NamedField(name).value); }
  }

  /** The step is a correction that someone entitled makes, and the entry is what it logs. */
  predicate Authorises(step: Step, c: Correction) {
    && step.Correct? && step.value == Some(c.value) && step.name == Column(c.field) && c.reason == Trim(step.reason)
    && MayCorrect(step.manager, c.value, step.reason, step.now)
  }

  lemma StepLogs(t: Timeline, step: Step)
    ensures t.corrections <= Apply(t, step).corrections && |Apply(t, step).corrections| <= |t.corrections| + 1
    ensures |Apply(t, step).corrections| > |t.corrections| ==>
              Authorises(step, Apply(t, step).corrections[|t.corrections|])
  {
    if step.Correct? && NamedField(step.name).Some? {
      assert step.name == Column(NamedField(step.name).value);
    }
  }

  /** In every run: no log entry is lost or changed, and each was made by a known owner or admin with field
      service enabled, with a value at most 300 seconds ahead of that moment and the reason given. */
  lemma {:induction false} EveryCorrectionIsAuthorised(t: Timeline, steps: seq<Step>, k: nat)
    requires t.corrections == [] && k < |Run(t, steps).corrections|
    ensures exists i :: 0 <= i < |steps| && Authorises(steps[i], Run(t, steps).corrections[k])
    decreases |steps|
  {
    if steps != [] {
      var n := |steps| - 1;
      StepLogs(Run(t, steps[..n]), steps[n]);
      if k < |Run(t, steps[..n]).corrections| {
        EveryCorrectionIsAuthorised(t, steps[..n], k);
        var i :| 0 <= i < n && Authorises(steps[..n][i], Run(t, steps[..n]).corrections[k]);
        assert Authorises(steps[i], Run(t, steps).corrections[k]);
      } else {
        assert Authorises(steps[n], Run(t, steps).corrections[k]);
      }
    }
  }

  // ---- events -------------------------------------------------------------------------------------

  function EventName(f: Field): string {
    match f
    case EnRoute => "en_route"
    case WorkStarted => "work_started"
    case WorkCompleted => "work_completed"
    case _ => ""
  }

  /** The session's own technician reports on an open visit. */
  predicate MayReport(t: Timeline, s: Situation) {
    && s.enabled && s.sessionActive && s.technician == Some(t.visit.technician)
    && t.visit.status != VisitCancelled && t.visit.status != Reported
  }

  /** What an event needs that is not there yet: preparation, where it is asked for, acknowledged as it stands for
      the way and in any form for the start; an arrival and a photo for the start; a start, a photo and a clock
      not before it for the end. */
  predicate Ready(t: Timeline, f: Field, s: Situation) {
    match f
    case EnRoute => s.preparationRequired ==> s.acknowledgedCurrent
    case WorkStarted =>
      && Arrival in t.visit.times && (s.preparationRequired ==> s.acknowledgedEver)
      && (t.policy.beforePhotoRequired ==> Shown(t, "before_photo"))
    case WorkCompleted =>
      && WorkStarted in t.visit.times && t.visit.times[WorkStarted] <= s.now
      && (t.policy.afterPhotoRequired ==> Shown(t, "after_photo"))
    case _ => false
  }

  /** An event is recorded if and only if the technician may report, the time is not there yet and the event is
      ready; it is acknowledged without a change if and only if the technician may report and it is there. */
  lemma EventIsRecordedIff(t: Timeline, f: Field, s: Situation)
    requires Constraints(t.visit) && (f == EnRoute || f == WorkStarted || f == WorkCompleted)
    ensures Recorded(t, EventName(f), s).1 == Ok(true) <==> MayReport(t, s) && f !in t.visit.times && Ready(t, f, s)
    ensures Recorded(t, EventName(f), s).1 == Ok(false) <==> MayReport(t, s) && f in t.visit.times
  {
    ShownIsFound(t, "before_photo");
    ShownIsFound(t, "after_photo");
    assert FieldOf(EventName(f)) == f;
  }

  lemma OtherEventsAreRefused(t: Timeline, event: string, s: Situation)
    requires event != "en_route" && event != "work_started" && event != "work_completed"
    ensures Recorded(t, event, s) == (t, Raised(UnsupportedEvent))
  {
  }

  /** A recorded event has the server's time, and the start takes a case that waits into progress; nothing else
      changes, and nothing at all when it is not recorded. */
  lemma EventEffect(t: Timeline, f: Field, s: Situation)
    requires f == EnRoute || f == WorkStarted || f == WorkCompleted
    ensures var (after, r) := Recorded(t, EventName(f), s);
            if r == Ok(true) then
              after == t.(visit := t.visit.(times := t.visit.times[f := s.now]), original := after.original,
                          caseStatus := if f == WorkStarted && (t.caseStatus == AwaitingScheduling || t.caseStatus == CaseScheduled)
                                        then CaseInProgress else t.caseStatus)
              && Original(after, f) == Some(s.now)
            else after == t
  {
    assert FieldOf(EventName(f)) == f;
  }

  /** The answer to a refused event names the first thing that is wrong: who reports, on what, */
  lemma ReporterErrorIsTrue(t: Timeline, f: Field, s: Situation)
    requires f == EnRoute || f == WorkStarted || f == WorkCompleted
    ensures !MayReport(t, s) ==>
              Recorded(t, EventName(f), s).1 == Raised(if !s.enabled then Disabled
                                                       else if !s.sessionActive then SessionRequired
                                                       else if s.technician != Some(t.visit.technician) then NotAssignedTechnician
                                                       else VisitClosed)
  {
  }

  /** or what the event needs. */
  lemma EventErrorIsTrue(t: Timeline, f: Field, s: Situation)
    requires Constraints(t.visit) && (f == EnRoute || f == WorkStarted || f == WorkCompleted)
    requires MayReport(t, s) && f !in t.visit.times && !Ready(t, f, s)
    ensures Recorded(t, EventName(f), s).1 == Raised(
              match f
              case EnRoute => PreparationRequired
              case WorkStarted =>
                if Arrival !in t.visit.times then ArrivalRequired
                else if s.preparationRequired && !s.acknowledgedEver then PreparationRequired
                else BeforePhotoRequired
              case _ =>
                if WorkStarted !in t.visit.times then WorkStartRequired
                else if t.policy.afterPhotoRequired && !Shown(t, "after_photo") then AfterPhotoRequired
                else ConstraintViolated)
  {
    ShownIsFound(t, "before_photo");
    ShownIsFound(t, "after_photo");
  }

  /** The answer to a refused update of the row names the first rule that it breaks: signed attendance stands, the
      times of the work stand, new ones have their photo, and the row is storable. */
  lemma UpdateErrorIsTrue(t: Timeline, row: Visit)
    requires Constraints(t.visit) && row.id == t.visit.id
    ensures UpdateError(t, row, false) ==
              if !AttendanceStands(t.visit, row) then Some(SignedAttendanceImmutable)
              else if !(forall f :: f in t.visit.times ==> f in row.times && row.times[f] == t.visit.times[f])
              then Some(RecordedTimeImmutable)
              else if (WorkStarted in row.times && WorkStarted !in t.visit.times && t.policy.beforePhotoRequired && !Shown(t, "before_photo"))
                      || (WorkCompleted in row.times && WorkCompleted !in t.visit.times && t.policy.afterPhotoRequired
                          && !Shown(t, "after_photo"))
              then Some(VisitGate)
              else if !Constraints(row) then Some(ConstraintViolated) else None
  {
    ShownIsFound(t, "before_photo");
    ShownIsFound(t, "after_photo");
    MutationErrorIsTrue(t.visit, row);
    GateErrorIsTrue(t, row);
  }

  /** Signed attendance keeps its time, signature and identity. */
  predicate AttendanceStands(was: Visit, now: Visit) {
    && (Arrival in was.times ==> Arrival in now.times && now.times[Arrival] == was.times[Arrival]
                                 && now.arrivalSignature == was.arrivalSignature && now.arrivalIdentity == was.arrivalIdentity)
    && (Departure in was.times ==> Departure in now.times && now.times[Departure] == was.times[Departure]
                                   && now.departureSignature == was.departureSignature && now.departureIdentity == was.departureIdentity)
  }

  lemma MutationErrorIsTrue(was: Visit, now: Visit)
    requires Constraints(was)
    ensures MutationError(was, now) ==
              if !AttendanceStands(was, now) then Some(SignedAttendanceImmutable)
              else if forall f :: f in was.times ==> f in now.times && now.times[f] == was.times[f] then None
              else Some(RecordedTimeImmutable)
  {
    TimesStandIff(was, now);
  }

  lemma GateErrorIsTrue(t: Timeline, row: Visit)
    requires row.id == t.visit.id
    ensures VisitGateError(t, row) ==
              if (WorkStarted in row.times && WorkStarted !in t.visit.times && t.policy.beforePhotoRequired && !Shown(t, "before_photo"))
                 || (WorkCompleted in row.times && WorkCompleted !in t.visit.times && t.policy.afterPhotoRequired
                     && !Shown(t, "after_photo"))
              then Some(VisitGate) else None
  {
    ShownIsFound(t, "before_photo");
    ShownIsFound(t, "after_photo");
  }

  lemma CaseGateErrorIsTrue(t: Timeline, status: CaseStatus)
    ensures CaseGateError(t, status) ==
              if status != t.caseStatus
                 && ((status == CaseInProgress && t.policy.beforePhotoRequired && !Usable(t, "before_photo"))
                     || (status == CaseCompleted && t.policy.afterPhotoRequired && !Usable(t, "after_photo")))
              then Some(CaseGate) else None
  {
    UsableIsFound(t, "before_photo");
    UsableIsFound(t, "after_photo");
  }
}
