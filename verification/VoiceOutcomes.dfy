/** What the functions of a call answer and do, column by column, and what a follow-up job tells of its run. */
module VoiceOutcomes {
  import opened Common
  import opened FieldService
  import opened VoiceIntake
  import F = IntakeFields
  import T = TicketTimeline

  // ---- who may call -------------------------------------------------------------------------------

  /** The agent of the call may act on services: the feature, tickets and the agent are there, and a contact. */
  predicate Ready(s: Session, at: Situation) {
    at.available && at.ticketsEnabled && at.agentPublished && s.hasContact
  }

  /** The verified caller still talks to the agent. */
  predicate Talking(s: Session, at: Situation) {
    at.verified && s.live && s.aiMode
  }

  lemma ReadyIff(s: Session, at: Situation)
    ensures ContextError(s, at) == None <==> Ready(s, at)
    ensures ContextError(s, at).Some? ==>
              match ContextError(s, at).value
              case ServiceUnavailable => !at.available || !at.ticketsEnabled
              case VerifiedCallerRequired => at.available && at.ticketsEnabled && !s.hasContact
              case CapabilityRequired => at.available && at.ticketsEnabled && s.hasContact && !at.agentPublished
              case _ => false
  {
  }

  // ---- open_voice_inquiry -------------------------------------------------------------------------

  /** No other ticket than the call's carries the draft, or the call's does already. */
  predicate CanLink(tickets: seq<TicketRow>) {
    match Find(tickets, VoiceSession)
    case None => forall i :: 0 <= i < |tickets| ==> tickets[i].intake == None
    case Some(k) => tickets[k].intake.Some? || forall i :: 0 <= i < |tickets| ==> tickets[i].intake == None
  }

  /** An inquiry is opened if and only if the agent is ready, the policy opens inquiries on first contact, the
      caller is verified and the call's ticket can carry the draft. */
  lemma InquiryIsOpenedIff(s: Session, at: Situation)
    ensures Open(s, at).1 == Ok(InquiryOpen) <==> Ready(s, at) && s.policy.openOnFirstContact && at.verified && CanLink(s.tickets)
    ensures Open(s, at).1 == Ok(NotConfigured) <==> Ready(s, at) && !s.policy.openOnFirstContact
    ensures Open(s, at).1 == Ok(IdentityRequired) <==> Ready(s, at) && s.policy.openOnFirstContact && !at.verified
    ensures Open(s, at).1 == Raised(DuplicateTicketIntake) <==>
              Ready(s, at) && s.policy.openOnFirstContact && at.verified && !CanLink(s.tickets)
  {
    ReadyIff(s, at);
    LinkingIff(s.tickets);
  }

  lemma LinkingIff(tickets: seq<TicketRow>)
    ensures var after := WithVoiceTicket(tickets);
            Linked(after, Find(after, VoiceSession).value).Some? <==> CanLink(tickets)
  {
    var after := WithVoiceTicket(tickets);
    var k := Find(after, VoiceSession).value;
    if Find(tickets, VoiceSession) == None {
      NewestIsFound(tickets, TicketRow(VoiceSession, None, T.OPENED));
      if i :| 0 <= i < |tickets| && tickets[i].intake.Some? {
        assert after[i] == tickets[i];
      }
    }
  }

  lemma NewestIsFound(tickets: seq<TicketRow>, row: TicketRow)
    ensures Find(tickets + [row], row.key) == Some(|tickets|)
  {
  }

  /** The call's ticket, opened where there is none, carries the draft. */
  function Carrying(tickets: seq<TicketRow>): seq<TicketRow> {
    match Find(tickets, VoiceSession)
    case None => tickets + [TicketRow(VoiceSession, Some(0), T.OPENED)]
    case Some(k) => tickets[k := tickets[k].(intake := Some(tickets[k].intake.GetOr(0)))]
  }

  lemma CarryingRows(tickets: seq<TicketRow>)
    requires CanLink(tickets)
    ensures var after := WithVoiceTicket(tickets);
            Linked(after, Find(after, VoiceSession).value) == Some(Carrying(tickets))
  {
    LinkingIff(tickets);
    match Find(tickets, VoiceSession)
    case None =>
      NewestIsFound(tickets, TicketRow(VoiceSession, None, T.OPENED));
      var after := tickets + [TicketRow(VoiceSession, None, T.OPENED)];
      assert after[|tickets| := after[|tickets|].(intake := Some(0))] == tickets + [TicketRow(VoiceSession, Some(0), T.OPENED)];
    case Some(k) =>
      if tickets[k].intake.Some? {
        assert tickets[k].(intake := Some(tickets[k].intake.GetOr(0))) == tickets[k];
        assert tickets[k := tickets[k]] == tickets;
      }
  }

  /** Then the draft starts with what is known of the contact where there is none, and the call's ticket carries it;
      nothing else changes, and nothing at all when it is not opened. */
  lemma OpeningEffect(s: Session, at: Situation)
    ensures var (after, answer) := Open(s, at);
            after == if answer == Ok(InquiryOpen) then
                       s.(drafts := if s.drafts == [] then [Draft(at.prefill, Collecting, NotRequested, {}, false)] else s.drafts,
                          tickets := Carrying(s.tickets))
                     else s
  {
    if Open(s, at).1 == Ok(InquiryOpen) {
      InquiryIsOpenedIff(s, at);
      CarryingRows(s.tickets);
    }
  }

  // ---- capture_service_intake ---------------------------------------------------------------------

  function Word(priority: Priority): string {
    match priority
    case Low => "low"
    case Normal => "normal"
    case High => "high"
    case Urgent => "urgent"
  }

  /** The urgency is what its word says. */
  lemma UrgencyIff(fields: F.Fields, priority: Priority)
    ensures UrgencyOf(fields) == Some(priority) <==> "urgency" in fields && fields["urgency"] == Word(priority)
  {
    assert Word(Low) == "low" && Word(Normal) == "normal" && Word(High) == "high" && Word(Urgent) == "urgent";
    assert "low"[0] != "normal"[0] && "low"[0] != "high"[0] && "low"[0] != "urgent"[0];
    assert "normal"[0] != "high"[0] && "normal"[0] != "urgent"[0] && "high"[0] != "urgent"[0];
  }

  /** The fields that a capture would save. */
  function Heard(s: Session, at: Situation, r: Request): F.Result<(F.Fields, seq<string>)> {
    F.Captured(at.prefill + (if s.drafts == [] then map[] else s.drafts[0].fields), r.fields, at.directory)
  }

  /** The open ticket of the call can carry the draft. */
  predicate CanShow(tickets: seq<TicketRow>) {
    match Find(tickets, VoiceSession)
    case None => true
    case Some(k) => tickets[k].ticket.open ==> tickets[k].intake.Some? || forall i :: 0 <= i < |tickets| ==> tickets[i].intake == None
  }

  predicate Complete(s: Session, fields: F.Fields) {
    forall i :: 0 <= i < |s.policy.required| ==> !F.Absent(fields, s.policy.required[i])
  }

  /** A capture is heard if and only if the agent is ready and talking, no case is open yet, the request is not
      too large, the fields have no error and the open ticket can carry the draft. */
  predicate IsHeard(s: Session, at: Situation, r: Request) {
    Ready(s, at) && Talking(s, at) && s.cases == [] && !r.oversized && Heard(s, at, r).Ok? && CanShow(s.tickets)
  }

  /** What a capture that is heard comes to: saved while it is unconfirmed or incomplete, waiting for photos where
      one is required, and else a case, which needs a fault description. */
  lemma CaptureAnswers(s: Session, at: Situation, r: Request)
    ensures var answer := Capture(s, at, r).1;
            var done := IsHeard(s, at, r) && r.confirmed && Complete(s, Heard(s, at, r).value.0);
            && (answer == Ok(CaseAlreadyOpen) <==> Ready(s, at) && Talking(s, at) && s.cases != [])
            && (answer == Ok(Saved) <==> IsHeard(s, at, r) && !done)
            && (answer == Ok(PhotosMissing) <==> done && s.policy.photoRequired && !at.photo)
            && (answer == Ok(CaseOpened) <==>
                 done && (s.policy.photoRequired ==> at.photo) && F.NonBlank(Heard(s, at, r).value.0, "faultDescription"))
            && (answer == Raised(FaultRequired) <==>
                 done && (s.policy.photoRequired ==> at.photo) && !F.NonBlank(Heard(s, at, r).value.0, "faultDescription"))
  {
    ReadyIff(s, at);
    ShowingIff(s, at, r);
    if Heard(s, at, r).Ok? {
      F.NothingMissing(Heard(s, at, r).value.0, s.policy.required);
    }
  }

  lemma ShowingIff(s: Session, at: Situation, r: Request)
    ensures SaveFields(s, at, r).Ok? <==> Heard(s, at, r).Ok? && CanShow(s.tickets)
    ensures SaveFields(s, at, r).Ok? ==>
              && SaveFields(s, at, r).value.1 == F.Missing(Heard(s, at, r).value.0, s.policy.required)
              && SaveFields(s, at, r).value.0.drafts != []
              && SaveFields(s, at, r).value.0.drafts[0].fields == Heard(s, at, r).value.0
              && SaveFields(s, at, r).value.0.cases == s.cases
  {
  }

  /** A refusal names the first thing that is wrong. */
  lemma CaptureErrorIsTrue(s: Session, at: Situation, r: Request)
    requires Capture(s, at, r).1.Raised?
    ensures Capture(s, at, r).0 == s
    ensures Capture(s, at, r).1.error ==
              if !Ready(s, at) then ContextError(s, at).GetOr(ServiceUnavailable)
              else if !at.verified then IdentityFirst
              else if !s.live || !s.aiMode then AgentNotPermitted
              else if r.oversized then InvalidFields
              else if Heard(s, at, r).Raised? then FieldError(Heard(s, at, r).error)
              else if !CanShow(s.tickets) then DuplicateTicketIntake
              else FaultRequired
  {
    ReadyIff(s, at);
    ShowingIff(s, at, r);
  }

  /** The rows that a heard capture saves. */
  function SavedBy(s: Session, fields: F.Fields, changed: bool): Session {
    var status := if Complete(s, fields) then AwaitingConfirmation else Collecting;
    s.(drafts := if s.drafts == [] then [Draft(fields, status, NotRequested, {}, false)]
                 else s.drafts[0 := s.drafts[0].(fields := fields, status := status)],
       tickets := ShownOn(s.tickets, fields, changed))
  }

  lemma ShownRows(tickets: seq<TicketRow>, fields: F.Fields, changed: bool)
    ensures TicketsAfterCapture(tickets, fields, changed).Some? ==>
              TicketsAfterCapture(tickets, fields, changed).value == ShownOn(tickets, fields, changed)
  {
  }

  lemma SavedRows(s: Session, at: Situation, r: Request)
    requires SaveFields(s, at, r).Ok?
    ensures Heard(s, at, r).Ok?
    ensures SaveFields(s, at, r).value.0 == SavedBy(s, Heard(s, at, r).value.0, Heard(s, at, r).value.1 != [])
  {
    F.NothingMissing(Heard(s, at, r).value.0, s.policy.required);
    ShownRows(s.tickets, Heard(s, at, r).value.0, Heard(s, at, r).value.1 != []);
  }

  /** What a capture that opens no case saves: the fields, whether they await confirmation, and on the open ticket
      of the call the draft, the urgency and that something changed. */
  lemma SavingEffect(s: Session, at: Situation, r: Request)
    requires Capture(s, at, r).1 == Ok(Saved) || Capture(s, at, r).1 == Ok(PhotosMissing)
    ensures Heard(s, at, r).Ok?
    ensures Capture(s, at, r).0 == SavedBy(s, Heard(s, at, r).value.0, Heard(s, at, r).value.1 != [])
  {
    SavedRows(s, at, r);
  }

  function ShownOn(tickets: seq<TicketRow>, fields: F.Fields, changed: bool): seq<TicketRow> {
    match Find(tickets, VoiceSession)
    case None => tickets
    case Some(k) =>
      if !tickets[k].ticket.open then tickets
      else
        tickets[k := TicketRow(VoiceSession, Some(tickets[k].intake.GetOr(0)),
                               T.Apply(tickets[k].ticket, T.Capture(UrgencyOf(fields), changed)))]
  }

  /** The ticket that a new case of the call has: the call's own when it is open and has no case, and else a new
      one; it carries the draft unless another ticket does. */
  lemma CaseTicketEffect(tickets: seq<TicketRow>)
    ensures var voice := Find(tickets, VoiceSession);
            var after := TicketsAfterCase(tickets);
            if voice.Some? && tickets[voice.value].ticket.open && !tickets[voice.value].ticket.caseLinked then
              var k := voice.value;
              && |after| == |tickets| && (forall i :: 0 <= i < |tickets| && i != k ==> after[i] == tickets[i])
              && after[k].key == VoiceSession && after[k].ticket == tickets[k].ticket.(caseLinked := true)
              && after[k].intake == (if tickets[k].intake.Some? || Carried(tickets, k) then tickets[k].intake else Some(0))
            else
              after == tickets + [TicketRow(ServiceCase, if Carried(tickets, |tickets|) then None else Some(0), T.OPENED_FOR_CASE)]
  {
    var voice := Find(tickets, VoiceSession);
    if voice.Some? && tickets[voice.value].ticket.open && !tickets[voice.value].ticket.caseLinked {
      var k := voice.value;
      var linked := WithTicket(tickets, k, T.CaseLinked(tickets[k].ticket));
      if i :| 0 <= i < |tickets| && i != k && tickets[i].intake.Some? { assert linked[i].intake.Some?; }
      if i :| 0 <= i < |tickets| && i != k && linked[i].intake.Some? { assert tickets[i].intake.Some?; }
    } else {
      var added := tickets + [TicketRow(ServiceCase, None, T.OPENED_FOR_CASE)];
      if i :| 0 <= i < |tickets| && tickets[i].intake.Some? { assert added[i].intake.Some?; }
    }
  }

  /** Another row than k carries the draft. */
  predicate Carried(tickets: seq<TicketRow>, k: nat) {
    exists i :: 0 <= i < |tickets| && i != k && tickets[i].intake.Some?
  }

  /** A capture that opens the case saves the same, confirms the draft, and the case has the draft and the urgency
      that was said, or is urgent when the call's ticket was marked before. */
  lemma CaseEffect(s: Session, at: Situation, r: Request)
    requires Capture(s, at, r).1 == Ok(CaseOpened)
    ensures Heard(s, at, r).Ok? && s.cases == []
    ensures var fields := Heard(s, at, r).value.0;
            var saved := SavedBy(s, fields, Heard(s, at, r).value.1 != []);
            Capture(s, at, r).0 ==
              saved.(cases := [CaseRow(0, if Marked(s.tickets) then Urgent else UrgencyOf(fields).GetOr(Normal))],
                     drafts := saved.drafts[0 := saved.drafts[0].(status := Confirmed)],
                     tickets := TicketsAfterCase(saved.tickets))
  {
    SavedRows(s, at, r);
    var saved := SaveFields(s, at, r).value.0;
    assert Capture(s, at, r) == OpenCase(s, saved);
    assert saved.cases == [];
  }

  /** The call's ticket has an emergency. */
  predicate Marked(tickets: seq<TicketRow>) {
    Find(tickets, VoiceSession).Some? && tickets[Find(tickets, VoiceSession).value].ticket.emergency.Some?
  }

  // ---- emergencies --------------------------------------------------------------------------------

  /** The agent may escalate for the reason. */
  predicate MayEscalate(s: Session, at: Situation, reason: string) {
    at.available && at.emergencyEnabled && at.agentPublished && s.live && s.aiMode && 1 <= |Trim(reason)| <= 500
  }

  /** Else the escalation changes nothing, and the answer is the first thing that is wrong. */
  lemma EscalationIsRefused(s: Session, at: Situation, m: T.Marker, reason: string)
    requires !MayEscalate(s, at, reason)
    ensures Escalate(s, at, m, reason) ==
              (s, if !at.available then Raised(ServiceUnavailable)
                  else if !at.emergencyEnabled then Ok(NotConfigured)
                  else if !at.agentPublished then Raised(CapabilityRequired)
                  else if !s.live || !s.aiMode then Raised(AgentNotPermitted)
                  else Raised(ReasonRequired))
  {
  }

  /** A new ticket for the call carries the draft where there is one. */
  function NewRow(s: Session): TicketRow {
    TicketRow(VoiceSession, if s.drafts == [] then None else Some(0), T.OPENED)
  }

  /** The escalation marks the row of the call, and nothing changes where the mark is refused. */
  predicate MarksRow(s: Session, at: Situation, m: T.Marker, reason: string, rows: seq<TicketRow>, k: nat)
    requires k < |rows|
  {
    match T.Marked(rows[k].ticket, m, reason, Some(T.Voice))
    case (marked, Ok(_)) =>
      Escalate(s, at, m, reason) == (s.(emergencyEvent := true, tickets := rows[k := rows[k].(ticket := marked)]), Ok(Escalated))
    case (_, Raised(error)) => Escalate(s, at, m, reason) == (s, Raised(TicketError(error)))
  }

  lemma EscalationOnNew(s: Session, at: Situation, m: T.Marker, reason: string)
    requires MayEscalate(s, at, reason) && s.hasContact && Find(s.tickets, VoiceSession) == None
    ensures if s.drafts != [] && exists i :: 0 <= i < |s.tickets| && s.tickets[i].intake.Some?
            then Escalate(s, at, m, reason) == (s, Raised(DuplicateTicketIntake))
            else MarksRow(s, at, m, reason, s.tickets + [NewRow(s)], |s.tickets|)
  {
    var added, k := WithVoiceTicket(s.tickets), |s.tickets|;
    NewestIsFound(s.tickets, TicketRow(VoiceSession, None, T.OPENED));
    assert added != s.tickets;
    if i :| 0 <= i < |s.tickets| && s.tickets[i].intake.Some? {
      assert added[i].intake.Some? && IntakeTaken(added, k);
    } else {
      assert !IntakeTaken(added, k);
      assert added[k := added[k].(intake := Some(0))] == s.tickets + [TicketRow(VoiceSession, Some(0), T.OPENED)];
    }
  }

  /** An escalation that may be made is recorded for the call alone when there is no contact; else it marks the
      call's ticket, or a new one, which carries the draft where there is one, unless another ticket does. */
  lemma EscalationEffect(s: Session, at: Situation, m: T.Marker, reason: string)
    requires MayEscalate(s, at, reason)
    ensures if !s.hasContact then Escalate(s, at, m, reason) == (s.(emergencyEvent := true), Ok(EscalatedWithoutInquiry))
            else match Find(s.tickets, VoiceSession)
            case Some(k) => MarksRow(s, at, m, reason, s.tickets, k)
            case None =>
              if s.drafts != [] && exists i :: 0 <= i < |s.tickets| && s.tickets[i].intake.Some?
              then Escalate(s, at, m, reason) == (s, Raised(DuplicateTicketIntake))
              else MarksRow(s, at, m, reason, s.tickets + [NewRow(s)], |s.tickets|)
  {
    if s.hasContact && Find(s.tickets, VoiceSession) == None {
      EscalationOnNew(s, at, m, reason);
    }
  }

  /** An outcome of an escalated call is recorded on its marked ticket, under the event's number; without one it is
      taken note of as number 0. */
  lemma OutcomeEffect(s: Session, outcome: Option<T.Outcome>)
    ensures var (after, answer) := RecordEscalation(s, outcome);
            if !s.emergencyEvent then answer == Raised(NoEmergency) && after == s
            else if outcome == None then answer == Raised(UnsupportedOutcome) && after == s
            else if !Marked(s.tickets) then answer == Ok(Recorded(0)) && after == s
            else
              var k := Find(s.tickets, VoiceSession).value;
              && answer == Ok(Recorded(s.tickets[k].ticket.sequence + 1))
              && after == s.(tickets := s.tickets[k := s.tickets[k].(ticket := T.Apply(s.tickets[k].ticket, T.RecordEscalation(outcome)))])
  {
  }

  // ---- follow-up ----------------------------------------------------------------------------------

  /** The contact may be written to: consents, or agrees where the policy counts it. */
  predicate Consented(s: Session, agreed: bool) {
    s.contactActive && !s.optedOut && (s.consent == Granted || (s.consent == Unknown && agreed && s.policy.agreementCounts))
  }

  /** What a request for a follow-up answers. */
  lemma RequestAnswers(s: Session, at: Situation, agreed: bool)
    ensures var answer := RequestFollowup(s, at, agreed).1;
            var asked := Ready(s, at) && Talking(s, at) && s.policy.followUp && at.whatsapp && s.drafts != [];
            && (answer == Ok(FollowupQueued) <==> asked && at.callerIdentity && Consented(s, agreed) && s.policy.sendsWhen == IntakeSaved)
            && (answer == Ok(FollowupDeferred) <==> asked && at.callerIdentity && Consented(s, agreed) && s.policy.sendsWhen != IntakeSaved)
            && (answer == Ok(Unavailable(NoVerifiedNumber)) <==> asked && !at.callerIdentity)
            && (answer == Ok(Unavailable(ConsentRevoked)) <==>
                 asked && at.callerIdentity && (s.optedOut || s.consent == Revoked || !s.contactActive))
            && (answer == Ok(Unavailable(ConsentRequired)) <==>
                 asked && at.callerIdentity && !s.optedOut && s.contactActive && s.consent == Unknown && !Consented(s, agreed))
            && (answer == Ok(Unavailable(NotConfiguredHere)) <==> Ready(s, at) && Talking(s, at) && !s.policy.followUp)
            && (answer == Ok(Unavailable(WhatsappDisabled)) <==> Ready(s, at) && Talking(s, at) && s.policy.followUp && !at.whatsapp)
            && (answer == Raised(IntakeFirst) <==> Ready(s, at) && Talking(s, at) && s.policy.followUp && at.whatsapp && s.drafts == [])
            && (answer == Raised(AgentNotPermitted) <==> Ready(s, at) && !Talking(s, at))
            && (answer.Raised? && answer.error != IntakeFirst && answer.error != AgentNotPermitted ==> !Ready(s, at))
  {
    ReadyIff(s, at);
  }

  /** A first job for the draft, noted on the open ticket that carries it. */
  function Queueing(s: Session, cause: Cause): Session {
    if s.jobs != [] || s.drafts == [] then s
    else
      var followup := s.drafts[0].followup;
      s.(jobs := [Job(0, cause)], tickets := OnCarrier(s.tickets, T.QueueFollowup),
         drafts := s.drafts[0 := s.drafts[0].(followup := if followup == NotRequested || followup == Requested then Queued else followup)])
  }

  lemma JobEffect(s: Session, cause: Cause)
    requires s.drafts != []
    ensures var followup := s.drafts[0].followup;
            var waiting := if followup == NotRequested || followup == Requested then Queued else followup;
            WithJob(s, cause) == s.(jobs := [Job(0, cause)], drafts := s.drafts[0 := s.drafts[0].(followup := waiting)])
  {
    assert s.drafts[0].(followup := s.drafts[0].followup) == s.drafts[0] && s.drafts[0 := s.drafts[0]] == s.drafts;
  }

  lemma QueueingEffect(s: Session, cause: Cause)
    ensures Enqueued(s, cause) == Queueing(s, cause)
  {
    if s.drafts != [] {
      JobEffect(s, cause);
    }
  }

  function Asking(s: Session): Session
    requires s.drafts != []
  {
    s.(consent := Granted, drafts := s.drafts[0 := s.drafts[0].(followup := AskedAgain(s.drafts[0].followup))])
  }

  function AskedAgain(followup: Followup): Followup {
    if followup == NotRequested || followup == BlockedConsent || followup == NoRecipient then Requested else followup
  }

  /** What it changes: the consent it rests on, the draft's follow-up status, and with a job for an intake that is
      sent when saved, the job and the note of it on the open ticket that carries the draft. */
  lemma RequestEffect(s: Session, at: Situation, agreed: bool)
    ensures var (after, answer) := RequestFollowup(s, at, agreed);
            match answer
            case Ok(FollowupDeferred) => s.drafts != [] && after == Asking(s)
            case Ok(FollowupQueued) => s.drafts != [] && after == Queueing(Asking(s), InCallRequest)
            case Ok(Unavailable(NoVerifiedNumber)) =>
              s.drafts != [] && after == s.(drafts := s.drafts[0 := s.drafts[0].(followup := NoRecipient)])
            case Ok(Unavailable(ConsentRevoked)) =>
              s.drafts != [] && after == s.(drafts := s.drafts[0 := s.drafts[0].(followup := BlockedConsent)])
            case Ok(Unavailable(ConsentRequired)) =>
              s.drafts != [] && after == s.(drafts := s.drafts[0 := s.drafts[0].(followup := BlockedConsent)])
            case _ => after == s
  {
    if s.drafts != [] {
      QueueingEffect(Agreed(s), InCallRequest);
    }
  }

  /** The worker's report sets the draft's follow-up status and is noted on the open ticket that carries the draft;
      the first three statuses cannot be reported. */
  lemma ReportEffect(s: Session, status: Followup)
    ensures var (after, answer) := FollowupReported(s, status);
            if status in {NotRequested, Requested, Queued} then answer == Raised(UnsupportedStatus) && after == s
            else
              && answer == Ok(Saved)
              && after == s.(drafts := if s.drafts == [] then [] else s.drafts[0 := s.drafts[0].(followup := status)],
                             tickets := OnCarrier(s.tickets, T.RecordFollowup(status == Admitted)))
  {
  }

  /** A step on the carrier applies to the open ticket that carries the draft; there is one at most. */
  lemma CarrierEffect(tickets: seq<TicketRow>, step: T.Step, k: nat)
    requires k < |tickets| && forall i :: 0 <= i < |tickets| && i != k ==> tickets[i].intake == None
    ensures OnCarrier(tickets, step) ==
              if tickets[k].intake.Some? && tickets[k].ticket.open
              then tickets[k := tickets[k].(ticket := T.Apply(tickets[k].ticket, step))] else tickets
  {
    OnlyCarrier(tickets, k);
  }

  lemma {:induction false} OnlyCarrier(tickets: seq<TicketRow>, k: nat)
    requires k < |tickets| && forall i :: 0 <= i < |tickets| && i != k ==> tickets[i].intake == None
    ensures FindIntake(tickets) == if tickets[k].intake.Some? && tickets[k].ticket.open then Some(k) else None
  {
    var n := |tickets| - 1;
    if k < n {
      OnlyCarrier(tickets[..n], k);
    } else {
      NoCarrier(tickets[..n]);
    }
  }

  lemma {:induction false} NoCarrier(tickets: seq<TicketRow>)
    requires forall i :: 0 <= i < |tickets| ==> tickets[i].intake == None
    ensures FindIntake(tickets) == None
  {
    if tickets != [] {
      NoCarrier(tickets[..|tickets| - 1]);
    }
  }

  lemma AttachEffect(s: Session)
    ensures Attached(s) == s.(tickets := OnCarrier(s.tickets, T.AttachReply))
  {
  }

  // ---- the end of the call --------------------------------------------------------------------------

  /** A follow-up is due when the call ends: it was requested, or it was not and the policy sends one at the end to
      whoever consents and can be reached. */
  predicate DueAtEnd(s: Session, at: Situation) {
    && s.live && s.drafts != [] && s.policy.followUp
    && (s.drafts[0].followup == Requested
        || (s.drafts[0].followup == NotRequested && s.policy.sendsWhen == CallEnded
            && s.consent == Granted && !s.optedOut && at.callerIdentity))
  }

  /** From no job, the end of the call creates one exactly when a follow-up is due, for the end of the call; a job
      that is there stays the only one. */
  lemma EndQueuesIff(s: Session, at: Situation)
    ensures s.jobs == [] ==> EndCall(s, at).jobs == if DueAtEnd(s, at) then [Job(0, AtCallEnd)] else []
    ensures s.jobs != [] ==> EndCall(s, at).jobs == s.jobs
  {
  }

  /** The tickets after the end: the call's open one is settled, by whether there is a case; a follow-up that is
      queued is noted on the open ticket that carries the draft. */
  lemma EndEffect(s: Session, at: Situation)
    ensures var settled := match Find(s.tickets, VoiceSession)
                           case Some(k) =>
                             if s.tickets[k].ticket.open
                             then s.tickets[k := s.tickets[k].(ticket := T.Apply(s.tickets[k].ticket, T.Settle(s.cases != [])))]
                             else s.tickets
                           case None => s.tickets;
            var ended := s.(live := false, tickets := settled);
            EndCall(s, at) == if !s.live then s else if DueAtEnd(s, at) then Queueing(ended, AtCallEnd) else ended
  {
    QueueingEffect(s.(live := false, tickets := TicketsSettled(s)), AtCallEnd);
  }

  // ---- the conversation -----------------------------------------------------------------------------

  predicate IsOpen(s: Session) {
    s.drafts != [] && (s.drafts[0].status == Collecting || s.drafts[0].status == AwaitingConfirmation)
  }

  /** Every required field is there by the conversation's count, or waived. */
  predicate ChatReady(s: Session, fields: F.Fields, nationalId: bool) {
    s.drafts != [] && forall i :: 0 <= i < |s.policy.required| && F.RequiredKey(s.policy.required[i]) ==>
      s.policy.required[i] in s.drafts[0].waived || !F.AbsentInChat(fields, nationalId, s.policy.required[i])
  }

  /** An update from the conversation adds its fields to an open intake, which awaits confirmation exactly when the
      customer is resolved, a required photo is there and no required field is missing. */
  lemma ChatUpdateEffect(s: Session, chat: Chat, proposal: F.Proposal, nationalId: bool)
    ensures var (after, answer) := ChatUpdated(s, chat, proposal, nationalId);
            if chat.enabled && IsOpen(s) then
              var fields := s.drafts[0].fields + F.Sanitized(proposal);
              var protected := s.drafts[0].nationalId || nationalId;
              var ready := chat.resolved && (s.policy.photoRequired ==> chat.photo) && ChatReady(s, fields, protected);
              answer == Ok(Saved)
              && after == s.(drafts := s.drafts[0 := s.drafts[0].(fields := fields, nationalId := protected,
                                                                  status := if ready then AwaitingConfirmation else Collecting)])
            else
              after == s && answer == Raised(if chat.enabled then OpenIntakeNotFound else ChatDisabled)
  {
  }

  lemma WaiverEffect(s: Session, field: string)
    ensures Waived(s, field) ==
              if IsOpen(s) then s.(drafts := s.drafts[0 := s.drafts[0].(waived := s.drafts[0].waived + {field})]) else s
    ensures HandedOver(s) == if IsOpen(s) then s.(drafts := s.drafts[0 := s.drafts[0].(status := HandedOff)]) else s
  {
  }

  /** The confirmation in the conversation opens the case if and only if it is enabled, there is an intake without
      a case, every required field and photo is there or waived, the customer is resolved, the store is in the
      directory, tickets are enabled and the case can be described; else it changes nothing. */
  lemma ChatConfirmationIff(s: Session, chat: Chat)
    ensures var (after, answer) := ChatConfirmed(s, chat);
            var opens := && chat.enabled && s.cases == [] && s.drafts != []
                         && ChatReady(s, s.drafts[0].fields, s.drafts[0].nationalId)
                         && (s.policy.photoRequired ==> chat.photo) && chat.resolved
                         && ("storeId" in s.drafts[0].fields ==> s.drafts[0].fields["storeId"] in chat.directory)
                         && chat.ticketsEnabled && CaseHasText(s.drafts[0].fields);
            && (answer == Ok(CaseOpened) <==> opens)
            && (answer == Ok(CaseAlreadyOpen) <==> chat.enabled && s.cases != [])
            && after == if opens then
                          s.(cases := [CaseRow(0, Normal)], tickets := TicketsAfterCase(s.tickets),
                             drafts := s.drafts[0 := s.drafts[0].(status := Confirmed)])
                        else s
  {
  }

  /** Else it names the first thing that is wrong. */
  lemma ChatErrorIsTrue(s: Session, chat: Chat)
    requires ChatConfirmed(s, chat).1.Raised?
    ensures ChatConfirmed(s, chat).1.error ==
              if !chat.enabled then ChatDisabled
              else if s.drafts == [] then OpenIntakeNotFound
              else if !ChatReady(s, s.drafts[0].fields, s.drafts[0].nationalId) then IntakeIncomplete
              else if s.policy.photoRequired && !chat.photo then PhotoRequired
              else if !chat.resolved then ReviewRequired
              else if "storeId" in s.drafts[0].fields && s.drafts[0].fields["storeId"] !in chat.directory then StoreNotFound
              else if !chat.ticketsEnabled then ServiceUnavailable
              else FaultRequired
  {
  }

  /** A case has text unless a fault description is noted whose start is blank, or that with the exact failure is
      longer than 10000 characters. */
  lemma CaseTextIff(fields: F.Fields, fault: string, exact: string)
    requires "faultDescription" in fields && fields["faultDescription"] == fault && fault != []
    requires exact == if "exactFailure" in fields then fields["exactFailure"] else []
    ensures CaseHasText(fields) <==>
              var text := if exact == [] then fault else fault + "\n" + exact;
              Trim(fault[..if |fault| < 200 then |fault| else 200]) != [] && 1 <= |Trim(text)| <= 10000
  {
    assert |fault| <= 200 ==> fault[..|fault|] == fault;
  }

  lemma CaseTextWithoutFault(fields: F.Fields)
    requires "faultDescription" in fields ==> fields["faultDescription"] == []
    ensures CaseHasText(fields) <==> "faultDescription" !in fields
  {
  }

  // ---- consent --------------------------------------------------------------------------------------

  /** A message consents for whoever neither consented nor refused; staff set what they choose, with the opt-out
      that a revocation is and a grant takes back. */
  lemma ConsentEffect(s: Session, consent: Consent)
    ensures MessageReceived(s) == s.(consent := if s.consent == Unknown && !s.optedOut then Granted else s.consent)
    ensures ConsentSet(s, consent) ==
              s.(consent := consent, optedOut := consent == Revoked || (consent == Unknown && s.optedOut))
  {
  }

  /** Takeovers end the agent's turn; what happens to a ticket outside the call happens to that ticket alone. */
  lemma OtherEffects(s: Session, k: nat, act: T.Step)
    ensures Apply(s, TakeOver) == s.(aiMode := false)
    ensures Apply(s, TicketStep(k, act)) ==
              if k < |s.tickets| && !act.RecordEscalation? && !act.Capture? && !act.QueueFollowup? && !act.RecordFollowup?
                 && !act.AttachReply? && !act.Settle? && !act.LinkCase?
              then s.(tickets := s.tickets[k := s.tickets[k].(ticket := T.Apply(s.tickets[k].ticket, act))])
              else s
  {
  }

  // ---- what a job tells -----------------------------------------------------------------------------

  /** A requested follow-up that is sent when the intake is saved has its job; a job fits the policy. */
  predicate JobFits(s: Session) {
    && |s.jobs| <= 1
    && (s.jobs != [] ==> s.policy.followUp && (s.jobs[0] == Job(0, InCallRequest) || s.jobs[0] == Job(0, AtCallEnd))
                         && (s.jobs[0].cause == InCallRequest <==> s.policy.sendsWhen == IntakeSaved))
    && (s.jobs == [] && s.drafts != [] && s.drafts[0].followup == Requested ==> s.policy.sendsWhen != IntakeSaved)
  }

  lemma RequestKeepsFit(s: Session, at: Situation, agreed: bool)
    requires JobFits(s)
    ensures JobFits(RequestFollowup(s, at, agreed).0)
  {
    RequestEffect(s, at, agreed);
    RequestAnswers(s, at, agreed);
  }

  lemma EndKeepsFit(s: Session, at: Situation)
    requires JobFits(s)
    ensures JobFits(EndCall(s, at))
  {
    EndQueuesIff(s, at);
    EndEffect(s, at);
  }

  lemma CaptureKeepsFit(s: Session, at: Situation, r: Request)
    requires JobFits(s)
    ensures JobFits(Capture(s, at, r).0)
  {
    if Capture(s, at, r).1 == Ok(CaseOpened) {
      CaseEffect(s, at, r);
    } else if Capture(s, at, r).1 == Ok(Saved) || Capture(s, at, r).1 == Ok(PhotosMissing) {
      SavingEffect(s, at, r);
    } else {
      CaptureChangesNothing(s, at, r);
    }
  }

  lemma CaptureChangesNothing(s: Session, at: Situation, r: Request)
    requires Capture(s, at, r).1 !in {Ok(CaseOpened), Ok(Saved), Ok(PhotosMissing)}
    ensures Capture(s, at, r).0 == s
  {
  }

  lemma EscalationKeepsWork(s: Session, at: Situation, m: T.Marker, reason: string)
    ensures SameWork(s, Escalate(s, at, m, reason).0)
  {
    if MayEscalate(s, at, reason) {
      EscalationEffect(s, at, m, reason);
    }
  }

  lemma InCallKeepsFit(s: Session, step: Step)
    requires JobFits(s) && OfCall(step)
    ensures JobFits(InCall(s, step))
  {
    match step
    case OpenStep(at) => OpeningEffect(s, at);
    case CaptureStep(at, request) => CaptureKeepsFit(s, at, request);
    case EscalateStep(at, marker, reason) => EscalationKeepsWork(s, at, marker, reason);
    case OutcomeStep(outcome) => OutcomeEffect(s, outcome);
    case RequestStep(at, agreed) => RequestKeepsFit(s, at, agreed);
    case ReportStep(status) => ReportEffect(s, status);
    case AttachStep => AttachEffect(s);
    case EndStep(at) => EndKeepsFit(s, at);
  }

  /** The step leaves the job, the policy and the draft's follow-up status. */
  predicate SameWork(s: Session, after: Session) {
    && after.policy == s.policy && after.jobs == s.jobs && |after.drafts| == |s.drafts|
    && (s.drafts != [] ==> after.drafts[0].followup == s.drafts[0].followup)
  }

  lemma ChatKeepsWork(s: Session, chat: Chat, proposal: F.Proposal, nationalId: bool)
    ensures SameWork(s, ChatUpdated(s, chat, proposal, nationalId).0) && SameWork(s, ChatConfirmed(s, chat).0)
  {
    ChatUpdateEffect(s, chat, proposal, nationalId);
    ChatConfirmationIff(s, chat);
  }

  lemma StaffKeepsWork(s: Session, field: string)
    ensures SameWork(s, Waived(s, field)) && SameWork(s, HandedOver(s))
  {
    WaiverEffect(s, field);
  }

  lemma TicketKeepsWork(s: Session, k: nat, act: T.Step)
    ensures SameWork(s, Outside(s, k, act))
  {
  }

  lemma ConsentKeepsWork(s: Session, consent: Consent)
    ensures SameWork(s, MessageReceived(s)) && SameWork(s, ConsentSet(s, consent)) && SameWork(s, s.(aiMode := false))
  {
  }

  lemma ElsewhereKeepsWork(s: Session, step: Step)
    requires !OfCall(step)
    ensures SameWork(s, Elsewhere(s, step))
  {
    match step
    case TicketStep(k, act) => TicketKeepsWork(s, k, act);
    case MessageStep => ConsentKeepsWork(s, Unknown);
    case ConsentStep(consent) => ConsentKeepsWork(s, consent);
    case TakeOver => ConsentKeepsWork(s, Unknown);
    case ChatStep(chat, proposal, nationalId) => ChatKeepsWork(s, chat, proposal, nationalId);
    case ConfirmStep(chat) => ChatKeepsWork(s, chat, F.Proposal(map[], None, None), false);
    case WaiveStep(field) => StaffKeepsWork(s, field);
    case HandOffStep => StaffKeepsWork(s, "");
  }

  lemma ElsewhereKeepsFit(s: Session, step: Step)
    requires JobFits(s) && !OfCall(step)
    ensures JobFits(Elsewhere(s, step))
  {
    ElsewhereKeepsWork(s, step);
  }

  /** In every run of a call: a job was created under a policy that follows up, and was asked for in the call
      exactly when the policy sends when the intake is saved, and otherwise queued at the end of the call. */
  lemma {:induction false} JobTellsTrigger(s: Session, steps: seq<Step>)
    requires Fresh(s)
    ensures JobFits(Run(s, steps))
    decreases |steps|
  {
    if steps != [] {
      var before := Run(s, steps[..|steps| - 1]);
      JobTellsTrigger(s, steps[..|steps| - 1]);
      if OfCall(steps[|steps| - 1]) {
        InCallKeepsFit(before, steps[|steps| - 1]);
      } else {
        ElsewhereKeepsFit(before, steps[|steps| - 1]);
      }
    }
  }
}
