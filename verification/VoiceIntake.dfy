/** One voice call and everything it leaves behind: the intake draft, the tickets, the case, the follow-up
    job and the contact's WhatsApp consent.  Every function is one atomic step on the rows that belong to
    the call's session. */
module VoiceIntake {
  import opened Common
  import opened FieldService
  import F = IntakeFields
  import T = TicketTimeline

  /** The attachment key, which is unique among tickets. */
  datatype Key = VoiceSession | ServiceCase

  /** A ticket of the session; `intake` is its intake_draft_id, which is unique among tickets. */
  datatype TicketRow = TicketRow(key: Key, intake: Option<nat>, ticket: T.Ticket)

  datatype DraftStatus = Collecting | AwaitingConfirmation | Confirmed | HandedOff

  datatype Followup = NotRequested | Requested | Queued | Admitted | BlockedConsent | BlockedWindow | NoChannel
                    | NoRecipient | RecipientConflict | SendFailed

  /** `waived` holds the required fields that staff gave up, `nationalId` says that a protected one is stored. */
  datatype Draft = Draft(fields: F.Fields, status: DraftStatus, followup: Followup, waived: set<string>, nationalId: bool)

  function NewDraft(fields: F.Fields, status: DraftStatus): Draft {
    Draft(fields, status, NotRequested, {}, false)
  }

  datatype CaseRow = CaseRow(draft: nat, priority: Priority)

  datatype Cause = InCallRequest | AtCallEnd

  datatype Job = Job(draft: nat, cause: Cause)

  datatype Consent = Unknown | Granted | Revoked

  datatype Trigger = IntakeSaved | CallEnded | Never

  /** The workflow policy pinned for the session. */
  datatype Policy = Policy(openOnFirstContact: bool, required: seq<string>, photoRequired: bool,
                           followUp: bool, agreementCounts: bool, sendsWhen: Trigger)

  datatype Session = Session(policy: Policy, hasContact: bool, live: bool, aiMode: bool,
                             drafts: seq<Draft>, tickets: seq<TicketRow>, cases: seq<CaseRow>, jobs: seq<Job>,
                             consent: Consent, optedOut: bool, contactActive: bool, emergencyEvent: bool)

  /** What the rest of the database says when a step runs. */
  datatype Situation = Situation(available: bool, ticketsEnabled: bool, agentPublished: bool, verified: bool,
                                 prefill: F.Fields, directory: F.Directory, callerIdentity: bool, photo: bool,
                                 whatsapp: bool, emergencyEnabled: bool)

  datatype Error =
    | ServiceUnavailable | VerifiedCallerRequired | CapabilityRequired | IdentityFirst | AgentNotPermitted
    | InvalidFields | FieldError(field: F.Error) | DuplicateTicketIntake | FaultRequired | IntakeFirst
    | TicketError(ticket: T.Error) | NoEmergency | ReasonRequired | UnsupportedOutcome | UnsupportedStatus
    | ChatDisabled | OpenIntakeNotFound | IntakeIncomplete | PhotoRequired | ReviewRequired | StoreNotFound

  datatype Reason = NotConfiguredHere | WhatsappDisabled | NoVerifiedNumber | ConsentRevoked | ConsentRequired

  datatype Answer =
    | NotConfigured | IdentityRequired | InquiryOpen | Saved | CaseAlreadyOpen | PhotosMissing | CaseOpened
    | Escalated | EscalatedWithoutInquiry | Unavailable(reason: Reason) | FollowupQueued | FollowupDeferred
    | Recorded(sequence: int)

  datatype Result<T> = Ok(value: T) | Raised(error: Error)

  /** The step leaves the contact's consent alone. */
  predicate SameConsent(s: Session, r: Session) {
    r.consent == s.consent && r.optedOut == s.optedOut
  }

  // ---- shared parts -------------------------------------------------------------------------------

  /** voice_intake_context, as far as it raises. */
  function ContextError(s: Session, at: Situation): Option<Error> {
    if !at.available || !at.ticketsEnabled then Some(ServiceUnavailable)
    else if !s.hasContact then Some(VerifiedCallerRequired)
    else if !at.agentPublished then Some(CapabilityRequired)
    else None
  }

  /** Its known fields: the contact's, overlaid by the draft's. */
  function Known(s: Session, at: Situation): F.Fields {
    at.prefill + if s.drafts == [] then map[] else s.drafts[0].fields
  }

  function Find(tickets: seq<TicketRow>, key: Key): (r: Option<nat>)
    ensures r.Some? ==> r.value < |tickets| && tickets[r.value].key == key
    ensures r == None ==> forall i :: 0 <= i < |tickets| ==> tickets[i].key != key
  {
    if tickets == [] then None
    else if tickets[|tickets| - 1].key == key then Some(|tickets| - 1)
    else Find(tickets[..|tickets| - 1], key)
  }

  /** The open ticket that carries the draft. */
  function FindIntake(tickets: seq<TicketRow>): (r: Option<nat>)
    ensures r.Some? ==> r.value < |tickets| && tickets[r.value].intake.Some? && tickets[r.value].ticket.open
  {
    if tickets == [] then None
    else if tickets[|tickets| - 1].intake.Some? && tickets[|tickets| - 1].ticket.open then Some(|tickets| - 1)
    else FindIntake(tickets[..|tickets| - 1])
  }

  /** A step on the open ticket that carries the draft, if there is one. */
  function OnCarrier(tickets: seq<TicketRow>, step: T.Step): seq<TicketRow> {
    match FindIntake(tickets)
    case None => tickets
    case Some(k) => WithTicket(tickets, k, T.Apply(tickets[k].ticket, step))
  }

  predicate IntakeTaken(tickets: seq<TicketRow>, k: nat) {
    exists i :: 0 <= i < |tickets| && i != k && tickets[i].intake.Some?
  }

  function WithTicket(tickets: seq<TicketRow>, k: nat, t: T.Ticket): seq<TicketRow>
    requires k < |tickets|
  {
    tickets[k := tickets[k].(ticket := t)]
  }

  /** The same tickets under the same keys. */
  predicate SameTickets(before: seq<TicketRow>, after: seq<TicketRow>) {
    |before| == |after| && forall i :: 0 <= i < |before| ==> before[i].key == after[i].key && before[i].ticket == after[i].ticket
  }

  /** Sets the intake of row k where it is NULL; None when the unique index rejects it. */
  function Linked(tickets: seq<TicketRow>, k: nat): (r: Option<seq<TicketRow>>)
    requires k < |tickets|
    ensures r.Some? ==> SameTickets(tickets, r.value) && r.value[k].intake.Some?
  {
    if tickets[k].intake.Some? then Some(tickets)
    else if IntakeTaken(tickets, k) then None
    else Some(tickets[k := tickets[k].(intake := Some(0))])
  }

  /** open_ticket_from_voice_session. */
  function WithVoiceTicket(tickets: seq<TicketRow>): (r: seq<TicketRow>)
    ensures tickets <= r && Find(r, VoiceSession).Some?
  {
    if Find(tickets, VoiceSession).Some? then tickets else tickets + [TicketRow(VoiceSession, None, T.OPENED)]
  }

  // ---- open_voice_inquiry -------------------------------------------------------------------------

  function Open(s: Session, at: Situation): (r: (Session, Result<Answer>))
    ensures SameConsent(s, r.0)
  {
    if ContextError(s, at).Some? then (s, Raised(ContextError(s, at).value))
    else if !s.policy.openOnFirstContact then (s, Ok(NotConfigured))
    else if !at.verified then (s, Ok(IdentityRequired))
    else
      var drafts := if s.drafts == [] then [NewDraft(at.prefill, Collecting)] else s.drafts;
      var tickets := WithVoiceTicket(s.tickets);
      match Linked(tickets, Find(tickets, VoiceSession).value)
      case None => (s, Raised(DuplicateTicketIntake))
      case Some(linked) => (s.(drafts := drafts, tickets := linked), Ok(InquiryOpen))
  }

  // ---- capture_service_intake ---------------------------------------------------------------------

  datatype Request = Request(fields: seq<(string, Option<string>)>, oversized: bool, confirmed: bool)

  function UrgencyOf(fields: F.Fields): Option<Priority> {
    if "urgency" !in fields then None
    else if fields["urgency"] == "low" then Some(Low)
    else if fields["urgency"] == "normal" then Some(Normal)
    else if fields["urgency"] == "high" then Some(High)
    else if fields["urgency"] == "urgent" then Some(Urgent)
    else None
  }

  /** The open voice ticket shows what was said. */
  function TicketsAfterCapture(tickets: seq<TicketRow>, fields: F.Fields, changed: bool): Option<seq<TicketRow>> {
    match Find(tickets, VoiceSession)
    case None => Some(tickets)
    case Some(k) =>
      if !tickets[k].ticket.open then Some(tickets)
      else
        match Linked(tickets, k)
        case None => None
        case Some(linked) => Some(WithTicket(linked, k, T.DetailsCaptured(linked[k].ticket, UrgencyOf(fields), changed)))
  }

  function Emergency(tickets: seq<TicketRow>): bool {
    match Find(tickets, VoiceSession)
    case None => false
    case Some(k) => tickets[k].ticket.emergency.Some?
  }

  /** The triggers on the new case: the voice ticket becomes the case's if it is open and has none, or
      a ticket is opened for the case; then that ticket carries the draft, unless another one does. */
  function TicketsAfterCase(tickets: seq<TicketRow>): seq<TicketRow> {
    var voice := Find(tickets, VoiceSession);
    if voice.Some? && tickets[voice.value].ticket.open && !tickets[voice.value].ticket.caseLinked then
      var linked := WithTicket(tickets, voice.value, T.CaseLinked(tickets[voice.value].ticket));
      Linked(linked, voice.value).GetOr(linked)
    else
      var added := tickets + [TicketRow(ServiceCase, None, T.OPENED_FOR_CASE)];
      Linked(added, |tickets|).GetOr(added)
  }

  /** The draft saved by a capture, and the tickets that show it. */
  function SaveFields(s: Session, at: Situation, r: Request): (saved: Result<(Session, seq<string>)>)
    ensures saved.Ok? ==> SameConsent(s, saved.value.0)
  {
    match F.Captured(Known(s, at), r.fields, at.directory)
    case Raised(error) => Raised(FieldError(error))
    case Ok((fields, changed)) =>
      var missing := F.Missing(fields, s.policy.required);
      var status := if missing == [] then AwaitingConfirmation else Collecting;
      var draft := if s.drafts == [] then NewDraft(fields, status) else s.drafts[0].(fields := fields, status := status);
      match TicketsAfterCapture(s.tickets, fields, changed != [])
      case None => Raised(DuplicateTicketIntake)
      case Some(tickets) =>
        Ok((s.(drafts := if s.drafts == [] then [draft] else s.drafts[0 := draft], tickets := tickets), missing))
  }

  function CaptureRefused(s: Session, at: Situation): Option<Error> {
    if ContextError(s, at).Some? then ContextError(s, at)
    else if !at.verified then Some(IdentityFirst)
    else if !s.live || !s.aiMode then Some(AgentNotPermitted)
    else None
  }

  function Capture(s: Session, at: Situation, r: Request): (answered: (Session, Result<Answer>))
    ensures SameConsent(s, answered.0)
  {
    if CaptureRefused(s, at).Some? then (s, Raised(CaptureRefused(s, at).value))
    else if s.cases != [] then (s, Ok(CaseAlreadyOpen))
    else if r.oversized then (s, Raised(InvalidFields))
    else
      match SaveFields(s, at, r)
      case Raised(error) => (s, Raised(error))
      case Ok((saved, missing)) =>
        if !r.confirmed || missing != [] then (saved, Ok(Saved))
        else if s.policy.photoRequired && !at.photo then (saved, Ok(PhotosMissing))
        else OpenCase(s, saved)
  }

  function OpenCase(s: Session, saved: Session): (r: (Session, Result<Answer>))
    ensures r.0 == s || SameConsent(saved, r.0)
  {
    if saved.drafts == [] || !F.NonBlank(saved.drafts[0].fields, "faultDescription") then (s, Raised(FaultRequired))
    else
      var priority := if Emergency(s.tickets) then Urgent else UrgencyOf(saved.drafts[0].fields).GetOr(Normal);
      (saved.(cases := saved.cases + [CaseRow(0, priority)],
              tickets := TicketsAfterCase(saved.tickets),
              drafts := saved.drafts[0 := saved.drafts[0].(status := Confirmed)]), Ok(CaseOpened))
  }

  // ---- the same intake in a conversation ----------------------------------------------------------

  /** What a WhatsApp writer of the intake finds: the feature, the customer and the location as they resolve,
      the photos, the directory and the tickets feature. */
  datatype Chat = Chat(enabled: bool, resolved: bool, photo: bool, directory: F.Directory, ticketsEnabled: bool)

  predicate OpenDraft(s: Session) {
    s.drafts != [] && (s.drafts[0].status == Collecting || s.drafts[0].status == AwaitingConfirmation)
  }

  predicate ChatComplete(s: Session, d: Draft) {
    F.CompleteInChat(d.fields, d.nationalId, s.policy.required, d.waived)
  }

  /** updateWhatsAppServiceIntake. */
  function ChatUpdated(s: Session, chat: Chat, proposal: F.Proposal, nationalId: bool): (r: (Session, Result<Answer>)) {
    if !chat.enabled then (s, Raised(ChatDisabled))
    else if !OpenDraft(s) then (s, Raised(OpenIntakeNotFound))
    else
      var draft := s.drafts[0].(fields := s.drafts[0].fields + F.Sanitized(proposal),
                                nationalId := s.drafts[0].nationalId || nationalId);
      var ready := chat.resolved && (s.policy.photoRequired ==> chat.photo) && ChatComplete(s, draft);
      (s.(drafts := s.drafts[0 := draft.(status := if ready then AwaitingConfirmation else Collecting)]), Ok(Saved))
  }

  /** overrideIntakeRequirement. */
  function Waived(s: Session, field: string): Session {
    if OpenDraft(s) then s.(drafts := s.drafts[0 := s.drafts[0].(waived := s.drafts[0].waived + {field})]) else s
  }

  /** handoffWhatsAppServiceIntake. */
  function HandedOver(s: Session): Session {
    if OpenDraft(s) then s.(drafts := s.drafts[0 := s.drafts[0].(status := HandedOff)]) else s
  }

  /** The title and the fault description of the case are not blank. */
  predicate CaseHasText(fields: F.Fields) {
    "faultDescription" in fields ==>
      var fault := fields["faultDescription"];
      var exact := if "exactFailure" in fields then fields["exactFailure"] else [];
      var text := if fault == [] then exact else if exact == [] then fault else fault + "\n" + exact;
      Trim(if |fault| <= 200 then fault else fault[..200]) != [] && 1 <= |Trim(text)| <= 10000
  }

  function ConfirmationError(s: Session, d: Draft, chat: Chat): Option<Error> {
    if !ChatComplete(s, d) then Some(IntakeIncomplete)
    else if s.policy.photoRequired && !chat.photo then Some(PhotoRequired)
    else if !chat.resolved then Some(ReviewRequired)
    else if "storeId" in d.fields && d.fields["storeId"] !in chat.directory then Some(StoreNotFound)
    else if !chat.ticketsEnabled then Some(ServiceUnavailable)
    else if !CaseHasText(d.fields) then Some(FaultRequired)
    else None
  }

  /** confirmWhatsAppServiceIntake; it does not look at the draft's status nor at the call. */
  function ChatConfirmed(s: Session, chat: Chat): (r: (Session, Result<Answer>)) {
    if !chat.enabled then (s, Raised(ChatDisabled))
    else if s.cases != [] then (s, Ok(CaseAlreadyOpen))
    else if s.drafts == [] then (s, Raised(OpenIntakeNotFound))
    else
      match ConfirmationError(s, s.drafts[0], chat)
      case Some(error) => (s, Raised(error))
      case None =>
        (s.(cases := [CaseRow(0, Normal)], tickets := TicketsAfterCase(s.tickets),
            drafts := s.drafts[0 := s.drafts[0].(status := Confirmed)]), Ok(CaseOpened))
  }

  // ---- emergencies --------------------------------------------------------------------------------

  function Escalate(s: Session, at: Situation, m: T.Marker, reason: string): (r: (Session, Result<Answer>))
    ensures SameConsent(s, r.0)
  {
    if !at.available then (s, Raised(ServiceUnavailable))
    else if !at.emergencyEnabled then (s, Ok(NotConfigured))
    else if !at.agentPublished then (s, Raised(CapabilityRequired))
    else if !s.live || !s.aiMode then (s, Raised(AgentNotPermitted))
    else if !(1 <= |Trim(reason)| <= 500) then (s, Raised(ReasonRequired))
    else if !s.hasContact then (s.(emergencyEvent := true), Ok(EscalatedWithoutInquiry))
    else
      var added := WithVoiceTicket(s.tickets);
      var k := Find(added, VoiceSession).value;
      var tickets := if added == s.tickets || s.drafts == [] then Some(added) else Linked(added, k);
      match tickets
      case None => (s, Raised(DuplicateTicketIntake))
      case Some(rows) =>
        match T.Marked(rows[k].ticket, m, reason, Some(T.Voice))
        case (_, Raised(error)) => (s, Raised(TicketError(error)))
        case (marked, Ok(_)) => (s.(emergencyEvent := true, tickets := WithTicket(rows, k, marked)), Ok(Escalated))
  }

  function RecordEscalation(s: Session, outcome: Option<T.Outcome>): (r: (Session, Result<Answer>))
    ensures SameConsent(s, r.0)
  {
    if !s.emergencyEvent then (s, Raised(NoEmergency))
    else if outcome == None then (s, Raised(UnsupportedOutcome))
    else
      match Find(s.tickets, VoiceSession)
      case None => (s, Ok(Recorded(0)))
      case Some(k) =>
        if s.tickets[k].ticket.emergency == None then (s, Ok(Recorded(0)))
        else
          (s.(tickets := WithTicket(s.tickets, k, T.Apply(s.tickets[k].ticket, T.RecordEscalation(outcome)))),
           Ok(Recorded(s.tickets[k].ticket.sequence + 1)))
  }

  // ---- follow-up ----------------------------------------------------------------------------------

  /** Follow-up bookkeeping leaves the rest of the session alone. */
  predicate OnlyFollowup(s: Session, r: Session) {
    && SameConsent(s, r) && r.policy == s.policy && r.cases == s.cases && |r.drafts| == |s.drafts|
    && (s.drafts != [] ==> r.drafts[0] == s.drafts[0].(followup := r.drafts[0].followup))
  }

  function WithFollowup(s: Session, followup: Followup): (r: Session)
    ensures OnlyFollowup(s, r) && r.tickets == s.tickets && r.jobs == s.jobs
    ensures s.drafts != [] ==> r.drafts[0].followup == followup
  {
    if s.drafts == [] then s else s.(drafts := s.drafts[0 := s.drafts[0].(followup := followup)])
  }

  /** The new job and the draft that waits for it. */
  function WithJob(s: Session, cause: Cause): (r: Session)
    requires s.drafts != []
    ensures OnlyFollowup(s, r) && r.tickets == s.tickets && r.jobs == [Job(0, cause)]
  {
    var queued := s.(jobs := [Job(0, cause)]);
    if s.drafts[0].followup == NotRequested || s.drafts[0].followup == Requested then WithFollowup(queued, Queued) else queued
  }

  /** enqueue_intake_followup; the job's idempotency key names the draft. */
  function Enqueued(s: Session, cause: Cause): (r: Session)
    ensures OnlyFollowup(s, r)
    ensures r.jobs == if s.jobs == [] && s.drafts != [] then [Job(0, cause)] else s.jobs
  {
    if s.jobs != [] || s.drafts == [] then s
    else WithJob(s, cause).(tickets := OnCarrier(s.tickets, T.QueueFollowup))
  }

  /** The caller's agreement is recorded and the follow-up requested. */
  function Agreed(s: Session): (r: Session)
    requires s.drafts != []
    ensures r.tickets == s.tickets && r.jobs == s.jobs && r.consent == Granted
    ensures OnlyFollowup(s.(consent := Granted), r)
  {
    var before := s.drafts[0].followup;
    WithFollowup(s.(consent := Granted),
                 if before == NotRequested || before == BlockedConsent || before == NoRecipient then Requested else before)
  }

  function RequestFollowup(s: Session, at: Situation, agreed: bool): (Session, Result<Answer>) {
    if ContextError(s, at).Some? then (s, Raised(ContextError(s, at).value))
    else if !at.verified || !s.live || !s.aiMode then (s, Raised(AgentNotPermitted))
    else if !s.policy.followUp then (s, Ok(Unavailable(NotConfiguredHere)))
    else if !at.whatsapp then (s, Ok(Unavailable(WhatsappDisabled)))
    else if s.drafts == [] then (s, Raised(IntakeFirst))
    else if !at.callerIdentity then (WithFollowup(s, NoRecipient), Ok(Unavailable(NoVerifiedNumber)))
    else if s.optedOut || s.consent == Revoked || !s.contactActive then
      (WithFollowup(s, BlockedConsent), Ok(Unavailable(ConsentRevoked)))
    else if s.consent != Granted && !(agreed && s.policy.agreementCounts) then
      (WithFollowup(s, BlockedConsent), Ok(Unavailable(ConsentRequired)))
    else if s.policy.sendsWhen == IntakeSaved then (Enqueued(Agreed(s), InCallRequest), Ok(FollowupQueued))
    else (Agreed(s), Ok(FollowupDeferred))
  }

  /** record_intake_followup, the worker's report. */
  function FollowupReported(s: Session, status: Followup): (r: (Session, Result<Answer>))
    ensures OnlyFollowup(s, r.0)
  {
    if status == NotRequested || status == Requested || status == Queued then (s, Raised(UnsupportedStatus))
    else (WithFollowup(s, status).(tickets := OnCarrier(s.tickets, T.RecordFollowup(status == Admitted))), Ok(Saved))
  }

  /** attach_message_to_intake for a new message. */
  function Attached(s: Session): (r: Session)
    ensures OnlyFollowup(s, r)
  {
    s.(tickets := OnCarrier(s.tickets, T.AttachReply))
  }

  // ---- the contact's consent ----------------------------------------------------------------------

  /** A WhatsApp message from the contact: writing counts as consent unless the contact opted out. */
  function MessageReceived(s: Session): Session {
    if s.consent == Unknown && !s.optedOut then s.(consent := Granted) else s
  }

  /** setWhatsAppConsent, the only writer of the time of the opt-out. */
  function ConsentSet(s: Session, consent: Consent): Session {
    match consent
    case Revoked => s.(consent := Revoked, optedOut := true)
    case Granted => s.(consent := Granted, optedOut := false)
    case Unknown => s.(consent := Unknown)
  }

  // ---- settle_voice_inquiry -----------------------------------------------------------------------

  function TicketsSettled(s: Session): seq<TicketRow> {
    match Find(s.tickets, VoiceSession)
    case None => s.tickets
    case Some(k) =>
      if s.tickets[k].ticket.open then WithTicket(s.tickets, k, T.Settled(s.tickets[k].ticket, s.cases != [])) else s.tickets
  }

  function EndCall(s: Session, at: Situation): (r: Session)
    ensures OnlyFollowup(s, r)
  {
    if !s.live then s
    else
      var ended := s.(live := false, tickets := TicketsSettled(s));
      if s.drafts == [] || !s.policy.followUp then ended
      else if s.drafts[0].followup == Requested then Enqueued(ended, AtCallEnd)
      else if s.drafts[0].followup == NotRequested && s.policy.sendsWhen == CallEnded
              && s.consent == Granted && !s.optedOut && at.callerIdentity then Enqueued(ended, AtCallEnd)
      else ended
  }

  // ---- the rows of a session ------------------------------------------------------------------------

  class VoiceInquiry {
    const policy: Policy
    var hasContact: bool
    var live: bool
    var aiMode: bool
    var drafts: seq<Draft>
    var tickets: seq<TicketRow>
    var cases: seq<CaseRow>
    var jobs: seq<Job>
    var consent: Consent
    var optedOut: bool
    var contactActive: bool
    var emergencyEvent: bool

    ghost function State(): Session
      reads this
    {
      Session(policy, hasContact, live, aiMode, drafts, tickets, cases, jobs, consent, optedOut, contactActive, emergencyEvent)
    }

    method CheckContext(at: Situation) returns (error: Option<Error>)
      ensures error == ContextError(State(), at)
    {
      if !at.available || !at.ticketsEnabled { return Some(ServiceUnavailable); }
      if !hasContact { return Some(VerifiedCallerRequired); }
      if !at.agentPublished { return Some(CapabilityRequired); }
      error := None;
    }

    method OpenInquiry(at: Situation) returns (r: Result<Answer>)
      modifies this
      ensures (State(), r) == Open(old(State()), at)
    {
      var error := CheckContext(at);
      if error.Some? { return Raised(error.value); }
      if !policy.openOnFirstContact { return Ok(NotConfigured); }
      if !at.verified { return Ok(IdentityRequired); }
      var savedDrafts, savedTickets := drafts, tickets;
      if drafts == [] {
        drafts := [NewDraft(at.prefill, Collecting)];
      }
      if Find(tickets, VoiceSession) == None {
        tickets := tickets + [TicketRow(VoiceSession, None, T.OPENED)];
      }
      var k := Find(tickets, VoiceSession).value;
      if tickets[k].intake == None {
        if IntakeTaken(tickets, k) {
          drafts, tickets := savedDrafts, savedTickets;
          return Raised(DuplicateTicketIntake);
        }
        tickets := tickets[k := tickets[k].(intake := Some(0))];
      }
      r := Ok(InquiryOpen);
    }

    method Enqueue(cause: Cause)
      modifies this
      ensures State() == Enqueued(old(State()), cause)
    {
      if jobs == [] && drafts != [] {
        jobs := [Job(0, cause)];
        if drafts[0].followup == NotRequested || drafts[0].followup == Requested {
          drafts := drafts[0 := drafts[0].(followup := Queued)];
        }
        assert State() == WithJob(old(State()), cause);
        tickets := OnCarrier(tickets, T.QueueFollowup);
      }
    }

    method AskFollowup(at: Situation, agreed: bool) returns (r: Result<Answer>)
      modifies this
      ensures (State(), r) == RequestFollowup(old(State()), at, agreed)
    {
      var error := CheckContext(at);
      if error.Some? { return Raised(error.value); }
      if !at.verified || !live || !aiMode { return Raised(AgentNotPermitted); }
      if !policy.followUp { return Ok(Unavailable(NotConfiguredHere)); }
      if !at.whatsapp { return Ok(Unavailable(WhatsappDisabled)); }
      if drafts == [] { return Raised(IntakeFirst); }
      if !at.callerIdentity {
        drafts := drafts[0 := drafts[0].(followup := NoRecipient)];
        return Ok(Unavailable(NoVerifiedNumber));
      }
      if optedOut || consent == Revoked || !contactActive {
        drafts := drafts[0 := drafts[0].(followup := BlockedConsent)];
        return Ok(Unavailable(ConsentRevoked));
      }
      if consent != Granted {
        if agreed && policy.agreementCounts {
          consent := Granted;
        } else {
          drafts := drafts[0 := drafts[0].(followup := BlockedConsent)];
          return Ok(Unavailable(ConsentRequired));
        }
      }
      var before := drafts[0].followup;
      if before == NotRequested || before == BlockedConsent || before == NoRecipient {
        drafts := drafts[0 := drafts[0].(followup := Requested)];
      } else {
        assert drafts[0 := drafts[0].(followup := before)] == drafts;
      }
      if policy.sendsWhen == IntakeSaved {
        Enqueue(InCallRequest);
        return Ok(FollowupQueued);
      }
      r := Ok(FollowupDeferred);
    }

    method Settle(at: Situation)
      modifies this
      ensures State() == EndCall(old(State()), at)
    {
      if live {
        live := false;
        var k := Find(tickets, VoiceSession);
        if k.Some? && tickets[k.value].ticket.open {
          tickets := WithTicket(tickets, k.value, T.Settled(tickets[k.value].ticket, cases != []));
        }
        if drafts != [] && policy.followUp {
          if drafts[0].followup == Requested {
            Enqueue(AtCallEnd);
          } else if drafts[0].followup == NotRequested && policy.sendsWhen == CallEnded {
            if consent == Granted && !optedOut && at.callerIdentity {
              Enqueue(AtCallEnd);
            }
          }
        }
      }
    }

    /** Saves the draft and shows it on the ticket; the missing fields. */
    method SaveCaptured(at: Situation, request: Request) returns (r: Result<seq<string>>)
      modifies this
      ensures match SaveFields(old(State()), at, request)
              case Raised(error) => r == Raised(error) && State() == old(State())
              case Ok((saved, missing)) => r == Ok(missing) && State() == saved
    {
      var known := at.prefill + if drafts == [] then map[] else drafts[0].fields;
      var merged := F.Merge(known, request.fields);
      if merged.Raised? { return Raised(FieldError(merged.error)); }
      var stored := F.WithStore(merged.value.0, at.directory);
      if stored.Raised? { return Raised(FieldError(stored.error)); }
      var missing := F.Missing(stored.value, policy.required);
      var shown := TicketsAfterCapture(tickets, stored.value, merged.value.1 != []);
      if shown == None { return Raised(DuplicateTicketIntake); }
      var status := if missing == [] then AwaitingConfirmation else Collecting;
      if drafts == [] {
        drafts := [NewDraft(stored.value, status)];
      } else {
        drafts := drafts[0 := drafts[0].(fields := stored.value, status := status)];
      }
      tickets := shown.value;
      r := Ok(missing);
    }

    method CaptureIntake(at: Situation, request: Request) returns (r: Result<Answer>)
      modifies this
      ensures (State(), r) == Capture(old(State()), at, request)
    {
      var error := CheckContext(at);
      if error.Some? { return Raised(error.value); }
      if !at.verified { return Raised(IdentityFirst); }
      if !live || !aiMode { return Raised(AgentNotPermitted); }
      if cases != [] { return Ok(CaseAlreadyOpen); }
      if request.oversized { return Raised(InvalidFields); }
      var emergency := Emergency(tickets);
      var savedDrafts, savedTickets := drafts, tickets;
      var missing := SaveCaptured(at, request);
      if missing.Raised? { return Raised(missing.error); }
      if !request.confirmed || missing.value != [] { return Ok(Saved); }
      if policy.photoRequired && !at.photo { return Ok(PhotosMissing); }
      if drafts == [] || !F.NonBlank(drafts[0].fields, "faultDescription") {
        drafts, tickets := savedDrafts, savedTickets;
        return Raised(FaultRequired);
      }
      cases := cases + [CaseRow(0, if emergency then Urgent else UrgencyOf(drafts[0].fields).GetOr(Normal))];
      tickets := TicketsAfterCase(tickets);
      drafts := drafts[0 := drafts[0].(status := Confirmed)];
      r := Ok(CaseOpened);
    }

    method UpdateFromChat(chat: Chat, proposal: F.Proposal, nationalId: bool) returns (r: Result<Answer>)
      modifies this
      ensures (State(), r) == ChatUpdated(old(State()), chat, proposal, nationalId)
    {
      if !chat.enabled { return Raised(ChatDisabled); }
      if drafts == [] || (drafts[0].status != Collecting && drafts[0].status != AwaitingConfirmation) {
        return Raised(OpenIntakeNotFound);
      }
      var fields := drafts[0].fields + F.Sanitized(proposal);
      var protected := drafts[0].nationalId || nationalId;
      var ready := chat.resolved && (!policy.photoRequired || chat.photo)
                   && F.CompleteInChat(fields, protected, policy.required, drafts[0].waived);
      drafts := drafts[0 := drafts[0].(fields := fields, nationalId := protected,
                                       status := if ready then AwaitingConfirmation else Collecting)];
      r := Ok(Saved);
    }

    method ConfirmFromChat(chat: Chat) returns (r: Result<Answer>)
      modifies this
      ensures (State(), r) == ChatConfirmed(old(State()), chat)
    {
      if !chat.enabled { return Raised(ChatDisabled); }
      if cases != [] { return Ok(CaseAlreadyOpen); }
      if drafts == [] { return Raised(OpenIntakeNotFound); }
      var draft := drafts[0];
      if !F.CompleteInChat(draft.fields, draft.nationalId, policy.required, draft.waived) { return Raised(IntakeIncomplete); }
      if policy.photoRequired && !chat.photo { return Raised(PhotoRequired); }
      if !chat.resolved { return Raised(ReviewRequired); }
      if "storeId" in draft.fields && draft.fields["storeId"] !in chat.directory { return Raised(StoreNotFound); }
      if !chat.ticketsEnabled { return Raised(ServiceUnavailable); }
      if !CaseHasText(draft.fields) { return Raised(FaultRequired); }
      cases := [CaseRow(0, Normal)];
      tickets := TicketsAfterCase(tickets);
      drafts := drafts[0 := draft.(status := Confirmed)];
      r := Ok(CaseOpened);
    }
  }

  // ---- runs ---------------------------------------------------------------------------------------

  datatype Step =
    | OpenStep(at: Situation)
    | CaptureStep(at: Situation, request: Request)
    | EscalateStep(at: Situation, marker: T.Marker, reason: string)
    | OutcomeStep(outcome: Option<T.Outcome>)
    | RequestStep(at: Situation, agreed: bool)
    | ReportStep(status: Followup)
    | AttachStep
    | EndStep(at: Situation)
    | TicketStep(k: nat, act: T.Step)
    | ChatStep(chat: Chat, proposal: F.Proposal, nationalId: bool)
    | WaiveStep(field: string)
    | HandOffStep
    | ConfirmStep(chat: Chat)
    | TakeOver
    | MessageStep
    | ConsentStep(consent: Consent)

  /** What staff, workers and the customer do to a ticket outside the functions of the call. */
  predicate FromOutside(act: T.Step) {
    || act.Append? || act.Mark? || act.SetHandling? || act.Close? || act.Reopen?
    || act.ApplyOutcome? || act.RecordWrapUp? || act.Answer? || act.EditSummary?
  }

  function Outside(s: Session, k: nat, act: T.Step): Session {
    if k < |s.tickets| && FromOutside(act) then s.(tickets := WithTicket(s.tickets, k, T.Apply(s.tickets[k].ticket, act))) else s
  }

  /** The step is a function of the call or of its follow-up. */
  predicate OfCall(step: Step) {
    || step.OpenStep? || step.CaptureStep? || step.EscalateStep? || step.OutcomeStep?
    || step.RequestStep? || step.ReportStep? || step.AttachStep? || step.EndStep?
  }

  function InCall(s: Session, step: Step): Session
    requires OfCall(step)
  {
    match step
    case OpenStep(at) => Open(s, at).0
    case CaptureStep(at, request) => Capture(s, at, request).0
    case EscalateStep(at, marker, reason) => Escalate(s, at, marker, reason).0
    case OutcomeStep(outcome) => RecordEscalation(s, outcome).0
    case RequestStep(at, agreed) => RequestFollowup(s, at, agreed).0
    case ReportStep(status) => FollowupReported(s, status).0
    case AttachStep => Attached(s)
    case EndStep(at) => EndCall(s, at)
  }

  function Elsewhere(s: Session, step: Step): Session
    requires !OfCall(step)
  {
    match step
    case TicketStep(k, act) => Outside(s, k, act)
    case ChatStep(chat, proposal, nationalId) => ChatUpdated(s, chat, proposal, nationalId).0
    case WaiveStep(field) => Waived(s, field)
    case HandOffStep => HandedOver(s)
    case ConfirmStep(chat) => ChatConfirmed(s, chat).0
    case TakeOver => s.(aiMode := false)
    case MessageStep => MessageReceived(s)
    case ConsentStep(consent) => ConsentSet(s, consent)
  }

  function Apply(s: Session, step: Step): Session {
    if OfCall(step) then InCall(s, step) else Elsewhere(s, step)
  }

  function Run(s: Session, steps: seq<Step>): Session
    decreases |steps|
  {
    if steps == [] then s else Apply(Run(s, steps[..|steps| - 1]), steps[|steps| - 1])
  }

  /** A call that has just been admitted. */
  predicate Fresh(s: Session) {
    s.drafts == [] && s.tickets == [] && s.cases == [] && s.jobs == []
  }
}
