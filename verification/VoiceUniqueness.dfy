/** How many drafts, tickets, cases and jobs a call can have, and what that costs an escalation. */
module VoiceUniqueness {
  import opened Common
  import opened FieldService
  import opened VoiceIntake
  import F = IntakeFields
  import T = TicketTimeline

  // ---- one of each ----------------------------------------------------------------------------------

  /** Keys and carried drafts are unique, a case's ticket has a case and a carried draft exists. */
  predicate RowsUnique(tickets: seq<TicketRow>, hasDraft: bool, hasCase: bool) {
    && (forall i, j :: 0 <= i < j < |tickets| ==>
         tickets[i].key != tickets[j].key && !(tickets[i].intake.Some? && tickets[j].intake.Some?))
    && forall i :: 0 <= i < |tickets| ==>
         && (tickets[i].key == ServiceCase ==> hasCase)
         && (tickets[i].intake.Some? ==> hasDraft && tickets[i].intake.value == 0)
  }

  predicate OneOfEach(s: Session) {
    && |s.drafts| <= 1 && |s.cases| <= 1 && |s.jobs| <= 1
    && (s.cases != [] ==> s.drafts != [] && s.drafts[0].status == Confirmed && s.cases[0].draft == 0)
    && (s.jobs != [] ==> s.drafts != [] && s.jobs[0].draft == 0)
    && RowsUnique(s.tickets, s.drafts != [], s.cases != [])
  }

  /** Two keys make at most two tickets. */
  lemma AtMostTwoTickets(tickets: seq<TicketRow>, hasDraft: bool, hasCase: bool)
    requires RowsUnique(tickets, hasDraft, hasCase)
    ensures |tickets| <= 2
  {
    if |tickets| > 2 {
      ThreeKeysRepeat(tickets[0].key, tickets[1].key, tickets[2].key);
    }
  }

  lemma ThreeKeysRepeat(a: Key, b: Key, c: Key)
    ensures a == b || b == c || a == c
  {
  }

  lemma WithTicketUnique(tickets: seq<TicketRow>, k: nat, t: T.Ticket, hasDraft: bool, hasCase: bool)
    requires k < |tickets| && RowsUnique(tickets, hasDraft, hasCase)
    ensures RowsUnique(WithTicket(tickets, k, t), hasDraft, hasCase)
  {
  }

  lemma LinkedUnique(tickets: seq<TicketRow>, k: nat, hasDraft: bool, hasCase: bool)
    requires k < |tickets| && RowsUnique(tickets, hasDraft, hasCase) && Linked(tickets, k).Some?
    ensures RowsUnique(Linked(tickets, k).value, true, hasCase)
  {
  }

  lemma VoiceTicketUnique(tickets: seq<TicketRow>, hasDraft: bool, hasCase: bool)
    requires RowsUnique(tickets, hasDraft, hasCase)
    ensures RowsUnique(WithVoiceTicket(tickets), hasDraft, hasCase)
  {
  }

  lemma OpenKeepsOne(s: Session, at: Situation)
    requires OneOfEach(s)
    ensures OneOfEach(Open(s, at).0)
  {
    if Open(s, at).0 != s {
      var tickets := WithVoiceTicket(s.tickets);
      VoiceTicketUnique(s.tickets, s.drafts != [], s.cases != []);
      LinkedUnique(tickets, Find(tickets, VoiceSession).value, s.drafts != [], s.cases != []);
    }
  }

  lemma CaseUnique(tickets: seq<TicketRow>)
    requires RowsUnique(tickets, true, false)
    ensures RowsUnique(TicketsAfterCase(tickets), true, true)
  {
  }

  lemma SaveKeepsOne(s: Session, at: Situation, r: Request)
    requires OneOfEach(s) && s.cases == [] && SaveFields(s, at, r).Ok?
    ensures OneOfEach(SaveFields(s, at, r).value.0) && SaveFields(s, at, r).value.0.cases == []
    ensures SaveFields(s, at, r).value.0.drafts != []
  {
  }

  lemma CaptureKeepsOne(s: Session, at: Situation, r: Request)
    requires OneOfEach(s)
    ensures OneOfEach(Capture(s, at, r).0)
  {
    if Capture(s, at, r).0 != s {
      SaveKeepsOne(s, at, r);
      CaseUnique(SaveFields(s, at, r).value.0.tickets);
    }
  }

  lemma EscalateKeepsOne(s: Session, at: Situation, m: T.Marker, reason: string)
    requires OneOfEach(s)
    ensures OneOfEach(Escalate(s, at, m, reason).0)
  {
    var after := Escalate(s, at, m, reason).0;
    if after.tickets != s.tickets {
      var added := WithVoiceTicket(s.tickets);
      var k := Find(added, VoiceSession).value;
      VoiceTicketUnique(s.tickets, s.drafts != [], s.cases != []);
      var rows := if added == s.tickets || s.drafts == [] then added else Linked(added, k).value;
      if added != s.tickets && s.drafts != [] { LinkedUnique(added, k, s.drafts != [], s.cases != []); }
      WithTicketUnique(rows, k, T.Marked(rows[k].ticket, m, reason, Some(T.Voice)).0, s.drafts != [], s.cases != []);
    }
  }

  lemma FollowupKeepsOne(s: Session, followup: Followup)
    requires OneOfEach(s)
    ensures OneOfEach(WithFollowup(s, followup)) && WithFollowup(s, followup).tickets == s.tickets
  {
  }

  lemma CarrierKeepsOne(s: Session, step: T.Step)
    requires OneOfEach(s)
    ensures OneOfEach(s.(tickets := OnCarrier(s.tickets, step)))
  {
  }

  lemma EnqueueKeepsOne(s: Session, cause: Cause)
    requires OneOfEach(s)
    ensures OneOfEach(Enqueued(s, cause))
  {
  }

  lemma AgreementKeepsOne(s: Session)
    requires OneOfEach(s) && s.drafts != []
    ensures OneOfEach(Agreed(s))
  {
  }

  lemma RequestKeepsOne(s: Session, at: Situation, agreed: bool)
    requires OneOfEach(s)
    ensures OneOfEach(RequestFollowup(s, at, agreed).0)
  {
    FollowupKeepsOne(s, NoRecipient);
    FollowupKeepsOne(s, BlockedConsent);
    if s.drafts != [] {
      AgreementKeepsOne(s);
      EnqueueKeepsOne(Agreed(s), InCallRequest);
    }
  }

  lemma EndKeepsOne(s: Session, at: Situation)
    requires OneOfEach(s)
    ensures OneOfEach(EndCall(s, at))
  {
    var k := Find(s.tickets, VoiceSession);
    if k.Some? {
      WithTicketUnique(s.tickets, k.value, T.Settled(s.tickets[k.value].ticket, s.cases != []), s.drafts != [], s.cases != []);
    }
    EnqueueKeepsOne(s.(live := false, tickets := TicketsSettled(s)), AtCallEnd);
  }

  lemma ReportKeepsOne(s: Session, status: Followup)
    requires OneOfEach(s)
    ensures OneOfEach(FollowupReported(s, status).0)
  {
    FollowupKeepsOne(s, status);
    CarrierKeepsOne(WithFollowup(s, status), T.RecordFollowup(status == Admitted));
  }

  lemma OutcomeKeepsOne(s: Session, outcome: Option<T.Outcome>)
    requires OneOfEach(s)
    ensures OneOfEach(RecordEscalation(s, outcome).0)
  {
  }

  lemma OutsideKeepsOne(s: Session, k: nat, act: T.Step)
    requires OneOfEach(s)
    ensures OneOfEach(Outside(s, k, act))
  {
  }

  lemma AttachKeepsOne(s: Session)
    requires OneOfEach(s)
    ensures OneOfEach(Attached(s))
  {
    CarrierKeepsOne(s, T.AttachReply);
  }

  lemma ChatKeepsOne(s: Session, chat: Chat, proposal: F.Proposal, nationalId: bool)
    requires OneOfEach(s)
    ensures OneOfEach(ChatUpdated(s, chat, proposal, nationalId).0)
  {
  }

  lemma WaiverKeepsOne(s: Session, field: string)
    requires OneOfEach(s)
    ensures OneOfEach(Waived(s, field)) && OneOfEach(HandedOver(s))
  {
  }

  lemma ConfirmKeepsOne(s: Session, chat: Chat)
    requires OneOfEach(s)
    ensures OneOfEach(ChatConfirmed(s, chat).0)
  {
    if ChatConfirmed(s, chat).0 != s {
      CaseUnique(s.tickets);
    }
  }

  predicate SameRows(s: Session, r: Session) {
    r.drafts == s.drafts && r.tickets == s.tickets && r.cases == s.cases && r.jobs == s.jobs
  }

  lemma NoRowsChange(s: Session, step: Step)
    requires step.TakeOver? || step.MessageStep? || step.ConsentStep?
    ensures SameRows(s, Elsewhere(s, step))
  {
  }

  lemma InCallKeepsOne(s: Session, step: Step)
    requires OneOfEach(s) && OfCall(step)
    ensures OneOfEach(InCall(s, step))
  {
    match step
    case OpenStep(at) => OpenKeepsOne(s, at);
    case CaptureStep(at, request) => CaptureKeepsOne(s, at, request);
    case EscalateStep(at, marker, reason) => EscalateKeepsOne(s, at, marker, reason);
    case OutcomeStep(outcome) => OutcomeKeepsOne(s, outcome);
    case RequestStep(at, agreed) => RequestKeepsOne(s, at, agreed);
    case ReportStep(status) => ReportKeepsOne(s, status);
    case AttachStep => AttachKeepsOne(s);
    case EndStep(at) => EndKeepsOne(s, at);
  }

  lemma ElsewhereKeepsOne(s: Session, step: Step)
    requires OneOfEach(s) && !OfCall(step)
    ensures OneOfEach(Elsewhere(s, step))
  {
    match step
    case TicketStep(k, act) => OutsideKeepsOne(s, k, act);
    case ChatStep(chat, proposal, nationalId) => ChatKeepsOne(s, chat, proposal, nationalId);
    case WaiveStep(field) => WaiverKeepsOne(s, field);
    case HandOffStep => WaiverKeepsOne(s, "");
    case ConfirmStep(chat) => ConfirmKeepsOne(s, chat);
    case _ => NoRowsChange(s, step);
  }

  lemma StepKeepsOne(s: Session, step: Step)
    requires OneOfEach(s)
    ensures OneOfEach(Apply(s, step))
  {
    if OfCall(step) {
      InCallKeepsOne(s, step);
    } else {
      ElsewhereKeepsOne(s, step);
    }
  }

  /** In every run of a call, staff and the customer included: at most one draft, one case and one follow-up job, at most one
      ticket under each key, and at most one ticket that carries the draft. */
  lemma {:induction false} RunsKeepOne(s: Session, steps: seq<Step>)
    requires Fresh(s)
    ensures OneOfEach(Run(s, steps)) && |Run(s, steps).tickets| <= 2
    decreases |steps|
  {
    if steps != [] {
      RunsKeepOne(s, steps[..|steps| - 1]);
      StepKeepsOne(Run(s, steps[..|steps| - 1]), steps[|steps| - 1]);
      AtMostTwoTickets(Run(s, steps).tickets, Run(s, steps).drafts != [], Run(s, steps).cases != []);
    }
  }

  // ---- one ticket -----------------------------------------------------------------------------------

  /** The one ticket is open, and it is the case's once there is a case. */
  predicate OneOpenTicket(s: Session) {
    && |s.tickets| <= 1
    && (s.tickets != [] ==> s.tickets[0].ticket.open)
    && (s.tickets != [] && s.cases == [] ==> s.tickets[0].key == VoiceSession && !s.tickets[0].ticket.caseLinked)
    && (s.cases != [] ==> s.drafts != [] && s.tickets != [] && s.tickets[0].intake.Some?)
  }

  /** Somebody closes a ticket of the session: staff, or the customer whose answer is that the issue is solved. */
  predicate Closes(s: Session, step: Step) {
    && step.TicketStep? && step.k < |s.tickets|
    && (step.act.Close? || (step.act.Answer? && step.act.intent == T.ConfirmedResolved && T.Waiting(s.tickets[step.k].ticket)))
  }

  lemma OpenKeepsTicket(s: Session, at: Situation)
    requires OneOpenTicket(s)
    ensures OneOpenTicket(Open(s, at).0)
  {
  }

  lemma EscalateKeepsTicket(s: Session, at: Situation, m: T.Marker, reason: string)
    requires OneOpenTicket(s)
    ensures OneOpenTicket(Escalate(s, at, m, reason).0)
  {
    var tickets := WithVoiceTicket(s.tickets);
    var k := Find(tickets, VoiceSession).value;
    if s.cases != [] && |tickets| == 2 {
      assert tickets[0].intake.Some? && k == 1;
    }
  }

  lemma SaveKeepsTicket(s: Session, at: Situation, r: Request)
    requires OneOpenTicket(s) && s.cases == [] && SaveFields(s, at, r).Ok?
    ensures OneOpenTicket(SaveFields(s, at, r).value.0)
    ensures SaveFields(s, at, r).value.0.cases == [] && SaveFields(s, at, r).value.0.drafts != []
  {
  }

  lemma CaseKeepsTicket(tickets: seq<TicketRow>)
    requires |tickets| <= 1
    requires tickets != [] ==> tickets[0].ticket.open && tickets[0].key == VoiceSession && !tickets[0].ticket.caseLinked
    ensures |TicketsAfterCase(tickets)| == 1
    ensures TicketsAfterCase(tickets)[0].ticket.open && TicketsAfterCase(tickets)[0].intake.Some?
  {
  }

  lemma CaptureKeepsTicket(s: Session, at: Situation, r: Request)
    requires OneOpenTicket(s)
    ensures OneOpenTicket(Capture(s, at, r).0)
  {
    if Capture(s, at, r).0 != s {
      SaveKeepsTicket(s, at, r);
      CaseKeepsTicket(SaveFields(s, at, r).value.0.tickets);
    }
  }

  lemma OneTicketChangedKeepsTicket(s: Session, k: nat, step: T.Step)
    requires OneOpenTicket(s) && k < |s.tickets| && T.Apply(s.tickets[k].ticket, step).open && !step.LinkCase?
    ensures OneOpenTicket(s.(tickets := WithTicket(s.tickets, k, T.Apply(s.tickets[k].ticket, step))))
  {
  }

  lemma CarrierKeepsTicket(s: Session, step: T.Step)
    requires OneOpenTicket(s) && !step.Close? && !step.Answer? && !step.LinkCase?
    ensures OneOpenTicket(s.(tickets := OnCarrier(s.tickets, step)))
  {
    var k := FindIntake(s.tickets);
    if k.Some? { OneTicketChangedKeepsTicket(s, k.value, step); }
  }

  lemma EnqueueKeepsTicket(s: Session, cause: Cause)
    requires OneOpenTicket(s)
    ensures OneOpenTicket(Enqueued(s, cause))
  {
  }

  lemma FollowupKeepsTicket(s: Session, followup: Followup)
    requires OneOpenTicket(s)
    ensures OneOpenTicket(WithFollowup(s, followup)) && WithFollowup(s, followup).tickets == s.tickets
  {
  }

  lemma AgreementKeepsTicket(s: Session)
    requires OneOpenTicket(s) && s.drafts != []
    ensures OneOpenTicket(Agreed(s))
  {
  }

  lemma RequestKeepsTicket(s: Session, at: Situation, agreed: bool)
    requires OneOpenTicket(s)
    ensures OneOpenTicket(RequestFollowup(s, at, agreed).0)
  {
    FollowupKeepsTicket(s, NoRecipient);
    FollowupKeepsTicket(s, BlockedConsent);
    if s.drafts != [] {
      AgreementKeepsTicket(s);
      EnqueueKeepsTicket(Agreed(s), InCallRequest);
    }
  }

  lemma OutcomeKeepsTicket(s: Session, outcome: Option<T.Outcome>)
    requires OneOpenTicket(s)
    ensures OneOpenTicket(RecordEscalation(s, outcome).0)
  {
  }

  lemma ReportKeepsTicket(s: Session, status: Followup)
    requires OneOpenTicket(s)
    ensures OneOpenTicket(FollowupReported(s, status).0)
  {
  }

  /** A ticket stays open unless it is closed. */
  lemma OnlyClosingCloses(t: T.Ticket, step: T.Step)
    requires t.open
    ensures !T.Apply(t, step).open <==> step.Close? || (step.Answer? && step.intent == T.ConfirmedResolved && T.Waiting(t))
  {
  }

  lemma OutsideKeepsTicketIff(s: Session, k: nat, act: T.Step)
    requires OneOpenTicket(s)
    ensures OneOpenTicket(Outside(s, k, act)) <==> !Closes(s, TicketStep(k, act))
  {
    if k < |s.tickets| && FromOutside(act) {
      OnlyClosingCloses(s.tickets[k].ticket, act);
      if !Closes(s, TicketStep(k, act)) {
        OneTicketChangedKeepsTicket(s, k, act);
      }
    }
  }

  lemma EndKeepsTicket(s: Session, at: Situation)
    requires OneOpenTicket(s)
    ensures OneOpenTicket(EndCall(s, at))
  {
    var ended := s.(live := false, tickets := TicketsSettled(s));
    var k := Find(s.tickets, VoiceSession);
    if k.Some? {
      OneTicketChangedKeepsTicket(s, k.value, T.Settle(s.cases != []));
    }
    assert OneOpenTicket(ended);
    EnqueueKeepsTicket(ended, AtCallEnd);
  }

  lemma AttachKeepsTicket(s: Session)
    requires OneOpenTicket(s)
    ensures OneOpenTicket(Attached(s))
  {
    CarrierKeepsTicket(s, T.AttachReply);
  }

  lemma ChatKeepsTicket(s: Session, chat: Chat, proposal: F.Proposal, nationalId: bool)
    requires OneOpenTicket(s)
    ensures OneOpenTicket(ChatUpdated(s, chat, proposal, nationalId).0)
  {
  }

  lemma WaiverKeepsTicket(s: Session, field: string)
    requires OneOpenTicket(s)
    ensures OneOpenTicket(Waived(s, field)) && OneOpenTicket(HandedOver(s))
  {
  }

  lemma ConfirmKeepsTicket(s: Session, chat: Chat)
    requires OneOpenTicket(s)
    ensures OneOpenTicket(ChatConfirmed(s, chat).0)
  {
    if ChatConfirmed(s, chat).0 != s {
      CaseKeepsTicket(s.tickets);
    }
  }

  lemma InCallKeepsTicket(s: Session, step: Step)
    requires OneOpenTicket(s) && OfCall(step)
    ensures OneOpenTicket(InCall(s, step))
  {
    match step
    case OpenStep(at) => OpenKeepsTicket(s, at);
    case CaptureStep(at, request) => CaptureKeepsTicket(s, at, request);
    case EscalateStep(at, marker, reason) => EscalateKeepsTicket(s, at, marker, reason);
    case OutcomeStep(outcome) => OutcomeKeepsTicket(s, outcome);
    case RequestStep(at, agreed) => RequestKeepsTicket(s, at, agreed);
    case ReportStep(status) => ReportKeepsTicket(s, status);
    case AttachStep => AttachKeepsTicket(s);
    case EndStep(at) => EndKeepsTicket(s, at);
  }

  lemma ElsewhereKeepsTicketIff(s: Session, step: Step)
    requires OneOpenTicket(s) && !OfCall(step)
    ensures OneOpenTicket(Elsewhere(s, step)) <==> !Closes(s, step)
  {
    match step
    case TicketStep(k, act) => OutsideKeepsTicketIff(s, k, act);
    case ChatStep(chat, proposal, nationalId) => ChatKeepsTicket(s, chat, proposal, nationalId);
    case WaiveStep(field) => WaiverKeepsTicket(s, field);
    case HandOffStep => WaiverKeepsTicket(s, "");
    case ConfirmStep(chat) => ConfirmKeepsTicket(s, chat);
    case _ => NoRowsChange(s, step);
  }

  lemma StepKeepsTicketIff(s: Session, step: Step)
    requires OneOpenTicket(s)
    ensures OneOpenTicket(Apply(s, step)) <==> !Closes(s, step)
  {
    if OfCall(step) {
      InCallKeepsTicket(s, step);
    } else {
      ElsewhereKeepsTicketIff(s, step);
    }
  }

  predicate ClosesSometime(s: Session, steps: seq<Step>)
    decreases |steps|
  {
    steps != []
    && (Closes(Run(s, steps[..|steps| - 1]), steps[|steps| - 1]) || ClosesSometime(s, steps[..|steps| - 1]))
  }

  /** Every state of the run has one open ticket at most. */
  predicate AlwaysOneTicket(s: Session, steps: seq<Step>)
    decreases |steps|
  {
    OneOpenTicket(Run(s, steps)) && (steps != [] ==> AlwaysOneTicket(s, steps[..|steps| - 1]))
  }

  /** Throughout a run of a call there is at most one ticket, open, and the case's once there is a case, if
      and only if nobody closes it: no staff, and no customer by the answer that the issue is solved. */
  lemma {:induction false} RunsKeepOneTicketIff(s: Session, steps: seq<Step>)
    requires Fresh(s)
    ensures AlwaysOneTicket(s, steps) <==> !ClosesSometime(s, steps)
    decreases |steps|
  {
    if steps != [] {
      var before := Run(s, steps[..|steps| - 1]);
      RunsKeepOneTicketIff(s, steps[..|steps| - 1]);
      if OneOpenTicket(before) {
        StepKeepsTicketIff(before, steps[|steps| - 1]);
      }
    }
  }

  // ---- escalation after a case ------------------------------------------------------------------------

  /** The checks of an escalation pass. */
  predicate MayEscalate(s: Session, at: Situation, reason: string) {
    at.available && at.emergencyEnabled && at.agentPublished && s.live && s.aiMode && 1 <= |Trim(reason)| <= 500 && s.hasContact
  }

  /** An escalation that passes its checks fails on the unique index if and only if the session has a draft
      but no voice ticket, and another ticket already carries the draft: the emergency is not marked. */
  lemma EscalationIsRejectedIff(s: Session, at: Situation, m: T.Marker, reason: string)
    requires MayEscalate(s, at, reason)
    ensures Escalate(s, at, m, reason) == (s, Raised(DuplicateTicketIntake))
            <==> Find(s.tickets, VoiceSession) == None && s.drafts != []
                 && exists i :: 0 <= i < |s.tickets| && s.tickets[i].intake.Some?
  {
  }

  /** A caller whose first confirmed capture opened a case, with no inquiry opened before, cannot escalate
      an emergency any more. */
  lemma CaseWithoutInquiryBlocksEmergency(s: Session, at: Situation, r: Request, later: Situation, m: T.Marker, reason: string)
    requires Fresh(s) && Capture(s, at, r).1 == Ok(CaseOpened) && MayEscalate(Capture(s, at, r).0, later, reason)
    ensures Escalate(Capture(s, at, r).0, later, m, reason) == (Capture(s, at, r).0, Raised(DuplicateTicketIntake))
  {
    var after := Capture(s, at, r).0;
    SaveKeepsTicket(s, at, r);
    var saved := SaveFields(s, at, r).value.0;
    assert saved.tickets == [];
    assert after.tickets == TicketsAfterCase([]);
    assert TicketsAfterCase([]) == [TicketRow(ServiceCase, Some(0), T.OPENED_FOR_CASE)];
    EscalationIsRejectedIff(after, later, m, reason);
  }
}
