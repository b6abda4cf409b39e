/** Every ticket of a call lives by the rules of a ticket, up to and after the end of the call. */
module VoiceTimelines {
  import opened Common
  import opened FieldService
  import opened VoiceIntake
  import F = IntakeFields
  import T = TicketTimeline

  // ---- every ticket of the session lives by the rules of a ticket --------------------------------------

  lemma {:induction false} RunAppended(t: T.Ticket, a: seq<T.Step>, b: seq<T.Step>)
    ensures T.Run(t, a + b) == T.Run(T.Run(t, a), b)
    decreases |b|
  {
    if b == [] {
      assert a + b == a;
    } else {
      assert (a + b)[..|a + b| - 1] == a + b[..|b| - 1];
      RunAppended(t, a, b[..|b| - 1]);
    }
  }

  lemma RunOne(t: T.Ticket, step: T.Step)
    ensures T.Run(t, [step]) == T.Apply(t, step)
  {
  }

  lemma {:induction false} ComplainsAppended(t: T.Ticket, a: seq<T.Step>, b: seq<T.Step>)
    ensures T.ComplainsSometime(t, a + b) <==> T.ComplainsSometime(t, a) || T.ComplainsSometime(T.Run(t, a), b)
    decreases |b|
  {
    if b == [] {
      assert a + b == a;
    } else {
      assert (a + b)[..|a + b| - 1] == a + b[..|b| - 1];
      ComplainsAppended(t, a, b[..|b| - 1]);
      RunAppended(t, a, b[..|b| - 1]);
    }
  }

  lemma ComplainsOne(t: T.Ticket, step: T.Step)
    ensures T.ComplainsSometime(t, [step]) <==> T.Complains(t, step)
  {
    assert [step][..0] == [] && T.Run(t, []) == t;
  }

  /** The ticket as steps of its own made it, among which the customer may complain or not. */
  ghost predicate Evolves(before: T.Ticket, after: T.Ticket, complaints: bool) {
    exists steps :: T.Run(before, steps) == after && (T.ComplainsSometime(before, steps) ==> complaints)
  }

  lemma EvolvesByNothing(t: T.Ticket)
    ensures Evolves(t, t, false)
  {
    assert T.Run(t, []) == t;
  }

  lemma EvolvesByOne(t: T.Ticket, step: T.Step)
    ensures Evolves(t, T.Apply(t, step), T.Complains(t, step))
  {
    RunOne(t, step);
    ComplainsOne(t, step);
    assert T.Run(t, [step]) == T.Apply(t, step);
  }

  lemma EvolvesOn(a: T.Ticket, b: T.Ticket, c: T.Ticket, complaints: bool)
    requires Evolves(a, b, complaints) && Evolves(b, c, complaints)
    ensures Evolves(a, c, complaints)
  {
    var first :| T.Run(a, first) == b && (T.ComplainsSometime(a, first) ==> complaints);
    var second :| T.Run(b, second) == c && (T.ComplainsSometime(b, second) ==> complaints);
    RunAppended(a, first, second);
    ComplainsAppended(a, first, second);
    assert T.Run(a, first + second) == c;
  }

  ghost predicate Started(t: T.Ticket, complaints: bool) {
    Evolves(T.OPENED, t, complaints) || Evolves(T.OPENED_FOR_CASE, t, complaints)
  }

  /** Rows keep their keys, their tickets evolve, and what is added starts as a new ticket. */
  ghost predicate RowsEvolve(before: seq<TicketRow>, after: seq<TicketRow>, complaints: bool) {
    && |before| <= |after|
    && (forall i :: 0 <= i < |before| ==>
         before[i].key == after[i].key && Evolves(before[i].ticket, after[i].ticket, complaints))
    && forall i :: |before| <= i < |after| ==> Started(after[i].ticket, complaints)
  }

  lemma WithComplaints(before: seq<TicketRow>, after: seq<TicketRow>)
    requires RowsEvolve(before, after, false)
    ensures RowsEvolve(before, after, true)
  {
  }

  lemma RowsEvolveByNothing(before: seq<TicketRow>, after: seq<TicketRow>)
    requires SameTickets(before, after)
    ensures RowsEvolve(before, after, false)
  {
    forall i | 0 <= i < |before| ensures Evolves(before[i].ticket, after[i].ticket, false) {
      EvolvesByNothing(before[i].ticket);
    }
  }

  lemma RowsEvolveByOne(tickets: seq<TicketRow>, k: nat, step: T.Step)
    requires k < |tickets|
    ensures RowsEvolve(tickets, WithTicket(tickets, k, T.Apply(tickets[k].ticket, step)), T.Complains(tickets[k].ticket, step))
  {
    EvolvesByOne(tickets[k].ticket, step);
    forall i | 0 <= i < |tickets| && i != k ensures Evolves(tickets[i].ticket, tickets[i].ticket, false) {
      EvolvesByNothing(tickets[i].ticket);
    }
  }

  lemma RowsEvolveByNew(before: seq<TicketRow>, row: TicketRow)
    requires row.ticket == T.OPENED || row.ticket == T.OPENED_FOR_CASE
    ensures RowsEvolve(before, before + [row], false)
  {
    RowsEvolveByNothing(before, before);
    EvolvesByNothing(row.ticket);
  }

  lemma RowsEvolveOn(a: seq<TicketRow>, b: seq<TicketRow>, c: seq<TicketRow>, complaints: bool)
    requires RowsEvolve(a, b, complaints) && RowsEvolve(b, c, complaints)
    ensures RowsEvolve(a, c, complaints)
  {
    forall i | 0 <= i < |a| ensures a[i].key == c[i].key && Evolves(a[i].ticket, c[i].ticket, complaints) {
      EvolvesOn(a[i].ticket, b[i].ticket, c[i].ticket, complaints);
    }
    forall i | |a| <= i < |c| ensures Started(c[i].ticket, complaints) {
      if i < |b| {
        if Evolves(T.OPENED, b[i].ticket, complaints) {
          EvolvesOn(T.OPENED, b[i].ticket, c[i].ticket, complaints);
        } else {
          EvolvesOn(T.OPENED_FOR_CASE, b[i].ticket, c[i].ticket, complaints);
        }
      }
    }
  }

  lemma VoiceTicketEvolves(tickets: seq<TicketRow>)
    ensures RowsEvolve(tickets, WithVoiceTicket(tickets), false)
  {
    if Find(tickets, VoiceSession).Some? {
      RowsEvolveByNothing(tickets, tickets);
    } else {
      RowsEvolveByNew(tickets, TicketRow(VoiceSession, None, T.OPENED));
    }
  }

  lemma OpenEvolves(s: Session, at: Situation)
    ensures RowsEvolve(s.tickets, Open(s, at).0.tickets, false)
  {
    RowsEvolveByNothing(s.tickets, s.tickets);
    var after := Open(s, at).0;
    if after != s {
      VoiceTicketEvolves(s.tickets);
      RowsEvolveByNothing(WithVoiceTicket(s.tickets), after.tickets);
      RowsEvolveOn(s.tickets, WithVoiceTicket(s.tickets), after.tickets, false);
    }
  }

  lemma CaptureShowsEvolve(tickets: seq<TicketRow>, fields: F.Fields, changed: bool)
    requires TicketsAfterCapture(tickets, fields, changed).Some?
    ensures RowsEvolve(tickets, TicketsAfterCapture(tickets, fields, changed).value, false)
  {
    RowsEvolveByNothing(tickets, tickets);
    var voice := Find(tickets, VoiceSession);
    if voice.Some? && tickets[voice.value].ticket.open {
      var k := voice.value;
      var linked := Linked(tickets, k).value;
      RowsEvolveByNothing(tickets, linked);
      RowsEvolveByOne(linked, k, T.Capture(UrgencyOf(fields), changed));
      RowsEvolveOn(tickets, linked, TicketsAfterCapture(tickets, fields, changed).value, false);
    }
  }

  lemma LinkEvolves(tickets: seq<TicketRow>, k: nat)
    requires k < |tickets|
    ensures RowsEvolve(tickets, WithTicket(tickets, k, T.CaseLinked(tickets[k].ticket)), false)
  {
    RowsEvolveByOne(tickets, k, T.LinkCase);
  }

  lemma CaseEvolves(tickets: seq<TicketRow>)
    ensures RowsEvolve(tickets, TicketsAfterCase(tickets), false)
  {
    var voice := Find(tickets, VoiceSession);
    if voice.Some? && tickets[voice.value].ticket.open && !tickets[voice.value].ticket.caseLinked {
      var linked := WithTicket(tickets, voice.value, T.CaseLinked(tickets[voice.value].ticket));
      LinkEvolves(tickets, voice.value);
      RowsEvolveByNothing(linked, TicketsAfterCase(tickets));
      RowsEvolveOn(tickets, linked, TicketsAfterCase(tickets), false);
    } else {
      var added := tickets + [TicketRow(ServiceCase, None, T.OPENED_FOR_CASE)];
      RowsEvolveByNew(tickets, TicketRow(ServiceCase, None, T.OPENED_FOR_CASE));
      RowsEvolveByNothing(added, TicketsAfterCase(tickets));
      RowsEvolveOn(tickets, added, TicketsAfterCase(tickets), false);
    }
  }

  lemma CaptureEvolves(s: Session, at: Situation, r: Request)
    ensures RowsEvolve(s.tickets, Capture(s, at, r).0.tickets, false)
  {
    RowsEvolveByNothing(s.tickets, s.tickets);
    var after := Capture(s, at, r).0;
    if after != s {
      var (fields, changed) := F.Captured(Known(s, at), r.fields, at.directory).value;
      var saved := SaveFields(s, at, r).value.0;
      CaptureShowsEvolve(s.tickets, fields, changed != []);
      if after.tickets != saved.tickets {
        CaseEvolves(saved.tickets);
        RowsEvolveOn(s.tickets, saved.tickets, after.tickets, false);
      }
    }
  }

  lemma EscalateEvolves(s: Session, at: Situation, m: T.Marker, reason: string)
    ensures RowsEvolve(s.tickets, Escalate(s, at, m, reason).0.tickets, false)
  {
    RowsEvolveByNothing(s.tickets, s.tickets);
    var after := Escalate(s, at, m, reason).0;
    if after.tickets != s.tickets {
      var added := WithVoiceTicket(s.tickets);
      var k := Find(added, VoiceSession).value;
      var rows := if added == s.tickets || s.drafts == [] then added else Linked(added, k).value;
      VoiceTicketEvolves(s.tickets);
      RowsEvolveByNothing(added, rows);
      RowsEvolveOn(s.tickets, added, rows, false);
      RowsEvolveByOne(rows, k, T.Mark(m, reason, Some(T.Voice)));
      RowsEvolveOn(s.tickets, rows, after.tickets, false);
    }
  }

  lemma CarrierEvolves(tickets: seq<TicketRow>, step: T.Step)
    requires !step.Answer?
    ensures RowsEvolve(tickets, OnCarrier(tickets, step), false)
  {
    var k := FindIntake(tickets);
    if k.Some? {
      RowsEvolveByOne(tickets, k.value, step);
    } else {
      RowsEvolveByNothing(tickets, tickets);
    }
  }

  lemma EnqueueEvolves(s: Session, cause: Cause)
    ensures RowsEvolve(s.tickets, Enqueued(s, cause).tickets, false)
  {
    RowsEvolveByNothing(s.tickets, s.tickets);
    CarrierEvolves(s.tickets, T.QueueFollowup);
  }

  lemma SettledEvolves(s: Session)
    ensures RowsEvolve(s.tickets, TicketsSettled(s), false)
  {
    RowsEvolveByNothing(s.tickets, s.tickets);
    var k := Find(s.tickets, VoiceSession);
    if k.Some? {
      RowsEvolveByOne(s.tickets, k.value, T.Settle(s.cases != []));
    }
  }

  lemma EndEvolves(s: Session, at: Situation)
    ensures RowsEvolve(s.tickets, EndCall(s, at).tickets, false)
  {
    RowsEvolveByNothing(s.tickets, s.tickets);
    var ended := s.(live := false, tickets := TicketsSettled(s));
    SettledEvolves(s);
    EnqueueEvolves(ended, AtCallEnd);
    RowsEvolveOn(s.tickets, ended.tickets, Enqueued(ended, AtCallEnd).tickets, false);
    assert EndCall(s, at).tickets == s.tickets || EndCall(s, at).tickets == ended.tickets
           || EndCall(s, at).tickets == Enqueued(ended, AtCallEnd).tickets;
  }

  lemma OutsideEvolves(s: Session, k: nat, act: T.Step)
    ensures RowsEvolve(s.tickets, Outside(s, k, act).tickets, true)
  {
    if k < |s.tickets| && FromOutside(act) {
      RowsEvolveByOne(s.tickets, k, act);
    } else {
      RowsEvolveByNothing(s.tickets, s.tickets);
    }
  }

  lemma OutcomeEvolves(s: Session, outcome: Option<T.Outcome>)
    ensures RowsEvolve(s.tickets, RecordEscalation(s, outcome).0.tickets, false)
  {
    RowsEvolveByNothing(s.tickets, s.tickets);
    var k := Find(s.tickets, VoiceSession);
    if k.Some? { RowsEvolveByOne(s.tickets, k.value, T.RecordEscalation(outcome)); }
  }

  lemma ReportEvolves(s: Session, status: Followup)
    ensures RowsEvolve(s.tickets, FollowupReported(s, status).0.tickets, false)
  {
    RowsEvolveByNothing(s.tickets, s.tickets);
    CarrierEvolves(s.tickets, T.RecordFollowup(status == Admitted));
  }

  lemma RequestEvolves(s: Session, at: Situation, agreed: bool)
    ensures RowsEvolve(s.tickets, RequestFollowup(s, at, agreed).0.tickets, false)
  {
    RowsEvolveByNothing(s.tickets, s.tickets);
    if s.drafts != [] {
      EnqueueEvolves(Agreed(s), InCallRequest);
    }
  }

  lemma ConfirmEvolves(s: Session, chat: Chat)
    ensures RowsEvolve(s.tickets, ChatConfirmed(s, chat).0.tickets, false)
  {
    RowsEvolveByNothing(s.tickets, s.tickets);
    CaseEvolves(s.tickets);
  }

  lemma DraftOnlyChanges(s: Session, step: Step)
    requires step.ChatStep? || step.WaiveStep? || step.HandOffStep?
    ensures RowsEvolve(s.tickets, Elsewhere(s, step).tickets, false)
  {
    RowsEvolveByNothing(s.tickets, s.tickets);
  }

  lemma NoTicketChanges(s: Session, step: Step)
    requires step.TakeOver? || step.MessageStep? || step.ConsentStep?
    ensures RowsEvolve(s.tickets, Elsewhere(s, step).tickets, false)
  {
    RowsEvolveByNothing(s.tickets, s.tickets);
  }

  /** In the functions of a call no customer complains. */
  lemma InCallEvolves(s: Session, step: Step)
    requires OfCall(step)
    ensures RowsEvolve(s.tickets, InCall(s, step).tickets, false)
  {
    match step
    case OpenStep(at) => OpenEvolves(s, at);
    case CaptureStep(at, request) => CaptureEvolves(s, at, request);
    case EscalateStep(at, marker, reason) => EscalateEvolves(s, at, marker, reason);
    case OutcomeStep(outcome) => OutcomeEvolves(s, outcome);
    case RequestStep(at, agreed) => RequestEvolves(s, at, agreed);
    case ReportStep(status) => ReportEvolves(s, status);
    case AttachStep => CarrierEvolves(s.tickets, T.AttachReply);
    case EndStep(at) => EndEvolves(s, at);
  }

  lemma ElsewhereEvolves(s: Session, step: Step)
    requires !OfCall(step)
    ensures RowsEvolve(s.tickets, Elsewhere(s, step).tickets, step.TicketStep?)
  {
    match step
    case TicketStep(k, act) => OutsideEvolves(s, k, act);
    case ChatStep(_, _, _) => DraftOnlyChanges(s, step);
    case WaiveStep(_) => DraftOnlyChanges(s, step);
    case HandOffStep => DraftOnlyChanges(s, step);
    case ConfirmStep(chat) => ConfirmEvolves(s, chat);
    case _ => NoTicketChanges(s, step);
  }

  lemma StepEvolves(s: Session, step: Step)
    ensures RowsEvolve(s.tickets, Apply(s, step).tickets, step.TicketStep?)
  {
    if OfCall(step) {
      InCallEvolves(s, step);
    } else {
      ElsewhereEvolves(s, step);
    }
  }

  /** Over any run: tickets are never lost or rekeyed, and each evolves by the steps of a ticket alone. */
  lemma {:induction false} TicketsEvolve(s: Session, steps: seq<Step>)
    ensures RowsEvolve(s.tickets, Run(s, steps).tickets, true)
    decreases |steps|
  {
    if steps == [] {
      RowsEvolveByNothing(s.tickets, s.tickets);
      WithComplaints(s.tickets, s.tickets);
    } else {
      var before := Run(s, steps[..|steps| - 1]);
      TicketsEvolve(s, steps[..|steps| - 1]);
      StepEvolves(before, steps[|steps| - 1]);
      if !steps[|steps| - 1].TicketStep? { WithComplaints(before.tickets, Run(s, steps).tickets); }
      RowsEvolveOn(s.tickets, before.tickets, Run(s, steps).tickets, true);
    }
  }

  /** In every state of every call, each ticket's event sequences are exactly 1 to its counter, and an
      emergency is urgent with a reason and a source. */
  lemma TimelinesAreSound(s: Session, steps: seq<Step>, k: nat)
    requires Fresh(s) && k < |Run(s, steps).tickets|
    ensures T.Sound(Run(s, steps).tickets[k].ticket)
  {
    TicketsEvolve(s, steps);
    T.NewTicketsAreSound();
    var t := Run(s, steps).tickets[k].ticket;
    if Evolves(T.OPENED, t, true) {
      var own :| T.Run(T.OPENED, own) == t;
      T.RunsAreSound(T.OPENED, own);
    } else {
      var own :| T.Run(T.OPENED_FOR_CASE, own) == t;
      T.RunsAreSound(T.OPENED_FOR_CASE, own);
    }
  }

  // ---- the end of the call --------------------------------------------------------------------------

  /** The customer complains about ticket k while it waits for the answer. */
  predicate Complaint(s: Session, step: Step, k: nat) {
    step.TicketStep? && step.k == k < |s.tickets| && T.Complains(s.tickets[k].ticket, step.act)
  }

  predicate ComplaintSometime(s: Session, steps: seq<Step>, k: nat)
    decreases |steps|
  {
    steps != []
    && (Complaint(Run(s, steps[..|steps| - 1]), steps[|steps| - 1], k) || ComplaintSometime(s, steps[..|steps| - 1], k))
  }

  /** In some state of the run ticket k is in an AI stage. */
  predicate SeesAi(s: Session, steps: seq<Step>, k: nat)
    decreases |steps|
  {
    (k < |Run(s, steps).tickets| && T.AiStage(Run(s, steps).tickets[k].ticket.stage))
    || (steps != [] && SeesAi(s, steps[..|steps| - 1], k))
  }

  lemma OutsideTicket(s: Session, j: nat, act: T.Step, k: nat)
    requires k < |s.tickets|
    ensures |Outside(s, j, act).tickets| == |s.tickets|
    ensures Outside(s, j, act).tickets[k].ticket ==
            if j == k && FromOutside(act) then T.Apply(s.tickets[k].ticket, act) else s.tickets[k].ticket
  {
  }

  lemma PersonsTicketEntersAiIff(t: T.Ticket, step: T.Step)
    requires t.handling == T.Human
    ensures T.Apply(t, step).handling == T.Human
    ensures !T.AiStage(t.stage) ==> (T.AiStage(T.Apply(t, step).stage) <==> T.Complains(t, step))
  {
    T.PersonKeepsTicket(t, step);
    if !T.AiStage(t.stage) { T.EntersAiIff(t, step); }
  }

  lemma EvolvingStaysWithPeople(before: T.Ticket, after: T.Ticket)
    requires Evolves(before, after, false) && before.handling == T.Human
    ensures after.handling == T.Human && (!T.AiStage(before.stage) ==> !T.AiStage(after.stage))
  {
    var own :| T.Run(before, own) == after && !T.ComplainsSometime(before, own);
    T.PeopleKeepTickets(before, own);
    if !T.AiStage(before.stage) { T.StaysWithPeople(before, own); }
  }

  lemma StepOnTicket(s: Session, step: Step, k: nat)
    requires k < |s.tickets| && s.tickets[k].ticket.handling == T.Human
    ensures k < |Apply(s, step).tickets| && Apply(s, step).tickets[k].ticket.handling == T.Human
    ensures !T.AiStage(s.tickets[k].ticket.stage) ==>
              (T.AiStage(Apply(s, step).tickets[k].ticket.stage) <==> Complaint(s, step, k))
  {
    if step.TicketStep? {
      OutsideTicket(s, step.k, step.act, k);
      PersonsTicketEntersAiIff(s.tickets[k].ticket, step.act);
    } else {
      StepEvolves(s, step);
      EvolvingStaysWithPeople(s.tickets[k].ticket, Apply(s, step).tickets[k].ticket);
    }
  }

  /** A ticket that a person handles outside the AI stages stays with people, and comes to such a stage in a
      run of the session if and only if the customer complains about it. */
  lemma {:induction false} RunOnTicket(s: Session, steps: seq<Step>, k: nat)
    requires k < |s.tickets| && T.LeftToPeople(s.tickets[k].ticket)
    ensures k < |Run(s, steps).tickets| && Run(s, steps).tickets[k].ticket.handling == T.Human
    ensures SeesAi(s, steps, k) <==> ComplaintSometime(s, steps, k)
    decreases |steps|
  {
    if steps != [] {
      RunOnTicket(s, steps[..|steps| - 1], k);
      StepOnTicket(Run(s, steps[..|steps| - 1]), steps[|steps| - 1], k);
    }
  }

  /** The end of a call leaves its open inquiry, which the voice agent or a person handled, to a person. */
  lemma EndLeavesToPeople(s: Session, at: Situation, k: nat)
    requires s.live && Find(s.tickets, VoiceSession) == Some(k) && s.tickets[k].ticket.open
    requires s.tickets[k].ticket.handling == T.AiVoice || s.tickets[k].ticket.handling == T.Human
    ensures k < |EndCall(s, at).tickets| && T.LeftToPeople(EndCall(s, at).tickets[k].ticket)
  {
    var settled := WithTicket(s.tickets, k, T.Settled(s.tickets[k].ticket, s.cases != []));
    var ended := s.(live := false, tickets := settled);
    assert TicketsSettled(s) == settled;
    RowsEvolveByNothing(settled, settled);
    EnqueueEvolves(ended, AtCallEnd);
    assert RowsEvolve(settled, EndCall(s, at).tickets, false);
    EvolvingStaysWithPeople(settled[k].ticket, EndCall(s, at).tickets[k].ticket);
  }

  /** From then on a person handles it in every later state, and it comes back to an AI stage if and only if
      the customer answers that the issue is not solved while the ticket waits for the answer. */
  lemma InquiryReturnsIff(s: Session, at: Situation, later: seq<Step>, k: nat)
    requires s.live && Find(s.tickets, VoiceSession) == Some(k) && s.tickets[k].ticket.open
    requires s.tickets[k].ticket.handling == T.AiVoice || s.tickets[k].ticket.handling == T.Human
    ensures k < |Run(EndCall(s, at), later).tickets|
    ensures Run(EndCall(s, at), later).tickets[k].ticket.handling == T.Human
    ensures SeesAi(EndCall(s, at), later, k) <==> ComplaintSometime(EndCall(s, at), later, k)
  {
    EndLeavesToPeople(s, at, k);
    RunOnTicket(EndCall(s, at), later, k);
  }

  predicate SameKeys(before: seq<TicketRow>, after: seq<TicketRow>) {
    |before| == |after| && forall i :: 0 <= i < |before| ==> before[i].key == after[i].key
  }

  lemma SameKeysFind(before: seq<TicketRow>, after: seq<TicketRow>, key: Key)
    requires SameKeys(before, after)
    ensures Find(before, key) == Find(after, key)
  {
  }

  lemma CarrierKeepsStage(tickets: seq<TicketRow>, k: nat)
    requires k < |tickets|
    ensures SameKeys(tickets, OnCarrier(tickets, T.QueueFollowup))
    ensures OnCarrier(tickets, T.QueueFollowup)[k].ticket.stage == tickets[k].ticket.stage
  {
  }

  lemma EndSettles(s: Session, at: Situation, k: nat)
    requires s.live && Find(s.tickets, VoiceSession) == Some(k)
    requires s.tickets[k].ticket.open && T.AiStage(s.tickets[k].ticket.stage)
    ensures SameKeys(s.tickets, EndCall(s, at).tickets)
    ensures !T.AiStage(EndCall(s, at).tickets[k].ticket.stage)
  {
    CarrierKeepsStage(TicketsSettled(s), k);
    EndTickets(s, at);
  }

  lemma EndTickets(s: Session, at: Situation)
    requires s.live
    ensures EndCall(s, at).tickets == TicketsSettled(s) || EndCall(s, at).tickets == OnCarrier(TicketsSettled(s), T.QueueFollowup)
  {
  }

  lemma NewInquiry(s: Session, at: Situation)
    requires Find(s.tickets, VoiceSession) == None && Open(s, at).1 == Ok(InquiryOpen)
    ensures var inquiry := Open(s, at).0;
            var k := Find(inquiry.tickets, VoiceSession);
            k.Some? && inquiry.tickets[k.value].ticket == T.OPENED && inquiry.live == s.live
  {
  }

  /** Opening an inquiry does not ask whether the call is still on, and the end of a call acts on a live call
      only: a new inquiry is still the AI's after the end of its call if and only if it was opened when the call
      was no longer live. */
  lemma LateInquiryStaysIff(s: Session, at: Situation, again: Situation)
    requires Find(s.tickets, VoiceSession) == None && Open(s, at).1 == Ok(InquiryOpen)
    ensures var late := EndCall(Open(s, at).0, again);
            var k := Find(late.tickets, VoiceSession);
            k.Some? && (T.AiStage(late.tickets[k.value].ticket.stage) <==> !s.live)
  {
    var inquiry := Open(s, at).0;
    NewInquiry(s, at);
    if s.live {
      EndSettles(inquiry, again, Find(inquiry.tickets, VoiceSession).value);
      SameKeysFind(inquiry.tickets, EndCall(inquiry, again).tickets, VoiceSession);
    }
  }
}
