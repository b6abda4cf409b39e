/** What each writer of a ticket changes, column by column, and what runs of them keep of it. */
module TicketOutcomes {
  import opened Common
  import opened FieldService
  import opened TicketTimeline

  // ---- columns that only few writers touch ----------------------------------------------------------

  /** The step marks the emergency: with the feature available and enabled, with 1 to 500 characters of reason left
      when white space is squeezed, on an open ticket, by voice or by a known person of the staff where the policy
      allows it. */
  predicate Marks(t: Ticket, step: Step) {
    && step.Mark? && t.emergency == None && t.open && step.marker.available && step.marker.enabled
    && 1 <= |Squeezed(step.reason)| <= 500
    && step.source.Some?
    && (step.source.value == Manual ==> step.marker.known && step.marker.manualEnabled && step.marker.role != OtherRole)
  }

  /** The step closes the open ticket: staff, or the customer whose awaited answer is that it is solved. */
  predicate Ends(t: Ticket, step: Step) {
    t.open && (step.Close? || (step.Answer? && step.intent == ConfirmedResolved && t.stage == AwaitingCustomer && t.asked))
  }

  /** A step that some person's decision or need hands to people. */
  predicate HandsToPeople(t: Ticket, step: Step) {
    || (step.SetHandling? && step.mode == Human)
    || (t.open && t.emergency.Some? && step.RecordEscalation? && step.outcome.Some? && step.outcome != Some(TransferInitiated))
    || (t.open && step.Settle? && t.handling == AiVoice)
    || (t.open && step.ApplyOutcome? && step.answered
        && step.reading in {Some(NeedsPerson), Some(CancellationAsked), Some(DuplicateFound)})
    || (t.open && step.Answer? && step.intent == WantsPerson && t.stage == AwaitingCustomer && t.asked)
  }

  lemma OpenAfter(t: Ticket, step: Step)
    ensures Apply(t, step).open == if Ends(t, step) then false else if step.Reopen? then true else t.open
  {
  }

  lemma EmergencyAfter(t: Ticket, step: Step)
    ensures Apply(t, step).emergency ==
              if Marks(t, step) then Some(Emergency(Squeezed(step.reason), step.source.value)) else t.emergency
  {
  }

  /** The priority follows the mark, and what the caller says of the urgency while nothing is marked. */
  lemma PriorityAfter(t: Ticket, step: Step)
    ensures Apply(t, step).priority ==
              if Marks(t, step) then Urgent
              else if step.Capture? && t.open && t.emergency.Some? then Urgent
              else if step.Capture? && t.open && step.urgency.Some? then step.urgency.value
              else t.priority
  {
  }

  lemma HandlingAfter(t: Ticket, step: Step)
    ensures Apply(t, step).handling ==
              if HandsToPeople(t, step) then Human
              else if step.SetHandling? && t.handling != Human then step.mode
              else t.handling
  {
  }

  lemma LinksAfter(t: Ticket, step: Step)
    ensures Apply(t, step).caseLinked == (t.caseLinked || step.LinkCase?)
    ensures Apply(t, step).asked == if step.RecordWrapUp? then step.sent else t.asked
  {
  }

  /** What is to be done next: what a failed transfer, an analysis or a person says; and where nothing is noted,
      to contact the customer whom the follow-up did not reach, and after the call to dispatch its case or to
      complete its intake. */
  lemma NextActionAfter(t: Ticket, step: Step)
    ensures Apply(t, step).nextAction ==
              match step
              case RecordEscalation(outcome) =>
                if outcome.Some? && t.emergency.Some? && outcome != Some(TransferInitiated) then Some(UrgentCallback) else t.nextAction
              case RecordFollowup(admitted) =>
                if t.open && !admitted && t.nextAction == None then Some(ContactCustomer) else t.nextAction
              case Settle(caseOpened) =>
                if t.open && t.nextAction == None then Some(if caseOpened then Dispatch else CompleteIntake) else t.nextAction
              case ApplyOutcome(_, _, action) => if t.open then action else t.nextAction
              case EditSummary(action) => if action.Some? then action else t.nextAction
              case _ => t.nextAction
  {
  }

  // ---- the stage ------------------------------------------------------------------------------------

  /** The stage after the steps of the call. */
  lemma StageAfterCall(t: Ticket, step: Step)
    requires !step.SetHandling? && !step.Close? && !step.Reopen? && !step.ApplyOutcome? && !step.Answer?
    ensures Apply(t, step).stage ==
              match step
              case RecordEscalation(_) => if HandsToPeople(t, step) then AwaitingHuman else t.stage
              case RecordFollowup(admitted) =>
                if t.open && admitted && !t.caseLinked && t.stage in {New, AiHandling, AwaitingHuman} then AwaitingCustomer else t.stage
              case AttachReply => if t.open && t.stage == AwaitingCustomer then AwaitingHuman else t.stage
              case Settle(_) => if t.open && t.stage in {New, AiHandling, InCall} then AwaitingHuman else t.stage
              case _ => t.stage
  {
  }

  /** The stage after what staff, the analysis of a call and the customer's answer do. */
  lemma StageAfterOthers(t: Ticket, step: Step)
    requires step.SetHandling? || step.Close? || step.Reopen? || step.ApplyOutcome? || step.Answer?
    ensures Apply(t, step).stage ==
              if Ends(t, step) then ClosedStage
              else match step
              case Reopen => if t.open then t.stage else AwaitingHuman
              case SetHandling(mode) =>
                if !t.open || (t.handling == Human && mode != Human) then t.stage
                else if mode == Human then AwaitingHuman
                else if mode == AiVoice then InCall
                else t.stage
              case ApplyOutcome(answered, reading, _) =>
                if !t.open then t.stage
                else if answered && reading.Some? && !HandsToPeople(t, step) then AwaitingCustomer
                else AwaitingHuman
              case Answer(intent) =>
                if !t.open || t.stage != AwaitingCustomer || !t.asked then t.stage
                else if intent == StillBroken then AiHandling
                else AwaitingHuman
              case _ => t.stage
  {
  }

  // ---- the events -----------------------------------------------------------------------------------

  /** What a step adds to the timeline, as kinds and actors. */
  function Adds(t: Ticket, step: Step): seq<(Kind, Actor)> {
    match step
    case Append(kind, actor) => [(kind, actor)]
    case Mark(_, _, source) => if Marks(t, step) then [(Escalation, if source == Some(Manual) then Person else Ai)] else []
    case RecordEscalation(outcome) => if outcome.Some? && t.emergency.Some? then [(Escalation, System)] else []
    case Capture(_, changed) => if t.open && changed then [(CustomerUpdate, Customer)] else []
    case QueueFollowup => if t.open then [(AgentMessage, System)] else []
    case RecordFollowup(_) => if t.open then [(AgentMessage, System)] else []
    case AttachReply => if t.open then [(CustomerMessage, Customer)] else []
    case Settle(_) => if t.open then [(CallOutcome, System)] else []
    case LinkCase => []
    case SetHandling(mode) => if t.handling == Human && mode != Human then [] else [(Assignment, Person)]
    case Close => if t.open then [(StatusChange, Person)] else []
    case Reopen => if t.open then [] else [(ReopenedEvent, Person)]
    case ApplyOutcome(_, _, _) =>
      if t.open then [(Summary, Ai), (StatusChange, System)] + if HandsToPeople(t, step) then [(Assignment, Person)] else [] else []
    case RecordWrapUp(_) => []
    case Answer(intent) =>
      if t.open && t.stage == AwaitingCustomer && t.asked
      then [(CustomerUpdate, Customer)] + if intent == WantsPerson then [(Assignment, Person)] else [] else []
    case EditSummary(_) => [(HumanNote, Person)]
  }

  /** Numbered from the next number of the counter on. */
  function Entries(adds: seq<(Kind, Actor)>, from: int): seq<Event> {
    seq(|adds|, i requires 0 <= i < |adds| => Event(from + i, adds[i].0, adds[i].1))
  }

  /** A step adds its events with the next numbers and counts them. */
  lemma EventsAfterCall(t: Ticket, step: Step)
    requires !step.SetHandling? && !step.ApplyOutcome? && !step.Answer?
    ensures Apply(t, step).events == t.events + Entries(Adds(t, step), t.sequence + 1)
    ensures Apply(t, step).sequence == t.sequence + |Adds(t, step)|
  {
    assert Entries([], t.sequence + 1) == [];
  }

  /** The events after one more are those after the first, and then the one. */
  lemma OneMore(events: seq<Event>, first: seq<(Kind, Actor)>, last: (Kind, Actor), from: int)
    ensures events + Entries(first + [last], from)
              == (events + Entries(first, from)) + [Event(from + |first|, last.0, last.1)]
  {
  }

  lemma EventsAfterOutcome(t: Ticket, step: Step)
    requires step.ApplyOutcome?
    ensures Apply(t, step).events == t.events + Entries(Adds(t, step), t.sequence + 1)
    ensures Apply(t, step).sequence == t.sequence + |Adds(t, step)|
  {
    var two := [(Summary, Ai), (StatusChange, System)];
    OneMore(t.events, two, (Assignment, Person), t.sequence + 1);
    assert two + [] == two;
  }

  lemma EventsAfterAnswer(t: Ticket, step: Step)
    requires step.Answer? || step.SetHandling?
    ensures Apply(t, step).events == t.events + Entries(Adds(t, step), t.sequence + 1)
    ensures Apply(t, step).sequence == t.sequence + |Adds(t, step)|
  {
    var one := [(CustomerUpdate, Customer)];
    OneMore(t.events, one, (Assignment, Person), t.sequence + 1);
    assert one + [] == one && Entries([], t.sequence + 1) == [];
  }

  // ---- what the calls answer ------------------------------------------------------------------------

  /** A mark answers that it is new exactly when it marks, that it is not on an open ticket already marked, and
      otherwise names the first thing that is wrong. */
  lemma MarkAnswers(t: Ticket, m: Marker, reason: string, source: Option<Source>)
    ensures Marked(t, m, reason, source).1 == Ok(true) <==> Marks(t, Mark(m, reason, source))
    ensures Marked(t, m, reason, source).1 == Ok(false) <==>
              t.emergency.Some? && Marks(t.(emergency := None), Mark(m, reason, source))
    ensures Marked(t, m, reason, source).1.Raised? ==>
              Marked(t, m, reason, source).1.error ==
                if !m.available then Unavailable
                else if !m.enabled then EmergencyDisabled
                else if source == None then UnsupportedSource
                else if source == Some(Manual) && (m.role == OtherRole || !m.known) then DispatcherRequired
                else if source == Some(Manual) && !m.manualEnabled then ManualDisabled
                else if |Squeezed(reason)| == 0 || |Squeezed(reason)| > 500 then ReasonRequired
                else ClosedInquiry
  {
  }

  /** An outcome is recorded on an emergency under the next number. */
  lemma EscalationAnswers(t: Ticket, outcome: Option<Outcome>)
    ensures EscalationRecorded(t, outcome).1 ==
              if outcome == None then Raised(UnsupportedOutcome)
              else if t.emergency == None then Raised(EmergencyNotFound)
              else Ok(t.sequence + 1)
  {
  }

  /** A ticket starts open, of normal priority, with one event; a call's with the voice agent, a case's with people
      and its case. */
  lemma NewTickets()
    ensures OPENED.open && OPENED.stage == AiHandling && OPENED.handling == AiVoice && !OPENED.caseLinked
    ensures OPENED_FOR_CASE.open && OPENED_FOR_CASE.stage == AwaitingHuman && OPENED_FOR_CASE.handling == Human
            && OPENED_FOR_CASE.caseLinked
    ensures OPENED.priority == Normal == OPENED_FOR_CASE.priority
    ensures OPENED.emergency == None && OPENED_FOR_CASE.emergency == None
    ensures OPENED.nextAction == None && OPENED_FOR_CASE.nextAction == None && !OPENED.asked && !OPENED_FOR_CASE.asked
    ensures OPENED.events == [Event(1, OpenedEvent, Ai)] && OPENED.sequence == 1
    ensures OPENED_FOR_CASE.events == [Event(1, OpenedEvent, System)] && OPENED_FOR_CASE.sequence == 1
  {
  }

  // ---- runs -----------------------------------------------------------------------------------------

  /** The step, among those of the run, at which the ticket was marked. */
  predicate MarkedInRun(t: Ticket, steps: seq<Step>)
    decreases |steps|
  {
    steps != []
    && (Marks(Run(t, steps[..|steps| - 1]), steps[|steps| - 1]) || MarkedInRun(t, steps[..|steps| - 1]))
  }

  /** A ticket without an emergency has one after a run if and only if some step marked it. */
  lemma {:induction false} EmergencyIsMarkedIff(t: Ticket, steps: seq<Step>)
    requires t.emergency == None
    ensures Run(t, steps).emergency.Some? <==> MarkedInRun(t, steps)
    decreases |steps|
  {
    if steps != [] {
      var before := Run(t, steps[..|steps| - 1]);
      EmergencyIsMarkedIff(t, steps[..|steps| - 1]);
      EmergencyAfter(before, steps[|steps| - 1]);
    }
  }

  predicate HandedOver(t: Ticket, steps: seq<Step>)
    decreases |steps|
  {
    steps != []
    && (HandsToPeople(Run(t, steps[..|steps| - 1]), steps[|steps| - 1]) || HandedOver(t, steps[..|steps| - 1]))
  }

  /** A person handles a ticket after a run if and only if one did before or it was handed to people in the run. */
  lemma {:induction false} PersonHandlesIff(t: Ticket, steps: seq<Step>)
    ensures Run(t, steps).handling == Human <==> t.handling == Human || HandedOver(t, steps)
    decreases |steps|
  {
    if steps != [] {
      var before := Run(t, steps[..|steps| - 1]);
      PersonHandlesIff(t, steps[..|steps| - 1]);
      HandlingAfter(before, steps[|steps| - 1]);
    }
  }
}
