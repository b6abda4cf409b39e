/** One support ticket and its timeline, written by many: the voice agent, the emergency functions, the
    follow-up worker, customer replies and answers, the end of a call, what is found after it, and staff. */
module TicketTimeline {
  import opened Common
  import opened FieldService

  datatype Stage = New | AiHandling | CallbackPending | InCall | AwaitingCustomer | AwaitingHuman | ClosedStage

  datatype Handling = AiWhatsapp | AiVoice | Human | Paused

  datatype Source = Voice | Manual

  datatype Emergency = Emergency(reason: string, source: Source)

  datatype Kind = OpenedEvent | ReopenedEvent | CustomerMessage | AgentMessage | CallAttempt | CallOutcome | RecordingState
                | Summary | StatusChange | Assignment | HumanNote | CustomerUpdate | Escalation | ActionResult

  datatype Actor = Customer | Ai | Person | System

  datatype Action = UrgentCallback | ContactCustomer | Dispatch | CompleteIntake | Worded(text: string)

  datatype Outcome = TransferInitiated | TransferFailed | NoTransferTarget | CallerDisconnected | FallbackUrgentFollowup
                   | FallbackStaffNotified

  datatype Role = Owner | Admin | Agent | OtherRole

  datatype Event = Event(sequence: int, kind: Kind, actor: Actor)

  /** A row of support.tickets with its events.  `sequence` is the column next_event_sequence; `asked` says
      that a call attempt's wrap-up message, which asks whether the issue is solved, counts as sent. */
  datatype Ticket = Ticket(open: bool, stage: Stage, priority: Priority, handling: Handling,
                           emergency: Option<Emergency>, nextAction: Option<Action>, caseLinked: bool, asked: bool,
                           sequence: int, events: seq<Event>)

  datatype Error =
    | Unavailable | EmergencyDisabled | DispatcherRequired | ManualDisabled | UnsupportedSource
    | ReasonRequired | ClosedInquiry | EmergencyNotFound | UnsupportedOutcome

  datatype Result<T> = Ok(value: T) | Raised(error: Error)

  // ---- operations ---------------------------------------------------------------------------------

  /** open_ticket_from_voice_session. */
  const OPENED := Ticket(true, AiHandling, Normal, AiVoice, None, None, false, false, 1, [Event(1, OpenedEvent, Ai)])

  /** The ticket that a case without one brings along. */
  const OPENED_FOR_CASE := Ticket(true, AwaitingHuman, Normal, Human, None, None, true, false, 1, [Event(1, OpenedEvent, System)])

  /** append_ticket_event: the sequence is allocated by incrementing the ticket's column. */
  function Extended(t: Ticket, kind: Kind, actor: Actor): Ticket {
    t.(sequence := t.sequence + 1, events := t.events + [Event(t.sequence + 1, kind, actor)])
  }

  /** The tenant's features and policy and the caller of mark_ticket_emergency. */
  datatype Marker = Marker(available: bool, enabled: bool, role: Role, known: bool, manualEnabled: bool)

  function MarkError(t: Ticket, m: Marker, reason: string, source: Option<Source>): Option<Error> {
    if !m.available then Some(Unavailable)
    else if !m.enabled then Some(EmergencyDisabled)
    else if source == Some(Manual) && (m.role == OtherRole || !m.known) then Some(DispatcherRequired)
    else if source == Some(Manual) && !m.manualEnabled then Some(ManualDisabled)
    else if source == None then Some(UnsupportedSource)
    else if !(1 <= |Squeezed(reason)| <= 500) then Some(ReasonRequired)
    else if !t.open then Some(ClosedInquiry)
    else None
  }

  /** mark_ticket_emergency; answers whether the mark is new.  A source that is not supported is None. */
  function Marked(t: Ticket, m: Marker, reason: string, source: Option<Source>): (Ticket, Result<bool>) {
    match MarkError(t, m, reason, source)
    case Some(error) => (t, Raised(error))
    case None =>
      if t.emergency.Some? then (t, Ok(false))
      else
        (Extended(t.(priority := Urgent, emergency := Some(Emergency(Squeezed(reason), source.value))),
                  Escalation, if source == Some(Manual) then Person else Ai), Ok(true))
  }

  /** record_ticket_escalation; an outcome that is not supported is None. */
  function EscalationRecorded(t: Ticket, outcome: Option<Outcome>): (Ticket, Result<int>) {
    if outcome == None then (t, Raised(UnsupportedOutcome))
    else if t.emergency == None then (t, Raised(EmergencyNotFound))
    else
      var failed := outcome != Some(TransferInitiated);
      (Extended(t.(nextAction := if failed then Some(UrgentCallback) else t.nextAction,
                   stage := if t.open && failed then AwaitingHuman else t.stage,
                   handling := if t.open && failed then Human else t.handling), Escalation, System),
       Ok(t.sequence + 1))
  }

  /** What capture_service_intake does to an open ticket. */
  function DetailsCaptured(t: Ticket, urgency: Option<Priority>, changed: bool): Ticket {
    var updated := t.(priority := if t.emergency.Some? then Urgent else urgency.GetOr(t.priority));
    if changed then Extended(updated, CustomerUpdate, Customer) else updated
  }

  /** enqueue_intake_followup on an open ticket. */
  function FollowupQueued(t: Ticket): Ticket {
    Extended(t, AgentMessage, System)
  }

  /** record_intake_followup on an open ticket. */
  function FollowupRecorded(t: Ticket, admitted: bool): Ticket {
    var noted := Extended(t, AgentMessage, System);
    if !admitted then noted.(nextAction := Some(noted.nextAction.GetOr(ContactCustomer)))
    else noted.(stage := if (t.stage == New || t.stage == AiHandling || t.stage == AwaitingHuman) && !t.caseLinked
                         then AwaitingCustomer else t.stage)
  }

  /** attach_message_to_intake on an open ticket. */
  function ReplyAttached(t: Ticket): Ticket {
    Extended(t, CustomerMessage, Customer).(stage := if t.stage == AwaitingCustomer then AwaitingHuman else t.stage)
  }

  predicate AiStage(stage: Stage) {
    stage == New || stage == AiHandling || stage == InCall
  }

  /** settle_voice_inquiry on an open ticket. */
  function Settled(t: Ticket, caseOpened: bool): Ticket {
    Extended(t, CallOutcome, System).(
      stage := if AiStage(t.stage) then AwaitingHuman else t.stage,
      handling := if t.handling == AiVoice then Human else t.handling,
      nextAction := Some(t.nextAction.GetOr(if caseOpened then Dispatch else CompleteIntake)))
  }

  function CaseLinked(t: Ticket): Ticket {
    t.(caseLinked := true)
  }

  /** Staff set who handles the ticket; what a person handles is not handed back to the AI. */
  function HandlingSet(t: Ticket, mode: Handling): Ticket {
    if t.handling == Human && mode != Human then t
    else
      Extended(t.(handling := mode,
                  stage := if !t.open then t.stage else if mode == Human then AwaitingHuman
                           else if mode == AiVoice then InCall else t.stage), Assignment, Person)
  }

  function Closed(t: Ticket): Ticket {
    if !t.open then t else Extended(t.(open := false, stage := ClosedStage), StatusChange, Person)
  }

  function Reopened(t: Ticket): Ticket {
    if t.open then t else Extended(t.(open := true, stage := AwaitingHuman), ReopenedEvent, Person)
  }

  // ---- after a call -------------------------------------------------------------------------------

  /** What the analysis of an answered call says about the issue. */
  datatype Reading = NeedsPerson | CancellationAsked | DuplicateFound | SolvedByCall | FixProposed | StillOpen

  /** decideTicketResolution: whether the outcome calls for a person at once. */
  predicate OutcomeNeedsPerson(answered: bool, reading: Option<Reading>) {
    answered && (reading == Some(NeedsPerson) || reading == Some(CancellationAsked) || reading == Some(DuplicateFound))
  }

  /** decideTicketResolution: the stage. */
  function OutcomeStage(answered: bool, reading: Option<Reading>): Stage {
    if !answered || reading == None || OutcomeNeedsPerson(answered, reading) then AwaitingHuman else AwaitingCustomer
  }

  /** applyPostCallOutcome. */
  function OutcomeApplied(t: Ticket, answered: bool, reading: Option<Reading>, action: Option<Action>): Ticket {
    if !t.open then t
    else
      var updated := t.(stage := OutcomeStage(answered, reading), nextAction := action);
      var noted := Extended(Extended(updated, Summary, Ai), StatusChange, System);
      if OutcomeNeedsPerson(answered, reading) then HandlingSet(noted, Human) else noted
  }

  /** recordOperatorSummaryEdit. */
  function SummaryEdited(t: Ticket, action: Option<Action>): Ticket {
    Extended(t.(nextAction := if action.Some? then action else t.nextAction), HumanNote, Person)
  }

  datatype Intent = ConfirmedResolved | StillBroken | WantsPerson

  /** A customer's answer counts: the ticket waits for one and the question was sent. */
  predicate Waiting(t: Ticket) {
    t.open && t.stage == AwaitingCustomer && t.asked
  }

  /** applyCustomerConfirmation. */
  function Answered(t: Ticket, intent: Intent): Ticket {
    if !Waiting(t) then t
    else
      match intent
      case ConfirmedResolved => Extended(t.(open := false, stage := ClosedStage), CustomerUpdate, Customer)
      case StillBroken => Extended(t.(stage := AiHandling), CustomerUpdate, Customer)
      case WantsPerson => HandlingSet(Extended(t.(stage := AwaitingHuman), CustomerUpdate, Customer), Human)
  }

  class TicketRow {
    var open: bool
    var stage: Stage
    var priority: Priority
    var handling: Handling
    var emergency: Option<Emergency>
    var nextAction: Option<Action>
    var caseLinked: bool
    var asked: bool
    var sequence: int
    var events: seq<Event>

    ghost function State(): Ticket
      reads this
    {
      Ticket(open, stage, priority, handling, emergency, nextAction, caseLinked, asked, sequence, events)
    }

    method Append(kind: Kind, actor: Actor) returns (position: int)
      modifies this
      ensures State() == Extended(old(State()), kind, actor) && position == sequence
    {
      sequence := sequence + 1;
      events := events + [Event(sequence, kind, actor)];
      position := sequence;
    }

    method MarkEmergency(m: Marker, reason: string, source: Option<Source>) returns (r: Result<bool>)
      modifies this
      ensures (State(), r) == Marked(old(State()), m, reason, source)
    {
      if !m.available { return Raised(Unavailable); }
      if !m.enabled { return Raised(EmergencyDisabled); }
      if source == Some(Manual) {
        if m.role == OtherRole || !m.known { return Raised(DispatcherRequired); }
        if !m.manualEnabled { return Raised(ManualDisabled); }
      } else if source == None {
        return Raised(UnsupportedSource);
      }
      var text := Squeezed(reason);
      if !(1 <= |text| <= 500) { return Raised(ReasonRequired); }
      if !open { return Raised(ClosedInquiry); }
      if emergency.Some? { return Ok(false); }
      priority := Urgent;
      emergency := Some(Emergency(text, source.value));
      sequence := sequence + 1;
      events := events + [Event(sequence, Escalation, if source == Some(Manual) then Person else Ai)];
      r := Ok(true);
    }

    method RecordEscalation(outcome: Option<Outcome>) returns (r: Result<int>)
      modifies this
      ensures (State(), r) == EscalationRecorded(old(State()), outcome)
    {
      if outcome == None { return Raised(UnsupportedOutcome); }
      if emergency == None { return Raised(EmergencyNotFound); }
      sequence := sequence + 1;
      if outcome != Some(TransferInitiated) {
        nextAction := Some(UrgentCallback);
        if open {
          stage := AwaitingHuman;
          handling := Human;
        }
      }
      events := events + [Event(sequence, Escalation, System)];
      r := Ok(sequence);
    }

    /** setTicketHandlingMode. */
    method SetHandling(mode: Handling)
      modifies this
      ensures State() == HandlingSet(old(State()), mode)
    {
      if handling != Human || mode == Human {
        handling := mode;
        if open {
          if mode == Human {
            stage := AwaitingHuman;
          } else if mode == AiVoice {
            stage := InCall;
          }
        }
        var _ := Append(Assignment, Person);
      }
    }

    method ApplyOutcome(answered: bool, reading: Option<Reading>, action: Option<Action>)
      modifies this
      ensures State() == OutcomeApplied(old(State()), answered, reading, action)
    {
      if open {
        stage := OutcomeStage(answered, reading);
        nextAction := action;
        var _ := Append(Summary, Ai);
        var _ := Append(StatusChange, System);
        if OutcomeNeedsPerson(answered, reading) {
          SetHandling(Human);
        }
      }
    }

    method Answer(intent: Intent)
      modifies this
      ensures State() == Answered(old(State()), intent)
    {
      if open && stage == AwaitingCustomer && asked {
        match intent {
          case ConfirmedResolved =>
            open := false;
            stage := ClosedStage;
          case StillBroken =>
            stage := AiHandling;
          case WantsPerson =>
            stage := AwaitingHuman;
        }
        var _ := Append(CustomerUpdate, Customer);
        if intent == WantsPerson {
          SetHandling(Human);
        }
      }
    }

    method Settle(caseOpened: bool)
      modifies this
      ensures State() == if old(open) then Settled(old(State()), caseOpened) else old(State())
    {
      if open {
        var _ := Append(CallOutcome, System);
        if stage == New || stage == AiHandling || stage == InCall {
          stage := AwaitingHuman;
        }
        if handling == AiVoice {
          handling := Human;
        }
        if nextAction == None {
          nextAction := Some(if caseOpened then Dispatch else CompleteIntake);
        }
      }
    }
  }

  // ---- runs ---------------------------------------------------------------------------------------

  datatype Step =
    | Append(kind: Kind, actor: Actor)
    | Mark(marker: Marker, reason: string, source: Option<Source>)
    | RecordEscalation(outcome: Option<Outcome>)
    | Capture(urgency: Option<Priority>, changed: bool)
    | QueueFollowup
    | RecordFollowup(admitted: bool)
    | AttachReply
    | Settle(caseOpened: bool)
    | LinkCase
    | SetHandling(mode: Handling)
    | Close
    | Reopen
    | ApplyOutcome(answered: bool, reading: Option<Reading>, action: Option<Action>)
    | RecordWrapUp(sent: bool)
    | Answer(intent: Intent)
    | EditSummary(action: Option<Action>)

  function Apply(t: Ticket, step: Step): Ticket {
    match step
    case Append(kind, actor) => Extended(t, kind, actor)
    case Mark(marker, reason, source) => Marked(t, marker, reason, source).0
    case RecordEscalation(outcome) => EscalationRecorded(t, outcome).0
    case Capture(urgency, changed) => if t.open then DetailsCaptured(t, urgency, changed) else t
    case QueueFollowup => if t.open then FollowupQueued(t) else t
    case RecordFollowup(admitted) => if t.open then FollowupRecorded(t, admitted) else t
    case AttachReply => if t.open then ReplyAttached(t) else t
    case Settle(caseOpened) => if t.open then Settled(t, caseOpened) else t
    case LinkCase => CaseLinked(t)
    case SetHandling(mode) => HandlingSet(t, mode)
    case Close => Closed(t)
    case Reopen => Reopened(t)
    case ApplyOutcome(answered, reading, action) => OutcomeApplied(t, answered, reading, action)
    case RecordWrapUp(sent) => t.(asked := sent)
    case Answer(intent) => Answered(t, intent)
    case EditSummary(action) => SummaryEdited(t, action)
  }

  function Run(t: Ticket, steps: seq<Step>): Ticket
    decreases |steps|
  {
    if steps == [] then t else Apply(Run(t, steps[..|steps| - 1]), steps[|steps| - 1])
  }

  // ---- the timeline -------------------------------------------------------------------------------

  /** Event sequences are exactly 1 to the ticket's counter. */
  predicate Contiguous(t: Ticket) {
    |t.events| == t.sequence && forall i :: 0 <= i < |t.events| ==> t.events[i].sequence == i + 1
  }

  /** An emergency is urgent and says why and where it came from. */
  predicate EmergencyIsUrgent(t: Ticket) {
    t.emergency.Some? ==>
      t.priority == Urgent && 1 <= |t.emergency.value.reason| <= 500
  }

  predicate Sound(t: Ticket) {
    Contiguous(t) && EmergencyIsUrgent(t) && (t.open <==> t.stage != ClosedStage)
  }

  /** `u` continues the timeline of `t` with the next numbers. */
  predicate Continues(t: Ticket, u: Ticket) {
    && t.events <= u.events && u.sequence - t.sequence == |u.events| - |t.events|
    && forall i :: |t.events| <= i < |u.events| ==> u.events[i].sequence == t.sequence + 1 + i - |t.events|
  }

  lemma ExtendedContinues(t: Ticket, u: Ticket, kind: Kind, actor: Actor)
    requires Continues(t, u)
    ensures Continues(t, Extended(u, kind, actor))
  {
  }

  lemma HandlingContinues(t: Ticket, u: Ticket, mode: Handling)
    requires Continues(t, u)
    ensures Continues(t, HandlingSet(u, mode))
  {
    ExtendedContinues(t, u, Assignment, Person);
  }

  lemma OutcomeContinues(t: Ticket, answered: bool, reading: Option<Reading>, action: Option<Action>)
    ensures Continues(t, OutcomeApplied(t, answered, reading, action))
  {
    var updated := t.(stage := OutcomeStage(answered, reading), nextAction := action);
    var noted := Extended(Extended(updated, Summary, Ai), StatusChange, System);
    ExtendedContinues(t, updated, Summary, Ai);
    ExtendedContinues(t, Extended(updated, Summary, Ai), StatusChange, System);
    HandlingContinues(t, noted, Human);
  }

  lemma AnswerContinues(t: Ticket, intent: Intent)
    ensures Continues(t, Answered(t, intent))
  {
    if intent == WantsPerson {
      var noted := Extended(t.(stage := AwaitingHuman), CustomerUpdate, Customer);
      ExtendedContinues(t, t.(stage := AwaitingHuman), CustomerUpdate, Customer);
      HandlingContinues(t, noted, Human);
    }
  }

  lemma EmergencyContinues(t: Ticket, step: Step)
    requires step.Mark? || step.RecordEscalation? || step.Capture?
    ensures Continues(t, Apply(t, step))
  {
  }

  /** A step only adds events to the timeline, with the next numbers. */
  lemma StepExtends(t: Ticket, step: Step)
    ensures Continues(t, Apply(t, step))
  {
    match step
    case ApplyOutcome(answered, reading, action) => OutcomeContinues(t, answered, reading, action);
    case Answer(intent) => AnswerContinues(t, intent);
    case SetHandling(mode) => HandlingContinues(t, t, mode);
    case Mark(_, _, _) => EmergencyContinues(t, step);
    case RecordEscalation(_) => EmergencyContinues(t, step);
    case Capture(_, _) => EmergencyContinues(t, step);
    case _ =>
  }

  lemma StepStaysUrgent(t: Ticket, step: Step)
    requires Sound(t)
    ensures EmergencyIsUrgent(Apply(t, step)) && (Apply(t, step).open <==> Apply(t, step).stage != ClosedStage)
    ensures t.emergency.Some? ==> Apply(t, step).emergency == t.emergency
  {
  }

  lemma StepIsSound(t: Ticket, step: Step)
    requires Sound(t)
    ensures Sound(Apply(t, step)) && t.events <= Apply(t, step).events
    ensures t.emergency.Some? ==> Apply(t, step).emergency == t.emergency
  {
    StepExtends(t, step);
    StepStaysUrgent(t, step);
  }

  /** Over any run by any writers: sequences are 1 to n without gap or repeat, no event is lost, an
      emergency stays marked as it was, and it is urgent with a reason and a source. */
  lemma {:induction false} RunsAreSound(t: Ticket, steps: seq<Step>)
    requires Sound(t)
    ensures Sound(Run(t, steps)) && t.events <= Run(t, steps).events
    ensures t.emergency.Some? ==> Run(t, steps).emergency == t.emergency
    decreases |steps|
  {
    if steps != [] {
      RunsAreSound(t, steps[..|steps| - 1]);
      StepIsSound(Run(t, steps[..|steps| - 1]), steps[|steps| - 1]);
    }
  }

  lemma NewTicketsAreSound()
    ensures Sound(OPENED) && Sound(OPENED_FOR_CASE)
  {
  }

  // ---- back to the AI -----------------------------------------------------------------------------

  /** The customer says that the issue is not solved while the ticket waits for the answer. */
  predicate Complains(t: Ticket, step: Step) {
    step.Answer? && step.intent == StillBroken && Waiting(t)
  }

  /** Someone gives an open ticket that no person handles to the voice agent. */
  predicate HandsToVoice(t: Ticket, step: Step) {
    step.SetHandling? && step.mode == AiVoice && t.open && t.handling != Human
  }

  lemma EntersAiIff(t: Ticket, step: Step)
    requires !AiStage(t.stage)
    ensures AiStage(Apply(t, step).stage) <==> Complains(t, step) || HandsToVoice(t, step)
  {
  }

  /** Some state of the run is in an AI stage. */
  predicate SeesAi(t: Ticket, steps: seq<Step>)
    decreases |steps|
  {
    AiStage(Run(t, steps).stage) || (steps != [] && SeesAi(t, steps[..|steps| - 1]))
  }

  predicate ComplainsSometime(t: Ticket, steps: seq<Step>)
    decreases |steps|
  {
    steps != []
    && (Complains(Run(t, steps[..|steps| - 1]), steps[|steps| - 1]) || ComplainsSometime(t, steps[..|steps| - 1]))
  }

  predicate HandedToVoiceSometime(t: Ticket, steps: seq<Step>)
    decreases |steps|
  {
    steps != []
    && (HandsToVoice(Run(t, steps[..|steps| - 1]), steps[|steps| - 1]) || HandedToVoiceSometime(t, steps[..|steps| - 1]))
  }

  /** From a stage that is not the AI's, a run comes to one if and only if in it the customer complains while
      waited for, or somebody hands an open ticket that no person handles to the voice agent. */
  lemma {:induction false} ReturnsToAiIff(t: Ticket, steps: seq<Step>)
    requires !AiStage(t.stage)
    ensures SeesAi(t, steps) <==> ComplainsSometime(t, steps) || HandedToVoiceSometime(t, steps)
    decreases |steps|
  {
    if steps != [] {
      var before := Run(t, steps[..|steps| - 1]);
      ReturnsToAiIff(t, steps[..|steps| - 1]);
      if !AiStage(before.stage) {
        EntersAiIff(before, steps[|steps| - 1]);
      }
    }
  }

  lemma PersonKeepsTicket(t: Ticket, step: Step)
    requires t.handling == Human
    ensures Apply(t, step).handling == Human && !HandsToVoice(t, step)
  {
  }

  /** A person keeps a ticket whatever happens. */
  lemma {:induction false} PeopleKeepTickets(t: Ticket, steps: seq<Step>)
    requires t.handling == Human
    ensures Run(t, steps).handling == Human && !HandedToVoiceSometime(t, steps)
    decreases |steps|
  {
    if steps != [] {
      PeopleKeepTickets(t, steps[..|steps| - 1]);
      PersonKeepsTicket(Run(t, steps[..|steps| - 1]), steps[|steps| - 1]);
    }
  }

  /** The end of the call takes an open ticket out of the AI stages.  When the voice agent or a person was
      handling it, it comes back to one in a run if and only if the customer answers that the issue is not
      solved while the ticket waits for the answer. */
  lemma SettledReturnsIff(t: Ticket, caseOpened: bool, steps: seq<Step>)
    requires t.open
    ensures !AiStage(Settled(t, caseOpened).stage)
    ensures t.handling == AiVoice || t.handling == Human ==>
              (SeesAi(Settled(t, caseOpened), steps) <==> ComplainsSometime(Settled(t, caseOpened), steps))
    ensures SeesAi(Settled(t, caseOpened), steps) <==>
              ComplainsSometime(Settled(t, caseOpened), steps) || HandedToVoiceSometime(Settled(t, caseOpened), steps)
  {
    ReturnsToAiIff(Settled(t, caseOpened), steps);
    if t.handling == AiVoice || t.handling == Human {
      PeopleKeepTickets(Settled(t, caseOpened), steps);
    }
  }

  /** Such a run: an answered call leaves the issue open, the customer is asked and answers that it is not
      solved.  The stage is the AI's while a person still handles the ticket. */
  lemma ComplaintReturnsToAi(t: Ticket, caseOpened: bool, action: Option<Action>)
    requires t.open && (t.handling == AiVoice || t.handling == Human)
    ensures var run := [ApplyOutcome(true, Some(StillOpen), action), RecordWrapUp(true), Answer(StillBroken)];
            var after := Run(Settled(t, caseOpened), run);
            after.open && after.stage == AiHandling && after.handling == Human
  {
    var settled := Settled(t, caseOpened);
    var run := [ApplyOutcome(true, Some(StillOpen), action), RecordWrapUp(true), Answer(StillBroken)];
    assert run[..2] == [run[0], run[1]] && run[..2][..1] == [run[0]] && [run[0]][..0] == [];
    assert Run(settled, []) == settled;
    assert Run(settled, [run[0]]) == Apply(settled, run[0]);
    assert Run(settled, run[..2]) == Apply(Apply(settled, run[0]), run[1]);
  }

  /** A paused ticket, or one that WhatsApp handles, can also be handed back to the voice agent. */
  lemma PausedReturnsToAi(t: Ticket, caseOpened: bool)
    requires t.open && t.handling != AiVoice && t.handling != Human
    ensures AiStage(Apply(Settled(t, caseOpened), SetHandling(AiVoice)).stage)
  {
  }

  predicate LeftToPeople(t: Ticket) {
    t.handling == Human && !AiStage(t.stage)
  }

  lemma {:induction false} StaysWithPeople(t: Ticket, steps: seq<Step>)
    requires LeftToPeople(t) && !ComplainsSometime(t, steps)
    ensures LeftToPeople(Run(t, steps))
    decreases |steps|
  {
    if steps != [] {
      StaysWithPeople(t, steps[..|steps| - 1]);
      EntersAiIff(Run(t, steps[..|steps| - 1]), steps[|steps| - 1]);
      PeopleKeepTickets(t, steps);
    }
  }
}
