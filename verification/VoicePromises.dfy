/** What a call keeps of what the caller said, and of whether the contact consents to WhatsApp. */
module VoicePromises {
  import opened Common
  import opened FieldService
  import opened VoiceIntake
  import F = IntakeFields
  import T = TicketTimeline

  // ---- what was said ----------------------------------------------------------------------------------

  predicate Kept(s: Session, key: string) {
    s.drafts != [] && F.NonBlank(s.drafts[0].fields, key)
  }

  /** What a capture saves. */
  lemma CaptureSaves(s: Session, at: Situation, r: Request)
    requires s.drafts != []
    ensures var answered := Capture(s, at, r);
            if answered.1 in {Ok(Saved), Ok(PhotosMissing), Ok(CaseOpened)} then
              && F.Captured(Known(s, at), r.fields, at.directory).Ok? && answered.0.drafts != []
              && answered.0.drafts[0].fields == F.Captured(Known(s, at), r.fields, at.directory).value.0
            else answered.0 == s
  {
  }

  /** A capture erases a saved field if and only if it saves, the field is the service address, and the
      chosen store's address in the directory is blank without being NULL. */
  lemma CaptureErasesIff(s: Session, at: Situation, r: Request, key: string)
    requires F.Named(at.directory) && Kept(s, key)
    ensures !Kept(Capture(s, at, r).0, key) <==>
              && Capture(s, at, r).1 in {Ok(Saved), Ok(PhotosMissing), Ok(CaseOpened)}
              && key == "serviceAddress"
              && F.BlankAddress(F.Merged(Known(s, at), r.fields).value.0, at.directory)
  {
    CaptureSaves(s, at, r);
    if Capture(s, at, r).1 in {Ok(Saved), Ok(PhotosMissing), Ok(CaseOpened)} {
      F.OnlyBlankStoreAddressErases(Known(s, at), r.fields, at.directory, key);
    }
  }

  predicate AddressesGiven(directory: F.Directory) {
    forall id :: id in directory && directory[id].address.Some? ==> Trim(directory[id].address.value) != []
  }

  predicate KeepsField(step: Step, key: string) {
    step.CaptureStep? ==> F.Named(step.at.directory) && (key == "serviceAddress" ==> AddressesGiven(step.at.directory))
  }

  // ---- what steps leave alone ---------------------------------------------------------------------------

  /** The rows of the intake, up to its follow-up status, and the case. */
  predicate SameIntake(s: Session, r: Session) {
    && r.policy == s.policy && r.cases == s.cases && |r.drafts| == |s.drafts|
    && (s.drafts != [] ==> r.drafts[0] == s.drafts[0].(followup := r.drafts[0].followup))
  }

  /** Drafts, case and job stay as they are. */
  predicate SameWork(s: Session, r: Session) {
    r.policy == s.policy && r.cases == s.cases && r.drafts == s.drafts && r.jobs == s.jobs
  }

  lemma EscalateKeepsWork(s: Session, at: Situation, m: T.Marker, reason: string)
    ensures SameWork(s, Escalate(s, at, m, reason).0)
  {
  }

  lemma OutcomeKeepsWork(s: Session, outcome: Option<T.Outcome>)
    ensures SameWork(s, RecordEscalation(s, outcome).0)
  {
  }

  lemma OutsideKeepsWork(s: Session, k: nat, act: T.Step)
    ensures SameWork(s, Outside(s, k, act))
  {
  }

  lemma ConsentKeepsWork(s: Session, consent: Consent)
    ensures SameWork(s, ConsentSet(s, consent)) && SameWork(s, MessageReceived(s))
  {
  }

  lemma ContactKeepsWork(s: Session, step: Step)
    requires step.TakeOver? || step.MessageStep? || step.ConsentStep?
    ensures SameWork(s, Elsewhere(s, step))
  {
    if step.ConsentStep? {
      ConsentKeepsWork(s, step.consent);
    } else if step.MessageStep? {
      ConsentKeepsWork(s, s.consent);
    }
  }

  lemma OpenKeepsIntake(s: Session, at: Situation)
    ensures if s.drafts != [] then SameWork(s, Open(s, at).0)
            else var r := Open(s, at).0;
                 && r.policy == s.policy && r.cases == s.cases && r.jobs == s.jobs
                 && (r.drafts == [] || r.drafts == [NewDraft(at.prefill, Collecting)])
  {
  }

  lemma RequestKeepsIntake(s: Session, at: Situation, agreed: bool)
    ensures SameIntake(s, RequestFollowup(s, at, agreed).0)
  {
  }

  /** The steps that neither start an intake nor change what it says. */
  predicate LeavesIntake(s: Session, step: Step) {
    && !step.CaptureStep? && !step.ChatStep? && !step.WaiveStep? && !step.HandOffStep? && !step.ConfirmStep?
    && (step.OpenStep? ==> s.drafts != [])
  }

  lemma InCallKeepsIntake(s: Session, step: Step)
    requires OfCall(step) && LeavesIntake(s, step)
    ensures SameIntake(s, InCall(s, step))
  {
    match step
    case OpenStep(at) => OpenKeepsIntake(s, at);
    case EscalateStep(at, marker, reason) => EscalateKeepsWork(s, at, marker, reason);
    case OutcomeStep(outcome) => OutcomeKeepsWork(s, outcome);
    case RequestStep(at, agreed) => RequestKeepsIntake(s, at, agreed);
    case _ =>
  }

  lemma StepKeepsIntake(s: Session, step: Step)
    requires LeavesIntake(s, step)
    ensures SameIntake(s, Apply(s, step))
  {
    if OfCall(step) {
      InCallKeepsIntake(s, step);
    } else if step.TicketStep? {
      OutsideKeepsWork(s, step.k, step.act);
    } else {
      ContactKeepsWork(s, step);
    }
  }

  // ---- fields stay --------------------------------------------------------------------------------------

  lemma CaptureKeepsField(s: Session, at: Situation, r: Request, key: string)
    requires Kept(s, key) && F.Named(at.directory) && (key == "serviceAddress" ==> AddressesGiven(at.directory))
    ensures Kept(Capture(s, at, r).0, key)
  {
    CaptureErasesIff(s, at, r, key);
  }

  lemma ChatKeepsField(s: Session, chat: Chat, proposal: F.Proposal, nationalId: bool, key: string)
    requires Kept(s, key)
    ensures Kept(ChatUpdated(s, chat, proposal, nationalId).0, key)
  {
    F.ProposalKeepsNonBlank(s.drafts[0].fields, proposal, key);
  }

  lemma WaiverKeepsField(s: Session, field: string, key: string)
    requires Kept(s, key)
    ensures Kept(Waived(s, field), key) && Kept(HandedOver(s), key)
  {
  }

  lemma ConfirmKeepsField(s: Session, chat: Chat, key: string)
    requires Kept(s, key)
    ensures Kept(ChatConfirmed(s, chat).0, key)
  {
  }

  lemma StepKeepsField(s: Session, step: Step, key: string)
    requires Kept(s, key) && KeepsField(step, key)
    ensures Kept(Apply(s, step), key)
  {
    match step
    case CaptureStep(at, request) => CaptureKeepsField(s, at, request, key);
    case ChatStep(chat, proposal, nationalId) => ChatKeepsField(s, chat, proposal, nationalId, key);
    case WaiveStep(field) => WaiverKeepsField(s, field, key);
    case HandOffStep => WaiverKeepsField(s, "", key);
    case ConfirmStep(chat) => ConfirmKeepsField(s, chat, key);
    case _ => StepKeepsIntake(s, step);
  }

  /** Once saved and not blank, a field never becomes blank in any run, the WhatsApp writers of the intake
      included; for the service address this takes a directory whose stores have no blank addresses. */
  lemma {:induction false} FieldsStayKept(s: Session, steps: seq<Step>, key: string)
    requires Kept(s, key) && forall i :: 0 <= i < |steps| ==> KeepsField(steps[i], key)
    ensures Kept(Run(s, steps), key)
    decreases |steps|
  {
    if steps != [] {
      FieldsStayKept(s, steps[..|steps| - 1], key);
      StepKeepsField(Run(s, steps[..|steps| - 1]), steps[|steps| - 1], key);
    }
  }

  // ---- the case -----------------------------------------------------------------------------------------

  /** A capture opens a case only in a live call, on confirmation, with a photo where one is required and every
      required field given; the case is urgent when the call was escalated. */
  lemma OpenedCaseIsComplete(s: Session, at: Situation, r: Request)
    requires Capture(s, at, r).1 == Ok(CaseOpened)
    ensures s.live && s.aiMode && at.verified && r.confirmed && (s.policy.photoRequired ==> at.photo)
    ensures var after := Capture(s, at, r).0;
            && after.drafts != [] && after.drafts[0].status == Confirmed
            && (forall i :: 0 <= i < |s.policy.required| ==> !F.Absent(after.drafts[0].fields, s.policy.required[i]))
            && |after.cases| == 1 && (Emergency(s.tickets) ==> after.cases[0].priority == Urgent)
  {
    F.NothingMissing(SaveFields(s, at, r).value.0.drafts[0].fields, s.policy.required);
  }

  /** The field is given, as the call or as the conversation counts it. */
  predicate Given(d: Draft, key: string) {
    !F.Absent(d.fields, key) || !F.AbsentInChat(d.fields, d.nationalId, key)
  }

  predicate Complete(d: Draft, required: seq<string>) {
    && d.status == Confirmed
    && forall i :: 0 <= i < |required| && F.RequiredKey(required[i]) ==> Given(d, required[i]) || required[i] in d.waived
  }

  predicate CaseComplete(s: Session) {
    s.cases != [] ==> s.drafts != [] && Complete(s.drafts[0], s.policy.required)
  }

  lemma SameIntakeSameCase(s: Session, r: Session)
    requires CaseComplete(s) && SameIntake(s, r)
    ensures CaseComplete(r)
  {
  }

  lemma CaptureKeepsPolicy(s: Session, at: Situation, r: Request)
    ensures Capture(s, at, r).0.policy == s.policy
    ensures Capture(s, at, r).1 != Ok(CaseOpened) ==> Capture(s, at, r).0.cases == s.cases
    ensures s.cases != [] ==> Capture(s, at, r).0 == s
  {
  }

  lemma CaptureKeepsCase(s: Session, at: Situation, r: Request)
    requires CaseComplete(s)
    ensures CaseComplete(Capture(s, at, r).0)
  {
    CaptureKeepsPolicy(s, at, r);
    if Capture(s, at, r).1 == Ok(CaseOpened) {
      OpenedCaseIsComplete(s, at, r);
    }
  }

  lemma OpenKeepsCase(s: Session, at: Situation)
    requires CaseComplete(s)
    ensures CaseComplete(Open(s, at).0)
  {
    OpenKeepsIntake(s, at);
  }

  lemma ChatKeepsCase(s: Session, chat: Chat, proposal: F.Proposal, nationalId: bool)
    requires CaseComplete(s)
    ensures CaseComplete(ChatUpdated(s, chat, proposal, nationalId).0)
  {
  }

  lemma WaiverKeepsCase(s: Session, field: string)
    requires CaseComplete(s)
    ensures CaseComplete(Waived(s, field)) && CaseComplete(HandedOver(s))
  {
  }

  lemma ConfirmKeepsCase(s: Session, chat: Chat)
    requires CaseComplete(s)
    ensures CaseComplete(ChatConfirmed(s, chat).0)
  {
  }

  lemma StepKeepsCase(s: Session, step: Step)
    requires CaseComplete(s)
    ensures CaseComplete(Apply(s, step))
  {
    match step
    case OpenStep(at) => OpenKeepsCase(s, at);
    case CaptureStep(at, request) => CaptureKeepsCase(s, at, request);
    case ChatStep(chat, proposal, nationalId) => ChatKeepsCase(s, chat, proposal, nationalId);
    case WaiveStep(field) => WaiverKeepsCase(s, field);
    case HandOffStep => WaiverKeepsCase(s, "");
    case ConfirmStep(chat) => ConfirmKeepsCase(s, chat);
    case _ =>
      StepKeepsIntake(s, step);
      SameIntakeSameCase(s, Apply(s, step));
  }

  /** The fields that staff waived on the draft. */
  function WaivedOf(s: Session): set<string> {
    if s.drafts == [] then {} else s.drafts[0].waived
  }

  lemma CaptureWaivesNothing(s: Session, at: Situation, r: Request)
    ensures WaivedOf(Capture(s, at, r).0) == WaivedOf(s)
  {
  }

  lemma OpenWaivesNothing(s: Session, at: Situation)
    ensures WaivedOf(Open(s, at).0) == WaivedOf(s)
  {
    OpenKeepsIntake(s, at);
  }

  lemma ChatWaivesNothing(s: Session, chat: Chat, proposal: F.Proposal, nationalId: bool)
    ensures WaivedOf(ChatUpdated(s, chat, proposal, nationalId).0) == WaivedOf(s)
  {
  }

  lemma ConfirmWaivesNothing(s: Session, chat: Chat)
    ensures WaivedOf(ChatConfirmed(s, chat).0) == WaivedOf(s)
  {
  }

  lemma WaiverWaives(s: Session, field: string)
    ensures WaivedOf(Waived(s, field)) <= WaivedOf(s) + {field} && WaivedOf(HandedOver(s)) == WaivedOf(s)
  {
  }

  lemma StepWaives(s: Session, step: Step, key: string)
    requires key in WaivedOf(Apply(s, step)) && key !in WaivedOf(s)
    ensures step == WaiveStep(key)
  {
    match step
    case OpenStep(at) => OpenWaivesNothing(s, at);
    case CaptureStep(at, request) => CaptureWaivesNothing(s, at, request);
    case ChatStep(chat, proposal, nationalId) => ChatWaivesNothing(s, chat, proposal, nationalId);
    case WaiveStep(field) => WaiverWaives(s, field);
    case HandOffStep => WaiverWaives(s, "");
    case ConfirmStep(chat) => ConfirmWaivesNothing(s, chat);
    case _ => StepKeepsIntake(s, step);
  }

  predicate WaivedIn(steps: seq<Step>, key: string) {
    WaiveStep(key) in steps
  }

  lemma {:induction false} OnlyStaffWaive(s: Session, steps: seq<Step>, key: string)
    requires Fresh(s) && key in WaivedOf(Run(s, steps))
    ensures WaivedIn(steps, key)
    decreases |steps|
  {
    var n := |steps| - 1;
    assert steps != [] ==> steps == steps[..n] + [steps[n]];
    if steps != [] {
      if key in WaivedOf(Run(s, steps[..n])) {
        OnlyStaffWaive(s, steps[..n], key);
      } else {
        StepWaives(Run(s, steps[..n]), steps[n], key);
      }
    }
  }

  lemma {:induction false} RunKeepsCase(s: Session, steps: seq<Step>)
    requires Fresh(s)
    ensures CaseComplete(Run(s, steps))
    decreases |steps|
  {
    if steps != [] {
      RunKeepsCase(s, steps[..|steps| - 1]);
      StepKeepsCase(Run(s, steps[..|steps| - 1]), steps[|steps| - 1]);
    }
  }

  /** In every state of every run, whoever opened the case: its intake is confirmed, and each required field is
      given unless staff waived that very field in the run. */
  lemma CasesAreComplete(s: Session, steps: seq<Step>, i: nat)
    requires Fresh(s) && Run(s, steps).cases != []
    requires i < |Run(s, steps).policy.required| && F.RequiredKey(Run(s, steps).policy.required[i])
    ensures var after := Run(s, steps);
            && after.drafts != [] && after.drafts[0].status == Confirmed
            && (Given(after.drafts[0], after.policy.required[i]) || WaivedIn(steps, after.policy.required[i]))
  {
    RunKeepsCase(s, steps);
    var key := Run(s, steps).policy.required[i];
    if !Given(Run(s, steps).drafts[0], key) {
      OnlyStaffWaive(s, steps, key);
    }
  }

  /** Only a capture in the call and the confirmation in the conversation open a case. */
  lemma OnlyTwoStepsOpenCases(s: Session, step: Step)
    requires s.cases == [] && Apply(s, step).cases != []
    ensures || (step.CaptureStep? && Capture(s, step.at, step.request).1 == Ok(CaseOpened))
            || (step.ConfirmStep? && ChatConfirmed(s, step.chat).1 == Ok(CaseOpened))
  {
    match step
    case OpenStep(at) => OpenKeepsIntake(s, at);
    case CaptureStep(at, request) => CaptureKeepsPolicy(s, at, request);
    case ChatStep(_, _, _) =>
    case WaiveStep(_) =>
    case HandOffStep =>
    case ConfirmStep(_) =>
    case _ => StepKeepsIntake(s, step);
  }

  /** The case of an escalated call is urgent if and only if it is opened in the call: the conversation opens
      it with normal priority. */
  lemma EscalatedCaseIsUrgentIff(s: Session, step: Step)
    requires s.cases == [] && Apply(s, step).cases != [] && Emergency(s.tickets)
    ensures |Apply(s, step).cases| == 1
    ensures Apply(s, step).cases[0].priority == Urgent <==> step.CaptureStep?
  {
    OnlyTwoStepsOpenCases(s, step);
    if step.CaptureStep? {
      OpenedCaseIsComplete(s, step.at, step.request);
    }
  }

  // ---- consent ----------------------------------------------------------------------------------------

  /** A verified caller, whose number WhatsApp can reach, agrees in a live call to the follow-up of a saved
      intake, and the policy sends follow-ups and counts the agreement. */
  predicate AgreementCounts(s: Session, at: Situation, agreed: bool) {
    && ContextError(s, at) == None && at.verified && s.live && s.aiMode && s.policy.followUp && at.whatsapp
    && s.drafts != [] && at.callerIdentity && s.contactActive && agreed && s.policy.agreementCounts
  }

  predicate Refused(s: Session) {
    s.consent == Revoked || (s.optedOut && s.consent != Granted)
  }

  /** Whoever has neither consented nor refused consents by a message of their own, or by an agreement that
      counts. */
  predicate Consents(s: Session, step: Step) {
    s.consent == Unknown && !Refused(s) && (step.MessageStep? || (step.RequestStep? && AgreementCounts(s, step.at, step.agreed)))
  }

  predicate StaffGrant(step: Step) {
    step == ConsentStep(Granted)
  }

  lemma RequestGrantsIff(s: Session, at: Situation, agreed: bool)
    requires s.consent != Granted
    ensures RequestFollowup(s, at, agreed).0.consent == Granted <==> Consents(s, RequestStep(at, agreed))
  {
  }

  lemma InCallKeepsConsent(s: Session, step: Step)
    requires OfCall(step) && !step.RequestStep?
    ensures SameConsent(s, InCall(s, step))
  {
  }

  lemma ElsewhereKeepsConsent(s: Session, step: Step)
    requires !OfCall(step) && !step.MessageStep? && !step.ConsentStep?
    ensures SameConsent(s, Elsewhere(s, step))
  {
  }

  lemma StepGrantsIff(s: Session, step: Step)
    requires s.consent != Granted
    ensures Apply(s, step).consent == Granted <==> Consents(s, step) || StaffGrant(step)
  {
    if step.RequestStep? {
      RequestGrantsIff(s, step.at, step.agreed);
    } else if OfCall(step) {
      InCallKeepsConsent(s, step);
    } else if !step.MessageStep? && !step.ConsentStep? {
      ElsewhereKeepsConsent(s, step);
    }
  }

  predicate SeesConsent(s: Session, steps: seq<Step>)
    decreases |steps|
  {
    Run(s, steps).consent == Granted || (steps != [] && SeesConsent(s, steps[..|steps| - 1]))
  }

  predicate ConsentsSometime(s: Session, steps: seq<Step>)
    decreases |steps|
  {
    steps != []
    && (Consents(Run(s, steps[..|steps| - 1]), steps[|steps| - 1]) || ConsentsSometime(s, steps[..|steps| - 1]))
  }

  predicate StaffGrantSometime(steps: seq<Step>) {
    exists i :: 0 <= i < |steps| && StaffGrant(steps[i])
  }

  lemma StaffGrantOn(steps: seq<Step>)
    requires steps != []
    ensures StaffGrantSometime(steps) <==> StaffGrantSometime(steps[..|steps| - 1]) || StaffGrant(steps[|steps| - 1])
  {
    if StaffGrant(steps[|steps| - 1]) {
      assert StaffGrantSometime(steps);
    }
    if StaffGrantSometime(steps[..|steps| - 1]) {
      var i :| 0 <= i < |steps| - 1 && StaffGrant(steps[..|steps| - 1][i]);
      assert StaffGrant(steps[i]);
    }
    if i :| 0 <= i < |steps| - 1 && StaffGrant(steps[i]) {
      assert StaffGrant(steps[..|steps| - 1][i]);
    }
  }

  /** A contact without consent comes to have it in a run if and only if staff set it, or the contact, not
      refusing at that time, writes a message or gives an agreement that counts. */
  lemma {:induction false} ConsentIsGivenIff(s: Session, steps: seq<Step>)
    requires s.consent != Granted
    ensures SeesConsent(s, steps) <==> ConsentsSometime(s, steps) || StaffGrantSometime(steps)
    decreases |steps|
  {
    if steps != [] {
      var before := Run(s, steps[..|steps| - 1]);
      ConsentIsGivenIff(s, steps[..|steps| - 1]);
      StaffGrantOn(steps);
      if before.consent != Granted {
        StepGrantsIff(before, steps[|steps| - 1]);
      }
    }
  }

  // ---- refusal ------------------------------------------------------------------------------------------

  predicate NoFollowup(s: Session) {
    s.jobs == [] && (s.drafts != [] ==> s.drafts[0].followup != Requested)
  }

  /** Staff lift a refusal by granting consent, or by forgetting a revocation that left no opt-out. */
  predicate Lifts(s: Session, step: Step) {
    step.ConsentStep? && (step.consent == Granted || (step.consent == Unknown && !s.optedOut))
  }

  lemma StepStaysRefusedIff(s: Session, step: Step)
    requires Refused(s)
    ensures Refused(Apply(s, step)) <==> !Lifts(s, step)
  {
    if !step.ConsentStep? {
      RefusedKeepsConsent(s, step);
    }
  }

  lemma RefusedKeepsConsent(s: Session, step: Step)
    requires Refused(s) && !step.ConsentStep?
    ensures SameConsent(s, Apply(s, step))
  {
    if OfCall(step) {
      if !step.RequestStep? { InCallKeepsConsent(s, step); }
    } else if !step.MessageStep? {
      ElsewhereKeepsConsent(s, step);
    }
  }

  lemma CaptureSendsNothing(s: Session, at: Situation, r: Request)
    requires NoFollowup(s)
    ensures NoFollowup(Capture(s, at, r).0)
  {
  }

  lemma RequestSendsNothing(s: Session, at: Situation, agreed: bool)
    requires Refused(s) && NoFollowup(s)
    ensures NoFollowup(RequestFollowup(s, at, agreed).0)
  {
  }

  lemma EndSendsNothing(s: Session, at: Situation)
    requires Refused(s) && NoFollowup(s)
    ensures NoFollowup(EndCall(s, at))
  {
  }

  lemma ReportSendsNothing(s: Session, status: Followup)
    requires NoFollowup(s)
    ensures NoFollowup(FollowupReported(s, status).0)
  {
  }

  lemma OpenSendsNothing(s: Session, at: Situation)
    requires NoFollowup(s)
    ensures NoFollowup(Open(s, at).0)
  {
  }

  lemma DraftStepsSendNothing(s: Session, step: Step)
    requires NoFollowup(s) && (step.ChatStep? || step.WaiveStep? || step.HandOffStep? || step.ConfirmStep?)
    ensures NoFollowup(Elsewhere(s, step))
  {
  }

  lemma InCallSendsNothing(s: Session, step: Step)
    requires Refused(s) && NoFollowup(s) && OfCall(step)
    ensures NoFollowup(InCall(s, step))
  {
    match step
    case OpenStep(at) => OpenSendsNothing(s, at);
    case CaptureStep(at, request) => CaptureSendsNothing(s, at, request);
    case EscalateStep(at, marker, reason) => EscalateKeepsWork(s, at, marker, reason);
    case OutcomeStep(outcome) => OutcomeKeepsWork(s, outcome);
    case RequestStep(at, agreed) => RequestSendsNothing(s, at, agreed);
    case ReportStep(status) => ReportSendsNothing(s, status);
    case AttachStep =>
    case EndStep(at) => EndSendsNothing(s, at);
  }

  lemma StepSendsNothing(s: Session, step: Step)
    requires Refused(s) && NoFollowup(s)
    ensures NoFollowup(Apply(s, step))
  {
    if OfCall(step) {
      InCallSendsNothing(s, step);
    } else {
      match step
      case TicketStep(k, act) => OutsideKeepsWork(s, k, act);
      case TakeOver => ContactKeepsWork(s, step);
      case MessageStep => ContactKeepsWork(s, step);
      case ConsentStep(_) => ContactKeepsWork(s, step);
      case _ => DraftStepsSendNothing(s, step);
    }
  }

  predicate AlwaysRefused(s: Session, steps: seq<Step>)
    decreases |steps|
  {
    Refused(Run(s, steps)) && (steps != [] ==> AlwaysRefused(s, steps[..|steps| - 1]))
  }

  predicate LiftedSometime(s: Session, steps: seq<Step>)
    decreases |steps|
  {
    steps != [] && (Lifts(Run(s, steps[..|steps| - 1]), steps[|steps| - 1]) || LiftedSometime(s, steps[..|steps| - 1]))
  }

  /** A refusal stands throughout a run if and only if staff never lift it: no agreement, no message of the
      contact and no function of the call does.  While it stands, no follow-up job is created. */
  lemma {:induction false} RefusalStandsIff(s: Session, steps: seq<Step>)
    requires Refused(s)
    ensures AlwaysRefused(s, steps) <==> !LiftedSometime(s, steps)
    ensures AlwaysRefused(s, steps) && NoFollowup(s) ==> NoFollowup(Run(s, steps))
    decreases |steps|
  {
    if steps != [] {
      var before := Run(s, steps[..|steps| - 1]);
      RefusalStandsIff(s, steps[..|steps| - 1]);
      if AlwaysRefused(s, steps[..|steps| - 1]) {
        StepStaysRefusedIff(before, steps[|steps| - 1]);
        if NoFollowup(s) { StepSendsNothing(before, steps[|steps| - 1]); }
      }
    }
  }

  /** Consent revoked between the request and the end of the call does not stop the job from being queued. */
  lemma LateRevocationStillQueues(s: Session, at: Situation)
    requires s.live && s.policy.followUp && s.jobs == [] && s.drafts != [] && s.drafts[0].followup == Requested
    ensures Refused(Run(s, [ConsentStep(Revoked), EndStep(at)]))
    ensures Run(s, [ConsentStep(Revoked), EndStep(at)]).jobs == [Job(0, AtCallEnd)]
  {
    var revoked := ConsentSet(s, Revoked);
    assert [ConsentStep(Revoked), EndStep(at)][..1] == [ConsentStep(Revoked)];
    assert [ConsentStep(Revoked)][..0] == [] && Run(s, []) == s;
    assert Run(s, [ConsentStep(Revoked)]) == revoked;
    assert Run(s, [ConsentStep(Revoked), EndStep(at)]) == EndCall(revoked, at);
  }
}
