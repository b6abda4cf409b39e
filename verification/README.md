# Verification of the platform's state machines

Dafny models of the parts of the platform that hold state for long and are entered from many sides, with
proofs of what they keep. Most of them are PL/pgSQL functions and triggers inside the migrations: each is
one atomic step on the rows it locks, and a run is any sequence of steps by any callers. The rest are
algorithms of the maintenance scripts.

`dafny verify dfyconfig.toml` checks the whole project.

| file | models |
|---|---|
| `FieldDispatch.dfy` | claim, reassignment and creation of field work, and the assignment queue |
| `VoiceIntake.dfy` | one voice call: draft, tickets, case, follow-up job and consent |
| `DispatchOutcomes.dfy`, `VisitOutcomes.dfy`, `TicketOutcomes.dfy`, `VoiceOutcomes.dfy`, `FieldOutcomes.dfy` | what the calls of these answer and change, column by column |
| `VoiceUniqueness.dfy`, `VoiceTimelines.dfy`, `VoicePromises.dfy` | what runs of a call keep |
| `ReplyCorrelation.dfy` | which intake a customer's message belongs to |
| `IntakeFields.dfy` | the fields of an intake and the store directory |
| `TicketTimeline.dfy` | one support ticket and its timeline |
| `VisitTimeline.dfy` | the times of a visit, their corrections and the evidence gates |
| `WorkQueue.dfy` | the lease-based queue of inbound events |
| `BillingTopups.dfy`, `PaymentSources.dfy` | the billing webhooks |
| `DependencyCycles.dfy` | the depth-first search for dependency cycles |
| `RestartBudget.dfy` | the crash-safe restart limiter |
| `CascadeClosure.dfy` | the foreign-key check before fixtures are deleted |
| `BurstDedup.dfy` | the deduplication of call bursts |
| `ChannelSli.dfy` | the counts of the channel's service level |
| `SqlSplitter.dfy` | the statement splitter of the migrations |
| `BroadcastCounts.dfy` | the counters of a broadcast |
| `FieldService.dfy` | the states of cases and visits, and priorities |
| `OrderedLimit.dfy`, `Common.dfy` | `ORDER BY ... LIMIT`, optional values, blanks |

Where the source changes rows in place the model is a class whose methods do the same steps, an exception
included, which undoes them; each method is proved against a function of the old state, and the runs are
proved over those functions. Time, the session, feature switches and the answers of functions that are not
modelled are parameters that may take any value at every step. Tenant scope is one fixed tenant.

## What does not hold

Some promises turned out to hold only under a condition. The models keep the code as it is and prove the
condition.

- A captured field can become blank: a store whose directory address is empty, not NULL, erases the address
  the caller gave (`IntakeFields.OnlyBlankStoreAddressErases`, `VoicePromises.CaptureErasesIff`).
- An emergency can be refused: after a case was opened without an inquiry, the unique index on the ticket's
  draft rejects the escalation (`VoiceUniqueness.EscalationIsRejectedIff`).
- An inquiry can stay with the AI, because opening does not ask whether the call is still on
  (`VoiceTimelines.LateInquiryStaysIff`). One that the end of the call gave to people can come back to an AI
  stage: by the customer's answer that the issue is not solved, even though a person handles the ticket
  (`TicketTimeline.ComplaintReturnsToAi`, `VoiceTimelines.InquiryReturnsIff`), or, if it was paused or
  handled by WhatsApp, by being handed to the voice agent (`TicketTimeline.ReturnsToAiIff`).
- The case of an escalated call is not urgent when the customer confirms the intake in WhatsApp
  (`VoicePromises.EscalatedCaseIsUrgentIff`).
- A case can have open visits of two technicians: signing attendance does not look at the visit's status, so
  a cancelled visit can be signed (`FieldDispatch.ReassignedVisitCanBeSigned`,
  `FieldDispatch.RunsStayInOrderIff`). The access rules hide a case that was given away from a session with the
  technician role, unless its technician keeps an appointment in progress or completed there
  (`FieldDispatch.FormerTechnicianReachesIff`); sessions of technicians with another role are not restricted.
- A message that waits for a person can be attached without one, and then to a second intake: the trigger runs
  again when the message is updated (`ReplyCorrelation.HeldIsAttachedIff`,
  `ReplyCorrelation.HeldCanEndInTwoIntakes`).
- The card can depend on the order of events when requests share a setup intent
  (`PaymentSources.OrderMattersIff`).
- A lease can be cut short by a worker that asks for a shorter one (`WorkQueue.ShorterLeaseCutsIn`).
- The fixture check misses rows with a NULL in a described column (`CascadeClosure.NullEscapesTheProbe`), and
  refuses rows that a delete keeps, through keys that do not cascade (`CascadeClosure.RefusesTooMuchIff`).

The service-level counts add up unless a message id equals an event id. The splitter needs an even number of
dollar marks.

## Model

| member | source | states |
|---|---|---|
| `FieldDispatch.ClaimIsRefusedIff` | db/alembic/versions/7b3d9e5a1c48_scope_field_work_to_session_technicians.py:640-669 | A technician's claim is refused exactly when the case has ended or belongs to another technician in any way: by assignment, by an appointment or by a visit that is not cancelled. |
| `FieldDispatch.CaseRecord.Apply` | db/alembic/versions/7b3d9e5a1c48_scope_field_work_to_session_technicians.py:621-711 | An assignment cancels the other technicians' open visits and appointments, sets the technician, reuses or numbers a visit and records the change; a refused one changes nothing. |
| `FieldDispatch.AssignmentOwnsVisits` | db/alembic/versions/7b3d9e5a1c48_scope_field_work_to_session_technicians.py:655-689 | From any state, an assignment that succeeds leaves every visit that is not cancelled with the assigned technician, who has one. |
| `FieldDispatch.OnlyOthersAreWithdrawn` | db/alembic/versions/7b3d9e5a1c48_scope_field_work_to_session_technicians.py:673-675 | An assignment leaves no other technician a suggested or scheduled appointment, and every other appointment as it is. |
| `FieldDispatch.RunsStayInOrderIff` | db/alembic/versions/7b3d9e5a1c48_scope_field_work_to_session_technicians.py:621-711 | Throughout a run of claims, reassignments, technician-created cases, signed attendance, reports and outside changes of status and appointments, each case keeps exactly one visit that is not cancelled, the assigned technician's, with numbers 1 to n and audit records that chain from nobody to that technician, if and only if no session that reaches its case signs a cancelled visit. |
| `FieldDispatch.ReassignedVisitCanBeSigned` | packages/ts/crm/src/field-service.ts:2828-2925 | Signing does not look at the status: when a manager gave the case away, the former technician's cancelled visit can still be signed by any session that reaches the case, and visits of two technicians are then not cancelled. |
| `FieldDispatch.FormerTechnicianReachesIff` | db/alembic/versions/7b3d9e5a1c48_scope_field_work_to_session_technicians.py:452-482 | A session of the former technician still reaches a case that was given to another if and only if its role is not technician, or that technician has an appointment there that is in progress or completed. |
| `FieldDispatch.AttendedVisitsStay` | db/alembic/versions/7b3d9e5a1c48_scope_field_work_to_session_technicians.py:655-672 | From any state on, a visit keeps its technician and number, and an attended visit is never cancelled. |
| `FieldDispatch.FirstClaimWins` | db/alembic/versions/7b3d9e5a1c48_scope_field_work_to_session_technicians.py:643-647 | Until a manager steps in, a claimed case stays with its technician in every interleaving, and a claim by any other session fails and changes nothing. |
| `FieldDispatch.ManagerIsRefusedOnlyByAttendance` | db/alembic/versions/7b3d9e5a1c48_scope_field_work_to_session_technicians.py:640-662 | A manager's reassignment is refused exactly when the case has ended or another technician attended. |
| `FieldDispatch.NewCaseIsAssigned` | db/alembic/versions/7b3d9e5a1c48_scope_field_work_to_session_technicians.py:940-942 | A case that a technician creates is assigned to that technician in the same transaction, with visit 1 and one audit record; it cannot be refused. |
| `FieldDispatch.ListedSatisfiesView` | db/alembic/versions/7b3d9e5a1c48_scope_field_work_to_session_technicians.py:826-850 | Every listed case satisfies the view, and none is listed twice. |
| `FieldDispatch.LeftOutIsPreceded` | db/alembic/versions/7b3d9e5a1c48_scope_field_work_to_session_technicians.py:848-850 | A case of the view is missing only when a hundred cases that precede it by urgency, age and id fill the list, or when self-assignment is off for a technician. |
| `FieldDispatch.AvailableCanBeClaimed` | db/alembic/versions/7b3d9e5a1c48_scope_field_work_to_session_technicians.py:826-839 | Any available case can be claimed from any session that may claim; it then leaves the available view, is in the claimant's own view, and no other case changes. |
| `FieldDispatch.OwnListsAreDisjoint` | db/alembic/versions/7b3d9e5a1c48_scope_field_work_to_session_technicians.py:841-846 | In every run in which nobody signs a cancelled visit, the own lists of two technicians share no case. |
| `DispatchOutcomes.AssignmentEffect` | db/alembic/versions/7b3d9e5a1c48_scope_field_work_to_session_technicians.py:671-711 | Part by part, what an assignment that succeeds leaves of any case: its number, status, priority and time stand; old visits stand but for the others' open ones, which are cancelled; at most one visit is added, under the next number; the answer is the number of the technician's open visit; and one audit record is added exactly when the assignee changes, with the old assignee, the technician, whether it was a claim, and that number. |
| `DispatchOutcomes.RefusalIsTrue` | db/alembic/versions/7b3d9e5a1c48_scope_field_work_to_session_technicians.py:640-669 | An assignment is refused if and only if something stands against it; it then changes nothing, and its answer is the first such thing in the order of the checks. |
| `DispatchOutcomes.ClaimantIff` | db/alembic/versions/7b3d9e5a1c48_scope_field_work_to_session_technicians.py:727-766 | A call assigns a technician if and only if dispatch and the session are active and it is a claim for the session's own technician with self-assignment on, or an owner's or admin's choice of an active technician with a reason of 3 to 1000 characters. |
| `DispatchOutcomes.OnlyMovesChangeStatus` | db/alembic/versions/7b3d9e5a1c48_scope_field_work_to_session_technicians.py:676-678 | In every run a case has the status of the last outside move, or the one it started with: no assignment, signature, report or booking changes it. |
| `DispatchOutcomes.AvailableIff` | db/alembic/versions/7b3d9e5a1c48_scope_field_work_to_session_technicians.py:828-839 | A case is in the available view if and only if every technician could claim it. |
| `DispatchOutcomes.ListShowsIff` | db/alembic/versions/7b3d9e5a1c48_scope_field_work_to_session_technicians.py:826-850 | Of at most a hundred cases the list shows exactly those of its view. |
| `DispatchOutcomes.LeftOutIsLater` | db/alembic/versions/7b3d9e5a1c48_scope_field_work_to_session_technicians.py:848-850 | What a full list leaves out is less urgent than everything in it, or as urgent and younger, or of one time with a greater id. |
| `DispatchOutcomes.CreationIff` | db/alembic/versions/7b3d9e5a1c48_scope_field_work_to_session_technicians.py:884-942 | A case is created exactly for an active technician session with a technician, an existing customer and a valid place; it starts with nothing but visit 1 and its audit record. |
| `OrderedLimit.LimitedSelects` | db/alembic/versions/7b3d9e5a1c48_scope_field_work_to_session_technicians.py:848-850 | An ordered and limited selection is in order, within the limit, and holds selected rows only, each once. |
| `OrderedLimit.LimitedTakesFirst` | db/alembic/versions/2b2b64433c98_fence_messaging_worker_claims_and_.py:87-88 | A selected row is missing only when the limit is used up by rows that all precede it. |
| `VoiceIntake.VoiceInquiry.OpenInquiry` | db/alembic/versions/6f8b0d3e5a29_make_voice_intake_traceable.py:173-201 | Opening an inquiry creates the draft and the ticket once, links them, and is rolled back whole when the unique index on the ticket's draft rejects the link. |
| `VoiceIntake.VoiceInquiry.SaveCaptured` | db/alembic/versions/6f8b0d3e5a29_make_voice_intake_traceable.py:217-258 | What a capture saves in the draft and shows on the open ticket. |
| `VoiceIntake.VoiceInquiry.CaptureIntake` | db/alembic/versions/6f8b0d3e5a29_make_voice_intake_traceable.py:203-288 | A capture with its checks in order, the case it opens when everything is confirmed, and its rollback. |
| `VoiceIntake.VoiceInquiry.Enqueue` | db/alembic/versions/6f8b0d3e5a29_make_voice_intake_traceable.py:379-399 | At most one follow-up job per draft; the draft and the open ticket note it. |
| `VoiceIntake.VoiceInquiry.AskFollowup` | db/alembic/versions/6f8b0d3e5a29_make_voice_intake_traceable.py:405-450 | A requested follow-up with its checks of caller, consent and policy in order. |
| `VoiceIntake.VoiceInquiry.Settle` | db/alembic/versions/6f8b0d3e5a29_make_voice_intake_traceable.py:726-765 | The end of the call settles the open inquiry and queues the follow-up that is due. |
| `VoiceUniqueness.RunsKeepOne` | db/alembic/versions/6f8b0d3e5a29_make_voice_intake_traceable.py:185-195 | In every run of a call and of the same intake in WhatsApp, staff and the customer included: at most one draft, case and follow-up job, one ticket under each key, and one ticket that carries the draft. |
| `VoiceUniqueness.RunsKeepOneTicketIff` | db/alembic/versions/a6d30b9f4c12_add_configurable_service_workflows.py:162-187 | Throughout a run of a call the session has at most one ticket, it is open, and once there is a case it is the case's and carries the draft, if and only if nobody closes it: neither staff nor the customer by the answer that the issue is solved. |
| `VoiceUniqueness.EscalationIsRejectedIff` | db/alembic/versions/6f8b0d3e5a29_make_voice_intake_traceable.py:336-344 | An escalation that passes its checks fails on the unique index if and only if there is a draft, no voice ticket, and another ticket that carries the draft. |
| `VoiceUniqueness.CaseWithoutInquiryBlocksEmergency` | db/alembic/versions/6f8b0d3e5a29_make_voice_intake_traceable.py:336-344 | A caller whose first confirmed capture opened a case without an inquiry cannot escalate an emergency any more. |
| `VoiceTimelines.TicketsEvolve` | db/alembic/versions/6f8b0d3e5a29_make_voice_intake_traceable.py:134-144 | Over any run of a call, tickets are never lost or rekeyed, and each changes only by the operations of a ticket. |
| `VoiceTimelines.TimelinesAreSound` | db/alembic/versions/6f8b0d3e5a29_make_voice_intake_traceable.py:134-144 | In every state of every call, whoever writes on its tickets, each ticket's event sequences are exactly 1 to its counter and an emergency is urgent with a reason. |
| `VoiceTimelines.InquiryReturnsIff` | db/alembic/versions/6f8b0d3e5a29_make_voice_intake_traceable.py:739-751 | The open inquiry of a call that ends, which the voice agent or a person handled, is a person's in every later state of every run, and comes back to an AI stage if and only if the customer answers that the issue is not solved while it waits for the answer. |
| `VoiceTimelines.LateInquiryStaysIff` | db/alembic/versions/6f8b0d3e5a29_make_voice_intake_traceable.py:178-195 | A new inquiry is still the AI's after the end of its call if and only if it was opened when the call was no longer live. |
| `VoicePromises.CaptureErasesIff` | db/alembic/versions/6f8b0d3e5a29_make_voice_intake_traceable.py:229-234 | A capture makes a saved field blank if and only if it saves, the field is the service address, and the chosen store's address is blank without being NULL. |
| `VoicePromises.FieldsStayKept` | db/alembic/versions/6f8b0d3e5a29_make_voice_intake_traceable.py:217-242 | Once saved and not blank, a field never becomes blank in any run, the WhatsApp writers of the intake included; the service address given that no store has a blank address. |
| `VoicePromises.ConsentIsGivenIff` | packages/ts/crm/src/messaging.ts:845-851 | In any run, a contact without consent comes to have it if and only if staff set it, or the contact, having refused neither by revocation nor by opt-out at that time, writes a message or agrees in a live call with a policy that counts the agreement. |
| `VoicePromises.RefusalStandsIff` | packages/ts/crm/src/whatsapp-outbound.ts:459-472 | A refusal, by revocation or opt-out, stands throughout a run if and only if staff never lift it; while it stands no follow-up job is created. |
| `VoicePromises.LateRevocationStillQueues` | db/alembic/versions/6f8b0d3e5a29_make_voice_intake_traceable.py:752-754 | Consent revoked between the request and the end of the call does not stop the job from being queued. |
| `IntakeFields.Merge` | db/alembic/versions/6f8b0d3e5a29_make_voice_intake_traceable.py:218-228 | The loop over the given fields, with the first field in error deciding. |
| `IntakeFields.OnlyBlankStoreAddressErases` | db/alembic/versions/6f8b0d3e5a29_make_voice_intake_traceable.py:229-234 | Over all known fields, given fields and directories: what was not blank becomes blank if and only if it is the address and the store's address is blank but not NULL. |
| `IntakeFields.AddressIsErased` | db/alembic/versions/6f8b0d3e5a29_make_voice_intake_traceable.py:232-233 | A caller's address that a store with an empty address erases. |
| `IntakeFields.NothingMissing` | db/alembic/versions/a6d30b9f4c12_add_configurable_service_workflows.py:124-131 | No required field is missing if and only if each is given, the location by address, store or coordinates and the warranty by yes or no. |
| `VoicePromises.OpenedCaseIsComplete` | db/alembic/versions/6f8b0d3e5a29_make_voice_intake_traceable.py:259-275 | A capture opens a case only in a live call, on confirmation, with every required field and photo given; the case is urgent when the call was escalated. |
| `VoiceIntake.VoiceInquiry.UpdateFromChat` | packages/ts/crm/src/field-service.ts:4440-4515 | The same intake updated from a WhatsApp conversation, while it is open. |
| `VoiceIntake.VoiceInquiry.ConfirmFromChat` | packages/ts/crm/src/field-service.ts:4550-4813 | The same intake confirmed from the conversation: its checks in order, the case it opens and the ticket the case takes. |
| `IntakeFields.ProposalKeepsNonBlank` | packages/ts/crm/src/field-service-domain.ts:161-239 | What a conversation proposes sets fields and blanks none. |
| `VoicePromises.CasesAreComplete` | packages/ts/crm/src/field-service.ts:4586-4594 | In every state of every run, whoever opened the case, in the call or in the conversation: the intake is confirmed, and each required field is given unless staff waived that very field. |
| `VoicePromises.OnlyTwoStepsOpenCases` | db/alembic/versions/6f8b0d3e5a29_make_voice_intake_traceable.py:275-285 | No other step than the capture in the call and the confirmation in the conversation opens a case. |
| `VoicePromises.EscalatedCaseIsUrgentIff` | packages/ts/crm/src/field-service.ts:1583-1583 | The case of an escalated call is urgent if and only if the call opens it; the conversation opens it with normal priority. |
| `VoiceOutcomes.InquiryIsOpenedIff` | db/alembic/versions/6f8b0d3e5a29_make_voice_intake_traceable.py:173-201 | An inquiry is opened if and only if the agent is ready, the policy opens inquiries on first contact, the caller is verified and no other ticket carries the draft; and which answer the other cases get. |
| `VoiceOutcomes.CaptureAnswers` | db/alembic/versions/6f8b0d3e5a29_make_voice_intake_traceable.py:203-288 | When a capture is saved, waits for photos, opens a case, finds one open or lacks a fault, each if and only if. |
| `VoiceOutcomes.CaseEffect` | db/alembic/versions/6f8b0d3e5a29_make_voice_intake_traceable.py:275-285 | A capture that opens the case saves what was heard, confirms the draft, and makes the case urgent or of the urgency that was said. |
| `VoiceOutcomes.CaseTicketEffect` | db/alembic/versions/a6d30b9f4c12_add_configurable_service_workflows.py:139-187 | The case takes the call's ticket when it is open and has no case, and else a ticket of its own, which carries the draft unless another does. |
| `VoiceOutcomes.EscalationEffect` | db/alembic/versions/6f8b0d3e5a29_make_voice_intake_traceable.py:328-348 | An escalation that may be made is recorded for the call alone when there is no contact, and else marks the call's ticket or a new one, which carries the draft where there is one; it fails, and changes nothing, on another ticket that carries the draft or on a refused mark. |
| `VoiceOutcomes.EscalationIsRefused` | db/alembic/versions/6f8b0d3e5a29_make_voice_intake_traceable.py:311-324 | Any other escalation changes nothing and is answered with the first thing that is wrong. |
| `VoiceOutcomes.RequestAnswers` | db/alembic/versions/6f8b0d3e5a29_make_voice_intake_traceable.py:405-450 | Every answer to a request for a follow-up, each if and only if. |
| `VoiceOutcomes.RequestEffect` | db/alembic/versions/6f8b0d3e5a29_make_voice_intake_traceable.py:405-450 | What a request changes: the consent it rests on, the draft's follow-up status, and the job of an intake that is followed up when saved. |
| `VoiceOutcomes.EndQueuesIff` | db/alembic/versions/6f8b0d3e5a29_make_voice_intake_traceable.py:752-763 | From no job, the end of a call creates one, for the end of the call, if and only if the call was live, there is a draft, the policy follows up, and the follow-up was requested, or it was not, the trigger is the call's end, consent is granted without opt-out and the caller can be reached. |
| `VoiceOutcomes.JobTellsTrigger` | db/alembic/versions/6f8b0d3e5a29_make_voice_intake_traceable.py:443-449 | In every run: a job exists under a policy that follows up only, and it was asked for in the call exactly when the policy sends when the intake is saved, and queued at the end of the call otherwise. |
| `VoiceOutcomes.ChatConfirmationIff` | packages/ts/crm/src/field-service.ts:4550-4813 | The conversation opens the case if and only if it is enabled, there is an intake without a case, every required field is there or waived, a required photo is there, the customer is resolved, the store is in the directory, tickets are enabled and the case can be described; it changes nothing else. |
| `FieldOutcomes.MergedIff` | db/alembic/versions/6f8b0d3e5a29_make_voice_intake_traceable.py:218-228 | A request is merged if and only if every field of it has a known key and a text of that key. |
| `FieldOutcomes.MergedEffect` | db/alembic/versions/6f8b0d3e5a29_make_voice_intake_traceable.py:218-228 | Every key then has the last text said under it that is not blank, or what was known. |
| `FieldOutcomes.StoreEffect` | db/alembic/versions/6f8b0d3e5a29_make_voice_intake_traceable.py:229-234 | A chosen store puts its name, and its address and chain where it has them, over what was there, and nothing else. |
| `FieldOutcomes.SanitizedEffect` | packages/ts/crm/src/field-service-domain.ts:161-239 | Key by key what a proposal from the conversation keeps. |
| `ReplyCorrelation.CorrelationDesk.Attach` | db/alembic/versions/6f8b0d3e5a29_make_voice_intake_traceable.py:619-630 | A message is linked to an intake once. |
| `ReplyCorrelation.CorrelationDesk.OnMessage` | db/alembic/versions/6f8b0d3e5a29_make_voice_intake_traceable.py:649-686 | The trigger on a message: attach, hold for a person, or leave alone. |
| `ReplyCorrelation.CorrelationDesk.Resolve` | db/alembic/versions/6f8b0d3e5a29_make_voice_intake_traceable.py:688-704 | A person links a held message to one of its candidates, once. |
| `ReplyCorrelation.LinkedIff` | db/alembic/versions/6f8b0d3e5a29_make_voice_intake_traceable.py:654-684 | The trigger links a message to an intake if and only if it replies to a message of that open intake, or names none and that is the only recent open intake of its conversation. |
| `ReplyCorrelation.HeldIsAttachedIff` | db/alembic/versions/6f8b0d3e5a29_make_voice_intake_traceable.py:653-684 | A held message is attached without a person if and only if an update of it finds one candidate left or its reference open. |
| `ReplyCorrelation.HeldCanEndInTwoIntakes` | db/alembic/versions/6f8b0d3e5a29_make_voice_intake_traceable.py:694-699 | The hold stays open when the trigger attaches its message, so a person can link it to a second intake. |
| `ReplyCorrelation.HoldsAreResolvedOnce` | db/alembic/versions/6f8b0d3e5a29_make_voice_intake_traceable.py:105-118 | Over any run: a message is held once with 2 to 50 different intakes, a person's choice is one of them, is made once and has the message, and no link is lost or repeated. |
| `ReplyCorrelation.MessageEffect` | db/alembic/versions/6f8b0d3e5a29_make_voice_intake_traceable.py:649-686 | The trigger attaches a message to the one intake it can belong to, or holds it, when several candidates are there of which one was asked and it is not held yet, or leaves everything as it is. |
| `ReplyCorrelation.HoldOffers` | db/alembic/versions/6f8b0d3e5a29_make_voice_intake_traceable.py:665-674 | A hold offers candidates only, and all of them or the fifty that changed last. |
| `ReplyCorrelation.ReferencedIff` | db/alembic/versions/6f8b0d3e5a29_make_voice_intake_traceable.py:656-661 | A reply refers to the intake of the first link of that message to an open intake, and to none if and only if there is no such link. |
| `TicketTimeline.TicketRow.Append` | db/alembic/versions/6f8b0d3e5a29_make_voice_intake_traceable.py:134-144 | An event takes the next number of the ticket's counter. |
| `TicketTimeline.TicketRow.MarkEmergency` | db/alembic/versions/5e7a9c2d4f18_add_configurable_field_operations.py:183-221 | An emergency mark with its checks in order; a second mark changes nothing. |
| `TicketTimeline.TicketRow.RecordEscalation` | db/alembic/versions/5e7a9c2d4f18_add_configurable_field_operations.py:225-256 | An outcome is recorded on an emergency only; any but a started transfer hands an open ticket to people. |
| `TicketTimeline.TicketRow.Settle` | db/alembic/versions/6f8b0d3e5a29_make_voice_intake_traceable.py:739-751 | The end of the call on an open ticket. |
| `TicketTimeline.TicketRow.SetHandling` | packages/ts/crm/src/tickets.ts:490-530 | A change of who handles the ticket; what a person handles is not handed back to the AI. |
| `TicketTimeline.TicketRow.ApplyOutcome` | packages/ts/crm/src/post-call.ts:609-693 | What an ended call means for an open ticket: its stage and next action, two events, and a person when the outcome needs one. |
| `TicketTimeline.TicketRow.Answer` | packages/ts/crm/src/post-call.ts:1056-1123 | The customer's answer takes effect on an open ticket that waits for it: it closes the ticket, gives it back to the AI, or calls a person. |
| `TicketTimeline.StepExtends` | db/alembic/versions/6f8b0d3e5a29_make_voice_intake_traceable.py:134-144 | Every operation keeps the events there are, and adds what it adds with the next numbers. |
| `TicketTimeline.RunsAreSound` | db/alembic/versions/5e7a9c2d4f18_add_configurable_field_operations.py:174-178 | Over any run by any writers, staff, workers and the customer included: sequences are 1 to n, no event is lost, an emergency stays as marked and urgent with a reason, and a ticket is closed exactly in the closed stage. |
| `TicketTimeline.ReturnsToAiIff` | packages/ts/crm/src/tickets.ts:490-530 | From a stage that is not the AI's a run comes to one if and only if in it the customer answers "not solved" while waited for, or somebody hands an open ticket that no person handles to the voice agent. |
| `TicketTimeline.SettledReturnsIff` | db/alembic/versions/6f8b0d3e5a29_make_voice_intake_traceable.py:746-747 | The end of a call takes an open ticket out of the AI stages; when the voice agent or a person handled it, it comes back in a run if and only if the customer answers "not solved" while waited for. |
| `TicketTimeline.ComplaintReturnsToAi` | packages/ts/crm/src/post-call.ts:1089-1097 | Such a run: an answered call leaves the issue open, the customer is asked and answers "not solved"; the stage is the AI's while a person still handles the ticket. |
| `TicketTimeline.PausedReturnsToAi` | packages/ts/crm/src/tickets.ts:499-512 | A settled ticket that was paused or handled by WhatsApp can also be handed back to the voice agent. |
| `TicketOutcomes.EmergencyIsMarkedIff` | db/alembic/versions/5e7a9c2d4f18_add_configurable_field_operations.py:183-221 | In any run a ticket without an emergency comes to have one if and only if some step marks it: available, enabled, open, with a reason of 1 to 500 characters, and by a known dispatcher with manual marks on where it is manual. |
| `TicketOutcomes.PersonHandlesIff` | packages/ts/crm/src/tickets.ts:490-530 | In any run a person comes to handle a ticket if and only if some step hands it over: a failed transfer, the end of a voice call, an assignment, an outcome that needs a person, or the customer's wish. |
| `TicketOutcomes.NextActionAfter` | db/alembic/versions/6f8b0d3e5a29_make_voice_intake_traceable.py:739-751 | What is to be done next after each operation: after a call, where nothing was noted, to dispatch its case or else to complete its intake. |
| `TicketOutcomes.StageAfterOthers` | packages/ts/crm/src/post-call.ts:1056-1123 | The stage after what staff, the analysis of a call and the customer's answer do. |
| `VisitTimeline.VisitRecord.Update` | db/alembic/versions/5e7a9c2d4f18_add_configurable_field_operations.py:300-322 | An update passes the mutation trigger, the evidence gate and the constraints, or leaves the row alone. |
| `VisitTimeline.VisitRecord.RecordVisitEvent` | db/alembic/versions/5e7a9c2d4f18_add_configurable_field_operations.py:335-397 | An event is stored once, with the case moving to in progress when work starts. |
| `VisitTimeline.VisitRecord.CorrectVisitTime` | db/alembic/versions/5e7a9c2d4f18_add_configurable_field_operations.py:399-425 | A correction changes one time past the triggers, logs the value before, and leaves the flag off. |
| `VisitTimeline.UpdatesKeepTimes` | db/alembic/versions/5e7a9c2d4f18_add_configurable_field_operations.py:304-319 | Without an active correction, an update keeps every time that is already there. |
| `VisitTimeline.LogsStayUnbroken` | db/alembic/versions/5e7a9c2d4f18_add_configurable_field_operations.py:285-322 | In every run, with the flag set or not by runtime roles: for each of the five times the correction log is an unbroken chain from the value first recorded to the present one, and the row's order constraints hold. |
| `VisitTimeline.OriginalCanBeReplayed` | db/alembic/versions/5e7a9c2d4f18_add_configurable_field_operations.py:417-420 | The value first recorded can be read from the row and its log; completion implies an earlier-or-equal start and an arrival. |
| `VisitTimeline.OtherRolesCanBreakTheLog` | db/alembic/versions/5e7a9c2d4f18_add_configurable_field_operations.py:282-289 | A role outside the runtime roles breaks the chain with the flag. |
| `VisitTimeline.RecordingIsIdempotent` | db/alembic/versions/5e7a9c2d4f18_add_configurable_field_operations.py:353-389 | Recording an event again answers that nothing changed and changes nothing. |
| `VisitTimeline.RepeatedEventChangesNothing` | db/alembic/versions/5e7a9c2d4f18_add_configurable_field_operations.py:353-389 | The same after any other steps in between. |
| `VisitTimeline.NestedGatesNeverReject` | db/alembic/versions/5e7a9c2d4f18_add_configurable_field_operations.py:586-623 | No trigger nested in an event, on the visit or on the case, rejects what the event's own checks have passed. |
| `VisitTimeline.ConstraintRejectsOnlyAheadStart` | db/alembic/versions/5e7a9c2d4f18_add_configurable_field_operations.py:266-269 | The row's constraint rejects an event exactly when work is completed before a start that lies ahead of the clock. |
| `VisitOutcomes.CorrectionIsMadeIff` | db/alembic/versions/5e7a9c2d4f18_add_configurable_field_operations.py:399-425 | A correction is made if and only if a known owner or admin makes it with field service enabled, with a trimmed reason of 3 to 1000 characters and a value at most 300 seconds ahead, attendance was signed where it is attendance, and the row's order holds with the new time. |
| `VisitOutcomes.CorrectionErrorIsTrue` | db/alembic/versions/5e7a9c2d4f18_add_configurable_field_operations.py:399-425 | A refused correction is answered with the first thing that is wrong with it. |
| `VisitOutcomes.CorrectionEffect` | db/alembic/versions/5e7a9c2d4f18_add_configurable_field_operations.py:413-425 | A correction changes that one time and adds one log entry, with the value before, the new one and the trimmed reason; one that is refused changes nothing. |
| `VisitOutcomes.EveryCorrectionIsAuthorised` | db/alembic/versions/5e7a9c2d4f18_add_configurable_field_operations.py:399-425 | In every run each log entry was made by a known owner or admin with field service enabled, a value at most 300 seconds ahead of that moment, and the trimmed reason given. |
| `VisitOutcomes.EventIsRecordedIff` | db/alembic/versions/5e7a9c2d4f18_add_configurable_field_operations.py:335-397 | An event is recorded if and only if the session's own technician reports it on an open visit, the time is not there yet, and preparation, arrival, start and photos are as that event needs them. |
| `VisitOutcomes.UpdateErrorIsTrue` | db/alembic/versions/5e7a9c2d4f18_add_configurable_field_operations.py:300-322 | An update of the row is refused with the first rule it breaks: signed attendance stands, recorded times stand, new times have their photo, and the row's constraints. |
| `WorkQueue.EventQueue.Claim` | db/alembic/versions/2b2b64433c98_fence_messaging_worker_claims_and_.py:78-92 | A claim takes the first claimable rows and marks each as claimed. |
| `WorkQueue.EventQueue.Complete` | db/alembic/versions/2b2b64433c98_fence_messaging_worker_claims_and_.py:112-120 | Completion takes effect only for the worker that holds the event. |
| `WorkQueue.EventQueue.Fail` | db/alembic/versions/2b2b64433c98_fence_messaging_worker_claims_and_.py:123-134 | A failure takes effect only for the worker that holds the event, and sets the time of the next try. |
| `WorkQueue.PickedInLine` | db/alembic/versions/2b2b64433c98_fence_messaging_worker_claims_and_.py:82-88 | A claim takes rows that are claimable and not locked, each once and at most a hundred. |
| `WorkQueue.ClaimTakesFirstInLine` | db/alembic/versions/2b2b64433c98_fence_messaging_worker_claims_and_.py:87-88 | A claimable row that nobody has locked is left only when the clamped limit is used up by rows that all precede it. |
| `WorkQueue.RunsStayConsistent` | db/alembic/versions/66e34e3b2067_add_messaging_worker_claim_primitives.py:113-199 | In every interleaving: each outcome directly follows a claim by the same worker, attempts count the claims and stay within the limit, and nothing follows completion. |
| `WorkQueue.ProcessedIsAbsorbing` | db/alembic/versions/66e34e3b2067_add_messaging_worker_claim_primitives.py:126-130 | A processed event never changes again. |
| `WorkQueue.LostLeaseHasNoEffect` | db/alembic/versions/66e34e3b2067_add_messaging_worker_claim_primitives.py:161-163 | A worker that lost an event changes nothing by reporting on it until it claims again. |
| `WorkQueue.SameNameIsNotFenced` | db/alembic/versions/66e34e3b2067_add_messaging_worker_claim_primitives.py:161-163 | The fence is the worker's name: the report of an old claim finishes a new one of the same worker. |
| `WorkQueue.LeasesAreDisjoint` | db/alembic/versions/2b2b64433c98_fence_messaging_worker_claims_and_.py:85-86 | With one lease length and a clock that does not run backwards, two unexpired leases of one event never overlap. |
| `WorkQueue.ShorterLeaseCutsIn` | db/alembic/versions/2b2b64433c98_fence_messaging_worker_claims_and_.py:85-86 | A holder's lease can be cut short by a claim if and only if that claim uses a shorter lease. |
| `WorkQueue.BudgetIsConserved` | db/alembic/versions/66e34e3b2067_add_messaging_worker_claim_primitives.py:124-140 | From any table, claims made plus attempts left equal the attempts there were plus those granted. |
| `WorkQueue.ClaimingTerminates` | db/alembic/versions/66e34e3b2067_add_messaging_worker_claim_primitives.py:124-140 | A run makes no more claims than the attempts its accepted events grant. |
| `WorkQueue.RetryWaits` | db/alembic/versions/2b2b64433c98_fence_messaging_worker_claims_and_.py:126-133 | A failed event with attempts left waits at least a second and at most a day; one without is never claimed again. |
| `WorkQueue.BackoffDoubles` | db/alembic/versions/2b2b64433c98_fence_messaging_worker_claims_and_.py:126-130 | Without jitter the wait starts at one delay and doubles with each attempt, up to a day and up to 65536 delays. |
| `WorkQueue.JitterIsSmall` | db/alembic/versions/2b2b64433c98_fence_messaging_worker_claims_and_.py:127-130 | The jitter adds at least nothing and less than one delay. |
| `WorkQueue.TakenIff` | db/alembic/versions/2b2b64433c98_fence_messaging_worker_claims_and_.py:82-88 | With a limit of at least the number of rows, a claim takes an unlocked row if and only if it has attempts left, comes from meta for a tenant as one of the two types, and is received or failed and available, or processing under a lock older than the lease. |
| `WorkQueue.LeftBehindIsLater` | db/alembic/versions/2b2b64433c98_fence_messaging_worker_claims_and_.py:87-88 | What is left behind is later in time than everything taken, or of one time with a greater id. |
| `WorkQueue.WaitingEventIsTaken` | db/alembic/versions/2b2b64433c98_fence_messaging_worker_claims_and_.py:82-92 | In every run an accepted event in scope that no claim took yet is taken by any claim after its time that does not skip it and whose limit is not used up. |
| `WorkQueue.FailureReleases` | db/alembic/versions/2b2b64433c98_fence_messaging_worker_claims_and_.py:123-134 | What a failure leaves of the event: who holds it, its attempts, and when it can be tried again. |
| `BillingTopups.BillingAccount.CompleteStripeTopup` | db/alembic/versions/74e4f347dbbd_bind_billing_provider_events_to_.py:85-114 | A completion credits the wallet, closes the top-up and writes the ledger, or changes nothing. |
| `BillingTopups.Complete` | db/alembic/versions/74e4f347dbbd_bind_billing_provider_events_to_.py:85-114 | Any answer but true leaves the account unchanged; true means the named top-up matches and is succeeded. |
| `BillingTopups.BooksAlwaysBalance` | db/alembic/versions/74e4f347dbbd_bind_billing_provider_events_to_.py:97-108 | After any run: the balance is the sum of the ledger and of the succeeded top-ups, every entry carries the running sum, a top-up is succeeded exactly when it has exactly one entry, and references are unique. |
| `BillingTopups.ReplayCreditsNothing` | db/alembic/versions/74e4f347dbbd_bind_billing_provider_events_to_.py:97-97 | A completion event repeated at any later time is acknowledged and credits nothing, unless the top-up was bound to another session. |
| `BillingTopups.AcknowledgedIff` | db/alembic/versions/74e4f347dbbd_bind_billing_provider_events_to_.py:85-114 | The answer is true if and only if the named top-up matches and is succeeded, or matches and is pending with a wallet in the completion's currency, a balance that stays in range and an unused reference. |
| `BillingTopups.CreditMovesTheAmount` | db/alembic/versions/74e4f347dbbd_bind_billing_provider_events_to_.py:104-114 | In the pending case the balance grows by exactly the amount, one entry with it is appended, and that top-up alone is closed. |
| `BillingTopups.MatchingCompletionIsCredited` | db/alembic/versions/74e4f347dbbd_bind_billing_provider_events_to_.py:85-114 | Whatever came before, as long as no top-up was bound to another session in between: a completion about a pending top-up whose amount fits the wallet in its currency is credited; its reference is then unused. |
| `PaymentSources.PaymentSource.Record` | db/alembic/versions/74e4f347dbbd_bind_billing_provider_events_to_.py:145-190 | A setup completion stores the card, is superseded, repeats an answer, or is rolled back. |
| `PaymentSources.CardOfGreatestLanded` | db/alembic/versions/74e4f347dbbd_bind_billing_provider_events_to_.py:145-190 | Whatever is delivered, in whatever order and however often: the card is that of the greatest request among the deliveries whose request and setup intent nothing before had landed with. |
| `PaymentSources.OrderMattersIff` | db/alembic/versions/74e4f347dbbd_bind_billing_provider_events_to_.py:34-34 | With one payload per request, all sequences of the same deliveries end with the same card if and only if the deliveries that dominate, those to which every delivered intent has a delivery that is not newer, carry one card. |
| `PaymentSources.CardOfGreatestRequest` | db/alembic/versions/74e4f347dbbd_bind_billing_provider_events_to_.py:169-185 | When no intent is shared either, the card is that of the greatest delivered request for every order and repetition. |
| `PaymentSources.OrderAndRepetitionDoNotMatter` | db/alembic/versions/74e4f347dbbd_bind_billing_provider_events_to_.py:169-185 | Two sequences with the same deliveries end with the same card. |
| `PaymentSources.OrderMattersForTwo` | db/alembic/versions/74e4f347dbbd_bind_billing_provider_events_to_.py:34-34 | Two requests that share a setup intent: the orders agree if and only if the cards are equal. |
| `PaymentSources.AnswerIff` | db/alembic/versions/74e4f347dbbd_bind_billing_provider_events_to_.py:150-190 | A delivery is answered true if and only if it is well-formed, names a stored request of the tenant's customer with its session, and is the first use of its intent or a repetition on that request; an intent that another request has raises an error. |
| `PaymentSources.DeliveryEffect` | db/alembic/versions/74e4f347dbbd_bind_billing_provider_events_to_.py:169-190 | Part by part what a delivery changes: the request's status and intent, and, unless a newer request has succeeded, the card, whose parts are those of the payload with the brand trimmed and in lower case. |
| `DependencyCycles.CycleSearch.Visit` | scripts/check_repository.py:290-303 | The search leaves `visiting` equal to the trail, and has afterwards explored the package, with everything it depends on before it but for reported steps, or reported the step to it. |
| `DependencyCycles.CheckWorkspace` | scripts/check_repository.py:287-307 | Errors are reported if and only if the manifest graph has a cycle; every reported trail is a cycle that visits no package twice; and every cycle of the graph contains the last step of a reported one, so that without those steps none would be left. |
| `DependencyCycles.OrderExcludesCycle` | scripts/check_repository.py:290-303 | An order in which dependencies come first excludes every cycle. |
| `DependencyCycles.OrderCoversCycles` | scripts/check_repository.py:290-303 | In an order in which dependencies come first but for reported ones, every cycle has a reported step. |
| `DependencyCycles.TrailCloses` | scripts/check_repository.py:290-294 | A dependency on a package of the trail closes a cycle that starts where the package stands in it. |
| `RestartBudget.RecoveryHost.TryService` | scripts/recover_unhealthy.py:124-141 | One service's turn: the attempt is saved before the restart, and a crash may come between any two steps. |
| `RestartBudget.RecoveryHost.Recover` | scripts/recover_unhealthy.py:109-141 | A whole invocation, with a rejected history changing nothing. |
| `RestartBudget.PruningKeepsDecisions` | scripts/recover_unhealthy.py:23-33 | The pruned history decides exactly as the full history would, at any later clock reading. |
| `RestartBudget.RunsKeepAccounts` | scripts/recover_unhealthy.py:134-140 | Over any invocations, clock readings and crashes, the saved history is the full one without a front that no longer counts. |
| `RestartBudget.AtMostTwo` | scripts/recover_unhealthy.py:16-20 | Attempts at least 300 seconds apart of which no three lie in 900 seconds: at most two restarts in any closed window. |
| `RestartBudget.RestartsAreBounded` | scripts/recover_unhealthy.py:109-141 | Every service gets at most two restarts in any closed 900 seconds and successive restarts are 300 seconds apart, by the clock readings at the start of their invocations, whatever the clock and the crashes do. |
| `RestartBudget.EligibleIff` | scripts/recover_unhealthy.py:23-33 | A service is eligible if and only if it is one of the three, running and unhealthy, its attempts are all 300 seconds back, and of any two one lies further back than 900. |
| `RestartBudget.InvocationEffect` | scripts/recover_unhealthy.py:109-141 | What an invocation does to each service, wherever it is cut off: due services are restarted in order, two steps each, a half-done last one is charged, and all others stay as they are; with an invalid file nothing happens. |
| `RestartBudget.UnhealthyIsRestartedIff` | scripts/recover_unhealthy.py:109-141 | Whatever came before, an uninterrupted invocation restarts an unhealthy service it may act on if and only if its last attempt is at least 300 seconds and its last but one more than 900 seconds back. |
| `CascadeClosure.ReferenceProbe` | scripts/clean_development_demo_data.py:1569-1617 | The probe of one key and fixture, or which error. |
| `CascadeClosure.UnexpectedReferences` | scripts/clean_development_demo_data.py:1620-1694 | The report, key by key: which constraint, which fixture and how many rows, or the error of the first key that cannot be inspected; it passes if and only if every key can be inspected and every probe counts zero. |
| `CascadeClosure.FindingsMean` | scripts/clean_development_demo_data.py:1678-1693 | A constraint, a fixture and a number are reported together if and only if that many rows, and more than none, are counted by the probe of that fixture. |
| `CascadeClosure.CountIsCardinality` | scripts/clean_development_demo_data.py:1605-1617 | The count is the number of child rows for which the condition of the probe is true. |
| `CascadeClosure.ProbeMeans` | scripts/clean_development_demo_data.py:1589-1617 | A probe counts a row exactly when it refers to the fixture and contradicts every known description. |
| `CascadeClosure.CascadeStaysInside` | scripts/clean_development_demo_data.py:1620-1694 | Over any graph of foreign keys and any rows: when every probe counts zero, deleting the fixtures removes, changes and runs into no row that contradicts every fixture description of its table. |
| `CascadeClosure.CheckIsExact` | scripts/clean_development_demo_data.py:1620-1694 | For stored fixtures with non-null described columns the check passes if and only if the delete touches fixtures only: it removes them, or they refer to removed rows through any key. |
| `CascadeClosure.CheckIsExactForCascades` | scripts/clean_development_demo_data.py:1620-1694 | Where every key cascades, it passes if and only if the delete removes fixtures only. |
| `CascadeClosure.RefusesTooMuchIff` | scripts/clean_development_demo_data.py:1630-1667 | Where the delete removes fixtures only, the check still refuses if and only if a row that is no fixture refers to a removed row through keys that do not cascade. |
| `CascadeClosure.RefusalIsJustified` | scripts/clean_development_demo_data.py:1678-1693 | A nonzero count names a row that is no fixture and that the delete touches; through a cascading key it is removed. |
| `CascadeClosure.NullEscapesTheProbe` | scripts/clean_development_demo_data.py:1615-1616 | With NULL in a described column a row that is no fixture is removed although every probe counts zero. |
| `CascadeClosure.SetNullIsRefused` | db/alembic/versions/6f8b0d3e5a29_make_voice_intake_traceable.py:85-87 | Through a SET NULL key the check refuses although the delete removes fixtures only. |
| `BurstDedup.RecoveryDryRun` | scripts/audit_voice_intake.py:294-324 | The candidates stand for the calls that need review, in order: one opens for each call beyond the window of its caller's previous call, and counts the calls up to the next; candidates and repeats add up to those calls. |
| `BurstDedup.CallsAreConserved` | scripts/audit_voice_intake.py:307-323 | The sum of one plus the repeats over the candidates is the number of calls read. |
| `BurstDedup.SortingKeepsRelevant` | scripts/audit_voice_intake.py:303-305 | Sorting neither loses nor adds a call that needs review. |
| `BurstDedup.RepeatAttribution` | scripts/audit_voice_intake.py:310-312 | A repeat is added to a candidate of its own caller exactly when nobody has opened a candidate since that caller last did. |
| `BurstDedup.RepeatCreditedToAnotherCaller` | scripts/audit_voice_intake.py:310-312 | Two callers taking turns: a retry is added to the other caller's candidate. |
| `BurstDedup.RepeatIff` | scripts/audit_voice_intake.py:307-316 | A call is a repeat if and only if the same caller's previous call is there and lies at most a window back. |
| `ChannelSli.BucketsAddUp` | scripts/whatsapp_channel_sli.py:82-108 | For every window: raw is duplicate plus unique, unique is pending plus denominator, and the denominator is within, late, none and invalid. |
| `ChannelSli.UniqueMeans` | scripts/whatsapp_channel_sli.py:17-33 | A receipt is unique in a window exactly when none of its partition precedes it there and no earlier receipt has its message id. |
| `ChannelSli.SplittingWindows` | scripts/whatsapp_channel_sli.py:17-33 | The unique receipts of two adjoining windows exceed those of the joined one by exactly the receipts counted again. |
| `ChannelSli.WindowsAddUpIff` | scripts/whatsapp_channel_sli.py:17-33 | Unique counts add up over adjoining windows if and only if no receipt is counted again. |
| `ChannelSli.WindowsAddUp` | scripts/whatsapp_channel_sli.py:17-33 | Where no message id equals an event id, raw and unique counts of adjoining windows add up in every group. |
| `ChannelSli.ClashIsCountedAgain` | scripts/whatsapp_channel_sli.py:19-21 | A message id that equals an event id is counted again. |
| `ChannelSli.ReceiptColumns` | scripts/whatsapp_channel_sli.py:88-91 | Raw, unique and duplicate count the places of the table that hold a message of the window, one that is first under its id, and the rest of them. |
| `ChannelSli.VerdictColumns` | scripts/whatsapp_channel_sli.py:92-106 | Pending, within, late, not accepted and invalid each count the first receipts that are too young, accepted up to 120 seconds after they came, later, never, or before they came. |
| `SqlSplitter.Execute` | db/alembic/versions/5e7a9c2d4f18_add_configurable_field_operations.py:27-41 | The statements sent are the pieces of the script that hold text, with colons escaped. |
| `SqlSplitter.SplitterMatchesScanner` | db/alembic/versions/5e7a9c2d4f18_add_configurable_field_operations.py:27-41 | The pieces are those of a scanner that toggles at each dollar mark and cuts at each semicolon outside quotes, if and only if the marks are balanced. |
| `SqlSplitter.RejoiningRestoresScript` | db/alembic/versions/5e7a9c2d4f18_add_configurable_field_operations.py:27-41 | Joining the pieces with semicolons gives back the script, if and only if the marks are balanced. |
| `SqlSplitter.EscapingIsUndone` | db/alembic/versions/5e7a9c2d4f18_add_configurable_field_operations.py:35-41 | What is sent gives back the piece of the script once the backslashes before colons are taken back, and no colon is left without one. |
| `BroadcastCounts.Messaging.AdjustBroadcastCounts` | db/alembic/versions/2ef8ecd10c3d_add_canonical_messaging_foundation.py:584-617 | The trigger moves one recipient between counters, clamped at zero. |
| `BroadcastCounts.ClampNeverBites` | db/alembic/versions/2ef8ecd10c3d_add_canonical_messaging_foundation.py:595-611 | From exact counters the clamp never changes a value. |
| `BroadcastCounts.CountersEqualRecount` | db/alembic/versions/2ef8ecd10c3d_add_canonical_messaging_foundation.py:584-622 | After any inserts, status changes and deletes the five counters equal a recount of the recipients. |

## Left out

- Connections, Docker, HTTP, files, grants, row-level security, roles and the text of the queries: input and output, or declarations.
- Cryptography, identifiers drawn at random, regular expressions of identities and JSON schema checks: parameters, or long conjunctions.
- `service.lock_current_technician_session_context`, the binding and release of technician sessions and the workflow policy: their answers are parameters of a step.
- Visits inserted by the scheduling screens: the runs of `FieldDispatch` start from cases whose visits come from assignments; `FieldDispatch.AssignmentOwnsVisits` holds for any visits.
- The recipient of a follow-up and the photo request. In a call's runs a customer's message enters as a step on the consent, and as another on the intake to which `ReplyCorrelation` attaches it.
- How a call is analysed and how a customer's answer is read: the reading and the intent are parameters. So is whether some wrap-up message of a ticket counts as sent.
- How a WhatsApp writer resolves the customer, the phone number and the location, and whether its draft has a conversation: one answer that is a parameter of the step. The digital request form of later migrations, another writer of an intake.
- The identity a technician shows before signing, and the distance, evidence and replay of a signature: the steps of `FieldDispatch` sign with a valid one. The order of the times is the subject of `VisitTimeline`.
- The chains, locations and contact names that a capture writes, the ticket's subject, attachments and notifications: they decide nothing that is modelled.
- Tickets of other channels that a new case may reuse: a session's case reuses the ticket of its own call only.
- The pinned workflow policy is constant over a call; the source pins it at first use.
- The queue of jobs: the same primitives as the queue of events with other columns. The removal of duplicates on receipt and `advance_ownership_epoch` are not modelled either.
- Liveness of the queue: an event whose worker crashes in its last attempt stays in processing.
- The package direction rules beside the cycle search, the merging of fixture rows and the soft references of the fixture check.
- Percentiles and the remaining columns of the service-level query.
- `billing.expected_stripe_setup`, one query. A NULL argument of a billing call, which matches nothing. The audit records of billing; collisions with other tenants' sessions, setup intents and payment methods.
- `upper`, `lower`, `btrim` and white space are those of ASCII.
- Downgrades, and later migrations that define a function anew: the models follow the definitions cited.
