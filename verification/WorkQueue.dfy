/** The lease-based queue of inbound events: ops.claim_inbound_events, ops.complete_inbound_event and
    ops.fail_inbound_event as any number of workers interleave them. */
module WorkQueue {
  import opened Common
  import OrderedLimit

  datatype Status = Received | Processing | Processed | Failed

  /** What workers did to one event; a history variable that the table does not store. */
  datatype Mark = Took(worker: string, at: real) | Finished(worker: string, at: real) | GaveUp(worker: string, at: real)

  datatype Event = Event(id: int, provider: string, tenant: Option<int>, eventType: string,
                         status: Status, attempts: int, maxAttempts: int,
                         availableAt: real, receivedAt: real,
                         lockedAt: Option<real>, lockedBy: Option<string>, history: seq<Mark>)

  function Max(a: int, b: int): int { if a >= b then a else b }

  function Min(a: int, b: int): int { if a <= b then a else b }

  // ---- claiming -----------------------------------------------------------------------------------

  predicate InScope(e: Event) {
    e.provider == "meta" && e.tenant.Some? && (e.eventType == "whatsapp.message.text" || e.eventType == "whatsapp.message.status")
  }

  predicate Expired(e: Event, lease: int, now: real) {
    e.lockedAt.Some? && e.lockedAt.value < now - Max(1, lease) as real
  }

  predicate Claimable(e: Event, lease: int, now: real) {
    && e.attempts < e.maxAttempts && InScope(e)
    && (((e.status == Received || e.status == Failed) && e.availableAt <= now)
        || (e.status == Processing && Expired(e, lease, now)))
  }

  /** `available_at, received_at, id` of row p, by which a claim orders. */
  function Key(rows: seq<Event>, p: nat): OrderedLimit.Item
    requires p < |rows|
  {
    OrderedLimit.Item(rows[p].availableAt, rows[p].receivedAt, rows[p].id, p)
  }

  /** The claimable rows below n that no other transaction has locked. */
  function Candidates(rows: seq<Event>, n: nat, skipped: set<nat>, lease: int, now: real): seq<OrderedLimit.Item>
    requires n <= |rows|
  {
    if n == 0 then []
    else
      Candidates(rows, n - 1, skipped, lease, now)
      + if n - 1 !in skipped && Claimable(rows[n - 1], lease, now) then [Key(rows, n - 1)] else []
  }

  function Picked(rows: seq<Event>, skipped: set<nat>, limit: int, lease: int, now: real): seq<nat> {
    var taken := OrderedLimit.Limited(Candidates(rows, |rows|, skipped, lease, now), Min(Max(limit, 1), 100));
    seq(|taken|, i requires 0 <= i < |taken| => taken[i].row)
  }

  function Claimed(e: Event, worker: string, now: real): Event {
    e.(status := Processing, attempts := e.attempts + 1, lockedAt := Some(now), lockedBy := Some(worker),
       history := e.history + [Took(worker, now)])
  }

  function ClaimAll(rows: seq<Event>, picked: seq<nat>, worker: string, now: real): (r: seq<Event>)
    ensures |r| == |rows|
  {
    if picked == [] then rows
    else
      var p := picked[|picked| - 1];
      var others := ClaimAll(rows, picked[..|picked| - 1], worker, now);
      if p < |rows| then others[p := Claimed(rows[p], worker, now)] else others
  }

  // ---- outcomes -----------------------------------------------------------------------------------

  predicate Holds(e: Event, worker: string) {
    e.status == Processing && e.lockedBy == Some(worker) && e.provider == "meta" && e.tenant.Some?
  }

  function Completed(e: Event, worker: string, now: real): Event {
    if !Holds(e, worker) then e
    else e.(status := Processed, lockedAt := None, lockedBy := None, history := e.history + [Finished(worker, now)])
  }

  function Pow2(n: int): real {
    if n <= 0 then 1.0 else 2.0 * Pow2(n - 1)
  }

  function MinReal(a: real, b: real): real { if a <= b then a else b }

  /** The delay, doubled with each attempt after the first, sixteen times at most. */
  function Delays(delay: int, attempts: int): real {
    Max(delay, 1) as real * Pow2(Min(Max(attempts - 1, 0), 16))
  }

  function Backoff(delay: int, attempts: int, random: real): real {
    MinReal(86400.0, Delays(delay, attempts) + random * (Max(delay, 1) as real))
  }

  function FailedBy(e: Event, worker: string, delay: int, random: real, now: real): Event {
    if !Holds(e, worker) then e
    else e.(status := Failed,
            availableAt := if e.attempts >= e.maxAttempts then e.availableAt else now + Backoff(delay, e.attempts, random),
            lockedAt := None, lockedBy := None, history := e.history + [GaveUp(worker, now)])
  }

  class EventQueue {
    var rows: seq<Event>

    /** Rows in `skipped` are locked by concurrent transactions. */
    method Claim(worker: string, limit: int, lease: int, now: real, skipped: set<nat>) returns (picked: seq<nat>)
      modifies this
      ensures picked == Picked(old(rows), skipped, limit, lease, now)
      ensures rows == ClaimAll(old(rows), picked, worker, now)
    {
      picked := Picked(rows, skipped, limit, lease, now);
      PickedInLine(rows, skipped, limit, lease, now);
      var k := 0;
      while k < |picked|
        invariant 0 <= k <= |picked| && |rows| == |old(rows)|
        invariant rows == ClaimAll(old(rows), picked[..k], worker, now)
      {
        ClaimAllRow(old(rows), picked[..k], worker, now, picked[k]);
        assert picked[..k + 1][..k] == picked[..k];
        rows := rows[picked[k] := Claimed(rows[picked[k]], worker, now)];
        k := k + 1;
      }
      assert picked[..k] == picked;
    }

    method Complete(id: nat, worker: string, now: real)
      requires id < |rows|
      modifies this
      ensures rows == old(rows)[id := Completed(old(rows)[id], worker, now)]
    {
      var e := rows[id];
      if e.status == Processing && e.lockedBy == Some(worker) && e.provider == "meta" && e.tenant != None {
        rows := rows[id := e.(status := Processed, lockedAt := None, lockedBy := None,
                              history := e.history + [Finished(worker, now)])];
      }
    }

    method Fail(id: nat, worker: string, delay: int, random: real, now: real)
      requires id < |rows|
      modifies this
      ensures rows == old(rows)[id := FailedBy(old(rows)[id], worker, delay, random, now)]
    {
      var e := rows[id];
      if e.status == Processing && e.lockedBy == Some(worker) && e.provider == "meta" && e.tenant != None {
        var available := e.availableAt;
        if e.attempts < e.maxAttempts {
          available := now + Backoff(delay, e.attempts, random);
        }
        rows := rows[id := e.(status := Failed, availableAt := available, lockedAt := None, lockedBy := None,
                              history := e.history + [GaveUp(worker, now)])];
      }
    }
  }

  // ---- what a claim takes -------------------------------------------------------------------------

  predicate Distinct(picked: seq<nat>) {
    forall i, j :: 0 <= i < j < |picked| ==> picked[i] != picked[j]
  }

  lemma {:induction false} CandidatesAreClaimable(rows: seq<Event>, n: nat, skipped: set<nat>, lease: int, now: real)
    requires n <= |rows|
    ensures var c := Candidates(rows, n, skipped, lease, now);
            && OrderedLimit.Distinct(c)
            && forall i :: 0 <= i < |c| ==>
                 c[i].row < n && c[i] == Key(rows, c[i].row) && c[i].row !in skipped && Claimable(rows[c[i].row], lease, now)
  {
    if n > 0 {
      CandidatesAreClaimable(rows, n - 1, skipped, lease, now);
    }
  }

  lemma {:induction false} ClaimableIsCandidate(rows: seq<Event>, n: nat, skipped: set<nat>, lease: int, now: real, q: nat)
    requires q < n <= |rows| && q !in skipped && Claimable(rows[q], lease, now)
    ensures Key(rows, q) in Candidates(rows, n, skipped, lease, now)
  {
    if q < n - 1 {
      ClaimableIsCandidate(rows, n - 1, skipped, lease, now, q);
    }
  }

  /** A claim takes rows that are claimable and not locked, each once and at most a hundred. */
  lemma PickedInLine(rows: seq<Event>, skipped: set<nat>, limit: int, lease: int, now: real)
    ensures var picked := Picked(rows, skipped, limit, lease, now);
            && Distinct(picked) && |picked| <= Min(Max(limit, 1), 100)
            && forall i :: 0 <= i < |picked| ==>
                 picked[i] < |rows| && picked[i] !in skipped && Claimable(rows[picked[i]], lease, now)
  {
    var c := Candidates(rows, |rows|, skipped, lease, now);
    CandidatesAreClaimable(rows, |rows|, skipped, lease, now);
    OrderedLimit.LimitedSelects(c, Min(Max(limit, 1), 100));
    var taken := OrderedLimit.Limited(c, Min(Max(limit, 1), 100));
    forall i | 0 <= i < |taken|
      ensures taken[i].row < |rows| && taken[i].row !in skipped && Claimable(rows[taken[i].row], lease, now)
    {
      assert taken[i] in c;
    }
  }

  /** What the limit takes are the sorting keys of rows. */
  lemma TakenAreRows(rows: seq<Event>, skipped: set<nat>, limit: nat, lease: int, now: real, i: nat)
    requires i < |OrderedLimit.Limited(Candidates(rows, |rows|, skipped, lease, now), limit)|
    ensures var x := OrderedLimit.Limited(Candidates(rows, |rows|, skipped, lease, now), limit)[i];
            x.row < |rows| && x == Key(rows, x.row)
  {
    var c := Candidates(rows, |rows|, skipped, lease, now);
    CandidatesAreClaimable(rows, |rows|, skipped, lease, now);
    OrderedLimit.LimitedSelects(c, limit);
    assert OrderedLimit.Limited(c, limit)[i] in c;
  }

  /** A claimable row that nobody has locked is left only when the clamped limit is used up by rows that
      all precede it. */
  lemma ClaimTakesFirstInLine(rows: seq<Event>, skipped: set<nat>, limit: int, lease: int, now: real, q: nat)
    requires q < |rows| && q !in skipped && Claimable(rows[q], lease, now)
    requires q !in Picked(rows, skipped, limit, lease, now)
    ensures var picked := Picked(rows, skipped, limit, lease, now);
            && |picked| == Min(Max(limit, 1), 100)
            && forall i :: 0 <= i < |picked| ==>
                 picked[i] < |rows| && OrderedLimit.Precedes(Key(rows, picked[i]), Key(rows, q))
  {
    var c := Candidates(rows, |rows|, skipped, lease, now);
    var taken := OrderedLimit.Limited(c, Min(Max(limit, 1), 100));
    ClaimableIsCandidate(rows, |rows|, skipped, lease, now, q);
    var picked := Picked(rows, skipped, limit, lease, now);
    forall k | 0 <= k < |taken| ensures taken[k] != Key(rows, q) {
      assert picked[k] in picked;
    }
    OrderedLimit.LimitedTakesFirst(c, Min(Max(limit, 1), 100), Key(rows, q));
    forall i | 0 <= i < |taken| ensures taken[i].row < |rows| && taken[i] == Key(rows, taken[i].row) {
      TakenAreRows(rows, skipped, Min(Max(limit, 1), 100), lease, now, i);
    }
  }

  lemma {:induction false} ClaimAllRow(rows: seq<Event>, picked: seq<nat>, worker: string, now: real, q: nat)
    requires q < |rows|
    ensures ClaimAll(rows, picked, worker, now)[q] == if q in picked then Claimed(rows[q], worker, now) else rows[q]
  {
    if picked != [] {
      var n := |picked| - 1;
      ClaimAllRow(rows, picked[..n], worker, now, q);
      assert q in picked <==> q in picked[..n] || q == picked[n];
    }
  }

  // ---- runs ---------------------------------------------------------------------------------------

  datatype Step =
    | Accept(event: Event)
    | ClaimEvents(worker: string, limit: int, lease: int, now: real, skipped: set<nat>)
    | CompleteEvent(id: nat, worker: string, now: real)
    | FailEvent(id: nat, worker: string, delay: int, random: real, now: real)

  predicate JustReceived(e: Event) {
    e.status == Received && e.attempts == 0 && e.maxAttempts > 0 && e.lockedAt == None && e.lockedBy == None && e.history == []
  }

  function Apply(rows: seq<Event>, step: Step): (r: seq<Event>)
    ensures |r| >= |rows|
  {
    match step
    case Accept(e) => if JustReceived(e) then rows + [e] else rows
    case ClaimEvents(worker, limit, lease, now, skipped) =>
      ClaimAll(rows, Picked(rows, skipped, limit, lease, now), worker, now)
    case CompleteEvent(id, worker, now) =>
      if id < |rows| then rows[id := Completed(rows[id], worker, now)] else rows
    case FailEvent(id, worker, delay, random, now) =>
      if id < |rows| then rows[id := FailedBy(rows[id], worker, delay, random, now)] else rows
  }

  function Run(rows: seq<Event>, steps: seq<Step>): (r: seq<Event>)
    ensures |r| >= |rows|
    decreases |steps|
  {
    if steps == [] then rows else Apply(Run(rows, steps[..|steps| - 1]), steps[|steps| - 1])
  }

  /** The effect of a step on one row that is already there. */
  function OnRow(rows: seq<Event>, step: Step, q: nat): Event
    requires q < |rows|
  {
    match step
    case Accept(_) => rows[q]
    case ClaimEvents(worker, limit, lease, now, skipped) =>
      if q in Picked(rows, skipped, limit, lease, now) then Claimed(rows[q], worker, now) else rows[q]
    case CompleteEvent(id, worker, now) => if id == q then Completed(rows[q], worker, now) else rows[q]
    case FailEvent(id, worker, delay, random, now) => if id == q then FailedBy(rows[q], worker, delay, random, now) else rows[q]
  }

  lemma StepOnRow(rows: seq<Event>, step: Step, q: nat)
    requires q < |rows|
    ensures Apply(rows, step)[q] == OnRow(rows, step, q)
  {
    if step.ClaimEvents? {
      ClaimAllRow(rows, Picked(rows, step.skipped, step.limit, step.lease, step.now), step.worker, step.now, q);
    }
  }

  lemma PickedIsClaimable(rows: seq<Event>, step: Step, q: nat)
    requires step.ClaimEvents? && q < |rows| && q in Picked(rows, step.skipped, step.limit, step.lease, step.now)
    ensures Claimable(rows[q], step.lease, step.now)
  {
    PickedInLine(rows, step.skipped, step.limit, step.lease, step.now);
  }

  // ---- fencing ------------------------------------------------------------------------------------

  /** Every outcome directly follows a claim by the same worker. */
  predicate OneOutcomePerClaim(history: seq<Mark>) {
    forall i :: 0 <= i < |history| && !history[i].Took? ==>
      i > 0 && history[i - 1].Took? && history[i - 1].worker == history[i].worker
  }

  function Claims(history: seq<Mark>): nat {
    if history == [] then 0 else Claims(history[..|history| - 1]) + (if history[|history| - 1].Took? then 1 else 0)
  }

  /** The row agrees with its history. */
  predicate Consistent(e: Event) {
    && OneOutcomePerClaim(e.history)
    && e.attempts == Claims(e.history) <= e.maxAttempts
    && (forall i :: 0 <= i < |e.history| - 1 ==> !e.history[i].Finished?)
    && match e.status
       case Received => e.history == [] && e.lockedBy == None
       case Processing => e.history != [] && e.lockedAt.Some? && e.lockedBy.Some?
                          && e.history[|e.history| - 1] == Took(e.lockedBy.value, e.lockedAt.value)
       case Processed => e.history != [] && e.history[|e.history| - 1].Finished? && e.lockedBy == None
       case Failed => e.history != [] && e.history[|e.history| - 1].GaveUp? && e.lockedBy == None
  }

  lemma MarkAdded(history: seq<Mark>, mark: Mark)
    requires OneOutcomePerClaim(history)
    requires !mark.Took? ==> history != [] && history[|history| - 1].Took? && history[|history| - 1].worker == mark.worker
    ensures OneOutcomePerClaim(history + [mark])
  {
    var more := history + [mark];
    forall i | 0 <= i < |more| && !more[i].Took?
      ensures i > 0 && more[i - 1].Took? && more[i - 1].worker == more[i].worker
    {
      if i < |history| {
        assert !history[i].Took?;
      }
    }
  }

  lemma ClaimsAfter(history: seq<Mark>, mark: Mark)
    ensures Claims(history + [mark]) == Claims(history) + (if mark.Took? then 1 else 0)
  {
    assert (history + [mark])[..|history|] == history;
  }

  lemma ClaimStaysConsistent(e: Event, worker: string, now: real)
    requires Consistent(e) && e.attempts < e.maxAttempts && e.status != Processed
    ensures Consistent(Claimed(e, worker, now))
  {
    MarkAdded(e.history, Took(worker, now));
    ClaimsAfter(e.history, Took(worker, now));
  }

  lemma OutcomeStaysConsistent(e: Event, worker: string, mark: Mark)
    requires Consistent(e) && Holds(e, worker) && !mark.Took? && mark.worker == worker
    ensures Consistent(e.(status := if mark.Finished? then Processed else Failed, lockedAt := None, lockedBy := None,
                          history := e.history + [mark]))
  {
    MarkAdded(e.history, mark);
    ClaimsAfter(e.history, mark);
  }

  lemma StepStaysConsistent(rows: seq<Event>, step: Step, q: nat)
    requires q < |rows| && Consistent(rows[q])
    ensures Consistent(OnRow(rows, step, q))
  {
    match step
    case Accept(_) =>
    case ClaimEvents(worker, limit, lease, now, skipped) =>
      if q in Picked(rows, skipped, limit, lease, now) {
        PickedIsClaimable(rows, step, q);
        ClaimStaysConsistent(rows[q], worker, now);
      }
    case CompleteEvent(id, worker, now) =>
      if id == q && Holds(rows[q], worker) { OutcomeStaysConsistent(rows[q], worker, Finished(worker, now)); }
    case FailEvent(id, worker, delay, random, now) =>
      if id == q && Holds(rows[q], worker) { OutcomeStaysConsistent(rows[q], worker, GaveUp(worker, now)); }
  }

  /** In every interleaving: each claim takes at most one outcome, by the worker that made it and before
      any other claim; attempts count the claims and stay within the limit; nothing follows completion. */
  lemma {:induction false} RunsStayConsistent(steps: seq<Step>, q: nat)
    requires q < |Run([], steps)|
    ensures Consistent(Run([], steps)[q])
    decreases |steps|
  {
    if steps != [] {
      var before := Run([], steps[..|steps| - 1]);
      if q < |before| {
        RunsStayConsistent(steps[..|steps| - 1], q);
        StepOnRow(before, steps[|steps| - 1], q);
        StepStaysConsistent(before, steps[|steps| - 1], q);
      }
    }
  }

  /** A processed event never changes again. */
  lemma {:induction false} ProcessedIsAbsorbing(rows: seq<Event>, steps: seq<Step>, q: nat)
    requires q < |rows| && rows[q].status == Processed
    ensures Run(rows, steps)[q] == rows[q]
    decreases |steps|
  {
    if steps != [] {
      var before := Run(rows, steps[..|steps| - 1]);
      ProcessedIsAbsorbing(rows, steps[..|steps| - 1], q);
      StepOnRow(before, steps[|steps| - 1], q);
      if steps[|steps| - 1].ClaimEvents? && q in Picked(before, steps[|steps| - 1].skipped, steps[|steps| - 1].limit, steps[|steps| - 1].lease, steps[|steps| - 1].now) {
        PickedIsClaimable(before, steps[|steps| - 1], q);
      }
    }
  }

  predicate ClaimsAs(step: Step, worker: string) {
    step.ClaimEvents? && step.worker == worker
  }

  predicate ReportsAs(step: Step, worker: string) {
    (step.CompleteEvent? || step.FailEvent?) && step.worker == worker
  }

  /** A worker that lost an event, to another worker or to its own outcome, changes nothing by reporting
      on it, until it claims again. */
  lemma {:induction false} LostLeaseHasNoEffect(rows: seq<Event>, steps: seq<Step>, q: nat, worker: string, report: Step)
    requires q < |rows| && !Holds(rows[q], worker)
    requires forall i :: 0 <= i < |steps| ==> !ClaimsAs(steps[i], worker)
    requires ReportsAs(report, worker) && report.id == q
    ensures !Holds(Run(rows, steps)[q], worker)
    ensures Apply(Run(rows, steps), report) == Run(rows, steps)
    decreases |steps|
  {
    if steps != [] {
      var before := Run(rows, steps[..|steps| - 1]);
      var last := steps[|steps| - 1];
      LostLeaseHasNoEffect(rows, steps[..|steps| - 1], q, worker, report);
      StepOnRow(before, last, q);
      assert !ClaimsAs(last, worker);
    }
  }

  /** The fence is the worker's name: a worker that claims an event again can finish the new claim with
      the report of the old one. */
  lemma SameNameIsNotFenced(e: Event, worker: string, first: real, second: real, now: real)
    requires InScope(e) && e.status == Processing
    ensures Completed(Claimed(Claimed(e, worker, first), worker, second), worker, now).status == Processed
    ensures forall other :: other != worker ==>
              Completed(Claimed(Claimed(e, other, first), worker, second), other, now) == Claimed(Claimed(e, other, first), worker, second)
  {
  }

  // ---- leases -------------------------------------------------------------------------------------

  /** A claim on a claimed event comes after the lease of the claim it replaces. */
  predicate Spaced(history: seq<Mark>, lease: int) {
    forall i :: 0 < i < |history| && history[i - 1].Took? && history[i].Took? ==>
      history[i].at > history[i - 1].at + Max(1, lease) as real
  }

  predicate OneLease(steps: seq<Step>, lease: int) {
    forall i :: 0 <= i < |steps| && steps[i].ClaimEvents? ==> steps[i].lease == lease
  }

  lemma {:induction false} RunsAreSpaced(steps: seq<Step>, lease: int, q: nat)
    requires OneLease(steps, lease) && q < |Run([], steps)|
    ensures Spaced(Run([], steps)[q].history, lease)
    decreases |steps|
  {
    if steps != [] {
      var n := |steps| - 1;
      var before := Run([], steps[..n]);
      if q < |before| {
        RunsAreSpaced(steps[..n], lease, q);
        RunsStayConsistent(steps[..n], q);
        StepOnRow(before, steps[n], q);
        if steps[n].ClaimEvents? && q in Picked(before, steps[n].skipped, steps[n].limit, steps[n].lease, steps[n].now) {
          PickedIsClaimable(before, steps[n], q);
        }
      }
    }
  }

  function Clock(step: Step): Option<real> {
    match step
    case Accept(_) => None
    case ClaimEvents(_, _, _, now, _) => Some(now)
    case CompleteEvent(_, _, now) => Some(now)
    case FailEvent(_, _, _, _, now) => Some(now)
  }

  /** The clock does not run backwards and has not passed `now`. */
  predicate ClockForward(steps: seq<Step>, now: real) {
    && (forall i, j :: 0 <= i < j < |steps| && Clock(steps[i]).Some? && Clock(steps[j]).Some? ==>
         Clock(steps[i]).value <= Clock(steps[j]).value)
    && forall i :: 0 <= i < |steps| && Clock(steps[i]).Some? ==> Clock(steps[i]).value <= now
  }

  predicate TimesForward(history: seq<Mark>, now: real) {
    && (forall i, j :: 0 <= i < j < |history| ==> history[i].at <= history[j].at)
    && forall i :: 0 <= i < |history| ==> history[i].at <= now
  }

  /** A step adds at most one mark to a row's history, with the time of the step. */
  lemma RowMark(rows: seq<Event>, step: Step, q: nat)
    requires q < |rows|
    ensures var before, after := rows[q].history, OnRow(rows, step, q).history;
            after == before || (after != [] && after[..|after| - 1] == before && Clock(step) == Some(after[|after| - 1].at))
  {
  }

  lemma TimesForwardOn(history: seq<Mark>, reached: real, now: real)
    requires history != [] && TimesForward(history[..|history| - 1], reached)
    requires reached <= history[|history| - 1].at <= now
    ensures TimesForward(history, now)
  {
    forall i | 0 <= i < |history| - 1 ensures history[i].at <= reached {
      assert history[..|history| - 1][i] == history[i];
    }
  }

  lemma {:induction false} HistoriesRunForward(steps: seq<Step>, now: real, q: nat)
    requires ClockForward(steps, now) && q < |Run([], steps)|
    ensures TimesForward(Run([], steps)[q].history, now)
    decreases |steps|
  {
    if steps != [] {
      var n := |steps| - 1;
      var before := Run([], steps[..n]);
      if q < |before| {
        var reached := if Clock(steps[n]).Some? then Clock(steps[n]).value else now;
        assert ClockForward(steps[..n], reached);
        HistoriesRunForward(steps[..n], reached, q);
        StepOnRow(before, steps[n], q);
        RowMark(before, steps[n], q);
        if Run([], steps)[q].history != before[q].history {
          TimesForwardOn(Run([], steps)[q].history, reached, now);
        }
      }
    }
  }

  /** With one lease length and a clock that does not run backwards, two unexpired leases of one event
      never overlap: a later claim comes after the earlier lease, or the earlier claim has its outcome. */
  lemma LeasesAreDisjoint(steps: seq<Step>, lease: int, now: real, q: nat, i: nat, j: nat)
    requires OneLease(steps, lease) && ClockForward(steps, now) && q < |Run([], steps)|
    requires var history := Run([], steps)[q].history;
             i < j < |history| && history[i].Took? && history[j].Took?
    ensures var history := Run([], steps)[q].history;
            !history[i + 1].Took? || history[j].at > history[i].at + Max(1, lease) as real
  {
    RunsAreSpaced(steps, lease, q);
    HistoriesRunForward(steps, now, q);
    var history := Run([], steps)[q].history;
    assert j > i + 1 ==> history[i + 1].at <= history[j].at;
    assert history[i + 1 - 1] == history[i];
  }

  /** The lease length of the claiming worker decides, not that of the holder: a holder's lease can be cut
      short by a claim if and only if the claim uses a shorter one. */
  lemma ShorterLeaseCutsIn(e: Event, worker: string, start: real, mine: int, theirs: int)
    requires InScope(e) && e.attempts + 1 < e.maxAttempts
    ensures (exists now: real :: now <= start + Max(1, mine) as real && Claimable(Claimed(e, worker, start), theirs, now))
            <==> Max(1, theirs) < Max(1, mine)
  {
    var held := Claimed(e, worker, start);
    if Max(1, theirs) < Max(1, mine) {
      assert Claimable(held, theirs, start + Max(1, mine) as real);
    }
  }

  // ---- termination of claiming --------------------------------------------------------------------

  function Budget(rows: seq<Event>): int {
    if rows == [] then 0
    else Budget(rows[..|rows| - 1]) + rows[|rows| - 1].maxAttempts - rows[|rows| - 1].attempts
  }

  /** The claims that a step makes. */
  function Takes(rows: seq<Event>, step: Step): nat {
    if step.ClaimEvents? then |Picked(rows, step.skipped, step.limit, step.lease, step.now)| else 0
  }

  /** The attempts that a step grants. */
  function Grants(step: Step): nat {
    if step.Accept? && JustReceived(step.event) then step.event.maxAttempts else 0
  }

  function Spent(rows: seq<Event>, steps: seq<Step>): nat
    decreases |steps|
  {
    if steps == [] then 0
    else Spent(rows, steps[..|steps| - 1]) + Takes(Run(rows, steps[..|steps| - 1]), steps[|steps| - 1])
  }

  function Granted(steps: seq<Step>): nat
    decreases |steps|
  {
    if steps == [] then 0 else Granted(steps[..|steps| - 1]) + Grants(steps[|steps| - 1])
  }

  lemma {:induction false} BudgetAfter(rows: seq<Event>, q: nat, e: Event)
    requires q < |rows|
    ensures Budget(rows[q := e]) == Budget(rows) - (rows[q].maxAttempts - rows[q].attempts) + (e.maxAttempts - e.attempts)
  {
    var n := |rows| - 1;
    if q < n {
      BudgetAfter(rows[..n], q, e);
      assert rows[q := e][..n] == rows[..n][q := e];
    } else {
      assert rows[q := e][..n] == rows[..n];
    }
  }

  lemma {:induction false} ClaimingSpends(rows: seq<Event>, picked: seq<nat>, worker: string, now: real)
    requires (forall i :: 0 <= i < |picked| ==> picked[i] < |rows|) && Distinct(picked)
    ensures Budget(ClaimAll(rows, picked, worker, now)) == Budget(rows) - |picked|
  {
    if picked != [] {
      var n := |picked| - 1;
      ClaimingSpends(rows, picked[..n], worker, now);
      ClaimAllRow(rows, picked[..n], worker, now, picked[n]);
      BudgetAfter(ClaimAll(rows, picked[..n], worker, now), picked[n], Claimed(rows[picked[n]], worker, now));
    }
  }

  lemma StepBudget(rows: seq<Event>, step: Step)
    ensures Budget(Apply(rows, step)) == Budget(rows) + Grants(step) - Takes(rows, step)
  {
    match step
    case Accept(e) =>
      if JustReceived(e) { assert (rows + [e])[..|rows|] == rows; }
    case ClaimEvents(worker, limit, lease, now, skipped) =>
      PickedInLine(rows, skipped, limit, lease, now);
      ClaimingSpends(rows, Picked(rows, skipped, limit, lease, now), worker, now);
    case CompleteEvent(id, worker, now) =>
      if id < |rows| { BudgetAfter(rows, id, Completed(rows[id], worker, now)); }
    case FailEvent(id, worker, delay, random, now) =>
      if id < |rows| { BudgetAfter(rows, id, FailedBy(rows[id], worker, delay, random, now)); }
  }

  lemma {:induction false} BudgetIsConserved(rows: seq<Event>, steps: seq<Step>)
    ensures Budget(Run(rows, steps)) + Spent(rows, steps) == Budget(rows) + Granted(steps)
    decreases |steps|
  {
    if steps != [] {
      BudgetIsConserved(rows, steps[..|steps| - 1]);
      StepBudget(Run(rows, steps[..|steps| - 1]), steps[|steps| - 1]);
    }
  }

  lemma {:induction false} BudgetIsNatural(rows: seq<Event>)
    requires forall q :: 0 <= q < |rows| ==> rows[q].attempts <= rows[q].maxAttempts
    ensures Budget(rows) >= 0
  {
    if rows != [] {
      BudgetIsNatural(rows[..|rows| - 1]);
    }
  }

  /** Claims are exactly paid for by the remaining attempts, so a run makes no more claims than the
      attempts its accepted events grant. */
  lemma ClaimingTerminates(steps: seq<Step>)
    ensures Spent([], steps) + Budget(Run([], steps)) == Granted(steps)
    ensures Spent([], steps) <= Granted(steps)
  {
    BudgetIsConserved([], steps);
    forall q: nat | q < |Run([], steps)| ensures Run([], steps)[q].attempts <= Run([], steps)[q].maxAttempts {
      RunsStayConsistent(steps, q);
    }
    BudgetIsNatural(Run([], steps));
  }

  // ---- retries ------------------------------------------------------------------------------------

  lemma {:induction false} Pow2Grows(n: int)
    ensures Pow2(n) >= 1.0
  {
    if n > 0 { Pow2Grows(n - 1); }
  }

  lemma Scale(base: real, factor: real)
    requires base >= 1.0 && factor >= 1.0
    ensures base * factor >= base
  {
  }

  /** A failed event with attempts left waits at least one second and at most a day, whatever the delay
      asked for; one without attempts left is never claimed again. */
  lemma RetryWaits(e: Event, worker: string, delay: int, random: real, now: real, lease: int, later: real)
    requires Holds(e, worker) && 0.0 <= random < 1.0
    ensures var failed := FailedBy(e, worker, delay, random, now);
            && (later < now + 1.0 && e.attempts < e.maxAttempts ==> !Claimable(failed, lease, later))
            && (later >= now + 86400.0 && e.attempts < e.maxAttempts && InScope(e) ==> Claimable(failed, lease, later))
            && (e.attempts >= e.maxAttempts ==> !Claimable(failed, lease, later))
  {
    var base := Max(delay, 1) as real;
    var factor := Pow2(Min(Max(e.attempts - 1, 0), 16));
    Pow2Grows(Min(Max(e.attempts - 1, 0), 16));
    Scale(base, factor);
    assert random * base >= 0.0;
  }

  lemma Doubled(base: real, power: real)
    ensures base * (2.0 * power) == 2.0 * (base * power)
  {
  }

  lemma DelaysDouble(delay: int, attempts: int)
    requires 1 <= attempts <= 16
    ensures Delays(delay, attempts + 1) == 2.0 * Delays(delay, attempts) && Delays(delay, attempts) >= 0.0
  {
    var power := Pow2(attempts - 1);
    assert Pow2(attempts) == 2.0 * power;
    Pow2Grows(attempts - 1);
    Scale(Max(delay, 1) as real, power);
    Doubled(Max(delay, 1) as real, power);
  }

  lemma NoJitter(delay: int, attempts: int)
    ensures Backoff(delay, attempts, 0.0) == MinReal(86400.0, Delays(delay, attempts))
  {
  }

  lemma FirstDelay(delay: int)
    ensures Delays(delay, 1) == Max(delay, 1) as real
  {
    assert Pow2(0) == 1.0;
  }

  /** Without jitter the wait starts at one delay and doubles with each attempt, up to a day and up to 65536
      delays. */
  lemma BackoffDoubles(delay: int, attempts: int)
    requires 1 <= attempts
    ensures attempts <= 16 ==> Backoff(delay, attempts + 1, 0.0) == MinReal(86400.0, 2.0 * Backoff(delay, attempts, 0.0))
    ensures attempts > 16 ==> Backoff(delay, attempts + 1, 0.0) == Backoff(delay, attempts, 0.0)
    ensures Backoff(delay, 1, 0.0) == MinReal(86400.0, Max(delay, 1) as real)
  {
    NoJitter(delay, 1);
    FirstDelay(delay);
    NoJitter(delay, attempts);
    NoJitter(delay, attempts + 1);
    if attempts <= 16 {
      DelaysDouble(delay, attempts);
    }
  }

  lemma Jitter(base: real, random: real)
    requires base >= 1.0 && 0.0 <= random < 1.0
    ensures 0.0 <= random * base < base
  {
    assert (1.0 - random) * base > 0.0;
  }

  lemma CappedSum(a: real, more: real, bound: real)
    requires 0.0 <= more < bound
    ensures 0.0 <= MinReal(86400.0, a + more) - MinReal(86400.0, a) < bound
  {
  }

  /** The jitter adds less than one delay. */
  lemma JitterIsSmall(delay: int, attempts: int, random: real)
    requires 0.0 <= random < 1.0
    ensures 0.0 <= Backoff(delay, attempts, random) - Backoff(delay, attempts, 0.0) < Max(delay, 1) as real
  {
    var base := Max(delay, 1) as real;
    var delays := Delays(delay, attempts);
    Jitter(base, random);
    NoJitter(delay, attempts);
    CappedSum(delays, random * base, base);
    assert Backoff(delay, attempts, random) == MinReal(86400.0, delays + random * base);
  }

  // ---- what the calls do, column by column --------------------------------------------------------

  /** What a claim with room for every row takes: the unlocked rows with attempts left, of Meta, with a tenant
      and of the two types, that are received or failed and available, or whose lock is older than the lease. */
  lemma TakenIff(rows: seq<Event>, skipped: set<nat>, limit: int, lease: int, now: real, q: nat)
    requires q < |rows| <= 100 && (|rows| <= limit || |rows| == 1)
    ensures q in Picked(rows, skipped, limit, lease, now) <==>
              && q !in skipped && rows[q].attempts < rows[q].maxAttempts
              && rows[q].provider == "meta" && rows[q].tenant != None
              && (rows[q].eventType == "whatsapp.message.text" || rows[q].eventType == "whatsapp.message.status")
              && if rows[q].status == Processing then
                   rows[q].lockedAt.Some? && rows[q].lockedAt.value < now - (if lease > 1 then lease else 1) as real
                 else (rows[q].status == Received || rows[q].status == Failed) && rows[q].availableAt <= now
  {
    PickedInLine(rows, skipped, limit, lease, now);
    var picked := Picked(rows, skipped, limit, lease, now);
    if q !in skipped && Claimable(rows[q], lease, now) && q !in picked {
      ClaimTakesFirstInLine(rows, skipped, limit, lease, now, q);
      OrderedLimit.DistinctAreFew(picked, |rows|, q);
    }
  }

  /** What the limit leaves behind became available later than everything taken, or then was received later, or
      then has the greater id. */
  lemma LeftBehindIsLater(rows: seq<Event>, skipped: set<nat>, limit: int, lease: int, now: real, q: nat, i: nat)
    requires q < |rows| && q !in skipped && Claimable(rows[q], lease, now) && q !in Picked(rows, skipped, limit, lease, now)
    requires i < |Picked(rows, skipped, limit, lease, now)|
    ensures |Picked(rows, skipped, limit, lease, now)| == if limit < 1 then 1 else if limit > 100 then 100 else limit
    ensures var p := Picked(rows, skipped, limit, lease, now)[i];
            && p < |rows|
            && (rows[p].availableAt < rows[q].availableAt
                || (rows[p].availableAt == rows[q].availableAt
                    && (rows[p].receivedAt < rows[q].receivedAt
                        || (rows[p].receivedAt == rows[q].receivedAt && rows[p].id <= rows[q].id))))
  {
    ClaimTakesFirstInLine(rows, skipped, limit, lease, now, q);
  }

  /** A claim marks what it takes and nothing else. */
  lemma ClaimMarks(rows: seq<Event>, worker: string, limit: int, lease: int, now: real, skipped: set<nat>, q: nat)
    requires q < |rows|
    ensures var after := Apply(rows, ClaimEvents(worker, limit, lease, now, skipped));
            var e := rows[q];
            && |after| == |rows|
            && after[q] == if q in Picked(rows, skipped, limit, lease, now)
                           then Event(e.id, e.provider, e.tenant, e.eventType, Processing, e.attempts + 1, e.maxAttempts,
                                      e.availableAt, e.receivedAt, Some(now), Some(worker), e.history + [Took(worker, now)])
                           else e
  {
    ClaimAllRow(rows, Picked(rows, skipped, limit, lease, now), worker, now, q);
  }

  /** A completion takes effect for the worker that processes the event, and then only ends it. */
  lemma CompletionEnds(rows: seq<Event>, id: nat, worker: string, now: real)
    requires id < |rows|
    ensures var e := rows[id];
            var held := e.status == Processing && e.lockedBy == Some(worker) && e.provider == "meta" && e.tenant != None;
            Apply(rows, CompleteEvent(id, worker, now)) ==
              if !held then rows
              else rows[id := Event(e.id, e.provider, e.tenant, e.eventType, Processed, e.attempts, e.maxAttempts,
                                    e.availableAt, e.receivedAt, None, None, e.history + [Finished(worker, now)])]
  {
    assert rows[id := rows[id]] == rows;
  }

  /** So does a failure, which leaves the event for a later try. */
  lemma FailureReleases(rows: seq<Event>, id: nat, worker: string, delay: int, random: real, now: real)
    requires id < |rows|
    ensures var e := rows[id];
            var later := if e.attempts < e.maxAttempts then now + Backoff(delay, e.attempts, random) else e.availableAt;
            var held := e.status == Processing && e.lockedBy == Some(worker) && e.provider == "meta" && e.tenant != None;
            Apply(rows, FailEvent(id, worker, delay, random, now)) ==
              if !held then rows
              else rows[id := Event(e.id, e.provider, e.tenant, e.eventType, Failed, e.attempts, e.maxAttempts,
                                    later, e.receivedAt, None, None, e.history + [GaveUp(worker, now)])]
  {
    assert rows[id := rows[id]] == rows;
  }

  /** What is accepted is a received event without attempts or lock, with attempts to spend. */
  lemma AcceptedIff(rows: seq<Event>, e: Event)
    ensures Apply(rows, Accept(e)) == (if Apply(rows, Accept(e)) == rows then rows else rows + [e])
    ensures Apply(rows, Accept(e)) != rows <==>
              e == Event(e.id, e.provider, e.tenant, e.eventType, Received, 0, e.maxAttempts, e.availableAt, e.receivedAt,
                         None, None, []) && e.maxAttempts > 0
  {
    assert |rows + [e]| != |rows|;
  }

  lemma {:induction false} AttemptsToSpend(steps: seq<Step>, q: nat)
    requires q < |Run([], steps)|
    ensures Run([], steps)[q].maxAttempts > 0
    decreases |steps|
  {
    if steps != [] {
      var before := Run([], steps[..|steps| - 1]);
      if q < |before| {
        AttemptsToSpend(steps[..|steps| - 1], q);
        StepOnRow(before, steps[|steps| - 1], q);
      }
    }
  }

  lemma ClaimComesFirst(history: seq<Mark>)
    requires OneOutcomePerClaim(history) && history != []
    ensures history[0].Took?
  {
  }

  /** In every run an event that no claim took yet is still as it was received. */
  lemma UntakenIsReceived(steps: seq<Step>, q: nat)
    requires q < |Run([], steps)| && forall i :: 0 <= i < |Run([], steps)[q].history| ==> !Run([], steps)[q].history[i].Took?
    ensures var e := Run([], steps)[q];
            e.status == Received && e.attempts == 0 && e.maxAttempts > 0 && e.history == []
  {
    RunsStayConsistent(steps, q);
    AttemptsToSpend(steps, q);
    if Run([], steps)[q].history != [] {
      ClaimComesFirst(Run([], steps)[q].history);
      assert false;
    }
  }

  /** Whatever workers did before: such an event, of Meta, of a tenant and of the two types, is taken by the next
      claim at or after its time that does not skip it, unless events before it use up the limit. */
  lemma WaitingEventIsTaken(steps: seq<Step>, q: nat, worker: string, limit: int, lease: int, now: real, skipped: set<nat>)
    requires q < |Run([], steps)| && forall i :: 0 <= i < |Run([], steps)[q].history| ==> !Run([], steps)[q].history[i].Took?
    requires var e := Run([], steps)[q];
             && e.provider == "meta" && e.tenant != None
             && (e.eventType == "whatsapp.message.text" || e.eventType == "whatsapp.message.status")
             && e.availableAt <= now && q !in skipped
    ensures var rows := Run([], steps);
            var after := Apply(rows, ClaimEvents(worker, limit, lease, now, skipped))[q];
            || (after.status == Processing && after.attempts == 1 && after.lockedBy == Some(worker) && after.lockedAt == Some(now))
            || (|Picked(rows, skipped, limit, lease, now)| == (if limit < 1 then 1 else if limit > 100 then 100 else limit)
                && forall i :: 0 <= i < |Picked(rows, skipped, limit, lease, now)| ==>
                     Picked(rows, skipped, limit, lease, now)[i] < |rows|
                     && rows[Picked(rows, skipped, limit, lease, now)[i]].availableAt <= rows[q].availableAt)
  {
    var rows := Run([], steps);
    UntakenIsReceived(steps, q);
    ClaimMarks(rows, worker, limit, lease, now, skipped, q);
    if q !in Picked(rows, skipped, limit, lease, now) {
      ClaimTakesFirstInLine(rows, skipped, limit, lease, now, q);
    }
  }
}
