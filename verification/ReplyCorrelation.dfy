/** Which intake a customer's message belongs to: service.attach_followup_evidence, which runs when a message
    arrives and again when it is updated, service.attach_message_to_intake and
    service.resolve_followup_triage. */
module ReplyCorrelation {
  import opened Common
  import OrderedLimit

  datatype Content = Text | Image | Document | Location | OtherContent

  datatype Message = Message(id: int, inbound: bool, content: Content, stored: bool, replyTo: Option<int>, conversation: int)

  /** An intake draft; `voice` has a source session, `asked` a follow-up that was requested. */
  datatype Draft = Draft(conversation: Option<int>, open: bool, updatedAt: real, voice: bool, asked: bool)

  /** A row of service.intake_messages, in the order in which the links were observed. */
  datatype Link = Link(draft: nat, message: int)

  /** A row of service.followup_triage. */
  datatype Hold = Hold(message: int, candidates: seq<nat>, resolved: Option<nat>)

  datatype Desk = Desk(drafts: seq<Draft>, links: seq<Link>, holds: seq<Hold>)

  datatype Error = StaffRequired | NothingToLink | AlreadyLinked | NotACandidate

  datatype Result<T> = Ok(value: T) | Raised(error: Error)

  const RECENT := 604800.0
  const HELD_CANDIDATES: nat := 50

  // ---- attaching ----------------------------------------------------------------------------------

  predicate IsLinked(links: seq<Link>, draft: nat, message: int) {
    exists i :: 0 <= i < |links| && links[i] == Link(draft, message)
  }

  /** attach_message_to_intake. */
  function Attached(d: Desk, message: int, draft: nat, now: real): Desk {
    if draft >= |d.drafts| || IsLinked(d.links, draft, message) then d
    else d.(links := d.links + [Link(draft, message)], drafts := d.drafts[draft := d.drafts[draft].(updatedAt := now)])
  }

  /** The open intake of the message that is replied to; the first link decides. */
  function Referenced(d: Desk, links: seq<Link>, replyTo: Option<int>): (r: Option<nat>)
    ensures r.Some? ==> replyTo.Some? && IsLinked(links, r.value, replyTo.value)
    ensures r.Some? ==> r.value < |d.drafts| && d.drafts[r.value].open
  {
    if links == [] || replyTo == None then None
    else
      var n := |links| - 1;
      var before := Referenced(d, links[..n], replyTo);
      if before.Some? then
        var i :| 0 <= i < n && links[..n][i] == Link(before.value, replyTo.value);
        assert links[i] == Link(before.value, replyTo.value);
        before
      else if links[n].message == replyTo.value && links[n].draft < |d.drafts| && d.drafts[links[n].draft].open
      then Some(links[n].draft)
      else None
  }

  /** A recent open intake on the message's conversation. */
  predicate Candidate(d: Desk, k: nat, conversation: int, now: real) {
    k < |d.drafts| && d.drafts[k].open && d.drafts[k].conversation == Some(conversation) && d.drafts[k].updatedAt > now - RECENT
  }

  function Rows(d: Desk, n: nat, conversation: int, now: real): seq<OrderedLimit.Item>
    requires n <= |d.drafts|
  {
    if n == 0 then []
    else
      Rows(d, n - 1, conversation, now)
      + if Candidate(d, n - 1, conversation, now) then [OrderedLimit.Item(-d.drafts[n - 1].updatedAt, 0.0, n - 1, n - 1)] else []
  }

  function Positions(rows: seq<OrderedLimit.Item>): (r: seq<nat>)
    ensures |r| == |rows| && forall i :: 0 <= i < |r| ==> r[i] == rows[i].row
  {
    seq(|rows|, i requires 0 <= i < |rows| => rows[i].row)
  }

  predicate NeedsHold(d: Desk, rows: seq<OrderedLimit.Item>) {
    exists i :: 0 <= i < |rows| && rows[i].row < |d.drafts| && d.drafts[rows[i].row].asked
  }

  predicate Held(holds: seq<Hold>, message: int) {
    exists i :: 0 <= i < |holds| && holds[i].message == message
  }

  predicate Ignored(m: Message, update: bool) {
    !m.inbound || m.content == OtherContent || ((m.content == Image || m.content == Document) && !m.stored && update)
  }

  /** The trigger on the message. */
  function Correlated(d: Desk, m: Message, update: bool, now: real): Desk {
    if Ignored(m, update) then d
    else if Referenced(d, d.links, m.replyTo).Some? then Attached(d, m.id, Referenced(d, d.links, m.replyTo).value, now)
    else
      var rows := Rows(d, |d.drafts|, m.conversation, now);
      if rows == [] then d
      else if |rows| > 1 then
        if NeedsHold(d, rows) && !Held(d.holds, m.id)
        then d.(holds := d.holds + [Hold(m.id, Positions(OrderedLimit.Limited(rows, HELD_CANDIDATES)), None)]) else d
      else if (m.content == Text || m.content == Location) && rows[0].row < |d.drafts| && !d.drafts[rows[0].row].voice then d
      else Attached(d, m.id, rows[0].row, now)
  }

  // ---- resolving ----------------------------------------------------------------------------------

  function FindHold(holds: seq<Hold>, message: int): (r: Option<nat>)
    ensures r.Some? ==> r.value < |holds| && holds[r.value].message == message
    ensures r == None ==> !Held(holds, message)
  {
    if holds == [] then None
    else if holds[|holds| - 1].message == message then Some(|holds| - 1)
    else FindHold(holds[..|holds| - 1], message)
  }

  function Resolved(d: Desk, staff: bool, message: int, draft: nat, now: real): (Desk, Result<nat>) {
    if !staff then (d, Raised(StaffRequired))
    else
      match FindHold(d.holds, message)
      case None => (d, Raised(NothingToLink))
      case Some(h) =>
        if d.holds[h].resolved.Some? then (d, Raised(AlreadyLinked))
        else if draft !in d.holds[h].candidates then (d, Raised(NotACandidate))
        else (Attached(d, message, draft, now).(holds := d.holds[h := d.holds[h].(resolved := Some(draft))]), Ok(draft))
  }

  class CorrelationDesk {
    var drafts: seq<Draft>
    var links: seq<Link>
    var holds: seq<Hold>

    ghost function State(): Desk
      reads this
    {
      Desk(drafts, links, holds)
    }

    method Attach(message: int, draft: nat, now: real)
      modifies this
      ensures State() == Attached(old(State()), message, draft, now)
    {
      if draft < |drafts| && !IsLinked(links, draft, message) {
        links := links + [Link(draft, message)];
        drafts := drafts[draft := drafts[draft].(updatedAt := now)];
      }
    }

    method OnMessage(m: Message, update: bool, now: real)
      modifies this
      ensures State() == Correlated(old(State()), m, update, now)
    {
      if !m.inbound || m.content == OtherContent { return; }
      if (m.content == Image || m.content == Document) && !m.stored && update { return; }
      var intake := Referenced(Desk(drafts, links, holds), links, m.replyTo);
      if intake == None {
        var rows := Rows(Desk(drafts, links, holds), |drafts|, m.conversation, now);
        if rows == [] { return; }
        if |rows| > 1 {
          if NeedsHold(Desk(drafts, links, holds), rows) && !Held(holds, m.id) {
            holds := holds + [Hold(m.id, Positions(OrderedLimit.Limited(rows, HELD_CANDIDATES)), None)];
          }
          return;
        }
        intake := Some(rows[0].row);
        if (m.content == Text || m.content == Location) && intake.value < |drafts| && !drafts[intake.value].voice { return; }
      }
      Attach(m.id, intake.value, now);
    }

    method Resolve(staff: bool, message: int, draft: nat, now: real) returns (r: Result<nat>)
      modifies this
      ensures (State(), r) == Resolved(old(State()), staff, message, draft, now)
    {
      if !staff { return Raised(StaffRequired); }
      var h := FindHold(holds, message);
      if h == None { return Raised(NothingToLink); }
      if holds[h.value].resolved.Some? { return Raised(AlreadyLinked); }
      if draft !in holds[h.value].candidates { return Raised(NotACandidate); }
      Attach(message, draft, now);
      holds := holds[h.value := holds[h.value].(resolved := Some(draft))];
      r := Ok(draft);
    }
  }

  // ---- candidates -----------------------------------------------------------------------------------

  lemma {:induction false} RowsAreCandidates(d: Desk, n: nat, conversation: int, now: real)
    requires n <= |d.drafts|
    ensures var rows := Rows(d, n, conversation, now);
            && OrderedLimit.Distinct(rows)
            && forall i :: 0 <= i < |rows| ==> rows[i].row < n && Candidate(d, rows[i].row, conversation, now)
  {
    if n > 0 {
      RowsAreCandidates(d, n - 1, conversation, now);
    }
  }

  lemma {:induction false} CandidatesAreRows(d: Desk, n: nat, conversation: int, now: real, k: nat) returns (at: nat)
    requires k < n <= |d.drafts| && Candidate(d, k, conversation, now)
    ensures at < |Rows(d, n, conversation, now)| && Rows(d, n, conversation, now)[at].row == k
  {
    if k == n - 1 {
      at := |Rows(d, n - 1, conversation, now)|;
    } else {
      at := CandidatesAreRows(d, n - 1, conversation, now, k);
    }
  }

  /** The one intake that a message without a usable reference can belong to. */
  ghost predicate OnlyCandidate(d: Desk, k: nat, conversation: int, now: real) {
    Candidate(d, k, conversation, now) && forall j: nat :: Candidate(d, j, conversation, now) ==> j == k
  }

  lemma OneRowIffOnly(d: Desk, conversation: int, now: real, k: nat)
    ensures var rows := Rows(d, |d.drafts|, conversation, now);
            |rows| == 1 && rows[0].row == k <==> OnlyCandidate(d, k, conversation, now)
  {
    var rows := Rows(d, |d.drafts|, conversation, now);
    RowsAreCandidates(d, |d.drafts|, conversation, now);
    if OnlyCandidate(d, k, conversation, now) {
      var at := CandidatesAreRows(d, |d.drafts|, conversation, now, k);
      assert |rows| > 1 ==> rows[0].row != rows[1].row;
      assert forall i :: 0 <= i < |rows| ==> Candidate(d, rows[i].row, conversation, now);
    } else if |rows| == 1 && rows[0].row == k {
      var j: nat :| Candidate(d, j, conversation, now) && j != k;
      var at := CandidatesAreRows(d, |d.drafts|, conversation, now, j);
    }
  }

  /** The intake to which the trigger attaches a message. */
  ghost predicate AttachesTo(d: Desk, m: Message, update: bool, now: real, k: nat) {
    && !Ignored(m, update)
    && if Referenced(d, d.links, m.replyTo).Some? then Referenced(d, d.links, m.replyTo) == Some(k)
       else OnlyCandidate(d, k, m.conversation, now) && (m.content == Image || m.content == Document || d.drafts[k].voice)
  }

  /** Nothing is attached by guesswork: the trigger links a message to an intake if and only if the message
      replies to a message of that open intake, or names none and that is the only recent open intake of
      its conversation. */
  lemma LinkedIff(d: Desk, m: Message, update: bool, now: real, k: nat)
    requires !IsLinked(d.links, k, m.id)
    ensures IsLinked(Correlated(d, m, update, now).links, k, m.id) <==> AttachesTo(d, m, update, now, k)
  {
    OneRowIffOnly(d, m.conversation, now, k);
    RowsAreCandidates(d, |d.drafts|, m.conversation, now);
    var after := Correlated(d, m, update, now);
    if AttachesTo(d, m, update, now, k) {
      assert after.links == d.links + [Link(k, m.id)];
      assert after.links[|d.links|] == Link(k, m.id);
    } else {
      assert after.links == d.links || exists j: nat :: j != k && after.links == d.links + [Link(j, m.id)];
    }
  }

  /** A message that is held for a person is attached without one if and only if, when it is updated, only
      one candidate is left, or the message it replies to has come to an open intake. */
  lemma HeldIsAttachedIff(d: Desk, m: Message, now: real)
    requires Held(d.holds, m.id) && forall k: nat :: !IsLinked(d.links, k, m.id)
    ensures (exists k: nat :: IsLinked(Correlated(d, m, true, now).links, k, m.id))
            <==> exists k: nat :: AttachesTo(d, m, true, now, k)
  {
    forall k: nat ensures IsLinked(Correlated(d, m, true, now).links, k, m.id) <==> AttachesTo(d, m, true, now, k) {
      LinkedIff(d, m, true, now, k);
    }
  }

  lemma LinkStays(links: seq<Link>, more: seq<Link>, draft: nat, message: int)
    requires links <= more && IsLinked(links, draft, message)
    ensures IsLinked(more, draft, message)
  {
    var i :| 0 <= i < |links| && links[i] == Link(draft, message);
    assert more[i] == Link(draft, message);
  }

  lemma AttachedIsLinked(d: Desk, message: int, draft: nat, now: real)
    requires draft < |d.drafts|
    ensures IsLinked(Attached(d, message, draft, now).links, draft, message) && d.links <= Attached(d, message, draft, now).links
  {
    if !IsLinked(d.links, draft, message) {
      assert Attached(d, message, draft, now).links[|d.links|] == Link(draft, message);
    }
  }

  /** The hold stays open when the trigger attaches its message: a person can still choose another intake,
      and the message ends in both. */
  lemma HeldCanEndInTwoIntakes(d: Desk, m: Message, now: real, later: real, one: nat, other: nat)
    requires AttachesTo(d, m, true, now, one) && one != other && other < |d.drafts| && !IsLinked(d.links, one, m.id)
    requires FindHold(d.holds, m.id).Some? && var h := d.holds[FindHold(d.holds, m.id).value]; h.resolved == None && other in h.candidates
    ensures var after := Resolved(Correlated(d, m, true, now), true, m.id, other, later);
            after.1 == Ok(other) && IsLinked(after.0.links, one, m.id) && IsLinked(after.0.links, other, m.id)
  {
    LinkedIff(d, m, true, now, one);
    OneRowIffOnly(d, m.conversation, now, one);
    var e := Correlated(d, m, true, now);
    assert e.holds == d.holds && |e.drafts| == |d.drafts|;
    AttachedIsLinked(e, m.id, other, later);
    LinkStays(e.links, Attached(e, m.id, other, later).links, one, m.id);
  }

  // ---- what a message does --------------------------------------------------------------------------

  /** The trigger looks at what a customer writes, sends or shares: a file once it is stored, or when it is new. */
  lemma IgnoredIff(m: Message, update: bool)
    ensures !Ignored(m, update) <==>
              m.inbound && (m.content in {Text, Location} || (m.content in {Image, Document} && (m.stored || !update)))
  {
  }

  /** An open intake that is recent: it changed in the last seven days. */
  lemma CandidateIff(d: Desk, k: nat, conversation: int, now: real)
    ensures Candidate(d, k, conversation, now) <==>
              k < |d.drafts| && d.drafts[k].open && d.drafts[k].conversation == Some(conversation)
              && now - d.drafts[k].updatedAt < 7.0 * 24.0 * 3600.0
  {
  }

  /** The i-th link names the message that is replied to and an open intake. */
  predicate Names(d: Desk, links: seq<Link>, i: nat, replyTo: Option<int>) {
    i < |links| && Some(links[i].message) == replyTo && links[i].draft < |d.drafts| && d.drafts[links[i].draft].open
  }

  lemma {:induction false} ReferencedIff(d: Desk, links: seq<Link>, replyTo: Option<int>)
    ensures forall k: nat :: Referenced(d, links, replyTo) == Some(k) ==>
              exists i: nat :: Names(d, links, i, replyTo) && links[i].draft == k && forall j: nat :: j < i ==> !Names(d, links, j, replyTo)
    ensures Referenced(d, links, replyTo) == None ==> forall i: nat :: !Names(d, links, i, replyTo)
    decreases |links|
  {
    if links != [] && replyTo.Some? {
      var n := |links| - 1;
      ReferencedIff(d, links[..n], replyTo);
      assert forall i: nat :: i < n ==> (Names(d, links[..n], i, replyTo) <==> Names(d, links, i, replyTo));
      if Referenced(d, links[..n], replyTo).Some? {
        var k := Referenced(d, links[..n], replyTo).value;
        var i: nat :| Names(d, links[..n], i, replyTo) && links[..n][i].draft == k
                      && forall j: nat :: j < i ==> !Names(d, links[..n], j, replyTo);
        assert Names(d, links, i, replyTo) && links[i].draft == k && forall j: nat :: j < i ==> !Names(d, links, j, replyTo);
      } else if Names(d, links, n, replyTo) {
        assert forall j: nat :: j < n ==> !Names(d, links, j, replyTo);
      }
    }
  }

  /** An intake is told of a message once, and then counts as changed now. */
  lemma AttachingEffect(d: Desk, message: int, draft: nat, now: real)
    ensures Attached(d, message, draft, now) ==
              if draft < |d.drafts| && Link(draft, message) !in d.links then
                Desk(d.drafts[draft := d.drafts[draft].(updatedAt := now)], d.links + [Link(draft, message)], d.holds)
              else d
  {
    assert IsLinked(d.links, draft, message) <==> Link(draft, message) in d.links;
  }

  /** A message is held for a person: it has several candidates, one of them was asked for an answer, and it is
      not held yet. */
  ghost predicate IsHeldNow(d: Desk, m: Message, update: bool, now: real) {
    && !Ignored(m, update) && Referenced(d, d.links, m.replyTo) == None
    && (exists j: nat, k: nat :: j != k && Candidate(d, j, m.conversation, now) && Candidate(d, k, m.conversation, now))
    && (exists k: nat :: Candidate(d, k, m.conversation, now) && d.drafts[k].asked)
    && (forall i :: 0 <= i < |d.holds| ==> d.holds[i].message != m.id)
  }

  lemma SeveralRowsIff(d: Desk, conversation: int, now: real)
    ensures |Rows(d, |d.drafts|, conversation, now)| > 1 <==>
            exists j: nat, k: nat :: j != k && Candidate(d, j, conversation, now) && Candidate(d, k, conversation, now)
  {
    var rows := Rows(d, |d.drafts|, conversation, now);
    RowsAreCandidates(d, |d.drafts|, conversation, now);
    if |rows| > 1 {
      var j, k := rows[0].row, rows[1].row;
      assert j != k && Candidate(d, j, conversation, now) && Candidate(d, k, conversation, now);
    } else if j: nat, k: nat :| j != k && Candidate(d, j, conversation, now) && Candidate(d, k, conversation, now) {
      var a := CandidatesAreRows(d, |d.drafts|, conversation, now, j);
      var b := CandidatesAreRows(d, |d.drafts|, conversation, now, k);
    }
  }

  lemma AskedRowIff(d: Desk, conversation: int, now: real)
    ensures NeedsHold(d, Rows(d, |d.drafts|, conversation, now)) <==>
            exists k: nat :: Candidate(d, k, conversation, now) && d.drafts[k].asked
  {
    var rows := Rows(d, |d.drafts|, conversation, now);
    RowsAreCandidates(d, |d.drafts|, conversation, now);
    if k: nat :| Candidate(d, k, conversation, now) && d.drafts[k].asked {
      var at := CandidatesAreRows(d, |d.drafts|, conversation, now, k);
    }
  }

  /** What the trigger does: it attaches the message to the one intake it can belong to, or holds it for a person,
      or leaves everything as it is. */
  lemma MessageEffect(d: Desk, m: Message, update: bool, now: real, k: nat)
    ensures var after := Correlated(d, m, update, now);
            && (AttachesTo(d, m, update, now, k) ==> after == Attached(d, m.id, k, now))
            && (IsHeldNow(d, m, update, now) ==>
                 && after.drafts == d.drafts && after.links == d.links && |after.holds| == |d.holds| + 1
                 && after.holds[..|d.holds|] == d.holds
                 && after.holds[|d.holds|] == Hold(m.id, after.holds[|d.holds|].candidates, None))
            && (!IsHeldNow(d, m, update, now) && (forall j: nat :: !AttachesTo(d, m, update, now, j)) ==> after == d)
  {
    var rows := Rows(d, |d.drafts|, m.conversation, now);
    RowsAreCandidates(d, |d.drafts|, m.conversation, now);
    OneRowIffOnly(d, m.conversation, now, k);
    SeveralRowsIff(d, m.conversation, now);
    AskedRowIff(d, m.conversation, now);
    if |rows| == 1 {
      OneRowIffOnly(d, m.conversation, now, rows[0].row);
      assert !AttachesTo(d, m, update, now, rows[0].row) || Correlated(d, m, update, now) == Attached(d, m.id, rows[0].row, now);
    }
    var reference := Referenced(d, d.links, m.replyTo);
    if reference.Some? {
      assert !AttachesTo(d, m, update, now, reference.value) || Correlated(d, m, update, now) == Attached(d, m.id, reference.value, now);
    }
  }

  /** The hold offers the candidates that changed last, and of one time the ones with smaller ids: all of them or
      fifty. */
  lemma HoldOffers(d: Desk, m: Message, update: bool, now: real, k: nat)
    requires IsHeldNow(d, m, update, now)
    ensures var after := Correlated(d, m, update, now);
            && |after.holds| == |d.holds| + 1
            && var offered := after.holds[|d.holds|].candidates;
               && (k in offered ==> Candidate(d, k, m.conversation, now))
               && (Candidate(d, k, m.conversation, now) && k !in offered ==>
                    |offered| == 50
                    && forall i :: 0 <= i < 50 ==>
                         offered[i] < |d.drafts|
                         && (d.drafts[offered[i]].updatedAt > d.drafts[k].updatedAt
                             || (d.drafts[offered[i]].updatedAt == d.drafts[k].updatedAt && offered[i] < k)))
  {
    SeveralRowsIff(d, m.conversation, now);
    AskedRowIff(d, m.conversation, now);
    var kept := Offered(d, m.conversation, now);
    var offered := Correlated(d, m, update, now).holds[|d.holds|].candidates;
    assert offered == Positions(kept);
    forall i | 0 <= i < |kept| ensures Candidate(d, kept[i].row, m.conversation, now) {
      OfferedCarry(d, m.conversation, now, i);
    }
    if Candidate(d, k, m.conversation, now) && k !in offered {
      assert forall i :: 0 <= i < |kept| ==> offered[i] == kept[i].row && offered[i] in offered;
      LeftOutIsOlder(d, m.conversation, now, k);
    }
  }

  function Offered(d: Desk, conversation: int, now: real): seq<OrderedLimit.Item> {
    OrderedLimit.Limited(Rows(d, |d.drafts|, conversation, now), HELD_CANDIDATES)
  }

  lemma OfferedCarry(d: Desk, conversation: int, now: real, i: nat)
    requires i < |Offered(d, conversation, now)|
    ensures var item := Offered(d, conversation, now)[i];
            Candidate(d, item.row, conversation, now)
            && item == OrderedLimit.Item(-d.drafts[item.row].updatedAt, 0.0, item.row, item.row)
  {
    var rows := Rows(d, |d.drafts|, conversation, now);
    RowsAreCandidates(d, |d.drafts|, conversation, now);
    OrderedLimit.LimitedSelects(rows, HELD_CANDIDATES);
    var j :| 0 <= j < |rows| && rows[j] == Offered(d, conversation, now)[i];
    RowsCarryTimes(d, |d.drafts|, conversation, now, j);
  }

  lemma LeftOutIsOlder(d: Desk, conversation: int, now: real, k: nat)
    requires Candidate(d, k, conversation, now)
    requires forall i :: 0 <= i < |Offered(d, conversation, now)| ==> Offered(d, conversation, now)[i].row != k
    ensures var kept := Offered(d, conversation, now);
            |kept| == 50
            && forall i :: 0 <= i < 50 ==>
                 kept[i].row < |d.drafts|
                 && (d.drafts[kept[i].row].updatedAt > d.drafts[k].updatedAt
                     || (d.drafts[kept[i].row].updatedAt == d.drafts[k].updatedAt && kept[i].row < k))
  {
    var kept := Offered(d, conversation, now);
    var rows := Rows(d, |d.drafts|, conversation, now);
    var at := CandidatesAreRows(d, |d.drafts|, conversation, now, k);
    RowsCarryTimes(d, |d.drafts|, conversation, now, at);
    OrderedLimit.LimitedTakesFirst(rows, HELD_CANDIDATES, rows[at]);
    forall i | 0 <= i < 50
      ensures kept[i].row < |d.drafts|
              && (d.drafts[kept[i].row].updatedAt > d.drafts[k].updatedAt
                  || (d.drafts[kept[i].row].updatedAt == d.drafts[k].updatedAt && kept[i].row < k))
    {
      OfferedCarry(d, conversation, now, i);
      assert OrderedLimit.Precedes(kept[i], rows[at]);
    }
  }

  lemma {:induction false} RowsCarryTimes(d: Desk, n: nat, conversation: int, now: real, i: nat)
    requires n <= |d.drafts| && i < |Rows(d, n, conversation, now)|
    ensures var row := Rows(d, n, conversation, now)[i].row;
            row < n && Rows(d, n, conversation, now)[i] == OrderedLimit.Item(-d.drafts[row].updatedAt, 0.0, row, row)
  {
    if i < |Rows(d, n - 1, conversation, now)| {
      RowsCarryTimes(d, n - 1, conversation, now, i);
    }
  }

  /** What a person's choice does: made by staff, on a message that is held and not resolved, among what the hold
      offers, it attaches the message and resolves that hold; anything else is refused and changes nothing. */
  lemma ResolvingEffect(d: Desk, staff: bool, message: int, draft: nat, now: real, h: nat)
    requires h < |d.holds| && d.holds[h].message == message
    requires forall i :: 0 <= i < |d.holds| && i != h ==> d.holds[i].message != message
    ensures Resolved(d, staff, message, draft, now) ==
              if !staff then (d, Raised(StaffRequired))
              else if d.holds[h].resolved.Some? then (d, Raised(AlreadyLinked))
              else if draft !in d.holds[h].candidates then (d, Raised(NotACandidate))
              else (Attached(d, message, draft, now).(holds := d.holds[h := Hold(message, d.holds[h].candidates, Some(draft))]), Ok(draft))
  {
    assert Held(d.holds, message);
    assert FindHold(d.holds, message) == Some(h);
  }

  lemma NothingHeld(d: Desk, staff: bool, message: int, draft: nat, now: real)
    requires forall i :: 0 <= i < |d.holds| ==> d.holds[i].message != message
    ensures Resolved(d, staff, message, draft, now) == (d, Raised(if staff then NothingToLink else StaffRequired))
  {
    assert !Held(d.holds, message);
  }

  // ---- runs ---------------------------------------------------------------------------------------

  /** Messages, people, and what the rest of the system does to drafts. */
  datatype Step =
    | OnMessageStep(m: Message, update: bool, now: real)
    | ResolveStep(staff: bool, message: int, draft: nat, now: real)
    | NewDraft(row: Draft)
    | ChangeDraft(k: nat, row: Draft)

  function Apply(d: Desk, step: Step): Desk {
    match step
    case OnMessageStep(m, update, now) => Correlated(d, m, update, now)
    case ResolveStep(staff, message, draft, now) => Resolved(d, staff, message, draft, now).0
    case NewDraft(row) => d.(drafts := d.drafts + [row])
    case ChangeDraft(k, row) => if k < |d.drafts| then d.(drafts := d.drafts[k := row]) else d
  }

  function Run(d: Desk, steps: seq<Step>): Desk
    decreases |steps|
  {
    if steps == [] then d else Apply(Run(d, steps[..|steps| - 1]), steps[|steps| - 1])
  }

  predicate Distinct(candidates: seq<nat>) {
    forall i, j :: 0 <= i < j < |candidates| ==> candidates[i] != candidates[j]
  }

  /** A hold offers 2 to 50 different drafts; once resolved it names one of them, which has the message. */
  predicate SoundHold(h: Hold, links: seq<Link>, drafts: nat) {
    && 2 <= |h.candidates| <= HELD_CANDIDATES && Distinct(h.candidates)
    && (forall i :: 0 <= i < |h.candidates| ==> h.candidates[i] < drafts)
    && (h.resolved.Some? ==> h.resolved.value in h.candidates && IsLinked(links, h.resolved.value, h.message))
  }

  predicate Sound(d: Desk) {
    && (forall i :: 0 <= i < |d.holds| ==> SoundHold(d.holds[i], d.links, |d.drafts|))
    && (forall i, j :: 0 <= i < j < |d.holds| ==> d.holds[i].message != d.holds[j].message)
    && (forall i, j :: 0 <= i < j < |d.links| ==> d.links[i] != d.links[j])
  }

  /** What a step may do to links and holds. */
  predicate Extends(d: Desk, e: Desk) {
    && d.links <= e.links && |d.drafts| <= |e.drafts| && |d.holds| <= |e.holds|
    && forall i :: 0 <= i < |d.holds| ==>
         && e.holds[i].message == d.holds[i].message && e.holds[i].candidates == d.holds[i].candidates
         && (d.holds[i].resolved.Some? ==> e.holds[i].resolved == d.holds[i].resolved)
  }

  lemma AttachedIsSound(d: Desk, message: int, draft: nat, now: real)
    requires Sound(d)
    ensures Sound(Attached(d, message, draft, now)) && Extends(d, Attached(d, message, draft, now))
    ensures draft < |d.drafts| ==> IsLinked(Attached(d, message, draft, now).links, draft, message)
  {
    var e := Attached(d, message, draft, now);
    forall i | 0 <= i < |d.holds| ensures SoundHold(e.holds[i], e.links, |e.drafts|) {
      if d.holds[i].resolved.Some? {
        LinkStays(d.links, e.links, d.holds[i].resolved.value, d.holds[i].message);
      }
    }
    if draft < |d.drafts| {
      AttachedIsLinked(d, message, draft, now);
    }
  }

  lemma NewHoldIsSound(d: Desk, m: Message, now: real)
    requires |Rows(d, |d.drafts|, m.conversation, now)| > 1
    ensures var h := Hold(m.id, Positions(OrderedLimit.Limited(Rows(d, |d.drafts|, m.conversation, now), HELD_CANDIDATES)), None);
            SoundHold(h, d.links, |d.drafts|)
  {
    var rows := Rows(d, |d.drafts|, m.conversation, now);
    var kept := OrderedLimit.Limited(rows, HELD_CANDIDATES);
    RowsAreCandidates(d, |d.drafts|, m.conversation, now);
    OrderedLimit.LimitedSelects(rows, HELD_CANDIDATES);
    OrderedLimit.OrderedKeepsLength(rows);
    forall i | 0 <= i < |kept| ensures kept[i].row < |d.drafts| {
      assert kept[i] in rows;
    }
  }

  lemma CorrelatedIsSound(d: Desk, m: Message, update: bool, now: real)
    requires Sound(d)
    ensures Sound(Correlated(d, m, update, now)) && Extends(d, Correlated(d, m, update, now))
  {
    var reference := Referenced(d, d.links, m.replyTo);
    var rows := Rows(d, |d.drafts|, m.conversation, now);
    if reference.Some? {
      AttachedIsSound(d, m.id, reference.value, now);
    } else if |rows| > 1 {
      NewHoldIsSound(d, m, now);
    } else if |rows| == 1 {
      AttachedIsSound(d, m.id, rows[0].row, now);
    }
  }

  lemma ResolvedIsSound(d: Desk, staff: bool, message: int, draft: nat, now: real)
    requires Sound(d)
    ensures Sound(Resolved(d, staff, message, draft, now).0) && Extends(d, Resolved(d, staff, message, draft, now).0)
  {
    var h := FindHold(d.holds, message);
    if staff && h.Some? && d.holds[h.value].resolved == None && draft in d.holds[h.value].candidates {
      var c := d.holds[h.value].candidates;
      var i :| 0 <= i < |c| && c[i] == draft;
      assert draft < |d.drafts|;
      AttachedIsSound(d, message, draft, now);
    }
  }

  lemma StepIsSound(d: Desk, step: Step)
    requires Sound(d)
    ensures Sound(Apply(d, step)) && Extends(d, Apply(d, step))
  {
    match step
    case OnMessageStep(m, update, now) => CorrelatedIsSound(d, m, update, now);
    case ResolveStep(staff, message, draft, now) => ResolvedIsSound(d, staff, message, draft, now);
    case NewDraft(_) =>
    case ChangeDraft(_, _) =>
  }

  /** Over any run: a held message offers 2 to 50 different intakes and is held once, a person's choice is
      one of them, is made once and has the message, and no link is lost or repeated. */
  lemma {:induction false} HoldsAreResolvedOnce(d: Desk, steps: seq<Step>)
    requires Sound(d)
    ensures Sound(Run(d, steps)) && Extends(d, Run(d, steps))
    decreases |steps|
  {
    if steps != [] {
      HoldsAreResolvedOnce(d, steps[..|steps| - 1]);
      StepIsSound(Run(d, steps[..|steps| - 1]), steps[|steps| - 1]);
    }
  }
}
