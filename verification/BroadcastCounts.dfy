/** The `adjust_broadcast_counts` trigger: five counters on a broadcast that follow the statuses of
    its recipients through inserts, status updates and deletes. */
module BroadcastCounts {
  import opened Common

  type Id = nat

  datatype Status = Pending | Sent | Delivered | Read | Replied | Failed

  datatype Counters = Counters(sent: int, delivered: int, read: int, replied: int, failed: int)
  {
    /** The counter kept for a status; pending recipients are not counted. */
    function Of(s: Status): int
      requires s != Pending
    {
      match s
      case Sent => sent
      case Delivered => delivered
      case Read => read
      case Replied => replied
      case Failed => failed
    }
  }

  const ZERO := Counters(0, 0, 0, 0, 0)

  datatype Recipient = Recipient(broadcast: Id, status: Status)

  datatype Tables = Tables(broadcasts: map<Id, Counters>, recipients: map<Id, Recipient>)

  datatype Step =
    | CreateBroadcast(broadcast: Id)
    | DropBroadcast(broadcast: Id)
    | Insert(id: Id, broadcast: Id, status: Status)
    | SetStatus(id: Id, status: Status)
    | Delete(id: Id)

  /** `COALESCE((status = s)::int, 0)`. */
  function Hit(status: Option<Status>, s: Status): int {
    if status == Some(s) then 1 else 0
  }

  /** The new value of one counter before `GREATEST(0, ...)`. */
  function Moved(value: int, was: Option<Status>, now: Option<Status>, s: Status): int {
    value + Hit(now, s) - Hit(was, s)
  }

  function Clamped(value: int): int {
    if value < 0 then 0 else value
  }

  function Adjust(c: Counters, was: Option<Status>, now: Option<Status>): (r: Counters)
    ensures forall s: Status :: s != Pending ==> r.Of(s) == Clamped(Moved(c.Of(s), was, now, s))
  {
    Counters(
      Clamped(Moved(c.sent, was, now, Sent)),
      Clamped(Moved(c.delivered, was, now, Delivered)),
      Clamped(Moved(c.read, was, now, Read)),
      Clamped(Moved(c.replied, was, now, Replied)),
      Clamped(Moved(c.failed, was, now, Failed)))
  }

  /** `UPDATE messaging.broadcasts ... WHERE id = target_id`. */
  function Fire(broadcasts: map<Id, Counters>, target: Id, was: Option<Status>, now: Option<Status>): map<Id, Counters> {
    if target in broadcasts then broadcasts[target := Adjust(broadcasts[target], was, now)] else broadcasts
  }

  /** One statement; statements that the keys of the tables reject leave everything as it was. */
  function Apply(t: Tables, step: Step): Tables {
    match step
    case CreateBroadcast(b) =>
      if b in t.broadcasts then t else t.(broadcasts := t.broadcasts[b := ZERO])
    case DropBroadcast(b) =>
      Tables(t.broadcasts - {b}, map r | r in t.recipients && t.recipients[r].broadcast != b :: t.recipients[r])
    case Insert(id, b, status) =>
      if id in t.recipients || b !in t.broadcasts then t
      else Tables(Fire(t.broadcasts, b, None, Some(status)), t.recipients[id := Recipient(b, status)])
    case SetStatus(id, status) =>
      if id !in t.recipients then t
      else
        var row := t.recipients[id];
        Tables(Fire(t.broadcasts, row.broadcast, Some(row.status), Some(status)),
               t.recipients[id := row.(status := status)])
    case Delete(id) =>
      if id !in t.recipients then t
      else
        var row := t.recipients[id];
        Tables(Fire(t.broadcasts, row.broadcast, Some(row.status), None), t.recipients - {id})
  }

  function Run(t: Tables, steps: seq<Step>): Tables
    decreases |steps|
  {
    if steps == [] then t else Run(Apply(t, steps[0]), steps[1..])
  }

  function With(recipients: map<Id, Recipient>, b: Id, s: Status): set<Id> {
    set r | r in recipients && recipients[r] == Recipient(b, s)
  }

  /** A count of the recipient rows themselves. */
  function Recount(recipients: map<Id, Recipient>, b: Id, s: Status): nat {
    |With(recipients, b, s)|
  }

  ghost predicate Exact(t: Tables) {
    && (forall r :: r in t.recipients ==> t.recipients[r].broadcast in t.broadcasts)
    && (forall b, s :: b in t.broadcasts && s != Pending ==> t.broadcasts[b].Of(s) == Recount(t.recipients, b, s))
  }

  lemma RecountAfterRemoval(recipients: map<Id, Recipient>, id: Id, b: Id, s: Status)
    requires id in recipients
    ensures Recount(recipients - {id}, b, s)
            == Recount(recipients, b, s) - (if recipients[id] == Recipient(b, s) then 1 else 0)
  {
    assert With(recipients - {id}, b, s) == With(recipients, b, s) - {id};
  }

  lemma RecountAfterInsert(recipients: map<Id, Recipient>, id: Id, row: Recipient, b: Id, s: Status)
    requires id !in recipients
    ensures Recount(recipients[id := row], b, s)
            == Recount(recipients, b, s) + (if row == Recipient(b, s) then 1 else 0)
  {
    assert (recipients[id := row]) - {id} == recipients;
    RecountAfterRemoval(recipients[id := row], id, b, s);
  }

  lemma RecountAfterUpdate(recipients: map<Id, Recipient>, id: Id, row: Recipient, b: Id, s: Status)
    requires id in recipients
    ensures Recount(recipients[id := row], b, s)
            == Recount(recipients, b, s) - (if recipients[id] == Recipient(b, s) then 1 else 0)
                                         + (if row == Recipient(b, s) then 1 else 0)
  {
    RecountAfterRemoval(recipients, id, b, s);
    RecountAfterInsert(recipients - {id}, id, row, b, s);
    assert (recipients - {id})[id := row] == recipients[id := row];
  }

  /** The row whose change fires the trigger, before and after. */
  ghost function Firing(t: Tables, step: Step): (r: Option<(Id, Option<Status>, Option<Status>)>) {
    match step
    case Insert(id, b, status) => if id in t.recipients || b !in t.broadcasts then None else Some((b, None, Some(status)))
    case SetStatus(id, status) =>
      if id in t.recipients then Some((t.recipients[id].broadcast, Some(t.recipients[id].status), Some(status))) else None
    case Delete(id) =>
      if id in t.recipients then Some((t.recipients[id].broadcast, Some(t.recipients[id].status), None)) else None
    case _ => None
  }

  /** When the counters are exact, `GREATEST(0, ...)` never changes a value. */
  lemma ClampNeverBites(t: Tables, step: Step, s: Status)
    requires Exact(t) && s != Pending && Firing(t, step).Some?
    ensures var (b, was, now) := Firing(t, step).value;
            b in t.broadcasts && Moved(t.broadcasts[b].Of(s), was, now, s) >= 0
  {
    var (b, was, now) := Firing(t, step).value;
    if was == Some(s) {
      assert step.id in With(t.recipients, b, s);
    }
  }

  lemma RecipientsHaveBroadcasts(t: Tables, step: Step)
    requires Exact(t)
    ensures forall r :: r in Apply(t, step).recipients ==> Apply(t, step).recipients[r].broadcast in Apply(t, step).broadcasts
  {
  }

  lemma InsertKeepsExact(t: Tables, id: Id, to: Id, status: Status, b: Id, s: Status)
    requires Exact(t) && id !in t.recipients && to in t.broadcasts && b in t.broadcasts && s != Pending
    ensures Fire(t.broadcasts, to, None, Some(status))[b].Of(s) == Recount(t.recipients[id := Recipient(to, status)], b, s)
  {
    RecountAfterInsert(t.recipients, id, Recipient(to, status), b, s);
  }

  lemma UpdateKeepsExact(t: Tables, id: Id, status: Status, b: Id, s: Status)
    requires Exact(t) && id in t.recipients && b in t.broadcasts && s != Pending
    ensures var row := t.recipients[id];
            Fire(t.broadcasts, row.broadcast, Some(row.status), Some(status))[b].Of(s)
              == Recount(t.recipients[id := row.(status := status)], b, s)
  {
    ClampNeverBites(t, SetStatus(id, status), s);
    RecountAfterUpdate(t.recipients, id, t.recipients[id].(status := status), b, s);
  }

  lemma DeleteKeepsExact(t: Tables, id: Id, b: Id, s: Status)
    requires Exact(t) && id in t.recipients && b in t.broadcasts && s != Pending
    ensures var row := t.recipients[id];
            Fire(t.broadcasts, row.broadcast, Some(row.status), None)[b].Of(s) == Recount(t.recipients - {id}, b, s)
  {
    ClampNeverBites(t, Delete(id), s);
    RecountAfterRemoval(t.recipients, id, b, s);
  }

  /** Statements on recipients. */
  lemma TriggerKeepsExact(t: Tables, step: Step, b: Id, s: Status)
    requires Exact(t) && Firing(t, step).Some? && b in t.broadcasts && s != Pending
    ensures b in Apply(t, step).broadcasts
    ensures Apply(t, step).broadcasts[b].Of(s) == Recount(Apply(t, step).recipients, b, s)
  {
    match step
    case Insert(id, to, status) => InsertKeepsExact(t, id, to, status, b, s);
    case SetStatus(id, status) => UpdateKeepsExact(t, id, status, b, s);
    case Delete(id) => DeleteKeepsExact(t, id, b, s);
  }

  /** Statements on broadcasts. */
  lemma BroadcastsKeepExact(t: Tables, step: Step, b: Id, s: Status)
    requires Exact(t) && (step.CreateBroadcast? || step.DropBroadcast?) && b in Apply(t, step).broadcasts && s != Pending
    ensures Apply(t, step).broadcasts[b].Of(s) == Recount(Apply(t, step).recipients, b, s)
  {
    if b in t.broadcasts {
      assert With(Apply(t, step).recipients, b, s) == With(t.recipients, b, s);
    } else {
      assert With(t.recipients, b, s) == {};
    }
  }

  lemma StepKeepsExact(t: Tables, step: Step)
    requires Exact(t)
    ensures Exact(Apply(t, step))
  {
    var t' := Apply(t, step);
    RecipientsHaveBroadcasts(t, step);
    forall b, s | b in t'.broadcasts && s != Pending
      ensures t'.broadcasts[b].Of(s) == Recount(t'.recipients, b, s)
    {
      if step.CreateBroadcast? || step.DropBroadcast? {
        BroadcastsKeepExact(t, step, b, s);
      } else if Firing(t, step).Some? {
        TriggerKeepsExact(t, step, b, s);
      }
    }
  }

  /** After any statements from empty tables every counter equals a recount of the recipients. */
  lemma {:induction false} CountersEqualRecount(t: Tables, steps: seq<Step>)
    requires Exact(t)
    ensures Exact(Run(t, steps))
    decreases |steps|
  {
    if steps != [] {
      StepKeepsExact(t, steps[0]);
      CountersEqualRecount(Apply(t, steps[0]), steps[1..]);
    }
  }

  lemma EmptyTablesAreExact()
    ensures Exact(Tables(map[], map[]))
  {
  }

  // ---- the rows -----------------------------------------------------------------------------------

  /** A change of one recipient moves each counter by what it adds and takes away, from any counters, but never
      below zero. */
  lemma AdjustEffect(c: Counters, was: Option<Status>, now: Option<Status>, s: Status)
    requires s != Pending
    ensures var value := c.Of(s) + (if now == Some(s) then 1 else 0) - (if was == Some(s) then 1 else 0);
            Adjust(c, was, now).Of(s) == if value > 0 then value else 0
  {
  }

  /** What a statement does to the rows themselves: a recipient is added under a new id to a broadcast that is
      there, gets a status or goes where it is there, and goes with its broadcast. */
  lemma RowsEffect(t: Tables, step: Step, r: Id)
    ensures var after := Apply(t, step).recipients;
            match step
            case CreateBroadcast(_) => after == t.recipients
            case DropBroadcast(b) =>
              if r in t.recipients && t.recipients[r].broadcast != b then r in after && after[r] == t.recipients[r] else r !in after
            case Insert(id, b, status) =>
              after == if id !in t.recipients && b in t.broadcasts then t.recipients[id := Recipient(b, status)] else t.recipients
            case SetStatus(id, status) =>
              after == if id in t.recipients then t.recipients[id := Recipient(t.recipients[id].broadcast, status)] else t.recipients
            case Delete(id) => if r == id then r !in after else (r in after <==> r in t.recipients) && (r in after ==> after[r] == t.recipients[r])
    ensures Apply(t, step).broadcasts.Keys ==
              match step
              case CreateBroadcast(b) => t.broadcasts.Keys + {b}
              case DropBroadcast(b) => t.broadcasts.Keys - {b}
              case _ => t.broadcasts.Keys
  {
  }

  /** The trigger and the statements that fire it, on the tables themselves. */
  class Messaging {
    var broadcasts: map<Id, Counters>
    var recipients: map<Id, Recipient>

    ghost function State(): Tables
      reads this
    {
      Tables(broadcasts, recipients)
    }

    constructor ()
      ensures State() == Tables(map[], map[]) && Exact(State())
    {
      broadcasts, recipients := map[], map[];
    }

    method AdjustBroadcastCounts(target: Id, was: Option<Status>, now: Option<Status>)
      modifies this`broadcasts
      ensures broadcasts == Fire(old(broadcasts), target, was, now)
    {
      if target in broadcasts {
        broadcasts := broadcasts[target := Adjust(broadcasts[target], was, now)];
      }
    }

    method InsertRecipient(id: Id, broadcast: Id, status: Status)
      requires Exact(State())
      modifies this
      ensures State() == Apply(old(State()), Insert(id, broadcast, status)) && Exact(State())
    {
      StepKeepsExact(State(), Insert(id, broadcast, status));
      if id !in recipients && broadcast in broadcasts {
        recipients := recipients[id := Recipient(broadcast, status)];
        AdjustBroadcastCounts(broadcast, None, Some(status));
      }
    }

    method SetRecipientStatus(id: Id, status: Status)
      requires Exact(State())
      modifies this
      ensures State() == Apply(old(State()), SetStatus(id, status)) && Exact(State())
    {
      StepKeepsExact(State(), SetStatus(id, status));
      if id in recipients {
        var row := recipients[id];
        recipients := recipients[id := row.(status := status)];
        AdjustBroadcastCounts(row.broadcast, Some(row.status), Some(status));
      }
    }

    method DeleteRecipient(id: Id)
      requires Exact(State())
      modifies this
      ensures State() == Apply(old(State()), Delete(id)) && Exact(State())
    {
      StepKeepsExact(State(), Delete(id));
      if id in recipients {
        var row := recipients[id];
        recipients := recipients - {id};
        AdjustBroadcastCounts(row.broadcast, Some(row.status), None);
      }
    }
  }
}
