/** The counting of scripts/whatsapp_channel_sli.py: one query over the receipts of an observation
    window [from, until) that numbers duplicates, discounts receipts already seen before the window
    and classifies the rest by the time to provider acceptance. */
module ChannelSli {
  import opened Common

  /** A row of ops.inbound_events.  `idText` is `id::text`; `idOrder` is the place of the id in
      uuid order; `acceptedAt` is the acceptance that the joins find.  Times are in microseconds. */
  datatype Receipt = Receipt(
    idText: string, idOrder: int, provider: string, account: string, eventType: string,
    messageId: Option<string>, receivedAt: int, sequence: int,
    scopedTenant: Option<string>, acceptedAt: Option<int>)

  const PREFIX := "whatsapp.message."
  const STATUS := "whatsapp.message.status"

  /** Receipts of messages; delivery statuses are not counted. */
  predicate InScope(e: Receipt) {
    e.provider == "meta" && PREFIX <= e.eventType && e.eventType != STATUS
  }

  predicate HasMessageId(e: Receipt) {
    e.messageId.Some? && e.messageId.value != ""
  }

  predicate InWindow(e: Receipt, from: int, until: int) {
    InScope(e) && from <= e.receivedAt < until
  }

  /** `PARTITION BY provider, provider_account_id, COALESCE(NULLIF(message id,''), id::text)`. */
  function Partition(e: Receipt): (string, string, string) {
    (e.provider, e.account, if HasMessageId(e) then e.messageId.value else e.idText)
  }

  /** `ORDER BY received_at, receipt_sequence, id`. */
  predicate Before(f: Receipt, e: Receipt) {
    || f.receivedAt < e.receivedAt
    || (f.receivedAt == e.receivedAt && f.sequence < e.sequence)
    || (f.receivedAt == e.receivedAt && f.sequence == e.sequence && f.idOrder < e.idOrder)
  }

  function Count(s: seq<Receipt>, p: Receipt -> bool): nat {
    if s == [] then 0 else (if p(s[0]) then 1 else 0) + Count(s[1..], p)
  }

  /** `row_number()` within the window. */
  function RowNumber(t: seq<Receipt>, e: Receipt, from: int, until: int): nat {
    1 + Count(t, f => InWindow(f, from, until) && Partition(f) == Partition(e) && Before(f, e))
  }

  /** The `EXISTS` over receipts from before the window. */
  predicate SeenBefore(t: seq<Receipt>, e: Receipt, from: int) {
    HasMessageId(e) && exists f :: f in t && InScope(f) && f.receivedAt < from
                                   && f.provider == e.provider && f.account == e.account && f.messageId == e.messageId
  }

  function DuplicateOrder(t: seq<Receipt>, e: Receipt, from: int, until: int): nat {
    RowNumber(t, e, from, until) + (if SeenBefore(t, e, from) then 1 else 0)
  }

  /** Primary keys of the table. */
  ghost predicate DistinctIds(t: seq<Receipt>) {
    forall e, f :: e in t && f in t && (e.idText == f.idText || e.idOrder == f.idOrder) ==> e == f
  }

  // ---- the columns --------------------------------------------------------------------------------

  const MATURITY := 120_000_000

  predicate Mature(e: Receipt, observedAt: int) {
    e.receivedAt <= observedAt - MATURITY
  }

  datatype Columns = Columns(raw: nat, duplicates: nat, unique: nat, pending: nat, denominator: nat,
                             within: nat, late: nat, noAcceptance: nat, invalidClock: nat)

  predicate Unique(t: seq<Receipt>, e: Receipt, from: int, until: int) {
    InWindow(e, from, until) && DuplicateOrder(t, e, from, until) == 1
  }

  type Kind = Receipt -> bool

  function OfTenant(tenant: Option<string>): Kind {
    (e: Receipt) => e.scopedTenant == tenant
  }

  function Pending(tenant: Option<string>, observedAt: int): Kind {
    (e: Receipt) => e.scopedTenant == tenant && !Mature(e, observedAt)
  }

  function Counted(tenant: Option<string>, observedAt: int): Kind {
    (e: Receipt) => e.scopedTenant == tenant && Mature(e, observedAt)
  }

  function Within(tenant: Option<string>, observedAt: int): Kind {
    (e: Receipt) => Counted(tenant, observedAt)(e) && e.acceptedAt.Some? && 0 <= e.acceptedAt.value - e.receivedAt <= MATURITY
  }

  function Late(tenant: Option<string>, observedAt: int): Kind {
    (e: Receipt) => Counted(tenant, observedAt)(e) && e.acceptedAt.Some? && e.acceptedAt.value - e.receivedAt > MATURITY
  }

  function NotAccepted(tenant: Option<string>, observedAt: int): Kind {
    (e: Receipt) => Counted(tenant, observedAt)(e) && e.acceptedAt.None?
  }

  function InvalidClock(tenant: Option<string>, observedAt: int): Kind {
    (e: Receipt) => Counted(tenant, observedAt)(e) && e.acceptedAt.Some? && e.acceptedAt.value - e.receivedAt < 0
  }

  function RawOf(from: int, until: int, kind: Kind): Kind {
    (e: Receipt) => InWindow(e, from, until) && kind(e)
  }

  function DuplicateOf(t: seq<Receipt>, from: int, until: int, kind: Kind): Kind {
    (e: Receipt) => InWindow(e, from, until) && DuplicateOrder(t, e, from, until) > 1 && kind(e)
  }

  function UniqueOf(t: seq<Receipt>, from: int, until: int, kind: Kind): Kind {
    (e: Receipt) => Unique(t, e, from, until) && kind(e)
  }

  /** The row of the query for one tenant, or for the receipts that no tenant can be given. */
  function Group(t: seq<Receipt>, from: int, until: int, observedAt: int, tenant: Option<string>): Columns {
    Columns(
      Count(t, RawOf(from, until, OfTenant(tenant))),
      Count(t, DuplicateOf(t, from, until, OfTenant(tenant))),
      Count(t, UniqueOf(t, from, until, OfTenant(tenant))),
      Count(t, UniqueOf(t, from, until, Pending(tenant, observedAt))),
      Count(t, UniqueOf(t, from, until, Counted(tenant, observedAt))),
      Count(t, UniqueOf(t, from, until, Within(tenant, observedAt))),
      Count(t, UniqueOf(t, from, until, Late(tenant, observedAt))),
      Count(t, UniqueOf(t, from, until, NotAccepted(tenant, observedAt))),
      Count(t, UniqueOf(t, from, until, InvalidClock(tenant, observedAt))))
  }

  lemma {:induction false} CountAdds(s: seq<Receipt>, p: Receipt -> bool, q: Receipt -> bool, r: Receipt -> bool)
    requires forall e :: e in s ==> (p(e) <==> q(e) || r(e)) && !(q(e) && r(e))
    ensures Count(s, p) == Count(s, q) + Count(s, r)
  {
    if s != [] {
      CountAdds(s[1..], p, q, r);
    }
  }

  lemma RawIsDuplicateOrUnique(t: seq<Receipt>, from: int, until: int, kind: Kind)
    ensures Count(t, RawOf(from, until, kind)) == Count(t, DuplicateOf(t, from, until, kind)) + Count(t, UniqueOf(t, from, until, kind))
  {
    CountAdds(t, RawOf(from, until, kind), DuplicateOf(t, from, until, kind), UniqueOf(t, from, until, kind));
  }

  /** Every receipt falls into exactly one bucket at every level of the report. */
  lemma BucketsAddUp(t: seq<Receipt>, from: int, until: int, observedAt: int, tenant: Option<string>)
    ensures var g := Group(t, from, until, observedAt, tenant);
            && g.raw == g.duplicates + g.unique
            && g.unique == g.pending + g.denominator
            && g.denominator == g.within + g.late + g.noAcceptance + g.invalidClock
  {
    var all := OfTenant(tenant);
    RawIsDuplicateOrUnique(t, from, until, all);
    CountAdds(t, UniqueOf(t, from, until, all), UniqueOf(t, from, until, Pending(tenant, observedAt)),
              UniqueOf(t, from, until, Counted(tenant, observedAt)));
    var within, late := UniqueOf(t, from, until, Within(tenant, observedAt)), UniqueOf(t, from, until, Late(tenant, observedAt));
    var none, invalid := UniqueOf(t, from, until, NotAccepted(tenant, observedAt)),
                         UniqueOf(t, from, until, InvalidClock(tenant, observedAt));
    var clocked, unclocked := (e: Receipt) => within(e) || late(e), (e: Receipt) => none(e) || invalid(e);
    CountAdds(t, UniqueOf(t, from, until, Counted(tenant, observedAt)), clocked, unclocked);
    CountAdds(t, clocked, within, late);
    CountAdds(t, unclocked, none, invalid);
  }

  // ---- adjacent windows ---------------------------------------------------------------------------

  lemma {:induction false} CountIsZero(s: seq<Receipt>, p: Receipt -> bool)
    ensures Count(s, p) == 0 <==> forall e :: e in s ==> !p(e)
  {
    if s != [] {
      CountIsZero(s[1..], p);
    }
  }

  /** Number one in its window: nothing of the same partition precedes it there, and nothing that
      the `EXISTS` can see came before the window. */
  lemma UniqueMeans(t: seq<Receipt>, e: Receipt, from: int, until: int)
    ensures Unique(t, e, from, until) <==>
              && InWindow(e, from, until) && !SeenBefore(t, e, from)
              && forall f :: f in t && InWindow(f, from, until) && Partition(f) == Partition(e) ==> !Before(f, e)
  {
    CountIsZero(t, f => InWindow(f, from, until) && Partition(f) == Partition(e) && Before(f, e));
  }

  /** A receipt of the second window that is counted again although its partition already has a
      receipt in the first window. */
  predicate CountedAgain(t: seq<Receipt>, e: Receipt, a: int, b: int, c: int) {
    Unique(t, e, b, c) && exists f :: f in t && InWindow(f, a, b) && Partition(f) == Partition(e)
  }

  /** Unique in the joined window: unique in the first, or unique in the second and not counted again. */
  lemma UniqueInJoined(t: seq<Receipt>, e: Receipt, a: int, b: int, c: int)
    requires a <= b <= c
    ensures Unique(t, e, a, c) <==> Unique(t, e, a, b) || (Unique(t, e, b, c) && !CountedAgain(t, e, a, b, c))
  {
    UniqueMeans(t, e, a, c);
    UniqueMeans(t, e, a, b);
    UniqueMeans(t, e, b, c);
    if InWindow(e, b, c) {
      forall f | HasMessageId(e) && f in t && InScope(f) && f.receivedAt < b
                 && f.provider == e.provider && f.account == e.account && f.messageId == e.messageId
        ensures Partition(f) == Partition(e) && Before(f, e) && (f.receivedAt < a || InWindow(f, a, c))
      {
      }
      forall f | f in t && InWindow(f, a, b) && Partition(f) == Partition(e)
        ensures Before(f, e) && InWindow(f, a, c)
      {
      }
      assert SeenBefore(t, e, a) ==> SeenBefore(t, e, b);
    }
  }

  function AgainOf(t: seq<Receipt>, a: int, b: int, c: int, kind: Kind): Kind {
    (e: Receipt) => CountedAgain(t, e, a, b, c) && kind(e)
  }

  /** Splitting a window changes the number of unique receipts, of any kind, by exactly the receipts
      that are counted again. */
  lemma SplittingWindows(t: seq<Receipt>, a: int, b: int, c: int, kind: Kind)
    requires a <= b <= c
    ensures Count(t, UniqueOf(t, a, b, kind)) + Count(t, UniqueOf(t, b, c, kind))
            == Count(t, UniqueOf(t, a, c, kind)) + Count(t, AgainOf(t, a, b, c, kind))
    ensures Count(t, RawOf(a, b, kind)) + Count(t, RawOf(b, c, kind)) == Count(t, RawOf(a, c, kind))
  {
    var firstSeen := (e: Receipt) => Unique(t, e, b, c) && !CountedAgain(t, e, a, b, c) && kind(e);
    forall e ensures Unique(t, e, a, c) <==> Unique(t, e, a, b) || (Unique(t, e, b, c) && !CountedAgain(t, e, a, b, c)) {
      UniqueInJoined(t, e, a, b, c);
    }
    CountAdds(t, UniqueOf(t, a, c, kind), UniqueOf(t, a, b, kind), firstSeen);
    CountAdds(t, UniqueOf(t, b, c, kind), AgainOf(t, a, b, c, kind), firstSeen);
    CountAdds(t, RawOf(a, c, kind), RawOf(a, b, kind), RawOf(b, c, kind));
  }

  /** The unique counts of adjacent windows add up exactly when no receipt is counted again. */
  lemma WindowsAddUpIff(t: seq<Receipt>, a: int, b: int, c: int, kind: Kind)
    requires a <= b <= c
    ensures Count(t, UniqueOf(t, a, c, kind)) == Count(t, UniqueOf(t, a, b, kind)) + Count(t, UniqueOf(t, b, c, kind))
            <==> forall e :: e in t && kind(e) ==> !CountedAgain(t, e, a, b, c)
  {
    SplittingWindows(t, a, b, c, kind);
    CountIsZero(t, AgainOf(t, a, b, c, kind));
  }

  /** No receipt has the id of another as its message id. */
  ghost predicate NoIdClash(t: seq<Receipt>) {
    forall e, f :: e in t && f in t && HasMessageId(e) ==> e.messageId.value != f.idText
  }

  lemma NothingCountedAgain(t: seq<Receipt>, e: Receipt, a: int, b: int, c: int)
    requires DistinctIds(t) && NoIdClash(t) && e in t
    ensures !CountedAgain(t, e, a, b, c)
  {
  }

  /** Receipts of earlier windows are discounted: the counts of adjacent windows add up, for receipts
      of any kind and so for every column of the report. */
  lemma KindAddsUp(t: seq<Receipt>, a: int, b: int, c: int, kind: Kind)
    requires a <= b <= c && DistinctIds(t) && NoIdClash(t)
    ensures Count(t, UniqueOf(t, a, c, kind)) == Count(t, UniqueOf(t, a, b, kind)) + Count(t, UniqueOf(t, b, c, kind))
    ensures Count(t, RawOf(a, c, kind)) == Count(t, RawOf(a, b, kind)) + Count(t, RawOf(b, c, kind))
    ensures Count(t, DuplicateOf(t, a, c, kind)) == Count(t, DuplicateOf(t, a, b, kind)) + Count(t, DuplicateOf(t, b, c, kind))
  {
    forall e | e in t ensures !CountedAgain(t, e, a, b, c) {
      NothingCountedAgain(t, e, a, b, c);
    }
    WindowsAddUpIff(t, a, b, c, kind);
    SplittingWindows(t, a, b, c, kind);
    RawIsDuplicateOrUnique(t, a, c, kind);
    RawIsDuplicateOrUnique(t, a, b, kind);
    RawIsDuplicateOrUnique(t, b, c, kind);
  }

  /** The same for the reported columns. */
  lemma WindowsAddUp(t: seq<Receipt>, a: int, b: int, c: int, observedAt: int, tenant: Option<string>)
    requires a <= b <= c && DistinctIds(t) && NoIdClash(t)
    ensures var g, g1, g2 := Group(t, a, c, observedAt, tenant), Group(t, a, b, observedAt, tenant),
                             Group(t, b, c, observedAt, tenant);
            && g.raw == g1.raw + g2.raw && g.duplicates == g1.duplicates + g2.duplicates
            && g.unique == g1.unique + g2.unique && g.denominator == g1.denominator + g2.denominator
  {
    KindAddsUp(t, a, b, c, OfTenant(tenant));
    KindAddsUp(t, a, b, c, Counted(tenant, observedAt));
  }

  /** A message id equal to the id of an earlier receipt without message id: the partition joins the
      two inside one window, but across windows the second is counted again. */
  lemma ClashIsCountedAgain()
    ensures exists t: seq<Receipt>, a: int, b: int, c: int, kind: Kind :: a <= b <= c && DistinctIds(t)
              && Count(t, UniqueOf(t, a, c, kind)) != Count(t, UniqueOf(t, a, b, kind)) + Count(t, UniqueOf(t, b, c, kind))
  {
    var e := Receipt("x", 0, "meta", "account", PREFIX, None, 0, 0, None, None);
    var f := Receipt("y", 1, "meta", "account", PREFIX, Some("x"), 10, 1, None, None);
    var t, kind := [e, f], OfTenant(None);
    UniqueMeans(t, f, 5, 20);
    assert InWindow(e, 0, 5) && Partition(e) == Partition(f) && e in t;
    assert CountedAgain(t, f, 0, 5, 20) && f in t && kind(f);
    WindowsAddUpIff(t, 0, 5, 20, kind);
  }

  // ---- what the columns count -----------------------------------------------------------------------

  /** A received message, by provider and type of event. */
  predicate IsMessage(e: Receipt) {
    e.provider == "meta" && "whatsapp.message." <= e.eventType && e.eventType != "whatsapp.message.status"
  }

  /** The id by which a receipt is told from others: the message's where it has one, and else its own. */
  predicate Named(e: Receipt, id: string) {
    if e.messageId == None || e.messageId == Some("") then e.idText == id else e.messageId == Some(id)
  }

  /** The same id on the same account. */
  ghost predicate Repeats(e: Receipt, f: Receipt) {
    e.provider == f.provider && e.account == f.account && exists id :: Named(e, id) && Named(f, id)
  }

  predicate Precedes(f: Receipt, e: Receipt) {
    if f.receivedAt != e.receivedAt then f.receivedAt < e.receivedAt
    else if f.sequence != e.sequence then f.sequence < e.sequence
    else f.idOrder < e.idOrder
  }

  /** The receipt is counted once and not before: a message of the window that repeats no message before it in the
      window, and whose message id no message had before the window. */
  ghost predicate IsFirst(t: seq<Receipt>, e: Receipt, from: int, until: int) {
    && IsMessage(e) && from <= e.receivedAt < until
    && (forall f :: f in t && IsMessage(f) && from <= f.receivedAt < until && Repeats(e, f) ==> !Precedes(f, e))
    && (e.messageId != None && e.messageId != Some("") ==>
         forall f :: f in t && IsMessage(f) && f.receivedAt < from && f.account == e.account ==> f.messageId != e.messageId)
  }

  lemma RepeatsIff(e: Receipt, f: Receipt)
    ensures Repeats(e, f) <==> Partition(f) == Partition(e)
  {
    var id := if e.messageId == None || e.messageId == Some("") then e.idText else e.messageId.value;
    assert Named(e, id);
  }

  lemma FirstIff(t: seq<Receipt>, e: Receipt, from: int, until: int)
    ensures Unique(t, e, from, until) <==> IsFirst(t, e, from, until)
  {
    UniqueMeans(t, e, from, until);
    forall f ensures (Repeats(e, f) <==> Partition(f) == Partition(e)) && (Precedes(f, e) <==> Before(f, e)) {
      RepeatsIff(e, f);
    }
  }

  /** The places of a table where the property holds. */
  function Places(s: seq<Receipt>, p: Receipt -> bool): set<nat> {
    set i | 0 <= i < |s| && p(s[i])
  }

  lemma {:induction false} CountAtEnd(s: seq<Receipt>, p: Receipt -> bool)
    requires s != []
    ensures Count(s, p) == Count(s[..|s| - 1], p) + (if p(s[|s| - 1]) then 1 else 0)
    decreases |s|
  {
    if |s| > 1 {
      CountAtEnd(s[1..], p);
      assert s[1..][..|s| - 2] == s[..|s| - 1][1..];
    }
  }

  lemma {:induction false} CountIsCardinality(s: seq<Receipt>, p: Receipt -> bool)
    ensures Count(s, p) == |Places(s, p)|
    decreases |s|
  {
    if s == [] {
      assert Places(s, p) == {};
    } else {
      var n := |s| - 1;
      CountAtEnd(s, p);
      CountIsCardinality(s[..n], p);
      assert Places(s, p) == Places(s[..n], p) + if p(s[n]) then {n} else {};
    }
  }

  lemma CountsPlaces(s: seq<Receipt>, p: Receipt -> bool, places: set<nat>)
    requires forall i :: i in places <==> 0 <= i < |s| && p(s[i])
    ensures Count(s, p) == |places|
  {
    CountIsCardinality(s, p);
    assert Places(s, p) == places;
  }

  /** The receipts of the window, the repeated ones among them and the first ones. */
  lemma ReceiptColumns(t: seq<Receipt>, from: int, until: int, observedAt: int, tenant: Option<string>,
                       received: set<nat>, first: set<nat>)
    requires forall i :: i in received <==>
               0 <= i < |t| && IsMessage(t[i]) && from <= t[i].receivedAt < until && t[i].scopedTenant == tenant
    requires forall i :: i in first <==> 0 <= i < |t| && IsFirst(t, t[i], from, until) && t[i].scopedTenant == tenant
    ensures var g := Group(t, from, until, observedAt, tenant);
            g.raw == |received| && g.unique == |first| && g.duplicates == |received| - |first|
  {
    forall e ensures Unique(t, e, from, until) <==> IsFirst(t, e, from, until) { FirstIff(t, e, from, until); }
    CountsPlaces(t, RawOf(from, until, OfTenant(tenant)), received);
    CountsPlaces(t, UniqueOf(t, from, until, OfTenant(tenant)), first);
    RawIsDuplicateOrUnique(t, from, until, OfTenant(tenant));
  }

  /** What became of a receipt by the time of observation. */
  datatype Verdict = TooYoung | InTime | TooLate | NoAcceptance | BeforeReceipt

  function VerdictOf(e: Receipt, observedAt: int): Verdict {
    if observedAt - e.receivedAt < 120_000_000 then TooYoung
    else
      match e.acceptedAt
      case None => NoAcceptance
      case Some(at) =>
        if at < e.receivedAt then BeforeReceipt else if at <= e.receivedAt + 120_000_000 then InTime else TooLate
  }

  function VerdictColumn(g: Columns, verdict: Verdict): nat {
    match verdict
    case TooYoung => g.pending
    case InTime => g.within
    case TooLate => g.late
    case NoAcceptance => g.noAcceptance
    case BeforeReceipt => g.invalidClock
  }

  lemma KindIff(e: Receipt, observedAt: int, tenant: Option<string>)
    ensures var verdict := VerdictOf(e, observedAt);
            && (Pending(tenant, observedAt)(e) <==> e.scopedTenant == tenant && verdict == TooYoung)
            && (Within(tenant, observedAt)(e) <==> e.scopedTenant == tenant && verdict == InTime)
            && (Late(tenant, observedAt)(e) <==> e.scopedTenant == tenant && verdict == TooLate)
            && (NotAccepted(tenant, observedAt)(e) <==> e.scopedTenant == tenant && verdict == NoAcceptance)
            && (InvalidClock(tenant, observedAt)(e) <==> e.scopedTenant == tenant && verdict == BeforeReceipt)
  {
    assert Counted(tenant, observedAt)(e) <==> e.scopedTenant == tenant && Mature(e, observedAt);
  }

  /** The column of a verdict counts the first receipts of the tenant that have it; two minutes are in time. */
  lemma VerdictColumns(t: seq<Receipt>, from: int, until: int, observedAt: int, tenant: Option<string>,
                       verdict: Verdict, places: set<nat>)
    requires forall i :: i in places <==>
               0 <= i < |t| && IsFirst(t, t[i], from, until) && t[i].scopedTenant == tenant && VerdictOf(t[i], observedAt) == verdict
    ensures VerdictColumn(Group(t, from, until, observedAt, tenant), verdict) == |places|
  {
    forall e ensures Unique(t, e, from, until) <==> IsFirst(t, e, from, until) { FirstIff(t, e, from, until); }
    forall i | 0 <= i < |t|
      ensures && (Pending(tenant, observedAt)(t[i]) <==> t[i].scopedTenant == tenant && VerdictOf(t[i], observedAt) == TooYoung)
              && (Within(tenant, observedAt)(t[i]) <==> t[i].scopedTenant == tenant && VerdictOf(t[i], observedAt) == InTime)
              && (Late(tenant, observedAt)(t[i]) <==> t[i].scopedTenant == tenant && VerdictOf(t[i], observedAt) == TooLate)
              && (NotAccepted(tenant, observedAt)(t[i]) <==> t[i].scopedTenant == tenant && VerdictOf(t[i], observedAt) == NoAcceptance)
              && (InvalidClock(tenant, observedAt)(t[i]) <==> t[i].scopedTenant == tenant && VerdictOf(t[i], observedAt) == BeforeReceipt)
    {
      KindIff(t[i], observedAt, tenant);
    }
    match verdict
    case TooYoung => CountsPlaces(t, UniqueOf(t, from, until, Pending(tenant, observedAt)), places);
    case InTime => CountsPlaces(t, UniqueOf(t, from, until, Within(tenant, observedAt)), places);
    case TooLate => CountsPlaces(t, UniqueOf(t, from, until, Late(tenant, observedAt)), places);
    case NoAcceptance => CountsPlaces(t, UniqueOf(t, from, until, NotAccepted(tenant, observedAt)), places);
    case BeforeReceipt => CountsPlaces(t, UniqueOf(t, from, until, InvalidClock(tenant, observedAt)), places);
  }
}
