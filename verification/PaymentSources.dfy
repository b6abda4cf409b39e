/** Connection of a card for one tenant: billing.record_stripe_payment_source, which the provider may
    call late, repeatedly and out of order. */
module PaymentSources {
  import opened Common

  datatype Status = Pending | Succeeded | Superseded

  datatype Request = Request(createdAt: int, session: Option<string>, customer: string, status: Status, intent: Option<string>)

  datatype Card = Card(paymentMethod: string, brand: string, last4: string, month: int, year: int)

  datatype Profile = Profile(customer: string, card: Option<Card>)

  /** The tenant's profile and setup requests by id. */
  datatype Sources = Sources(profile: Option<Profile>, requests: map<int, Request>)

  datatype Delivery = Delivery(request: int, session: string, customer: string,
                               intent: Option<string>, paymentMethod: Option<string>, brand: Option<string>,
                               last4: Option<string>, month: Option<int>, year: Option<int>)

  datatype Outcome = Returned(value: bool) | Raised

  // ---- payloads -----------------------------------------------------------------------------------

  predicate Alphanumeric(c: char) { 'A' <= c <= 'Z' || 'a' <= c <= 'z' || Digit(c) }

  predicate Identifier(prefix: string, text: string) {
    prefix < text && forall i :: |prefix| <= i < |text| ==> Alphanumeric(text[i])
  }

  function Lower(text: string): string {
    seq(|text|, i requires 0 <= i < |text| =>
      if 'A' <= text[i] <= 'Z' then text[i] - 'A' + 'a' else text[i])
  }

  predicate ValidPayload(d: Delivery) {
    && d.intent.Some? && d.paymentMethod.Some? && d.brand.Some? && d.last4.Some? && d.month.Some? && d.year.Some?
    && Identifier("seti_", d.intent.value)
    && Identifier("pm_", d.paymentMethod.value)
    && 1 <= |Trim(d.brand.value)| <= 32
    && |d.last4.value| == 4 && (forall i :: 0 <= i < 4 ==> Digit(d.last4.value[i]))
    && 1 <= d.month.value <= 12 && 2020 <= d.year.value <= 2200
  }

  function CardOf(d: Delivery): Card
    requires ValidPayload(d)
  {
    Card(d.paymentMethod.value, Lower(Trim(d.brand.value)), d.last4.value, d.month.value, d.year.value)
  }

  // ---- record_stripe_payment_source ---------------------------------------------------------------

  /** `(created_at, id)` of request a is greater than that of b. */
  predicate Newer(requests: map<int, Request>, a: int, b: int)
    requires a in requests && b in requests
  {
    requests[a].createdAt > requests[b].createdAt || (requests[a].createdAt == requests[b].createdAt && a > b)
  }

  predicate Outdated(requests: map<int, Request>, id: int)
    requires id in requests
  {
    exists k :: k in requests && requests[k].status == Succeeded && Newer(requests, k, id)
  }

  predicate IntentTaken(requests: map<int, Request>, id: int, intent: string) {
    exists k :: k in requests && k != id && requests[k].intent == Some(intent)
  }

  /** The delivery names a stored request with its session and customer and the payload is valid. */
  predicate Accepts(s: Sources, d: Delivery) {
    && ValidPayload(d)
    && s.profile.Some? && s.profile.value.customer == d.customer
    && d.request in s.requests
    && s.requests[d.request].session == Some(d.session) && s.requests[d.request].customer == d.customer
  }

  function Close(s: Sources, d: Delivery, status: Status): Sources
    requires Accepts(s, d)
  {
    s.(requests := s.requests[d.request := s.requests[d.request].(status := status, intent := d.intent)])
  }

  function Recorded(s: Sources, d: Delivery): (Sources, Outcome) {
    if !Accepts(s, d) then (s, Returned(false))
    else if s.requests[d.request].status != Pending then (s, Returned(s.requests[d.request].intent == d.intent))
    else if IntentTaken(s.requests, d.request, d.intent.value) then (s, Raised)
    else if Outdated(s.requests, d.request) then (Close(s, d, Superseded), Returned(true))
    else (Close(s, d, Succeeded).(profile := Some(s.profile.value.(card := Some(CardOf(d))))), Returned(true))
  }

  class PaymentSource {
    var profile: Option<Profile>
    var requests: map<int, Request>

    ghost function State(): Sources
      reads this
    {
      Sources(profile, requests)
    }

    method Record(d: Delivery) returns (outcome: Outcome)
      modifies this
      ensures (State(), outcome) == Recorded(old(State()), d)
    {
      if !ValidPayload(d) {
        return Returned(false);
      }
      if profile == None || profile.value.customer != d.customer {
        return Returned(false);
      }
      if d.request !in requests || requests[d.request].session != Some(d.session)
         || requests[d.request].customer != d.customer
      {
        return Returned(false);
      }
      var request := requests[d.request];
      if request.status == Succeeded || request.status == Superseded {
        return Returned(request.intent == d.intent);
      }
      if Outdated(requests, d.request) {
        if IntentTaken(requests, d.request, d.intent.value) {
          return Raised;
        }
        requests := requests[d.request := request.(status := Superseded, intent := d.intent)];
        return Returned(true);
      }
      var saved := profile;
      profile := Some(profile.value.(card := Some(CardOf(d))));
      if IntentTaken(requests, d.request, d.intent.value) {
        profile := saved;
        return Raised;
      }
      requests := requests[d.request := request.(status := Succeeded, intent := d.intent)];
      outcome := Returned(true);
    }
  }

  // ---- what one delivery does -----------------------------------------------------------------------

  predicate LettersAndDigits(text: string) {
    forall i :: 0 <= i < |text| ==> '0' <= text[i] <= '9' || 'A' <= text[i] <= 'Z' || 'a' <= text[i] <= 'z'
  }

  /** A setup intent, a payment method and a card that can be shown. */
  predicate WellFormed(d: Delivery) {
    && d.intent.Some? && |d.intent.value| > 5 && d.intent.value[..5] == "seti_" && LettersAndDigits(d.intent.value[5..])
    && d.paymentMethod.Some? && |d.paymentMethod.value| > 3 && d.paymentMethod.value[..3] == "pm_"
    && LettersAndDigits(d.paymentMethod.value[3..])
    && d.brand.Some? && Trim(d.brand.value) != [] && |Trim(d.brand.value)| <= 32
    && d.last4.Some? && |d.last4.value| == 4 && (forall i :: 0 <= i < 4 ==> '0' <= d.last4.value[i] <= '9')
    && d.month.Some? && d.month.value in {1, 2, 3, 4, 5, 6, 7, 8, 9, 10, 11, 12}
    && d.year.Some? && 2020 <= d.year.value && d.year.value <= 2200
  }

  lemma IdentifierIff(prefix: string, text: string)
    ensures Identifier(prefix, text) <==>
            |text| > |prefix| && text[..|prefix|] == prefix && LettersAndDigits(text[|prefix|..])
  {
    if |text| > |prefix| && text[..|prefix|] == prefix {
      assert forall i :: |prefix| <= i < |text| ==> text[i] == text[|prefix|..][i - |prefix|];
      assert forall i :: 0 <= i < |text| - |prefix| ==> text[|prefix|..][i] == text[i + |prefix|];
    }
  }

  lemma WellFormedIff(d: Delivery)
    ensures ValidPayload(d) <==> WellFormed(d)
  {
    if d.intent.Some? { IdentifierIff("seti_", d.intent.value); }
    if d.paymentMethod.Some? { IdentifierIff("pm_", d.paymentMethod.value); }
  }

  /** The delivery names a stored request of the tenant's customer and its session. */
  predicate Concerns(s: Sources, d: Delivery) {
    && s.profile.Some? && s.profile.value.customer == d.customer && d.request in s.requests
    && s.requests[d.request].customer == d.customer && s.requests[d.request].session == Some(d.session)
  }

  predicate UsedElsewhere(s: Sources, d: Delivery) {
    d.intent.Some? && exists k :: k in s.requests && k != d.request && s.requests[k].intent == d.intent
  }

  /** A request that was created later, or at the same time with a greater id, succeeded before. */
  predicate Overtaken(s: Sources, d: Delivery)
    requires d.request in s.requests
  {
    exists k :: k in s.requests && s.requests[k].status == Succeeded
                && if s.requests[k].createdAt == s.requests[d.request].createdAt then k > d.request
                   else s.requests[k].createdAt > s.requests[d.request].createdAt
  }

  predicate Applies(s: Sources, d: Delivery) {
    WellFormed(d) && Concerns(s, d) && s.requests[d.request].status == Pending
  }

  /** The answer: true for the first use of an intent on its pending request and for a repetition of it, an error
      for an intent that another request has, and else false. */
  lemma AnswerIff(s: Sources, d: Delivery)
    ensures var answer := Recorded(s, d).1;
            && (answer == Raised <==> Applies(s, d) && UsedElsewhere(s, d))
            && (answer == Returned(true) <==>
                 || (Applies(s, d) && !UsedElsewhere(s, d))
                 || (WellFormed(d) && Concerns(s, d) && s.requests[d.request].status != Pending
                     && s.requests[d.request].intent == d.intent))
  {
    WellFormedIff(d);
  }

  predicate InLowerCase(low: string, text: string) {
    |low| == |text| && forall i :: 0 <= i < |text| ==>
      low[i] as int == if 'A' <= text[i] <= 'Z' then text[i] as int + 32 else text[i] as int
  }

  /** The card shows the parts of the payload, the brand trimmed and in lower case. */
  predicate Shows(card: Card, d: Delivery) {
    && d.paymentMethod == Some(card.paymentMethod) && d.last4 == Some(card.last4)
    && d.month == Some(card.month) && d.year == Some(card.year)
    && d.brand.Some? && InLowerCase(card.brand, Trim(d.brand.value))
  }

  /** The rows after a delivery: the pending request has the intent and has succeeded, and the profile the card of
      the payload; a request that was overtaken is superseded and leaves the profile.  Nothing else changes. */
  lemma DeliveryEffect(s: Sources, d: Delivery)
    ensures var after := Recorded(s, d).0;
            if Applies(s, d) && !UsedElsewhere(s, d) then
              var row := s.requests[d.request];
              && after.requests == s.requests[d.request :=
                   Request(row.createdAt, row.session, row.customer, if Overtaken(s, d) then Superseded else Succeeded, d.intent)]
              && if Overtaken(s, d) then after.profile == s.profile
                 else after.profile.Some? && after.profile.value.customer == s.profile.value.customer
                      && after.profile.value.card.Some? && Shows(after.profile.value.card.value, d)
            else after == s
  {
    WellFormedIff(d);
    if Applies(s, d) {
      OvertakenIff(s, d);
    }
  }

  lemma OvertakenIff(s: Sources, d: Delivery)
    requires d.request in s.requests
    ensures Overtaken(s, d) <==> Outdated(s.requests, d.request)
  {
  }

  // ---- runs of deliveries ---------------------------------------------------------------------------

  function Run(s: Sources, deliveries: seq<Delivery>): Sources
    decreases |deliveries|
  {
    if deliveries == [] then s else Recorded(Run(s, deliveries[..|deliveries| - 1]), deliveries[|deliveries| - 1]).0
  }

  predicate Fresh(s: Sources) {
    forall id :: id in s.requests ==> s.requests[id].status == Pending && s.requests[id].intent == None
  }

  // ---- what lands -----------------------------------------------------------------------------------

  predicate Clash(a: Delivery, b: Delivery) {
    a.request == b.request || a.intent == b.intent
  }

  predicate Clashes(landed: seq<Delivery>, d: Delivery) {
    exists k :: 0 <= k < |landed| && Clash(landed[k], d)
  }

  /** The accepted deliveries whose request and setup intent nothing has landed with before. */
  function Landed(s: Sources, deliveries: seq<Delivery>): (r: seq<Delivery>)
    ensures forall k :: 0 <= k < |r| ==> Accepts(s, r[k]) && r[k] in deliveries
    decreases |deliveries|
  {
    if deliveries == [] then []
    else
      var last := deliveries[|deliveries| - 1];
      var before := Landed(s, deliveries[..|deliveries| - 1]);
      if Accepts(s, last) && !Clashes(before, last) then before + [last] else before
  }

  /** The accepted delivery of the greatest request. */
  function Greatest(s: Sources, deliveries: seq<Delivery>): (r: Option<Delivery>)
    ensures r.Some? ==> Accepts(s, r.value) && r.value in deliveries
    decreases |deliveries|
  {
    if deliveries == [] then None
    else
      var last := deliveries[|deliveries| - 1];
      var before := Greatest(s, deliveries[..|deliveries| - 1]);
      if Accepts(s, last) && (before == None || Newer(s.requests, last.request, before.value.request)) then Some(last)
      else before
  }

  lemma {:induction false} GreatestIsGreatest(s: Sources, deliveries: seq<Delivery>, d: Delivery)
    requires d in deliveries && Accepts(s, d)
    ensures var g := Greatest(s, deliveries);
            g.Some? && !Newer(s.requests, d.request, g.value.request)
    decreases |deliveries|
  {
    var n := |deliveries| - 1;
    if d in deliveries[..n] {
      GreatestIsGreatest(s, deliveries[..n], d);
    } else {
      assert d == deliveries[n];
    }
  }

  /** What stays fixed while requests are closed. */
  predicate SameRequests(s: Sources, t: Sources) {
    && s.requests.Keys == t.requests.Keys
    && (forall id :: id in s.requests ==>
         && t.requests[id].createdAt == s.requests[id].createdAt
         && t.requests[id].session == s.requests[id].session
         && t.requests[id].customer == s.requests[id].customer)
    && s.profile.Some? == t.profile.Some?
    && (s.profile.Some? ==> s.profile.value.customer == t.profile.value.customer)
  }

  /** The closed requests are those of the landed deliveries, with their intents. */
  predicate ClosedBy(landed: seq<Delivery>, t: Sources) {
    && (forall k :: 0 <= k < |landed| ==>
         && landed[k].request in t.requests && t.requests[landed[k].request].status != Pending
         && t.requests[landed[k].request].intent == landed[k].intent)
    && forall id :: id in t.requests ==>
         if t.requests[id].status == Pending then t.requests[id].intent == None
         else exists k :: 0 <= k < |landed| && landed[k].request == id
  }

  /** The stored card is the greatest landed request's, and that request alone bounds the succeeded ones. */
  predicate HoldsGreatest(s: Sources, landed: seq<Delivery>, t: Sources)
    requires SameRequests(s, t)
  {
    match Greatest(s, landed)
    case None => t.profile == s.profile && forall id :: id in t.requests ==> t.requests[id].status != Succeeded
    case Some(g) =>
      && t.profile.Some? && t.profile.value.card == Some(CardOf(g))
      && t.requests[g.request].status == Succeeded
      && forall id :: id in t.requests && t.requests[id].status == Succeeded ==> !Newer(t.requests, id, g.request)
  }

  predicate Follows(s: Sources, landed: seq<Delivery>, t: Sources) {
    SameRequests(s, t) && ClosedBy(landed, t) && HoldsGreatest(s, landed, t)
  }

  lemma SameAccepts(s: Sources, t: Sources, d: Delivery)
    requires SameRequests(s, t)
    ensures Accepts(s, d) <==> Accepts(t, d)
  {
  }

  /** A delivery is stored exactly when nothing landed clashes with it. */
  lemma StoredIff(s: Sources, landed: seq<Delivery>, t: Sources, d: Delivery)
    requires SameRequests(s, t) && ClosedBy(landed, t) && Accepts(s, d)
    ensures Clashes(landed, d) <==>
            t.requests[d.request].status != Pending || IntentTaken(t.requests, d.request, d.intent.value)
  {
    if k :| 0 <= k < |landed| && Clash(landed[k], d) {
      assert landed[k].request != d.request ==> t.requests[landed[k].request].intent == Some(d.intent.value);
    }
    if t.requests[d.request].status != Pending {
      var k :| 0 <= k < |landed| && landed[k].request == d.request;
      assert Clash(landed[k], d);
    }
    if id :| id in t.requests && id != d.request && t.requests[id].intent == Some(d.intent.value) {
      var k :| 0 <= k < |landed| && landed[k].request == id;
      assert Clash(landed[k], d);
    }
  }

  lemma GreatestAfter(s: Sources, landed: seq<Delivery>, d: Delivery)
    ensures var before := Greatest(s, landed);
            Greatest(s, landed + [d])
              == if Accepts(s, d) && (before == None || Newer(s.requests, d.request, before.value.request)) then Some(d) else before
  {
  }

  lemma LandingCloses(landed: seq<Delivery>, t: Sources, d: Delivery, u: Sources)
    requires ClosedBy(landed, t) && !Clashes(landed, d)
    requires d.request in t.requests && u.requests.Keys == t.requests.Keys
    requires forall id :: id in t.requests && id != d.request ==> u.requests[id] == t.requests[id]
    requires u.requests[d.request].status != Pending && u.requests[d.request].intent == d.intent
    ensures ClosedBy(landed + [d], u)
  {
    var more := landed + [d];
    forall k | 0 <= k < |more|
      ensures more[k].request in u.requests && u.requests[more[k].request].status != Pending
              && u.requests[more[k].request].intent == more[k].intent
    {
      if k < |landed| { assert more[k] == landed[k] && !Clash(landed[k], d); }
    }
    forall id | id in u.requests && u.requests[id].status != Pending ensures exists k :: 0 <= k < |more| && more[k].request == id {
      if id == d.request {
        assert more[|landed|].request == id;
      } else {
        var k :| 0 <= k < |landed| && landed[k].request == id;
        assert more[k].request == id;
      }
    }
  }

  lemma LandingHolds(s: Sources, landed: seq<Delivery>, t: Sources, d: Delivery)
    requires SameRequests(s, t) && HoldsGreatest(s, landed, t)
    requires Accepts(s, d) && Accepts(t, d) && t.requests[d.request].status == Pending
    requires !IntentTaken(t.requests, d.request, d.intent.value)
    ensures SameRequests(s, Recorded(t, d).0) && HoldsGreatest(s, landed + [d], Recorded(t, d).0)
  {
    GreatestAfter(s, landed, d);
    var g := Greatest(s, landed);
    if g.Some? {
      assert Outdated(t.requests, d.request) <==> !Newer(t.requests, d.request, g.value.request);
    }
  }

  lemma StepFollows(s: Sources, landed: seq<Delivery>, t: Sources, d: Delivery)
    requires Follows(s, landed, t)
    ensures Follows(s, if Accepts(s, d) && !Clashes(landed, d) then landed + [d] else landed, Recorded(t, d).0)
  {
    SameAccepts(s, t, d);
    if Accepts(s, d) {
      StoredIff(s, landed, t, d);
      if !Clashes(landed, d) {
        LandingHolds(s, landed, t, d);
        LandingCloses(landed, t, d, Recorded(t, d).0);
      } else {
        assert Recorded(t, d).0 == t;
      }
    } else {
      assert Recorded(t, d).0 == t;
    }
  }

  lemma {:induction false} RunFollows(s: Sources, deliveries: seq<Delivery>)
    requires Fresh(s)
    ensures Follows(s, Landed(s, deliveries), Run(s, deliveries))
    decreases |deliveries|
  {
    if deliveries != [] {
      var n := |deliveries| - 1;
      RunFollows(s, deliveries[..n]);
      StepFollows(s, Landed(s, deliveries[..n]), Run(s, deliveries[..n]), deliveries[n]);
    }
  }

  function CardAfter(s: Sources, deliveries: seq<Delivery>): Option<Card> {
    var profile := Run(s, deliveries).profile;
    if profile.Some? then profile.value.card else None
  }

  /** Whatever is delivered, in whatever order and however often: the card is that of the greatest request
      among the deliveries that landed, and unchanged when none did. */
  lemma CardOfGreatestLanded(s: Sources, deliveries: seq<Delivery>)
    requires Fresh(s)
    ensures match Greatest(s, Landed(s, deliveries))
            case None => CardAfter(s, deliveries) == CardAfter(s, [])
            case Some(g) => CardAfter(s, deliveries) == Some(CardOf(g))
  {
    RunFollows(s, deliveries);
  }

  lemma ClashesMore(landed: seq<Delivery>, e: Delivery, d: Delivery)
    requires Clashes(landed, d) || Clash(e, d)
    ensures Clashes(landed + [e], d)
  {
    var more := landed + [e];
    if k :| 0 <= k < |landed| && Clash(landed[k], d) {
      assert Clash(more[k], d);
    } else {
      assert Clash(more[|landed|], d);
    }
  }

  /** Every accepted delivery lands or clashes with one that did. */
  lemma {:induction false} LandedCovers(s: Sources, deliveries: seq<Delivery>, d: Delivery)
    requires d in deliveries && Accepts(s, d)
    ensures Clashes(Landed(s, deliveries), d)
    decreases |deliveries|
  {
    var n := |deliveries| - 1;
    var before := Landed(s, deliveries[..n]);
    if d in deliveries[..n] {
      LandedCovers(s, deliveries[..n], d);
    } else {
      assert d == deliveries[n];
    }
    if Landed(s, deliveries) != before {
      ClashesMore(before, deliveries[n], d);
    }
  }

  // ---- when order matters -----------------------------------------------------------------------------

  /** One payload for each request. */
  predicate OnePayload(s: Sources, deliveries: seq<Delivery>) {
    forall a, b :: a in deliveries && b in deliveries && Accepts(s, a) && Accepts(s, b) && a.request == b.request ==> a == b
  }

  /** Besides, no setup intent is shared between requests. */
  predicate Coherent(s: Sources, deliveries: seq<Delivery>) {
    && OnePayload(s, deliveries)
    && forall a, b :: a in deliveries && b in deliveries && Accepts(s, a) && Accepts(s, b) && a.intent == b.intent ==> a == b
  }

  /** An accepted delivery such that every delivered intent is also delivered by a request not newer than its. */
  predicate Dominates(s: Sources, deliveries: seq<Delivery>, d: Delivery) {
    && d in deliveries && Accepts(s, d)
    && forall e {:trigger IntentBelow(s, deliveries, e, d)} :: e in deliveries && Accepts(s, e) ==> IntentBelow(s, deliveries, e, d)
  }

  predicate IntentBelow(s: Sources, deliveries: seq<Delivery>, e: Delivery, d: Delivery)
    requires Accepts(s, d)
  {
    exists f :: f in deliveries && Accepts(s, f) && f.intent == e.intent && !Newer(s.requests, f.request, d.request)
  }

  ghost predicate SameDeliveries(a: seq<Delivery>, b: seq<Delivery>) {
    forall d :: d in a <==> d in b
  }

  lemma GreatestLandedDominates(s: Sources, deliveries: seq<Delivery>, d: Delivery)
    requires OnePayload(s, deliveries) && d in deliveries && Accepts(s, d)
    ensures var g := Greatest(s, Landed(s, deliveries));
            g.Some? && Dominates(s, deliveries, g.value)
  {
    var landed := Landed(s, deliveries);
    forall e | e in deliveries && Accepts(s, e)
      ensures Greatest(s, landed).Some? && IntentBelow(s, deliveries, e, Greatest(s, landed).value)
    {
      LandedCovers(s, deliveries, e);
      var k :| 0 <= k < |landed| && Clash(landed[k], e);
      GreatestIsGreatest(s, landed, landed[k]);
    }
  }

  /** The deliveries that are not newer than d. */
  function Below(s: Sources, deliveries: seq<Delivery>, d: Delivery): (r: seq<Delivery>)
    requires Accepts(s, d)
    ensures forall f :: f in r <==> f in deliveries && Accepts(s, f) && !Newer(s.requests, f.request, d.request)
  {
    if deliveries == [] then []
    else
      var n := |deliveries| - 1;
      assert deliveries == deliveries[..n] + [deliveries[n]];
      if Accepts(s, deliveries[n]) && !Newer(s.requests, deliveries[n].request, d.request)
      then Below(s, deliveries[..n], d) + [deliveries[n]]
      else Below(s, deliveries[..n], d)
  }

  lemma {:induction false} FirstLands(s: Sources, d: Delivery, rest: seq<Delivery>)
    requires Accepts(s, d)
    ensures d in Landed(s, [d] + rest)
    decreases |rest|
  {
    if rest == [] {
      assert [d] + rest == [d] && [d][..0] == [];
    } else {
      assert ([d] + rest)[..|rest|] == [d] + rest[..|rest| - 1];
      FirstLands(s, d, rest[..|rest| - 1]);
    }
  }

  lemma {:induction false} NothingMoreLands(s: Sources, first: seq<Delivery>, rest: seq<Delivery>)
    requires forall e :: e in rest && Accepts(s, e) ==> Clashes(Landed(s, first), e)
    ensures Landed(s, first + rest) == Landed(s, first)
    decreases |rest|
  {
    if rest == [] {
      assert first + rest == first;
    } else {
      assert (first + rest)[..|first + rest| - 1] == first + rest[..|rest| - 1];
      NothingMoreLands(s, first, rest[..|rest| - 1]);
    }
  }

  lemma ClashSharesIntent(s: Sources, deliveries: seq<Delivery>, a: Delivery, b: Delivery)
    requires OnePayload(s, deliveries) && a in deliveries && b in deliveries && Accepts(s, a) && Accepts(s, b) && Clash(a, b)
    ensures a.intent == b.intent
  {
  }

  lemma IntentBlocks(s: Sources, first: seq<Delivery>, f: Delivery, e: Delivery)
    requires OnePayload(s, first) && f in first && Accepts(s, f) && f.intent == e.intent
    ensures Clashes(Landed(s, first), e)
  {
    LandedCovers(s, first, f);
    var landed := Landed(s, first);
    var k :| 0 <= k < |landed| && Clash(landed[k], f);
    ClashSharesIntent(s, first, landed[k], f);
    assert Clash(landed[k], e);
  }

  /** Once a dominating delivery and all that are not newer were delivered, everything else clashes. */
  lemma BelowBlocks(s: Sources, deliveries: seq<Delivery>, d: Delivery, first: seq<Delivery>, e: Delivery)
    requires Accepts(s, d) && IntentBelow(s, deliveries, e, d)
    requires OnePayload(s, first) && first == [d] + Below(s, deliveries, d)
    ensures Clashes(Landed(s, first), e)
  {
    var f :| f in deliveries && Accepts(s, f) && f.intent == e.intent && !Newer(s.requests, f.request, d.request);
    assert f in Below(s, deliveries, d) && f in first;
    IntentBlocks(s, first, f, e);
  }

  lemma DominatingIsGreatest(s: Sources, deliveries: seq<Delivery>, d: Delivery, first: seq<Delivery>)
    requires OnePayload(s, deliveries) && Dominates(s, deliveries, d)
    requires first == [d] + Below(s, deliveries, d)
    ensures Greatest(s, Landed(s, first)) == Some(d)
  {
    FirstLands(s, d, Below(s, deliveries, d));
    GreatestIsGreatest(s, Landed(s, first), d);
    var g := Greatest(s, Landed(s, first)).value;
    assert g in first;
  }

  lemma AddedDeliveries(first: seq<Delivery>, deliveries: seq<Delivery>)
    requires forall e :: e in first ==> e in deliveries
    ensures SameDeliveries(deliveries, first + deliveries)
  {
  }

  /** A dominating delivery, delivered first and followed by those not newer, decides the card. */
  lemma DominatingCanDecide(s: Sources, deliveries: seq<Delivery>, d: Delivery) returns (other: seq<Delivery>)
    requires Fresh(s) && OnePayload(s, deliveries) && Dominates(s, deliveries, d)
    ensures SameDeliveries(deliveries, other) && CardAfter(s, other) == Some(CardOf(d))
  {
    var first := [d] + Below(s, deliveries, d);
    assert OnePayload(s, first);
    forall e | e in deliveries && Accepts(s, e) ensures Clashes(Landed(s, first), e) {
      assert IntentBelow(s, deliveries, e, d);
      BelowBlocks(s, deliveries, d, first, e);
    }
    other := first + deliveries;
    NothingMoreLands(s, first, deliveries);
    DominatingIsGreatest(s, deliveries, d, first);
    CardOfGreatestLanded(s, other);
    AddedDeliveries(first, deliveries);
  }

  ghost predicate OrderDoesNotMatter(s: Sources, deliveries: seq<Delivery>) {
    forall other :: SameDeliveries(deliveries, other) ==> CardAfter(s, other) == CardAfter(s, deliveries)
  }

  ghost predicate DominatingAgree(s: Sources, deliveries: seq<Delivery>) {
    forall a, b :: Dominates(s, deliveries, a) && Dominates(s, deliveries, b) ==> CardOf(a) == CardOf(b)
  }

  /** With one payload per request, all sequences of the same deliveries end with the same card if and only if
      all dominating deliveries carry the same card. */
  lemma OrderMattersIff(s: Sources, deliveries: seq<Delivery>)
    requires Fresh(s) && OnePayload(s, deliveries)
    ensures OrderDoesNotMatter(s, deliveries) <==> DominatingAgree(s, deliveries)
  {
    if OrderDoesNotMatter(s, deliveries) {
      forall a, b | Dominates(s, deliveries, a) && Dominates(s, deliveries, b) ensures CardOf(a) == CardOf(b) {
        var first := DominatingCanDecide(s, deliveries, a);
        var second := DominatingCanDecide(s, deliveries, b);
      }
    }
    if DominatingAgree(s, deliveries) {
      forall other | SameDeliveries(deliveries, other) ensures CardAfter(s, other) == CardAfter(s, deliveries) {
        AgreeingDominate(s, deliveries, other);
      }
    }
  }

  lemma {:induction false} NothingLands(s: Sources, deliveries: seq<Delivery>)
    requires forall d :: d in deliveries ==> !Accepts(s, d)
    ensures Landed(s, deliveries) == []
    decreases |deliveries|
  {
    if deliveries != [] {
      NothingLands(s, deliveries[..|deliveries| - 1]);
    }
  }

  lemma SomethingLands(s: Sources, deliveries: seq<Delivery>, other: seq<Delivery>, d: Delivery)
    requires OnePayload(s, deliveries) && SameDeliveries(deliveries, other) && d in deliveries && Accepts(s, d)
    ensures var g := Greatest(s, Landed(s, other)); g.Some? && Dominates(s, deliveries, g.value)
  {
    assert d in other;
    assert OnePayload(s, other);
    GreatestLandedDominates(s, other, d);
    SameDominates(s, deliveries, other, Greatest(s, Landed(s, other)).value);
  }

  lemma AgreeingDominate(s: Sources, deliveries: seq<Delivery>, other: seq<Delivery>)
    requires Fresh(s) && OnePayload(s, deliveries) && SameDeliveries(deliveries, other) && DominatingAgree(s, deliveries)
    ensures CardAfter(s, other) == CardAfter(s, deliveries)
  {
    CardOfGreatestLanded(s, deliveries);
    CardOfGreatestLanded(s, other);
    if d :| d in deliveries && Accepts(s, d) {
      SomethingLands(s, deliveries, deliveries, d);
      SomethingLands(s, deliveries, other, d);
    } else {
      NothingLands(s, deliveries);
      NothingLands(s, other);
    }
  }

  lemma SameDominates(s: Sources, deliveries: seq<Delivery>, other: seq<Delivery>, d: Delivery)
    requires SameDeliveries(deliveries, other) && Dominates(s, other, d)
    ensures Dominates(s, deliveries, d)
  {
    forall e | e in deliveries && Accepts(s, e) ensures IntentBelow(s, deliveries, e, d) {
      assert IntentBelow(s, other, e, d);
    }
  }

  /** When moreover no intent is shared, only the greatest delivered request dominates. */
  lemma CoherentDominates(s: Sources, deliveries: seq<Delivery>, d: Delivery, e: Delivery)
    requires Coherent(s, deliveries) && Dominates(s, deliveries, d) && e in deliveries && Accepts(s, e)
    ensures !Newer(s.requests, e.request, d.request)
  {
    assert IntentBelow(s, deliveries, e, d);
  }

  /** Then, whatever the order and repetition, the card is that of the greatest delivered request. */
  lemma CardOfGreatestRequest(s: Sources, deliveries: seq<Delivery>, d: Delivery)
    requires Fresh(s) && Coherent(s, deliveries)
    requires d in deliveries && Accepts(s, d)
    requires forall e :: e in deliveries && Accepts(s, e) ==> !Newer(s.requests, e.request, d.request)
    ensures CardAfter(s, deliveries) == Some(CardOf(d))
  {
    CardOfGreatestLanded(s, deliveries);
    GreatestLandedDominates(s, deliveries, d);
    var g := Greatest(s, Landed(s, deliveries)).value;
    CoherentDominates(s, deliveries, g, d);
    assert g.request == d.request;
  }

  /** Two sequences with the same deliveries end with the same card. */
  lemma OrderAndRepetitionDoNotMatter(s: Sources, first: seq<Delivery>, second: seq<Delivery>)
    requires Fresh(s) && Coherent(s, first) && SameDeliveries(first, second)
    ensures CardAfter(s, first) == CardAfter(s, second)
  {
    forall a, b | Dominates(s, first, a) && Dominates(s, first, b) ensures CardOf(a) == CardOf(b) {
      CoherentDominates(s, first, a, b);
      CoherentDominates(s, first, b, a);
    }
    AgreeingDominate(s, first, second);
  }

  /** Two requests that name one setup intent: the first delivery decides, so the orders agree if and only if
      the intents differ or the cards are equal. */
  lemma OrderMattersForTwo(s: Sources, a: Delivery, b: Delivery)
    requires Fresh(s) && Accepts(s, a) && Accepts(s, b) && a.request != b.request
    ensures CardAfter(s, [a, b]) == CardAfter(s, [b, a]) <==> a.intent != b.intent || CardOf(a) == CardOf(b)
  {
    if a.intent != b.intent {
      OrderAndRepetitionDoNotMatter(s, [a, b], [b, a]);
    } else {
      SecondIsRejected(s, a, b);
      SecondIsRejected(s, b, a);
    }
  }

  lemma SecondIsRejected(s: Sources, a: Delivery, b: Delivery)
    requires Fresh(s) && Accepts(s, a) && Accepts(s, b) && a.intent == b.intent
    ensures CardAfter(s, [a, b]) == Some(CardOf(a))
  {
    assert [a, b] == [a] + [b] && [a][..0] == [];
    assert Landed(s, []) == [] && Landed(s, [a]) == [a];
    assert Clash([a][0], b);
    NothingMoreLands(s, [a], [b]);
    CardOfGreatestLanded(s, [a, b]);
    GreatestAfter(s, [], a);
  }
}
