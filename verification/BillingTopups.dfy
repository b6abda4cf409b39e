/** Completion of Stripe top-ups for one tenant: billing.complete_stripe_topup, the columns other
    writers may touch and the constraints of the billing tables. */
module BillingTopups {
  import opened Common

  datatype Provider = Stripe | Simulator

  datatype Status = Pending | Succeeded | Failed | Cancelled

  datatype Topup = Topup(provider: Provider, session: Option<string>, customer: Option<string>,
                         amount: int, currency: string, status: Status)

  datatype Wallet = Wallet(currency: string, available: int)

  datatype Entry = Entry(topup: nat, amount: int, balanceAfter: int, reference: string)

  /** The tenant's wallet, its top-ups (a top-up's id is its position) and its ledger in order of insertion. */
  datatype Account = Account(wallet: Option<Wallet>, topups: seq<Topup>, ledger: seq<Entry>)

  /** The provider's completion event. */
  datatype Checkout = Checkout(topup: nat, session: string, customer: string, amount: int, currency: string)

  /** What a call answers; an exception rolls the transaction back. */
  datatype Outcome = Returned(value: bool) | Raised

  const BIGINT_MAX := 9223372036854775807
  const SMALLEST_TOPUP := 100
  const LARGEST_TOPUP := 100000000

  function Upper(text: string): string {
    seq(|text|, i requires 0 <= i < |text| =>
      if 'a' <= text[i] <= 'z' then text[i] - 'a' + 'A' else text[i])
  }

  predicate Expected(topup: Topup, c: Checkout) {
    && topup.provider == Stripe && topup.session == Some(c.session) && topup.customer == Some(c.customer)
    && topup.amount == c.amount && topup.currency == Upper(c.currency)
  }

  function Reference(session: string): string {
    "stripe:" + session
  }

  predicate Referenced(ledger: seq<Entry>, reference: string) {
    exists i :: 0 <= i < |ledger| && ledger[i].reference == reference
  }

  // ---- complete_stripe_topup ----------------------------------------------------------------------

  function Complete(a: Account, c: Checkout): (r: (Account, Outcome))
    ensures r.1 != Returned(true) ==> r.0 == a
    ensures r.1 == Returned(true) ==> c.topup < |r.0.topups| && Expected(r.0.topups[c.topup], c)
                                      && r.0.topups[c.topup].status == Succeeded
  {
    if c.topup >= |a.topups| || !Expected(a.topups[c.topup], c) then (a, Returned(false))
    else
      var topup := a.topups[c.topup];
      if topup.status == Succeeded then (a, Returned(true))
      else if topup.status != Pending then (a, Returned(false))
      else if a.wallet == None || a.wallet.value.currency != Upper(c.currency) then (a, Returned(false))
      else if a.wallet.value.available + c.amount > BIGINT_MAX || Referenced(a.ledger, Reference(c.session)) then (a, Raised)
      else (Credit(a, c), Returned(true))
  }

  function Credit(a: Account, c: Checkout): Account
    requires c.topup < |a.topups| && a.wallet.Some?
  {
    var balance := a.wallet.value.available + c.amount;
    Account(Some(a.wallet.value.(available := balance)),
            a.topups[c.topup := a.topups[c.topup].(status := Succeeded)],
            a.ledger + [Entry(c.topup, c.amount, balance, Reference(c.session))])
  }

  class BillingAccount {
    var wallet: Option<Wallet>
    var topups: seq<Topup>
    var ledger: seq<Entry>

    ghost function State(): Account
      reads this
    {
      Account(wallet, topups, ledger)
    }

    method CompleteStripeTopup(c: Checkout) returns (outcome: Outcome)
      modifies this
      ensures (State(), outcome) == Complete(old(State()), c)
    {
      if c.topup >= |topups| || !Expected(topups[c.topup], c) {
        return Returned(false);
      }
      if topups[c.topup].status == Succeeded {
        return Returned(true);
      }
      if topups[c.topup].status != Pending {
        return Returned(false);
      }
      if wallet == None || wallet.value.currency != Upper(c.currency) {
        return Returned(false);
      }
      var balance := wallet.value.available + c.amount;
      if balance > BIGINT_MAX {
        return Raised;
      }
      var savedWallet, savedTopups := wallet, topups;
      wallet := Some(wallet.value.(available := balance));
      topups := topups[c.topup := topups[c.topup].(status := Succeeded)];
      if Referenced(ledger, Reference(c.session)) {
        wallet, topups := savedWallet, savedTopups;
        return Raised;
      }
      ledger := ledger + [Entry(c.topup, c.amount, balance, Reference(c.session))];
      outcome := Returned(true);
    }
  }

  // ---- what a completion does ---------------------------------------------------------------------

  /** A letter becomes its capital, and nothing else changes. */
  lemma UpperMeans(text: string, i: nat)
    requires i < |text|
    ensures |Upper(text)| == |text|
    ensures 'a' <= text[i] <= 'z' ==> Upper(text)[i] as int == text[i] as int - 32
    ensures text[i] < 'a' || text[i] > 'z' ==> Upper(text)[i] == text[i]
  {
  }

  /** The event is about this top-up. */
  predicate About(t: Topup, c: Checkout) {
    t == Topup(Stripe, Some(c.session), Some(c.customer), c.amount, Upper(c.currency), t.status)
  }

  /** The wallet is in the event's currency and has room for the amount. */
  predicate Fits(wallet: Option<Wallet>, c: Checkout) {
    wallet.Some? && wallet.value.currency == Upper(c.currency) && wallet.value.available <= 9223372036854775807 - c.amount
  }

  predicate Fresh(ledger: seq<Entry>, session: string) {
    forall i :: 0 <= i < |ledger| ==> ledger[i].reference != "stripe:" + session
  }

  /** A completion is acknowledged if and only if it is about a top-up that has succeeded, or about a pending
      one whose amount fits a wallet in its currency under an unused reference. */
  lemma AcknowledgedIff(a: Account, c: Checkout)
    ensures Complete(a, c).1 == Returned(true) <==>
              && c.topup < |a.topups| && About(a.topups[c.topup], c)
              && (a.topups[c.topup].status == Succeeded
                  || (a.topups[c.topup].status == Pending && Fits(a.wallet, c) && Fresh(a.ledger, c.session)))
  {
  }

  /** It raises if and only if the pending top-up's wallet is there but overflows, or the reference is used. */
  lemma RaisedIff(a: Account, c: Checkout)
    ensures Complete(a, c).1 == Raised <==>
              && c.topup < |a.topups| && About(a.topups[c.topup], c) && a.topups[c.topup].status == Pending
              && a.wallet.Some? && a.wallet.value.currency == Upper(c.currency)
              && !(Fits(a.wallet, c) && Fresh(a.ledger, c.session))
  {
  }

  /** An acknowledged completion of a pending top-up moves exactly its amount: the wallet grows by it, one entry
      is appended, and of all top-ups only this one changes, by having succeeded. */
  lemma CreditMovesTheAmount(a: Account, c: Checkout)
    requires Complete(a, c).1 == Returned(true) && a.topups[c.topup].status == Pending
    ensures var b := Complete(a, c).0;
            && a.wallet.Some? && b.wallet == Some(Wallet(a.wallet.value.currency, a.wallet.value.available + c.amount))
            && b.ledger == a.ledger + [Entry(c.topup, c.amount, a.wallet.value.available + c.amount, "stripe:" + c.session)]
            && |b.topups| == |a.topups| && b.topups[c.topup] == a.topups[c.topup].(status := Succeeded)
            && forall id: nat :: id < |a.topups| && id != c.topup ==> b.topups[id] == a.topups[id]
  {
  }

  /** Every other completion changes nothing. */
  lemma OtherwiseNothingMoves(a: Account, c: Checkout)
    ensures Complete(a, c).0 == a <==>
              !(Complete(a, c).1 == Returned(true) && c.topup < |a.topups| && a.topups[c.topup].status == Pending)
  {
    if Complete(a, c).1 == Returned(true) && a.topups[c.topup].status == Pending {
      CreditMovesTheAmount(a, c);
      assert |Complete(a, c).0.ledger| != |a.ledger|;
    }
  }

  // ---- runs ---------------------------------------------------------------------------------------

  /** Everything the runtime role may do to the tenant's billing rows. */
  datatype Step =
    | OpenWallet(currency: string)
    | ChangeCurrency(currency: string)
    | Create(provider: Provider, customer: Option<string>, amount: int, currency: string)
    | Bind(topup: nat, session: string)
    | Deliver(checkout: Checkout)

  predicate SessionTaken(topups: seq<Topup>, id: nat, session: string) {
    exists i :: 0 <= i < |topups| && i != id && id < |topups|
                && topups[i].provider == topups[id].provider && topups[i].session == Some(session)
  }

  function Apply(a: Account, step: Step): Account {
    match step
    case OpenWallet(currency) =>
      if a.wallet == None then a.(wallet := Some(Wallet(currency, 0))) else a
    case ChangeCurrency(currency) =>
      if a.wallet == None then a else a.(wallet := Some(a.wallet.value.(currency := currency)))
    case Create(provider, customer, amount, currency) =>
      if SMALLEST_TOPUP <= amount <= LARGEST_TOPUP
      then a.(topups := a.topups + [Topup(provider, None, customer, amount, currency, Pending)])
      else a
    case Bind(topup, session) =>
      if topup >= |a.topups| || SessionTaken(a.topups, topup, session) then a
      else a.(topups := a.topups[topup := a.topups[topup].(session := Some(session))])
    case Deliver(checkout) => Complete(a, checkout).0
  }

  function Run(a: Account, steps: seq<Step>): Account
    decreases |steps|
  {
    if steps == [] then a else Apply(Run(a, steps[..|steps| - 1]), steps[|steps| - 1])
  }

  const NEW_ACCOUNT := Account(None, [], [])

  // ---- the books ----------------------------------------------------------------------------------

  function Total(ledger: seq<Entry>): int {
    if ledger == [] then 0 else Total(ledger[..|ledger| - 1]) + ledger[|ledger| - 1].amount
  }

  /** The amounts of the top-ups that succeeded. */
  function Credited(topups: seq<Topup>): int {
    if topups == [] then 0
    else Credited(topups[..|topups| - 1])
         + (if topups[|topups| - 1].status == Succeeded then topups[|topups| - 1].amount else 0)
  }

  function EntriesOf(ledger: seq<Entry>, topup: nat): nat {
    if ledger == [] then 0
    else EntriesOf(ledger[..|ledger| - 1], topup) + (if ledger[|ledger| - 1].topup == topup then 1 else 0)
  }

  function Available(a: Account): int {
    if a.wallet.Some? then a.wallet.value.available else 0
  }

  /** Each top-up has one ledger entry if it succeeded and none otherwise. */
  predicate OncePerTopup(a: Account) {
    forall id: nat :: id < |a.topups| ==> EntriesOf(a.ledger, id) == (if a.topups[id].status == Succeeded then 1 else 0)
  }

  /** The entry books its top-up's amount and carries the running sum. */
  predicate Booked(a: Account, i: nat)
    requires i < |a.ledger|
  {
    && a.ledger[i].topup < |a.topups|
    && a.ledger[i].amount == a.topups[a.ledger[i].topup].amount
    && a.ledger[i].balanceAfter == Total(a.ledger[..i + 1])
  }

  predicate RunningSums(a: Account) {
    forall i :: 0 <= i < |a.ledger| ==> Booked(a, i)
  }

  predicate UniqueReferences(a: Account) {
    forall i, j :: 0 <= i < j < |a.ledger| ==> a.ledger[i].reference != a.ledger[j].reference
  }

  predicate Books(a: Account) {
    && Available(a) == Total(a.ledger) == Credited(a.topups)
    && OncePerTopup(a) && RunningSums(a) && UniqueReferences(a)
  }

  lemma {:induction false} CreditedAfter(topups: seq<Topup>, id: nat, now: Topup)
    requires id < |topups|
    ensures Credited(topups[id := now]) == Credited(topups)
              - (if topups[id].status == Succeeded then topups[id].amount else 0)
              + (if now.status == Succeeded then now.amount else 0)
  {
    var n := |topups| - 1;
    if id < n {
      CreditedAfter(topups[..n], id, now);
      assert topups[id := now][..n] == topups[..n][id := now];
    } else {
      assert topups[id := now][..n] == topups[..n];
    }
  }

  lemma {:induction false} NoEntryFor(ledger: seq<Entry>, topup: nat)
    requires forall i :: 0 <= i < |ledger| ==> ledger[i].topup != topup
    ensures EntriesOf(ledger, topup) == 0
  {
    if ledger != [] {
      NoEntryFor(ledger[..|ledger| - 1], topup);
    }
  }

  lemma EntryAdded(ledger: seq<Entry>, entry: Entry, topup: nat)
    ensures EntriesOf(ledger + [entry], topup) == EntriesOf(ledger, topup) + (if entry.topup == topup then 1 else 0)
    ensures Total(ledger + [entry]) == Total(ledger) + entry.amount
  {
  }

  /** What is booked stays booked when top-ups keep their amounts and entries are added. */
  lemma BookedStays(a: Account, b: Account, i: nat)
    requires i < |a.ledger| && Booked(a, i) && a.ledger <= b.ledger
    requires |a.topups| <= |b.topups| && forall k :: 0 <= k < |a.topups| ==> b.topups[k].amount == a.topups[k].amount
    ensures Booked(b, i)
  {
    assert b.ledger[..i + 1] == a.ledger[..i + 1];
  }

  lemma RunningSumsStay(a: Account, b: Account)
    requires RunningSums(a) && b.ledger == a.ledger
    requires |a.topups| <= |b.topups| && forall k :: 0 <= k < |a.topups| ==> b.topups[k].amount == a.topups[k].amount
    ensures RunningSums(b)
  {
    forall i | 0 <= i < |b.ledger| ensures Booked(b, i) {
      BookedStays(a, b, i);
    }
  }

  lemma RunningSumsAdded(a: Account, b: Account, entry: Entry)
    requires RunningSums(a) && b.ledger == a.ledger + [entry]
    requires |b.topups| == |a.topups| && forall i :: 0 <= i < |a.topups| ==> b.topups[i].amount == a.topups[i].amount
    requires entry.topup < |b.topups| && entry.amount == b.topups[entry.topup].amount
    requires entry.balanceAfter == Total(a.ledger) + entry.amount
    ensures RunningSums(b)
  {
    var n := |a.ledger|;
    EntryAdded(a.ledger, entry, 0);
    forall i | 0 <= i < |b.ledger| ensures Booked(b, i) {
      if i < n {
        BookedStays(a, b, i);
      } else {
        assert b.ledger[..n + 1] == b.ledger;
      }
    }
  }

  lemma ReferenceAdded(a: Account, b: Account, entry: Entry)
    requires UniqueReferences(a) && b.ledger == a.ledger + [entry] && !Referenced(a.ledger, entry.reference)
    ensures UniqueReferences(b)
  {
  }

  lemma CreditIsOnce(a: Account, c: Checkout)
    requires OncePerTopup(a) && c.topup < |a.topups| && a.topups[c.topup].status == Pending && a.wallet.Some?
    ensures OncePerTopup(Credit(a, c))
  {
    var b := Credit(a, c);
    forall id: nat | id < |b.topups|
      ensures EntriesOf(b.ledger, id) == (if b.topups[id].status == Succeeded then 1 else 0)
    {
      EntryAdded(a.ledger, b.ledger[|a.ledger|], id);
    }
  }

  lemma CreditKeepsBooks(a: Account, c: Checkout)
    requires Books(a) && c.topup < |a.topups| && Expected(a.topups[c.topup], c) && a.wallet.Some?
    requires a.topups[c.topup].status == Pending && !Referenced(a.ledger, Reference(c.session))
    ensures Books(Credit(a, c))
  {
    var b := Credit(a, c);
    var entry := Entry(c.topup, c.amount, b.wallet.value.available, Reference(c.session));
    CreditedAfter(a.topups, c.topup, b.topups[c.topup]);
    EntryAdded(a.ledger, entry, c.topup);
    CreditIsOnce(a, c);
    RunningSumsAdded(a, b, entry);
    ReferenceAdded(a, b, entry);
  }

  lemma CreateIsOnce(a: Account, b: Account, topup: Topup)
    requires OncePerTopup(a) && RunningSums(a) && b.ledger == a.ledger && b.topups == a.topups + [topup]
    requires topup.status == Pending
    ensures OncePerTopup(b)
  {
    forall i | 0 <= i < |a.ledger| ensures a.ledger[i].topup != |a.topups| {
      assert Booked(a, i);
    }
    NoEntryFor(a.ledger, |a.topups|);
    forall id: nat | id < |b.topups|
      ensures EntriesOf(b.ledger, id) == (if b.topups[id].status == Succeeded then 1 else 0)
    {
      if id < |a.topups| { assert b.topups[id] == a.topups[id]; }
    }
  }

  lemma CreateKeepsBooks(a: Account, topup: Topup)
    requires Books(a) && topup.status == Pending
    ensures Books(a.(topups := a.topups + [topup]))
  {
    var b := a.(topups := a.topups + [topup]);
    assert b.topups[..|a.topups|] == a.topups;
    CreateIsOnce(a, b, topup);
    RunningSumsStay(a, b);
  }

  lemma BindKeepsBooks(a: Account, id: nat, session: string)
    requires Books(a) && id < |a.topups|
    ensures Books(a.(topups := a.topups[id := a.topups[id].(session := Some(session))]))
  {
    CreditedAfter(a.topups, id, a.topups[id].(session := Some(session)));
    RunningSumsStay(a, a.(topups := a.topups[id := a.topups[id].(session := Some(session))]));
  }

  lemma WalletKeepsBooks(a: Account, wallet: Wallet)
    requires Books(a) && wallet.available == Available(a)
    ensures Books(a.(wallet := Some(wallet)))
  {
    RunningSumsStay(a, a.(wallet := Some(wallet)));
  }

  lemma StepKeepsBooks(a: Account, step: Step)
    requires Books(a)
    ensures Books(Apply(a, step))
  {
    match step
    case OpenWallet(currency) =>
      if a.wallet == None { WalletKeepsBooks(a, Wallet(currency, 0)); }
    case ChangeCurrency(currency) =>
      if a.wallet.Some? { WalletKeepsBooks(a, a.wallet.value.(currency := currency)); }
    case Create(provider, customer, amount, currency) =>
      CreateKeepsBooks(a, Topup(provider, None, customer, amount, currency, Pending));
    case Bind(topup, session) =>
      if topup < |a.topups| { BindKeepsBooks(a, topup, session); }
    case Deliver(c) =>
      if Complete(a, c).0 != a { CreditKeepsBooks(a, c); }
  }

  /** After any run: the balance is the sum of the ledger and of the succeeded top-ups, every entry
      carries the running sum, and a top-up is succeeded exactly when it has exactly one entry. */
  lemma {:induction false} BooksAlwaysBalance(steps: seq<Step>)
    ensures Books(Run(NEW_ACCOUNT, steps))
    decreases |steps|
  {
    if steps != [] {
      BooksAlwaysBalance(steps[..|steps| - 1]);
      StepKeepsBooks(Run(NEW_ACCOUNT, steps[..|steps| - 1]), steps[|steps| - 1]);
    }
  }

  // ---- replays ------------------------------------------------------------------------------------

  predicate Done(a: Account, c: Checkout) {
    c.topup < |a.topups| && Expected(a.topups[c.topup], c) && a.topups[c.topup].status == Succeeded
  }

  predicate Rebinds(step: Step, c: Checkout) {
    step.Bind? && step.topup == c.topup && step.session != c.session
  }

  lemma {:induction false} StaysDone(a: Account, c: Checkout, steps: seq<Step>)
    requires Done(a, c) && forall i :: 0 <= i < |steps| ==> !Rebinds(steps[i], c)
    ensures Done(Run(a, steps), c)
    decreases |steps|
  {
    if steps != [] {
      StaysDone(a, c, steps[..|steps| - 1]);
      assert !Rebinds(steps[|steps| - 1], c);
    }
  }

  /** A completion event repeated at any later time is acknowledged and credits nothing, whatever
      happened in between, unless the top-up was bound to another session. */
  lemma ReplayCreditsNothing(a: Account, c: Checkout, between: seq<Step>)
    requires Complete(a, c).1 == Returned(true)
    requires forall i :: 0 <= i < |between| ==> !Rebinds(between[i], c)
    ensures var later := Run(Complete(a, c).0, between);
            Complete(later, c) == (later, Returned(true))
  {
    StaysDone(Complete(a, c).0, c, between);
  }

  // ---- completions are credited -----------------------------------------------------------------------

  /** What other writers may do to the rows: the wallet starts empty and keeps its balance, a created top-up is
      pending and within bounds, and a session belongs to one top-up of a provider. */
  lemma WritersEffect(a: Account, step: Step)
    requires !step.Deliver?
    ensures var b := Apply(a, step);
            && b.ledger == a.ledger && Available(b) == Available(a)
            && (b.wallet != a.wallet <==>
                 (step.OpenWallet? && a.wallet == None)
                 || (step.ChangeCurrency? && a.wallet.Some? && step.currency != a.wallet.value.currency))
            && (b.wallet != a.wallet ==> b.wallet == Some(Wallet(step.currency, Available(a))))
            && (|b.topups| != |a.topups| <==> step.Create? && 100 <= step.amount <= 100000000)
            && (|b.topups| != |a.topups| ==>
                 b.topups == a.topups + [Topup(step.provider, None, step.customer, step.amount, step.currency, Pending)])
            && (|b.topups| == |a.topups| && b.topups != a.topups ==>
                 && step.Bind? && step.topup < |a.topups| && OnlyOne(a.topups, step.topup, step.session)
                 && b.topups == a.topups[step.topup := a.topups[step.topup].(session := Some(step.session))])
            && (step.Bind? && step.topup < |a.topups| && OnlyOne(a.topups, step.topup, step.session) ==>
                 b.topups[step.topup].session == Some(step.session))
  {
  }

  /** No other top-up of the provider carries the session. */
  predicate OnlyOne(topups: seq<Topup>, id: nat, session: string)
    requires id < |topups|
  {
    forall i :: 0 <= i < |topups| && i != id ==> topups[i].provider != topups[id].provider || topups[i].session != Some(session)
  }

  /** The session of a top-up is not replaced. */
  predicate BindsOnce(a: Account, step: Step) {
    step.Bind? && step.topup < |a.topups| && a.topups[step.topup].session.Some? ==> a.topups[step.topup].session.value == step.session
  }

  predicate AlwaysBindsOnce(steps: seq<Step>)
    decreases |steps|
  {
    steps != [] ==> AlwaysBindsOnce(steps[..|steps| - 1])
                    && BindsOnce(Run(NEW_ACCOUNT, steps[..|steps| - 1]), steps[|steps| - 1])
  }

  /** An entry names the session of its top-up, which has succeeded. */
  predicate Named(a: Account) {
    && (forall i :: 0 <= i < |a.ledger| ==>
         && a.ledger[i].topup < |a.topups| && a.topups[a.ledger[i].topup].status == Succeeded
         && a.topups[a.ledger[i].topup].provider == Stripe && a.topups[a.ledger[i].topup].session.Some?
         && a.ledger[i].reference == Reference(a.topups[a.ledger[i].topup].session.value))
    && OneSessionEach(a.topups)
  }

  predicate OneSessionEach(topups: seq<Topup>) {
    forall i, j :: 0 <= i < j < |topups| && topups[i].provider == topups[j].provider && topups[i].session.Some? ==>
      topups[i].session != topups[j].session
  }

  lemma BindKeepsNamed(a: Account, id: nat, session: string)
    requires Named(a) && id < |a.topups| && !SessionTaken(a.topups, id, session)
    requires a.topups[id].session.Some? ==> a.topups[id].session.value == session
    ensures Named(a.(topups := a.topups[id := a.topups[id].(session := Some(session))]))
  {
  }

  lemma CreateKeepsNamed(a: Account, topup: Topup)
    requires Named(a) && topup.session == None
    ensures Named(a.(topups := a.topups + [topup]))
  {
  }

  lemma CreditKeepsNamed(a: Account, c: Checkout)
    requires Named(a) && c.topup < |a.topups| && Expected(a.topups[c.topup], c) && a.wallet.Some?
    ensures Named(Credit(a, c))
  {
    var b := Credit(a, c);
    forall i | 0 <= i < |b.ledger|
      ensures && b.ledger[i].topup < |b.topups| && b.topups[b.ledger[i].topup].status == Succeeded
              && b.topups[b.ledger[i].topup].provider == Stripe && b.topups[b.ledger[i].topup].session.Some?
              && b.ledger[i].reference == Reference(b.topups[b.ledger[i].topup].session.value)
    {
      if i < |a.ledger| {
        assert b.ledger[i] == a.ledger[i];
      }
    }
  }

  lemma StepKeepsNamed(a: Account, step: Step)
    requires Named(a) && BindsOnce(a, step)
    ensures Named(Apply(a, step))
  {
    match step
    case OpenWallet(_) =>
    case ChangeCurrency(_) =>
    case Create(provider, customer, amount, currency) =>
      CreateKeepsNamed(a, Topup(provider, None, customer, amount, currency, Pending));
    case Bind(topup, session) =>
      if topup < |a.topups| && !SessionTaken(a.topups, topup, session) { BindKeepsNamed(a, topup, session); }
    case Deliver(c) =>
      if Complete(a, c).0 != a { CreditKeepsNamed(a, c); }
  }

  lemma {:induction false} RunKeepsNamed(steps: seq<Step>)
    requires AlwaysBindsOnce(steps)
    ensures Named(Run(NEW_ACCOUNT, steps))
    decreases |steps|
  {
    if steps != [] {
      RunKeepsNamed(steps[..|steps| - 1]);
      StepKeepsNamed(Run(NEW_ACCOUNT, steps[..|steps| - 1]), steps[|steps| - 1]);
    }
  }

  lemma ReferenceTells(a: string, b: string)
    ensures Reference(a) == Reference(b) ==> a == b
  {
    assert Reference(a)[7..] == a && Reference(b)[7..] == b;
  }

  /** Whatever came before, as long as no top-up's session was replaced: a completion about a pending top-up
      whose amount fits the wallet in its currency is credited. */
  lemma MatchingCompletionIsCredited(steps: seq<Step>, c: Checkout)
    requires AlwaysBindsOnce(steps)
    requires var a := Run(NEW_ACCOUNT, steps);
             c.topup < |a.topups| && About(a.topups[c.topup], c) && a.topups[c.topup].status == Pending && Fits(a.wallet, c)
    ensures var a := Run(NEW_ACCOUNT, steps);
            Complete(a, c).1 == Returned(true) && Available(Complete(a, c).0) == Available(a) + c.amount
  {
    var a := Run(NEW_ACCOUNT, steps);
    RunKeepsNamed(steps);
    forall i | 0 <= i < |a.ledger| ensures a.ledger[i].reference != "stripe:" + c.session {
      ReferenceTells(a.topups[a.ledger[i].topup].session.value, c.session);
    }
    AcknowledgedIff(a, c);
    CreditMovesTheAmount(a, c);
  }
}
