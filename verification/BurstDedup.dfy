/** `recovery_dry_run` of scripts/audit_voice_intake.py: calls that need a manual review, with the
    retries of one caller inside a short window folded into one candidate. */
module BurstDedup {
  import opened Common

  datatype Disposition =
    | Unroutable | NotAdmitted | NoSession | NoContact | NoIntake | IntakeOnly
    | InquiryOpen | CaseOpened | Active | OutboundSkipped

  /** `stamp` is the place of the `received_at` text in string order, by which calls are sorted;
      `at` is the instant, in microseconds, that parsing the same text gives. */
  datatype Trace = Trace(eventId: string, tenant: Option<string>, caller: string,
                         stamp: int, at: int, disposition: Disposition)
  {
    function Key(): (Option<string>, string) {
      (tenant, caller)
    }
  }

  datatype Candidate = Candidate(first: Trace, repeatAttempts: nat)

  predicate NeedsRecovery(t: Trace) {
    t.disposition in {NotAdmitted, NoSession, NoIntake, IntakeOnly}
  }

  // ---- sorted(traces, key=...) --------------------------------------------------------------

  predicate InOrder(s: seq<Trace>) {
    forall i, j :: 0 <= i < j < |s| ==> s[i].stamp <= s[j].stamp
  }

  /** Inserts behind the elements with the same stamp. */
  function InsertSorted(s: seq<Trace>, t: Trace): seq<Trace> {
    if s == [] then [t]
    else if s[0].stamp > t.stamp then [t] + s
    else [s[0]] + InsertSorted(s[1..], t)
  }

  lemma {:induction false} InsertKeepsCalls(s: seq<Trace>, t: Trace)
    ensures multiset(InsertSorted(s, t)) == multiset(s) + multiset{t}
  {
    if s != [] && s[0].stamp <= t.stamp {
      InsertKeepsCalls(s[1..], t);
      assert s == [s[0]] + s[1..];
    }
  }

  lemma {:induction false} InsertKeepsOrder(s: seq<Trace>, t: Trace)
    requires InOrder(s)
    ensures InOrder(InsertSorted(s, t))
  {
    if s != [] && s[0].stamp <= t.stamp {
      InsertKeepsOrder(s[1..], t);
      var rest := InsertSorted(s[1..], t);
      InsertKeepsCalls(s[1..], t);
      forall j | 0 <= j < |rest| ensures s[0].stamp <= rest[j].stamp {
        assert rest[j] in multiset(rest);
        assert rest[j] == t || rest[j] in s[1..];
      }
    }
  }

  function Sorted(s: seq<Trace>): seq<Trace> {
    if s == [] then [] else InsertSorted(Sorted(s[..|s| - 1]), s[|s| - 1])
  }

  lemma {:induction false} SortedKeepsCalls(s: seq<Trace>)
    ensures multiset(Sorted(s)) == multiset(s)
  {
    if s != [] {
      var n := |s| - 1;
      SortedKeepsCalls(s[..n]);
      InsertKeepsCalls(Sorted(s[..n]), s[n]);
      LastCall(s);
    }
  }

  lemma LastCall(s: seq<Trace>)
    requires s != []
    ensures multiset(s) == multiset(s[..|s| - 1]) + multiset{s[|s| - 1]}
  {
    assert s == s[..|s| - 1] + [s[|s| - 1]];
  }

  lemma {:induction false} SortedIsInOrder(s: seq<Trace>)
    ensures InOrder(Sorted(s))
  {
    if s != [] {
      SortedIsInOrder(s[..|s| - 1]);
      InsertKeepsOrder(Sorted(s[..|s| - 1]), s[|s| - 1]);
    }
  }

  /** The calls with the stamp, in order. */
  function WithStamp(s: seq<Trace>, stamp: int): seq<Trace> {
    if s == [] then [] else (if s[0].stamp == stamp then [s[0]] else []) + WithStamp(s[1..], stamp)
  }

  lemma {:induction false} WithStampAppends(s: seq<Trace>, t: Trace, stamp: int)
    ensures WithStamp(s + [t], stamp) == WithStamp(s, stamp) + if t.stamp == stamp then [t] else []
  {
    if s == [] {
      assert (s + [t])[1..] == [];
    } else {
      WithStampAppends(s[1..], t, stamp);
      assert (s + [t])[1..] == s[1..] + [t];
    }
  }

  lemma {:induction false} NoneWithStamp(s: seq<Trace>, stamp: int)
    requires forall i :: 0 <= i < |s| ==> s[i].stamp != stamp
    ensures WithStamp(s, stamp) == []
  {
    if s != [] {
      NoneWithStamp(s[1..], stamp);
    }
  }

  lemma WithStampOn(first: Trace, rest: seq<Trace>, stamp: int)
    ensures WithStamp([first] + rest, stamp) == (if first.stamp == stamp then [first] else []) + WithStamp(rest, stamp)
  {
    assert ([first] + rest)[1..] == rest;
  }

  lemma {:induction false} InsertIsStable(s: seq<Trace>, t: Trace, stamp: int)
    requires InOrder(s)
    ensures WithStamp(InsertSorted(s, t), stamp) == WithStamp(s, stamp) + if t.stamp == stamp then [t] else []
  {
    if s == [] {
    } else if s[0].stamp > t.stamp {
      WithStampOn(t, s, stamp);
      if t.stamp == stamp {
        NoneWithStamp(s, stamp);
      }
    } else {
      InsertIsStable(s[1..], t, stamp);
      WithStampOn(s[0], InsertSorted(s[1..], t), stamp);
    }
  }

  lemma StableStep(sorted: seq<Trace>, front: seq<Trace>, last: Trace, stamp: int)
    requires InOrder(sorted) && WithStamp(sorted, stamp) == WithStamp(front, stamp)
    ensures WithStamp(InsertSorted(sorted, last), stamp) == WithStamp(front + [last], stamp)
  {
    InsertIsStable(sorted, last, stamp);
    WithStampAppends(front, last, stamp);
  }

  /** Calls with one stamp keep their order. */
  lemma {:induction false} SortingIsStable(s: seq<Trace>, stamp: int)
    ensures WithStamp(Sorted(s), stamp) == WithStamp(s, stamp)
  {
    if s != [] {
      var n := |s| - 1;
      SortingIsStable(s[..n], stamp);
      SortedIsInOrder(s[..n]);
      var sorted, front, last := Sorted(s[..n]), s[..n], s[n];
      assert front + [last] == s;
      StableStep(sorted, front, last, stamp);
    }
  }

  /** The calls that need review, in the order in which the loop meets them. */
  function Relevant(s: seq<Trace>): (r: seq<Trace>)
    ensures forall t :: t in r ==> NeedsRecovery(t)
  {
    if s == [] then []
    else Relevant(s[..|s| - 1]) + (if NeedsRecovery(s[|s| - 1]) then [s[|s| - 1]] else [])
  }

  // ---- what the candidates mean ---------------------------------------------------------------

  /** The latest of the first n calls that has the given tenant and caller. */
  function LastOf(r: seq<Trace>, n: nat, key: (Option<string>, string)): (k: Option<nat>)
    requires n <= |r|
    ensures k.Some? ==> k.value < n && r[k.value].Key() == key
    ensures forall j :: 0 <= j < n && r[j].Key() == key ==> k.Some? && j <= k.value
  {
    if n == 0 then None
    else if r[n - 1].Key() == key then Some(n - 1)
    else LastOf(r, n - 1, key)
  }

  /** Call i opens a candidate: the caller's previous call is missing or further back than the window. */
  predicate Opens(r: seq<Trace>, i: nat, window: int)
    requires i < |r|
  {
    var previous := LastOf(r, i, r[i].Key());
    previous.None? || r[i].at - r[previous.value].at > window
  }

  /** The positions, among the first n calls, that open a candidate. */
  function Openings(r: seq<Trace>, n: nat, window: int): (o: seq<nat>)
    requires n <= |r|
    ensures forall i :: i in o <==> 0 <= i < n && Opens(r, i, window)
    ensures n > 0 ==> o != [] && o[0] == 0
  {
    if n == 0 then []
    else
      var before := Openings(r, n - 1, window);
      if Opens(r, n - 1, window) then before + [n - 1] else before
  }

  /** The call before which the candidate opened k-th stops growing. */
  function Until(o: seq<nat>, k: nat, n: nat): nat {
    if k + 1 < |o| then o[k + 1] else n
  }

  predicate StandsFor(c: Candidate, r: seq<Trace>, from: nat, until: nat) {
    from < |r| && c.first == r[from] && c.repeatAttempts == until - from - 1
  }

  /** Candidate k stands for its opening call and for every call up to the next opening. */
  predicate Folds(candidates: seq<Candidate>, r: seq<Trace>, o: seq<nat>, n: nat) {
    && |candidates| == |o|
    && forall k :: 0 <= k < |o| ==> StandsFor(candidates[k], r, o[k], Until(o, k, n))
  }

  predicate Represents(candidates: seq<Candidate>, r: seq<Trace>, n: nat, window: int)
    requires n <= |r|
  {
    Folds(candidates, r, Openings(r, n, window), n)
  }

  /** What the next call does to the candidates. */
  lemma RepresentsNext(candidates: seq<Candidate>, r: seq<Trace>, n: nat, window: int)
    requires n < |r| && Represents(candidates, r, n, window)
    ensures Opens(r, n, window) ==> Represents(candidates + [Candidate(r[n], 0)], r, n + 1, window)
    ensures !Opens(r, n, window) ==>
              candidates != [] && Represents(Retried(candidates), r, n + 1, window)
  {
  }

  /** `candidates[-1]["repeat_attempts"] += 1`. */
  function Retried(candidates: seq<Candidate>): (r: seq<Candidate>)
    requires candidates != []
    ensures |r| == |candidates|
  {
    var last := candidates[|candidates| - 1];
    candidates[|candidates| - 1 := last.(repeatAttempts := last.repeatAttempts + 1)]
  }

  /** `last_by_caller` after n relevant calls: the instant of the latest call of every caller. */
  ghost predicate Remembers(last: map<(Option<string>, string), int>, r: seq<Trace>, n: nat)
    requires n <= |r|
  {
    && (forall key :: key in last <==> LastOf(r, n, key).Some?)
    && (forall key :: key in last ==> last[key] == r[LastOf(r, n, key).value].at)
  }

  lemma RemembersNext(last: map<(Option<string>, string), int>, r: seq<Trace>, n: nat)
    requires n < |r| && Remembers(last, r, n)
    ensures Remembers(last[r[n].Key() := r[n].at], r, n + 1)
  {
  }

  /** What the loop remembers decides whether the next call opens a candidate. */
  lemma OpensUnlessRemembered(last: map<(Option<string>, string), int>, r: seq<Trace>, n: nat, window: int)
    requires n < |r| && Remembers(last, r, n)
    ensures Opens(r, n, window) <==> !(r[n].Key() in last && r[n].at - last[r[n].Key()] <= window)
  {
  }

  method RecoveryDryRun(traces: seq<Trace>, windowMinutes: nat) returns (candidates: seq<Candidate>)
    ensures var r := Relevant(Sorted(traces));
            Represents(candidates, r, |r|, windowMinutes * 60_000_000)
    ensures Calls(candidates) == |Relevant(traces)|
  {
    candidates := [];
    var lastByCaller: map<(Option<string>, string), int> := map[];
    var window := windowMinutes * 60_000_000;
    var ordered := Sorted(traces);
    ghost var r := Relevant(ordered);
    ghost var n := 0;
    var i := 0;
    while i < |ordered|
      invariant 0 <= i <= |ordered| && n <= |r| && r[..n] == Relevant(ordered[..i])
      invariant Represents(candidates, r, n, window)
      invariant Remembers(lastByCaller, r, n)
    {
      var trace := ordered[i];
      RelevantNext(ordered, i, n);
      i := i + 1;
      if !NeedsRecovery(trace) {
        continue;
      }
      RepresentsNext(candidates, r, n, window);
      RemembersNext(lastByCaller, r, n);
      OpensUnlessRemembered(lastByCaller, r, n, window);
      var key := trace.Key();
      var repeated := key in lastByCaller && trace.at - lastByCaller[key] <= window;
      lastByCaller := lastByCaller[key := trace.at];
      n := n + 1;
      if repeated {
        candidates := Retried(candidates);
      } else {
        candidates := candidates + [Candidate(trace, 0)];
      }
    }
    assert ordered[..i] == ordered;
    CallsAreConserved(r, candidates, window);
    SortingKeepsRelevant(traces);
  }

  lemma {:induction false} RelevantPrefix(s: seq<Trace>, n: nat)
    requires n <= |s|
    ensures Relevant(s[..n]) <= Relevant(s)
    decreases |s|
  {
    if n < |s| {
      RelevantPrefix(s[..|s| - 1], n);
      assert s[..|s| - 1][..n] == s[..n];
    } else {
      assert s[..n] == s;
    }
  }

  /** Reading one more call adds it to the relevant ones exactly when it needs review. */
  lemma RelevantNext(s: seq<Trace>, i: nat, n: nat)
    requires i < |s| && n <= |Relevant(s)| && Relevant(s)[..n] == Relevant(s[..i])
    ensures !NeedsRecovery(s[i]) ==> Relevant(s)[..n] == Relevant(s[..i + 1])
    ensures NeedsRecovery(s[i]) ==>
              n < |Relevant(s)| && Relevant(s)[n] == s[i] && Relevant(s)[..n + 1] == Relevant(s[..i + 1])
  {
    assert s[..i + 1][..i] == s[..i];
    RelevantPrefix(s, i + 1);
    var next := Relevant(s[..i + 1]);
    assert next == Relevant(s[..i]) + (if NeedsRecovery(s[i]) then [s[i]] else []);
    assert |Relevant(s[..i])| == n;
    assert Relevant(s)[..|next|] == next;
    if NeedsRecovery(s[i]) {
      assert next[n] == s[i];
    }
  }

  // ---- conservation ---------------------------------------------------------------------------

  /** The sum of 1 + repeat_attempts over the candidates. */
  function Calls(candidates: seq<Candidate>): nat {
    if candidates == [] then 0
    else Calls(candidates[..|candidates| - 1]) + 1 + candidates[|candidates| - 1].repeatAttempts
  }

  lemma {:induction false} CallsOfPrefix(candidates: seq<Candidate>, r: seq<Trace>, n: nat, window: int, k: nat)
    requires n <= |r| && Represents(candidates, r, n, window) && k <= |candidates|
    ensures var o := Openings(r, n, window);
            Calls(candidates[..k]) == if k < |o| then o[k] else n
  {
    if k > 0 {
      CallsOfPrefix(candidates, r, n, window, k - 1);
      assert candidates[..k][..k - 1] == candidates[..k - 1];
      var o := Openings(r, n, window);
      assert StandsFor(candidates[k - 1], r, o[k - 1], Until(o, k - 1, n));
    }
  }

  lemma {:induction false} RelevantMultiset(s: seq<Trace>, t: Trace)
    ensures multiset(Relevant(s))[t] == if NeedsRecovery(t) then multiset(s)[t] else 0
  {
    if s != [] {
      assert s == s[..|s| - 1] + [s[|s| - 1]];
      RelevantMultiset(s[..|s| - 1], t);
    }
  }

  /** Sorting neither loses nor adds a call that needs review. */
  lemma SortingKeepsRelevant(s: seq<Trace>)
    ensures |Relevant(Sorted(s))| == |Relevant(s)|
  {
    forall t ensures multiset(Relevant(Sorted(s)))[t] == multiset(Relevant(s))[t] {
      RelevantMultiset(s, t);
      RelevantMultiset(Sorted(s), t);
      SortedKeepsCalls(s);
    }
    assert multiset(Relevant(Sorted(s))) == multiset(Relevant(s));
    assert |multiset(Relevant(Sorted(s)))| == |Relevant(Sorted(s))|;
  }

  /** No call is lost or counted twice: the candidates and their repeats add up to the calls. */
  lemma CallsAreConserved(r: seq<Trace>, candidates: seq<Candidate>, window: int)
    requires Represents(candidates, r, |r|, window)
    ensures Calls(candidates) == |r|
  {
    CallsOfPrefix(candidates, r, |r|, window, |candidates|);
    assert candidates[..|candidates|] == candidates;
  }

  // ---- which calls are folded -----------------------------------------------------------------------

  /** Calls are reviewed unless they could not be routed, have no contact, went well, still go on or went out. */
  lemma ReviewedIff(t: Trace)
    ensures !NeedsRecovery(t) <==>
              match t.disposition
              case Unroutable => true
              case NoContact => true
              case InquiryOpen => true
              case CaseOpened => true
              case Active => true
              case OutboundSkipped => true
              case _ => false
  {
  }

  predicate SameCaller(a: Trace, b: Trace) {
    a.tenant == b.tenant && a.caller == b.caller
  }

  /** Call j is the caller's previous one before call i. */
  predicate IsPrevious(r: seq<Trace>, i: nat, j: nat)
    requires i < |r|
  {
    j < i && SameCaller(r[j], r[i]) && forall k :: j < k < i ==> !SameCaller(r[k], r[i])
  }

  /** A call is a repeat exactly when the caller's previous call is there and lies at most a window back. */
  lemma RepeatIff(r: seq<Trace>, i: nat, window: int)
    requires i < |r|
    ensures !Opens(r, i, window) <==> exists j: nat :: IsPrevious(r, i, j) && r[i].at <= r[j].at + window
  {
    var previous := LastOf(r, i, r[i].Key());
    if previous.Some? {
      assert IsPrevious(r, i, previous.value) by {
        forall k | previous.value < k < i ensures !SameCaller(r[k], r[i]) {
          assert r[k].Key() != r[i].Key();
        }
      }
    }
    forall j: nat | IsPrevious(r, i, j) ensures previous == Some(j) {
      assert r[j].Key() == r[i].Key();
    }
    if !Opens(r, i, window) {
      assert IsPrevious(r, i, previous.value) && r[i].at <= r[previous.value].at + window;
    }
  }

  // ---- whose candidate a repeat is added to -------------------------------------------------------

  lemma {:induction false} OpeningsAscend(r: seq<Trace>, n: nat, window: int, i: nat)
    requires i < n <= |r| && Opens(r, i, window)
    ensures var o := Openings(r, n, window); o != [] && i <= o[|o| - 1]
  {
    if i < n - 1 && !Opens(r, n - 1, window) {
      OpeningsAscend(r, n - 1, window, i);
    }
  }

  lemma LastOpeningIsLast(r: seq<Trace>, n: nat, window: int)
    requires 0 < n <= |r|
    ensures var o := Openings(r, n, window); o != [] && forall i: nat {:trigger Opens(r, i, window)} :: o[|o| - 1] < i < n ==> !Opens(r, i, window)
  {
  }

  /** The call whose candidate is last in the list when call i is read. */
  function CreditedTo(r: seq<Trace>, i: nat, window: int): (k: nat)
    requires 0 < i < |r|
    ensures k < i && Opens(r, k, window)
    ensures forall j {:trigger Opens(r, j, window)} :: k < j < i ==> !Opens(r, j, window)
  {
    LastOpeningIsLast(r, i, window);
    var o := Openings(r, i, window);
    assert o[|o| - 1] in o;
    o[|o| - 1]
  }

  /** The latest opening by the caller of call i itself. */
  lemma {:induction false} OwnOpening(r: seq<Trace>, i: nat, window: int) returns (own: nat)
    requires i < |r| && !Opens(r, i, window)
    ensures own < i && r[own].Key() == r[i].Key() && Opens(r, own, window)
    ensures forall j {:trigger Opens(r, j, window)} :: own < j < i && r[j].Key() == r[i].Key() ==> !Opens(r, j, window)
  {
    var previous := LastOf(r, i, r[i].Key()).value;
    if Opens(r, previous, window) {
      own := previous;
    } else {
      own := OwnOpening(r, previous, window);
    }
  }

  /** A repeat is added to a candidate of its own caller exactly when nobody has opened a candidate
      since that caller last did. */
  lemma RepeatAttribution(r: seq<Trace>, i: nat, window: int) returns (own: nat)
    requires i < |r| && !Opens(r, i, window)
    ensures own < i && r[own].Key() == r[i].Key() && Opens(r, own, window)
    ensures i > 0 && (r[CreditedTo(r, i, window)].Key() == r[i].Key()
                      <==> forall j {:trigger Opens(r, j, window)} :: own < j < i ==> !Opens(r, j, window))
  {
    own := OwnOpening(r, i, window);
    CreditIsOwnIff(r, i, window, own);
  }

  lemma CreditIsOwnIff(r: seq<Trace>, i: nat, window: int, own: nat)
    requires own < i < |r| && Opens(r, own, window) && r[own].Key() == r[i].Key()
    requires forall j {:trigger Opens(r, j, window)} :: own < j < i && r[j].Key() == r[i].Key() ==> !Opens(r, j, window)
    ensures r[CreditedTo(r, i, window)].Key() == r[i].Key() <==> forall j {:trigger Opens(r, j, window)} :: own < j < i ==> !Opens(r, j, window)
  {
  }

  /** Two callers taking turns: the retry of the first is added to the candidate of the second. */
  lemma RepeatCreditedToAnotherCaller()
    ensures exists r: seq<Trace>, i: nat, window: int :: 0 < i < |r| && window > 0 && !Opens(r, i, window)
              && r[CreditedTo(r, i, window)].Key() != r[i].Key()
  {
    var a := Trace("1", None, "a", 0, 0, NotAdmitted);
    var b := Trace("2", None, "b", 1, 1, NotAdmitted);
    var r := [a, b, a.(stamp := 2, at := 2)];
    var window := 1_800_000_000;
    assert LastOf(r, 2, r[2].Key()) == LastOf(r, 1, r[2].Key()) == Some(0);
    assert LastOf(r, 1, r[1].Key()) == LastOf(r, 0, r[1].Key()) == None;
    assert Opens(r, 1, window) && !Opens(r, 2, window);
    assert CreditedTo(r, 2, window) == 1;
  }
}
