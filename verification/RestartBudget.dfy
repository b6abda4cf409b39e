/** The bounded container recovery of scripts/recover_unhealthy.py.

    The state file keeps, for every service, the clock readings of recent restart attempts.  A run
    reads the clock once, may be cut off at any point, and writes the file before it restarts. */
module RestartBudget {

  const COOLDOWN_SECONDS := 300
  const WINDOW_SECONDS := 900
  const MAX_RESTARTS := 2

  /** `sorted(SERVICES)`. */
  const SERVICES := ["caddy", "messaging-worker", "web"]

  datatype Container = Container(status: string, health: string)

  /** What one run sees of the outside world; an unknown service has no container. */
  datatype Surroundings = Surroundings(database: Container, schemaMatches: bool, containers: map<string, Container>)
  {
    predicate Compatible() {
      database.status == "running" && database.health == "healthy" && schemaMatches
    }

    function Inspect(service: string): Container {
      if service in containers then containers[service] else Container("", "")
    }
  }

  type History = seq<int>

  function Get<T>(state: map<string, seq<T>>, service: string): seq<T> {
    if service in state then state[service] else []
  }

  /** `[value for value in attempts if now - WINDOW_SECONDS <= value <= now]`. */
  function Recent(attempts: History, now: int): History {
    if attempts == [] then []
    else
      var last := attempts[|attempts| - 1];
      Recent(attempts[..|attempts| - 1], now) + (if now - WINDOW_SECONDS <= last <= now then [last] else [])
  }

  predicate AnyAfter(attempts: History, now: int) {
    exists i :: 0 <= i < |attempts| && attempts[i] > now
  }

  predicate Eligible(service: string, container: Container, attempts: History, now: int) {
    var recent := Recent(attempts, now);
    && service in SERVICES
    && container.status == "running"
    && container.health == "unhealthy"
    && |recent| < MAX_RESTARTS
    && !AnyAfter(recent, now - COOLDOWN_SECONDS)
    && !AnyAfter(attempts, now)
  }

  /** `validate_state` raises for anything else. */
  predicate ValidState(state: map<string, History>, now: int) {
    forall s :: s in state ==> s in SERVICES && forall i :: 0 <= i < |state[s]| ==> 0 <= state[s][i] <= now
  }

  /** `[value for value in attempts if value >= now - WINDOW_SECONDS]`. */
  function Prune(attempts: History, now: int): (r: History)
    ensures forall i :: 0 <= i < |r| ==> r[i] >= now - WINDOW_SECONDS
  {
    if attempts == [] then []
    else
      var last := attempts[|attempts| - 1];
      Prune(attempts[..|attempts| - 1], now) + (if last >= now - WINDOW_SECONDS then [last] else [])
  }

  /** An attempt charged to a service; it is cut off unless its restart command is issued. */
  datatype Attempt = Attempt(at: int, restarted: bool)

  function Times(attempts: seq<Attempt>): (r: History)
    ensures |r| == |attempts| && forall i :: 0 <= i < |r| ==> r[i] == attempts[i].at
  {
    seq(|attempts|, i requires 0 <= i < |attempts| => attempts[i].at)
  }

  /** The state file, and every attempt ever charged to a service. */
  datatype Host = Host(file: map<string, History>, charged: map<string, seq<Attempt>>)

  const FRESH := Host(map[], map[])

  /** The state file is replaced; from here on the attempt counts. */
  function Charge(h: Host, service: string, now: int): Host {
    Host(h.file[service := Prune(Get(h.file, service), now) + [now]],
         h.charged[service := Get(h.charged, service) + [Attempt(now, false)]])
  }

  /** The restart command is issued for the attempt charged last. */
  function Restart(h: Host, service: string): Host
    requires Get(h.charged, service) != []
  {
    var all := h.charged[service];
    h.(charged := h.charged[service := all[..|all| - 1] + [all[|all| - 1].(restarted := true)]])
  }

  predicate Chosen(h: Host, service: string, now: int, seen: Surroundings) {
    && (service == "caddy" || seen.Compatible())
    && Eligible(service, seen.Inspect(service), Get(h.file, service), now)
  }

  /** One turn of the loop in a run that is cut off after `steps` file replacements and restart
      commands: the host, the steps that are left, and whether the run goes on. */
  function Turn(h: Host, service: string, now: int, seen: Surroundings, steps: nat): (Host, nat, bool) {
    if !Chosen(h, service, now, seen) then (h, steps, true)
    else if steps == 0 then (h, 0, false)
    else if steps == 1 then (Charge(h, service, now), 0, false)
    else (Restart(Charge(h, service, now), service), steps - 2, true)
  }

  function RecoverServices(services: seq<string>, h: Host, now: int, seen: Surroundings, steps: nat): Host {
    if services == [] then h
    else
      var (after, left, goesOn) := Turn(h, services[0], now, seen, steps);
      if goesOn then RecoverServices(services[1..], after, now, seen, left) else after
  }

  /** One invocation.  Without `--apply`, or with a state file that is not valid, nothing happens. */
  datatype Invocation = Invocation(now: int, seen: Surroundings, apply: bool, steps: nat)

  function Recovered(h: Host, run: Invocation): Host {
    if !run.apply || !ValidState(h.file, run.now) then h
    else RecoverServices(SERVICES, h, run.now, run.seen, run.steps)
  }

  function RecoverAll(h: Host, runs: seq<Invocation>): Host
    decreases |runs|
  {
    if runs == [] then h else RecoverAll(Recovered(h, runs[0]), runs[1..])
  }

  // ---- histories ----------------------------------------------------------------------------------

  /** Attempts are at least a cooldown apart and any three of them span more than a window. */
  ghost predicate Bounded(a: History) {
    && (forall i, j :: 0 <= i < j < |a| ==> a[j] - a[i] >= COOLDOWN_SECONDS)
    && (forall i, k :: 0 <= i && i + 1 < k < |a| ==> a[k] - a[i] > WINDOW_SECONDS)
  }

  /** `kept` is `all` without some attempts that lie more than a window before the last one. */
  ghost predicate PrunedAt(kept: History, all: History, m: nat) {
    && m <= |all| && kept == all[m..]
    && (m > 0 ==> m < |all|)
    && (forall i :: 0 <= i < m ==> all[i] < all[|all| - 1] - WINDOW_SECONDS)
  }

  ghost predicate PrunedFrom(kept: History, all: History) {
    exists m: nat :: PrunedAt(kept, all, m)
  }

  lemma {:induction false} RecentIgnoresOld(all: History, m: nat, now: int)
    requires m <= |all| && forall i :: 0 <= i < m ==> all[i] < now - WINDOW_SECONDS
    ensures Recent(all[m..], now) == Recent(all, now)
    decreases |all|
  {
    if all == [] {
      assert all[m..] == all;
    } else if m == |all| {
      assert all[m..] == [];
      var front := all[..|all| - 1];
      RecentIgnoresOld(front, m - 1, now);
      assert front[m - 1..] == [];
    } else {
      RecentIgnoresOld(all[..|all| - 1], m, now);
      assert all[m..][..|all[m..]| - 1] == all[..|all| - 1][m..];
    }
  }

  /** The pruned history decides exactly as the full history would. */
  lemma PruningKeepsDecisions(service: string, container: Container, kept: History, all: History, now: int)
    requires Bounded(all) && PrunedFrom(kept, all)
    ensures Eligible(service, container, kept, now) <==> Eligible(service, container, all, now)
  {
    var m: nat :| PrunedAt(kept, all, m);
    if m == 0 {
      assert kept == all;
    } else if all[|all| - 1] <= now {
      RecentIgnoresOld(all, m, now);
      NothingAfterLast(all, now);
      NothingAfterLast(kept, now);
    } else {
      assert kept[|kept| - 1] > now;
    }
  }

  lemma NothingAfterLast(a: History, now: int)
    requires a != [] && a[|a| - 1] <= now
    requires forall i, j :: 0 <= i < j < |a| ==> a[j] - a[i] >= COOLDOWN_SECONDS
    ensures !AnyAfter(a, now)
  {
  }

  /** What an eligible service's history looks like. */
  lemma EligibleMeans(service: string, container: Container, all: History, now: int)
    requires Bounded(all) && Eligible(service, container, all, now)
    ensures |all| >= 1 ==> now - all[|all| - 1] >= COOLDOWN_SECONDS
    ensures |all| >= 2 ==> now - all[|all| - 2] > WINDOW_SECONDS
  {
    if |all| >= 2 {
      RecentEndsWith(all, now);
    } else if |all| == 1 {
      assert all[..0] == [];
      var recent := Recent(all, now);
      assert recent == Recent([], now) + (if now - WINDOW_SECONDS <= all[0] <= now then [all[0]] else []);
      assert recent == [] || recent[0] == all[0];
    }
  }

  lemma RecentEndsWith(all: History, now: int)
    requires |all| >= 2
    ensures var x, y := all[|all| - 2], all[|all| - 1];
            Recent(all, now) == Recent(all[..|all| - 2], now)
                                + (if now - WINDOW_SECONDS <= x <= now then [x] else [])
                                + (if now - WINDOW_SECONDS <= y <= now then [y] else [])
  {
    assert all[..|all| - 1][..|all| - 2] == all[..|all| - 2];
  }

  lemma ChargeIsBounded(service: string, container: Container, all: History, now: int)
    requires Bounded(all) && Eligible(service, container, all, now)
    ensures Bounded(all + [now])
  {
    EligibleMeans(service, container, all, now);
    var n := |all|;
    forall i | 0 <= i < n ensures now - all[i] >= COOLDOWN_SECONDS {
      assert all[n - 1] >= all[i];
    }
    forall i | 0 <= i < n - 1 ensures now - all[i] > WINDOW_SECONDS {
      assert all[n - 2] >= all[i];
    }
  }

  predicate Ascending(a: History) {
    forall i, j :: 0 <= i < j < |a| ==> a[i] <= a[j]
  }

  lemma {:induction false} PruneDropsAll(kept: History, now: int)
    requires forall i :: 0 <= i < |kept| ==> kept[i] < now - WINDOW_SECONDS
    ensures Prune(kept, now) == []
  {
    if kept != [] {
      PruneDropsAll(kept[..|kept| - 1], now);
    }
  }

  lemma DropKeepsLast(a: History, m: nat)
    requires m < |a|
    ensures a[m..] == a[..|a| - 1][m..] + [a[|a| - 1]]
  {
  }

  lemma AllBelowLast(a: History, i: nat)
    requires Ascending(a) && i < |a|
    ensures a[i] <= a[|a| - 1]
  {
  }

  lemma {:induction false} PruneDropsFront(kept: History, now: int) returns (m: nat)
    requires Ascending(kept)
    ensures m <= |kept| && Prune(kept, now) == kept[m..]
    ensures forall i :: 0 <= i < m ==> kept[i] < now - WINDOW_SECONDS
  {
    m := |kept|;
    if kept == [] {
    } else if kept[|kept| - 1] >= now - WINDOW_SECONDS {
      m := PruneDropsFront(kept[..|kept| - 1], now);
      DropKeepsLast(kept, m);
    } else {
      forall i | 0 <= i < |kept| ensures kept[i] < now - WINDOW_SECONDS {
        AllBelowLast(kept, i);
      }
      PruneDropsAll(kept, now);
    }
  }

  lemma PrunedFurther(all: History, m: nat, d: nat, now: int)
    requires m + d <= |all|
    requires forall i :: 0 <= i < m + d ==> all[i] < now - WINDOW_SECONDS
    ensures PrunedAt(all[m..][d..] + [now], all + [now], m + d)
  {
  }

  lemma KeptAscends(all: History, m: nat)
    requires Bounded(all) && m <= |all|
    ensures Ascending(all[m..])
  {
  }

  lemma ChargeIsPruned(kept: History, all: History, now: int)
    requires Bounded(all) && PrunedFrom(kept, all) && !AnyAfter(all, now)
    ensures PrunedFrom(Prune(kept, now) + [now], all + [now])
  {
    var m: nat :| PrunedAt(kept, all, m);
    KeptAscends(all, m);
    var d := PruneDropsFront(kept, now);
    forall i | 0 <= i < m + d ensures all[i] < now - WINDOW_SECONDS {
      if i < m {
        assert all[|all| - 1] <= now;
      } else {
        assert all[i] == kept[i - m];
      }
    }
    PrunedFurther(all, m, d, now);
  }

  // ---- what every run keeps -----------------------------------------------------------------------

  ghost predicate ServiceAccounted(h: Host, service: string) {
    && Bounded(Times(Get(h.charged, service)))
    && PrunedFrom(Get(h.file, service), Times(Get(h.charged, service)))
  }

  ghost predicate Accounted(h: Host) {
    forall s :: ServiceAccounted(h, s)
  }

  lemma ChargeKeepsHistory(service: string, container: Container, kept: History, all: History, now: int)
    requires Bounded(all) && PrunedFrom(kept, all) && Eligible(service, container, kept, now)
    ensures Bounded(all + [now]) && PrunedFrom(Prune(kept, now) + [now], all + [now])
  {
    PruningKeepsDecisions(service, container, kept, all, now);
    ChargeIsBounded(service, container, all, now);
    ChargeIsPruned(kept, all, now);
  }

  lemma ChargeTimes(h: Host, service: string, now: int, s: string)
    ensures var c := Charge(h, service, now);
            && Get(c.file, s) == (if s == service then Prune(Get(h.file, s), now) + [now] else Get(h.file, s))
            && Times(Get(c.charged, s)) == (if s == service then Times(Get(h.charged, s)) + [now] else Times(Get(h.charged, s)))
  {
  }

  lemma RestartTimes(h: Host, service: string, s: string)
    requires Get(h.charged, service) != []
    ensures Get(Restart(h, service).file, s) == Get(h.file, s)
    ensures Times(Get(Restart(h, service).charged, s)) == Times(Get(h.charged, s))
  {
  }

  lemma ChargeKeepsAccounts(h: Host, service: string, now: int, container: Container)
    requires Accounted(h) && Eligible(service, container, Get(h.file, service), now)
    ensures Accounted(Charge(h, service, now))
  {
    var c := Charge(h, service, now);
    forall s ensures ServiceAccounted(c, s) {
      assert ServiceAccounted(h, s);
      ChargeTimes(h, service, now, s);
      if s == service {
        ChargeKeepsHistory(s, container, Get(h.file, s), Times(Get(h.charged, s)), now);
      }
    }
  }

  lemma RestartKeepsAccounts(h: Host, service: string)
    requires Accounted(h) && Get(h.charged, service) != []
    ensures Accounted(Restart(h, service))
  {
    var r := Restart(h, service);
    forall s ensures ServiceAccounted(r, s) {
      assert ServiceAccounted(h, s);
      RestartTimes(h, service, s);
    }
  }

  lemma TurnKeepsAccounts(h: Host, service: string, now: int, seen: Surroundings, steps: nat)
    requires Accounted(h)
    ensures Accounted(Turn(h, service, now, seen, steps).0)
  {
    if Chosen(h, service, now, seen) {
      ChargeKeepsAccounts(h, service, now, seen.Inspect(service));
      RestartKeepsAccounts(Charge(h, service, now), service);
    }
  }

  lemma {:induction false} ServicesKeepAccounts(services: seq<string>, h: Host, now: int, seen: Surroundings, steps: nat)
    requires Accounted(h)
    ensures Accounted(RecoverServices(services, h, now, seen, steps))
  {
    if services != [] {
      TurnKeepsAccounts(h, services[0], now, seen, steps);
      var (after, left, goesOn) := Turn(h, services[0], now, seen, steps);
      if goesOn {
        ServicesKeepAccounts(services[1..], after, now, seen, left);
      }
    }
  }

  lemma {:induction false} RunsKeepAccounts(h: Host, runs: seq<Invocation>)
    requires Accounted(h)
    ensures Accounted(RecoverAll(h, runs))
    decreases |runs|
  {
    if runs != [] {
      ServicesKeepAccounts(SERVICES, h, runs[0].now, runs[0].seen, runs[0].steps);
      RunsKeepAccounts(Recovered(h, runs[0]), runs[1..]);
    }
  }

  lemma FreshHostIsAccounted()
    ensures Accounted(FRESH)
  {
    forall s ensures ServiceAccounted(FRESH, s) {
      assert PrunedAt([], [], 0);
    }
  }

  /** The number of restarts issued with a clock reading in the closed interval. */
  function Restarts(all: seq<Attempt>, from: int, to: int): (r: nat)
    ensures r <= |all|
  {
    if all == [] then 0
    else
      var last := all[|all| - 1];
      Restarts(all[..|all| - 1], from, to) + (if last.restarted && from <= last.at <= to then 1 else 0)
  }

  lemma {:induction false} NoRestartsBefore(all: seq<Attempt>, from: int, to: int)
    requires forall i :: 0 <= i < |all| ==> all[i].at < from
    ensures Restarts(all, from, to) == 0
  {
    if all != [] {
      NoRestartsBefore(all[..|all| - 1], from, to);
    }
  }

  lemma {:induction false} AtMostTwo(all: seq<Attempt>, from: int)
    requires Bounded(Times(all))
    ensures Restarts(all, from, from + WINDOW_SECONDS) <= MAX_RESTARTS
  {
    var to := from + WINDOW_SECONDS;
    var times := Times(all);
    if |all| > 2 {
      var n := |all| - 1;
      var front := all[..n];
      assert forall i :: 0 <= i < n ==> Times(front)[i] == times[i];
      AtMostTwo(front, from);
      if all[n].at <= to {
        forall i | 0 <= i < n - 1 ensures all[i].at < from {
          assert times[n] - times[i] > WINDOW_SECONDS;
        }
        assert front[..n - 1] == all[..n - 1];
        NoRestartsBefore(front[..n - 1], from, to);
      }
    }
  }

  /** Whatever the clock shows and wherever runs are cut off: successive restarts of a service are
      at least 300 seconds apart and no closed interval of 900 seconds holds more than two.  A restart counts
      with the clock reading of its invocation, which is taken before the loop; the command may come later. */
  lemma RestartsAreBounded(runs: seq<Invocation>, service: string, from: int)
    ensures var all := Get(RecoverAll(FRESH, runs).charged, service);
            && Restarts(all, from, from + WINDOW_SECONDS) <= MAX_RESTARTS
            && (forall i, j :: 0 <= i < j < |all| ==> all[j].at - all[i].at >= COOLDOWN_SECONDS)
  {
    FreshHostIsAccounted();
    RunsKeepAccounts(FRESH, runs);
    var h := RecoverAll(FRESH, runs);
    assert ServiceAccounted(h, service);
    var all := Get(h.charged, service);
    AtMostTwo(all, from);
    forall i, j | 0 <= i < j < |all| ensures all[j].at - all[i].at >= COOLDOWN_SECONDS {
      assert Times(all)[j] - Times(all)[i] >= COOLDOWN_SECONDS;
    }
  }

  // ---- what an invocation restarts ------------------------------------------------------------------

  lemma {:induction false} RecentHas(a: History, now: int, value: int)
    ensures value in Recent(a, now) <==> value in a && now - 900 <= value <= now
  {
    if a != [] {
      RecentHas(a[..|a| - 1], now, value);
      assert a == a[..|a| - 1] + [a[|a| - 1]];
    }
  }

  /** Two attempts that both lie in the last 900 seconds. */
  predicate Crowded(a: History, i: nat, j: nat, now: int) {
    i < j < |a| && a[i] >= now - 900 && a[j] >= now - 900
  }

  lemma {:induction false} FewRecentIff(a: History, now: int)
    requires forall i :: 0 <= i < |a| ==> a[i] <= now
    ensures |Recent(a, now)| < 2 <==> forall i, j :: !Crowded(a, i, j, now)
  {
    if a != [] {
      var n := |a| - 1;
      FewRecentIff(a[..n], now);
      if a[n] < now - 900 {
        forall i, j ensures Crowded(a, i, j, now) <==> Crowded(a[..n], i, j, now) {
        }
      } else if Recent(a[..n], now) == [] {
        forall i | 0 <= i < n ensures a[i] < now - 900 {
          RecentHas(a[..n], now, a[i]);
          assert a[..n][i] == a[i];
        }
      } else {
        var value := Recent(a[..n], now)[0];
        RecentHas(a[..n], now, value);
        var i :| 0 <= i < n && a[..n][i] == value;
        assert Crowded(a, i, n, now);
      }
    }
  }

  lemma RecentAfterIff(a: History, now: int, since: int)
    requires forall i :: 0 <= i < |a| ==> a[i] <= now
    requires since >= now - 900
    ensures AnyAfter(Recent(a, now), since) <==> exists i :: 0 <= i < |a| && a[i] > since
  {
    var recent := Recent(a, now);
    if i :| 0 <= i < |recent| && recent[i] > since {
      RecentHas(a, now, recent[i]);
    }
    if i :| 0 <= i < |a| && a[i] > since {
      RecentHas(a, now, a[i]);
    }
  }

  /** Attempts leave room for another: the last ones are 300 seconds back, and no two lie in the last 900. */
  predicate Room(a: History, now: int) {
    (forall i :: 0 <= i < |a| ==> a[i] <= now - 300) && forall i, j :: 0 <= i < j < |a| ==> !Crowded(a, i, j, now)
  }

  lemma EligibleIff(service: string, container: Container, a: History, now: int)
    ensures Eligible(service, container, a, now) <==>
              service in {"caddy", "messaging-worker", "web"} && container == Container("running", "unhealthy") && Room(a, now)
  {
    if !AnyAfter(a, now) {
      FewRecentIff(a, now);
      RecentAfterIff(a, now, now - COOLDOWN_SECONDS);
    } else {
      var i :| 0 <= i < |a| && a[i] > now;
      assert !Room(a, now);
    }
  }

  /** The service may be acted on, it is unhealthy, and its attempts on file leave room. */
  predicate Due(h: Host, service: string, now: int, seen: Surroundings) {
    && (service == "caddy" || (service in {"messaging-worker", "web"}
                               && seen.database == Container("running", "healthy") && seen.schemaMatches))
    && service in seen.containers && seen.containers[service] == Container("running", "unhealthy")
    && Room(Get(h.file, service), now)
  }

  lemma DueIff(h: Host, service: string, now: int, seen: Surroundings)
    ensures Chosen(h, service, now, seen) <==> Due(h, service, now, seen)
  {
    EligibleIff(service, seen.Inspect(service), Get(h.file, service), now);
  }

  /** The times on file that are at most a window old are kept, as often as they are there. */
  lemma {:induction false} PruneKeepsRecent(a: History, now: int, value: int)
    ensures multiset(Prune(a, now))[value] == if value >= now - 900 then multiset(a)[value] else 0
  {
    if a != [] {
      assert a == a[..|a| - 1] + [a[|a| - 1]];
      PruneKeepsRecent(a[..|a| - 1], now, value);
    }
  }

  /** The service is restarted, or charged and cut off before its restart, or left alone. */
  predicate Treated(h: Host, after: Host, service: string, now: int, left: int) {
    && Get(after.charged, service) == Get(h.charged, service) + (if left >= 1 then [Attempt(now, left >= 2)] else [])
    && Get(after.file, service) == if left >= 1 then Prune(Get(h.file, service), now) + [now] else Get(h.file, service)
  }

  lemma TurnEffect(h: Host, service: string, now: int, seen: Surroundings, steps: nat, s: string)
    ensures var (after, left, goesOn) := Turn(h, service, now, seen, steps);
            && Treated(h, after, s, now, if s == service && Due(h, s, now, seen) then steps else 0)
            && left == (if !Due(h, service, now, seen) then steps else if steps < 2 then 0 else steps - 2)
            && (goesOn <==> Due(h, service, now, seen) ==> steps >= 2)
  {
    DueIff(h, service, now, seen);
    ChargeEffect(h, service, now, s);
  }

  lemma ChargeEffect(h: Host, service: string, now: int, s: string)
    ensures Treated(h, Charge(h, service, now), s, now, if s == service then 1 else 0)
    ensures Treated(h, Restart(Charge(h, service, now), service), s, now, if s == service then 2 else 0)
  {
    var all := Get(h.charged, service) + [Attempt(now, false)];
    assert Get(Charge(h, service, now).charged, service) == all;
    assert all[..|all| - 1] == Get(h.charged, service);
  }

  /** The number of due services. */
  function DueAmong(services: seq<string>, h: Host, now: int, seen: Surroundings): nat {
    if services == [] then 0 else (if Due(h, services[0], now, seen) then 1 else 0) + DueAmong(services[1..], h, now, seen)
  }

  lemma {:induction false} DueStays(services: seq<string>, h: Host, after: Host, now: int, seen: Surroundings)
    requires forall s :: s in services ==> Get(after.file, s) == Get(h.file, s)
    ensures DueAmong(services, after, now, seen) == DueAmong(services, h, now, seen)
  {
    if services != [] {
      DueStays(services[1..], h, after, now, seen);
    }
  }

  predicate Different(services: seq<string>) {
    forall i, j :: 0 <= i < j < |services| ==> services[i] != services[j]
  }

  lemma {:induction false} OthersUntouched(services: seq<string>, h: Host, now: int, seen: Surroundings, steps: nat, s: string)
    requires s !in services
    ensures Treated(h, RecoverServices(services, h, now, seen, steps), s, now, 0)
  {
    if services != [] {
      TurnEffect(h, services[0], now, seen, steps, s);
      var (after, left, goesOn) := Turn(h, services[0], now, seen, steps);
      if goesOn {
        OthersUntouched(services[1..], after, now, seen, left, s);
      }
    }
  }

  lemma FirstCounts(services: seq<string>, i: nat, h: Host, now: int, seen: Surroundings)
    requires 0 < i <= |services|
    ensures DueAmong(services[..i], h, now, seen)
            == (if Due(h, services[0], now, seen) then 1 else 0) + DueAmong(services[1..][..i - 1], h, now, seen)
  {
    assert services[..i][1..] == services[1..][..i - 1];
  }

  lemma OthersStayDue(services: seq<string>, h: Host, service: string, now: int, seen: Surroundings, steps: nat)
    requires service !in services
    ensures DueAmong(services, Turn(h, service, now, seen, steps).0, now, seen) == DueAmong(services, h, now, seen)
  {
    var after := Turn(h, service, now, seen, steps).0;
    forall s | s in services ensures Get(after.file, s) == Get(h.file, s) {
      TurnEffect(h, service, now, seen, steps, s);
    }
    DueStays(services, h, after, now, seen);
  }

  /** What is left of the steps for the i-th service. */
  function LeftFor(services: seq<string>, h: Host, now: int, seen: Surroundings, steps: nat, i: nat): int
    requires i < |services|
  {
    if Due(h, services[i], now, seen) then steps - 2 * DueAmong(services[..i], h, now, seen) else 0
  }

  lemma LeftForLater(services: seq<string>, h: Host, now: int, seen: Surroundings, steps: nat, i: nat)
    requires Different(services) && 0 < i < |services|
    ensures var (after, left, goesOn) := Turn(h, services[0], now, seen, steps);
            if goesOn then LeftFor(services, h, now, seen, steps, i) == LeftFor(services[1..], after, now, seen, left, i - 1)
            else LeftFor(services, h, now, seen, steps, i) <= 0
  {
    FirstCounts(services, i, h, now, seen);
    OthersStayDue(services[1..][..i - 1], h, services[0], now, seen, steps);
    TurnEffect(h, services[0], now, seen, steps, services[i]);
  }

  lemma TreatedLater(h: Host, after: Host, end: Host, service: string, now: int, left: int)
    requires Treated(h, after, service, now, 0) && Treated(after, end, service, now, left)
    ensures Treated(h, end, service, now, left)
  {
  }

  lemma FirstEffect(services: seq<string>, h: Host, now: int, seen: Surroundings, steps: nat)
    requires Different(services) && services != []
    ensures Treated(h, RecoverServices(services, h, now, seen, steps), services[0], now, LeftFor(services, h, now, seen, steps, 0))
  {
    var (after, left, goesOn) := Turn(h, services[0], now, seen, steps);
    TurnEffect(h, services[0], now, seen, steps, services[0]);
    if goesOn {
      OthersUntouched(services[1..], after, now, seen, left, services[0]);
    }
  }

  lemma LaterEffect(services: seq<string>, h: Host, now: int, seen: Surroundings, steps: nat, i: nat)
    requires Different(services) && 0 < i < |services|
    requires var (after, left, goesOn) := Turn(h, services[0], now, seen, steps);
             goesOn ==> Treated(after, RecoverServices(services[1..], after, now, seen, left), services[i], now,
                                LeftFor(services[1..], after, now, seen, left, i - 1))
    ensures Treated(h, RecoverServices(services, h, now, seen, steps), services[i], now, LeftFor(services, h, now, seen, steps, i))
  {
    var (after, left, goesOn) := Turn(h, services[0], now, seen, steps);
    TurnEffect(h, services[0], now, seen, steps, services[i]);
    LeftForLater(services, h, now, seen, steps, i);
    if goesOn {
      TreatedLater(h, after, RecoverServices(services[1..], after, now, seen, left), services[i], now,
                   LeftFor(services, h, now, seen, steps, i));
    }
  }

  /** The i-th service gets what the due ones before it leave of the steps. */
  lemma {:induction false} ServicesEffect(services: seq<string>, h: Host, now: int, seen: Surroundings, steps: nat, i: nat)
    requires Different(services) && i < |services|
    ensures Treated(h, RecoverServices(services, h, now, seen, steps), services[i], now, LeftFor(services, h, now, seen, steps, i))
  {
    if i == 0 {
      FirstEffect(services, h, now, seen, steps);
    } else {
      var (after, left, _) := Turn(h, services[0], now, seen, steps);
      assert services[1..][i - 1] == services[i];
      ServicesEffect(services[1..], after, now, seen, left, i - 1);
      LaterEffect(services, h, now, seen, steps, i);
    }
  }

  /** What an invocation does to every service: with a file that names known services and no time that is negative
      or ahead of the clock, due services are restarted in order as far as the invocation gets, two steps each;
      a half-done last one is charged all the same.  Without `--apply`, or with another file, nothing happens. */
  lemma InvocationEffect(h: Host, run: Invocation, i: nat)
    requires i < 3
    ensures var order := ["caddy", "messaging-worker", "web"];
            var valid := forall s :: s in h.file ==> s in order && forall k :: 0 <= k < |h.file[s]| ==> 0 <= h.file[s][k] <= run.now;
            if run.apply && valid then
              Treated(h, Recovered(h, run), order[i], run.now, LeftFor(order, h, run.now, run.seen, run.steps, i))
            else Recovered(h, run) == h
  {
    if run.apply && ValidState(h.file, run.now) {
      assert SERVICES[0] != SERVICES[1] && SERVICES[1] != SERVICES[2] && SERVICES[0] != SERVICES[2];
      ServicesEffect(SERVICES, h, run.now, run.seen, run.steps, i);
    }
  }

  lemma RoomIff(a: History, now: int)
    requires Bounded(a)
    ensures Room(a, now) <==> (|a| >= 1 ==> now - a[|a| - 1] >= 300) && (|a| >= 2 ==> now - a[|a| - 2] > 900)
  {
    var n := |a|;
    if Room(a, now) && n >= 2 {
      assert !Crowded(a, n - 2, n - 1, now) && a[n - 2] <= a[n - 1];
    }
    if (n >= 1 ==> now - a[n - 1] >= 300) && (n >= 2 ==> now - a[n - 2] > 900) {
      forall i | 0 <= i < n ensures a[i] <= a[n - 1] {
        assert i < n - 1 ==> a[n - 1] - a[i] >= COOLDOWN_SECONDS;
      }
      forall i, j | 0 <= i < j < n ensures !Crowded(a, i, j, now) {
        assert i < n - 2 ==> a[n - 2] - a[i] >= COOLDOWN_SECONDS;
      }
    }
  }

  /** Whatever came before: an invocation that is not cut off and finds an unhealthy service it may act on restarts
      it exactly when its last attempt is at least 300 seconds and its last but one more than 900 seconds back. */
  lemma UnhealthyIsRestartedIff(runs: seq<Invocation>, run: Invocation, service: string)
    requires run.apply && run.steps >= 6 && ValidState(RecoverAll(FRESH, runs).file, run.now)
    requires service == "caddy" || (service in {"messaging-worker", "web"}
                                    && run.seen.database == Container("running", "healthy") && run.seen.schemaMatches)
    requires service in run.seen.containers && run.seen.containers[service] == Container("running", "unhealthy")
    ensures var all := Get(RecoverAll(FRESH, runs).charged, service);
            var n := |all|;
            Get(RecoverAll(FRESH, runs + [run]).charged, service) == all +
              if (n >= 1 ==> run.now - all[n - 1].at >= 300) && (n >= 2 ==> run.now - all[n - 2].at > 900)
              then [Attempt(run.now, true)] else []
  {
    var h := RecoverAll(FRESH, runs);
    RecoverAllOn(FRESH, runs, run);
    FreshHostIsAccounted();
    RunsKeepAccounts(FRESH, runs);
    assert ServiceAccounted(h, service);
    RestartedIff(h, run, service);
  }

  lemma RestartedIff(h: Host, run: Invocation, service: string)
    requires ServiceAccounted(h, service)
    requires run.apply && run.steps >= 6 && ValidState(h.file, run.now)
    requires service == "caddy" || (service in {"messaging-worker", "web"}
                                    && run.seen.database == Container("running", "healthy") && run.seen.schemaMatches)
    requires service in run.seen.containers && run.seen.containers[service] == Container("running", "unhealthy")
    ensures var all := Get(h.charged, service);
            var n := |all|;
            Get(Recovered(h, run).charged, service) == all +
              if (n >= 1 ==> run.now - all[n - 1].at >= 300) && (n >= 2 ==> run.now - all[n - 2].at > 900)
              then [Attempt(run.now, true)] else []
  {
    RoomOnFile(h, service, run.now);
    LastInvocation(h, run, service);
  }

  lemma RoomOnFile(h: Host, service: string, now: int)
    requires ServiceAccounted(h, service)
    ensures var all := Get(h.charged, service);
            Room(Get(h.file, service), now) <==>
              (|all| >= 1 ==> now - all[|all| - 1].at >= 300) && (|all| >= 2 ==> now - all[|all| - 2].at > 900)
  {
    RoomKept(Get(h.file, service), Times(Get(h.charged, service)), now);
    RoomIff(Times(Get(h.charged, service)), now);
  }

  lemma RoomKept(kept: History, all: History, now: int)
    requires Bounded(all) && PrunedFrom(kept, all)
    ensures Room(kept, now) <==> Room(all, now)
  {
    var container := Container("running", "unhealthy");
    PruningKeepsDecisions("web", container, kept, all, now);
    EligibleIff("web", container, kept, now);
    EligibleIff("web", container, all, now);
  }

  lemma LastInvocation(h: Host, run: Invocation, service: string)
    requires run.apply && run.steps >= 6 && ValidState(h.file, run.now)
    requires service in {"caddy", "messaging-worker", "web"}
    ensures Get(Recovered(h, run).charged, service)
            == Get(h.charged, service) + if Due(h, service, run.now, run.seen) then [Attempt(run.now, true)] else []
  {
    var i: nat := if service == "caddy" then 0 else if service == "messaging-worker" then 1 else 2;
    InvocationEffect(h, run, i);
    AtMostAll(["caddy", "messaging-worker", "web"][..i], h, run.now, run.seen);
  }

  lemma {:induction false} AtMostAll(services: seq<string>, h: Host, now: int, seen: Surroundings)
    ensures DueAmong(services, h, now, seen) <= |services|
  {
    if services != [] {
      AtMostAll(services[1..], h, now, seen);
    }
  }

  lemma {:induction false} RecoverAllOn(h: Host, runs: seq<Invocation>, run: Invocation)
    ensures RecoverAll(h, runs + [run]) == Recovered(RecoverAll(h, runs), run)
    decreases |runs|
  {
    if runs == [] {
      assert (runs + [run])[1..] == [];
    } else {
      RecoverAllOn(Recovered(h, runs[0]), runs[1..], run);
      assert (runs + [run])[1..] == runs[1..] + [run];
    }
  }

  // ---- the script -----------------------------------------------------------------------------------

  /** The host on which `recover` runs; `steps` says how far a run gets before it is cut off. */
  class RecoveryHost {
    var file: map<string, History>
    ghost var charged: map<string, seq<Attempt>>

    ghost function State(): Host
      reads this
    {
      Host(file, charged)
    }

    constructor ()
      ensures State() == FRESH && Accounted(State())
    {
      file, charged := map[], map[];
      FreshHostIsAccounted();
    }

    /** The file is replaced before the restart command is issued; a dry run only reports. */
    method TryService(service: string, now: int, seen: Surroundings, apply: bool, steps: nat) returns (left: nat, goesOn: bool)
      modifies this
      ensures apply ==> (State(), left, goesOn) == Turn(old(State()), service, now, seen, steps)
      ensures !apply ==> goesOn && State() == old(State())
    {
      var attempts := Get(file, service);
      left, goesOn := steps, true;
      if (service != "caddy" && !seen.Compatible()) || !Eligible(service, seen.Inspect(service), attempts, now) || !apply {
        return;
      }
      if steps == 0 {
        return 0, false;
      }
      file := file[service := Prune(attempts, now) + [now]];
      charged := charged[service := Get(charged, service) + [Attempt(now, false)]];
      if steps == 1 {
        return 0, false;
      }
      charged := Restart(State(), service).charged;
      left := steps - 2;
    }

    method Recover(now: int, seen: Surroundings, apply: bool, steps: nat)
      modifies this
      ensures State() == Recovered(old(State()), Invocation(now, seen, apply, steps))
    {
      if !ValidState(file, now) {
        return;
      }
      var left, goesOn := steps, true;
      var i := 0;
      while i < |SERVICES| && goesOn
        invariant 0 <= i <= |SERVICES|
        invariant !apply ==> State() == old(State())
        invariant apply ==> RecoverServices(SERVICES, old(State()), now, seen, steps)
                            == if goesOn then RecoverServices(SERVICES[i..], State(), now, seen, left) else State()
      {
        assert SERVICES[i..][0] == SERVICES[i] && SERVICES[i..][1..] == SERVICES[i + 1..];
        left, goesOn := TryService(SERVICES[i], now, seen, apply, left);
        i := i + 1;
      }
    }
  }
}
