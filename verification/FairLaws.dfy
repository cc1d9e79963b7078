/** What a scheduling pass serves and charges, said of the queues, plans and times alone; and what the
    ledgers hold over whole runs. */
module FairLaws {
  import opened Wrappers
  import opened Sums
  import Orders
  import opened JobModel
  import opened FairShare
  import opened FairRuns
  import opened FairSelect
  import opened FairClock

  // ---- Which step of a tenant is served ----

  /** `k` waits at place `i` of the queue, and nothing before it does. */
  ghost predicate FirstWaiting(q: Queue, ws: seq<Waiting>, k: StepRef, i: nat) {
    && i < |ws| && ws[i].Ref() == k && IsWaiting(q, k)
    && forall m | 0 <= m < i :: !IsWaiting(q, ws[m].Ref())
  }

  ghost predicate SomeWaits(q: Queue, ws: seq<Waiting>) { exists i | 0 <= i < |ws| :: IsWaiting(q, ws[i].Ref()) }

  /** `k` is the oldest waiting entry of the interactive queue; or, only if nothing there waits, of the
      background queue. */
  ghost predicate Serves(q: Queue, t: Tenant, k: StepRef, i: nat) {
    if SomeWaits(q, t.interactive) then FirstWaiting(q, t.interactive, k, i) else FirstWaiting(q, t.background, k, i)
  }

  /** The entry that is served. */
  function EntryServed(q: Queue, t: Tenant, i: nat, fromInteractive: bool): Waiting
    requires i < |if fromInteractive then t.interactive else t.background|
  {
    if fromInteractive then t.interactive[i] else t.background[i]
  }

  lemma LiveIsWaiting(q: Queue, w: Waiting)
    ensures LiveEntry(q.jobs, w) <==> IsWaiting(q, w.Ref())
  {
  }

  lemma {:induction false} DropsStalePrefix(q: Queue, ws: seq<Waiting>) returns (n: nat)
    ensures n <= |ws| && DropStale(q.jobs, ws) == ws[n..]
    ensures forall m | 0 <= m < n :: !IsWaiting(q, ws[m].Ref())
    ensures n < |ws| ==> IsWaiting(q, ws[n].Ref())
  {
    n := 0;
    if ws != [] {
      LiveIsWaiting(q, ws[0]);
      if !LiveEntry(q.jobs, ws[0]) {
        n := DropsStalePrefix(q, ws[1..]);
        n := n + 1;
      }
    }
  }

  /** One turn serves its tenant's oldest waiting entry, interactive before background. */
  lemma TurnServes(cfg: Config, now: Instant, a: Queue, o: Offer, b: Queue) returns (i: nat)
    requires Turned(cfg, now, a, o, b)
    ensures o.pick.tenant in a.tenants && Serves(a, a.tenants[o.pick.tenant], (o.job, o.step), i)
    ensures var t := a.tenants[o.pick.tenant];
      Head(Seen(a).tenants[o.pick.tenant]).value == EntryServed(a, t, i, SomeWaits(a, t.interactive))
  {
    var t := a.tenants[o.pick.tenant];
    var n := DropsStalePrefix(a, t.interactive);
    if n < |t.interactive| {
      i := n;
    } else {
      i := DropsStalePrefix(a, t.background);
    }
  }

  /** So over a whole pass: no background step is granted while an interactive step of its tenant waits, and
      within each class the longest queued goes first. */
  lemma SelectServesOldestFirst(cfg: Config, q: Queue, now: Instant, budget: nat, qs: seq<Queue>, end: Queue,
                                offers: seq<Offer>, n: nat) returns (i: nat)
    requires Selects(cfg, q, now, budget, qs, end, offers) && n < |offers|
    ensures var o, a := offers[n], qs[n];
      o.pick.tenant in a.tenants && Serves(a, a.tenants[o.pick.tenant], (o.job, o.step), i)
  {
    assert TurnAt(cfg, now, qs, offers, n);
    i := TurnServes(cfg, now, qs[n], offers[n], qs[n + 1]);
  }

  /** A step enters at the tail of its own class's queue, and no other queue changes. */
  lemma EntersItsClass(cfg: Config, q: Queue, j: JobId, s: StepId, name: string, t: TenantId)
    requires j in q.jobs && PlacementOf(q, (j, s)).None?
    ensures var r, me := Enqueue(cfg, q, j, s, name), q.jobs[j].tenant;
      var w := Waiting(j, s, Estimate(cfg, q, me, name));
      && me in r.tenants && IsWaiting(r, (j, s))
      && r.tenants[me].interactive ==
         TenantOf(q, me).interactive + (if q.jobs[j].priority == Interactive then [w] else [])
      && r.tenants[me].background == TenantOf(q, me).background + (if q.jobs[j].priority == Background then [w] else [])
      && (t != me ==> TenantOf(r, t) == TenantOf(q, t))
  {
  }

  /** A job is admitted with no steps, for the tenant and at the priority it comes with; admitting it again
      changes its priority alone, and its steps stay where they are. */
  lemma AdmitMeans(q: Queue, j: JobId, t: TenantId, p: Priority, u: TenantId)
    ensures var r := AdmitJob(q, j, t, p);
      && t in r.tenants && TenantOf(r, u) == TenantOf(q, u) && (u in r.tenants <==> u in q.tenants || u == t)
      && r.jobs.Keys == q.jobs.Keys + {j} && r.jobs[j].priority == p
      && (if j in q.jobs then r.jobs[j].tenant == q.jobs[j].tenant && r.jobs[j].steps == q.jobs[j].steps
          else r.jobs[j].tenant == t && r.jobs[j].steps == map[])
      && (forall i | i in q.jobs && i != j :: r.jobs[i] == q.jobs[i])
      && r.virtualNow == q.virtualNow && r.costs == q.costs && r.costKeys == q.costKeys
  {
  }

  /** A step found in flight that held no slot holds one since it was started, or since now, uncharged. */
  lemma FoundInFlight(cfg: Config, q: Queue, j: JobId, v: StepView, now: Instant)
    requires j in q.jobs && v.state in {Leased, Running} && StartOf(q, (j, v.step)).None?
    ensures var r, since := ReconcileStep(cfg, q, j, v, now), if v.startedAt.Some? then v.startedAt.value else now;
      && PlacementOf(r, (j, v.step)) == Some(Placement(v.name, Some(since), None))
      && TenantOf(r, q.jobs[j].tenant).running == TenantOf(q, q.jobs[j].tenant).running[(j, v.step) := since]
  {
    UnplaceKeepsJob(cfg, q, j, v.step, now);
  }

  lemma UnplaceKeepsJob(cfg: Config, q: Queue, j: JobId, s: StepId, at: Instant)
    requires j in q.jobs && StartOf(q, (j, s)).None?
    ensures var r := Unplace(cfg, q, j, s, at, false);
      && j in r.jobs && r.jobs[j].tenant == q.jobs[j].tenant && r.tenants == q.tenants
  {
  }

  // ---- What it is charged ----

  /** The plan that applies: the tenant's own, or the default. */
  function PlanFor(cfg: Config, t: TenantId): Plan { if t in cfg.plans then cfg.plans[t] else cfg.defaultPlan }

  function WeightFor(cfg: Config, t: TenantId): real {
    if PlanFor(cfg, t).weight > 0.0 then PlanFor(cfg, t).weight else 1.0
  }

  lemma WeightIs(cfg: Config, t: TenantId)
    ensures cfg.PlanOf(t) == PlanFor(cfg, t) && cfg.Weight(t) == WeightFor(cfg, t)
  {
  }

  function Seconds(nanos: nat): real { nanos as real / 1000000000.0 }

  /** The served entry starts at its tenant's clock, or at virtual time less the idle credit if that is later,
      and finishes its cost over its weight after that. */
  lemma TurnTags(cfg: Config, now: Instant, a: Queue, o: Offer, b: Queue) returns (i: nat)
    requires Turned(cfg, now, a, o, b)
    ensures o.pick.tenant in a.tenants && Serves(a, a.tenants[o.pick.tenant], (o.job, o.step), i)
    ensures var t, floor := a.tenants[o.pick.tenant], a.virtualNow - Seconds(cfg.idleCredit);
      && o.pick.start == (if t.vftLast >= floor then t.vftLast else floor)
      && o.pick.vft == o.pick.start + EntryServed(a, t, i, SomeWaits(a, t.interactive)).cost / WeightFor(cfg,
         o.pick.tenant)
  {
    i := TurnServes(cfg, now, a, o, b);
    WeightIs(cfg, o.pick.tenant);
    BestOfIsCandidate(cfg, Seen(a), now, Orders.InOrder(Seen(a).tenants.Keys));
  }

  // ---- When a pass leaves something waiting ----

  /** The tenant is at its concurrency cap or over its node-minutes. */
  ghost predicate OverCap(cfg: Config, q: Queue, t: TenantId, now: Instant) {
    && t in q.tenants
    && (|q.tenants[t].running| >= PlanFor(cfg, t).maxRunning
        || NodeSeconds(q.tenants[t], now) >= PlanFor(cfg, t).nodeMinutes * 60.0)
  }

  /** A pass wastes nothing: a step still waiting after it belongs to a tenant over one of its caps, unless
      every slot of the fleet is taken. */
  lemma SelectWastesNothing(cfg: Config, q: Queue, owner: Owner, now: Instant, qs: seq<Queue>, end: Queue,
                            offers: seq<Offer>, k: StepRef)
    requires Inv(q, owner) && Selects(cfg, q, now, Budget(cfg, q), qs, end, offers) && IsWaiting(end, k)
    ensures || OverCap(cfg, end, owner(k.0), now)
            || (cfg.fleetSlots.Some? && |InFlight(end)| >= cfg.fleetSlots.value)
            || (cfg.fleetSlots.None? && |offers| == USIZE_MAX)
  {
    WeightIs(cfg, owner(k.0));
    SelectRespectsFleet(cfg, q, owner, now, qs, end, offers);
    if |offers| < Budget(cfg, q) { SelectStopsOnlyWhenBlocked(cfg, q, owner, now, Budget(cfg, q), qs, end, offers, k); }
  }

  // ---- Node-seconds over whole runs ----

  const HOUR: nat := 3_600_000_000_000

  function HeldFor(at: Instant, since: Instant): nat { if at >= since then at - since else 0 }

  /** The operation takes a started step of `t` out of its slot. */
  ghost predicate Frees(q: Queue, op: Op, t: TenantId) {
    op.Leave? && StartOf(q, (op.job, op.step)).Some? && q.jobs[op.job].tenant == t
  }

  /** When, and after how long, each started step of `t` left its slot. */
  ghost function Departures(cfg: Config, q: Queue, ops: seq<Op>, t: TenantId): seq<(Instant, nat)> {
    if ops == [] then []
    else
      var front, op := ops[..|ops| - 1], ops[|ops| - 1];
      var mid := Run(cfg, q, front);
      Departures(cfg, q, front, t) +
      if Frees(mid, op, t) then [(op.at, HeldFor(op.at, StartOf(mid, (op.job, op.step)).value))] else []
  }

  predicate ExpiredAt(x: (Instant, nat), now: Instant) { now >= x.0 && now - x.0 >= HOUR }

  /** Pruned at that moment, at some point of the run. */
  ghost predicate PrunedAt(ops: seq<Op>, now: Instant) { exists m | 0 <= m < |ops| :: ops[m] == Prune(now) }

  ghost predicate Forgettable(ops: seq<Op>, x: (Instant, nat)) { exists now :: PrunedAt(ops, now) && ExpiredAt(x, now) }

  lemma {:induction false} PrunesExpiredPrefix(ledger: seq<(Instant, nat)>, now: Instant) returns (n: nat)
    ensures n <= |ledger| && PruneLedger(ledger, now) == ledger[n..]
    ensures forall m | 0 <= m < n :: ExpiredAt(ledger[m], now)
  {
    n := 0;
    if ledger != [] && Elapsed(now, ledger[0].0) >= ROLLING_WINDOW {
      n := PrunesExpiredPrefix(ledger[1..], now);
      n := n + 1;
    }
  }

  lemma FreedLedger(cfg: Config, q: Queue, owner: Owner, op: Op, t: TenantId)
    requires Inv(q, owner) && op.Leave?
    ensures TenantOf(Apply(cfg, q, op), t).ledger == TenantOf(q, t).ledger +
            if Frees(q, op, t) then [(op.at, HeldFor(op.at, StartOf(q, (op.job, op.step)).value))] else []
  {
    assert OwnedAt(q, owner, op.job);
    if PlacementOf(q, (op.job, op.step)).Some? {
      UnplaceFacts(cfg, q, op.job, op.step, op.at, op.learn);
      LeavingLedger(cfg, q, op.job, op.step, op.at, t);
    }
  }

  lemma LeavingLedger(cfg: Config, q: Queue, j: JobId, s: StepId, at: Instant, t: TenantId)
    requires PlacementOf(q, (j, s)).Some? && q.jobs[j].tenant in q.tenants
    ensures var r := AfterLeaving(cfg, q, j, s, at);
      (if t in r then r[t] else NEW_TENANT).ledger == TenantOf(q, t).ledger +
      if StartOf(q, (j, s)).Some? && q.jobs[j].tenant == t then [(at, HeldFor(at, StartOf(q, (j, s)).value))] else []
  {
  }

  lemma GrantLedger(cfg: Config, q: Queue, now: Instant, p: Pick, t: TenantId)
    requires p.tenant in q.tenants && Head(q.tenants[p.tenant]).Some?
    ensures TenantOf(Granted(cfg, q, now, p), t).ledger == TenantOf(q, t).ledger
  {
  }

  lemma GrantedLedger(cfg: Config, q: Queue, owner: Owner, now: Instant, t: TenantId)
    requires Inv(q, owner)
    ensures TenantOf(GrantOnce(cfg, q, now), t).ledger == TenantOf(q, t).ledger
  {
    if Best(cfg, Seen(q), now).Some? {
      PickFacts(cfg, q, owner, now);
      GrantLedger(cfg, Seen(q), now, Best(cfg, Seen(q), now).value, t);
    }
  }

  lemma QuietLedger(cfg: Config, q: Queue, op: Op, t: TenantId)
    requires !op.Leave? && !op.Grant? && !op.Prune?
    ensures TenantOf(Apply(cfg, q, op), t).ledger == TenantOf(q, t).ledger
  {
  }

  /** The ledger is the tail of the departures from place `n` on, and all before it may be forgotten. */
  ghost predicate LedgerFrom(ledger: seq<(Instant, nat)>, departures: seq<(Instant, nat)>, ops: seq<Op>, n: nat) {
    n <= |departures| && ledger == departures[n..] && forall m | 0 <= m < n :: Forgettable(ops, departures[m])
  }

  lemma StillForgettable(ops: seq<Op>, op: Op, x: (Instant, nat))
    requires Forgettable(ops, x)
    ensures Forgettable(ops + [op], x)
  {
    var now :| PrunedAt(ops, now) && ExpiredAt(x, now);
    var m :| 0 <= m < |ops| && ops[m] == Prune(now);
    assert (ops + [op])[m] == Prune(now);
    assert PrunedAt(ops + [op], now);
  }

  lemma LedgerStays(ledger: seq<(Instant, nat)>, departures: seq<(Instant, nat)>, ops: seq<Op>, op: Op, n: nat,
                    more: seq<(Instant, nat)>)
    requires LedgerFrom(ledger, departures, ops, n)
    ensures LedgerFrom(ledger + more, departures + more, ops + [op], n)
  {
    forall m | 0 <= m < n ensures Forgettable(ops + [op], (departures + more)[m]) {
      StillForgettable(ops, op, departures[m]);
    }
  }

  lemma LedgerPruned(ledger: seq<(Instant, nat)>, departures: seq<(Instant, nat)>, ops: seq<Op>, now: Instant, n: nat)
      returns (n': nat)
    requires LedgerFrom(ledger, departures, ops, n)
    ensures LedgerFrom(PruneLedger(ledger, now), departures, ops + [Prune(now)], n')
  {
    var d := PrunesExpiredPrefix(ledger, now);
    n' := n + d;
    assert (ops + [Prune(now)])[|ops|] == Prune(now);
    assert PrunedAt(ops + [Prune(now)], now);
    forall m | 0 <= m < n' ensures Forgettable(ops + [Prune(now)], departures[m]) {
      if m < n { StillForgettable(ops, Prune(now), departures[m]); } else { assert ExpiredAt(ledger[m - n], now); }
    }
  }

  lemma FrontIsSound(cfg: Config, owner: Owner, ops: seq<Op>)
    requires EnabledRun(cfg, EMPTY, owner, ops) && ops != []
    ensures var front := ops[..|ops| - 1]; EnabledRun(cfg, EMPTY, owner, front) && Inv(Run(cfg, EMPTY, front), owner)
  {
    EnabledFront(cfg, EMPTY, owner, ops);
    EmptyInv(owner);
    RunKeeps(cfg, EMPTY, owner, ops[..|ops| - 1]);
  }

  /** Over every run, a tenant's ledger is the time its started steps held their slots, one entry for each
      that left and in that order, short only of a prefix that had left the window when it was pruned. */
  lemma {:induction false} LedgerIsDepartures(cfg: Config, owner: Owner, ops: seq<Op>, t: TenantId) returns (n: nat)
    requires EnabledRun(cfg, EMPTY, owner, ops)
    ensures LedgerFrom(TenantOf(Run(cfg, EMPTY, ops), t).ledger, Departures(cfg, EMPTY, ops, t), ops, n)
  {
    n := 0;
    if ops != [] {
      var front, op := ops[..|ops| - 1], ops[|ops| - 1];
      FrontIsSound(cfg, owner, ops);
      n := LedgerIsDepartures(cfg, owner, front, t);
      assert ops == front + [op];
      n := LedgerNext(cfg, owner, front, op, t, n);
    }
  }

  lemma LedgerNext(cfg: Config, owner: Owner, front: seq<Op>, op: Op, t: TenantId, n: nat) returns (n': nat)
    requires var mid := Run(cfg, EMPTY, front);
      Inv(mid, owner) && LedgerFrom(TenantOf(mid, t).ledger, Departures(cfg, EMPTY, front, t), front, n)
    ensures LedgerFrom(TenantOf(Run(cfg, EMPTY, front + [op]), t).ledger, Departures(cfg, EMPTY, front + [op], t),
                       front + [op], n')
  {
    var mid, was := Run(cfg, EMPTY, front), Departures(cfg, EMPTY, front, t);
    RunLast(cfg, EMPTY, front, op);
    assert (front + [op])[..|front|] == front;
    if op.Leave? {
      FreedLedger(cfg, mid, owner, op, t);
      var more := if Frees(mid, op, t) then [(op.at, HeldFor(op.at, StartOf(mid, (op.job, op.step)).value))] else [];
      LedgerStays(TenantOf(mid, t).ledger, was, front, op, n, more);
      n' := n;
    } else if op.Prune? {
      n' := LedgerPruned(TenantOf(mid, t).ledger, was, front, op.now, n);
    } else {
      if op.Grant? { GrantedLedger(cfg, mid, owner, op.now, t); } else { QuietLedger(cfg, mid, op, t); }
      LedgerStays(TenantOf(mid, t).ledger, was, front, op, n, []);
      assert was + [] == was && TenantOf(mid, t).ledger + [] == TenantOf(mid, t).ledger;
      n' := n;
    }
  }

  /** The departures still inside the hour, in seconds. */
  function WindowSum(departures: seq<(Instant, nat)>, now: Instant): real {
    if departures == [] then 0.0
    else
      (if ExpiredAt(departures[0], now) then 0.0 else Seconds(departures[0].1)) + WindowSum(departures[1..], now)
  }

  lemma {:induction false} WindowIs(ledger: seq<(Instant, nat)>, now: Instant)
    ensures InWindow(ledger, now) == WindowSum(ledger, now)
  {
    if ledger != [] { WindowIs(ledger[1..], now); }
  }

  lemma {:induction false} ExpiredCountNothing(departures: seq<(Instant, nat)>, n: nat, now: Instant)
    requires n <= |departures| && forall m | 0 <= m < n :: ExpiredAt(departures[m], now)
    ensures WindowSum(departures[n..], now) == WindowSum(departures, now)
  {
    if n > 0 {
      assert departures[1..][n - 1..] == departures[n..];
      ExpiredCountNothing(departures[1..], n - 1, now);
    } else {
      assert departures[0..] == departures;
    }
  }

  lemma ForgottenIsExpired(ops: seq<Op>, x: (Instant, nat), now: Instant)
    requires Forgettable(ops, x) && forall m | 0 <= m < |ops| :: ops[m].Prune? ==> ops[m].now <= now
    ensures ExpiredAt(x, now)
  {
    var p :| PrunedAt(ops, p) && ExpiredAt(x, p);
    var m :| 0 <= m < |ops| && ops[m] == Prune(p);
  }

  /** What each running step has held its slot for so far. */
  function HeldSoFar(running: map<StepRef, Instant>, now: Instant): map<StepRef, real> {
    map k | k in running :: Seconds(HeldFor(now, running[k]))
  }

  lemma LiveIsHeldSoFar(running: map<StepRef, Instant>, now: Instant)
    ensures LiveSeconds(running, now) == HeldSoFar(running, now)
  {
  }

  /** Pruning or not, what a tenant has used is what its steps held within the hour and what its running ones
      have held so far. */
  lemma UsageIsHeldTime(cfg: Config, owner: Owner, ops: seq<Op>, t: TenantId, now: Instant)
    requires EnabledRun(cfg, EMPTY, owner, ops) && forall m | 0 <= m < |ops| :: ops[m].Prune? ==> ops[m].now <= now
    ensures var end := TenantOf(Run(cfg, EMPTY, ops), t);
      NodeSeconds(end, now) == WindowSum(Departures(cfg, EMPTY, ops, t), now) + MapSum(HeldSoFar(end.running, now))
  {
    var n := LedgerIsDepartures(cfg, owner, ops, t);
    var departures := Departures(cfg, EMPTY, ops, t);
    forall m | 0 <= m < n ensures ExpiredAt(departures[m], now) { ForgottenIsExpired(ops, departures[m], now); }
    ExpiredCountNothing(departures, n, now);
    WindowIs(TenantOf(Run(cfg, EMPTY, ops), t).ledger, now);
    LiveIsHeldSoFar(TenantOf(Run(cfg, EMPTY, ops), t).running, now);
  }

  /** At every grant of every run, the granted tenant was below both its caps: slots, and node-minutes counted
      in time actually held. */
  lemma GrantsAreWithinBudget(cfg: Config, owner: Owner, ops: seq<Op>, now: Instant, p: Pick)
    requires EnabledRun(cfg, EMPTY, owner, ops) && forall m | 0 <= m < |ops| :: ops[m].Prune? ==> ops[m].now <= now
    requires Best(cfg, Seen(Run(cfg, EMPTY, ops)), now) == Some(p)
    ensures var t := TenantOf(Run(cfg, EMPTY, ops), p.tenant);
      && |t.running| < PlanFor(cfg, p.tenant).maxRunning
      && WindowSum(Departures(cfg, EMPTY, ops, p.tenant), now) + MapSum(HeldSoFar(t.running, now))
         < PlanFor(cfg, p.tenant).nodeMinutes * 60.0
  {
    var q := Run(cfg, EMPTY, ops);
    EmptyInv(owner);
    RunKeeps(cfg, EMPTY, owner, ops);
    PickFacts(cfg, q, owner, now);
    UsageIsHeldTime(cfg, owner, ops, p.tenant, now);
    WeightIs(cfg, p.tenant);
  }
}
