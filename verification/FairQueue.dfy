/** The scheduler object: the mutable maps, queues and loops, each method tied to the function of the
    state it implements. */
module FairQueue {
  import opened Wrappers
  import opened Orders
  import opened Sums
  import opened JobModel
  import opened FairShare
  import FairSelect

  datatype GrantedStep = GrantedStep(job: JobId, step: StepId, tenant: TenantId)

  ghost function GrantsOf(offers: seq<Offer>): (r: seq<GrantedStep>)
    ensures |r| == |offers|
  {
    if offers == [] then []
    else
      var o := offers[|offers| - 1];
      GrantsOf(offers[..|offers| - 1]) + [GrantedStep(o.job, o.step, o.pick.tenant)]
  }

  method PopStale(jobs: map<JobId, JobMeta>, ws: seq<Waiting>) returns (r: seq<Waiting>)
    ensures r == DropStale(jobs, ws)
  {
    r := ws;
    while r != [] && !LiveEntry(jobs, r[0])
      invariant DropStale(jobs, r) == DropStale(jobs, ws)
    {
      r := r[1..];
    }
  }

  method PopExpired(ledger: seq<(Instant, nat)>, now: Instant) returns (r: seq<(Instant, nat)>)
    ensures r == PruneLedger(ledger, now)
  {
    r := ledger;
    while r != [] && Elapsed(now, r[0].0) >= ROLLING_WINDOW
      invariant PruneLedger(r, now) == PruneLedger(ledger, now)
    {
      r := r[1..];
    }
  }

  method FinishedSeconds(ledger: seq<(Instant, nat)>, now: Instant) returns (sum: real)
    ensures sum == InWindow(ledger, now)
  {
    sum := 0.0;
    assert ledger[0..] == ledger;
    for i := 0 to |ledger|
      invariant sum + InWindow(ledger[i..], now) == InWindow(ledger, now)
    {
      assert ledger[i..][0] == ledger[i] && ledger[i..][1..] == ledger[i + 1..];
      if Elapsed(now, ledger[i].0) < ROLLING_WINDOW { sum := sum + Secs(ledger[i].1); }
    }
  }

  method RunningSeconds(running: map<StepRef, Instant>, now: Instant) returns (sum: real)
    ensures sum == MapSum(LiveSeconds(running, now))
  {
    sum := 0.0;
    var rest := running;
    while rest != map[]
      invariant forall k | k in rest :: k in running && rest[k] == running[k]
      invariant sum + MapSum(LiveSeconds(rest, now)) == MapSum(LiveSeconds(running, now))
      decreases |rest|
    {
      var k :| k in rest;
      MapSumRemove(LiveSeconds(rest, now), k);
      assert LiveSeconds(rest, now) - {k} == LiveSeconds(rest - {k}, now);
      assert (rest - {k}).Keys == rest.Keys - {k};
      sum := sum + Secs(Elapsed(now, rest[k]));
      rest := rest - {k};
    }
    assert LiveSeconds(map[], now) == map[];
  }

  /** Both plan caps, the cheaper one first. */
  method IsAdmissible(cfg: Config, name: TenantId, t: Tenant, now: Instant) returns (ok: bool)
    ensures ok == Admissible(cfg, name, t, now)
  {
    var plan := cfg.PlanOf(name);
    if |t.running| >= plan.maxRunning { return false; }
    var finished := FinishedSeconds(t.ledger, now);
    var live := RunningSeconds(t.running, now);
    ok := finished + live < plan.nodeMinutes * 60.0;
  }

  method DropOldest(names: seq<string>, costs: map<(TenantId, string), seq<real>>, t: TenantId)
    returns (kept: seq<string>, left: map<(TenantId, string), seq<real>>)
    ensures kept == KeepLast(names, COST_KEYS_PER_TENANT)
    ensures left == Without(costs, t, names[..|names| - |kept|])
  {
    kept, left := names, costs;
    ghost var dropped := 0;
    assert names[..0] == [];
    while |kept| > COST_KEYS_PER_TENANT
      invariant 0 <= dropped <= |names| && kept == names[dropped..]
      invariant dropped == 0 || |kept| >= COST_KEYS_PER_TENANT
      invariant left == Without(costs, t, names[..dropped])
    {
      left := left - {(t, kept[0])};
      assert names[..dropped + 1] == names[..dropped] + [kept[0]];
      kept, dropped := kept[1..], dropped + 1;
    }
    assert |names| - |kept| == dropped;
  }

  method Recent(samples: seq<real>) returns (r: seq<real>)
    ensures r == KeepLast(samples, COST_SAMPLES)
  {
    r := samples;
    while |r| > COST_SAMPLES
      invariant KeepLast(r, COST_SAMPLES) == KeepLast(samples, COST_SAMPLES)
    {
      r := r[1..];
    }
  }

  class FairQueue {
    const cfg: Config
    var virtualNow: real
    var tenants: map<TenantId, Tenant>
    var jobs: map<JobId, JobMeta>
    var costs: map<(TenantId, string), seq<real>>
    var costKeys: map<TenantId, seq<string>>

    function State(): Queue reads this { Queue(virtualNow, tenants, jobs, costs, costKeys) }

    constructor (cfg: Config)
      ensures this.cfg == cfg && State() == EMPTY
    {
      this.cfg := cfg;
      virtualNow, tenants, jobs, costs, costKeys := 0.0, map[], map[], map[], map[];
    }

    method Admit(job: JobId, tenant: TenantId, priority: Priority)
      modifies this
      ensures State() == AdmitJob(old(State()), job, tenant, priority)
    {
      if tenant !in tenants { tenants := tenants[tenant := NEW_TENANT]; }
      assert tenants == old(tenants)[tenant := TenantOf(old(State()), tenant)];
      if job in jobs {
        jobs := jobs[job := jobs[job].(priority := priority)];
      } else {
        jobs := jobs[job := JobMeta(tenant, priority, map[])];
      }
    }

    method Enter(job: JobId, step: StepId, name: string)
      modifies this
      ensures State() == Enqueue(cfg, old(State()), job, step, name)
    {
      if job !in jobs { return; }
      var meta := jobs[job];
      if step in meta.steps { return; }
      var cost := Estimate(cfg, State(), meta.tenant, name);
      jobs := jobs[job := meta.(steps := meta.steps[step := Placement(name, None, None)])];
      var t := if meta.tenant in tenants then tenants[meta.tenant] else NEW_TENANT;
      tenants := tenants[meta.tenant := Pushed(t, meta.priority, Waiting(job, step, cost))];
    }

    method Register(tenant: TenantId, name: string)
      modifies this
      ensures State() == Registered(old(State()), tenant, name)
    {
      if (tenant, name) !in costs {
        var names := (if tenant in costKeys then costKeys[tenant] else []) + [name];
        var kept, left := DropOldest(names, costs, tenant);
        costKeys := costKeys[tenant := kept];
        costs := left;
      }
    }

    method ObserveCost(tenant: TenantId, name: string, ran: nat)
      modifies this
      ensures State() == Observe(old(State()), tenant, name, ran)
    {
      Register(tenant, name);
      var key := (tenant, name);
      var samples := Recent((if key in costs then costs[key] else []) + [Secs(ran)]);
      costs := costs[key := samples];
    }

    method UnplaceStep(job: JobId, step: StepId, at: Instant, learn: bool)
      modifies this
      ensures State() == Unplace(cfg, old(State()), job, step, at, learn)
    {
      if job !in jobs { return; }
      var meta := jobs[job];
      if step !in meta.steps { return; }
      var p := meta.steps[step];
      jobs := jobs[job := meta.(steps := meta.steps - {step})];
      if p.since.None? { return; }
      if meta.tenant in tenants {
        tenants := tenants[meta.tenant := Departed(cfg, meta.tenant, tenants[meta.tenant], (job, step), p, at)];
      }
      if learn { ObserveCost(meta.tenant, p.name, Elapsed(at, p.since.value)); }
    }

    method RequeueStep(job: JobId, step: StepId, name: string, at: Instant)
      modifies this
      ensures State() == Requeue(cfg, old(State()), job, step, name, at)
    {
      UnplaceStep(job, step, at, false);
      Enter(job, step, name);
    }

    method AdoptStep(job: JobId, step: StepId, name: string, since: Instant)
      modifies this
      ensures State() == Adopt(old(State()), job, step, name, since)
    {
      if job !in jobs { return; }
      var meta := jobs[job];
      jobs := jobs[job := meta.(steps := meta.steps[step := Placement(name, Some(since), None)])];
      var t := if meta.tenant in tenants then tenants[meta.tenant] else NEW_TENANT;
      tenants := tenants[meta.tenant := t.(running := t.running[(job, step) := since])];
    }

    /** `order` is the order in which the job's steps were visited: every one of them. */
    method Forget(job: JobId, at: Instant) returns (ghost order: seq<StepId>)
      modifies this
      ensures State() == ForgetJob(cfg, old(State()), job, order, at)
      ensures job in old(jobs) ==> forall s | s in old(jobs)[job].steps :: s in order
    {
      order := [];
      if job !in jobs { return; }
      var rest := jobs[job].steps.Keys;
      while rest != {}
        invariant State() == ReleaseAll(cfg, old(State()), job, order, at)
        invariant forall s | s in old(jobs)[job].steps :: s in rest || s in order
      {
        var s :| s in rest;
        UnplaceStep(job, s, at, false);
        ReleaseAllAppend(cfg, old(State()), job, order, s, at);
        rest, order := rest - {s}, order + [s];
      }
      jobs := jobs - {job};
    }

    method ReconcileView(view: JobView, now: Instant)
      modifies this
      ensures State() == Reconcile(cfg, old(State()), view, now)
    {
      Admit(view.job, view.tenant, view.priority);
      assert view.steps[0..] == view.steps;
      for i := 0 to |view.steps|
        invariant ReconcileSteps(cfg, State(), view.job, view.steps[i..], now) ==
                  Reconcile(cfg, old(State()), view, now)
      {
        assert view.steps[i..][0] == view.steps[i] && view.steps[i..][1..] == view.steps[i + 1..];
        ReconcileOne(view.job, view.steps[i], now);
      }
    }

    method ReconcileOne(job: JobId, v: StepView, now: Instant)
      modifies this
      ensures State() == ReconcileStep(cfg, old(State()), job, v, now)
    {
      match v.state
      case Ready => ReconcileReady(job, v, now);
      case Pending =>
      case Passed | Failed => ReconcileDone(job, v, now, true);
      case Errored | Cached | Skipped => ReconcileDone(job, v, now, false);
      case Leased | Running => ReconcileInFlight(job, v, now);
    }

    method ReconcileReady(job: JobId, v: StepView, now: Instant)
      requires v.state == Ready
      modifies this
      ensures State() == ReconcileStep(cfg, old(State()), job, v, now)
    {
      match PlacementOf(State(), (job, v.step))
      case None => Enter(job, v.step, v.name);
      case Some(p) => if p.since.Some? { RequeueStep(job, v.step, v.name, now); }
    }

    method ReconcileDone(job: JobId, v: StepView, now: Instant, learn: bool)
      requires v.state.Terminal() && learn == (v.state.Passed? || v.state.Failed?)
      modifies this
      ensures State() == ReconcileStep(cfg, old(State()), job, v, now)
    {
      if PlacementOf(State(), (job, v.step)).Some? { UnplaceStep(job, v.step, Or(v.finishedAt, now), learn); }
    }

    method ReconcileInFlight(job: JobId, v: StepView, now: Instant)
      requires v.state == Leased || v.state == Running
      modifies this
      ensures State() == ReconcileStep(cfg, old(State()), job, v, now)
    {
      var held := PlacementOf(State(), (job, v.step));
      if held.None? || held.value.since.None? {
        UnplaceStep(job, v.step, now, false);
        AdoptStep(job, v.step, v.name, Or(v.startedAt, now));
      }
    }

    method DropStaleHeadsInPlace()
      modifies this
      ensures State() == DropStaleHeads(old(State()))
    {
      var rest := tenants.Keys;
      while rest != {}
        invariant tenants.Keys == old(tenants).Keys && rest <= tenants.Keys
        invariant jobs == old(jobs) && virtualNow == old(virtualNow) && costs == old(costs) && costKeys == old(costKeys)
        invariant forall t | t in tenants ::
          tenants[t] == if t in rest then old(tenants)[t] else Fresh(jobs, old(tenants)[t])
      {
        var t :| t in rest;
        var i := PopStale(jobs, tenants[t].interactive);
        var b := PopStale(jobs, tenants[t].background);
        tenants := tenants[t := tenants[t].(interactive := i, background := b)];
        rest := rest - {t};
      }
    }

    method PruneLedgersInPlace(now: Instant)
      modifies this
      ensures State() == PruneLedgers(old(State()), now)
    {
      var rest := tenants.Keys;
      while rest != {}
        invariant tenants.Keys == old(tenants).Keys && rest <= tenants.Keys
        invariant jobs == old(jobs) && virtualNow == old(virtualNow) && costs == old(costs) && costKeys == old(costKeys)
        invariant forall t | t in tenants ::
          tenants[t] == if t in rest then old(tenants)[t]
              else old(tenants)[t].(ledger := PruneLedger(old(tenants)[t].ledger, now))
      {
        var t :| t in rest;
        var l := PopExpired(tenants[t].ledger, now);
        tenants := tenants[t := tenants[t].(ledger := l)];
        rest := rest - {t};
      }
    }

    method CountInFlight() returns (n: nat)
      ensures n == |InFlight(State())|
    {
      n := 0;
      var rest := tenants.Keys;
      assert FlightsOf(tenants, {}) == {};
      while rest != {}
        invariant rest <= tenants.Keys
        invariant n == |FlightsOf(tenants, tenants.Keys - rest)|
      {
        var t :| t in rest;
        FlightsAdd(tenants, tenants.Keys - rest, t);
        assert tenants.Keys - (rest - {t}) == tenants.Keys - rest + {t};
        n := n + |tenants[t].running|;
        rest := rest - {t};
      }
      assert FlightsOf(tenants, tenants.Keys - rest) == InFlight(State());
    }

    method Consider(name: TenantId, now: Instant, best: Option<Pick>) returns (r: Option<Pick>)
      requires name in tenants
      ensures r == Considered(cfg, State(), now, best, name)
    {
      r := best;
      var t := tenants[name];
      if Head(t).None? { return; }
      var ok := IsAdmissible(cfg, name, t, now);
      if !ok { return; }
      var start := Max(t.vftLast, virtualNow - cfg.Credit());
      var vft := start + Head(t).value.cost / cfg.Weight(name);
      if best.None? || vft < best.value.vft { r := Some(Pick(name, start, vft)); }
    }

    method PickBest(now: Instant) returns (best: Option<Pick>)
      ensures best == Best(cfg, State(), now)
    {
      best := None;
      var names := InOrder(tenants.Keys);
      for i := 0 to |names|
        invariant best == BestOf(cfg, State(), now, names[..i])
      {
        assert names[i] in names;
        best := Consider(names[i], now, best);
        BestOfNext(cfg, State(), now, names, i);
      }
      assert names[..|names|] == names;
    }

    /** Take the picked tenant's head off its queue, charge it and start it. */
    method GrantHead(p: Pick, now: Instant) returns (g: GrantedStep)
      requires p.tenant in tenants && Head(tenants[p.tenant]).Some?
      modifies this
      ensures State() == Granted(cfg, old(State()), now, p)
      ensures var w := Head(old(tenants)[p.tenant]).value; g == GrantedStep(w.job, w.step, p.tenant)
    {
      var t := tenants[p.tenant];
      var w := Head(t).value;
      tenants := tenants[p.tenant := PopHead(t).(vftLast := p.vft, running := t.running[(w.job, w.step) := now])];
      virtualNow := Max(virtualNow, p.start);
      if w.job in jobs && w.step in jobs[w.job].steps {
        var meta := jobs[w.job];
        jobs := jobs[w.job := meta.(steps := meta.steps[w.step := Placed(cfg, meta.steps[w.step], p, now)])];
      }
      g := GrantedStep(w.job, w.step, p.tenant);
    }

    /** A selection pass; `qs` and `offers` witness it turn by turn. */
    method Select(now: Instant) returns (grants: seq<GrantedStep>, ghost qs: seq<Queue>, ghost offers: seq<Offer>)
      modifies this
      ensures var q := PruneLedgers(old(State()), now);
        FairSelect.Selects(cfg, q, now, Budget(cfg, q), qs, State(), offers)
      ensures grants == GrantsOf(offers)
    {
      PruneLedgersInPlace(now);
      ghost var q := State();
      var inFlight := CountInFlight();
      var total := match cfg.fleetSlots
        case None => USIZE_MAX
        case Some(slots) => if slots > inFlight then slots - inFlight else 0;
      grants, qs, offers := [], [q], [];
      var budget := total;
      FairSelect.TraceStart(cfg, now, q);
      while budget > 0
        invariant budget == total - |offers| && |offers| <= total
        invariant FairSelect.Trace(cfg, now, qs, offers) && qs[0] == q && qs[|offers|] == State()
        invariant grants == GrantsOf(offers)
      {
        ghost var before := State();
        DropStaleHeadsInPlace();
        var best := PickBest(now);
        if best.None? { break; }
        BestOfIsCandidate(cfg, State(), now, InOrder(tenants.Keys));
        var g := GrantHead(best.value, now);
        ghost var o := Offer(g.job, g.step, best.value);
        FairSelect.TraceGrows(cfg, now, qs, offers, o, State());
        GrantsAppend(offers, o);
        grants, qs, offers := grants + [g], qs + [State()], offers + [o];
        budget := budget - 1;
      }
    }
  }

  lemma BestOfNext(cfg: Config, q: Queue, now: Instant, names: seq<TenantId>, i: nat)
    requires i < |names|
    ensures BestOf(cfg, q, now, names[..i + 1]) == Considered(cfg, q, now, BestOf(cfg, q, now, names[..i]), names[i])
  {
    assert names[..i + 1][..i] == names[..i];
  }

  lemma GrantsAppend(offers: seq<Offer>, o: Offer)
    ensures GrantsOf(offers + [o]) == GrantsOf(offers) + [GrantedStep(o.job, o.step, o.pick.tenant)]
  {
    assert (offers + [o])[..|offers|] == offers;
  }

  lemma {:induction false} ReleaseAllAppend(cfg: Config, q: Queue, j: JobId, order: seq<StepId>, s: StepId, at: Instant)
    ensures ReleaseAll(cfg, q, j, order + [s], at) == Unplace(cfg, ReleaseAll(cfg, q, j, order, at), j, s, at, false)
    decreases |order|
  {
    if order == [] {
      assert order + [s] == [s] && [s][1..] == [];
    } else {
      assert (order + [s])[1..] == order[1..] + [s];
      ReleaseAllAppend(cfg, Unplace(cfg, q, j, order[0], at, false), j, order[1..], s, at);
    }
  }

  ghost function FlightsOf(tenants: map<TenantId, Tenant>, ts: set<TenantId>): set<(TenantId, StepRef)> {
    set t, k | t in ts && t in tenants && k in tenants[t].running :: (t, k)
  }

  lemma FlightsAdd(tenants: map<TenantId, Tenant>, ts: set<TenantId>, t: TenantId)
    requires t in tenants && t !in ts
    ensures |FlightsOf(tenants, ts + {t})| == |FlightsOf(tenants, ts)| + |tenants[t].running|
  {
    var mine := set k | k in tenants[t].running :: (t, k);
    TaggedSize(t, tenants[t].running.Keys);
    assert FlightsOf(tenants, ts + {t}) == FlightsOf(tenants, ts) + mine;
  }

  lemma {:induction false} TaggedSize(t: TenantId, ks: set<StepRef>)
    ensures |set k | k in ks :: (t, k)| == |ks|
  {
    var tagged := set k | k in ks :: (t, k);
    if ks != {} {
      var x :| x in ks;
      TaggedSize(t, ks - {x});
      var fewer := set k | k in ks - {x} :: (t, k);
      assert tagged == fewer + {(t, x)} && (t, x) !in fewer;
    } else {
      assert tagged == {};
    }
  }
}
