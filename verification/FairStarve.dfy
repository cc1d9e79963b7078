/** The waiting bound needs its hypothesis: for every length, a run in which a head dearer than the idle
    credit waits, everything else the bound asks for holds, and a rival is charged as much as the run is
    long. */
module FairStarve {
  import opened Wrappers
  import opened Sums
  import opened JobModel
  import opened FairShare
  import opened FairRuns
  import opened FairSelect
  import opened FairViews
  import opened FairClock

  const DEAR: TenantId := "dear"
  const CHEAP: TenantId := "cheap"
  const SLOW_JOB := JobId("slow")
  const QUICK_JOB := JobId("quick")
  const SLOW_STEP: StepRef := (SLOW_JOB, StepId("slow"))

  function OwnerOf(j: JobId): TenantId { if j == SLOW_JOB then DEAR else CHEAP }

  /** One second a step by default, weights equal, caps out of the way, whatever the idle credit. */
  function Setting(credit: nat, n: nat): Config { Config(Plan(1.0, n + 2, 1.0), map[], None, 1_000_000_000, credit) }

  /** What the dear step is known to take: three seconds more than the credit. */
  function Price(credit: nat): real { Secs(credit) + 3.0 }

  function Name(n: nat): (s: string)
    ensures |s| == n
  {
    if n == 0 then "" else "x" + Name(n - 1)
  }

  function QuickStep(n: nat): StepRef { (QUICK_JOB, StepId(Name(n))) }

  function Known(credit: nat): Queue { EMPTY.(costs := map[(DEAR, "slow") := [Price(credit)]]) }

  function OneDear(cfg: Config): Queue {
    Enqueue(cfg, AdmitJob(AdmitJob(Known(cfg.idleCredit), SLOW_JOB, DEAR, Interactive), QUICK_JOB, CHEAP, Interactive),
        SLOW_JOB, SLOW_STEP.1, "slow")
  }

  /** One dear step, and `n` cheap ones behind a rival. */
  function Backlog(cfg: Config, n: nat): Queue {
    if n == 0 then OneDear(cfg) else Enqueue(cfg, Backlog(cfg, n - 1), QUICK_JOB, QuickStep(n - 1).1, "quick")
  }

  ghost function QuickSteps(n: nat): set<StepRef> { if n == 0 then {} else QuickSteps(n - 1) + {QuickStep(n - 1)} }

  lemma {:induction false} QuickStepsCount(n: nat)
    ensures |QuickSteps(n)| == n && forall k | k in QuickSteps(n) :: k.0 == QUICK_JOB && |k.1.text| < n
  {
    if n > 0 { QuickStepsCount(n - 1); }
  }

  // ---- What every state of the flood is like ----

  ghost predicate Priced(t: Tenant, cost: real) {
    (forall w | w in t.interactive :: w.cost == cost) && (forall w | w in t.background :: w.cost == cost)
  }

  ghost predicate TenantIs(q: Queue, t: TenantId, cost: real, granted: nat) {
    t in q.tenants && Priced(q.tenants[t], cost) && q.tenants[t].ledger == [] && |q.tenants[t].running| <= granted
  }

  /** `waiting` still wait in the rival's queue, the dear step still waits in its own. */
  ghost predicate Flood(credit: nat, q: Queue, waiting: set<StepRef>, granted: nat) {
    && Inv(q, OwnerOf) && q.tenants.Keys == {DEAR, CHEAP}
    && IsWaiting(q, SLOW_STEP) && (forall k | k in waiting :: k.0 == QUICK_JOB && IsWaiting(q, k))
    && TenantIs(q, DEAR, Price(credit), granted) && TenantIs(q, CHEAP, 1.0, granted)
  }

  // ---- It can be set up ----

  ghost predicate AtZero(q: Queue) { q.virtualNow == 0.0 && forall t | t in q.tenants :: q.tenants[t].vftLast == 0.0 }

  lemma KnownInv(credit: nat)
    ensures Inv(Known(credit), OwnerOf)
  {
    var q := Known(credit);
    forall t, k ensures At(q, OwnerOf, t, k) {}
    InvFrom(q, OwnerOf);
  }

  lemma Costs(cfg: Config, q: Queue)
    requires q.costs == Known(cfg.idleCredit).costs && cfg.defaultCost == 1_000_000_000
    ensures Estimate(cfg, q, DEAR, "slow") == Price(cfg.idleCredit) && Estimate(cfg, q, CHEAP, "quick") == 1.0
  {
    var price := Price(cfg.idleCredit);
    assert price >= 3.0;
    var sorted := EstimateIsMedian(cfg, q, DEAR, "slow");
    assert |multiset(sorted)| == |sorted| && multiset(sorted) == multiset{price};
    assert sorted[0] in multiset(sorted);
    var none := EstimateIsMedian(cfg, q, CHEAP, "quick");
    assert |multiset(none)| == |none|;
  }

  ghost predicate Ready0(credit: nat, q: Queue) {
    && Inv(q, OwnerOf) && q.costs == Known(credit).costs && AtZero(q) && q.tenants.Keys == {DEAR, CHEAP}
    && SLOW_JOB in q.jobs && QUICK_JOB in q.jobs && q.jobs[SLOW_JOB].tenant == DEAR && q.jobs[QUICK_JOB].tenant == CHEAP
    && TenantIs(q, DEAR, Price(credit), 0) && TenantIs(q, CHEAP, 1.0, 0)
  }

  lemma PricedQueue(cfg: Config, q: Queue, j: JobId, s: StepId, name: string)
    requires Ready0(cfg.idleCredit, q) && cfg.defaultCost == 1_000_000_000 && PlacementOf(q, (j, s)).None?
    requires (j == SLOW_JOB && name == "slow") || (j == QUICK_JOB && name == "quick")
    ensures var r := Enqueue(cfg, q, j, s, name);
      TenantIs(r, DEAR, Price(cfg.idleCredit), 0) && TenantIs(r, CHEAP, 1.0, 0)
  {
    Costs(cfg, q);
  }

  /** One more step in a tenant's queue, at that tenant's price. */
  lemma QueueOne(cfg: Config, q: Queue, j: JobId, s: StepId, name: string)
    requires Ready0(cfg.idleCredit, q) && cfg.defaultCost == 1_000_000_000 && PlacementOf(q, (j, s)).None?
    requires (j == SLOW_JOB && name == "slow") || (j == QUICK_JOB && name == "quick")
    ensures Ready0(cfg.idleCredit, Enqueue(cfg, q, j, s, name))
  {
    PricedQueue(cfg, q, j, s, name);
    EnqueueKeeps(cfg, q, OwnerOf, j, s, name);
  }

  lemma QueueOnePlaces(cfg: Config, q: Queue, j: JobId, s: StepId, name: string)
    requires j in q.jobs && PlacementOf(q, (j, s)).None?
    ensures IsWaiting(Enqueue(cfg, q, j, s, name), (j, s))
    ensures forall k | k != (j, s) :: PlacementOf(Enqueue(cfg, q, j, s, name), k) == PlacementOf(q, k)
  {
    forall k ensures k != (j, s) ==> PlacementOf(Enqueue(cfg, q, j, s, name), k) == PlacementOf(q, k) {
      EnqueuePlaces(cfg, q, j, s, name, k);
    }
    EnqueuePlaces(cfg, q, j, s, name, (j, s));
  }

  lemma OneDearIsReady(cfg: Config)
    requires cfg.defaultCost == 1_000_000_000
    ensures Ready0(cfg.idleCredit, OneDear(cfg)) && IsWaiting(OneDear(cfg), SLOW_STEP) &&
            forall k: StepRef | k.0 == QUICK_JOB :: PlacementOf(OneDear(cfg), k).None?
  {
    var known := Known(cfg.idleCredit);
    KnownInv(cfg.idleCredit);
    AdmitKeeps(known, OwnerOf, SLOW_JOB, Interactive);
    var one := AdmitJob(known, SLOW_JOB, DEAR, Interactive);
    AdmitKeeps(one, OwnerOf, QUICK_JOB, Interactive);
    var two := AdmitJob(one, QUICK_JOB, CHEAP, Interactive);
    assert forall k :: PlacementOf(two, k).None?;
    QueueOne(cfg, two, SLOW_JOB, SLOW_STEP.1, "slow");
    QueueOnePlaces(cfg, two, SLOW_JOB, SLOW_STEP.1, "slow");
  }

  ghost predicate QueuedSoFar(q: Queue, n: nat, k: StepRef) {
    k.0 == QUICK_JOB ==> if k in QuickSteps(n) then IsWaiting(q, k) else PlacementOf(q, k).None?
  }

  lemma {:induction false} BacklogIsReady(cfg: Config, n: nat)
    requires cfg.defaultCost == 1_000_000_000
    ensures Ready0(cfg.idleCredit, Backlog(cfg, n)) && IsWaiting(Backlog(cfg, n), SLOW_STEP)
    ensures forall k :: QueuedSoFar(Backlog(cfg, n), n, k)
  {
    if n == 0 {
      OneDearIsReady(cfg);
      forall k ensures QueuedSoFar(Backlog(cfg, n), n, k) {}
    } else {
      var q := Backlog(cfg, n - 1);
      BacklogIsReady(cfg, n - 1);
      QuickStepsCount(n - 1);
      assert QueuedSoFar(q, n - 1, QuickStep(n - 1));
      QueueOne(cfg, q, QUICK_JOB, QuickStep(n - 1).1, "quick");
      QueueOnePlaces(cfg, q, QUICK_JOB, QuickStep(n - 1).1, "quick");
      forall k ensures QueuedSoFar(Backlog(cfg, n), n, k) { assert QueuedSoFar(q, n - 1, k); }
    }
  }

  // ---- Each turn goes to the rival ----

  lemma {:induction false} ZeroSum<K>(m: map<K, real>)
    requires forall k | k in m :: m[k] == 0.0
    ensures MapSum(m) == 0.0
  {
    if m != map[] {
      var k :| k in m;
      MapSumRemove(m, k);
      ZeroSum(m - {k});
    }
  }

  lemma Uncapped(credit: nat, n: nat, q: Queue, t: TenantId, cost: real, granted: nat)
    requires TenantIs(q, t, cost, granted) && granted <= n
    ensures Admissible(Setting(credit, n), t, Seen(q).tenants[t], 0)
  {
    ZeroSum(LiveSeconds(q.tenants[t].running, 0));
  }

  lemma Contends(credit: nat, n: nat, q: Queue, t: TenantId, cost: real, granted: nat, k: StepRef)
    requires Inv(q, OwnerOf) && TenantIs(q, t, cost, granted) && granted <= n && IsWaiting(q, k) && OwnerOf(k.0) == t
    ensures HeadShare(Setting(credit, n), q, 0, t, cost)
  {
    WaitingHasHead(q, OwnerOf, k);
    Uncapped(credit, n, q, t, cost, granted);
    DropStaleKeeps(q.jobs, q.tenants[t].interactive);
    DropStaleKeeps(q.jobs, q.tenants[t].background);
  }

  lemma FloodContest(credit: nat, n: nat, q: Queue, waiting: set<StepRef>, granted: nat)
    requires Flood(credit, q, waiting, granted) && granted <= n && waiting != {}
    ensures Contest(Setting(credit, n), q, 0, DEAR, CHEAP, Price(credit), 1.0) &&
            HeadShare(Setting(credit, n), q, 0, CHEAP, 1.0)
  {
    var k :| k in waiting;
    Contends(credit, n, q, DEAR, Price(credit), granted, SLOW_STEP);
    Contends(credit, n, q, CHEAP, 1.0, granted, k);
  }

  /** A grant only takes from the queues, adds at most one slot, and writes no ledger. */
  lemma GrantTenant(cfg: Config, q: Queue, o: Offer, r: Queue, t: TenantId, cost: real, granted: nat)
    requires Inv(q, OwnerOf) && Turned(cfg, 0, q, o, r) && TenantIs(q, t, cost, granted)
    ensures TenantIs(r, t, cost, granted + 1)
  {
    PickFacts(cfg, q, OwnerOf, 0);
    GrantedFacts(cfg, Seen(q), 0, o.pick);
    TurnMovesOne(cfg, OwnerOf, 0, q, o, r, t, (o.job, o.step));
    GrantPrices(cfg, q, o, r, t, cost);
    if t == o.pick.tenant { RunningGrows(q.tenants[t].running, (o.job, o.step), 0); }
  }

  lemma GrantPrices(cfg: Config, q: Queue, o: Offer, r: Queue, t: TenantId, cost: real)
    requires Turned(cfg, 0, q, o, r) && t in q.tenants && Priced(q.tenants[t], cost)
    requires r.tenants == Seen(q).tenants[o.pick.tenant := r.tenants[o.pick.tenant]] && o.pick.tenant in r.tenants
    requires var me := Seen(q).tenants[o.pick.tenant];
      r.tenants[o.pick.tenant] == PopHead(me).(vftLast := o.pick.vft, running := me.running[(o.job, o.step) := 0])
    ensures t in r.tenants && Priced(r.tenants[t], cost) && r.tenants[t].ledger == q.tenants[t].ledger
  {
    DropStaleKeeps(q.jobs, q.tenants[t].interactive);
    DropStaleKeeps(q.jobs, q.tenants[t].background);
  }

  /** The turn goes to the rival and leaves the flood one step shorter. */
  lemma FloodTurn(credit: nat, n: nat, q: Queue, waiting: set<StepRef>, granted: nat) returns (left: set<StepRef>)
    requires Flood(credit, q, waiting, granted) && granted <= n && waiting != {} &&
             Trails(Setting(credit, n), q, DEAR, CHEAP, 1.0)
    ensures var cfg, r := Setting(credit, n), GrantOnce(Setting(credit, n), q, 0);
      && Flood(credit, r, left, granted + 1) && |left| >= |waiting| - 1 && Trails(cfg, r, DEAR, CHEAP, 1.0)
      && Best(cfg, Seen(q), 0).Some? && Best(cfg, Seen(q), 0).value.tenant == CHEAP
  {
    var cfg, r := Setting(credit, n), GrantOnce(Setting(credit, n), q, 0);
    FloodContest(credit, n, q, waiting, granted);
    ContestLost(cfg, q, OwnerOf, 0, DEAR, CHEAP, Price(credit), 1.0);
    var o := TurnOf(cfg, q);
    GrantOnceKeeps(cfg, q, OwnerOf, 0);
    GrantTenant(cfg, q, o, r, DEAR, Price(credit), granted);
    GrantTenant(cfg, q, o, r, CHEAP, 1.0, granted);
    left := waiting - {(o.job, o.step)};
    FewerByOne(waiting, (o.job, o.step));
    StillWaiting(cfg, q, o, r, left);
  }

  lemma FewerByOne<T>(s: set<T>, x: T)
    ensures |s - {x}| >= |s| - 1
  {
    if x in s { assert s == (s - {x}) + {x}; } else { assert s - {x} == s; }
  }

  lemma TurnOf(cfg: Config, q: Queue) returns (o: Offer)
    requires Inv(q, OwnerOf) && Best(cfg, Seen(q), 0).Some?
    ensures Turned(cfg, 0, q, o, GrantOnce(cfg, q, 0)) && o.pick == Best(cfg, Seen(q), 0).value &&
            OwnerOf(o.job) == o.pick.tenant
  {
    PickFacts(cfg, q, OwnerOf, 0);
    var p := Best(cfg, Seen(q), 0).value;
    var w := Head(Seen(q).tenants[p.tenant]).value;
    o := Offer(w.job, w.step, p);
  }

  lemma StillWaiting(cfg: Config, q: Queue, o: Offer, r: Queue, left: set<StepRef>)
    requires Inv(q, OwnerOf) && Turned(cfg, 0, q, o, r) && OwnerOf(o.job) == CHEAP && IsWaiting(q, SLOW_STEP)
    requires (o.job, o.step) !in left && forall k | k in left :: IsWaiting(q, k)
    ensures r.tenants.Keys == q.tenants.Keys && IsWaiting(r, SLOW_STEP) && forall k | k in left :: IsWaiting(r, k)
  {
    TurnMovesOne(cfg, OwnerOf, 0, q, o, r, DEAR, SLOW_STEP);
    forall k | k in left ensures IsWaiting(r, k) { TurnMovesOne(cfg, OwnerOf, 0, q, o, r, DEAR, k); }
  }

  lemma ChargedOne(credit: nat, n: nat, q: Queue, waiting: set<StepRef>, granted: nat)
    requires Flood(credit, q, waiting, granted) && granted <= n && waiting != {}
    requires Best(Setting(credit, n), Seen(q), 0).Some? && Best(Setting(credit, n), Seen(q), 0).value.tenant == CHEAP
    ensures ChargedTo(Setting(credit, n), q, Grant(0), CHEAP) == 1.0
  {
    FloodContest(credit, n, q, waiting, granted);
    PickFacts(Setting(credit, n), q, OwnerOf, 0);
  }

  // ---- Whole runs ----

  function Grants(n: nat): (ops: seq<Op>)
    ensures |ops| == n
  {
    if n == 0 then [] else Grants(n - 1) + [Grant(0)]
  }

  lemma {:induction false} GrantsAre(n: nat, i: nat)
    requires i < n
    ensures Grants(n)[i] == Grant(0) && Grants(n)[..i] == Grants(i)
  {
    if i < n - 1 {
      GrantsAre(n - 1, i);
      assert Grants(n)[..i] == Grants(n - 1)[..i];
    } else {
      assert Grants(n)[..n - 1] == Grants(n - 1);
    }
  }

  lemma {:induction false} FloodRun(credit: nat, n: nat, k: nat) returns (left: set<StepRef>)
    requires k <= n
    ensures var r := Run(Setting(credit, n), Backlog(Setting(credit, n), n), Grants(k));
      Flood(credit, r, left, k) && |left| >= n - k && Trails(Setting(credit, n), r, DEAR, CHEAP, 1.0)
    ensures SpentBy(Setting(credit, n), Backlog(Setting(credit, n), n), Grants(k), CHEAP) == k as real
  {
    if k == 0 {
      left := FloodStarts(credit, n);
    } else {
      var before := FloodRun(credit, n, k - 1);
      left := FloodGoesOn(credit, n, k, before);
    }
  }

  lemma FloodStarts(credit: nat, n: nat) returns (left: set<StepRef>)
    ensures var q := Backlog(Setting(credit, n), n);
      Flood(credit, q, left, 0) && |left| == n && Trails(Setting(credit, n), q, DEAR, CHEAP, 1.0)
  {
    BacklogIsReady(Setting(credit, n), n);
    QuickStepsCount(n);
    left := QuickSteps(n);
    forall k | k in left ensures IsWaiting(Backlog(Setting(credit, n), n), k) {
      assert QueuedSoFar(Backlog(Setting(credit, n), n), n, k);
    }
  }

  lemma FloodGoesOn(credit: nat, n: nat, k: nat, before: set<StepRef>) returns (left: set<StepRef>)
    requires 0 < k <= n && |before| > n - k
    requires var mid := Run(Setting(credit, n), Backlog(Setting(credit, n), n), Grants(k - 1));
      Flood(credit, mid, before, k - 1) && Trails(Setting(credit, n), mid, DEAR, CHEAP, 1.0)
    ensures var r := Run(Setting(credit, n), Backlog(Setting(credit, n), n), Grants(k));
      Flood(credit, r, left, k) && |left| >= n - k && Trails(Setting(credit, n), r, DEAR, CHEAP, 1.0)
    ensures SpentBy(Setting(credit, n), Backlog(Setting(credit, n), n), Grants(k), CHEAP) ==
            SpentBy(Setting(credit, n), Backlog(Setting(credit, n), n), Grants(k - 1), CHEAP) + 1.0
  {
    var cfg, q := Setting(credit, n), Backlog(Setting(credit, n), n);
    var mid := Run(cfg, q, Grants(k - 1));
    left := FloodTurn(credit, n, mid, before, k - 1);
    ChargedOne(credit, n, mid, before, k - 1);
    LastGrant(cfg, q, k);
  }

  lemma LastGrant(cfg: Config, q: Queue, k: nat)
    requires k > 0
    ensures Run(cfg, q, Grants(k)) == GrantOnce(cfg, Run(cfg, q, Grants(k - 1)), 0)
    ensures SpentBy(cfg, q, Grants(k), CHEAP) ==
            SpentBy(cfg, q, Grants(k - 1), CHEAP) + ChargedTo(cfg, Run(cfg, q, Grants(k - 1)), Grant(0), CHEAP)
  {
    assert Grants(k)[..k - 1] == Grants(k - 1);
  }

  lemma FloodedThroughout(credit: nat, n: nat, i: int)
    ensures FloodedAt(Setting(credit, n), Backlog(Setting(credit, n), n), Grants(n), DEAR, CHEAP, Price(credit), 1.0, i)
    ensures WaitsAt(Setting(credit, n), Backlog(Setting(credit, n), n), Grants(n), DEAR, Price(credit), i)
  {
    if 0 <= i < n {
      GrantsAre(n, i);
      var left := FloodRun(credit, n, i);
      var r := Run(Setting(credit, n), Backlog(Setting(credit, n), n), Grants(i));
      FloodContest(credit, n, r, left, i);
      ContestLost(Setting(credit, n), r, OwnerOf, 0, DEAR, CHEAP, Price(credit), 1.0);
    }
  }

  /** For every idle credit and every `n`: a run of `n` grants, all to the rival, past a waiting head worth
      three seconds more than the credit. Every hypothesis of the waiting bound holds but that one, and the
      rival is charged `n` where the bound would allow it that head's worth. */
  lemma StarvedForAnyLength(credit: nat, n: nat) returns (cfg: Config, q: Queue, owner: Owner, ops: seq<Op>)
    ensures cfg.idleCredit == credit && Inv(q, owner) && EnabledRun(cfg, q, owner, ops) && |ops| == n
    ensures WaitRun(cfg, q, ops, DEAR, Price(credit))
    ensures forall i :: FloodedAt(cfg, q, ops, DEAR, CHEAP, Price(credit), 1.0, i)
    ensures Trails(cfg, q, DEAR, CHEAP, 1.0) && Price(credit) > cfg.Credit() + 2.0 * 1.0
    ensures SpentBy(cfg, q, ops, CHEAP) == n as real
    ensures Start(cfg, q, DEAR) + Price(credit) - Start(cfg, q, CHEAP) == cfg.Credit() + 3.0
  {
    cfg, owner, ops := Setting(credit, n), OwnerOf, Grants(n);
    q := Backlog(cfg, n);
    BacklogIsReady(cfg, n);
    var left := FloodRun(credit, n, n);
    left := FloodRun(credit, n, 0);
    forall i | 0 <= i < |ops| ensures Enabled(Run(cfg, q, ops[..i]), owner, ops[i]) { GrantsAre(n, i); }
    forall i
      ensures FloodedAt(cfg, q, ops, DEAR, CHEAP, Price(credit), 1.0, i) && WaitsAt(cfg, q, ops, DEAR, Price(credit), i)
    {
      FloodedThroughout(credit, n, i);
    }
  }
}
