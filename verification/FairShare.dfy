/** The weighted fair scheduler's state and its operations, as functions of that state.

    `f64` is modelled by `real`, and an instant or duration by a count of nanoseconds. */
module FairShare {
  import opened Wrappers
  import opened Orders
  import opened Sums
  import opened JobModel

  type TenantId = string
  type StepRef = (JobId, StepId)

  const MIN_COST: real := 0.001
  const ROLLING_WINDOW: nat := 3_600_000_000_000
  const COST_SAMPLES: nat := 16
  const COST_KEYS_PER_TENANT: nat := 1024
  const USIZE_MAX: nat := 0xFFFF_FFFF_FFFF_FFFF

  function Secs(d: nat): real { d as real / 1000000000.0 }

  /** `now.saturating_duration_since(at)` */
  function Elapsed(now: Instant, at: Instant): nat { if now >= at then now - at else 0 }

  function Max(a: real, b: real): real { if a >= b then a else b }

  datatype Priority = Interactive | Background

  datatype Plan = Plan(weight: real, maxRunning: nat, nodeMinutes: real) {
    /** A plan without a usable weight counts as weight one. */
    function SafeWeight(): (w: real) ensures w > 0.0 { if weight > 0.0 then weight else 1.0 }
  }

  datatype Config = Config(defaultPlan: Plan, plans: map<TenantId, Plan>, fleetSlots: Option<nat>, defaultCost: nat,
      idleCredit: nat) {
    function PlanOf(t: TenantId): Plan { if t in plans then plans[t] else defaultPlan }
    function Weight(t: TenantId): (w: real) ensures w > 0.0 { PlanOf(t).SafeWeight() }
    function Credit(): real { Secs(idleCredit) }
  }

  datatype Waiting = Waiting(job: JobId, step: StepId, cost: real) {
    function Ref(): StepRef { (job, step) }
  }

  datatype Placement = Placement(name: string, since: Option<Instant>, charged: Option<real>)

  datatype JobMeta = JobMeta(tenant: TenantId, priority: Priority, steps: map<StepId, Placement>)

  datatype Tenant = Tenant(vftLast: real, interactive: seq<Waiting>, background: seq<Waiting>,
                           running: map<StepRef, Instant>, ledger: seq<(Instant, nat)>)

  const NEW_TENANT := Tenant(0.0, [], [], map[], [])

  datatype Queue = Queue(virtualNow: real, tenants: map<TenantId, Tenant>, jobs: map<JobId, JobMeta>,
                         costs: map<(TenantId, string), seq<real>>, costKeys: map<TenantId, seq<string>>)

  const EMPTY := Queue(0.0, map[], map[], map[], map[])

  function TenantOf(q: Queue, t: TenantId): Tenant { if t in q.tenants then q.tenants[t] else NEW_TENANT }

  function PlacementOf(q: Queue, k: StepRef): Option<Placement> {
    if k.0 in q.jobs && k.1 in q.jobs[k.0].steps then Some(q.jobs[k.0].steps[k.1]) else None
  }

  /** Placed and not started: queued. */
  predicate IsWaiting(q: Queue, k: StepRef) { PlacementOf(q, k).Some? && PlacementOf(q, k).value.since.None? }

  function StartOf(q: Queue, k: StepRef): Option<Instant> {
    if PlacementOf(q, k).Some? then PlacementOf(q, k).value.since else None
  }

  // ---- Cost estimation ----

  function InsertReal(x: real, s: seq<real>): seq<real> {
    if s == [] || x <= s[0] then [x] + s else [s[0]] + InsertReal(x, s[1..])
  }

  function SortReals(s: seq<real>): (r: seq<real>)
    ensures |r| == |s|
  {
    if s == [] then [] else InsertSize(s[0], SortReals(s[1..])); InsertReal(s[0], SortReals(s[1..]))
  }

  lemma InsertSize(x: real, s: seq<real>)
    ensures |InsertReal(x, s)| == |s| + 1
  {
  }

  /** The p50 of a step name's recent runs, or the default; never below the floor. */
  function Estimate(cfg: Config, q: Queue, t: TenantId, name: string): (cost: real)
    ensures cost >= MIN_COST
  {
    var guess := if (t, name) in q.costs && q.costs[(t, name)] != [] then
                   var sorted := SortReals(q.costs[(t, name)]); sorted[|sorted| / 2]
                 else Secs(cfg.defaultCost);
    Max(guess, MIN_COST)
  }

  ghost predicate Rising(s: seq<real>) { forall i, j | 0 <= i < j < |s| :: s[i] <= s[j] }

  lemma PrependRises(x: real, s: seq<real>)
    requires Rising(s) && (s == [] || x <= s[0])
    ensures Rising([x] + s)
  {
  }

  lemma {:induction false} InsertRises(x: real, s: seq<real>)
    requires Rising(s)
    ensures var r := InsertReal(x, s); r != [] && Rising(r) && (r[0] == x || (s != [] && r[0] == s[0]))
  {
    if s == [] || x <= s[0] {
      PrependRises(x, s);
    } else {
      InsertRises(x, s[1..]);
      PrependRises(s[0], InsertReal(x, s[1..]));
    }
  }

  lemma {:induction false} InsertKeeps(x: real, s: seq<real>)
    ensures multiset(InsertReal(x, s)) == multiset(s) + multiset{x}
  {
    if s != [] && x > s[0] {
      InsertKeeps(x, s[1..]);
      assert s == [s[0]] + s[1..];
    }
  }

  /** The sort the estimate reads its median from is one: same samples, rising. */
  lemma {:induction false} SortRises(s: seq<real>)
    ensures Rising(SortReals(s)) && multiset(SortReals(s)) == multiset(s)
  {
    if s != [] {
      SortRises(s[1..]);
      InsertRises(s[0], SortReals(s[1..]));
      InsertKeeps(s[0], SortReals(s[1..]));
      assert s == [s[0]] + s[1..];
    }
  }

  /** An estimate is the upper median of the step name's recent samples, never below the floor; a name
      with no history costs the default. */
  lemma EstimateIsMedian(cfg: Config, q: Queue, t: TenantId, name: string) returns (sorted: seq<real>)
    ensures Rising(sorted) && multiset(sorted) == multiset(if (t, name) in q.costs then q.costs[(t, name)] else [])
    ensures Estimate(cfg, q, t, name) ==
            Max(if sorted == [] then Secs(cfg.defaultCost) else sorted[|sorted| / 2], MIN_COST)
  {
    var samples := if (t, name) in q.costs then q.costs[(t, name)] else [];
    SortRises(samples);
    sorted := SortReals(samples);
  }

  function KeepLast<T>(s: seq<T>, n: nat): seq<T> { if |s| > n then s[|s| - n..] else s }

  function Without(costs: map<(TenantId, string), seq<real>>, t: TenantId, lost: seq<string>): map<(TenantId, string),
                   seq<real>> {
    map k | k in costs && !(k.0 == t && k.1 in lost) :: costs[k]
  }

  /** Make room for a new step name, forgetting the tenant's oldest names past the bound. */
  function Registered(q: Queue, t: TenantId, name: string): Queue {
    if (t, name) in q.costs then q
    else
      var names := (if t in q.costKeys then q.costKeys[t] else []) + [name];
      var kept := KeepLast(names, COST_KEYS_PER_TENANT);
      q.(costs := Without(q.costs, t, names[..|names| - |kept|]), costKeys := q.costKeys[t := kept])
  }

  function Sampled(q: Queue, key: (TenantId, string), secs: real): Queue {
    q.(costs := q.costs[key := KeepLast((if key in q.costs then q.costs[key] else []) + [secs], COST_SAMPLES)])
  }

  /** Teach the estimator one run. */
  function Observe(q: Queue, t: TenantId, name: string, ran: nat): Queue {
    Sampled(Registered(q, t, name), (t, name), Secs(ran))
  }

  // ---- Bookkeeping ----

  function AdmitJob(q: Queue, j: JobId, t: TenantId, p: Priority): Queue {
    q.(tenants := q.tenants[t := TenantOf(q, t)],
       jobs := q.jobs[j := if j in q.jobs then q.jobs[j].(priority := p) else JobMeta(t, p, map[])])
  }

  function Pushed(t: Tenant, p: Priority, w: Waiting): Tenant {
    match p
    case Interactive => t.(interactive := t.interactive + [w])
    case Background => t.(background := t.background + [w])
  }

  function Enqueue(cfg: Config, q: Queue, j: JobId, s: StepId, name: string): Queue {
    if j !in q.jobs || s in q.jobs[j].steps then q
    else
      var meta := q.jobs[j];
      var w := Waiting(j, s, Estimate(cfg, q, meta.tenant, name));
      q.(jobs := q.jobs[j := meta.(steps := meta.steps[s := Placement(name, None, None)])],
         tenants := q.tenants[meta.tenant := Pushed(TenantOf(q, meta.tenant), meta.priority, w)])
  }

  /** A started step leaving its slot: the time it held is paid, and what it was charged on an estimate
      is replaced by what it took. */
  function Departed(cfg: Config, name: TenantId, t: Tenant, k: StepRef, p: Placement, at: Instant): Tenant
    requires p.since.Some?
  {
    var ran := Elapsed(at, p.since.value);
    t.(running := t.running - {k}, ledger := t.ledger + [(at, ran)],
       vftLast := if p.charged.Some? then t.vftLast + (Secs(ran) - p.charged.value) / cfg.Weight(name) else t.vftLast)
  }

  /** The tenants after a step left its place. */
  function AfterLeaving(cfg: Config, q: Queue, j: JobId, s: StepId, at: Instant): map<TenantId, Tenant>
    requires PlacementOf(q, (j, s)).Some?
  {
    var t, p := q.jobs[j].tenant, q.jobs[j].steps[s];
    if p.since.Some? && t in q.tenants then q.tenants[t := Departed(cfg, t, q.tenants[t], (j, s), p, at)] else q.tenants
  }

  function Vacated(cfg: Config, q: Queue, j: JobId, s: StepId, at: Instant): Queue
    requires PlacementOf(q, (j, s)).Some?
  {
    q.(jobs := q.jobs[j := q.jobs[j].(steps := q.jobs[j].steps - {s})], tenants := AfterLeaving(cfg, q, j, s, at))
  }

  function Unplace(cfg: Config, q: Queue, j: JobId, s: StepId, at: Instant, learn: bool): Queue {
    match PlacementOf(q, (j, s))
    case None => q
    case Some(p) =>
      var r := Vacated(cfg, q, j, s, at);
      if learn && p.since.Some? then Observe(r, q.jobs[j].tenant, p.name, Elapsed(at, p.since.value)) else r
  }

  function Requeue(cfg: Config, q: Queue, j: JobId, s: StepId, name: string, at: Instant): Queue {
    Enqueue(cfg, Unplace(cfg, q, j, s, at, false), j, s, name)
  }

  /** Release every step of `order`, in order. */
  function ReleaseAll(cfg: Config, q: Queue, j: JobId, order: seq<StepId>, at: Instant): Queue
    decreases |order|
  {
    if order == [] then q else ReleaseAll(cfg, Unplace(cfg, q, j, order[0], at, false), j, order[1..], at)
  }

  function DropJob(q: Queue, j: JobId): Queue { q.(jobs := q.jobs - {j}) }

  /** `order` is whatever order the job's step map is visited in. */
  function ForgetJob(cfg: Config, q: Queue, j: JobId, order: seq<StepId>, at: Instant): Queue {
    if j !in q.jobs then q else DropJob(ReleaseAll(cfg, q, j, order, at), j)
  }

  function Adopt(q: Queue, j: JobId, s: StepId, name: string, since: Instant): Queue {
    if j !in q.jobs then q
    else
      var meta := q.jobs[j];
      var t := TenantOf(q, meta.tenant);
      q.(jobs := q.jobs[j := meta.(steps := meta.steps[s := Placement(name, Some(since), None)])],
         tenants := q.tenants[meta.tenant := t.(running := t.running[(j, s) := since])])
  }

  datatype StepView = StepView(step: StepId, name: string, state: StepState, startedAt: Option<Instant>,
      finishedAt: Option<Instant>)

  datatype JobView = JobView(job: JobId, tenant: TenantId, priority: Priority, steps: seq<StepView>)

  function Or(o: Option<Instant>, now: Instant): Instant { match o case None => now case Some(at) => at }

  /** Bring one step's placement in line with what was observed of it. */
  function ReconcileStep(cfg: Config, q: Queue, j: JobId, v: StepView, now: Instant): Queue {
    var p := PlacementOf(q, (j, v.step));
    match v.state
    case Ready =>
      if p.None? then Enqueue(cfg, q, j, v.step, v.name)
      else if p.value.since.Some? then Requeue(cfg, q, j, v.step, v.name, now)
      else q
    case Pending => q
    case Passed => if p.Some? then Unplace(cfg, q, j, v.step, Or(v.finishedAt, now), true) else q
    case Failed => if p.Some? then Unplace(cfg, q, j, v.step, Or(v.finishedAt, now), true) else q
    case Errored => if p.Some? then Unplace(cfg, q, j, v.step, Or(v.finishedAt, now), false) else q
    case Cached => if p.Some? then Unplace(cfg, q, j, v.step, Or(v.finishedAt, now), false) else q
    case Skipped => if p.Some? then Unplace(cfg, q, j, v.step, Or(v.finishedAt, now), false) else q
    case Leased =>
      if p.Some? && p.value.since.Some? then q
      else Adopt(Unplace(cfg, q, j, v.step, now, false), j, v.step, v.name, Or(v.startedAt, now))
    case Running =>
      if p.Some? && p.value.since.Some? then q
      else Adopt(Unplace(cfg, q, j, v.step, now, false), j, v.step, v.name, Or(v.startedAt, now))
  }

  function ReconcileSteps(cfg: Config, q: Queue, j: JobId, vs: seq<StepView>, now: Instant): Queue
    decreases |vs|
  {
    if vs == [] then q else ReconcileSteps(cfg, ReconcileStep(cfg, q, j, vs[0], now), j, vs[1..], now)
  }

  function Reconcile(cfg: Config, q: Queue, view: JobView, now: Instant): Queue {
    ReconcileSteps(cfg, AdmitJob(q, view.job, view.tenant, view.priority), view.job, view.steps, now)
  }

  // ---- Selection ----

  /** Interactive work goes before background work; `None` when both queues are empty. */
  function HeadClass(t: Tenant): Option<Priority> {
    if t.interactive != [] then Some(Interactive) else if t.background != [] then Some(Background) else None
  }

  function Head(t: Tenant): Option<Waiting> {
    match HeadClass(t)
    case None => None
    case Some(Interactive) => Some(t.interactive[0])
    case Some(Background) => Some(t.background[0])
  }

  function PopHead(t: Tenant): Tenant {
    match HeadClass(t)
    case None => t
    case Some(Interactive) => t.(interactive := t.interactive[1..])
    case Some(Background) => t.(background := t.background[1..])
  }

  predicate LiveEntry(jobs: map<JobId, JobMeta>, w: Waiting) {
    w.job in jobs && w.step in jobs[w.job].steps && jobs[w.job].steps[w.step].since.None?
  }

  function DropStale(jobs: map<JobId, JobMeta>, ws: seq<Waiting>): seq<Waiting> {
    if ws == [] || LiveEntry(jobs, ws[0]) then ws else DropStale(jobs, ws[1..])
  }

  function Fresh(jobs: map<JobId, JobMeta>, t: Tenant): Tenant {
    t.(interactive := DropStale(jobs, t.interactive), background := DropStale(jobs, t.background))
  }

  function DropStaleHeads(q: Queue): Queue {
    q.(tenants := map t | t in q.tenants :: Fresh(q.jobs, q.tenants[t]))
  }

  function InWindow(ledger: seq<(Instant, nat)>, now: Instant): real {
    if ledger == [] then 0.0
    else (if Elapsed(now, ledger[0].0) < ROLLING_WINDOW then Secs(ledger[0].1) else 0.0) + InWindow(ledger[1..], now)
  }

  ghost function LiveSeconds(running: map<StepRef, Instant>, now: Instant): map<StepRef, real> {
    map k | k in running :: Secs(Elapsed(now, running[k]))
  }

  /** Ledger entries not yet expired, and the time the running steps have held so far. */
  ghost function NodeSeconds(t: Tenant, now: Instant): real {
    InWindow(t.ledger, now) + MapSum(LiveSeconds(t.running, now))
  }

  ghost predicate Admissible(cfg: Config, name: TenantId, t: Tenant, now: Instant) {
    var plan := cfg.PlanOf(name);
    |t.running| < plan.maxRunning && NodeSeconds(t, now) < plan.nodeMinutes * 60.0
  }

  function PruneLedger(ledger: seq<(Instant, nat)>, now: Instant): seq<(Instant, nat)> {
    if ledger == [] || Elapsed(now, ledger[0].0) < ROLLING_WINDOW then ledger else PruneLedger(ledger[1..], now)
  }

  function PruneLedgers(q: Queue, now: Instant): Queue {
    q.(tenants := map t | t in q.tenants :: q.tenants[t].(ledger := PruneLedger(q.tenants[t].ledger, now)))
  }

  function Floor(cfg: Config, q: Queue): real { q.virtualNow - cfg.Credit() }

  /** A tenant's start tag: its own clock, but never more than the idle credit behind. */
  function Start(cfg: Config, q: Queue, t: TenantId): real { Max(TenantOf(q, t).vftLast, Floor(cfg, q)) }

  function Tag(cfg: Config, q: Queue, t: TenantId): real
    requires Head(TenantOf(q, t)).Some?
  {
    Start(cfg, q, t) + Head(TenantOf(q, t)).value.cost / cfg.Weight(t)
  }

  ghost predicate Candidate(cfg: Config, q: Queue, now: Instant, t: TenantId) {
    t in q.tenants && Head(q.tenants[t]).Some? && Admissible(cfg, t, q.tenants[t], now)
  }

  datatype Pick = Pick(tenant: TenantId, start: real, vft: real)

  /** The best so far, after looking at one more tenant: a later name must tag strictly smaller. */
  ghost function Considered(cfg: Config, q: Queue, now: Instant, best: Option<Pick>, t: TenantId): Option<Pick> {
    if Candidate(cfg, q, now, t) && (best.None? || Tag(cfg, q, t) < best.value.vft)
    then Some(Pick(t, Start(cfg, q, t), Tag(cfg, q, t)))
    else best
  }

  ghost function BestOf(cfg: Config, q: Queue, now: Instant, names: seq<TenantId>): Option<Pick> {
    if names == [] then None
    else Considered(cfg, q, now, BestOf(cfg, q, now, names[..|names| - 1]), names[|names| - 1])
  }

  /** The tenants in name order, each compared with the best before it. */
  ghost function Best(cfg: Config, q: Queue, now: Instant): Option<Pick> {
    BestOf(cfg, q, now, InOrder(q.tenants.Keys))
  }

  /** Node-seconds a grant is charged, on the estimate. */
  function ChargeFor(cfg: Config, p: Pick): real { (p.vft - p.start) * cfg.Weight(p.tenant) }

  function Placed(cfg: Config, pl: Placement, p: Pick, now: Instant): Placement {
    pl.(since := Some(now), charged := Some(ChargeFor(cfg, p)))
  }

  /** Grant the picked tenant's head. */
  function Granted(cfg: Config, q: Queue, now: Instant, p: Pick): Queue
    requires Head(TenantOf(q, p.tenant)).Some?
  {
    var t, w := TenantOf(q, p.tenant), Head(TenantOf(q, p.tenant)).value;
    q.(virtualNow := Max(q.virtualNow, p.start),
       tenants := q.tenants[p.tenant := PopHead(t).(vftLast := p.vft, running := t.running[w.Ref() := now])],
       jobs := if PlacementOf(q, w.Ref()).None? then q.jobs
               else
                 var meta := q.jobs[w.job];
                 q.jobs[w.job := meta.(steps := meta.steps[w.step := Placed(cfg, meta.steps[w.step], p, now)])])
  }

  datatype Offer = Offer(job: JobId, step: StepId, pick: Pick)

  lemma {:induction false} BestOfIsCandidate(cfg: Config, q: Queue, now: Instant, names: seq<TenantId>)
    ensures var b := BestOf(cfg, q, now, names);
      b.Some? ==>
        var t := b.value.tenant;
        t in names && Candidate(cfg, q, now, t) && b.value == Pick(t, Start(cfg, q, t), Tag(cfg, q, t))
  {
    if names != [] { BestOfIsCandidate(cfg, q, now, names[..|names| - 1]); }
  }

  /** Every step in a slot, whichever tenant it is accounted to. */
  ghost function InFlight(q: Queue): set<(TenantId, StepRef)> {
    set t, k | t in q.tenants && k in q.tenants[t].running :: (t, k)
  }

  ghost function Budget(cfg: Config, q: Queue): nat {
    match cfg.fleetSlots
    case None => USIZE_MAX
    case Some(total) => if total > |InFlight(q)| then total - |InFlight(q)| else 0
  }
}
