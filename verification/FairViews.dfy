/** The scheduler's public operations: each is a run of primitive steps, and reconciling makes its
    accounting match what was observed. */
module FairViews {
  import opened Wrappers
  import opened JobModel
  import opened FairShare
  import opened FairRuns

  // ---- Public operations are runs ----

  lemma {:induction false} EnabledConcat(cfg: Config, q: Queue, owner: Owner, a: seq<Op>, b: seq<Op>)
    requires EnabledRun(cfg, q, owner, a) && EnabledRun(cfg, Run(cfg, q, a), owner, b)
    ensures EnabledRun(cfg, q, owner, a + b)
  {
    forall n | 0 <= n < |a + b| ensures Enabled(Run(cfg, q, (a + b)[..n]), owner, (a + b)[n]) {
      if n < |a| {
        assert (a + b)[..n] == a[..n];
      } else {
        assert (a + b)[..n] == a + b[..n - |a|];
        RunConcat(cfg, q, a, b[..n - |a|]);
      }
    }
  }

  lemma RunOne(cfg: Config, q: Queue, op: Op)
    ensures Run(cfg, q, [op]) == Apply(cfg, q, op)
  {
    assert [op][..0] == [];
  }

  lemma RunTwo(cfg: Config, q: Queue, a: Op, b: Op)
    ensures Run(cfg, q, [a, b]) == Apply(cfg, Apply(cfg, q, a), b)
  {
    assert [a, b][..1] == [a];
    RunOne(cfg, q, a);
  }

  function ReconcileStepOps(q: Queue, j: JobId, v: StepView, now: Instant): seq<Op> {
    var p := PlacementOf(q, (j, v.step));
    if v.state == Ready then
      (if p.None? then [Enter(j, v.step, v.name)]
       else if p.value.since.Some? then [Leave(j, v.step, now, false), Enter(j, v.step, v.name)]
       else [])
    else if v.state == Leased || v.state == Running then
      (if p.Some? && p.value.since.Some? then []
       else [Leave(j, v.step, now, false), TakeOver(j, v.step, v.name, Or(v.startedAt, now))])
    else if v.state == Pending || p.None? then []
    else [Leave(j, v.step, Or(v.finishedAt, now), v.state == Passed || v.state == Failed)]
  }

  lemma UnplaceClears(cfg: Config, q: Queue, j: JobId, s: StepId, at: Instant, learn: bool)
    ensures PlacementOf(Unplace(cfg, q, j, s, at, learn), (j, s)).None?
    ensures j in Unplace(cfg, q, j, s, at, learn).jobs <==> j in q.jobs
  {
    if PlacementOf(q, (j, s)).Some? {
      UnplaceFacts(cfg, q, j, s, at, learn);
      PlacedAt(q, Unplace(cfg, q, j, s, at, learn), j, s, q.jobs[j].steps - {s}, (j, s));
    }
  }

  lemma LeaveThen(cfg: Config, q: Queue, owner: Owner, j: JobId, s: StepId, now: Instant, next: Op)
    requires next.Enter? || (next.TakeOver? && next.job == j && next.step == s)
    ensures var ops := [Leave(j, s, now, false), next];
      EnabledRun(cfg, q, owner, ops) && Run(cfg, q, ops) == Apply(cfg, Unplace(cfg, q, j, s, now, false), next)
  {
    var ops := [Leave(j, s, now, false), next];
    RunTwo(cfg, q, ops[0], ops[1]);
    UnplaceClears(cfg, q, j, s, now, false);
    assert ops[..1] == [ops[0]];
    RunOne(cfg, q, ops[0]);
  }

  lemma OneOpRun(cfg: Config, q: Queue, owner: Owner, op: Op)
    requires Enabled(q, owner, op)
    ensures EnabledRun(cfg, q, owner, [op]) && Run(cfg, q, [op]) == Apply(cfg, q, op)
  {
    RunOne(cfg, q, op);
  }

  lemma NoOpRun(cfg: Config, q: Queue, owner: Owner)
    ensures EnabledRun(cfg, q, owner, []) && Run(cfg, q, []) == q
  {
  }

  /** The operations `ops` are enabled and lead from `q` to `r`. */
  ghost predicate Leads(cfg: Config, q: Queue, owner: Owner, ops: seq<Op>, r: Queue) {
    EnabledRun(cfg, q, owner, ops) && Run(cfg, q, ops) == r
  }

  lemma ReadyIsRun(cfg: Config, q: Queue, owner: Owner, j: JobId, v: StepView, now: Instant)
    requires v.state == Ready
    ensures Leads(cfg, q, owner, ReconcileStepOps(q, j, v, now), ReconcileStep(cfg, q, j, v, now))
  {
    match PlacementOf(q, (j, v.step))
    case None => OneOpRun(cfg, q, owner, Enter(j, v.step, v.name));
    case Some(p) =>
      if p.since.Some? { LeaveThen(cfg, q, owner, j, v.step, now, Enter(j, v.step, v.name)); }
          else { NoOpRun(cfg, q, owner); }
  }

  lemma InFlightIsRun(cfg: Config, q: Queue, owner: Owner, j: JobId, v: StepView, now: Instant)
    requires v.state == Leased || v.state == Running
    ensures Leads(cfg, q, owner, ReconcileStepOps(q, j, v, now), ReconcileStep(cfg, q, j, v, now))
  {
    if StartOf(q, (j, v.step)).Some? {
      NoOpRun(cfg, q, owner);
    } else {
      LeaveThen(cfg, q, owner, j, v.step, now, TakeOver(j, v.step, v.name, Or(v.startedAt, now)));
    }
  }

  lemma DoneIsRun(cfg: Config, q: Queue, owner: Owner, j: JobId, v: StepView, now: Instant)
    requires v.state.Terminal()
    ensures Leads(cfg, q, owner, ReconcileStepOps(q, j, v, now), ReconcileStep(cfg, q, j, v, now))
  {
    if PlacementOf(q, (j, v.step)).Some? {
      OneOpRun(cfg, q, owner, Leave(j, v.step, Or(v.finishedAt, now), v.state == Passed || v.state == Failed));
    } else {
      NoOpRun(cfg, q, owner);
    }
  }

  lemma ReconcileStepIsRun(cfg: Config, q: Queue, owner: Owner, j: JobId, v: StepView, now: Instant)
    ensures Leads(cfg, q, owner, ReconcileStepOps(q, j, v, now), ReconcileStep(cfg, q, j, v, now))
  {
    if v.state == Ready {
      ReadyIsRun(cfg, q, owner, j, v, now);
    } else if v.state == Leased || v.state == Running {
      InFlightIsRun(cfg, q, owner, j, v, now);
    } else if v.state.Terminal() {
      DoneIsRun(cfg, q, owner, j, v, now);
    } else {
      NoOpRun(cfg, q, owner);
    }
  }

  ghost function ReconcileStepsOps(cfg: Config, q: Queue, j: JobId, vs: seq<StepView>, now: Instant): seq<Op>
    decreases |vs|
  {
    if vs == [] then []
    else ReconcileStepOps(q, j, vs[0], now) + ReconcileStepsOps(cfg, ReconcileStep(cfg, q, j, vs[0], now), j, vs[1..],
        now)
  }

  lemma {:induction false} ReconcileStepsIsRun(cfg: Config, q: Queue, owner: Owner, j: JobId, vs: seq<StepView>,
                                               now: Instant)
    ensures Run(cfg, q, ReconcileStepsOps(cfg, q, j, vs, now)) == ReconcileSteps(cfg, q, j, vs, now)
    ensures EnabledRun(cfg, q, owner, ReconcileStepsOps(cfg, q, j, vs, now))
    decreases |vs|
  {
    if vs != [] {
      var a, mid := ReconcileStepOps(q, j, vs[0], now), ReconcileStep(cfg, q, j, vs[0], now);
      var b := ReconcileStepsOps(cfg, mid, j, vs[1..], now);
      ReconcileStepIsRun(cfg, q, owner, j, vs[0], now);
      ReconcileStepsIsRun(cfg, mid, owner, j, vs[1..], now);
      RunConcat(cfg, q, a, b);
      EnabledConcat(cfg, q, owner, a, b);
    }
  }

  lemma ReconcileIsRun(cfg: Config, q: Queue, owner: Owner, view: JobView, now: Instant) returns (ops: seq<Op>)
    requires view.tenant == owner(view.job)
    ensures Run(cfg, q, ops) == Reconcile(cfg, q, view, now) && EnabledRun(cfg, q, owner, ops)
  {
    var a := [Admit(view.job, view.tenant, view.priority)];
    RunOne(cfg, q, a[0]);
    var mid := AdmitJob(q, view.job, view.tenant, view.priority);
    var b := ReconcileStepsOps(cfg, mid, view.job, view.steps, now);
    ReconcileStepsIsRun(cfg, mid, owner, view.job, view.steps, now);
    RunConcat(cfg, q, a, b);
    assert EnabledRun(cfg, q, owner, a) by { assert a[..0] == []; }
    EnabledConcat(cfg, q, owner, a, b);
    ops := a + b;
  }

  /** `reconcile` keeps the representation invariant. */
  lemma ReconcileKeeps(cfg: Config, q: Queue, owner: Owner, view: JobView, now: Instant)
    requires Inv(q, owner) && view.tenant == owner(view.job)
    ensures Inv(Reconcile(cfg, q, view, now), owner)
  {
    var ops := ReconcileIsRun(cfg, q, owner, view, now);
    RunKeeps(cfg, q, owner, ops);
  }

  ghost function LeaveAll(j: JobId, order: seq<StepId>, at: Instant): seq<Op> {
    if order == [] then [] else [Leave(j, order[0], at, false)] + LeaveAll(j, order[1..], at)
  }

  lemma {:induction false} ReleaseAllIsRun(cfg: Config, q: Queue, owner: Owner, j: JobId, order: seq<StepId>,
                                           at: Instant)
    ensures Run(cfg, q, LeaveAll(j, order, at)) == ReleaseAll(cfg, q, j, order, at)
    ensures EnabledRun(cfg, q, owner, LeaveAll(j, order, at))
    decreases |order|
  {
    if order != [] {
      var a, mid := [Leave(j, order[0], at, false)], Unplace(cfg, q, j, order[0], at, false);
      RunOne(cfg, q, a[0]);
      ReleaseAllIsRun(cfg, mid, owner, j, order[1..], at);
      RunConcat(cfg, q, a, LeaveAll(j, order[1..], at));
      EnabledConcat(cfg, q, owner, a, LeaveAll(j, order[1..], at));
    }
  }

  lemma {:induction false} ReleaseAllEmpties(cfg: Config, q: Queue, j: JobId, order: seq<StepId>, at: Instant)
    requires j in q.jobs && forall s | s in q.jobs[j].steps :: s in order
    ensures var r := ReleaseAll(cfg, q, j, order, at); j in r.jobs && r.jobs[j].steps == map[]
    decreases |order|
  {
    if order == [] {
      assert q.jobs[j].steps == map[];
    } else {
      var mid := Unplace(cfg, q, j, order[0], at, false);
      if PlacementOf(q, (j, order[0])).Some? { UnplaceFacts(cfg, q, j, order[0], at, false); }
      assert j in mid.jobs && forall s | s in mid.jobs[j].steps :: s in q.jobs[j].steps && s != order[0];
      ReleaseAllEmpties(cfg, mid, j, order[1..], at);
    }
  }

  /** `forget_job`, in whatever order it visits the job's steps, is a run: it keeps the invariant and
      leaves nothing of the job. */
  lemma ForgetKeeps(cfg: Config, q: Queue, owner: Owner, j: JobId, order: seq<StepId>, at: Instant)
    requires Inv(q, owner) && (j in q.jobs ==> forall s | s in q.jobs[j].steps :: s in order)
    ensures Inv(ForgetJob(cfg, q, j, order, at), owner)
    ensures forall s :: PlacementOf(ForgetJob(cfg, q, j, order, at), (j, s)).None?
  {
    if j in q.jobs {
      var a, mid := LeaveAll(j, order, at), ReleaseAll(cfg, q, j, order, at);
      ReleaseAllIsRun(cfg, q, owner, j, order, at);
      ReleaseAllEmpties(cfg, q, j, order, at);
      RunKeeps(cfg, q, owner, a);
      DropKeeps(mid, owner, j);
    }
  }

  // ---- Reconciling matches the observation ----

  /** The placement is what the observed state calls for. */
  ghost predicate Agrees(q: Queue, j: JobId, v: StepView) {
    match v.state
    case Ready => IsWaiting(q, (j, v.step))
    case Leased => StartOf(q, (j, v.step)).Some?
    case Running => StartOf(q, (j, v.step)).Some?
    case Pending => true
    case _ => PlacementOf(q, (j, v.step)).None?
  }

  lemma EnqueuePlaces(cfg: Config, q: Queue, j: JobId, s: StepId, name: string, k: StepRef)
    requires j in q.jobs && PlacementOf(q, (j, s)).None?
    ensures var r := Enqueue(cfg, q, j, s, name);
      && PlacementOf(r, k) == (if k == (j, s) then Some(Placement(name, None, None)) else PlacementOf(q, k))
      && j in r.jobs && r.jobs[j].priority == q.jobs[j].priority && q.tenants.Keys <= r.tenants.Keys
  {
  }

  lemma AdoptPlaces(q: Queue, j: JobId, s: StepId, name: string, since: Instant, k: StepRef)
    requires j in q.jobs
    ensures var r := Adopt(q, j, s, name, since);
      && PlacementOf(r, k) == (if k == (j, s) then Some(Placement(name, Some(since), None)) else PlacementOf(q, k))
      && j in r.jobs && r.jobs[j].priority == q.jobs[j].priority && q.tenants.Keys <= r.tenants.Keys
  {
  }

  lemma UnplacePlaces(cfg: Config, q: Queue, j: JobId, s: StepId, at: Instant, learn: bool, k: StepRef)
    requires j in q.jobs
    ensures var r := Unplace(cfg, q, j, s, at, learn);
      && PlacementOf(r, k) == (if k == (j, s) then None else PlacementOf(q, k))
      && j in r.jobs && r.jobs[j].priority == q.jobs[j].priority && q.tenants.Keys <= r.tenants.Keys
  {
    if PlacementOf(q, (j, s)).Some? {
      UnplaceFacts(cfg, q, j, s, at, learn);
      PlacedAt(q, Unplace(cfg, q, j, s, at, learn), j, s, q.jobs[j].steps - {s}, k);
    }
  }

  /** One step's reconciliation settles that step and touches no other. */
  lemma ReconcileStepSettles(cfg: Config, q: Queue, j: JobId, v: StepView, now: Instant, k: StepRef)
    requires j in q.jobs
    ensures var r := ReconcileStep(cfg, q, j, v, now);
      && (k != (j, v.step) ==> PlacementOf(r, k) == PlacementOf(q, k))
      && Agrees(r, j, v)
      && j in r.jobs && r.jobs[j].priority == q.jobs[j].priority && q.tenants.Keys <= r.tenants.Keys
  {
    var me := (j, v.step);
    var at := if v.state == Ready || v.state == Leased || v.state == Running then now else Or(v.finishedAt, now);
    var learn := v.state == Passed || v.state == Failed;
    var gone := Unplace(cfg, q, j, v.step, at, learn);
    UnplacePlaces(cfg, q, j, v.step, at, learn, k);
    UnplacePlaces(cfg, q, j, v.step, at, learn, me);
    if v.state == Ready {
      EnqueuePlaces(cfg, gone, j, v.step, v.name, k);
      EnqueuePlaces(cfg, gone, j, v.step, v.name, me);
      if PlacementOf(q, me).None? {
        EnqueuePlaces(cfg, q, j, v.step, v.name, k);
        EnqueuePlaces(cfg, q, j, v.step, v.name, me);
      }
    } else if v.state == Leased || v.state == Running {
      AdoptPlaces(gone, j, v.step, v.name, Or(v.startedAt, now), k);
      AdoptPlaces(gone, j, v.step, v.name, Or(v.startedAt, now), me);
    }
  }

  ghost predicate DistinctViews(vs: seq<StepView>) { forall a, b | 0 <= a < b < |vs| :: vs[a].step != vs[b].step }

  lemma {:induction false} ReconcileStepsSettle(cfg: Config, q: Queue, j: JobId, vs: seq<StepView>, now: Instant,
                                                k: StepRef)
    requires j in q.jobs && DistinctViews(vs)
    ensures var r := ReconcileSteps(cfg, q, j, vs, now);
      && (forall i | 0 <= i < |vs| :: Agrees(r, j, vs[i]))
      && ((forall i | 0 <= i < |vs| :: k != (j, vs[i].step)) ==> PlacementOf(r, k) == PlacementOf(q, k))
      && j in r.jobs && r.jobs[j].priority == q.jobs[j].priority && q.tenants.Keys <= r.tenants.Keys
    decreases |vs|
  {
    if vs != [] {
      var me, mid := (j, vs[0].step), ReconcileStep(cfg, q, j, vs[0], now);
      ReconcileStepSettles(cfg, q, j, vs[0], now, k);
      ReconcileStepsSettle(cfg, mid, j, vs[1..], now, k);
      ReconcileStepsSettle(cfg, mid, j, vs[1..], now, me);
      var r := ReconcileSteps(cfg, q, j, vs, now);
      forall i | 0 <= i < |vs| ensures Agrees(r, j, vs[i]) {
        if i > 0 { assert vs[i] == vs[1..][i - 1]; }
      }
    }
  }

  /** After `reconcile`, every observed step is placed as its state calls for: ready ones queued,
      leased and running ones in a slot, finished ones gone. */
  lemma ReconcileMatches(cfg: Config, q: Queue, view: JobView, now: Instant)
    requires DistinctViews(view.steps)
    ensures var r := Reconcile(cfg, q, view, now);
      && (forall i | 0 <= i < |view.steps| :: Agrees(r, view.job, view.steps[i]))
      && view.job in r.jobs && r.jobs[view.job].priority == view.priority && view.tenant in r.tenants
  {
    var mid := AdmitJob(q, view.job, view.tenant, view.priority);
    ReconcileStepsSettle(cfg, mid, view.job, view.steps, now, (view.job, StepId("")));
    assert view.tenant in mid.tenants;
  }

  lemma {:induction false} AgreedIsStill(cfg: Config, q: Queue, j: JobId, vs: seq<StepView>, now: Instant)
    requires forall i | 0 <= i < |vs| :: Agrees(q, j, vs[i])
    ensures ReconcileSteps(cfg, q, j, vs, now) == q
    decreases |vs|
  {
    if vs != [] {
      assert Agrees(q, j, vs[0]) && ReconcileStep(cfg, q, j, vs[0], now) == q;
      AgreedIsStill(cfg, q, j, vs[1..], now);
    }
  }

  /** Reconciling the same observation again, at any time, changes nothing. */
  lemma ReconcileIdempotent(cfg: Config, q: Queue, view: JobView, now: Instant, later: Instant)
    requires DistinctViews(view.steps)
    ensures var r := Reconcile(cfg, q, view, now); Reconcile(cfg, r, view, later) == r
  {
    var r := Reconcile(cfg, q, view, now);
    ReconcileMatches(cfg, q, view, now);
    assert AdmitJob(r, view.job, view.tenant, view.priority) == r by {
      assert r.tenants[view.tenant := r.tenants[view.tenant]] == r.tenants;
      assert r.jobs[view.job := r.jobs[view.job].(priority := view.priority)] == r.jobs;
    }
    AgreedIsStill(cfg, r, view.job, view.steps, later);
  }
}
