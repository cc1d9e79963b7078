/** Whole runs of the scheduler: every public operation is a sequence of primitive steps, and each
    primitive keeps the representation invariant. */
module FairRuns {
  import opened Wrappers
  import opened Orders
  import opened JobModel
  import opened FairShare

  datatype Op =
    | Admit(job: JobId, tenant: TenantId, priority: Priority)
    | Enter(job: JobId, step: StepId, name: string)
    | Leave(job: JobId, step: StepId, at: Instant, learn: bool)
    | TakeOver(job: JobId, step: StepId, name: string, since: Instant)
    | Drop(job: JobId)
    | Prune(now: Instant)
    | Clean
    | Grant(now: Instant)

  ghost function Apply(cfg: Config, q: Queue, op: Op): Queue {
    match op
    case Admit(j, t, p) => AdmitJob(q, j, t, p)
    case Enter(j, s, name) => Enqueue(cfg, q, j, s, name)
    case Leave(j, s, at, learn) => Unplace(cfg, q, j, s, at, learn)
    case TakeOver(j, s, name, since) => Adopt(q, j, s, name, since)
    case Drop(j) => DropJob(q, j)
    case Prune(now) => PruneLedgers(q, now)
    case Clean => DropStaleHeads(q)
    case Grant(now) => GrantOnce(cfg, q, now)
  }

  /** One turn of the selection loop; with no admissible head it only cleans. */
  ghost function GrantOnce(cfg: Config, q: Queue, now: Instant): Queue {
    var clean := DropStaleHeads(q);
    match Best(cfg, clean, now)
    case None => clean
    case Some(p) => BestOfIsCandidate(cfg, clean, now, InOrder(clean.tenants.Keys)); Granted(cfg, clean, now, p)
  }

  ghost function Run(cfg: Config, q: Queue, ops: seq<Op>): Queue {
    if ops == [] then q else Apply(cfg, Run(cfg, q, ops[..|ops| - 1]), ops[|ops| - 1])
  }

  lemma RunLast(cfg: Config, q: Queue, ops: seq<Op>, op: Op)
    ensures Run(cfg, q, ops + [op]) == Apply(cfg, Run(cfg, q, ops), op)
  {
    assert (ops + [op])[..|ops|] == ops;
  }

  lemma {:induction false} RunConcat(cfg: Config, q: Queue, a: seq<Op>, b: seq<Op>)
    ensures Run(cfg, q, a + b) == Run(cfg, Run(cfg, q, a), b)
  {
    if b == [] {
      assert a + b == a;
    } else {
      assert (a + b)[..|a + b| - 1] == a + b[..|b| - 1];
      RunConcat(cfg, q, a, b[..|b| - 1]);
    }
  }

  /** A job id fixes its tenant. */
  type Owner = JobId -> TenantId

  /** What callers guarantee: a job is admitted under its own tenant, taken over only when it holds no
      placement, and dropped only once its placements are gone. */
  ghost predicate Enabled(q: Queue, owner: Owner, op: Op) {
    match op
    case Admit(j, t, _) => t == owner(j)
    case TakeOver(j, s, _, _) => PlacementOf(q, (j, s)).None?
    case Drop(j) => j in q.jobs ==> q.jobs[j].steps == map[]
    case _ => true
  }

  ghost predicate EnabledRun(cfg: Config, q: Queue, owner: Owner, ops: seq<Op>) {
    forall n | 0 <= n < |ops| :: Enabled(Run(cfg, q, ops[..n]), owner, ops[n])
  }

  // ---- The invariant, one job, tenant or step at a time ----

  /** An admitted job belongs to its tenant, and that tenant is known. */
  ghost predicate OwnedAt(q: Queue, owner: Owner, j: JobId) {
    j in q.jobs ==> q.jobs[j].tenant == owner(j) && owner(j) in q.tenants
  }

  /** A step in a tenant's running map is one of its started placements, with the same start. */
  ghost predicate RunsAt(q: Queue, owner: Owner, t: TenantId, k: StepRef) {
    t in q.tenants && k in q.tenants[t].running ==> owner(k.0) == t && StartOf(q, k) == Some(q.tenants[t].running[k])
  }

  /** A started placement is in its tenant's running map. */
  ghost predicate CountedAt(q: Queue, owner: Owner, k: StepRef) {
    StartOf(q, k).Some? ==> owner(k.0) in q.tenants && k in q.tenants[owner(k.0)].running
  }

  ghost predicate HasEntry(t: Tenant, k: StepRef) {
    (exists w :: w in t.interactive && w.Ref() == k) || (exists w :: w in t.background && w.Ref() == k)
  }

  /** A waiting placement has an entry in its tenant's queues. */
  ghost predicate QueuedAt(q: Queue, owner: Owner, k: StepRef) {
    IsWaiting(q, k) ==> owner(k.0) in q.tenants && HasEntry(q.tenants[owner(k.0)], k)
  }

  ghost predicate EntriesSound(ws: seq<Waiting>, owner: Owner, t: TenantId) {
    forall w | w in ws :: owner(w.job) == t && w.cost >= MIN_COST
  }

  /** A tenant's queues hold only its own jobs' steps, none of them free. */
  ghost predicate SoundAt(q: Queue, owner: Owner, t: TenantId) {
    t in q.tenants ==>
      EntriesSound(q.tenants[t].interactive, owner, t) && EntriesSound(q.tenants[t].background, owner, t)
  }

  ghost predicate Inv(q: Queue, owner: Owner) {
    && (forall j :: OwnedAt(q, owner, j))
    && (forall t, k :: RunsAt(q, owner, t, k))
    && (forall k :: CountedAt(q, owner, k))
    && (forall k :: QueuedAt(q, owner, k))
    && (forall t :: SoundAt(q, owner, t))
  }

  /** The invariant at one job, tenant and step. */
  ghost predicate At(q: Queue, owner: Owner, t: TenantId, k: StepRef) {
    && OwnedAt(q, owner, k.0) && RunsAt(q, owner, t, k) && CountedAt(q, owner, k) && QueuedAt(q, owner, k)
    && SoundAt(q, owner, t)
  }

  lemma InvAt(q: Queue, owner: Owner, t: TenantId, k: StepRef)
    requires Inv(q, owner)
    ensures At(q, owner, t, k)
  {
    assert OwnedAt(q, owner, k.0) && RunsAt(q, owner, t, k) && CountedAt(q, owner, k) && QueuedAt(q, owner, k);
    assert SoundAt(q, owner, t);
  }

  lemma InvFrom(q: Queue, owner: Owner)
    requires forall t, k :: At(q, owner, t, k)
    ensures Inv(q, owner)
  {
    forall j ensures OwnedAt(q, owner, j) { assert At(q, owner, "", (j, StepId(""))); }
    forall t, k ensures RunsAt(q, owner, t, k) { assert At(q, owner, t, k); }
    forall k ensures CountedAt(q, owner, k) && QueuedAt(q, owner, k) { assert At(q, owner, "", k); }
    forall t ensures SoundAt(q, owner, t) { assert At(q, owner, t, (JobId(""), StepId(""))); }
  }

  /** Where an operation left this step's placement, its running entries and its queue entry alone. */
  ghost predicate SameAt(q: Queue, r: Queue, t: TenantId, k: StepRef) {
    && PlacementOf(r, k) == PlacementOf(q, k)
    && q.tenants.Keys <= r.tenants.Keys
    && SameSlot(q, r, t, k)
  }

  ghost predicate SameSlot(q: Queue, r: Queue, t: TenantId, k: StepRef) {
    var a, b := TenantOf(q, t), TenantOf(r, t);
    && (k in a.running <==> k in b.running) && (k in a.running ==> a.running[k] == b.running[k])
    && (HasEntry(a, k) ==> HasEntry(b, k))
  }

  lemma Undisturbed(q: Queue, r: Queue, owner: Owner, t: TenantId, k: StepRef)
    requires At(q, owner, t, k) && SameAt(q, r, t, k) && SameSlot(q, r, owner(k.0), k)
    requires OwnedAt(r, owner, k.0) && SoundAt(r, owner, t)
    ensures At(r, owner, t, k)
  {
  }

  // ---- Operations that move no placement ----

  lemma AdmitAt(q: Queue, owner: Owner, j: JobId, p: Priority, t: TenantId, k: StepRef)
    requires At(q, owner, t, k)
    ensures At(AdmitJob(q, j, owner(j), p), owner, t, k)
  {
    Undisturbed(q, AdmitJob(q, j, owner(j), p), owner, t, k);
  }

  lemma AdmitKeeps(q: Queue, owner: Owner, j: JobId, p: Priority)
    requires Inv(q, owner)
    ensures Inv(AdmitJob(q, j, owner(j), p), owner)
  {
    forall t, k ensures At(AdmitJob(q, j, owner(j), p), owner, t, k) {
      InvAt(q, owner, t, k);
      AdmitAt(q, owner, j, p, t, k);
    }
    InvFrom(AdmitJob(q, j, owner(j), p), owner);
  }

  lemma PruneAt(q: Queue, owner: Owner, now: Instant, t: TenantId, k: StepRef)
    requires At(q, owner, t, k)
    ensures At(PruneLedgers(q, now), owner, t, k)
  {
    Undisturbed(q, PruneLedgers(q, now), owner, t, k);
  }

  lemma PruneKeeps(q: Queue, owner: Owner, now: Instant)
    requires Inv(q, owner)
    ensures Inv(PruneLedgers(q, now), owner)
  {
    forall t, k ensures At(PruneLedgers(q, now), owner, t, k) { InvAt(q, owner, t, k); PruneAt(q, owner, now, t, k); }
    InvFrom(PruneLedgers(q, now), owner);
  }

  lemma DropKeeps(q: Queue, owner: Owner, j: JobId)
    requires Inv(q, owner) && (j in q.jobs ==> q.jobs[j].steps == map[])
    ensures Inv(DropJob(q, j), owner)
  {
    var r := DropJob(q, j);
    forall t, k ensures At(r, owner, t, k) {
      InvAt(q, owner, t, k);
      assert PlacementOf(r, k) == PlacementOf(q, k);
      Undisturbed(q, r, owner, t, k);
    }
    InvFrom(r, owner);
  }

  lemma {:induction false} DropStaleKeeps(jobs: map<JobId, JobMeta>, ws: seq<Waiting>)
    ensures var r := DropStale(jobs, ws);
      && (forall w :: w in r ==> w in ws)
      && (forall w :: w in ws && LiveEntry(jobs, w) ==> w in r)
      && (r != [] ==> LiveEntry(jobs, r[0]))
  {
    if ws != [] && !LiveEntry(jobs, ws[0]) { DropStaleKeeps(jobs, ws[1..]); }
  }

  lemma FreshKeepsEntries(q: Queue, t: Tenant, k: StepRef)
    requires IsWaiting(q, k) && HasEntry(t, k)
    ensures HasEntry(Fresh(q.jobs, t), k)
  {
    DropStaleKeeps(q.jobs, t.interactive);
    DropStaleKeeps(q.jobs, t.background);
    if w :| w in t.interactive && w.Ref() == k {
      assert w in Fresh(q.jobs, t).interactive;
    } else {
      var w :| w in t.background && w.Ref() == k;
      assert w in Fresh(q.jobs, t).background;
    }
  }

  lemma CleanAt(q: Queue, owner: Owner, t: TenantId, k: StepRef)
    requires At(q, owner, t, k)
    ensures At(DropStaleHeads(q), owner, t, k)
  {
    var r := DropStaleHeads(q);
    assert PlacementOf(r, k) == PlacementOf(q, k);
    assert SoundAt(r, owner, t) by {
      if t in q.tenants {
        DropStaleKeeps(q.jobs, q.tenants[t].interactive);
        DropStaleKeeps(q.jobs, q.tenants[t].background);
      }
    }
    assert QueuedAt(r, owner, k) by {
      if IsWaiting(q, k) { FreshKeepsEntries(q, q.tenants[owner(k.0)], k); }
    }
  }

  lemma CleanKeeps(q: Queue, owner: Owner)
    requires Inv(q, owner)
    ensures Inv(DropStaleHeads(q), owner)
  {
    forall t, k ensures At(DropStaleHeads(q), owner, t, k) { InvAt(q, owner, t, k); CleanAt(q, owner, t, k); }
    InvFrom(DropStaleHeads(q), owner);
  }

  // ---- Operations that move one placement ----

  lemma PushedEntries(t: Tenant, p: Priority, w: Waiting, k: StepRef)
    ensures HasEntry(t, k) ==> HasEntry(Pushed(t, p, w), k)
    ensures HasEntry(Pushed(t, p, w), w.Ref())
  {
    var r := Pushed(t, p, w);
    if p == Interactive { assert w in r.interactive; } else { assert w in r.background; }
    if x :| x in t.interactive && x.Ref() == k { assert x in r.interactive; }
    if x :| x in t.background && x.Ref() == k { assert x in r.background; }
  }

  /** Job `j`'s step map is replaced by one that differs at most at `s`. */
  ghost predicate Replaced(q: Queue, r: Queue, j: JobId, s: StepId, steps: map<StepId, Placement>) {
    && j in q.jobs && r.jobs == q.jobs[j := q.jobs[j].(steps := steps)]
    && forall x | x != s :: (x in steps <==> x in q.jobs[j].steps) && (x in steps ==> steps[x] == q.jobs[j].steps[x])
  }

  lemma PlacedAt(q: Queue, r: Queue, j: JobId, s: StepId, steps: map<StepId, Placement>, k: StepRef)
    requires Replaced(q, r, j, s, steps)
    ensures PlacementOf(r, k) == if k == (j, s) then (if s in steps then Some(steps[s]) else None)
      else PlacementOf(q, k)
    ensures (k.0 in r.jobs <==> k.0 in q.jobs) && (k.0 in q.jobs ==> r.jobs[k.0].tenant == q.jobs[k.0].tenant)
  {
  }

  lemma EnqueueTenants(cfg: Config, q: Queue, owner: Owner, j: JobId, s: StepId, name: string)
    requires j in q.jobs && s !in q.jobs[j].steps && OwnedAt(q, owner, j)
    ensures var r, me, w := Enqueue(cfg, q, j, s, name), owner(j), Waiting(j, s, Estimate(cfg, q, owner(j), name));
      && r.tenants == q.tenants[me := Pushed(q.tenants[me], q.jobs[j].priority, w)] && w.Ref() == (j, s)
      && Replaced(q, r, j, s, q.jobs[j].steps[s := Placement(name, None, None)])
  {
  }

  lemma EnqueueAt(cfg: Config, q: Queue, owner: Owner, j: JobId, s: StepId, name: string, t: TenantId, k: StepRef)
    requires At(q, owner, t, k) && OwnedAt(q, owner, j) && SoundAt(q, owner, owner(j))
    requires j in q.jobs && s !in q.jobs[j].steps
    ensures At(Enqueue(cfg, q, j, s, name), owner, t, k)
  {
    var w := Waiting(j, s, Estimate(cfg, q, owner(j), name));
    EnqueueTenants(cfg, q, owner, j, s, name);
    PlacePushed(q, Enqueue(cfg, q, j, s, name), owner, w, name, t, k);
  }

  /** A new placement and its queue entry, whatever the step costs. */
  lemma PlacePushed(q: Queue, r: Queue, owner: Owner, w: Waiting, name: string, t: TenantId, k: StepRef)
    requires At(q, owner, t, k) && OwnedAt(q, owner, w.job) && SoundAt(q, owner, owner(w.job)) && w.cost >= MIN_COST
    requires w.job in q.jobs && w.step !in q.jobs[w.job].steps
    requires r.tenants == q.tenants[owner(w.job) := Pushed(q.tenants[owner(w.job)], q.jobs[w.job].priority, w)]
    requires Replaced(q, r, w.job, w.step, q.jobs[w.job].steps[w.step := Placement(name, None, None)])
    ensures At(r, owner, t, k)
  {
    PlacedAt(q, r, w.job, w.step, q.jobs[w.job].steps[w.step := Placement(name, None, None)], k);
    PushedEntries(q.tenants[owner(w.job)], q.jobs[w.job].priority, w, k);
    if k != w.Ref() { Undisturbed(q, r, owner, t, k); }
  }

  lemma EnqueueKeeps(cfg: Config, q: Queue, owner: Owner, j: JobId, s: StepId, name: string)
    requires Inv(q, owner)
    ensures Inv(Enqueue(cfg, q, j, s, name), owner)
  {
    if j in q.jobs && s !in q.jobs[j].steps {
      forall t, k ensures At(Enqueue(cfg, q, j, s, name), owner, t, k) {
        InvAt(q, owner, t, k);
        InvAt(q, owner, owner(j), (j, s));
        EnqueueAt(cfg, q, owner, j, s, name, t, k);
      }
      InvFrom(Enqueue(cfg, q, j, s, name), owner);
    }
  }

  /** Learning touches only the estimator. */
  lemma UnplaceVacates(cfg: Config, q: Queue, j: JobId, s: StepId, at: Instant, learn: bool)
    requires PlacementOf(q, (j, s)).Some?
    ensures var r := Unplace(cfg, q, j, s, at, learn);
      r == Vacated(cfg, q, j, s, at).(costs := r.costs, costKeys := r.costKeys)
  {
  }

  lemma VacatedFacts(cfg: Config, q: Queue, j: JobId, s: StepId, at: Instant)
    requires PlacementOf(q, (j, s)).Some?
    ensures var r := Vacated(cfg, q, j, s, at);
      && Replaced(q, r, j, s, q.jobs[j].steps - {s})
      && r.tenants == AfterLeaving(cfg, q, j, s, at) && r.virtualNow == q.virtualNow
  {
  }

  lemma UnplaceFacts(cfg: Config, q: Queue, j: JobId, s: StepId, at: Instant, learn: bool)
    requires PlacementOf(q, (j, s)).Some?
    ensures var r := Unplace(cfg, q, j, s, at, learn);
      && Replaced(q, r, j, s, q.jobs[j].steps - {s})
      && r.tenants == AfterLeaving(cfg, q, j, s, at) && r.virtualNow == q.virtualNow
  {
    UnplaceVacates(cfg, q, j, s, at, learn);
    VacatedFacts(cfg, q, j, s, at);
  }

  /** At most one tenant changed, by giving up the slot of `k0`; its queues are as they were. */
  ghost predicate OneSlotLess(q: Queue, r: Queue, t: TenantId, k0: StepRef) {
    || r.tenants == q.tenants
    || (&& t in q.tenants && t in r.tenants && r.tenants == q.tenants[t := r.tenants[t]]
        && r.tenants[t].running == q.tenants[t].running - {k0}
        && r.tenants[t].interactive == q.tenants[t].interactive && r.tenants[t].background == q.tenants[t].background)
  }

  lemma DepartedSlots(cfg: Config, name: TenantId, t: Tenant, k: StepRef, p: Placement, at: Instant)
    requires p.since.Some?
    ensures var r := Departed(cfg, name, t, k, p, at);
      r.running == t.running - {k} && r.interactive == t.interactive && r.background == t.background
  {
  }

  lemma UnplaceSlots(cfg: Config, q: Queue, j: JobId, s: StepId, at: Instant, learn: bool)
    requires PlacementOf(q, (j, s)).Some?
    ensures OneSlotLess(q, Unplace(cfg, q, j, s, at, learn), q.jobs[j].tenant, (j, s))
  {
    UnplaceFacts(cfg, q, j, s, at, learn);
    var t, p := q.jobs[j].tenant, q.jobs[j].steps[s];
    if p.since.Some? && t in q.tenants { DepartedSlots(cfg, t, q.tenants[t], (j, s), p, at); }
  }

  lemma SlotLessAt(q: Queue, r: Queue, owner: Owner, j: JobId, s: StepId, t: TenantId, k: StepRef)
    requires At(q, owner, t, k) && OwnedAt(q, owner, j) && RunsAt(q, owner, t, (j, s)) && SoundAt(q, owner, owner(j))
    requires j in q.jobs && Replaced(q, r, j, s, q.jobs[j].steps - {s}) && OneSlotLess(q, r, owner(j), (j, s))
    requires StartOf(q, (j, s)).Some? ==> (j, s) !in TenantOf(r, owner(j)).running
    ensures At(r, owner, t, k)
  {
    PlacedAt(q, r, j, s, q.jobs[j].steps - {s}, k);
    assert forall x ::
      TenantOf(r, x).interactive == TenantOf(q, x).interactive &&
      TenantOf(r, x).background == TenantOf(q, x).background;
    if k != (j, s) { Undisturbed(q, r, owner, t, k); }
  }

  lemma UnplaceAt(cfg: Config, q: Queue, owner: Owner, j: JobId, s: StepId, at: Instant, learn: bool, t: TenantId,
                  k: StepRef)
    requires At(q, owner, t, k) && OwnedAt(q, owner, j) && RunsAt(q, owner, t, (j, s)) && SoundAt(q, owner, owner(j))
    requires PlacementOf(q, (j, s)).Some?
    ensures At(Unplace(cfg, q, j, s, at, learn), owner, t, k)
  {
    UnplaceFacts(cfg, q, j, s, at, learn);
    UnplaceSlots(cfg, q, j, s, at, learn);
    if StartOf(q, (j, s)).Some? { UnplaceFrees(cfg, q, j, s, at, learn); }
    SlotLessAt(q, Unplace(cfg, q, j, s, at, learn), owner, j, s, t, k);
  }

  /** A started step's slot is free once it has left. */
  lemma UnplaceFrees(cfg: Config, q: Queue, j: JobId, s: StepId, at: Instant, learn: bool)
    requires StartOf(q, (j, s)).Some?
    ensures (j, s) !in TenantOf(Unplace(cfg, q, j, s, at, learn), q.jobs[j].tenant).running
  {
    UnplaceFacts(cfg, q, j, s, at, learn);
    var t, p := q.jobs[j].tenant, q.jobs[j].steps[s];
    if t in q.tenants { DepartedSlots(cfg, t, q.tenants[t], (j, s), p, at); }
  }

  lemma UnplaceKeeps(cfg: Config, q: Queue, owner: Owner, j: JobId, s: StepId, at: Instant, learn: bool)
    requires Inv(q, owner)
    ensures Inv(Unplace(cfg, q, j, s, at, learn), owner)
  {
    if PlacementOf(q, (j, s)).Some? {
      forall t, k ensures At(Unplace(cfg, q, j, s, at, learn), owner, t, k) {
        InvAt(q, owner, t, k);
        InvAt(q, owner, t, (j, s));
        InvAt(q, owner, owner(j), (j, s));
        UnplaceAt(cfg, q, owner, j, s, at, learn, t, k);
      }
      InvFrom(Unplace(cfg, q, j, s, at, learn), owner);
    }
  }

  lemma AdoptAt(q: Queue, owner: Owner, j: JobId, s: StepId, name: string, since: Instant, t: TenantId, k: StepRef)
    requires At(q, owner, t, k) && OwnedAt(q, owner, j) && SoundAt(q, owner, owner(j)) && RunsAt(q, owner, t, (j, s))
    requires j in q.jobs && PlacementOf(q, (j, s)).None?
    ensures At(Adopt(q, j, s, name, since), owner, t, k)
  {
    var r := Adopt(q, j, s, name, since);
    PlacedAt(q, r, j, s, q.jobs[j].steps[s := Placement(name, Some(since), None)], k);
    assert forall x ::
      TenantOf(r, x).interactive == TenantOf(q, x).interactive &&
      TenantOf(r, x).background == TenantOf(q, x).background;
    if k != (j, s) { Undisturbed(q, r, owner, t, k); }
  }

  lemma AdoptKeeps(q: Queue, owner: Owner, j: JobId, s: StepId, name: string, since: Instant)
    requires Inv(q, owner) && PlacementOf(q, (j, s)).None?
    ensures Inv(Adopt(q, j, s, name, since), owner)
  {
    if j in q.jobs {
      forall t, k ensures At(Adopt(q, j, s, name, since), owner, t, k) {
        InvAt(q, owner, t, k);
        InvAt(q, owner, t, (j, s));
        InvAt(q, owner, owner(j), (j, s));
        AdoptAt(q, owner, j, s, name, since, t, k);
      }
      InvFrom(Adopt(q, j, s, name, since), owner);
    }
  }

  lemma PopKeepsOthers(t: Tenant, k: StepRef)
    requires Head(t).Some? && HasEntry(t, k) && Head(t).value.Ref() != k
    ensures HasEntry(PopHead(t), k)
  {
    if w :| w in t.interactive && w.Ref() == k {
      if HeadClass(t) == Some(Interactive) { assert w in t.interactive[1..]; }
    } else {
      var w :| w in t.background && w.Ref() == k;
      if HeadClass(t) == Some(Background) { assert w in t.background[1..]; }
    }
  }

  /** After cleaning, a tenant's head is a live, waiting step of that tenant. */
  lemma HeadIsWaiting(q: Queue, owner: Owner, t: TenantId)
    requires Inv(q, owner) && t in q.tenants && Head(DropStaleHeads(q).tenants[t]).Some?
    ensures var w := Head(DropStaleHeads(q).tenants[t]).value;
      IsWaiting(q, w.Ref()) && IsWaiting(DropStaleHeads(q), w.Ref()) && owner(w.job) == t && w.cost >= MIN_COST
  {
    DropStaleKeeps(q.jobs, q.tenants[t].interactive);
    DropStaleKeeps(q.jobs, q.tenants[t].background);
    assert SoundAt(q, owner, t);
  }

  lemma GrantedFacts(cfg: Config, q: Queue, now: Instant, p: Pick)
    requires p.tenant in q.tenants && Head(q.tenants[p.tenant]).Some?
    requires PlacementOf(q, Head(q.tenants[p.tenant]).value.Ref()).Some?
    ensures var r, t, w := Granted(cfg, q, now, p), q.tenants[p.tenant], Head(q.tenants[p.tenant]).value;
      var was := q.jobs[w.job].steps;
      && r.tenants == q.tenants[p.tenant := PopHead(t).(vftLast := p.vft, running := t.running[w.Ref() := now])]
      && Replaced(q, r, w.job, w.step, was[w.step := Placed(cfg, was[w.step], p, now)])
      && r.virtualNow == Max(q.virtualNow, p.start)
  {
  }

  lemma GrantedAt(cfg: Config, q: Queue, owner: Owner, now: Instant, p: Pick, t: TenantId, k: StepRef)
    requires At(q, owner, t, k) && SoundAt(q, owner, p.tenant) && p.tenant in q.tenants &&
             Head(q.tenants[p.tenant]).Some?
    requires var w := Head(q.tenants[p.tenant]).value;
      IsWaiting(q, w.Ref()) && owner(w.job) == p.tenant && RunsAt(q, owner, t, w.Ref())
    ensures At(Granted(cfg, q, now, p), owner, t, k)
  {
    var me, w := q.tenants[p.tenant], Head(q.tenants[p.tenant]).value;
    var r, was := Granted(cfg, q, now, p), q.jobs[w.job].steps;
    GrantedFacts(cfg, q, now, p);
    PlacedAt(q, r, w.job, w.step, was[w.step := Placed(cfg, was[w.step], p, now)], k);
    PopSound(me, owner, p.tenant);
    if k != w.Ref() {
      if HasEntry(me, k) { PopKeepsOthers(me, k); }
      Undisturbed(q, r, owner, t, k);
    }
  }

  lemma GrantedKeeps(cfg: Config, q: Queue, owner: Owner, now: Instant, p: Pick)
    requires Inv(q, owner) && p.tenant in q.tenants && Head(q.tenants[p.tenant]).Some?
    requires var w := Head(q.tenants[p.tenant]).value; IsWaiting(q, w.Ref()) && owner(w.job) == p.tenant
    ensures Inv(Granted(cfg, q, now, p), owner)
  {
    forall t, k ensures At(Granted(cfg, q, now, p), owner, t, k) {
      InvAt(q, owner, t, k);
      InvAt(q, owner, t, Head(q.tenants[p.tenant]).value.Ref());
      InvAt(q, owner, p.tenant, k);
      GrantedAt(cfg, q, owner, now, p, t, k);
    }
    InvFrom(Granted(cfg, q, now, p), owner);
  }

  lemma PopSound(t: Tenant, owner: Owner, name: TenantId)
    requires EntriesSound(t.interactive, owner, name) && EntriesSound(t.background, owner, name)
    ensures EntriesSound(PopHead(t).interactive, owner, name) && EntriesSound(PopHead(t).background, owner, name)
  {
  }

  lemma GrantOnceKeeps(cfg: Config, q: Queue, owner: Owner, now: Instant)
    requires Inv(q, owner)
    ensures Inv(GrantOnce(cfg, q, now), owner)
  {
    CleanKeeps(q, owner);
    var clean := DropStaleHeads(q);
    var b := Best(cfg, clean, now);
    if b.Some? {
      BestOfIsCandidate(cfg, clean, now, InOrder(clean.tenants.Keys));
      HeadIsWaiting(q, owner, b.value.tenant);
      GrantedKeeps(cfg, clean, owner, now, b.value);
    }
  }

  lemma ApplyKeeps(cfg: Config, q: Queue, owner: Owner, op: Op)
    requires Inv(q, owner) && Enabled(q, owner, op)
    ensures Inv(Apply(cfg, q, op), owner)
  {
    match op
    case Admit(j, t, p) => AdmitKeeps(q, owner, j, p);
    case Enter(j, s, name) => EnqueueKeeps(cfg, q, owner, j, s, name);
    case Leave(j, s, at, learn) => UnplaceKeeps(cfg, q, owner, j, s, at, learn);
    case TakeOver(j, s, name, since) => AdoptKeeps(q, owner, j, s, name, since);
    case Drop(j) => DropKeeps(q, owner, j);
    case Prune(now) => PruneKeeps(q, owner, now);
    case Clean => CleanKeeps(q, owner);
    case Grant(now) => GrantOnceKeeps(cfg, q, owner, now);
  }

  /** The invariant holds in every state a run can reach. */
  lemma {:induction false} RunKeeps(cfg: Config, q: Queue, owner: Owner, ops: seq<Op>)
    requires Inv(q, owner) && EnabledRun(cfg, q, owner, ops)
    ensures Inv(Run(cfg, q, ops), owner)
  {
    if ops != [] {
      var front := ops[..|ops| - 1];
      assert EnabledRun(cfg, q, owner, front) by {
        forall n | 0 <= n < |front| ensures Enabled(Run(cfg, q, front[..n]), owner, front[n]) {
          assert front[..n] == ops[..n];
        }
      }
      RunKeeps(cfg, q, owner, front);
      ApplyKeeps(cfg, Run(cfg, q, front), owner, ops[|ops| - 1]);
    }
  }
}
