/** What the scheduler learns of a step name's cost: whose runs, which of them, and for how many names. */
module FairCosts {
  import opened Wrappers
  import opened JobModel
  import opened FairShare
  import opened FairRuns

  const NAMES: nat := 1024
  const SAMPLES: nat := 16

  function NamesOf(q: Queue, t: TenantId): seq<string> { if t in q.costKeys then q.costKeys[t] else [] }

  function SamplesOf(q: Queue, t: TenantId, name: string): Option<seq<real>> {
    if (t, name) in q.costs then Some(q.costs[(t, name)]) else None
  }

  ghost predicate Distinct(names: seq<string>) { forall i, k | 0 <= i < k < |names| :: names[i] != names[k] }

  ghost predicate FewNamesAt(q: Queue, t: TenantId) { |NamesOf(q, t)| <= NAMES }

  ghost predicate NamesAt(q: Queue, t: TenantId) { FewNamesAt(q, t) && Distinct(NamesOf(q, t)) }

  /** A name is listed for the tenant exactly when it has samples, and then a few. */
  ghost predicate SamplesAt(q: Queue, t: TenantId, name: string) {
    match SamplesOf(q, t, name)
    case None => name !in NamesOf(q, t)
    case Some(s) => name in NamesOf(q, t) && 0 < |s| <= SAMPLES
  }

  ghost predicate Costed(q: Queue) { (forall t :: NamesAt(q, t)) && (forall t, name :: SamplesAt(q, t, name)) }

  /** Learning `name` makes the tenant forget `m`: a new name, no room for it, and `m` is the oldest. */
  predicate Forgets(q: Queue, t: TenantId, name: string, m: string) {
    SamplesOf(q, t, name).None? && |NamesOf(q, t)| == NAMES && NamesOf(q, t)[0] == m
  }

  /** A new name goes last, and past the bound the oldest makes room for it. */
  function NewNames(q: Queue, t: TenantId, name: string): seq<string> {
    if SamplesOf(q, t, name).Some? then NamesOf(q, t)
    else (if |NamesOf(q, t)| == NAMES then NamesOf(q, t)[1..] else NamesOf(q, t)) + [name]
  }

  /** The newest samples, this run's held time last. */
  function NewSamples(q: Queue, t: TenantId, name: string, ran: nat): seq<real> {
    var x := ran as real / 1000000000.0;
    match SamplesOf(q, t, name)
    case None => [x]
    case Some(was) => (if |was| == SAMPLES then was[1..] else was) + [x]
  }

  /** What `u` knows of `m` once `t` has learned a run of `name`, in `r`, coming from `q`. */
  ghost predicate LearntAt(q: Queue, r: Queue, t: TenantId, name: string, ran: nat, u: TenantId, m: string) {
    && NamesOf(r, u) == (if u == t then NewNames(q, t, name) else NamesOf(q, u))
    && SamplesOf(r, u, m) == (if u == t && m == name then Some(NewSamples(q, t, name, ran))
                              else if u == t && Forgets(q, t, name, m) then None
                              else SamplesOf(q, u, m))
  }

  /** One more at the tail of a bounded list: the oldest goes only from a full one. */
  lemma KeepsTail<T>(was: seq<T>, x: T, n: nat)
    requires 0 < n && |was| <= n
    ensures var lost := if |was| == n then 1 else 0;
      && KeepLast(was + [x], n) == was[lost..] + [x]
      && (was + [x])[..|was + [x]| - |KeepLast(was + [x], n)|] == was[..lost]
  {
  }

  /** `r` is `q` with room made for a new name of `t`. */
  ghost predicate MadeRoom(q: Queue, r: Queue, t: TenantId, name: string, lost: nat) {
    && lost <= |NamesOf(q, t)|
    && r.costKeys == q.costKeys[t := NamesOf(q, t)[lost..] + [name]]
    && r.costs == Without(q.costs, t, NamesOf(q, t)[..lost])
  }

  lemma RegisteredNames(q: Queue, t: TenantId, name: string)
    requires FewNamesAt(q, t) && SamplesOf(q, t, name).None?
    ensures MadeRoom(q, Registered(q, t, name), t, name, if |NamesOf(q, t)| == NAMES then 1 else 0)
  {
    KeepsTail(NamesOf(q, t), name, COST_KEYS_PER_TENANT);
  }

  lemma RegisteredKnown(q: Queue, t: TenantId, name: string)
    requires SamplesOf(q, t, name).Some?
    ensures Registered(q, t, name) == q
  {
  }

  /** Making room, as one tenant's name sees it. */
  ghost predicate RoomAt(q: Queue, r: Queue, t: TenantId, name: string, u: TenantId, m: string) {
    && NamesOf(r, u) == (if u == t then NewNames(q, t, name) else NamesOf(q, u))
    && SamplesOf(r, u, m) == (if u == t && Forgets(q, t, name, m) then None else SamplesOf(q, u, m))
  }

  lemma LostOnly(was: seq<string>, m: string)
    ensures m !in was[..0]
    ensures was != [] ==> (m in was[..1] <==> was[0] == m)
  {
  }

  lemma RoomMadeAt(q: Queue, r: Queue, t: TenantId, name: string, u: TenantId, m: string)
    requires MadeRoom(q, r, t, name, if |NamesOf(q, t)| == NAMES then 1 else 0) && SamplesOf(q, t, name).None?
    ensures RoomAt(q, r, t, name, u, m)
  {
    LostOnly(NamesOf(q, t), m);
    assert NamesOf(q, t)[0..] == NamesOf(q, t);
  }

  lemma RoomForKnown(q: Queue, t: TenantId, name: string, u: TenantId, m: string)
    requires SamplesOf(q, t, name).Some?
    ensures RoomAt(q, q, t, name, u, m)
  {
  }

  /** One more sample, as one tenant's name sees it. */
  ghost predicate SampleAt(q: Queue, r: Queue, t: TenantId, name: string, ran: nat, u: TenantId, m: string) {
    && r.costKeys == q.costKeys
    && SamplesOf(r, u, m) == (if u == t && m == name then Some(NewSamples(q, t, name, ran)) else SamplesOf(q, u, m))
  }

  lemma SampledAt(q: Queue, t: TenantId, name: string, ran: nat, u: TenantId, m: string)
    requires SamplesOf(q, t, name).Some? ==> 0 < |SamplesOf(q, t, name).value| <= SAMPLES
    ensures SampleAt(q, Sampled(q, (t, name), Secs(ran)), t, name, ran, u, m)
  {
    var secs := Secs(ran);
    if SamplesOf(q, t, name).Some? {
      var was := SamplesOf(q, t, name).value;
      assert |was| == SAMPLES ==> KeepLast(was + [secs], COST_SAMPLES) == was[1..] + [secs];
    } else {
      assert [] + [secs] == [secs];
    }
  }

  lemma LearntInTwo(q: Queue, mid: Queue, r: Queue, t: TenantId, name: string, ran: nat, u: TenantId, m: string)
    requires SamplesAt(q, t, name) && RoomAt(q, mid, t, name, u, m) && RoomAt(q, mid, t, name, t, name)
    requires SampleAt(mid, r, t, name, ran, u, m)
    ensures LearntAt(q, r, t, name, ran, u, m)
  {
  }

  /** `mid` has room made for the name, if it needed any. */
  ghost predicate Roomy(q: Queue, mid: Queue, t: TenantId, name: string) {
    if SamplesOf(q, t, name).Some? then mid == q
    else MadeRoom(q, mid, t, name, if |NamesOf(q, t)| == NAMES then 1 else 0)
  }

  lemma RoomyAt(q: Queue, mid: Queue, t: TenantId, name: string, u: TenantId, m: string)
    requires Roomy(q, mid, t, name)
    ensures RoomAt(q, mid, t, name, u, m)
  {
    if SamplesOf(q, t, name).Some? { RoomForKnown(q, t, name, u, m); } else { RoomMadeAt(q, mid, t, name, u, m); }
  }

  lemma LearntFrom(q: Queue, mid: Queue, t: TenantId, name: string, ran: nat, u: TenantId, m: string)
    requires Roomy(q, mid, t, name) && SamplesAt(q, t, name)
    ensures LearntAt(q, Sampled(mid, (t, name), Secs(ran)), t, name, ran, u, m)
  {
    RoomyAt(q, mid, t, name, u, m);
    RoomyAt(q, mid, t, name, t, name);
    SampledAt(mid, t, name, ran, u, m);
    LearntInTwo(q, mid, Sampled(mid, (t, name), Secs(ran)), t, name, ran, u, m);
  }

  /** Learning a run: its held time joins the newest samples of that tenant's step name, and nothing else
      any tenant knows changes, but for the tenant's oldest name when there is no room for a new one. */
  lemma LearnsExactly(q: Queue, t: TenantId, name: string, ran: nat, u: TenantId, m: string)
    requires FewNamesAt(q, t) && SamplesAt(q, t, name)
    ensures LearntAt(q, Observe(q, t, name, ran), t, name, ran, u, m)
  {
    if SamplesOf(q, t, name).None? { RegisteredNames(q, t, name); } else { RegisteredKnown(q, t, name); }
    LearntFrom(q, Registered(q, t, name), t, name, ran, u, m);
  }

  /** `r` knows what `q` would, having learned that. */
  ghost predicate Learnt(q: Queue, r: Queue, t: TenantId, name: string, ran: nat) {
    forall u, m :: LearntAt(q, r, t, name, ran, u, m)
  }

  lemma LearntNames(q: Queue, r: Queue, t: TenantId, name: string, ran: nat, u: TenantId)
    requires LearntAt(q, r, t, name, ran, u, name) && NamesAt(q, t) && NamesAt(q, u) && SamplesAt(q, t, name)
    ensures NamesAt(r, u)
  {
  }

  lemma LearntListed(q: Queue, r: Queue, t: TenantId, name: string, ran: nat, u: TenantId, m: string)
    requires LearntAt(q, r, t, name, ran, u, m) && NamesAt(q, t) && SamplesAt(q, t, name) && SamplesAt(q, u, m)
    ensures SamplesAt(r, u, m)
  {
    var was := NamesOf(q, t);
    if u == t && SamplesOf(q, t, name).None? && |was| == NAMES { assert was == [was[0]] + was[1..]; }
  }

  /** The operation teaches `t` how long a run of `name` held its slot. */
  ghost predicate Teaches(q: Queue, op: Op, t: TenantId, name: string) {
    && op.Leave? && op.learn && StartOf(q, (op.job, op.step)).Some?
    && q.jobs[op.job].tenant == t && PlacementOf(q, (op.job, op.step)).value.name == name
  }

  function SecondsHeld(at: Instant, since: Instant): real {
    if at >= since then (at - since) as real / 1000000000.0 else 0.0
  }

  /** Every run of `name` that `t` was taught, oldest first. */
  ghost function Lessons(cfg: Config, ops: seq<Op>, t: TenantId, name: string): seq<real> {
    if ops == [] then []
    else
      var front, op := ops[..|ops| - 1], ops[|ops| - 1];
      var mid := Run(cfg, EMPTY, front);
      Lessons(cfg, front, t, name) +
      if Teaches(mid, op, t, name) then [SecondsHeld(op.at, StartOf(mid, (op.job, op.step)).value)] else []
  }

  lemma UntaughtKeeps(cfg: Config, q: Queue, op: Op)
    requires !op.Leave? && !op.Grant?
    ensures Apply(cfg, q, op).costs == q.costs && Apply(cfg, q, op).costKeys == q.costKeys
  {
  }

  lemma GrantTeachesNothing(cfg: Config, q: Queue, now: Instant)
    ensures GrantOnce(cfg, q, now).costs == q.costs && GrantOnce(cfg, q, now).costKeys == q.costKeys
  {
  }

  predicate Learns(q: Queue, op: Op) { op.Leave? && op.learn && StartOf(q, (op.job, op.step)).Some? }

  function Taught(q: Queue, op: Op): (TenantId, string, nat)
    requires Learns(q, op)
  {
    var p := q.jobs[op.job].steps[op.step];
    (q.jobs[op.job].tenant, p.name, if op.at >= p.since.value then op.at - p.since.value else 0)
  }

  lemma VacatedKnows(cfg: Config, q: Queue, op: Op)
    requires Learns(q, op)
    ensures var (t, name, ran) := Taught(q, op);
      Apply(cfg, q, op) == Observe(Vacated(cfg, q, op.job, op.step, op.at), t, name, ran)
  {
  }

  lemma VacatedIsQuiet(cfg: Config, q: Queue, op: Op)
    requires op.Leave? && PlacementOf(q, (op.job, op.step)).Some?
    ensures var v := Vacated(cfg, q, op.job, op.step, op.at); v.costs == q.costs && v.costKeys == q.costKeys
  {
  }

  lemma QuietLeave(cfg: Config, q: Queue, op: Op)
    requires op.Leave? && !Learns(q, op)
    ensures Apply(cfg, q, op).costs == q.costs && Apply(cfg, q, op).costKeys == q.costKeys
  {
  }

  lemma SameLearntAt(q: Queue, v: Queue, r: Queue, t: TenantId, name: string, ran: nat, u: TenantId, m: string)
    requires v.costs == q.costs && v.costKeys == q.costKeys && LearntAt(v, r, t, name, ran, u, m)
    ensures LearntAt(q, r, t, name, ran, u, m)
  {
  }

  /** What one operation does to what is known of costs. */
  ghost predicate Leaves(q: Queue, op: Op, r: Queue) {
    if Learns(q, op) then Learnt(q, r, Taught(q, op).0, Taught(q, op).1, Taught(q, op).2)
    else r.costs == q.costs && r.costKeys == q.costKeys
  }

  lemma LeaveTeachesAt(cfg: Config, q: Queue, op: Op, u: TenantId, m: string)
    requires Learns(q, op) && FewNamesAt(q, Taught(q, op).0) && SamplesAt(q, Taught(q, op).0, Taught(q, op).1)
    ensures LearntAt(q, Apply(cfg, q, op), Taught(q, op).0, Taught(q, op).1, Taught(q, op).2, u, m)
  {
    var (t, name, ran) := Taught(q, op);
    var v := Vacated(cfg, q, op.job, op.step, op.at);
    VacatedKnows(cfg, q, op);
    VacatedIsQuiet(cfg, q, op);
    LearnsFrom(q, v, t, name, ran, u, m);
  }

  lemma LearnsFrom(q: Queue, v: Queue, t: TenantId, name: string, ran: nat, u: TenantId, m: string)
    requires v.costs == q.costs && v.costKeys == q.costKeys && FewNamesAt(q, t) && SamplesAt(q, t, name)
    ensures LearntAt(q, Observe(v, t, name, ran), t, name, ran, u, m)
  {
    LearnsExactly(v, t, name, ran, u, m);
    SameLearntAt(q, v, Observe(v, t, name, ran), t, name, ran, u, m);
  }

  lemma LeaveTeaches(cfg: Config, q: Queue, op: Op)
    requires Learns(q, op) && Costed(q)
    ensures Leaves(q, op, Apply(cfg, q, op))
  {
    assert NamesAt(q, Taught(q, op).0) && SamplesAt(q, Taught(q, op).0, Taught(q, op).1);
    forall u, m ensures LearntAt(q, Apply(cfg, q, op), Taught(q, op).0, Taught(q, op).1, Taught(q, op).2, u, m) {
      LeaveTeachesAt(cfg, q, op, u, m);
    }
  }

  lemma ApplyLeaves(cfg: Config, q: Queue, op: Op)
    requires Costed(q)
    ensures Leaves(q, op, Apply(cfg, q, op))
  {
    if Learns(q, op) {
      LeaveTeaches(cfg, q, op);
    } else if op.Leave? {
      QuietLeave(cfg, q, op);
    } else if op.Grant? {
      GrantTeachesNothing(cfg, q, op.now);
    } else {
      UntaughtKeeps(cfg, q, op);
    }
  }

  lemma CostedNext(q: Queue, op: Op, r: Queue)
    requires Leaves(q, op, r) && Costed(q)
    ensures Costed(r)
  {
    forall u ensures NamesAt(r, u) { NamesNext(q, op, r, u); }
    forall u, m ensures SamplesAt(r, u, m) { SamplesNext(q, op, r, u, m); }
  }

  lemma NamesNext(q: Queue, op: Op, r: Queue, u: TenantId)
    requires Leaves(q, op, r) && Costed(q)
    ensures NamesAt(r, u)
  {
    assert NamesAt(q, u);
    if Learns(q, op) {
      var (t, name, ran) := Taught(q, op);
      assert NamesAt(q, t) && SamplesAt(q, t, name) && LearntAt(q, r, t, name, ran, u, name);
      LearntNames(q, r, t, name, ran, u);
    }
  }

  lemma SamplesNext(q: Queue, op: Op, r: Queue, u: TenantId, m: string)
    requires Leaves(q, op, r) && Costed(q)
    ensures SamplesAt(r, u, m)
  {
    assert SamplesAt(q, u, m);
    if Learns(q, op) {
      var (t, name, ran) := Taught(q, op);
      assert NamesAt(q, t) && SamplesAt(q, t, name) && LearntAt(q, r, t, name, ran, u, m);
      LearntListed(q, r, t, name, ran, u, m);
    }
  }

  /** In every run a tenant is remembered for at most 1024 step names and each for at most 16 runs. */
  lemma {:induction false} CostsAreBounded(cfg: Config, ops: seq<Op>)
    ensures Costed(Run(cfg, EMPTY, ops))
  {
    if ops == [] {
      forall t ensures NamesAt(EMPTY, t) {}
      forall t, name ensures SamplesAt(EMPTY, t, name) {}
    } else {
      CostsAreBounded(cfg, ops[..|ops| - 1]);
      ApplyLeaves(cfg, Run(cfg, EMPTY, ops[..|ops| - 1]), ops[|ops| - 1]);
      CostedNext(Run(cfg, EMPTY, ops[..|ops| - 1]), ops[|ops| - 1], Run(cfg, EMPTY, ops));
    }
  }

  /** What is held is the newest of the lessons, as many as there are samples. */
  ghost predicate Newest(held: Option<seq<real>>, lessons: seq<real>) {
    held.Some? ==> |held.value| <= |lessons| && held.value == lessons[|lessons| - |held.value|..]
  }

  lemma NewestNext(q: Queue, t: TenantId, name: string, ran: nat, lessons: seq<real>)
    requires SamplesAt(q, t, name) && Newest(SamplesOf(q, t, name), lessons)
    ensures Newest(Some(NewSamples(q, t, name, ran)), lessons + [ran as real / 1000000000.0])
  {
  }

  /** In every run, the samples a tenant's step name is costed from are its own newest runs, by the time they
      held their slots. */
  lemma {:induction false} SamplesAreTheNewest(cfg: Config, ops: seq<Op>, t: TenantId, name: string)
    ensures Newest(SamplesOf(Run(cfg, EMPTY, ops), t, name), Lessons(cfg, ops, t, name))
  {
    if ops != [] {
      var front, op := ops[..|ops| - 1], ops[|ops| - 1];
      SamplesAreTheNewest(cfg, front, t, name);
      CostsAreBounded(cfg, front);
      ApplyLeaves(cfg, Run(cfg, EMPTY, front), op);
      LessonNext(Run(cfg, EMPTY, front), op, Run(cfg, EMPTY, ops), t, name, Lessons(cfg, front, t, name));
    }
  }

  lemma LessonNext(q: Queue, op: Op, r: Queue, t: TenantId, name: string, lessons: seq<real>)
    requires Leaves(q, op, r) && Costed(q) && Newest(SamplesOf(q, t, name), lessons)
    ensures Newest(SamplesOf(r, t, name), lessons +
                   if Teaches(q, op, t, name) then [SecondsHeld(op.at, StartOf(q, (op.job, op.step)).value)] else [])
  {
    assert lessons + [] == lessons;
    if Learns(q, op) {
      var (u, m, ran) := Taught(q, op);
      assert SamplesAt(q, t, name) && LearntAt(q, r, u, m, ran, t, name);
      if u == t && m == name { NewestNext(q, t, name, ran, lessons); }
    }
  }

  // ---- Who teaches ----

  /** Nothing is learned of what any run cost. */
  ghost predicate TeachesNothing(q: Queue, r: Queue) { r.costs == q.costs && r.costKeys == q.costKeys }

  lemma UnlearnedLeave(cfg: Config, q: Queue, j: JobId, s: StepId, at: Instant)
    ensures TeachesNothing(q, Unplace(cfg, q, j, s, at, false))
  {
    QuietLeave(cfg, q, Leave(j, s, at, false));
  }

  lemma EnqueueTeachesNothing(cfg: Config, q: Queue, j: JobId, s: StepId, name: string)
    ensures TeachesNothing(q, Enqueue(cfg, q, j, s, name))
  {
  }

  lemma AdoptTeachesNothing(q: Queue, j: JobId, s: StepId, name: string, since: Instant)
    ensures TeachesNothing(q, Adopt(q, j, s, name, since))
  {
  }

  /** A step given back to the queue teaches nothing, */
  lemma RequeueTeachesNothing(cfg: Config, q: Queue, j: JobId, s: StepId, name: string, at: Instant)
    ensures TeachesNothing(q, Requeue(cfg, q, j, s, name, at))
  {
    UnlearnedLeave(cfg, q, j, s, at);
    EnqueueTeachesNothing(cfg, Unplace(cfg, q, j, s, at, false), j, s, name);
  }

  lemma {:induction false} ReleaseTeachesNothing(cfg: Config, q: Queue, j: JobId, order: seq<StepId>, at: Instant)
    ensures TeachesNothing(q, ReleaseAll(cfg, q, j, order, at))
    decreases |order|
  {
    if order != [] {
      UnlearnedLeave(cfg, q, j, order[0], at);
      ReleaseTeachesNothing(cfg, Unplace(cfg, q, j, order[0], at, false), j, order[1..], at);
    }
  }

  /** nor does a job that is forgotten; */
  lemma ForgetTeachesNothing(cfg: Config, q: Queue, j: JobId, order: seq<StepId>, at: Instant)
    ensures TeachesNothing(q, ForgetJob(cfg, q, j, order, at))
  {
    ReleaseTeachesNothing(cfg, q, j, order, at);
  }

  /** How long the step has held its slot, if it has one. */
  function Held(q: Queue, k: StepRef, until: Instant): nat {
    var since := StartOf(q, k);
    if since.Some? && until >= since.value then until - since.value else 0
  }

  lemma LeftTaught(q: Queue, op: Op, r: Queue)
    requires op.Leave? && op.learn && StartOf(q, (op.job, op.step)).Some? && Leaves(q, op, r)
    ensures Learnt(q, r, q.jobs[op.job].tenant, q.jobs[op.job].steps[op.step].name, Held(q, (op.job, op.step), op.at))
  {
    assert Taught(q, op) ==
      (q.jobs[op.job].tenant, q.jobs[op.job].steps[op.step].name, Held(q, (op.job, op.step), op.at));
  }

  lemma FinishTeaches(cfg: Config, q: Queue, j: JobId, s: StepId, until: Instant)
    requires Costed(q) && StartOf(q, (j, s)).Some?
    ensures var r := Apply(cfg, q, Leave(j, s, until, true));
      Learnt(q, r, q.jobs[j].tenant, q.jobs[j].steps[s].name, Held(q, (j, s), until))
  {
    LeaveTeaches(cfg, q, Leave(j, s, until, true));
    LeftTaught(q, Leave(j, s, until, true), Apply(cfg, q, Leave(j, s, until, true)));
  }

  lemma UnfinishedTeachesNothing(cfg: Config, q: Queue, j: JobId, v: StepView, now: Instant)
    requires !Finished(v)
    ensures TeachesNothing(q, ReconcileStep(cfg, q, j, v, now))
  {
    match v.state
    case Ready =>
      EnqueueTeachesNothing(cfg, q, j, v.step, v.name);
      RequeueTeachesNothing(cfg, q, j, v.step, v.name, now);
    case Pending =>
    case Leased => AdoptedTeachesNothing(cfg, q, j, v, now);
    case Running => AdoptedTeachesNothing(cfg, q, j, v, now);
    case _ => UnlearnedLeave(cfg, q, j, v.step, Or(v.finishedAt, now));
  }

  predicate Finished(v: StepView) { v.state == StepState.Passed || v.state == StepState.Failed }

  function Until(v: StepView, now: Instant): Instant { if v.finishedAt.Some? then v.finishedAt.value else now }

  lemma FinishedLeaves(cfg: Config, q: Queue, j: JobId, v: StepView, now: Instant)
    requires Finished(v)
    ensures ReconcileStep(cfg, q, j, v, now) == Apply(cfg, q, Leave(j, v.step, Until(v, now), true))
  {
  }

  /** What an observed step teaches. */
  ghost predicate TaughtBy(q: Queue, r: Queue, j: JobId, v: StepView, now: Instant) {
    if Finished(v) && StartOf(q, (j, v.step)).Some? then
      Learnt(q, r, q.jobs[j].tenant, q.jobs[j].steps[v.step].name, Held(q, (j, v.step), Until(v, now)))
    else TeachesNothing(q, r)
  }

  lemma LeaveTaught(cfg: Config, q: Queue, j: JobId, v: StepView, now: Instant)
    requires Costed(q) && Finished(v)
    ensures TaughtBy(q, Apply(cfg, q, Leave(j, v.step, Until(v, now), true)), j, v, now)
  {
    if StartOf(q, (j, v.step)).Some? {
      FinishTeaches(cfg, q, j, v.step, Until(v, now));
    } else {
      QuietLeave(cfg, q, Leave(j, v.step, Until(v, now), true));
    }
  }

  /** and of an observed step only one that passed or failed, having held a slot, teaches: by the time from
      its start to when it finished, or to now. */
  lemma OnlyFinishedTeach(cfg: Config, q: Queue, j: JobId, v: StepView, now: Instant)
    requires Costed(q)
    ensures TaughtBy(q, ReconcileStep(cfg, q, j, v, now), j, v, now)
  {
    if Finished(v) {
      FinishedLeaves(cfg, q, j, v, now);
      LeaveTaught(cfg, q, j, v, now);
    } else {
      UnfinishedTeachesNothing(cfg, q, j, v, now);
    }
  }

  lemma AdoptedTeachesNothing(cfg: Config, q: Queue, j: JobId, v: StepView, now: Instant)
    ensures TeachesNothing(q, Adopt(Unplace(cfg, q, j, v.step, now, false), j, v.step, v.name, Or(v.startedAt, now)))
  {
    UnlearnedLeave(cfg, q, j, v.step, now);
    AdoptTeachesNothing(Unplace(cfg, q, j, v.step, now, false), j, v.step, v.name, Or(v.startedAt, now));
  }
}
