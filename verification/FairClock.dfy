/** Virtual time: what a tenant's clock is made of, how long a waiting head can be passed over, and
    exactly when a rival's grant pushes it back. */
module FairClock {
  import opened Wrappers
  import opened Orders
  import opened Sums
  import opened JobModel
  import opened FairShare
  import opened FairRuns
  import opened FairSelect

  // ---- Charge conservation ----

  function ChargeAt(q: Queue, k: StepRef): Option<real> {
    if PlacementOf(q, k).Some? then PlacementOf(q, k).value.charged else None
  }

  /** What a tenant has been charged for the granted steps still in its slots. */
  ghost function Charges(q: Queue, t: TenantId): map<StepRef, real> {
    map k | k in TenantOf(q, t).running && ChargeAt(q, k).Some? :: ChargeAt(q, k).value
  }

  /** A tenant's clock with the open charges taken out. */
  ghost function Balance(cfg: Config, q: Queue, t: TenantId): real {
    TenantOf(q, t).vftLast - MapSum(Charges(q, t)) / cfg.Weight(t)
  }

  /** How far the idle-credit clamp pulled a tenant forward at a grant. */
  ghost function Jump(cfg: Config, q: Queue, op: Op, t: TenantId): real {
    if op.Grant? && Best(cfg, Seen(q), op.now).Some? && Best(cfg, Seen(q), op.now).value.tenant == t
    then Best(cfg, Seen(q), op.now).value.start - TenantOf(q, t).vftLast
    else 0.0
  }

  /** The time a granted step of `t` held its slot, when this step is what leaves. */
  ghost function Paid(q: Queue, op: Op, t: TenantId): real {
    if op.Leave? && ChargeAt(q, (op.job, op.step)).Some? && StartOf(q, (op.job, op.step)).Some? &&
        q.jobs[op.job].tenant == t
    then Secs(Elapsed(op.at, StartOf(q, (op.job, op.step)).value))
    else 0.0
  }

  lemma Divides(a: real, b: real, w: real)
    requires w > 0.0
    ensures (a + b) / w == a / w + b / w && (a - b) / w == a / w - b / w && (a * w) / w == a
  {
  }

  /** Nothing a tenant's clock or open charges depend on has changed. */
  lemma SameBalance(cfg: Config, q: Queue, r: Queue, t: TenantId)
    requires TenantOf(r, t).vftLast == TenantOf(q, t).vftLast
    requires forall k :: k in Charges(r, t) <==> k in Charges(q, t)
    requires forall k | k in Charges(q, t) :: ChargeAt(r, k) == ChargeAt(q, k)
    ensures Balance(cfg, r, t) == Balance(cfg, q, t)
  {
    assert Charges(r, t) == Charges(q, t);
  }

  /** Placements and slots as they were, at `k`. */
  ghost predicate SameCharge(q: Queue, r: Queue, t: TenantId, k: StepRef) {
    (k in Charges(r, t) <==> k in Charges(q, t)) && (k in Charges(q, t) ==> ChargeAt(r, k) == ChargeAt(q, k))
  }

  lemma QuietBalance(cfg: Config, q: Queue, r: Queue, t: TenantId)
    requires TenantOf(r, t).vftLast == TenantOf(q, t).vftLast
    requires forall k :: SameCharge(q, r, t, k)
    ensures Balance(cfg, r, t) == Balance(cfg, q, t)
  {
    forall k ensures k in Charges(r, t) <==> k in Charges(q, t) { assert SameCharge(q, r, t, k); }
    forall k | k in Charges(q, t) ensures ChargeAt(r, k) == ChargeAt(q, k) { assert SameCharge(q, r, t, k); }
    SameBalance(cfg, q, r, t);
  }

  lemma StillBalanced(cfg: Config, q: Queue, r: Queue, t: TenantId)
    requires TenantOf(r, t).vftLast == TenantOf(q, t).vftLast && TenantOf(r, t).running == TenantOf(q, t).running
    requires forall k | k in TenantOf(q, t).running :: ChargeAt(r, k) == ChargeAt(q, k)
    ensures Balance(cfg, r, t) == Balance(cfg, q, t)
  {
    assert Charges(r, t) == Charges(q, t);
  }

  lemma EnqueueBalance(cfg: Config, q: Queue, owner: Owner, j: JobId, s: StepId, name: string, t: TenantId)
    requires Inv(q, owner)
    ensures Balance(cfg, Enqueue(cfg, q, j, s, name), t) == Balance(cfg, q, t)
  {
    var r := Enqueue(cfg, q, j, s, name);
    if j in q.jobs && s !in q.jobs[j].steps {
      forall k | k in TenantOf(q, t).running ensures ChargeAt(r, k) == ChargeAt(q, k) {
        assert RunsAt(q, owner, t, k);
        PlacedAt(q, r, j, s, q.jobs[j].steps[s := Placement(name, None, None)], k);
      }
      StillBalanced(cfg, q, r, t);
    }
  }

  lemma AdoptBalance(cfg: Config, q: Queue, owner: Owner, j: JobId, s: StepId, name: string, since: Instant,
                     t: TenantId)
    requires Inv(q, owner) && PlacementOf(q, (j, s)).None?
    ensures Balance(cfg, Adopt(q, j, s, name, since), t) == Balance(cfg, q, t)
  {
    var r := Adopt(q, j, s, name, since);
    if j in q.jobs {
      forall k ensures SameCharge(q, r, t, k) {
        PlacedAt(q, r, j, s, q.jobs[j].steps[s := Placement(name, Some(since), None)], k);
      }
      QuietBalance(cfg, q, r, t);
    }
  }

  lemma DropBalance(cfg: Config, q: Queue, owner: Owner, j: JobId, t: TenantId)
    requires Inv(q, owner) && (j in q.jobs ==> q.jobs[j].steps == map[])
    ensures Balance(cfg, DropJob(q, j), t) == Balance(cfg, q, t)
  {
    var r := DropJob(q, j);
    forall k | k in TenantOf(q, t).running ensures ChargeAt(r, k) == ChargeAt(q, k) {
      assert PlacementOf(r, k) == PlacementOf(q, k);
    }
    StillBalanced(cfg, q, r, t);
  }

  /** The leaving step is a granted one of `t`, in its slot. */
  ghost predicate Pays(q: Queue, op: Op, t: TenantId)
    requires op.Leave?
  {
    var k := (op.job, op.step); ChargeAt(q, k).Some? && StartOf(q, k).Some? && q.jobs[op.job].tenant == t
  }

  lemma LeaveTenant(cfg: Config, q: Queue, op: Op, t: TenantId)
    requires op.Leave? && Pays(q, op, t) && t in q.tenants
    ensures TenantOf(Apply(cfg, q, op), t) ==
            Departed(cfg, t, q.tenants[t], (op.job, op.step), PlacementOf(q, (op.job, op.step)).value, op.at)
  {
  }

  lemma FreeTenant(cfg: Config, q: Queue, op: Op, t: TenantId)
    requires op.Leave? && !Pays(q, op, t)
    ensures TenantOf(Apply(cfg, q, op), t).vftLast == TenantOf(q, t).vftLast
  {
    if PlacementOf(q, (op.job, op.step)).Some? { UnplaceFacts(cfg, q, op.job, op.step, op.at, op.learn); }
  }

  lemma LeaveClock(cfg: Config, q: Queue, owner: Owner, op: Op, t: TenantId)
    requires Inv(q, owner) && op.Leave? && Pays(q, op, t)
    ensures TenantOf(Apply(cfg, q, op), t).vftLast ==
            TenantOf(q, t).vftLast + (Paid(q, op, t) - ChargeAt(q, (op.job, op.step)).value) / cfg.Weight(t)
  {
    assert OwnedAt(q, owner, op.job);
    LeaveTenant(cfg, q, op, t);
  }

  /** Slots and placements differ at most at `k0`, which holds neither any more. */
  ghost predicate OnlyLeft(q: Queue, r: Queue, k0: StepRef) {
    && k0.0 in q.jobs && Replaced(q, r, k0.0, k0.1, q.jobs[k0.0].steps - {k0.1})
    && forall t, k :: k != k0 ==> (k in TenantOf(r, t).running <==> k in TenantOf(q, t).running)
  }

  lemma LeftKeepsCharge(q: Queue, r: Queue, k0: StepRef, t: TenantId, k: StepRef)
    requires OnlyLeft(q, r, k0)
    ensures if k == k0 then PlacementOf(r, k).None? else SameCharge(q, r, t, k)
  {
    PlacedAt(q, r, k0.0, k0.1, q.jobs[k0.0].steps - {k0.1}, k);
  }

  lemma SlotLessIsOnlyLeft(q: Queue, r: Queue, t: TenantId, k0: StepRef)
    requires OneSlotLess(q, r, t, k0) && k0.0 in q.jobs && Replaced(q, r, k0.0, k0.1, q.jobs[k0.0].steps - {k0.1})
    ensures OnlyLeft(q, r, k0)
  {
  }

  lemma LeaveOnlyLeft(cfg: Config, q: Queue, op: Op)
    requires op.Leave? && PlacementOf(q, (op.job, op.step)).Some?
    ensures OnlyLeft(q, Apply(cfg, q, op), (op.job, op.step))
  {
    UnplaceFacts(cfg, q, op.job, op.step, op.at, op.learn);
    UnplaceSlots(cfg, q, op.job, op.step, op.at, op.learn);
    SlotLessIsOnlyLeft(q, Apply(cfg, q, op), q.jobs[op.job].tenant, (op.job, op.step));
  }

  lemma LeaveCharges(cfg: Config, q: Queue, owner: Owner, op: Op, t: TenantId)
    requires Inv(q, owner) && op.Leave?
    ensures Charges(Apply(cfg, q, op), t) == Charges(q, t) - {(op.job, op.step)}
    ensures (op.job, op.step) in Charges(q, t) <==> Pays(q, op, t)
  {
    var r, k0 := Apply(cfg, q, op), (op.job, op.step);
    assert OwnedAt(q, owner, op.job) && CountedAt(q, owner, k0) && RunsAt(q, owner, t, k0);
    if PlacementOf(q, k0).Some? {
      LeaveOnlyLeft(cfg, q, op);
      forall k ensures k != k0 ==> SameCharge(q, r, t, k) { LeftKeepsCharge(q, r, k0, t, k); }
      LeftKeepsCharge(q, r, k0, t, k0);
      LeftCharges(q, r, t, k0);
    } else {
      assert Charges(q, t) - {k0} == Charges(q, t);
    }
  }

  lemma TruesUp(vft: real, held: real, charge: real, others: real, w: real)
    requires w > 0.0
    ensures (vft + (held - charge) / w) - others / w == vft - (charge + others) / w + held / w
  {
    Divides(held, charge, w);
    Divides(charge, others, w);
  }

  /** A departing granted step replaces its charge by the time it held: the estimate cancels. */
  lemma LeaveBalance(cfg: Config, q: Queue, owner: Owner, op: Op, t: TenantId)
    requires Inv(q, owner) && op.Leave?
    ensures Balance(cfg, Apply(cfg, q, op), t) == Balance(cfg, q, t) + Paid(q, op, t) / cfg.Weight(t)
  {
    LeaveCharges(cfg, q, owner, op, t);
    Divides(0.0, 0.0, cfg.Weight(t));
    if Pays(q, op, t) {
      LeaveClock(cfg, q, owner, op, t);
      ClosedBalance(cfg, q, Apply(cfg, q, op), t, (op.job, op.step), Paid(q, op, t));
    } else {
      FreeTenant(cfg, q, op, t);
      assert Charges(q, t) - {(op.job, op.step)} == Charges(q, t);
    }
  }

  lemma ClosedBalance(cfg: Config, q: Queue, r: Queue, t: TenantId, k0: StepRef, held: real)
    requires k0 in Charges(q, t) && Charges(r, t) == Charges(q, t) - {k0}
    requires TenantOf(r, t).vftLast == TenantOf(q, t).vftLast + (held - Charges(q, t)[k0]) / cfg.Weight(t)
    ensures Balance(cfg, r, t) == Balance(cfg, q, t) + held / cfg.Weight(t)
  {
    MapSumRemove(Charges(q, t), k0);
    TruesUp(TenantOf(q, t).vftLast, held, Charges(q, t)[k0], MapSum(Charges(r, t)), cfg.Weight(t));
  }

  lemma LeftCharges(q: Queue, r: Queue, t: TenantId, k0: StepRef)
    requires PlacementOf(r, k0).None? && forall k :: k != k0 ==> SameCharge(q, r, t, k)
    ensures Charges(r, t) == Charges(q, t) - {k0}
  {
    forall k ensures k in Charges(r, t) <==> k in Charges(q, t) - {k0} { assert k != k0 ==> SameCharge(q, r, t, k); }
    forall k | k in Charges(r, t) ensures Charges(r, t)[k] == Charges(q, t)[k] { assert SameCharge(q, r, t, k); }
  }

  /** A grant opens a charge worth exactly the tag it moved the clock by, beyond the clamp's jump. */
  lemma GrantBalance(cfg: Config, q: Queue, owner: Owner, now: Instant, t: TenantId)
    requires Inv(q, owner)
    ensures Balance(cfg, GrantOnce(cfg, q, now), t) == Balance(cfg, q, t) + Jump(cfg, q, Grant(now), t)
  {
    CleanBalance(cfg, q, t);
    if Best(cfg, Seen(q), now).Some? { PickBalance(cfg, q, owner, now, Best(cfg, Seen(q), now).value, t); }
  }

  lemma CleanBalance(cfg: Config, q: Queue, t: TenantId)
    ensures Balance(cfg, Seen(q), t) == Balance(cfg, q, t)
  {
    StillBalanced(cfg, q, Seen(q), t);
  }

  lemma PickCharges(cfg: Config, q: Queue, owner: Owner, now: Instant, p: Pick, t: TenantId) returns (k0: StepRef)
    requires Inv(q, owner) && Best(cfg, Seen(q), now) == Some(p)
    ensures k0 !in Charges(Seen(q), t)
    ensures Charges(GrantOnce(cfg, q, now), t) == if t == p.tenant
      then Charges(Seen(q), t)[k0 := ChargeFor(cfg, p)] else Charges(Seen(q), t)
  {
    var clean := Seen(q);
    PickFacts(cfg, q, owner, now);
    var w := Head(clean.tenants[p.tenant]).value;
    k0 := w.Ref();
    assert RunsAt(clean, owner, t, k0);
    GrantedCharges(cfg, clean, GrantOnce(cfg, q, now), now, p, w, t);
  }

  lemma GrantedCharges(cfg: Config, clean: Queue, r: Queue, now: Instant, p: Pick, w: Waiting, t: TenantId)
    requires p.tenant in clean.tenants && Head(clean.tenants[p.tenant]) == Some(w) && PlacementOf(clean, w.Ref()).Some?
    requires r == Granted(cfg, clean, now, p) && w.Ref() !in Charges(clean, t) &&
             (t != p.tenant ==> w.Ref() !in TenantOf(clean, t).running)
    ensures Charges(r, t) == if t == p.tenant then Charges(clean, t)[w.Ref() := ChargeFor(cfg, p)]
      else Charges(clean, t)
  {
    var k0 := w.Ref();
    forall k ensures k != k0 ==> SameCharge(clean, r, t, k) { PickElsewhere(cfg, clean, r, now, p, w, t, k); }
    PickElsewhere(cfg, clean, r, now, p, w, t, k0);
    GrantedFacts(cfg, clean, now, p);
    if t == p.tenant {
      OpenedCharges(clean, r, t, k0, ChargeFor(cfg, p));
    } else {
      forall k ensures SameCharge(clean, r, t, k) { assert k != k0 ==> SameCharge(clean, r, t, k); }
      SameChargesEverywhere(clean, r, t);
    }
  }

  lemma PickElsewhere(cfg: Config, clean: Queue, r: Queue, now: Instant, p: Pick, w: Waiting, t: TenantId, k: StepRef)
    requires p.tenant in clean.tenants && Head(clean.tenants[p.tenant]) == Some(w) && PlacementOf(clean, w.Ref()).Some?
    requires r == Granted(cfg, clean, now, p)
    ensures if k == w.Ref() then PlacementOf(r, k) == Some(Placed(cfg, PlacementOf(clean, k).value, p, now))
      else SameCharge(clean, r, t, k)
  {
    GrantedFacts(cfg, clean, now, p);
    var was := clean.jobs[w.job].steps;
    PlacedAt(clean, r, w.job, w.step, was[w.step := Placed(cfg, was[w.step], p, now)], k);
  }

  lemma SameChargesEverywhere(q: Queue, r: Queue, t: TenantId)
    requires forall k :: SameCharge(q, r, t, k)
    ensures Charges(r, t) == Charges(q, t)
  {
    forall k ensures k in Charges(r, t) <==> k in Charges(q, t) { assert SameCharge(q, r, t, k); }
    forall k | k in Charges(q, t) ensures Charges(r, t)[k] == Charges(q, t)[k] { assert SameCharge(q, r, t, k); }
  }

  /** What one grant does to the clocks. */
  lemma PickClock(cfg: Config, q: Queue, owner: Owner, now: Instant, p: Pick, t: TenantId)
    requires Inv(q, owner) && Best(cfg, Seen(q), now) == Some(p)
    ensures var r := GrantOnce(cfg, q, now);
      && r.virtualNow == Max(q.virtualNow, p.start)
      && TenantOf(r, t).vftLast == (if t == p.tenant then p.vft else TenantOf(q, t).vftLast)
  {
    PickFacts(cfg, q, owner, now);
    GrantedFacts(cfg, Seen(q), now, p);
  }

  lemma PickBalance(cfg: Config, q: Queue, owner: Owner, now: Instant, p: Pick, t: TenantId)
    requires Inv(q, owner) && Best(cfg, Seen(q), now) == Some(p)
    ensures Balance(cfg, GrantOnce(cfg, q, now), t) ==
            Balance(cfg, Seen(q), t) + if t == p.tenant then p.start - TenantOf(q, t).vftLast else 0.0
  {
    var k0 := PickCharges(cfg, q, owner, now, p, t);
    PickClock(cfg, q, owner, now, p, t);
    if t == p.tenant { OpenedBalance(cfg, Seen(q), GrantOnce(cfg, q, now), t, k0, p); }
  }

  lemma OpenedBalance(cfg: Config, q: Queue, r: Queue, t: TenantId, k0: StepRef, p: Pick)
    requires t == p.tenant && k0 !in Charges(q, t) && Charges(r, t) == Charges(q, t)[k0 := ChargeFor(cfg, p)]
    requires TenantOf(r, t).vftLast == p.vft
    ensures Balance(cfg, r, t) == Balance(cfg, q, t) + (p.start - TenantOf(q, t).vftLast)
  {
    MapSumInsert(Charges(q, t), k0, ChargeFor(cfg, p));
    Opens(p.vft, p.start, MapSum(Charges(q, t)), ChargeFor(cfg, p), MapSum(Charges(r, t)), cfg.Weight(t));
  }

  lemma Opens(vft: real, start: real, others: real, charge: real, all: real, w: real)
    requires w > 0.0 && charge == (vft - start) * w && all == others + charge
    ensures vft - all / w == start - others / w
  {
    Divides(others, charge, w);
    Divides(vft - start, 0.0, w);
  }

  lemma OpenedCharges(q: Queue, r: Queue, t: TenantId, k0: StepRef, c: real)
    requires k0 !in Charges(q, t) && k0 in TenantOf(r, t).running && ChargeAt(r, k0) == Some(c)
    requires forall k :: k != k0 ==> SameCharge(q, r, t, k)
    ensures Charges(r, t) == Charges(q, t)[k0 := c]
  {
    forall k ensures k in Charges(r, t) <==> k in Charges(q, t)[k0 := c] { assert k != k0 ==> SameCharge(q, r, t, k); }
    forall k | k in Charges(r, t) ensures Charges(r, t)[k] == Charges(q, t)[k0 := c][k] {
      assert k != k0 ==> SameCharge(q, r, t, k);
    }
  }

  lemma QuietApply(cfg: Config, q: Queue, owner: Owner, op: Op, t: TenantId)
    requires Inv(q, owner) && Enabled(q, owner, op) && !op.Leave? && !op.Grant?
    ensures Balance(cfg, Apply(cfg, q, op), t) == Balance(cfg, q, t)
  {
    match op
    case Admit(j, x, p) =>
      forall k ensures PlacementOf(AdmitJob(q, j, x, p), k) == PlacementOf(q, k) {}
      StillBalanced(cfg, q, AdmitJob(q, j, x, p), t);
    case Enter(j, s, name) => EnqueueBalance(cfg, q, owner, j, s, name, t);
    case TakeOver(j, s, name, since) => AdoptBalance(cfg, q, owner, j, s, name, since, t);
    case Drop(j) => DropBalance(cfg, q, owner, j, t);
    case Prune(now) => StillBalanced(cfg, q, PruneLedgers(q, now), t);
    case Clean => CleanBalance(cfg, q, t);
  }

  lemma ApplyBalance(cfg: Config, q: Queue, owner: Owner, op: Op, t: TenantId)
    requires Inv(q, owner) && Enabled(q, owner, op)
    ensures Balance(cfg, Apply(cfg, q, op), t) ==
            Balance(cfg, q, t) + Jump(cfg, q, op, t) + Paid(q, op, t) / cfg.Weight(t)
  {
    Divides(0.0, 0.0, cfg.Weight(t));
    if op.Leave? {
      LeaveBalance(cfg, q, owner, op, t);
    } else if op.Grant? {
      GrantBalance(cfg, q, owner, op.now, t);
    } else {
      QuietApply(cfg, q, owner, op, t);
    }
  }

  ghost function JumpsIn(cfg: Config, q: Queue, ops: seq<Op>, t: TenantId): real {
    if ops == [] then 0.0
    else
      var front := ops[..|ops| - 1];
      JumpsIn(cfg, q, front, t) + Jump(cfg, Run(cfg, q, front), ops[|ops| - 1], t)
  }

  ghost function PaidIn(cfg: Config, q: Queue, ops: seq<Op>, t: TenantId): real {
    if ops == [] then 0.0
    else
      var front := ops[..|ops| - 1];
      PaidIn(cfg, q, front, t) + Paid(Run(cfg, q, front), ops[|ops| - 1], t)
  }

  lemma {:induction false} RunBalance(cfg: Config, q: Queue, owner: Owner, ops: seq<Op>, t: TenantId)
    requires Inv(q, owner) && EnabledRun(cfg, q, owner, ops)
    ensures Balance(cfg, Run(cfg, q, ops), t) ==
            Balance(cfg, q, t) + JumpsIn(cfg, q, ops, t) + PaidIn(cfg, q, ops, t) / cfg.Weight(t)
  {
    Divides(0.0, 0.0, cfg.Weight(t));
    if ops != [] {
      EnabledFront(cfg, q, owner, ops);
      RunBalance(cfg, q, owner, ops[..|ops| - 1], t);
      LastBalance(cfg, q, owner, ops, t);
    }
  }

  lemma LastBalance(cfg: Config, q: Queue, owner: Owner, ops: seq<Op>, t: TenantId)
    requires Inv(q, owner) && EnabledRun(cfg, q, owner, ops) && ops != [] && EnabledRun(cfg, q, owner, ops[..|ops| - 1])
    ensures var front := ops[..|ops| - 1];
      Balance(cfg, Run(cfg, q, ops), t) - Balance(cfg, Run(cfg, q, front), t) ==
      (JumpsIn(cfg, q, ops, t) - JumpsIn(cfg, q, front, t)) +
      (PaidIn(cfg, q, ops, t) / cfg.Weight(t) - PaidIn(cfg, q, front, t) / cfg.Weight(t))
  {
    var front, op := ops[..|ops| - 1], ops[|ops| - 1];
    RunKeeps(cfg, q, owner, front);
    assert Enabled(Run(cfg, q, front), owner, op);
    ApplyBalance(cfg, Run(cfg, q, front), owner, op, t);
    LastSums(cfg, q, ops, t);
    Accrues(Balance(cfg, Run(cfg, q, ops), t), Balance(cfg, Run(cfg, q, front), t),
        Jump(cfg, Run(cfg, q, front), op, t),
            PaidIn(cfg, q, ops, t), PaidIn(cfg, q, front, t), Paid(Run(cfg, q, front), op, t), cfg.Weight(t));
  }

  lemma LastSums(cfg: Config, q: Queue, ops: seq<Op>, t: TenantId)
    requires ops != []
    ensures var front, op := ops[..|ops| - 1], ops[|ops| - 1];
      && Run(cfg, q, ops) == Apply(cfg, Run(cfg, q, front), op)
      && JumpsIn(cfg, q, ops, t) == JumpsIn(cfg, q, front, t) + Jump(cfg, Run(cfg, q, front), op, t)
      && PaidIn(cfg, q, ops, t) == PaidIn(cfg, q, front, t) + Paid(Run(cfg, q, front), op, t)
  {
  }

  lemma Accrues(after: real, before: real, jump: real, paid': real, paid: real, now: real, w: real)
    requires w > 0.0 && after == before + jump + now / w && paid' == paid + now
    ensures after - before == jump + (paid' / w - paid / w)
  {
    Divides(paid, now, w);
  }

  lemma EnabledFront(cfg: Config, q: Queue, owner: Owner, ops: seq<Op>)
    requires EnabledRun(cfg, q, owner, ops) && ops != []
    ensures EnabledRun(cfg, q, owner, ops[..|ops| - 1])
  {
    var front := ops[..|ops| - 1];
    forall n | 0 <= n < |front| ensures Enabled(Run(cfg, q, front[..n]), owner, front[n]) {
      assert front[..n] == ops[..n];
      assert Enabled(Run(cfg, q, ops[..n]), owner, ops[n]);
    }
  }

  lemma EmptyInv(owner: Owner)
    ensures Inv(EMPTY, owner)
  {
    forall t, k ensures At(EMPTY, owner, t, k) {}
    InvFrom(EMPTY, owner);
  }

  /** Over every run from the start: a tenant's clock is the clamp's jumps, plus the time its departed
      granted steps held their slots, plus what its running ones were charged. No estimate survives a
      departure. */
  lemma ClockIsConserved(cfg: Config, owner: Owner, ops: seq<Op>, t: TenantId)
    requires EnabledRun(cfg, EMPTY, owner, ops)
    ensures var end := Run(cfg, EMPTY, ops);
      TenantOf(end, t).vftLast ==
      JumpsIn(cfg, EMPTY, ops, t) + PaidIn(cfg, EMPTY, ops, t) / cfg.Weight(t) + MapSum(Charges(end, t)) / cfg.Weight(t)
  {
    EmptyInv(owner);
    RunBalance(cfg, EMPTY, owner, ops, t);
    EmptyBalance(cfg, t);
  }

  lemma EmptyBalance(cfg: Config, t: TenantId)
    ensures Balance(cfg, EMPTY, t) == 0.0
  {
    assert Charges(EMPTY, t) == map[];
    Divides(0.0, 0.0, cfg.Weight(t));
  }

  // ---- Waiting ----

  /** Exactly when a grant to someone else pushes a tenant's start tag forward: when the granted start
      is more than the idle credit ahead of it. */
  lemma GrantMovesStartIff(cfg: Config, q: Queue, owner: Owner, now: Instant, p: Pick, a: TenantId)
    requires Inv(q, owner) && Best(cfg, Seen(q), now) == Some(p) && p.tenant != a
    ensures Start(cfg, GrantOnce(cfg, q, now), a) == Max(Start(cfg, q, a), p.start - cfg.Credit())
    ensures Start(cfg, GrantOnce(cfg, q, now), a) != Start(cfg, q, a) <==> p.start > Start(cfg, q, a) + cfg.Credit()
  {
    PickClock(cfg, q, owner, now, p, a);
  }

  /** The head of `a`, as the pass sees it, costs `share` in units of its tenant's weight. */
  ghost predicate HeadShare(cfg: Config, q: Queue, now: Instant, a: TenantId, share: real) {
    Candidate(cfg, Seen(q), now, a) && Head(Seen(q).tenants[a]).value.cost / cfg.Weight(a) == share
  }

  lemma SeenStart(cfg: Config, q: Queue, t: TenantId)
    ensures Start(cfg, Seen(q), t) == Start(cfg, q, t)
  {
  }

  /** While an admissible head waits, whoever is granted starts strictly before its finish tag and
      finishes no later than it. */
  lemma PickedNoLater(cfg: Config, q: Queue, owner: Owner, now: Instant, p: Pick, a: TenantId, share: real)
    requires Inv(q, owner) && Best(cfg, Seen(q), now) == Some(p) && HeadShare(cfg, q, now, a, share)
    ensures p.start == Start(cfg, q, p.tenant) && p.start < p.vft <= Start(cfg, q, a) + share
  {
    PickFacts(cfg, q, owner, now);
    BestIsLeast(cfg, Seen(q), now, a);
    SeenStart(cfg, q, a);
    SeenStart(cfg, q, p.tenant);
    CostIsPositive(cfg, p.tenant, Head(Seen(q).tenants[p.tenant]).value.cost);
  }

  /** What may happen while a head waits: anything but a step leaving its slot. */
  ghost predicate Calm(q: Queue, op: Op) { op.Leave? ==> StartOf(q, (op.job, op.step)).None? }

  lemma CalmClock(cfg: Config, q: Queue, op: Op, t: TenantId)
    requires Calm(q, op) && !op.Grant?
    ensures var r := Apply(cfg, q, op); r.virtualNow == q.virtualNow && TenantOf(r, t).vftLast == TenantOf(q, t).vftLast
  {
    if op.Leave? && PlacementOf(q, (op.job, op.step)).Some? {
      UnplaceFacts(cfg, q, op.job, op.step, op.at, op.learn);
    }
  }

  /** `a`'s head is passed over by this step, if the step grants anything. */
  ghost predicate PassedOver(cfg: Config, q: Queue, op: Op, a: TenantId, share: real) {
    op.Grant? && Best(cfg, Seen(q), op.now).Some? ==>
      Best(cfg, Seen(q), op.now).value.tenant != a && HeadShare(cfg, q, op.now, a, share)
  }

  /** `a` waits throughout the run with a head of that share. */
  ghost predicate WaitsAt(cfg: Config, q: Queue, ops: seq<Op>, a: TenantId, share: real, n: int) {
    0 <= n < |ops| ==> Calm(Run(cfg, q, ops[..n]), ops[n]) && PassedOver(cfg, Run(cfg, q, ops[..n]), ops[n], a, share)
  }

  ghost predicate WaitRun(cfg: Config, q: Queue, ops: seq<Op>, a: TenantId, share: real) {
    forall n :: WaitsAt(cfg, q, ops, a, share, n)
  }

  /** Virtual time a step charges to `b`. */
  ghost function ChargedTo(cfg: Config, q: Queue, op: Op, b: TenantId): real {
    if op.Grant? && Best(cfg, Seen(q), op.now).Some? && Best(cfg, Seen(q), op.now).value.tenant == b
    then Best(cfg, Seen(q), op.now).value.vft - Best(cfg, Seen(q), op.now).value.start
    else 0.0
  }

  ghost function SpentBy(cfg: Config, q: Queue, ops: seq<Op>, b: TenantId): real {
    if ops == [] then 0.0
    else
      var front := ops[..|ops| - 1];
      SpentBy(cfg, q, front, b) + ChargedTo(cfg, Run(cfg, q, front), ops[|ops| - 1], b)
  }

  /** The waiting tenant's start has not moved, and each rival has spent at most the room below the
      waiting head's finish tag. */
  ghost predicate Bounded(cfg: Config, q: Queue, r: Queue, spent: real, a: TenantId, b: TenantId, share: real) {
    && Start(cfg, r, a) == Start(cfg, q, a)
    && Start(cfg, r, b) >= Start(cfg, q, b)
    && (spent == 0.0 || Start(cfg, q, b) + spent <= TenantOf(r, b).vftLast <= Start(cfg, q, a) + share)
  }

  lemma StepBounded(cfg: Config, q: Queue, r: Queue, owner: Owner, op: Op, spent: real, a: TenantId, b: TenantId,
                    share: real)
    requires Inv(r, owner) && a != b && share <= cfg.Credit()
    requires Bounded(cfg, q, r, spent, a, b, share) && Calm(r, op) && PassedOver(cfg, r, op, a, share)
    ensures Bounded(cfg, q, Apply(cfg, r, op), spent + ChargedTo(cfg, r, op, b), a, b, share)
  {
    if op.Grant? && Best(cfg, Seen(r), op.now).Some? {
      GrantBounded(cfg, q, r, owner, op.now, Best(cfg, Seen(r), op.now).value, spent, a, b, share);
    } else {
      NoGrantClock(cfg, r, op, a);
      NoGrantClock(cfg, r, op, b);
      BoundedStays(cfg, q, r, Apply(cfg, r, op), spent, a, b, share);
    }
  }

  lemma BoundedStays(cfg: Config, q: Queue, r: Queue, r': Queue, spent: real, a: TenantId, b: TenantId, share: real)
    requires Bounded(cfg, q, r, spent, a, b, share)
    requires Start(cfg, r', a) == Start(cfg, r, a) && Start(cfg, r', b) == Start(cfg, r, b)
    requires TenantOf(r', b).vftLast == TenantOf(r, b).vftLast
    ensures Bounded(cfg, q, r', spent, a, b, share)
  {
  }

  lemma NoGrantClock(cfg: Config, q: Queue, op: Op, t: TenantId)
    requires Calm(q, op) && !(op.Grant? && Best(cfg, Seen(q), op.now).Some?)
    ensures Start(cfg, Apply(cfg, q, op), t) == Start(cfg, q, t) &&
            TenantOf(Apply(cfg, q, op), t).vftLast == TenantOf(q, t).vftLast
  {
    if !op.Grant? { CalmClock(cfg, q, op, t); }
  }

  lemma GrantBounded(cfg: Config, q: Queue, r: Queue, owner: Owner, now: Instant, p: Pick, spent: real, a: TenantId,
                     b: TenantId, share: real)
    requires Inv(r, owner) && a != b && share <= cfg.Credit() && Best(cfg, Seen(r), now) == Some(p) && p.tenant != a
    requires Bounded(cfg, q, r, spent, a, b, share) && HeadShare(cfg, r, now, a, share)
    ensures Bounded(cfg, q, GrantOnce(cfg, r, now), spent + if p.tenant == b then p.vft - p.start else 0.0, a, b, share)
  {
    PickedNoLater(cfg, r, owner, now, p, a, share);
    GrantMovesStartIff(cfg, r, owner, now, p, a);
    PickClock(cfg, r, owner, now, p, b);
  }

  /** Bounded waiting, over every run: while an admissible head whose cost over weight is within the
      idle credit waits and no step leaves a slot, its finish tag never moves, and no rival, however
      long its backlog, is charged more than the distance from its own start to that tag. */
  lemma {:induction false} WaitIsBounded(cfg: Config, q: Queue, owner: Owner, ops: seq<Op>, a: TenantId, b: TenantId,
                                         share: real)
    requires Inv(q, owner) && EnabledRun(cfg, q, owner, ops) && a != b && share <= cfg.Credit()
    requires WaitRun(cfg, q, ops, a, share)
    ensures Bounded(cfg, q, Run(cfg, q, ops), SpentBy(cfg, q, ops, b), a, b, share)
  {
    if ops != [] {
      var front, op := ops[..|ops| - 1], ops[|ops| - 1];
      EnabledFront(cfg, q, owner, ops);
      WaitFront(cfg, q, ops, a, share);
      WaitIsBounded(cfg, q, owner, front, a, b, share);
      RunKeeps(cfg, q, owner, front);
      assert WaitsAt(cfg, q, ops, a, share, |front|);
      StepBounded(cfg, q, Run(cfg, q, front), owner, op, SpentBy(cfg, q, front, b), a, b, share);
    }
  }

  lemma WaitFront(cfg: Config, q: Queue, ops: seq<Op>, a: TenantId, share: real)
    requires WaitRun(cfg, q, ops, a, share) && ops != []
    ensures WaitRun(cfg, q, ops[..|ops| - 1], a, share)
  {
    var front := ops[..|ops| - 1];
    forall n ensures WaitsAt(cfg, q, front, a, share, n) {
      assert WaitsAt(cfg, q, ops, a, share, n);
      if 0 <= n < |front| { assert front[..n] == ops[..n]; }
    }
  }

  /** The bound, read off: total charge to a rival before the waiting head is served. */
  lemma RivalsSpendAtMost(cfg: Config, q: Queue, owner: Owner, ops: seq<Op>, a: TenantId, b: TenantId, share: real)
    requires Inv(q, owner) && EnabledRun(cfg, q, owner, ops) && a != b && share <= cfg.Credit()
    requires WaitRun(cfg, q, ops, a, share)
    ensures SpentBy(cfg, q, ops, b) == 0.0 || SpentBy(cfg, q, ops, b) <= Start(cfg, q, a) + share - Start(cfg, q, b)
  {
    WaitIsBounded(cfg, q, owner, ops, a, b, share);
  }

  // ---- Heads dearer than the credit ----

  /** The rival is ahead of the waiting tenant by no more than the credit and one of its own steps. */
  ghost predicate Trails(cfg: Config, q: Queue, a: TenantId, b: TenantId, step: real) {
    Start(cfg, q, b) <= Start(cfg, q, a) + cfg.Credit() + step
  }

  /** A head dearer than the credit plus two of a rival's steps loses to that rival, and after losing
      is in the same position: so it loses for as long as the rival has work. */
  lemma DearHeadLosesAgain(cfg: Config, q: Queue, owner: Owner, now: Instant, a: TenantId, b: TenantId, share: real,
                           step: real, rival: real)
    requires Inv(q, owner) && a != b && HeadShare(cfg, q, now, a, share) && HeadShare(cfg, q, now, b, rival)
    requires rival <= step && share > cfg.Credit() + 2.0 * step && Trails(cfg, q, a, b, step)
    requires forall t :: Candidate(cfg, Seen(q), now, t) ==> t == a || t == b
    ensures Best(cfg, Seen(q), now).Some? && Best(cfg, Seen(q), now).value.tenant == b
    ensures Trails(cfg, GrantOnce(cfg, q, now), a, b, step)
  {
    SeenStart(cfg, q, a);
    SeenStart(cfg, q, b);
    BestIsLeast(cfg, Seen(q), now, b);
    var p := Best(cfg, Seen(q), now).value;
    PickedNoLater(cfg, q, owner, now, p, b, rival);
    GrantMovesStartIff(cfg, q, owner, now, p, a);
    PickClock(cfg, q, owner, now, p, b);
  }

  /** The flood at one step of a run: only `a`, with its dear head, and `b`, with a cheap one, compete. */
  ghost predicate FloodedAt(cfg: Config, q: Queue, ops: seq<Op>, a: TenantId, b: TenantId, share: real, step: real,
                            n: int) {
    0 <= n < |ops| ==>
      var r, op := Run(cfg, q, ops[..n]), ops[n];
      Calm(r, op) && (op.Grant? ==> Contest(cfg, r, op.now, a, b, share, step))
  }

  ghost predicate Contest(cfg: Config, q: Queue, now: Instant, a: TenantId, b: TenantId, share: real, step: real) {
    && HeadShare(cfg, q, now, a, share) && (exists rival :: rival <= step && HeadShare(cfg, q, now, b, rival))
    && forall t :: Candidate(cfg, Seen(q), now, t) ==> t == a || t == b
  }

  lemma FloodStep(cfg: Config, q: Queue, owner: Owner, op: Op, a: TenantId, b: TenantId, share: real, step: real)
    requires Inv(q, owner) && a != b && share > cfg.Credit() + 2.0 * step && Trails(cfg, q, a, b, step)
    requires Calm(q, op) && (op.Grant? ==> Contest(cfg, q, op.now, a, b, share, step))
    ensures Trails(cfg, Apply(cfg, q, op), a, b, step)
    ensures ChargedTo(cfg, q, op, a) == 0.0
  {
    if op.Grant? {
      ContestLost(cfg, q, owner, op.now, a, b, share, step);
    } else {
      NoGrantClock(cfg, q, op, a);
      NoGrantClock(cfg, q, op, b);
      TrailsStays(cfg, q, Apply(cfg, q, op), a, b, step);
    }
  }

  lemma TrailsStays(cfg: Config, q: Queue, r: Queue, a: TenantId, b: TenantId, step: real)
    requires Trails(cfg, q, a, b, step) && Start(cfg, r, a) == Start(cfg, q, a) && Start(cfg, r, b) == Start(cfg, q, b)
    ensures Trails(cfg, r, a, b, step)
  {
  }

  lemma ContestLost(cfg: Config, q: Queue, owner: Owner, now: Instant, a: TenantId, b: TenantId, share: real,
                    step: real)
    requires Inv(q, owner) && a != b && share > cfg.Credit() + 2.0 * step && Trails(cfg, q, a, b, step)
    requires Contest(cfg, q, now, a, b, share, step)
    ensures Best(cfg, Seen(q), now).Some? && Best(cfg, Seen(q), now).value.tenant == b
    ensures Trails(cfg, GrantOnce(cfg, q, now), a, b, step)
  {
    var rival :| rival <= step && HeadShare(cfg, q, now, b, rival);
    DearHeadLosesAgain(cfg, q, owner, now, a, b, share, step, rival);
  }

  /** The waiting bound needs its hypothesis: against a rival whose steps cost at most `step`, a head
      dearer than the credit plus two such steps is never granted, in a run of any length. */
  lemma {:induction false} DearHeadStarves(cfg: Config, q: Queue, owner: Owner, ops: seq<Op>, a: TenantId, b: TenantId,
                                           share: real, step: real)
    requires Inv(q, owner) && EnabledRun(cfg, q, owner, ops)
    requires a != b && share > cfg.Credit() + 2.0 * step && Trails(cfg, q, a, b, step)
    requires forall n :: FloodedAt(cfg, q, ops, a, b, share, step, n)
    ensures Trails(cfg, Run(cfg, q, ops), a, b, step)
    ensures SpentBy(cfg, q, ops, a) == 0.0
  {
    if ops != [] {
      var front := ops[..|ops| - 1];
      EnabledFront(cfg, q, owner, ops);
      forall n ensures FloodedAt(cfg, q, front, a, b, share, step, n) {
        assert FloodedAt(cfg, q, ops, a, b, share, step, n);
        if 0 <= n < |front| { assert front[..n] == ops[..n]; }
      }
      DearHeadStarves(cfg, q, owner, front, a, b, share, step);
      RunKeeps(cfg, q, owner, front);
      assert FloodedAt(cfg, q, ops, a, b, share, step, |front|);
      FloodStep(cfg, Run(cfg, q, front), owner, ops[|ops| - 1], a, b, share, step);
    }
  }

  /** Where the line is: with the waiting tenant held at the clamp and the rival's last step, worth
      `last`, just granted, the waiting head goes next exactly when it costs less than the credit plus
      that step plus the rival's next one (or as much, with the earlier name). */
  lemma ClampedHeadGoesNextIff(cfg: Config, q: Queue, owner: Owner, now: Instant, a: TenantId, b: TenantId, share: real,
                               rival: real, last: real)
    requires Inv(q, owner) && a != b && HeadShare(cfg, q, now, a, share) && HeadShare(cfg, q, now, b, rival)
    requires TenantOf(q, a).vftLast <= Floor(cfg, q) && last >= 0.0 && TenantOf(q, b).vftLast == q.virtualNow + last
    requires forall t :: Candidate(cfg, Seen(q), now, t) ==> t == a || t == b
    ensures Best(cfg, Seen(q), now).Some?
    ensures Best(cfg, Seen(q), now).value.tenant == a <==>
      share < cfg.Credit() + last + rival || (share == cfg.Credit() + last + rival && TextLess(a, b))
  {
    TextOrder();
    SeenStart(cfg, q, a);
    SeenStart(cfg, q, b);
    BestIsLeast(cfg, Seen(q), now, a);
    BestIsLeast(cfg, Seen(q), now, b);
  }
}
