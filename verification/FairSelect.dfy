/** What one selection pass guarantees: the smallest admissible tag first, in order, within every cap,
    stopping only when nothing more may go. */
module FairSelect {
  import opened Wrappers
  import opened Orders
  import opened JobModel
  import opened FairShare
  import opened FairRuns

  // ---- The pick ----

  /** `p` beats candidate `t`: a smaller tag, or the same tag and an earlier name. */
  ghost predicate Beats(cfg: Config, q: Queue, p: Pick, t: TenantId)
    requires Head(TenantOf(q, t)).Some?
  {
    p.vft < Tag(cfg, q, t) || (p.vft == Tag(cfg, q, t) && (p.tenant == t || TextLess(p.tenant, t)))
  }

  lemma {:induction false} BestOfIsLeast(cfg: Config, q: Queue, now: Instant, names: seq<TenantId>)
    requires Ascending(Same, TextLess, names)
    ensures BestOf(cfg, q, now, names).None? ==> forall i | 0 <= i < |names| :: !Candidate(cfg, q, now, names[i])
    ensures BestOf(cfg, q, now, names).Some? ==>
      forall i | 0 <= i < |names| && Candidate(cfg, q, now, names[i]) ::
          Beats(cfg, q, BestOf(cfg, q, now, names).value, names[i])
  {
    if names != [] {
      var front := names[..|names| - 1];
      BestOfIsLeast(cfg, q, now, front);
      BestOfIsCandidate(cfg, q, now, front);
      var b := BestOf(cfg, q, now, front);
      if b.Some? {
        var i :| 0 <= i < |front| && front[i] == b.value.tenant;
        assert TextLess(Same(names[i]), Same(names[|names| - 1]));
      }
      forall i | 0 <= i < |names| && Candidate(cfg, q, now, names[i])
        ensures BestOf(cfg, q, now, names).Some? && Beats(cfg, q, BestOf(cfg, q, now, names).value, names[i])
      {
        if i < |front| { assert front[i] == names[i]; }
      }
    }
  }

  /** `best` finds the admissible head with the smallest finish tag, ties going to the first name, and
      finds none only when there is none. */
  lemma BestIsLeast(cfg: Config, q: Queue, now: Instant, t: TenantId)
    requires Candidate(cfg, q, now, t)
    ensures Best(cfg, q, now).Some?
    ensures var p := Best(cfg, q, now).value;
      Candidate(cfg, q, now, p.tenant) && p == Pick(p.tenant, Start(cfg, q, p.tenant), Tag(cfg, q, p.tenant)) &&
          Beats(cfg, q, p, t)
  {
    var names := InOrder(q.tenants.Keys);
    BestOfIsLeast(cfg, q, now, names);
    BestOfIsCandidate(cfg, q, now, names);
    var i :| 0 <= i < |names| && names[i] == t;
  }

  lemma NoPickNoCandidate(cfg: Config, q: Queue, now: Instant, t: TenantId)
    requires Best(cfg, q, now).None?
    ensures !Candidate(cfg, q, now, t)
  {
    if Candidate(cfg, q, now, t) { BestIsLeast(cfg, q, now, t); }
  }

  // ---- One grant ----

  /** What a selection pass sees: the queues after stale heads are dropped. */
  ghost function Seen(q: Queue): Queue { DropStaleHeads(q) }

  lemma PickFacts(cfg: Config, q: Queue, owner: Owner, now: Instant)
    requires Inv(q, owner) && Best(cfg, Seen(q), now).Some?
    ensures var p := Best(cfg, Seen(q), now).value;
      && p.tenant in q.tenants && Candidate(cfg, Seen(q), now, p.tenant)
      && p.start == Start(cfg, Seen(q), p.tenant) && p.vft == Tag(cfg, Seen(q), p.tenant)
      && var w := Head(Seen(q).tenants[p.tenant]).value;
         IsWaiting(q, w.Ref()) && IsWaiting(Seen(q), w.Ref()) && owner(w.job) == p.tenant && w.cost >= MIN_COST
    ensures Inv(Seen(q), owner)
  {
    CleanKeeps(q, owner);
    BestOfIsCandidate(cfg, Seen(q), now, InOrder(Seen(q).tenants.Keys));
    HeadIsWaiting(q, owner, Best(cfg, Seen(q), now).value.tenant);
  }

  lemma CostIsPositive(cfg: Config, t: TenantId, cost: real)
    requires cost >= MIN_COST
    ensures cost / cfg.Weight(t) > 0.0
  {
  }

  /** Heads that were already live and belong to someone else stay where they were. */
  lemma {:induction false} LiveHeadStays(jobs: map<JobId, JobMeta>, ws: seq<Waiting>)
    requires ws == [] || LiveEntry(jobs, ws[0])
    ensures DropStale(jobs, ws) == ws
  {
  }

  lemma OthersStillFresh(cfg: Config, q: Queue, owner: Owner, now: Instant, t: TenantId)
    requires Inv(q, owner) && Best(cfg, Seen(q), now).Some? && t in q.tenants &&
             t != Best(cfg, Seen(q), now).value.tenant
    ensures Seen(GrantOnce(cfg, q, now)).tenants[t] == Seen(q).tenants[t]
  {
    var clean, p := Seen(q), Best(cfg, Seen(q), now).value;
    var r := GrantOnce(cfg, q, now);
    PickFacts(cfg, q, owner, now);
    GrantedFacts(cfg, clean, now, p);
    assert SoundAt(clean, owner, t);
    DropStaleKeeps(q.jobs, q.tenants[t].interactive);
    DropStaleKeeps(q.jobs, q.tenants[t].background);
    StaysLive(cfg, q, owner, now, clean.tenants[t].interactive, t);
    StaysLive(cfg, q, owner, now, clean.tenants[t].background, t);
  }

  lemma StaysLive(cfg: Config, q: Queue, owner: Owner, now: Instant, ws: seq<Waiting>, t: TenantId)
    requires Inv(q, owner) && Best(cfg, Seen(q), now).Some? && t != Best(cfg, Seen(q), now).value.tenant
    requires EntriesSound(ws, owner, t) && (ws == [] || LiveEntry(q.jobs, ws[0]))
    ensures DropStale(GrantOnce(cfg, q, now).jobs, ws) == ws
  {
    if ws != [] {
      var clean, p := Seen(q), Best(cfg, Seen(q), now).value;
      PickFacts(cfg, q, owner, now);
      GrantedFacts(cfg, clean, now, p);
      var w := Head(clean.tenants[p.tenant]).value;
      assert ws[0] in ws && ws[0].job != w.job;
      LiveHeadStays(GrantOnce(cfg, q, now).jobs, ws);
    }
  }

  lemma OwnNextTag(cfg: Config, q: Queue, owner: Owner, now: Instant, p: Pick)
    requires Inv(q, owner) && Best(cfg, Seen(q), now) == Some(p)
    requires Candidate(cfg, Seen(GrantOnce(cfg, q, now)), now, p.tenant)
    ensures Tag(cfg, Seen(GrantOnce(cfg, q, now)), p.tenant) >= p.vft
  {
    PickFacts(cfg, q, owner, now);
    GrantedFacts(cfg, Seen(q), now, p);
    var r := GrantOnce(cfg, q, now);
    GrantOnceKeeps(cfg, q, owner, now);
    HeadIsWaiting(r, owner, p.tenant);
    CostIsPositive(cfg, p.tenant, Head(Seen(r).tenants[p.tenant]).value.cost);
  }

  lemma OtherNextTag(cfg: Config, q: Queue, owner: Owner, now: Instant, p: Pick, t: TenantId)
    requires Inv(q, owner) && Best(cfg, Seen(q), now) == Some(p) && t != p.tenant
    requires Candidate(cfg, Seen(GrantOnce(cfg, q, now)), now, t)
    ensures Tag(cfg, Seen(GrantOnce(cfg, q, now)), t) >= p.vft
  {
    PickFacts(cfg, q, owner, now);
    GrantedFacts(cfg, Seen(q), now, p);
    OthersStillFresh(cfg, q, owner, now, t);
    BestIsLeast(cfg, Seen(q), now, t);
  }

  /** After a grant, no admissible head tags below it: so tags are granted in nondecreasing order. */
  lemma NextTagsAreLater(cfg: Config, q: Queue, owner: Owner, now: Instant, t: TenantId)
    requires Inv(q, owner) && Best(cfg, Seen(q), now).Some?
    requires Candidate(cfg, Seen(GrantOnce(cfg, q, now)), now, t)
    ensures Tag(cfg, Seen(GrantOnce(cfg, q, now)), t) >= Best(cfg, Seen(q), now).value.vft
  {
    var p := Best(cfg, Seen(q), now).value;
    if t == p.tenant { OwnNextTag(cfg, q, owner, now, p); } else { OtherNextTag(cfg, q, owner, now, p, t); }
  }

  // ---- The whole pass, as a trace of turns ----

  /** One turn of the loop: `o` was granted, taking the queue from `a` to `b`. */
  ghost predicate Turned(cfg: Config, now: Instant, a: Queue, o: Offer, b: Queue) {
    && Best(cfg, Seen(a), now) == Some(o.pick) && b == GrantOnce(cfg, a, now)
    && o.pick.tenant in Seen(a).tenants && Head(Seen(a).tenants[o.pick.tenant]).Some?
    && var w := Head(Seen(a).tenants[o.pick.tenant]).value; o.job == w.job && o.step == w.step
  }

  ghost predicate Trace(cfg: Config, now: Instant, qs: seq<Queue>, offers: seq<Offer>) {
    |qs| == |offers| + 1 && forall i :: TurnAt(cfg, now, qs, offers, i)
  }

  ghost predicate TurnAt(cfg: Config, now: Instant, qs: seq<Queue>, offers: seq<Offer>, i: int)
    requires |qs| == |offers| + 1
  {
    0 <= i < |offers| ==> Turned(cfg, now, qs[i], offers[i], qs[i + 1])
  }

  /** A whole pass: from the pruned queue `qs[0]`, `offers` are granted in order; it stops when the
      budget is spent, or with stale heads dropped and no admissible head left. */
  ghost predicate Selects(cfg: Config, q: Queue, now: Instant, budget: nat, qs: seq<Queue>, end: Queue,
                          offers: seq<Offer>) {
    && Trace(cfg, now, qs, offers) && qs[0] == q && |offers| <= budget
    && if |offers| < budget then end == Seen(qs[|offers|]) && Best(cfg, end, now).None? else end == qs[|offers|]
  }

  lemma TraceStart(cfg: Config, now: Instant, q: Queue)
    ensures Trace(cfg, now, [q], [])
  {
    forall i ensures TurnAt(cfg, now, [q], [], i) {}
  }

  lemma TraceGrows(cfg: Config, now: Instant, qs: seq<Queue>, offers: seq<Offer>, o: Offer, next: Queue)
    requires Trace(cfg, now, qs, offers) && Turned(cfg, now, qs[|offers|], o, next)
    ensures Trace(cfg, now, qs + [next], offers + [o])
  {
    forall i ensures TurnAt(cfg, now, qs + [next], offers + [o], i) {
      assert TurnAt(cfg, now, qs, offers, i);
      TurnAtKept(cfg, now, qs, offers, o, next, i);
    }
  }

  lemma TurnAtKept(cfg: Config, now: Instant, qs: seq<Queue>, offers: seq<Offer>, o: Offer, next: Queue, i: int)
    requires |qs| == |offers| + 1 && TurnAt(cfg, now, qs, offers, i) && Turned(cfg, now, qs[|offers|], o, next)
    ensures TurnAt(cfg, now, qs + [next], offers + [o], i)
  {
    var qs', offers' := qs + [next], offers + [o];
    if 0 <= i < |offers| {
      assert qs'[i] == qs[i] && offers'[i] == offers[i] && qs'[i + 1] == qs[i + 1];
    } else if i == |offers| {
      assert qs'[i] == qs[i] && offers'[i] == o && qs'[i + 1] == next;
    }
  }

  // One turn at a time.

  lemma TurnKeeps(cfg: Config, owner: Owner, now: Instant, a: Queue, o: Offer, b: Queue)
    requires Inv(a, owner) && Turned(cfg, now, a, o, b)
    ensures Inv(b, owner)
  {
    GrantOnceKeeps(cfg, a, owner, now);
  }

  lemma {:induction false} TraceKeeps(cfg: Config, owner: Owner, now: Instant, qs: seq<Queue>, offers: seq<Offer>,
                                      i: nat)
    requires Trace(cfg, now, qs, offers) && Inv(qs[0], owner) && i < |qs|
    ensures Inv(qs[i], owner)
  {
    if i > 0 {
      TraceKeeps(cfg, owner, now, qs, offers, i - 1);
      assert TurnAt(cfg, now, qs, offers, i - 1);
      TurnKeeps(cfg, owner, now, qs[i - 1], offers[i - 1], qs[i]);
    }
  }

  lemma TurnsInOrder(cfg: Config, owner: Owner, now: Instant, a: Queue, o: Offer, b: Queue, o': Offer, c: Queue)
    requires Inv(a, owner) && Turned(cfg, now, a, o, b) && Turned(cfg, now, b, o', c)
    ensures o.pick.vft <= o'.pick.vft
  {
    TurnKeeps(cfg, owner, now, a, o, b);
    PickFacts(cfg, b, owner, now);
    NextTagsAreLater(cfg, a, owner, now, o'.pick.tenant);
  }

  lemma AdjacentTags(cfg: Config, owner: Owner, now: Instant, qs: seq<Queue>, offers: seq<Offer>, i: nat)
    requires Trace(cfg, now, qs, offers) && Inv(qs[0], owner) && i + 1 < |offers|
    ensures offers[i].pick.vft <= offers[i + 1].pick.vft
  {
    TraceKeeps(cfg, owner, now, qs, offers, i);
    assert TurnAt(cfg, now, qs, offers, i) && TurnAt(cfg, now, qs, offers, i + 1);
    TurnsInOrder(cfg, owner, now, qs[i], offers[i], qs[i + 1], offers[i + 1], qs[i + 2]);
  }

  lemma {:induction false} TagsInOrder(offers: seq<Offer>, i: nat, k: nat)
    requires i <= k < |offers| && forall m | 0 <= m < |offers| - 1 :: offers[m].pick.vft <= offers[m + 1].pick.vft
    ensures offers[i].pick.vft <= offers[k].pick.vft
  {
    if i < k {
      TagsInOrder(offers, i, k - 1);
      assert offers[k - 1].pick.vft <= offers[k - 1 + 1].pick.vft;
    }
  }

  /** Grants come out in nondecreasing finish-tag order. */
  lemma SelectIsOrdered(cfg: Config, q: Queue, owner: Owner, now: Instant, budget: nat, qs: seq<Queue>, end: Queue,
                        offers: seq<Offer>)
    requires Inv(q, owner) && Selects(cfg, q, now, budget, qs, end, offers)
    ensures forall i, k | 0 <= i < k < |offers| :: offers[i].pick.vft <= offers[k].pick.vft
  {
    forall m | 0 <= m < |offers| - 1 ensures offers[m].pick.vft <= offers[m + 1].pick.vft {
      AdjacentTags(cfg, owner, now, qs, offers, m);
    }
    forall i, k | 0 <= i < k < |offers| ensures offers[i].pick.vft <= offers[k].pick.vft { TagsInOrder(offers, i, k); }
  }

  /** One grant moves exactly one waiting step into a slot, within its tenant's cap. */
  lemma TurnMovesOne(cfg: Config, owner: Owner, now: Instant, a: Queue, o: Offer, b: Queue, t: TenantId, k: StepRef)
    requires Inv(a, owner) && Turned(cfg, now, a, o, b)
    ensures b.tenants.Keys == a.tenants.Keys && o.pick.tenant in a.tenants
    ensures IsWaiting(a, (o.job, o.step)) && (IsWaiting(b, k) <==> IsWaiting(a, k) && k != (o.job, o.step))
    ensures TenantOf(b, t).running == if t == o.pick.tenant then TenantOf(a, t).running[(o.job, o.step) := now]
      else TenantOf(a, t).running
    ensures (o.job, o.step) !in a.tenants[o.pick.tenant].running
    ensures |a.tenants[o.pick.tenant].running| < cfg.PlanOf(o.pick.tenant).maxRunning
  {
    PickFacts(cfg, a, owner, now);
    TurnMovesPlacement(cfg, now, a, o, b, k);
    TurnFillsSlot(cfg, now, a, o, b, t);
    assert RunsAt(a, owner, o.pick.tenant, (o.job, o.step));
  }

  lemma TurnFillsSlot(cfg: Config, now: Instant, a: Queue, o: Offer, b: Queue, t: TenantId)
    requires Turned(cfg, now, a, o, b) && PlacementOf(Seen(a), (o.job, o.step)).Some?
    ensures b.tenants.Keys == a.tenants.Keys
    ensures TenantOf(b, t).running == if t == o.pick.tenant then TenantOf(a, t).running[(o.job, o.step) := now]
      else TenantOf(a, t).running
  {
    GrantedFacts(cfg, Seen(a), now, o.pick);
    SeenKeepsRunning(a, t);
  }

  lemma TurnMovesPlacement(cfg: Config, now: Instant, a: Queue, o: Offer, b: Queue, k: StepRef)
    requires Turned(cfg, now, a, o, b) && PlacementOf(Seen(a), (o.job, o.step)).Some?
    ensures PlacementOf(b, k) == if k == (o.job, o.step)
      then Some(Placed(cfg, PlacementOf(a, k).value, o.pick, now)) else PlacementOf(a, k)
  {
    var clean := Seen(a);
    GrantedFacts(cfg, clean, now, o.pick);
    var was := clean.jobs[o.job].steps;
    PlacedAt(clean, b, o.job, o.step, was[o.step := Placed(cfg, was[o.step], o.pick, now)], k);
    assert PlacementOf(clean, k) == PlacementOf(a, k);
  }

  lemma TraceMovesOne(cfg: Config, owner: Owner, now: Instant, qs: seq<Queue>, offers: seq<Offer>, i: nat, t: TenantId,
                      k: StepRef)
    requires Trace(cfg, now, qs, offers) && Inv(qs[0], owner) && i < |offers|
    ensures var a, o, b := qs[i], offers[i], qs[i + 1];
      && o.pick.tenant in a.tenants && (o.job, o.step) !in a.tenants[o.pick.tenant].running
      && IsWaiting(a, (o.job, o.step)) && (IsWaiting(b, k) <==> IsWaiting(a, k) && k != (o.job, o.step))
      && TenantOf(b, t).running ==
         (if t == o.pick.tenant then TenantOf(a, t).running[(o.job, o.step) := now] else TenantOf(a, t).running)
      && |a.tenants[o.pick.tenant].running| < cfg.PlanOf(o.pick.tenant).maxRunning
  {
    TraceKeeps(cfg, owner, now, qs, offers, i);
    assert TurnAt(cfg, now, qs, offers, i);
    TurnMovesOne(cfg, owner, now, qs[i], offers[i], qs[i + 1], t, k);
  }

  lemma TraceMovesPlacement(cfg: Config, owner: Owner, now: Instant, qs: seq<Queue>, offers: seq<Offer>, i: nat,
                            k: StepRef)
    requires Trace(cfg, now, qs, offers) && Inv(qs[0], owner) && i < |offers|
    ensures var here := (offers[i].job, offers[i].step);
      IsWaiting(qs[i], here) && (IsWaiting(qs[i + 1], k) <==> IsWaiting(qs[i], k) && k != here)
  {
    TraceMovesOne(cfg, owner, now, qs, offers, i, offers[i].pick.tenant, k);
  }

  lemma RunningGrows(m: map<StepRef, Instant>, k: StepRef, now: Instant)
    requires k !in m
    ensures |m[k := now]| == |m| + 1
  {
    assert m[k := now].Keys == m.Keys + {k};
  }

  ghost predicate WithinCap(cfg: Config, q: Queue, end: Queue, t: TenantId) {
    TenantOf(end, t).running == TenantOf(q, t).running || |TenantOf(end, t).running| <= cfg.PlanOf(t).maxRunning
  }

  lemma {:induction false} TraceWithinCap(cfg: Config, owner: Owner, now: Instant, qs: seq<Queue>, offers: seq<Offer>,
                                          i: nat, t: TenantId)
    requires Trace(cfg, now, qs, offers) && Inv(qs[0], owner) && i < |qs|
    ensures WithinCap(cfg, qs[0], qs[i], t)
  {
    if i > 0 {
      TraceWithinCap(cfg, owner, now, qs, offers, i - 1, t);
      var o := offers[i - 1];
      TraceMovesOne(cfg, owner, now, qs, offers, i - 1, t, (o.job, o.step));
      if t == o.pick.tenant { RunningGrows(TenantOf(qs[i - 1], t).running, (o.job, o.step), now); }
    }
  }

  lemma SeenKeepsRunning(q: Queue, t: TenantId)
    ensures TenantOf(Seen(q), t).running == TenantOf(q, t).running
  {
  }

  /** A pass never takes a tenant past its concurrency cap. */
  lemma SelectRespectsCap(cfg: Config, q: Queue, owner: Owner, now: Instant, budget: nat, qs: seq<Queue>, end: Queue,
                          offers: seq<Offer>, t: TenantId)
    requires Inv(q, owner) && Selects(cfg, q, now, budget, qs, end, offers)
    ensures WithinCap(cfg, q, end, t)
  {
    TraceWithinCap(cfg, owner, now, qs, offers, |offers|, t);
    SeenKeepsRunning(qs[|offers|], t);
  }

  lemma SameFlights(q: Queue, r: Queue, name: TenantId, k: StepRef, now: Instant)
    requires r.tenants.Keys == q.tenants.Keys && name in q.tenants && k !in q.tenants[name].running
    requires forall t ::
      TenantOf(r, t).running == if t == name then TenantOf(q, t).running[k := now] else TenantOf(q, t).running
    ensures |InFlight(r)| == |InFlight(q)| + 1
  {
    forall x ensures x in InFlight(r) <==> x in InFlight(q) + {(name, k)} {
      assert x == (x.0, x.1);
      assert TenantOf(r, x.0).running == if x.0 == name then TenantOf(q, x.0).running[k := now]
        else TenantOf(q, x.0).running;
    }
    assert InFlight(r) == InFlight(q) + {(name, k)};
  }

  lemma TurnFillsOne(cfg: Config, owner: Owner, now: Instant, a: Queue, o: Offer, b: Queue)
    requires Inv(a, owner) && Turned(cfg, now, a, o, b)
    ensures |InFlight(b)| == |InFlight(a)| + 1
  {
    var k := (o.job, o.step);
    TurnMovesOne(cfg, owner, now, a, o, b, o.pick.tenant, k);
    forall t ensures TenantOf(b, t).running == if t == o.pick.tenant then TenantOf(a, t).running[k := now]
        else TenantOf(a, t).running {
      TurnMovesOne(cfg, owner, now, a, o, b, t, k);
    }
    SameFlights(a, b, o.pick.tenant, k, now);
  }

  lemma TraceFillsOne(cfg: Config, owner: Owner, now: Instant, qs: seq<Queue>, offers: seq<Offer>, i: nat)
    requires Trace(cfg, now, qs, offers) && Inv(qs[0], owner) && i < |offers|
    ensures |InFlight(qs[i + 1])| == |InFlight(qs[i])| + 1
  {
    TraceKeeps(cfg, owner, now, qs, offers, i);
    assert TurnAt(cfg, now, qs, offers, i);
    TurnFillsOne(cfg, owner, now, qs[i], offers[i], qs[i + 1]);
  }

  lemma {:induction false} TraceFills(cfg: Config, owner: Owner, now: Instant, qs: seq<Queue>, offers: seq<Offer>,
                                      i: nat)
    requires Trace(cfg, now, qs, offers) && Inv(qs[0], owner) && i < |qs|
    ensures |InFlight(qs[i])| == |InFlight(qs[0])| + i
  {
    if i > 0 {
      TraceFills(cfg, owner, now, qs, offers, i - 1);
      TraceFillsOne(cfg, owner, now, qs, offers, i - 1);
    }
  }

  lemma SeenKeepsFlights(q: Queue)
    ensures InFlight(Seen(q)) == InFlight(q)
  {
  }

  /** A pass puts exactly its grants into slots, so with a fleet size configured it never takes the
      fleet past it. */
  lemma SelectRespectsFleet(cfg: Config, q: Queue, owner: Owner, now: Instant, qs: seq<Queue>, end: Queue,
                            offers: seq<Offer>)
    requires Inv(q, owner) && Selects(cfg, q, now, Budget(cfg, q), qs, end, offers)
    ensures |InFlight(end)| == |InFlight(q)| + |offers|
    ensures cfg.fleetSlots.Some? && offers != [] ==> |InFlight(end)| <= cfg.fleetSlots.value
  {
    TraceFills(cfg, owner, now, qs, offers, |offers|);
    SeenKeepsFlights(qs[|offers|]);
  }

  ghost predicate OffersStep(offers: seq<Offer>, n: nat, k: StepRef)
    requires n <= |offers|
  {
    exists i :: 0 <= i < n && (offers[i].job, offers[i].step) == k
  }

  lemma {:induction false} TraceGrantsWaiting(cfg: Config, owner: Owner, now: Instant, qs: seq<Queue>,
                                              offers: seq<Offer>, n: nat, k: StepRef)
    requires Trace(cfg, now, qs, offers) && Inv(qs[0], owner) && n < |qs|
    ensures IsWaiting(qs[n], k) <==> IsWaiting(qs[0], k) && !OffersStep(offers, n, k)
    ensures OffersStep(offers, n, k) ==> IsWaiting(qs[0], k)
  {
    if n > 0 {
      TraceGrantsWaiting(cfg, owner, now, qs, offers, n - 1, k);
      var o := offers[n - 1];
      TraceMovesPlacement(cfg, owner, now, qs, offers, n - 1, k);
      assert OffersStep(offers, n, k) <==> OffersStep(offers, n - 1, k) || (o.job, o.step) == k;
    }
  }

  /** A pass grants only steps that were waiting, and what it granted no longer waits. */
  lemma SelectGrantsWaiting(cfg: Config, q: Queue, owner: Owner, now: Instant, budget: nat, qs: seq<Queue>, end: Queue,
                            offers: seq<Offer>, k: StepRef)
    requires Inv(q, owner) && Selects(cfg, q, now, budget, qs, end, offers)
    ensures OffersStep(offers, |offers|, k) ==> IsWaiting(q, k)
    ensures IsWaiting(end, k) <==> IsWaiting(q, k) && !OffersStep(offers, |offers|, k)
  {
    TraceGrantsWaiting(cfg, owner, now, qs, offers, |offers|, k);
    assert PlacementOf(Seen(qs[|offers|]), k) == PlacementOf(qs[|offers|], k);
  }

  lemma WaitingHasHead(q: Queue, owner: Owner, k: StepRef)
    requires Inv(q, owner) && IsWaiting(q, k)
    ensures owner(k.0) in q.tenants && Head(Seen(q).tenants[owner(k.0)]).Some?
  {
    assert QueuedAt(q, owner, k);
    FreshKeepsEntries(q, q.tenants[owner(k.0)], k);
  }

  lemma BlockedWhenIdle(cfg: Config, q: Queue, owner: Owner, now: Instant, k: StepRef)
    requires Inv(q, owner) && Best(cfg, Seen(q), now).None? && IsWaiting(Seen(q), k)
    ensures owner(k.0) in q.tenants && !Admissible(cfg, owner(k.0), Seen(q).tenants[owner(k.0)], now)
  {
    assert PlacementOf(Seen(q), k) == PlacementOf(q, k);
    WaitingHasHead(q, owner, k);
    NoPickNoCandidate(cfg, Seen(q), now, owner(k.0));
  }

  /** A pass stops early only when every tenant with a step still waiting is over one of its caps. */
  lemma SelectStopsOnlyWhenBlocked(cfg: Config, q: Queue, owner: Owner, now: Instant, budget: nat, qs: seq<Queue>,
                                   end: Queue, offers: seq<Offer>, k: StepRef)
    requires Inv(q, owner) && Selects(cfg, q, now, budget, qs, end, offers)
    requires |offers| < budget && IsWaiting(end, k)
    ensures owner(k.0) in end.tenants && !Admissible(cfg, owner(k.0), end.tenants[owner(k.0)], now)
  {
    TraceKeeps(cfg, owner, now, qs, offers, |offers|);
    BlockedWhenIdle(cfg, qs[|offers|], owner, now, k);
  }

  /** A pass keeps the representation invariant. */
  lemma SelectKeeps(cfg: Config, q: Queue, owner: Owner, now: Instant, budget: nat, qs: seq<Queue>, end: Queue,
                    offers: seq<Offer>)
    requires Inv(q, owner) && Selects(cfg, q, now, budget, qs, end, offers)
    ensures Inv(end, owner)
  {
    TraceKeeps(cfg, owner, now, qs, offers, |offers|);
    CleanKeeps(qs[|offers|], owner);
  }

  // ---- A pass is a run ----

  /** `n` turns of the loop. */
  function Turns(now: Instant, n: nat): (ops: seq<Op>)
    ensures |ops| == n
  {
    if n == 0 then [] else Turns(now, n - 1) + [Grant(now)]
  }

  lemma {:induction false} TurnsAre(now: Instant, n: nat, i: nat)
    requires i < n
    ensures Turns(now, n)[i] == Grant(now)
  {
    if i < n - 1 { TurnsAre(now, n - 1, i); }
  }

  lemma TraceTurns(cfg: Config, now: Instant, qs: seq<Queue>, offers: seq<Offer>, i: nat)
    requires Trace(cfg, now, qs, offers) && i < |offers|
    ensures qs[i + 1] == Apply(cfg, qs[i], Grant(now))
  {
    assert TurnAt(cfg, now, qs, offers, i);
  }

  lemma {:induction false} TraceIsRun(cfg: Config, now: Instant, qs: seq<Queue>, offers: seq<Offer>, n: nat)
    requires Trace(cfg, now, qs, offers) && n < |qs|
    ensures Run(cfg, qs[0], Turns(now, n)) == qs[n]
  {
    if n > 0 {
      TraceIsRun(cfg, now, qs, offers, n - 1);
      TraceTurns(cfg, now, qs, offers, n - 1);
      RunLast(cfg, qs[0], Turns(now, n - 1), Grant(now));
    }
  }

  /** The operations of a pass. */
  function PassOps(now: Instant, n: nat, stopped: bool): seq<Op> {
    [Prune(now)] + Turns(now, n) + if stopped then [Clean] else []
  }

  lemma PassOpsAre(now: Instant, n: nat, stopped: bool, i: nat)
    requires i < |PassOps(now, n, stopped)|
    ensures PassOps(now, n, stopped)[i] in {Prune(now), Grant(now), Clean}
  {
    if 1 <= i <= n { TurnsAre(now, n, i - 1); }
  }

  lemma PassIsEnabled(cfg: Config, q: Queue, owner: Owner, now: Instant, n: nat, stopped: bool)
    ensures EnabledRun(cfg, q, owner, PassOps(now, n, stopped))
  {
    var ops := PassOps(now, n, stopped);
    forall i | 0 <= i < |ops| ensures Enabled(Run(cfg, q, ops[..i]), owner, ops[i]) { PassOpsAre(now, n, stopped, i); }
  }

  /** A whole selection pass, pruning included, is a run of the primitive operations, each enabled: so what
      holds over every run holds over every history of passes. */
  lemma SelectIsRun(cfg: Config, q: Queue, owner: Owner, now: Instant, budget: nat, qs: seq<Queue>, end: Queue,
                    offers: seq<Offer>)
    requires Selects(cfg, PruneLedgers(q, now), now, budget, qs, end, offers)
    ensures var ops := PassOps(now, |offers|, |offers| < budget);
      Run(cfg, q, ops) == end && EnabledRun(cfg, q, owner, ops)
  {
    PassIsEnabled(cfg, q, owner, now, |offers|, |offers| < budget);
    PassRun(cfg, q, now, |offers|, |offers| < budget);
    TraceIsRun(cfg, now, qs, offers, |offers|);
  }

  lemma PassRun(cfg: Config, q: Queue, now: Instant, n: nat, stopped: bool)
    ensures var mid := Run(cfg, PruneLedgers(q, now), Turns(now, n));
      Run(cfg, q, PassOps(now, n, stopped)) == if stopped then Seen(mid) else mid
  {
    PruneRun(cfg, q, now);
    RunConcat(cfg, q, [Prune(now)], Turns(now, n));
    var ops := [Prune(now)] + Turns(now, n);
    if stopped { RunLast(cfg, q, ops, Clean); } else { assert ops + [] == ops; }
  }

  lemma PruneRun(cfg: Config, q: Queue, now: Instant)
    ensures Run(cfg, q, [Prune(now)]) == PruneLedgers(q, now)
  {
    assert [Prune(now)][..0] == [];
  }

  // ---- Pruning ----

  /** Dropping expired ledger entries changes no tenant's usage, now or later. */
  lemma {:induction false} PruneIsInvisible(ledger: seq<(Instant, nat)>, now: Instant, later: Instant)
    requires now <= later
    ensures InWindow(PruneLedger(ledger, now), later) == InWindow(ledger, later)
  {
    if ledger != [] && Elapsed(now, ledger[0].0) >= ROLLING_WINDOW { PruneIsInvisible(ledger[1..], now, later); }
  }

  lemma PruneKeepsUsage(q: Queue, now: Instant, later: Instant, t: TenantId)
    requires now <= later && t in q.tenants
    ensures NodeSeconds(PruneLedgers(q, now).tenants[t], later) == NodeSeconds(q.tenants[t], later)
  {
    PruneIsInvisible(q.tenants[t].ledger, now, later);
  }
}
