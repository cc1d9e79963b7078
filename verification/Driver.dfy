/** The driver loop: sweep, advance, fold, then wait; beside everything else that moves a step. */
module Driver {
  import opened Wrappers
  import opened JobModel
  import Graph
  import Timeouts
  import Aggregate

  // ---- What happens to one step outside the driver's own pass ----

  datatype Outcome = OutPassed | OutFailed | OutErrored {
    function State(): StepState {
      match this case OutPassed => Passed case OutFailed => Failed case OutErrored => Errored
    }
  }

  datatype Rejection = UnknownStep | NotInFlight | NotLeaseHolder | LeaseExpired

  /** `settle_assignment`, the fleet having accepted: the step wall clock starts here. */
  function LeasedTo(s: Step, node: string, ttl: nat, now: Instant): Step {
    match s.Transition(Leased)
    case None => s
    case Some(t) =>
      t.(nodeId := Some(node), attempt := s.attempt + 1, startedAt := Some(now), leaseExpiresAt := Some(now + ttl))
  }

  /** `settle_assignment`, the fleet having rejected it outright. */
  function Refused(s: Step, now: Instant): Step {
    match s.Transition(Errored)
    case None => s
    case Some(t) => t.(errorReason := Some(Infra), finishedAt := Some(now))
  }

  /** `record_step_report`: only the lease holder is believed, and only while the step is in flight. */
  function Reported(s: Step, from: string, o: Outcome, now: Instant): Result<Step, Rejection> {
    if s.state != Leased && s.state != Running then Err(NotInFlight)
    else if s.nodeId != Some(from) then Err(NotLeaseHolder)
    else if s.leaseExpiresAt.Some? && now > s.leaseExpiresAt.value then Err(LeaseExpired)
    else
      match s.Transition(o.State())
      case None => Err(NotInFlight)
      case Some(t) =>
        Ok(t.(finishedAt := Some(now), errorReason := if o == OutErrored then Some(Infra) else s.errorReason))
  }

  /** `renew_lease`. */
  function Renewed(s: Step, from: string, ttl: nat, now: Instant): Step {
    if s.nodeId != Some(from) || (s.state != Leased && s.state != Running) then s
    else s.(leaseExpiresAt := Some(now + ttl), state := Running)
  }

  /** `cancel_steps`, for one id. */
  function Cancelled(s: Step): Step { match s.Transition(Skipped) case None => s case Some(t) => t }

  datatype Event =
    | Sweep(now: Instant)
    | Advance(now: Instant)
    | Lease(id: string, node: string, ttl: nat, now: Instant)
    | Refuse(id: string, now: Instant)
    | Report(id: string, node: string, outcome: Outcome, now: Instant)
    | Renew(id: string, node: string, ttl: nat, now: Instant)
    | Cancel(id: string)

  function Hit(s: Step, e: Event): Step {
    match e
    case Lease(_, node, ttl, now) => LeasedTo(s, node, ttl, now)
    case Refuse(_, now) => Refused(s, now)
    case Report(_, node, o, now) => (match Reported(s, node, o, now) case Err(_) => s case Ok(t) => t)
    case Renew(_, node, ttl, now) => Renewed(s, node, ttl, now)
    case Cancel(_) => Cancelled(s)
    case _ => s
  }

  function Next(t: Timeouts.Clocks, steps: seq<Step>, e: Event): seq<Step> {
    if e.Sweep? then Timeouts.SweptAll(steps, t, e.now)
    else if e.Advance? then Graph.AdvanceAll(steps, e.now)
    else
      match IndexOf(steps, e.id)
      case None => steps
      case Some(i) => steps[i := Hit(steps[i], e)]
  }

  /** How a plan's steps start: pending, or resolved from the memo. */
  ghost predicate Initial(steps: seq<Step>) {
    forall i | 0 <= i < |steps| ::
      steps[i].state in {Pending, Cached, Failed} &&
          steps[i] == NewStep(steps[i].id, steps[i].spec).(state := steps[i].state, finishedAt := steps[i].finishedAt)
  }

  ghost function RunEvents(t: Timeouts.Clocks, steps: seq<Step>, events: seq<Event>): seq<Step> {
    if events == [] then steps
    else Next(t, RunEvents(t, steps, events[..|events| - 1]), events[|events| - 1])
  }

  // ---- Every move goes forward ----

  function Rank(s: StepState): nat {
    match s case Pending => 4 case Ready => 3 case Leased => 2 case Running => 1 case _ => 0
  }

  function TotalRank(steps: seq<Step>): nat {
    if steps == [] then 0 else Rank(steps[0].state) + TotalRank(steps[1..])
  }

  ghost predicate Forward(a: Step, b: Step) {
    a.id == b.id && a.spec == b.spec && (b.state == a.state || Rank(b.state) < Rank(a.state))
  }

  ghost predicate AllForward(a: seq<Step>, b: seq<Step>) {
    |a| == |b| && forall i | 0 <= i < |a| :: Forward(a[i], b[i])
  }

  ghost predicate SameStates(a: seq<Step>, b: seq<Step>) {
    |a| == |b| && forall i | 0 <= i < |a| :: a[i].state == b[i].state
  }

  lemma {:induction false} ForwardLowersRank(a: seq<Step>, b: seq<Step>)
    requires AllForward(a, b)
    ensures TotalRank(b) <= TotalRank(a)
    ensures TotalRank(b) == TotalRank(a) <==> SameStates(a, b)
  {
    if a != [] {
      ForwardLowersRank(a[1..], b[1..]);
      assert forall i | 1 <= i < |a| :: a[i] == a[1..][i - 1] && b[i] == b[1..][i - 1];
      assert SameStates(a, b) <==> a[0].state == b[0].state && SameStates(a[1..], b[1..]);
    }
  }

  lemma AdvanceForward(steps: seq<Step>, now: Instant)
    ensures AllForward(steps, Graph.AdvanceAll(steps, now))
  {
    Graph.FixpointIsExact(steps, now);
    var m, r := Graph.Settle(steps, now), Graph.AdvanceAll(steps, now);
    forall i | 0 <= i < |steps| ensures Forward(steps[i], r[i]) {
      assert r[i] == m[i] || r[i] == Graph.Unstuck(m[i], now);
    }
  }

  /** Nothing the code does to a step ever raises its rank: no event takes a step backwards. */
  lemma NextForward(t: Timeouts.Clocks, steps: seq<Step>, e: Event)
    ensures AllForward(steps, Next(t, steps, e))
  {
    if e.Advance? {
      AdvanceForward(steps, e.now);
    } else if e.Sweep? {
      SweepForward(t, steps, e.now);
    } else {
      forall i | 0 <= i < |steps| ensures Forward(steps[i], Next(t, steps, e)[i]) { HitForward(steps[i], e); }
    }
  }

  lemma HitForward(s: Step, e: Event)
    ensures Forward(s, Hit(s, e))
  {
  }

  lemma SweepForward(t: Timeouts.Clocks, steps: seq<Step>, now: Instant)
    ensures AllForward(steps, Timeouts.SweptAll(steps, t, now))
  {
  }

  /** How many events of a run changed some step's state. */
  ghost function MovesIn(t: Timeouts.Clocks, steps: seq<Step>, events: seq<Event>): nat {
    if events == [] then 0
    else
      var front := events[..|events| - 1];
      MovesIn(t, steps, front) +
      if SameStates(RunEvents(t, steps, front), RunEvents(t, steps, events)) then 0 else 1
  }

  lemma {:induction false} RankBounded(steps: seq<Step>)
    ensures TotalRank(steps) <= 4 * |steps|
  {
    if steps != [] { RankBounded(steps[1..]); }
  }

  /** A job makes at most four step moves per step, whatever happens to it. */
  lemma {:induction false} FinitelyManyMoves(t: Timeouts.Clocks, steps: seq<Step>, events: seq<Event>)
    ensures MovesIn(t, steps, events) + TotalRank(RunEvents(t, steps, events)) <= TotalRank(steps)
    ensures MovesIn(t, steps, events) <= 4 * |steps|
  {
    RankBounded(steps);
    if events != [] {
      var front := events[..|events| - 1];
      FinitelyManyMoves(t, steps, front);
      var mid := RunEvents(t, steps, front);
      NextForward(t, mid, events[|events| - 1]);
      ForwardLowersRank(mid, RunEvents(t, steps, events));
    }
  }

  // ---- Progress ----

  /** Every step that could be waited on has its clock running. */
  ghost predicate Armed(steps: seq<Step>) {
    forall i | 0 <= i < |steps| :: ArmedStep(steps[i])
  }

  ghost predicate ArmedStep(s: Step) {
    && (s.state == Ready ==> s.readyAt.Some?)
    && (s.state == Leased || s.state == Running ==> s.startedAt.Some?)
  }

  lemma {:induction false} SettleArmed(steps: seq<Step>, now: Instant)
    requires Armed(steps)
    ensures Armed(Graph.Settle(steps, now))
    decreases Graph.PendingCount(steps)
  {
    var next := Graph.Pass(steps, now);
    Graph.PendingShrinks(steps, next);
    if next != steps {
      forall i | 0 <= i < |next| ensures ArmedStep(next[i]) {
        assert next[i] == Graph.Advanced(steps[i], steps, now);
      }
      SettleArmed(next, now);
    }
  }

  lemma NextArmed(t: Timeouts.Clocks, steps: seq<Step>, e: Event)
    requires Armed(steps)
    ensures Armed(Next(t, steps, e))
  {
    var r := Next(t, steps, e);
    if e.Advance? {
      SettleArmed(steps, e.now);
      var m := Graph.Settle(steps, e.now);
      forall i | 0 <= i < |r| ensures ArmedStep(r[i]) {
        assert ArmedStep(m[i]) && (r[i] == m[i] || r[i] == Graph.Unstuck(m[i], e.now));
      }
    } else if e.Sweep? {
      forall i | 0 <= i < |r| ensures ArmedStep(r[i]) { assert r[i] == Timeouts.Swept(steps[i], t, e.now); }
    } else {
      forall i | 0 <= i < |r| ensures ArmedStep(r[i]) { assert ArmedStep(steps[i]); }
    }
  }

  lemma {:induction false} ReachableIsArmed(t: Timeouts.Clocks, steps: seq<Step>, events: seq<Event>)
    requires Initial(steps)
    ensures Armed(RunEvents(t, steps, events))
  {
    if events != [] {
      ReachableIsArmed(t, steps, events[..|events| - 1]);
      NextArmed(t, RunEvents(t, steps, events[..|events| - 1]), events[|events| - 1]);
    }
  }

  /** What the steps are once a pass has swept and advanced them. */
  function Refreshed(t: Timeouts.Clocks, steps: seq<Step>, now: Instant): seq<Step> {
    Graph.AdvanceAll(Timeouts.SweptAll(steps, t, now), now)
  }

  lemma RefreshedIsArmed(t: Timeouts.Clocks, steps: seq<Step>, now: Instant)
    requires Armed(steps)
    ensures Armed(Refreshed(t, steps, now)) && AllForward(steps, Refreshed(t, steps, now))
  {
    var swept := Next(t, steps, Sweep(now));
    NextArmed(t, steps, Sweep(now));
    NextArmed(t, swept, Advance(now));
    NextForward(t, steps, Sweep(now));
    NextForward(t, swept, Advance(now));
    var r := Refreshed(t, steps, now);
    forall i | 0 <= i < |steps| ensures Forward(steps[i], r[i]) {
      assert Forward(steps[i], swept[i]) && Forward(swept[i], r[i]);
    }
  }

  lemma LiveStepHasADeadline(s: Step, t: Timeouts.Clocks)
    requires ArmedStep(s) && s.state.Live()
    ensures Timeouts.Deadline(s, t).Some?
  {
    match s.state
    case Ready =>
    case Leased =>
    case Running =>
  }

  lemma LiveHasADeadline(t: Timeouts.Clocks, r: seq<Step>)
    requires Armed(r) && !Aggregate.AllTerminal(r)
    requires (exists i | 0 <= i < |r| :: r[i].state == Pending) ==> Graph.AnyLive(r)
    ensures Graph.AnyLive(r) && Timeouts.NextDeadline(r, t).Some?
  {
    var k :| 0 <= k < |r| && !r[k].state.Terminal();
    assert r[k].state == Pending || r[k].state.Live();
    var i :| 0 <= i < |r| && r[i].state.Live();
    assert ArmedStep(r[i]);
    LiveStepHasADeadline(r[i], t);
  }

  lemma UndecidedIsUnfinished(r: seq<Step>)
    requires Aggregate.FoldSteps(r).Undecided?
    ensures !Aggregate.AllTerminal(r)
  {
  }

  /** An undecided job always has work live and a deadline to wake for. */
  lemma UndecidedHasADeadline(t: Timeouts.Clocks, steps: seq<Step>, now: Instant)
    requires Armed(steps) && Aggregate.FoldSteps(Refreshed(t, steps, now)).Undecided?
    ensures Graph.AnyLive(Refreshed(t, steps, now))
    ensures Timeouts.NextDeadline(Refreshed(t, steps, now), t).Some?
  {
    RefreshedIsArmed(t, steps, now);
    Graph.PendingOnlyWhileLive(Timeouts.SweptAll(steps, t, now), now);
    UndecidedIsUnfinished(Refreshed(t, steps, now));
    LiveHasADeadline(t, Refreshed(t, steps, now));
  }

  datatype Decision = Decided(status: Aggregate.Status, cancel: seq<string>) | JobTimeout | Wait(until: Instant)

  /** One turn of the driver loop: the steps it leaves, and what it does next. */
  function Turn(t: Timeouts.Clocks, steps: seq<Step>, jobDeadline: Instant, now: Instant): (seq<Step>, Decision) {
    var r := Refreshed(t, steps, now);
    if now >= jobDeadline then (r, JobTimeout)
    else
      match Aggregate.FoldSteps(r)
      case Decided(v, c) => (r, Decided(v, c))
      case Undecided =>
        match Timeouts.NextDeadline(r, t)
        case None => (r, Wait(jobDeadline))
        case Some(d) => (r, Wait(if d < jobDeadline then d else jobDeadline))
  }

  lemma DueLowersRank(t: Timeouts.Clocks, steps: seq<Step>, now: Instant)
    requires Timeouts.NextDeadline(steps, t).Some? && now >= Timeouts.NextDeadline(steps, t).value
    ensures TotalRank(Refreshed(t, steps, now)) < TotalRank(steps)
  {
    var swept := Timeouts.SweptAll(steps, t, now);
    NextForward(t, steps, Sweep(now));
    ForwardLowersRank(steps, swept);
    AdvanceForward(swept, now);
    ForwardLowersRank(swept, Refreshed(t, steps, now));
    DueStepMoves(t, steps, now);
  }

  lemma DueStepMoves(t: Timeouts.Clocks, steps: seq<Step>, now: Instant)
    requires Timeouts.NextDeadline(steps, t).Some? && now >= Timeouts.NextDeadline(steps, t).value
    ensures !SameStates(steps, Timeouts.SweptAll(steps, t, now))
  {
    var i :| 0 <= i < |steps| && Timeouts.Deadline(steps[i], t).Some? &&
             Timeouts.Deadline(steps[i], t).value.0 == Timeouts.NextDeadline(steps, t).value;
    assert Timeouts.SweptAll(steps, t, now)[i].state == Errored;
  }

  /** A turn taken at or after the moment the previous one asked to be woken either settles the job or
      moves a step. */
  lemma WakingMakesProgress(t: Timeouts.Clocks, steps: seq<Step>, jobDeadline: Instant, now: Instant)
    requires Armed(steps) && Timeouts.NextDeadline(steps, t).Some?
    requires now >= jobDeadline || now >= Timeouts.NextDeadline(steps, t).value
    ensures var (r, d) := Turn(t, steps, jobDeadline, now);
      Armed(r) && (d.Wait? ==> TotalRank(r) < TotalRank(steps) && Timeouts.NextDeadline(r, t).Some?)
  {
    RefreshedIsArmed(t, steps, now);
    if now < jobDeadline {
      DueLowersRank(t, steps, now);
      if Aggregate.FoldSteps(Refreshed(t, steps, now)).Undecided? { UndecidedHasADeadline(t, steps, now); }
    }
  }

  // ---- Termination, whatever happens between turns ----

  lemma HitKeepsClock(t: Timeouts.Clocks, s: Step, e: Event)
    requires Hit(s, e).state == s.state
    ensures Timeouts.Deadline(Hit(s, e), t) == Timeouts.Deadline(s, t)
  {
  }

  lemma SettleKeepsClock(steps: seq<Step>, now: Instant)
    requires SameStates(steps, Graph.AdvanceAll(steps, now))
    ensures Graph.AdvanceAll(steps, now) == steps
  {
    Graph.FixpointIsExact(steps, now);
    var m, r := Graph.Settle(steps, now), Graph.AdvanceAll(steps, now);
    forall i | 0 <= i < |steps| ensures r[i] == steps[i] {
      assert r[i] == m[i] || r[i] == Graph.Unstuck(m[i], now);
      if steps[i].state == Pending { StillPending(steps, now, i); }
    }
  }

  /** A step still pending after advancing was never touched. */
  lemma StillPending(steps: seq<Step>, now: Instant, i: nat)
    requires i < |steps| && steps[i].state == Pending && Graph.AdvanceAll(steps, now)[i].state == Pending
    ensures Graph.AdvanceAll(steps, now)[i] == steps[i]
  {
    var m := Graph.Settle(steps, now);
    Graph.FixpointIsExact(steps, now);
    assert m[i].state == Pending;
    PendingUntouched(steps, now, i);
  }

  lemma {:induction false} PendingUntouched(steps: seq<Step>, now: Instant, i: nat)
    requires i < |steps| && Graph.Settle(steps, now)[i].state == Pending
    ensures Graph.Settle(steps, now)[i] == steps[i]
    decreases Graph.PendingCount(steps)
  {
    var next := Graph.Pass(steps, now);
    Graph.PendingShrinks(steps, next);
    if next != steps {
      PendingUntouched(next, now, i);
      assert next[i] == Graph.Advanced(steps[i], steps, now);
    }
  }

  /** An event that moves no step moves no deadline. */
  lemma NextKeepsClocks(t: Timeouts.Clocks, steps: seq<Step>, e: Event, i: nat)
    requires i < |steps| && SameStates(steps, Next(t, steps, e))
    ensures Timeouts.Deadline(Next(t, steps, e)[i], t) == Timeouts.Deadline(steps[i], t)
  {
    if e.Advance? {
      SettleKeepsClock(steps, e.now);
    } else if e.Sweep? {
      assert Next(t, steps, e)[i] == Timeouts.Swept(steps[i], t, e.now);
    } else if IndexOf(steps, e.id) == Some(i) {
      HitKeepsClock(t, steps[i], e);
    }
  }

  lemma {:induction false} EventsForward(t: Timeouts.Clocks, steps: seq<Step>, events: seq<Event>)
    requires Armed(steps)
    ensures AllForward(steps, RunEvents(t, steps, events)) && Armed(RunEvents(t, steps, events))
  {
    if events != [] {
      var mid := RunEvents(t, steps, events[..|events| - 1]);
      EventsForward(t, steps, events[..|events| - 1]);
      NextForward(t, mid, events[|events| - 1]);
      NextArmed(t, mid, events[|events| - 1]);
      ForwardComposes(steps, mid, RunEvents(t, steps, events));
    }
  }

  lemma ForwardComposes(a: seq<Step>, b: seq<Step>, c: seq<Step>)
    requires AllForward(a, b) && AllForward(b, c)
    ensures AllForward(a, c) && (SameStates(a, c) ==> SameStates(a, b) && SameStates(b, c))
  {
    forall i | 0 <= i < |a| ensures Forward(a[i], c[i]) && (c[i].state == a[i].state ==> b[i].state == a[i].state) {
      assert Forward(a[i], b[i]) && Forward(b[i], c[i]);
    }
  }

  lemma {:induction false} EventsKeepClocks(t: Timeouts.Clocks, steps: seq<Step>, events: seq<Event>, i: nat)
    requires Armed(steps) && i < |steps| && SameStates(steps, RunEvents(t, steps, events))
    ensures Timeouts.Deadline(RunEvents(t, steps, events)[i], t) == Timeouts.Deadline(steps[i], t)
  {
    if events != [] {
      var mid := RunEvents(t, steps, events[..|events| - 1]);
      EventsForward(t, steps, events[..|events| - 1]);
      NextForward(t, mid, events[|events| - 1]);
      ForwardComposes(steps, mid, RunEvents(t, steps, events));
      EventsKeepClocks(t, steps, events[..|events| - 1], i);
      NextKeepsClocks(t, mid, events[|events| - 1], i);
    }
  }

  lemma {:induction false} SameClocksSameDeadline(t: Timeouts.Clocks, a: seq<Step>, b: seq<Step>)
    requires |a| == |b| && forall i | 0 <= i < |a| :: Timeouts.Deadline(a[i], t) == Timeouts.Deadline(b[i], t)
    ensures Timeouts.NextDeadline(a, t) == Timeouts.NextDeadline(b, t)
  {
    if a != [] { SameClocksSameDeadline(t, a[1..], b[1..]); }
  }

  lemma QuietKeepsDeadline(t: Timeouts.Clocks, steps: seq<Step>, events: seq<Event>)
    requires Armed(steps) && SameStates(steps, RunEvents(t, steps, events))
    ensures Timeouts.NextDeadline(RunEvents(t, steps, events), t) == Timeouts.NextDeadline(steps, t)
  {
    var r := RunEvents(t, steps, events);
    forall i | 0 <= i < |steps| ensures Timeouts.Deadline(r[i], t) == Timeouts.Deadline(steps[i], t) {
      EventsKeepClocks(t, steps, events, i);
    }
    SameClocksSameDeadline(t, r, steps);
  }

  lemma RefreshLowers(t: Timeouts.Clocks, steps: seq<Step>, now: Instant)
    requires Armed(steps)
    ensures Armed(Refreshed(t, steps, now)) && TotalRank(Refreshed(t, steps, now)) <= TotalRank(steps)
  {
    RefreshedIsArmed(t, steps, now);
    ForwardLowersRank(steps, Refreshed(t, steps, now));
  }

  /** A turn that waits asks to be woken at the job's deadline or at the soonest of its steps'. */
  lemma WaitMeans(t: Timeouts.Clocks, steps: seq<Step>, jobDeadline: Instant, now: Instant)
    requires Armed(steps) && Turn(t, steps, jobDeadline, now).1.Wait?
    ensures var (r, d) := Turn(t, steps, jobDeadline, now);
      && r == Refreshed(t, steps, now) && now < jobDeadline && Timeouts.NextDeadline(r, t).Some?
      && (d.until == jobDeadline || d.until == Timeouts.NextDeadline(r, t).value)
  {
    UndecidedHasADeadline(t, steps, now);
  }

  /** One turn: the steps it finds and the moment it is taken. */
  datatype Wake = Wake(steps: seq<Step>, now: Instant)

  /** The turn at `a` decides to wait, and is woken as `b`: any events in between, at any time, as long as
      they moved a step or the moment it asked for has come. */
  ghost predicate Woken(t: Timeouts.Clocks, jobDeadline: Instant, a: Wake, events: seq<Event>, b: Wake) {
    var (r, d) := Turn(t, a.steps, jobDeadline, a.now);
    d.Wait? && b.steps == RunEvents(t, r, events) && (!SameStates(r, b.steps) || b.now >= d.until)
  }

  lemma EventsLower(t: Timeouts.Clocks, r: seq<Step>, events: seq<Event>)
    requires Armed(r)
    ensures var b := RunEvents(t, r, events);
      Armed(b) && TotalRank(b) <= TotalRank(r) && (TotalRank(b) == TotalRank(r) <==> SameStates(r, b))
  {
    EventsForward(t, r, events);
    ForwardLowersRank(r, RunEvents(t, r, events));
  }

  /** The turn decides to wait; what it leaves to be done. */
  predicate Waits(t: Timeouts.Clocks, jobDeadline: Instant, w: Wake) { Turn(t, w.steps, jobDeadline, w.now).1.Wait? }

  function RankLeft(t: Timeouts.Clocks, w: Wake): nat { TotalRank(Refreshed(t, w.steps, w.now)) }

  /** Between one waiting turn and the next a step has moved for good. */
  lemma WokenMoves(t: Timeouts.Clocks, jobDeadline: Instant, a: Wake, events: seq<Event>, b: Wake)
    requires Armed(a.steps) && Woken(t, jobDeadline, a, events, b) && Waits(t, jobDeadline, b)
    ensures Armed(b.steps) && RankLeft(t, b) < RankLeft(t, a)
  {
    WaitMeans(t, a.steps, jobDeadline, a.now);
    RefreshLowers(t, a.steps, a.now);
    var r := Refreshed(t, a.steps, a.now);
    EventsLower(t, r, events);
    WaitMeans(t, b.steps, jobDeadline, b.now);
    if SameStates(r, b.steps) {
      QuietKeepsDeadline(t, r, events);
      DueLowersRank(t, b.steps, b.now);
    } else {
      RefreshLowers(t, b.steps, b.now);
    }
  }

  ghost predicate WokenAt(t: Timeouts.Clocks, jobDeadline: Instant, wakes: seq<Wake>, events: seq<seq<Event>>, k: int) {
    0 <= k < |wakes| - 1 && k < |events| ==> Woken(t, jobDeadline, wakes[k], events[k], wakes[k + 1])
  }

  /** The loop ends: however reports, leases, renewals and cancellations interleave with its turns, it never
      waits more often than four times per step, and once more. */
  lemma FinitelyManyWaits(t: Timeouts.Clocks, jobDeadline: Instant, wakes: seq<Wake>, events: seq<seq<Event>>)
    requires wakes != [] && |events| == |wakes| - 1 && Armed(wakes[0].steps) && forall k ::
      WokenAt(t, jobDeadline, wakes, events, k)
    requires Waits(t, jobDeadline, wakes[|wakes| - 1])
    ensures |wakes| <= 4 * |wakes[0].steps| + 1
  {
    WaitsSpendRank(t, jobDeadline, wakes, events);
    RefreshLowers(t, wakes[0].steps, wakes[0].now);
    RankBounded(wakes[0].steps);
  }

  lemma {:induction false} WaitsSpendRank(t: Timeouts.Clocks, jobDeadline: Instant, wakes: seq<Wake>,
                                          events: seq<seq<Event>>)
    requires wakes != [] && |events| == |wakes| - 1 && Armed(wakes[0].steps) && forall k ::
      WokenAt(t, jobDeadline, wakes, events, k)
    requires Waits(t, jobDeadline, wakes[|wakes| - 1])
    ensures Armed(wakes[|wakes| - 1].steps) && |wakes| - 1 + RankLeft(t, wakes[|wakes| - 1]) <= RankLeft(t, wakes[0])
  {
    if |wakes| > 1 {
      var n := |wakes| - 1;
      var front, noise := wakes[..n], events[..n - 1];
      FrontWoken(t, jobDeadline, wakes, events, front, noise);
      assert WokenAt(t, jobDeadline, wakes, events, n - 1);
      WokenWaited(t, jobDeadline, wakes[n - 1], events[n - 1], wakes[n]);
      WaitsSpendRank(t, jobDeadline, front, noise);
      WokenMoves(t, jobDeadline, wakes[n - 1], events[n - 1], wakes[n]);
    }
  }

  lemma WokenWaited(t: Timeouts.Clocks, jobDeadline: Instant, a: Wake, events: seq<Event>, b: Wake)
    requires Woken(t, jobDeadline, a, events, b)
    ensures Waits(t, jobDeadline, a)
  {
  }

  lemma FrontWoken(t: Timeouts.Clocks, jobDeadline: Instant, wakes: seq<Wake>, events: seq<seq<Event>>,
                   front: seq<Wake>, noise: seq<seq<Event>>)
    requires |wakes| > 1 && |events| == |wakes| - 1 && front == wakes[..|wakes| - 1] && noise == events[..|events| - 1]
    requires forall k :: WokenAt(t, jobDeadline, wakes, events, k)
    ensures forall k :: WokenAt(t, jobDeadline, front, noise, k)
  {
    forall k ensures WokenAt(t, jobDeadline, front, noise, k) { assert WokenAt(t, jobDeadline, wakes, events, k); }
  }

  // ---- Cancelling ----

  /** What may happen to the steps while the driver is cancelling them: anything that never revives a
      finished step. Every run of events qualifies. */
  ghost predicate Evolved(a: seq<Step>, b: seq<Step>) {
    |a| == |b| && forall i | 0 <= i < |a| :: a[i].id == b[i].id && (a[i].state.Terminal() ==> b[i].state.Terminal())
  }

  lemma EventsEvolve(t: Timeouts.Clocks, steps: seq<Step>, e: Event)
    ensures Evolved(steps, Next(t, steps, e))
  {
    NextForward(t, steps, e);
    forall i | 0 <= i < |steps| && steps[i].state.Terminal() ensures Next(t, steps, e)[i].state.Terminal() {
      assert Forward(steps[i], Next(t, steps, e)[i]);
    }
  }

  /** The steps after cancelling `ids` in order, `mids[k]` being what the `k`th cancel found. */
  ghost predicate CancelRun(t: Timeouts.Clocks, before: seq<Step>, ids: seq<string>, mids: seq<seq<Step>>,
                            after: seq<Step>)
    decreases |ids|
  {
    if ids == [] then mids == [] && Evolved(before, after)
    else
      && mids != [] && Evolved(before, mids[0])
      && CancelRun(t, Next(t, mids[0], Cancel(ids[0])), ids[1..], mids[1..], after)
  }

  lemma CancelHits(t: Timeouts.Clocks, found: seq<Step>, id: string)
    requires DistinctIds(found)
    ensures var next := Next(t, found, Cancel(id));
      && |next| == |found|
      && forall i | 0 <= i < |next| ::
         next[i].id == found[i].id && (found[i].state.Terminal() || next[i].id == id ==> next[i].state.Terminal())
  {
    EventsEvolve(t, found, Cancel(id));
  }

  lemma {:induction false} CancelFinishes(t: Timeouts.Clocks, before: seq<Step>, ids: seq<string>, mids: seq<seq<Step>>,
                                          after: seq<Step>)
    requires CancelRun(t, before, ids, mids, after) && DistinctIds(before)
    requires forall i | 0 <= i < |before| :: before[i].state.Terminal() || before[i].id in ids
    ensures |after| == |before| && Aggregate.AllTerminal(after)
    decreases |ids|
  {
    if ids != [] {
      var found, next := mids[0], Next(t, mids[0], Cancel(ids[0]));
      assert DistinctIds(found) by {
        forall i, j | 0 <= i < j < |found| ensures found[i].id != found[j].id { assert before[i].id != before[j].id; }
      }
      CancelHits(t, found, ids[0]);
      forall i | 0 <= i < |next| ensures next[i].state.Terminal() || next[i].id in ids[1..] {
        assert before[i].state.Terminal() || before[i].id in ids;
      }
      assert DistinctIds(next);
      CancelFinishes(t, next, ids[1..], mids[1..], after);
    }
  }

  /** Once a red fold's cancel list has been applied, with reports, leases and sweeps racing it, every
      step is terminal and every later report is rejected. */
  lemma AfterCancelNothingCounts(t: Timeouts.Clocks, steps: seq<Step>, mids: seq<seq<Step>>, after: seq<Step>)
    requires DistinctIds(steps) && Aggregate.FoldSteps(steps).Decided?
    requires CancelRun(t, steps, Aggregate.FoldSteps(steps).cancel, mids, after)
    ensures Aggregate.AllTerminal(after)
    ensures forall i, node, o, now | 0 <= i < |after| :: Reported(after[i], node, o, now) == Err(NotInFlight)
  {
    CancelFinishes(t, steps, Aggregate.FoldSteps(steps).cancel, mids, after);
  }
}
