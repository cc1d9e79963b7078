/** What the fold, the clocks, the driver's turn and the messages about a step decide, said of the steps
    alone. */
module StepLaws {
  import opened Wrappers
  import opened JobModel
  import Aggregate
  import Driver
  import Graph
  import Timeouts

  predicate Fatal(s: Step) { s.state == Failed && !s.spec.continueOnError }

  predicate Over(s: Step) { s.state in {Passed, Failed, Errored, Cached, Skipped} }

  // ---- The fold ----

  /** Step `i` errored, and none before it did. */
  predicate FirstErrored(steps: seq<Step>, i: nat) {
    i < |steps| && steps[i].state == Errored && forall k | 0 <= k < i :: steps[k].state != Errored
  }

  predicate FirstFatal(steps: seq<Step>, i: nat) {
    i < |steps| && Fatal(steps[i]) && forall k | 0 <= k < i :: !Fatal(steps[k])
  }

  /** No steps is an error of its own; one fatal failure is red at once; otherwise the fold waits for every
      step, and then is green unless a step errored, in which case it gives the first such step's reason. */
  lemma FoldIsExact(steps: seq<Step>)
    ensures var f := Aggregate.FoldSteps(steps);
      && (steps == [] ==> f == Aggregate.Decided(Aggregate.VerdictErrored(NoTests), []))
      && ((exists i | 0 <= i < |steps| :: Fatal(steps[i])) <==> f.Decided? && f.status == Aggregate.VerdictRed)
      && (steps != [] && (forall i | 0 <= i < |steps| :: !Fatal(steps[i])) ==>
            && (f.Undecided? <==> exists i | 0 <= i < |steps| :: !Over(steps[i]))
            && (f.Decided? ==> f.cancel == [])
            && (f.Decided? && f.status == Aggregate.VerdictGreen <==>
                  forall i | 0 <= i < |steps| :: Over(steps[i]) && steps[i].state != Errored)
            && forall i: nat | FirstErrored(steps, i) && f.Decided? ::
                 f.status == Aggregate.VerdictErrored(if steps[i].errorReason.Some? then steps[i].errorReason.value
                     else Infra))
  {
    if steps != [] && Aggregate.FirstErrored(steps).Some? { ErroredIsFirst(steps); }
  }

  lemma {:induction false} ErroredIsFirst(steps: seq<Step>)
    requires Aggregate.FirstErrored(steps).Some?
    ensures FirstErrored(steps, Aggregate.FirstErrored(steps).value)
  {
    if steps[0].state != Errored {
      ErroredIsFirst(steps[1..]);
      assert forall k | 1 <= k < |steps| :: steps[k] == steps[1..][k - 1];
    }
  }

  lemma {:induction false} FatalIsFirst(steps: seq<Step>)
    requires Aggregate.FirstFatal(steps).Some?
    ensures FirstFatal(steps, Aggregate.FirstFatal(steps).value)
  {
    if !Fatal(steps[0]) {
      FatalIsFirst(steps[1..]);
      assert forall k | 1 <= k < |steps| :: steps[k] == steps[1..][k - 1];
    }
  }

  predicate Unfinished(s: Step, except: string) { !Over(s) && s.id != except }

  /** How many of the first `n` steps are unfinished. */
  ghost function Count(steps: seq<Step>, n: nat, except: string): nat
    requires n <= |steps|
  {
    if n == 0 then 0 else Count(steps, n - 1, except) + if Unfinished(steps[n - 1], except) then 1 else 0
  }

  lemma {:induction false} CountTail(steps: seq<Step>, n: nat, except: string)
    requires 0 < n <= |steps|
    ensures Count(steps, n, except) ==
            (if Unfinished(steps[0], except) then 1 else 0) + Count(steps[1..], n - 1, except)
  {
    if n > 1 {
      CountTail(steps, n - 1, except);
      assert steps[1..][n - 2] == steps[n - 1];
    }
  }

  lemma {:induction false} InFlightCounts(steps: seq<Step>, except: string)
    ensures |Aggregate.InFlight(steps, except)| == Count(steps, |steps|, except)
  {
    if steps != [] {
      InFlightCounts(steps[1..], except);
      CountTail(steps, |steps|, except);
    }
  }

  /** An unfinished step's id stands where the number of unfinished steps before it says. */
  lemma {:induction false} InFlightHolds(steps: seq<Step>, except: string, i: nat)
    requires i < |steps| && Unfinished(steps[i], except)
    ensures var ids, n := Aggregate.InFlight(steps, except), Count(steps, i, except);
      n < |ids| && ids[n] == steps[i].id
  {
    if i > 0 {
      InFlightHolds(steps[1..], except, i - 1);
      CountTail(steps, i, except);
    }
  }

  /** A red fold cancels exactly the unfinished steps, in order: as many ids as there are unfinished steps,
      each where the number of those before it says. */
  lemma RedCancelsTheRest(steps: seq<Step>, f: nat, i: nat)
    requires FirstFatal(steps, f) && i < |steps|
    ensures var fold, n := Aggregate.FoldSteps(steps), Count(steps, i, steps[f].id);
      && fold.Decided? && fold.status == Aggregate.VerdictRed
      && |fold.cancel| == Count(steps, |steps|, steps[f].id)
      && (Unfinished(steps[i], steps[f].id) ==> n < |fold.cancel| && fold.cancel[n] == steps[i].id)
  {
    assert steps[f].FailedFatally();
    FatalIsFirst(steps);
    assert Aggregate.FirstFatal(steps).value == f;
    InFlightCounts(steps, steps[f].id);
    if Unfinished(steps[i], steps[f].id) { InFlightHolds(steps, steps[f].id, i); }
  }

  // ---- The clocks ----

  /** What a step may take: what it asked for, or the default, but never more than the ceiling. */
  function Allowed(s: Step, t: Timeouts.Clocks): nat {
    var asked := if s.spec.timeout.Some? then s.spec.timeout.value else t.step;
    if t.maxStep < asked then t.maxStep else asked
  }

  predicate Overran(s: Step, t: Timeouts.Clocks, now: Instant) {
    s.state in {Leased, Running} && s.startedAt.Some? && now >= s.startedAt.value + Allowed(s, t)
  }

  predicate Outwaited(s: Step, t: Timeouts.Clocks, now: Instant) {
    s.state in {Pending, Ready} && s.readyAt.Some? && now >= s.readyAt.value + t.queueWait
  }

  /** A sweep errs a step handed out for `Timeout` exactly when it overran its allowance, one that waits for
      `Capacity` exactly when it outwaited the queue, and touches no other. */
  lemma SweepDecides(steps: seq<Step>, t: Timeouts.Clocks, now: Instant, i: nat)
    requires i < |steps|
    ensures var s, r := steps[i], Timeouts.SweptAll(steps, t, now)[i];
      r == if Overran(s, t, now) then s.(state := Errored, errorReason := Some(Timeout), finishedAt := Some(now))
           else if Outwaited(s, t, now)
               then s.(state := Errored, errorReason := Some(Capacity), finishedAt := Some(now))
           else s
  {
  }

  // ---- The turn ----

  /** When a step's clock runs out, if it has one running. */
  predicate RunsOutAt(s: Step, t: Timeouts.Clocks, at: Instant) {
    || (s.state in {Leased, Running} && s.startedAt.Some? && at == s.startedAt.value + Allowed(s, t))
    || (s.state in {Pending, Ready} && s.readyAt.Some? && at == s.readyAt.value + t.queueWait)
  }

  lemma DeadlineIs(s: Step, t: Timeouts.Clocks, at: Instant)
    ensures RunsOutAt(s, t, at) <==> Timeouts.Deadline(s, t).Some? && Timeouts.Deadline(s, t).value.0 == at
  {
  }

  /** A turn sweeps, then advances. It gives up the job exactly at its deadline; before it, it decides what
      the fold decides and cancels what the fold cancels; and otherwise it asks to be woken at the first
      moment any step's clock runs out, or at the job's deadline if that comes first. */
  lemma TurnIsExact(t: Timeouts.Clocks, steps: seq<Step>, jobDeadline: Instant, now: Instant)
    ensures var (r, d) := Driver.Turn(t, steps, jobDeadline, now);
      var f := Aggregate.FoldSteps(r);
      && r == Graph.AdvanceAll(Timeouts.SweptAll(steps, t, now), now)
      && (d.JobTimeout? <==> now >= jobDeadline)
      && (d.Decided? <==> now < jobDeadline && f.Decided?)
      && (d.Decided? ==> d.status == f.status && d.cancel == f.cancel)
      && (d.Wait? ==>
            && d.until <= jobDeadline
            && (forall i, at | 0 <= i < |r| && RunsOutAt(r[i], t, at) :: d.until <= at)
            && (d.until == jobDeadline || exists i | 0 <= i < |r| :: RunsOutAt(r[i], t, d.until)))
  {
    var (r, d) := Driver.Turn(t, steps, jobDeadline, now);
    if d.Wait? {
      forall i, at | 0 <= i < |r| && RunsOutAt(r[i], t, at) ensures d.until <= at { DeadlineIs(r[i], t, at); }
      if d.until != jobDeadline {
        var i :| 0 <= i < |r| && Timeouts.Deadline(r[i], t).Some? && Timeouts.Deadline(r[i], t).value.0 == d.until;
        DeadlineIs(r[i], t, d.until);
      }
    }
  }

  // ---- Messages about one step ----

  function Named(o: Driver.Outcome): StepState {
    match o case OutPassed => Passed case OutFailed => Failed case OutErrored => Errored
  }

  /** A report is believed exactly from the lease holder, in time, of a step in flight; it leaves the step as
      the outcome names it, finished now, and an errored one errs for infrastructure. */
  lemma ReportDecides(s: Step, from: string, o: Driver.Outcome, now: Instant)
    ensures var r := Driver.Reported(s, from, o, now);
      && (r.Ok? <==> s.state in {Leased, Running} && s.nodeId == Some(from)
                     && (s.leaseExpiresAt.Some? ==> now <= s.leaseExpiresAt.value))
      && (r.Ok? ==>
            var reason := if o.OutErrored? then Some(Infra) else s.errorReason;
            r.value == s.(state := Named(o), finishedAt := Some(now), errorReason := reason))
  {
  }

  /** The fleet's acceptance leases a ready step, and only a ready one, for the first time or once more; its
      wall clock starts then. Its rejection errs any step that is not over. */
  lemma AssignmentDecides(s: Step, node: string, ttl: nat, now: Instant)
    ensures Driver.LeasedTo(s, node, ttl, now) ==
      (if s.state == Ready then
         s.(state := Leased, nodeId := Some(node), attempt := s.attempt + 1, startedAt := Some(now),
            leaseExpiresAt := Some(now + ttl))
       else s)
    ensures Driver.Refused(s, now) ==
      if Over(s) then s else s.(state := Errored, errorReason := Some(Infra), finishedAt := Some(now))
  {
  }

  /** A renewal from the holder of a step in flight extends its lease and sets it running; a cancel skips any
      step that is not over; nothing else is touched by either. */
  lemma RenewalAndCancelDecide(s: Step, from: string, ttl: nat, now: Instant)
    ensures Driver.Renewed(s, from, ttl, now) ==
      if s.state in {Leased, Running} && s.nodeId == Some(from)
      then s.(state := Running, leaseExpiresAt := Some(now + ttl)) else s
    ensures Driver.Cancelled(s) == if Over(s) then s else s.(state := Skipped)
  {
  }
}
