/** A job's steps as the process holds them: one array, changed in place by the driver's own pass and by
    each section that takes the job's lock. */
module JobRecord {
  import opened Wrappers
  import opened JobModel
  import Aggregate
  import Driver
  import Graph
  import Timeouts

  datatype Assigned = Leased(node: string) | Rejected

  class Job {
    const clocks: Timeouts.Clocks
    const deadlineAt: Instant
    const steps: array<Step>

    constructor (clocks: Timeouts.Clocks, deadlineAt: Instant, planned: seq<Step>)
      ensures this.clocks == clocks && this.deadlineAt == deadlineAt && fresh(steps) && steps[..] == planned
    {
      this.clocks, this.deadlineAt := clocks, deadlineAt;
      steps := new Step[|planned|](i requires 0 <= i < |planned| => planned[i]);
    }

    /** One turn of the driver loop: sweep, advance, fold, and when to look again. */
    method Turn(now: Instant) returns (d: Driver.Decision)
      modifies steps
      ensures (steps[..], d) == Driver.Turn(clocks, old(steps[..]), deadlineAt, now)
    {
      var fired := Timeouts.Sweep(steps, clocks, now);
      var moved := Graph.Advancing(steps, now);
      if now >= deadlineAt { return Driver.JobTimeout; }
      match Aggregate.FoldSteps(steps[..])
      case Decided(v, c) => return Driver.Decision.Decided(v, c);
      case Undecided =>
        var next := Timeouts.NextDeadline(steps[..], clocks);
        d := Driver.Wait(if next.Some? && next.value < deadlineAt then next.value else deadlineAt);
    }

    /** `settle_assignment`, for an answer other than no capacity; `moved` says whether the step left `Ready`. */
    method SettleAssignment(id: string, answer: Assigned, ttl: nat, now: Instant) returns (moved: bool)
      modifies steps
      ensures var e := if answer.Leased? then Driver.Lease(id, answer.node, ttl, now) else Driver.Refuse(id, now);
        steps[..] == Driver.Next(clocks, old(steps[..]), e)
      ensures moved <==> exists i | 0 <= i < steps.Length :: steps[i].state != old(steps[i].state)
    {
      var i := IndexOf(steps[..], id);
      if i.None? { return false; }
      var s := steps[i.value];
      var next := s.Transition(if answer.Leased? then StepState.Leased else Errored);
      if next.None? { return false; }
      if answer.Leased? {
        steps[i.value] := next.value.(nodeId := Some(answer.node), attempt := s.attempt + 1, startedAt := Some(now),
            leaseExpiresAt := Some(now + ttl));
      } else {
        steps[i.value] := next.value.(errorReason := Some(Infra), finishedAt := Some(now));
      }
      moved := true;
    }

    /** `record_step_report`: a report is believed from the lease holder, in time, of a step in flight. */
    method RecordReport(id: string, node: string, o: Driver.Outcome,
                        now: Instant) returns (refused: Option<Driver.Rejection>)
      modifies steps
      ensures steps[..] == Driver.Next(clocks, old(steps[..]), Driver.Report(id, node, o, now))
      ensures refused.Some? ==> steps[..] == old(steps[..])
      ensures refused == Some(Driver.UnknownStep) <==> IndexOf(old(steps[..]), id).None?
      ensures refused.None? ==>
        var s := old(steps[..])[IndexOf(old(steps[..]), id).value];
        (s.state == StepState.Leased || s.state == Running) && s.nodeId == Some(node) &&
            (s.leaseExpiresAt.Some? ==> now <= s.leaseExpiresAt.value)
    {
      var i := IndexOf(steps[..], id);
      if i.None? { return Some(Driver.UnknownStep); }
      var s := steps[i.value];
      if s.state != StepState.Leased && s.state != Running { return Some(Driver.NotInFlight); }
      if s.nodeId != Some(node) { return Some(Driver.NotLeaseHolder); }
      if s.leaseExpiresAt.Some? && now > s.leaseExpiresAt.value { return Some(Driver.LeaseExpired); }
      var next := s.Transition(o.State());
      if next.None? { return Some(Driver.NotInFlight); }
      steps[i.value] := next.value.(finishedAt := Some(now), errorReason := if o == Driver.OutErrored
          then Some(Infra) else s.errorReason);
      refused := None;
    }

    /** One section of `cancel_steps`. */
    method Cancel(id: string)
      modifies steps
      ensures steps[..] == Driver.Next(clocks, old(steps[..]), Driver.Cancel(id))
    {
      var i := IndexOf(steps[..], id);
      if i.Some? {
        var next := steps[i.value].Transition(Skipped);
        if next.Some? { steps[i.value] := next.value; }
      }
    }

    /** `cancel_steps`, nothing else taking the lock in between. */
    method CancelAll(ids: seq<string>)
      modifies steps
      ensures steps[..] == CancelEach(clocks, old(steps[..]), ids)
    {
      assert ids[0..] == ids;
      for i := 0 to |ids|
        invariant CancelEach(clocks, steps[..], ids[i..]) == CancelEach(clocks, old(steps[..]), ids)
      {
        assert ids[i..][0] == ids[i] && ids[i..][1..] == ids[i + 1..];
        Cancel(ids[i]);
      }
    }
  }

  function CancelEach(t: Timeouts.Clocks, steps: seq<Step>, ids: seq<string>): seq<Step>
    decreases |ids|
  {
    if ids == [] then steps else CancelEach(t, Driver.Next(t, steps, Driver.Cancel(ids[0])), ids[1..])
  }

  lemma {:induction false} CancelEachIsRun(t: Timeouts.Clocks, steps: seq<Step>,
                                           ids: seq<string>) returns (mids: seq<seq<Step>>)
    ensures Driver.CancelRun(t, steps, ids, mids, CancelEach(t, steps, ids))
    decreases |ids|
  {
    mids := [];
    if ids != [] {
      var rest := CancelEachIsRun(t, Driver.Next(t, steps, Driver.Cancel(ids[0])), ids[1..]);
      mids := [steps] + rest;
      assert mids[1..] == rest;
    }
  }

  /** After a decided fold's cancel list has been applied, nothing is in flight. */
  lemma CancellingFinishes(t: Timeouts.Clocks, steps: seq<Step>)
    requires DistinctIds(steps) && Aggregate.FoldSteps(steps).Decided?
    ensures Aggregate.AllTerminal(CancelEach(t, steps, Aggregate.FoldSteps(steps).cancel))
  {
    var ids := Aggregate.FoldSteps(steps).cancel;
    var mids := CancelEachIsRun(t, steps, ids);
    Driver.AfterCancelNothingCounts(t, steps, mids, CancelEach(t, steps, ids));
  }
}
