/** The clocks: when a step has waited or run too long, and the moment the driver should look again. */
module Timeouts {
  import opened Wrappers
  import opened JobModel

  datatype Clocks = Clocks(step: nat, job: nat, queueWait: nat, maxStep: nat) {
    function StepTimeout(requested: Option<nat>): nat {
      var asked := match requested case None => step case Some(d) => d;
      if asked < maxStep then asked else maxStep
    }
  }

  datatype Expiry = StepExpiry | QueueExpiry {
    function Reason(): Reason { match this case StepExpiry => Timeout case QueueExpiry => Capacity }
  }

  function Deadline(s: Step, t: Clocks): Option<(Instant, Expiry)> {
    match s.state
    case Pending => (match s.readyAt case None => None case Some(at) => Some((at + t.queueWait, QueueExpiry)))
    case Ready => (match s.readyAt case None => None case Some(at) => Some((at + t.queueWait, QueueExpiry)))
    case Leased => (match s.startedAt case None => None case Some(at) => Some((at + t.StepTimeout(s.spec.timeout),
        StepExpiry)))
    case Running => (match s.startedAt case None => None case Some(at) => Some((at + t.StepTimeout(s.spec.timeout),
        StepExpiry)))
    case _ => None
  }

  predicate Due(s: Step, t: Clocks, now: Instant) {
    var d := Deadline(s, t); d.Some? && d.value.0 <= now
  }

  /** One step after a sweep: expired steps are errored, never failed. */
  function Swept(s: Step, t: Clocks, now: Instant): Step {
    if Due(s, t, now)
        then s.(state := Errored, errorReason := Some(Deadline(s, t).value.1.Reason()), finishedAt := Some(now))
    else s
  }

  function SweptAll(steps: seq<Step>, t: Clocks, now: Instant): (r: seq<Step>)
    ensures |r| == |steps| && forall i | 0 <= i < |r| :: r[i] == Swept(steps[i], t, now)
  {
    seq(|steps|, i requires 0 <= i < |steps| => Swept(steps[i], t, now))
  }

  function Fired(steps: seq<Step>, t: Clocks, now: Instant, n: nat): seq<(string, Expiry)>
    requires n <= |steps|
  {
    if n == 0 then []
    else
      var s := steps[n - 1];
      Fired(steps, t, now, n - 1) + if Due(s, t, now) then [(s.id, Deadline(s, t).value.1)] else []
  }

  method Sweep(steps: array<Step>, t: Clocks, now: Instant) returns (fired: seq<(string, Expiry)>)
    modifies steps
    ensures steps[..] == SweptAll(old(steps[..]), t, now)
    ensures fired == Fired(old(steps[..]), t, now, steps.Length)
  {
    ghost var before := steps[..];
    fired := [];
    for i := 0 to steps.Length
      invariant forall k | 0 <= k < i :: steps[k] == Swept(before[k], t, now)
      invariant forall k | i <= k < steps.Length :: steps[k] == before[k]
      invariant fired == Fired(before, t, now, i)
    {
      var s := steps[i];
      var d := Deadline(s, t);
      if d.Some? && now >= d.value.0 {
        var next := s.Transition(Errored);
        if next.Some? {
          steps[i] := next.value.(errorReason := Some(d.value.1.Reason()), finishedAt := Some(now));
          fired := fired + [(s.id, d.value.1)];
        }
      }
    }
  }

  /** The soonest deadline of any step. */
  function NextDeadline(steps: seq<Step>, t: Clocks): (r: Option<Instant>)
    ensures r.Some? <==> exists i | 0 <= i < |steps| :: Deadline(steps[i], t).Some?
    ensures r.Some? ==>
      forall i | 0 <= i < |steps| && Deadline(steps[i], t).Some? :: r.value <= Deadline(steps[i], t).value.0
    ensures r.Some? ==>
      exists i | 0 <= i < |steps| :: Deadline(steps[i], t).Some? && Deadline(steps[i], t).value.0 == r.value
  {
    if steps == [] then None
    else
      var rest := NextDeadline(steps[1..], t);
      assert forall i | 1 <= i < |steps| :: steps[i] == steps[1..][i - 1];
      assert forall i | 0 <= i < |steps| - 1 :: steps[1..][i] == steps[i + 1];
      match Deadline(steps[0], t)
      case None => rest
      case Some(d) => if rest.Some? && rest.value < d.0 then rest else Some(d.0)
  }

  lemma {:induction false} FiredNothing(steps: seq<Step>, t: Clocks, now: Instant, n: nat)
    requires n <= |steps|
    ensures Fired(steps, t, now, n) == [] <==> forall i | 0 <= i < n :: !Due(steps[i], t, now)
  {
    if n > 0 { FiredNothing(steps, t, now, n - 1); }
  }

  /** A sweep does something exactly when the soonest deadline has passed. */
  lemma SweepFiresOnTime(steps: seq<Step>, t: Clocks, now: Instant)
    ensures var d := NextDeadline(steps, t);
      && (SweptAll(steps, t, now) != steps <==> d.Some? && d.value <= now)
      && (Fired(steps, t, now, |steps|) != [] <==> d.Some? && d.value <= now)
  {
    FiredNothing(steps, t, now, |steps|);
    var d := NextDeadline(steps, t);
    if d.Some? && d.value <= now {
      var i :| 0 <= i < |steps| && Deadline(steps[i], t).Some? && Deadline(steps[i], t).value.0 == d.value;
      assert Due(steps[i], t, now) && SweptAll(steps, t, now)[i].state != steps[i].state;
    } else {
      forall i | 0 <= i < |steps| ensures !Due(steps[i], t, now) {}
      assert SweptAll(steps, t, now) == steps;
    }
  }
}
