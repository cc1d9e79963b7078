/** Steps and jobs: their states, the legal transitions, and the record fields the driver reads. */
module JobModel {
  import opened Wrappers

  type Instant = nat

  datatype JobId = JobId(text: string)
  datatype StepId = StepId(text: string)

  datatype StepState = Pending | Ready | Leased | Running | Passed | Failed | Errored | Cached | Skipped {
    predicate Terminal() { Passed? || Failed? || Errored? || Cached? || Skipped? }

    /** Handed out, or waiting to be. */
    predicate Live() { Ready? || Leased? || Running? }

    predicate CanTransitionTo(next: StepState) {
      match (this, next)
      case (Pending, Ready) => true
      case (Ready, Leased) => true
      case (Leased, Running) => true
      case (Leased, Ready) => true
      case (Running, Ready) => true
      case (_, Passed) => Leased? || Running?
      case (_, Failed) => !Terminal()
      case (_, Errored) => !Terminal()
      case (_, Cached) => Pending? || Ready?
      case (_, Skipped) => !Terminal()
      case _ => false
    }
  }

  datatype Reason = Infra | Timeout | Capacity | NoTests

  datatype Spec = Spec(name: string, needs: seq<string>, timeout: Option<nat>, continueOnError: bool)

  datatype Step = Step(
    id: string, spec: Spec, state: StepState, attempt: nat, nodeId: Option<string>, leaseExpiresAt: Option<Instant>,
    readyAt: Option<Instant>, startedAt: Option<Instant>, finishedAt: Option<Instant>, errorReason: Option<Reason>)
  {
    predicate FailedFatally() { state == Failed && !spec.continueOnError }

    /** The step after `transition(next)`, or `None` when the table refuses it. */
    function Transition(next: StepState): Option<Step> {
      if state.CanTransitionTo(next) then Some(this.(state := next)) else None
    }
  }

  function NewStep(id: string, spec: Spec): Step { Step(id, spec, Pending, 0, None, None, None, None, None, None) }

  /** `job.step_mut(id)`: the first step with that id. */
  function IndexOf(steps: seq<Step>, id: string): (r: Option<nat>)
    ensures r.Some? ==> r.value < |steps| && steps[r.value].id == id
    ensures r.None? ==> forall k | 0 <= k < |steps| :: steps[k].id != id
  {
    if steps == [] then None
    else if steps[0].id == id then Some(0)
    else match IndexOf(steps[1..], id) case None => None case Some(i) => Some(i + 1)
  }

  ghost predicate DistinctIds(steps: seq<Step>) {
    forall i, j | 0 <= i < j < |steps| :: steps[i].id != steps[j].id
  }

  // ---- Jobs ----

  datatype JobState = Queued | Fetching | Planning | JobRunning | Green | Red | JobErrored | Reported | ReportFailed {
    predicate HasVerdict() { Green? || Red? || JobErrored? || Reported? || ReportFailed? }

    predicate CanTransitionTo(next: JobState) {
      match (this, next)
      case (Queued, Fetching) => true
      case (Fetching, Planning) => true
      case (Planning, JobRunning) => true
      case (JobRunning, Green) => true
      case (JobRunning, Red) => true
      case (_, JobErrored) => Queued? || Fetching? || Planning? || JobRunning?
      case (_, Reported) => Green? || Red? || JobErrored? || ReportFailed?
      case (_, ReportFailed) => Green? || Red? || JobErrored?
      case _ => false
    }
  }
}
