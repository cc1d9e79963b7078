/** Folding step outcomes into one verdict: fail fast, report once. */
module Aggregate {
  import opened Wrappers
  import opened JobModel

  datatype Status = VerdictGreen | VerdictRed | VerdictErrored(reason: Reason)

  datatype Fold = Undecided | Decided(status: Status, cancel: seq<string>)

  function FirstFatal(steps: seq<Step>): (r: Option<nat>)
    ensures r.Some? ==> r.value < |steps| && steps[r.value].FailedFatally()
    ensures r.None? ==> forall i | 0 <= i < |steps| :: !steps[i].FailedFatally()
  {
    if steps == [] then None
    else if steps[0].FailedFatally() then Some(0)
    else match FirstFatal(steps[1..]) case None => None case Some(i) => Some(i + 1)
  }

  function FirstErrored(steps: seq<Step>): (r: Option<nat>)
    ensures r.Some? ==> r.value < |steps| && steps[r.value].state == StepState.Errored
    ensures r.None? ==> forall i | 0 <= i < |steps| :: steps[i].state != StepState.Errored
  {
    if steps == [] then None
    else if steps[0].state == StepState.Errored then Some(0)
    else match FirstErrored(steps[1..]) case None => None case Some(i) => Some(i + 1)
  }

  /** Ids of the steps still in flight, other than `except`. */
  function InFlight(steps: seq<Step>, except: string): (r: seq<string>)
    ensures forall i | 0 <= i < |steps| && !steps[i].state.Terminal() && steps[i].id != except :: steps[i].id in r
  {
    if steps == [] then []
    else
      (if steps[0].id != except && !steps[0].state.Terminal() then [steps[0].id] else []) + InFlight(steps[1..], except)
  }

  predicate AllTerminal(steps: seq<Step>) { forall i | 0 <= i < |steps| :: steps[i].state.Terminal() }

  function FoldSteps(steps: seq<Step>): Fold {
    if steps == [] then Decided(VerdictErrored(NoTests), [])
    else
      var fatal := FirstFatal(steps);
      if fatal.Some? then Decided(VerdictRed, InFlight(steps, steps[fatal.value].id))
      else if !AllTerminal(steps) then Undecided
      else
        var err := FirstErrored(steps);
        if err.Some? then
          Decided(VerdictErrored(match steps[err.value].errorReason case None => Infra case Some(r) => r), [])
        else Decided(VerdictGreen, [])
  }

  // ---- A verdict, once decided, is the verdict ----

  /** One legal transition of one step; its definition, and every other step, unchanged. */
  ghost predicate LegalMove(a: seq<Step>, b: seq<Step>) {
    exists i :: MovesAt(a, b, i)
  }

  ghost predicate MovesAt(a: seq<Step>, b: seq<Step>, i: int) {
    && 0 <= i < |a| == |b|
    && a[i].state.CanTransitionTo(b[i].state) && a[i].id == b[i].id && a[i].spec == b[i].spec
    && forall k | 0 <= k < |a| && k != i :: b[k] == a[k]
  }

  /** A history of legal transitions. */
  ghost predicate LegalRun(run: seq<seq<Step>>) {
    run != [] && forall k | 0 < k < |run| :: LegalMove(run[k - 1], run[k])
  }

  lemma MoveKeepsVerdict(a: seq<Step>, b: seq<Step>)
    requires LegalMove(a, b) && FoldSteps(a).Decided?
    ensures FoldSteps(b).Decided? && FoldSteps(b).status == FoldSteps(a).status
  {
    var i :| MovesAt(a, b, i);
    var f := FirstFatal(a).value;
    assert f != i;
    assert b[f].FailedFatally();
  }

  /** Fail-fast loses nothing: from the moment the fold decides, every continuation by legal step
      transitions, up to all siblings finishing, folds to the same status. */
  lemma {:induction false} VerdictIsStable(run: seq<seq<Step>>)
    requires LegalRun(run) && FoldSteps(run[0]).Decided?
    ensures FoldSteps(run[|run| - 1]).Decided? && FoldSteps(run[|run| - 1]).status == FoldSteps(run[0]).status
  {
    if |run| > 1 {
      VerdictIsStable(run[..|run| - 1]);
      assert LegalMove(run[|run| - 2], run[|run| - 1]);
      MoveKeepsVerdict(run[|run| - 2], run[|run| - 1]);
    }
  }

  /** When every step is terminal the fold always decides, and red means exactly a fatal failure. */
  lemma TerminalDecides(steps: seq<Step>)
    requires AllTerminal(steps)
    ensures FoldSteps(steps).Decided? && FoldSteps(steps).cancel == []
    ensures FoldSteps(steps).status == VerdictRed <==> exists i | 0 <= i < |steps| :: steps[i].FailedFatally()
  {
    if FirstFatal(steps).Some? { NothingInFlight(steps, steps[FirstFatal(steps).value].id); }
  }

  lemma {:induction false} NothingInFlight(steps: seq<Step>, except: string)
    requires AllTerminal(steps)
    ensures InFlight(steps, except) == []
  {
    if steps != [] {
      assert AllTerminal(steps[1..]);
      NothingInFlight(steps[1..], except);
    }
  }
}
