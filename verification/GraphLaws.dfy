/** What advancing the graph does to each step and reports of it, said of states and definitions alone. */
module GraphLaws {
  import opened Wrappers
  import opened JobModel
  import opened Graph

  // ---- What a need says ----

  /** Step `f` is the one a need called `name` means: the first so named. */
  ghost predicate Means(steps: seq<Step>, name: string, f: nat) {
    f < |steps| && steps[f].spec.name == name && forall k | 0 <= k < f :: steps[k].spec.name != name
  }

  ghost predicate IsDeclared(steps: seq<Step>, name: string) { exists f: nat :: Means(steps, name, f) }

  /** The step it means has passed, was cached, or failed and may. */
  ghost predicate IsMet(steps: seq<Step>, name: string) {
    exists f: nat :: Means(steps, name, f) &&
      (steps[f].state in {Passed, Cached} || (steps[f].state == Failed && steps[f].spec.continueOnError))
  }

  /** The step it means errored, was skipped, or failed and may not. */
  ghost predicate IsBarred(steps: seq<Step>, name: string) {
    exists f: nat :: Means(steps, name, f) &&
      (steps[f].state in {Errored, Skipped} || (steps[f].state == Failed && !steps[f].spec.continueOnError))
  }

  lemma StatusMeans(steps: seq<Step>, name: string)
    ensures StatusOf(name, steps) == Unknown <==> !IsDeclared(steps, name)
    ensures StatusOf(name, steps) == Satisfied <==> IsMet(steps, name)
    ensures StatusOf(name, steps) == Blocked <==> IsBarred(steps, name)
  {
    var f := FirstNamed(steps, name);
    if f.Some? {
      assert Means(steps, name, f.value);
      forall g: nat ensures Means(steps, name, g) ==> g == f.value {}
    }
  }

  ghost predicate AllMet(steps: seq<Step>, needs: seq<string>) { forall k | 0 <= k < |needs| :: IsMet(steps, needs[k]) }

  ghost predicate AllDeclared(steps: seq<Step>, needs: seq<string>) {
    forall k | 0 <= k < |needs| :: IsDeclared(steps, needs[k])
  }

  ghost predicate SomeBarred(steps: seq<Step>, needs: seq<string>) {
    exists k | 0 <= k < |needs| :: IsBarred(steps, needs[k])
  }

  lemma GateMeans(steps: seq<Step>, needs: seq<string>)
    ensures GateOf(needs, steps) == GateUndeclared <==> !AllDeclared(steps, needs)
    ensures GateOf(needs, steps) == GateSkip <==> AllDeclared(steps, needs) && SomeBarred(steps, needs)
    ensures GateOf(needs, steps) == GateReady <==> AllMet(steps, needs)
  {
    forall k | 0 <= k < |needs|
      ensures StatusOf(needs[k], steps) == Unknown <==> !IsDeclared(steps, needs[k])
      ensures StatusOf(needs[k], steps) == Satisfied <==> IsMet(steps, needs[k])
      ensures StatusOf(needs[k], steps) == Blocked <==> IsBarred(steps, needs[k])
    {
      StatusMeans(steps, needs[k]);
    }
  }

  // ---- Where each step ends ----

  /** A step that was pending, in `m`: ready if and only if every need is met; skipped if and only if all
      are declared and one is barred; errored if and only if one is undeclared; pending otherwise. */
  ghost predicate Settled(m: seq<Step>, s: Step) {
    && s.state in {Ready, Skipped, Errored, Pending}
    && (s.state == Ready <==> AllMet(m, s.spec.needs))
    && (s.state == Skipped <==> AllDeclared(m, s.spec.needs) && SomeBarred(m, s.spec.needs))
    && (s.state == Errored <==> !AllDeclared(m, s.spec.needs))
  }

  /** All a move changes of a step. */
  ghost predicate Stamped(before: Step, after: Step, now: Instant) {
    match after.state
    case Ready => after == before.(state := Ready, readyAt := Some(now))
    case Skipped => after == before.(state := Skipped, finishedAt := Some(now))
    case Errored => after == before.(state := Errored, errorReason := Some(Infra), finishedAt := Some(now))
    case _ => after == before
  }

  lemma PassStamps(steps: seq<Step>, now: Instant, i: nat)
    requires i < |steps|
    ensures if steps[i].state == Pending then Stamped(steps[i], Pass(steps, now)[i], now)
            else Pass(steps, now)[i] == steps[i]
  {
  }

  lemma {:induction false} SettleStamps(steps: seq<Step>, now: Instant, i: nat)
    requires i < |steps|
    ensures if steps[i].state == Pending then Stamped(steps[i], Settle(steps, now)[i], now)
            else Settle(steps, now)[i] == steps[i]
    decreases PendingCount(steps)
  {
    var next := Pass(steps, now);
    PendingShrinks(steps, next);
    if next != steps {
      PassStamps(steps, now, i);
      SettleStamps(next, now, i);
    }
  }

  /** The fixpoint, step by step: each step that was pending is where its needs in the final state put it,
      changed in nothing but what that move stamps; every other step is untouched. */
  lemma SettleIsExact(steps: seq<Step>, now: Instant, i: nat)
    requires i < |steps|
    ensures var m := Settle(steps, now);
      if steps[i].state == Pending then Settled(m, m[i]) && Stamped(steps[i], m[i], now) else m[i] == steps[i]
  {
    var m := Settle(steps, now);
    FixpointIsExact(steps, now);
    SettleStamps(steps, now, i);
    GateMeans(m, m[i].spec.needs);
  }

  ghost predicate SomeLive(steps: seq<Step>) {
    exists i | 0 <= i < |steps| :: steps[i].state in {Ready, Leased, Running}
  }

  /** And then the cycles: with something live nothing more happens; otherwise every step still pending errs,
      for infrastructure, and every other stays. */
  lemma BreakIsExact(steps: seq<Step>, now: Instant, i: nat)
    requires i < |steps|
    ensures var m, r := Settle(steps, now), AdvanceAll(steps, now);
      && |m| == |r| == |steps|
      && r[i] == (if m[i].state == Pending && !SomeLive(m)
                  then m[i].(state := Errored, errorReason := Some(Infra), finishedAt := Some(now)) else m[i])
  {
    var m := Settle(steps, now);
    assert AnyLive(m) <==> SomeLive(m);
  }

  // ---- What is reported ----

  /** What the report calls a step that moved there. */
  ghost predicate Calls(state: StepState, kind: Advance) {
    (state == Ready && kind == MadeReady) || (state == Skipped && kind == MadeSkipped) ||
        (state == Errored && kind == Broken)
  }

  /** Step `i` was pending, moved, and is called what its new state is. */
  ghost predicate Tells(steps: seq<Step>, m: seq<Step>, i: nat, x: (string, Advance)) {
    && i < |steps| == |m| && steps[i].state == Pending && m[i].state != Pending
    && x.0 == steps[i].id && Calls(m[i].state, x.1)
  }

  lemma MoveTells(s: Step, snapshot: seq<Step>, now: Instant, x: (string, Advance))
    ensures x in MovesOf(s, snapshot) <==>
      s.state == Pending && Advanced(s, snapshot, now).state != Pending && x.0 == s.id &&
          Calls(Advanced(s, snapshot, now).state, x.1)
  {
    assert x == (x.0, x.1);
  }

  lemma {:induction false} JoinedHolds(parts: seq<Moves>, x: (string, Advance))
    ensures x in Joined(parts) <==> exists i | 0 <= i < |parts| :: x in parts[i]
  {
    if parts != [] {
      var front := parts[..|parts| - 1];
      JoinedHolds(front, x);
      if i :| 0 <= i < |front| && x in front[i] { assert x in parts[i]; }
      if i :| 0 <= i < |parts| && x in parts[i] { assert i < |front| ==> x in front[i]; }
    }
  }

  lemma PassTells(steps: seq<Step>, now: Instant, x: (string, Advance))
    ensures x in PassMoves(steps, |steps|) <==> exists i: nat :: Tells(steps, Pass(steps, now), i, x)
  {
    var parts, next := Parts(steps), Pass(steps, now);
    assert parts[..|steps|] == parts;
    JoinedHolds(parts, x);
    forall i: nat | i < |steps| ensures x in parts[i] <==> Tells(steps, next, i, x) {
      MoveTells(steps[i], steps, now, x);
    }
  }

  lemma SettledStays(steps: seq<Step>, now: Instant, i: nat)
    requires i < |steps|
    ensures var next, m := Pass(steps, now), Settle(steps, now);
      |next| == |m| == |steps| && Settle(next, now) == m && (next[i].state != Pending ==> m[i] == next[i])
  {
    PassStep(steps, now);
    SettleStamps(Pass(steps, now), now, i);
  }

  lemma TellsLater(steps: seq<Step>, now: Instant, i: nat, x: (string, Advance))
    ensures var next, m := Pass(steps, now), Settle(steps, now);
      Tells(steps, m, i, x) <==> Tells(steps, next, i, x) || Tells(next, m, i, x)
  {
    if i < |steps| {
      SettledStays(steps, now, i);
      PassStamps(steps, now, i);
    }
  }

  ghost predicate Told(steps: seq<Step>, m: seq<Step>, x: (string, Advance)) { exists i: nat :: Tells(steps, m, i, x) }

  lemma ToldLater(steps: seq<Step>, now: Instant, x: (string, Advance))
    ensures var next, m := Pass(steps, now), Settle(steps, now);
      Told(steps, m, x) <==> Told(steps, next, x) || Told(next, m, x)
  {
    var next, m := Pass(steps, now), Settle(steps, now);
    forall i: nat ensures Tells(steps, m, i, x) <==> Tells(steps, next, i, x) || Tells(next, m, i, x) {
      TellsLater(steps, now, i, x);
    }
  }

  lemma QuietTellsNothing(steps: seq<Step>, now: Instant, x: (string, Advance))
    requires Pass(steps, now) == steps
    ensures SettleMoves(steps, now) == [] && Settle(steps, now) == steps && !Told(steps, steps, x)
  {
  }

  /** The passes report exactly the pending steps that moved, each by the state it moved to. */
  lemma {:induction false} SettleTells(steps: seq<Step>, now: Instant, x: (string, Advance))
    ensures x in SettleMoves(steps, now) <==> Told(steps, Settle(steps, now), x)
    decreases PendingCount(steps)
  {
    var next := Pass(steps, now);
    PassStep(steps, now);
    if next == steps {
      QuietTellsNothing(steps, now, x);
    } else {
      ToldLater(steps, now, x);
      PassTells(steps, now, x);
      SettleTells(next, now, x);
    }
  }

  lemma {:induction false} BreakTells(m: seq<Step>, n: nat, x: (string, Advance))
    requires n <= |m|
    ensures x in BreakMoves(m, n) <==>
      !SomeLive(m) && x.1 == Broken && exists i | 0 <= i < n :: m[i].state == Pending && x.0 == m[i].id
  {
    assert AnyLive(m) <==> SomeLive(m);
    if n > 0 && !SomeLive(m) {
      BreakTells(m, n - 1, x);
      assert x == (x.0, x.1);
    }
  }

  /** The whole report: exactly the pending steps that moved, each called ready, skipped or broken as the
      state it moved to is. */
  lemma ReportIsExact(steps: seq<Step>, now: Instant, x: (string, Advance))
    ensures var m := Settle(steps, now);
      x in SettleMoves(steps, now) + BreakMoves(m, |m|) <==>
      exists i: nat :: Tells(steps, AdvanceAll(steps, now), i, x)
  {
    var m, r := Settle(steps, now), AdvanceAll(steps, now);
    SettleTells(steps, now, x);
    BreakTells(m, |m|, x);
    forall i: nat ensures Tells(steps, r, i, x) <==>
      Tells(steps, m, i, x) || (i < |m| && m[i].state == Pending && !SomeLive(m) && x.0 == m[i].id && x.1 == Broken)
    {
      TellsBroken(steps, now, i, x);
    }
    if !SomeLive(m) && x.1 == Broken {
      if i :| 0 <= i < |m| && m[i].state == Pending && x.0 == m[i].id { assert Tells(steps, r, i, x); }
    }
  }

  lemma TellsBroken(steps: seq<Step>, now: Instant, i: nat, x: (string, Advance))
    ensures var m, r := Settle(steps, now), AdvanceAll(steps, now);
      Tells(steps, r, i, x) <==>
      Tells(steps, m, i, x) || (i < |m| && m[i].state == Pending && !SomeLive(m) && x.0 == m[i].id && x.1 == Broken)
  {
    if i < |steps| {
      SettleStamps(steps, now, i);
      BreakIsExact(steps, now, i);
    }
  }
}
