/** The dependency graph: `advance` moves every step its `needs` have unblocked, to a fixpoint, and
    refuses to leave one waiting on nothing. */
module Graph {
  import opened Wrappers
  import opened JobModel

  datatype DepStatus = Satisfied | Blocked | Waiting | Unknown

  function FirstNamed(steps: seq<Step>, name: string): (r: Option<nat>)
    ensures r.Some? ==> r.value < |steps| && steps[r.value].spec.name == name
                        && forall k | 0 <= k < r.value :: steps[k].spec.name != name
    ensures r.None? ==> forall k | 0 <= k < |steps| :: steps[k].spec.name != name
  {
    if steps == [] then None
    else if steps[0].spec.name == name then Some(0)
    else match FirstNamed(steps[1..], name) case None => None case Some(i) => Some(i + 1)
  }

  function StatusOf(name: string, steps: seq<Step>): DepStatus {
    match FirstNamed(steps, name)
    case None => Unknown
    case Some(i) =>
      match steps[i].state
      case Passed => Satisfied
      case Cached => Satisfied
      case Failed => if steps[i].spec.continueOnError then Satisfied else Blocked
      case Errored => Blocked
      case Skipped => Blocked
      case _ => Waiting
  }

  datatype Gate = GateReady | GateSkip | GateWait | GateUndeclared

  predicate Any(needs: seq<string>, steps: seq<Step>, status: DepStatus) {
    exists k | 0 <= k < |needs| :: StatusOf(needs[k], steps) == status
  }

  /** What a step's `needs` say about it: an undeclared need outranks a blocked one, which outranks an
      unfinished one. */
  function GateOf(needs: seq<string>, steps: seq<Step>): Gate {
    if Any(needs, steps, Unknown) then GateUndeclared
    else if Any(needs, steps, Blocked) then GateSkip
    else if Any(needs, steps, Waiting) then GateWait
    else GateReady
  }

  lemma AnyNext(needs: seq<string>, k: nat, steps: seq<Step>, status: DepStatus)
    requires k < |needs|
    ensures Any(needs[..k + 1], steps, status) <==>
      Any(needs[..k], steps, status) || StatusOf(needs[k], steps) == status
  {
    assert needs[..k + 1] == needs[..k] + [needs[k]];
    if Any(needs[..k], steps, status) {
      var j :| 0 <= j < k && StatusOf(needs[..k][j], steps) == status;
      assert needs[..k + 1][j] == needs[..k][j];
    }
    assert needs[..k + 1][k] == needs[k];
  }

  method GateFor(needs: seq<string>, steps: seq<Step>) returns (g: Gate)
    ensures g == GateOf(needs, steps)
  {
    var blocked, waiting := false, false;
    for k := 0 to |needs|
      invariant blocked == Any(needs[..k], steps, Blocked) && waiting == Any(needs[..k], steps, Waiting)
      invariant !Any(needs[..k], steps, Unknown)
    {
      AnyNext(needs, k, steps, Blocked);
      AnyNext(needs, k, steps, Waiting);
      AnyNext(needs, k, steps, Unknown);
      match StatusOf(needs[k], steps)
      case Unknown => return GateUndeclared;
      case Blocked => blocked := true;
      case Waiting => waiting := true;
      case Satisfied =>
    }
    assert needs[..|needs|] == needs;
    g := if blocked then GateSkip else if waiting then GateWait else GateReady;
  }

  datatype Advance = MadeReady | MadeSkipped | Broken

  function ErrorInfra(s: Step, now: Instant): Step {
    match s.Transition(Errored)
    case None => s
    case Some(t) => t.(errorReason := Some(Infra), finishedAt := Some(now))
  }

  /** The decision for one step, taken against the snapshot: only a pending step has one. */
  function DecisionFor(s: Step, snapshot: seq<Step>): Gate {
    if s.state == Pending then GateOf(s.spec.needs, snapshot) else GateWait
  }

  function Applied(s: Step, g: Gate, now: Instant): Step {
    match g
    case GateWait => s
    case GateReady => s.(state := Ready, readyAt := Some(now))
    case GateSkip => s.(state := Skipped, finishedAt := Some(now))
    case GateUndeclared => ErrorInfra(s, now)
  }

  function Advanced(s: Step, snapshot: seq<Step>, now: Instant): Step { Applied(s, DecisionFor(s, snapshot), now) }

  function Pass(steps: seq<Step>, now: Instant): (r: seq<Step>)
    ensures |r| == |steps| && forall i | 0 <= i < |r| :: r[i] == Advanced(steps[i], steps, now)
  {
    seq(|steps|, i requires 0 <= i < |steps| => Advanced(steps[i], steps, now))
  }

  function PendingCount(steps: seq<Step>): nat {
    if steps == [] then 0 else (if steps[0].state == Pending then 1 else 0) + PendingCount(steps[1..])
  }

  lemma {:induction false} PendingShrinks(a: seq<Step>, b: seq<Step>)
    requires |a| == |b| && forall i | 0 <= i < |a| :: b[i] == a[i] || (a[i].state == Pending && b[i].state != Pending)
    ensures PendingCount(b) <= PendingCount(a)
    ensures a != b ==> PendingCount(b) < PendingCount(a)
  {
    if a != [] { PendingShrinks(a[1..], b[1..]); }
  }

  /** Passes repeated until one changes nothing. */
  function Settle(steps: seq<Step>, now: Instant): (r: seq<Step>)
    ensures |r| == |steps| && Pass(r, now) == r
    decreases PendingCount(steps)
  {
    var next := Pass(steps, now);
    PendingShrinks(steps, next);
    if next == steps then steps else Settle(next, now)
  }

  predicate AnyLive(steps: seq<Step>) { exists i | 0 <= i < |steps| :: steps[i].state.Live() }

  function Unstuck(s: Step, now: Instant): Step { if s.state == Pending then ErrorInfra(s, now) else s }

  /** With nothing live, whatever is still pending is waiting on itself. */
  function BreakCycles(steps: seq<Step>, now: Instant): (r: seq<Step>)
    ensures |r| == |steps|
    ensures forall i | 0 <= i < |r| :: r[i] == if AnyLive(steps) then steps[i] else Unstuck(steps[i], now)
  {
    seq(|steps|, i requires 0 <= i < |steps| => if AnyLive(steps) then steps[i] else Unstuck(steps[i], now))
  }

  function AdvanceAll(steps: seq<Step>, now: Instant): seq<Step> { BreakCycles(Settle(steps, now), now) }

  // ---- The loop over the slice ----

  function MoveFor(g: Gate): Advance
    requires g != GateWait
  {
    match g case GateReady => MadeReady case GateSkip => MadeSkipped case GateUndeclared => Broken
  }

  type Moves = seq<(string, Advance)>

  function Joined(parts: seq<Moves>): Moves {
    if parts == [] then [] else Joined(parts[..|parts| - 1]) + parts[|parts| - 1]
  }

  /** What each step of a pass reports. */
  function Parts(steps: seq<Step>): (parts: seq<Moves>)
    ensures |parts| == |steps| && forall i | 0 <= i < |steps| :: parts[i] == MovesOf(steps[i], steps)
  {
    seq(|steps|, i requires 0 <= i < |steps| => MovesOf(steps[i], steps))
  }

  function PassMoves(steps: seq<Step>, n: nat): Moves
    requires n <= |steps|
  {
    Joined(Parts(steps)[..n])
  }

  lemma JoinedNext(parts: seq<Moves>, i: nat)
    requires i < |parts|
    ensures Joined(parts[..i + 1]) == Joined(parts[..i]) + parts[i]
  {
    assert parts[..i + 1][..i] == parts[..i];
  }

  lemma {:induction false} JoinedEmpty(parts: seq<Moves>)
    ensures Joined(parts) == [] <==> forall i | 0 <= i < |parts| :: parts[i] == []
  {
    if parts != [] {
      JoinedEmpty(parts[..|parts| - 1]);
      assert |Joined(parts)| == |Joined(parts[..|parts| - 1])| + |parts[|parts| - 1]|;
    }
  }

  lemma PassMovesNext(steps: seq<Step>, i: nat)
    requires i < |steps|
    ensures PassMoves(steps, i + 1) == PassMoves(steps, i) + MovesOf(steps[i], steps)
  {
    JoinedNext(Parts(steps), i);
  }

  function MovesOf(s: Step, snapshot: seq<Step>): Moves {
    var g := DecisionFor(s, snapshot); if g == GateWait then [] else [(s.id, MoveFor(g))]
  }

  function SettleMoves(steps: seq<Step>, now: Instant): Moves
    decreases PendingCount(steps)
  {
    var next := Pass(steps, now);
    PendingShrinks(steps, next);
    if next == steps then [] else PassMoves(steps, |steps|) + SettleMoves(next, now)
  }

  function BreakMoves(steps: seq<Step>, n: nat): Moves
    requires n <= |steps|
  {
    if n == 0 || AnyLive(steps) then []
    else BreakMoves(steps, n - 1) + if steps[n - 1].state == Pending then [(steps[n - 1].id, Broken)] else []
  }

  lemma QuietPass(steps: seq<Step>, now: Instant)
    ensures PassMoves(steps, |steps|) == [] <==> Pass(steps, now) == steps
  {
    var next, parts := Pass(steps, now), Parts(steps);
    assert parts[..|steps|] == parts;
    JoinedEmpty(parts);
    forall i | 0 <= i < |steps| ensures next[i] == steps[i] <==> parts[i] == [] { QuietStep(steps[i], steps, now); }
    SameIffEach(next, steps);
  }

  lemma SameIffEach(a: seq<Step>, b: seq<Step>)
    requires |a| == |b|
    ensures a == b <==> forall i | 0 <= i < |a| :: a[i] == b[i]
  {
  }

  lemma QuietStep(s: Step, snapshot: seq<Step>, now: Instant)
    ensures Advanced(s, snapshot, now) == s <==> MovesOf(s, snapshot) == []
    ensures Advanced(s, snapshot, now) == s && s.state == Pending ==> GateOf(s.spec.needs, snapshot) == GateWait
  {
  }

  lemma PassStep(steps: seq<Step>, now: Instant)
    ensures var next := Pass(steps, now);
      && (PassMoves(steps, |steps|) == [] <==> next == steps)
      && (next != steps ==> PendingCount(next) < PendingCount(steps))
      && Settle(next, now) == Settle(steps, now)
      && SettleMoves(steps, now) == PassMoves(steps, |steps|) + SettleMoves(next, now)
  {
    var next := Pass(steps, now);
    PendingShrinks(steps, next);
    QuietPass(steps, now);
  }

  method Advancing(steps: array<Step>, now: Instant) returns (moved: Moves)
    modifies steps
    ensures steps[..] == AdvanceAll(old(steps[..]), now)
    ensures moved == SettleMoves(old(steps[..]), now) +
                     var m := Settle(old(steps[..]), now); BreakMoves(m, |m|)
  {
    moved := Settling(steps, now);
    var live := HasLive(steps);
    ghost var m := steps[..];
    if !live {
      var more := ErrorPending(steps, now);
      moved := moved + more;
    } else {
      assert BreakCycles(m, now) == m && BreakMoves(m, |m|) == [];
    }
  }

  method HasLive(steps: array<Step>) returns (live: bool)
    ensures live == AnyLive(steps[..])
  {
    for i := 0 to steps.Length
      invariant forall k | 0 <= k < i :: !steps[k].state.Live()
    {
      if steps[i].state.Live() {
        assert steps[..][i].state.Live();
        return true;
      }
    }
    return false;
  }

  method Settling(steps: array<Step>, now: Instant) returns (moved: Moves)
    modifies steps
    ensures steps[..] == Settle(old(steps[..]), now)
    ensures moved == SettleMoves(old(steps[..]), now)
  {
    moved := [];
    var changed := true;
    ghost var start, here := steps[..], steps[..];
    while changed
      invariant here == steps[..] && SettlesFrom(start, here, moved, now) && (!changed ==> Pass(here, now) == here)
      decreases PendingCount(here), changed
    {
      SettleStep(start, here, moved, now);
      var more := OnePass(steps, now);
      here := Pass(here, now);
      changed := more != [];
      moved := moved + more;
    }
  }

  /** Passes from `start` have reached `here` and reported `moved`: the rest will give the same fixpoint. */
  ghost predicate SettlesFrom(start: seq<Step>, here: seq<Step>, moved: Moves, now: Instant) {
    Settle(here, now) == Settle(start, now) && moved + SettleMoves(here, now) == SettleMoves(start, now)
  }

  lemma SettleStep(start: seq<Step>, here: seq<Step>, moved: Moves, now: Instant)
    requires SettlesFrom(start, here, moved, now)
    ensures SettlesFrom(start, Pass(here, now), moved + PassMoves(here, |here|), now)
    ensures PassMoves(here, |here|) == [] <==> Pass(here, now) == here
    ensures Pass(here, now) != here ==> PendingCount(Pass(here, now)) < PendingCount(here)
  {
    PassStep(here, now);
    Regroup(moved, PassMoves(here, |here|), SettleMoves(Pass(here, now), now));
  }

  lemma Regroup(a: Moves, b: Moves, c: Moves)
    ensures (a + b) + c == a + (b + c)
  {
  }

  method Decide(s: Step, snapshot: seq<Step>) returns (g: Gate)
    ensures g == DecisionFor(s, snapshot)
  {
    g := GateWait;
    if s.state == Pending { g := GateFor(s.spec.needs, snapshot); }
  }

  method AdvanceOne(steps: array<Step>, i: nat, snapshot: seq<Step>, now: Instant) returns (more: Moves)
    requires i < steps.Length == |snapshot| && steps[i] == snapshot[i]
    modifies steps
    ensures steps[i] == Pass(snapshot, now)[i] && more == MovesOf(snapshot[i], snapshot)
    ensures forall k | 0 <= k < steps.Length && k != i :: steps[k] == old(steps[k])
  {
    more := [];
    var s := steps[i];
    var gate := Decide(s, snapshot);
    if gate != GateWait {
      more := [(s.id, MoveFor(gate))];
      steps[i] := Applied(s, gate, now);
    }
  }

  method OnePass(steps: array<Step>, now: Instant) returns (moved: Moves)
    modifies steps
    ensures steps[..] == Pass(old(steps[..]), now)
    ensures moved == PassMoves(old(steps[..]), steps.Length)
  {
    var snapshot := steps[..];
    ghost var next := Pass(snapshot, now);
    moved := [];
    for i := 0 to steps.Length
      invariant forall k | 0 <= k < i :: steps[k] == next[k]
      invariant forall k | i <= k < steps.Length :: steps[k] == snapshot[k]
      invariant moved == PassMoves(snapshot, i)
    {
      var more := AdvanceOne(steps, i, snapshot, now);
      PassMovesNext(snapshot, i);
      moved := moved + more;
    }
  }

  method ErrorPending(steps: array<Step>, now: Instant) returns (moved: Moves)
    requires !AnyLive(steps[..])
    modifies steps
    ensures steps[..] == BreakCycles(old(steps[..]), now)
    ensures moved == BreakMoves(old(steps[..]), steps.Length)
  {
    ghost var before := steps[..];
    moved := [];
    for i := 0 to steps.Length
      invariant forall k | 0 <= k < i :: steps[k] == Unstuck(before[k], now)
      invariant forall k | i <= k < steps.Length :: steps[k] == before[k]
      invariant moved == BreakMoves(before, i)
    {
      if steps[i].state == Pending {
        steps[i] := ErrorInfra(steps[i], now);
        moved := moved + [(steps[i].id, Broken)];
      }
    }
  }

  // ---- What the fixpoint is ----

  /** Same steps, further along: settled steps are untouched. */
  ghost predicate Extends(a: seq<Step>, b: seq<Step>) {
    && |a| == |b|
    && forall i | 0 <= i < |a| ::
       a[i].id == b[i].id && a[i].spec == b[i].spec && (a[i].state != Pending ==> b[i] == a[i])
  }

  lemma {:induction false} NamesKept(a: seq<Step>, b: seq<Step>, name: string)
    requires |a| == |b| && forall i | 0 <= i < |a| :: a[i].spec == b[i].spec
    ensures FirstNamed(a, name) == FirstNamed(b, name)
  {
    if a != [] { NamesKept(a[1..], b[1..], name); }
  }

  lemma StatusStable(a: seq<Step>, b: seq<Step>, name: string)
    requires Extends(a, b)
    ensures StatusOf(name, a) != Waiting ==> StatusOf(name, b) == StatusOf(name, a)
    ensures StatusOf(name, b) == Unknown ==> StatusOf(name, a) == Unknown
  {
    NamesKept(a, b, name);
  }

  /** A gate that has opened or shut stays that way. */
  lemma GateStable(a: seq<Step>, b: seq<Step>, needs: seq<string>)
    requires Extends(a, b) && GateOf(needs, a) != GateWait
    ensures GateOf(needs, b) == GateOf(needs, a)
  {
    forall k | 0 <= k < |needs|
      ensures StatusOf(needs[k], a) != Waiting ==> StatusOf(needs[k], b) == StatusOf(needs[k], a)
      ensures StatusOf(needs[k], b) == Unknown ==> StatusOf(needs[k], a) == Unknown
    {
      StatusStable(a, b, needs[k]);
    }
  }

  function StateFor(g: Gate): StepState {
    match g case GateReady => Ready case GateSkip => Skipped case GateUndeclared => Errored case GateWait => Pending
  }

  /** Every step that has moved since `start` is where the graph of `now` puts it. */
  ghost predicate Explained(start: seq<Step>, steps: seq<Step>) {
    && Extends(start, steps)
    && forall i | 0 <= i < |start| && start[i].state == Pending && steps[i].state != Pending ::
         steps[i].state == StateFor(GateOf(steps[i].spec.needs, steps))
  }

  lemma PassExtends(steps: seq<Step>, now: Instant)
    ensures Extends(steps, Pass(steps, now))
  {
  }

  lemma PassExplains(start: seq<Step>, steps: seq<Step>, now: Instant)
    requires Explained(start, steps)
    ensures Explained(start, Pass(steps, now))
  {
    var next := Pass(steps, now);
    PassExtends(steps, now);
    forall i | 0 <= i < |start| && start[i].state == Pending && next[i].state != Pending
      ensures next[i].state == StateFor(GateOf(next[i].spec.needs, next))
    {
      var g := GateOf(steps[i].spec.needs, steps);
      assert steps[i].state == Pending ==> next[i].state == StateFor(g);
      assert g != GateWait;
      GateStable(steps, next, steps[i].spec.needs);
    }
  }

  lemma {:induction false} SettleExplains(start: seq<Step>, steps: seq<Step>, now: Instant)
    requires Explained(start, steps)
    ensures Explained(start, Settle(steps, now))
    decreases PendingCount(steps)
  {
    var next := Pass(steps, now);
    PendingShrinks(steps, next);
    if next != steps {
      PassExplains(start, steps, now);
      SettleExplains(start, next, now);
    }
  }

  /** The exact fixpoint: a step that was pending is ready just when all its needs are satisfied,
      skipped just when one is blocked, errored just when one is undeclared, and still pending just
      when it waits on an unfinished one; every other step is untouched. */
  lemma FixpointIsExact(steps: seq<Step>, now: Instant)
    ensures var m := Settle(steps, now);
      && Extends(steps, m)
      && forall i | 0 <= i < |steps| && steps[i].state == Pending :: m[i].state == StateFor(GateOf(m[i].spec.needs, m))
  {
    SettleExplains(steps, steps, now);
    var m := Settle(steps, now);
    forall i | 0 <= i < |steps| && steps[i].state == Pending
      ensures m[i].state == StateFor(GateOf(m[i].spec.needs, m))
    {
      assert Pass(m, now)[i] == Advanced(m[i], m, now);
      QuietStep(m[i], m, now);
    }
  }

  /** A fixpoint does not depend on the clock. */
  lemma FixpointAtAnyTime(steps: seq<Step>, now: Instant, later: Instant)
    requires Pass(steps, now) == steps
    ensures Pass(steps, later) == steps && Settle(steps, later) == steps
  {
    forall i | 0 <= i < |steps| ensures Pass(steps, later)[i] == steps[i] {
      assert Pass(steps, now)[i] == Advanced(steps[i], steps, now);
    }
  }

  /** Nothing is left pending unless something live can still unblock it. */
  lemma PendingOnlyWhileLive(steps: seq<Step>, now: Instant)
    ensures var r := AdvanceAll(steps, now);
      (exists i | 0 <= i < |r| :: r[i].state == Pending) ==> AnyLive(r)
  {
    var m, r := Settle(steps, now), AdvanceAll(steps, now);
    if AnyLive(m) { assert r == m; }
  }

  /** Advancing an advanced plan changes nothing and reports nothing. */
  lemma AdvanceIdempotent(steps: seq<Step>, now: Instant, later: Instant)
    ensures var r := AdvanceAll(steps, now);
      AdvanceAll(r, later) == r && SettleMoves(r, later) == [] && BreakMoves(Settle(r, later), |r|) == []
  {
    var m, r := Settle(steps, now), AdvanceAll(steps, now);
    if AnyLive(m) {
      assert r == m;
    } else {
      forall i | 0 <= i < |r| ensures r[i].state != Pending { assert r[i] == Unstuck(m[i], now); }
      assert Pass(r, now) == r;
    }
    FixpointAtAnyTime(r, now, later);
    NothingToBreak(r, |r|);
    assert BreakCycles(r, later) == r;
  }

  lemma {:induction false} NothingToBreak(steps: seq<Step>, n: nat)
    requires n <= |steps| && (AnyLive(steps) || forall i | 0 <= i < |steps| :: steps[i].state != Pending)
    ensures BreakMoves(steps, n) == []
  {
    if n > 0 && !AnyLive(steps) { NothingToBreak(steps, n - 1); }
  }

  /** Every need is declared by an earlier step, as the planner guarantees. */
  ghost predicate DeclaredInOrder(steps: seq<Step>) {
    forall i, k | 0 <= i < |steps| && 0 <= k < |steps[i].spec.needs| :: DeclaredBefore(steps, i, steps[i].spec.needs[k])
  }

  ghost predicate DeclaredBefore(steps: seq<Step>, i: nat, name: string)
    requires i <= |steps|
  {
    exists j | 0 <= j < i :: steps[j].spec.name == name
  }

  lemma {:induction false} LeastPendingIsFree(steps: seq<Step>, i: nat)
    requires DeclaredInOrder(steps) && i < |steps| && steps[i].state == Pending
    requires !AnyLive(steps)
    ensures exists j | 0 <= j < |steps| :: steps[j].state == Pending && GateOf(steps[j].spec.needs, steps) != GateWait
    decreases i
  {
    var needs := steps[i].spec.needs;
    if GateOf(needs, steps) == GateWait {
      var k :| 0 <= k < |needs| && StatusOf(needs[k], steps) == Waiting;
      assert DeclaredBefore(steps, i, steps[i].spec.needs[k]);
      var f := FirstNamed(steps, needs[k]).value;
      LeastPendingIsFree(steps, f);
    }
  }

  /** Nothing in the report calls a step broken. */
  ghost predicate NoneBroken(moves: Moves) { forall k | 0 <= k < |moves| :: moves[k].1 != Broken }

  lemma {:induction false} PassBreaksNone(steps: seq<Step>, n: nat)
    requires DeclaredInOrder(steps) && n <= |steps|
    ensures NoneBroken(PassMoves(steps, n))
  {
    if n > 0 {
      PassBreaksNone(steps, n - 1);
      PassMovesNext(steps, n - 1);
      NeedsAreDeclared(steps, n - 1);
    }
  }

  lemma {:induction false} SettleBreaksNone(steps: seq<Step>, now: Instant)
    requires DeclaredInOrder(steps)
    ensures NoneBroken(SettleMoves(steps, now))
    decreases PendingCount(steps)
  {
    var next := Pass(steps, now);
    PendingShrinks(steps, next);
    if next != steps {
      PassExtends(steps, now);
      StillInOrder(steps, next);
      SettleBreaksNone(next, now);
      PassBreaksNone(steps, |steps|);
    }
  }

  /** On a plan declared in order, whatever state its steps are in, nothing is ever called broken: no step
      newly errs, and nothing is reported broken. */
  lemma NeverBroken(steps: seq<Step>, now: Instant)
    requires DeclaredInOrder(steps)
    ensures var m := Settle(steps, now);
      && AdvanceAll(steps, now) == m
      && (forall i | 0 <= i < |steps| && steps[i].state == Pending :: m[i].state != Errored)
      && NoneBroken(SettleMoves(steps, now)) && BreakMoves(m, |m|) == []
  {
    var m := Settle(steps, now);
    FixpointIsExact(steps, now);
    StillInOrder(steps, m);
    forall i | 0 <= i < |m| ensures GateOf(m[i].spec.needs, m) != GateUndeclared { NeedsAreDeclared(m, i); }
    if !AnyLive(m) {
      forall i | 0 <= i < |m| ensures m[i].state != Pending {
        if m[i].state == Pending { LeastPendingIsFree(m, i); }
      }
    }
    assert BreakCycles(m, now) == m;
    NothingToBreak(m, |m|);
    SettleBreaksNone(steps, now);
  }

  lemma StillInOrder(steps: seq<Step>, m: seq<Step>)
    requires DeclaredInOrder(steps) && Extends(steps, m)
    ensures DeclaredInOrder(m)
  {
    forall i, k | 0 <= i < |m| && 0 <= k < |m[i].spec.needs|
      ensures DeclaredBefore(m, i, m[i].spec.needs[k])
    {
      assert steps[i].spec == m[i].spec;
      assert DeclaredBefore(steps, i, steps[i].spec.needs[k]);
      var j :| 0 <= j < i && steps[j].spec.name == steps[i].spec.needs[k];
      assert m[j].spec == steps[j].spec;
    }
  }

  lemma NeedsAreDeclared(steps: seq<Step>, i: nat)
    requires DeclaredInOrder(steps) && i < |steps|
    ensures GateOf(steps[i].spec.needs, steps) != GateUndeclared
  {
    var needs := steps[i].spec.needs;
    forall k | 0 <= k < |needs| ensures StatusOf(needs[k], steps) != Unknown {
      assert DeclaredBefore(steps, i, steps[i].spec.needs[k]);
    }
  }
}
