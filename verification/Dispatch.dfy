/** Handing steps to the fleet: any number of scheduler passes, each dropping its locks between
    choosing a step, claiming it, calling the fleet and settling, interleaved with everything else that
    touches the same jobs.

    What the fair queue grants is left open: a pass may be handed any steps, the same step as another
    pass included. An event that the code could not perform in a state leaves the state as it is. */
module Dispatch {
  import opened JobModel
  import Aggregate
  import Claims
  import Driver
  import Graph
  import Timeouts

  type Ref = (JobId, StepId)
  type PumpId = nat

  datatype Answer = Accepted(node: string) | NoCapacity | Rejected

  /** How far a pass has got with the grant in its hand. */
  datatype Phase =
    | Resting
    | Picked(ref: Ref)
    | HasTree(ref: Ref)
    | Prepared(ref: Ref)
    | HasLease(ref: Ref)
    | Claimed(ref: Ref)
    | Calling(ref: Ref)
    | Full(ref: Ref)
    | Answered(ref: Ref, answer: Answer)

  datatype Pump = Pump(todo: seq<Ref>, phase: Phase)

  datatype Call = Start(ref: Ref) | End(ref: Ref, answer: Answer)

  datatype World = World(
    book: Claims.Book, minted: set<JobId>, leases: set<JobId>, trees: set<JobId>, jobs: map<JobId, seq<Step>>,
    pumps: map<PumpId, Pump>, log: seq<Call>)

  const START := World(Claims.EMPTY, {}, {}, {}, map[], map[], [])

  datatype Event =
    // one scheduler pass
    | Choose(p: PumpId, grants: seq<Ref>)
    | Take(p: PumpId)
    | ReadTree(p: PumpId)
    | ReadJob(p: PumpId)
    | ReadLease(p: PumpId)
    | ClaimStep(p: PumpId)
    | Assign(p: PumpId)
    | Return(p: PumpId, answer: Answer)
    | GiveBack(p: PumpId)
    | Settle(p: PumpId, ttl: nat, now: Instant)
    // everything else
    | Dispatched(key: Claims.TreeKey, proposed: JobId, url: string, at: int, retention: int)
    | Hold(job: JobId)
    | Record(job: JobId)
    | StoreTree(job: JobId)
    | Plan(job: JobId, steps: seq<Step>)
    | Work(job: JobId, clocks: Timeouts.Clocks, event: Driver.Event)
    | Publish(job: JobId, verdict: Aggregate.Status, at: int)
    | DropTree(job: JobId)
    | DropLease(job: JobId)
    | DropRecord(job: JobId)
    | ForgetClaim(job: JobId)

  function PumpOf(w: World, p: PumpId): Pump { if p in w.pumps then w.pumps[p] else Pump([], Resting) }

  function PhaseOf(w: World, p: PumpId): Phase { PumpOf(w, p).phase }

  function Goes(w: World, p: PumpId, phase: Phase): World { w.(pumps := w.pumps[p := PumpOf(w, p).(phase := phase)]) }

  function HasStep(w: World, k: Ref): bool { k.0 in w.jobs && IndexOf(w.jobs[k.0], k.1.text).Some? }

  /** `settle_assignment`: what the fleet's answer does to the step. */
  function SettledSteps(steps: seq<Step>, id: string, a: Answer, ttl: nat, now: Instant): seq<Step> {
    match IndexOf(steps, id)
    case None => steps
    case Some(i) =>
      match a
      case Accepted(node) => steps[i := Driver.LeasedTo(steps[i], node, ttl, now)]
      case NoCapacity => steps
      case Rejected => steps[i := Driver.Refused(steps[i], now)]
  }

  function Settled(w: World, k: Ref, a: Answer, ttl: nat, now: Instant): World {
    if k.0 in w.jobs then w.(jobs := w.jobs[k.0 := SettledSteps(w.jobs[k.0], k.1.text, a, ttl, now)]) else w
  }

  /** Passes, one atomic section at a time. */
  function Pumping(w: World, e: Event): World
    requires e.Choose? || e.Take? || e.ReadTree? || e.ReadJob? || e.ReadLease? || e.ClaimStep? || e.Assign? ||
             e.Return? || e.GiveBack? || e.Settle?
  {
    var pump := PumpOf(w, e.p);
    match (e, pump.phase)
    case (Choose(p, grants), Resting) => if pump.todo == [] then w.(pumps := w.pumps[p := Pump(grants, Resting)]) else w
    case (Take(p), Resting) =>
      if pump.todo == [] then w else w.(pumps := w.pumps[p := Pump(pump.todo[1..], Picked(pump.todo[0]))])
    case (ReadTree(p), Picked(k)) => Goes(w, p, if k.0 in w.trees then HasTree(k) else Resting)
    case (ReadJob(p), HasTree(k)) => Goes(w, p, if HasStep(w, k) then Prepared(k) else Resting)
    case (ReadLease(p), Prepared(k)) => Goes(w, p, if k.0 in w.leases then HasLease(k) else Resting)
    case (ClaimStep(p), HasLease(k)) =>
      var (book, answer) := Claims.ClaimStep(w.book, k.0, k.1);
      (match answer
       case Granted => Goes(w.(book := book), p, Claimed(k))
       case Taken => Goes(w, p, Resting)
       case Fenced => Goes(w.(leases := w.leases - {k.0}), p, Resting))
    case (Assign(p), Claimed(k)) => Goes(w.(log := w.log + [Start(k)]), p, Calling(k))
    case (Return(p, a), Calling(k)) =>
      Goes(w.(log := w.log + [End(k, a)]), p, if a == NoCapacity then Full(k) else Answered(k, a))
    case (GiveBack(p), Full(k)) => Goes(w.(book := Claims.ReleaseStep(w.book, k.0, k.1)), p, Answered(k, NoCapacity))
    case (Settle(p, ttl, now), Answered(k, a)) => Goes(Settled(w, k, a, ttl, now), p, Resting)
    case _ => w
  }

  function Apply(w: World, e: Event): World {
    match e
    case Dispatched(key, proposed, url, at, retention) =>
      if proposed in w.minted then w
      else w.(book := Claims.Admit(w.book, key, proposed, url, at, retention).0, minted := w.minted + {proposed})
    case Hold(j) => if j in w.minted then w.(leases := w.leases + {j}) else w
    case Record(j) => if j in w.minted && j !in w.jobs then w.(jobs := w.jobs[j := []]) else w
    case StoreTree(j) => w.(trees := w.trees + {j})
    case Plan(j, steps) => if j in w.jobs && Unstarted(steps) then w.(jobs := w.jobs[j := w.jobs[j] + steps]) else w
    case Work(j, clocks, ev) =>
      if j in w.jobs && !ev.Lease? then w.(jobs := w.jobs[j := Driver.Next(clocks, w.jobs[j], ev)]) else w
    case Publish(j, v, at) => w.(book := Claims.Settle(w.book, j, v, at))
    case DropTree(j) => w.(trees := w.trees - {j})
    case DropLease(j) => w.(leases := w.leases - {j})
    case DropRecord(j) => w.(jobs := w.jobs - {j})
    case ForgetClaim(j) => w.(book := Claims.Forget(w.book, j))
    case _ => Pumping(w, e)
  }

  /** Steps as planned: none has been handed out. */
  predicate Unstarted(steps: seq<Step>) { forall i | 0 <= i < |steps| :: steps[i].attempt == 0 }

  ghost function Run(events: seq<Event>): World {
    if events == [] then START else Apply(Run(events[..|events| - 1]), events[|events| - 1])
  }

  // ---- What the calls for one step may look like ----

  datatype Line = Free | Busy | Over | Broken

  /** Follow one step's calls: free, then busy during a call; free again after `NoCapacity`, over after
      any other answer. Anything else breaks the rule. */
  function Track(log: seq<Call>, k: Ref): Line {
    if log == [] then Free
    else
      var was, c := Track(log[..|log| - 1], k), log[|log| - 1];
      if c.ref != k then was
      else
        match (was, c)
        case (Free, Start(_)) => Busy
        case (Busy, End(_, NoCapacity)) => Free
        case (Busy, End(_, _)) => Over
        case _ => Broken
  }

  lemma TrackAppend(log: seq<Call>, c: Call, k: Ref)
    ensures c.ref != k ==> Track(log + [c], k) == Track(log, k)
    ensures c == Start(k) && Track(log, k) == Free ==> Track(log + [c], k) == Busy
    ensures c.End? && c.ref == k && Track(log, k) == Busy ==>
      Track(log + [c], k) == if c.answer == NoCapacity then Free else Over
  {
    assert (log + [c])[..|log|] == log;
  }

  lemma {:induction false} NotBrokenBefore(log: seq<Call>, k: Ref, n: nat)
    requires Track(log, k) != Broken && n <= |log|
    ensures Track(log[..n], k) != Broken
    decreases |log| - n
  {
    if n == |log| {
      assert log[..n] == log;
    } else {
      NotBrokenBefore(log, k, n + 1);
      assert log[..n + 1][..n] == log[..n];
    }
  }

  lemma TrackStep(log: seq<Call>, k: Ref, n: nat)
    requires n < |log| && log[n].ref == k && Track(log, k) != Broken
    ensures log[n].Start? ==> Track(log[..n], k) == Free && Track(log[..n + 1], k) == Busy
    ensures log[n].End? ==>
      Track(log[..n], k) == Busy && Track(log[..n + 1], k) == if log[n].answer == NoCapacity then Free else Over
  {
    NotBrokenBefore(log, k, n + 1);
    assert log[..n + 1][..n] == log[..n];
  }

  lemma TrackSkips(log: seq<Call>, k: Ref, n: nat)
    requires n < |log| && log[n].ref != k
    ensures Track(log[..n + 1], k) == Track(log[..n], k)
  {
    assert log[..n + 1][..n] == log[..n];
  }

  /** After a call that was not refused for want of capacity, no further call. */
  lemma {:induction false} OverIsFinal(log: seq<Call>, k: Ref, i: nat, n: nat)
    requires Track(log, k) != Broken && i < n <= |log| && log[i].End? && log[i].ref == k && log[i].answer != NoCapacity
    ensures Track(log[..n], k) == Over
    ensures n < |log| ==> log[n].ref != k
  {
    if n == i + 1 {
      TrackStep(log, k, i);
    } else {
      OverIsFinal(log, k, i, n - 1);
      TrackSkips(log, k, n - 1);
    }
    if n < |log| && log[n].ref == k { TrackStep(log, k, n); }
  }

  ghost predicate RefusedBetween(log: seq<Call>, k: Ref, i: nat, n: nat)
    requires n <= |log|
  {
    exists m | i < m < n :: log[m] == End(k, NoCapacity)
  }

  lemma {:induction false} BusyUntilRefused(log: seq<Call>, k: Ref, i: nat, n: nat)
    requires Track(log, k) != Broken && i < n <= |log| && log[i] == Start(k)
    ensures Track(log[..n], k) != Free || RefusedBetween(log, k, i, n)
  {
    if n == i + 1 {
      TrackStep(log, k, i);
    } else {
      BusyUntilRefused(log, k, i, n - 1);
      if log[n - 1].ref == k { TrackStep(log, k, n - 1); } else { TrackSkips(log, k, n - 1); }
      if log[n - 1] == End(k, NoCapacity) {
        assert RefusedBetween(log, k, i, n);
      } else if RefusedBetween(log, k, i, n - 1) {
        var m :| i < m < n - 1 && log[m] == End(k, NoCapacity);
        assert RefusedBetween(log, k, i, n);
      }
    }
  }

  /** The rule, said without the automaton: between two calls for a step the first was answered
      `NoCapacity`, and an answer of any other kind is the last thing said about it. */
  ghost predicate CallsAreSafe(log: seq<Call>, k: Ref) {
    && (forall i, n | 0 <= i < n < |log| && log[i] == Start(k) && log[n] == Start(k) :: RefusedBetween(log, k, i, n))
    && (forall i, n | 0 <= i < n < |log| && log[i].End? && log[i].ref == k && log[i].answer != NoCapacity ::
       log[n].ref != k)
  }

  lemma TrackedIsSafe(log: seq<Call>, k: Ref)
    requires Track(log, k) != Broken
    ensures CallsAreSafe(log, k)
  {
    forall i, n | 0 <= i < n < |log| && log[i] == Start(k) && log[n] == Start(k) ensures RefusedBetween(log, k, i, n) {
      BusyUntilRefused(log, k, i, n);
      TrackStep(log, k, n);
    }
    forall i, n | 0 <= i < n < |log| && log[i].End? && log[i].ref == k && log[i].answer != NoCapacity
      ensures log[n].ref != k
    {
      OverIsFinal(log, k, i, n);
    }
  }

  // ---- The invariant, one step and pass at a time ----

  /** The pass holds the right to hand the step out, or the final answer to having done so. */
  predicate Holding(ph: Phase, k: Ref) {
    (ph.Claimed? || ph.Calling? || ph.Full? || (ph.Answered? && ph.answer != NoCapacity)) && ph.ref == k
  }

  function LineOf(ph: Phase): Line {
    match ph case Calling(_) => Busy case Answered(_, _) => Over case _ => Free
  }

  /** If the job still has a claim, the claim covers the step. */
  predicate Covered(b: Claims.Book, k: Ref) { k.0 in b.claims ==> k.1 in b.claims[k.0].steps }

  ghost predicate LineAt(w: World, k: Ref) {
    var line := Track(w.log, k);
    && line != Broken && (line != Free ==> Covered(w.book, k))
    && (k.0 !in w.minted ==> line == Free && k.0 !in w.book.claims)
  }

  ghost predicate PumpAt(w: World, p: PumpId, k: Ref) {
    Holding(PhaseOf(w, p), k) ==> k.0 in w.minted && Covered(w.book, k) && Track(w.log, k) == LineOf(PhaseOf(w, p))
  }

  ghost predicate SoloAt(w: World, p: PumpId, q: PumpId, k: Ref) {
    Holding(PhaseOf(w, p), k) && Holding(PhaseOf(w, q), k) ==> p == q
  }

  /** A step handed out has had its one final answer, and no pass is still about to count it again. */
  ghost predicate AttemptAt(w: World, j: JobId, i: nat, p: PumpId) {
    j in w.jobs && i < |w.jobs[j]| ==>
      var s := w.jobs[j][i];
      s.attempt <= 1 && (s.attempt == 1 ==>
          Track(w.log, (j, StepId(s.id))) == Over && !Holding(PhaseOf(w, p), (j, StepId(s.id))))
  }

  ghost predicate Inv(w: World) {
    && (forall k :: LineAt(w, k)) && (forall p, k :: PumpAt(w, p, k)) && (forall p, q, k :: SoloAt(w, p, q, k))
    && (forall j, i, p :: AttemptAt(w, j, i, p))
  }

  // ---- Steps that change no right and make no call ----

  ghost predicate QuietClaim(w: World, r: World, j: JobId) {
    && (j in r.book.claims ==>
       (j in w.book.claims && r.book.claims[j].steps == w.book.claims[j].steps) || j !in w.minted)
    && (j !in r.minted ==> j !in r.book.claims) && (j in w.minted ==> j in r.minted)
  }

  ghost predicate QuietPump(w: World, r: World, p: PumpId) {
    PhaseOf(r, p) == PhaseOf(w, p) || forall k :: !Holding(PhaseOf(r, p), k)
  }

  ghost predicate QuietStep(w: World, r: World, j: JobId, i: nat) {
    j in r.jobs && i < |r.jobs[j]| ==>
      || r.jobs[j][i].attempt == 0
      || (j in w.jobs && i < |w.jobs[j]| && r.jobs[j][i].id == w.jobs[j][i].id &&
         r.jobs[j][i].attempt == w.jobs[j][i].attempt)
  }

  ghost predicate Quiet(w: World, r: World) {
    && r.log == w.log && (forall j :: QuietClaim(w, r, j)) && (forall p :: QuietPump(w, r, p))
    && (forall j, i :: QuietStep(w, r, j, i))
  }

  lemma QuietLine(w: World, r: World, k: Ref)
    requires LineAt(w, k) && r.log == w.log && QuietClaim(w, r, k.0)
    ensures LineAt(r, k)
  {
  }

  lemma QuietHolder(w: World, r: World, p: PumpId, k: Ref)
    requires PumpAt(w, p, k) && r.log == w.log && QuietClaim(w, r, k.0) && QuietPump(w, r, p)
    ensures PumpAt(r, p, k)
  {
  }

  lemma QuietAttempt(w: World, r: World, j: JobId, i: nat, p: PumpId)
    requires AttemptAt(w, j, i, p) && r.log == w.log && QuietPump(w, r, p) && QuietStep(w, r, j, i)
    ensures AttemptAt(r, j, i, p)
  {
  }

  lemma QuietKeeps(w: World, r: World)
    requires Inv(w) && Quiet(w, r)
    ensures Inv(r)
  {
    forall k ensures LineAt(r, k) { assert LineAt(w, k) && QuietClaim(w, r, k.0); QuietLine(w, r, k); }
    forall p, k ensures PumpAt(r, p, k) {
      assert PumpAt(w, p, k) && QuietClaim(w, r, k.0) && QuietPump(w, r, p);
      QuietHolder(w, r, p, k);
    }
    forall p, q, k ensures SoloAt(r, p, q, k) { assert SoloAt(w, p, q, k) && QuietPump(w, r, p) && QuietPump(w, r, q); }
    forall j, i, p ensures AttemptAt(r, j, i, p) {
      assert AttemptAt(w, j, i, p) && QuietPump(w, r, p) && QuietStep(w, r, j, i);
      QuietAttempt(w, r, j, i, p);
    }
  }

  /** Only a pass's place in its list changed, to one where it holds no right. */
  lemma RestingIsQuiet(w: World, r: World, p: PumpId, pump: Pump)
    requires Inv(w) && r.book == w.book && r.minted == w.minted && r.jobs == w.jobs && r.log == w.log
    requires r.pumps == w.pumps[p := pump] && forall k :: !Holding(pump.phase, k)
    ensures Inv(r)
  {
    forall j ensures QuietClaim(w, r, j) { assert LineAt(w, (j, StepId(""))); }
    forall q ensures QuietPump(w, r, q) {}
    forall j, i ensures QuietStep(w, r, j, i) {}
    QuietKeeps(w, r);
  }

  lemma BookIsQuiet(w: World, r: World)
    requires Inv(w) && r.jobs == w.jobs && r.log == w.log && r.pumps == w.pumps && forall j :: QuietClaim(w, r, j)
    ensures Inv(r)
  {
    forall q ensures QuietPump(w, r, q) {}
    forall j, i ensures QuietStep(w, r, j, i) {}
    QuietKeeps(w, r);
  }

  lemma JobsAreQuiet(w: World, r: World)
    requires Inv(w) && r.book == w.book && r.minted == w.minted && r.log == w.log && r.pumps == w.pumps
    requires forall j, i :: QuietStep(w, r, j, i)
    ensures Inv(r)
  {
    forall j ensures QuietClaim(w, r, j) { assert LineAt(w, (j, StepId(""))); }
    forall q ensures QuietPump(w, r, q) {}
    QuietKeeps(w, r);
  }

  lemma DispatchedKeeps(w: World, e: Event)
    requires Inv(w) && e.Dispatched?
    ensures Inv(Apply(w, e))
  {
    var r := Apply(w, e);
    forall j ensures QuietClaim(w, r, j) { assert LineAt(w, (j, StepId(""))); }
    BookIsQuiet(w, r);
  }

  lemma ClaimsKeep(w: World, e: Event)
    requires Inv(w) && (e.Publish? || e.ForgetClaim?)
    ensures Inv(Apply(w, e))
  {
    var r := Apply(w, e);
    forall j ensures QuietClaim(w, r, j) { assert LineAt(w, (j, StepId(""))); }
    BookIsQuiet(w, r);
  }

  // ---- The driver counts no attempt ----

  ghost predicate SameCounts(a: seq<Step>, b: seq<Step>) {
    |a| == |b| && forall i | 0 <= i < |a| :: b[i].id == a[i].id && b[i].attempt == a[i].attempt
  }

  lemma {:induction false} SettleCounts(steps: seq<Step>, now: Instant)
    ensures SameCounts(steps, Graph.Settle(steps, now))
    decreases Graph.PendingCount(steps)
  {
    var next := Graph.Pass(steps, now);
    Graph.PendingShrinks(steps, next);
    if next != steps {
      assert SameCounts(steps, next) by { PassCounts(steps, now); }
      SettleCounts(next, now);
    }
  }

  lemma PassCounts(steps: seq<Step>, now: Instant)
    ensures SameCounts(steps, Graph.Pass(steps, now))
  {
    forall i | 0 <= i < |steps|
      ensures var n := Graph.Pass(steps, now)[i]; n.id == steps[i].id && n.attempt == steps[i].attempt
    {
      assert Graph.Pass(steps, now)[i] == Graph.Advanced(steps[i], steps, now);
    }
  }

  lemma AdvanceCounts(steps: seq<Step>, now: Instant)
    ensures SameCounts(steps, Graph.AdvanceAll(steps, now))
  {
    SettleCounts(steps, now);
    var m, r := Graph.Settle(steps, now), Graph.AdvanceAll(steps, now);
    forall i | 0 <= i < |m| ensures r[i].id == m[i].id && r[i].attempt == m[i].attempt {
      assert r[i] == m[i] || r[i] == Graph.Unstuck(m[i], now);
    }
  }

  lemma HitCounts(s: Step, e: Driver.Event)
    requires !e.Lease?
    ensures Driver.Hit(s, e).id == s.id && Driver.Hit(s, e).attempt == s.attempt
  {
  }

  lemma NextCounts(clocks: Timeouts.Clocks, steps: seq<Step>, e: Driver.Event)
    requires !e.Lease?
    ensures SameCounts(steps, Driver.Next(clocks, steps, e))
  {
    if e.Advance? {
      AdvanceCounts(steps, e.now);
    } else if !e.Sweep? && IndexOf(steps, e.id).Some? {
      HitCounts(steps[IndexOf(steps, e.id).value], e);
    }
  }

  lemma JobsKeep(w: World, e: Event)
    requires Inv(w) && (e.Record? || e.Plan? || e.Work? || e.DropRecord?)
    ensures Inv(Apply(w, e))
  {
    var r := Apply(w, e);
    if e.Work? && e.job in w.jobs && !e.event.Lease? { NextCounts(e.clocks, w.jobs[e.job], e.event); }
    forall j, i ensures QuietStep(w, r, j, i) {}
    JobsAreQuiet(w, r);
  }

  // ---- The steps that matter ----

  /** `r` differs from `w` in one pass's phase, the log and one step's claim. */
  ghost predicate Turn(w: World, r: World, p: PumpId, phase: Phase, k: Ref) {
    && r == w.(book := r.book, log := r.log, pumps := w.pumps[p := PumpOf(w, p).(phase := phase)])
    && forall j :: TurnClaim(w, r, j, k)
  }

  ghost predicate TurnClaim(w: World, r: World, j: JobId, k: Ref) {
    && (j in r.book.claims <==> j in w.book.claims)
    && (j in w.book.claims ==> forall s :: (j, s) != k ==>
       (s in r.book.claims[j].steps <==> s in w.book.claims[j].steps))
  }

  /** The calls of every other step are untouched. */
  ghost predicate TurnLine(w: World, r: World, x: Ref) { Track(r.log, x) == Track(w.log, x) }

  lemma TurnElsewhere(w: World, r: World, p: PumpId, q: PumpId, phase: Phase, k: Ref, x: Ref)
    requires Turn(w, r, p, phase, k) && LineAt(w, x) && PumpAt(w, q, x) && TurnLine(w, r, x) && TurnClaim(w, r, x.0, k)
    requires x != k && !Holding(phase, x)
    ensures LineAt(r, x) && PumpAt(r, q, x)
  {
  }

  /** What has to hold of the step itself for the invariant to survive. */
  lemma TurnKeeps(w: World, r: World, p: PumpId, phase: Phase, k: Ref)
    requires Inv(w) && Turn(w, r, p, phase, k) && (forall x :: x != k ==> TurnLine(w, r, x) && !Holding(phase, x))
    requires LineAt(r, k) && PumpAt(r, p, k)
    requires forall q :: q != p ==> !Holding(PhaseOf(w, q), k)
    requires Track(w.log, k) == Over ==> Track(r.log, k) == Over && (Holding(phase, k) ==> Holding(PhaseOf(w, p), k))
    ensures Inv(r)
  {
    forall x ensures LineAt(r, x) {
      assert LineAt(w, x) && PumpAt(w, p, x) && TurnClaim(w, r, x.0, k);
      if x != k { assert TurnLine(w, r, x); TurnElsewhere(w, r, p, p, phase, k, x); }
    }
    forall q, x ensures PumpAt(r, q, x) {
      assert LineAt(w, x) && PumpAt(w, q, x) && TurnClaim(w, r, x.0, k);
      if x != k {
        assert TurnLine(w, r, x);
        TurnElsewhere(w, r, p, q, phase, k, x);
      } else if q != p {
        assert !Holding(PhaseOf(w, q), k);
      }
    }
    forall q, s, x ensures SoloAt(r, q, s, x) {
      assert SoloAt(w, q, s, x);
      assert x != k ==> !Holding(phase, x);
      assert (q != p ==> !Holding(PhaseOf(w, q), k)) && (s != p ==> !Holding(PhaseOf(w, s), k));
    }
    forall j, i, q ensures AttemptAt(r, j, i, q) {
      assert AttemptAt(w, j, i, q);
      TurnAttempt(w, r, p, q, phase, k, j, i);
    }
  }

  lemma TurnAttempt(w: World, r: World, p: PumpId, q: PumpId, phase: Phase, k: Ref, j: JobId, i: nat)
    requires Turn(w, r, p, phase, k) && AttemptAt(w, j, i, q) &&
             (forall x :: x != k ==> TurnLine(w, r, x) && !Holding(phase, x))
    requires Track(w.log, k) == Over ==> Track(r.log, k) == Over && (Holding(phase, k) ==> Holding(PhaseOf(w, p), k))
    ensures AttemptAt(r, j, i, q)
  {
    if j in w.jobs && i < |w.jobs[j]| {
      var x := (j, StepId(w.jobs[j][i].id));
      assert x != k ==> TurnLine(w, r, x) && !Holding(phase, x);
    }
  }

  lemma ClaimKeeps(w: World, p: PumpId)
    requires Inv(w)
    ensures Inv(Apply(w, ClaimStep(p)))
  {
    var r := Apply(w, ClaimStep(p));
    if PhaseOf(w, p).HasLease? {
      var k := PhaseOf(w, p).ref;
      assert LineAt(w, k);
      if Claims.ClaimStep(w.book, k.0, k.1).1.Granted? {
        forall j ensures TurnClaim(w, r, j, k) {}
        forall x ensures x != k ==> TurnLine(w, r, x) && !Holding(Claimed(k), x) {}
        forall q ensures q != p ==> !Holding(PhaseOf(w, q), k) { assert PumpAt(w, q, k); }
        TurnKeeps(w, r, p, Claimed(k), k);
      } else {
        RestingIsQuiet(w, r, p, PumpOf(w, p).(phase := Resting));
      }
    }
  }

  lemma AssignKeeps(w: World, p: PumpId)
    requires Inv(w)
    ensures Inv(Apply(w, Assign(p)))
  {
    if PhaseOf(w, p).Claimed? {
      var r, k := Apply(w, Assign(p)), PhaseOf(w, p).ref;
      assert LineAt(w, k) && PumpAt(w, p, k);
      forall x ensures x != k ==> TurnLine(w, r, x) && !Holding(Calling(k), x) { TrackAppend(w.log, Start(k), x); }
      TrackAppend(w.log, Start(k), k);
      Alone(w, p, k);
      forall j ensures TurnClaim(w, r, j, k) {}
      TurnKeeps(w, r, p, Calling(k), k);
    }
  }

  lemma Alone(w: World, p: PumpId, k: Ref)
    requires Inv(w) && Holding(PhaseOf(w, p), k)
    ensures forall q :: q != p ==> !Holding(PhaseOf(w, q), k)
  {
    forall q ensures q != p ==> !Holding(PhaseOf(w, q), k) { assert SoloAt(w, p, q, k); }
  }

  lemma ReturnKeeps(w: World, p: PumpId, a: Answer)
    requires Inv(w)
    ensures Inv(Apply(w, Return(p, a)))
  {
    if PhaseOf(w, p).Calling? {
      var r, k := Apply(w, Return(p, a)), PhaseOf(w, p).ref;
      var phase := if a == NoCapacity then Full(k) else Answered(k, a);
      assert LineAt(w, k) && PumpAt(w, p, k);
      forall x ensures x != k ==> TurnLine(w, r, x) && !Holding(phase, x) { TrackAppend(w.log, End(k, a), x); }
      TrackAppend(w.log, End(k, a), k);
      Alone(w, p, k);
      forall j ensures TurnClaim(w, r, j, k) {}
      TurnKeeps(w, r, p, phase, k);
    }
  }

  lemma GiveBackKeeps(w: World, p: PumpId)
    requires Inv(w)
    ensures Inv(Apply(w, GiveBack(p)))
  {
    if PhaseOf(w, p).Full? {
      var r, k := Apply(w, GiveBack(p)), PhaseOf(w, p).ref;
      assert LineAt(w, k) && PumpAt(w, p, k);
      forall x ensures x != k ==> TurnLine(w, r, x) && !Holding(Answered(k, NoCapacity), x) {}
      Alone(w, p, k);
      forall j ensures TurnClaim(w, r, j, k) {}
      TurnKeeps(w, r, p, Answered(k, NoCapacity), k);
    }
  }

  /** The one answer that counts is counted once. */
  lemma SettleKeeps(w: World, p: PumpId, ttl: nat, now: Instant)
    requires Inv(w)
    ensures Inv(Apply(w, Settle(p, ttl, now)))
  {
    if PhaseOf(w, p).Answered? {
      var r, k, a := Apply(w, Settle(p, ttl, now)), PhaseOf(w, p).ref, PhaseOf(w, p).answer;
      var mid := Goes(w, p, Resting);
      if a == NoCapacity {
        RestingIsQuiet(w, r, p, PumpOf(w, p).(phase := Resting));
      } else {
        Alone(w, p, k);
        assert PumpAt(w, p, k);
        RestingIsQuiet(w, mid, p, PumpOf(w, p).(phase := Resting));
        forall x ensures LineAt(r, x) { assert LineAt(mid, x); }
        forall q, x ensures PumpAt(r, q, x) { assert PumpAt(mid, q, x); }
        forall q, s, x ensures SoloAt(r, q, s, x) { assert SoloAt(mid, q, s, x); }
        forall j, i, q ensures AttemptAt(r, j, i, q) {
          assert AttemptAt(w, j, i, p) && AttemptAt(mid, j, i, q);
          SettleAttempt(w, p, ttl, now, j, i, q);
        }
      }
    }
  }

  lemma SettledCounts(steps: seq<Step>, id: string, a: Answer, ttl: nat, now: Instant, i: nat)
    requires i < |steps|
    ensures var r := SettledSteps(steps, id, a, ttl, now);
      && |r| == |steps| && r[i].id == steps[i].id
      && (r[i].attempt == steps[i].attempt || (r[i].attempt == steps[i].attempt + 1 && steps[i].id == id))
  {
  }

  lemma SettleAttempt(w: World, p: PumpId, ttl: nat, now: Instant, j: JobId, i: nat, q: PumpId)
    requires PhaseOf(w, p).Answered? && PhaseOf(w, p).answer != NoCapacity && PumpAt(w, p, PhaseOf(w, p).ref)
    requires AttemptAt(w, j, i, p) && AttemptAt(Goes(w, p, Resting), j, i, q)
    requires forall q :: q != p ==> !Holding(PhaseOf(w, q), PhaseOf(w, p).ref)
    ensures AttemptAt(Apply(w, Settle(p, ttl, now)), j, i, q)
  {
    var k := PhaseOf(w, p).ref;
    if j in w.jobs && i < |w.jobs[j]| {
      SettledCounts(w.jobs[j], k.1.text, PhaseOf(w, p).answer, ttl, now, i);
      assert PhaseOf(Apply(w, Settle(p, ttl, now)), q) == if q == p then Resting else PhaseOf(w, q);
    }
  }

  lemma MovingKeeps(w: World, e: Event)
    requires Inv(w) && (e.Choose? || e.Take? || e.ReadTree? || e.ReadJob? || e.ReadLease?)
    ensures Inv(Apply(w, e))
  {
    var r := Apply(w, e);
    if r != w { RestingIsQuiet(w, r, e.p, PumpOf(r, e.p)); }
  }

  lemma TokensKeep(w: World, e: Event)
    requires Inv(w) && (e.Hold? || e.StoreTree? || e.DropTree? || e.DropLease?)
    ensures Inv(Apply(w, e))
  {
    var r := Apply(w, e);
    forall j, i ensures QuietStep(w, r, j, i) {}
    JobsAreQuiet(w, r);
  }

  lemma ApplyKeeps(w: World, e: Event)
    requires Inv(w)
    ensures Inv(Apply(w, e))
  {
    match e
    case ClaimStep(p) => ClaimKeeps(w, p);
    case Assign(p) => AssignKeeps(w, p);
    case Return(p, a) => ReturnKeeps(w, p, a);
    case GiveBack(p) => GiveBackKeeps(w, p);
    case Settle(p, ttl, now) => SettleKeeps(w, p, ttl, now);
    case Dispatched(_, _, _, _, _) => DispatchedKeeps(w, e);
    case Publish(_, _, _) => ClaimsKeep(w, e);
    case ForgetClaim(_) => ClaimsKeep(w, e);
    case Record(_) => JobsKeep(w, e);
    case Plan(_, _) => JobsKeep(w, e);
    case Work(_, _, _) => JobsKeep(w, e);
    case DropRecord(_) => JobsKeep(w, e);
    case Hold(_) => TokensKeep(w, e);
    case StoreTree(_) => TokensKeep(w, e);
    case DropTree(_) => TokensKeep(w, e);
    case DropLease(_) => TokensKeep(w, e);
    case _ => MovingKeeps(w, e);
  }

  lemma {:induction false} RunKeeps(events: seq<Event>)
    ensures Inv(Run(events))
  {
    if events != [] {
      RunKeeps(events[..|events| - 1]);
      ApplyKeeps(Run(events[..|events| - 1]), events[|events| - 1]);
    }
  }

  /** In every interleaving of any number of passes: calls to the fleet for one step never overlap,
      each after the first follows a `NoCapacity`, and at most one is answered anything else. */
  lemma NoStepRunsTwice(events: seq<Event>, k: Ref)
    ensures CallsAreSafe(Run(events).log, k)
  {
    RunKeeps(events);
    assert LineAt(Run(events), k);
    TrackedIsSafe(Run(events).log, k);
  }

  /** And at most one pass at a time has the right to hand a step out. */
  lemma OneHolder(events: seq<Event>, p: PumpId, q: PumpId, k: Ref)
    requires Holding(PhaseOf(Run(events), p), k) && Holding(PhaseOf(Run(events), q), k)
    ensures p == q
  {
    RunKeeps(events);
    assert SoloAt(Run(events), p, q, k);
  }

  /** So no step is ever on its second attempt. */
  lemma AttemptedAtMostOnce(events: seq<Event>, j: JobId, i: nat)
    requires j in Run(events).jobs && i < |Run(events).jobs[j]|
    ensures Run(events).jobs[j][i].attempt <= 1
  {
    RunKeeps(events);
    assert AttemptAt(Run(events), j, i, 0);
  }
}
