/** What one grant comes to in a pass that no one interrupts: when its step is handed out, and what each
    answer of the fleet leaves behind. */
module DispatchLaws {
  import opened Wrappers
  import opened JobModel
  import Claims
  import opened Dispatch

  /** A grant's way to the fleet. */
  ghost function HandOut(w: World, p: PumpId): World {
    Apply(Apply(Apply(Apply(Apply(w, ReadTree(p)), ReadJob(p)), ReadLease(p)), ClaimStep(p)), Assign(p))
  }

  /** The tree is stored, the job's record has the step, this process holds its lease, and its claim is there
      with the step not taken. */
  ghost predicate CanGo(w: World, k: Ref) {
    && k.0 in w.trees && k.0 in w.leases
    && k.0 in w.jobs && (exists i :: 0 <= i < |w.jobs[k.0]| && w.jobs[k.0][i].id == k.1.text)
    && k.0 in w.book.claims && k.1 !in w.book.claims[k.0].steps
  }

  /** Stopped short of the fleet: no call is made, no claim is changed and the pass goes on to its next grant.
      A lease whose claim is gone is given up. */
  ghost predicate Stopped(w: World, r: World, p: PumpId, k: Ref) {
    && PhaseOf(r, p) == Resting && PumpOf(r, p).todo == PumpOf(w, p).todo
    && r.log == w.log && r.book == w.book && r.jobs == w.jobs && r.trees == w.trees && r.minted == w.minted
    && (r.leases == w.leases || (k.0 !in w.book.claims && r.leases == w.leases - {k.0}))
  }

  /** Called: the fleet is asked, once, with the step claimed. */
  ghost predicate Called(w: World, r: World, p: PumpId, k: Ref) {
    && PhaseOf(r, p) == Calling(k) && r.log == w.log + [Start(k)]
    && k.0 in r.book.claims && k.1 in r.book.claims[k.0].steps && r.jobs == w.jobs && r.leases == w.leases
  }

  lemma HasStepIff(w: World, k: Ref)
    ensures HasStep(w, k) <==> k.0 in w.jobs && exists i :: 0 <= i < |w.jobs[k.0]| && w.jobs[k.0][i].id == k.1.text
  {
  }

  /** The three lookups that come first. */
  ghost predicate LooksReady(w: World, k: Ref) { k.0 in w.trees && HasStep(w, k) && k.0 in w.leases }

  lemma LooksUp(w: World, p: PumpId, k: Ref)
    requires PhaseOf(w, p) == Picked(k)
    ensures var r := Apply(Apply(Apply(w, ReadTree(p)), ReadJob(p)), ReadLease(p));
      r == Goes(w, p, if LooksReady(w, k) then HasLease(k) else Resting)
  {
    var a := Apply(w, ReadTree(p));
    var b := Apply(a, ReadJob(p));
    var c := Apply(b, ReadLease(p));
    assert a == Goes(w, p, if k.0 in w.trees then HasTree(k) else Resting);
    assert b == Goes(w, p, if k.0 in w.trees && HasStep(w, k) then Prepared(k) else Resting);
  }

  /** A granted step is handed to the fleet exactly when it can go; otherwise nothing is asked of the fleet. */
  lemma HandedOutIff(w: World, p: PumpId, k: Ref)
    requires PhaseOf(w, p) == Picked(k)
    ensures var r := HandOut(w, p); if CanGo(w, k) then Called(w, r, p, k) else Stopped(w, r, p, k)
  {
    LooksUp(w, p, k);
    HasStepIff(w, k);
    ClaimsAndCalls(w, p, k);
  }

  lemma ClaimsAndCalls(w: World, p: PumpId, k: Ref)
    requires PhaseOf(w, p) == Picked(k)
    ensures var m := Goes(w, p, if LooksReady(w, k) then HasLease(k) else Resting);
      var r := Apply(Apply(m, ClaimStep(p)), Assign(p));
      if LooksReady(w, k) && k.0 in w.book.claims && k.1 !in w.book.claims[k.0].steps then Called(w, r, p, k)
      else Stopped(w, r, p, k)
  {
  }

  // ---- What the answer leaves ----

  /** The fleet's answer, seen through. */
  ghost function Answer(w: World, p: PumpId, a: Dispatch.Answer, ttl: nat, now: Instant): World {
    var r := Apply(w, Return(p, a));
    Apply(if a == NoCapacity then Apply(r, GiveBack(p)) else r, Settle(p, ttl, now))
  }

  /** A fleet with no room leaves the step as it was, and free to be claimed again. */
  lemma NoRoomGivesBack(w: World, p: PumpId, k: Ref, ttl: nat, now: Instant)
    requires PhaseOf(w, p) == Calling(k)
    ensures var r := Answer(w, p, NoCapacity, ttl, now);
      && PhaseOf(r, p) == Resting && r.log == w.log + [End(k, NoCapacity)] && r.jobs == w.jobs
      && (k.0 in r.book.claims <==> k.0 in w.book.claims)
      && (k.0 in w.book.claims ==> r.book.claims[k.0].steps == w.book.claims[k.0].steps - {k.1})
  {
    var m := Apply(Apply(w, Return(p, NoCapacity)), GiveBack(p));
    assert m.jobs == w.jobs && PhaseOf(m, p) == Answered(k, NoCapacity);
    if k.0 in w.jobs { SameSteps(w, k, ttl, now); }
  }

  lemma SameSteps(w: World, k: Ref, ttl: nat, now: Instant)
    requires k.0 in w.jobs
    ensures w.jobs[k.0 := SettledSteps(w.jobs[k.0], k.1.text, NoCapacity, ttl, now)] == w.jobs
  {
  }

  /** What settling an answer does to everything but the steps of the job it is for. */
  lemma SettleMoves(m: World, p: PumpId, k: Ref, a: Dispatch.Answer, ttl: nat, now: Instant)
    requires PhaseOf(m, p) == Answered(k, a) && k.0 in m.jobs
    ensures var r := Apply(m, Settle(p, ttl, now));
      && PhaseOf(r, p) == Resting && r.log == m.log && r.book == m.book
      && r.jobs == m.jobs[k.0 := SettledSteps(m.jobs[k.0], k.1.text, a, ttl, now)]
  {
  }

  lemma ReturnMoves(w: World, p: PumpId, k: Ref, a: Dispatch.Answer)
    requires PhaseOf(w, p) == Calling(k) && a != NoCapacity
    ensures var m := Apply(w, Return(p, a));
      PhaseOf(m, p) == Answered(k, a) && m.jobs == w.jobs && m.book == w.book && m.log == w.log + [End(k, a)]
  {
  }

  /** The step the answer is for. */
  ghost predicate Named(steps: seq<Step>, id: string, i: nat) {
    i < |steps| && steps[i].id == id && forall m | 0 <= m < i :: steps[m].id != id
  }

  /** A ready step that was accepted is leased to the node that took it, for its first attempt or one more, and
      its wall clock starts; one that was refused is errored unless it is over. */
  function AfterAnswer(s: Step, a: Dispatch.Answer, ttl: nat, now: Instant): Step {
    if a.Accepted? && s.state == Ready then
      s.(state := Leased, nodeId := Some(a.node), attempt := s.attempt + 1, startedAt := Some(now),
         leaseExpiresAt := Some(now + ttl))
    else if a.Rejected? && s.state in {Pending, Ready, Leased, Running} then
      s.(state := Errored, errorReason := Some(Infra), finishedAt := Some(now))
    else s
  }

  lemma {:induction false} FirstIs(steps: seq<Step>, id: string, i: nat)
    requires Named(steps, id, i)
    ensures IndexOf(steps, id) == Some(i)
  {
    if i > 0 { FirstIs(steps[1..], id, i - 1); }
  }

  /** `after` is `before` with the step at `i` replaced. */
  ghost predicate OneChanged(before: seq<Step>, after: seq<Step>, i: nat, s: Step) {
    |after| == |before| && i < |after| && after[i] == s && forall m | 0 <= m < |before| && m != i ::
        after[m] == before[m]
  }

  lemma SettlesThatStep(steps: seq<Step>, id: string, a: Dispatch.Answer, ttl: nat, now: Instant, i: nat)
    requires Named(steps, id, i) && a != NoCapacity
    ensures OneChanged(steps, SettledSteps(steps, id, a, ttl, now), i, AfterAnswer(steps[i], a, ttl, now))
  {
    FirstIs(steps, id, i);
  }

  /** Any other answer keeps the claim, and settles the one step it is for. */
  lemma OtherAnswersSettle(w: World, p: PumpId, k: Ref, a: Dispatch.Answer, ttl: nat, now: Instant, i: nat)
    requires PhaseOf(w, p) == Calling(k) && a != NoCapacity && k.0 in w.jobs && Named(w.jobs[k.0], k.1.text, i)
    ensures var r := Answer(w, p, a, ttl, now);
      && PhaseOf(r, p) == Resting && r.log == w.log + [End(k, a)] && r.book == w.book
      && r.jobs.Keys == w.jobs.Keys && (forall j | j in w.jobs && j != k.0 :: r.jobs[j] == w.jobs[j])
      && OneChanged(w.jobs[k.0], r.jobs[k.0], i, AfterAnswer(w.jobs[k.0][i], a, ttl, now))
  {
    ReturnMoves(w, p, k, a);
    SettleMoves(Apply(w, Return(p, a)), p, k, a, ttl, now);
    SettlesThatStep(w.jobs[k.0], k.1.text, a, ttl, now, i);
  }
}
