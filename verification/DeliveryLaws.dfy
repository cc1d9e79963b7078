/** What the delivery protocol guarantees in every interleaving, and exactly when. */
module DeliveryLaws {
  import opened Wrappers
  import opened JobModel
  import opened Delivery

  // ---- One sender per job ----

  /** At most one sender per job, in every history that never stores a missing record from the claim's
      verdict while a run for the job is at work. */
  lemma OneSender(events: seq<Event>, i: nat, k: nat)
    requires var w := Run(events);
      && i < |w.reports| && k < |w.reports| && w.reports[i].Active() && w.reports[k].Active()
      && w.reports[i].job == w.reports[k].job && Never(Reopening, events, w.reports[i].job)
    ensures i == k
  {
    RunKeeps(events);
    MarksMean(Reopening, events, Run(events).reports[i].job);
    assert ReportAt(Run(events), MarksOf(events), i) && ReportAt(Run(events), MarksOf(events), k);
  }

  /** A record is stored from its claim's verdict only once it has been evicted: so the job of a record never
      evicted meets the conditions of every law below. */
  lemma UnevictedIsNeverStoredAgain(events: seq<Event>, k: Kind, j: JobId)
    requires !Of(Run(events), j).evicted
    ensures Never(k, events, j)
  {
    RunKeeps(events);
    MarksMean(k, events, j);
    assert JobAt(Run(events), MarksOf(events), j);
  }

  lemma OneSenderUnlessEvicted(events: seq<Event>, i: nat, k: nat)
    requires var w := Run(events);
      && i < |w.reports| && k < |w.reports| && w.reports[i].Active() && w.reports[k].Active()
      && w.reports[i].job == w.reports[k].job && !Of(w, w.reports[i].job).evicted
    ensures i == k
  {
    UnevictedIsNeverStoredAgain(events, Reopening, Run(events).reports[i].job);
    OneSender(events, i, k);
  }

  /** The condition is exact: where it fails, the very next step of that dispatch puts a second run beside
      the first. */
  lemma ReinsertionReopens(w: World, t: ThreadId, j: JobId, now: Instant) returns (i: nat)
    requires Reopens(w, StoreForeign(t), j)
    ensures var r := Apply(Apply(w, StoreForeign(t)), ReReport(t, now));
      && i < |w.reports| && |r.reports| == |w.reports| + 1
      && r.reports[i].job == j && r.reports[i].Active() && r.reports[|w.reports|] == Report(j, Opening)
  {
    i :| 0 <= i < |w.reports| && w.reports[i].job == j && w.reports[i].Active();
    var mid := Apply(w, StoreForeign(t));
    assert ThreadOf(mid, t) == ReReporting(j) && Of(mid, j).rec.Some?;
  }

  // ---- Debts ----

  /** Every job driven here has a journal entry until a delivery of its verdict has landed. */
  lemma DebtIsJournaled(events: seq<Event>, j: JobId)
    requires Of(Run(events), j).driver.Some?
    ensures Of(Run(events), j).journaled || Of(Run(events), j).heard
  {
    RunKeeps(events);
    assert JobAt(Run(events), MarksOf(events), j);
  }

  /** Of every job: it has an entry, or was heard, exactly when some dispatch's own journal write for it
      succeeded. An acknowledged job without one was acknowledged by a duplicate in one of the two branches
      that write nothing, and is driven by no one. */
  lemma AckIsJournaled(events: seq<Event>, j: JobId)
    ensures var e := Of(Run(events), j);
      && (e.journaled || e.heard <==> e.wrote)
      && (e.acked && !e.wrote ==> e.silent && e.driver.None?)
  {
    RunKeeps(events);
    assert JobAt(Run(events), MarksOf(events), j);
  }

  /** No owed verdict is stranded, in every history that never overwrites a record whose sender has
      stamped it and not yet let go: once its driver is done, a job whose record is here is reported, or
      parked where the drain looks, or a run for it is at work, or a dispatch is about to start one. */
  lemma NothingOwedIsStranded(events: seq<Event>, j: JobId)
    requires var e := Of(Run(events), j); e.driver == Some(Finished) && e.rec.Some? && Never(Clobbering, events, j)
    ensures var w := Run(events);
      var e := Of(w, j);
      || e.rec.value.state == Reported || (e.rec.value.state == ReportFailed && !e.rec.value.delivering)
      || SenderIs(e, j, w.reports) || Promised(w, j)
  {
    RunKeeps(events);
    MarksMean(Clobbering, events, j);
    assert JobAt(Run(events), MarksOf(events), j) && OwedAt(Run(events), MarksOf(events), j);
  }

  /** Nobody will ever look at the job again: decided, unreported, not parked, no run and no dispatch. */
  ghost predicate Stranded(w: World, j: JobId) {
    && Of(w, j).rec.Some? && HasVerdict(Of(w, j)) && !Closed(Of(w, j).rec.value.state) && !Of(w, j).rec.value.delivering
    && !Busy(w.reports, j) && forall t :: !About(w, t, j)
  }

  ghost predicate About(w: World, t: ThreadId, j: JobId) { ThreadOf(w, t) != Idle && ThreadOf(w, t).job == j }

  /** A dispatch that overwrites a record whose claim is held is then refused the claim. */
  lemma OverwriteIsRefused(w: World, t: ThreadId, j: JobId, now: Instant)
    requires Stores(w, StoreForeign(t), j) && Of(w, j).rec.Some? && Of(w, j).rec.value.delivering
    ensures var r := Apply(Apply(w, StoreForeign(t)), ReReport(t, now));
      && r.reports == w.reports && ThreadOf(r, t) == Idle && (forall u :: u != t ==> ThreadOf(r, u) == ThreadOf(w, u))
      && j in r.jobs && Of(r, j).rec.Some? && HasVerdict(Of(r, j)) && !Closed(Of(r, j).rec.value.state)
      && Of(r, j).heard == Of(w, j).heard && Of(r, j).driver == Of(w, j).driver
  {
    assert ThreadOf(Apply(w, StoreForeign(t)), t) == ReReporting(j);
  }

  /** The holder of the claim, its stamp made, pays if it landed and lets go. */
  function LetGo(w: World, i: nat, now: Instant): World {
    if i < |w.reports| && w.reports[i].phase == Stamped then Apply(Apply(w, Pay(i)), Release(i, now))
        else Apply(w, Release(i, now))
  }

  /** The condition is exact: overwriting such a record strands the job, unless some other dispatch or run
      is about it. */
  lemma ClobberingStrands(w: World, t: ThreadId, i: nat, j: JobId, now: Instant)
    requires Clobbers(w, StoreForeign(t), j) && i < |w.reports| && w.reports[i].job == j
    requires w.reports[i].phase == Stamped || w.reports[i].phase == Releasing
    requires forall k | 0 <= k < |w.reports| && k != i :: w.reports[k].job == j ==> !w.reports[k].Active()
    requires forall u :: u != t ==> !About(w, u, j)
    ensures var r := LetGo(Apply(Apply(w, StoreForeign(t)), ReReport(t, now)), i, now);
      Stranded(r, j) && Of(r, j).heard == Of(w, j).heard && Of(r, j).driver == Of(w, j).driver
  {
    OverwriteIsRefused(w, t, j, now);
    var b := Apply(Apply(w, StoreForeign(t)), ReReport(t, now));
    if w.reports[i].phase == Stamped {
      PayStrandsNothing(b, i, j);
      ReleaseStrands(Apply(b, Pay(i)), w, t, i, j, now);
    } else {
      ReleaseStrands(b, w, t, i, j, now);
    }
  }

  lemma PayStrandsNothing(b: World, i: nat, j: JobId)
    requires i < |b.reports| && b.reports[i] == Report(j, Stamped) && j in b.jobs
    ensures var r := Apply(b, Pay(i));
      && r.reports == b.reports[i := Report(j, Releasing)] && r.threads == b.threads && j in r.jobs
      && Of(r, j) == Of(b, j).(journaled := false)
  {
  }

  lemma ReleaseStrands(b: World, w: World, t: ThreadId, i: nat, j: JobId, now: Instant)
    requires i < |w.reports| && b.reports == w.reports[i := Report(j, Releasing)]
    requires forall k | 0 <= k < |w.reports| && k != i :: w.reports[k].job == j ==> !w.reports[k].Active()
    requires ThreadOf(b, t) == Idle && (forall u :: u != t ==> ThreadOf(b, u) == ThreadOf(w, u)) && forall u ::
      u != t ==> !About(w, u, j)
    requires j in b.jobs && Of(b, j).rec.Some? && HasVerdict(Of(b, j)) && !Closed(Of(b, j).rec.value.state)
    ensures var r := Apply(b, Release(i, now));
      Stranded(r, j) && Of(r, j).heard == Of(b, j).heard && Of(r, j).driver == Of(b, j).driver
  {
    var r := Apply(b, Release(i, now));
    assert r.reports == w.reports[i := Report(j, Ended)];
    forall u ensures !About(r, u, j) { assert u != t ==> !About(w, u, j); }
  }

  // ---- What was heard is not sent again ----

  /** Hull has the verdict, and the record, its claim free, does not say so: parked for the drain to send
      again, or worse. */
  predicate Unacknowledged(e: Entry) {
    e.heard && e.rec.Some? && !e.rec.value.delivering && e.rec.value.state != Reported
  }

  /** A job whose verdict landed reads reported once its sender lets go, and the drain never takes it, in
      every history that neither reopens its delivery nor restores its record after it was heard. */
  lemma DrainNeverResends(events: seq<Event>, j: JobId, now: Instant, cooldown: nat)
    requires var e := Of(Run(events), j);
      e.heard && e.rec.Some? && Never(Reopening, events, j) && Never(Restoring, events, j)
    ensures var e := Of(Run(events), j); !Unacknowledged(e) && !e.rec.value.AwaitsRedelivery(now, cooldown)
  {
    RunKeeps(events);
    var w, m := Run(events), MarksOf(events);
    MarksMean(Reopening, events, j);
    MarksMean(Restoring, events, j);
    assert JobAt(w, m, j);
    if Of(w, j).rec.value.state != Reported { assert ReportAt(w, m, Of(w, j).sender.value); }
  }

  /** The job has been reported, and whatever record of it is left says so. */
  predicate Answered(e: Entry) { e.driver.Some? && (e.rec.Some? ==> e.rec.value.state == Reported) }

  lemma AnsweredAccepting(w: World, m: Marks, e: Event, j: JobId)
    requires Inv(w, m) && IsAccept(e) && Answered(Of(w, j))
    ensures Answered(Of(Accepting(w, e), j)) <==> !Stores(w, e, j)
  {
    assert ThreadAt(w, e.t) && JobAt(w, m, j);
  }

  lemma AnsweredProgress(w: World, e: Event, j: JobId)
    requires IsDrive(e) && Answered(Of(w, j))
    ensures Answered(Of(Progress(w, e), j))
  {
  }

  lemma AnsweredReporting(w: World, e: Event, j: JobId)
    requires IsReport(e) && Answered(Of(w, j))
    ensures Answered(Of(Reporting(w, e), j))
  {
  }

  /** One event leaves a reported job reported if and only if it does not store its record from the
      claim's verdict. */
  lemma ReportedStaysIff(w: World, m: Marks, e: Event, j: JobId)
    requires Inv(w, m) && Answered(Of(w, j))
    ensures Answered(Of(Apply(w, e), j)) <==> !Stores(w, e, j)
  {
    if IsAccept(e) { AnsweredAccepting(w, m, e, j); }
    else if IsDrive(e) { AnsweredProgress(w, e, j); }
    else if IsReport(e) { AnsweredReporting(w, e, j); }
  }

  /** Reported is absorbing: a job reported after `n` events reads nothing else after any continuation
      that does not store its record from the claim's verdict, whatever happened before. */
  lemma {:induction false} ReportedIsAbsorbing(events: seq<Event>, n: nat, j: JobId)
    requires n <= |events| && Of(Run(events[..n]), j).rec.Some? && Of(Run(events[..n]), j).rec.value.state == Reported
    requires forall k | n <= k < |events| :: !Stores(Run(events[..k]), events[k], j)
    ensures Answered(Of(Run(events), j))
  {
    if n == |events| {
      assert events[..|events|] == events;
      RunKeeps(events);
      assert JobAt(Run(events), MarksOf(events), j);
    } else {
      var front, e := events[..|events| - 1], events[|events| - 1];
      assert forall k | n <= k <= |front| :: front[..k] == events[..k];
      ReportedIsAbsorbing(front, n, j);
      RunKeeps(front);
      assert !Stores(Run(events[..|front|]), events[|front|], j);
      ReportedStaysIff(Run(front), MarksOf(front), e, j);
    }
  }

  /** Without exception where the record was never evicted. */
  lemma ReportedUnlessEvicted(events: seq<Event>, n: nat, j: JobId)
    requires n <= |events| && Of(Run(events[..n]), j).rec.Some? && Of(Run(events[..n]), j).rec.value.state == Reported
    requires !Of(Run(events), j).evicted
    ensures Answered(Of(Run(events), j))
  {
    UnevictedIsNeverStoredAgain(events, Storing, j);
    forall k | n <= k < |events| ensures !Stores(Run(events[..k]), events[k], j) {
      assert !DoneAt(Storing, events, k, j);
    }
    ReportedIsAbsorbing(events, n, j);
  }
}
