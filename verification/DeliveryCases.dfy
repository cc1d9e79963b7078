/** Runs in which the exceptions to the delivery laws happen. */
module DeliveryCases {
  import opened Wrappers
  import opened JobModel
  import opened Aggregate
  import opened Delivery
  import DeliveryLaws
  import Claims

  ghost function After(w: World, events: seq<Event>): World {
    if events == [] then w else Apply(After(w, events[..|events| - 1]), events[|events| - 1])
  }

  /** Some events take `o` to `w`. */
  ghost predicate Leads(o: World, w: World) { exists events :: After(o, events) == w }

  ghost predicate Reachable(w: World) { Leads(START, w) }

  lemma Stays(w: World)
    ensures Leads(w, w)
  {
    assert After(w, []) == w;
  }

  lemma {:induction false} AfterIsRun(events: seq<Event>)
    ensures After(START, events) == Run(events)
  {
    if events != [] { AfterIsRun(events[..|events| - 1]); }
  }

  lemma ReachableInv(w: World) returns (m: Marks)
    requires Reachable(w)
    ensures Inv(w, m)
  {
    var events :| After(START, events) == w;
    AfterIsRun(events);
    RunKeeps(events);
    m := MarksOf(events);
  }

  lemma Then(o: World, w: World, e: Event) returns (r: World)
    requires Leads(o, w)
    ensures r == Apply(w, e) && Leads(o, r)
  {
    var events :| After(o, events) == w;
    r := Apply(w, e);
    assert (events + [e])[..|events|] == events;
    assert After(o, events + [e]) == r;
  }

  lemma Begins() returns (w: World)
    ensures w == START && Reachable(w)
  {
    w := START;
    Stays(START);
  }

  const JOB := JobId("a")
  const KEY := Claims.TreeKey("repo", "tree")
  const VERDICT := VerdictErrored(Infra)

  // ---- Acknowledged, and nothing behind it ----

  /** The job was acknowledged, and has no record, entry, driver or claim. */
  predicate Hollow(w: World, j: JobId) {
    Of(w, j) == BLANK.(known := true, acked := true, silent := true) && j !in w.book.claims
  }

  lemma Created() returns (w: World)
    ensures Reachable(w) &&
            w == World(Claims.Book(map[KEY := JOB], map[JOB := Claims.Claim(KEY, ["url"], None, None, {})]),
                                       map[JOB := BLANK], map[0 := Creating(JOB)], [])
  {
    w := Begins();
    w := Then(START, w, Arrive(0, KEY, JOB, "url", 0, 1000));
  }

  /** A second dispatch of the tree, answered with the first one's job. */
  lemma Duplicate(o: World, w: World, t: ThreadId, id: JobId) returns (r: World)
    requires Leads(o, w) && ThreadOf(w, t) == Idle && id !in w.jobs && w.book.byKey == map[KEY := JOB] &&
             w.book.claims.Keys == {JOB}
    requires w.book.claims[JOB].settledAt.Some? ==> w.book.claims[JOB].settledAt.value == 0
    ensures Leads(o, r) &&
            r == World(r.book, w.jobs[id := BLANK], w.threads[t := Attaching(JOB, w.book.claims[JOB].verdict)],
            w.reports)
    ensures r.book.byKey == w.book.byKey && r.book.claims.Keys == {JOB} &&
            r.book.claims[JOB] == w.book.claims[JOB].(urls := r.book.claims[JOB].urls)
  {
    r := Then(o, w, Arrive(t, KEY, id, "url", 0, 1000));
  }

  /** The creator fails to journal its job, and undoes it. */
  lemma RolledBack(o: World, w: World) returns (r: World)
    requires Leads(o, w) && ThreadOf(w, 0) == Journaling(JOB, true) && Of(w, JOB).rec.Some?
    ensures Leads(o, r) &&
            r == World(Claims.Forget(w.book, JOB), w.jobs[JOB := Of(w, JOB).(rec := None)], w.threads[0 := Idle],
            w.reports)
  {
    var x := NotJournaled(o, w);
    x := Then(o, x, RemoveRecord(0));
    r := Then(o, x, Unclaim(0));
  }

  lemma NotJournaled(o: World, w: World) returns (r: World)
    requires Leads(o, w) && ThreadOf(w, 0) == Journaling(JOB, true) && Of(w, JOB).rec.Some?
    ensures Leads(o, r) && r == Turn(w, 0, Undoing(JOB))
  {
    r := Then(o, w, ReadIntent(0));
    r := Then(o, r, WriteIntent(0, false));
  }

  /** A duplicate finds the record, but by the time it reads it to journal it the creator has undone it. */
  lemma BlindAckReached() returns (w: World)
    ensures Reachable(w) && Hollow(w, JOB)
  {
    w := Joined();
    w := RolledBack(START, w);
    w := Then(START, w, ReadIntent(1));
  }

  lemma Joined() returns (w: World)
    ensures Reachable(w) && ThreadOf(w, 0) == Journaling(JOB, true) && ThreadOf(w, 1) == Journaling(JOB, false)
    ensures Of(w, JOB) == BLANK.(rec := Some(NEW_RECORD), known := true) && JOB in w.book.claims
  {
    w := Created();
    w := Duplicate(START, w, 1, JobId("b"));
    w := Then(START, w, StoreRecord(0));
    w := Then(START, w, Look(1));
  }

  /** A duplicate looks before the creator has stored its record, takes the job to be held elsewhere, and
      is acknowledged; then the creator undoes it. */
  lemma ElsewhereAckReached() returns (w: World)
    ensures Reachable(w) && Hollow(w, JOB)
  {
    w := Created();
    w := Duplicate(START, w, 1, JobId("b"));
    w := Then(START, w, Look(1));
    assert ThreadOf(w, 0) == Creating(JOB) && Of(w, JOB) == BLANK.(acked := true, silent := true);
    w := Then(START, w, StoreRecord(0));
    w := RolledBack(START, w);
  }

  // ---- A decided job ----

  ghost function Owing(): Rec { Rec(JobErrored, Some(VERDICT), false, None) }

  ghost function Driven(d: Driver, rec: Rec): Entry {
    BLANK.(rec := Some(rec), journaled := true, driver := Some(d), known := true, acked := true, wrote := true)
  }

  ghost function Alone(e: Entry, verdict: Option<Status>): World {
    World(Claims.Book(map[KEY := JOB],
        map[JOB := Claims.Claim(KEY, ["url"], verdict, if verdict.Some? then Some(0) else None, {})]),
          map[JOB := e], map[0 := Idle], [])
  }

  lemma Accepted() returns (w: World)
    ensures Reachable(w) && w == Alone(Driven(Driving, NEW_RECORD), None)
  {
    w := Writing0();
    w := Then(START, w, WriteIntent(0, true));
  }

  lemma Writing0() returns (w: World)
    ensures Reachable(w) &&
            w == Alone(BLANK.(rec := Some(NEW_RECORD), known := true), None).(threads := map[0 := Writing(JOB, true)])
  {
    w := Created();
    w := Then(START, w, StoreRecord(0));
    assert w == Alone(BLANK.(rec := Some(NEW_RECORD), known := true),
           None).(threads := map[0 := Journaling(JOB, true)]);
    w := ReadsIntent(START, w);
  }

  lemma ReadsIntent(o: World, w: World) returns (r: World)
    requires Leads(o, w) && ThreadOf(w, 0) == Journaling(JOB, true) && Of(w, JOB).rec.Some?
    ensures Leads(o, r) && r == Turn(w, 0, Writing(JOB, true))
  {
    r := Then(o, w, ReadIntent(0));
  }

  lemma JustDecided() returns (w: World)
    ensures Reachable(w) && w == Alone(Driven(Driver.Decided(VERDICT), Owing()), None)
  {
    w := Accepted();
    w := Then(START, w, Decide(JOB, VERDICT));
  }

  lemma JustPublished() returns (w: World)
    ensures Reachable(w) && w == Alone(Driven(Published, Owing()), Some(VERDICT))
  {
    w := JustDecided();
    w := Then(START, w, Publish(JOB, 0));
  }

  lemma JustRead() returns (w: World)
    ensures Reachable(w) && w == Alone(Driven(Rewriting, Owing()), Some(VERDICT))
  {
    w := JustPublished();
    w := Then(START, w, ReadVerdict(JOB));
  }

  lemma Rewrote() returns (w: World)
    ensures Reachable(w) && w == Alone(Driven(Rewritten, Owing()), Some(VERDICT))
  {
    w := JustRead();
    w := Then(START, w, WriteVerdict(JOB, true));
  }

  ghost function Sending0(): Entry {
    Driven(Finished, Owing().(delivering := true, last := Some(0))).(sender := Some(0))
  }

  /** The driver is done, and its sender is starting. */
  lemma FirstSender() returns (w: World)
    ensures Reachable(w) && w == Alone(Sending0(), Some(VERDICT)).(reports := [Report(JOB, Opening)])
  {
    w := Rewrote();
    w := Then(START, w, ClaimFirst(JOB, 0));
  }

  // ---- Whole runs of one sender ----

  /** The run reads its record, sends and stamps. */
  lemma Sends(o: World, w: World, i: nat, j: JobId, ok: bool) returns (r: World)
    requires Leads(o, w) && i < |w.reports| && w.reports[i] == Report(j, Opening) && j in w.jobs
    requires Of(w, j).rec.Some? && Of(w, j).rec.value.verdict.Some?
    ensures Leads(o, r) &&
            r == World(w.book, w.jobs[j := StampedWith(Of(w, j).(heard := Of(w, j).heard || ok), ok)], w.threads,
                                       w.reports[i := Report(j, if ok then Stamped else Releasing)])
  {
    r := Lands(o, w, i, j, ok);
    r := Stamps(o, r, i, j, ok);
  }

  lemma Stamps(o: World, w: World, i: nat, j: JobId, ok: bool) returns (r: World)
    requires Leads(o, w) && i < |w.reports| && w.reports[i] == Report(j, Landed(ok))
    ensures Leads(o, r) && r == World(w.book, w.jobs[j := StampedWith(Of(w, j), ok)], w.threads,
                                       w.reports[i := Report(j, if ok then Stamped else Releasing)])
  {
    r := Then(o, w, Stamp(i));
  }

  lemma Lands(o: World, w: World, i: nat, j: JobId, ok: bool) returns (r: World)
    requires Leads(o, w) && i < |w.reports| && w.reports[i] == Report(j, Opening) && j in w.jobs
    requires Of(w, j).rec.Some? && Of(w, j).rec.value.verdict.Some?
    ensures Leads(o, r) && r == World(w.book, w.jobs[j := Of(w, j).(heard := Of(w, j).heard || ok)], w.threads,
                                       w.reports[i := Report(j, Landed(ok))])
  {
    r := Then(o, w, Begin(i));
    assert r == w.(reports := w.reports[i := Report(j, Attempting)]);
    r := Then(o, r, Land(i, ok));
  }

  lemma LetsGo(o: World, w: World, i: nat, j: JobId) returns (r: World)
    requires Leads(o, w) && i < |w.reports| && w.reports[i] == Report(j, Releasing) && j in w.jobs
    ensures Leads(o, r) && r.book == w.book && r.threads == w.threads && r.reports == w.reports[i := Report(j, Ended)]
    ensures r.jobs == w.jobs[j := Of(r, j)]
    ensures Of(r, j) == if Of(w, j).rec.None? then Of(w, j)
                        else Of(w, j).(rec := Some(Of(w, j).rec.value.(delivering := false, last := Some(0))))
  {
    r := Then(o, w, Release(i, 0));
  }

  /** A delivery of an unreported verdict that fails leaves the job parked, for the drain to take. */
  lemma Parks(o: World, w: World, i: nat, j: JobId) returns (r: World)
    requires Leads(o, w) && i < |w.reports| && w.reports[i] == Report(j, Opening) && j in w.jobs && HasVerdict(Of(w, j))
    requires Of(w, j).rec.value.verdict.Some? && Of(w, j).rec.value.state != Reported
    ensures Leads(o, r) && Of(r, j).heard == Of(w, j).heard && Of(r, j).rec.Some? &&
            Of(r, j).rec.value.AwaitsRedelivery(0, 0)
  {
    r := Sends(o, w, i, j, false);
    r := LetsGo(o, r, i, j);
  }

  // ---- Two senders ----

  /** A duplicate admitted just before the record it would join is evicted. */
  lemma LateDuplicate() returns (w: World)
    ensures Reachable(w) && ThreadOf(w, 1) == Foreign(JOB, VERDICT) && JOB in w.jobs &&
            w.reports == [Report(JOB, Opening)]
    ensures Of(w, JOB) == Sending0().(rec := None, evicted := true)
  {
    w := FirstSender();
    w := Duplicate(START, w, 1, JobId("b"));
    w := Evicts(START, w);
    w := Then(START, w, Look(1));
  }

  lemma Evicts(o: World, w: World) returns (r: World)
    requires Leads(o, w) && JOB in w.jobs && HasVerdict(Of(w, JOB))
    ensures Leads(o, r) && r == w.(jobs := w.jobs[JOB := Of(w, JOB).(rec := None, evicted := true)])
  {
    r := Then(o, w, Evict(JOB));
  }

  /** It stores the record and asks for the claim, which nobody holds. */
  lemma StoresAgain(o: World, w: World, t: ThreadId, j: JobId, v: Status) returns (r: World)
    requires Leads(o, w) && ThreadOf(w, t) == Foreign(j, v) && j in w.jobs &&
             (Of(w, j).rec.Some? ==> !Of(w, j).rec.value.delivering)
    ensures Leads(o, r) && r.reports == w.reports + [Report(j, Opening)] && r.threads == w.threads[t := Idle] &&
            r.book == w.book
    ensures r.jobs == w.jobs[j := Of(r, j)]
    ensures Of(r, j) ==
            Of(w, j).(rec := Some(Rec(FromStatus(v), Some(v), true, Some(0))), known := true, opener := Some(t),
                                  acked := true, sender := Some(|w.reports|))
  {
    var x := Stored(o, w, t, j, v);
    r := Then(o, x, ReReport(t, 0));
  }

  lemma Stored(o: World, w: World, t: ThreadId, j: JobId, v: Status) returns (r: World)
    requires Leads(o, w) && ThreadOf(w, t) == Foreign(j, v)
    ensures Leads(o, r) && r == Apply(w, StoreForeign(t))
    ensures r.reports == w.reports && r.threads == w.threads[t := ReReporting(j)] && r.book == w.book &&
            r.jobs == w.jobs[j := Of(r, j)]
    ensures Of(r, j) == Of(w, j).(rec := Of(r, j).rec, known := true, opener := Some(t)) && Of(r, j).rec.Some?
    ensures var was := if Of(w, j).rec.Some? then Of(w, j).rec.value else NEW_RECORD;
      Of(r, j).rec.value == was.(state := FromStatus(v), verdict := Some(v))
  {
    StoredIs(w, t, j, v);
    r := Then(o, w, StoreForeign(t));
  }

  lemma StoredIs(w: World, t: ThreadId, j: JobId, v: Status)
    requires ThreadOf(w, t) == Foreign(j, v)
    ensures var r := Apply(w, StoreForeign(t));
      && r.reports == w.reports && r.threads == w.threads[t := ReReporting(j)] && r.book == w.book
      && r.jobs == w.jobs[j := Of(r, j)]
      && Of(r, j) == Of(w, j).(rec := Of(r, j).rec, known := true, opener := Some(t)) && Of(r, j).rec.Some?
      && var was := if Of(w, j).rec.Some? then Of(w, j).rec.value else NEW_RECORD;
         Of(r, j).rec.value == was.(state := FromStatus(v), verdict := Some(v))
  {
  }

  lemma TwoSendersReached() returns (w: World)
    ensures Reachable(w) && w.reports == [Report(JOB, Opening), Report(JOB, Opening)]
  {
    w := LateDuplicate();
    w := StoresAgain(START, w, 1, JOB, VERDICT);
  }

  /** A run at work that has not landed its delivery, its record unreported, can finish without reporting it. */
  lemma Finishes(o: World, w: World, i: nat, j: JobId) returns (r: World)
    requires Leads(o, w) && i < |w.reports| && w.reports[i].job == j && w.reports[i].Active() &&
             w.reports[i].phase != Landed(true)
    requires j in w.jobs && HasVerdict(Of(w, j)) && Of(w, j).rec.value.verdict.Some? &&
             Of(w, j).rec.value.state != Reported && Of(w, j).heard
    ensures Leads(o, r) && DeliveryLaws.Unacknowledged(Of(r, j))
  {
    match w.reports[i].phase
    case Opening =>
      r := Sends(o, w, i, j, false);
      r := LetsGo(o, r, i, j);
    case Attempting =>
      r := Misses(o, w, i, j);
      r := Stamps(o, r, i, j, false);
      r := LetsGo(o, r, i, j);
    case Landed(ok) =>
      r := Stamps(o, w, i, j, false);
      r := LetsGo(o, r, i, j);
    case Stamped =>
      r := Pays(o, w, i, j);
      r := LetsGo(o, r, i, j);
    case Releasing => r := LetsGo(o, w, i, j);
  }

  lemma Misses(o: World, w: World, i: nat, j: JobId) returns (r: World)
    requires Leads(o, w) && i < |w.reports| && w.reports[i] == Report(j, Attempting) && j in w.jobs
    ensures Leads(o, r) && r == w.(reports := w.reports[i := Report(j, Landed(false))])
  {
    r := Then(o, w, Land(i, false));
    assert w.jobs[j := Of(w, j)] == w.jobs;
  }

  /** Wherever a delivery is reopened, some continuation leaves a heard verdict unacknowledged: if it was
      heard before, the new run fails; otherwise the new run lands while the old one finishes. */
  lemma ReopeningResends(w: World, t: ThreadId, j: JobId) returns (r: World)
    requires Reachable(w) && Reopens(w, StoreForeign(t), j)
    ensures Leads(Apply(w, StoreForeign(t)), r) && DeliveryLaws.Unacknowledged(Of(r, j))
  {
    var m := ReachableInv(w);
    assert ThreadAt(w, t);
    var i :| 0 <= i < |w.reports| && w.reports[i].job == j && w.reports[i].Active();
    assert ReportAt(w, m, i);
    var o := Apply(w, StoreForeign(t));
    var n := |w.reports|;
    r := ClaimsAgain(w, t, j);
    if Of(w, j).heard {
      r := Finishes(o, r, n, j);
    } else {
      r := Lands(o, r, n, j, true);
      r := Finishes(o, r, i, j);
    }
  }

  /** A dispatch that stores a record whose claim is free goes on to start a run. */
  lemma ClaimsAgain(w: World, t: ThreadId, j: JobId) returns (r: World)
    requires Stores(w, StoreForeign(t), j) && (Of(w, j).rec.Some? ==> !Of(w, j).rec.value.delivering)
    ensures Leads(Apply(w, StoreForeign(t)), r) && r.reports == w.reports + [Report(j, Opening)] && j in r.jobs
    ensures Of(r, j).heard == Of(w, j).heard && HasVerdict(Of(r, j)) && Of(r, j).rec.value.verdict.Some? &&
            Of(r, j).rec.value.state != Reported
  {
    var o, v := Apply(w, StoreForeign(t)), ThreadOf(w, t).claimed;
    Stays(o);
    StoredIs(w, t, j, v);
    r := Then(o, o, ReReport(t, 0));
  }

  // ---- Stored again after it was heard ----

  /** The sender lands its delivery, stamps, pays and lets go; a duplicate is on its way. */
  lemma HeardWithDuplicate() returns (w: World)
    ensures Reachable(w) && ThreadOf(w, 1) == Attaching(JOB, Some(VERDICT)) && JOB in w.jobs &&
            w.reports == [Report(JOB, Ended)]
    ensures Of(w, JOB) ==
            Sending0().(rec := Some(Rec(Reported, Some(VERDICT), false, Some(0))), journaled := false, heard := true)
  {
    w := StampedWithDuplicate();
    w := Pays(START, w, 0, JOB);
    w := LetsGo(START, w, 0, JOB);
  }

  lemma StampedWithDuplicate() returns (w: World)
    ensures Reachable(w) && ThreadOf(w, 1) == Attaching(JOB, Some(VERDICT)) && JOB in w.jobs &&
            w.reports == [Report(JOB, Stamped)]
    ensures Of(w, JOB) == Sending0().(rec := Some(Rec(Reported, Some(VERDICT), true, Some(0))), heard := true)
  {
    w := FirstSender();
    w := Duplicate(START, w, 1, JobId("b"));
    w := Sends(START, w, 0, JOB, true);
  }

  lemma Pays(o: World, w: World, i: nat, j: JobId) returns (r: World)
    requires Leads(o, w) && i < |w.reports| && w.reports[i] == Report(j, Stamped) && j in w.jobs
    ensures Leads(o, r) &&
            r == World(w.book, w.jobs[j := Of(w, j).(journaled := false)], w.threads,
            w.reports[i := Report(j, Releasing)])
  {
    r := Then(o, w, Pay(i));
  }

  lemma HeardThenEvicted(o: World, w: World) returns (r: World)
    requires Leads(o, w) && ThreadOf(w, 1) == Attaching(JOB, Some(VERDICT)) && JOB in w.jobs && HasVerdict(Of(w, JOB))
    ensures Leads(o, r) && r.reports == w.reports && ThreadOf(r, 1) == Foreign(JOB, VERDICT) && JOB in r.jobs
    ensures Of(r, JOB) == Of(w, JOB).(rec := None, evicted := true)
  {
    r := Evicts(o, w);
    r := Then(o, r, Look(1));
  }

  /** From reported back to unreported: the state after `n` events says reported, that after all does not. */
  lemma ReportedIsTakenBack() returns (events: seq<Event>, n: nat)
    ensures n <= |events| && Of(Run(events[..n]), JOB).rec.Some? &&
            Of(Run(events[..n]), JOB).rec.value.state == Reported
    ensures Of(Run(events), JOB).rec == Some(Owing())
  {
    var w := HeardWithDuplicate();
    var before :| After(START, before) == w;
    AfterIsRun(before);
    events, n := before + [Evict(JOB)] + [Look(1)] + [StoreForeign(1)], |before|;
    assert events[..n] == before;
    RunNext(before, Evict(JOB));
    RunNext(before + [Evict(JOB)], Look(1));
    RunNext(before + [Evict(JOB)] + [Look(1)], StoreForeign(1));
    TakenBack(w);
  }

  lemma RunNext(before: seq<Event>, e: Event)
    ensures Run(before + [e]) == Apply(Run(before), e)
  {
    assert (before + [e])[..|before|] == before;
  }

  lemma TakenBack(w: World)
    requires ThreadOf(w, 1) == Attaching(JOB, Some(VERDICT)) && HasVerdict(Of(w, JOB))
    ensures Of(Apply(Apply(Apply(w, Evict(JOB)), Look(1)), StoreForeign(1)), JOB).rec == Some(Owing())
  {
    var x := Apply(w, Evict(JOB));
    assert x == w.(jobs := w.jobs[JOB := Of(w, JOB).(rec := None, evicted := true)]);
    var y := Apply(x, Look(1));
    assert y == Turn(x, 1, Foreign(JOB, VERDICT));
  }

  /** Wherever the record of a heard job is restored, some continuation leaves it unacknowledged: with the
      claim free, a new run fails; with it held, the holder finishes without reporting. */
  lemma RestoringResends(w: World, t: ThreadId, j: JobId) returns (r: World)
    requires Reachable(w) && Restores(w, StoreForeign(t), j)
    ensures Leads(Apply(w, StoreForeign(t)), r) && DeliveryLaws.Unacknowledged(Of(r, j))
  {
    var o := Apply(w, StoreForeign(t));
    if Of(w, j).rec.Some? && Of(w, j).rec.value.delivering {
      var m := ReachableInv(w);
      assert JobAt(w, m, j);
      Stays(o);
      StoredIs(w, t, j, ThreadOf(w, t).claimed);
      r := Finishes(o, o, Of(w, j).sender.value, j);
    } else {
      r := ClaimsAgain(w, t, j);
      r := Finishes(o, r, |w.reports|, j);
    }
  }

  /** Both happen, and end with the job parked: the drain would send once more what Hull already has. */
  lemma HeardIsDrained() returns (w: World, r: World)
    ensures Reachable(w) && Of(w, JOB).heard && Of(w, JOB).rec.Some? && Of(w, JOB).rec.value.AwaitsRedelivery(0, 0)
    ensures Reachable(r) && Of(r, JOB).heard && Of(r, JOB).rec.Some? && Of(r, JOB).rec.value.AwaitsRedelivery(0, 0)
  {
    w := HeardWithDuplicate();
    w := HeardThenEvicted(START, w);
    w := StoresAgain(START, w, 1, JOB, VERDICT);
    w := Parks(START, w, 1, JOB);
    r := LateDuplicate();
    r := StoresAgain(START, r, 1, JOB, VERDICT);
    r := Lands(START, r, 1, JOB, true);
    r := Parks(START, r, 0, JOB);
  }

  // ---- Stranded ----

  /** Two duplicates, both past the eviction of the record they would have joined. */
  lemma TwoLateDuplicates() returns (w: World)
    ensures Reachable(w) && w.reports == [Report(JOB, Opening)] && JOB in w.jobs &&
            Of(w, JOB) == Sending0().(rec := None, evicted := true)
    ensures w.threads == map[0 := Idle, 1 := Foreign(JOB, VERDICT), 2 := Foreign(JOB, VERDICT)]
  {
    w := TwoDuplicates();
    w := Then(START, w, Look(1));
    w := Then(START, w, Look(2));
  }

  lemma TwoDuplicates() returns (w: World)
    ensures Reachable(w) && w.reports == [Report(JOB, Opening)] && JOB in w.jobs &&
            Of(w, JOB) == Sending0().(rec := None, evicted := true)
    ensures w.threads == map[0 := Idle, 1 := Attaching(JOB, Some(VERDICT)), 2 := Attaching(JOB, Some(VERDICT))]
  {
    w := FirstSender();
    w := Duplicate(START, w, 1, JobId("b"));
    w := Duplicate(START, w, 2, JobId("c"));
    w := Evicts(START, w);
  }

  /** The first sender, its record gone, sends nothing and ends. */
  lemma GivesUp(o: World, w: World) returns (r: World)
    requires Leads(o, w) && w.reports == [Report(JOB, Opening)] && JOB in w.jobs && Of(w, JOB).rec.None?
    ensures Leads(o, r) && r == w.(reports := [Report(JOB, Ended)])
  {
    r := Then(o, w, Begin(0));
    assert r.reports == [Report(JOB, Releasing)];
    r := LetsGo(o, r, 0, JOB);
    assert w.jobs[JOB := Of(w, JOB)] == w.jobs;
  }

  /** The first duplicate stores the record, sends and fails; before its run lets go the second overwrites
      the record, and is refused the claim. Nothing is left that would ever look at the job. */
  lemma StrandedReached() returns (w: World)
    ensures Reachable(w) && DeliveryLaws.Stranded(w, JOB) && !Of(w, JOB).heard && Of(w, JOB).driver == Some(Finished)
  {
    var x := ParkedAndHeld();
    forall u ensures u != 2 ==> !DeliveryLaws.About(x, u, JOB) {}
    DeliveryLaws.ClobberingStrands(x, 2, 1, JOB, 0);
    w := ThreeMore(START, x, StoreForeign(2), ReReport(2, 0), Release(1, 0));
  }

  lemma ThreeMore(o: World, w: World, a: Event, b: Event, c: Event) returns (r: World)
    requires Leads(o, w)
    ensures Leads(o, r) && r == Apply(Apply(Apply(w, a), b), c)
  {
    r := Then(o, w, a);
    r := Then(o, r, b);
    r := Then(o, r, c);
  }

  lemma ParkedAndHeld() returns (w: World)
    ensures Reachable(w) && w.reports == [Report(JOB, Ended), Report(JOB, Releasing)] && JOB in w.jobs
    ensures w.threads == map[0 := Idle, 1 := Idle, 2 := Foreign(JOB, VERDICT)]
    ensures Of(w, JOB).sender == Some(1) && Of(w, JOB).rec == Some(Rec(ReportFailed, Some(VERDICT), true, Some(0)))
    ensures !Of(w, JOB).heard && Of(w, JOB).driver == Some(Finished)
  {
    w := TwoLateDuplicates();
    w := GivesUp(START, w);
    w := StoresAgain(START, w, 1, JOB, VERDICT);
    w := Sends(START, w, 1, JOB, false);
  }
}
