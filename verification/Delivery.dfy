/** Answering every dispatch: accepting, deciding, delivering and redelivering a job's one verdict, as
    atomic sections of any number of concurrent dispatches, drivers and senders.

    Everything the process keeps under one job id is one `Entry`. An event that the code could not
    perform in a state leaves the state as it is. */
module Delivery {
  import opened Wrappers
  import opened JobModel
  import opened Aggregate
  import Claims

  type ThreadId = nat

  datatype Rec = Rec(state: JobState, verdict: Option<Status>, delivering: bool, last: Option<Instant>) {
    function To(next: JobState): Rec { if state.CanTransitionTo(next) then this.(state := next) else this }

    predicate AwaitsRedelivery(now: Instant, cooldown: nat) {
      state == ReportFailed && !delivering &&
          (last.None? || (if now >= last.value then now - last.value else 0) >= cooldown)
    }
  }

  const NEW_RECORD := Rec(Queued, None, false, None)

  function FromStatus(v: Status): JobState {
    match v case VerdictGreen => Green case VerdictRed => Red case VerdictErrored(_) => JobErrored
  }

  /** Where `drive` and then `finish` are with a job. */
  datatype Driver = Driving | Decided(verdict: Status) | Published | Rewriting | Rewritten | Finished

  /** Where one `report` run is: reading the record, sending, and what follows the last attempt. */
  datatype Sending = Opening | Attempting | Landed(ok: bool) | Stamped | Releasing | Ended

  datatype Report = Report(job: JobId, phase: Sending) {
    predicate Active() { phase != Ended }
  }

  /** Where one `accept` is. */
  datatype Accept =
    | Idle
    | Creating(job: JobId)
    | Attaching(job: JobId, verdict: Option<Status>)
    | Foreign(job: JobId, claimed: Status)
    | Journaling(job: JobId, drive: bool)
    | Writing(job: JobId, drive: bool)
    | Undoing(job: JobId)
    | Unclaiming(job: JobId)
    | ReReporting(job: JobId)

  /** `known` (a record was once stored), `sender` (the last run to take the delivery claim), `opener` (the
      last dispatch to store a record from the claim's verdict), `heard` (a delivery landed), `acked`,
      `wrote` (a dispatch journaled the job) and `silent` (acked without journaling, in either of the two
      branches that do so) only record history. */
  datatype Entry = Entry(
    rec: Option<Rec>, journaled: bool, driver: Option<Driver>, evicted: bool,
    known: bool, sender: Option<nat>, opener: Option<ThreadId>, heard: bool, acked: bool, wrote: bool, silent: bool)

  const BLANK := Entry(None, false, None, false, false, None, None, false, false, false, false)

  datatype World = World(book: Claims.Book, jobs: map<JobId, Entry>, threads: map<ThreadId, Accept>,
      reports: seq<Report>)

  const START := World(Claims.EMPTY, map[], map[], [])

  datatype Event =
    // accept
    | Arrive(t: ThreadId, key: Claims.TreeKey, proposed: JobId, url: string, at: int, retention: int)
    | StoreRecord(t: ThreadId)
    | Look(t: ThreadId)
    | StoreForeign(t: ThreadId)
    | ReadIntent(t: ThreadId)
    | WriteIntent(t: ThreadId, ok: bool)
    | RemoveRecord(t: ThreadId)
    | Unclaim(t: ThreadId)
    | ReReport(t: ThreadId, now: Instant)
    // drive and finish
    | Walk(job: JobId, next: JobState)
    | Decide(job: JobId, verdict: Status)
    | Publish(job: JobId, at: int)
    | ReadVerdict(job: JobId)
    | WriteVerdict(job: JobId, ok: bool)
    | ClaimFirst(job: JobId, now: Instant)
    // report
    | Begin(i: nat)
    | Land(i: nat, ok: bool)
    | Stamp(i: nat)
    | Pay(i: nat)
    | Release(i: nat, now: Instant)
    // drain and eviction
    | Drain(job: JobId, now: Instant, cooldown: nat)
    | Evict(job: JobId)
    | ForgetEvicted(job: JobId)

  function Of(w: World, j: JobId): Entry { if j in w.jobs then w.jobs[j] else BLANK }

  function ThreadOf(w: World, t: ThreadId): Accept { if t in w.threads then w.threads[t] else Idle }

  function Put(w: World, j: JobId, e: Entry): World { w.(jobs := w.jobs[j := e]) }

  function Turn(w: World, t: ThreadId, a: Accept): World { w.(threads := w.threads[t := a]) }

  /** `claim_delivery`: check and take in one section; the winner starts a run. */
  function Claimed(w: World, j: JobId, now: Instant): World {
    var e := Of(w, j);
    if e.rec.None? || e.rec.value.delivering then w
    else
      Put(w, j, e.(rec := Some(e.rec.value.(delivering := true, last := Some(now))), sender := Some(|w.reports|)))
      .(reports := w.reports + [Report(j, Opening)])
  }

  function Acked(w: World, t: ThreadId, j: JobId, drive: bool, e: Entry): World {
    Turn(Put(w, j, WithAck(e, drive)), t, Idle)
  }

  function WithAck(e: Entry, drive: bool): Entry {
    e.(acked := true, driver := if drive then Some(Driving) else e.driver)
  }

  predicate IsAccept(e: Event) {
    e.StoreRecord? || e.Look? || e.StoreForeign? || e.ReadIntent? || e.WriteIntent? || e.RemoveRecord? || e.Unclaim? ||
        e.ReReport?
  }

  /** `accept`, after the claim store has spoken. */
  function Accepting(w: World, e: Event): World
    requires IsAccept(e)
  {
    match (e, ThreadOf(w, e.t))
    case (StoreRecord(t), Creating(j)) =>
      var n := Of(w, j);
      var rec := if n.rec.Some? then n.rec else Some(NEW_RECORD);
      Turn(Put(w, j, n.(rec := rec, known := true)), t, Journaling(j, true))
    case (Look(t), Attaching(j, v)) =>
      var n := Of(w, j);
      if n.rec.Some? then
        var decided := n.rec.value.state.HasVerdict() && n.rec.value.verdict.Some?;
        Turn(w, t, if decided then ReReporting(j) else Journaling(j, false))
      else if v.Some? then Turn(w, t, Foreign(j, v.value))
      else Acked(w, t, j, false, n.(silent := true))
    case (StoreForeign(t), Foreign(j, v)) =>
      var n := Of(w, j);
      var rec := (if n.rec.Some? then n.rec.value else NEW_RECORD).(state := FromStatus(v), verdict := Some(v));
      Turn(Put(w, j, n.(rec := Some(rec), known := true, opener := Some(t))), t, ReReporting(j))
    case (ReadIntent(t), Journaling(j, drive)) =>
      var n := Of(w, j);
      if n.rec.Some? then Turn(w, t, Writing(j, drive)) else Acked(w, t, j, drive, n.(silent := true))
    case (WriteIntent(t, ok), Writing(j, drive)) =>
      if ok then Acked(w, t, j, drive, Of(w, j).(journaled := true, wrote := true))
          else Turn(w, t, if drive then Undoing(j) else Idle)
    case (RemoveRecord(t), Undoing(j)) => Turn(Put(w, j, Of(w, j).(rec := None)), t, Unclaiming(j))
    case (Unclaim(t), Unclaiming(j)) => Turn(w.(book := Claims.Forget(w.book, j)), t, Idle)
    case (ReReport(t, now), ReReporting(j)) => var c := Claimed(w, j, now); Acked(c, t, j, false, Of(c, j))
    case _ => w
  }

  function Arrived(w: World, e: Event): World
    requires e.Arrive?
  {
    if ThreadOf(w, e.t) != Idle || e.proposed in w.jobs then w
    else
      var (book, a) := Claims.Admit(w.book, e.key, e.proposed, e.url, e.at, e.retention);
      Turn(Put(w.(book := book), e.proposed, BLANK), e.t,
          match a case Created(j) => Creating(j) case Attached(j, v) => Attaching(j, v))
  }

  predicate IsDrive(e: Event) {
    e.Walk? || e.Decide? || e.Publish? || e.ReadVerdict? || e.WriteVerdict? || e.ClaimFirst?
  }

  /** A verdict before the steps run is always `errored`; the others are decided while running. */
  predicate MayDecide(s: JobState, v: Status) { v.VerdictErrored? || s == JobRunning }

  function WithVerdict(n: Entry, v: Status): Entry
    requires n.rec.Some?
  {
    n.(rec := Some(n.rec.value.To(FromStatus(v)).(verdict := Some(v))), driver := Some(Driver.Decided(v)))
  }

  /** `drive` and `finish`. */
  function Progress(w: World, e: Event): World
    requires IsDrive(e)
  {
    var n := Of(w, e.job);
    if n.driver.None? then w
    else
      match (e, n.driver.value)
      case (Walk(j, next), Driving) =>
        if n.rec.Some? && !next.HasVerdict() then Put(w, j, n.(rec := Some(n.rec.value.To(next)))) else w
      case (Decide(j, v), Driving) =>
        if n.rec.None? || n.rec.value.state.HasVerdict() then Put(w, j, n.(driver := Some(Finished)))
        else if MayDecide(n.rec.value.state, v) then
          Put(w, j, WithVerdict(n, v))
        else w
      case (Publish(j, at), Decided(v)) =>
        var book := if n.rec.Some? then Claims.Settle(w.book, j, v, at) else w.book;
        Put(w.(book := book), j, n.(driver := Some(Published)))
      case (ReadVerdict(j), Published) => Put(w, j, n.(driver := Some(if n.rec.Some? then Rewriting else Rewritten)))
      case (WriteVerdict(j, ok), Rewriting) => Put(w, j, n.(journaled := n.journaled || ok, driver := Some(Rewritten)))
      case (ClaimFirst(j, now), Rewritten) =>
        var c := Claimed(w, j, now); Put(c, j, Of(c, j).(driver := Some(Finished)))
      case _ => w
  }

  predicate IsReport(e: Event) { e.Begin? || e.Land? || e.Stamp? || e.Pay? || e.Release? }

  function StampedWith(n: Entry, ok: bool): Entry {
    if n.rec.Some? then n.(rec := Some(n.rec.value.To(if ok then Reported else ReportFailed))) else n
  }

  /** One `report` run. */
  function Reporting(w: World, e: Event): World
    requires IsReport(e)
  {
    if e.i >= |w.reports| then w
    else
      var j := w.reports[e.i].job;
      var n := Of(w, j);
      match (e, w.reports[e.i].phase)
      case (Begin(i), Opening) =>
        var found := n.rec.Some? && n.rec.value.verdict.Some?;
        w.(reports := w.reports[i := Report(j, if found then Attempting else Releasing)])
      case (Land(i, ok), Attempting) =>
        Put(w, j, n.(heard := n.heard || ok)).(reports := w.reports[i := Report(j, Landed(ok))])
      case (Stamp(i), Landed(ok)) =>
        Put(w, j, StampedWith(n, ok)).(reports := w.reports[i := Report(j, if ok then Stamped else Releasing)])
      case (Pay(i), Stamped) => Put(w, j, n.(journaled := false)).(reports := w.reports[i := Report(j, Releasing)])
      case (Release(i, now), Releasing) =>
        var freed := if n.rec.Some? then n.(rec := Some(n.rec.value.(delivering := false, last := Some(now)))) else n;
        Put(w, j, freed).(reports := w.reports[i := Report(j, Ended)])
      case _ => w
  }

  function Evicted(w: World, j: JobId): World {
    var n := Of(w, j);
    if n.rec.Some? && n.rec.value.state.HasVerdict() then Put(w, j, n.(rec := None, evicted := true)) else w
  }

  function Drained(w: World, j: JobId, now: Instant, cooldown: nat): World {
    if Of(w, j).rec.Some? && Of(w, j).rec.value.AwaitsRedelivery(now, cooldown) then Claimed(w, j, now) else w
  }

  function Apply(w: World, e: Event): World {
    if e.Arrive? then Arrived(w, e)
    else if IsAccept(e) then Accepting(w, e)
    else if IsDrive(e) then Progress(w, e)
    else if e.Drain? then Drained(w, e.job, e.now, e.cooldown)
    else if e.Evict? then Evicted(w, e.job)
    else if e.ForgetEvicted? then (if Of(w, e.job).evicted then w.(book := Claims.Forget(w.book, e.job)) else w)
    else Reporting(w, e)
  }

  ghost function Run(events: seq<Event>): World {
    if events == [] then START else Apply(Run(events[..|events| - 1]), events[|events| - 1])
  }

  // ---- Records stored again from the claim's verdict ----

  /** The event stores job `j`'s record from the verdict on its claim. */
  predicate Stores(w: World, e: Event, j: JobId) {
    e.StoreForeign? && ThreadOf(w, e.t).Foreign? && ThreadOf(w, e.t).job == j
  }

  predicate Busy(reports: seq<Report>, j: JobId) {
    exists i | 0 <= i < |reports| :: reports[i].job == j && reports[i].Active()
  }

  predicate SenderIs(e: Entry, j: JobId, reports: seq<Report>) {
    e.sender.Some? && e.sender.value < |reports| && reports[e.sender.value].job == j && reports[e.sender.value].Active()
  }

  /** The last run to take the claim has yet to stamp the outcome on the record. */
  predicate WillStamp(e: Entry, j: JobId, reports: seq<Report>) {
    SenderIs(e, j, reports) && var p := reports[e.sender.value].phase; p == Opening || p == Attempting || p.Landed?
  }

  /** It does so for want of a record, while a run for the job is at work. */
  predicate Reopens(w: World, e: Event, j: JobId) { Stores(w, e, j) && Of(w, j).rec.None? && Busy(w.reports, j) }

  /** It does so although a delivery of the verdict has landed, and the run that landed it is not about to
      stamp the record. */
  predicate Restores(w: World, e: Event, j: JobId) { Stores(w, e, j) && Of(w, j).heard && !AboutToReport(w, j) }

  predicate AboutToReport(w: World, j: JobId) {
    Of(w, j).rec.Some? && SenderIs(Of(w, j), j, w.reports) && w.reports[Of(w, j).sender.value].phase == Landed(true)
  }

  /** It does so over a record whose delivery claim is held by a run that has already stamped it. */
  predicate Clobbers(w: World, e: Event, j: JobId) {
    Stores(w, e, j) && Of(w, j).rec.Some? && Of(w, j).rec.value.delivering && !WillStamp(Of(w, j), j, w.reports)
  }

  datatype Kind = Storing | Reopening | Restoring | Clobbering

  predicate Does(k: Kind, w: World, e: Event, j: JobId) {
    match k
    case Storing => Stores(w, e, j)
    case Reopening => Reopens(w, e, j)
    case Restoring => Restores(w, e, j)
    case Clobbering => Clobbers(w, e, j)
  }

  ghost predicate DoneAt(k: Kind, events: seq<Event>, n: int, j: JobId) {
    0 <= n < |events| && Does(k, Run(events[..n]), events[n], j)
  }

  /** No event of the history does this to job `j`. */
  ghost predicate Never(k: Kind, events: seq<Event>, j: JobId) { forall n :: !DoneAt(k, events, n, j) }

  /** The jobs a history has done each of these to. */
  datatype Marks = Marks(stored: set<JobId>, reopened: set<JobId>, restored: set<JobId>, clobbered: set<JobId>) {
    function Of(k: Kind): set<JobId> {
      match k case Storing => stored case Reopening => reopened case Restoring => restored case Clobbering => clobbered
    }
  }

  const UNMARKED := Marks({}, {}, {}, {})

  function Mark(m: Marks, w: World, e: Event): Marks {
    if !e.StoreForeign? || !ThreadOf(w, e.t).Foreign? then m
    else
      var j := ThreadOf(w, e.t).job;
      Marks(m.stored + {j},
            if Reopens(w, e, j) then m.reopened + {j} else m.reopened,
            if Restores(w, e, j) then m.restored + {j} else m.restored,
            if Clobbers(w, e, j) then m.clobbered + {j} else m.clobbered)
  }

  ghost function MarksOf(events: seq<Event>): Marks {
    if events == [] then UNMARKED
    else var front := events[..|events| - 1]; Mark(MarksOf(front), Run(front), events[|events| - 1])
  }

  lemma MarkMeans(k: Kind, m: Marks, w: World, e: Event, j: JobId)
    ensures j in Mark(m, w, e).Of(k) <==> j in m.Of(k) || Does(k, w, e, j)
  {
  }

  lemma DoneNext(k: Kind, events: seq<Event>, n: int, j: JobId)
    requires events != []
    ensures n != |events| - 1 ==> (DoneAt(k, events, n, j) <==> DoneAt(k, events[..|events| - 1], n, j))
  {
    var front := events[..|events| - 1];
    if 0 <= n < |front| { assert front[..n] == events[..n] && front[n] == events[n]; }
  }

  lemma NeverNext(k: Kind, events: seq<Event>, j: JobId)
    requires events != []
    ensures var front, e := events[..|events| - 1], events[|events| - 1];
      Never(k, events, j) <==> Never(k, front, j) && !Does(k, Run(front), e, j)
  {
    var front, last := events[..|events| - 1], |events| - 1;
    assert DoneAt(k, events, last, j) <==> Does(k, Run(front), events[last], j);
    if Never(k, events, j) {
      forall n ensures !DoneAt(k, front, n, j) {
        DoneNext(k, events, n, j);
        assert !DoneAt(k, events, n, j);
      }
    }
    if Never(k, front, j) && !DoneAt(k, events, last, j) {
      forall n ensures !DoneAt(k, events, n, j) { DoneNext(k, events, n, j); assert !DoneAt(k, front, n, j); }
    }
  }

  lemma {:induction false} MarksMean(k: Kind, events: seq<Event>, j: JobId)
    ensures j in MarksOf(events).Of(k) <==> !Never(k, events, j)
  {
    if events != [] {
      var front := events[..|events| - 1];
      MarksMean(k, front, j);
      MarkMeans(k, MarksOf(front), Run(front), events[|events| - 1], j);
      NeverNext(k, events, j);
    }
  }

  // ---- The invariant, one job, dispatch and run at a time ----

  predicate HasVerdict(e: Entry) { e.rec.Some? && e.rec.value.state.HasVerdict() }

  predicate Closed(s: JobState) { s == Reported || s == ReportFailed }

  /** The driver has published the verdict on the claim, or is past doing so. */
  predicate PastDeciding(e: Entry) { e.driver.Some? && e.driver != Some(Driving) }

  /** What one job's own fields say about each other. */
  predicate Sound(e: Entry) {
    && (e.rec.Some? || e.driver.Some? ==> e.known)
    && (e.rec.Some? ==> (e.rec.value.state.HasVerdict() <==> e.rec.value.verdict.Some?))
    && (e.rec.Some? && e.rec.value.delivering ==> HasVerdict(e))
    && (HasVerdict(e) || e.heard || e.evicted ==> PastDeciding(e))
    && (PastDeciding(e) && e.rec.Some? ==> HasVerdict(e))
    && (e.driver.Some? && !e.evicted ==> e.rec.Some?)
    && (e.driver.Some? ==> e.wrote)
    && (e.wrote <==> e.journaled || e.heard)
    && (e.acked && !e.wrote ==> e.silent)
  }

  /** The claim is held by a run at work, which has stamped the record or is yet to; a job that was heard
      is reported, or about to be. */
  predicate Sent(e: Entry, j: JobId, reports: seq<Report>, m: Marks) {
    e.rec.Some? ==>
      && (e.rec.value.delivering ==> SenderIs(e, j, reports))
      && (e.rec.value.delivering && j !in m.clobbered ==> Closed(e.rec.value.state) || WillStamp(e, j, reports))
      && (e.heard && j !in m.reopened && j !in m.restored ==>
            e.rec.value.state == Reported || (SenderIs(e, j, reports) && reports[e.sender.value].phase == Landed(true)))
  }

  /** Nothing worse than an eviction leads to any of the marks. */
  predicate MarkedIsEvicted(e: Entry, j: JobId, m: Marks) {
    j in m.stored || j in m.reopened || j in m.restored || j in m.clobbered ==> e.evicted
  }

  ghost predicate JobAt(w: World, m: Marks, j: JobId) {
    && Sound(Of(w, j)) && Sent(Of(w, j), j, w.reports, m) && MarkedIsEvicted(Of(w, j), j, m)
    && (j in w.book.claims ==> j in w.jobs && (w.book.claims[j].verdict.Some? ==> PastDeciding(Of(w, j))))
  }

  /** The dispatch that stored the record has yet to ask for the claim. */
  predicate Promised(w: World, j: JobId) {
    Of(w, j).opener.Some? && ThreadOf(w, Of(w, j).opener.value) == ReReporting(j)
  }

  /** Once the driver is done, an unsettled record has someone coming for it. */
  ghost predicate OwedAt(w: World, m: Marks, j: JobId) {
    var e := Of(w, j);
    e.driver == Some(Finished) && e.rec.Some? && !Closed(e.rec.value.state) && j !in m.clobbered ==>
      WillStamp(e, j, w.reports) || Promised(w, j)
  }

  predicate Creator(a: Accept) {
    a.Creating? || (a.Journaling? && a.drive) || (a.Writing? && a.drive) || a.Undoing? || a.Unclaiming?
  }

  predicate InStep(a: Accept, e: Entry) {
    match a
    case Idle => true
    case Creating(_) => !e.known
    case Attaching(_, v) => v.Some? ==> PastDeciding(e)
    case Foreign(_, _) => PastDeciding(e) && e.evicted
    case Journaling(_, drive) => drive ==> e.rec.Some? && e.driver.None?
    case Writing(_, drive) => drive ==> e.rec.Some? && e.driver.None?
    case Undoing(_) => e.rec.Some? && e.driver.None?
    case Unclaiming(_) => e.known && e.driver.None?
    case ReReporting(_) => PastDeciding(e)
  }

  ghost predicate ThreadAt(w: World, t: ThreadId) {
    var a := ThreadOf(w, t); a != Idle ==> a.job in w.jobs && InStep(a, Of(w, a.job))
  }

  ghost predicate SoloAt(w: World, t: ThreadId, u: ThreadId) {
    Creator(ThreadOf(w, t)) && Creator(ThreadOf(w, u)) && ThreadOf(w, t).job == ThreadOf(w, u).job ==> t == u
  }

  predicate AtWork(r: Report, i: nat, e: Entry, m: Marks) {
    r.Active() ==>
      && PastDeciding(e)
      && (r.phase == Landed(true) || r.phase == Stamped ==> e.heard)
      && (r.job !in m.reopened ==> e.sender == Some(i) && (e.rec.Some? ==> e.rec.value.delivering))
  }

  ghost predicate ReportAt(w: World, m: Marks, i: nat) {
    i < |w.reports| ==> w.reports[i].job in w.jobs && AtWork(w.reports[i], i, Of(w, w.reports[i].job), m)
  }

  ghost predicate Inv(w: World, m: Marks) {
    && (forall j :: JobAt(w, m, j)) && (forall j :: OwedAt(w, m, j)) && (forall t :: ThreadAt(w, t))
    && (forall t, u :: SoloAt(w, t, u)) && (forall i :: ReportAt(w, m, i))
  }

  // ---- One job's entry changes ----

  /** `r` is `w` with one job's entry replaced, perhaps with other threads, reports and claims. */
  ghost predicate Only(w: World, r: World, j: JobId) {
    && j in w.jobs && j in r.jobs && r.jobs == w.jobs[j := r.jobs[j]]
    && |w.reports| <= |r.reports|
    && (forall i | 0 <= i < |w.reports| ::
       r.reports[i] == w.reports[i] || (w.reports[i].job == j && r.reports[i].job == j))
  }

  ghost predicate ClaimKept(w: World, r: World, x: JobId) {
    x in r.book.claims ==> x in w.book.claims && r.book.claims[x].verdict == w.book.claims[x].verdict
  }

  ghost predicate SameMarks(m: Marks, m': Marks, x: JobId) {
    && (x in m'.stored <==> x in m.stored) && (x in m'.reopened <==> x in m.reopened)
    && (x in m'.restored <==> x in m.restored) && (x in m'.clobbered <==> x in m.clobbered)
  }

  lemma OtherSender(w: World, r: World, j: JobId, x: JobId)
    requires Only(w, r, j) && x != j
    ensures SenderIs(Of(w, x), x, w.reports) ==>
      Of(r, x) == Of(w, x) && SenderIs(Of(r, x), x, r.reports) &&
          r.reports[Of(r, x).sender.value] == w.reports[Of(w, x).sender.value]
  {
    var e := Of(w, x);
    if SenderIs(e, x, w.reports) { assert r.reports[e.sender.value] == w.reports[e.sender.value]; }
  }

  lemma OtherJob(w: World, r: World, m: Marks, m': Marks, j: JobId, x: JobId)
    requires Only(w, r, j) && JobAt(w, m, x) && x != j && ClaimKept(w, r, x) && SameMarks(m, m', x)
    ensures JobAt(r, m', x)
  {
    OtherSender(w, r, j, x);
  }

  lemma OtherOwed(w: World, r: World, m: Marks, m': Marks, j: JobId, x: JobId)
    requires Only(w, r, j) && OwedAt(w, m, x) && x != j && SameMarks(m, m', x)
    requires Of(w, x).opener.Some? ==> ThreadKept(w, r, j, Of(w, x).opener.value)
    ensures OwedAt(r, m', x)
  {
    OtherSender(w, r, j, x);
  }

  ghost predicate ThreadKept(w: World, r: World, j: JobId, t: ThreadId) {
    var a, b := ThreadOf(w, t), ThreadOf(r, t);
    && (Creator(b) ==> Creator(a) && b.job == a.job)
    && (b != Idle && b.job == j ==> InStep(b, Of(r, j)))
    && ((a != Idle && a.job != j) || (b != Idle && b.job != j) ==> b == a)
  }

  ghost predicate RunKept(r: World, m: Marks, j: JobId, i: nat) {
    i < |r.reports| && r.reports[i].job == j ==> AtWork(r.reports[i], i, Of(r, j), m)
  }

  /** Enough to check the changed job, and the threads and runs that are about it. */
  lemma OneJob(w: World, r: World, m: Marks, m': Marks, j: JobId)
    requires Inv(w, m) && Only(w, r, j) && JobAt(r, m', j) && OwedAt(r, m', j)
    requires forall x :: x != j ==> ClaimKept(w, r, x) && SameMarks(m, m', x)
    requires forall t :: ThreadKept(w, r, j, t)
    requires forall i :: RunKept(r, m', j, i)
    requires forall i :: |w.reports| <= i < |r.reports| ==> r.reports[i].job == j
    ensures Inv(r, m')
  {
    forall x ensures JobAt(r, m', x) {
      assert JobAt(w, m, x);
      if x != j { assert ClaimKept(w, r, x) && SameMarks(m, m', x); OtherJob(w, r, m, m', j, x); }
    }
    forall x ensures OwedAt(r, m', x) {
      assert OwedAt(w, m, x);
      if x != j {
        assert SameMarks(m, m', x);
        if Of(w, x).opener.Some? { assert ThreadKept(w, r, j, Of(w, x).opener.value); }
        OtherOwed(w, r, m, m', j, x);
      }
    }
    forall t ensures ThreadAt(r, t) { assert ThreadAt(w, t) && ThreadKept(w, r, j, t); }
    forall t, u ensures SoloAt(r, t, u) { assert SoloAt(w, t, u) && ThreadKept(w, r, j, t) && ThreadKept(w, r, j, u); }
    forall i: nat ensures ReportAt(r, m', i) {
      assert ReportAt(w, m, i) && RunKept(r, m', j, i);
      if i < |r.reports| && r.reports[i].job != j { assert SameMarks(m, m', r.reports[i].job); }
    }
  }

  /** The claims and the marks are as they were. */
  lemma Unmarked(w: World, r: World, m: Marks)
    requires r.book == w.book
    ensures forall x :: ClaimKept(w, r, x) && SameMarks(m, m, x)
  {
  }

  // ---- Accepting ----

  lemma StoreRecordKeeps(w: World, m: Marks, t: ThreadId)
    requires Inv(w, m)
    ensures Inv(Apply(w, StoreRecord(t)), m)
  {
    if ThreadOf(w, t).Creating? {
      var r, j := Apply(w, StoreRecord(t)), ThreadOf(w, t).job;
      assert ThreadAt(w, t) && JobAt(w, m, j) && OwedAt(w, m, j);
      Unmarked(w, r, m);
      forall u ensures ThreadKept(w, r, j, u) { assert ThreadAt(w, u) && SoloAt(w, t, u); }
      forall i ensures RunKept(r, m, j, i) { assert ReportAt(w, m, i); }
      OneJob(w, r, m, m, j);
    }
  }

  lemma StoreForeignKeeps(w: World, m: Marks, t: ThreadId)
    requires Inv(w, m)
    ensures Inv(Apply(w, StoreForeign(t)), Mark(m, w, StoreForeign(t)))
  {
    if ThreadOf(w, t).Foreign? {
      var r, j := Apply(w, StoreForeign(t)), ThreadOf(w, t).job;
      var m' := Mark(m, w, StoreForeign(t));
      assert ThreadAt(w, t) && JobAt(w, m, j);
      forall x ensures x != j ==> ClaimKept(w, r, x) && SameMarks(m, m', x) {}
      forall u ensures ThreadKept(w, r, j, u) { assert ThreadAt(w, u); }
      forall i ensures RunKept(r, m', j, i) { assert ReportAt(w, m, i); }
      OneJob(w, r, m, m', j);
    }
  }

  /** Only a thread moves on, and not one that was about to ask for a claim. */
  lemma TurnKeeps(w: World, m: Marks, t: ThreadId, a: Accept)
    requires Inv(w, m) && (a != Idle ==> a.job in w.jobs && InStep(a, Of(w, a.job))) && !ThreadOf(w, t).ReReporting?
    requires Creator(a) ==> Creator(ThreadOf(w, t)) && a.job == ThreadOf(w, t).job
    ensures Inv(Turn(w, t, a), m)
  {
    var r := Turn(w, t, a);
    forall x ensures JobAt(r, m, x) { assert JobAt(w, m, x); }
    forall x ensures OwedAt(r, m, x) { assert OwedAt(w, m, x); }
    forall u ensures ThreadAt(r, u) { assert ThreadAt(w, u); }
    forall u, v ensures SoloAt(r, u, v) { assert SoloAt(w, u, v); }
    forall i ensures ReportAt(r, m, i) { assert ReportAt(w, m, i); }
  }

  /** The three ways to acknowledge: having journaled, having found nothing to journal, having nothing to. */
  predicate AckOf(n: Entry, e: Entry, drive: bool) {
    || (e == n.(journaled := true, wrote := true) && (drive ==> n.rec.Some? && n.driver.None?))
    || (!drive && e == n.(silent := true)) || (!drive && e == n && n.wrote)
  }

  lemma AckIsSound(n: Entry, e: Entry, drive: bool)
    requires Sound(n) && AckOf(n, e, drive)
    ensures var r := WithAck(e, drive);
      && Sound(r) && r.rec == n.rec && r.sender == n.sender && r.opener == n.opener && r.heard == n.heard
      && r.known == n.known
      && r.evicted == n.evicted && r.driver == (if drive then Some(Driving) else n.driver)
  {
  }

  /** A thread leaves, having acknowledged its dispatch. */
  lemma AckedKeeps(w: World, m: Marks, t: ThreadId, j: JobId, drive: bool, e: Entry)
    requires Inv(w, m) && j in w.jobs && ThreadOf(w, t) != Idle && ThreadOf(w, t).job == j &&
             (drive ==> Creator(ThreadOf(w, t)))
    requires AckOf(Of(w, j), e, drive)
    requires ThreadOf(w, t).ReReporting? && e.rec.Some? && j !in m.clobbered ==>
      Closed(e.rec.value.state) || WillStamp(e, j, w.reports)
    ensures Inv(Acked(w, t, j, drive, e), m)
  {
    var r := Acked(w, t, j, drive, e);
    assert JobAt(w, m, j) && OwedAt(w, m, j);
    AckIsSound(Of(w, j), e, drive);
    Unmarked(w, r, m);
    forall u ensures ThreadKept(w, r, j, u) { assert ThreadAt(w, u) && SoloAt(w, t, u); }
    forall i ensures RunKept(r, m, j, i) { assert ReportAt(w, m, i); }
    OneJob(w, r, m, m, j);
  }

  lemma LookKeeps(w: World, m: Marks, t: ThreadId)
    requires Inv(w, m)
    ensures Inv(Apply(w, Look(t)), m)
  {
    var a := ThreadOf(w, t);
    if a.Attaching? {
      assert ThreadAt(w, t) && JobAt(w, m, a.job);
      var n := Of(w, a.job);
      if n.rec.None? && a.verdict.None? {
        AckedKeeps(w, m, t, a.job, false, n.(silent := true));
      } else {
        TurnKeeps(w, m, t, ThreadOf(Apply(w, Look(t)), t));
      }
    }
  }

  lemma ReadIntentKeeps(w: World, m: Marks, t: ThreadId)
    requires Inv(w, m)
    ensures Inv(Apply(w, ReadIntent(t)), m)
  {
    var a := ThreadOf(w, t);
    if a.Journaling? {
      assert ThreadAt(w, t);
      if Of(w, a.job).rec.Some? {
        TurnKeeps(w, m, t, Writing(a.job, a.drive));
      } else {
        AckedKeeps(w, m, t, a.job, a.drive, Of(w, a.job).(silent := true));
      }
    }
  }

  lemma WriteIntentKeeps(w: World, m: Marks, t: ThreadId, ok: bool)
    requires Inv(w, m)
    ensures Inv(Apply(w, WriteIntent(t, ok)), m)
  {
    var a := ThreadOf(w, t);
    if a.Writing? {
      assert ThreadAt(w, t);
      if ok {
        AckedKeeps(w, m, t, a.job, a.drive, Of(w, a.job).(journaled := true, wrote := true));
      } else {
        TurnKeeps(w, m, t, if a.drive then Undoing(a.job) else Idle);
      }
    }
  }

  lemma RemoveRecordKeeps(w: World, m: Marks, t: ThreadId)
    requires Inv(w, m)
    ensures Inv(Apply(w, RemoveRecord(t)), m)
  {
    if ThreadOf(w, t).Undoing? {
      var r, j := Apply(w, RemoveRecord(t)), ThreadOf(w, t).job;
      assert ThreadAt(w, t) && JobAt(w, m, j);
      Unmarked(w, r, m);
      forall u ensures ThreadKept(w, r, j, u) { assert ThreadAt(w, u) && SoloAt(w, t, u); }
      forall i ensures RunKept(r, m, j, i) { assert ReportAt(w, m, i); }
      OneJob(w, r, m, m, j);
    }
  }

  /** Forgetting a claim takes nothing from anyone else. */
  lemma ForgetKeeps(w: World, r: World, m: Marks, j: JobId)
    requires Inv(w, m) && r == w.(book := Claims.Forget(w.book, j))
    ensures Inv(r, m)
  {
    forall x ensures JobAt(r, m, x) { assert JobAt(w, m, x); }
    forall x ensures OwedAt(r, m, x) { assert OwedAt(w, m, x); }
    forall u ensures ThreadAt(r, u) { assert ThreadAt(w, u); }
    forall u, v ensures SoloAt(r, u, v) { assert SoloAt(w, u, v); }
    forall i ensures ReportAt(r, m, i) { assert ReportAt(w, m, i); }
  }

  lemma UnclaimKeeps(w: World, m: Marks, t: ThreadId)
    requires Inv(w, m)
    ensures Inv(Apply(w, Unclaim(t)), m)
  {
    if ThreadOf(w, t).Unclaiming? {
      var mid := w.(book := Claims.Forget(w.book, ThreadOf(w, t).job));
      ForgetKeeps(w, mid, m, ThreadOf(w, t).job);
      TurnKeeps(mid, m, t, Idle);
    }
  }

  lemma AdmitClaims(b: Claims.Book, key: Claims.TreeKey, proposed: JobId, url: string, at: int, retention: int,
                    x: JobId)
    requires x in Claims.Admit(b, key, proposed, url, at, retention).0.claims && x != proposed
    ensures x in b.claims &&
            Claims.Admit(b, key, proposed, url, at, retention).0.claims[x].verdict == b.claims[x].verdict
  {
  }

  lemma AdmitAnswers(b: Claims.Book, key: Claims.TreeKey, proposed: JobId, url: string, at: int, retention: int)
    ensures var (r, a) := Claims.Admit(b, key, proposed, url, at, retention);
      && (a.Created? ==> a.job == proposed && proposed in r.claims && r.claims[proposed].verdict.None?)
      && (a.Attached? ==> a.job in b.claims && a.verdict == b.claims[a.job].verdict)
  {
  }

  lemma ArriveKeeps(w: World, m: Marks, e: Event)
    requires Inv(w, m) && e.Arrive?
    ensures Inv(Apply(w, e), m)
  {
    var r := Apply(w, e);
    if ThreadOf(w, e.t) == Idle && e.proposed !in w.jobs {
      var a := Claims.Admit(w.book, e.key, e.proposed, e.url, e.at, e.retention).1;
      AdmitAnswers(w.book, e.key, e.proposed, e.url, e.at, e.retention);
      assert JobAt(w, m, e.proposed) && JobAt(w, m, a.job);
      forall x ensures JobAt(r, m, x) {
        assert JobAt(w, m, x);
        if x in r.book.claims && x != e.proposed {
          AdmitClaims(w.book, e.key, e.proposed, e.url, e.at, e.retention, x);
        }
      }
      forall x ensures OwedAt(r, m, x) { assert OwedAt(w, m, x); }
      forall u ensures ThreadAt(r, u) { assert ThreadAt(w, u); }
      forall u, v ensures SoloAt(r, u, v) { assert SoloAt(w, u, v) && ThreadAt(w, u) && ThreadAt(w, v); }
      forall i ensures ReportAt(r, m, i) { assert ReportAt(w, m, i); }
    }
  }

  // ---- Taking the delivery claim ----

  /** The claim goes to a new run only when none is at work; afterwards the last taker, if the record is
      not settled, has yet to stamp it. */
  lemma ClaimedKeeps(w: World, m: Marks, j: JobId, now: Instant)
    requires Inv(w, m) && j in w.jobs && PastDeciding(Of(w, j))
    ensures Inv(Claimed(w, j, now), m)
    ensures var r, e := Claimed(w, j, now), Of(Claimed(w, j, now), j);
      && r.threads == w.threads && r.book == w.book && j in r.jobs && e == Of(w, j).(rec := e.rec, sender := e.sender)
      && (e.rec.Some? && j !in m.clobbered ==> Closed(e.rec.value.state) || WillStamp(e, j, r.reports))
  {
    var r := Claimed(w, j, now);
    assert JobAt(w, m, j) && OwedAt(w, m, j);
    Unmarked(w, r, m);
    if r != w {
      if Of(w, j).sender.Some? { assert ReportAt(w, m, Of(w, j).sender.value); }
      forall u ensures ThreadKept(w, r, j, u) { assert ThreadAt(w, u); }
      forall i ensures RunKept(r, m, j, i) { assert ReportAt(w, m, i); }
      OneJob(w, r, m, m, j);
    }
  }

  lemma ReReportKeeps(w: World, m: Marks, t: ThreadId, now: Instant)
    requires Inv(w, m)
    ensures Inv(Apply(w, ReReport(t, now)), m)
  {
    if ThreadOf(w, t).ReReporting? {
      var j := ThreadOf(w, t).job;
      assert ThreadAt(w, t);
      ClaimedKeeps(w, m, j, now);
      var c := Claimed(w, j, now);
      assert JobAt(c, m, j);
      AckedKeeps(c, m, t, j, false, Of(c, j));
    }
  }

  lemma DrainKeeps(w: World, m: Marks, j: JobId, now: Instant, cooldown: nat)
    requires Inv(w, m)
    ensures Inv(Drained(w, j, now, cooldown), m)
  {
    assert JobAt(w, m, j);
    if Of(w, j).rec.Some? && Of(w, j).rec.value.AwaitsRedelivery(now, cooldown) { ClaimedKeeps(w, m, j, now); }
  }

  // ---- Driving and finishing ----

  /** Only the entry changes, and no thread or run is any the wiser. */
  lemma EntryKeeps(w: World, r: World, m: Marks, j: JobId)
    requires Inv(w, m) && j in w.jobs && j in r.jobs && r == w.(jobs := w.jobs[j := r.jobs[j]], book := r.book)
    requires JobAt(r, m, j) && OwedAt(r, m, j) && forall x :: x != j ==> ClaimKept(w, r, x)
    requires var a, b := Of(w, j), Of(r, j);
      && a.driver.Some? && b.driver.Some? && b.known && (PastDeciding(a) ==> PastDeciding(b))
      && (a.evicted ==> b.evicted)
      && b.sender == a.sender && b.heard == a.heard
      && (b.rec.Some? ==> a.rec.Some? && (a.rec.value.delivering ==> b.rec.value.delivering))
    ensures Inv(r, m)
  {
    assert JobAt(w, m, j);
    forall x ensures SameMarks(m, m, x) {}
    forall u ensures ThreadKept(w, r, j, u) { assert ThreadAt(w, u); }
    forall i ensures RunKept(r, m, j, i) { assert ReportAt(w, m, i); }
    OneJob(w, r, m, m, j);
  }

  lemma WalkKeeps(w: World, m: Marks, j: JobId, next: JobState)
    requires Inv(w, m)
    ensures Inv(Apply(w, Walk(j, next)), m)
  {
    var r := Apply(w, Walk(j, next));
    assert JobAt(w, m, j);
    Unmarked(w, r, m);
    if r != w { EntryKeeps(w, r, m, j); }
  }

  /** Whatever is decided, and whenever, is a legal move to a state with a verdict. */
  lemma DecidedIsSound(n: Entry, v: Status)
    requires Sound(n) && n.driver == Some(Driving) && n.rec.Some? && MayDecide(n.rec.value.state, v)
    ensures Sound(WithVerdict(n, v)) && HasVerdict(WithVerdict(n, v)) && !WithVerdict(n, v).rec.value.delivering
  {
  }

  lemma DecideKeeps(w: World, m: Marks, j: JobId, v: Status)
    requires Inv(w, m)
    ensures Inv(Apply(w, Decide(j, v)), m)
  {
    var n := Of(w, j);
    assert JobAt(w, m, j);
    if n.driver == Some(Driving) && MayDecide(n.rec.value.state, v) {
      var r := Put(w, j, WithVerdict(n, v));
      DecidedIsSound(n, v);
      Unmarked(w, r, m);
      EntryKeeps(w, r, m, j);
    }
  }

  lemma PublishKeeps(w: World, m: Marks, e: Event)
    requires Inv(w, m) && e.Publish?
    ensures Inv(Apply(w, e), m)
  {
    var r := Apply(w, e);
    assert JobAt(w, m, e.job) && OwedAt(w, m, e.job);
    forall x ensures x != e.job ==> ClaimKept(w, r, x) {}
    if r != w { EntryKeeps(w, r, m, e.job); }
  }

  lemma ReadVerdictKeeps(w: World, m: Marks, j: JobId)
    requires Inv(w, m)
    ensures Inv(Apply(w, ReadVerdict(j)), m)
  {
    var r := Apply(w, ReadVerdict(j));
    assert JobAt(w, m, j);
    Unmarked(w, r, m);
    if r != w { EntryKeeps(w, r, m, j); }
  }

  lemma WriteVerdictKeeps(w: World, m: Marks, j: JobId, ok: bool)
    requires Inv(w, m)
    ensures Inv(Apply(w, WriteVerdict(j, ok)), m)
  {
    var r := Apply(w, WriteVerdict(j, ok));
    assert JobAt(w, m, j);
    Unmarked(w, r, m);
    if r != w { EntryKeeps(w, r, m, j); }
  }

  lemma ClaimFirstKeeps(w: World, m: Marks, j: JobId, now: Instant)
    requires Inv(w, m)
    ensures Inv(Apply(w, ClaimFirst(j, now)), m)
  {
    var r := Apply(w, ClaimFirst(j, now));
    assert JobAt(w, m, j);
    if Of(w, j).driver == Some(Rewritten) {
      ClaimedKeeps(w, m, j, now);
      var c := Claimed(w, j, now);
      assert JobAt(c, m, j);
      Unmarked(c, r, m);
      EntryKeeps(c, r, m, j);
    }
  }

  lemma EvictKeeps(w: World, m: Marks, j: JobId)
    requires Inv(w, m)
    ensures Inv(Evicted(w, j), m)
  {
    var r := Evicted(w, j);
    assert JobAt(w, m, j);
    Unmarked(w, r, m);
    if r != w { EntryKeeps(w, r, m, j); }
  }

  // ---- One report run ----

  ghost predicate RunStep(w: World, r: World, i: nat, phase: Sending) {
    && i < |w.reports| && r.reports == w.reports[i := Report(w.reports[i].job, phase)]
    && r.threads == w.threads && r.book == w.book
    && w.reports[i].job in w.jobs && w.reports[i].job in r.jobs
    && r.jobs == w.jobs[w.reports[i].job := r.jobs[w.reports[i].job]]
  }

  /** The entry of the run's own job changes as its phase does. */
  lemma RunKeepsInv(w: World, r: World, m: Marks, i: nat, phase: Sending)
    requires Inv(w, m) && RunStep(w, r, i, phase) && w.reports[i].Active()
    requires var j := w.reports[i].job; JobAt(r, m, j) && OwedAt(r, m, j) && AtWork(Report(j, phase), i, Of(r, j), m)
    requires var a, b := Of(w, w.reports[i].job), Of(r, w.reports[i].job);
      && b.driver == a.driver && b.known == a.known && b.evicted == a.evicted && b.sender == a.sender
      && (a.heard ==> b.heard)
      && (b.rec.Some? <==> a.rec.Some?)
    ensures Inv(r, m)
  {
    var j := w.reports[i].job;
    Unmarked(w, r, m);
    assert ReportAt(w, m, i);
    forall u ensures ThreadKept(w, r, j, u) { assert ThreadAt(w, u); }
    forall k ensures RunKept(r, m, j, k) { assert ReportAt(w, m, k); }
    OneJob(w, r, m, m, j);
  }

  lemma BeginKeeps(w: World, m: Marks, i: nat)
    requires Inv(w, m)
    ensures Inv(Apply(w, Begin(i)), m)
  {
    if i < |w.reports| && w.reports[i].phase == Opening {
      var r, j := Apply(w, Begin(i)), w.reports[i].job;
      assert ReportAt(w, m, i) && JobAt(w, m, j) && OwedAt(w, m, j);
      RunKeepsInv(w, r, m, i, r.reports[i].phase);
    }
  }

  lemma LandKeeps(w: World, m: Marks, i: nat, ok: bool)
    requires Inv(w, m)
    ensures Inv(Apply(w, Land(i, ok)), m)
  {
    if i < |w.reports| && w.reports[i].phase == Attempting {
      var r, j := Apply(w, Land(i, ok)), w.reports[i].job;
      assert ReportAt(w, m, i) && JobAt(w, m, j) && OwedAt(w, m, j);
      RunKeepsInv(w, r, m, i, r.reports[i].phase);
    }
  }

  /** A stamp settles the record, never takes `Reported` back, and changes nothing else. */
  lemma StampSettles(n: Entry, ok: bool)
    requires Sound(n) && PastDeciding(n)
    ensures var r := StampedWith(n, ok);
      && Sound(r) && r == n.(rec := r.rec) && (r.rec.Some? <==> n.rec.Some?)
      && (r.rec.Some? ==>
            && Closed(r.rec.value.state) && r.rec.value.delivering == n.rec.value.delivering
            && (ok || n.rec.value.state == Reported ==> r.rec.value.state == Reported))
  {
  }

  lemma StampKeeps(w: World, m: Marks, i: nat)
    requires Inv(w, m)
    ensures Inv(Apply(w, Stamp(i)), m)
  {
    if i < |w.reports| && w.reports[i].phase.Landed? {
      var r, j := Apply(w, Stamp(i)), w.reports[i].job;
      assert ReportAt(w, m, i) && JobAt(w, m, j) && OwedAt(w, m, j);
      StampSettles(Of(w, j), w.reports[i].phase.ok);
      RunKeepsInv(w, r, m, i, r.reports[i].phase);
    }
  }

  lemma PayKeeps(w: World, m: Marks, i: nat)
    requires Inv(w, m)
    ensures Inv(Apply(w, Pay(i)), m)
  {
    if i < |w.reports| && w.reports[i].phase == Stamped {
      var r, j := Apply(w, Pay(i)), w.reports[i].job;
      assert ReportAt(w, m, i) && JobAt(w, m, j) && OwedAt(w, m, j);
      RunKeepsInv(w, r, m, i, r.reports[i].phase);
    }
  }

  lemma ReleaseKeeps(w: World, m: Marks, i: nat, now: Instant)
    requires Inv(w, m)
    ensures Inv(Apply(w, Release(i, now)), m)
  {
    if i < |w.reports| && w.reports[i].phase == Releasing {
      var r, j := Apply(w, Release(i, now)), w.reports[i].job;
      assert ReportAt(w, m, i) && JobAt(w, m, j) && OwedAt(w, m, j);
      RunKeepsInv(w, r, m, i, r.reports[i].phase);
    }
  }

  // ---- Every run ----

  lemma AcceptingKeeps(w: World, m: Marks, e: Event)
    requires Inv(w, m) && IsAccept(e)
    ensures Inv(Apply(w, e), Mark(m, w, e))
  {
    match e
    case StoreRecord(t) => StoreRecordKeeps(w, m, t);
    case Look(t) => LookKeeps(w, m, t);
    case StoreForeign(t) => StoreForeignKeeps(w, m, t);
    case ReadIntent(t) => ReadIntentKeeps(w, m, t);
    case WriteIntent(t, ok) => WriteIntentKeeps(w, m, t, ok);
    case RemoveRecord(t) => RemoveRecordKeeps(w, m, t);
    case Unclaim(t) => UnclaimKeeps(w, m, t);
    case ReReport(t, now) => ReReportKeeps(w, m, t, now);
  }

  lemma ProgressKeeps(w: World, m: Marks, e: Event)
    requires Inv(w, m) && IsDrive(e)
    ensures Inv(Apply(w, e), m)
  {
    match e
    case Walk(j, next) => WalkKeeps(w, m, j, next);
    case Decide(j, v) => DecideKeeps(w, m, j, v);
    case Publish(_, _) => PublishKeeps(w, m, e);
    case ReadVerdict(j) => ReadVerdictKeeps(w, m, j);
    case WriteVerdict(j, ok) => WriteVerdictKeeps(w, m, j, ok);
    case ClaimFirst(j, now) => ClaimFirstKeeps(w, m, j, now);
  }

  lemma ReportingKeeps(w: World, m: Marks, e: Event)
    requires Inv(w, m) && IsReport(e)
    ensures Inv(Apply(w, e), m)
  {
    match e
    case Begin(i) => BeginKeeps(w, m, i);
    case Land(i, ok) => LandKeeps(w, m, i, ok);
    case Stamp(i) => StampKeeps(w, m, i);
    case Pay(i) => PayKeeps(w, m, i);
    case Release(i, now) => ReleaseKeeps(w, m, i, now);
  }

  lemma ApplyKeeps(w: World, m: Marks, e: Event)
    requires Inv(w, m)
    ensures Inv(Apply(w, e), Mark(m, w, e))
  {
    if IsAccept(e) { AcceptingKeeps(w, m, e); }
    else if IsDrive(e) { ProgressKeeps(w, m, e); }
    else if IsReport(e) { ReportingKeeps(w, m, e); }
    else {
      match e
      case Arrive(_, _, _, _, _, _) => ArriveKeeps(w, m, e);
      case Drain(j, now, cooldown) => DrainKeeps(w, m, j, now, cooldown);
      case Evict(j) => EvictKeeps(w, m, j);
      case ForgetEvicted(j) => if Of(w, j).evicted { ForgetKeeps(w, Apply(w, e), m, j); }
    }
  }

  lemma StartIsSound()
    ensures Inv(START, UNMARKED)
  {
    var m := UNMARKED;
    forall j ensures JobAt(START, m, j) {}
    forall j ensures OwedAt(START, m, j) {}
    forall t ensures ThreadAt(START, t) {}
    forall t, u ensures SoloAt(START, t, u) {}
    forall i ensures ReportAt(START, m, i) {}
  }

  lemma {:induction false} RunKeeps(events: seq<Event>)
    ensures Inv(Run(events), MarksOf(events))
  {
    if events == [] {
      StartIsSound();
    } else {
      var front := events[..|events| - 1];
      RunKeeps(front);
      ApplyKeeps(Run(front), MarksOf(front), events[|events| - 1]);
    }
  }
}
