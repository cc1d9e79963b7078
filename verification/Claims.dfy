/** Who drives a tree, and who may hand a step to the fleet: the claim store of one process. */
module Claims {
  import opened Wrappers
  import opened JobModel
  import opened Aggregate

  datatype TreeKey = TreeKey(repo: string, treeId: string)

  datatype Claim = Claim(key: TreeKey, urls: seq<string>, verdict: Option<Status>, settledAt: Option<int>,
      steps: set<StepId>)

  datatype Book = Book(byKey: map<TreeKey, JobId>, claims: map<JobId, Claim>)

  const EMPTY := Book(map[], map[])

  datatype Admitted = Created(job: JobId) | Attached(job: JobId, verdict: Option<Status>)

  datatype StepClaim = Granted | Taken | Fenced

  const I64_MAX: int := 0x7FFF_FFFF_FFFF_FFFF
  const I64_MIN: int := -0x8000_0000_0000_0000

  /** `i64::saturating_sub` */
  function SaturatingSub(a: int, b: int): int {
    if a - b > I64_MAX then I64_MAX else if a - b < I64_MIN then I64_MIN else a - b
  }

  // ---- The operations, as functions of the store ----

  /** The tree's claim settled at least `retention` ago. */
  predicate Stale(b: Book, key: TreeKey, now: int, retention: int) {
    && key in b.byKey && b.byKey[key] in b.claims
    && var at := b.claims[b.byKey[key]].settledAt;
       at.Some? && SaturatingSub(now, at.value) >= retention
  }

  function DropStale(b: Book, key: TreeKey, now: int, retention: int): Book {
    if Stale(b, key, now, retention) then Book(b.byKey - {key}, b.claims - {b.byKey[key]}) else b
  }

  function WithUrl(urls: seq<string>, url: string): seq<string> { if url in urls then urls else urls + [url] }

  function InsertOrAttach(b: Book, key: TreeKey, proposed: JobId, url: string): (Book, Admitted) {
    if key in b.byKey && b.byKey[key] in b.claims then
      var j := b.byKey[key];
      (b.(claims := b.claims[j := b.claims[j].(urls := WithUrl(b.claims[j].urls, url))]),
          Attached(j, b.claims[j].verdict))
    else
      (Book(b.byKey[key := proposed], b.claims[proposed := Claim(key, [url], None, None, {})]), Created(proposed))
  }

  function Admit(b: Book, key: TreeKey, proposed: JobId, url: string, now: int, retention: int): (Book, Admitted) {
    InsertOrAttach(DropStale(b, key, now, retention), key, proposed, url)
  }

  function ClaimStep(b: Book, j: JobId, s: StepId): (Book, StepClaim) {
    if j !in b.claims then (b, Fenced)
    else if s in b.claims[j].steps then (b, Taken)
    else (b.(claims := b.claims[j := b.claims[j].(steps := b.claims[j].steps + {s})]), Granted)
  }

  function ReleaseStep(b: Book, j: JobId, s: StepId): Book {
    if j in b.claims then b.(claims := b.claims[j := b.claims[j].(steps := b.claims[j].steps - {s})]) else b
  }

  function Settle(b: Book, j: JobId, v: Status, now: int): Book {
    if j in b.claims then b.(claims := b.claims[j := b.claims[j].(verdict := Some(v), settledAt := Some(now))]) else b
  }

  function Forget(b: Book, j: JobId): Book {
    if j !in b.claims then b
    else
      var key := b.claims[j].key;
      Book(if key in b.byKey && b.byKey[key] == j then b.byKey - {key} else b.byKey, b.claims - {j})
  }

  class LocalClaims {
    var byKey: map<TreeKey, JobId>
    var claims: map<JobId, Claim>

    function State(): Book reads this { Book(byKey, claims) }

    constructor ()
      ensures State() == EMPTY
    {
      byKey, claims := map[], map[];
    }

    method AdmitTree(key: TreeKey, proposed: JobId, url: string, now: int, retention: int) returns (r: Admitted)
      modifies this
      ensures (State(), r) == Admit(old(State()), key, proposed, url, now, retention)
    {
      ghost var kept := DropStale(State(), key, now, retention);
      if Stale(State(), key, now, retention) {
        var id := byKey[key];
        byKey := byKey - {key};
        claims := claims - {id};
      }
      if key in byKey {
        var existing := byKey[key];
        if existing in claims {
          var claim := claims[existing];
          if url !in claim.urls { claim := claim.(urls := claim.urls + [url]); }
          claims := claims[existing := claim];
          return Attached(existing, claim.verdict);
        }
        byKey := byKey - {key};
      }
      byKey := byKey[key := proposed];
      assert byKey == kept.byKey[key := proposed];
      claims := claims[proposed := Claim(key, [url], None, None, {})];
      r := Created(proposed);
    }

    method Renew(job: JobId) returns (held: bool)
      ensures held == (job in State().claims)
    {
      held := job in claims;
    }

    method TakeStep(job: JobId, step: StepId) returns (r: StepClaim)
      modifies this
      ensures (State(), r) == ClaimStep(old(State()), job, step)
    {
      if job !in claims { return Fenced; }
      var had := step in claims[job].steps;
      claims := claims[job := claims[job].(steps := claims[job].steps + {step})];
      assert had ==> claims == old(claims) by {
        if had { assert old(claims)[job].steps + {step} == old(claims)[job].steps; }
      }
      r := if had then Taken else Granted;
    }

    method GiveBackStep(job: JobId, step: StepId)
      modifies this
      ensures State() == ReleaseStep(old(State()), job, step)
    {
      if job in claims { claims := claims[job := claims[job].(steps := claims[job].steps - {step})]; }
    }

    method Publish(job: JobId, verdict: Status, now: int)
      modifies this
      ensures State() == Settle(old(State()), job, verdict, now)
    {
      if job in claims { claims := claims[job := claims[job].(verdict := Some(verdict), settledAt := Some(now))]; }
    }

    method Destinations(job: JobId) returns (urls: seq<string>)
      ensures urls == if job in State().claims then State().claims[job].urls else []
    {
      urls := if job in claims then claims[job].urls else [];
    }

    method Drop(job: JobId)
      modifies this
      ensures State() == Forget(old(State()), job)
    {
      if job in claims {
        var key := claims[job].key;
        claims := claims - {job};
        if key in byKey && byKey[key] == job { byKey := byKey - {key}; }
      }
    }
  }

  // ---- The index and the claims agree ----

  /** The index points at a claim for that very tree. */
  ghost predicate IndexedAt(b: Book, key: TreeKey) {
    key in b.byKey ==> b.byKey[key] in b.claims && b.claims[b.byKey[key]].key == key
  }

  /** Every claim is the one its tree's index points at. */
  ghost predicate ListedAt(b: Book, j: JobId) {
    j in b.claims ==> b.claims[j].key in b.byKey && b.byKey[b.claims[j].key] == j
  }

  ghost predicate Consistent(b: Book) {
    (forall key :: IndexedAt(b, key)) && (forall j :: ListedAt(b, j))
  }

  /** A tree is claimed by at most one job. */
  lemma OneJobPerTree(b: Book, i: JobId, j: JobId)
    requires Consistent(b) && i in b.claims && j in b.claims && b.claims[i].key == b.claims[j].key
    ensures i == j
  {
    assert ListedAt(b, i) && ListedAt(b, j);
  }

  lemma DropStaleConsistent(b: Book, key: TreeKey, now: int, retention: int)
    requires Consistent(b)
    ensures Consistent(DropStale(b, key, now, retention))
  {
    var r := DropStale(b, key, now, retention);
    forall k ensures IndexedAt(r, k) {
      assert IndexedAt(b, k) && IndexedAt(b, key);
    }
    forall j ensures ListedAt(r, j) { assert ListedAt(b, j) && IndexedAt(b, key); }
  }

  lemma InsertConsistent(b: Book, key: TreeKey, proposed: JobId, url: string)
    requires Consistent(b) && proposed !in b.claims
    ensures Consistent(InsertOrAttach(b, key, proposed, url).0)
  {
    var r := InsertOrAttach(b, key, proposed, url).0;
    forall k ensures IndexedAt(r, k) { assert IndexedAt(b, k) && IndexedAt(b, key); }
    forall j ensures ListedAt(r, j) { assert ListedAt(b, j) && IndexedAt(b, key); }
  }

  lemma ForgetConsistent(b: Book, job: JobId)
    requires Consistent(b)
    ensures Consistent(Forget(b, job))
  {
    var r := Forget(b, job);
    forall k ensures IndexedAt(r, k) {
      assert IndexedAt(b, k) && ListedAt(b, job);
      if k in b.byKey { assert ListedAt(b, b.byKey[k]); }
    }
    forall j ensures ListedAt(r, j) { assert ListedAt(b, j) && ListedAt(b, job); }
  }

  /** Claims as they were, but for fields other than the tree. */
  lemma SameTreesConsistent(b: Book, r: Book)
    requires Consistent(b) && r.byKey == b.byKey && r.claims.Keys == b.claims.Keys
    requires forall j | j in b.claims :: r.claims[j].key == b.claims[j].key
    ensures Consistent(r)
  {
    forall k ensures IndexedAt(r, k) { assert IndexedAt(b, k); }
    forall j ensures ListedAt(r, j) { assert ListedAt(b, j); }
  }

  /** What `admit` decides: it attaches exactly when the tree has a claim that is not past its
      retention, to that claim's job; otherwise the proposed job is the tree's one claim. Either way the
      caller's URL is among the answer's destinations, and no other job's claim changes. */
  lemma AdmitDecides(b: Book, key: TreeKey, proposed: JobId, url: string, now: int, retention: int)
    requires Consistent(b) && proposed !in b.claims
    ensures var (r, a) := Admit(b, key, proposed, url, now, retention);
      && (a.Attached? <==> key in b.byKey && !Stale(b, key, now, retention))
      && (a.Attached? ==> a == Attached(b.byKey[key], b.claims[b.byKey[key]].verdict))
      && (a.Created? ==> a.job == proposed)
      && a.job in r.claims && r.claims[a.job].key == key && url in r.claims[a.job].urls
      && (forall j | j in b.claims && b.claims[j].key != key :: j in r.claims && r.claims[j] == b.claims[j])
  {
    assert IndexedAt(b, key);
    forall j | j in b.claims && b.claims[j].key != key
      ensures j in Admit(b, key, proposed, url, now, retention).0.claims
    {
      assert ListedAt(b, j);
    }
  }

  // ---- Whole histories ----

  datatype Op =
    | AdmitOp(key: TreeKey, proposed: JobId, url: string, now: int, retention: int)
    | ClaimOp(job: JobId, step: StepId)
    | ReleaseOp(job: JobId, step: StepId)
    | SettleOp(job: JobId, verdict: Status, now: int)
    | ForgetOp(job: JobId)

  function Apply(b: Book, op: Op): Book {
    match op
    case AdmitOp(key, proposed, url, now, retention) => Admit(b, key, proposed, url, now, retention).0
    case ClaimOp(j, s) => ClaimStep(b, j, s).0
    case ReleaseOp(j, s) => ReleaseStep(b, j, s)
    case SettleOp(j, v, now) => Settle(b, j, v, now)
    case ForgetOp(j) => Forget(b, j)
  }

  function Replay(ops: seq<Op>): Book {
    if ops == [] then EMPTY else Apply(Replay(ops[..|ops| - 1]), ops[|ops| - 1])
  }

  predicate Proposes(op: Op, j: JobId) { op.AdmitOp? && op.proposed == j }

  /** No id is proposed twice. */
  ghost predicate FreshIds(ops: seq<Op>) {
    forall i, k | 0 <= i < k < |ops| && ops[i].AdmitOp? :: !Proposes(ops[k], ops[i].proposed)
  }

  ghost predicate EverProposed(ops: seq<Op>, j: JobId) { exists i | 0 <= i < |ops| :: Proposes(ops[i], j) }

  lemma ApplyConsistent(b: Book, op: Op)
    requires Consistent(b) && (op.AdmitOp? ==> op.proposed !in b.claims)
    ensures Consistent(Apply(b, op))
  {
    match op
    case AdmitOp(key, proposed, url, now, retention) =>
      DropStaleConsistent(b, key, now, retention);
      InsertConsistent(DropStale(b, key, now, retention), key, proposed, url);
    case ForgetOp(j) => ForgetConsistent(b, j);
    case _ => SameTreesConsistent(b, Apply(b, op));
  }

  lemma ApplyAddsProposed(b: Book, op: Op, j: JobId)
    requires j in Apply(b, op).claims
    ensures j in b.claims || Proposes(op, j)
  {
  }

  lemma {:induction false} ClaimsWereProposed(ops: seq<Op>, j: JobId)
    requires j in Replay(ops).claims
    ensures EverProposed(ops, j)
  {
    var front, op := ops[..|ops| - 1], ops[|ops| - 1];
    ApplyAddsProposed(Replay(front), op, j);
    if j in Replay(front).claims {
      ClaimsWereProposed(front, j);
      var i :| 0 <= i < |front| && Proposes(front[i], j);
      assert Proposes(ops[i], j);
    }
  }

  lemma FreshFront(ops: seq<Op>)
    requires FreshIds(ops) && ops != []
    ensures FreshIds(ops[..|ops| - 1])
  {
  }

  lemma LastIsFresh(ops: seq<Op>)
    requires FreshIds(ops) && ops != [] && ops[|ops| - 1].AdmitOp?
    ensures ops[|ops| - 1].proposed !in Replay(ops[..|ops| - 1]).claims
  {
    var front, j := ops[..|ops| - 1], ops[|ops| - 1].proposed;
    ProposedOnce(ops, j);
    if j in Replay(front).claims { ClaimsWereProposed(front, j); }
  }

  lemma ProposedOnce(ops: seq<Op>, j: JobId)
    requires FreshIds(ops) && ops != [] && Proposes(ops[|ops| - 1], j)
    ensures !EverProposed(ops[..|ops| - 1], j)
  {
    var front := ops[..|ops| - 1];
    forall i | 0 <= i < |front| ensures !Proposes(front[i], j) {
      assert front[i] == ops[i];
      assert ops[i].AdmitOp? ==> !Proposes(ops[|ops| - 1], ops[i].proposed);
    }
  }

  /** In every history the index and the claims agree, so the code that heals an index entry with no
      claim behind it never runs. */
  lemma {:induction false} HistoryIsConsistent(ops: seq<Op>)
    requires FreshIds(ops)
    ensures Consistent(Replay(ops))
  {
    if ops == [] {
      forall key ensures IndexedAt(EMPTY, key) {}
      forall j ensures ListedAt(EMPTY, j) {}
    } else {
      FreshFront(ops);
      HistoryIsConsistent(ops[..|ops| - 1]);
      if ops[|ops| - 1].AdmitOp? { LastIsFresh(ops); }
      ApplyConsistent(Replay(ops[..|ops| - 1]), ops[|ops| - 1]);
    }
  }

  /** The `i`th operation was a dispatch with this URL, and was answered with job `j`. */
  ghost predicate AskedFor(ops: seq<Op>, i: int, j: JobId, url: string) {
    && 0 <= i < |ops| && ops[i].AdmitOp? && ops[i].url == url
    && var op := ops[i];
       Admit(Replay(ops[..i]), op.key, op.proposed, op.url, op.now, op.retention).1.job == j
  }

  ghost predicate Asked(ops: seq<Op>, j: JobId, url: string) { exists i :: AskedFor(ops, i, j, url) }

  ghost predicate NoRepeats(urls: seq<string>) { forall i, k | 0 <= i < k < |urls| :: urls[i] != urls[k] }

  lemma AskedNext(ops: seq<Op>, j: JobId, url: string)
    requires ops != []
    ensures Asked(ops, j, url) <==> Asked(ops[..|ops| - 1], j, url) || AskedFor(ops, |ops| - 1, j, url)
  {
    var front := ops[..|ops| - 1];
    if i :| AskedFor(ops, i, j, url) {
      if i < |front| {
        assert front[..i] == ops[..i];
        assert AskedFor(front, i, j, url);
      }
    }
    if i :| AskedFor(front, i, j, url) {
      assert front[..i] == ops[..i];
      assert AskedFor(ops, i, j, url);
    }
  }

  /** Answers name only jobs that were proposed. */
  lemma AskedMeansProposed(ops: seq<Op>, j: JobId, url: string)
    requires Asked(ops, j, url)
    ensures EverProposed(ops, j)
  {
    var i :| AskedFor(ops, i, j, url);
    var op, before := ops[i], Replay(ops[..i]);
    if j == op.proposed {
      assert Proposes(ops[i], j);
    } else {
      assert j in before.claims;
      ClaimsWereProposed(ops[..i], j);
      var m :| 0 <= m < i && Proposes(ops[..i][m], j);
      assert Proposes(ops[m], j);
    }
  }

  ghost predicate Exact(b: Book, ops: seq<Op>, j: JobId, url: string) {
    j in b.claims ==> (url in b.claims[j].urls <==> Asked(ops, j, url))
  }

  lemma NewJobIsUnasked(ops: seq<Op>, j: JobId, url: string)
    requires FreshIds(ops) && ops != [] && Proposes(ops[|ops| - 1], j)
    ensures !Asked(ops[..|ops| - 1], j, url)
  {
    ProposedOnce(ops, j);
    if Asked(ops[..|ops| - 1], j, url) { AskedMeansProposed(ops[..|ops| - 1], j, url); }
  }

  /** One operation's effect on a job's destinations. */
  lemma UrlsAfter(b: Book, op: Op, j: JobId, url: string)
    requires Consistent(b) && (op.AdmitOp? ==> op.proposed !in b.claims) && j in Apply(b, op).claims
    ensures var asked := op.AdmitOp? && op.url == url &&
            Admit(b, op.key, op.proposed, op.url, op.now, op.retention).1.job == j;
      url in Apply(b, op).claims[j].urls <==> asked || (j in b.claims && url in b.claims[j].urls)
  {
    if op.AdmitOp? { assert IndexedAt(b, op.key); }
  }

  lemma ExactNext(ops: seq<Op>, j: JobId, url: string)
    requires FreshIds(ops) && ops != [] && Consistent(Replay(ops[..|ops| - 1]))
    requires Exact(Replay(ops[..|ops| - 1]), ops[..|ops| - 1], j, url)
    ensures Exact(Replay(ops), ops, j, url)
  {
    var front, op := ops[..|ops| - 1], ops[|ops| - 1];
    if j in Replay(ops).claims {
      if op.AdmitOp? { LastIsFresh(ops); }
      UrlsAfter(Replay(front), op, j, url);
      AskedNext(ops, j, url);
      ApplyAddsProposed(Replay(front), op, j);
      if j !in Replay(front).claims { NewJobIsUnasked(ops, j, url); }
    }
  }

  /** Work is deduplicated, delivery is not: in every history, a job's destinations are exactly the
      URLs of the dispatches answered with that job. */
  lemma {:induction false} DestinationsAreExact(ops: seq<Op>, j: JobId, url: string)
    requires FreshIds(ops)
    ensures Exact(Replay(ops), ops, j, url)
  {
    if ops != [] {
      FreshFront(ops);
      DestinationsAreExact(ops[..|ops| - 1], j, url);
      HistoryIsConsistent(ops[..|ops| - 1]);
      ExactNext(ops, j, url);
    }
  }

  /** And none is listed twice. */
  lemma {:induction false} DestinationsDoNotRepeat(ops: seq<Op>, j: JobId)
    requires j in Replay(ops).claims
    ensures NoRepeats(Replay(ops).claims[j].urls)
  {
    var front, op := ops[..|ops| - 1], ops[|ops| - 1];
    if j in Replay(front).claims { DestinationsDoNotRepeat(front, j); }
    RepeatsNext(Replay(front), op, j);
  }

  lemma RepeatsNext(b: Book, op: Op, j: JobId)
    requires j in Apply(b, op).claims && (j in b.claims ==> NoRepeats(b.claims[j].urls))
    ensures NoRepeats(Apply(b, op).claims[j].urls)
  {
  }

  /** The last verdict published for a job since it was proposed. */
  function LastVerdict(ops: seq<Op>, j: JobId): Option<Status> {
    if ops == [] then None
    else
      var op := ops[|ops| - 1];
      if op.SettleOp? && op.job == j then Some(op.verdict)
      else if Proposes(op, j) then None
      else LastVerdict(ops[..|ops| - 1], j)
  }

  lemma VerdictAfter(b: Book, op: Op, j: JobId)
    requires j in Apply(b, op).claims && (op.AdmitOp? ==> op.proposed !in b.claims)
    ensures Apply(b, op).claims[j].verdict ==
      if op.SettleOp? && op.job == j then Some(op.verdict) else if Proposes(op, j) then None else b.claims[j].verdict
  {
  }

  /** A duplicate of a settled tree re-hears the verdict that was published for it, whoever asks. */
  lemma {:induction false} VerdictIsThePublished(ops: seq<Op>, j: JobId)
    requires FreshIds(ops) && j in Replay(ops).claims
    ensures Replay(ops).claims[j].verdict == LastVerdict(ops, j)
  {
    var front, op := ops[..|ops| - 1], ops[|ops| - 1];
    FreshFront(ops);
    if op.AdmitOp? { LastIsFresh(ops); }
    ApplyAddsProposed(Replay(front), op, j);
    VerdictAfter(Replay(front), op, j);
    if j in Replay(front).claims { VerdictIsThePublished(front, j); }
  }
}
