/** What the claim store answers, said of the dispatches, claims and verdicts it was given. */
module ClaimLaws {
  import opened Wrappers
  import opened JobModel
  import opened Aggregate
  import opened Claims

  // ---- When a claim settled ----

  /** When the last verdict for a job was published, since it was proposed. */
  function LastPublish(ops: seq<Op>, j: JobId): Option<int> {
    if ops == [] then None
    else
      var op := ops[|ops| - 1];
      if op.SettleOp? && op.job == j then Some(op.now)
      else if Proposes(op, j) then None
      else LastPublish(ops[..|ops| - 1], j)
  }

  lemma SettledAfter(b: Book, op: Op, j: JobId)
    requires j in Apply(b, op).claims && (op.AdmitOp? ==> op.proposed !in b.claims)
    ensures Apply(b, op).claims[j].settledAt ==
      if op.SettleOp? && op.job == j then Some(op.now) else if Proposes(op, j) then None else b.claims[j].settledAt
  {
  }

  /** A claim's age is counted from the last verdict published for it. */
  lemma {:induction false} SettledAtTheLastPublish(ops: seq<Op>, j: JobId)
    requires FreshIds(ops) && j in Replay(ops).claims
    ensures Replay(ops).claims[j].settledAt == LastPublish(ops, j)
  {
    var front, op := ops[..|ops| - 1], ops[|ops| - 1];
    FreshFront(ops);
    if op.AdmitOp? { LastIsFresh(ops); }
    ApplyAddsProposed(Replay(front), op, j);
    SettledAfter(Replay(front), op, j);
    if j in Replay(front).claims { SettledAtTheLastPublish(front, j); }
  }

  /** `now` is at least `retention` past `at`, the difference clamped to 64 bits. */
  predicate Elapsed(at: int, now: int, retention: int) {
    if now - at > 0x7FFF_FFFF_FFFF_FFFF then 0x7FFF_FFFF_FFFF_FFFF >= retention
    else if now - at < -0x8000_0000_0000_0000 then -0x8000_0000_0000_0000 >= retention
    else now - at >= retention
  }

  /** A verdict was published for the job, `retention` or longer ago. */
  predicate Retired(ops: seq<Op>, j: JobId, now: int, retention: int) {
    LastPublish(ops, j).Some? && Elapsed(LastPublish(ops, j).value, now, retention)
  }

  /** The tree a job drives, from the history alone: a dispatch gives its proposed job the tree when no job
      that is not retired drives it, and takes it from one that is; forgetting a job takes its tree. */
  ghost function Driven(ops: seq<Op>, j: JobId): Option<TreeKey>
    decreases |ops|, 0
  {
    if ops == [] then None
    else
      var front, op := ops[..|ops| - 1], ops[|ops| - 1];
      if op.ForgetOp? && op.job == j then None
      else if op.AdmitOp? && op.proposed == j && (forall i :: !Drives(front, op.key, i, op.now, op.retention)) then
        Some(op.key)
      else if op.AdmitOp? && Driven(front, j) == Some(op.key) && Retired(front, j, op.now, op.retention) then None
      else Driven(front, j)
  }

  ghost predicate Drives(ops: seq<Op>, key: TreeKey, j: JobId, now: int, retention: int)
    decreases |ops|, 1
  {
    Driven(ops, j) == Some(key) && !Retired(ops, j, now, retention)
  }

  /** The store agrees with the history. */
  ghost predicate DrivenAt(ops: seq<Op>, j: JobId) {
    Driven(ops, j) == if j in Replay(ops).claims then Some(Replay(ops).claims[j].key) else None
  }

  ghost predicate AllDriven(ops: seq<Op>) { forall i :: DrivenAt(ops, i) }

  lemma DrivenNext(ops: seq<Op>, j: JobId)
    requires FreshIds(ops) && ops != [] && AllDriven(ops[..|ops| - 1])
    ensures DrivenAt(ops, j)
  {
    var front, op := ops[..|ops| - 1], ops[|ops| - 1];
    FreshFront(ops);
    HistoryIsConsistent(front);
    assert DrivenAt(front, j);
    if op.AdmitOp? { DrivenAdmit(ops, j); }
  }

  /** The job a live claim's tree belongs to is the one job that drives it. */
  lemma IndexDrives(ops: seq<Op>, key: TreeKey, now: int, retention: int, i: JobId)
    requires FreshIds(ops) && Consistent(Replay(ops)) && AllDriven(ops)
    ensures Drives(ops, key, i, now, retention) <==>
            key in Replay(ops).byKey && Replay(ops).byKey[key] == i && !Stale(Replay(ops), key, now, retention)
  {
    assert DrivenAt(ops, i) && ListedAt(Replay(ops), i) && IndexedAt(Replay(ops), key);
    if key in Replay(ops).byKey { StaleIffRetired(ops, key, now, retention); }
  }

  lemma DrivenAdmit(ops: seq<Op>, j: JobId)
    requires FreshIds(ops) && ops != [] && ops[|ops| - 1].AdmitOp?
    requires FreshIds(ops[..|ops| - 1]) && Consistent(Replay(ops[..|ops| - 1])) && AllDriven(ops[..|ops| - 1])
    ensures DrivenAt(ops, j)
  {
    var front, op := ops[..|ops| - 1], ops[|ops| - 1];
    var b := Replay(front);
    LastIsFresh(ops);
    assert DrivenAt(front, j) && ListedAt(b, j) && IndexedAt(b, op.key);
    if op.key in b.byKey { StaleIffRetired(front, op.key, op.now, op.retention); }
    if op.key in b.byKey && !Stale(b, op.key, op.now, op.retention) {
      IndexDrives(front, op.key, op.now, op.retention, b.byKey[op.key]);
    } else {
      forall i ensures !Drives(front, op.key, i, op.now, op.retention) {
        IndexDrives(front, op.key, op.now, op.retention, i);
      }
    }
  }

  /** A job has a claim exactly while it drives a tree, and the claim is for that tree. */
  lemma {:induction false} ClaimsAreDriven(ops: seq<Op>, j: JobId)
    requires FreshIds(ops)
    ensures DrivenAt(ops, j)
  {
    if ops != [] {
      FreshFront(ops);
      var front := ops[..|ops| - 1];
      forall i ensures DrivenAt(front, i) { ClaimsAreDriven(front, i); }
      DrivenNext(ops, j);
    }
  }

  lemma StaleIffRetired(ops: seq<Op>, key: TreeKey, now: int, retention: int)
    requires FreshIds(ops) && Consistent(Replay(ops)) && key in Replay(ops).byKey
    ensures Stale(Replay(ops), key, now, retention) <==> Retired(ops, Replay(ops).byKey[key], now, retention)
  {
    assert IndexedAt(Replay(ops), key);
    SettledAtTheLastPublish(ops, Replay(ops).byKey[key]);
  }

  /** In every history a dispatch attaches exactly when some job drives its tree, and then to that job, with
      the verdict last published for it; otherwise it is answered with the job it proposes. */
  lemma AttachesIff(ops: seq<Op>, key: TreeKey, proposed: JobId, url: string, now: int, retention: int, j: JobId)
    requires FreshIds(ops) && !EverProposed(ops, proposed)
    ensures var a := Admit(Replay(ops), key, proposed, url, now, retention).1;
      && (a.Attached? && a.job == j <==> Drives(ops, key, j, now, retention))
      && (a.Attached? ==> a.verdict == LastVerdict(ops, a.job))
      && (a.Created? ==> a.job == proposed)
  {
    var b := Replay(ops);
    HistoryIsConsistent(ops);
    if proposed in b.claims { ClaimsWereProposed(ops, proposed); }
    AdmitDecides(b, key, proposed, url, now, retention);
    ClaimsAreDriven(ops, j);
    assert ListedAt(b, j) && IndexedAt(b, key);
    if key in b.byKey {
      StaleIffRetired(ops, key, now, retention);
      VerdictIsThePublished(ops, b.byKey[key]);
    }
  }

  // ---- Which steps a claim covers ----

  /** The last of the claims and releases of a step since its job was proposed was a claim. */
  function LastTaken(ops: seq<Op>, j: JobId, s: StepId): bool {
    if ops == [] then false
    else
      var op := ops[|ops| - 1];
      if op.ClaimOp? && op.job == j && op.step == s then true
      else if op.ReleaseOp? && op.job == j && op.step == s then false
      else if Proposes(op, j) then false
      else LastTaken(ops[..|ops| - 1], j, s)
  }

  lemma TakenAfter(b: Book, op: Op, j: JobId, s: StepId)
    requires j in Apply(b, op).claims && (op.AdmitOp? ==> op.proposed !in b.claims)
    ensures s in Apply(b, op).claims[j].steps <==>
      if op.ClaimOp? && op.job == j && op.step == s then true
      else if op.ReleaseOp? && op.job == j && op.step == s then false
      else !Proposes(op, j) && s in b.claims[j].steps
  {
  }

  lemma {:induction false} CoversTheTaken(ops: seq<Op>, j: JobId, s: StepId)
    requires FreshIds(ops) && j in Replay(ops).claims
    ensures s in Replay(ops).claims[j].steps <==> LastTaken(ops, j, s)
  {
    var front, op := ops[..|ops| - 1], ops[|ops| - 1];
    FreshFront(ops);
    if op.AdmitOp? { LastIsFresh(ops); }
    ApplyAddsProposed(Replay(front), op, j);
    TakenAfter(Replay(front), op, j, s);
    if j in Replay(front).claims { CoversTheTaken(front, j, s); }
  }

  /** In every history a step is granted exactly when its job has a claim and no one took the step since it
      was last given back; it is refused as fenced exactly when its job has none. */
  lemma GrantedIff(ops: seq<Op>, j: JobId, s: StepId)
    requires FreshIds(ops)
    ensures var a := ClaimStep(Replay(ops), j, s).1;
      && (a == Granted <==> j in Replay(ops).claims && !LastTaken(ops, j, s))
      && (a == Fenced <==> j !in Replay(ops).claims)
      && (a == Taken <==> j in Replay(ops).claims && LastTaken(ops, j, s))
  {
    if j in Replay(ops).claims { CoversTheTaken(ops, j, s); }
  }
}
