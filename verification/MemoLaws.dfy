/** When the memo answers: which writes are still there, and what a lookup of one says. */
module MemoLaws {
  import opened Wrappers
  import opened Orders
  import opened MemoStore

  predicate Writes(op: Op, slot: Slot) { op.RecordOp? && op.tenant == slot.0 && op.key == slot.1 }

  /** The `n`th operation is the newest write for the slot. */
  ghost predicate NewestWrite(ops: seq<Op>, n: nat, slot: Slot) {
    n < |ops| && Writes(ops[n], slot) && forall m | n < m < |ops| :: !Writes(ops[m], slot)
  }

  /** A pass is remembered for one time, a failure for another. */
  function ExpiresAt(p: Policy, op: Op): nat
    requires op.RecordOp?
  {
    op.now + if op.outcome == Passed then p.passedTtl else p.failedTtl
  }

  /** A lookup of the slot at or past that moment. */
  predicate FindsExpired(op: Op, slot: Slot, at: nat) {
    op.LookupOp? && op.tenant == slot.0 && op.key == slot.1 && op.now >= at
  }

  /** The slot's tenant holds more entries than any other, or as many, and is the writer, or has the earlier
      name of two that are not; and none of its entries is older. */
  ghost predicate PaysFirst(e: Entries, recording: Tenant, slot: Slot) {
    && slot in e
    && (forall u | u in Holders(e) && u != slot.0 ::
          || Held(e, slot.0) > Held(e, u)
          || (Held(e, slot.0) == Held(e, u) && (slot.0 == recording || (u != recording && TextLess(slot.0, u)))))
    && (forall k | k in e && k.0 == slot.0 :: e[slot].seqNo <= e[k].seqNo)
  }

  /** A write to a full store evicts the slot. */
  ghost predicate Evicts(p: Policy, s: Store, op: Op, slot: Slot) {
    op.RecordOp? && |s.entries| >= p.capacity && PaysFirst(s.entries, op.tenant, slot)
  }

  lemma PaysFirstIsEvictee(e: Entries, recording: Tenant, slot: Slot)
    ensures PaysFirst(e, recording, slot) <==> IsEvictee(e, recording, slot)
  {
    assert slot in e ==> slot.0 in Holders(e);
  }

  /** Room is made by dropping exactly the entry that pays first, and only in a full store. */
  lemma RoomMeans(p: Policy, s: Store, tenant: Tenant, slot: Slot)
    requires Numbered(s) && slot in s.entries
    ensures var r := Roomed(p, s.entries, tenant);
      && (slot in r <==> !(|s.entries| >= p.capacity && PaysFirst(s.entries, tenant, slot)))
      && (slot in r ==> r[slot] == s.entries[slot])
  {
    PaysFirstIsEvictee(s.entries, tenant, slot);
    if |s.entries| >= p.capacity {
      EvicteeExists(s.entries, tenant);
      var v :| IsEvictee(s.entries, tenant, v);
      RoomedIs(p, s, tenant, v);
      if IsEvictee(s.entries, tenant, slot) { EvicteeUnique(s, tenant, v, slot); }
    }
  }

  /** What becomes of an entry that the operation does not write. */
  lemma EntryAfter(p: Policy, s: Store, op: Op, slot: Slot)
    requires Numbered(s) && slot in s.entries && !Writes(op, slot)
    ensures var r := Apply(p, s, op);
      && (slot in r.entries <==> !Evicts(p, s, op, slot) && !FindsExpired(op, slot, s.entries[slot].expiresAt))
      && (slot in r.entries ==> r.entries[slot] == s.entries[slot])
  {
    if op.RecordOp? {
      assert slot != (op.tenant, op.key);
      RoomMeans(p, s, op.tenant, slot);
    } else {
      assert slot == (slot.0, slot.1);
    }
  }

  lemma NothingAppears(p: Policy, s: Store, op: Op, slot: Slot)
    requires slot !in s.entries && !Writes(op, slot)
    ensures slot !in Apply(p, s, op).entries
  {
    assert slot == (slot.0, slot.1);
  }

  lemma JustWritten(p: Policy, s: Store, op: Op, slot: Slot)
    requires Writes(op, slot)
    ensures var r := Apply(p, s, op);
      slot in r.entries && r.entries[slot].outcome == op.outcome && r.entries[slot].expiresAt == ExpiresAt(p, op)
  {
    assert slot == (op.tenant, op.key);
  }

  /** Operation `m` is not what removes the write made by operation `n`. */
  ghost predicate SparedBy(p: Policy, ops: seq<Op>, n: nat, m: int, slot: Slot)
    requires n < |ops| && ops[n].RecordOp?
  {
    n < m < |ops| ==>
      !Evicts(p, Replay(p, ops[..m]), ops[m], slot) && !FindsExpired(ops[m], slot, ExpiresAt(p, ops[n]))
  }

  /** No later write evicted it and no later lookup found it expired. */
  ghost predicate Survives(p: Policy, ops: seq<Op>, n: nat, slot: Slot)
    requires n < |ops| && ops[n].RecordOp?
  {
    forall m :: SparedBy(p, ops, n, m, slot)
  }

  lemma SparedNext(p: Policy, ops: seq<Op>, n: nat, m: int, slot: Slot)
    requires n < |ops| - 1 && ops[n].RecordOp? && m != |ops| - 1
    ensures SparedBy(p, ops, n, m, slot) <==> SparedBy(p, ops[..|ops| - 1], n, m, slot)
  {
    var front := ops[..|ops| - 1];
    if n < m < |front| { assert front[..m] == ops[..m] && front[m] == ops[m]; }
  }

  lemma SparedBeyond(p: Policy, ops: seq<Op>, n: nat, m: int, slot: Slot)
    requires n < |ops| && ops[n].RecordOp? && m >= |ops|
    ensures SparedBy(p, ops, n, m, slot)
  {
  }

  lemma SurvivesFront(p: Policy, ops: seq<Op>, n: nat, slot: Slot)
    requires n < |ops| - 1 && ops[n].RecordOp? && Survives(p, ops, n, slot)
    ensures Survives(p, ops[..|ops| - 1], n, slot) && SparedBy(p, ops, n, |ops| - 1, slot)
  {
    var front := ops[..|ops| - 1];
    forall m ensures SparedBy(p, front, n, m, slot) {
      assert SparedBy(p, ops, n, m, slot);
      if m == |front| { SparedBeyond(p, front, n, m, slot); } else { SparedNext(p, ops, n, m, slot); }
    }
  }

  lemma SurvivesLast(p: Policy, ops: seq<Op>, n: nat, slot: Slot)
    requires n < |ops| - 1 && ops[n].RecordOp?
    requires Survives(p, ops[..|ops| - 1], n, slot) && SparedBy(p, ops, n, |ops| - 1, slot)
    ensures Survives(p, ops, n, slot)
  {
    forall m ensures SparedBy(p, ops, n, m, slot) {
      assert SparedBy(p, ops[..|ops| - 1], n, m, slot);
      if m != |ops| - 1 { SparedNext(p, ops, n, m, slot); }
    }
  }

  lemma SurvivesNext(p: Policy, ops: seq<Op>, n: nat, slot: Slot)
    requires n < |ops| - 1 && ops[n].RecordOp?
    ensures Survives(p, ops, n, slot) <==>
      Survives(p, ops[..|ops| - 1], n, slot) && SparedBy(p, ops, n, |ops| - 1, slot)
  {
    if Survives(p, ops, n, slot) { SurvivesFront(p, ops, n, slot); }
    if Survives(p, ops[..|ops| - 1], n, slot) && SparedBy(p, ops, n, |ops| - 1, slot) { SurvivesLast(p, ops, n, slot); }
  }

  ghost predicate Remembered(p: Policy, ops: seq<Op>, n: nat, slot: Slot)
    requires n < |ops| && ops[n].RecordOp?
  {
    var e := Replay(p, ops).entries;
    slot in e && e[slot].outcome == ops[n].outcome && e[slot].expiresAt == ExpiresAt(p, ops[n])
  }

  /** A write is there exactly as long as it survives. */
  lemma {:induction false} RememberedIff(p: Policy, ops: seq<Op>, n: nat, slot: Slot)
    requires p.capacity > 0 && NewestWrite(ops, n, slot)
    ensures Remembered(p, ops, n, slot) <==> Survives(p, ops, n, slot)
    ensures slot in Replay(p, ops).entries <==> Remembered(p, ops, n, slot)
  {
    var front, op := ops[..|ops| - 1], ops[|ops| - 1];
    if n == |ops| - 1 {
      JustWritten(p, Replay(p, front), op, slot);
      forall m ensures SparedBy(p, ops, n, m, slot) {}
    } else {
      RememberedIff(p, front, n, slot);
      HistoryIsTruthful(p, front);
      SurvivesNext(p, ops, n, slot);
      RememberedNext(p, ops, n, slot);
    }
  }

  lemma RememberedNext(p: Policy, ops: seq<Op>, n: nat, slot: Slot)
    requires n < |ops| - 1 && NewestWrite(ops, n, slot) && Numbered(Replay(p, ops[..|ops| - 1]))
    requires slot in Replay(p, ops[..|ops| - 1]).entries <==> Remembered(p, ops[..|ops| - 1], n, slot)
    ensures slot in Replay(p, ops).entries <==> Remembered(p, ops, n, slot)
    ensures Remembered(p, ops, n, slot) <==>
      Remembered(p, ops[..|ops| - 1], n, slot) && SparedBy(p, ops, n, |ops| - 1, slot)
  {
    var s, op := Replay(p, ops[..|ops| - 1]), ops[|ops| - 1];
    if slot in s.entries { EntryAfter(p, s, op, slot); } else { NothingAppears(p, s, op, slot); }
  }

  /** A lookup says what the newest write recorded exactly while that write survives and has not expired, and
      then leaves the store as it was; otherwise it says nothing. */
  lemma HitIff(p: Policy, ops: seq<Op>, n: nat, slot: Slot, now: nat)
    requires p.capacity > 0 && NewestWrite(ops, n, slot)
    ensures var (s, hit) := LookedUp(Replay(p, ops), slot.0, slot.1, now);
      && (Survives(p, ops, n, slot) && now < ExpiresAt(p, ops[n]) ==>
         hit == Some(ops[n].outcome) && s == Replay(p, ops))
      && (!(Survives(p, ops, n, slot) && now < ExpiresAt(p, ops[n])) ==> hit == None)
  {
    RememberedIff(p, ops, n, slot);
    assert slot == (slot.0, slot.1);
  }

  lemma {:induction false} NeverWrittenNeverHit(p: Policy, ops: seq<Op>, slot: Slot, now: nat)
    requires forall m | 0 <= m < |ops| :: !Writes(ops[m], slot)
    ensures slot !in Replay(p, ops).entries && LookedUp(Replay(p, ops), slot.0, slot.1, now).1 == None
  {
    assert slot == (slot.0, slot.1);
    if ops != [] {
      NeverWrittenNeverHit(p, ops[..|ops| - 1], slot, now);
      NothingAppears(p, Replay(p, ops[..|ops| - 1]), ops[|ops| - 1], slot);
    }
  }

  /** Below capacity nothing is lost: every write not yet expired is answered. */
  lemma BelowCapacityEveryWriteHits(p: Policy, ops: seq<Op>, n: nat, slot: Slot, now: nat)
    requires p.capacity > 0 && NewestWrite(ops, n, slot) && now < ExpiresAt(p, ops[n])
    requires forall m | n < m < |ops| :: |Replay(p, ops[..m]).entries| < p.capacity
    requires forall m | n < m < |ops| :: !FindsExpired(ops[m], slot, ExpiresAt(p, ops[n]))
    ensures LookedUp(Replay(p, ops), slot.0, slot.1, now).1 == Some(ops[n].outcome)
  {
    forall m ensures SparedBy(p, ops, n, m, slot) {}
    HitIff(p, ops, n, slot, now);
  }

  /** A lookup removes its own slot when it finds it expired, and nothing else ever. */
  lemma LookupRemovesOnlyTheExpired(s: Store, tenant: Tenant, key: string, now: nat, slot: Slot)
    ensures var r := LookedUp(s, tenant, key, now).0;
      && r.nextSeq == s.nextSeq
      && (slot in r.entries <==> slot in s.entries && !(slot == (tenant, key) && now >= s.entries[slot].expiresAt))
      && (slot in r.entries ==> r.entries[slot] == s.entries[slot])
  {
  }

  // ---- Older means written earlier ----

  function WritesIn(ops: seq<Op>): nat {
    if ops == [] then 0 else WritesIn(ops[..|ops| - 1]) + if ops[|ops| - 1].RecordOp? then 1 else 0
  }

  lemma {:induction false} NumberIsCount(p: Policy, ops: seq<Op>, n: nat, slot: Slot)
    requires NewestWrite(ops, n, slot) && slot in Replay(p, ops).entries
    ensures Replay(p, ops).entries[slot].seqNo == WritesIn(ops[..n])
  {
    var front, op := ops[..|ops| - 1], ops[|ops| - 1];
    if n == |ops| - 1 {
      NextIsCount(p, front);
      assert slot == (op.tenant, op.key);
    } else {
      assert !(op.RecordOp? && (op.tenant, op.key) == slot) by { assert !Writes(op, slot); }
      ApplyKeepsOrWrites(p, Replay(p, front), op, slot);
      NumberIsCount(p, front, n, slot);
      assert front[..n] == ops[..n];
    }
  }

  lemma {:induction false} NextIsCount(p: Policy, ops: seq<Op>)
    ensures Replay(p, ops).nextSeq == WritesIn(ops)
  {
    if ops != [] { NextIsCount(p, ops[..|ops| - 1]); }
  }

  lemma {:induction false} CountGrows(ops: seq<Op>, a: nat, b: nat)
    requires a < b <= |ops| && ops[a].RecordOp?
    ensures WritesIn(ops[..a]) < WritesIn(ops[..b])
  {
    assert ops[..b][..b - 1] == ops[..b - 1];
    if a < b - 1 { CountGrows(ops, a, b - 1); }
  }

  /** Of two entries the one with the smaller number was written first. */
  lemma OlderWasWrittenFirst(p: Policy, ops: seq<Op>, a: nat, x: Slot, b: nat, y: Slot)
    requires NewestWrite(ops, a, x) && NewestWrite(ops, b, y) && a < b
    requires x in Replay(p, ops).entries && y in Replay(p, ops).entries
    ensures Replay(p, ops).entries[x].seqNo < Replay(p, ops).entries[y].seqNo
  {
    NumberIsCount(p, ops, a, x);
    NumberIsCount(p, ops, b, y);
    CountGrows(ops, a, b);
  }
}
