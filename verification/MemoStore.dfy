/** The in-process step memo: one bounded store shared by every tenant, evicting from whoever holds
    the most. */
module MemoStore {
  import opened Wrappers
  import opened Orders

  type Tenant = string
  type Slot = (Tenant, string)

  datatype Outcome = Passed | Failed

  datatype Policy = Policy(passedTtl: nat, failedTtl: nat, capacity: nat) {
    function Ttl(o: Outcome): nat { match o case Passed => passedTtl case Failed => failedTtl }
  }

  datatype Entry = Entry(outcome: Outcome, expiresAt: nat, seqNo: nat)

  type Entries = map<Slot, Entry>

  datatype Store = Store(entries: Entries, nextSeq: nat)

  const EMPTY := Store(map[], 0)

  /** Insertion numbers are distinct and all behind the counter. */
  ghost predicate Numbered(s: Store) {
    && (forall k | k in s.entries :: s.entries[k].seqNo < s.nextSeq)
    && (forall j, k | j in s.entries && k in s.entries && s.entries[j].seqNo == s.entries[k].seqNo :: j == k)
  }

  // ---- Who pays ----

  ghost function Within(ks: set<Slot>, t: Tenant): set<Slot> { set k | k in ks && k.0 == t }

  ghost function Slots(e: Entries, t: Tenant): set<Slot> { Within(e.Keys, t) }

  ghost function Held(e: Entries, t: Tenant): nat { |Slots(e, t)| }

  ghost function Holders(e: Entries): set<Tenant> { set k | k in e :: k.0 }

  /** `a` is evicted from before `b`: more entries, then the writer, then the earlier name. */
  predicate Outranks(a: Tenant, na: nat, b: Tenant, nb: nat, recording: Tenant) {
    || na > nb
    || (na == nb && a == recording && b != recording)
    || (na == nb && (a == recording <==> b == recording) && TextLess(a, b))
  }

  ghost predicate Fullest(e: Entries, recording: Tenant, t: Tenant) {
    t in Holders(e) && forall u | u in Holders(e) && u != t :: Outranks(t, Held(e, t), u, Held(e, u), recording)
  }

  ghost predicate IsEvictee(e: Entries, recording: Tenant, victim: Slot) {
    && victim in e
    && Fullest(e, recording, victim.0)
    && forall k | k in e && k.0 == victim.0 :: e[victim].seqNo <= e[k].seqNo
  }

  lemma OutranksOnce(a: Tenant, na: nat, b: Tenant, nb: nat, recording: Tenant)
    ensures !(Outranks(a, na, b, nb, recording) && Outranks(b, nb, a, na, recording))
  {
    TextOrder();
  }

  lemma EvicteeUnique(s: Store, recording: Tenant, v: Slot, w: Slot)
    requires Numbered(s) && IsEvictee(s.entries, recording, v) && IsEvictee(s.entries, recording, w)
    ensures v == w
  {
    if v.0 != w.0 {
      assert v.0 in Holders(s.entries) && w.0 in Holders(s.entries);
      OutranksOnce(v.0, Held(s.entries, v.0), w.0, Held(s.entries, w.0), recording);
    }
  }

  lemma WithinAdd(ks: set<Slot>, slot: Slot, t: Tenant)
    requires slot !in ks
    ensures |Within(ks + {slot}, t)| == |Within(ks, t)| + if slot.0 == t then 1 else 0
  {
    if slot.0 == t {
      assert Within(ks + {slot}, t) == Within(ks, t) + {slot};
    } else {
      assert Within(ks + {slot}, t) == Within(ks, t);
    }
  }

  ghost predicate Tallied(seen: set<Slot>, held: map<Tenant, nat>, t: Tenant) {
    |Within(seen, t)| == if t in held then held[t] else 0
  }

  method CountHeld(e: Entries) returns (held: map<Tenant, nat>)
    ensures held.Keys == Holders(e)
    ensures forall t | t in held :: held[t] == Held(e, t)
  {
    held := map[];
    var rest := e.Keys;
    ghost var seen: set<Slot> := {};
    while rest != {}
      invariant seen + rest == e.Keys && seen !! rest
      invariant forall k | k in seen :: k.0 in held
      invariant forall t | t in held :: t in Holders(e)
      invariant forall t :: Tallied(seen, held, t)
    {
      var slot :| slot in rest;
      var n := if slot.0 in held then held[slot.0] else 0;
      ghost var was := held;
      held := held[slot.0 := n + 1];
      forall t ensures Tallied(seen + {slot}, held, t) {
        assert Tallied(seen, was, t);
        WithinAdd(seen, slot, t);
      }
      rest, seen := rest - {slot}, seen + {slot};
    }
    assert seen == e.Keys;
    forall t | t in held ensures held[t] == Held(e, t) { assert Tallied(seen, held, t); }
  }

  method PickFullest(e: Entries, recording: Tenant) returns (t: Tenant)
    requires e != map[]
    ensures Fullest(e, recording, t)
  {
    TextOrder();
    var held := CountHeld(e);
    assert held.Keys != {} by { var k :| k in e; assert k.0 in Holders(e); }
    t :| t in held.Keys;
    var rest := held.Keys - {t};
    while rest != {}
      invariant t in held && rest <= held.Keys - {t}
      invariant forall u | u in held.Keys - rest && u != t :: Outranks(t, held[t], u, held[u], recording)
    {
      var u :| u in rest;
      rest := rest - {u};
      if Outranks(u, held[u], t, held[t], recording) { t := u; }
    }
  }

  method Evictee(e: Entries, recording: Tenant) returns (victim: Option<Slot>)
    ensures victim.None? <==> e == map[]
    ensures victim.Some? ==> IsEvictee(e, recording, victim.value)
  {
    if e == map[] { return None; }
    var t := PickFullest(e, recording);
    var mine := set k | k in e && k.0 == t;
    assert mine != {} by { var k :| k in e && k.0 == t; assert k in mine; }
    var best :| best in mine;
    var rest := mine - {best};
    while rest != {}
      invariant best in mine && rest <= mine
      invariant forall k | k in mine - rest :: e[best].seqNo <= e[k].seqNo
    {
      var k :| k in rest;
      rest := rest - {k};
      if e[k].seqNo < e[best].seqNo { best := k; }
    }
    victim := Some(best);
  }

  lemma EvicteeExists(e: Entries, recording: Tenant)
    requires e != map[]
    ensures exists v :: IsEvictee(e, recording, v)
  {
    var k :| k in e;
    assert k.0 in Holders(e);
    var t := FullestAmong(e, recording, Holders(e));
    var j :| j in e && j.0 == t;
    assert j in Slots(e, t);
    var v := Oldest(e, Slots(e, t));
    assert IsEvictee(e, recording, v);
  }

  lemma {:induction false} FullestAmong(e: Entries, recording: Tenant, ts: set<Tenant>) returns (t: Tenant)
    requires ts != {}
    ensures t in ts && forall u | u in ts && u != t :: Outranks(t, Held(e, t), u, Held(e, u), recording)
  {
    TextOrder();
    var x :| x in ts;
    t := x;
    if ts != {x} {
      assert ts - {x} != {};
      var y := FullestAmong(e, recording, ts - {x});
      t := if Outranks(x, Held(e, x), y, Held(e, y), recording) then x else y;
    }
  }

  lemma {:induction false} Oldest(e: Entries, ks: set<Slot>) returns (v: Slot)
    requires ks != {} && forall k | k in ks :: k in e
    ensures v in ks && forall k | k in ks :: e[v].seqNo <= e[k].seqNo
  {
    var x :| x in ks;
    v := x;
    if ks != {x} {
      assert ks - {x} != {};
      var y := Oldest(e, ks - {x});
      v := if e[x].seqNo <= e[y].seqNo then x else y;
    }
  }

  // ---- The two operations, as functions of the store ----

  /** The entries left once room has been made for a write by `tenant`. */
  ghost function Roomed(p: Policy, e: Entries, tenant: Tenant): Entries {
    if |e| < p.capacity || e == map[] then e
    else
      EvicteeExists(e, tenant);
      var v :| IsEvictee(e, tenant, v);
      e - {v}
  }

  lemma RoomedIs(p: Policy, s: Store, tenant: Tenant, victim: Slot)
    requires Numbered(s) && |s.entries| >= p.capacity && IsEvictee(s.entries, tenant, victim)
    ensures Roomed(p, s.entries, tenant) == s.entries - {victim}
  {
    EvicteeExists(s.entries, tenant);
    var v :| IsEvictee(s.entries, tenant, v) && Roomed(p, s.entries, tenant) == s.entries - {v};
    EvicteeUnique(s, tenant, v, victim);
  }

  ghost function Recorded(p: Policy, s: Store, tenant: Tenant, key: string, o: Outcome, now: nat): Store {
    Store(Roomed(p, s.entries, tenant)[(tenant, key) := Entry(o, now + p.Ttl(o), s.nextSeq)], s.nextSeq + 1)
  }

  lemma RecordedNumbered(p: Policy, s: Store, tenant: Tenant, key: string, o: Outcome, now: nat)
    requires Numbered(s)
    ensures Numbered(Recorded(p, s, tenant, key, o, now))
  {
    var e := Roomed(p, s.entries, tenant);
    assert forall k | k in e :: k in s.entries && e[k] == s.entries[k];
  }

  function LookedUp(s: Store, tenant: Tenant, key: string, now: nat): (Store, Option<Outcome>) {
    var k := (tenant, key);
    if k !in s.entries then (s, None)
    else if now >= s.entries[k].expiresAt then (s.(entries := s.entries - {k}), None)
    else (s, Some(s.entries[k].outcome))
  }

  class StepMemo {
    const policy: Policy
    var entries: Entries
    var nextSeq: nat

    ghost function State(): Store reads this { Store(entries, nextSeq) }

    ghost predicate Valid() reads this { Numbered(State()) }

    constructor (policy: Policy)
      ensures this.policy == policy && Valid() && State() == EMPTY
    {
      this.policy := policy;
      entries, nextSeq := map[], 0;
    }

    method Lookup(tenant: Tenant, key: string, now: nat) returns (hit: Option<Outcome>)
      requires Valid()
      modifies this
      ensures Valid() && (State(), hit) == LookedUp(old(State()), tenant, key, now)
    {
      var k := (tenant, key);
      if k !in entries { return None; }
      var entry := entries[k];
      if now >= entry.expiresAt {
        entries := entries - {k};
        return None;
      }
      hit := Some(entry.outcome);
    }

    method Record(tenant: Tenant, key: string, o: Outcome, now: nat)
      requires Valid()
      modifies this
      ensures Valid() && State() == Recorded(policy, old(State()), tenant, key, o, now)
    {
      RecordedNumbered(policy, State(), tenant, key, o, now);
      var seqNo := nextSeq;
      nextSeq := nextSeq + 1;
      entries := MakeRoom(policy, entries, tenant, seqNo);
      assert entries == Roomed(policy, old(entries), tenant) && seqNo == old(nextSeq);
      entries := entries[(tenant, key) := Entry(o, now + policy.Ttl(o), seqNo)];
    }
  }

  method MakeRoom(p: Policy, e: Entries, tenant: Tenant, ghost nextSeq: nat) returns (r: Entries)
    requires Numbered(Store(e, nextSeq))
    ensures r == Roomed(p, e, tenant)
  {
    r := e;
    if |e| >= p.capacity {
      var victim := Evictee(e, tenant);
      if victim.Some? {
        RoomedIs(p, Store(e, nextSeq), tenant, victim.value);
        r := e - {victim.value};
      }
    }
  }

  // ---- Fairness and truth over whole histories ----

  /** Tenants that would divide the store after this write. */
  ghost function Sharers(e: Entries, tenant: Tenant): set<Tenant> { Holders(e) + {tenant} }

  ghost function Owned(e: Entries, ts: set<Tenant>): set<Slot> { set k | k in e && k.0 in ts }

  lemma {:induction false} Pigeonhole(e: Entries, ts: set<Tenant>, h: nat)
    requires forall t | t in ts :: Held(e, t) <= h
    ensures |Owned(e, ts)| <= |ts| * h
  {
    if ts != {} {
      var t :| t in ts;
      Pigeonhole(e, ts - {t}, h);
      assert Owned(e, ts) == Owned(e, ts - {t}) + Slots(e, t);
      OneMore(|ts| - 1, h);
    }
  }

  lemma OneMore(n: nat, h: nat)
    ensures (n + 1) * h == n * h + h
  {
  }

  /** The largest holder, when the writer holds less, is above an equal share of the store. */
  lemma LargestIsAboveShare(e: Entries, tenant: Tenant, b: Tenant)
    requires b in Holders(e) && Held(e, b) > Held(e, tenant) && forall u | u in Holders(e) :: Held(e, u) <= Held(e, b)
    ensures |Sharers(e, tenant)| > 0 && Held(e, b) > |e| / |Sharers(e, tenant)|
  {
    var h, others := Held(e, b), Holders(e) - {tenant};
    Pigeonhole(e, others, h);
    SplitByOwner(e, tenant, others);
    assert Sharers(e, tenant) == others + {tenant};
    AboveShare(|e|, |Owned(e, others)|, Held(e, tenant), |others|, h);
  }

  lemma SplitByOwner(e: Entries, tenant: Tenant, others: set<Tenant>)
    requires others == Holders(e) - {tenant}
    ensures |e| == |Owned(e, others)| + Held(e, tenant)
  {
    assert e.Keys == Owned(e, others) + Slots(e, tenant) by {
      forall k | k in e ensures k.0 in Holders(e) {}
    }
  }

  lemma AboveShare(total: nat, owned: nat, mine: nat, others: nat, h: nat)
    requires total == owned + mine && owned <= others * h && mine < h
    ensures total / (others + 1) < h
  {
    OneMore(others, h);
    DivideBelow(total, others + 1, h);
  }

  lemma DivideBelow(n: nat, d: nat, h: nat)
    requires d > 0 && n < d * h
    ensures n / d < h
  {
    var q := n / d;
    assert d * h == d * q + d * (h - q);
  }

  lemma DivideMonotone(a: nat, b: nat, d: nat)
    requires a <= b && d > 0
    ensures a / d <= b / d
  {
    var q := b / d;
    assert b < d * q + d == d * (q + 1);
    DivideBelow(a, d, q + 1);
  }

  lemma WriteKeepsOthers(e: Entries, tenant: Tenant, key: string, x: Entry, b: Tenant)
    requires b != tenant
    ensures Held(e[(tenant, key) := x], b) == Held(e, b)
  {
    assert Slots(e[(tenant, key) := x], b) == Slots(e, b);
  }

  lemma DropCosts(e: Entries, v: Slot, b: Tenant)
    requires v in e
    ensures Held(e - {v}, b) == Held(e, b) - if v.0 == b then 1 else 0
  {
    if v.0 == b {
      assert v in Slots(e, b) && Slots(e - {v}, b) == Slots(e, b) - {v};
    } else {
      assert Slots(e - {v}, b) == Slots(e, b);
    }
  }

  /** The only tenant besides the writer that a write can cost an entry is the fullest one. */
  lemma OnlyTheFullestPays(p: Policy, s: Store, tenant: Tenant, key: string, o: Outcome, now: nat, b: Tenant)
    requires b != tenant
    ensures var after := Recorded(p, s, tenant, key, o, now).entries;
      Held(after, b) == Held(s.entries, b) ||
      (|s.entries| >= p.capacity && Fullest(s.entries, tenant, b) && Held(after, b) == Held(s.entries, b) - 1)
  {
    var e, room := s.entries, Roomed(p, s.entries, tenant);
    WriteKeepsOthers(room, tenant, key, Entry(o, now + p.Ttl(o), s.nextSeq), b);
    if |e| >= p.capacity && e != map[] {
      var v := RoomedVictim(p, e, tenant);
      DropCosts(e, v, b);
    }
  }

  lemma RoomedVictim(p: Policy, e: Entries, tenant: Tenant) returns (v: Slot)
    requires |e| >= p.capacity && e != map[]
    ensures v in e && Fullest(e, tenant, v.0) && Roomed(p, e, tenant) == e - {v}
  {
    EvicteeExists(e, tenant);
    v :| IsEvictee(e, tenant, v) && Roomed(p, e, tenant) == e - {v};
  }

  lemma WriterOutrankedOnlyByMore(e: Entries, tenant: Tenant, b: Tenant)
    requires Fullest(e, tenant, b) && b != tenant
    ensures Held(e, b) > Held(e, tenant)
    ensures forall u | u in Holders(e) :: Held(e, u) <= Held(e, b)
  {
    var k :| k in e && k.0 == b;
    assert k in Slots(e, b);
    if tenant !in Holders(e) {
      forall j | j in e ensures j.0 != tenant { assert j.0 in Holders(e); }
      assert Slots(e, tenant) == {};
    }
  }

  /** A write by one tenant costs another tenant an entry only if that other tenant holds strictly
      more than the writer and at least as much as anyone, and then leaves it at least an equal
      share of the capacity. */
  lemma EvictionIsMaxMinFair(p: Policy, s: Store, tenant: Tenant, key: string, o: Outcome, now: nat, b: Tenant)
    requires b != tenant
    ensures var after := Recorded(p, s, tenant, key, o, now).entries;
      Held(after, b) != Held(s.entries, b) ==>
        && Held(s.entries, b) > Held(s.entries, tenant)
        && (forall u | u in Holders(s.entries) :: Held(s.entries, u) <= Held(s.entries, b))
        && |Sharers(s.entries, tenant)| > 0
        && Held(after, b) >= p.capacity / |Sharers(s.entries, tenant)|
  {
    var e, after := s.entries, Recorded(p, s, tenant, key, o, now).entries;
    OnlyTheFullestPays(p, s, tenant, key, o, now, b);
    if Held(after, b) != Held(e, b) {
      WriterOutrankedOnlyByMore(e, tenant, b);
      LargestIsAboveShare(e, tenant, b);
      DivideMonotone(p.capacity, |e|, |Sharers(e, tenant)|);
    }
  }

  datatype Op = RecordOp(tenant: Tenant, key: string, outcome: Outcome, now: nat) | LookupOp(tenant: Tenant,
      key: string, now: nat)

  ghost function Apply(p: Policy, s: Store, op: Op): Store {
    match op
    case RecordOp(t, k, o, now) => Recorded(p, s, t, k, o, now)
    case LookupOp(t, k, now) => LookedUp(s, t, k, now).0
  }

  /** The store after a history of operations, oldest first. */
  ghost function Replay(p: Policy, ops: seq<Op>): Store {
    if ops == [] then EMPTY else Apply(p, Replay(p, ops[..|ops| - 1]), ops[|ops| - 1])
  }

  /** The newest write for a slot, and when it expires. */
  ghost function Latest(p: Policy, ops: seq<Op>, slot: Slot): Option<(Outcome, nat)> {
    if ops == [] then None
    else
      var op := ops[|ops| - 1];
      if op.RecordOp? && (op.tenant, op.key) == slot then Some((op.outcome, op.now + p.Ttl(op.outcome)))
      else Latest(p, ops[..|ops| - 1], slot)
  }

  lemma LookupBounds(s: Store, t: Tenant, k: string, now: nat)
    requires Numbered(s)
    ensures var after := LookedUp(s, t, k, now).0; Numbered(after) && |after.entries| <= |s.entries|
  {
    var after := LookedUp(s, t, k, now).0.entries;
    assert after.Keys <= s.entries.Keys;
    SubsetSize(after.Keys, s.entries.Keys);
  }

  lemma RoomedBounds(p: Policy, e: Entries, t: Tenant)
    requires p.capacity > 0 && |e| <= p.capacity
    ensures |Roomed(p, e, t)| < p.capacity
  {
    if |e| >= p.capacity {
      EvicteeExists(e, t);
      var v :| IsEvictee(e, t, v) && Roomed(p, e, t) == e - {v};
      assert (e - {v}).Keys == e.Keys - {v};
    }
  }

  lemma ApplyBounds(p: Policy, s: Store, op: Op)
    requires Numbered(s) && p.capacity > 0 && |s.entries| <= p.capacity
    ensures Numbered(Apply(p, s, op)) && |Apply(p, s, op).entries| <= p.capacity
  {
    match op
    case LookupOp(t, k, now) => LookupBounds(s, t, k, now);
    case RecordOp(t, k, o, now) =>
      RecordedNumbered(p, s, t, k, o, now);
      RoomedBounds(p, s.entries, t);
      assert Recorded(p, s, t, k, o, now).entries.Keys == Roomed(p, s.entries, t).Keys + {(t, k)};
  }

  lemma {:induction false} SubsetSize<T>(a: set<T>, b: set<T>)
    requires a <= b
    ensures |a| <= |b|
  {
    assert b == a + (b - a);
  }

  /** Over every history: the store never exceeds its capacity, and whatever it holds for a slot is
      the newest write made for exactly that tenant and key. */
  lemma {:induction false} HistoryIsTruthful(p: Policy, ops: seq<Op>)
    requires p.capacity > 0
    ensures Numbered(Replay(p, ops)) && |Replay(p, ops).entries| <= p.capacity
    ensures forall k :: Truthful(p, ops, k)
  {
    if ops != [] {
      var front, op := ops[..|ops| - 1], ops[|ops| - 1];
      HistoryIsTruthful(p, front);
      ApplyBounds(p, Replay(p, front), op);
      forall k ensures Truthful(p, ops, k) {
        assert Truthful(p, front, k);
        TruthfulNext(p, ops, k);
      }
    }
  }

  /** What the store holds for a slot is the newest write for it. */
  ghost predicate Truthful(p: Policy, ops: seq<Op>, k: Slot) {
    k in Replay(p, ops).entries ==>
      var e := Replay(p, ops).entries[k]; Latest(p, ops, k) == Some((e.outcome, e.expiresAt))
  }

  lemma TruthfulNext(p: Policy, ops: seq<Op>, k: Slot)
    requires ops != [] && Truthful(p, ops[..|ops| - 1], k)
    ensures Truthful(p, ops, k)
  {
    var before, op := Replay(p, ops[..|ops| - 1]), ops[|ops| - 1];
    if k in Apply(p, before, op).entries && !(op.RecordOp? && (op.tenant, op.key) == k) {
      ApplyKeepsOrWrites(p, before, op, k);
    }
  }

  lemma ApplyKeepsOrWrites(p: Policy, s: Store, op: Op, k: Slot)
    requires k in Apply(p, s, op).entries && !(op.RecordOp? && (op.tenant, op.key) == k)
    ensures k in s.entries && Apply(p, s, op).entries[k] == s.entries[k]
  {
  }

  /** Every hit is the latest, unexpired record for that tenant and key. */
  lemma HitsAreLatest(p: Policy, ops: seq<Op>, tenant: Tenant, key: string, now: nat)
    requires p.capacity > 0
    ensures var hit := LookedUp(Replay(p, ops), tenant, key, now).1;
      hit.Some? ==>
        var w := Latest(p, ops, (tenant, key)); w.Some? && w.value.0 == hit.value && now < w.value.1
  {
    HistoryIsTruthful(p, ops);
    assert Truthful(p, ops, (tenant, key));
  }
}
