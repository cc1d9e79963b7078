/** A step's memo key: the canonical, tagged, length-prefixed encoding of everything that decides what
    the step does, hashed, with the keys of the steps it needs fed in.

    The hash is a parameter: every claim that a real hash could break is stated up to a collision
    between two encodings that actually occur. */
module StepKey {
  import opened Wrappers
  import opened Orders
  import opened Bytes

  // ---- Orders on text ----

  predicate ByteLess(a: Byte, b: Byte) { a < b }

  predicate BytesLess(a: Text, b: Text) { LexLess(ByteLess, a, b) }

  predicate PairLess(a: (Text, Text), b: (Text, Text)) { BytesLess(a.0, b.0) || (a.0 == b.0 && BytesLess(a.1, b.1)) }

  lemma BytesOrder()
    ensures StrictTotal(BytesLess)
  {
    assert StrictTotal(ByteLess);
    forall a: Text ensures !BytesLess(a, a) { LexIrreflexive(ByteLess, a); }
    forall a: Text, b: Text ensures a == b || BytesLess(a, b) || BytesLess(b, a) { LexTotal(ByteLess, a, b); }
    forall a: Text, b: Text, c: Text | BytesLess(a, b) && BytesLess(b, c) ensures BytesLess(a, c) {
      LexTransitive(ByteLess, a, b, c);
    }
  }

  lemma PairOrder()
    ensures StrictTotal(PairLess)
  {
    BytesOrder();
    forall a: (Text, Text), b: (Text, Text) ensures a == b || PairLess(a, b) || PairLess(b, a) {
      assert a == (a.0, a.1) && b == (b.0, b.1);
    }
  }

  function Canonical(s: seq<Text>): seq<Text> { SortDedup(Same, BytesLess, s) }

  function CanonicalPairs(s: seq<(Text, Text)>): seq<(Text, Text)> { SortDedup(Same, PairLess, s) }

  // ---- Definitions ----

  datatype Tier = MicroVm | Container
  datatype AuthorClass = Member | Outsider
  datatype Duration = Duration(secs: nat, nanos: nat)

  datatype Spec = Spec(name: Text, image: Text, argv: seq<Text>, timeout: Option<Duration>, continueOnError: bool,
                       needs: seq<Text>, secrets: seq<Text>, inputs: seq<Text>, env: seq<(Text, Text)>)

  datatype Context = Context(tenant: Text, tier: Tier, author: AuthorClass)

  /** A step with every set-shaped field canonical: what its key is a statement about. */
  datatype Step = Step(tenant: Text, version: Text, tier: Tier, author: AuthorClass, name: Text, image: Text,
                       argv: seq<Text>, timeoutSecs: nat, continueOnError: bool, secrets: seq<Text>,
                       inputs: seq<(Text, Text)>, env: seq<(Text, Text)>, deps: seq<Text>)

  const U64_MAX: nat := 0xFFFF_FFFF_FFFF_FFFF

  function TierTag(t: Tier): Byte { match t case MicroVm => 1 case Container => 2 }
  function AuthorTag(a: AuthorClass): Byte { match a case Member => 1 case Outsider => 2 }

  // ---- The encoding and its decoder ----

  /** `hull-ci/step-key/v1` */
  const DOMAIN: Text := [104, 117, 108, 108, 45, 99, 105, 47, 115, 116, 101, 112, 45, 107, 101, 121, 47, 118, 49]

  const SCHEMA: seq<Kind> := [
    AField(0x01), AField(0x02), AField(0x03), AField(0x04), AField(0x10), AField(0x11), AMany(0x12), AField(0x13),
    AField(0x14), AMany(0x15), APairs(0x20), APairs(0x21), AMany(0x30)]

  function Items(s: Step): seq<Item> {
    [Field(0x01, s.tenant), Field(0x02, s.version), Field(0x03, [TierTag(s.tier)]), Field(0x04, [AuthorTag(s.author)]),
     Field(0x10, s.name), Field(0x11, s.image), Many(0x12, s.argv), Field(0x13, U64(s.timeoutSecs)),
     Field(0x14, [if s.continueOnError then 1 else 0]), Many(0x15, s.secrets), Pairs(0x20, s.inputs),
     Pairs(0x21, s.env), Many(0x30, s.deps)]
  }

  /** Every length and the timeout are `u64`s, as every value the program holds is. */
  predicate Fits(s: Step) {
    && FitsU64(s.timeoutSecs)
    && forall k | 0 <= k < |Items(s)| :: ItemFits(Items(s)[k])
  }

  function Encode(s: Step): Text { DOMAIN + PutAll(Items(s)) }

  predicate Shaped(i: seq<Item>) {
    && |i| == 13 && i[0].Field? && i[1].Field? && i[2].Field? && i[3].Field? && i[4].Field? && i[5].Field?
    && i[6].Many? && i[7].Field? && i[8].Field? && i[9].Many? && i[10].Pairs? && i[11].Pairs? && i[12].Many?
  }

  lemma SchemaShapes(i: seq<Item>)
    requires |i| == |SCHEMA| && forall k | 0 <= k < |i| :: KindOf(i[k]) == SCHEMA[k]
    ensures Shaped(i)
  {
    assert KindOf(i[0]) == SCHEMA[0] && KindOf(i[1]) == SCHEMA[1] && KindOf(i[2]) == SCHEMA[2];
    assert KindOf(i[3]) == SCHEMA[3] && KindOf(i[4]) == SCHEMA[4] && KindOf(i[5]) == SCHEMA[5];
    assert KindOf(i[6]) == SCHEMA[6] && KindOf(i[7]) == SCHEMA[7] && KindOf(i[8]) == SCHEMA[8];
    assert KindOf(i[9]) == SCHEMA[9] && KindOf(i[10]) == SCHEMA[10] && KindOf(i[11]) == SCHEMA[11];
    assert KindOf(i[12]) == SCHEMA[12];
  }

  function FromItems(i: seq<Item>): Option<Step>
    requires Shaped(i)
  {
    if |i[2].bytes| == 1 && |i[3].bytes| == 1 && |i[8].bytes| == 1 then
      Some(Step(i[0].bytes, i[1].bytes, if i[2].bytes[0] == 1 then MicroVm else Container,
                if i[3].bytes[0] == 1 then Member else Outsider, i[4].bytes, i[5].bytes, i[6].items,
                ValueOf(i[7].bytes), i[8].bytes[0] == 1, i[9].items, i[10].pairs, i[11].pairs, i[12].items))
    else None
  }

  lemma {:induction false} TakeAllKinds(kinds: seq<Kind>, b: Text)
    ensures TakeAll(kinds, b).Some? ==>
      var items := TakeAll(kinds, b).value.0;
      |items| == |kinds| && forall k | 0 <= k < |items| :: KindOf(items[k]) == kinds[k]
    decreases |kinds|
  {
    if kinds != [] && Take(kinds[0], b).Some? { TakeAllKinds(kinds[1..], Take(kinds[0], b).value.1); }
  }

  function Decode(b: Text): Option<Step> {
    if |b| < |DOMAIN| || b[..|DOMAIN|] != DOMAIN then None
    else
      var r := TakeAll(SCHEMA, b[|DOMAIN|..]);
      TakeAllKinds(SCHEMA, b[|DOMAIN|..]);
      if r.Some? && r.value.1 == [] then SchemaShapes(r.value.0); FromItems(r.value.0) else None
  }

  lemma ItemsFollowSchema(s: Step)
    requires Fits(s)
    ensures KindsOf(Items(s), SCHEMA)
  {
  }

  lemma ItemsReadBack(s: Step)
    requires Fits(s)
    ensures KindsOf(Items(s), SCHEMA) && Shaped(Items(s)) && FromItems(Items(s)) == Some(s)
  {
    ItemsFollowSchema(s);
    U64Reads(s.timeoutSecs);
  }

  /** The decoder recovers the canonical step from its encoding. */
  lemma DecodeEncode(s: Step)
    requires Fits(s)
    ensures Decode(Encode(s)) == Some(s)
  {
    var b, body := Encode(s), PutAll(Items(s));
    assert b[..|DOMAIN|] == DOMAIN && b[|DOMAIN|..] == body && body + [] == body;
    ItemsReadBack(s);
    TakesAll(Items(s), SCHEMA, []);
  }

  lemma EncodeInjective(a: Step, b: Step)
    requires Fits(a) && Fits(b) && Encode(a) == Encode(b)
    ensures a == b
  {
    DecodeEncode(a);
    DecodeEncode(b);
  }

  // ---- From a declared step to its canonical form ----

  function WholeSeconds(t: Option<Duration>): nat { match t case None => U64_MAX case Some(d) => d.secs }

  function CanonicalStep(version: Text, ctx: Context, spec: Spec, digests: seq<(Text, Text)>, deps: seq<Text>): Step {
    Step(ctx.tenant, version, ctx.tier, ctx.author, spec.name, spec.image, spec.argv, WholeSeconds(spec.timeout),
         spec.continueOnError, Canonical(spec.secrets), digests, CanonicalPairs(spec.env), Canonical(deps))
  }

  ghost predicate SameSet<T(!new)>(a: seq<T>, b: seq<T>) { forall x :: x in a <==> x in b }

  /** Equal encodings mean the same step up to declaration order, and nothing coarser: only the order
      and repetition of secrets, environment and dependency keys, and sub-second timeouts, are lost. */
  lemma EqualEncodings(v1: Text, c1: Context, s1: Spec, g1: seq<(Text, Text)>, d1: seq<Text>,
                       v2: Text, c2: Context, s2: Spec, g2: seq<(Text, Text)>, d2: seq<Text>)
    requires Fits(CanonicalStep(v1, c1, s1, g1, d1)) && Fits(CanonicalStep(v2, c2, s2, g2, d2))
    ensures Encode(CanonicalStep(v1, c1, s1, g1, d1)) == Encode(CanonicalStep(v2, c2, s2, g2, d2)) <==>
      && v1 == v2 && c1 == c2 && s1.name == s2.name && s1.image == s2.image && s1.argv == s2.argv
      && WholeSeconds(s1.timeout) == WholeSeconds(s2.timeout) && s1.continueOnError == s2.continueOnError
      && g1 == g2 && SameSet(s1.secrets, s2.secrets) && SameSet(s1.env, s2.env) && SameSet(d1, d2)
  {
    var a, b := CanonicalStep(v1, c1, s1, g1, d1), CanonicalStep(v2, c2, s2, g2, d2);
    if Encode(a) == Encode(b) { EncodeInjective(a, b); }
    BytesOrder();
    PairOrder();
    SortDedupIsTheSet(BytesLess, s1.secrets, s2.secrets);
    SortDedupIsTheSet(BytesLess, d1, d2);
    SortDedupIsTheSet(PairLess, s1.env, s2.env);
  }

  // ---- Keys, one step and a whole plan ----

  datatype InputDigest = InputDigest(digest: Text, selected: nat)

  datatype NotCacheable =
    | NoInputs
    | InputsSelectedNothing
    | DigestUnavailable
    | DependencyNotCacheable(need: Text)
    | UndeclaredDependency(need: Text)

  /** The memo's wiring. `digest` answers for one tenant's glob on the job's tree; `trim` strips
      white space. */
  datatype Memo = Memo(version: Text, trim: Text -> Text, digest: (Text, Text) -> Option<InputDigest>)

  /** 64 hex characters. */
  type Key = k: Text | |k| == 64 witness seq(64, _ => 0)

  type Hash = Text -> Key

  type KeyResult = Result<Key, NotCacheable>

  function Trimmed(memo: Memo, globs: seq<Text>): seq<Text> {
    if globs == [] then [] else [memo.trim(globs[0])] + Trimmed(memo, globs[1..])
  }

  /** Each glob with its digest, and whether any of them selected something. */
  function Digests(memo: Memo, tenant: Text, globs: seq<Text>): Option<(seq<(Text, Text)>, bool)> {
    if globs == [] then Some(([], false))
    else
      match memo.digest(tenant, globs[0])
      case None => None
      case Some(d) =>
        match Digests(memo, tenant, globs[1..])
        case None => None
        case Some(r) => Some(([(globs[0], d.digest)] + r.0, d.selected > 0 || r.1))
  }

  function Globs(memo: Memo, spec: Spec): seq<Text> { Canonical(Trimmed(memo, spec.inputs)) }

  /** The step a key would be computed for, or why there is none. */
  function KeyedStep(memo: Memo, ctx: Context, spec: Spec, deps: seq<Text>): Result<Step, NotCacheable> {
    if spec.inputs == [] then Err(NoInputs)
    else
      match Digests(memo, ctx.tenant, Globs(memo, spec))
      case None => Err(DigestUnavailable)
      case Some(d) =>
        if !d.1 then Err(InputsSelectedNothing)
        else Ok(CanonicalStep(memo.version, ctx, spec, d.0, deps))
  }

  lemma {:induction false} DigestsAre(memo: Memo, tenant: Text, globs: seq<Text>)
    requires Digests(memo, tenant, globs).Some?
    ensures var r := Digests(memo, tenant, globs).value.0;
      && |r| == |globs|
      && forall i | 0 <= i < |globs| ::
         memo.digest(tenant, globs[i]).Some? && r[i] == (globs[i], memo.digest(tenant, globs[i]).value.digest)
  {
    if globs != [] { DigestsAre(memo, tenant, globs[1..]); }
  }

  /** The two steps declare the same inputs, and each digests the same for both. */
  ghost predicate SameInputs(m1: Memo, t1: Text, in1: seq<Text>, m2: Memo, t2: Text, in2: seq<Text>) {
    && SameSet(Trimmed(m1, in1), Trimmed(m2, in2))
    && forall g | g in Trimmed(m1, in1) ::
         m1.digest(t1, g).Some? && m2.digest(t2, g).Some? &&
             m1.digest(t1, g).value.digest == m2.digest(t2, g).value.digest
  }

  lemma CanonicalHolds(s: seq<Text>)
    ensures forall x :: x in Canonical(s) <==> x in s
  {
    BytesOrder();
    SortDedupOrdered(Same, BytesLess, s);
    forall x | x in s ensures x in Canonical(s) {
      SortDedupKeys(Same, BytesLess, s, x);
      var i :| 0 <= i < |s| && s[i] == x;
      assert Same(s[i]) == x;
      var k :| 0 <= k < |Canonical(s)| && Same(Canonical(s)[k]) == x;
    }
  }

  /** Equal digest lists are exactly equal declared input sets, digest for digest. */
  lemma EqualDigestLists(m1: Memo, t1: Text, s1: Spec, m2: Memo, t2: Text, s2: Spec)
    requires Digests(m1, t1, Globs(m1, s1)).Some? && Digests(m2, t2, Globs(m2, s2)).Some?
    ensures Digests(m1, t1, Globs(m1, s1)).value.0 == Digests(m2, t2, Globs(m2, s2)).value.0 <==>
            SameInputs(m1, t1, s1.inputs, m2, t2, s2.inputs)
  {
    var a, b := Globs(m1, s1), Globs(m2, s2);
    var da, db := Digests(m1, t1, a).value.0, Digests(m2, t2, b).value.0;
    DigestsAre(m1, t1, a);
    DigestsAre(m2, t2, b);
    BytesOrder();
    SortDedupIsTheSet(BytesLess, Trimmed(m1, s1.inputs), Trimmed(m2, s2.inputs));
    CanonicalHolds(Trimmed(m1, s1.inputs));
    if da == db { SameLists(m1, t1, a, m2, t2, b); }
    if SameInputs(m1, t1, s1.inputs, m2, t2, s2.inputs) {
      assert a == b;
      forall i | 0 <= i < |a| ensures da[i] == db[i] { assert a[i] in Trimmed(m1, s1.inputs); }
    }
  }

  lemma SameLists(m1: Memo, t1: Text, a: seq<Text>, m2: Memo, t2: Text, b: seq<Text>)
    requires Digests(m1, t1, a).Some? && Digests(m2, t2, b).Some? &&
             Digests(m1, t1, a).value.0 == Digests(m2, t2, b).value.0
    ensures a == b
    ensures forall g | g in a ::
      m1.digest(t1, g).Some? && m2.digest(t2, g).Some? && m1.digest(t1, g).value.digest == m2.digest(t2, g).value.digest
  {
    DigestsAre(m1, t1, a);
    DigestsAre(m2, t2, b);
    var d := Digests(m1, t1, a).value.0;
    forall i | 0 <= i < |a| ensures a[i] == b[i] { assert d[i].0 == a[i] && d[i].0 == b[i]; }
    forall g | g in a ensures m1.digest(t1, g).Some? && m2.digest(t2, g).Some? &&
        m1.digest(t1, g).value.digest == m2.digest(t2, g).value.digest {
      var i :| 0 <= i < |a| && a[i] == g;
      assert d[i].1 == m1.digest(t1, g).value.digest;
    }
  }

  /** What two keyed steps hash is equal exactly when everything that decides what they do is: tenant,
      version, tier, author class, name, image, ordered argv, whole-second timeout and tolerance, the sets
      of inputs (digest by digest), secrets, environment and dependency keys. */
  lemma EqualKeyedSteps(m1: Memo, c1: Context, s1: Spec, d1: seq<Text>, m2: Memo, c2: Context, s2: Spec, d2: seq<Text>)
    requires KeyedStep(m1, c1, s1, d1).Ok? && KeyedStep(m2, c2, s2, d2).Ok?
    requires Fits(KeyedStep(m1, c1, s1, d1).value) && Fits(KeyedStep(m2, c2, s2, d2).value)
    ensures Encode(KeyedStep(m1, c1, s1, d1).value) == Encode(KeyedStep(m2, c2, s2, d2).value) <==>
      && m1.version == m2.version && c1 == c2 && s1.name == s2.name && s1.image == s2.image && s1.argv == s2.argv
      && WholeSeconds(s1.timeout) == WholeSeconds(s2.timeout) && s1.continueOnError == s2.continueOnError
      && SameInputs(m1, c1.tenant, s1.inputs, m2, c2.tenant, s2.inputs)
      && SameSet(s1.secrets, s2.secrets) && SameSet(s1.env, s2.env) && SameSet(d1, d2)
  {
    var g1, g2 := Digests(m1, c1.tenant, Globs(m1, s1)).value.0, Digests(m2, c2.tenant, Globs(m2, s2)).value.0;
    EqualEncodings(m1.version, c1, s1, g1, d1, m2.version, c2, s2, g2, d2);
    EqualDigestLists(m1, c1.tenant, s1, m2, c2.tenant, s2);
  }

  function Hashed(h: Hash, s: Result<Step, NotCacheable>): KeyResult {
    match s case Err(e) => Err(e) case Ok(step) => Ok(h(Encode(step)))
  }

  function Position(specs: seq<Spec>, name: Text): (r: Option<nat>)
    ensures r.Some? ==>
      r.value < |specs| && specs[r.value].name == name && forall k | 0 <= k < r.value :: specs[k].name != name
    ensures r.None? ==> forall k | 0 <= k < |specs| :: specs[k].name != name
  {
    if specs == [] then None
    else if specs[0].name == name then Some(0)
    else match Position(specs[1..], name) case None => None case Some(i) => Some(i + 1)
  }

  /** The steps a `needs` list names, each already keyed, or the first refusal. */
  function Resolve(specs: seq<Spec>, keys: seq<KeyResult>, needs: seq<Text>): (r: Result<seq<nat>, NotCacheable>)
    ensures r.Ok? ==> |r.value| == |needs| && forall k | 0 <= k < |needs| ::
      r.value[k] < |keys| && keys[r.value[k]].Ok? && Position(specs, needs[k]) == Some(r.value[k])
  {
    if needs == [] then Ok([])
    else
      var p := Position(specs, needs[0]);
      if p.None? || p.value >= |keys| then Err(UndeclaredDependency(needs[0]))
      else if keys[p.value].Err? then Err(DependencyNotCacheable(needs[0]))
      else
        match Resolve(specs, keys, needs[1..])
        case Err(e) => Err(e)
        case Ok(rest) => Ok([p.value] + rest)
  }

  function KeysOf(keys: seq<KeyResult>, idx: seq<nat>): (r: seq<Text>)
    requires forall k | 0 <= k < |idx| :: idx[k] < |keys| && keys[idx[k]].Ok?
    ensures |r| == |idx| && forall k | 0 <= k < |idx| :: r[k] == keys[idx[k]].value
  {
    if idx == [] then [] else [keys[idx[0]].value] + KeysOf(keys, idx[1..])
  }

  datatype Plan = Plan(memo: Memo, ctx: Context, specs: seq<Spec>)

  /** The step at the end of `keys`, with its dependencies' keys fed in. */
  function NextStep(plan: Plan, keys: seq<KeyResult>): Result<Step, NotCacheable>
    requires |keys| < |plan.specs|
  {
    var spec := plan.specs[|keys|];
    match Resolve(plan.specs, keys, spec.needs)
    case Err(e) => Err(e)
    case Ok(idx) => KeyedStep(plan.memo, plan.ctx, spec, KeysOf(keys, idx))
  }

  /** Keys of the first `n` steps, in declaration order. */
  function PlanKeys(h: Hash, plan: Plan, n: nat): (keys: seq<KeyResult>)
    requires n <= |plan.specs|
    ensures |keys| == n
  {
    if n == 0 then [] else var keys := PlanKeys(h, plan, n - 1); keys + [Hashed(h, NextStep(plan, keys))]
  }

  method DependencyKeys(specs: seq<Spec>, keys: seq<KeyResult>, needs: seq<Text>)
    returns (r: Result<seq<Text>, NotCacheable>)
    ensures match Resolve(specs, keys, needs) case Err(e) => r == Err(e) case Ok(idx) => r == Ok(KeysOf(keys, idx))
  {
    var deps: seq<Text> := [];
    ghost var idx: seq<nat> := [];
    assert needs[0..] == needs && forall rest: seq<nat> :: [] + rest == rest;
    for k := 0 to |needs|
      invariant forall j | 0 <= j < |idx| :: idx[j] < |keys| && keys[idx[j]].Ok?
      invariant deps == KeysOf(keys, idx)
      invariant Resolve(specs, keys, needs) == Prepend(idx, Resolve(specs, keys, needs[k..]))
    {
      var p := Position(specs, needs[k]);
      assert needs[k..][0] == needs[k] && needs[k..][1..] == needs[k + 1..];
      if p.None? || p.value >= |keys| { return Err(UndeclaredDependency(needs[k])); }
      if keys[p.value].Err? { return Err(DependencyNotCacheable(needs[k])); }
      KeysOfAppend(keys, idx, p.value);
      PrependStep(idx, p.value, Resolve(specs, keys, needs[k + 1..]));
      deps, idx := deps + [keys[p.value].value], idx + [p.value];
    }
    assert needs[|needs|..] == [] && idx + [] == idx;
    r := Ok(deps);
  }

  method PlanStepKeys(h: Hash, plan: Plan) returns (keys: seq<KeyResult>)
    ensures keys == PlanKeys(h, plan, |plan.specs|)
  {
    keys := [];
    for n := 0 to |plan.specs|
      invariant keys == PlanKeys(h, plan, n)
    {
      var deps := DependencyKeys(plan.specs, keys, plan.specs[n].needs);
      keys := keys + [match deps
                      case Err(e) => Err(e)
                      case Ok(d) => Hashed(h, KeyedStep(plan.memo, plan.ctx, plan.specs[n], d))];
    }
  }

  ghost function Prepend(idx: seq<nat>, r: Result<seq<nat>, NotCacheable>): Result<seq<nat>, NotCacheable> {
    match r case Err(e) => Err(e) case Ok(rest) => Ok(idx + rest)
  }

  lemma PrependStep(idx: seq<nat>, i: nat, r: Result<seq<nat>, NotCacheable>)
    ensures Prepend(idx, Prepend([i], r)) == Prepend(idx + [i], r)
  {
    if r.Ok? { assert idx + ([i] + r.value) == idx + [i] + r.value; }
  }

  lemma {:induction false} KeysOfAppend(keys: seq<KeyResult>, idx: seq<nat>, i: nat)
    requires forall k | 0 <= k < |idx| :: idx[k] < |keys| && keys[idx[k]].Ok?
    requires i < |keys| && keys[i].Ok?
    ensures KeysOf(keys, idx + [i]) == KeysOf(keys, idx) + [keys[i].value]
  {
    var all := idx + [i];
    assert forall k | 0 <= k < |idx| :: all[k] == idx[k];
    assert forall k | 0 <= k < |idx| :: KeysOf(keys, all)[k] == KeysOf(keys, idx)[k];
  }

  // ---- The Merkle property ----

  lemma {:induction false} KeysArePrefixes(h: Hash, plan: Plan, m: nat, n: nat)
    requires m <= n <= |plan.specs|
    ensures PlanKeys(h, plan, n)[..m] == PlanKeys(h, plan, m)
  {
    if m < n { KeysArePrefixes(h, plan, m, n - 1); }
  }

  function KeyAt(h: Hash, plan: Plan, i: nat): KeyResult
    requires i < |plan.specs|
  {
    Hashed(h, NextStep(plan, PlanKeys(h, plan, i)))
  }

  lemma KeyAtIs(h: Hash, plan: Plan, i: nat, n: nat)
    requires i < n <= |plan.specs|
    ensures PlanKeys(h, plan, n)[i] == KeyAt(h, plan, i)
  {
    KeysArePrefixes(h, plan, i + 1, n);
    assert PlanKeys(h, plan, n)[i] == PlanKeys(h, plan, n)[..i + 1][i];
  }

  /** What was hashed for step `i`. */
  function StepAt(h: Hash, plan: Plan, i: nat): Step
    requires i < |plan.specs| && KeyAt(h, plan, i).Ok?
  {
    NextStep(plan, PlanKeys(h, plan, i)).value
  }

  /** The steps that step `i` directly needs. */
  function Needed(h: Hash, plan: Plan, i: nat): (idx: seq<nat>)
    requires i < |plan.specs| && KeyAt(h, plan, i).Ok?
  {
    Resolve(plan.specs, PlanKeys(h, plan, i), plan.specs[i].needs).value
  }

  lemma NeededAreKeyed(h: Hash, plan: Plan, i: nat)
    requires i < |plan.specs| && KeyAt(h, plan, i).Ok?
    ensures var idx := Needed(h, plan, i);
      && |idx| == |plan.specs[i].needs|
      && forall k | 0 <= k < |idx| ::
           idx[k] < i && KeyAt(h, plan, idx[k]).Ok? && plan.specs[idx[k]].name == plan.specs[i].needs[k]
    ensures StepAt(h, plan, i).deps == Canonical(DepKeys(h, plan, i))
  {
    var idx := Needed(h, plan, i);
    forall k | 0 <= k < |idx| ensures idx[k] < i && KeyAt(h, plan, idx[k]) == PlanKeys(h, plan, i)[idx[k]] {
      KeyAtIs(h, plan, idx[k], i);
    }
  }

  function DepKeys(h: Hash, plan: Plan, i: nat): seq<Text>
    requires i < |plan.specs| && KeyAt(h, plan, i).Ok?
  {
    KeysOf(PlanKeys(h, plan, i), Needed(h, plan, i))
  }

  /** A step's whole dependency cone: its own definition and input digests, and the cones it needs. */
  datatype Cone = Cone(step: Step, needs: set<Cone>)

  ghost function ConeOf(h: Hash, plan: Plan, i: nat): Cone
    requires i < |plan.specs| && KeyAt(h, plan, i).Ok?
    decreases i, 0
  {
    NeededAreKeyed(h, plan, i);
    var below := ConesOf(h, plan, i, Needed(h, plan, i));
    Cone(StepAt(h, plan, i).(deps := []), set c | c in below)
  }

  ghost function ConesOf(h: Hash, plan: Plan, i: nat, idx: seq<nat>): (r: seq<Cone>)
    requires i < |plan.specs|
    requires forall k | 0 <= k < |idx| :: idx[k] < i && KeyAt(h, plan, idx[k]).Ok?
    ensures |r| == |idx| && forall k | 0 <= k < |idx| :: r[k] == ConeOf(h, plan, idx[k])
    decreases i, 0, |idx|
  {
    if idx == [] then [] else [ConeOf(h, plan, idx[0])] + ConesOf(h, plan, i, idx[1..])
  }

  /** Step `k` is in step `i`'s cone. */
  ghost predicate InCone(h: Hash, plan: Plan, i: nat, k: nat)
    requires i < |plan.specs| && KeyAt(h, plan, i).Ok?
  {
    NeededAreKeyed(h, plan, i);
    var idx := Needed(h, plan, i);
    k == i || exists n :: 0 <= n < |idx| && InCone(h, plan, idx[n], k)
  }

  /** A step has a key only if every step in its cone has one. */
  lemma {:induction false} ConeIsKeyed(h: Hash, plan: Plan, i: nat, k: nat)
    requires i < |plan.specs| && KeyAt(h, plan, i).Ok? && InCone(h, plan, i, k)
    ensures k <= i && KeyAt(h, plan, k).Ok?
  {
    NeededAreKeyed(h, plan, i);
    if k != i {
      var idx := Needed(h, plan, i);
      var n :| 0 <= n < |idx| && InCone(h, plan, idx[n], k);
      ConeIsKeyed(h, plan, idx[n], k);
    }
  }

  ghost predicate PlanFits(h: Hash, plan: Plan) {
    forall i | 0 <= i < |plan.specs| && KeyAt(h, plan, i).Ok? :: Fits(StepAt(h, plan, i))
  }

  /** No step of one plan collides with a different step of the other. */
  ghost predicate NoCollision(h: Hash, p: Plan, q: Plan) {
    forall i, j | 0 <= i < |p.specs| && KeyAt(h, p, i).Ok? && 0 <= j < |q.specs| && KeyAt(h, q, j).Ok? ::
      KeyAt(h, p, i) == KeyAt(h, q, j) ==> Encode(StepAt(h, p, i)) == Encode(StepAt(h, q, j))
  }

  /** Two keyed steps have equal keys exactly when their whole cones are equal. */
  lemma {:induction false} KeysAreCones(h: Hash, p: Plan, i: nat, q: Plan, j: nat)
    requires PlanFits(h, p) && PlanFits(h, q) && NoCollision(h, p, q)
    requires i < |p.specs| && KeyAt(h, p, i).Ok? && j < |q.specs| && KeyAt(h, q, j).Ok?
    ensures KeyAt(h, p, i) == KeyAt(h, q, j) <==> ConeOf(h, p, i) == ConeOf(h, q, j)
    decreases i, 1
  {
    DepsAreCones(h, p, i, q, j);
    var s, t := StepAt(h, p, i), StepAt(h, q, j);
    SameDeps(h, p, i, q, j);
    if KeyAt(h, p, i) == KeyAt(h, q, j) {
      EncodeInjective(s, t);
    }
    if ConeOf(h, p, i) == ConeOf(h, q, j) {
      assert s.(deps := []) == t.(deps := []);
      assert s == t;
    }
  }

  lemma SameDeps(h: Hash, p: Plan, i: nat, q: Plan, j: nat)
    requires i < |p.specs| && KeyAt(h, p, i).Ok? && j < |q.specs| && KeyAt(h, q, j).Ok?
    ensures StepAt(h, p, i).deps == StepAt(h, q, j).deps <==> SameSet(DepKeys(h, p, i), DepKeys(h, q, j))
  {
    NeededAreKeyed(h, p, i);
    NeededAreKeyed(h, q, j);
    BytesOrder();
    SortDedupIsTheSet(BytesLess, DepKeys(h, p, i), DepKeys(h, q, j));
  }

  lemma {:induction false} DepsAreCones(h: Hash, p: Plan, i: nat, q: Plan, j: nat)
    requires PlanFits(h, p) && PlanFits(h, q) && NoCollision(h, p, q)
    requires i < |p.specs| && KeyAt(h, p, i).Ok? && j < |q.specs| && KeyAt(h, q, j).Ok?
    ensures SameSet(DepKeys(h, p, i), DepKeys(h, q, j)) <==> ConeOf(h, p, i).needs == ConeOf(h, q, j).needs
    decreases i, 0
  {
    NeededAreKeyed(h, p, i);
    NeededAreKeyed(h, q, j);
    var a, b := Needed(h, p, i), Needed(h, q, j);
    var ka, kb := DepKeys(h, p, i), DepKeys(h, q, j);
    var ca, cb := ConesOf(h, p, i, a), ConesOf(h, q, j, b);
    forall m, n | 0 <= m < |a| && 0 <= n < |b| ensures ka[m] == kb[n] <==> ca[m] == cb[n] {
      KeyAtIs(h, p, a[m], i);
      KeyAtIs(h, q, b[n], j);
      KeysAreCones(h, p, a[m], q, b[n]);
    }
    Correspond(ka, ca, kb, cb);
  }

  lemma Correspond<K(!new), C(!new)>(ka: seq<K>, ca: seq<C>, kb: seq<K>, cb: seq<C>)
    requires |ka| == |ca| && |kb| == |cb|
    requires forall m, n | 0 <= m < |ka| && 0 <= n < |kb| :: ka[m] == kb[n] <==> ca[m] == cb[n]
    ensures SameSet(ka, kb) <==> (set c | c in ca) == (set c | c in cb)
  {
    assert SameSet(ka, kb) <==> SameSet(ca, cb) by {
      Covered(ka, ca, kb, cb);
      Covered(kb, cb, ka, ca);
      Covered(ca, ka, cb, kb);
      Covered(cb, kb, ca, ka);
    }
    assert SameSet(ca, cb) ==> (set c | c in ca) == (set c | c in cb);
    if (set c | c in ca) == (set c | c in cb) {
      var sa, sb := set c | c in ca, set c | c in cb;
      forall y ensures y in ca <==> y in cb { assert (y in ca <==> y in sa) && (y in cb <==> y in sb); }
    }
  }

  lemma Covered<K(!new), C(!new)>(ka: seq<K>, ca: seq<C>, kb: seq<K>, cb: seq<C>)
    requires |ka| == |ca| && |kb| == |cb|
    requires forall m, n | 0 <= m < |ka| && 0 <= n < |kb| :: ka[m] == kb[n] <==> ca[m] == cb[n]
    ensures (forall x :: x in ka ==> x in kb) ==> (forall c :: c in ca ==> c in cb)
  {
    if forall x :: x in ka ==> x in kb {
      forall c | c in ca ensures c in cb {
        var m :| 0 <= m < |ca| && ca[m] == c;
        assert ka[m] in kb;
        var n :| 0 <= n < |kb| && kb[n] == ka[m];
      }
    }
  }

  /** A needed step's own name is hashed into its key, so renaming a dependency, even one doing
      identical work, changes the keys of everything that needs it. */
  lemma RenamedNeedIsAMiss(h: Hash, p: Plan, i: nat, q: Plan, j: nat, m: nat)
    requires PlanFits(h, p) && PlanFits(h, q) && NoCollision(h, p, q)
    requires i < |p.specs| && KeyAt(h, p, i).Ok? && j < |q.specs| && KeyAt(h, q, j).Ok?
    requires m < |p.specs[i].needs| && p.specs[i].needs[m] !in q.specs[j].needs
    ensures KeyAt(h, p, i) != KeyAt(h, q, j)
  {
    KeysAreCones(h, p, i, q, j);
    if ConeOf(h, p, i) == ConeOf(h, q, j) { EqualConesShareNames(h, p, i, q, j, m); }
  }

  lemma ConeKeepsName(h: Hash, plan: Plan, i: nat)
    requires i < |plan.specs| && KeyAt(h, plan, i).Ok?
    ensures ConeOf(h, plan, i).step.name == plan.specs[i].name
  {
  }

  lemma EqualConesShareNames(h: Hash, p: Plan, i: nat, q: Plan, j: nat, m: nat)
    requires i < |p.specs| && KeyAt(h, p, i).Ok? && j < |q.specs| && KeyAt(h, q, j).Ok?
    requires ConeOf(h, p, i).needs == ConeOf(h, q, j).needs && m < |p.specs[i].needs|
    ensures p.specs[i].needs[m] in q.specs[j].needs
  {
    NeededAreKeyed(h, p, i);
    NeededAreKeyed(h, q, j);
    var a, b := Needed(h, p, i), Needed(h, q, j);
    var ca, cb := ConesOf(h, p, i, a), ConesOf(h, q, j, b);
    assert ca[m] in ConeOf(h, p, i).needs;
    assert ca[m] in cb;
    var n :| 0 <= n < |cb| && cb[n] == ca[m];
    ConeKeepsName(h, p, a[m]);
    ConeKeepsName(h, q, b[n]);
  }
}
