/** Which steps have a memo key, and why the others have none, said of the plan and what its globs select. */
module KeyLaws {
  import opened Wrappers
  import opened Orders
  import opened Bytes
  import opened StepKey

  // ---- One step's inputs ----

  function DigestOf(memo: Memo, tenant: Text, glob: Text): Option<InputDigest> { memo.digest(tenant, memo.trim(glob)) }

  /** Every declared input could be digested. */
  ghost predicate Digestible(memo: Memo, tenant: Text, inputs: seq<Text>) {
    forall i | 0 <= i < |inputs| :: DigestOf(memo, tenant, inputs[i]).Some?
  }

  /** Some declared input selected something. */
  ghost predicate SelectsSome(memo: Memo, tenant: Text, inputs: seq<Text>) {
    exists i | 0 <= i < |inputs| ::
      var d := DigestOf(memo, tenant, inputs[i]); d.Some? && d.value.selected > 0
  }

  ghost predicate Selects(memo: Memo, tenant: Text, g: Text) {
    memo.digest(tenant, g).Some? && memo.digest(tenant, g).value.selected > 0
  }

  lemma {:induction false} DigestsDecide(memo: Memo, tenant: Text, globs: seq<Text>)
    ensures Digests(memo, tenant, globs).Some? <==> forall g | g in globs :: memo.digest(tenant, g).Some?
    ensures Digests(memo, tenant, globs).Some? ==>
      (Digests(memo, tenant, globs).value.1 <==> exists g :: g in globs && Selects(memo, tenant, g))
  {
    if globs != [] {
      DigestsDecide(memo, tenant, globs[1..]);
      assert forall g :: g in globs <==> g == globs[0] || g in globs[1..];
    }
  }

  lemma {:induction false} TrimmedAre(memo: Memo, inputs: seq<Text>)
    ensures |Trimmed(memo, inputs)| == |inputs|
    ensures forall i | 0 <= i < |inputs| :: Trimmed(memo, inputs)[i] == memo.trim(inputs[i])
  {
    if inputs != [] { TrimmedAre(memo, inputs[1..]); }
  }

  lemma GlobOf(memo: Memo, spec: Spec, i: nat)
    requires i < |spec.inputs|
    ensures memo.trim(spec.inputs[i]) in Globs(memo, spec)
  {
    TrimmedAre(memo, spec.inputs);
    CanonicalHolds(Trimmed(memo, spec.inputs));
    assert Trimmed(memo, spec.inputs)[i] in Trimmed(memo, spec.inputs);
  }

  lemma InputOf(memo: Memo, spec: Spec, g: Text) returns (i: nat)
    requires g in Globs(memo, spec)
    ensures i < |spec.inputs| && memo.trim(spec.inputs[i]) == g
  {
    TrimmedAre(memo, spec.inputs);
    CanonicalHolds(Trimmed(memo, spec.inputs));
    i :| 0 <= i < |spec.inputs| && Trimmed(memo, spec.inputs)[i] == g;
  }

  lemma DigestibleIff(memo: Memo, tenant: Text, spec: Spec)
    ensures Digests(memo, tenant, Globs(memo, spec)).Some? <==> Digestible(memo, tenant, spec.inputs)
  {
    DigestsDecide(memo, tenant, Globs(memo, spec));
    if Digestible(memo, tenant, spec.inputs) {
      forall g | g in Globs(memo, spec) ensures memo.digest(tenant, g).Some? {
        var i := InputOf(memo, spec, g);
        assert DigestOf(memo, tenant, spec.inputs[i]).Some?;
      }
    }
    if Digests(memo, tenant, Globs(memo, spec)).Some? {
      forall i | 0 <= i < |spec.inputs| ensures DigestOf(memo, tenant, spec.inputs[i]).Some? { GlobOf(memo, spec, i); }
    }
  }

  lemma SelectsIff(memo: Memo, tenant: Text, spec: Spec)
    requires Digests(memo, tenant, Globs(memo, spec)).Some?
    ensures Digests(memo, tenant, Globs(memo, spec)).value.1 <==> SelectsSome(memo, tenant, spec.inputs)
  {
    DigestsDecide(memo, tenant, Globs(memo, spec));
    if g :| g in Globs(memo, spec) && Selects(memo, tenant, g) {
      var i := InputOf(memo, spec, g);
      assert DigestOf(memo, tenant, spec.inputs[i]).Some?;
    }
    if i :| 0 <= i < |spec.inputs| &&
            var d := DigestOf(memo, tenant, spec.inputs[i]); d.Some? && d.value.selected > 0 {
      GlobOf(memo, spec, i);
      assert Selects(memo, tenant, memo.trim(spec.inputs[i]));
    }
  }

  /** Why a step with these inputs has no key of its own, if it has none. */
  ghost function Refusal(memo: Memo, tenant: Text, inputs: seq<Text>): Option<NotCacheable> {
    if inputs == [] then Some(NoInputs)
    else if !Digestible(memo, tenant, inputs) then Some(DigestUnavailable)
    else if !SelectsSome(memo, tenant, inputs) then Some(InputsSelectedNothing)
    else None
  }

  /** A step whose dependencies are keyed has a key exactly when it declares inputs, all of them have a
      digest and one of them selects something. */
  lemma KeyedIff(memo: Memo, ctx: Context, spec: Spec, deps: seq<Text>)
    ensures match Refusal(memo, ctx.tenant, spec.inputs)
            case Some(e) => KeyedStep(memo, ctx, spec, deps) == Err(e)
            case None => KeyedStep(memo, ctx, spec, deps).Ok?
  {
    DigestibleIff(memo, ctx.tenant, spec);
    if Digests(memo, ctx.tenant, Globs(memo, spec)).Some? { SelectsIff(memo, ctx.tenant, spec); }
  }

  // ---- A step of a plan ----

  /** `k` is the first step of that name. */
  ghost predicate FirstNamed(specs: seq<Spec>, name: Text, k: nat) {
    k < |specs| && specs[k].name == name && forall m | 0 <= m < k :: specs[m].name != name
  }

  /** The first step of that name is declared before place `i`. */
  ghost predicate Declared(plan: Plan, i: nat, need: Text) { exists k: nat :: k < i && FirstNamed(plan.specs, need, k) }

  /** And it has a key. */
  ghost predicate Served(h: Hash, plan: Plan, i: nat, need: Text)
    requires i < |plan.specs|
  {
    exists k: nat :: k < i && FirstNamed(plan.specs, need, k) && KeyAt(h, plan, k).Ok?
  }

  lemma PositionIs(specs: seq<Spec>, name: Text, k: nat)
    requires FirstNamed(specs, name, k)
    ensures Position(specs, name) == Some(k)
  {
  }

  /** What one need is answered with. */
  ghost function NeedRefusal(h: Hash, plan: Plan, i: nat, need: Text): Option<NotCacheable>
    requires i < |plan.specs|
  {
    if !Declared(plan, i, need) then Some(UndeclaredDependency(need))
    else if !Served(h, plan, i, need) then Some(DependencyNotCacheable(need))
    else None
  }

  lemma NeedDecides(h: Hash, plan: Plan, i: nat, need: Text)
    requires i < |plan.specs|
    ensures var p, keys := Position(plan.specs, need), PlanKeys(h, plan, i);
      NeedRefusal(h, plan, i, need) ==
        if p.None? || p.value >= i then Some(UndeclaredDependency(need))
        else if keys[p.value].Err? then Some(DependencyNotCacheable(need)) else None
  {
    var p := Position(plan.specs, need);
    if k: nat :| k < i && FirstNamed(plan.specs, need, k) { PositionIs(plan.specs, need, k); }
    if p.Some? && p.value < i {
      assert FirstNamed(plan.specs, need, p.value);
      KeyAtIs(h, plan, p.value, i);
      forall k: nat | k < i && FirstNamed(plan.specs, need, k) ensures k == p.value { PositionIs(plan.specs, need, k); }
    }
  }

  lemma {:induction false} ResolveIff(h: Hash, plan: Plan, i: nat, needs: seq<Text>)
    requires i < |plan.specs|
    ensures Resolve(plan.specs, PlanKeys(h, plan, i), needs).Ok? <==>
            forall m | 0 <= m < |needs| :: NeedRefusal(h, plan, i, needs[m]).None?
  {
    if needs != [] {
      NeedDecides(h, plan, i, needs[0]);
      ResolveIff(h, plan, i, needs[1..]);
      assert forall m | 0 < m < |needs| :: needs[m] == needs[1..][m - 1];
    }
  }

  lemma {:induction false} FirstRefusalTells(h: Hash, plan: Plan, i: nat, needs: seq<Text>, b: nat)
    requires i < |plan.specs| && b < |needs| && NeedRefusal(h, plan, i, needs[b]).Some?
    requires forall m | 0 <= m < b :: NeedRefusal(h, plan, i, needs[m]).None?
    ensures Resolve(plan.specs, PlanKeys(h, plan, i), needs) == Err(NeedRefusal(h, plan, i, needs[b]).value)
  {
    NeedDecides(h, plan, i, needs[0]);
    if b > 0 {
      forall m | 0 <= m < b - 1 ensures NeedRefusal(h, plan, i, needs[1..][m]).None? {
        assert needs[1..][m] == needs[m + 1];
      }
      FirstRefusalTells(h, plan, i, needs[1..], b - 1);
    }
  }

  /** A step of a plan has a key exactly when every step it needs is declared before it and keyed, and its own
      inputs key it. */
  lemma HasKeyIff(h: Hash, plan: Plan, i: nat)
    requires i < |plan.specs|
    ensures KeyAt(h, plan, i).Ok? <==>
      && (forall m | 0 <= m < |plan.specs[i].needs| :: Served(h, plan, i, plan.specs[i].needs[m]))
      && Refusal(plan.memo, plan.ctx.tenant, plan.specs[i].inputs).None?
  {
    var spec, keys := plan.specs[i], PlanKeys(h, plan, i);
    ResolveIff(h, plan, i, spec.needs);
    forall m | 0 <= m < |spec.needs|
      ensures Served(h, plan, i, spec.needs[m]) <==> NeedRefusal(h, plan, i, spec.needs[m]).None?
    {
      if Served(h, plan, i, spec.needs[m]) { assert Declared(plan, i, spec.needs[m]); }
    }
    if Resolve(plan.specs, keys, spec.needs).Ok? {
      KeyedIff(plan.memo, plan.ctx, spec, KeysOf(keys, Resolve(plan.specs, keys, spec.needs).value));
    }
  }

  /** What the `b`th need is refused with, and past the last need the step's own inputs. */
  ghost function RefusalAt(h: Hash, plan: Plan, i: nat, b: nat): Option<NotCacheable>
    requires i < |plan.specs| && b <= |plan.specs[i].needs|
  {
    if b < |plan.specs[i].needs| then NeedRefusal(h, plan, i, plan.specs[i].needs[b])
    else Refusal(plan.memo, plan.ctx.tenant, plan.specs[i].inputs)
  }

  /** And otherwise it is told why: the first need that is undeclared or has no key, or else what is wrong with
      its own inputs. */
  lemma NoKeyBecause(h: Hash, plan: Plan, i: nat, b: nat)
    requires i < |plan.specs| && b <= |plan.specs[i].needs|
    requires RefusalAt(h, plan, i, b).Some? && forall m | 0 <= m < b :: RefusalAt(h, plan, i, m).None?
    ensures KeyAt(h, plan, i) == Err(RefusalAt(h, plan, i, b).value)
  {
    var spec, keys := plan.specs[i], PlanKeys(h, plan, i);
    forall m | 0 <= m < b ensures NeedRefusal(h, plan, i, spec.needs[m]).None? {
      assert RefusalAt(h, plan, i, m).None?;
    }
    if b < |spec.needs| {
      FirstRefusalTells(h, plan, i, spec.needs, b);
    } else {
      ResolveIff(h, plan, i, spec.needs);
      KeyedIff(plan.memo, plan.ctx, spec, KeysOf(keys, Resolve(plan.specs, keys, spec.needs).value));
    }
  }
}
