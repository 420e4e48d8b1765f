/**
 What the mutations of one request do to the facts, and which of them commute.  A
 request can name only facts that are active before it, so the store keeps these
 by ID and only counts what the request has added; a mutation that names a fact
 which is not active refuses the request.
 */
module TripleStore {
  import opened Wrappers
  import opened WriteTypes
  import opened Ownership
  import opened Permutations

  datatype Fact = Fact(slot: Slot, obj: Object, tense: string, rawText: string, expiration: Deadline)

  type pos = n: int | n > 0 witness 1

  // Facts a request can name by ID, and how many of each it has added so far.
  datatype Store = Store(active: map<string, Fact>, added: map<Fact, pos>)

  const EMPTY := Store(map[], map[])

  function Count(st: Store, f: Fact): nat { if f in st.added then st.added[f] else 0 }

  predicate Covers(claim: Claim, f: Fact) {
    claim.slot == f.slot && (claim.SlotClaim? || claim.obj == f.obj)
  }

  predicate HasTriple(st: Store, slot: Slot, obj: Object) {
    || (exists id | id in st.active :: Covers(ExactClaim(slot, obj), st.active[id]))
    || (exists f | f in st.added :: Covers(ExactClaim(slot, obj), f))
  }

  function Plain(slot: Slot, obj: Object): Fact { Fact(slot, obj, "", "", NoDeadline) }

  // The elementary effects mutations are made of.
  datatype Effect =
    | Drop(claim: Claim)
    | Add(fact: Fact)
    | Ensure(slot: Slot, obj: Object)
    | Forget(id: string)
    | SetDeadline(id: string, deadline: Deadline)

  function Adding(st: Store, f: Fact): Store {
    st.(added := st.added[f := Count(st, f) + 1])
  }

  function Apply(st: Store, e: Effect): Store {
    match e
    case Drop(c) =>
      Store(map id | id in st.active && !Covers(c, st.active[id]) :: st.active[id],
            map f | f in st.added && !Covers(c, f) :: st.added[f])
    case Add(f) => Adding(st, f)
    case Ensure(slot, obj) => if HasTriple(st, slot, obj) then st else Adding(st, Plain(slot, obj))
    case Forget(id) => st.(active := map i | i in st.active && i != id :: st.active[i])
    case SetDeadline(id, d) =>
      if id in st.active then st.(active := st.active[id := st.active[id].(expiration := d)]) else st
  }

  function ApplyAll(st: Store, es: seq<Effect>): Store
    decreases |es|
  {
    if es == [] then st else ApplyAll(Apply(st, es[0]), es[1..])
  }

  // -------------------------------------------------------------- mutations

  datatype Mutation =
    | AppendFact(fact: Fact)
    | EnsureTriple(slot: Slot, obj: Object)
    | ReplaceSlot(slot: Slot, obj: Object)
    | RemoveTriple(slot: Slot, obj: Object)
    | RemoveSlot(slot: Slot)
    | RemoveFact(id: string)
    | Supersede(id: string, fact: Fact)
    | ChangeDeadline(id: string, deadline: Deadline)

  function Effects(m: Mutation): seq<Effect> {
    match m
    case AppendFact(f) => [Add(f)]
    case EnsureTriple(s, o) => [Ensure(s, o)]
    case ReplaceSlot(s, o) => [Drop(SlotClaim(s)), Add(Plain(s, o))]
    case RemoveTriple(s, o) => [Drop(ExactClaim(s, o))]
    case RemoveSlot(s) => [Drop(SlotClaim(s))]
    case RemoveFact(id) => [Forget(id)]
    case Supersede(id, f) => [Forget(id), Add(f)]
    case ChangeDeadline(id, d) => [SetDeadline(id, d)]
  }

  /** What a mutation does that is not refused. */
  function Mutate(st: Store, m: Mutation): Store { ApplyAll(st, Effects(m)) }

  /** The fact a mutation names by ID. */
  function TargetOf(m: Mutation): Option<string> {
    match m
    case RemoveFact(id) => Some(id)
    case Supersede(id, _) => Some(id)
    case ChangeDeadline(id, _) => Some(id)
    case _ => None
  }

  /** A fact named by ID has to be active. */
  predicate Applies(st: Store, m: Mutation) {
    TargetOf(m).Some? ==> TargetOf(m).value in st.active
  }

  lemma OneEffect(st: Store, m: Mutation, e: Effect)
    requires Effects(m) == [e]
    ensures Mutate(st, m) == Apply(st, e)
  {
    assert Effects(m)[1..] == [];
    assert ApplyAll(Apply(st, e), []) == Apply(st, e);
  }

  lemma TwoEffects(st: Store, m: Mutation, e: Effect, f: Effect)
    requires Effects(m) == [e, f]
    ensures Mutate(st, m) == Apply(Apply(st, e), f)
  {
    assert Effects(m)[1..] == [f] && [f][1..] == [];
    assert ApplyAll(Apply(st, e), [f]) == ApplyAll(Apply(Apply(st, e), f), []);
  }

  /** Mutations one after the other, none of them refused. */
  function MutateAll(st: Store, ms: seq<Mutation>): Store
    decreases |ms|
  {
    if ms == [] then st else MutateAll(Mutate(st, ms[0]), ms[1..])
  }

  /** Mutations one after the other; the whole request is refused with the first that does not apply. */
  function PerformAll(st: Store, ms: seq<Mutation>): Option<Store>
    decreases |ms|
  {
    if ms == [] then Some(st)
    else if Applies(st, ms[0]) then PerformAll(Mutate(st, ms[0]), ms[1..])
    else None
  }

  // ----------------------------------------------------------- independence

  /** Two effects commute, provided no forgotten fact is one of the ensured. */
  predicate EffectsIndependent(a: Effect, b: Effect) {
    match (a, b)
    case (Add(f), Drop(c)) => !Covers(c, f)
    case (Drop(c), Add(f)) => !Covers(c, f)
    case (Ensure(s, o), Drop(c)) => !Covers(c, Plain(s, o))
    case (Drop(c), Ensure(s, o)) => !Covers(c, Plain(s, o))
    case (Ensure(s, o), Add(f)) => !Covers(ExactClaim(s, o), f)
    case (Add(f), Ensure(s, o)) => !Covers(ExactClaim(s, o), f)
    case (SetDeadline(i, _), SetDeadline(j, _)) => i != j
    case _ => true
  }

  /** No fact the effect forgets is an active bearer of the triple the other ensures. */
  predicate Clear(st: Store, a: Effect, b: Effect) {
    a.Forget? && b.Ensure? && a.id in st.active ==> !Covers(ExactClaim(b.slot, b.obj), st.active[a.id])
  }

  lemma DropsCommute(st: Store, c: Claim, d: Claim)
    ensures Apply(Apply(st, Drop(c)), Drop(d)) == Apply(Apply(st, Drop(d)), Drop(c))
  {
  }

  lemma AddsCommute(st: Store, f: Fact, g: Fact)
    ensures Apply(Apply(st, Add(f)), Add(g)) == Apply(Apply(st, Add(g)), Add(f))
  {
  }

  lemma DropAndAddCommute(st: Store, c: Claim, f: Fact)
    requires !Covers(c, f)
    ensures Apply(Apply(st, Drop(c)), Add(f)) == Apply(Apply(st, Add(f)), Drop(c))
  {
    var x, y := Apply(Apply(st, Drop(c)), Add(f)), Apply(Apply(st, Add(f)), Drop(c));
    assert x.added == y.added;
  }

  lemma DropKeepsOtherTriples(st: Store, c: Claim, s: Slot, o: Object)
    requires !Covers(c, Plain(s, o))
    ensures HasTriple(Apply(st, Drop(c)), s, o) <==> HasTriple(st, s, o)
  {
    var st' := Apply(st, Drop(c));
    forall id | id in st.active && Covers(ExactClaim(s, o), st.active[id]) ensures id in st'.active {}
    forall f | f in st.added && Covers(ExactClaim(s, o), f) ensures f in st'.added {}
  }

  lemma EnsureCommutes(st: Store, s: Slot, o: Object, e: Effect)
    requires EffectsIndependent(Ensure(s, o), e) && Clear(st, e, Ensure(s, o))
    ensures Apply(Apply(st, Ensure(s, o)), e) == Apply(Apply(st, e), Ensure(s, o))
  {
    var plain := Plain(s, o);
    match e
    case Drop(c) =>
      DropKeepsOtherTriples(st, c, s, o);
      DropAndAddCommute(st, c, plain);
    case Add(f) =>
      AddsCommute(st, f, plain);
    case Ensure(s', o') =>
      AddsCommute(st, plain, Plain(s', o'));
    case Forget(id) =>
      ForgetKeepsOtherTriples(st, id, s, o);
    case SetDeadline(id, d) =>
      DeadlineKeepsTriples(st, id, d, s, o);
  }

  lemma ForgetKeepsOtherTriples(st: Store, id: string, s: Slot, o: Object)
    requires id in st.active ==> !Covers(ExactClaim(s, o), st.active[id])
    ensures HasTriple(Apply(st, Forget(id)), s, o) <==> HasTriple(st, s, o)
  {
    var st' := Apply(st, Forget(id));
    forall i | i in st.active && Covers(ExactClaim(s, o), st.active[i]) ensures i in st'.active {}
  }

  lemma DeadlineKeepsTriples(st: Store, id: string, d: Deadline, s: Slot, o: Object)
    ensures HasTriple(Apply(st, SetDeadline(id, d)), s, o) <==> HasTriple(st, s, o)
  {
    var st' := Apply(st, SetDeadline(id, d));
    forall i | i in st.active
      ensures i in st'.active && (Covers(ExactClaim(s, o), st.active[i]) <==> Covers(ExactClaim(s, o), st'.active[i]))
    {}
  }

  lemma ForgetCommutes(st: Store, id: string, e: Effect)
    requires !e.Ensure?
    ensures Apply(Apply(st, Forget(id)), e) == Apply(Apply(st, e), Forget(id))
  {
    var x, y := Apply(Apply(st, Forget(id)), e), Apply(Apply(st, e), Forget(id));
    assert x.active == y.active;
  }

  lemma DeadlineCommutes(st: Store, id: string, d: Deadline, e: Effect)
    requires e.Drop? || e.Add? || (e.SetDeadline? && e.id != id)
    ensures Apply(Apply(st, SetDeadline(id, d)), e) == Apply(Apply(st, e), SetDeadline(id, d))
  {
    var x, y := Apply(Apply(st, SetDeadline(id, d)), e), Apply(Apply(st, e), SetDeadline(id, d));
    assert x.active == y.active;
  }

  lemma EffectsCommute(st: Store, a: Effect, b: Effect)
    requires EffectsIndependent(a, b) && Clear(st, a, b) && Clear(st, b, a)
    ensures Apply(Apply(st, a), b) == Apply(Apply(st, b), a)
  {
    match (a, b)
    case (Ensure(s, o), _) => EnsureCommutes(st, s, o, b);
    case (_, Ensure(s, o)) => EnsureCommutes(st, s, o, a);
    case (Forget(id), _) => ForgetCommutes(st, id, b);
    case (_, Forget(id)) => ForgetCommutes(st, id, a);
    case (SetDeadline(id, d), _) => DeadlineCommutes(st, id, d, b);
    case (_, SetDeadline(id, d)) => DeadlineCommutes(st, id, d, a);
    case (Drop(c), Drop(d)) => DropsCommute(st, c, d);
    case (Add(f), Add(g)) => AddsCommute(st, f, g);
    case (Drop(c), Add(f)) => DropAndAddCommute(st, c, f);
    case (Add(f), Drop(c)) => DropAndAddCommute(st, c, f);
  }

  /** The clearance of a store survives every effect: active facts never appear, and never change their triple. */
  lemma ClearanceLasts(st: Store, e: Effect, a: Effect, b: Effect)
    requires Clear(st, a, b)
    ensures Clear(Apply(st, e), a, b)
  {
  }

  // ------------------------------------------------- mutations in any order

  /** No two elementary effects of the two mutations get in each other's way. */
  predicate Independent(a: Mutation, b: Mutation) {
    forall e, f | e in Effects(a) && f in Effects(b) :: EffectsIndependent(e, f)
  }

  predicate MutationsClear(st: Store, a: Mutation, b: Mutation) {
    forall e, f | e in Effects(a) && f in Effects(b) :: Clear(st, e, f) && Clear(st, f, e)
  }

  lemma {:induction false} EffectCommutesWithAll(st: Store, e: Effect, fs: seq<Effect>)
    requires forall f | f in fs :: EffectsIndependent(e, f) && Clear(st, e, f) && Clear(st, f, e)
    ensures ApplyAll(Apply(st, e), fs) == Apply(ApplyAll(st, fs), e)
    decreases |fs|
  {
    hide Apply, EffectsIndependent, Clear;
    if fs != [] {
      EffectsCommute(st, e, fs[0]);
      forall f | f in fs[1..] ensures Clear(Apply(st, fs[0]), e, f) && Clear(Apply(st, fs[0]), f, e) {
        ClearanceLasts(st, fs[0], e, f);
        ClearanceLasts(st, fs[0], f, e);
      }
      EffectCommutesWithAll(Apply(st, fs[0]), e, fs[1..]);
    }
  }

  lemma {:induction false} EffectListsCommute(st: Store, es: seq<Effect>, fs: seq<Effect>)
    requires forall e, f | e in es && f in fs :: EffectsIndependent(e, f) && Clear(st, e, f) && Clear(st, f, e)
    ensures ApplyAll(ApplyAll(st, es), fs) == ApplyAll(ApplyAll(st, fs), es)
    decreases |es|
  {
    hide Apply, EffectsIndependent, Clear;
    if es != [] {
      EffectCommutesWithAll(st, es[0], fs);
      forall e, f | e in es[1..] && f in fs
        ensures Clear(Apply(st, es[0]), e, f) && Clear(Apply(st, es[0]), f, e)
      {
        ClearanceLasts(st, es[0], e, f);
        ClearanceLasts(st, es[0], f, e);
      }
      EffectListsCommute(Apply(st, es[0]), es[1..], fs);
    }
  }

  lemma {:induction false} EffectsKeepClearance(st: Store, es: seq<Effect>, a: Effect, b: Effect)
    requires Clear(st, a, b)
    ensures Clear(ApplyAll(st, es), a, b)
    decreases |es|
  {
    hide Apply, Clear;
    if es != [] {
      ClearanceLasts(st, es[0], a, b);
      EffectsKeepClearance(Apply(st, es[0]), es[1..], a, b);
    }
  }

  /** Every two different mutations of the list are independent, and clear of each other in this store. */
  ghost predicate AllApart(st: Store, ms: seq<Mutation>) {
    forall a, b | a in ms && b in ms && a != b :: Independent(a, b) && MutationsClear(st, a, b)
  }

  lemma ApartAfter(st: Store, m: Mutation, ms: seq<Mutation>)
    requires AllApart(st, ms)
    ensures AllApart(Mutate(st, m), ms)
  {
    hide Apply, Clear, ApplyAll, Effects, EffectsIndependent;
    forall a, b | a in ms && b in ms && a != b ensures Independent(a, b) && MutationsClear(Mutate(st, m), a, b) {
      assert MutationsClear(st, a, b);
      forall e, f | e in Effects(a) && f in Effects(b)
        ensures Clear(Mutate(st, m), e, f) && Clear(Mutate(st, m), f, e)
      {
        EffectsKeepClearance(st, Effects(m), e, f);
        EffectsKeepClearance(st, Effects(m), f, e);
      }
    }
  }

  lemma MutationsCommute(st: Store, a: Mutation, b: Mutation)
    requires a == b || (Independent(a, b) && MutationsClear(st, a, b))
    ensures Mutate(Mutate(st, a), b) == Mutate(Mutate(st, b), a)
  {
    hide Apply, Clear, EffectsIndependent, ApplyAll, Effects;
    if a != b {
      EffectListsCommute(st, Effects(a), Effects(b));
    }
  }

  /** A mutation can be brought forward past others. */
  lemma {:induction false} BringForward(st: Store, before: seq<Mutation>, m: Mutation, after: seq<Mutation>)
    requires AllApart(st, before + [m])
    ensures MutateAll(st, before + [m] + after) == MutateAll(Mutate(st, m), before + after)
    decreases |before|
  {
    hide Mutate, Independent, MutationsClear;
    if before == [] {
      assert before + [m] + after == [m] + after && before + after == after;
    } else {
      var b := before[0];
      assert b in before + [m] && m in before + [m];
      assert (before + [m] + after)[1..] == before[1..] + [m] + after;
      assert (before + after)[1..] == before[1..] + after;
      ApartAfter(st, b, before + [m]);
      assert forall x | x in before[1..] + [m] :: x in before + [m];
      BringForward(Mutate(st, b), before[1..], m, after);
      MutationsCommute(st, b, m);
    }
  }

  /** Mutations that are apart lead to the same store in every order. */
  lemma {:induction false} OrderIsImmaterial(st: Store, ms: seq<Mutation>, ns: seq<Mutation>)
    requires multiset(ms) == multiset(ns) && AllApart(st, ms)
    ensures MutateAll(st, ms) == MutateAll(st, ns)
    decreases |ms|
  {
    hide Mutate, Independent, MutationsClear;
    if ms == [] {
      assert |multiset(ns)| == 0;
      assert ns == [];
    } else {
      HeadMatches(ms, ns);
      var i := IndexOf(ns, ms[0]);
      SameElements(ms, ns);
      assert ns == ns[..i] + [ns[i]] + ns[i + 1..];
      assert forall x | x in ns[..i] + [ms[0]] :: x in ms;
      BringForward(st, ns[..i], ms[0], ns[i + 1..]);
      ApartAfter(st, ms[0], ms);
      OrderIsImmaterial(Mutate(st, ms[0]), ms[1..], Without(ns, i));
    }
  }
}
