/**
 Exactly when what a list of mutations does, refusals aside, is the same in every
 order on a given store.  Mutations that claim nothing in common can still part ways
 where an ensured triple is borne only by facts that others forget by ID; it is
 enough to look at what the whole list forgets.
 */
module OrderFreedom {
  import opened Wrappers
  import opened WriteTypes
  import opened Ownership
  import opened Permutations
  import opened TripleStore

  /** Every order of these mutations, none of them refused, leads to the same store. */
  ghost predicate EffectsAgree(st: Store, ms: seq<Mutation>) {
    forall order | multiset(order) == multiset(ms) :: MutateAll(st, order) == MutateAll(st, ms)
  }

  predicate Forgets(m: Mutation) { m.RemoveFact? || m.Supersede? }

  /** The facts that are retracted or corrected by ID. */
  function ForgottenIds(ms: seq<Mutation>): set<string> {
    set m | m in ms && Forgets(m) :: m.id
  }

  function Forgetting(st: Store, ids: set<string>): Store { st.(active := st.active - ids) }

  predicate Bears(st: Store, id: string, s: Slot, o: Object) {
    id in st.active && Covers(ExactClaim(s, o), st.active[id])
  }

  /** If any of these facts bears the triple, some fact that is not one of them does, too. */
  predicate Spared(st: Store, ids: set<string>, s: Slot, o: Object) {
    (exists id | id in ids :: Bears(st, id, s, o)) ==> HasTriple(Forgetting(st, ids), s, o)
  }

  /** No ensured triple loses its last bearers to the facts forgotten by ID. */
  predicate Steady(st: Store, ms: seq<Mutation>) {
    forall e | e in ms && e.EnsureTriple? :: Spared(st, ForgottenIds(ms), e.slot, e.obj)
  }

  ghost predicate AllIndependent(ms: seq<Mutation>) {
    forall a, b | a in ms && b in ms && a != b :: Independent(a, b)
  }

  ghost predicate EnsuresOnce(ms: seq<Mutation>) {
    forall e | e in ms && e.EnsureTriple? :: multiset(ms)[e] == 1
  }

  // ------------------------------------------- bearers that nothing forgets

  lemma EffectKeepsBearers(st: Store, e: Effect, s: Slot, o: Object, ids: set<string>)
    requires EffectsIndependent(Ensure(s, o), e) && e != Ensure(s, o)
    requires e.Forget? ==> e.id in ids
    ensures HasTriple(Forgetting(Apply(st, e), ids), s, o) <==> HasTriple(Forgetting(st, ids), s, o)
  {
    var kept := Forgetting(st, ids);
    match e
    case Drop(c) =>
      assert Forgetting(Apply(st, e), ids) == Apply(kept, e);
      DropKeepsOtherTriples(kept, c, s, o);
    case Add(f) =>
    case Ensure(s', o') =>
    case Forget(id) =>
      assert Forgetting(Apply(st, e), ids) == kept;
    case SetDeadline(id, d) =>
      if id in ids {
        assert Forgetting(Apply(st, e), ids) == kept;
      } else {
        assert Forgetting(Apply(st, e), ids) == Apply(kept, e);
        DeadlineKeepsTriples(kept, id, d, s, o);
      }
  }

  lemma {:induction false} EffectsKeepBearers(st: Store, es: seq<Effect>, s: Slot, o: Object, ids: set<string>)
    requires forall e | e in es ::
               EffectsIndependent(Ensure(s, o), e) && e != Ensure(s, o) && (e.Forget? ==> e.id in ids)
    ensures HasTriple(Forgetting(ApplyAll(st, es), ids), s, o) <==> HasTriple(Forgetting(st, ids), s, o)
    decreases |es|
  {
    hide Apply, HasTriple, Forgetting, EffectsIndependent;
    if es != [] {
      EffectKeepsBearers(st, es[0], s, o, ids);
      assert forall e | e in es[1..] :: e in es;
      EffectsKeepBearers(Apply(st, es[0]), es[1..], s, o, ids);
    }
  }

  lemma MutationKeepsBearers(st: Store, m: Mutation, s: Slot, o: Object, ids: set<string>)
    requires Independent(EnsureTriple(s, o), m) && m != EnsureTriple(s, o)
    requires Forgets(m) ==> m.id in ids
    ensures HasTriple(Forgetting(Mutate(st, m), ids), s, o) <==> HasTriple(Forgetting(st, ids), s, o)
  {
    hide ApplyAll, HasTriple, Forgetting, EffectsIndependent;
    assert Ensure(s, o) in Effects(EnsureTriple(s, o));
    EffectsKeepBearers(st, Effects(m), s, o, ids);
  }

  lemma {:induction false} MutationsKeepBearers(st: Store, ms: seq<Mutation>, s: Slot, o: Object, ids: set<string>)
    requires forall m | m in ms :: Independent(EnsureTriple(s, o), m) && m != EnsureTriple(s, o)
    requires forall m | m in ms && Forgets(m) :: m.id in ids
    ensures HasTriple(Forgetting(MutateAll(st, ms), ids), s, o) <==> HasTriple(Forgetting(st, ids), s, o)
    decreases |ms|
  {
    hide Mutate, HasTriple, Forgetting, Independent;
    if ms != [] {
      MutationKeepsBearers(st, ms[0], s, o, ids);
      MutationsKeepBearers(Mutate(st, ms[0]), ms[1..], s, o, ids);
    }
  }

  // ------------------------------------------------ ensures that do nothing

  /** The mutation, unless it ensures a triple that a fact nothing forgets bears. */
  function Busy(st: Store, ids: set<string>): Mutation -> Option<Mutation> {
    (m: Mutation) => if m.EnsureTriple? && HasTriple(Forgetting(st, ids), m.slot, m.obj) then None else Some(m)
  }

  lemma IdleEnsure(st: Store, ids: set<string>, s: Slot, o: Object)
    requires HasTriple(Forgetting(st, ids), s, o)
    ensures Mutate(st, EnsureTriple(s, o)) == st
  {
    OneEffect(st, EnsureTriple(s, o), Ensure(s, o));
  }

  ghost predicate StillIdle(st: Store, start: Store, ids: set<string>, ms: seq<Mutation>) {
    forall m | m in ms && Busy(start, ids)(m).None? :: HasTriple(Forgetting(st, ids), m.slot, m.obj)
  }

  lemma {:induction false} IdleEnsuresVanish(start: Store, st: Store, ids: set<string>, ms: seq<Mutation>)
    requires AllIndependent(ms) && StillIdle(st, start, ids, ms)
    requires forall m | m in ms && Forgets(m) :: m.id in ids
    ensures MutateAll(st, ms) == MutateAll(st, FilterMap(Busy(start, ids), ms))
    decreases |ms|
  {
    hide Mutate, HasTriple, Forgetting, Independent;
    if ms != [] {
      var m, rest := ms[0], ms[1..];
      if Busy(start, ids)(m).None? {
        IdleEnsure(st, ids, m.slot, m.obj);
        IdleEnsuresVanish(start, st, ids, rest);
        assert [] + FilterMap(Busy(start, ids), rest) == FilterMap(Busy(start, ids), rest);
      } else {
        forall e | e in rest && Busy(start, ids)(e).None?
          ensures HasTriple(Forgetting(Mutate(st, m), ids), e.slot, e.obj)
        {
          assert e in ms && m in ms && e == EnsureTriple(e.slot, e.obj);
          MutationKeepsBearers(st, m, e.slot, e.obj, ids);
        }
        IdleEnsuresVanish(start, Mutate(st, m), ids, rest);
        var kept := FilterMap(Busy(start, ids), rest);
        assert FilterMap(Busy(start, ids), ms) == [m] + kept;
        assert ([m] + kept)[1..] == kept;
      }
    }
  }

  lemma {:induction false} KeptAreBusy(f: Mutation -> Option<Mutation>, ms: seq<Mutation>)
    requires forall m :: f(m).Some? ==> f(m).value == m
    ensures forall m | m in FilterMap(f, ms) :: m in ms && f(m).Some?
  {
    if ms != [] {
      KeptAreBusy(f, ms[1..]);
    }
  }

  lemma BusyMutationsAreApart(st: Store, ms: seq<Mutation>)
    requires AllIndependent(ms) && Steady(st, ms)
    ensures AllApart(st, FilterMap(Busy(st, ForgottenIds(ms)), ms))
  {
    hide FilterMap, Independent, HasTriple;
    var ids := ForgottenIds(ms);
    var busy := FilterMap(Busy(st, ids), ms);
    KeptAreBusy(Busy(st, ids), ms);
    forall a, b | a in busy && b in busy && a != b ensures Independent(a, b) && MutationsClear(st, a, b) {
      ClearWhenSpared(st, ms, a, b);
      ClearWhenSpared(st, ms, b, a);
    }
  }

  lemma ClearWhenSpared(st: Store, ms: seq<Mutation>, a: Mutation, b: Mutation)
    requires Steady(st, ms) && a in ms && b in ms && Busy(st, ForgottenIds(ms))(b).Some?
    ensures forall e, f | e in Effects(a) && f in Effects(b) :: Clear(st, e, f)
  {
    hide HasTriple;
    if b.EnsureTriple? && Forgets(a) {
      assert Spared(st, ForgottenIds(ms), b.slot, b.obj);
      assert a.id in ForgottenIds(ms);
    }
  }

  lemma SteadyEffectsAgree(st: Store, ms: seq<Mutation>, order: seq<Mutation>)
    requires AllIndependent(ms) && Steady(st, ms) && multiset(order) == multiset(ms)
    ensures MutateAll(st, order) == MutateAll(st, ms)
  {
    hide FilterMap, MutateAll, Independent, Spared, AllApart, HasTriple;
    SameElements(order, ms);
    var ids := ForgottenIds(ms);
    var busy := Busy(st, ids);
    IdleEnsuresVanish(st, st, ids, ms);
    IdleEnsuresVanish(st, st, ids, order);
    BusyMutationsAreApart(st, ms);
    FilterMapPermutes(busy, ms, order);
    OrderIsImmaterial(st, FilterMap(busy, ms), FilterMap(busy, order));
  }

  // ------------------------------------------------- ensuring first or last

  lemma {:induction false} MutateAllConcat(st: Store, ms: seq<Mutation>, ns: seq<Mutation>)
    ensures MutateAll(st, ms + ns) == MutateAll(MutateAll(st, ms), ns)
    decreases |ms|
  {
    hide Mutate;
    if ms == [] {
      assert ms + ns == ns;
    } else {
      assert (ms + ns)[1..] == ms[1..] + ns;
      MutateAllConcat(Mutate(st, ms[0]), ms[1..], ns);
    }
  }

  lemma MutateAllOne(st: Store, m: Mutation)
    ensures MutateAll(st, [m]) == Mutate(st, m)
  {
    assert [m][1..] == [];
    assert MutateAll(Mutate(st, m), []) == Mutate(st, m);
  }

  lemma MutationForgets(st: Store, m: Mutation)
    ensures Mutate(st, m).active.Keys <= st.active.Keys
    ensures Forgets(m) ==> m.id !in Mutate(st, m).active
  {
    if |Effects(m)| == 1 {
      OneEffect(st, m, Effects(m)[0]);
    } else {
      TwoEffects(st, m, Effects(m)[0], Effects(m)[1]);
    }
  }

  lemma {:induction false} AllAreForgotten(st: Store, ms: seq<Mutation>)
    ensures MutateAll(st, ms).active.Keys <= st.active.Keys
    ensures forall id | id in ForgottenIds(ms) :: id !in MutateAll(st, ms).active
    decreases |ms|
  {
    hide Mutate;
    if ms != [] {
      MutationForgets(st, ms[0]);
      AllAreForgotten(Mutate(st, ms[0]), ms[1..]);
      assert forall m | m in ms :: m == ms[0] || m in ms[1..];
    }
  }

  lemma OnlyOccurrence(ms: seq<Mutation>, i: nat)
    requires i < |ms| && multiset(ms)[ms[i]] == 1
    ensures ms[i] !in Without(ms, i) && multiset([ms[i]] + Without(ms, i)) == multiset(ms)
    ensures multiset(Without(ms, i) + [ms[i]]) == multiset(ms)
    ensures forall m :: m in ms <==> m == ms[i] || m in Without(ms, i)
  {
    WithoutSplits(ms, i);
    var rest := Without(ms, i);
    assert multiset(rest)[ms[i]] == 0;
    assert ms == ms[..i] + [ms[i]] + ms[i + 1..];
  }

  /** An ensured triple whose last bearers are forgotten by ID is added again if it is ensured last, and only then. */
  lemma UnsparedEnsureShowsTheOrder(st: Store, ms: seq<Mutation>, i: nat)
    requires AllIndependent(ms) && i < |ms| && ms[i].EnsureTriple? && multiset(ms)[ms[i]] == 1
    requires !Spared(st, ForgottenIds(ms), ms[i].slot, ms[i].obj)
    ensures MutateAll(st, [ms[i]] + Without(ms, i)) != MutateAll(st, Without(ms, i) + [ms[i]])
  {
    var e, rest, ids := ms[i], Without(ms, i), ForgottenIds(ms);
    var s, o := e.slot, e.obj;
    OnlyOccurrence(ms, i);
    assert e == EnsureTriple(s, o);
    assert ForgottenIds(rest) == ids;
    assert HasTriple(st, s, o);
    EnsuredBefore(st, s, o);
    var last := MutateAll(st, rest);
    MutateAllConcat(st, [e], rest);
    MutateAllOne(st, e);
    MutateAllConcat(st, rest, [e]);
    MutateAllOne(last, e);
    AllAreForgotten(st, rest);
    assert Forgetting(last, ids) == last;
    MutationsKeepBearers(st, rest, s, o, ids);
    EnsuredAfter(last, s, o);
  }

  lemma EnsuredBefore(st: Store, s: Slot, o: Object)
    requires HasTriple(st, s, o)
    ensures Mutate(st, EnsureTriple(s, o)) == st
  {
    OneEffect(st, EnsureTriple(s, o), Ensure(s, o));
  }

  lemma EnsuredAfter(st: Store, s: Slot, o: Object)
    requires !HasTriple(st, s, o)
    ensures Mutate(st, EnsureTriple(s, o)) != st
  {
    OneEffect(st, EnsureTriple(s, o), Ensure(s, o));
    assert Plain(s, o) !in st.added && Plain(s, o) in Adding(st, Plain(s, o)).added;
  }

  /**
   Independent mutations, each ensuring a triple of its own, do the same in every
   order exactly when no ensured triple loses its last bearers to facts forgotten
   by ID.
   */
  lemma EffectsAgreeExactlyWhenSteady(st: Store, ms: seq<Mutation>)
    requires AllIndependent(ms) && EnsuresOnce(ms)
    ensures EffectsAgree(st, ms) <==> Steady(st, ms)
  {
    hide Spared, MutateAll, Independent;
    if Steady(st, ms) {
      forall order | multiset(order) == multiset(ms) ensures MutateAll(st, order) == MutateAll(st, ms) {
        SteadyEffectsAgree(st, ms, order);
      }
    } else {
      var e :| e in ms && e.EnsureTriple? && !Spared(st, ForgottenIds(ms), e.slot, e.obj);
      var i :| 0 <= i < |ms| && ms[i] == e;
      OnlyOccurrence(ms, i);
      UnsparedEnsureShowsTheOrder(st, ms, i);
    }
  }
}
