/** Mutations of facts that are not active are refused: what that makes of the order of a request. */
module Refusals {
  import opened Wrappers
  import opened Ownership
  import opened Permutations
  import opened TripleStore
  import opened OrderFreedom

  /** Every order of these mutations leads to the same store, or every order is refused. */
  ghost predicate OrderFree(st: Store, ms: seq<Mutation>) {
    forall order | multiset(order) == multiset(ms) :: PerformAll(st, order) == PerformAll(st, ms)
  }

  /** No fact is named by ID twice. */
  ghost predicate NamesOnce(ms: seq<Mutation>) { NoRepeats(FilterMap(TargetOf, ms)) }

  /** The mutation removes the fact, for the slot or triple it is. */
  predicate Drops(m: Mutation, f: Fact) {
    match m
    case ReplaceSlot(s, _) => Covers(SlotClaim(s), f)
    case RemoveSlot(s) => Covers(SlotClaim(s), f)
    case RemoveTriple(s, o) => Covers(ExactClaim(s, o), f)
    case _ => false
  }

  /** The fact is not active, or one of these mutations drops it. */
  predicate Lost(st: Store, ms: seq<Mutation>, id: string) {
    id in st.active ==> exists d | d in ms :: Drops(d, st.active[id])
  }

  // ------------------------------------------------- when a list is carried out

  lemma StaysActive(st: Store, m: Mutation, id: string)
    requires TargetOf(m) != Some(id)
    ensures id in Mutate(st, m).active <==> id in st.active && !Drops(m, st.active[id])
    ensures id in Mutate(st, m).active ==> Mutate(st, m).active[id] == st.active[id]
  {
    if |Effects(m)| == 1 {
      OneEffect(st, m, Effects(m)[0]);
    } else {
      TwoEffects(st, m, Effects(m)[0], Effects(m)[1]);
    }
  }

  lemma {:induction false} ActiveUnlessLost(st: Store, ms: seq<Mutation>, id: string)
    requires forall m | m in ms :: TargetOf(m) != Some(id)
    ensures id in MutateAll(st, ms).active <==> !Lost(st, ms, id)
    decreases |ms|
  {
    hide Mutate, Drops;
    if ms != [] {
      StaysActive(st, ms[0], id);
      ActiveUnlessLost(Mutate(st, ms[0]), ms[1..], id);
      assert forall d | d in ms :: d == ms[0] || d in ms[1..];
    }
  }

  lemma {:induction false} PerformAllConcat(st: Store, ms: seq<Mutation>, ns: seq<Mutation>)
    ensures var first := PerformAll(st, ms);
            PerformAll(st, ms + ns) == if first.None? then None else PerformAll(first.value, ns)
    decreases |ms|
  {
    hide Mutate, Applies;
    if ms == [] {
      assert ms + ns == ns;
    } else {
      assert (ms + ns)[1..] == ms[1..] + ns;
      PerformAllConcat(Mutate(st, ms[0]), ms[1..], ns);
    }
  }

  lemma PerformOne(st: Store, m: Mutation)
    ensures PerformAll(st, [m]) == if Applies(st, m) then Some(Mutate(st, m)) else None
  {
    assert [m][1..] == [];
    assert PerformAll(Mutate(st, m), []) == Some(Mutate(st, m));
  }

  /** What a list names by ID, it names at one place. */
  lemma NamedElsewhere(ms: seq<Mutation>, i: nat, m: Mutation)
    requires NamesOnce(ms) && i < |ms| && TargetOf(ms[i]).Some? && m in ms[..i]
    ensures TargetOf(m) != TargetOf(ms[i])
  {
    hide TargetOf;
    if TargetOf(m).Some? {
      var k :| 0 <= k < i && ms[k] == m;
      var j, l := ImagesOfTwoPlaces(TargetOf, ms, k, i);
    }
  }

  /** No fact is lost by the time it is named. */
  ghost predicate InTime(st: Store, ms: seq<Mutation>) {
    forall i | 0 <= i < |ms| && TargetOf(ms[i]).Some? :: !Lost(st, ms[..i], TargetOf(ms[i]).value)
  }

  lemma InTimeOneMore(st: Store, ms: seq<Mutation>)
    requires ms != []
    ensures var last := |ms| - 1;
            InTime(st, ms) <==>
              InTime(st, ms[..last]) && (TargetOf(ms[last]).Some? ==> !Lost(st, ms[..last], TargetOf(ms[last]).value))
  {
    hide Lost, TargetOf;
    var last := |ms| - 1;
    var front := ms[..last];
    assert forall i | 0 <= i <= last :: ms[..i] == front[..i];
  }

  /**
   A list of mutations is carried out exactly when each fact it names by ID is
   active at the start and is not dropped, for its slot or triple, by a mutation
   listed before the one that names it.
   */
  lemma {:induction false} CarriedOutExactlyWhen(st: Store, ms: seq<Mutation>)
    requires NamesOnce(ms)
    ensures PerformAll(st, ms) == if InTime(st, ms) then Some(MutateAll(st, ms)) else None
    decreases |ms|
  {
    if ms != [] {
      hide Mutate, TargetOf, Lost, PerformAll, MutateAll;
      var last := |ms| - 1;
      var front, m := ms[..last], ms[last];
      assert ms == front + [m];
      FilterMapConcat(TargetOf, front, [m]);
      assert forall i | 0 <= i < |FilterMap(TargetOf, front)| ::
          FilterMap(TargetOf, ms)[i] == FilterMap(TargetOf, front)[i];
      CarriedOutExactlyWhen(st, front);
      InTimeOneMore(st, ms);
      PerformAllConcat(st, front, [m]);
      MutateAllConcat(st, front, [m]);
      PerformOne(MutateAll(st, front), m);
      MutateAllOne(MutateAll(st, front), m);
      if TargetOf(m).Some? {
        forall d | d in front ensures TargetOf(d) != TargetOf(m) { NamedElsewhere(ms, last, d); }
        ActiveUnlessLost(st, front, TargetOf(m).value);
      }
    }
  }

  // ------------------------------------------------------- lists in any order

  /** Some named fact is not active. */
  predicate NamesInactive(st: Store, ms: seq<Mutation>) {
    exists m | m in ms :: !Applies(st, m)
  }

  /** Some active fact is named by one mutation and dropped by another. */
  predicate DropsNamed(st: Store, ms: seq<Mutation>) {
    exists m, d | m in ms && d in ms && TargetOf(m).Some? && TargetOf(m).value in st.active ::
      Drops(d, st.active[TargetOf(m).value])
  }

  /**
   The order does not matter: the list is refused anyway, or neither a named fact
   is dropped nor an ensured triple loses its last bearers.
   */
  predicate Settled(st: Store, ms: seq<Mutation>) {
    NamesInactive(st, ms) || (!DropsNamed(st, ms) && Steady(st, ms))
  }

  lemma InAnotherOrder(st: Store, ms: seq<Mutation>, order: seq<Mutation>)
    requires multiset(order) == multiset(ms) && NamesOnce(ms)
    ensures NamesOnce(order)
    ensures NamesInactive(st, order) <==> NamesInactive(st, ms)
    ensures DropsNamed(st, order) <==> DropsNamed(st, ms)
  {
    hide Applies, TargetOf, Drops;
    SameElements(order, ms);
    FilterMapPermutes(TargetOf, ms, order);
    NoRepeatsPermutes(FilterMap(TargetOf, ms), FilterMap(TargetOf, order));
  }

  lemma NamingInactiveIsRefused(st: Store, ms: seq<Mutation>)
    requires NamesOnce(ms) && NamesInactive(st, ms)
    ensures PerformAll(st, ms) == None
  {
    CarriedOutExactlyWhen(st, ms);
    var m :| m in ms && !Applies(st, m);
    var i :| 0 <= i < |ms| && ms[i] == m;
    assert Lost(st, ms[..i], TargetOf(ms[i]).value);
  }

  lemma UndroppedAreCarriedOut(st: Store, ms: seq<Mutation>)
    requires NamesOnce(ms) && !NamesInactive(st, ms) && !DropsNamed(st, ms)
    ensures PerformAll(st, ms) == Some(MutateAll(st, ms))
  {
    hide Drops, TargetOf;
    CarriedOutExactlyWhen(st, ms);
    forall i | 0 <= i < |ms| && TargetOf(ms[i]).Some? ensures !Lost(st, ms[..i], TargetOf(ms[i]).value) {
      assert ms[i] in ms && Applies(st, ms[i]);
      assert forall d | d in ms[..i] :: d in ms;
    }
  }

  /** A drop listed first takes the facts it drops from those that name them. */
  lemma DropFirstIsRefused(st: Store, before: seq<Mutation>, d: Mutation, after: seq<Mutation>, m: Mutation)
    requires NamesOnce(before + [d] + after) && m in after && TargetOf(m).Some?
    requires TargetOf(m).value in st.active ==> Drops(d, st.active[TargetOf(m).value])
    ensures PerformAll(st, before + [d] + after) == None
  {
    var ms := before + [d] + after;
    CarriedOutExactlyWhen(st, ms);
    var i :| 0 <= i < |after| && after[i] == m;
    var k := |before| + 1 + i;
    assert ms[k] == m && d in ms[..k] by { assert ms[..k][|before|] == d; }
    assert Lost(st, ms[..k], TargetOf(ms[k]).value);
  }

  /** Mutations that name facts drop none, so that they had better come first. */
  lemma NamedFirstAreCarriedOut(st: Store, ns: seq<Mutation>, us: seq<Mutation>)
    requires NamesOnce(ns + us) && !NamesInactive(st, ns)
    requires (forall m | m in ns :: TargetOf(m).Some?) && (forall m | m in us :: TargetOf(m).None?)
    ensures PerformAll(st, ns + us).Some?
  {
    var ms := ns + us;
    CarriedOutExactlyWhen(st, ms);
    assert forall i | |ns| <= i < |ms| :: ms[i] in us;
    forall i | 0 <= i < |ms| && TargetOf(ms[i]).Some? ensures !Lost(st, ms[..i], TargetOf(ms[i]).value) {
      assert ms[i] == ns[i] && Applies(st, ns[i]);
      assert ms[..i] == ns[..i];
      forall d | d in ms[..i] ensures TargetOf(d).Some? { assert d in ns; }
    }
  }

  /** With the dropping mutation first the list is refused. */
  lemma DropFirst(st: Store, ms: seq<Mutation>) returns (order: seq<Mutation>)
    requires NamesOnce(ms) && DropsNamed(st, ms)
    ensures multiset(order) == multiset(ms) && PerformAll(st, order) == None
  {
    hide PerformAll, Drops, Covers;
    var m, d :| m in ms && d in ms && TargetOf(m).Some? && TargetOf(m).value in st.active
      && Drops(d, st.active[TargetOf(m).value]);
    NamingDropsNothing(m, d, st.active[TargetOf(m).value]);
    var k :| 0 <= k < |ms| && ms[k] == d;
    WithoutSplits(ms, k);
    order := [] + [d] + Without(ms, k);
    assert m in Without(ms, k) by { assert m in multiset(ms); }
    InAnotherOrder(st, ms, order);
    DropFirstIsRefused(st, [], d, Without(ms, k), m);
  }

  lemma NamingDropsNothing(m: Mutation, d: Mutation, f: Fact)
    requires TargetOf(m).Some? && Drops(d, f)
    ensures m != d
  {
  }

  predicate IsNaming(m: Mutation) { TargetOf(m).Some? }

  predicate IsNotNaming(m: Mutation) { TargetOf(m).None? }

  /** With the facts named first it is not. */
  lemma NamedFirst(st: Store, ms: seq<Mutation>) returns (order: seq<Mutation>)
    requires NamesOnce(ms) && !NamesInactive(st, ms)
    ensures multiset(order) == multiset(ms) && PerformAll(st, order).Some?
  {
    hide PerformAll, Applies, TargetOf;
    var named, unnamed := Filter(IsNaming, ms), Filter(IsNotNaming, ms);
    FilterSplits(IsNaming, IsNotNaming, ms);
    order := named + unnamed;
    InAnotherOrder(st, ms, order);
    assert forall m | m in named :: m in order;
    NamedFirstAreCarriedOut(st, named, unnamed);
  }

  lemma DroppingShowsTheOrder(st: Store, ms: seq<Mutation>)
    requires NamesOnce(ms) && !NamesInactive(st, ms) && DropsNamed(st, ms)
    ensures !OrderFree(st, ms)
  {
    hide PerformAll, NamesOnce, NamesInactive, DropsNamed;
    var refused := DropFirst(st, ms);
    var carriedOut := NamedFirst(st, ms);
  }

  /**
   The order of independent mutations that ensure no triple and name no fact twice
   is immaterial, refusals included, exactly when some named fact is not active at
   the start, so that every order is refused, or no named fact is dropped and no
   ensured triple loses its last bearers to facts forgotten by ID.
   */
  lemma OrderFreeExactlyWhenSettled(st: Store, ms: seq<Mutation>)
    requires AllIndependent(ms) && EnsuresOnce(ms) && NamesOnce(ms)
    ensures OrderFree(st, ms) <==> Settled(st, ms)
  {
    hide NamesOnce, DropsNamed, Steady, AllIndependent, EnsuresOnce, Applies, PerformAll, MutateAll;
    if !NamesInactive(st, ms) && DropsNamed(st, ms) {
      DroppingShowsTheOrder(st, ms);
    } else {
      EffectsAgreeExactlyWhenSteady(st, ms);
      forall order | multiset(order) == multiset(ms)
        ensures PerformAll(st, order) == if NamesInactive(st, ms) then None else Some(MutateAll(st, order))
      {
        InAnotherOrder(st, ms, order);
        if NamesInactive(st, ms) {
          NamingInactiveIsRefused(st, order);
        } else {
          UndroppedAreCarriedOut(st, order);
        }
      }
    }
  }
}
