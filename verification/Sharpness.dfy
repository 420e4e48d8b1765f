/**
 How sharp the ownership relation is: what pairs of mutations do on a store,
 refusals included.  Of the pairs that ownership refuses, all but a named handful
 fail to commute on some store; and an accepted list may depend on its order though
 each of its pairs commutes.
 */
module Sharpness {
  import opened Wrappers
  import opened WriteTypes
  import opened Ownership
  import opened Permutations
  import opened TripleStore
  import opened OrderFreedom
  import opened Refusals
  import opened OrderIndependence

  predicate CommuteOn(st: Store, a: Mutation, b: Mutation) {
    PerformAll(st, [a, b]) == PerformAll(st, [b, a])
  }

  lemma TwoOrders(st: Store, a: Mutation, b: Mutation)
    ensures OrderFree(st, [a, b]) <==> CommuteOn(st, a, b)
  {
    hide PerformAll;
    assert multiset([b, a]) == multiset([a, b]);
    if CommuteOn(st, a, b) {
      forall order | multiset(order) == multiset([a, b]) ensures PerformAll(st, order) == PerformAll(st, [a, b]) {
        OrdersOfTwo(order, a, b);
      }
    }
  }

  lemma InOrder(st: Store, a: Mutation, b: Mutation)
    ensures PerformAll(st, [a, b]) ==
            if Applies(st, a) && Applies(Mutate(st, a), b) then Some(Mutate(Mutate(st, a), b)) else None
  {
    hide Mutate, Applies;
    assert [a, b] == [a] + [b];
    PerformAllConcat(st, [a], [b]);
    PerformOne(st, a);
    if Applies(st, a) {
      PerformOne(Mutate(st, a), b);
    }
  }

  lemma OrdersOfTwo<T>(order: seq<T>, a: T, b: T)
    requires multiset(order) == multiset([a, b])
    ensures order == [a, b] || order == [b, a]
  {
    assert |order| == |multiset(order)| == 2;
    assert order == [order[0], order[1]];
    assert order[0] in multiset(order) && order[1] in multiset(order);
  }

  lemma NamesOfTwo(a: Mutation, b: Mutation)
    requires TargetOf(a).None? || TargetOf(a) != TargetOf(b)
    ensures NamesOnce([a, b])
  {
    assert [a, b] == [a] + [b];
    FilterMapConcat(TargetOf, [a], [b]);
    Singleton(TargetOf, a);
    Singleton(TargetOf, b);
  }

  lemma ConflictFreePair(e: Mutation, m: Mutation)
    requires e.EnsureTriple? && Forgets(m) && (m.Supersede? ==> !Covers(ExactClaim(e.slot, e.obj), m.fact))
    ensures Independent(e, m) && Independent(m, e)
  {
  }

  /**
   For two mutations: ensuring a triple and retracting or correcting a fact by ID
   commute unless that fact is the only one bearing the triple.
   */
  lemma EnsureAndForgetCommuteExactlyWhen(st: Store, s: Slot, o: Object, m: Mutation)
    requires Forgets(m) && (m.Supersede? ==> !Covers(ExactClaim(s, o), m.fact))
    ensures CommuteOn(st, EnsureTriple(s, o), m) <==>
              (Bears(st, m.id, s, o) ==> HasTriple(Forgetting(st, {m.id}), s, o))
  {
    hide HasTriple, PerformAll, Covers, FilterMap;
    var e := EnsureTriple(s, o);
    var ms := [e, m];
    TwoOrders(st, e, m);
    assert AllIndependent(ms) by { ConflictFreePair(e, m); }
    assert multiset(ms)[e] == 1;
    assert ForgottenIds(ms) == {m.id} by { assert m in ms; }
    NamesOfTwo(e, m);
    OrderFreeExactlyWhenSettled(st, ms);
    assert e in ms && m in ms;
  }

  /** A store in which two facts bear a triple. */
  function TwoBearers(s: Slot, o: Object): Store { Store(map["1" := Plain(s, o), "2" := Plain(s, o)], map[]) }

  lemma ForgettingBearers(s: Slot, o: Object)
    ensures var st := TwoBearers(s, o);
            && "1" in st.active && "2" in st.active && "1" != "2"
            && HasTriple(Forgetting(st, {"1"}), s, o) && HasTriple(Forgetting(st, {"2"}), s, o)
            && !Spared(st, {"1", "2"}, s, o)
  {
    var st := TwoBearers(s, o);
    assert "1" != "2";
    assert Bears(Forgetting(st, {"1"}), "2", s, o) && Bears(Forgetting(st, {"2"}), "1", s, o);
    assert Bears(st, "1", s, o) && Forgetting(st, {"1", "2"}) == EMPTY;
  }

  lemma EnsureAndTwoForgets(e: Mutation, a: string, b: string)
    requires e.EnsureTriple? && a != b
    ensures var ms := [e, RemoveFact(a), RemoveFact(b)];
            AllIndependent(ms) && EnsuresOnce(ms) && NamesOnce(ms) && ForgottenIds(ms) == {a, b}
  {
    var x, y := RemoveFact(a), RemoveFact(b);
    var ms := [e, x, y];
    assert NamesOnce(ms) by {
      assert ms == [e] + [x, y];
      FilterMapConcat(TargetOf, [e], [x, y]);
      Singleton(TargetOf, e);
      NamesOfTwo(x, y);
    }
    assert AllIndependent(ms) by {
      ConflictFreePair(e, x);
      ConflictFreePair(e, y);
    }
    hide FilterMap, NamesOnce, Independent;
    assert x in ms && y in ms;
  }

  lemma RetractionsCommute(st: Store, a: string, b: string)
    requires a != b && a in st.active && b in st.active
    ensures CommuteOn(st, RemoveFact(a), RemoveFact(b))
  {
    var ms := [RemoveFact(a), RemoveFact(b)];
    NamesOfTwo(ms[0], ms[1]);
    OrderFreeExactlyWhenSettled(st, ms);
    TwoOrders(st, ms[0], ms[1]);
  }

  /**
   Pairs do not tell about a whole request: here every two of three mutations
   commute, and the three do not.
   */
  lemma PairsAreNotEnough(s: Slot, o: Object)
    ensures var st, e, a, b := TwoBearers(s, o), EnsureTriple(s, o), RemoveFact("1"), RemoveFact("2");
            && CommuteOn(st, e, a) && CommuteOn(st, e, b) && CommuteOn(st, a, b)
            && !OrderFree(st, [e, a, b])
  {
    hide TwoBearers, Spared, HasTriple, Forgetting, OrderFree, AllIndependent, EnsuresOnce, NamesOnce, CommuteOn;
    var st, e, a, b := TwoBearers(s, o), EnsureTriple(s, o), RemoveFact("1"), RemoveFact("2");
    ForgettingBearers(s, o);
    EnsureAndForgetCommuteExactlyWhen(st, s, o, a);
    EnsureAndForgetCommuteExactlyWhen(st, s, o, b);
    RetractionsCommute(st, "1", "2");
    EnsureAndTwoForgets(e, "1", "2");
    assert e in [e, a, b];
    OrderFreeExactlyWhenSettled(st, [e, a, b]);
  }

  /** Pairs the relation refuses although they commute on every store. */
  predicate Harmless(a: Mutation, b: Mutation) {
    || a == b
    || (a.ReplaceSlot? && b.EnsureTriple? && a.obj == b.obj)
    || (a.EnsureTriple? && b.ReplaceSlot? && a.obj == b.obj)
    || (a.ReplaceSlot? && b.RemoveTriple? && a.obj != b.obj)
    || (a.RemoveTriple? && b.ReplaceSlot? && a.obj != b.obj)
    || (a.RemoveSlot? && b.RemoveTriple?)
    || (a.RemoveTriple? && b.RemoveSlot?)
  }

  predicate Interfere(a: Mutation, b: Mutation) {
    || (ClaimOf(a).Some? && ClaimOf(b).Some? && Conflict(ClaimOf(a).value, ClaimOf(b).value))
    || (ClaimOf(a).Some? && DestinationOf(b).Some? && Conflict(ClaimOf(a).value, DestinationOf(b).value))
    || (DestinationOf(a).Some? && ClaimOf(b).Some? && Conflict(ClaimOf(b).value, DestinationOf(a).value))
  }

  function Only(f: Fact): Store { Store(map[], map[f := 1]) }

  predicate Places(m: Mutation) { ClaimOf(m).Some? || DestinationOf(m).Some? }

  /** What a triple mutation makes of the empty store, and of a store holding one added fact. */
  lemma OnSmallStores(m: Mutation, g: Fact)
    requires Places(m)
    ensures Mutate(EMPTY, m) ==
            match m
            case AppendFact(f) => Only(f)
            case Supersede(_, f) => Only(f)
            case EnsureTriple(s, o) => Only(Plain(s, o))
            case ReplaceSlot(s, o) => Only(Plain(s, o))
            case _ => EMPTY
    ensures Mutate(Only(g), m) ==
            match m
            case AppendFact(f) => Adding(Only(g), f)
            case Supersede(_, f) => Adding(Only(g), f)
            case EnsureTriple(s, o) => if Covers(ExactClaim(s, o), g) then Only(g) else Adding(Only(g), Plain(s, o))
            case ReplaceSlot(s, o) => if g.slot == s then Only(Plain(s, o)) else Adding(Only(g), Plain(s, o))
            case RemoveTriple(s, o) => if Covers(ExactClaim(s, o), g) then EMPTY else Only(g)
            case RemoveSlot(s) => if g.slot == s then EMPTY else Only(g)
            case _ => Only(g)
  {
    var es := Effects(m);
    if m.ReplaceSlot? {
      TwoEffects(EMPTY, m, es[0], es[1]);
      TwoEffects(Only(g), m, es[0], es[1]);
      assert Apply(EMPTY, es[0]) == EMPTY;
      assert Apply(Only(g), es[0]) == if g.slot == m.slot then EMPTY else Only(g);
    } else if m.Supersede? {
      TwoEffects(EMPTY, m, es[0], es[1]);
      TwoEffects(Only(g), m, es[0], es[1]);
      assert Apply(EMPTY, es[0]) == EMPTY && Apply(Only(g), es[0]) == Only(g);
    } else {
      assert es == [es[0]];
      OneEffect(EMPTY, m, es[0]);
      OneEffect(Only(g), m, es[0]);
      assert !HasTriple(EMPTY, g.slot, g.obj);
    }
  }

  /** A fact that tells what the mutation did. */
  function Witness(m: Mutation): Fact
    requires Places(m)
  {
    match m
    case AppendFact(f) => f
    case Supersede(_, f) => f
    case EnsureTriple(s, o) => Plain(s, o)
    case ReplaceSlot(s, o) => Plain(s, o)
    case _ => Plain(m.slot, UnsetObject)
  }

  predicate AgreeOn(st: Store, a: Mutation, b: Mutation) {
    Mutate(Mutate(st, a), b) == Mutate(Mutate(st, b), a)
  }

  /** Two conflicting claims that are not harmless do two different things to the empty store. */
  lemma HarmfulClaims(a: Mutation, b: Mutation)
    requires ClaimOf(a).Some? && ClaimOf(b).Some? && Conflict(ClaimOf(a).value, ClaimOf(b).value) && !Harmless(a, b)
    ensures !AgreeOn(EMPTY, a, b)
  {
    var ga, gb := Witness(a), Witness(b);
    OnSmallStores(a, gb);
    OnSmallStores(b, ga);
    hide Mutate;
    var x, y := Mutate(Mutate(EMPTY, a), b), Mutate(Mutate(EMPTY, b), a);
    assert Count(x, ga) != Count(y, ga) || Count(x, gb) != Count(y, gb);
  }

  /** So do a claim and a destination inside it. */
  lemma HarmfulDestination(a: Mutation, b: Mutation)
    requires ClaimOf(a).Some? && DestinationOf(b).Some? && Conflict(ClaimOf(a).value, DestinationOf(b).value)
    ensures !AgreeOn(EMPTY, a, b)
  {
    var ga, gb := Witness(a), Witness(b);
    OnSmallStores(a, gb);
    OnSmallStores(b, ga);
    hide Mutate;
    var x, y := Mutate(Mutate(EMPTY, a), b), Mutate(Mutate(EMPTY, b), a);
    assert Count(x, ga) != Count(y, ga) || Count(x, gb) != Count(y, gb);
  }

  lemma HarmfulOnTheEmptyStore(a: Mutation, b: Mutation)
    requires Interfere(a, b) && !Harmless(a, b)
    ensures !AgreeOn(EMPTY, a, b)
  {
    hide Mutate, Conflict, Harmless;
    if ClaimOf(a).Some? && ClaimOf(b).Some? {
      HarmfulClaims(a, b);
    } else if ClaimOf(a).Some? {
      HarmfulDestination(a, b);
    } else {
      HarmfulDestination(b, a);
    }
  }

  /** A store in which only the fact that a correction names is active, out of everybody's way. */
  function RoomFor(m: Mutation): Store {
    if m.Supersede? then Store(map[m.id := Plain(Elsewhere(m.fact.slot), UnsetObject)], map[]) else EMPTY
  }

  function Elsewhere(slot: Slot): Slot { Slot(slot.subject + "-", slot.pred) }

  /** A fact in another slot is neither touched nor noticed. */
  lemma Unnoticed(id: string, f: Fact, c: Mutation)
    requires ClaimOf(c).Some? && ClaimOf(c).value.slot != f.slot
    ensures Mutate(Store(map[id := f], map[]), c) == Store(map[id := f], Mutate(EMPTY, c).added)
  {
    var st := Store(map[id := f], map[]);
    OnSmallStores(c, f);
    if c.ReplaceSlot? {
      TwoEffects(st, c, Effects(c)[0], Effects(c)[1]);
      assert Apply(st, Effects(c)[0]) == st;
    } else {
      OneEffect(st, c, Effects(c)[0]);
      assert c.EnsureTriple? ==> !HasTriple(st, c.slot, c.obj);
    }
  }

  lemma OnlyFactCorrected(st: Store, m: Mutation)
    requires m.Supersede? && st.active.Keys <= {m.id}
    ensures Mutate(st, m) == Adding(Store(map[], st.added), m.fact)
  {
    TwoEffects(st, m, Effects(m)[0], Effects(m)[1]);
  }

  lemma CorrectionWhereActive(c: Mutation, m: Mutation)
    requires m.Supersede? && ClaimOf(c).Some? && ClaimOf(c).value.slot == m.fact.slot
    ensures var st := RoomFor(m);
            && PerformAll(st, [c, m]) == Some(Mutate(Mutate(EMPTY, c), m))
            && PerformAll(st, [m, c]) == Some(Mutate(Mutate(EMPTY, m), c))
  {
    hide Mutate, PerformAll;
    var st := RoomFor(m);
    var slot := m.fact.slot;
    assert |Elsewhere(slot).subject| != |slot.subject|;
    Unnoticed(m.id, st.active[m.id], c);
    InOrder(st, c, m);
    InOrder(st, m, c);
    OnSmallStores(c, m.fact);
    OnlyFactCorrected(st, m);
    OnlyFactCorrected(EMPTY, m);
    OnlyFactCorrected(Mutate(st, c), m);
    OnlyFactCorrected(Mutate(EMPTY, c), m);
  }

  /** So it does to a store in which the facts it names are active. */
  lemma HarmfulWhereActive(a: Mutation, b: Mutation)
    requires Interfere(a, b) && !Harmless(a, b)
    ensures !CommuteOn(RoomFor(if a.Supersede? then a else b), a, b)
  {
    HarmfulOnTheEmptyStore(a, b);
    hide Mutate, PerformAll, Harmless;
    if a.Supersede? {
      CorrectionWhereActive(b, a);
    } else if b.Supersede? {
      CorrectionWhereActive(a, b);
    } else {
      InOrder(EMPTY, a, b);
      InOrder(EMPTY, b, a);
    }
  }

  /** Dropping a slot absorbs whatever was dropped from, or added to, it before. */
  lemma DropAbsorbs(st: Store, slot: Slot, o: Object, f: Fact)
    requires f.slot == slot
    ensures Apply(Apply(st, Drop(ExactClaim(slot, o))), Drop(SlotClaim(slot))) == Apply(st, Drop(SlotClaim(slot)))
    ensures Apply(Apply(st, Drop(SlotClaim(slot))), Drop(ExactClaim(slot, o))) == Apply(st, Drop(SlotClaim(slot)))
    ensures Apply(Adding(st, f), Drop(SlotClaim(slot))) == Apply(st, Drop(SlotClaim(slot)))
  {
  }

  lemma ReplaceAndEnsureCommute(st: Store, s: Slot, o: Object)
    ensures Mutate(Mutate(st, ReplaceSlot(s, o)), EnsureTriple(s, o))
         == Mutate(Mutate(st, EnsureTriple(s, o)), ReplaceSlot(s, o))
  {
    var drop, add, ensured := Drop(SlotClaim(s)), Add(Plain(s, o)), Apply(st, Ensure(s, o));
    TwoEffects(st, ReplaceSlot(s, o), drop, add);
    TwoEffects(ensured, ReplaceSlot(s, o), drop, add);
    OneEffect(st, EnsureTriple(s, o), Ensure(s, o));
    var replaced := Apply(Apply(st, drop), add);
    OneEffect(replaced, EnsureTriple(s, o), Ensure(s, o));
    DropAbsorbs(st, s, o, Plain(s, o));
  }

  lemma ReplaceAndRemoveOtherCommute(st: Store, s: Slot, o: Object, o': Object)
    requires o != o'
    ensures Mutate(Mutate(st, ReplaceSlot(s, o)), RemoveTriple(s, o'))
         == Mutate(Mutate(st, RemoveTriple(s, o')), ReplaceSlot(s, o))
  {
    var drop, add, remove := Drop(SlotClaim(s)), Add(Plain(s, o)), Drop(ExactClaim(s, o'));
    TwoEffects(st, ReplaceSlot(s, o), drop, add);
    TwoEffects(Apply(st, remove), ReplaceSlot(s, o), drop, add);
    OneEffect(st, RemoveTriple(s, o'), remove);
    OneEffect(Apply(Apply(st, drop), add), RemoveTriple(s, o'), remove);
    DropAndAddCommute(Apply(st, drop), ExactClaim(s, o'), Plain(s, o));
    DropAbsorbs(st, s, o', Plain(s, o));
  }

  lemma HarmlessPairsAgree(st: Store, a: Mutation, b: Mutation)
    requires Harmless(a, b)
    ensures AgreeOn(st, a, b)
  {
    hide Apply, Mutate, Conflict;
    if a != b {
      if a.slot != b.slot {
        assert !Conflict(ClaimOf(a).value, ClaimOf(b).value) by { DifferentSlots(ClaimOf(a).value, ClaimOf(b).value); }
        IndependentByClaims(a, b);
        MutationsCommute(st, a, b);
      } else {
        match (a, b)
        case (ReplaceSlot(s, o), EnsureTriple(_, _)) => ReplaceAndEnsureCommute(st, s, o);
        case (EnsureTriple(_, _), ReplaceSlot(s, o)) => ReplaceAndEnsureCommute(st, s, o);
        case (ReplaceSlot(s, o), RemoveTriple(_, o')) => ReplaceAndRemoveOtherCommute(st, s, o, o');
        case (RemoveTriple(_, o'), ReplaceSlot(s, o)) => ReplaceAndRemoveOtherCommute(st, s, o, o');
        case _ => RemovalsCommute(st, a, b);
      }
    }
  }

  lemma DifferentSlots(a: Claim, b: Claim)
    requires a.slot != b.slot
    ensures !Conflict(a, b)
  {
  }

  lemma RemovalsCommute(st: Store, a: Mutation, b: Mutation)
    requires (a.RemoveSlot? || a.RemoveTriple?) && (b.RemoveSlot? || b.RemoveTriple?)
    ensures Mutate(Mutate(st, a), b) == Mutate(Mutate(st, b), a)
  {
    var c, d := ClaimOf(a).value, ClaimOf(b).value;
    OneEffect(st, a, Drop(c));
    OneEffect(st, b, Drop(d));
    OneEffect(Apply(st, Drop(c)), b, Drop(d));
    OneEffect(Apply(st, Drop(d)), a, Drop(c));
    DropsCommute(st, c, d);
  }

  lemma HarmlessPairsCommute(st: Store, a: Mutation, b: Mutation)
    requires Harmless(a, b)
    ensures CommuteOn(st, a, b)
  {
    hide Mutate, PerformAll;
    if a != b {
      HarmlessPairsAgree(st, a, b);
      InOrder(st, a, b);
      InOrder(st, b, a);
    }
  }

  /**
   The relation is as sharp as a check that sees no store can be, up to a named
   handful: a refused pair, corrections included, commutes on every store exactly
   when it is one of the harmless ones.
   */
  lemma RefusedPairsExactly(a: Mutation, b: Mutation)
    requires Interfere(a, b)
    ensures (forall st :: CommuteOn(st, a, b)) <==> Harmless(a, b)
  {
    hide Interfere, Harmless, CommuteOn;
    if Harmless(a, b) {
      forall st ensures CommuteOn(st, a, b) {
        HarmlessPairsCommute(st, a, b);
      }
    } else {
      HarmfulWhereActive(a, b);
    }
  }
}
