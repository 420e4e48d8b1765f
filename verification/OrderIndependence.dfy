/** What ownership validation is for: acceptance ignores order, and when the effect does. */
module OrderIndependence {
  import opened Wrappers
  import opened WriteTypes
  import opened Ownership
  import opened Permutations
  import opened TripleStore
  import opened OrderFreedom
  import opened Refusals

  function FactOf(r: Record): Fact { Fact(SlotOf(r), r.obj, r.tense, r.rawText, r.expiration) }

  function RecordMutation(r: Record): Option<Mutation> {
    if r.mode == APPEND then Some(AppendFact(FactOf(r)))
    else if r.mode == ENSURE then Some(EnsureTriple(SlotOf(r), r.obj))
    else if r.mode == REPLACE then Some(ReplaceSlot(SlotOf(r), r.obj))
    else None
  }

  function RetractionMutation(r: Retraction): Option<Mutation> {
    match r
    case UnsetRetraction => None
    case RetractFact(id) => Some(RemoveFact(id))
    case RetractExact(s, p, o) => Some(RemoveTriple(Slot(s, p), o))
    case RetractSlot(s, p) => Some(RemoveSlot(Slot(s, p)))
  }

  function CorrectionMutation(c: Correction): Option<Mutation> { Some(Supersede(c.factID, FactOf(c.replacement))) }

  function ExpirationMutation(e: Expiration): Option<Mutation> { Some(ChangeDeadline(e.factID, e.deadline)) }

  function PersistenceMutation(p: Persistence): Option<Mutation> { Some(ChangeDeadline(p.factID, NoDeadline)) }

  /** Everything a request does, in the order it is written. */
  function Mutations(q: Request): seq<Mutation> {
    FilterMap(RecordMutation, q.records) + FilterMap(RetractionMutation, q.retractions)
    + FilterMap(CorrectionMutation, q.corrections) + FilterMap(ExpirationMutation, q.expirations)
    + FilterMap(PersistenceMutation, q.persistence)
  }

  function ClaimOf(m: Mutation): Option<Claim> {
    match m
    case EnsureTriple(s, o) => Some(ExactClaim(s, o))
    case ReplaceSlot(s, _) => Some(SlotClaim(s))
    case RemoveTriple(s, o) => Some(ExactClaim(s, o))
    case RemoveSlot(s) => Some(SlotClaim(s))
    case _ => None
  }

  function DestinationOf(m: Mutation): Option<Claim> {
    match m
    case AppendFact(f) => Some(ExactClaim(f.slot, f.obj))
    case Supersede(_, f) => Some(ExactClaim(f.slot, f.obj))
    case _ => None
  }

  // ---------------------------------- the claims of a request, as a bare list

  function Values(cs: seq<Claimed>): (vs: seq<Claim>)
    ensures |vs| == |cs| && forall i | 0 <= i < |cs| :: vs[i] == cs[i].claim
  {
    if cs == [] then [] else [cs[0].claim] + Values(cs[1..])
  }

  lemma ValuesConcat(a: seq<Claimed>, b: seq<Claimed>)
    ensures Values(a + b) == Values(a) + Values(b)
  {
  }

  lemma {:induction false} RecordValues(records: seq<Record>, i: nat)
    requires i <= |records|
    ensures Values(RecordClaims(records, i)) == FilterMap(ClaimOf, FilterMap(RecordMutation, records[i..]))
    ensures Values(AppendDestinations(records, i)) == FilterMap(DestinationOf, FilterMap(RecordMutation, records[i..]))
    decreases |records| - i
  {
    hide PathIndex;
    if i < |records| {
      RecordValues(records, i + 1);
      var m := FilterMap(RecordMutation, [records[i]]);
      var rest := FilterMap(RecordMutation, records[i + 1..]);
      assert records[i..] == [records[i]] + records[i + 1..];
      FilterMapConcat(RecordMutation, [records[i]], records[i + 1..]);
      FilterMapConcat(ClaimOf, m, rest);
      FilterMapConcat(DestinationOf, m, rest);
      OneRecordValue(records[i], i);
      ValuesConcat(Owning(RecordClaim(records[i]), PathIndex("record", i)), RecordClaims(records, i + 1));
      ValuesConcat(AppendDestination(records[i], i), AppendDestinations(records, i + 1));
    }
  }

  function AppendDestination(r: Record, i: nat): seq<Claimed> {
    if r.mode == APPEND then [Claimed(Destination(r), PathIndex("record", i))] else []
  }

  lemma OneRecordValue(r: Record, i: nat)
    ensures Values(Owning(RecordClaim(r), PathIndex("record", i))) == FilterMap(ClaimOf, FilterMap(RecordMutation, [r]))
    ensures Values(AppendDestination(r, i)) == FilterMap(DestinationOf, FilterMap(RecordMutation, [r]))
  {
    hide PathIndex;
    Singleton(RecordMutation, r);
    if RecordMutation(r).Some? {
      Singleton(ClaimOf, RecordMutation(r).value);
      Singleton(DestinationOf, RecordMutation(r).value);
    }
  }

  lemma {:induction false} RetractionValues(retractions: seq<Retraction>, i: nat)
    requires i <= |retractions|
    ensures Values(RetractionClaims(retractions, i))
         == FilterMap(ClaimOf, FilterMap(RetractionMutation, retractions[i..]))
    decreases |retractions| - i
  {
    hide PathIndex, RetractionMutation, RetractionClaim, ClaimOf, FilterMap;
    if i < |retractions| {
      var r := retractions[i];
      RetractionValues(retractions, i + 1);
      var m := FilterMap(RetractionMutation, [r]);
      var rest := FilterMap(RetractionMutation, retractions[i + 1..]);
      assert retractions[i..] == [r] + retractions[i + 1..];
      FilterMapConcat(RetractionMutation, [r], retractions[i + 1..]);
      FilterMapConcat(ClaimOf, m, rest);
      OneRetractionValue(r, i);
      ValuesConcat(Owning(RetractionClaim(r), PathIndex("retract", i)), RetractionClaims(retractions, i + 1));
    } else {
      assert retractions[i..] == [];
      NoImages<Retraction, Mutation>(RetractionMutation);
      NoImages<Mutation, Claim>(ClaimOf);
    }
  }

  lemma OneRetractionValue(r: Retraction, i: nat)
    ensures Values(Owning(RetractionClaim(r), PathIndex("retract", i)))
         == FilterMap(ClaimOf, FilterMap(RetractionMutation, [r]))
  {
    hide PathIndex;
    Singleton(RetractionMutation, r);
    if RetractionMutation(r).Some? {
      Singleton(ClaimOf, RetractionMutation(r).value);
    }
  }

  lemma {:induction false} CorrectionValues(corrections: seq<Correction>, i: nat)
    requires i <= |corrections|
    ensures Values(CorrectionDestinations(corrections, i))
         == FilterMap(DestinationOf, FilterMap(CorrectionMutation, corrections[i..]))
    decreases |corrections| - i
  {
    hide PathIndex;
    if i < |corrections| {
      var c := corrections[i];
      CorrectionValues(corrections, i + 1);
      var m := FilterMap(CorrectionMutation, [c]);
      var rest := FilterMap(CorrectionMutation, corrections[i + 1..]);
      assert corrections[i..] == [c] + corrections[i + 1..];
      FilterMapConcat(CorrectionMutation, [c], corrections[i + 1..]);
      FilterMapConcat(DestinationOf, m, rest);
      Singleton(CorrectionMutation, c);
      Singleton(DestinationOf, CorrectionMutation(c).value);
    }
  }

  lemma OtherValues(q: Request)
    ensures FilterMap(DestinationOf, FilterMap(RetractionMutation, q.retractions)) == []
    ensures FilterMap(ClaimOf, FilterMap(CorrectionMutation, q.corrections)) == []
    ensures FilterMap(ClaimOf, FilterMap(ExpirationMutation, q.expirations)) == []
    ensures FilterMap(DestinationOf, FilterMap(ExpirationMutation, q.expirations)) == []
    ensures FilterMap(ClaimOf, FilterMap(PersistenceMutation, q.persistence)) == []
    ensures FilterMap(DestinationOf, FilterMap(PersistenceMutation, q.persistence)) == []
  {
    hide FilterMap;
    FilterMapOfNothing(DestinationOf, RetractionMutation, q.retractions);
    FilterMapOfNothing(ClaimOf, CorrectionMutation, q.corrections);
    FilterMapOfNothing(ClaimOf, ExpirationMutation, q.expirations);
    FilterMapOfNothing(DestinationOf, ExpirationMutation, q.expirations);
    FilterMapOfNothing(ClaimOf, PersistenceMutation, q.persistence);
    FilterMapOfNothing(DestinationOf, PersistenceMutation, q.persistence);
  }

  lemma FilterMapConcat5<T, U>(f: T -> Option<U>, a: seq<T>, b: seq<T>, c: seq<T>, d: seq<T>, e: seq<T>)
    ensures FilterMap(f, a + b + c + d + e)
         == FilterMap(f, a) + FilterMap(f, b) + FilterMap(f, c) + FilterMap(f, d) + FilterMap(f, e)
  {
    hide FilterMap;
    FilterMapConcat(f, a + b + c + d, e);
    FilterMapConcat(f, a + b + c, d);
    FilterMapConcat(f, a + b, c);
    FilterMapConcat(f, a, b);
  }

  /** The claims and destinations validation works on are those of the mutations, in order. */
  lemma ClaimsAreTheMutations(q: Request)
    ensures Values(Claims(q)) == FilterMap(ClaimOf, Mutations(q))
    ensures Values(Destinations(q)) == FilterMap(DestinationOf, Mutations(q))
  {
    hide FilterMap, Values, RecordClaims, RetractionClaims, AppendDestinations, CorrectionDestinations;
    var a, b, c := FilterMap(RecordMutation, q.records), FilterMap(RetractionMutation, q.retractions),
      FilterMap(CorrectionMutation, q.corrections);
    var d, e := FilterMap(ExpirationMutation, q.expirations), FilterMap(PersistenceMutation, q.persistence);
    FilterMapConcat5(ClaimOf, a, b, c, d, e);
    FilterMapConcat5(DestinationOf, a, b, c, d, e);
    RecordValues(q.records, 0);
    RetractionValues(q.retractions, 0);
    CorrectionValues(q.corrections, 0);
    OtherValues(q);
    assert q.records[0..] == q.records && q.retractions[0..] == q.retractions && q.corrections[0..] == q.corrections;
    ValuesConcat(RecordClaims(q.records, 0), RetractionClaims(q.retractions, 0));
    ValuesConcat(AppendDestinations(q.records, 0), CorrectionDestinations(q.corrections, 0));
  }

  // ------------------------------------------- the relation, up to order

  ghost predicate FreeClaims(vs: seq<Claim>) {
    forall i, j | 0 <= i < j < |vs| :: !Conflict(vs[i], vs[j])
  }

  ghost predicate ApartClaims(vs: seq<Claim>, ds: seq<Claim>) {
    forall v, d | v in vs && d in ds :: !Conflict(v, d)
  }

  lemma ApartByValues(cs: seq<Claimed>, ds: seq<Claimed>)
    ensures Apart(cs, ds) <==> ApartClaims(Values(cs), Values(ds))
  {
  }

  lemma NonInterferingByValues(q: Request)
    ensures NonInterfering(q) <==>
              FreeClaims(FilterMap(ClaimOf, Mutations(q)))
              && ApartClaims(FilterMap(ClaimOf, Mutations(q)), FilterMap(DestinationOf, Mutations(q)))
  {
    hide FilterMap, Claims, Destinations, Mutations, Conflict, Apart, ApartClaims;
    ClaimsAreTheMutations(q);
    ApartByValues(Claims(q), Destinations(q));
    assert PairwiseFree(Claims(q)) <==> FreeClaims(Values(Claims(q)));
  }

  lemma FreeClaimsAreUnordered(vs: seq<Claim>, ws: seq<Claim>)
    requires multiset(vs) == multiset(ws) && FreeClaims(vs)
    ensures FreeClaims(ws)
  {
    forall i, j | 0 <= i < j < |ws| ensures !Conflict(ws[i], ws[j]) {
      SameElements(vs, ws);
      if ws[i] == ws[j] {
        TwoPlaces(ws, i, j);
        var k, l := TwoOccurrences(vs, ws[i]);
      } else {
        var k :| 0 <= k < |vs| && vs[k] == ws[i];
        var l :| 0 <= l < |vs| && vs[l] == ws[j];
      }
    }
  }

  /** q' lists the same things as q, each list in some order of its own. */
  ghost predicate Reordered(q: Request, q': Request) {
    && multiset(q.records) == multiset(q'.records) && multiset(q.retractions) == multiset(q'.retractions)
    && multiset(q.corrections) == multiset(q'.corrections)
    && multiset(q.expirations) == multiset(q'.expirations) && multiset(q.persistence) == multiset(q'.persistence)
  }

  lemma ReorderedMutations(q: Request, q': Request)
    requires Reordered(q, q')
    ensures multiset(Mutations(q)) == multiset(Mutations(q'))
  {
    FilterMapPermutes(RecordMutation, q.records, q'.records);
    FilterMapPermutes(RetractionMutation, q.retractions, q'.retractions);
    FilterMapPermutes(CorrectionMutation, q.corrections, q'.corrections);
    FilterMapPermutes(ExpirationMutation, q.expirations, q'.expirations);
    FilterMapPermutes(PersistenceMutation, q.persistence, q'.persistence);
  }

  lemma ReorderingKeepsAcceptanceOneWay(q: Request, q': Request)
    requires Reordered(q, q') && NonInterfering(q)
    ensures NonInterfering(q')
  {
    hide NonInterfering, Mutations, FilterMap, Reordered;
    ReorderedMutations(q, q');
    NonInterferingByValues(q);
    NonInterferingByValues(q');
    FilterMapPermutes(ClaimOf, Mutations(q), Mutations(q'));
    FilterMapPermutes(DestinationOf, Mutations(q), Mutations(q'));
    FreeClaimsAreUnordered(FilterMap(ClaimOf, Mutations(q)), FilterMap(ClaimOf, Mutations(q')));
    SameElements(FilterMap(ClaimOf, Mutations(q)), FilterMap(ClaimOf, Mutations(q')));
    SameElements(FilterMap(DestinationOf, Mutations(q)), FilterMap(DestinationOf, Mutations(q')));
  }

  /** Whether a request is accepted does not depend on the order of any of its lists. */
  lemma ReorderingKeepsAcceptance(q: Request, q': Request)
    requires Reordered(q, q')
    ensures OwnershipError(q).None? <==> OwnershipError(q').None?
  {
    AcceptedExactlyWhenNonInterfering(q);
    AcceptedExactlyWhenNonInterfering(q');
    if NonInterfering(q) {
      ReorderingKeepsAcceptanceOneWay(q, q');
    }
    if NonInterfering(q') {
      ReorderingKeepsAcceptanceOneWay(q', q);
    }
  }

  // ------------------------------------------------ accepted means commuting

  /** The fact IDs a request names, in order. */
  function FactTargets(q: Request): seq<string> { FilterMap(TargetOf, Mutations(q)) }

  lemma IndependentByClaims(a: Mutation, b: Mutation)
    requires ClaimOf(a).Some? && ClaimOf(b).Some? ==> !Conflict(ClaimOf(a).value, ClaimOf(b).value)
    requires ClaimOf(a).Some? && DestinationOf(b).Some? ==> !Conflict(ClaimOf(a).value, DestinationOf(b).value)
    requires DestinationOf(a).Some? && ClaimOf(b).Some? ==> !Conflict(ClaimOf(b).value, DestinationOf(a).value)
    requires TargetOf(a).Some? && TargetOf(b).Some? ==> TargetOf(a) != TargetOf(b)
    ensures Independent(a, b)
  {
  }

  lemma DifferentMutationsAreIndependent(q: Request, a: Mutation, b: Mutation)
    requires NonInterfering(q) && NoRepeats(FactTargets(q))
    requires a in Mutations(q) && b in Mutations(q) && a != b
    ensures Independent(a, b)
  {
    hide NonInterfering, Mutations, FilterMap, Conflict, Independent, ClaimOf, DestinationOf, TargetOf;
    var ms := Mutations(q);
    NonInterferingByValues(q);
    if ClaimOf(a).Some? && ClaimOf(b).Some? {
      var i, j := ImagesOfDifferentElements(ClaimOf, ms, a, b);
      ConflictIsSymmetric(ClaimOf(a).value, ClaimOf(b).value);
    }
    if ClaimOf(a).Some? && DestinationOf(b).Some? {
      var i := ImageOf(ClaimOf, ms, a);
      var j := ImageOf(DestinationOf, ms, b);
    }
    if DestinationOf(a).Some? && ClaimOf(b).Some? {
      var i := ImageOf(ClaimOf, ms, b);
      var j := ImageOf(DestinationOf, ms, a);
    }
    if TargetOf(a).Some? && TargetOf(b).Some? {
      var i, j := ImagesOfDifferentElements(TargetOf, ms, a, b);
    }
    IndependentByClaims(a, b);
  }

  lemma ConflictIsSymmetric(a: Claim, b: Claim)
    ensures Conflict(a, b) <==> Conflict(b, a)
  {
  }

  /** No accepted request ensures a triple twice. */
  lemma EnsuresAreUnique(q: Request)
    requires NonInterfering(q)
    ensures EnsuresOnce(Mutations(q))
  {
    hide NonInterfering, Mutations, FilterMap;
    NonInterferingByValues(q);
    var ms := Mutations(q);
    forall e | e in ms && e.EnsureTriple? ensures multiset(ms)[e] == 1 {
      assert e in multiset(ms);
      if multiset(ms)[e] >= 2 {
        var i, j := TwoOccurrences(ms, e);
        var k, l := ImagesOfTwoPlaces(ClaimOf, ms, i, j);
      }
    }
  }

  lemma AcceptedMutationsAreIndependent(q: Request)
    requires OwnershipError(q).None? && NoRepeats(FactTargets(q))
    ensures AllIndependent(Mutations(q)) && EnsuresOnce(Mutations(q))
  {
    hide NonInterfering, Mutations, FilterMap, OwnershipError, Independent, FactTargets;
    AcceptedExactlyWhenNonInterfering(q);
    forall a, b | a in Mutations(q) && b in Mutations(q) && a != b ensures Independent(a, b) {
      DifferentMutationsAreIndependent(q, a, b);
    }
    EnsuresAreUnique(q);
  }

  /**
   Accepted mutations, exactly: if ownership validation accepts and no fact ID is
   named twice, every order of the request's mutations gives the same store, or
   every order is refused, if and only if some named fact is not active to begin
   with, or the request drops no fact that it names and no triple it ensures loses
   its last bearers to the facts it retracts or corrects by ID.
   */
  lemma AcceptedMutationsCommuteExactlyWhen(q: Request, st: Store)
    requires OwnershipError(q).None? && NoRepeats(FactTargets(q))
    ensures OrderFree(st, Mutations(q)) <==> Settled(st, Mutations(q))
  {
    hide OwnershipError, Mutations, AllIndependent, EnsuresOnce, OrderFree, Settled;
    AcceptedMutationsAreIndependent(q);
    OrderFreeExactlyWhenSettled(st, Mutations(q));
  }

  lemma AcceptedMutationsCommute(q: Request, st: Store, order: seq<Mutation>)
    requires OwnershipError(q).None? && NoRepeats(FactTargets(q))
    requires Settled(st, Mutations(q))
    requires multiset(order) == multiset(Mutations(q))
    ensures PerformAll(st, order) == PerformAll(st, Mutations(q))
  {
    hide Settled, Mutations, PerformAll, OwnershipError, NoRepeats;
    AcceptedMutationsCommuteExactlyWhen(q, st);
  }

  /** A list that does not both ensure triples and forget facts by ID does the same in every order, on every store. */
  lemma OneSidedListsAgree(st: Store, ms: seq<Mutation>, ns: seq<Mutation>)
    requires AllIndependent(ms) && multiset(ns) == multiset(ms)
    requires (forall m | m in ms :: !m.EnsureTriple?) || (forall m | m in ms :: !Forgets(m))
    ensures MutateAll(st, ns) == MutateAll(st, ms)
  {
    hide MutateAll, AllIndependent, HasTriple;
    SteadyEffectsAgree(st, ms, ns);
  }

  ghost predicate Same(ms: seq<Mutation>, ns: seq<Mutation>) {
    forall st :: MutateAll(st, ms) == MutateAll(st, ns)
  }

  lemma SameConcat(a: seq<Mutation>, a': seq<Mutation>, b: seq<Mutation>, b': seq<Mutation>)
    requires Same(a, a') && Same(b, b')
    ensures Same(a + b, a' + b')
  {
    hide MutateAll;
    forall st ensures MutateAll(st, a + b) == MutateAll(st, a' + b') {
      MutateAllConcat(st, a, b);
      MutateAllConcat(st, a', b');
    }
  }

  /** One list of a request, reordered. */
  lemma ReorderedListsAgree<T>(f: T -> Option<Mutation>, s: seq<T>, s': seq<T>)
    requires multiset(s) == multiset(s') && AllIndependent(FilterMap(f, s))
    requires (forall m | m in FilterMap(f, s) :: !m.EnsureTriple?) || (forall m | m in FilterMap(f, s) :: !Forgets(m))
    ensures Same(FilterMap(f, s), FilterMap(f, s'))
  {
    hide MutateAll, FilterMap, AllIndependent;
    FilterMapPermutes(f, s, s');
    forall st ensures MutateAll(st, FilterMap(f, s)) == MutateAll(st, FilterMap(f, s')) {
      OneSidedListsAgree(st, FilterMap(f, s), FilterMap(f, s'));
    }
  }

  lemma {:induction false} ImagesAre<T>(f: T -> Option<Mutation>, s: seq<T>, p: Mutation -> bool)
    requires forall x | x in s && f(x).Some? :: p(f(x).value)
    ensures forall m | m in FilterMap(f, s) :: p(m)
  {
    if s != [] {
      ImagesAre(f, s[1..], p);
    }
  }

  /** Listing a request's parts in another order changes nothing of what they do, refusals aside. */
  lemma ReorderedEffectsAgree(q: Request, q': Request)
    requires Reordered(q, q')
    requires OwnershipError(q).None? && NoRepeats(FactTargets(q))
    ensures Same(Mutations(q), Mutations(q'))
  {
    AcceptedMutationsAreIndependent(q);
    ListsAreOneSided(q);
    hide Same, FilterMap, OwnershipError, FactTargets, Independent, NoRepeats;
    var r, t, c := FilterMap(RecordMutation, q.records), FilterMap(RetractionMutation, q.retractions),
      FilterMap(CorrectionMutation, q.corrections);
    var e, p := FilterMap(ExpirationMutation, q.expirations), FilterMap(PersistenceMutation, q.persistence);
    var r', t', c' := FilterMap(RecordMutation, q'.records), FilterMap(RetractionMutation, q'.retractions),
      FilterMap(CorrectionMutation, q'.corrections);
    var e', p' := FilterMap(ExpirationMutation, q'.expirations), FilterMap(PersistenceMutation, q'.persistence);
    PartsAreIndependent(r, t, c, e, p);
    ReorderedListsAgree(RecordMutation, q.records, q'.records);
    ReorderedListsAgree(RetractionMutation, q.retractions, q'.retractions);
    ReorderedListsAgree(CorrectionMutation, q.corrections, q'.corrections);
    ReorderedListsAgree(ExpirationMutation, q.expirations, q'.expirations);
    ReorderedListsAgree(PersistenceMutation, q.persistence, q'.persistence);
    SameConcat(r, r', t, t');
    SameConcat(r + t, r' + t', c, c');
    SameConcat(r + t + c, r' + t' + c', e, e');
    SameConcat(r + t + c + e, r' + t' + c' + e', p, p');
  }

  lemma PartsAreIndependent(r: seq<Mutation>, t: seq<Mutation>, c: seq<Mutation>, e: seq<Mutation>, p: seq<Mutation>)
    requires AllIndependent(r + t + c + e + p)
    ensures AllIndependent(r) && AllIndependent(t) && AllIndependent(c) && AllIndependent(e) && AllIndependent(p)
  {
    hide Independent;
    var all := r + t + c + e + p;
    assert forall m | m in r || m in t || m in c || m in e || m in p :: m in all;
  }

  lemma ListsAreOneSided(q: Request)
    ensures forall m | m in FilterMap(RecordMutation, q.records) :: !Forgets(m)
    ensures forall m | m in FilterMap(RetractionMutation, q.retractions) :: !m.EnsureTriple?
    ensures forall m | m in FilterMap(CorrectionMutation, q.corrections) :: !m.EnsureTriple?
    ensures forall m | m in FilterMap(ExpirationMutation, q.expirations) :: !m.EnsureTriple?
    ensures forall m | m in FilterMap(PersistenceMutation, q.persistence) :: !m.EnsureTriple?
  {
    hide FilterMap;
    ImagesAre(RecordMutation, q.records, (m: Mutation) => !Forgets(m));
    ImagesAre(RetractionMutation, q.retractions, (m: Mutation) => !m.EnsureTriple?);
    ImagesAre(CorrectionMutation, q.corrections, (m: Mutation) => !m.EnsureTriple?);
    ImagesAre(ExpirationMutation, q.expirations, (m: Mutation) => !m.EnsureTriple?);
    ImagesAre(PersistenceMutation, q.persistence, (m: Mutation) => !m.EnsureTriple?);
  }

  // ------------------------------------------------ reordering a request

  function RecordPart(q: Request): seq<Mutation> { FilterMap(RecordMutation, q.records) }

  function RetractionPart(q: Request): seq<Mutation> { FilterMap(RetractionMutation, q.retractions) }

  function OtherPart(q: Request): seq<Mutation> {
    FilterMap(CorrectionMutation, q.corrections) + FilterMap(ExpirationMutation, q.expirations)
    + FilterMap(PersistenceMutation, q.persistence)
  }

  lemma MutationsInParts(q: Request)
    ensures Mutations(q) == RecordPart(q) + RetractionPart(q) + OtherPart(q)
    ensures forall m | m in RecordPart(q) :: TargetOf(m).None?
    ensures forall m | m in OtherPart(q) :: TargetOf(m).Some?
  {
    hide FilterMap;
    ImagesAre(RecordMutation, q.records, (m: Mutation) => TargetOf(m).None?);
    ImagesAre(CorrectionMutation, q.corrections, (m: Mutation) => TargetOf(m).Some?);
    ImagesAre(ExpirationMutation, q.expirations, (m: Mutation) => TargetOf(m).Some?);
    ImagesAre(PersistenceMutation, q.persistence, (m: Mutation) => TargetOf(m).Some?);
  }

  /** Some fact is lost by the time it is named, in whatever order each list of the request is. */
  predicate RefusedAnyway(st: Store, q: Request) {
    || (exists m | m in RetractionPart(q) && TargetOf(m).Some? :: Lost(st, RecordPart(q), TargetOf(m).value))
    || (exists m | m in OtherPart(q) && TargetOf(m).Some? ::
          Lost(st, RecordPart(q) + RetractionPart(q), TargetOf(m).value))
  }

  lemma LostInEither(st: Store, a: seq<Mutation>, b: seq<Mutation>, id: string)
    ensures Lost(st, a + b, id) <==> Lost(st, a, id) || Lost(st, b, id)
  {
  }

  lemma NamingLosesNothing(st: Store, ms: seq<Mutation>, id: string)
    requires id in st.active && forall m | m in ms :: TargetOf(m).Some?
    ensures !Lost(st, ms, id)
  {
  }

  /** When three lists, the first naming nothing and the last dropping nothing, are carried out. */
  lemma PartsInTime(st: Store, r: seq<Mutation>, t: seq<Mutation>, o: seq<Mutation>)
    requires (forall m | m in r :: TargetOf(m).None?) && (forall m | m in o :: TargetOf(m).Some?)
    ensures InTime(st, r + t + o) <==>
              && (forall i | 0 <= i < |t| && TargetOf(t[i]).Some? :: !Lost(st, r + t[..i], TargetOf(t[i]).value))
              && (forall m | m in o :: !Lost(st, r + t, TargetOf(m).value))
  {
    hide TargetOf, Lost;
    var ms := r + t + o;
    assert forall i | 0 <= i < |r| :: ms[i] in r;
    assert forall i | 0 <= i < |t| :: ms[|r| + i] == t[i] && ms[..|r| + i] == r + t[..i];
    forall i | 0 <= i < |o|
      ensures ms[|r| + |t| + i] == o[i]
      ensures Lost(st, ms[..|r| + |t| + i], TargetOf(o[i]).value) <==> Lost(st, r + t, TargetOf(o[i]).value)
    {
      assert ms[..|r| + |t| + i] == (r + t) + o[..i];
      LostBeforeNaming(st, r + t, o[..i], TargetOf(o[i]).value);
    }
    if InTime(st, ms) {
      forall i | 0 <= i < |t| && TargetOf(t[i]).Some? ensures !Lost(st, r + t[..i], TargetOf(t[i]).value) {
        assert !Lost(st, ms[..|r| + i], TargetOf(ms[|r| + i]).value);
      }
      forall m | m in o ensures !Lost(st, r + t, TargetOf(m).value) {
        var i :| 0 <= i < |o| && o[i] == m;
        assert !Lost(st, ms[..|r| + |t| + i], TargetOf(ms[|r| + |t| + i]).value);
      }
    }
  }

  lemma LostBeforeNaming(st: Store, ms: seq<Mutation>, ns: seq<Mutation>, id: string)
    requires forall m | m in ns :: TargetOf(m).Some?
    ensures Lost(st, ms + ns, id) <==> Lost(st, ms, id)
  {
    LostInEither(st, ms, ns, id);
    if id in st.active {
      NamingLosesNothing(st, ns, id);
    }
  }

  lemma RefusedAnywayIsRefused(st: Store, q: Request)
    requires NoRepeats(FactTargets(q)) && RefusedAnyway(st, q)
    ensures PerformAll(st, Mutations(q)) == None
  {
    hide Lost, TargetOf, Mutations, RecordPart, RetractionPart, OtherPart, PerformAll, InTime;
    var r, t, o := RecordPart(q), RetractionPart(q), OtherPart(q);
    MutationsInParts(q);
    CarriedOutExactlyWhen(st, Mutations(q));
    PartsInTime(st, r, t, o);
    if InTime(st, Mutations(q)) {
      forall i | 0 <= i < |t| && TargetOf(t[i]).Some? ensures !Lost(st, r, TargetOf(t[i]).value) {
        LostInEither(st, r, t[..i], TargetOf(t[i]).value);
      }
    }
  }

  lemma UndroppedRetractionsAreCarriedOut(st: Store, q: Request)
    requires NoRepeats(FactTargets(q)) && !RefusedAnyway(st, q) && !DropsNamed(st, RetractionPart(q))
    ensures PerformAll(st, Mutations(q)) == Some(MutateAll(st, Mutations(q)))
  {
    hide TargetOf, Drops, Mutations, RecordPart, RetractionPart, OtherPart, PerformAll, InTime;
    var r, t, o := RecordPart(q), RetractionPart(q), OtherPart(q);
    MutationsInParts(q);
    CarriedOutExactlyWhen(st, Mutations(q));
    PartsInTime(st, r, t, o);
    forall i | 0 <= i < |t| && TargetOf(t[i]).Some? ensures !Lost(st, r + t[..i], TargetOf(t[i]).value) {
      assert t[i] in t && forall d | d in t[..i] :: d in t;
      LostInEither(st, r, t[..i], TargetOf(t[i]).value);
    }
  }

  /** What a reordering leaves as it is. */
  lemma ReorderedParts(st: Store, q: Request, q': Request)
    requires Reordered(q, q')
    ensures NoRepeats(FactTargets(q)) ==> NoRepeats(FactTargets(q'))
    ensures RefusedAnyway(st, q) <==> RefusedAnyway(st, q')
    ensures DropsNamed(st, RetractionPart(q)) <==> DropsNamed(st, RetractionPart(q'))
  {
    hide FilterMap, TargetOf, Drops, NoRepeats, Mutations;
    ReorderedMutations(q, q');
    FilterMapPermutes(TargetOf, Mutations(q), Mutations(q'));
    if NoRepeats(FactTargets(q)) {
      NoRepeatsPermutes(FactTargets(q), FactTargets(q'));
    }
    FilterMapPermutes(RecordMutation, q.records, q'.records);
    FilterMapPermutes(RetractionMutation, q.retractions, q'.retractions);
    FilterMapPermutes(CorrectionMutation, q.corrections, q'.corrections);
    FilterMapPermutes(ExpirationMutation, q.expirations, q'.expirations);
    FilterMapPermutes(PersistenceMutation, q.persistence, q'.persistence);
    SameElements(RecordPart(q), RecordPart(q'));
    SameElements(RetractionPart(q), RetractionPart(q'));
    SameElements(OtherPart(q), OtherPart(q'));
  }

  /** With a slot or triple retraction first that drops a fact another retraction names, the request is refused. */
  lemma DroppingRetractionFirst(st: Store, q: Request) returns (q': Request)
    requires NoRepeats(FactTargets(q)) && DropsNamed(st, RetractionPart(q))
    ensures Reordered(q, q') && PerformAll(st, Mutations(q')) == None
  {
    hide PerformAll, Drops, FilterMap, TargetOf, Mutations, NoRepeats, RetractionMutation;
    var t := RetractionPart(q);
    var m, d :| m in t && d in t && TargetOf(m).Some? && TargetOf(m).value in st.active
      && Drops(d, st.active[TargetOf(m).value]);
    NamingDropsNothing(m, d, st.active[TargetOf(m).value]);
    var k := Preimage(RetractionMutation, q.retractions, d);
    q' := RetractingFirst(q, k, d);
    ReorderedParts(st, q, q');
    SameElements(t, RetractionPart(q'));
    var after := RetractionPart(q')[1..] + OtherPart(q');
    assert m in RetractionPart(q')[1..] by { assert m in RetractionPart(q'); }
    MutationsInParts(q');
    assert RetractionPart(q') == [d] + RetractionPart(q')[1..];
    assert Mutations(q') == RecordPart(q') + [d] + after;
    DropFirstIsRefused(st, RecordPart(q'), d, after, m);
  }

  lemma RetractingFirst(q: Request, k: nat, d: Mutation) returns (q': Request)
    requires k < |q.retractions| && RetractionMutation(q.retractions[k]) == Some(d)
    ensures Reordered(q, q') && multiset(RetractionPart(q')) == multiset(RetractionPart(q))
    ensures RetractionPart(q') != [] && RetractionPart(q')[0] == d
  {
    hide FilterMap, RetractionMutation;
    WithoutSplits(q.retractions, k);
    var rest := Without(q.retractions, k);
    q' := q.(retractions := [q.retractions[k]] + rest);
    FilterMapConcat(RetractionMutation, [q.retractions[k]], rest);
    Singleton(RetractionMutation, q.retractions[k]);
    FilterMapPermutes(RetractionMutation, q.retractions, q'.retractions);
  }

  predicate RetractsById(r: Retraction) { r.RetractFact? }

  predicate RetractsOtherwise(r: Retraction) { !r.RetractFact? }

  /** With the retractions by ID first it is not, unless it is refused anyway. */
  lemma RetractionsByIdFirst(st: Store, q: Request) returns (q': Request)
    requires NoRepeats(FactTargets(q)) && !RefusedAnyway(st, q)
    ensures Reordered(q, q') && PerformAll(st, Mutations(q')).Some?
  {
    hide PerformAll, Drops, FilterMap, Mutations, NoRepeats, InTime;
    var named, others := Filter(RetractsById, q.retractions), Filter(RetractsOtherwise, q.retractions);
    FilterSplits(RetractsById, RetractsOtherwise, q.retractions);
    q' := q.(retractions := named + others);
    ReorderedParts(st, q, q');
    var r, t, o := RecordPart(q'), RetractionPart(q'), OtherPart(q');
    MutationsInParts(q');
    FilterMapConcat(RetractionMutation, named, others);
    var a, b := FilterMap(RetractionMutation, named), FilterMap(RetractionMutation, others);
    ImagesAre(RetractionMutation, named, (m: Mutation) => TargetOf(m).Some?);
    ImagesAre(RetractionMutation, others, (m: Mutation) => TargetOf(m).None?);
    CarriedOutExactlyWhen(st, Mutations(q'));
    PartsInTime(st, r, t, o);
    assert forall i | |a| <= i < |t| :: t[i] in b;
    forall i | 0 <= i < |t| && TargetOf(t[i]).Some? ensures !Lost(st, r + t[..i], TargetOf(t[i]).value) {
      assert t[i] in t && t[..i] == a[..i];
      assert forall m | m in a[..i] :: m in a;
      LostBeforeNaming(st, r, t[..i], TargetOf(t[i]).value);
    }
  }

  /**
   Listing the parts of a request in another order changes nothing on a store,
   refusals included, exactly when every order is refused or no retraction drops,
   for its slot or triple, a fact that another retraction names.
   */
  lemma ReorderedRequestsAgreeExactlyWhen(q: Request, st: Store)
    requires OwnershipError(q).None? && NoRepeats(FactTargets(q))
    ensures (forall q' | Reordered(q, q') :: PerformAll(st, Mutations(q')) == PerformAll(st, Mutations(q)))
       <==> RefusedAnyway(st, q) || !DropsNamed(st, RetractionPart(q))
  {
    hide OwnershipError, NoRepeats, PerformAll, Mutations, RefusedAnyway, DropsNamed, Reordered;
    if RefusedAnyway(st, q) || !DropsNamed(st, RetractionPart(q)) {
      forall q' | Reordered(q, q') ensures PerformAll(st, Mutations(q')) == PerformAll(st, Mutations(q)) {
        ReorderedRequestsAgree(q, q', st);
      }
    } else {
      var refused := DroppingRetractionFirst(st, q);
      var carriedOut := RetractionsByIdFirst(st, q);
    }
  }

  lemma ReorderedRequestsAgree(q: Request, q': Request, st: Store)
    requires Reordered(q, q')
    requires OwnershipError(q).None? && NoRepeats(FactTargets(q))
    requires RefusedAnyway(st, q) || !DropsNamed(st, RetractionPart(q))
    ensures OwnershipError(q').None? && PerformAll(st, Mutations(q')) == PerformAll(st, Mutations(q))
  {
    hide OwnershipError, NoRepeats, PerformAll, MutateAll, Mutations, RefusedAnyway, DropsNamed, Reordered;
    ReorderingKeepsAcceptance(q, q');
    ReorderedEffectsAgree(q, q');
    ReorderedParts(st, q, q');
    if RefusedAnyway(st, q) {
      RefusedAnywayIsRefused(st, q);
      RefusedAnywayIsRefused(st, q');
    } else {
      UndroppedRetractionsAreCarriedOut(st, q);
      UndroppedRetractionsAreCarriedOut(st, q');
    }
  }
}
