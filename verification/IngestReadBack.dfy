/** Reading claims back off compiled records: under each predicate of the compiler, exactly one part of a claim. */
module IngestReadBack {
  import opened Wrappers
  import opened Text
  import opened Json
  import opened Permutations
  import opened Ingest
  import opened IngestValidation
  import opened IngestCompiler
  import opened IngestProperties
  import opened IngestOwnership
  import W = WriteTypes

  /** The objects stated of a subject under a predicate, in order. */
  function ObjectsOf(rs: seq<W.Record>, subject: string, pred: string): seq<W.Object> {
    if rs == [] then [] else Stated(rs[0], subject, pred) + ObjectsOf(rs[1..], subject, pred)
  }

  function Stated(r: W.Record, subject: string, pred: string): seq<W.Object> {
    if r.subject == subject && r.pred == pred then [r.obj] else []
  }

  lemma {:induction false} ObjectsConcat(a: seq<W.Record>, b: seq<W.Record>, subject: string, pred: string)
    ensures ObjectsOf(a + b, subject, pred) == ObjectsOf(a, subject, pred) + ObjectsOf(b, subject, pred)
  {
    if a == [] {
      assert a + b == b;
    } else {
      assert (a + b)[1..] == a[1..] + b;
      ObjectsConcat(a[1..], b, subject, pred);
    }
  }

  lemma {:induction false} NothingStated(rs: seq<W.Record>, subject: string, pred: string)
    requires forall r | r in rs :: Stated(r, subject, pred) == []
    ensures ObjectsOf(rs, subject, pred) == []
  {
    if rs != [] {
      assert rs[0] in rs;
      NothingStated(rs[1..], subject, pred);
    }
  }

  lemma ObjectsNext(r: W.Record, rs: seq<W.Record>, s: string, p: string)
    ensures ObjectsOf([r] + rs, s, p) == Stated(r, s, p) + ObjectsOf(rs, s, p)
  {
  }

  lemma ObjectsOfSix(a: W.Record, b: W.Record, c: W.Record, d: W.Record, e: W.Record, f: W.Record, s: string, p: string)
    ensures ObjectsOf([a, b, c, d, e, f], s, p)
         == Stated(a, s, p) + (Stated(b, s, p)
            + (Stated(c, s, p) + (Stated(d, s, p) + (Stated(e, s, p) + Stated(f, s, p)))))
  {
    hide Stated, ObjectsOf;
    assert [a, b, c, d, e, f] == [a] + [b, c, d, e, f] && [b, c, d, e, f] == [b] + [c, d, e, f];
    assert [c, d, e, f] == [c] + [d, e, f] && [d, e, f] == [d] + [e, f] && [e, f] == [e] + [f];
    ObjectsNext(a, [b, c, d, e, f], s, p);
    ObjectsNext(b, [c, d, e, f], s, p);
    ObjectsNext(c, [d, e, f], s, p);
    ObjectsNext(d, [e, f], s, p);
    ObjectsNext(e, [f], s, p);
    ObjectsOfOne(f, s, p);
  }

  lemma ObjectsOfOne(r: W.Record, s: string, p: string)
    ensures ObjectsOf([r], s, p) == Stated(r, s, p) && ObjectsOf([], s, p) == []
  {
  }

  // ------------------------------------------------------- whose record it is

  predicate About(r: W.Record, batch: string, entity: string) { r.subject == batch || r.subject == entity }

  lemma SubjectsOfClaim(env: Environment, b: Batch, c: Claim)
    ensures forall r | r in AboutClaim(env, b, c) :: About(r, BatchEntity(env, b), ClaimEntity(env, b, c))
  {
    hide BatchEntity, ClaimEntity, SourceEntity, ObjectValue, AboutClaim, About;
    hide PRODUCED, IS_A, INITIAL_STATUS, CANDIDATE_SUBJECT, CANDIDATE_PREDICATE, CANDIDATE_OBJECT, CONFIDENCE_PPM,
      SUPPORTS;
    var batch, entity := BatchEntity(env, b), ClaimEntity(env, b, c);
    var p: W.Record -> bool := r => About(r, batch, entity);
    forall pred, obj ensures About(Ensured(batch, pred, obj), batch, entity) {
      AboutOne(batch, batch, entity, pred, obj);
    }
    forall pred, obj ensures About(Ensured(entity, pred, obj), batch, entity) {
      AboutOne(entity, batch, entity, pred, obj);
    }
    AllAboutClaim(p, env, b, c);
    forall r | r in AboutClaim(env, b, c) ensures About(r, batch, entity) {
      assert p(r);
    }
  }

  lemma AboutOne(subject: string, batch: string, entity: string, pred: string, obj: W.Object)
    requires subject == batch || subject == entity
    ensures About(Ensured(subject, pred, obj), batch, entity)
  {
  }

  predicate StartsWith(r: W.Record, letters: set<char>) { r.subject != "" && r.subject[0] in letters }

  lemma SubjectsOfHead(env: Environment, b: Batch)
    ensures forall r | r in HeadRecords(env, b) :: StartsWith(r, {'i', 'p', 's'})
  {
    FirstLetters(env, b);
    hide BatchEntity, ProducerEntity, SourceEntity, CanonicalText, HeadRecords, StartsWith;
    var p: W.Record -> bool := r => StartsWith(r, {'i', 'p', 's'});
    var batch, producer, source := BatchEntity(env, b), ProducerEntity(env, b.producer), SourceEntity(b);
    forall pred, obj
      ensures StartsWith(Ensured(batch, pred, obj), {'i', 'p', 's'})
      ensures StartsWith(Ensured(producer, pred, obj), {'i', 'p', 's'})
      ensures b.source.Some? ==> StartsWith(Ensured(source, pred, obj), {'i', 'p', 's'})
    {
      StartsOne(Ensured(batch, pred, obj));
      StartsOne(Ensured(producer, pred, obj));
      if b.source.Some? {
        StartsOne(Ensured(source, pred, obj));
      }
    }
    StartsOne(Manifest(env, b));
    AllOfHead(p, env, b);
    forall r | r in HeadRecords(env, b) ensures StartsWith(r, {'i', 'p', 's'}) {
      assert p(r);
    }
  }

  lemma StartsOne(r: W.Record)
    requires r.subject != "" && r.subject[0] in {'i', 'p', 's'}
    ensures StartsWith(r, {'i', 'p', 's'})
  {
  }

  // --------------------------------------------------------- claim by claim

  /** Of a claim's entity, a list of claim records states what its own block states. */
  lemma {:induction false} OnlyItsOwnBlock(env: Environment, b: Batch, i: nat, k: nat, pred: string)
    requires ValidBatch(env, b) && i <= |b.claims| && k < |b.claims|
    ensures var entity := ClaimEntity(env, b, b.claims[k]);
            ObjectsOf(ClaimRecords(env, b, i), entity, pred)
            == if i <= k then ObjectsOf(AboutClaim(env, b, b.claims[k]), entity, pred) else []
    decreases |b.claims| - i
  {
    hide AboutClaim, ObjectsOf, ValidBatch, ClaimEntity;
    var entity := ClaimEntity(env, b, b.claims[k]);
    if i == |b.claims| {
      ObjectsOfOne(Manifest(env, b), entity, pred);
    } else {
      var c := b.claims[i];
      EntityIsReserved(env, b, b.claims[k]);
      OnlyItsOwnBlock(env, b, i + 1, k, pred);
      ObjectsConcat(AboutClaim(env, b, c) + Asserted(b, c), ClaimRecords(env, b, i + 1), entity, pred);
      ObjectsConcat(AboutClaim(env, b, c), Asserted(b, c), entity, pred);
      AssertedIsOfTheUser(env, b, c, entity, pred);
      if i != k {
        OtherBlock(env, b, i, k, pred);
      }
    }
  }

  lemma EntityIsReserved(env: Environment, b: Batch, c: Claim)
    ensures Reserved(ClaimEntity(env, b, c))
  {
    hide ClaimEntity, Reserved;
    EntityPrefixes(env, b);
    ReservedPrefixes(ClaimEntity(env, b, c));
  }

  lemma AssertedIsOfTheUser(env: Environment, b: Batch, c: Claim, subject: string, pred: string)
    requires ValidBatch(env, b) && c in b.claims && (Reserved(subject) || IngestName(pred))
    ensures ObjectsOf(Asserted(b, c), subject, pred) == []
  {
    hide ValidBatch, Reserved;
    CandidateIsUserFact(env, b, c);
    NothingStated(Asserted(b, c), subject, pred);
  }

  lemma OthersAreApart(env: Environment, b: Batch, i: nat, k: nat)
    requires ValidBatch(env, b) && i < |b.claims| && k < |b.claims| && i != k
    ensures ClaimEntity(env, b, b.claims[i]) != ClaimEntity(env, b, b.claims[k])
  {
  }

  lemma OtherBlock(env: Environment, b: Batch, i: nat, k: nat, pred: string)
    requires ValidBatch(env, b) && i < |b.claims| && k < |b.claims| && i != k
    ensures ObjectsOf(AboutClaim(env, b, b.claims[i]), ClaimEntity(env, b, b.claims[k]), pred) == []
  {
    OthersAreApart(env, b, i, k);
    FirstLetters(env, b);
    hide AboutClaim, ClaimEntity, BatchEntity, ValidBatch, ObjectsOf;
    SubjectsOfClaim(env, b, b.claims[i]);
    NothingStated(AboutClaim(env, b, b.claims[i]), ClaimEntity(env, b, b.claims[k]), pred);
  }

  lemma ClaimPredicatesDiffer()
    ensures IS_A != INITIAL_STATUS && IS_A != CANDIDATE_SUBJECT && IS_A != CANDIDATE_PREDICATE
    ensures IS_A != CANDIDATE_OBJECT && IS_A != CONFIDENCE_PPM && IS_A != SUPPORTS
    ensures INITIAL_STATUS != CANDIDATE_SUBJECT && INITIAL_STATUS != CANDIDATE_PREDICATE
    ensures INITIAL_STATUS != CANDIDATE_OBJECT && INITIAL_STATUS != CONFIDENCE_PPM && INITIAL_STATUS != SUPPORTS
    ensures CANDIDATE_SUBJECT != CANDIDATE_PREDICATE && CANDIDATE_SUBJECT != CANDIDATE_OBJECT
    ensures CANDIDATE_SUBJECT != CONFIDENCE_PPM && CANDIDATE_SUBJECT != SUPPORTS
    ensures CANDIDATE_PREDICATE != CANDIDATE_OBJECT && CANDIDATE_PREDICATE != CONFIDENCE_PPM
    ensures CANDIDATE_PREDICATE != SUPPORTS
    ensures CANDIDATE_OBJECT != CONFIDENCE_PPM && CANDIDATE_OBJECT != SUPPORTS && CONFIDENCE_PPM != SUPPORTS
  {
  }

  /** What is stated of a claim's entity, by predicate. */
  function Answer(b: Batch, c: Claim, pred: string): seq<W.Object> {
    if pred == "ingest:is_a" then [W.Entity("ingest:claim")]
    else if pred == "ingest:initial_status" then
      [W.Entity(if b.profile == "trusted-facts/v1" then "ingest:accepted" else "ingest:proposed")]
    else if pred == "ingest:candidate_subject" then [W.Entity(c.subject)]
    else if pred == "ingest:candidate_predicate" then [W.Entity(c.pred)]
    else if pred == "ingest:candidate_object" then [ObjectValue(c.obj)]
    else if pred == "ingest:confidence_ppm" && c.confidence.Some? then [W.Number(c.confidence.value)]
    else if pred == "ingest:supports" && b.source.Some? then [W.Entity("source:" + b.source.value.digest)]
    else []
  }

  lemma AnswerInTerms(b: Batch, c: Claim, pred: string)
    ensures Answer(b, c, pred) ==
            if pred == IS_A then [W.Entity(CLAIM_KIND)]
            else if pred == INITIAL_STATUS then [W.Entity(Status(b))]
            else if pred == CANDIDATE_SUBJECT then [W.Entity(c.subject)]
            else if pred == CANDIDATE_PREDICATE then [W.Entity(c.pred)]
            else if pred == CANDIDATE_OBJECT then [ObjectValue(c.obj)]
            else if pred == CONFIDENCE_PPM && c.confidence.Some? then [W.Number(c.confidence.value)]
            else if pred == SUPPORTS && b.source.Some? then [W.Entity(SourceEntity(b))]
            else []
  {
    hide ObjectValue;
  }

  lemma StatedIs(subject: string, pred: string, obj: W.Object, s: string, p: string)
    ensures Stated(Ensured(subject, pred, obj), s, p) == if subject == s && pred == p then [obj] else []
  {
  }

  /** Of six records, one about the batch and five about the entity under different predicates. */
  lemma FiveFacts(batch: string, entity: string, p: string, o: W.Object, ps: seq<string>, os: seq<W.Object>,
                  pred: string)
    requires batch != entity && |ps| == |os| == 5 && NoRepeats(ps)
    ensures ObjectsOf([Ensured(batch, p, o), Ensured(entity, ps[0], os[0]), Ensured(entity, ps[1], os[1]),
                       Ensured(entity, ps[2], os[2]), Ensured(entity, ps[3], os[3]), Ensured(entity, ps[4], os[4])],
                      entity, pred)
         == if pred == ps[0] then [os[0]] else if pred == ps[1] then [os[1]] else if pred == ps[2] then [os[2]]
            else if pred == ps[3] then [os[3]] else if pred == ps[4] then [os[4]] else []
  {
    hide ObjectsOf, Stated, Ensured;
    ObjectsOfSix(Ensured(batch, p, o), Ensured(entity, ps[0], os[0]), Ensured(entity, ps[1], os[1]),
      Ensured(entity, ps[2], os[2]), Ensured(entity, ps[3], os[3]), Ensured(entity, ps[4], os[4]), entity, pred);
    StatedIs(batch, p, o, entity, pred);
    StatedIs(entity, ps[0], os[0], entity, pred);
    StatedIs(entity, ps[1], os[1], entity, pred);
    StatedIs(entity, ps[2], os[2], entity, pred);
    StatedIs(entity, ps[3], os[3], entity, pred);
    StatedIs(entity, ps[4], os[4], entity, pred);
  }

  lemma FivePredicates()
    ensures NoRepeats([IS_A, INITIAL_STATUS, CANDIDATE_SUBJECT, CANDIDATE_PREDICATE, CANDIDATE_OBJECT])
    ensures CONFIDENCE_PPM !in [IS_A, INITIAL_STATUS, CANDIDATE_SUBJECT, CANDIDATE_PREDICATE, CANDIDATE_OBJECT]
    ensures SUPPORTS !in [IS_A, INITIAL_STATUS, CANDIDATE_SUBJECT, CANDIDATE_PREDICATE, CANDIDATE_OBJECT]
  {
  }

  /** The six records every claim leads to. */
  lemma FactsOfClaim(env: Environment, b: Batch, c: Claim, pred: string)
    ensures ObjectsOf(ClaimFacts(env, b, c), ClaimEntity(env, b, c), pred)
         == if pred == CONFIDENCE_PPM || pred == SUPPORTS then [] else Answer(b, c, pred)
  {
    FirstLetters(env, b);
    FivePredicates();
    AnswerInTerms(b, c, pred);
    var batch, entity := BatchEntity(env, b), ClaimEntity(env, b, c);
    assert batch != entity;
    hide ClaimEntity, BatchEntity, ObjectValue, ObjectsOf, Status, SourceEntity, Ensured, Stated, NoRepeats, Answer;
    FiveFacts(batch, entity, PRODUCED, W.Entity(entity),
      [IS_A, INITIAL_STATUS, CANDIDATE_SUBJECT, CANDIDATE_PREDICATE, CANDIDATE_OBJECT],
      [W.Entity(CLAIM_KIND), W.Entity(Status(b)), W.Entity(c.subject), W.Entity(c.pred), ObjectValue(c.obj)], pred);
  }

  lemma OptionsOfClaim(entity: string, b: Batch, c: Claim, pred: string)
    ensures ObjectsOf(ConfidenceRecords(entity, c), entity, pred)
         == if pred == CONFIDENCE_PPM && c.confidence.Some? then [W.Number(c.confidence.value)] else []
    ensures ObjectsOf(SupportRecords(entity, b), entity, pred)
         == if pred == SUPPORTS && b.source.Some? then [W.Entity(SourceEntity(b))] else []
  {
  }

  lemma BlockOfClaim(env: Environment, b: Batch, c: Claim, pred: string)
    ensures ObjectsOf(AboutClaim(env, b, c), ClaimEntity(env, b, c), pred) == Answer(b, c, pred)
  {
    ClaimPredicatesDiffer();
    AnswerInTerms(b, c, pred);
    hide ObjectsOf, ClaimFacts, ConfidenceRecords, SupportRecords, ClaimEntity, SourceEntity, Status, ObjectValue,
      Answer;
    hide IS_A, INITIAL_STATUS, CANDIDATE_SUBJECT, CANDIDATE_PREDICATE, CANDIDATE_OBJECT, CLAIM_KIND, CONFIDENCE_PPM,
      SUPPORTS;
    var entity := ClaimEntity(env, b, c);
    ObjectsConcat(ClaimFacts(env, b, c) + ConfidenceRecords(entity, c), SupportRecords(entity, b), entity, pred);
    ObjectsConcat(ClaimFacts(env, b, c), ConfidenceRecords(entity, c), entity, pred);
    FactsOfClaim(env, b, c, pred);
    OptionsOfClaim(entity, b, c, pred);
  }

  lemma ClaimInTheWhole(env: Environment, b: Batch, k: nat, pred: string)
    requires ValidBatch(env, b) && k < |b.claims|
    ensures var entity := ClaimEntity(env, b, b.claims[k]);
            ObjectsOf(CompiledRecords(env, b), entity, pred) == ObjectsOf(AboutClaim(env, b, b.claims[k]), entity, pred)
  {
    FirstLetters(env, b);
    hide ValidBatch, ObjectsOf, HeadRecords, ClaimRecords, AboutClaim, ClaimEntity;
    var entity := ClaimEntity(env, b, b.claims[k]);
    SubjectsOfHead(env, b);
    NothingStated(HeadRecords(env, b), entity, pred);
    ObjectsConcat(HeadRecords(env, b), ClaimRecords(env, b, 0), entity, pred);
    OnlyItsOwnBlock(env, b, 0, k, pred);
  }

  /**
   Every claim of a valid batch can be read off the compiled records by its
   entity: each part of it is stated exactly once, under its own predicate, and
   nothing else in the request is stated of that entity.
   */
  lemma ClaimsAreOnRecord(env: Environment, b: Batch, k: nat, pred: string)
    requires ValidBatch(env, b) && k < |b.claims|
    ensures ObjectsOf(CompiledRecords(env, b), ClaimEntity(env, b, b.claims[k]), pred) == Answer(b, b.claims[k], pred)
  {
    hide ValidBatch, ObjectsOf, CompiledRecords, AboutClaim, ClaimEntity, Answer;
    ClaimInTheWhole(env, b, k, pred);
    BlockOfClaim(env, b, b.claims[k], pred);
  }

  /**
   A claim goes on record as accepted exactly when what it says goes on record as a
   fact, namely under the trusted profile, and as proposed otherwise.
   */
  lemma AcceptedExactlyWhenAsserted(env: Environment, b: Batch, k: nat)
    requires ValidBatch(env, b) && k < |b.claims|
    ensures var c, rs := b.claims[k], CompiledRecords(env, b);
            var status := ObjectsOf(rs, ClaimEntity(env, b, c), "ingest:initial_status");
            var triple := W.Record(c.subject, c.pred, ObjectValue(c.obj), "", "", "ensure", W.NoDeadline);
            && status == [W.Entity(if triple in rs then "ingest:accepted" else "ingest:proposed")]
            && (triple in rs <==> b.profile == "trusted-facts/v1")
  {
    hide ValidBatch, ObjectsOf, CompiledRecords, ClaimEntity, ObjectValue, Reserved;
    var c, rs := b.claims[k], CompiledRecords(env, b);
    ClaimsAreOnRecord(env, b, k, "ingest:initial_status");
    AnswerInTerms(b, c, "ingest:initial_status");
    ProvenanceCannotBeForged(env, b);
    CandidateIsUserFact(env, b, c);
    var triple := W.Record(c.subject, c.pred, ObjectValue(c.obj), "", "", "ensure", W.NoDeadline);
    assert triple == Candidate(c);
    if Trusted(b) {
      assert MapSeq(Candidate, b.claims)[k] == Candidate(c);
      var i := Preimage(UserFact, rs, Candidate(c));
    }
  }

  function TheEntity(os: seq<W.Object>): Option<string> {
    if |os| == 1 && os[0].Entity? then Some(os[0].name) else None
  }

  /** A claim read off the records by its entity, short of its external ID and evidence. */
  function ReadClaimAt(rs: seq<W.Record>, entity: string): Option<Claim> {
    var subject := TheEntity(ObjectsOf(rs, entity, CANDIDATE_SUBJECT));
    var pred := TheEntity(ObjectsOf(rs, entity, CANDIDATE_PREDICATE));
    var objects, confidence := ObjectsOf(rs, entity, CANDIDATE_OBJECT), ObjectsOf(rs, entity, CONFIDENCE_PPM);
    if subject.Some? && pred.Some? && |objects| == 1 then
      Some(Claim("", subject.value, pred.value,
                 if objects[0].Entity? then Object(objects[0].name, "")
                 else if objects[0].Number? then Object("", FormatUint(objects[0].number)) else Object("", ""),
                 if |confidence| == 1 && confidence[0].Number? then Some(confidence[0].number) else None, []))
    else None
  }

  lemma ReadsAs(rs: seq<W.Record>, entity: string, c: Claim, o: W.Object)
    requires ObjectsOf(rs, entity, CANDIDATE_SUBJECT) == [W.Entity(c.subject)]
    requires ObjectsOf(rs, entity, CANDIDATE_PREDICATE) == [W.Entity(c.pred)]
    requires ObjectsOf(rs, entity, CANDIDATE_OBJECT) == [o]
    requires ObjectsOf(rs, entity, CONFIDENCE_PPM) == if c.confidence.Some? then [W.Number(c.confidence.value)] else []
    requires match o
             case Entity(name) => c.obj == Object(name, "")
             case Number(n) => c.obj == Object("", FormatUint(n))
             case UnsetObject => false
    ensures ReadClaimAt(rs, entity) == Some(c.(externalID := "", evidence := []))
  {
  }

  /** Claims survive compilation: reading a claim's entity back gives the claim. */
  lemma ClaimsReadBack(env: Environment, b: Batch, k: nat)
    requires ValidBatch(env, b) && k < |b.claims|
    ensures ReadClaimAt(CompiledRecords(env, b), ClaimEntity(env, b, b.claims[k]))
         == Some(b.claims[k].(externalID := "", evidence := []))
  {
    var c := b.claims[k];
    ObjectReadsBack(env, b, c);
    hide ValidBatch, ObjectsOf, CompiledRecords, ClaimEntity, ObjectValue, Answer, ReadClaimAt;
    ClaimsAreOnRecord(env, b, k, CANDIDATE_SUBJECT);
    ClaimsAreOnRecord(env, b, k, CANDIDATE_PREDICATE);
    ClaimsAreOnRecord(env, b, k, CANDIDATE_OBJECT);
    ClaimsAreOnRecord(env, b, k, CONFIDENCE_PPM);
    ReadsAs(CompiledRecords(env, b), ClaimEntity(env, b, c), c, ObjectValue(c.obj));
  }

  /** objectValue loses nothing of a valid object: the canonical decimal is recovered from its value. */
  lemma ObjectReadsBack(env: Environment, b: Batch, c: Claim)
    requires ValidBatch(env, b) && c in b.claims
    ensures match ObjectValue(c.obj)
            case Entity(name) => c.obj == Object(name, "")
            case Number(n) => c.obj == Object("", FormatUint(n))
            case UnsetObject => false
  {
    hide DistinctEntities, Reserved, ValidUtf8;
    assert ValidClaim(c, b.source.Some?);
    if c.obj.u64 != "" {
      var n :| 0 <= n <= W.MAX_JS_SAFE_INTEGER && c.obj.u64 == FormatUint(n);
      DecimalsParseBack(n);
    }
  }

  // ----------------------------------------------------------- the batch

  lemma {:induction false} ProducedFrom(env: Environment, b: Batch, i: nat)
    requires ValidBatch(env, b) && i <= |b.claims|
    ensures ObjectsOf(ClaimRecords(env, b, i), BatchEntity(env, b), PRODUCED)
         == MapSeq((c: Claim) => W.Entity(ClaimEntity(env, b, c)), b.claims[i..])
    decreases |b.claims| - i
  {
    hide AboutClaim, ObjectsOf, ValidBatch, ClaimEntity, BatchEntity, PRODUCED;
    var batch := BatchEntity(env, b);
    if i == |b.claims| {
      ObjectsOfOne(Manifest(env, b), batch, PRODUCED);
    } else {
      var c := b.claims[i];
      ProducedFrom(env, b, i + 1);
      ObjectsConcat(AboutClaim(env, b, c) + Asserted(b, c), ClaimRecords(env, b, i + 1), batch, PRODUCED);
      ObjectsConcat(AboutClaim(env, b, c), Asserted(b, c), batch, PRODUCED);
      PredicatesAreIngestNames();
      AssertedIsOfTheUser(env, b, c, batch, PRODUCED);
      ProducedOfClaim(env, b, c);
      assert b.claims[i..][1..] == b.claims[i + 1..];
    }
  }

  lemma ProducedOfClaim(env: Environment, b: Batch, c: Claim)
    ensures ObjectsOf(AboutClaim(env, b, c), BatchEntity(env, b), PRODUCED) == [W.Entity(ClaimEntity(env, b, c))]
  {
    FirstLetters(env, b);
    hide ObjectsOf, ClaimEntity, BatchEntity, SourceEntity, ObjectValue, Status;
    hide PRODUCED, IS_A, INITIAL_STATUS, CANDIDATE_SUBJECT, CANDIDATE_PREDICATE, CANDIDATE_OBJECT, CLAIM_KIND,
      CONFIDENCE_PPM, SUPPORTS;
    var batch, entity := BatchEntity(env, b), ClaimEntity(env, b, c);
    ObjectsOfSix(Named(batch, PRODUCED, entity), Named(entity, IS_A, CLAIM_KIND),
      Named(entity, INITIAL_STATUS, Status(b)),
      Named(entity, CANDIDATE_SUBJECT, c.subject), Named(entity, CANDIDATE_PREDICATE, c.pred),
      Ensured(entity, CANDIDATE_OBJECT, ObjectValue(c.obj)), batch, PRODUCED);
    NothingStated(ConfidenceRecords(entity, c), batch, PRODUCED);
    NothingStated(SupportRecords(entity, b), batch, PRODUCED);
    ObjectsConcat(ClaimFacts(env, b, c) + ConfidenceRecords(entity, c), SupportRecords(entity, b), batch, PRODUCED);
    ObjectsConcat(ClaimFacts(env, b, c), ConfidenceRecords(entity, c), batch, PRODUCED);
  }

  /** The batch entity lists the claim entities in claim order, and the one manifest holds the canonical batch. */
  lemma BatchIsOnRecord(env: Environment, b: Batch)
    requires ValidBatch(env, b)
    ensures ObjectsOf(CompiledRecords(env, b), BatchEntity(env, b), PRODUCED)
         == MapSeq((c: Claim) => W.Entity(ClaimEntity(env, b, c)), b.claims)
    ensures forall r | r in CompiledRecords(env, b) ::
              && (r.pred == MANIFEST <==> r == Manifest(env, b))
              && (r.pred == MANIFEST ==> r.rawText == CanonicalText(env, b))
  {
    AllEnsured(env, b);
    HeadDoesNotProduce(env, b);
    hide ValidBatch, ObjectsOf, ClaimRecords, Manifest, BatchRecords, ProducerRecords, SourceRecords, ClaimEntity,
      BatchEntity, PRODUCED, MANIFEST;
    ObjectsConcat(HeadRecords(env, b), ClaimRecords(env, b, 0), BatchEntity(env, b), PRODUCED);
    ProducedFrom(env, b, 0);
    assert b.claims[0..] == b.claims;
    Regroup(BatchRecords(env, b), Manifest(env, b), ProducerRecords(env, b), SourceRecords(env, b),
      ClaimRecords(env, b, 0));
    forall r | r in CompiledRecords(env, b) ensures r.pred == MANIFEST <==> r == Manifest(env, b) {
      assert r == Manifest(env, b) || r in Ensures(env, b);
      assert r in Ensures(env, b) ==> NotManifest(r);
    }
  }

  predicate ProducesNothing(r: W.Record) { r.pred != PRODUCED }

  lemma HeadDoesNotProduce(env: Environment, b: Batch)
    ensures ObjectsOf(HeadRecords(env, b), BatchEntity(env, b), PRODUCED) == []
  {
    PredicateLengths();
    hide IS_A, PROFILE, PRODUCER, SCHEMA_IDENTITY, SOURCE, ARTIFACT_MODE, MEDIA_TYPE, PRODUCED, MANIFEST, HeadRecords,
      BatchEntity, ProducerEntity, SourceEntity, CanonicalText, ObjectsOf;
    AllOfHead(ProducesNothing, env, b);
    NothingStated(HeadRecords(env, b), BatchEntity(env, b), PRODUCED);
  }
}
