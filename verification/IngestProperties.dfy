/**
 What the compiler guarantees: provenance stays apart from what the candidates say,
 the entities of claims are distinct and depend on nothing but what the claims say
 and where from, and the records of a valid batch meet the write package's rules
 for records.
 */
module IngestProperties {
  import opened Wrappers
  import opened Text
  import opened Json
  import opened JsonText
  import opened Permutations
  import opened Ingest
  import opened IngestValidation
  import opened IngestIdentity
  import opened IngestCompiler
  import W = WriteTypes
  import WV = WriteValidation

  /** The compiled records, read as a typed write request. */
  function RequestOf(records: seq<W.Record>): W.Request {
    W.Request(records, [], [], [], [], W.CREATE_UNKNOWN, W.NoTime)
  }

  ghost predicate All<T(!new)>(p: T -> bool, s: seq<T>) { forall x | x in s :: p(x) }

  lemma AllConcat<T(!new)>(p: T -> bool, a: seq<T>, b: seq<T>)
    ensures All(p, a + b) <==> All(p, a) && All(p, b)
  {
  }

  lemma AllOfNone<T(!new)>(p: T -> bool)
    ensures All(p, [])
  {
  }

  lemma AllOfFour<T(!new)>(p: T -> bool, a: T, b: T, c: T, d: T)
    requires p(a) && p(b) && p(c) && p(d)
    ensures All(p, [a, b, c, d])
  {
  }

  lemma AllOfSix<T(!new)>(p: T -> bool, a: T, b: T, c: T, d: T, e: T, f: T)
    requires p(a) && p(b) && p(c) && p(d) && p(e) && p(f)
    ensures All(p, [a, b, c, d, e, f])
  {
  }

  lemma AllOfHead(p: W.Record -> bool, env: Environment, b: Batch)
    requires All(p, BatchRecords(env, b)) && p(Manifest(env, b))
    requires All(p, ProducerRecords(env, b)) && All(p, SourceRecords(env, b))
    ensures All(p, HeadRecords(env, b))
  {
  }

  lemma AllAboutClaim(p: W.Record -> bool, env: Environment, b: Batch, c: Claim)
    requires All(p, ClaimFacts(env, b, c)) && All(p, ConfidenceRecords(ClaimEntity(env, b, c), c))
    requires All(p, SupportRecords(ClaimEntity(env, b, c), b))
    ensures All(p, AboutClaim(env, b, c))
  {
  }

  // ----------------------------------------------------------- the count

  function One(flag: bool): nat { if flag then 1 else 0 }

  /** Records a batch leads to: six for the batch, four for its source, and those of its claims. */
  function ExpectedForClaims(b: Batch, i: nat): nat
    decreases |b.claims| - i
  {
    if i >= |b.claims| then 0
    else 6 + One(b.claims[i].confidence.Some?) + One(b.source.Some?) + One(Trusted(b)) + ExpectedForClaims(b, i + 1)
  }

  lemma {:induction false} ClaimRecordCount(env: Environment, b: Batch, i: nat)
    ensures |ClaimRecords(env, b, i)| == ExpectedForClaims(b, i)
    decreases |b.claims| - i
  {
    hide ClaimEntity, BatchEntity, Named, Ensured;
    if i < |b.claims| {
      ClaimRecordCount(env, b, i + 1);
    }
  }

  lemma RecordCount(env: Environment, b: Batch)
    ensures |CompiledRecords(env, b)| == 6 + 4 * One(b.source.Some?) + ExpectedForClaims(b, 0)
  {
    hide ClaimEntity, BatchEntity, Named, Ensured;
    ClaimRecordCount(env, b, 0);
  }

  // ----------------------------------------------------------- entities

  /** After validation, the entities are distinct, and so is every claim from every other. */
  lemma EntitiesAreDistinct(env: Environment, b: Batch, i: nat, j: nat)
    requires ValidBatch(env, b) && i < j < |b.claims|
    ensures ClaimEntities(env, b)[i] != ClaimEntities(env, b)[j]
    ensures !SameClaim(b.claims[i], b.claims[j])
  {
    hide ClaimEntity;
    if SameClaim(b.claims[i], b.claims[j]) {
      EntitiesIgnoreTheRun(env, b, b, b.claims[i], b.claims[j]);
    }
  }

  /** Another run, other external IDs, another artifact: the same entities. */
  lemma EntitiesAreStable(env: Environment, b: Batch, b': Batch)
    requires b.profile == b'.profile && SourceDigest(b) == SourceDigest(b') && |b.claims| == |b'.claims|
    requires b.producer == b'.producer.(runID := b.producer.runID)
    requires forall i | 0 <= i < |b.claims| :: SameClaim(b.claims[i], b'.claims[i])
    ensures ClaimEntities(env, b) == ClaimEntities(env, b')
  {
  }

  /** Listing the claims in another order lists their entities in that order. */
  lemma EntitiesFollowTheClaims(env: Environment, b: Batch, claims: seq<Claim>, at: nat -> nat)
    requires |claims| == |b.claims| && forall i | 0 <= i < |claims| :: at(i) < |claims| && claims[i] == b.claims[at(i)]
    ensures forall i | 0 <= i < |claims| ::
              ClaimEntities(env, b.(claims := claims))[i] == ClaimEntities(env, b)[at(i)]
  {
    hide ClaimEntity;
    forall i | 0 <= i < |claims| {
      EntitiesIgnoreTheRun(env, b.(claims := claims), b, claims[i], b.claims[at(i)]);
    }
  }

  // ---------------------------------------------- provenance and user facts

  predicate IngestName(s: string) { "ingest:" <= s }

  /** A record the compiler makes about a batch, never one a user states. */
  predicate IsProvenance(r: W.Record) { Reserved(r.subject) && IngestName(r.pred) }

  predicate IsUserFact(r: W.Record) { !Reserved(r.subject) && !IngestName(r.pred) }

  lemma ReservedPrefixes(s: string)
    ensures IngestName(s) ==> Reserved(s)
    ensures "ingestion:sha256:" <= s || "claim:sha256:" <= s || "producer:sha256:" <= s || "source:sha256:" <= s
            ==> Reserved(s)
  {
    assert RESERVED[0] == "ingest:" && RESERVED[1] == "ingestion:sha256:" && RESERVED[2] == "claim:sha256:";
    assert RESERVED[3] == "producer:sha256:" && RESERVED[4] == "source:sha256:";
  }

  lemma EntityPrefixes(env: Environment, b: Batch)
    ensures "ingestion:sha256:" <= BatchEntity(env, b)
    ensures "producer:sha256:" <= ProducerEntity(env, b.producer)
    ensures forall c :: "claim:sha256:" <= ClaimEntity(env, b, c)
    ensures ValidBatch(env, b) && b.source.Some? ==> "source:sha256:" <= SourceEntity(b)
  {
    hide Marshal, ClaimIdentity;
    if ValidBatch(env, b) && b.source.Some? {
      var digest := b.source.value.digest;
      assert digest == "sha256:" + digest[7..];
      assert "source:" + ("sha256:" + digest[7..]) == "source:sha256:" + digest[7..];
    }
    var sum := env.sum(CanonicalText(env, b));
    assert "ingestion:" + ("sha256:" + sum) == "ingestion:sha256:" + sum;
  }

  lemma HeadIsProvenance(env: Environment, b: Batch)
    requires ValidBatch(env, b)
    ensures All(IsProvenance, HeadRecords(env, b))
  {
    hide ValidBatch, BatchEntity, ProducerEntity, SourceEntity, CanonicalText, HeadRecords, Reserved;
    EntityPrefixes(env, b);
    ReservedPrefixes(BatchEntity(env, b));
    ReservedPrefixes(ProducerEntity(env, b.producer));
    ReservedPrefixes(SourceEntity(b));
    AllOfHead(IsProvenance, env, b);
  }

  lemma AboutClaimIsProvenance(env: Environment, b: Batch, c: Claim)
    ensures All(IsProvenance, AboutClaim(env, b, c))
  {
    hide ValidBatch, Reserved, BatchEntity, ClaimEntity, SourceEntity, AboutClaim, ObjectValue;
    EntityPrefixes(env, b);
    ReservedPrefixes(BatchEntity(env, b));
    ReservedPrefixes(ClaimEntity(env, b, c));
    AllAboutClaim(IsProvenance, env, b, c);
  }

  lemma CandidateIsUserFact(env: Environment, b: Batch, c: Claim)
    requires ValidBatch(env, b) && c in b.claims
    ensures IsUserFact(Candidate(c))
  {
    hide Reserved, DistinctEntities;
    assert ValidClaim(c, b.source.Some?);
    ReservedPrefixes(c.pred);
  }

  /** The record itself, if the compiler could not have made it for provenance. */
  function UserFact(r: W.Record): Option<W.Record> {
    if Reserved(r.subject) then None else Some(r)
  }

  lemma {:induction false} NoUserFacts(records: seq<W.Record>)
    requires All(IsProvenance, records)
    ensures FilterMap(UserFact, records) == []
  {
    hide Reserved;
    if records != [] {
      assert records[0] in records;
      NoUserFacts(records[1..]);
    }
  }

  lemma {:induction false} UserFactsOfClaims(env: Environment, b: Batch, i: nat)
    requires ValidBatch(env, b) && i <= |b.claims|
    ensures FilterMap(UserFact, ClaimRecords(env, b, i))
         == if Trusted(b) then MapSeq(Candidate, b.claims[i..]) else []
    decreases |b.claims| - i
  {
    hide ValidBatch, AboutClaim, Asserted, FilterMap, UserFact, Candidate;
    if i < |b.claims| {
      var c := b.claims[i];
      UserFactsOfClaims(env, b, i + 1);
      UserFactsOfClaim(env, b, c);
      FilterMapConcat(UserFact, AboutClaim(env, b, c) + Asserted(b, c), ClaimRecords(env, b, i + 1));
      assert b.claims[i..][1..] == b.claims[i + 1..];
    } else {
      NoImages(UserFact);
    }
  }

  lemma UserFactsOfClaim(env: Environment, b: Batch, c: Claim)
    requires ValidBatch(env, b) && c in b.claims
    ensures FilterMap(UserFact, AboutClaim(env, b, c) + Asserted(b, c)) == if Trusted(b) then [Candidate(c)] else []
  {
    hide ValidBatch, Reserved, AboutClaim, Candidate, FilterMap;
    AboutClaimIsProvenance(env, b, c);
    NoUserFacts(AboutClaim(env, b, c));
    CandidateIsUserFact(env, b, c);
    Singleton(UserFact, Candidate(c));
    NoImages(UserFact);
    FilterMapConcat(UserFact, AboutClaim(env, b, c), Asserted(b, c));
  }

  /**
   Provenance cannot be forged, and user facts cannot be smuggled: of the records
   compiled from a valid batch, those about a subject outside the compiler's
   namespaces are exactly the candidate triples in claim order for trusted facts,
   and none for knowledge proposals; every other record is provenance.
   */
  lemma ProvenanceCannotBeForged(env: Environment, b: Batch)
    requires ValidBatch(env, b)
    ensures FilterMap(UserFact, CompiledRecords(env, b)) == if Trusted(b) then MapSeq(Candidate, b.claims) else []
    ensures forall r | r in CompiledRecords(env, b) :: IsProvenance(r) || (IsUserFact(r) && Trusted(b))
  {
    hide ValidBatch, Reserved, HeadRecords, ClaimRecords, FilterMap;
    HeadIsProvenance(env, b);
    NoUserFacts(HeadRecords(env, b));
    UserFactsOfClaims(env, b, 0);
    FilterMapConcat(UserFact, HeadRecords(env, b), ClaimRecords(env, b, 0));
    assert b.claims[0..] == b.claims;
    forall r | r in ClaimRecords(env, b, 0) ensures IsProvenance(r) || (IsUserFact(r) && Trusted(b)) {
      ClaimRecordIsEither(env, b, 0, r);
    }
  }

  lemma {:induction false} ClaimRecordIsEither(env: Environment, b: Batch, i: nat, r: W.Record)
    requires ValidBatch(env, b) && r in ClaimRecords(env, b, i)
    ensures exists k :: i <= k < |b.claims|
                        && ((r in AboutClaim(env, b, b.claims[k]) && IsProvenance(r))
                            || (Trusted(b) && r == Candidate(b.claims[k]) && IsUserFact(r)))
    decreases |b.claims| - i
  {
    hide ValidBatch, AboutClaim, Candidate, IsProvenance, IsUserFact;
    AboutClaimIsProvenance(env, b, b.claims[i]);
    CandidateIsUserFact(env, b, b.claims[i]);
    if r in ClaimRecords(env, b, i + 1) {
      ClaimRecordIsEither(env, b, i + 1, r);
    }
  }

  // ------------------------------------------ the write package's own rules

  lemma Prefixed(prefix: string, s: string)
    requires Ascii(prefix) && prefix != "" && ValidUtf8(s)
    ensures WV.ValidLabel(prefix + s)
  {
    AsciiIsValidUtf8(prefix);
    ValidUtf8Concatenates(prefix, s);
  }

  lemma ClaimEntitiesAreLabels(env: Environment, b: Batch)
    requires Sound(env)
    ensures forall c :: WV.ValidLabel(ClaimEntity(env, b, c))
  {
    hide Marshal, ClaimIdentity, ValidUtf8;
    forall c ensures WV.ValidLabel(ClaimEntity(env, b, c)) {
      SumIsAscii(env, "claim:sha256:", ClaimText(env, b, c));
    }
  }

  lemma ProducerEntityIsALabel(env: Environment, p: Producer)
    requires Sound(env)
    ensures WV.ValidLabel(ProducerEntity(env, p))
  {
    hide Marshal, ValidUtf8;
    SumIsAscii(env, "producer:sha256:", ProducerText(env, p));
  }

  /** Names the compiler derives are labels. */
  lemma EntitiesAreLabels(env: Environment, b: Batch)
    requires Sound(env) && ValidBatch(env, b)
    ensures WV.ValidLabel(BatchEntity(env, b)) && WV.ValidLabel(ProducerEntity(env, b.producer))
    ensures b.source.Some? ==> WV.ValidLabel(SourceEntity(b))
    ensures forall c :: WV.ValidLabel(ClaimEntity(env, b, c))
  {
    hide Marshal, ClaimEntity, ProducerEntity, ValidUtf8, DistinctEntities, CanonicalText;
    SumIsAscii(env, "sha256:", CanonicalText(env, b));
    Prefixed("ingestion:", "sha256:" + env.sum(CanonicalText(env, b)));
    ProducerEntityIsALabel(env, b.producer);
    ClaimEntitiesAreLabels(env, b);
    if b.source.Some? {
      IdentitiesAreUtf8(b.source.value.digest);
      Prefixed("source:", b.source.value.digest);
    }
  }

  lemma AsciiLabel(s: string)
    requires Ascii(s) && s != ""
    ensures WV.ValidLabel(s)
  {
    AsciiIsValidUtf8(s);
  }

  lemma NamedIsValid(subject: string, pred: string, name: string)
    requires WV.ValidLabel(subject) && WV.ValidLabel(pred) && WV.ValidLabel(name)
    ensures WV.ValidRecord(Named(subject, pred, name))
  {
  }

  /** The words of the compiler's own vocabulary are labels. */
  lemma BatchWordsAreLabels()
    ensures WV.ValidLabel(IS_A) && WV.ValidLabel(PROFILE) && WV.ValidLabel(BATCH) && WV.ValidLabel(MANIFEST)
  {
    hide WV.ValidLabel;
    AsciiLabel(IS_A);
    AsciiLabel(PROFILE);
    AsciiLabel(BATCH);
    AsciiLabel(MANIFEST);
  }

  lemma ProducerWordsAreLabels()
    ensures WV.ValidLabel(IS_A) && WV.ValidLabel(PRODUCER) && WV.ValidLabel(SCHEMA_IDENTITY)
  {
    hide WV.ValidLabel;
    AsciiLabel(IS_A);
    AsciiLabel(PRODUCER);
    AsciiLabel(SCHEMA_IDENTITY);
  }

  lemma SourceWordsAreLabels()
    ensures WV.ValidLabel(IS_A) && WV.ValidLabel(SOURCE) && WV.ValidLabel(ARTIFACT_MODE) && WV.ValidLabel(MEDIA_TYPE)
  {
    hide WV.ValidLabel;
    AsciiLabel(IS_A);
    AsciiLabel(SOURCE);
    AsciiLabel(ARTIFACT_MODE);
    AsciiLabel(MEDIA_TYPE);
  }

  lemma ClaimWordsAreLabels()
    ensures WV.ValidLabel(PRODUCED) && WV.ValidLabel(IS_A) && WV.ValidLabel(CLAIM_KIND) && WV.ValidLabel(INITIAL_STATUS)
    ensures WV.ValidLabel(ACCEPTED) && WV.ValidLabel(PROPOSED)
  {
    hide WV.ValidLabel;
    AsciiLabel(PRODUCED);
    AsciiLabel(IS_A);
    AsciiLabel(CLAIM_KIND);
    AsciiLabel(INITIAL_STATUS);
    AsciiLabel(ACCEPTED);
    AsciiLabel(PROPOSED);
  }

  lemma CandidateWordsAreLabels()
    ensures WV.ValidLabel(CANDIDATE_SUBJECT) && WV.ValidLabel(CANDIDATE_PREDICATE) && WV.ValidLabel(CANDIDATE_OBJECT)
  {
    hide WV.ValidLabel;
    AsciiLabel(CANDIDATE_SUBJECT);
    AsciiLabel(CANDIDATE_PREDICATE);
    AsciiLabel(CANDIDATE_OBJECT);
  }

  lemma SupportWordsAreLabels()
    ensures WV.ValidLabel(CONFIDENCE_PPM) && WV.ValidLabel(SUPPORTS)
  {
    hide WV.ValidLabel;
    AsciiLabel(CONFIDENCE_PPM);
    AsciiLabel(SUPPORTS);
  }

  lemma ManifestIsValid(env: Environment, b: Batch)
    requires Sound(env) && ValidBatch(env, b)
    ensures WV.ValidRecord(Manifest(env, b))
  {
    hide ValidBatch, ValidUtf8, BatchEntity, Write;
    EntitiesAreLabels(env, b);
    BatchWordsAreLabels();
    TextIsUtf8(BatchJson(b), env.quote);
    ConstantsAreUtf8();
  }

  ghost predicate MeetsRecordRules(r: W.Record) { WV.ValidRecord(r) }

  lemma BatchRecordsAreValid(env: Environment, b: Batch)
    requires Sound(env) && ValidBatch(env, b)
    ensures All(MeetsRecordRules, BatchRecords(env, b))
  {
    BatchIsUtf8(env, b);
    BatchWordsAreLabels();
    EntitiesAreLabels(env, b);
    hide ValidBatch, BatchEntity, Sound, WV.ValidRecord, WV.ValidLabel, Named, IS_A, PROFILE, BATCH;
    NamedIsValid(BatchEntity(env, b), IS_A, BATCH);
    NamedIsValid(BatchEntity(env, b), PROFILE, "ingest:profile:" + b.profile);
  }

  lemma ProducerRecordsAreValid(env: Environment, b: Batch)
    requires Sound(env) && ValidBatch(env, b)
    ensures All(MeetsRecordRules, ProducerRecords(env, b))
  {
    BatchIsUtf8(env, b);
    ProducerWordsAreLabels();
    EntitiesAreLabels(env, b);
    hide ValidBatch, BatchEntity, ProducerEntity, Sound, WV.ValidRecord, WV.ValidLabel, Named, IS_A, PRODUCER,
      SCHEMA_IDENTITY;
    var producer := ProducerEntity(env, b.producer);
    NamedIsValid(BatchEntity(env, b), PRODUCER, producer);
    NamedIsValid(producer, IS_A, PRODUCER);
    NamedIsValid(producer, SCHEMA_IDENTITY, b.producer.schemaIdentity);
  }

  lemma SourceRecordsAreValid(env: Environment, b: Batch)
    requires Sound(env) && ValidBatch(env, b)
    ensures All(MeetsRecordRules, SourceRecords(env, b))
  {
    BatchIsUtf8(env, b);
    SourceWordsAreLabels();
    EntitiesAreLabels(env, b);
    hide ValidBatch, BatchEntity, SourceEntity, Sound, WV.ValidRecord, WV.ValidLabel, Named, IS_A, SOURCE,
      ARTIFACT_MODE, MEDIA_TYPE, All;
    if b.source.Some? {
      var entity, source := BatchEntity(env, b), SourceEntity(b);
      var mode := "ingest:artifact:" + b.source.value.artifact.mode;
      var mediaType := "media-type:" + b.source.value.mediaType;
      NamedIsValid(entity, SOURCE, source);
      NamedIsValid(entity, ARTIFACT_MODE, mode);
      NamedIsValid(source, IS_A, SOURCE);
      NamedIsValid(source, MEDIA_TYPE, mediaType);
      AllOfFour(MeetsRecordRules, Named(entity, SOURCE, source), Named(entity, ARTIFACT_MODE, mode),
        Named(source, IS_A, SOURCE), Named(source, MEDIA_TYPE, mediaType));
    } else {
      AllOfNone(MeetsRecordRules);
    }
  }

  lemma HeadIsValid(env: Environment, b: Batch)
    requires Sound(env) && ValidBatch(env, b)
    ensures All(MeetsRecordRules, HeadRecords(env, b))
  {
    hide ValidBatch, Sound, WV.ValidRecord, Manifest, BatchRecords, ProducerRecords, SourceRecords, HeadRecords, All;
    BatchRecordsAreValid(env, b);
    ManifestIsValid(env, b);
    ProducerRecordsAreValid(env, b);
    SourceRecordsAreValid(env, b);
    AllOfHead(MeetsRecordRules, env, b);
  }

  /** The strings of a valid batch that end up as labels. */
  lemma BatchIsUtf8(env: Environment, b: Batch)
    requires ValidBatch(env, b)
    ensures WV.ValidLabel("ingest:profile:" + b.profile) && WV.ValidLabel(b.producer.schemaIdentity)
    ensures b.source.Some? ==>
              && WV.ValidLabel("ingest:artifact:" + b.source.value.artifact.mode)
              && WV.ValidLabel("media-type:" + b.source.value.mediaType)
  {
    hide ValidUtf8, DistinctEntities;
    ConstantsAreUtf8();
    Prefixed("ingest:profile:", b.profile);
    IdentitiesAreUtf8(b.producer.schemaIdentity);
    if b.source.Some? {
      Prefixed("ingest:artifact:", b.source.value.artifact.mode);
      Prefixed("media-type:", b.source.value.mediaType);
    }
  }

  lemma ClaimLabels(env: Environment, b: Batch, c: Claim)
    requires ValidBatch(env, b) && c in b.claims
    ensures WV.ValidLabel(c.subject) && WV.ValidLabel(c.pred) && WV.ValidObject(ObjectValue(c.obj))
    ensures c.confidence.Some? ==> WV.ValidObject(W.Number(c.confidence.value))
  {
    hide ValidUtf8, DistinctEntities, Reserved;
    assert ValidClaim(c, b.source.Some?);
    if c.obj.u64 != "" {
      SafeDecimalsAreParsed(c.obj.u64);
    }
  }

  lemma ClaimFactsAreValid(env: Environment, b: Batch, c: Claim)
    requires Sound(env) && ValidBatch(env, b) && c in b.claims
    ensures All(MeetsRecordRules, ClaimFacts(env, b, c))
  {
    ClaimLabels(env, b, c);
    ClaimWordsAreLabels();
    CandidateWordsAreLabels();
    EntitiesAreLabels(env, b);
    hide ValidBatch, BatchEntity, ClaimEntity, Sound, WV.ValidRecord, WV.ValidLabel, WV.ValidObject, ObjectValue,
      Named, Ensured, PRODUCED, IS_A, CLAIM_KIND, INITIAL_STATUS, CANDIDATE_SUBJECT, CANDIDATE_PREDICATE,
      CANDIDATE_OBJECT, All;
    var entity := ClaimEntity(env, b, c);
    NamedIsValid(BatchEntity(env, b), PRODUCED, entity);
    NamedIsValid(entity, IS_A, CLAIM_KIND);
    NamedIsValid(entity, INITIAL_STATUS, Status(b));
    NamedIsValid(entity, CANDIDATE_SUBJECT, c.subject);
    NamedIsValid(entity, CANDIDATE_PREDICATE, c.pred);
    ValidEnsured(entity, CANDIDATE_OBJECT, ObjectValue(c.obj));
    AllOfSix(MeetsRecordRules, Named(BatchEntity(env, b), PRODUCED, entity), Named(entity, IS_A, CLAIM_KIND),
      Named(entity, INITIAL_STATUS, Status(b)), Named(entity, CANDIDATE_SUBJECT, c.subject),
      Named(entity, CANDIDATE_PREDICATE, c.pred), Ensured(entity, CANDIDATE_OBJECT, ObjectValue(c.obj)));
  }

  lemma AboutClaimIsValid(env: Environment, b: Batch, c: Claim)
    requires Sound(env) && ValidBatch(env, b) && c in b.claims
    ensures All(MeetsRecordRules, AboutClaim(env, b, c))
  {
    ClaimFactsAreValid(env, b, c);
    ClaimLabels(env, b, c);
    SupportWordsAreLabels();
    EntitiesAreLabels(env, b);
    hide ValidBatch, ClaimFacts, ClaimEntity, SourceEntity, Sound, WV.ValidRecord, WV.ValidLabel, WV.ValidObject,
      Named, Ensured, AboutClaim, CONFIDENCE_PPM, SUPPORTS;
    var entity := ClaimEntity(env, b, c);
    if c.confidence.Some? {
      ValidEnsured(entity, CONFIDENCE_PPM, W.Number(c.confidence.value));
    }
    if b.source.Some? {
      NamedIsValid(entity, SUPPORTS, SourceEntity(b));
    }
    AllAboutClaim(MeetsRecordRules, env, b, c);
  }

  lemma ValidEnsured(subject: string, pred: string, obj: W.Object)
    requires WV.ValidLabel(subject) && WV.ValidLabel(pred) && WV.ValidObject(obj)
    ensures WV.ValidRecord(Ensured(subject, pred, obj))
  {
  }

  lemma CandidateIsValid(env: Environment, b: Batch, c: Claim)
    requires ValidBatch(env, b) && c in b.claims
    ensures WV.ValidRecord(Candidate(c))
  {
    ClaimLabels(env, b, c);
  }

  /** Every compiled record meets the write package's record rules. */
  lemma CompiledRecordsAreValid(env: Environment, b: Batch)
    requires Sound(env) && ValidBatch(env, b)
    ensures forall r | r in CompiledRecords(env, b) :: WV.ValidRecord(r)
  {
    hide ValidBatch, HeadRecords, ClaimRecords, WV.ValidRecord, IsProvenance, IsUserFact, AboutClaim, Candidate;
    HeadIsValid(env, b);
    forall r | r in ClaimRecords(env, b, 0) ensures WV.ValidRecord(r) {
      ClaimRecordIsEither(env, b, 0, r);
      var k :| 0 <= k < |b.claims| && (r in AboutClaim(env, b, b.claims[k]) || r == Candidate(b.claims[k]));
      AboutClaimIsValid(env, b, b.claims[k]);
      CandidateIsValid(env, b, b.claims[k]);
    }
  }
}
