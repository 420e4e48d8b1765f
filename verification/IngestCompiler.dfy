/** The ingestion compiler: a batch of claims turned into one facts write. */
module IngestCompiler {
  import opened Wrappers
  import opened Text
  import opened Json
  import opened Ingest
  import opened IngestValidation
  import W = WriteTypes
  import WriteWire

  // The compiler's own vocabulary.
  const IS_A := "ingest:is_a"
  const PROFILE := "ingest:profile"
  const PRODUCER := "ingest:producer"
  const SCHEMA_IDENTITY := "ingest:schema_identity"
  const SOURCE := "ingest:source"
  const BATCH := "ingest:batch"
  const ARTIFACT_MODE := "ingest:artifact_mode"
  const MEDIA_TYPE := "ingest:media_type"
  const MANIFEST := "ingest:manifest"
  const PRODUCED := "ingest:produced"
  const INITIAL_STATUS := "ingest:initial_status"
  const CANDIDATE_SUBJECT := "ingest:candidate_subject"
  const CANDIDATE_PREDICATE := "ingest:candidate_predicate"
  const CANDIDATE_OBJECT := "ingest:candidate_object"
  const CONFIDENCE_PPM := "ingest:confidence_ppm"
  const SUPPORTS := "ingest:supports"
  const CLAIM_KIND := "ingest:claim"
  const ACCEPTED := "ingest:accepted"
  const PROPOSED := "ingest:proposed"

  // ------------------------------------------------------- what is emitted

  // A compiled record has no tense and no deadline; W.Record stands for it.
  function Ensured(subject: string, pred: string, obj: W.Object): W.Record {
    W.Record(subject, pred, obj, "", "", W.ENSURE, W.NoDeadline)
  }

  function Named(subject: string, pred: string, name: string): W.Record { Ensured(subject, pred, W.Entity(name)) }

  function BatchEntity(env: Environment, b: Batch): string { "ingestion:" + Digest(env, CanonicalText(env, b)) }

  function SourceEntity(b: Batch): string { if b.source.Some? then "source:" + b.source.value.digest else "" }

  function ObjectValue(o: Object): W.Object {
    if o.entity != "" then W.Entity(o.entity)
    else
      var value := ParseUint(o.u64);
      W.Number(if value.Some? then value.value else 0)
  }

  predicate Trusted(b: Batch) { b.profile == TRUSTED_FACTS }

  function Manifest(env: Environment, b: Batch): W.Record {
    var entity := BatchEntity(env, b);
    W.Record(entity, MANIFEST, W.Entity(entity), "", CanonicalText(env, b), W.APPEND, W.NoDeadline)
  }

  function BatchRecords(env: Environment, b: Batch): seq<W.Record> {
    var entity := BatchEntity(env, b);
    [Named(entity, IS_A, BATCH), Named(entity, PROFILE, "ingest:profile:" + b.profile)]
  }

  function ProducerRecords(env: Environment, b: Batch): seq<W.Record> {
    var producer := ProducerEntity(env, b.producer);
    [Named(BatchEntity(env, b), PRODUCER, producer), Named(producer, IS_A, PRODUCER),
     Named(producer, SCHEMA_IDENTITY, b.producer.schemaIdentity)]
  }

  function SourceRecords(env: Environment, b: Batch): seq<W.Record> {
    if b.source.None? then []
    else
      var entity, source := BatchEntity(env, b), SourceEntity(b);
      [Named(entity, SOURCE, source),
       Named(entity, ARTIFACT_MODE, "ingest:artifact:" + b.source.value.artifact.mode),
       Named(source, IS_A, SOURCE),
       Named(source, MEDIA_TYPE, "media-type:" + b.source.value.mediaType)]
  }

  function ConfidenceRecords(entity: string, c: Claim): seq<W.Record> {
    if c.confidence.Some? then [Ensured(entity, CONFIDENCE_PPM, W.Number(c.confidence.value))] else []
  }

  function SupportRecords(entity: string, b: Batch): seq<W.Record> {
    if b.source.Some? then [Named(entity, SUPPORTS, SourceEntity(b))] else []
  }

  function Status(b: Batch): string { if Trusted(b) then ACCEPTED else PROPOSED }

  function ClaimFacts(env: Environment, b: Batch, c: Claim): seq<W.Record> {
    var entity := ClaimEntity(env, b, c);
    [Named(BatchEntity(env, b), PRODUCED, entity), Named(entity, IS_A, CLAIM_KIND),
     Named(entity, INITIAL_STATUS, Status(b)), Named(entity, CANDIDATE_SUBJECT, c.subject),
     Named(entity, CANDIDATE_PREDICATE, c.pred), Ensured(entity, CANDIDATE_OBJECT, ObjectValue(c.obj))]
  }

  /** What is said about a claim. */
  function AboutClaim(env: Environment, b: Batch, c: Claim): seq<W.Record> {
    var entity := ClaimEntity(env, b, c);
    ClaimFacts(env, b, c) + ConfidenceRecords(entity, c) + SupportRecords(entity, b)
  }

  /** What the claim says. */
  function Candidate(c: Claim): W.Record { Ensured(c.subject, c.pred, ObjectValue(c.obj)) }

  function Asserted(b: Batch, c: Claim): seq<W.Record> { if Trusted(b) then [Candidate(c)] else [] }

  function ClaimRecords(env: Environment, b: Batch, i: nat): seq<W.Record>
    decreases |b.claims| - i
  {
    if i >= |b.claims| then []
    else AboutClaim(env, b, b.claims[i]) + Asserted(b, b.claims[i]) + ClaimRecords(env, b, i + 1)
  }

  function HeadRecords(env: Environment, b: Batch): seq<W.Record> {
    BatchRecords(env, b) + [Manifest(env, b)] + ProducerRecords(env, b) + SourceRecords(env, b)
  }

  function CompiledRecords(env: Environment, b: Batch): seq<W.Record> {
    HeadRecords(env, b) + ClaimRecords(env, b, 0)
  }

  function ClaimEntities(env: Environment, b: Batch): seq<string> {
    MapSeq((c: Claim) => ClaimEntity(env, b, c), b.claims)
  }

  // ---------------------------------------------------------- the compiler

  datatype Output = Output(records: seq<W.Record>, producerEntity: string, sourceEntity: string,
                           claimEntities: seq<string>)

  method CompileHead(env: Environment, b: Batch) returns (records: seq<W.Record>, producer: string, source: string)
    ensures records == HeadRecords(env, b) && producer == ProducerEntity(env, b.producer) && source == SourceEntity(b)
  {
    hide Marshal, ProducerEntity, Digest;
    var canonical := CanonicalText(env, b);
    var entity := "ingestion:" + Digest(env, canonical);
    records := [];
    records := records + [Named(entity, IS_A, BATCH)];
    records := records + [Named(entity, PROFILE, "ingest:profile:" + b.profile)];
    records := records
      + [W.Record(entity, MANIFEST, W.Entity(entity), "", canonical, W.APPEND, W.NoDeadline)];
    producer := ProducerEntity(env, b.producer);
    records := records + [Named(entity, PRODUCER, producer)];
    records := records + [Named(producer, IS_A, PRODUCER)];
    records := records + [Named(producer, SCHEMA_IDENTITY, b.producer.schemaIdentity)];
    source := "";
    if b.source.Some? {
      source := "source:" + b.source.value.digest;
      records := records + [Named(entity, SOURCE, source)];
      records := records + [Named(entity, ARTIFACT_MODE, "ingest:artifact:" + b.source.value.artifact.mode)];
      records := records + [Named(source, IS_A, SOURCE)];
      records := records + [Named(source, MEDIA_TYPE, "media-type:" + b.source.value.mediaType)];
    }
  }

  method CompileClaim(env: Environment, b: Batch, c: Claim, entity: string, source: string)
    returns (records: seq<W.Record>)
    requires entity == ClaimEntity(env, b, c) && source == SourceEntity(b)
    ensures records == AboutClaim(env, b, c) + Asserted(b, c)
  {
    hide Marshal, ClaimEntity, BatchEntity, Named, Ensured, ObjectValue;
    var status := PROPOSED;
    if b.profile == TRUSTED_FACTS {
      status := ACCEPTED;
    }
    records := [Named(BatchEntity(env, b), PRODUCED, entity)];
    records := records + [Named(entity, IS_A, CLAIM_KIND)];
    records := records + [Named(entity, INITIAL_STATUS, status)];
    records := records + [Named(entity, CANDIDATE_SUBJECT, c.subject)];
    records := records + [Named(entity, CANDIDATE_PREDICATE, c.pred)];
    records := records + [Ensured(entity, CANDIDATE_OBJECT, ObjectValue(c.obj))];
    if c.confidence.Some? {
      records := records + [Ensured(entity, CONFIDENCE_PPM, W.Number(c.confidence.value))];
    }
    assert records == AboutClaim(env, b, c)[..|records|];
    if source != "" {
      records := records + [Named(entity, SUPPORTS, source)];
    }
    assert records == AboutClaim(env, b, c);
    if b.profile == TRUSTED_FACTS {
      records := records + [Ensured(c.subject, c.pred, ObjectValue(c.obj))];
    }
  }

  /** compile: it fails only on a claim entity met before. */
  method CompileRecords(env: Environment, b: Batch) returns (r: Result<Output, string>)
    ensures r.Ok? <==> DistinctEntities(env, b)
    ensures r.Ok? ==> r.value == Output(CompiledRecords(env, b), ProducerEntity(env, b.producer), SourceEntity(b),
                                        ClaimEntities(env, b))
  {
    hide Marshal, ClaimEntity, AboutClaim, Asserted, HeadRecords, ProducerEntity, DistinctEntities;
    NoneSeenBefore(env, b);
    var records, producer, source := CompileHead(env, b);
    var seen: set<string> := {};
    var entities: seq<string> := [];
    var i := 0;
    while i < |b.claims|
      invariant 0 <= i <= |b.claims|
      invariant records + ClaimRecords(env, b, i) == CompiledRecords(env, b)
      invariant seen == set j | 0 <= j < i :: ClaimEntity(env, b, b.claims[j])
      invariant entities == MapSeq((c: Claim) => ClaimEntity(env, b, c), b.claims[..i])
      invariant forall k | 0 <= k < i :: !SeenBefore(env, b, k)
    {
      var c := b.claims[i];
      var entity := ClaimEntity(env, b, c);
      if entity in seen {
        assert SeenBefore(env, b, i);
        return Err(c.externalID);
      }
      seen := seen + {entity};
      MapSeqSnoc((c: Claim) => ClaimEntity(env, b, c), b.claims, i);
      entities := entities + [entity];
      var emitted := CompileClaim(env, b, c, entity, source);
      assert records + (AboutClaim(env, b, c) + Asserted(b, c) + ClaimRecords(env, b, i + 1))
          == (records + emitted) + ClaimRecords(env, b, i + 1);
      records := records + emitted;
      i := i + 1;
    }
    assert b.claims[..i] == b.claims;
    assert records + [] == records;
    r := Ok(Output(records, producer, source, entities));
  }

  // --------------------------------------------------------- the wire tree

  function RecordEntries(r: W.Record): seq<Entry> {
    [Entry("subject", Some(Str(r.subject))), Entry("predicate", Some(Str(r.pred))),
     Entry("object", Some(WriteWire.EncodeObject(r.obj))), Entry("raw_text", StrOrOmit(r.rawText)),
     Entry("mode", StrOrOmit(r.mode))]
  }

  function RecordJson(r: W.Record): Json { Obj(Compact(RecordEntries(r))) }

  /** The compiler's own request encoding. */
  function WriteJson(records: seq<W.Record>): Json {
    Obj(Compact(
      [Entry("write", Some(Str("facts"))), Entry("record", Some(Arr(MapSeq(RecordJson, records)))),
       Entry("vocabulary", Some(Obj(Compact([Entry("on_unknown", Some(Str(W.CREATE_UNKNOWN)))]))))]))
  }

  function WriteText(env: Environment, b: Batch): string { Marshal(env, WriteJson(CompiledRecords(env, b))) }

  // ------------------------------------------------------------ the whole

  datatype Compiled = Compiled(
    batchDigest: string, writeDigest: string, recordCount: nat, batchEntity: string, producerEntity: string,
    sourceEntity: string, claimEntities: seq<string>, canonicalBatchJSON: string, writeJSON: string)

  function CompiledOf(env: Environment, b: Batch): Compiled {
    Compiled(Digest(env, CanonicalText(env, b)), Digest(env, WriteText(env, b)), |CompiledRecords(env, b)|,
             BatchEntity(env, b), ProducerEntity(env, b.producer), SourceEntity(b), ClaimEntities(env, b),
             CanonicalText(env, b), WriteText(env, b))
  }

  const TOO_LARGE := Invalid(CanonicalTooLarge, "input")

  /** Why Compile refuses a batch. */
  function CompileError(env: Environment, b: Batch): Option<Invalid> {
    OrElse(Unless(RawSize(b) <= MAX_INPUT_BYTES, CanonicalTooLarge, "input"),
    OrElse(BatchError(env, b), Unless(|CanonicalText(env, b)| <= MAX_INPUT_BYTES, CanonicalTooLarge, "input")))
  }

  method CompileValidated(env: Environment, b: Batch, enforceCanonicalLimit: bool)
    returns (r: Result<Compiled, Invalid>)
    requires ValidBatch(env, b)
    ensures r == if enforceCanonicalLimit && |CanonicalText(env, b)| > MAX_INPUT_BYTES then Err(TOO_LARGE)
                 else Ok(CompiledOf(env, b))
  {
    hide Marshal, DistinctEntities, CompiledRecords, ClaimEntities, ProducerEntity, BatchEntity;
    assert DistinctEntities(env, b);
    var canonical := CanonicalText(env, b);
    if enforceCanonicalLimit && |canonical| > MAX_INPUT_BYTES {
      return Err(TOO_LARGE);
    }
    var output := CompileRecords(env, b);
    var out := output.value;
    var text := Marshal(env, WriteJson(out.records));
    r := Ok(Compiled(Digest(env, canonical), Digest(env, text), |out.records|, BatchEntity(env, b), out.producerEntity,
                     out.sourceEntity, out.claimEntities, canonical, text));
  }

  lemma DigestsMatch(env: Environment, b: Batch)
    ensures var out := CompiledOf(env, b);
            && out.batchDigest == Digest(env, out.canonicalBatchJSON)
            && out.batchEntity == "ingestion:" + out.batchDigest
            && out.writeDigest == Digest(env, out.writeJSON)
            && |out.claimEntities| == |b.claims| && out.canonicalBatchJSON == CanonicalText(env, b)
  {
    hide Marshal, ClaimEntity, CompiledRecords, CanonicalText;
  }

  method Compile(env: Environment, b: Batch) returns (r: Result<Compiled, Invalid>)
    ensures match CompileError(env, b)
            case Some(error) => r == Err(error)
            case None => ValidBatch(env, b) && r == Ok(CompiledOf(env, b))
    ensures r.Ok? ==>
              var out := r.value;
              && out.batchDigest == Digest(env, out.canonicalBatchJSON)
              && out.batchEntity == "ingestion:" + out.batchDigest
              && out.writeDigest == Digest(env, out.writeJSON)
              && |out.claimEntities| == |b.claims| && |out.canonicalBatchJSON| <= MAX_INPUT_BYTES
  {
    DigestsMatch(env, b);
    hide RawSize, BatchError, ValidBatch, Marshal, CompiledOf, CanonicalText;
    var exceeds := TypedBatchExceedsInputLimit(b);
    if exceeds {
      return Err(TOO_LARGE);
    }
    var error := Validate(env, b);
    if error.Some? {
      return Err(error.value);
    }
    r := CompileValidated(env, b, true);
  }

  /** The size check only anticipates: a batch without other faults is too large exactly when its canonical form is. */
  lemma TooLargeExactlyWhen(env: Environment, b: Batch)
    requires Sound(env) && ValidBatch(env, b)
    ensures CompileError(env, b) == if |CanonicalText(env, b)| > MAX_INPUT_BYTES then Some(TOO_LARGE) else None
  {
    hide ValidBatch, BatchError, RawSize, CanonicalText;
    RawSizeIsALowerBound(env, b);
    NoErrorExactlyWhenValid(env, b);
  }
}
