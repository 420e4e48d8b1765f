/** The records of a compiled batch, each written out, in order. */
module IngestRecords {
  import opened Wrappers
  import opened Json
  import opened JsonText
  import opened Ingest
  import opened IngestCompiler
  import W = WriteTypes

  function States(subject: string, pred: string, obj: W.Object): W.Record {
    W.Record(subject, pred, obj, "", "", "ensure", W.NoDeadline)
  }

  function Names(subject: string, pred: string, name: string): W.Record { States(subject, pred, W.Entity(name)) }

  function BatchName(env: Environment, b: Batch): string {
    "ingestion:sha256:" + env.sum(Write(BatchJson(b), env.quote))
  }

  function ProducerName(env: Environment, p: Producer): string {
    "producer:sha256:" + env.sum("joeydb.ingestion.producer/v1\0" + Write(ProducerIdentity(p), env.quote))
  }

  function ClaimName(env: Environment, b: Batch, c: Claim): string {
    "claim:sha256:" + env.sum("joeydb.ingestion.claim/v1\0" + Write(ClaimIdentity(env, b, c), env.quote))
  }

  function AboutBatch(env: Environment, b: Batch): seq<W.Record> {
    var batch, producer := BatchName(env, b), ProducerName(env, b.producer);
    [Names(batch, "ingest:is_a", "ingest:batch"),
     Names(batch, "ingest:profile", "ingest:profile:" + b.profile),
     W.Record(batch, "ingest:manifest", W.Entity(batch), "", Write(BatchJson(b), env.quote), "", W.NoDeadline),
     Names(batch, "ingest:producer", producer),
     Names(producer, "ingest:is_a", "ingest:producer"),
     Names(producer, "ingest:schema_identity", b.producer.schemaIdentity)]
    + if b.source.None? then []
      else
        var s := b.source.value;
        [Names(batch, "ingest:source", "source:" + s.digest),
         Names(batch, "ingest:artifact_mode", "ingest:artifact:" + s.artifact.mode),
         Names("source:" + s.digest, "ingest:is_a", "ingest:source"),
         Names("source:" + s.digest, "ingest:media_type", "media-type:" + s.mediaType)]
  }

  function AboutOneClaim(env: Environment, b: Batch, c: Claim): seq<W.Record> {
    var claim, trusted := ClaimName(env, b, c), b.profile == "trusted-facts/v1";
    [Names(BatchName(env, b), "ingest:produced", claim),
     Names(claim, "ingest:is_a", "ingest:claim"),
     Names(claim, "ingest:initial_status", if trusted then "ingest:accepted" else "ingest:proposed"),
     Names(claim, "ingest:candidate_subject", c.subject),
     Names(claim, "ingest:candidate_predicate", c.pred),
     States(claim, "ingest:candidate_object", ObjectValue(c.obj))]
    + (if c.confidence.None? then []
       else [States(claim, "ingest:confidence_ppm", W.Number(c.confidence.value))])
    + (if b.source.None? then [] else [Names(claim, "ingest:supports", "source:" + b.source.value.digest)])
    + (if trusted then [States(c.subject, c.pred, ObjectValue(c.obj))] else [])
  }

  function AboutClaims(env: Environment, b: Batch, i: nat): seq<W.Record>
    decreases |b.claims| - i
  {
    if i >= |b.claims| then [] else AboutOneClaim(env, b, b.claims[i]) + AboutClaims(env, b, i + 1)
  }

  lemma NamesOfHead(env: Environment, b: Batch)
    ensures BatchEntity(env, b) == BatchName(env, b) && ProducerEntity(env, b.producer) == ProducerName(env, b.producer)
  {
    hide Write, BatchJson, ProducerIdentity;
    var sum := env.sum(Write(BatchJson(b), env.quote));
    assert "ingestion:" + ("sha256:" + sum) == "ingestion:sha256:" + sum;
  }

  lemma NameOfClaim(env: Environment, b: Batch, c: Claim)
    ensures ClaimEntity(env, b, c) == ClaimName(env, b, c)
  {
    hide Write, ClaimIdentity;
  }

  lemma HeadInFull(env: Environment, b: Batch)
    ensures HeadRecords(env, b) == AboutBatch(env, b)
  {
    NamesOfHead(env, b);
    hide Write, BatchJson, BatchEntity, BatchName, ProducerEntity, ProducerName;
  }

  lemma ClaimInFull(env: Environment, b: Batch, c: Claim)
    ensures AboutClaim(env, b, c) + Asserted(b, c) == AboutOneClaim(env, b, c)
  {
    NamesOfHead(env, b);
    NameOfClaim(env, b, c);
    hide Write, BatchJson, BatchEntity, BatchName, ClaimEntity, ClaimName, ObjectValue;
  }

  lemma {:induction false} ClaimsInFull(env: Environment, b: Batch, i: nat)
    ensures ClaimRecords(env, b, i) == AboutClaims(env, b, i)
    decreases |b.claims| - i
  {
    hide AboutClaim, Asserted, AboutOneClaim;
    if i < |b.claims| {
      ClaimInFull(env, b, b.claims[i]);
      ClaimsInFull(env, b, i + 1);
    }
  }

  /** The records of a compiled batch, in order. */
  lemma RecordsInFull(env: Environment, b: Batch)
    ensures CompiledRecords(env, b) == AboutBatch(env, b) + AboutClaims(env, b, 0)
  {
    hide HeadRecords, AboutBatch, AboutClaims, ClaimRecords;
    HeadInFull(env, b);
    ClaimsInFull(env, b, 0);
  }

  /** Everything Compile yields, with every word written out: the entities, the two texts and their digests. */
  lemma CompiledInFull(env: Environment, b: Batch)
    ensures var out := CompiledOf(env, b);
            && out.canonicalBatchJSON == Write(BatchJson(b), env.quote)
            && out.batchDigest == "sha256:" + env.sum(out.canonicalBatchJSON)
            && out.writeDigest == "sha256:" + env.sum(out.writeJSON)
            && out.recordCount == |AboutBatch(env, b) + AboutClaims(env, b, 0)|
            && out.batchEntity == BatchName(env, b) && out.producerEntity == ProducerName(env, b.producer)
            && out.sourceEntity == (if b.source.None? then "" else "source:" + b.source.value.digest)
            && |out.claimEntities| == |b.claims|
            && forall i | 0 <= i < |b.claims| :: out.claimEntities[i] == ClaimName(env, b, b.claims[i])
  {
    hide Write, BatchJson, CompiledRecords, AboutBatch, AboutClaims, BatchName, BatchEntity, ProducerName,
      ProducerEntity, ClaimName, ClaimEntity, WriteText;
    RecordsInFull(env, b);
    NamesOfHead(env, b);
    forall c { NameOfClaim(env, b, c); }
  }
}
