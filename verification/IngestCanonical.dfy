/**
 The canonical JSON of a batch: it reads back, and the strict scanner passes it.
 A decoder that finds each struct field under its name, or that it is absent,
 recovers every batch, valid or not; and the form has no null, no repeated key and
 few levels, so that the strict walk consumes all of it.
 */
module IngestCanonical {
  import opened Wrappers
  import opened Text
  import opened Json
  import opened StrictJson
  import opened Ingest

  // ------------------------------------------------------------ reading back

  function ReadObject(j: Json): Option<Object> {
    var entity, u64 := ReadOptional(Member(j, "entity")), ReadOptional(Member(j, "u64"));
    if entity.Some? && u64.Some? then Some(Object(entity.value, u64.value)) else None
  }

  function ReadEvidence(j: Json): Option<Evidence> {
    var locator, quote := ReadStr(Member(j, "locator")), ReadOptional(Member(j, "quote"));
    if locator.Some? && quote.Some? then Some(Evidence(locator.value, quote.value)) else None
  }

  function ReadConfidence(v: Option<Json>): Option<Option<uint64>> {
    if v.None? then Some(None)
    else if v.value.Num? && ParseUint(v.value.literal).Some? then Some(ParseUint(v.value.literal))
    else None
  }

  function ReadClaim(j: Json): Option<Claim> {
    var id, subject := ReadStr(Member(j, "external_id")), ReadStr(Member(j, "subject"));
    var pred := ReadStr(Member(j, "predicate"));
    var obj, confidence := ReadPart(Member(j, "object"), ReadObject), ReadConfidence(Member(j, "confidence_ppm"));
    var evidence := ReadAll(ReadEvidence, Items(j, "evidence"));
    if id.Some? && subject.Some? && pred.Some? && obj.Some? && confidence.Some? && evidence.Some? then
      Some(Claim(id.value, subject.value, pred.value, obj.value, confidence.value, evidence.value))
    else None
  }

  function ReadProducer(j: Json): Option<Producer> {
    var name, version := ReadStr(Member(j, "name")), ReadStr(Member(j, "version"));
    var runID, schemaIdentity := ReadStr(Member(j, "run_id")), ReadStr(Member(j, "schema_identity"));
    if name.Some? && version.Some? && runID.Some? && schemaIdentity.Some? then
      Some(Producer(name.value, version.value, runID.value, schemaIdentity.value))
    else None
  }

  function ReadArtifact(j: Json): Option<Artifact> {
    var mode, uri := ReadStr(Member(j, "mode")), ReadOptional(Member(j, "uri"));
    if mode.Some? && uri.Some? then Some(Artifact(mode.value, uri.value)) else None
  }

  function ReadSource(v: Option<Json>): Option<Option<Source>> {
    if v.None? then Some(None)
    else
      var digest, mediaType := ReadStr(Member(v.value, "digest")), ReadStr(Member(v.value, "media_type"));
      var artifact := ReadPart(Member(v.value, "artifact"), ReadArtifact);
      if digest.Some? && mediaType.Some? && artifact.Some? then
        Some(Some(Source(digest.value, mediaType.value, artifact.value)))
      else None
  }

  function ReadBatch(j: Json): Option<Batch> {
    var schema, profile := ReadStr(Member(j, "schema")), ReadStr(Member(j, "profile"));
    var producer, source := ReadPart(Member(j, "producer"), ReadProducer), ReadSource(Member(j, "source"));
    var claims := ReadAll(ReadClaim, Items(j, "claims"));
    if schema.Some? && profile.Some? && producer.Some? && source.Some? && claims.Some? then
      Some(Batch(schema.value, profile.value, producer.value, source.value, claims.value))
    else None
  }

  lemma ObjectReadsBack(o: Object)
    ensures ReadObject(ObjectJson(o)) == Some(o)
  {
    hide Compact, Member;
    var es, j := ObjectEntries(o), ObjectJson(o);
    Lookups(es);
    assert Member(j, es[0].name) == es[0].value && Member(j, es[1].name) == es[1].value;
  }

  lemma EvidenceReadsBack(e: Evidence)
    ensures ReadEvidence(EvidenceJson(e)) == Some(e)
  {
    hide Compact, Member;
    var es, j := EvidenceEntries(e), EvidenceJson(e);
    Lookups(es);
    assert Member(j, es[0].name) == es[0].value && Member(j, es[1].name) == es[1].value;
  }

  lemma ConfidenceReadsBack(c: Option<uint64>)
    ensures ReadConfidence(ConfidenceJson(c)) == Some(c)
  {
    if c.Some? {
      DecimalsParseBack(c.value);
    }
  }

  lemma ClaimReadsBack(c: Claim)
    ensures ReadClaim(ClaimJson(c)) == Some(c)
  {
    hide Compact, Member, ObjectJson, ConfidenceJson, ReadObject, ReadConfidence, ReadEvidence, EvidenceJson, MapSeq,
      ReadAll;
    var es, j := ClaimEntries(c), ClaimJson(c);
    Lookups(es);
    assert Member(j, es[0].name) == es[0].value && Member(j, es[1].name) == es[1].value;
    assert Member(j, es[2].name) == es[2].value && Member(j, es[3].name) == es[3].value;
    assert Member(j, es[4].name) == es[4].value && Member(j, es[5].name) == es[5].value;
    ObjectReadsBack(c.obj);
    ConfidenceReadsBack(c.confidence);
    forall e ensures ReadEvidence(EvidenceJson(e)) == Some(e) { EvidenceReadsBack(e); }
    ListReadsBack(ReadEvidence, EvidenceJson, c.evidence);
  }

  lemma ProducerReadsBack(p: Producer)
    ensures ReadProducer(Obj(Compact(ProducerEntries(p)))) == Some(p)
  {
    hide Compact, Member;
    var es, j := ProducerEntries(p), Obj(Compact(ProducerEntries(p)));
    Lookups(es);
    assert Member(j, es[0].name) == es[0].value && Member(j, es[1].name) == es[1].value;
    assert Member(j, es[2].name) == es[2].value && Member(j, es[3].name) == es[3].value;
  }

  lemma ArtifactReadsBack(a: Artifact)
    ensures ReadArtifact(Obj(Compact(ArtifactEntries(a)))) == Some(a)
  {
    hide Compact, Member;
    var es, j := ArtifactEntries(a), Obj(Compact(ArtifactEntries(a)));
    Lookups(es);
    assert Member(j, es[0].name) == es[0].value && Member(j, es[1].name) == es[1].value;
  }

  lemma SourceReadsBack(s: Option<Source>)
    ensures ReadSource(SourceJson(s)) == Some(s)
  {
    if s.Some? {
      hide Compact, Member, ReadArtifact, ArtifactEntries;
      var es, j := SourceEntries(s.value), Obj(Compact(SourceEntries(s.value)));
      Lookups(es);
      assert Member(j, es[0].name) == es[0].value && Member(j, es[1].name) == es[1].value;
      assert Member(j, es[2].name) == es[2].value;
      ArtifactReadsBack(s.value.artifact);
    }
  }

  /** The canonical form loses nothing of any batch, valid or not. */
  lemma BatchReadsBack(b: Batch)
    ensures ReadBatch(BatchJson(b)) == Some(b)
  {
    hide Compact, Member, ReadProducer, ProducerEntries, ReadSource, SourceJson, ReadClaim, ClaimJson, MapSeq, ReadAll;
    var es, j := BatchEntries(b), BatchJson(b);
    Lookups(es);
    assert Member(j, es[0].name) == es[0].value && Member(j, es[1].name) == es[1].value;
    assert Member(j, es[2].name) == es[2].value && Member(j, es[3].name) == es[3].value;
    assert Member(j, es[4].name) == es[4].value;
    ProducerReadsBack(b.producer);
    SourceReadsBack(b.source);
    forall c ensures ReadClaim(ClaimJson(c)) == Some(c) { ClaimReadsBack(c); }
    ListReadsBack(ReadClaim, ClaimJson, b.claims);
  }

  // ------------------------------------------------------------- strictness

  /** At most so many levels, no null, and no name twice in one object. */
  ghost predicate Clean(j: Json, levels: nat) {
    && levels >= 1
    && match j
       case Null => false
       case Arr(items) => forall i | 0 <= i < |items| :: Clean(items[i], levels - 1)
       case Obj(fields) =>
         && (forall i | 0 <= i < |fields| :: Clean(fields[i].value, levels - 1))
         && (forall i, k | 0 <= i < k < |fields| :: fields[i].name != fields[k].name)
       case _ => true
  }

  lemma {:induction false} CleanIsFaultless(j: Json, levels: nat, path: string)
    requires Clean(j, levels)
    ensures DuplicateFree(j) && Depth(j) <= levels && FirstNull(j, path).None?
    decreases j, 0
  {
    match j
    case Arr(items) => CleanItems(items, levels - 1, path, 0);
    case Obj(fields) => CleanFields(fields, levels - 1, path);
    case _ =>
  }

  lemma {:induction false} CleanItems(items: seq<Json>, levels: nat, path: string, index: nat)
    requires forall i | 0 <= i < |items| :: Clean(items[i], levels)
    ensures ItemsDuplicateFree(items) && ItemsDepth(items) <= levels && FirstNullItem(items, path, index).None?
    decreases items, 1
  {
    if items != [] {
      CleanIsFaultless(items[0], levels, AppendIndex(path, index));
      CleanItems(items[1..], levels, path, index + 1);
    }
  }

  lemma {:induction false} CleanFields(fields: seq<Field>, levels: nat, path: string)
    requires forall i | 0 <= i < |fields| :: Clean(fields[i].value, levels)
    requires forall i, k | 0 <= i < k < |fields| :: fields[i].name != fields[k].name
    ensures FieldsDuplicateFree(fields) && FieldsDepth(fields) <= levels && FirstNullField(fields, path).None?
    decreases fields, 1
  {
    if fields != [] {
      CleanIsFaultless(fields[0].value, levels, AppendField(path, fields[0].name));
      CleanFields(fields[1..], levels, path);
    }
  }

  lemma {:induction false} CompactIsClean(es: seq<Entry>, levels: nat)
    requires DistinctNames(es) && forall i | 0 <= i < |es| :: es[i].value.Some? ==> Clean(es[i].value.value, levels)
    ensures Clean(Obj(Compact(es)), levels + 1)
    ensures forall i | 0 <= i < |Compact(es)| :: exists k :: 0 <= k < |es| && es[k].name == Compact(es)[i].name
  {
    if es != [] {
      CompactIsClean(es[1..], levels);
      var rest, all := Compact(es[1..]), Compact(es);
      var first := if es[0].value.Some? then [Field(es[0].name, es[0].value.value)] else [];
      assert all == first + rest;
      forall i | 0 <= i < |rest|
        ensures rest[i].name != es[0].name && exists k :: 0 <= k < |es| && es[k].name == rest[i].name
      {
        var k :| 0 <= k < |es[1..]| && es[1..][k].name == rest[i].name;
        assert es[k + 1].name == rest[i].name;
      }
    }
  }

  lemma FlatIsClean(es: seq<Entry>, levels: nat)
    requires levels >= 1 && DistinctNames(es)
    requires forall i | 0 <= i < |es| :: es[i].value.Some? ==> es[i].value.value.Str?
    ensures Clean(Obj(Compact(es)), levels + 1)
  {
    CompactIsClean(es, levels);
  }

  lemma ClaimIsClean(c: Claim)
    ensures Clean(ClaimJson(c), 4)
  {
    hide Compact;
    FlatIsClean(ObjectEntries(c.obj), 2);
    var evidence := MapSeq(EvidenceJson, c.evidence);
    forall i | 0 <= i < |evidence| ensures Clean(evidence[i], 2) {
      FlatIsClean(EvidenceEntries(c.evidence[i]), 1);
    }
    assert Clean(Arr(evidence), 3);
    CompactIsClean(ClaimEntries(c), 3);
  }

  lemma SourceIsClean(s: Source)
    ensures Clean(Obj(Compact(SourceEntries(s))), 5)
  {
    hide Compact;
    FlatIsClean(ArtifactEntries(s.artifact), 3);
    CompactIsClean(SourceEntries(s), 4);
  }

  /**
   The strict reader's walk accepts the canonical form of any batch, consumes all
   of it and finds no null: what Compile writes down, Parse can read.
   */
  lemma CanonicalFormIsStrict(b: Batch)
    ensures Walk(Tokens(BatchJson(b)) + [], 1, "") == Consumed([], None)
  {
    hide Compact, ClaimJson, ProducerEntries, SourceEntries;
    var claims := MapSeq(ClaimJson, b.claims);
    forall i | 0 <= i < |claims| ensures Clean(claims[i], 4) { ClaimIsClean(b.claims[i]); }
    assert Clean(Arr(claims), 5);
    ProducerIsClean(b.producer);
    if b.source.Some? {
      SourceIsClean(b.source.value);
    }
    CompactIsClean(BatchEntries(b), 5);
    CleanIsFaultless(BatchJson(b), 6, "");
    WalkRefinesTheTree(BatchJson(b), []);
  }

  lemma ProducerIsClean(p: Producer)
    ensures Clean(Obj(Compact(ProducerEntries(p))), 5)
  {
    hide Compact;
    FlatIsClean(ProducerEntries(p), 4);
  }
}
