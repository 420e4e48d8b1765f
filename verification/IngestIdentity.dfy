/** What the digests of ingestion tell apart. */
module IngestIdentity {
  // A digest sees a text and a text is the writing of a JSON value; on strings in
  // UTF-8, which validation demands, different values are written differently, so
  // all that is left to assume is that the digest does not collide on the texts at
  // hand.

  import opened Wrappers
  import opened Text
  import opened Json
  import opened JsonText
  import opened Ingest
  import opened IngestValidation
  import IngestCanonical

  // ------------------------------------------------------------ strings in UTF-8

  predicate LegibleProducer(p: Producer) {
    ValidUtf8(p.name) && ValidUtf8(p.version) && ValidUtf8(p.runID) && ValidUtf8(p.schemaIdentity)
  }

  predicate LegibleSource(s: Source) {
    ValidUtf8(s.digest) && ValidUtf8(s.mediaType) && ValidUtf8(s.artifact.mode) && ValidUtf8(s.artifact.uri)
  }

  predicate LegibleObject(o: Object) { ValidUtf8(o.entity) && ValidUtf8(o.u64) }

  predicate LegibleClaim(c: Claim) {
    && ValidUtf8(c.externalID) && ValidUtf8(c.subject) && ValidUtf8(c.pred) && LegibleObject(c.obj)
    && forall e | e in c.evidence :: ValidUtf8(e.locator) && ValidUtf8(e.quote)
  }

  /** Every string of the batch is valid UTF-8. */
  predicate Legible(b: Batch) {
    && ValidUtf8(b.schema) && ValidUtf8(b.profile) && LegibleProducer(b.producer)
    && (b.source.Some? ==> LegibleSource(b.source.value)) && forall c | c in b.claims :: LegibleClaim(c)
  }

  lemma ValidBatchIsLegible(env: Environment, b: Batch)
    requires ValidBatch(env, b)
    ensures Legible(b)
  {
    hide ValidUtf8, DistinctEntities, Reserved;
    ConstantsAreUtf8();
    IdentitiesAreUtf8(b.producer.schemaIdentity);
    if b.source.Some? {
      IdentitiesAreUtf8(b.source.value.digest);
    }
    forall c | c in b.claims ensures LegibleClaim(c) {
      ValidClaimIsLegible(c, b.source.Some?);
    }
  }

  lemma ValidClaimIsLegible(c: Claim, sourced: bool)
    requires ValidClaim(c, sourced)
    ensures LegibleClaim(c)
  {
    AsciiIsValidUtf8(c.obj.u64);
    AsciiIsValidUtf8("");
  }

  lemma ObjectIsWellEncoded(o: Object)
    requires LegibleObject(o)
    ensures WellEncoded(ObjectJson(o))
  {
    hide ValidUtf8, Compact;
    CompactIsWellEncoded(ObjectEntries(o));
  }

  lemma EvidenceIsWellEncoded(es: seq<Evidence>)
    requires forall e | e in es :: ValidUtf8(e.locator) && ValidUtf8(e.quote)
    ensures WellEncoded(Arr(MapSeq(EvidenceJson, es)))
  {
    hide ValidUtf8, Compact;
    forall i | 0 <= i < |es| ensures WellEncoded(EvidenceJson(es[i])) {
      assert es[i] in es;
      CompactIsWellEncoded(EvidenceEntries(es[i]));
    }
  }

  lemma ClaimIsWellEncoded(c: Claim)
    requires LegibleClaim(c)
    ensures WellEncoded(ClaimJson(c))
  {
    hide ValidUtf8, Compact, ObjectJson, EvidenceJson;
    ObjectIsWellEncoded(c.obj);
    EvidenceIsWellEncoded(c.evidence);
    CompactIsWellEncoded(ClaimEntries(c));
  }

  lemma ProducerIsWellEncoded(p: Producer)
    requires LegibleProducer(p)
    ensures WellEncoded(Obj(Compact(ProducerEntries(p)))) && WellEncoded(ProducerIdentity(p))
  {
    hide ValidUtf8, Compact;
    CompactIsWellEncoded(ProducerEntries(p));
    CompactIsWellEncoded(ProducerIdentityEntries(p));
  }

  lemma SourceIsWellEncoded(s: Source)
    requires LegibleSource(s)
    ensures WellEncoded(Obj(Compact(SourceEntries(s))))
  {
    hide ValidUtf8, Compact;
    CompactIsWellEncoded(ArtifactEntries(s.artifact));
    CompactIsWellEncoded(SourceEntries(s));
  }

  lemma BatchIsWellEncoded(b: Batch)
    requires Legible(b)
    ensures WellEncoded(BatchJson(b))
  {
    hide ValidUtf8, Compact, ProducerEntries, SourceEntries, ClaimJson;
    ProducerIsWellEncoded(b.producer);
    if b.source.Some? {
      SourceIsWellEncoded(b.source.value);
    }
    forall i | 0 <= i < |b.claims| ensures WellEncoded(ClaimJson(b.claims[i])) {
      ClaimIsWellEncoded(b.claims[i]);
    }
    CompactIsWellEncoded(BatchEntries(b));
  }

  lemma SumIsAscii(env: Environment, prefix: string, text: string)
    requires Sound(env) && Ascii(prefix)
    ensures ValidUtf8(prefix + env.sum(text))
  {
    var sum := env.sum(text);
    assert HexSum(sum);
    forall i | 0 <= i < |sum| ensures sum[i] as int < 0x80 {
      assert LowerHex(sum[i]);
    }
    AsciiIsValidUtf8(prefix + sum);
  }

  lemma ProducerEntityIsUtf8(env: Environment, p: Producer)
    requires Sound(env)
    ensures ValidUtf8(ProducerEntity(env, p))
  {
    hide ValidUtf8, Sound;
    SumIsAscii(env, "producer:sha256:", ProducerText(env, p));
  }

  lemma IdentityIsWellEncoded(env: Environment, b: Batch, c: Claim)
    requires Sound(env) && Legible(b) && LegibleClaim(c)
    ensures WellEncoded(ClaimIdentity(env, b, c))
  {
    hide ValidUtf8, Compact, ObjectJson, EvidenceJson, MapSeq, Sound, ProducerEntity, LegibleProducer;
    ProducerEntityIsUtf8(env, b.producer);
    ObjectIsWellEncoded(c.obj);
    EvidenceIsWellEncoded(c.evidence);
    CompactIsWellEncoded(IdentityEntries(b.profile, ProducerEntity(env, b.producer), SourceDigest(b), c));
  }

  // ------------------------------------------------------------ what digests tell apart

  /** The digest tells two texts apart, if they differ. */
  predicate Separates(env: Environment, x: string, y: string) { env.sum(x) == env.sum(y) ==> x == y }

  lemma SameTail(head: string, x: string, y: string)
    ensures head + x == head + y <==> x == y
  {
    if head + x == head + y {
      SameHead(head, head, x, y);
    }
  }

  /** Two producers are digested as one text exactly when they differ in the run at most. */
  lemma ProducerTextIsTheProducer(env: Environment, p: Producer, q: Producer)
    requires Sound(env) && LegibleProducer(p) && LegibleProducer(q)
    ensures ProducerText(env, p) == ProducerText(env, q) <==> p == q.(runID := p.runID)
  {
    hide Compact, ValidUtf8, Member, Write;
    SameTail(PRODUCER_DOMAIN, Marshal(env, ProducerIdentity(p)), Marshal(env, ProducerIdentity(q)));
    ProducerIsWellEncoded(p);
    ProducerIsWellEncoded(q);
    TextsDiffer(ProducerIdentity(p), ProducerIdentity(q), env.quote);
    ProducerLookups(p);
    ProducerLookups(q);
  }

  lemma ProducerLookups(p: Producer)
    ensures var j := ProducerIdentity(p);
            && Member(j, "name") == Some(Str(p.name)) && Member(j, "version") == Some(Str(p.version))
            && Member(j, "schema_identity") == Some(Str(p.schemaIdentity))
  {
    hide Compact, Member;
    var es := ProducerIdentityEntries(p);
    Lookups(es);
    assert Member(Obj(Compact(es)), es[0].name) == es[0].value && Member(Obj(Compact(es)), es[1].name) == es[1].value;
    assert Member(Obj(Compact(es)), es[2].name) == es[2].value;
  }

  /** Two claims are digested as one text exactly when their identities are one. */
  lemma ClaimTextIsTheIdentity(env: Environment, b: Batch, c: Claim, b': Batch, d: Claim)
    requires Sound(env) && Legible(b) && Legible(b') && LegibleClaim(c) && LegibleClaim(d)
    ensures ClaimText(env, b, c) == ClaimText(env, b', d) <==> ClaimIdentity(env, b, c) == ClaimIdentity(env, b', d)
  {
    hide Legible, LegibleClaim, ClaimIdentity, Write, WellEncoded;
    SameTail(CLAIM_DOMAIN, Marshal(env, ClaimIdentity(env, b, c)), Marshal(env, ClaimIdentity(env, b', d)));
    IdentityIsWellEncoded(env, b, c);
    IdentityIsWellEncoded(env, b', d);
    TextsDiffer(ClaimIdentity(env, b, c), ClaimIdentity(env, b', d), env.quote);
  }

  /** Short of a collision, two claims have one entity exactly when they are digested as one text. */
  lemma EntitiesAreTexts(env: Environment, b: Batch, c: Claim, b': Batch, d: Claim)
    requires Separates(env, ClaimText(env, b, c), ClaimText(env, b', d))
    ensures ClaimEntity(env, b, c) == ClaimEntity(env, b', d) <==> ClaimText(env, b, c) == ClaimText(env, b', d)
  {
    hide ClaimText;
    SameTail("claim:sha256:", env.sum(ClaimText(env, b, c)), env.sum(ClaimText(env, b', d)));
  }

  /**
   Entities name what was claimed by whom from what: short of a collision, claims
   of two batches have one entity exactly when profile, producer, source digest
   and claim are the same but for the run and the external ID.
   */
  lemma EntitiesIdentifyClaims(env: Environment, b: Batch, c: Claim, b': Batch, d: Claim)
    requires Sound(env) && Legible(b) && Legible(b') && c in b.claims && d in b'.claims
    requires Separates(env, ClaimText(env, b, c), ClaimText(env, b', d))
    requires Separates(env, ProducerText(env, b.producer), ProducerText(env, b'.producer))
    ensures ClaimEntity(env, b, c) == ClaimEntity(env, b', d) <==>
              && b.profile == b'.profile && b.producer == b'.producer.(runID := b.producer.runID)
              && SourceDigest(b) == SourceDigest(b') && SameClaim(c, d)
  {
    assert LegibleClaim(c) && LegibleClaim(d) && LegibleProducer(b.producer) && LegibleProducer(b'.producer);
    hide Legible, LegibleClaim, LegibleProducer, ClaimText, ClaimEntity, ProducerText, IdentityJson, SameClaim, Sound;
    EntitiesAreTexts(env, b, c, b', d);
    ClaimTextIsTheIdentity(env, b, c, b', d);
    IdentityIsTheMeaning(b.profile, ProducerEntity(env, b.producer), SourceDigest(b), c,
      b'.profile, ProducerEntity(env, b'.producer), SourceDigest(b'), d);
    SameTail("producer:sha256:", env.sum(ProducerText(env, b.producer)), env.sum(ProducerText(env, b'.producer)));
    ProducerTextIsTheProducer(env, b.producer, b'.producer);
  }

  /** The digest does not collide on the claims of this batch. */
  ghost predicate CollisionFree(env: Environment, b: Batch) {
    forall c, d | c in b.claims && d in b.claims :: Separates(env, ClaimText(env, b, c), ClaimText(env, b, d))
  }

  /** Short of a collision, entities are distinct exactly when no two claims say the same. */
  lemma DistinctEntitiesExactlyWhen(env: Environment, b: Batch)
    requires Sound(env) && Legible(b) && CollisionFree(env, b)
    ensures DistinctEntities(env, b) <==> forall i, j | 0 <= i < j < |b.claims| :: !SameClaim(b.claims[i], b.claims[j])
  {
    hide Sound, Legible, Separates, SameClaim, ClaimText, ClaimEntity, ProducerText;
    forall i, j | 0 <= i < j < |b.claims|
      ensures ClaimEntity(env, b, b.claims[i]) == ClaimEntity(env, b, b.claims[j])
         <==> SameClaim(b.claims[i], b.claims[j])
    {
      var c, d := b.claims[i], b.claims[j];
      assert Separates(env, ClaimText(env, b, c), ClaimText(env, b, d));
      SeparatesItself(env, ProducerText(env, b.producer));
      EntitiesIdentifyClaims(env, b, c, b, d);
    }
  }

  lemma SeparatesItself(env: Environment, x: string)
    ensures Separates(env, x, x)
  {
  }

  /** Different batches have different canonical texts. */
  lemma CanonicalTextsDiffer(env: Environment, b: Batch, b': Batch)
    requires Sound(env) && Legible(b) && Legible(b')
    ensures CanonicalText(env, b) == CanonicalText(env, b') <==> b == b'
  {
    hide Legible, BatchJson, Write, WellEncoded;
    BatchIsWellEncoded(b);
    BatchIsWellEncoded(b');
    TextsDiffer(BatchJson(b), BatchJson(b'), env.quote);
    IngestCanonical.BatchReadsBack(b);
    IngestCanonical.BatchReadsBack(b');
  }
}
