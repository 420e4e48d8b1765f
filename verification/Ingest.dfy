/** Ingestion batches: their canonical JSON, the identities derived from it, and the early size check. */
module Ingest {
  import opened Wrappers
  import opened Text
  import opened Json
  import opened JsonText

  const SCHEMA_V1 := "joeydb.ingestion/v1"
  const KNOWLEDGE_PROPOSALS := "knowledge-proposals/v1"
  const TRUSTED_FACTS := "trusted-facts/v1"

  const MAX_INPUT_BYTES := 1048576
  const MAX_CLAIMS := 4096
  const MAX_EVIDENCE := 256
  const MAX_LABEL_BYTES := 4096
  const MAX_TEXT_BYTES := 262144

  datatype Object = Object(entity: string, u64: string)

  datatype Evidence = Evidence(locator: string, quote: string)

  datatype Claim = Claim(externalID: string, subject: string, pred: string, obj: Object, confidence: Option<uint64>,
                         evidence: seq<Evidence>)

  datatype Producer = Producer(name: string, version: string, runID: string, schemaIdentity: string)

  datatype Artifact = Artifact(mode: string, uri: string)

  datatype Source = Source(digest: string, mediaType: string, artifact: Artifact)

  datatype Batch = Batch(schema: string, profile: string, producer: Producer, source: Option<Source>,
                         claims: seq<Claim>)

  // What the compiler borrows: how a string is quoted, the SHA-256 of a text in
  // hexadecimal, and which media types are canonical.
  datatype Environment = Environment(quote: string -> string, sum: string -> string, canonicalMediaType: string -> bool)

  predicate HexSum(s: string) { |s| == 64 && forall i | 0 <= i < |s| :: LowerHex(s[i]) }

  /** What is assumed of it. */
  ghost predicate Sound(env: Environment) {
    && NeverShortens(env.quote) && QuotesInUtf8(env.quote) && Delimits(env.quote)
    && forall s :: HexSum(env.sum(s))
  }

  function Marshal(env: Environment, j: Json): string { Write(j, env.quote) }

  function Digest(env: Environment, text: string): string { "sha256:" + env.sum(text) }

  // -------------------------------------------------------- canonical JSON

  function ObjectEntries(o: Object): seq<Entry> {
    [Entry("entity", StrOrOmit(o.entity)), Entry("u64", StrOrOmit(o.u64))]
  }

  function ObjectJson(o: Object): Json { Obj(Compact(ObjectEntries(o))) }

  function EvidenceEntries(e: Evidence): seq<Entry> {
    [Entry("locator", Some(Str(e.locator))), Entry("quote", StrOrOmit(e.quote))]
  }

  function EvidenceJson(e: Evidence): Json { Obj(Compact(EvidenceEntries(e))) }

  function ConfidenceJson(confidence: Option<uint64>): Option<Json> {
    if confidence.Some? then Some(Num(FormatUint(confidence.value))) else None
  }

  function ClaimEntries(c: Claim): seq<Entry> {
    [Entry("external_id", Some(Str(c.externalID))), Entry("subject", Some(Str(c.subject))),
     Entry("predicate", Some(Str(c.pred))), Entry("object", Some(ObjectJson(c.obj))),
     Entry("confidence_ppm", ConfidenceJson(c.confidence)),
     Entry("evidence", ArrOrOmit(MapSeq(EvidenceJson, c.evidence)))]
  }

  function ClaimJson(c: Claim): Json { Obj(Compact(ClaimEntries(c))) }

  function ProducerEntries(p: Producer): seq<Entry> {
    [Entry("name", Some(Str(p.name))), Entry("version", Some(Str(p.version))), Entry("run_id", Some(Str(p.runID))),
     Entry("schema_identity", Some(Str(p.schemaIdentity)))]
  }

  function ArtifactEntries(a: Artifact): seq<Entry> {
    [Entry("mode", Some(Str(a.mode))), Entry("uri", StrOrOmit(a.uri))]
  }

  function SourceEntries(s: Source): seq<Entry> {
    [Entry("digest", Some(Str(s.digest))), Entry("media_type", Some(Str(s.mediaType))),
     Entry("artifact", Some(Obj(Compact(ArtifactEntries(s.artifact)))))]
  }

  function SourceJson(s: Option<Source>): Option<Json> {
    if s.Some? then Some(Obj(Compact(SourceEntries(s.value)))) else None
  }

  function BatchEntries(b: Batch): seq<Entry> {
    [Entry("schema", Some(Str(b.schema))), Entry("profile", Some(Str(b.profile))),
     Entry("producer", Some(Obj(Compact(ProducerEntries(b.producer))))), Entry("source", SourceJson(b.source)),
     Entry("claims", Some(Arr(MapSeq(ClaimJson, b.claims))))]
  }

  function BatchJson(b: Batch): Json { Obj(Compact(BatchEntries(b))) }

  /** The canonical form of a batch, which is digested and kept as its manifest. */
  function CanonicalText(env: Environment, b: Batch): string { Marshal(env, BatchJson(b)) }

  // ------------------------------------------------------------ identities

  const PRODUCER_DOMAIN := "joeydb.ingestion.producer/v1\0"
  const CLAIM_DOMAIN := "joeydb.ingestion.claim/v1\0"

  function ProducerIdentityEntries(p: Producer): seq<Entry> {
    [Entry("name", Some(Str(p.name))), Entry("version", Some(Str(p.version))),
     Entry("schema_identity", Some(Str(p.schemaIdentity)))]
  }

  function ProducerIdentity(p: Producer): Json { Obj(Compact(ProducerIdentityEntries(p))) }

  /** What is digested for a producer. */
  function ProducerText(env: Environment, p: Producer): string { PRODUCER_DOMAIN + Marshal(env, ProducerIdentity(p)) }

  function ProducerEntity(env: Environment, p: Producer): string { "producer:sha256:" + env.sum(ProducerText(env, p)) }

  function SourceDigest(b: Batch): string { if b.source.Some? then b.source.value.digest else "" }

  function IdentityEntries(profile: string, producer: string, sourceDigest: string, c: Claim): seq<Entry> {
    [Entry("profile", Some(Str(profile))), Entry("producer", Some(Str(producer))),
     Entry("source_digest", StrOrOmit(sourceDigest)), Entry("subject", Some(Str(c.subject))),
     Entry("predicate", Some(Str(c.pred))), Entry("object", Some(ObjectJson(c.obj))),
     Entry("confidence_ppm", ConfidenceJson(c.confidence)),
     Entry("evidence", ArrOrOmit(MapSeq(EvidenceJson, c.evidence)))]
  }

  function IdentityJson(profile: string, producer: string, sourceDigest: string, c: Claim): Json {
    Obj(Compact(IdentityEntries(profile, producer, sourceDigest, c)))
  }

  function ClaimIdentity(env: Environment, b: Batch, c: Claim): Json {
    IdentityJson(b.profile, ProducerEntity(env, b.producer), SourceDigest(b), c)
  }

  /** What is digested for a claim. */
  function ClaimText(env: Environment, b: Batch, c: Claim): string {
    CLAIM_DOMAIN + Marshal(env, ClaimIdentity(env, b, c))
  }

  function ClaimEntity(env: Environment, b: Batch, c: Claim): string { "claim:sha256:" + env.sum(ClaimText(env, b, c)) }

  /** Claims that differ in nothing but the ID their producer gave them. */
  predicate SameClaim(c: Claim, d: Claim) { c == d.(externalID := c.externalID) }

  lemma ObjectJsonIsInjective(o: Object, p: Object)
    ensures ObjectJson(o) == ObjectJson(p) <==> o == p
  {
    Lookups(ObjectEntries(o));
    Lookups(ObjectEntries(p));
    assert Member(ObjectJson(o), ObjectEntries(o)[0].name) == StrOrOmit(o.entity);
    assert Member(ObjectJson(o), ObjectEntries(o)[1].name) == StrOrOmit(o.u64);
    assert Member(ObjectJson(p), ObjectEntries(p)[0].name) == StrOrOmit(p.entity);
    assert Member(ObjectJson(p), ObjectEntries(p)[1].name) == StrOrOmit(p.u64);
  }

  lemma EvidenceJsonIsInjective(e: Evidence, f: Evidence)
    ensures EvidenceJson(e) == EvidenceJson(f) <==> e == f
  {
    Lookups(EvidenceEntries(e));
    Lookups(EvidenceEntries(f));
    assert Member(EvidenceJson(e), EvidenceEntries(e)[0].name) == Some(Str(e.locator));
    assert Member(EvidenceJson(e), EvidenceEntries(e)[1].name) == StrOrOmit(e.quote);
    assert Member(EvidenceJson(f), EvidenceEntries(f)[0].name) == Some(Str(f.locator));
    assert Member(EvidenceJson(f), EvidenceEntries(f)[1].name) == StrOrOmit(f.quote);
  }

  lemma EvidenceListIsInjective(es: seq<Evidence>, fs: seq<Evidence>)
    ensures ArrOrOmit(MapSeq(EvidenceJson, es)) == ArrOrOmit(MapSeq(EvidenceJson, fs)) <==> es == fs
  {
    hide EvidenceJson;
    var x, y := MapSeq(EvidenceJson, es), MapSeq(EvidenceJson, fs);
    if x == y {
      forall i | 0 <= i < |es| ensures es[i] == fs[i] {
        assert x[i] == y[i];
        EvidenceJsonIsInjective(es[i], fs[i]);
      }
      assert es == fs;
    }
  }

  lemma ConfidenceIsInjective(x: Option<uint64>, y: Option<uint64>)
    ensures ConfidenceJson(x) == ConfidenceJson(y) <==> x == y
  {
    if x.Some? && y.Some? && FormatUint(x.value) == FormatUint(y.value) {
      FormatUintIsInjective(x.value, y.value);
    }
  }

  lemma IdentityLookups(profile: string, producer: string, sourceDigest: string, c: Claim)
    ensures var j := IdentityJson(profile, producer, sourceDigest, c);
            && Member(j, "profile") == Some(Str(profile)) && Member(j, "producer") == Some(Str(producer))
            && Member(j, "source_digest") == StrOrOmit(sourceDigest) && Member(j, "subject") == Some(Str(c.subject))
            && Member(j, "predicate") == Some(Str(c.pred)) && Member(j, "object") == Some(ObjectJson(c.obj))
            && Member(j, "confidence_ppm") == ConfidenceJson(c.confidence)
            && Member(j, "evidence") == ArrOrOmit(MapSeq(EvidenceJson, c.evidence))
  {
    hide ObjectJson, ConfidenceJson, ArrOrOmit, StrOrOmit, MapSeq, Compact, Member;
    var es := IdentityEntries(profile, producer, sourceDigest, c);
    Lookups(es);
    var j := Obj(Compact(es));
    assert Member(j, es[0].name) == es[0].value && Member(j, es[1].name) == es[1].value;
    assert Member(j, es[2].name) == es[2].value && Member(j, es[3].name) == es[3].value;
    assert Member(j, es[4].name) == es[4].value && Member(j, es[5].name) == es[5].value;
    assert Member(j, es[6].name) == es[6].value && Member(j, es[7].name) == es[7].value;
  }

  /** The canonical identity of a claim tells apart everything a claim says, and nothing else. */
  lemma IdentityIsTheMeaning(profile: string, producer: string, sourceDigest: string, c: Claim,
                             profile': string, producer': string, sourceDigest': string, d: Claim)
    ensures IdentityJson(profile, producer, sourceDigest, c) == IdentityJson(profile', producer', sourceDigest', d)
       <==> profile == profile' && producer == producer' && sourceDigest == sourceDigest' && SameClaim(c, d)
  {
    hide ObjectJson, ConfidenceJson, ArrOrOmit, MapSeq, Compact, Member;
    IdentityLookups(profile, producer, sourceDigest, c);
    IdentityLookups(profile', producer', sourceDigest', d);
    ObjectJsonIsInjective(c.obj, d.obj);
    ConfidenceIsInjective(c.confidence, d.confidence);
    EvidenceListIsInjective(c.evidence, d.evidence);
    if SameClaim(c, d) {
      assert IdentityEntries(profile, producer, sourceDigest, c) == IdentityEntries(profile, producer, sourceDigest, d);
    }
  }

  ghost predicate DistinctEntities(env: Environment, b: Batch) {
    forall i, j | 0 <= i < j < |b.claims| :: ClaimEntity(env, b, b.claims[i]) != ClaimEntity(env, b, b.claims[j])
  }

  /** Entities name what was claimed by whom from what: neither the run, nor external IDs, nor the artifact matter. */
  lemma EntitiesIgnoreTheRun(env: Environment, b: Batch, b': Batch, c: Claim, d: Claim)
    requires b.profile == b'.profile && SourceDigest(b) == SourceDigest(b') && SameClaim(c, d)
    requires b.producer == b'.producer.(runID := b.producer.runID)
    ensures ClaimEntity(env, b, c) == ClaimEntity(env, b', d)
  {
  }

  // ----------------------------------------------------------- size check

  function EvidenceSize(es: seq<Evidence>): nat {
    if es == [] then 0 else 1 + |es[0].locator| + |es[0].quote| + EvidenceSize(es[1..])
  }

  function ClaimSize(c: Claim): nat {
    1 + |c.externalID| + |c.subject| + |c.pred| + |c.obj.entity| + |c.obj.u64| + EvidenceSize(c.evidence)
  }

  function ClaimsSize(cs: seq<Claim>): nat {
    if cs == [] then 0 else ClaimSize(cs[0]) + ClaimsSize(cs[1..])
  }

  function ProducerSize(p: Producer): nat { |p.name| + |p.version| + |p.runID| + |p.schemaIdentity| }

  function SourceSize(s: Option<Source>): nat {
    if s.None? then 0
    else 1 + |s.value.digest| + |s.value.mediaType| + |s.value.artifact.mode| + |s.value.artifact.uri|
  }

  /** The bytes of every string of the batch, and one for each source, claim and evidence. */
  function RawSize(b: Batch): nat {
    |b.schema| + |b.profile| + ProducerSize(b.producer) + SourceSize(b.source) + ClaimsSize(b.claims)
  }

  // The remaining budget that consume draws on.
  class Budget {
    var remaining: int

    constructor (limit: nat)
      ensures remaining == limit
    {
      remaining := limit;
    }

    method Consume(size: nat) returns (over: bool)
      modifies this
      ensures over <==> size > old(remaining)
      ensures remaining == if over then old(remaining) else old(remaining) - size
      ensures old(remaining) >= 0 ==> remaining >= 0
    {
      if size > remaining {
        return true;
      }
      remaining := remaining - size;
      over := false;
    }

    /** Consume each in turn, until one is too much. */
    method ConsumeEach(sizes: seq<nat>) returns (over: bool)
      requires remaining >= 0
      modifies this
      ensures remaining >= 0
      ensures over <==> Total(sizes) > old(remaining)
      ensures !over ==> remaining == old(remaining) - Total(sizes)
    {
      var i := 0;
      while i < |sizes|
        invariant 0 <= i <= |sizes| && remaining >= 0
        invariant remaining - Total(sizes[i..]) == old(remaining) - Total(sizes)
      {
        assert sizes[i..][1..] == sizes[i + 1..];
        over := Consume(sizes[i]);
        if over {
          return;
        }
        i := i + 1;
      }
      over := false;
    }
  }

  function Total(sizes: seq<nat>): nat { if sizes == [] then 0 else sizes[0] + Total(sizes[1..]) }

  lemma TotalNext(size: nat, sizes: seq<nat>)
    ensures Total([size] + sizes) == size + Total(sizes)
  {
  }

  lemma TotalOfSix(a: nat, b: nat, c: nat, d: nat, e: nat, f: nat)
    ensures Total([a, b, c, d, e, f]) == a + b + c + d + e + f
    ensures Total([a, b, c, d, e]) == a + b + c + d + e
    ensures Total([a, b, c]) == a + b + c
  {
    hide Total;
    assert Total([]) == 0 by { NothingIsZero(); }
    assert [a, b, c] == [a] + ([b] + ([c] + []));
    assert [a, b, c, d, e] == [a] + ([b] + ([c] + ([d] + ([e] + []))));
    assert [a, b, c, d, e, f] == [a] + ([b] + ([c] + ([d] + ([e] + ([f] + [])))));
    TotalNext(f, []);
    TotalNext(e, [f] + []);
    TotalNext(d, [e] + ([f] + []));
    TotalNext(c, [d] + ([e] + ([f] + [])));
    TotalNext(b, [c] + ([d] + ([e] + ([f] + []))));
    TotalNext(a, [b] + ([c] + ([d] + ([e] + ([f] + [])))));
    TotalNext(e, []);
    TotalNext(d, [e] + []);
    TotalNext(c, [d] + ([e] + []));
    TotalNext(b, [c] + ([d] + ([e] + [])));
    TotalNext(a, [b] + ([c] + ([d] + ([e] + []))));
    TotalNext(c, []);
    TotalNext(b, [c] + []);
    TotalNext(a, [b] + ([c] + []));
  }

  lemma NothingIsZero()
    ensures Total([]) == 0
  {
  }

  method EvidenceExceeds(budget: Budget, es: seq<Evidence>) returns (over: bool)
    requires budget.remaining >= 0
    modifies budget
    ensures budget.remaining >= 0
    ensures over <==> EvidenceSize(es) > old(budget.remaining)
    ensures !over ==> budget.remaining == old(budget.remaining) - EvidenceSize(es)
  {
    hide Total;
    var j := 0;
    while j < |es|
      invariant 0 <= j <= |es| && budget.remaining >= 0
      invariant budget.remaining - EvidenceSize(es[j..]) == old(budget.remaining) - EvidenceSize(es)
    {
      var e := es[j];
      assert es[j..][1..] == es[j + 1..];
      TotalOfSix(1, |e.locator|, |e.quote|, 0, 0, 0);
      over := budget.ConsumeEach([1, |e.locator|, |e.quote|]);
      if over {
        return;
      }
      j := j + 1;
    }
    over := false;
  }

  method ClaimsExceed(budget: Budget, cs: seq<Claim>) returns (over: bool)
    requires budget.remaining >= 0
    modifies budget
    ensures budget.remaining >= 0
    ensures over <==> ClaimsSize(cs) > old(budget.remaining)
  {
    hide Total, EvidenceSize;
    var i := 0;
    while i < |cs|
      invariant 0 <= i <= |cs| && budget.remaining >= 0
      invariant budget.remaining - ClaimsSize(cs[i..]) == old(budget.remaining) - ClaimsSize(cs)
    {
      var c := cs[i];
      assert cs[i..][1..] == cs[i + 1..];
      TotalOfSix(1, |c.externalID|, |c.subject|, |c.pred|, |c.obj.entity|, |c.obj.u64|);
      over := budget.ConsumeEach([1, |c.externalID|, |c.subject|, |c.pred|, |c.obj.entity|, |c.obj.u64|]);
      if over {
        return;
      }
      over := EvidenceExceeds(budget, c.evidence);
      if over {
        return;
      }
      i := i + 1;
    }
    over := false;
  }

  method TypedBatchExceedsInputLimit(b: Batch) returns (exceeds: bool)
    ensures exceeds <==> RawSize(b) > MAX_INPUT_BYTES
  {
    hide Total, ClaimsSize;
    var budget := new Budget(MAX_INPUT_BYTES);
    TotalOfSix(|b.schema|, |b.profile|, |b.producer.name|, |b.producer.version|, |b.producer.runID|,
      |b.producer.schemaIdentity|);
    exceeds := budget.ConsumeEach([|b.schema|, |b.profile|, |b.producer.name|, |b.producer.version|,
      |b.producer.runID|, |b.producer.schemaIdentity|]);
    if exceeds {
      return;
    }
    if b.source.Some? {
      var s := b.source.value;
      TotalOfSix(1, |s.digest|, |s.mediaType|, |s.artifact.mode|, |s.artifact.uri|, 0);
      exceeds := budget.ConsumeEach([1, |s.digest|, |s.mediaType|, |s.artifact.mode|, |s.artifact.uri|]);
      if exceeds {
        return;
      }
    }
    exceeds := ClaimsExceed(budget, b.claims);
  }

  // --------------------------------------- the check is a lower bound

  /** The weight of a struct is that of its entries. */
  lemma StructWeight(entries: seq<Entry>)
    ensures Weight(Obj(Compact(entries))) == 1 + EntriesWeight(entries)
  {
    CompactKeepsWeight(entries);
  }

  lemma NextWeight(e: Entry, rest: seq<Entry>)
    ensures EntriesWeight([e] + rest) == (if e.value.Some? then Weight(e.value.value) else 0) + EntriesWeight(rest)
  {
  }

  lemma {:induction false} EvidenceWeight(es: seq<Evidence>)
    ensures ItemsWeight(MapSeq(EvidenceJson, es)) == EvidenceSize(es)
  {
    if es != [] {
      EvidenceWeight(es[1..]);
      var entries := EvidenceEntries(es[0]);
      StructWeight(entries);
      assert entries == [entries[0]] + ([entries[1]] + []);
      NextWeight(entries[0], [entries[1]] + []);
      NextWeight(entries[1], []);
      assert MapSeq(EvidenceJson, es)[1..] == MapSeq(EvidenceJson, es[1..]);
    }
  }

  lemma ObjectWeight(o: Object)
    ensures Weight(ObjectJson(o)) == 1 + |o.entity| + |o.u64|
  {
    var entries := ObjectEntries(o);
    StructWeight(entries);
    assert entries == [entries[0]] + ([entries[1]] + []);
    NextWeight(entries[0], [entries[1]] + []);
    NextWeight(entries[1], []);
  }

  lemma ClaimWeight(c: Claim)
    ensures Weight(ClaimJson(c)) == 1 + ClaimSize(c)
  {
    hide ObjectJson, MapSeq, EvidenceSize, EntriesWeight, Compact;
    var entries := ClaimEntries(c);
    StructWeight(entries);
    ObjectWeight(c.obj);
    EvidenceWeight(c.evidence);
    NoEntriesNoWeight();
    var tail := [entries[3]] + ([entries[4]] + ([entries[5]] + []));
    assert entries == [entries[0]] + ([entries[1]] + ([entries[2]] + tail));
    NextWeight(entries[0], [entries[1]] + ([entries[2]] + tail));
    NextWeight(entries[1], [entries[2]] + tail);
    NextWeight(entries[2], tail);
    NextWeight(entries[3], [entries[4]] + ([entries[5]] + []));
    NextWeight(entries[4], [entries[5]] + []);
    NextWeight(entries[5], []);
  }

  lemma NoEntriesNoWeight()
    ensures EntriesWeight([]) == 0
  {
  }

  lemma {:induction false} ClaimsWeight(cs: seq<Claim>)
    ensures ItemsWeight(MapSeq(ClaimJson, cs)) >= ClaimsSize(cs)
  {
    hide ClaimJson, ClaimSize, Weight;
    if cs != [] {
      ClaimWeight(cs[0]);
      ClaimsWeight(cs[1..]);
      assert MapSeq(ClaimJson, cs)[1..] == MapSeq(ClaimJson, cs[1..]);
    }
  }

  lemma ProducerWeight(p: Producer)
    ensures Weight(Obj(Compact(ProducerEntries(p)))) == 1 + ProducerSize(p)
  {
    hide EntriesWeight, Compact;
    var entries := ProducerEntries(p);
    StructWeight(entries);
    NoEntriesNoWeight();
    assert entries == [entries[0]] + ([entries[1]] + ([entries[2]] + ([entries[3]] + [])));
    NextWeight(entries[0], [entries[1]] + ([entries[2]] + ([entries[3]] + [])));
    NextWeight(entries[1], [entries[2]] + ([entries[3]] + []));
    NextWeight(entries[2], [entries[3]] + []);
    NextWeight(entries[3], []);
  }

  lemma SourceWeight(s: Source)
    ensures Weight(Obj(Compact(SourceEntries(s)))) >= SourceSize(Some(s))
  {
    hide EntriesWeight, Compact;
    var entries, artifact := SourceEntries(s), ArtifactEntries(s.artifact);
    StructWeight(entries);
    StructWeight(artifact);
    NoEntriesNoWeight();
    assert entries == [entries[0]] + ([entries[1]] + ([entries[2]] + []));
    NextWeight(entries[0], [entries[1]] + ([entries[2]] + []));
    NextWeight(entries[1], [entries[2]] + []);
    NextWeight(entries[2], []);
    assert artifact == [artifact[0]] + ([artifact[1]] + []);
    NextWeight(artifact[0], [artifact[1]] + []);
    NextWeight(artifact[1], []);
  }

  /** What the size check adds up never exceeds the canonical encoding. */
  lemma RawSizeIsALowerBound(env: Environment, b: Batch)
    requires NeverShortens(env.quote)
    ensures RawSize(b) <= |CanonicalText(env, b)|
  {
    hide EntriesWeight, Compact, MapSeq, ProducerSize, ClaimsSize, ProducerEntries, SourceEntries, SourceSize;
    TextIsLongEnough(BatchJson(b), env.quote);
    var entries := BatchEntries(b);
    StructWeight(entries);
    ProducerWeight(b.producer);
    ClaimsWeight(b.claims);
    OptionalSourceWeight(b.source);
    NoEntriesNoWeight();
    assert entries == [entries[0]] + ([entries[1]] + ([entries[2]] + ([entries[3]] + ([entries[4]] + []))));
    NextWeight(entries[0], [entries[1]] + ([entries[2]] + ([entries[3]] + ([entries[4]] + []))));
    NextWeight(entries[1], [entries[2]] + ([entries[3]] + ([entries[4]] + [])));
    NextWeight(entries[2], [entries[3]] + ([entries[4]] + []));
    NextWeight(entries[3], [entries[4]] + []);
    NextWeight(entries[4], []);
  }

  lemma OptionalSourceWeight(s: Option<Source>)
    ensures (if SourceJson(s).Some? then Weight(SourceJson(s).value) else 0) >= SourceSize(s)
  {
    if s.Some? {
      SourceWeight(s.value);
    }
  }
}
