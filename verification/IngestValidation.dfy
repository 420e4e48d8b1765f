/** Validate of the ingest package: what a batch must be, and the first rule it breaks. */
module IngestValidation {
  import opened Wrappers
  import opened Text
  import opened Ingest
  import W = WriteTypes

  datatype Code =
    | InvalidUTF8 | UnsupportedValue | MissingField | ValueTooLarge | InvalidDigest | InvalidMediaType
    | IncompatibleFields | InvalidArtifact | InvalidCount | ReservedNamespace | DuplicateValue | InvalidObject
    | NumberOutOfRange | DuplicateSemanticClaim | CanonicalTooLarge

  datatype Invalid = Invalid(code: Code, path: string)

  // ------------------------------------------------------------- the rules

  const RESERVED := ["ingest:", "ingestion:sha256:", "claim:sha256:", "producer:sha256:", "source:sha256:",
                     "media-type:"]

  /** The namespaces that belong to the compiler. */
  predicate Reserved(name: string) { exists i | 0 <= i < |RESERVED| :: RESERVED[i] <= name }

  predicate ValidLabel(s: string) { s != "" && ValidUtf8(s) && |s| <= MAX_LABEL_BYTES && !Reserved(s) }

  /** Exactly one form; a number is canonical and safe in JavaScript. */
  ghost predicate ValidObject(o: Object) {
    if o.u64 == "" then ValidLabel(o.entity) else o.entity == "" && SafeDecimal(o.u64)
  }

  ghost predicate SafeDecimal(s: string) {
    exists n :: 0 <= n <= W.MAX_JS_SAFE_INTEGER && s == FormatUint(n)
  }

  predicate ValidEvidence(e: Evidence) {
    && e.locator != "" && |e.locator| <= MAX_LABEL_BYTES && |e.quote| <= MAX_TEXT_BYTES
    && ValidUtf8(e.locator) && ValidUtf8(e.quote)
  }

  ghost predicate ValidClaim(c: Claim, sourced: bool) {
    && c.externalID != "" && |c.externalID| <= MAX_LABEL_BYTES && ValidUtf8(c.externalID)
    && ValidLabel(c.subject) && ValidLabel(c.pred) && ValidObject(c.obj)
    && (c.confidence.Some? ==> c.confidence.value <= 1_000_000)
    && |c.evidence| <= MAX_EVIDENCE && (c.evidence != [] ==> sourced)
    && forall j | 0 <= j < |c.evidence| :: ValidEvidence(c.evidence[j])
  }

  predicate ValidSHA256Identity(s: string) { |s| == 71 && "sha256:" <= s && HexSum(s[7..]) }

  predicate ValidName(s: string) { s != "" && |s| <= MAX_LABEL_BYTES && ValidUtf8(s) }

  predicate ValidProducer(p: Producer) {
    ValidName(p.name) && ValidName(p.version) && ValidName(p.runID) && ValidSHA256Identity(p.schemaIdentity)
  }

  predicate ValidSource(env: Environment, s: Source) {
    && ValidSHA256Identity(s.digest) && ValidName(s.mediaType) && env.canonicalMediaType(s.mediaType)
    && |s.artifact.uri| <= MAX_TEXT_BYTES && ValidUtf8(s.artifact.uri)
    && s.artifact.mode in {"copy", "link", "purge", "none"}
    && (s.artifact.mode in {"copy", "link"} <==> s.artifact.uri != "")
  }

  ghost predicate DistinctExternalIDs(cs: seq<Claim>) {
    forall i, j | 0 <= i < j < |cs| :: cs[i].externalID != cs[j].externalID
  }

  ghost predicate ValidBatch(env: Environment, b: Batch) {
    && b.schema == SCHEMA_V1 && b.profile in {KNOWLEDGE_PROPOSALS, TRUSTED_FACTS}
    && ValidProducer(b.producer) && (b.source.Some? ==> ValidSource(env, b.source.value))
    && 1 <= |b.claims| <= MAX_CLAIMS
    && (forall i | 0 <= i < |b.claims| :: ValidClaim(b.claims[i], b.source.Some?))
    && DistinctExternalIDs(b.claims)
    && DistinctEntities(env, b)
  }

  // ------------------------------------------------------------ the checks

  function Unless(ok: bool, code: Code, path: string): (e: Option<Invalid>)
    ensures e.None? <==> ok
  {
    if ok then None else Some(Invalid(code, path))
  }

  /** The first failure of a list of checks. */
  function FirstOf(checks: seq<Option<Invalid>>): (e: Option<Invalid>)
    ensures e.None? <==> forall i | 0 <= i < |checks| :: checks[i].None?
  {
    if checks == [] then None else OrElse(checks[0], FirstOf(checks[1..]))
  }

  /** The first failure along a list, from index i on. */
  function FirstAlong<T>(check: (T, nat) -> Option<Invalid>, s: seq<T>, i: nat): (e: Option<Invalid>)
    ensures e.None? <==> forall k | i <= k < |s| :: check(s[k], k).None?
    decreases |s| - i
  {
    if i >= |s| then None else OrElse(check(s[i], i), FirstAlong(check, s, i + 1))
  }

  function Utf8Error(s: string, path: string): Option<Invalid> { Unless(ValidUtf8(s), InvalidUTF8, path) }

  function HeadUtf8(b: Batch): seq<Option<Invalid>> {
    [Utf8Error(b.schema, "schema"), Utf8Error(b.profile, "profile"), Utf8Error(b.producer.name, "producer.name"),
     Utf8Error(b.producer.version, "producer.version"), Utf8Error(b.producer.runID, "producer.run_id"),
     Utf8Error(b.producer.schemaIdentity, "producer.schema_identity")]
  }

  function SourceUtf8(s: Source): seq<Option<Invalid>> {
    [Utf8Error(s.digest, "source.digest"), Utf8Error(s.mediaType, "source.media_type"),
     Utf8Error(s.artifact.mode, "source.artifact.mode"), Utf8Error(s.artifact.uri, "source.artifact.uri")]
  }

  function EvidenceUtf8(e: Evidence, path: string): seq<Option<Invalid>> {
    [Utf8Error(e.locator, path + ".locator"), Utf8Error(e.quote, path + ".quote")]
  }

  function EvidencesUtf8(claim: string, es: seq<Evidence>): Option<Invalid> {
    FirstAlong((e: Evidence, j: nat) => FirstOf(EvidenceUtf8(e, W.PathIndex(claim + ".evidence", j))), es, 0)
  }

  function ClaimUtf8(c: Claim, i: nat): Option<Invalid> {
    var claim := W.PathIndex("claims", i);
    OrElse(FirstOf([Utf8Error(c.externalID, claim + ".external_id"), Utf8Error(c.subject, claim + ".subject"),
                    Utf8Error(c.pred, claim + ".predicate"), Utf8Error(c.obj.entity, claim + ".object.entity"),
                    Utf8Error(c.obj.u64, claim + ".object.u64")]),
           EvidencesUtf8(claim, c.evidence))
  }

  /** validateUTF8Strings. */
  function StringsError(b: Batch): Option<Invalid> {
    OrElse(FirstOf(HeadUtf8(b)),
    OrElse(if b.source.Some? then FirstOf(SourceUtf8(b.source.value)) else None,
           FirstAlong(ClaimUtf8, b.claims, 0)))
  }

  function ProducerChecks(p: Producer): seq<Option<Invalid>> {
    [Unless(p.name != "", MissingField, "producer.name"), Unless(p.version != "", MissingField, "producer.version"),
     Unless(p.runID != "", MissingField, "producer.run_id"),
     Unless(|p.name| <= MAX_LABEL_BYTES, ValueTooLarge, "producer.name"),
     Unless(|p.version| <= MAX_LABEL_BYTES, ValueTooLarge, "producer.version"),
     Unless(|p.runID| <= MAX_LABEL_BYTES, ValueTooLarge, "producer.run_id"),
     Unless(ValidSHA256Identity(p.schemaIdentity), InvalidDigest, "producer.schema_identity")]
  }

  function ArtifactError(a: Artifact): Option<Invalid> {
    if a.mode == "copy" || a.mode == "link" then Unless(a.uri != "", MissingField, "source.artifact.uri")
    else if a.mode == "purge" || a.mode == "none" then Unless(a.uri == "", IncompatibleFields, "source.artifact.uri")
    else Some(Invalid(InvalidArtifact, "source.artifact.mode"))
  }

  function SourceChecks(env: Environment, s: Source): seq<Option<Invalid>> {
    [Unless(ValidSHA256Identity(s.digest), InvalidDigest, "source.digest"),
     Unless(s.mediaType != "", MissingField, "source.media_type"),
     Unless(|s.mediaType| <= MAX_LABEL_BYTES, ValueTooLarge, "source.media_type"),
     Unless(env.canonicalMediaType(s.mediaType), InvalidMediaType, "source.media_type"),
     Unless(|s.artifact.uri| <= MAX_TEXT_BYTES, ValueTooLarge, "source.artifact.uri"), ArtifactError(s.artifact)]
  }

  function HeadError(env: Environment, b: Batch): Option<Invalid> {
    OrElse(Unless(b.schema == SCHEMA_V1, UnsupportedValue, "schema"),
    OrElse(Unless(b.profile in {KNOWLEDGE_PROPOSALS, TRUSTED_FACTS}, UnsupportedValue, "profile"),
    OrElse(FirstOf(ProducerChecks(b.producer)),
    OrElse(if b.source.Some? then FirstOf(SourceChecks(env, b.source.value)) else None,
           Unless(1 <= |b.claims| <= MAX_CLAIMS, InvalidCount, "claims")))))
  }

  function UserLabelError(s: string, path: string): Option<Invalid> {
    OrElse(Unless(|s| <= MAX_LABEL_BYTES, ValueTooLarge, path), Unless(!Reserved(s), ReservedNamespace, path))
  }

  function ObjectError(o: Object, path: string): (e: Option<Invalid>)
    ensures e.None? <==> if o.u64 == "" then o.entity != "" else o.entity == "" && SafeDecimal(o.u64)
  {
    SafeDecimalsAreParsed(o.u64);
    if (o.entity == "") == (o.u64 == "") then Some(Invalid(InvalidObject, path))
    else if o.u64 == "" then None
    else if |o.u64| > 1 && o.u64[0] == '0' then Some(Invalid(InvalidObject, path + ".u64"))
    else
      var value := ParseUint(o.u64);
      if value.None? then Some(Invalid(InvalidObject, path + ".u64"))
      else Unless(value.value <= W.MAX_JS_SAFE_INTEGER, NumberOutOfRange, path + ".u64")
  }

  lemma SafeDecimalsAreParsed(s: string)
    ensures SafeDecimal(s) <==>
              s != "" && (|s| > 1 ==> s[0] != '0') && ParseUint(s).Some? && ParseUint(s).value <= W.MAX_JS_SAFE_INTEGER
  {
    if SafeDecimal(s) {
      var n :| 0 <= n <= W.MAX_JS_SAFE_INTEGER && s == FormatUint(n);
      FormattedIsCanonical(n);
      DecimalsParseBack(n);
    }
    if s != "" && (|s| > 1 ==> s[0] != '0') && ParseUint(s).Some? {
      CanonicalIsFormatted(s);
    }
  }

  function BeforeID(c: Claim, claim: string): seq<Option<Invalid>> {
    [Unless(c.externalID != "", MissingField, claim + ".external_id"),
     Unless(c.subject != "", MissingField, claim + ".subject"),
     Unless(c.pred != "", MissingField, claim + ".predicate"),
     Unless(|c.externalID| <= MAX_LABEL_BYTES, ValueTooLarge, claim + ".external_id"),
     UserLabelError(c.subject, claim + ".subject"), UserLabelError(c.pred, claim + ".predicate")]
  }

  function EvidenceChecks(e: Evidence, path: string): seq<Option<Invalid>> {
    [Unless(e.locator != "", MissingField, path + ".locator"),
     Unless(|e.locator| <= MAX_LABEL_BYTES, ValueTooLarge, path + ".locator"),
     Unless(|e.quote| <= MAX_TEXT_BYTES, ValueTooLarge, path + ".quote")]
  }

  function EvidencesError(claim: string, es: seq<Evidence>): Option<Invalid> {
    FirstAlong((e: Evidence, j: nat) => FirstOf(EvidenceChecks(e, W.PathIndex(claim + ".evidence", j))), es, 0)
  }

  function AfterID(c: Claim, sourced: bool, claim: string): seq<Option<Invalid>> {
    [ObjectError(c.obj, claim + ".object"),
     if c.obj.entity != "" then UserLabelError(c.obj.entity, claim + ".object.entity") else None,
     Unless(c.confidence.Some? ==> c.confidence.value <= 1_000_000, NumberOutOfRange, claim + ".confidence_ppm"),
     Unless(|c.evidence| <= MAX_EVIDENCE, InvalidCount, claim + ".evidence"),
     Unless(c.evidence != [] ==> sourced, IncompatibleFields, claim + ".evidence"),
     EvidencesError(claim, c.evidence)]
  }

  predicate UsedBefore(cs: seq<Claim>, i: nat)
    requires i < |cs|
  {
    exists j | 0 <= j < i :: cs[j].externalID == cs[i].externalID
  }

  function ClaimError(b: Batch, i: nat): Option<Invalid>
    requires i < |b.claims|
  {
    var claim := W.PathIndex("claims", i);
    OrElse(FirstOf(BeforeID(b.claims[i], claim)),
    OrElse(Unless(!UsedBefore(b.claims, i), DuplicateValue, claim + ".external_id"),
           FirstOf(AfterID(b.claims[i], b.source.Some?, claim))))
  }

  function ClaimsError(b: Batch, i: nat): (e: Option<Invalid>)
    ensures e.None? <==> forall k | i <= k < |b.claims| :: ClaimError(b, k).None?
    decreases |b.claims| - i
  {
    if i >= |b.claims| then None else OrElse(ClaimError(b, i), ClaimsError(b, i + 1))
  }

  predicate SeenBefore(env: Environment, b: Batch, i: nat)
    requires i < |b.claims|
  {
    exists j | 0 <= j < i :: ClaimEntity(env, b, b.claims[j]) == ClaimEntity(env, b, b.claims[i])
  }

  function UniquenessError(env: Environment, b: Batch, i: nat): (e: Option<Invalid>)
    ensures e.None? <==> forall k | i <= k < |b.claims| :: !SeenBefore(env, b, k)
    decreases |b.claims| - i
  {
    if i >= |b.claims| then None
    else OrElse(Unless(!SeenBefore(env, b, i), DuplicateSemanticClaim, W.PathIndex("claims", i)),
                UniquenessError(env, b, i + 1))
  }

  /** The first rule a batch breaks. */
  function BatchError(env: Environment, b: Batch): Option<Invalid> {
    OrElse(StringsError(b), OrElse(HeadError(env, b), OrElse(ClaimsError(b, 0), UniquenessError(env, b, 0))))
  }

  // ------------------------------------------- the checks are the rules

  lemma IdentitiesAreUtf8(s: string)
    requires ValidSHA256Identity(s)
    ensures ValidUtf8(s)
  {
    forall i | 0 <= i < |s| ensures s[i] as int < 0x80 {
      if i < 7 {
        assert s[i] == "sha256:"[i];
      } else {
        assert LowerHex(s[7..][i - 7]);
      }
    }
    AsciiIsValidUtf8(s);
  }

  lemma ConstantsAreUtf8()
    ensures ValidUtf8(SCHEMA_V1) && ValidUtf8(KNOWLEDGE_PROPOSALS) && ValidUtf8(TRUSTED_FACTS)
    ensures ValidUtf8("copy") && ValidUtf8("link") && ValidUtf8("purge") && ValidUtf8("none") && ValidUtf8("")
  {
    hide ValidUtf8;
    AsciiIsValidUtf8(SCHEMA_V1);
    AsciiIsValidUtf8(KNOWLEDGE_PROPOSALS);
    AsciiIsValidUtf8(TRUSTED_FACTS);
    AsciiIsValidUtf8("copy");
    AsciiIsValidUtf8("link");
    AsciiIsValidUtf8("purge");
    AsciiIsValidUtf8("none");
    AsciiIsValidUtf8("");
  }

  /** The checks of the batch itself, its producer and its source. */
  lemma HeadExactly(env: Environment, b: Batch)
    ensures FirstOf(HeadUtf8(b)).None? && (b.source.Some? ==> FirstOf(SourceUtf8(b.source.value)).None?)
            && HeadError(env, b).None?
       <==> && b.schema == SCHEMA_V1 && b.profile in {KNOWLEDGE_PROPOSALS, TRUSTED_FACTS}
            && ValidProducer(b.producer) && (b.source.Some? ==> ValidSource(env, b.source.value))
            && 1 <= |b.claims| <= MAX_CLAIMS
  {
    hide FirstOf, ValidUtf8, ValidSHA256Identity, ProducerChecks, HeadUtf8, SourceUtf8, SourceChecks, ValidProducer,
      ValidSource;
    ConstantsAreUtf8();
    ProducerExactly(b);
    if b.source.Some? {
      SourceExactly(env, b.source.value);
    }
  }

  lemma ProducerExactly(b: Batch)
    ensures FirstOf(HeadUtf8(b)).None? && FirstOf(ProducerChecks(b.producer)).None?
       <==> ValidUtf8(b.schema) && ValidUtf8(b.profile) && ValidProducer(b.producer)
  {
    hide FirstOf, ValidUtf8, ValidSHA256Identity;
    var us, ps := HeadUtf8(b), ProducerChecks(b.producer);
    assert FirstOf(us).None? <==>
             us[0].None? && us[1].None? && us[2].None? && us[3].None? && us[4].None? && us[5].None?;
    assert FirstOf(ps).None? <==>
        ps[0].None? && ps[1].None? && ps[2].None? && ps[3].None? && ps[4].None? && ps[5].None? && ps[6].None?;
    if ValidSHA256Identity(b.producer.schemaIdentity) {
      IdentitiesAreUtf8(b.producer.schemaIdentity);
    }
  }

  lemma SourceExactly(env: Environment, s: Source)
    ensures FirstOf(SourceUtf8(s)).None? && FirstOf(SourceChecks(env, s)).None? <==> ValidSource(env, s)
  {
    hide FirstOf, ValidUtf8, ValidSHA256Identity;
    ConstantsAreUtf8();
    var us, ss := SourceUtf8(s), SourceChecks(env, s);
    assert FirstOf(us).None? <==> us[0].None? && us[1].None? && us[2].None? && us[3].None?;
    assert FirstOf(ss).None? <==>
        ss[0].None? && ss[1].None? && ss[2].None? && ss[3].None? && ss[4].None? && ss[5].None?;
    if ValidSHA256Identity(s.digest) {
      IdentitiesAreUtf8(s.digest);
    }
  }

  lemma OneEvidenceExactly(e: Evidence, path: string)
    ensures FirstOf(EvidenceUtf8(e, path)).None? && FirstOf(EvidenceChecks(e, path)).None? <==> ValidEvidence(e)
  {
    hide FirstOf, ValidUtf8;
    var us, ss := EvidenceUtf8(e, path), EvidenceChecks(e, path);
    assert FirstOf(us).None? <==> us[0].None? && us[1].None?;
    assert FirstOf(ss).None? <==> ss[0].None? && ss[1].None? && ss[2].None?;
  }

  lemma EvidenceExactly(es: seq<Evidence>, claim: string)
    ensures EvidencesUtf8(claim, es).None? && EvidencesError(claim, es).None?
       <==> forall j | 0 <= j < |es| :: ValidEvidence(es[j])
  {
    hide FirstAlong, FirstOf, EvidenceUtf8, EvidenceChecks, ValidEvidence, W.PathIndex;
    forall j | 0 <= j < |es| {
      OneEvidenceExactly(es[j], W.PathIndex(claim + ".evidence", j));
    }
  }

  lemma ObjectExactly(o: Object, path: string)
    ensures && ValidUtf8(o.entity) && ValidUtf8(o.u64) && ObjectError(o, path).None?
            && (o.entity != "" ==> UserLabelError(o.entity, path + ".entity").None?)
       <==> ValidObject(o)
  {
    hide ObjectError, SafeDecimal, Reserved, ValidUtf8;
    ConstantsAreUtf8();
    if SafeDecimal(o.u64) {
      SafeDecimalsAreUtf8(o.u64);
    }
  }

  lemma SafeDecimalsAreUtf8(s: string)
    requires SafeDecimal(s)
    ensures ValidUtf8(s)
  {
    AsciiIsValidUtf8(s);
  }

  lemma ClaimExactly(c: Claim, i: nat, sourced: bool)
    ensures && ClaimUtf8(c, i).None? && FirstOf(BeforeID(c, W.PathIndex("claims", i))).None?
            && FirstOf(AfterID(c, sourced, W.PathIndex("claims", i))).None?
       <==> ValidClaim(c, sourced)
  {
    hide FirstOf, ValidUtf8, W.PathIndex, Reserved, ObjectError, ValidObject, ValidEvidence, EvidencesUtf8,
      EvidencesError;
    var claim := W.PathIndex("claims", i);
    var us := [Utf8Error(c.externalID, claim + ".external_id"), Utf8Error(c.subject, claim + ".subject"),
               Utf8Error(c.pred, claim + ".predicate"), Utf8Error(c.obj.entity, claim + ".object.entity"),
               Utf8Error(c.obj.u64, claim + ".object.u64")];
    assert FirstOf(us).None? <==> us[0].None? && us[1].None? && us[2].None? && us[3].None? && us[4].None?;
    var bs, es := BeforeID(c, claim), AfterID(c, sourced, claim);
    assert FirstOf(bs).None? <==>
             bs[0].None? && bs[1].None? && bs[2].None? && bs[3].None? && bs[4].None? && bs[5].None?;
    assert FirstOf(es).None? <==>
             es[0].None? && es[1].None? && es[2].None? && es[3].None? && es[4].None? && es[5].None?;
    EvidenceExactly(c.evidence, claim);
    ObjectExactly(c.obj, claim + ".object");
    assert claim + ".object" + ".entity" == claim + ".object.entity";
  }

  lemma ClaimsExactly(b: Batch)
    ensures FirstAlong(ClaimUtf8, b.claims, 0).None? && ClaimsError(b, 0).None?
       <==> (forall i | 0 <= i < |b.claims| :: ValidClaim(b.claims[i], b.source.Some?)) && DistinctExternalIDs(b.claims)
  {
    hide FirstAlong, FirstOf, BeforeID, AfterID, ClaimUtf8, ValidClaim, ClaimsError, W.PathIndex;
    forall i | 0 <= i < |b.claims|
      ensures ClaimUtf8(b.claims[i], i).None? && ClaimError(b, i).None?
         <==> ValidClaim(b.claims[i], b.source.Some?) && !UsedBefore(b.claims, i)
    {
      ClaimExactly(b.claims[i], i, b.source.Some?);
    }
    NoneUsedBefore(b.claims);
  }

  lemma NoneUsedBefore(cs: seq<Claim>)
    ensures DistinctExternalIDs(cs) <==> forall i | 0 <= i < |cs| :: !UsedBefore(cs, i)
  {
    if forall i | 0 <= i < |cs| :: !UsedBefore(cs, i) {
      forall i, j | 0 <= i < j < |cs| ensures cs[i].externalID != cs[j].externalID {
        assert !UsedBefore(cs, j);
      }
    }
  }

  lemma NoneSeenBefore(env: Environment, b: Batch)
    ensures DistinctEntities(env, b) <==> forall i | 0 <= i < |b.claims| :: !SeenBefore(env, b, i)
  {
    hide ClaimEntity;
    if forall i | 0 <= i < |b.claims| :: !SeenBefore(env, b, i) {
      forall i, j | 0 <= i < j < |b.claims|
        ensures ClaimEntity(env, b, b.claims[i]) != ClaimEntity(env, b, b.claims[j])
      {
        assert !SeenBefore(env, b, j);
      }
    }
  }

  /** A batch breaks no rule exactly when it is valid. */
  lemma NoErrorExactlyWhenValid(env: Environment, b: Batch)
    ensures BatchError(env, b).None? <==> ValidBatch(env, b)
  {
    hide FirstAlong, FirstOf, HeadUtf8, SourceUtf8, HeadError, ClaimUtf8, ClaimsError, ValidClaim, ValidProducer,
      ValidSource, DistinctExternalIDs, ClaimEntity, UniquenessError;
    HeadExactly(env, b);
    ClaimsExactly(b);
    NoneSeenBefore(env, b);
  }

  // ----------------------------------------------------------- the methods

  lemma EntityIs(env: Environment, b: Batch, c: Claim)
    ensures ClaimEntity(env, b, c)
         == "claim:sha256:" + env.sum(CLAIM_DOMAIN + Marshal(env,
              IdentityJson(b.profile, ProducerEntity(env, b.producer), SourceDigest(b), c)))
  {
  }

  method ValidateSemanticClaimUniqueness(env: Environment, b: Batch) returns (error: Option<Invalid>)
    ensures error == UniquenessError(env, b, 0)
    ensures error.None? <==> DistinctEntities(env, b)
  {
    hide Marshal, IdentityJson, W.PathIndex, ClaimEntity, ProducerEntity, DistinctEntities;
    NoneSeenBefore(env, b);
    var producer := ProducerEntity(env, b.producer);
    var sourceDigest := SourceDigest(b);
    var seen: set<string> := {};
    var i := 0;
    while i < |b.claims|
      invariant 0 <= i <= |b.claims|
      invariant seen == set j | 0 <= j < i :: ClaimEntity(env, b, b.claims[j])
      invariant UniquenessError(env, b, 0) == UniquenessError(env, b, i)
    {
      var entity := "claim:sha256:"
        + env.sum(CLAIM_DOMAIN + Marshal(env, IdentityJson(b.profile, producer, sourceDigest, b.claims[i])));
      EntityIs(env, b, b.claims[i]);
      if entity in seen {
        return Some(Invalid(DuplicateSemanticClaim, W.PathIndex("claims", i)));
      }
      seen := seen + {entity};
      i := i + 1;
    }
    error := None;
  }

  lemma ClaimsErrorNext(b: Batch, i: nat)
    ensures ClaimsError(b, i) == if i >= |b.claims| then None else OrElse(ClaimError(b, i), ClaimsError(b, i + 1))
  {
  }

  method Validate(env: Environment, b: Batch) returns (error: Option<Invalid>)
    ensures error == BatchError(env, b)
    ensures error.None? <==> ValidBatch(env, b)
  {
    NoErrorExactlyWhenValid(env, b);
    hide FirstAlong, FirstOf, HeadError, StringsError, BeforeID, AfterID, ValidBatch, W.PathIndex, UniquenessError,
      ClaimsError;
    error := StringsError(b);
    if error.Some? {
      return;
    }
    error := HeadError(env, b);
    if error.Some? {
      return;
    }
    var externalIDs: set<string> := {};
    var i := 0;
    while i < |b.claims|
      invariant 0 <= i <= |b.claims|
      invariant externalIDs == set j | 0 <= j < i :: b.claims[j].externalID
      invariant ClaimsError(b, 0) == ClaimsError(b, i)
    {
      var c, claim := b.claims[i], W.PathIndex("claims", i);
      ClaimsErrorNext(b, i);
      error := FirstOf(BeforeID(c, claim));
      if error.Some? {
        return;
      }
      if c.externalID in externalIDs {
        return Some(Invalid(DuplicateValue, claim + ".external_id"));
      }
      externalIDs := externalIDs + {c.externalID};
      error := FirstOf(AfterID(c, b.source.Some?, claim));
      if error.Some? {
        return;
      }
      i := i + 1;
    }
    ClaimsErrorNext(b, i);
    error := ValidateSemanticClaimUniqueness(env, b);
  }
}
