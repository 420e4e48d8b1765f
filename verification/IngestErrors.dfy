/**
 What an error of the batch validator says.  The places it looks at are listed, in
 order; each stands for one rule, written out on the batch.  The rule named by the
 code of an error is broken at its path, and none is broken before; there is no
 error when none is broken at all.
 */
module IngestErrors {
  import opened Wrappers
  import opened Text
  import opened Reporting
  import opened Ingest
  import opened IngestValidation
  import W = WriteTypes

  // ------------------------------------------------ the places of a batch

  datatype Site =
    | TextAt(s: string)
    | SchemaAt(s: string)
    | ProfileAt(s: string)
    | RequiredAt(s: string)
    | BoundedAt(s: string, limit: nat)
    | DigestAt(s: string)
    | MediaTypeAt(canonical: bool)
    | ArtifactURIAt(a: Artifact)
    | ArtifactModeAt(a: Artifact)
    | ClaimCountAt(n: nat)
    | FreeAt(s: string)
    | OnceAt(claims: seq<Claim>, i: nat)
    | FormAt(o: Object)
    | DecimalAt(s: string)
    | ConfidenceAt(c: Claim)
    | EvidenceCountAt(n: nat)
    | SourcedAt(es: seq<Evidence>, sourced: bool)
    | MeaningAt(env: Environment, b: Batch, i: nat)

  datatype Place = Place(path: string, site: Site)

  function Flat(blocks: seq<seq<Place>>): seq<Place> {
    if blocks == [] then [] else blocks[0] + Flat(blocks[1..])
  }

  function Spot(name: string, i: nat): string { name + "[" + FormatUint(i) + "]" }

  function HeadTexts(b: Batch): seq<Place> {
    [Place("schema", TextAt(b.schema)), Place("profile", TextAt(b.profile)),
     Place("producer.name", TextAt(b.producer.name)), Place("producer.version", TextAt(b.producer.version)),
     Place("producer.run_id", TextAt(b.producer.runID)),
     Place("producer.schema_identity", TextAt(b.producer.schemaIdentity))]
  }

  function SourceTexts(s: Option<Source>): seq<Place> {
    if s.None? then []
    else
      [Place("source.digest", TextAt(s.value.digest)), Place("source.media_type", TextAt(s.value.mediaType)),
       Place("source.artifact.mode", TextAt(s.value.artifact.mode)),
       Place("source.artifact.uri", TextAt(s.value.artifact.uri))]
  }

  function EvidenceTexts(e: Evidence, at: string): seq<Place> {
    [Place(at + ".locator", TextAt(e.locator)), Place(at + ".quote", TextAt(e.quote))]
  }

  function ClaimTexts(c: Claim, i: nat): seq<Place> {
    var at := Spot("claims", i);
    [Place(at + ".external_id", TextAt(c.externalID)), Place(at + ".subject", TextAt(c.subject)),
     Place(at + ".predicate", TextAt(c.pred)), Place(at + ".object.entity", TextAt(c.obj.entity)),
     Place(at + ".object.u64", TextAt(c.obj.u64))]
    + Along((e: Evidence, j: nat) => EvidenceTexts(e, Spot(at + ".evidence", j)), c.evidence, 0)
  }

  function Texts(b: Batch): seq<Place> {
    HeadTexts(b) + (SourceTexts(b.source) + Along(ClaimTexts, b.claims, 0))
  }

  function ProducerPlaces(p: Producer): seq<Place> {
    [Place("producer.name", RequiredAt(p.name)), Place("producer.version", RequiredAt(p.version)),
     Place("producer.run_id", RequiredAt(p.runID)), Place("producer.name", BoundedAt(p.name, 4096)),
     Place("producer.version", BoundedAt(p.version, 4096)), Place("producer.run_id", BoundedAt(p.runID, 4096)),
     Place("producer.schema_identity", DigestAt(p.schemaIdentity))]
  }

  function SourcePlaces(env: Environment, s: Option<Source>): seq<Place> {
    if s.None? then []
    else
      [Place("source.digest", DigestAt(s.value.digest)), Place("source.media_type", RequiredAt(s.value.mediaType)),
       Place("source.media_type", BoundedAt(s.value.mediaType, 4096)),
       Place("source.media_type", MediaTypeAt(env.canonicalMediaType(s.value.mediaType))),
       Place("source.artifact.uri", BoundedAt(s.value.artifact.uri, 262144)),
       Place("source.artifact.uri", ArtifactURIAt(s.value.artifact)),
       Place("source.artifact.mode", ArtifactModeAt(s.value.artifact))]
  }

  function HeadPlaces(env: Environment, b: Batch): seq<Place> {
    [Place("schema", SchemaAt(b.schema))]
    + ([Place("profile", ProfileAt(b.profile))]
       + (ProducerPlaces(b.producer)
          + (SourcePlaces(env, b.source) + [Place("claims", ClaimCountAt(|b.claims|))])))
  }

  function UserLabel(s: string, at: string): seq<Place> { [Place(at, BoundedAt(s, 4096)), Place(at, FreeAt(s))] }

  function BeforePlaces(c: Claim, at: string): seq<Place> {
    Flat([[Place(at + ".external_id", RequiredAt(c.externalID))], [Place(at + ".subject", RequiredAt(c.subject))],
          [Place(at + ".predicate", RequiredAt(c.pred))],
          [Place(at + ".external_id", BoundedAt(c.externalID, 4096))],
          UserLabel(c.subject, at + ".subject"), UserLabel(c.pred, at + ".predicate")])
  }

  function EvidencePlaces(e: Evidence, at: string): seq<Place> {
    [Place(at + ".locator", RequiredAt(e.locator)), Place(at + ".locator", BoundedAt(e.locator, 4096)),
     Place(at + ".quote", BoundedAt(e.quote, 262144))]
  }

  function ObjectPlaces(o: Object, at: string): seq<Place> {
    [Place(at, FormAt(o)), Place(at + ".u64", DecimalAt(o.u64))]
  }

  function AfterPlaces(c: Claim, sourced: bool, at: string): seq<Place> {
    Flat([ObjectPlaces(c.obj, at + ".object"),
          if c.obj.entity == "" then [] else UserLabel(c.obj.entity, at + ".object.entity"),
          [Place(at + ".confidence_ppm", ConfidenceAt(c))], [Place(at + ".evidence", EvidenceCountAt(|c.evidence|))],
          [Place(at + ".evidence", SourcedAt(c.evidence, sourced))],
          Along((e: Evidence, j: nat) => EvidencePlaces(e, Spot(at + ".evidence", j)), c.evidence, 0)])
  }

  function ClaimPlaces(b: Batch, i: nat): seq<Place>
    decreases |b.claims| - i
  {
    if i >= |b.claims| then []
    else
      var c, at := b.claims[i], Spot("claims", i);
      (BeforePlaces(c, at) + ([Place(at + ".external_id", OnceAt(b.claims, i))] + AfterPlaces(c, b.source.Some?, at)))
      + ClaimPlaces(b, i + 1)
  }

  function MeaningPlaces(env: Environment, b: Batch, i: nat): seq<Place>
    decreases |b.claims| - i
  {
    if i >= |b.claims| then []
    else [Place(Spot("claims", i), MeaningAt(env, b, i))] + MeaningPlaces(env, b, i + 1)
  }

  /** Everything there is to look at, in the order in which it is looked at. */
  function Places(env: Environment, b: Batch): seq<Place> {
    Texts(b) + (HeadPlaces(env, b) + (ClaimPlaces(b, 0) + MeaningPlaces(env, b, 0)))
  }

  // ------------------------------------------------------- what the codes mean

  predicate IsDigest(s: string) {
    |s| == 71 && s[..7] == "sha256:" && forall i | 7 <= i < 71 :: s[i] in "0123456789abcdef"
  }

  predicate InReservedNamespace(s: string) {
    || "ingest:" <= s || "ingestion:sha256:" <= s || "claim:sha256:" <= s || "producer:sha256:" <= s
    || "source:sha256:" <= s || "media-type:" <= s
  }

  /** The part breaks the rule that the code names. */
  ghost predicate Breaks(site: Site, code: Code) {
    match site
    case TextAt(s) => code == InvalidUTF8 && !ValidUtf8(s)
    case SchemaAt(s) => code == UnsupportedValue && s != "joeydb.ingestion/v1"
    case ProfileAt(s) => code == UnsupportedValue && s !in {"knowledge-proposals/v1", "trusted-facts/v1"}
    case RequiredAt(s) => code == MissingField && s == ""
    case BoundedAt(s, limit) => code == ValueTooLarge && |s| > limit
    case DigestAt(s) => code == InvalidDigest && !IsDigest(s)
    case MediaTypeAt(canonical) => code == InvalidMediaType && !canonical
    case ArtifactURIAt(a) =>
      (match code
       case MissingField => a.mode in {"copy", "link"} && a.uri == ""
       case IncompatibleFields => a.mode in {"purge", "none"} && a.uri != ""
       case _ => false)
    case ArtifactModeAt(a) => code == InvalidArtifact && a.mode !in {"copy", "link", "purge", "none"}
    case ClaimCountAt(n) => code == InvalidCount && (n == 0 || n > 4096)
    case FreeAt(s) => code == ReservedNamespace && InReservedNamespace(s)
    case OnceAt(claims, i) =>
      code == DuplicateValue && i < |claims| && exists j | 0 <= j < i :: claims[j].externalID == claims[i].externalID
    case FormAt(o) => code == InvalidObject && (o.entity == "" <==> o.u64 == "")
    case DecimalAt(s) =>
      (match code
       case InvalidObject => s != "" && forall n | 0 <= n <= 18446744073709551615 :: s != FormatUint(n)
       case NumberOutOfRange => exists n | 9007199254740991 < n <= 18446744073709551615 :: s == FormatUint(n)
       case _ => false)
    case ConfidenceAt(c) => code == NumberOutOfRange && c.confidence.Some? && c.confidence.value > 1_000_000
    case EvidenceCountAt(n) => code == InvalidCount && n > 256
    case SourcedAt(es, sourced) => code == IncompatibleFields && es != [] && !sourced
    case MeaningAt(env, b, i) =>
      && code == DuplicateSemanticClaim && i < |b.claims|
      && exists j | 0 <= j < i :: ClaimEntity(env, b, b.claims[j]) == ClaimEntity(env, b, b.claims[i])
  }

  ghost predicate Broken(earlier: seq<Place>, p: Place, e: Invalid) { e.path == p.path && Breaks(p.site, e.code) }

  // ----------------------------------------------------- putting lists together

  ghost predicate Leads(ps: seq<Place>, error: Option<Invalid>) { Always(Broken, ps, error) }

  /** The one place leads to the error. */
  ghost predicate Says(p: Place, error: Option<Invalid>) {
    if error.Some? then error.value.path == p.path && Breaks(p.site, error.value.code)
    else forall code :: !Breaks(p.site, code)
  }

  lemma LeadsOne(p: Place, error: Option<Invalid>)
    requires Says(p, error)
    ensures Leads([p], error)
  {
    hide Breaks;
    AlwaysOne(Broken, p, error);
  }

  lemma LeadsConcat(x: seq<Place>, y: seq<Place>, first: Option<Invalid>, second: Option<Invalid>)
    requires Leads(x, first) && Leads(y, second)
    ensures Leads(x + y, OrElse(first, second))
  {
    hide Broken;
    AlwaysConcat(Broken, x, y, first, second);
  }

  lemma NothingLeads()
    ensures Leads([], None)
  {
    hide Broken;
    AlwaysNothing(Broken);
  }

  /** One block of places for each check of a list. */
  lemma {:induction false} BlocksLead(blocks: seq<seq<Place>>, checks: seq<Option<Invalid>>)
    requires |blocks| == |checks| && forall i | 0 <= i < |blocks| :: Leads(blocks[i], checks[i])
    ensures Leads(Flat(blocks), FirstOf(checks))
  {
    hide Leads;
    if blocks == [] {
      NothingLeads();
    } else {
      BlocksLead(blocks[1..], checks[1..]);
      LeadsConcat(blocks[0], Flat(blocks[1..]), checks[0], FirstOf(checks[1..]));
    }
  }

  /** One place for each check of a list. */
  lemma {:induction false} ChecksLead(ps: seq<Place>, checks: seq<Option<Invalid>>)
    requires |ps| == |checks| && forall i | 0 <= i < |ps| :: Says(ps[i], checks[i])
    ensures Leads(ps, FirstOf(checks))
  {
    hide Leads, Says;
    if ps == [] {
      NothingLeads();
    } else {
      LeadsOne(ps[0], checks[0]);
      ChecksLead(ps[1..], checks[1..]);
      LeadsConcat([ps[0]], ps[1..], checks[0], FirstOf(checks[1..]));
      assert [ps[0]] + ps[1..] == ps;
    }
  }

  lemma {:induction false} AlongLeads<T(!new)>(places: (T, nat) -> seq<Place>, check: (T, nat) -> Option<Invalid>,
                                               s: seq<T>, i: nat)
    requires forall x, k: nat :: Leads(places(x, k), check(x, k))
    ensures Leads(Along(places, s, i), FirstAlong(check, s, i))
    decreases |s| - i
  {
    hide Leads;
    if i >= |s| {
      NothingLeads();
    } else {
      AlongLeads(places, check, s, i + 1);
      LeadsConcat(places(s[i], i), Along(places, s, i + 1), check(s[i], i), FirstAlong(check, s, i + 1));
    }
  }

  // ----------------------------------------------------- single places

  lemma TextSays(s: string, path: string)
    ensures Says(Place(path, TextAt(s)), Utf8Error(s, path))
  {
    hide ValidUtf8;
  }

  lemma PlainSays(s: string, path: string)
    ensures Says(Place(path, RequiredAt(s)), Unless(s != "", MissingField, path))
    ensures Says(Place(path, BoundedAt(s, 4096)), Unless(|s| <= MAX_LABEL_BYTES, ValueTooLarge, path))
    ensures Says(Place(path, BoundedAt(s, 262144)), Unless(|s| <= MAX_TEXT_BYTES, ValueTooLarge, path))
  {
  }

  lemma DigestSays(s: string, path: string)
    ensures Says(Place(path, DigestAt(s)), Unless(ValidSHA256Identity(s), InvalidDigest, path))
  {
    assert forall c: char :: c in "0123456789abcdef" <==> LowerHex(c);
    assert |s| == 71 ==> (s[..7] == "sha256:" <==> "sha256:" <= s);
    assert |s| == 71 ==> forall i | 0 <= i < 64 :: s[7..][i] == s[i + 7];
  }

  lemma FreeSays(s: string, path: string)
    ensures Says(Place(path, FreeAt(s)), Unless(!Reserved(s), ReservedNamespace, path))
  {
    assert RESERVED[0] == "ingest:" && RESERVED[1] == "ingestion:sha256:" && RESERVED[2] == "claim:sha256:";
    assert RESERVED[3] == "producer:sha256:" && RESERVED[4] == "source:sha256:" && RESERVED[5] == "media-type:";
  }

  lemma UserLabelLeads(s: string, at: string)
    ensures Leads(UserLabel(s, at), UserLabelError(s, at))
  {
    hide Leads, Says, Reserved;
    PlainSays(s, at);
    FreeSays(s, at);
    LeadsOne(Place(at, BoundedAt(s, 4096)), Unless(|s| <= MAX_LABEL_BYTES, ValueTooLarge, at));
    LeadsOne(Place(at, FreeAt(s)), Unless(!Reserved(s), ReservedNamespace, at));
    LeadsConcat([Place(at, BoundedAt(s, 4096))], [Place(at, FreeAt(s))],
      Unless(|s| <= MAX_LABEL_BYTES, ValueTooLarge, at), Unless(!Reserved(s), ReservedNamespace, at));
    assert [Place(at, BoundedAt(s, 4096))] + [Place(at, FreeAt(s))] == UserLabel(s, at);
  }

  /** What a decimal may be, by the parser and by what it denotes. */
  lemma DecimalsOnly(s: string)
    ensures (exists n | 0 <= n <= 18446744073709551615 :: s == FormatUint(n)) <==>
              s != "" && (|s| > 1 ==> s[0] != '0') && ParseUint(s).Some?
    ensures forall n | 0 <= n <= 18446744073709551615 && s == FormatUint(n) ::
              s != "" && (|s| > 1 ==> s[0] != '0') && ParseUint(s) == Some(n)
  {
    forall n | 0 <= n <= 18446744073709551615 && s == FormatUint(n)
      ensures s != "" && (|s| > 1 ==> s[0] != '0') && ParseUint(s) == Some(n)
    {
      FormattedIsCanonical(n);
      DecimalsParseBack(n);
    }
    if s != "" && (|s| > 1 ==> s[0] != '0') && ParseUint(s).Some? {
      CanonicalIsFormatted(s);
      assert 0 <= ParseUint(s).value <= 18446744073709551615 && s == FormatUint(ParseUint(s).value);
    }
  }

  function DecimalError(s: string, path: string): Option<Invalid> {
    if s == "" then None
    else if |s| > 1 && s[0] == '0' then Some(Invalid(InvalidObject, path))
    else
      var value := ParseUint(s);
      if value.None? then Some(Invalid(InvalidObject, path))
      else Unless(value.value <= W.MAX_JS_SAFE_INTEGER, NumberOutOfRange, path)
  }

  lemma DecimalSays(s: string, path: string)
    ensures Says(Place(path, DecimalAt(s)), DecimalError(s, path))
  {
    hide FormatUint, ParseUint;
    var site := DecimalAt(s);
    DecimalsOnly(s);
    if exists n | 0 <= n <= 18446744073709551615 :: s == FormatUint(n) {
      var n :| 0 <= n <= 18446744073709551615 && s == FormatUint(n);
      assert ParseUint(s) == Some(n);
      assert !Breaks(site, InvalidObject);
      assert Breaks(site, NumberOutOfRange) <==> n > 9007199254740991;
    } else {
      assert Breaks(site, InvalidObject) <==> s != "";
      assert !Breaks(site, NumberOutOfRange);
      assert DecimalError(s, path) == if s == "" then None else Some(Invalid(InvalidObject, path));
    }
  }

  lemma ObjectLeads(o: Object, at: string)
    ensures Leads(ObjectPlaces(o, at), ObjectError(o, at))
  {
    hide Leads;
    var form := if (o.entity == "") == (o.u64 == "") then Some(Invalid(InvalidObject, at)) else None;
    LeadsOne(Place(at, FormAt(o)), form);
    DecimalSays(o.u64, at + ".u64");
    hide Says;
    LeadsOne(Place(at + ".u64", DecimalAt(o.u64)), DecimalError(o.u64, at + ".u64"));
    LeadsConcat([Place(at, FormAt(o))], [Place(at + ".u64", DecimalAt(o.u64))], form, DecimalError(o.u64, at + ".u64"));
    assert [Place(at, FormAt(o))] + [Place(at + ".u64", DecimalAt(o.u64))] == ObjectPlaces(o, at);
  }

  // ----------------------------------------------------- texts and head

  lemma TextsSay()
    ensures forall s, path :: Says(Place(path, TextAt(s)), Utf8Error(s, path))
  {
    hide Says, Utf8Error;
    forall s, path ensures Says(Place(path, TextAt(s)), Utf8Error(s, path)) { TextSays(s, path); }
  }

  lemma HeadTextsLead(b: Batch)
    ensures Leads(HeadTexts(b), FirstOf(HeadUtf8(b)))
  {
    hide Says, Utf8Error, Leads;
    TextsSay();
    ChecksLead(HeadTexts(b), HeadUtf8(b));
  }

  lemma SourceTextsLead(s: Option<Source>)
    ensures Leads(SourceTexts(s), if s.Some? then FirstOf(SourceUtf8(s.value)) else None)
  {
    hide Says, Utf8Error, Leads;
    if s.None? {
      NothingLeads();
    } else {
      TextsSay();
      ChecksLead(SourceTexts(s), SourceUtf8(s.value));
    }
  }

  lemma EvidenceTextsLead(es: seq<Evidence>, at: string)
    ensures Leads(Along((e: Evidence, j: nat) => EvidenceTexts(e, Spot(at + ".evidence", j)), es, 0),
                  EvidencesUtf8(at, es))
  {
    hide Says, Utf8Error, Leads;
    var places := (e: Evidence, j: nat) => EvidenceTexts(e, Spot(at + ".evidence", j));
    var check := (e: Evidence, j: nat) => FirstOf(EvidenceUtf8(e, W.PathIndex(at + ".evidence", j)));
    TextsSay();
    forall e, j: nat ensures Leads(places(e, j), check(e, j)) {
      assert Spot(at + ".evidence", j) == W.PathIndex(at + ".evidence", j);
      ChecksLead(places(e, j), EvidenceUtf8(e, W.PathIndex(at + ".evidence", j)));
    }
    AlongLeads(places, check, es, 0);
  }

  lemma ClaimTextsLead(c: Claim, i: nat)
    ensures Leads(ClaimTexts(c, i), ClaimUtf8(c, i))
  {
    hide Says, Utf8Error, Leads, EvidencesUtf8;
    var at := W.PathIndex("claims", i);
    assert at == Spot("claims", i);
    var ps := [Place(at + ".external_id", TextAt(c.externalID)), Place(at + ".subject", TextAt(c.subject)),
               Place(at + ".predicate", TextAt(c.pred)), Place(at + ".object.entity", TextAt(c.obj.entity)),
               Place(at + ".object.u64", TextAt(c.obj.u64))];
    var checks := [Utf8Error(c.externalID, at + ".external_id"), Utf8Error(c.subject, at + ".subject"),
                   Utf8Error(c.pred, at + ".predicate"), Utf8Error(c.obj.entity, at + ".object.entity"),
                   Utf8Error(c.obj.u64, at + ".object.u64")];
    TextsSay();
    ChecksLead(ps, checks);
    EvidenceTextsLead(c.evidence, at);
    LeadsConcat(ps, Along((e: Evidence, j: nat) => EvidenceTexts(e, Spot(at + ".evidence", j)), c.evidence, 0),
      FirstOf(checks), EvidencesUtf8(at, c.evidence));
  }

  lemma TextsLead(b: Batch)
    ensures Leads(Texts(b), StringsError(b))
  {
    hide Leads, ClaimTexts, ClaimUtf8, HeadTexts, HeadUtf8, SourceTexts, SourceUtf8;
    HeadTextsLead(b);
    SourceTextsLead(b.source);
    forall c, i: nat ensures Leads(ClaimTexts(c, i), ClaimUtf8(c, i)) { ClaimTextsLead(c, i); }
    AlongLeads(ClaimTexts, ClaimUtf8, b.claims, 0);
    var source := if b.source.Some? then FirstOf(SourceUtf8(b.source.value)) else None;
    LeadsConcat(SourceTexts(b.source), Along(ClaimTexts, b.claims, 0), source, FirstAlong(ClaimUtf8, b.claims, 0));
    LeadsConcat(HeadTexts(b), SourceTexts(b.source) + Along(ClaimTexts, b.claims, 0), FirstOf(HeadUtf8(b)),
      OrElse(source, FirstAlong(ClaimUtf8, b.claims, 0)));
  }

  lemma ProducerLeads(p: Producer)
    ensures Leads(ProducerPlaces(p), FirstOf(ProducerChecks(p)))
  {
    hide Says, Leads, ValidSHA256Identity;
    PlainSays(p.name, "producer.name");
    PlainSays(p.version, "producer.version");
    PlainSays(p.runID, "producer.run_id");
    DigestSays(p.schemaIdentity, "producer.schema_identity");
    ChecksLead(ProducerPlaces(p), ProducerChecks(p));
  }

  lemma ArtifactSays(a: Artifact)
    ensures Says(Place("source.artifact.uri", ArtifactURIAt(a)),
                 if a.mode in {"copy", "link", "purge", "none"} then ArtifactError(a) else None)
    ensures Says(Place("source.artifact.mode", ArtifactModeAt(a)),
                 if a.mode in {"copy", "link", "purge", "none"} then None else ArtifactError(a))
  {
  }

  lemma ArtifactLeads(a: Artifact)
    ensures Leads([Place("source.artifact.uri", ArtifactURIAt(a)), Place("source.artifact.mode", ArtifactModeAt(a))],
                  ArtifactError(a))
  {
    hide Says, Leads, ArtifactError;
    ArtifactSays(a);
    var uri := if a.mode in {"copy", "link", "purge", "none"} then ArtifactError(a) else None;
    var mode := if a.mode in {"copy", "link", "purge", "none"} then None else ArtifactError(a);
    var p, q := Place("source.artifact.uri", ArtifactURIAt(a)), Place("source.artifact.mode", ArtifactModeAt(a));
    LeadsOne(p, uri);
    LeadsOne(q, mode);
    LeadsConcat([p], [q], uri, mode);
    assert [p] + [q] == [p, q];
  }

  lemma SourceLeads(env: Environment, s: Option<Source>)
    ensures Leads(SourcePlaces(env, s), if s.Some? then FirstOf(SourceChecks(env, s.value)) else None)
  {
    hide Says, Leads, ValidSHA256Identity, ArtifactError;
    if s.None? {
      NothingLeads();
    } else {
      var media, uri := s.value.mediaType, s.value.artifact.uri;
      DigestSays(s.value.digest, "source.digest");
      PlainSays(media, "source.media_type");
      PlainSays(uri, "source.artifact.uri");
      MediaTypeSays(env.canonicalMediaType(media));
      ArtifactLeads(s.value.artifact);
      var ps := SourcePlaces(env, s);
      LeadsOne(ps[0], Unless(ValidSHA256Identity(s.value.digest), InvalidDigest, "source.digest"));
      LeadsOne(ps[1], Unless(media != "", MissingField, "source.media_type"));
      LeadsOne(ps[2], Unless(|media| <= MAX_LABEL_BYTES, ValueTooLarge, "source.media_type"));
      LeadsOne(ps[3], Unless(env.canonicalMediaType(media), InvalidMediaType, "source.media_type"));
      LeadsOne(ps[4], Unless(|uri| <= MAX_TEXT_BYTES, ValueTooLarge, "source.artifact.uri"));
      BlocksLead([[ps[0]], [ps[1]], [ps[2]], [ps[3]], [ps[4]], [ps[5], ps[6]]], SourceChecks(env, s.value));
      FlatSix([ps[0]], [ps[1]], [ps[2]], [ps[3]], [ps[4]], [ps[5], ps[6]]);
      assert [ps[0]] + ([ps[1]] + ([ps[2]] + ([ps[3]] + ([ps[4]] + [ps[5], ps[6]])))) == ps;
    }
  }

  lemma MediaTypeSays(canonical: bool)
    ensures Says(Place("source.media_type", MediaTypeAt(canonical)),
                 Unless(canonical, InvalidMediaType, "source.media_type"))
  {
  }

  lemma FlatSix(a: seq<Place>, b: seq<Place>, c: seq<Place>, d: seq<Place>, e: seq<Place>, f: seq<Place>)
    ensures Flat([a, b, c, d, e, f]) == a + (b + (c + (d + (e + f))))
  {
    var bs := [a, b, c, d, e, f];
    assert bs[1..] == [b, c, d, e, f] && bs[1..][1..] == [c, d, e, f] && bs[1..][1..][1..] == [d, e, f];
    assert [d, e, f][1..] == [e, f] && [e, f][1..] == [f] && [f][1..] == [];
    assert Flat([f]) == f + [] == f;
    assert Flat([e, f]) == e + f && Flat([d, e, f]) == d + (e + f);
    assert Flat([c, d, e, f]) == c + (d + (e + f)) && Flat([b, c, d, e, f]) == b + (c + (d + (e + f)));
  }

  lemma HeadSays(b: Batch)
    ensures Says(Place("schema", SchemaAt(b.schema)), Unless(b.schema == SCHEMA_V1, UnsupportedValue, "schema"))
    ensures Says(Place("profile", ProfileAt(b.profile)),
                 Unless(b.profile in {KNOWLEDGE_PROPOSALS, TRUSTED_FACTS}, UnsupportedValue, "profile"))
    ensures Says(Place("claims", ClaimCountAt(|b.claims|)),
                 Unless(1 <= |b.claims| <= MAX_CLAIMS, InvalidCount, "claims"))
  {
  }

  lemma HeadLeads(env: Environment, b: Batch)
    ensures Leads(HeadPlaces(env, b), HeadError(env, b))
  {
    hide Says, Leads, ProducerPlaces, ProducerChecks, SourcePlaces, SourceChecks, SCHEMA_V1, KNOWLEDGE_PROPOSALS,
      TRUSTED_FACTS;
    HeadSays(b);
    ProducerLeads(b.producer);
    SourceLeads(env, b.source);
    var schema, profile, count := Place("schema", SchemaAt(b.schema)), Place("profile", ProfileAt(b.profile)),
      Place("claims", ClaimCountAt(|b.claims|));
    var schema', profile' := Unless(b.schema == SCHEMA_V1, UnsupportedValue, "schema"),
      Unless(b.profile in {KNOWLEDGE_PROPOSALS, TRUSTED_FACTS}, UnsupportedValue, "profile");
    var count' := Unless(1 <= |b.claims| <= MAX_CLAIMS, InvalidCount, "claims");
    var source' := if b.source.Some? then FirstOf(SourceChecks(env, b.source.value)) else None;
    var producer' := FirstOf(ProducerChecks(b.producer));
    LeadsOne(schema, schema');
    LeadsOne(profile, profile');
    LeadsOne(count, count');
    LeadsConcat(SourcePlaces(env, b.source), [count], source', count');
    LeadsConcat(ProducerPlaces(b.producer), SourcePlaces(env, b.source) + [count], producer', OrElse(source', count'));
    LeadsConcat([profile], ProducerPlaces(b.producer) + (SourcePlaces(env, b.source) + [count]), profile',
      OrElse(producer', OrElse(source', count')));
    LeadsConcat([schema], [profile] + (ProducerPlaces(b.producer) + (SourcePlaces(env, b.source) + [count])), schema',
      OrElse(profile', OrElse(producer', OrElse(source', count'))));
  }

  // ----------------------------------------------------- claims

  lemma BeforeLeads(c: Claim, at: string)
    ensures Leads(BeforePlaces(c, at), FirstOf(BeforeID(c, at)))
  {
    hide Says, Leads, UserLabel, UserLabelError, Flat;
    PlainSays(c.externalID, at + ".external_id");
    PlainSays(c.subject, at + ".subject");
    PlainSays(c.pred, at + ".predicate");
    LeadsOne(Place(at + ".external_id", RequiredAt(c.externalID)),
      Unless(c.externalID != "", MissingField, at + ".external_id"));
    LeadsOne(Place(at + ".subject", RequiredAt(c.subject)), Unless(c.subject != "", MissingField, at + ".subject"));
    LeadsOne(Place(at + ".predicate", RequiredAt(c.pred)), Unless(c.pred != "", MissingField, at + ".predicate"));
    LeadsOne(Place(at + ".external_id", BoundedAt(c.externalID, 4096)),
      Unless(|c.externalID| <= MAX_LABEL_BYTES, ValueTooLarge, at + ".external_id"));
    UserLabelLeads(c.subject, at + ".subject");
    UserLabelLeads(c.pred, at + ".predicate");
    BlocksLead([[Place(at + ".external_id", RequiredAt(c.externalID))], [Place(at + ".subject", RequiredAt(c.subject))],
                [Place(at + ".predicate", RequiredAt(c.pred))],
                [Place(at + ".external_id", BoundedAt(c.externalID, 4096))],
                UserLabel(c.subject, at + ".subject"), UserLabel(c.pred, at + ".predicate")], BeforeID(c, at));
  }

  lemma EvidenceLeads(es: seq<Evidence>, at: string)
    ensures Leads(Along((e: Evidence, j: nat) => EvidencePlaces(e, Spot(at + ".evidence", j)), es, 0),
                  EvidencesError(at, es))
  {
    hide Says, Leads, EvidencePlaces, EvidenceChecks;
    var places := (e: Evidence, j: nat) => EvidencePlaces(e, Spot(at + ".evidence", j));
    var check := (e: Evidence, j: nat) => FirstOf(EvidenceChecks(e, W.PathIndex(at + ".evidence", j)));
    forall e, j: nat ensures Leads(places(e, j), check(e, j)) {
      assert Spot(at + ".evidence", j) == W.PathIndex(at + ".evidence", j);
      OneEvidenceLeads(e, Spot(at + ".evidence", j));
    }
    AlongLeads(places, check, es, 0);
  }

  lemma OneEvidenceLeads(e: Evidence, at: string)
    ensures Leads(EvidencePlaces(e, at), FirstOf(EvidenceChecks(e, at)))
  {
    hide Says, Leads;
    PlainSays(e.locator, at + ".locator");
    PlainSays(e.quote, at + ".quote");
    ChecksLead(EvidencePlaces(e, at), EvidenceChecks(e, at));
  }

  lemma LimitsSay(c: Claim, sourced: bool, at: string)
    ensures Says(Place(at + ".confidence_ppm", ConfidenceAt(c)),
                 Unless(c.confidence.Some? ==> c.confidence.value <= 1_000_000, NumberOutOfRange,
                        at + ".confidence_ppm"))
    ensures Says(Place(at + ".evidence", EvidenceCountAt(|c.evidence|)),
                 Unless(|c.evidence| <= MAX_EVIDENCE, InvalidCount, at + ".evidence"))
    ensures Says(Place(at + ".evidence", SourcedAt(c.evidence, sourced)),
                 Unless(c.evidence != [] ==> sourced, IncompatibleFields, at + ".evidence"))
  {
  }

  lemma EntityLeads(o: Object, at: string)
    ensures Leads(if o.entity == "" then [] else UserLabel(o.entity, at),
                  if o.entity != "" then UserLabelError(o.entity, at) else None)
  {
    hide Leads;
    NothingLeads();
    UserLabelLeads(o.entity, at);
  }

  lemma AfterLeads(c: Claim, sourced: bool, at: string)
    ensures Leads(AfterPlaces(c, sourced, at), FirstOf(AfterID(c, sourced, at)))
  {
    hide Says, Leads, UserLabel, UserLabelError, Flat, ObjectPlaces, ObjectError, EvidencesError, Along;
    ObjectLeads(c.obj, at + ".object");
    EntityLeads(c.obj, at + ".object.entity");
    LimitsSay(c, sourced, at);
    EvidenceLeads(c.evidence, at);
    LeadsOne(Place(at + ".confidence_ppm", ConfidenceAt(c)),
      Unless(c.confidence.Some? ==> c.confidence.value <= 1_000_000, NumberOutOfRange, at + ".confidence_ppm"));
    LeadsOne(Place(at + ".evidence", EvidenceCountAt(|c.evidence|)),
      Unless(|c.evidence| <= MAX_EVIDENCE, InvalidCount, at + ".evidence"));
    LeadsOne(Place(at + ".evidence", SourcedAt(c.evidence, sourced)),
      Unless(c.evidence != [] ==> sourced, IncompatibleFields, at + ".evidence"));
    BlocksLead([ObjectPlaces(c.obj, at + ".object"),
                if c.obj.entity == "" then [] else UserLabel(c.obj.entity, at + ".object.entity"),
                [Place(at + ".confidence_ppm", ConfidenceAt(c))],
                [Place(at + ".evidence", EvidenceCountAt(|c.evidence|))],
                [Place(at + ".evidence", SourcedAt(c.evidence, sourced))],
                Along((e: Evidence, j: nat) => EvidencePlaces(e, Spot(at + ".evidence", j)), c.evidence, 0)],
      AfterID(c, sourced, at));
  }

  lemma OnceSays(claims: seq<Claim>, i: nat, at: string)
    requires i < |claims|
    ensures Says(Place(at, OnceAt(claims, i)), Unless(!UsedBefore(claims, i), DuplicateValue, at))
  {
  }

  lemma {:induction false} ClaimsLead(b: Batch, i: nat)
    ensures Leads(ClaimPlaces(b, i), ClaimsError(b, i))
    decreases |b.claims| - i
  {
    hide Says, Leads, BeforePlaces, BeforeID, AfterPlaces, AfterID, UsedBefore;
    if i >= |b.claims| {
      NothingLeads();
    } else {
      var c, at, sourced := b.claims[i], Spot("claims", i), b.source.Some?;
      assert at == W.PathIndex("claims", i);
      var once := Unless(!UsedBefore(b.claims, i), DuplicateValue, at + ".external_id");
      var place := Place(at + ".external_id", OnceAt(b.claims, i));
      BeforeLeads(c, at);
      OnceSays(b.claims, i, at + ".external_id");
      LeadsOne(place, once);
      AfterLeads(c, sourced, at);
      ClaimsLead(b, i + 1);
      LeadsConcat([place], AfterPlaces(c, sourced, at), once, FirstOf(AfterID(c, sourced, at)));
      LeadsConcat(BeforePlaces(c, at), [place] + AfterPlaces(c, sourced, at), FirstOf(BeforeID(c, at)),
        OrElse(once, FirstOf(AfterID(c, sourced, at))));
      LeadsConcat(BeforePlaces(c, at) + ([place] + AfterPlaces(c, sourced, at)), ClaimPlaces(b, i + 1),
        ClaimError(b, i), ClaimsError(b, i + 1));
    }
  }

  lemma MeaningSays(env: Environment, b: Batch, i: nat, at: string)
    requires i < |b.claims|
    ensures Says(Place(at, MeaningAt(env, b, i)), Unless(!SeenBefore(env, b, i), DuplicateSemanticClaim, at))
  {
    hide ClaimEntity;
  }

  lemma {:induction false} MeaningsLead(env: Environment, b: Batch, i: nat)
    ensures Leads(MeaningPlaces(env, b, i), UniquenessError(env, b, i))
    decreases |b.claims| - i
  {
    hide Says, Leads, SeenBefore;
    if i >= |b.claims| {
      NothingLeads();
    } else {
      var at := Spot("claims", i);
      assert at == W.PathIndex("claims", i);
      MeaningSays(env, b, i, at);
      MeaningsLead(env, b, i + 1);
      LeadsOne(Place(at, MeaningAt(env, b, i)), Unless(!SeenBefore(env, b, i), DuplicateSemanticClaim, at));
      LeadsConcat([Place(at, MeaningAt(env, b, i))], MeaningPlaces(env, b, i + 1),
        Unless(!SeenBefore(env, b, i), DuplicateSemanticClaim, at), UniquenessError(env, b, i + 1));
    }
  }

  /**
   What an error of the validator says: going through everything there is to look at
   in a batch, at the first place where a rule is broken, it is the rule that the
   code names and the path is that of the place.  There is no error exactly when no
   rule is broken anywhere.
   */
  lemma ErrorsNameTheFirstBrokenRule(env: Environment, b: Batch)
    ensures Reports(Broken, [], Places(env, b), BatchError(env, b))
  {
    hide Leads, Broken, Texts, StringsError, HeadPlaces, HeadError, ClaimPlaces, ClaimsError, MeaningPlaces,
      UniquenessError;
    TextsLead(b);
    HeadLeads(env, b);
    ClaimsLead(b, 0);
    MeaningsLead(env, b, 0);
    var claims, meanings := ClaimPlaces(b, 0), MeaningPlaces(env, b, 0);
    var claims', meanings' := ClaimsError(b, 0), UniquenessError(env, b, 0);
    LeadsConcat(claims, meanings, claims', meanings');
    LeadsConcat(HeadPlaces(env, b), claims + meanings, HeadError(env, b), OrElse(claims', meanings'));
    LeadsConcat(Texts(b), HeadPlaces(env, b) + (claims + meanings), StringsError(b),
      OrElse(HeadError(env, b), OrElse(claims', meanings')));
    FromLeads(Places(env, b), BatchError(env, b));
  }

  lemma FromLeads(ps: seq<Place>, error: Option<Invalid>)
    requires Leads(ps, error)
    ensures Reports(Broken, [], ps, error)
  {
  }
}
