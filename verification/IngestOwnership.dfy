/** When the write package accepts what the ingestion compiler emits, and how it would encode it. */
module IngestOwnership {
  import opened Wrappers
  import opened Text
  import opened Json
  import opened Permutations
  import opened Ingest
  import opened IngestValidation
  import opened IngestIdentity
  import opened IngestCompiler
  import opened IngestProperties
  import W = WriteTypes
  import O = Ownership
  import OI = OrderIndependence
  import TS = TripleStore
  import WV = WriteValidation
  import WW = WriteWire

  // --------------------------------------------------- triples of records

  function Triples(rs: seq<W.Record>): (ts: seq<O.Claim>)
    ensures |ts| == |rs|
  {
    MapSeq(O.Destination, rs)
  }

  lemma TriplesConcat(a: seq<W.Record>, b: seq<W.Record>)
    ensures Triples(a + b) == Triples(a) + Triples(b)
  {
  }

  predicate IsEnsured(r: W.Record) { r.mode == W.ENSURE }

  lemma {:induction false} EnsuredClaims(rs: seq<W.Record>)
    requires All(IsEnsured, rs)
    ensures FilterMap(OI.ClaimOf, FilterMap(OI.RecordMutation, rs)) == Triples(rs)
    ensures FilterMap(OI.DestinationOf, FilterMap(OI.RecordMutation, rs)) == []
  {
    hide FilterMap;
    if rs == [] {
      NoImages(OI.RecordMutation);
      NoImages(OI.ClaimOf);
      NoImages(OI.DestinationOf);
    } else {
      var r := rs[0];
      assert rs == [r] + rs[1..];
      assert IsEnsured(r);
      assert All(IsEnsured, rs[1..]);
      EnsuredClaims(rs[1..]);
      EnsuredClaim(r);
      FilterMapConcat(OI.RecordMutation, [r], rs[1..]);
      FilterMapConcat(OI.ClaimOf, FilterMap(OI.RecordMutation, [r]), FilterMap(OI.RecordMutation, rs[1..]));
      FilterMapConcat(OI.DestinationOf, FilterMap(OI.RecordMutation, [r]), FilterMap(OI.RecordMutation, rs[1..]));
      TriplesConcat([r], rs[1..]);
    }
  }

  lemma EnsuredClaim(r: W.Record)
    requires IsEnsured(r)
    ensures FilterMap(OI.ClaimOf, FilterMap(OI.RecordMutation, [r])) == Triples([r]) == [O.Destination(r)]
    ensures FilterMap(OI.DestinationOf, FilterMap(OI.RecordMutation, [r])) == []
  {
  }

  lemma OnlyRecords(rs: seq<W.Record>)
    ensures OI.Mutations(RequestOf(rs)) == FilterMap(OI.RecordMutation, rs)
    ensures OI.FactTargets(RequestOf(rs)) == []
  {
    FilterMapOfNothing(TS.TargetOf, OI.RecordMutation, rs);
  }

  // -------------------------------------------- triples apart from triples

  /** A fingerprint that tells the compiler's own triples about one entity apart. */
  function Mark(t: O.Claim): int
    requires t.ExactClaim? && t.slot.subject != ""
  {
    |t.slot.pred| * 1000 + t.slot.subject[0] as int * 2 + if t.obj.Number? then 1 else 0
  }

  ghost predicate Marked(ts: seq<O.Claim>, marks: seq<int>) {
    && |ts| == |marks|
    && forall i | 0 <= i < |ts| :: ts[i].ExactClaim? && ts[i].slot.subject != "" && Mark(ts[i]) == marks[i]
  }

  lemma MarksTell(ts: seq<O.Claim>, marks: seq<int>)
    requires Marked(ts, marks) && NoRepeats(marks)
    ensures NoRepeats(ts)
  {
  }

  lemma FirstLetters(env: Environment, b: Batch)
    ensures BatchEntity(env, b) != "" && BatchEntity(env, b)[0] == 'i'
    ensures ProducerEntity(env, b.producer) != "" && ProducerEntity(env, b.producer)[0] == 'p'
    ensures b.source.Some? ==> SourceEntity(b) != "" && SourceEntity(b)[0] == 's'
    ensures forall c :: ClaimEntity(env, b, c) != "" && ClaimEntity(env, b, c)[0] == 'c'
  {
    hide Marshal, ClaimIdentity, CanonicalText;
  }

  lemma PredicateLengths()
    ensures |IS_A| == 11 && |PROFILE| == 14 && |PRODUCER| == 15 && |SCHEMA_IDENTITY| == 22 && |SOURCE| == 13
    ensures |ARTIFACT_MODE| == 20 && |MEDIA_TYPE| == 17 && |PRODUCED| == 15 && |INITIAL_STATUS| == 21
    ensures |CANDIDATE_SUBJECT| == 24 && |CANDIDATE_PREDICATE| == 26 && |CANDIDATE_OBJECT| == 23
    ensures |CONFIDENCE_PPM| == 21 && |SUPPORTS| == 15 && |MANIFEST| == 15
    ensures PRODUCED != SUPPORTS && PRODUCED != PRODUCER && MANIFEST != PRODUCED && MANIFEST != PRODUCER
            && MANIFEST != SUPPORTS
  {
  }

  /** Everything the head ensures; the manifest alone is appended. */
  function HeadEnsures(env: Environment, b: Batch): seq<W.Record> {
    BatchRecords(env, b) + ProducerRecords(env, b) + SourceRecords(env, b)
  }

  function HeadMarks(b: Batch): seq<int> {
    [11210, 14210, 15210, 11224, 22224] + if b.source.Some? then [13210, 20210, 11230, 17230] else []
  }

  lemma MarkedConcat(a: seq<W.Record>, m: seq<int>, b: seq<W.Record>, n: seq<int>)
    requires Marked(Triples(a), m) && Marked(Triples(b), n)
    ensures Marked(Triples(a + b), m + n)
  {
    hide Triples, Mark;
    TriplesConcat(a, b);
  }

  lemma MarkOf(subject: string, pred: string, obj: W.Object)
    requires subject != ""
    ensures Mark(O.Destination(Ensured(subject, pred, obj)))
         == |pred| * 1000 + subject[0] as int * 2 + One(obj.Number?)
  {
  }

  lemma MarkedSix(a: W.Record, b: W.Record, c: W.Record, d: W.Record, e: W.Record, f: W.Record, marks: seq<int>)
    requires a.subject != "" && b.subject != "" && c.subject != ""
    requires d.subject != "" && e.subject != "" && f.subject != ""
    requires marks == [Mark(O.Destination(a)), Mark(O.Destination(b)), Mark(O.Destination(c)), Mark(O.Destination(d)),
                       Mark(O.Destination(e)), Mark(O.Destination(f))]
    ensures Marked(Triples([a, b, c, d, e, f]), marks)
  {
  }

  lemma MarkedEach(rs: seq<W.Record>, marks: seq<int>)
    requires |rs| == |marks|
    requires forall i | 0 <= i < |rs| :: rs[i].subject != "" && Mark(O.Destination(rs[i])) == marks[i]
    ensures Marked(Triples(rs), marks)
  {
  }

  lemma HeadIsMarked(env: Environment, b: Batch)
    ensures Marked(Triples(HeadEnsures(env, b)), HeadMarks(b))
  {
    hide BatchEntity, ProducerEntity, SourceEntity, Triples, Marked;
    FirstLetters(env, b);
    PredicateLengths();
    hide IS_A, PROFILE, PRODUCER, SCHEMA_IDENTITY, SOURCE, ARTIFACT_MODE, MEDIA_TYPE;
    MarkedEach(BatchRecords(env, b), [11210, 14210]);
    MarkedEach(ProducerRecords(env, b), [15210, 11224, 22224]);
    MarkedEach(SourceRecords(env, b), if b.source.Some? then [13210, 20210, 11230, 17230] else []);
    hide BatchRecords, ProducerRecords, SourceRecords;
    assert [11210, 14210] + [15210, 11224, 22224] == [11210, 14210, 15210, 11224, 22224];
    MarkedConcat(BatchRecords(env, b), [11210, 14210], ProducerRecords(env, b), [15210, 11224, 22224]);
    MarkedConcat(BatchRecords(env, b) + ProducerRecords(env, b), [11210, 14210] + [15210, 11224, 22224],
      SourceRecords(env, b), if b.source.Some? then [13210, 20210, 11230, 17230] else []);
  }

  function ClaimMarks(b: Batch, c: Claim): seq<int> {
    FactMarks(c) + (if c.confidence.Some? then [21199] else []) + (if b.source.Some? then [15198] else [])
  }

  function FactMarks(c: Claim): seq<int> {
    [15210, 11198, 21198, 24198, 26198, 23198 + One(ObjectValue(c.obj).Number?)]
  }

  lemma FactsAreMarked(env: Environment, b: Batch, c: Claim)
    ensures Marked(Triples(ClaimFacts(env, b, c)), FactMarks(c))
  {
    FirstLetters(env, b);
    PredicateLengths();
    hide BatchEntity, ClaimEntity, ObjectValue, Triples, Marked, Mark, Ensured, O.Destination, Status;
    hide PRODUCED, IS_A, INITIAL_STATUS, CANDIDATE_SUBJECT, CANDIDATE_PREDICATE, CANDIDATE_OBJECT;
    var batch, entity := BatchEntity(env, b), ClaimEntity(env, b, c);
    MarkOf(batch, PRODUCED, W.Entity(entity));
    MarkOf(entity, IS_A, W.Entity(CLAIM_KIND));
    MarkOf(entity, INITIAL_STATUS, W.Entity(Status(b)));
    MarkOf(entity, CANDIDATE_SUBJECT, W.Entity(c.subject));
    MarkOf(entity, CANDIDATE_PREDICATE, W.Entity(c.pred));
    MarkOf(entity, CANDIDATE_OBJECT, ObjectValue(c.obj));
    EnsuredSubject(batch, PRODUCED, W.Entity(entity));
    EnsuredSubject(entity, IS_A, W.Entity(CLAIM_KIND));
    EnsuredSubject(entity, INITIAL_STATUS, W.Entity(Status(b)));
    EnsuredSubject(entity, CANDIDATE_SUBJECT, W.Entity(c.subject));
    EnsuredSubject(entity, CANDIDATE_PREDICATE, W.Entity(c.pred));
    EnsuredSubject(entity, CANDIDATE_OBJECT, ObjectValue(c.obj));
    MarkedSix(Named(batch, PRODUCED, entity), Named(entity, IS_A, CLAIM_KIND), Named(entity, INITIAL_STATUS, Status(b)),
      Named(entity, CANDIDATE_SUBJECT, c.subject), Named(entity, CANDIDATE_PREDICATE, c.pred),
      Ensured(entity, CANDIDATE_OBJECT, ObjectValue(c.obj)), FactMarks(c));
  }

  lemma EnsuredSubject(subject: string, pred: string, obj: W.Object)
    ensures Ensured(subject, pred, obj).subject == subject
  {
  }

  lemma ClaimIsMarked(env: Environment, b: Batch, c: Claim)
    ensures Marked(Triples(AboutClaim(env, b, c)), ClaimMarks(b, c))
  {
    FactsAreMarked(env, b, c);
    FirstLetters(env, b);
    PredicateLengths();
    hide SourceEntity, ClaimEntity, Triples, Marked, ClaimFacts, FactMarks, CONFIDENCE_PPM, SUPPORTS;
    var entity := ClaimEntity(env, b, c);
    var confidence := if c.confidence.Some? then [21199] else [];
    var support := if b.source.Some? then [15198] else [];
    MarkedEach(ConfidenceRecords(entity, c), confidence);
    MarkedEach(SupportRecords(entity, b), support);
    hide ConfidenceRecords, SupportRecords;
    MarkedConcat(ClaimFacts(env, b, c), FactMarks(c), ConfidenceRecords(entity, c), confidence);
    MarkedConcat(ClaimFacts(env, b, c) + ConfidenceRecords(entity, c), FactMarks(c) + confidence,
      SupportRecords(entity, b), support);
  }

  lemma HeadMarksDoNotRepeat(b: Batch)
    ensures NoRepeats(HeadMarks(b))
  {
  }

  lemma HeadDoesNotRepeat(env: Environment, b: Batch)
    ensures NoRepeats(Triples(HeadEnsures(env, b)))
  {
    hide HeadMarks, NoRepeats, Triples, HeadEnsures, Marked;
    HeadMarksDoNotRepeat(b);
    HeadIsMarked(env, b);
    MarksTell(Triples(HeadEnsures(env, b)), HeadMarks(b));
  }

  lemma MarksDoNotRepeat(b: Batch, c: Claim)
    ensures NoRepeats(ClaimMarks(b, c))
  {
  }

  lemma ClaimDoesNotRepeat(env: Environment, b: Batch, c: Claim)
    ensures NoRepeats(Triples(AboutClaim(env, b, c)))
  {
    hide ClaimMarks, NoRepeats, Triples, AboutClaim, Marked;
    MarksDoNotRepeat(b, c);
    ClaimIsMarked(env, b, c);
    MarksTell(Triples(AboutClaim(env, b, c)), ClaimMarks(b, c));
  }

  // --------------------------------------------------- the blocks together

  lemma NoRepeatsConcat<T(!new)>(a: seq<T>, b: seq<T>)
    ensures NoRepeats(a + b) <==> NoRepeats(a) && NoRepeats(b) && forall x | x in a :: x !in b
  {
    var all := a + b;
    if NoRepeats(a) && NoRepeats(b) && forall x | x in a :: x !in b {
      forall i, j | 0 <= i < j < |all| ensures all[i] != all[j] {
        assert i < |a| ==> all[i] in a;
        assert j >= |a| ==> all[j] in b;
      }
    }
    if NoRepeats(all) {
      forall i, j | 0 <= i < j < |a| ensures a[i] != a[j] {
        assert all[i] != all[j];
      }
      forall i, j | 0 <= i < j < |b| ensures b[i] != b[j] {
        assert all[|a| + i] != all[|a| + j];
      }
      forall i, j | 0 <= i < |a| && 0 <= j < |b| ensures a[i] != b[j] {
        assert all[i] != all[|a| + j];
      }
    }
  }

  /** The entity an own triple is about: its subject, or the claim the batch produced. */
  function OwnerOf(t: O.Claim): string {
    if t.slot.pred == PRODUCED && t.ExactClaim? && t.obj.Entity? then t.obj.name else t.slot.subject
  }

  predicate Own(t: O.Claim, owner: string) { IngestName(t.slot.pred) && OwnerOf(t) == owner }

  predicate OfHead(t: O.Claim) {
    IngestName(t.slot.pred) && t.slot.pred != MANIFEST && OwnerOf(t) != "" && OwnerOf(t)[0] != 'c'
  }

  predicate NotManifest(r: W.Record) { r.pred != MANIFEST && IsEnsured(r) }

  ghost predicate HeadRecord(r: W.Record) { OfHead(O.Destination(r)) && NotManifest(r) }

  lemma HeadFact(subject: string, pred: string, obj: W.Object)
    requires IngestName(pred) && pred != MANIFEST && pred != PRODUCED && subject != "" && subject[0] != 'c'
    ensures HeadRecord(Ensured(subject, pred, obj))
  {
  }

  lemma HeadBlocks(env: Environment, b: Batch)
    ensures All(HeadRecord, BatchRecords(env, b)) && All(HeadRecord, ProducerRecords(env, b))
    ensures All(HeadRecord, SourceRecords(env, b))
  {
    hide BatchEntity, ProducerEntity, SourceEntity;
    FirstLetters(env, b);
    PredicateLengths();
    PredicatesAreIngestNames();
    hide IS_A, PROFILE, PRODUCER, SCHEMA_IDENTITY, SOURCE, ARTIFACT_MODE, MEDIA_TYPE, PRODUCED, MANIFEST, IngestName,
      OfHead, O.Destination;
    forall r | r in BatchRecords(env, b) || r in ProducerRecords(env, b) || r in SourceRecords(env, b)
      ensures HeadRecord(r)
    {
      HeadFact(r.subject, r.pred, r.obj);
    }
  }

  lemma HeadTriples(env: Environment, b: Batch)
    ensures All(NotManifest, HeadEnsures(env, b))
    ensures forall t | t in Triples(HeadEnsures(env, b)) :: OfHead(t)
  {
    hide BatchRecords, ProducerRecords, SourceRecords, OfHead, NotManifest, O.Destination;
    HeadBlocks(env, b);
    var rs, ts := HeadEnsures(env, b), Triples(HeadEnsures(env, b));
    forall i | 0 <= i < |rs| ensures OfHead(ts[i]) && NotManifest(rs[i]) {
      assert ts[i] == O.Destination(rs[i]);
      assert HeadRecord(rs[i]);
    }
  }

  lemma PredicatesAreIngestNames()
    ensures IngestName(IS_A) && IngestName(PROFILE) && IngestName(PRODUCER) && IngestName(SCHEMA_IDENTITY)
    ensures IngestName(SOURCE) && IngestName(ARTIFACT_MODE) && IngestName(MEDIA_TYPE) && IngestName(PRODUCED)
    ensures IngestName(INITIAL_STATUS) && IngestName(CANDIDATE_SUBJECT) && IngestName(CANDIDATE_PREDICATE)
    ensures IngestName(CANDIDATE_OBJECT) && IngestName(CONFIDENCE_PPM) && IngestName(SUPPORTS) && IngestName(MANIFEST)
  {
  }

  predicate OwnRecord(r: W.Record, owner: string) { Own(O.Destination(r), owner) && NotManifest(r) }

  lemma OwnFact(entity: string, pred: string, obj: W.Object)
    requires IngestName(pred) && pred != MANIFEST && pred != PRODUCED
    ensures OwnRecord(Ensured(entity, pred, obj), entity)
  {
  }

  lemma OwnProduction(batch: string, entity: string)
    ensures OwnRecord(Named(batch, PRODUCED, entity), entity)
  {
  }

  lemma OtherPredicates()
    ensures PRODUCED !in {IS_A, INITIAL_STATUS, CANDIDATE_SUBJECT, CANDIDATE_PREDICATE, CANDIDATE_OBJECT,
                          CONFIDENCE_PPM, SUPPORTS}
    ensures MANIFEST !in {IS_A, INITIAL_STATUS, CANDIDATE_SUBJECT, CANDIDATE_PREDICATE, CANDIDATE_OBJECT,
                          CONFIDENCE_PPM, SUPPORTS}
  {
  }

  lemma ClaimRecordsAreOwn(env: Environment, b: Batch, c: Claim)
    ensures All(r => OwnRecord(r, ClaimEntity(env, b, c)), AboutClaim(env, b, c))
  {
    OtherPredicates();
    PredicatesAreIngestNames();
    hide BatchEntity, SourceEntity, ClaimEntity, ObjectValue, OwnRecord, Ensured, AboutClaim, IngestName;
    hide PRODUCED, IS_A, INITIAL_STATUS, CANDIDATE_SUBJECT, CANDIDATE_PREDICATE, CANDIDATE_OBJECT, CONFIDENCE_PPM,
      SUPPORTS, MANIFEST;
    var entity := ClaimEntity(env, b, c);
    var p: W.Record -> bool := r => OwnRecord(r, entity);
    OwnProduction(BatchEntity(env, b), entity);
    OwnFact(entity, IS_A, W.Entity(CLAIM_KIND));
    OwnFact(entity, INITIAL_STATUS, W.Entity(Status(b)));
    OwnFact(entity, CANDIDATE_SUBJECT, W.Entity(c.subject));
    OwnFact(entity, CANDIDATE_PREDICATE, W.Entity(c.pred));
    OwnFact(entity, CANDIDATE_OBJECT, ObjectValue(c.obj));
    AllOfSix(p, Named(BatchEntity(env, b), PRODUCED, entity), Named(entity, IS_A, CLAIM_KIND),
      Named(entity, INITIAL_STATUS, Status(b)), Named(entity, CANDIDATE_SUBJECT, c.subject),
      Named(entity, CANDIDATE_PREDICATE, c.pred), Ensured(entity, CANDIDATE_OBJECT, ObjectValue(c.obj)));
    if c.confidence.Some? {
      OwnFact(entity, CONFIDENCE_PPM, W.Number(c.confidence.value));
    }
    if b.source.Some? {
      OwnFact(entity, SUPPORTS, W.Entity(SourceEntity(b)));
    }
    AllAboutClaim(p, env, b, c);
    forall r | r in AboutClaim(env, b, c) ensures OwnRecord(r, entity) {
      assert p(r);
    }
  }

  lemma ClaimTriples(env: Environment, b: Batch, c: Claim)
    ensures All(NotManifest, AboutClaim(env, b, c))
    ensures forall t | t in Triples(AboutClaim(env, b, c)) :: Own(t, ClaimEntity(env, b, c))
  {
    ClaimRecordsAreOwn(env, b, c);
    hide AboutClaim, ClaimEntity, Own, NotManifest;
    var rs, ts := AboutClaim(env, b, c), Triples(AboutClaim(env, b, c));
    forall r | r in rs ensures OwnRecord(r, ClaimEntity(env, b, c)) {}
    forall t | t in ts ensures Own(t, ClaimEntity(env, b, c)) {
      var i :| 0 <= i < |ts| && ts[i] == t;
      assert rs[i] in rs && t == O.Destination(rs[i]);
    }
  }

  // ------------------------------------------------------ the whole list

  function CandidateTriple(c: Claim): O.Claim { O.Destination(Candidate(c)) }

  /** No two claims from the i-th on assert the same triple. */
  ghost predicate DistinctCandidates(b: Batch, i: nat) {
    forall j, k | i <= j < k < |b.claims| :: CandidateTriple(b.claims[j]) != CandidateTriple(b.claims[k])
  }

  function ClaimList(env: Environment, b: Batch, i: nat): seq<O.Claim> { Triples(ClaimRecords(env, b, i)) }

  lemma ClaimListUnfolds(env: Environment, b: Batch, i: nat)
    requires i < |b.claims|
    ensures ClaimList(env, b, i)
         == Triples(AboutClaim(env, b, b.claims[i]))
            + ((if Trusted(b) then [CandidateTriple(b.claims[i])] else []) + ClaimList(env, b, i + 1))
  {
    hide AboutClaim, Triples, Candidate;
    var c := b.claims[i];
    TriplesConcat(AboutClaim(env, b, c) + Asserted(b, c), ClaimRecords(env, b, i + 1));
    TriplesConcat(AboutClaim(env, b, c), Asserted(b, c));
    TriplesOfOne(Candidate(c));
  }

  lemma TriplesOfOne(r: W.Record)
    ensures Triples([r]) == [O.Destination(r)] && Triples([]) == []
  {
  }

  lemma {:induction false} InClaimList(env: Environment, b: Batch, i: nat, t: O.Claim)
    requires t in ClaimList(env, b, i)
    ensures exists k :: i <= k < |b.claims|
                        && (Own(t, ClaimEntity(env, b, b.claims[k]))
                            || (Trusted(b) && t == CandidateTriple(b.claims[k])))
    decreases |b.claims| - i
  {
    hide Own, CandidateTriple, Triples, AboutClaim, ClaimEntity;
    if i < |b.claims| {
      ClaimListUnfolds(env, b, i);
      ClaimTriples(env, b, b.claims[i]);
      hide ClaimList;
      if t in ClaimList(env, b, i + 1) {
        InClaimList(env, b, i + 1, t);
      }
    } else {
      TriplesOfOne(Manifest(env, b));
    }
  }

  lemma {:induction false} CandidateIsInClaimList(env: Environment, b: Batch, i: nat, k: nat)
    requires Trusted(b) && i <= k < |b.claims|
    ensures CandidateTriple(b.claims[k]) in ClaimList(env, b, i)
    decreases k - i
  {
    hide CandidateTriple, Triples, AboutClaim;
    ClaimListUnfolds(env, b, i);
    hide ClaimList;
    if i < k {
      CandidateIsInClaimList(env, b, i + 1, k);
    }
  }

  /** What is said about one claim is said about no other, and is no user fact. */
  lemma OwnIsApart(env: Environment, b: Batch, i: nat)
    requires ValidBatch(env, b) && i < |b.claims|
    ensures forall t | t in Triples(AboutClaim(env, b, b.claims[i])) ::
              t != CandidateTriple(b.claims[i]) && t !in ClaimList(env, b, i + 1)
  {
    hide ClaimList, Triples, AboutClaim, ClaimEntity, OwnerOf;
    ClaimTriples(env, b, b.claims[i]);
    forall t | t in Triples(AboutClaim(env, b, b.claims[i]))
      ensures t != CandidateTriple(b.claims[i]) && t !in ClaimList(env, b, i + 1)
    {
      CandidateIsUserFact(env, b, b.claims[i]);
      if t in ClaimList(env, b, i + 1) {
        InClaimList(env, b, i + 1, t);
        var k :| i < k < |b.claims| && (Own(t, ClaimEntity(env, b, b.claims[k])) || t == CandidateTriple(b.claims[k]));
        CandidateIsUserFact(env, b, b.claims[k]);
      }
    }
  }

  lemma OneDoesNotRepeat<T(!new)>(s: seq<T>)
    requires |s| <= 1
    ensures NoRepeats(s)
  {
  }

  lemma CandidateRepeats(env: Environment, b: Batch, i: nat)
    requires ValidBatch(env, b) && i < |b.claims| && Trusted(b)
    ensures CandidateTriple(b.claims[i]) in ClaimList(env, b, i + 1)
       <==> exists k :: i < k < |b.claims| && CandidateTriple(b.claims[k]) == CandidateTriple(b.claims[i])
  {
    hide ClaimList, ClaimEntity;
    var t := CandidateTriple(b.claims[i]);
    CandidateIsUserFact(env, b, b.claims[i]);
    if t in ClaimList(env, b, i + 1) {
      InClaimList(env, b, i + 1, t);
    }
    if k :| i < k < |b.claims| && CandidateTriple(b.claims[k]) == t {
      CandidateIsInClaimList(env, b, i + 1, k);
    }
  }

  /** A block that does not repeat and is apart from the rest may be peeled off, and then at most one element. */
  lemma Peel<T(!new)>(own: seq<T>, one: seq<T>, rest: seq<T>)
    requires NoRepeats(own) && |one| <= 1 && forall t | t in own :: t !in one && t !in rest
    ensures NoRepeats(own + (one + rest)) <==> NoRepeats(rest) && (one != [] ==> one[0] !in rest)
  {
    hide NoRepeats;
    NoRepeatsConcat(own, one + rest);
    NoRepeatsConcat(one, rest);
    OneDoesNotRepeat(one);
  }

  lemma {:induction false} ClaimListRepeatsExactlyWhen(env: Environment, b: Batch, i: nat)
    requires ValidBatch(env, b) && i <= |b.claims|
    ensures NoRepeats(ClaimList(env, b, i)) <==> (Trusted(b) ==> DistinctCandidates(b, i))
    decreases |b.claims| - i
  {
    hide ValidBatch, ClaimList, Triples, AboutClaim, CandidateTriple, NoRepeats, DistinctCandidates;
    if i == |b.claims| {
      NoClaimsDoNotRepeat(env, b);
    } else {
      var c := b.claims[i];
      var candidate := if Trusted(b) then [CandidateTriple(c)] else [];
      ClaimListUnfolds(env, b, i);
      ClaimListRepeatsExactlyWhen(env, b, i + 1);
      ClaimDoesNotRepeat(env, b, c);
      OwnIsApart(env, b, i);
      Peel(Triples(AboutClaim(env, b, c)), candidate, ClaimList(env, b, i + 1));
      if Trusted(b) {
        CandidateRepeats(env, b, i);
        DistinctStep(b, i);
      }
    }
  }

  lemma NoClaimsDoNotRepeat(env: Environment, b: Batch)
    ensures NoRepeats(ClaimList(env, b, |b.claims|)) && DistinctCandidates(b, |b.claims|)
  {
    assert ClaimRecords(env, b, |b.claims|) == [];
  }

  lemma DistinctStep(b: Batch, i: nat)
    requires i < |b.claims|
    ensures DistinctCandidates(b, i) <==>
              DistinctCandidates(b, i + 1)
              && !exists k :: i < k < |b.claims| && CandidateTriple(b.claims[k]) == CandidateTriple(b.claims[i])
  {
  }

  // -------------------------------------------------------- the theorems

  /** Everything but the manifest. */
  function Ensures(env: Environment, b: Batch): seq<W.Record> { HeadEnsures(env, b) + ClaimRecords(env, b, 0) }

  lemma AllEnsured(env: Environment, b: Batch)
    requires ValidBatch(env, b)
    ensures All(NotManifest, Ensures(env, b))
  {
    HeadTriples(env, b);
    hide ValidBatch, HeadEnsures, ClaimRecords, AboutClaim, NotManifest, IsProvenance;
    AllConcat(NotManifest, HeadEnsures(env, b), ClaimRecords(env, b, 0));
    forall r | r in ClaimRecords(env, b, 0) ensures NotManifest(r) {
      ClaimRecordIsEither(env, b, 0, r);
      var k :| 0 <= k < |b.claims|
               && (r in AboutClaim(env, b, b.claims[k]) || (r == Candidate(b.claims[k]) && IsUserFact(r)));
      ClaimTriples(env, b, b.claims[k]);
      CandidateIsNotManifest(b.claims[k]);
    }
  }

  lemma CandidateIsNotManifest(c: Claim)
    ensures IsUserFact(Candidate(c)) ==> NotManifest(Candidate(c))
  {
  }

  lemma ClaimsAround(before: seq<W.Record>, m: W.Record, after: seq<W.Record>)
    requires All(IsEnsured, before) && All(IsEnsured, after) && m.mode == W.APPEND
    ensures var ms := FilterMap(OI.RecordMutation, before + ([m] + after));
            && FilterMap(OI.ClaimOf, ms) == Triples(before + after)
            && FilterMap(OI.DestinationOf, ms) == [O.Destination(m)]
  {
    hide FilterMap, Triples, All;
    EnsuredClaims(before);
    EnsuredClaims(after);
    TriplesConcat(before, after);
    Singleton(OI.RecordMutation, m);
    Singleton(OI.ClaimOf, OI.RecordMutation(m).value);
    Singleton(OI.DestinationOf, OI.RecordMutation(m).value);
    Split(OI.ClaimOf, before, [m], after);
    Split(OI.DestinationOf, before, [m], after);
  }

  lemma Regroup<T>(a: seq<T>, m: T, p: seq<T>, s: seq<T>, c: seq<T>)
    ensures (a + [m] + p + s) + c == a + ([m] + (p + s + c))
    ensures (a + p + s) + c == a + (p + s + c)
  {
  }

  /** The claims and destinations of the compiled request: all its triples but the manifest's, and the manifest's. */
  lemma CompiledClaims(env: Environment, b: Batch)
    requires ValidBatch(env, b)
    ensures var ms := OI.Mutations(RequestOf(CompiledRecords(env, b)));
            && FilterMap(OI.ClaimOf, ms) == Triples(Ensures(env, b))
            && FilterMap(OI.DestinationOf, ms) == [O.Destination(Manifest(env, b))]
  {
    AllEnsured(env, b);
    var m := Manifest(env, b);
    assert m.mode == W.APPEND;
    hide ValidBatch, BatchRecords, ProducerRecords, SourceRecords, ClaimRecords, Triples, FilterMap, NotManifest,
      Manifest, OI.Mutations, O.Destination, RequestOf, All;
    var before := BatchRecords(env, b);
    var after := ProducerRecords(env, b) + SourceRecords(env, b) + ClaimRecords(env, b, 0);
    Regroup(before, m, ProducerRecords(env, b), SourceRecords(env, b), ClaimRecords(env, b, 0));
    AllConcat(NotManifest, before, after);
    OnlyRecords(CompiledRecords(env, b));
    ClaimsAround(before, m, after);
  }

  lemma Split(f: TS.Mutation -> Option<O.Claim>, x: seq<W.Record>, y: seq<W.Record>, z: seq<W.Record>)
    ensures FilterMap(f, FilterMap(OI.RecordMutation, x + (y + z)))
         == FilterMap(f, FilterMap(OI.RecordMutation, x)) + (FilterMap(f, FilterMap(OI.RecordMutation, y))
            + FilterMap(f, FilterMap(OI.RecordMutation, z)))
  {
    hide FilterMap;
    FilterMapConcat(OI.RecordMutation, x, y + z);
    FilterMapConcat(OI.RecordMutation, y, z);
    FilterMapConcat(f, FilterMap(OI.RecordMutation, x), FilterMap(OI.RecordMutation, y + z));
    FilterMapConcat(f, FilterMap(OI.RecordMutation, y), FilterMap(OI.RecordMutation, z));
  }

  lemma TriplesOfEnsures(env: Environment, b: Batch)
    requires ValidBatch(env, b)
    ensures forall t | t in Triples(Ensures(env, b)) :: t.ExactClaim? && t.slot.pred != MANIFEST
  {
    AllEnsured(env, b);
    hide ValidBatch, Ensures, MANIFEST;
    var rs, ts := Ensures(env, b), Triples(Ensures(env, b));
    forall t | t in ts ensures t.ExactClaim? && t.slot.pred != MANIFEST {
      var i :| 0 <= i < |ts| && ts[i] == t;
      assert t == O.Destination(rs[i]) && NotManifest(rs[i]);
    }
  }

  lemma HeadIsApart(env: Environment, b: Batch)
    requires ValidBatch(env, b)
    ensures forall t | t in Triples(HeadEnsures(env, b)) :: t !in ClaimList(env, b, 0)
  {
    HeadTriples(env, b);
    FirstLetters(env, b);
    hide ValidBatch, Triples, ClaimList, HeadEnsures, ClaimEntity;
    forall t | t in Triples(HeadEnsures(env, b)) ensures t !in ClaimList(env, b, 0) {
      if t in ClaimList(env, b, 0) {
        InClaimList(env, b, 0, t);
        var k :| 0 <= k < |b.claims| && (Own(t, ClaimEntity(env, b, b.claims[k])) || t == CandidateTriple(b.claims[k]));
        CandidateIsUserFact(env, b, b.claims[k]);
      }
    }
  }

  lemma EnsuresRepeatExactlyWhen(env: Environment, b: Batch)
    requires ValidBatch(env, b)
    ensures NoRepeats(Triples(Ensures(env, b))) <==> (Trusted(b) ==> DistinctCandidates(b, 0))
  {
    hide ValidBatch, Triples, HeadEnsures, NoRepeats, ClaimRecords, DistinctCandidates;
    TriplesConcat(HeadEnsures(env, b), ClaimRecords(env, b, 0));
    NoRepeatsConcat(Triples(HeadEnsures(env, b)), ClaimList(env, b, 0));
    HeadDoesNotRepeat(env, b);
    HeadIsApart(env, b);
    ClaimListRepeatsExactlyWhen(env, b, 0);
  }

  /**
   The compiler against the other package's ownership check: it accepts what a
   valid batch compiles to exactly when the batch is a knowledge proposal, or no
   two claims assert the same triple (as two claims that differ in confidence or
   evidence alone do).
   */
  lemma OwnershipAcceptsExactlyWhen(env: Environment, b: Batch)
    requires ValidBatch(env, b)
    ensures O.OwnershipError(RequestOf(CompiledRecords(env, b))).None?
       <==> b.profile == KNOWLEDGE_PROPOSALS || DistinctCandidates(b, 0)
  {
    assert Trusted(b) <==> b.profile != KNOWLEDGE_PROPOSALS;
    var q := RequestOf(CompiledRecords(env, b));
    hide ValidBatch, CompiledRecords, Ensures, Triples, RequestOf, DistinctCandidates, O.OwnershipError, FilterMap,
      OI.Mutations, MANIFEST, O.NonInterfering, OI.FreeClaims, OI.ApartClaims, NoRepeats;
    O.AcceptedExactlyWhenNonInterfering(q);
    OI.NonInterferingByValues(q);
    CompiledClaims(env, b);
    TriplesOfEnsures(env, b);
    EnsuresRepeatExactlyWhen(env, b);
    FreeAndApart(Triples(Ensures(env, b)), O.Destination(Manifest(env, b)));
  }

  lemma FreeAndApart(ts: seq<O.Claim>, d: O.Claim)
    requires forall t | t in ts :: t.ExactClaim? && t.slot.pred != d.slot.pred
    ensures OI.FreeClaims(ts) && OI.ApartClaims(ts, [d]) <==> NoRepeats(ts)
  {
  }

  lemma RecordsOnlyRequest(rs: seq<W.Record>)
    requires rs != [] && forall r | r in rs :: WV.ValidRecord(r)
    ensures WV.ValidRequest(RequestOf(rs)) <==> O.OwnershipError(RequestOf(rs)).None?
  {
    var q := RequestOf(rs);
    assert WV.ValidParts(q) && !WV.Empty(q) && WV.ValidVocabulary(q) && WV.ValidTransactionTime(q.transactionTime);
    hide O.OwnershipError, O.NonInterfering, WV.ValidRecord, WV.ValidParts, WV.ValidVocabulary, OI.FactTargets,
      RequestOf, NoRepeats;
    OnlyRecords(rs);
    OneDoesNotRepeat<string>([]);
    O.AcceptedExactlyWhenNonInterfering(q);
  }

  /** And so for the write package's whole validation. */
  lemma CompiledRequestIsValidExactlyWhen(env: Environment, b: Batch)
    requires Sound(env) && ValidBatch(env, b)
    ensures WV.ValidRequest(RequestOf(CompiledRecords(env, b)))
       <==> b.profile == KNOWLEDGE_PROPOSALS || DistinctCandidates(b, 0)
  {
    hide ValidBatch, CompiledRecords, O.OwnershipError, WV.ValidRecord, DistinctCandidates, Sound, WV.ValidRequest,
      RequestOf, ExpectedForClaims;
    RecordCount(env, b);
    CompiledRecordsAreValid(env, b);
    OwnershipAcceptsExactlyWhen(env, b);
    RecordsOnlyRequest(CompiledRecords(env, b));
  }

  // -------------------------------------------------------- the encoding

  /** An absent entry may as well not be there. */
  lemma {:induction false} CompactSkips(before: seq<Entry>, e: Entry, after: seq<Entry>)
    requires e.value.None?
    ensures Compact(before + ([e] + after)) == Compact(before + after)
  {
    if before == [] {
      assert before + ([e] + after) == [e] + after && before + after == after;
    } else {
      var b, rest := before[0], before[1..];
      assert before + ([e] + after) == [b] + (rest + ([e] + after)) && before + after == [b] + (rest + after);
      CompactSkips(rest, e, after);
    }
  }

  lemma RecordsEncodeAlike(r: W.Record)
    requires r.tense == "" && r.expiration.NoDeadline?
    ensures RecordJson(r) == WW.EncodeRecord(r)
  {
    hide Compact, WW.EncodeObject;
    var es, fs := WW.RecordEntries(r), IngestCompiler.RecordEntries(r);
    var a := es[..3];
    assert es == a + ([es[3]] + es[4..]);
    CompactSkips(a, es[3], es[4..]);
    var c := a + [es[4], es[5]];
    assert a + es[4..] == c + ([es[6]] + [es[7]]);
    CompactSkips(c, es[6], [es[7]]);
    assert c + [es[7]] == c + ([es[7]] + []);
    CompactSkips(c, es[7], []);
    assert c + [] == fs;
  }

  /** The compiler's own encoder writes what Encode would write for the same records, to the byte. */
  lemma CompilerEncodesAsTheTypedWrite(rs: seq<W.Record>)
    requires rs != [] && forall r | r in rs :: r.tense == "" && r.expiration.NoDeadline?
    ensures WriteJson(rs) == WW.Encoded(RequestOf(rs))
  {
    hide Compact, RecordJson, WW.EncodeRecord;
    forall r | r in rs ensures RecordJson(r) == WW.EncodeRecord(r) { RecordsEncodeAlike(r); }
    assert MapSeq(RecordJson, rs) == MapSeq(WW.EncodeRecord, rs);
    var es := WW.RequestEntries(RequestOf(rs));
    var a := es[..2];
    assert es == a + ([es[2]] + ([es[3]] + ([es[4]] + ([es[5]] + es[6..]))));
    CompactSkips(a, es[2], [es[3]] + ([es[4]] + ([es[5]] + es[6..])));
    CompactSkips(a, es[3], [es[4]] + ([es[5]] + es[6..]));
    CompactSkips(a, es[4], [es[5]] + es[6..]);
    CompactSkips(a, es[5], es[6..]);
    var c := a + [es[6]];
    assert a + es[6..] == c + ([es[7]] + []);
    CompactSkips(c, es[7], []);
    assert c + [] == c;
    assert W.CREATE_UNKNOWN != "";
    assert c == [Entry("write", Some(Str("facts"))), Entry("record", Some(Arr(MapSeq(RecordJson, rs)))),
                 Entry("vocabulary", Some(Obj(Compact([Entry("on_unknown", Some(Str(W.CREATE_UNKNOWN)))]))))];
  }

  /** Every valid batch is sent as the very bytes the typed write path would send for its records. */
  lemma CompiledBytesAreTheTypedBytes(env: Environment, b: Batch)
    requires Sound(env) && ValidBatch(env, b)
    ensures WriteText(env, b) == Marshal(env, WW.Encoded(RequestOf(CompiledRecords(env, b))))
  {
    RecordCount(env, b);
    CompiledRecordsAreValid(env, b);
    AllEnsured(env, b);
    hide ValidBatch, Marshal, ExpectedForClaims, Manifest, BatchRecords, ProducerRecords, SourceRecords, ClaimRecords,
      WriteJson, Sound;
    Regroup(BatchRecords(env, b), Manifest(env, b), ProducerRecords(env, b), SourceRecords(env, b),
      ClaimRecords(env, b, 0));
    var rs := CompiledRecords(env, b);
    forall r | r in rs ensures r.tense == "" && r.expiration.NoDeadline? {
      assert r == Manifest(env, b) || r in Ensures(env, b);
      assert WV.ValidRecord(r);
      assert r in Ensures(env, b) ==> NotManifest(r);
    }
    CompilerEncodesAsTheTypedWrite(rs);
  }

  // ------------------------------------------------ a batch that is refused

  /** One triple asserted twice, with two confidences. */
  function TwoConfidences(): Batch {
    Batch(SCHEMA_V1, TRUSTED_FACTS, Producer("p", "1", "r", "sha256:" + seq(64, _ => '0')), None,
      [Claim("a", "s", "q", Object("o", ""), Some(1), []), Claim("b", "s", "q", Object("o", ""), Some(2), [])])
  }

  lemma LettersAreLabels(s: string)
    requires |s| == 1 && s[0] as int < 0x80
    ensures ValidLabel(s) && ValidName(s)
  {
  }

  lemma OneLetterClaimIsValid(c: Claim)
    requires |c.externalID| == |c.subject| == |c.pred| == |c.obj.entity| == 1 && c.obj.u64 == "" && c.evidence == []
    requires c.externalID[0] as int < 0x80 && c.subject[0] as int < 0x80 && c.pred[0] as int < 0x80
    requires c.obj.entity[0] as int < 0x80 && c.confidence.Some? && c.confidence.value <= 1_000_000
    ensures ValidClaim(c, false)
  {
  }

  lemma ZerosAreADigest()
    ensures ValidSHA256Identity("sha256:" + seq(64, _ => '0'))
  {
  }

  lemma ItsProducerIsValid()
    ensures ValidProducer(TwoConfidences().producer)
  {
    hide ValidUtf8, ValidSHA256Identity;
    var p := TwoConfidences().producer;
    ZerosAreADigest();
    LettersAreLabels(p.name);
    LettersAreLabels(p.version);
    LettersAreLabels(p.runID);
  }

  lemma TwoConfidencesIsLegible()
    ensures Legible(TwoConfidences())
  {
    var b := TwoConfidences();
    ItsProducerIsValid();
    hide ValidUtf8;
    ConstantsAreUtf8();
    IdentitiesAreUtf8(b.producer.schemaIdentity);
    forall c | c in b.claims ensures LegibleClaim(c) {
      OneLetterClaimIsValid(c);
      ValidClaimIsLegible(c, false);
    }
  }

  lemma TwoConfidencesIsValid(env: Environment)
    requires Sound(env) && CollisionFree(env, TwoConfidences())
    ensures ValidBatch(env, TwoConfidences())
  {
    var b := TwoConfidences();
    ItsProducerIsValid();
    TwoConfidencesIsLegible();
    hide ValidUtf8, Reserved, ClaimEntity, ClaimIdentity, ValidClaim, ValidProducer, DistinctEntities, CollisionFree,
      Sound, Legible;
    OneLetterClaimIsValid(b.claims[0]);
    OneLetterClaimIsValid(b.claims[1]);
    DistinctEntitiesExactlyWhen(env, b);
  }

  lemma TwoConfidencesRepeat()
    ensures !DistinctCandidates(TwoConfidences(), 0) && TwoConfidences().profile != KNOWLEDGE_PROPOSALS
  {
    var b := TwoConfidences();
    assert CandidateTriple(b.claims[0]) == CandidateTriple(b.claims[1]);
  }

  /**
   A valid batch whose compiled write the write package refuses: the two claims
   are different, the triple they ensure is one.
   */
  lemma AValidBatchMayBeRefused(env: Environment)
    requires Sound(env) && CollisionFree(env, TwoConfidences())
    ensures ValidBatch(env, TwoConfidences())
    ensures !WV.ValidRequest(RequestOf(CompiledRecords(env, TwoConfidences())))
  {
    hide TwoConfidences, ValidBatch, Sound, CollisionFree, WV.ValidRequest, RequestOf, CompiledRecords,
      DistinctCandidates;
    TwoConfidencesIsValid(env);
    TwoConfidencesRepeat();
    CompiledRequestIsValidExactlyWhen(env, TwoConfidences());
  }
}
