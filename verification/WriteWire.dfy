/** Request.Encode of the write package as a JSON tree, and the decoder that inverts it. */
module WriteWire {
  import opened Wrappers
  import opened Text
  import opened Json
  import opened WriteTypes
  import opened WriteValidation

  // ---------------------------------------------------------------- writing

  /** wireObject: an entity is a string, a number a literal.  Validation leaves no object unset. */
  function EncodeObject(o: Object): Json {
    match o
    case Entity(name) => Str(name)
    case Number(n) => Num(FormatUint(n))
    case UnsetObject => Null
  }

  function TTL(d: Deadline): Option<Json> {
    if d.After? && d.duration >= 0 then Some(Str(FormatUint(d.duration / 1_000_000))) else None
  }

  function ExpiresAt(d: Deadline): Option<Json> {
    if d.At? then Some(Str(FormatInt(ExactUnixNano(d.instant).0))) else None
  }

  function RecordEntries(r: Record): seq<Entry> {
    [Entry("subject", Some(Str(r.subject))), Entry("predicate", Some(Str(r.pred))),
     Entry("object", Some(EncodeObject(r.obj))), Entry("tense", StrOrOmit(r.tense)),
     Entry("raw_text", StrOrOmit(r.rawText)), Entry("mode", StrOrOmit(r.mode)),
     Entry("ttl_ms", TTL(r.expiration)), Entry("expires_at_ns", ExpiresAt(r.expiration))]
  }

  function EncodeRecord(r: Record): Json { Obj(Compact(RecordEntries(r))) }

  function WhereEntries(subject: string, pred: string, obj: Object): seq<Entry> {
    [Entry("subject", Some(Str(subject))), Entry("predicate", Some(Str(pred))),
     Entry("object", Some(EncodeObject(obj)))]
  }

  function SlotEntries(subject: string, pred: string): seq<Entry> {
    [Entry("subject", Some(Str(subject))), Entry("predicate", Some(Str(pred)))]
  }

  function RetractionEntries(r: Retraction): seq<Entry> {
    [Entry("fact", if r.RetractFact? then StrOrOmit(r.factID) else None),
     Entry("where", if r.RetractExact? then Some(Obj(Compact(WhereEntries(r.subject, r.pred, r.obj)))) else None),
     Entry("slot", if r.RetractSlot? then Some(Obj(Compact(SlotEntries(r.subject, r.pred)))) else None)]
  }

  function EncodeRetraction(r: Retraction): Json { Obj(Compact(RetractionEntries(r))) }

  function CorrectionEntries(c: Correction): seq<Entry> {
    [Entry("supersede", Some(Str(c.factID))), Entry("with", Some(EncodeRecord(c.replacement)))]
  }

  function EncodeCorrection(c: Correction): Json { Obj(Compact(CorrectionEntries(c))) }

  function ExpirationEntries(e: Expiration): seq<Entry> {
    [Entry("fact", Some(Str(e.factID))), Entry("ttl_ms", TTL(e.deadline)),
     Entry("expires_at_ns", ExpiresAt(e.deadline))]
  }

  function EncodeExpiration(e: Expiration): Json { Obj(Compact(ExpirationEntries(e))) }

  function PersistenceEntries(p: Persistence): seq<Entry> { [Entry("fact", Some(Str(p.factID)))] }

  function EncodePersistence(p: Persistence): Json { Obj(Compact(PersistenceEntries(p))) }

  function VocabularyEntries(mode: string): seq<Entry> { [Entry("on_unknown", Some(Str(mode)))] }

  function EncodeTransactionTime(t: TransactionTime): Option<Json> {
    match t
    case NoTime => None
    case AtTime(instant) => Some(Str(FormatInt(ExactUnixNano(instant).0)))
    case Nanoseconds(n) => Some(Str(FormatInt(n)))
  }

  function RequestEntries(q: Request): seq<Entry> {
    [Entry("write", Some(Str("facts"))),
     Entry("record", ArrOrOmit(MapSeq(EncodeRecord, q.records))),
     Entry("retract", ArrOrOmit(MapSeq(EncodeRetraction, q.retractions))),
     Entry("correct", ArrOrOmit(MapSeq(EncodeCorrection, q.corrections))),
     Entry("expire", ArrOrOmit(MapSeq(EncodeExpiration, q.expirations))),
     Entry("persist", ArrOrOmit(MapSeq(EncodePersistence, q.persistence))),
     Entry("vocabulary", if q.vocabulary == "" then None else Some(Obj(Compact(VocabularyEntries(q.vocabulary))))),
     Entry("tx_time_ns", EncodeTransactionTime(q.transactionTime))]
  }

  function Encoded(q: Request): Json { Obj(Compact(RequestEntries(q))) }

  // ---------------------------------------------------------------- reading

  function ReadInt(v: Option<Json>): Option<int> {
    if v.Some? && v.value.Str? then ParseInt(v.value.s) else None
  }

  function ReadObject(v: Option<Json>): Option<Object> {
    if v.Some? && v.value.Str? then Some(Entity(v.value.s))
    else if v.Some? && v.value.Num? && ParseUint(v.value.literal).Some? then
      Some(Number(ParseUint(v.value.literal).value))
    else None
  }

  function ReadDeadline(j: Json): Option<Deadline> {
    var ttl, at := Member(j, "ttl_ms"), Member(j, "expires_at_ns");
    if ttl.None? && at.None? then Some(NoDeadline)
    else if at.None? then
      var ms := ReadInt(ttl);
      if ms.Some? && -TWO_TO_63 <= ms.value * 1_000_000 < TWO_TO_63 then Some(After(ms.value * 1_000_000)) else None
    else if ttl.None? && ReadInt(at).Some? then Some(Deadline.At(ReadInt(at).value))
    else None
  }

  function ReadRecord(j: Json): Option<Record> {
    var subject, pred := ReadStr(Member(j, "subject")), ReadStr(Member(j, "predicate"));
    var obj := ReadObject(Member(j, "object"));
    var tense, rawText := ReadOptional(Member(j, "tense")), ReadOptional(Member(j, "raw_text"));
    var mode, deadline := ReadOptional(Member(j, "mode")), ReadDeadline(j);
    if subject.Some? && pred.Some? && obj.Some? && tense.Some? && rawText.Some? && mode.Some? && deadline.Some? then
      Some(Record(subject.value, pred.value, obj.value, tense.value, rawText.value, mode.value, deadline.value))
    else None
  }

  function ReadRetraction(j: Json): Option<Retraction> {
    var fact, where_, slot := Member(j, "fact"), Member(j, "where"), Member(j, "slot");
    if fact.Some? && where_.None? && slot.None? then
      if fact.value.Str? then Some(RetractFact(fact.value.s)) else None
    else if fact.None? && where_.Some? && slot.None? then
      var s, p, o := ReadStr(Member(where_.value, "subject")), ReadStr(Member(where_.value, "predicate")),
        ReadObject(Member(where_.value, "object"));
      if s.Some? && p.Some? && o.Some? then Some(RetractExact(s.value, p.value, o.value)) else None
    else if fact.None? && where_.None? && slot.Some? then
      var s, p := ReadStr(Member(slot.value, "subject")), ReadStr(Member(slot.value, "predicate"));
      if s.Some? && p.Some? then Some(RetractSlot(s.value, p.value)) else None
    else None
  }

  function ReadCorrection(j: Json): Option<Correction> {
    var id := ReadStr(Member(j, "supersede"));
    var replacement := if Member(j, "with").Some? then ReadRecord(Member(j, "with").value) else None;
    if id.Some? && replacement.Some? then Some(Correction(id.value, replacement.value)) else None
  }

  function ReadExpiration(j: Json): Option<Expiration> {
    var id, deadline := ReadStr(Member(j, "fact")), ReadDeadline(j);
    if id.Some? && deadline.Some? then Some(Expiration(id.value, deadline.value)) else None
  }

  function ReadPersistence(j: Json): Option<Persistence> {
    var id := ReadStr(Member(j, "fact"));
    if id.Some? then Some(Persistence(id.value)) else None
  }

  function ReadTransactionTime(v: Option<Json>): Option<TransactionTime> {
    if v.None? then Some(NoTime)
    else
      var n := ReadInt(v);
      if n.Some? && -TWO_TO_63 <= n.value < TWO_TO_63 then Some(Nanoseconds(n.value)) else None
  }

  function Decode(j: Json): Option<Request> {
    var records, retractions := ReadAll(ReadRecord, Items(j, "record")), ReadAll(ReadRetraction, Items(j, "retract"));
    var corrections := ReadAll(ReadCorrection, Items(j, "correct"));
    var expirations := ReadAll(ReadExpiration, Items(j, "expire"));
    var persistence := ReadAll(ReadPersistence, Items(j, "persist"));
    var vocabulary := Member(j, "vocabulary");
    var mode := if vocabulary.None? then Some("") else ReadStr(Member(vocabulary.value, "on_unknown"));
    var time := ReadTransactionTime(Member(j, "tx_time_ns"));
    if ReadStr(Member(j, "write")) == Some("facts") && records.Some? && retractions.Some? && corrections.Some?
       && expirations.Some? && persistence.Some? && mode.Some? && time.Some?
    then Some(Request(records.value, retractions.value, corrections.value, expirations.value, persistence.value,
                      mode.value, time.value))
    else None
  }

  // ------------------------------------------------------------- round trip

  lemma ObjectReadsBack(o: Object)
    requires ValidObject(o)
    ensures ReadObject(Some(EncodeObject(o))) == Some(o)
  {
    if o.Number? {
      DecimalsParseBack(o.number);
    }
  }

  /** A deadline is recovered exactly: milliseconds to the duration, wrapped nanoseconds to the instant. */
  lemma DeadlineReadsBack(d: Deadline, j: Json)
    requires ValidDeadline(d) && Member(j, "ttl_ms") == TTL(d) && Member(j, "expires_at_ns") == ExpiresAt(d)
    ensures ReadDeadline(j) == Some(d)
  {
    match d
    case NoDeadline =>
    case After(duration) =>
      DecimalsParseBack(duration / 1_000_000);
      assert FormatInt(duration / 1_000_000) == FormatUint(duration / 1_000_000);
    case At(instant) =>
      DecimalsParseBack(instant);
  }

  lemma RecordLookups(r: Record)
    ensures var j := EncodeRecord(r);
            && Member(j, "subject") == Some(Str(r.subject)) && Member(j, "predicate") == Some(Str(r.pred))
            && Member(j, "object") == Some(EncodeObject(r.obj)) && Member(j, "tense") == StrOrOmit(r.tense)
            && Member(j, "raw_text") == StrOrOmit(r.rawText) && Member(j, "mode") == StrOrOmit(r.mode)
            && Member(j, "ttl_ms") == TTL(r.expiration) && Member(j, "expires_at_ns") == ExpiresAt(r.expiration)
  {
    hide EncodeObject, TTL, ExpiresAt, StrOrOmit, Compact, Member;
    var es := RecordEntries(r);
    Lookups(es);
    assert Member(Obj(Compact(es)), es[0].name) == es[0].value && Member(Obj(Compact(es)), es[1].name) == es[1].value;
    assert Member(Obj(Compact(es)), es[2].name) == es[2].value && Member(Obj(Compact(es)), es[3].name) == es[3].value;
    assert Member(Obj(Compact(es)), es[4].name) == es[4].value && Member(Obj(Compact(es)), es[5].name) == es[5].value;
    assert Member(Obj(Compact(es)), es[6].name) == es[6].value && Member(Obj(Compact(es)), es[7].name) == es[7].value;
  }

  lemma RecordReadsBack(r: Record)
    requires ValidRecord(r)
    ensures ReadRecord(EncodeRecord(r)) == Some(r)
  {
    hide EncodeRecord, EncodeObject, ReadObject, ReadDeadline, TTL, ExpiresAt, Member, ValidDeadline, ValidUtf8;
    RecordLookups(r);
    ObjectReadsBack(r.obj);
    DeadlineReadsBack(r.expiration, EncodeRecord(r));
  }

  lemma RetractionLookups(r: Retraction)
    ensures var j := EncodeRetraction(r);
            && Member(j, "fact") == (if r.RetractFact? then StrOrOmit(r.factID) else None)
            && Member(j, "where")
               == (if r.RetractExact? then Some(Obj(Compact(WhereEntries(r.subject, r.pred, r.obj)))) else None)
            && Member(j, "slot") == (if r.RetractSlot? then Some(Obj(Compact(SlotEntries(r.subject, r.pred))))
                                     else None)
    ensures r.RetractExact? ==>
              var w := Obj(Compact(WhereEntries(r.subject, r.pred, r.obj)));
              && Member(w, "subject") == Some(Str(r.subject)) && Member(w, "predicate") == Some(Str(r.pred))
              && Member(w, "object") == Some(EncodeObject(r.obj))
    ensures r.RetractSlot? ==>
              var w := Obj(Compact(SlotEntries(r.subject, r.pred)));
              Member(w, "subject") == Some(Str(r.subject)) && Member(w, "predicate") == Some(Str(r.pred))
  {
    hide Compact, Member, EncodeObject, StrOrOmit;
    var es := RetractionEntries(r);
    Lookups(es);
    assert Member(Obj(Compact(es)), es[0].name) == es[0].value && Member(Obj(Compact(es)), es[1].name) == es[1].value;
    assert Member(Obj(Compact(es)), es[2].name) == es[2].value;
    if r.RetractExact? {
      var ws := WhereEntries(r.subject, r.pred, r.obj);
      Lookups(ws);
      assert Member(Obj(Compact(ws)), ws[0].name) == ws[0].value && Member(Obj(Compact(ws)), ws[1].name) == ws[1].value;
      assert Member(Obj(Compact(ws)), ws[2].name) == ws[2].value;
    }
    if r.RetractSlot? {
      var ws := SlotEntries(r.subject, r.pred);
      Lookups(ws);
      assert Member(Obj(Compact(ws)), ws[0].name) == ws[0].value && Member(Obj(Compact(ws)), ws[1].name) == ws[1].value;
    }
  }

  lemma RetractionReadsBack(r: Retraction)
    requires ValidRetraction(r)
    ensures ReadRetraction(EncodeRetraction(r)) == Some(r)
  {
    hide EncodeRetraction, EncodeObject, ReadObject, Member, Compact, ValidUtf8, ValidObject;
    RetractionLookups(r);
    if r.RetractExact? {
      ObjectReadsBack(r.obj);
    }
  }

  lemma CorrectionLookups(c: Correction)
    ensures var j := EncodeCorrection(c);
            Member(j, "supersede") == Some(Str(c.factID)) && Member(j, "with") == Some(EncodeRecord(c.replacement))
  {
    hide Compact, Member, EncodeRecord;
    var es := CorrectionEntries(c);
    Lookups(es);
    assert Member(Obj(Compact(es)), es[0].name) == es[0].value && Member(Obj(Compact(es)), es[1].name) == es[1].value;
  }

  lemma CorrectionReadsBack(c: Correction)
    requires ValidCorrection(c)
    ensures ReadCorrection(EncodeCorrection(c)) == Some(c)
  {
    hide Member, EncodeCorrection, ReadRecord, EncodeRecord;
    CorrectionLookups(c);
    RecordReadsBack(c.replacement);
  }

  lemma ExpirationLookups(e: Expiration)
    ensures var j := EncodeExpiration(e);
            && Member(j, "fact") == Some(Str(e.factID))
            && Member(j, "ttl_ms") == TTL(e.deadline) && Member(j, "expires_at_ns") == ExpiresAt(e.deadline)
  {
    hide Compact, Member, TTL, ExpiresAt;
    var es := ExpirationEntries(e);
    Lookups(es);
    assert Member(Obj(Compact(es)), es[0].name) == es[0].value && Member(Obj(Compact(es)), es[1].name) == es[1].value;
    assert Member(Obj(Compact(es)), es[2].name) == es[2].value;
  }

  lemma ExpirationReadsBack(e: Expiration)
    requires ValidExpiration(e)
    ensures ReadExpiration(EncodeExpiration(e)) == Some(e)
  {
    hide Member, EncodeExpiration, ReadDeadline, TTL, ExpiresAt, ValidDeadline;
    ExpirationLookups(e);
    DeadlineReadsBack(e.deadline, EncodeExpiration(e));
  }

  lemma PersistenceReadsBack(p: Persistence)
    ensures ReadPersistence(EncodePersistence(p)) == Some(p)
  {
  }

  lemma RequestLookups(q: Request)
    ensures var j := Encoded(q);
            && Member(j, "write") == Some(Str("facts"))
            && Member(j, "record") == ArrOrOmit(MapSeq(EncodeRecord, q.records))
            && Member(j, "retract") == ArrOrOmit(MapSeq(EncodeRetraction, q.retractions))
            && Member(j, "correct") == ArrOrOmit(MapSeq(EncodeCorrection, q.corrections))
            && Member(j, "expire") == ArrOrOmit(MapSeq(EncodeExpiration, q.expirations))
            && Member(j, "persist") == ArrOrOmit(MapSeq(EncodePersistence, q.persistence))
            && Member(j, "vocabulary")
               == (if q.vocabulary == "" then None else Some(Obj(Compact(VocabularyEntries(q.vocabulary)))))
            && Member(j, "tx_time_ns") == EncodeTransactionTime(q.transactionTime)
    ensures Member(Obj(Compact(VocabularyEntries(q.vocabulary))), "on_unknown") == Some(Str(q.vocabulary))
  {
    hide Compact, Member, MapSeq, ArrOrOmit, EncodeTransactionTime;
    var es := RequestEntries(q);
    Lookups(es);
    assert Member(Obj(Compact(es)), es[0].name) == es[0].value && Member(Obj(Compact(es)), es[1].name) == es[1].value;
    assert Member(Obj(Compact(es)), es[2].name) == es[2].value && Member(Obj(Compact(es)), es[3].name) == es[3].value;
    assert Member(Obj(Compact(es)), es[4].name) == es[4].value && Member(Obj(Compact(es)), es[5].name) == es[5].value;
    assert Member(Obj(Compact(es)), es[6].name) == es[6].value && Member(Obj(Compact(es)), es[7].name) == es[7].value;
    var vs := VocabularyEntries(q.vocabulary);
    Lookups(vs);
    assert Member(Obj(Compact(vs)), vs[0].name) == vs[0].value;
  }

  lemma ItemsAre(q: Request)
    ensures Items(Encoded(q), "record") == MapSeq(EncodeRecord, q.records)
    ensures Items(Encoded(q), "retract") == MapSeq(EncodeRetraction, q.retractions)
    ensures Items(Encoded(q), "correct") == MapSeq(EncodeCorrection, q.corrections)
    ensures Items(Encoded(q), "expire") == MapSeq(EncodeExpiration, q.expirations)
    ensures Items(Encoded(q), "persist") == MapSeq(EncodePersistence, q.persistence)
  {
    hide Encoded, Member, MapSeq;
    RequestLookups(q);
  }

  /** The one thing encoding forgets: which of two spellings gave the transaction time. */
  function Normalized(q: Request): Request {
    if q.transactionTime.AtTime? then
      q.(transactionTime := Nanoseconds(ExactUnixNano(q.transactionTime.instant).0))
    else q
  }

  lemma TimeReadsBack(q: Request)
    ensures ReadTransactionTime(EncodeTransactionTime(q.transactionTime)) == Some(Normalized(q).transactionTime)
    ensures ValidTransactionTime(q.transactionTime) && q.transactionTime.AtTime? ==>
              Normalized(q).transactionTime == Nanoseconds(q.transactionTime.instant)
  {
    match q.transactionTime
    case NoTime =>
    case AtTime(instant) => DecimalsParseBack(ExactUnixNano(instant).0);
    case Nanoseconds(n) => DecimalsParseBack(n);
  }

  lemma ListsReadBack(q: Request)
    requires ValidParts(q)
    ensures ReadAll(ReadRecord, MapSeq(EncodeRecord, q.records)) == Some(q.records)
    ensures ReadAll(ReadRetraction, MapSeq(EncodeRetraction, q.retractions)) == Some(q.retractions)
    ensures ReadAll(ReadCorrection, MapSeq(EncodeCorrection, q.corrections)) == Some(q.corrections)
    ensures ReadAll(ReadExpiration, MapSeq(EncodeExpiration, q.expirations)) == Some(q.expirations)
    ensures ReadAll(ReadPersistence, MapSeq(EncodePersistence, q.persistence)) == Some(q.persistence)
  {
    hide MapSeq, ReadAll, ValidRecord, ValidRetraction, ValidCorrection, ValidExpiration;
    hide ReadRecord, ReadRetraction, ReadCorrection, ReadExpiration, ReadPersistence;
    hide EncodeRecord, EncodeRetraction, EncodeCorrection, EncodeExpiration, EncodePersistence;
    forall r | r in q.records ensures ReadRecord(EncodeRecord(r)) == Some(r) { RecordReadsBack(r); }
    ListReadsBack(ReadRecord, EncodeRecord, q.records);
    forall r | r in q.retractions ensures ReadRetraction(EncodeRetraction(r)) == Some(r) { RetractionReadsBack(r); }
    ListReadsBack(ReadRetraction, EncodeRetraction, q.retractions);
    forall c | c in q.corrections ensures ReadCorrection(EncodeCorrection(c)) == Some(c) { CorrectionReadsBack(c); }
    ListReadsBack(ReadCorrection, EncodeCorrection, q.corrections);
    forall e | e in q.expirations ensures ReadExpiration(EncodeExpiration(e)) == Some(e) { ExpirationReadsBack(e); }
    ListReadsBack(ReadExpiration, EncodeExpiration, q.expirations);
    forall p | p in q.persistence ensures ReadPersistence(EncodePersistence(p)) == Some(p) { PersistenceReadsBack(p); }
    ListReadsBack(ReadPersistence, EncodePersistence, q.persistence);
  }

  /**
   Every valid request is recovered from its wire tree: entity and number
   objects, modes, selectors, exact durations and instants, and a transaction
   time that is present even when it is zero or negative.
   */
  lemma EncodingReadsBack(q: Request)
    requires ValidRequest(q)
    ensures Decode(Encoded(q)) == Some(Normalized(q))
  {
    hide Encoded, Member, MapSeq, Items, ReadAll, ValidParts, Compact, EncodeTransactionTime, ReadTransactionTime;
    assert ValidParts(q);
    RequestLookups(q);
    ItemsAre(q);
    TimeReadsBack(q);
    ListsReadBack(q);
  }

  /** Two valid requests have one encoding exactly when they differ in nothing but that spelling. */
  lemma EncodingIdentifiesRequests(q: Request, q': Request)
    requires ValidRequest(q) && ValidRequest(q')
    ensures Encoded(q) == Encoded(q') <==> Normalized(q) == Normalized(q')
  {
    hide Encoded, Decode, ValidRequest, Normalized;
    EncodingReadsBack(q);
    EncodingReadsBack(q');
    NormalizingKeepsTheEncoding(q);
    NormalizingKeepsTheEncoding(q');
  }

  lemma NormalizingKeepsTheEncoding(q: Request)
    ensures Encoded(Normalized(q)) == Encoded(q)
  {
  }

  method Encode(q: Request) returns (r: Result<Json, Invalid>)
    ensures r.Ok? <==> ValidRequest(q)
    ensures r.Ok? ==> r.value == Encoded(q) && Decode(r.value) == Some(Normalized(q))
    ensures r.Err? ==> Some(r.error) == RequestError(q)
  {
    hide ValidRequest, RequestError, MapSeq, Decode, EncodeRecord, EncodeRetraction, EncodeCorrection,
      EncodeExpiration, EncodePersistence, Compact, Normalized;
    var error := Validate(q);
    if error.Some? {
      return Err(error.value);
    }
    EncodingReadsBack(q);
    var record: seq<Json>, retract: seq<Json>, correct: seq<Json> := [], [], [];
    var expire: seq<Json>, persist: seq<Json> := [], [];
    for i := 0 to |q.records|
      invariant record == MapSeq(EncodeRecord, q.records[..i])
    {
      MapSeqSnoc(EncodeRecord, q.records, i);
      record := record + [EncodeRecord(q.records[i])];
    }
    for i := 0 to |q.retractions|
      invariant retract == MapSeq(EncodeRetraction, q.retractions[..i])
    {
      MapSeqSnoc(EncodeRetraction, q.retractions, i);
      retract := retract + [EncodeRetraction(q.retractions[i])];
    }
    for i := 0 to |q.corrections|
      invariant correct == MapSeq(EncodeCorrection, q.corrections[..i])
    {
      MapSeqSnoc(EncodeCorrection, q.corrections, i);
      correct := correct + [EncodeCorrection(q.corrections[i])];
    }
    for i := 0 to |q.expirations|
      invariant expire == MapSeq(EncodeExpiration, q.expirations[..i])
    {
      MapSeqSnoc(EncodeExpiration, q.expirations, i);
      expire := expire + [EncodeExpiration(q.expirations[i])];
    }
    for i := 0 to |q.persistence|
      invariant persist == MapSeq(EncodePersistence, q.persistence[..i])
    {
      MapSeqSnoc(EncodePersistence, q.persistence, i);
      persist := persist + [EncodePersistence(q.persistence[i])];
    }
    assert q.records[..|q.records|] == q.records && q.retractions[..|q.retractions|] == q.retractions;
    assert q.corrections[..|q.corrections|] == q.corrections && q.expirations[..|q.expirations|] == q.expirations;
    assert q.persistence[..|q.persistence|] == q.persistence;
    var vocabulary := if q.vocabulary == "" then None else Some(Obj(Compact(VocabularyEntries(q.vocabulary))));
    r := Ok(Obj(Compact(
      [Entry("write", Some(Str("facts"))), Entry("record", ArrOrOmit(record)), Entry("retract", ArrOrOmit(retract)),
       Entry("correct", ArrOrOmit(correct)), Entry("expire", ArrOrOmit(expire)), Entry("persist", ArrOrOmit(persist)),
       Entry("vocabulary", vocabulary), Entry("tx_time_ns", EncodeTransactionTime(q.transactionTime))])));
  }
}
