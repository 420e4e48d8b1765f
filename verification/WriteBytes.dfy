/** The bytes of a typed write: valid requests are told apart by them. */
module WriteBytes {
  import opened Text
  import opened Json
  import opened JsonText
  import opened WriteTypes
  import opened WriteValidation
  import opened WriteWire

  lemma NumbersAreUtf8(n: int)
    ensures ValidUtf8(FormatInt(n)) && (n >= 0 ==> ValidUtf8(FormatUint(n)))
  {
    var s := FormatInt(n);
    forall i | 1 <= i < |s| ensures IsDigit(s[i]) {
      assert s[1..][i - 1] == s[i];
    }
    AsciiIsValidUtf8(s);
  }

  lemma ObjectIsWellEncoded(o: Object)
    requires ValidObject(o)
    ensures WellEncoded(EncodeObject(o))
  {
  }

  lemma DeadlineIsWellEncoded(d: Deadline)
    ensures TTL(d).Some? ==> WellEncoded(TTL(d).value)
    ensures ExpiresAt(d).Some? ==> WellEncoded(ExpiresAt(d).value)
  {
    hide ValidUtf8;
    if TTL(d).Some? {
      NumbersAreUtf8(d.duration / 1_000_000);
    }
    if ExpiresAt(d).Some? {
      NumbersAreUtf8(ExactUnixNano(d.instant).0);
    }
  }

  lemma FactIDIsUtf8(id: string)
    requires ValidFactID(id)
    ensures ValidUtf8(id)
  {
    AsciiIsValidUtf8(id);
  }

  lemma RecordIsWellEncoded(r: Record)
    requires ValidRecord(r)
    ensures WellEncoded(EncodeRecord(r))
  {
    hide ValidUtf8, Compact, EncodeObject, TTL, ExpiresAt;
    ObjectIsWellEncoded(r.obj);
    DeadlineIsWellEncoded(r.expiration);
    AsciiIsValidUtf8(r.mode);
    CompactIsWellEncoded(RecordEntries(r));
  }

  lemma RetractionIsWellEncoded(r: Retraction)
    requires ValidRetraction(r)
    ensures WellEncoded(EncodeRetraction(r))
  {
    hide ValidUtf8, Compact, EncodeObject, ValidFactID, ValidObject;
    match r {
      case RetractFact(id) => FactIDIsUtf8(id);
      case RetractExact(s, p, o) =>
        ObjectIsWellEncoded(o);
        CompactIsWellEncoded(WhereEntries(s, p, o));
      case RetractSlot(s, p) => CompactIsWellEncoded(SlotEntries(s, p));
    }
    CompactIsWellEncoded(RetractionEntries(r));
  }

  lemma CorrectionIsWellEncoded(c: Correction)
    requires ValidCorrection(c)
    ensures WellEncoded(EncodeCorrection(c))
  {
    hide ValidUtf8, Compact, EncodeRecord, ValidRecord, ValidFactID;
    FactIDIsUtf8(c.factID);
    RecordIsWellEncoded(c.replacement);
    CompactIsWellEncoded(CorrectionEntries(c));
  }

  lemma ExpirationIsWellEncoded(e: Expiration)
    requires ValidExpiration(e)
    ensures WellEncoded(EncodeExpiration(e))
  {
    hide ValidUtf8, Compact, TTL, ExpiresAt, ValidFactID;
    FactIDIsUtf8(e.factID);
    DeadlineIsWellEncoded(e.deadline);
    CompactIsWellEncoded(ExpirationEntries(e));
  }

  lemma PersistenceIsWellEncoded(p: Persistence)
    requires ValidFactID(p.factID)
    ensures WellEncoded(EncodePersistence(p))
  {
    hide ValidUtf8, Compact, ValidFactID;
    FactIDIsUtf8(p.factID);
    CompactIsWellEncoded(PersistenceEntries(p));
  }

  lemma PartsAreWellEncoded(q: Request)
    requires ValidParts(q)
    ensures WellEncoded(Arr(MapSeq(EncodeRecord, q.records)))
    ensures WellEncoded(Arr(MapSeq(EncodeRetraction, q.retractions)))
    ensures WellEncoded(Arr(MapSeq(EncodeCorrection, q.corrections)))
    ensures WellEncoded(Arr(MapSeq(EncodeExpiration, q.expirations)))
    ensures WellEncoded(Arr(MapSeq(EncodePersistence, q.persistence)))
  {
    hide ValidRecord, ValidRetraction, ValidCorrection, ValidExpiration, ValidFactID, EncodeRecord, EncodeRetraction,
      EncodeCorrection, EncodeExpiration, EncodePersistence;
    forall i | 0 <= i < |q.records| ensures WellEncoded(EncodeRecord(q.records[i])) {
      RecordIsWellEncoded(q.records[i]);
    }
    forall i | 0 <= i < |q.retractions| ensures WellEncoded(EncodeRetraction(q.retractions[i])) {
      RetractionIsWellEncoded(q.retractions[i]);
    }
    forall i | 0 <= i < |q.corrections| ensures WellEncoded(EncodeCorrection(q.corrections[i])) {
      CorrectionIsWellEncoded(q.corrections[i]);
    }
    forall i | 0 <= i < |q.expirations| ensures WellEncoded(EncodeExpiration(q.expirations[i])) {
      ExpirationIsWellEncoded(q.expirations[i]);
    }
    forall i | 0 <= i < |q.persistence| ensures WellEncoded(EncodePersistence(q.persistence[i])) {
      PersistenceIsWellEncoded(q.persistence[i]);
    }
  }

  lemma OthersAreWellEncoded(q: Request)
    requires ValidVocabulary(q)
    ensures q.vocabulary != "" ==> WellEncoded(Obj(Compact(VocabularyEntries(q.vocabulary))))
    ensures var t := EncodeTransactionTime(q.transactionTime);
            t.Some? ==> WellEncoded(t.value)
  {
    hide ValidUtf8, Compact;
    AsciiIsValidUtf8(q.vocabulary);
    CompactIsWellEncoded(VocabularyEntries(q.vocabulary));
    match q.transactionTime {
      case NoTime =>
      case AtTime(instant) => NumbersAreUtf8(ExactUnixNano(instant).0);
      case Nanoseconds(n) => NumbersAreUtf8(n);
    }
  }

  lemma FactsIsWellEncoded()
    ensures WellEncoded(Str("facts"))
  {
    AsciiIsValidUtf8("facts");
  }

  lemma LegibleList(name: string, items: seq<Json>)
    requires Ascii(name) && WellEncoded(Arr(items))
    ensures LegibleEntry(Entry(name, ArrOrOmit(items)))
  {
  }

  lemma EntriesAreLegible(q: Request)
    requires ValidParts(q) && ValidVocabulary(q)
    ensures forall i | 0 <= i < 8 :: LegibleEntry(RequestEntries(q)[i])
  {
    hide ValidUtf8, Compact, ValidParts, ValidVocabulary, MapSeq, EncodeTransactionTime, WellEncoded, ArrOrOmit;
    FactsIsWellEncoded();
    PartsAreWellEncoded(q);
    OthersAreWellEncoded(q);
    LegibleList("record", MapSeq(EncodeRecord, q.records));
    LegibleList("retract", MapSeq(EncodeRetraction, q.retractions));
    LegibleList("correct", MapSeq(EncodeCorrection, q.corrections));
    LegibleList("expire", MapSeq(EncodeExpiration, q.expirations));
    LegibleList("persist", MapSeq(EncodePersistence, q.persistence));
  }

  /** Every string a valid request puts on the wire is valid UTF-8. */
  lemma ValidRequestIsWellEncoded(q: Request)
    requires ValidRequest(q)
    ensures WellEncoded(Encoded(q))
  {
    assert ValidParts(q) && ValidVocabulary(q);
    hide ValidRequest, ValidParts, ValidVocabulary, Compact, LegibleEntry;
    EntriesAreLegible(q);
    CompactIsWellEncoded(RequestEntries(q));
  }

  /**
   The bytes of two valid requests, which the receipts of a node digest, are equal
   exactly when the requests differ in nothing but the spelling of the transaction
   time.
   */
  lemma BytesIdentifyRequests(q: Request, q': Request, quote: string -> string)
    requires ValidRequest(q) && ValidRequest(q') && Delimits(quote)
    ensures Write(Encoded(q), quote) == Write(Encoded(q'), quote) <==> Normalized(q) == Normalized(q')
  {
    hide ValidRequest, Delimits, WellEncoded, Write, Encoded, Normalized;
    ValidRequestIsWellEncoded(q);
    ValidRequestIsWellEncoded(q');
    TextsDiffer(Encoded(q), Encoded(q'), quote);
    EncodingIdentifiesRequests(q, q');
  }
}
