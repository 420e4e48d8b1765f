/**
 The order of the names in every object that is put on the wire, or digested.  The
 bytes of a request are a contract, since the node keeps their digest, and those of
 a batch or of the identity of a claim are digested here: a struct is written in
 the order of its fields, those left out aside.
 */
module WireOrder {
  import opened Wrappers
  import opened Json
  import opened Permutations
  import W = WriteWire
  import WT = WriteTypes
  import Q = Query
  import QW = QueryWire
  import I = Ingest

  function Names(j: Json): (names: seq<string>)
    ensures |names| == |Fields(j)| && forall i | 0 <= i < |names| :: names[i] == Fields(j)[i].name
  {
    seq(|Fields(j)|, (i: nat) requires i < |Fields(j)| => Fields(j)[i].name)
  }

  function IfMember(j: Json): string -> Option<string> {
    (name: string) => if Member(j, name).Some? then Some(name) else None
  }

  /** The object has no names but these, and has them in this order. */
  ghost predicate InOrder(j: Json, names: seq<string>) { j.Obj? && Names(j) == FilterMap(IfMember(j), names) }

  function EntryNames(es: seq<Entry>): (names: seq<string>)
    ensures |names| == |es| && forall i | 0 <= i < |es| :: names[i] == es[i].name
  {
    seq(|es|, (i: nat) requires i < |es| => es[i].name)
  }

  lemma {:induction false} CompactKeepsTheOrder(es: seq<Entry>, j: Json)
    requires forall i | 0 <= i < |es| :: Member(j, es[i].name).Some? <==> es[i].value.Some?
    ensures Names(Obj(Compact(es))) == FilterMap(IfMember(j), EntryNames(es))
  {
    hide Member;
    if es != [] {
      var rest := es[1..];
      CompactKeepsTheOrder(rest, j);
      assert EntryNames(es)[1..] == EntryNames(rest);
      assert Compact(es) == (if es[0].value.Some? then [Field(es[0].name, es[0].value.value)] else []) + Compact(rest);
    }
  }

  /** A struct is written in the order of its fields. */
  lemma StructInOrder(es: seq<Entry>, names: seq<string>)
    requires DistinctNames(es) && EntryNames(es) == names
    ensures InOrder(Obj(Compact(es)), names)
  {
    hide Member, Compact;
    Lookups(es);
    CompactKeepsTheOrder(es, Obj(Compact(es)));
  }

  // ------------------------------------------------------- typed writes

  const RECORD := ["subject", "predicate", "object", "tense", "raw_text", "mode", "ttl_ms", "expires_at_ns"]

  /** The other entries of a write request. */
  lemma MutationsAreInOrder(t: WT.Retraction, c: WT.Correction, e: WT.Expiration)
    ensures InOrder(W.EncodeRetraction(t), ["fact", "where", "slot"])
    ensures InOrder(W.EncodeCorrection(c), ["supersede", "with"])
    ensures InOrder(W.EncodeExpiration(e), ["fact", "ttl_ms", "expires_at_ns"])
  {
    hide InOrder, W.EncodeRecord, W.TTL, W.ExpiresAt, Compact, StrOrOmit, W.WhereEntries, W.SlotEntries;
    StructInOrder(W.RetractionEntries(t), ["fact", "where", "slot"]);
    StructInOrder(W.CorrectionEntries(c), ["supersede", "with"]);
    StructInOrder(W.ExpirationEntries(e), ["fact", "ttl_ms", "expires_at_ns"]);
  }

  lemma RequestInOrder(q: WT.Request)
    ensures InOrder(W.Encoded(q), ["write", "record", "retract", "correct", "expire", "persist", "vocabulary",
                                   "tx_time_ns"])
  {
    hide InOrder, ArrOrOmit, MapSeq, Compact;
    StructInOrder(W.RequestEntries(q), ["write", "record", "retract", "correct", "expire", "persist", "vocabulary",
                                        "tx_time_ns"]);
  }

  lemma RecordInOrder(r: WT.Record)
    ensures InOrder(W.EncodeRecord(r), RECORD)
  {
    hide InOrder, Compact;
    StructInOrder(W.RecordEntries(r), RECORD);
  }

  /** The objects inside a retraction. */
  lemma SelectorsAreInOrder(subject: string, pred: string, obj: WT.Object)
    ensures InOrder(Obj(Compact(W.WhereEntries(subject, pred, obj))), ["subject", "predicate", "object"])
    ensures InOrder(Obj(Compact(W.SlotEntries(subject, pred))), ["subject", "predicate"])
  {
    hide InOrder;
    StructInOrder(W.WhereEntries(subject, pred, obj), ["subject", "predicate", "object"]);
    StructInOrder(W.SlotEntries(subject, pred), ["subject", "predicate"]);
  }

  // ------------------------------------------------------- queries

  const QUERY := ["find", "where", "return", "consistency", "optimize", "required_watermark", "log_identity", "limit",
                  "order", "offset"]

  lemma QueryInOrder(q: Q.Request)
    ensures InOrder(QW.Encoded(q), QUERY)
  {
    QW.EntryNamesDiffer(q);
    hide InOrder, ArrOrOmit, MapSeq, Compact, QW.FilterEntries, QW.ReturnEntries, QW.OptimizationEntries, QW.IntOrOmit,
      StrOrOmit, QW.Consistency, QW.Watermark, QW.LogOf;
    StructInOrder(QW.RequestEntries(q), QUERY);
  }

  /** The objects inside a query. */
  lemma QueryPartsAreInOrder(f: Q.Filter, r: Q.Return, o: Q.Optimization, k: Q.Order, n: Q.NumericRange)
    ensures InOrder(Obj(Compact(QW.FilterEntries(f))), ["subject", "predicate", "object", "object_number"])
    ensures InOrder(Obj(Compact(QW.ReturnEntries(r))), ["shape", "include_facts"])
    ensures InOrder(Obj(Compact(QW.OptimizationEntries(o))), ["mode", "representation"])
    ensures InOrder(QW.OrderWire(k), ["by", "dir"])
    ensures InOrder(Obj(Compact(QW.RangeEntries(n))), ["gt", "gte", "lt", "lte"])
  {
    hide InOrder, QW.LabelsWire, QW.RangeWire;
    StructInOrder(QW.FilterEntries(f), ["subject", "predicate", "object", "object_number"]);
    StructInOrder(QW.ReturnEntries(r), ["shape", "include_facts"]);
    StructInOrder(QW.OptimizationEntries(o), ["mode", "representation"]);
    StructInOrder(QW.OrderEntries(k), ["by", "dir"]);
    StructInOrder(QW.RangeEntries(n), ["gt", "gte", "lt", "lte"]);
  }

  // ------------------------------------------------------- batches

  const CLAIM := ["external_id", "subject", "predicate", "object", "confidence_ppm", "evidence"]
  const IDENTITY := ["profile", "producer", "source_digest", "subject", "predicate", "object", "confidence_ppm",
                     "evidence"]

  lemma ClaimInOrder(c: I.Claim)
    ensures InOrder(I.ClaimJson(c), CLAIM)
  {
    hide InOrder, ArrOrOmit, MapSeq, Compact, I.ObjectJson, I.ConfidenceJson;
    StructInOrder(I.ClaimEntries(c), CLAIM);
  }

  /** What the identity of a claim is digested from. */
  lemma IdentityInOrder(profile: string, producer: string, source: string, c: I.Claim)
    ensures InOrder(I.IdentityJson(profile, producer, source, c), IDENTITY)
  {
    hide InOrder, ArrOrOmit, MapSeq, Compact, I.ObjectJson, I.ConfidenceJson, StrOrOmit;
    StructInOrder(I.IdentityEntries(profile, producer, source, c), IDENTITY);
  }

  lemma BatchInOrder(b: I.Batch)
    ensures InOrder(I.BatchJson(b), ["schema", "profile", "producer", "source", "claims"])
  {
    hide InOrder, MapSeq, Compact, I.ProducerEntries, I.SourceJson;
    StructInOrder(I.BatchEntries(b), ["schema", "profile", "producer", "source", "claims"]);
  }

  /** The other objects of a canonical batch, and of the identity of its producer. */
  lemma BatchPartsAreInOrder(p: I.Producer, s: I.Source, o: I.Object, e: I.Evidence)
    ensures InOrder(Obj(Compact(I.ProducerEntries(p))), ["name", "version", "run_id", "schema_identity"])
    ensures InOrder(I.ProducerIdentity(p), ["name", "version", "schema_identity"])
    ensures InOrder(Obj(Compact(I.SourceEntries(s))), ["digest", "media_type", "artifact"])
    ensures InOrder(Obj(Compact(I.ArtifactEntries(s.artifact))), ["mode", "uri"])
    ensures InOrder(I.ObjectJson(o), ["entity", "u64"]) && InOrder(I.EvidenceJson(e), ["locator", "quote"])
  {
    hide InOrder;
    StructInOrder(I.ProducerEntries(p), ["name", "version", "run_id", "schema_identity"]);
    StructInOrder(I.ProducerIdentityEntries(p), ["name", "version", "schema_identity"]);
    StructInOrder(I.SourceEntries(s), ["digest", "media_type", "artifact"]);
    StructInOrder(I.ArtifactEntries(s.artifact), ["mode", "uri"]);
    StructInOrder(I.ObjectEntries(o), ["entity", "u64"]);
    StructInOrder(I.EvidenceEntries(e), ["locator", "quote"]);
  }
}
