/** Session.Ingest: a batch compiled, keyed by its own digest and handed to the retry protocol. */
module Ingestion {
  import opened Wrappers
  import opened Keys
  import opened JsonText
  import opened Ingest
  import opened IngestValidation
  import opened IngestIdentity
  import opened IngestCompiler
  import Authoring
  import Server
  import KW = KeyedWrite

  datatype Refusal = NotPreflighted | InvalidBatch(error: Invalid) | TooLarge(size: nat) | BadKey(key: string)

  /** The key of a batch: its digest, without the algorithm's name, behind the advertised prefix. */
  function IngestionKey(prefix: string, env: Environment, b: Batch): string {
    prefix + "ingest:" + env.sum(CanonicalText(env, b))
  }

  /** A derived key fits exactly when the prefix leaves room for 71 bytes. */
  lemma IngestionKeyFitsExactlyWhen(prefix: string, maxBytes: int, env: Environment, b: Batch)
    requires Sound(env) && Authoring.ValidLimits(maxBytes, prefix)
    ensures ValidKey(IngestionKey(prefix, env, b), maxBytes, prefix) <==> |prefix| + 71 <= maxBytes
  {
  }

  /**
   Keys identify batches: under one prefix, and short of a collision of the digest
   on the two canonical texts, two batches share a key only if they are the same
   batch, and then they are sent as the same bytes.  Ingesting again can be
   replayed by the node; it cannot conflict.
   */
  lemma KeysIdentifyBatches(prefix: string, env: Environment, b: Batch, b': Batch)
    requires Sound(env) && Legible(b) && Legible(b')
    requires Separates(env, CanonicalText(env, b), CanonicalText(env, b'))
    ensures IngestionKey(prefix, env, b) == IngestionKey(prefix, env, b') <==> b == b'
    ensures IngestionKey(prefix, env, b) == IngestionKey(prefix, env, b') ==> WriteText(env, b) == WriteText(env, b')
  {
    hide Sound, Legible, CanonicalText, WriteText;
    SameTail(prefix + "ingest:", env.sum(CanonicalText(env, b)), env.sum(CanonicalText(env, b')));
    CanonicalTextsDiffer(env, b, b');
  }

  /** Why a batch is refused before the network, in the order the reasons are looked for. */
  function RefusalOf(s: KW.Session, env: Environment, b: Batch): Option<Refusal> {
    var error := CompileError(env, b);
    var key := IngestionKey(s.requiredKeyPrefix, env, b);
    if !s.ingestion then Some(NotPreflighted)
    else if error.Some? then Some(InvalidBatch(error.value))
    else if |WriteText(env, b)| > s.maxJSONRequestBytes then Some(TooLarge(|WriteText(env, b)|))
    else if !ValidKey(key, s.maxKeyBytes, s.requiredKeyPrefix) then Some(BadKey(key))
    else None
  }

  /** Each refusal has its own cause, looked for once those before it are ruled out. */
  lemma RefusedExactlyWhen(s: KW.Session, env: Environment, b: Batch)
    requires Sound(env) && Authoring.ValidLimits(s.maxKeyBytes, s.requiredKeyPrefix)
    ensures var r := RefusalOf(s, env, b);
            if !s.ingestion then r == Some(NotPreflighted)
            else if !ValidBatch(env, b) || |CanonicalText(env, b)| > 1048576 then r.Some? && r.value.InvalidBatch?
            else if |WriteText(env, b)| > s.maxJSONRequestBytes then r == Some(TooLarge(|WriteText(env, b)|))
            else if |s.requiredKeyPrefix| + 71 > s.maxKeyBytes then
              r == Some(BadKey(IngestionKey(s.requiredKeyPrefix, env, b)))
            else r == None
  {
    hide ValidBatch, WriteText, CanonicalText, BatchError, RawSize, ValidKey, IngestionKey, NeverShortens;
    IngestionKeyFitsExactlyWhen(s.requiredKeyPrefix, s.maxKeyBytes, env, b);
    NoErrorExactlyWhenValid(env, b);
    RawSizeIsALowerBound(env, b);
  }

  method IngestBatch(s: KW.Session, env: Environment, b: Batch, turns: nat -> KW.Turn, start: Server.World)
    returns (r: Result<KW.Returned, Refusal>, w: Server.World, trace: seq<KW.Event>)
    ensures match RefusalOf(s, env, b)
            case Some(refusal) => r == Err(refusal) && w == start && trace == []
            case None =>
              var c := KW.Scenario(s, IngestionKey(s.requiredKeyPrefix, env, b), WriteText(env, b), turns, start);
              && r.Ok? && KW.EntryRefusal(s, c.key, c.body).None?
              && Authoring.RanAs(c, r.value, w, trace)
    ensures r.Ok? ==> ValidBatch(env, b)
  {
    hide CompileError, ValidBatch, WriteText, CompiledOf, ValidKey, KW.IsRun, KW.WorldAfter, KW.Verdict, KW.AttemptsOf,
      CanonicalText;
    w, trace := start, [];
    if !s.ingestion {
      return Err(NotPreflighted), w, trace;
    }
    CompiledTexts(env, b);
    var compiled := Compile(env, b);
    if compiled.Err? {
      return Err(InvalidBatch(compiled.error)), w, trace;
    }
    var out := compiled.value;
    if |out.writeJSON| > s.maxJSONRequestBytes {
      return Err(TooLarge(|out.writeJSON|)), w, trace;
    }
    var key := s.requiredKeyPrefix + "ingest:" + out.batchDigest[7..];
    if !ValidKey(key, s.maxKeyBytes, s.requiredKeyPrefix) {
      return Err(BadKey(key)), w, trace;
    }
    var returned: KW.Returned;
    returned, w, trace := KW.WriteExact(KW.Scenario(s, key, out.writeJSON, turns, start));
    r := Ok(returned);
  }

  lemma CompiledTexts(env: Environment, b: Batch)
    ensures CompiledOf(env, b).writeJSON == WriteText(env, b)
    ensures |CompiledOf(env, b).batchDigest| >= 7
    ensures CompiledOf(env, b).batchDigest[7..] == env.sum(CanonicalText(env, b))
  {
    hide CanonicalText, CompiledRecords, ClaimEntity, WriteText;
  }
}
