/** WriteRequest: what must hold before a typed write is sent, and what the retry protocol is then given. */
module Authoring {
  import opened Wrappers
  import opened Keys
  import opened Json
  import opened Permutations
  import opened WriteTypes
  import opened WriteValidation
  import opened WriteWire
  import opened WriteFeatures
  import Server
  import SemanticKey
  import KW = KeyedWrite

  // ---------------------------------------------------- advertised features

  // The write vocabulary of the pinned capabilities.
  datatype Advertised = Advertised(
    operations: seq<string>, objectKinds: seq<string>, expirationForms: seq<string>,
    vocabularyModes: seq<string>, recordModes: seq<string>, retractSelectors: seq<string>)

  datatype Missing = Missing(category: string, value: string)

  /** RecordMode.CapabilityName. */
  function CapabilityName(mode: string): string { if mode == APPEND then "append" else mode }

  function CapabilityNames(modes: seq<string>): (names: seq<string>)
    ensures |names| == |modes| && forall i | 0 <= i < |modes| :: names[i] == CapabilityName(modes[i])
  {
    seq(|modes|, (i: nat) requires i < |modes| => CapabilityName(modes[i]))
  }

  predicate Subset(words: seq<string>, advertised: seq<string>) { forall w | w in words :: w in advertised }

  ghost predicate FirstNotIn(word: string, words: seq<string>, advertised: seq<string>) {
    exists i :: 0 <= i < |words| && words[i] == word && word !in advertised && Subset(words[..i], advertised)
  }

  /** The first word that is not advertised. */
  function FirstMissing(category: string, words: seq<string>, advertised: seq<string>): (m: Option<Missing>)
    ensures m.None? <==> Subset(words, advertised)
    ensures m.Some? ==> m.value.category == category && FirstNotIn(m.value.value, words, advertised)
  {
    if words == [] then None
    else if words[0] !in advertised then
      assert Subset(words[..0], advertised);
      Some(Missing(category, words[0]))
    else
      FirstMissing(category, words[1..], advertised)
  }

  /** A record mode goes by its own name, and the unnamed one by "append". */
  ghost predicate FirstModeNotIn(word: string, modes: seq<string>, advertised: seq<string>) {
    exists i :: 0 <= i < |modes| && word == (if modes[i] == "" then "append" else modes[i]) && word !in advertised
                && forall j | 0 <= j < i :: (if modes[j] == "" then "append" else modes[j]) in advertised
  }

  ghost predicate ModesAdvertised(modes: seq<string>, advertised: seq<string>) {
    forall m | m in modes :: (if m == "" then "append" else m) in advertised
  }

  /** The category is the first that lacks a word, and the word the first that it lacks. */
  ghost predicate Blames(f: Features, a: Advertised, m: Missing) {
    if !Subset(f.operations, a.operations) then
      m.category == "operation" && FirstNotIn(m.value, f.operations, a.operations)
    else if !Subset(f.objectKinds, a.objectKinds) then
      m.category == "object kind" && FirstNotIn(m.value, f.objectKinds, a.objectKinds)
    else if !Subset(f.expirationForms, a.expirationForms) then
      m.category == "expiration form" && FirstNotIn(m.value, f.expirationForms, a.expirationForms)
    else if !Subset(f.vocabularyModes, a.vocabularyModes) then
      m.category == "vocabulary mode" && FirstNotIn(m.value, f.vocabularyModes, a.vocabularyModes)
    else if !ModesAdvertised(f.recordModes, a.recordModes) then
      m.category == "record mode" && FirstModeNotIn(m.value, f.recordModes, a.recordModes)
    else
      m.category == "retraction selector" && FirstNotIn(m.value, f.retractionSelectors, a.retractSelectors)
  }

  lemma ModeNames(modes: seq<string>, advertised: seq<string>, word: string)
    ensures Subset(CapabilityNames(modes), advertised) <==> ModesAdvertised(modes, advertised)
    ensures FirstNotIn(word, CapabilityNames(modes), advertised) ==> FirstModeNotIn(word, modes, advertised)
  {
    var names := CapabilityNames(modes);
    assert forall i | 0 <= i < |modes| :: names[i] == if modes[i] == "" then "append" else modes[i];
    if Subset(names, advertised) {
      forall m | m in modes ensures (if m == "" then "append" else m) in advertised {
        var i :| 0 <= i < |modes| && modes[i] == m;
        assert names[i] in names;
      }
    }
    if ModesAdvertised(modes, advertised) {
      forall n | n in names ensures n in advertised {
        var i :| 0 <= i < |names| && names[i] == n;
        assert modes[i] in modes;
      }
    }
    if FirstNotIn(word, names, advertised) {
      var i :| 0 <= i < |names| && names[i] == word && word !in advertised && Subset(names[..i], advertised);
      assert forall j | 0 <= j < i :: names[..i][j] in names[..i];
    }
  }

  lemma ModeNamesOf(f: Features, a: Advertised)
    ensures Subset(CapabilityNames(f.recordModes), a.recordModes) <==> ModesAdvertised(f.recordModes, a.recordModes)
    ensures forall word | FirstNotIn(word, CapabilityNames(f.recordModes), a.recordModes) ::
              FirstModeNotIn(word, f.recordModes, a.recordModes)
  {
    hide FirstNotIn, FirstModeNotIn, Subset, ModesAdvertised, CapabilityNames;
    ModeNames(f.recordModes, a.recordModes, "");
    forall word | FirstNotIn(word, CapabilityNames(f.recordModes), a.recordModes)
      ensures FirstModeNotIn(word, f.recordModes, a.recordModes)
    {
      ModeNames(f.recordModes, a.recordModes, word);
    }
  }

  /** validateWriteFeatures: the first needed word the node does not advertise. */
  function ValidateWriteFeatures(f: Features, a: Advertised): (m: Option<Missing>)
    ensures m.None? <==>
              && Subset(f.operations, a.operations) && Subset(f.objectKinds, a.objectKinds)
              && Subset(f.expirationForms, a.expirationForms) && Subset(f.vocabularyModes, a.vocabularyModes)
              && ModesAdvertised(f.recordModes, a.recordModes)
              && Subset(f.retractionSelectors, a.retractSelectors)
    ensures m.Some? ==> Blames(f, a, m.value)
  {
    ModeNamesOf(f, a);
    OrElse(FirstMissing("operation", f.operations, a.operations),
    OrElse(FirstMissing("object kind", f.objectKinds, a.objectKinds),
    OrElse(FirstMissing("expiration form", f.expirationForms, a.expirationForms),
    OrElse(FirstMissing("vocabulary mode", f.vocabularyModes, a.vocabularyModes),
    OrElse(FirstMissing("record mode", CapabilityNames(f.recordModes), a.recordModes),
           FirstMissing("retraction selector", f.retractionSelectors, a.retractSelectors))))))
  }

  /** A record of the wire tree needs its mode, and "append" when it states none. */
  predicate ModeAdvertised(item: Json, a: Advertised) {
    match Member(item, "mode")
    case None => "append" in a.recordModes
    case Some(Str(mode)) => mode in a.recordModes
    case _ => false
  }

  /** Everything the wire tree uses is advertised. */
  ghost predicate UsesOnlyAdvertised(j: Json, a: Advertised) {
    && (forall w | w in {"record", "retract", "correct", "expire", "persist"} && Member(j, w).Some? ::
          w in a.operations)
    && (forall w | w in {"entity_label", "u64"} && w in WireKinds(j) :: w in a.objectKinds)
    && (forall w | w in {"ttl_ms", "expires_at_ns"} && w in WireForms(j) :: w in a.expirationForms)
    && (WireVocabulary(j) != "" ==> WireVocabulary(j) in a.vocabularyModes)
    && (forall item | item in Items(j, "record") :: ModeAdvertised(item, a))
    && (forall w | w in {"fact", "where", "slot"} && w in Image(WireSelector, Items(j, "retract")) ::
          w in a.retractSelectors)
  }

  lemma SubsetOfSelected(words: seq<string>, used: set<string>, advertised: seq<string>)
    requires NoRepeats(words)
    ensures Subset(Select(words, used), advertised) <==> forall w | w in words && w in used :: w in advertised
  {
  }

  lemma ModesOfSelected(words: seq<string>, used: set<string>, advertised: seq<string>)
    requires NoRepeats(words)
    ensures ModesAdvertised(Select(words, used), advertised)
       <==> forall w | w in words && w in used :: (if w == "" then "append" else w) in advertised
  {
    hide Select;
    SelectIsDistinct(words, used);
  }

  lemma TheFixedWords()
    ensures forall w :: w in OPERATIONS <==> w in {"record", "retract", "correct", "expire", "persist"}
    ensures forall w :: w in OBJECT_KINDS <==> w in {"entity_label", "u64"}
    ensures forall w :: w in EXPIRATION_FORMS <==> w in {"ttl_ms", "expires_at_ns"}
    ensures forall w :: w in SELECTORS <==> w in {"fact", "where", "slot"}
    ensures forall w :: w in RECORD_MODES <==> w in {"", "ensure", "replace"}
  {
  }

  /** What the records of a valid request state as their mode. */
  lemma ModesOfRecords(q: Request)
    requires ValidRequest(q)
    ensures forall item | item in Items(Encoded(q), "record") ::
              WireMode(item) in {"", "ensure", "replace"}
              && Member(item, "mode") == if WireMode(item) == "" then None else Some(Str(WireMode(item)))
  {
    assert ValidParts(q);
    hide Encoded, Member, EncodeRecord, ValidParts, ValidRequest, Items;
    ItemsAre(q);
    forall item | item in Items(Encoded(q), "record")
      ensures WireMode(item) in {"", "ensure", "replace"}
      ensures Member(item, "mode") == if WireMode(item) == "" then None else Some(Str(WireMode(item)))
    {
      var i :| 0 <= i < |q.records| && item == EncodeRecord(q.records[i]);
      ModeOfRecord(q, q.records[i]);
    }
  }

  lemma ModeOfRecord(q: Request, r: Record)
    requires ValidRequest(q) && r in q.records
    ensures var item := EncodeRecord(r);
            && WireMode(item) == r.mode && r.mode in {"", "ensure", "replace"}
            && Member(item, "mode") == if r.mode == "" then None else Some(Str(r.mode))
  {
    assert ValidRecord(r);
    hide Member, EncodeRecord;
    RecordLookups(r);
  }

  /** The record modes of a valid request are advertised exactly when those its records state are. */
  lemma RecordModesPassExactlyWhen(q: Request, a: Advertised)
    requires ValidRequest(q)
    ensures ModesAdvertised(FeaturesOf(q).recordModes, a.recordModes)
       <==> forall item | item in Items(Encoded(q), "record") :: ModeAdvertised(item, a)
  {
    hide ValidRequest, Encoded, Items, WireMode, Select, RECORD_MODES, NoRepeats, FeaturesOf, WireFeatures,
      ModesAdvertised, Member;
    var items, used := Items(Encoded(q), "record"), Image(WireMode, Items(Encoded(q), "record"));
    FeaturesAreTheWireVocabulary(q);
    FixedListsAreDistinct();
    TheFixedWords();
    ModesOfRecords(q);
    ModesOfSelected(RECORD_MODES, used, a.recordModes);
    assert FeaturesOf(q).recordModes == Select(RECORD_MODES, used) by { WireModesAre(Encoded(q)); }
    if forall w | w in RECORD_MODES && w in used :: (if w == "" then "append" else w) in a.recordModes {
      forall item | item in items ensures ModeAdvertised(item, a) {
        var i :| 0 <= i < |items| && items[i] == item;
        assert WireMode(item) in used && WireMode(item) in RECORD_MODES;
      }
    }
    if forall item | item in items :: ModeAdvertised(item, a) {
      forall w | w in RECORD_MODES && w in used ensures (if w == "" then "append" else w) in a.recordModes {
        var i :| 0 <= i < |items| && WireMode(items[i]) == w;
        assert ModeAdvertised(items[i], a);
      }
    }
  }

  lemma WireModesAre(j: Json)
    ensures WireFeatures(j).recordModes == Select(RECORD_MODES, Image(WireMode, Items(j, "record")))
  {
  }

  /** The other words of a tree. */
  lemma OtherWordsOfTheTree(j: Json, a: Advertised)
    ensures var f := WireFeatures(j);
            && (Subset(f.operations, a.operations) <==>
                forall w | w in {"record", "retract", "correct", "expire", "persist"} && Member(j, w).Some? ::
                  w in a.operations)
            && (Subset(f.objectKinds, a.objectKinds) <==>
                forall w | w in {"entity_label", "u64"} && w in WireKinds(j) :: w in a.objectKinds)
            && (Subset(f.expirationForms, a.expirationForms) <==>
                forall w | w in {"ttl_ms", "expires_at_ns"} && w in WireForms(j) :: w in a.expirationForms)
            && (Subset(f.vocabularyModes, a.vocabularyModes) <==>
                (WireVocabulary(j) != "" ==> WireVocabulary(j) in a.vocabularyModes))
            && (Subset(f.retractionSelectors, a.retractSelectors) <==>
                forall w | w in {"fact", "where", "slot"} && w in Image(WireSelector, Items(j, "retract")) ::
                  w in a.retractSelectors)
  {
    FixedListsAreDistinct();
    TheFixedWords();
    hide Subset, Select, NoRepeats, WireKinds, WireForms, WireVocabulary, Image, Member, Keep, OPERATIONS, OBJECT_KINDS,
      EXPIRATION_FORMS, SELECTORS, RECORD_MODES;
    SubsetOfSelected(OPERATIONS, WireOperations(j), a.operations);
    SubsetOfSelected(OBJECT_KINDS, WireKinds(j), a.objectKinds);
    SubsetOfSelected(EXPIRATION_FORMS, WireForms(j), a.expirationForms);
    SubsetOfSelected(SELECTORS, Image(WireSelector, Items(j, "retract")), a.retractSelectors);
    KeptIsAdvertised(WireVocabulary(j), a.vocabularyModes);
  }

  /** A valid request passes the gate exactly when its wire tree uses only what the node advertises. */
  lemma AdmittedExactlyWhenAdvertised(q: Request, a: Advertised)
    requires ValidRequest(q)
    ensures ValidateWriteFeatures(FeaturesOf(q), a).None? <==> UsesOnlyAdvertised(Encoded(q), a)
  {
    hide FeaturesOf, WireFeatures, Encoded, ValidRequest, Subset, ModesAdvertised, WireKinds, WireForms, WireVocabulary,
      Image, Member, Items, ModeAdvertised;
    FeaturesAreTheWireVocabulary(q);
    RecordModesPassExactlyWhen(q, a);
    OtherWordsOfTheTree(Encoded(q), a);
  }

  lemma KeptIsAdvertised(word: string, advertised: seq<string>)
    ensures Subset(Keep(word != "", word), advertised) <==> (word != "" ==> word in advertised)
  {
  }

  // ------------------------------------------------------------------ keys

  datatype WriteKey = Unset | Suffix(value: string) | Full(value: string)

  function ResolveWriteKey(key: WriteKey, maxBytes: int, prefix: string): Result<string, KW.Error> {
    match key
    case Suffix(value) =>
      if !ValidWireToken(value) then Err(KW.InvalidKeyError(value))
      else if prefix != "" && prefix <= value then Err(KW.InvalidKeyError(value))
      else if ValidKey(prefix + value, maxBytes, prefix) then Ok(prefix + value)
      else Err(KW.InvalidKeyError(prefix + value))
    case Full(value) => if ValidKey(value, maxBytes, prefix) then Ok(value) else Err(KW.InvalidKeyError(value))
    case Unset => Err(KW.InvalidKeyError(""))
  }

  /** The four ways a key goes: unset is refused, a full key and a suffix as they fit, and an error names the key. */
  lemma KeysResolveExactly(key: WriteKey, maxBytes: int, prefix: string)
    ensures var r := ResolveWriteKey(key, maxBytes, prefix);
            match key
            case Unset => r == Err(KW.InvalidKeyError(""))
            case Full(value) =>
              r == if FullKeyFits(value, maxBytes, prefix) then Ok(value) else Err(KW.InvalidKeyError(value))
            case Suffix(value) =>
              && (r.Ok? <==> !(prefix != "" && prefix <= value) && 1 <= |value| <= 128
                             && (forall i | 0 <= i < |value| :: TokenChar(value[i]))
                             && FullKeyFits(prefix + value, maxBytes, prefix))
              && (r.Ok? ==> r.value == prefix + value)
              && (r.Err? ==> r.error in {KW.InvalidKeyError(value), KW.InvalidKeyError(prefix + value)})
  {
  }

  /** A key of 1 to 128 token characters within the node's limit, and the prefix with something after it. */
  predicate FullKeyFits(key: string, maxBytes: int, prefix: string) {
    && 1 <= |key| <= 128 && |key| <= maxBytes && (forall i | 0 <= i < |key| :: TokenChar(key[i]))
    && (prefix == "" || (prefix <= key && prefix != key))
  }

  /** What preflight establishes about the idempotency limits of a writing session. */
  predicate ValidLimits(maxBytes: int, prefix: string) {
    && 0 < maxBytes <= 128
    && (prefix != "" ==> |prefix| <= 127 && |prefix| < maxBytes)
    && forall i | 0 <= i < |prefix| :: TokenChar(prefix[i])
  }

  /** A suffix resolves exactly when it is a token, is not prefixed already, and leaves room for the prefix. */
  lemma SuffixResolvesExactlyWhen(value: string, maxBytes: int, prefix: string)
    requires ValidLimits(maxBytes, prefix)
    ensures ResolveWriteKey(Suffix(value), maxBytes, prefix).Ok? <==>
              && value != "" && (forall i | 0 <= i < |value| :: TokenChar(value[i]))
              && |prefix| + |value| <= maxBytes
              && !(prefix != "" && prefix <= value)
  {
  }

  /**
   The prefix is applied exactly once: the resolved key is prefix and suffix, is
   itself a full key, and is refused as a suffix; and it comes from no other suffix.
   */
  lemma PrefixIsAppliedOnce(value: string, other: string, maxBytes: int, prefix: string)
    requires ResolveWriteKey(Suffix(value), maxBytes, prefix).Ok?
    ensures var resolved := ResolveWriteKey(Suffix(value), maxBytes, prefix).value;
            && prefix <= resolved && resolved[|prefix|..] == value && !(prefix != "" && prefix <= value)
            && ResolveWriteKey(Full(resolved), maxBytes, prefix) == Ok(resolved)
            && (prefix != "" ==> ResolveWriteKey(Suffix(resolved), maxBytes, prefix).Err?)
            && (ResolveWriteKey(Suffix(other), maxBytes, prefix) == Ok(resolved) ==> other == value)
  {
  }

  /** The 43 characters RawURLEncoding makes of a SHA-256 sum. */
  predicate EncodedSum(s: string) { |s| == 43 && forall i | 0 <= i < |s| :: TokenChar(s[i]) }

  /** Exactly when a semantic key fits: its 44 bytes past the namespace must leave room for the prefix. */
  lemma SemanticKeyFitsExactlyWhen(namespace: string, sum: string, maxBytes: int, prefix: string)
    requires ValidLimits(maxBytes, prefix)
    requires SemanticKey.ValidNamespace(namespace) && EncodedSum(sum)
    ensures var suffix := SemanticKey.Suffix(namespace, sum);
            ResolveWriteKey(Suffix(suffix), maxBytes, prefix).Ok? <==>
              |prefix| + |namespace| + 44 <= maxBytes && !(prefix != "" && prefix <= suffix)
  {
  }

  // ----------------------------------------------------------- the whole way

  datatype Refusal =
    | InvalidRequest(error: Invalid)
    | NotPreflighted
    | FeatureMissing(missing: Missing)
    | BadKey(keyError: KW.Error)

  /** Why a typed write is refused before the network, in the order the reasons are looked for. */
  function RefusalOf(s: KW.Session, a: Advertised, key: WriteKey, q: Request): Option<Refusal> {
    var error := RequestError(q);
    var missing := ValidateWriteFeatures(FeaturesOf(q), a);
    var resolved := ResolveWriteKey(key, s.maxKeyBytes, s.requiredKeyPrefix);
    if error.Some? then Some(InvalidRequest(error.value))
    else if !s.writable && !s.ingestion then Some(NotPreflighted)
    else if missing.Some? then Some(FeatureMissing(missing.value))
    else if resolved.Err? then Some(BadKey(resolved.error))
    else None
  }

  /** Each refusal has its own cause, looked for once those before it are ruled out. */
  lemma RefusedExactlyWhen(s: KW.Session, a: Advertised, key: WriteKey, q: Request)
    ensures var r := RefusalOf(s, a, key, q);
            if !ValidRequest(q) then r.Some? && r.value.InvalidRequest?
            else if !(s.writable || s.ingestion) then r == Some(NotPreflighted)
            else if !UsesOnlyAdvertised(Encoded(q), a) then
              r.Some? && r.value.FeatureMissing? && Blames(FeaturesOf(q), a, r.value.missing)
            else if ResolveWriteKey(key, s.maxKeyBytes, s.requiredKeyPrefix).Err? then
              r.Some? && r.value.BadKey?
              && r.value.keyError == ResolveWriteKey(key, s.maxKeyBytes, s.requiredKeyPrefix).error
            else r == None
  {
    hide ValidRequest, RequestError, FeaturesOf, ValidateWriteFeatures, UsesOnlyAdvertised, Encoded, ResolveWriteKey,
      Blames;
    NoErrorExactlyWhenValid(q);
    if ValidRequest(q) {
      AdmittedExactlyWhenAdvertised(q, a);
    }
  }

  function ResolvedKey(s: KW.Session, key: WriteKey): string {
    match ResolveWriteKey(key, s.maxKeyBytes, s.requiredKeyPrefix)
    case Ok(resolved) => resolved
    case Err(_) => ""
  }

  /** The write path did what the retry protocol does with this key and body, and nothing else. */
  ghost predicate RanAs(c: KW.Scenario, r: KW.Returned, w: Server.World, trace: seq<KW.Event>) {
    var refused := KW.EntryRefusal(c.session, c.key, c.body);
    if refused.Some? then r == KW.Returned(None, refused) && w == c.start && trace == []
    else if c.session.maxAttempts < 1 then r == KW.Returned(None, None) && w == c.start && trace == []
    else KW.IsRun(c, trace) && w == KW.WorldAfter(c, KW.AttemptsOf(trace)) && r == KW.Verdict(c, trace)
  }

  method WriteRequest(s: KW.Session, a: Advertised, key: WriteKey, q: Request, marshal: Json -> string,
                      env: nat -> KW.Turn, start: Server.World)
    returns (r: Result<KW.Returned, Refusal>, w: Server.World, trace: seq<KW.Event>)
    ensures match RefusalOf(s, a, key, q)
            case Some(refusal) => r == Err(refusal) && w == start && trace == []
            case None =>
              r.Ok? && RanAs(KW.Scenario(s, ResolvedKey(s, key), marshal(Encoded(q)), env, start), r.value, w, trace)
    ensures r.Ok? ==> ValidRequest(q) && UsesOnlyAdvertised(Encoded(q), a)
  {
    hide ValidRequest, RequestError, FeaturesOf, ValidateWriteFeatures, UsesOnlyAdvertised, Encoded, ResolveWriteKey,
      Decode, KW.AttemptsOf, KW.EntryRefusal, KW.IsRun, KW.WorldAfter, KW.Verdict;
    w, trace := start, [];
    NoErrorExactlyWhenValid(q);
    var encoded := Encode(q);
    if encoded.Err? {
      return Err(InvalidRequest(encoded.error)), w, trace;
    }
    if !s.writable && !s.ingestion {
      return Err(NotPreflighted), w, trace;
    }
    var features := FindFeatures(q);
    var missing := ValidateWriteFeatures(features, a);
    if missing.Some? {
      return Err(FeatureMissing(missing.value)), w, trace;
    }
    AdmittedExactlyWhenAdvertised(q, a);
    var resolved := ResolveWriteKey(key, s.maxKeyBytes, s.requiredKeyPrefix);
    if resolved.Err? {
      return Err(BadKey(resolved.error)), w, trace;
    }
    var returned: KW.Returned;
    returned, w, trace := KW.WriteExact(KW.Scenario(s, resolved.value, marshal(encoded.value), env, start));
    r := Ok(returned);
  }

  /** A key that resolved is never refused by the write path itself; only the body can still be too large. */
  lemma ResolvedKeysAreAccepted(s: KW.Session, key: WriteKey, body: string)
    requires s.writable || s.ingestion
    requires ResolveWriteKey(key, s.maxKeyBytes, s.requiredKeyPrefix).Ok?
    ensures KW.EntryRefusal(s, ResolveWriteKey(key, s.maxKeyBytes, s.requiredKeyPrefix).value, body)
         == if |body| > s.maxJSONRequestBytes then Some(KW.RequestTooLargeError(|body|, s.maxJSONRequestBytes))
           else None
  {
  }
}
