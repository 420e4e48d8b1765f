/** Features: the advertised vocabulary a request needs, against the vocabulary its wire tree uses. */
module WriteFeatures {
  import opened Wrappers
  import opened Json
  import opened Permutations
  import opened WriteTypes
  import opened WriteValidation
  import opened WriteWire

  datatype Features = Features(
    operations: seq<string>, objectKinds: seq<string>, expirationForms: seq<string>,
    vocabularyModes: seq<string>, recordModes: seq<string>, retractionSelectors: seq<string>)

  const OPERATIONS := ["correct", "expire", "persist", "record", "retract"]
  const OBJECT_KINDS := ["entity_label", "u64"]
  const EXPIRATION_FORMS := ["expires_at_ns", "ttl_ms"]
  const RECORD_MODES := [APPEND, ENSURE, REPLACE]
  const SELECTORS := ["fact", "slot", "where"]

  function Keep(flag: bool, word: string): seq<string> { if flag then [word] else [] }

  /** The words of a fixed list that are used, in the order of the list. */
  function Select(words: seq<string>, used: set<string>): seq<string> {
    if words == [] then [] else Keep(words[0] in used, words[0]) + Select(words[1..], used)
  }

  // ------------------------------------------------- what a request uses

  function Kind(o: Object): string {
    match o
    case Entity(_) => "entity_label"
    case Number(_) => "u64"
    case UnsetObject => ""
  }

  function Form(d: Deadline): string {
    match d
    case NoDeadline => ""
    case After(_) => "ttl_ms"
    case At(_) => "expires_at_ns"
  }

  function RecordKind(r: Record): string { Kind(r.obj) }
  function RetractionKind(r: Retraction): string { if r.RetractExact? then Kind(r.obj) else "" }
  function CorrectionKind(c: Correction): string { Kind(c.replacement.obj) }
  function RecordForm(r: Record): string { Form(r.expiration) }
  function CorrectionForm(c: Correction): string { Form(c.replacement.expiration) }
  function ExpirationForm(e: Expiration): string { Form(e.deadline) }
  function RecordMode(r: Record): string { if r.mode in {ENSURE, REPLACE} then r.mode else APPEND }

  function Selector(r: Retraction): string {
    match r
    case UnsetRetraction => ""
    case RetractFact(_) => "fact"
    case RetractExact(_, _, _) => "where"
    case RetractSlot(_, _) => "slot"
  }

  function Image<T>(f: T -> string, s: seq<T>): set<string> { set i | 0 <= i < |s| :: f(s[i]) }

  function Kinds(q: Request): set<string> {
    Image(RecordKind, q.records) + Image(RetractionKind, q.retractions) + Image(CorrectionKind, q.corrections)
  }

  function Forms(q: Request): set<string> {
    Image(RecordForm, q.records) + Image(CorrectionForm, q.corrections) + Image(ExpirationForm, q.expirations)
  }

  function Operations(q: Request): set<string> {
    (if q.records == [] then {} else {"record"}) + (if q.retractions == [] then {} else {"retract"})
    + (if q.corrections == [] then {} else {"correct"}) + (if q.expirations == [] then {} else {"expire"})
    + (if q.persistence == [] then {} else {"persist"})
  }

  /** The fixed lists, cut down to what the request uses. */
  function FeaturesOf(q: Request): Features {
    Features(
      Select(OPERATIONS, Operations(q)), Select(OBJECT_KINDS, Kinds(q)), Select(EXPIRATION_FORMS, Forms(q)),
      Keep(q.vocabulary != "", q.vocabulary),
      Select(RECORD_MODES, Image(RecordMode, q.records)), Select(SELECTORS, Image(Selector, q.retractions)))
  }

  lemma ImageSnoc<T>(f: T -> string, s: seq<T>, i: nat)
    requires i < |s|
    ensures Image(f, s[..i + 1]) == Image(f, s[..i]) + {f(s[i])}
  {
  }

  lemma ImageEnds<T>(f: T -> string, s: seq<T>)
    ensures s[..0] == [] && s[..|s|] == s && Image(f, s[..0]) == {} && Image(f, s[..|s|]) == Image(f, s)
  {
  }

  lemma SelectNext(word: string, words: seq<string>, used: set<string>)
    ensures Select([word] + words, used) == Keep(word in used, word) + Select(words, used)
  {
  }

  lemma SelectTwo(a: string, b: string, used: set<string>)
    ensures Select([a, b], used) == Keep(a in used, a) + Keep(b in used, b)
  {
    hide Keep;
    assert [a, b] == [a] + ([b] + []);
    SelectNext(a, [b] + [], used);
    SelectNext(b, [], used);
  }

  lemma SelectThree(a: string, b: string, c: string, used: set<string>)
    ensures Select([a, b, c], used) == Keep(a in used, a) + Keep(b in used, b) + Keep(c in used, c)
  {
    hide Keep, Select;
    assert [a, b, c] == [a] + [b, c];
    SelectNext(a, [b, c], used);
    SelectTwo(b, c, used);
  }

  lemma SelectFive(a: string, b: string, c: string, d: string, e: string, used: set<string>)
    ensures Select([a, b, c, d, e], used)
         == Keep(a in used, a) + Keep(b in used, b) + Keep(c in used, c) + Keep(d in used, d) + Keep(e in used, e)
  {
    hide Keep, Select;
    assert [a, b, c, d, e] == [a] + ([b] + [c, d, e]);
    SelectNext(a, [b] + [c, d, e], used);
    SelectNext(b, [c, d, e], used);
    SelectThree(c, d, e, used);
  }

  // The captured flags of Features that visitObject and visitDeadline set.
  class Needs {
    var entity: bool
    var number: bool
    var absolute: bool
    var relative: bool

    /** The flags say which kinds and forms were visited. */
    predicate Show(kinds: set<string>, forms: set<string>)
      reads this
    {
      && (entity <==> "entity_label" in kinds) && (number <==> "u64" in kinds)
      && (absolute <==> "expires_at_ns" in forms) && (relative <==> "ttl_ms" in forms)
    }

    constructor ()
      ensures Show({}, {})
    {
      entity, number, absolute, relative := false, false, false, false;
    }

    method VisitObject(o: Object, ghost kinds: set<string>, ghost forms: set<string>)
      requires Show(kinds, forms)
      modifies this
      ensures Show(kinds + {Kind(o)}, forms)
    {
      match o {
        case Entity(_) => entity := true;
        case Number(_) => number := true;
        case UnsetObject =>
      }
    }

    method VisitDeadline(d: Deadline, ghost kinds: set<string>, ghost forms: set<string>)
      requires Show(kinds, forms)
      modifies this
      ensures Show(kinds, forms + {Form(d)})
    {
      match d {
        case After(_) => relative := true;
        case At(_) => absolute := true;
        case NoDeadline =>
      }
    }
  }

  method SurveyRecords(records: seq<Record>, needs: Needs)
    returns (needAppend: bool, needEnsure: bool, needReplace: bool)
    requires needs.Show({}, {})
    modifies needs
    ensures needs.Show(Image(RecordKind, records), Image(RecordForm, records))
    ensures needAppend <==> APPEND in Image(RecordMode, records)
    ensures needEnsure <==> ENSURE in Image(RecordMode, records)
    ensures needReplace <==> REPLACE in Image(RecordMode, records)
  {
    hide Needs.Show, Image;
    needAppend, needEnsure, needReplace := false, false, false;
    ImageEnds(RecordKind, records);
    ImageEnds(RecordForm, records);
    ImageEnds(RecordMode, records);
    for i := 0 to |records|
      invariant needs.Show(Image(RecordKind, records[..i]), Image(RecordForm, records[..i]))
      invariant needAppend <==> APPEND in Image(RecordMode, records[..i])
      invariant needEnsure <==> ENSURE in Image(RecordMode, records[..i])
      invariant needReplace <==> REPLACE in Image(RecordMode, records[..i])
    {
      var r := records[i];
      ImageSnoc(RecordKind, records, i);
      ImageSnoc(RecordForm, records, i);
      ImageSnoc(RecordMode, records, i);
      needs.VisitObject(r.obj, Image(RecordKind, records[..i]), Image(RecordForm, records[..i]));
      needs.VisitDeadline(r.expiration, Image(RecordKind, records[..i + 1]), Image(RecordForm, records[..i]));
      if r.mode == ENSURE {
        needEnsure := true;
      } else if r.mode == REPLACE {
        needReplace := true;
      } else {
        needAppend := true;
      }
    }
  }

  method SurveyRetractions(retractions: seq<Retraction>, needs: Needs, ghost kinds: set<string>,
                           ghost forms: set<string>)
    returns (needFact: bool, needSlot: bool, needWhere: bool)
    requires needs.Show(kinds, forms)
    modifies needs
    ensures needs.Show(kinds + Image(RetractionKind, retractions), forms)
    ensures needFact <==> "fact" in Image(Selector, retractions)
    ensures needSlot <==> "slot" in Image(Selector, retractions)
    ensures needWhere <==> "where" in Image(Selector, retractions)
  {
    hide Image;
    needFact, needSlot, needWhere := false, false, false;
    ImageEnds(RetractionKind, retractions);
    ImageEnds(Selector, retractions);
    for i := 0 to |retractions|
      invariant needs.Show(kinds + Image(RetractionKind, retractions[..i]), forms)
      invariant needFact <==> "fact" in Image(Selector, retractions[..i])
      invariant needSlot <==> "slot" in Image(Selector, retractions[..i])
      invariant needWhere <==> "where" in Image(Selector, retractions[..i])
    {
      ImageSnoc(RetractionKind, retractions, i);
      ImageSnoc(Selector, retractions, i);
      match retractions[i] {
        case RetractFact(_) => needFact := true;
        case RetractExact(_, _, o) =>
          needWhere := true;
          needs.VisitObject(o, kinds + Image(RetractionKind, retractions[..i]), forms);
        case RetractSlot(_, _) => needSlot := true;
        case UnsetRetraction =>
      }
    }
  }

  method SurveyCorrections(corrections: seq<Correction>, needs: Needs, ghost kinds: set<string>,
                           ghost forms: set<string>)
    requires needs.Show(kinds, forms)
    modifies needs
    ensures needs.Show(kinds + Image(CorrectionKind, corrections), forms + Image(CorrectionForm, corrections))
  {
    hide Image, Needs.Show;
    ImageEnds(CorrectionKind, corrections);
    ImageEnds(CorrectionForm, corrections);
    assert kinds + {} == kinds && forms + {} == forms;
    for i := 0 to |corrections|
      invariant needs.Show(kinds + Image(CorrectionKind, corrections[..i]),
                           forms + Image(CorrectionForm, corrections[..i]))
    {
      ghost var k, f := kinds + Image(CorrectionKind, corrections[..i]),
        forms + Image(CorrectionForm, corrections[..i]);
      ImageSnoc(CorrectionKind, corrections, i);
      ImageSnoc(CorrectionForm, corrections, i);
      var replacement := corrections[i].replacement;
      needs.VisitObject(replacement.obj, k, f);
      needs.VisitDeadline(replacement.expiration, k + {Kind(replacement.obj)}, f);
      assert k + {Kind(replacement.obj)} == kinds + Image(CorrectionKind, corrections[..i + 1]);
      assert f + {Form(replacement.expiration)} == forms + Image(CorrectionForm, corrections[..i + 1]);
    }
  }

  method SurveyExpirations(expirations: seq<Expiration>, needs: Needs, ghost kinds: set<string>,
                           ghost forms: set<string>)
    requires needs.Show(kinds, forms)
    modifies needs
    ensures needs.Show(kinds, forms + Image(ExpirationForm, expirations))
  {
    hide Image, Needs.Show;
    ImageEnds(ExpirationForm, expirations);
    assert forms + {} == forms;
    for i := 0 to |expirations|
      invariant needs.Show(kinds, forms + Image(ExpirationForm, expirations[..i]))
    {
      ghost var f := forms + Image(ExpirationForm, expirations[..i]);
      ImageSnoc(ExpirationForm, expirations, i);
      needs.VisitDeadline(expirations[i].deadline, kinds, f);
      assert f + {Form(expirations[i].deadline)} == forms + Image(ExpirationForm, expirations[..i + 1]);
    }
  }

  method FindFeatures(q: Request) returns (f: Features)
    ensures f == FeaturesOf(q)
  {
    hide Image, Keep, Select;
    var needs := new Needs();
    var needAppend, needEnsure, needReplace := SurveyRecords(q.records, needs);
    ghost var kinds, forms := Image(RecordKind, q.records), Image(RecordForm, q.records);
    var needFact, needSlot, needWhere := SurveyRetractions(q.retractions, needs, kinds, forms);
    kinds := kinds + Image(RetractionKind, q.retractions);
    SurveyCorrections(q.corrections, needs, kinds, forms);
    SurveyExpirations(q.expirations, needs, Kinds(q), forms + Image(CorrectionForm, q.corrections));
    SelectFive("correct", "expire", "persist", "record", "retract", Operations(q));
    SelectTwo("entity_label", "u64", Kinds(q));
    SelectTwo("expires_at_ns", "ttl_ms", Forms(q));
    SelectThree(APPEND, ENSURE, REPLACE, Image(RecordMode, q.records));
    SelectThree("fact", "slot", "where", Image(Selector, q.retractions));
    f := Features(
      Keep(|q.corrections| > 0, "correct") + Keep(|q.expirations| > 0, "expire") + Keep(|q.persistence| > 0, "persist")
      + Keep(|q.records| > 0, "record") + Keep(|q.retractions| > 0, "retract"),
      Keep(needs.entity, "entity_label") + Keep(needs.number, "u64"),
      Keep(needs.absolute, "expires_at_ns") + Keep(needs.relative, "ttl_ms"),
      Keep(q.vocabulary != "", q.vocabulary),
      Keep(needAppend, APPEND) + Keep(needEnsure, ENSURE) + Keep(needReplace, REPLACE),
      Keep(needFact, "fact") + Keep(needSlot, "slot") + Keep(needWhere, "where"));
  }

  // ------------------------------------------- what the wire tree uses

  function WireKind(v: Option<Json>): string {
    if v.Some? && v.value.Str? then "entity_label" else if v.Some? && v.value.Num? then "u64" else ""
  }

  function WireForm(j: Json): string {
    if Member(j, "ttl_ms").Some? then "ttl_ms"
    else if Member(j, "expires_at_ns").Some? then "expires_at_ns"
    else ""
  }

  /** A member of an object inside an object. */
  function Under(j: Json, outer: string, inner: string): Option<Json> {
    var v := Member(j, outer);
    if v.Some? then Member(v.value, inner) else None
  }

  function WireRecordKind(j: Json): string { WireKind(Member(j, "object")) }
  function WireRetractionKind(j: Json): string { WireKind(Under(j, "where", "object")) }
  function WireCorrectionKind(j: Json): string { WireKind(Under(j, "with", "object")) }

  function WireCorrectionForm(j: Json): string {
    var with := Member(j, "with");
    if with.Some? then WireForm(with.value) else ""
  }

  function WireMode(j: Json): string {
    var mode := Member(j, "mode");
    if mode.Some? && mode.value.Str? then mode.value.s else APPEND
  }

  function WireSelector(j: Json): string {
    if Member(j, "fact").Some? then "fact"
    else if Member(j, "where").Some? then "where"
    else if Member(j, "slot").Some? then "slot"
    else ""
  }

  function WireOperations(j: Json): set<string> {
    set op | op in OPERATIONS && Member(j, op).Some? :: op
  }

  function WireKinds(j: Json): set<string> {
    Image(WireRecordKind, Items(j, "record")) + Image(WireRetractionKind, Items(j, "retract"))
    + Image(WireCorrectionKind, Items(j, "correct"))
  }

  function WireForms(j: Json): set<string> {
    Image(WireForm, Items(j, "record")) + Image(WireCorrectionForm, Items(j, "correct"))
    + Image(WireForm, Items(j, "expire"))
  }

  function WireVocabulary(j: Json): string {
    var mode := Under(j, "vocabulary", "on_unknown");
    if mode.Some? && mode.value.Str? then mode.value.s else ""
  }

  /** The vocabulary of a wire tree, read off the tree alone. */
  function WireFeatures(j: Json): Features {
    Features(
      Select(OPERATIONS, WireOperations(j)), Select(OBJECT_KINDS, WireKinds(j)), Select(EXPIRATION_FORMS, WireForms(j)),
      Keep(WireVocabulary(j) != "", WireVocabulary(j)),
      Select(RECORD_MODES, Image(WireMode, Items(j, "record"))),
      Select(SELECTORS, Image(WireSelector, Items(j, "retract"))))
  }

  lemma KindIsWritten(o: Object)
    ensures WireKind(Some(EncodeObject(o))) == Kind(o)
  {
  }

  lemma FormIsWritten(d: Deadline, j: Json)
    requires ValidDeadline(d)
    requires Member(j, "ttl_ms") == TTL(d) && Member(j, "expires_at_ns") == ExpiresAt(d)
    ensures WireForm(j) == Form(d)
  {
  }

  lemma RecordWords(r: Record)
    requires ValidRecord(r)
    ensures var j := EncodeRecord(r);
            WireRecordKind(j) == RecordKind(r) && WireForm(j) == RecordForm(r) && WireMode(j) == RecordMode(r)
  {
    hide EncodeRecord, EncodeObject, TTL, ExpiresAt, Member, ValidDeadline, WireForm;
    RecordLookups(r);
    KindIsWritten(r.obj);
    FormIsWritten(r.expiration, EncodeRecord(r));
  }

  lemma RetractionWords(r: Retraction)
    requires ValidRetraction(r)
    ensures var j := EncodeRetraction(r); WireRetractionKind(j) == RetractionKind(r) && WireSelector(j) == Selector(r)
  {
    hide EncodeRetraction, EncodeObject, Member;
    RetractionLookups(r);
    if r.RetractExact? {
      KindIsWritten(r.obj);
    }
    if r.RetractFact? {
      assert r.factID != "";
    }
  }

  lemma CorrectionWords(c: Correction)
    requires ValidCorrection(c)
    ensures var j := EncodeCorrection(c);
            WireCorrectionKind(j) == CorrectionKind(c) && WireCorrectionForm(j) == CorrectionForm(c)
  {
    hide EncodeCorrection, EncodeRecord, Member, ValidRecord, WireForm, WireKind;
    CorrectionLookups(c);
    RecordWords(c.replacement);
  }

  lemma ExpirationWords(e: Expiration)
    requires ValidExpiration(e)
    ensures WireForm(EncodeExpiration(e)) == ExpirationForm(e)
  {
    hide EncodeExpiration, Member, WireForm, ValidDeadline, TTL, ExpiresAt;
    ExpirationLookups(e);
    FormIsWritten(e.deadline, EncodeExpiration(e));
  }

  lemma ImageOfMapped<T>(f: T -> string, w: Json -> string, encode: T -> Json, s: seq<T>)
    requires forall x | x in s :: w(encode(x)) == f(x)
    ensures Image(w, MapSeq(encode, s)) == Image(f, s)
  {
  }

  lemma ListWords(q: Request)
    requires ValidParts(q)
    ensures WireKinds(Encoded(q)) == Kinds(q) && WireForms(Encoded(q)) == Forms(q)
    ensures Image(WireMode, Items(Encoded(q), "record")) == Image(RecordMode, q.records)
    ensures Image(WireSelector, Items(Encoded(q), "retract")) == Image(Selector, q.retractions)
  {
    hide Image, Encoded, Items, MapSeq, EncodeRecord, EncodeRetraction, EncodeCorrection, EncodeExpiration, Member,
      ValidRecord, ValidRetraction, ValidCorrection, ValidExpiration, WireRecordKind, WireForm, WireMode,
      WireRetractionKind, WireSelector, WireCorrectionKind, WireCorrectionForm, Kind, Form, RecordMode, Selector,
      RecordKind, RecordForm, RetractionKind, CorrectionKind, CorrectionForm, ExpirationForm;
    ItemsAre(q);
    forall r | r in q.records { RecordWords(r); }
    ImageOfMapped(RecordKind, WireRecordKind, EncodeRecord, q.records);
    ImageOfMapped(RecordForm, WireForm, EncodeRecord, q.records);
    ImageOfMapped(RecordMode, WireMode, EncodeRecord, q.records);
    forall r | r in q.retractions { RetractionWords(r); }
    ImageOfMapped(RetractionKind, WireRetractionKind, EncodeRetraction, q.retractions);
    ImageOfMapped(Selector, WireSelector, EncodeRetraction, q.retractions);
    forall c | c in q.corrections { CorrectionWords(c); }
    ImageOfMapped(CorrectionKind, WireCorrectionKind, EncodeCorrection, q.corrections);
    ImageOfMapped(CorrectionForm, WireCorrectionForm, EncodeCorrection, q.corrections);
    forall e | e in q.expirations { ExpirationWords(e); }
    ImageOfMapped(ExpirationForm, WireForm, EncodeExpiration, q.expirations);
  }

  lemma OperationsAreWritten(q: Request)
    ensures WireOperations(Encoded(q)) == Operations(q)
  {
    hide Encoded, Member, MapSeq;
    RequestLookups(q);
  }

  /** Features is exactly the vocabulary of what Encode emits. */
  lemma FeaturesAreTheWireVocabulary(q: Request)
    requires ValidRequest(q)
    ensures FeaturesOf(q) == WireFeatures(Encoded(q))
  {
    hide Encoded, Member, Image, Select, WireKinds, WireForms, Kinds, Forms, WireOperations, Operations;
    assert ValidParts(q);
    ListWords(q);
    OperationsAreWritten(q);
    RequestLookups(q);
  }

  // ----------------------------------------------------- order and repeats

  lemma {:induction false} SelectIsDistinct(words: seq<string>, used: set<string>)
    requires NoRepeats(words)
    ensures NoRepeats(Select(words, used))
    ensures forall w :: w in Select(words, used) <==> w in words && w in used
  {
    if words != [] {
      SelectIsDistinct(words[1..], used);
      var first, rest := Keep(words[0] in used, words[0]), Select(words[1..], used);
      assert words == [words[0]] + words[1..];
      assert words[0] !in words[1..];
      assert Select(words, used) == first + rest;
    }
  }

  /** No feature list names a word twice, and each holds exactly the words in use. */
  lemma FeaturesAreDistinct(q: Request)
    ensures var f := FeaturesOf(q);
            && NoRepeats(f.operations) && NoRepeats(f.objectKinds) && NoRepeats(f.expirationForms)
            && NoRepeats(f.vocabularyModes) && NoRepeats(f.recordModes) && NoRepeats(f.retractionSelectors)
  {
    hide Select, Image, Operations, Kinds, Forms;
    FixedListsAreDistinct();
    hide NoRepeats;
    SelectIsDistinct(OPERATIONS, Operations(q));
    SelectIsDistinct(OBJECT_KINDS, Kinds(q));
    SelectIsDistinct(EXPIRATION_FORMS, Forms(q));
    SelectIsDistinct(RECORD_MODES, Image(RecordMode, q.records));
    SelectIsDistinct(SELECTORS, Image(Selector, q.retractions));
    AtMostOneIsDistinct(q.vocabulary != "", q.vocabulary);
  }

  lemma AtMostOneIsDistinct(flag: bool, word: string)
    ensures NoRepeats(Keep(flag, word))
  {
  }

  lemma FixedListsAreDistinct()
    ensures NoRepeats(OPERATIONS) && NoRepeats(OBJECT_KINDS) && NoRepeats(EXPIRATION_FORMS)
    ensures NoRepeats(RECORD_MODES) && NoRepeats(SELECTORS)
  {
  }
}
