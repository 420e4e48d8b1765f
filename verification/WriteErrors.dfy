/** What an error of the write validator says: the rule named by its code is broken at its path, and none before. */
module WriteErrors {
  import opened Wrappers
  import opened Text
  import opened WriteTypes
  import opened Permutations
  import opened Reporting
  import opened WriteValidation
  import O = Ownership

  // ------------------------------------------------ the places of a request

  // What is looked at: a part of the request, or what it makes of the request as a whole.
  datatype Site =
    | WholeAt(q: Request)
    | VocabularyAt(q: Request)
    | LabelAt(s: string)
    | OptionalLabelAt(s: string)
    | RawTextAt(s: string)
    | ObjectAt(o: Object)
    | ModeAt(r: Record)
    | NoModeAt(mode: string)
    | DeadlineAt(d: Deadline)
    | NeedsDeadlineAt(d: Deadline)
    | SelectorAt(retraction: Retraction)
    | FactIDAt(id: string)
    | TargetAt(id: string)
    | TimeAt(t: TransactionTime)
    | ClaimAt(subject: string, pred: string, claimed: Option<Object>)
    | LandAt(subject: string, pred: string, obj: Object)

  datatype Place = Place(path: string, site: Site)

  function Spot(name: string, i: nat): string { name + "[" + FormatUint(i) + "]" }

  function RecordPlaces(r: Record, at: string): seq<Place> {
    [Place(at + ".subject", LabelAt(r.subject)), Place(at + ".predicate", LabelAt(r.pred)),
     Place(at + ".object", ObjectAt(r.obj)), Place(at + ".tense", OptionalLabelAt(r.tense)),
     Place(at + ".raw_text", RawTextAt(r.rawText)), Place(at + ".mode", ModeAt(r)),
     Place(at + ".expiration", DeadlineAt(r.expiration))]
  }

  function OfRecord(r: Record, i: nat): seq<Place> { RecordPlaces(r, Spot("record", i)) }

  function NamedFact(id: string, at: string): seq<Place> { [Place(at, FactIDAt(id)), Place(at, TargetAt(id))] }

  function OfRetraction(r: Retraction, i: nat): seq<Place> {
    var at := Spot("retract", i);
    match r
    case UnsetRetraction => [Place(at, SelectorAt(r))]
    case RetractFact(id) => NamedFact(id, at + ".fact")
    case RetractExact(s, p, o) =>
      [Place(at + ".where.subject", LabelAt(s)), Place(at + ".where.predicate", LabelAt(p)),
       Place(at + ".where.object", ObjectAt(o))]
    case RetractSlot(s, p) =>
      [Place(at + ".slot.subject", LabelAt(s)), Place(at + ".slot.predicate", LabelAt(p))]
  }

  function OfCorrection(c: Correction, i: nat): seq<Place> {
    var at := Spot("correct", i);
    NamedFact(c.factID, at + ".supersede")
    + (RecordPlaces(c.replacement, at + ".with") + [Place(at + ".with.mode", NoModeAt(c.replacement.mode))])
  }

  function OfExpiration(e: Expiration, i: nat): seq<Place> {
    var at := Spot("expire", i);
    NamedFact(e.factID, at + ".fact")
    + [Place(at + ".expiration", NeedsDeadlineAt(e.deadline)), Place(at + ".expiration", DeadlineAt(e.deadline))]
  }

  function OfPersistence(p: Persistence, i: nat): seq<Place> { NamedFact(p.factID, Spot("persist", i) + ".fact") }

  function ClaimOfRecord(r: Record, i: nat): seq<Place> {
    if r.mode == "ensure" then [Place(Spot("record", i), ClaimAt(r.subject, r.pred, Some(r.obj)))]
    else if r.mode == "replace" then [Place(Spot("record", i), ClaimAt(r.subject, r.pred, None))]
    else []
  }

  function ClaimOfRetraction(r: Retraction, i: nat): seq<Place> {
    match r
    case RetractExact(s, p, o) => [Place(Spot("retract", i), ClaimAt(s, p, Some(o)))]
    case RetractSlot(s, p) => [Place(Spot("retract", i), ClaimAt(s, p, None))]
    case _ => []
  }

  function LandingOfRecord(r: Record, i: nat): seq<Place> {
    if r.mode == "" then [Place(Spot("record", i), LandAt(r.subject, r.pred, r.obj))] else []
  }

  function LandingOfCorrection(c: Correction, i: nat): seq<Place> {
    var r := c.replacement;
    [Place(Spot("correct", i) + ".with", LandAt(r.subject, r.pred, r.obj))]
  }

  function EntryPlaces(q: Request): seq<Place> {
    Along(OfRecord, q.records, 0)
    + (Along(OfRetraction, q.retractions, 0)
       + (Along(OfCorrection, q.corrections, 0)
          + (Along(OfExpiration, q.expirations, 0) + Along(OfPersistence, q.persistence, 0))))
  }

  function ClaimPlaces(q: Request): seq<Place> {
    Along(ClaimOfRecord, q.records, 0) + Along(ClaimOfRetraction, q.retractions, 0)
  }

  function LandingPlaces(q: Request): seq<Place> {
    Along(LandingOfRecord, q.records, 0) + Along(LandingOfCorrection, q.corrections, 0)
  }

  /** Everything there is to look at, in the order in which it is looked at. */
  function Places(q: Request): seq<Place> {
    [Place("request", WholeAt(q))]
    + ([Place("vocabulary", VocabularyAt(q))]
       + (EntryPlaces(q) + ([Place("tx_time", TimeAt(q.transactionTime))] + (ClaimPlaces(q) + LandingPlaces(q)))))
  }

  // ------------------------------------------------------- what the codes mean

  predicate LabelBreaks(s: string, code: Code) {
    match code
    case MissingField => s == ""
    case InvalidUTF8 => s != "" && !ValidUtf8(s)
    case _ => false
  }

  /** The part breaks the rule that the code names. */
  ghost predicate Breaks(site: Site, code: Code) {
    match site
    case WholeAt(q) =>
      && code == EmptyRequest && q.records == [] && q.retractions == [] && q.corrections == []
      && q.expirations == [] && q.persistence == []
    case VocabularyAt(q) =>
      var needed := q.records != [] || q.corrections != [];
      (match code
       case VocabularyRequired => needed && q.vocabulary == ""
       case VocabularyUnnecessary => !needed && q.vocabulary != ""
       case UnsupportedValue => needed && q.vocabulary !in {"", "create", "reject"}
       case _ => false)
    case LabelAt(s) => LabelBreaks(s, code)
    case OptionalLabelAt(s) => s != "" && LabelBreaks(s, code)
    case RawTextAt(s) => code == InvalidUTF8 && !ValidUtf8(s)
    case ObjectAt(o) =>
      (match o
       case UnsetObject => code == InvalidObject
       case Entity(name) => LabelBreaks(name, code)
       case Number(n) => code == NumberOutOfRange && n > 9007199254740991)
    case ModeAt(r) =>
      (match code
       case UnsupportedValue => r.mode !in {"", "ensure", "replace"}
       case IncompatibleFields =>
         r.mode in {"ensure", "replace"} && (r.tense != "" || r.rawText != "" || !r.expiration.NoDeadline?)
       case _ => false)
    case NoModeAt(mode) => code == IncompatibleFields && mode != ""
    case DeadlineAt(d) =>
      (match d
       case NoDeadline => false
       case After(duration) => code == InvalidDuration && (duration <= 0 || duration % 1_000_000 != 0)
       case At(instant) => code == InvalidTime && !(0 < instant <= 9223372036854775807))
    case NeedsDeadlineAt(d) => code == MissingField && d.NoDeadline?
    case SelectorAt(r) => code == MissingField && r.UnsetRetraction?
    case FactIDAt(id) => code == InvalidFactID && forall n | 1 <= n <= 18446744073709551615 :: id != FormatUint(n)
    case TimeAt(t) =>
      code == InvalidTime && t.AtTime? && !(-9223372036854775808 <= t.instant <= 9223372036854775807)
    case _ => false
  }

  /** The place is claimed, and the claim clashes with this one: the same slot, and either all of it or one triple. */
  predicate Clashes(p: Place, subject: string, pred: string, claimed: Option<Object>) {
    && p.site.ClaimAt? && p.site.subject == subject && p.site.pred == pred
    && (p.site.claimed.None? || claimed.None? || p.site.claimed == claimed)
  }

  /** The first earlier place whose claim clashes. */
  ghost predicate FirstClash(earlier: seq<Place>, p: Place, subject: string, pred: string, claimed: Option<Object>) {
    exists i :: 0 <= i < |earlier| && earlier[i] == p && Clashes(p, subject, pred, claimed)
                && forall j | 0 <= j < i :: !Clashes(earlier[j], subject, pred, claimed)
  }

  /**
   The error is what is wrong at the place, after those before it.  A duplicate
   target or a conflict names the earlier place it is about, except that a slot
   claimed over single triples names none of them.
   */
  ghost predicate Broken(earlier: seq<Place>, p: Place, e: Invalid) {
    && e.path == p.path
    && match p.site
       case TargetAt(id) => e.code == DuplicateTarget && Place(e.owner, TargetAt(id)) in earlier
       case ClaimAt(s, pr, claimed) =>
         exists c: Place :: FirstClash(earlier, c, s, pr, claimed)
           && (if c.site.claimed.None? == claimed.None? then e.code == DuplicateTarget && e.owner == c.path
               else e.code == DestinationConflict && e.owner == if claimed.None? then "" else c.path)
       case LandAt(s, pr, o) =>
         exists c: Place :: FirstClash(earlier, c, s, pr, Some(o)) && e.code == DestinationConflict && e.owner == c.path
       case site => e.owner == "" && Breaks(site, e.code)
  }

  // ----------------------------------------------------- single places

  lemma LabelReports(earlier: seq<Place>, path: string, s: string)
    ensures ReportsAt(Broken, earlier, Place(path, LabelAt(s)), LabelError(s, path))
    ensures ReportsAt(Broken, earlier, Place(path, OptionalLabelAt(s)), if s != "" then LabelError(s, path) else None)
  {
    hide ValidUtf8;
  }

  lemma ObjectReports(earlier: seq<Place>, path: string, o: Object)
    ensures ReportsAt(Broken, earlier, Place(path, ObjectAt(o)), ObjectError(o, path))
  {
    hide ValidUtf8;
  }

  lemma ModeReports(earlier: seq<Place>, path: string, r: Record)
    ensures ReportsAt(Broken, earlier, Place(path, RawTextAt(r.rawText)),
                      WriteValidation.Unless(ValidUtf8(r.rawText), InvalidUTF8, path))
    ensures ReportsAt(Broken, earlier, Place(path, ModeAt(r)), ModeError(r, path))
    ensures ReportsAt(Broken, earlier, Place(path, NoModeAt(r.mode)),
                      WriteValidation.Unless(r.mode == APPEND, IncompatibleFields, path))
  {
    hide ValidUtf8;
  }

  lemma DeadlineReports(earlier: seq<Place>, path: string, d: Deadline)
    ensures ReportsAt(Broken, earlier, Place(path, DeadlineAt(d)), DeadlineError(d, path))
    ensures ReportsAt(Broken, earlier, Place(path, NeedsDeadlineAt(d)),
                      WriteValidation.Unless(!d.NoDeadline?, MissingField, path))
  {
  }

  lemma FactIDReports(earlier: seq<Place>, path: string, id: string)
    ensures ReportsAt(Broken, earlier, Place(path, FactIDAt(id)), FactIDError(id, path))
  {
    assert ValidFactID(id) <==> exists n :: 1 <= n <= 18446744073709551615 && id == FormatUint(n);
  }

  lemma WholeReports(earlier: seq<Place>, q: Request)
    ensures ReportsAt(Broken, earlier, Place("request", WholeAt(q)),
                      WriteValidation.Unless(!Empty(q), EmptyRequest, "request"))
    ensures ReportsAt(Broken, earlier, Place("vocabulary", VocabularyAt(q)), VocabularyError(q))
    ensures ReportsAt(Broken, earlier, Place("tx_time", TimeAt(q.transactionTime)),
                      TransactionTimeError(q.transactionTime))
  {
  }

  // ----------------------------------------------------- whole entries

  /** The facts named at these places. */
  function TargetOfPlace(p: Place): Option<Target> {
    match p.site
    case TargetAt(id) => Some(Target(id, p.path))
    case _ => None
  }

  function TargetsIn(ps: seq<Place>): seq<Target> { FilterMap(TargetOfPlace, ps) }

  /** Looked at in turn, the places lead to the error. */
  ghost predicate Leads(earlier: seq<Place>, ps: seq<Place>, error: Option<Invalid>) {
    Reports(Broken, earlier, ps, error)
  }

  lemma LeadsNext(earlier: seq<Place>, p: Place, rest: seq<Place>, first: Option<Invalid>, second: Option<Invalid>)
    requires ReportsAt(Broken, earlier, p, first) && Leads(earlier + [p], rest, second)
    ensures Leads(earlier, [p] + rest, OrElse(first, second))
  {
    hide Broken;
    ReportsNext(Broken, earlier, p, rest, first, second);
  }

  lemma LeadsConcat(earlier: seq<Place>, x: seq<Place>, y: seq<Place>, first: Option<Invalid>, second: Option<Invalid>)
    requires Leads(earlier, x, first) && (first.None? ==> Leads(earlier + x, y, second))
    ensures Leads(earlier, x + y, OrElse(first, second))
  {
    hide Broken;
    ReportsConcat(Broken, earlier, x, y, first, second);
  }

  lemma LeadsOne(earlier: seq<Place>, p: Place, error: Option<Invalid>)
    requires ReportsAt(Broken, earlier, p, error)
    ensures Leads(earlier, [p], error)
  {
    hide Broken;
    ReportsOne(Broken, earlier, p, error);
  }

  lemma RecordLeads(earlier: seq<Place>, r: Record, at: string)
    ensures Leads(earlier, RecordPlaces(r, at), RecordError(r, at))
    ensures TargetsIn(RecordPlaces(r, at)) == []
  {
    hide Broken, Leads, LabelError, ObjectError, DeadlineError, ModeError, ValidUtf8, FilterMap;
    var ps := RecordPlaces(r, at);
    var tense := if r.tense != "" then LabelError(r.tense, at + ".tense") else None;
    var raw := WriteValidation.Unless(ValidUtf8(r.rawText), InvalidUTF8, at + ".raw_text");
    var mode, deadline := ModeError(r, at + ".mode"), DeadlineError(r.expiration, at + ".expiration");
    LabelReports(earlier, at + ".subject", r.subject);
    LabelReports(earlier + ps[..1], at + ".predicate", r.pred);
    ObjectReports(earlier + ps[..2], at + ".object", r.obj);
    LabelReports(earlier + ps[..3], at + ".tense", r.tense);
    ModeReports(earlier + ps[..4], at + ".raw_text", r);
    ModeReports(earlier + ps[..5], at + ".mode", r);
    DeadlineReports(earlier + ps[..6], at + ".expiration", r.expiration);
    LeadsSeven(earlier, ps, LabelError(r.subject, at + ".subject"), LabelError(r.pred, at + ".predicate"),
      ObjectError(r.obj, at + ".object"), tense, raw, mode, deadline);
    NoTargetsIn(ps);
  }

  lemma LeadsSeven(earlier: seq<Place>, ps: seq<Place>, a: Option<Invalid>, b: Option<Invalid>, c: Option<Invalid>,
                   d: Option<Invalid>, e: Option<Invalid>, f: Option<Invalid>, g: Option<Invalid>)
    requires |ps| == 7
    requires ReportsAt(Broken, earlier, ps[0], a) && ReportsAt(Broken, earlier + ps[..1], ps[1], b)
    requires ReportsAt(Broken, earlier + ps[..2], ps[2], c) && ReportsAt(Broken, earlier + ps[..3], ps[3], d)
    requires ReportsAt(Broken, earlier + ps[..4], ps[4], e) && ReportsAt(Broken, earlier + ps[..5], ps[5], f)
    requires ReportsAt(Broken, earlier + ps[..6], ps[6], g)
    ensures Leads(earlier, ps, OrElse(a, OrElse(b, OrElse(c, OrElse(d, OrElse(e, OrElse(f, g)))))))
  {
    hide Broken, Leads, ReportsAt, OrElse;
    assert earlier + ps[..0] == earlier;
    assert ps[6..] == [ps[6]];
    LeadsOne(earlier + ps[..6], ps[6], g);
    LeadsFrom(earlier, ps, 5, f, g);
    LeadsFrom(earlier, ps, 4, e, OrElse(f, g));
    LeadsFrom(earlier, ps, 3, d, OrElse(e, OrElse(f, g)));
    LeadsFrom(earlier, ps, 2, c, OrElse(d, OrElse(e, OrElse(f, g))));
    LeadsFrom(earlier, ps, 1, b, OrElse(c, OrElse(d, OrElse(e, OrElse(f, g)))));
    LeadsFrom(earlier, ps, 0, a, OrElse(b, OrElse(c, OrElse(d, OrElse(e, OrElse(f, g))))));
    assert ps[0..] == ps;
  }

  lemma LeadsFrom(earlier: seq<Place>, ps: seq<Place>, i: nat, first: Option<Invalid>, second: Option<Invalid>)
    requires i < |ps| && ReportsAt(Broken, earlier + ps[..i], ps[i], first)
    requires Leads(earlier + ps[..i + 1], ps[i + 1..], second)
    ensures Leads(earlier + ps[..i], ps[i..], OrElse(first, second))
  {
    hide Broken, Leads;
    assert earlier + ps[..i] + [ps[i]] == earlier + ps[..i + 1];
    assert [ps[i]] + ps[i + 1..] == ps[i..];
    LeadsNext(earlier + ps[..i], ps[i], ps[i + 1..], first, second);
  }

  lemma {:induction false} NoTargetsIn(ps: seq<Place>)
    requires forall p | p in ps :: !p.site.TargetAt?
    ensures TargetsIn(ps) == []
  {
    if ps != [] {
      assert forall p | p in ps[1..] :: p in ps;
      NoTargetsIn(ps[1..]);
    }
  }

  lemma {:induction false} WhereNamed(done: seq<Target>, id: string)
    ensures Earlier(done, id).Some? ==> Target(id, Earlier(done, id).value) in done
    ensures Earlier(done, id).None? ==> forall path :: Target(id, path) !in done
  {
    if done != [] {
      WhereNamed(done[1..], id);
    }
  }

  lemma {:induction false} NamedAtPlace(ps: seq<Place>, id: string, path: string)
    ensures Target(id, path) in TargetsIn(ps) <==> Place(path, TargetAt(id)) in ps
  {
    if ps != [] {
      NamedAtPlace(ps[1..], id, path);
      assert ps == [ps[0]] + ps[1..];
    }
  }

  lemma TargetReports(earlier: seq<Place>, id: string, path: string)
    ensures ReportsAt(Broken, earlier, Place(path, TargetAt(id)),
                      TargetError(TargetsIn(earlier), Some(Target(id, path))))
  {
    hide FilterMap, TargetsIn;
    var done := TargetsIn(earlier);
    WhereNamed(done, id);
    forall at ensures Target(id, at) in done <==> Place(at, TargetAt(id)) in earlier { NamedAtPlace(earlier, id, at); }
  }

  lemma TargetsConcat(x: seq<Place>, y: seq<Place>)
    ensures TargetsIn(x + y) == TargetsIn(x) + TargetsIn(y)
  {
    FilterMapConcat(TargetOfPlace, x, y);
  }

  lemma NamedFactTargets(earlier: seq<Place>, id: string, at: string)
    ensures TargetsIn(NamedFact(id, at)) == [Target(id, at)]
    ensures TargetsIn(earlier + [Place(at, FactIDAt(id))]) == TargetsIn(earlier)
  {
    var p, t := Place(at, FactIDAt(id)), Place(at, TargetAt(id));
    Singleton(TargetOfPlace, p);
    Singleton(TargetOfPlace, t);
    hide FilterMap;
    assert [p] + [t] == NamedFact(id, at);
    TargetsConcat([p], [t]);
    TargetsConcat(earlier, [p]);
  }

  /** A fact ID, and the fact it names. */
  lemma NamedFactLeads(earlier: seq<Place>, id: string, at: string)
    ensures Leads(earlier, NamedFact(id, at),
                  OrElse(FactIDError(id, at), TargetError(TargetsIn(earlier), Some(Target(id, at)))))
    ensures TargetsIn(NamedFact(id, at)) == [Target(id, at)]
  {
    hide Broken, Leads, FactIDError, TargetError, TargetsIn, OrElse;
    var p, t := Place(at, FactIDAt(id)), Place(at, TargetAt(id));
    var error := TargetError(TargetsIn(earlier), Some(Target(id, at)));
    NamedFactTargets(earlier, id, at);
    FactIDReports(earlier, at, id);
    TargetReports(earlier + [p], id, at);
    LeadsOne(earlier + [p], t, error);
    LeadsNext(earlier, p, [t], FactIDError(id, at), error);
    assert [p] + [t] == NamedFact(id, at);
  }

  /** The places of an entry lead to the error of its step, and name the fact it names. */
  ghost predicate Mirrored(earlier: seq<Place>, ps: seq<Place>, s: Step) {
    && Leads(earlier, ps, StepError(TargetsIn(earlier), s))
    && TargetsIn(ps) == if s.target.Some? then [s.target.value] else []
  }

  lemma RecordMirrored(earlier: seq<Place>, r: Record, i: nat)
    ensures Mirrored(earlier, OfRecord(r, i), RecordStep(r, i))
  {
    hide Leads, RecordError, RecordPlaces, TargetsIn;
    assert Spot("record", i) == PathIndex("record", i);
    RecordLeads(earlier, r, PathIndex("record", i));
  }

  lemma LabelsLead(earlier: seq<Place>, p: Place, q: Place)
    requires p.site.LabelAt? && q.site.LabelAt?
    ensures Leads(earlier, [p, q], OrElse(LabelError(p.site.s, p.path), LabelError(q.site.s, q.path)))
    ensures TargetsIn([p, q]) == []
  {
    hide Broken, Leads, LabelError, TargetsIn;
    LabelReports(earlier, p.path, p.site.s);
    LabelReports(earlier + [p], q.path, q.site.s);
    LeadsOne(earlier + [p], q, LabelError(q.site.s, q.path));
    LeadsNext(earlier, p, [q], LabelError(p.site.s, p.path), LabelError(q.site.s, q.path));
    assert [p] + [q] == [p, q];
    NoTargetsIn([p, q]);
  }

  lemma RetractionMirrored(earlier: seq<Place>, r: Retraction, i: nat)
    ensures Mirrored(earlier, OfRetraction(r, i), RetractionStep(r, i))
  {
    hide Broken, Leads, LabelError, ObjectError, FactIDError, TargetError, TargetsIn;
    var at := PathIndex("retract", i);
    assert Spot("retract", i) == at;
    match r {
      case UnsetRetraction =>
        SelectorReports(earlier, at, r);
        LeadsOne(earlier, Place(at, SelectorAt(r)), Some(Invalid(MissingField, at, "")));
        NoTargetsIn([Place(at, SelectorAt(r))]);
      case RetractFact(id) =>
        NamedFactLeads(earlier, id, at + ".fact");
      case RetractSlot(s, p) =>
        NoTargetStep(TargetsIn(earlier), RetractionStep(r, i));
        LabelsLead(earlier, Place(at + ".slot.subject", LabelAt(s)), Place(at + ".slot.predicate", LabelAt(p)));
      case RetractExact(s, p, o) =>
        NoTargetStep(TargetsIn(earlier), RetractionStep(r, i));
        ExactRetractionLeads(earlier, at, s, p, o);
    }
  }

  lemma NoTargetStep(done: seq<Target>, s: Step)
    requires s.target.None? && s.after.None?
    ensures StepError(done, s) == s.before
  {
  }

  lemma SelectorReports(earlier: seq<Place>, path: string, r: Retraction)
    requires r.UnsetRetraction?
    ensures ReportsAt(Broken, earlier, Place(path, SelectorAt(r)), Some(Invalid(MissingField, path, "")))
  {
  }

  lemma ExactRetractionLeads(earlier: seq<Place>, at: string, s: string, p: string, o: Object)
    ensures var ps := [Place(at + ".where.subject", LabelAt(s)), Place(at + ".where.predicate", LabelAt(p)),
                       Place(at + ".where.object", ObjectAt(o))];
            && Leads(earlier, ps, OrElse(LabelError(s, at + ".where.subject"),
                                  OrElse(LabelError(p, at + ".where.predicate"), ObjectError(o, at + ".where.object"))))
            && TargetsIn(ps) == []
  {
    hide Broken, Leads, LabelError, ObjectError, TargetsIn, OrElse;
    var x, y, z := Place(at + ".where.subject", LabelAt(s)), Place(at + ".where.predicate", LabelAt(p)),
      Place(at + ".where.object", ObjectAt(o));
    var b, c := LabelError(p, at + ".where.predicate"), ObjectError(o, at + ".where.object");
    LabelReports(earlier, x.path, s);
    LabelReports(earlier + [x], y.path, p);
    ObjectReports(earlier + [x] + [y], z.path, o);
    LeadsOne(earlier + [x] + [y], z, c);
    LeadsNext(earlier + [x], y, [z], b, c);
    LeadsNext(earlier, x, [y] + [z], LabelError(s, x.path), OrElse(b, c));
    assert [x] + ([y] + [z]) == [x, y, z];
    NoTargetsIn([x, y, z]);
  }

  lemma CorrectionMirrored(earlier: seq<Place>, c: Correction, i: nat)
    ensures Mirrored(earlier, OfCorrection(c, i), CorrectionStep(c, i))
  {
    hide Broken, Leads, RecordError, RecordPlaces, FactIDError, TargetError, TargetsIn, NamedFact,
      WriteValidation.Unless;
    var at, r := PathIndex("correct", i), c.replacement;
    assert Spot("correct", i) == at;
    var named, with_ := NamedFact(c.factID, at + ".supersede"), RecordPlaces(r, at + ".with");
    var last := Place(at + ".with.mode", NoModeAt(r.mode));
    var lastError := WriteValidation.Unless(r.mode == APPEND, IncompatibleFields, at + ".with.mode");
    NamedFactLeads(earlier, c.factID, at + ".supersede");
    RecordLeads(earlier + named, r, at + ".with");
    ModeReports(earlier + named + with_, at + ".with.mode", r);
    LeadsOne(earlier + named + with_, last, lastError);
    LeadsConcat(earlier + named, with_, [last], RecordError(r, at + ".with"), lastError);
    LeadsConcat(earlier, named, with_ + [last],
      OrElse(FactIDError(c.factID, at + ".supersede"),
             TargetError(TargetsIn(earlier), Some(Target(c.factID, at + ".supersede")))),
      OrElse(RecordError(r, at + ".with"), lastError));
    NoTargetsIn([last]);
    TargetsConcat(with_, [last]);
    TargetsConcat(named, with_ + [last]);
  }

  lemma ExpirationMirrored(earlier: seq<Place>, e: Expiration, i: nat)
    ensures Mirrored(earlier, OfExpiration(e, i), ExpirationStep(e, i))
  {
    hide Broken, Leads, DeadlineError, FactIDError, TargetError, TargetsIn, NamedFact, WriteValidation.Unless;
    var at, d := PathIndex("expire", i), e.deadline;
    assert Spot("expire", i) == at;
    var named := NamedFact(e.factID, at + ".fact");
    var x, y := Place(at + ".expiration", NeedsDeadlineAt(d)), Place(at + ".expiration", DeadlineAt(d));
    var needs, deadline := WriteValidation.Unless(!d.NoDeadline?, MissingField, at + ".expiration"),
      DeadlineError(d, at + ".expiration");
    NamedFactLeads(earlier, e.factID, at + ".fact");
    DeadlineReports(earlier + named, at + ".expiration", d);
    DeadlineReports(earlier + named + [x], at + ".expiration", d);
    LeadsOne(earlier + named + [x], y, deadline);
    LeadsNext(earlier + named, x, [y], needs, deadline);
    assert [x] + [y] == [x, y];
    LeadsConcat(earlier, named, [x, y],
      OrElse(FactIDError(e.factID, at + ".fact"),
             TargetError(TargetsIn(earlier), Some(Target(e.factID, at + ".fact")))),
      OrElse(needs, deadline));
    NoTargetsIn([x, y]);
    TargetsConcat(named, [x, y]);
  }

  lemma PersistenceMirrored(earlier: seq<Place>, p: Persistence, i: nat)
    ensures Mirrored(earlier, OfPersistence(p, i), PersistenceStep(p, i))
  {
    hide Broken, Leads, FactIDError, TargetError, TargetsIn, NamedFact;
    assert Spot("persist", i) == PathIndex("persist", i);
    NamedFactLeads(earlier, p.factID, PathIndex("persist", i) + ".fact");
  }

  // ----------------------------------------------------- whole lists

  function NamedBy(steps: seq<Step>): seq<Target> {
    if steps == [] then []
    else (if steps[0].target.Some? then [steps[0].target.value] else []) + NamedBy(steps[1..])
  }

  lemma OneStep(done: seq<Target>, s: Step, rest: seq<Step>)
    ensures FirstError(done, [s] + rest) == OrElse(StepError(done, s), FirstError(Naming(done, s.target), rest))
    ensures NamedBy([s] + rest) == (if s.target.Some? then [s.target.value] else []) + NamedBy(rest)
  {
    hide StepError;
  }

  lemma NoSteps(done: seq<Target>, b: seq<Step>)
    ensures FirstError(done, [] + b) == OrElse(FirstError(done, []), FirstError(done + NamedBy([]), b))
    ensures NamedBy([] + b) == NamedBy([]) + NamedBy(b)
  {
    assert [] + b == b && done + [] == done;
  }

  lemma {:induction false} FirstErrorConcat(done: seq<Target>, a: seq<Step>, b: seq<Step>)
    ensures FirstError(done, a + b) == OrElse(FirstError(done, a), FirstError(done + NamedBy(a), b))
    ensures NamedBy(a + b) == NamedBy(a) + NamedBy(b)
    decreases |a|
  {
    hide StepError, FirstError, NamedBy;
    if a == [] {
      NoSteps(done, b);
    } else {
      var st, rest := a[0], a[1..];
      var own := if st.target.Some? then [st.target.value] else [];
      assert a == [st] + rest && a + b == [st] + (rest + b);
      assert Naming(done, st.target) == done + own;
      FirstErrorConcat(done + own, rest, b);
      OneStep(done, st, rest);
      OneStep(done, st, rest + b);
      assert done + own + NamedBy(rest) == done + NamedBy(a);
      assert own + (NamedBy(rest) + NamedBy(b)) == own + NamedBy(rest) + NamedBy(b);
    }
  }

  /** A list of entries, each of them mirrored. */
  lemma {:induction false} ListLeads<T(!new)>(earlier: seq<Place>, step: (T, nat) -> Step,
                                              places: (T, nat) -> seq<Place>, s: seq<T>, i: nat)
    requires forall e, x, k: nat :: Mirrored(e, places(x, k), step(x, k))
    ensures Leads(earlier, Along(places, s, i), FirstError(TargetsIn(earlier), StepsFrom(step, s, i)))
    ensures TargetsIn(Along(places, s, i)) == NamedBy(StepsFrom(step, s, i))
    decreases |s| - i
  {
    hide Broken, StepError, FirstError, TargetsIn, NamedBy;
    if i >= |s| {
      EmptyListLeads(earlier);
    } else {
      var ps, rest := places(s[i], i), Along(places, s, i + 1);
      var st, steps := step(s[i], i), StepsFrom(step, s, i + 1);
      assert Mirrored(earlier, ps, st);
      TargetsConcat(earlier, ps);
      TargetsConcat(ps, rest);
      assert TargetsIn(earlier + ps) == Naming(TargetsIn(earlier), st.target) by {
        assert TargetsIn(earlier) + [] == TargetsIn(earlier);
      }
      ListLeads(earlier + ps, step, places, s, i + 1);
      OneStep(TargetsIn(earlier), st, steps);
      LeadsConcat(earlier, ps, rest, StepError(TargetsIn(earlier), st), FirstError(TargetsIn(earlier + ps), steps));
    }
  }

  lemma EmptyListLeads(earlier: seq<Place>)
    ensures Leads(earlier, [], FirstError(TargetsIn(earlier), [])) && TargetsIn([]) == NamedBy([])
  {
    hide Broken;
    NothingToReport(Broken, earlier);
  }

  lemma TwoLists(earlier: seq<Place>, x: seq<Place>, y: seq<Place>, a: seq<Step>, b: seq<Step>)
    requires Leads(earlier, x, FirstError(TargetsIn(earlier), a)) && TargetsIn(x) == NamedBy(a)
    requires Leads(earlier + x, y, FirstError(TargetsIn(earlier + x), b)) && TargetsIn(y) == NamedBy(b)
    ensures Leads(earlier, x + y, FirstError(TargetsIn(earlier), a + b)) && TargetsIn(x + y) == NamedBy(a + b)
  {
    hide Leads, FirstError, TargetsIn, NamedBy, OrElse;
    TargetsConcat(earlier, x);
    TargetsConcat(x, y);
    FirstErrorConcat(TargetsIn(earlier), a, b);
    LeadsConcat(earlier, x, y, FirstError(TargetsIn(earlier), a), FirstError(TargetsIn(earlier + x), b));
  }

  lemma EntriesLead(earlier: seq<Place>, q: Request)
    ensures Leads(earlier, EntryPlaces(q), FirstError(TargetsIn(earlier), Steps(q)))
  {
    hide Leads, FirstError, TargetsIn, NamedBy, Mirrored, OfRecord, OfRetraction, OfCorrection, OfExpiration,
      OfPersistence, RecordStep, RetractionStep, CorrectionStep, ExpirationStep, PersistenceStep, Along, StepsFrom;
    forall e, x, k: nat ensures Mirrored(e, OfRecord(x, k), RecordStep(x, k)) { RecordMirrored(e, x, k); }
    forall e, x, k: nat ensures Mirrored(e, OfRetraction(x, k), RetractionStep(x, k)) { RetractionMirrored(e, x, k); }
    forall e, x, k: nat ensures Mirrored(e, OfCorrection(x, k), CorrectionStep(x, k)) { CorrectionMirrored(e, x, k); }
    forall e, x, k: nat ensures Mirrored(e, OfExpiration(x, k), ExpirationStep(x, k)) { ExpirationMirrored(e, x, k); }
    forall e, x, k: nat ensures Mirrored(e, OfPersistence(x, k), PersistenceStep(x, k)) {
      PersistenceMirrored(e, x, k);
    }
    var r, t, c := Along(OfRecord, q.records, 0), Along(OfRetraction, q.retractions, 0),
      Along(OfCorrection, q.corrections, 0);
    var x, p := Along(OfExpiration, q.expirations, 0), Along(OfPersistence, q.persistence, 0);
    var r', t', c' := StepsFrom(RecordStep, q.records, 0), StepsFrom(RetractionStep, q.retractions, 0),
      StepsFrom(CorrectionStep, q.corrections, 0);
    var x', p' := StepsFrom(ExpirationStep, q.expirations, 0), StepsFrom(PersistenceStep, q.persistence, 0);
    ListLeads(earlier, RecordStep, OfRecord, q.records, 0);
    ListLeads(earlier + r, RetractionStep, OfRetraction, q.retractions, 0);
    ListLeads(earlier + r + t, CorrectionStep, OfCorrection, q.corrections, 0);
    ListLeads(earlier + r + t + c, ExpirationStep, OfExpiration, q.expirations, 0);
    ListLeads(earlier + r + t + c + x, PersistenceStep, OfPersistence, q.persistence, 0);
    TwoLists(earlier + r + t + c, x, p, x', p');
    TwoLists(earlier + r + t, c, x + p, c', x' + p');
    TwoLists(earlier + r, t, c + (x + p), t', c' + (x' + p'));
    TwoLists(earlier, r, t + (c + (x + p)), r', t' + (c' + (x' + p')));
  }

  // ----------------------------------------------------- claims and landings

  function ClaimOf(subject: string, pred: string, claimed: Option<Object>): O.Claim {
    var slot := O.Slot(subject, pred);
    if claimed.Some? then O.ExactClaim(slot, claimed.value) else O.SlotClaim(slot)
  }

  function ClaimOfPlace(p: Place): Option<O.Claimed> {
    match p.site
    case ClaimAt(s, pr, claimed) => Some(O.Claimed(ClaimOf(s, pr, claimed), p.path))
    case _ => None
  }

  function LandingOfPlace(p: Place): Option<O.Claimed> {
    match p.site
    case LandAt(s, pr, o) => Some(O.Claimed(ClaimOf(s, pr, Some(o)), p.path))
    case _ => None
  }

  function ClaimsIn(ps: seq<Place>): seq<O.Claimed> { FilterMap(ClaimOfPlace, ps) }

  lemma ClashIsConflict(p: Place, subject: string, pred: string, claimed: Option<Object>)
    ensures Clashes(p, subject, pred, claimed) <==>
              ClaimOfPlace(p).Some? && O.Conflict(ClaimOfPlace(p).value.claim, ClaimOf(subject, pred, claimed))
  {
  }

  lemma FirstConflictIsFirstClash(earlier: seq<Place>, subject: string, pred: string, claimed: Option<Object>)
    ensures var first := O.FirstConflict(ClaimsIn(earlier), ClaimOf(subject, pred, claimed));
            if first.None? then forall p: Place :: !FirstClash(earlier, p, subject, pred, claimed)
            else exists p: Place :: FirstClash(earlier, p, subject, pred, claimed)
                                    && ClaimOfPlace(p) == Some(ClaimsIn(earlier)[first.value])
  {
    hide FilterMap, ClaimOf, ClaimOfPlace, Clashes;
    var claims := ClaimsIn(earlier);
    var first := O.FirstConflict(claims, ClaimOf(subject, pred, claimed));
    forall p ensures Clashes(p, subject, pred, claimed) <==>
      ClaimOfPlace(p).Some? && O.Conflict(ClaimOfPlace(p).value.claim, ClaimOf(subject, pred, claimed))
    {
      ClashIsConflict(p, subject, pred, claimed);
    }
    if first.None? {
      forall p | FirstClash(earlier, p, subject, pred, claimed) ensures false {
        var k := ImageOf(ClaimOfPlace, earlier, p);
      }
    } else {
      var i := BehindImage(ClaimOfPlace, earlier, first.value);
      assert forall k | 0 <= k < first.value :: claims[..first.value][k] == claims[k];
      forall j | 0 <= j < i ensures !Clashes(earlier[j], subject, pred, claimed) {
        if Clashes(earlier[j], subject, pred, claimed) {
          assert earlier[..i][j] == earlier[j];
          var k := ImageOf(ClaimOfPlace, earlier[..i], earlier[j]);
        }
      }
      assert FirstClash(earlier, earlier[i], subject, pred, claimed);
    }
  }

  lemma ClaimReports(earlier: seq<Place>, p: Place)
    requires p.site.ClaimAt?
    ensures ReportsAt(Broken, earlier, p, O.ClaimError(ClaimsIn(earlier), ClaimOfPlace(p).value))
  {
    hide FirstClash, ClaimsIn;
    FirstConflictIsFirstClash(earlier, p.site.subject, p.site.pred, p.site.claimed);
  }

  lemma LandingReports(earlier: seq<Place>, p: Place)
    requires p.site.LandAt?
    ensures ReportsAt(Broken, earlier, p, O.DestinationError(ClaimsIn(earlier), LandingOfPlace(p).value))
  {
    hide FirstClash, ClaimsIn;
    FirstConflictIsFirstClash(earlier, p.site.subject, p.site.pred, Some(p.site.obj));
  }

  lemma {:induction false} ClaimsLead(earlier: seq<Place>, ps: seq<Place>, claims: seq<O.Claimed>, k: nat)
    requires forall p | p in ps :: p.site.ClaimAt?
    requires k <= |claims| && claims[..k] == ClaimsIn(earlier) && claims[k..] == ClaimsIn(ps)
    ensures Leads(earlier, ps, O.ClaimPhase(claims, k))
    decreases |ps|
  {
    hide Broken, O.ClaimError;
    if ps == [] {
      NothingToReport(Broken, earlier);
    } else {
      var p, rest := ps[0], ps[1..];
      assert ps == [p] + rest;
      FilterMapConcat(ClaimOfPlace, [p], rest);
      FilterMapConcat(ClaimOfPlace, earlier, [p]);
      Singleton(ClaimOfPlace, p);
      hide FilterMap, Leads;
      assert claims[k] == ClaimOfPlace(p).value && claims[..k + 1] == ClaimsIn(earlier + [p]);
      assert claims[k + 1..] == ClaimsIn(rest);
      ClaimReports(earlier, p);
      ClaimsLead(earlier + [p], rest, claims, k + 1);
      LeadsNext(earlier, p, rest, O.ClaimError(claims[..k], claims[k]), O.ClaimPhase(claims, k + 1));
    }
  }

  lemma {:induction false} LandingsLead(earlier: seq<Place>, ps: seq<Place>, claims: seq<O.Claimed>,
                                        ds: seq<O.Claimed>)
    requires forall p | p in ps :: p.site.LandAt?
    requires claims == ClaimsIn(earlier) && ds == FilterMap(LandingOfPlace, ps)
    ensures Leads(earlier, ps, O.DestinationPhase(claims, ds))
    decreases |ps|
  {
    hide Broken, O.DestinationError;
    if ps == [] {
      NothingToReport(Broken, earlier);
    } else {
      var p, rest := ps[0], ps[1..];
      assert ps == [p] + rest;
      FilterMapConcat(LandingOfPlace, [p], rest);
      FilterMapConcat(ClaimOfPlace, earlier, [p]);
      Singleton(LandingOfPlace, p);
      Singleton(ClaimOfPlace, p);
      hide FilterMap, Leads;
      assert ClaimsIn(earlier + [p]) == claims;
      assert ds[0] == LandingOfPlace(p).value && ds[1..] == FilterMap(LandingOfPlace, rest);
      LandingReports(earlier, p);
      LandingsLead(earlier + [p], rest, claims, ds[1..]);
      LeadsNext(earlier, p, rest, O.DestinationError(claims, ds[0]), O.DestinationPhase(claims, ds[1..]));
    }
  }

  // ----------------------------------------------------- the whole request

  lemma {:induction false} RecordClaimPlaces(records: seq<Record>, i: nat)
    ensures var ps := Along(ClaimOfRecord, records, i);
            (forall p | p in ps :: p.site.ClaimAt?) && ClaimsIn(ps) == O.RecordClaims(records, i)
    decreases |records| - i
  {
    hide FilterMap;
    if i < |records| {
      RecordClaimPlaces(records, i + 1);
      var r := records[i];
      var ps := ClaimOfRecord(r, i);
      assert Spot("record", i) == PathIndex("record", i);
      FilterMapConcat(ClaimOfPlace, ps, Along(ClaimOfRecord, records, i + 1));
      if ps == [] { NoImages(ClaimOfPlace); } else { Singleton(ClaimOfPlace, ps[0]); }
      assert ClaimsIn(ps) == O.Owning(O.RecordClaim(r), PathIndex("record", i));
    } else {
      NoImages(ClaimOfPlace);
    }
  }

  lemma {:induction false} RetractionClaimPlaces(retractions: seq<Retraction>, i: nat)
    ensures var ps := Along(ClaimOfRetraction, retractions, i);
            (forall p | p in ps :: p.site.ClaimAt?) && ClaimsIn(ps) == O.RetractionClaims(retractions, i)
    decreases |retractions| - i
  {
    hide FilterMap;
    if i < |retractions| {
      RetractionClaimPlaces(retractions, i + 1);
      var r := retractions[i];
      var ps := ClaimOfRetraction(r, i);
      assert Spot("retract", i) == PathIndex("retract", i);
      FilterMapConcat(ClaimOfPlace, ps, Along(ClaimOfRetraction, retractions, i + 1));
      if ps == [] { NoImages(ClaimOfPlace); } else { Singleton(ClaimOfPlace, ps[0]); }
      assert ClaimsIn(ps) == O.Owning(O.RetractionClaim(r), PathIndex("retract", i));
    } else {
      NoImages(ClaimOfPlace);
    }
  }

  lemma {:induction false} RecordLandingPlaces(records: seq<Record>, i: nat)
    ensures var ps := Along(LandingOfRecord, records, i);
            (forall p | p in ps :: p.site.LandAt?) && FilterMap(LandingOfPlace, ps) == O.AppendDestinations(records, i)
    decreases |records| - i
  {
    hide FilterMap;
    if i < |records| {
      RecordLandingPlaces(records, i + 1);
      var r := records[i];
      var ps := LandingOfRecord(r, i);
      assert Spot("record", i) == PathIndex("record", i);
      FilterMapConcat(LandingOfPlace, ps, Along(LandingOfRecord, records, i + 1));
      if ps == [] { NoImages(LandingOfPlace); } else { Singleton(LandingOfPlace, ps[0]); }
    } else {
      NoImages(LandingOfPlace);
    }
  }

  lemma {:induction false} CorrectionLandingPlaces(corrections: seq<Correction>, i: nat)
    ensures var ps := Along(LandingOfCorrection, corrections, i);
            && (forall p | p in ps :: p.site.LandAt?)
            && FilterMap(LandingOfPlace, ps) == O.CorrectionDestinations(corrections, i)
    decreases |corrections| - i
  {
    hide FilterMap;
    if i < |corrections| {
      CorrectionLandingPlaces(corrections, i + 1);
      var ps := LandingOfCorrection(corrections[i], i);
      assert Spot("correct", i) == PathIndex("correct", i);
      FilterMapConcat(LandingOfPlace, ps, Along(LandingOfCorrection, corrections, i + 1));
      Singleton(LandingOfPlace, ps[0]);
    } else {
      NoImages(LandingOfPlace);
    }
  }

  lemma PlacesOfClaims(q: Request)
    ensures (forall p | p in ClaimPlaces(q) :: p.site.ClaimAt?) && ClaimsIn(ClaimPlaces(q)) == O.Claims(q)
    ensures (forall p | p in LandingPlaces(q) :: p.site.LandAt?)
    ensures FilterMap(LandingOfPlace, LandingPlaces(q)) == O.Destinations(q)
  {
    hide FilterMap, Along;
    RecordClaimPlaces(q.records, 0);
    RetractionClaimPlaces(q.retractions, 0);
    RecordLandingPlaces(q.records, 0);
    CorrectionLandingPlaces(q.corrections, 0);
    FilterMapConcat(ClaimOfPlace, Along(ClaimOfRecord, q.records, 0), Along(ClaimOfRetraction, q.retractions, 0));
    FilterMapConcat(LandingOfPlace, Along(LandingOfRecord, q.records, 0), Along(LandingOfCorrection, q.corrections, 0));
  }

  lemma {:induction false} NoClaimsIn(ps: seq<Place>)
    requires forall p | p in ps :: !p.site.ClaimAt?
    ensures ClaimsIn(ps) == []
  {
    if ps != [] {
      assert forall p | p in ps[1..] :: p in ps;
      NoClaimsIn(ps[1..]);
    }
  }

  lemma OwnershipLeads(earlier: seq<Place>, q: Request)
    requires ClaimsIn(earlier) == []
    ensures Leads(earlier, ClaimPlaces(q) + LandingPlaces(q), O.OwnershipError(q))
  {
    hide Broken, Leads, ClaimPlaces, LandingPlaces, O.ClaimPhase, O.DestinationPhase, O.Claims, O.Destinations,
      FilterMap;
    PlacesOfClaims(q);
    var claims := O.Claims(q);
    assert claims[..0] == [] && claims[0..] == claims;
    ClaimsLead(earlier, ClaimPlaces(q), claims, 0);
    FilterMapConcat(ClaimOfPlace, earlier, ClaimPlaces(q));
    assert ClaimsIn(earlier + ClaimPlaces(q)) == claims;
    LandingsLead(earlier + ClaimPlaces(q), LandingPlaces(q), claims, O.Destinations(q));
    LeadsConcat(earlier, ClaimPlaces(q), LandingPlaces(q), O.ClaimPhase(claims, 0),
      O.DestinationPhase(claims, O.Destinations(q)));
  }

  lemma {:induction false} EntriesClaimNothing<T>(places: (T, nat) -> seq<Place>, s: seq<T>, i: nat)
    requires forall x, k: nat, p | p in places(x, k) :: !p.site.ClaimAt?
    ensures forall p | p in Along(places, s, i) :: !p.site.ClaimAt?
    decreases |s| - i
  {
    if i < |s| {
      EntriesClaimNothing(places, s, i + 1);
    }
  }

  lemma PartsClaimNothing()
    ensures forall r, at, p | p in RecordPlaces(r, at) :: !p.site.ClaimAt?
    ensures forall id, at, p | p in NamedFact(id, at) :: !p.site.ClaimAt?
  {
  }

  lemma NoClaimsBefore(q: Request)
    ensures forall p | p in EntryPlaces(q) :: !p.site.ClaimAt?
  {
    hide Along, Spot, RecordPlaces, NamedFact;
    PartsClaimNothing();
    EntriesClaimNothing(OfRecord, q.records, 0);
    EntriesClaimNothing(OfRetraction, q.retractions, 0);
    EntriesClaimNothing(OfCorrection, q.corrections, 0);
    EntriesClaimNothing(OfExpiration, q.expirations, 0);
    EntriesClaimNothing(OfPersistence, q.persistence, 0);
  }

  /**
   What an error of the validator says: going through everything there is to look at
   in a request, at the first place where a rule is broken, it is the rule that the
   code names, the path is that of the place, and the owner that of the earlier
   target it repeats or runs into.  There is no error exactly when no rule is broken
   anywhere.
   */
  lemma ErrorsNameTheFirstBrokenRule(q: Request)
    ensures Reports(Broken, [], Places(q), RequestError(q))
  {
    hide Broken, Leads, EntryPlaces, ClaimPlaces, LandingPlaces, FirstError, Steps, O.OwnershipError, VocabularyError,
      TransactionTimeError, OrElse, FilterMap, Empty, WriteValidation.Unless;
    var whole, vocabulary, time := Place("request", WholeAt(q)), Place("vocabulary", VocabularyAt(q)),
      Place("tx_time", TimeAt(q.transactionTime));
    var head, entries := [whole] + [vocabulary], EntryPlaces(q);
    var tail := ClaimPlaces(q) + LandingPlaces(q);
    var timeError, error := TransactionTimeError(q.transactionTime), FirstError([], Steps(q));
    NoTargetsIn(head);
    NoClaimsBefore(q);
    NoClaimsIn(head + entries + [time]);
    WholeReports([], q);
    WholeReports([whole], q);
    WholeReports(head + entries, q);
    EntriesLead(head, q);
    OwnershipLeads(head + entries + [time], q);
    LeadsNext(head + entries, time, tail, timeError, O.OwnershipError(q));
    LeadsConcat(head, entries, [time] + tail, error, OrElse(timeError, O.OwnershipError(q)));
    var rest := OrElse(error, OrElse(timeError, O.OwnershipError(q)));
    LeadsNext([whole], vocabulary, entries + ([time] + tail), VocabularyError(q), rest);
    assert [] + [whole] == [whole];
    LeadsNext([], whole, [vocabulary] + (entries + ([time] + tail)),
      WriteValidation.Unless(!Empty(q), EmptyRequest, "request"), OrElse(VocabularyError(q), rest));
    FromLeads(Places(q), RequestError(q));
  }

  lemma FromLeads(ps: seq<Place>, error: Option<Invalid>)
    requires Leads([], ps, error)
    ensures Reports(Broken, [], ps, error)
  {
  }
}
