/** Request.Validate: the rules of a write, the order they are looked at, and the map of fact targets. */
module WriteValidation {
  import opened Wrappers
  import opened Text
  import opened WriteTypes
  import opened Ownership
  import opened Permutations
  import opened TripleStore
  import opened Refusals
  import opened OrderIndependence

  // ------------------------------------------------------------- the rules

  predicate ValidLabel(s: string) { s != "" && ValidUtf8(s) }

  predicate ValidObject(o: Object) {
    match o
    case UnsetObject => false
    case Entity(name) => ValidLabel(name)
    case Number(n) => n <= MAX_JS_SAFE_INTEGER
  }

  /** Whole positive milliseconds, or a positive instant an int64 of nanoseconds can hold. */
  ghost predicate ValidDeadline(d: Deadline) {
    match d
    case NoDeadline => true
    case After(duration) => duration > 0 && exists ms: nat :: duration == ms * 1_000_000
    case At(instant) => 0 < instant < TWO_TO_63
  }

  ghost predicate ValidRecord(r: Record) {
    && ValidLabel(r.subject) && ValidLabel(r.pred) && ValidObject(r.obj)
    && ValidUtf8(r.tense) && ValidUtf8(r.rawText)
    && r.mode in {APPEND, ENSURE, REPLACE}
    && (r.mode != APPEND ==> r.tense == "" && r.rawText == "" && r.expiration.NoDeadline?)
    && ValidDeadline(r.expiration)
  }

  /** A positive u64 written in decimal, as FormatUint writes it. */
  ghost predicate ValidFactID(s: string) {
    exists n :: 1 <= n < TWO_TO_64 && s == FormatUint(n)
  }

  ghost predicate ValidRetraction(r: Retraction) {
    match r
    case UnsetRetraction => false
    case RetractFact(id) => ValidFactID(id)
    case RetractExact(s, p, o) => ValidLabel(s) && ValidLabel(p) && ValidObject(o)
    case RetractSlot(s, p) => ValidLabel(s) && ValidLabel(p)
  }

  ghost predicate ValidCorrection(c: Correction) {
    ValidFactID(c.factID) && ValidRecord(c.replacement) && c.replacement.mode == APPEND
  }

  ghost predicate ValidExpiration(e: Expiration) {
    ValidFactID(e.factID) && !e.deadline.NoDeadline? && ValidDeadline(e.deadline)
  }

  ghost predicate ValidParts(q: Request) {
    && (forall r | r in q.records :: ValidRecord(r))
    && (forall r | r in q.retractions :: ValidRetraction(r))
    && (forall c | c in q.corrections :: ValidCorrection(c))
    && (forall e | e in q.expirations :: ValidExpiration(e))
    && (forall p | p in q.persistence :: ValidFactID(p.factID))
  }

  predicate CreatesEntities(q: Request) { q.records != [] || q.corrections != [] }

  predicate Empty(q: Request) {
    q.records == [] && q.retractions == [] && q.corrections == [] && q.expirations == [] && q.persistence == []
  }

  predicate ValidVocabulary(q: Request) {
    if CreatesEntities(q) then q.vocabulary in {CREATE_UNKNOWN, REJECT_UNKNOWN} else q.vocabulary == ""
  }

  predicate ValidTransactionTime(t: TransactionTime) {
    t.AtTime? ==> -TWO_TO_63 <= t.instant < TWO_TO_63
  }

  /** What a request must be to be sent. */
  ghost predicate ValidRequest(q: Request) {
    && !Empty(q) && ValidVocabulary(q) && ValidParts(q) && ValidTransactionTime(q.transactionTime)
    && NoRepeats(FactTargets(q))
    && NonInterfering(q)
  }

  // ------------------------------------------------- the checks, one by one

  function Unless(ok: bool, code: Code, path: string): Option<Invalid> {
    if ok then None else Some(Invalid(code, path, ""))
  }

  function LabelError(value: string, path: string): (e: Option<Invalid>)
    ensures e.None? <==> ValidLabel(value)
  {
    OrElse(Unless(value != "", MissingField, path), Unless(ValidUtf8(value), InvalidUTF8, path))
  }

  function ObjectError(o: Object, path: string): (e: Option<Invalid>)
    ensures e.None? <==> ValidObject(o)
  {
    match o
    case Entity(name) => LabelError(name, path)
    case Number(n) => Unless(n <= MAX_JS_SAFE_INTEGER, NumberOutOfRange, path)
    case UnsetObject => Some(Invalid(InvalidObject, path, ""))
  }

  /** The nanoseconds UnixNano gives, wrapped as it wraps, and whether they still name the instant. */
  function ExactUnixNano(instant: int): (r: (int64, bool))
    ensures r.1 <==> -TWO_TO_63 <= instant < TWO_TO_63
    ensures r.1 ==> r.0 == instant
  {
    (WrapInt64(instant), WrapInt64(instant) == instant)
  }

  function DeadlineError(d: Deadline, path: string): (e: Option<Invalid>)
    ensures e.None? <==> ValidDeadline(d)
  {
    match d
    case NoDeadline => None
    case After(duration) =>
      MillisecondsDivide(duration);
      if duration <= 0 then Some(Invalid(InvalidDuration, path, ""))
      else if duration % 1_000_000 != 0 then Some(Invalid(InvalidDuration, path, ""))
      else Unless(duration / 1_000_000 <= (TWO_TO_63 - 1) / 1_000_000, InvalidDuration, path)
    case At(instant) =>
      var (nanoseconds, ok) := ExactUnixNano(instant);
      Unless(ok && nanoseconds > 0, InvalidTime, path)
  }

  lemma MillisecondsDivide(duration: int)
    ensures duration > 0 ==> (duration % 1_000_000 == 0 <==> exists ms: nat :: duration == ms * 1_000_000)
  {
    if duration > 0 && duration % 1_000_000 == 0 {
      assert duration == (duration / 1_000_000) * 1_000_000;
    }
  }

  function RecordError(r: Record, path: string): (e: Option<Invalid>)
    ensures e.None? <==> ValidRecord(r)
  {
    OrElse(LabelError(r.subject, path + ".subject"),
    OrElse(LabelError(r.pred, path + ".predicate"),
    OrElse(ObjectError(r.obj, path + ".object"),
    OrElse(if r.tense != "" then LabelError(r.tense, path + ".tense") else None,
    OrElse(Unless(ValidUtf8(r.rawText), InvalidUTF8, path + ".raw_text"),
    OrElse(ModeError(r, path + ".mode"),
           DeadlineError(r.expiration, path + ".expiration")))))))
  }

  function ModeError(r: Record, path: string): Option<Invalid> {
    if r.mode == APPEND then None
    else if r.mode == ENSURE || r.mode == REPLACE then
      Unless(r.tense == "" && r.rawText == "" && r.expiration.NoDeadline?, IncompatibleFields, path)
    else Some(Invalid(UnsupportedValue, path, ""))
  }

  function FactIDError(value: string, path: string): (e: Option<Invalid>)
    ensures e.None? <==> ValidFactID(value)
  {
    FactIDsAreFormatted(value);
    var parsed := ParseUint(value);
    Unless(parsed.Some? && parsed.value != 0 && FormatUint(parsed.value) == value, InvalidFactID, path)
  }

  lemma FactIDsAreFormatted(s: string)
    ensures ValidFactID(s) <==> ParseUint(s).Some? && ParseUint(s).value != 0 && FormatUint(ParseUint(s).value) == s
  {
    if ValidFactID(s) {
      var n :| 1 <= n < TWO_TO_64 && s == FormatUint(n);
      DecimalsParseBack(n);
    }
  }

  // ------------------------------------------------- the order of the checks

  datatype Target = Target(id: string, path: string)

  // One entry of a request on its way through the fact-target map.
  datatype Step = Step(before: Option<Invalid>, target: Option<Target>, after: Option<Invalid>)

  function RecordStep(r: Record, i: nat): Step {
    Step(RecordError(r, PathIndex("record", i)), None, None)
  }

  function RetractionStep(r: Retraction, i: nat): Step {
    var path := PathIndex("retract", i);
    match r
    case UnsetRetraction => Step(Some(Invalid(MissingField, path, "")), None, None)
    case RetractFact(id) => Step(FactIDError(id, path + ".fact"), Some(Target(id, path + ".fact")), None)
    case RetractExact(s, p, o) =>
      Step(OrElse(LabelError(s, path + ".where.subject"),
           OrElse(LabelError(p, path + ".where.predicate"), ObjectError(o, path + ".where.object"))), None, None)
    case RetractSlot(s, p) =>
      Step(OrElse(LabelError(s, path + ".slot.subject"), LabelError(p, path + ".slot.predicate")), None, None)
  }

  function CorrectionStep(c: Correction, i: nat): Step {
    var path := PathIndex("correct", i);
    Step(FactIDError(c.factID, path + ".supersede"), Some(Target(c.factID, path + ".supersede")),
         OrElse(RecordError(c.replacement, path + ".with"),
                Unless(c.replacement.mode == APPEND, IncompatibleFields, path + ".with.mode")))
  }

  function ExpirationStep(e: Expiration, i: nat): Step {
    var path := PathIndex("expire", i);
    Step(FactIDError(e.factID, path + ".fact"), Some(Target(e.factID, path + ".fact")),
         OrElse(Unless(!e.deadline.NoDeadline?, MissingField, path + ".expiration"),
                DeadlineError(e.deadline, path + ".expiration")))
  }

  function PersistenceStep(p: Persistence, i: nat): Step {
    var path := PathIndex("persist", i);
    Step(FactIDError(p.factID, path + ".fact"), Some(Target(p.factID, path + ".fact")), None)
  }

  /** Each entry from index i on, in order. */
  function StepsFrom<T>(step: (T, nat) -> Step, s: seq<T>, i: nat): seq<Step>
    decreases |s| - i
  {
    if i >= |s| then [] else [step(s[i], i)] + StepsFrom(step, s, i + 1)
  }

  function Steps(q: Request): seq<Step> {
    StepsFrom(RecordStep, q.records, 0)
    + (StepsFrom(RetractionStep, q.retractions, 0)
       + (StepsFrom(CorrectionStep, q.corrections, 0)
          + (StepsFrom(ExpirationStep, q.expirations, 0)
             + StepsFrom(PersistenceStep, q.persistence, 0))))
  }

  /** Where the fact was named before, if it was. */
  function Earlier(done: seq<Target>, id: string): Option<string> {
    if done == [] then None
    else if done[0].id == id then Some(done[0].path)
    else Earlier(done[1..], id)
  }

  /** Naming a fact a second time is an error at the second place, which names the first. */
  function TargetError(done: seq<Target>, target: Option<Target>): Option<Invalid> {
    if target.None? then None
    else
      var earlier := Earlier(done, target.value.id);
      if earlier.Some? then Some(Invalid(DuplicateTarget, target.value.path, earlier.value)) else None
  }

  function StepError(done: seq<Target>, s: Step): Option<Invalid> {
    OrElse(s.before, OrElse(TargetError(done, s.target), s.after))
  }

  function Naming(done: seq<Target>, target: Option<Target>): seq<Target> {
    if target.Some? then done + [target.value] else done
  }

  /** The first violation met going through the steps, after the targets already done. */
  function FirstError(done: seq<Target>, steps: seq<Step>): Option<Invalid>
    decreases |steps|
  {
    if steps == [] then None
    else OrElse(StepError(done, steps[0]), FirstError(Naming(done, steps[0].target), steps[1..]))
  }

  function VocabularyError(q: Request): (e: Option<Invalid>)
    ensures e.None? <==> ValidVocabulary(q)
  {
    if CreatesEntities(q) && q.vocabulary == "" then Some(Invalid(VocabularyRequired, "vocabulary", ""))
    else if !CreatesEntities(q) && q.vocabulary != "" then Some(Invalid(VocabularyUnnecessary, "vocabulary", ""))
    else Unless(q.vocabulary in {"", CREATE_UNKNOWN, REJECT_UNKNOWN}, UnsupportedValue, "vocabulary")
  }

  function TransactionTimeError(t: TransactionTime): (e: Option<Invalid>)
    ensures e.None? <==> ValidTransactionTime(t)
  {
    if t.AtTime? then Unless(ExactUnixNano(t.instant).1, InvalidTime, "tx_time") else None
  }

  /** The first rule a request violates. */
  function RequestError(q: Request): Option<Invalid> {
    OrElse(Unless(!Empty(q), EmptyRequest, "request"),
    OrElse(VocabularyError(q),
    OrElse(FirstError([], Steps(q)),
    OrElse(TransactionTimeError(q.transactionTime), OwnershipError(q)))))
  }

  // --------------------------------------- violations, without their order

  function TargetsOf(steps: seq<Step>): seq<string> {
    if steps == [] then []
    else (if steps[0].target.Some? then [steps[0].target.value.id] else []) + TargetsOf(steps[1..])
  }

  function Ids(done: seq<Target>): (ids: seq<string>)
    ensures |ids| == |done| && forall i | 0 <= i < |done| :: ids[i] == done[i].id
  {
    seq(|done|, (i: nat) requires i < |done| => done[i].id)
  }

  predicate Sound(s: Step) { s.before.None? && s.after.None? }

  lemma {:induction false} EarlierExactlyWhen(done: seq<Target>, id: string)
    ensures Earlier(done, id).None? <==> id !in Ids(done)
  {
    if done != [] {
      EarlierExactlyWhen(done[1..], id);
      assert Ids(done) == [done[0].id] + Ids(done[1..]);
    }
  }

  lemma RepeatsShow(ids: seq<string>, id: string, rest: seq<string>)
    requires id in ids
    ensures !NoRepeats(ids + ([id] + rest))
  {
    var i :| 0 <= i < |ids| && ids[i] == id;
    var all := ids + ([id] + rest);
    assert all[i] == id && all[|ids|] == id;
  }

  ghost predicate AllSound(steps: seq<Step>) { forall s | s in steps :: Sound(s) }

  lemma AllSoundConcat(a: seq<Step>, b: seq<Step>)
    ensures AllSound(a + b) <==> AllSound(a) && AllSound(b)
  {
  }

  lemma FirstTarget(s: Step, rest: seq<Step>)
    ensures TargetsOf([s] + rest) == (if s.target.Some? then [s.target.value.id] else []) + TargetsOf(rest)
    ensures AllSound([s] + rest) <==> Sound(s) && AllSound(rest)
  {
  }

  lemma {:induction false} FirstErrorExactly(done: seq<Target>, steps: seq<Step>)
    requires NoRepeats(Ids(done))
    ensures FirstError(done, steps).None? <==> AllSound(steps) && NoRepeats(Ids(done) + TargetsOf(steps))
    decreases |steps|
  {
    hide AllSound, NoRepeats, TargetsOf, Ids;
    if steps == [] {
      NoTargets();
      assert Ids(done) + [] == Ids(done);
    } else {
      var s, rest := steps[0], steps[1..];
      assert steps == [s] + rest;
      FirstTarget(s, rest);
      if s.target.Some? {
        var t := s.target.value;
        EarlierExactlyWhen(done, t.id);
        OneMoreTarget(done, t, TargetsOf(rest));
        if t.id !in Ids(done) {
          FirstErrorExactly(done + [t], rest);
        }
      } else {
        FirstErrorExactly(done, rest);
        assert [] + TargetsOf(rest) == TargetsOf(rest);
      }
    }
  }

  lemma NoTargets()
    ensures TargetsOf([]) == [] && AllSound([])
  {
  }

  lemma OneMoreTarget(done: seq<Target>, t: Target, rest: seq<string>)
    requires NoRepeats(Ids(done))
    ensures Ids(done) + ([t.id] + rest) == Ids(done + [t]) + rest
    ensures t.id in Ids(done) ==> !NoRepeats(Ids(done) + ([t.id] + rest))
    ensures t.id !in Ids(done) ==> NoRepeats(Ids(done + [t]))
  {
    assert Ids(done + [t]) == Ids(done) + [t.id];
    if t.id in Ids(done) {
      RepeatsShow(Ids(done), t.id, rest);
    }
  }

  lemma {:induction false} TargetsConcat(a: seq<Step>, b: seq<Step>)
    ensures TargetsOf(a + b) == TargetsOf(a) + TargetsOf(b)
  {
    if a == [] {
      assert a + b == b;
    } else {
      var own := if a[0].target.Some? then [a[0].target.value.id] else [];
      assert (a + b)[0] == a[0] && (a + b)[1..] == a[1..] + b;
      TargetsConcat(a[1..], b);
      assert own + (TargetsOf(a[1..]) + TargetsOf(b)) == (own + TargetsOf(a[1..])) + TargetsOf(b);
    }
  }

  /** A step names the fact its mutation names. */
  ghost predicate SameTargets<T(!new)>(step: (T, nat) -> Step, mutation: T -> Option<Mutation>) {
    forall x: T, i: nat ::
      var target := step(x, i).target;
      TargetsOf([Step(None, target, None)]) == FilterMap(TargetOf, FilterMap(mutation, [x]))
  }

  lemma {:induction false} StepTargets<T(!new)>(step: (T, nat) -> Step, mutation: T -> Option<Mutation>, s: seq<T>,
                                                i: nat)
    requires i <= |s| && SameTargets(step, mutation)
    ensures TargetsOf(StepsFrom(step, s, i)) == FilterMap(TargetOf, FilterMap(mutation, s[i..]))
    decreases |s| - i
  {
    if i < |s| {
      StepTargets(step, mutation, s, i + 1);
      assert s[i..] == [s[i]] + s[i + 1..];
      FilterMapConcat(mutation, [s[i]], s[i + 1..]);
      FilterMapConcat(TargetOf, FilterMap(mutation, [s[i]]), FilterMap(mutation, s[i + 1..]));
      var target := step(s[i], i).target;
      assert TargetsOf([Step(None, target, None)]) == TargetsOf([step(s[i], i)]);
      TargetsConcat([step(s[i], i)], StepsFrom(step, s, i + 1));
    }
  }

  lemma TargetOfOne<T>(f: T -> Option<Mutation>, x: T, target: Option<Target>)
    requires target.Some? <==> f(x).Some? && TargetOf(f(x).value).Some?
    requires target.Some? ==> TargetOf(f(x).value) == Some(target.value.id)
    ensures TargetsOf([Step(None, target, None)]) == FilterMap(TargetOf, FilterMap(f, [x]))
  {
  }

  /** The facts the steps name are the facts the mutations name, in order. */
  lemma TargetsAreTheMutations(q: Request)
    ensures TargetsOf(Steps(q)) == FactTargets(q)
  {
    hide FilterMap, TargetsOf, StepsFrom, PathIndex, LabelError, ObjectError, RecordError, DeadlineError, FactIDError;
    var a, b, c := StepsFrom(RecordStep, q.records, 0), StepsFrom(RetractionStep, q.retractions, 0),
      StepsFrom(CorrectionStep, q.corrections, 0);
    var d, e := StepsFrom(ExpirationStep, q.expirations, 0), StepsFrom(PersistenceStep, q.persistence, 0);
    TargetsConcat(d, e);
    TargetsConcat(c, d + e);
    TargetsConcat(b, c + (d + e));
    TargetsConcat(a, b + (c + (d + e)));
    forall x, i: nat { TargetOfOne(RecordMutation, x, RecordStep(x, i).target); }
    StepTargets(RecordStep, RecordMutation, q.records, 0);
    forall x, i: nat { TargetOfOne(RetractionMutation, x, RetractionStep(x, i).target); }
    StepTargets(RetractionStep, RetractionMutation, q.retractions, 0);
    forall x, i: nat { TargetOfOne(CorrectionMutation, x, CorrectionStep(x, i).target); }
    StepTargets(CorrectionStep, CorrectionMutation, q.corrections, 0);
    forall x, i: nat { TargetOfOne(ExpirationMutation, x, ExpirationStep(x, i).target); }
    StepTargets(ExpirationStep, ExpirationMutation, q.expirations, 0);
    forall x, i: nat { TargetOfOne(PersistenceMutation, x, PersistenceStep(x, i).target); }
    StepTargets(PersistenceStep, PersistenceMutation, q.persistence, 0);
    assert q.records[0..] == q.records && q.retractions[0..] == q.retractions && q.corrections[0..] == q.corrections;
    assert q.expirations[0..] == q.expirations && q.persistence[0..] == q.persistence;
    FilterMapConcat5(TargetOf, FilterMap(RecordMutation, q.records), FilterMap(RetractionMutation, q.retractions),
      FilterMap(CorrectionMutation, q.corrections), FilterMap(ExpirationMutation, q.expirations),
      FilterMap(PersistenceMutation, q.persistence));
  }

  lemma {:induction false} SoundSteps<T>(step: (T, nat) -> Step, s: seq<T>, i: nat)
    requires i <= |s|
    ensures AllSound(StepsFrom(step, s, i)) <==> forall k | i <= k < |s| :: Sound(step(s[k], k))
    decreases |s| - i
  {
    hide AllSound;
    if i < |s| {
      SoundSteps(step, s, i + 1);
      AllSoundConcat([step(s[i], i)], StepsFrom(step, s, i + 1));
      FirstTarget(step(s[i], i), StepsFrom(step, s, i + 1));
    } else {
      NoTargets();
    }
  }

  /** The steps of a list are sound exactly when its entries are valid. */
  lemma SoundEntries<T(!new)>(step: (T, nat) -> Step, valid: T -> bool, s: seq<T>)
    requires forall x, i: nat :: Sound(step(x, i)) <==> valid(x)
    ensures AllSound(StepsFrom(step, s, 0)) <==> forall x | x in s :: valid(x)
  {
    hide AllSound, StepsFrom, Sound;
    SoundSteps(step, s, 0);
    if AllSound(StepsFrom(step, s, 0)) {
      forall x | x in s ensures valid(x) {
        var k :| 0 <= k < |s| && s[k] == x;
        assert Sound(step(s[k], k));
      }
    }
  }

  lemma SoundStepsAreValid(q: Request)
    ensures AllSound(Steps(q)) <==> ValidParts(q)
  {
    hide StepsFrom, PathIndex, ValidRecord, ValidLabel, ValidObject, ValidDeadline, ValidFactID, AllSound;
    hide LabelError, ObjectError, RecordError, DeadlineError, FactIDError;
    var a, b, c := StepsFrom(RecordStep, q.records, 0), StepsFrom(RetractionStep, q.retractions, 0),
      StepsFrom(CorrectionStep, q.corrections, 0);
    var d, e := StepsFrom(ExpirationStep, q.expirations, 0), StepsFrom(PersistenceStep, q.persistence, 0);
    AllSoundConcat(d, e);
    AllSoundConcat(c, d + e);
    AllSoundConcat(b, c + (d + e));
    AllSoundConcat(a, b + (c + (d + e)));
    SoundEntries(RecordStep, (r: Record) => ValidRecord(r), q.records);
    SoundEntries(RetractionStep, (r: Retraction) => ValidRetraction(r), q.retractions);
    SoundEntries(CorrectionStep, (x: Correction) => ValidCorrection(x), q.corrections);
    SoundEntries(ExpirationStep, (x: Expiration) => ValidExpiration(x), q.expirations);
    SoundEntries(PersistenceStep, (p: Persistence) => ValidFactID(p.factID), q.persistence);
  }

  /** A request violates no rule exactly when it is valid. */
  lemma NoErrorExactlyWhenValid(q: Request)
    ensures RequestError(q).None? <==> ValidRequest(q)
  {
    hide Steps, ValidParts, NonInterfering, FactTargets, NoRepeats, OwnershipError, FirstError, AllSound;
    SoundStepsAreValid(q);
    TargetsAreTheMutations(q);
    NothingNamed();
    FirstErrorExactly([], Steps(q));
    assert Ids([]) + TargetsOf(Steps(q)) == FactTargets(q);
    AcceptedExactlyWhenNonInterfering(q);
  }

  lemma NothingNamed()
    ensures NoRepeats(Ids([]))
  {
  }

  // ------------------------------------------------------------ the method

  /** The factTargets map. */
  class FactMap {
    var targets: map<string, string>

    /** The map says which facts were named so far, and where. */
    ghost predicate Records(done: seq<Target>)
      reads this
    {
      && (forall t | t in done :: t.id in targets && targets[t.id] == t.path)
      && (forall id | id in targets :: Target(id, targets[id]) in done)
    }

    constructor ()
      ensures Records([])
    {
      targets := map[];
    }

    method Claim(id: string, path: string, ghost done: seq<Target>) returns (error: Option<Invalid>)
      requires Records(done)
      modifies this
      ensures error == TargetError(done, Some(Target(id, path)))
      ensures error.None? ==> Records(done + [Target(id, path)])
    {
      EarlierIsInTheMap(done, id);
      if id in targets {
        return Some(Invalid(DuplicateTarget, path, targets[id]));
      }
      targets := targets[id := path];
      error := None;
    }
  }

  lemma {:induction false} EarlierIsInTheMap(done: seq<Target>, id: string)
    ensures Earlier(done, id).Some? ==> Target(id, Earlier(done, id).value) in done
    ensures Earlier(done, id).None? ==> forall t | t in done :: t.id != id
  {
    if done != [] {
      EarlierIsInTheMap(done[1..], id);
    }
  }

  lemma StepNext<T>(done: seq<Target>, step: (T, nat) -> Step, s: seq<T>, i: nat, after: seq<Step>)
    requires i < |s|
    ensures FirstError(done, StepsFrom(step, s, i) + after) ==
            OrElse(StepError(done, step(s[i], i)),
                   FirstError(Naming(done, step(s[i], i).target), StepsFrom(step, s, i + 1) + after))
  {
    hide StepError, Naming;
    var all := StepsFrom(step, s, i) + after;
    assert all == [step(s[i], i)] + (StepsFrom(step, s, i + 1) + after);
    assert all[0] == step(s[i], i) && all[1..] == StepsFrom(step, s, i + 1) + after;
  }

  lemma StepsEnd<T>(step: (T, nat) -> Step, s: seq<T>, after: seq<Step>)
    ensures StepsFrom(step, s, |s|) + after == after
  {
  }

  method ValidateRecords(records: seq<Record>, ghost after: seq<Step>) returns (error: Option<Invalid>)
    ensures var all := FirstError([], StepsFrom(RecordStep, records, 0) + after);
            if error.Some? then all == error else all == FirstError([], after)
  {
    hide FirstError, StepsFrom, PathIndex, RecordError;
    var i := 0;
    while i < |records|
      invariant 0 <= i <= |records|
      invariant FirstError([], StepsFrom(RecordStep, records, 0) + after)
             == FirstError([], StepsFrom(RecordStep, records, i) + after)
    {
      StepNext([], RecordStep, records, i, after);
      error := RecordError(records[i], PathIndex("record", i));
      if error.Some? {
        return;
      }
      i := i + 1;
    }
    StepsEnd(RecordStep, records, after);
    error := None;
  }

  method ValidateRetraction(r: Retraction, i: nat, facts: FactMap, ghost done: seq<Target>)
    returns (error: Option<Invalid>)
    requires facts.Records(done)
    modifies facts
    ensures error == StepError(done, RetractionStep(r, i))
    ensures error.None? ==> facts.Records(Naming(done, RetractionStep(r, i).target))
  {
    hide PathIndex, FactMap.Records, ValidLabel, ValidObject, ValidFactID;
    var path := PathIndex("retract", i);
    match r {
      case RetractFact(id) =>
        error := FactIDError(id, path + ".fact");
        if error.None? {
          error := facts.Claim(id, path + ".fact", done);
        }
      case RetractExact(s, p, o) =>
        error := LabelError(s, path + ".where.subject");
        if error.None? {
          error := LabelError(p, path + ".where.predicate");
        }
        if error.None? {
          error := ObjectError(o, path + ".where.object");
        }
      case RetractSlot(s, p) =>
        error := LabelError(s, path + ".slot.subject");
        if error.None? {
          error := LabelError(p, path + ".slot.predicate");
        }
      case UnsetRetraction =>
        error := Some(Invalid(MissingField, path, ""));
    }
  }

  method ValidateRetractions(retractions: seq<Retraction>, facts: FactMap, ghost before: seq<Target>,
                             ghost after: seq<Step>)
    returns (error: Option<Invalid>, ghost done: seq<Target>)
    requires facts.Records(before)
    modifies facts
    ensures var all := FirstError(before, StepsFrom(RetractionStep, retractions, 0) + after);
            if error.Some? then all == error else all == FirstError(done, after) && facts.Records(done)
  {
    hide FirstError, StepsFrom, FactMap.Records, RetractionStep, StepError, Naming;
    done := before;
    var i := 0;
    while i < |retractions|
      invariant 0 <= i <= |retractions| && facts.Records(done)
      invariant FirstError(before, StepsFrom(RetractionStep, retractions, 0) + after)
             == FirstError(done, StepsFrom(RetractionStep, retractions, i) + after)
    {
      StepNext(done, RetractionStep, retractions, i, after);
      error := ValidateRetraction(retractions[i], i, facts, done);
      if error.Some? {
        return;
      }
      done := Naming(done, RetractionStep(retractions[i], i).target);
      i := i + 1;
    }
    StepsEnd(RetractionStep, retractions, after);
    error := None;
  }

  method ValidateCorrections(corrections: seq<Correction>, facts: FactMap, ghost before: seq<Target>,
                             ghost after: seq<Step>)
    returns (error: Option<Invalid>, ghost done: seq<Target>)
    requires facts.Records(before)
    modifies facts
    ensures var all := FirstError(before, StepsFrom(CorrectionStep, corrections, 0) + after);
            if error.Some? then all == error else all == FirstError(done, after) && facts.Records(done)
  {
    hide FirstError, StepsFrom, FactMap.Records, PathIndex, RecordError, FactIDError, TargetError;
    done := before;
    var i := 0;
    while i < |corrections|
      invariant 0 <= i <= |corrections| && facts.Records(done)
      invariant FirstError(before, StepsFrom(CorrectionStep, corrections, 0) + after)
             == FirstError(done, StepsFrom(CorrectionStep, corrections, i) + after)
    {
      var c, path := corrections[i], PathIndex("correct", i);
      StepNext(done, CorrectionStep, corrections, i, after);
      error := FactIDError(c.factID, path + ".supersede");
      if error.Some? {
        return;
      }
      error := facts.Claim(c.factID, path + ".supersede", done);
      if error.Some? {
        return;
      }
      error := RecordError(c.replacement, path + ".with");
      if error.Some? {
        return;
      }
      if c.replacement.mode != APPEND {
        error := Some(Invalid(IncompatibleFields, path + ".with.mode", ""));
        return;
      }
      done := Naming(done, CorrectionStep(c, i).target);
      i := i + 1;
    }
    StepsEnd(CorrectionStep, corrections, after);
    error := None;
  }

  method ValidateExpirations(expirations: seq<Expiration>, facts: FactMap, ghost before: seq<Target>,
                             ghost after: seq<Step>)
    returns (error: Option<Invalid>, ghost done: seq<Target>)
    requires facts.Records(before)
    modifies facts
    ensures var all := FirstError(before, StepsFrom(ExpirationStep, expirations, 0) + after);
            if error.Some? then all == error else all == FirstError(done, after) && facts.Records(done)
  {
    hide FirstError, StepsFrom, FactMap.Records, PathIndex, DeadlineError, FactIDError, TargetError;
    done := before;
    var i := 0;
    while i < |expirations|
      invariant 0 <= i <= |expirations| && facts.Records(done)
      invariant FirstError(before, StepsFrom(ExpirationStep, expirations, 0) + after)
             == FirstError(done, StepsFrom(ExpirationStep, expirations, i) + after)
    {
      var e, path := expirations[i], PathIndex("expire", i);
      StepNext(done, ExpirationStep, expirations, i, after);
      error := FactIDError(e.factID, path + ".fact");
      if error.Some? {
        return;
      }
      error := facts.Claim(e.factID, path + ".fact", done);
      if error.Some? {
        return;
      }
      if e.deadline.NoDeadline? {
        error := Some(Invalid(MissingField, path + ".expiration", ""));
        return;
      }
      error := DeadlineError(e.deadline, path + ".expiration");
      if error.Some? {
        return;
      }
      done := Naming(done, ExpirationStep(e, i).target);
      i := i + 1;
    }
    StepsEnd(ExpirationStep, expirations, after);
    error := None;
  }

  method ValidatePersistence(persistence: seq<Persistence>, facts: FactMap, ghost before: seq<Target>)
    returns (error: Option<Invalid>)
    requires facts.Records(before)
    modifies facts
    ensures error == FirstError(before, StepsFrom(PersistenceStep, persistence, 0))
  {
    hide FirstError, StepsFrom, FactMap.Records, PathIndex, FactIDError, TargetError;
    ghost var done := before;
    var i := 0;
    assert StepsFrom(PersistenceStep, persistence, 0) == StepsFrom(PersistenceStep, persistence, 0) + [];
    while i < |persistence|
      invariant 0 <= i <= |persistence| && facts.Records(done)
      invariant FirstError(before, StepsFrom(PersistenceStep, persistence, 0))
             == FirstError(done, StepsFrom(PersistenceStep, persistence, i) + [])
    {
      var p, path := persistence[i], PathIndex("persist", i);
      StepNext(done, PersistenceStep, persistence, i, []);
      error := FactIDError(p.factID, path + ".fact");
      if error.Some? {
        return;
      }
      error := facts.Claim(p.factID, path + ".fact", done);
      if error.Some? {
        return;
      }
      done := Naming(done, PersistenceStep(p, i).target);
      i := i + 1;
    }
    StepsEnd(PersistenceStep, persistence, []);
    NoStepsNoError(done);
    error := None;
  }

  lemma NoStepsNoError(done: seq<Target>)
    ensures FirstError(done, []) == None
  {
  }

  method Validate(q: Request) returns (error: Option<Invalid>)
    ensures error == RequestError(q)
    ensures error.None? <==> ValidRequest(q)
  {
    NoErrorExactlyWhenValid(q);
    hide FirstError, StepsFrom, ValidRequest, OwnershipError, VocabularyError, NonInterfering;
    if Empty(q) {
      return Some(Invalid(EmptyRequest, "request", ""));
    }
    error := VocabularyError(q);
    if error.Some? {
      return;
    }
    ghost var persist := StepsFrom(PersistenceStep, q.persistence, 0);
    ghost var expire := StepsFrom(ExpirationStep, q.expirations, 0) + persist;
    ghost var correct := StepsFrom(CorrectionStep, q.corrections, 0) + expire;
    error := ValidateRecords(q.records, StepsFrom(RetractionStep, q.retractions, 0) + correct);
    if error.Some? {
      return;
    }
    var facts := new FactMap();
    ghost var done: seq<Target>;
    error, done := ValidateRetractions(q.retractions, facts, [], correct);
    if error.Some? {
      return;
    }
    error, done := ValidateCorrections(q.corrections, facts, done, expire);
    if error.Some? {
      return;
    }
    error, done := ValidateExpirations(q.expirations, facts, done, persist);
    if error.Some? {
      return;
    }
    error := ValidatePersistence(q.persistence, facts, done);
    if error.Some? {
      return;
    }
    error := TransactionTimeError(q.transactionTime);
    if error.Some? {
      return;
    }
    error := ValidateOwnership(q);
  }

  /**
   On a store, a valid request means the same, refusals included, in every order of
   its mutations exactly when it is settled there.
   */
  lemma ValidRequestsCommuteExactlyWhen(q: Request, st: Store)
    requires ValidRequest(q)
    ensures OrderFree(st, Mutations(q)) <==> Settled(st, Mutations(q))
  {
    AcceptedExactlyWhenNonInterfering(q);
    assert NoRepeats(FactTargets(q)) && OwnershipError(q).None?;
    hide ValidRequest, NonInterfering, OwnershipError, OrderFree, Settled, Mutations;
    AcceptedMutationsCommuteExactlyWhen(q, st);
  }

  /** A slot retraction, and a retraction by ID. */
  function SlotThenFact(s: string, p: string): Request {
    Request([], [RetractSlot(s, p), RetractFact("1")], [], [], [], "", NoTime)
  }

  function FactThenSlot(s: string, p: string): Request {
    Request([], [RetractFact("1"), RetractSlot(s, p)], [], [], [], "", NoTime)
  }

  lemma TheirMutations(s: string, p: string)
    ensures Mutations(SlotThenFact(s, p)) == [RemoveSlot(Slot(s, p)), RemoveFact("1")]
    ensures Mutations(FactThenSlot(s, p)) == [RemoveFact("1"), RemoveSlot(Slot(s, p))]
  {
    var a, b := RetractSlot(s, p), RetractFact("1");
    FilterMapConcat(RetractionMutation, [a], [b]);
    FilterMapConcat(RetractionMutation, [b], [a]);
    Singleton(RetractionMutation, a);
    Singleton(RetractionMutation, b);
    assert [a, b] == [a] + [b] && [b, a] == [b] + [a];
  }

  lemma TheyAreValid(s: string, p: string)
    requires ValidLabel(s) && ValidLabel(p)
    ensures ValidRequest(SlotThenFact(s, p)) && ValidRequest(FactThenSlot(s, p))
  {
    var x, y := RemoveSlot(Slot(s, p)), RemoveFact("1");
    assert ValidFactID("1") by { assert "1" == FormatUint(1); }
    TheirMutations(s, p);
    OneTargetOneClaim(x, y);
    RetractionsOnlyAreValid(SlotThenFact(s, p));
    RetractionsOnlyAreValid(FactThenSlot(s, p));
  }

  lemma OneTargetOneClaim(x: Mutation, y: Mutation)
    requires x.RemoveSlot? && y.RemoveFact?
    ensures NoRepeats(FilterMap(TargetOf, [x, y])) && NoRepeats(FilterMap(TargetOf, [y, x]))
    ensures FreeClaims(FilterMap(ClaimOf, [x, y])) && FreeClaims(FilterMap(ClaimOf, [y, x]))
  {
    FilterMapConcat(TargetOf, [x], [y]);
    FilterMapConcat(TargetOf, [y], [x]);
    FilterMapConcat(ClaimOf, [x], [y]);
    FilterMapConcat(ClaimOf, [y], [x]);
    assert [x, y] == [x] + [y] && [y, x] == [y] + [x];
  }

  lemma RetractionsOnlyAreValid(q: Request)
    requires q == Request([], q.retractions, [], [], [], "", NoTime) && q.retractions != []
    requires forall r | r in q.retractions :: ValidRetraction(r)
    requires NoRepeats(FactTargets(q)) && FreeClaims(FilterMap(ClaimOf, Mutations(q)))
    ensures ValidRequest(q)
  {
    hide ValidRetraction, NonInterfering, Mutations, FilterMap, NoRepeats;
    NonInterferingByValues(q);
    ClaimsAreTheMutations(q);
    assert Destinations(q) == [];
  }

  lemma DroppedBeforeNamed(slot: Slot, o: Object)
    ensures var st, x, y := Store(map["1" := Plain(slot, o)], map[]), RemoveSlot(slot), RemoveFact("1");
            PerformAll(st, [x, y]) == None && PerformAll(st, [y, x]) == Some(EMPTY)
  {
    var st, x, y := Store(map["1" := Plain(slot, o)], map[]), RemoveSlot(slot), RemoveFact("1");
    OneEffect(st, x, Drop(SlotClaim(slot)));
    OneEffect(st, y, Forget("1"));
    OneEffect(EMPTY, x, Drop(SlotClaim(slot)));
    assert Mutate(st, x) == EMPTY && Mutate(st, y) == EMPTY && Mutate(EMPTY, x) == EMPTY;
    hide Mutate;
    assert [x, y][1..] == [y] && [y, x][1..] == [x];
    PerformOne(EMPTY, x);
    PerformOne(EMPTY, y);
  }

  /**
   A valid request whose order matters: where the fact lies in the slot, retracting
   the slot first leaves no active fact for the other retraction.
   */
  lemma AValidRequestMayDependOnItsOrder(s: string, p: string, o: Object)
    requires ValidLabel(s) && ValidLabel(p)
    ensures ValidRequest(SlotThenFact(s, p)) && ValidRequest(FactThenSlot(s, p))
    ensures Reordered(SlotThenFact(s, p), FactThenSlot(s, p))
    ensures var st := Store(map["1" := Plain(Slot(s, p), o)], map[]);
            && PerformAll(st, Mutations(SlotThenFact(s, p))) == None
            && PerformAll(st, Mutations(FactThenSlot(s, p))) == Some(EMPTY)
  {
    hide ValidRequest, PerformAll, Mutations;
    TheyAreValid(s, p);
    TheirMutations(s, p);
    DroppedBeforeNamed(Slot(s, p), o);
  }
}
