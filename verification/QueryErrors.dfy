/**
 What an error of the query validator says.  The places it looks at are listed, in
 order; each stands for one rule, written out on the query.  The rule named by the
 code of an error is broken at its path, and none is broken before; there is no
 error when none is broken at all.
 */
module QueryErrors {
  import opened Wrappers
  import opened Text
  import opened Reporting
  import opened Query

  // ------------------------------------------------ the places of a query

  datatype Site =
    | WhereAt(f: Filter)
    | ListAt(values: seq<string>)
    | LabelAt(s: string)
    | OnceAt(values: seq<string>, i: nat)
    | BesidesAt(f: Filter)
    | LowerAt(r: NumericRange)
    | UpperAt(r: NumericRange)
    | InclusionsAt(result: Return)
    | ShapeAt(result: Return)
    | InclusionAt(result: Return)
    | NumericShapeAt(q: Request)
    | ConsistencyAt(mode: string)
    | RepresentationAt(o: Optimization)
    | WatermarkAt(watermark: int)
    | LogAt(log: string)
    | LimitAt(limit: Option<int>)
    | OffsetAt(offset: int)
    | OrderedAt(q: Request)
    | DirectionAt(key: Order)
    | OtherFieldsAt(q: Request, k: nat)
    | FieldAt(q: Request, key: Order)
    | SoleKeyAt(q: Request)

  datatype Place = Place(path: string, site: Site)

  function LabelPlaces(values: seq<string>, path: string, i: nat): seq<Place>
    decreases |values| - i
  {
    if i >= |values| then []
    else
      var at := if |values| > 1 then path + "[" + FormatUint(i) + "]" else path;
      [Place(at, LabelAt(values[i])), Place(at, OnceAt(values, i))] + LabelPlaces(values, path, i + 1)
  }

  function PositionPlaces(l: Labels, path: string): seq<Place> {
    if l.None? then [] else [Place(path, ListAt(l.value))] + LabelPlaces(l.value, path, 0)
  }

  function RangePlaces(f: Filter): seq<Place> {
    if f.objectNumber.None? then []
    else
      var r, at := f.objectNumber.value, "where.object_number";
      [Place(at, BesidesAt(f)), Place(at, LowerAt(r)), Place(at, UpperAt(r))]
  }

  function FilterPlaces(f: Filter): seq<Place> {
    [Place("where", WhereAt(f))]
    + (PositionPlaces(f.subject, "where.subject")
       + (PositionPlaces(f.pred, "where.predicate") + (PositionPlaces(f.obj, "where.object") + RangePlaces(f))))
  }

  function ResultPlaces(q: Request): seq<Place> {
    [Place("return.include_facts", InclusionsAt(q.result)), Place("return", ShapeAt(q.result)),
     Place("return.include_facts", InclusionAt(q.result))]
  }

  function ConstraintPlaces(c: ReadConstraint): seq<Place> {
    match c
    case Unconstrained => []
    case ReadAfter(watermark, log) =>
      [Place("required_watermark", WatermarkAt(watermark)), Place("log_identity", LogAt(log))]
    case OnLog(log) => [Place("log_identity", LogAt(log))]
  }

  function KeyPlaces(q: Request, k: nat): seq<Place>
    decreases |q.order| - k
  {
    if k >= |q.order| then []
    else
      var at := "order[" + FormatUint(k) + "]";
      [Place(at + ".direction", DirectionAt(q.order[k])), Place(at + ".by", OtherFieldsAt(q, k)),
       Place(at + ".by", FieldAt(q, q.order[k]))] + KeyPlaces(q, k + 1)
  }

  function OptionPlaces(q: Request): seq<Place> {
    [Place("where.object_number", NumericShapeAt(q)), Place("consistency", ConsistencyAt(q.consistency)),
     Place("optimize.representation", RepresentationAt(q.optimization))]
  }

  function BoundPlaces(q: Request): seq<Place> {
    [Place("limit", LimitAt(q.limit)), Place("offset", OffsetAt(q.offset))]
  }

  function OrderPlaces(q: Request): seq<Place> {
    [Place("order", OrderedAt(q))] + (KeyPlaces(q, 0) + [Place("order", SoleKeyAt(q))])
  }

  /** Everything there is to look at, in the order in which it is looked at. */
  function Places(q: Request): seq<Place> {
    FilterPlaces(q.filter)
    + (ResultPlaces(q)
       + (OptionPlaces(q) + (ConstraintPlaces(q.constraint) + (BoundPlaces(q) + OrderPlaces(q)))))
  }

  // ------------------------------------------------------- what the codes mean

  predicate Constrains(f: Filter) { !(f.subject.None? && f.pred.None? && f.obj.None? && f.objectNumber.None?) }

  predicate IsLog(s: string) { |s| == 32 && forall i | 0 <= i < |s| :: s[i] in "0123456789abcdef" }

  /** The part breaks the rule that the code names. */
  predicate Breaks(site: Site, code: Code) {
    match site
    case WhereAt(f) =>
      (match code
       case IncompatibleFields => f.all && Constrains(f)
       case UnsafeMatchAll => !f.all && !Constrains(f)
       case _ => false)
    case ListAt(values) => code == MissingField && values == []
    case LabelAt(s) =>
      (match code
       case MissingField => s == ""
       case InvalidUTF8 => s != "" && !ValidUtf8(s)
       case _ => false)
    case OnceAt(values, i) => code == DuplicateValue && i < |values| && values[i] in values[..i]
    case BesidesAt(f) => code == IncompatibleFields && f.obj.Some?
    case LowerAt(r) => code == IncompatibleFields && r.gt.Some? && r.gte.Some?
    case UpperAt(r) => code == IncompatibleFields && r.lt.Some? && r.lte.Some?
    case InclusionsAt(r) => code == IncompatibleFields && r.invalid
    case ShapeAt(r) => code == MissingField && r.shape !in {"table", "graph", "document", "kv", "columnar"}
    case InclusionAt(r) => code == UnsupportedValue && r.inclusion.OtherInclusion?
    case NumericShapeAt(q) =>
      && code == IncompatibleFields && q.filter.objectNumber.Some?
      && q.result.shape !in {"table", "document", "columnar"}
    case ConsistencyAt(mode) => code == UnsupportedValue && mode !in {"", "strict", "fresh", "allow_stale"}
    case RepresentationAt(o) =>
      && code == UnsupportedValue && o.Force?
      && o.representation !in {"primitive_scan", "graph", "table", "document", "kv", "columnar"}
    case WatermarkAt(watermark) => code == MissingField && watermark == 0
    case LogAt(log) => code == InvalidIdentity && !IsLog(log)
    case LimitAt(limit) => code == InvalidLimit && limit.Some? && limit.value < 1
    case OffsetAt(offset) => code == InvalidOffset && offset < 0
    case OrderedAt(q) =>
      code == IncompatibleFields && (q.order != [] || q.offset > 0) && q.result.shape in {"graph", "kv"}
    case DirectionAt(key) => code == InvalidOrder && key.direction !in {"", "asc", "desc"}
    case OtherFieldsAt(q, k) =>
      code == DuplicateValue && k < |q.order| && exists j | 0 <= j < k :: q.order[j].field == q.order[k].field
    case FieldAt(q, key) =>
      (match code
       case IncompatibleFields => key.field == "object_number" && q.filter.objectNumber.None?
       case InvalidOrder => key.field !in {"id", "subject", "predicate", "object", "object_number"}
       case _ => false)
    case SoleKeyAt(q) =>
      && code == IncompatibleFields && |q.order| != 1
      && exists k | 0 <= k < |q.order| :: q.order[k].field == "object_number"
  }

  ghost predicate Broken(earlier: seq<Place>, p: Place, e: Invalid) { e.path == p.path && Breaks(p.site, e.code) }

  // ----------------------------------------------------- single places

  ghost predicate Leads(ps: seq<Place>, error: Option<Invalid>) { Always(Broken, ps, error) }

  /** The one place leads to the error. */
  predicate Says(p: Place, error: Option<Invalid>) {
    if error.Some? then error.value.path == p.path && Breaks(p.site, error.value.code)
    else forall code :: !Breaks(p.site, code)
  }

  lemma LeadsOne(p: Place, error: Option<Invalid>)
    requires Says(p, error)
    ensures Leads([p], error)
  {
    hide Breaks;
    AlwaysOne(Broken, p, error);
  }

  lemma LeadsNext(p: Place, rest: seq<Place>, first: Option<Invalid>, second: Option<Invalid>)
    requires Says(p, first) && Leads(rest, second)
    ensures Leads([p] + rest, OrElse(first, second))
  {
    hide Broken, Says;
    LeadsOne(p, first);
    AlwaysConcat(Broken, [p], rest, first, second);
  }

  lemma LeadsConcat(x: seq<Place>, y: seq<Place>, first: Option<Invalid>, second: Option<Invalid>)
    requires Leads(x, first) && Leads(y, second)
    ensures Leads(x + y, OrElse(first, second))
  {
    hide Broken;
    AlwaysConcat(Broken, x, y, first, second);
  }

  lemma LeadsThree(p: Place, q: Place, r: Place, a: Option<Invalid>, b: Option<Invalid>, c: Option<Invalid>)
    requires Says(p, a) && Says(q, b) && Says(r, c)
    ensures Leads([p, q, r], OrElse(a, OrElse(b, c)))
  {
    hide Says, Leads, OrElse;
    LeadsOne(r, c);
    LeadsNext(q, [r], b, c);
    LeadsNext(p, [q] + [r], a, OrElse(b, c));
    assert [p] + ([q] + [r]) == [p, q, r];
  }

  lemma LabelSays(values: seq<string>, at: string, i: nat)
    requires i < |values|
    ensures Says(Place(at, LabelAt(values[i])),
                 OrElse(Unless(values[i] != "", MissingField, at), Unless(ValidUtf8(values[i]), InvalidUTF8, at)))
    ensures Says(Place(at, OnceAt(values, i)), Unless(!UsedBefore(values, i), DuplicateValue, at))
  {
    hide ValidUtf8;
  }

  /** Two places looked at for one value, and what follows. */
  lemma LeadsTwice(p: Place, o: Place, rest: seq<Place>, a: Option<Invalid>, b: Option<Invalid>, once: Option<Invalid>,
                   others: Option<Invalid>)
    requires Says(p, OrElse(a, b)) && Says(o, once) && Leads(rest, others)
    ensures Leads([p, o] + rest, OrElse(OrElse(a, OrElse(b, once)), others))
  {
    hide Says, Leads;
    LeadsNext(o, rest, once, others);
    LeadsNext(p, [o] + rest, OrElse(a, b), OrElse(once, others));
    assert [p] + ([o] + rest) == [p, o] + rest;
  }

  lemma {:induction false} LabelsLead(values: seq<string>, path: string, i: nat)
    ensures Leads(LabelPlaces(values, path, i), LabelsFrom(values, path, i))
    decreases |values| - i
  {
    hide ValidUtf8, Leads, Says, UsedBefore, OrElse, Unless;
    if i >= |values| {
      NothingLeads();
    } else {
      var at := if |values| > 1 then path + "[" + FormatUint(i) + "]" else path;
      LabelSays(values, at, i);
      LabelsLead(values, path, i + 1);
      LeadsTwice(Place(at, LabelAt(values[i])), Place(at, OnceAt(values, i)), LabelPlaces(values, path, i + 1),
        Unless(values[i] != "", MissingField, at), Unless(ValidUtf8(values[i]), InvalidUTF8, at),
        Unless(!UsedBefore(values, i), DuplicateValue, at), LabelsFrom(values, path, i + 1));
    }
  }

  lemma NothingLeads()
    ensures Leads([], None)
  {
    hide Broken;
    AlwaysNothing(Broken);
  }

  lemma PositionLeads(l: Labels, path: string)
    ensures Leads(PositionPlaces(l, path), LabelsError(l, path))
  {
    hide Leads;
    if l.None? {
      NothingLeads();
    } else {
      LabelsLead(l.value, path, 0);
      LeadsNext(Place(path, ListAt(l.value)), LabelPlaces(l.value, path, 0), Unless(l.value != [], MissingField, path),
        LabelsFrom(l.value, path, 0));
    }
  }

  lemma RangeLeads(f: Filter)
    ensures Leads(RangePlaces(f), RangeError(f))
  {
    hide Leads;
    if f.objectNumber.None? {
      NothingLeads();
    } else {
      var r, at := f.objectNumber.value, "where.object_number";
      LeadsThree(Place(at, BesidesAt(f)), Place(at, LowerAt(r)), Place(at, UpperAt(r)),
        Unless(f.obj.None?, IncompatibleFields, at), Unless(!(r.gt.Some? && r.gte.Some?), IncompatibleFields, at),
        Unless(!(r.lt.Some? && r.lte.Some?), IncompatibleFields, at));
    }
  }

  lemma FilterLeads(f: Filter)
    ensures Leads(FilterPlaces(f), FilterError(f))
  {
    hide Leads, LabelsError, RangeError, PositionPlaces, RangePlaces, Says;
    var where_ := if f.all then Unless(!HasPosition(f), IncompatibleFields, "where")
                  else Unless(HasPosition(f), UnsafeMatchAll, "where");
    WhereSays(f);
    PositionLeads(f.subject, "where.subject");
    PositionLeads(f.pred, "where.predicate");
    PositionLeads(f.obj, "where.object");
    RangeLeads(f);
    var s, p, o, r := PositionPlaces(f.subject, "where.subject"), PositionPlaces(f.pred, "where.predicate"),
      PositionPlaces(f.obj, "where.object"), RangePlaces(f);
    var s', p', o', r' := LabelsError(f.subject, "where.subject"), LabelsError(f.pred, "where.predicate"),
      LabelsError(f.obj, "where.object"), RangeError(f);
    LeadsConcat(o, r, o', r');
    LeadsConcat(p, o + r, p', OrElse(o', r'));
    LeadsConcat(s, p + (o + r), s', OrElse(p', OrElse(o', r')));
    LeadsNext(Place("where", WhereAt(f)), s + (p + (o + r)), where_, OrElse(s', OrElse(p', OrElse(o', r'))));
    if f.all && !HasPosition(f) {
      AllLooksNoFurther(f);
    }
  }

  lemma WhereSays(f: Filter)
    ensures Says(Place("where", WhereAt(f)),
                 if f.all then Unless(!HasPosition(f), IncompatibleFields, "where")
                 else Unless(HasPosition(f), UnsafeMatchAll, "where"))
  {
  }

  lemma AllLooksNoFurther(f: Filter)
    requires !HasPosition(f)
    ensures LabelsError(f.subject, "where.subject").None? && LabelsError(f.pred, "where.predicate").None?
    ensures LabelsError(f.obj, "where.object").None? && RangeError(f).None?
  {
  }

  lemma ResultLeads(q: Request)
    ensures Leads(ResultPlaces(q), ReturnError(q.result))
  {
    hide Leads;
    var r := q.result;
    LeadsThree(Place("return.include_facts", InclusionsAt(r)), Place("return", ShapeAt(r)),
      Place("return.include_facts", InclusionAt(r)),
      Unless(!r.invalid, IncompatibleFields, "return.include_facts"),
      Unless(r.shape in {"table", "graph", "document", "kv", "columnar"}, MissingField, "return"),
      Unless(!r.inclusion.OtherInclusion?, UnsupportedValue, "return.include_facts"));
  }

  function OptionErrors(q: Request): Option<Invalid> {
    OrElse(Unless(q.filter.objectNumber.Some? ==> q.result.shape in {"table", "document", "columnar"},
                  IncompatibleFields, "where.object_number"),
    OrElse(Unless(q.consistency in {"", STRICT, "fresh", "allow_stale"}, UnsupportedValue, "consistency"),
           Unless(ValidOptimization(q.optimization), UnsupportedValue, "optimize.representation")))
  }

  lemma OptionsLead(q: Request)
    ensures Leads(OptionPlaces(q), OptionErrors(q))
  {
    hide Leads;
    LeadsThree(Place("where.object_number", NumericShapeAt(q)), Place("consistency", ConsistencyAt(q.consistency)),
      Place("optimize.representation", RepresentationAt(q.optimization)),
      Unless(q.filter.objectNumber.Some? ==> q.result.shape in {"table", "document", "columnar"},
             IncompatibleFields, "where.object_number"),
      Unless(q.consistency in {"", STRICT, "fresh", "allow_stale"}, UnsupportedValue, "consistency"),
      Unless(ValidOptimization(q.optimization), UnsupportedValue, "optimize.representation"));
  }

  lemma LogSays(log: string)
    ensures Says(Place("log_identity", LogAt(log)), Unless(ValidLogIdentity(log), InvalidIdentity, "log_identity"))
  {
    assert forall c: char :: c in "0123456789abcdef" <==> LowerHex(c);
  }

  lemma ConstraintLeads(c: ReadConstraint)
    ensures Leads(ConstraintPlaces(c), ConstraintError(c))
  {
    hide Leads, ValidLogIdentity, IsLog;
    match c {
      case Unconstrained => NothingLeads();
      case ReadAfter(watermark, log) =>
        LogSays(log);
        LeadsOne(Place("log_identity", LogAt(log)), Unless(ValidLogIdentity(log), InvalidIdentity, "log_identity"));
        LeadsNext(Place("required_watermark", WatermarkAt(watermark)), [Place("log_identity", LogAt(log))],
          Unless(watermark != 0, MissingField, "required_watermark"),
          Unless(ValidLogIdentity(log), InvalidIdentity, "log_identity"));
        assert [Place("required_watermark", WatermarkAt(watermark))] + [Place("log_identity", LogAt(log))]
            == ConstraintPlaces(c);
      case OnLog(log) =>
        LogSays(log);
        LeadsOne(Place("log_identity", LogAt(log)), Unless(ValidLogIdentity(log), InvalidIdentity, "log_identity"));
    }
  }

  lemma BoundsLead(q: Request)
    ensures Leads(BoundPlaces(q), OrElse(Unless(q.limit.Some? ==> q.limit.value >= 1, InvalidLimit, "limit"),
                                         Unless(q.offset >= 0, InvalidOffset, "offset")))
  {
    hide Leads;
    var p, o := Place("limit", LimitAt(q.limit)), Place("offset", OffsetAt(q.offset));
    LeadsOne(o, Unless(q.offset >= 0, InvalidOffset, "offset"));
    LeadsNext(p, [o], Unless(q.limit.Some? ==> q.limit.value >= 1, InvalidLimit, "limit"),
      Unless(q.offset >= 0, InvalidOffset, "offset"));
    assert [p] + [o] == BoundPlaces(q);
  }

  lemma KeySays(q: Request, k: nat, at: string)
    requires k < |q.order|
    ensures var o := q.order[k];
            && Says(Place(at + ".direction", DirectionAt(o)),
                    Unless(o.direction in {"", "asc", "desc"}, InvalidOrder, at + ".direction"))
            && Says(Place(at + ".by", OtherFieldsAt(q, k)),
                    Unless(!FieldUsedBefore(q.order, k), DuplicateValue, at + ".by"))
            && Says(Place(at + ".by", FieldAt(q, o)),
                    if o.field == OBJECT_NUMBER
                    then Unless(q.filter.objectNumber.Some?, IncompatibleFields, at + ".by")
                    else Unless(o.field in {"id", "subject", "predicate", "object"}, InvalidOrder, at + ".by"))
  {
  }

  lemma {:induction false} KeysLead(q: Request, k: nat)
    ensures Leads(KeyPlaces(q, k), KeysFrom(q, k))
    decreases |q.order| - k
  {
    hide Leads, Says, FieldUsedBefore;
    if k >= |q.order| {
      NothingLeads();
    } else {
      var at, o := "order[" + FormatUint(k) + "]", q.order[k];
      assert at == At("order", k);
      KeySays(q, k, at);
      KeysLead(q, k + 1);
      var x, y, z := Place(at + ".direction", DirectionAt(o)), Place(at + ".by", OtherFieldsAt(q, k)),
        Place(at + ".by", FieldAt(q, o));
      LeadsThree(x, y, z, Unless(o.direction in {"", "asc", "desc"}, InvalidOrder, at + ".direction"),
        Unless(!FieldUsedBefore(q.order, k), DuplicateValue, at + ".by"),
        if o.field == OBJECT_NUMBER then Unless(q.filter.objectNumber.Some?, IncompatibleFields, at + ".by")
        else Unless(o.field in {"id", "subject", "predicate", "object"}, InvalidOrder, at + ".by"));
      LeadsConcat([x, y, z], KeyPlaces(q, k + 1), KeyError(q, k), KeysFrom(q, k + 1));
    }
  }

  lemma OrderedSays(q: Request)
    ensures Says(Place("order", OrderedAt(q)),
                 Unless((q.order != [] || q.offset > 0) ==> q.result.shape !in {"graph", "kv"},
                        IncompatibleFields, "order"))
    ensures Says(Place("order", SoleKeyAt(q)),
                 Unless(Numeric(q.order) ==> |q.order| == 1, IncompatibleFields, "order"))
  {
  }

  lemma OrderLeads(q: Request)
    ensures Leads(OrderPlaces(q), OrderError(q))
  {
    hide Leads, Says, KeysFrom, KeyPlaces, Numeric;
    var first := Unless((q.order != [] || q.offset > 0) ==> q.result.shape !in {"graph", "kv"},
                        IncompatibleFields, "order");
    var last := Unless(Numeric(q.order) ==> |q.order| == 1, IncompatibleFields, "order");
    OrderedSays(q);
    KeysLead(q, 0);
    LeadsOne(Place("order", SoleKeyAt(q)), last);
    LeadsConcat(KeyPlaces(q, 0), [Place("order", SoleKeyAt(q))], KeysFrom(q, 0), last);
    LeadsNext(Place("order", OrderedAt(q)), KeyPlaces(q, 0) + [Place("order", SoleKeyAt(q))], first,
      OrElse(KeysFrom(q, 0), last));
  }

  /**
   What an error of the validator says: going through everything there is to look at
   in a query, at the first place where a rule is broken, it is the rule that the
   code names and the path is that of the place.  There is no error exactly when no
   rule is broken anywhere.
   */
  lemma ErrorsNameTheFirstBrokenRule(q: Request)
    ensures Reports(Broken, [], Places(q), RequestError(q))
  {
    hide Leads, FilterError, ReturnError, ConstraintError, OrderError, FilterPlaces, ResultPlaces, OptionPlaces,
      ConstraintPlaces, BoundPlaces, OrderPlaces, ValidOptimization, Broken;
    FilterLeads(q.filter);
    ResultLeads(q);
    OptionsLead(q);
    ConstraintLeads(q.constraint);
    BoundsLead(q);
    OrderLeads(q);
    var bounds := OrElse(Unless(q.limit.Some? ==> q.limit.value >= 1, InvalidLimit, "limit"),
                         Unless(q.offset >= 0, InvalidOffset, "offset"));
    var x5 := OrElse(bounds, OrderError(q));
    var x4 := OrElse(ConstraintError(q.constraint), x5);
    var x3 := OrElse(OptionErrors(q), x4);
    var x2 := OrElse(ReturnError(q.result), x3);
    var p5 := BoundPlaces(q) + OrderPlaces(q);
    var p4 := ConstraintPlaces(q.constraint) + p5;
    LeadsConcat(BoundPlaces(q), OrderPlaces(q), bounds, OrderError(q));
    LeadsConcat(ConstraintPlaces(q.constraint), p5, ConstraintError(q.constraint), x5);
    LeadsConcat(OptionPlaces(q), p4, OptionErrors(q), x4);
    LeadsConcat(ResultPlaces(q), OptionPlaces(q) + p4, ReturnError(q.result), x3);
    LeadsConcat(FilterPlaces(q.filter), ResultPlaces(q) + (OptionPlaces(q) + p4), FilterError(q.filter), x2);
    FromLeads(Places(q), RequestError(q));
  }

  lemma FromLeads(ps: seq<Place>, error: Option<Invalid>)
    requires Leads(ps, error)
    ensures Reports(Broken, [], ps, error)
  {
  }
}
