/** Request.Encode of the query package as a JSON tree, and the decoder that inverts it. */
module QueryWire {
  import opened Wrappers
  import opened Text
  import opened Json
  import opened Query

  // -------------------------------------------------------------- escaping

  predicate Marked(s: string) { s != "" && s[0] == '?' }

  /** escapeLabel: a literal label that looks like a variable is marked once more. */
  function Escape(name: string): string { if Marked(name) then "?" + name else name }

  /** A wire label as a literal; one that begins with exactly one '?' is a variable instead. */
  function Unescape(wire: string): Option<string> {
    if !Marked(wire) then Some(wire) else if Marked(wire[1..]) then Some(wire[1..]) else None
  }

  predicate IsVariable(wire: string) { Marked(wire) && !Marked(wire[1..]) }

  /** Escaping loses nothing, never makes a variable, and reaches every wire label that is not one. */
  lemma EscapingIsExact(name: string, wire: string)
    ensures Unescape(Escape(name)) == Some(name) && !IsVariable(Escape(name))
    ensures !IsVariable(wire) ==> Unescape(wire).Some? && Escape(Unescape(wire).value) == wire
  {
  }

  // --------------------------------------------------------------- writing

  function LabelsWire(l: Labels): Option<Json> {
    if l.None? then None
    else if |l.value| == 1 then Some(Str(Escape(l.value[0])))
    else Some(Arr(MapSeq((name: string) => Str(Escape(name)), l.value)))
  }

  function BoundWire(b: Option<uint64>): Option<Json> { if b.Some? then Some(Str(FormatUint(b.value))) else None }

  function RangeEntries(r: NumericRange): seq<Entry> {
    [Entry("gt", BoundWire(r.gt)), Entry("gte", BoundWire(r.gte)), Entry("lt", BoundWire(r.lt)),
     Entry("lte", BoundWire(r.lte))]
  }

  function RangeWire(r: Option<NumericRange>): Option<Json> {
    if r.Some? then Some(Obj(Compact(RangeEntries(r.value)))) else None
  }

  function FilterEntries(f: Filter): seq<Entry> {
    [Entry("subject", LabelsWire(f.subject)), Entry("predicate", LabelsWire(f.pred)),
     Entry("object", LabelsWire(f.obj)),
     Entry("object_number", RangeWire(f.objectNumber))]
  }

  function InclusionWire(i: Inclusion): Option<Json> {
    match i
    case IncludeFacts => Some(Bool(true))
    case ExcludeFacts => Some(Bool(false))
    case _ => None
  }

  function ReturnEntries(r: Return): seq<Entry> {
    [Entry("shape", Some(Str(r.shape))), Entry("include_facts", InclusionWire(r.inclusion))]
  }

  function OptimizationEntries(o: Optimization): seq<Entry> {
    [Entry("mode", Some(Str(if o.Force? then "force" else "auto"))),
     Entry("representation", if o.Force? then StrOrOmit(o.representation) else None)]
  }

  function IntOrOmit(n: int): Option<Json> { if n == 0 then None else Some(Num(FormatInt(n))) }

  function OrderEntries(o: Order): seq<Entry> {
    [Entry("by", Some(Str(o.field))), Entry("dir", StrOrOmit(o.direction))]
  }

  function OrderWire(o: Order): Json { Obj(Compact(OrderEntries(o))) }

  function Watermark(c: ReadConstraint): int { if c.ReadAfter? then c.watermark else 0 }

  function LogOf(c: ReadConstraint): string { if c.Unconstrained? then "" else c.logIdentity }

  function Consistency(q: Request): string { if q.consistency == "" then STRICT else q.consistency }

  function RequestEntries(q: Request): seq<Entry> {
    [Entry("find", Some(Str("facts"))), Entry("where", Some(Obj(Compact(FilterEntries(q.filter))))),
     Entry("return", Some(Obj(Compact(ReturnEntries(q.result))))), Entry("consistency", Some(Str(Consistency(q)))),
     Entry("optimize", Some(Obj(Compact(OptimizationEntries(q.optimization))))),
     Entry("required_watermark", IntOrOmit(Watermark(q.constraint))),
     Entry("log_identity", StrOrOmit(LogOf(q.constraint))),
     Entry("limit", if q.limit.Some? then Some(Num(FormatInt(q.limit.value))) else None),
     Entry("order", ArrOrOmit(MapSeq(OrderWire, q.order))), Entry("offset", IntOrOmit(q.offset))]
  }

  function Encoded(q: Request): Json { Obj(Compact(RequestEntries(q))) }

  // --------------------------------------------------------------- reading

  function ReadInt(v: Option<Json>): Option<int> {
    if v.None? then Some(0) else if v.value.Num? then ParseInt(v.value.literal) else None
  }

  function ReadLabel(j: Json): Option<string> { if j.Str? then Unescape(j.s) else None }

  function ReadLabels(v: Option<Json>): Option<Labels> {
    if v.None? then Some(None)
    else if v.value.Arr? then
      var all := ReadAll(ReadLabel, v.value.items);
      if all.Some? then Some(Some(all.value)) else None
    else
      var one := ReadLabel(v.value);
      if one.Some? then Some(Some([one.value])) else None
  }

  function ReadBound(v: Option<Json>): Option<Option<uint64>> {
    if v.None? then Some(None)
    else if v.value.Str? && ParseUint(v.value.s).Some? then Some(ParseUint(v.value.s))
    else None
  }

  function ReadRange(v: Option<Json>): Option<Option<NumericRange>> {
    if v.None? then Some(None)
    else
      var gt, gte := ReadBound(Member(v.value, "gt")), ReadBound(Member(v.value, "gte"));
      var lt, lte := ReadBound(Member(v.value, "lt")), ReadBound(Member(v.value, "lte"));
      if gt.Some? && gte.Some? && lt.Some? && lte.Some? then
        Some(Some(NumericRange(gt.value, gte.value, lt.value, lte.value)))
      else None
  }

  /** A filter that constrains no position matches everything. */
  function ReadFilter(j: Json): Option<Filter> {
    var s, p, o := ReadLabels(Member(j, "subject")), ReadLabels(Member(j, "predicate")),
      ReadLabels(Member(j, "object"));
    var r := ReadRange(Member(j, "object_number"));
    if s.Some? && p.Some? && o.Some? && r.Some? then
      var f := Filter(s.value, p.value, o.value, r.value, false);
      Some(f.(all := !HasPosition(f)))
    else None
  }

  function ReadInclusion(v: Option<Json>): Option<Inclusion> {
    if v.None? then Some(DefaultFacts)
    else if v.value.Bool? then Some(if v.value.b then IncludeFacts else ExcludeFacts)
    else None
  }

  function ReadReturn(j: Json): Option<Return> {
    var shape, inclusion := ReadStr(Member(j, "shape")), ReadInclusion(Member(j, "include_facts"));
    if shape.Some? && inclusion.Some? then Some(Return(shape.value, inclusion.value, false)) else None
  }

  function ReadOptimization(j: Json): Option<Optimization> {
    var mode, representation := ReadStr(Member(j, "mode")), ReadStr(Member(j, "representation"));
    if mode == Some("auto") then Some(Automatic)
    else if mode == Some("force") && representation.Some? then Some(Force(representation.value))
    else None
  }

  function ReadConstraint(watermark: int, log: string): Option<ReadConstraint> {
    if log == "" then if watermark == 0 then Some(Unconstrained) else None
    else if watermark == 0 then Some(OnLog(log))
    else if 0 < watermark < TWO_TO_64 then Some(ReadAfter(watermark, log))
    else None
  }

  function ReadOrder(j: Json): Option<Order> {
    var field, direction := ReadStr(Member(j, "by")), ReadOptional(Member(j, "dir"));
    if field.Some? && direction.Some? then Some(Order(field.value, direction.value)) else None
  }

  function ReadLimit(v: Option<Json>): Option<Option<int>> {
    if v.None? then Some(None) else if ReadInt(v).Some? then Some(ReadInt(v)) else None
  }

  function Decode(j: Json): Option<Request> {
    var filter, result := ReadPart(Member(j, "where"), ReadFilter), ReadPart(Member(j, "return"), ReadReturn);
    var consistency, optimization := ReadStr(Member(j, "consistency")),
      ReadPart(Member(j, "optimize"), ReadOptimization);
    var watermark, log := ReadInt(Member(j, "required_watermark")), ReadOptional(Member(j, "log_identity"));
    var constraint := if watermark.Some? && log.Some? then ReadConstraint(watermark.value, log.value) else None;
    var limit, order := ReadLimit(Member(j, "limit")), ReadAll(ReadOrder, Items(j, "order"));
    var offset := ReadInt(Member(j, "offset"));
    if ReadStr(Member(j, "find")) == Some("facts") && filter.Some? && result.Some? && consistency.Some?
       && optimization.Some? && constraint.Some? && limit.Some? && order.Some? && offset.Some?
    then Some(Request(filter.value, result.value, consistency.value, optimization.value, constraint.value, limit.value,
                      order.value, offset.value))
    else None
  }

  // ------------------------------------------------------------ round trip

  lemma LabelsReadBack(l: Labels)
    requires ValidLabels(l)
    ensures ReadLabels(LabelsWire(l)) == Some(l)
  {
    hide Escape, Unescape, MapSeq, ReadAll;
    if l.Some? {
      var write := (name: string) => Str(Escape(name));
      forall name ensures ReadLabel(write(name)) == Some(name) { EscapingIsExact(name, name); }
      if |l.value| == 1 {
        assert l.value == [l.value[0]];
        assert ReadLabel(write(l.value[0])) == Some(l.value[0]);
      } else {
        ListReadsBack(ReadLabel, write, l.value);
      }
    }
  }

  lemma BoundReadsBack(b: Option<uint64>)
    ensures ReadBound(BoundWire(b)) == Some(b)
  {
    if b.Some? {
      DecimalsParseBack(b.value);
    }
  }

  lemma RangeReadsBack(r: Option<NumericRange>)
    ensures ReadRange(RangeWire(r)) == Some(r)
  {
    if r.Some? {
      hide Compact, Member, BoundWire, ReadBound;
      var es, j := RangeEntries(r.value), Obj(Compact(RangeEntries(r.value)));
      Lookups(es);
      assert Member(j, es[0].name) == es[0].value && Member(j, es[1].name) == es[1].value;
      assert Member(j, es[2].name) == es[2].value && Member(j, es[3].name) == es[3].value;
      BoundReadsBack(r.value.gt);
      BoundReadsBack(r.value.gte);
      BoundReadsBack(r.value.lt);
      BoundReadsBack(r.value.lte);
    }
  }

  lemma FilterReadsBack(f: Filter)
    requires ValidFilter(f)
    ensures ReadFilter(Obj(Compact(FilterEntries(f)))) == Some(f)
  {
    hide Compact, Member, LabelsWire, RangeWire, ReadLabels, ReadRange, ValidLabels, ValidRange;
    var es, j := FilterEntries(f), Obj(Compact(FilterEntries(f)));
    Lookups(es);
    assert Member(j, es[0].name) == es[0].value && Member(j, es[1].name) == es[1].value;
    assert Member(j, es[2].name) == es[2].value && Member(j, es[3].name) == es[3].value;
    LabelsReadBack(f.subject);
    LabelsReadBack(f.pred);
    LabelsReadBack(f.obj);
    RangeReadsBack(f.objectNumber);
  }

  lemma ReturnReadsBack(r: Return)
    requires ValidReturn(r)
    ensures ReadReturn(Obj(Compact(ReturnEntries(r)))) == Some(r)
  {
    hide Compact, Member;
    var es, j := ReturnEntries(r), Obj(Compact(ReturnEntries(r)));
    Lookups(es);
    assert Member(j, es[0].name) == es[0].value && Member(j, es[1].name) == es[1].value;
  }

  lemma OptimizationReadsBack(o: Optimization)
    requires ValidOptimization(o)
    ensures ReadOptimization(Obj(Compact(OptimizationEntries(o)))) == Some(o)
  {
    hide Compact, Member;
    var es, j := OptimizationEntries(o), Obj(Compact(OptimizationEntries(o)));
    Lookups(es);
    assert Member(j, es[0].name) == es[0].value && Member(j, es[1].name) == es[1].value;
  }

  lemma OrderReadsBack(o: Order)
    ensures ReadOrder(OrderWire(o)) == Some(o)
  {
    hide Compact, Member;
    var es, j := OrderEntries(o), OrderWire(o);
    Lookups(es);
    assert Member(j, es[0].name) == es[0].value && Member(j, es[1].name) == es[1].value;
  }

  lemma IntReadsBack(n: int)
    ensures ReadInt(IntOrOmit(n)) == Some(n) && ReadInt(Some(Num(FormatInt(n)))) == Some(n)
  {
    DecimalsParseBack(n);
  }

  lemma ConstraintReadsBack(c: ReadConstraint)
    requires ValidConstraint(c)
    ensures ReadConstraint(Watermark(c), LogOf(c)) == Some(c)
  {
  }

  lemma RequestLookups(q: Request)
    ensures var j := Encoded(q);
            && Member(j, "find") == Some(Str("facts"))
            && Member(j, "where") == Some(Obj(Compact(FilterEntries(q.filter))))
            && Member(j, "return") == Some(Obj(Compact(ReturnEntries(q.result))))
            && Member(j, "consistency") == Some(Str(Consistency(q)))
            && Member(j, "optimize") == Some(Obj(Compact(OptimizationEntries(q.optimization))))
            && Member(j, "required_watermark") == IntOrOmit(Watermark(q.constraint))
            && Member(j, "log_identity") == StrOrOmit(LogOf(q.constraint))
            && Member(j, "limit") == (if q.limit.Some? then Some(Num(FormatInt(q.limit.value))) else None)
            && Member(j, "order") == ArrOrOmit(MapSeq(OrderWire, q.order))
            && Member(j, "offset") == IntOrOmit(q.offset)
  {
    hide Compact, Member, FilterEntries, ReturnEntries, OptimizationEntries, IntOrOmit, StrOrOmit, ArrOrOmit, MapSeq,
      Consistency;
    var es, j := RequestEntries(q), Encoded(q);
    EntryNamesDiffer(q);
    Lookups(es);
    assert Member(j, es[0].name) == es[0].value && Member(j, es[1].name) == es[1].value;
    assert Member(j, es[2].name) == es[2].value && Member(j, es[3].name) == es[3].value;
    assert Member(j, es[4].name) == es[4].value && Member(j, es[5].name) == es[5].value;
    assert Member(j, es[6].name) == es[6].value && Member(j, es[7].name) == es[7].value;
    assert Member(j, es[8].name) == es[8].value && Member(j, es[9].name) == es[9].value;
  }

  lemma EntryNamesDiffer(q: Request)
    ensures DistinctNames(RequestEntries(q))
  {
    hide Compact, FilterEntries, ReturnEntries, OptimizationEntries, IntOrOmit, StrOrOmit, ArrOrOmit, MapSeq,
      Consistency, Watermark, LogOf;
    var es := RequestEntries(q);
    var marks := [(4, 'f'), (5, 'w'), (6, 'r'), (11, 'c'), (8, 'o'), (18, 'r'), (12, 'l'), (5, 'l'), (5, 'o'),
                  (6, 'o')];
    assert forall i | 0 <= i < 10 :: |es[i].name| == marks[i].0 && es[i].name[0] == marks[i].1;
    assert forall i, j | 0 <= i < j < 10 :: marks[i] != marks[j];
  }

  /** Every valid query is recovered from its wire tree; a consistency that is not stated is strict. */
  lemma EncodingReadsBack(q: Request)
    requires ValidRequest(q)
    ensures Decode(Encoded(q)) == Some(if q.consistency == "" then q.(consistency := "strict") else q)
  {
    hide Encoded, Member, ReadFilter, ReadReturn, ReadOptimization, ReadConstraint, FilterEntries, ReturnEntries,
      OptimizationEntries, Compact, MapSeq, ReadAll, IntOrOmit, ReadInt, ValidFilter, ValidReturn, ValidOptimization,
      ValidConstraint, Watermark;
    RequestLookups(q);
    FilterReadsBack(q.filter);
    ReturnReadsBack(q.result);
    OptimizationReadsBack(q.optimization);
    ConstraintReadsBack(q.constraint);
    IntReadsBack(Watermark(q.constraint));
    IntReadsBack(q.offset);
    if q.limit.Some? {
      IntReadsBack(q.limit.value);
    }
    forall o | o in q.order ensures ReadOrder(OrderWire(o)) == Some(o) { OrderReadsBack(o); }
    ListReadsBack(ReadOrder, OrderWire, q.order);
  }

  /** Only query.All reaches the wire as an empty filter, which matches everything. */
  lemma EmptyFilterMeansAll(q: Request)
    requires ValidRequest(q)
    ensures Member(Encoded(q), "where") == Some(Obj([])) <==> q.filter.all
  {
    hide Member, Encoded;
    RequestLookups(q);
    FilterReadsBack(q.filter);
    hide ReadFilter;
    var es := FilterEntries(q.filter);
    assert es == [es[0]] + ([es[1]] + ([es[2]] + ([es[3]] + [])));
    CompactIsEmptyExactlyWhen(es);
    hide LabelsWire, RangeWire, Compact;
    PositionsAreWritten(q.filter);
  }

  lemma {:induction false} CompactIsEmptyExactlyWhen(es: seq<Entry>)
    ensures Compact(es) == [] <==> forall i | 0 <= i < |es| :: es[i].value.None?
  {
    if es != [] {
      CompactIsEmptyExactlyWhen(es[1..]);
      assert es == [es[0]] + es[1..];
    }
  }

  lemma PositionsAreWritten(f: Filter)
    ensures HasPosition(f) <==> !forall i | 0 <= i < 4 :: FilterEntries(f)[i].value.None?
  {
    var es := FilterEntries(f);
    assert es[0].value.None? <==> f.subject.None?;
    assert es[1].value.None? <==> f.pred.None?;
    assert es[2].value.None? <==> f.obj.None?;
    assert es[3].value.None? <==> f.objectNumber.None?;
  }

  // -------------------------------------------------------------- encoding

  method EncodeLabels(l: Labels) returns (wire: Option<Json>)
    ensures wire == LabelsWire(l)
  {
    hide Escape;
    if l.None? {
      return None;
    }
    if |l.value| == 1 {
      return Some(Str(Escape(l.value[0])));
    }
    var values: seq<Json> := [];
    for i := 0 to |l.value|
      invariant values == MapSeq((name: string) => Str(Escape(name)), l.value[..i])
    {
      MapSeqSnoc((name: string) => Str(Escape(name)), l.value, i);
      values := values + [Str(Escape(l.value[i]))];
    }
    assert l.value[..|l.value|] == l.value;
    wire := Some(Arr(values));
  }

  method Encode(q: Request) returns (r: Result<Json, Invalid>)
    ensures r.Ok? <==> ValidRequest(q)
    ensures r.Ok? ==>
              && r.value == Encoded(q)
              && Decode(r.value) == Some(if q.consistency == "" then q.(consistency := "strict") else q)
    ensures r.Err? ==> Some(r.error) == RequestError(q)
  {
    hide ValidRequest, RequestError, Decode, LabelsWire, MapSeq, Compact;
    var error := Validate(q);
    if error.Some? {
      return Err(error.value);
    }
    EncodingReadsBack(q);
    var subject := EncodeLabels(q.filter.subject);
    var pred := EncodeLabels(q.filter.pred);
    var obj := EncodeLabels(q.filter.obj);
    var consistency := q.consistency;
    if consistency == "" {
      consistency := STRICT;
    }
    var filter := [Entry("subject", subject), Entry("predicate", pred), Entry("object", obj),
                   Entry("object_number", RangeWire(q.filter.objectNumber))];
    var order: seq<Json> := [];
    for i := 0 to |q.order|
      invariant order == MapSeq(OrderWire, q.order[..i])
    {
      MapSeqSnoc(OrderWire, q.order, i);
      order := order + [OrderWire(q.order[i])];
    }
    assert q.order[..|q.order|] == q.order;
    r := Ok(Obj(Compact(
      [Entry("find", Some(Str("facts"))), Entry("where", Some(Obj(Compact(filter)))),
       Entry("return", Some(Obj(Compact(ReturnEntries(q.result))))), Entry("consistency", Some(Str(consistency))),
       Entry("optimize", Some(Obj(Compact(OptimizationEntries(q.optimization))))),
       Entry("required_watermark", IntOrOmit(Watermark(q.constraint))),
       Entry("log_identity", StrOrOmit(LogOf(q.constraint))),
       Entry("limit", if q.limit.Some? then Some(Num(FormatInt(q.limit.value))) else None),
       Entry("order", ArrOrOmit(order)), Entry("offset", IntOrOmit(q.offset))])));
  }
}
