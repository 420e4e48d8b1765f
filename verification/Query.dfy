/**
 The typed facts query: its parts and the rules it must meet.  A position is
 absent or a list of labels, a filter constrains something or says All, and each
 part is checked in the order of the code, so that the error is the first that a
 query gives cause for.
 */
module Query {
  import opened Wrappers
  import opened Text
  import opened Permutations

  // One query position: absent, or a list of labels.
  type Labels = Option<seq<string>>

  datatype NumericRange = NumericRange(gt: Option<uint64>, gte: Option<uint64>, lt: Option<uint64>, lte: Option<uint64>)

  datatype Filter = Filter(subject: Labels, pred: Labels, obj: Labels, objectNumber: Option<NumericRange>, all: bool)

  datatype Inclusion = DefaultFacts | IncludeFacts | ExcludeFacts | OtherInclusion

  // invalid remembers that a constructor was given more than one inclusion.
  datatype Return = Return(shape: string, inclusion: Inclusion, invalid: bool)

  datatype Optimization = Automatic | Force(representation: string)

  datatype ReadConstraint =
    | Unconstrained
    | ReadAfter(watermark: uint64, logIdentity: string)
    | OnLog(logIdentity: string)

  datatype Order = Order(field: string, direction: string)

  datatype Request = Request(
    filter: Filter, result: Return, consistency: string, optimization: Optimization, constraint: ReadConstraint,
    limit: Option<int>, order: seq<Order>, offset: int)

  const STRICT := "strict"
  const OBJECT_NUMBER := "object_number"

  // ------------------------------------------------------------- the rules

  predicate ValidLabel(s: string) { s != "" && ValidUtf8(s) }

  ghost predicate ValidLabels(l: Labels) {
    l.Some? ==> l.value != [] && (forall s | s in l.value :: ValidLabel(s)) && NoRepeats(l.value)
  }

  predicate HasPosition(f: Filter) { f.subject.Some? || f.pred.Some? || f.obj.Some? || f.objectNumber.Some? }

  predicate ValidRange(r: NumericRange) { !(r.gt.Some? && r.gte.Some?) && !(r.lt.Some? && r.lte.Some?) }

  ghost predicate ValidFilter(f: Filter) {
    && f.all != HasPosition(f)
    && ValidLabels(f.subject) && ValidLabels(f.pred) && ValidLabels(f.obj)
    && !(f.obj.Some? && f.objectNumber.Some?)
    && (f.objectNumber.Some? ==> ValidRange(f.objectNumber.value))
  }

  predicate ValidReturn(r: Return) {
    !r.invalid && r.shape in {"table", "graph", "document", "kv", "columnar"} && !r.inclusion.OtherInclusion?
  }

  predicate ValidOptimization(o: Optimization) {
    o.Force? ==> o.representation in {"primitive_scan", "graph", "table", "document", "kv", "columnar"}
  }

  predicate ValidLogIdentity(s: string) { |s| == 32 && forall i | 0 <= i < |s| :: LowerHex(s[i]) }

  predicate ValidConstraint(c: ReadConstraint) {
    match c
    case Unconstrained => true
    case ReadAfter(watermark, log) => watermark != 0 && ValidLogIdentity(log)
    case OnLog(log) => ValidLogIdentity(log)
  }

  predicate ValidKey(o: Order, q: Request) {
    && o.direction in {"", "asc", "desc"}
    && o.field in {"id", "subject", "predicate", "object", OBJECT_NUMBER}
    && (o.field == OBJECT_NUMBER ==> q.filter.objectNumber.Some? && |q.order| == 1)
  }

  ghost predicate DistinctFields(order: seq<Order>) {
    forall i, j | 0 <= i < j < |order| :: order[i].field != order[j].field
  }

  ghost predicate ValidOrder(q: Request) {
    && (q.order != [] || q.offset > 0 ==> q.result.shape !in {"graph", "kv"})
    && (forall o | o in q.order :: ValidKey(o, q))
    && DistinctFields(q.order)
  }

  ghost predicate ValidRequest(q: Request) {
    && ValidFilter(q.filter) && ValidReturn(q.result)
    && (q.filter.objectNumber.Some? ==> q.result.shape in {"table", "document", "columnar"})
    && q.consistency in {"", STRICT, "fresh", "allow_stale"}
    && ValidOptimization(q.optimization) && ValidConstraint(q.constraint)
    && (q.limit.Some? ==> q.limit.value >= 1) && q.offset >= 0
    && ValidOrder(q)
  }

  // ------------------------------------------------------------ the checks

  datatype Code =
    | IncompatibleFields | UnsupportedValue | InvalidLimit | InvalidOffset | UnsafeMatchAll | MissingField
    | InvalidUTF8 | DuplicateValue | InvalidIdentity | InvalidOrder

  datatype Invalid = Invalid(code: Code, path: string)

  function Unless(ok: bool, code: Code, path: string): (e: Option<Invalid>)
    ensures e.None? <==> ok
  {
    if ok then None else Some(Invalid(code, path))
  }

  function At(path: string, i: nat): string { path + "[" + FormatUint(i) + "]" }

  predicate UsedBefore(values: seq<string>, i: nat)
    requires i < |values|
  {
    values[i] in values[..i]
  }

  /** A label of a list; a single one is named by the position itself. */
  function LabelError(values: seq<string>, path: string, i: nat): (e: Option<Invalid>)
    requires i < |values|
    ensures e.None? <==> ValidLabel(values[i]) && !UsedBefore(values, i)
  {
    var item := if |values| > 1 then At(path, i) else path;
    OrElse(Unless(values[i] != "", MissingField, item),
    OrElse(Unless(ValidUtf8(values[i]), InvalidUTF8, item), Unless(!UsedBefore(values, i), DuplicateValue, item)))
  }

  function LabelsFrom(values: seq<string>, path: string, i: nat): (e: Option<Invalid>)
    ensures e.None? <==> forall k | i <= k < |values| :: ValidLabel(values[k]) && !UsedBefore(values, k)
    decreases |values| - i
  {
    if i >= |values| then None else OrElse(LabelError(values, path, i), LabelsFrom(values, path, i + 1))
  }

  function LabelsError(l: Labels, path: string): Option<Invalid> {
    if l.None? then None
    else OrElse(Unless(l.value != [], MissingField, path), LabelsFrom(l.value, path, 0))
  }

  lemma NoneUsedBefore(values: seq<string>)
    ensures NoRepeats(values) <==> forall i | 0 <= i < |values| :: !UsedBefore(values, i)
  {
    if forall i | 0 <= i < |values| :: !UsedBefore(values, i) {
      forall i, j | 0 <= i < j < |values| ensures values[i] != values[j] {
        assert !UsedBefore(values, j);
        assert values[..j][i] == values[i];
      }
    }
  }

  function RangeError(f: Filter): Option<Invalid> {
    var path := "where.object_number";
    if f.objectNumber.None? then None
    else
      var r := f.objectNumber.value;
      OrElse(Unless(f.obj.None?, IncompatibleFields, path),
      OrElse(Unless(!(r.gt.Some? && r.gte.Some?), IncompatibleFields, path),
             Unless(!(r.lt.Some? && r.lte.Some?), IncompatibleFields, path)))
  }

  function FilterError(f: Filter): Option<Invalid> {
    if f.all then Unless(!HasPosition(f), IncompatibleFields, "where")
    else
      OrElse(Unless(HasPosition(f), UnsafeMatchAll, "where"),
      OrElse(LabelsError(f.subject, "where.subject"),
      OrElse(LabelsError(f.pred, "where.predicate"),
      OrElse(LabelsError(f.obj, "where.object"), RangeError(f)))))
  }

  function ReturnError(r: Return): (e: Option<Invalid>)
    ensures e.None? <==> ValidReturn(r)
  {
    OrElse(Unless(!r.invalid, IncompatibleFields, "return.include_facts"),
    OrElse(Unless(r.shape in {"table", "graph", "document", "kv", "columnar"}, MissingField, "return"),
           Unless(!r.inclusion.OtherInclusion?, UnsupportedValue, "return.include_facts")))
  }

  function ConstraintError(c: ReadConstraint): (e: Option<Invalid>)
    ensures e.None? <==> ValidConstraint(c)
  {
    match c
    case Unconstrained => None
    case ReadAfter(watermark, log) =>
      OrElse(Unless(watermark != 0, MissingField, "required_watermark"),
             Unless(ValidLogIdentity(log), InvalidIdentity, "log_identity"))
    case OnLog(log) => Unless(ValidLogIdentity(log), InvalidIdentity, "log_identity")
  }

  predicate FieldUsedBefore(order: seq<Order>, i: nat)
    requires i < |order|
  {
    exists j | 0 <= j < i :: order[j].field == order[i].field
  }

  lemma NoFieldUsedBefore(order: seq<Order>)
    ensures DistinctFields(order) <==> forall i | 0 <= i < |order| :: !FieldUsedBefore(order, i)
  {
    if forall i | 0 <= i < |order| :: !FieldUsedBefore(order, i) {
      forall i, j | 0 <= i < j < |order| ensures order[i].field != order[j].field {
        assert !FieldUsedBefore(order, j);
      }
    }
  }

  function KeyError(q: Request, i: nat): Option<Invalid>
    requires i < |q.order|
  {
    var o, path := q.order[i], At("order", i);
    OrElse(Unless(o.direction in {"", "asc", "desc"}, InvalidOrder, path + ".direction"),
    OrElse(Unless(!FieldUsedBefore(q.order, i), DuplicateValue, path + ".by"),
           if o.field == OBJECT_NUMBER then Unless(q.filter.objectNumber.Some?, IncompatibleFields, path + ".by")
           else Unless(o.field in {"id", "subject", "predicate", "object"}, InvalidOrder, path + ".by")))
  }

  function KeysFrom(q: Request, i: nat): (e: Option<Invalid>)
    ensures e.None? <==> forall k | i <= k < |q.order| :: KeyError(q, k).None?
    decreases |q.order| - i
  {
    if i >= |q.order| then None else OrElse(KeyError(q, i), KeysFrom(q, i + 1))
  }

  predicate Numeric(order: seq<Order>) { exists i | 0 <= i < |order| :: order[i].field == OBJECT_NUMBER }

  function OrderError(q: Request): Option<Invalid> {
    OrElse(Unless((q.order != [] || q.offset > 0) ==> q.result.shape !in {"graph", "kv"}, IncompatibleFields, "order"),
    OrElse(KeysFrom(q, 0), Unless(Numeric(q.order) ==> |q.order| == 1, IncompatibleFields, "order")))
  }

  lemma OrderExactly(q: Request)
    ensures OrderError(q).None? <==> ValidOrder(q)
  {
    NoFieldUsedBefore(q.order);
    hide FieldUsedBefore, DistinctFields, At;
    if OrderError(q).None? {
      forall o | o in q.order ensures ValidKey(o, q) {
        var i :| 0 <= i < |q.order| && q.order[i] == o;
        assert KeyError(q, i).None?;
      }
      assert forall i | 0 <= i < |q.order| :: KeyError(q, i).None? ==> !FieldUsedBefore(q.order, i);
    }
    if ValidOrder(q) {
      forall i | 0 <= i < |q.order| ensures KeyError(q, i).None? {
        assert q.order[i] in q.order;
      }
      if Numeric(q.order) {
        var i :| 0 <= i < |q.order| && q.order[i].field == OBJECT_NUMBER;
        assert q.order[i] in q.order;
      }
    }
  }

  /** The first rule a query violates. */
  function RequestError(q: Request): Option<Invalid> {
    OrElse(FilterError(q.filter),
    OrElse(ReturnError(q.result),
    OrElse(Unless(q.filter.objectNumber.Some? ==> q.result.shape in {"table", "document", "columnar"},
                  IncompatibleFields, "where.object_number"),
    OrElse(Unless(q.consistency in {"", STRICT, "fresh", "allow_stale"}, UnsupportedValue, "consistency"),
    OrElse(Unless(ValidOptimization(q.optimization), UnsupportedValue, "optimize.representation"),
    OrElse(ConstraintError(q.constraint),
    OrElse(Unless(q.limit.Some? ==> q.limit.value >= 1, InvalidLimit, "limit"),
    OrElse(Unless(q.offset >= 0, InvalidOffset, "offset"), OrderError(q)))))))))
  }

  lemma FilterExactly(f: Filter)
    ensures FilterError(f).None? <==> ValidFilter(f)
  {
  }

  lemma NoErrorExactlyWhenValid(q: Request)
    ensures RequestError(q).None? <==> ValidRequest(q)
  {
    hide FilterError, ValidFilter, ReturnError, ValidReturn, ConstraintError, ValidConstraint, OrderError, ValidOrder,
      ValidOptimization;
    FilterExactly(q.filter);
    OrderExactly(q);
  }

  // ----------------------------------------------------------- the methods

  method ValidateLabels(l: Labels, path: string) returns (error: Option<Invalid>)
    ensures error == LabelsError(l, path)
    ensures error.None? <==> ValidLabels(l)
  {
    if l.None? {
      return None;
    }
    var values := l.value;
    if |values| == 0 {
      return Some(Invalid(MissingField, path));
    }
    var seen: set<string> := {};
    var i := 0;
    hide ValidUtf8;
    while i < |values|
      invariant 0 <= i <= |values|
      invariant forall x :: x in seen <==> x in values[..i]
      invariant LabelsFrom(values, path, 0) == LabelsFrom(values, path, i)
    {
      var item := path;
      if |values| > 1 {
        item := At(path, i);
      }
      if values[i] == "" {
        return Some(Invalid(MissingField, item));
      }
      if !ValidUtf8(values[i]) {
        return Some(Invalid(InvalidUTF8, item));
      }
      if values[i] in seen {
        return Some(Invalid(DuplicateValue, item));
      }
      seen := seen + {values[i]};
      assert values[..i + 1] == values[..i] + [values[i]];
      i := i + 1;
    }
    error := None;
  }

  lemma KeysNext(q: Request, i: nat)
    ensures KeysFrom(q, i) == if i >= |q.order| then None else OrElse(KeyError(q, i), KeysFrom(q, i + 1))
  {
  }

  method ValidateOrder(q: Request) returns (error: Option<Invalid>)
    ensures error == OrderError(q)
    ensures error.None? <==> ValidOrder(q)
  {
    OrderExactly(q);
    hide ValidOrder, At, KeysFrom;
    if (|q.order| > 0 || q.offset > 0) && (q.result.shape == "graph" || q.result.shape == "kv") {
      return Some(Invalid(IncompatibleFields, "order"));
    }
    var seen: set<string> := {};
    var numeric := false;
    var i := 0;
    while i < |q.order|
      invariant 0 <= i <= |q.order|
      invariant seen == set k | 0 <= k < i :: q.order[k].field
      invariant numeric <==> exists k | 0 <= k < i :: q.order[k].field == OBJECT_NUMBER
      invariant KeysFrom(q, 0) == KeysFrom(q, i)
    {
      KeysNext(q, i);
      var o, path := q.order[i], At("order", i);
      if o.direction != "" && o.direction != "asc" && o.direction != "desc" {
        return Some(Invalid(InvalidOrder, path + ".direction"));
      }
      if o.field in seen {
        return Some(Invalid(DuplicateValue, path + ".by"));
      }
      seen := seen + {o.field};
      if o.field == OBJECT_NUMBER {
        numeric := true;
        if q.filter.objectNumber.None? {
          return Some(Invalid(IncompatibleFields, path + ".by"));
        }
      } else if o.field != "id" && o.field != "subject" && o.field != "predicate" && o.field != "object" {
        return Some(Invalid(InvalidOrder, path + ".by"));
      }
      i := i + 1;
    }
    KeysNext(q, i);
    if numeric && |q.order| != 1 {
      return Some(Invalid(IncompatibleFields, "order"));
    }
    error := None;
  }

  method ValidateFilter(f: Filter) returns (error: Option<Invalid>)
    ensures error == FilterError(f)
    ensures error.None? <==> ValidFilter(f)
  {
    FilterExactly(f);
    hide LabelsError, ValidLabels, ValidFilter;
    if f.all {
      return Unless(!HasPosition(f), IncompatibleFields, "where");
    }
    if !HasPosition(f) {
      return Some(Invalid(UnsafeMatchAll, "where"));
    }
    error := ValidateLabels(f.subject, "where.subject");
    if error.Some? {
      return;
    }
    error := ValidateLabels(f.pred, "where.predicate");
    if error.Some? {
      return;
    }
    error := ValidateLabels(f.obj, "where.object");
    if error.Some? {
      return;
    }
    error := RangeError(f);
  }

  method Validate(q: Request) returns (error: Option<Invalid>)
    ensures error == RequestError(q)
    ensures error.None? <==> ValidRequest(q)
  {
    NoErrorExactlyWhenValid(q);
    hide FilterError, ReturnError, ConstraintError, OrderError, ValidRequest, ValidOptimization;
    error := ValidateFilter(q.filter);
    if error.Some? {
      return;
    }
    error := ReturnError(q.result);
    if error.Some? {
      return;
    }
    if q.filter.objectNumber.Some? && q.result.shape !in {"table", "document", "columnar"} {
      return Some(Invalid(IncompatibleFields, "where.object_number"));
    }
    if q.consistency !in {"", STRICT, "fresh", "allow_stale"} {
      return Some(Invalid(UnsupportedValue, "consistency"));
    }
    if !ValidOptimization(q.optimization) {
      return Some(Invalid(UnsupportedValue, "optimize.representation"));
    }
    error := ConstraintError(q.constraint);
    if error.Some? {
      return;
    }
    if q.limit.Some? && q.limit.value < 1 {
      return Some(Invalid(InvalidLimit, "limit"));
    }
    if q.offset < 0 {
      return Some(Invalid(InvalidOffset, "offset"));
    }
    error := ValidateOrder(q);
  }
}
