/** inspectJSON: the token walk that refuses repeated keys and deep nesting, and finds the first null. */
module StrictJson {
  import opened Wrappers
  import opened Text
  import opened Json

  const MAX_JSON_DEPTH := 64

  // What json.Decoder.Token yields.  Broken stands where it reports a syntax
  // error, closing telling whether a closing bracket is what it trips over; at
  // the end of input it reports an error, too.
  datatype Token =
    | BeginObject | EndObject | BeginArray | EndArray | NullToken | StringToken(s: string) | Scalar
    | Broken(closing: bool)

  datatype Fault = MaxDepth(path: string) | InvalidJson(path: string) | DuplicateField(path: string)

  function AppendField(path: string, field: string): string {
    if path == "" then field else path + "." + field
  }

  function AppendIndex(path: string, index: nat): string {
    path + "[" + FormatUint(index) + "]"
  }

  function JsonPath(path: string): (r: string)
    ensures r != ""
  {
    if path == "" then "input" else path
  }

  // ------------------------------------------------- the walk as a function

  // Either the walk stopped at a fault, or it consumed tokens up to rest.
  datatype Walked = Stopped(fault: Fault) | Consumed(rest: seq<Token>, firstNull: Option<string>)

  /** Decoder.More: something other than a closing bracket comes next. */
  predicate More(tokens: seq<Token>) {
    tokens != [] && !tokens[0].EndObject? && !tokens[0].EndArray? && tokens[0] != Broken(true)
  }

  predicate Fails(tokens: seq<Token>) { tokens == [] || tokens[0].Broken? }

  function Walk(tokens: seq<Token>, depth: nat, path: string): (r: Walked)
    ensures r.Consumed? ==> |r.rest| < |tokens|
    decreases |tokens|, 0
  {
    if depth > MAX_JSON_DEPTH then Stopped(MaxDepth(JsonPath(path)))
    else if Fails(tokens) then Stopped(InvalidJson(JsonPath(path)))
    else
      match tokens[0]
      case NullToken => Consumed(tokens[1..], Some(JsonPath(path)))
      case StringToken(_) => Consumed(tokens[1..], None)
      case Scalar => Consumed(tokens[1..], None)
      case BeginObject => WalkFields(tokens[1..], depth, path, {})
      case BeginArray => WalkItems(tokens[1..], depth, path, 0)
      case _ => Stopped(InvalidJson(JsonPath(path)))
  }

  function WalkFields(tokens: seq<Token>, depth: nat, path: string, seen: set<string>): (r: Walked)
    ensures r.Consumed? ==> |r.rest| < |tokens|
    decreases |tokens|, 1
  {
    if !More(tokens) then
      if Fails(tokens) then Stopped(InvalidJson(JsonPath(path))) else Consumed(tokens[1..], None)
    else if !tokens[0].StringToken? then Stopped(InvalidJson(JsonPath(path)))
    else
      var key := tokens[0].s;
      var child := AppendField(path, key);
      if key in seen then Stopped(DuplicateField(child))
      else
        var value := Walk(tokens[1..], depth + 1, child);
        if value.Stopped? then value
        else
          var others := WalkFields(value.rest, depth, path, seen + {key});
          if others.Stopped? then others else others.(firstNull := OrElse(value.firstNull, others.firstNull))
  }

  function WalkItems(tokens: seq<Token>, depth: nat, path: string, index: nat): (r: Walked)
    ensures r.Consumed? ==> |r.rest| < |tokens|
    decreases |tokens|, 1
  {
    if !More(tokens) then
      if Fails(tokens) then Stopped(InvalidJson(JsonPath(path))) else Consumed(tokens[1..], None)
    else
      var value := Walk(tokens, depth + 1, AppendIndex(path, index));
      if value.Stopped? then value
      else
        var others := WalkItems(value.rest, depth, path, index + 1);
        if others.Stopped? then others else others.(firstNull := OrElse(value.firstNull, others.firstNull))
  }

  // ------------------------------------------------------ the walk as code

  /** The decoder state and the captured nullPath variable of inspectJSON. */
  class Inspector {
    var tokens: seq<Token>
    var nullPath: string

    constructor (tokens: seq<Token>)
      ensures this.tokens == tokens && nullPath == ""
    {
      this.tokens := tokens;
      nullPath := "";
    }

    method NextToken() returns (token: Option<Token>)
      modifies this`tokens
      ensures old(Fails(tokens)) ==> token == None && tokens == old(tokens)
      ensures !old(Fails(tokens)) ==> token == Some(old(tokens)[0]) && tokens == old(tokens)[1..]
    {
      if Fails(tokens) {
        return None;
      }
      token := Some(tokens[0]);
      tokens := tokens[1..];
    }

    /** What the receiver looks like, and what is returned, after a walk that the function describes. */
    twostate predicate Matches(new r: Walked, new fault: Option<Fault>)
      reads this
    {
      match r
      case Stopped(f) => fault == Some(f)
      case Consumed(rest, firstNull) =>
        && fault == None && tokens == rest
        && nullPath == (if old(nullPath) == "" && firstNull.Some? then firstNull.value else old(nullPath))
    }

    method WalkValue(depth: nat, path: string) returns (fault: Option<Fault>)
      modifies this
      ensures Matches(old(Walk(tokens, depth, path)), fault)
      ensures |tokens| <= old(|tokens|)
      decreases |tokens|, 0
    {
      if depth > MAX_JSON_DEPTH {
        return Some(MaxDepth(JsonPath(path)));
      }
      var token := NextToken();
      if token.None? {
        return Some(InvalidJson(JsonPath(path)));
      }
      match token.value {
        case NullToken =>
          if nullPath == "" {
            nullPath := JsonPath(path);
          }
          fault := None;
        case StringToken(_) => fault := None;
        case Scalar => fault := None;
        case BeginObject => fault := WalkObject(depth, path);
        case BeginArray => fault := WalkArray(depth, path);
        case _ => fault := Some(InvalidJson(JsonPath(path)));
      }
    }

    method WalkObject(depth: nat, path: string) returns (fault: Option<Fault>)
      modifies this
      ensures Matches(old(WalkFields(tokens, depth, path, {})), fault)
      ensures |tokens| <= old(|tokens|)
      decreases |tokens|, 1
    {
      var seen: set<string> := {};
      ghost var before: Option<string> := None;
      while More(tokens)
        invariant |tokens| <= old(|tokens|)
        invariant nullPath == (if old(nullPath) == "" && before.Some? then before.value else old(nullPath))
        invariant before.Some? ==> before.value != ""
        invariant var all, others := old(WalkFields(tokens, depth, path, {})), WalkFields(tokens, depth, path, seen);
                  all == if others.Stopped? then others else others.(firstNull := OrElse(before, others.firstNull))
        decreases |tokens|
      {
        var token := NextToken();
        if token.None? {
          return Some(InvalidJson(JsonPath(path)));
        }
        if !token.value.StringToken? {
          return Some(InvalidJson(JsonPath(path)));
        }
        var key := token.value.s;
        var child := AppendField(path, key);
        if key in seen {
          return Some(DuplicateField(child));
        }
        seen := seen + {key};
        ghost var value := Walk(tokens, depth + 1, child);
        NullPathsAreNotEmpty(tokens, depth + 1, child);
        fault := WalkValue(depth + 1, child);
        if fault.Some? {
          return;
        }
        before := OrElse(before, value.firstNull);
      }
      var end := NextToken();
      fault := if end.None? then Some(InvalidJson(JsonPath(path))) else None;
    }

    method WalkArray(depth: nat, path: string) returns (fault: Option<Fault>)
      modifies this
      ensures Matches(old(WalkItems(tokens, depth, path, 0)), fault)
      ensures |tokens| <= old(|tokens|)
      decreases |tokens|, 1
    {
      var index := 0;
      ghost var before: Option<string> := None;
      while More(tokens)
        invariant |tokens| <= old(|tokens|)
        invariant nullPath == (if old(nullPath) == "" && before.Some? then before.value else old(nullPath))
        invariant before.Some? ==> before.value != ""
        invariant var all, others := old(WalkItems(tokens, depth, path, 0)), WalkItems(tokens, depth, path, index);
                  all == if others.Stopped? then others else others.(firstNull := OrElse(before, others.firstNull))
        decreases |tokens|
      {
        var child := AppendIndex(path, index);
        ghost var value := Walk(tokens, depth + 1, child);
        NullPathsAreNotEmpty(tokens, depth + 1, child);
        fault := WalkValue(depth + 1, child);
        if fault.Some? {
          return;
        }
        before := OrElse(before, value.firstNull);
        index := index + 1;
      }
      var end := NextToken();
      fault := if end.None? then Some(InvalidJson(JsonPath(path))) else None;
    }
  }

  lemma {:induction false} NullPathsAreNotEmpty(tokens: seq<Token>, depth: nat, path: string)
    ensures var r := Walk(tokens, depth, path); r.Consumed? && r.firstNull.Some? ==> r.firstNull.value != ""
    decreases |tokens|, 0
  {
    if depth <= MAX_JSON_DEPTH && tokens != [] {
      if tokens[0].BeginObject? {
        FieldNullPathsAreNotEmpty(tokens[1..], depth, path, {});
      } else if tokens[0].BeginArray? {
        ItemNullPathsAreNotEmpty(tokens[1..], depth, path, 0);
      }
    }
  }

  lemma {:induction false} FieldNullPathsAreNotEmpty(tokens: seq<Token>, depth: nat, path: string, seen: set<string>)
    ensures var r := WalkFields(tokens, depth, path, seen);
            r.Consumed? && r.firstNull.Some? ==> r.firstNull.value != ""
    decreases |tokens|, 1
  {
    if More(tokens) && tokens[0].StringToken? && tokens[0].s !in seen {
      var child := AppendField(path, tokens[0].s);
      NullPathsAreNotEmpty(tokens[1..], depth + 1, child);
      var value := Walk(tokens[1..], depth + 1, child);
      if value.Consumed? {
        FieldNullPathsAreNotEmpty(value.rest, depth, path, seen + {tokens[0].s});
      }
    }
  }

  lemma {:induction false} ItemNullPathsAreNotEmpty(tokens: seq<Token>, depth: nat, path: string, index: nat)
    ensures var r := WalkItems(tokens, depth, path, index);
            r.Consumed? && r.firstNull.Some? ==> r.firstNull.value != ""
    decreases |tokens|, 1
  {
    if More(tokens) {
      NullPathsAreNotEmpty(tokens, depth + 1, AppendIndex(path, index));
      var value := Walk(tokens, depth + 1, AppendIndex(path, index));
      if value.Consumed? {
        ItemNullPathsAreNotEmpty(value.rest, depth, path, index + 1);
      }
    }
  }

  /** inspectJSON on one token stream. */
  method InspectJSON(tokens: seq<Token>) returns (nullPath: string, fault: Option<Fault>)
    ensures var r := Walk(tokens, 1, "");
            match r
            case Stopped(f) => fault == Some(f)
            case Consumed(_, firstNull) =>
              fault == None && (nullPath == if firstNull.Some? then firstNull.value else "")
  {
    var inspector := new Inspector(tokens);
    fault := inspector.WalkValue(1, "");
    nullPath := inspector.nullPath;
  }

  // --------------------------------------------------- documents as trees

  function Tokens(t: Json): seq<Token> {
    match t
    case Null => [NullToken]
    case Bool(_) => [Scalar]
    case Num(_) => [Scalar]
    case Str(s) => [StringToken(s)]
    case Arr(items) => [BeginArray] + ItemTokens(items) + [EndArray]
    case Obj(fields) => [BeginObject] + FieldTokens(fields) + [EndObject]
  }

  function ItemTokens(items: seq<Json>): seq<Token> {
    if items == [] then [] else Tokens(items[0]) + ItemTokens(items[1..])
  }

  function FieldTokens(fields: seq<Field>): seq<Token> {
    if fields == [] then []
    else [StringToken(fields[0].name)] + Tokens(fields[0].value) + FieldTokens(fields[1..])
  }

  function Max(a: nat, b: nat): nat { if a > b then a else b }

  /** Levels of nesting; a scalar or an empty container is one level. */
  function Depth(t: Json): nat {
    match t
    case Arr(items) => 1 + ItemsDepth(items)
    case Obj(fields) => 1 + FieldsDepth(fields)
    case _ => 1
  }

  function ItemsDepth(items: seq<Json>): nat {
    if items == [] then 0 else Max(Depth(items[0]), ItemsDepth(items[1..]))
  }

  function FieldsDepth(fields: seq<Field>): nat {
    if fields == [] then 0 else Max(Depth(fields[0].value), FieldsDepth(fields[1..]))
  }

  predicate Named(fields: seq<Field>, name: string) {
    exists i | 0 <= i < |fields| :: fields[i].name == name
  }

  /** No object at any level repeats a decoded key (RFC 8259, section 4). */
  predicate DuplicateFree(t: Json) {
    match t
    case Arr(items) => ItemsDuplicateFree(items)
    case Obj(fields) => FieldsDuplicateFree(fields)
    case _ => true
  }

  predicate ItemsDuplicateFree(items: seq<Json>) {
    items == [] || (DuplicateFree(items[0]) && ItemsDuplicateFree(items[1..]))
  }

  predicate FieldsDuplicateFree(fields: seq<Field>) {
    fields == []
    || (!Named(fields[1..], fields[0].name) && DuplicateFree(fields[0].value) && FieldsDuplicateFree(fields[1..]))
  }

  /** The path of the first null in document order. */
  function FirstNull(t: Json, path: string): Option<string> {
    match t
    case Null => Some(JsonPath(path))
    case Arr(items) => FirstNullItem(items, path, 0)
    case Obj(fields) => FirstNullField(fields, path)
    case _ => None
  }

  function FirstNullItem(items: seq<Json>, path: string, index: nat): Option<string> {
    if items == [] then None
    else OrElse(FirstNull(items[0], AppendIndex(path, index)), FirstNullItem(items[1..], path, index + 1))
  }

  function FirstNullField(fields: seq<Field>, path: string): Option<string> {
    if fields == [] then None
    else OrElse(FirstNull(fields[0].value, AppendField(path, fields[0].name)), FirstNullField(fields[1..], path))
  }

  /** The first fault of a document in document order: the first key met again, or value met too deep. */
  function TreeFault(t: Json, depth: nat, path: string): Option<Fault> {
    if depth > MAX_JSON_DEPTH then Some(MaxDepth(JsonPath(path)))
    else
      match t
      case Arr(items) => ItemsFault(items, depth, path, 0)
      case Obj(fields) => FieldsFault(fields, depth, path, {})
      case _ => None
  }

  function ItemsFault(items: seq<Json>, depth: nat, path: string, index: nat): Option<Fault> {
    if items == [] then None
    else
      var fault := TreeFault(items[0], depth + 1, AppendIndex(path, index));
      if fault.Some? then fault else ItemsFault(items[1..], depth, path, index + 1)
  }

  function FieldsFault(fields: seq<Field>, depth: nat, path: string, seen: set<string>): Option<Fault> {
    if fields == [] then None
    else
      var child := AppendField(path, fields[0].name);
      if fields[0].name in seen then Some(DuplicateField(child))
      else
        var fault := TreeFault(fields[0].value, depth + 1, child);
        if fault.Some? then fault else FieldsFault(fields[1..], depth, path, seen + {fields[0].name})
  }

  lemma {:induction false} FaultlessExactlyWhen(t: Json, depth: nat, path: string)
    requires depth >= 1
    ensures TreeFault(t, depth, path).None? <==> DuplicateFree(t) && depth + Depth(t) - 1 <= MAX_JSON_DEPTH
    decreases t, 0
  {
    match t
    case Arr(items) => ItemsFaultlessExactlyWhen(items, depth, path, 0);
    case Obj(fields) => FieldsFaultlessExactlyWhen(fields, depth, path, {});
    case _ =>
  }

  lemma {:induction false} ItemsFaultlessExactlyWhen(items: seq<Json>, depth: nat, path: string, index: nat)
    requires depth >= 1
    ensures depth <= MAX_JSON_DEPTH ==>
              (ItemsFault(items, depth, path, index).None? <==>
               ItemsDuplicateFree(items) && depth + ItemsDepth(items) <= MAX_JSON_DEPTH)
    decreases items, 1
  {
    if items != [] {
      FaultlessExactlyWhen(items[0], depth + 1, AppendIndex(path, index));
      ItemsFaultlessExactlyWhen(items[1..], depth, path, index + 1);
    }
  }

  ghost predicate NoneNamed(fields: seq<Field>, names: set<string>) {
    forall name | name in names :: !Named(fields, name)
  }

  lemma {:induction false} FieldsFaultlessExactlyWhen(fields: seq<Field>, depth: nat, path: string, seen: set<string>)
    requires depth >= 1
    ensures depth <= MAX_JSON_DEPTH ==>
              (FieldsFault(fields, depth, path, seen).None? <==>
               FieldsDuplicateFree(fields) && NoneNamed(fields, seen) && depth + FieldsDepth(fields) <= MAX_JSON_DEPTH)
    decreases fields, 1
  {
    if fields != [] {
      FaultlessExactlyWhen(fields[0].value, depth + 1, AppendField(path, fields[0].name));
      FieldsFaultlessExactlyWhen(fields[1..], depth, path, seen + {fields[0].name});
    }
  }

  lemma TokensStartOpen(t: Json)
    ensures More(Tokens(t))
  {
  }

  lemma {:induction false} WalkRefines(t: Json, suffix: seq<Token>, depth: nat, path: string)
    ensures var r := Walk(Tokens(t) + suffix, depth, path);
            var fault := TreeFault(t, depth, path);
            r == if fault.Some? then Stopped(fault.value) else Consumed(suffix, FirstNull(t, path))
    decreases t, 0
  {
    var all := Tokens(t) + suffix;
    match t
    case Arr(items) =>
      assert all[1..] == ItemTokens(items) + ([EndArray] + suffix);
      WalkItemsRefines(items, suffix, depth, path, 0);
    case Obj(fields) =>
      assert all[1..] == FieldTokens(fields) + ([EndObject] + suffix);
      WalkFieldsRefines(fields, suffix, depth, path, {});
    case _ =>
      assert all[1..] == suffix;
  }

  lemma {:induction false} WalkItemsRefines(items: seq<Json>, suffix: seq<Token>, depth: nat, path: string, index: nat)
    ensures var r := WalkItems(ItemTokens(items) + ([EndArray] + suffix), depth, path, index);
            var fault := ItemsFault(items, depth, path, index);
            r == if fault.Some? then Stopped(fault.value) else Consumed(suffix, FirstNullItem(items, path, index))
    decreases items, 1
  {
    hide Walk, Tokens, TreeFault, FirstNull, AppendIndex, JsonPath;
    var end := [EndArray] + suffix;
    if items == [] {
      assert ItemTokens(items) + end == end && end[1..] == suffix;
    } else {
      var others := ItemTokens(items[1..]) + end;
      assert ItemTokens(items) + end == Tokens(items[0]) + others;
      TokensStartOpen(items[0]);
      WalkRefines(items[0], others, depth + 1, AppendIndex(path, index));
      WalkItemsRefines(items[1..], suffix, depth, path, index + 1);
    }
  }

  lemma {:induction false} WalkFieldsRefines(fields: seq<Field>, suffix: seq<Token>, depth: nat, path: string,
                                             seen: set<string>)
    ensures var r := WalkFields(FieldTokens(fields) + ([EndObject] + suffix), depth, path, seen);
            var fault := FieldsFault(fields, depth, path, seen);
            r == if fault.Some? then Stopped(fault.value) else Consumed(suffix, FirstNullField(fields, path))
    decreases fields, 1
  {
    hide Walk, Tokens, TreeFault, FirstNull, AppendField, JsonPath;
    var end := [EndObject] + suffix;
    if fields == [] {
      assert FieldTokens(fields) + end == end && end[1..] == suffix;
    } else {
      var name, value := fields[0].name, fields[0].value;
      var others := FieldTokens(fields[1..]) + end;
      var all := FieldTokens(fields) + end;
      assert all == [StringToken(name)] + (Tokens(value) + others);
      assert all[1..] == Tokens(value) + others;
      WalkRefines(value, others, depth + 1, AppendField(path, name));
      WalkFieldsRefines(fields[1..], suffix, depth, path, seen + {name});
    }
  }

  /**
   The walk on a document followed by anything: it succeeds exactly when the
   document has no repeated key at any level and at most 64 levels; then it has
   consumed the document and nothing else, and reports the first null.  Otherwise
   it stops at the first fault in document order.
   */
  lemma WalkRefinesTheTree(t: Json, suffix: seq<Token>)
    ensures var r := Walk(Tokens(t) + suffix, 1, "");
            if DuplicateFree(t) && Depth(t) <= MAX_JSON_DEPTH then r == Consumed(suffix, FirstNull(t, ""))
            else TreeFault(t, 1, "").Some? && r == Stopped(TreeFault(t, 1, "").value)
  {
    WalkRefines(t, suffix, 1, "");
    FaultlessExactlyWhen(t, 1, "");
  }
}
