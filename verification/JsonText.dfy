/**
 The compact text of a JSON value, over any way of quoting strings.  The text is no
 shorter than the strings in it, it is valid UTF-8 if quoted strings are, and where
 every string ends where it says, a value ends where it says too, so that different
 values have different texts.
 */
module JsonText {
  import opened Text
  import opened Json

  function Write(j: Json, quote: string -> string): string {
    match j
    case Null => "null"
    case Bool(b) => if b then "true" else "false"
    case Num(literal) => literal
    case Str(s) => quote(s)
    case Arr(items) => "[" + WriteItems(items, quote) + "]"
    case Obj(fields) => "{" + WriteFields(fields, quote) + "}"
  }

  function WriteItems(items: seq<Json>, quote: string -> string): string {
    if items == [] then ""
    else Write(items[0], quote) + (if |items| > 1 then "," else "") + WriteItems(items[1..], quote)
  }

  function WriteFields(fields: seq<Field>, quote: string -> string): string {
    if fields == [] then ""
    else
      quote(fields[0].name) + ":" + Write(fields[0].value, quote) + (if |fields| > 1 then "," else "")
      + WriteFields(fields[1..], quote)
  }

  /** A lower bound of the text: the bytes of its strings, and one more for each object. */
  function Weight(j: Json): nat {
    match j
    case Str(s) => |s|
    case Arr(items) => ItemsWeight(items)
    case Obj(fields) => 1 + FieldsWeight(fields)
    case _ => 0
  }

  function ItemsWeight(items: seq<Json>): nat {
    if items == [] then 0 else Weight(items[0]) + ItemsWeight(items[1..])
  }

  function FieldsWeight(fields: seq<Field>): nat {
    if fields == [] then 0 else Weight(fields[0].value) + FieldsWeight(fields[1..])
  }

  /** Quoting adds two quotation marks and never shortens a string. */
  ghost predicate NeverShortens(quote: string -> string) {
    forall s :: |quote(s)| >= |s| + 2
  }

  lemma {:induction false} TextIsLongEnough(j: Json, quote: string -> string)
    requires NeverShortens(quote)
    ensures |Write(j, quote)| >= Weight(j)
    decreases j, 0
  {
    match j
    case Arr(items) => ItemsAreLongEnough(items, quote);
    case Obj(fields) => FieldsAreLongEnough(fields, quote);
    case _ =>
  }

  lemma {:induction false} ItemsAreLongEnough(items: seq<Json>, quote: string -> string)
    requires NeverShortens(quote)
    ensures |WriteItems(items, quote)| >= ItemsWeight(items)
    decreases items, 1
  {
    if items != [] {
      TextIsLongEnough(items[0], quote);
      ItemsAreLongEnough(items[1..], quote);
    }
  }

  lemma {:induction false} FieldsAreLongEnough(fields: seq<Field>, quote: string -> string)
    requires NeverShortens(quote)
    ensures |WriteFields(fields, quote)| >= FieldsWeight(fields)
    decreases fields, 1
  {
    if fields != [] {
      TextIsLongEnough(fields[0].value, quote);
      FieldsAreLongEnough(fields[1..], quote);
    }
  }

  ghost predicate QuotesInUtf8(quote: string -> string) {
    forall s :: ValidUtf8(quote(s))
  }

  lemma {:induction false} TextIsUtf8(j: Json, quote: string -> string)
    requires QuotesInUtf8(quote)
    ensures ValidUtf8(Write(j, quote))
    decreases j, 0
  {
    hide ValidUtf8;
    match j
    case Null => AsciiIsValidUtf8("null");
    case Bool(b) =>
      AsciiIsValidUtf8("true");
      AsciiIsValidUtf8("false");
    case Num(literal) => AsciiIsValidUtf8(literal);
    case Str(_) =>
    case Arr(items) =>
      ItemsAreUtf8(items, quote);
      Bracketed("[", WriteItems(items, quote), "]");
    case Obj(fields) =>
      FieldsAreUtf8(fields, quote);
      Bracketed("{", WriteFields(fields, quote), "}");
  }

  lemma Bracketed(open: string, s: string, close: string)
    requires Ascii(open) && Ascii(close) && ValidUtf8(s)
    ensures ValidUtf8(open + s + close)
  {
    hide ValidUtf8;
    AsciiIsValidUtf8(open);
    AsciiIsValidUtf8(close);
    ValidUtf8Concatenates(open, s);
    ValidUtf8Concatenates(open + s, close);
  }

  /** One text, a separator, another text. */
  lemma Separated(first: string, separator: string, rest: string)
    requires ValidUtf8(first) && Ascii(separator) && ValidUtf8(rest)
    ensures ValidUtf8(first + separator + rest)
  {
    hide ValidUtf8;
    AsciiIsValidUtf8(separator);
    ValidUtf8Concatenates(first, separator);
    ValidUtf8Concatenates(first + separator, rest);
  }

  lemma {:induction false} ItemsAreUtf8(items: seq<Json>, quote: string -> string)
    requires QuotesInUtf8(quote)
    ensures ValidUtf8(WriteItems(items, quote))
    decreases items, 1
  {
    if items != [] {
      hide ValidUtf8, Write, QuotesInUtf8;
      TextIsUtf8(items[0], quote);
      ItemsAreUtf8(items[1..], quote);
      Separated(Write(items[0], quote), if |items| > 1 then "," else "", WriteItems(items[1..], quote));
    }
  }

  lemma {:induction false} FieldsAreUtf8(fields: seq<Field>, quote: string -> string)
    requires QuotesInUtf8(quote)
    ensures ValidUtf8(WriteFields(fields, quote))
    decreases fields, 1
  {
    if fields != [] {
      var name, value := quote(fields[0].name), Write(fields[0].value, quote);
      assert ValidUtf8(name);
      hide ValidUtf8, Write, QuotesInUtf8;
      TextIsUtf8(fields[0].value, quote);
      FieldsAreUtf8(fields[1..], quote);
      Separated(name, ":", value);
      Separated(name + ":" + value, if |fields| > 1 then "," else "", WriteFields(fields[1..], quote));
    }
  }

  // ------------------------------------------------- reading a text one way only

  /** Quoted strings open with a quotation mark and end where they say: two that are UTF-8 never run alike. */
  ghost predicate Delimits(quote: string -> string) {
    && (forall s :: quote(s) != "" && quote(s)[0] == '"')
    && (forall s, t, x, y | ValidUtf8(s) && ValidUtf8(t) && quote(s) + x == quote(t) + y :: s == t)
  }

  predicate WellEncoded(j: Json) {
    match j
    case Str(s) => ValidUtf8(s)
    case Arr(items) => forall i | i in items :: WellEncoded(i)
    case Obj(fields) => forall f | f in fields :: ValidUtf8(f.name) && WellEncoded(f.value)
    case _ => true
  }

  /** What may follow a value: no more of a number. */
  predicate Stops(x: string) { x == "" || !NumberChar(x[0]) }

  lemma SameHead(a: string, b: string, x: string, y: string)
    requires a + x == b + y && |a| == |b|
    ensures a == b && x == y
  {
    assert a == (a + x)[..|a|] && x == (a + x)[|a|..];
    assert b == (b + y)[..|b|] && y == (b + y)[|b|..];
  }

  /** The first character of a text tells what kind of value it is. */
  lemma KindShows(j: Json, quote: string -> string)
    requires Delimits(quote)
    ensures var t := Write(j, quote);
            && t != "" && t[0] !in {']', '}', ','}
            && (t[0] == 'n' <==> j.Null?) && (t[0] in {'t', 'f'} <==> j.Bool?) && (t[0] == '"' <==> j.Str?)
            && (t[0] == '[' <==> j.Arr?) && (t[0] == '{' <==> j.Obj?)
  {
    if j.Num? {
      assert NumberChar(j.literal[0]);
    }
  }

  lemma Overhang(a: string, b: string, x: string, y: string)
    requires a + x == b + y && |a| < |b|
    ensures x != "" && x[0] == b[|a|]
  {
    assert (a + x)[|a|] == x[0] && (b + y)[|a|] == b[|a|];
  }

  lemma NumbersEnd(a: NumberLiteral, b: NumberLiteral, x: string, y: string)
    requires Stops(x) && Stops(y) && a + x == b + y
    ensures a == b && x == y
  {
    if |a| < |b| {
      Overhang(a, b, x, y);
    } else if |b| < |a| {
      Overhang(b, a, y, x);
    } else {
      SameHead(a, b, x, y);
    }
  }

  lemma QuotesEnd(s: string, t: string, x: string, y: string, quote: string -> string)
    requires Delimits(quote) && ValidUtf8(s) && ValidUtf8(t) && quote(s) + x == quote(t) + y
    ensures s == t && x == y
  {
    SameHead(quote(s), quote(t), x, y);
  }

  lemma Inside(open: string, close: string, s: string, t: string, x: string, y: string)
    requires open + s + close + x == open + t + close + y
    ensures s + close + x == t + close + y
  {
    assert open + s + close + x == open + (s + close + x);
    assert open + t + close + y == open + (t + close + y);
    SameHead(open, open, s + close + x, t + close + y);
  }

  /** What follows the first of several parts, up to the bracket that closes them and beyond. */
  function AfterFirst(more: bool, rest: string, close: char, x: string): string {
    (if more then "," else "") + (rest + [close] + x)
  }

  lemma AfterFirstStops(more: bool, rest: string, close: char, x: string)
    requires close in {']', '}'} && (!more ==> rest == "")
    ensures var t := AfterFirst(more, rest, close, x);
            Stops(t) && t != "" && (t[0] == ',' <==> more)
  {
    if !more {
      assert rest + [close] + x == [close] + x;
    }
  }

  /** Two lists of parts go on alike after their first parts. */
  lemma GoOnAlike(more: bool, rest: string, more': bool, rest': string, close: char, x: string, y: string)
    requires close in {']', '}'} && (!more ==> rest == "") && (!more' ==> rest' == "")
    requires AfterFirst(more, rest, close, x) == AfterFirst(more', rest', close, y)
    ensures more == more' && rest + [close] + x == rest' + [close] + y
  {
    AfterFirstStops(more, rest, close, x);
    AfterFirstStops(more', rest', close, y);
    var comma := if more then "," else "";
    SameHead(comma, comma, rest + [close] + x, rest' + [close] + y);
  }

  /** Two values whose texts begin alike, up to where neither can go on, are one value. */
  lemma {:induction false} ValuesEnd(j: Json, k: Json, x: string, y: string, quote: string -> string)
    requires Delimits(quote) && WellEncoded(j) && WellEncoded(k) && Stops(x) && Stops(y)
    requires Write(j, quote) + x == Write(k, quote) + y
    ensures j == k && x == y
    decreases j, 0
  {
    KindShows(j, quote);
    KindShows(k, quote);
    assert (Write(j, quote) + x)[0] == Write(j, quote)[0] && (Write(k, quote) + y)[0] == Write(k, quote)[0];
    match j
    case Null => SameHead("null", "null", x, y);
    case Bool(b) =>
      assert b <==> (Write(j, quote) + x)[0] == 't';
      SameHead(Write(j, quote), Write(k, quote), x, y);
    case Num(literal) => NumbersEnd(literal, k.literal, x, y);
    case Str(s) => QuotesEnd(s, k.s, x, y, quote);
    case Arr(items) =>
      Inside("[", "]", WriteItems(items, quote), WriteItems(k.items, quote), x, y);
      ItemsEnd(items, k.items, x, y, quote);
    case Obj(fields) =>
      Inside("{", "}", WriteFields(fields, quote), WriteFields(k.fields, quote), x, y);
      FieldsEnd(fields, k.fields, x, y, quote);
  }

  lemma Regrouped(first: string, comma: string, rest: string, close: string, x: string)
    requires first != ""
    ensures var t := first + comma + rest + close + x;
            t == first + (comma + (rest + close + x)) && t[0] == first[0]
  {
  }

  lemma ItemsUnfold(items: seq<Json>, x: string, quote: string -> string)
    requires Delimits(quote)
    ensures var t := WriteItems(items, quote) + "]" + x;
            && t != "" && (t[0] == ']' <==> items == [])
            && (items != [] ==>
                  t == Write(items[0], quote) + AfterFirst(|items| > 1, WriteItems(items[1..], quote), ']', x))
  {
    hide Write, Delimits;
    if items == [] {
      assert WriteItems(items, quote) + "]" + x == "]" + x;
    } else {
      KindShows(items[0], quote);
      Regrouped(Write(items[0], quote), if |items| > 1 then "," else "", WriteItems(items[1..], quote), "]", x);
    }
  }

  lemma {:induction false} ItemsEnd(items: seq<Json>, others: seq<Json>, x: string, y: string, quote: string -> string)
    requires Delimits(quote) && (forall i | i in items :: WellEncoded(i)) && (forall i | i in others :: WellEncoded(i))
    requires WriteItems(items, quote) + "]" + x == WriteItems(others, quote) + "]" + y
    ensures items == others && x == y
    decreases items, 1
  {
    hide WriteItems, Write, WellEncoded, AfterFirst, Delimits;
    ItemsUnfold(items, x, quote);
    ItemsUnfold(others, y, quote);
    if items == [] {
      NoMoreItems([], quote);
      assert "" + "]" + x == "]" + x && "" + "]" + y == "]" + y;
      SameHead("]", "]", x, y);
    } else {
      var rest, rest' := WriteItems(items[1..], quote), WriteItems(others[1..], quote);
      NoMoreItems(items[1..], quote);
      NoMoreItems(others[1..], quote);
      AfterFirstStops(|items| > 1, rest, ']', x);
      AfterFirstStops(|others| > 1, rest', ']', y);
      ValuesEnd(items[0], others[0], AfterFirst(|items| > 1, rest, ']', x), AfterFirst(|others| > 1, rest', ']', y),
        quote);
      GoOnAlike(|items| > 1, rest, |others| > 1, rest', ']', x, y);
      ItemsEnd(items[1..], others[1..], x, y, quote);
      assert items == [items[0]] + items[1..] && others == [others[0]] + others[1..];
    }
  }

  lemma NoMoreItems(items: seq<Json>, quote: string -> string)
    ensures items == [] ==> WriteItems(items, quote) == ""
  {
  }

  lemma NoMoreFields(fields: seq<Field>, quote: string -> string)
    ensures fields == [] ==> WriteFields(fields, quote) == ""
  {
  }

  lemma RegroupedField(name: string, value: string, comma: string, rest: string, close: string, x: string)
    requires name != ""
    ensures var t := name + ":" + value + comma + rest + close + x;
            t == name + (":" + (value + (comma + (rest + close + x)))) && t[0] == name[0]
  {
  }

  lemma FieldsUnfold(fields: seq<Field>, x: string, quote: string -> string)
    requires Delimits(quote)
    ensures var t := WriteFields(fields, quote) + "}" + x;
            && t != "" && (t[0] == '}' <==> fields == [])
            && (fields != [] ==>
                  t == quote(fields[0].name) + (":" + (Write(fields[0].value, quote)
                       + AfterFirst(|fields| > 1, WriteFields(fields[1..], quote), '}', x))))
  {
    hide Write;
    if fields == [] {
      assert WriteFields(fields, quote) + "}" + x == "}" + x;
    } else {
      var name := quote(fields[0].name);
      assert name != "" && name[0] == '"';
      RegroupedField(name, Write(fields[0].value, quote), if |fields| > 1 then "," else "",
        WriteFields(fields[1..], quote), "}", x);
    }
  }

  lemma {:induction false} FieldsEnd(fields: seq<Field>, others: seq<Field>, x: string, y: string,
                                     quote: string -> string)
    requires Delimits(quote)
    requires forall f | f in fields :: ValidUtf8(f.name) && WellEncoded(f.value)
    requires forall f | f in others :: ValidUtf8(f.name) && WellEncoded(f.value)
    requires WriteFields(fields, quote) + "}" + x == WriteFields(others, quote) + "}" + y
    ensures fields == others && x == y
    decreases fields, 1
  {
    hide WriteFields, Write, WellEncoded, AfterFirst, Delimits, ValidUtf8;
    FieldsUnfold(fields, x, quote);
    FieldsUnfold(others, y, quote);
    if fields == [] {
      NoMoreFields([], quote);
      assert "" + "}" + x == "}" + x && "" + "}" + y == "}" + y;
      SameHead("}", "}", x, y);
    } else {
      var f, g := fields[0], others[0];
      var rest, rest' := WriteFields(fields[1..], quote), WriteFields(others[1..], quote);
      var t, u := AfterFirst(|fields| > 1, rest, '}', x), AfterFirst(|others| > 1, rest', '}', y);
      NoMoreFields(fields[1..], quote);
      NoMoreFields(others[1..], quote);
      AfterFirstStops(|fields| > 1, rest, '}', x);
      AfterFirstStops(|others| > 1, rest', '}', y);
      QuotesEnd(f.name, g.name, ":" + (Write(f.value, quote) + t), ":" + (Write(g.value, quote) + u), quote);
      SameHead(":", ":", Write(f.value, quote) + t, Write(g.value, quote) + u);
      ValuesEnd(f.value, g.value, t, u, quote);
      GoOnAlike(|fields| > 1, rest, |others| > 1, rest', '}', x, y);
      FieldsEnd(fields[1..], others[1..], x, y, quote);
      assert fields == [f] + fields[1..] && others == [g] + others[1..];
    }
  }

  /** Different values are written differently. */
  lemma TextsDiffer(j: Json, k: Json, quote: string -> string)
    requires Delimits(quote) && WellEncoded(j) && WellEncoded(k)
    ensures Write(j, quote) == Write(k, quote) <==> j == k
  {
    hide Delimits, WellEncoded, Write;
    if Write(j, quote) == Write(k, quote) {
      assert Write(j, quote) + "" == Write(k, quote) + "";
      ValuesEnd(j, k, "", "", quote);
    }
  }

  /** A struct of well-encoded fields is well encoded. */
  predicate LegibleEntry(e: Entry) {
    Ascii(e.name) && (e.value.Some? ==> WellEncoded(e.value.value))
  }

  lemma {:induction false} CompactIsWellEncoded(entries: seq<Entry>)
    requires forall i | 0 <= i < |entries| :: LegibleEntry(entries[i])
    ensures WellEncoded(Obj(Compact(entries)))
  {
    hide ValidUtf8, Ascii;
    if entries != [] {
      AsciiIsValidUtf8(entries[0].name);
      CompactIsWellEncoded(entries[1..]);
    }
  }

  // ------------------------------------------------- weights of structs

  function EntriesWeight(entries: seq<Entry>): nat {
    if entries == [] then 0
    else (if entries[0].value.Some? then Weight(entries[0].value.value) else 0) + EntriesWeight(entries[1..])
  }

  /** Dropping absent fields drops no weight. */
  lemma {:induction false} CompactKeepsWeight(entries: seq<Entry>)
    ensures FieldsWeight(Compact(entries)) == EntriesWeight(entries)
  {
    if entries != [] {
      CompactKeepsWeight(entries[1..]);
      var rest := Compact(entries[1..]);
      if entries[0].value.Some? {
        assert ([Field(entries[0].name, entries[0].value.value)] + rest)[1..] == rest;
      } else {
        assert [] + rest == rest;
      }
    }
  }
}
