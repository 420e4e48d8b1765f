/**
 JSON values as trees, and the encoding of Go structs with omitempty fields.  A
 struct is a list of entries, some of them absent; its wire form is the object of
 those that are present, in the same order, and a decoder finds each entry, or
 that it is absent, under its name.
 */
module Json {
  import opened Wrappers
  import opened Text

  predicate NumberChar(c: char) { IsDigit(c) || c in "+-.eE" }

  // A number as it is written, as far as it matters where it ends.
  type NumberLiteral = s: string |
    s != "" && (IsDigit(s[0]) || s[0] == '-') && forall i | 0 <= i < |s| :: NumberChar(s[i])
    witness "0"

  datatype Json =
    | Null
    | Bool(b: bool)
    | Num(literal: NumberLiteral)
    | Str(s: string)
    | Arr(items: seq<Json>)
    | Obj(fields: seq<Field>)

  datatype Field = Field(name: string, value: Json)

  /** The value of the first field of that name, as a decoder that refuses duplicates sees it. */
  function Get(fields: seq<Field>, name: string): Option<Json> {
    if fields == [] then None
    else if fields[0].name == name then Some(fields[0].value)
    else Get(fields[1..], name)
  }

  // A struct field on its way to JSON: absent when omitempty drops it.
  datatype Entry = Entry(name: string, value: Option<Json>)

  function Compact(entries: seq<Entry>): seq<Field> {
    if entries == [] then []
    else (if entries[0].value.Some? then [Field(entries[0].name, entries[0].value.value)] else [])
         + Compact(entries[1..])
  }

  ghost predicate DistinctNames(entries: seq<Entry>) {
    forall i, j | 0 <= i < j < |entries| :: entries[i].name != entries[j].name
  }

  function StrOrOmit(s: string): Option<Json> { if s == "" then None else Some(Str(s)) }

  function ArrOrOmit(items: seq<Json>): Option<Json> { if items == [] then None else Some(Arr(items)) }

  lemma {:induction false} AbsentNameIsNotFound(entries: seq<Entry>, name: string)
    requires forall i | 0 <= i < |entries| :: entries[i].name == name ==> entries[i].value.None?
    ensures Get(Compact(entries), name) == None
  {
    if entries != [] {
      AbsentNameIsNotFound(entries[1..], name);
      if entries[0].value.Some? {
        var rest := Compact(entries[1..]);
        assert ([Field(entries[0].name, entries[0].value.value)] + rest)[1..] == rest;
      } else {
        assert [] + Compact(entries[1..]) == Compact(entries[1..]);
      }
    }
  }

  /** Each entry is found again under its name, present or absent as it was. */
  lemma {:induction false} CompactIsFaithful(entries: seq<Entry>, i: nat)
    requires DistinctNames(entries) && i < |entries|
    ensures Get(Compact(entries), entries[i].name) == entries[i].value
  {
    var rest := Compact(entries[1..]);
    if entries[0].value.Some? {
      assert ([Field(entries[0].name, entries[0].value.value)] + rest)[1..] == rest;
    } else {
      assert [] + rest == rest;
    }
    if i == 0 {
      if entries[0].value.None? {
        AbsentNameIsNotFound(entries[1..], entries[0].name);
      }
    } else {
      CompactIsFaithful(entries[1..], i - 1);
    }
  }

  // --------------------------------------------------------------- reading back

  function Fields(j: Json): seq<Field> { if j.Obj? then j.fields else [] }

  function Member(j: Json, name: string): Option<Json> { Get(Fields(j), name) }

  function ReadStr(v: Option<Json>): Option<string> {
    if v.Some? && v.value.Str? then Some(v.value.s) else None
  }

  /** A string that omitempty may have dropped. */
  function ReadOptional(v: Option<Json>): Option<string> {
    if v.None? then Some("") else ReadStr(v)
  }

  function ReadPart<T>(v: Option<Json>, read: Json -> Option<T>): Option<T> {
    if v.Some? then read(v.value) else None
  }

  /** The items of a list field; an absent list is empty. */
  function Items(j: Json, name: string): seq<Json> {
    var v := Member(j, name);
    if v.Some? && v.value.Arr? then v.value.items else []
  }

  function MapSeq<T, U>(f: T -> U, s: seq<T>): (r: seq<U>)
    ensures |r| == |s| && forall i | 0 <= i < |s| :: r[i] == f(s[i])
  {
    if s == [] then [] else [f(s[0])] + MapSeq(f, s[1..])
  }

  function ReadAll<T>(read: Json -> Option<T>, items: seq<Json>): Option<seq<T>> {
    if items == [] then Some([])
    else
      var first, others := read(items[0]), ReadAll(read, items[1..]);
      if first.Some? && others.Some? then Some([first.value] + others.value) else None
  }

  /** Every entry is found under its name. */
  lemma Lookups(entries: seq<Entry>)
    requires DistinctNames(entries)
    ensures forall i | 0 <= i < |entries| :: Member(Obj(Compact(entries)), entries[i].name) == entries[i].value
  {
    forall i | 0 <= i < |entries| ensures Member(Obj(Compact(entries)), entries[i].name) == entries[i].value {
      CompactIsFaithful(entries, i);
    }
  }

  lemma {:induction false} ListReadsBack<T>(read: Json -> Option<T>, encode: T -> Json, s: seq<T>)
    requires forall x | x in s :: read(encode(x)) == Some(x)
    ensures ReadAll(read, MapSeq(encode, s)) == Some(s)
  {
    if s != [] {
      assert s == [s[0]] + s[1..];
      ListReadsBack(read, encode, s[1..]);
      assert MapSeq(encode, s)[1..] == MapSeq(encode, s[1..]);
    }
  }

  lemma MapSeqSnoc<T, U>(f: T -> U, s: seq<T>, i: nat)
    requires i < |s|
    ensures MapSeq(f, s[..i + 1]) == MapSeq(f, s[..i]) + [f(s[i])]
  {
  }
}
