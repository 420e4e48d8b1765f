/**
 What the paths of the strict scanner mean: where the first fault, or the first
 null, of a document is.  A place is the list of steps that lead to it, and a path
 is its text, names after dots and indices in brackets; of two places the one that
 is met first in reading comes first.
 */
module JsonPaths {
  import opened Wrappers
  import opened Text
  import opened Json
  import opened StrictJson

  // A place in a document: which child to take at each level.
  type Position = seq<nat>

  function Below(t: Json, at: Position): Option<Json>
    decreases |at|
  {
    if at == [] then Some(t)
    else
      match t
      case Arr(items) => if at[0] < |items| then Below(items[at[0]], at[1..]) else None
      case Obj(fields) => if at[0] < |fields| then Below(fields[at[0]].value, at[1..]) else None
      case _ => None
  }

  /** Document order: a value before what is in it, and children from left to right. */
  predicate Before(a: Position, b: Position)
    decreases |a|
  {
    b != [] && (a == [] || a[0] < b[0] || (a[0] == b[0] && Before(a[1..], b[1..])))
  }

  /** A place in words: names joined by dots, indices in brackets, after what is written already. */
  function Written(t: Json, at: Position, so: string): string
    decreases |at|
  {
    if at == [] then so
    else
      match t
      case Arr(items) =>
        if at[0] < |items| then Written(items[at[0]], at[1..], so + "[" + FormatUint(at[0]) + "]") else so
      case Obj(fields) =>
        if at[0] < |fields| then
          var name := fields[at[0]].name;
          Written(fields[at[0]].value, at[1..], if so == "" then name else so + "." + name)
        else so
      case _ => so
  }

  function OrInput(path: string): string { if path == "" then "input" else path }

  // ------------------------------------------------------------ the first null

  predicate NullAt(t: Json, at: Position) { Below(t, at) == Some(Null) }

  ghost predicate NoNull(t: Json) { forall at :: !NullAt(t, at) }

  ghost predicate FirstNullAt(t: Json, at: Position) {
    NullAt(t, at) && forall other | Before(other, at) :: !NullAt(t, other)
  }

  /** What is reported of nulls: no path when there is none, and else the path of the first. */
  ghost predicate NullReported(t: Json, so: string, path: Option<string>) {
    if path.None? then NoNull(t)
    else exists at :: FirstNullAt(t, at) && path.value == OrInput(Written(t, at, so))
  }

  lemma ChildNull(t: Json, k: nat, child: Json, at: Position)
    requires Below(t, [k]) == Some(child)
    requires FirstNullAt(child, at) && forall j | 0 <= j < k :: ChildHasNone(t, j)
    ensures FirstNullAt(t, [k] + at)
  {
    OneDown(t, k, child, at);
    forall other | Before(other, [k] + at) ensures !NullAt(t, other) {
      NoneBeforeChild(t, k, child, at, other);
    }
  }

  lemma NoneBeforeChild(t: Json, k: nat, child: Json, at: Position, other: Position)
    requires Below(t, [k]) == Some(child) && Before(other, [k] + at)
    requires FirstNullAt(child, at) && forall j | 0 <= j < k :: ChildHasNone(t, j)
    ensures !NullAt(t, other)
  {
    assert ([k] + at)[0] == k && ([k] + at)[1..] == at;
    if other == [] {
      assert !t.Null?;
    } else {
      assert [other[0]] + other[1..] == other;
      if other[0] < k {
        assert ChildHasNone(t, other[0]);
      } else {
        OneDown(t, k, child, other[1..]);
      }
    }
  }

  lemma OneDown(t: Json, k: nat, child: Json, at: Position)
    requires Below(t, [k]) == Some(child)
    ensures Below(t, [k] + at) == Below(child, at)
    ensures forall so :: Written(t, [k] + at, so) == Written(child, at, Written(t, [k], so))
  {
    assert ([k] + at)[0] == k && ([k] + at)[1..] == at && [k][1..] == [];
    assert Below(child, []) == Some(child);
  }

  ghost predicate ChildHasNone(t: Json, j: nat) {
    forall at: Position | at != [] && at[0] == j :: !NullAt(t, at)
  }

  lemma NoneInChildren(t: Json)
    requires !t.Null? && forall j: nat :: ChildHasNone(t, j)
    ensures NoNull(t)
  {
    forall at ensures !NullAt(t, at) {
      if at != [] {
        assert ChildHasNone(t, at[0]);
        assert [at[0]] + at[1..] == at;
      }
    }
  }

  lemma ChildIs(t: Json, k: nat)
    ensures t.Arr? && k < |t.items| ==>
              Below(t, [k]) == Some(t.items[k])
              && forall so :: Written(t, [k], so) == so + "[" + FormatUint(k) + "]"
    ensures t.Obj? && k < |t.fields| ==>
              Below(t, [k]) == Some(t.fields[k].value)
              && forall so :: Written(t, [k], so) == if so == "" then t.fields[k].name else so + "." + t.fields[k].name
    ensures (t.Arr? && k >= |t.items|) || (t.Obj? && k >= |t.fields|) ==> ChildHasNone(t, k)
  {
    assert [k][1..] == [];
    if (t.Arr? && k >= |t.items|) || (t.Obj? && k >= |t.fields|) {
      NoSuchChild(t, k);
    }
  }

  lemma NoSuchChild(t: Json, k: nat)
    requires (t.Arr? && k >= |t.items|) || (t.Obj? && k >= |t.fields|)
    ensures ChildHasNone(t, k)
  {
  }

  lemma NoNullInChild(t: Json, k: nat, child: Json)
    requires Below(t, [k]) == Some(child) && NoNull(child)
    ensures ChildHasNone(t, k)
  {
    forall at: Position | at != [] && at[0] == k ensures !NullAt(t, at) {
      OneDown(t, k, child, at[1..]);
      assert [k] + at[1..] == at && !NullAt(child, at[1..]);
    }
  }

  /** The null reported is the first one of the document, and there is none when none is reported. */
  lemma {:induction false} NullPathsAreExact(t: Json, so: string)
    ensures NullReported(t, so, FirstNull(t, so))
    decreases t, 1
  {
    match t
    case Null =>
      assert FirstNullAt(t, []) && Written(t, [], so) == so;
    case Arr(items) =>
      assert items[0..] == items;
      ItemNullIsExact(t, so, 0);
    case Obj(fields) =>
      assert fields[0..] == fields;
      FieldNullIsExact(t, so, 0);
    case _ =>
      LeavesHaveNone(t);
  }

  lemma LeavesHaveNone(t: Json)
    requires !t.Null? && !t.Arr? && !t.Obj?
    ensures NoNull(t)
  {
  }

  lemma {:induction false} ItemNullIsExact(t: Json, so: string, i: nat)
    requires t.Arr? && i <= |t.items| && forall j | 0 <= j < i :: ChildHasNone(t, j)
    ensures NullReported(t, so, FirstNullItem(t.items[i..], so, i))
    decreases t, 0, |t.items| - i
  {
    hide Below, Written, ChildHasNone, NoNull, FirstNullAt, FirstNull;
    forall j: nat { ChildIs(t, j); }
    if i == |t.items| {
      NoneInChildren(t);
    } else {
      var child := t.items[i];
      var path := so + "[" + FormatUint(i) + "]";
      NullPathsAreExact(child, path);
      assert t.items[i..][1..] == t.items[i + 1..] && t.items[i..][0] == child;
      if FirstNull(child, path).Some? {
        var at :| FirstNullAt(child, at) && FirstNull(child, path).value == OrInput(Written(child, at, path));
        ChildNull(t, i, child, at);
        OneDown(t, i, child, at);
      } else {
        NoNullInChild(t, i, child);
        ItemNullIsExact(t, so, i + 1);
      }
    }
  }

  lemma {:induction false} FieldNullIsExact(t: Json, so: string, i: nat)
    requires t.Obj? && i <= |t.fields| && forall j | 0 <= j < i :: ChildHasNone(t, j)
    ensures NullReported(t, so, FirstNullField(t.fields[i..], so))
    decreases t, 0, |t.fields| - i
  {
    hide Below, Written, ChildHasNone, NoNull, FirstNullAt, FirstNull;
    forall j: nat { ChildIs(t, j); }
    if i == |t.fields| {
      NoneInChildren(t);
    } else {
      var name, child := t.fields[i].name, t.fields[i].value;
      var path := if so == "" then name else so + "." + name;
      NullPathsAreExact(child, path);
      assert t.fields[i..][1..] == t.fields[i + 1..] && t.fields[i..][0] == t.fields[i];
      if FirstNull(child, path).Some? {
        var at :| FirstNullAt(child, at) && FirstNull(child, path).value == OrInput(Written(child, at, path));
        ChildNull(t, i, child, at);
        OneDown(t, i, child, at);
      } else {
        NoNullInChild(t, i, child);
        FieldNullIsExact(t, so, i + 1);
      }
    }
  }

  // ------------------------------------------------------------ the first fault

  /** The place is a field whose name an earlier field of the same object has, too. */
  predicate RepeatedAt(t: Json, at: Position)
    decreases |at|
  {
    && at != []
    && if |at| == 1 then
         t.Obj? && at[0] < |t.fields| && exists j | 0 <= j < at[0] :: t.fields[j].name == t.fields[at[0]].name
       else
         match t
         case Arr(items) => at[0] < |items| && RepeatedAt(items[at[0]], at[1..])
         case Obj(fields) => at[0] < |fields| && RepeatedAt(fields[at[0]].value, at[1..])
         case _ => false
  }

  /** The place is there, and lies below the 64th level when t itself is on the level depth. */
  predicate TooDeepAt(t: Json, depth: nat, at: Position) { Below(t, at).Some? && depth + |at| > 64 }

  predicate FaultyAt(t: Json, depth: nat, at: Position) { RepeatedAt(t, at) || TooDeepAt(t, depth, at) }

  ghost predicate FirstFaultAt(t: Json, depth: nat, at: Position) {
    FaultyAt(t, depth, at) && forall other | Before(other, at) :: !FaultyAt(t, depth, other)
  }

  ghost predicate Sound(t: Json, depth: nat) { forall at :: !FaultyAt(t, depth, at) }

  /** What is reported of faults: the first, a repeated name by its path, and a value that is too deep by its own. */
  ghost predicate FaultReported(t: Json, depth: nat, so: string, fault: Option<Fault>) {
    match fault
    case None => Sound(t, depth)
    case Some(f) =>
      exists at :: FirstFaultAt(t, depth, at)
        && f == if RepeatedAt(t, at) then DuplicateField(Written(t, at, so)) else MaxDepth(OrInput(Written(t, at, so)))
  }

  ghost predicate ChildIsSound(t: Json, depth: nat, j: nat) {
    forall at: Position | at != [] && at[0] == j :: !FaultyAt(t, depth, at)
  }

  predicate RepeatedField(t: Json, k: nat) {
    t.Obj? && k < |t.fields| && exists j | 0 <= j < k :: t.fields[j].name == t.fields[k].name
  }

  /** A fault in a child is a fault of the child's own, unless it is the name of the child. */
  lemma FaultOneDown(t: Json, depth: nat, k: nat, child: Json, at: Position)
    requires Below(t, [k]) == Some(child)
    ensures FaultyAt(t, depth, [k] + at) <==> FaultyAt(child, depth + 1, at) || (at == [] && RepeatedField(t, k))
    ensures at != [] ==> (RepeatedAt(t, [k] + at) <==> RepeatedAt(child, at))
    ensures RepeatedAt(t, [k]) <==> RepeatedField(t, k)
  {
    OneDown(t, k, child, at);
    assert ([k] + at)[0] == k && ([k] + at)[1..] == at && [k] + [] == [k];
  }

  lemma NoFaultBefore(t: Json, depth: nat, k: nat, child: Json, at: Position, other: Position)
    requires depth <= 64 && Below(t, [k]) == Some(child) && Before(other, [k] + at)
    requires !RepeatedField(t, k) || at == []
    requires forall j | 0 <= j < k :: ChildIsSound(t, depth, j)
    requires at == [] || FirstFaultAt(child, depth + 1, at)
    ensures !FaultyAt(t, depth, other)
  {
    assert ([k] + at)[0] == k && ([k] + at)[1..] == at;
    if other != [] {
      assert [other[0]] + other[1..] == other;
      if other[0] < k {
        assert ChildIsSound(t, depth, other[0]);
      } else {
        assert [k] + other[1..] == other;
        FaultOneDown(t, depth, k, child, other[1..]);
      }
    }
  }

  lemma ChildFault(t: Json, depth: nat, k: nat, child: Json, at: Position)
    requires depth <= 64 && Below(t, [k]) == Some(child) && !RepeatedField(t, k)
    requires FirstFaultAt(child, depth + 1, at) && forall j | 0 <= j < k :: ChildIsSound(t, depth, j)
    ensures FirstFaultAt(t, depth, [k] + at)
    ensures RepeatedAt(t, [k] + at) <==> RepeatedAt(child, at)
  {
    FaultOneDown(t, depth, k, child, at);
    assert at == [] ==> [k] + at == [k];
    forall other | Before(other, [k] + at) ensures !FaultyAt(t, depth, other) {
      NoFaultBefore(t, depth, k, child, at, other);
    }
  }

  lemma RepeatedFault(t: Json, depth: nat, k: nat)
    requires depth <= 64 && RepeatedField(t, k) && forall j | 0 <= j < k :: ChildIsSound(t, depth, j)
    ensures FirstFaultAt(t, depth, [k]) && RepeatedAt(t, [k])
  {
    ChildIs(t, k);
    FaultOneDown(t, depth, k, t.fields[k].value, []);
    assert [k] + [] == [k];
    forall other | Before(other, [k]) ensures !FaultyAt(t, depth, other) {
      NoFaultBefore(t, depth, k, t.fields[k].value, [], other);
    }
  }

  lemma SoundInChildren(t: Json, depth: nat)
    requires depth <= 64 && forall j: nat :: ChildIsSound(t, depth, j)
    ensures Sound(t, depth)
  {
    forall at ensures !FaultyAt(t, depth, at) {
      if at != [] {
        assert ChildIsSound(t, depth, at[0]);
      }
    }
  }

  lemma SoundChild(t: Json, depth: nat, k: nat, child: Json)
    requires Below(t, [k]) == Some(child) && Sound(child, depth + 1) && !RepeatedField(t, k)
    ensures ChildIsSound(t, depth, k)
  {
    forall at: Position | at != [] && at[0] == k ensures !FaultyAt(t, depth, at) {
      FaultOneDown(t, depth, k, child, at[1..]);
      assert [k] + at[1..] == at && !FaultyAt(child, depth + 1, at[1..]);
    }
  }

  lemma NoChildIsSound(t: Json, depth: nat, k: nat)
    requires (t.Arr? && k >= |t.items|) || (t.Obj? && k >= |t.fields|)
    ensures ChildIsSound(t, depth, k)
  {
  }

  /** The fault reported is the first one of the document, and there is none when none is reported. */
  lemma {:induction false} FaultPathsAreExact(t: Json, depth: nat, so: string)
    requires depth <= 65
    ensures FaultReported(t, depth, so, TreeFault(t, depth, so))
    decreases t, 1
  {
    if depth > 64 {
      assert FirstFaultAt(t, depth, []) && Written(t, [], so) == so;
    } else {
      match t
      case Arr(items) =>
        assert items[0..] == items;
        ItemFaultIsExact(t, depth, so, 0);
      case Obj(fields) =>
        assert fields[0..] == fields && NamesAmong(fields[..0]) == {};
        FieldFaultIsExact(t, depth, so, 0);
      case _ =>
        LeavesAreSound(t, depth);
    }
  }

  lemma LeavesAreSound(t: Json, depth: nat)
    requires depth <= 64 && !t.Arr? && !t.Obj?
    ensures Sound(t, depth)
  {
  }

  lemma {:induction false} ItemFaultIsExact(t: Json, depth: nat, so: string, i: nat)
    requires t.Arr? && depth <= 64 && i <= |t.items| && forall j | 0 <= j < i :: ChildIsSound(t, depth, j)
    ensures FaultReported(t, depth, so, ItemsFault(t.items[i..], depth, so, i))
    decreases t, 0, |t.items| - i
  {
    hide Below, Written, ChildIsSound, Sound, FirstFaultAt, TreeFault, ChildHasNone, RepeatedAt;
    if i == |t.items| {
      forall j: nat | j >= i { NoChildIsSound(t, depth, j); }
      SoundInChildren(t, depth);
    } else {
      var child := t.items[i];
      var path := so + "[" + FormatUint(i) + "]";
      ChildIs(t, i);
      FaultPathsAreExact(child, depth + 1, path);
      assert t.items[i..][1..] == t.items[i + 1..] && t.items[i..][0] == child;
      var fault := TreeFault(child, depth + 1, path);
      if fault.Some? {
        var at :| FirstFaultAt(child, depth + 1, at)
          && fault.value == if RepeatedAt(child, at) then DuplicateField(Written(child, at, path))
                            else MaxDepth(OrInput(Written(child, at, path)));
        ChildFault(t, depth, i, child, at);
        OneDown(t, i, child, at);
      } else {
        SoundChild(t, depth, i, child);
        ItemFaultIsExact(t, depth, so, i + 1);
      }
    }
  }

  function NamesAmong(fields: seq<Field>): set<string> { set f | f in fields :: f.name }

  lemma {:induction false} FieldFaultIsExact(t: Json, depth: nat, so: string, i: nat)
    requires t.Obj? && depth <= 64 && i <= |t.fields| && forall j | 0 <= j < i :: ChildIsSound(t, depth, j)
    ensures FaultReported(t, depth, so,
                          FieldsFault(t.fields[i..], depth, so, NamesAmong(t.fields[..i])))
    decreases t, 0, |t.fields| - i
  {
    hide Below, Written, ChildIsSound, Sound, FirstFaultAt, TreeFault, ChildHasNone, RepeatedAt;
    if i == |t.fields| {
      forall j: nat | j >= i { NoChildIsSound(t, depth, j); }
      SoundInChildren(t, depth);
    } else {
      var name, child := t.fields[i].name, t.fields[i].value;
      var path := if so == "" then name else so + "." + name;
      var seen := NamesAmong(t.fields[..i]);
      ChildIs(t, i);
      assert t.fields[i..][1..] == t.fields[i + 1..] && t.fields[i..][0] == t.fields[i];
      assert name in seen <==> RepeatedField(t, i);
      if name in seen {
        RepeatedFault(t, depth, i);
      } else {
        FaultPathsAreExact(child, depth + 1, path);
        var fault := TreeFault(child, depth + 1, path);
        if fault.Some? {
          var at :| FirstFaultAt(child, depth + 1, at)
            && fault.value == if RepeatedAt(child, at) then DuplicateField(Written(child, at, path))
                              else MaxDepth(OrInput(Written(child, at, path)));
          ChildFault(t, depth, i, child, at);
          OneDown(t, i, child, at);
        } else {
          SoundChild(t, depth, i, child);
          assert t.fields[..i + 1] == t.fields[..i] + [t.fields[i]];
          assert seen + {name} == NamesAmong(t.fields[..i + 1]);
          FieldFaultIsExact(t, depth, so, i + 1);
        }
      }
    }
  }

  /**
   The strict walk on a document followed by anything.  It stops exactly when a name
   is repeated in one object or a value lies below the 64th level, and then it names
   the first such place in document order; otherwise it reports the place of the
   first null, if there is one.
   */
  lemma WalkNamesTheFirst(t: Json, suffix: seq<Token>)
    ensures var r := Walk(Tokens(t) + suffix, 1, "");
            match r
            case Stopped(f) => FaultReported(t, 1, "", Some(f))
            case Consumed(rest, firstNull) =>
              rest == suffix && FaultReported(t, 1, "", None) && NullReported(t, "", firstNull)
  {
    hide FaultReported, NullReported, TreeFault, FirstNull, Walk, Tokens;
    WalkRefines(t, suffix, 1, "");
    FaultPathsAreExact(t, 1, "");
    NullPathsAreExact(t, "");
  }
}
