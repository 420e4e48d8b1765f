/** validateOwnership: the map-based passes against the pairwise relation they decide. */
module Ownership {
  import opened Wrappers
  import opened WriteTypes

  datatype Slot = Slot(subject: string, pred: string)

  // What a logical mutation owns: a whole slot, or one exact triple.
  datatype Claim = SlotClaim(slot: Slot) | ExactClaim(slot: Slot, obj: Object)

  datatype Claimed = Claimed(claim: Claim, path: string)

  predicate Conflict(a: Claim, b: Claim) {
    a.slot == b.slot && (a.SlotClaim? || b.SlotClaim? || a.obj == b.obj)
  }

  function SlotOf(r: Record): Slot { Slot(r.subject, r.pred) }

  function RecordClaim(r: Record): Option<Claim> {
    if r.mode == ENSURE then Some(ExactClaim(SlotOf(r), r.obj))
    else if r.mode == REPLACE then Some(SlotClaim(SlotOf(r)))
    else None
  }

  function RetractionClaim(r: Retraction): Option<Claim> {
    match r
    case RetractExact(s, p, o) => Some(ExactClaim(Slot(s, p), o))
    case RetractSlot(s, p) => Some(SlotClaim(Slot(s, p)))
    case _ => None
  }

  function Owning(claim: Option<Claim>, path: string): seq<Claimed> {
    if claim.Some? then [Claimed(claim.value, path)] else []
  }

  /** The claims of the records from index i on, in order. */
  function RecordClaims(records: seq<Record>, i: nat): seq<Claimed>
    decreases |records| - i
  {
    if i >= |records| then []
    else Owning(RecordClaim(records[i]), PathIndex("record", i)) + RecordClaims(records, i + 1)
  }

  function RetractionClaims(retractions: seq<Retraction>, i: nat): seq<Claimed>
    decreases |retractions| - i
  {
    if i >= |retractions| then []
    else Owning(RetractionClaim(retractions[i]), PathIndex("retract", i)) + RetractionClaims(retractions, i + 1)
  }

  /** Every claim of a request, in the order it is made. */
  function Claims(request: Request): seq<Claimed> {
    RecordClaims(request.records, 0) + RetractionClaims(request.retractions, 0)
  }

  /** The exact triples a request adds without claiming them: appended records and correction replacements. */
  function Destination(r: Record): Claim { ExactClaim(SlotOf(r), r.obj) }

  function AppendDestinations(records: seq<Record>, i: nat): seq<Claimed>
    decreases |records| - i
  {
    if i >= |records| then []
    else (if records[i].mode == APPEND then [Claimed(Destination(records[i]), PathIndex("record", i))] else [])
         + AppendDestinations(records, i + 1)
  }

  function CorrectionDestinations(corrections: seq<Correction>, i: nat): seq<Claimed>
    decreases |corrections| - i
  {
    if i >= |corrections| then []
    else [Claimed(Destination(corrections[i].replacement), PathIndex("correct", i) + ".with")]
         + CorrectionDestinations(corrections, i + 1)
  }

  function Destinations(request: Request): seq<Claimed> {
    AppendDestinations(request.records, 0) + CorrectionDestinations(request.corrections, 0)
  }

  // ------------------------------------------------- the pairwise relation

  ghost predicate PairwiseFree(claims: seq<Claimed>) {
    forall i, j | 0 <= i < j < |claims| :: !Conflict(claims[i].claim, claims[j].claim)
  }

  ghost predicate Apart(claims: seq<Claimed>, destinations: seq<Claimed>) {
    forall c, d | c in claims && d in destinations :: !Conflict(c.claim, d.claim)
  }

  /** No two mutations of the request interfere. */
  ghost predicate NonInterfering(request: Request) {
    PairwiseFree(Claims(request)) && Apart(Claims(request), Destinations(request))
  }

  // --------------------------------------------------- the error it reports

  /** The first earlier claim that conflicts. */
  function FirstConflict(done: seq<Claimed>, c: Claim): (r: Option<nat>)
    ensures r.Some? ==> r.value < |done| && Conflict(done[r.value].claim, c)
    ensures r.Some? ==> forall i | 0 <= i < r.value :: !Conflict(done[i].claim, c)
    ensures r.None? ==> forall i | 0 <= i < |done| :: !Conflict(done[i].claim, c)
  {
    if done == [] then None
    else
      var n := |done| - 1;
      var earlier := FirstConflict(done[..n], c);
      if earlier.Some? then earlier else if Conflict(done[n].claim, c) then Some(n) else None
  }

  /** What making this claim after those reports: a like target is a duplicate, an unlike one an overlap. */
  function ClaimError(done: seq<Claimed>, c: Claimed): Option<Invalid> {
    var first := FirstConflict(done, c.claim);
    if first.None? then None
    else
      var previous := done[first.value];
      Some(if previous.claim.SlotClaim? == c.claim.SlotClaim? then Invalid(DuplicateTarget, c.path, previous.path)
           else Invalid(DestinationConflict, c.path, if c.claim.SlotClaim? then "" else previous.path))
  }

  function DestinationError(claims: seq<Claimed>, d: Claimed): Option<Invalid> {
    var first := FirstConflict(claims, d.claim);
    if first.None? then None else Some(Invalid(DestinationConflict, d.path, claims[first.value].path))
  }

  /** The error of the first claim, from the k-th on, that conflicts with an earlier one. */
  function ClaimPhase(claims: seq<Claimed>, k: nat): Option<Invalid>
    decreases |claims| - k
  {
    if k >= |claims| then None
    else
      var error := ClaimError(claims[..k], claims[k]);
      if error.Some? then error else ClaimPhase(claims, k + 1)
  }

  function DestinationPhase(claims: seq<Claimed>, destinations: seq<Claimed>): Option<Invalid> {
    if destinations == [] then None
    else
      var error := DestinationError(claims, destinations[0]);
      if error.Some? then error else DestinationPhase(claims, destinations[1..])
  }

  function OwnershipError(request: Request): Option<Invalid> {
    var error := ClaimPhase(Claims(request), 0);
    if error.Some? then error else DestinationPhase(Claims(request), Destinations(request))
  }

  lemma {:induction false} ClaimPhaseExactly(claims: seq<Claimed>, k: nat)
    requires k <= |claims| && PairwiseFree(claims[..k])
    ensures ClaimPhase(claims, k).None? <==> PairwiseFree(claims)
    ensures ClaimPhase(claims, k).Some? ==>
              exists n :: k <= n < |claims| && PairwiseFree(claims[..n])
                          && ClaimPhase(claims, k) == ClaimError(claims[..n], claims[n])
                          && ClaimError(claims[..n], claims[n]).Some?
    decreases |claims| - k
  {
    if k == |claims| {
      assert claims[..k] == claims;
    } else {
      var first := FirstConflict(claims[..k], claims[k].claim);
      if first.None? {
        assert claims[..k + 1] == claims[..k] + [claims[k]];
        ClaimPhaseExactly(claims, k + 1);
      } else {
        assert claims[..k][first.value] == claims[first.value];
      }
    }
  }

  lemma {:induction false} DestinationPhaseExactly(claims: seq<Claimed>, destinations: seq<Claimed>)
    ensures DestinationPhase(claims, destinations).None? <==> Apart(claims, destinations)
  {
    if destinations != [] {
      var d := destinations[0];
      var first := FirstConflict(claims, d.claim);
      assert destinations == [d] + destinations[1..];
      if first.None? {
        DestinationPhaseExactly(claims, destinations[1..]);
        forall c | c in claims ensures !Conflict(c.claim, d.claim) {
          var i :| 0 <= i < |claims| && claims[i] == c;
        }
      } else {
        assert d in destinations && claims[first.value] in claims;
      }
    }
  }

  /** The error report is there exactly when two mutations of the request interfere. */
  lemma AcceptedExactlyWhenNonInterfering(request: Request)
    ensures OwnershipError(request).None? <==> NonInterfering(request)
  {
    ClaimPhaseExactly(Claims(request), 0);
    DestinationPhaseExactly(Claims(request), Destinations(request));
  }

  // ------------------------------------------------------------ the table

  datatype Entry = Entry(slotOwner: string, exactOwner: map<Object, string>)

  const UNOWNED := Entry("", map[])

  ghost predicate NoSlotClaim(done: seq<Claimed>, slot: Slot) {
    forall c | c in done :: c.claim != SlotClaim(slot)
  }

  class Table {
    var owned: map<Slot, Entry>

    /** The table says what was claimed so far, by which path, and nothing else. */
    ghost predicate Records(done: seq<Claimed>)
      reads this
    {
      && (forall c | c in done :: c.path != "" && c.claim.slot in owned
            && (match c.claim
                case SlotClaim(slot) => owned[slot].slotOwner == c.path
                case ExactClaim(slot, obj) =>
                  obj in owned[slot].exactOwner && owned[slot].exactOwner[obj] == c.path))
      && (forall slot | slot in owned && owned[slot].slotOwner != "" ::
            Claimed(SlotClaim(slot), owned[slot].slotOwner) in done)
      && (forall slot, obj | slot in owned && obj in owned[slot].exactOwner ::
            Claimed(ExactClaim(slot, obj), owned[slot].exactOwner[obj]) in done)
    }

    constructor ()
      ensures Records([])
    {
      owned := map[];
    }

    function EntryAt(slot: Slot): Entry
      reads this
    {
      if slot in owned then owned[slot] else UNOWNED
    }

    method ClaimSlot(slot: Slot, path: string, ghost done: seq<Claimed>) returns (error: Option<Invalid>)
      requires Records(done) && PairwiseFree(done) && path != ""
      modifies this
      ensures error == ClaimError(done, Claimed(SlotClaim(slot), path))
      ensures error.None? ==> Records(done + [Claimed(SlotClaim(slot), path)])
    {
      var entry := EntryAt(slot);
      ghost var claim := SlotClaim(slot);
      if entry.slotOwner != "" {
        return Some(Invalid(DuplicateTarget, path, entry.slotOwner));
      }
      if entry.exactOwner != map[] {
        ghost var obj :| obj in entry.exactOwner;
        assert Claimed(ExactClaim(slot, obj), entry.exactOwner[obj]) in done;
        assert NoSlotClaim(done, slot);
        return Some(Invalid(DestinationConflict, path, ""));
      }
      owned := owned[slot := entry.(slotOwner := path)];
      error := None;
    }

    method ClaimExact(slot: Slot, obj: Object, path: string, ghost done: seq<Claimed>)
      returns (error: Option<Invalid>)
      requires Records(done) && PairwiseFree(done) && path != ""
      modifies this
      ensures error == ClaimError(done, Claimed(ExactClaim(slot, obj), path))
      ensures error.None? ==> Records(done + [Claimed(ExactClaim(slot, obj), path)])
    {
      var entry := EntryAt(slot);
      ghost var claim := ExactClaim(slot, obj);
      if entry.slotOwner != "" {
        return Some(Invalid(DestinationConflict, path, entry.slotOwner));
      }
      if obj in entry.exactOwner {
        return Some(Invalid(DuplicateTarget, path, entry.exactOwner[obj]));
      }
      owned := owned[slot := entry.(exactOwner := entry.exactOwner[obj := path])];
      error := None;
    }

    method CheckDestination(r: Record, path: string, ghost done: seq<Claimed>) returns (error: Option<Invalid>)
      requires Records(done) && PairwiseFree(done)
      ensures error == DestinationError(done, Claimed(Destination(r), path))
    {
      var entry := EntryAt(SlotOf(r));
      if entry.slotOwner != "" {
        return Some(Invalid(DestinationConflict, path, entry.slotOwner));
      }
      if r.obj in entry.exactOwner {
        return Some(Invalid(DestinationConflict, path, entry.exactOwner[r.obj]));
      }
      error := None;
    }
  }

  // -------------------------------------------------------- the four passes

  lemma RecordClaimsFrom(records: seq<Record>, i: nat)
    ensures RecordClaims(records, i) ==
            if i >= |records| then []
            else Owning(RecordClaim(records[i]), PathIndex("record", i)) + RecordClaims(records, i + 1)
  {
  }

  lemma RetractionClaimsFrom(retractions: seq<Retraction>, i: nat)
    ensures RetractionClaims(retractions, i) ==
            if i >= |retractions| then []
            else Owning(RetractionClaim(retractions[i]), PathIndex("retract", i)) + RetractionClaims(retractions, i + 1)
  {
  }

  lemma ClaimPhaseEnds(claims: seq<Claimed>)
    ensures ClaimPhase(claims, |claims|).None?
  {
  }

  lemma NothingConflicts()
    ensures PairwiseFree([])
  {
  }

  /** One step of the claim phase, and what stays pairwise free after it. */
  lemma ClaimNext(claims: seq<Claimed>, done: seq<Claimed>, c: Claimed)
    requires done + [c] <= claims && PairwiseFree(done)
    ensures ClaimPhase(claims, |done|) ==
            var error := ClaimError(done, c); if error.Some? then error else ClaimPhase(claims, |done| + 1)
    ensures ClaimError(done, c).None? ==> PairwiseFree(done + [c])
  {
    assert claims[..|done|] == done && claims[|done|] == c;
  }

  lemma Reassociate(done: seq<Claimed>, own: seq<Claimed>, rest: seq<Claimed>, after: seq<Claimed>)
    ensures done + ((own + rest) + after) == (done + own) + (rest + after)
    ensures done + (own + rest) == (done + own) + rest
    ensures done + own <= done + ((own + rest) + after)
    ensures done + own <= done + (own + rest)
    ensures done + [] == done && (own + rest) + [] == own + rest
  {
  }

  /** First pass: ensure and replace records claim their triple or slot. */
  method ClaimRecords(table: Table, records: seq<Record>, ghost claims: seq<Claimed>, ghost after: seq<Claimed>)
    returns (error: Option<Invalid>)
    requires claims == RecordClaims(records, 0) + after && table.Records([])
    modifies table
    ensures error.Some? ==> error == ClaimPhase(claims, 0)
    ensures error.None? ==>
              var done := RecordClaims(records, 0);
              table.Records(done) && PairwiseFree(done) && ClaimPhase(claims, 0) == ClaimPhase(claims, |done|)
  {
    hide Conflict, ClaimError, Table.Records, PairwiseFree, PathIndex, RecordClaims, ClaimPhase;
    ghost var done: seq<Claimed> := [];
    NothingConflicts();
    var i := 0;
    while i < |records|
      invariant 0 <= i <= |records|
      invariant claims == done + (RecordClaims(records, i) + after)
      invariant RecordClaims(records, 0) == done + RecordClaims(records, i)
      invariant table.Records(done) && PairwiseFree(done)
      invariant ClaimPhase(claims, 0) == ClaimPhase(claims, |done|)
    {
      var r := records[i];
      var path := PathIndex("record", i);
      error := None;
      RecordClaimsFrom(records, i);
      Reassociate(done, Owning(RecordClaim(r), path), RecordClaims(records, i + 1), after);
      if r.mode == ENSURE {
        ClaimNext(claims, done, Claimed(ExactClaim(SlotOf(r), r.obj), path));
        error := table.ClaimExact(SlotOf(r), r.obj, path, done);
      } else if r.mode == REPLACE {
        ClaimNext(claims, done, Claimed(SlotClaim(SlotOf(r)), path));
        error := table.ClaimSlot(SlotOf(r), path, done);
      }
      if error.Some? {
        return;
      }
      if RecordClaim(r).Some? {
        done := done + Owning(RecordClaim(r), path);
      }
      i := i + 1;
    }
    RecordClaimsFrom(records, i);
    assert done == RecordClaims(records, 0);
    error := None;
  }

  /** Second pass: exact and slot retractions claim theirs. */
  method ClaimRetractions(table: Table, retractions: seq<Retraction>, ghost claims: seq<Claimed>,
                          ghost before: seq<Claimed>)
    returns (error: Option<Invalid>)
    requires claims == before + RetractionClaims(retractions, 0)
    requires table.Records(before) && PairwiseFree(before)
    modifies table
    ensures error.Some? ==> error == ClaimPhase(claims, |before|)
    ensures error.None? ==> table.Records(claims) && PairwiseFree(claims) && ClaimPhase(claims, |before|).None?
  {
    hide Conflict, ClaimError, Table.Records, PairwiseFree, PathIndex, RetractionClaims, ClaimPhase;
    ghost var done := before;
    var i := 0;
    while i < |retractions|
      invariant 0 <= i <= |retractions|
      invariant claims == done + RetractionClaims(retractions, i)
      invariant table.Records(done) && PairwiseFree(done)
      invariant ClaimPhase(claims, |before|) == ClaimPhase(claims, |done|)
    {
      var r := retractions[i];
      var path := PathIndex("retract", i);
      error := None;
      RetractionClaimsFrom(retractions, i);
      Reassociate(done, Owning(RetractionClaim(r), path), RetractionClaims(retractions, i + 1), []);
      assert claims == (done + Owning(RetractionClaim(r), path)) + RetractionClaims(retractions, i + 1);
      match r {
        case RetractExact(s, p, o) =>
          ClaimNext(claims, done, Claimed(ExactClaim(Slot(s, p), o), path));
          error := table.ClaimExact(Slot(s, p), o, path, done);
        case RetractSlot(s, p) =>
          ClaimNext(claims, done, Claimed(SlotClaim(Slot(s, p)), path));
          error := table.ClaimSlot(Slot(s, p), path, done);
        case _ =>
      }
      if error.Some? {
        return;
      }
      if RetractionClaim(r).Some? {
        done := done + Owning(RetractionClaim(r), path);
      }
      i := i + 1;
    }
    RetractionClaimsFrom(retractions, i);
    assert done == claims;
    ClaimPhaseEnds(claims);
    error := None;
  }

  lemma DestinationNext(claims: seq<Claimed>, d: Claimed, rest: seq<Claimed>, after: seq<Claimed>)
    ensures DestinationPhase(claims, [d] + rest + after) ==
            var error := DestinationError(claims, d);
            if error.Some? then error else DestinationPhase(claims, rest + after)
  {
    assert ([d] + rest + after)[1..] == rest + after;
  }

  /** Third pass: appended records must land outside everything claimed. */
  method CheckAppends(table: Table, records: seq<Record>, ghost claims: seq<Claimed>, ghost after: seq<Claimed>)
    returns (error: Option<Invalid>)
    requires table.Records(claims) && PairwiseFree(claims)
    ensures var all := AppendDestinations(records, 0) + after;
            if error.Some? then error == DestinationPhase(claims, all)
            else DestinationPhase(claims, all) == DestinationPhase(claims, after)
  {
    hide Table.Records, PairwiseFree, Destination, DestinationError, DestinationPhase, PathIndex;
    var i := 0;
    while i < |records|
      invariant 0 <= i <= |records|
      invariant DestinationPhase(claims, AppendDestinations(records, 0) + after)
             == DestinationPhase(claims, AppendDestinations(records, i) + after)
    {
      if records[i].mode == APPEND {
        DestinationNext(claims, Claimed(Destination(records[i]), PathIndex("record", i)),
          AppendDestinations(records, i + 1), after);
        error := table.CheckDestination(records[i], PathIndex("record", i), claims);
        if error.Some? {
          return;
        }
      } else {
        assert [] + AppendDestinations(records, i + 1) == AppendDestinations(records, i + 1);
      }
      i := i + 1;
    }
    assert [] + after == after;
    error := None;
  }

  /** Fourth pass: so must correction replacements. */
  method CheckCorrections(table: Table, corrections: seq<Correction>, ghost claims: seq<Claimed>)
    returns (error: Option<Invalid>)
    requires table.Records(claims) && PairwiseFree(claims)
    ensures error == DestinationPhase(claims, CorrectionDestinations(corrections, 0))
  {
    hide Table.Records, PairwiseFree, Destination, DestinationError, PathIndex;
    var i := 0;
    while i < |corrections|
      invariant 0 <= i <= |corrections|
      invariant DestinationPhase(claims, CorrectionDestinations(corrections, 0))
             == DestinationPhase(claims, CorrectionDestinations(corrections, i))
    {
      var path := PathIndex("correct", i) + ".with";
      var d := Claimed(Destination(corrections[i].replacement), path);
      assert CorrectionDestinations(corrections, i)[1..] == CorrectionDestinations(corrections, i + 1);
      error := table.CheckDestination(corrections[i].replacement, path, claims);
      if error.Some? {
        return;
      }
      i := i + 1;
    }
    error := None;
  }

  method ValidateOwnership(request: Request) returns (error: Option<Invalid>)
    ensures error == OwnershipError(request)
    ensures error.None? <==> NonInterfering(request)
  {
    hide Table.Records, PairwiseFree, ClaimPhase, DestinationPhase, NonInterfering;
    AcceptedExactlyWhenNonInterfering(request);
    var table := new Table();
    ghost var recorded, claims := RecordClaims(request.records, 0), Claims(request);
    error := ClaimRecords(table, request.records, claims, RetractionClaims(request.retractions, 0));
    if error.Some? {
      return;
    }
    error := ClaimRetractions(table, request.retractions, claims, recorded);
    if error.Some? {
      return;
    }
    error := CheckAppends(table, request.records, claims, CorrectionDestinations(request.corrections, 0));
    if error.Some? {
      return;
    }
    error := CheckCorrections(table, request.corrections, claims);
  }
}
