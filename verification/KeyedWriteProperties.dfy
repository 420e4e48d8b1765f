/** What every run of the keyed-write protocol guarantees, whatever the environment does. */
module KeyedWriteProperties {
  import opened Wrappers
  import opened Server
  import opened KeyedWrite

  // ------------------------------------------------------- worlds along a run

  lemma ExchangeKeepsConsistency(w: World, key: Key, body: Body, attempt: nat, max: int, move: WriteMove)
    requires Consistent(w)
    ensures Consistent(Exchange(w, key, body, attempt, max, move).0)
    ensures Extends(w, Exchange(w, key, body, attempt, max, move).0)
  {
    ProcessKeepsConsistency(w, key, body, Ours(attempt));
  }

  /** No attempt before the k-th can still arrive. */
  ghost predicate NothingUnderWay(c: Scenario, k: nat) {
    forall j | 1 <= j < k :: !MayArrive(c.env(j).move)
  }

  lemma HappenOnce(c: Scenario, w: World, h: Happening, k: nat)
    requires Consistent(w)
    ensures Consistent(Happen(c, w, h, k)) && Extends(w, Happen(c, w, h, k))
    ensures NothingUnderWay(c, k) ==> NoneOfOurs(w, Happen(c, w, h, k))
  {
    match h
    case Others(d) => DisturbOnce(w, d);
    case Late(j) => ProcessKeepsConsistency(w, c.key, c.body, Ours(j));
  }

  lemma {:induction false} HappenKeepsConsistency(c: Scenario, w: World, hs: seq<Happening>, k: nat)
    requires Consistent(w)
    ensures Consistent(HappenAll(c, w, hs, k)) && Extends(w, HappenAll(c, w, hs, k))
    ensures NothingUnderWay(c, k) ==> NoneOfOurs(w, HappenAll(c, w, hs, k))
    decreases |hs|
  {
    hide Happen, Consistent, Extends, NoneOfOurs, NothingUnderWay;
    if hs == [] {
      NothingHappens(w);
    } else {
      var last := |hs| - 1;
      var w1 := HappenAll(c, w, hs[..last], k);
      HappenKeepsConsistency(c, w, hs[..last], k);
      HappenOnce(c, w1, hs[last], k);
      ExtendsIsTransitive(w, w1, HappenAll(c, w, hs, k));
    }
  }

  lemma NothingHappens(w: World)
    ensures Extends(w, w) && NoneOfOurs(w, w)
  {
  }

  lemma {:induction false} RunKeepsConsistency(c: Scenario, k: nat)
    requires Consistent(c.start)
    ensures Consistent(WorldAfter(c, k)) && Extends(c.start, WorldAfter(c, k))
  {
    if k > 0 {
      var w := WorldAfter(c, k - 1);
      var w' := HappenAll(c, w, c.env(k).before, k);
      RunKeepsConsistency(c, k - 1);
      HappenKeepsConsistency(c, w, c.env(k).before, k);
      ExchangeKeepsConsistency(w', c.key, c.body, k, c.session.clientMaxResponseBytes, c.env(k).move);
      ExtendsIsTransitive(c.start, w, w');
      ExtendsIsTransitive(c.start, w', WorldAfter(c, k));
    }
  }

  /**
   A reply that validates is true: the pinned log holds the write.  If the node
   sent it, the node was serving that log.
   */
  lemma ValidatedReplyIsGenuine(s: Session, w: World, key: Key, body: Body, attempt: nat, move: WriteMove,
                                outDecodes: bool)
    requires Consistent(w)
    requires Failure(s, Exchange(w, key, body, attempt, s.clientMaxResponseBytes, move).1, outDecodes).None?
    ensures move.Served? ==> w.serving == s.logIdentity
    ensures Holds(Exchange(w, key, body, attempt, s.clientMaxResponseBytes, move).0, Slot(s.logIdentity, key), body)
  {
  }

  /** An attempt with no failure found its key and exactly its bytes on the pinned log. */
  lemma ValidatedSuccessIsHeld(c: Scenario, k: nat)
    requires k >= 1 && Consistent(c.start)
    requires AttemptAt(c, k).failure.None?
    ensures Holds(WorldAfter(c, k), Slot(c.session.logIdentity, c.key), c.body)
  {
  }

  /** A failed attempt that possiblySubmitted calls certain changed nothing. */
  lemma CertainFailureChangesNothing(c: Scenario, k: nat)
    requires k >= 1
    requires AttemptAt(c, k).failure.Some? && !Submitted(AttemptAt(c, k))
    ensures WorldAfter(c, k) == HappenAll(c, WorldAfter(c, k - 1), c.env(k).before, k)
  {
  }

  /** What may still arrive is what possiblySubmitted calls submitted. */
  lemma CertainFailureIsOver(c: Scenario, k: nat)
    requires k >= 1
    requires AttemptAt(c, k).failure.Some? && !Submitted(AttemptAt(c, k))
    ensures !MayArrive(c.env(k).move)
  {
  }

  /** Attempts 1 .. k all failed for certain. */
  ghost predicate AllCertain(c: Scenario, k: nat) {
    forall i | 1 <= i <= k :: AttemptAt(c, i).failure.Some? && !Submitted(AttemptAt(c, i))
  }

  lemma NothingIsUnderWay(c: Scenario, k: nat)
    requires AllCertain(c, k)
    ensures NothingUnderWay(c, k + 1)
  {
    hide AttemptAt, Submitted;
    forall j | 1 <= j <= k ensures !MayArrive(c.env(j).move) {
      CertainFailureIsOver(c, j);
    }
  }

  /** Then nothing of this run is committed, nor ever will be. */
  lemma {:induction false} CertainFailuresCommitNothing(c: Scenario, k: nat, later: seq<Happening>)
    requires Consistent(c.start) && AllCertain(c, k)
    ensures NoneOfOurs(c.start, HappenAll(c, WorldAfter(c, k), later, k + 1))
  {
    hide Consistent, Extends, NoneOfOurs, HappenAll, AttemptAt, Submitted, NothingUnderWay;
    var w := WorldAfter(c, k);
    if k == 0 {
      NothingHappens(w);
    } else {
      CertainFailuresCommitNothing(c, k - 1, c.env(k).before);
      CertainFailureChangesNothing(c, k);
    }
    RunKeepsConsistency(c, k);
    NothingIsUnderWay(c, k);
    HappenKeepsConsistency(c, w, later, k + 1);
    ExtendsIsTransitive(c.start, w, HappenAll(c, w, later, k + 1));
  }

  // ------------------------------------------------------------ trace shape

  /**
   The order of events of any run: every fourth event is a write of the one key
   and body, and between two writes the node was seen to serve the pinned log,
   the backoff was not negative and the sleep was not cut short.
   */
  lemma EveryResendIsChecked(c: Scenario, trace: seq<Event>, i: nat)
    requires IsRun(c, trace)
    requires 0 < i < AttemptsOf(trace)
    ensures AttemptsOf(trace) <= c.session.maxAttempts
    ensures 4 * i < |trace|
    ensures trace[4 * i].Wrote? && trace[4 * i].key == c.key && trace[4 * i].body == c.body
    ensures trace[4 * i - 4].Wrote? && Repeatable(trace[4 * i - 4].attempt)
    ensures trace[4 * i - 3].Rechecked? && CurrentIdentity(trace[4 * i - 3].reply) == Ok(c.session.logIdentity)
    ensures trace[4 * i - 2].BackedOff? && trace[4 * i - 2].retry == i - 1 && trace[4 * i - 2].delay >= 0
    ensures trace[4 * i - 1] == Slept(trace[4 * i - 2].delay, None)
  {
    hide AttemptAt, CurrentIdentity, RetryCandidate;
    var n := RoundsOf(trace);
    assert trace[4 * i - 4..4 * i] == RoundEvents(c, i);
    if i < n {
      assert trace[4 * i..4 * i + 4] == RoundEvents(c, i + 1);
    }
  }

  /** Every attempt but the last failed, with an error do itself returned. */
  lemma EarlierAttemptsFailed(c: Scenario, trace: seq<Event>, k: nat)
    requires IsRun(c, trace)
    requires 1 <= k <= AttemptsOf(trace)
    requires k < AttemptsOf(trace) || !trace[|trace| - 1].Wrote?
    ensures AttemptAt(c, k).failure.Some? && Repeatable(AttemptAt(c, k))
  {
    if k <= RoundsOf(trace) {
      assert Repeats(c, k);
    }
  }

  // -------------------------------------------------------------- verdicts

  /** A run returns no error exactly when its last event is a validated success. */
  lemma NilErrorMeansValidatedSuccess(c: Scenario, trace: seq<Event>)
    requires IsRun(c, trace)
    ensures Verdict(c, trace).error.None? <==>
              trace[|trace| - 1].Wrote? && trace[|trace| - 1].attempt.failure.None?
  {
    var n := AttemptsOf(trace);
    var e := trace[|trace| - 1];
    if e.Wrote? {
      assert e == WriteEvent(c, n);
    } else if n > 0 {
      EarlierAttemptsFailed(c, trace, n);
    }
  }

  /**
   Exactly once, on success, and for good: whatever happens later, late requests
   of the run included, the pinned log holds a receipt for the key with the
   caller's bytes, and among everything ever committed to that log exactly one
   commit carries the key.
   */
  lemma SuccessIsExactlyOnce(c: Scenario, trace: seq<Event>, later: seq<Happening>)
    requires IsRun(c, trace) && Consistent(c.start)
    requires Verdict(c, trace).error.None?
    ensures var n := AttemptsOf(trace);
            var w := HappenAll(c, WorldAfter(c, n), later, n + 1);
            var slot := Slot(c.session.logIdentity, c.key);
            && Holds(w, slot, c.body)
            && OncePerSlot(w.commits)
            && exists i :: 0 <= i < |w.commits| && w.commits[i].slot == slot && w.commits[i].body == c.body
  {
    hide AttemptAt, HappenAll, WorldAfter, Verdict, Consistent, OncePerSlot, Holds;
    var n := AttemptsOf(trace);
    var w := HappenAll(c, WorldAfter(c, n), later, n + 1);
    var slot := Slot(c.session.logIdentity, c.key);
    NilErrorMeansValidatedSuccess(c, trace);
    assert trace[|trace| - 1] == WriteEvent(c, n);
    ValidatedSuccessIsHeld(c, n);
    RunKeepsConsistency(c, n);
    HappenKeepsConsistency(c, WorldAfter(c, n), later, n + 1);
    HeldIsCommittedOnce(w, slot, c.body);
  }

  lemma HeldIsCommittedOnce(w: World, slot: Slot, body: Body)
    requires Consistent(w) && Holds(w, slot, body)
    ensures OncePerSlot(w.commits)
    ensures exists i :: 0 <= i < |w.commits| && w.commits[i].slot == slot && w.commits[i].body == body
  {
    assert HasCommit(w.commits, slot);
    var commit :| commit in w.commits && commit.slot == slot;
    var i :| 0 <= i < |w.commits| && w.commits[i] == commit;
    assert Holds(w, commit.slot, commit.body);
  }

  predicate IsUncertain(r: Returned) {
    r.error.Some? && r.error.value.UncertainOperationError?
  }

  lemma AttemptErrorsAreNotVerdicts(c: Scenario, k: nat)
    requires k >= 1
    ensures AttemptAt(c, k).failure.Some? ==> !AttemptAt(c, k).failure.value.UncertainOperationError?
  {
  }

  /**
   Uncertainty, exactly: a run reports it when and only when it did not end in
   validated success and either some attempt may have been submitted or the
   identity recheck stopped it.
   */
  lemma UncertainExactlyWhen(c: Scenario, trace: seq<Event>)
    requires IsRun(c, trace)
    ensures IsUncertain(Verdict(c, trace)) <==>
              && Verdict(c, trace).error.Some?
              && (trace[|trace| - 1].Rechecked?
                  || exists k :: 1 <= k <= AttemptsOf(trace) && Submitted(AttemptAt(c, k)))
  {
    hide AttemptAt, HappenAll, Submitted, CurrentIdentity, RequestIDFromError, DoubtOf;
    var n := AttemptsOf(trace);
    var e := trace[|trace| - 1];
    if n > 0 {
      AttemptErrorsAreNotVerdicts(c, n);
      DoubtedExactlyWhen(c, n);
      if !e.Wrote? {
        EarlierAttemptsFailed(c, trace, n);
      }
      if e.Slept? {
        assert c.env(RoundsOf(trace) + 1).sleepError.Some?;
      }
    }
  }

  lemma DoubtedExactlyWhen(c: Scenario, n: nat)
    ensures DoubtOf(Attempts(c, n)).Some? <==> exists k :: 1 <= k <= n && Submitted(AttemptAt(c, k))
  {
    hide AttemptAt, Submitted, RequestIDFromError;
    var attempts := Attempts(c, n);
    var first := FirstSubmitted(attempts);
    if first.Some? {
      assert Submitted(AttemptAt(c, first.value + 1));
    } else {
      forall k | 1 <= k <= n ensures !Submitted(AttemptAt(c, k)) {
        assert !Submitted(attempts[k - 1]);
      }
    }
  }

  /** The sticky doubt of a run, identified: its first possibly submitted attempt, or none. */
  lemma FirstDoubtIs(attempts: seq<Attempt>, i: nat)
    requires i < |attempts| && forall j | 0 <= j < i :: !Submitted(attempts[j])
    ensures Submitted(attempts[i]) ==>
              DoubtOf(attempts) == Some(Doubt(i + 1, RequestIDFromError(attempts[i].failure.value),
                                              attempts[i].failure.value))
    ensures !Submitted(attempts[i]) && i == |attempts| - 1 ==> DoubtOf(attempts) == None
  {
  }

  /**
   The fields of an uncertainty report.  With a possibly submitted attempt, cause
   and uncertain request ID are those of the first one, and a last failure is
   reported exactly when the final attempt is another one.  Without one they are
   those of the attempt after which the identity recheck failed.
   */
  lemma UncertaintyNamesTheFirstDoubt(c: Scenario, trace: seq<Event>, k: nat)
    requires IsRun(c, trace)
    requires IsUncertain(Verdict(c, trace))
    requires 1 <= k <= AttemptsOf(trace)
    requires forall i | 1 <= i < k :: !Submitted(AttemptAt(c, i))
    requires Submitted(AttemptAt(c, k)) || (k == AttemptsOf(trace) && trace[|trace| - 1].Rechecked?)
    ensures var u := Verdict(c, trace).error.value;
            var n := AttemptsOf(trace);
            && AttemptAt(c, k).failure == Some(u.cause)
            && u.uncertainRequestID == RequestIDFromError(u.cause)
            && u.last == (if k == n then None else AttemptAt(c, n).failure)
            && u.expectedIdentity == c.session.logIdentity
            && u.requestID == RequestIDFromError(AttemptAt(c, n).failure.value)
  {
    hide AttemptAt, PossiblySubmitted, CurrentIdentity, DoubtOf;
    var n := AttemptsOf(trace);
    if !trace[|trace| - 1].Wrote? {
      EarlierAttemptsFailed(c, trace, n);
    }
    NilErrorMeansValidatedSuccess(c, trace);
    FirstDoubtIs(Attempts(c, n), k - 1);
    var attempts := Attempts(c, n);
    assert AttemptAt(c, k) == attempts[k - 1];
    assert AttemptAt(c, n) == attempts[n - 1];
    AttemptErrorsAreNotVerdicts(c, n);
  }

  /** The error that stopped a run from outside, if one did. */
  function StopOf(e: Event): Option<Error> {
    match e
    case Cancelled(cause) => Some(cause)
    case BackedOff(_, _) => Some(NEGATIVE_BACKOFF)
    case Slept(_, failure) => failure
    case _ => None
  }

  /**
   What else a failed run says: it hands back the response of its final attempt; an
   uncertainty report carries what stopped the run and what the identity recheck
   found, which is another log if it found one; a stopped retry carries the final
   attempt's error and the stop; and any other error is the final attempt's own.
   */
  lemma FailuresNameTheirStop(c: Scenario, trace: seq<Event>)
    requires IsRun(c, trace) && AttemptsOf(trace) >= 1 && Verdict(c, trace).error.Some?
    ensures var n, e, v := AttemptsOf(trace), trace[|trace| - 1], Verdict(c, trace);
            && v.response == OutcomeOf(c, n).response
            && AttemptAt(c, n).failure.Some?
            && match v.error.value {
                 case UncertainOperationError(_, _, expected, observed, _, _, identityCause, stopCause) =>
                   && stopCause == StopOf(e)
                   && (identityCause.Some? <==> e.Rechecked? && CurrentIdentity(e.reply).Err?)
                   && (identityCause.Some? ==> identityCause.value == CurrentIdentity(e.reply).error)
                   && (e.Rechecked? && identityCause.None? ==>
                         CurrentIdentity(e.reply) == Ok(observed) && observed != expected)
                   && (e.BackedOff? || e.Slept? ==> observed == expected)
                   && (e.Wrote? || e.Cancelled? || identityCause.Some? ==> observed == "")
                 case RetryStoppedError(id, stoppedAfter, stop) =>
                   && Some(stop) == StopOf(e) && Some(stoppedAfter) == AttemptAt(c, n).failure
                   && id == RequestIDFromError(stoppedAfter)
                 case other => e.Wrote? && Some(other) == AttemptAt(c, n).failure
               }
  {
    hide AttemptAt, PossiblySubmitted, CurrentIdentity, DoubtOf, RequestIDFromError;
    var n, e := AttemptsOf(trace), trace[|trace| - 1];
    if !e.Wrote? {
      EarlierAttemptsFailed(c, trace, n);
    }
    NilErrorMeansValidatedSuccess(c, trace);
    AttemptErrorsAreNotVerdicts(c, n);
    assert Attempts(c, n)[n - 1] == AttemptAt(c, n);
    FinalOutcome(c, n);
  }

  lemma FinalOutcome(c: Scenario, n: nat)
    requires n >= 1
    ensures AttemptAt(c, n).outcome == OutcomeOf(c, n)
    ensures AttemptAt(c, n).failure.Some? ==> !AttemptAt(c, n).failure.value.RetryStoppedError?
  {
  }

  /**
   Certainty: an error other than an uncertainty report (a plain error, a stopped
   retry, a cancellation) proves that no attempt of the whole run committed
   anything on any log, and that none will, whatever happens later.
   */
  lemma OrdinaryErrorMeansNothingCommitted(c: Scenario, trace: seq<Event>, later: seq<Happening>)
    requires IsRun(c, trace) && Consistent(c.start)
    requires Verdict(c, trace).error.Some? && !IsUncertain(Verdict(c, trace))
    ensures var n := AttemptsOf(trace);
            NoneOfOurs(c.start, HappenAll(c, WorldAfter(c, n), later, n + 1))
  {
    hide AttemptAt, Submitted, HappenAll, WorldAfter, Verdict, Consistent, NoneOfOurs, IsUncertain;
    var n := AttemptsOf(trace);
    UncertainExactlyWhen(c, trace);
    NilErrorMeansValidatedSuccess(c, trace);
    forall k | 1 <= k <= n
      ensures AttemptAt(c, k).failure.Some? && !Submitted(AttemptAt(c, k))
    {
      if k < n || !trace[|trace| - 1].Wrote? {
        EarlierAttemptsFailed(c, trace, k);
      } else {
        assert trace[|trace| - 1] == WriteEvent(c, n);
      }
    }
    CertainFailuresCommitNothing(c, n, later);
  }

  /**
   Why uncertainty cannot be avoided: with the slot still free, a lost request
   and a lost response look the same to the client, and only one committed.
   */
  lemma LostRequestLooksLikeLostResponse(w: World, key: Key, body: Body, attempt: nat, max: int, id: string)
    requires Slot(w.serving, key) !in w.receipts
    ensures Exchange(w, key, body, attempt, max, RequestLost(id)).1
         == Exchange(w, key, body, attempt, max, Served(ResponseLost(id))).1
    ensures NoneOfOurs(w, Exchange(w, key, body, attempt, max, RequestLost(id)).0)
    ensures !NoneOfOurs(w, Exchange(w, key, body, attempt, max, Served(ResponseLost(id))).0)
  {
    var w' := Exchange(w, key, body, attempt, max, Served(ResponseLost(id))).0;
    assert w'.commits[|w.commits|].origin == Ours(attempt);
  }

  lemma EndedRunDoesNotRepeat(c: Scenario, trace: seq<Event>)
    requires IsRun(c, trace)
    ensures forall k | 1 <= k <= RoundsOf(trace) :: Repeats(c, k)
    ensures RoundsOf(trace) + 1 < c.session.maxAttempts ==> !Repeats(c, RoundsOf(trace) + 1)
  {
  }

  /** The trace predicate pins a run down: a scenario has one trace. */
  lemma TraceIsDetermined(c: Scenario, t1: seq<Event>, t2: seq<Event>)
    requires IsRun(c, t1) && IsRun(c, t2)
    ensures t1 == t2
  {
    hide AttemptAt, CurrentIdentity, RetryCandidate;
    var n1, n2 := RoundsOf(t1), RoundsOf(t2);
    EndedRunDoesNotRepeat(c, t1);
    EndedRunDoesNotRepeat(c, t2);
    var p1, p2 := t1[..4 * n1], t2[..4 * n1];
    forall i | 0 <= i < 4 * n1 ensures p1[i] == p2[i] {
      var k := i / 4 + 1;
      assert Repeats(c, k);
      assert p1[i] == p1[4 * k - 4..4 * k][i % 4] && p2[i] == p2[4 * k - 4..4 * k][i % 4];
    }
    assert t1 == p1 + t1[4 * n1..] && t2 == p2 + t2[4 * n1..];
  }

  const PINNED := "aaaaaaaaaaaaaaaaaaaaaaaaaaaaaaaa"
  const OTHER := "bbbbbbbbbbbbbbbbbbbbbbbbbbbbbbbb"

  /** A scenario in which the log is swapped away before each attempt, and back before each recheck. */
  function SwapRace(): Scenario {
    Scenario(Session(true, false, PINNED, 128, "", 1000, 1000, 1000, 2), "k", "b",
      (k: nat) =>
        if k == 1
        then Turn(None, [Others(SwapLog(OTHER))], 0, Served(ResponseLost("r1")), true, Introspected(1, PINNED), 0, None)
        else Turn(None, [Others(SwapLog(PINNED))], 1, Served(Delivered(Reply(200, "r2", 0, true, Intact))), true,
                  Introspected(1, PINNED), 0, None),
      World(PINNED, map[], []))
  }

  lemma SwapOnly(c: Scenario, w: World, log: LogId, k: nat)
    ensures HappenAll(c, w, [Others(SwapLog(log))], k) == w.(serving := log)
  {
    assert [Others(SwapLog(log))][..0] == [];
    assert HappenAll(c, w, [], k) == w;
  }

  lemma SwapRaceFirstAttempt()
    ensures WorldAfter(SwapRace(), 1)
         == World(OTHER, map[Slot(OTHER, "k") := "b"], [Commit(Slot(OTHER, "k"), "b", Ours(1))])
    ensures Repeats(SwapRace(), 1)
  {
    var c := SwapRace();
    assert WorldAfter(c, 0) == c.start;
    SwapOnly(c, c.start, OTHER, 1);
  }

  lemma SwapRaceSecondAttempt()
    ensures WorldAfter(SwapRace(), 2).commits
         == [Commit(Slot(OTHER, "k"), "b", Ours(1)), Commit(Slot(PINNED, "k"), "b", Ours(2))]
    ensures AttemptAt(SwapRace(), 2).failure.None?
  {
    var c := SwapRace();
    SwapRaceFirstAttempt();
    SwapOnly(c, WorldAfter(c, 1), PINNED, 2);
    assert Slot(PINNED, "k") !in WorldAfter(c, 1).receipts by { assert PINNED[0] != OTHER[0]; }
  }

  /**
   The limit of the guarantee: the recheck and the resend are two steps, so the
   log can be swapped between them.  Here the first attempt commits on another
   log, its response is lost, the recheck sees the pinned log again, and the
   second attempt succeeds: one run, one key, a commit on each of two logs.
   */
  lemma OneRunMayCommitOnTwoLogs(trace: seq<Event>)
    requires trace == RoundEvents(SwapRace(), 1) + [WriteEvent(SwapRace(), 2)]
    ensures IsRun(SwapRace(), trace) && Consistent(SwapRace().start) && Verdict(SwapRace(), trace).error.None?
    ensures WorldAfter(SwapRace(), AttemptsOf(trace)).commits
         == [Commit(Slot(OTHER, "k"), "b", Ours(1)), Commit(Slot(PINNED, "k"), "b", Ours(2))]
  {
    hide AttemptAt, OutcomeOf, WorldAfter, Verdict, Repeats, RoundEvents, IsRun;
    var c := SwapRace();
    SwapRaceFirstAttempt();
    SwapRaceSecondAttempt();
    assert Rounds(c, [], 0);
    OneMoreRound(c, [], 0);
    assert [] + RoundEvents(c, 1) == RoundEvents(c, 1);
    RunEnds(c, RoundEvents(c, 1), 1, [WriteEvent(c, 2)]);
    NilErrorMeansValidatedSuccess(c, trace);
  }
}
