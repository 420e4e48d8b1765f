/** What a keyed write does after each attempt, told by what the network did to it. */
module ObservedRuns {
  import opened Wrappers
  import opened Server
  import opened KeyedWrite
  import opened KeyedWriteProperties

  predicate LowerHex32(s: string) { |s| == 32 && forall i | 0 <= i < 32 :: s[i] in "0123456789abcdef" }

  lemma IdentitiesAreLowerHex32(s: string)
    ensures ValidLogIdentity(s) <==> LowerHex32(s)
  {
    assert forall ch: char :: ch in "0123456789abcdef" <==> '0' <= ch <= '9' || 'a' <= ch <= 'f';
  }

  // ------------------------------------------------------ at the entry

  predicate KeyLetter(ch: char) {
    'A' <= ch <= 'Z' || 'a' <= ch <= 'z' || '0' <= ch <= '9' || ch in {'.', '_', ':', '-'}
  }

  /**
   What is refused before anything is sent: a session not preflighted for writing or
   ingesting, a key that is not 1 to 128 letters of the key alphabet, or too long for
   the node, or without the required prefix and something after it, and a body over
   the advertised limit; in this order, with these errors.
   */
  lemma RefusedAtEntryExactlyWhen(s: Session, key: Key, body: Body)
    ensures EntryRefusal(s, key, body) ==
            if !(s.writable || s.ingestion) then
              Some(CapabilityError("session was not preflighted for writes"))
            else if !(&& 1 <= |key| <= 128 && |key| <= s.maxKeyBytes
                      && (forall i | 0 <= i < |key| :: KeyLetter(key[i]))
                      && (s.requiredKeyPrefix == "" || (s.requiredKeyPrefix <= key && s.requiredKeyPrefix != key)))
              then Some(InvalidKeyError(key))
            else if |body| > s.maxJSONRequestBytes then Some(RequestTooLargeError(|body|, s.maxJSONRequestBytes))
            else None
  {
  }

  // ------------------------------------------------------ one attempt

  /**
   An attempt succeeds exactly when a 2xx reply within both size limits carries the
   replay header, says that it committed on the pinned log, and decodes.
   */
  lemma SucceedsExactlyWhen(c: Scenario, k: nat)
    requires k >= 1
    ensures var o := OutcomeOf(c, k);
            AttemptAt(c, k).failure.None? <==>
              && o.error.None? && o.response.Some?
              && o.response.value.size <= c.session.responseMaxBytes && o.response.value.replayHeader
              && o.response.value.payload == Payload(true, c.session.logIdentity) && LowerHex32(c.session.logIdentity)
              && c.env(k).outDecodes
  {
    hide Exchange, HappenAll, ValidLogIdentity, LowerHex32;
    IdentitiesAreLowerHex32(c.session.logIdentity);
    SomethingComesBack(c, k);
  }

  lemma SomethingComesBack(c: Scenario, k: nat)
    requires k >= 1
    ensures OutcomeOf(c, k).error.Some? || OutcomeOf(c, k).response.Some?
  {
  }

  /** The node as attempt k finds it. */
  function Found(c: Scenario, k: nat): World
    requires k >= 1
  {
    HappenAll(c, WorldAfter(c, k - 1), c.env(k).before, k)
  }

  /** What a 2xx reply comes to, given whether it says, if undamaged, that the pinned log has the commit. */
  function Reading(c: Scenario, k: nat, reply: Reply, pinned: bool): Option<Error> {
    var s := c.session;
    if reply.size > s.clientMaxResponseBytes then Some(ResponseTooLargeError(reply.status, reply.requestID))
    else if !(reply.size <= s.responseMaxBytes && reply.replayHeader && reply.garble == Intact && pinned) then
      Some(ProtocolError(reply.requestID))
    else if !LowerHex32(s.logIdentity) then Some(ProtocolError(reply.requestID))
    else if !c.env(k).outDecodes then Some(DecodeError(reply.requestID))
    else None
  }

  lemma ReadingExactly(c: Scenario, k: nat, reply: Reply, p: Payload)
    ensures Failure(c.session, ReadReply(reply, p, c.session.clientMaxResponseBytes), c.env(k).outDecodes) ==
            Reading(c, k, reply, p == Payload(true, c.session.logIdentity))
  {
    IdentitiesAreLowerHex32(c.session.logIdentity);
  }

  /**
   What comes of an attempt, by what the network and the node did: a break, a refusal
   or a failure before sending as it is; a conflict when the node serves a log where
   the key is held with another body; and otherwise what the reply comes to, the
   node's own reply naming the log it serves, another's claiming only what is held.
   */
  lemma AttemptFailsExactly(c: Scenario, k: nat)
    requires k >= 1
    ensures var w, pinned := Found(c, k), c.session.logIdentity;
            AttemptAt(c, k).failure ==
            match c.env(k).move
            case FailsBeforeSend(detail) => Some(BeforeSendError(detail))
            case RequestLost(id) => Some(TransportError(id))
            case Unread(_, id) => Some(TransportError(id))
            case Served(ResponseLost(id)) => Some(TransportError(id))
            case Served(ReadFailed(_, id)) => Some(TransportError(id))
            case Refused(status, retryable, id) => Some(APIError(status, retryable, id))
            case Intercepted(reply, claim) =>
              Reading(c, k, reply, claim == Payload(true, pinned) && Holds(w, Slot(pinned, c.key), c.body))
            case Served(Delivered(reply)) =>
              if Slot(w.serving, c.key) in w.receipts && !Holds(w, Slot(w.serving, c.key), c.body)
              then Some(APIError(409, false, reply.requestID))
              else Reading(c, k, reply, w.serving == pinned)
  {
    hide HappenAll, Reading, ReadReply, Failure;
    var w := Found(c, k);
    match c.env(k).move
    case Intercepted(reply, claim) =>
      ReadingExactly(c, k, reply, Truthful(w, c.key, c.body, claim));
    case Served(Delivered(reply)) =>
      BreaksAreFailures(c, k);
      ReadingExactly(c, k, reply, Payload(true, w.serving));
    case _ =>
      BreaksAreFailures(c, k);
  }

  lemma BreaksAreFailures(c: Scenario, k: nat)
    requires k >= 1
    ensures OutcomeOf(c, k).error.Some? ==> AttemptAt(c, k).failure == OutcomeOf(c, k).error
  {
  }

  /** The network lost the request or the reply, or broke off while the reply was read. */
  predicate Broke(move: WriteMove) {
    move.RequestLost? || move.Unread? || (move.Served? && !move.fate.Delivered?)
  }

  /** A reply of a 2xx status came back and was read. */
  predicate Answered(c: Scenario, k: nat)
    requires k >= 1
  {
    || c.env(k).move.Intercepted?
    || (c.env(k).move.Served? && c.env(k).move.fate.Delivered? && OutcomeOf(c, k).response != None
        && OutcomeOf(c, k).response.value.status != 409)
  }

  /** An attempt may have committed exactly when the network broke or a 2xx reply does not amount to success. */
  lemma SubmittedExactlyWhen(c: Scenario, k: nat)
    requires k >= 1
    ensures Submitted(AttemptAt(c, k)) <==>
              Broke(c.env(k).move) || (Answered(c, k) && AttemptAt(c, k).failure.Some?)
  {
  }

  /** The error is one that is worth sending the same request again for. */
  predicate WorthRepeating(error: Option<Error>) {
    match error
    case Some(TransportError(_)) => true
    case Some(APIError(status, retryable, _)) => retryable || status == 429
    case _ => false
  }

  /**
   By what the network did: a break, and a refusal that is declared retryable or has
   status 429.  Neither a failure before sending, nor a reply that was read, nor a
   conflict.
   */
  lemma WorthRepeatingExactlyWhen(c: Scenario, k: nat)
    requires k >= 1
    ensures var move := c.env(k).move;
            WorthRepeating(OutcomeOf(c, k).error) <==>
              Broke(move) || (move.Refused? && (move.retryable || move.status == 429))
  {
  }

  /** The request ID of a failed attempt is the one the network handed out with it. */
  lemma FailuresCarryTheirRequestID(c: Scenario, k: nat)
    requires k >= 1 && AttemptAt(c, k).failure.Some?
    ensures RequestIDFromError(AttemptAt(c, k).failure.value) ==
            match c.env(k).move
            case FailsBeforeSend(_) => ""
            case RequestLost(id) => id
            case Intercepted(reply, _) => reply.requestID
            case Refused(_, _, id) => id
            case Unread(_, id) => id
            case Served(ResponseLost(id)) => id
            case Served(ReadFailed(_, id)) => id
            case Served(Delivered(reply)) => reply.requestID
  {
  }

  // ------------------------------------------------------ after an attempt

  lemma RepeatableIsWorthRepeating(c: Scenario, k: nat)
    requires k >= 1
    ensures Repeatable(AttemptAt(c, k)) <==> WorthRepeating(OutcomeOf(c, k).error)
  {
  }

  /**
   Going on, exactly: after its k-th write a run looks at the node's identity again
   when the error is worth repeating and an attempt is left, and ends otherwise.
   */
  lemma RecheckedExactlyWhen(c: Scenario, trace: seq<Event>, k: nat)
    requires IsRun(c, trace) && 1 <= k <= AttemptsOf(trace)
    ensures 4 * k - 4 < |trace| && trace[4 * k - 4].Wrote?
    ensures if k < c.session.maxAttempts && WorthRepeating(OutcomeOf(c, k).error)
            then 4 * k - 3 < |trace| && trace[4 * k - 3] == Rechecked(c.env(k).recheck)
            else |trace| == 4 * k - 3
  {
    hide AttemptAt, OutcomeOf, CurrentIdentity, Repeatable, WorthRepeating;
    RepeatableIsWorthRepeating(c, k);
    var n := RoundsOf(trace);
    if k <= n {
      assert Repeats(c, k);
      assert trace[..4 * n][4 * k - 4..4 * k] == trace[4 * k - 4..4 * k] == RoundEvents(c, k);
    } else {
      assert trace[4 * n..] == trace[4 * k - 4..];
    }
  }

  /**
   A recheck lets the run go on to the backoff exactly when introspection answered,
   in a schema of version 1 or later, with the pinned identity.
   */
  lemma RecheckPassesExactlyWhen(c: Scenario, trace: seq<Event>, k: nat)
    requires IsRun(c, trace) && 1 <= k <= AttemptsOf(trace)
    requires 4 * k - 3 < |trace| && trace[4 * k - 3].Rechecked?
    ensures var reply := trace[4 * k - 3].reply;
            var pinned := c.session.logIdentity;
            4 * k - 2 < |trace| <==>
              reply.Introspected? && reply.schemaVersion >= 1 && reply.identity == pinned && LowerHex32(pinned)
  {
    hide AttemptAt, Repeatable, ValidLogIdentity, LowerHex32;
    var n := RoundsOf(trace);
    var reply := c.env(k).recheck;
    IdentitiesAreLowerHex32(c.session.logIdentity);
    if k <= n {
      assert Repeats(c, k);
      assert trace[..4 * n][4 * k - 4..4 * k] == trace[4 * k - 4..4 * k] == RoundEvents(c, k);
    } else {
      assert trace[4 * n..] == trace[4 * k - 4..];
    }
    assert CurrentIdentity(reply) == Ok(c.session.logIdentity) <==>
      reply.Introspected? && reply.schemaVersion >= 1 && reply.identity == c.session.logIdentity
      && ValidLogIdentity(c.session.logIdentity);
  }

  lemma ReportsThePinnedIdentity(c: Scenario, trace: seq<Event>)
    requires IsRun(c, trace) && AttemptsOf(trace) >= 1 && IsUncertain(Verdict(c, trace))
    ensures Verdict(c, trace).error.value.expectedIdentity == c.session.logIdentity
  {
    hide IsRun, AttemptAt;
    var n := AttemptsOf(trace);
    assert Attempts(c, n)[n - 1] == AttemptAt(c, n);
    AttemptErrorsAreNotVerdicts(c, n);
  }

  /** What stopped an uncertain run, and what it saw of the node's identity, by the event that ended it. */
  lemma UncertainRunsNameTheirStop(c: Scenario, trace: seq<Event>)
    requires IsRun(c, trace) && AttemptsOf(trace) >= 1
    requires IsUncertain(Verdict(c, trace))
    ensures var report := Verdict(c, trace).error.value;
            (report.identityCause, report.stopCause, report.observedIdentity) ==
            match trace[|trace| - 1]
            case Cancelled(cause) => (None, Some(cause), "")
            case Wrote(_, _, _) => (None, None, "")
            case Rechecked(Unavailable(error)) => (Some(error), None, "")
            case Rechecked(Introspected(version, identity)) =>
              if version < 1 || !LowerHex32(identity)
              then (Some(CapabilityError("identity recheck returned invalid introspection")), None, "")
              else (None, None, identity)
            case BackedOff(_, _) =>
              (None, Some(LocalError("joeydb: retry backoff must not be negative")), c.session.logIdentity)
            case Slept(_, failure) => (None, failure, c.session.logIdentity)
  {
    hide IsRun, Verdict, AttemptAt, OutcomeOf, LowerHex32, ValidLogIdentity;
    FailuresNameTheirStop(c, trace);
    ReportsThePinnedIdentity(c, trace);
    var e := trace[|trace| - 1];
    if e.Rechecked? && e.reply.Introspected? {
      IdentitiesAreLowerHex32(e.reply.identity);
    }
  }
}
