/** Session.writeExact: the bounded keyed-write retry loop, against every behaviour of its environment. */
module KeyedWrite {
  import opened Wrappers
  import opened Server
  import opened Keys
  import Text

  // ---------------------------------------------------------------- outcomes

  datatype Payload = NotJson | Payload(committed: bool, identity: string)

  datatype Response = Response(status: int, requestID: string, size: nat, replayHeader: bool, payload: Payload)

  datatype Error =
    | CapabilityError(reason: string)
    | InvalidKeyError(key: string)
    | RequestTooLargeError(size: int, limit: int)
    | BeforeSendError(detail: string)
    | TransportError(requestID: string)
    | APIError(status: int, retryable: bool, requestID: string)
    | ResponseTooLargeError(status: int, requestID: string)
    | ProtocolError(requestID: string)
    | DecodeError(requestID: string)
    | LocalError(detail: string)
    | RetryStoppedError(requestID: string, stoppedAfter: Error, stop: Error)
    | UncertainOperationError(
        requestID: string, uncertainRequestID: string, expectedIdentity: string, observedIdentity: string,
        cause: Error, last: Option<Error>, identityCause: Option<Error>, stopCause: Option<Error>)

  function RequestIDFromError(err: Error): string {
    match err
    case CapabilityError(_) => ""
    case InvalidKeyError(_) => ""
    case RequestTooLargeError(_, _) => ""
    case BeforeSendError(_) => ""
    case LocalError(_) => ""
    case _ => err.requestID
  }

  predicate Is2xx(status: int) { 200 <= status < 300 }

  type ErrorStatus = status: int | !(200 <= status <= 299) witness 500

  type SuccessStatus = status: int | 200 <= status <= 299 witness 200

  // What the client's do returns for one POST /write.
  datatype Outcome = Outcome(response: Option<Response>, error: Option<Error>)

  // What a damaged 2xx reply still says.  Damage removes a claim; it never invents one.
  datatype Garble = Intact | Truncated | CommittedLost | IdentityLost

  datatype Reply = Reply(status: SuccessStatus, requestID: string, size: nat, replayHeader: bool, garble: Garble)

  datatype Fate =
    | ResponseLost(requestID: string)
    | ReadFailed(status: int, requestID: string)
    | Delivered(reply: Reply)

  // What becomes of one request, as the adversary chooses it.
  datatype WriteMove =
    | FailsBeforeSend(detail: string)
    | RequestLost(requestID: string)
    | Intercepted(reply: Reply, claim: Payload)
    | Refused(status: ErrorStatus, retryable: bool, refusedID: string)
    | Unread(unreadStatus: int, unreadID: string)
    | Served(fate: Fate)

  function Garbled(p: Payload, garble: Garble): Payload {
    match garble
    case Intact => p
    case Truncated => NotJson
    case CommittedLost => if p.Payload? then p.(committed := false) else p
    case IdentityLost => if p.Payload? then p.(identity := "") else p
  }

  /** do reading a 2xx reply whose undamaged payload is p, under the client's response limit. */
  function ReadReply(reply: Reply, p: Payload, maxResponseBytes: int): Outcome {
    var payload := if reply.size > maxResponseBytes then NotJson else Garbled(p, reply.garble);
    var response := Response(reply.status, reply.requestID, reply.size, reply.replayHeader, payload);
    Outcome(Some(response),
      if reply.size > maxResponseBytes then Some(ResponseTooLargeError(reply.status, reply.requestID)) else None)
  }

  /** What an intermediary may answer on its own: anything, except that a write committed which did not. */
  function Truthful(w: World, key: Key, body: Body, claim: Payload): Payload {
    if claim.Payload? && claim.committed && !Holds(w, Slot(claim.identity, key), body) then NotJson else claim
  }

  /**
   One request against the node.  A fully read non-2xx reply and a failure before
   sending never commit; every transport failure may or may not have.
   */
  function Exchange(w: World, key: Key, body: Body, attempt: nat, maxResponseBytes: int, move: WriteMove)
    : (World, Outcome)
  {
    match move
    case FailsBeforeSend(detail) => (w, Outcome(None, Some(BeforeSendError(detail))))
    case RequestLost(id) => (w, Outcome(None, Some(TransportError(id))))
    case Intercepted(reply, claim) => (w, ReadReply(reply, Truthful(w, key, body, claim), maxResponseBytes))
    case Refused(status, retryable, id) =>
      (w, Outcome(Some(Response(status, id, 0, false, NotJson)), Some(APIError(status, retryable, id))))
    case Unread(status, id) =>
      (w, Outcome(Some(Response(status, id, 0, false, NotJson)), Some(TransportError(id))))
    case Served(fate) =>
      var (w', admission) := Process(w, key, body, Ours(attempt));
      match fate {
        case ResponseLost(id) => (w', Outcome(None, Some(TransportError(id))))
        case ReadFailed(status, id) =>
          (w', Outcome(Some(Response(status, id, 0, false, NotJson)), Some(TransportError(id))))
        case Delivered(reply) =>
          if admission.Conflict? then
            (w', Outcome(Some(Response(409, reply.requestID, 0, false, NotJson)),
                         Some(APIError(409, false, reply.requestID))))
          else
            (w', ReadReply(reply, Payload(true, w.serving), maxResponseBytes))
      }
  }

  // ----------------------------------------------------------------- session

  // The pinned snapshot a session carries, and the client's response limit.
  datatype Session = Session(
    writable: bool, ingestion: bool, logIdentity: LogId,
    maxKeyBytes: int, requiredKeyPrefix: string, maxJSONRequestBytes: int, responseMaxBytes: int,
    clientMaxResponseBytes: int, maxAttempts: int)

  predicate ValidLogIdentity(identity: string) {
    |identity| == 32 && forall i | 0 <= i < 32 :: Text.LowerHex(identity[i])
  }

  /** RetryPolicy.normalized on MaxAttempts. */
  function NormalizedAttempts(maxAttempts: int): (r: Result<int, Error>)
    ensures r.Ok? ==> 1 <= r.value <= 10 && r.value == if maxAttempts == 0 then 1 else maxAttempts
    ensures r.Err? <==> maxAttempts < 0 || maxAttempts > 10
    ensures r.Err? ==> r.error == CapabilityError("retry MaxAttempts must be in 1..10")
  {
    var n := if maxAttempts == 0 then 1 else maxAttempts;
    if n < 1 || n > 10 then Err(CapabilityError("retry MaxAttempts must be in 1..10")) else Ok(n)
  }

  // What a context reports once it is done.
  type ContextError = err: Error | err.LocalError? witness LocalError("")

  // What happens to the node between two attempts of the run: others write or the
  // log is swapped, or an earlier attempt's request turns up after all.
  datatype Happening = Others(d: Disturbance) | Late(attempt: nat)

  // Everything the environment does around one attempt.  Of what happens before
  // it, the first recheckedAfter things happen before the preceding recheck.
  datatype Turn = Turn(
    cancelled: Option<ContextError>,
    before: seq<Happening>, recheckedAfter: nat, move: WriteMove, outDecodes: bool,
    recheck: Introspection,
    delay: int, sleepError: Option<Error>)

  /** A request the client has no definite answer to may still be under way, or be repeated by the network. */
  predicate MayArrive(move: WriteMove) {
    move.RequestLost? || move.Intercepted? || move.Unread? || (move.Served? && !move.fate.Delivered?)
  }

  datatype Introspection = Unavailable(error: Error) | Introspected(schemaVersion: int, identity: string)

  const INTROSPECTION_SCHEMA_FLOOR := 1

  function CurrentIdentity(reply: Introspection): Result<LogId, Error> {
    match reply
    case Unavailable(error) => Err(error)
    case Introspected(version, identity) =>
      if version < INTROSPECTION_SCHEMA_FLOOR || !ValidLogIdentity(identity)
      then Err(CapabilityError("identity recheck returned invalid introspection"))
      else Ok(identity)
  }

  predicate PossiblySubmitted(response: Option<Response>, err: Error) {
    err.TransportError? || (response.Some? && Is2xx(response.value.status))
  }

  predicate RetryCandidate(err: Error) {
    err.TransportError? || (err.APIError? && (err.retryable || err.status == 429))
  }

  function ValidateWriteSuccess(s: Session, response: Response): Option<Error> {
    var refused := Some(ProtocolError(response.requestID));
    if !response.replayHeader then refused
    else if response.payload.NotJson? then refused
    else if !response.payload.committed then refused
    else if !ValidLogIdentity(response.payload.identity) then refused
    else if response.payload.identity != s.logIdentity then refused
    else None
  }

  // writeUncertainty, read as a value.
  datatype Doubt = Doubt(attempt: nat, requestID: string, cause: Error)

  /** Session.uncertain. */
  function Uncertain(s: Session, doubt: Option<Doubt>, last: Error, lastAttempt: nat,
                     identityCause: Option<Error>, stopCause: Option<Error>, observed: string, requestID: string)
    : Error
  {
    var state := if doubt.Some? then doubt.value else Doubt(lastAttempt, requestID, last);
    UncertainOperationError(requestID, state.requestID, s.logIdentity, observed, state.cause,
      if state.attempt != lastAttempt then Some(last) else None, identityCause, stopCause)
  }

  datatype Returned = Returned(response: Option<Response>, error: Option<Error>)

  /** What writeExact refuses before its first attempt. */
  function EntryRefusal(s: Session, key: Key, body: Body): Option<Error> {
    if !s.writable && !s.ingestion then Some(CapabilityError("session was not preflighted for writes"))
    else if !ValidKey(key, s.maxKeyBytes, s.requiredKeyPrefix) then Some(InvalidKeyError(key))
    else if |body| > s.maxJSONRequestBytes then Some(RequestTooLargeError(|body|, s.maxJSONRequestBytes))
    else None
  }

  // ------------------------------------------------------------------- trace

  // What an observer of the client sees.
  datatype Event =
    | Cancelled(cause: ContextError)
    | Wrote(key: Key, body: Body, attempt: Attempt)
    | Rechecked(reply: Introspection)
    | BackedOff(retry: int, delay: int)
    | Slept(delay: int, failure: Option<Error>)

  /** The error an answered attempt amounts to: none only for a validated success. */
  function Failure(s: Session, outcome: Outcome, outDecodes: bool): Option<Error> {
    if outcome.error.Some? then outcome.error
    else if outcome.response.None? then None
    else if outcome.response.value.size > s.responseMaxBytes then
      Some(ProtocolError(outcome.response.value.requestID))
    else
      var refused := ValidateWriteSuccess(s, outcome.response.value);
      if refused.Some? then refused
      else if !outDecodes then Some(DecodeError(outcome.response.value.requestID))
      else None
  }

  // One call of writeExact together with everything its environment will do.
  datatype Scenario = Scenario(session: Session, key: Key, body: Body, env: nat -> Turn, start: World)

  /** One thing that happens before attempt k. */
  function Happen(c: Scenario, w: World, h: Happening, k: nat): World {
    match h
    case Others(d) => Disturb(w, d)
    case Late(j) => if 1 <= j < k && MayArrive(c.env(j).move) then Process(w, c.key, c.body, Ours(j)).0 else w
  }

  function HappenAll(c: Scenario, w: World, hs: seq<Happening>, k: nat): World
    decreases |hs|
  {
    if hs == [] then w else Happen(c, HappenAll(c, w, hs[..|hs| - 1], k), hs[|hs| - 1], k)
  }

  /** The world once attempt k (counting from 1) is over, k - 1 others having gone before. */
  function WorldAfter(c: Scenario, k: nat): World {
    if k == 0 then c.start
    else
      var w := HappenAll(c, WorldAfter(c, k - 1), c.env(k).before, k);
      Exchange(w, c.key, c.body, k, c.session.clientMaxResponseBytes, c.env(k).move).0
  }

  function OutcomeOf(c: Scenario, k: nat): Outcome
    requires k >= 1
  {
    var w := HappenAll(c, WorldAfter(c, k - 1), c.env(k).before, k);
    Exchange(w, c.key, c.body, k, c.session.clientMaxResponseBytes, c.env(k).move).1
  }

  // One write as an observer sees it: what do returned and what that amounts to.
  datatype Attempt = Attempt(outcome: Outcome, failure: Option<Error>)

  function AttemptAt(c: Scenario, k: nat): Attempt
    requires k >= 1
  {
    Attempt(OutcomeOf(c, k), Failure(c.session, OutcomeOf(c, k), c.env(k).outDecodes))
  }

  /** The first n attempts, in order. */
  function Attempts(c: Scenario, n: nat): (r: seq<Attempt>)
    ensures |r| == n && forall i | 0 <= i < n :: r[i] == AttemptAt(c, i + 1)
  {
    if n == 0 then [] else Attempts(c, n - 1) + [AttemptAt(c, n)]
  }

  /** An attempt that failed in a way the client may repeat. */
  predicate Repeatable(a: Attempt) {
    a.outcome.error.Some? && RetryCandidate(a.outcome.error.value)
  }

  /** A write that failed and yet may have committed. */
  predicate Submitted(a: Attempt) {
    a.failure.Some? && PossiblySubmitted(a.outcome.response, a.failure.value)
  }

  function WriteEvent(c: Scenario, k: nat): Event
    requires k >= 1
  {
    Wrote(c.key, c.body, AttemptAt(c, k))
  }

  /** The events of attempt k when it is followed by another: a repeatable failure, then three clean steps. */
  function RoundEvents(c: Scenario, k: nat): seq<Event>
    requires k >= 1
  {
    var turn := c.env(k);
    [WriteEvent(c, k), Rechecked(turn.recheck), BackedOff(k - 1, turn.delay), Slept(turn.delay, turn.sleepError)]
  }

  predicate Repeats(c: Scenario, k: nat)
    requires k >= 1
  {
    var turn := c.env(k);
    && turn.cancelled.None? && Repeatable(AttemptAt(c, k))
    && CurrentIdentity(turn.recheck) == Ok(c.session.logIdentity)
    && turn.delay >= 0 && turn.sleepError.None?
  }

  /** A trace made of the complete rounds of attempts 1 .. n. */
  ghost predicate Rounds(c: Scenario, trace: seq<Event>, n: nat) {
    && |trace| == 4 * n
    && forall k | 1 <= k <= n :: Repeats(c, k) && trace[4 * k - 4..4 * k] == RoundEvents(c, k)
  }

  /** The final events of a run whose last attempt is (or would have been) attempt k. */
  predicate Ending(c: Scenario, tail: seq<Event>, k: nat)
    requires k >= 1
  {
    var turn := c.env(k);
    var wrote := WriteEvent(c, k);
    if turn.cancelled.Some? then tail == [Cancelled(turn.cancelled.value)]
    else if k == c.session.maxAttempts || !Repeatable(AttemptAt(c, k)) then tail == [wrote]
    else if CurrentIdentity(turn.recheck) != Ok(c.session.logIdentity) then
      tail == [wrote, Rechecked(turn.recheck)]
    else if turn.delay < 0 then
      tail == [wrote, Rechecked(turn.recheck), BackedOff(k - 1, turn.delay)]
    else
      && turn.sleepError.Some?
      && tail == [wrote, Rechecked(turn.recheck), BackedOff(k - 1, turn.delay), Slept(turn.delay, turn.sleepError)]
  }

  /** The complete rounds of a run, which its one to four final events follow. */
  function RoundsOf(trace: seq<Event>): nat
    requires trace != []
  {
    (|trace| - 1) / 4
  }

  /** The number of writes a run made. */
  function AttemptsOf(trace: seq<Event>): nat
    requires trace != []
  {
    RoundsOf(trace) + if trace[|trace| - 1].Cancelled? then 0 else 1
  }

  ghost predicate IsRun(c: Scenario, trace: seq<Event>) {
    && trace != []
    && RoundsOf(trace) < c.session.maxAttempts
    && Rounds(c, trace[..4 * RoundsOf(trace)], RoundsOf(trace))
    && Ending(c, trace[4 * RoundsOf(trace)..], RoundsOf(trace) + 1)
  }

  /** The first of the given attempts that may have committed. */
  function FirstSubmitted(attempts: seq<Attempt>): (r: Option<nat>)
    ensures r.Some? ==> r.value < |attempts| && Submitted(attempts[r.value])
    ensures r.Some? ==> forall i | 0 <= i < r.value :: !Submitted(attempts[i])
    ensures r.None? ==> forall i | 0 <= i < |attempts| :: !Submitted(attempts[i])
  {
    if attempts == [] then None
    else
      var n := |attempts| - 1;
      var earlier := FirstSubmitted(attempts[..n]);
      if earlier.Some? then earlier else if Submitted(attempts[n]) then Some(n) else None
  }

  function DoubtOf(attempts: seq<Attempt>): Option<Doubt> {
    var first := FirstSubmitted(attempts);
    if first.None? then None
    else
      var cause := attempts[first.value].failure.value;
      Some(Doubt(first.value + 1, RequestIDFromError(cause), cause))
  }

  /**
   What a run that made these attempts returns, read off the attempts alone:
   identityFailed tells that the identity recheck ended it, stop that a
   cancellation, a negative backoff or a failed sleep did.
   */
  function Conclusion(s: Session, attempts: seq<Attempt>, identityFailed: bool, identityCause: Option<Error>,
                      stop: Option<Error>, observed: string): Returned
    requires attempts != []
  {
    var last := attempts[|attempts| - 1];
    var doubt := DoubtOf(attempts);
    var error :=
      if last.failure.None? then None
      else
        var err := last.failure.value;
        var id := RequestIDFromError(err);
        if doubt.Some? || identityFailed
        then Some(Uncertain(s, doubt, err, |attempts|, identityCause, stop, observed, id))
        else if stop.Some? then Some(RetryStoppedError(id, err, stop.value))
        else Some(err);
    Returned(last.outcome.response, error)
  }

  const NEGATIVE_BACKOFF := LocalError("joeydb: retry backoff must not be negative")

  /** What a run of n attempts returns when e is the event that ended it. */
  function Report(c: Scenario, n: nat, e: Event): Returned {
    var s := c.session;
    var attempts := Attempts(c, n);
    if n == 0 then Returned(None, if e.Cancelled? then Some(e.cause) else None)
    else
      match e
      case Cancelled(cause) => Conclusion(s, attempts, false, None, Some(cause), "")
      case Wrote(_, _, _) => Conclusion(s, attempts, false, None, None, "")
      case Rechecked(reply) =>
        (match CurrentIdentity(reply)
         case Err(cause) => Conclusion(s, attempts, true, Some(cause), None, "")
         case Ok(observed) => Conclusion(s, attempts, true, None, None, observed))
      case BackedOff(_, _) => Conclusion(s, attempts, false, None, Some(NEGATIVE_BACKOFF), s.logIdentity)
      case Slept(_, failure) => Conclusion(s, attempts, false, None, failure, s.logIdentity)
  }

  function Verdict(c: Scenario, trace: seq<Event>): Returned
    requires trace != []
  {
    Report(c, AttemptsOf(trace), trace[|trace| - 1])
  }

  lemma OneMoreRound(c: Scenario, rounds: seq<Event>, n: nat)
    requires Rounds(c, rounds, n) && Repeats(c, n + 1)
    ensures Rounds(c, rounds + RoundEvents(c, n + 1), n + 1)
  {
    var longer := rounds + RoundEvents(c, n + 1);
    forall k | 1 <= k <= n + 1 ensures Repeats(c, k) && longer[4 * k - 4..4 * k] == RoundEvents(c, k) {
      if k <= n {
        assert longer[4 * k - 4..4 * k] == rounds[4 * k - 4..4 * k];
      }
    }
  }

  lemma RunEnds(c: Scenario, rounds: seq<Event>, n: nat, tail: seq<Event>)
    requires Rounds(c, rounds, n) && n < c.session.maxAttempts && Ending(c, tail, n + 1)
    ensures IsRun(c, rounds + tail)
    ensures AttemptsOf(rounds + tail) == if tail[|tail| - 1].Cancelled? then n else n + 1
    ensures Verdict(c, rounds + tail) == Report(c, AttemptsOf(rounds + tail), tail[|tail| - 1])
  {
    var trace := rounds + tail;
    assert RoundsOf(trace) == n;
    assert trace[..4 * n] == rounds && trace[4 * n..] == tail;
  }

  /** Doubt is sticky: a later attempt raises it only when no earlier one did. */
  lemma DoubtIsSticky(c: Scenario, n: nat)
    requires n >= 1
    ensures var before := DoubtOf(Attempts(c, n - 1));
            var a := AttemptAt(c, n);
            DoubtOf(Attempts(c, n)) ==
            if before.Some? then before
            else if Submitted(a) then Some(Doubt(n, RequestIDFromError(a.failure.value), a.failure.value))
            else None
  {
    hide AttemptAt, Submitted, RequestIDFromError;
    var attempts := Attempts(c, n);
    assert attempts[..n - 1] == Attempts(c, n - 1);
  }

  lemma NothingYet(c: Scenario)
    ensures DoubtOf(Attempts(c, 0)) == None
    ensures Rounds(c, [], 0)
  {
  }

  lemma AttemptsAre(c: Scenario, n: nat)
    ensures |Attempts(c, n)| == n
    ensures n > 0 ==> Attempts(c, n)[n - 1] == AttemptAt(c, n)
    ensures n > 0 ==> var a := AttemptAt(c, n);
            if a.outcome.error.Some? then a.failure == a.outcome.error
            else a.outcome.response.Some?
                 && (a.failure.Some? ==>
                       Submitted(a) && RequestIDFromError(a.failure.value) == a.outcome.response.value.requestID)
  {
    hide OutcomeOf;
    if n > 0 {
      AnswersAre2xx(c, n);
    }
  }

  lemma AnswersAre2xx(c: Scenario, k: nat)
    requires k >= 1
    ensures OutcomeOf(c, k).error.None? ==>
              OutcomeOf(c, k).response.Some? && Is2xx(OutcomeOf(c, k).response.value.status)
  {
    hide HappenAll, WorldAfter;
  }

  /** What a run that its last write ended returns. */
  lemma ReportAfterWrite(c: Scenario, n: nat, doubt: Option<Doubt>)
    requires n >= 1 && doubt == DoubtOf(Attempts(c, n))
    ensures var a := AttemptAt(c, n);
            Report(c, n, WriteEvent(c, n)) == Returned(a.outcome.response,
              if a.failure.None? then None
              else if doubt.None? then a.failure
              else Some(Uncertain(c.session, doubt, a.failure.value, n, None, None, "",
                                  RequestIDFromError(a.failure.value))))
  {
    hide AttemptAt, DoubtOf;
  }

  /** What a run cancelled before attempt n + 1 returns. */
  lemma ReportAfterCancellation(c: Scenario, n: nat, doubt: Option<Doubt>, cause: ContextError)
    requires doubt == DoubtOf(Attempts(c, n))
    requires n > 0 ==> AttemptAt(c, n).failure.Some?
    ensures Report(c, n, Cancelled(cause)) ==
            if n == 0 then Returned(None, Some(cause))
            else
              var err := AttemptAt(c, n).failure.value;
              Returned(AttemptAt(c, n).outcome.response, Some(
                if doubt.None? then RetryStoppedError(RequestIDFromError(err), err, cause)
                else Uncertain(c.session, doubt, err, n, None, Some(cause), "", RequestIDFromError(err))))
  {
    hide AttemptAt, DoubtOf;
  }

  lemma SubmittedError(a: Attempt)
    ensures Submitted(a) <==> a.failure.Some? && PossiblySubmitted(a.outcome.response, a.failure.value)
  {
  }

  // -------------------------------------------------------------------- loop

  /** The sticky uncertainty state of writeExact. */
  class WriteUncertainty {
    var active: bool
    var attempt: nat
    var requestID: string
    var cause: Option<Error>

    ghost predicate Valid()
      reads this
    {
      active ==> cause.Some?
    }

    function State(): Option<Doubt>
      requires Valid()
      reads this
    {
      if active then Some(Doubt(attempt, requestID, cause.value)) else None
    }

    constructor ()
      ensures Valid() && State() == None
    {
      active, attempt, requestID, cause := false, 0, "", None;
    }

    method Note(attempt: nat, response: Option<Response>, err: Error)
      requires Valid()
      modifies this
      ensures Valid()
      ensures State() ==
              if old(State()).Some? || !PossiblySubmitted(response, err) then old(State())
              else Some(Doubt(attempt, RequestIDFromError(err), err))
    {
      if active || !PossiblySubmitted(response, err) {
        return;
      }
      active := true;
      this.attempt := attempt;
      requestID := RequestIDFromError(err);
      cause := Some(err);
    }
  }

  /** The tail of the loop body: identity recheck, backoff, sleep; stopped is the error that ends the run, if any. */
  method BetweenAttempts(c: Scenario, attempt: nat, err: Error, uncertainty: WriteUncertainty)
    returns (stopped: Option<Error>, seen: seq<Event>)
    requires 1 <= attempt < c.session.maxAttempts && c.env(attempt).cancelled.None?
    requires Repeatable(AttemptAt(c, attempt)) && AttemptAt(c, attempt).outcome.error == Some(err)
    requires uncertainty.Valid() && uncertainty.State() == DoubtOf(Attempts(c, attempt))
    ensures stopped.None? ==> Repeats(c, attempt) && [WriteEvent(c, attempt)] + seen == RoundEvents(c, attempt)
    ensures stopped.Some? ==>
              && seen != [] && !seen[|seen| - 1].Cancelled?
              && Ending(c, [WriteEvent(c, attempt)] + seen, attempt)
              && Report(c, attempt, seen[|seen| - 1]) == Returned(OutcomeOf(c, attempt).response, stopped)
  {
    hide Exchange, Failure, CurrentIdentity, DoubtOf, Submitted, Attempts, HappenAll;
    var s := c.session;
    var turn := c.env(attempt);
    AttemptsAre(c, attempt);
    seen := [Rechecked(turn.recheck)];
    var identity := CurrentIdentity(turn.recheck);
    if identity.Err? {
      stopped := Some(Uncertain(s, uncertainty.State(), err, attempt, Some(identity.error), None, "",
        RequestIDFromError(err)));
      return;
    }
    var observed := identity.value;
    if observed != s.logIdentity {
      stopped := Some(Uncertain(s, uncertainty.State(), err, attempt, None, None, observed, RequestIDFromError(err)));
      return;
    }
    var delay := turn.delay;
    seen := seen + [BackedOff(attempt - 1, delay)];
    if delay < 0 {
      stopped := Some(
        if uncertainty.active
        then Uncertain(s, uncertainty.State(), err, attempt, None, Some(NEGATIVE_BACKOFF), observed,
                       RequestIDFromError(err))
        else RetryStoppedError(RequestIDFromError(err), err, NEGATIVE_BACKOFF));
      return;
    }
    seen := seen + [Slept(delay, turn.sleepError)];
    if turn.sleepError.Some? {
      stopped := Some(
        if uncertainty.active
        then Uncertain(s, uncertainty.State(), err, attempt, None, turn.sleepError, observed, RequestIDFromError(err))
        else RetryStoppedError(RequestIDFromError(err), err, turn.sleepError.value));
      return;
    }
    stopped := None;
  }

  /** The head of the loop body, once the context is done and n attempts have failed. */
  method StoppedByContext(c: Scenario, n: nat, lastResponse: Option<Response>, lastErr: Option<Error>,
                          uncertainty: WriteUncertainty, cause: ContextError)
    returns (r: Returned)
    requires uncertainty.Valid() && uncertainty.State() == DoubtOf(Attempts(c, n))
    requires if n == 0 then lastResponse.None? && lastErr.None?
             else OutcomeOf(c, n) == Outcome(lastResponse, lastErr) && lastErr.Some?
    ensures r == Report(c, n, Cancelled(cause))
  {
    hide Exchange, Failure, HappenAll, DoubtOf, Submitted, Attempts, Conclusion, Report, RequestIDFromError;
    AttemptsAre(c, n);
    ReportAfterCancellation(c, n, uncertainty.State(), cause);
    NothingYet(c);
    if uncertainty.active {
      r := Returned(lastResponse, Some(Uncertain(c.session, uncertainty.State(), lastErr.value, n, None,
        Some(cause), "", RequestIDFromError(lastErr.value))));
    } else if lastErr.Some? {
      r := Returned(lastResponse, Some(RetryStoppedError(RequestIDFromError(lastErr.value), lastErr.value, cause)));
    } else {
      r := Returned(lastResponse, Some(cause));
    }
  }

  method WriteExact(c: Scenario)
    returns (r: Returned, w: World, trace: seq<Event>)
    ensures EntryRefusal(c.session, c.key, c.body).Some? ==>
              r == Returned(None, EntryRefusal(c.session, c.key, c.body)) && w == c.start && trace == []
    ensures EntryRefusal(c.session, c.key, c.body).None? && c.session.maxAttempts < 1 ==>
              r == Returned(None, None) && w == c.start && trace == []
    ensures EntryRefusal(c.session, c.key, c.body).None? && c.session.maxAttempts >= 1 ==>
              IsRun(c, trace) && w == WorldAfter(c, AttemptsOf(trace)) && r == Verdict(c, trace)
  {
    hide Exchange, Failure, EntryRefusal, HappenAll, DoubtOf, Submitted, Attempts, IsRun, Rounds,
      Verdict, AttemptsOf, Report, Conclusion, CurrentIdentity, RequestIDFromError;
    w, trace := c.start, [];
    var s := c.session;
    var refusal := EntryRefusal(s, c.key, c.body);
    if refusal.Some? {
      return Returned(None, refusal), w, trace;
    }
    var lastResponse: Option<Response> := None;
    var lastErr: Option<Error> := None;
    var uncertainty := new WriteUncertainty();
    NothingYet(c);
    var attempt := 1;
    while attempt <= s.maxAttempts
      invariant 1 <= attempt
      invariant if 1 <= s.maxAttempts then attempt <= s.maxAttempts else attempt == 1 && trace == []
      invariant Rounds(c, trace, attempt - 1)
      invariant w == WorldAfter(c, attempt - 1)
      invariant uncertainty.Valid() && uncertainty.State() == DoubtOf(Attempts(c, attempt - 1))
      invariant attempt == 1 ==> lastResponse.None? && lastErr.None?
      invariant attempt > 1 ==> OutcomeOf(c, attempt - 1) == Outcome(lastResponse, lastErr) && lastErr.Some?
      decreases s.maxAttempts - attempt
    {
      ghost var rounds := trace;
      var turn := c.env(attempt);
      if turn.cancelled.Some? {
        var cause := turn.cancelled.value;
        r := StoppedByContext(c, attempt - 1, lastResponse, lastErr, uncertainty, cause);
        trace := trace + [Cancelled(cause)];
        RunEnds(c, rounds, attempt - 1, [Cancelled(cause)]);
        return;
      }
      var (world, outcome) := Exchange(HappenAll(c, w, turn.before, attempt), c.key, c.body, attempt,
        s.clientMaxResponseBytes, turn.move);
      w := world;
      lastResponse, lastErr := outcome.response, outcome.error;
      trace := trace + [WriteEvent(c, attempt)];
      AttemptsAre(c, attempt);
      DoubtIsSticky(c, attempt);
      if lastErr.None? {
        var failure := Failure(s, outcome, turn.outDecodes);
        if failure.Some? {
          r := Returned(lastResponse, Some(Uncertain(s, uncertainty.State(), failure.value, attempt, None, None, "",
            lastResponse.value.requestID)));
        } else {
          r := Returned(lastResponse, None);
        }
        ReportAfterWrite(c, attempt, DoubtOf(Attempts(c, attempt)));
        RunEnds(c, rounds, attempt - 1, [WriteEvent(c, attempt)]);
        return;
      }
      var err := lastErr.value;
      uncertainty.Note(attempt, lastResponse, err);
      assert uncertainty.State() == DoubtOf(Attempts(c, attempt)) by { SubmittedError(AttemptAt(c, attempt)); }
      if attempt == s.maxAttempts || !RetryCandidate(err) {
        if uncertainty.active {
          r := Returned(lastResponse, Some(Uncertain(s, uncertainty.State(), err, attempt, None, None, "",
            RequestIDFromError(err))));
        } else {
          r := Returned(lastResponse, Some(err));
        }
        ReportAfterWrite(c, attempt, DoubtOf(Attempts(c, attempt)));
        RunEnds(c, rounds, attempt - 1, [WriteEvent(c, attempt)]);
        return;
      }
      var stopped, seen := BetweenAttempts(c, attempt, err, uncertainty);
      trace := trace + seen;
      assert trace == rounds + ([WriteEvent(c, attempt)] + seen);
      if stopped.Some? {
        r := Returned(lastResponse, stopped);
        RunEnds(c, rounds, attempt - 1, [WriteEvent(c, attempt)] + seen);
        return;
      }
      OneMoreRound(c, rounds, attempt - 1);
      attempt := attempt + 1;
    }
    r := Returned(lastResponse, lastErr);
  }
}
