/** On which logs a run commits: exactly when a run keeps to the pinned log. */
module CommitPlacement {
  // A key is committed on a log by the first write of it that reaches the node while
  // it serves that log, and which log an attempt finds depends on the log swaps
  // alone.  So where the commits of a run lie can be read off its script, and the
  // promise that retries stay on the pinned log gets its exact condition.

  import opened Server
  import opened KeyedWrite

  // ------------------------------------------------- what the script tells

  /** The log served once hs have happened: that of the last swap. */
  function ServingAfter(serving: LogId, hs: seq<Happening>): LogId
    decreases |hs|
  {
    if hs == [] then serving
    else
      var h := hs[|hs| - 1];
      if h.Others? && h.d.SwapLog? then h.d.log else ServingAfter(serving, hs[..|hs| - 1])
  }

  /** The log attempt n finds, n = 0 being the start. */
  function Found(c: Scenario, n: nat): LogId {
    if n == 0 then c.start.serving else ServingAfter(Found(c, n - 1), c.env(n).before)
  }

  // One write of the run's key that reaches the node, and the log it finds there.
  datatype Touch = Touch(log: LogId, origin: Origin)

  /** A late request of the run that does turn up before attempt k. */
  predicate Arrives(c: Scenario, h: Happening, k: nat) {
    h.Late? && 1 <= h.attempt < k && MayArrive(c.env(h.attempt).move)
  }

  function TouchOf(c: Scenario, serving: LogId, h: Happening, k: nat): seq<Touch> {
    if Arrives(c, h, k) then [Touch(serving, Ours(h.attempt))]
    else if h.Others? && h.d.OtherWrite? && h.d.key == c.key then [Touch(serving, Theirs)]
    else []
  }

  function TouchesIn(c: Scenario, serving: LogId, hs: seq<Happening>, k: nat): seq<Touch>
    decreases |hs|
  {
    if hs == [] then []
    else
      var last := |hs| - 1;
      TouchesIn(c, serving, hs[..last], k) + TouchOf(c, ServingAfter(serving, hs[..last]), hs[last], k)
  }

  /** The writes of the run's key that reach the node up to and including attempt n, in order. */
  function Touches(c: Scenario, n: nat): seq<Touch> {
    if n == 0 then []
    else
      Touches(c, n - 1) + TouchesIn(c, Found(c, n - 1), c.env(n).before, n)
      + (if c.env(n).move.Served? then [Touch(Found(c, n), Ours(n))] else [])
  }

  /** The same once some more things have happened after attempt n. */
  function TouchesLater(c: Scenario, n: nat, later: seq<Happening>): seq<Touch> {
    Touches(c, n) + TouchesIn(c, Found(c, n), later, n + 1)
  }

  function WorldLater(c: Scenario, n: nat, later: seq<Happening>): World {
    HappenAll(c, WorldAfter(c, n), later, n + 1)
  }

  predicate Untouched(ts: seq<Touch>, log: LogId) {
    forall i | 0 <= i < |ts| :: ts[i].log != log
  }

  /** The first touch on the log is origin's. */
  ghost predicate FirstTouch(ts: seq<Touch>, log: LogId, origin: Origin) {
    exists i :: 0 <= i < |ts| && ts[i] == Touch(log, origin) && Untouched(ts[..i], log)
  }

  // ---------------------------------------------- commits are first touches

  /** Since start, origin has committed under slot. */
  ghost predicate CommittedFor(start: World, w: World, slot: Slot, origin: Origin) {
    exists i :: |start.commits| <= i < |w.commits| && w.commits[i].slot == slot && w.commits[i].origin == origin
  }

  /** What has become of key on log since start, if the touches were ts. */
  ghost predicate ExplainedOn(start: World, w: World, key: Key, ts: seq<Touch>, log: LogId) {
    var slot := Slot(log, key);
    && (slot in w.receipts <==> slot in start.receipts || !Untouched(ts, log))
    && forall o :: CommittedFor(start, w, slot, o) <==> slot !in start.receipts && FirstTouch(ts, log, o)
  }

  ghost predicate Explained(start: World, w: World, key: Key, ts: seq<Touch>) {
    start.commits <= w.commits && forall log :: ExplainedOn(start, w, key, ts, log)
  }

  lemma OneMoreTouch(ts: seq<Touch>, t: Touch, log: LogId, origin: Origin)
    ensures Untouched(ts + [t], log) <==> Untouched(ts, log) && t.log != log
    ensures FirstTouch(ts + [t], log, origin) <==>
              FirstTouch(ts, log, origin) || (Untouched(ts, log) && t == Touch(log, origin))
  {
    var longer := ts + [t];
    forall i | 0 <= i <= |ts| ensures longer[..i] == ts[..i] {}
    assert forall i | 0 <= i < |ts| :: longer[i] == ts[i];
    assert longer[|ts|] == t && ts[..|ts|] == ts;
    if FirstTouch(longer, log, origin) {
      var i :| 0 <= i < |longer| && longer[i] == Touch(log, origin) && Untouched(longer[..i], log);
      if i < |ts| {
        assert ts[i] == Touch(log, origin) && Untouched(ts[..i], log);
      }
    }
    if FirstTouch(ts, log, origin) {
      var i :| 0 <= i < |ts| && ts[i] == Touch(log, origin) && Untouched(ts[..i], log);
      assert longer[i] == Touch(log, origin) && Untouched(longer[..i], log);
    }
  }

  lemma OneMoreCommit(start: World, w: World, w': World, slot: Slot, origin: Origin)
    requires start.commits <= w.commits
    requires |w'.commits| == |w.commits| + 1 && w.commits == w'.commits[..|w.commits|]
    ensures start.commits <= w'.commits
    ensures CommittedFor(start, w', slot, origin) <==>
              CommittedFor(start, w, slot, origin)
              || (w'.commits[|w.commits|].slot == slot && w'.commits[|w.commits|].origin == origin)
  {
    var n := |w.commits|;
    assert forall i | 0 <= i < n :: w'.commits[i] == w.commits[i];
    if CommittedFor(start, w, slot, origin) {
      var i :| |start.commits| <= i < n && w.commits[i].slot == slot && w.commits[i].origin == origin;
      assert w'.commits[i].slot == slot && w'.commits[i].origin == origin;
    }
  }

  lemma ProcessExplainedOn(start: World, w: World, key: Key, body: Body, origin: Origin, ts: seq<Touch>, log: LogId)
    requires start.commits <= w.commits && ExplainedOn(start, w, key, ts, log)
    ensures ExplainedOn(start, Process(w, key, body, origin).0, key, ts + [Touch(w.serving, origin)], log)
  {
    hide CommittedFor, FirstTouch, Untouched;
    var w' := Process(w, key, body, origin).0;
    var slot := Slot(log, key);
    var t := Touch(w.serving, origin);
    OneMoreTouch(ts, t, log, origin);
    forall o
      ensures CommittedFor(start, w', slot, o) <==> slot !in start.receipts && FirstTouch(ts + [t], log, o)
    {
      OneMoreTouch(ts, t, log, o);
      if w' != w {
        OneMoreCommit(start, w, w', slot, o);
      }
    }
  }

  lemma ProcessIsATouch(start: World, w: World, key: Key, body: Body, origin: Origin, ts: seq<Touch>)
    requires Explained(start, w, key, ts)
    ensures Explained(start, Process(w, key, body, origin).0, key, ts + [Touch(w.serving, origin)])
  {
    hide ExplainedOn;
    forall log
      ensures ExplainedOn(start, Process(w, key, body, origin).0, key, ts + [Touch(w.serving, origin)], log)
    {
      ProcessExplainedOn(start, w, key, body, origin, ts, log);
    }
  }

  lemma OtherKeysDoNotTouch(start: World, w: World, key: Key, other: Key, body: Body, ts: seq<Touch>)
    requires other != key && Explained(start, w, key, ts)
    ensures Explained(start, Process(w, other, body, Theirs).0, key, ts)
  {
    hide CommittedFor, FirstTouch, Untouched;
    var w' := Process(w, other, body, Theirs).0;
    if w' != w {
      forall log ensures ExplainedOn(start, w', key, ts, log) {
        forall o ensures CommittedFor(start, w', Slot(log, key), o) <==> CommittedFor(start, w, Slot(log, key), o) {
          OneMoreCommit(start, w, w', Slot(log, key), o);
        }
        assert ExplainedOn(start, w, key, ts, log);
      }
    }
  }

  lemma SwapsDoNotTouch(start: World, w: World, log: LogId, key: Key, ts: seq<Touch>)
    requires Explained(start, w, key, ts)
    ensures Explained(start, w.(serving := log), key, ts)
  {
    hide FirstTouch, Untouched;
    var w' := w.(serving := log);
    forall l ensures ExplainedOn(start, w', key, ts, l) {
      assert ExplainedOn(start, w, key, ts, l);
      assert forall o :: CommittedFor(start, w', Slot(l, key), o) <==> CommittedFor(start, w, Slot(l, key), o);
    }
  }

  lemma HappenExplained(c: Scenario, w: World, h: Happening, k: nat, ts: seq<Touch>)
    requires Explained(c.start, w, c.key, ts)
    ensures Explained(c.start, Happen(c, w, h, k), c.key, ts + TouchOf(c, w.serving, h, k))
  {
    hide Explained, Process;
    assert ts + [] == ts;
    match h
    case Others(SwapLog(log)) => SwapsDoNotTouch(c.start, w, log, c.key, ts);
    case Others(OtherWrite(key, body)) =>
      if key == c.key {
        ProcessIsATouch(c.start, w, key, body, Theirs, ts);
      } else {
        OtherKeysDoNotTouch(c.start, w, c.key, key, body, ts);
      }
    case Late(j) => ProcessIsATouch(c.start, w, c.key, c.body, Ours(j), ts);
  }

  lemma {:induction false} HappenAllExplained(c: Scenario, w: World, hs: seq<Happening>, k: nat, ts: seq<Touch>)
    requires Explained(c.start, w, c.key, ts)
    ensures HappenAll(c, w, hs, k).serving == ServingAfter(w.serving, hs)
    ensures Explained(c.start, HappenAll(c, w, hs, k), c.key, ts + TouchesIn(c, w.serving, hs, k))
    decreases |hs|
  {
    hide Explained, TouchOf;
    if hs == [] {
      assert ts + [] == ts;
    } else {
      var last := |hs| - 1;
      var w1 := HappenAll(c, w, hs[..last], k);
      var ts1 := TouchesIn(c, w.serving, hs[..last], k);
      HappenAllExplained(c, w, hs[..last], k, ts);
      HappenExplained(c, w1, hs[last], k, ts + ts1);
      assert ts + ts1 + TouchOf(c, w1.serving, hs[last], k) == ts + TouchesIn(c, w.serving, hs, k);
    }
  }

  lemma NothingTouchedYet(start: World, key: Key)
    ensures Explained(start, start, key, [])
  {
  }

  lemma {:induction false} RunExplained(c: Scenario, n: nat)
    ensures WorldAfter(c, n).serving == Found(c, n)
    ensures Explained(c.start, WorldAfter(c, n), c.key, Touches(c, n))
  {
    hide Explained, HappenAll, TouchesIn, Process, ReadReply;
    if n == 0 {
      NothingTouchedYet(c.start, c.key);
    } else {
      RunExplained(c, n - 1);
      var w := HappenAll(c, WorldAfter(c, n - 1), c.env(n).before, n);
      var ts := Touches(c, n - 1) + TouchesIn(c, Found(c, n - 1), c.env(n).before, n);
      HappenAllExplained(c, WorldAfter(c, n - 1), c.env(n).before, n, Touches(c, n - 1));
      ServedOrNot(c, w, n);
      if c.env(n).move.Served? {
        ProcessIsATouch(c.start, w, c.key, c.body, Ours(n), ts);
      } else {
        assert ts + [] == ts;
      }
    }
  }

  /** Only a request that is served changes anything. */
  lemma ServedOrNot(c: Scenario, w: World, n: nat)
    ensures var w' := Exchange(w, c.key, c.body, n, c.session.clientMaxResponseBytes, c.env(n).move).0;
            w' == (if c.env(n).move.Served? then Process(w, c.key, c.body, Ours(n)).0 else w)
            && w'.serving == w.serving
  {
  }

  /** Some request of the run has committed on the log. */
  ghost predicate OursOn(c: Scenario, n: nat, later: seq<Happening>, log: LogId) {
    exists k :: CommittedFor(c.start, WorldLater(c, n, later), Slot(log, c.key), Ours(k))
  }

  /**
   Who committed the key where, exactly: on every log, the request whose write of
   the key was the first to find that log, unless the log held the key at the start.
   */
  lemma CommitsAreFirstTouches(c: Scenario, n: nat, later: seq<Happening>, log: LogId, origin: Origin)
    ensures CommittedFor(c.start, WorldLater(c, n, later), Slot(log, c.key), origin) <==>
              Slot(log, c.key) !in c.start.receipts && FirstTouch(TouchesLater(c, n, later), log, origin)
  {
    hide CommittedFor, FirstTouch;
    RunExplained(c, n);
    HappenAllExplained(c, WorldAfter(c, n), later, n + 1, Touches(c, n));
    assert ExplainedOn(c.start, WorldLater(c, n, later), c.key, TouchesLater(c, n, later), log);
  }

  lemma WhoeverWroteFirst(c: Scenario, n: nat, later: seq<Happening>, log: LogId)
    ensures WorldLater(c, n, later).serving == ServingAfter(Found(c, n), later)
    ensures Slot(log, c.key) in WorldLater(c, n, later).receipts <==>
              Slot(log, c.key) in c.start.receipts || !Untouched(TouchesLater(c, n, later), log)
  {
    hide CommittedFor, FirstTouch, Untouched;
    RunExplained(c, n);
    HappenAllExplained(c, WorldAfter(c, n), later, n + 1, Touches(c, n));
    assert ExplainedOn(c.start, WorldLater(c, n, later), c.key, TouchesLater(c, n, later), log);
  }

  lemma ProcessCommits(w: World, key: Key, body: Body, origin: Origin)
    ensures Process(w, key, body, origin).0.commits ==
            w.commits + if Slot(w.serving, key) in w.receipts then [] else [Commit(Slot(w.serving, key), body, origin)]
  {
  }

  lemma NextAttempt(c: Scenario, n: nat)
    requires n >= 1
    ensures Found(c, n) == ServingAfter(Found(c, n - 1), c.env(n).before)
    ensures WorldAfter(c, n) == Exchange(WorldLater(c, n - 1, c.env(n).before), c.key, c.body, n,
                                         c.session.clientMaxResponseBytes, c.env(n).move).0
  {
  }

  /** Attempt n commits: it is served by a log on which nobody has written the key yet. */
  predicate Commits(c: Scenario, n: nat)
    requires n >= 1
  {
    && c.env(n).move.Served? && Slot(Found(c, n), c.key) !in c.start.receipts
    && Untouched(TouchesLater(c, n - 1, c.env(n).before), Found(c, n))
  }

  /** An attempt on a log that holds its key commits nothing; any other that is served does. */
  lemma AttemptCommitsExactlyWhen(c: Scenario, n: nat)
    requires n >= 1
    ensures WorldAfter(c, n).commits ==
            WorldLater(c, n - 1, c.env(n).before).commits +
            if Commits(c, n) then [Commit(Slot(Found(c, n), c.key), c.body, Ours(n))] else []
  {
    hide Untouched, TouchesLater, WorldLater, Exchange, Process, WorldAfter, Found;
    var w := WorldLater(c, n - 1, c.env(n).before);
    NextAttempt(c, n);
    WhoeverWroteFirst(c, n - 1, c.env(n).before, Found(c, n));
    ServedOrNot(c, w, n);
    ProcessCommits(w, c.key, c.body, Ours(n));
  }

  // ------------------------------------------------- where requests of the run land

  predicate ServedOn(c: Scenario, k: nat, log: LogId) {
    c.env(k).move.Served? && Found(c, k) == log
  }

  /** One of hs, which follow attempt k - 1, is a late request of the run, and it finds the log. */
  ghost predicate LateOn(c: Scenario, hs: seq<Happening>, k: nat, log: LogId)
    requires k >= 1
  {
    exists i :: 0 <= i < |hs| && Arrives(c, hs[i], k) && ServingAfter(Found(c, k - 1), hs[..i]) == log
  }

  /** Some request of the run finds the log. */
  ghost predicate Reaches(c: Scenario, n: nat, later: seq<Happening>, log: LogId) {
    || (exists k :: 1 <= k <= n && (ServedOn(c, k, log) || LateOn(c, c.env(k).before, k, log)))
    || LateOn(c, later, n + 1, log)
  }

  ghost predicate OursTouch(ts: seq<Touch>, log: LogId) {
    exists t :: t in ts && t.log == log && t.origin.Ours?
  }

  lemma LateOnOneMore(c: Scenario, hs: seq<Happening>, k: nat, log: LogId)
    requires k >= 1 && hs != []
    ensures var front, h := hs[..|hs| - 1], hs[|hs| - 1];
            LateOn(c, hs, k, log) <==>
            LateOn(c, front, k, log) || (Arrives(c, h, k) && ServingAfter(Found(c, k - 1), front) == log)
  {
    var last := |hs| - 1;
    var front := hs[..last];
    assert forall i | 0 <= i <= last :: front[..i] == hs[..i];
    if LateOn(c, hs, k, log) {
      var i :| 0 <= i < |hs| && Arrives(c, hs[i], k) && ServingAfter(Found(c, k - 1), hs[..i]) == log;
      if i < last {
        assert Arrives(c, front[i], k) && ServingAfter(Found(c, k - 1), front[..i]) == log;
      }
    }
    if LateOn(c, front, k, log) {
      var i :| 0 <= i < last && Arrives(c, front[i], k) && ServingAfter(Found(c, k - 1), front[..i]) == log;
      assert Arrives(c, hs[i], k) && ServingAfter(Found(c, k - 1), hs[..i]) == log;
    }
  }

  lemma {:induction false} LateTouches(c: Scenario, hs: seq<Happening>, k: nat, log: LogId)
    requires k >= 1
    ensures OursTouch(TouchesIn(c, Found(c, k - 1), hs, k), log) <==> LateOn(c, hs, k, log)
    decreases |hs|
  {
    hide LateOn, OursTouch, Arrives;
    if hs == [] {
      NothingLate(c, k, log);
    } else {
      var last := |hs| - 1;
      var front := hs[..last];
      LateTouches(c, front, k, log);
      LateOnOneMore(c, hs, k, log);
      OneLateTouch(c, ServingAfter(Found(c, k - 1), front), hs[last], k, log);
      OursTouchConcat(TouchesIn(c, Found(c, k - 1), front, k),
                      TouchOf(c, ServingAfter(Found(c, k - 1), front), hs[last], k), log);
    }
  }

  lemma NothingLate(c: Scenario, k: nat, log: LogId)
    requires k >= 1
    ensures !LateOn(c, [], k, log) && !OursTouch([], log)
  {
  }

  lemma OneLateTouch(c: Scenario, serving: LogId, h: Happening, k: nat, log: LogId)
    ensures OursTouch(TouchOf(c, serving, h, k), log) <==> Arrives(c, h, k) && serving == log
  {
    if Arrives(c, h, k) && serving == log {
      assert Touch(log, Ours(h.attempt)) in TouchOf(c, serving, h, k);
    }
  }

  lemma {:induction false} RunTouches(c: Scenario, n: nat, log: LogId)
    ensures OursTouch(Touches(c, n), log) <==>
              exists k :: 1 <= k <= n && (ServedOn(c, k, log) || LateOn(c, c.env(k).before, k, log))
  {
    hide TouchesIn, LateOn;
    if n > 0 {
      RunTouches(c, n - 1, log);
      LateTouches(c, c.env(n).before, n, log);
      var earlier, mid := Touches(c, n - 1), TouchesIn(c, Found(c, n - 1), c.env(n).before, n);
      var own := if c.env(n).move.Served? then [Touch(Found(c, n), Ours(n))] else [];
      OursTouchConcat(earlier, mid, log);
      OursTouchConcat(earlier + mid, own, log);
      assert OursTouch(own, log) <==> ServedOn(c, n, log) by {
        if ServedOn(c, n, log) { assert Touch(log, Ours(n)) in own; }
      }
    }
  }

  lemma OursTouchConcat(ts: seq<Touch>, us: seq<Touch>, log: LogId)
    ensures OursTouch(ts + us, log) <==> OursTouch(ts, log) || OursTouch(us, log)
  {
    if OursTouch(ts, log) {
      var t :| t in ts && t.log == log && t.origin.Ours?;
      assert t in ts + us;
    }
    if OursTouch(us, log) {
      var t :| t in us && t.log == log && t.origin.Ours?;
      assert t in ts + us;
    }
  }

  lemma ReachingIsTouching(c: Scenario, n: nat, later: seq<Happening>, log: LogId)
    ensures OursTouch(TouchesLater(c, n, later), log) <==> Reaches(c, n, later, log)
  {
    hide LateOn, ServedOn, OursTouch, Touches, TouchesIn;
    RunTouches(c, n, log);
    LateTouches(c, later, n + 1, log);
    OursTouchConcat(Touches(c, n), TouchesIn(c, Found(c, n), later, n + 1), log);
  }

  /** A run commits only where a request of it lands. */
  lemma CommitsLieWhereRequestsLand(c: Scenario, n: nat, later: seq<Happening>, log: LogId)
    requires OursOn(c, n, later, log)
    ensures Reaches(c, n, later, log)
  {
    hide CommittedFor;
    var k :| CommittedFor(c.start, WorldLater(c, n, later), Slot(log, c.key), Ours(k));
    CommitsAreFirstTouches(c, n, later, log, Ours(k));
    assert Touch(log, Ours(k)) in TouchesLater(c, n, later);
    ReachingIsTouching(c, n, later, log);
  }

  // ------------------------------------------------------ a key of one's own

  predicate NoForeignWrite(c: Scenario, hs: seq<Happening>) {
    forall h | h in hs :: h.Others? && h.d.OtherWrite? ==> h.d.key != c.key
  }

  /** The key is held by no log at the start, and nobody else writes it. */
  ghost predicate OwnKey(c: Scenario, n: nat, later: seq<Happening>) {
    && (forall log: LogId :: Slot(log, c.key) !in c.start.receipts)
    && (forall k | 1 <= k <= n :: NoForeignWrite(c, c.env(k).before))
    && NoForeignWrite(c, later)
  }

  predicate AllOurs(ts: seq<Touch>) {
    forall t | t in ts :: t.origin.Ours?
  }

  lemma {:induction false} OwnTouchesIn(c: Scenario, serving: LogId, hs: seq<Happening>, k: nat)
    requires NoForeignWrite(c, hs)
    ensures AllOurs(TouchesIn(c, serving, hs, k))
    decreases |hs|
  {
    if hs != [] {
      var last := |hs| - 1;
      assert forall h | h in hs[..last] :: h in hs;
      OwnTouchesIn(c, serving, hs[..last], k);
      assert hs[last] in hs;
    }
  }

  lemma {:induction false} OwnTouches(c: Scenario, n: nat)
    requires forall k | 1 <= k <= n :: NoForeignWrite(c, c.env(k).before)
    ensures AllOurs(Touches(c, n))
  {
    hide TouchesIn, NoForeignWrite;
    if n > 0 {
      OwnTouches(c, n - 1);
      OwnTouchesIn(c, Found(c, n - 1), c.env(n).before, n);
    }
  }

  /** The first touch of a log is somebody's. */
  lemma {:induction false} SomebodyIsFirst(ts: seq<Touch>, log: LogId)
    requires !Untouched(ts, log)
    ensures exists t :: t in ts && FirstTouch(ts, log, t.origin)
  {
    var last := |ts| - 1;
    var front := ts[..last];
    assert ts == front + [ts[last]];
    if Untouched(front, log) {
      OneMoreTouch(front, ts[last], log, ts[last].origin);
      assert ts[last] in ts;
    } else {
      SomebodyIsFirst(front, log);
      var t :| t in front && FirstTouch(front, log, t.origin);
      OneMoreTouch(front, ts[last], log, t.origin);
      assert t in ts;
    }
  }

  /**
   A key of one's own is committed on exactly those logs that a request of the
   run finds, served at once or turning up late.
   */
  lemma OwnKeyCommitsExactlyWhereRequestsLand(c: Scenario, n: nat, later: seq<Happening>, log: LogId)
    requires OwnKey(c, n, later)
    ensures OursOn(c, n, later, log) <==> Reaches(c, n, later, log)
  {
    hide CommittedFor, FirstTouch, Reaches, NoForeignWrite, WorldLater;
    if OursOn(c, n, later, log) {
      CommitsLieWhereRequestsLand(c, n, later, log);
    }
    if Reaches(c, n, later, log) {
      ReachingIsTouching(c, n, later, log);
      var ts := TouchesLater(c, n, later);
      OwnTouches(c, n);
      OwnTouchesIn(c, Found(c, n), later, n + 1);
      SomebodyIsFirst(ts, log);
      var t :| t in ts && FirstTouch(ts, log, t.origin);
      assert t.origin == Ours(t.origin.attempt);
      CommitsAreFirstTouches(c, n, later, log, t.origin);
    }
  }

  /** So its commits lie on one log exactly when all its requests that land find one log. */
  lemma OneLogExactlyWhen(c: Scenario, n: nat, later: seq<Happening>)
    requires OwnKey(c, n, later)
    ensures (forall l, m :: OursOn(c, n, later, l) && OursOn(c, n, later, m) ==> l == m)
       <==> (forall l, m :: Reaches(c, n, later, l) && Reaches(c, n, later, m) ==> l == m)
  {
    hide OursOn, Reaches, OwnKey;
    forall log ensures OursOn(c, n, later, log) <==> Reaches(c, n, later, log) {
      OwnKeyCommitsExactlyWhereRequestsLand(c, n, later, log);
    }
  }

  // ------------------------------------------------- swaps and identity rechecks

  predicate NoSwap(hs: seq<Happening>) {
    forall h | h in hs :: h.Others? ==> !h.d.SwapLog?
  }

  lemma {:induction false} WithoutSwaps(serving: LogId, hs: seq<Happening>)
    requires NoSwap(hs)
    ensures ServingAfter(serving, hs) == serving
    decreases |hs|
  {
    if hs != [] {
      var last := |hs| - 1;
      assert hs[last] in hs;
      assert forall h | h in hs[..last] :: h in hs;
      WithoutSwaps(serving, hs[..last]);
    }
  }

  lemma {:induction false} StillServing(c: Scenario, n: nat)
    requires forall k | 1 <= k <= n :: NoSwap(c.env(k).before)
    ensures Found(c, n) == c.start.serving
  {
    if n > 0 {
      StillServing(c, n - 1);
      WithoutSwaps(Found(c, n - 1), c.env(n).before);
    }
  }

  lemma LateStaysToo(c: Scenario, hs: seq<Happening>, k: nat, log: LogId)
    requires k >= 1 && NoSwap(hs) && LateOn(c, hs, k, log)
    ensures log == Found(c, k - 1)
  {
    var i :| 0 <= i < |hs| && Arrives(c, hs[i], k) && ServingAfter(Found(c, k - 1), hs[..i]) == log;
    assert forall h | h in hs[..i] :: h in hs;
    WithoutSwaps(Found(c, k - 1), hs[..i]);
  }

  /** While the log is not swapped, a run commits on no log but the one served at the start, whoever else writes. */
  lemma WithoutSwapsOneLog(c: Scenario, n: nat, later: seq<Happening>, log: LogId)
    requires (forall k | 1 <= k <= n :: NoSwap(c.env(k).before)) && NoSwap(later)
    requires OursOn(c, n, later, log)
    ensures log == c.start.serving
  {
    hide NoSwap, LateOn, OursOn;
    CommitsLieWhereRequestsLand(c, n, later, log);
    if LateOn(c, later, n + 1, log) {
      LateStaysToo(c, later, n + 1, log);
      StillServing(c, n);
    } else {
      var k :| 1 <= k <= n && (ServedOn(c, k, log) || LateOn(c, c.env(k).before, k, log));
      StillServing(c, k);
      StillServing(c, k - 1);
      if !ServedOn(c, k, log) {
        LateStaysToo(c, c.env(k).before, k, log);
      }
    }
  }

  function AtRecheck(turn: Turn): nat {
    if turn.recheckedAfter <= |turn.before| then turn.recheckedAfter else |turn.before|
  }

  /** What happens between the identity recheck and attempt k. */
  function Window(c: Scenario, k: nat): seq<Happening> {
    c.env(k).before[AtRecheck(c.env(k))..]
  }

  /** The recheck that precedes attempt k, if it yields an identity, yields that of the log then served. */
  predicate HonestRecheck(c: Scenario, k: nat)
    requires k >= 1
  {
    var seen := CurrentIdentity(c.env(k - 1).recheck);
    seen.Ok? ==> seen.value == ServingAfter(Found(c, k - 1), c.env(k).before[..AtRecheck(c.env(k))])
  }

  lemma {:induction false} ServingSplits(serving: LogId, hs: seq<Happening>, i: nat)
    requires i <= |hs|
    ensures ServingAfter(serving, hs) == ServingAfter(ServingAfter(serving, hs[..i]), hs[i..])
    decreases |hs|
  {
    if i < |hs| {
      var last := |hs| - 1;
      assert hs[..last][..i] == hs[..i] && hs[..last][i..] == hs[i..][..last - i];
      ServingSplits(serving, hs[..last], i);
    } else {
      assert hs[..i] == hs;
    }
  }

  /** What a resend finds is decided in the window: the last log swapped in there, or else the pinned one. */
  lemma ResendFinds(c: Scenario, trace: seq<Event>, k: nat)
    requires IsRun(c, trace) && 1 < k <= AttemptsOf(trace) && HonestRecheck(c, k)
    ensures Found(c, k) == ServingAfter(c.session.logIdentity, Window(c, k))
  {
    hide AttemptAt, CurrentIdentity;
    assert Repeats(c, k - 1);
    ServingSplits(Found(c, k - 1), c.env(k).before, AtRecheck(c.env(k)));
  }

  /** Among hs, late requests of the run find no log but this. */
  ghost predicate LateOnly(c: Scenario, hs: seq<Happening>, k: nat, log: LogId)
    requires k >= 1
  {
    forall l | LateOn(c, hs, k, l) :: l == log
  }

  ghost predicate LateOnlyOn(c: Scenario, n: nat, later: seq<Happening>, log: LogId) {
    (forall k | 1 <= k <= n :: LateOnly(c, c.env(k).before, k, log)) && LateOnly(c, later, n + 1, log)
  }

  /** What the attempts of a run find is the pinned log, by the swaps before the first and in the windows. */
  ghost predicate FindsPinned(c: Scenario, n: nat) {
    forall k | 1 <= k <= n && c.env(k).move.Served? ::
      c.session.logIdentity ==
      ServingAfter(if k == 1 then c.start.serving else c.session.logIdentity,
                   if k == 1 then c.env(1).before else Window(c, k))
  }

  /**
   Retries and a changed log identity: with rechecks that tell the truth, a run
   commits a key of its own on the pinned log alone exactly when its first
   attempt, if served, finds that log, no swap to another log is the last one
   between a recheck and a served resend, and late requests find that log too.
   */
  lemma PinnedLogOnlyExactlyWhen(c: Scenario, trace: seq<Event>, later: seq<Happening>)
    requires IsRun(c, trace) && OwnKey(c, AttemptsOf(trace), later)
    requires forall k | 1 < k <= AttemptsOf(trace) :: HonestRecheck(c, k)
    ensures (forall log | OursOn(c, AttemptsOf(trace), later, log) :: log == c.session.logIdentity)
       <==> FindsPinned(c, AttemptsOf(trace)) && LateOnlyOn(c, AttemptsOf(trace), later, c.session.logIdentity)
  {
    hide OursOn, OwnKey, IsRun, HonestRecheck, LateOn, Window;
    var n, pinned := AttemptsOf(trace), c.session.logIdentity;
    forall log ensures OursOn(c, n, later, log) <==> Reaches(c, n, later, log) {
      OwnKeyCommitsExactlyWhereRequestsLand(c, n, later, log);
    }
    forall k | 1 <= k <= n
      ensures Found(c, k) == if k == 1 then ServingAfter(c.start.serving, c.env(1).before)
                             else ServingAfter(pinned, Window(c, k))
    {
      if k > 1 {
        ResendFinds(c, trace, k);
      } else {
        assert Found(c, 0) == c.start.serving;
      }
    }
    ReachesOnly(c, n, later, pinned);
  }

  lemma ReachesOnly(c: Scenario, n: nat, later: seq<Happening>, log: LogId)
    ensures (forall l | Reaches(c, n, later, l) :: l == log)
       <==> (forall k | 1 <= k <= n && c.env(k).move.Served? :: Found(c, k) == log) && LateOnlyOn(c, n, later, log)
  {
    hide LateOn;
    if forall l | Reaches(c, n, later, l) :: l == log {
      forall k | 1 <= k <= n && c.env(k).move.Served? ensures Found(c, k) == log {
        assert ServedOn(c, k, Found(c, k));
        assert Reaches(c, n, later, Found(c, k));
      }
      forall k | 1 <= k <= n ensures LateOnly(c, c.env(k).before, k, log) {
        forall l | LateOn(c, c.env(k).before, k, l) ensures l == log {
          assert Reaches(c, n, later, l);
        }
      }
      var m := n + 1;
      forall l | LateOn(c, later, m, l) ensures l == log {
        assert Reaches(c, n, later, l);
      }
    }
  }
}
