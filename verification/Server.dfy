/** The environment a keyed write runs in: a node, its other users, and the logs it serves. */
module Server {
  // The node keeps one receipt per idempotency key on each log, may swap the log it
  // serves, and may be written to by other sessions.  The adversary is a script of
  // moves; a statement about every script is a statement about every behaviour.

  type LogId = string
  type Key = string
  type Body = string

  // Who asked for a commit: an attempt of the run under study, or anybody else.
  datatype Origin = Ours(attempt: nat) | Theirs

  // One idempotency key on one log.
  datatype Slot = Slot(log: LogId, key: Key)

  datatype Commit = Commit(slot: Slot, body: Body, origin: Origin)

  // commits is everything the node ever committed, in order; receipts is the
  // durable idempotency record it consults.
  datatype World = World(serving: LogId, receipts: map<Slot, Body>, commits: seq<Commit>)

  datatype Admission = Committed | Replayed | Conflict

  /** The idempotency contract: a new key commits, the same body replays, another body conflicts. */
  function Process(w: World, key: Key, body: Body, origin: Origin): (World, Admission) {
    var slot := Slot(w.serving, key);
    if slot !in w.receipts then
      (World(w.serving, w.receipts[slot := body], w.commits + [Commit(slot, body, origin)]), Committed)
    else if w.receipts[slot] == body then (w, Replayed)
    else (w, Conflict)
  }

  datatype Disturbance = SwapLog(log: LogId) | OtherWrite(key: Key, body: Body)

  function Disturb(w: World, d: Disturbance): World {
    match d
    case SwapLog(log) => w.(serving := log)
    case OtherWrite(key, body) => Process(w, key, body, Theirs).0
  }

  function DisturbAll(w: World, ds: seq<Disturbance>): World
    decreases |ds|
  {
    if ds == [] then w else DisturbAll(Disturb(w, ds[0]), ds[1..])
  }

  /** The node holds a receipt under slot, for exactly this body. */
  predicate Holds(w: World, slot: Slot, body: Body) {
    slot in w.receipts && w.receipts[slot] == body
  }

  ghost predicate CommitsHaveReceipts(w: World) {
    forall c | c in w.commits :: Holds(w, c.slot, c.body)
  }

  /** No log holds two commits of one key. */
  ghost predicate OncePerSlot(commits: seq<Commit>) {
    forall i, j | 0 <= i < j < |commits| :: commits[i].slot != commits[j].slot
  }

  ghost predicate HasCommit(commits: seq<Commit>, slot: Slot) {
    exists c :: c in commits && c.slot == slot
  }

  ghost predicate ReceiptsHaveCommits(w: World) {
    forall slot | slot in w.receipts :: HasCommit(w.commits, slot)
  }

  ghost predicate Consistent(w: World) {
    CommitsHaveReceipts(w) && OncePerSlot(w.commits) && ReceiptsHaveCommits(w)
  }

  /** w' is a later state of w: nothing recorded is ever lost or rewritten. */
  ghost predicate Extends(w: World, w': World) {
    && w.commits <= w'.commits
    && (forall slot | slot in w.receipts :: Holds(w', slot, w.receipts[slot]))
  }

  /** No commit of w' beyond those of w was asked for by the run under study. */
  ghost predicate NoneOfOurs(w: World, w': World) {
    && |w.commits| <= |w'.commits|
    && forall i | |w.commits| <= i < |w'.commits| :: w'.commits[i].origin == Theirs
  }

  lemma ProcessKeepsConsistency(w: World, key: Key, body: Body, origin: Origin)
    requires Consistent(w)
    ensures Consistent(Process(w, key, body, origin).0)
    ensures Extends(w, Process(w, key, body, origin).0)
    ensures !Process(w, key, body, origin).1.Conflict? ==>
              Holds(Process(w, key, body, origin).0, Slot(w.serving, key), body)
  {
    var w' := Process(w, key, body, origin).0;
    var slot := Slot(w.serving, key);
    if slot !in w.receipts {
      var c := Commit(slot, body, origin);
      assert w'.commits == w.commits + [c];
      assert CommitsHaveReceipts(w');
      assert OncePerSlot(w'.commits) by {
        forall i | 0 <= i < |w.commits| ensures w.commits[i].slot != slot {
          assert Holds(w, w.commits[i].slot, w.commits[i].body);
        }
      }
      forall other | other in w'.receipts ensures HasCommit(w'.commits, other) {
        if other == slot {
          assert c in w'.commits;
        } else {
          assert HasCommit(w.commits, other);
        }
      }
    }
  }

  lemma ExtendsIsTransitive(w0: World, w1: World, w2: World)
    requires Extends(w0, w1) && Extends(w1, w2)
    ensures Extends(w0, w2)
    ensures NoneOfOurs(w0, w1) && NoneOfOurs(w1, w2) ==> NoneOfOurs(w0, w2)
  {
  }

  lemma DisturbOnce(w: World, d: Disturbance)
    requires Consistent(w)
    ensures Consistent(Disturb(w, d)) && Extends(w, Disturb(w, d)) && NoneOfOurs(w, Disturb(w, d))
  {
    match d
    case SwapLog(log) =>
    case OtherWrite(key, body) => ProcessKeepsConsistency(w, key, body, Theirs);
  }

  lemma {:induction false} DisturbKeepsConsistency(w: World, ds: seq<Disturbance>)
    requires Consistent(w)
    ensures Consistent(DisturbAll(w, ds)) && Extends(w, DisturbAll(w, ds))
    ensures NoneOfOurs(w, DisturbAll(w, ds))
    decreases |ds|
  {
    if ds != [] {
      var w1 := Disturb(w, ds[0]);
      DisturbOnce(w, ds[0]);
      DisturbKeepsConsistency(w1, ds[1..]);
      ExtendsIsTransitive(w, w1, DisturbAll(w, ds));
    }
  }

  /**
   Whatever is asked of a fresh node, by whomever and over whichever sequence of
   log swaps, a key is committed at most once on each log, and the receipt kept
   for it is the body that was committed.
   */
  lemma AtMostOneCommitPerLog(log: LogId, requests: seq<Disturbance>)
    ensures var w := DisturbAll(World(log, map[], []), requests);
            OncePerSlot(w.commits) && CommitsHaveReceipts(w)
  {
    DisturbKeepsConsistency(World(log, map[], []), requests);
  }
}
