/** Several runs of one write under one key: what reconciling an uncertain outcome by writing again comes to. */
module Reconciliation {
  import opened Server
  import opened KeyedWrite
  import opened KeyedWriteProperties

  // A run and everything that happens before the next one starts.  What earlier
  // runs still have under way when it does is, to the next run, another's write of
  // the same key and body.
  datatype Run = Run(c: Scenario, trace: seq<Event>, later: seq<Happening>)

  function End(r: Run): World
    requires r.trace != []
  {
    HappenAll(r.c, WorldAfter(r.c, AttemptsOf(r.trace)), r.later, AttemptsOf(r.trace) + 1)
  }

  /** The runs follow one another, with one key and body and one pinned log. */
  ghost predicate Chained(runs: seq<Run>) {
    && (forall r | r in runs :: r.trace != [] && IsRun(r.c, r.trace))
    && (forall i | 0 <= i < |runs| - 1 :: runs[i + 1].c.start == End(runs[i]))
    && (forall r, r' | r in runs && r' in runs :: r.c.key == r'.c.key && r.c.body == r'.c.body)
    && (forall r, r' | r in runs && r' in runs :: r.c.session.logIdentity == r'.c.session.logIdentity)
  }

  lemma RunIsConsistent(r: Run)
    requires r.trace != [] && Consistent(r.c.start)
    ensures Consistent(End(r)) && Extends(r.c.start, End(r))
  {
    hide Consistent, Extends, HappenAll, WorldAfter;
    var n := AttemptsOf(r.trace);
    RunKeepsConsistency(r.c, n);
    HappenKeepsConsistency(r.c, WorldAfter(r.c, n), r.later, n + 1);
    ExtendsIsTransitive(r.c.start, WorldAfter(r.c, n), End(r));
  }

  /** From the start of any run to the end of any that does not come before it, nothing recorded is lost. */
  lemma {:induction false} ChainKeepsConsistency(runs: seq<Run>, i: nat, j: nat)
    requires Chained(runs) && i <= j < |runs| && Consistent(runs[0].c.start)
    ensures Consistent(runs[i].c.start) && Consistent(End(runs[j])) && Extends(runs[i].c.start, End(runs[j]))
    decreases j
  {
    hide Consistent, Extends, End;
    if i > 0 {
      ChainKeepsConsistency(runs, i - 1, i - 1);
    }
    RunIsConsistent(runs[i]);
    if i < j {
      ChainKeepsConsistency(runs, i, j - 1);
      RunIsConsistent(runs[j]);
      ExtendsIsTransitive(runs[i].c.start, End(runs[j - 1]), End(runs[j]));
    }
  }

  /** The one commit of the slot in this world is the i-th. */
  ghost predicate OnlyCommit(w: World, slot: Slot, body: Body, i: int) {
    && 0 <= i < |w.commits| && w.commits[i].slot == slot && w.commits[i].body == body
    && forall j | 0 <= j < |w.commits| && w.commits[j].slot == slot :: j == i
  }

  lemma HeldIsTheOnlyCommit(w: World, slot: Slot, body: Body) returns (i: nat)
    requires Consistent(w) && Holds(w, slot, body)
    ensures OnlyCommit(w, slot, body, i)
  {
    HeldIsCommittedOnce(w, slot, body);
    i :| 0 <= i < |w.commits| && w.commits[i].slot == slot && w.commits[i].body == body;
  }

  lemma OnlyCommitIsEarlier(w: World, w': World, slot: Slot, body: Body, i: int)
    requires Consistent(w) && Extends(w, w') && slot in w.receipts && OnlyCommit(w', slot, body, i)
    ensures i < |w.commits|
  {
    assert HasCommit(w.commits, slot);
    var c :| c in w.commits && c.slot == slot;
    var j :| 0 <= j < |w.commits| && w.commits[j] == c;
    assert w'.commits[j] == w.commits[j];
  }

  /**
   Reconciling is safe: once one of several runs under one key has succeeded, the
   key has exactly one commit on the pinned log, with the caller's bytes, over all
   the runs and whatever happens after them, and every run that started when the
   log held the key already left that commit as it was.
   */
  lemma ReconciledExactlyOnce(runs: seq<Run>, k: nat) returns (i: nat)
    requires Chained(runs) && k < |runs| && Consistent(runs[0].c.start)
    requires Verdict(runs[k].c, runs[k].trace).error.None?
    ensures var slot := Slot(runs[0].c.session.logIdentity, runs[0].c.key);
            && OnlyCommit(End(runs[|runs| - 1]), slot, runs[0].c.body, i)
            && forall m | 0 <= m < |runs| && slot in runs[m].c.start.receipts :: i < |runs[m].c.start.commits|
  {
    hide Consistent, Extends, IsRun, Verdict, HappenAll, Holds, OnlyCommit;
    var last := |runs| - 1;
    var slot, body := Slot(runs[0].c.session.logIdentity, runs[0].c.key), runs[0].c.body;
    var w := End(runs[last]);
    assert runs[0] in runs && runs[k] in runs;
    ChainKeepsConsistency(runs, k, k);
    ChainKeepsConsistency(runs, k, last);
    SuccessIsExactlyOnce(runs[k].c, runs[k].trace, runs[k].later);
    if k < last {
      ChainKeepsConsistency(runs, k + 1, last);
      StillHeld(End(runs[k]), w, slot, body);
    }
    i := HeldIsTheOnlyCommit(w, slot, body);
    forall m | 0 <= m < |runs| && slot in runs[m].c.start.receipts ensures i < |runs[m].c.start.commits| {
      ChainKeepsConsistency(runs, m, last);
      OnlyCommitIsEarlier(runs[m].c.start, w, slot, body, i);
    }
  }

  lemma StillHeld(w: World, w': World, slot: Slot, body: Body)
    requires Holds(w, slot, body) && Extends(w, w')
    ensures Holds(w', slot, body)
  {
  }

  /** And when every run ends in an ordinary error, none of them has committed anything anywhere, nor will. */
  lemma {:induction false} OrdinaryErrorsCommitNothing(runs: seq<Run>, j: nat)
    requires Chained(runs) && j < |runs| && Consistent(runs[0].c.start)
    requires forall r | r in runs :: Verdict(r.c, r.trace).error.Some? && !IsUncertain(Verdict(r.c, r.trace))
    ensures NoneOfOurs(runs[0].c.start, End(runs[j]))
    decreases j
  {
    hide Consistent, Extends, IsRun, Verdict, HappenAll, IsUncertain, NoneOfOurs;
    assert runs[j] in runs;
    ChainKeepsConsistency(runs, j, j);
    OrdinaryErrorMeansNothingCommitted(runs[j].c, runs[j].trace, runs[j].later);
    if j > 0 {
      OrdinaryErrorsCommitNothing(runs, j - 1);
      ChainKeepsConsistency(runs, 0, j - 1);
      ExtendsIsTransitive(runs[0].c.start, runs[j].c.start, End(runs[j]));
    }
  }
}
