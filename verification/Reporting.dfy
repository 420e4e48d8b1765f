/**
 What a validator reports: of the places it looks at, in order, the first that
 breaks a rule.  A rule may look at the places before, so that a repetition is
 broken where it is met; lists of places are put together piece by piece, each
 with the error found in it.
 */
module Reporting {
  import opened Wrappers

  /** Nothing is wrong at this place, after those before it. */
  ghost predicate Fine<P(!new), E(!new)>(broken: (seq<P>, P, E) -> bool, earlier: seq<P>, p: P) {
    forall e :: !broken(earlier, p, e)
  }

  ghost predicate AllFine<P(!new), E(!new)>(broken: (seq<P>, P, E) -> bool, earlier: seq<P>, places: seq<P>) {
    forall i | 0 <= i < |places| :: Fine(broken, earlier + places[..i], places[i])
  }

  /** The error is there when some place breaks a rule, and it is what is wrong at the first that does. */
  ghost predicate Reports<P(!new), E(!new)>(broken: (seq<P>, P, E) -> bool, earlier: seq<P>, places: seq<P>,
                                            error: Option<E>) {
    match error
    case None => AllFine(broken, earlier, places)
    case Some(e) =>
      exists i :: 0 <= i < |places| && AllFine(broken, earlier, places[..i])
                  && broken(earlier + places[..i], places[i], e)
  }

  ghost predicate ReportsAt<P(!new), E(!new)>(broken: (seq<P>, P, E) -> bool, earlier: seq<P>, p: P, error: Option<E>) {
    if error.Some? then broken(earlier, p, error.value) else Fine(broken, earlier, p)
  }

  lemma NothingToReport<P(!new), E(!new)>(broken: (seq<P>, P, E) -> bool, earlier: seq<P>)
    ensures Reports(broken, earlier, [], None)
  {
  }

  lemma ReportsOne<P(!new), E(!new)>(broken: (seq<P>, P, E) -> bool, earlier: seq<P>, p: P, error: Option<E>)
    requires ReportsAt(broken, earlier, p, error)
    ensures Reports(broken, earlier, [p], error)
  {
    assert [p][..0] == [] && earlier + [] == earlier;
    if error.Some? {
      assert broken(earlier + [p][..0], [p][0], error.value);
    }
  }

  lemma AllFineConcat<P(!new), E(!new)>(broken: (seq<P>, P, E) -> bool, earlier: seq<P>, x: seq<P>, y: seq<P>)
    requires AllFine(broken, earlier, x) && AllFine(broken, earlier + x, y)
    ensures AllFine(broken, earlier, x + y)
  {
    hide Fine;
    var all := x + y;
    forall i | 0 <= i < |all| ensures Fine(broken, earlier + all[..i], all[i]) {
      if i < |x| {
        assert all[..i] == x[..i];
      } else {
        var k := i - |x|;
        assert earlier + all[..i] == earlier + x + y[..k];
        assert Fine(broken, earlier + x + y[..k], y[k]);
      }
    }
  }

  /** Places looked at one list after the other. */
  lemma ReportsConcat<P(!new), E(!new)>(broken: (seq<P>, P, E) -> bool, earlier: seq<P>, x: seq<P>, y: seq<P>,
                                        first: Option<E>, second: Option<E>)
    requires Reports(broken, earlier, x, first)
    requires first.None? ==> Reports(broken, earlier + x, y, second)
    ensures Reports(broken, earlier, x + y, OrElse(first, second))
  {
    hide AllFine;
    var all := x + y;
    if first.Some? {
      var i :| 0 <= i < |x| && AllFine(broken, earlier, x[..i]) && broken(earlier + x[..i], x[i], first.value);
      assert all[..i] == x[..i] && all[i] == x[i];
    } else if second.Some? {
      var i :| 0 <= i < |y| && AllFine(broken, earlier + x, y[..i]) && broken(earlier + x + y[..i], y[i], second.value);
      AllFineConcat(broken, earlier, x, y[..i]);
      assert all[..|x| + i] == x + y[..i] && all[|x| + i] == y[i];
      assert earlier + all[..|x| + i] == earlier + x + y[..i];
    } else {
      AllFineConcat(broken, earlier, x, y);
    }
  }

  lemma ReportsNext<P(!new), E(!new)>(broken: (seq<P>, P, E) -> bool, earlier: seq<P>, p: P, rest: seq<P>,
                                      first: Option<E>, second: Option<E>)
    requires ReportsAt(broken, earlier, p, first)
    requires first.None? ==> Reports(broken, earlier + [p], rest, second)
    ensures Reports(broken, earlier, [p] + rest, OrElse(first, second))
  {
    ReportsOne(broken, earlier, p, first);
    ReportsConcat(broken, earlier, [p], rest, first, second);
  }

  // ------------------------------- rules that do not look at what is earlier

  /** The same after whatever places were looked at before. */
  ghost predicate Always<P(!new), E(!new)>(broken: (seq<P>, P, E) -> bool, places: seq<P>, error: Option<E>) {
    forall earlier :: Reports(broken, earlier, places, error)
  }

  lemma AlwaysNothing<P(!new), E(!new)>(broken: (seq<P>, P, E) -> bool)
    ensures Always(broken, [], None)
  {
  }

  lemma AlwaysOne<P(!new), E(!new)>(broken: (seq<P>, P, E) -> bool, p: P, error: Option<E>)
    requires forall earlier :: ReportsAt(broken, earlier, p, error)
    ensures Always(broken, [p], error)
  {
    hide ReportsAt, Reports;
    forall earlier ensures Reports(broken, earlier, [p], error) {
      ReportsOne(broken, earlier, p, error);
    }
  }

  lemma AlwaysConcat<P(!new), E(!new)>(broken: (seq<P>, P, E) -> bool, x: seq<P>, y: seq<P>,
                                       first: Option<E>, second: Option<E>)
    requires Always(broken, x, first) && Always(broken, y, second)
    ensures Always(broken, x + y, OrElse(first, second))
  {
    hide Reports;
    forall earlier ensures Reports(broken, earlier, x + y, OrElse(first, second)) {
      ReportsConcat(broken, earlier, x, y, first, second);
    }
  }

  /** The places of the entries of a list, from index i on. */
  function Along<T, P>(places: (T, nat) -> seq<P>, s: seq<T>, i: nat): seq<P>
    decreases |s| - i
  {
    if i >= |s| then [] else places(s[i], i) + Along(places, s, i + 1)
  }
}
