/**
 Sequences up to order: moving an element to the front, filtered images, and
 sequences without repetition.  Two sequences are the same up to order when their
 multisets are equal; what is proved here is what the other modules need to carry
 such an equality through a filter or an induction.
 */
module Permutations {
  import opened Wrappers

  ghost predicate NoRepeats<T(!new)>(s: seq<T>) {
    forall i, j | 0 <= i < j < |s| :: s[i] != s[j]
  }

  ghost function IndexOf<T>(s: seq<T>, x: T): (i: nat)
    requires x in s
    ensures i < |s| && s[i] == x
  {
    if s[0] == x then 0 else 1 + IndexOf(s[1..], x)
  }

  function Without<T>(s: seq<T>, i: nat): seq<T>
    requires i < |s|
  {
    s[..i] + s[i + 1..]
  }

  lemma WithoutSplits<T>(s: seq<T>, i: nat)
    requires i < |s|
    ensures multiset(s) == multiset{s[i]} + multiset(Without(s, i))
  {
    assert s == s[..i] + [s[i]] + s[i + 1..];
  }

  /** Two orders of the same elements: drop the head of one, find and drop it in the other. */
  lemma HeadMatches<T>(s: seq<T>, t: seq<T>)
    requires s != [] && multiset(s) == multiset(t)
    ensures s[0] in t
    ensures multiset(s[1..]) == multiset(Without(t, IndexOf(t, s[0])))
  {
    assert s[0] in multiset(s);
    var i := IndexOf(t, s[0]);
    WithoutSplits(t, i);
    assert s == [s[0]] + s[1..];
    assert multiset(s[1..]) == multiset(s) - multiset{s[0]};
    assert multiset(Without(t, i)) == multiset(t) - multiset{s[0]};
  }

  lemma SameElements<T>(s: seq<T>, t: seq<T>)
    requires multiset(s) == multiset(t)
    ensures forall x :: x in s <==> x in t
  {
    forall x ensures x in s <==> x in t {
      assert x in s <==> x in multiset(s);
    }
  }

  /** The images of the elements f is defined on, in order. */
  function FilterMap<T, U>(f: T -> Option<U>, s: seq<T>): seq<U> {
    if s == [] then []
    else (if f(s[0]).Some? then [f(s[0]).value] else []) + FilterMap(f, s[1..])
  }

  lemma {:induction false} FilterMapConcat<T, U>(f: T -> Option<U>, s: seq<T>, t: seq<T>)
    ensures FilterMap(f, s + t) == FilterMap(f, s) + FilterMap(f, t)
  {
    if s == [] {
      assert s + t == t;
      assert [] + FilterMap(f, t) == FilterMap(f, t);
    } else {
      var head := if f(s[0]).Some? then [f(s[0]).value] else [];
      assert (s + t)[0] == s[0] && (s + t)[1..] == s[1..] + t;
      FilterMapConcat(f, s[1..], t);
      assert FilterMap(f, s + t) == head + FilterMap(f, s[1..] + t);
      assert FilterMap(f, s) == head + FilterMap(f, s[1..]);
      assert head + (FilterMap(f, s[1..]) + FilterMap(f, t)) == (head + FilterMap(f, s[1..])) + FilterMap(f, t);
    }
  }

  lemma FilterMapWithout<T, U>(f: T -> Option<U>, t: seq<T>, i: nat)
    requires i < |t|
    ensures multiset(FilterMap(f, t)) == multiset(FilterMap(f, [t[i]])) + multiset(FilterMap(f, Without(t, i)))
  {
    hide FilterMap;
    assert t == t[..i] + ([t[i]] + t[i + 1..]);
    FilterMapConcat(f, t[..i], [t[i]] + t[i + 1..]);
    FilterMapConcat(f, [t[i]], t[i + 1..]);
    FilterMapConcat(f, t[..i], t[i + 1..]);
  }

  lemma {:induction false} FilterMapPermutes<T, U>(f: T -> Option<U>, s: seq<T>, t: seq<T>)
    requires multiset(s) == multiset(t)
    ensures multiset(FilterMap(f, s)) == multiset(FilterMap(f, t))
    decreases |s|
  {
    hide FilterMap;
    if s == [] {
      assert |multiset(t)| == 0;
      assert t == [];
    } else {
      HeadMatches(s, t);
      var i := IndexOf(t, s[0]);
      FilterMapPermutes(f, s[1..], Without(t, i));
      FilterMapWithout(f, t, i);
      FilterMapWithout(f, s, 0);
      assert Without(s, 0) == s[1..];
    }
  }

  lemma {:induction false} FilterMapOfNothing<S, T, U>(f: T -> Option<U>, g: S -> Option<T>, s: seq<S>)
    requires forall x | x in s :: g(x).Some? ==> f(g(x).value).None?
    ensures FilterMap(f, FilterMap(g, s)) == []
  {
    if s != [] {
      FilterMapOfNothing(f, g, s[1..]);
      assert s[0] in s;
      var first := if g(s[0]).Some? then [g(s[0]).value] else [];
      FilterMapConcat(f, first, FilterMap(g, s[1..]));
      assert first != [] ==> first[1..] == [];
    }
  }

  lemma NoImages<T, U>(f: T -> Option<U>)
    ensures FilterMap(f, []) == []
  {
  }

  lemma Singleton<T, U>(f: T -> Option<U>, x: T)
    ensures FilterMap(f, [x]) == if f(x).Some? then [f(x).value] else []
  {
  }

  lemma ImageOf<T, U>(f: T -> Option<U>, s: seq<T>, a: T) returns (i: nat)
    requires a in s && f(a).Some?
    ensures i < |FilterMap(f, s)| && FilterMap(f, s)[i] == f(a).value
  {
    var k :| 0 <= k < |s| && s[k] == a;
    i := |FilterMap(f, s[..k])|;
    assert s == s[..k] + ([a] + s[k + 1..]);
    FilterMapConcat(f, s[..k], [a] + s[k + 1..]);
    FilterMapConcat(f, [a], s[k + 1..]);
    Singleton(f, a);
  }

  /** Elements at two places leave their images at two places. */
  lemma ImagesOfTwoPlaces<T, U>(f: T -> Option<U>, s: seq<T>, i: nat, j: nat) returns (k: nat, l: nat)
    requires i < j < |s| && f(s[i]).Some? && f(s[j]).Some?
    ensures k < l < |FilterMap(f, s)|
    ensures FilterMap(f, s)[k] == f(s[i]).value && FilterMap(f, s)[l] == f(s[j]).value
  {
    assert s == s[..j] + s[j..] && s[..j][i] == s[i] && s[j..][0] == s[j];
    FilterMapConcat(f, s[..j], s[j..]);
    k := ImageOf(f, s[..j], s[i]);
    l := ImageOf(f, s[j..], s[j]);
    l := |FilterMap(f, s[..j])| + l;
  }

  lemma ImagesOfDifferentElements<T, U>(f: T -> Option<U>, s: seq<T>, a: T, b: T) returns (i: nat, j: nat)
    requires a in s && b in s && a != b && f(a).Some? && f(b).Some?
    ensures i < |FilterMap(f, s)| && j < |FilterMap(f, s)| && i != j
    ensures FilterMap(f, s)[i] == f(a).value && FilterMap(f, s)[j] == f(b).value
  {
    var k :| 0 <= k < |s| && s[k] == a;
    var l :| 0 <= l < |s| && s[l] == b;
    if k < l {
      i, j := ImagesOfTwoPlaces(f, s, k, l);
    } else {
      j, i := ImagesOfTwoPlaces(f, s, l, k);
    }
  }

  lemma TwoPlaces<T>(s: seq<T>, i: nat, j: nat)
    requires i < j < |s| && s[i] == s[j]
    ensures multiset(s)[s[i]] >= 2
  {
    assert s == s[..j] + [s[j]] + s[j + 1..];
    assert s[..j][i] == s[i];
    assert s[i] in multiset(s[..j]);
  }

  lemma TwoOccurrences<T>(s: seq<T>, x: T) returns (i: nat, j: nat)
    requires multiset(s)[x] >= 2
    ensures i < j < |s| && s[i] == s[j] == x
  {
    assert x in multiset(s);
    i := IndexOf(s, x);
    IndexIsFirst(s, x);
    assert s == s[..i] + [x] + s[i + 1..];
    assert multiset(s[..i])[x] == 0 by { assert x !in s[..i]; }
    assert x in multiset(s[i + 1..]);
    var k :| 0 <= k < |s[i + 1..]| && s[i + 1..][k] == x;
    j := i + 1 + k;
  }

  lemma {:induction false} IndexIsFirst<T>(s: seq<T>, x: T)
    requires x in s
    ensures x !in s[..IndexOf(s, x)]
  {
    if s[0] != x {
      IndexIsFirst(s[1..], x);
      var i := IndexOf(s[1..], x);
      assert s[..i + 1] == [s[0]] + s[1..][..i];
    }
  }

  lemma NoRepeatsPermutes<T(!new)>(s: seq<T>, t: seq<T>)
    requires multiset(s) == multiset(t) && NoRepeats(s)
    ensures NoRepeats(t)
  {
    forall i, j | 0 <= i < j < |t| ensures t[i] != t[j] {
      if t[i] == t[j] {
        TwoPlaces(t, i, j);
        var k, l := TwoOccurrences(s, t[i]);
      }
    }
  }

  /** The elements that satisfy p, in order. */
  function Filter<T>(p: T -> bool, s: seq<T>): seq<T> {
    if s == [] then [] else (if p(s[0]) then [s[0]] else []) + Filter(p, s[1..])
  }

  lemma {:induction false} FilterSplits<T>(p: T -> bool, q: T -> bool, s: seq<T>)
    requires forall x :: p(x) <==> !q(x)
    ensures multiset(Filter(p, s) + Filter(q, s)) == multiset(s)
    ensures (forall x | x in Filter(p, s) :: p(x)) && (forall x | x in Filter(q, s) :: q(x))
  {
    if s != [] {
      FilterSplits(p, q, s[1..]);
      assert s == [s[0]] + s[1..];
    }
  }

  lemma {:induction false} Preimage<T, U>(f: T -> Option<U>, s: seq<T>, y: U) returns (k: nat)
    requires y in FilterMap(f, s)
    ensures k < |s| && f(s[k]) == Some(y)
  {
    if f(s[0]) == Some(y) {
      k := 0;
    } else {
      k := Preimage(f, s[1..], y);
      k := k + 1;
    }
  }

  /** The element behind the n-th image, and what the elements before it leave. */
  lemma {:induction false} BehindImage<T, U>(f: T -> Option<U>, s: seq<T>, n: nat) returns (i: nat)
    requires n < |FilterMap(f, s)|
    ensures i < |s| && f(s[i]) == Some(FilterMap(f, s)[n]) && FilterMap(f, s[..i]) == FilterMap(f, s)[..n]
    decreases |s|
  {
    var here := if f(s[0]).Some? then [f(s[0]).value] else [];
    assert FilterMap(f, s) == here + FilterMap(f, s[1..]);
    if n < |here| {
      i := 0;
      NoImages(f);
      assert s[..0] == [] && FilterMap(f, s)[..0] == [];
    } else {
      var k := BehindImage(f, s[1..], n - |here|);
      i := k + 1;
      assert s[..i] == [s[0]] + s[1..][..k];
      FilterMapConcat(f, [s[0]], s[1..][..k]);
      Singleton(f, s[0]);
      assert FilterMap(f, s)[..n] == here + FilterMap(f, s[1..])[..n - |here|];
    }
  }
}
