/** Semantic idempotency keys: framed parts under a permanent domain, for any digest. */
module SemanticKey {
  import opened Wrappers
  import opened Text

  const DOMAIN := "github.com/aerialcombat/joeydb-go/semantic-key/v1"
  const MAX_NAMESPACE_BYTES := 32

  predicate Lower(c: char) { 'a' <= c <= 'z' }

  predicate NamespaceChar(c: char) { Lower(c) || '0' <= c <= '9' || c == '.' || c == '_' || c == '-' }

  predicate ValidNamespace(namespace: string) {
    && 1 <= |namespace| <= MAX_NAMESPACE_BYTES
    && Lower(namespace[0])
    && forall i | 1 <= i < |namespace| :: NamespaceChar(namespace[i])
  }

  method ValidSemanticKeyNamespace(namespace: string) returns (valid: bool)
    ensures valid <==> ValidNamespace(namespace)
  {
    if |namespace| == 0 || |namespace| > MAX_NAMESPACE_BYTES {
      return false;
    }
    if namespace[0] < 'a' || namespace[0] > 'z' {
      return false;
    }
    var i := 1;
    while i < |namespace|
      invariant 1 <= i <= |namespace|
      invariant forall k | 1 <= k < i :: NamespaceChar(namespace[k])
    {
      if !NamespaceChar(namespace[i]) {
        return false;
      }
      i := i + 1;
    }
    valid := true;
  }

  const LETTERS := "abcdefghijklmnopqrstuvwxyz"

  /** The namespaces, by their alphabet. */
  lemma NamespacesInFull(namespace: string)
    ensures ValidNamespace(namespace) <==>
              && 1 <= |namespace| <= 32 && namespace[0] in LETTERS
              && forall c | c in namespace :: c in LETTERS + "0123456789._-"
  {
    LetterByLetter();
    if ValidNamespace(namespace) {
      forall c | c in namespace ensures c in LETTERS + "0123456789._-" {
        var i :| 0 <= i < |namespace| && namespace[i] == c;
        assert i == 0 || NamespaceChar(c);
      }
    } else if 1 <= |namespace| <= 32 && namespace[0] in LETTERS {
      var i :| 1 <= i < |namespace| && !NamespaceChar(namespace[i]);
      assert namespace[i] in namespace;
    }
  }

  lemma LetterByLetter()
    ensures forall c: char :: Lower(c) <==> c in LETTERS
    ensures forall c: char :: NamespaceChar(c) <==> c in LETTERS + "0123456789._-"
  {
    LettersAreLower();
    forall c: char ensures NamespaceChar(c) <==> c in LETTERS + "0123456789._-" {
      assert c in LETTERS + "0123456789._-" <==> c in LETTERS || c in "0123456789._-";
      assert c in "0123456789._-" <==> '0' <= c <= '9' || c == '.' || c == '_' || c == '-';
    }
  }

  lemma LettersAreLower()
    ensures forall c: char :: Lower(c) <==> c in LETTERS
  {
    forall c: char ensures Lower(c) ==> c in LETTERS && LETTERS[c as int - 'a' as int] == c {
    }
  }

  // -------------------------------------------------------------- framing

  function BigEndian(v: nat, width: nat): (s: string)
    ensures |s| == width
  {
    if width == 0 then "" else BigEndian(v / 256, width - 1) + [(v % 256) as char]
  }

  function BigEndianValue(s: string): nat {
    if s == "" then 0 else BigEndianValue(s[..|s| - 1]) * 256 + s[|s| - 1] as int
  }

  function Frame(value: string): string { BigEndian(|value|, 8) + value }

  function Frames(parts: seq<string>): string {
    if parts == [] then "" else Frame(parts[0]) + Frames(parts[1..])
  }

  /** The bytes SemanticKey digests. */
  function Stream(namespace: string, parts: seq<string>): string {
    Frame(DOMAIN) + Frame(namespace) + BigEndian(|parts|, 8) + Frames(parts)
  }

  // A reader of those bytes, which knows nothing but the format.

  function ParseFrame(s: string): Option<(string, string)> {
    if |s| < 8 then None
    else
      var n := BigEndianValue(s[..8]);
      if |s| < 8 + n then None else Some((s[8..8 + n], s[8 + n..]))
  }

  function ParseFrames(s: string, count: nat): Option<(seq<string>, string)> {
    if count == 0 then Some(([], s))
    else
      var first := ParseFrame(s);
      if first.None? then None
      else
        var others := ParseFrames(first.value.1, count - 1);
        if others.None? then None else Some(([first.value.0] + others.value.0, others.value.1))
  }

  function ParseStream(s: string): Option<(string, seq<string>)> {
    var domain := ParseFrame(s);
    if domain.None? || domain.value.0 != DOMAIN then None
    else
      var namespace := ParseFrame(domain.value.1);
      if namespace.None? || |namespace.value.1| < 8 then None
      else
        var rest := namespace.value.1;
        var parts := ParseFrames(rest[8..], BigEndianValue(rest[..8]));
        if parts.None? || parts.value.1 != "" then None else Some((namespace.value.0, parts.value.0))
  }

  function Pow256(width: nat): nat { if width == 0 then 1 else 256 * Pow256(width - 1) }

  lemma {:induction false} BigEndianReadsBack(v: nat, width: nat)
    requires v < Pow256(width)
    ensures BigEndianValue(BigEndian(v, width)) == v
  {
    if width > 0 {
      BigEndianReadsBack(v / 256, width - 1);
      var s := BigEndian(v, width);
      assert s[..|s| - 1] == BigEndian(v / 256, width - 1);
      assert s[|s| - 1] as int == v % 256;
    }
  }

  /** The bytes of a big-endian number, the most significant first. */
  lemma {:induction false} BigEndianBytes(v: nat, width: nat, k: nat)
    requires k < width
    ensures Pow256(width - 1 - k) > 0
    ensures BigEndian(v, width)[k] as int == v / Pow256(width - 1 - k) % 256
  {
    if k < width - 1 {
      BigEndianBytes(v / 256, width - 1, k);
      DivideTwice(v, Pow256(width - 2 - k));
    }
  }

  lemma DivideTwice(v: nat, p: nat)
    requires p > 0
    ensures v / 256 / p == v / (256 * p)
  {
    var q, r := v / 256 / p, v / 256 % p;
    assert v == 256 * (q * p + r) + v % 256;
    assert v == (256 * p) * q + (256 * r + v % 256);
    Quotient(v, 256 * p, q, 256 * r + v % 256);
  }

  lemma Quotient(v: nat, d: nat, q: nat, r: nat)
    requires 0 <= r < d && v == d * q + r
    ensures v / d == q
  {
    SameQuotient(d, q, r, v / d, v % d);
  }

  lemma SameQuotient(d: nat, q: nat, r: nat, p: nat, t: nat)
    requires r < d && t < d && d * q + r == d * p + t
    ensures q == p
  {
    if q < p {
      var n := p - q;
      assert p == q + n;
      assert d * p == d * q + d * n;
      AtLeast(d, n);
    } else if p < q {
      var n := q - p;
      assert q == p + n;
      assert d * q == d * p + d * n;
      AtLeast(d, n);
    }
  }

  lemma AtLeast(d: nat, n: nat)
    requires n >= 1
    ensures d * n >= d
  {
  }

  /** What is digested: the domain, the namespace, the number of parts and the parts, each text after its length. */
  lemma StreamInFull(namespace: string, parts: seq<string>)
    ensures |Stream(namespace, parts)| >= 57
    ensures Stream(namespace, parts)[..57] ==
            [0 as char, 0 as char, 0 as char, 0 as char, 0 as char, 0 as char, 0 as char, 49 as char]
            + "github.com/aerialcombat/joeydb-go/semantic-key/v1"
    ensures Stream(namespace, parts)[57..] ==
            BigEndian(|namespace|, 8) + namespace + BigEndian(|parts|, 8) + Frames(parts)
    ensures parts != [] ==> Frames(parts) == BigEndian(|parts[0]|, 8) + parts[0] + Frames(parts[1..])
    ensures Frames([]) == ""
  {
    hide BigEndian, DOMAIN, Frames;
    FortyNine();
    Head(namespace, parts);
    MoreFrames(parts);
  }

  lemma MoreFrames(parts: seq<string>)
    ensures parts != [] ==> Frames(parts) == BigEndian(|parts[0]|, 8) + parts[0] + Frames(parts[1..])
    ensures Frames([]) == ""
  {
    hide BigEndian;
  }

  lemma Head(namespace: string, parts: seq<string>)
    ensures var n := |Frame(DOMAIN)|;
            && |Stream(namespace, parts)| >= n && Stream(namespace, parts)[..n] == Frame(DOMAIN)
            && Stream(namespace, parts)[n..] == Frame(namespace) + BigEndian(|parts|, 8) + Frames(parts)
  {
    hide Frame, Frames, BigEndian, DOMAIN;
    var rest := Frame(namespace) + BigEndian(|parts|, 8) + Frames(parts);
    assert Stream(namespace, parts) == Frame(DOMAIN) + rest;
  }

  lemma FortyNine()
    ensures DOMAIN == "github.com/aerialcombat/joeydb-go/semantic-key/v1" && |DOMAIN| == 49
    ensures BigEndian(49, 8) ==
            [0 as char, 0 as char, 0 as char, 0 as char, 0 as char, 0 as char, 0 as char, 49 as char]
  {
    assert BigEndian(0, 4) == [0 as char, 0 as char, 0 as char, 0 as char];
    assert BigEndian(0, 7) == BigEndian(0, 4) + [0 as char, 0 as char, 0 as char];
  }

  lemma EightBytesAreEnough()
    ensures Pow256(8) == TWO_TO_64
  {
  }

  predicate Framable(value: string) { |value| < TWO_TO_64 }

  lemma FrameReadsBack(value: string, rest: string)
    requires Framable(value)
    ensures ParseFrame(Frame(value) + rest) == Some((value, rest))
  {
    hide BigEndian, BigEndianValue, Pow256;
    EightBytesAreEnough();
    BigEndianReadsBack(|value|, 8);
    var s := Frame(value) + rest;
    assert s[..8] == BigEndian(|value|, 8);
    assert s[8..8 + |value|] == value && s[8 + |value|..] == rest;
  }

  lemma {:induction false} FramesReadBack(parts: seq<string>, rest: string)
    requires forall p | p in parts :: Framable(p)
    ensures ParseFrames(Frames(parts) + rest, |parts|) == Some((parts, rest))
  {
    hide ParseFrame, Frame;
    if parts == [] {
      assert Frames(parts) + rest == rest;
    } else {
      var others := Frames(parts[1..]) + rest;
      assert Frames(parts) + rest == Frame(parts[0]) + others;
      FrameReadsBack(parts[0], others);
      FramesReadBack(parts[1..], rest);
      assert [parts[0]] + parts[1..] == parts;
    }
  }

  /** The digested bytes determine namespace and parts: boundaries, order, empty and missing parts included. */
  lemma StreamReadsBack(namespace: string, parts: seq<string>)
    requires Framable(namespace) && |parts| < TWO_TO_64 && forall p | p in parts :: Framable(p)
    ensures ParseStream(Stream(namespace, parts)) == Some((namespace, parts))
  {
    hide ParseFrame, ParseFrames, Frame, Frames, BigEndian, BigEndianValue, Pow256;
    var count := BigEndian(|parts|, 8);
    var s2 := count + Frames(parts);
    var s1 := Frame(namespace) + s2;
    assert Stream(namespace, parts) == Frame(DOMAIN) + s1;
    FrameReadsBack(DOMAIN, s1);
    FrameReadsBack(namespace, s2);
    EightBytesAreEnough();
    BigEndianReadsBack(|parts|, 8);
    assert s2[..8] == count && s2[8..] == Frames(parts);
    FramesReadBack(parts, "");
    assert Frames(parts) + "" == Frames(parts);
  }

  // ------------------------------------------------------------------ keys

  datatype Error = InvalidNamespace(namespace: string)

  function Suffix(namespace: string, encoded: string): string { namespace + ":" + encoded }

  /** The running digest: what has been written to it, in order. */
  class Digest {
    var written: string

    constructor ()
      ensures written == ""
    {
      written := "";
    }

    method WriteUint64(value: uint64)
      modifies this
      ensures written == old(written) + BigEndian(value, 8)
    {
      var encoded := new char[8](_ => '0');
      var i, v := 8, value;
      while i > 0
        invariant 0 <= i <= 8 && v >= 0
        invariant BigEndian(value, 8) == BigEndian(v, i) + encoded[i..]
        invariant written == old(written)
      {
        i := i - 1;
        encoded[i] := (v % 256) as char;
        v := v / 256;
      }
      assert encoded[0..] == encoded[..];
      written := written + encoded[..];
    }

    method WriteFrame(value: string)
      requires Framable(value)
      modifies this
      ensures written == old(written) + Frame(value)
    {
      WriteUint64(|value|);
      written := written + value;
    }
  }

  lemma DomainIsFramable()
    ensures Framable(DOMAIN)
    ensures forall namespace | ValidNamespace(namespace) :: Framable(namespace)
  {
  }

  method SemanticKey(namespace: string, parts: seq<string>, encodedSum: string -> string)
    returns (r: Result<string, Error>)
    requires |parts| < TWO_TO_64 && forall p | p in parts :: Framable(p)
    ensures r == if ValidNamespace(namespace) then Ok(Suffix(namespace, encodedSum(Stream(namespace, parts))))
                 else Err(InvalidNamespace(namespace))
  {
    hide Frame, BigEndian, ValidNamespace;
    DomainIsFramable();
    var valid := ValidSemanticKeyNamespace(namespace);
    if !valid {
      return Err(InvalidNamespace(namespace));
    }
    var digest := new Digest();
    digest.WriteFrame(DOMAIN);
    assert digest.written == Frame(DOMAIN);
    digest.WriteFrame(namespace);
    digest.WriteUint64(|parts|);
    ghost var head := digest.written;
    var i := 0;
    while i < |parts|
      invariant 0 <= i <= |parts|
      invariant head + Frames(parts) == digest.written + Frames(parts[i..])
    {
      assert parts[i..][1..] == parts[i + 1..];
      digest.WriteFrame(parts[i]);
      i := i + 1;
    }
    assert digest.written == head + Frames(parts);
    r := Ok(Suffix(namespace, encodedSum(digest.written)));
  }

  lemma SuffixesSplitAtTheColon(n1: string, e1: string, n2: string, e2: string)
    requires ValidNamespace(n1) && ValidNamespace(n2)
    requires Suffix(n1, e1) == Suffix(n2, e2)
    ensures n1 == n2 && e1 == e2
  {
    var s := Suffix(n1, e1);
    ColonIsFirst(n1, e1);
    ColonIsFirst(n2, e2);
    assert |n1| == |n2|;
    assert n1 == s[..|n1|] == n2 && e1 == s[|n1| + 1..] == e2;
  }

  lemma ColonIsFirst(namespace: string, encoded: string)
    requires ValidNamespace(namespace)
    ensures var s := Suffix(namespace, encoded);
            s[|namespace|] == ':' && forall i | 0 <= i < |namespace| :: s[i] != ':'
  {
  }

  /** Two operations get the same key only if they are the same, unless the digest itself collides on them. */
  lemma KeysIdentifyOperations(n1: string, parts1: seq<string>, n2: string, parts2: seq<string>,
                               encodedSum: string -> string)
    requires ValidNamespace(n1) && |parts1| < TWO_TO_64 && forall p | p in parts1 :: Framable(p)
    requires ValidNamespace(n2) && |parts2| < TWO_TO_64 && forall p | p in parts2 :: Framable(p)
    requires encodedSum(Stream(n1, parts1)) == encodedSum(Stream(n2, parts2))
             ==> Stream(n1, parts1) == Stream(n2, parts2)
    ensures Suffix(n1, encodedSum(Stream(n1, parts1))) == Suffix(n2, encodedSum(Stream(n2, parts2)))
       <==> n1 == n2 && parts1 == parts2
  {
    if Suffix(n1, encodedSum(Stream(n1, parts1))) == Suffix(n2, encodedSum(Stream(n2, parts2))) {
      SuffixesSplitAtTheColon(n1, encodedSum(Stream(n1, parts1)), n2, encodedSum(Stream(n2, parts2)));
      StreamReadsBack(n1, parts1);
      StreamReadsBack(n2, parts2);
    }
  }
}
