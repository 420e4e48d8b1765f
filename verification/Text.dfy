/**
 Go strings and numbers.  A string stands for a Go string, one char per byte;
 integers carry their Go width as a subset type, and arithmetic that can leave it
 wraps where Go wraps.  Decimals are those of strconv, and UTF-8 is the grammar of
 RFC 3629.
 */
module Text {
  import opened Wrappers

  const TWO_TO_63: int := 0x8000_0000_0000_0000
  const TWO_TO_64: int := 0x1_0000_0000_0000_0000

  type uint64 = x: int | 0 <= x < TWO_TO_64
  type int64 = x: int | -TWO_TO_63 <= x < TWO_TO_63

  /** Conversion of an exact integer to int64, wrapping as Go does. */
  function WrapInt64(x: int): int64 {
    (x + TWO_TO_63) % TWO_TO_64 - TWO_TO_63
  }

  // -------------------------------------------------------------- decimals

  predicate IsDigit(c: char) { '0' <= c <= '9' }

  predicate LowerHex(c: char) { '0' <= c <= '9' || 'a' <= c <= 'f' }

  predicate AllDigits(s: string) { forall i | 0 <= i < |s| :: IsDigit(s[i]) }

  function DigitChar(d: nat): char
    requires d < 10
  {
    '0' + d as char
  }

  predicate Ascii(s: string) { forall i | 0 <= i < |s| :: s[i] as int < 0x80 }

  /** strconv.FormatUint in base 10. */
  function FormatUint(n: nat): (s: string)
    ensures s != "" && AllDigits(s) && Ascii(s)
  {
    if n < 10 then [DigitChar(n)] else FormatUint(n / 10) + [DigitChar(n % 10)]
  }

  function DigitsValue(s: string): nat
    requires AllDigits(s)
  {
    if s == "" then 0 else DigitsValue(s[..|s| - 1]) * 10 + (s[|s| - 1] as int - '0' as int)
  }

  /** strconv.ParseUint in base 10 and 64 bits. */
  function ParseUint(s: string): Option<uint64> {
    if s != "" && AllDigits(s) && DigitsValue(s) < TWO_TO_64 then Some(DigitsValue(s)) else None
  }

  /** No leading zero, except in "0" itself. */
  predicate Canonical(s: string) {
    s != "" && AllDigits(s) && (|s| > 1 ==> s[0] != '0')
  }

  lemma {:induction false} FormattedIsCanonical(n: nat)
    ensures Canonical(FormatUint(n)) && DigitsValue(FormatUint(n)) == n
    ensures FormatUint(n)[0] == '0' ==> n == 0
  {
    if n >= 10 {
      FormattedIsCanonical(n / 10);
      var s := FormatUint(n / 10) + [DigitChar(n % 10)];
      assert s[..|s| - 1] == FormatUint(n / 10);
    }
  }

  lemma {:induction false} CanonicalIsFormatted(s: string)
    requires Canonical(s)
    ensures FormatUint(DigitsValue(s)) == s
    ensures s[0] != '0' ==> DigitsValue(s) > 0
  {
    var n := |s| - 1;
    var d := s[n] as int - '0' as int;
    assert DigitChar(d) == s[n];
    if n == 0 {
      assert s == [s[0]] && s[..0] == "";
    } else {
      CanonicalIsFormatted(s[..n]);
      var v := DigitsValue(s[..n]);
      assert v > 0;
      assert (v * 10 + d) / 10 == v && (v * 10 + d) % 10 == d;
      assert s == s[..n] + [s[n]];
    }
  }

  /** strconv.FormatInt in base 10. */
  function FormatInt(n: int): (s: string)
    ensures s != "" && (IsDigit(s[0]) || s[0] == '-') && AllDigits(s[1..])
  {
    if n < 0 then "-" + FormatUint(-n) else FormatUint(n)
  }

  function ParseInt(s: string): Option<int> {
    if s != "" && s[0] == '-' then
      if |s| > 1 && AllDigits(s[1..]) then (var v: int := DigitsValue(s[1..]); Some(-v)) else None
    else if s != "" && AllDigits(s) then Some(DigitsValue(s)) else None
  }

  lemma DecimalsParseBack(n: int)
    ensures ParseInt(FormatInt(n)) == Some(n)
    ensures 0 <= n < TWO_TO_64 ==> ParseUint(FormatUint(n)) == Some(n)
  {
    var s := FormatInt(n);
    if n < 0 {
      FormattedIsCanonical(-n);
      assert s[1..] == FormatUint(-n);
    } else {
      FormattedIsCanonical(n);
    }
  }

  lemma FormatUintIsInjective(a: nat, b: nat)
    requires FormatUint(a) == FormatUint(b)
    ensures a == b
  {
    FormattedIsCanonical(a);
    FormattedIsCanonical(b);
  }

  // ----------------------------------------------------------------- UTF-8

  predicate Between(c: char, lo: int, hi: int) { lo <= c as int <= hi }

  /** Bytes of the well-formed UTF-8 sequence s begins with; 0 when it begins with none (RFC 3629, section 4). */
  function RuneWidth(s: string): (n: nat)
    ensures n <= |s|
  {
    if |s| >= 1 && Between(s[0], 0, 0x7F) then 1
    else if |s| >= 2 && Between(s[0], 0xC2, 0xDF) && Between(s[1], 0x80, 0xBF) then 2
    else if |s| >= 3 && Between(s[0], 0xE0, 0xEF)
            && Between(s[1], if s[0] as int == 0xE0 then 0xA0 else 0x80, if s[0] as int == 0xED then 0x9F else 0xBF)
            && Between(s[2], 0x80, 0xBF) then 3
    else if |s| >= 4 && Between(s[0], 0xF0, 0xF4)
            && Between(s[1], if s[0] as int == 0xF0 then 0x90 else 0x80, if s[0] as int == 0xF4 then 0x8F else 0xBF)
            && Between(s[2], 0x80, 0xBF) && Between(s[3], 0x80, 0xBF) then 4
    else 0
  }

  lemma RuneWidthOfPrefix(a: string, b: string)
    requires RuneWidth(a) > 0
    ensures RuneWidth(a + b) == RuneWidth(a)
  {
  }

  /** utf8.ValidString. */
  predicate ValidUtf8(s: string) {
    s == "" || (RuneWidth(s) > 0 && ValidUtf8(s[RuneWidth(s)..]))
  }

  lemma {:induction false} ValidUtf8Concatenates(a: string, b: string)
    requires ValidUtf8(a) && ValidUtf8(b)
    ensures ValidUtf8(a + b)
  {
    hide RuneWidth;
    if a == "" {
      assert a + b == b;
    } else {
      var n := RuneWidth(a);
      ValidUtf8Concatenates(a[n..], b);
      RuneWidthOfPrefix(a, b);
      assert (a + b)[n..] == a[n..] + b;
    }
  }

  lemma {:induction false} AsciiIsValidUtf8(s: string)
    requires Ascii(s)
    ensures ValidUtf8(s)
  {
    if s != "" {
      AsciiIsValidUtf8(s[1..]);
    }
  }
}
