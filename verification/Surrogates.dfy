/** The byte scanner that refuses unpaired surrogate escapes inside JSON strings. */
module Surrogates {
  import opened Wrappers

  function HexDigit(c: char): Option<nat> {
    if '0' <= c <= '9' then Some(c as int - '0' as int)
    else if 'a' <= c <= 'f' then Some(c as int - 'a' as int + 10)
    else if 'A' <= c <= 'F' then Some(c as int - 'A' as int + 10)
    else None
  }

  /** The value of a run of hexadecimal digits. */
  function HexValue(s: string): Option<nat> {
    if s == "" then Some(0)
    else
      var high := HexValue(s[..|s| - 1]);
      var low := HexDigit(s[|s| - 1]);
      if high.Some? && low.Some? then Some(high.value * 16 + low.value) else None
  }

  lemma {:induction false} HexValueIsBounded(s: string)
    requires HexValue(s).Some?
    ensures |s| <= 1 ==> HexValue(s).value < 16
    ensures |s| <= 2 ==> HexValue(s).value < 256
    ensures |s| <= 3 ==> HexValue(s).value < 4096
    ensures |s| <= 4 ==> HexValue(s).value < 65536
  {
    if s != "" {
      HexValueIsBounded(s[..|s| - 1]);
    }
  }

  /** A bad digit anywhere spoils the whole run. */
  lemma {:induction false} HexPrefix(s: string, n: nat)
    requires n <= |s| && HexValue(s[..n]).None?
    ensures HexValue(s).None?
  {
    if n < |s| {
      assert s[..|s| - 1][..n] == s[..n];
      HexPrefix(s[..|s| - 1], n);
    } else {
      assert s[..n] == s;
    }
  }

  /** parseJSONHex4, in 16-bit arithmetic. */
  method ParseJSONHex4(data: string) returns (value: nat, ok: bool)
    ensures ok <==> |data| == 4 && HexValue(data).Some?
    ensures ok ==> value == HexValue(data).value
  {
    if |data| != 4 {
      return 0, false;
    }
    value := 0;
    var i := 0;
    while i < |data|
      invariant 0 <= i <= 4
      invariant HexValue(data[..i]) == Some(value)
    {
      HexValueIsBounded(data[..i]);
      assert data[..i + 1][..i] == data[..i];
      value := value * 16 % 65536;
      var digit := HexDigit(data[i]);
      if digit.None? {
        HexPrefix(data, i + 1);
        return 0, false;
      }
      value := value + digit.value;
      i := i + 1;
    }
    assert data[..4] == data;
    ok := true;
  }

  // ------------------------------------------------------------- lexemes

  // What a JSON text is made of, as far as strings and escapes go.
  datatype Lexeme = Quote | Plain | Escape | Unicode(value: nat)

  predicate High(l: Lexeme) { l.Unicode? && 0xD800 <= l.value <= 0xDBFF }

  predicate Low(l: Lexeme) { l.Unicode? && 0xDC00 <= l.value <= 0xDFFF }

  /** The character writes the digit v, in either case. */
  predicate Writes(c: char, v: nat) { v < 16 && c in {"0123456789abcdef"[v], "0123456789ABCDEF"[v]} }

  lemma DigitsInFull(c: char)
    ensures HexDigit(c).Some? <==> c in "0123456789abcdefABCDEF"
    ensures HexDigit(c).Some? ==> Writes(c, HexDigit(c).value)
  {
    if HexDigit(c).Some? {
      var v := HexDigit(c).value;
      assert c == "0123456789abcdef"[v] || c == "0123456789ABCDEF"[v];
    }
  }

  lemma OneMoreDigit(s: string, c: char)
    requires HexValue(s).Some? && HexDigit(c).Some?
    ensures HexValue(s + [c]) == Some(HexValue(s).value * 16 + HexDigit(c).value)
  {
    assert (s + [c])[..|s|] == s;
  }

  /** What four characters are worth, digit by digit. */
  lemma FourDigits(s: string)
    requires |s| == 4
    ensures HexValue(s).Some? <==> forall c | c in s :: c in "0123456789abcdefABCDEF"
    ensures HexValue(s).Some? ==>
              exists a: nat, b: nat, c: nat, d: nat :: Writes(s[0], a) && Writes(s[1], b) && Writes(s[2], c)
                && Writes(s[3], d) && HexValue(s).value == a * 4096 + b * 256 + c * 16 + d
  {
    hide HexDigit, Writes;
    forall i | 0 <= i < 4
      ensures HexDigit(s[i]).Some? <==> s[i] in "0123456789abcdefABCDEF"
      ensures HexDigit(s[i]).Some? ==> Writes(s[i], HexDigit(s[i]).value)
    {
      DigitsInFull(s[i]);
    }
    if i :| 0 <= i < 4 && HexDigit(s[i]).None? {
      BadDigit(s, i);
    } else {
      AllDigits(s);
    }
  }

  lemma BadDigit(s: string, i: nat)
    requires i < |s| && HexDigit(s[i]).None?
    ensures HexValue(s).None?
  {
    assert s[..i + 1][..i] == s[..i];
    HexPrefix(s, i + 1);
  }

  lemma AllDigits(s: string)
    requires |s| == 4 && forall i | 0 <= i < 4 :: HexDigit(s[i]).Some?
    ensures HexValue(s) == Some(HexDigit(s[0]).value * 4096 + HexDigit(s[1]).value * 256 + HexDigit(s[2]).value * 16
                                + HexDigit(s[3]).value)
  {
    hide HexDigit;
    OneMoreDigit("", s[0]);
    OneMoreDigit([] + [s[0]], s[1]);
    OneMoreDigit([] + [s[0]] + [s[1]], s[2]);
    OneMoreDigit([] + [s[0]] + [s[1]] + [s[2]], s[3]);
    assert s == [] + [s[0]] + [s[1]] + [s[2]] + [s[3]];
  }

  /** A half of a pair is told by its top six bits. */
  lemma HalvesByTheirTopBits(v: nat)
    requires v < 0x1_0000
    ensures High(Unicode(v)) <==> v / 0x400 == 54
    ensures Low(Unicode(v)) <==> v / 0x400 == 55
  {
  }

  /** The first lexeme of a nonempty text, and its length in bytes. */
  function FirstLexeme(text: string, inString: bool): (r: (Lexeme, nat))
    requires text != ""
    ensures 1 <= r.1 <= |text|
  {
    if text[0] == '"' then (Quote, 1)
    else if text[0] == '\\' && inString && |text| > 1 then
      if text[1] == 'u' && |text| > 5 && HexValue(text[2..6]).Some? then (Unicode(HexValue(text[2..6]).value), 6)
      else (Escape, 2)
    else (Plain, 1)
  }

  function Lexemes(text: string, inString: bool): seq<Lexeme>
    decreases |text|
  {
    if text == "" then []
    else
      var (l, n) := FirstLexeme(text, inString);
      [l] + Lexemes(text[n..], if l.Quote? then !inString else inString)
  }

  predicate PairedAt(ls: seq<Lexeme>, k: nat)
    requires k < |ls|
  {
    && (High(ls[k]) ==> k + 1 < |ls| && Low(ls[k + 1]))
    && (Low(ls[k]) ==> k > 0 && High(ls[k - 1]))
  }

  /** Every high surrogate escape is immediately followed by a low one, and every low one preceded by a high one. */
  ghost predicate Paired(ls: seq<Lexeme>) {
    forall k | 0 <= k < |ls| :: PairedAt(ls, k)
  }

  /** Pairing splits wherever no pair is cut. */
  lemma PairedSplits(ls: seq<Lexeme>, rest: seq<Lexeme>)
    requires ls == [] || !High(ls[|ls| - 1]) || rest == [] || !Low(rest[0])
    ensures Paired(ls) && Paired(rest) <==> Paired(ls + rest) && (ls == [] || !High(ls[|ls| - 1]))
                                            && (rest == [] || !Low(rest[0]))
  {
    var all, n := ls + rest, |ls|;
    forall k | 0 <= k < n && !(k == n - 1 && High(ls[k])) ensures PairedAt(ls, k) <==> PairedAt(all, k) {
      assert all[k] == ls[k];
      assert k + 1 < n ==> all[k + 1] == ls[k + 1];
      assert k > 0 ==> all[k - 1] == ls[k - 1];
    }
    forall k | 0 <= k < |rest| && !(k == 0 && Low(rest[0])) ensures PairedAt(rest, k) <==> PairedAt(all, n + k) {
      assert all[n + k] == rest[k];
      assert k + 1 < |rest| ==> all[n + k + 1] == rest[k + 1];
      assert k > 0 ==> all[n + k - 1] == rest[k - 1];
    }
    if Paired(ls) && Paired(rest) {
      assert n > 0 ==> PairedAt(ls, n - 1);
      assert rest != [] ==> PairedAt(rest, 0);
      forall k | 0 <= k < |all| ensures PairedAt(all, k) {
        if k >= n {
          assert PairedAt(rest, k - n) <==> PairedAt(all, n + (k - n));
        }
      }
    }
    if Paired(all) && (ls == [] || !High(ls[n - 1])) && (rest == [] || !Low(rest[0])) {
      forall k | 0 <= k < |rest| ensures PairedAt(rest, k) {
        assert PairedAt(all, n + k);
      }
    }
  }

  lemma PairedSkipsOther(l: Lexeme, ls: seq<Lexeme>)
    requires !High(l) && !Low(l)
    ensures Paired([l] + ls) <==> Paired(ls)
  {
    var all := [l] + ls;
    if ls != [] && Low(ls[0]) {
      assert all[1] == ls[0] && all[0] == l;
      assert !PairedAt(all, 1) && !PairedAt(ls, 0);
    } else {
      PairedSplits([l], ls);
    }
  }

  lemma PairedSkipsPair(high: Lexeme, low: Lexeme, ls: seq<Lexeme>)
    requires High(high) && Low(low)
    ensures Paired([high, low] + ls) <==> Paired(ls)
  {
    var all := [high, low] + ls;
    assert PairedAt([high, low], 0) && PairedAt([high, low], 1);
    if ls != [] && Low(ls[0]) {
      assert all[2] == ls[0] && all[1] == low;
      assert !PairedAt(all, 2) && !PairedAt(ls, 0);
    } else {
      PairedSplits([high, low], ls);
    }
  }

  lemma LoneSurrogateIsUnpaired(ls: seq<Lexeme>)
    requires ls != []
    requires Low(ls[0]) || (High(ls[0]) && (|ls| == 1 || !Low(ls[1])))
    ensures !Paired(ls)
  {
    assert !PairedAt(ls, 0);
  }

  /** The first lexeme at position i, read by index as the scanner does. */
  lemma LexemeAt(data: string, i: nat, inString: bool)
    requires i < |data|
    ensures FirstLexeme(data[i..], inString) ==
            if data[i] == '"' then (Quote, 1)
            else if data[i] == '\\' && inString && i + 1 < |data| then
              if data[i + 1] == 'u' && i + 5 < |data| && HexValue(data[i + 2..i + 6]).Some?
              then (Unicode(HexValue(data[i + 2..i + 6]).value), 6)
              else (Escape, 2)
            else (Plain, 1)
    ensures var (l, n) := FirstLexeme(data[i..], inString);
            Lexemes(data[i..], inString) == [l] + Lexemes(data[i + n..], if l.Quote? then !inString else inString)
  {
    var rest := data[i..];
    var (l, n) := FirstLexeme(rest, inString);
    assert i + 5 < |data| ==> rest[2..6] == data[i + 2..i + 6];
    assert rest[n..] == data[i + n..];
  }

  datatype Fault = UnpairedHigh | UnpairedLow

  /** The kind of the first unpaired surrogate escape. */
  function FirstFault(ls: seq<Lexeme>): Option<Fault> {
    if ls == [] then None
    else if High(ls[0]) then
      if |ls| > 1 && Low(ls[1]) then FirstFault(ls[2..]) else Some(UnpairedHigh)
    else if Low(ls[0]) then Some(UnpairedLow)
    else FirstFault(ls[1..])
  }

  lemma {:induction false} FaultExactlyWhenUnpaired(ls: seq<Lexeme>)
    ensures FirstFault(ls).None? <==> Paired(ls)
  {
    if ls != [] {
      if High(ls[0]) && |ls| > 1 && Low(ls[1]) {
        FaultExactlyWhenUnpaired(ls[2..]);
        PairedSkipsPair(ls[0], ls[1], ls[2..]);
        assert ls == [ls[0], ls[1]] + ls[2..];
      } else if High(ls[0]) || Low(ls[0]) {
        LoneSurrogateIsUnpaired(ls);
      } else {
        FaultExactlyWhenUnpaired(ls[1..]);
        PairedSkipsOther(ls[0], ls[1..]);
        assert ls == [ls[0]] + ls[1..];
      }
    }
  }

  lemma StepOver(data: string, i: nat, inString: bool)
    requires i < |data|
    requires var l := FirstLexeme(data[i..], inString).0; !High(l) && !Low(l)
    ensures var (l, n) := FirstLexeme(data[i..], inString);
            FirstFault(Lexemes(data[i..], inString))
            == FirstFault(Lexemes(data[i + n..], if l.Quote? then !inString else inString))
  {
  }

  lemma StepOverPair(data: string, i: nat)
    requires i + 6 < |data| && High(FirstLexeme(data[i..], true).0) && Low(FirstLexeme(data[i + 6..], true).0)
    ensures i + 12 <= |data|
    ensures FirstFault(Lexemes(data[i..], true)) == FirstFault(Lexemes(data[i + 12..], true))
  {
    hide FirstLexeme, HexValue, Lexemes;
    LexemeAt(data, i, true);
    LexemeAt(data, i + 6, true);
    var high, low := FirstLexeme(data[i..], true).0, FirstLexeme(data[i + 6..], true).0;
    var rest := Lexemes(data[i + 12..], true);
    assert [high] + ([low] + rest) == [high, low] + rest;
    assert ([high, low] + rest)[2..] == rest;
  }

  lemma StepOntoFault(data: string, i: nat)
    requires i < |data|
    requires var l := FirstLexeme(data[i..], true).0;
             Low(l) || (High(l) && (i + 6 < |data| ==> !Low(FirstLexeme(data[i + 6..], true).0)))
    ensures FirstFault(Lexemes(data[i..], true))
         == Some(if Low(FirstLexeme(data[i..], true).0) then UnpairedLow else UnpairedHigh)
  {
  }

  /**
   rejectUnpairedJSONSurrogates: for every byte string, well formed or not, the
   scanner stays in bounds, accepts exactly the paired ones, and names the first
   unpaired escape otherwise.
   */
  method RejectUnpairedJSONSurrogates(data: string) returns (fault: Option<Fault>)
    ensures fault.None? <==> Paired(Lexemes(data, false))
    ensures fault == FirstFault(Lexemes(data, false))
  {
    FaultExactlyWhenUnpaired(Lexemes(data, false));
    hide Paired, FirstFault, Lexemes, FirstLexeme, HexValue;
    var inString := false;
    var i := 0;
    assert data[0..] == data;
    while i < |data|
      invariant 0 <= i <= |data|
      invariant FirstFault(Lexemes(data, false)) == FirstFault(Lexemes(data[i..], inString))
    {
      ghost var at := i;
      LexemeAt(data, at, inString);
      if data[i] == '"' {
        StepOver(data, at, inString);
        inString := !inString;
      } else if data[i] == '\\' && inString && i + 1 < |data| {
        i := i + 1;
        var value, ok := 0, false;
        if data[i] == 'u' && i + 4 < |data| {
          value, ok := ParseJSONHex4(data[i + 1..i + 5]);
        }
        if !ok {
          StepOver(data, at, true);
        } else {
          i := i + 4;
          if 0xD800 <= value <= 0xDBFF {
            if i + 1 < |data| { LexemeAt(data, i + 1, true); }
            if i + 6 >= |data| || data[i + 1] != '\\' || data[i + 2] != 'u' {
              StepOntoFault(data, at);
              return Some(UnpairedHigh);
            }
            var low, lowOk := ParseJSONHex4(data[i + 3..i + 7]);
            if !lowOk || low < 0xDC00 || low > 0xDFFF {
              StepOntoFault(data, at);
              return Some(UnpairedHigh);
            }
            StepOverPair(data, at);
            i := i + 6;
          } else if 0xDC00 <= value <= 0xDFFF {
            StepOntoFault(data, at);
            return Some(UnpairedLow);
          } else {
            StepOver(data, at, true);
          }
        }
      } else {
        StepOver(data, at, inString);
      }
      i := i + 1;
    }
    assert data[i..] == "";
    fault := None;
    NothingIsPaired(inString);
    FaultExactlyWhenUnpaired(Lexemes("", inString));
  }

  lemma NothingIsPaired(inString: bool)
    ensures Paired(Lexemes("", inString))
  {
  }

  // ---------------------------------------- texts, from the writer's side

  // One character of a JSON string literal as it is written down.
  datatype Unit = Raw(c: char) | Simple(c: char) | Code(digits: string)

  predicate ValidUnit(u: Unit) {
    match u
    case Raw(c) => c != '"' && c != '\\'
    case Simple(c) => c != 'u'
    case Code(digits) => |digits| == 4 && HexValue(digits).Some?
  }

  function WriteUnit(u: Unit): string {
    match u
    case Raw(c) => [c]
    case Simple(c) => ['\\', c]
    case Code(digits) => "\\u" + digits
  }

  function WriteUnits(us: seq<Unit>): string {
    if us == [] then "" else WriteUnit(us[0]) + WriteUnits(us[1..])
  }

  // A JSON text: string literals, and the characters between them.
  datatype Piece = Between(c: char) | Literal(units: seq<Unit>)

  predicate ValidPiece(p: Piece) {
    match p
    case Between(c) => c != '"'
    case Literal(units) => forall u | u in units :: ValidUnit(u)
  }

  function WritePiece(p: Piece): string {
    match p
    case Between(c) => [c]
    case Literal(units) => "\"" + WriteUnits(units) + "\""
  }

  function WriteText(ps: seq<Piece>): string {
    if ps == [] then "" else WritePiece(ps[0]) + WriteText(ps[1..])
  }

  /** The UTF-16 code unit an escape denotes, where it is one. */
  function UnitLexeme(u: Unit): Lexeme {
    match u
    case Raw(_) => Plain
    case Simple(_) => Escape
    case Code(digits) => if HexValue(digits).Some? then Unicode(HexValue(digits).value) else Escape
  }

  function UnitLexemes(us: seq<Unit>): (ls: seq<Lexeme>)
    ensures |ls| == |us| && forall k | 0 <= k < |us| :: ls[k] == UnitLexeme(us[k])
  {
    seq(|us|, (k: nat) requires k < |us| => UnitLexeme(us[k]))
  }

  /** What a unit was written as is what it is lexed as. */
  lemma UnitIsLexed(u: Unit, rest: string)
    requires ValidUnit(u)
    ensures FirstLexeme(WriteUnit(u) + "\"" + rest, true) == (UnitLexeme(u), |WriteUnit(u)|)
    ensures rest != "" ==> FirstLexeme(WriteUnit(u) + rest, true) == (UnitLexeme(u), |WriteUnit(u)|)
  {
    if u.Code? {
      assert (WriteUnit(u) + "\"" + rest)[2..6] == u.digits;
      assert (WriteUnit(u) + rest)[2..6] == u.digits;
    }
  }

  lemma {:induction false} LiteralIsLexed(us: seq<Unit>, rest: string)
    requires forall u | u in us :: ValidUnit(u)
    ensures Lexemes(WriteUnits(us) + "\"" + rest, true) == UnitLexemes(us) + [Quote] + Lexemes(rest, false)
  {
    hide FirstLexeme, ValidUnit, WriteUnit, UnitLexeme;
    var all := WriteUnits(us) + "\"" + rest;
    if us == [] {
      LexemeAt(all, 0, true);
      assert all[0..] == all && all[1..] == rest;
      assert UnitLexemes(us) == [];
    } else {
      var first, others := WriteUnit(us[0]), WriteUnits(us[1..]) + "\"" + rest;
      assert all == first + others;
      UnitIsLexed(us[0], others);
      assert all[|first|..] == others;
      LiteralIsLexed(us[1..], rest);
      assert UnitLexemes(us) == [UnitLexeme(us[0])] + UnitLexemes(us[1..]);
      assert !UnitLexeme(us[0]).Quote? by { UnitsAreNotQuotes(us[0]); }
    }
  }

  lemma UnitsAreNotQuotes(u: Unit)
    ensures !UnitLexeme(u).Quote?
  {
  }

  ghost predicate PiecePaired(p: Piece) {
    p.Literal? ==> Paired(UnitLexemes(p.units))
  }

  lemma PieceAtATime(p: Piece, rest: string)
    requires ValidPiece(p)
    ensures Paired(Lexemes(WritePiece(p) + rest, false)) <==> PiecePaired(p) && Paired(Lexemes(rest, false))
  {
    hide Paired, FirstLexeme, UnitLexemes, PairedAt, ValidUnit, Lexemes, WriteUnits, HexValue;
    var text := WritePiece(p) + rest;
    assert text[0..] == text;
    LexemeAt(text, 0, false);
    PairedSkipsOther(FirstLexeme(text, false).0, Lexemes(text[1..], !p.Between?));
    match p
    case Between(c) =>
      assert text[1..] == rest;
    case Literal(units) =>
      assert text[1..] == WriteUnits(units) + "\"" + rest;
      LiteralIsLexed(units, rest);
      assert UnitLexemes(units) + [Quote] + Lexemes(rest, false)
          == UnitLexemes(units) + ([Quote] + Lexemes(rest, false));
      QuoteSeparates(UnitLexemes(units), Lexemes(rest, false));
  }

  /**
   For every text written out of string literals with well-formed escapes, the
   scanner's criterion is that each literal, by itself, pairs its surrogates
   (RFC 8259, sections 7 and 8.2).
   */
  lemma {:induction false} PairedExactlyWhenEveryLiteralIs(ps: seq<Piece>)
    requires forall p | p in ps :: ValidPiece(p)
    ensures Paired(Lexemes(WriteText(ps), false)) <==> forall p | p in ps :: PiecePaired(p)
  {
    hide Paired, Lexemes, PiecePaired, ValidPiece, WritePiece;
    if ps == [] {
      NothingIsPaired(false);
    } else {
      assert ps == [ps[0]] + ps[1..];
      PairedExactlyWhenEveryLiteralIs(ps[1..]);
      PieceAtATime(ps[0], WriteText(ps[1..]));
    }
  }

  lemma QuoteSeparates(ls: seq<Lexeme>, rest: seq<Lexeme>)
    ensures Paired(ls + ([Quote] + rest)) <==> Paired(ls) && Paired(rest)
  {
    var after := [Quote] + rest;
    PairedSkipsOther(Quote, rest);
    if ls != [] && High(ls[|ls| - 1]) {
      var n := |ls| - 1;
      assert (ls + after)[n] == ls[n] && (ls + after)[n + 1] == Quote;
      assert !PairedAt(ls, n) && !PairedAt(ls + after, n);
    } else {
      PairedSplits(ls, after);
    }
  }
}
