/** UTF-8 byte sequences (section 3 of RFC 3629), and the JSON escaping of a string
    (section 7 of RFC 8259) as Go's encoding/json writes it, with its HTML escapes. */
module Utf8 {
  import opened Messages

  type byte = n: int | 0 <= n < 256

  predicate Continuation(b: byte) {
    0x80 <= b < 0xC0
  }

  /** Whether a byte can start a character (utf8.RuneStart). */
  predicate RuneStart(b: byte) {
    !Continuation(b)
  }

  /** The length of the character `s` starts with; 0 when it does not start with one. */
  function RuneLen(s: seq<byte>): (n: nat)
    requires s != []
    ensures n <= 4 && n <= |s|
    ensures n > 0 ==> RuneStart(s[0]) && forall i | 1 <= i < n :: Continuation(s[i])
    ensures n > 1 ==> s[0] >= 0x80
  {
    var b := s[0];
    if b < 0x80 then 1
    else if 0xC2 <= b <= 0xDF && |s| >= 2 && Continuation(s[1]) then 2
    else if 0xE0 <= b <= 0xEF && |s| >= 3 && Continuation(s[1]) && Continuation(s[2])
         && (b == 0xE0 ==> s[1] >= 0xA0) && (b == 0xED ==> s[1] < 0xA0) then 3
    else if 0xF0 <= b <= 0xF4 && |s| >= 4 && Continuation(s[1]) && Continuation(s[2]) && Continuation(s[3])
         && (b == 0xF0 ==> s[1] >= 0x90) && (b == 0xF4 ==> s[1] < 0x90) then 4
    else 0
  }

  /** How many bytes decoding one character takes: an invalid byte is taken alone. */
  function Advance(s: seq<byte>): (n: nat)
    requires s != []
    ensures 1 <= n <= |s| && n <= 4
  {
    if RuneLen(s) == 0 then 1 else RuneLen(s)
  }

  predicate Valid(s: seq<byte>) {
    s == [] || (RuneLen(s) > 0 && Valid(s[RuneLen(s)..]))
  }

  /** The UTF-8 form of a code point outside the surrogates. */
  function Utf8Of(cp: nat): seq<byte>
    requires cp < 0x10000
  {
    if cp < 0x80 then [cp]
    else if cp < 0x800 then [0xC0 + cp / 0x40, 0x80 + cp % 0x40]
    else [0xE0 + cp / 0x1000, 0x80 + cp / 0x40 % 0x40, 0x80 + cp % 0x40]
  }

  // ---- the characters of UTF-8

  /** A Unicode scalar value. */
  predicate Scalar(cp: nat) {
    cp < 0xD800 || 0xE000 <= cp < 0x11_0000
  }

  function EncodeRune(cp: nat): seq<byte>
    requires Scalar(cp)
  {
    if cp < 0x10000 then Utf8Of(cp)
    else [0xF0 + cp / 0x40000, 0x80 + cp / 0x1000 % 0x40, 0x80 + cp / 0x40 % 0x40, 0x80 + cp % 0x40]
  }

  lemma RuneOfScalar(cp: nat, rest: seq<byte>)
    requires Scalar(cp)
    ensures RuneLen(EncodeRune(cp) + rest) == |EncodeRune(cp)|
  {
    var s := EncodeRune(cp) + rest;
    assert forall i | 0 <= i < |EncodeRune(cp)| :: s[i] == EncodeRune(cp)[i];
  }

  lemma OneByte(a: nat)
    requires a < 0x80
    ensures EncodeRune(a) == [a]
  {
  }

  lemma TwoBytes(a: nat, b: nat)
    requires 2 <= a < 0x20 && b < 0x40
    ensures var cp := a * 0x40 + b; 0x80 <= cp < 0x800 && EncodeRune(cp) == [0xC0 + a, 0x80 + b]
  {
  }

  lemma ThreeBytes(a: nat, b: nat, c: nat)
    requires a < 0x10 && b < 0x40 && c < 0x40 && (a == 0 ==> b >= 0x20) && (a == 0xD ==> b < 0x20)
    ensures var cp := a * 0x1000 + b * 0x40 + c;
            0x800 <= cp < 0x10000 && Scalar(cp) && EncodeRune(cp) == [0xE0 + a, 0x80 + b, 0x80 + c]
  {
    var cp := a * 0x1000 + b * 0x40 + c;
    assert cp / 0x40 == a * 0x40 + b;
  }

  lemma FourBytes(a: nat, b: nat, c: nat, d: nat)
    requires a <= 4 && b < 0x40 && c < 0x40 && d < 0x40 && (a == 0 ==> b >= 0x10) && (a == 4 ==> b < 0x10)
    ensures var cp := a * 0x40000 + b * 0x1000 + c * 0x40 + d;
            0x10000 <= cp < 0x11_0000 && EncodeRune(cp) == [0xF0 + a, 0x80 + b, 0x80 + c, 0x80 + d]
  {
    var cp := a * 0x40000 + b * 0x1000 + c * 0x40 + d;
    assert cp / 0x40 == a * 0x1000 + b * 0x40 + c;
    assert cp / 0x1000 == a * 0x40 + b;
  }

  lemma ScalarOfRune(s: seq<byte>) returns (cp: nat)
    requires s != [] && RuneLen(s) > 0
    ensures Scalar(cp) && EncodeRune(cp) == s[..RuneLen(s)]
  {
    var n := RuneLen(s);
    hide EncodeRune;
    if n == 1 {
      assert EncodeRune(s[0]) == [s[0]] by { OneByte(s[0]); }
      cp := s[0];
    } else if n == 2 {
      var a: nat, b: nat := s[0] - 0xC0, s[1] - 0x80;
      TwoBytes(a, b);
      cp := a * 0x40 + b;
    } else if n == 3 {
      var a: nat, b: nat, c: nat := s[0] - 0xE0, s[1] - 0x80, s[2] - 0x80;
      ThreeBytes(a, b, c);
      cp := a * 0x1000 + b * 0x40 + c;
    } else {
      var a: nat, b: nat, c: nat, d: nat := s[0] - 0xF0, s[1] - 0x80, s[2] - 0x80, s[3] - 0x80;
      FourBytes(a, b, c, d);
      cp := a * 0x40000 + b * 0x1000 + c * 0x40 + d;
    }
  }

  /** A text starts with a character of n bytes exactly when its first n bytes are the UTF-8 form of
      a scalar value. */
  lemma RunesExactly(s: seq<byte>, n: nat)
    requires 0 < n <= |s|
    ensures RuneLen(s) == n <==> exists cp: nat :: Scalar(cp) && EncodeRune(cp) == s[..n]
  {
    hide RuneLen, EncodeRune;
    if RuneLen(s) == n {
      var cp := ScalarOfRune(s);
    }
    if cp: nat :| Scalar(cp) && EncodeRune(cp) == s[..n] {
      RuneOfScalar(cp, s[n..]);
      assert s == s[..n] + s[n..];
    }
  }

  const REPLACEMENT: seq<byte> := [0xEF, 0xBF, 0xBD]

  // ---- escaping

  function HexDigit(d: nat): byte
    requires d < 16
  {
    if d < 10 then 0x30 + d else 0x61 + d - 10
  }

  function HexValue(b: byte): Option<nat> {
    if 0x30 <= b <= 0x39 then Some(b - 0x30)
    else if 0x61 <= b <= 0x66 then Some(b - 0x61 + 10)
    else if 0x41 <= b <= 0x46 then Some(b - 0x41 + 10)
    else None
  }

  function Backslash(b: byte): seq<byte> {
    [0x5C, b]
  }

  /** A \u escape: backslash, u, four hex digits. */
  function UnicodeEscape(cp: nat): seq<byte>
    requires cp < 0x10000
  {
    [0x5C, 0x75, HexDigit(cp / 0x1000), HexDigit(cp / 0x100 % 0x10), HexDigit(cp / 0x10 % 0x10), HexDigit(cp % 0x10)]
  }

  /** An ASCII byte in a JSON string. */
  function EscapeAscii(b: byte): seq<byte>
    requires b < 0x80
  {
    if b == 0x22 || b == 0x5C then Backslash(b)
    else if b == 0x08 then Backslash(0x62)
    else if b == 0x0C then Backslash(0x66)
    else if b == 0x0A then Backslash(0x6E)
    else if b == 0x0D then Backslash(0x72)
    else if b == 0x09 then Backslash(0x74)
    else if b < 0x20 || b == 0x3C || b == 0x3E || b == 0x26 then UnicodeEscape(b)
    else [b]
  }

  /** U+2028 and U+2029, the line separators JavaScript does not allow in a string. */
  predicate LineSeparator(s: seq<byte>) {
    |s| >= 3 && s[0] == 0xE2 && s[1] == 0x80 && (s[2] == 0xA8 || s[2] == 0xA9)
  }

  /** The character `s` starts with, in a JSON string. */
  function EscapeFirst(s: seq<byte>): (e: seq<byte>)
    requires s != []
    ensures Advance(s) <= |e| <= 6 * Advance(s)
  {
    if s[0] < 0x80 then EscapeAscii(s[0])
    else if RuneLen(s) == 0 then UnicodeEscape(0xFFFD)
    else if LineSeparator(s) then UnicodeEscape(0x2028 + (s[2] as int - 0xA8))
    else s[..RuneLen(s)]
  }

  function Escape(s: seq<byte>): seq<byte> {
    if s == [] then [] else EscapeFirst(s) + Escape(s[Advance(s)..])
  }

  /** Escaping never shrinks text, and makes no byte more than six. */
  lemma {:induction false} EscapeSize(s: seq<byte>)
    ensures |s| <= |Escape(s)| <= 6 * |s|
  {
    if s != [] {
      EscapeSize(s[Advance(s)..]);
    }
  }

  /** What is escaped holds no control character, no quote that ends the string, and nothing HTML
      reads as markup. */
  lemma {:induction false} EscapeIsSafe(s: seq<byte>)
    ensures forall i | 0 <= i < |Escape(s)| :: Escape(s)[i] >= 0x20 && Escape(s)[i] !in {0x3C, 0x3E, 0x26}
    ensures forall i | 0 <= i < |Escape(s)| && Escape(s)[i] == 0x22 :: i > 0 && Escape(s)[i - 1] == 0x5C
  {
    if s != [] {
      var first := EscapeFirst(s);
      FirstIsSafe(s);
      hide EscapeFirst, Advance;
      EscapeIsSafe(s[Advance(s)..]);
      var rest := Escape(s[Advance(s)..]);
      assert Escape(s) == first + rest;
      forall i | 0 <= i < |Escape(s)|
        ensures Escape(s)[i] == if i < |first| then first[i] else rest[i - |first|]
      {
      }
    }
  }

  lemma FirstIsSafe(s: seq<byte>)
    requires s != []
    ensures var e := EscapeFirst(s);
            && (forall i | 0 <= i < |e| :: e[i] >= 0x20 && e[i] !in {0x3C, 0x3E, 0x26})
            && (forall i | 0 <= i < |e| && e[i] == 0x22 :: i > 0 && e[i - 1] == 0x5C)
  {
    hide UnicodeEscape, EscapeAscii;
    if s[0] < 0x80 {
      AsciiIsSafe(s[0]);
    } else if RuneLen(s) == 0 {
      CodeIsSafe(0xFFFD);
    } else if LineSeparator(s) {
      CodeIsSafe(0x2028 + (s[2] as int - 0xA8));
    }
  }

  lemma AsciiIsSafe(b: byte)
    requires b < 0x80
    ensures var e := EscapeAscii(b);
            && (forall i | 0 <= i < |e| :: e[i] >= 0x20 && e[i] !in {0x3C, 0x3E, 0x26})
            && (forall i | 0 <= i < |e| && e[i] == 0x22 :: i > 0 && e[i - 1] == 0x5C)
  {
    hide UnicodeEscape;
    CodeIsSafe(b);
  }

  lemma CodeIsSafe(cp: nat)
    requires cp < 0x10000
    ensures |UnicodeEscape(cp)| == 6
    ensures forall i | 0 <= i < 6 :: UnicodeEscape(cp)[i] >= 0x20 && UnicodeEscape(cp)[i] !in {0x22, 0x3C, 0x3E, 0x26}
  {
    hide HexDigit;
    HexIsSafe(cp / 0x1000);
    HexIsSafe(cp / 0x100 % 0x10);
    HexIsSafe(cp / 0x10 % 0x10);
    HexIsSafe(cp % 0x10);
  }

  lemma HexIsSafe(d: nat)
    requires d < 16
    ensures 0x30 <= HexDigit(d) <= 0x39 || 0x61 <= HexDigit(d) <= 0x66
  {
  }

  const HEX := "0123456789abcdef"

  lemma HexDigitIs(d: nat)
    requires d < 16
    ensures |HEX| == 16 && HexDigit(d) == HEX[d] as int && HexValue(HexDigit(d)) == Some(d)
  {
  }

  /** How an ASCII character is written: the quote, the backslash and five control characters after a
      backslash, every other control character and HTML's own as four digits, the rest as it is. */
  lemma EscapesAre(b: byte)
    requires b < 0x80
    ensures |HEX| == 16 && b / 16 < 16
    ensures var e, c := EscapeAscii(b), b as char;
            if c == '"' || c == '\\' then e == ['\\' as int, b]
            else if c == '\n' then e == ['\\' as int, 'n' as int]
            else if c == '\r' then e == ['\\' as int, 'r' as int]
            else if c == '\t' then e == ['\\' as int, 't' as int]
            else if c == '\U{0008}' then e == ['\\' as int, 'b' as int]
            else if c == '\U{000C}' then e == ['\\' as int, 'f' as int]
            else if c < ' ' || c == '<' || c == '>' || c == '&' then
              e == ['\\' as int, 'u' as int, '0' as int, '0' as int, HEX[b / 16] as int, HEX[b % 16] as int]
            else e == [b]
  {
    hide HexDigit;
    HexDigitIs(0);
    HexDigitIs(b / 16);
    HexDigitIs(b % 16);
  }

  // ---- unescaping

  /** What a JSON string starts with, and how many bytes that takes; None when it is not well
      formed. A surrogate stands for the replacement character (the encoder writes none, so
      their pairing is left out). */
  function First(s: seq<byte>): (r: Option<(seq<byte>, nat)>)
    requires s != []
    ensures r.Some? ==> 0 < r.value.1 <= |s|
  {
    if s[0] == 0x5C then
      if |s| < 2 then None
      else if s[1] == 0x75 then
        match CodePoint(s)
        case None => None
        case Some(cp) => Some((if 0xD800 <= cp < 0xE000 then REPLACEMENT else Utf8Of(cp), 6))
      else
        match Simple(s[1])
        case None => None
        case Some(b) => Some(([b], 2))
    else if s[0] < 0x20 || s[0] == 0x22 then None
    else Some(([s[0]], 1))
  }

  function CodePoint(s: seq<byte>): (cp: Option<nat>)
    ensures cp.Some? ==> |s| >= 6 && cp.value < 0x10000
  {
    if |s| < 6 || HexValue(s[2]).None? || HexValue(s[3]).None? || HexValue(s[4]).None? || HexValue(s[5]).None? then None
    else
      Some(HexValue(s[2]).value * 0x1000 + HexValue(s[3]).value * 0x100 + HexValue(s[4]).value * 0x10
           + HexValue(s[5]).value)
  }

  /** What a JSON string stands for; None when it is not well formed. */
  function Unescape(s: seq<byte>): Option<seq<byte>> {
    if s == [] then Some([])
    else
      match First(s)
      case None => None
      case Some(first) => Prepend(first.0, Unescape(s[first.1..]))
  }

  function Prepend(a: seq<byte>, rest: Option<seq<byte>>): Option<seq<byte>> {
    match rest
    case None => None
    case Some(b) => Some(a + b)
  }

  /** What a backslash and this byte stand for. */
  function Simple(b: byte): Option<byte> {
    if b == 0x22 || b == 0x5C || b == 0x2F then Some(b)
    else if b == 0x62 then Some(0x08)
    else if b == 0x66 then Some(0x0C)
    else if b == 0x6E then Some(0x0A)
    else if b == 0x72 then Some(0x0D)
    else if b == 0x74 then Some(0x09)
    else None
  }

  /** `s` with each invalid byte replaced by the replacement character. */
  function Sanitized(s: seq<byte>): seq<byte> {
    if s == [] then []
    else (if RuneLen(s) == 0 then REPLACEMENT else s[..RuneLen(s)]) + Sanitized(s[Advance(s)..])
  }

  lemma HexOfDigit(d: nat)
    requires d < 16
    ensures HexValue(HexDigit(d)) == Some(d)
  {
  }

  lemma HexParts(cp: nat)
    requires cp < 0x10000
    ensures cp / 0x1000 * 0x1000 + cp / 0x100 % 0x10 * 0x100 + cp / 0x10 % 0x10 * 0x10 + cp % 0x10 == cp
  {
    var a, b := cp / 0x100, cp / 0x10;
    assert a / 0x10 == cp / 0x1000;
    assert b / 0x10 == a;
  }

  lemma UnescapeUnicode(cp: nat, rest: seq<byte>)
    requires cp < 0x10000 && !(0xD800 <= cp < 0xE000)
    ensures Unescape(UnicodeEscape(cp) + rest) == Prepend(Utf8Of(cp), Unescape(rest))
  {
    var s := UnicodeEscape(cp) + rest;
    FirstOfUnicode(cp, s);
    assert s[6..] == rest;
  }

  lemma FirstOfUnicode(cp: nat, s: seq<byte>)
    requires cp < 0x10000 && !(0xD800 <= cp < 0xE000) && UnicodeEscape(cp) <= s
    ensures First(s) == Some((Utf8Of(cp), 6))
  {
    HexOfDigit(cp / 0x1000);
    HexOfDigit(cp / 0x100 % 0x10);
    HexOfDigit(cp / 0x10 % 0x10);
    HexOfDigit(cp % 0x10);
    HexParts(cp);
  }

  lemma {:induction false} UnescapePlain(plain: seq<byte>, rest: seq<byte>)
    requires forall i | 0 <= i < |plain| :: plain[i] >= 0x20 && plain[i] != 0x22 && plain[i] != 0x5C
    ensures Unescape(plain + rest) == Prepend(plain, Unescape(rest))
  {
    if plain == [] {
      assert plain + rest == rest;
      assert Unescape(rest).Some? ==> plain + Unescape(rest).value == Unescape(rest).value;
    } else {
      assert (plain + rest)[1..] == plain[1..] + rest;
      UnescapePlain(plain[1..], rest);
      if Unescape(rest).Some? {
        assert plain + Unescape(rest).value == [plain[0]] + (plain[1..] + Unescape(rest).value);
      }
    }
  }

  lemma UnescapeSeparator(s: seq<byte>, rest: seq<byte>)
    requires LineSeparator(s)
    ensures Unescape(UnicodeEscape(0x2028 + (s[2] as int - 0xA8)) + rest) == Prepend(s[..3], Unescape(rest))
  {
    hide UnicodeEscape, Unescape, Prepend;
    UnescapeUnicode(0x2028 + (s[2] as int - 0xA8), rest);
    SeparatorBytes(s);
  }

  lemma SeparatorBytes(s: seq<byte>)
    requires LineSeparator(s)
    ensures Utf8Of(0x2028 + (s[2] as int - 0xA8)) == s[..3]
  {
    assert s[..3] == [s[0], s[1], s[2]];
  }

  lemma UnescapeFirst(s: seq<byte>, rest: seq<byte>)
    requires s != []
    ensures Unescape(EscapeFirst(s) + rest) ==
            Prepend(if RuneLen(s) == 0 then REPLACEMENT else s[..RuneLen(s)], Unescape(rest))
  {
    hide Unescape, Prepend, UnicodeEscape, EscapeAscii;
    if s[0] < 0x80 {
      assert s[..1] == [s[0]];
      UnescapeAscii(s[0], rest);
    } else if RuneLen(s) == 0 {
      UnescapeUnicode(0xFFFD, rest);
      assert Utf8Of(0xFFFD) == REPLACEMENT;
    } else if LineSeparator(s) {
      UnescapeSeparator(s, rest);
    } else {
      UnescapePlain(s[..RuneLen(s)], rest);
    }
  }

  lemma UnescapeAscii(b: byte, rest: seq<byte>)
    requires b < 0x80
    ensures Unescape(EscapeAscii(b) + rest) == Prepend([b], Unescape(rest))
  {
    hide Unescape, HexDigit, Prepend;
    var e := EscapeAscii(b);
    if e == UnicodeEscape(b) {
      UnescapeUnicode(b, rest);
    } else if e == [b] {
      UnescapePlain(e, rest);
    } else {
      UnescapeBackslash(ShortEscape(b), rest);
    }
  }

  /** The letter of a two-byte escape. */
  function ShortEscape(b: byte): byte {
    match b as int
    case 0x08 => 0x62
    case 0x0C => 0x66
    case 0x0A => 0x6E
    case 0x0D => 0x72
    case 0x09 => 0x74
    case _ => b
  }

  lemma UnescapeBackslash(c: byte, rest: seq<byte>)
    requires Simple(c).Some?
    ensures Unescape(Backslash(c) + rest) == Prepend([Simple(c).value], Unescape(rest))
  {
    assert (Backslash(c) + rest)[2..] == rest;
  }

  /** Decoding what was encoded gives the text back, invalid bytes replaced. */
  lemma {:induction false} UnescapeOfEscape(s: seq<byte>)
    ensures Unescape(Escape(s)) == Some(Sanitized(s))
  {
    if s != [] {
      UnescapeOfEscape(s[Advance(s)..]);
      UnescapeFirst(s, Escape(s[Advance(s)..]));
    }
  }

  /** So the round trip is exact for valid UTF-8, and for nothing else. */
  lemma {:induction false} SanitizedSame(s: seq<byte>)
    ensures |s| <= |Sanitized(s)|
    ensures Sanitized(s) == s <==> Valid(s)
  {
    if s != [] {
      var n := Advance(s);
      SanitizedSame(s[n..]);
      assert s == s[..n] + s[n..];
      if RuneLen(s) > 0 && Sanitized(s) == s {
        assert Sanitized(s)[n..] == Sanitized(s[n..]);
      }
      if RuneLen(s) == 0 {
        assert |Sanitized(s)| == 3 + |Sanitized(s[1..])|;
      }
    }
  }

  // ---- cutting on character boundaries

  /** A cut before a byte that can start a character leaves two valid texts. */
  lemma {:induction false} CutValid(s: seq<byte>, n: nat)
    requires Valid(s) && n <= |s| && (n < |s| ==> RuneStart(s[n]))
    ensures Valid(s[..n]) && Valid(s[n..])
    decreases |s|
  {
    if n == 0 {
      assert s[n..] == s;
    } else {
      var k := RuneLen(s);
      CutValid(s[k..], n - k);
      assert s[n..] == s[k..][n - k..];
      assert s[..n][k..] == s[k..][..n - k];
      assert s[..n] == s[..k] + s[..n][k..];
      RuneOfPrefix(s, n);
    }
  }

  lemma ValidStart(s: seq<byte>)
    requires Valid(s) && s != []
    ensures RuneStart(s[0])
  {
  }

  // ---- cutting anywhere

  /** The cut at `n` goes through the character that starts at `p`. */
  predicate Inside(s: seq<byte>, p: nat, n: nat) {
    p < n < |s| && n < p + RuneLen(s[p..])
  }

  ghost predicate CutsCharacter(s: seq<byte>, n: nat) {
    exists p: nat :: Inside(s, p, n)
  }

  /** A text starts with the character its prefix starts with, if the prefix holds it whole. */
  lemma RuneOfPrefix(s: seq<byte>, n: nat)
    requires 0 < n <= |s|
    ensures RuneLen(s[..n]) == if RuneLen(s) <= n then RuneLen(s) else 0
  {
  }

  lemma RestOfRune(s: seq<byte>, p: nat)
    requires s != [] && 0 < p < Advance(s)
    ensures RuneLen(s[p..]) == 0
  {
    assert s[p..][0] == s[p];
  }

  /** Past the first character a cut is a cut of the rest. */
  lemma CutOfRest(s: seq<byte>, n: nat)
    requires s != [] && Advance(s) <= n <= |s|
    ensures CutsCharacter(s, n) <==> CutsCharacter(s[Advance(s)..], n - Advance(s))
  {
    hide Inside, RuneLen, Advance;
    var k := Advance(s);
    if CutsCharacter(s, n) {
      var p: nat :| Inside(s, p, n);
      InsideRest(s, p, n);
    }
    if CutsCharacter(s[k..], n - k) {
      var p: nat :| Inside(s[k..], p, n - k);
      InsideWhole(s, k, p, n);
    }
  }

  lemma InsideRest(s: seq<byte>, p: nat, n: nat)
    requires Inside(s, p, n) && Advance(s) <= n <= |s|
    ensures Advance(s) <= p && Inside(s[Advance(s)..], p - Advance(s), n - Advance(s))
  {
    hide RuneLen;
    assert s[0..] == s;
    if 0 < p < Advance(s) {
      RestOfRune(s, p);
    }
    assert Advance(s) <= p;
    assert s[Advance(s)..][p - Advance(s)..] == s[p..];
  }

  lemma InsideWhole(s: seq<byte>, k: nat, p: nat, n: nat)
    requires k <= n <= |s| && Inside(s[k..], p, n - k)
    ensures Inside(s, p + k, n)
  {
    hide RuneLen;
    assert s[k..][p..] == s[p + k..];
  }

  /** A cut inside the first character goes through it. */
  lemma CutOfFirst(s: seq<byte>, n: nat)
    requires s != [] && 0 < n < Advance(s)
    ensures CutsCharacter(s, n) && RuneLen(s) == Advance(s)
  {
    hide RuneLen;
    assert s[0..] == s;
    assert Inside(s, 0, n);
  }

  lemma NoCutAtStart(s: seq<byte>)
    ensures !CutsCharacter(s, 0) && s[..0] == [] && s[0..] == s
  {
  }

  /** The front of a text, cut past its first character. */
  lemma FrontOf(s: seq<byte>, n: nat)
    requires s != [] && Advance(s) <= n <= |s|
    ensures var k := Advance(s);
            && Advance(s[..n]) == k && RuneLen(s[..n]) == RuneLen(s) && s[..n][..k] == s[..k]
            && s[..n][k..] == s[k..][..n - k] && s[k..][n - k..] == s[n..]
  {
    RuneOfPrefix(s, n);
  }

  function FirstSanitized(s: seq<byte>): seq<byte>
    requires s != []
  {
    if RuneLen(s) == 0 then REPLACEMENT else s[..RuneLen(s)]
  }

  lemma FirstOfFront(s: seq<byte>, n: nat)
    requires s != [] && Advance(s) <= n <= |s|
    ensures FirstSanitized(s[..n]) == FirstSanitized(s) && EscapeFirst(s[..n]) == EscapeFirst(s)
  {
    hide RuneLen, EscapeAscii, UnicodeEscape;
    FrontOf(s, n);
    if RuneLen(s) > 0 {
      SeparatorOfFront(s, n);
    }
  }

  lemma SeparatorOfFront(s: seq<byte>, n: nat)
    requires s != [] && 0 < RuneLen(s) <= n <= |s|
    ensures LineSeparator(s[..n]) == LineSeparator(s)
  {
  }

  lemma {:induction false} SanitizedStrays(s: seq<byte>, j: nat)
    requires j <= |s| && forall i | 0 <= i < j :: Continuation(s[i])
    ensures |Sanitized(s)| == 3 * j + |Sanitized(s[j..])|
  {
    if j == 0 {
      assert s[0..] == s;
    } else {
      SanitizedStrays(s[1..], j - 1);
      assert s[1..][j - 1..] == s[j..];
    }
  }

  lemma HalvesOfFirst(s: seq<byte>, n: nat)
    requires s != [] && 0 < n < RuneLen(s)
    ensures RuneLen(s[..n]) == 0 && (forall i | 0 <= i < n - 1 :: Continuation(s[..n][1..][i]))
    ensures forall i | 0 <= i < RuneLen(s) - n :: Continuation(s[n..][i])
  {
    RuneOfPrefix(s, n);
  }

  lemma SanitizedHalf(s: seq<byte>, n: nat)
    requires s != [] && 0 < n < RuneLen(s)
    ensures |Sanitized(s[..n])| == 3 * n
    ensures |Sanitized(s[n..])| == 3 * (RuneLen(s) - n) + |Sanitized(s[RuneLen(s)..])|
  {
    var k := RuneLen(s);
    HalvesOfFirst(s, n);
    hide RuneLen, Continuation;
    SanitizedStrays(s[..n][1..], n - 1);
    assert s[..n][1..][n - 1..] == [];
    SanitizedStrays(s[n..], k - n);
    assert s[n..][k - n..] == s[k..];
  }

  lemma SanitizedStep(s: seq<byte>)
    requires s != []
    ensures Sanitized(s) == FirstSanitized(s) + Sanitized(s[Advance(s)..])
    ensures |FirstSanitized(s)| >= Advance(s) && (RuneLen(s) > 0 ==> |FirstSanitized(s)| == RuneLen(s))
  {
    hide RuneLen;
  }

  /** Cleaning the two sides of a cut gives what cleaning the text gives, unless the cut goes
      through a character: then each half is replaced byte by byte. */
  lemma {:induction false} SanitizedCut(s: seq<byte>, n: nat)
    requires n <= |s|
    ensures !CutsCharacter(s, n) ==> Sanitized(s) == Sanitized(s[..n]) + Sanitized(s[n..])
    ensures CutsCharacter(s, n) ==> |Sanitized(s)| < |Sanitized(s[..n])| + |Sanitized(s[n..])|
    decreases |s|
  {
    hide CutsCharacter, RuneLen, Sanitized, FirstSanitized, Advance;
    if n == 0 {
      NoCutAtStart(s);
      SanitizedOfNone();
    } else if n < Advance(s) {
      CutOfFirst(s, n);
      SanitizedStep(s);
      SanitizedHalf(s, n);
    } else {
      var k := Advance(s);
      CutOfRest(s, n);
      SanitizedCut(s[k..], n - k);
      FrontOf(s, n);
      FirstOfFront(s, n);
      SanitizedStep(s);
      SanitizedStep(s[..n]);
    }
  }

  lemma SanitizedOfNone()
    ensures Sanitized([]) == []
  {
  }

  lemma {:induction false} EscapeCut(s: seq<byte>, n: nat)
    requires n <= |s| && !CutsCharacter(s, n)
    ensures Escape(s) == Escape(s[..n]) + Escape(s[n..])
    decreases |s|
  {
    hide CutsCharacter, EscapeFirst, RuneLen, Advance;
    if n == 0 {
      NoCutAtStart(s);
    } else if n < Advance(s) {
      CutOfFirst(s, n);
    } else {
      var k := Advance(s);
      CutOfRest(s, n);
      EscapeCut(s[k..], n - k);
      FrontOf(s, n);
      FirstOfFront(s, n);
    }
  }

  /** A cut through no character leaves two valid texts. */
  lemma ValidCut(s: seq<byte>, n: nat)
    requires Valid(s) && n <= |s| && !CutsCharacter(s, n)
    ensures Valid(s[..n]) && Valid(s[n..])
  {
    hide Valid, Sanitized, CutsCharacter;
    SanitizedCut(s, n);
    SanitizedSame(s);
    SanitizedSame(s[..n]);
    SanitizedSame(s[n..]);
    assert s == s[..n] + s[n..];
    SumsMatch(s[..n], s[n..], Sanitized(s[..n]), Sanitized(s[n..]));
  }

  lemma SumsMatch(a: seq<byte>, b: seq<byte>, c: seq<byte>, d: seq<byte>)
    requires a + b == c + d && |a| <= |c| && |b| <= |d|
    ensures a == c && b == d
  {
    assert |a + b| == |c + d|;
    assert (a + b)[..|a|] == a && (c + d)[..|c|] == c;
    assert (a + b)[|a|..] == b && (c + d)[|c|..] == d;
  }
}
