/** Base64 with padding, as section 4 of RFC 4648 defines it: a tagged string keeps a thought
    signature in this form (llm/google/convert.go). */
module Base64 {
  import opened Messages
  import Utf8

  type byte = Utf8.byte

  function Digit(n: nat): char
    requires n < 64
  {
    if n < 26 then 'A' + n as char
    else if n < 52 then 'a' + (n - 26) as char
    else if n < 62 then '0' + (n - 52) as char
    else if n == 62 then '+' else '/'
  }

  function Value(c: char): (n: Option<nat>)
    ensures n.Some? ==> n.value < 64
  {
    if 'A' <= c <= 'Z' then Some((c - 'A') as nat)
    else if 'a' <= c <= 'z' then Some((c - 'a') as nat + 26)
    else if '0' <= c <= '9' then Some((c - '0') as nat + 52)
    else if c == '+' then Some(62)
    else if c == '/' then Some(63)
    else None
  }

  function Encode(s: seq<byte>): string {
    if s == [] then ""
    else if |s| == 1 then [Digit(s[0] / 4), Digit(s[0] % 4 * 16), '=', '=']
    else if |s| == 2 then [Digit(s[0] / 4), Digit(s[0] % 4 * 16 + s[1] / 16), Digit(s[1] % 16 * 4), '=']
    else
      [Digit(s[0] / 4), Digit(s[0] % 4 * 16 + s[1] / 16), Digit(s[1] % 16 * 4 + s[2] / 64), Digit(s[2] % 64)]
      + Encode(s[3..])
  }

  const UPPER := "ABCDEFGHIJKLMNOPQRSTUVWXYZ"
  const LOWER := "abcdefghijklmnopqrstuvwxyz"
  const ALPHABET := UPPER + LOWER + "0123456789+/"

  lemma DigitIs(n: nat)
    requires n < 64
    ensures |ALPHABET| == 64 && Digit(n) == ALPHABET[n]
  {
    if n < 26 {
      assert UPPER[n] == 'A' + n as char;
    } else if n < 52 {
      assert LOWER[n - 26] == 'a' + (n - 26) as char;
    } else {
      assert "0123456789+/"[n - 52] == Digit(n);
    }
  }

  /** Four digits of the alphabet write the number that three bytes make; one or two bytes left over
      are written with zero bits after them, and padded. */
  lemma EncodesGroups(s: seq<byte>) returns (a: nat, b: nat, c: nat, d: nat)
    requires s != []
    ensures a < 64 && b < 64 && c < 64 && d < 64 && |ALPHABET| == 64
    ensures |s| >= 3 ==>
              && ((a * 64 + b) * 64 + c) * 64 + d == (s[0] as int * 256 + s[1]) * 256 + s[2]
              && Encode(s) == [ALPHABET[a], ALPHABET[b], ALPHABET[c], ALPHABET[d]] + Encode(s[3..])
    ensures |s| == 2 ==>
              && (a * 64 + b) * 64 + c == (s[0] as int * 256 + s[1]) * 4
              && Encode(s) == [ALPHABET[a], ALPHABET[b], ALPHABET[c], '=']
    ensures |s| == 1 ==> a * 64 + b == s[0] as int * 16 && Encode(s) == [ALPHABET[a], ALPHABET[b], '=', '=']
  {
    var y: byte := if |s| >= 2 then s[1] else 0;
    var z: byte := if |s| >= 3 then s[2] else 0;
    a, b, c, d := s[0] / 4, s[0] % 4 * 16 + y / 16, y % 16 * 4 + z / 64, z % 64;
    SixBits(s[0], y, z);
    assert |s| >= 3 ==> Encode(s) == [Digit(a), Digit(b), Digit(c), Digit(d)] + Encode(s[3..]) by { hide Digit; }
    assert |s| == 2 ==> Encode(s) == [Digit(a), Digit(b), Digit(c), '='] by { hide Digit; }
    assert |s| == 1 ==> Encode(s) == [Digit(a), Digit(b), '=', '='] by { hide Digit; }
    hide Digit, Encode;
    DigitIs(a);
    DigitIs(b);
    DigitIs(c);
    DigitIs(d);
  }

  lemma SixBits(x: byte, y: byte, z: byte)
    ensures var a, b, c, d := x / 4, x % 4 * 16 + y / 16, y % 16 * 4 + z / 64, z % 64;
            && a < 64 && b < 64 && c < 64 && d < 64
            && ((a * 64 + b) * 64 + c) * 64 + d == (x as int * 256 + y) * 256 + z
            && a * 64 + b == x as int * 16 + y / 16
            && (a * 64 + b) * 64 + c == (x as int * 256 + y) * 4 + z / 64
  {
  }

  /** The bytes of four digits, or of two or three and the padding that ends the string. */
  function Quad(t: string): Option<seq<byte>>
    requires |t| >= 4
  {
    var a, b, c, d := Value(t[0]), Value(t[1]), Value(t[2]), Value(t[3]);
    if a.None? || b.None? then None
    else
      var first: byte := a.value * 4 + b.value / 16;
      if |t| == 4 && t[2] == '=' && t[3] == '=' then Some([first])
      else if c.None? then None
      else
        var second: byte := b.value % 16 * 16 + c.value / 4;
        if |t| == 4 && t[3] == '=' then Some([first, second])
        else if d.None? then None
        else Some([first, second, c.value % 4 * 64 + d.value])
  }

  function Decode(t: string): Option<seq<byte>> {
    if t == "" then Some([])
    else if |t| < 4 then None
    else
      match Quad(t)
      case None => None
      case Some(bytes) =>
        match Decode(t[4..])
        case None => None
        case Some(rest) => Some(bytes + rest)
  }

  lemma ValueOfDigit(n: nat)
    requires n < 64
    ensures Value(Digit(n)) == Some(n) && Digit(n) != '=' && Digit(n) != ':'
  {
  }

  /** The six-bit groups of two bytes in a row come apart again. */
  lemma Groups(x: byte, y: byte)
    ensures (x % 4 * 16 + y / 16) / 16 == x % 4 && (x % 4 * 16 + y / 16) % 16 == y / 16
    ensures (x % 16 * 4 + y / 64) / 4 == x % 16 && (x % 16 * 4 + y / 64) % 4 == y / 64
    ensures x / 4 * 4 + x % 4 == x && x / 16 * 16 + x % 16 == x && x / 64 * 64 + x % 64 == x
    ensures x % 4 * 16 + y / 16 < 64 && x % 16 * 4 + y / 64 < 64
  {
  }

  lemma QuadOfThree(x: byte, y: byte, z: byte, rest: string)
    ensures Quad([Digit(x / 4), Digit(x % 4 * 16 + y / 16), Digit(y % 16 * 4 + z / 64), Digit(z % 64)] + rest) ==
            Some([x, y, z])
  {
    hide Value, Digit;
    var a, b, c, d := x / 4, x % 4 * 16 + y / 16, y % 16 * 4 + z / 64, z % 64;
    Groups(x, y);
    Groups(y, z);
    Groups(z, z);
    ValueOfDigit(a);
    ValueOfDigit(b);
    ValueOfDigit(c);
    ValueOfDigit(d);
    assert a * 4 + b / 16 == x && b % 16 * 16 + c / 4 == y && c % 4 * 64 + d == z;
  }

  lemma QuadOfTwo(x: byte, y: byte)
    ensures Quad([Digit(x / 4), Digit(x % 4 * 16 + y / 16), Digit(y % 16 * 4), '=']) == Some([x, y])
  {
    hide Value, Digit;
    var a, b, c := x / 4, x % 4 * 16 + y / 16, y % 16 * 4;
    Groups(x, y);
    Groups(y, 0);
    ValueOfDigit(a);
    ValueOfDigit(b);
    ValueOfDigit(c);
    assert a * 4 + b / 16 == x && b % 16 * 16 + c / 4 == y;
  }

  lemma QuadOfOne(x: byte)
    ensures Quad([Digit(x / 4), Digit(x % 4 * 16), '=', '=']) == Some([x])
  {
    hide Value, Digit;
    Groups(x, 0);
    ValueOfDigit(x / 4);
    ValueOfDigit(x % 4 * 16);
  }

  /** Decoding gives back what was encoded. */
  lemma {:induction false} DecodeOfEncode(s: seq<byte>)
    ensures Decode(Encode(s)) == Some(s)
  {
    hide Quad, Digit;
    if s == [] {
    } else if |s| < 3 {
      if |s| == 1 {
        QuadOfOne(s[0]);
        assert s == [s[0]];
      } else {
        QuadOfTwo(s[0], s[1]);
        assert s == [s[0], s[1]];
      }
      assert Encode(s)[4..] == "";
      assert s + [] == s;
    } else {
      DecodeOfEncode(s[3..]);
      QuadOfThree(s[0], s[1], s[2], Encode(s[3..]));
      assert Encode(s)[4..] == Encode(s[3..]);
      assert [s[0], s[1], s[2]] + s[3..] == s;
    }
  }

  /** The encoding holds no colon, so it can be a field of a colon-separated string. */
  lemma {:induction false} NoColon(s: seq<byte>)
    ensures ':' !in Encode(s)
  {
    if |s| >= 3 {
      NoColon(s[3..]);
    }
    hide Digit, Value;
    if s != [] {
      ValueOfDigit(s[0] / 4);
      if |s| == 1 {
        ValueOfDigit(s[0] % 4 * 16);
      } else {
        ValueOfDigit(s[0] % 4 * 16 + s[1] / 16);
        if |s| == 2 {
          ValueOfDigit(s[1] % 16 * 4);
        } else {
          ValueOfDigit(s[1] % 16 * 4 + s[2] / 64);
          ValueOfDigit(s[2] % 64);
        }
      }
    }
  }
}
