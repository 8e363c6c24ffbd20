/** The token estimate compaction decides with (llm/estimate.go). */
module Estimate {
  import opened Messages
  import Utf8

  const CHARS_PER_TOKEN := 4
  const MESSAGE_OVERHEAD_TOKENS := 4
  const IMAGE_TOKENS := 1000

  /** The bytes a character takes in UTF-8 (section 3 of RFC 3629). */
  function CharBytes(c: char): nat {
    if c < '\U{0080}' then 1 else if c < '\U{0800}' then 2 else if c < '\U{10000}' then 3 else 4
  }

  /** len of a string, which counts bytes. */
  function Bytes(s: string): nat {
    if s == [] then 0 else CharBytes(s[0]) + Bytes(s[1..])
  }

  /** A string in UTF-8. */
  function Encoded(s: string): seq<Utf8.byte> {
    if s == [] then [] else Utf8.EncodeRune(s[0] as int) + Encoded(s[1..])
  }

  lemma {:induction false} BytesAreUtf8(s: string)
    ensures Bytes(s) == |Encoded(s)|
  {
    if s != [] {
      BytesAreUtf8(s[1..]);
    }
  }

  predicate IsImage(p: Part) {
    p.kind == ImageURL || p.kind == ImageBase64
  }

  function PartChars(parts: seq<Part>): nat {
    if parts == [] then 0
    else PartChars(parts[..|parts| - 1]) + (if IsImage(parts[|parts| - 1]) then 0 else Bytes(parts[|parts| - 1].text))
  }

  function Images(parts: seq<Part>): nat {
    if parts == [] then 0
    else Images(parts[..|parts| - 1]) + (if IsImage(parts[|parts| - 1]) then 1 else 0)
  }

  function CallChars(calls: seq<ToolCall>): nat {
    if calls == [] then 0
    else CallChars(calls[..|calls| - 1]) + Bytes(calls[|calls| - 1].name) + Bytes(calls[|calls| - 1].args)
  }

  function Chars(msgs: seq<Message>): nat {
    if msgs == [] then 0
    else Chars(msgs[..|msgs| - 1]) + PartChars(msgs[|msgs| - 1].parts) + CallChars(msgs[|msgs| - 1].calls)
  }

  function ImageCount(msgs: seq<Message>): nat {
    if msgs == [] then 0 else ImageCount(msgs[..|msgs| - 1]) + Images(msgs[|msgs| - 1].parts)
  }

  function Tokens(msgs: seq<Message>): nat {
    Chars(msgs) / CHARS_PER_TOKEN + |msgs| * MESSAGE_OVERHEAD_TOKENS + ImageCount(msgs) * IMAGE_TOKENS
  }

  method EstimateTokens(msgs: seq<Message>) returns (tokens: nat)
    ensures tokens == Tokens(msgs)
  {
    var chars, images := 0, 0;
    for i := 0 to |msgs|
      invariant chars == Chars(msgs[..i]) && images == ImageCount(msgs[..i])
    {
      var m := msgs[i];
      assert msgs[..i + 1][..i] == msgs[..i];
      for j := 0 to |m.parts|
        invariant chars == Chars(msgs[..i]) + PartChars(m.parts[..j])
        invariant images == ImageCount(msgs[..i]) + Images(m.parts[..j])
      {
        var p := m.parts[j];
        assert m.parts[..j + 1][..j] == m.parts[..j];
        if IsImage(p) {
          images := images + 1;
        } else {
          chars := chars + Bytes(p.text);
        }
      }
      assert m.parts[..|m.parts|] == m.parts;
      for j := 0 to |m.calls|
        invariant chars == Chars(msgs[..i]) + PartChars(m.parts) + CallChars(m.calls[..j])
      {
        assert m.calls[..j + 1][..j] == m.calls[..j];
        chars := chars + Bytes(m.calls[j].name) + Bytes(m.calls[j].args);
      }
      assert m.calls[..|m.calls|] == m.calls;
    }
    assert msgs[..|msgs|] == msgs;
    tokens := chars / CHARS_PER_TOKEN + |msgs| * MESSAGE_OVERHEAD_TOKENS + images * IMAGE_TOKENS;
  }

  lemma {:induction false} CountsConcat(a: seq<Message>, b: seq<Message>)
    ensures Chars(a + b) == Chars(a) + Chars(b)
    ensures ImageCount(a + b) == ImageCount(a) + ImageCount(b)
  {
    if b == [] {
      assert a + b == a;
    } else {
      assert (a + b)[..|a + b| - 1] == a + b[..|b| - 1];
      CountsConcat(a, b[..|b| - 1]);
    }
  }

  /** Estimates add up, but for a token that two remainders make together. */
  lemma TokensAddUp(a: seq<Message>, b: seq<Message>)
    ensures Tokens(a) + Tokens(b) <= Tokens(a + b) <= Tokens(a) + Tokens(b) + 1
  {
    CountsConcat(a, b);
  }

  /** Everything a message says, its calls included. */
  function Spoken(parts: seq<Part>): string {
    if parts == [] then ""
    else (if parts[0].kind in {ImageURL, ImageBase64} then "" else parts[0].text) + Spoken(parts[1..])
  }

  function Asked(calls: seq<ToolCall>): string {
    if calls == [] then "" else calls[0].name + calls[0].args + Asked(calls[1..])
  }

  function Pictures(parts: seq<Part>): seq<Part> {
    if parts == [] then []
    else (if parts[0].kind in {ImageURL, ImageBase64} then [parts[0]] else []) + Pictures(parts[1..])
  }

  lemma {:induction false} BytesConcat(a: string, b: string)
    ensures Bytes(a + b) == Bytes(a) + Bytes(b)
  {
    if a == "" {
      assert a + b == b;
    } else {
      assert (a + b)[1..] == a[1..] + b;
      BytesConcat(a[1..], b);
    }
  }

  lemma {:induction false} PartCharsFrom(p: Part, rest: seq<Part>)
    ensures PartChars([p] + rest) == (if IsImage(p) then 0 else Bytes(p.text)) + PartChars(rest)
    ensures Images([p] + rest) == (if IsImage(p) then 1 else 0) + Images(rest)
  {
    if rest == [] {
      assert [p] + rest == [p] && [p][..0] == [];
    } else {
      assert ([p] + rest)[..|rest|] == [p] + rest[..|rest| - 1];
      PartCharsFrom(p, rest[..|rest| - 1]);
    }
  }

  lemma {:induction false} PartsSpoken(parts: seq<Part>)
    ensures PartChars(parts) == Bytes(Spoken(parts)) && Images(parts) == |Pictures(parts)|
  {
    if parts != [] {
      PartsSpoken(parts[1..]);
      PartCharsFrom(parts[0], parts[1..]);
      assert parts == [parts[0]] + parts[1..];
      BytesConcat(if IsImage(parts[0]) then "" else parts[0].text, Spoken(parts[1..]));
    }
  }

  lemma {:induction false} CallCharsFrom(c: ToolCall, rest: seq<ToolCall>)
    ensures CallChars([c] + rest) == Bytes(c.name) + Bytes(c.args) + CallChars(rest)
  {
    if rest == [] {
      assert [c] + rest == [c] && [c][..0] == [];
    } else {
      assert ([c] + rest)[..|rest|] == [c] + rest[..|rest| - 1];
      CallCharsFrom(c, rest[..|rest| - 1]);
    }
  }

  lemma {:induction false} CallsAsked(calls: seq<ToolCall>)
    ensures CallChars(calls) == Bytes(Asked(calls))
  {
    if calls != [] {
      CallsAsked(calls[1..]);
      CallCharsFrom(calls[0], calls[1..]);
      assert calls == [calls[0]] + calls[1..];
      BytesConcat(calls[0].name + calls[0].args, Asked(calls[1..]));
      BytesConcat(calls[0].name, calls[0].args);
    }
  }

  /** A message costs four tokens, one for every four bytes of UTF-8 it says or calls with, and a
      thousand for every image. */
  lemma TokensOfOne(m: Message)
    ensures Tokens([m]) == 4 + |Encoded(Spoken(m.parts) + Asked(m.calls))| / 4 + 1000 * |Pictures(m.parts)|
  {
    hide PartChars, CallChars, Images;
    assert [m][..0] == [];
    assert Chars([]) == 0 && Chars([m]) == PartChars(m.parts) + CallChars(m.calls);
    assert ImageCount([]) == 0 && ImageCount([m]) == Images(m.parts);
    PartsSpoken(m.parts);
    CallsAsked(m.calls);
    BytesConcat(Spoken(m.parts), Asked(m.calls));
    BytesAreUtf8(Spoken(m.parts) + Asked(m.calls));
  }

  /** Dropping messages, from either end, never raises the estimate, and lowers it by at
      least the per-message overhead. */
  lemma TokensOfPart(before: seq<Message>, msgs: seq<Message>, after: seq<Message>)
    ensures Tokens(msgs) + MESSAGE_OVERHEAD_TOKENS * (|before| + |after|) <= Tokens(before + msgs + after)
  {
    CountsConcat(before, msgs);
    CountsConcat(before + msgs, after);
  }
}
