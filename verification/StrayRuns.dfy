/** How a text that is not valid UTF-8 comes to be split inside a character (nats/wire.go,
    `runeBoundary`). */
module StrayRuns {
  import opened Messages
  import opened Utf8
  import opened Wire

  ghost predicate SplitsCharacter(text: seq<byte>, limit: int) {
    Split(text, limit).Some? && !CutsNone(Split(text, limit).value)
  }

  lemma StartIsNoCut(text: seq<byte>, q: nat)
    requires q < |text| && RuneStart(text[q])
    ensures !CutsCharacter(text, q)
  {
    hide RuneLen;
    forall p: nat
      ensures !Inside(text, p, q)
    {
      if p < q && q < p + RuneLen(text[p..]) {
        InsideContinues(text, p, q);
      }
    }
  }

  lemma {:induction false} StraysSize(text: seq<byte>)
    requires forall i | 0 <= i < |text| :: Continuation(text[i])
    ensures |Escape(text)| == 6 * |text|
  {
    if text != [] {
      StraysSize(text[1..]);
    }
  }

  lemma RunSize(run: seq<byte>)
    requires |run| == 5 && StrayAt(run, 0)
    ensures |Escape(run)| >= 10 && |Escape(run[..1])| == 6
  {
    assert run[0..] == run;
    var k := RuneLen(run);
    StraysSize(run[k..]);
    assert run[..1][1..] == [];
    assert Escape(run) == EscapeFirst(run) + Escape(run[k..]);
  }

  /** What a text that ends with a run comes to, and its front up to the first byte of the run. */
  lemma SizesWithRun(text: seq<byte>, q: nat)
    requires q + 5 == |text| && StrayAt(text, q)
    ensures |Escape(text)| >= q + 10 && |Escape(text[..q + 1])| + 4 <= |Escape(text)|
    ensures |Escape(text[q + 1..])| == 24 && Inside(text, q, q + 1)
  {
    hide Escape;
    assert text[q..][0] == text[q];
    StartIsNoCut(text, q);
    EscapeCut(text, q);
    EscapeSize(text[..q]);
    assert text[q..][0..] == text[q..];
    assert forall i | 0 < i <= 4 :: text[q..][i] == text[q + i];
    RunSize(text[q..]);
    var front := text[..q + 1];
    StartIsNoCut(front, q);
    EscapeCut(front, q);
    assert front[..q] == text[..q] && front[q..] == text[q..][..1];
    StraysSize(text[q + 1..]);
  }

  /** Under a limit one byte short, the first piece of a text that ends with a run ends in it. */
  lemma LastRunIsCut(text: seq<byte>, limit: int)
    requires |text| >= 20 && StrayAt(text, |text| - 5) && limit == |EncodeChunk(text)| - 1
    ensures Split(text, limit) == Some([text[..|text| - 4], text[|text| - 4..]])
    ensures SplitsCharacter(text, limit)
  {
    hide Escape, EncodeChunk, StrayAt, RuneLen, Inside, BoundaryAt, Fit, Shrunk, Pieces, CutsCharacter;
    var q := |text| - 5;
    var first, rest := text[..q + 1], text[q + 1..];
    SizesWithRun(text, q);
    ChunkSize(text);
    ChunkSize(rest);
    FirstOfRun(text, limit);
    FitsWhole(rest, limit);
    TwoPieces(text, q + 1, limit);
    InsideCuts(text, q, q + 1);
    CutOfTwo(text, q + 1);
  }

  lemma InsideCuts(text: seq<byte>, p: nat, n: nat)
    requires Inside(text, p, n)
    ensures CutsCharacter(text, n)
  {
  }

  lemma FirstOfRun(text: seq<byte>, limit: int)
    requires |text| >= 20 && StrayAt(text, |text| - 5) && limit == |EncodeChunk(text)| - 1
    ensures |text| <= limit && Fit(text, limit, |text|) == Some(|text| - 4)
  {
    hide Escape, EncodeChunk, StrayAt, RuneLen, Inside, BoundaryAt, Fit, Shrunk;
    var q := |text| - 5;
    SizesWithRun(text, q);
    BoundaryInRun(text, q);
    ChunkSize(text);
    ChunkSize(text[..q + 1]);
    FirstTry(text, limit);
    FitsAtOnce(text, limit, |text| - 1);
  }

  lemma FitsWhole(text: seq<byte>, limit: int)
    requires text != [] && |EncodeChunk(text)| <= limit
    ensures Pieces(text, limit) == Some([text])
  {
    hide EncodeChunk, Escape, Fit;
    ChunkSize(text);
    EscapeSize(text);
    assert text[..|text|] == text && text[|text|..] == [];
    FitsAtOnce(text, limit, |text|);
    assert [text] + [] == [text];
  }

  lemma TwoPieces(text: seq<byte>, n: nat, limit: int)
    requires 0 < n <= |text| <= limit && Fit(text, limit, |text|) == Some(n)
    requires Pieces(text[n..], limit) == Some([text[n..]])
    ensures Pieces(text, limit) == Some([text[..n], text[n..]])
  {
    hide EncodeChunk, Fit;
    assert [text[..n]] + [text[n..]] == [text[..n], text[n..]];
  }

  lemma CutOfTwo(text: seq<byte>, n: nat)
    requires n <= |text| && CutsCharacter(text, n)
    ensures !CutsNone([text[..n], text[n..]])
  {
    hide CutsCharacter;
    var pieces := [text[..n], text[n..]];
    assert pieces[1..] == [text[n..]];
    JoinedOne(text[n..]);
    assert Joined(pieces) == text;
  }

  /** The whole text is tried first, and then one byte less. */
  lemma FirstTry(text: seq<byte>, limit: int)
    requires text != [] && limit == |EncodeChunk(text)| - 1
    ensures |text| <= limit && Fit(text, limit, |text|) == Fit(text, limit, |text| - 1)
  {
    hide Fit, Escape;
    ChunkSize(text);
    EscapeSize(text);
    var d := |Escape(text)|;
    assert text[..|text|] == text;
    FitShrinks(text, limit, |text|, |text|, |EncodeChunk(text)|);
    OneLess(|text|, d);
  }

  lemma OneLess(c: nat, d: nat)
    requires 0 < c <= d
    ensures c * (d - 1) / d >= c - 1
  {
    assert c * (d - 1) == c * d - c;
    assert (c - 1) * d == c * d - d;
    DivAtLeast(c * (d - 1), d, c - 1);
  }

  /** After fifteen letters. */
  function Padded(text: seq<byte>): seq<byte> {
    seq(15, _ => 0x61) + text
  }

  lemma RunOfPadded(text: seq<byte>, n: nat, p: nat)
    requires n <= |text|
    ensures StrayAt(Padded(text[..n]), p) ==> 15 <= p && StrayAt(text, p - 15)
    ensures StrayAt(text, p) && n == p + 5 ==> StrayAt(Padded(text[..n]), p + 15)
  {
    var padded := Padded(text[..n]);
    if p + 4 < |padded| && p < 15 {
      assert padded[p..][0] == 0x61;
    } else if p + 4 < |padded| {
      assert padded[p..] == text[p - 15..][..n - (p - 15)];
      RuneOfPrefix(text[p - 15..], n - (p - 15));
      assert forall i | p < i <= p + 4 :: padded[i] == text[i - 15];
    }
    if StrayAt(text, p) && n == p + 5 {
      assert padded[p + 15..] == text[p..][..5];
      RuneOfPrefix(text[p..], 5);
      assert forall i | p + 15 < i <= p + 19 :: padded[i] == text[i - 15];
    }
  }

  /** A run is exactly what makes some start of the text, after some letters and under some limit,
      come apart inside a character. */
  lemma StrayRunIsSplit(text: seq<byte>)
    ensures StrayRun(text) <==>
            exists n: nat, limit: int :: n <= |text| && SplitsCharacter(Padded(text[..n]), limit)
  {
    hide StrayAt, Split, CutsNone;
    if p: nat :| StrayAt(text, p) {
      RunIsInside(text, p);
      RunOfPadded(text, p + 5, p);
      var padded := Padded(text[..p + 5]);
      LastRunIsCut(padded, |EncodeChunk(padded)| - 1);
    }
    if n: nat, limit: int :| n <= |text| && SplitsCharacter(Padded(text[..n]), limit) {
      SplitKeepsCharacters(Padded(text[..n]), limit);
      var p: nat :| StrayAt(Padded(text[..n]), p);
      RunOfPadded(text, n, p);
    }
  }

  lemma RunIsInside(text: seq<byte>, p: nat)
    requires StrayAt(text, p)
    ensures p + 5 <= |text|
  {
  }

  /** Such a text: fifteen letters, a character of four bytes and a stray byte, with a limit of 53. The
      first piece ends after one byte of the character. */
  lemma SplitsCharacterBeforeStrays()
    ensures var text := Padded([0xF0, 0x9F, 0x98, 0x80, 0x80]);
            && Split(text, 53) == Some([text[..16], text[16..]]) && RuneLen(text[15..]) == 4
            && SplitsCharacter(text, 53)
  {
    var run: seq<byte> := [0xF0, 0x9F, 0x98, 0x80, 0x80];
    var text := Padded(run);
    RunLikeThis();
    PaddedSize(15, run);
    ChunkSize(text);
    assert text[15..] == run && run[..5] == run;
    RunOfPadded(run, 5, 0);
    LastRunIsCut(text, 53);
  }

  lemma RunLikeThis()
    ensures var run := [0xF0, 0x9F, 0x98, 0x80, 0x80]; RuneLen(run) == 4 && StrayAt(run, 0) && |Escape(run)| == 10
  {
    var run: seq<byte> := [0xF0, 0x9F, 0x98, 0x80, 0x80];
    assert run[0..] == run && run[4..] == [0x80];
    StraysSize([0x80]);
  }

  lemma LetterSize()
    ensures |EscapeAscii(0x61)| == 1
  {
  }

  lemma {:induction false} PaddedSize(n: nat, text: seq<byte>)
    ensures |Escape(seq(n, _ => 0x61) + text)| == n + |Escape(text)|
  {
    hide EscapeAscii, UnicodeEscape;
    var padded := seq(n, _ => 0x61) + text;
    if n == 0 {
      assert padded == text;
    } else {
      assert |EscapeAscii(0x61)| == 1 by { LetterSize(); }
      assert padded[1..] == seq(n - 1, _ => 0x61) + text;
      PaddedSize(n - 1, text);
    }
  }
}
