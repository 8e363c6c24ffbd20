/** For which limits an answer can be split (nats/wire.go, `encodeResponseChunks`). */
module Limits {
  import opened Messages
  import opened Utf8
  import opened Wire
  import SnapLog

  /** Any limit from here on fits any text: an empty chunk and 24 bytes. */
  const ENOUGH: nat := OVERHEAD + 24

  // ---- every text

  /** Shrinking in proportion never goes below four bytes when 24 fit beside the overhead. */
  lemma ShrunkAtLeastFour(n: nat, limit: int, escaped: nat)
    requires limit >= ENOUGH && limit < OVERHEAD + escaped && n <= escaped <= 6 * n
    ensures n >= 5 && Shrunk(n, limit, OVERHEAD + escaped) >= 4
  {
    var room := limit - OVERHEAD;
    assert n * room >= n * 24 >= 4 * escaped by {
      MulMonotone(n, 24, room);
    }
    DivAtLeast(n * room, escaped, 4);
  }

  lemma {:induction false} FitSucceeds(text: seq<byte>, limit: int, want: nat)
    requires limit >= ENOUGH && 0 < want <= |text| && (want < |text| ==> want >= 4)
    ensures Fit(text, limit, want).Some?
    decreases want
  {
    var n := BoundaryAt(text, want);
    var size := |EncodeChunk(text[..n])|;
    ChunkSize(text[..n]);
    EscapeSize(text[..n]);
    if size > limit {
      ShrunkAtLeastFour(n, limit, |Escape(text[..n])|);
      FitSucceeds(text, limit, Shrunk(n, limit, size));
    }
  }

  lemma {:induction false} PiecesSucceed(text: seq<byte>, limit: int)
    requires limit >= ENOUGH
    ensures Pieces(text, limit).Some?
    decreases |text|
  {
    if text != [] {
      var want := SnapLog.Min(|text|, limit);
      FitSucceeds(text, limit, want);
      PiecesSucceed(text[Fit(text, limit, want).value..], limit);
    }
  }

  /** A text of continuation bytes alone, which escape sixfold and hold no boundary. */
  function Stray(n: nat): seq<byte> {
    seq(n, i requires 0 <= i < n => 0x80)
  }

  lemma {:induction false} EscapeStray(n: nat)
    ensures |Escape(Stray(n))| == 6 * n
  {
    if n > 0 {
      assert Stray(n)[1..] == Stray(n - 1);
      EscapeStray(n - 1);
    }
  }

  /** Below the bound that text is refused. */
  lemma StrayDoesNotFit(limit: int)
    requires limit < ENOUGH
    ensures Split(Stray(60), limit).None?
  {
    ChunkSize(Stray(60));
    EscapeStray(60);
    hide Fit, BoundaryAt, Escape, EncodeChunk;
    StrayNoFit(SnapLog.Min(60, limit), limit);
  }

  lemma StrayNoFit(want: int, limit: int)
    requires limit < ENOUGH && want == SnapLog.Min(60, limit)
    ensures Fit(Stray(60), limit, want).None?
  {
    hide Fit, EncodeChunk, Escape, BoundaryAt, Shrunk;
    if want <= 3 {
      StrayTail(want, limit);
    } else {
      var n := want - 3;
      StrayBoundary(want);
      ChunkSize(Stray(n));
      EscapeStray(n);
      FitShrinks(Stray(60), limit, want, n, OVERHEAD + 6 * n);
      ShrinksToThree(n, limit);
      StrayTail(Shrunk(n, limit, OVERHEAD + 6 * n), limit);
    }
  }

  lemma StrayBoundary(want: nat)
    requires 3 < want < 60
    ensures BoundaryAt(Stray(60), want) == want - 3 && Stray(60)[..want - 3] == Stray(want - 3)
  {
    var m := BackUp(Stray(60), want, 3);
    assert Continuation(Stray(60)[m]);
  }

  lemma StrayTail(want: int, limit: int)
    requires want <= 3
    ensures Fit(Stray(60), limit, want).None?
  {
    if want > 0 {
      var m := BackUp(Stray(60), want, 3);
      assert Continuation(Stray(60)[m]);
    }
  }

  lemma ShrinksToThree(n: nat, limit: int)
    requires n > 0 && limit < ENOUGH && n == limit - 3
    ensures Shrunk(n, limit, OVERHEAD + 6 * n) <= 3
  {
    if limit > OVERHEAD {
      var room := limit - OVERHEAD;
      assert n * room <= n * 23;
      assert n * room < 4 * (6 * n);
      DivBelow(n * room, 6 * n, 4);
    }
  }

  /** The exact bound: the split succeeds on every text when, and only when, an empty chunk and
      24 bytes fit. */
  lemma SplitAlwaysSucceeds(limit: int)
    ensures (forall text: seq<byte> :: Split(text, limit).Some?) <==> limit >= ENOUGH
  {
    if limit >= ENOUGH {
      forall text: seq<byte>
        ensures Split(text, limit).Some?
      {
        PiecesSucceed(text, limit);
      }
    } else {
      StrayDoesNotFit(limit);
    }
  }

  // ---- valid texts

  /** For valid texts one byte less is enough: a first character of four bytes does not escape. */
  const ENOUGH_FOR_VALID: nat := ENOUGH - 1

  /** How much less than sixfold a text grows that starts with a character of `k` bytes. */
  function Spared(k: nat): nat {
    if k == 4 then 20 else if k == 3 then 12 else if k == 2 then 10 else 0
  }

  lemma ValidSize(text: seq<byte>, n: nat)
    requires text != [] && 0 < RuneLen(text) <= n <= |text|
    ensures Spared(RuneLen(text)) <= 6 * n && |Escape(text[..n])| <= 6 * n - Spared(RuneLen(text))
  {
    RuneOfPrefix(text, n);
    EscapeSize(text[..n][RuneLen(text)..]);
  }

  lemma KeepsFirst(text: seq<byte>, want: nat)
    requires Valid(text) && text != [] && RuneLen(text) <= want <= |text|
    ensures RuneLen(text) <= BoundaryAt(text, want) <= want
  {
    if want < |text| {
      ValidStart(text[RuneLen(text)..]);
    }
  }

  lemma ShrunkKeepsFirst(n: nat, k: nat, escaped: nat)
    requires 0 < k <= 4 && k <= n <= ENOUGH_FOR_VALID && escaped > 23 && escaped + Spared(k) <= 6 * n
    ensures k <= Shrunk(n, ENOUGH_FOR_VALID, OVERHEAD + escaped) < n
  {
    assert k * escaped <= n * 23;
    DivAtLeast(n * 23, escaped, k);
  }

  lemma FitKeepsValid(text: seq<byte>, limit: int, want: int)
    requires Valid(text) && want <= |text| && Fit(text, limit, want).Some?
    ensures Valid(text[Fit(text, limit, want).value..])
  {
    hide Fit, Valid, StrayRun;
    ValidHasNoStrayRun(text);
    FitCutsNone(text, limit, want);
    ValidCut(text, Fit(text, limit, want).value);
  }

  lemma {:induction false} ValidFits(text: seq<byte>, want: nat)
    requires Valid(text) && text != [] && RuneLen(text) <= want <= |text| && want <= ENOUGH_FOR_VALID
    ensures Fit(text, ENOUGH_FOR_VALID, want).Some?
    decreases want
  {
    hide Valid, Escape, EncodeChunk, BoundaryAt, RuneLen;
    RuneOfValid(text);
    KeepsFirst(text, want);
    var n := BoundaryAt(text, want);
    var escaped := |Escape(text[..n])|;
    ChunkSize(text[..n]);
    ValidSize(text, n);
    if escaped > 23 {
      ShrunkKeepsFirst(n, RuneLen(text), escaped);
      ValidFits(text, Shrunk(n, ENOUGH_FOR_VALID, OVERHEAD + escaped));
    }
  }

  lemma RuneOfValid(text: seq<byte>)
    requires Valid(text) && text != []
    ensures 0 < RuneLen(text) <= 4 && RuneLen(text) <= |text|
  {
  }

  lemma {:induction false} ValidPieces(text: seq<byte>)
    requires Valid(text)
    ensures Pieces(text, ENOUGH_FOR_VALID).Some?
    decreases |text|
  {
    hide Valid, Fit, RuneLen;
    if text != [] {
      var want := SnapLog.Min(|text|, ENOUGH_FOR_VALID);
      RuneOfValid(text);
      ValidFits(text, want);
      FitKeepsValid(text, ENOUGH_FOR_VALID, want);
      ValidPieces(text[Fit(text, ENOUGH_FOR_VALID, want).value..]);
    }
  }

  /** A character that does not escape. */
  predicate Character(c: seq<byte>) {
    c != [] && RuneLen(c) == |c| && EscapeFirst(c) == c
  }

  function Filler(f: byte, n: nat): seq<byte> {
    seq(n, i requires 0 <= i < n => f)
  }

  lemma {:induction false} FillerSize(f: byte, n: nat)
    requires f < 0x80
    ensures |Escape(Filler(f, n))| == n * |EscapeAscii(f)| && Valid(Filler(f, n))
  {
    hide EscapeAscii;
    if n > 0 {
      assert Filler(f, n)[1..] == Filler(f, n - 1);
      FillerSize(f, n - 1);
      assert n * |EscapeAscii(f)| == (n - 1) * |EscapeAscii(f)| + |EscapeAscii(f)|;
    }
  }

  lemma LedSize(c: seq<byte>, f: byte, n: nat)
    requires Character(c) && f < 0x80
    ensures var text := c + Filler(f, n);
            && |Escape(text)| == |c| + n * |EscapeAscii(f)|
            && Valid(text) && RuneLen(text) == |c| && text[|c|..] == Filler(f, n)
  {
    hide RuneLen, EscapeFirst, Valid, EscapeAscii;
    var text := c + Filler(f, n);
    assert text[..|c|] == c && text[|c|..] == Filler(f, n);
    RuneOfPrefix(text, |c|);
    FirstOfFront(text, |c|);
    FillerSize(f, n);
    ValidStep(text);
  }

  lemma ValidStep(text: seq<byte>)
    requires text != [] && RuneLen(text) > 0 && Valid(text[RuneLen(text)..])
    ensures Valid(text)
  {
  }

  lemma LedBoundary(c: seq<byte>, f: byte, n: nat, want: int)
    requires Character(c) && f < 0x80 && want < |c| + n
    ensures BoundaryAt(c + Filler(f, n), want) == if want < |c| then 0 else want
  {
    var text := c + Filler(f, n);
    if 0 < want < |c| {
      var m := BackUp(text, want, 3);
      assert forall i | 1 <= i < |c| :: text[i] == c[i];
    } else if want >= |c| {
      assert text[want] == f;
    }
  }

  lemma LedFront(c: seq<byte>, f: byte, n: nat, m: nat)
    requires |c| <= m <= |c| + n
    ensures (c + Filler(f, n))[..m] == c + Filler(f, m - |c|)
  {
  }

  /** The first size tried shrinks to less than the character. */
  predicate ShrinksBelow(c: nat, e: nat, limit: int) {
    c <= limit && limit > OVERHEAD ==> limit * (limit - OVERHEAD) < c * (c + (limit - c) * e)
  }

  lemma LedShrinks(c: nat, e: nat, limit: nat)
    requires 0 < c <= limit && e >= 1 && ShrinksBelow(c, e, limit)
    ensures limit <= c + (limit - c) * e
    ensures Shrunk(limit, limit, OVERHEAD + c + (limit - c) * e) < c
  {
    var escaped := c + (limit - c) * e;
    assert (limit - c) * e >= limit - c by { MulMonotone(limit - c, 1, e); }
    if limit > OVERHEAD {
      DivBelow(limit * (limit - OVERHEAD), escaped, c);
    }
  }

  lemma LedNoFit(c: seq<byte>, f: byte, limit: int)
    requires Character(c) && f < 0x80 && limit < 60 && ShrinksBelow(|c|, |EscapeAscii(f)|, limit)
    ensures Fit(c + Filler(f, 60), limit, limit).None?
  {
    hide Fit, BoundaryAt, Escape, EncodeChunk, Shrunk, Filler, Character, EscapeAscii, ShrinksBelow;
    var text, e := c + Filler(f, 60), |EscapeAscii(f)|;
    FillerLength(f, 60);
    LedBoundary(c, f, 60, limit);
    if limit < |c| {
      NoneFits(text, limit, limit);
    } else {
      assert |c| > 0 && e >= 1 by { CharacterSize(c, f); }
      LedFront(c, f, 60, limit);
      LedSize(c, f, limit - |c|);
      ChunkSize(text[..limit]);
      LedShrinks(|c|, e, limit);
      var size := OVERHEAD + |c| + (limit - |c|) * e;
      FitShrinks(text, limit, limit, limit, size);
      LedBoundary(c, f, 60, Shrunk(limit, limit, size));
      NoneFits(text, limit, Shrunk(limit, limit, size));
    }
  }

  lemma FillerLength(f: byte, n: nat)
    ensures |Filler(f, n)| == n
  {
  }

  lemma CharacterSize(c: seq<byte>, f: byte)
    requires Character(c) && f < 0x80
    ensures 0 < |c| <= 4 && |EscapeAscii(f)| >= 1
  {
  }

  /** A character, then sixty bytes that escape too far: refused. */
  lemma LedRefused(c: seq<byte>, f: byte, limit: int)
    requires Character(c) && f < 0x80 && limit < 60 && ShrinksBelow(|c|, |EscapeAscii(f)|, limit)
    ensures Valid(c + Filler(f, 60)) && c + Filler(f, 60) != [] && Split(c + Filler(f, 60), limit).None?
  {
    hide Fit, Escape, EncodeChunk, Filler, Character, EscapeAscii, ShrinksBelow, Valid;
    var text := c + Filler(f, 60);
    FillerLength(f, 60);
    ChunkSize(text);
    EscapeSize(text);
    LedSize(c, f, 60);
    LedNoFit(c, f, limit);
  }

  const LETTER: seq<byte> := [0x61]
  const ACCENTED: seq<byte> := [0xC3, 0xA9]
  const GRIN: seq<byte> := [0xF0, 0x9F, 0x98, 0x80]

  /** These escape twofold and sixfold. */
  const QUOTE: byte := 0x22
  const LESS: byte := 0x3C

  lemma TheseCharacters()
    ensures Character(LETTER) && Character(ACCENTED) && Character(GRIN)
    ensures |EscapeAscii(QUOTE)| == 2 && |EscapeAscii(LESS)| == 6
  {
  }

  lemma GrinShrinks(limit: int)
    requires limit < ENOUGH_FOR_VALID
    ensures ShrinksBelow(4, 6, limit)
  {
    if OVERHEAD < limit {
      assert limit * (limit - OVERHEAD) <= limit * 22;
      if limit == ENOUGH_FOR_VALID - 1 {
        assert limit * (limit - OVERHEAD) == 1122;
      } else {
        MulMonotone(limit, limit - OVERHEAD, 21);
      }
    }
  }

  /** The exact bound for valid texts. */
  lemma ValidSplitAlwaysSucceeds(limit: int)
    ensures (forall text: seq<byte> | Valid(text) :: Split(text, limit).Some?) <==> limit >= ENOUGH_FOR_VALID
  {
    hide Valid, Pieces;
    if limit >= ENOUGH_FOR_VALID {
      forall text: seq<byte> | Valid(text)
        ensures Split(text, limit).Some?
      {
        if limit == ENOUGH_FOR_VALID {
          ValidPieces(text);
        } else {
          PiecesSucceed(text, limit);
        }
      }
    } else {
      TheseCharacters();
      GrinShrinks(limit);
      LedRefused(GRIN, LESS, limit);
    }
  }

  // ---- refused although characters fit

  predicate FirstFits(text: seq<byte>, limit: int)
    requires text != []
  {
    |EncodeChunk(text[..Advance(text)])| <= limit
  }

  /** Every character of the text fits a chunk. */
  predicate EachFits(text: seq<byte>, limit: int) {
    text == [] || (FirstFits(text, limit) && EachFits(text[Advance(text)..], limit))
  }

  predicate RefusedThoughFirstFits(text: seq<byte>, limit: int) {
    Valid(text) && text != [] && FirstFits(text, limit) && Split(text, limit).None?
  }

  predicate RefusedThoughEachFits(text: seq<byte>, limit: int) {
    Valid(text) && EachFits(text, limit) && Split(text, limit).None?
  }

  lemma FirstNeeds(text: seq<byte>, limit: int)
    requires text != [] && FirstFits(text, limit)
    ensures limit > OVERHEAD
  {
    ChunkSize(text[..Advance(text)]);
    EscapeSize(text[..Advance(text)]);
  }

  lemma LedFits(c: seq<byte>, f: byte, n: nat, limit: int)
    requires Character(c) && f < 0x80 && OVERHEAD + |c| <= limit
    ensures FirstFits(c + Filler(f, n), limit)
    ensures OVERHEAD + |EscapeAscii(f)| <= limit ==> EachFits(c + Filler(f, n), limit)
  {
    hide EncodeChunk, Escape, EscapeAscii, RuneLen, EscapeFirst;
    LedSize(c, f, n);
    LedSize(c, f, 0);
    var text := c + Filler(f, n);
    assert text[..|c|] == c && c + Filler(f, 0) == c;
    ChunkSize(c);
    if OVERHEAD + |EscapeAscii(f)| <= limit {
      FillerFits(f, n, limit);
    }
  }

  lemma {:induction false} FillerFits(f: byte, n: nat, limit: int)
    requires f < 0x80 && OVERHEAD + |EscapeAscii(f)| <= limit
    ensures EachFits(Filler(f, n), limit)
  {
    hide EncodeChunk, Escape, EscapeAscii;
    if n > 0 {
      FillerSize(f, 1);
      ChunkSize(Filler(f, 1));
      assert Filler(f, n)[..1] == Filler(f, 1) && Filler(f, n)[1..] == Filler(f, n - 1);
      FillerFits(f, n - 1, limit);
    }
  }

  /** For which limits a valid text can be refused whose first character fits a chunk. */
  lemma RefusedThoughFirstFitsExactly(limit: int)
    ensures (exists text: seq<byte> :: RefusedThoughFirstFits(text, limit)) <==>
            OVERHEAD < limit < ENOUGH_FOR_VALID
  {
    hide Valid, Split, FirstFits, Filler, Character, EscapeAscii, ShrinksBelow;
    if text: seq<byte> :| RefusedThoughFirstFits(text, limit) {
      FirstNeeds(text, limit);
      ValidSplitAlwaysSucceeds(limit);
    }
    if OVERHEAD < limit < ENOUGH_FOR_VALID {
      TheseCharacters();
      if limit < OVERHEAD + 4 {
        LetterShrinks(limit);
        LedRefused(LETTER, LESS, limit);
        LedFits(LETTER, LESS, 60, limit);
        assert RefusedThoughFirstFits(LETTER + Filler(LESS, 60), limit);
      } else {
        GrinShrinks(limit);
        LedRefused(GRIN, LESS, limit);
        LedFits(GRIN, LESS, 60, limit);
        assert RefusedThoughFirstFits(GRIN + Filler(LESS, 60), limit);
      }
    }
  }

  lemma LetterShrinks(limit: int)
    requires OVERHEAD < limit < OVERHEAD + 4
    ensures ShrinksBelow(1, 6, limit)
  {
  }

  lemma QuotesShrink(limit: int)
    requires OVERHEAD < limit < OVERHEAD + 6
    ensures limit < OVERHEAD + 4 ==> ShrinksBelow(2, 2, limit)
    ensures ShrinksBelow(4, 2, limit)
  {
  }

  /** For which limits a valid text can be refused although each of its characters fits a chunk:
      from one byte more on. */
  lemma RefusedThoughEachFitsExactly(limit: int)
    ensures (exists text: seq<byte> :: RefusedThoughEachFits(text, limit)) <==>
            OVERHEAD + 1 < limit < ENOUGH_FOR_VALID
  {
    hide Valid, Split, EachFits, FirstFits, Filler, Character, EscapeAscii, ShrinksBelow;
    if text: seq<byte> :| RefusedThoughEachFits(text, limit) {
      ValidSplitAlwaysSucceeds(limit);
      if limit <= OVERHEAD + 1 {
        EachFitsOne(text, limit);
      }
    }
    if OVERHEAD + 1 < limit < ENOUGH_FOR_VALID {
      TheseCharacters();
      if limit < OVERHEAD + 4 {
        QuotesShrink(limit);
        LedRefused(ACCENTED, QUOTE, limit);
        LedFits(ACCENTED, QUOTE, 60, limit);
        assert RefusedThoughEachFits(ACCENTED + Filler(QUOTE, 60), limit);
      } else if limit < OVERHEAD + 6 {
        QuotesShrink(limit);
        LedRefused(GRIN, QUOTE, limit);
        LedFits(GRIN, QUOTE, 60, limit);
        assert RefusedThoughEachFits(GRIN + Filler(QUOTE, 60), limit);
      } else {
        GrinShrinks(limit);
        LedRefused(GRIN, LESS, limit);
        LedFits(GRIN, LESS, 60, limit);
        assert RefusedThoughEachFits(GRIN + Filler(LESS, 60), limit);
      }
    }
  }

  // ---- with room for one byte

  predicate PlainByte(b: byte) {
    b < 0x80 && |EscapeAscii(b)| == 1
  }

  /** With room for one byte or none, a text of characters that fit is sent. */
  lemma EachFitsOne(text: seq<byte>, limit: int)
    requires EachFits(text, limit) && limit <= OVERHEAD + 1
    ensures Split(text, limit).Some?
  {
    hide EncodeChunk, PlainByte;
    if text != [] {
      FirstNeeds(text, limit);
      AllPlain(text);
      PlainPieces(text);
    }
  }

  lemma {:induction false} AllPlain(text: seq<byte>)
    requires EachFits(text, OVERHEAD + 1)
    ensures forall i | 0 <= i < |text| :: PlainByte(text[i])
  {
    hide EncodeChunk, PlainByte;
    if text != [] {
      PlainFirst(text);
      AllPlain(text[1..]);
    }
  }

  lemma PlainFirst(text: seq<byte>)
    requires text != [] && FirstFits(text, OVERHEAD + 1)
    ensures Advance(text) == 1 && PlainByte(text[0])
  {
    hide EscapeAscii, EncodeChunk;
    ChunkSize(text[..Advance(text)]);
    EscapeSize(text[..Advance(text)]);
    assert text[..1][1..] == [];
  }

  lemma {:induction false} PlainSize(text: seq<byte>)
    requires forall i | 0 <= i < |text| :: PlainByte(text[i])
    ensures |Escape(text)| == |text|
  {
    hide EscapeAscii;
    if text != [] {
      PlainSize(text[1..]);
    }
  }

  lemma PlainFit(text: seq<byte>, want: nat)
    requires 0 < want <= |text| && forall i | 0 <= i < |text| :: PlainByte(text[i])
    ensures Fit(text, OVERHEAD + 1, want) == Some(1)
  {
    hide Escape, EncodeChunk, EscapeAscii, Fit;
    PlainSize(text[..1]);
    ChunkSize(text[..1]);
    PlainSize(text[..want]);
    ChunkSize(text[..want]);
    PlainBoundary(text, 1);
    PlainBoundary(text, want);
    FitsAtOnce(text, OVERHEAD + 1, 1);
    if want > 1 {
      FitShrinks(text, OVERHEAD + 1, want, want, OVERHEAD + want);
    }
  }

  lemma PlainBoundary(text: seq<byte>, want: nat)
    requires want <= |text| && forall i | 0 <= i < |text| :: PlainByte(text[i])
    ensures BoundaryAt(text, want) == want
  {
  }

  lemma {:induction false} PlainPieces(text: seq<byte>)
    requires forall i | 0 <= i < |text| :: PlainByte(text[i])
    ensures Pieces(text, OVERHEAD + 1).Some?
    decreases |text|
  {
    hide PlainByte, Fit;
    if text != [] {
      PlainFit(text, SnapLog.Min(|text|, OVERHEAD + 1));
      PlainPieces(text[1..]);
    }
  }
}
