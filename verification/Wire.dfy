/** Splitting an answer into response chunks that each fit one message (nats/wire.go). */
module Wire {
  import opened Messages
  import opened Utf8
  import SnapLog

  /** The bytes of an ASCII text. */
  function Ascii(s: string): seq<byte>
    requires forall i | 0 <= i < |s| :: s[i] < '\U{0080}'
  {
    seq(|s|, i requires 0 <= i < |s| => s[i] as int)
  }

  const RESPONSE_PREFIX: seq<byte> := Ascii("{\"type\":\"response\",\"data\":\"")
  const CHUNK_SUFFIX: seq<byte> := Ascii("\"}")
  const OVERHEAD: nat := 29

  function EncodeChunk(text: seq<byte>): seq<byte> {
    RESPONSE_PREFIX + Escape(text) + CHUNK_SUFFIX
  }

  /** The text of a response chunk in the form EncodeChunk writes. */
  function DecodeChunk(chunk: seq<byte>): Option<seq<byte>> {
    if RESPONSE_PREFIX <= chunk && |chunk| >= OVERHEAD && chunk[|chunk| - 2..] == CHUNK_SUFFIX
    then Unescape(chunk[|RESPONSE_PREFIX|..|chunk| - 2])
    else None
  }

  lemma ChunkSize(text: seq<byte>)
    ensures |EncodeChunk(text)| == OVERHEAD + |Escape(text)|
    ensures |EncodeChunk([])| == OVERHEAD
  {
    assert Escape([]) == [];
  }

  lemma DecodeOfEncode(text: seq<byte>)
    ensures DecodeChunk(EncodeChunk(text)) == Some(Sanitized(text))
    ensures Valid(text) ==> DecodeChunk(EncodeChunk(text)) == Some(text)
  {
    var chunk := EncodeChunk(text);
    assert chunk[|RESPONSE_PREFIX|..|chunk| - 2] == Escape(text);
    UnescapeOfEscape(text);
    SanitizedSame(text);
  }

  // ---- where a piece ends

  /** `n` moved back to a byte that can start a character, by at most `back` bytes. */
  function BackUp(text: seq<byte>, n: nat, back: nat): (m: nat)
    requires n < |text|
    ensures m <= n && n - m <= back
    ensures m == 0 || RuneStart(text[m]) || n - m == back
    ensures forall i | m < i <= n :: Continuation(text[i])
  {
    if back > 0 && n > 0 && !RuneStart(text[n]) then BackUp(text, n - 1, back - 1) else n
  }

  function BoundaryAt(text: seq<byte>, n: int): nat {
    if n <= 0 || n >= |text| then SnapLog.Max(n, 0) else BackUp(text, n, 3)
  }

  method RuneBoundary(text: seq<byte>, want: int) returns (n: nat)
    ensures n == BoundaryAt(text, want)
  {
    if want <= 0 || want >= |text| {
      return SnapLog.Max(want, 0);
    }
    n := want;
    var back := 0;
    while back < 3 && n > 0 && !RuneStart(text[n])
      invariant 0 <= n < |text| && back <= 3
      invariant BackUp(text, n, 3 - back) == BackUp(text, want, 3)
    {
      n := n - 1;
      back := back + 1;
    }
  }

  /** The next size to try when the first `n` bytes make a chunk of `size` bytes. */
  function Shrunk(n: nat, limit: int, size: nat): int
    requires n > 0 && size > OVERHEAD
  {
    SnapLog.Min(if limit > OVERHEAD then n * (limit - OVERHEAD) / (size - OVERHEAD) else 0, n - 1)
  }

  /** How much of `text` the next chunk takes, trying `want` bytes first; None when nothing fits. */
  function Fit(text: seq<byte>, limit: int, want: int): (r: Option<nat>)
    requires want <= |text|
    ensures r.Some? ==> 0 < r.value <= |text| && |EncodeChunk(text[..r.value])| <= limit
    decreases want
  {
    var n := BoundaryAt(text, want);
    if n == 0 then None
    else
      var size := |EncodeChunk(text[..n])|;
      if size <= limit then Some(n)
      else
        ChunkSize(text[..n]);
        EscapeSize(text[..n]);
        Fit(text, limit, Shrunk(n, limit, size))
  }

  // ---- the tries of Fit, one by one

  lemma FitsAtOnce(text: seq<byte>, limit: int, want: int)
    requires want <= |text| && BoundaryAt(text, want) > 0
    requires BoundaryAt(text, want) <= |text| && |EncodeChunk(text[..BoundaryAt(text, want)])| <= limit
    ensures Fit(text, limit, want) == Some(BoundaryAt(text, want))
  {
  }

  lemma NoneFits(text: seq<byte>, limit: int, want: int)
    requires want <= |text| && BoundaryAt(text, want) == 0
    ensures Fit(text, limit, want).None?
  {
  }

  /** A piece too big is tried again, shrunk. */
  lemma FitShrinks(text: seq<byte>, limit: int, want: int, n: nat, size: nat)
    requires want <= |text| && n == BoundaryAt(text, want) && n > 0
    requires size == |EncodeChunk(text[..n])| && size > limit
    ensures OVERHEAD < size && Fit(text, limit, want) == Fit(text, limit, Shrunk(n, limit, size))
  {
    ChunkSize(text[..n]);
    EscapeSize(text[..n]);
  }

  lemma ShrunkIsLess(n: nat, limit: int, size: nat)
    requires n > 0 && size > OVERHEAD
    ensures Shrunk(n, limit, size) < n
  {
  }

  lemma MulMonotone(n: nat, a: int, b: int)
    requires a <= b
    ensures n * a <= n * b
  {
  }

  lemma DivAtLeast(x: nat, d: nat, q: nat)
    requires d > 0 && x >= q * d
    ensures x / d >= q
  {
    if x / d < q {
      MulMonotone(d, x / d + 1, q);
    }
  }

  lemma DivBelow(x: nat, d: nat, q: nat)
    requires d > 0 && x < q * d
    ensures x / d < q
  {
    if x / d >= q {
      MulMonotone(d, q, x / d);
    }
  }

  /** The pieces of `text`, each as large as Fit makes it; None when one does not fit. */
  function Pieces(text: seq<byte>, limit: int): Option<seq<seq<byte>>> {
    if text == [] then Some([])
    else
      match Fit(text, limit, SnapLog.Min(|text|, limit))
      case None => None
      case Some(n) =>
        match Pieces(text[n..], limit)
        case None => None
        case Some(rest) => Some([text[..n]] + rest)
  }

  /** The pieces the response is sent in: the whole text when it fits one chunk. */
  function Split(text: seq<byte>, limit: int): Option<seq<seq<byte>>> {
    if |EncodeChunk(text)| <= limit then Some([text]) else Pieces(text, limit)
  }

  function Encoded(pieces: seq<seq<byte>>): seq<seq<byte>> {
    if pieces == [] then []
    else Encoded(pieces[..|pieces| - 1]) + [EncodeChunk(pieces[|pieces| - 1])]
  }

  method EncodeResponseChunks(text: seq<byte>, limit: int) returns (chunks: seq<seq<byte>>, ok: bool)
    ensures ok == Split(text, limit).Some?
    ensures chunks == if ok then Encoded(Split(text, limit).value) else []
  {
    var b := EncodeChunk(text);
    if |b| <= limit {
      assert [text][..0] == [];
      assert Encoded([text]) == [b];
      return [b], true;
    }
    ChunkSize([]);
    chunks := [];
    ghost var pieces: seq<seq<byte>> := [];
    var rest := text;
    assert Pieces(text, limit).Some? ==> [] + Pieces(text, limit).value == Pieces(text, limit).value;
    while rest != []
      invariant Pieces(text, limit) == After(pieces, Pieces(rest, limit))
      invariant chunks == Encoded(pieces)
      decreases |rest|
    {
      var n, chunk := NextChunk(rest, limit);
      if n == 0 {
        return [], false;
      }
      AfterStep(pieces, rest[..n], Pieces(rest[n..], limit));
      chunks := chunks + [chunk];
      pieces := pieces + [rest[..n]];
      assert pieces[..|pieces| - 1] + [rest[..n]] == pieces;
      rest := rest[n..];
    }
    ok := true;
    assert pieces + [] == pieces;
  }

  /** The inner loop: the next chunk, and how much text it takes; 0 when nothing fits. */
  method NextChunk(text: seq<byte>, limit: int) returns (n: nat, chunk: seq<byte>)
    requires text != []
    ensures var fit := Fit(text, limit, SnapLog.Min(|text|, limit));
            if n == 0 then fit == None else fit == Some(n) && chunk == EncodeChunk(text[..n])
  {
    // A chunk is longer than its text, so longer pieces need not be tried.
    hide EncodeChunk, Escape;
    var want := SnapLog.Min(|text|, limit);
    ghost var fit := Fit(text, limit, want);
    while true
      invariant want <= |text| && Fit(text, limit, want) == fit
      decreases want
    {
      n := RuneBoundary(text, want);
      if n == 0 {
        return 0, [];
      }
      chunk := EncodeChunk(text[..n]);
      if |chunk| <= limit {
        return;
      }
      ChunkSize(text[..n]);
      EscapeSize(text[..n]);
      var next := 0;
      if limit > OVERHEAD {
        next := n * (limit - OVERHEAD) / (|chunk| - OVERHEAD);
      }
      want := SnapLog.Min(next, n - 1);
    }
  }

  function After(pieces: seq<seq<byte>>, rest: Option<seq<seq<byte>>>): Option<seq<seq<byte>>> {
    match rest
    case None => None
    case Some(more) => Some(pieces + more)
  }

  lemma AfterStep(pieces: seq<seq<byte>>, piece: seq<byte>, rest: Option<seq<seq<byte>>>)
    ensures After(pieces, After([piece], rest)) == After(pieces + [piece], rest)
  {
    if rest.Some? {
      assert pieces + ([piece] + rest.value) == pieces + [piece] + rest.value;
    }
  }

  // ---- what the split keeps

  function Joined(pieces: seq<seq<byte>>): seq<byte> {
    if pieces == [] then [] else pieces[0] + Joined(pieces[1..])
  }

  lemma JoinedOne(piece: seq<byte>)
    ensures Joined([piece]) == piece
  {
    assert [piece][1..] == [];
  }

  lemma {:induction false} PiecesJoin(text: seq<byte>, limit: int)
    requires Pieces(text, limit).Some?
    ensures var pieces := Pieces(text, limit).value;
            && Joined(pieces) == text
            && forall i | 0 <= i < |pieces| :: pieces[i] != [] && |EncodeChunk(pieces[i])| <= limit
    decreases |text|
  {
    hide EncodeChunk, Fit;
    if text != [] {
      var n := Fit(text, limit, SnapLog.Min(|text|, limit)).value;
      PiecesJoin(text[n..], limit);
      assert text == text[..n] + text[n..];
      var pieces := Pieces(text, limit).value;
      assert pieces[1..] == Pieces(text[n..], limit).value;
    }
  }

  /** The split is invisible: the pieces join to the text, and every chunk fits the limit. Only
      an empty answer under a limit no chunk fits has no piece at all. */
  lemma SplitJoins(text: seq<byte>, limit: int)
    requires Split(text, limit).Some?
    ensures var pieces := Split(text, limit).value;
            && Joined(pieces) == text
            && (forall i | 0 <= i < |pieces| :: |EncodeChunk(pieces[i])| <= limit)
            && (pieces == [] <==> text == [] && limit < OVERHEAD)
  {
    ChunkSize(text);
    if |EncodeChunk(text)| <= limit {
      assert [text][1..] == [];
    } else {
      PiecesJoin(text, limit);
    }
  }

  // ---- when a piece can end inside a character

  /** A character of more than one byte starts at `p`, and the four bytes after its first, some of
      them strays past its end, continue a character. */
  predicate StrayAt(text: seq<byte>, p: nat) {
    && p + 4 < |text| && RuneLen(text[p..]) >= 2
    && forall i | p < i <= p + 4 :: Continuation(text[i])
  }

  ghost predicate StrayRun(text: seq<byte>) {
    exists p: nat :: StrayAt(text, p)
  }

  lemma InsideContinues(text: seq<byte>, p: nat, n: nat)
    requires Inside(text, p, n)
    ensures RuneLen(text[p..]) >= 2 && forall i | p < i <= n :: Continuation(text[i])
  {
    forall i | p < i <= n
      ensures Continuation(text[i])
    {
      assert text[p..][i - p] == text[i];
    }
  }

  lemma CutBoundary(text: seq<byte>, want: nat)
    requires want < |text| && CutsCharacter(text, BoundaryAt(text, want))
    ensures StrayRun(text)
  {
    hide RuneLen;
    var m := BoundaryAt(text, want);
    var p: nat :| Inside(text, p, m);
    InsideContinues(text, p, m);
    assert Continuation(text[m]);
    assert StrayAt(text, p);
  }

  /** A boundary falls inside a character exactly in a text with such a run: the search for the
      character's start stops three bytes back. */
  lemma BoundaryCutsExactly(text: seq<byte>)
    ensures (exists want: nat :: want < |text| && CutsCharacter(text, BoundaryAt(text, want))) <==> StrayRun(text)
  {
    if want: nat :| want < |text| && CutsCharacter(text, BoundaryAt(text, want)) {
      CutBoundary(text, want);
    }
    if p: nat :| StrayAt(text, p) {
      BoundaryInRun(text, p);
      assert Inside(text, p, BoundaryAt(text, p + 4));
    }
  }

  lemma BoundaryInRun(text: seq<byte>, p: nat)
    requires StrayAt(text, p)
    ensures BoundaryAt(text, p + 4) == p + 1
  {
    assert forall i | p < i <= p + 4 :: !RuneStart(text[i]);
    var m := BackUp(text, p + 4, 3);
    assert p < m <= p + 4;
  }

  lemma {:induction false} ValidHasNoStrayRun(text: seq<byte>)
    requires Valid(text)
    ensures !StrayRun(text)
  {
    forall p: nat
      ensures !StrayAt(text, p)
    {
      if p + 4 < |text| && RuneLen(text[p..]) >= 2 {
        var k := RuneLen(text[p..]);
        assert text[p..][0] == text[p];
        CutValid(text, p);
        ValidStart(text[p..][k..]);
        assert text[p..][k..][0] == text[p + k];
      }
    }
  }

  lemma StrayRunOfRest(text: seq<byte>, n: nat)
    requires n <= |text| && StrayRun(text[n..])
    ensures StrayRun(text)
  {
    hide RuneLen;
    var p: nat :| StrayAt(text[n..], p);
    assert text[n..][p..] == text[n + p..];
    assert forall i | n + p < i <= n + p + 4 :: text[i] == text[n..][i - n];
    assert StrayAt(text, n + p);
  }

  lemma {:induction false} FitCutsNone(text: seq<byte>, limit: int, want: int)
    requires !StrayRun(text) && want <= |text| && Fit(text, limit, want).Some?
    ensures !CutsCharacter(text, Fit(text, limit, want).value)
    decreases want
  {
    hide StrayRun, EncodeChunk, Escape, BoundaryAt, CutsCharacter, Fit, Shrunk;
    var n := BoundaryAt(text, want);
    if n == 0 {
      NoneFits(text, limit, want);
    }
    BoundaryOfWhole(text, want);
    var size := |EncodeChunk(text[..n])|;
    if size <= limit {
      FitsAtOnce(text, limit, want);
      if want < |text| && CutsCharacter(text, n) {
        CutBoundary(text, want);
      }
      NoCutAtEnd(text);
    } else {
      FitShrinks(text, limit, want, n, size);
      ShrunkIsLess(n, limit, size);
      FitCutsNone(text, limit, Shrunk(n, limit, size));
    }
  }

  lemma BoundaryOfWhole(text: seq<byte>, want: int)
    requires want <= |text| && BoundaryAt(text, want) > 0
    ensures BoundaryAt(text, want) <= want && (want == |text| ==> BoundaryAt(text, want) == |text|)
  {
  }

  lemma NoCutAtEnd(text: seq<byte>)
    ensures !CutsCharacter(text, |text|)
  {
  }

  /** No piece ends inside a character of what was still to be sent. */
  ghost predicate CutsNone(pieces: seq<seq<byte>>) {
    pieces == [] || (!CutsCharacter(Joined(pieces), |pieces[0]|) && CutsNone(pieces[1..]))
  }

  lemma {:induction false} PiecesCutNone(text: seq<byte>, limit: int)
    requires !StrayRun(text) && Pieces(text, limit).Some?
    ensures CutsNone(Pieces(text, limit).value)
    decreases |text|
  {
    hide StrayRun, Fit, CutsCharacter, EncodeChunk;
    if text != [] {
      var want := SnapLog.Min(|text|, limit);
      var n := Fit(text, limit, want).value;
      FitCutsNone(text, limit, want);
      if StrayRun(text[n..]) {
        StrayRunOfRest(text, n);
      }
      PiecesCutNone(text[n..], limit);
      PiecesJoin(text, limit);
      assert Pieces(text, limit).value[1..] == Pieces(text[n..], limit).value;
    }
  }

  lemma {:induction false} PiecesKeepValid(pieces: seq<seq<byte>>)
    requires CutsNone(pieces) && Valid(Joined(pieces))
    ensures forall i | 0 <= i < |pieces| :: Valid(pieces[i])
  {
    hide Valid, CutsCharacter;
    if pieces != [] {
      var text := Joined(pieces);
      ValidCut(text, |pieces[0]|);
      assert text[..|pieces[0]|] == pieces[0] && text[|pieces[0]|..] == Joined(pieces[1..]);
      PiecesKeepValid(pieces[1..]);
    }
  }

  /** No character is split between two chunks, of a text without such a run, as a valid one is. */
  lemma SplitKeepsCharacters(text: seq<byte>, limit: int)
    requires Split(text, limit).Some?
    ensures !StrayRun(text) ==> CutsNone(Split(text, limit).value)
    ensures Valid(text) ==> !StrayRun(text)
    ensures Valid(text) ==> forall i | 0 <= i < |Split(text, limit).value| :: Valid(Split(text, limit).value[i])
  {
    hide Pieces, StrayRun, Valid;
    if Valid(text) {
      ValidHasNoStrayRun(text);
    }
    if |EncodeChunk(text)| <= limit {
      JoinedOne(text);
      NoCutAtEnd(text);
      assert [text][1..] == [];
    } else if !StrayRun(text) {
      PiecesCutNone(text, limit);
    }
    if Valid(text) {
      SplitJoins(text, limit);
      PiecesKeepValid(Split(text, limit).value);
    }
  }

  /** What a client joins from the chunks it decodes; None when one is not a response chunk. */
  function Received(chunks: seq<seq<byte>>): Option<seq<byte>> {
    if chunks == [] then Some([])
    else
      match DecodeChunk(chunks[0])
      case None => None
      case Some(text) => Prepend(text, Received(chunks[1..]))
  }

  lemma {:induction false} ReceivedAppend(chunks: seq<seq<byte>>, last: seq<byte>)
    requires Received(chunks).Some? && DecodeChunk(last).Some?
    ensures Received(chunks + [last]) == Some(Received(chunks).value + DecodeChunk(last).value)
  {
    if chunks == [] {
      assert chunks + [last] == [last];
      assert [last][1..] == [];
      var text := DecodeChunk(last).value;
      assert text + [] == [] + text;
    } else {
      assert (chunks + [last])[1..] == chunks[1..] + [last];
      ReceivedAppend(chunks[1..], last);
      var first := DecodeChunk(chunks[0]).value;
      assert first + (Received(chunks[1..]).value + DecodeChunk(last).value)
          == first + Received(chunks[1..]).value + DecodeChunk(last).value;
    }
  }

  /** What a client makes of the pieces: each is cleaned of invalid bytes by itself. */
  function Cleaned(pieces: seq<seq<byte>>): seq<byte> {
    if pieces == [] then [] else Sanitized(pieces[0]) + Cleaned(pieces[1..])
  }

  lemma {:induction false} CleanedAppend(pieces: seq<seq<byte>>, last: seq<byte>)
    ensures Cleaned(pieces + [last]) == Cleaned(pieces) + Sanitized(last)
  {
    hide Sanitized;
    if pieces == [] {
      assert pieces + [last] == [last];
      assert [last][1..] == [];
    } else {
      assert (pieces + [last])[1..] == pieces[1..] + [last];
      CleanedAppend(pieces[1..], last);
    }
  }

  lemma {:induction false} ReceivedOfEncoded(pieces: seq<seq<byte>>)
    ensures Received(Encoded(pieces)) == Some(Cleaned(pieces))
  {
    hide EncodeChunk, DecodeChunk, Valid, Sanitized;
    if pieces != [] {
      var front, last := pieces[..|pieces| - 1], pieces[|pieces| - 1];
      ReceivedOfEncoded(front);
      DecodeOfEncode(last);
      ReceivedAppend(Encoded(front), EncodeChunk(last));
      CleanedAppend(front, last);
      assert pieces == front + [last];
    }
  }

  lemma {:induction false} CleanedCut(pieces: seq<seq<byte>>)
    ensures CutsNone(pieces) ==> Cleaned(pieces) == Sanitized(Joined(pieces))
    ensures !CutsNone(pieces) ==> |Cleaned(pieces)| > |Sanitized(Joined(pieces))|
  {
    hide CutsCharacter, Sanitized;
    if pieces == [] {
      SanitizedOfNone();
    } else {
      var text := Joined(pieces);
      assert text[..|pieces[0]|] == pieces[0] && text[|pieces[0]|..] == Joined(pieces[1..]);
      SanitizedCut(text, |pieces[0]|);
      CleanedCut(pieces[1..]);
    }
  }

  /** The split is invisible exactly when no piece ends inside a character, as in a text without
      stray runs: the client reads what it would read of one chunk, and the text itself exactly
      when that is valid. */
  lemma SplitRoundTrip(text: seq<byte>, limit: int)
    requires Split(text, limit).Some?
    ensures var got := Received(Encoded(Split(text, limit).value));
            && (got == Some(Sanitized(text)) <==> CutsNone(Split(text, limit).value))
            && (!StrayRun(text) ==> got == Some(Sanitized(text)))
            && (got == Some(text) <==> Valid(text))
  {
    hide Split, Valid, Sanitized, StrayRun, CutsNone;
    var pieces := Split(text, limit).value;
    SplitKeepsCharacters(text, limit);
    SplitJoins(text, limit);
    ReceivedOfEncoded(pieces);
    CleanedCut(pieces);
    SanitizedSame(text);
  }
}
