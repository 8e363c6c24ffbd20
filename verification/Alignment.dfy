/** Where a compacted conversation ends in the log (agent/agent.go, `snapshotCursor` and
    `alignedWithLog`), and what a run that starts after that point loads. */
module Alignment {
  import opened Messages
  import opened SnapLog
  import Compact

  /** The log's message `l` can be the session's message `m`: the texts must agree too, except of
      tool results. */
  predicate Matches(l: Message, m: Message) {
    && l.role == m.role && l.callID == m.callID && Compact.SameToolCalls(l, m)
    && (m.role != Tool ==> TextContent(l.parts) == TextContent(m.parts))
  }

  predicate Aligned(logged: seq<Message>, msgs: seq<Message>) {
    |logged| == |msgs| && forall i | 0 <= i < |msgs| :: Matches(logged[i], msgs[i])
  }

  /** What lining up means to a reader: the same speakers, making and answering the same calls, and the
      same words but for the results of tools. */
  lemma AlignedExactly(logged: seq<Message>, msgs: seq<Message>)
    requires |logged| == |msgs|
    ensures Aligned(logged, msgs) <==>
            forall i | 0 <= i < |msgs| ::
              var l, m := logged[i], msgs[i];
              && l.role == m.role && l.callID == m.callID
              && |l.calls| == |m.calls| && (forall j | 0 <= j < |m.calls| :: l.calls[j].id == m.calls[j].id)
              && (m.role != Tool ==> FromFirst(Texts(l.parts)) == FromFirst(Texts(m.parts)))
  {
    hide TextContent, FromFirst, Texts;
    forall i | 0 <= i < |msgs|
      ensures TextContent(logged[i].parts) == FromFirst(Texts(logged[i].parts))
      ensures TextContent(msgs[i].parts) == FromFirst(Texts(msgs[i].parts))
    {
      TextContentReads(logged[i].parts);
      TextContentReads(msgs[i].parts);
    }
    forall i | 0 <= i < |msgs|
      ensures Matches(logged[i], msgs[i]) <==>
              && logged[i].role == msgs[i].role && logged[i].callID == msgs[i].callID
              && |logged[i].calls| == |msgs[i].calls|
              && (forall j | 0 <= j < |msgs[i].calls| :: logged[i].calls[j].id == msgs[i].calls[j].id)
              && (msgs[i].role != Tool ==> FromFirst(Texts(logged[i].parts)) == FromFirst(Texts(msgs[i].parts)))
    {
    }
  }

  /** The messages of the log a session can hold, with their cursors. */
  function Filled(logged: seq<LoggedMessage>): seq<LoggedMessage> {
    if logged == [] then []
    else if EmptyAnswer(logged[0].message) then Filled(logged[1..])
    else [logged[0]] + Filled(logged[1..])
  }

  predicate AlignedAt(logged: seq<Message>, tail: seq<Message>, k: nat)
    requires k + |tail| <= |logged|
  {
    Aligned(logged[k..k + |tail|], tail)
  }

  /** The last place, at or before `start`, where `tail` lines up with the log. */
  function LastAligned(logged: seq<Message>, tail: seq<Message>, start: int): (r: Option<nat>)
    requires start + |tail| <= |logged|
    ensures r.Some? ==> r.value <= start && AlignedAt(logged, tail, r.value)
    ensures forall k | (if r.Some? then r.value + 1 else 0) <= k <= start :: !AlignedAt(logged, tail, k)
    decreases start + 1
  {
    if start < 0 then None
    else if AlignedAt(logged, tail, start) then Some(start)
    else LastAligned(logged, tail, start - 1)
  }

  datatype CursorResult = Found(cursor: Cursor) | CoversNothing | NoMatch

  /** The search goes for the last window of the log that lines up with `tail`; the cursor is that
      of the window's message where `older` ends. */
  function CursorOf(logged: seq<LoggedMessage>, older: seq<Message>, tail: seq<Message>): CursorResult
    requires |older| <= |tail|
  {
    var filled := Filled(logged);
    if older == [] then CoversNothing
    else if |filled| < |tail| then NoMatch
    else
      match LastAligned(Unlogged(filled), tail, |filled| - |tail|)
      case None => NoMatch
      case Some(start) => Found(filled[start + |older| - 1].cursor)
  }

  method FillIn(logged: seq<LoggedMessage>) returns (filled: seq<LoggedMessage>)
    ensures filled == Filled(logged)
  {
    filled := [];
    for i := 0 to |logged|
      invariant filled + Filled(logged[i..]) == Filled(logged)
    {
      assert logged[i..][1..] == logged[i + 1..];
      if !EmptyAnswer(logged[i].message) {
        filled := filled + [logged[i]];
      }
    }
    assert filled == filled + Filled(logged[|logged|..]);
  }

  method FindCursor(logged: seq<LoggedMessage>, older: seq<Message>, tail: seq<Message>) returns (r: CursorResult)
    requires |older| <= |tail|
    ensures r == CursorOf(logged, older, tail)
  {
    hide Filled, Aligned;
    var filled := FillIn(logged);
    if older == [] {
      return CoversNothing;
    }
    ghost var msgs := Unlogged(filled);
    var start := |filled| - |tail|;
    ghost var target := LastAligned(msgs, tail, start);
    while start >= 0
      invariant start + |tail| <= |filled| && LastAligned(msgs, tail, start) == target
    {
      var ok := AlignedWithLog(filled[start..start + |tail|], tail);
      assert Unlogged(filled[start..start + |tail|]) == msgs[start..start + |tail|];
      if ok {
        return Found(filled[start + |older| - 1].cursor);
      }
      start := start - 1;
    }
    return NoMatch;
  }

  method AlignedWithLog(logged: seq<LoggedMessage>, msgs: seq<Message>) returns (ok: bool)
    requires |logged| == |msgs|
    ensures ok == Aligned(Unlogged(logged), msgs)
  {
    for i := 0 to |msgs|
      invariant forall k | 0 <= k < i :: Matches(logged[k].message, msgs[k])
    {
      var l, m := logged[i].message, msgs[i];
      if l.role != m.role || l.callID != m.callID || !Compact.SameToolCalls(l, m) {
        assert !Matches(Unlogged(logged)[i], msgs[i]);
        return false;
      }
      if m.role != Tool && TextContent(l.parts) != TextContent(m.parts) {
        assert !Matches(Unlogged(logged)[i], msgs[i]);
        return false;
      }
    }
    return true;
  }

  // ---- alignment is an equivalence that keeps rounds whole

  lemma AlignedTransitive(a: seq<Message>, b: seq<Message>, c: seq<Message>)
    requires Aligned(a, b) && Aligned(b, c)
    ensures Aligned(a, c)
  {
    forall i | 0 <= i < |a|
      ensures Matches(a[i], c[i])
    {
      assert Matches(a[i], b[i]) && Matches(b[i], c[i]);
    }
  }

  lemma AlignedSymmetric(a: seq<Message>, b: seq<Message>)
    requires Aligned(a, b)
    ensures Aligned(b, a)
  {
    forall i | 0 <= i < |a|
      ensures Matches(b[i], a[i])
    {
      assert Matches(a[i], b[i]);
    }
  }

  lemma AlignedKeepsClosed(a: seq<Message>, b: seq<Message>)
    requires Aligned(a, b) && Closed(a)
    ensures Closed(b)
  {
    forall i | 0 <= i < |a|
      ensures Compact.LinesUp(b[i], a[i])
    {
      assert Matches(a[i], b[i]);
    }
    Compact.ClosedLinedUp(a, b);
  }

  // ---- what a run loads

  /** What a run loads from the log `full` when a snapshot stands for its first `n` messages. */
  function Loads(full: seq<Message>, n: nat): seq<Message>
    requires n <= |full|
  {
    Replayable(DropTools(full[n..]))
  }

  lemma LoadsAppend(full: seq<Message>, n: nat, turn: seq<Message>)
    requires n <= |full|
    requires turn != [] ==> turn[0].role != Tool
    ensures Loads(full + turn, n) == Loads(full, n) + Replayable(turn)
  {
    assert (full + turn)[n..] == full[n..] + turn;
    DropToolsAppend(full[n..], turn);
    ReplayableConcat(DropTools(full[n..]), turn);
  }

  lemma {:induction false} FilledIsReplayable(logged: seq<LoggedMessage>)
    ensures Unlogged(Filled(logged)) == Replayable(Unlogged(logged))
  {
    if logged != [] {
      FilledIsReplayable(logged[1..]);
      assert Unlogged(logged)[1..] == Unlogged(logged[1..]);
      if !EmptyAnswer(logged[0].message) {
        assert Unlogged(Filled(logged)) == [logged[0].message] + Unlogged(Filled(logged[1..]));
      }
    }
  }

  /** Where the i-th filled message stands in the log. */
  lemma {:induction false} FilledPlace(logged: seq<LoggedMessage>, i: nat) returns (j: nat)
    requires i < |Filled(logged)|
    ensures j < |logged| && logged[j] == Filled(logged)[i]
    ensures Replayable(Unlogged(logged[j + 1..])) == Unlogged(Filled(logged))[i + 1..]
  {
    if EmptyAnswer(logged[0].message) {
      var k := FilledPlace(logged[1..], i);
      j := k + 1;
      assert logged[1..][k + 1..] == logged[j + 1..];
    } else if i == 0 {
      j := 0;
      FilledIsReplayable(logged[1..]);
      assert Unlogged(Filled(logged))[1..] == Unlogged(Filled(logged[1..]));
    } else {
      var k := FilledPlace(logged[1..], i - 1);
      j := k + 1;
      assert logged[1..][k + 1..] == logged[j + 1..];
      assert Unlogged(Filled(logged))[i + 1..] == Unlogged(Filled(logged[1..]))[i..];
    }
  }

  /** The log a store shows after its snapshot is what a run loads. */
  lemma FilledTailIsLoads(full: seq<Message>, stored: Option<Snapshot>)
    requires Covered(stored) <= |full|
    ensures Unlogged(Filled(TailOf(full, 0, stored))) == Loads(full, Covered(stored))
  {
    TailMessages(full, stored);
    FilledIsReplayable(TailOf(full, 0, stored));
  }

  /** Cutting after the i-th loaded message leaves the rest to load, unless the rest starts
      with a tool result. */
  lemma CutAfter(full: seq<Message>, stored: Option<Snapshot>, i: nat) returns (pos: nat)
    requires Covered(stored) <= |full|
    requires i < |Loads(full, Covered(stored))|
    requires i + 1 < |Loads(full, Covered(stored))| ==> Loads(full, Covered(stored))[i + 1].role != Tool
    ensures |Filled(TailOf(full, 0, stored))| == |Loads(full, Covered(stored))|
    ensures Position(Filled(TailOf(full, 0, stored))[i].cursor) == Some(pos)
    ensures Covered(stored) <= pos < |full|
    ensures Loads(full, pos + 1) == Loads(full, Covered(stored))[i + 1..]
  {
    var tail := TailOf(full, 0, stored);
    FilledTailIsLoads(full, stored);
    var j := FilledPlace(tail, i);
    pos := TailPlace(full, stored, j);
    var rest := full[pos + 1..];
    assert Replayable(rest) == Loads(full, Covered(stored))[i + 1..];
    assert rest != [] && !EmptyAnswer(rest[0]) ==> Replayable(rest)[0] == rest[0];
    assert DropTools(rest) == rest;
  }

  lemma TailWithinLog(full: seq<Message>, stored: Option<Snapshot>)
    requires Covered(stored) <= |full|
    ensures |TailOf(full, 0, stored)| <= |full| - Covered(stored)
  {
  }

  lemma TailPlace(full: seq<Message>, stored: Option<Snapshot>, j: nat) returns (pos: nat)
    requires Covered(stored) <= |full|
    requires j < |TailOf(full, 0, stored)|
    ensures Position(TailOf(full, 0, stored)[j].cursor) == Some(pos)
    ensures Covered(stored) <= pos < |full|
    ensures Unlogged(TailOf(full, 0, stored)[j + 1..]) == full[pos + 1..]
  {
    hide TailOf, DropTools, Position;
    var tail := TailOf(full, 0, stored);
    TailCursors(full, stored);
    TailEndsLog(full, stored);
    TailWithinLog(full, stored);
    pos := |full| - |tail| + j;
    assert Unlogged(tail[j + 1..]) == Unlogged(tail)[j + 1..];
    assert full[|full| - |tail|..][j + 1..] == full[pos + 1..];
  }

  lemma {:induction false} LoadsSuffix(full: seq<Message>, m: nat, n: nat)
    requires m <= n <= |full|
    ensures |Replayable(full[n..])| <= |Replayable(full[m..])|
    ensures Replayable(full[n..]) == Replayable(full[m..])[|Replayable(full[m..])| - |Replayable(full[n..])|..]
    decreases n - m
  {
    if m < n {
      LoadsSuffix(full, m + 1, n);
      assert full[m..][1..] == full[m + 1..];
    }
  }

  /** What is loaded past a later cutoff ends what is loaded past an earlier one. */
  lemma LaterLoadsEndEarlier(full: seq<Message>, m: nat, n: nat)
    requires m <= n <= |full|
    ensures |Loads(full, n)| <= |Loads(full, m)|
    ensures Loads(full, n) == Loads(full, m)[|Loads(full, m)| - |Loads(full, n)|..]
  {
    var a := DropsTo(full, m);
    var b := DropsTo(full, n);
    assert a <= b;
    LoadsSuffix(full, a, b);
  }

  lemma {:induction false} DropsTo(full: seq<Message>, n: nat) returns (k: nat)
    requires n <= |full|
    ensures n <= k <= |full| && DropTools(full[n..]) == full[k..]
    ensures forall i | n <= i < k :: full[i].role == Tool
    ensures k < |full| ==> full[k].role != Tool
    decreases |full| - n
  {
    if n < |full| && full[n].role == Tool {
      k := DropsTo(full, n + 1);
      assert full[n..][1..] == full[n + 1..];
    } else {
      k := n;
    }
  }

  /** A tail that lines up with the end of the loaded messages is found there. */
  lemma FoundAtEnd(logged: seq<LoggedMessage>, tail: seq<Message>, older: nat)
    requires 0 < older <= |tail| <= |Filled(logged)|
    requires Aligned(Unlogged(Filled(logged))[|Filled(logged)| - |tail|..], tail)
    ensures CursorOf(logged, tail[..older], tail) ==
            Found(Filled(logged)[|Filled(logged)| - |tail| + older - 1].cursor)
  {
    var msgs := Unlogged(Filled(logged));
    var start := |msgs| - |tail|;
    assert msgs[start..start + |tail|] == msgs[start..];
  }

  lemma AlignedSuffix(a: seq<Message>, b: seq<Message>, k: nat)
    requires Aligned(a, b) && k <= |a|
    ensures Aligned(a[k..], b[k..])
  {
    forall i | 0 <= i < |a| - k
      ensures Matches(a[k..][i], b[k..][i])
    {
      assert Matches(a[k + i], b[k + i]);
    }
  }

  /** A later cutoff leaves no more to load, so one that leaves less lies further on. */
  lemma LeavesLess(full: seq<Message>, m: nat, n: nat)
    requires m <= |full| && n <= |full| && |Loads(full, n)| < |Loads(full, m)|
    ensures m < n
  {
    if n <= m {
      LaterLoadsEndEarlier(full, n, m);
    }
  }

  lemma EndsIn(loads: seq<Message>, last: seq<Message>, tail: seq<Message>, older: nat)
    requires |last| <= |loads| && last == loads[|loads| - |last|..] && Aligned(last, tail)
    requires 0 < older <= |tail| && (older < |tail| ==> tail[older].role != Tool)
    ensures var i := |loads| - |tail| + older - 1;
            && 0 <= i < |loads|
            && (i + 1 < |loads| ==> loads[i + 1].role != Tool)
            && loads[i + 1..] == last[older..]
  {
    if older < |tail| {
      assert Matches(last[older], tail[older]);
      assert loads[|loads| - |tail| + older] == last[older];
    }
  }

  /** The main fact about storing a snapshot. A single writer's session tail lines up with the
      end of the log, however many earlier snapshots failed to store. Then the search finds it
      there, and the cutoff leaves exactly the kept messages to load. */
  lemma CutoffLeavesKept(full: seq<Message>, stored: Option<Snapshot>, covered: nat, tail: seq<Message>, older: nat)
    returns (pos: nat)
    requires Covered(stored) <= covered <= |full|
    requires Aligned(Loads(full, covered), tail)
    requires 0 < older <= |tail| && (older < |tail| ==> tail[older].role != Tool)
    ensures CursorOf(TailOf(full, 0, stored), tail[..older], tail).Found?
    ensures Position(CursorOf(TailOf(full, 0, stored), tail[..older], tail).cursor) == Some(pos)
    ensures covered <= pos < |full|
    ensures Loads(full, pos + 1) == Loads(full, covered)[older..]
    ensures Aligned(Loads(full, pos + 1), tail[older..])
  {
    hide Loads, TailOf, CursorOf, Position, Filled, Closed;
    var loads, last := Loads(full, Covered(stored)), Loads(full, covered);
    LaterLoadsEndEarlier(full, Covered(stored), covered);
    EndsIn(loads, last, tail, older);
    FilledTailIsLoads(full, stored);
    FoundAtEnd(TailOf(full, 0, stored), tail, older);
    pos := CutAfter(full, stored, |loads| - |tail| + older - 1);
    AlignedSuffix(last, tail, older);
    LeavesLess(full, covered, pos + 1);
  }

  lemma FoundPlace(logged: seq<LoggedMessage>, older: seq<Message>, tail: seq<Message>) returns (start: nat)
    requires |older| <= |tail| && CursorOf(logged, older, tail).Found?
    ensures older != [] && start + |tail| <= |Filled(logged)|
    ensures AlignedAt(Unlogged(Filled(logged)), tail, start)
    ensures CursorOf(logged, older, tail) == Found(Filled(logged)[start + |older| - 1].cursor)
  {
    start := LastAligned(Unlogged(Filled(logged)), tail, |Filled(logged)| - |tail|).value;
  }

  lemma WindowIsClosed(loads: seq<Message>, tail: seq<Message>, start: nat)
    requires start + |tail| <= |loads| && AlignedAt(loads, tail, start)
    requires Closed(loads) && Closed(tail) && tail != []
    ensures Closed(loads[start..start + |tail|]) && Closed(loads[start..])
  {
    hide Closed;
    var window := loads[start..start + |tail|];
    AlignedSymmetric(window, tail);
    AlignedKeepsClosed(tail, window);
    ClosedStart(window);
    assert loads[start] == window[0];
    ClosedSplit(loads, start);
  }

  lemma WindowMatches(loads: seq<Message>, tail: seq<Message>, start: nat, n: nat)
    requires start + |tail| <= |loads| && AlignedAt(loads, tail, start) && n < |tail|
    ensures Matches(loads[start + n], tail[n])
  {
    assert loads[start..start + |tail|][n] == loads[start + n];
  }

  /** A window cut at the end, or before a message that is no tool result, leaves whole rounds. */
  lemma RestOfWindow(loads: seq<Message>, tail: seq<Message>, start: nat, n: nat)
    requires start + |tail| <= |loads| && AlignedAt(loads, tail, start)
    requires Closed(loads) && Closed(tail)
    requires 0 < n <= |tail| && (n < |tail| ==> tail[n].role != Tool)
    ensures Closed(loads[start + n..])
  {
    hide Closed, AlignedAt;
    WindowIsClosed(loads, tail, start);
    var window := loads[start..start + |tail|];
    if n == |tail| {
      assert loads[start..] == window + loads[start + n..];
      ClosedRest(window, loads[start + n..]);
    } else {
      WindowMatches(loads, tail, start, n);
      ClosedSplit(loads, start + n);
    }
  }

  /** Wherever the search finds the tail, with other writers or not: a log of whole rounds is
      cut between rounds. */
  lemma CutoffKeepsRounds(full: seq<Message>, stored: Option<Snapshot>, older: seq<Message>, kept: seq<Message>)
    returns (pos: nat)
    requires Covered(stored) <= |full| && Closed(Loads(full, Covered(stored)))
    requires Closed(older + kept) && Closed(kept)
    requires CursorOf(TailOf(full, 0, stored), older, older + kept).Found?
    ensures Position(CursorOf(TailOf(full, 0, stored), older, older + kept).cursor) == Some(pos)
    ensures Covered(stored) <= pos < |full|
    ensures Closed(Loads(full, pos + 1))
  {
    hide Loads, TailOf, CursorOf, Position, Filled, AlignedAt, Closed;
    ClosedStart(kept);
    var loads := Loads(full, Covered(stored));
    FilledTailIsLoads(full, stored);
    var start := FoundPlace(TailOf(full, 0, stored), older, older + kept);
    RestOfWindow(loads, older + kept, start, |older|);
    var i := start + |older| - 1;
    ClosedStart(loads[i + 1..]);
    pos := CutAfter(full, stored, i);
  }

  // ---- with another writer

  /** The session's tail lines up with `own`, and with nothing later. */
  predicate LastPlace(f1: seq<Message>, own: seq<Message>, f2: seq<Message>, tail: seq<Message>) {
    && Aligned(own, tail)
    && forall k | |f1| < k <= |f1 + own + f2| - |tail| :: !AlignedAt(f1 + own + f2, tail, k)
  }

  lemma FoundInWindow(logged: seq<LoggedMessage>, tail: seq<Message>, older: nat, start: nat)
    requires 0 < older <= |tail| && start + |tail| <= |Filled(logged)|
    requires var msgs := Unlogged(Filled(logged));
             && AlignedAt(msgs, tail, start)
             && forall k | start < k <= |msgs| - |tail| :: !AlignedAt(msgs, tail, k)
    ensures CursorOf(logged, tail[..older], tail) == Found(Filled(logged)[start + older - 1].cursor)
  {
    hide Filled, AlignedAt, LastAligned;
    var msgs := Unlogged(Filled(logged));
    var last := LastAligned(msgs, tail, |msgs| - |tail|);
    assert last == Some(start);
  }

  /** Windows of the end of a log are windows of the log. */
  lemma WindowsOfEnd(loads: seq<Message>, end: seq<Message>, tail: seq<Message>, k: nat)
    requires |end| <= |loads| && end == loads[|loads| - |end|..] && k + |tail| <= |end|
    ensures AlignedAt(loads, tail, |loads| - |end| + k) <==> AlignedAt(end, tail, k)
  {
    assert loads[|loads| - |end| + k..|loads| - |end| + k + |tail|] == end[k..k + |tail|];
  }

  lemma OwnIsFound(loads: seq<Message>, f1: seq<Message>, own: seq<Message>, f2: seq<Message>, tail: seq<Message>)
    requires LastPlace(f1, own, f2, tail)
    requires |f1 + own + f2| <= |loads| && f1 + own + f2 == loads[|loads| - |f1 + own + f2|..]
    ensures var start := |loads| - |f1 + own + f2| + |f1|;
            && AlignedAt(loads, tail, start)
            && forall k | start < k <= |loads| - |tail| :: !AlignedAt(loads, tail, k)
  {
    hide AlignedAt;
    var end := f1 + own + f2;
    OwnWindow(f1, own, f2, tail);
    WindowsOfEnd(loads, end, tail, |f1|);
    forall k | |loads| - |end| + |f1| < k <= |loads| - |tail|
      ensures !AlignedAt(loads, tail, k)
    {
      WindowsOfEnd(loads, end, tail, k - (|loads| - |end|));
    }
  }

  lemma OwnWindow(f1: seq<Message>, own: seq<Message>, f2: seq<Message>, tail: seq<Message>)
    requires Aligned(own, tail)
    ensures AlignedAt(f1 + own + f2, tail, |f1|)
  {
    assert (f1 + own + f2)[|f1|..|f1| + |tail|] == own;
  }

  /** Where the last window that lines up with the tail is cut. */
  lemma LastWindowIsCut(full: seq<Message>, stored: Option<Snapshot>, covered: nat,
                        f1: seq<Message>, own: seq<Message>, f2: seq<Message>,
                        tail: seq<Message>, older: nat) returns (pos: nat)
    requires Covered(stored) <= covered <= |full| && Loads(full, covered) == f1 + own + f2
    requires LastPlace(f1, own, f2, tail) && 0 < older <= |tail|
    requires own[older..] + f2 != [] ==> (own[older..] + f2)[0].role != Tool
    ensures var found := CursorOf(TailOf(full, 0, stored), tail[..older], tail);
            found.Found? && Position(found.cursor) == Some(pos)
    ensures covered <= pos < |full| && Loads(full, pos + 1) == own[older..] + f2
  {
    hide Loads, TailOf, CursorOf, Position, Filled, Closed, AlignedAt, LastPlace;
    var loads, end := Loads(full, Covered(stored)), f1 + own + f2;
    assert |own| == |tail| by { PlaceIsWhole(f1, own, f2, tail); }
    LaterLoadsEndEarlier(full, Covered(stored), covered);
    OwnIsFound(loads, f1, own, f2, tail);
    FilledTailIsLoads(full, stored);
    var start := |loads| - |end| + |f1|;
    FoundInWindow(TailOf(full, 0, stored), tail, older, start);
    SplitsAt(loads, f1, own, f2, older);
    pos := CutAfter(full, stored, start + older - 1);
    LeavesLess(full, covered, pos + 1);
  }

  /** A cut of `loads` may fall before its message at `i`. */
  predicate MayCutAt(loads: seq<Message>, i: nat) {
    i < |loads| ==> loads[i].role != Tool
  }

  /** With other writers, and however many earlier snapshots failed to be stored: the run's own
      messages stand between `f1` and `f2` in what was saved since the session's snapshot. The
      cutoff is in the last window that lines up with the session's tail, the run's own or a later
      one that looks the same, and leaves what follows its older messages. It covers the run's own
      older messages alone exactly when nothing stands before them and no later window lines up. */
  lemma OtherWritersMessagesCoveredExactly(full: seq<Message>, stored: Option<Snapshot>, covered: nat,
                                           f1: seq<Message>, own: seq<Message>, f2: seq<Message>,
                                           tail: seq<Message>, older: nat) returns (start: nat, pos: nat)
    requires Covered(stored) <= covered <= |full| && Loads(full, covered) == f1 + own + f2
    requires Aligned(own, tail) && 0 < older <= |tail|
    requires forall k | 0 <= k <= |f1 + own + f2| - |tail| && AlignedAt(f1 + own + f2, tail, k) ::
               MayCutAt(f1 + own + f2, k + older)
    ensures var found := CursorOf(TailOf(full, 0, stored), tail[..older], tail);
            found.Found? && Position(found.cursor) == Some(pos)
    ensures |f1| <= start && start + |tail| <= |f1 + own + f2| && AlignedAt(f1 + own + f2, tail, start)
    ensures forall k | start < k <= |f1 + own + f2| - |tail| :: !AlignedAt(f1 + own + f2, tail, k)
    ensures covered <= pos < |full| && Loads(full, pos + 1) == (f1 + own + f2)[start + older..]
    ensures Loads(full, covered) == own[..older] + Loads(full, pos + 1) <==>
            f1 == [] && forall k | 0 < k <= |own + f2| - |tail| :: !AlignedAt(own + f2, tail, k)
  {
    hide Loads, TailOf, CursorOf, Position, Filled, Closed, AlignedAt, Aligned;
    var loads, n := f1 + own + f2, |tail|;
    assert |own| == n by { AlignedLength(own, tail); }
    OwnWindow(f1, own, f2, tail);
    start := LastAligned(loads, tail, |loads| - n).value;
    var a, w, b := loads[..start], loads[start..start + n], loads[start + n..];
    assert loads == a + w + b;
    WindowIsLast(loads, tail, start);
    assert w[older..] + b == loads[start + older..];
    pos := LastWindowIsCut(full, stored, covered, a, w, b, tail, older);
    CoversOwnExactly(f1, own, f2, tail, older, start);
  }

  /** The search can only end where a cut may fall: before a kept message, or, when nothing is kept,
      between rounds of a log of whole rounds. */
  lemma WindowsMayBeCut(loads: seq<Message>, tail: seq<Message>, older: nat)
    requires 0 < older <= |tail|
    requires if older < |tail| then tail[older].role != Tool else Closed(loads) && Closed(tail)
    ensures forall k | 0 <= k <= |loads| - |tail| && AlignedAt(loads, tail, k) :: MayCutAt(loads, k + older)
  {
    hide Closed, AlignedAt;
    forall k | 0 <= k <= |loads| - |tail| && AlignedAt(loads, tail, k)
      ensures MayCutAt(loads, k + older)
    {
      if older < |tail| {
        WindowMatches(loads, tail, k, older);
      } else {
        RestOfWindow(loads, tail, k, older);
        ClosedStart(loads[k + older..]);
      }
    }
  }

  lemma AlignedLength(a: seq<Message>, b: seq<Message>)
    requires Aligned(a, b)
    ensures |a| == |b|
  {
  }

  lemma WindowIsLast(loads: seq<Message>, tail: seq<Message>, start: nat)
    requires start + |tail| <= |loads| && AlignedAt(loads, tail, start)
    requires forall k | start < k <= |loads| - |tail| :: !AlignedAt(loads, tail, k)
    ensures LastPlace(loads[..start], loads[start..start + |tail|], loads[start + |tail|..], tail)
  {
    hide Aligned;
    assert loads[..start] + loads[start..start + |tail|] + loads[start + |tail|..] == loads;
  }

  lemma CoversOwnExactly(f1: seq<Message>, own: seq<Message>, f2: seq<Message>, tail: seq<Message>, older: nat,
                         start: nat)
    requires |own| == |tail| && 0 < older <= |tail| && |f1| <= start && start + |tail| <= |f1 + own + f2|
    requires AlignedAt(f1 + own + f2, tail, start)
    requires forall k | start < k <= |f1 + own + f2| - |tail| :: !AlignedAt(f1 + own + f2, tail, k)
    ensures f1 + own + f2 == own[..older] + (f1 + own + f2)[start + older..] <==>
            f1 == [] && forall k | 0 < k <= |own + f2| - |tail| :: !AlignedAt(own + f2, tail, k)
  {
    hide AlignedAt;
    var loads := f1 + own + f2;
    if f1 == [] {
      assert loads == own + f2;
    }
    if start == 0 {
      assert loads == own[..older] + loads[older..];
    } else {
      assert |own[..older] + loads[start + older..]| < |loads|;
    }
  }

  /** Another writer that saved the very messages of the run, after it: nothing stands before the
      run's own, yet its kept messages and the other's older ones come under the cutoff. */
  lemma RepeatedMessagesAreCovered(own: seq<Message>, older: nat) returns (pos: nat)
    requires 0 < older < |own| && NoEmptyAnswer(own) && own[0].role != Tool && own[older].role != Tool
    ensures var found := CursorOf(TailOf(own + own, 0, None), own[..older], own);
            found.Found? && Position(found.cursor) == Some(pos)
    ensures |own| <= pos < |own + own| && Loads(own + own, pos + 1) == own[older..]
    ensures Loads(own + own, 0) == own[..older] + own[older..] + own
  {
    var log := own + own;
    AlignedToItself(own);
    assert log[0..] == log && own[..older] + own[older..] == own;
    ReplayableKeepsAll(log);
    assert log[|own|..] == own;
    ReplayableKeepsAll(own);
    pos := CutoffLeavesKept(log, None, |own|, own, older);
  }

  lemma PlaceIsWhole(f1: seq<Message>, own: seq<Message>, f2: seq<Message>, tail: seq<Message>)
    requires LastPlace(f1, own, f2, tail)
    ensures |own| == |tail|
  {
  }

  lemma SplitsAt(loads: seq<Message>, f1: seq<Message>, own: seq<Message>, f2: seq<Message>, older: nat)
    requires |f1 + own + f2| <= |loads| && f1 + own + f2 == loads[|loads| - |f1 + own + f2|..] && older <= |own|
    ensures var i := |loads| - |f1 + own + f2| + |f1| + older;
            loads[i..] == own[older..] + f2 && (i < |loads| ==> loads[i] == (own[older..] + f2)[0])
  {
    var at := |loads| - |f1 + own + f2|;
    assert loads[at..][|f1| + older..] == loads[at + |f1| + older..];
    assert (f1 + own + f2)[|f1| + older..] == own[older..] + f2;
  }

  /** With a second writer the cutoff can cover messages the run never loaded: what another
      writer saved before the run's first save comes under the run's cutoff. */
  lemma AnotherWritersMessagesAreCovered(foreign: seq<Message>, tail: seq<Message>, older: nat)
    returns (pos: nat)
    requires 0 < older <= |tail| && NoEmptyAnswer(tail) && tail[0].role != Tool
    requires older < |tail| ==> tail[older].role != Tool
    ensures var found := CursorOf(TailOf(foreign + tail, 0, None), tail[..older], tail);
            found.Found? && Position(found.cursor) == Some(pos)
    ensures |foreign| <= pos
  {
    assert (foreign + tail)[|foreign|..] == tail;
    ReplayableKeepsAll(tail);
    AlignedToItself(tail);
    pos := CutoffLeavesKept(foreign + tail, None, |foreign|, tail, older);
  }

  lemma AlignedToItself(msgs: seq<Message>)
    ensures Aligned(msgs, msgs)
  {
  }
}
