/** The cursor arithmetic of a log whose first message is at an absolute position
    (internal/snaplog/snaplog.go). */
module SnapLog {
  import opened Messages

  datatype LoggedMessage = LoggedMessage(message: Message, cursor: Cursor)

  datatype CutoffResult = Cut(pos: nat) | SnapshotConflict | InvalidCursor

  function Max(a: int, b: int): int {
    if a < b then b else a
  }

  function Min(a: int, b: int): int {
    if a < b then a else b
  }

  /** A log writes positions as plain numerals. */
  function CursorAt(pos: nat): Cursor {
    Numeral(pos, 0)
  }

  /** The position a cursor reads as, if any. */
  function Position(c: Cursor): Option<nat> {
    if c.Numeral? && c.value >= 0 then Some(c.value) else None
  }

  /** How a store tells snapshots apart: by their cursors alone. */
  predicate Same(a: Option<Snapshot>, b: Option<Snapshot>) {
    if a.None? || b.None? then a == b else a.value.upTo == b.value.upTo
  }

  /** How many messages of the log a snapshot stands for. */
  function Covered(snapshot: Option<Snapshot>): nat {
    match snapshot
    case None => 0
    case Some(s) =>
      match Position(s.upTo)
      case None => 0
      case Some(p) => p + 1
  }

  /** `msgs` less the tool results it starts with. */
  function DropTools(msgs: seq<Message>): (rest: seq<Message>)
    ensures |rest| <= |msgs|
  {
    if msgs == [] || msgs[0].role != Tool then msgs else DropTools(msgs[1..])
  }

  /** `msgs` with the cursors of the positions from `at` on. */
  function Number(msgs: seq<Message>, at: nat): seq<LoggedMessage> {
    seq(|msgs|, i requires 0 <= i < |msgs| => LoggedMessage(msgs[i], CursorAt(at + i)))
  }

  function Unlogged(logged: seq<LoggedMessage>): seq<Message> {
    seq(|logged|, i requires 0 <= i < |logged| => logged[i].message)
  }

  /** What a log of `messages`, the first of them at `offset`, shows past `snapshot`: no tool result
      comes first, as the call it answers is not shown. */
  function TailOf(messages: seq<Message>, offset: nat, snapshot: Option<Snapshot>): seq<LoggedMessage> {
    var start := Min(Max(Covered(snapshot) - offset, 0), |messages|);
    var tail := DropTools(messages[start..]);
    Number(tail, offset + |messages| - |tail|)
  }

  method Tail(messages: seq<Message>, offset: nat, snapshot: Option<Snapshot>) returns (out: seq<LoggedMessage>)
    ensures out == TailOf(messages, offset, snapshot)
  {
    var start: nat := 0;
    if snapshot.Some? {
      var upTo := Position(snapshot.value.upTo);
      if upTo.Some? {
        start := Max(upTo.value + 1 - offset, 0);
      }
    }
    out := [];
    var i := start;
    while i < |messages|
      invariant i >= start
      invariant out + TailFrom(messages, offset, i, out != []) == TailFrom(messages, offset, start, false)
    {
      if out == [] && messages[i].role == Tool {
      } else {
        out := out + [LoggedMessage(messages[i], CursorAt(offset + i))];
      }
      i := i + 1;
    }
    TailFromIsTailOf(messages, offset, snapshot);
  }

  /** What the loop of Tail still adds from index `i` on; `open` once something was added. */
  function TailFrom(messages: seq<Message>, offset: nat, i: nat, open: bool): seq<LoggedMessage>
    decreases |messages| - i
  {
    if i >= |messages| then []
    else if !open && messages[i].role == Tool then TailFrom(messages, offset, i + 1, false)
    else [LoggedMessage(messages[i], CursorAt(offset + i))] + TailFrom(messages, offset, i + 1, true)
  }

  lemma {:induction false} OpenTail(messages: seq<Message>, offset: nat, i: nat)
    requires i <= |messages|
    ensures TailFrom(messages, offset, i, true) == Number(messages[i..], offset + i)
    decreases |messages| - i
  {
    if i < |messages| {
      OpenTail(messages, offset, i + 1);
      assert messages[i..][1..] == messages[i + 1..];
      NumberHead(messages[i..], offset + i);
    }
  }

  lemma NumberHead(msgs: seq<Message>, at: nat)
    requires msgs != []
    ensures Number(msgs, at) == [LoggedMessage(msgs[0], CursorAt(at))] + Number(msgs[1..], at + 1)
  {
  }

  lemma {:induction false} ClosedTail(messages: seq<Message>, offset: nat, i: nat)
    requires i <= |messages|
    ensures var tail := DropTools(messages[i..]);
            TailFrom(messages, offset, i, false) == Number(tail, offset + |messages| - |tail|)
    decreases |messages| - i
  {
    if i < |messages| {
      assert messages[i..][1..] == messages[i + 1..];
      if messages[i].role == Tool {
        ClosedTail(messages, offset, i + 1);
        assert DropTools(messages[i..]) == DropTools(messages[i + 1..]);
      } else {
        OpenTail(messages, offset, i);
        assert TailFrom(messages, offset, i, false) == TailFrom(messages, offset, i, true);
        assert DropTools(messages[i..]) == messages[i..];
      }
    }
  }

  lemma TailFromIsTailOf(messages: seq<Message>, offset: nat, snapshot: Option<Snapshot>)
    ensures TailFrom(messages, offset, Max(Covered(snapshot) - offset, 0), false) == TailOf(messages, offset, snapshot)
  {
    var start := Max(Covered(snapshot) - offset, 0);
    if start <= |messages| {
      ClosedTail(messages, offset, start);
    } else {
      assert messages[|messages|..] == [];
    }
  }

  /** What a reader who knows nothing of snapshots is shown. */
  function ViewOf(messages: seq<Message>, offset: nat, snapshot: Snapshot): seq<Message> {
    SummaryMessages(snapshot) + Unlogged(TailOf(messages, offset, Some(snapshot)))
  }

  /** A reader sees the summary, then what is pinned to it, then the end of the log. */
  lemma ViewReads(full: seq<Message>, snapshot: Snapshot)
    requires Covered(Some(snapshot)) <= |full|
    ensures var view, n := ViewOf(full, 0, snapshot), |snapshot.pinned|;
            && |view| > n
            && view[0].role == User
            && TextContent(view[0].parts) == "Summary of previous conversation:\n" + snapshot.summary
            && view[1..1 + n] == snapshot.pinned
            && |view| - 1 - n <= |full| - Covered(Some(snapshot))
            && view[1 + n..] == full[|full| - (|view| - 1 - n)..]
  {
    SummaryIsRead(snapshot);
    TailEndsLog(full, Some(snapshot));
    TailMessages(full, Some(snapshot));
    hide TailOf, DropTools, SummaryMessages;
    var shown, tail := SummaryMessages(snapshot), Unlogged(TailOf(full, 0, Some(snapshot)));
    assert (shown + tail)[1..|shown|] == shown[1..] && (shown + tail)[|shown|..] == tail;
  }

  method View(messages: seq<Message>, offset: nat, snapshot: Snapshot) returns (out: seq<Message>)
    ensures out == ViewOf(messages, offset, snapshot)
  {
    var tail := Tail(messages, offset, Some(snapshot));
    out := SummaryMessages(snapshot);
    for i := 0 to |tail|
      invariant out == SummaryMessages(snapshot) + Unlogged(tail[..i])
    {
      assert Unlogged(tail[..i + 1]) == Unlogged(tail[..i]) + [tail[i].message];
      out := out + [tail[i].message];
    }
    assert tail[..|tail|] == tail;
  }

  /** A compare-and-swap against `prev`, then a bounds check of the cursor: below `next` and above
      the current cutoff. */
  function Cutoff(current: Option<Snapshot>, prev: Option<Snapshot>, upTo: Cursor, next: nat): CutoffResult {
    if !Same(current, prev) then SnapshotConflict
    else
      match Position(upTo)
      case None => InvalidCursor
      case Some(pos) =>
        if pos >= next then InvalidCursor
        else if current.Some? && Position(current.value.upTo).Some? && pos <= Position(current.value.upTo).value
        then InvalidCursor
        else Cut(pos)
  }

  /** A cutoff is accepted exactly when the caller's snapshot is current and the cursor names
      a saved message that no snapshot stands for yet. */
  lemma CutoffAccepts(current: Option<Snapshot>, prev: Option<Snapshot>, upTo: Cursor, next: nat)
    ensures Cutoff(current, prev, upTo, next).Cut? <==>
            Same(current, prev) && Position(upTo).Some? && Covered(current) <= Position(upTo).value < next
    ensures Cutoff(current, prev, upTo, next).Cut? ==> Cutoff(current, prev, upTo, next).pos == Position(upTo).value
  {
  }

  /** Snapshots are compared by the cursors they were saved up to, whatever else they say, and a new
      one must name, in decimal, a saved message past the current one's. */
  lemma CutoffAcceptsByCursor(current: Option<Snapshot>, prev: Option<Snapshot>, upTo: Cursor, next: nat)
    ensures Cutoff(current, prev, upTo, next).Cut? <==>
            && (current.None? <==> prev.None?)
            && (current.Some? && prev.Some? ==> current.value.upTo == prev.value.upTo)
            && upTo.Numeral? && 0 <= upTo.value < next
            && (current.Some? && current.value.upTo.Numeral? ==> current.value.upTo.value < upTo.value)
    ensures Cutoff(current, prev, upTo, next).SnapshotConflict? <==>
            current.Some? != prev.Some? || (current.Some? && prev.Some? && current.value.upTo != prev.value.upTo)
  {
  }

  /** A log cut at `offset`, no further than the snapshot reaches, shows the same tail as
      the whole log: same messages, same cursors. */
  lemma TailOfPruned(full: seq<Message>, offset: nat, snapshot: Option<Snapshot>)
    requires offset <= Covered(snapshot) && offset <= |full|
    ensures TailOf(full[offset..], offset, snapshot) == TailOf(full, 0, snapshot)
  {
    var a := Min(Max(Covered(snapshot) - offset, 0), |full| - offset);
    assert full[offset..][a..] == full[offset + a..];
  }

  lemma NumberNames(msgs: seq<Message>, at: nat)
    ensures Unlogged(Number(msgs, at)) == msgs
    ensures forall i | 0 <= i < |msgs| ::
              Position(Number(msgs, at)[i].cursor) == Some(at + i) && Number(msgs, at)[i].message == msgs[i]
  {
  }

  lemma {:induction false} DropToolsIsSuffix(full: seq<Message>, from: nat)
    requires from <= |full|
    ensures var tail := DropTools(full[from..]); tail == full[|full| - |tail|..]
    decreases |full| - from
  {
    if from < |full| && full[from].role == Tool {
      assert full[from..][1..] == full[from + 1..];
      DropToolsIsSuffix(full, from + 1);
    }
  }

  /** The tail is the log after the cutoff less its leading tool results ... */
  lemma TailMessages(full: seq<Message>, snapshot: Option<Snapshot>)
    requires Covered(snapshot) <= |full|
    ensures Unlogged(TailOf(full, 0, snapshot)) == DropTools(full[Covered(snapshot)..])
  {
    var rest := DropTools(full[Covered(snapshot)..]);
    NumberNames(rest, |full| - |rest|);
  }

  /** ... which ends the log, and each cursor names the position of its message. */
  lemma TailCursors(full: seq<Message>, snapshot: Option<Snapshot>)
    requires Covered(snapshot) <= |full|
    ensures var tail := TailOf(full, 0, snapshot);
            && |tail| <= |full|
            && forall i | 0 <= i < |tail| :: Position(tail[i].cursor) == Some(|full| - |tail| + i)
  {
    var rest := DropTools(full[Covered(snapshot)..]);
    NumberNames(rest, |full| - |rest|);
  }

  lemma TailEndsLog(full: seq<Message>, snapshot: Option<Snapshot>)
    requires Covered(snapshot) <= |full|
    ensures var tail := TailOf(full, 0, snapshot);
            && |tail| <= |full|
            && Unlogged(tail) == full[|full| - |tail|..]
  {
    TailMessages(full, snapshot);
    DropToolsIsSuffix(full, Covered(snapshot));
  }

  /** Appending after a log extends its shown tail, unless a tool result is appended first. */
  lemma {:induction false} DropToolsAppend(a: seq<Message>, b: seq<Message>)
    requires b != [] ==> b[0].role != Tool
    ensures DropTools(a + b) == DropTools(a) + b
  {
    if a == [] {
      assert a + b == b;
    } else if a[0].role == Tool {
      assert (a + b)[1..] == a[1..] + b;
      DropToolsAppend(a[1..], b);
    }
  }
}
