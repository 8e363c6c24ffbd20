/** The messages of a conversation (llm/llm.go), the answers a log never holds
    (agent/agent.go, `replayable`), and what it means for a conversation to keep every
    tool round whole. */
module Messages {

  datatype Option<+T> = None | Some(value: T)

  datatype Role = System | User | Assistant | Tool | Other(name: string)

  datatype PartKind = Text | ImageURL | ImageBase64 | Reasoning | RedactedReasoning

  /** A content part. `image` holds the URL or the base64 data of an image part. */
  datatype Part = Part(kind: PartKind, text: string, image: string, signature: string)

  datatype ToolCall = ToolCall(id: string, name: string, args: string)

  datatype Message = Message(role: Role, parts: seq<Part>, calls: seq<ToolCall>, callID: string, toolError: bool)

  function TextPart(text: string): Part {
    Part(Text, text, "", "")
  }

  function ReasoningPart(text: string, signature: string): Part {
    Part(Reasoning, text, "", signature)
  }

  function SystemMessage(text: string): Message {
    Message(System, [TextPart(text)], [], "", false)
  }

  function UserMessage(parts: seq<Part>): Message {
    Message(User, parts, [], "", false)
  }

  function ToolResult(id: string, parts: seq<Part>, failed: bool): Message {
    Message(Tool, parts, [], id, failed)
  }

  /** The text parts, each after a newline unless nothing was written yet. */
  function TextContent(parts: seq<Part>): string {
    if parts == [] then ""
    else
      var before := TextContent(parts[..|parts| - 1]);
      var last := parts[|parts| - 1];
      if last.kind != Text then before
      else if before == "" then last.text
      else before + "\n" + last.text
  }

  predicate IsSpace(c: char) {
    c == ' ' || '\t' <= c <= '\r' || c == '\U{0085}' || c == '\U{00A0}' || c == '\U{1680}'
    || '\U{2000}' <= c <= '\U{200A}' || c == '\U{2028}' || c == '\U{2029}' || c == '\U{202F}'
    || c == '\U{205F}' || c == '\U{3000}'
  }

  /** strings.TrimSpace(s) == "" */
  predicate Blank(s: string) {
    forall i | 0 <= i < |s| :: IsSpace(s[i])
  }

  /** A part that gives a model nothing to read. */
  predicate EmptyPart(p: Part) {
    match p.kind
    case Text | Reasoning => Blank(p.text)
    case RedactedReasoning => p.text == ""
    case ImageURL | ImageBase64 => p.image == ""
  }

  /** An answer without calls in which every part is empty (isEmptyAnswer). */
  predicate EmptyAnswer(m: Message) {
    m.role == Assistant && m.calls == [] && forall i | 0 <= i < |m.parts| :: EmptyPart(m.parts[i])
  }

  /** The messages a log can hold: all but the empty answers, in order (replayable). */
  function Replayable(msgs: seq<Message>): seq<Message> {
    if msgs == [] then []
    else if EmptyAnswer(msgs[0]) then Replayable(msgs[1..])
    else [msgs[0]] + Replayable(msgs[1..])
  }

  predicate NoEmptyAnswer(msgs: seq<Message>) {
    forall i | 0 <= i < |msgs| :: !EmptyAnswer(msgs[i])
  }

  lemma {:induction false} ReplayableConcat(a: seq<Message>, b: seq<Message>)
    ensures Replayable(a + b) == Replayable(a) + Replayable(b)
  {
    if a == [] {
      assert a + b == b;
    } else {
      assert (a + b)[1..] == a[1..] + b;
      ReplayableConcat(a[1..], b);
    }
  }

  lemma {:induction false} ReplayableKeepsAll(msgs: seq<Message>)
    ensures NoEmptyAnswer(Replayable(msgs))
    ensures NoEmptyAnswer(msgs) ==> Replayable(msgs) == msgs
  {
    if msgs != [] {
      ReplayableKeepsAll(msgs[1..]);
      if NoEmptyAnswer(msgs) {
        forall i | 0 <= i < |msgs[1..]| ensures !EmptyAnswer(msgs[1..][i]) {
          assert msgs[1..][i] == msgs[i + 1];
        }
      }
    }
  }

  // ---- which messages a log holds

  /** The characters of the Unicode property White_Space. */
  const SPACES: set<char> := {
    '\t', '\n', '\U{000B}', '\U{000C}', '\r', ' ', '\U{0085}', '\U{00A0}', '\U{1680}', '\U{2000}', '\U{2001}',
    '\U{2002}', '\U{2003}', '\U{2004}', '\U{2005}', '\U{2006}', '\U{2007}', '\U{2008}', '\U{2009}', '\U{200A}',
    '\U{2028}', '\U{2029}', '\U{202F}', '\U{205F}', '\U{3000}'}

  lemma SpacesAre(c: char)
    ensures IsSpace(c) <==> c in SPACES
  {
  }

  /** There is something to read in `s`. */
  predicate Written(s: string) {
    exists i | 0 <= i < |s| :: s[i] !in SPACES
  }

  /** A part that says something: written text or reasoning, redacted text, or an image. */
  predicate Says(p: Part) {
    || (p.kind in {Text, Reasoning} && Written(p.text))
    || (p.kind == RedactedReasoning && p.text != "")
    || (p.kind in {ImageURL, ImageBase64} && p.image != "")
  }

  lemma BlankIsUnwritten(s: string)
    ensures Blank(s) <==> !Written(s)
  {
    forall i | 0 <= i < |s|
      ensures IsSpace(s[i]) <==> s[i] in SPACES
    {
      SpacesAre(s[i]);
    }
  }

  /** A log drops a message exactly when it is an answer that calls nothing and says nothing. */
  lemma DroppedExactly(m: Message)
    ensures Replayable([m]) == [] <==> m.role == Assistant && m.calls == [] && forall p <- m.parts :: !Says(p)
    ensures Replayable([m]) == [] || Replayable([m]) == [m]
  {
    hide Written, Blank, IsSpace;
    assert [m][1..] == [];
    forall p: Part | p in m.parts
      ensures EmptyPart(p) <==> !Says(p)
    {
      BlankIsUnwritten(p.text);
    }
    assert EmptyAnswer(m) <==> m.role == Assistant && m.calls == [] && forall p <- m.parts :: EmptyPart(p);
  }

  /** `results` answers `calls` one for one, in call order. */
  predicate Answers(calls: seq<ToolCall>, results: seq<Message>) {
    && |results| == |calls|
    && forall i | 0 <= i < |calls| ::
      results[i].role == Tool && results[i].callID == calls[i].id && results[i].calls == []
  }

  /** Every tool result directly follows the message that made its call, and no call is
      left unanswered. */
  predicate Closed(msgs: seq<Message>)
    decreases |msgs|
  {
    msgs == [] ||
    (var n := |msgs[0].calls|;
     && msgs[0].role != Tool
     && 1 + n <= |msgs|
     && Answers(msgs[0].calls, msgs[1..1 + n])
     && Closed(msgs[1 + n..]))
  }

  lemma ClosedStart(msgs: seq<Message>)
    requires Closed(msgs)
    ensures msgs != [] ==> msgs[0].role != Tool
  {
  }

  lemma NothingIsClosed()
    ensures Closed([]) && Replayable([]) == [] && NoEmptyAnswer([])
  {
  }

  lemma PartsOfConcat(a: seq<Message>, b: seq<Message>, n: nat)
    requires 0 < n <= |a|
    ensures (a + b)[1..n] == a[1..n] && (a + b)[n..] == a[n..] + b && (a + b)[0] == a[0]
  {
  }

  lemma {:induction false} ClosedConcat(a: seq<Message>, b: seq<Message>)
    requires Closed(a) && Closed(b)
    ensures Closed(a + b)
    decreases |a|
  {
    hide Answers;
    if a == [] {
      assert a + b == b;
    } else {
      var n := |a[0].calls|;
      PartsOfConcat(a, b, 1 + n);
      ClosedConcat(a[1 + n..], b);
    }
  }

  lemma {:induction false} ClosedRest(a: seq<Message>, b: seq<Message>)
    requires Closed(a + b) && Closed(a)
    ensures Closed(b)
    decreases |a|
  {
    if a == [] {
      assert a + b == b;
    } else {
      var n := |a[0].calls|;
      PartsOfConcat(a, b, 1 + n);
      ClosedRest(a[1 + n..], b);
    }
  }

  lemma AnswersAreResults(calls: seq<ToolCall>, results: seq<Message>, i: nat)
    requires Answers(calls, results) && i < |results|
    ensures results[i].role == Tool
  {
  }

  lemma PartsOfCut(msgs: seq<Message>, n: nat, j: nat)
    requires 0 < n <= j <= |msgs|
    ensures msgs[..j][0] == msgs[0] && msgs[..j][1..n] == msgs[1..n]
    ensures msgs[..j][n..] == msgs[n..][..j - n] && msgs[j..] == msgs[n..][j - n..]
  {
  }

  /** A cut that does not land on a tool result leaves both sides closed. */
  lemma {:induction false} ClosedSplit(msgs: seq<Message>, j: nat)
    requires Closed(msgs) && j <= |msgs| && (j < |msgs| ==> msgs[j].role != Tool)
    ensures Closed(msgs[..j]) && Closed(msgs[j..])
    decreases |msgs|
  {
    hide Answers;
    if j == 0 {
      assert msgs[..j] == [] && msgs[j..] == msgs;
    } else {
      var n := |msgs[0].calls|;
      if j < 1 + n {
        AnswersAreResults(msgs[0].calls, msgs[1..1 + n], j - 1);
      }
      PartsOfCut(msgs, 1 + n, j);
      ClosedSplit(msgs[1 + n..], j - 1 - n);
    }
  }

  /** The converse: a cut on a tool result leaves neither side closed. */
  lemma {:induction false} ClosedCutOnlyBetweenRounds(msgs: seq<Message>, j: nat)
    requires Closed(msgs) && j < |msgs| && msgs[j].role == Tool
    ensures !Closed(msgs[..j]) && !Closed(msgs[j..])
    decreases |msgs|
  {
    assert msgs[j..][0] == msgs[j];
    var n := |msgs[0].calls|;
    if j < 1 + n {
      assert msgs[..j][0] == msgs[0];
    } else {
      ClosedCutOnlyBetweenRounds(msgs[1 + n..], j - 1 - n);
      assert msgs[..j][1 + n..] == msgs[1 + n..][..j - 1 - n];
    }
  }

  /** Dropping empty answers keeps rounds whole: they make no call and answer none. */
  lemma {:induction false} ClosedReplayable(msgs: seq<Message>)
    requires Closed(msgs)
    ensures Closed(Replayable(msgs))
    decreases |msgs|
  {
    if msgs != [] {
      var n := |msgs[0].calls|;
      ClosedReplayable(msgs[1 + n..]);
      var round := msgs[..1 + n];
      assert msgs == round + msgs[1 + n..];
      ReplayableConcat(round, msgs[1 + n..]);
      if EmptyAnswer(msgs[0]) {
        assert round == [msgs[0]];
        assert Replayable(round) == Replayable(round[1..]);
        assert Replayable(msgs) == Replayable(msgs[1 + n..]);
      } else {
        forall i | 0 <= i < |round| ensures !EmptyAnswer(round[i]) {
          if i > 0 {
            assert msgs[1..1 + n][i - 1] == round[i];
          }
        }
        ReplayableKeepsAll(round);
        RoundThenClosed(round, Replayable(msgs[1 + n..]));
      }
    }
  }

  lemma RoundThenClosed(round: seq<Message>, rest: seq<Message>)
    requires round != [] && round[0].role != Tool && Answers(round[0].calls, round[1..])
    requires Closed(rest)
    ensures Closed(round + rest)
  {
    var n := |round[0].calls|;
    assert (round + rest)[1..1 + n] == round[1..];
    assert (round + rest)[1 + n..] == rest;
  }

  /** The prefix of a summary message. */
  const SUMMARY_PREFIX: string := "Summary of previous conversation:\n"

  /** A cursor is text. Either it reads as a decimal number, `spelling` telling apart the
      ways to write it (7, +7, 07; 0 for the plain one), or it does not. */
  datatype Cursor = Numeral(value: int, spelling: nat) | Junk(text: string)

  /** What replaces the front of a log, up to the message at `upTo`. */
  datatype Snapshot = Snapshot(summary: string, pinned: seq<Message>, upTo: Cursor)

  /** A snapshot as a conversation shows it. */
  function SummaryMessages(s: Snapshot): seq<Message> {
    [UserMessage([TextPart(SUMMARY_PREFIX + s.summary)])] + s.pinned
  }

  /** A reader of the conversation finds the whole summary, as the words of the user, and after it
      every pinned message as it was. */
  lemma SummaryIsRead(s: Snapshot)
    ensures var shown := SummaryMessages(s);
            && |shown| == 1 + |s.pinned| && shown[1..] == s.pinned
            && shown[0].role == User && shown[0].calls == []
            && TextContent(shown[0].parts) == "Summary of previous conversation:\n" + s.summary
  {
    TextOfOne(TextPart(SUMMARY_PREFIX + s.summary));
  }

  lemma TextOfOne(p: Part)
    ensures TextContent([p]) == if p.kind == Text then p.text else ""
  {
    assert [p][..0] == [];
  }

  /** The texts of the text parts, in order. */
  function Texts(parts: seq<Part>): seq<string> {
    if parts == [] then []
    else if parts[0].kind != Text then Texts(parts[1..])
    else [parts[0].text] + Texts(parts[1..])
  }

  function Lines(texts: seq<string>): string {
    if texts == [] then "" else "\n" + texts[0] + Lines(texts[1..])
  }

  /** On lines of their own, from the first that is not empty on. */
  function FromFirst(texts: seq<string>): string {
    if texts == [] then "" else if texts[0] == "" then FromFirst(texts[1..]) else texts[0] + Lines(texts[1..])
  }

  /** A message's text is its text parts in order, on lines of their own. */
  lemma {:induction false} TextContentReads(parts: seq<Part>)
    ensures TextContent(parts) == FromFirst(Texts(parts))
  {
    if parts != [] {
      var front, p := parts[..|parts| - 1], parts[|parts| - 1];
      TextContentReads(front);
      TextsAppend(front, p);
      assert front + [p] == parts;
      if p.kind == Text {
        FromFirstAppend(Texts(front), p.text);
      } else {
        assert Texts(front) + [] == Texts(front);
      }
    }
  }

  lemma {:induction false} TextsAppend(parts: seq<Part>, p: Part)
    ensures Texts(parts + [p]) == Texts(parts) + if p.kind == Text then [p.text] else []
  {
    if parts == [] {
      assert [] + [p] == [p];
    } else {
      assert (parts + [p])[1..] == parts[1..] + [p];
      TextsAppend(parts[1..], p);
    }
  }

  lemma {:induction false} LinesAppend(texts: seq<string>, text: string)
    ensures Lines(texts + [text]) == Lines(texts) + "\n" + text
  {
    if texts == [] {
      assert [] + [text] == [text] && Lines([]) == "" && [text][1..] == [];
    } else {
      assert (texts + [text])[1..] == texts[1..] + [text];
      LinesAppend(texts[1..], text);
    }
  }

  lemma {:induction false} FromFirstAppend(texts: seq<string>, text: string)
    ensures FromFirst(texts + [text]) == if FromFirst(texts) == "" then text else FromFirst(texts) + "\n" + text
  {
    if texts == [] {
      assert [] + [text] == [text] && [text][1..] == [];
    } else {
      assert (texts + [text])[1..] == texts[1..] + [text];
      if texts[0] == "" {
        FromFirstAppend(texts[1..], text);
      } else {
        LinesAppend(texts[1..], text);
      }
    }
  }
}
