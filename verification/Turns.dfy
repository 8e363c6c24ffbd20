/** What an iteration adds to a conversation (agent/agent.go,
    `handleAgentIteration` and `processToolCalls`), and what saving it keeps true of the log. */
module Turns {
  import opened Messages
  import opened Alignment
  import Compact

  datatype ToolOutcome = Returned(parts: seq<Part>) | ToolFailed(reason: string) | StopRun(reason: string)

  /** How a model call ends: it fails (`tooLong` for a prompt past the context window), or the
      model answers. `cut` tells of an answer that hit the output limit; `usage` is the
      prompt and output tokens, when reported; `tools` is how each tool call ends. */
  datatype Reply =
    | CallFailed(tooLong: bool)
    | Answered(parts: seq<Part>, calls: seq<ToolCall>, cut: bool, usage: Option<nat>, tools: nat -> ToolOutcome)

  /** One turn of the environment: whether the run is cancelled before the iteration, how the
      model call ends, and whether the run is cancelled by the time it failed. */
  datatype Step = Step(cancelled: bool, reply: Reply, cancelledAfter: bool)

  const TRUNCATED_TOOL_CALL_RESULT: string :=
    "The call's arguments were cut off at the output limit and it was not run. "
    + "Retry with smaller arguments, for example write the file in several edits."

  function Answer(reply: Reply): Message
    requires reply.Answered?
  {
    Message(Assistant, reply.parts, reply.calls, "", false)
  }

  function ResultMessage(call: ToolCall, outcome: ToolOutcome): Message {
    match outcome
    case Returned(parts) => ToolResult(call.id, parts, false)
    case ToolFailed(reason) =>
      ToolResult(call.id, [TextPart("Error executing tool '" + call.name + "': " + reason)], true)
    case StopRun(reason) => ToolResult(call.id, [TextPart("The run was stopped: " + reason)], false)
  }

  function ResultAt(reply: Reply, i: nat): Message
    requires reply.Answered? && i < |reply.calls|
  {
    if reply.cut then ToolResult(reply.calls[i].id, [TextPart(TRUNCATED_TOOL_CALL_RESULT)], true)
    else ResultMessage(reply.calls[i], reply.tools(i))
  }

  /** The answer and, in call order, the result of each of its tool calls. */
  function Round(reply: Reply): seq<Message> {
    match reply
    case CallFailed(_) => []
    case Answered(_, calls, _, _, _) =>
      [Answer(reply)] + seq(|calls|, i requires 0 <= i < |calls| => ResultAt(reply, i))
  }

  /** What the i-th result of a round says: under its call's id, what the tool returned, or how it
      failed or stopped the run; that nothing was run, when the answer was cut. */
  predicate ResultSays(reply: Reply, i: nat, m: Message)
    requires reply.Answered? && i < |reply.calls|
  {
    && m.role == Tool && m.callID == reply.calls[i].id && m.calls == []
    && (m.toolError <==> reply.cut || reply.tools(i).ToolFailed?)
    && if reply.cut then TextContent(m.parts) == TRUNCATED_TOOL_CALL_RESULT
       else
         match reply.tools(i)
         case Returned(parts) => m.parts == parts
         case ToolFailed(reason) =>
           TextContent(m.parts) == "Error executing tool '" + reply.calls[i].name + "': " + reason
         case StopRun(reason) => TextContent(m.parts) == "The run was stopped: " + reason
  }

  /** A round is the answer, with its own parts and calls, then what became of each call. */
  lemma RoundSays(reply: Reply)
    requires reply.Answered?
    ensures var round := Round(reply);
            && |round| == 1 + |reply.calls|
            && round[0] == Message(Assistant, reply.parts, reply.calls, "", false)
            && forall i | 0 <= i < |reply.calls| :: ResultSays(reply, i, round[1..][i])
  {
    hide ResultSays, ResultAt;
    forall i: nat | i < |reply.calls|
      ensures ResultSays(reply, i, ResultAt(reply, i))
    {
      ResultAtSays(reply, i);
    }
    assert Round(reply)[1..] == seq(|reply.calls|, i requires 0 <= i < |reply.calls| => ResultAt(reply, i));
  }

  lemma ResultAtSays(reply: Reply, i: nat)
    requires reply.Answered? && i < |reply.calls|
    ensures ResultSays(reply, i, ResultAt(reply, i))
  {
    hide TextContent;
    if ResultAt(reply, i).parts != [] {
      TextOfOne(ResultAt(reply, i).parts[0]);
    }
  }

  lemma RoundIsClosed(reply: Reply)
    ensures Closed(Round(reply))
  {
    if reply.Answered? {
      var round := Round(reply);
      RoundThenClosed(round, []);
      assert round + [] == round;
    }
  }

  /** Only the answer of a round can be empty, and only in a round without calls. */
  lemma RoundWithCallsReplays(reply: Reply)
    requires reply.Answered? && reply.calls != []
    ensures NoEmptyAnswer(Round(reply))
  {
  }

  predicate BlankText(p: Part) {
    p.kind == Text && Blank(p.text)
  }

  function NonBlank(parts: seq<Part>): seq<Part> {
    if parts == [] then []
    else if BlankText(parts[0]) then NonBlank(parts[1..])
    else [parts[0]] + NonBlank(parts[1..])
  }

  /** Input is kept part by part: all but text that says nothing. */
  lemma {:induction false} InputIsKept(a: seq<Part>, b: seq<Part>)
    ensures NonBlank(a + b) == NonBlank(a) + NonBlank(b)
    ensures |a| == 1 ==> NonBlank(a) == if a[0].kind == Text && !Written(a[0].text) then [] else a
  {
    hide Blank, Written;
    if a == [] {
      assert a + b == b;
    } else {
      BlankIsUnwritten(a[0].text);
      assert (a + b)[1..] == a[1..] + b;
      InputIsKept(a[1..], b);
      assert |a| == 1 ==> a[1..] == [];
    }
  }

  /** The user message of a run; none for an input with nothing but blank text. */
  function UserTurn(input: seq<Part>): seq<Message> {
    if NonBlank(input) == [] then [] else [UserMessage(NonBlank(input))]
  }

  /** What a run adds to the conversation in its first `n` iterations. */
  function Transcript(input: seq<Part>, script: seq<Step>, n: nat): seq<Message>
    requires n <= |script|
  {
    if n == 0 then UserTurn(input) else Transcript(input, script, n - 1) + Round(script[n - 1].reply)
  }

  lemma TranscriptStep(input: seq<Part>, script: seq<Step>, n: nat)
    requires n < |script|
    ensures Transcript(input, script, n + 1) == Transcript(input, script, n) + Round(script[n].reply)
  {
  }

  lemma TranscriptStart(input: seq<Part>, script: seq<Step>)
    ensures Transcript(input, script, 0) == UserTurn(input)
  {
  }

  /** The snapshot stands for the first `covered` messages of the log: what a run loads after
      them lines up, one for one, with the `tail` of the session. */
  ghost predicate StandsFor(full: seq<Message>, covered: nat, tail: seq<Message>) {
    covered <= |full| && Aligned(Loads(full, covered), Replayable(tail))
  }

  lemma TurnStartsWell(turn: seq<Message>)
    requires Closed(turn)
    ensures Closed(Replayable(turn)) && NoEmptyAnswer(Replayable(turn))
    ensures Replayable(Replayable(turn)) == Replayable(turn)
    ensures Replayable(turn) != [] ==> Replayable(turn)[0].role != Tool
  {
    ClosedReplayable(turn);
    ReplayableKeepsAll(turn);
    ReplayableKeepsAll(Replayable(turn));
  }

  lemma SaveKeepsStanding(full: seq<Message>, covered: nat, tail: seq<Message>, turn: seq<Message>)
    requires StandsFor(full, covered, tail) && Closed(turn)
    ensures StandsFor(full + Replayable(turn), covered, tail + turn)
  {
    TurnStartsWell(turn);
    LoadsAppend(full, covered, Replayable(turn));
    ReplayableConcat(tail, turn);
    AlignedConcat(Loads(full, covered), Replayable(turn), Replayable(tail), Replayable(turn));
  }

  lemma AlignedConcat(a: seq<Message>, b: seq<Message>, c: seq<Message>, d: seq<Message>)
    requires Aligned(a, c) && Aligned(b, d)
    ensures Aligned(a + b, c + d)
  {
    forall i | 0 <= i < |a + b|
      ensures Matches((a + b)[i], (c + d)[i])
    {
      if i < |a| {
        assert Matches(a[i], c[i]);
      } else {
        assert Matches(b[i - |a|], d[i - |a|]);
      }
    }
  }

  lemma SaveKeepsLoadsClosed(full: seq<Message>, covered: nat, turn: seq<Message>)
    requires covered <= |full| && Closed(Loads(full, covered)) && Closed(turn)
    ensures Closed(Loads(full + Replayable(turn), covered))
  {
    TurnStartsWell(turn);
    LoadsAppend(full, covered, Replayable(turn));
    ClosedConcat(Loads(full, covered), Replayable(turn));
  }

  lemma SaveKeepsReplayClosed(full: seq<Message>, turn: seq<Message>)
    requires Closed(Replayable(full)) && Closed(turn)
    ensures Closed(Replayable(full + Replayable(turn)))
  {
    TurnStartsWell(turn);
    ReplayableConcat(full, Replayable(turn));
    ClosedConcat(Replayable(full), Replayable(turn));
  }

  // ---- compactions

  /** The kept messages still say what the input's last messages said: a compactor may shorten
      tool results only. */
  ghost predicate SameContent(kept: seq<Message>, orig: seq<Message>) {
    && Aligned(orig, kept)
    && forall i | 0 <= i < |kept| :: EmptyAnswer(kept[i]) == EmptyAnswer(orig[i])
  }

  function KeptOf(c: Compact.Compaction, input: Compact.CompactInput): seq<Message>
    requires |c.kept| <= |input.messages|
  {
    input.messages[|input.messages| - |c.kept|..]
  }

  function OlderOf(c: Compact.Compaction, input: Compact.CompactInput): seq<Message>
    requires |c.kept| <= |input.messages|
  {
    input.messages[..|input.messages| - |c.kept|]
  }

  type Compactor = (nat, Compact.CompactInput) -> Compact.CompactResult

  ghost predicate Faithful(compactor: Compactor) {
    forall n, input :: FaithfulOn(compactor(n, input), input)
  }

  ghost predicate FaithfulOn(r: Compact.CompactResult, input: Compact.CompactInput) {
    r.Compacted? && Compact.CheckOf(r.compaction, input).Valid? ==>
      |r.compaction.kept| <= |input.messages| && SameContent(r.compaction.kept, KeptOf(r.compaction, input))
  }

  lemma ClipSaysTheSame(msgs: seq<Message>)
    ensures SameContent(Compact.ClipAll(msgs), msgs)
  {
    forall i | 0 <= i < |msgs|
      ensures Matches(msgs[i], Compact.ClipAll(msgs)[i])
    {
    }
  }

  /** The SummaryCompactor whose n-th compaction is made with `config(n)`. */
  function SummaryCompactor(config: nat -> Compact.Config): Compactor {
    (n: nat, input: Compact.CompactInput) => Compact.Summarized(config(n), input)
  }

  /** A SummaryCompactor shortens nothing but tool results, whatever its model writes. */
  lemma SummaryIsFaithful(config: nat -> Compact.Config)
    ensures Faithful(SummaryCompactor(config))
  {
    forall n: nat, input: Compact.CompactInput
      ensures FaithfulOn(Compact.Summarized(config(n), input), input)
    {
      if Compact.Summarized(config(n), input).Compacted? {
        var split := Compact.SummarySplit(config(n), input);
        ClipSaysTheSame(input.messages[split..]);
      }
    }
  }

  /** An accepted compaction cuts whole rounds from whole rounds. */
  lemma CheckedKeepsRounds(c: Compact.Compaction, input: Compact.CompactInput)
    requires Compact.CheckOf(c, input).Valid? && Closed(input.messages)
    ensures |c.kept| <= |input.messages|
    ensures input.messages == OlderOf(c, input) + KeptOf(c, input)
    ensures Closed(OlderOf(c, input)) && Closed(KeptOf(c, input)) && Closed(c.kept)
  {
    hide Closed, Compact.CheckOf, Compact.SameToolCalls;
    Compact.CheckAccepts(c, input);
    var at := |input.messages| - |c.kept|;
    if c.kept != [] {
      assert Compact.LinesUp(c.kept[0], input.messages[at]);
    }
    assert forall i | 0 <= i < |c.kept| :: Compact.LinesUp(c.kept[i], KeptOf(c, input)[i]);
    ClosedSplit(input.messages, at);
    Compact.ClosedLinedUp(KeptOf(c, input), c.kept);
  }

  /** The older part of an accepted compaction is followed by no tool result. */
  lemma CheckedCut(c: Compact.Compaction, input: Compact.CompactInput)
    requires Compact.CheckOf(c, input).Valid?
    ensures |c.kept| <= |input.messages|
    ensures input.messages == OlderOf(c, input) + KeptOf(c, input)
    ensures var at := |input.messages| - |c.kept|; at < |input.messages| ==> input.messages[at].role != Tool
    ensures c.kept != [] ==> OlderOf(c, input) != []
  {
    Compact.CheckAccepts(c, input);
    if c.kept != [] {
      assert Compact.LinesUp(c.kept[0], input.messages[|input.messages| - |c.kept|]);
    }
  }

  lemma NoEmptyPart(msgs: seq<Message>, at: nat)
    requires NoEmptyAnswer(msgs) && at <= |msgs|
    ensures Replayable(msgs) == msgs && Replayable(msgs[..at]) == msgs[..at] && Replayable(msgs[at..]) == msgs[at..]
    ensures NoEmptyAnswer(msgs[at..])
  {
    ReplayableKeepsAll(msgs);
    ReplayableKeepsAll(msgs[..at]);
    ReplayableKeepsAll(msgs[at..]);
  }

  lemma SameContentReplays(kept: seq<Message>, orig: seq<Message>)
    requires SameContent(kept, orig) && NoEmptyAnswer(orig)
    ensures NoEmptyAnswer(kept) && Replayable(kept) == kept
  {
    ReplayableKeepsAll(kept);
  }
}
