/** Translating a conversation for Anthropic (llm/anthropic/anthropic.go, `messagesToAnthropic`):
    consecutive messages of one role become one turn, and tool rounds stay whole. */
module Anthropic {
  import opened Messages
  import opened Merging

  /** A content block; `content` of a tool result are the parts it keeps. */
  datatype Block =
    | TextBlock(text: string)
    | ImageBlock(source: string)
    | ThinkingBlock(signature: string, text: string)
    | RedactedBlock(data: string)
    | ToolUse(id: string, name: string, args: string)
    | ToolResultBlock(toolUseID: string, content: seq<Block>, isError: bool)

  datatype Error = ToolMessageMissingToolCallID | UnsupportedRole(name: string)

  datatype Result = Ok(system: seq<string>, turns: seq<Turn<Block>>) | Err(error: Error)

  /** The id made up for the j-th call of message i, when it has none. */
  type NewID = (nat, nat) -> string

  // ---- one message

  function TrimLeft(s: string): string {
    if s == "" || !IsSpace(s[0]) then s else TrimLeft(s[1..])
  }

  function TrimRight(s: string): string {
    if s == "" || !IsSpace(s[|s| - 1]) then s else TrimRight(s[..|s| - 1])
  }

  function Trim(s: string): string {
    TrimRight(TrimLeft(s))
  }

  lemma {:induction false} TrimLeftBlank(s: string)
    ensures TrimLeft(s) == "" <==> Blank(s)
    ensures TrimLeft(s) != "" ==> !IsSpace(TrimLeft(s)[0])
  {
    if s != "" && IsSpace(s[0]) {
      TrimLeftBlank(s[1..]);
      assert s == [s[0]] + s[1..];
    }
  }

  lemma {:induction false} TrimRightStarts(s: string)
    ensures TrimRight(s) <= s
    ensures s != "" && !IsSpace(s[0]) ==> TrimRight(s) != ""
  {
    if s != "" && IsSpace(s[|s| - 1]) {
      TrimRightStarts(s[..|s| - 1]);
    }
  }

  /** A trimmed string is empty exactly when the string is blank. */
  lemma TrimBlank(s: string)
    ensures Trim(s) == "" <==> Blank(s)
  {
    TrimLeftBlank(s);
    TrimRightStarts(TrimLeft(s));
  }

  lemma BlankConcat(a: string, b: string)
    ensures Blank(a + b) <==> Blank(a) && Blank(b)
  {
    hide IsSpace;
    assert forall i | 0 <= i < |a| :: (a + b)[i] == a[i];
    assert forall i | 0 <= i < |b| :: (a + b)[|a| + i] == b[i];
  }

  lemma {:induction false} TrimLeftIs(s: string) returns (k: nat)
    ensures k <= |s| && TrimLeft(s) == s[k..] && Blank(s[..k])
    ensures k < |s| ==> !IsSpace(s[k])
  {
    if s != "" && IsSpace(s[0]) {
      var j := TrimLeftIs(s[1..]);
      k := j + 1;
      assert s[1..][j..] == s[k..];
      assert s[..k] == [s[0]] + s[1..][..j];
      BlankConcat([s[0]], s[1..][..j]);
    } else {
      k := 0;
    }
  }

  lemma {:induction false} TrimRightIs(s: string) returns (k: nat)
    ensures k <= |s| && TrimRight(s) == s[..k] && Blank(s[k..])
    ensures k > 0 ==> !IsSpace(s[k - 1])
  {
    if s != "" && IsSpace(s[|s| - 1]) {
      var front := s[..|s| - 1];
      k := TrimRightIs(front);
      assert front[..k] == s[..k];
      assert s[k..] == front[k..] + [s[|s| - 1]];
      BlankConcat(front[k..], [s[|s| - 1]]);
    } else {
      k := |s|;
    }
  }

  /** Trimming takes away white space at both ends, all of it and nothing else. */
  lemma TrimIs(s: string) returns (before: string, after: string)
    ensures s == before + Trim(s) + after && Blank(before) && Blank(after)
    ensures Trim(s) != "" ==> Trim(s)[0] !in SPACES && Trim(s)[|Trim(s)| - 1] !in SPACES
  {
    var k := TrimLeftIs(s);
    var n := TrimRightIs(TrimLeft(s));
    before, after := s[..k], TrimLeft(s)[n..];
    assert Trim(s) == TrimLeft(s)[..n];
    if Trim(s) != "" {
      SpacesAre(Trim(s)[0]);
      SpacesAre(Trim(s)[|Trim(s)| - 1]);
    }
  }

  /** The blocks of user content. */
  function ContentBlocks(parts: seq<Part>): seq<Block> {
    if parts == [] then [] else ContentBlocks(parts[..|parts| - 1]) + ContentBlock(parts[|parts| - 1])
  }

  function ContentBlock(p: Part): seq<Block> {
    match p.kind
    case Text => if Blank(p.text) then [] else [TextBlock(p.text)]
    case ImageURL => [ImageBlock(p.image)]
    case ImageBase64 => [ImageBlock(p.image)]
    case _ => []
  }

  function ThinkingOf(p: Part): seq<Block> {
    match p.kind
    case Reasoning => if Blank(p.text) then [] else [ThinkingBlock(p.signature, p.text)]
    case RedactedReasoning => if p.text == "" then [] else [RedactedBlock(p.text)]
    case _ => []
  }

  function ThinkingBlocks(parts: seq<Part>): seq<Block> {
    if parts == [] then [] else ThinkingBlocks(parts[..|parts| - 1]) + ThinkingOf(parts[|parts| - 1])
  }

  function TextBlocks(parts: seq<Part>): seq<Block> {
    if parts == [] then []
    else
      var p := parts[|parts| - 1];
      TextBlocks(parts[..|parts| - 1]) + if p.kind == Text && !Blank(p.text) then [TextBlock(p.text)] else []
  }

  function UseOf(call: ToolCall, i: nat, j: nat, newID: NewID): Block {
    ToolUse(if Blank(call.id) then newID(i, j) else Trim(call.id), call.name, call.args)
  }

  function UsesOf(calls: seq<ToolCall>, i: nat, newID: NewID): seq<Block> {
    seq(|calls|, j requires 0 <= j < |calls| => UseOf(calls[j], i, j, newID))
  }

  /** Thinking first, then text, then the calls. */
  function AssistantBlocks(m: Message, i: nat, newID: NewID): seq<Block> {
    ThinkingBlocks(m.parts) + TextBlocks(m.parts) + UsesOf(m.calls, i, newID)
  }

  function ResultContent(parts: seq<Part>): seq<Block> {
    if parts == [] then [] else ResultContent(parts[..|parts| - 1]) + ResultPart(parts[|parts| - 1])
  }

  function ResultPart(p: Part): seq<Block> {
    match p.kind
    case Text => [TextBlock(p.text)]
    case ImageURL => [ImageBlock(p.image)]
    case ImageBase64 => [ImageBlock(p.image)]
    case _ => []
  }

  function ResultBlock(m: Message): Block {
    ToolResultBlock(Trim(m.callID), ResultContent(m.parts), m.toolError)
  }

  function ErrorOf(m: Message): Option<Error> {
    match m.role
    case Tool => if Blank(m.callID) then Some(ToolMessageMissingToolCallID) else None
    case Other(name) => Some(UnsupportedRole(name))
    case _ => None
  }

  /** What the i-th message adds: blocks under a role. A system message adds none. */
  function Added(m: Message, i: nat, newID: NewID): Turn<Block> {
    match m.role
    case User => Turn(false, ContentBlocks(m.parts))
    case Assistant => Turn(true, AssistantBlocks(m, i, newID))
    case Tool => Turn(false, [ResultBlock(m)])
    case _ => Turn(false, [])
  }

  function AddedAll(msgs: seq<Message>, newID: NewID): seq<Turn<Block>> {
    seq(|msgs|, i requires 0 <= i < |msgs| => Added(msgs[i], i, newID))
  }

  function SystemOf(msgs: seq<Message>): seq<string> {
    if msgs == [] then []
    else
      var m := msgs[|msgs| - 1];
      SystemOf(msgs[..|msgs| - 1]) +
      if m.role == System && !Blank(TextContent(m.parts)) then [Trim(TextContent(m.parts))] else []
  }

  // ---- what the blocks say

  lemma {:induction false} ContentConcat(a: seq<Part>, b: seq<Part>)
    ensures ContentBlocks(a + b) == ContentBlocks(a) + ContentBlocks(b)
  {
    hide ContentBlock;
    if b == [] {
      assert a + b == a;
    } else {
      var last := |b| - 1;
      assert (a + b)[..|a| + last] == a + b[..last];
      ContentConcat(a, b[..last]);
    }
  }

  lemma {:induction false} ThinkingConcat(a: seq<Part>, b: seq<Part>)
    ensures ThinkingBlocks(a + b) == ThinkingBlocks(a) + ThinkingBlocks(b)
  {
    hide ThinkingOf;
    if b == [] {
      assert a + b == a;
    } else {
      var last := |b| - 1;
      assert (a + b)[..|a| + last] == a + b[..last];
      ThinkingConcat(a, b[..last]);
    }
  }

  lemma {:induction false} TextConcat(a: seq<Part>, b: seq<Part>)
    ensures TextBlocks(a + b) == TextBlocks(a) + TextBlocks(b)
  {
    hide Blank;
    if b == [] {
      assert a + b == a;
    } else {
      var last := |b| - 1;
      assert (a + b)[..|a| + last] == a + b[..last];
      TextConcat(a, b[..last]);
    }
  }

  lemma {:induction false} ResultConcat(a: seq<Part>, b: seq<Part>)
    ensures ResultContent(a + b) == ResultContent(a) + ResultContent(b)
  {
    hide ResultPart;
    if b == [] {
      assert a + b == a;
    } else {
      var last := |b| - 1;
      assert (a + b)[..|a| + last] == a + b[..last];
      ResultConcat(a, b[..last]);
    }
  }

  /** Blocks of parts are made part by part, in order. */
  lemma PartsConcat(a: seq<Part>, b: seq<Part>)
    ensures ContentBlocks(a + b) == ContentBlocks(a) + ContentBlocks(b)
    ensures ThinkingBlocks(a + b) == ThinkingBlocks(a) + ThinkingBlocks(b)
    ensures TextBlocks(a + b) == TextBlocks(a) + TextBlocks(b)
    ensures ResultContent(a + b) == ResultContent(a) + ResultContent(b)
  {
    hide *;
    ContentConcat(a, b);
    ThinkingConcat(a, b);
    TextConcat(a, b);
    ResultConcat(a, b);
  }

  /** What one part gives. A user sends written text and images; an answer, its reasoning with the
      signature and what was redacted, and written text; a result, all its text and images. */
  lemma PartSends(p: Part)
    ensures ContentBlocks([p]) == (if p.kind == Text && Written(p.text) then [TextBlock(p.text)]
                                   else if p.kind in {ImageURL, ImageBase64} then [ImageBlock(p.image)] else [])
    ensures ThinkingBlocks([p]) == (if p.kind == Reasoning && Written(p.text) then [ThinkingBlock(p.signature, p.text)]
                                    else if p.kind == RedactedReasoning && p.text != "" then [RedactedBlock(p.text)]
                                    else [])
    ensures TextBlocks([p]) == if p.kind == Text && Written(p.text) then [TextBlock(p.text)] else []
    ensures ResultContent([p]) == (if p.kind == Text then [TextBlock(p.text)]
                                   else if p.kind in {ImageURL, ImageBase64} then [ImageBlock(p.image)] else [])
  {
    hide Blank, Written;
    BlankIsUnwritten(p.text);
    assert [p][..0] == [];
  }

  /** An answer's turn: its thinking, its text, then a block for every call, which keeps the call's name
      and arguments, and its id, trimmed, unless there is none. */
  lemma AssistantSends(m: Message, i: nat, newID: NewID)
    ensures var blocks, n := AssistantBlocks(m, i, newID), |m.calls|;
            && |blocks| >= n
            && blocks[..|blocks| - n] == ThinkingBlocks(m.parts) + TextBlocks(m.parts)
            && forall j | 0 <= j < n ::
              blocks[|blocks| - n + j] ==
              ToolUse(if Written(m.calls[j].id) then Trim(m.calls[j].id) else newID(i, j),
                      m.calls[j].name, m.calls[j].args)
  {
    hide Blank, Written, Trim, ThinkingBlocks, TextBlocks;
    forall j | 0 <= j < |m.calls|
      ensures Blank(m.calls[j].id) <==> !Written(m.calls[j].id)
    {
      BlankIsUnwritten(m.calls[j].id);
    }
    var blocks := AssistantBlocks(m, i, newID);
    assert blocks[|blocks| - |m.calls|..] == UsesOf(m.calls, i, newID);
  }

  /** A result's block names the call it answers, says whether the tool failed, and keeps its content;
      only a result without a call, or a message of an unknown role, is an error. */
  lemma ResultSends(m: Message)
    ensures ResultBlock(m).toolUseID == Trim(m.callID) && ResultBlock(m).isError == m.toolError
    ensures ResultBlock(m).content == ResultContent(m.parts)
    ensures ErrorOf(m) == Some(ToolMessageMissingToolCallID) <==> m.role == Tool && !Written(m.callID)
    ensures forall name :: ErrorOf(m) == Some(UnsupportedRole(name)) <==> m.role == Other(name)
    ensures ErrorOf(m).Some? ==> ErrorOf(m).value == ToolMessageMissingToolCallID || m.role.Other?
  {
    hide Blank, Written, Trim, ResultContent;
    BlankIsUnwritten(m.callID);
  }

  /** System messages are sent apart, in order, trimmed, those that say nothing left out. */
  lemma {:induction false} SystemSends(a: seq<Message>, b: seq<Message>)
    ensures SystemOf(a + b) == SystemOf(a) + SystemOf(b)
    ensures |b| == 1 && b[0].role == System && Written(TextContent(b[0].parts)) ==>
              SystemOf(b) == [Trim(TextContent(b[0].parts))]
    ensures |b| == 1 && !(b[0].role == System && Written(TextContent(b[0].parts))) ==> SystemOf(b) == []
  {
    hide TextContent, Trim, Blank, Written;
    if b == [] {
      assert a + b == a;
    } else {
      var last := |b| - 1;
      BlankIsUnwritten(TextContent(b[last].parts));
      assert (a + b)[..|a| + last] == a + b[..last];
      SystemSends(a, b[..last]);
      assert |b| == 1 ==> b[..last] == [];
    }
  }

  // ---- the loop

  /** The turns emitted so far and the one being collected. */
  class Translation {
    var out: seq<Turn<Block>>
    var pendingModel: bool
    var pending: seq<Block>

    /** The turns, the pending one flushed. */
    function Turns(): seq<Turn<Block>>
      reads this
    {
      if pending == [] then out else out + [Turn(pendingModel, pending)]
    }

    /** The pending turn differs in role from the last emitted. */
    ghost predicate Valid()
      reads this
    {
      Alternates(Turns()) && (pending == [] ==> out == [])
    }

    constructor ()
      ensures Valid() && Turns() == []
    {
      out, pendingModel, pending := [], false, [];
    }

    method Flush()
      modifies this
      ensures out == old(Turns()) && pending == []
    {
      if pending == [] {
        return;
      }
      out := out + [Turn(pendingModel, pending)];
      pending := [];
    }

    /** Adds a message's blocks, flushing first when the role changes. */
    method Add(model: bool, blocks: seq<Block>)
      requires Valid()
      modifies this
      ensures Valid() && Turns() == Join(old(Turns()), model, blocks)
    {
      JoinKeeps(Turns(), model, blocks);
      if blocks == [] {
        return;
      }
      if pending != [] && pendingModel != model {
        Flush();
      }
      assert pending == [] || pendingModel == model;
      assert [] + blocks == blocks;
      ghost var emitted, sofar := out, pending;
      pendingModel := model;
      pending := pending + blocks;
      JoinPending(emitted, model, sofar, blocks);
    }
  }

  lemma JoinPending(out: seq<Turn<Block>>, model: bool, pending: seq<Block>, blocks: seq<Block>)
    requires blocks != []
    ensures pending != [] ==> Join(out + [Turn(model, pending)], model, blocks) == out + [Turn(model, pending + blocks)]
  {
  }

  method MessagesToAnthropic(msgs: seq<Message>, newID: NewID) returns (r: Result)
    ensures r.Err? <==> exists i | 0 <= i < |msgs| :: ErrorOf(msgs[i]).Some?
    ensures r.Err? ==> exists i | 0 <= i < |msgs| ::
                         ErrorOf(msgs[i]) == Some(r.error) && forall k | 0 <= k < i :: ErrorOf(msgs[k]).None?
    ensures r.Ok? ==> r.system == SystemOf(msgs) && r.turns == Merged(AddedAll(msgs, newID))
  {
    hide ContentBlocks, AssistantBlocks, ResultBlock, TextContent, Trim, Merged, Join, Blank, Alternates;
    NothingAdded(msgs, newID);
    var t := new Translation();
    var system: seq<string> := [];
    for i := 0 to |msgs|
      invariant fresh(t) && t.Valid() && t.Turns() == Merged(AddedAll(msgs[..i], newID))
      invariant system == SystemOf(msgs[..i])
      invariant forall k | 0 <= k < i :: ErrorOf(msgs[k]).None?
    {
      var m := msgs[i];
      AddedStep(msgs, i, newID);
      assert msgs[..i + 1][..i] == msgs[..i];
      match m.role
      case System =>
        var text := TextContent(m.parts);
        if !Blank(text) {
          system := system + [Trim(text)];
        }
      case User =>
        t.Add(false, ContentBlocks(m.parts));
      case Assistant =>
        t.Add(true, AssistantBlocks(m, i, newID));
      case Tool =>
        if Blank(m.callID) {
          return Err(ToolMessageMissingToolCallID);
        }
        t.Add(false, [ResultBlock(m)]);
      case Other(name) =>
        return Err(UnsupportedRole(name));
    }
    assert msgs[..|msgs|] == msgs;
    t.Flush();
    return Ok(system, t.out);
  }

  lemma NothingAdded(msgs: seq<Message>, newID: NewID)
    ensures Merged(AddedAll(msgs[..0], newID)) == []
  {
  }

  lemma AddedStep(msgs: seq<Message>, i: nat, newID: NewID)
    requires i < |msgs|
    ensures var added := Added(msgs[i], i, newID);
            Merged(AddedAll(msgs[..i + 1], newID)) ==
            Join(Merged(AddedAll(msgs[..i], newID)), added.model, added.blocks)
    ensures Added(msgs[i], i, newID).blocks == [] ==>
              Merged(AddedAll(msgs[..i + 1], newID)) == Merged(AddedAll(msgs[..i], newID))
  {
    assert AddedAll(msgs[..i + 1], newID)[..i] == AddedAll(msgs[..i], newID);
  }

  // ---- what the turns keep

  /** The roles strictly alternate, no turn is empty, and the turns hold each message's blocks
      under its role, in order: none is lost, moved or sent under another role. Only these turns do. */
  lemma TurnsKeepEveryBlock(msgs: seq<Message>, newID: NewID, other: seq<Turn<Block>>)
    ensures var turns := Merged(AddedAll(msgs, newID));
            && Alternates(turns)
            && Tagged(turns) == Tagged(AddedAll(msgs, newID))
            && (Alternates(other) && Tagged(other) == Tagged(turns) ==> other == turns)
  {
    MergedKeeps(AddedAll(msgs, newID));
    if Alternates(other) && Tagged(other) == Tagged(Merged(AddedAll(msgs, newID))) {
      MergedUniquely(other, Merged(AddedAll(msgs, newID)));
    }
  }

  /** The ids of the tool calls among `blocks`, in order. */
  function Uses(blocks: seq<Block>): seq<string> {
    if blocks == [] then []
    else
      var b := blocks[|blocks| - 1];
      Uses(blocks[..|blocks| - 1]) + if b.ToolUse? then [b.id] else []
  }

  predicate NoResult(blocks: seq<Block>) {
    forall i | 0 <= i < |blocks| :: !blocks[i].ToolResultBlock?
  }

  predicate NoUse(blocks: seq<Block>) {
    forall i | 0 <= i < |blocks| :: !blocks[i].ToolUse?
  }

  /** `blocks` start with the results of `ids`, in order, and hold no other result. */
  predicate StartsWithResults(blocks: seq<Block>, ids: seq<string>) {
    && |ids| <= |blocks|
    && (forall k | 0 <= k < |ids| :: blocks[k].ToolResultBlock? && blocks[k].toolUseID == ids[k])
    && NoResult(blocks[|ids|..])
  }

  /** The calls a turn answers: those of the model turn before it. */
  function Before(turns: seq<Turn<Block>>, t: nat): seq<string>
    requires t < |turns|
  {
    if t == 0 || !turns[t - 1].model then [] else Uses(turns[t - 1].blocks)
  }

  /** A turn of the model holds no result, one of the user no call, and the user's starts with
      the results of every call of the turn before, in call order. */
  predicate PairedAt(turns: seq<Turn<Block>>, t: nat)
    requires t < |turns|
  {
    if turns[t].model then NoResult(turns[t].blocks)
    else NoUse(turns[t].blocks) && StartsWithResults(turns[t].blocks, Before(turns, t))
  }

  predicate Paired(turns: seq<Turn<Block>>) {
    forall t: nat | t < |turns| :: PairedAt(turns, t)
  }

  /** No call of the last turn waits for its result. */
  predicate Answered(turns: seq<Turn<Block>>) {
    turns != [] && turns[|turns| - 1].model ==> Uses(turns[|turns| - 1].blocks) == []
  }

  lemma {:induction false} UsesConcat(a: seq<Block>, b: seq<Block>)
    ensures Uses(a + b) == Uses(a) + Uses(b)
  {
    if b == [] {
      assert a + b == a;
    } else {
      var last := |b| - 1;
      assert (a + b)[..|a| + last] == a + b[..last];
      UsesConcat(a, b[..last]);
    }
  }

  lemma {:induction false} UsesOfNone(blocks: seq<Block>)
    requires NoUse(blocks)
    ensures Uses(blocks) == []
  {
    if blocks != [] {
      UsesOfNone(blocks[..|blocks| - 1]);
    }
  }

  lemma {:induction false} ThinkingAndText(parts: seq<Part>)
    ensures NoUse(ThinkingBlocks(parts)) && NoResult(ThinkingBlocks(parts))
    ensures NoUse(TextBlocks(parts)) && NoResult(TextBlocks(parts))
    ensures NoUse(ContentBlocks(parts)) && NoResult(ContentBlocks(parts))
  {
    if parts != [] {
      ThinkingAndText(parts[..|parts| - 1]);
    }
  }

  lemma {:induction false} UsesOfUses(calls: seq<ToolCall>, i: nat, newID: NewID)
    ensures NoResult(UsesOf(calls, i, newID))
    ensures |Uses(UsesOf(calls, i, newID))| == |calls|
    ensures forall j | 0 <= j < |calls| && !Blank(calls[j].id) :: Uses(UsesOf(calls, i, newID))[j] == Trim(calls[j].id)
  {
    if calls != [] {
      var last := |calls| - 1;
      UsesOfUses(calls[..last], i, newID);
      assert UsesOf(calls, i, newID)[..last] == UsesOf(calls[..last], i, newID);
    }
  }

  lemma UsesOfAssistant(m: Message, i: nat, newID: NewID)
    ensures NoResult(AssistantBlocks(m, i, newID))
    ensures Uses(AssistantBlocks(m, i, newID)) == Uses(UsesOf(m.calls, i, newID))
  {
    ThinkingAndText(m.parts);
    UsesOfUses(m.calls, i, newID);
    UsesConcat(ThinkingBlocks(m.parts) + TextBlocks(m.parts), UsesOf(m.calls, i, newID));
    UsesOfNone(ThinkingBlocks(m.parts) + TextBlocks(m.parts));
  }

  lemma PairedStill(turns: seq<Turn<Block>>, next: seq<Turn<Block>>, t: nat)
    requires t < |turns| && t < |next| && PairedAt(turns, t)
    requires next[t] == turns[t] && (t > 0 ==> next[t - 1] == turns[t - 1])
    ensures PairedAt(next, t)
  {
    hide NoUse, StartsWithResults, NoResult, Uses;
  }

  lemma NoneConcat(a: seq<Block>, b: seq<Block>)
    ensures NoUse(a) && NoUse(b) ==> NoUse(a + b)
    ensures NoResult(a) && NoResult(b) ==> NoResult(a + b)
  {
  }

  lemma NothingToAnswer(blocks: seq<Block>)
    requires NoResult(blocks)
    ensures StartsWithResults(blocks, [])
  {
    assert blocks[0..] == blocks;
  }

  /** A turn added after a model turn whose calls it answers, or after no calls. */
  lemma PairedAppend(turns: seq<Turn<Block>>, turn: Turn<Block>)
    requires Paired(turns)
    requires if turn.model then NoResult(turn.blocks)
             else NoUse(turn.blocks) &&
                  StartsWithResults(turn.blocks,
                    if turns != [] && turns[|turns| - 1].model then Uses(turns[|turns| - 1].blocks) else [])
    ensures Paired(turns + [turn])
  {
    hide NoUse, StartsWithResults, NoResult, Uses;
    var next := turns + [turn];
    forall t: nat | t < |next|
      ensures PairedAt(next, t)
    {
      if t < |turns| {
        hide PairedAt;
        PairedStill(turns, next, t);
      }
    }
  }

  lemma PairedExtend(turns: seq<Turn<Block>>, blocks: seq<Block>)
    requires Paired(turns) && turns != [] && NoResult(blocks)
    requires !turns[|turns| - 1].model ==> NoUse(blocks)
    ensures var last := |turns| - 1;
            Paired(turns[last := Turn(turns[last].model, turns[last].blocks + blocks)])
  {
    hide NoUse, StartsWithResults, NoResult, Uses;
    var last := |turns| - 1;
    var next := turns[last := Turn(turns[last].model, turns[last].blocks + blocks)];
    NoneConcat(turns[last].blocks, blocks);
    ExtendsResults(turns[last].blocks, blocks, Before(turns, last));
    assert PairedAt(turns, last) && Before(next, last) == Before(turns, last);
    assert PairedAt(next, last);
    forall t: nat | t < last
      ensures PairedAt(next, t)
    {
      hide PairedAt;
      PairedStill(turns, next, t);
    }
  }

  lemma JoinPlain(turns: seq<Turn<Block>>, model: bool, blocks: seq<Block>)
    requires Alternates(turns) && Paired(turns) && Answered(turns) && NoUse(blocks) && NoResult(blocks)
    ensures Paired(Join(turns, model, blocks)) && Answered(Join(turns, model, blocks))
  {
    hide NoUse, StartsWithResults, NoResult, Uses, Paired, Alternates;
    var last := |turns| - 1;
    UsesOfNone(blocks);
    NothingToAnswer(blocks);
    if blocks != [] {
      if turns != [] && turns[last].model == model {
        UsesConcat(turns[last].blocks, blocks);
        PairedExtend(turns, blocks);
      } else {
        PairedAppend(turns, Turn(model, blocks));
      }
    }
  }

  lemma ExtendsResults(blocks: seq<Block>, more: seq<Block>, ids: seq<string>)
    requires NoResult(more)
    ensures StartsWithResults(blocks, ids) ==> StartsWithResults(blocks + more, ids)
  {
    if |ids| <= |blocks| {
      assert (blocks + more)[|ids|..] == blocks[|ids|..] + more;
    }
  }

  lemma JoinCalls(turns: seq<Turn<Block>>, blocks: seq<Block>)
    requires Alternates(turns) && Paired(turns) && Answered(turns) && NoResult(blocks) && blocks != []
    ensures var next := Join(turns, true, blocks);
            && Alternates(next) && Paired(next)
            && next != [] && next[|next| - 1].model && Uses(next[|next| - 1].blocks) == Uses(blocks)
  {
    hide NoUse, StartsWithResults, NoResult, Uses, Paired, Alternates;
    JoinKeeps(turns, true, blocks);
    var last := |turns| - 1;
    if turns != [] && turns[last].model {
      UsesConcat(turns[last].blocks, blocks);
      PairedExtend(turns, blocks);
    } else {
      PairedAppend(turns, Turn(true, blocks));
    }
  }

  lemma PairResults(turns: seq<Turn<Block>>, results: seq<Block>)
    requires Paired(turns) && turns != [] && turns[|turns| - 1].model
    requires NoUse(results) && StartsWithResults(results, Uses(turns[|turns| - 1].blocks))
    ensures Paired(turns + [Turn(false, results)]) && Answered(turns + [Turn(false, results)])
  {
    hide Paired, Uses;
    PairedAppend(turns, Turn(false, results));
  }

  function TurnsAt(msgs: seq<Message>, i: nat, newID: NewID): seq<Turn<Block>>
    requires i <= |msgs|
  {
    Merged(AddedAll(msgs[..i], newID))
  }

  function ResultBlocks(msgs: seq<Message>, i: nat, n: nat): seq<Block>
    requires i + n <= |msgs|
  {
    seq(n, k requires 0 <= k < n => ResultBlock(msgs[i + k]))
  }

  lemma TurnsStep(msgs: seq<Message>, i: nat, newID: NewID)
    requires i < |msgs|
    ensures var added := Added(msgs[i], i, newID);
            TurnsAt(msgs, i + 1, newID) == Join(TurnsAt(msgs, i, newID), added.model, added.blocks)
  {
    hide Added, Merged, Join;
    AddedStep(msgs, i, newID);
  }

  lemma ResultStep(msgs: seq<Message>, i: nat, newID: NewID)
    requires i < |msgs| && msgs[i].role == Tool
    ensures TurnsAt(msgs, i + 1, newID) == Join(TurnsAt(msgs, i, newID), false, [ResultBlock(msgs[i])])
  {
    hide TurnsAt, Join, ResultBlock;
    TurnsStep(msgs, i, newID);
  }

  lemma JoinFirst(turns: seq<Turn<Block>>, blocks: seq<Block>)
    requires turns != [] && turns[|turns| - 1].model && blocks != []
    ensures Join(turns, false, blocks) == turns + [Turn(false, blocks)]
  {
  }

  lemma ResultBlocksStep(msgs: seq<Message>, i: nat, n: nat)
    requires n > 0 && i + n <= |msgs|
    ensures ResultBlocks(msgs, i, n) == ResultBlocks(msgs, i, n - 1) + [ResultBlock(msgs[i + n - 1])]
  {
    hide ResultBlock;
  }

  /** The results of a round make one turn. */
  lemma {:induction false} ResultsJoin(msgs: seq<Message>, i: nat, n: nat, newID: NewID)
    requires i + n <= |msgs| && n > 0 && forall k | i <= k < i + n :: msgs[k].role == Tool
    requires TurnsAt(msgs, i, newID) != [] && TurnsAt(msgs, i, newID)[|TurnsAt(msgs, i, newID)| - 1].model
    ensures TurnsAt(msgs, i + n, newID) == TurnsAt(msgs, i, newID) + [Turn(false, ResultBlocks(msgs, i, n))]
    decreases n
  {
    hide TurnsAt, ResultBlock, ResultBlocks, Join;
    var turns, result := TurnsAt(msgs, i, newID), [ResultBlock(msgs[i + n - 1])];
    ResultStep(msgs, i + n - 1, newID);
    ResultBlocksStep(msgs, i, n);
    if n > 1 {
      ResultsJoin(msgs, i, n - 1, newID);
      assert ResultBlocks(msgs, i, n - 1) != [] by { SomeResults(msgs, i, n - 1); }
      JoinPending(turns, false, ResultBlocks(msgs, i, n - 1), result);
    } else {
      NoResults(msgs, i);
      JoinFirst(turns, result);
    }
  }

  lemma SomeResults(msgs: seq<Message>, i: nat, n: nat)
    requires n > 0 && i + n <= |msgs|
    ensures ResultBlocks(msgs, i, n) != []
  {
  }

  lemma NoResults(msgs: seq<Message>, i: nat)
    requires i <= |msgs|
    ensures forall more: seq<Block> :: ResultBlocks(msgs, i, 0) + more == more
  {
  }

  /** Only the model makes calls, and every call has an id. */
  predicate CallsHaveIDs(msgs: seq<Message>) {
    forall i | 0 <= i < |msgs| && msgs[i].calls != [] ::
      msgs[i].role == Assistant && forall j | 0 <= j < |msgs[i].calls| :: !Blank(msgs[i].calls[j].id)
  }

  /** The first round of what is left of a conversation. */
  lemma FirstRound(msgs: seq<Message>, i: nat)
    requires i < |msgs| && Closed(msgs[i..])
    ensures var n := |msgs[i].calls|;
            && i + 1 + n <= |msgs| && msgs[i].role != Tool && Closed(msgs[i + 1 + n..])
            && forall k | i + 1 <= k < i + 1 + n ::
                 msgs[k].role == Tool && msgs[k].callID == msgs[i].calls[k - i - 1].id
  {
    var rest, n := msgs[i..], |msgs[i].calls|;
    assert rest[0] == msgs[i] && rest[1 + n..] == msgs[i + 1 + n..];
    forall k | i + 1 <= k < i + 1 + n
      ensures msgs[k].role == Tool && msgs[k].callID == msgs[i].calls[k - i - 1].id
    {
      assert rest[1..1 + n][k - i - 1] == msgs[k];
    }
  }

  lemma NoCallsJoin(msgs: seq<Message>, i: nat, newID: NewID)
    requires i < |msgs| && msgs[i].calls == [] && msgs[i].role != Tool
    requires Paired(TurnsAt(msgs, i, newID)) && Answered(TurnsAt(msgs, i, newID))
    ensures Paired(TurnsAt(msgs, i + 1, newID)) && Answered(TurnsAt(msgs, i + 1, newID))
  {
    hide TurnsAt, Paired, Answered, Alternates, Added;
    TurnsStep(msgs, i, newID);
    TurnsAlternate(msgs, i, newID);
    NoCallsNoUse(msgs[i], i, newID);
    JoinPlain(TurnsAt(msgs, i, newID), Added(msgs[i], i, newID).model, Added(msgs[i], i, newID).blocks);
  }

  lemma NoCallsNoUse(m: Message, i: nat, newID: NewID)
    requires m.calls == [] && m.role != Tool
    ensures NoUse(Added(m, i, newID).blocks) && NoResult(Added(m, i, newID).blocks)
  {
    ThinkingAndText(m.parts);
  }

  lemma CallsJoin(msgs: seq<Message>, i: nat, newID: NewID)
    requires i < |msgs| && msgs[i].calls != [] && msgs[i].role == Assistant
    requires Paired(TurnsAt(msgs, i, newID)) && Answered(TurnsAt(msgs, i, newID))
    ensures var next := TurnsAt(msgs, i + 1, newID);
            && Paired(next) && next != [] && next[|next| - 1].model
            && Uses(next[|next| - 1].blocks) == Uses(UsesOf(msgs[i].calls, i, newID))
  {
    hide TurnsAt, Paired, Answered, Alternates, Uses, NoResult;
    TurnsStep(msgs, i, newID);
    TurnsAlternate(msgs, i, newID);
    UsesOfAssistant(msgs[i], i, newID);
    JoinCalls(TurnsAt(msgs, i, newID), AssistantBlocks(msgs[i], i, newID));
  }

  lemma HasID(msgs: seq<Message>, i: nat, j: nat)
    requires CallsHaveIDs(msgs) && i < |msgs| && j < |msgs[i].calls|
    ensures msgs[i].role == Assistant && !Blank(msgs[i].calls[j].id)
  {
  }

  lemma ResultsStart(msgs: seq<Message>, i: nat, newID: NewID)
    requires CallsHaveIDs(msgs) && i < |msgs| && i + 1 + |msgs[i].calls| <= |msgs|
    requires forall k | i + 1 <= k < i + 1 + |msgs[i].calls| :: msgs[k].callID == msgs[i].calls[k - i - 1].id
    ensures var results := ResultBlocks(msgs, i + 1, |msgs[i].calls|);
            NoUse(results) && StartsWithResults(results, Uses(UsesOf(msgs[i].calls, i, newID)))
  {
    hide Uses, UsesOf, Trim, Blank, ResultContent, CallsHaveIDs;
    UsesOfUses(msgs[i].calls, i, newID);
    var ids, results := Uses(UsesOf(msgs[i].calls, i, newID)), ResultBlocks(msgs, i + 1, |msgs[i].calls|);
    forall k | 0 <= k < |ids|
      ensures results[k].ToolResultBlock? && results[k].toolUseID == ids[k]
    {
      HasID(msgs, i, k);
      assert results[k] == ResultBlock(msgs[i + 1 + k]);
    }
    assert results[|ids|..] == [];
  }

  /** One round keeps the turns paired. */
  lemma RoundJoins(msgs: seq<Message>, i: nat, newID: NewID)
    requires CallsHaveIDs(msgs) && i < |msgs| && Closed(msgs[i..])
    requires Paired(TurnsAt(msgs, i, newID)) && Answered(TurnsAt(msgs, i, newID))
    ensures var next := i + 1 + |msgs[i].calls|;
            && next <= |msgs| && Closed(msgs[next..])
            && Paired(TurnsAt(msgs, next, newID)) && Answered(TurnsAt(msgs, next, newID))
  {
    hide Closed, TurnsAt, Paired, Answered, StartsWithResults, Uses, UsesOf, ResultBlocks, CallsHaveIDs;
    FirstRound(msgs, i);
    var n := |msgs[i].calls|;
    if n == 0 {
      NoCallsJoin(msgs, i, newID);
    } else {
      HasID(msgs, i, 0);
      CallsJoin(msgs, i, newID);
      ResultsStart(msgs, i, newID);
      ResultsJoin(msgs, i + 1, n, newID);
      PairResults(TurnsAt(msgs, i + 1, newID), ResultBlocks(msgs, i + 1, n));
    }
  }

  lemma {:induction false} RoundsJoin(msgs: seq<Message>, i: nat, newID: NewID)
    requires CallsHaveIDs(msgs) && i <= |msgs| && Closed(msgs[i..])
    requires Paired(TurnsAt(msgs, i, newID)) && Answered(TurnsAt(msgs, i, newID))
    ensures Paired(TurnsAt(msgs, |msgs|, newID)) && Answered(TurnsAt(msgs, |msgs|, newID))
    decreases |msgs| - i
  {
    hide Closed, TurnsAt, Paired, Answered, Alternates, CallsHaveIDs;
    if i < |msgs| {
      RoundJoins(msgs, i, newID);
      RoundsJoin(msgs, i + 1 + |msgs[i].calls|, newID);
    }
  }

  lemma TurnsAlternate(msgs: seq<Message>, i: nat, newID: NewID)
    requires i <= |msgs|
    ensures Alternates(TurnsAt(msgs, i, newID))
  {
    MergedKeeps(AddedAll(msgs[..i], newID));
  }

  /** A conversation of whole rounds stays one: each turn that makes calls is followed at once by
      a user turn that starts with all their results, in call order, and holds no other. */
  lemma TurnsKeepRounds(msgs: seq<Message>, newID: NewID)
    requires Closed(msgs) && CallsHaveIDs(msgs)
    ensures var turns := Merged(AddedAll(msgs, newID));
            && Paired(turns)
            && forall t | 0 <= t < |turns| && turns[t].model && Uses(turns[t].blocks) != [] ::
                 && t + 1 < |turns| && !turns[t + 1].model
                 && StartsWithResults(turns[t + 1].blocks, Uses(turns[t].blocks))
  {
    assert msgs[0..] == msgs && msgs[..|msgs|] == msgs;
    NothingAdded(msgs, newID);
    assert Paired(TurnsAt(msgs, 0, newID)) && Answered(TurnsAt(msgs, 0, newID));
    hide Closed, CallsHaveIDs, StartsWithResults, Uses, NoResult, NoUse, Merged, AddedAll;
    RoundsJoin(msgs, 0, newID);
    TurnsAlternate(msgs, |msgs|, newID);
    var turns := Merged(AddedAll(msgs, newID));
    hide Paired, Answered, Alternates;
    forall t: nat | t < |turns| && turns[t].model && Uses(turns[t].blocks) != []
      ensures t + 1 < |turns| && !turns[t + 1].model
      ensures StartsWithResults(turns[t + 1].blocks, Uses(turns[t].blocks))
    {
      FollowedAtOnce(turns, t);
    }
  }

  lemma FollowedAtOnce(turns: seq<Turn<Block>>, t: nat)
    requires Alternates(turns) && Paired(turns) && Answered(turns)
    requires t < |turns| && turns[t].model && Uses(turns[t].blocks) != []
    ensures t + 1 < |turns| && !turns[t + 1].model
    ensures StartsWithResults(turns[t + 1].blocks, Uses(turns[t].blocks))
  {
    hide Uses, StartsWithResults, NoResult, NoUse;
    assert t + 1 < |turns| && turns[t + 1].model != turns[t + 1 - 1].model;
    assert PairedAt(turns, t + 1);
  }

  // ---- which conversations translate

  predicate Translates(msgs: seq<Message>) {
    forall i | 0 <= i < |msgs| :: ErrorOf(msgs[i]).None?
  }

  predicate HasIDs(m: Message) {
    forall j | 0 <= j < |m.calls| :: !Blank(m.calls[j].id)
  }

  predicate KnownAndNamed(msgs: seq<Message>) {
    forall i | 0 <= i < |msgs| :: !msgs[i].role.Other? && HasIDs(msgs[i])
  }

  /** A conversation of whole rounds translates exactly when every role is known and no call has
      a blank id: the id made up for one is not the one its result names. */
  lemma {:induction false} RoundsTranslateExactly(msgs: seq<Message>)
    requires Closed(msgs)
    ensures Translates(msgs) <==> KnownAndNamed(msgs)
    decreases |msgs|
  {
    hide Blank, Translates, KnownAndNamed, Answers;
    NothingTranslates();
    if msgs != [] {
      var m, n := msgs[0], |msgs[0].calls|;
      RoundsTranslateExactly(msgs[1 + n..]);
      RoundTranslates(m, msgs[1..1 + n]);
      assert msgs == [m] + msgs[1..1 + n] + msgs[1 + n..];
      PartsTranslate([m] + msgs[1..1 + n], msgs[1 + n..]);
    }
  }

  lemma NothingTranslates()
    ensures Translates([]) && KnownAndNamed([])
  {
  }

  lemma PartsTranslate(a: seq<Message>, b: seq<Message>)
    ensures Translates(a + b) <==> Translates(a) && Translates(b)
    ensures KnownAndNamed(a + b) <==> KnownAndNamed(a) && KnownAndNamed(b)
  {
    hide ErrorOf, HasIDs;
    assert forall i | 0 <= i < |a| :: (a + b)[i] == a[i];
    assert forall i | 0 <= i < |b| :: (a + b)[|a| + i] == b[i];
  }

  lemma RoundTranslates(m: Message, results: seq<Message>)
    requires m.role != Tool && Answers(m.calls, results)
    ensures Translates([m] + results) <==> KnownAndNamed([m] + results)
  {
    hide Blank;
    PartsTranslate([m], results);
    assert Translates(results) <==> HasIDs(m) by {
      assert forall j | 0 <= j < |m.calls| :: results[j].role == Tool && results[j].callID == m.calls[j].id;
    }
    assert KnownAndNamed([m]) <==> !m.role.Other? && HasIDs(m) by { assert [m][0] == m; }
    assert Translates([m]) <==> !m.role.Other? by { assert [m][0] == m; }
  }
}
