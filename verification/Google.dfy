/** Keeping a Gemini answer's thought signatures in a conversation (llm/google/convert.go): an
    answer's parts become a message, and the message becomes the parts again. */
module Google {
  import opened Messages
  import opened Base64

  type Signature = seq<byte>

  datatype FunctionCall = FunctionCall(id: string, name: string, args: string)

  /** A part of a Gemini answer; an empty signature is none. */
  datatype GPart =
    | CallPart(call: FunctionCall, signature: Signature)
    | ThoughtPart(text: string, signature: Signature)
    | PlainPart(text: string, signature: Signature)

  /** The unique part of the id made up for the n-th call, when it has none. */
  type NewID = nat -> string

  const SIG_PREFIX := "genai:"
  const GENERATED_ID_PREFIX := "phero-"

  // ---- tagged signatures

  /** The strings between the first n - 1 separators, and the rest (strings.SplitN). */
  function SplitN(s: string, sep: char, n: nat): (fields: seq<string>)
    requires n > 0
    ensures 0 < |fields| <= n
  {
    if n == 1 || sep !in s then [s]
    else
      var at := FirstOf(s, sep);
      [s[..at]] + SplitN(s[at + 1..], sep, n - 1)
  }

  function FirstOf(s: string, c: char): (at: nat)
    requires c in s
    ensures at < |s| && s[at] == c && c !in s[..at]
  {
    if s[0] == c then 0 else 1 + FirstOf(s[1..], c)
  }

  /** What follows the prefix in a tagged signature; `id` only for a call's. */
  function Tag(kind: string, sig: Signature, id: string): string {
    kind + ":" + Encode(sig) + if id != "" then ":" + id else ""
  }

  function EncodeSignature(kind: string, sig: Signature, id: string): Part {
    ReasoningPart("", SIG_PREFIX + Tag(kind, sig, id))
  }

  lemma SplitAtColon(a: string, b: string, n: nat)
    requires n > 1 && ':' !in a
    ensures SplitN(a + ":" + b, ':', n) == [a] + SplitN(b, ':', n - 1)
  {
    var s := a + ":" + b;
    assert s[|a|] == ':';
    var at := FirstOf(s, ':');
    assert forall i | 0 <= i < |a| :: s[i] == a[i];
    assert at == |a|;
    assert s[..at] == a && s[at + 1..] == b;
  }

  /** The fields of a tagged signature, whatever colons the id holds. */
  lemma FieldsOfTag(kind: string, sig: Signature, id: string)
    requires ':' !in kind
    ensures SplitN(Tag(kind, sig, id), ':', 3) == [kind, Encode(sig)] + if id != "" then [id] else []
  {
    hide Encode;
    NoColon(sig);
    if id == "" {
      assert Tag(kind, sig, id) == kind + ":" + Encode(sig);
      SplitAtColon(kind, Encode(sig), 3);
    } else {
      assert Tag(kind, sig, id) == kind + ":" + (Encode(sig) + ":" + id);
      SplitAtColon(kind, Encode(sig) + ":" + id, 3);
      SplitAtColon(Encode(sig), id, 2);
    }
  }

  /** Which signature goes with the text, with the thought and with each call id. */
  datatype Signatures = Signatures(calls: map<string, Signature>, text: Signature, thought: Signature) {
    function Call(id: string): Signature {
      if id in calls then calls[id] else []
    }
  }

  const NO_SIGNATURES: Signatures := Signatures(map[], [], [])

  /** `sigs` with what one part stores; anything else is ignored. */
  function WithPart(sigs: Signatures, p: Part): Signatures {
    if p.kind != Reasoning || !(SIG_PREFIX <= p.signature) then sigs
    else WithFields(sigs, SplitN(p.signature[|SIG_PREFIX|..], ':', 3))
  }

  function WithFields(sigs: Signatures, fields: seq<string>): Signatures {
    if |fields| < 2 then sigs
    else
      match Decode(fields[1])
      case None => sigs
      case Some(sig) =>
        if sig == [] then sigs
        else if fields[0] == "call" then
          if |fields| == 3 then sigs.(calls := sigs.calls[fields[2] := sig]) else sigs
        else if fields[0] == "text" then sigs.(text := sig)
        else if fields[0] == "thought" then sigs.(thought := sig)
        else sigs
  }

  function SignaturesOf(parts: seq<Part>): Signatures {
    if parts == [] then NO_SIGNATURES else WithPart(SignaturesOf(parts[..|parts| - 1]), parts[|parts| - 1])
  }

  method SignaturesFromParts(parts: seq<Part>) returns (sigs: Signatures)
    ensures sigs == SignaturesOf(parts)
  {
    sigs := NO_SIGNATURES;
    for i := 0 to |parts|
      invariant sigs == SignaturesOf(parts[..i])
    {
      assert parts[..i + 1][..i] == parts[..i];
      var p := parts[i];
      if p.kind != Reasoning || !(SIG_PREFIX <= p.signature) {
        continue;
      }
      var fields := SplitN(p.signature[|SIG_PREFIX|..], ':', 3);
      if |fields| < 2 {
        continue;
      }
      var sig := Decode(fields[1]);
      if sig.None? || sig.value == [] {
        continue;
      }
      if fields[0] == "call" {
        if |fields| == 3 {
          sigs := sigs.(calls := sigs.calls[fields[2] := sig.value]);
        }
      } else if fields[0] == "text" {
        sigs := sigs.(text := sig.value);
      } else if fields[0] == "thought" {
        sigs := sigs.(thought := sig.value);
      }
    }
    assert parts[..|parts|] == parts;
  }

  /** A stored signature is read back for the part it was stored for. */
  lemma StoredIsRead(sigs: Signatures, kind: string, sig: Signature, id: string)
    requires kind in {"call", "text", "thought"} && sig != [] && (kind == "call" ==> id != "")
    ensures WithPart(sigs, EncodeSignature(kind, sig, id)) ==
            if kind == "call" then sigs.(calls := sigs.calls[id := sig])
            else if kind == "text" then sigs.(text := sig) else sigs.(thought := sig)
  {
    hide Encode, Decode, Tag, SplitN;
    var p := EncodeSignature(kind, sig, id);
    assert p.signature[|SIG_PREFIX|..] == Tag(kind, sig, id);
    FieldsOfTag(kind, sig, id);
    DecodeOfEncode(sig);
  }

  // ---- an answer as a message

  function CallID(call: FunctionCall, n: nat, newID: NewID): string {
    if call.id == "" then GENERATED_ID_PREFIX + newID(n) else call.id
  }

  /** The tool call of the n-th part. */
  function ToolCallOf(call: FunctionCall, n: nat, newID: NewID): ToolCall {
    ToolCall(CallID(call, n, newID), call.name, call.args)
  }

  /** What the loop over an answer's parts collects. */
  datatype Collected = Collected(
    text: string, thought: string, sigParts: seq<Part>, calls: seq<ToolCall>, textSig: Signature, thoughtSig: Signature)

  const NOTHING: Collected := Collected("", "", [], [], [], [])

  function Or(sig: Signature, before: Signature): Signature {
    if sig != [] then sig else before
  }

  function Collect(c: Collected, p: GPart, n: nat, newID: NewID): Collected {
    match p
    case CallPart(call, sig) =>
      var tc := ToolCallOf(call, n, newID);
      c.(calls := c.calls + [tc],
         sigParts := c.sigParts + if sig != [] then [EncodeSignature("call", sig, tc.id)] else [])
    case ThoughtPart(text, sig) => c.(thought := c.thought + text, thoughtSig := Or(sig, c.thoughtSig))
    case PlainPart(text, sig) => c.(text := c.text + text, textSig := Or(sig, c.textSig))
  }

  function CollectAll(parts: seq<GPart>, newID: NewID): Collected {
    if parts == [] then NOTHING
    else Collect(CollectAll(parts[..|parts| - 1], newID), parts[|parts| - 1], |parts| - 1, newID)
  }

  /** The message's parts: the thought, its signature, the calls' signatures, the text's, the text. */
  function PartsOf(c: Collected): seq<Part> {
    (if c.thought != "" then [ReasoningPart(c.thought, "")] else [])
    + (if c.thoughtSig != [] then [EncodeSignature("thought", c.thoughtSig, "")] else [])
    + c.sigParts
    + (if c.textSig != [] then [EncodeSignature("text", c.textSig, "")] else [])
    + (if c.text != "" then [TextPart(c.text)] else [])
  }

  /** The message of an answer. */
  function MessageOf(parts: seq<GPart>, newID: NewID): Message {
    Message(Assistant, PartsOf(CollectAll(parts, newID)), CollectAll(parts, newID).calls, "", false)
  }

  method MessageFromParts(parts: seq<GPart>, newID: NewID) returns (m: Message)
    ensures m == MessageOf(parts, newID)
  {
    hide EncodeSignature, PartsOf;
    var text, thought := "", "";
    var sigParts: seq<Part> := [];
    var calls: seq<ToolCall> := [];
    var textSig: Signature, thoughtSig: Signature := [], [];
    for i := 0 to |parts|
      invariant Collected(text, thought, sigParts, calls, textSig, thoughtSig) == CollectAll(parts[..i], newID)
    {
      assert parts[..i + 1][..i] == parts[..i];
      match parts[i]
      case CallPart(call, sig) =>
        var tc := ToolCallOf(call, i, newID);
        calls := calls + [tc];
        if sig != [] {
          sigParts := sigParts + [EncodeSignature("call", sig, tc.id)];
        }
      case ThoughtPart(s, sig) =>
        thought := thought + s;
        if sig != [] {
          thoughtSig := sig;
        }
      case PlainPart(s, sig) =>
        text := text + s;
        if sig != [] {
          textSig := sig;
        }
    }
    assert parts[..|parts|] == parts;
    var out := Assemble(Collected(text, thought, sigParts, calls, textSig, thoughtSig));
    return Message(Assistant, out, calls, "", false);
  }

  method Assemble(c: Collected) returns (out: seq<Part>)
    ensures out == PartsOf(c)
  {
    hide EncodeSignature;
    out := [];
    if c.thought != "" {
      out := out + [ReasoningPart(c.thought, "")];
    }
    if c.thoughtSig != [] {
      out := out + [EncodeSignature("thought", c.thoughtSig, "")];
    }
    out := out + c.sigParts;
    if c.textSig != [] {
      out := out + [EncodeSignature("text", c.textSig, "")];
    }
    if c.text != "" {
      out := out + [TextPart(c.text)];
    }
  }

  // ---- a message as an answer

  /** The reasoning text, each part after a newline unless nothing was written yet. */
  function ReasoningContent(parts: seq<Part>): string {
    if parts == [] then ""
    else
      var before, last := ReasoningContent(parts[..|parts| - 1]), parts[|parts| - 1];
      if last.kind != Reasoning || last.text == "" then before
      else if before == "" then last.text
      else before + "\n" + last.text
  }

  function Generated(id: string): bool {
    GENERATED_ID_PREFIX <= id
  }

  function CallPartOf(tc: ToolCall, sigs: Signatures): GPart {
    CallPart(FunctionCall(if Generated(tc.id) then "" else tc.id, tc.name, tc.args), sigs.Call(tc.id))
  }

  /** The parts sent for an answer. */
  function Rebuilt(m: Message): seq<GPart> {
    var sigs, text := SignaturesOf(m.parts), TextContent(m.parts);
    (if sigs.thought != [] then [ThoughtPart(ReasoningContent(m.parts), sigs.thought)] else [])
    + (if text != "" || sigs.text != [] then [PlainPart(text, sigs.text)] else [])
    + seq(|m.calls|, i requires 0 <= i < |m.calls| => CallPartOf(m.calls[i], sigs))
  }

  method AssistantParts(m: Message) returns (parts: seq<GPart>)
    ensures parts == Rebuilt(m)
  {
    hide SignaturesOf, TextContent, ReasoningContent;
    var sigs := SignaturesFromParts(m.parts);
    parts := [];
    if sigs.thought != [] {
      parts := parts + [ThoughtPart(ReasoningContent(m.parts), sigs.thought)];
    }
    var text := TextContent(m.parts);
    if text != "" || sigs.text != [] {
      parts := parts + [PlainPart(text, sigs.text)];
    }
    var calls := CallParts(m.calls, sigs);
    parts := parts + calls;
  }

  method CallParts(calls: seq<ToolCall>, sigs: Signatures) returns (parts: seq<GPart>)
    ensures parts == seq(|calls|, i requires 0 <= i < |calls| => CallPartOf(calls[i], sigs))
  {
    parts := [];
    for i := 0 to |calls|
      invariant |parts| == i && forall k | 0 <= k < i :: parts[k] == CallPartOf(calls[k], sigs)
    {
      var tc := calls[i];
      var call := FunctionCall("", tc.name, tc.args);
      if !Generated(tc.id) {
        call := call.(id := tc.id);
      }
      parts := parts + [CallPart(call, sigs.Call(tc.id))];
    }
  }

  // ---- there and back

  /** What one plain part, or one thought, says. */
  datatype Saying = Saying(text: string, signature: Signature)

  function PlainOf(p: GPart): seq<Saying> {
    if p.PlainPart? then [Saying(p.text, p.signature)] else []
  }

  function ThoughtOf(p: GPart): seq<Saying> {
    if p.ThoughtPart? then [Saying(p.text, p.signature)] else []
  }

  function Plain(parts: seq<GPart>): seq<Saying> {
    if parts == [] then [] else PlainOf(parts[0]) + Plain(parts[1..])
  }

  function Thoughts(parts: seq<GPart>): seq<Saying> {
    if parts == [] then [] else ThoughtOf(parts[0]) + Thoughts(parts[1..])
  }

  /** The texts, one after the other. */
  function TextOf(sayings: seq<Saying>): string {
    if sayings == [] then "" else TextOf(sayings[..|sayings| - 1]) + sayings[|sayings| - 1].text
  }

  /** The last signature there is; none when there is none. */
  function SignatureOf(sayings: seq<Saying>): Signature {
    if sayings == [] then []
    else
      var last := sayings[|sayings| - 1].signature;
      if last != [] then last else SignatureOf(sayings[..|sayings| - 1])
  }

  lemma {:induction false} PlainAppend(parts: seq<GPart>, p: GPart)
    ensures Plain(parts + [p]) == Plain(parts) + PlainOf(p)
  {
    hide PlainOf;
    if parts == [] {
      assert [] + [p] == [p] && [p][1..] == [] && PlainOf(p) + [] == [] + PlainOf(p);
    } else {
      assert (parts + [p])[1..] == parts[1..] + [p];
      PlainAppend(parts[1..], p);
      assert PlainOf(parts[0]) + (Plain(parts[1..]) + PlainOf(p)) == PlainOf(parts[0]) + Plain(parts[1..]) + PlainOf(p);
    }
  }

  lemma {:induction false} ThoughtsAppend(parts: seq<GPart>, p: GPart)
    ensures Thoughts(parts + [p]) == Thoughts(parts) + ThoughtOf(p)
  {
    hide ThoughtOf;
    if parts == [] {
      assert [] + [p] == [p] && [p][1..] == [] && ThoughtOf(p) + [] == [] + ThoughtOf(p);
    } else {
      assert (parts + [p])[1..] == parts[1..] + [p];
      ThoughtsAppend(parts[1..], p);
      assert ThoughtOf(parts[0]) + (Thoughts(parts[1..]) + ThoughtOf(p)) ==
             ThoughtOf(parts[0]) + Thoughts(parts[1..]) + ThoughtOf(p);
    }
  }

  lemma SayingAdded(sayings: seq<Saying>, last: Saying)
    ensures TextOf(sayings + [last]) == TextOf(sayings) + last.text
    ensures SignatureOf(sayings + [last]) == Or(last.signature, SignatureOf(sayings))
  {
    assert (sayings + [last])[..|sayings|] == sayings;
  }

  lemma {:induction false} CollectedIs(parts: seq<GPart>, newID: NewID)
    ensures var c := CollectAll(parts, newID);
            && c.text == TextOf(Plain(parts)) && c.textSig == SignatureOf(Plain(parts))
            && c.thought == TextOf(Thoughts(parts)) && c.thoughtSig == SignatureOf(Thoughts(parts))
  {
    hide EncodeSignature, Plain, Thoughts;
    if parts == [] {
      assert Plain([]) == [] && Thoughts([]) == [] by { NothingSaid(); }
    } else {
      var n := |parts| - 1;
      var p := parts[n];
      CollectedIs(parts[..n], newID);
      PlainAppend(parts[..n], p);
      ThoughtsAppend(parts[..n], p);
      assert parts == parts[..n] + [p];
      assert Plain(parts[..n]) + [] == Plain(parts[..n]) && Thoughts(parts[..n]) + [] == Thoughts(parts[..n]);
      if p.PlainPart? {
        SayingAdded(Plain(parts[..n]), Saying(p.text, p.signature));
      } else if p.ThoughtPart? {
        SayingAdded(Thoughts(parts[..n]), Saying(p.text, p.signature));
      }
    }
  }

  lemma NothingSaid()
    ensures Plain([]) == [] && Thoughts([]) == []
  {
  }

  /** A call of an answer, with the id its tool call gets. */
  datatype Named = Named(call: FunctionCall, signature: Signature, id: string)

  function NamedCalls(parts: seq<GPart>, newID: NewID): seq<Named> {
    if parts == [] then []
    else
      NamedCalls(parts[..|parts| - 1], newID) +
      match parts[|parts| - 1]
      case CallPart(call, sig) => [Named(call, sig, CallID(call, |parts| - 1, newID))]
      case _ => []
  }

  /** The last signature stored for `id`; none when there is none. */
  function LastSig(calls: seq<Named>, id: string): Signature {
    if calls == [] then []
    else
      var c := calls[|calls| - 1];
      if c.id == id && c.signature != [] then c.signature else LastSig(calls[..|calls| - 1], id)
  }

  lemma {:induction false} LastSigIs(calls: seq<Named>, id: string)
    ensures LastSig(calls, id) == [] <==> forall j | 0 <= j < |calls| && calls[j].id == id :: calls[j].signature == []
    ensures LastSig(calls, id) != [] ==>
              exists j | 0 <= j < |calls| :: calls[j].id == id && calls[j].signature == LastSig(calls, id)
  {
    if calls != [] {
      LastSigIs(calls[..|calls| - 1], id);
    }
  }

  lemma SignaturesStep(parts: seq<Part>, p: Part)
    ensures SignaturesOf(parts + [p]) == WithPart(SignaturesOf(parts), p)
  {
    hide WithPart;
    assert (parts + [p])[..|parts|] == parts;
  }

  lemma {:induction false} CallIDNotEmpty(call: FunctionCall, n: nat, newID: NewID)
    ensures CallID(call, n, newID) != ""
    ensures !Generated(call.id) <==>
            (if Generated(CallID(call, n, newID)) then "" else CallID(call, n, newID)) == call.id
  {
    if call.id == "" {
      assert Generated(GENERATED_ID_PREFIX + newID(n));
    }
  }

  /** The calls' parts store, for each id, its last signature, and change nothing else. */
  lemma {:induction false} CallsStored(before: seq<Part>, parts: seq<GPart>, newID: NewID)
    requires SignaturesOf(before).calls == map[]
    ensures var sigs := SignaturesOf(before + CollectAll(parts, newID).sigParts);
            && (forall id :: sigs.Call(id) == LastSig(NamedCalls(parts, newID), id))
            && sigs.text == SignaturesOf(before).text && sigs.thought == SignaturesOf(before).thought
  {
    hide EncodeSignature, WithPart, SignaturesOf;
    if parts == [] {
      assert before + [] == before;
    } else {
      var n := |parts| - 1;
      CallsStored(before, parts[..n], newID);
      var c := CollectAll(parts[..n], newID);
      var sofar := before + c.sigParts;
      match parts[n] {
        case CallPart(call, sig) =>
          var tc := ToolCallOf(call, n, newID);
          CallIDNotEmpty(call, n, newID);
          if sig != [] {
            StoredIsRead(SignaturesOf(sofar), "call", sig, tc.id);
            SignaturesStep(sofar, EncodeSignature("call", sig, tc.id));
            assert before + CollectAll(parts, newID).sigParts == sofar + [EncodeSignature("call", sig, tc.id)];
          } else {
            assert before + CollectAll(parts, newID).sigParts == sofar;
          }
          NamedStep(NamedCalls(parts[..n], newID), Named(call, sig, tc.id));
        case _ => assert NamedCalls(parts, newID) == NamedCalls(parts[..n], newID);
      }
    }
  }

  lemma NamedStep(calls: seq<Named>, c: Named)
    ensures forall id :: LastSig(calls + [c], id) ==
                         if c.id == id && c.signature != [] then c.signature else LastSig(calls, id)
  {
    assert (calls + [c])[..|calls|] == calls;
  }

  lemma {:induction false} CallsCollected(parts: seq<GPart>, newID: NewID)
    ensures var c, named := CollectAll(parts, newID), NamedCalls(parts, newID);
            && |c.calls| == |named|
            && forall k | 0 <= k < |named| ::
              c.calls[k] == ToolCall(named[k].id, named[k].call.name, named[k].call.args)
  {
    hide EncodeSignature;
    if parts != [] {
      CallsCollected(parts[..|parts| - 1], newID);
    }
  }

  lemma {:induction false} SigPartsBlank(parts: seq<GPart>, newID: NewID)
    ensures forall p <- CollectAll(parts, newID).sigParts :: p.kind == Reasoning && p.text == ""
  {
    hide Tag;
    if parts != [] {
      SigPartsBlank(parts[..|parts| - 1], newID);
    }
  }

  /** Parts with no text of their own change neither content. */
  lemma {:induction false} ContentOf(before: seq<Part>, blank: seq<Part>)
    requires forall p <- blank :: p.kind == Reasoning && p.text == ""
    ensures TextContent(before + blank) == TextContent(before)
    ensures ReasoningContent(before + blank) == ReasoningContent(before)
  {
    if blank == [] {
      assert before + blank == before;
    } else {
      var n := |blank| - 1;
      assert (before + blank)[..|before| + n] == before + blank[..n];
      ContentOf(before, blank[..n]);
    }
  }

  /** What the message of an answer stores. */
  lemma MessageStores(parts: seq<GPart>, newID: NewID)
    ensures var sigs := SignaturesOf(MessageOf(parts, newID).parts);
            && sigs.text == SignatureOf(Plain(parts)) && sigs.thought == SignatureOf(Thoughts(parts))
            && (forall id :: sigs.Call(id) == LastSig(NamedCalls(parts, newID), id))
  {
    hide EncodeSignature, SignaturesOf, CollectAll, NamedCalls, LastSig, WithPart, SignatureOf, Plain, Thoughts;
    CollectedIs(parts, newID);
    var c := CollectAll(parts, newID);
    var thought := ThoughtStores(c);
    CallsStored(thought, parts, newID);
    TextStores(thought + c.sigParts, c);
    assert PartsOf(c) == thought + c.sigParts
      + (if c.textSig != [] then [EncodeSignature("text", c.textSig, "")] else [])
      + (if c.text != "" then [TextPart(c.text)] else []);
  }

  lemma ThoughtStores(c: Collected) returns (out: seq<Part>)
    ensures out == (if c.thought != "" then [ReasoningPart(c.thought, "")] else []) +
                   (if c.thoughtSig != [] then [EncodeSignature("thought", c.thoughtSig, "")] else [])
    ensures SignaturesOf(out) == NO_SIGNATURES.(thought := c.thoughtSig)
  {
    hide EncodeSignature, SignaturesOf, WithFields;
    NothingStored();
    out := [];
    if c.thought != "" {
      SignaturesStep(out, ReasoningPart(c.thought, ""));
      out := out + [ReasoningPart(c.thought, "")];
    }
    if c.thoughtSig != [] {
      StoredIsRead(SignaturesOf(out), "thought", c.thoughtSig, "");
      SignaturesStep(out, EncodeSignature("thought", c.thoughtSig, ""));
      out := out + [EncodeSignature("thought", c.thoughtSig, "")];
    }
  }

  lemma NothingStored()
    ensures SignaturesOf([]) == NO_SIGNATURES
  {
  }

  lemma TextStores(before: seq<Part>, c: Collected)
    requires SignaturesOf(before).text == []
    ensures var out := before + (if c.textSig != [] then [EncodeSignature("text", c.textSig, "")] else [])
                       + (if c.text != "" then [TextPart(c.text)] else []);
            SignaturesOf(out) == SignaturesOf(before).(text := c.textSig)
  {
    hide EncodeSignature, SignaturesOf, WithFields;
    var out := before;
    if c.textSig != [] {
      StoredIsRead(SignaturesOf(out), "text", c.textSig, "");
      SignaturesStep(out, EncodeSignature("text", c.textSig, ""));
      out := out + [EncodeSignature("text", c.textSig, "")];
    }
    if c.text != "" {
      SignaturesStep(out, TextPart(c.text));
      out := out + [TextPart(c.text)];
    }
    assert out == before + (if c.textSig != [] then [EncodeSignature("text", c.textSig, "")] else [])
                  + (if c.text != "" then [TextPart(c.text)] else []);
  }

  lemma ThoughtContent(thought: string)
    ensures var parts := if thought != "" then [ReasoningPart(thought, "")] else [];
            ReasoningContent(parts) == thought && TextContent(parts) == ""
  {
    assert [ReasoningPart(thought, "")][..0] == [];
  }

  lemma TextComesLast(before: seq<Part>, text: string)
    requires TextContent(before) == ""
    ensures var parts := before + if text != "" then [TextPart(text)] else [];
            TextContent(parts) == text && ReasoningContent(parts) == ReasoningContent(before)
  {
    if text != "" {
      assert (before + [TextPart(text)])[..|before|] == before;
    } else {
      assert before + [] == before;
    }
  }

  /** The parts that only store signatures. */
  function Stored(c: Collected): seq<Part> {
    (if c.thoughtSig != [] then [EncodeSignature("thought", c.thoughtSig, "")] else [])
    + c.sigParts + (if c.textSig != [] then [EncodeSignature("text", c.textSig, "")] else [])
  }

  lemma StoredIsBlank(parts: seq<GPart>, newID: NewID)
    ensures forall p <- Stored(CollectAll(parts, newID)) :: p.kind == Reasoning && p.text == ""
  {
    hide Tag, CollectAll;
    SigPartsBlank(parts, newID);
  }

  /** What it says: the plain text as its text, the thought as its reasoning, the calls in order. */
  lemma MessageSays(parts: seq<GPart>, newID: NewID)
    ensures var m, named := MessageOf(parts, newID), NamedCalls(parts, newID);
            && m.role == Assistant
            && TextContent(m.parts) == TextOf(Plain(parts)) && ReasoningContent(m.parts) == TextOf(Thoughts(parts))
            && |m.calls| == |named|
            && forall k | 0 <= k < |named| ::
              m.calls[k] == ToolCall(named[k].id, named[k].call.name, named[k].call.args)
  {
    hide PartsOf, CollectAll, TextContent, ReasoningContent, TextOf, Plain, Thoughts, NamedCalls;
    MessageContent(parts, newID);
    CollectedIs(parts, newID);
    CallsCollected(parts, newID);
  }

  lemma MessageContent(parts: seq<GPart>, newID: NewID)
    ensures var c := CollectAll(parts, newID);
            TextContent(PartsOf(c)) == c.text && ReasoningContent(PartsOf(c)) == c.thought
  {
    var c := CollectAll(parts, newID);
    var thought := if c.thought != "" then [ReasoningPart(c.thought, "")] else [];
    PartsAre(c);
    hide *;
    StoredIsBlank(parts, newID);
    ThoughtContent(c.thought);
    ContentOf(thought, Stored(c));
    TextComesLast(thought + Stored(c), c.text);
  }

  lemma PartsAre(c: Collected)
    ensures PartsOf(c) == (if c.thought != "" then [ReasoningPart(c.thought, "")] else []) + Stored(c)
                          + if c.text != "" then [TextPart(c.text)] else []
  {
    hide EncodeSignature;
  }

  /** An answer turned into a message and back: its text and thought with their signatures, then
      its calls in order, each with an id unless one was made up for it. */
  lemma ThereAndBack(parts: seq<GPart>, newID: NewID)
    ensures var named := NamedCalls(parts, newID);
            Rebuilt(MessageOf(parts, newID)) ==
            SaidBack(parts) + seq(|named|, k requires 0 <= k < |named| => Returned(named, k))
  {
    hide SignaturesOf, TextContent, ReasoningContent, NamedCalls, MessageOf, LastSig, TextOf, Plain, Thoughts;
    hide SignatureOf;
    MessageStores(parts, newID);
    MessageSays(parts, newID);
    var m, named := MessageOf(parts, newID), NamedCalls(parts, newID);
    var sigs := SignaturesOf(m.parts);
    assert seq(|m.calls|, i requires 0 <= i < |m.calls| => CallPartOf(m.calls[i], sigs)) ==
           seq(|named|, k requires 0 <= k < |named| => Returned(named, k));
  }

  /** All of an answer's thought under its last signature, if it has one, then all of its text under
      the text's. */
  function SaidBack(parts: seq<GPart>): seq<GPart> {
    var plain, thoughts := Plain(parts), Thoughts(parts);
    (if SignatureOf(thoughts) != [] then [ThoughtPart(TextOf(thoughts), SignatureOf(thoughts))] else [])
    + (if TextOf(plain) != "" || SignatureOf(plain) != [] then [PlainPart(TextOf(plain), SignatureOf(plain))] else [])
  }

  /** What comes back for a call. */
  function Returned(named: seq<Named>, k: nat): GPart
    requires k < |named|
  {
    var c := named[k];
    CallPart(FunctionCall(if Generated(c.id) then "" else c.id, c.call.name, c.call.args), LastSig(named, c.id))
  }

  /** No call has an id of the form made up here. */
  predicate IDsAreOwn(named: seq<Named>) {
    forall k: nat | k < |named| :: !Generated(named[k].call.id)
  }

  predicate SignaturesShared(named: seq<Named>) {
    forall j: nat, k: nat | j < |named| && k < |named| && named[j].id == named[k].id ::
      named[j].signature == named[k].signature
  }

  predicate ComesBack(named: seq<Named>, k: nat)
    requires k < |named|
  {
    Returned(named, k) == CallPart(named[k].call, named[k].signature)
  }

  /** Each call comes back as it was, with its own signature, exactly when no id is of the form
      made up here and calls that share an id share their signature; colons do not matter. */
  lemma CallsComeBackExactly(parts: seq<GPart>, newID: NewID)
    ensures var named := NamedCalls(parts, newID);
            (forall k: nat | k < |named| :: ComesBack(named, k)) <==> IDsAreOwn(named) && SignaturesShared(named)
  {
    hide NamedCalls, LastSig, SignaturesShared;
    var named := NamedCalls(parts, newID);
    forall k: nat | k < |named|
      ensures ComesBack(named, k) <==> !Generated(named[k].call.id) && OwnSignature(named, k)
    {
      NamedID(parts, newID, k);
    }
    SharedExactly(named);
  }

  predicate OwnSignature(named: seq<Named>, k: nat)
    requires k < |named|
  {
    LastSig(named, named[k].id) == named[k].signature
  }

  lemma SharedExactly(named: seq<Named>)
    ensures (forall k: nat | k < |named| :: OwnSignature(named, k)) <==> SignaturesShared(named)
  {
    hide LastSig;
    if forall k: nat | k < |named| :: OwnSignature(named, k) {
      forall j: nat, k: nat | j < |named| && k < |named| && named[j].id == named[k].id
        ensures named[j].signature == named[k].signature
      {
        assert OwnSignature(named, j) && OwnSignature(named, k);
      }
    } else {
      var k: nat :| k < |named| && !OwnSignature(named, k);
      NotShared(named, k);
    }
  }

  lemma NotShared(named: seq<Named>, k: nat)
    requires k < |named| && !OwnSignature(named, k)
    ensures !SignaturesShared(named)
  {
    LastSigIs(named, named[k].id);
    hide LastSig;
    if LastSig(named, named[k].id) != [] {
      var j: nat :| j < |named| && named[j].id == named[k].id && named[j].signature == LastSig(named, named[k].id);
      assert named[j].signature != named[k].signature;
    }
  }

  lemma {:induction false} NamedID(parts: seq<GPart>, newID: NewID, k: nat)
    requires k < |NamedCalls(parts, newID)|
    ensures var c := NamedCalls(parts, newID)[k];
            && c.id != ""
            && (!Generated(c.call.id) <==> (if Generated(c.id) then "" else c.id) == c.call.id)
  {
    var n := |parts| - 1;
    if k < |NamedCalls(parts[..n], newID)| {
      NamedID(parts[..n], newID, k);
    } else {
      CallIDNotEmpty(parts[n].call, n, newID);
    }
  }

  /** The function calls of an answer, in order. */
  function Calls(parts: seq<GPart>): seq<GPart> {
    if parts == [] then []
    else Calls(parts[..|parts| - 1]) + if parts[|parts| - 1].CallPart? then [parts[|parts| - 1]] else []
  }

  lemma {:induction false} NamedAreCalls(parts: seq<GPart>, newID: NewID)
    ensures var named := NamedCalls(parts, newID);
            && |Calls(parts)| == |named|
            && forall k | 0 <= k < |named| :: Calls(parts)[k] == CallPart(named[k].call, named[k].signature)
  {
    if parts != [] {
      NamedAreCalls(parts[..|parts| - 1], newID);
    }
  }

  /** So an answer whose calls have different ids, none of the form made up here, comes back with
      every function call as it was, after its text and its signed thought. */
  lemma AnswerComesBack(parts: seq<GPart>, newID: NewID)
    requires IDsAreOwn(NamedCalls(parts, newID)) && SignaturesShared(NamedCalls(parts, newID))
    ensures Rebuilt(MessageOf(parts, newID)) == SaidBack(parts) + Calls(parts)
  {
    hide NamedCalls, IDsAreOwn, SignaturesShared, MessageOf, Rebuilt, SaidBack, Returned, Calls;
    var named := NamedCalls(parts, newID);
    ThereAndBack(parts, newID);
    CallsComeBackExactly(parts, newID);
    NamedAreCalls(parts, newID);
    assert forall k: nat | k < |named| :: ComesBack(named, k) && Returned(named, k) == Calls(parts)[k];
    assert seq(|named|, k requires 0 <= k < |named| => Returned(named, k)) == Calls(parts);
  }
}
