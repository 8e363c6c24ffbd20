/** Compacting a conversation (agent/compact.go): a summary stands for the older messages,
    the recent ones are kept whole. */
module Compact {
  import opened Messages
  import Estimate
  import Split
  import SnapLog

  const DEFAULT_KEEP_TOKENS := 20_000
  const KEPT_TOOL_RESULT_CHARS := 8_000

  datatype CompactInput = CompactInput(previous: Option<Snapshot>, messages: seq<Message>, keepTokens: int)

  datatype Compaction = Compaction(snapshot: Snapshot, kept: seq<Message>)

  datatype CompactResult = Compacted(compaction: Compaction) | NothingToCompact | CompactFailed

  datatype CheckResult = Valid | KeepsEverything | StartsWithToolResult | NotTheInput(i: nat)

  predicate SameToolCalls(a: Message, b: Message) {
    && |a.calls| == |b.calls|
    && forall i | 0 <= i < |a.calls| :: a.calls[i].id == b.calls[i].id
  }

  /** `kept` stands where `orig` stood: same role, same call ids. */
  predicate LinesUp(kept: Message, orig: Message) {
    kept.role == orig.role && kept.callID == orig.callID && SameToolCalls(kept, orig)
  }

  function CallIDs(m: Message): seq<string> {
    seq(|m.calls|, i requires 0 <= i < |m.calls| => m.calls[i].id)
  }

  /** Two messages line up exactly when they have the same speaker, answer the same call and make the
      same calls, by id; what they say may differ. */
  lemma LinesUpExactly(a: Message, b: Message)
    ensures LinesUp(a, b) <==> a.role == b.role && a.callID == b.callID && CallIDs(a) == CallIDs(b)
  {
    if LinesUp(a, b) {
      assert CallIDs(a) == CallIDs(b);
    } else if CallIDs(a) == CallIDs(b) {
      assert |CallIDs(a)| == |CallIDs(b)|;
      forall i | 0 <= i < |a.calls|
        ensures a.calls[i].id == b.calls[i].id
      {
        assert CallIDs(a)[i] == CallIDs(b)[i];
      }
    }
  }

  /** The checks on a compaction, in their order. */
  function CheckOf(c: Compaction, input: CompactInput): CheckResult {
    if c.kept != [] && |c.kept| >= |input.messages| then KeepsEverything
    else if c.kept != [] && c.kept[0].role == Tool then StartsWithToolResult
    else FirstMisfit(c.kept, input.messages[|input.messages| - |c.kept|..], 0)
  }

  function FirstMisfit(kept: seq<Message>, orig: seq<Message>, i: nat): CheckResult
    requires |kept| == |orig|
    decreases |kept| - i
  {
    if i >= |kept| then Valid
    else if !LinesUp(kept[i], orig[i]) then NotTheInput(i)
    else FirstMisfit(kept, orig, i + 1)
  }

  method Check(c: Compaction, input: CompactInput) returns (r: CheckResult)
    ensures r == CheckOf(c, input)
  {
    if |c.kept| > 0 && |c.kept| >= |input.messages| {
      return KeepsEverything;
    }
    if |c.kept| > 0 && c.kept[0].role == Tool {
      return StartsWithToolResult;
    }
    var offset := |input.messages| - |c.kept|;
    ghost var origs := input.messages[offset..];
    for i := 0 to |c.kept|
      invariant FirstMisfit(c.kept, origs, i) == FirstMisfit(c.kept, origs, 0)
    {
      var orig := input.messages[offset + i];
      if !LinesUp(c.kept[i], orig) {
        return NotTheInput(i);
      }
    }
    return Valid;
  }

  lemma {:induction false} NoMisfit(kept: seq<Message>, orig: seq<Message>, i: nat)
    requires |kept| == |orig|
    ensures FirstMisfit(kept, orig, i).Valid? <==> forall k | i <= k < |kept| :: LinesUp(kept[k], orig[k])
    decreases |kept| - i
  {
    if i < |kept| {
      NoMisfit(kept, orig, i + 1);
    }
  }

  /** A compaction is accepted exactly when it keeps nothing, or a proper suffix of the input,
      message for message, whose first message is no tool result. */
  lemma CheckAccepts(c: Compaction, input: CompactInput)
    ensures CheckOf(c, input).Valid? <==>
            && (c.kept == [] || (|c.kept| < |input.messages| && c.kept[0].role != Tool))
            && forall k | 0 <= k < |c.kept| :: LinesUp(c.kept[k], input.messages[|input.messages| - |c.kept| + k])
  {
    if c.kept == [] || (|c.kept| < |input.messages| && c.kept[0].role != Tool) {
      var orig := input.messages[|input.messages| - |c.kept|..];
      NoMisfit(c.kept, orig, 0);
      assert forall k | 0 <= k < |c.kept| :: orig[k] == input.messages[|input.messages| - |c.kept| + k];
    }
  }

  predicate Misfits(c: Compaction, input: CompactInput, i: nat)
    requires i < |c.kept| <= |input.messages|
  {
    !LinesUp(c.kept[i], input.messages[|input.messages| - |c.kept| + i])
  }

  lemma {:induction false} FirstMisfitIs(kept: seq<Message>, orig: seq<Message>, i: nat)
    requires |kept| == |orig|
    ensures var r := FirstMisfit(kept, orig, i);
            && (r.Valid? || r.NotTheInput?)
            && (r.NotTheInput? ==>
                  && i <= r.i < |kept| && !LinesUp(kept[r.i], orig[r.i])
                  && forall k | i <= k < r.i :: LinesUp(kept[k], orig[k]))
    decreases |kept| - i
  {
    if i < |kept| {
      FirstMisfitIs(kept, orig, i + 1);
    }
  }

  /** Why a compaction is refused: it keeps everything, or else starts with a tool result, or else
      the first kept message that is not the input's. */
  lemma CheckRefuses(c: Compaction, input: CompactInput)
    ensures var r := CheckOf(c, input);
            && (r.KeepsEverything? <==> c.kept != [] && |c.kept| >= |input.messages|)
            && (r.StartsWithToolResult? <==> c.kept != [] && |c.kept| < |input.messages| && c.kept[0].role == Tool)
            && (r.NotTheInput? ==>
                  && r.i < |c.kept| <= |input.messages| && Misfits(c, input, r.i)
                  && forall k | 0 <= k < r.i :: !Misfits(c, input, k))
  {
    if c.kept == [] || (|c.kept| < |input.messages| && c.kept[0].role != Tool) {
      var orig := input.messages[|input.messages| - |c.kept|..];
      FirstMisfitIs(c.kept, orig, 0);
      assert forall k | 0 <= k < |c.kept| :: orig[k] == input.messages[|input.messages| - |c.kept| + k];
    }
  }

  // ---- clipping tool results

  function Itoa(n: nat): string {
    if n < 10 then ['0' + n as char] else Itoa(n / 10) + ['0' + (n % 10) as char]
  }

  function CutMark(n: nat): string {
    "\n[... " + Itoa(n) + " characters cut ...]\n"
  }

  /** Half of `limit` from either end of a longer `s`, with a note of how much went. */
  function ClipMiddle(s: string, limit: nat): string {
    if |s| <= limit then s
    else
      var half := limit / 2;
      s[..half] + CutMark(|s| - 2 * half) + s[|s| - half..]
  }

  function Digits(s: string): nat
    requires forall i | 0 <= i < |s| :: '0' <= s[i] <= '9'
  {
    if s == "" then 0 else Digits(s[..|s| - 1]) * 10 + (s[|s| - 1] - '0') as nat
  }

  lemma {:induction false} ItoaReads(n: nat)
    ensures Itoa(n) != "" && (forall i | 0 <= i < |Itoa(n)| :: '0' <= Itoa(n)[i] <= '9') && Digits(Itoa(n)) == n
  {
    if n >= 10 {
      ItoaReads(n / 10);
      assert Itoa(n)[..|Itoa(n)| - 1] == Itoa(n / 10);
    }
  }

  /** A text within the limit stays whole. A longer one keeps half of the limit from its start and
      from its end, and between them says, in decimal, how many characters are gone. */
  lemma ClipKeepsEnds(s: string, limit: nat)
    ensures |s| <= limit ==> ClipMiddle(s, limit) == s
    ensures |s| > limit ==>
              var half := limit / 2;
              var cut := |s| - 2 * half;
              && ClipMiddle(s, limit) ==
                 s[..half] + ("\n[... " + Itoa(cut) + " characters cut ...]\n") + s[half + cut..]
              && (forall i | 0 <= i < |Itoa(cut)| :: '0' <= Itoa(cut)[i] <= '9') && Digits(Itoa(cut)) == cut
  {
    if |s| > limit {
      ItoaReads(|s| - 2 * (limit / 2));
    }
  }

  function ClipPart(p: Part): Part {
    if p.kind == Text then p.(text := ClipMiddle(p.text, KEPT_TOOL_RESULT_CHARS)) else p
  }

  function ClipParts(parts: seq<Part>): seq<Part> {
    seq(|parts|, i requires 0 <= i < |parts| => ClipPart(parts[i]))
  }

  function Clip(m: Message): Message {
    if m.role == Tool then m.(parts := ClipParts(m.parts)) else m
  }

  function ClipAll(msgs: seq<Message>): seq<Message> {
    seq(|msgs|, i requires 0 <= i < |msgs| => Clip(msgs[i]))
  }

  method ClipToolResults(msgs: seq<Message>) returns (out: seq<Message>)
    ensures out == ClipAll(msgs)
  {
    out := [];
    for i := 0 to |msgs|
      invariant |out| == i && forall k | 0 <= k < i :: out[k] == Clip(msgs[k])
    {
      var m := msgs[i];
      if m.role == Tool {
        var parts: seq<Part> := [];
        for j := 0 to |m.parts|
          invariant |parts| == j && forall k | 0 <= k < j :: parts[k] == ClipPart(m.parts[k])
        {
          var p := m.parts[j];
          if p.kind == Text {
            p := p.(text := ClipMiddle(p.text, KEPT_TOOL_RESULT_CHARS));
          }
          parts := parts + [p];
        }
        assert parts == ClipParts(m.parts);
        m := m.(parts := parts);
      }
      out := out + [m];
    }
  }

  // ---- what is kept

  /** A SummaryCompactor. `summarize` is the model that writes the summary from the previous
      summary and the older messages; it fails with None. */
  datatype Config = Config(keepRecent: nat, keepTokens: nat, summarize: (string, seq<Message>) -> Option<string>)

  function Budget(cfg: Config, input: CompactInput): nat {
    if cfg.keepTokens > 0 then cfg.keepTokens
    else if input.keepTokens > 0 then input.keepTokens
    else DEFAULT_KEEP_TOKENS
  }

  /** The budget is the first that is set: the compactor's, the agent's, the default. */
  lemma BudgetIsFirstSet(cfg: Config, input: CompactInput)
    ensures var budgets := [cfg.keepTokens, input.keepTokens, 20_000];
            exists i | 0 <= i < 3 :: Budget(cfg, input) == budgets[i] > 0 && forall k | 0 <= k < i :: budgets[k] <= 0
  {
    var budgets := [cfg.keepTokens, input.keepTokens, 20_000];
    var i := if cfg.keepTokens > 0 then 0 else if input.keepTokens > 0 then 1 else 2;
    assert Budget(cfg, input) == budgets[i] > 0;
  }

  /** The first index from `start` on whose suffix, clipped, fits the budget. */
  function FitFrom(msgs: seq<Message>, budget: nat, start: nat): (n: nat)
    requires start <= |msgs|
    ensures start <= n <= |msgs|
    decreases |msgs| - start
  {
    if start < |msgs| && Estimate.Tokens(ClipAll(msgs[start..])) > budget then FitFrom(msgs, budget, start + 1)
    else start
  }

  function KeepFrom(cfg: Config, input: CompactInput): (n: nat)
    ensures n <= |input.messages|
  {
    FitFrom(input.messages, Budget(cfg, input), SnapLog.Max(|input.messages| - cfg.keepRecent, 0))
  }

  method FindKeepFrom(cfg: Config, input: CompactInput) returns (start: nat)
    ensures start == KeepFrom(cfg, input)
  {
    hide ClipAll, Estimate.Tokens;
    var budget := cfg.keepTokens;
    if budget <= 0 {
      budget := if input.keepTokens > 0 then input.keepTokens else 0;
    }
    if budget <= 0 {
      budget := DEFAULT_KEEP_TOKENS;
    }
    var msgs := input.messages;
    start := SnapLog.Max(|msgs| - cfg.keepRecent, 0);
    ghost var target := FitFrom(msgs, budget, start);
    assert target == KeepFrom(cfg, input);
    while start < |msgs|
      invariant start <= |msgs|
      invariant FitFrom(msgs, budget, start) == target
    {
      var clipped := ClipToolResults(msgs[start..]);
      var tokens := Estimate.EstimateTokens(clipped);
      if tokens <= budget {
        return;
      }
      start := start + 1;
    }
  }

  predicate IsUser(m: Message) {
    m.role == User
  }

  predicate HasUser(msgs: seq<Message>) {
    exists i | 0 <= i < |msgs| :: IsUser(msgs[i])
  }

  function LastUser(msgs: seq<Message>): Option<Message> {
    if msgs == [] then None
    else if IsUser(msgs[|msgs| - 1]) then Some(msgs[|msgs| - 1])
    else LastUser(msgs[..|msgs| - 1])
  }

  method LastUserMessage(msgs: seq<Message>) returns (m: Option<Message>)
    ensures m == LastUser(msgs)
  {
    var i := |msgs| - 1;
    assert msgs[..|msgs|] == msgs;
    while i >= 0
      invariant -1 <= i < |msgs| && LastUser(msgs[..i + 1]) == LastUser(msgs)
    {
      if IsUser(msgs[i]) {
        return Some(msgs[i]);
      }
      assert msgs[..i + 1][..i] == msgs[..i];
      i := i - 1;
    }
    return None;
  }

  function PinnedFor(input: CompactInput, older: seq<Message>, recent: seq<Message>): seq<Message> {
    if HasUser(recent) then []
    else
      match LastUser(older)
      case Some(task) => [task]
      case None => if input.previous.Some? then input.previous.value.pinned else []
  }

  const UNSTORED := Junk("")

  /** The compaction a SummaryCompactor makes. */
  function Summarized(cfg: Config, input: CompactInput): CompactResult {
    var split := Split.SplitAt(input.messages, KeepFrom(cfg, input));
    if split == 0 then NothingToCompact
    else
      var older, recent := input.messages[..split], input.messages[split..];
      var previous := if input.previous.Some? then input.previous.value.summary else "";
      match cfg.summarize(previous, older)
      case None => CompactFailed
      case Some(summary) =>
        Compacted(Compaction(Snapshot(summary, PinnedFor(input, older, recent), UNSTORED), ClipAll(recent)))
  }

  method CompactWith(cfg: Config, input: CompactInput) returns (r: CompactResult)
    ensures r == Summarized(cfg, input)
  {
    var want := FindKeepFrom(cfg, input);
    var split := Split.SplitPoint(input.messages, want);
    if split == 0 {
      return NothingToCompact;
    }
    var older, recent := input.messages[..split], input.messages[split..];
    var previous := "";
    if input.previous.Some? {
      previous := input.previous.value.summary;
    }
    var summary := cfg.summarize(previous, older);
    if summary.None? {
      return CompactFailed;
    }
    var snapshot := Snapshot(summary.value, [], UNSTORED);
    if !HasUser(recent) {
      var task := LastUserMessage(older);
      if task.Some? {
        snapshot := snapshot.(pinned := [task.value]);
      } else if input.previous.Some? {
        snapshot := snapshot.(pinned := input.previous.value.pinned);
      }
    }
    var kept := ClipToolResults(recent);
    return Compacted(Compaction(snapshot, kept));
  }

  // ---- what every compaction of a SummaryCompactor keeps

  /** The suffix from `k` may be kept: few enough messages, within the budget, and no tool result
      first. */
  predicate MayKeepFrom(cfg: Config, input: CompactInput, k: nat)
    requires k <= |input.messages|
  {
    && |input.messages| - k <= cfg.keepRecent
    && Estimate.Tokens(ClipAll(input.messages[k..])) <= Budget(cfg, input)
    && (k < |input.messages| ==> input.messages[k].role != Tool)
  }

  lemma {:induction false} FitsFrom(msgs: seq<Message>, budget: nat, start: nat)
    requires start <= |msgs| && budget > 0
    ensures var n := FitFrom(msgs, budget, start);
            && Estimate.Tokens(ClipAll(msgs[n..])) <= budget
            && forall k | start <= k < n :: Estimate.Tokens(ClipAll(msgs[k..])) > budget
    decreases |msgs| - start
  {
    if start == |msgs| {
      assert ClipAll(msgs[start..]) == [];
    } else if Estimate.Tokens(ClipAll(msgs[start..])) > budget {
      FitsFrom(msgs, budget, start + 1);
    }
  }

  lemma ShorterSuffixCostsLess(msgs: seq<Message>, a: nat, b: nat)
    requires a <= b <= |msgs|
    ensures Estimate.Tokens(ClipAll(msgs[b..])) <= Estimate.Tokens(ClipAll(msgs[a..]))
  {
    var before := ClipAll(msgs[a..b]);
    assert ClipAll(msgs[a..]) == before + ClipAll(msgs[b..]) + [];
    Estimate.TokensOfPart(before, ClipAll(msgs[b..]), []);
  }

  /** A SummaryCompactor keeps the longest suffix it may keep. */
  lemma KeepsTheLongestSuffix(cfg: Config, input: CompactInput)
    ensures var split := Split.SplitAt(input.messages, KeepFrom(cfg, input));
            && MayKeepFrom(cfg, input, split)
            && forall k | 0 <= k < split :: !MayKeepFrom(cfg, input, k)
  {
    hide ClipAll, Estimate.Tokens, FitFrom;
    var msgs := input.messages;
    var start := SnapLog.Max(|msgs| - cfg.keepRecent, 0);
    var from := KeepFrom(cfg, input);
    var split := Split.SplitAt(msgs, from);
    FitsFrom(msgs, Budget(cfg, input), start);
    Split.SplitAtFacts(msgs, from);
    ShorterSuffixCostsLess(msgs, from, split);
  }

  lemma ClippedSuffix(msgs: seq<Message>, k: nat)
    requires k <= |msgs|
    ensures var kept := ClipAll(msgs[k..]);
            |kept| == |msgs| - k && forall i | 0 <= i < |kept| :: LinesUp(kept[i], msgs[k + i])
  {
  }

  /** Every compaction a SummaryCompactor makes is accepted, and keeps at most keepRecent
      messages within the token budget. */
  lemma SummaryPassesCheck(cfg: Config, input: CompactInput)
    requires Summarized(cfg, input).Compacted?
    ensures var c := Summarized(cfg, input).compaction;
            && CheckOf(c, input).Valid?
            && |c.kept| <= cfg.keepRecent
            && Estimate.Tokens(c.kept) <= Budget(cfg, input)
  {
    hide ClipAll, Estimate.Tokens, FitFrom, Split.SplitAt, KeepFrom, CheckOf;
    KeepsTheLongestSuffix(cfg, input);
    ClippedSuffix(input.messages, Split.SplitAt(input.messages, KeepFrom(cfg, input)));
    CheckAccepts(Summarized(cfg, input).compaction, input);
  }

  /** With no tool call cut from its results: both sides of the split stay closed. */
  lemma SummaryKeepsRoundsWhole(cfg: Config, input: CompactInput)
    requires Closed(input.messages) && Summarized(cfg, input).Compacted?
    ensures var c := Summarized(cfg, input).compaction;
            Closed(input.messages[..|input.messages| - |c.kept|]) && Closed(c.kept)
  {
    var split := SummarySplit(cfg, input);
    ClipLinesUp(input.messages[split..]);
    ClosedLinedUp(input.messages[split..], ClipAll(input.messages[split..]));
  }

  lemma SummarySplit(cfg: Config, input: CompactInput) returns (split: nat)
    requires Summarized(cfg, input).Compacted?
    ensures 0 < split <= |input.messages|
    ensures Summarized(cfg, input).compaction.kept == ClipAll(input.messages[split..])
    ensures |Summarized(cfg, input).compaction.kept| == |input.messages| - split
    ensures split < |input.messages| ==> input.messages[split].role != Tool
    ensures Closed(input.messages) ==> Closed(input.messages[..split]) && Closed(input.messages[split..])
  {
    split := Split.SplitAt(input.messages, KeepFrom(cfg, input));
    Split.SplitAtFacts(input.messages, KeepFrom(cfg, input));
    if Closed(input.messages) {
      Split.SplitKeepsRoundsWhole(input.messages, KeepFrom(cfg, input));
    }
  }

  lemma ClipLinesUp(msgs: seq<Message>)
    ensures forall i | 0 <= i < |msgs| :: LinesUp(ClipAll(msgs)[i], msgs[i])
  {
  }

  lemma AnswersLinedUp(calls: seq<ToolCall>, others: seq<ToolCall>, results: seq<Message>, lined: seq<Message>)
    requires |calls| == |others| && forall i | 0 <= i < |calls| :: calls[i].id == others[i].id
    requires |results| == |lined| && forall i | 0 <= i < |results| :: LinesUp(lined[i], results[i])
    requires Answers(calls, results)
    ensures Answers(others, lined)
  {
    forall i | 0 <= i < |lined|
      ensures lined[i].role == Tool && lined[i].callID == others[i].id && lined[i].calls == []
    {
      assert LinesUp(lined[i], results[i]);
    }
  }

  /** Rounds depend on roles and call ids only. */
  lemma {:induction false} ClosedLinedUp(a: seq<Message>, b: seq<Message>)
    requires |a| == |b| && forall i | 0 <= i < |a| :: LinesUp(b[i], a[i])
    requires Closed(a)
    ensures Closed(b)
    decreases |a|
  {
    if a != [] {
      var n := |a[0].calls|;
      assert LinesUp(b[0], a[0]);
      AnswersLinedUp(a[0].calls, b[0].calls, a[1..1 + n], b[1..1 + n]);
      ClosedLinedUp(a[1 + n..], b[1 + n..]);
    }
  }

  // ---- the latest user message

  /** What the session holds after its system prompt. */
  datatype Held = Held(snapshot: Option<Snapshot>, tail: seq<Message>)

  datatype Move = Append(msgs: seq<Message>) | CompactNow(cfg: Config, keepTokens: int)

  function Moved(h: Held, move: Move): Held {
    match move
    case Append(msgs) => h.(tail := h.tail + msgs)
    case CompactNow(cfg, keepTokens) =>
      match Summarized(cfg, CompactInput(h.snapshot, h.tail, keepTokens))
      case Compacted(c) => Held(Some(c.snapshot), c.kept)
      case _ => h
  }

  function HeldAfter(h: Held, moves: seq<Move>): Held {
    if moves == [] then h else Moved(HeldAfter(h, moves[..|moves| - 1]), moves[|moves| - 1])
  }

  /** Every message appended, in order. */
  function Appended(msgs: seq<Message>, moves: seq<Move>): seq<Message> {
    if moves == [] then msgs
    else
      var before := Appended(msgs, moves[..|moves| - 1]);
      match moves[|moves| - 1]
      case Append(more) => before + more
      case _ => before
  }

  /** What the session was last asked: a user message in the tail, or pinned to the summary. */
  function Task(h: Held): Option<Message> {
    match LastUser(h.tail)
    case Some(m) => Some(m)
    case None => if h.snapshot.Some? then LastUser(h.snapshot.value.pinned) else None
  }

  function OrElse(a: Option<Message>, b: Option<Message>): Option<Message> {
    if a.Some? then a else b
  }

  lemma {:induction false} LastUserConcat(a: seq<Message>, b: seq<Message>)
    ensures LastUser(a + b) == OrElse(LastUser(b), LastUser(a))
  {
    if b == [] {
      assert a + b == a;
    } else {
      assert (a + b)[..|a + b| - 1] == a + b[..|b| - 1];
      LastUserConcat(a, b[..|b| - 1]);
    }
  }

  lemma {:induction false} LastUserExists(msgs: seq<Message>)
    ensures LastUser(msgs).Some? <==> HasUser(msgs)
    ensures LastUser(msgs).Some? ==> LastUser(msgs).value in msgs && IsUser(LastUser(msgs).value)
  {
    if msgs != [] {
      LastUserExists(msgs[..|msgs| - 1]);
      if !IsUser(msgs[|msgs| - 1]) && HasUser(msgs) {
        var i :| 0 <= i < |msgs| && IsUser(msgs[i]);
        assert IsUser(msgs[..|msgs| - 1][i]);
      }
    }
  }

  /** The last message whose role is the user's. */
  lemma {:induction false} LastUserIs(msgs: seq<Message>)
    ensures LastUser(msgs).None? <==> forall i | 0 <= i < |msgs| :: msgs[i].role != User
    ensures LastUser(msgs).Some? ==> exists i | 0 <= i < |msgs| ::
              && msgs[i] == LastUser(msgs).value && msgs[i].role == User
              && forall k | i < k < |msgs| :: msgs[k].role != User
  {
    if msgs != [] && msgs[|msgs| - 1].role != User {
      var front := msgs[..|msgs| - 1];
      LastUserIs(front);
      assert forall i | 0 <= i < |front| :: front[i] == msgs[i];
    }
  }

  /** A compaction pins a message only when it keeps none of the user: at most the task, or what was
      pinned before. */
  lemma PinsOnlyWhatIsMissing(cfg: Config, input: CompactInput)
    requires Summarized(cfg, input).Compacted?
    ensures var c := Summarized(cfg, input).compaction;
            var kept := |c.kept|;
            && kept < |input.messages|
            && ((exists i | 0 <= i < kept :: c.kept[i].role == User) ==> c.snapshot.pinned == [])
            && (c.snapshot.pinned == []
                || (exists m <- input.messages[..|input.messages| - kept] :: m.role == User && c.snapshot.pinned == [m])
                || (input.previous.Some? && c.snapshot.pinned == input.previous.value.pinned))
  {
    var split := Split.SplitAt(input.messages, KeepFrom(cfg, input));
    var older, recent := input.messages[..split], input.messages[split..];
    LastUserExists(older);
    if i :| 0 <= i < |recent| && ClipAll(recent)[i].role == User {
      assert IsUser(recent[i]);
    }
  }

  lemma {:induction false} ClipKeepsUsers(msgs: seq<Message>)
    ensures LastUser(ClipAll(msgs)) == LastUser(msgs)
  {
    if msgs != [] {
      ClipKeepsUsers(msgs[..|msgs| - 1]);
      assert ClipAll(msgs)[..|msgs| - 1] == ClipAll(msgs[..|msgs| - 1]);
    }
  }

  lemma CompactKeepsTask(h: Held, cfg: Config, keepTokens: int)
    ensures Task(Moved(h, CompactNow(cfg, keepTokens))) == Task(h)
  {
    var input := CompactInput(h.snapshot, h.tail, keepTokens);
    if Summarized(cfg, input).Compacted? {
      var split := Split.SplitAt(h.tail, KeepFrom(cfg, input));
      var older, recent := h.tail[..split], h.tail[split..];
      assert h.tail == older + recent;
      LastUserConcat(older, recent);
      LastUserExists(recent);
      LastUserExists(older);
      ClipKeepsUsers(recent);
      if LastUser(recent).None? && LastUser(older).Some? {
        assert [LastUser(older).value][..0] == [];
      }
    }
  }

  /** However often the session is compacted, the latest user message stays in it verbatim, among
      the kept messages or pinned to the summary: the last one appended, or the one the session
      began with. */
  lemma {:induction false} TaskSurvives(start: Held, moves: seq<Move>)
    ensures Task(HeldAfter(start, moves)) == OrElse(LastUser(Appended(start.tail, moves)), Task(start))
    ensures var h := HeldAfter(start, moves);
            Task(h).Some? ==> Task(h).value in h.tail || (h.snapshot.Some? && Task(h).value in h.snapshot.value.pinned)
  {
    var h := HeldAfter(start, moves);
    if moves != [] {
      var front := moves[..|moves| - 1];
      TaskSurvives(start, front);
      match moves[|moves| - 1]
      case Append(more) =>
        LastUserConcat(HeldAfter(start, front).tail, more);
        LastUserConcat(Appended(start.tail, front), more);
      case CompactNow(cfg, keepTokens) =>
        CompactKeepsTask(HeldAfter(start, front), cfg, keepTokens);
    }
    LastUserExists(h.tail);
    if h.snapshot.Some? {
      LastUserExists(h.snapshot.value.pinned);
    }
  }

  // ---- what a summary is made of

  function PreviousSummary(previous: Option<Snapshot>): string {
    if previous.Some? then previous.value.summary else ""
  }

  /** The summary is what the model makes of the previous one and of exactly the messages that are
      not kept. Nothing is compacted exactly when everything may be kept, and a compaction fails
      exactly when the model does. */
  lemma SummaryIsOfTheDropped(cfg: Config, input: CompactInput)
    ensures var made, n := Summarized(cfg, input), |input.messages|;
            && (made.NothingToCompact? <==> MayKeepFrom(cfg, input, 0))
            && (made.CompactFailed? ==> exists k | 0 < k <= n ::
                  cfg.summarize(PreviousSummary(input.previous), input.messages[..k]) == None)
            && (made.Compacted? ==>
                  && |made.compaction.kept| < n
                  && cfg.summarize(PreviousSummary(input.previous), input.messages[..n - |made.compaction.kept|]) ==
                     Some(made.compaction.snapshot.summary))
  {
    hide Estimate.Tokens, KeepFrom, Split.SplitAt, PinnedFor;
    KeepsTheLongestSuffix(cfg, input);
  }

  /** A record of messages, that a clipped tool result leaves as it is. */
  function Record(msgs: seq<Message>, note: Message -> string): string {
    if msgs == [] then "" else Record(msgs[..|msgs| - 1], note) + note(msgs[|msgs| - 1])
  }

  ghost predicate ClipKeepsNote(note: Message -> string) {
    forall m :: note(Clip(m)) == note(m)
  }

  /** The model adds the record of the conversation to the previous summary. */
  ghost predicate Records(cfg: Config, note: Message -> string) {
    forall previous, older :: cfg.summarize(previous, older) == Some(previous + Record(older, note))
  }

  ghost predicate AllRecord(moves: seq<Move>, note: Message -> string) {
    forall i | 0 <= i < |moves| && moves[i].CompactNow? :: Records(moves[i].cfg, note)
  }

  /** The record of a session: its summary, then the record of its tail. */
  function RecordOf(h: Held, note: Message -> string): string {
    PreviousSummary(h.snapshot) + Record(h.tail, note)
  }

  lemma {:induction false} RecordConcat(a: seq<Message>, b: seq<Message>, note: Message -> string)
    ensures Record(a + b, note) == Record(a, note) + Record(b, note)
  {
    if b == [] {
      assert a + b == a;
    } else {
      assert (a + b)[..|a + b| - 1] == a + b[..|b| - 1];
      RecordConcat(a, b[..|b| - 1], note);
    }
  }

  lemma {:induction false} RecordClipped(msgs: seq<Message>, note: Message -> string)
    requires ClipKeepsNote(note)
    ensures Record(ClipAll(msgs), note) == Record(msgs, note)
  {
    hide Clip;
    if msgs != [] {
      RecordClipped(msgs[..|msgs| - 1], note);
      assert ClipAll(msgs)[..|msgs| - 1] == ClipAll(msgs[..|msgs| - 1]);
    }
  }

  lemma CompactKeepsRecord(h: Held, cfg: Config, keepTokens: int, note: Message -> string)
    requires Records(cfg, note) && ClipKeepsNote(note)
    ensures RecordOf(Moved(h, CompactNow(cfg, keepTokens)), note) == RecordOf(h, note)
  {
    hide ClipAll, Estimate.Tokens, KeepFrom, Split.SplitAt, PinnedFor, Record, ClipKeepsNote;
    var input := CompactInput(h.snapshot, h.tail, keepTokens);
    var split := Split.SplitAt(h.tail, KeepFrom(cfg, input));
    if split != 0 {
      var older, recent := h.tail[..split], h.tail[split..];
      assert h.tail == older + recent;
      RecordConcat(older, recent, note);
      RecordClipped(recent, note);
      assert cfg.summarize(PreviousSummary(h.snapshot), older) ==
             Some(PreviousSummary(h.snapshot) + Record(older, note));
    }
  }

  lemma Reassociate(a: string, b: string, c: string)
    ensures a + (b + c) == (a + b) + c
  {
  }

  /** No message gets lost: with a model that records what it is given, the summary and the tail
      record everything the session began with and everything appended, once and in order,
      whatever compactions there were. */
  lemma {:induction false} EverythingIsRecorded(start: Held, moves: seq<Move>, note: Message -> string)
    requires AllRecord(moves, note) && ClipKeepsNote(note)
    ensures RecordOf(HeldAfter(start, moves), note) ==
            PreviousSummary(start.snapshot) + Record(Appended(start.tail, moves), note)
  {
    hide Record, ClipKeepsNote, Records;
    if moves != [] {
      var front := moves[..|moves| - 1];
      EverythingIsRecorded(start, front, note);
      match moves[|moves| - 1]
      case Append(more) =>
        var h, all := HeldAfter(start, front), Appended(start.tail, front);
        RecordConcat(h.tail, more, note);
        RecordConcat(all, more, note);
        Reassociate(PreviousSummary(h.snapshot), Record(h.tail, note), Record(more, note));
        Reassociate(PreviousSummary(start.snapshot), Record(all, note), Record(more, note));
      case CompactNow(cfg, keepTokens) =>
        CompactKeepsRecord(HeldAfter(start, front), cfg, keepTokens, note);
    }
  }
}
