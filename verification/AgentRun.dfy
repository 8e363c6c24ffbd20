/** The run loop of an agent (agent/agent.go): a session in memory, two indices into it, two
    snapshots that may differ, and a log that only grows. */
module AgentRun {
  import opened Messages
  import opened SnapLog
  import opened Alignment
  import opened Turns
  import opened Asking
  import JsonFile
  import opened Compact
  import Estimate

  datatype Agent = Agent(
    system: string, checkpoint: bool, compactAt: nat, compactor: Option<Compactor>,
    maxIterations: int, handoffs: set<string>)

  datatype End =
    | Finished | ToolStopped | HandedOff | Cancelled | MaxIterationsReached
    | LLMFailed | CompactionFailed | SessionSaveFailed

  datatype CompactOutcome = Replaced | Unchanged | Broke

  /** How an iteration leaves the loop: the call failed, the model is called again, or the run ends. */
  datatype Next = CallError | CallAgain | Ends(end: End)

  /** What a model call was sent: the session, the snapshot it starts from, the first message not
      saved, how many rounds were complete, and the tokens last reported, if any. */
  datatype Prompt = Prompt(
    session: seq<Message>, snapshot: Option<Snapshot>, savedTo: nat, rounds: nat, tokens: nat)

  /** A stored snapshot: the log it was stored against, what it stood for before (`from` of the
      log's messages), the position it stands up to, and the messages kept after it. */
  datatype Stored = Stored(log: seq<Message>, from: nat, pos: nat, kept: seq<Message>)

  /** What asking the compactor comes to. */
  function Asked(made: Compact.CompactResult, input: Compact.CompactInput): CompactOutcome {
    match made
    case CompactFailed => Broke
    case NothingToCompact => Unchanged
    case Compacted(c) => if Compact.CheckOf(c, input).Valid? then Replaced else Broke
  }

  /** Whether a round is the run's last: an answer without calls always is. With calls it is when a
      tool asked for a stop, or else when a call was a handoff; never when the answer was cut. */
  function EndOfRound(reply: Reply, handoffs: set<string>): Option<End>
    requires reply.Answered?
  {
    if reply.calls == [] then Some(Finished)
    else if reply.cut then None
    else if exists i | 0 <= i < |reply.calls| :: reply.tools(i).StopRun? then Some(ToolStopped)
    else if exists i | 0 <= i < |reply.calls| :: reply.calls[i].name in handoffs then Some(HandedOff)
    else None
  }

  /** Only an accepted compaction replaces the session; one that fails or is refused ends the run, and
      nothing to compact changes nothing. */
  lemma AskedExactly(made: Compact.CompactResult, input: Compact.CompactInput)
    ensures Asked(made, input) == Unchanged <==> made.NothingToCompact?
    ensures Asked(made, input) == Replaced <==>
            && made.Compacted?
            && (made.compaction.kept == []
                || (|made.compaction.kept| < |input.messages| && made.compaction.kept[0].role != Tool))
            && forall k | 0 <= k < |made.compaction.kept| ::
              Compact.LinesUp(made.compaction.kept[k], input.messages[|input.messages| - |made.compaction.kept| + k])
  {
    if made.Compacted? {
      Compact.CheckAccepts(made.compaction, input);
    }
  }

  /** A tool the run asked for stops it. */
  predicate Stopped(reply: Reply) {
    reply.Answered? && !reply.cut && exists i | 0 <= i < |reply.calls| :: reply.tools(i).StopRun?
  }

  predicate HandsOff(reply: Reply, handoffs: set<string>) {
    reply.Answered? && !reply.cut && exists i | 0 <= i < |reply.calls| :: reply.calls[i].name in handoffs
  }

  /** An answer without calls ends the run, cut off or not. With calls a round ends it when one stops
      the run, which comes before a handoff; calls that were cut off end nothing. */
  lemma RoundEndsExactly(reply: Reply, handoffs: set<string>)
    requires reply.Answered?
    ensures var end := EndOfRound(reply, handoffs);
            && (end == Some(Finished) <==> reply.calls == [])
            && (end == Some(ToolStopped) <==> Stopped(reply))
            && (end == Some(HandedOff) <==> HandsOff(reply, handoffs) && !Stopped(reply))
            && (end == None <==> reply.calls != [] && !Stopped(reply) && !HandsOff(reply, handoffs))
  {
  }

  predicate GoesOn(reply: Reply, handoffs: set<string>) {
    reply.Answered? ==> EndOfRound(reply, handoffs) == None
  }

  /** `end` is how an iteration can end the run. */
  predicate EndedBy(end: End, step: Step, agent: Agent) {
    match step.reply
    case CallFailed(_) => end == if step.cancelledAfter then Cancelled else LLMFailed
    case Answered(_, _, _, _, _) =>
      match EndOfRound(step.reply, agent.handoffs)
      case Some(why) => end == why
      case None => end == SessionSaveFailed && agent.checkpoint
  }

  /** `end` is how a run of `n` iterations of `script` can end: before another, or by the last. */
  predicate EndsBy(end: End, script: seq<Step>, n: nat, agent: Agent)
    requires n <= |script|
  {
    || (end == Cancelled && (n == |script| || script[n].cancelled))
    || (end == MaxIterationsReached && agent.maxIterations > 0 && n >= agent.maxIterations)
    || (end == CompactionFailed && agent.compactor.Some? && agent.compactAt > 0)
    || (n > 0 && EndedBy(end, script[n - 1], agent))
  }

  /** No iteration but the last of the `n` could end the run, and none began cancelled. */
  predicate RanOn(script: seq<Step>, n: nat, agent: Agent)
    requires n <= |script|
  {
    && (forall k | 0 <= k < n :: !script[k].cancelled)
    && forall k | 0 <= k < n - 1 :: GoesOn(script[k].reply, agent.handoffs)
  }

  /** Nothing fails but model calls: every write works, and every compaction is accepted or finds
      nothing to do. */
  ghost predicate Reliable(agent: Agent, mem: JsonFile.Memory?) {
    && (mem != null ==> forall k: nat :: mem.writes(k))
    && (agent.compactor.Some? ==> forall n: nat, input :: Asked(agent.compactor.value(n, input), input) != Broke)
  }

  /** How iteration `k` then ends the run: a failed call does, but a prompt too long is compacted and
      sent again, once in a row. */
  function EndsAt(script: seq<Step>, k: nat, agent: Agent): Option<End>
    requires k < |script|
  {
    match script[k].reply
    case CallFailed(tooLong) =>
      if script[k].cancelledAfter then Some(Cancelled)
      else if tooLong && agent.compactor.Some? && !(k > 0 && script[k - 1].reply.CallFailed?) then None
      else Some(LLMFailed)
    case Answered(_, _, _, _, _) => EndOfRound(script[k].reply, agent.handoffs)
  }

  /** After how many iterations the run then ends, and how, when it gets to iteration `k`. */
  function RunEnd(script: seq<Step>, k: nat, agent: Agent): (nat, End)
    requires k <= |script|
    decreases |script| - k
  {
    if k == |script| || script[k].cancelled then (k, Cancelled)
    else if agent.maxIterations > 0 && k >= agent.maxIterations then (k, MaxIterationsReached)
    else
      match EndsAt(script, k, agent)
      case Some(end) => (k + 1, end)
      case None => RunEnd(script, k + 1, agent)
  }

  lemma {:induction false} RunEndIs(script: seq<Step>, k: nat, agent: Agent)
    requires k <= |script|
    ensures var n := RunEnd(script, k, agent).0;
            && k <= n <= |script| && (agent.maxIterations > 0 && k <= agent.maxIterations ==> n <= agent.maxIterations)
            && forall j | k <= j < n - 1 :: EndsAt(script, j, agent) == None && !script[j].cancelled
    decreases |script| - k
  {
    if k < |script| && EndsAt(script, k, agent) == None {
      RunEndIs(script, k + 1, agent);
    }
  }

  /** A failed call that such a run survives was too long and a compactor could shorten it; the call
      before it, and the one after it unless that ends the run, were answered. */
  lemma FailedCallsRepeatOnce(script: seq<Step>, agent: Agent, k: nat)
    requires k + 1 < RunEnd(script, 0, agent).0
    ensures RunEnd(script, 0, agent).0 <= |script|
    ensures script[k].reply.CallFailed? ==>
              && script[k].reply.tooLong && agent.compactor.Some? && !script[k].cancelledAfter
              && (k > 0 ==> script[k - 1].reply.Answered?)
              && (k + 2 < RunEnd(script, 0, agent).0 ==> script[k + 1].reply.Answered?)
  {
    RunEndIs(script, 0, agent);
    assert EndsAt(script, k, agent) == None;
    if k + 2 < RunEnd(script, 0, agent).0 {
      assert EndsAt(script, k + 1, agent) == None;
    }
  }

  /** What a run is given: its input and script, and the session it starts from; whether nothing but
      model calls fails. */
  datatype Course = Course(
    input: seq<Part>, script: seq<Step>, start: seq<Message>, agent: Agent, reliable: bool)

  /** Each prompt is `start`, then all that the run had said before it. */
  predicate SaysAll(prompts: seq<Prompt>, start: seq<Message>, input: seq<Part>, script: seq<Step>) {
    |prompts| <= |script| && forall k | 0 <= k < |prompts| :: prompts[k].session == start + Transcript(input, script, k)
  }

  /** What `n` iterations leave, however the run goes on: they added what the script says, one prompt
      each; none of them could end the run but the last; every due prompt was offered to the compactor. */
  ghost predicate Ran(c: Course, past: Past, n: nat) {
    && n <= |c.script| && (c.agent.maxIterations > 0 ==> n <= c.agent.maxIterations)
    && past.added == Transcript(c.input, c.script, n) && |past.prompts| == n
    && RanOn(c.script, n, c.agent) && AllHeed(past.prompts, c.agent)
    && (c.agent.compactor.None? ==> SaysAll(past.prompts, c.start, c.input, c.script))
  }

  /** A run that goes on after `n` iterations; `failed` says that the last call failed. */
  ghost predicate OnCourse(c: Course, past: Past, session: seq<Message>, failed: bool, n: nat) {
    && Ran(c, past, n)
    && (n > 0 ==> GoesOn(c.script[n - 1].reply, c.agent.handoffs))
    && (failed <==> n > 0 && c.script[n - 1].reply.CallFailed?)
    && (c.reliable ==> RunEnd(c.script, n, c.agent) == RunEnd(c.script, 0, c.agent))
    && (c.agent.compactor.None? ==> session == c.start + Transcript(c.input, c.script, n))
  }

  /** A run that ended after `n` iterations, for a reason it could have; where the script alone says,
      when nothing but model calls fails. */
  ghost predicate Ended(c: Course, past: Past, end: End, n: nat) {
    && Ran(c, past, n)
    && EndsBy(end, c.script, n, c.agent)
    && (c.reliable ==> (n, end) == RunEnd(c.script, 0, c.agent))
  }

  lemma EndedGives(c: Course, past: Past, end: End, n: nat)
    requires Ended(c, past, end, n)
    ensures n <= |c.script| && (c.agent.maxIterations > 0 ==> n <= c.agent.maxIterations)
    ensures past.added == Transcript(c.input, c.script, n) && |past.prompts| == n
    ensures RanOn(c.script, n, c.agent) && EndsBy(end, c.script, n, c.agent) && AllHeed(past.prompts, c.agent)
    ensures c.agent.compactor.None? ==> SaysAll(past.prompts, c.start, c.input, c.script)
    ensures c.reliable ==> (n, end) == RunEnd(c.script, 0, c.agent)
  {
  }

  lemma StartsOnCourse(c: Course, past: Past)
    requires past.prompts == [] && past.added == UserTurn(c.input)
    ensures OnCourse(c, past, c.start + UserTurn(c.input), false, 0)
  {
    TranscriptStart(c.input, c.script);
  }

  /** The ends before an iteration. */
  lemma EndsEarly(c: Course, past: Past, session: seq<Message>, failed: bool, n: nat)
    requires OnCourse(c, past, session, failed, n)
    ensures n == |c.script| || c.script[n].cancelled ==> Ended(c, past, Cancelled, n)
    ensures n < |c.script| && !c.script[n].cancelled && c.agent.maxIterations > 0 && n >= c.agent.maxIterations ==>
              Ended(c, past, MaxIterationsReached, n)
    ensures c.agent.compactor.Some? && c.agent.compactAt > 0 && !c.reliable ==> Ended(c, past, CompactionFailed, n)
  {
    hide RanOn, AllHeed, SaysAll, Transcript, GoesOn;
  }

  /** A compaction does not take a run off its course. */
  lemma CompactedOnCourse(c: Course, was: Past, past: Past, before: seq<Message>, session: seq<Message>,
                          failed: bool, n: nat)
    requires OnCourse(c, was, before, failed, n) && past.prompts == was.prompts && past.added == was.added
    requires c.agent.compactor.None? ==> session == before
    ensures OnCourse(c, past, session, failed, n)
  {
    hide RunEnd, GoesOn, Transcript, RanOn, AllHeed, SaysAll;
  }

  /** What an iteration does to the course of a run. */
  lemma GoesFurther(c: Course, was: Past, sent: Prompt, failed: bool, past: Past, session: seq<Message>,
                    failed': bool, n: nat, stop: bool, end: End)
    requires n < |c.script| && OnCourse(c, was, sent.session, failed, n) && Heeds(sent, n, c.agent)
    requires !c.script[n].cancelled && (c.agent.maxIterations > 0 ==> n < c.agent.maxIterations)
    requires past.added == was.added + Round(c.script[n].reply) && past.prompts == was.prompts + [sent]
    requires c.agent.compactor.None? ==> session == sent.session + Round(c.script[n].reply)
    requires var step := c.script[n];
             && (if stop then EndedBy(end, step, c.agent) else GoesOn(step.reply, c.agent.handoffs))
             && (c.reliable && step.reply.CallFailed? ==>
                   (!stop <==> !step.cancelledAfter && step.reply.tooLong && c.agent.compactor.Some? && !failed))
             && (c.reliable && step.reply.Answered? && GoesOn(step.reply, c.agent.handoffs) ==> !stop)
             && (!stop ==> (failed' <==> step.reply.CallFailed?))
    ensures if stop then Ended(c, past, end, n + 1) else OnCourse(c, past, session, failed', n + 1)
  {
    hide EndOfRound, RanOn, AllHeed, SaysAll, Transcript, GoesOn, Heeds, Round;
    RunsOn(c.script, n, c.agent);
    TranscriptStep(c.input, c.script, n);
    AllHeedMore(was.prompts, sent, c.agent);
    if c.agent.compactor.None? {
      SaysMore(was.prompts, sent, c.start, c.input, c.script);
    }
    if c.reliable {
      RunEndStep(c, n, stop, end);
    }
  }

  lemma RunEndStep(c: Course, n: nat, stop: bool, end: End)
    requires n < |c.script| && !c.script[n].cancelled && (c.agent.maxIterations > 0 ==> n < c.agent.maxIterations)
    requires var step := c.script[n];
             && (if stop then EndedBy(end, step, c.agent) else GoesOn(step.reply, c.agent.handoffs))
             && (step.reply.CallFailed? ==>
                   (!stop <==>
                      && !step.cancelledAfter && step.reply.tooLong && c.agent.compactor.Some?
                      && !(n > 0 && c.script[n - 1].reply.CallFailed?)))
             && (step.reply.Answered? && GoesOn(step.reply, c.agent.handoffs) ==> !stop)
    ensures RunEnd(c.script, n, c.agent) == if stop then (n + 1, end) else RunEnd(c.script, n + 1, c.agent)
  {
    hide EndOfRound;
  }

  lemma NoneRan(script: seq<Step>, agent: Agent)
    ensures RanOn(script, 0, agent)
  {
  }

  lemma RunsOn(script: seq<Step>, n: nat, agent: Agent)
    requires n < |script| && RanOn(script, n, agent) && !script[n].cancelled
    requires n > 0 ==> GoesOn(script[n - 1].reply, agent.handoffs)
    ensures RanOn(script, n + 1, agent)
  {
  }

  /** The messages a session starts with. */
  function Head(system: string, snapshot: Option<Snapshot>): seq<Message> {
    [SystemMessage(system)] + (if snapshot.Some? then SummaryMessages(snapshot.value) else [])
  }

  /** The messages a run loads, after any snapshot. */
  ghost function Loadable(mem: JsonFile.Memory): seq<Message>
    requires mem.Valid()
    reads mem
  {
    if mem.snapshots then Loads(mem.full, Covered(mem.snapshot)) else Replayable(mem.full)
  }

  /** A prompt reaches both thresholds: of the whole, and of what a compaction could shorten. */
  predicate IsDue(p: Prompt, agent: Agent) {
    var n := |Head(agent.system, p.snapshot)|;
    && agent.compactor.Some? && agent.compactAt > 0 && n <= |p.session|
    && (if p.tokens != 0 then p.tokens else Estimate.Tokens(p.session)) >= agent.compactAt
    && Estimate.Tokens(p.session[n..]) >= agent.compactAt / 4
  }

  /** The compactor was asked before prompt `i`, and made nothing of it. */
  predicate NothingLeft(p: Prompt, i: nat, agent: Agent)
    requires agent.compactor.Some? && |Head(agent.system, p.snapshot)| <= |p.session|
  {
    var tail := p.session[|Head(agent.system, p.snapshot)|..];
    agent.compactor.value(2 * i, Compact.CompactInput(p.snapshot, tail, agent.compactAt / 4)).NothingToCompact?
  }

  /** It is what a compaction of `input` left. */
  predicate JustCompacted(p: Prompt, i: nat, agent: Agent, input: Compact.CompactInput)
    requires agent.compactor.Some?
  {
    var made := agent.compactor.value(2 * i, input);
    && made.Compacted? && input.keepTokens == agent.compactAt / 4
    && p.snapshot == Some(made.compaction.snapshot)
    && p.session == Head(agent.system, p.snapshot) + made.compaction.kept
  }

  /** The compactor was asked before a prompt that is due. */
  ghost predicate Heeds(p: Prompt, i: nat, agent: Agent) {
    IsDue(p, agent) ==> NothingLeft(p, i, agent) || exists input :: JustCompacted(p, i, agent, input)
  }

  ghost predicate AllHeed(prompts: seq<Prompt>, agent: Agent) {
    forall k | 0 <= k < |prompts| :: Heeds(prompts[k], k, agent)
  }

  lemma AllHeedMore(prompts: seq<Prompt>, p: Prompt, agent: Agent)
    ensures AllHeed(prompts, agent) && Heeds(p, |prompts|, agent) ==> AllHeed(prompts + [p], agent)
  {
  }

  lemma SaysMore(prompts: seq<Prompt>, p: Prompt, start: seq<Message>, input: seq<Part>, script: seq<Step>)
    requires |prompts| < |script|
    ensures SaysAll(prompts, start, input, script) && p.session == start + Transcript(input, script, |prompts|) ==>
              && SaysAll(prompts + [p], start, input, script)
              && p.session + Round(script[|prompts|].reply) == start + Transcript(input, script, |prompts| + 1)
  {
    hide Round;
    var n := |prompts|;
    assert Transcript(input, script, n + 1) == Transcript(input, script, n) + Round(script[n].reply);
    assert start + (Transcript(input, script, n) + Round(script[n].reply)) ==
           start + Transcript(input, script, n) + Round(script[n].reply);
  }

  lemma DueNeeds(p: Prompt, agent: Agent)
    ensures IsDue(p, agent) ==> agent.compactor.Some? && agent.compactAt > 0
  {
  }

  lemma NotDueHeeds(p: Prompt, i: nat, agent: Agent)
    ensures !IsDue(p, agent) ==> Heeds(p, i, agent)
  {
  }

  lemma CompactionHeeds(p: Prompt, i: nat, agent: Agent, input: Compact.CompactInput, r: CompactOutcome)
    requires agent.compactor.Some? && input.keepTokens == agent.compactAt / 4
    requires var n, made := |Head(agent.system, p.snapshot)|, agent.compactor.value(2 * i, input);
             && n <= |p.session|
             && (r == Replaced ==>
                   && made.Compacted? && p.snapshot == Some(made.compaction.snapshot)
                   && p.session == Head(agent.system, p.snapshot) + made.compaction.kept)
             && (r == Unchanged ==>
                   made.NothingToCompact? && input.previous == p.snapshot && input.messages == p.session[n..])
    ensures r != Broke ==> Heeds(p, i, agent)
  {
    hide Head, IsDue;
    if r == Replaced {
      assert JustCompacted(p, i, agent, input);
    }
  }

  ghost predicate SentWell(p: Prompt, agent: Agent, whole: bool) {
    var head := Head(agent.system, p.snapshot);
    && |head| <= p.savedTo <= |p.session|
    && p.session[..|head|] == head
    && (whole ==> Closed(p.session[|head|..]))
  }

  /** What a model reads first: the system prompt, then, when the session was compacted, the summary as
      the user's words and what is pinned to it. */
  lemma PromptReads(p: Prompt, agent: Agent, whole: bool)
    requires SentWell(p, agent, whole)
    ensures p.session != [] && p.session[0].role == System && TextContent(p.session[0].parts) == agent.system
    ensures p.snapshot.Some? ==>
              var s := p.snapshot.value;
              && |p.session| >= 2 + |s.pinned|
              && p.session[1].role == User
              && TextContent(p.session[1].parts) == "Summary of previous conversation:\n" + s.summary
              && p.session[2..2 + |s.pinned|] == s.pinned
  {
    hide TextContent, Closed;
    var head := Head(agent.system, p.snapshot);
    assert p.session[0] == head[0];
    TextOfOne(TextPart(agent.system));
    if p.snapshot.Some? {
      SummaryIsRead(p.snapshot.value);
      var shown := SummaryMessages(p.snapshot.value);
      assert p.session[1] == head[1] == shown[0];
      assert p.session[2..|head|] == head[2..] == shown[1..];
    }
  }

  ghost predicate LinedUp(s: Stored) {
    && s.from <= s.pos < |s.log|
    && Aligned(Loads(s.log, s.pos + 1), s.kept)
  }

  ghost predicate AllLinedUp(stores: seq<Stored>) {
    forall i | 0 <= i < |stores| :: LinedUp(stores[i])
  }

  /** What a run has done so far: the log when it began, what it appended to the log, what it
      added to the conversation, up to where the session is in the log (`logged`), how many of
      the log's messages the session's snapshot stands for (`covered`), whether the loaded
      conversation had every round whole, what it last asked, the complete rounds, prompts and
      stored snapshots. */
  datatype Past = Past(
    base: seq<Message>, saved: seq<Message>, added: seq<Message>, logged: nat, covered: nat,
    whole: bool, before: Option<Message>, rounds: nat, prompts: seq<Prompt>, stores: seq<Stored>)

  /** `session` is `head ++ tail`; its tail is made of whole rounds, at least past `logged`. */
  ghost predicate Shaped(session: seq<Message>, head: seq<Message>, logged: nat, whole: bool) {
    && |head| <= logged <= |session|
    && session[..|head|] == head
    && Closed(session[logged..])
    && (whole ==> Closed(session[|head|..logged]))
  }

  /** The log holds what the run added up to `logged`, each message once, in order. */
  ghost predicate Stores(full: seq<Message>, past: Past, unsaved: seq<Message>) {
    && full == past.base + past.saved
    && past.saved + Replayable(unsaved) == Replayable(past.added)
  }

  ghost predicate Told(past: Past, agent: Agent, remembers: bool) {
    && (forall i | 0 <= i < |past.prompts| :: SentWell(past.prompts[i], agent, past.whole))
    && (agent.checkpoint && remembers ==>
          forall i | 0 <= i < |past.prompts| && past.prompts[i].rounds > 0 ::
            past.prompts[i].savedTo == |past.prompts[i].session|)
  }

  /** What a run is asked: by the last user message it added, or else by what it loaded. */
  function TaskOf(past: Past): Option<Message> {
    OrElse(LastUser(past.added), past.before)
  }

  /** What the session was last asked is `task`, kept after its head or pinned in it. */
  ghost predicate AsksFor(session: seq<Message>, snapshot: Option<Snapshot>, agent: Agent, task: Option<Message>) {
    var n := |Head(agent.system, snapshot)|;
    n <= |session| && Task(Held(snapshot, session[n..])) == task
  }

  /** So it is for the session and for every prompt sent. */
  ghost predicate Asks(session: seq<Message>, snapshot: Option<Snapshot>, agent: Agent, prompts: seq<Prompt>,
                       task: Option<Message>)
  {
    AsksFor(session, snapshot, agent, task) && PromptsAsk(prompts, agent, task)
  }

  ghost predicate PromptsAsk(prompts: seq<Prompt>, agent: Agent, task: Option<Message>) {
    forall i | 0 <= i < |prompts| :: AsksFor(prompts[i].session, prompts[i].snapshot, agent, task)
  }

  /** What a run that starts now on the memory was last asked, before its input. */
  ghost function Recalled(mem: JsonFile.Memory): Option<Message>
    reads mem
  {
    TaskOfLog(mem.full, mem.snapshots, mem.snapshot)
  }

  class Run {
    const agent: Agent
    const mem: JsonFile.Memory?
    /** Whether the compactor shortens tool results only. */
    ghost const faithful: bool
    /** Whether the compactor keeps what the session was last asked. */
    ghost const pins: bool

    var session: seq<Message>
    var sessionIndex: nat
    var iteration: nat
    var snapshot: Option<Snapshot>
    var stored: Option<Snapshot>
    var snapshotErr: bool
    var contextTokens: nat
    var compactedOnError: bool
    var savedTo: nat
    ghost var past: Past

    function TailStart(): nat
      reads this
    {
      |Head(agent.system, snapshot)|
    }

    ghost predicate Configured() {
      && (faithful && agent.compactor.Some? ==> Faithful(agent.compactor.value))
      && (pins && agent.compactor.Some? ==> KeepsTask(agent.compactor.value))
    }

    ghost predicate Shape()
      reads this
    {
      && Shaped(session, Head(agent.system, snapshot), past.logged, past.whole)
      && TailStart() <= savedTo <= |session|
      && TailStart() <= sessionIndex <= |session|
    }

    /** With snapshots: `stored` is the store's, and `snapshot` stands for the log before the tail. */
    ghost predicate Standing()
      requires mem != null && mem.Valid() && Shape()
      reads this, mem
    {
      if mem.snapshots then
        && mem.snapshot == stored
        && Covered(stored) <= past.covered <= |mem.full|
        && (!snapshotErr ==> past.covered == Covered(stored))
        && (faithful ==> StandsFor(mem.full, past.covered, session[TailStart()..past.logged]))
      else stored == None
    }

    ghost predicate Remembers()
      requires Shape()
      reads this, mem
    {
      mem != null ==>
        && mem.Valid()
        && Stores(mem.full, past, session[past.logged..])
        && Standing()
        && (past.whole ==> Closed(Loadable(mem)))
        && (pins && faithful ==> Recalled(mem) == OrElse(LastUser(past.saved), past.before))
    }

    ghost predicate Valid()
      reads this, mem
    {
      && Configured()
      && Shape()
      && Remembers()
      && Told(past, agent, mem != null)
      && (faithful ==> AllLinedUp(past.stores))
      && (pins ==> Asks(session, snapshot, agent, past.prompts, TaskOf(past)))
    }

    /** The session holds no empty answer: true until the final answer is appended. */
    ghost predicate Replays()
      requires Shape()
      reads this
    {
      faithful ==> NoEmptyAnswer(session[TailStart()..])
    }

    constructor (agent: Agent, mem: JsonFile.Memory?, ghost faithful: bool, ghost pins: bool)
      requires mem != null ==> mem.Valid()
      requires faithful && agent.compactor.Some? ==> Faithful(agent.compactor.value)
      requires pins && agent.compactor.Some? ==> KeepsTask(agent.compactor.value)
      ensures this.agent == agent && this.mem == mem && this.faithful == faithful && this.pins == pins && Configured()
    {
      this.agent, this.mem, this.faithful, this.pins := agent, mem, faithful, pins;
      session, sessionIndex, iteration := [], 0, 0;
      snapshot, stored, snapshotErr := None, None, false;
      contextTokens, compactedOnError, savedTo := 0, false, 0;
      past := Past([], [], [], 0, 0, true, None, 0, [], []);
    }

    /** Loads the session: the system prompt, the stored snapshot, the log after it, the input. */
    method Prepare(input: seq<Part>)
      requires Configured() && (mem != null ==> mem.Valid())
      modifies this
      ensures Valid() && Replays() && past.logged == savedTo
      ensures past.prompts == [] && past.stores == [] && past.rounds == 0 && iteration == 0
      ensures past.added == UserTurn(input) && |session| == savedTo + |past.added|
      ensures !compactedOnError && contextTokens == 0
      ensures mem != null ==>
                past.base == mem.full && past.whole == Closed(Loadable(mem)) && past.before == Recalled(mem)
      ensures mem == null ==> past.whole && past.before == None
      ensures snapshot == stored == if mem != null then mem.snapshot else None
      ensures session == Head(agent.system, snapshot) + (if mem != null then Loadable(mem) else []) + UserTurn(input)
    {
      hide Closed, Replayable, NonBlank, Loads, EmptyAnswer, Aligned, StandsFor, Shaped, Stores, SentWell, LinedUp;
      hide NoEmptyAnswer, JsonFile.Shows, Head, UserTurn, Covered, Asks, Task, TaskOfLog, Configured;
      hide KeepsTask, LastUser, AllLinedUp;
      var snap: Option<Snapshot> := None;
      var loaded: seq<Message> := [];
      NothingIsClosed();
      NothingLinedUp();
      NoUser();
      if mem != null {
        snap, loaded := LoadMemory(mem);
      }
      ghost var base := if mem != null then mem.full else [];
      var messages := HeadMessages(agent.system, snap);
      messages := messages + loaded;
      var index := |messages|;
      var turn := UserMessages(input);
      messages := messages + turn;
      StartsWell(agent.system, snap, loaded, input, messages);
      ghost var before := Task(Held(snap, loaded));
      StartsAsking(agent, snap, loaded, UserTurn(input), messages);
      NothingStored(base, UserTurn(input), index, Covered(snap), Closed(loaded), before);
      session, sessionIndex, savedTo, iteration := messages, index, index, 0;
      snapshot, stored, snapshotErr := snap, snap, false;
      contextTokens, compactedOnError := 0, false;
      past := Past(base, [], UserTurn(input), index, Covered(snap), Closed(loaded), before, 0, [], []);
    }

    /** The past once the session is all in the log. */
    ghost function PastSaved(): Past
      requires past.logged <= |session|
      reads this
    {
      past.(saved := past.saved + Replayable(session[past.logged..]), logged := |session|)
    }

    /** What holds once the log has caught up with the session. */
    lemma SavedKeeps()
      requires mem != null && Valid()
      ensures past.logged <= |session|
      ensures Shaped(session, Head(agent.system, snapshot), |session|, past.whole)
      ensures var full := mem.full + Replayable(session[past.logged..]);
              && Stores(full, PastSaved(), session[|session|..])
              && (pins && faithful ==>
                    TaskOfLog(full, mem.snapshots, mem.snapshot) == OrElse(LastUser(PastSaved().saved), past.before))
              && Told(PastSaved(), agent, true)
              && (mem.snapshots && faithful ==> StandsFor(full, past.covered, session[TailStart()..|session|]))
              && (past.whole ==>
                    Closed(if mem.snapshots then Loads(full, Covered(mem.snapshot)) else Replayable(full)))
    {
      hide Closed, Replayable, Loads, EmptyAnswer, Aligned, StandsFor, Shaped, Stores, SentWell, LinedUp;
      hide NoEmptyAnswer, JsonFile.Shows, Head, Covered, Told, Faithful, TailOf;
      hide Asks, KeepsTask, LastUser, TaskOfLog, Task;
      ghost var head, whole := Head(agent.system, snapshot), past.whole;
      ShapedParts(session, head, past.logged, whole);
      ShapedWhenSaved(session, head, past.logged, whole);
      var unsaved := session[past.logged..];
      StoresWhenSaved(mem.full, past, unsaved);
      if pins && faithful {
        RecalledWhenSaved(mem.full, mem.snapshots, mem.snapshot, past.saved, past.before, unsaved);
      }
      ToldSame(past, PastSaved(), agent, true);
      if mem.snapshots {
        if faithful {
          StandsWhenSaved(mem.full, past.covered, session, |head|, past.logged);
        }
        if whole {
          assert Covered(mem.snapshot) <= |mem.full|;
          SaveKeepsLoadsClosed(mem.full, Covered(mem.snapshot), unsaved);
        }
      } else if whole {
        SaveKeepsReplayClosed(mem.full, unsaved);
      }
    }

    method SaveTurn(turn: seq<Message>) returns (ok: bool)
      requires mem != null && mem.Valid()
      modifies mem
      ensures mem.Valid() && mem.snapshot == old(mem.snapshot)
      ensures mem.full == if ok then old(mem.full) + turn else old(mem.full)
      ensures ok == (turn == [] || mem.writes(old(mem.tried)))
      ensures mem.tried == old(mem.tried) + if turn == [] then 0 else 1
    {
      hide JsonFile.Shows, JsonFile.Step;
      ok := true;
      if turn != [] {
        ok := mem.Save(turn);
      } else {
        assert mem.full + turn == mem.full;
      }
    }

    /** Whether the session can be saved now: it is all in the log, or the write will succeed. */
    ghost predicate Saves()
      requires savedTo <= |session|
      reads this, mem
    {
      mem == null || Replayable(session[savedTo..]) == [] || mem.writes(mem.tried)
    }

    /** Brings the log up to date with the session, less the empty answers. */
    method SaveSession() returns (ok: bool)
      requires Valid() && past.logged == savedTo
      modifies this`past, mem
      ensures Valid() && ok == old(Saves())
      ensures mem != null ==> mem.tried == old(mem.tried) + if Replayable(session[savedTo..]) == [] then 0 else 1
      ensures past == if ok then old(past).(saved := past.saved, logged := |session|) else old(past)
      ensures mem != null ==> mem.snapshot == old(mem.snapshot)
      ensures mem != null && ok ==> mem.full == old(mem.full) + Replayable(session[savedTo..])
      ensures mem != null && !ok ==> mem.full == old(mem.full)
    {
      hide Closed, Replayable, Loads, EmptyAnswer, Aligned, StandsFor, Shaped, Stores, SentWell, LinedUp;
      hide NoEmptyAnswer, JsonFile.Shows, JsonFile.Step, Head, Covered, Told, Faithful, TailOf;
      hide Asks, KeepsTask, LastUser, TaskOfLog, Task;
      if mem == null {
        ShapedWhenSaved(session, Head(agent.system, snapshot), past.logged, past.whole);
        ToldSame(past, past.(logged := |session|), agent, false);
        past := past.(logged := |session|);
        return true;
      }
      SavedKeeps();
      var turn := ReplayableOf(session[savedTo..]);
      ok := SaveTurn(turn);
      if ok {
        past := PastSaved();
      }
    }

    /** Offers a compaction's snapshot to the store, once the log holds the whole input. Whether the
        store takes it (`ok`) changes nothing in the session; `pos` is the position cut at. */
    method StoreSnapshot(input: Compact.CompactInput, c: Compact.Compaction) returns (ok: bool, ghost pos: nat)
      requires mem != null && Valid() && Replays() && past.logged == |session|
      requires input.messages == session[TailStart()..] && Compact.CheckOf(c, input).Valid?
      requires |c.kept| <= |input.messages|
      modifies this`stored, mem
      ensures mem.Valid() && mem.full == old(mem.full)
      ensures !ok ==> stored == old(stored) && mem.snapshot == old(mem.snapshot)
      ensures ok ==>
                && mem.snapshots && mem.snapshot == stored
                && stored.Some? && stored.value.summary == c.snapshot.summary
                && stored.value.pinned == c.snapshot.pinned
                && old(Covered(stored)) <= pos < |mem.full| && Covered(stored) == pos + 1
      ensures past.whole ==> Closed(Loadable(mem))
      ensures faithful && mem.snapshots && OlderOf(c, input) != [] ==>
                && ok == mem.writes(old(mem.tried))
                && CutsAt(mem.full, past.covered, pos, input.messages, |input.messages| - |c.kept|)
      ensures faithful && OlderOf(c, input) == [] ==> !ok
    {
      hide Closed, Replayable, Loads, EmptyAnswer, Aligned, StandsFor, Shaped, Stores, SentWell, LinedUp;
      hide NoEmptyAnswer, JsonFile.Shows, JsonFile.Step, Head, CursorOf, Compact.CheckOf, CutsAt, TailOf, Cutoff, Told;
      hide Asks, KeepsTask, LastUser, TaskOfLog, Task;
      pos := 0;
      if !mem.snapshots {
        return false, 0;
      }
      CheckedCut(c, input);
      var r := SnapshotCursor(mem, stored, input, c);
      pos := CursorCuts(input, c, r);
      if !r.Found? {
        return false, pos;
      }
      ghost var full, before := mem.full, stored;
      var out := mem.SaveSnapshot(c.snapshot, r.cursor, stored);
      CutoffAccepts(before, before, r.cursor, |full|);
      if out != JsonFile.Done {
        return false, pos;
      }
      stored := Some(c.snapshot.(upTo := r.cursor));
      pos := Position(r.cursor).value;
      ok := true;
    }

    /** Where the cursor found for a compaction cuts the log. */
    lemma CursorCuts(input: Compact.CompactInput, c: Compact.Compaction, r: CursorResult) returns (pos: nat)
      requires mem != null && mem.snapshots && Valid() && Replays() && past.logged == |session|
      requires input.messages == session[TailStart()..] && Compact.CheckOf(c, input).Valid?
      requires |c.kept| <= |input.messages|
      requires r == CursorFor(mem.full, mem.snapshot, OlderOf(c, input), input.messages)
      ensures faithful && OlderOf(c, input) != [] ==>
                && r.Found? && Position(r.cursor) == Some(pos) && Covered(stored) <= pos < |mem.full|
                && CutsAt(mem.full, past.covered, pos, input.messages, |input.messages| - |c.kept|)
      ensures faithful && OlderOf(c, input) == [] ==> !r.Found?
      ensures past.whole && r.Found? ==>
                && Position(r.cursor).Some? && Position(r.cursor).value < |mem.full|
                && Closed(Loads(mem.full, Position(r.cursor).value + 1))
    {
      hide Closed, Replayable, Loads, EmptyAnswer, Aligned, StandsFor, Stores, SentWell, LinedUp;
      hide NoEmptyAnswer, JsonFile.Shows, JsonFile.Step, Head, CursorOf, Compact.CheckOf, CutsAt, TailOf, Cutoff, Told;
      hide Shaped;
      hide Asks, KeepsTask, LastUser, TaskOfLog, Task;
      pos := 0;
      var older, kept := OlderOf(c, input), KeptOf(c, input);
      CheckedCut(c, input);
      ShapedParts(session, Head(agent.system, snapshot), past.logged, past.whole);
      assert session[TailStart()..past.logged] == input.messages;
      if faithful {
        if older != [] {
          pos := FindsCutoff(mem.full, stored, past.covered, input.messages, |older|);
          CutsInside(mem.full, past.covered, pos, input.messages, |older|);
        } else {
          NothingToCover(mem.full, stored, input.messages);
        }
      }
      if past.whole && r.Found? {
        CheckedKeepsRounds(c, input);
        WholeCutoff(mem.full, stored, older, kept);
      }
    }

    /** Stores the compaction's snapshot, and works out how many of the log's messages the
        session's snapshot will stand for. */
    method CoverCompacted(input: Compact.CompactInput, c: Compact.Compaction)
      returns (ghost covered: nat, ghost stores: seq<Stored>)
      requires Valid() && Replays() && past.logged == |session|
      requires input.messages == session[TailStart()..] && Compact.CheckOf(c, input).Valid?
      requires |c.kept| <= |input.messages|
      requires faithful ==> SameContent(c.kept, KeptOf(c, input))
      requires pins ==> Task(Held(Some(c.snapshot), c.kept)) == TaskOf(past)
      modifies this`stored, this`snapshotErr, mem
      ensures mem != null ==> mem.Valid() && mem.full == old(mem.full)
      ensures mem != null ==> CoversKept(covered, c.kept) && (past.whole ==> Closed(Loadable(mem)))
      ensures mem != null && snapshotErr ==> mem.snapshot == old(mem.snapshot)
      ensures mem != null && !snapshotErr ==>
                mem.snapshot.Some? && mem.snapshot.value.(upTo := c.snapshot.upTo) == c.snapshot
      ensures faithful ==> AllLinedUp(stores)
      ensures faithful && mem != null && mem.snapshots && !snapshotErr ==>
                && covered == Covered(mem.snapshot) && covered > 0
                && stores == past.stores + [Stored(mem.full, past.covered, covered - 1, c.kept)]
      ensures faithful && mem != null && mem.snapshots ==>
                (snapshotErr <==> !(OlderOf(c, input) != [] && mem.writes(old(mem.tried))))
      ensures pins && faithful && mem != null ==> Recalled(mem) == OrElse(LastUser(past.saved), past.before)
    {
      hide Closed, Replayable, Loads, EmptyAnswer, Aligned, StandsFor, Shaped, Stores, SentWell, LinedUp, SameContent;
      hide NoEmptyAnswer, JsonFile.Shows, Head, Compact.CheckOf, CutsAt, Told, Faithful;
      hide Asks, KeepsTask, LastUser, TaskOfLog, Task;
      covered, stores := past.covered, past.stores;
      if mem == null {
        return;
      }
      ghost var tail, older, earlier := input.messages, OlderOf(c, input), mem.snapshot;
      CheckedCut(c, input);
      ShapedParts(session, Head(agent.system, snapshot), past.logged, past.whole);
      StandsForAll(session, |Head(agent.system, snapshot)|);
      var ok;
      ghost var pos;
      ok, pos := StoreSnapshot(input, c);
      snapshotErr := !ok;
      if faithful && mem.snapshots {
        if older == [] {
          assert tail == [] && c.kept == [];
        } else {
          CutStands(mem.full, past.covered, pos, tail, |older|, c.kept);
          covered := pos + 1;
          stores := if ok then stores + [Stored(mem.full, past.covered, pos, c.kept)] else stores;
          if pins && ok {
            StoredRecalls(mem.full, past, earlier, stored.value, c, pos);
          }
        }
      }
      if ok {
        covered := pos + 1;
      }
    }

    /** `covered` and the stored snapshot are right for a session whose tail is `kept`. */
    ghost predicate CoversKept(covered: nat, kept: seq<Message>)
      requires mem != null && mem.Valid()
      reads this, mem
    {
      if mem.snapshots then
        && mem.snapshot == stored
        && Covered(stored) <= covered <= |mem.full|
        && (!snapshotErr ==> covered == Covered(stored))
        && (faithful ==> StandsFor(mem.full, covered, kept))
      else stored == None
    }

    /** Starts the session over: the head for the new snapshot, then what was kept. */
    method Restart(c: Compact.Compaction, ghost covered: nat, ghost stores: seq<Stored>)
      requires Configured() && Told(past, agent, mem != null)
      requires mem != null ==> mem.Valid() && CoversKept(covered, c.kept) && (past.whole ==> Closed(Loadable(mem)))
      requires mem != null ==> Stores(mem.full, past, [])
      requires past.whole ==> Closed(c.kept)
      requires faithful ==> NoEmptyAnswer(c.kept)
      requires faithful ==> AllLinedUp(stores)
      requires pins ==> Asks(session, snapshot, agent, past.prompts, TaskOf(past))
      requires pins ==> Task(Held(Some(c.snapshot), c.kept)) == TaskOf(past)
      requires pins && faithful && mem != null ==> Recalled(mem) == OrElse(LastUser(past.saved), past.before)
      modifies this`session, this`sessionIndex, this`snapshot, this`contextTokens, this`savedTo, this`past
      ensures Valid() && Replays() && past.logged == savedTo == |session|
      ensures sessionIndex == TailStart() && contextTokens == 0 && session[TailStart()..] == c.kept
      ensures session == Head(agent.system, Some(c.snapshot)) + c.kept && snapshot == Some(c.snapshot)
      ensures past == old(past).(logged := |session|, covered := covered, stores := stores)
    {
      hide Closed, Replayable, Loads, EmptyAnswer, Aligned, StandsFor, Shaped, Stores, SentWell, LinedUp;
      hide NoEmptyAnswer, JsonFile.Shows, Head, Told, Faithful;
      hide Asks, KeepsTask, LastUser, TaskOfLog, Task;
      var newSession := HeadMessages(agent.system, Some(c.snapshot));
      var index := |newSession|;
      newSession := newSession + c.kept;
      StartsWellKept(newSession, Head(agent.system, Some(c.snapshot)), c.kept, past.whole);
      ghost var past' := past.(logged := |newSession|, covered := covered, stores := stores);
      if mem != null {
        StoresSame(mem.full, past, past', []);
      }
      ToldSame(past, past', agent, mem != null);
      if pins {
        RestartAsks(session, snapshot, agent, past.prompts, TaskOf(past), newSession, c);
      }
      session, sessionIndex, savedTo := newSession, index, |newSession|;
      snapshot, contextTokens := Some(c.snapshot), 0;
      past := past';
    }

    /** What the compactor of a run is given. */
    function Input(): Compact.CompactInput
      requires TailStart() <= |session|
      reads this
    {
      Compact.CompactInput(snapshot, session[TailStart()..], agent.compactAt / 4)
    }

    /** The write after the session is saved. */
    ghost function NextWrite(): nat
      requires mem != null && savedTo <= |session|
      reads this, mem
    {
      mem.tried + if Replayable(session[savedTo..]) == [] then 0 else 1
    }

    /** What a model call is sent now. */
    ghost function Sent(): Prompt
      reads this
    {
      Prompt(session, snapshot, savedTo, past.rounds, contextTokens)
    }

    /** What compaction number `n` comes to now: an accepted one fails when the session cannot be
        saved. */
    ghost function Comes(n: nat): CompactOutcome
      requires agent.compactor.Some? && TailStart() <= |session| && savedTo <= |session|
      reads this, mem
    {
      var asked := Asked(agent.compactor.value(n, Input()), Input());
      if asked == Replaced && !Saves() then Broke else asked
    }

    /** Asks the compactor, and checks what it made. */
    method AskCompactor(n: nat, input: Compact.CompactInput) returns (r: CompactOutcome, c: Compact.Compaction)
      requires agent.compactor.Some? && Configured()
      ensures r == Asked(agent.compactor.value(n, input), input)
      ensures r == Replaced ==>
                && c == agent.compactor.value(n, input).compaction
                && |c.kept| <= |input.messages| && Compact.CheckOf(c, input).Valid?
                && (faithful ==> SameContent(c.kept, KeptOf(c, input)))
                && (pins ==> Task(Held(Some(c.snapshot), c.kept)) == Task(Held(input.previous, input.messages)))
    {
      hide SameContent, Compact.CheckOf, Faithful, KeepsTask, Task;
      c := Compact.Compaction(Snapshot("", [], Compact.UNSTORED), []);
      var result := agent.compactor.value(n, input);
      if result.CompactFailed? {
        return Broke, c;
      }
      if result.NothingToCompact? {
        return Unchanged, c;
      }
      c := result.compaction;
      var check := Compact.Check(c, input);
      if !check.Valid? {
        return Broke, c;
      }
      CheckedCut(c, input);
      if faithful {
        FaithfulGives(agent.compactor.value, n, input);
      }
      if pins {
        PinsGives(agent.compactor.value, n, input);
      }
      return Replaced, c;
    }

    /** What was kept can be a session's tail. */
    lemma KeptIsReady(input: Compact.CompactInput, c: Compact.Compaction)
      requires Shape() && Replays() && input.messages == session[TailStart()..]
      requires |c.kept| <= |input.messages| && Compact.CheckOf(c, input).Valid?
      requires faithful ==> SameContent(c.kept, KeptOf(c, input))
      ensures past.whole ==> Closed(c.kept)
      ensures faithful ==> NoEmptyAnswer(c.kept)
    {
      hide Closed, EmptyAnswer, SameContent, NoEmptyAnswer, Head, Compact.CheckOf;
      ShapedParts(session, Head(agent.system, snapshot), past.logged, past.whole);
      if past.whole {
        CheckedKeepsRounds(c, input);
      }
      if faithful {
        KeptReplays(input.messages, |input.messages| - |c.kept|, c.kept);
      }
    }

    /** Asks the compactor, saves, offers its snapshot to the store and starts the session over; any
        outcome but `Replaced` leaves the session alone. `n` numbers the compactions of a run. */
    method CompactSession(n: nat) returns (r: CompactOutcome)
      requires agent.compactor.Some? && Valid() && Replays() && past.logged == savedTo
      modifies this`session, this`sessionIndex, this`snapshot, this`stored, this`snapshotErr, this`contextTokens
      modifies this`savedTo, this`past, mem
      ensures Valid() && Replays() && past.logged == savedTo
      ensures past.base == old(past.base) && past.added == old(past.added) && past.whole == old(past.whole)
      ensures past.before == old(past.before)
      ensures past.rounds == old(past.rounds) && past.prompts == old(past.prompts)
      ensures r != Replaced ==>
                session == old(session) && savedTo == old(savedTo) && snapshot == old(snapshot)
      ensures r == Replaced ==> savedTo == |session| && sessionIndex == TailStart() && contextTokens == 0
      ensures var made := agent.compactor.value(n, old(Input()));
              && r == old(Comes(n))
              && (r == Replaced ==>
                    && session == Head(agent.system, Some(made.compaction.snapshot)) + made.compaction.kept
                    && snapshot == Some(made.compaction.snapshot))
      ensures r == Replaced && faithful && mem != null && mem.snapshots && !snapshotErr ==>
                |past.stores| == |old(past.stores)| + 1 && StoredNow(past.stores[|old(past.stores)|])
      ensures r == Replaced && faithful && mem != null && mem.snapshots ==>
                (snapshotErr <==>
                   !(old(session[TailStart()..]) != [] && mem.writes(old(NextWrite()))))
      ensures mem != null && (r != Replaced || snapshotErr) ==> mem.snapshot == old(mem.snapshot)
      ensures mem != null && r == Replaced && !snapshotErr ==>
                mem.snapshot.Some? && mem.snapshot.value.(upTo := snapshot.value.upTo) == snapshot.value
    {
      hide Closed, Replayable, Loads, EmptyAnswer, Aligned, StandsFor, Shaped, Stores, SentWell, LinedUp, SameContent;
      hide NoEmptyAnswer, JsonFile.Shows, Head, Compact.CheckOf, CutsAt, Told, Faithful, Covered, TailOf, Loadable;
      hide Asks, KeepsTask, LastUser, TaskOfLog, Task, Asked, Saves;
      var input := Input();
      var c;
      r, c := AskCompactor(n, input);
      if r != Replaced {
        return;
      }
      KeptIsReady(input, c);
      DropsSome(c, input);
      if pins {
        AsksNow(session, snapshot, agent, past.prompts, TaskOf(past));
      }
      var saved := SaveSession();
      if !saved {
        return Broke;
      }
      assert session[|session|..] == [];
      ghost var covered, stores := CoverCompacted(input, c);
      Restart(c, covered, stores);
    }

    /** The snapshot stored last: the log past its cutoff lines up with the session's tail. */
    ghost predicate StoredNow(s: Stored)
      requires mem != null && mem.Valid() && Shape()
      reads this, mem
    {
      && s.log == mem.full && s.kept == session[TailStart()..]
      && Covered(mem.snapshot) == s.pos + 1
    }

    /** With checkpoints, nothing is unsaved once a round was completed. */
    ghost predicate CheckpointKept()
      reads this
    {
      agent.checkpoint && mem != null && past.rounds > 0 ==> savedTo == |session|
    }

    /** What holds before every iteration. */
    ghost predicate Ready()
      reads this, mem
    {
      Valid() && Replays() && past.logged == savedTo && CheckpointKept()
    }

    /** Both thresholds are reached by what would be sent now. */
    ghost predicate Due()
      requires TailStart() <= |session|
      reads this
    {
      IsDue(Sent(), agent)
    }

    /** Due means: a threshold is set, the last prompt reported, or else the session estimated, reached
        it, and what comes after the summary is estimated at a quarter of it at least. */
    lemma DueExactly()
      requires TailStart() <= |session|
      ensures var tail, limit := session[TailStart()..], agent.compactAt;
              && (Due() <==>
                    && agent.compactor.Some? && limit > 0
                    && (if contextTokens > 0 then contextTokens >= limit else Estimate.Tokens(session) >= limit)
                    && 4 * Estimate.Tokens(tail) + 3 >= limit)
              && Input() == Compact.CompactInput(snapshot, tail, limit / 4)
    {
      hide Estimate.Tokens;
    }

    /** What a compaction comes to, by what the compactor makes. */
    lemma ComesAsks(n: nat)
      requires agent.compactor.Some? && TailStart() <= |session| && savedTo <= |session|
      ensures var made, input := agent.compactor.value(n, Input()), Input();
              Comes(n) != Broke ==>
                && Asked(made, input) == Comes(n)
                && (made.Compacted? <==> Comes(n) == Replaced) && (made.NothingToCompact? <==> Comes(n) == Unchanged)
    {
      hide Compact.CheckOf;
    }

    /** Compacts when due; false when that broke. */
    method CompactIfNeeded() returns (ok: bool)
      requires Ready()
      modifies this`session, this`sessionIndex, this`snapshot, this`stored, this`snapshotErr, this`contextTokens
      modifies this`savedTo, this`past, mem
      ensures Ready()
      ensures past.base == old(past.base) && past.added == old(past.added) && past.whole == old(past.whole)
      ensures past.before == old(past.before)
      ensures past.rounds == old(past.rounds) && past.prompts == old(past.prompts)
      ensures !old(Due()) ==> ok && session == old(session) && snapshot == old(snapshot) && stored == old(stored)
      ensures !old(Due()) && mem != null ==> mem.Value() == old(mem.Value())
      ensures old(Due()) && ok ==>
                var made := agent.compactor.value(2 * iteration, old(Input()));
                && Asked(made, old(Input())) != Broke
                && (made.Compacted? ==>
                      && session == Head(agent.system, Some(made.compaction.snapshot)) + made.compaction.kept
                      && snapshot == Some(made.compaction.snapshot))
                && (!made.Compacted? ==> session == old(session) && snapshot == old(snapshot))
      ensures !ok ==>
                session == old(session) && snapshot == old(snapshot) && agent.compactor.Some? && agent.compactAt > 0
      ensures ok <==> !old(Due() && Comes(2 * iteration) == Broke)
      ensures ok ==> Heeds(Sent(), iteration, agent)
    {
      assert TailStart() <= |session|;
      hide Valid, Replays, Asked, Head, Saves, Comes, Heeds, JustCompacted, NothingLeft, IsDue, EndOfRound;
      NotDueHeeds(Sent(), iteration, agent);
      DueNeeds(Sent(), agent);
      var due := MeetsThresholds();
      if !due {
        return true;
      }
      ghost var input := Input();
      ComesAsks(2 * iteration);
      var r := CompactSession(2 * iteration);
      if r != Broke {
        CompactionHeeds(Sent(), iteration, agent, input, r);
      }
      return r != Broke;
    }

    /** Whether a compaction is due. */
    method MeetsThresholds() returns (due: bool)
      requires TailStart() <= |session|
      ensures due == Due()
    {
      hide Estimate.Tokens, Head;
      if agent.compactor.None? || agent.compactAt <= 0 {
        return false;
      }
      var tokens := contextTokens;
      if tokens == 0 {
        tokens := Estimate.EstimateTokens(session);
      }
      if tokens < agent.compactAt {
        return false;
      }
      var tailTokens := Estimate.EstimateTokens(session[TailStart()..]);
      return tailTokens >= agent.compactAt / 4;
    }

    /** What follows a failed call: another try, at most one in a row and only for a prompt that
        was too long and could be compacted, or the end. */
    method IterationFailed(cancelled: bool, tooLong: bool) returns (retry: bool, end: End)
      requires Ready()
      modifies this`session, this`sessionIndex, this`snapshot, this`stored, this`snapshotErr, this`contextTokens
      modifies this`savedTo, this`past, this`compactedOnError, mem
      ensures Ready()
      ensures past.base == old(past.base) && past.added == old(past.added) && past.whole == old(past.whole)
      ensures past.before == old(past.before)
      ensures past.rounds == old(past.rounds) && past.prompts == old(past.prompts)
      ensures var tries := !cancelled && tooLong && agent.compactor.Some? && !old(compactedOnError);
              && compactedOnError == (old(compactedOnError) || tries)
              && (retry <==> tries && old(Comes(2 * iteration + 1)) != Broke)
      ensures !retry ==> session == old(session) && snapshot == old(snapshot)
      ensures !retry ==> end == if cancelled then Cancelled else LLMFailed
    {
      hide Valid, Replays;
      if cancelled {
        return false, Cancelled;
      }
      if agent.compactor.None? || compactedOnError || !tooLong {
        return false, LLMFailed;
      }
      var r := CompactSession(2 * iteration + 1);
      retry := r != Broke;
      end := LLMFailed;
      MarkCompacted();
    }

    method MarkCompacted()
      requires Ready()
      modifies this`compactedOnError
      ensures Ready() && compactedOnError
    {
      compactedOnError := true;
    }

    /** Calls the model and runs the tool calls of its answer. */
    method HandleIteration(reply: Reply) returns (next: Next)
      requires Ready()
      modifies this`session, this`contextTokens, this`past
      ensures Valid() && past.logged == savedTo
      ensures past == old(past).(
                prompts := old(past.prompts) + [old(Sent())],
                added := old(past.added) + Round(reply),
                rounds := old(past.rounds) + if reply.Answered? then 1 else 0)
      ensures session == old(session) + Round(reply)
      ensures contextTokens == if reply.Answered? && reply.usage.Some? then reply.usage.value else old(contextTokens)
      ensures next == if reply.CallFailed? then CallError
                      else
                        match EndOfRound(reply, agent.handoffs)
                        case Some(end) => Ends(end)
                        case None => CallAgain
      ensures next.CallError? ==> Ready() && session == old(session)
      ensures next.CallAgain? ==> Replays()
    {
      hide Closed, Replayable, Loads, EmptyAnswer, Aligned, StandsFor, Shaped, Stores, SentWell, LinedUp;
      hide NoEmptyAnswer, JsonFile.Shows, Head, Told, Faithful, Round, Valid, Replays, Shape;
      hide Asks, KeepsTask, LastUser, TaskOfLog, Task;
      var round := RoundMessages(reply);
      Append(reply, round);
      match reply
      case CallFailed(_) =>
        next := CallError;
      case Answered(_, _, _, _, _) =>
        var end := RoundEnd(reply, agent.handoffs);
        next := if end.Some? then Ends(end.value) else CallAgain;
    }

    /** The past once a round was appended. */
    ghost function PastAppended(reply: Reply): Past
      reads this
    {
      past.(
        prompts := past.prompts + [Sent()],
        added := past.added + Round(reply),
        rounds := past.rounds + if reply.Answered? then 1 else 0)
    }

    /** What holds once a round was appended. */
    lemma AppendKeeps(reply: Reply)
      requires Ready()
      ensures var longer, past' := session + Round(reply), PastAppended(reply);
              && Shaped(longer, Head(agent.system, snapshot), past.logged, past.whole)
              && longer[TailStart()..past.logged] == session[TailStart()..past.logged]
              && Told(past', agent, mem != null)
              && (mem != null ==> Stores(mem.full, past', longer[past.logged..]))
              && (pins ==> Asks(longer, snapshot, agent, past'.prompts, TaskOf(past')))
              && (faithful && (reply.CallFailed? || reply.calls != []) ==> NoEmptyAnswer(longer[TailStart()..]))
              && (reply.CallFailed? ==> longer == session)
    {
      hide Closed, Replayable, Loads, EmptyAnswer, Aligned, StandsFor, Shaped, Stores, SentWell, LinedUp;
      hide NoEmptyAnswer, JsonFile.Shows, Head, Told, Faithful, Round;
      hide Asks, KeepsTask, LastUser, TaskOfLog, Task, Standing;
      var head, past' := Head(agent.system, snapshot), PastAppended(reply);
      var sent := Sent();
      PromptSent(past, sent, agent, mem != null);
      ToldSame(past.(prompts := past.prompts + [sent]), past', agent, mem != null);
      ShapedParts(session, head, past.logged, past.whole);
      Extend(session, head, past.logged, past.whole, reply);
      if pins {
        AppendAsks(session, agent, sent, past.prompts, past, reply);
      }
      if mem != null {
        StoresExtend(mem.full, past, past', session[past.logged..], Round(reply));
      }
      if reply.CallFailed? {
        NoRound(reply);
        assert session + Round(reply) == session;
      }
    }

    /** Appends a round to the session, and notes what the call was sent and what it used. */
    method Append(reply: Reply, round: seq<Message>)
      requires Ready() && round == Round(reply)
      modifies this`session, this`contextTokens, this`past
      ensures Valid() && past.logged == savedTo
      ensures past == old(PastAppended(reply)) && session == old(session) + round
      ensures contextTokens == if reply.Answered? && reply.usage.Some? then reply.usage.value else old(contextTokens)
      ensures reply.CallFailed? ==> session == old(session) && CheckpointKept()
      ensures reply.CallFailed? || reply.calls != [] ==> Replays()
    {
      hide Closed, Replayable, Loads, EmptyAnswer, Aligned, StandsFor, Shaped, Stores, SentWell, LinedUp;
      hide NoEmptyAnswer, JsonFile.Shows, Head, Told, Faithful, Round;
      hide Asks, KeepsTask, LastUser, TaskOfLog, Task, AllLinedUp, OrElse, Recalled, Loadable, JsonFile.Memory.Valid;
      hide Configured, TaskOf, Covered;
      AppendKeeps(reply);
      past := PastAppended(reply);
      session := session + round;
      contextTokens := if reply.Answered? && reply.usage.Some? then reply.usage.value else contextTokens;
    }

    /** With checkpoints, saves after every round that called tools. */
    method SaveCheckpoint() returns (ok: bool)
      requires Valid() && Replays() && past.logged == savedTo
      modifies this`past, this`savedTo, mem
      ensures Valid() && Replays() && past.logged == savedTo
      ensures past == old(past).(saved := past.saved, logged := past.logged)
      ensures ok ==> CheckpointKept()
      ensures ok == (!agent.checkpoint || old(Saves()))
    {
      hide Closed, Replayable, Loads, EmptyAnswer, Aligned, StandsFor, Shaped, Stores, SentWell, LinedUp;
      hide NoEmptyAnswer, JsonFile.Shows, Head, Told, Faithful;
      hide Asks, KeepsTask, LastUser, TaskOfLog, Task;
      if !agent.checkpoint || mem == null {
        return true;
      }
      ok := SaveSession();
      if ok {
        savedTo := |session|;
      }
    }

    /** The loop: model calls and their tools, until something ends the run. */
    method Loop(script: seq<Step>, ghost course: Course) returns (end: End)
      requires Ready() && iteration == 0 && past.prompts == [] && !compactedOnError
      requires course == Course(course.input, script, course.start, agent, Reliable(agent, mem))
      requires past.added == UserTurn(course.input) && session == course.start + UserTurn(course.input)
      modifies this, mem
      ensures Valid() && past.logged == savedTo
      ensures past.base == old(past.base) && past.whole == old(past.whole)
      ensures past.before == old(past.before)
      ensures Ended(course, past, end, iteration)
    {
      hide Valid, Replays, Shape, Round, CheckpointKept, Head, Input, Asked, EndOfRound, Transcript, Ended, OnCourse;
      hide Ready, IsDue, TailStart, Heeds, Saves, GoesOn, EndedBy, Due, Comes, Reliable;
      StartsOnCourse(course, past);
      while true
        invariant Ready() && iteration <= |script|
        invariant past.base == old(past.base) && past.whole == old(past.whole)
        invariant past.before == old(past.before)
        invariant OnCourse(course, past, session, compactedOnError, iteration)
        decreases |script| - iteration
      {
        EndsEarly(course, past, session, compactedOnError, iteration);
        ReadyIs();
        if iteration >= |script| || script[iteration].cancelled {
          return Cancelled;
        }
        if agent.maxIterations > 0 && iteration >= agent.maxIterations {
          return MaxIterationsReached;
        }
        ComesWell(2 * iteration);
        ghost var was, before := past, session;
        var fits := CompactIfNeeded();
        ReadyIs();
        CompactedOnCourse(course, was, past, before, session, compactedOnError, iteration);
        EndsEarly(course, past, session, compactedOnError, iteration);
        if !fits {
          return CompactionFailed;
        }
        ComesWell(2 * iteration + 3);
        ghost var n, sent, failed := iteration, Sent(), compactedOnError;
        was := past;
        var stop;
        stop, end := Iterate(script[iteration]);
        GoesFurther(course, was, sent, failed, past, session, compactedOnError, n, stop, end);
        if stop {
          return;
        }
      }
    }

    lemma SavesWell()
      requires Valid()
      ensures savedTo <= |session| && (Reliable(agent, mem) ==> Saves())
    {
    }

    lemma ReadyIs()
      requires Ready()
      ensures Valid() && past.logged == savedTo
    {
    }

    lemma ComesWell(n: nat)
      requires Ready()
      ensures TailStart() <= |session| && savedTo <= |session|
      ensures Reliable(agent, mem) ==> agent.compactor.Some? ==> Comes(n) != Broke
      ensures Reliable(agent, mem) && mem != null ==> mem.writes(mem.tried)
      ensures agent.compactor.None? ==> !Due()
    {
      hide Asked;
    }

    /** One iteration: the model call, its tools, and what follows from how it went. */
    method Iterate(step: Step) returns (stop: bool, end: End)
      requires Ready()
      modifies this, mem
      ensures Valid() && past.logged == savedTo && (!stop ==> Ready())
      ensures iteration == old(iteration) + 1
      ensures past.added == old(past.added) + Round(step.reply) && |past.prompts| == |old(past.prompts)| + 1
      ensures past.base == old(past.base) && past.whole == old(past.whole)
      ensures past.before == old(past.before)
      ensures if stop then EndedBy(end, step, agent) else GoesOn(step.reply, agent.handoffs)
      ensures step.reply.Answered? ==> !compactedOnError
      ensures step.reply.CallFailed? ==>
                (!stop <==>
                   && !step.cancelledAfter && step.reply.tooLong && agent.compactor.Some? && !old(compactedOnError)
                   && old(Comes(2 * iteration + 3)) != Broke)
      ensures step.reply.CallFailed? && !stop ==> compactedOnError
      ensures step.reply.Answered? && GoesOn(step.reply, agent.handoffs) ==>
                (mem == null || mem.writes(old(mem.tried))) ==> !stop
      ensures past.prompts == old(past.prompts + [Sent()])
      ensures agent.compactor.None? ==> session == old(session) + Round(step.reply)
    {
      hide Valid, Replays, Shape, Round, CheckpointKept, Head, Asked, EndOfRound;
      NextIteration();
      var next := HandleIteration(step.reply);
      match next
      case CallError =>
        var retry;
        retry, end := IterationFailed(step.cancelledAfter, step.reply.tooLong);
        stop := !retry;
      case Ends(why) =>
        CallWorked();
        return true, why;
      case CallAgain =>
        CallWorked();
        var saved := SaveCheckpoint();
        return !saved, SessionSaveFailed;
    }

    method NextIteration()
      requires Ready()
      modifies this`iteration
      ensures Ready() && iteration == old(iteration) + 1
    {
      iteration := iteration + 1;
    }

    method CallWorked()
      requires Valid() && past.logged == savedTo
      modifies this`compactedOnError
      ensures Valid() && past.logged == savedTo && !compactedOnError && (old(Replays()) ==> Replays())
    {
      compactedOnError := false;
    }

    /** What a finished run leaves: the log, and what the next run loads from it. */
    lemma Leaves()
      requires Valid()
      ensures mem != null ==>
                && mem.Valid()
                && past.saved <= Replayable(past.added) && mem.full == past.base + past.saved
                && (past.logged == |session| ==> past.saved == Replayable(past.added))
                && (past.whole ==> Closed(Loadable(mem)))
      ensures Told(past, agent, mem != null)
      ensures faithful ==> AllLinedUp(past.stores)
      ensures past.logged == |session| && faithful && mem != null && mem.snapshots && !snapshotErr ==>
                TailStart() <= |session| && Aligned(Loadable(mem), Replayable(session[TailStart()..]))
      ensures pins ==> Asks(session, snapshot, agent, past.prompts, TaskOf(past))
      ensures pins && faithful && mem != null ==> Recalled(mem) == OrElse(LastUser(past.saved), past.before)
    {
      hide Closed, Loads, EmptyAnswer, Aligned, SentWell, LinedUp, NoEmptyAnswer, JsonFile.Shows, Head, Told, Faithful;
      hide Asks, KeepsTask, LastUser, TaskOfLog, Task;
      NothingIsClosed();
      ShapedParts(session, Head(agent.system, snapshot), past.logged, past.whole);
      StandsForAll(session, |Head(agent.system, snapshot)|);
      assert past.saved + [] == past.saved;
    }

    /** The agent loop: call the model, run the tools it asks for, until it answers, the run is
        stopped, or something fails. Whatever ends it, the session is saved. */
    method Execute(input: seq<Part>, script: seq<Step>) returns (end: End, ok: bool)
      requires Configured() && (mem != null ==> mem.Valid())
      modifies this, mem
      ensures mem != null ==> mem.Valid()
      ensures iteration <= |script| && (agent.maxIterations > 0 ==> iteration <= agent.maxIterations)
      ensures mem != null ==>
                && past.saved <= Replayable(Transcript(input, script, iteration))
                && mem.full == old(mem.full) + past.saved
                && (ok ==> past.saved == Replayable(Transcript(input, script, iteration)))
      ensures mem != null && ok && iteration > 0 && AnswersAtLast(script[iteration - 1].reply) ==>
                && mem.full != []
                && mem.full[|mem.full| - 1] == Message(Assistant, script[iteration - 1].reply.parts, [], "", false)
      ensures mem != null && old(Closed(Loadable(mem))) ==> Closed(Loadable(mem))
      ensures |past.prompts| == iteration && Told(past, agent, mem != null)
      ensures past.whole == (mem == null || old(Closed(Loadable(mem))))
      ensures faithful ==> AllLinedUp(past.stores)
      ensures ok && faithful && mem != null && mem.snapshots && !snapshotErr ==>
                TailStart() <= |session| && Aligned(Loadable(mem), Replayable(session[TailStart()..]))
      ensures pins ==>
                Asks(session, snapshot, agent, past.prompts,
                     OrElse(LastUser(UserTurn(input)), if mem != null then old(Recalled(mem)) else None))
      ensures pins && faithful && mem != null ==> Recalled(mem) == OrElse(LastUser(past.saved), old(Recalled(mem)))
      ensures RanOn(script, iteration, agent) && EndsBy(end, script, iteration, agent)
      ensures Reliable(agent, mem) ==> ok && (iteration, end) == RunEnd(script, 0, agent)
      ensures AllHeed(past.prompts, agent)
      ensures agent.compactor.None? ==>
                SaysAll(past.prompts,
                        Head(agent.system, if mem != null then old(mem.snapshot) else None)
                        + (if mem != null then old(Loadable(mem)) else []),
                        input, script)
    {
      hide Closed, Replayable, Loads, EmptyAnswer, Aligned, StandsFor, Shaped, Stores, SentWell, LinedUp;
      hide NoEmptyAnswer, JsonFile.Shows, Head, Told, Faithful, Round, Replays, Shape, Loadable, Remembers, RanOn;
      hide EndsBy, AllHeed, SaysAll, RunEnd, Asked, Ended, Ran, Saves, Transcript, Reliable;
      hide Asks, KeepsTask, LastUser, TaskOfLog, Task;
      Prepare(input);
      ghost var start := Head(agent.system, snapshot) + (if mem != null then Loadable(mem) else []);
      ghost var course := Course(input, script, start, agent, Reliable(agent, mem));
      end := Loop(script, course);
      EndedGives(course, past, end, iteration);
      SavesWell();
      ok := SaveSession();
      Leaves();
      TranscriptAsks(input, script, iteration);
      if iteration > 0 && AnswersAtLast(script[iteration - 1].reply) {
        AnswerIsSaved(input, script, iteration);
      }
    }

    /** A compaction asked for between runs, of what a run would load. It counts only when the
        store took the snapshot: there is no session to hold it otherwise. */
    method CompactManually() returns (compacted: bool)
      requires Configured() && mem != null && mem.Valid()
      modifies this, mem
      ensures mem.Valid() && mem.full == old(mem.full)
      ensures old(Closed(Loadable(mem))) ==> Closed(Loadable(mem))
      ensures pins && faithful ==> Recalled(mem) == old(Recalled(mem))
      ensures if compacted then mem.snapshot.Some? else mem.snapshot == old(mem.snapshot)
      ensures faithful ==>
                (compacted <==>
                   && agent.compactor.Some? && mem.snapshots && old(Loadable(mem)) != [] && mem.writes(old(mem.tried))
                   && var input := Compact.CompactInput(old(mem.snapshot), old(Loadable(mem)), agent.compactAt / 4);
                      Asked(agent.compactor.value(0, input), input) == Replaced)
      ensures compacted && faithful && mem.snapshots ==> |past.stores| == 1 && LinedUp(past.stores[0])
      ensures compacted && faithful && mem.snapshots ==>
                TailStart() <= |session| && Aligned(Loadable(mem), Replayable(session[TailStart()..]))
    {
      hide Closed, Replayable, Loads, EmptyAnswer, Aligned, StandsFor, Shaped, Stores, SentWell, LinedUp;
      hide NoEmptyAnswer, JsonFile.Shows, Head, Told, Faithful, Replays, Shape, Loadable, Remembers;
      hide Asks, KeepsTask, LastUser, TaskOfLog, Task;
      if agent.compactor.None? || !mem.snapshots {
        return false;
      }
      Prepare([]);
      assert UserTurn([]) == [];
      NothingIsClosed();
      assert session[TailStart()..] == old(Loadable(mem));
      var r := CompactSession(0);
      Leaves();
      assert past.saved == [] && past.base + [] == past.base;
      NoUser();
      compacted := r == Replaced && !snapshotErr;
    }
  }

  lemma StartsAsking(agent: Agent, snapshot: Option<Snapshot>, loaded: seq<Message>, turn: seq<Message>,
                     session: seq<Message>)
    requires session == Head(agent.system, snapshot) + loaded + turn
    ensures Asks(session, snapshot, agent, [], OrElse(LastUser(turn), Task(Held(snapshot, loaded))))
  {
    hide LastUser, Head;
    Parts3(Head(agent.system, snapshot), loaded, turn);
    LastUserConcat(loaded, turn);
  }

  lemma RecalledWhenSaved(full: seq<Message>, snapshots: bool, snapshot: Option<Snapshot>, saved: seq<Message>,
                          before: Option<Message>, unsaved: seq<Message>)
    requires snapshots ==> Covered(snapshot) <= |full|
    requires TaskOfLog(full, snapshots, snapshot) == OrElse(LastUser(saved), before)
    ensures TaskOfLog(full + Replayable(unsaved), snapshots, snapshot) ==
            OrElse(LastUser(saved + Replayable(unsaved)), before)
  {
    hide LastUser, Replayable, TaskOfLog;
    TaskWhenSaved(full, snapshots, snapshot, unsaved);
    LastUserOfReplayable(unsaved);
    LastUserConcat(saved, Replayable(unsaved));
  }

  /** An answer that calls no tool and says something. */
  predicate AnswersAtLast(reply: Reply) {
    reply.Answered? && reply.calls == [] && exists i | 0 <= i < |reply.parts| :: Says(reply.parts[i])
  }

  lemma AnswerIsSaved(input: seq<Part>, script: seq<Step>, n: nat)
    requires 0 < n <= |script| && AnswersAtLast(script[n - 1].reply)
    ensures var said := Replayable(Transcript(input, script, n));
            said != [] && said[|said| - 1] == Message(Assistant, script[n - 1].reply.parts, [], "", false)
  {
    hide EmptyAnswer, Says;
    var reply := script[n - 1].reply;
    var m := Message(Assistant, reply.parts, [], "", false);
    assert Round(reply) == [m];
    DroppedExactly(m);
    ReplayableConcat(Transcript(input, script, n - 1), [m]);
  }

  lemma NoUser()
    ensures LastUser([]) == None && Task(Held(None, [])) == None
  {
  }

  lemma PinsGives(compactor: Compactor, n: nat, input: Compact.CompactInput)
    requires KeepsTask(compactor)
    requires compactor(n, input).Compacted? && Compact.CheckOf(compactor(n, input).compaction, input).Valid?
    ensures var c := compactor(n, input).compaction;
            Task(Held(Some(c.snapshot), c.kept)) == Task(Held(input.previous, input.messages))
  {
    assert KeepsTaskOn(compactor(n, input), input);
  }

  lemma AsksNow(session: seq<Message>, snapshot: Option<Snapshot>, agent: Agent, prompts: seq<Prompt>,
                task: Option<Message>)
    requires Asks(session, snapshot, agent, prompts, task)
    ensures var n := |Head(agent.system, snapshot)|; n <= |session| && Task(Held(snapshot, session[n..])) == task
  {
  }

  lemma StoredRecalls(full: seq<Message>, past: Past, earlier: Option<Snapshot>, s: Snapshot, c: Compact.Compaction,
                      pos: nat)
    requires Stores(full, past, []) && LinedUp(Stored(full, past.covered, pos, c.kept))
    requires Covered(earlier) <= Covered(Some(s)) == pos + 1 && s.pinned == c.snapshot.pinned
    requires Task(Held(Some(c.snapshot), c.kept)) == TaskOf(past)
    requires TaskOfLog(full, true, earlier) == OrElse(LastUser(past.saved), past.before)
    ensures TaskOfLog(full, true, Some(s)) == OrElse(LastUser(past.saved), past.before)
  {
    hide LastUser, Loads, Covered, TaskOfLog, Aligned;
    assert past.saved + Replayable([]) == past.saved;
    LastUserOfReplayable(past.added);
    TaskWhenStored(full, earlier, s, c.kept);
  }

  lemma RestartAsks(session: seq<Message>, snapshot: Option<Snapshot>, agent: Agent, prompts: seq<Prompt>,
                    task: Option<Message>, restarted: seq<Message>, c: Compact.Compaction)
    requires Asks(session, snapshot, agent, prompts, task)
    requires restarted == Head(agent.system, Some(c.snapshot)) + c.kept
    requires Task(Held(Some(c.snapshot), c.kept)) == task
    ensures Asks(restarted, Some(c.snapshot), agent, prompts, task)
  {
    hide Head, Task;
    assert restarted[|Head(agent.system, Some(c.snapshot))|..] == c.kept;
  }

  /** A round asks nothing: the session, the prompt sent and the run are asked what they were. */
  lemma AppendAsks(session: seq<Message>, agent: Agent, sent: Prompt, prompts: seq<Prompt>, past: Past, reply: Reply)
    requires sent.session == session && Asks(session, sent.snapshot, agent, prompts, TaskOf(past))
    ensures Asks(session + Round(reply), sent.snapshot, agent, prompts + [sent], TaskOf(past))
    ensures LastUser(past.added + Round(reply)) == LastUser(past.added)
  {
    hide Head, LastUser, Round;
    RoundAsksNothing(reply);
    LastUserConcat(past.added, Round(reply));
    var n := |Head(agent.system, sent.snapshot)|;
    assert (session + Round(reply))[n..] == session[n..] + Round(reply);
    LastUserConcat(session[n..], Round(reply));
  }

  lemma {:induction false} TranscriptAsks(input: seq<Part>, script: seq<Step>, n: nat)
    requires n <= |script|
    ensures LastUser(Transcript(input, script, n)) == LastUser(UserTurn(input))
  {
    hide LastUser, UserTurn, Round;
    if n > 0 {
      TranscriptAsks(input, script, n - 1);
      RoundAsksNothing(script[n - 1].reply);
      LastUserConcat(Transcript(input, script, n - 1), Round(script[n - 1].reply));
    }
  }

  lemma StartsWell(system: string, snapshot: Option<Snapshot>, loaded: seq<Message>, input: seq<Part>,
                   session: seq<Message>)
    requires session == Head(system, snapshot) + loaded + UserTurn(input)
    requires NoEmptyAnswer(loaded)
    ensures var head := Head(system, snapshot);
            && Shaped(session, head, |head| + |loaded|, Closed(loaded))
            && session[|head|..|head| + |loaded|] == loaded
            && session[|head| + |loaded|..] == UserTurn(input)
            && NoEmptyAnswer(session[|head|..])
  {
    UserTurnFacts(input);
    hide Closed, EmptyAnswer, UserTurn;
    Parts3(Head(system, snapshot), loaded, UserTurn(input));
    NoEmptyConcat(loaded, UserTurn(input));
  }

  /** Cutting the log after `pos` leaves to load what was loaded after `covered`, less the first
      `older` messages of `tail`; the rest of `tail` lines up with it one for one. */
  ghost predicate CutsAt(full: seq<Message>, covered: nat, pos: nat, tail: seq<Message>, older: nat) {
    && covered <= pos < |full|
    && older <= |tail| == |Loads(full, covered)|
    && Loads(full, pos + 1) == Loads(full, covered)[older..]
    && Aligned(Loads(full, pos + 1), tail[older..])
  }

  lemma CutsInside(full: seq<Message>, covered: nat, pos: nat, tail: seq<Message>, older: nat)
    requires CutsAt(full, covered, pos, tail, older)
    ensures covered <= pos < |full|
  {
  }

  /** Where a compaction that drops `older` from `messages` cuts the log. */
  function CursorFor(full: seq<Message>, stored: Option<Snapshot>, older: seq<Message>,
                     messages: seq<Message>): CursorResult
  {
    if |Replayable(older)| <= |Replayable(messages)| then
      CursorOf(TailOf(full, 0, stored), Replayable(older), Replayable(messages))
    else NoMatch
  }

  method SnapshotCursor(mem: JsonFile.Memory, stored: Option<Snapshot>, input: Compact.CompactInput,
                        c: Compact.Compaction)
    returns (r: CursorResult)
    requires mem.Valid() && mem.snapshots && |c.kept| <= |input.messages|
    ensures !Same(mem.snapshot, stored) ==> r == NoMatch
    ensures Same(mem.snapshot, stored) ==> r == CursorFor(mem.full, mem.snapshot, OlderOf(c, input), input.messages)
  {
    hide Replayable, JsonFile.Step, JsonFile.Shows, TailOf, CursorOf;
    var supported, current, logged := mem.LoadSnapshot();
    if !Same(current, stored) {
      return NoMatch;
    }
    var older := ReplayableOf(input.messages[..|input.messages| - |c.kept|]);
    var tail := ReplayableOf(input.messages);
    ReplayableOfPart(input.messages, |input.messages| - |c.kept|);
    r := FindCursor(logged, older, tail);
  }

  lemma ReplayableOfPart(msgs: seq<Message>, at: nat)
    requires at <= |msgs|
    ensures Replayable(msgs) == Replayable(msgs[..at]) + Replayable(msgs[at..])
  {
    assert msgs == msgs[..at] + msgs[at..];
    ReplayableConcat(msgs[..at], msgs[at..]);
  }

  lemma FindsCutoff(full: seq<Message>, stored: Option<Snapshot>, covered: nat, tail: seq<Message>, older: nat)
    returns (pos: nat)
    requires Covered(stored) <= covered && StandsFor(full, covered, tail) && NoEmptyAnswer(tail)
    requires 0 < older <= |tail| && (older < |tail| ==> tail[older].role != Tool)
    ensures CursorFor(full, stored, tail[..older], tail).Found?
    ensures Position(CursorFor(full, stored, tail[..older], tail).cursor) == Some(pos)
    ensures CutsAt(full, covered, pos, tail, older)
  {
    NoEmptyPart(tail, older);
    pos := CutoffLeavesKept(full, stored, covered, tail, older);
  }

  lemma NothingToCover(full: seq<Message>, stored: Option<Snapshot>, messages: seq<Message>)
    ensures CursorFor(full, stored, [], messages) == CoversNothing
  {
  }

  /** If the log shown was made of whole rounds, so is the log past the cutoff. */
  lemma WholeCutoff(full: seq<Message>, stored: Option<Snapshot>, older: seq<Message>, kept: seq<Message>)
    requires Covered(stored) <= |full| && Closed(Loads(full, Covered(stored)))
    requires Closed(older + kept) && Closed(kept)
    requires CursorFor(full, stored, older, older + kept).Found?
    ensures var pos := Position(CursorFor(full, stored, older, older + kept).cursor);
            pos.Some? && pos.value < |full| && Closed(Loads(full, pos.value + 1))
  {
    hide Closed, Replayable, Loads, TailOf, CursorOf, Position, Covered;
    ReplayableConcat(older, kept);
    ClosedReplayable(older + kept);
    ClosedReplayable(kept);
    var pos := CutoffKeepsRounds(full, stored, Replayable(older), Replayable(kept));
  }

  lemma DropsSome(c: Compact.Compaction, input: Compact.CompactInput)
    requires |c.kept| <= |input.messages| && Compact.CheckOf(c, input).Valid?
    ensures OlderOf(c, input) == [] <==> input.messages == []
  {
    Compact.CheckAccepts(c, input);
  }

  lemma FaithfulGives(compactor: Compactor, n: nat, input: Compact.CompactInput)
    requires Faithful(compactor)
    requires compactor(n, input).Compacted? && Compact.CheckOf(compactor(n, input).compaction, input).Valid?
    ensures var c := compactor(n, input).compaction;
            |c.kept| <= |input.messages| && SameContent(c.kept, KeptOf(c, input))
  {
    assert FaithfulOn(compactor(n, input), input);
  }

  lemma KeptReplays(tail: seq<Message>, at: nat, kept: seq<Message>)
    requires at <= |tail| && NoEmptyAnswer(tail) && SameContent(kept, tail[at..])
    ensures NoEmptyAnswer(kept) && Replayable(kept) == kept
  {
    NoEmptyPart(tail, at);
    SameContentReplays(kept, tail[at..]);
  }

  lemma CutStands(full: seq<Message>, covered: nat, pos: nat, tail: seq<Message>, older: nat, kept: seq<Message>)
    requires CutsAt(full, covered, pos, tail, older)
    requires NoEmptyAnswer(tail) && SameContent(kept, tail[older..])
    ensures StandsFor(full, pos + 1, kept) && LinedUp(Stored(full, covered, pos, kept))
    ensures covered <= pos < |full|
  {
    KeptReplays(tail, older, kept);
    AlignedTransitive(Loads(full, pos + 1), tail[older..], kept);
  }

  lemma StartsWellKept(session: seq<Message>, head: seq<Message>, kept: seq<Message>, whole: bool)
    requires session == head + kept && (whole ==> Closed(kept))
    ensures Shaped(session, head, |session|, whole)
    ensures session[|head|..] == kept && session[|head|..|session|] == kept && session[|session|..] == []
  {
    assert session[|head|..] == kept;
    assert session[|head|..|session|] == kept;
    NothingIsClosed();
  }

  lemma StoresSame(full: seq<Message>, past: Past, past': Past, unsaved: seq<Message>)
    requires past.base == past'.base && past.saved == past'.saved && past.added == past'.added
    requires Stores(full, past, unsaved)
    ensures Stores(full, past', unsaved)
  {
  }

  lemma ToldSame(past: Past, past': Past, agent: Agent, remembers: bool)
    requires past.prompts == past'.prompts && past.whole == past'.whole
    requires Told(past, agent, remembers)
    ensures Told(past', agent, remembers)
  {
  }

  lemma StandsForAll(session: seq<Message>, head: nat)
    requires head <= |session|
    ensures session[head..|session|] == session[head..] && session[|session|..] == []
  {
  }

  method RoundMessages(reply: Reply) returns (round: seq<Message>)
    ensures round == Round(reply)
  {
    if reply.CallFailed? {
      return [];
    }
    round := [Answer(reply)];
    for i := 0 to |reply.calls|
      invariant |round| == i + 1 && round[0] == Answer(reply)
      invariant forall k | 0 <= k < i :: round[k + 1] == ResultAt(reply, k)
    {
      round := round + [ResultAt(reply, i)];
    }
  }

  /** One pass over the calls decides whether the round was the run's last. */
  method RoundEnd(reply: Reply, handoffs: set<string>) returns (end: Option<End>)
    requires reply.Answered?
    ensures end == EndOfRound(reply, handoffs)
  {
    if reply.calls == [] {
      return Some(Finished);
    }
    if reply.cut {
      return None;
    }
    var stopped, handed := false, false;
    for i := 0 to |reply.calls|
      invariant stopped <==> exists k | 0 <= k < i :: reply.tools(k).StopRun?
      invariant handed <==> exists k | 0 <= k < i :: reply.calls[k].name in handoffs
    {
      if reply.tools(i).StopRun? {
        stopped := true;
      }
      if reply.calls[i].name in handoffs {
        handed := true;
      }
    }
    return if stopped then Some(ToolStopped) else if handed then Some(HandedOff) else None;
  }

  lemma NoRound(reply: Reply)
    requires reply.CallFailed?
    ensures Round(reply) == []
  {
  }

  lemma PromptSent(past: Past, sent: Prompt, agent: Agent, remembers: bool)
    requires Told(past, agent, remembers)
    requires Shaped(sent.session, Head(agent.system, sent.snapshot), past.logged, past.whole)
    requires past.logged == sent.savedTo && past.rounds == sent.rounds
    requires agent.checkpoint && remembers && past.rounds > 0 ==> sent.savedTo == |sent.session|
    ensures Told(past.(prompts := past.prompts + [sent]), agent, remembers)
  {
    ShapedParts(sent.session, Head(agent.system, sent.snapshot), past.logged, past.whole);
  }

  /** A round added to a session keeps it well formed; unless it ends the run, it holds no empty
      answer. */
  lemma Extend(session: seq<Message>, head: seq<Message>, logged: nat, whole: bool, reply: Reply)
    requires Shaped(session, head, logged, whole)
    ensures var longer := session + Round(reply);
            && Shaped(longer, head, logged, whole)
            && longer[logged..] == session[logged..] + Round(reply)
            && longer[|head|..logged] == session[|head|..logged]
            && (NoEmptyAnswer(session[|head|..]) && reply.Answered? && reply.calls != [] ==>
                  NoEmptyAnswer(longer[|head|..]))
  {
    RoundIsClosed(reply);
    if reply.Answered? && reply.calls != [] {
      RoundWithCallsReplays(reply);
    }
    hide Closed, EmptyAnswer, Round;
    ShapedParts(session, head, logged, whole);
    ClosedConcat(session[logged..], Round(reply));
    Longer(session, Round(reply), |head|, logged);
    if NoEmptyAnswer(session[|head|..]) && NoEmptyAnswer(Round(reply)) {
      NoEmptyConcat(session[|head|..], Round(reply));
    }
  }

  lemma Longer<T>(s: seq<T>, t: seq<T>, m: nat, n: nat)
    requires m <= n <= |s|
    ensures (s + t)[..m] == s[..m]
    ensures (s + t)[n..] == s[n..] + t && (s + t)[m..] == s[m..] + t && (s + t)[m..n] == s[m..n]
  {
  }

  lemma StoresExtend(full: seq<Message>, past: Past, past': Past, unsaved: seq<Message>, round: seq<Message>)
    requires Stores(full, past, unsaved)
    requires past'.base == past.base && past'.saved == past.saved && past'.added == past.added + round
    ensures Stores(full, past', unsaved + round)
  {
    ReplayableConcat(unsaved, round);
    ReplayableConcat(past.added, round);
  }

  lemma ShapedParts(session: seq<Message>, head: seq<Message>, logged: nat, whole: bool)
    requires Shaped(session, head, logged, whole)
    ensures |head| <= logged <= |session| && Closed(session[logged..])
    ensures session[..|head|] == head && session[|session|..] == []
    ensures session[|head|..] == session[|head|..logged] + session[logged..]
    ensures whole ==> Closed(session[|head|..logged]) && Closed(session[|head|..])
  {
    if whole {
      ClosedConcat(session[|head|..logged], session[logged..]);
    }
  }

  lemma ShapedWhenSaved(session: seq<Message>, head: seq<Message>, logged: nat, whole: bool)
    requires Shaped(session, head, logged, whole)
    ensures Shaped(session, head, |session|, whole)
  {
    ShapedParts(session, head, logged, whole);
    assert session[|head|..|session|] == session[|head|..];
  }

  lemma StoresWhenSaved(full: seq<Message>, past: Past, unsaved: seq<Message>)
    requires Stores(full, past, unsaved)
    ensures forall n ::
              Stores(full + Replayable(unsaved), past.(saved := past.saved + Replayable(unsaved), logged := n), [])
  {
    assert past.saved + Replayable(unsaved) + [] == past.saved + Replayable(unsaved);
    assert full + Replayable(unsaved) == past.base + (past.saved + Replayable(unsaved));
  }

  lemma StandsWhenSaved(full: seq<Message>, covered: nat, session: seq<Message>, head: nat, logged: nat)
    requires head <= logged <= |session| && StandsFor(full, covered, session[head..logged])
    requires Closed(session[logged..])
    ensures StandsFor(full + Replayable(session[logged..]), covered, session[head..|session|])
  {
    SaveKeepsStanding(full, covered, session[head..logged], session[logged..]);
    assert session[head..logged] + session[logged..] == session[head..|session|];
  }

  lemma NothingStored(base: seq<Message>, turn: seq<Message>, index: nat, covered: nat, whole: bool,
                      before: Option<Message>)
    ensures Stores(base, Past(base, [], turn, index, covered, whole, before, 0, [], []), turn)
  {
  }

  lemma NoEmptyConcat(a: seq<Message>, b: seq<Message>)
    requires NoEmptyAnswer(a) && NoEmptyAnswer(b)
    ensures NoEmptyAnswer(a + b)
  {
  }

  lemma UserTurnFacts(input: seq<Part>)
    ensures Closed(UserTurn(input)) && NoEmptyAnswer(UserTurn(input))
  {
  }

  lemma Parts3<T>(a: seq<T>, b: seq<T>, c: seq<T>)
    ensures var s := a + b + c;
            && s[..|a|] == a
            && s[|a|..] == b + c
            && s[|a|..|a| + |b|] == b
            && s[|a| + |b|..] == c
  {
  }

  /** What a run starts from: the snapshot, if the memory keeps them, and what can be replayed. */
  method LoadMemory(mem: JsonFile.Memory) returns (snapshot: Option<Snapshot>, loaded: seq<Message>)
    requires mem.Valid()
    ensures snapshot == mem.snapshot && loaded == Loadable(mem)
    ensures NoEmptyAnswer(loaded) && Replayable(loaded) == loaded
    ensures mem.snapshots ==> Covered(snapshot) <= |mem.full| && StandsFor(mem.full, Covered(snapshot), loaded)
    ensures Task(Held(snapshot, loaded)) == Recalled(mem)
  {
    LastUserOfReplayable(mem.full);
    if mem.snapshots {
      snapshot, loaded := LoadAfterSnapshot(mem);
    } else {
      snapshot := None;
      loaded := LoadAll(mem);
    }
  }

  method LoadAfterSnapshot(mem: JsonFile.Memory) returns (snapshot: Option<Snapshot>, loaded: seq<Message>)
    requires mem.Valid() && mem.snapshots
    ensures snapshot == mem.snapshot && Covered(snapshot) <= |mem.full|
    ensures loaded == Loads(mem.full, Covered(snapshot))
    ensures NoEmptyAnswer(loaded) && Replayable(loaded) == loaded
    ensures StandsFor(mem.full, Covered(snapshot), loaded)
  {
    var supported, snap, tail := mem.LoadSnapshot();
    snapshot := snap;
    var msgs := MessagesOf(tail);
    loaded := ReplayableOf(msgs);
    TailMessages(mem.full, snap);
    FilteredReplays(msgs);
  }

  method LoadAll(mem: JsonFile.Memory) returns (loaded: seq<Message>)
    requires mem.Valid() && !mem.snapshots
    ensures loaded == Replayable(mem.full)
    ensures NoEmptyAnswer(loaded) && Replayable(loaded) == loaded
  {
    var msgs := mem.Retrieve();
    loaded := ReplayableOf(msgs);
    FilteredReplays(msgs);
  }

  lemma FilteredReplays(msgs: seq<Message>)
    ensures NoEmptyAnswer(Replayable(msgs)) && Replayable(Replayable(msgs)) == Replayable(msgs)
    ensures Aligned(Replayable(msgs), Replayable(msgs))
  {
    ReplayableKeepsAll(msgs);
    ReplayableKeepsAll(Replayable(msgs));
  }

  method HeadMessages(system: string, snapshot: Option<Snapshot>) returns (messages: seq<Message>)
    ensures messages == Head(system, snapshot)
  {
    messages := [SystemMessage(system)];
    if snapshot.Some? {
      messages := messages + SummaryMessages(snapshot.value);
    }
  }

  method UserMessages(input: seq<Part>) returns (turn: seq<Message>)
    ensures turn == UserTurn(input)
  {
    var content := NonBlankParts(input);
    if content == [] {
      return [];
    }
    return [UserMessage(content)];
  }

  method ReplayableOf(msgs: seq<Message>) returns (out: seq<Message>)
    ensures out == Replayable(msgs)
  {
    out := [];
    for i := 0 to |msgs|
      invariant out + Replayable(msgs[i..]) == Replayable(msgs)
    {
      assert msgs[i..][1..] == msgs[i + 1..];
      if !EmptyAnswer(msgs[i]) {
        out := out + [msgs[i]];
      }
    }
    assert out == out + Replayable(msgs[|msgs|..]);
  }

  method NonBlankParts(parts: seq<Part>) returns (out: seq<Part>)
    ensures out == NonBlank(parts)
  {
    out := [];
    for i := 0 to |parts|
      invariant out + NonBlank(parts[i..]) == NonBlank(parts)
    {
      assert parts[i..][1..] == parts[i + 1..];
      if !BlankText(parts[i]) {
        out := out + [parts[i]];
      }
    }
    assert out == out + NonBlank(parts[|parts|..]);
  }

  method MessagesOf(logged: seq<LoggedMessage>) returns (out: seq<Message>)
    ensures out == Unlogged(logged)
  {
    out := [];
    for i := 0 to |logged|
      invariant |out| == i && forall k | 0 <= k < i :: out[k] == logged[k].message
    {
      out := out + [logged[i].message];
    }
  }

  // ---- one conversation over many runs

  datatype Turn = Turn(input: seq<Part>, script: seq<Step>)

  /** What the first `|taken|` runs of a conversation added, the i-th in `taken[i]` iterations. */
  function Said(turns: seq<Turn>, taken: seq<nat>): seq<Message>
    requires |taken| <= |turns| && forall i | 0 <= i < |taken| :: taken[i] <= |turns[i].script|
  {
    if taken == [] then []
    else
      var n := |taken| - 1;
      Said(turns, taken[..n]) + Replayable(Transcript(turns[n].input, turns[n].script, taken[n]))
  }

  /** What the first `n` turns of a conversation last asked. */
  function LastAsked(turns: seq<Turn>, n: nat): Option<Message>
    requires n <= |turns|
  {
    if n == 0 then None else OrElse(LastUser(UserTurn(turns[n - 1].input)), LastAsked(turns, n - 1))
  }

  ghost predicate AllSentWell(prompts: seq<Prompt>, agent: Agent, whole: bool) {
    forall i | 0 <= i < |prompts| :: SentWell(prompts[i], agent, whole)
  }

  /** After `n` runs, whose prompts were `prompts` and which appended `said`: what the memory
      recalls, and, when every save worked, what each prompt was asked. */
  ghost predicate Heard(turns: seq<Turn>, prompts: seq<seq<Prompt>>, agent: Agent, said: seq<Message>, ok: bool,
                        start: Option<Message>, recalled: Option<Message>)
  {
    && |prompts| <= |turns|
    && recalled == OrElse(LastUser(said), start)
    && (ok ==> recalled == OrElse(LastAsked(turns, |prompts|), start))
    && (ok ==> forall i | 0 <= i < |prompts| ::
          PromptsAsk(prompts[i], agent, OrElse(LastAsked(turns, i + 1), start)))
  }

  lemma NothingHeard(turns: seq<Turn>, agent: Agent, start: Option<Message>)
    ensures Heard(turns, [], agent, [], true, start, start)
  {
    NoUser();
  }

  lemma HeardMore(turns: seq<Turn>, prompts: seq<seq<Prompt>>, agent: Agent, said: seq<Message>, ok: bool,
                  start: Option<Message>, recalled: Option<Message>, sent: seq<Prompt>, added: seq<Message>,
                  saved: bool, recalled': Option<Message>)
    requires |prompts| < |turns| && Heard(turns, prompts, agent, said, ok, start, recalled)
    requires recalled' == OrElse(LastUser(added), recalled)
    requires saved ==> LastUser(added) == LastUser(UserTurn(turns[|prompts|].input))
    requires PromptsAsk(sent, agent, OrElse(LastUser(UserTurn(turns[|prompts|].input)), recalled))
    ensures Heard(turns, prompts + [sent], agent, said + added, ok && saved, start, recalled')
  {
    hide LastUser, UserTurn, PromptsAsk;
    LastUserConcat(said, added);
    if ok && saved {
      var n := |prompts|;
      assert LastAsked(turns, n + 1) == OrElse(LastUser(UserTurn(turns[n].input)), LastAsked(turns, n));
      OrElseAssociates(LastUser(UserTurn(turns[n].input)), LastAsked(turns, n), start);
    }
  }

  /** Any number of runs over one memory, as when each user message starts a run. `prompts[i]`
      are the i-th run's. */
  method Converse(agent: Agent, mem: JsonFile.Memory, turns: seq<Turn>, ghost faithful: bool, ghost pins: bool)
    returns (taken: seq<nat>, ok: bool, ghost prompts: seq<seq<Prompt>>, ghost stores: seq<Stored>)
    requires mem.Valid()
    requires faithful && agent.compactor.Some? ==> Faithful(agent.compactor.value)
    requires pins && agent.compactor.Some? ==> KeepsTask(agent.compactor.value)
    modifies mem
    ensures mem.Valid() && |taken| == |prompts| == |turns|
    ensures forall i | 0 <= i < |taken| :: taken[i] <= |turns[i].script|
    ensures old(mem.full) <= mem.full && (ok ==> mem.full == old(mem.full) + Said(turns, taken))
    ensures old(Closed(Loadable(mem))) ==> Closed(Loadable(mem))
    ensures forall i | 0 <= i < |prompts| :: AllSentWell(prompts[i], agent, old(Closed(Loadable(mem))))
    ensures faithful ==> AllLinedUp(stores)
    ensures pins && faithful ==>
              Recalled(mem) == OrElse(LastUser(mem.full[|old(mem.full)|..]), old(Recalled(mem)))
    ensures pins && faithful && ok ==>
              && Recalled(mem) == OrElse(LastAsked(turns, |turns|), old(Recalled(mem)))
              && forall i | 0 <= i < |prompts| ::
                PromptsAsk(prompts[i], agent, OrElse(LastAsked(turns, i + 1), old(Recalled(mem))))
  {
    hide Loadable, AllSentWell, AllLinedUp, Closed, Replayable, Transcript, Aligned, Head, Recalled, PromptsAsk;
    hide LastUser;
    hide Faithful, KeepsTask, UserTurn, RanOn, EndsBy, Heard, JsonFile.Shows, Said;
    taken, ok, prompts, stores := [], true, [], [];
    ghost var start, whole, said := Recalled(mem), Closed(Loadable(mem)), [];
    NothingHeard(turns, agent, start);
    NothingLinedUp();
    NothingSaid(turns);
    for n := 0 to |turns|
      invariant mem.Valid() && |taken| == |prompts| == n
      invariant forall i | 0 <= i < n :: taken[i] <= |turns[i].script|
      invariant mem.full == old(mem.full) + said && (ok ==> said == Said(turns, taken))
      invariant whole ==> Closed(Loadable(mem))
      invariant forall i | 0 <= i < n :: AllSentWell(prompts[i], agent, whole)
      invariant faithful ==> AllLinedUp(stores)
      invariant pins && faithful ==> Heard(turns, prompts, agent, said, ok, start, Recalled(mem))
    {
      ghost var recalled := Recalled(mem);
      var iterations, saved;
      ghost var sent, stored, added;
      iterations, saved, sent, stored, added := OneRun(agent, mem, turns[n], faithful, pins);
      SaidMore(turns, taken, iterations);
      LinedUpConcat(stores, stored);
      if pins && faithful {
        HeardMore(turns, prompts, agent, said, ok, start, recalled, sent, added, saved, Recalled(mem));
      }
      ok := ok && saved;
      taken, prompts, stores, said := taken + [iterations], prompts + [sent], stores + stored, said + added;
    }
    assert mem.full[|old(mem.full)|..] == said;
    if pins && faithful {
      HeardGives(turns, prompts, agent, said, ok, start, Recalled(mem));
    }
  }

  /** With a SummaryCompactor, whatever its model writes and however often runs compact: the last
      user message is in the session and in every prompt, verbatim, and survives every reload. */
  method ConverseSummarizing(agent: Agent, config: nat -> Config, mem: JsonFile.Memory, turns: seq<Turn>)
    returns (taken: seq<nat>, ok: bool, ghost prompts: seq<seq<Prompt>>, ghost stores: seq<Stored>)
    requires mem.Valid()
    modifies mem
    ensures mem.Valid() && |taken| == |prompts| == |turns|
    ensures forall i | 0 <= i < |taken| :: taken[i] <= |turns[i].script|
    ensures old(mem.full) <= mem.full && (ok ==> mem.full == old(mem.full) + Said(turns, taken))
    ensures AllLinedUp(stores)
    ensures Recalled(mem) == OrElse(LastUser(mem.full[|old(mem.full)|..]), old(Recalled(mem)))
    ensures ok ==>
              && Recalled(mem) == OrElse(LastAsked(turns, |turns|), old(Recalled(mem)))
              && forall i | 0 <= i < |prompts| ::
                PromptsAsk(prompts[i], agent, OrElse(LastAsked(turns, i + 1), old(Recalled(mem))))
  {
    hide Loadable, AllSentWell, AllLinedUp, Closed, Head, Recalled, LastUser, Faithful, KeepsTask, Said;
    hide PromptsAsk, SummaryCompactor;
    var summarizing := agent.(compactor := Some(SummaryCompactor(config)));
    SummaryIsFaithful(config);
    SummaryKeepsTask(config);
    taken, ok, prompts, stores := Converse(summarizing, mem, turns, true, true);
    forall i | ok && 0 <= i < |prompts|
      ensures PromptsAsk(prompts[i], agent, OrElse(LastAsked(turns, i + 1), old(Recalled(mem))))
    {
      SamePrompts(prompts[i], summarizing, agent, OrElse(LastAsked(turns, i + 1), old(Recalled(mem))));
    }
  }

  lemma SamePrompts(prompts: seq<Prompt>, agent: Agent, agent': Agent, task: Option<Message>)
    requires agent.system == agent'.system && PromptsAsk(prompts, agent, task)
    ensures PromptsAsk(prompts, agent', task)
  {
  }

  lemma HeardGives(turns: seq<Turn>, prompts: seq<seq<Prompt>>, agent: Agent, said: seq<Message>, ok: bool,
                   start: Option<Message>, recalled: Option<Message>)
    requires Heard(turns, prompts, agent, said, ok, start, recalled) && |prompts| == |turns|
    ensures recalled == OrElse(LastUser(said), start)
    ensures ok ==>
              && recalled == OrElse(LastAsked(turns, |turns|), start)
              && forall i | 0 <= i < |prompts| ::
                PromptsAsk(prompts[i], agent, OrElse(LastAsked(turns, i + 1), start))
  {
  }

  lemma NothingSaid(turns: seq<Turn>)
    ensures Said(turns, []) == []
  {
  }

  /** One run of a conversation. */
  method OneRun(agent: Agent, mem: JsonFile.Memory, turn: Turn, ghost faithful: bool, ghost pins: bool)
    returns (iterations: nat, ok: bool, ghost prompts: seq<Prompt>, ghost stores: seq<Stored>,
             ghost added: seq<Message>)
    requires mem.Valid()
    requires faithful && agent.compactor.Some? ==> Faithful(agent.compactor.value)
    requires pins && agent.compactor.Some? ==> KeepsTask(agent.compactor.value)
    modifies mem
    ensures mem.Valid() && iterations <= |turn.script|
    ensures mem.full == old(mem.full) + added
    ensures ok ==>
              && added == Replayable(Transcript(turn.input, turn.script, iterations))
              && LastUser(added) == LastUser(UserTurn(turn.input))
    ensures old(Closed(Loadable(mem))) ==> Closed(Loadable(mem)) && AllSentWell(prompts, agent, true)
    ensures AllSentWell(prompts, agent, false)
    ensures faithful ==> AllLinedUp(stores)
    ensures pins && faithful ==> Recalled(mem) == OrElse(LastUser(added), old(Recalled(mem)))
    ensures pins ==> PromptsAsk(prompts, agent, OrElse(LastUser(UserTurn(turn.input)), old(Recalled(mem))))
  {
    hide Loadable, SentWell, Closed, Replayable, Transcript, LinedUp, Aligned, Head, Recalled, PromptsAsk, LastUser;
    hide Faithful, KeepsTask, UserTurn, RanOn, EndsBy, AsksFor;
    var run := new Run(agent, mem, faithful, pins);
    var end;
    end, ok := run.Execute(turn.input, turn.script);
    iterations, prompts, stores, added := run.iteration, run.past.prompts, run.past.stores, run.past.saved;
    SentWellWhole(prompts, agent, run.past.whole);
    TranscriptAsks(turn.input, turn.script, iterations);
    LastUserOfReplayable(Transcript(turn.input, turn.script, iterations));
  }

  lemma SaidMore(turns: seq<Turn>, taken: seq<nat>, n: nat)
    requires |taken| < |turns| && (forall i | 0 <= i < |taken| :: taken[i] <= |turns[i].script|)
    requires n <= |turns[|taken|].script|
    ensures forall i | 0 <= i < |taken + [n]| :: (taken + [n])[i] <= |turns[i].script|
    ensures var turn := turns[|taken|];
            Said(turns, taken + [n]) == Said(turns, taken) + Replayable(Transcript(turn.input, turn.script, n))
  {
    assert (taken + [n])[..|taken|] == taken;
  }

  lemma SentWellWhole(prompts: seq<Prompt>, agent: Agent, whole: bool)
    requires AllSentWell(prompts, agent, whole)
    ensures AllSentWell(prompts, agent, false)
  {
  }

  lemma NothingLinedUp()
    ensures AllLinedUp([])
  {
  }

  lemma LinedUpConcat(a: seq<Stored>, b: seq<Stored>)
    ensures AllLinedUp(a) && AllLinedUp(b) ==> AllLinedUp(a + b)
  {
  }
}
