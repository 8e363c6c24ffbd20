/** Shutting down a server (nats/drain.go, nats/server.go): the gate that admits prompts, and the
    atomic steps of any number of Start calls, the drain, and the handlers, in any order. */
module Drain {
  import opened Messages

  // ---- the gate

  datatype GateState = GateState(open: bool, closed: bool, inflight: int, idle: bool) {
    function Unlocked(): GateState {
      if closed then this else this.(open := true)
    }

    predicate Admits() {
      open && !closed
    }

    function Entered(): GateState {
      if Admits() then this.(inflight := inflight + 1) else this
    }

    function Left(): GateState {
      this.(inflight := inflight - 1, idle := idle || (closed && inflight == 1))
    }

    function Closed(): GateState {
      this.(closed := true, idle := idle || inflight == 0)
    }
  }

  const NEW_GATE: GateState := GateState(false, false, 0, false)

  class Gate {
    var open: bool
    var closed: bool
    var inflight: int
    var idle: bool

    ghost function Value(): GateState
      reads this
    {
      GateState(open, closed, inflight, idle)
    }

    constructor ()
      ensures Value() == NEW_GATE
    {
      open, closed, inflight, idle := false, false, 0, false;
    }

    method Unlock()
      modifies this
      ensures Value() == old(Value()).Unlocked()
    {
      if !closed {
        open := true;
      }
    }

    method Enter() returns (admitted: bool)
      modifies this
      ensures admitted == old(Value()).Admits() && Value() == old(Value()).Entered()
    {
      if !open || closed {
        return false;
      }
      inflight := inflight + 1;
      return true;
    }

    method Leave()
      modifies this
      ensures Value() == old(Value()).Left()
    {
      inflight := inflight - 1;
      if closed && inflight == 0 {
        SignalIdle();
      }
    }

    method Close() returns (isIdle: bool)
      modifies this
      ensures Value() == old(Value()).Closed() && isIdle == Value().idle
    {
      closed := true;
      if inflight == 0 {
        SignalIdle();
      }
      return idle;
    }

    method SignalIdle()
      modifies `idle
      ensures idle
    {
      if !idle {
        idle := true;
      }
    }
  }

  // ---- any calls of the gate

  datatype GateCall = ToUnlock | ToEnter | ToLeave | ToClose

  function Called(g: GateState, call: GateCall): GateState {
    match call
    case ToUnlock => g.Unlocked()
    case ToEnter => g.Entered()
    case ToLeave => g.Left()
    case ToClose => g.Closed()
  }

  function AfterCalls(calls: seq<GateCall>): GateState {
    if calls == [] then NEW_GATE else Called(AfterCalls(calls[..|calls| - 1]), calls[|calls| - 1])
  }

  /** How many of the handlers that came found the gate unlocked and not closed, less those that left. */
  function InFlight(calls: seq<GateCall>): int {
    if calls == [] then 0
    else
      var before, last := calls[..|calls| - 1], calls[|calls| - 1];
      InFlight(before) +
      if last.ToEnter? && ToUnlock in before && ToClose !in before then 1 else if last.ToLeave? then -1 else 0
  }

  /** Whatever was called: a handler is admitted exactly once the gate was unlocked and until it is
      closed, for good, and those admitted are counted. */
  lemma {:induction false} GateHistory(calls: seq<GateCall>)
    ensures var g := AfterCalls(calls);
            && (g.Admits() <==> ToUnlock in calls && ToClose !in calls)
            && (g.closed <==> ToClose in calls)
            && g.inflight == InFlight(calls)
  {
    if calls != [] {
      var before, last := calls[..|calls| - 1], calls[|calls| - 1];
      GateHistory(before);
      assert calls == before + [last];
    }
  }

  // ---- the budget

  const GRACE_GRANULARITY := 5
  const CANCEL_GRACE: int := 5_000_000_000

  /** How long a drain waits before and after it cancels, in nanoseconds. */
  function Phases(budget: int): (int, int) {
    if budget <= 0 then (0, CANCEL_GRACE)
    else (budget - budget / GRACE_GRANULARITY, budget / GRACE_GRANULARITY)
  }

  /** A positive budget is a total: its two phases add up to it, and the graceful one is at least
      four fifths of it. */
  lemma PhasesShareTheBudget(budget: int)
    ensures var (graceful, unwind) := Phases(budget);
            && (budget > 0 ==> graceful + unwind == budget && 0 <= 4 * unwind <= graceful && graceful > 0)
            && (budget <= 0 ==> graceful == 0 && unwind > 0)
            && (unwind == 0 <==> 0 < budget < GRACE_GRANULARITY)
  {
  }

  // ---- the server

  datatype Result = Drained(incomplete: bool) | ServerStopped | RegisterFailed

  /** Where a Start call is. It holds the server's mutex from AddingService to AddingStatus. */
  datatype Phase =
    | Uncalled
    | Locking
    | AddingService
    | UnlockingGate
    | AddingPrompt
    | AddingStatus
    | Flushing
    | Marking
    | Serving
    | Waiting
    | CancellingPrompts(result: Result)
    | CancellingServe(result: Result)
    | Returned(result: Result)

  datatype Service = NoService | Running | Stopped

  datatype Heartbeats = NotBegun | Publishing | Exited

  /** A Start call: its service, whether its prompt endpoint was subscribed and its registration
      completed, its heartbeat goroutine, and whether its two contexts are done. */
  datatype Start = Start(
    phase: Phase, service: Service, prompt: bool, entered: bool, registered: bool,
    heartbeats: Heartbeats, serveDone: bool, promptDone: bool)

  const UNCALLED: Start := Start(Uncalled, NoService, false, false, false, NotBegun, false, false)

  /** Where the drain is. */
  datatype Drainer =
    | Asleep
    | ClosingGate
    | LockingServer
    | StoppingService
    | StoppingServe
    | WaitingIdle
    | Cancelling
    | WaitingUnwind
    | Joining
    | Done
  {
    function Rank(): nat {
      match this
      case Asleep => 0 case ClosingGate => 1 case LockingServer => 2 case StoppingService => 3
      case StoppingServe => 4 case WaitingIdle => 5 case Cancelling => 6 case WaitingUnwind => 7
      case Joining => 8 case Done => 9
    }
  }

  /** A handler, running on the prompt context of one Start. */
  datatype Handler = Handler(id: nat, start: nat)

  /** The handles the server keeps: which Start set each. */
  datatype Handles = Handles(svc: Option<nat>, stopServing: Option<nat>, cancelPrompts: Option<nat>)

  /** What the server's mutex guards, with the drain's own state: where it is, the handles it read,
      whether the graceful share was spent, and whether it reported handlers still running. */
  datatype Core = Core(
    mutex: Option<nat>, draining: bool, handles: Handles,
    drainer: Drainer, snapshot: Handles, spent: bool, incomplete: bool)

  datatype Server = Server(
    budget: int, core: Core, gate: GateState, ready: bool, starts: seq<Start>,
    running: set<Handler>, nextId: nat)

  function NewServer(calls: nat, budget: int): Server {
    var none := Handles(None, None, None);
    Server(budget, Core(None, false, none, Asleep, none, false, false), NEW_GATE, false,
           seq(calls, _ => UNCALLED), {}, 0)
  }

  /** The steps of a Start; `ok` is the outside's choice. */
  datatype StartAction =
    | CallStart
    | LockForStart
    | AddService(ok: bool)
    | UnlockGate
    | AddPrompt(ok: bool)
    | AddStatus(ok: bool)
    | Flush(ok: bool)
    | GiveUpFlush
    | MarkReady
    | ServeEnds
    | DrainReturns
    | CancelPrompts
    | CancelServe
    | ContextEnds
    | HeartbeatExits

  /** The steps; `timeout` says that a wait's time is up. */
  datatype Action =
    | OfStart(i: nat, a: StartAction)
    | Request(i: nat)
    | HandlerEnds(h: Handler)
    | CallDrain
    | RunDrain(timeout: bool)

  function Woken(core: Core): Core {
    if core.drainer == Asleep then core.(drainer := ClosingGate) else core
  }

  function Leave(c: Start, result: Result): Start {
    c.(phase := CancellingPrompts(result))
  }

  /** A failed registration: the service, when there is one, is stopped before the mutex is freed. */
  function Fail(core: Core, c: Start): (Core, Start) {
    var service := if c.service == NoService then NoService else Stopped;
    (core.(mutex := None), Leave(c, RegisterFailed).(service := service))
  }

  /** Start `i` locks the server and finds it not draining. */
  function Lock(core: Core, i: nat): Core {
    core.(mutex := Some(i), handles := core.handles.(stopServing := Some(i), cancelPrompts := Some(i)))
  }

  function Publish(core: Core, i: nat): Core {
    core.(mutex := None, handles := core.handles.(svc := Some(i)))
  }

  predicate Enabled(core: Core, c: Start, a: StartAction) {
    match a
    case CallStart => c.phase.Uncalled?
    case LockForStart => c.phase.Locking? && core.mutex.None?
    case AddService(_) => c.phase.AddingService?
    case UnlockGate => c.phase.UnlockingGate?
    case AddPrompt(_) => c.phase.AddingPrompt?
    case AddStatus(_) => c.phase.AddingStatus?
    case Flush(_) => c.phase.Flushing?
    case GiveUpFlush => c.phase.Flushing? && c.serveDone
    case MarkReady => c.phase.Marking? && core.mutex.None?
    case ServeEnds => c.phase.Serving? && c.serveDone
    case DrainReturns => c.phase.Waiting? && core.drainer.Done?
    case CancelPrompts => c.phase.CancellingPrompts?
    case CancelServe => c.phase.CancellingServe?
    case ContextEnds => true
    case HeartbeatExits => c.heartbeats == Publishing && c.serveDone
  }

  /** What a step of Start `i` does to it and to the server; CallStart reads whether the drain is
      over before it does anything else. */
  function StartStep(core: Core, i: nat, c: Start, a: StartAction): (Core, Start)
    requires Enabled(core, c, a)
  {
    match a
    case CallStart => (core, c.(phase := if core.drainer.Done? then Returned(ServerStopped) else Locking))
    case LockForStart =>
      if core.draining then (core, Leave(c, ServerStopped))
      else (Lock(core, i), c.(phase := AddingService, entered := true))
    case AddService(ok) =>
      if ok then (core, c.(phase := UnlockingGate, service := Running)) else Fail(core, c)
    case UnlockGate => (core, c.(phase := AddingPrompt))
    case AddPrompt(ok) => if ok then (core, c.(phase := AddingStatus, prompt := true)) else Fail(core, c)
    case AddStatus(ok) =>
      if ok then (Publish(core, i), c.(phase := Flushing, registered := true, heartbeats := Publishing))
      else Fail(core, c)
    case Flush(ok) => (core, if ok then c.(phase := Marking) else c)
    case GiveUpFlush => (core, c.(phase := Serving))
    case MarkReady => (core, c.(phase := Serving))
    case ServeEnds => (Woken(core), c.(phase := Waiting))
    case DrainReturns => (core, Leave(c, Drained(core.incomplete)))
    case CancelPrompts => (core, c.(phase := CancellingServe(c.phase.result), promptDone := true))
    case CancelServe => (core, c.(phase := Returned(c.phase.result), serveDone := true))
    case ContextEnds => (core, c.(serveDone := true))
    case HeartbeatExits => (core, c.(heartbeats := Exited))
  }

  function OfStartStep(s: Server, i: nat, a: StartAction): Server
    requires i < |s.starts| && Enabled(s.core, s.starts[i], a)
  {
    var (core, c) := StartStep(s.core, i, s.starts[i], a);
    s.(core := core, starts := s.starts[i := c],
       gate := if a.UnlockGate? then s.gate.Unlocked() else s.gate,
       ready := s.ready || (a.MarkReady? && !s.core.draining))
  }

  predicate NoHeartbeat(s: Server) {
    forall i | 0 <= i < |s.starts| :: s.starts[i].heartbeats != Publishing
  }

  /** Whether runDrain can go on. A wait with a positive budget ends when the gate is idle or the
      time is up; one with none reports at once. */
  predicate DrainEnabled(s: Server, timeout: bool) {
    match s.core.drainer
    case Asleep => false
    case ClosingGate => true
    case LockingServer => s.core.mutex.None?
    case StoppingService => true
    case StoppingServe => true
    case WaitingIdle => s.gate.idle || timeout || Phases(s.budget).0 <= 0
    case Cancelling => true
    case WaitingUnwind => s.gate.idle || timeout || Phases(s.budget).1 <= 0
    case Joining => NoHeartbeat(s)
    case Done => false
  }

  /** Whether a wait of `budget` reports the gate idle; when both happened, either may be seen. */
  predicate SeesIdle(gate: GateState, budget: int, timeout: bool) {
    gate.idle && (budget <= 0 || !timeout)
  }

  function DrainCore(s: Server, timeout: bool): Core {
    match s.core.drainer
    case Asleep => s.core
    case ClosingGate => s.core.(drainer := LockingServer)
    case LockingServer => s.core.(drainer := StoppingService, draining := true, snapshot := s.core.handles)
    case StoppingService => s.core.(drainer := StoppingServe)
    case StoppingServe => s.core.(drainer := WaitingIdle)
    case WaitingIdle =>
      if SeesIdle(s.gate, Phases(s.budget).0, timeout) then s.core.(drainer := Joining)
      else s.core.(drainer := Cancelling, spent := true)
    case Cancelling => s.core.(drainer := WaitingUnwind)
    case WaitingUnwind =>
      if SeesIdle(s.gate, Phases(s.budget).1, timeout) then s.core.(drainer := Joining)
      else s.core.(drainer := Joining, incomplete := true)
    case Joining => s.core.(drainer := Done)
    case Done => s.core
  }

  /** What a step of the drain does to Start `i`: stop its service or cancel a context of it, when
      the server's handle is its own. */
  function DrainOf(core: Core, i: nat, c: Start): Start {
    match core.drainer
    case StoppingService => if core.snapshot.svc == Some(i) then c.(service := Stopped) else c
    case StoppingServe => if core.snapshot.stopServing == Some(i) then c.(serveDone := true) else c
    case Cancelling => if core.snapshot.cancelPrompts == Some(i) then c.(promptDone := true) else c
    case _ => c
  }

  function DrainStep(s: Server, timeout: bool): Server {
    s.(core := DrainCore(s, timeout),
       gate := if s.core.drainer.ClosingGate? then s.gate.Closed() else s.gate,
       starts := seq(|s.starts|, i requires 0 <= i < |s.starts| => DrainOf(s.core, i, s.starts[i])))
  }

  function Admit(s: Server, i: nat): Server {
    s.(gate := s.gate.Entered(), running := s.running + {Handler(s.nextId, i)}, nextId := s.nextId + 1)
  }

  /** The state after a step; None when it is not enabled. A prompt endpoint may still deliver a
      buffered request after its service stopped. */
  function Step(s: Server, a: Action): Option<Server> {
    match a
    case OfStart(i, act) =>
      if i < |s.starts| && Enabled(s.core, s.starts[i], act) then Some(OfStartStep(s, i, act)) else None
    case Request(i) =>
      if i < |s.starts| && s.starts[i].prompt then Some(if s.gate.Admits() then Admit(s, i) else s) else None
    case HandlerEnds(h) =>
      if h in s.running then Some(s.(running := s.running - {h}, gate := s.gate.Left())) else None
    case CallDrain => Some(s.(core := Woken(s.core)))
    case RunDrain(timeout) => if DrainEnabled(s, timeout) then Some(DrainStep(s, timeout)) else None
  }

  /** The state after a run of steps. */
  function Run(s: Server, actions: seq<Action>): Option<Server>
    decreases |actions|
  {
    if actions == [] then Some(s)
    else
      match Step(s, actions[0])
      case None => None
      case Some(next) => Run(next, actions[1..])
  }

  // ---- what every step keeps

  ghost predicate GateInv(s: Server) {
    && s.gate.inflight == |s.running|
    && (forall h <- s.running :: h.id < s.nextId)
    && (s.gate.idle <==> s.gate.closed && s.gate.inflight == 0)
    && (s.gate.closed <==> s.core.drainer.Rank() >= 2)
    && (s.core.drainer.Rank() >= 8 && !s.core.incomplete ==> s.gate.idle)
  }

  predicate Bounded(handle: Option<nat>, calls: nat) {
    handle.Some? ==> handle.value < calls
  }

  predicate CoreInv(core: Core, calls: nat) {
    && (core.draining <==> core.drainer.Rank() >= 3)
    && (core.draining ==> core.mutex == None && core.snapshot == core.handles)
    && (6 <= core.drainer.Rank() <= 7 ==> core.spent)
    && (core.spent ==> core.drainer.Rank() >= 6)
    && (core.incomplete ==> core.drainer.Rank() >= 8 && core.spent)
    && core.handles.cancelPrompts == core.handles.stopServing
    && (core.mutex.Some? ==> core.mutex == core.handles.stopServing)
    && Bounded(core.mutex, calls) && Bounded(core.handles.svc, calls) && Bounded(core.handles.stopServing, calls)
  }

  predicate Holding(p: Phase) {
    p.AddingService? || p.UnlockingGate? || p.AddingPrompt? || p.AddingStatus?
  }

  predicate Ending(p: Phase) {
    p.CancellingPrompts? || p.CancellingServe? || p.Returned?
  }

  predicate Established(p: Phase) {
    p.Flushing? || p.Marking? || p.Serving? || p.Waiting?
  }

  /** How far a Start came, by its phase and the result it leaves with. */
  predicate StartInv(c: Start) {
    && (!c.entered <==> c.phase.Uncalled? || c.phase.Locking? || (Ending(c.phase) && c.phase.result.ServerStopped?))
    && (c.registered <==> Established(c.phase) || (Ending(c.phase) && c.phase.result.Drained?))
    && (c.registered <==> c.heartbeats != NotBegun)
    && (c.service.NoService? ==> !c.registered && !c.prompt)
    && (!c.entered || c.phase.AddingService? ==> c.service.NoService?)
    && (c.service.Running? ==> c.registered || Holding(c.phase))
    && (Holding(c.phase) && !c.phase.AddingService? ==> c.service.Running?)
  }

  /** The graceful share was spent, and the drain then cancelled the prompts of Start `i`. */
  predicate CancelledByDrain(core: Core, i: nat) {
    core.spent && core.drainer.Rank() >= 7 && core.handles.cancelPrompts == Some(i)
  }

  /** How a Start stands to the server and the drain. */
  predicate LinkInv(core: Core, i: nat, c: Start) {
    && (Holding(c.phase) <==> core.mutex == Some(i))
    && (core.handles.svc == Some(i) ==> c.registered)
    && (core.handles.stopServing == Some(i) ==> c.entered)
    && (c.entered ==> core.handles.stopServing.Some?)
    && (c.registered ==> core.handles.svc.Some?)
    && (Ending(c.phase) && c.phase.result.Drained? ==>
        core.drainer.Done? && c.phase.result.incomplete == core.incomplete)
    && (c.registered ==> (c.service == Stopped <==> core.drainer.Rank() >= 4 && core.handles.svc == Some(i)))
    && (c.phase.Uncalled? || c.phase.Locking? ==> !c.promptDone)
    && (c.entered ==> (c.promptDone <==> CancelledByDrain(core, i) || c.phase.CancellingServe? || c.phase.Returned?))
    && (core.drainer.Done? ==> c.heartbeats != Publishing)
    && (core.drainer.Rank() >= 5 && core.handles.stopServing == Some(i) ==> c.serveDone)
    && (c.phase.Waiting? ==> !core.drainer.Asleep?)
    && (c.entered && c.phase.Returned? ==> c.serveDone)
  }

  ghost predicate Inv(s: Server) {
    && GateInv(s)
    && CoreInv(s.core, |s.starts|)
    && (forall i: nat | i < |s.starts| :: StartInv(s.starts[i]) && LinkInv(s.core, i, s.starts[i]))
    && (s.ready ==> s.core.handles.svc.Some?)
  }

  /** What a step of Start `i` may change of the server. */
  predicate Frames(core: Core, next: Core, i: nat) {
    && (next.mutex == core.mutex || (core.mutex in {None, Some(i)} && next.mutex in {None, Some(i)}))
    && (next.handles != core.handles ==> !core.draining)
    && next.handles.svc in {core.handles.svc, Some(i)}
    && next.handles.stopServing in {core.handles.stopServing, Some(i)}
    && next.handles.cancelPrompts in {core.handles.cancelPrompts, Some(i)}
    && next.drainer in {core.drainer, Woken(core).drainer}
    && next == core.(mutex := next.mutex, handles := next.handles, drainer := next.drainer)
  }

  lemma StepFrames(core: Core, i: nat, c: Start, a: StartAction, calls: nat)
    requires CoreInv(core, calls) && i < calls && Enabled(core, c, a)
    requires StartInv(c) && LinkInv(core, i, c)
    ensures var (next, d) := StartStep(core, i, c, a); Frames(core, next, i) && CoreInv(next, calls)
  {
  }

  lemma OwnWhileHolding(core: Core, i: nat, c: Start, a: StartAction)
    requires Holding(c.phase) && Enabled(core, c, a) && StartInv(c)
    ensures StartInv(StartStep(core, i, c, a).1)
  {
  }

  lemma OwnOtherwise(core: Core, i: nat, c: Start, a: StartAction)
    requires !Holding(c.phase) && Enabled(core, c, a) && StartInv(c)
    ensures StartInv(StartStep(core, i, c, a).1)
  {
  }

  lemma OwnStart(core: Core, i: nat, c: Start, a: StartAction)
    requires Enabled(core, c, a) && StartInv(c)
    ensures StartInv(StartStep(core, i, c, a).1)
  {
    hide StartInv, StartStep, Enabled;
    if Holding(c.phase) {
      OwnWhileHolding(core, i, c, a);
    } else {
      OwnOtherwise(core, i, c, a);
    }
  }

  lemma OwnLinkHolding(core: Core, i: nat, c: Start, a: StartAction, calls: nat)
    requires Holding(c.phase)
    requires CoreInv(core, calls) && Enabled(core, c, a) && StartInv(c) && LinkInv(core, i, c)
    ensures var (next, d) := StartStep(core, i, c, a); LinkInv(next, i, d)
  {
  }

  lemma OwnLinkOtherwise(core: Core, i: nat, c: Start, a: StartAction, calls: nat)
    requires !Holding(c.phase)
    requires CoreInv(core, calls) && Enabled(core, c, a) && StartInv(c) && LinkInv(core, i, c)
    ensures var (next, d) := StartStep(core, i, c, a); LinkInv(next, i, d)
  {
  }

  lemma OwnLink(core: Core, i: nat, c: Start, a: StartAction, calls: nat)
    requires CoreInv(core, calls) && Enabled(core, c, a) && StartInv(c) && LinkInv(core, i, c)
    ensures var (next, d) := StartStep(core, i, c, a); LinkInv(next, i, d)
  {
    hide CoreInv, StartInv, LinkInv, StartStep, Enabled;
    if Holding(c.phase) {
      OwnLinkHolding(core, i, c, a, calls);
    } else {
      OwnLinkOtherwise(core, i, c, a, calls);
    }
  }

  lemma OtherLink(core: Core, next: Core, i: nat, j: nat, d: Start, calls: nat)
    requires CoreInv(core, calls) && Frames(core, next, i) && i != j && LinkInv(core, j, d)
    ensures LinkInv(next, j, d)
  {
  }

  lemma DrainKeepsStart(s: Server, timeout: bool, i: nat)
    requires CoreInv(s.core, |s.starts|) && DrainEnabled(s, timeout) && i < |s.starts|
    requires StartInv(s.starts[i]) && LinkInv(s.core, i, s.starts[i])
    ensures var t := DrainStep(s, timeout); StartInv(t.starts[i]) && LinkInv(t.core, i, t.starts[i])
  {
  }

  lemma DrainKeepsServer(s: Server, timeout: bool)
    requires GateInv(s) && CoreInv(s.core, |s.starts|) && DrainEnabled(s, timeout)
    ensures var t := DrainStep(s, timeout); GateInv(t) && CoreInv(t.core, |t.starts|)
  {
  }

  lemma DrainKeeps(s: Server, timeout: bool)
    requires Inv(s) && DrainEnabled(s, timeout)
    ensures Inv(DrainStep(s, timeout))
  {
    DrainKeepsServer(s, timeout);
    hide GateInv, CoreInv, StartInv, LinkInv, DrainCore, DrainOf;
    forall i: nat | i < |s.starts|
      ensures StartInv(DrainStep(s, timeout).starts[i])
      ensures LinkInv(DrainStep(s, timeout).core, i, DrainStep(s, timeout).starts[i])
    {
      DrainKeepsStart(s, timeout, i);
    }
    assert DrainCore(s, timeout).handles == s.core.handles by { DrainKeepsHandles(s, timeout); }
  }

  lemma DrainKeepsHandles(s: Server, timeout: bool)
    ensures DrainCore(s, timeout).handles == s.core.handles
  {
  }

  lemma OfStartKeeps(s: Server, i: nat, a: StartAction)
    requires Inv(s) && i < |s.starts| && Enabled(s.core, s.starts[i], a)
    ensures Inv(OfStartStep(s, i, a))
  {
    var c := s.starts[i];
    var (next, d) := StartStep(s.core, i, c, a);
    StepFrames(s.core, i, c, a, |s.starts|);
    OwnStart(s.core, i, c, a);
    OwnLink(s.core, i, c, a, |s.starts|);
    assert a.MarkReady? ==> s.core.handles.svc.Some?;
    hide CoreInv, StartInv, LinkInv, StartStep, Enabled;
    var t := OfStartStep(s, i, a);
    forall j: nat | j < |t.starts| && j != i
      ensures StartInv(t.starts[j]) && LinkInv(t.core, j, t.starts[j])
    {
      OtherLink(s.core, next, i, j, s.starts[j], |s.starts|);
    }
  }

  lemma StepKeeps(s: Server, a: Action)
    requires Inv(s) && Step(s, a).Some?
    ensures Inv(Step(s, a).value)
  {
    hide CoreInv, StartInv, LinkInv, OfStartStep, DrainStep;
    match a {
      case OfStart(i, act) => OfStartKeeps(s, i, act);
      case Request(i) =>
      case HandlerEnds(h) =>
      case CallDrain =>
        forall j: nat | j < |s.starts|
          ensures LinkInv(Woken(s.core), j, s.starts[j])
        {
          WokenLink(s.core, j, s.starts[j], |s.starts|);
        }
        WokenCore(s.core, |s.starts|);
      case RunDrain(timeout) => DrainKeeps(s, timeout);
    }
  }

  lemma WokenLink(core: Core, j: nat, d: Start, calls: nat)
    requires CoreInv(core, calls) && LinkInv(core, j, d)
    ensures LinkInv(Woken(core), j, d)
  {
  }

  lemma WokenCore(core: Core, calls: nat)
    requires CoreInv(core, calls)
    ensures CoreInv(Woken(core), calls)
  {
  }

  lemma {:induction false} RunKeeps(s: Server, actions: seq<Action>)
    requires Inv(s) && Run(s, actions).Some?
    ensures Inv(Run(s, actions).value)
    decreases |actions|
  {
    hide Step, Inv;
    if actions != [] {
      StepKeeps(s, actions[0]);
      RunKeeps(Step(s, actions[0]).value, actions[1..]);
    }
  }

  /** `t` can follow `s`, by some interleaving of steps. */
  ghost predicate Leads(s: Server, t: Server) {
    exists actions :: Run(s, actions) == Some(t)
  }

  /** `s` can follow from a fresh server with some number of Start calls. */
  ghost predicate Reachable(s: Server) {
    exists calls: nat :: Leads(NewServer(calls, s.budget), s)
  }

  lemma ReachableInv(s: Server)
    requires Reachable(s)
    ensures Inv(s)
  {
    var calls: nat :| Leads(NewServer(calls, s.budget), s);
    var actions :| Run(NewServer(calls, s.budget), actions) == Some(s);
    RunKeeps(NewServer(calls, s.budget), actions);
  }

  // ---- what the drain promises

  /** What holds of every later state: a drain does not go back, and once it has the server's
      mutex no Start registers and nothing marks the server ready. */
  predicate Later(s: Server, t: Server) {
    && t.core.drainer.Rank() >= s.core.drainer.Rank()
    && |t.starts| == |s.starts|
    && (s.core.drainer.Rank() >= 8 ==> t.core.incomplete == s.core.incomplete)
    && (s.gate.closed ==> t.gate.closed && t.running <= s.running)
    && (s.core.draining ==> t.core.draining && t.ready == s.ready && t.core.handles == s.core.handles)
    && (s.core.draining ==> forall i | 0 <= i < |s.starts| ::
          t.starts[i].registered == s.starts[i].registered && t.starts[i].entered == s.starts[i].entered)
  }

  lemma StepGoesOn(s: Server, a: Action)
    requires Inv(s) && Step(s, a).Some?
    ensures Later(s, Step(s, a).value)
  {
    match a {
      case OfStart(i, act) =>
        assert StartInv(s.starts[i]) && LinkInv(s.core, i, s.starts[i]);
        StartGoesOn(s.core, i, s.starts[i], act, |s.starts|);
        hide StartStep, Enabled, CoreInv, StartInv, LinkInv;
      case Request(i) =>
      case HandlerEnds(h) =>
      case CallDrain =>
      case RunDrain(timeout) =>
        DrainKeepsLater(s, timeout);
        hide Enabled, StartStep, LinkInv, StartInv, GateInv, CoreInv, DrainStep, DrainEnabled, Later;
    }
  }

  lemma DrainKeepsLater(s: Server, timeout: bool)
    requires GateInv(s) && CoreInv(s.core, |s.starts|) && DrainEnabled(s, timeout)
    ensures Later(s, DrainStep(s, timeout))
  {
  }

  lemma StartGoesOn(core: Core, i: nat, c: Start, a: StartAction, calls: nat)
    requires CoreInv(core, calls) && Enabled(core, c, a) && StartInv(c) && LinkInv(core, i, c)
    ensures var (next, d) := StartStep(core, i, c, a);
            && next.drainer.Rank() >= core.drainer.Rank()
            && next.incomplete == core.incomplete
            && (core.draining ==>
                  && next.draining && next.handles == core.handles
                  && d.registered == c.registered && d.entered == c.entered)
  {
  }

  lemma {:induction false} RunGoesOn(s: Server, actions: seq<Action>)
    requires Inv(s) && Run(s, actions).Some?
    ensures Later(s, Run(s, actions).value)
    decreases |actions|
  {
    hide Step, Inv;
    if actions != [] {
      StepGoesOn(s, actions[0]);
      StepKeeps(s, actions[0]);
      RunGoesOn(Step(s, actions[0]).value, actions[1..]);
    }
  }

  lemma LeadsLater(s: Server, t: Server)
    requires Inv(s) && Leads(s, t)
    ensures Inv(t) && Later(s, t)
  {
    var actions :| Run(s, actions) == Some(t);
    RunKeeps(s, actions);
    RunGoesOn(s, actions);
  }

  /** A drain that ended without an error: no admitted handler is running and none is admitted
      again, whatever happens next. A Start that returns without an error returned after such a drain. */
  lemma DrainedMeansQuiet(s: Server, t: Server)
    requires Reachable(s) && Leads(s, t)
    requires || (s.core.drainer.Done? && !s.core.incomplete)
             || (exists i | 0 <= i < |s.starts| :: s.starts[i].phase == Returned(Drained(false)))
    ensures t.running == {} && !t.gate.Admits()
  {
    ReachableInv(s);
    LeadsLater(s, t);
    if i :| 0 <= i < |s.starts| && s.starts[i].phase == Returned(Drained(false)) {
      assert LinkInv(s.core, i, s.starts[i]);
    }
  }

  /** The first wait ends once no handler is running or its time is up; it has none when the budget is
      not positive. The drain then goes on to cancel exactly when a handler is running, or the time was
      up and seen first. */
  lemma GracefulWaitEnds(s: Server, timeout: bool)
    requires Reachable(s) && s.core.drainer.WaitingIdle?
    ensures Step(s, RunDrain(timeout)).Some? <==> s.running == {} || timeout || s.budget <= 0
    ensures Step(s, RunDrain(timeout)).Some? ==>
              var core := Step(s, RunDrain(timeout)).value.core;
              && (core.drainer.Cancelling? <==> s.running != {} || (timeout && s.budget > 0))
              && (!core.drainer.Cancelling? ==> core.drainer.Joining? && !core.incomplete)
  {
    ReachableInv(s);
    NoneRunning(s);
  }

  /** A Start that began to register leaves neither of its contexts behind. */
  lemma ReturnEndsContexts(s: Server, i: nat)
    requires Reachable(s) && i < |s.starts| && s.starts[i].entered && s.starts[i].phase.Returned?
    ensures s.starts[i].serveDone && s.starts[i].promptDone
  {
    ReachableInv(s);
    assert LinkInv(s.core, i, s.starts[i]);
  }

  lemma NoneRunning(s: Server)
    requires GateInv(s)
    ensures s.gate.inflight == 0 <==> s.running == {}
  {
  }

  /** The second one ends in the same way, and the drain then reports handlers still running exactly
      when there are some, or the time was up and seen first. */
  lemma UnwindWaitEnds(s: Server, timeout: bool)
    requires Reachable(s) && s.core.drainer.WaitingUnwind?
    ensures Step(s, RunDrain(timeout)).Some? <==> s.running == {} || timeout || 0 < s.budget < GRACE_GRANULARITY
    ensures Step(s, RunDrain(timeout)).Some? ==>
              var core := Step(s, RunDrain(timeout)).value.core;
              && core.drainer.Joining?
              && (core.incomplete <==>
                    s.running != {} || (timeout && (s.budget <= 0 || s.budget >= GRACE_GRANULARITY)))
  {
    ReachableInv(s);
    NoneRunning(s);
  }

  /** A drain that cancelled succeeds when every handler ended before its last wait timed out: it goes
      on without an error in every run, and by the server's own steps it ends. */
  lemma UnwoundInTime(s: Server) returns (t: Server)
    requires Reachable(s) && s.core.drainer.WaitingUnwind? && s.running == {}
    ensures Step(s, RunDrain(false)) == Some(t)
    ensures forall u | Leads(t, u) :: !u.core.incomplete
    ensures AllStop(s) ==> exists u :: Leads(t, u) && u.core.drainer.Done? && !u.core.incomplete
  {
    ReachableInv(s);
    NoneRunning(s);
    t := Step(s, RunDrain(false)).value;
    UnwindWaitEnds(s, false);
    StepKeeps(s, RunDrain(false));
    hide Inv, Later, Step;
    forall u | Leads(t, u)
      ensures !u.core.incomplete
    {
      LeadsLater(t, u);
      LaterReports(t, u);
    }
    if AllStop(s) {
      UnwindKeepsStops(s, t);
      var actions := DrainEnds(t);
      assert Leads(t, Run(t, actions).value);
    }
  }

  lemma LaterReports(s: Server, t: Server)
    requires Later(s, t) && s.core.drainer.Rank() >= 8
    ensures t.core.incomplete == s.core.incomplete
  {
  }

  lemma UnwindKeepsStops(s: Server, t: Server)
    requires s.core.drainer.WaitingUnwind? && Step(s, RunDrain(false)) == Some(t) && AllStop(s)
    ensures AllStop(t)
  {
    forall i: nat | i < |t.starts| && t.starts[i].heartbeats.Publishing?
      ensures Stops(t, i)
    {
      assert t.starts[i] == s.starts[i] && Stops(s, i);
    }
  }

  /** A Start whose registration and flush succeed, with no drain begun, makes the server ready and
      has its prompts admitted. */
  lemma OneStartGetsReady(budget: int) returns (s: Server)
    ensures Reachable(s) && s.budget == budget && s.core.drainer.Asleep? && |s.starts| == 1
    ensures s.ready && s.starts[0].phase.Serving? && s.starts[0].service.Running? && s.gate.Admits()
  {
    hide Leads;
    s := NewServer(1, budget);
    Stays(s);
    s := Opened(1, s, 0);
    s := GoStart(1, s, 0, AddStatus(true));
    s := GoStart(1, s, 0, Flush(true));
    s := GoStart(1, s, 0, MarkReady);
    IsReachable(1, s);
  }

  /** Once draining, no Start registers and the server is not marked ready. */
  lemma NeverReadyAfterDraining(s: Server, t: Server)
    requires Reachable(s) && Leads(s, t) && s.core.draining
    ensures t.ready == s.ready
    ensures |t.starts| == |s.starts|
    ensures forall i | 0 <= i < |s.starts| :: t.starts[i].registered == s.starts[i].registered
  {
    ReachableInv(s);
    LeadsLater(s, t);
  }

  /** A Start that has not begun to register by then never does, and returns no other result than that
      the server stopped; called after the drain is over, it returns that at once. */
  lemma StoppedServerRefuses(s: Server, t: Server, i: nat)
    requires Reachable(s) && Leads(s, t) && s.core.draining && i < |s.starts| && !s.starts[i].entered
    ensures |t.starts| == |s.starts| && !t.starts[i].entered && t.starts[i].service.NoService?
    ensures Ending(t.starts[i].phase) ==> t.starts[i].phase.result.ServerStopped?
    ensures s.core.drainer.Done? && s.starts[i].phase.Uncalled? ==>
              Step(s, OfStart(i, CallStart)).value.starts[i].phase == Returned(ServerStopped)
  {
    ReachableInv(s);
    LeadsLater(s, t);
    assert StartInv(t.starts[i]);
    hide Leads, Inv, Later, StartInv;
  }

  predicate EndsContext(a: Action) {
    a.OfStart? && a.a.ContextEnds?
  }

  predicate NoneMarking(s: Server) {
    !s.ready && forall i | 0 <= i < |s.starts| :: !s.starts[i].phase.Marking?
  }

  predicate Acknowledges(a: Action) {
    a.OfStart? && a.a == Flush(true)
  }

  lemma {:induction false} NotReadyBefore(s: Server, actions: seq<Action>)
    requires NoneMarking(s) && Run(s, actions).Some?
    requires forall a <- actions :: !Acknowledges(a)
    ensures NoneMarking(Run(s, actions).value)
    decreases |actions|
  {
    if actions != [] {
      assert actions[0] in actions;
      NotMarkedBy(s, actions[0]);
      NotReadyBefore(Step(s, actions[0]).value, actions[1..]);
    }
  }

  lemma NotMarkedBy(s: Server, a: Action)
    requires NoneMarking(s) && Step(s, a).Some? && !Acknowledges(a)
    ensures NoneMarking(Step(s, a).value)
  {
    match a {
      case OfStart(i, act) =>
        NotMarking(s.core, i, s.starts[i], act);
        hide StartStep, Enabled;
      case RunDrain(timeout) => hide DrainCore, DrainEnabled, Enabled, StartStep;
      case _ => hide Enabled, StartStep, DrainStep, DrainEnabled;
    }
  }

  lemma NotMarking(core: Core, i: nat, c: Start, a: StartAction)
    requires Enabled(core, c, a) && !c.phase.Marking? && a != Flush(true)
    ensures !a.MarkReady? && !StartStep(core, i, c, a).1.phase.Marking?
  {
  }

  /** The server is ready only after the broker has acknowledged the registration of a Start. */
  lemma ReadyIsAcknowledged(calls: nat, budget: int, actions: seq<Action>)
    requires Run(NewServer(calls, budget), actions).Some?
    requires Run(NewServer(calls, budget), actions).value.ready
    ensures exists a <- actions :: Acknowledges(a)
  {
    if forall a <- actions :: !Acknowledges(a) {
      NotReadyBefore(NewServer(calls, budget), actions);
    }
  }

  /** The server has announced itself wherever a Start serves that nothing ended. */
  predicate Announced(s: Server) {
    forall i | 0 <= i < |s.starts| ::
      s.starts[i].phase.Serving? && !s.starts[i].serveDone && !s.core.draining ==> s.ready
  }

  /** No drain has begun, and only a Start that is over has its context ended. */
  predicate Undisturbed(s: Server) {
    s.core.drainer.Asleep? && forall i | 0 <= i < |s.starts| :: s.starts[i].serveDone ==> Ending(s.starts[i].phase)
  }

  lemma StepKeepsAnnounced(s: Server, a: Action)
    requires Announced(s) && Step(s, a).Some?
    ensures Announced(Step(s, a).value)
  {
    match a {
      case OfStart(i, act) =>
        StartAnnounces(s.core, i, s.starts[i], act);
        hide StartStep, Enabled;
      case RunDrain(timeout) => hide DrainEnabled, Enabled, StartStep;
      case _ => hide Enabled, StartStep, DrainStep, DrainEnabled;
    }
  }

  lemma StartAnnounces(core: Core, i: nat, c: Start, a: StartAction)
    requires Enabled(core, c, a)
    ensures var (next, d) := StartStep(core, i, c, a);
            && next.draining == core.draining && (c.serveDone ==> d.serveDone)
            && (d.phase.Serving? && !d.serveDone ==> a.MarkReady? || c.phase.Serving?)
  {
  }

  lemma StepKeepsUndisturbed(s: Server, a: Action)
    requires Undisturbed(s) && Step(s, a).Some? && !a.CallDrain? && !EndsContext(a)
    ensures Undisturbed(Step(s, a).value)
  {
    match a {
      case OfStart(i, act) =>
        StartDisturbsNothing(s.core, i, s.starts[i], act);
        hide StartStep, Enabled;
      case _ => hide Enabled, StartStep, DrainStep;
    }
  }

  lemma StartDisturbsNothing(core: Core, i: nat, c: Start, a: StartAction)
    requires Enabled(core, c, a) && !a.ContextEnds? && core.drainer.Asleep? && (c.serveDone ==> Ending(c.phase))
    ensures var (next, d) := StartStep(core, i, c, a); next.drainer.Asleep? && (d.serveDone ==> Ending(d.phase))
  {
  }

  lemma {:induction false} RunKeepsAnnounced(s: Server, actions: seq<Action>)
    requires Announced(s) && Run(s, actions).Some?
    ensures Announced(Run(s, actions).value)
    decreases |actions|
  {
    hide Step, Announced;
    if actions != [] {
      StepKeepsAnnounced(s, actions[0]);
      RunKeepsAnnounced(Step(s, actions[0]).value, actions[1..]);
    }
  }

  /** While nothing ends its context and no drain has the mutex, a Start that serves has made the
      server ready. */
  lemma ServingIsReady(s: Server, i: nat)
    requires Reachable(s) && i < |s.starts|
    ensures s.starts[i].phase.Serving? && !s.starts[i].serveDone && !s.core.draining ==> s.ready
  {
    var calls: nat :| Leads(NewServer(calls, s.budget), s);
    var actions :| Run(NewServer(calls, s.budget), actions) == Some(s);
    RunKeepsAnnounced(NewServer(calls, s.budget), actions);
  }

  lemma {:induction false} UndisturbedBefore(s: Server, actions: seq<Action>)
    requires Undisturbed(s) && Run(s, actions).Some?
    requires forall a <- actions :: !a.CallDrain? && !EndsContext(a)
    ensures Undisturbed(Run(s, actions).value)
    decreases |actions|
  {
    hide Step, Undisturbed;
    if actions != [] {
      assert actions[0] in actions;
      StepKeepsUndisturbed(s, actions[0]);
      UndisturbedBefore(Step(s, actions[0]).value, actions[1..]);
    }
  }

  /** A server drains only when Drain is called or the context of a Start has ended. */
  lemma DrainHasACause(calls: nat, budget: int, actions: seq<Action>)
    requires Run(NewServer(calls, budget), actions).Some?
    requires !Run(NewServer(calls, budget), actions).value.core.drainer.Asleep?
    ensures exists a <- actions :: a.CallDrain? || EndsContext(a)
  {
    if forall a <- actions :: !a.CallDrain? && !EndsContext(a) {
      UndisturbedBefore(NewServer(calls, budget), actions);
    }
  }

  /** A drain leaves no service running exactly when at most one Start completed its registration:
      a later one overwrites the server's only handle. */
  lemma EveryServiceStoppedExactly(s: Server)
    requires Reachable(s) && s.core.drainer.Done?
    ensures (forall i | 0 <= i < |s.starts| :: !s.starts[i].service.Running?) <==>
            (forall i, j | 0 <= i < j < |s.starts| :: !(s.starts[i].registered && s.starts[j].registered))
  {
    ReachableInv(s);
    forall i: nat | i < |s.starts|
      ensures s.starts[i].service.Running? <==> s.starts[i].registered && s.core.handles.svc != Some(i)
    {
      assert StartInv(s.starts[i]) && LinkInv(s.core, i, s.starts[i]);
    }
    if s.core.handles.svc.Some? {
      var k := s.core.handles.svc.value;
      assert StartInv(s.starts[k]) && LinkInv(s.core, k, s.starts[k]);
      assert forall i | 0 <= i < |s.starts| && i != k ::
        s.starts[i].registered ==> (i < k ==> s.starts[i].registered && s.starts[k].registered)
                                   && (k < i ==> s.starts[k].registered && s.starts[i].registered);
    }
  }

  /** Exactly when the context that handlers run on has ended: the graceful share of the budget was
      spent and the drain cancelled it, or the Start that owns it is returning. Before the drain
      spends its share or is over, exactly when that Start failed to register. */
  lemma PromptsCancelledExactly(s: Server, i: nat)
    requires Reachable(s) && i < |s.starts| && s.starts[i].prompt
    ensures var c := s.starts[i];
            && (c.promptDone <==> CancelledByDrain(s.core, i) || c.phase.CancellingServe? || c.phase.Returned?)
            && (!s.core.spent && !s.core.drainer.Done? ==>
                  (c.promptDone <==>
                     (c.phase.CancellingServe? || c.phase.Returned?) && c.phase.result.RegisterFailed?))
  {
    ReachableInv(s);
    assert StartInv(s.starts[i]) && LinkInv(s.core, i, s.starts[i]);
  }

  lemma LeadsTrans(s: Server, t: Server, a: Action)
    requires Leads(s, t) && Step(t, a).Some?
    ensures Leads(s, Step(t, a).value)
  {
    var actions :| Run(s, actions) == Some(t);
    RunAppend(s, actions, a);
    assert Run(s, actions + [a]) == Step(t, a);
  }

  lemma {:induction false} RunAppend(s: Server, actions: seq<Action>, a: Action)
    requires Run(s, actions).Some?
    ensures Run(s, actions + [a]) == Step(Run(s, actions).value, a)
    decreases |actions|
  {
    hide Step;
    if actions == [] {
      assert ([] + [a])[1..] == [];
    } else {
      RunAppend(Step(s, actions[0]).value, actions[1..], a);
      assert (actions + [a])[1..] == actions[1..] + [a];
    }
  }

  lemma Go(calls: nat, s: Server, a: Action) returns (t: Server)
    requires Leads(NewServer(calls, s.budget), s) && Step(s, a).Some?
    ensures t == Step(s, a).value && Leads(NewServer(calls, t.budget), t)
  {
    t := Step(s, a).value;
    LeadsTrans(NewServer(calls, s.budget), s, a);
  }

  lemma GoStart(calls: nat, s: Server, i: nat, a: StartAction) returns (t: Server)
    requires Leads(NewServer(calls, s.budget), s) && i < |s.starts| && Enabled(s.core, s.starts[i], a)
    ensures Leads(NewServer(calls, t.budget), t)
    ensures t == s.(core := StartStep(s.core, i, s.starts[i], a).0,
                    starts := s.starts[i := StartStep(s.core, i, s.starts[i], a).1],
                    gate := if a.UnlockGate? then s.gate.Unlocked() else s.gate,
                    ready := s.ready || (a.MarkReady? && !s.core.draining))
  {
    t := Go(calls, s, OfStart(i, a));
  }

  /** A Start up to its prompt endpoint, without being interrupted. */
  lemma Opened(calls: nat, s: Server, i: nat) returns (t: Server)
    requires Leads(NewServer(calls, s.budget), s) && i < |s.starts| && s.starts[i] == UNCALLED
    requires s.core.mutex.None? && s.core.drainer.Asleep? && !s.core.draining && !s.gate.closed
    ensures Leads(NewServer(calls, t.budget), t)
    ensures t == s.(core := Lock(s.core, i), gate := s.gate.(open := true),
                    starts := s.starts[i := UNCALLED.(phase := AddingStatus, service := Running, prompt := true,
                                                     entered := true)])
  {
    hide Leads;
    t := GoStart(calls, s, i, CallStart);
    t := GoStart(calls, t, i, LockForStart);
    t := GoStart(calls, t, i, AddService(true));
    t := GoStart(calls, t, i, UnlockGate);
    t := GoStart(calls, t, i, AddPrompt(true));
  }

  /** The last case happens: when the second endpoint cannot be added, a prompt the first one has
      admitted loses its context, with no drain begun. */
  lemma FailedStartCancelsPrompt(budget: int) returns (s: Server)
    ensures Reachable(s) && s.budget == budget && s.core.drainer.Asleep? && |s.starts| == 1
    ensures s.running == {Handler(0, 0)} && s.starts[0].prompt && s.starts[0].promptDone
  {
    var s0 := NewServer(1, budget);
    assert Run(s0, []) == Some(s0);
    var s1 := Opened(1, s0, 0);
    var s2 := Go(1, s1, Request(0));
    assert s2 == Admit(s1, 0);
    var s3 := GoStart(1, s2, 0, AddStatus(false));
    s := GoStart(1, s3, 0, CancelPrompts);
  }

  /** Two Starts that both register, then a drain: it ends without an error, and the first service
      is never stopped. */
  lemma SecondStartLeavesServiceRunning() returns (s: Server)
    ensures Reachable(s) && s.core.drainer.Done? && !s.core.incomplete
    ensures |s.starts| == 2 && s.starts[0].service.Running? && s.starts[0].registered
  {
    hide Leads, Step, StartStep, Enabled;
    s := JoiningBoth();
    var second := s.starts[1].(heartbeats := Exited, serveDone := true);
    var first := s.starts[0].(heartbeats := Exited, serveDone := true);
    s := HeartbeatsEnd(s, 1);
    s := HeartbeatsEnd(s, 0);
    assert s.starts == [first, second];
    s := Joined(s);
  }

  /** The context of a Start ends, if it has not, and then its heartbeats. */
  lemma HeartbeatsEnd(s: Server, i: nat) returns (t: Server)
    requires Leads(NewServer(2, s.budget), s) && i < |s.starts| && s.starts[i].heartbeats.Publishing?
    ensures Leads(NewServer(2, t.budget), t)
    ensures t == s.(starts := s.starts[i := s.starts[i].(heartbeats := Exited, serveDone := true)])
  {
    t := GoStart(2, s, i, ContextEnds);
    t := GoStart(2, t, i, HeartbeatExits);
    assert t.starts == s.starts[i := s.starts[i].(heartbeats := Exited, serveDone := true)];
  }

  lemma Joined(s: Server) returns (t: Server)
    requires Leads(NewServer(2, s.budget), s) && s.core.drainer.Joining? && NoHeartbeat(s)
    ensures Leads(NewServer(2, t.budget), t)
    ensures t == s.(core := s.core.(drainer := Done))
  {
    t := Go(2, s, RunDrain(false));
    assert t.starts == s.starts;
  }

  /** Both Starts registered, and the drain waiting for their heartbeats. */
  lemma JoiningBoth() returns (s: Server)
    ensures Leads(NewServer(2, 0), s) && s.budget == 0 && |s.starts| == 2
    ensures s.core.drainer.Joining? && !s.core.incomplete
    ensures forall i | 0 <= i < 2 :: s.starts[i].registered && s.starts[i].heartbeats.Publishing?
    ensures s.starts[0].service.Running? && !s.starts[0].serveDone && s.core.handles.stopServing == Some(1)
  {
    hide Leads;
    s := NewServer(2, 0);
    Stays(s);
    var r := UNCALLED.(phase := Flushing, service := Running, prompt := true, entered := true,
                       registered := true, heartbeats := Publishing);
    s := Opened(2, s, 0);
    s := GoStart(2, s, 0, AddStatus(true));
    assert s.starts == [r, UNCALLED];
    s := Opened(2, s, 1);
    s := GoStart(2, s, 1, AddStatus(true));
    assert s.starts == [r, r];
    s := Drains(s);
  }

  lemma Stays(s: Server)
    ensures Leads(s, s)
  {
    assert Run(s, []) == Some(s);
  }

  /** The drain of an idle server, up to where it waits for the heartbeats. */
  lemma Drains(s: Server) returns (t: Server)
    requires Leads(NewServer(2, s.budget), s) && s.core.drainer.Asleep? && s.core.mutex.None?
    requires s.core.handles.svc != Some(0) && s.core.handles.stopServing != Some(0)
    requires s.gate.inflight == 0 && |s.starts| == 2
    ensures Leads(NewServer(2, t.budget), t) && t.budget == s.budget && |t.starts| == 2
    ensures t.core.drainer.Joining? && t.core.incomplete == s.core.incomplete && t.core.handles == s.core.handles
    ensures t.starts[0] == s.starts[0]
    ensures t.starts[1] == s.starts[1].(service := t.starts[1].service, serveDone := t.starts[1].serveDone)
  {
    hide Leads;
    t := DrainLocks(s);
    assert t.gate.idle;
    t := GoDrain(t);
    t := GoDrain(t);
    t := GoDrain(t);
  }

  lemma DrainLocks(s: Server) returns (t: Server)
    requires Leads(NewServer(2, s.budget), s) && s.core.drainer.Asleep? && s.core.mutex.None? && |s.starts| == 2
    ensures Leads(NewServer(2, t.budget), t)
    ensures t == s.(gate := s.gate.Closed(),
                    core := s.core.(drainer := StoppingService, draining := true, snapshot := s.core.handles))
    ensures s.gate.inflight == 0 ==> t.gate.idle
  {
    hide Leads;
    t := Go(2, s, CallDrain);
    hide Step;
    t := GoDrain(t);
    assert t.starts == s.starts;
    t := GoDrain(t);
    assert t.starts == s.starts;
  }

  lemma GoDrain(s: Server) returns (t: Server)
    requires Leads(NewServer(2, s.budget), s) && DrainEnabled(s, false) && |s.starts| == 2
    ensures Leads(NewServer(2, t.budget), t)
    ensures t == s.(core := DrainCore(s, false),
                    gate := if s.core.drainer.ClosingGate? then s.gate.Closed() else s.gate,
                    starts := [DrainOf(s.core, 0, s.starts[0]), DrainOf(s.core, 1, s.starts[1])])
  {
    t := Go(2, s, RunDrain(false));
  }

  // ---- whether a drain can finish

  /** Every Start that still publishes heartbeats stops: its context is done, or the server's handle
      is its own, so the drain cancels it. */
  predicate AllStop(s: Server) {
    forall i: nat | i < |s.starts| && s.starts[i].heartbeats.Publishing? :: Stops(s, i)
  }

  predicate Stops(s: Server, i: nat)
    requires i < |s.starts|
  {
    s.starts[i].serveDone || s.core.handles.stopServing == Some(i)
  }

  /** A step of the server itself: no request comes, no handler ends, and no Start's caller
      cancels it. */
  predicate Inside(a: Action) {
    !a.Request? && !a.HandlerEnds? && !EndsContext(a)
  }

  /** How far the holder of the mutex is from freeing it. */
  function Hold(s: Server): nat {
    if s.core.mutex.None? || s.core.mutex.value >= |s.starts| then 0
    else
      match s.starts[s.core.mutex.value].phase
      case AddingService => 4
      case UnlockingGate => 3
      case AddingPrompt => 2
      case AddingStatus => 1
      case _ => 0
  }

  function PublishingSet(s: Server): set<nat> {
    set i: nat | i < |s.starts| && s.starts[i].heartbeats.Publishing?
  }

  /** The next step of the Start that holds the mutex. */
  function NextOf(phase: Phase): StartAction
    requires Holding(phase)
  {
    match phase
    case AddingService => AddService(true)
    case UnlockingGate => UnlockGate
    case AddingPrompt => AddPrompt(true)
    case AddingStatus => AddStatus(true)
  }

  predicate IsNearer(s: Server, t: Server) {
    && t.core.drainer.Rank() >= s.core.drainer.Rank()
    && (t.core.drainer.Rank() == s.core.drainer.Rank() ==>
        Hold(t) < Hold(s) || (Hold(t) == Hold(s) && PublishingSet(t) < PublishingSet(s)))
  }

  lemma NearerToFree(s: Server) returns (a: Action)
    requires Inv(s) && AllStop(s) && s.core.mutex.Some?
    ensures Inside(a) && a.OfStart? && Step(s, a).Some?
    ensures AllStop(Step(s, a).value) && IsNearer(s, Step(s, a).value)
  {
    hide CoreInv, NoHeartbeat, PublishingSet;
    CoreBounds(s.core, |s.starts|);
    var i := s.core.mutex.value;
    assert LinkInv(s.core, i, s.starts[i]);
    a := OfStart(i, NextOf(s.starts[i].phase));
    var t := Step(s, a).value;
    assert t.core.handles.stopServing == Some(i);
    forall j: nat | j < |t.starts| && t.starts[j].heartbeats.Publishing?
      ensures Stops(t, j)
    {
      assert j != i ==> Stops(s, j);
    }
  }

  lemma CoreBounds(core: Core, calls: nat)
    requires CoreInv(core, calls)
    ensures Bounded(core.mutex, calls) && Bounded(core.handles.stopServing, calls)
    ensures core.drainer.Joining? ==> core.mutex.None?
    ensures core.mutex.Some? ==> core.mutex == core.handles.stopServing
  {
  }

  lemma NearerToJoin(s: Server) returns (a: Action)
    requires Inv(s) && AllStop(s) && s.core.drainer.Joining? && !NoHeartbeat(s)
    ensures Inside(a) && a.OfStart? && Step(s, a).Some?
    ensures AllStop(Step(s, a).value) && IsNearer(s, Step(s, a).value)
  {
    hide CoreInv;
    var i: nat :| i < |s.starts| && s.starts[i].heartbeats.Publishing?;
    assert LinkInv(s.core, i, s.starts[i]) && Stops(s, i);
    CoreBounds(s.core, |s.starts|);
    a := OfStart(i, HeartbeatExits);
    var t := Step(s, a).value;
    assert PublishingSet(t) == PublishingSet(s) - {i} && i in PublishingSet(s);
    forall j: nat | j < |t.starts| && t.starts[j].heartbeats.Publishing?
      ensures Stops(t, j)
    {
      assert Stops(s, j);
    }
  }

  lemma NearerByCall(s: Server)
    requires AllStop(s) && s.core.drainer.Asleep?
    ensures var t := Step(s, CallDrain).value; AllStop(t) && IsNearer(s, t)
  {
    hide Hold, PublishingSet;
    forall j: nat | j < |s.starts| && s.starts[j].heartbeats.Publishing?
      ensures Stops(Step(s, CallDrain).value, j)
    {
      assert Stops(s, j);
    }
  }

  lemma DrainKeepsStops(s: Server, j: nat)
    requires j < |s.starts|
    ensures var t := DrainStep(s, true);
            && (t.starts[j].heartbeats.Publishing? ==> s.starts[j].heartbeats.Publishing?)
            && (Stops(s, j) ==> Stops(t, j))
  {
    DrainKeepsHandles(s, true);
    hide DrainCore;
  }

  lemma DrainGoesOn(s: Server)
    requires !s.core.drainer.Asleep? && !s.core.drainer.Done?
    requires s.core.drainer.LockingServer? ==> s.core.mutex.None?
    requires s.core.drainer.Joining? ==> NoHeartbeat(s)
    ensures DrainEnabled(s, true) && DrainStep(s, true).core.drainer.Rank() > s.core.drainer.Rank()
  {
    hide NoHeartbeat;
  }

  lemma NearerByDrain(s: Server)
    requires AllStop(s) && !s.core.drainer.Asleep? && !s.core.drainer.Done?
    requires s.core.drainer.LockingServer? ==> s.core.mutex.None?
    requires s.core.drainer.Joining? ==> NoHeartbeat(s)
    ensures Step(s, RunDrain(true)).Some?
    ensures var t := Step(s, RunDrain(true)).value; AllStop(t) && IsNearer(s, t)
  {
    DrainGoesOn(s);
    hide Hold, PublishingSet, NoHeartbeat, DrainEnabled, DrainCore, DrainOf, Stops;
    var t := DrainStep(s, true);
    forall j: nat | j < |t.starts| && t.starts[j].heartbeats.Publishing?
      ensures Stops(t, j)
    {
      DrainKeepsStops(s, j);
    }
  }

  lemma CallIsEnabled(s: Server)
    ensures Step(s, CallDrain).Some?
  {
  }

  /** One step nearer the end of a drain. */
  lemma Nearer(s: Server) returns (a: Action)
    requires Inv(s) && AllStop(s) && s.core.drainer.Rank() <= 8
    ensures Inside(a) && (a.CallDrain? ==> s.core.drainer.Asleep?) && Step(s, a).Some?
    ensures AllStop(Step(s, a).value) && IsNearer(s, Step(s, a).value)
  {
    hide Step, Inv, AllStop, IsNearer;
    if s.core.drainer.LockingServer? && s.core.mutex.Some? {
      a := NearerToFree(s);
    } else if s.core.drainer.Joining? && !NoHeartbeat(s) {
      a := NearerToJoin(s);
    } else if s.core.drainer.Asleep? {
      NearerByCall(s);
      a := CallDrain;
      assert Step(s, a).Some? by { CallIsEnabled(s); }
    } else {
      NearerByDrain(s);
      a := RunDrain(true);
    }
  }

  /** When every publishing Start stops, the server by itself ends the drain, with every handler
      still running. */
  lemma DrainEnds(s: Server) returns (actions: seq<Action>)
    requires Inv(s) && AllStop(s)
    ensures forall a <- actions :: Inside(a)
    ensures Run(s, actions).Some?
    ensures var t := Run(s, actions).value; t.core.drainer.Done? && t.running == s.running
    decreases 9 - s.core.drainer.Rank(), Hold(s), PublishingSet(s)
  {
    hide Step, Inv, AllStop, Hold, PublishingSet;
    if s.core.drainer.Done? {
      actions := [];
    } else {
      var a := Nearer(s);
      StepKeeps(s, a);
      KeepsRunning(s, a);
      var rest := DrainEnds(Step(s, a).value);
      actions := [a] + rest;
      assert actions[1..] == rest;
    }
  }

  lemma KeepsRunning(s: Server, a: Action)
    requires Inside(a) && Step(s, a).Some?
    ensures Step(s, a).value.running == s.running
  {
  }

  /** A Start whose heartbeats the drain would wait for, and that it does not stop. */
  predicate Unreached(s: Server, i: nat) {
    && i < |s.starts| && s.starts[i].heartbeats.Publishing? && !Stops(s, i)
    && !s.core.drainer.Done?
  }

  lemma UnreachedStays(s: Server, i: nat, a: Action)
    requires Inv(s) && Unreached(s, i) && a != OfStart(i, ContextEnds) && Step(s, a).Some?
    ensures Unreached(Step(s, a).value, i)
  {
    hide GateInv;
    assert StartInv(s.starts[i]) && LinkInv(s.core, i, s.starts[i]);
    match a
    case OfStart(j, act) =>
      assert LinkInv(s.core, j, s.starts[j]) && StartInv(s.starts[j]);
    case _ =>
  }

  /** Until that Start's own context ends, no drain does, in any run. */
  lemma {:induction false} DrainHangs(s: Server, i: nat, actions: seq<Action>)
    requires Inv(s) && Unreached(s, i) && Run(s, actions).Some?
    requires OfStart(i, ContextEnds) !in actions
    ensures !Run(s, actions).value.core.drainer.Done?
    decreases |actions|
  {
    hide Step, Unreached, Inv;
    if actions != [] {
      UnreachedStays(s, i, actions[0]);
      StepKeeps(s, actions[0]);
      DrainHangs(Step(s, actions[0]).value, i, actions[1..]);
    } else {
      UnreachedNotDone(s, i);
    }
  }

  lemma UnreachedNotDone(s: Server, i: nat)
    requires Unreached(s, i)
    ensures !s.core.drainer.Done?
  {
  }

  /** Some run reaches the end of a drain without a Start's context ending from outside. */
  ghost predicate CanEnd(s: Server) {
    exists actions :: EndsIn(s, actions)
  }

  predicate EndsIn(s: Server, actions: seq<Action>) {
    && (forall a <- actions :: !EndsContext(a))
    && Run(s, actions).Some? && Run(s, actions).value.core.drainer.Done?
  }

  /** Exactly when a drain, begun or not, can end by itself: when every Start that publishes
      heartbeats has its context done or is the last that set the server's handle. */
  lemma DrainEndsExactly(s: Server)
    requires Reachable(s)
    ensures CanEnd(s) <==> AllStop(s)
  {
    ReachableInv(s);
    if AllStop(s) {
      var actions := DrainEnds(s);
      assert EndsIn(s, actions);
    } else {
      var i: nat :| i < |s.starts| && s.starts[i].heartbeats.Publishing? && !Stops(s, i);
      assert LinkInv(s.core, i, s.starts[i]);
      forall actions | EndsIn(s, actions)
        ensures false
      {
        DrainHangs(s, i, actions);
      }
    }
  }

  /** What a registered Start still has to do before it returns. */
  function ToReturn(phase: Phase): nat {
    match phase
    case Flushing => 6
    case Marking => 5
    case Serving => 4
    case Waiting => 3
    case CancellingPrompts(_) => 2
    case CancellingServe(_) => 1
    case _ => 0
  }

  /** A Start that waits for the mutex or for the drain goes on waiting, whatever step is taken. */
  predicate Waits(s: Server, i: nat)
    requires i < |s.starts|
  {
    || (s.starts[i].phase.Waiting? && !s.core.drainer.Done?)
    || (s.starts[i].phase.Marking? && s.core.mutex.Some?)
  }

  lemma StaysWaiting(s: Server, i: nat, a: Action)
    requires i < |s.starts| && Waits(s, i) && Step(s, a).Some?
    ensures var t := Step(s, a).value;
            && |t.starts| == |s.starts| && t.starts[i].phase == s.starts[i].phase
            && t.starts[i].registered == s.starts[i].registered
            && (s.starts[i].serveDone ==> t.starts[i].serveDone)
  {
    match a {
      case OfStart(j, act) => hide DrainStep, DrainEnabled;
      case RunDrain(timeout) => hide StartStep, Enabled, DrainCore, DrainEnabled;
      case _ => hide StartStep, Enabled, DrainStep, DrainEnabled;
    }
  }

  /** The own next step of a registered Start whose context has ended. */
  function OwnNext(phase: Phase): StartAction {
    match phase
    case Flushing => GiveUpFlush
    case Marking => MarkReady
    case Serving => ServeEnds
    case Waiting => DrainReturns
    case CancellingPrompts(_) => CancelPrompts
    case _ => CancelServe
  }

  lemma GoesOn(s: Server, i: nat)
    requires Inv(s) && AllStop(s) && i < |s.starts| && s.starts[i].registered && s.starts[i].serveDone
    requires !s.starts[i].phase.Returned? && !Waits(s, i)
    ensures var a := OfStart(i, OwnNext(s.starts[i].phase));
            && Step(s, a).Some? && AllStop(Step(s, a).value)
            && var t := Step(s, a).value;
               && |t.starts| == |s.starts| && t.starts[i].registered && t.starts[i].serveDone
               && ToReturn(t.starts[i].phase) < ToReturn(s.starts[i].phase)
  {
    assert StartInv(s.starts[i]) && LinkInv(s.core, i, s.starts[i]);
    hide CoreInv, GateInv;
    var t := Step(s, OfStart(i, OwnNext(s.starts[i].phase))).value;
    forall j: nat | j < |t.starts| && t.starts[j].heartbeats.Publishing?
      ensures Stops(t, j)
    {
      assert Stops(s, j);
    }
  }

  /** One step nearer the return of Start `i`. */
  lemma NearerToReturn(s: Server, i: nat) returns (a: Action)
    requires Inv(s) && AllStop(s) && i < |s.starts| && s.starts[i].registered && s.starts[i].serveDone
    requires !s.starts[i].phase.Returned?
    ensures Inside(a) && !a.CallDrain? && Step(s, a).Some? && AllStop(Step(s, a).value)
    ensures var t := Step(s, a).value;
            && |t.starts| == |s.starts| && t.starts[i].registered && t.starts[i].serveDone
            && (|| ToReturn(t.starts[i].phase) < ToReturn(s.starts[i].phase)
                || (t.starts[i].phase == s.starts[i].phase && IsNearer(s, t)))
  {
    hide Step, AllStop, IsNearer;
    assert LinkInv(s.core, i, s.starts[i]);
    if !Waits(s, i) {
      GoesOn(s, i);
      a := OfStart(i, OwnNext(s.starts[i].phase));
    } else if s.starts[i].phase.Marking? {
      a := NearerToFree(s);
      StaysWaiting(s, i, a);
    } else {
      a := Nearer(s);
      StaysWaiting(s, i, a);
    }
  }

  /** When every publishing Start stops, the server by itself ends a registered Start whose context
      has ended: it begins the drain, whoever else does, and returns what the drain reports. */
  lemma StartReturns(s: Server, i: nat) returns (actions: seq<Action>)
    requires Inv(s) && AllStop(s) && i < |s.starts| && s.starts[i].registered && s.starts[i].serveDone
    ensures ReturnsIn(s, i, actions)
    decreases ToReturn(s.starts[i].phase), 9 - s.core.drainer.Rank(), Hold(s), PublishingSet(s)
  {
    hide Step, Inv, AllStop, Hold, PublishingSet;
    if s.starts[i].phase.Returned? {
      actions := [];
    } else {
      var a := NearerToReturn(s, i);
      StepKeeps(s, a);
      var rest := StartReturns(Step(s, a).value, i);
      actions := [a] + rest;
      assert actions[1..] == rest;
    }
  }

  predicate ReturnsIn(s: Server, i: nat, actions: seq<Action>) {
    && (forall a <- actions :: Inside(a) && !a.CallDrain?)
    && Run(s, actions).Some? && i < |Run(s, actions).value.starts|
    && Run(s, actions).value.starts[i].phase.Returned?
  }

  lemma {:induction false} StaysRegistered(s: Server, i: nat, actions: seq<Action>)
    requires Inv(s) && i < |s.starts| && s.starts[i].registered && Run(s, actions).Some?
    ensures var t := Run(s, actions).value; i < |t.starts| && t.starts[i].registered
    decreases |actions|
  {
    hide Step, Inv;
    if actions != [] {
      StepKeepsRegistered(s, i, actions[0]);
      StepKeeps(s, actions[0]);
      StaysRegistered(Step(s, actions[0]).value, i, actions[1..]);
    }
  }

  lemma StepKeepsRegistered(s: Server, i: nat, a: Action)
    requires i < |s.starts| && s.starts[i].registered && Step(s, a).Some?
    ensures var t := Step(s, a).value; i < |t.starts| && t.starts[i].registered
  {
    match a {
      case OfStart(j, act) => hide DrainStep, DrainEnabled;
      case RunDrain(timeout) => hide StartStep, Enabled, DrainCore, DrainEnabled;
      case _ => hide StartStep, Enabled, DrainStep, DrainEnabled;
    }
  }

  lemma ReturnedAfterDrain(s: Server, i: nat, actions: seq<Action>)
    requires Inv(s) && i < |s.starts| && s.starts[i].registered && ReturnsIn(s, i, actions)
    ensures var t := Run(s, actions).value;
            t.core.drainer.Done? && t.starts[i].phase == Returned(Drained(t.core.incomplete))
  {
    RunKeeps(s, actions);
    StaysRegistered(s, i, actions);
    var t := Run(s, actions).value;
    assert StartInv(t.starts[i]) && LinkInv(t.core, i, t.starts[i]);
    hide Run, Inv;
  }

  /** Exactly when a registered Start whose context has ended can return, although nobody calls Drain:
      when a drain can end by itself. It then returns what that drain reports. */
  lemma StartReturnsExactly(s: Server, i: nat)
    requires Reachable(s) && i < |s.starts| && s.starts[i].registered && s.starts[i].serveDone
    ensures (exists actions :: ReturnsIn(s, i, actions)) <==> AllStop(s)
    ensures forall actions | ReturnsIn(s, i, actions) ::
              var t := Run(s, actions).value;
              t.core.drainer.Done? && t.starts[i].phase == Returned(Drained(t.core.incomplete))
  {
    ReachableInv(s);
    if AllStop(s) {
      var actions := StartReturns(s, i);
    }
    forall actions | ReturnsIn(s, i, actions)
      ensures AllStop(s)
      ensures var t := Run(s, actions).value;
              t.core.drainer.Done? && t.starts[i].phase == Returned(Drained(t.core.incomplete))
    {
      ReturnedAfterDrain(s, i, actions);
      if !AllStop(s) {
        var j: nat :| j < |s.starts| && s.starts[j].heartbeats.Publishing? && !Stops(s, j);
        assert LinkInv(s.core, j, s.starts[j]);
        DrainHangs(s, j, actions);
      }
    }
  }

  /** With two Starts it need not: a state of a drain that no run ends by itself. */
  lemma SecondStartHangsDrain() returns (s: Server)
    ensures Reachable(s) && s.core.drainer.Joining? && !CanEnd(s)
  {
    s := JoiningBoth();
    assert !Stops(s, 0);
    DrainEndsExactly(s);
  }

  /** Nor when the second one fails to register, with no drain begun yet. */
  lemma FailedSecondStartHangsDrain() returns (s: Server)
    ensures Reachable(s) && s.core.drainer.Asleep? && !CanEnd(s)
    ensures |s.starts| == 2 && Ending(s.starts[1].phase) && s.starts[1].phase.result.RegisterFailed?
  {
    hide Leads;
    s := NewServer(2, 0);
    Stays(s);
    s := Opened(2, s, 0);
    s := GoStart(2, s, 0, AddStatus(true));
    s := GoStart(2, s, 1, CallStart);
    s := GoStart(2, s, 1, LockForStart);
    s := GoStart(2, s, 1, AddService(false));
    assert !Stops(s, 0);
    assert Reachable(s) by { IsReachable(2, s); }
    DrainEndsExactly(s);
  }

  lemma IsReachable(calls: nat, s: Server)
    requires Leads(NewServer(calls, s.budget), s)
    ensures Reachable(s)
  {
  }

  /** With one Start it always can. */
  lemma OneStartEnds(s: Server)
    requires Reachable(s)
    requires forall i, j | 0 <= i < j < |s.starts| :: !(s.starts[i].entered && s.starts[j].entered)
    ensures CanEnd(s)
  {
    ReachableInv(s);
    forall i: nat | i < |s.starts| && s.starts[i].heartbeats.Publishing?
      ensures Stops(s, i)
    {
      assert StartInv(s.starts[i]) && LinkInv(s.core, i, s.starts[i]);
      var k := s.core.handles.stopServing.value;
      assert LinkInv(s.core, k, s.starts[k]);
    }
    DrainEndsExactly(s);
  }
}
