/** Limiting model calls (llm/middleware/limiter.go): a bucket of tokens a producer fills on every
    tick, and a semaphore of slots, shared by any number of callers. */
module Limiter {
  import opened Messages

  /** The two channels: how many tokens wait in the bucket, and how many slots are taken. */
  datatype Channels = Channels(tokens: nat, slots: nat, capacity: nat, maxConcurrent: nat) {
    function Ticked(): Channels {
      if tokens < capacity then this.(tokens := tokens + 1) else this
    }
  }

  datatype Error = InvalidRate | InvalidMaxConcurrentRequests

  /** One second's worth of tokens, but at least one. */
  function Capacity(requestsPerSecond: real): nat
    requires requestsPerSecond > 0.0
  {
    if requestsPerSecond.Floor > 1 then requestsPerSecond.Floor else 1
  }

  /** The bucket holds the whole tokens of one second, and one token of a slower rate. */
  lemma CapacityIsASecond(requestsPerSecond: real)
    requires requestsPerSecond > 0.0
    ensures var n := Capacity(requestsPerSecond);
            && n >= 1
            && (requestsPerSecond >= 1.0 ==> n as real <= requestsPerSecond < (n + 1) as real)
            && (requestsPerSecond < 1.0 ==> n == 1)
  {
  }

  /** In nanoseconds, the unit of an interval. */
  const SECOND := 1_000_000_000

  /** The time between two ticks, rounded down. */
  function Interval(requestsPerSecond: real): int
    requires requestsPerSecond > 0.0
  {
    (SECOND as real / requestsPerSecond).Floor
  }

  /** The ticks come at the rate or faster, by less than a nanosecond each. A ticker panics on an
      interval of zero: it gets one exactly for rates above one per nanosecond. */
  lemma IntervalTicks(requestsPerSecond: real)
    requires requestsPerSecond > 0.0
    ensures var n := Interval(requestsPerSecond) as real;
            n * requestsPerSecond <= SECOND as real < (n + 1.0) * requestsPerSecond
    ensures Interval(requestsPerSecond) >= 0
    ensures Interval(requestsPerSecond) == 0 <==> requestsPerSecond > SECOND as real
  {
  }

  class Limiter {
    const capacity: nat
    const maxConcurrent: nat
    /** Nanoseconds between two ticks. */
    const interval: int
    var tokens: nat
    var slots: nat

    function Value(): Channels
      reads this
    {
      Channels(tokens, slots, capacity, maxConcurrent)
    }

    /** The bucket starts empty. */
    constructor (capacity: nat, maxConcurrent: nat, interval: int)
      ensures Value() == Channels(0, 0, capacity, maxConcurrent) && this.interval == interval
    {
      this.capacity, this.maxConcurrent, this.interval := capacity, maxConcurrent, interval;
      tokens, slots := 0, 0;
    }

    /** The producer's tick; a token that does not fit is discarded. */
    method Tick()
      modifies `tokens
      ensures Value() == old(Value()).Ticked()
    {
      if tokens < capacity {
        tokens := tokens + 1;
      }
    }

    /** Takes a token and a slot without waiting. */
    method TryAcquire() returns (token: bool, slot: bool)
      modifies this
      ensures token == (old(tokens) > 0) && slot == (token && old(slots) < maxConcurrent)
      ensures Value() == old(Value()).(
                tokens := old(tokens) - (if token then 1 else 0), slots := old(slots) + if slot then 1 else 0)
    {
      token, slot := false, false;
      if tokens > 0 {
        tokens := tokens - 1;
        token := true;
        if slots < maxConcurrent {
          slots := slots + 1;
          slot := true;
        }
      }
    }

    method Release()
      requires slots > 0
      modifies `slots
      ensures Value() == old(Value()).(slots := old(slots) - 1)
    {
      slots := slots - 1;
    }
  }

  method NewLimiter(requestsPerSecond: real, maxConcurrent: int) returns (l: Limiter?, err: Option<Error>)
    ensures err == if requestsPerSecond <= 0.0 then Some(InvalidRate)
                   else if maxConcurrent <= 0 then Some(InvalidMaxConcurrentRequests) else None
    ensures l == null <==> err.Some?
    ensures l != null ==> fresh(l) && l.Value() == Channels(0, 0, Capacity(requestsPerSecond), maxConcurrent)
    ensures l != null ==> (l.interval > 0 <==> requestsPerSecond <= SECOND as real)
    ensures l != null ==> l.interval == Interval(requestsPerSecond)
  {
    if requestsPerSecond <= 0.0 {
      return null, Some(InvalidRate);
    }
    if maxConcurrent <= 0 {
      return null, Some(InvalidMaxConcurrentRequests);
    }
    IntervalTicks(requestsPerSecond);
    l := new Limiter(Capacity(requestsPerSecond), maxConcurrent, Interval(requestsPerSecond));
    return l, None;
  }

  // ---- callers, in any interleaving

  /** A call: not made, waiting for a token, holding one, waiting for a slot, forwarded, returned;
      or given up, before it took a token or with one. */
  datatype Call = Unmade | NeedsToken | HasToken | NeedsSlot | InFlight | Returned | Refused | Lost

  datatype Kind = WithoutToken | TookToken | AwaitsSlot | OnTheFly | Started | GaveTokenUp

  predicate Is(c: Call, k: Kind) {
    match k
    case WithoutToken => c.Unmade? || c.NeedsToken?
    case TookToken => c.HasToken? || c.NeedsSlot? || c.InFlight? || c.Returned? || c.Lost?
    case AwaitsSlot => c.HasToken? || c.NeedsSlot?
    case OnTheFly => c.InFlight?
    case Started => c.InFlight? || c.Returned?
    case GaveTokenUp => c.Lost?
  }

  function Count(calls: seq<Call>, k: Kind): nat {
    if calls == [] then 0
    else Count(calls[..|calls| - 1], k) + if Is(calls[|calls| - 1], k) then 1 else 0
  }

  /** `made` counts the tokens put in the bucket. */
  datatype State = State(channels: Channels, made: nat, stopped: bool, calls: seq<Call>)

  datatype Action =
    | Tick
    | Make(i: nat)
    | TrySlot(i: nat)
    | TakeToken(i: nat)
    | TakeSlot(i: nat)
    | GiveUp(i: nat, cancelled: bool)
    | Return(i: nat)
    | Stop

  function NewState(capacity: nat, maxConcurrent: nat, calls: nat): State {
    State(Channels(0, 0, capacity, maxConcurrent), 0, false, seq(calls, _ => Unmade))
  }

  predicate At(s: State, i: nat, c: Call) {
    i < |s.calls| && s.calls[i] == c
  }

  predicate Enabled(s: State, a: Action) {
    match a
    case Tick => true
    case Make(i) => At(s, i, Unmade)
    case TrySlot(i) => At(s, i, HasToken)
    case TakeToken(i) => At(s, i, NeedsToken) && s.channels.tokens > 0
    case TakeSlot(i) => At(s, i, NeedsSlot) && s.channels.slots < s.channels.maxConcurrent
    case GiveUp(i, cancelled) => (At(s, i, NeedsToken) || At(s, i, NeedsSlot)) && (cancelled || s.stopped)
    case Return(i) => At(s, i, InFlight) && s.channels.slots > 0
    case Stop => true
  }

  function To(s: State, i: nat, c: Call, tokens: nat, slots: nat): State
    requires i < |s.calls|
  {
    s.(calls := s.calls[i := c], channels := s.channels.(tokens := tokens, slots := slots))
  }

  function Step(s: State, a: Action): State
    requires Enabled(s, a)
  {
    var tokens, slots := s.channels.tokens, s.channels.slots;
    match a
    case Tick =>
      s.(channels := s.channels.Ticked(), made := s.made + if tokens < s.channels.capacity then 1 else 0)
    case Make(i) => if tokens > 0 then To(s, i, HasToken, tokens - 1, slots) else To(s, i, NeedsToken, tokens, slots)
    case TrySlot(i) =>
      if slots < s.channels.maxConcurrent then To(s, i, InFlight, tokens, slots + 1)
      else To(s, i, NeedsSlot, tokens, slots)
    case TakeToken(i) => To(s, i, NeedsSlot, tokens - 1, slots)
    case TakeSlot(i) => To(s, i, InFlight, tokens, slots + 1)
    case GiveUp(i, _) => To(s, i, if s.calls[i].NeedsToken? then Refused else Lost, tokens, slots)
    case Return(i) => To(s, i, Returned, tokens, slots - 1)
    case Stop => s.(stopped := true)
  }

  function Run(s: State, actions: seq<Action>): Option<State>
    decreases |actions|
  {
    if actions == [] then Some(s)
    else if !Enabled(s, actions[0]) then None
    else Run(Step(s, actions[0]), actions[1..])
  }

  function Ticks(actions: seq<Action>): nat {
    if actions == [] then 0 else (if actions[0].Tick? then 1 else 0) + Ticks(actions[1..])
  }

  // ---- giving up

  predicate Waits(s: State, i: nat) {
    At(s, i, NeedsToken) || At(s, i, NeedsSlot)
  }

  predicate IsCause(a: Action) {
    a.Stop? || (a.GiveUp? && a.cancelled)
  }

  predicate NoneGaveUp(s: State) {
    !s.stopped && forall i | 0 <= i < |s.calls| :: !s.calls[i].Refused? && !s.calls[i].Lost?
  }

  lemma {:induction false} StopLasts(s: State, actions: seq<Action>)
    requires Run(s, actions).Some?
    ensures s.stopped || Stop in actions ==> Run(s, actions).value.stopped
    decreases |actions|
  {
    if actions != [] {
      StopLasts(Step(s, actions[0]), actions[1..]);
    }
  }

  /** Once the limiter is stopped, no call that waits need go on waiting. */
  lemma StopReleases(s: State, actions: seq<Action>, i: nat)
    requires Run(s, actions).Some? && Stop in actions && Waits(Run(s, actions).value, i)
    ensures var t := Run(s, actions).value;
            Enabled(t, GiveUp(i, false)) && !Waits(Step(t, GiveUp(i, false)), i)
  {
    StopLasts(s, actions);
  }

  lemma {:induction false} NoneGivesUp(s: State, actions: seq<Action>)
    requires NoneGaveUp(s) && Run(s, actions).Some? && forall a <- actions :: !IsCause(a)
    ensures NoneGaveUp(Run(s, actions).value)
    decreases |actions|
  {
    if actions != [] {
      assert actions[0] in actions;
      assert NoneGaveUp(Step(s, actions[0]));
      NoneGivesUp(Step(s, actions[0]), actions[1..]);
    }
  }

  /** A call gives up only when the limiter was stopped or the context of a call ended. */
  lemma GivesUpWithCause(capacity: nat, maxConcurrent: nat, calls: nat, actions: seq<Action>)
    requires Run(NewState(capacity, maxConcurrent, calls), actions).Some?
    requires !NoneGaveUp(Run(NewState(capacity, maxConcurrent, calls), actions).value)
    ensures exists a <- actions :: IsCause(a)
  {
    if forall a <- actions :: !IsCause(a) {
      NoneGivesUp(NewState(capacity, maxConcurrent, calls), actions);
    }
  }

  // ---- what every step keeps

  /** Tokens made are consumed or waiting, and the slots taken are those of the calls in flight. */
  predicate Inv(s: State) {
    && s.made == Count(s.calls, TookToken) + s.channels.tokens
    && s.channels.tokens <= s.channels.capacity
    && s.channels.slots == Count(s.calls, OnTheFly) <= s.channels.maxConcurrent
    && Count(s.calls, TookToken) ==
       Count(s.calls, AwaitsSlot) + Count(s.calls, Started) + Count(s.calls, GaveTokenUp)
  }

  lemma {:induction false} CountUpdate(calls: seq<Call>, i: nat, c: Call, k: Kind)
    requires i < |calls|
    ensures Count(calls[i := c], k) + (if Is(calls[i], k) then 1 else 0) ==
            Count(calls, k) + (if Is(c, k) then 1 else 0)
  {
    var last := |calls| - 1;
    if i < last {
      assert calls[i := c][..last] == calls[..last][i := c];
      CountUpdate(calls[..last], i, c, k);
    } else {
      assert calls[i := c][..last] == calls[..last];
    }
  }

  lemma {:induction false} CountNone(calls: nat, k: Kind)
    requires !Is(Unmade, k)
    ensures Count(seq(calls, _ => Unmade), k) == 0
  {
    if calls > 0 {
      var s := seq(calls, _ => Unmade);
      assert s[..calls - 1] == seq(calls - 1, _ => Unmade);
      CountNone(calls - 1, k);
    }
  }

  lemma NewInv(capacity: nat, maxConcurrent: nat, calls: nat)
    ensures Inv(NewState(capacity, maxConcurrent, calls))
  {
    CountNone(calls, TookToken);
    CountNone(calls, AwaitsSlot);
    CountNone(calls, OnTheFly);
    CountNone(calls, Started);
    CountNone(calls, GaveTokenUp);
  }

  lemma CountsUpdate(calls: seq<Call>, i: nat, c: Call)
    requires i < |calls|
    ensures forall k: Kind :: Count(calls[i := c], k) + (if Is(calls[i], k) then 1 else 0) ==
                              Count(calls, k) + (if Is(c, k) then 1 else 0)
  {
    forall k: Kind {
      CountUpdate(calls, i, c, k);
    }
  }

  function Moved(s: State, a: Action): Call
    requires Enabled(s, a) && !a.Tick? && !a.Stop?
  {
    Step(s, a).calls[a.i]
  }

  lemma StepKeeps(s: State, a: Action)
    requires Inv(s) && Enabled(s, a)
    ensures Inv(Step(s, a))
    ensures Count(Step(s, a).calls, GaveTokenUp) >= Count(s.calls, GaveTokenUp)
    ensures Count(Step(s, a).calls, WithoutToken) + Count(Step(s, a).calls, TookToken) <=
            Count(s.calls, WithoutToken) + Count(s.calls, TookToken)
    ensures s.made <= Step(s, a).made <= s.made + if a.Tick? then 1 else 0
    ensures Step(s, a).channels.capacity == s.channels.capacity
    ensures Step(s, a).channels.maxConcurrent == s.channels.maxConcurrent
  {
    hide Count;
    if !a.Tick? && !a.Stop? {
      CountsUpdate(s.calls, a.i, Moved(s, a));
    }
  }

  lemma {:induction false} RunKeeps(s: State, actions: seq<Action>)
    requires Inv(s) && Run(s, actions).Some?
    ensures var t := Run(s, actions).value;
            && Inv(t)
            && Count(t.calls, GaveTokenUp) >= Count(s.calls, GaveTokenUp)
            && Count(t.calls, WithoutToken) + Count(t.calls, TookToken) <=
               Count(s.calls, WithoutToken) + Count(s.calls, TookToken)
            && s.made <= t.made <= s.made + Ticks(actions)
            && t.channels.capacity == s.channels.capacity && t.channels.maxConcurrent == s.channels.maxConcurrent
    decreases |actions|
  {
    hide Inv, Step, Enabled, Count;
    if actions != [] {
      StepKeeps(s, actions[0]);
      RunKeeps(Step(s, actions[0]), actions[1..]);
    }
  }

  // ---- what the limiter promises

  ghost predicate Reachable(s: State) {
    exists calls: nat, actions ::
      Run(NewState(s.channels.capacity, s.channels.maxConcurrent, calls), actions) == Some(s)
  }

  lemma ReachableInv(s: State)
    requires Reachable(s)
    ensures Inv(s)
  {
    var calls: nat, actions :|
      Run(NewState(s.channels.capacity, s.channels.maxConcurrent, calls), actions) == Some(s);
    NewInv(s.channels.capacity, s.channels.maxConcurrent, calls);
    RunKeeps(NewState(s.channels.capacity, s.channels.maxConcurrent, calls), actions);
  }

  /** Never more than maxConcurrent calls are in flight, each with one slot, and the tokens made
      are those taken and those waiting. */
  lemma NeverMoreInFlight(s: State)
    requires Reachable(s)
    ensures Count(s.calls, OnTheFly) == s.channels.slots <= s.channels.maxConcurrent
    ensures s.made == Count(s.calls, TookToken) + s.channels.tokens
  {
    ReachableInv(s);
  }

  /** The tokens in the bucket that calls are there to take. */
  function Takeable(s: State): nat {
    if s.channels.tokens < Count(s.calls, WithoutToken) then s.channels.tokens else Count(s.calls, WithoutToken)
  }

  /** In a window with k ticks at most capacity + k calls take a token. Those that start are at
      most as many, and those that came into the window with a token, waiting for a slot. */
  lemma WindowIsLimited(s: State, actions: seq<Action>)
    requires Reachable(s) && Run(s, actions).Some?
    ensures var t := Run(s, actions).value;
            && Count(t.calls, TookToken) - Count(s.calls, TookToken) <= Takeable(s) + Ticks(actions)
            && Count(t.calls, Started) - Count(s.calls, Started) <=
               Takeable(s) + Ticks(actions) + Count(s.calls, AwaitsSlot)
            && Takeable(s) <= s.channels.tokens <= s.channels.capacity
  {
    ReachableInv(s);
    RunKeeps(s, actions);
  }

  /** The calls a window starts stay within the bucket's capacity and the window's ticks. */
  ghost predicate StartsWithinBucket(s: State) {
    forall actions: seq<Action> | Run(s, actions).Some? ::
      Count(Run(s, actions).value.calls, Started) - Count(s.calls, Started) <= s.channels.capacity + Ticks(actions)
  }

  /** A window can start more calls than its tokens allow: calls that took a token and wait for a
      slot start later, all at once. It cannot exactly when the tokens that can be taken and those
      calls fit the bucket. */
  lemma StartsWithinBucketExactly(s: State)
    requires Reachable(s) && s.channels.maxConcurrent > 0
    ensures StartsWithinBucket(s) <==> Takeable(s) + Count(s.calls, AwaitsSlot) <= s.channels.capacity
  {
    ReachableInv(s);
    if Takeable(s) + Count(s.calls, AwaitsSlot) <= s.channels.capacity {
      forall actions: seq<Action> | Run(s, actions).Some?
        ensures Count(Run(s, actions).value.calls, Started) - Count(s.calls, Started) <=
                s.channels.capacity + Ticks(actions)
      {
        WindowIsLimited(s, actions);
      }
    } else {
      var actions := Burst(s);
      assert Run(s, actions).Some?;
    }
  }

  lemma {:induction false} Witness(calls: seq<Call>, k: Kind) returns (i: nat)
    requires Count(calls, k) > 0
    ensures i < |calls| && Is(calls[i], k)
  {
    var last := |calls| - 1;
    if Is(calls[last], k) {
      i := last;
    } else {
      i := Witness(calls[..last], k);
    }
  }

  /** The next step of a burst: start a waiting call, free a slot for one, or take a token. */
  lemma BurstStep(s: State) returns (a: Action)
    requires Inv(s) && s.channels.maxConcurrent > 0
    requires Takeable(s) > 0 || Count(s.calls, AwaitsSlot) > 0
    ensures Enabled(s, a) && !a.Tick?
    ensures var t := Step(s, a);
            var waiting := Count(t.calls, AwaitsSlot);
            && t.channels.maxConcurrent == s.channels.maxConcurrent
            && Count(t.calls, Started) + Takeable(t) + waiting ==
               Count(s.calls, Started) + Takeable(s) + Count(s.calls, AwaitsSlot)
            && t.channels.tokens <= s.channels.tokens
            && (t.channels.tokens == s.channels.tokens ==>
                  waiting < Count(s.calls, AwaitsSlot)
                  || (waiting == Count(s.calls, AwaitsSlot) && t.channels.slots < s.channels.slots))
  {
    hide Count;
    if Count(s.calls, AwaitsSlot) == 0 {
      var i := Witness(s.calls, WithoutToken);
      a := if s.calls[i].Unmade? then Make(i) else TakeToken(i);
    } else if s.channels.slots < s.channels.maxConcurrent {
      var i := Witness(s.calls, AwaitsSlot);
      a := if s.calls[i].HasToken? then TrySlot(i) else TakeSlot(i);
    } else {
      var i := Witness(s.calls, OnTheFly);
      a := Return(i);
    }
    CountsUpdate(s.calls, a.i, Moved(s, a));
  }

  /** Without a tick, every waiting call starts, and one more for each token that can be taken. */
  lemma Burst(s: State) returns (actions: seq<Action>)
    requires Inv(s) && s.channels.maxConcurrent > 0
    ensures Run(s, actions).Some? && Ticks(actions) == 0
    ensures Count(Run(s, actions).value.calls, Started) ==
            Count(s.calls, Started) + Takeable(s) + Count(s.calls, AwaitsSlot)
    decreases s.channels.tokens, Count(s.calls, AwaitsSlot), s.channels.slots
  {
    hide Count, Inv, Step, Enabled, Takeable;
    if Takeable(s) == 0 && Count(s.calls, AwaitsSlot) == 0 {
      actions := [];
    } else {
      var a := BurstStep(s);
      StepKeeps(s, a);
      var rest := Burst(Step(s, a));
      actions := [a] + rest;
      assert actions[1..] == rest;
    }
  }

  /** The bucket is not filled in advance: a new limiter starts at most one call a tick. */
  lemma NewLimiterStartsEmpty(capacity: nat, maxConcurrent: nat, calls: nat, actions: seq<Action>)
    requires Run(NewState(capacity, maxConcurrent, calls), actions).Some?
    ensures Count(Run(NewState(capacity, maxConcurrent, calls), actions).value.calls, Started) <= Ticks(actions)
  {
    NewInv(capacity, maxConcurrent, calls);
    RunKeeps(NewState(capacity, maxConcurrent, calls), actions);
    CountNone(calls, TookToken);
    CountNone(calls, GaveTokenUp);
  }
}
