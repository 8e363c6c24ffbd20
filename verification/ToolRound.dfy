/** Scheduling a round's tool calls (agent/agent.go, `runToolCalls`, `runToolBatch`): batches
    of goroutines one after the other, an exclusive call alone in its batch, for every order in
    which calls start and finish. */
module ToolRound {
  import opened Messages
  import Turns

  /** A round: its calls with how each ends, which calls are exclusive, and how many may run at
      once, when that is positive. */
  datatype Round = Round(calls: seq<ToolCall>, tools: nat -> Turns.ToolOutcome, exclusive: seq<bool>, maxParallel: int)

  predicate IsRound(r: Round) {
    |r.exclusive| == |r.calls|
  }

  // ---- the batches

  /** The batches from call `i` on, where `batch` was collected before it. */
  function Plan(exclusive: seq<bool>, i: nat, batch: seq<nat>): seq<seq<nat>>
    requires i <= |exclusive|
    decreases |exclusive| - i
  {
    if i == |exclusive| then [batch]
    else if exclusive[i] then [batch, [i]] + Plan(exclusive, i + 1, [])
    else Plan(exclusive, i + 1, batch + [i])
  }

  method PlanRound(exclusive: seq<bool>) returns (plan: seq<seq<nat>>)
    ensures plan == Plan(exclusive, 0, [])
  {
    plan := [];
    var batch: seq<nat> := [];
    for i := 0 to |exclusive|
      invariant plan + Plan(exclusive, i, batch) == Plan(exclusive, 0, [])
    {
      if exclusive[i] {
        assert plan + ([batch, [i]] + Plan(exclusive, i + 1, [])) == plan + [batch, [i]] + Plan(exclusive, i + 1, []);
        plan := plan + [batch, [i]];
        batch := [];
      } else {
        batch := batch + [i];
      }
    }
    plan := plan + [batch];
  }

  function Range(lo: nat, n: nat): seq<nat> {
    seq(n, k requires 0 <= k < n => lo + k)
  }

  /** The batches are consecutive runs of calls, from `lo` to `hi`. A batch that holds an exclusive
      call holds nothing else, and one ends only before or after such a call. */
  predicate Batches(exclusive: seq<bool>, plan: seq<seq<nat>>, lo: nat, hi: nat)
    requires hi <= |exclusive|
    decreases |plan|
  {
    if plan == [] then lo == hi
    else
      && lo + |plan[0]| <= hi
      && plan[0] == Range(lo, |plan[0]|)
      && (|plan[0]| > 1 ==> forall i | lo <= i < lo + |plan[0]| :: !exclusive[i])
      && (plan[0] != [] && lo + |plan[0]| < hi ==> exclusive[lo + |plan[0]| - 1] || exclusive[lo + |plan[0]|])
      && Batches(exclusive, plan[1..], lo + |plan[0]|, hi)
  }

  lemma {:induction false} PlanBatches(exclusive: seq<bool>, i: nat, batch: seq<nat>)
    requires |batch| <= i <= |exclusive| && batch == Range(i - |batch|, |batch|)
    requires forall k | i - |batch| <= k < i :: !exclusive[k]
    ensures Batches(exclusive, Plan(exclusive, i, batch), i - |batch|, |exclusive|)
    decreases |exclusive| - i
  {
    var plan := Plan(exclusive, i, batch);
    if i == |exclusive| {
      assert plan[1..] == [];
    } else if exclusive[i] {
      PlanBatches(exclusive, i + 1, []);
      assert plan[1..][1..] == Plan(exclusive, i + 1, []);
      assert plan[1..][0] == [i] == Range(i, 1);
      assert Batches(exclusive, plan[1..], i, |exclusive|);
    } else {
      assert batch + [i] == Range(i - |batch|, |batch| + 1);
      PlanBatches(exclusive, i + 1, batch + [i]);
    }
  }

  // ---- the goroutines

  /** Not started, waiting for a slot, running, its result stored and reported, or gone. */
  datatype Status = Idle | Waiting | Running | Finished | Exited {
    predicate Ended() {
      Finished? || Exited?
    }

    /** How far a call is from gone, a report not yet received counted with it. */
    function Left(): nat {
      match this
      case Idle => 5
      case Waiting => 4
      case Running => 3
      case Finished => 1
      case Exited => 0
    }
  }

  /** `rest` holds the batches from the current one on, `lo` its first call; `spawned` and
      `received` count its goroutines and the reports the caller got. `events` are the result
      events, by call; `reports` the finished channel; `holding` the taken slots. */
  datatype State = State(
    rest: seq<seq<nat>>, lo: nat, spawned: nat, received: nat, status: seq<Status>,
    results: seq<Option<Message>>, reports: seq<nat>, events: seq<nat>, holding: set<nat>)

  datatype Action = Spawn | Acquire(i: nat) | Finish(i: nat) | Release(i: nat) | Receive | NextBatch

  function Begin(r: Round): State
    requires IsRound(r)
  {
    State(Plan(r.exclusive, 0, []), 0, 0, 0, seq(|r.calls|, _ => Idle), seq(|r.calls|, _ => None), [], [], {})
  }

  predicate Done(s: State) {
    s.rest == []
  }

  predicate IsAt(s: State, i: nat, status: Status) {
    i < |s.status| && s.status[i] == status
  }

  predicate Enabled(r: Round, s: State, a: Action) {
    match a
    case Spawn => s.rest != [] && s.spawned < |s.rest[0]| && s.rest[0][s.spawned] < |s.status|
    case Acquire(i) => IsAt(s, i, Waiting) && (r.maxParallel > 0 ==> |s.holding| < r.maxParallel)
    case Finish(i) => IsAt(s, i, Running) && i < |r.calls| && |s.results| == |s.status|
    case Release(i) => IsAt(s, i, Finished)
    case Receive => s.rest != [] && s.spawned == |s.rest[0]| && s.received < |s.rest[0]| && s.reports != []
    case NextBatch => s.rest != [] && s.spawned == s.received == |s.rest[0]|
  }

  function Step(r: Round, s: State, a: Action): State
    requires Enabled(r, s, a)
  {
    match a
    case Spawn => s.(spawned := s.spawned + 1, status := s.status[s.rest[0][s.spawned] := Waiting])
    case Acquire(i) => s.(status := s.status[i := Running], holding := s.holding + {i})
    case Finish(i) =>
      s.(status := s.status[i := Finished], reports := s.reports + [i],
         results := s.results[i := Some(Turns.ResultMessage(r.calls[i], r.tools(i)))])
    case Release(i) => s.(status := s.status[i := Exited], holding := s.holding - {i})
    case Receive => s.(received := s.received + 1, events := s.events + [s.reports[0]], reports := s.reports[1..])
    case NextBatch =>
      s.(rest := s.rest[1..], lo := s.lo + |s.rest[0]|, spawned := 0, received := 0, holding := {})
  }

  function Run(r: Round, s: State, actions: seq<Action>): Option<State>
    decreases |actions|
  {
    if actions == [] then Some(s)
    else if !Enabled(r, s, actions[0]) then None
    else Run(r, Step(r, s, actions[0]), actions[1..])
  }

  // ---- what every step keeps

  predicate NoDuplicates(s: seq<nat>) {
    forall i, j | 0 <= i < j < |s| :: s[i] != s[j]
  }

  /** The caller: which batch, and how much of it. */
  predicate CallerInv(r: Round, s: State) {
    && IsRound(r)
    && |s.status| == |s.results| == |r.calls|
    && Batches(r.exclusive, s.rest, s.lo, |r.calls|)
    && s.received <= s.spawned <= (if s.rest == [] then 0 else |s.rest[0]|)
    && s.lo + s.spawned <= |r.calls|
  }

  /** Earlier batches have ended, later ones not begun. */
  predicate CallInv(r: Round, s: State, i: nat)
    requires i < |s.status| && |s.results| == |s.status| == |r.calls|
  {
    && (i < s.lo ==> s.status[i].Ended())
    && (i >= s.lo + s.spawned <==> s.status[i].Idle?)
    && s.results[i] == (if s.status[i].Ended() then Some(Turns.ResultMessage(r.calls[i], r.tools(i))) else None)
    && (s.status[i].Ended() <==> i in s.events + s.reports)
    && (s.status[i].Running? ==> i in s.holding)
    && (i in s.holding ==> s.lo <= i && (s.status[i].Running? || s.status[i].Finished?))
  }

  /** Every ended call was reported once. */
  predicate ReportInv(r: Round, s: State) {
    && NoDuplicates(s.events + s.reports)
    && (forall i <- s.events + s.reports :: i < |s.status|)
    && (forall i <- s.holding :: i < |s.status|)
    && |s.events| == s.lo + s.received
    && (r.maxParallel > 0 ==> |s.holding| <= r.maxParallel)
  }

  predicate Inv(r: Round, s: State) {
    && CallerInv(r, s)
    && ReportInv(r, s)
    && forall i: nat | i < |s.status| :: CallInv(r, s, i)
  }

  lemma BeginInv(r: Round)
    requires IsRound(r)
    ensures Inv(r, Begin(r))
  {
    PlanBatches(r.exclusive, 0, []);
  }

  function Nats(n: nat): (s: set<nat>)
    ensures |s| == n && forall i: nat :: i in s <==> i < n
  {
    if n == 0 then {} else Nats(n - 1) + {n - 1}
  }

  function Elements(s: seq<nat>): set<nat> {
    set i | i in s
  }

  lemma {:induction false} CountElements(s: seq<nat>)
    requires NoDuplicates(s)
    ensures |Elements(s)| == |s|
  {
    if s != [] {
      var front, last := s[..|s| - 1], s[|s| - 1];
      CountElements(front);
      assert Elements(s) == Elements(front) + {last};
    } else {
      assert Elements(s) == {};
    }
  }

  lemma {:induction false} SubsetSmaller(a: set<nat>, b: set<nat>)
    requires a <= b
    ensures |a| <= |b| && (|a| == |b| ==> a == b)
    decreases |a|
  {
    if a != {} {
      var x :| x in a;
      SubsetSmaller(a - {x}, b - {x});
      assert a == a - {x} + {x} && b == b - {x} + {x};
    } else if |b| == 0 {
      assert b == {};
    }
  }

  /** As many different numbers below `n` as `n` are all of them. */
  lemma AllOfThem(s: seq<nat>, n: nat, i: nat)
    requires NoDuplicates(s) && |s| == n && (forall k <- s :: k < n) && i < n
    ensures i in s
  {
    CountElements(s);
    SubsetSmaller(Elements(s), Nats(n));
    assert i in Elements(s);
  }

  lemma SpawnKeeps(r: Round, s: State)
    requires Inv(r, s) && Enabled(r, s, Spawn)
    ensures Inv(r, Step(r, s, Spawn))
  {
    var t := Step(r, s, Spawn);
    assert s.rest[0][s.spawned] == s.lo + s.spawned;
    assert CallInv(r, s, s.lo + s.spawned);
    forall i: nat | i < |t.status| ensures CallInv(r, t, i) { assert CallInv(r, s, i); }
  }

  lemma AcquireKeeps(r: Round, s: State, i: nat)
    requires Inv(r, s) && Enabled(r, s, Acquire(i))
    ensures Inv(r, Step(r, s, Acquire(i)))
  {
    var t := Step(r, s, Acquire(i));
    forall j: nat | j < |t.status| ensures CallInv(r, t, j) { assert CallInv(r, s, j); }
  }

  lemma FinishKeeps(r: Round, s: State, i: nat)
    requires Inv(r, s) && Enabled(r, s, Finish(i))
    ensures Inv(r, Step(r, s, Finish(i)))
  {
    var t := Step(r, s, Finish(i));
    assert t.events + t.reports == s.events + s.reports + [i];
    assert CallInv(r, s, i);
    forall j: nat | j < |t.status| ensures CallInv(r, t, j) { assert CallInv(r, s, j); }
  }

  lemma ReleaseKeeps(r: Round, s: State, i: nat)
    requires Inv(r, s) && Enabled(r, s, Release(i))
    ensures Inv(r, Step(r, s, Release(i)))
  {
    var t := Step(r, s, Release(i));
    assert |t.holding| <= |s.holding|;
    forall j: nat | j < |t.status| ensures CallInv(r, t, j) { assert CallInv(r, s, j); }
  }

  lemma ReceiveKeeps(r: Round, s: State)
    requires Inv(r, s) && Enabled(r, s, Receive)
    ensures Inv(r, Step(r, s, Receive))
  {
    var t := Step(r, s, Receive);
    assert t.events + t.reports == s.events + s.reports;
    forall j: nat | j < |t.status| ensures CallInv(r, t, j) { assert CallInv(r, s, j); }
  }

  /** When the caller got a report for each call of its batch, each has ended and none is left. */
  lemma BatchEnded(r: Round, s: State)
    requires Inv(r, s) && Enabled(r, s, NextBatch)
    ensures s.reports == []
    ensures forall i: nat | i < s.lo + s.spawned :: s.status[i].Ended()
  {
    var n := s.lo + s.spawned;
    forall i | i in s.events || i in s.reports
      ensures i < n
    {
      assert i in s.events + s.reports;
      assert CallInv(r, s, i);
    }
    forall i: nat | i < n
      ensures i in s.events && s.status[i].Ended()
    {
      assert NoDuplicates(s.events) by {
        assert forall k | 0 <= k < |s.events| :: s.events[k] == (s.events + s.reports)[k];
      }
      AllOfThem(s.events, n, i);
      assert CallInv(r, s, i);
    }
    NotBoth(s.events, s.reports);
    HasFirst(s.reports);
  }

  lemma HasFirst(s: seq<nat>)
    ensures s == [] || s[0] in s
  {
  }

  lemma NotBoth(a: seq<nat>, b: seq<nat>)
    requires NoDuplicates(a + b)
    ensures forall i | i in b :: i !in a
  {
    forall j | 0 <= j < |b|
      ensures b[j] !in a
    {
      assert (a + b)[|a| + j] == b[j];
      assert forall k | 0 <= k < |a| :: (a + b)[k] == a[k];
    }
  }

  lemma NextKeeps(r: Round, s: State)
    requires Inv(r, s) && Enabled(r, s, NextBatch)
    ensures Inv(r, Step(r, s, NextBatch))
  {
    BatchEnded(r, s);
    var t := Step(r, s, NextBatch);
    forall j: nat | j < |t.status| ensures CallInv(r, t, j) { assert CallInv(r, s, j); }
  }

  lemma StepKeeps(r: Round, s: State, a: Action)
    requires Inv(r, s) && Enabled(r, s, a)
    ensures Inv(r, Step(r, s, a))
  {
    hide Inv, Step, Enabled;
    match a
    case Spawn => SpawnKeeps(r, s);
    case Acquire(i) => AcquireKeeps(r, s, i);
    case Finish(i) => FinishKeeps(r, s, i);
    case Release(i) => ReleaseKeeps(r, s, i);
    case Receive => ReceiveKeeps(r, s);
    case NextBatch => NextKeeps(r, s);
  }

  lemma {:induction false} RunKeeps(r: Round, s: State, actions: seq<Action>)
    requires Inv(r, s) && Run(r, s, actions).Some?
    ensures Inv(r, Run(r, s, actions).value)
    decreases |actions|
  {
    hide Inv, Step, Enabled;
    if actions != [] {
      StepKeeps(r, s, actions[0]);
      RunKeeps(r, Step(r, s, actions[0]), actions[1..]);
    }
  }

  // ---- what a round promises

  lemma ReachedInv(r: Round, actions: seq<Action>)
    requires IsRound(r) && Run(r, Begin(r), actions).Some?
    ensures Inv(r, Run(r, Begin(r), actions).value)
  {
    BeginInv(r);
    RunKeeps(r, Begin(r), actions);
  }

  /** An exclusive call shares its batch with no other. */
  lemma AloneInBatch(exclusive: seq<bool>, rest: seq<seq<nat>>, lo: nat, hi: nat, i: nat, j: nat)
    requires hi <= |exclusive| && rest != [] && Batches(exclusive, rest, lo, hi)
    requires i < |exclusive| && exclusive[i] && i != j
    ensures !(lo <= i < lo + |rest[0]| && lo <= j < lo + |rest[0]|)
  {
  }

  /** An exclusive call overlaps nothing, and sits between the calls before it, which have all
      ended, and those after it, none of which has begun. */
  lemma ExclusiveRunsAlone(r: Round, actions: seq<Action>, i: nat, j: nat)
    requires IsRound(r) && Run(r, Begin(r), actions).Some? && i < |r.calls| && j < |r.calls| && i != j
    requires r.exclusive[i]
    ensures var status := Run(r, Begin(r), actions).value.status;
            && |status| == |r.calls|
            && (status[i].Running? ==> if j < i then status[j].Ended() else status[j].Idle?)
            && (j > i && !status[j].Idle? ==> status[i].Ended())
            && (j < i && !status[j].Ended() ==> status[i].Idle?)
  {
    ReachedInv(r, actions);
    var s := Run(r, Begin(r), actions).value;
    assert CallInv(r, s, i) && CallInv(r, s, j);
    if s.rest != [] {
      AloneInBatch(r.exclusive, s.rest, s.lo, |r.calls|, i, j);
    }
  }

  function RunningSet(s: State): set<nat> {
    set i: nat | i < |s.status| && s.status[i].Running?
  }

  /** At most maxParallelTools calls run at once, when it is set. */
  lemma ParallelIsBounded(r: Round, actions: seq<Action>)
    requires IsRound(r) && Run(r, Begin(r), actions).Some? && r.maxParallel > 0
    ensures |RunningSet(Run(r, Begin(r), actions).value)| <= r.maxParallel
  {
    ReachedInv(r, actions);
    var s := Run(r, Begin(r), actions).value;
    forall i: nat | i < |s.status| && s.status[i].Running?
      ensures i in s.holding
    {
      assert CallInv(r, s, i);
    }
    SubsetSmaller(RunningSet(s), s.holding);
  }

  /** A finished round: one result and one result event per call, the results in call order with
      their calls' ids, whatever the order in which the calls ended. They are the results the
      agent loop appends. */
  lemma RoundHasEveryResult(r: Round, actions: seq<Action>, reply: Turns.Reply)
    requires IsRound(r) && Run(r, Begin(r), actions).Some? && Done(Run(r, Begin(r), actions).value)
    requires reply.Answered? && !reply.cut && reply.calls == r.calls && reply.tools == r.tools
    ensures var s := Run(r, Begin(r), actions).value;
            && |s.results| == |r.calls|
            && (forall i | 0 <= i < |r.calls| :: s.results[i] == Some(Turns.Round(reply)[1 + i]))
            && NoDuplicates(s.events) && |s.events| == |r.calls|
            && (forall i: nat | i < |r.calls| :: i in s.events)
  {
    ReachedInv(r, actions);
    var s := Run(r, Begin(r), actions).value;
    assert forall k | 0 <= k < |s.events| :: s.events[k] == (s.events + s.reports)[k];
    assert forall k | k in s.events :: k in s.events + s.reports;
    forall i: nat | i < |r.calls|
      ensures s.results[i] == Some(Turns.ResultMessage(r.calls[i], r.tools(i))) && i in s.events
    {
      assert CallInv(r, s, i);
      AllOfThem(s.events, |r.calls|, i);
    }
  }

  // ---- a round always finishes

  function Sum(status: seq<Status>): nat {
    if status == [] then 0 else Sum(status[..|status| - 1]) + status[|status| - 1].Left()
  }

  lemma {:induction false} SumUpdate(status: seq<Status>, i: nat, x: Status)
    requires i < |status|
    ensures Sum(status[i := x]) == Sum(status) - status[i].Left() + x.Left()
  {
    var last := |status| - 1;
    if i < last {
      assert status[i := x][..last] == status[..last][i := x];
      SumUpdate(status[..last], i, x);
    } else {
      assert status[i := x][..last] == status[..last];
    }
  }

  /** How many steps are left at most. */
  function Measure(s: State): nat {
    Sum(s.status) + |s.reports| + |s.rest|
  }

  lemma EveryStepIsProgress(r: Round, s: State, a: Action)
    requires Inv(r, s) && Enabled(r, s, a)
    ensures Measure(Step(r, s, a)) < Measure(s)
  {
    match a
    case Spawn =>
      var i := s.rest[0][s.spawned];
      assert CallInv(r, s, i) && i == s.lo + s.spawned;
      SumUpdate(s.status, i, Waiting);
    case Acquire(i) => SumUpdate(s.status, i, Running);
    case Finish(i) => SumUpdate(s.status, i, Finished);
    case Release(i) => SumUpdate(s.status, i, Exited);
    case Receive =>
    case NextBatch =>
  }

  /** Until the round is done some step can be taken: no call waits for a slot forever. */
  lemma NoDeadlock(r: Round, s: State) returns (a: Action)
    requires Inv(r, s) && !Done(s)
    ensures Enabled(r, s, a)
  {
    var size := |s.rest[0]|;
    if s.spawned < size {
      a := Spawn;
      assert s.rest[0][s.spawned] == s.lo + s.spawned;
    } else if s.received == size {
      a := NextBatch;
    } else if s.reports != [] {
      a := Receive;
    } else {
      var i := Unreported(r, s);
      assert CallInv(r, s, i);
      if s.status[i].Running? {
        a := Finish(i);
      } else if r.maxParallel > 0 && |s.holding| >= r.maxParallel {
        assert s.holding != {};
        var h :| h in s.holding;
        assert CallInv(r, s, h);
        a := if s.status[h].Running? then Finish(h) else Release(h);
      } else {
        a := Acquire(i);
      }
    }
  }

  /** A call of the batch the caller has no report for. */
  lemma Unreported(r: Round, s: State) returns (i: nat)
    requires Inv(r, s) && !Done(s) && s.spawned == |s.rest[0]| && s.received < s.spawned && s.reports == []
    ensures i < |s.status| && (s.status[i].Waiting? || s.status[i].Running?)
  {
    var n := s.lo + s.spawned;
    if forall i: nat | i < n :: i in s.events {
      assert s.events + s.reports == s.events;
      CountElements(s.events);
      SubsetSmaller(Nats(n), Elements(s.events));
    }
    i :| i < n && i !in s.events;
    assert CallInv(r, s, i);
  }

  /** Whatever happened so far, the round can be finished, and no run of it is longer than the
      measure it begins with. */
  lemma RoundCompletes(r: Round, s: State) returns (rest: seq<Action>)
    requires Inv(r, s)
    ensures Run(r, s, rest).Some? && Done(Run(r, s, rest).value)
    decreases Measure(s)
  {
    hide Inv, Enabled, Step, Measure;
    if Done(s) {
      rest := [];
    } else {
      var a := NoDeadlock(r, s);
      EveryStepIsProgress(r, s, a);
      StepKeeps(r, s, a);
      var more := RoundCompletes(r, Step(r, s, a));
      rest := [a] + more;
      assert rest[1..] == more;
    }
  }

  // ---- calls do run at once

  lemma {:induction false} RunConcat(r: Round, s: State, a: seq<Action>, b: seq<Action>)
    requires Run(r, s, a).Some?
    ensures Run(r, s, a + b) == Run(r, Run(r, s, a).value, b)
    decreases |a|
  {
    hide Enabled, Step;
    if a == [] {
      assert a + b == b;
    } else {
      assert (a + b)[1..] == a[1..] + b;
      RunConcat(r, Step(r, s, a[0]), a[1..], b);
    }
  }

  /** Call `i` is in the current batch. */
  predicate InBatch(s: State, i: nat) {
    s.rest != [] && s.lo <= i < s.lo + |s.rest[0]|
  }

  /** Every schedule can be taken on to where the batch of a call not begun is the current one, and no
      call of it has begun. */
  lemma ReachBatch(r: Round, s: State, i: nat) returns (actions: seq<Action>)
    requires Inv(r, s) && s.lo <= i < |r.calls| && (InBatch(s, i) ==> s.spawned == 0)
    ensures Run(r, s, actions).Some?
    ensures var t := Run(r, s, actions).value; Inv(r, t) && InBatch(t, i) && t.spawned == 0
    decreases Measure(s)
  {
    if InBatch(s, i) {
      actions := [];
    } else {
      var a := NoDeadlock(r, s);
      EveryStepIsProgress(r, s, a);
      StepKeeps(r, s, a);
      hide Inv, Measure, Enabled;
      var more := ReachBatch(r, Step(r, s, a), i);
      actions := [a] + more;
      assert actions[1..] == more;
    }
  }

  /** The calls from `lo` to `hi` are at `status`. */
  predicate AllAt(s: State, lo: nat, hi: nat, status: Status) {
    forall i: nat | lo <= i < hi :: IsAt(s, i, status)
  }

  lemma SpawnAll(r: Round, s: State) returns (actions: seq<Action>)
    requires Inv(r, s) && !Done(s) && AllAt(s, s.lo, s.lo + s.spawned, Waiting) && s.holding == {}
    ensures Run(r, s, actions).Some?
    ensures var t := Run(r, s, actions).value;
            Inv(r, t) && AllAt(t, s.lo, s.lo + |s.rest[0]|, Waiting) && t.holding == {}
    decreases |s.rest[0]| - s.spawned
  {
    if s.spawned == |s.rest[0]| {
      actions := [];
    } else {
      assert s.rest[0][s.spawned] == s.lo + s.spawned;
      SpawnKeeps(r, s);
      var t := Step(r, s, Spawn);
      forall i: nat | t.lo <= i < t.lo + t.spawned
        ensures IsAt(t, i, Waiting)
      {
        assert i < s.lo + s.spawned ==> IsAt(s, i, Waiting);
      }
      hide Inv;
      var more := SpawnAll(r, t);
      actions := [Spawn] + more;
      assert actions[1..] == more;
    }
  }

  lemma AcquireAll(r: Round, s: State, lo: nat, hi: nat) returns (actions: seq<Action>)
    requires lo <= hi && AllAt(s, lo, hi, Waiting)
    requires r.maxParallel > 0 ==> |s.holding| + hi - lo <= r.maxParallel
    ensures Run(r, s, actions).Some?
    ensures var t := Run(r, s, actions).value;
            && |t.status| == |s.status| && AllAt(t, lo, hi, Running)
            && forall i: nat | i < |s.status| && !(lo <= i < hi) :: t.status[i] == s.status[i]
    decreases hi - lo
  {
    if lo == hi {
      actions := [];
    } else {
      assert IsAt(s, lo, Waiting);
      var t := Step(r, s, Acquire(lo));
      forall i: nat | lo < i < hi
        ensures IsAt(t, i, Waiting)
      {
        assert IsAt(s, i, Waiting);
      }
      var more := AcquireAll(r, t, lo + 1, hi);
      actions := [Acquire(lo)] + more;
      assert actions[1..] == more;
    }
  }

  /** Calls in a row that share a batch hold all of it that is theirs: the batch does not end among
      them. */
  lemma SharedTogether(r: Round, s: State, lo: nat, hi: nat)
    requires Inv(r, s) && lo < hi <= |r.calls| && InBatch(s, lo)
    requires forall i | lo <= i < hi :: !r.exclusive[i]
    ensures hi <= s.lo + |s.rest[0]|
  {
    var end := s.lo + |s.rest[0]|;
    assert end < |r.calls| ==> r.exclusive[end - 1] || r.exclusive[end];
  }

  /** Calls in a row that are not exclusive do all run at the same time, in some schedule, as far as
      maxParallelTools lets them. */
  lemma ParallelIsReached(r: Round, lo: nat, hi: nat) returns (actions: seq<Action>)
    requires IsRound(r) && lo < hi <= |r.calls| && (r.maxParallel > 0 ==> hi - lo <= r.maxParallel)
    requires forall i | lo <= i < hi :: !r.exclusive[i]
    ensures Run(r, Begin(r), actions).Some? && AllAt(Run(r, Begin(r), actions).value, lo, hi, Running)
  {
    BeginInv(r);
    var before := ReachBatch(r, Begin(r), lo);
    var s := Run(r, Begin(r), before).value;
    NoneHeld(r, s);
    SharedTogether(r, s, lo, hi);
    hide Inv, Batches;
    var spawns := SpawnAll(r, s);
    var t := Run(r, s, spawns).value;
    assert AllAt(t, lo, hi, Waiting);
    var acquires := AcquireAll(r, t, lo, hi);
    RunConcat(r, s, spawns, acquires);
    RunConcat(r, Begin(r), before, spawns + acquires);
    actions := before + (spawns + acquires);
  }

  lemma NoneHeld(r: Round, s: State)
    requires Inv(r, s) && s.spawned == 0
    ensures s.holding == {}
  {
    forall i | i in s.holding
      ensures s.lo <= i < s.lo + s.spawned
    {
      HeldIsSpawned(r, s, i);
    }
  }

  lemma HeldIsSpawned(r: Round, s: State, i: nat)
    requires Inv(r, s) && i in s.holding
    ensures s.lo <= i < s.lo + s.spawned
  {
    assert CallInv(r, s, i);
  }

  // ---- and the round ends

  lemma {:induction false} RunsAreBounded(r: Round, s: State, actions: seq<Action>)
    requires Inv(r, s) && Run(r, s, actions).Some?
    ensures |actions| + Measure(Run(r, s, actions).value) <= Measure(s)
    decreases |actions|
  {
    hide Inv, Enabled, Step, Measure;
    if actions != [] {
      EveryStepIsProgress(r, s, actions[0]);
      StepKeeps(r, s, actions[0]);
      RunsAreBounded(r, Step(r, s, actions[0]), actions[1..]);
    }
  }
}
