/** Rolling totals up a tree of spans (trace/span.go), for any interleaving of the ends: an end
    marks the span under its own lock, and only later adds it to its parent under the parent's. */
module Spans {
  import opened Messages
  import opened TraceTotals

  /** What a span's lock guards, with what it was started with. */
  datatype SpanValue = SpanValue(
    payload: Payload, agent: string, ended: bool, duration: int, failed: bool, totals: Sums)
  {
    function OwnTotals(): Sums {
      Own(payload, agent, duration, failed)
    }

    function Ended(duration: int, failed: bool): SpanValue {
      if ended then this else this.(ended := true, duration := duration, failed := failed)
    }

    /** With the ended child `c` rolled up; a span that has ended takes no more. */
    function WithChild(c: SpanValue): SpanValue {
      if ended then this else this.(totals := Added(Added(totals, c.totals), c.OwnTotals()))
    }

    /** Its descendants' totals and, once it has ended, its own. */
    function Reported(): Sums {
      if ended then Added(totals, OwnTotals()) else totals
    }
  }

  function AgentOf(payload: Payload, parent: Option<string>): string {
    if payload.RunPayload? then payload.agent else if parent.Some? then parent.value else ""
  }

  class Span {
    const parent: Span?
    const payload: Payload
    const agent: string
    const totals: Totals
    var ended: bool
    var duration: int
    var failed: bool

    function Value(): SpanValue
      reads this, totals
    {
      SpanValue(payload, agent, ended, duration, failed, totals.Value())
    }

    constructor (parent: Span?, payload: Payload)
      ensures this.parent == parent && fresh(totals)
      ensures Value() == SpanValue(payload, AgentOf(payload, if parent == null then None else Some(parent.agent)),
                                   false, 0, false, ZERO)
    {
      this.parent, this.payload := parent, payload;
      agent := AgentOf(payload, if parent == null then None else Some(parent.agent));
      totals := new Totals();
      ended, duration, failed := false, 0, false;
    }

    /** Finishes the span; later calls change nothing. */
    method End(failed: bool, duration: int)
      requires parent != null ==> parent != this && parent.totals != totals
      modifies this, if parent != null then {parent.totals} else {}
      ensures Value() == old(Value()).Ended(duration, failed)
      ensures parent != null ==>
                parent.Value() == if old(ended) then old(parent.Value()) else old(parent.Value()).WithChild(Value())
    {
      if ended {
        return;
      }
      ended, this.duration, this.failed := true, duration, failed;
      if parent != null {
        parent.AddChild(this);
      }
    }

    method AddChild(c: Span)
      requires c != this && c.totals != totals
      modifies totals
      ensures Value() == old(Value()).WithChild(c.Value())
    {
      if ended {
        return;
      }
      totals.Add(c.totals);
      totals.AddOwn(c.payload, c.agent, c.duration, c.failed);
    }

    method Report() returns (t: Totals)
      ensures fresh(t) && t.Value() == Value().Reported()
    {
      t := totals.Clone();
      if ended {
        t.AddOwn(payload, agent, duration, failed);
      }
    }
  }

  // ---- any interleaving

  /** Open, ended but not yet given to its parent, or given: the parent took it or had ended. */
  datatype Phase = Open | Ending | Given(taken: bool)

  datatype Node = Node(parent: Option<nat>, span: SpanValue, phase: Phase)

  datatype Action =
    | Start(parent: Option<nat>, payload: Payload)
    | MarkEnded(i: nat, duration: int, failed: bool)
    | Give(i: nat)

  predicate Enabled(s: seq<Node>, a: Action) {
    match a
    case Start(parent, _) => parent.Some? ==> parent.value < |s|
    case MarkEnded(i, _, _) => i < |s| && s[i].phase.Open?
    case Give(i) => i < |s| && s[i].phase.Ending? && (s[i].parent.Some? ==> s[i].parent.value < i)
  }

  function Step(s: seq<Node>, a: Action): seq<Node>
    requires Enabled(s, a)
  {
    match a
    case Start(parent, payload) =>
      var inherited := if parent.Some? then Some(s[parent.value].span.agent) else None;
      s + [Node(parent, SpanValue(payload, AgentOf(payload, inherited), false, 0, false, ZERO), Open)]
    case MarkEnded(i, duration, failed) =>
      s[i := s[i].(span := s[i].span.Ended(duration, failed), phase := Ending)]
    case Give(i) =>
      match s[i].parent
      case None => s[i := s[i].(phase := Given(false))]
      case Some(p) =>
        s[i := s[i].(phase := Given(!s[p].span.ended))][p := s[p].(span := s[p].span.WithChild(s[i].span))]
  }

  function Run(s: seq<Node>, actions: seq<Action>): Option<seq<Node>>
    decreases |actions|
  {
    if actions == [] then Some(s)
    else if !Enabled(s, actions[0]) then None
    else Run(Step(s, actions[0]), actions[1..])
  }

  /** `j` descends from `i`. */
  predicate Below(s: seq<Node>, j: nat, i: nat)
    requires Tree(s) && j < |s|
    decreases j
  {
    s[j].parent.Some? && (s[j].parent.value == i || Below(s, s[j].parent.value, i))
  }

  /** Every span on the way from `j` up to `i`, `i` left out, was taken by its parent. */
  predicate Reached(s: seq<Node>, j: nat, i: nat)
    requires Tree(s) && j < |s|
    decreases j
  {
    s[j].parent.Some? && s[j].phase == Given(true) && (s[j].parent.value == i || Reached(s, s[j].parent.value, i))
  }

  predicate Tree(s: seq<Node>) {
    forall i | 0 <= i < |s| && s[i].parent.Some? :: s[i].parent.value < i
  }

  function ReachedSet(s: seq<Node>, i: nat): set<nat>
    requires Tree(s)
  {
    set j: nat | j < |s| && Reached(s, j, i)
  }

  function BelowSet(s: seq<Node>, i: nat): set<nat>
    requires Tree(s)
  {
    set j: nat | j < |s| && Below(s, j, i)
  }

  /** The sum of the spans in `who`, each counted once. */
  function SumOver(s: seq<Node>, who: set<nat>, n: nat): Sums
    requires n <= |s|
  {
    if n == 0 then ZERO
    else if n - 1 in who then Added(SumOver(s, who, n - 1), s[n - 1].span.OwnTotals())
    else SumOver(s, who, n - 1)
  }

  lemma {:induction false} SumSame(s: seq<Node>, t: seq<Node>, who: set<nat>, n: nat)
    requires n <= |s| && n <= |t|
    requires forall j | 0 <= j < n && j in who :: t[j].span.OwnTotals() == s[j].span.OwnTotals()
    ensures SumOver(s, who, n) == SumOver(t, who, n)
  {
    hide Added;
    if n > 0 {
      SumSame(s, t, who, n - 1);
    }
  }

  lemma {:induction false} SumDisjoint(s: seq<Node>, a: set<nat>, b: set<nat>, n: nat)
    requires n <= |s| && a !! b
    ensures SumOver(s, a + b, n) == Added(SumOver(s, a, n), SumOver(s, b, n))
  {
    if n == 0 {
      AddedNothing(ZERO);
    } else {
      hide Added;
      SumDisjoint(s, a, b, n - 1);
      var left, right, own := SumOver(s, a, n - 1), SumOver(s, b, n - 1), s[n - 1].span.OwnTotals();
      AddedAssociates(left, right, own);
      AddedAssociates(left, own, right);
      AddedCommutes(right, own);
    }
  }

  lemma {:induction false} SumNone(s: seq<Node>, who: set<nat>, n: nat)
    requires n <= |s| && forall j | 0 <= j < n :: j !in who
    ensures SumOver(s, who, n) == ZERO
  {
    if n > 0 {
      SumNone(s, who, n - 1);
    }
  }

  lemma {:induction false} SumOne(s: seq<Node>, i: nat, n: nat)
    requires i < n <= |s|
    ensures SumOver(s, {i}, n) == s[i].span.OwnTotals()
  {
    hide Added, Own;
    if n - 1 == i {
      SumNone(s, {i}, n - 1);
      AddedNothing(s[i].span.OwnTotals());
    } else {
      SumOne(s, i, n - 1);
    }
  }

  // ---- what every step keeps

  ghost predicate Adds(s: seq<Node>, i: nat)
    requires Tree(s) && i < |s|
  {
    s[i].span.totals == SumOver(s, ReachedSet(s, i), |s|)
  }

  ghost predicate Inv(s: seq<Node>) {
    && Tree(s)
    && (forall i: nat | i < |s| :: s[i].span.ended <==> !s[i].phase.Open?)
    && (forall i: nat | i < |s| :: Adds(s, i))
  }

  /** Steps that do not give a span to a parent that takes it change nothing that was reached. */
  lemma {:induction false} ReachedSame(s: seq<Node>, t: seq<Node>, j: nat, i: nat)
    requires Tree(s) && Tree(t) && j < |s| && j < |t|
    requires forall k | 0 <= k <= j ::
               s[k].parent == t[k].parent && (s[k].phase == Given(true) <==> t[k].phase == Given(true))
    ensures Reached(s, j, i) == Reached(t, j, i)
    decreases j
  {
    if s[j].parent.Some? {
      ReachedSame(s, t, s[j].parent.value, i);
    }
  }

  lemma AddsSame(s: seq<Node>, t: seq<Node>, i: nat)
    requires Tree(s) && Tree(t) && i < |s| == |t| && Adds(s, i)
    requires t[i].span.totals == s[i].span.totals
    requires forall k | 0 <= k < |s| ::
               s[k].parent == t[k].parent && (s[k].phase == Given(true) <==> t[k].phase == Given(true))
    requires forall k | 0 <= k < |s| && s[k].phase == Given(true) :: t[k].span.OwnTotals() == s[k].span.OwnTotals()
    ensures Adds(t, i)
  {
    forall j: nat | j < |s|
      ensures Reached(s, j, i) == Reached(t, j, i)
    {
      ReachedSame(s, t, j, i);
    }
    assert ReachedSet(s, i) == ReachedSet(t, i);
    SumSame(s, t, ReachedSet(s, i), |s|);
  }

  lemma StartKeeps(s: seq<Node>, parent: Option<nat>, payload: Payload)
    requires Inv(s) && Enabled(s, Start(parent, payload))
    ensures Inv(Step(s, Start(parent, payload)))
  {
    var t := Step(s, Start(parent, payload));
    var n := |s|;
    forall i: nat | i < n
      ensures Adds(t, i)
    {
      forall j: nat | j < n
        ensures Reached(s, j, i) == Reached(t, j, i)
      {
        ReachedSame(s, t, j, i);
      }
      assert !Reached(t, n, i);
      assert ReachedSet(s, i) == ReachedSet(t, i);
      SumSame(s, t, ReachedSet(s, i), n);
      assert Adds(s, i);
    }
    forall j: nat | j < |t|
      ensures !Reached(t, j, n)
    {
      NotReachedFromAbove(t, j, n);
    }
    SumNone(t, ReachedSet(t, n), |t|);
  }

  lemma {:induction false} NotReachedFromAbove(s: seq<Node>, j: nat, i: nat)
    requires Tree(s) && j < |s| && j <= i
    ensures !Reached(s, j, i) && !Below(s, j, i)
    decreases j
  {
    if s[j].parent.Some? {
      NotReachedFromAbove(s, s[j].parent.value, i);
    }
  }

  lemma MarkKeeps(s: seq<Node>, i: nat, duration: int, failed: bool)
    requires Inv(s) && Enabled(s, MarkEnded(i, duration, failed))
    ensures Inv(Step(s, MarkEnded(i, duration, failed)))
  {
    hide Own;
    var t := Step(s, MarkEnded(i, duration, failed));
    forall a: nat | a < |s|
      ensures Adds(t, a)
    {
      AddsSame(s, t, a);
    }
  }

  /** A span that is not taken changes nothing. */
  lemma NotTakenKeeps(s: seq<Node>, i: nat)
    requires Inv(s) && Enabled(s, Give(i)) && (s[i].parent.Some? ==> s[s[i].parent.value].span.ended)
    ensures Inv(Step(s, Give(i)))
  {
    hide Own;
    var t := Step(s, Give(i));
    forall a: nat | a < |s|
      ensures Adds(t, a)
    {
      AddsSame(s, t, a);
    }
  }

  /** What is reached once `p`, which has not ended, takes `i`. */
  lemma {:induction false} ReachedWhenTaken(s: seq<Node>, t: seq<Node>, i: nat, p: nat, j: nat, a: nat)
    requires Tree(s) && Tree(t) && |s| == |t| && i < |s| && j < |s|
    requires s[i].parent == Some(p) && s[i].phase == Ending && t[i].phase == Given(true)
    requires forall k | 0 <= k < |s| :: s[k].parent == t[k].parent && (k != i ==> s[k].phase == t[k].phase)
    requires !s[p].phase.Given?
    ensures Reached(t, j, a) <==> Reached(s, j, a) || (a == p && (j == i || Reached(s, j, i)))
    ensures !(Reached(s, j, p) && (j == i || Reached(s, j, i)))
    decreases j
  {
    assert p != i;
    if s[j].parent.Some? {
      ReachedWhenTaken(s, t, i, p, s[j].parent.value, a);
    }
  }

  lemma TakenKeepsOne(s: seq<Node>, i: nat, p: nat, a: nat)
    requires Inv(s) && Enabled(s, Give(i)) && s[i].parent == Some(p) && !s[p].span.ended && a < |s|
    ensures Adds(Step(s, Give(i)), a)
  {
    hide Own, Added;
    var t := Step(s, Give(i));
    forall j: nat | j < |s|
      ensures Reached(t, j, a) <==> Reached(s, j, a) || (a == p && (j == i || Reached(s, j, i)))
      ensures !(Reached(s, j, p) && (j == i || Reached(s, j, i)))
    {
      ReachedWhenTaken(s, t, i, p, j, a);
    }
    assert forall k | 0 <= k < |s| :: t[k].span.OwnTotals() == s[k].span.OwnTotals();
    if a == p {
      var before, under := ReachedSet(s, p), ReachedSet(s, i);
      NotReachedFromAbove(s, i, i);
      assert ReachedSet(t, p) == before + (under + {i});
      SumDisjoint(t, before, under + {i}, |s|);
      SumDisjoint(t, under, {i}, |s|);
      SumOne(t, i, |s|);
      SumSame(s, t, before, |s|);
      SumSame(s, t, under, |s|);
      AddedAssociates(s[p].span.totals, s[i].span.totals, s[i].span.OwnTotals());
      assert Adds(s, p) && Adds(s, i);
    } else {
      assert ReachedSet(t, a) == ReachedSet(s, a);
      SumSame(s, t, ReachedSet(s, a), |s|);
      assert Adds(s, a);
    }
  }

  lemma StepKeeps(s: seq<Node>, a: Action)
    requires Inv(s) && Enabled(s, a)
    ensures Inv(Step(s, a))
  {
    match a
    case Start(parent, payload) => StartKeeps(s, parent, payload);
    case MarkEnded(i, duration, failed) => MarkKeeps(s, i, duration, failed);
    case Give(i) =>
      if s[i].parent.Some? && !s[s[i].parent.value].span.ended {
        forall k: nat | k < |s| ensures Adds(Step(s, a), k) { TakenKeepsOne(s, i, s[i].parent.value, k); }
      } else {
        NotTakenKeeps(s, i);
      }
  }

  lemma {:induction false} RunKeeps(s: seq<Node>, actions: seq<Action>)
    requires Inv(s) && Run(s, actions).Some?
    ensures Inv(Run(s, actions).value)
    decreases |actions|
  {
    hide Inv, Step;
    if actions != [] {
      StepKeeps(s, actions[0]);
      RunKeeps(Step(s, actions[0]), actions[1..]);
    }
  }

  // ---- what totals promise

  /** In any interleaving, a span reports each descendant that reached it exactly once, itself
      once it has ended, and nothing else. */
  lemma ReportsEachOnce(actions: seq<Action>, i: nat)
    requires Run([], actions).Some? && i < |Run([], actions).value|
    ensures var s := Run([], actions).value;
            && Tree(s)
            && s[i].span.Reported() ==
               SumOver(s, ReachedSet(s, i) + if s[i].span.ended then {i} else {}, |s|)
            && ReachedSet(s, i) <= BelowSet(s, i)
            && i !in BelowSet(s, i)
  {
    RunKeeps([], actions);
    var s := Run([], actions).value;
    assert Adds(s, i);
    NotReachedFromAbove(s, i, i);
    forall j: nat | j < |s| && Reached(s, j, i)
      ensures Below(s, j, i)
    {
      ReachedIsBelow(s, j, i);
    }
    if s[i].span.ended {
      SumDisjoint(s, ReachedSet(s, i), {i}, |s|);
      SumOne(s, i, |s|);
    } else {
      assert ReachedSet(s, i) + {} == ReachedSet(s, i);
    }
  }

  lemma {:induction false} ReachedIsBelow(s: seq<Node>, j: nat, i: nat)
    requires Tree(s) && j < |s| && Reached(s, j, i)
    ensures Below(s, j, i)
    decreases j
  {
    if s[j].parent.value != i {
      ReachedIsBelow(s, s[j].parent.value, i);
    }
  }

  /** A span reports its whole subtree exactly when each descendant was taken by its parent, that
      is, when none was given to a parent that had ended. */
  lemma ReportsAllExactly(s: seq<Node>, i: nat)
    requires Tree(s) && i < |s|
    ensures ReachedSet(s, i) == BelowSet(s, i) <==>
            forall j: nat | j < |s| && Below(s, j, i) :: s[j].phase == Given(true)
  {
    forall j: nat | j < |s| && Reached(s, j, i)
      ensures Below(s, j, i)
    {
      ReachedIsBelow(s, j, i);
    }
    if forall j: nat | j < |s| && Below(s, j, i) :: s[j].phase == Given(true) {
      forall j: nat | j < |s| && Below(s, j, i)
        ensures Reached(s, j, i)
      {
        BelowIsReached(s, j, i);
      }
    } else {
      var j: nat :| j < |s| && Below(s, j, i) && s[j].phase != Given(true);
      assert j in BelowSet(s, i) && j !in ReachedSet(s, i);
    }
  }

  lemma {:induction false} BelowIsReached(s: seq<Node>, j: nat, i: nat)
    requires Tree(s) && j < |s| && Below(s, j, i)
    requires forall k: nat | k < |s| && Below(s, k, i) :: s[k].phase == Given(true)
    ensures Reached(s, j, i)
    decreases j
  {
    if s[j].parent.value != i {
      BelowIsReached(s, s[j].parent.value, i);
    }
  }

  /** Every child of `i` was taken. */
  predicate ChildrenTaken(s: seq<Node>, i: nat) {
    forall j | 0 <= j < |s| && s[j].parent == Some(i) :: s[j].phase == Given(true)
  }

  /** A step of a well-nested program: no span ends before its children are given to it, and
      none starts under a span that has ended. */
  predicate NestedStep(s: seq<Node>, a: Action) {
    match a
    case Start(parent, _) => parent.Some? && parent.value < |s| ==> !s[parent.value].span.ended
    case MarkEnded(i, _, _) => ChildrenTaken(s, i)
    case Give(_) => true
  }

  predicate NestedRun(s: seq<Node>, actions: seq<Action>)
    decreases |actions|
  {
    actions == [] ||
    (NestedStep(s, actions[0]) && (Enabled(s, actions[0]) ==> NestedRun(Step(s, actions[0]), actions[1..])))
  }

  predicate Nested(s: seq<Node>) {
    forall i | 0 <= i < |s| && s[i].span.ended :: ChildrenTaken(s, i)
  }

  lemma NestedKeeps(s: seq<Node>, a: Action)
    requires Inv(s) && Nested(s) && NestedStep(s, a) && Enabled(s, a)
    ensures Nested(Step(s, a))
  {
    hide Added, Own, Adds;
    var t := Step(s, a);
    forall i, j | 0 <= i < |t| && t[i].span.ended && 0 <= j < |t| && t[j].parent == Some(i)
      ensures t[j].phase == Given(true)
    {
      if i < |s| && j < |s| {
        assert s[j].parent == Some(i);
      }
    }
  }

  lemma {:induction false} NestedRunKeeps(s: seq<Node>, actions: seq<Action>)
    requires Inv(s) && Nested(s) && Run(s, actions).Some? && NestedRun(s, actions)
    ensures Nested(Run(s, actions).value)
    decreases |actions|
  {
    hide Inv, Step, Nested;
    if actions != [] {
      StepKeeps(s, actions[0]);
      NestedKeeps(s, actions[0]);
      NestedRunKeeps(Step(s, actions[0]), actions[1..]);
    }
  }

  /** In a well-nested tree a span that has ended reports exactly its whole subtree. */
  lemma NestedReportsAll(actions: seq<Action>, i: nat)
    requires Run([], actions).Some? && NestedRun([], actions)
    requires i < |Run([], actions).value| && Run([], actions).value[i].span.ended
    ensures var s := Run([], actions).value;
            Tree(s) && s[i].span.Reported() == SumOver(s, BelowSet(s, i) + {i}, |s|)
  {
    var s := Run([], actions).value;
    RunKeeps([], actions);
    NestedRunKeeps([], actions);
    forall j: nat | j < |s| && Below(s, j, i)
      ensures s[j].phase == Given(true)
    {
      BelowIsTaken(s, j, i);
    }
    ReportsAllExactly(s, i);
    ReportsEachOnce(actions, i);
  }

  lemma {:induction false} BelowIsTaken(s: seq<Node>, j: nat, i: nat)
    requires Inv(s) && Nested(s) && j < |s| && i < |s| && Below(s, j, i) && s[i].span.ended
    ensures s[j].phase == Given(true)
    decreases j
  {
    var p := s[j].parent.value;
    if p != i {
      BelowIsTaken(s, p, i);
    }
    assert ChildrenTaken(s, p);
  }

  /** In every report the counts and the usage equal the sums of the tables. */
  lemma ReportIsConsistent(actions: seq<Action>, i: nat)
    requires Run([], actions).Some? && i < |Run([], actions).value|
    ensures Consistent(Run([], actions).value[i].span.Reported())
  {
    var s := Run([], actions).value;
    ReportsEachOnce(actions, i);
    SumConsistent(s, ReachedSet(s, i) + if s[i].span.ended then {i} else {}, |s|);
  }

  lemma {:induction false} SumConsistent(s: seq<Node>, who: set<nat>, n: nat)
    requires n <= |s|
    ensures Consistent(SumOver(s, who, n))
  {
    hide Added, Own, Consistent;
    OwnConsistent(Custom, "", 0, false);
    if n > 0 {
      var c := s[n - 1].span;
      OwnConsistent(c.payload, c.agent, c.duration, c.failed);
      SumConsistent(s, who, n - 1);
      AddedConsistent(SumOver(s, who, n - 1), c.OwnTotals());
    }
  }

  // ---- under whose name a span is counted

  /** The agent of the nearest run at or above the span; no name outside of any run. */
  function NearestRun(s: seq<Node>, i: nat): string
    requires Tree(s) && i < |s|
    decreases i
  {
    if s[i].span.payload.RunPayload? then s[i].span.payload.agent
    else if s[i].parent.None? then ""
    else NearestRun(s, s[i].parent.value)
  }

  predicate Inherits(s: seq<Node>)
    requires Tree(s)
  {
    forall i: nat | i < |s| ::
      s[i].span.agent == AgentOf(s[i].span.payload,
                                 if s[i].parent.None? then None else Some(s[s[i].parent.value].span.agent))
  }

  lemma StepInherits(s: seq<Node>, a: Action)
    requires Tree(s) && Inherits(s) && Enabled(s, a)
    ensures Tree(Step(s, a)) && Inherits(Step(s, a))
  {
    hide Added, Own, AgentOf;
    var t := Step(s, a);
    assert forall i: nat | i < |s| ::
      t[i].parent == s[i].parent && t[i].span.payload == s[i].span.payload && t[i].span.agent == s[i].span.agent;
  }

  lemma {:induction false} RunInherits(s: seq<Node>, actions: seq<Action>)
    requires Tree(s) && Inherits(s) && Run(s, actions).Some?
    ensures Tree(Run(s, actions).value) && Inherits(Run(s, actions).value)
    decreases |actions|
  {
    hide Inherits, Tree, Step, Enabled;
    if actions != [] {
      StepInherits(s, actions[0]);
      RunInherits(Step(s, actions[0]), actions[1..]);
    }
  }

  lemma {:induction false} InheritsNearest(s: seq<Node>, i: nat)
    requires Tree(s) && Inherits(s) && i < |s|
    ensures s[i].span.agent == NearestRun(s, i)
    decreases i
  {
    if s[i].parent.Some? {
      InheritsNearest(s, s[i].parent.value);
    }
  }

  /** Whatever happened, a span counts for the agent of the nearest run around it. */
  lemma CountsForNearestRun(actions: seq<Action>, i: nat)
    requires Run([], actions).Some? && i < |Run([], actions).value|
    ensures Tree(Run([], actions).value)
    ensures Run([], actions).value[i].span.agent == NearestRun(Run([], actions).value, i)
  {
    RunInherits([], actions);
    InheritsNearest(Run([], actions).value, i);
  }

  /** The first end is the one that counts: its duration and outcome are kept whatever follows. */
  lemma FirstEndCounts(span: SpanValue, duration: int, failed: bool, later: int, again: bool, child: SpanValue)
    requires !span.ended
    ensures var done := span.Ended(duration, failed);
            && done.ended && done.duration == duration && done.failed == failed
            && done.payload == span.payload && done.agent == span.agent && done.totals == span.totals
            && done.Ended(later, again) == done && done.WithChild(child) == done
            && done.Reported() == Added(span.totals, Own(span.payload, span.agent, duration, failed))
  {
    hide Added, Own;
  }
}
