/** What a span adds up (trace/totals.go): counters, usage, and a table per model, agent and
    tool. Costs and durations are integers. */
module TraceTotals {

  datatype Usage = Usage(input: int, output: int, cacheRead: int, cacheWrite: int, reasoning: int, cost: int) {
    function Plus(o: Usage): Usage {
      Usage(input + o.input, output + o.output, cacheRead + o.cacheRead, cacheWrite + o.cacheWrite,
            reasoning + o.reasoning, cost + o.cost)
    }
  }

  const NO_USAGE: Usage := Usage(0, 0, 0, 0, 0, 0)

  datatype ModelTotals = ModelTotals(calls: int, usage: Usage)

  datatype AgentTotals = AgentTotals(runs: int, llmCalls: int, toolCalls: int, toolErrors: int, usage: Usage)

  datatype ToolTotals = ToolTotals(calls: int, errors: int, duration: int)

  function PlusModel(a: ModelTotals, b: ModelTotals): ModelTotals {
    ModelTotals(a.calls + b.calls, a.usage.Plus(b.usage))
  }

  function PlusAgent(a: AgentTotals, b: AgentTotals): AgentTotals {
    AgentTotals(a.runs + b.runs, a.llmCalls + b.llmCalls, a.toolCalls + b.toolCalls,
                a.toolErrors + b.toolErrors, a.usage.Plus(b.usage))
  }

  function PlusTool(a: ToolTotals, b: ToolTotals): ToolTotals {
    ToolTotals(a.calls + b.calls, a.errors + b.errors, a.duration + b.duration)
  }

  /** Two tables added entry by entry. */
  function Merged<T>(a: map<string, T>, b: map<string, T>, plus: (T, T) -> T): map<string, T> {
    map k | k in a.Keys + b.Keys ::
      if k !in b then a[k] else if k !in a then b[k] else plus(a[k], b[k])
  }

  /** The counters and times of a Totals. */
  datatype Counters = Counters(
    agentRuns: int, llmCalls: int, toolCalls: int, toolErrors: int, memoryRetrieved: int, memorySaved: int,
    usage: Usage, llmTime: int, toolTime: int, memoryTime: int)
  {
    function Plus(o: Counters): Counters {
      Counters(agentRuns + o.agentRuns, llmCalls + o.llmCalls, toolCalls + o.toolCalls, toolErrors + o.toolErrors,
               memoryRetrieved + o.memoryRetrieved, memorySaved + o.memorySaved, usage.Plus(o.usage),
               llmTime + o.llmTime, toolTime + o.toolTime, memoryTime + o.memoryTime)
    }
  }

  const NOTHING: Counters := Counters(0, 0, 0, 0, 0, 0, NO_USAGE, 0, 0, 0)

  datatype Sums = Sums(
    counters: Counters, byModel: map<string, ModelTotals>, byAgent: map<string, AgentTotals>,
    byTool: map<string, ToolTotals>)

  const ZERO: Sums := Sums(NOTHING, map[], map[], map[])

  function Added(a: Sums, b: Sums): Sums {
    Sums(a.counters.Plus(b.counters), Merged(a.byModel, b.byModel, PlusModel),
         Merged(a.byAgent, b.byAgent, PlusAgent), Merged(a.byTool, b.byTool, PlusTool))
  }

  // ---- what one span contributes

  datatype MemoryOp = MemoryRetrieve | MemorySave | MemoryCompact | MemorySnapshot

  datatype Payload =
    | RunPayload(agent: string)
    | LLMCall(requestModel: string, responseModel: string, usage: Usage)
    | ToolCall(name: string)
    | Memory(op: MemoryOp, count: int)
    | Custom

  const UNKNOWN_MODEL := "unknown"

  function ModelOf(requestModel: string, responseModel: string): string {
    if responseModel != "" then responseModel else if requestModel != "" then requestModel else UNKNOWN_MODEL
  }

  /** What one span contributes by itself. */
  function Own(payload: Payload, agent: string, duration: int, failed: bool): Sums {
    match payload
    case RunPayload(name) =>
      ZERO.(counters := NOTHING.(agentRuns := 1), byAgent := map[name := AgentTotals(1, 0, 0, 0, NO_USAGE)])
    case LLMCall(request, response, usage) =>
      ZERO.(counters := NOTHING.(llmCalls := 1, usage := usage, llmTime := duration),
            byModel := map[ModelOf(request, response) := ModelTotals(1, usage)],
            byAgent := map[agent := AgentTotals(0, 1, 0, 0, usage)])
    case ToolCall(name) =>
      var errors := if failed then 1 else 0;
      ZERO.(counters := NOTHING.(toolCalls := 1, toolErrors := errors, toolTime := duration),
            byTool := map[name := ToolTotals(1, errors, duration)],
            byAgent := map[agent := AgentTotals(0, 0, 1, errors, NO_USAGE)])
    case Memory(op, count) =>
      ZERO.(counters := NOTHING.(memoryTime := duration,
                                 memorySaved := if op == MemorySave then count else 0,
                                 memoryRetrieved := if op == MemoryRetrieve then count else 0))
    case Custom => ZERO
  }

  /** A span is counted once, as what it is: its time under its kind, its usage and its messages when
      it has any, its failure when it is a tool call; in the tables under the model that answered, or
      else was asked for, the agent it runs for and the tool it calls. */
  lemma OwnCounts(payload: Payload, agent: string, duration: int, failed: bool)
    ensures var own := Own(payload, agent, duration, failed);
            var c := own.counters;
            && c.agentRuns == (if payload.RunPayload? then 1 else 0)
            && c.llmCalls == (if payload.LLMCall? then 1 else 0)
            && c.toolCalls == (if payload.ToolCall? then 1 else 0)
            && c.toolErrors == (if payload.ToolCall? && failed then 1 else 0)
            && c.usage == (if payload.LLMCall? then payload.usage else NO_USAGE)
            && c.llmTime == (if payload.LLMCall? then duration else 0)
            && c.toolTime == (if payload.ToolCall? then duration else 0)
            && c.memoryTime == (if payload.Memory? then duration else 0)
            && c.memorySaved == (if payload.Memory? && payload.op.MemorySave? then payload.count else 0)
            && c.memoryRetrieved == (if payload.Memory? && payload.op.MemoryRetrieve? then payload.count else 0)
    ensures var own := Own(payload, agent, duration, failed);
            && own.byTool.Keys == (if payload.ToolCall? then {payload.name} else {})
            && own.byAgent.Keys == (match payload
                                    case RunPayload(name) => {name}
                                    case LLMCall(_, _, _) => {agent}
                                    case ToolCall(_) => {agent}
                                    case _ => {})
            && (!payload.LLMCall? ==> own.byModel.Keys == {})
    ensures payload.LLMCall? ==>
              exists m <- Own(payload, agent, duration, failed).byModel.Keys ::
                && Own(payload, agent, duration, failed).byModel.Keys == {m}
                && (payload.responseModel != "" ==> m == payload.responseModel)
                && (payload.responseModel == "" && payload.requestModel != "" ==> m == payload.requestModel)
                && (payload.responseModel == payload.requestModel == "" ==> m == "unknown")
  {
    if payload.LLMCall? {
      assert ModelOf(payload.requestModel, payload.responseModel) in Own(payload, agent, duration, failed).byModel.Keys;
    }
  }

  // ---- the totals of a span, updated in place

  class Totals {
    var counters: Counters
    var byModel: map<string, ModelTotals>
    var byAgent: map<string, AgentTotals>
    var byTool: map<string, ToolTotals>

    function Value(): Sums
      reads this
    {
      Sums(counters, byModel, byAgent, byTool)
    }

    constructor ()
      ensures Value() == ZERO
    {
      counters, byModel, byAgent, byTool := NOTHING, map[], map[], map[];
    }

    method Model(name: string, change: ModelTotals)
      modifies `byModel
      ensures byModel == Merged(old(byModel), map[name := change], PlusModel)
    {
      var v := if name in byModel then byModel[name] else ModelTotals(0, NO_USAGE);
      byModel := byModel[name := ModelTotals(v.calls + change.calls, v.usage.Plus(change.usage))];
    }

    method Agent(name: string, change: AgentTotals)
      modifies `byAgent
      ensures byAgent == Merged(old(byAgent), map[name := change], PlusAgent)
    {
      var v := if name in byAgent then byAgent[name] else AgentTotals(0, 0, 0, 0, NO_USAGE);
      byAgent := byAgent[name :=
        AgentTotals(v.runs + change.runs, v.llmCalls + change.llmCalls, v.toolCalls + change.toolCalls,
                    v.toolErrors + change.toolErrors, v.usage.Plus(change.usage))];
    }

    method Tool(name: string, change: ToolTotals)
      modifies `byTool
      ensures byTool == Merged(old(byTool), map[name := change], PlusTool)
    {
      var v := if name in byTool then byTool[name] else ToolTotals(0, 0, 0);
      byTool := byTool[name := ToolTotals(
        v.calls + change.calls, v.errors + change.errors, v.duration + change.duration)];
    }

    method AddModels(o: map<string, ModelTotals>)
      modifies `byModel
      ensures byModel == Merged(old(byModel), o, PlusModel)
    {
      var rest := o.Keys;
      assert o - o.Keys == map[];
      MergedNothing(byModel, PlusModel);
      while rest != {}
        invariant rest <= o.Keys && byModel == Merged(old(byModel), o - rest, PlusModel)
        decreases |rest|
      {
        var k :| k in rest;
        MergedOne(old(byModel), o, rest, k, PlusModel);
        Model(k, o[k]);
        rest := rest - {k};
      }
      assert o - {} == o;
    }

    method AddAgents(o: map<string, AgentTotals>)
      modifies `byAgent
      ensures byAgent == Merged(old(byAgent), o, PlusAgent)
    {
      var rest := o.Keys;
      assert o - o.Keys == map[];
      MergedNothing(byAgent, PlusAgent);
      while rest != {}
        invariant rest <= o.Keys && byAgent == Merged(old(byAgent), o - rest, PlusAgent)
        decreases |rest|
      {
        var k :| k in rest;
        MergedOne(old(byAgent), o, rest, k, PlusAgent);
        Agent(k, o[k]);
        rest := rest - {k};
      }
      assert o - {} == o;
    }

    method AddTools(o: map<string, ToolTotals>)
      modifies `byTool
      ensures byTool == Merged(old(byTool), o, PlusTool)
    {
      var rest := o.Keys;
      assert o - o.Keys == map[];
      MergedNothing(byTool, PlusTool);
      while rest != {}
        invariant rest <= o.Keys && byTool == Merged(old(byTool), o - rest, PlusTool)
        decreases |rest|
      {
        var k :| k in rest;
        MergedOne(old(byTool), o, rest, k, PlusTool);
        Tool(k, o[k]);
        rest := rest - {k};
      }
      assert o - {} == o;
    }

    /** Merges `o` into this. */
    method Add(o: Totals)
      requires o != this
      modifies this
      ensures Value() == Added(old(Value()), o.Value())
    {
      hide Merged;
      counters := counters.Plus(o.counters);
      AddModels(o.byModel);
      AddAgents(o.byAgent);
      AddTools(o.byTool);
    }

    /** Adds what one span contributes by itself. */
    method AddOwn(payload: Payload, agent: string, duration: int, failed: bool)
      modifies this
      ensures Value() == Added(old(Value()), Own(payload, agent, duration, failed))
    {
      hide Merged;
      MergedNothing(byModel, PlusModel);
      MergedNothing(byAgent, PlusAgent);
      MergedNothing(byTool, PlusTool);
      match payload
      case RunPayload(name) =>
        counters := counters.(agentRuns := counters.agentRuns + 1);
        Agent(name, AgentTotals(1, 0, 0, 0, NO_USAGE));
      case LLMCall(request, response, usage) =>
        counters := counters.(llmCalls := counters.llmCalls + 1, usage := counters.usage.Plus(usage),
                              llmTime := counters.llmTime + duration);
        var model := response;
        if model == "" {
          model := request;
        }
        if model == "" {
          model := UNKNOWN_MODEL;
        }
        Model(model, ModelTotals(1, usage));
        Agent(agent, AgentTotals(0, 1, 0, 0, usage));
      case ToolCall(name) =>
        var errors := 0;
        if failed {
          errors := 1;
        }
        counters := counters.(toolCalls := counters.toolCalls + 1, toolTime := counters.toolTime + duration,
                              toolErrors := counters.toolErrors + errors);
        Tool(name, ToolTotals(1, errors, duration));
        Agent(agent, AgentTotals(0, 0, 1, errors, NO_USAGE));
      case Memory(op, count) =>
        counters := counters.(memoryTime := counters.memoryTime + duration);
        if op == MemorySave {
          counters := counters.(memorySaved := counters.memorySaved + count);
        } else if op == MemoryRetrieve {
          counters := counters.(memoryRetrieved := counters.memoryRetrieved + count);
        }
      case Custom =>
    }

    method Clone() returns (c: Totals)
      ensures fresh(c) && c.Value() == Value()
    {
      c := new Totals();
      c.counters, c.byModel, c.byAgent, c.byTool := counters, byModel, byAgent, byTool;
    }
  }

  lemma MergedNothing<T>(a: map<string, T>, plus: (T, T) -> T)
    ensures Merged(a, map[], plus) == a
  {
  }

  lemma MergedOne<T>(a: map<string, T>, o: map<string, T>, rest: set<string>, k: string, plus: (T, T) -> T)
    requires k in rest && rest <= o.Keys
    ensures Merged(Merged(a, o - rest, plus), map[k := o[k]], plus) == Merged(a, o - (rest - {k}), plus)
  {
  }

  // ---- adding in any order

  ghost predicate Commutes<T(!new)>(plus: (T, T) -> T) {
    forall x, y :: plus(x, y) == plus(y, x)
  }

  ghost predicate Associates<T(!new)>(plus: (T, T) -> T) {
    forall x, y, z :: plus(plus(x, y), z) == plus(x, plus(y, z))
  }

  lemma MergedCommutes<T(!new)>(a: map<string, T>, b: map<string, T>, plus: (T, T) -> T)
    requires Commutes(plus)
    ensures Merged(a, b, plus) == Merged(b, a, plus)
  {
  }

  lemma MergedAssociates<T(!new)>(a: map<string, T>, b: map<string, T>, c: map<string, T>, plus: (T, T) -> T)
    requires Associates(plus)
    ensures Merged(Merged(a, b, plus), c, plus) == Merged(a, Merged(b, c, plus), plus)
  {
  }

  lemma AddedCommutes(a: Sums, b: Sums)
    ensures Added(a, b) == Added(b, a)
  {
    MergedCommutes(a.byModel, b.byModel, PlusModel);
    MergedCommutes(a.byAgent, b.byAgent, PlusAgent);
    MergedCommutes(a.byTool, b.byTool, PlusTool);
  }

  lemma AddedAssociates(a: Sums, b: Sums, c: Sums)
    ensures Added(Added(a, b), c) == Added(a, Added(b, c))
  {
    MergedAssociates(a.byModel, b.byModel, c.byModel, PlusModel);
    MergedAssociates(a.byAgent, b.byAgent, c.byAgent, PlusAgent);
    MergedAssociates(a.byTool, b.byTool, c.byTool, PlusTool);
  }

  lemma AddedNothing(a: Sums)
    ensures Added(a, ZERO) == a && Added(ZERO, a) == a
  {
    MergedNothing(a.byModel, PlusModel);
    MergedNothing(a.byAgent, PlusAgent);
    MergedNothing(a.byTool, PlusTool);
    AddedCommutes(a, ZERO);
  }

  // ---- the tables agree with the counters

  /** What a table's entry, or a whole table, records. */
  datatype Work = Work(runs: int, calls: int, toolCalls: int, toolErrors: int, toolTime: int, usage: Usage) {
    function Plus(o: Work): Work {
      Work(runs + o.runs, calls + o.calls, toolCalls + o.toolCalls, toolErrors + o.toolErrors,
           toolTime + o.toolTime, usage.Plus(o.usage))
    }
  }

  const NO_WORK: Work := Work(0, 0, 0, 0, 0, NO_USAGE)

  function OfModel(m: ModelTotals): Work {
    Work(0, m.calls, 0, 0, 0, m.usage)
  }

  function OfAgent(a: AgentTotals): Work {
    Work(a.runs, a.llmCalls, a.toolCalls, a.toolErrors, 0, a.usage)
  }

  function OfTool(t: ToolTotals): Work {
    Work(0, 0, t.calls, t.errors, t.duration, NO_USAGE)
  }

  /** The sum of a table's entries. */
  ghost function Sum<T>(m: map<string, T>, work: T -> Work): Work {
    if m == map[] then NO_WORK
    else
      assert m.Keys != {};
      var k :| k in m;
      work(m[k]).Plus(Sum(m - {k}, work))
  }

  lemma PlusSwaps(a: Work, b: Work, c: Work)
    ensures a.Plus(b.Plus(c)) == b.Plus(a.Plus(c)) == a.Plus(b).Plus(c)
  {
  }

  lemma Regrouped(a: Work, b: Work, left: Work, right: Work)
    ensures a.Plus(b).Plus(left.Plus(right)) == a.Plus(left).Plus(b.Plus(right))
  {
  }

  lemma {:induction false} SumRemove<T>(m: map<string, T>, work: T -> Work, k: string)
    requires k in m
    ensures Sum(m, work) == work(m[k]).Plus(Sum(m - {k}, work))
    decreases |m|
  {
    assert m != map[];
    var c :| c in m && Sum(m, work) == work(m[c]).Plus(Sum(m - {c}, work));
    if c != k {
      hide Sum;
      SumRemove(m - {c}, work, k);
      SumRemove(m - {k}, work, c);
      assert m - {c} - {k} == m - {k} - {c};
      assert (m - {c})[k] == m[k] && (m - {k})[c] == m[c];
      PlusSwaps(work(m[c]), work(m[k]), Sum(m - {c} - {k}, work));
    }
  }

  lemma {:induction false} SumOne<T>(k: string, v: T, work: T -> Work)
    ensures Sum(map[k := v], work) == work(v)
  {
    SumRemove(map[k := v], work, k);
    assert map[k := v] - {k} == map[];
  }

  ghost predicate Additive<T(!new)>(plus: (T, T) -> T, work: T -> Work) {
    forall x, y :: work(plus(x, y)) == work(x).Plus(work(y))
  }

  lemma AdditiveAt<T(!new)>(plus: (T, T) -> T, work: T -> Work, x: T, y: T)
    requires Additive(plus, work)
    ensures work(plus(x, y)) == work(x).Plus(work(y))
  {
  }

  lemma MergedAt<T>(a: map<string, T>, b: map<string, T>, plus: (T, T) -> T, k: string)
    requires k in b
    ensures var m := Merged(a, b, plus);
            && k in m
            && m[k] == (if k in a then plus(a[k], b[k]) else b[k])
            && m - {k} == Merged(a - {k}, b - {k}, plus)
  {
  }

  lemma {:induction false} SumMerged<T(!new)>(a: map<string, T>, b: map<string, T>, plus: (T, T) -> T, work: T -> Work)
    requires Additive(plus, work)
    ensures Sum(Merged(a, b, plus), work) == Sum(a, work).Plus(Sum(b, work))
    decreases |b|
  {
    hide *;
    if b == map[] {
      MergedNothing(a, plus);
      SumOfNothing(a, work);
    } else {
      assert b.Keys != {};
      var k :| k in b;
      MergedAt(a, b, plus, k);
      SumRemove(Merged(a, b, plus), work, k);
      SumRemove(b, work, k);
      SumMerged(a - {k}, b - {k}, plus, work);
      var left, right := Sum(a - {k}, work), Sum(b - {k}, work);
      if k in a {
        SumRemove(a, work, k);
        AdditiveAt(plus, work, a[k], b[k]);
        Regrouped(work(a[k]), work(b[k]), left, right);
      } else {
        assert a - {k} == a;
        PlusSwaps(work(b[k]), left, right);
      }
    }
  }

  lemma {:induction false} SumOfNothing<T>(a: map<string, T>, work: T -> Work)
    ensures Sum(a, work).Plus(Sum(map[], work)) == Sum(a, work)
  {
  }

  /** Every count and the usage equal the sums of the tables that record them. */
  ghost predicate Consistent(t: Sums) {
    var c := t.counters;
    && Sum(t.byModel, OfModel) == Work(0, c.llmCalls, 0, 0, 0, c.usage)
    && Sum(t.byAgent, OfAgent) == Work(c.agentRuns, c.llmCalls, c.toolCalls, c.toolErrors, 0, c.usage)
    && Sum(t.byTool, OfTool) == Work(0, 0, c.toolCalls, c.toolErrors, c.toolTime, NO_USAGE)
  }

  lemma AddedConsistent(a: Sums, b: Sums)
    requires Consistent(a) && Consistent(b)
    ensures Consistent(Added(a, b))
  {
    hide Merged, Sum;
    SumMerged(a.byModel, b.byModel, PlusModel, OfModel);
    SumMerged(a.byAgent, b.byAgent, PlusAgent, OfAgent);
    SumMerged(a.byTool, b.byTool, PlusTool, OfTool);
  }

  lemma OwnConsistent(payload: Payload, agent: string, duration: int, failed: bool)
    ensures Consistent(ZERO) && Consistent(Own(payload, agent, duration, failed))
  {
    match payload
    case RunPayload(name) => SumOne(name, AgentTotals(1, 0, 0, 0, NO_USAGE), OfAgent);
    case LLMCall(request, response, usage) =>
      SumOne(ModelOf(request, response), ModelTotals(1, usage), OfModel);
      SumOne(agent, AgentTotals(0, 1, 0, 0, usage), OfAgent);
    case ToolCall(name) =>
      var errors := if failed then 1 else 0;
      SumOne(name, ToolTotals(1, errors, duration), OfTool);
      SumOne(agent, AgentTotals(0, 0, 1, errors, NO_USAGE), OfAgent);
    case Memory(_, _) =>
    case Custom =>
  }
}
