/** The registry that pairs every tool with its own circuit breaker and decides which failures
    the breaker gets to see. */
module ToolRegistry {
  import opened Prelude
  import opened CircuitBreaker

  /** A tool, reduced to its name and its input schema: `check` is the validation message, if any. */
  datatype Tool = Tool(name: string, check: Json -> Option<string>)

  datatype ToolError =
    | InvalidInput(message: string)
    | ExecutionFailed(message: string)
    | Timeout(timeoutMs: nat)
    | JsonError(message: string)
    | NotFound(name: string)
    | CircuitOpen(name: string)
  {
    function ToString(): string {
      match this
      case InvalidInput(m) => "Invalid input: " + m
      case ExecutionFailed(m) => "Execution failed: " + m
      case Timeout(ms) => "Timeout after " + Decimal(ms) + "ms"
      case JsonError(m) => "JSON error: " + m
      case NotFound(n) => "Tool '" + n + "' not found in registry"
      case CircuitOpen(n) => "Circuit breaker is open for tool '" + n + "' - tool temporarily unavailable"
    }
  }

  datatype RegistryError = DuplicateName(name: string)

  /** What the outside contributes to one call: the clock when the gate is asked, what the tool
      would answer under its timeout, and the clock when a failure is recorded. */
  datatype Exchange = Exchange(admitAt: nat, reply: Result<Json, ToolError>, recordAt: nat)

  datatype Call = Call(name: string, input: Json, exchange: Exchange)

  /** The registry as a value. */
  datatype Registry = Registry(tools: map<string, Tool>, breakers: map<string, Breaker>) {
    predicate Paired() {
      tools.Keys == breakers.Keys
    }

    predicate Fresh() {
      Paired() && forall n | n in breakers :: breakers[n] == FRESH
    }
  }

  // ---------------------------------------------------------------------------
  // One call.

  /** How a call uses the breaker of its tool, if the gate admits it. */
  function UseOf(tools: map<string, Tool>, call: Call): Use {
    if call.name !in tools || tools[call.name].check(call.input).Some? then Skipped(call.exchange.admitAt)
    else if call.exchange.reply.Ok? then Won(call.exchange.admitAt)
    else Lost(call.exchange.admitAt, call.exchange.recordAt)
  }

  function ReplyTo(cfg: BreakerConfig, reg: Registry, call: Call): Result<Json, ToolError> {
    if call.name !in reg.breakers then Err(NotFound(call.name))
    else if !Admits(cfg, reg.breakers[call.name], call.exchange.admitAt) then Err(CircuitOpen(call.name))
    else if call.name !in reg.tools then Err(NotFound(call.name))
    else match reg.tools[call.name].check(call.input)
      case Some(message) => Err(InvalidInput(message))
      case None => call.exchange.reply
  }

  function AfterCall(cfg: BreakerConfig, reg: Registry, call: Call): Registry {
    if call.name !in reg.breakers then reg
    else
      var b := AfterUse(cfg, reg.breakers[call.name], UseOf(reg.tools, call));
      reg.(breakers := reg.breakers[call.name := b])
  }

  /** The call reaches the tool: it is registered, its gate lets the call through and its schema
      accepts the input. */
  predicate Reaches(cfg: BreakerConfig, reg: Registry, call: Call) {
    && call.name in reg.tools && call.name in reg.breakers
    && Admits(cfg, reg.breakers[call.name], call.exchange.admitAt)
    && reg.tools[call.name].check(call.input).None?
  }

  /** Exactly the calls that reach a tool use its breaker for an execution. */
  lemma ReachingIsExecuting(cfg: BreakerConfig, reg: Registry, call: Call)
    requires call.name in reg.breakers
    ensures Reaches(cfg, reg, call) <==> Executes(cfg, reg.breakers[call.name], UseOf(reg.tools, call))
    ensures Reaches(cfg, reg, call) ==> OutcomeOf(UseOf(reg.tools, call)) == OutcomeIn(call.exchange)
  {
  }

  /** What the breaker has to hear about an execution: any error at all is a failure. */
  function OutcomeIn(exchange: Exchange): Outcome {
    if exchange.reply.Ok? then Succeeded else Failed(exchange.admitAt, exchange.recordAt)
  }

  /** What a call does to the breakers. The breaker of its tool hears of every execution, as a success
      or, whatever the error is, as a failure at the time it was recorded; a call that the gate lets
      through but that does not reach the tool leaves only the admission; and no other breaker
      changes. */
  lemma {:induction false} EveryExecutionIsRecorded(cfg: BreakerConfig, reg: Registry, call: Call)
    ensures AfterCall(cfg, reg, call).tools == reg.tools
    ensures AfterCall(cfg, reg, call).breakers.Keys == reg.breakers.Keys
    ensures forall n | n in reg.breakers && n != call.name :: AfterCall(cfg, reg, call).breakers[n] == reg.breakers[n]
    ensures call.name in reg.breakers ==>
      var b, at := reg.breakers[call.name], call.exchange.admitAt;
      var admitted := AfterAdmission(cfg, b, at);
      AfterCall(cfg, reg, call).breakers[call.name] ==
        if !Admits(cfg, b, at) then b
        else if !Reaches(cfg, reg, call) then admitted
        else if call.exchange.reply.Ok? then AfterSuccess(admitted)
        else AfterFailure(cfg, admitted, call.exchange.recordAt)
  {
  }

  /** A call is answered if and only if it reaches its tool and the tool answers; what a call gets
      that reaches its tool is the tool's reply, with its own error if it fails. */
  lemma {:induction false} ReplyMatchesRecord(cfg: BreakerConfig, reg: Registry, call: Call)
    ensures ReplyTo(cfg, reg, call).Ok? <==> Reaches(cfg, reg, call) && call.exchange.reply.Ok?
    ensures Reaches(cfg, reg, call) ==> ReplyTo(cfg, reg, call) == call.exchange.reply
  {
  }

  /** A call that does not reach its tool is told why: an unknown tool before all else, an open
      circuit before an invalid input. */
  lemma {:induction false} RejectionsAreNamed(cfg: BreakerConfig, reg: Registry, call: Call)
    requires reg.Paired() && !Reaches(cfg, reg, call)
    ensures ReplyTo(cfg, reg, call).Err?
    ensures ReplyTo(cfg, reg, call).error == NotFound(call.name) <==> call.name !in reg.tools
    ensures ReplyTo(cfg, reg, call).error == CircuitOpen(call.name) <==>
      call.name in reg.tools && !Admits(cfg, reg.breakers[call.name], call.exchange.admitAt)
    ensures (exists m :: ReplyTo(cfg, reg, call).error == InvalidInput(m)
                      && call.name in reg.tools && reg.tools[call.name].check(call.input) == Some(m)) <==>
      call.name in reg.tools && Admits(cfg, reg.breakers[call.name], call.exchange.admitAt)
  {
    if call.name in reg.tools && Admits(cfg, reg.breakers[call.name], call.exchange.admitAt) {
      var m := reg.tools[call.name].check(call.input).value;
      assert ReplyTo(cfg, reg, call).error == InvalidInput(m);
    }
  }

  // ---------------------------------------------------------------------------
  // Sequences of calls.

  function AfterCalls(cfg: BreakerConfig, reg: Registry, calls: seq<Call>): Registry {
    if calls == [] then reg
    else AfterCall(cfg, AfterCalls(cfg, reg, calls[..|calls| - 1]), calls[|calls| - 1])
  }

  /** The uses of the breaker of `name`, oldest first. */
  function UsesOf(tools: map<string, Tool>, calls: seq<Call>, name: string): seq<Use> {
    if calls == [] then []
    else
      var earlier, call := UsesOf(tools, calls[..|calls| - 1], name), calls[|calls| - 1];
      if call.name == name then earlier + [UseOf(tools, call)] else earlier
  }

  /** Tools and breakers stay paired, and a breaker depends on the calls of its own tool only. */
  lemma {:induction false} BreakersAreIndependent(cfg: BreakerConfig, reg: Registry, calls: seq<Call>, name: string)
    requires reg.Fresh()
    ensures AfterCalls(cfg, reg, calls).tools == reg.tools
    ensures AfterCalls(cfg, reg, calls).Paired()
    ensures name in reg.tools ==>
      AfterCalls(cfg, reg, calls).breakers[name] == AfterUses(cfg, UsesOf(reg.tools, calls, name))
  {
    if calls != [] {
      BreakersAreIndependent(cfg, reg, calls[..|calls| - 1], name);
      if calls[|calls| - 1].name == name {
        var earlier := UsesOf(reg.tools, calls[..|calls| - 1], name);
        assert (earlier + [UseOf(reg.tools, calls[|calls| - 1])])[..|earlier|] == earlier;
      }
    }
  }

  /** Call `i` finds the breaker of its tool in this state. */
  function BreakerAt(cfg: BreakerConfig, reg: Registry, calls: seq<Call>, name: string, i: nat): (b: Breaker)
    requires name in reg.breakers && i <= |calls|
  {
    BreakersStay(cfg, reg, calls[..i]);
    AfterCalls(cfg, reg, calls[..i]).breakers[name]
  }

  lemma {:induction false} BreakersStay(cfg: BreakerConfig, reg: Registry, calls: seq<Call>)
    ensures AfterCalls(cfg, reg, calls).breakers.Keys == reg.breakers.Keys
    ensures AfterCalls(cfg, reg, calls).tools == reg.tools
  {
    if calls != [] {
      BreakersStay(cfg, reg, calls[..|calls| - 1]);
    }
  }

  /** Call `i` reaches the tool in a half-open period of its breaker. */
  predicate ProbesTool(cfg: BreakerConfig, reg: Registry, calls: seq<Call>, name: string, i: nat)
    requires name in reg.breakers && i < |calls|
  {
    var b, use := BreakerAt(cfg, reg, calls, name, i), UseOf(reg.tools, calls[i]);
    && calls[i].name == name && Executes(cfg, b, use)
    && AfterAdmission(cfg, b, use.admitAt).state.HalfOpen?
  }

  /** Call `k` finds the circuit of `name` open and timed out, and starts a half-open period. */
  predicate Reopens(cfg: BreakerConfig, reg: Registry, calls: seq<Call>, name: string, k: nat)
    requires name in reg.breakers && k < |calls|
  {
    var b := BreakerAt(cfg, reg, calls, name, k);
    calls[k].name == name && b.state.Open? && Admits(cfg, b, calls[k].exchange.admitAt)
  }

  lemma BreakerSteps(cfg: BreakerConfig, reg: Registry, calls: seq<Call>, name: string, i: nat)
    requires name in reg.breakers && i < |calls|
    ensures BreakerAt(cfg, reg, calls, name, i + 1)
         == if calls[i].name == name
            then AfterUse(cfg, BreakerAt(cfg, reg, calls, name, i), UseOf(reg.tools, calls[i]))
            else BreakerAt(cfg, reg, calls, name, i)
  {
    assert calls[..i + 1][..i] == calls[..i];
    BreakersStay(cfg, reg, calls[..i]);
  }

  lemma {:induction false} HalfOpenWasReopened(cfg: BreakerConfig, reg: Registry, calls: seq<Call>, name: string,
                                               i: nat, j: nat) returns (k: nat)
    requires name in reg.breakers && i <= j <= |calls|
    requires !BreakerAt(cfg, reg, calls, name, i).state.HalfOpen?
    requires BreakerAt(cfg, reg, calls, name, j).state.HalfOpen?
    ensures i <= k < j && Reopens(cfg, reg, calls, name, k)
    decreases j
  {
    hide BreakerAt;
    BreakerSteps(cfg, reg, calls, name, j - 1);
    if BreakerAt(cfg, reg, calls, name, j - 1).state.HalfOpen? {
      k := HalfOpenWasReopened(cfg, reg, calls, name, i, j - 1);
    } else {
      k := j - 1;
    }
  }

  /** Over any calls to any tools, each half-open period of a tool's breaker holds at most one real
      execution of it: between two of them its circuit was found open and timed out again, however
      many calls with rejected inputs passed the gate and whatever was called in between. */
  lemma {:induction false} ToolProbesAreInDifferentPeriods(cfg: BreakerConfig, reg: Registry, calls: seq<Call>,
                                                           name: string, i: nat, j: nat)
    requires name in reg.breakers && i < j < |calls|
    requires ProbesTool(cfg, reg, calls, name, i) && ProbesTool(cfg, reg, calls, name, j)
    ensures exists k | i < k <= j :: Reopens(cfg, reg, calls, name, k)
  {
    hide BreakerAt;
    BreakerSteps(cfg, reg, calls, name, i);
    if BreakerAt(cfg, reg, calls, name, j).state.HalfOpen? {
      var k := HalfOpenWasReopened(cfg, reg, calls, name, i + 1, j);
    } else {
      assert Reopens(cfg, reg, calls, name, j);
    }
  }

  /** The outcomes that the breaker of `name` has recorded. */
  function OutcomesOf(cfg: BreakerConfig, tools: map<string, Tool>, calls: seq<Call>, name: string): seq<Outcome> {
    Recorded(cfg, UsesOf(tools, calls, name))
  }

  /** What happened in the executions of the tool of this name, oldest first. */
  function ExecutionsOf(cfg: BreakerConfig, reg: Registry, calls: seq<Call>, name: string): seq<Exchange> {
    if calls == [] then []
    else
      var earlier, call := calls[..|calls| - 1], calls[|calls| - 1];
      ExecutionsOf(cfg, reg, earlier, name)
      + if call.name == name && Reaches(cfg, AfterCalls(cfg, reg, earlier), call) then [call.exchange] else []
  }

  /** The breaker of a tool records exactly its executions, in order. */
  lemma {:induction false} OutcomesAreExecutions(cfg: BreakerConfig, reg: Registry, calls: seq<Call>, name: string)
    requires reg.Fresh() && name in reg.tools
    ensures var executions, outcomes := ExecutionsOf(cfg, reg, calls, name), OutcomesOf(cfg, reg.tools, calls, name);
      |outcomes| == |executions| && forall i | 0 <= i < |outcomes| :: outcomes[i] == OutcomeIn(executions[i])
  {
    hide Reaches, OutcomesOf, OutcomeIn;
    if calls == [] {
      NoOutcomesYet(cfg, reg.tools, name);
    } else {
      var earlier, call := calls[..|calls| - 1], calls[|calls| - 1];
      OutcomesAreExecutions(cfg, reg, earlier, name);
      OneMoreOutcome(cfg, reg, earlier, call, name);
      assert calls == earlier + [call];
    }
  }

  lemma NoOutcomesYet(cfg: BreakerConfig, tools: map<string, Tool>, name: string)
    ensures OutcomesOf(cfg, tools, [], name) == []
  {
  }

  function CountWins(history: seq<Outcome>): nat {
    if history == [] then 0
    else CountWins(history[..|history| - 1]) + if history[|history| - 1].Succeeded? then 1 else 0
  }

  function CountLosses(history: seq<Outcome>): nat {
    if history == [] then 0
    else CountLosses(history[..|history| - 1]) + if history[|history| - 1].Succeeded? then 0 else 1
  }

  /** Number of calls answered with a result. */
  function Answers(cfg: BreakerConfig, reg: Registry, calls: seq<Call>): nat {
    if calls == [] then 0
    else
      var earlier, call := calls[..|calls| - 1], calls[|calls| - 1];
      Answers(cfg, reg, earlier)
      + if ReplyTo(cfg, AfterCalls(cfg, reg, earlier), call).Ok? then 1 else 0
  }

  /** Number of calls rejected before the tool ran: unknown tool, open circuit or invalid input. */
  function Rejections(cfg: BreakerConfig, reg: Registry, calls: seq<Call>): nat {
    if calls == [] then 0
    else
      var earlier, call := calls[..|calls| - 1], calls[|calls| - 1];
      Rejections(cfg, reg, earlier)
      + if Reaches(cfg, AfterCalls(cfg, reg, earlier), call) then 0 else 1
  }

  ghost function Sum(names: set<string>, f: string -> nat): nat {
    if names == {} then 0
    else
      var n :| n in names;
      f(n) + Sum(names - {n}, f)
  }

  lemma {:induction false} SumSplits(names: set<string>, f: string -> nat, n: string)
    requires n in names
    ensures Sum(names, f) == f(n) + Sum(names - {n}, f)
    decreases names
  {
    var m :| m in names && Sum(names, f) == f(m) + Sum(names - {m}, f);
    if m != n {
      SumSplits(names - {m}, f, n);
      SumSplits(names - {n}, f, m);
      assert names - {m} - {n} == names - {n} - {m};
    }
  }

  lemma {:induction false} SumAgrees(names: set<string>, f: string -> nat, g: string -> nat)
    requires forall n | n in names :: f(n) == g(n)
    ensures Sum(names, f) == Sum(names, g)
    decreases names
  {
    if names != {} {
      var n :| n in names;
      SumSplits(names, f, n);
      SumSplits(names, g, n);
      SumAgrees(names - {n}, f, g);
    }
  }

  lemma SumBump(names: set<string>, f: string -> nat, g: string -> nat, n: string, amount: nat)
    requires n in names && g(n) == f(n) + amount
    requires forall m | m in names && m != n :: g(m) == f(m)
    ensures Sum(names, g) == Sum(names, f) + amount
  {
    SumSplits(names, f, n);
    SumSplits(names, g, n);
    SumAgrees(names - {n}, f, g);
  }

  function WinsOf(cfg: BreakerConfig, tools: map<string, Tool>, calls: seq<Call>): string -> nat {
    n => CountWins(OutcomesOf(cfg, tools, calls, n))
  }

  function LossesOf(cfg: BreakerConfig, tools: map<string, Tool>, calls: seq<Call>): string -> nat {
    n => CountLosses(OutcomesOf(cfg, tools, calls, n))
  }

  lemma OneMoreOutcome(cfg: BreakerConfig, reg: Registry, earlier: seq<Call>, call: Call, name: string)
    requires reg.Fresh() && name in reg.tools
    ensures var now := AfterCalls(cfg, reg, earlier);
      OutcomesOf(cfg, reg.tools, earlier + [call], name)
      == OutcomesOf(cfg, reg.tools, earlier, name)
         + if name == call.name && Reaches(cfg, now, call) then [OutcomeIn(call.exchange)] else []
  {
    assert (earlier + [call])[..|earlier|] == earlier;
    BreakersAreIndependent(cfg, reg, earlier, name);
    if name == call.name {
      ReachingIsExecuting(cfg, AfterCalls(cfg, reg, earlier), call);
    }
    var uses := UsesOf(reg.tools, earlier, name);
    assert (uses + [UseOf(reg.tools, call)])[..|uses|] == uses;
  }

  lemma CountOfAppend(history: seq<Outcome>, outcome: Outcome)
    ensures CountWins(history + [outcome]) == CountWins(history) + (if outcome.Succeeded? then 1 else 0)
    ensures CountLosses(history + [outcome]) == CountLosses(history) + (if outcome.Succeeded? then 0 else 1)
  {
    assert (history + [outcome])[..|history|] == history;
  }

  lemma OneMoreCount(cfg: BreakerConfig, reg: Registry, earlier: seq<Call>, call: Call)
    requires reg.Fresh()
    ensures var now, calls := AfterCalls(cfg, reg, earlier), earlier + [call];
      && Sum(reg.tools.Keys, WinsOf(cfg, reg.tools, calls)) == Sum(reg.tools.Keys, WinsOf(cfg, reg.tools, earlier))
         + (if Reaches(cfg, now, call) && call.exchange.reply.Ok? then 1 else 0)
      && Sum(reg.tools.Keys, LossesOf(cfg, reg.tools, calls)) == Sum(reg.tools.Keys, LossesOf(cfg, reg.tools, earlier))
         + (if Reaches(cfg, now, call) && call.exchange.reply.Err? then 1 else 0)
  {
    var names, now, calls := reg.tools.Keys, AfterCalls(cfg, reg, earlier), earlier + [call];
    var w, w' := WinsOf(cfg, reg.tools, earlier), WinsOf(cfg, reg.tools, calls);
    var l, l' := LossesOf(cfg, reg.tools, earlier), LossesOf(cfg, reg.tools, calls);
    var reached := Reaches(cfg, now, call);
    BreakersAreIndependent(cfg, reg, earlier, call.name);
    forall n | n in names
      ensures w'(n) == w(n) + (if n == call.name && reached && call.exchange.reply.Ok? then 1 else 0)
      ensures l'(n) == l(n) + (if n == call.name && reached && call.exchange.reply.Err? then 1 else 0)
    {
      OneMoreOutcome(cfg, reg, earlier, call, n);
      var history := OutcomesOf(cfg, reg.tools, earlier, n);
      if n == call.name && reached {
        CountOfAppend(history, OutcomeIn(call.exchange));
      } else {
        assert history + [] == history;
      }
    }
    if call.name in names {
      SumBump(names, w, w', call.name, if reached && call.exchange.reply.Ok? then 1 else 0);
      SumBump(names, l, l', call.name, if reached && call.exchange.reply.Err? then 1 else 0);
    } else {
      SumAgrees(names, w, w');
      SumAgrees(names, l, l');
    }
  }

  lemma OneMoreReply(cfg: BreakerConfig, reg: Registry, earlier: seq<Call>, call: Call)
    ensures var reached := Reaches(cfg, AfterCalls(cfg, reg, earlier), call);
      && Answers(cfg, reg, earlier + [call])
         == Answers(cfg, reg, earlier) + (if reached && call.exchange.reply.Ok? then 1 else 0)
      && Rejections(cfg, reg, earlier + [call]) == Rejections(cfg, reg, earlier) + (if reached then 0 else 1)
  {
    assert (earlier + [call])[..|earlier|] == earlier;
    ReplyMatchesRecord(cfg, AfterCalls(cfg, reg, earlier), call);
  }

  /** Every call is accounted for once: answered calls are the successes recorded over all
      breakers, the others are the recorded failures plus the rejections. */
  lemma {:induction false} CallsAreAccountedFor(cfg: BreakerConfig, reg: Registry, calls: seq<Call>)
    requires reg.Fresh()
    ensures Answers(cfg, reg, calls) == Sum(reg.tools.Keys, WinsOf(cfg, reg.tools, calls))
    ensures |calls| - Answers(cfg, reg, calls)
         == Sum(reg.tools.Keys, LossesOf(cfg, reg.tools, calls)) + Rejections(cfg, reg, calls)
  {
    if calls == [] {
      SumOfZeros(reg.tools.Keys, WinsOf(cfg, reg.tools, []));
      SumOfZeros(reg.tools.Keys, LossesOf(cfg, reg.tools, []));
    } else {
      var earlier, call := calls[..|calls| - 1], calls[|calls| - 1];
      assert calls == earlier + [call];
      CallsAreAccountedFor(cfg, reg, earlier);
      OneMoreCount(cfg, reg, earlier, call);
      OneMoreReply(cfg, reg, earlier, call);
    }
  }

  lemma {:induction false} SumOfZeros(names: set<string>, f: string -> nat)
    requires forall n | n in names :: f(n) == 0
    ensures Sum(names, f) == 0
    decreases names
  {
    if names != {} {
      var n :| n in names;
      SumSplits(names, f, n);
      SumOfZeros(names - {n}, f);
    }
  }

  // ---------------------------------------------------------------------------
  // Rate of executions of one tool.

  predicate CallsClocked(calls: seq<Call>) {
    && (forall i | 0 <= i < |calls| :: calls[i].exchange.admitAt <= calls[i].exchange.recordAt)
    && (forall i, j | 0 <= i < j < |calls| :: calls[i].exchange.recordAt <= calls[j].exchange.admitAt)
  }

  lemma ClockedAppend(uses: seq<Use>, use: Use)
    requires Clocked(uses) && use.admitAt <= use.EndsAt()
    requires forall u | u in uses :: u.EndsAt() <= use.admitAt
    ensures Clocked(uses + [use])
  {
    assert forall i | 0 <= i < |uses| :: uses[i] in uses;
  }

  lemma EarlierCallsAreClocked(calls: seq<Call>)
    requires CallsClocked(calls) && calls != []
    ensures CallsClocked(calls[..|calls| - 1])
    ensures |calls| > 1 ==>
      calls[0].exchange.admitAt <= calls[|calls| - 2].exchange.recordAt <= calls[|calls| - 1].exchange.admitAt
  {
    if |calls| > 2 {
      assert calls[0].exchange.recordAt <= calls[|calls| - 2].exchange.admitAt;
    }
  }

  lemma {:induction false} UsesAreClocked(tools: map<string, Tool>, calls: seq<Call>, name: string)
    requires CallsClocked(calls)
    ensures Clocked(UsesOf(tools, calls, name))
    ensures forall u | u in UsesOf(tools, calls, name) ::
      calls != [] && u.EndsAt() <= calls[|calls| - 1].exchange.recordAt && u.admitAt >= calls[0].exchange.admitAt
  {
    hide Clocked, CallsClocked;
    if calls == [] {
      EmptyIsClocked();
    } else {
      var earlier, call := calls[..|calls| - 1], calls[|calls| - 1];
      EarlierCallsAreClocked(calls);
      CallIsClocked(calls);
      UsesAreClocked(tools, earlier, name);
      if call.name == name {
        ClockedAppend(UsesOf(tools, earlier, name), UseOf(tools, call));
      }
    }
  }

  lemma EmptyIsClocked()
    ensures Clocked([])
  {
  }

  lemma CallIsClocked(calls: seq<Call>)
    requires CallsClocked(calls) && calls != []
    ensures calls[|calls| - 1].exchange.admitAt <= calls[|calls| - 1].exchange.recordAt
  {
  }

  /** However calls to this and other tools are mixed, and whatever came before: while a tool
      fails every time it runs, it is started at most threshold + D / recovery times within D
      milliseconds. */
  lemma {:induction false} ToolRateBound(cfg: BreakerConfig, reg: Registry, calls: seq<Call>, name: string,
                                         duration: nat, i: nat, j: nat)
    requires reg.Fresh() && name in reg.tools && CallsClocked(calls) && cfg.recoveryMs > 0
    requires i <= j < |ExecutionsOf(cfg, reg, calls, name)|
    requires forall k | i <= k <= j :: ExecutionsOf(cfg, reg, calls, name)[k].reply.Err?
    ensures var executions := ExecutionsOf(cfg, reg, calls, name);
      executions[j].admitAt <= executions[i].admitAt + duration ==>
        j - i < AtLeastOne(cfg.failureThreshold) + duration / cfg.recoveryMs
  {
    OutcomesAreExecutions(cfg, reg, calls, name);
    UsesAreClocked(reg.tools, calls, name);
    BurstBound(cfg, UsesOf(reg.tools, calls, name), duration, i, j);
  }

  // ---------------------------------------------------------------------------
  // The registry object.

  /** Every tool is filed under its own name. */
  predicate Named(tools: map<string, Tool>) {
    forall n | n in tools :: tools[n].name == n
  }

  lemma NamedStays(tools: map<string, Tool>, tool: Tool)
    requires Named(tools)
    ensures Named(tools[tool.name := tool])
  {
  }

  /** No two tools use the same breaker object. */
  predicate Unshared(breakers: map<string, CircuitBreaker>) {
    forall m, n | m in breakers && n in breakers && m != n :: breakers[m] != breakers[n]
  }

  lemma UnsharedStays(breakers: map<string, CircuitBreaker>, name: string, breaker: CircuitBreaker)
    requires Unshared(breakers) && forall n | n in breakers :: breakers[n] != breaker
    ensures Unshared(breakers[name := breaker])
  {
  }

  class ToolRegistry {
    var tools: map<string, Tool>
    var circuitBreakers: map<string, CircuitBreaker>
    const circuitBreakerConfig: BreakerConfig
    /** The registry as a value, and the objects that hold its changing part. */
    ghost var view: Registry
    ghost var Repr: set<object?>

    ghost predicate Valid()
      reads this, Repr
    {
      && this !in Repr && null !in Repr
      && tools == view.tools && Named(tools)
      && tools.Keys == circuitBreakers.Keys == view.breakers.Keys
      && (forall n | n in circuitBreakers :: Holds(circuitBreakers[n], view.breakers[n]))
      && Unshared(circuitBreakers)
    }

    ghost predicate Holds(breaker: CircuitBreaker, b: Breaker)
      reads this, Repr
    {
      breaker in Repr && breaker.config == circuitBreakerConfig && breaker.View() == b
    }

    constructor (config: BreakerConfig)
      ensures Valid() && fresh(Repr)
      ensures view == Registry(map[], map[]) && view.Fresh()
      ensures circuitBreakerConfig == config
    {
      tools, circuitBreakers, circuitBreakerConfig := map[], map[], config;
      view, Repr := Registry(map[], map[]), {};
    }

    /** Adds a tool with a fresh breaker of its own; the others keep theirs untouched. */
    method Register(tool: Tool) returns (result: Result<(), RegistryError>)
      requires Valid()
      modifies this
      ensures Valid() && fresh(Repr - old(Repr))
      ensures result == if tool.name in old(tools) then Err(DuplicateName(tool.name)) else Ok(())
      ensures view == if result.Err? then old(view)
                      else Registry(old(tools)[tool.name := tool], old(view).breakers[tool.name := FRESH])
    {
      if tool.name in tools {
        return Err(DuplicateName(tool.name));
      }
      Insert(tool);
      return Ok(());
    }

    method Insert(tool: Tool)
      requires Valid() && tool.name !in tools
      modifies this
      ensures Valid() && fresh(Repr - old(Repr))
      ensures view == Registry(old(tools)[tool.name := tool], old(view).breakers[tool.name := FRESH])
    {
      hide Named, Unshared;
      NamedStays(tools, tool);
      var name := tool.name;
      var breaker := new CircuitBreaker(circuitBreakerConfig);
      UnsharedStays(circuitBreakers, name, breaker);
      circuitBreakers := circuitBreakers[name := breaker];
      tools := tools[name := tool];
      view := Registry(tools, view.breakers[name := FRESH]);
      Repr := Repr + {breaker};
    }

    method Get(name: string) returns (tool: Option<Tool>)
      requires Named(tools)
      ensures tool.Some? <==> name in tools
      ensures tool.Some? ==> tool.value.name == name && tool.value == tools[name]
    {
      return if name in tools then Some(tools[name]) else None;
    }

    method ValidateInput(toolName: string, input: Json) returns (result: Result<(), ToolError>)
      requires Named(tools)
      ensures result.Ok? <==> toolName in tools && tools[toolName].check(input).None?
      ensures toolName !in tools ==> result == Err(NotFound(toolName))
      ensures toolName in tools && tools[toolName].check(input).Some? ==>
        result == Err(InvalidInput(tools[toolName].check(input).value))
    {
      var tool := Get(toolName);
      if tool.None? {
        return Err(NotFound(toolName));
      }
      var verdict := tool.value.check(input);
      if verdict.Some? {
        return Err(InvalidInput(verdict.value));
      }
      return Ok(());
    }

    method ExecuteWithTimeout(toolName: string, input: Json, exchange: Exchange)
      returns (result: Result<Json, ToolError>)
      requires Valid()
      modifies Repr, `view
      ensures Valid()
      ensures result == ReplyTo(circuitBreakerConfig, old(view), Call(toolName, input, exchange))
      ensures view == AfterCall(circuitBreakerConfig, old(view), Call(toolName, input, exchange))
    {
      if toolName !in circuitBreakers {
        return Err(NotFound(toolName));
      }
      var breaker := circuitBreakers[toolName];
      result := Dispatch(breaker, toolName, input, exchange);
      view := view.(breakers := view.breakers[toolName := breaker.View()]);
    }

    /** The part of `ExecuteWithTimeout` after the breaker has been found. */
    method Dispatch(breaker: CircuitBreaker, toolName: string, input: Json, exchange: Exchange)
      returns (result: Result<Json, ToolError>)
      requires Named(tools) && breaker.config == circuitBreakerConfig
      modifies breaker
      ensures breaker.View()
           == AfterUse(breaker.config, old(breaker.View()), UseOf(tools, Call(toolName, input, exchange)))
      ensures result == ReplyTo(breaker.config, Registry(tools, map[toolName := old(breaker.View())]),
                                Call(toolName, input, exchange))
    {
      var allowed := breaker.CanExecute(exchange.admitAt);
      if !allowed {
        return Err(CircuitOpen(toolName));
      }
      var valid := ValidateInput(toolName, input);
      if valid.Err? {
        return Err(valid.error);
      }
      var tool := Get(toolName);
      if tool.None? {
        return Err(NotFound(toolName));
      }
      result := exchange.reply;
      if result.Ok? {
        breaker.RecordSuccess();
      } else {
        breaker.RecordFailure(exchange.recordAt);
      }
    }
  }
}
