/** The executor and the registry keep the same books. */
module RegistryLaws {
  import opened Prelude
  import opened CircuitBreaker
  import opened ToolRegistry
  import opened ExecutorModel
  import opened ExecutorLaws

  /** The log entry for a call and the reply it got. */
  function StepFor(call: Call, reply: Result<Json, ToolError>): TaskStep {
    TaskStep(call.name, call.input, reply.Ok?, if reply.Ok? then None else Some(reply.error.ToString()))
  }

  /** The reply that call `i` got, given all calls before it. */
  function ReplyAt(cfg: BreakerConfig, registry: Registry, calls: seq<Call>, i: nat): Result<Json, ToolError>
    requires i < |calls|
  {
    ReplyTo(cfg, AfterCalls(cfg, registry, calls[..i]), calls[i])
  }

  ghost predicate EntryMatches(c: Config, w: World, registry: Registry, calls: seq<Call>, steps: seq<TaskStep>, i: nat)
    requires i < |steps| == |calls|
  {
    && calls[i].exchange == w.dispatch(i)
    && steps[i] == StepFor(calls[i], ReplyAt(c.breaker, registry, calls, i))
  }

  /** The registry as call `i` finds it: as the call before left it, unless others used it. */
  function FoundAt(c: Config, w: World, registry: Registry, found: seq<Registry>, calls: seq<Call>, i: nat): Registry
    requires i <= |found| == |calls|
  {
    var left := if i == 0 then registry else AfterCall(c.breaker, found[i - 1], calls[i - 1]);
    match w.others(i)
    case None => left
    case Some(breakers) => left.(breakers := breakers)
  }

  ghost predicate OwnEntry(c: Config, w: World, registry: Registry, r: Run, i: nat)
    requires i < |r.steps| == |r.calls| == |r.found|
  {
    && r.calls[i].exchange == w.dispatch(i)
    && r.found[i] == FoundAt(c, w, registry, r.found, r.calls, i)
    && r.found[i].tools == registry.tools
    && r.steps[i] == StepFor(r.calls[i], ReplyTo(c.breaker, r.found[i], r.calls[i]))
  }

  /** What a run knows of its own calls, whatever other users do to the registry meanwhile. */
  ghost predicate OwnBooks(c: Config, w: World, registry: Registry, r: Run) {
    && |r.steps| == |r.calls| == |r.found|
    && r.registry == (if r.calls == [] then registry
                      else AfterCall(c.breaker, r.found[|r.found| - 1], r.calls[|r.calls| - 1]))
    && r.registry.tools == registry.tools
    && forall i: nat | i < |r.steps| :: OwnEntry(c, w, registry, r, i)
  }

  lemma OneMoreEntry(c: Config, w: World, registry: Registry, r: Run, next: Run)
    requires OwnBooks(c, w, registry, r) && r.phase.Dispatching?
    requires next.calls == r.calls + [PendingCall(w, r)] && next.found == r.found + [Found(w, r)]
    requires next.steps == r.steps + [StepFor(PendingCall(w, r), PendingReply(c, w, r))]
    requires next.registry == AfterCall(c.breaker, Found(w, r), PendingCall(w, r))
    ensures OwnBooks(c, w, registry, next)
  {
    hide ReplyTo, StepFor;
    forall i: nat | i < |next.steps|
      ensures OwnEntry(c, w, registry, next, i)
    {
      if i < |r.steps| {
        assert OwnEntry(c, w, registry, r, i);
      }
    }
  }

  /** Steps are logged by dispatching only, one for each call. */
  lemma NextSteps(c: Config, w: World, r: Run)
    requires !r.phase.Finished?
    ensures Next(c, w, r).steps
         == if r.phase.Dispatching? && !LoopDetector.Loops(r.window, c.repeatThreshold)
            then r.steps + [StepFor(PendingCall(w, r), PendingReply(c, w, r))]
            else r.steps
  {
    hide AfterCall, ReplyTo, Push;
  }

  lemma NextKeepsBooks(c: Config, w: World, registry: Registry, r: Run)
    requires OwnBooks(c, w, registry, r) && !r.phase.Finished?
    ensures OwnBooks(c, w, registry, Next(c, w, r))
  {
    hide Next, ReplyTo, AfterCall, StepFor, FoundAt;
    NextCalls(c, w, r);
    NextSteps(c, w, r);
    if r.phase.Dispatching? && !LoopDetector.Loops(r.window, c.repeatThreshold) {
      OneMoreEntry(c, w, registry, r, Next(c, w, r));
    } else {
      var next := Next(c, w, r);
      forall i: nat | i < |next.steps|
        ensures OwnEntry(c, w, registry, next, i)
      {
        assert OwnEntry(c, w, registry, r, i);
      }
    }
  }

  lemma {:induction false} CompleteKeepsBooks(c: Config, w: World, registry: Registry, r: Run)
    requires InRange(c, r) && OwnBooks(c, w, registry, r)
    ensures OwnBooks(c, w, registry, Complete(c, w, r))
    decreases c.maxIterations - r.iteration, Rank(c, r)
  {
    hide Next, OwnBooks;
    if !r.phase.Finished? {
      NextDescends(c, w, r);
      NextKeepsBooks(c, w, registry, r);
      CompleteKeepsBooks(c, w, registry, Next(c, w, r));
    }
  }

  /** Every step of a run is the registry's reply to its call, in the state in which the call found
      the registry, whatever other users did to it meanwhile. */
  lemma RunsKeepBooks(c: Config, w: World, registry: Registry, goal: string)
    ensures OwnBooks(c, w, registry, Execute(c, w, registry, goal))
  {
    hide Complete;
    CompleteKeepsBooks(c, w, registry, Start(c, registry, goal));
  }

  // ---------------------------------------------------------------------------
  // Accounting while others use the registry too.

  /** The calls that reached their tool and were answered. */
  function OwnWins(cfg: BreakerConfig, found: seq<Registry>, calls: seq<Call>): nat
    requires |found| == |calls|
  {
    if calls == [] then 0
    else
      var n := |calls| - 1;
      OwnWins(cfg, found[..n], calls[..n])
      + if Reaches(cfg, found[n], calls[n]) && calls[n].exchange.reply.Ok? then 1 else 0
  }

  /** The calls that reached their tool and failed there. */
  function OwnLosses(cfg: BreakerConfig, found: seq<Registry>, calls: seq<Call>): nat
    requires |found| == |calls|
  {
    if calls == [] then 0
    else
      var n := |calls| - 1;
      OwnLosses(cfg, found[..n], calls[..n])
      + if Reaches(cfg, found[n], calls[n]) && calls[n].exchange.reply.Err? then 1 else 0
  }

  function OwnRejections(cfg: BreakerConfig, found: seq<Registry>, calls: seq<Call>): nat
    requires |found| == |calls|
  {
    if calls == [] then 0
    else
      var n := |calls| - 1;
      OwnRejections(cfg, found[..n], calls[..n]) + if Reaches(cfg, found[n], calls[n]) then 0 else 1
  }

  lemma {:induction false} EntriesAddUp(cfg: BreakerConfig, found: seq<Registry>, calls: seq<Call>,
                                        steps: seq<TaskStep>)
    requires |found| == |calls| == |steps|
    requires forall i | 0 <= i < |steps| :: steps[i] == StepFor(calls[i], ReplyTo(cfg, found[i], calls[i]))
    ensures Successes(steps) == OwnWins(cfg, found, calls)
    ensures Errors(steps) == OwnLosses(cfg, found, calls) + OwnRejections(cfg, found, calls)
  {
    if steps != [] {
      var n := |steps| - 1;
      EntriesAddUp(cfg, found[..n], calls[..n], steps[..n]);
      ReplyMatchesRecord(cfg, found[n], calls[n]);
    }
  }

  /** Whatever other tasks do to the shared breakers: the successful steps of a run are the
      successes it recorded itself, and its failed steps are the failures it recorded itself plus
      its calls that were rejected before a tool ran. */
  lemma {:induction false} StepsMatchOwnRecords(c: Config, w: World, registry: Registry, goal: string)
    ensures var end := Execute(c, w, registry, goal);
      && |end.found| == |end.calls|
      && Successes(end.steps) == OwnWins(c.breaker, end.found, end.calls)
      && Errors(end.steps)
         == OwnLosses(c.breaker, end.found, end.calls) + OwnRejections(c.breaker, end.found, end.calls)
  {
    hide Complete;
    RunsKeepBooks(c, w, registry, goal);
    var end := Execute(c, w, registry, goal);
    forall i | 0 <= i < |end.steps|
      ensures end.steps[i] == StepFor(end.calls[i], ReplyTo(c.breaker, end.found[i], end.calls[i]))
    {
      assert OwnEntry(c, w, registry, end, i);
    }
    EntriesAddUp(c.breaker, end.found, end.calls, end.steps);
  }

  // ---------------------------------------------------------------------------
  // Accounting when nobody else uses the registry during the run.

  ghost predicate SameBooks(c: Config, w: World, registry: Registry, r: Run) {
    && |r.steps| == |r.calls|
    && r.registry == AfterCalls(c.breaker, registry, r.calls)
    && forall i: nat | i < |r.steps| :: EntryMatches(c, w, registry, r.calls, r.steps, i)
  }

  lemma {:induction false} FoundIsAfterCalls(c: Config, w: World, registry: Registry, r: Run, i: nat)
    requires w.Undisturbed() && OwnBooks(c, w, registry, r) && i < |r.calls|
    ensures r.found[i] == AfterCalls(c.breaker, registry, r.calls[..i])
  {
    assert OwnEntry(c, w, registry, r, i);
    if i > 0 {
      FoundIsAfterCalls(c, w, registry, r, i - 1);
      assert r.calls[..i][..i - 1] == r.calls[..i - 1];
    }
  }

  lemma RunsAloneKeepBooks(c: Config, w: World, registry: Registry, goal: string)
    requires w.Undisturbed()
    ensures SameBooks(c, w, registry, Execute(c, w, registry, goal))
  {
    hide Complete, ReplyTo, AfterCall;
    RunsKeepBooks(c, w, registry, goal);
    var end := Execute(c, w, registry, goal);
    forall i: nat | i < |end.steps|
      ensures EntryMatches(c, w, registry, end.calls, end.steps, i)
    {
      assert OwnEntry(c, w, registry, end, i);
      FoundIsAfterCalls(c, w, registry, end, i);
    }
    if end.calls != [] {
      FoundIsAfterCalls(c, w, registry, end, |end.calls| - 1);
    }
  }

  lemma {:induction false} SuccessesAreAnswers(c: Config, w: World, registry: Registry, calls: seq<Call>,
                                               steps: seq<TaskStep>)
    requires |calls| == |steps|
    requires forall i: nat | i < |steps| :: EntryMatches(c, w, registry, calls, steps, i)
    ensures Successes(steps) == Answers(c.breaker, registry, calls)
  {
    if steps != [] {
      var n := |steps| - 1;
      forall i: nat | i < n
        ensures EntryMatches(c, w, registry, calls[..n], steps[..n], i)
      {
        assert EntryMatches(c, w, registry, calls, steps, i);
        assert calls[..n][..i] == calls[..i];
      }
      SuccessesAreAnswers(c, w, registry, calls[..n], steps[..n]);
      assert EntryMatches(c, w, registry, calls, steps, n);
    }
  }

  lemma {:induction false} CallsJoin(cfg: BreakerConfig, registry: Registry, past: seq<Call>, calls: seq<Call>)
    ensures AfterCalls(cfg, AfterCalls(cfg, registry, past), calls) == AfterCalls(cfg, registry, past + calls)
    decreases |calls|
  {
    if calls == [] {
      assert past + calls == past;
    } else {
      CallsJoin(cfg, registry, past, calls[..|calls| - 1]);
      assert (past + calls)[..|past + calls| - 1] == past + calls[..|calls| - 1];
    }
  }

  /** Runs that share a registry one after the other act on it as one long sequence of calls, so
      the laws of the registry and of its breakers hold across tasks. */
  lemma {:induction false} RunsExtendHistory(c: Config, w: World, registry: Registry, past: seq<Call>, goal: string)
    requires w.Undisturbed()
    ensures var end := Execute(c, w, AfterCalls(c.breaker, registry, past), goal);
      end.registry == AfterCalls(c.breaker, registry, past + end.calls)
  {
    hide Complete;
    var now := AfterCalls(c.breaker, registry, past);
    RunsAloneKeepBooks(c, w, now, goal);
    CallsJoin(c.breaker, registry, past, Execute(c, w, now, goal).calls);
  }

  /** Answers and rejections add up when calls follow earlier ones. */
  lemma {:induction false} AnswersJoin(cfg: BreakerConfig, registry: Registry, past: seq<Call>, calls: seq<Call>)
    ensures Answers(cfg, registry, past + calls)
         == Answers(cfg, registry, past) + Answers(cfg, AfterCalls(cfg, registry, past), calls)
    ensures Rejections(cfg, registry, past + calls)
         == Rejections(cfg, registry, past) + Rejections(cfg, AfterCalls(cfg, registry, past), calls)
    decreases |calls|
  {
    if calls == [] {
      assert past + calls == past;
    } else {
      var n := |calls| - 1;
      AnswersJoin(cfg, registry, past, calls[..n]);
      CallsJoin(cfg, registry, past, calls[..n]);
      assert (past + calls)[..|past + calls| - 1] == past + calls[..n];
    }
  }

  /** Cross-layer accounting, on a registry that earlier tasks may have used in any way: the
      successful steps of a run are the successes that all breakers together recorded during it,
      and its failed steps are the failures they recorded plus the calls rejected before a tool
      ran. */
  lemma {:induction false} StepsMatchBreakers(c: Config, w: World, registry: Registry, past: seq<Call>, goal: string)
    requires registry.Fresh() && w.Undisturbed()
    ensures var warm := AfterCalls(c.breaker, registry, past);
      var end := Execute(c, w, warm, goal);
      var names, tools, all := registry.tools.Keys, registry.tools, past + end.calls;
      && Successes(end.steps)
         == Sum(names, WinsOf(c.breaker, tools, all)) - Sum(names, WinsOf(c.breaker, tools, past))
      && Errors(end.steps)
         == Sum(names, LossesOf(c.breaker, tools, all)) - Sum(names, LossesOf(c.breaker, tools, past))
            + Rejections(c.breaker, warm, end.calls)
  {
    hide Complete, AfterCalls;
    var warm := AfterCalls(c.breaker, registry, past);
    RunsAloneKeepBooks(c, w, warm, goal);
    var end := Execute(c, w, warm, goal);
    SuccessesAreAnswers(c, w, warm, end.calls, end.steps);
    StepsAreSuccessesOrErrors(end.steps);
    AnswersJoin(c.breaker, registry, past, end.calls);
    CallsAreAccountedFor(c.breaker, registry, past);
    CallsAreAccountedFor(c.breaker, registry, past + end.calls);
  }

  /** Time as the run reads it does not go backwards, and it continues that of the past calls. */
  ghost predicate WorldClocked(w: World, past: seq<Call>) {
    && CallsClocked(past)
    && (forall i: nat :: w.dispatch(i).admitAt <= w.dispatch(i).recordAt)
    && (forall i: nat, j: nat | i < j :: w.dispatch(i).recordAt <= w.dispatch(j).admitAt)
    && forall call, i: nat | call in past :: call.exchange.recordAt <= w.dispatch(i).admitAt
  }

  /** In any run, on a registry that earlier tasks may have used in any way: while a tool fails
      every time it runs, before and during the run, it is started at most threshold + D / recovery
      times within D milliseconds, however the model keeps choosing it. */
  lemma {:induction false} RunRateBound(c: Config, w: World, registry: Registry, past: seq<Call>, goal: string,
                                        name: string, duration: nat, i: nat, j: nat)
    requires registry.Fresh() && w.Undisturbed() && WorldClocked(w, past) && c.breaker.recoveryMs > 0
    requires var all := past + Execute(c, w, AfterCalls(c.breaker, registry, past), goal).calls;
      && name in registry.tools && i <= j < |ExecutionsOf(c.breaker, registry, all, name)|
      && forall k | i <= k <= j :: ExecutionsOf(c.breaker, registry, all, name)[k].reply.Err?
    ensures var end := Execute(c, w, AfterCalls(c.breaker, registry, past), goal);
      var executions := ExecutionsOf(c.breaker, registry, past + end.calls, name);
      && end.registry == AfterCalls(c.breaker, registry, past + end.calls)
      && (executions[j].admitAt <= executions[i].admitAt + duration ==>
            j - i < AtLeastOne(c.breaker.failureThreshold) + duration / c.breaker.recoveryMs)
  {
    hide Complete, AfterCalls, ExecutionsOf;
    var warm := AfterCalls(c.breaker, registry, past);
    RunsAloneKeepBooks(c, w, warm, goal);
    RunsExtendHistory(c, w, registry, past, goal);
    var end := Execute(c, w, warm, goal);
    forall k: nat | k < |end.calls|
      ensures end.calls[k].exchange == w.dispatch(k)
    {
      assert EntryMatches(c, w, warm, end.calls, end.steps, k);
    }
    ToolRateBound(c.breaker, registry, past + end.calls, name, duration, i, j);
  }
}
