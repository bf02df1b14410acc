/** Independent subtasks run by branch executors of their own and joined as they finish. */
module ParallelBranches {
  import opened Prelude
  import opened ToolRegistry
  import opened ExecutorModel
  import opened ShortTermMemory
  import opened ExecutorLaws
  import opened LoopLaws
  import opened MemoryLaws
  import opened RegistryLaws

  /** How a branch task ended: with what its executor returned, or by a panic. */
  datatype Ending = Returned(verdict: Verdict) | Panicked(message: string)

  datatype ParallelError = Plan(error: PlanError) | Join(message: string)

  predicate Succeeded(ending: Ending) {
    ending.Returned? && ending.verdict.Ok?
  }

  function ErrorOf(ending: Ending): ParallelError
    requires !Succeeded(ending)
  {
    if ending.Panicked? then Join(ending.message) else Plan(ending.verdict.error)
  }

  /** The error tells how the branch ended: what its executor returned, or that it panicked. */
  predicate IsErrorOf(error: ParallelError, ending: Ending) {
    match error
    case Plan(e) => ending == Returned(Err(e))
    case Join(message) => ending == Panicked(message)
  }

  /** The result of joining branches in this order; the first failure wins. */
  function Collect(joined: seq<Ending>): Result<seq<TaskResult>, ParallelError> {
    if joined == [] then Ok([])
    else
      var earlier, last := Collect(joined[..|joined| - 1]), joined[|joined| - 1];
      if earlier.Err? then earlier
      else if Succeeded(last) then Ok(earlier.value + [last.verdict.value])
      else Err(ErrorOf(last))
  }

  lemma CollectOfAppend(joined: seq<Ending>, last: Ending)
    requires Collect(joined).Ok?
    ensures Collect(joined + [last])
         == if Succeeded(last) then Ok(Collect(joined).value + [last.verdict.value]) else Err(ErrorOf(last))
  {
    assert (joined + [last])[..|joined|] == joined;
  }

  function Endings(results: seq<TaskResult>): seq<Ending> {
    seq(|results|, i requires 0 <= i < |results| => Returned(Ok(results[i])))
  }

  lemma {:induction false} CollectKeepsAll(joined: seq<Ending>)
    ensures Collect(joined).Ok? <==> forall e | e in joined :: Succeeded(e)
    ensures Collect(joined).Ok? ==> Endings(Collect(joined).value) == joined
    ensures Collect(joined).Err? ==>
      exists i | 0 <= i < |joined| :: FailsFirst(joined, i) && IsErrorOf(Collect(joined).error, joined[i])
  {
    if joined != [] {
      var earlier, last := joined[..|joined| - 1], joined[|joined| - 1];
      assert joined == earlier + [last];
      CollectKeepsAll(earlier);
      if Collect(earlier).Ok? {
        CollectOfAppend(earlier, last);
        assert !Succeeded(last) ==> FailsFirst(joined, |joined| - 1);
      } else {
        var i :| 0 <= i < |earlier| && FailsFirst(earlier, i) && IsErrorOf(Collect(earlier).error, earlier[i]);
        assert FailsFirst(joined, i);
      }
    }
  }

  /** Branch `i` failed or panicked, and every branch joined before it succeeded. */
  predicate FailsFirst(joined: seq<Ending>, i: nat)
    requires i < |joined|
  {
    !Succeeded(joined[i]) && forall k | 0 <= k < i :: Succeeded(joined[k])
  }

  /** For every order in which the branches can be joined: the results are exactly the results of
      all branches when every branch succeeded, and otherwise the error is that of some branch. */
  lemma {:induction false} EveryOrderAgrees(branches: seq<Ending>, joined: seq<Ending>)
    requires multiset(joined) == multiset(branches)
    ensures Collect(joined).Ok? <==> forall e | e in branches :: Succeeded(e)
    ensures Collect(joined).Ok? ==>
      && multiset(Endings(Collect(joined).value)) == multiset(branches)
      && |Collect(joined).value| == |branches|
    ensures Collect(joined).Err? ==>
      exists e :: e in branches && IsErrorOf(Collect(joined).error, e)
  {
    CollectKeepsAll(joined);
    assert |joined| == |multiset(joined)| == |branches|;
    assert forall e :: e in joined <==> e in multiset(joined);
    assert forall e :: e in branches <==> e in multiset(branches);
  }

  /** A set of running branch tasks; which of them finishes next is arbitrary. */
  class JoinSet {
    var pending: multiset<Ending>

    constructor ()
      ensures pending == multiset{}
    {
      pending := multiset{};
    }

    method Spawn(ending: Ending)
      modifies this
      ensures pending == old(pending) + multiset{ending}
    {
      pending := pending + multiset{ending};
    }

    method JoinNext() returns (ending: Option<Ending>)
      modifies this
      ensures ending.None? <==> old(pending) == multiset{}
      ensures ending.None? ==> pending == old(pending)
      ensures ending.Some? ==> old(pending) == pending + multiset{ending.value}
    {
      if pending == multiset{} {
        return None;
      }
      var next :| next in pending;
      pending := pending - multiset{next};
      return Some(next);
    }
  }

  /** How the branches of these subtasks end. */
  function EndingsOf(subtasks: seq<string>, branch: (nat, string) -> Ending): (endings: seq<Ending>)
    ensures |endings| == |subtasks| && forall i | 0 <= i < |subtasks| :: endings[i] == branch(i, subtasks[i])
  {
    seq(|subtasks|, i requires 0 <= i < |subtasks| => branch(i, subtasks[i]))
  }

  lemma JoinedOutcome(endings: seq<Ending>, joined: seq<Ending>, left: multiset<Ending>,
                      result: Result<seq<TaskResult>, ParallelError>)
    requires multiset(joined) + left == multiset(endings)
    requires result.Ok? ==> Endings(result.value) == joined && left == multiset{}
    requires result.Err? ==> joined != [] && IsErrorOf(result.error, joined[|joined| - 1])
    ensures result.Ok? ==> multiset(Endings(result.value)) == multiset(endings) && |result.value| == |endings|
    ensures result.Err? ==> exists e :: e in endings && IsErrorOf(result.error, e)
  {
    if result.Err? {
      var e := joined[|joined| - 1];
      assert e in multiset(joined);
      assert e in multiset(endings);
      assert e in endings;
    } else {
      assert |joined| == |multiset(joined)| == |multiset(endings)|;
    }
  }

  /** Runs one branch for each subtask; `branch` says how each of them ends. */
  method ExecuteParallel(subtasks: seq<string>, branch: (nat, string) -> Ending)
    returns (result: Result<seq<TaskResult>, ParallelError>)
    ensures var endings := EndingsOf(subtasks, branch);
      && (result.Ok? <==> forall e | e in endings :: Succeeded(e))
      && (result.Ok? ==> multiset(Endings(result.value)) == multiset(endings) && |result.value| == |subtasks|)
      && (result.Err? ==> exists e :: e in endings && IsErrorOf(result.error, e))
  {
    hide Collect, EndingsOf, Endings;
    var joinSet := new JoinSet();
    ghost var endings := EndingsOf(subtasks, branch);
    for i := 0 to |subtasks|
      invariant joinSet.pending == multiset(endings[..i])
    {
      joinSet.Spawn(branch(i, subtasks[i]));
      assert endings[..i + 1] == endings[..i] + [endings[i]];
    }
    assert endings[..|subtasks|] == endings;
    ghost var joined;
    result, joined := JoinAll(joinSet, endings);
    JoinedOutcome(endings, joined, joinSet.pending, result);
  }

  lemma NothingJoined()
    ensures Collect([]) == Ok([])
  {
  }

  lemma OneMoreJoined(joined: seq<Ending>, ending: Ending)
    requires forall k | 0 <= k < |joined| :: Succeeded(joined[k])
    ensures Succeeded(ending) ==> forall k | 0 <= k < |joined + [ending]| :: Succeeded((joined + [ending])[k])
    ensures !Succeeded(ending) ==> FailsFirst(joined + [ending], |joined|) && IsErrorOf(ErrorOf(ending), ending)
  {
  }

  /** The second loop: joins the branches as they finish, until one has failed or none is left. */
  method JoinAll(joinSet: JoinSet, ghost endings: seq<Ending>)
    returns (result: Result<seq<TaskResult>, ParallelError>, ghost joined: seq<Ending>)
    requires joinSet.pending == multiset(endings)
    modifies joinSet
    ensures result.Ok? <==> forall e | e in endings :: Succeeded(e)
    ensures multiset(joined) + joinSet.pending == multiset(endings)
    ensures result.Ok? ==> Endings(result.value) == joined && joinSet.pending == multiset{}
    ensures result.Err? ==>
      joined != [] && FailsFirst(joined, |joined| - 1) && IsErrorOf(result.error, joined[|joined| - 1])
  {
    hide Endings, Collect, FailsFirst, IsErrorOf;
    NothingJoined();
    var results: seq<TaskResult> := [];
    joined := [];
    while true
      invariant multiset(joined) + joinSet.pending == multiset(endings)
      invariant Collect(joined) == Ok(results)
      invariant forall k | 0 <= k < |joined| :: Succeeded(joined[k])
      decreases |joinSet.pending|
    {
      var next := joinSet.JoinNext();
      if next.None? {
        break;
      }
      CollectOfAppend(joined, next.value);
      OneMoreJoined(joined, next.value);
      joined := joined + [next.value];
      if !Succeeded(next.value) {
        assert next.value in multiset(endings);
        return Err(ErrorOf(next.value)), joined;
      }
      results := results + [next.value.verdict.value];
    }
    EveryOrderAgrees(endings, joined);
    CollectKeepsAll(joined);
    return Ok(results), joined;
  }

  // ---------------------------------------------------------------------------
  // Branches that are runs of the executor.

  /** One branch: its subtask, the world it sees, and whether its task panicked. The branches use
      one registry at the same time; what they do to each other's breakers is part of `world`. */
  datatype Branch = Branch(subtask: string, world: World, panic: Option<string>)

  /** A branch executor keeps the plan configuration and has everything else at its default:
      no episodic log, and a loop at 3 identical calls among the last 10. */
  function BranchConfig(c: Config): Config {
    c.(keepsEpisodes := false, windowSize := 10, repeatThreshold := 3)
  }

  ghost function RunOf(c: Config, registry: Registry, branch: Branch): (end: Run)
    ensures end.phase.Finished?
  {
    Execute(BranchConfig(c), branch.world, registry, branch.subtask)
  }

  ghost function EndingOf(c: Config, registry: Registry, branch: Branch): Ending {
    if branch.panic.Some? then Panicked(branch.panic.value)
    else Returned(RunOf(c, registry, branch).phase.verdict)
  }

  ghost predicate IsEndingOf(c: Config, registry: Registry, branches: seq<Branch>, endings: seq<Ending>) {
    |endings| == |branches| && forall i | 0 <= i < |branches| :: endings[i] == EndingOf(c, registry, branches[i])
  }

  predicate ResultBalances(c: Config, result: TaskResult) {
    && result.outcome == Success
    && Successes(result.steps) == result.iterations - 1 < c.maxIterations
    && Errors(result.steps) == result.totalReplans < c.TaskLimit()
  }

  lemma BranchBalances(c: Config, registry: Registry, branch: Branch)
    ensures var ending := EndingOf(c, registry, branch);
      Succeeded(ending) ==> ResultBalances(c, ending.verdict.value)
    ensures RunOf(c, registry, branch).episodes == []
    ensures |RunOf(c, registry, branch).talk.asked|
         <= Min(c.maxIterations + c.TaskLimit() - 1, c.maxIterations * c.StepLimit())
  {
    hide Complete;
    var config := BranchConfig(c);
    Conservation(config, branch.world, registry, branch.subtask);
    Ceilings(config, branch.world, registry, branch.subtask);
    RunsBalance(config, branch.world, registry, branch.subtask);
    CompleteKeepsEpisodes(config, branch.world, branch.subtask, Start(config, registry, branch.subtask));
  }

  /** Whatever the branches do to the breakers they share and in whatever order they finish: each
      collected result keeps its own books, with one successful step for each iteration but the
      last and one failed step for each replan, and the results come from all the subtasks. */
  lemma {:induction false} CollectedResultsBalance(c: Config, registry: Registry, branches: seq<Branch>,
    endings: seq<Ending>, joined: seq<Ending>)
    requires IsEndingOf(c, registry, branches, endings)
    requires multiset(joined) == multiset(endings) && Collect(joined).Ok?
    ensures |Collect(joined).value| == |branches|
    ensures forall i | 0 <= i < |Collect(joined).value| :: ResultBalances(c, Collect(joined).value[i])
  {
    EveryOrderAgrees(endings, joined);
    CollectKeepsAll(joined);
    var results := Collect(joined).value;
    forall i | 0 <= i < |results|
      ensures ResultBalances(c, results[i])
    {
      assert Endings(results)[i] == Returned(Ok(results[i]));
      assert joined[i] in multiset(joined);
      assert joined[i] in endings;
      var k :| 0 <= k < |endings| && endings[k] == joined[i];
      BranchBalances(c, registry, branches[k]);
    }
  }

  /** Every branch run detects loops as the defaults say: no hash occurs more than 3 times among any
      10 consecutive calls, and a reported loop is a third identical call. */
  lemma {:induction false} BranchesStopAtThreeRepeats(c: Config, registry: Registry, branch: Branch,
                                                      i: nat, j: nat, h: nat)
    requires i <= j <= |RunOf(c, registry, branch).calls| && j - i <= 10
    ensures var end := RunOf(c, registry, branch);
      && multiset(Hashes(c, end.calls)[i..j])[h] <= 3
      && (forall report | end.phase == Finished(Err(Loop(report))) ::
            report.count == 3 && multiset(LastN(Hashes(c, end.calls), 10))[report.hash] == 3)
  {
    hide Complete;
    var config, end := BranchConfig(c), RunOf(c, registry, branch);
    assert Hashes(config, end.calls) == Hashes(c, end.calls);
    NoHashExceedsThreshold(config, branch.world, registry, branch.subtask, i, j, h);
    forall report | end.phase == Finished(Err(Loop(report)))
      ensures report.count == 3 && multiset(LastN(Hashes(c, end.calls), 10))[report.hash] == 3
    {
      LoopReportIsExact(config, branch.world, registry, branch.subtask, report);
    }
  }

  /** Everything else a branch inherits: its replan limits and iterations, the budget of its memory and
      when that is summarised, and how the breakers behave. */
  lemma {:induction false} BranchesInheritThePlan(c: Config, registry: Registry, branch: Branch)
    ensures var end := RunOf(c, registry, branch);
      && (TrailingErrors(end.steps) >= c.StepLimit() <==>
            end.steps != [] &&
            end.phase == Finished(Err(MaxReplansPerStep(c.StepLimit(), end.steps[|end.steps| - 1].action))))
      && (TrailingErrors(end.steps) < c.StepLimit() && Errors(end.steps) >= c.TaskLimit() <==>
            end.phase == Finished(Err(MaxReplansPerTask(c.TaskLimit()))))
      && (forall n | end.phase == Finished(Err(MaxIterationsReached(n))) ::
            n == c.maxIterations == Successes(end.steps))
      && Remembers(c, end.talk)
      && OwnBooks(c, branch.world, registry, end)
  {
    hide Complete, LongestFitting, SinceSummary;
    var config, end := BranchConfig(c), RunOf(c, registry, branch);
    StepLogShape(config, branch.world, registry, branch.subtask);
    Conservation(config, branch.world, registry, branch.subtask);
    RunsRemember(config, branch.world, registry, branch.subtask);
    SameMemory(c, config, end.talk);
    RunsKeepBooks(config, branch.world, registry, branch.subtask);
    SameBreakers(c, config, branch.world, registry, end);
  }

  lemma SameMemory(c: Config, d: Config, talk: Conversation)
    requires Remembers(d, talk) && d.stmTokenBudget == c.stmTokenBudget && d.nearBudget == c.nearBudget
    ensures Remembers(c, talk)
  {
    hide LongestFitting, SinceSummary;
    forall i: nat | i < |talk.digested|
      ensures DigestIsBest(c, talk, i)
    {
      assert DigestIsBest(d, talk, i);
    }
  }

  lemma SameBreakers(c: Config, d: Config, w: World, registry: Registry, r: Run)
    requires OwnBooks(d, w, registry, r) && d.breaker == c.breaker
    ensures OwnBooks(c, w, registry, r)
  {
    forall i: nat | i < |r.steps|
      ensures OwnEntry(c, w, registry, r, i)
    {
      assert OwnEntry(d, w, registry, r, i);
    }
  }

  function Requests(runs: seq<Run>): nat {
    if runs == [] then 0 else Requests(runs[..|runs| - 1]) + |runs[|runs| - 1].talk.asked|
  }

  lemma {:induction false} RequestsAddUp(runs: seq<Run>, most: nat)
    requires forall r | r in runs :: |r.talk.asked| <= most
    ensures Requests(runs) <= |runs| * most
  {
    if runs != [] {
      RequestsAddUp(runs[..|runs| - 1], most);
      assert |runs| * most == (|runs| - 1) * most + most;
    }
  }

  /** Together the branches make at most as many requests for each subtask as one task may. */
  lemma {:induction false} BranchRequestsAreBounded(c: Config, registry: Registry, branches: seq<Branch>,
                                                    runs: seq<Run>)
    requires |runs| == |branches|
    requires forall i | 0 <= i < |runs| :: runs[i] == RunOf(c, registry, branches[i])
    ensures Requests(runs) <= |branches| * (c.maxIterations + c.TaskLimit() - 1)
  {
    forall i | 0 <= i < |runs|
      ensures |runs[i].talk.asked| <= c.maxIterations + c.TaskLimit() - 1
    {
      BranchBalances(c, registry, branches[i]);
    }
    RequestsAddUp(runs, c.maxIterations + c.TaskLimit() - 1);
  }
}
