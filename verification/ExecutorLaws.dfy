/** Conservation, ceilings and the shape of the step log, for every run of the executor. */
module ExecutorLaws {
  import opened Prelude
  import opened ToolRegistry
  import opened ExecutorModel

  // ---------------------------------------------------------------------------
  // Reading a step log.

  function Successes(steps: seq<TaskStep>): nat {
    if steps == [] then 0
    else Successes(steps[..|steps| - 1]) + if steps[|steps| - 1].success then 1 else 0
  }

  function Errors(steps: seq<TaskStep>): nat {
    if steps == [] then 0
    else Errors(steps[..|steps| - 1]) + if steps[|steps| - 1].success then 0 else 1
  }

  /** Length of the run of errors at the end of the log. */
  function TrailingErrors(steps: seq<TaskStep>): nat {
    if steps == [] || steps[|steps| - 1].success then 0 else 1 + TrailingErrors(steps[..|steps| - 1])
  }

  /** Wherever the log is cut, fewer than `limit` errors in a row end there; the whole log itself
      is not looked at. */
  predicate RunsBelow(steps: seq<TaskStep>, limit: nat) {
    forall k: nat | k < |steps| :: TrailingErrors(steps[..k]) < limit
  }

  lemma CountsOfAppend(steps: seq<TaskStep>, step: TaskStep)
    ensures Successes(steps + [step]) == Successes(steps) + (if step.success then 1 else 0)
    ensures Errors(steps + [step]) == Errors(steps) + (if step.success then 0 else 1)
    ensures TrailingErrors(steps + [step]) == (if step.success then 0 else TrailingErrors(steps) + 1)
  {
    assert (steps + [step])[..|steps|] == steps;
  }

  lemma RunsOfAppend(steps: seq<TaskStep>, step: TaskStep, limit: nat)
    requires RunsBelow(steps, limit) && TrailingErrors(steps) < limit
    ensures RunsBelow(steps + [step], limit)
  {
    forall k: nat | k < |steps + [step]|
      ensures TrailingErrors((steps + [step])[..k]) < limit
    {
      assert (steps + [step])[..k] == steps[..k];
      if k == |steps| {
        assert steps[..k] == steps;
      }
    }
  }

  lemma {:induction false} StepsAreSuccessesOrErrors(steps: seq<TaskStep>)
    ensures |steps| == Successes(steps) + Errors(steps)
  {
    if steps != [] {
      StepsAreSuccessesOrErrors(steps[..|steps| - 1]);
    }
  }

  /** Every success pays for one block of errors. */
  lemma {:induction false} ErrorsFitBlocks(steps: seq<TaskStep>, limit: nat)
    requires limit > 0 && RunsBelow(steps, limit)
    ensures Errors(steps) <= Successes(steps) * (limit - 1) + TrailingErrors(steps)
  {
    if steps != [] {
      var earlier := steps[..|steps| - 1];
      forall k: nat | k < |earlier|
        ensures TrailingErrors(earlier[..k]) < limit
      {
        assert earlier[..k] == steps[..k];
      }
      ErrorsFitBlocks(earlier, limit);
      assert TrailingErrors(earlier) < limit;
      assert (Successes(earlier) + 1) * (limit - 1) == Successes(earlier) * (limit - 1) + (limit - 1);
    }
  }

  // ---------------------------------------------------------------------------
  // The ledger: what the counters say at every point of a run.

  /** Counters while a run is going on; `extra` requests beyond one per success and error. */
  predicate Balanced(c: Config, r: Run, extra: nat) {
    && |r.talk.asked| == Successes(r.steps) + r.totalReplans + extra
    && r.totalReplans < c.TaskLimit()
    && TrailingErrors(r.steps) < c.StepLimit()
  }

  predicate VerdictBalances(c: Config, r: Run, verdict: Verdict) {
    match verdict
    case Ok(result) =>
      && Balanced(c, r, 1)
      && result.outcome == Success && result.steps == r.steps
      && result.totalReplans == r.totalReplans
      && result.iterations == Successes(r.steps) + 1 <= c.maxIterations
    case Err(MaxIterationsReached(n)) =>
      Balanced(c, r, 0) && n == c.maxIterations == Successes(r.steps) && TrailingErrors(r.steps) == 0
    case Err(MaxReplansPerStep(n, action)) =>
      && n == c.StepLimit() == TrailingErrors(r.steps)
      && r.steps[|r.steps| - 1].action == action
      && r.totalReplans <= c.TaskLimit()
      && |r.talk.asked| == Successes(r.steps) + r.totalReplans
      && Successes(r.steps) < c.maxIterations
    case Err(MaxReplansPerTask(n)) =>
      && n == c.TaskLimit() == r.totalReplans
      && TrailingErrors(r.steps) < c.StepLimit()
      && |r.talk.asked| == Successes(r.steps) + r.totalReplans
      && Successes(r.steps) < c.maxIterations
    case Err(Loop(_)) => Balanced(c, r, 1) && Successes(r.steps) < c.maxIterations
    case Err(Ipc(_)) => (Balanced(c, r, 0) || Balanced(c, r, 1)) && Successes(r.steps) < c.maxIterations
  }

  predicate Ledger(c: Config, r: Run) {
    && |r.calls| == |r.steps|
    && Errors(r.steps) == r.totalReplans
    && RunsBelow(r.steps, c.StepLimit())
    && match r.phase
       case Deciding =>
         Balanced(c, r, 0) && Successes(r.steps) == r.iteration && TrailingErrors(r.steps) == 0
       case Dispatching(_, _, _) =>
         Balanced(c, r, 1) && Successes(r.steps) == r.iteration && TrailingErrors(r.steps) == r.stepReplans
       case Observed(_, _) =>
         Balanced(c, r, 0) && Successes(r.steps) == r.iteration + 1 && TrailingErrors(r.steps) == 0
       case Answered(_, _) => Balanced(c, r, 1) && Successes(r.steps) == r.iteration
       case Finished(verdict) => VerdictBalances(c, r, verdict)
  }

  lemma ConsultKeepsLedger(c: Config, w: World, r: Run, replan: Option<string>)
    requires r.iteration < c.maxIterations
    requires |r.calls| == |r.steps|
    requires Errors(r.steps) == r.totalReplans && RunsBelow(r.steps, c.StepLimit())
    requires Balanced(c, r, 0) && Successes(r.steps) == r.iteration
    requires TrailingErrors(r.steps) == r.stepReplans
    ensures Ledger(c, Consult(c, w, r, replan))
  {
    hide Successes, Errors, TrailingErrors, RunsBelow, ShortTermMemory.Admit;
  }

  lemma DecideKeepsLedger(c: Config, w: World, r: Run)
    requires InRange(c, r) && Ledger(c, r) && r.phase.Deciding?
    ensures Ledger(c, Decide(c, w, r))
  {
    if r.iteration < c.maxIterations {
      var (talk, error) := Compress(c, w, r.talk);
      if error.None? {
        ConsultKeepsLedger(c, w, r.(talk := talk, stepReplans := 0), None);
      }
    }
  }

  lemma OutputKeepsLedger(c: Config, w: World, r: Run, output: Json)
    requires InRange(c, r) && Ledger(c, r) && r.phase.Dispatching?
    ensures Ledger(c, AfterOutput(Called(c, w, r), output))
  {
    var step := TaskStep(r.phase.action, r.phase.input, true, None);
    CountsOfAppend(r.steps, step);
    RunsOfAppend(r.steps, step, c.StepLimit());
  }

  lemma ErrorKeepsLedger(c: Config, w: World, r: Run, error: string)
    requires InRange(c, r) && Ledger(c, r) && r.phase.Dispatching?
    ensures Ledger(c, AfterError(c, w, Called(c, w, r), error))
  {
    hide Consult, Push, ErrorContext, AfterCall;
    var step := TaskStep(r.phase.action, r.phase.input, false, Some(error));
    CountsOfAppend(r.steps, step);
    RunsOfAppend(r.steps, step, c.StepLimit());
    var failed := Charged(Called(c, w, r), error);
    if failed.stepReplans < c.maxReplansPerStep && failed.totalReplans < c.maxReplansPerTask {
      var told := Told(c, failed, error);
      assert told.talk.asked == r.talk.asked by { PushAsksNothing(c, r.talk, ErrorContext(r.phase.action, error)); }
      ConsultKeepsLedger(c, w, told, Some(r.phase.opener));
    }
  }

  lemma PushAsksNothing(c: Config, talk: Conversation, text: string)
    ensures Push(c, talk, ShortTermMemory.User, text).asked == talk.asked
  {
  }

  lemma NextKeepsLedger(c: Config, w: World, r: Run)
    requires InRange(c, r) && Ledger(c, r) && !r.phase.Finished?
    ensures Ledger(c, Next(c, w, r))
  {
    hide Consult, Decide, AfterError;
    match r.phase
    case Deciding => DecideKeepsLedger(c, w, r);
    case Dispatching(_, _, _) =>
      if !LoopDetector.Loops(r.window, c.repeatThreshold) {
        match PendingReply(c, w, r)
        case Ok(output) => OutputKeepsLedger(c, w, r, output);
        case Err(e) => ErrorKeepsLedger(c, w, r, e.ToString());
      }
    case Observed(_, _) =>
    case Answered(_, _) =>
  }

  lemma {:induction false} CompleteKeepsLedger(c: Config, w: World, r: Run)
    requires InRange(c, r) && Ledger(c, r)
    ensures Ledger(c, Complete(c, w, r))
    decreases c.maxIterations - r.iteration, Rank(c, r)
  {
    hide Next;
    if !r.phase.Finished? {
      NextDescends(c, w, r);
      NextKeepsLedger(c, w, r);
      CompleteKeepsLedger(c, w, Next(c, w, r));
    }
  }

  lemma {:induction false} RunsBalance(c: Config, w: World, registry: Registry, goal: string)
    ensures Ledger(c, Execute(c, w, registry, goal))
  {
    CompleteKeepsLedger(c, w, Start(c, registry, goal));
  }

  // ---------------------------------------------------------------------------
  // What that means for finished runs.

  /** On success every iteration but the last contributed one successful step, every error one
      replan, and the model was asked once for each. On exhaustion every iteration succeeded. */
  lemma {:induction false} Conservation(c: Config, w: World, registry: Registry, goal: string)
    ensures var end := Execute(c, w, registry, goal);
      match end.phase.verdict
      case Ok(result) =>
        && result.steps == end.steps
        && Successes(result.steps) == result.iterations - 1
        && Errors(result.steps) == result.totalReplans
        && |end.talk.asked| == result.iterations + result.totalReplans
        && |end.calls| == |result.steps|
      case Err(MaxIterationsReached(n)) =>
        && n == c.maxIterations == Successes(end.steps)
        && |end.talk.asked| == n + Errors(end.steps)
      case Err(_) => |end.calls| == |end.steps|
  {
    hide Complete;
    RunsBalance(c, w, registry, goal);
  }

  lemma ErrorsOfSuccess(steps: seq<TaskStep>, limit: nat)
    requires limit > 0 && RunsBelow(steps, limit) && TrailingErrors(steps) < limit
    ensures Errors(steps) <= (Successes(steps) + 1) * (limit - 1)
  {
    ErrorsFitBlocks(steps, limit);
    var n := Successes(steps);
    assert (n + 1) * (limit - 1) == n * (limit - 1) + (limit - 1);
  }

  /** The steps that this many full iterations can take. */
  function Full(iterations: nat, limit: nat): nat {
    iterations * limit
  }

  lemma FitsIterations(successes: nat, extra: nat, iterations: nat, limit: nat)
    requires successes < iterations && extra <= limit
    ensures Full(successes, limit) + extra <= Full(iterations, limit)
  {
    var left: nat := iterations - successes - 1;
    assert iterations == successes + 1 + left;
    assert iterations * limit == successes * limit + limit + left * limit;
  }

  lemma StepsFitBlocks(steps: seq<TaskStep>, limit: nat)
    requires limit > 0 && RunsBelow(steps, limit)
    ensures Successes(steps) + Errors(steps) <= Full(Successes(steps), limit) + TrailingErrors(steps)
  {
    hide RunsBelow, Successes, Errors, TrailingErrors;
    ErrorsFitBlocks(steps, limit);
    var n := Successes(steps);
    assert n * limit == n * (limit - 1) + n;
  }

  /** No iteration takes more requests, or logs more steps, than the step limit. */
  lemma IterationsAreShort(c: Config, r: Run, verdict: Verdict)
    requires Ledger(c, r) && r.phase == Finished(verdict)
    ensures |r.talk.asked| <= Full(c.maxIterations, c.StepLimit())
    ensures |r.steps| <= Full(c.maxIterations, c.StepLimit())
  {
    hide RunsBelow, Successes, Errors, TrailingErrors, Full;
    var n, s := Successes(r.steps), c.StepLimit();
    StepsAreSuccessesOrErrors(r.steps);
    StepsFitBlocks(r.steps, s);
    if n < c.maxIterations {
      FitsIterations(n, s, c.maxIterations, s);
    }
  }

  /** Ceilings that hold for any model and any tools. */
  lemma {:induction false} Ceilings(c: Config, w: World, registry: Registry, goal: string)
    ensures var end := Execute(c, w, registry, goal);
      var most := Min(c.maxIterations + c.TaskLimit() - 1, c.maxIterations * c.StepLimit());
      && |end.talk.asked| <= most && |end.steps| <= most
      && (end.phase.verdict.Ok? ==>
            var result := end.phase.verdict.value;
            result.totalReplans < c.TaskLimit() && result.totalReplans <= result.iterations * (c.StepLimit() - 1))
  {
    hide Complete;
    var end := Execute(c, w, registry, goal);
    RunsBalance(c, w, registry, goal);
    StepsAreSuccessesOrErrors(end.steps);
    IterationsAreShort(c, end, end.phase.verdict);
    if end.phase.verdict.Ok? {
      ErrorsOfSuccess(end.steps, c.StepLimit());
    }
  }

  /** The step log is a sequence of blocks of fewer than the step limit's errors, each closed by a
      success, with a possibly unfinished last block. A full run of errors can only be the end of
      the log, and it is there exactly when the per-step error is returned; otherwise the per-task
      error is returned exactly when the task limit's number of errors was logged. */
  lemma {:induction false} StepLogShape(c: Config, w: World, registry: Registry, goal: string)
    ensures var end := Execute(c, w, registry, goal);
      var s, t := c.StepLimit(), c.TaskLimit();
      && (forall k: nat | k < |end.steps| :: TrailingErrors(end.steps[..k]) < s)
      && (TrailingErrors(end.steps) >= s <==>
            end.steps != [] &&
            end.phase == Finished(Err(MaxReplansPerStep(s, end.steps[|end.steps| - 1].action))))
      && (TrailingErrors(end.steps) < s && Errors(end.steps) >= t <==>
            end.phase == Finished(Err(MaxReplansPerTask(t))))
      && (end.phase.verdict.Err? && end.phase.verdict.error.MaxReplansPerStep? ==> TrailingErrors(end.steps) >= s)
      && (end.phase.verdict.Err? && end.phase.verdict.error.MaxReplansPerTask? ==> Errors(end.steps) == t)
  {
    hide Complete;
    RunsBalance(c, w, registry, goal);
  }

  // ---------------------------------------------------------------------------
  // Episodes.

  /** The record that a run in this phase should have left behind. */
  function EpisodesDue(c: Config, goal: string, steps: seq<TaskStep>, phase: Phase): seq<Episode> {
    if !c.keepsEpisodes || !phase.Finished? then []
    else match phase.verdict
      case Ok(_) => [Episode(goal, steps, Success, None)]
      case Err(MaxIterationsReached(_)) => [Episode(goal, steps, Failure, Some("task did not complete successfully"))]
      case Err(_) => []
  }

  predicate EpisodesAreDue(c: Config, goal: string, r: Run) {
    r.goal == goal && r.episodes == EpisodesDue(c, goal, r.steps, r.phase)
  }

  lemma ConsultKeepsEpisodes(c: Config, w: World, goal: string, r: Run, replan: Option<string>)
    requires r.goal == goal && r.episodes == []
    ensures EpisodesAreDue(c, goal, Consult(c, w, r, replan))
  {
    hide Push;
  }

  lemma DecideKeepsEpisodes(c: Config, w: World, goal: string, r: Run)
    requires r.goal == goal && r.episodes == []
    ensures EpisodesAreDue(c, goal, Decide(c, w, r))
  {
    hide Consult, Push;
    ConsultKeepsEpisodes(c, w, goal, r.(talk := Compress(c, w, r.talk).0, stepReplans := 0), None);
  }

  lemma ErrorKeepsEpisodes(c: Config, w: World, goal: string, r: Run, error: string)
    requires r.goal == goal && r.episodes == [] && r.phase.Dispatching?
    ensures EpisodesAreDue(c, goal, AfterError(c, w, r, error))
  {
    hide Consult, Push;
    ConsultKeepsEpisodes(c, w, goal, Told(c, Charged(r, error), error), Some(r.phase.opener));
  }

  lemma NextKeepsEpisodes(c: Config, w: World, goal: string, r: Run)
    requires EpisodesAreDue(c, goal, r) && !r.phase.Finished?
    ensures EpisodesAreDue(c, goal, Next(c, w, r))
  {
    hide AfterCall, ReplyTo, Push, Decide, AfterError;
    match r.phase
    case Deciding => DecideKeepsEpisodes(c, w, goal, r);
    case Dispatching(_, _, _) =>
      var reply := PendingReply(c, w, r);
      if reply.Err? {
        ErrorKeepsEpisodes(c, w, goal, Called(c, w, r), reply.error.ToString());
      }
    case _ =>
  }

  lemma {:induction false} CompleteKeepsEpisodes(c: Config, w: World, goal: string, r: Run)
    requires InRange(c, r) && EpisodesAreDue(c, goal, r)
    ensures EpisodesAreDue(c, goal, Complete(c, w, r))
    decreases c.maxIterations - r.iteration, Rank(c, r)
  {
    hide Next, EpisodesAreDue;
    if !r.phase.Finished? {
      NextDescends(c, w, r);
      NextKeepsEpisodes(c, w, goal, r);
      CompleteKeepsEpisodes(c, w, goal, Next(c, w, r));
    }
  }

  /** A run leaves exactly one episode when it succeeds or uses up its iterations, with an error
      exactly in the second case, and none when it ends in any other error. The episode of an
      exhausted run holds exactly as many successful steps as there were iterations. */
  lemma {:induction false} EpisodesTellOutcomes(c: Config, w: World, registry: Registry, goal: string)
    requires c.keepsEpisodes
    ensures var end := Execute(c, w, registry, goal);
      var exhausted := end.phase.verdict.Err? && end.phase.verdict.error.MaxIterationsReached?;
      && |end.episodes| == (if end.phase.verdict.Ok? || exhausted then 1 else 0)
      && forall e | e in end.episodes ::
           && e.goal == goal && e.steps == end.steps
           && e.error == (if e.outcome.Failure? then Some("task did not complete successfully") else None)
           && (e.outcome.Failure? <==> exhausted)
           && (exhausted ==> Successes(e.steps) == c.maxIterations)
  {
    hide Complete;
    CompleteKeepsEpisodes(c, w, goal, Start(c, registry, goal));
    RunsBalance(c, w, registry, goal);
  }
}
