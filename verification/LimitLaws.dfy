/** The limits compared across runs: a limit that does not end a run does not change it, and the
    ceilings on requests and steps are reached. */
module LimitLaws {
  import opened Prelude
  import opened CircuitBreaker
  import opened ToolRegistry
  import opened ExecutorModel
  import opened ExecutorLaws
  import LoopLaws
  import RegistryLaws
  import TranscriptLaws

  // ---------------------------------------------------------------------------
  // Raising limits.

  /** `d` differs from `c` in its limits only, and none of them is lower. */
  ghost predicate Raises(c: Config, d: Config) {
    && d == c.(maxIterations := d.maxIterations, maxReplansPerStep := d.maxReplansPerStep,
               maxReplansPerTask := d.maxReplansPerTask, repeatThreshold := d.repeatThreshold)
    && c.maxIterations <= d.maxIterations
    && c.StepLimit() <= d.StepLimit() && c.TaskLimit() <= d.TaskLimit()
    && c.Threshold() <= d.Threshold()
  }

  predicate EndedByLimit(verdict: Verdict) {
    verdict.Err? && !verdict.error.Ipc?
  }

  predicate StoppedByLimit(r: Run) {
    r.phase.Finished? && EndedByLimit(r.phase.verdict)
  }

  lemma RaisedLoops(c: Config, d: Config, window: seq<nat>)
    requires Raises(c, d) && LoopDetector.Loops(window, d.repeatThreshold)
    ensures LoopDetector.Loops(window, c.repeatThreshold)
  {
    var h :| h in window && multiset(window)[h] >= d.repeatThreshold;
    assert multiset(window)[h] >= 1;
    assert multiset(window)[h] >= c.repeatThreshold;
  }

  lemma RaisedPush(c: Config, d: Config, talk: Conversation, text: string)
    requires Raises(c, d)
    ensures Push(d, talk, ShortTermMemory.User, text) == Push(c, talk, ShortTermMemory.User, text)
    ensures PushThought(d, talk, text) == PushThought(c, talk, text)
  {
  }

  lemma RaisedConsult(c: Config, d: Config, w: World, r: Run, replan: Option<string>)
    requires Raises(c, d)
    ensures Consult(d, w, r, replan) == Consult(c, w, r, replan)
  {
  }

  lemma RaisedDecide(c: Config, d: Config, w: World, r: Run)
    requires Raises(c, d)
    ensures Decide(d, w, r) == Decide(c, w, r) || StoppedByLimit(Decide(c, w, r))
  {
    hide Consult;
    RaisedConsult(c, d, w, r.(talk := Compress(c, w, r.talk).0, stepReplans := 0), None);
  }

  lemma RaisedError(c: Config, d: Config, w: World, r: Run, error: string)
    requires Raises(c, d) && r.phase.Dispatching?
    ensures AfterError(d, w, r, error) == AfterError(c, w, r, error) || StoppedByLimit(AfterError(c, w, r, error))
  {
    hide Consult, Push;
    RaisedPush(c, d, r.talk, ErrorContext(r.phase.action, error));
    RaisedConsult(c, d, w, Told(c, Charged(r, error), error), Some(r.phase.opener));
  }

  /** A step is the same under raised limits unless one of the limits stops the run here. */
  lemma RaisedStep(c: Config, d: Config, w: World, r: Run)
    requires Raises(c, d) && !r.phase.Finished?
    ensures Next(d, w, r) == Next(c, w, r) || StoppedByLimit(Next(c, w, r))
  {
    hide Decide, AfterError, Push, AfterCall, ReplyTo;
    match r.phase
    case Deciding => RaisedDecide(c, d, w, r);
    case Dispatching(_, _, _) =>
      if !LoopDetector.Loops(r.window, c.repeatThreshold) {
        if LoopDetector.Loops(r.window, d.repeatThreshold) {
          RaisedLoops(c, d, r.window);
        }
        var reply := PendingReply(c, w, r);
        if reply.Err? {
          RaisedError(c, d, w, Called(c, w, r), reply.error.ToString());
        }
      }
    case Observed(opener, output) => RaisedPush(c, d, r.talk, FormatObservation(opener, output));
    case Answered(thought, _) => RaisedPush(c, d, r.talk, thought);
  }

  lemma {:induction false} RaisedRun(c: Config, d: Config, w: World, r: Run)
    requires Raises(c, d) && InRange(c, r) && InRange(d, r)
    requires !EndedByLimit(Complete(c, w, r).phase.verdict)
    ensures Complete(d, w, r) == Complete(c, w, r)
    decreases c.maxIterations - r.iteration, Rank(c, r)
  {
    hide Next, Raises;
    if !r.phase.Finished? {
      NextDescends(c, w, r);
      NextDescends(d, w, r);
      RaisedStep(c, d, w, r);
      RaisedRun(c, d, w, Next(c, w, r));
    }
  }

  /** Raising any of the four limits changes nothing about a run that none of them ended: the same
      requests, calls, steps, breakers, episode and result. */
  lemma {:induction false} LimitsMatterOnlyWhenHit(c: Config, d: Config, w: World, registry: Registry, goal: string)
    requires Raises(c, d)
    requires !EndedByLimit(Execute(c, w, registry, goal).phase.verdict)
    ensures Execute(d, w, registry, goal) == Execute(c, w, registry, goal)
  {
    hide Complete, Raises;
    StartIsOnTrack(c, w, registry, goal);
    assert Start(d, registry, goal) == Start(c, registry, goal) by { RaisedStart(c, d, registry, goal); }
    RaisedRun(c, d, w, Start(c, registry, goal));
  }

  lemma RaisedStart(c: Config, d: Config, registry: Registry, goal: string)
    requires Raises(c, d)
    ensures Start(d, registry, goal) == Start(c, registry, goal)
  {
  }

  // ---------------------------------------------------------------------------
  // The ceilings are reached.

  /** A registry with one tool that accepts every input. */
  function OneTool(): Registry {
    Registry(map["tool" := Tool("tool", _ => None)], map["tool" := FRESH])
  }

  /** Errors in the current iteration and in the whole task, before this request, of a model that
      asks for an unknown tool as often as both replan limits bear. */
  function Retries(c: Config, request: nat): (nat, nat) {
    if request == 0 then (0, 0)
    else
      var before := Retries(c, request - 1);
      if Bears(c, before) then (before.0 + 1, before.1 + 1) else (0, before.1)
  }

  predicate Bears(c: Config, errors: (nat, nat)) {
    errors.0 < c.StepLimit() - 1 && errors.1 < c.TaskLimit() - 1
  }

  function NameOf(c: Config, request: nat): string {
    if Bears(c, Retries(c, request)) then "missing" else "tool"
  }

  function Persistent(c: Config, inputs: nat -> Json): World {
    World((n: nat) => Ok(Thought("", Some(NameOf(c, n)), inputs(n), false, None)),
          (n: nat) => Ok(Summary("", 0)),
          (n: nat) => Exchange(0, Ok(""), 0),
          (n: nat) => None)
  }

  ghost function PlannedRun(c: Config, inputs: nat -> Json, goal: string): (end: Run)
    ensures end.phase.Finished?
  {
    Execute(c, Persistent(c, inputs), OneTool(), goal)
  }

  /** Requests that can be in one window have different hashes. */
  ghost predicate Varied(c: Config, inputs: nat -> Json) {
    forall m: nat, n: nat | m < n < m + c.Window() ::
      c.hashCall(NameOf(c, m), inputs(m)) != c.hashCall(NameOf(c, n), inputs(n))
  }

  lemma {:induction false} ToolStaysFresh(cfg: BreakerConfig, calls: seq<Call>)
    requires forall call | call in calls :: call.exchange.reply.Ok?
    ensures AfterCalls(cfg, OneTool(), calls) == OneTool()
  {
    if calls != [] {
      ToolStaysFresh(cfg, calls[..|calls| - 1]);
      assert calls[|calls| - 1] in calls;
      var breakers := OneTool().breakers;
      assert breakers["tool" := FRESH] == breakers;
    }
  }

  /** The run makes the planned calls, and those for the unknown tool fail. */
  lemma PlanIsFollowed(c: Config, inputs: nat -> Json, goal: string, n: nat)
    requires n < |PlannedRun(c, inputs, goal).steps|
    ensures var end := PlannedRun(c, inputs, goal);
      && |end.calls| == |end.steps|
      && HashOf(c, end.calls[n]) == c.hashCall(NameOf(c, n), inputs(n))
      && (end.steps[n].success <==> !Bears(c, Retries(c, n)))
  {
    hide Complete, AfterCalls;
    var w := Persistent(c, inputs);
    TranscriptLaws.ModelChoosesEveryCall(c, w, OneTool(), goal);
    RegistryLaws.RunsAloneKeepBooks(c, w, OneTool(), goal);
    var end := Execute(c, w, OneTool(), goal);
    assert TranscriptLaws.ChosenByModel(w, end.calls, end.steps, n);
    assert RegistryLaws.EntryMatches(c, w, OneTool(), end.calls, end.steps, n);
    forall call | call in end.calls[..n]
      ensures call.exchange.reply.Ok?
    {
      var k: nat :| k < n && end.calls[k] == call;
      assert TranscriptLaws.ChosenByModel(w, end.calls, end.steps, k);
    }
    ToolStaysFresh(c.breaker, end.calls[..n]);
  }

  /** The errors that this many successful iterations had room for. */
  function Room(c: Config, successes: nat): nat {
    successes * (c.StepLimit() - 1)
  }

  lemma RoomGrows(c: Config, successes: nat)
    ensures Room(c, 0) == 0
    ensures Room(c, successes + 1) == Room(c, successes) + c.StepLimit() - 1
  {
  }

  predicate Rationed(c: Config, steps: seq<TaskStep>) {
    && TrailingErrors(steps) <= c.StepLimit() - 1
    && Errors(steps) == Min(c.TaskLimit() - 1, Room(c, Successes(steps)) + TrailingErrors(steps))
  }

  lemma RationStep(c: Config, steps: seq<TaskStep>, step: TaskStep)
    requires Rationed(c, steps)
    requires step.success <==> !Bears(c, (TrailingErrors(steps), Errors(steps)))
    ensures Rationed(c, steps + [step])
  {
    hide Room, Successes, Errors, TrailingErrors;
    CountsOfAppend(steps, step);
    RoomGrows(c, Successes(steps));
  }

  predicate AsPlanned(c: Config, steps: seq<TaskStep>, n: nat)
    requires n < |steps|
  {
    steps[n].success <==> !Bears(c, Retries(c, n))
  }

  lemma {:induction false} LogFollowsPlan(c: Config, steps: seq<TaskStep>)
    requires forall n: nat | n < |steps| :: AsPlanned(c, steps, n)
    ensures Retries(c, |steps|) == (TrailingErrors(steps), Errors(steps))
    ensures Rationed(c, steps)
  {
    hide Rationed, Bears, Room;
    if steps == [] {
      EmptyLogIsRationed(c);
    } else {
      var n := |steps| - 1;
      assert AsPlanned(c, steps, n);
      forall k: nat | k < n
        ensures AsPlanned(c, steps[..n], k)
      {
        assert AsPlanned(c, steps, k);
      }
      LogFollowsPlan(c, steps[..n]);
      assert steps == steps[..n] + [steps[n]];
      RationStep(c, steps[..n], steps[n]);
      CountsOfAppend(steps[..n], steps[n]);
    }
  }

  lemma EmptyLogIsRationed(c: Config)
    ensures Rationed(c, [])
  {
    RoomGrows(c, 0);
  }

  lemma {:induction false} DistinctCountsOnce(s: seq<nat>, h: nat)
    requires forall i, j | 0 <= i < j < |s| :: s[i] != s[j]
    ensures multiset(s)[h] <= 1
  {
    if s != [] {
      DistinctCountsOnce(s[1..], h);
      assert s == [s[0]] + s[1..];
      assert h == s[0] ==> h !in s[1..];
    }
  }

  lemma VariedNeverLoops(c: Config, inputs: nat -> Json, goal: string, report: LoopDetector.LoopReport)
    requires c.Threshold() >= 2 && Varied(c, inputs)
    ensures PlannedRun(c, inputs, goal).phase != Finished(Err(Loop(report)))
  {
    hide Complete, Persistent, NameOf, Bears, Retries, OneTool;
    var w := Persistent(c, inputs);
    var end := Execute(c, w, OneTool(), goal);
    RunsBalance(c, w, OneTool(), goal);
    var hashes := LoopLaws.Hashes(c, end.calls);
    var window := LastN(hashes, c.Window());
    forall i, j | 0 <= i < j < |window|
      ensures window[i] != window[j]
    {
      var base := |hashes| - |window|;
      PlanIsFollowed(c, inputs, goal, base + i);
      PlanIsFollowed(c, inputs, goal, base + j);
    }
    DistinctCountsOnce(window, report.hash);
    if end.phase == Finished(Err(Loop(report))) {
      LoopLaws.LoopReportIsExact(c, w, OneTool(), goal, report);
    }
  }

  lemma PlanExhaustsIterations(c: Config, inputs: nat -> Json, goal: string)
    requires c.Threshold() >= 2 && (Varied(c, inputs) || c.Window() < c.Threshold())
    ensures var end := PlannedRun(c, inputs, goal);
      && end.phase == Finished(Err(MaxIterationsReached(c.maxIterations)))
      && Rationed(c, end.steps)
  {
    hide Complete, Varied, Retries, Bears, Room;
    var w := Persistent(c, inputs);
    var end := Execute(c, w, OneTool(), goal);
    forall n: nat | n < |end.steps|
      ensures AsPlanned(c, end.steps, n)
    {
      PlanIsFollowed(c, inputs, goal, n);
    }
    LogFollowsPlan(c, end.steps);
    StepLogShape(c, w, OneTool(), goal);
    TranscriptLaws.ModelChoosesEveryCall(c, w, OneTool(), goal);
    PersistentSpeaks(c, inputs, |end.steps|);
    if end.phase.verdict.Err? && end.phase.verdict.error.Loop? {
      if Varied(c, inputs) {
        VariedNeverLoops(c, inputs, goal, end.phase.verdict.error.report);
      } else {
        LoopLaws.ShortWindowNeverLoops(c, w, OneTool(), goal);
      }
    }
    RunsBalance(c, w, OneTool(), goal);
  }

  lemma PersistentSpeaks(c: Config, inputs: nat -> Json, n: nat)
    ensures var reply := Persistent(c, inputs).reason(n);
      reply.Ok? && !reply.value.isFinal && reply.value.Action() != ""
    ensures forall k: nat :: Persistent(c, inputs).summarize(k).Ok?
  {
    assert |NameOf(c, n)| > 0;
  }

  lemma SumOfCeilings(c: Config)
    ensures c.maxIterations + Min(c.TaskLimit() - 1, Room(c, c.maxIterations))
         == Min(c.maxIterations + c.TaskLimit() - 1, c.maxIterations * c.StepLimit())
  {
    var i, s := c.maxIterations, c.StepLimit();
    assert i * s == i * (s - 1) + i;
  }

  /** The ceilings on requests and on logged steps are reached together, for all limits, unless the
      loop threshold is 1: it is enough that the model varies its inputs within a window. */
  lemma {:induction false} CeilingsAreReached(c: Config, inputs: nat -> Json, goal: string)
    requires c.Threshold() >= 2 && (Varied(c, inputs) || c.Window() < c.Threshold())
    ensures var end := PlannedRun(c, inputs, goal);
      |end.talk.asked| == |end.steps|
        == Min(c.maxIterations + c.TaskLimit() - 1, c.maxIterations * c.StepLimit())
  {
    hide Complete, Varied, Persistent, OneTool, Room;
    PlanExhaustsIterations(c, inputs, goal);
    RunsBalance(c, Persistent(c, inputs), OneTool(), goal);
    StepsAreSuccessesOrErrors(PlannedRun(c, inputs, goal).steps);
    SumOfCeilings(c);
  }

  lemma OneEntryLoops(window: seq<nat>, threshold: nat)
    requires window != [] && threshold <= 1
    ensures LoopDetector.Loops(window, threshold)
  {
    var h := window[0];
    assert h in window && multiset(window)[h] >= threshold;
  }

  /** With a loop threshold of 1 the second dispatch of any run reports a loop. */
  lemma {:induction false} ThresholdOneAllowsOneCall(c: Config, w: World, registry: Registry, goal: string)
    requires c.Threshold() == 1
    ensures var end := Execute(c, w, registry, goal);
      |end.calls| <= 1 && |end.talk.asked| <= 2
  {
    hide Complete;
    LoopLaws.RunsKeepLoopBook(c, w, registry, goal);
    TranscriptLaws.ModelChoosesEveryCall(c, w, registry, goal);
    var hashes := LoopLaws.Hashes(c, Execute(c, w, registry, goal).calls);
    if |hashes| > 1 {
      OneEntryLoops(LastN(hashes[..1], c.Window()), c.repeatThreshold);
    }
  }
}
