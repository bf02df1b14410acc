/** The ReAct loop as a state machine over values. `PlanExecutor` runs it; the `...Laws` modules
    prove what every run of it does. */
module ExecutorModel {
  import opened Prelude
  import opened ShortTermMemory
  import opened LoopDetector
  import opened CircuitBreaker
  import opened ToolRegistry

  // ---------------------------------------------------------------------------
  // The outside world: arbitrary replies, indexed by how often it was asked before.

  datatype Thought = Thought(
    thought: string,
    action: Option<string>,
    actionInput: Json,
    isFinal: bool,
    finalAnswer: Option<string>)
  {
    function Action(): string {
      if action.Some? then action.value else ""
    }
  }

  datatype Summary = Summary(text: string, tokenCount: nat)

  datatype World = World(
    reason: nat -> Result<Thought, string>,
    summarize: nat -> Result<Summary, string>,
    dispatch: nat -> Exchange,
    /** What other users of the registry made of its breakers since the last dispatch, if they
        used it at all. */
    others: nat -> Option<map<string, Breaker>>)
  {
    ghost predicate Undisturbed() {
      forall n: nat :: others(n).None?
    }
  }

  // ---------------------------------------------------------------------------
  // Configuration and results.

  datatype Config = Config(
    maxIterations: nat,
    stmTokenBudget: nat,
    maxReplansPerStep: nat,
    maxReplansPerTask: nat,
    windowSize: nat,
    repeatThreshold: nat,
    hashCall: (string, Json) -> nat,
    /** Whether this many tokens of this budget call for a summary; nothing is assumed about it. */
    nearBudget: (nat, nat) -> bool,
    breaker: BreakerConfig,
    keepsEpisodes: bool)
  {
    function StepLimit(): nat { AtLeastOne(maxReplansPerStep) }
    function TaskLimit(): nat { AtLeastOne(maxReplansPerTask) }
    function Threshold(): nat { AtLeastOne(repeatThreshold) }
    function Window(): nat { AtLeastOne(windowSize) }
  }

  datatype TaskOutcome = Success | Failure

  datatype TaskStep = TaskStep(action: string, input: Json, success: bool, error: Option<string>)

  datatype TaskResult = TaskResult(
    outcome: TaskOutcome,
    finalAnswer: Option<string>,
    steps: seq<TaskStep>,
    iterations: nat,
    totalReplans: nat)

  datatype PlanError =
    | MaxIterationsReached(limit: nat)
    | MaxReplansPerStep(replans: nat, action: string)
    | MaxReplansPerTask(replans: nat)
    | Ipc(message: string)
    | Loop(report: LoopReport)

  type Verdict = Result<TaskResult, PlanError>

  datatype Episode = Episode(goal: string, steps: seq<TaskStep>, outcome: TaskOutcome, error: Option<string>)

  const NO_ACTION := "action is empty but is_final is false"
  const NO_REPLAN_ACTION := "replan returned no action and is_final=false"
  const INCOMPLETE := "task did not complete successfully"

  // ---------------------------------------------------------------------------
  // Texts.

  function EstimateTokens(text: string): (tokens: nat)
    ensures tokens >= 1
    ensures |text| < 4 ==> tokens == 1
    ensures |text| >= 4 ==> 4 * tokens <= |text| < 4 * tokens + 4
  {
    AtLeastOne(|text| / 4)
  }

  function FormatObservation(action: string, result: Json): string {
    var shown := if |result| > 4000
                 then result[..4000] + "... [truncated, " + Decimal(|result|) + " chars total]"
                 else result;
    "[Observation from " + action + "]:\n" + shown
  }

  function ErrorContext(action: string, error: string): string {
    "Tool '" + action + "' failed with error: " + error + ". Please try an alternative approach."
  }

  // ---------------------------------------------------------------------------
  // The machine.

  /** Where a run is: at the head of an iteration, about to dispatch a tool call (`opener` is the
      action that opened the iteration), holding a tool result, holding a final answer given while
      replanning, or done. */
  datatype Phase =
    | Deciding
    | Dispatching(opener: string, action: string, input: Json)
    | Observed(opener: string, output: Json)
    | Answered(thought: string, answer: Option<string>)
    | Finished(verdict: Verdict)

  datatype MemoryEvent = Pushed(message: Message) | Summarised(summary: Message)

  /** The conversation with the model: the short-term memory, the requests made so far, and the
      message lists handed over for a summary so far. */
  datatype Conversation = Conversation(
    messages: seq<Message>,
    asked: seq<seq<Message>>,
    digested: seq<seq<Message>>,
    /** Everything that entered the memory, and how much of it had entered before each of them. */
    log: seq<MemoryEvent>,
    askedAt: seq<nat>,
    digestedAt: seq<nat>)

  datatype Run = Run(
    goal: string,
    phase: Phase,
    iteration: nat,
    stepReplans: nat,
    totalReplans: nat,
    talk: Conversation,
    window: seq<nat>,
    registry: Registry,
    steps: seq<TaskStep>,
    /** Every tool call made so far, and the registry as each of them found it. */
    calls: seq<Call>,
    found: seq<Registry>,
    episodes: seq<Episode>)

  function Push(c: Config, talk: Conversation, role: Role, text: string): Conversation {
    var m := Message(role, text, EstimateTokens(text));
    talk.(messages := Admit(talk.messages, m, c.stmTokenBudget), log := talk.log + [Pushed(m)])
  }

  function PushThought(c: Config, talk: Conversation, thought: string): Conversation {
    if thought == "" then talk else Push(c, talk, Assistant, thought)
  }

  function Send(talk: Conversation): Conversation {
    talk.(asked := talk.asked + [talk.messages], askedAt := talk.askedAt + [|talk.log|])
  }

  const SILENCE: Conversation := Conversation([], [], [], [], [], [])

  function Start(c: Config, registry: Registry, goal: string): Run {
    var talk := Push(c, SILENCE, User, goal);
    Run(goal, Deciding, 0, 0, 0, talk, [], registry, [], [], [], [])
  }

  function Stop(r: Run, verdict: Verdict): Run {
    r.(phase := Finished(verdict))
  }

  function RecordEpisode(c: Config, r: Run, outcome: TaskOutcome): seq<Episode> {
    if !c.keepsEpisodes then r.episodes
    else
      var error := if outcome.Failure? then Some(INCOMPLETE) else None;
      r.episodes + [Episode(r.goal, r.steps, outcome, error)]
  }

  function Succeed(c: Config, r: Run, answer: Option<string>): Run {
    r.(episodes := RecordEpisode(c, r, Success),
       phase := Finished(Ok(TaskResult(Success, answer, r.steps, r.iteration + 1, r.totalReplans))))
  }

  function Exhaust(c: Config, r: Run): Run {
    r.(episodes := RecordEpisode(c, r, Failure),
       phase := Finished(Err(MaxIterationsReached(c.maxIterations))))
  }

  /** Compression of the memory near its budget; an error ends the run. */
  function Compress(c: Config, w: World, talk: Conversation): (Conversation, Option<string>) {
    if !c.nearBudget(Tokens(talk.messages), c.stmTokenBudget) then (talk, None)
    else
      var handed := talk.(digested := talk.digested + [talk.messages],
                          digestedAt := talk.digestedAt + [|talk.log|]);
      match w.summarize(|talk.digested|)
      case Err(e) => (handed, Some(e))
      case Ok(s) =>
        var m := Message(System, s.text, s.tokenCount);
        (handed.(messages := [m], log := talk.log + [Summarised(m)]), None)
  }

  /** Asks for the next action; `replan` holds the action that opened the iteration when this is
      a request for an alternative. */
  function Consult(c: Config, w: World, r: Run, replan: Option<string>): Run {
    var sent := r.(talk := Send(r.talk));
    match w.reason(|r.talk.asked|)
    case Err(e) => Stop(sent, Err(Ipc(e)))
    case Ok(t) =>
      var heard := r.(talk := PushThought(c, Send(r.talk), t.thought));
      if t.isFinal then
        if replan.Some? then heard.(phase := Answered(t.thought, t.finalAnswer))
        else Succeed(c, heard, t.finalAnswer)
      else if t.Action() == "" then
        Stop(heard, Err(Ipc(if replan.Some? then NO_REPLAN_ACTION else NO_ACTION)))
      else
        var opener := if replan.Some? then replan.value else t.Action();
        heard.(phase := Dispatching(opener, t.Action(), t.actionInput))
  }

  function Decide(c: Config, w: World, r: Run): Run {
    if r.iteration >= c.maxIterations then Exhaust(c, r)
    else
      var (talk, error) := Compress(c, w, r.talk);
      var ready := r.(talk := talk, stepReplans := 0);
      if error.Some? then Stop(ready, Err(Ipc(error.value))) else Consult(c, w, ready, None)
  }

  /** The call that is about to be made. */
  function PendingCall(w: World, r: Run): Call
    requires r.phase.Dispatching?
  {
    Call(r.phase.action, r.phase.input, w.dispatch(|r.calls|))
  }

  /** The registry as the pending call finds it. */
  function Found(w: World, r: Run): Registry {
    match w.others(|r.calls|)
    case None => r.registry
    case Some(breakers) => r.registry.(breakers := breakers)
  }

  function PendingReply(c: Config, w: World, r: Run): Result<Json, ToolError>
    requires r.phase.Dispatching?
  {
    ReplyTo(c.breaker, Found(w, r), PendingCall(w, r))
  }

  /** The run after the pending call was recorded and made, before its reply is looked at. */
  function Called(c: Config, w: World, r: Run): Run
    requires r.phase.Dispatching?
  {
    var call := PendingCall(w, r);
    r.(window := Slide(r.window, c.windowSize, c.hashCall(call.name, call.input)),
       calls := r.calls + [call],
       found := r.found + [Found(w, r)],
       registry := AfterCall(c.breaker, Found(w, r), call))
  }

  /** The failed call is logged and counted. */
  function Charged(r: Run, error: string): Run
    requires r.phase.Dispatching?
  {
    r.(steps := r.steps + [TaskStep(r.phase.action, r.phase.input, false, Some(error))],
       stepReplans := r.stepReplans + 1,
       totalReplans := r.totalReplans + 1)
  }

  /** The model will see the error in its next request. */
  function Told(c: Config, r: Run, error: string): Run
    requires r.phase.Dispatching?
  {
    r.(talk := Push(c, r.talk, User, ErrorContext(r.phase.action, error)))
  }

  function AfterError(c: Config, w: World, r: Run, error: string): Run
    requires r.phase.Dispatching?
  {
    var failed := Charged(r, error);
    if failed.stepReplans >= c.maxReplansPerStep then
      Stop(failed, Err(MaxReplansPerStep(failed.stepReplans, r.phase.action)))
    else if failed.totalReplans >= c.maxReplansPerTask then
      Stop(failed, Err(MaxReplansPerTask(failed.totalReplans)))
    else
      Consult(c, w, Told(c, failed, error), Some(r.phase.opener))
  }

  /** Asking the model changes the conversation and the phase only. */
  ghost predicate SamePlace(r: Run, next: Run) {
    && next.goal == r.goal && next.iteration == r.iteration
    && next.window == r.window && next.registry == r.registry
    && next.calls == r.calls && next.found == r.found && next.steps == r.steps
    && next.totalReplans == r.totalReplans
  }

  lemma ConsultKeepsPlace(c: Config, w: World, r: Run, replan: Option<string>)
    ensures var next := Consult(c, w, r, replan);
      && SamePlace(r, next) && next.stepReplans == r.stepReplans
      && (replan.Some? ==> next.episodes == r.episodes)
      && (next.phase.Dispatching? || next.phase.Finished? || (replan.Some? && next.phase.Answered?))
      && (next.phase.Dispatching? ==>
            next.phase.opener == if replan.Some? then replan.value else next.phase.action)
  {
    hide Push;
  }

  lemma AfterErrorCounts(c: Config, w: World, r: Run, error: string)
    requires r.phase.Dispatching?
    ensures var next := AfterError(c, w, r, error);
      && next.steps == r.steps + [TaskStep(r.phase.action, r.phase.input, false, Some(error))]
      && next.stepReplans == r.stepReplans + 1
      && next.totalReplans == r.totalReplans + 1
      && next.window == r.window && next.registry == r.registry
      && next.calls == r.calls && next.found == r.found
      && next.goal == r.goal && next.iteration == r.iteration && next.episodes == r.episodes
      && (next.phase.Dispatching? || next.phase.Answered? ==> next.stepReplans < c.StepLimit())
      && (next.phase.Dispatching? || next.phase.Answered? || next.phase.Finished?)
  {
    hide Consult, Push;
    ConsultKeepsPlace(c, w, Told(c, Charged(r, error), error), Some(r.phase.opener));
  }

  function AfterReply(c: Config, w: World, r: Run, reply: Result<Json, ToolError>): Run
    requires r.phase.Dispatching?
  {
    match reply
    case Ok(output) => AfterOutput(r, output)
    case Err(e) => AfterError(c, w, r, e.ToString())
  }

  function AfterOutput(r: Run, output: Json): Run
    requires r.phase.Dispatching?
  {
    r.(steps := r.steps + [TaskStep(r.phase.action, r.phase.input, true, None)],
       phase := Observed(r.phase.opener, output))
  }

  lemma LoopsHaveReports(window: seq<nat>, threshold: nat)
    requires Loops(window, threshold)
    ensures exists report :: IsReport(window, threshold, report)
  {
    var h :| h in window && multiset(window)[h] >= threshold;
    assert IsReport(window, threshold, LoopReport(h, multiset(window)[h]));
  }

  ghost function Dispatch(c: Config, w: World, r: Run): Run
    requires r.phase.Dispatching?
  {
    if Loops(r.window, c.repeatThreshold) then
      LoopsHaveReports(r.window, c.repeatThreshold);
      var report :| IsReport(r.window, c.repeatThreshold, report);
      Stop(r, Err(Loop(report)))
    else
      AfterReply(c, w, Called(c, w, r), PendingReply(c, w, r))
  }

  ghost function Next(c: Config, w: World, r: Run): Run
    requires !r.phase.Finished?
  {
    match r.phase
    case Deciding => Decide(c, w, r)
    case Dispatching(_, _, _) => Dispatch(c, w, r)
    case Observed(opener, output) =>
      r.(talk := Push(c, r.talk, User, FormatObservation(opener, output)),
         iteration := r.iteration + 1,
         phase := Deciding)
    case Answered(thought, answer) =>
      Succeed(c, r.(talk := PushThought(c, r.talk, thought)), answer)
  }

  // ---------------------------------------------------------------------------
  // The loop report does not depend on which looping hash the detector finds first.

  /** No loop was visible before the newest call was recorded. */
  ghost predicate LoopIsNews(c: Config, r: Run) {
    || (r.calls == [] && r.window == [])
    || (r.calls != [] && exists earlier ::
          && !Loops(earlier, c.repeatThreshold)
          && r.window == Slide(earlier, c.windowSize, HashOf(c, r.calls[|r.calls| - 1])))
  }

  function HashOf(c: Config, call: Call): nat {
    c.hashCall(call.name, call.input)
  }

  /** Calls are made by dispatching only, one at a time, and only when no loop is visible. */
  ghost predicate CallsFollow(c: Config, w: World, r: Run, next: Run) {
    if r.phase.Dispatching? && !Loops(r.window, c.repeatThreshold)
    then var called := Called(c, w, r);
      && next.window == called.window && next.registry == called.registry
      && next.calls == called.calls && next.found == called.found
    else
      && next.window == r.window && next.registry == r.registry
      && next.calls == r.calls && next.found == r.found
  }

  lemma NextCalls(c: Config, w: World, r: Run)
    requires !r.phase.Finished?
    ensures CallsFollow(c, w, r, Next(c, w, r))
  {
    hide Push, AfterCall, ReplyTo, AfterError, Decide;
    match r.phase
    case Deciding => DecideKeepsPlace(c, w, r);
    case Dispatching(_, _, _) =>
      var reply := PendingReply(c, w, r);
      if reply.Err? {
        AfterErrorCounts(c, w, Called(c, w, r), reply.error.ToString());
      }
    case _ =>
  }

  lemma FollowingKeepsLoopNews(c: Config, w: World, r: Run, next: Run)
    requires LoopIsNews(c, r) && CallsFollow(c, w, r, next)
    ensures LoopIsNews(c, next)
  {
    if next.calls != r.calls {
      assert next.calls[|next.calls| - 1] == PendingCall(w, r);
    }
  }

  lemma LoopReportIsForced(c: Config, w: World, r: Run, report: LoopReport)
    requires LoopIsNews(c, r) && r.phase.Dispatching?
    requires IsReport(r.window, c.repeatThreshold, report)
    ensures Loops(r.window, c.repeatThreshold)
    ensures report == LoopReport(HashOf(c, r.calls[|r.calls| - 1]), c.Threshold())
    ensures Dispatch(c, w, r) == Stop(r, Err(Loop(report)))
  {
    var hash := HashOf(c, r.calls[|r.calls| - 1]);
    var earlier :| !Loops(earlier, c.repeatThreshold) && r.window == Slide(earlier, c.windowSize, hash);
    forall other | IsReport(r.window, c.repeatThreshold, other)
      ensures other == LoopReport(hash, c.Threshold())
    {
      OnlyNewestCanLoop(earlier, c.windowSize, hash, c.repeatThreshold, other);
    }
  }

  // ---------------------------------------------------------------------------
  // Every run ends.

  predicate InRange(c: Config, r: Run) {
    && r.iteration <= c.maxIterations
    && (r.phase.Dispatching? || r.phase.Observed? || r.phase.Answered? ==> r.iteration < c.maxIterations)
    && (r.phase.Dispatching? ==> r.stepReplans < c.StepLimit())
  }

  /** Decreases within an iteration. */
  function Rank(c: Config, r: Run): nat
    requires InRange(c, r)
  {
    match r.phase
    case Deciding => c.StepLimit() + 2
    case Dispatching(_, _, _) => c.StepLimit() - r.stepReplans + 1
    case Observed(_, _) => 1
    case Answered(_, _) => 1
    case Finished(_) => 0
  }

  lemma NextDescends(c: Config, w: World, r: Run)
    requires InRange(c, r) && !r.phase.Finished?
    ensures InRange(c, Next(c, w, r))
    ensures Next(c, w, r).iteration == r.iteration + 1
      || (Next(c, w, r).iteration == r.iteration && Rank(c, Next(c, w, r)) < Rank(c, r))
  {
    hide Push, AfterCall, ReplyTo, AfterError, Decide;
    match r.phase
    case Deciding => DecideKeepsPlace(c, w, r);
    case Dispatching(_, _, _) =>
      var reply := PendingReply(c, w, r);
      if reply.Err? {
        AfterErrorCounts(c, w, Called(c, w, r), reply.error.ToString());
      }
    case _ =>
  }

  /** The run carried on to its end. */
  ghost function Complete(c: Config, w: World, r: Run): (end: Run)
    requires InRange(c, r)
    ensures end.phase.Finished?
    decreases c.maxIterations - r.iteration, Rank(c, r)
  {
    if r.phase.Finished? then r
    else
      NextDescends(c, w, r);
      Complete(c, w, Next(c, w, r))
  }

  /** `r` is a later point of the run from `first`. */
  ghost predicate OnTrack(c: Config, w: World, first: Run, r: Run) {
    && InRange(c, first) && InRange(c, r) && LoopIsNews(c, r)
    && |r.calls| == |r.steps|
    && Complete(c, w, r) == Complete(c, w, first)
  }

  lemma TracksJoin(c: Config, w: World, first: Run, mid: Run, r: Run)
    requires OnTrack(c, w, first, mid) && OnTrack(c, w, mid, r)
    ensures OnTrack(c, w, first, r)
    ensures OnTrack(c, w, r, r)
  {
  }

  lemma DispatchKeepsPlace(c: Config, w: World, r: Run)
    requires r.phase.Dispatching? && |r.calls| == |r.steps|
    ensures var next := Dispatch(c, w, r);
      && next.goal == r.goal && next.iteration == r.iteration && next.episodes == r.episodes
      && |next.calls| == |next.steps|
      && (next.phase.Dispatching? ==> next.stepReplans == r.stepReplans + 1 && next.totalReplans == r.totalReplans + 1)
  {
    if !Loops(r.window, c.repeatThreshold) {
      var reply := PendingReply(c, w, r);
      if reply.Err? {
        AfterErrorCounts(c, w, Called(c, w, r), reply.error.ToString());
      }
    }
  }

  lemma DecideKeepsPlace(c: Config, w: World, r: Run)
    ensures var next := Decide(c, w, r);
      && SamePlace(r, next)
      && (next.phase.Dispatching? || next.phase.Finished?)
      && (next.phase.Dispatching? ==> r.iteration < c.maxIterations)
      && (next.phase.Dispatching? ==> next.stepReplans == 0 && next.phase.opener == next.phase.action)
  {
    hide Consult, Push;
    ConsultKeepsPlace(c, w, r.(talk := Compress(c, w, r.talk).0, stepReplans := 0), None);
  }

  lemma NextKeepsCounts(c: Config, w: World, r: Run)
    requires !r.phase.Finished? && |r.calls| == |r.steps|
    ensures |Next(c, w, r).calls| == |Next(c, w, r).steps|
  {
    if r.phase.Dispatching? {
      DispatchKeepsPlace(c, w, r);
    }
  }

  lemma NextStaysOnTrack(c: Config, w: World, first: Run, r: Run)
    requires OnTrack(c, w, first, r) && !r.phase.Finished?
    ensures OnTrack(c, w, first, Next(c, w, r))
  {
    NextDescends(c, w, r);
    NextCalls(c, w, r);
    FollowingKeepsLoopNews(c, w, r, Next(c, w, r));
    NextKeepsCounts(c, w, r);
  }

  lemma StartIsOnTrack(c: Config, w: World, registry: Registry, goal: string)
    ensures var first := Start(c, registry, goal);
      && OnTrack(c, w, first, first)
      && first.phase == Deciding && first.iteration == 0 && first.goal == goal
      && first.steps == [] && first.totalReplans == 0 && first.window == [] && first.episodes == []
      && first.registry == registry && first.talk == Push(c, SILENCE, User, goal)
  {
  }

  /** The whole task. */
  ghost function Execute(c: Config, w: World, registry: Registry, goal: string): (end: Run)
    ensures end.phase.Finished?
  {
    Complete(c, w, Start(c, registry, goal))
  }

  lemma TrackEnds(c: Config, w: World, registry: Registry, goal: string, end: Run)
    requires OnTrack(c, w, Start(c, registry, goal), end) && end.phase.Finished?
    ensures end == Execute(c, w, registry, goal)
  {
  }
}
