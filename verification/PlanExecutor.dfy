/** The executor itself: the nested loops over its mutable collaborators. Its contract says that it
    performs exactly the run of `ExecutorModel`, whose properties the `...Laws` modules prove. */
module PlanExecutor {
  import opened Prelude
  import opened ShortTermMemory
  import opened LoopDetector
  import opened CircuitBreaker
  import opened ToolRegistry
  import opened ExecutorModel

  /** The language-model server: replies are arbitrary and requests are kept. */
  class Transport {
    const replies: nat -> Result<Thought, string>
    const digests: nat -> Result<Summary, string>
    var asked: seq<seq<Message>>
    var digested: seq<seq<Message>>

    constructor (replies: nat -> Result<Thought, string>, digests: nat -> Result<Summary, string>)
      ensures asked == [] && digested == [] && this.replies == replies && this.digests == digests
    {
      this.replies, this.digests, asked, digested := replies, digests, [], [];
    }

    method Reason(messages: seq<Message>) returns (reply: Result<Thought, string>)
      modifies this
      ensures asked == old(asked) + [messages] && digested == old(digested)
      ensures reply == replies(|old(asked)|)
    {
      reply := replies(|asked|);
      asked := asked + [messages];
    }

    method Summarize(messages: seq<Message>) returns (reply: Result<Summary, string>)
      modifies this
      ensures asked == old(asked) && digested == old(digested) + [messages]
      ensures reply == digests(|old(digested)|)
    {
      reply := digests(|digested|);
      digested := digested + [messages];
    }
  }

  /** What the database keeps of the episodes offered to it. */
  function Stored(offered: seq<Episode>, stores: nat -> bool): seq<Episode> {
    if offered == [] then []
    else
      var n := |offered| - 1;
      Stored(offered[..n], stores) + if stores(n) then [offered[n]] else []
  }

  /** The append-only record of finished tasks; any insertion may fail. */
  class EpisodicLog {
    var episodes: seq<Episode>
    /** Every episode that was to be inserted, and whether the database takes each of them. */
    var offered: seq<Episode>
    const stores: nat -> bool

    ghost predicate Valid()
      reads this
    {
      episodes == Stored(offered, stores)
    }

    constructor (stores: nat -> bool)
      ensures Valid() && episodes == [] && offered == [] && this.stores == stores
    {
      this.episodes, this.offered, this.stores := [], [], stores;
    }

    method Insert(episode: Episode) returns (inserted: bool)
      requires Valid() && (episode.outcome.Failure? <==> episode.error.Some?)
      modifies this
      ensures Valid() && offered == old(offered) + [episode]
      ensures episodes == if inserted then old(episodes) + [episode] else old(episodes)
    {
      inserted := stores(|offered|);
      offered := offered + [episode];
      assert offered[..|offered| - 1] == old(offered);
      if inserted {
        episodes := episodes + [episode];
      }
    }
  }

  datatype StepOutcome = Observation(output: Json) | FinalAnswer(thought: string, answer: Option<string>)

  datatype Decision = Proceed(action: string, input: Json) | Done(verdict: Verdict)

  datatype Attempt = Retry(action: string, input: Json) | Leave(outcome: Result<StepOutcome, PlanError>)

  /** What the shared collaborators had already seen when a run started. */
  datatype Before = Before(asked: seq<seq<Message>>, digested: seq<seq<Message>>, episodes: seq<Episode>)

  class PlanExecutor {
    const config: Config
    const transport: Transport
    const registry: ToolRegistry
    const episodicLog: EpisodicLog?

    constructor (config: Config, transport: Transport, registry: ToolRegistry, episodicLog: EpisodicLog?)
      requires config.keepsEpisodes <==> episodicLog != null
      requires registry.circuitBreakerConfig == config.breaker
      ensures Wired()
      ensures this.config == config && this.transport == transport
      ensures this.registry == registry && this.episodicLog == episodicLog
    {
      this.config, this.transport, this.registry, this.episodicLog := config, transport, registry, episodicLog;
    }

    predicate Wired() {
      && (config.keepsEpisodes <==> episodicLog != null)
      && registry.circuitBreakerConfig == config.breaker
    }

    ghost predicate ServedBy(w: World, b: Before) {
      && w.Undisturbed()
      && (forall n: nat :: w.reason(n) == transport.replies(|b.asked| + n))
      && (forall n: nat :: w.summarize(n) == transport.digests(|b.digested| + n))
    }

    ghost predicate TalkIs(b: Before, talk: Conversation, stm: ShortTermMemory)
      reads transport, stm
    {
      && stm.Valid() && stm.maxTokens == config.stmTokenBudget
      && stm.messages == talk.messages
      && transport.asked == b.asked + talk.asked
      && transport.digested == b.digested + talk.digested
    }

    ghost predicate ToolsAre(r: Run, stm: ShortTermMemory, detector: LoopDetector)
      reads detector, registry, registry.Repr
    {
      && detector.Valid()
      && detector.windowSize == config.windowSize
      && detector.repeatThreshold == config.repeatThreshold
      && detector.hashCall == config.hashCall
      && detector.window == r.window
      && registry.Valid()
      && stm !in registry.Repr && detector !in registry.Repr && transport !in registry.Repr
      && registry.view == r.registry
    }

    ghost predicate EpisodesAre(b: Before, r: Run)
      reads episodicLog
    {
      episodicLog != null ==> episodicLog.Valid() && episodicLog.offered == b.episodes + r.episodes
    }

    /** The world that a run sees when it starts now. */
    ghost function WorldFromNow(exchanges: nat -> Exchange): World
      reads transport
    {
      var a, s := |transport.asked|, |transport.digested|;
      World((n: nat) => transport.replies(a + n), (n: nat) => transport.digests(s + n), exchanges, (n: nat) => None)
    }

    method PushMessage(stm: ShortTermMemory, role: Role, text: string, ghost b: Before, ghost talk: Conversation)
      returns (ghost talk': Conversation)
      requires TalkIs(b, talk, stm)
      modifies stm
      ensures talk' == ExecutorModel.Push(config, talk, role, text) && TalkIs(b, talk', stm)
    {
      stm.Push(Message(role, text, EstimateTokens(text)));
      talk' := ExecutorModel.Push(config, talk, role, text);
    }

    /** Sends the memory to the model and keeps the thought that comes back. */
    method Consult(stm: ShortTermMemory, ghost w: World, ghost b: Before, ghost talk: Conversation)
      returns (reply: Result<Thought, string>, ghost talk': Conversation)
      requires ServedBy(w, b) && TalkIs(b, talk, stm)
      modifies stm, transport
      ensures TalkIs(b, talk', stm)
      ensures reply == w.reason(|talk.asked|)
      ensures talk' == match reply
                       case Ok(t) => PushThought(config, Send(talk), t.thought)
                       case Err(_) => Send(talk)
    {
      talk' := Send(talk);
      reply := transport.Reason(stm.messages);
      if reply.Ok? && reply.value.thought != "" {
        talk' := PushMessage(stm, Assistant, reply.value.thought, b, talk');
      }
    }

    method MaybeSummarize(stm: ShortTermMemory, ghost w: World, ghost b: Before, ghost talk: Conversation)
      returns (error: Option<string>, ghost talk': Conversation)
      requires ServedBy(w, b) && TalkIs(b, talk, stm)
      requires config.nearBudget(Tokens(talk.messages), config.stmTokenBudget)
      modifies stm, transport
      ensures TalkIs(b, talk', stm)
      ensures Compress(config, w, talk) == (talk', error)
    {
      talk' := Compress(config, w, talk).0;
      var reply := transport.Summarize(stm.messages);
      match reply
      case Err(e) => error := Some(e);
      case Ok(s) =>
        stm.ReplaceWithSummary(Message(System, s.text, s.tokenCount));
        error := None;
    }

    /** Not part of the result: the episode is offered to the log if one is attached, and a failed
        insertion is ignored. */
    method Record(goal: string, steps: seq<TaskStep>, outcome: TaskOutcome, ghost b: Before, ghost r: Run)
      requires Wired() && EpisodesAre(b, r) && r.goal == goal && r.steps == steps
      modifies episodicLog
      ensures EpisodesAre(b, r.(episodes := RecordEpisode(config, r, outcome)))
    {
      if episodicLog != null {
        var error := if outcome.Failure? then Some(INCOMPLETE) else None;
        var inserted := episodicLog.Insert(Episode(goal, steps, outcome, error));
      }
    }

    /** Records a call in the loop detector and makes it. */
    method TryTool(action: string, input: Json, ghost stm: ShortTermMemory, detector: LoopDetector,
                   exchange: Exchange, ghost w: World, ghost r: Run)
      returns (reply: Result<Json, ToolError>, ghost called: Run)
      requires Wired() && ToolsAre(r, stm, detector)
      requires r.phase.Dispatching? && r.phase.action == action && r.phase.input == input
      requires exchange == w.dispatch(|r.calls|) && w.others(|r.calls|).None?
      modifies detector, registry.Repr, registry`view
      ensures called == Called(config, w, r) && ToolsAre(called, stm, detector)
      ensures reply == PendingReply(config, w, r)
    {
      called := Called(config, w, r);
      detector.Record(action, input);
      reply := registry.ExecuteWithTimeout(action, input, exchange);
    }

    /** What the caller of an attempt does next. */
    ghost predicate LeadsTo(opener: string, attempt: Attempt, phase: Phase) {
      phase == match attempt
               case Retry(action, input) => Dispatching(opener, action, input)
               case Leave(Ok(Observation(output))) => Observed(opener, output)
               case Leave(Ok(FinalAnswer(thought, answer))) => Answered(thought, answer)
               case Leave(Err(e)) => Finished(Err(e))
    }

    /** Checks the replan limits after a failed attempt and otherwise asks for another action. */
    method AfterToolError(action: string, errorMsg: string, stm: ShortTermMemory,
                          stepReplans: nat, totalReplans: nat,
                          ghost w: World, ghost b: Before, ghost called: Run)
      returns (attempt: Attempt, ghost next: Run)
      requires ServedBy(w, b) && TalkIs(b, called.talk, stm)
      requires called.phase.Dispatching? && called.phase.action == action
      requires called.stepReplans + 1 == stepReplans && called.totalReplans + 1 == totalReplans
      modifies stm, transport
      ensures next == AfterError(config, w, called, errorMsg)
      ensures TalkIs(b, next.talk, stm) && LeadsTo(called.phase.opener, attempt, next.phase)
    {
      next := AfterError(config, w, called, errorMsg);
      if stepReplans >= config.maxReplansPerStep {
        return Leave(Err(MaxReplansPerStep(stepReplans, action))), next;
      }
      if totalReplans >= config.maxReplansPerTask {
        return Leave(Err(MaxReplansPerTask(totalReplans))), next;
      }
      ghost var talk := PushMessage(stm, User, ErrorContext(action, errorMsg), b, called.talk);
      var response;
      response, talk := Consult(stm, w, b, talk);
      if response.Err? {
        return Leave(Err(Ipc(response.error))), next;
      }
      if response.value.isFinal {
        return Leave(Ok(FinalAnswer(response.value.thought, response.value.finalAnswer))), next;
      }
      var alternative := response.value.Action();
      if alternative == "" {
        return Leave(Err(Ipc(NO_REPLAN_ACTION))), next;
      }
      return Retry(alternative, response.value.actionInput), next;
    }

    /** Logs the step and handles the tool's reply. */
    method HandleReply(action: string, input: Json, reply: Result<Json, ToolError>, stm: ShortTermMemory,
                       steps0: seq<TaskStep>, stepReplans: nat, totalReplans0: nat,
                       ghost w: World, ghost b: Before, ghost called: Run)
      returns (attempt: Attempt, steps: seq<TaskStep>, totalReplans: nat, ghost next: Run)
      requires ServedBy(w, b) && TalkIs(b, called.talk, stm)
      requires called.phase.Dispatching? && called.phase.action == action && called.phase.input == input
      requires called.steps == steps0 && called.stepReplans == stepReplans && called.totalReplans == totalReplans0
      modifies stm, transport
      ensures next == AfterReply(config, w, called, reply)
      ensures next.window == called.window && next.registry == called.registry
      ensures next.steps == steps && next.totalReplans == totalReplans
      ensures TalkIs(b, next.talk, stm) && LeadsTo(called.phase.opener, attempt, next.phase)
    {
      steps, totalReplans := steps0, totalReplans0;
      match reply
      case Ok(output) =>
        steps := steps + [TaskStep(action, input, true, None)];
        return Leave(Ok(Observation(output))), steps, totalReplans, AfterOutput(called, output);
      case Err(toolError) =>
        var errorMsg := toolError.ToString();
        steps := steps + [TaskStep(action, input, false, Some(errorMsg))];
        totalReplans := totalReplans + 1;
        AfterErrorCounts(config, w, called, errorMsg);
        attempt, next := AfterToolError(action, errorMsg, stm, stepReplans + 1, totalReplans, w, b, called);
    }

    /** Records and makes the call, then handles its reply. */
    method CallTool(action: string, input: Json, stm: ShortTermMemory, detector: LoopDetector, exchange: Exchange,
                    steps0: seq<TaskStep>, stepReplans: nat, totalReplans0: nat,
                    ghost w: World, ghost b: Before, ghost r: Run)
      returns (attempt: Attempt, steps: seq<TaskStep>, totalReplans: nat, ghost next: Run)
      requires Wired() && ServedBy(w, b) && TalkIs(b, r.talk, stm) && ToolsAre(r, stm, detector)
      requires r.phase.Dispatching? && r.phase.action == action && r.phase.input == input
      requires r.steps == steps0 && r.stepReplans == stepReplans && r.totalReplans == totalReplans0
      requires exchange == w.dispatch(|r.calls|)
      modifies stm, detector, transport, registry.Repr, registry`view
      ensures next == AfterReply(config, w, Called(config, w, r), PendingReply(config, w, r))
      ensures TalkIs(b, next.talk, stm) && ToolsAre(next, stm, detector)
      ensures LeadsTo(r.phase.opener, attempt, next.phase)
      ensures next.steps == steps && next.totalReplans == totalReplans
    {
      hide AfterReply, AfterCall, ReplyTo, LastN, LongestFitting, Tokens;
      var reply;
      ghost var called;
      reply, called := TryTool(action, input, stm, detector, exchange, w, r);
      attempt, steps, totalReplans, next :=
        HandleReply(action, input, reply, stm, steps0, stepReplans, totalReplans0, w, b, called);
    }

    /** One round of the replan loop: nothing is called once a loop is visible. */
    method AttemptTool(action: string, input: Json, stm: ShortTermMemory, detector: LoopDetector, exchange: Exchange,
                       steps0: seq<TaskStep>, stepReplans: nat, totalReplans0: nat,
                       ghost w: World, ghost b: Before, ghost r: Run)
      returns (attempt: Attempt, steps: seq<TaskStep>, totalReplans: nat, ghost next: Run)
      requires Wired() && ServedBy(w, b) && TalkIs(b, r.talk, stm) && ToolsAre(r, stm, detector)
      requires LoopIsNews(config, r)
      requires r.phase.Dispatching? && r.phase.action == action && r.phase.input == input
      requires r.steps == steps0 && r.stepReplans == stepReplans && r.totalReplans == totalReplans0
      requires exchange == w.dispatch(|r.calls|)
      modifies stm, detector, transport, registry.Repr, registry`view
      ensures next == Dispatch(config, w, r)
      ensures TalkIs(b, next.talk, stm) && ToolsAre(next, stm, detector)
      ensures LeadsTo(r.phase.opener, attempt, next.phase)
      ensures next.steps == steps && next.totalReplans == totalReplans
    {
      var looping := detector.IsLooping();
      if looping.Some? {
        LoopReportIsForced(config, w, r, looping.value);
        return Leave(Err(Loop(looping.value))), steps0, totalReplans0, Dispatch(config, w, r);
      }
      attempt, steps, totalReplans, next :=
        CallTool(action, input, stm, detector, exchange, steps0, stepReplans, totalReplans0, w, b, r);
    }

    /** Dispatches a tool call; after an error asks the model for an alternative and tries that,
        up to the replan limits. */
    method ExecuteToolWithReplan(initialAction: string, initialInput: Json, stm: ShortTermMemory,
                                 detector: LoopDetector, exchanges: nat -> Exchange,
                                 steps0: seq<TaskStep>, totalReplans0: nat,
                                 ghost w: World, ghost b: Before, ghost first: Run)
      returns (outcome: Result<StepOutcome, PlanError>, steps: seq<TaskStep>, totalReplans: nat, ghost r: Run)
      requires Wired() && ServedBy(w, b) && w.dispatch == exchanges
      requires TalkIs(b, first.talk, stm) && ToolsAre(first, stm, detector)
      requires OnTrack(config, w, first, first)
      requires first.phase == Dispatching(initialAction, initialAction, initialInput) && first.stepReplans == 0
      requires first.steps == steps0 && first.totalReplans == totalReplans0
      modifies stm, detector, transport, registry.Repr, registry`view
      ensures TalkIs(b, r.talk, stm) && ToolsAre(r, stm, detector)
      ensures r.steps == steps && r.totalReplans == totalReplans
      ensures OnTrack(config, w, first, r)
      ensures r.goal == first.goal && r.iteration == first.iteration && r.episodes == first.episodes
      ensures LeadsTo(initialAction, Leave(outcome), r.phase)
    {
      var action, input, stepReplans := initialAction, initialInput, 0;
      steps, totalReplans, r := steps0, totalReplans0, first;
      while true
        invariant TalkIs(b, r.talk, stm) && ToolsAre(r, stm, detector)
        invariant OnTrack(config, w, first, r)
        invariant r.goal == first.goal && r.iteration == first.iteration && r.episodes == first.episodes
        invariant r.phase == Dispatching(initialAction, action, input)
        invariant r.stepReplans == stepReplans && r.steps == steps && r.totalReplans == totalReplans
        decreases config.StepLimit() - stepReplans
      {
        NextStaysOnTrack(config, w, first, r);
        DispatchKeepsPlace(config, w, r);
        var attempt;
        attempt, steps, totalReplans, r :=
          AttemptTool(action, input, stm, detector, exchanges(|steps|), steps, stepReplans, totalReplans, w, b, r);
        match attempt
        case Leave(result) =>
          return result, steps, totalReplans, r;
        case Retry(alternative, alternativeInput) =>
          action, input, stepReplans := alternative, alternativeInput, stepReplans + 1;
      }
    }

    /** The first half of an iteration: summarise if needed, ask the model, and look at its answer. */
    method BeginIteration(goal: string, stm: ShortTermMemory, steps: seq<TaskStep>, iteration: nat, totalReplans: nat,
                          ghost w: World, ghost b: Before, ghost r: Run)
      returns (decision: Decision, ghost next: Run)
      requires Wired() && ServedBy(w, b) && TalkIs(b, r.talk, stm) && EpisodesAre(b, r)
      requires r.phase == Deciding && r.iteration == iteration < config.maxIterations
      requires r.goal == goal && r.steps == steps && r.totalReplans == totalReplans
      modifies stm, transport, episodicLog
      ensures next == ExecutorModel.Decide(config, w, r)
      ensures TalkIs(b, next.talk, stm) && EpisodesAre(b, next)
      ensures next.phase == match decision
                            case Proceed(action, input) => Dispatching(action, action, input)
                            case Done(verdict) => Finished(verdict)
    {
      hide Stored, Tokens, LongestFitting, Admit, ExecutorModel.Push, ServedBy;
      next := ExecutorModel.Decide(config, w, r);
      ghost var talk := r.talk;
      if config.nearBudget(stm.tokenCount, stm.maxTokens) {
        var error;
        error, talk := MaybeSummarize(stm, w, b, talk);
        if error.Some? {
          return Done(Err(Ipc(error.value))), next;
        }
      }
      var response;
      response, talk := Consult(stm, w, b, talk);
      if response.Err? {
        return Done(Err(Ipc(response.error))), next;
      }
      if response.value.isFinal {
        Record(goal, steps, Success, b, r);
        return Done(Ok(TaskResult(Success, response.value.finalAnswer, steps, iteration + 1, totalReplans))), next;
      }
      var action := response.value.Action();
      if action == "" {
        return Done(Err(Ipc(NO_ACTION))), next;
      }
      return Proceed(action, response.value.actionInput), next;
    }

    /** The second half: feed the observation back, or finish with the answer given while replanning. */
    method EndIteration(goal: string, opener: string, outcome: StepOutcome, stm: ShortTermMemory,
                        steps: seq<TaskStep>, iteration: nat, totalReplans: nat,
                        ghost w: World, ghost b: Before, ghost r: Run)
      returns (verdict: Option<Verdict>, ghost next: Run)
      requires Wired() && TalkIs(b, r.talk, stm) && EpisodesAre(b, r)
      requires LeadsTo(opener, Leave(Ok(outcome)), r.phase)
      requires r.goal == goal && r.steps == steps && r.iteration == iteration && r.totalReplans == totalReplans
      modifies stm, episodicLog
      ensures next == Next(config, w, r)
      ensures TalkIs(b, next.talk, stm) && EpisodesAre(b, next)
      ensures next.phase == if verdict.Some? then Finished(verdict.value) else Deciding
      ensures next.window == r.window && next.registry == r.registry
      ensures next.goal == goal && next.steps == steps && next.totalReplans == totalReplans
      ensures verdict.None? ==> next.iteration == iteration + 1
    {
      hide Stored, Tokens, LongestFitting, Admit, ExecutorModel.Push, EstimateTokens;
      next := Next(config, w, r);
      match outcome
      case Observation(output) =>
        var observation := FormatObservation(opener, output);
        ghost var talk := PushMessage(stm, User, observation, b, r.talk);
        verdict := None;
      case FinalAnswer(thought, answer) =>
        if thought != "" {
          ghost var talk := PushMessage(stm, Assistant, thought, b, r.talk);
        }
        Record(goal, steps, Success, b, r);
        verdict := Some(Ok(TaskResult(Success, answer, steps, iteration + 1, totalReplans)));
    }

    /** Dispatches the chosen action and ends the iteration. */
    method Act(goal: string, opener: string, input: Json, stm: ShortTermMemory, detector: LoopDetector,
               exchanges: nat -> Exchange, steps0: seq<TaskStep>, iteration: nat, totalReplans0: nat,
               ghost w: World, ghost b: Before, ghost acting: Run)
      returns (verdict: Option<Verdict>, steps: seq<TaskStep>, totalReplans: nat, ghost r: Run)
      requires Wired() && ServedBy(w, b) && w.dispatch == exchanges
      requires TalkIs(b, acting.talk, stm) && ToolsAre(acting, stm, detector) && EpisodesAre(b, acting)
      requires episodicLog !in registry.Repr
      requires acting.phase == Dispatching(opener, opener, input) && acting.stepReplans == 0
      requires acting.iteration == iteration && acting.goal == goal
      requires acting.steps == steps0 && acting.totalReplans == totalReplans0
      requires OnTrack(config, w, acting, acting)
      modifies stm, detector, transport, registry.Repr, registry`view, episodicLog
      ensures TalkIs(b, r.talk, stm) && ToolsAre(r, stm, detector) && EpisodesAre(b, r)
      ensures OnTrack(config, w, acting, r)
      ensures match verdict
              case Some(v) => r.phase == Finished(v)
              case None => r.phase == Deciding && r.iteration == iteration + 1 && r.goal == goal
                           && r.steps == steps && r.totalReplans == totalReplans
    {
      hide Next, Complete, Stored, Tokens, LongestFitting, ServedBy, InRange, LoopIsNews, LastN, Min;
      var outcome;
      outcome, steps, totalReplans, r :=
        ExecuteToolWithReplan(opener, input, stm, detector, exchanges, steps0, totalReplans0, w, b, acting);
      if outcome.Err? {
        return Some(Err(outcome.error)), steps, totalReplans, r;
      }
      NextStaysOnTrack(config, w, acting, r);
      verdict, r := EndIteration(goal, opener, outcome.value, stm, steps, iteration, totalReplans, w, b, r);
    }

    /** One iteration of the ReAct loop. */
    method Iterate(goal: string, stm: ShortTermMemory, detector: LoopDetector, exchanges: nat -> Exchange,
                   steps0: seq<TaskStep>, iteration: nat, totalReplans0: nat,
                   ghost w: World, ghost b: Before, ghost start: Run)
      returns (verdict: Option<Verdict>, steps: seq<TaskStep>, totalReplans: nat, ghost r: Run)
      requires Wired() && ServedBy(w, b) && w.dispatch == exchanges
      requires TalkIs(b, start.talk, stm) && ToolsAre(start, stm, detector) && EpisodesAre(b, start)
      requires episodicLog !in registry.Repr
      requires start.phase == Deciding && start.iteration == iteration < config.maxIterations && start.goal == goal
      requires start.steps == steps0 && start.totalReplans == totalReplans0
      requires OnTrack(config, w, start, start)
      modifies stm, detector, transport, registry.Repr, registry`view, episodicLog
      ensures TalkIs(b, r.talk, stm) && ToolsAre(r, stm, detector) && EpisodesAre(b, r)
      ensures OnTrack(config, w, start, r)
      ensures match verdict
              case Some(v) => r.phase == Finished(v)
              case None => r.phase == Deciding && r.iteration == iteration + 1 && r.goal == goal
                           && r.steps == steps && r.totalReplans == totalReplans
    {
      hide ExecutorModel.Decide, Complete, Stored, Tokens, LongestFitting, ServedBy, LastN, Min;
      NextStaysOnTrack(config, w, start, start);
      DecideKeepsPlace(config, w, start);
      var decision;
      decision, r := BeginIteration(goal, stm, steps0, iteration, totalReplans0, w, b, start);
      if decision.Done? {
        return Some(decision.verdict), steps0, totalReplans0, r;
      }
      verdict, steps, totalReplans, r :=
        Act(goal, decision.action, decision.input, stm, detector, exchanges, steps0, iteration, totalReplans0, w, b, r);
    }

    /** The iterations until one of them ends the run or all are used up. */
    method RunIterations(goal: string, stm: ShortTermMemory, detector: LoopDetector, exchanges: nat -> Exchange,
                         ghost w: World, ghost b: Before, ghost first: Run)
      returns (result: Verdict, ghost end: Run)
      requires Wired() && ServedBy(w, b) && w.dispatch == exchanges
      requires TalkIs(b, first.talk, stm) && ToolsAre(first, stm, detector) && EpisodesAre(b, first)
      requires episodicLog !in registry.Repr
      requires first.phase == Deciding && first.iteration == 0 && first.goal == goal
      requires first.steps == [] && first.totalReplans == 0
      requires OnTrack(config, w, first, first)
      modifies stm, detector, transport, registry.Repr, registry`view, episodicLog
      ensures TalkIs(b, end.talk, stm) && ToolsAre(end, stm, detector) && EpisodesAre(b, end)
      ensures OnTrack(config, w, first, end) && end.phase == Finished(result)
    {
      hide Next, Complete, OnTrack, InRange, LoopIsNews, LastN, Min, Stored, ServedBy;
      var steps: seq<TaskStep> := [];
      var totalReplans := 0;
      end := first;
      for iteration := 0 to config.maxIterations
        invariant end.phase == Deciding && end.iteration == iteration && end.goal == goal
        invariant end.steps == steps && end.totalReplans == totalReplans
        invariant TalkIs(b, end.talk, stm) && ToolsAre(end, stm, detector) && EpisodesAre(b, end)
        invariant OnTrack(config, w, first, end) && OnTrack(config, w, end, end)
      {
        var verdict;
        ghost var start := end;
        verdict, steps, totalReplans, end :=
          Iterate(goal, stm, detector, exchanges, steps, iteration, totalReplans, w, b, start);
        TracksJoin(config, w, first, start, end);
        if verdict.Some? {
          return verdict.value, end;
        }
      }
      NextStaysOnTrack(config, w, first, end);
      end := GiveUp(goal, stm, detector, steps, w, b, end);
      return Err(MaxIterationsReached(config.maxIterations)), end;
    }

    method GiveUp(goal: string, ghost stm: ShortTermMemory, ghost detector: LoopDetector, steps: seq<TaskStep>,
                  ghost w: World, ghost b: Before, ghost r: Run)
      returns (ghost next: Run)
      requires Wired() && TalkIs(b, r.talk, stm) && ToolsAre(r, stm, detector) && EpisodesAre(b, r)
      requires episodicLog !in registry.Repr
      requires r.goal == goal && r.steps == steps
      requires r.phase == Deciding && r.iteration == config.maxIterations
      modifies episodicLog
      ensures next == Next(config, w, r)
      ensures TalkIs(b, next.talk, stm) && ToolsAre(next, stm, detector) && EpisodesAre(b, next)
      ensures next.phase == Finished(Err(MaxIterationsReached(config.maxIterations)))
    {
      Record(goal, steps, Failure, b, r);
      next := Next(config, w, r);
    }

    /** The ReAct loop over the per-task collaborators. */
    method ExecuteInner(goal: string, detector: LoopDetector, exchanges: nat -> Exchange,
                        ghost w: World, ghost b: Before, ghost first: Run)
      returns (result: Verdict, ghost end: Run)
      requires Wired() && ServedBy(w, b) && w.dispatch == exchanges
      requires registry.Valid() && detector.Valid() && detector.window == []
      requires detector.windowSize == config.windowSize && detector.repeatThreshold == config.repeatThreshold
      requires detector.hashCall == config.hashCall
      requires detector !in registry.Repr && transport !in registry.Repr && episodicLog !in registry.Repr
      requires transport.asked == b.asked && transport.digested == b.digested
      requires episodicLog != null ==> episodicLog.Valid() && episodicLog.offered == b.episodes
      requires config.stmTokenBudget > 0
      modifies detector, transport, registry.Repr, registry`view, episodicLog
      requires first == Start(config, registry.view, goal)
      ensures registry.Valid() && registry.view == end.registry
      ensures OnTrack(config, w, first, end) && end.phase == Finished(result)
      ensures transport.asked == b.asked + end.talk.asked
      ensures transport.digested == b.digested + end.talk.digested && EpisodesAre(b, end)
    {
      hide Complete, OnTrack, Start, ExecutorModel.Push, registry.Valid, Stored, Tokens, LongestFitting, ServedBy;
      hide LastN, Min, EstimateTokens, InRange, LoopIsNews, Named, Unshared;
      StartIsOnTrack(config, w, registry.view, goal);
      var stm;
      ghost var talk;
      stm, talk := OpenMemory(goal, detector, b, first);
      result, end := RunIterations(goal, stm, detector, exchanges, w, b, first);
    }

    /** A fresh memory that holds the goal. */
    method OpenMemory(goal: string, ghost detector: LoopDetector, ghost b: Before, ghost first: Run)
      returns (stm: ShortTermMemory, ghost talk: Conversation)
      requires transport.asked == b.asked && transport.digested == b.digested
      requires config.stmTokenBudget > 0 && registry.Valid() && first.registry == registry.view
      requires detector.Valid() && detector.window == first.window
      requires detector.windowSize == config.windowSize && detector.repeatThreshold == config.repeatThreshold
      requires detector.hashCall == config.hashCall
      requires detector !in registry.Repr && transport !in registry.Repr
      ensures ToolsAre(first, stm, detector)
      ensures fresh(stm) && talk == ExecutorModel.Push(config, SILENCE, User, goal) && TalkIs(b, talk, stm)
    {
      stm := new ShortTermMemory(config.stmTokenBudget);
      talk := PushMessage(stm, User, goal, b, SILENCE);
    }

    /** Executes one task; `exchanges` says what the tools and the clock do at each dispatch. */
    method Execute(goal: string, exchanges: nat -> Exchange) returns (result: Verdict)
      requires Wired() && registry.Valid() && transport !in registry.Repr && episodicLog !in registry.Repr
      requires config.stmTokenBudget > 0 && (episodicLog != null ==> episodicLog.Valid())
      modifies transport, registry.Repr, registry`view, episodicLog
      ensures registry.Valid()
      ensures var end := ExecutorModel.Execute(config, old(WorldFromNow(exchanges)), old(registry.view), goal);
        && end.phase == Finished(result)
        && transport.asked == old(transport.asked) + end.talk.asked
        && transport.digested == old(transport.digested) + end.talk.digested
        && registry.view == end.registry
        && (episodicLog != null ==>
              episodicLog.Valid() && episodicLog.offered == old(episodicLog.offered) + end.episodes)
    {
      ghost var w := WorldFromNow(exchanges);
      ghost var b := Before(transport.asked, transport.digested,
                            if episodicLog == null then [] else episodicLog.offered);
      assert ServedBy(w, b);
      hide ServedBy, WorldFromNow, ExecutorModel.Execute, Start, OnTrack, Complete, Stored, LastN;
      var detector := new LoopDetector(config.windowSize, config.repeatThreshold, config.hashCall);
      StartIsOnTrack(config, w, registry.view, goal);
      ghost var first := Start(config, registry.view, goal);
      ghost var end;
      result, end := ExecuteInner(goal, detector, exchanges, w, b, first);
      TrackEnds(config, w, first.registry, goal, end);
    }
  }
}
