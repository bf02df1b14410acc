/** The conversation of a run, rebuilt from its step log and the model's replies alone: which calls
    were made, what entered the memory between two requests, and where the final answer came from. */
module TranscriptLaws {
  import opened Prelude
  import opened ShortTermMemory
  import opened ToolRegistry
  import opened ExecutorModel
  import opened ExecutorLaws
  import opened MemoryLaws

  // ---------------------------------------------------------------------------
  // The reference: what the log of the memory should be.

  function Said(role: Role, text: string): MemoryEvent {
    Pushed(Message(role, text, EstimateTokens(text)))
  }

  /** The thought that came with reply `n`, unless it is empty. */
  function Heard(w: World, n: nat): seq<MemoryEvent> {
    if w.reason(n).Ok? && w.reason(n).value.thought != "" then [Said(Assistant, w.reason(n).value.thought)] else []
  }

  /** The action that opened the iteration in which a step with this action follows `steps`. */
  function OpenerOf(steps: seq<TaskStep>, action: string): string {
    var errors := TrailingErrors(steps);
    if 0 < errors <= |steps| then steps[|steps| - errors].action else action
  }

  /** What the model is told about the last step: the error, or the tool's output. */
  function ToldOf(steps: seq<TaskStep>, calls: seq<Call>): MemoryEvent
    requires |steps| == |calls| > 0
  {
    var last, call := steps[|steps| - 1], calls[|calls| - 1];
    if last.error.Some? then Said(User, ErrorContext(last.action, last.error.value))
    else
      var output := if call.exchange.reply.Ok? then call.exchange.reply.value else "";
      Said(User, FormatObservation(OpenerOf(steps[..|steps| - 1], last.action), output))
  }

  function CountSummaries(log: seq<MemoryEvent>): nat {
    if log == [] then 0
    else CountSummaries(log[..|log| - 1]) + if log[|log| - 1].Summarised? then 1 else 0
  }

  /** The log after the check at the head of an iteration. */
  function Condensed(c: Config, w: World, log: seq<MemoryEvent>): seq<MemoryEvent> {
    var kept := LongestFitting(SinceSummary(log), c.stmTokenBudget);
    var summary := w.summarize(CountSummaries(log));
    if c.nearBudget(Tokens(kept), c.stmTokenBudget) && summary.Ok?
    then log + [Summarised(Message(System, summary.value.text, summary.value.tokenCount))]
    else log
  }

  /** The log after these steps: the goal, and for every step the thought that led to it and what
      the model was told about it. */
  function Raw(c: Config, w: World, goal: string, steps: seq<TaskStep>, calls: seq<Call>): seq<MemoryEvent>
    requires |steps| == |calls|
    decreases |steps|, 0
  {
    if steps == [] then [Said(User, goal)]
    else
      var n := |steps| - 1;
      Transcript(c, w, goal, steps[..n], calls[..n]) + Heard(w, n) + [ToldOf(steps, calls)]
  }

  /** The same when the next request is made; a summary is tried only where an iteration starts. */
  function Transcript(c: Config, w: World, goal: string, steps: seq<TaskStep>, calls: seq<Call>): seq<MemoryEvent>
    requires |steps| == |calls|
    decreases |steps|, 1
  {
    var raw := Raw(c, w, goal, steps, calls);
    if TrailingErrors(steps) == 0 then Condensed(c, w, raw) else raw
  }

  /** Call `n` is the choice of reply `n`, and its log entry says what was called. */
  predicate ChosenByModel(w: World, calls: seq<Call>, steps: seq<TaskStep>, n: nat)
    requires n < |calls| == |steps|
  {
    && w.reason(n).Ok? && !w.reason(n).value.isFinal
    && w.reason(n).value.action == Some(calls[n].name)
    && calls[n].name == steps[n].action != ""
    && calls[n].input == steps[n].input == w.reason(n).value.actionInput
    && calls[n].exchange == w.dispatch(n)
    && (steps[n].success <==> steps[n].error.None?)
    && (steps[n].success ==> calls[n].exchange.reply.Ok?)
  }

  // ---------------------------------------------------------------------------
  // The invariant.

  ghost predicate RequestFits(c: Config, w: World, r: Run, i: nat)
    requires |r.steps| == |r.calls| && i < |r.talk.askedAt| && i <= |r.steps|
  {
    && r.talk.askedAt[i] <= |r.talk.log|
    && r.talk.log[..r.talk.askedAt[i]] == Transcript(c, w, r.goal, r.steps[..i], r.calls[..i])
  }

  ghost predicate Faithful(c: Config, w: World, r: Run) {
    && |r.steps| == |r.calls|
    && |r.talk.askedAt| == |r.talk.asked| <= |r.steps| + 1
    && (forall n: nat | n < |r.calls| :: ChosenByModel(w, r.calls, r.steps, n))
    && (forall i: nat | i < |r.talk.askedAt| :: RequestFits(c, w, r, i))
  }

  /** The model wants to go on but gives no action, or an empty one. */
  predicate NamesNoAction(reply: Result<Thought, string>) {
    && reply.Ok? && !reply.value.isFinal
    && (reply.value.action == None || reply.value.action == Some(""))
  }

  /** Where a result or a failure of the servers came from. */
  predicate Explained(w: World, steps: seq<TaskStep>, talk: Conversation, verdict: Verdict) {
    var n := |steps|;
    match verdict
    case Ok(result) =>
      && |talk.asked| == n + 1
      && w.reason(n).Ok? && w.reason(n).value.isFinal
      && result.finalAnswer == w.reason(n).value.finalAnswer
    case Err(Ipc(message)) =>
      || (|talk.asked| == n + 1 && w.reason(n) == Err(message))
      || (&& |talk.asked| == n + 1
          && NamesNoAction(w.reason(n))
          && message == if TrailingErrors(steps) == 0 then "action is empty but is_final is false"
                        else "replan returned no action and is_final=false")
      || (&& |talk.asked| == n && talk.digested != []
          && w.summarize(|talk.digested| - 1) == Err(message))
    case Err(Loop(_)) =>
      && |talk.asked| == n + 1
      && w.reason(n).Ok? && !w.reason(n).value.isFinal && !NamesNoAction(w.reason(n))
    case Err(_) => |talk.asked| == n
  }

  /** Everything that had entered the memory when the run ended this way: nothing is added after the
      last reply, except that a final answer given while replanning leaves its thought twice. */
  predicate EndsLog(c: Config, w: World, goal: string, steps: seq<TaskStep>, calls: seq<Call>,
                    talk: Conversation, verdict: Verdict)
    requires |steps| == |calls|
  {
    var n := |steps|;
    if verdict.Err? && (verdict.error.MaxReplansPerStep? || verdict.error.MaxReplansPerTask?) then
      n > 0 && talk.log == Transcript(c, w, goal, steps[..n - 1], calls[..n - 1]) + Heard(w, n - 1)
    else if |talk.asked| == n then
      talk.log == Raw(c, w, goal, steps, calls)
    else
      talk.log == Transcript(c, w, goal, steps, calls) + Heard(w, n)
                  + if verdict.Ok? && TrailingErrors(steps) > 0 then Heard(w, n) else []
  }

  /** What is known of the log in each phase of a run. */
  ghost predicate LogFits(c: Config, w: World, r: Run)
    requires |r.steps| == |r.calls|
  {
    && (!r.phase.Finished? ==> CountSummaries(r.talk.log) == |r.talk.digested|)
    && match r.phase
       case Deciding =>
         && |r.talk.asked| == |r.steps| && TrailingErrors(r.steps) == 0
         && r.talk.log == Raw(c, w, r.goal, r.steps, r.calls)
       case Dispatching(opener, action, input) =>
         && |r.talk.asked| == |r.steps| + 1 && TrailingErrors(r.steps) == r.stepReplans
         && r.talk.log == Transcript(c, w, r.goal, r.steps, r.calls) + Heard(w, |r.steps|)
         && opener == OpenerOf(r.steps, action)
         && w.reason(|r.steps|).Ok? && !w.reason(|r.steps|).value.isFinal
         && w.reason(|r.steps|).value.action == Some(action) && action != ""
         && input == w.reason(|r.steps|).value.actionInput
       case Observed(opener, output) =>
         && |r.talk.asked| == |r.steps| > 0 && r.steps[|r.steps| - 1].success
         && r.talk.log + [Said(User, FormatObservation(opener, output))] == Raw(c, w, r.goal, r.steps, r.calls)
       case Answered(thought, answer) =>
         && |r.talk.asked| == |r.steps| + 1 && TrailingErrors(r.steps) > 0
         && r.talk.log == Transcript(c, w, r.goal, r.steps, r.calls) + Heard(w, |r.steps|)
         && w.reason(|r.steps|).Ok? && w.reason(|r.steps|).value.isFinal
         && thought == w.reason(|r.steps|).value.thought
         && answer == w.reason(|r.steps|).value.finalAnswer
       case Finished(verdict) =>
         Explained(w, r.steps, r.talk, verdict) && EndsLog(c, w, r.goal, r.steps, r.calls, r.talk, verdict)
  }

  ghost predicate Telling(c: Config, w: World, r: Run) {
    |r.steps| == |r.calls| && Faithful(c, w, r) && LogFits(c, w, r) && Remembers(c, r.talk)
  }

  lemma CountOfAppend(log: seq<MemoryEvent>, event: MemoryEvent)
    ensures CountSummaries(log + [event]) == CountSummaries(log) + if event.Summarised? then 1 else 0
  {
    assert (log + [event])[..|log|] == log;
  }

  /** Old requests still fit when the log, the steps and the calls only grew. */
  lemma OldRequestsFit(c: Config, w: World, r: Run, next: Run)
    requires Faithful(c, w, r)
    requires next.goal == r.goal && r.talk.log <= next.talk.log
    requires r.steps <= next.steps && r.calls <= next.calls && |next.steps| == |next.calls|
    requires next.talk.askedAt == r.talk.askedAt && next.talk.asked == r.talk.asked
    requires forall n: nat | |r.calls| <= n < |next.calls| :: ChosenByModel(w, next.calls, next.steps, n)
    ensures Faithful(c, w, next)
  {
    forall n: nat | n < |next.calls|
      ensures ChosenByModel(w, next.calls, next.steps, n)
    {
      if n < |r.calls| {
        assert ChosenByModel(w, r.calls, r.steps, n);
      }
    }
    forall i: nat | i < |next.talk.askedAt|
      ensures RequestFits(c, w, next, i)
    {
      assert RequestFits(c, w, r, i);
      assert next.steps[..i] == r.steps[..i] && next.calls[..i] == r.calls[..i];
      assert next.talk.log[..r.talk.askedAt[i]] == r.talk.log[..r.talk.askedAt[i]];
    }
  }

  lemma SendFits(c: Config, w: World, r: Run, sent: Run)
    requires Faithful(c, w, r) && |r.talk.asked| == |r.steps|
    requires r.talk.log == Transcript(c, w, r.goal, r.steps, r.calls)
    requires sent == r.(talk := Send(r.talk))
    ensures Faithful(c, w, sent)
  {
    forall i: nat | i < |sent.talk.askedAt|
      ensures RequestFits(c, w, sent, i)
    {
      if i < |r.talk.askedAt| {
        assert RequestFits(c, w, r, i);
      } else {
        assert r.talk.log[..|r.talk.log|] == r.talk.log;
        assert r.steps[..i] == r.steps && r.calls[..i] == r.calls;
      }
    }
  }

  // ---------------------------------------------------------------------------
  // Each step of the machine keeps the invariant.

  lemma {:induction false} TrailingAtMostLength(steps: seq<TaskStep>)
    ensures TrailingErrors(steps) <= |steps|
  {
    if steps != [] {
      TrailingAtMostLength(steps[..|steps| - 1]);
    }
  }

  /** A failed step leaves the opening action of its iteration as it was. */
  lemma OpenerStays(steps: seq<TaskStep>, step: TaskStep, next: string)
    requires !step.success
    ensures OpenerOf(steps + [step], next) == OpenerOf(steps, step.action)
  {
    TrailingAtMostLength(steps);
    CountsOfAppend(steps, step);
  }

  lemma PushLogs(c: Config, talk: Conversation, role: Role, text: string)
    ensures var next := Push(c, talk, role, text);
      && next.log == talk.log + [Said(role, text)]
      && next.asked == talk.asked && next.askedAt == talk.askedAt && next.digested == talk.digested
      && CountSummaries(next.log) == CountSummaries(talk.log)
  {
    CountOfAppend(talk.log, Said(role, text));
  }

  lemma ThoughtLogs(c: Config, w: World, talk: Conversation, n: nat)
    requires w.reason(n).Ok?
    ensures var next := PushThought(c, talk, w.reason(n).value.thought);
      && next.log == talk.log + Heard(w, n)
      && next.asked == talk.asked && next.askedAt == talk.askedAt && next.digested == talk.digested
      && CountSummaries(next.log) == CountSummaries(talk.log)
  {
    hide Push;
    if w.reason(n).value.thought != "" {
      PushLogs(c, talk, Assistant, w.reason(n).value.thought);
    }
  }

  lemma ConsultTells(c: Config, w: World, r: Run, replan: Option<string>)
    requires Faithful(c, w, r) && Remembers(c, r.talk) && CountSummaries(r.talk.log) == |r.talk.digested|
    requires |r.talk.asked| == |r.steps| && TrailingErrors(r.steps) == r.stepReplans
    requires r.talk.log == Transcript(c, w, r.goal, r.steps, r.calls)
    requires forall action :: OpenerOf(r.steps, action) == if replan.Some? then replan.value else action
    requires replan.None? <==> r.stepReplans == 0
    ensures Telling(c, w, Consult(c, w, r, replan))
  {
    hide Transcript, PushThought, Remembers, OpenerOf, CountSummaries, RecordEpisode;
    var n := |r.steps|;
    var sent := r.(talk := Send(r.talk));
    SendFits(c, w, r, sent);
    ConsultRemembers(c, w, r, replan);
    if w.reason(n).Ok? {
      ThoughtLogs(c, w, sent.talk, n);
      OldRequestsFit(c, w, sent, Consult(c, w, r, replan));
    } else {
      OldRequestsFit(c, w, sent, Consult(c, w, r, replan));
    }
  }

  lemma CompressCondenses(c: Config, w: World, talk: Conversation)
    requires Remembers(c, talk) && CountSummaries(talk.log) == |talk.digested|
    ensures var (next, error) := Compress(c, w, talk);
      && next.asked == talk.asked && next.askedAt == talk.askedAt && talk.log <= next.log
      && (error.None? ==> next.log == Condensed(c, w, talk.log) && CountSummaries(next.log) == |next.digested|)
      && (error.Some? ==> next.digested != [] && w.summarize(|next.digested| - 1) == Err(error.value))
  {
    var reply := w.summarize(|talk.digested|);
    if reply.Ok? {
      CountOfAppend(talk.log, Summarised(Message(System, reply.value.text, reply.value.tokenCount)));
    }
  }

  lemma DecideTells(c: Config, w: World, r: Run)
    requires Telling(c, w, r) && r.phase.Deciding?
    ensures Telling(c, w, Decide(c, w, r))
  {
    hide Consult, Remembers, Raw, Condensed, CountSummaries, Faithful;
    DecideRemembers(c, w, r);
    if r.iteration < c.maxIterations {
      var (talk, error) := Compress(c, w, r.talk);
      var ready := r.(talk := talk, stepReplans := 0);
      CompressRemembers(c, w, r.talk);
      CompressCondenses(c, w, r.talk);
      OldRequestsFit(c, w, r, ready);
      if error.None? {
        ConsultTells(c, w, ready, None);
      } else {
        OldRequestsFit(c, w, r, Decide(c, w, r));
      }
    } else {
      OldRequestsFit(c, w, r, Decide(c, w, r));
    }
  }

  /** The run with one more step logged, which is what the model chose and what came of it. */
  lemma StepIsChosen(c: Config, w: World, r: Run, next: Run, step: TaskStep)
    requires Telling(c, w, r) && r.phase.Dispatching?
    requires step.action == r.phase.action && step.input == r.phase.input
    requires step.success <==> step.error.None?
    requires step.success ==> w.dispatch(|r.calls|).reply.Ok?
    requires next.goal == r.goal && r.talk.log <= next.talk.log
    requires next.steps == r.steps + [step] && next.calls == r.calls + [PendingCall(w, r)]
    requires next.talk.asked == r.talk.asked && next.talk.askedAt == r.talk.askedAt
    ensures Faithful(c, w, next)
  {
    hide Transcript, Raw, Remembers, RequestFits;
    OldRequestsFit(c, w, r, next);
  }

  /** What the model is told next completes the log that the step log calls for. */
  lemma TellingCompletesRaw(c: Config, w: World, r: Run, step: TaskStep)
    requires |r.steps| == |r.calls| && r.phase.Dispatching?
    requires r.talk.log == Transcript(c, w, r.goal, r.steps, r.calls) + Heard(w, |r.steps|)
    ensures var steps, calls := r.steps + [step], r.calls + [PendingCall(w, r)];
      Raw(c, w, r.goal, steps, calls) == r.talk.log + [ToldOf(steps, calls)]
  {
    var steps, calls := r.steps + [step], r.calls + [PendingCall(w, r)];
    assert steps[..|r.steps|] == r.steps && calls[..|r.calls|] == r.calls;
  }

  lemma OutputTells(c: Config, w: World, r: Run, output: Json)
    requires Telling(c, w, r) && r.phase.Dispatching?
    requires w.dispatch(|r.calls|).reply == Ok(output)
    ensures Telling(c, w, AfterOutput(Called(c, w, r), output))
  {
    hide Transcript, Raw, Remembers, Heard, OpenerOf, CountSummaries, Faithful, FormatObservation;
    var step := TaskStep(r.phase.action, r.phase.input, true, None);
    var next := AfterOutput(Called(c, w, r), output);
    StepIsChosen(c, w, r, next, step);
    TellingCompletesRaw(c, w, r, step);
    assert next.steps[..|r.steps|] == r.steps;
  }

  /** After a failed step has been logged and the model told, its next request is due. */
  lemma ToldIsReady(c: Config, w: World, r: Run, error: string, told: Run)
    requires Telling(c, w, r) && r.phase.Dispatching?
    requires told == Told(c, Charged(Called(c, w, r), error), error)
    ensures Faithful(c, w, told) && Remembers(c, told.talk) && CountSummaries(told.talk.log) == |told.talk.digested|
    ensures |told.talk.asked| == |told.steps| && TrailingErrors(told.steps) == told.stepReplans
    ensures told.talk.log == Transcript(c, w, told.goal, told.steps, told.calls)
    ensures forall action :: OpenerOf(told.steps, action) == r.phase.opener
  {
    hide Transcript, Raw, Remembers, Heard, OpenerOf, CountSummaries, Faithful, Push, AfterCall;
    var step := TaskStep(r.phase.action, r.phase.input, false, Some(error));
    CountsOfAppend(r.steps, step);
    PushLogs(c, r.talk, User, ErrorContext(r.phase.action, error));
    PushRemembers(c, r.talk, User, ErrorContext(r.phase.action, error));
    StepIsChosen(c, w, r, told, step);
    TellingCompletesRaw(c, w, r, step);
    TranscriptIsRaw(c, w, r.goal, told.steps, told.calls);
    forall action
      ensures OpenerOf(told.steps, action) == r.phase.opener
    {
      OpenerStays(r.steps, step, action);
    }
  }

  lemma ErrorTells(c: Config, w: World, r: Run, error: string)
    requires Telling(c, w, r) && r.phase.Dispatching?
    ensures Telling(c, w, AfterError(c, w, Called(c, w, r), error))
  {
    hide Transcript, Raw, Remembers, Heard, OpenerOf, CountSummaries, Faithful, Consult, Push, AfterCall;
    var step := TaskStep(r.phase.action, r.phase.input, false, Some(error));
    var failed := Charged(Called(c, w, r), error);
    ErrorRemembers(c, w, Called(c, w, r), error);
    if failed.stepReplans < c.maxReplansPerStep && failed.totalReplans < c.maxReplansPerTask {
      var told := Told(c, failed, error);
      ToldIsReady(c, w, r, error, told);
      ConsultTells(c, w, told, Some(r.phase.opener));
    } else {
      StepIsChosen(c, w, r, AfterError(c, w, Called(c, w, r), error), step);
    }
  }

  lemma TranscriptIsRaw(c: Config, w: World, goal: string, steps: seq<TaskStep>, calls: seq<Call>)
    requires |steps| == |calls| && TrailingErrors(steps) > 0
    ensures Transcript(c, w, goal, steps, calls) == Raw(c, w, goal, steps, calls)
  {
  }

  lemma OkIsTheToolsAnswer(c: Config, w: World, r: Run)
    requires r.phase.Dispatching? && PendingReply(c, w, r).Ok?
    ensures PendingReply(c, w, r) == w.dispatch(|r.calls|).reply
  {
  }

  lemma NextTells(c: Config, w: World, r: Run)
    requires Telling(c, w, r) && !r.phase.Finished?
    ensures Telling(c, w, Next(c, w, r))
  {
    hide Transcript, Raw, Remembers, Heard, OpenerOf, CountSummaries, Faithful;
    hide Decide, AfterError, Called, PendingReply, Push, PushThought;
    NextRemembers(c, w, r);
    match r.phase
    case Deciding => DecideTells(c, w, r);
    case Dispatching(_, _, _) =>
      if LoopDetector.Loops(r.window, c.repeatThreshold) {
        OldRequestsFit(c, w, r, Next(c, w, r));
      } else {
        match PendingReply(c, w, r)
        case Ok(output) =>
          OkIsTheToolsAnswer(c, w, r);
          OutputTells(c, w, r, output);
        case Err(e) => ErrorTells(c, w, r, e.ToString());
      }
    case Observed(opener, output) =>
      PushLogs(c, r.talk, User, FormatObservation(opener, output));
      OldRequestsFit(c, w, r, Next(c, w, r));
    case Answered(thought, _) =>
      ThoughtLogs(c, w, r.talk, |r.steps|);
      OldRequestsFit(c, w, r, Next(c, w, r));
  }

  lemma {:induction false} CompleteTells(c: Config, w: World, r: Run)
    requires InRange(c, r) && Telling(c, w, r)
    ensures Telling(c, w, Complete(c, w, r)) && Complete(c, w, r).goal == r.goal
    decreases c.maxIterations - r.iteration, Rank(c, r)
  {
    hide Next, Telling;
    if !r.phase.Finished? {
      NextDescends(c, w, r);
      NextTells(c, w, r);
      NextKeepsGoal(c, w, r);
      CompleteTells(c, w, Next(c, w, r));
    }
  }

  lemma NextKeepsGoal(c: Config, w: World, r: Run)
    requires !r.phase.Finished?
    ensures Next(c, w, r).goal == r.goal
  {
    hide Push, AfterCall, PendingReply;
  }

  lemma StartTells(c: Config, w: World, registry: Registry, goal: string)
    ensures Telling(c, w, Start(c, registry, goal))
  {
    OpeningRemembers(c, goal);
    assert Start(c, registry, goal).talk.log == [Said(User, goal)];
    CountOfAppend([], Said(User, goal));
  }

  lemma RunsTell(c: Config, w: World, registry: Registry, goal: string)
    ensures Telling(c, w, Execute(c, w, registry, goal)) && Execute(c, w, registry, goal).goal == goal
  {
    hide Complete, Telling;
    StartTells(c, w, registry, goal);
    CompleteTells(c, w, Start(c, registry, goal));
  }

  /** The run after `n` steps of the machine, or its end. */
  ghost function RunAfter(c: Config, w: World, registry: Registry, goal: string, n: nat): Run {
    if n == 0 then Start(c, registry, goal)
    else
      var r := RunAfter(c, w, registry, goal, n - 1);
      if r.phase.Finished? then r else Next(c, w, r)
  }

  lemma {:induction false} EveryPointTells(c: Config, w: World, registry: Registry, goal: string, n: nat)
    ensures Telling(c, w, RunAfter(c, w, registry, goal, n))
  {
    hide Telling, Next, Start;
    if n == 0 {
      StartTells(c, w, registry, goal);
    } else {
      EveryPointTells(c, w, registry, goal, n - 1);
      var r := RunAfter(c, w, registry, goal, n - 1);
      if !r.phase.Finished? {
        NextTells(c, w, r);
      }
    }
  }

  /** These are the points of the run that `Execute` completes. */
  lemma {:induction false} PointsLeadToEnd(c: Config, w: World, registry: Registry, goal: string, n: nat)
    ensures IsPoint(c, w, registry, goal, RunAfter(c, w, registry, goal, n))
  {
    hide Next;
    StartIsOnTrack(c, w, registry, goal);
    if n > 0 {
      PointsLeadToEnd(c, w, registry, goal, n - 1);
      var r := RunAfter(c, w, registry, goal, n - 1);
      if !r.phase.Finished? {
        NextDescends(c, w, r);
      }
    }
  }

  lemma {:induction false} TrailingErrorsAreLast(steps: seq<TaskStep>)
    ensures var m := |steps| - TrailingErrors(steps);
      && 0 <= m
      && (m > 0 ==> steps[m - 1].success)
      && forall k | m <= k < |steps| :: !steps[k].success
  {
    if steps != [] && !steps[|steps| - 1].success {
      TrailingErrorsAreLast(steps[..|steps| - 1]);
    }
  }

  // ---------------------------------------------------------------------------
  // What the model is told, and what comes of what it says.

  /** Request `i` of any run is determined by the goal, the model's own replies and the first `i`
      logged steps: the goal, each thought, and after each thought the error or the observation it
      led to, labelled with the action that opened its iteration, reduced to the longest suffix
      that fits the budget since the last summary. Nothing else enters a request, and nothing is
      lost from it except by summaries and the budget. */
  lemma {:induction false} RequestsFollowTranscript(c: Config, w: World, registry: Registry, goal: string, i: nat)
    requires i < |Execute(c, w, registry, goal).talk.asked|
    ensures var end := Execute(c, w, registry, goal);
      && i <= |end.steps| == |end.calls|
      && end.talk.asked[i] == LongestFitting(
           SinceSummary(Transcript(c, w, goal, end.steps[..i], end.calls[..i])), c.stmTokenBudget)
  {
    hide Complete;
    RunsTell(c, w, registry, goal);
    var end := Execute(c, w, registry, goal);
    assert RequestFits(c, w, end, i);
    assert RequestIsBest(c.stmTokenBudget, end.talk, i);
  }

  /** Every call of a run, and every logged step, is what the model asked for in the reply to the
      request made just before it; the run's result is the answer of the model's last reply, and a
      server error is that of the last reply, or of a failed summary, or an empty action. */
  lemma {:induction false} ModelChoosesEveryCall(c: Config, w: World, registry: Registry, goal: string)
    ensures var end := Execute(c, w, registry, goal);
      && |end.calls| == |end.steps| && |end.talk.asked| <= |end.calls| + 1
      && (forall n: nat | n < |end.calls| :: ChosenByModel(w, end.calls, end.steps, n))
      && Explained(w, end.steps, end.talk, end.phase.verdict)
      && EndsLog(c, w, goal, end.steps, end.calls, end.talk, end.phase.verdict)
  {
    hide Complete;
    RunsTell(c, w, registry, goal);
  }

  /** What one reply of the model leads to, for every reply that a run received. */
  predicate HasItsEffect(w: World, r: Run, verdict: Verdict, n: nat)
    requires |r.calls| == |r.steps|
  {
    match w.reason(n)
    case Err(message) => n == |r.calls| && verdict == Err(Ipc(message))
    case Ok(thought) =>
      if thought.isFinal then
        n == |r.calls| && verdict.Ok? && verdict.value.finalAnswer == thought.finalAnswer
      else if thought.action == None || thought.action == Some("") then
        && n == |r.calls|
        && verdict == Err(Ipc(if TrailingErrors(r.steps) == 0 then "action is empty but is_final is false"
                              else "replan returned no action and is_final=false"))
      else if n < |r.calls| then
        Some(r.calls[n].name) == thought.action && r.calls[n].input == thought.actionInput
      else
        n == |r.calls| && verdict.Err? && verdict.error.Loop?
  }

  /** Every reply that a run received has its effect and no other. A failed request, a final answer
      or a missing or empty action is the last reply and ends the run without another call; any other
      reply is followed by the call that it names, unless a loop is reported instead. */
  lemma {:induction false} EveryReplyHasItsEffect(c: Config, w: World, registry: Registry, goal: string, n: nat)
    requires n < |Execute(c, w, registry, goal).talk.asked|
    ensures var end := Execute(c, w, registry, goal);
      && |end.calls| == |end.steps| && |end.talk.asked| <= |end.calls| + 1
      && HasItsEffect(w, end, end.phase.verdict, n)
  {
    hide Complete;
    ModelChoosesEveryCall(c, w, registry, goal);
    var end := Execute(c, w, registry, goal);
    if n < |end.calls| {
      assert ChosenByModel(w, end.calls, end.steps, n);
    }
  }

  /** `r` is a point of the run that `Execute` completes. */
  ghost predicate IsPoint(c: Config, w: World, registry: Registry, goal: string, r: Run) {
    InRange(c, r) && Complete(c, w, r) == Execute(c, w, registry, goal)
  }

  /** The opener is the action of the reply to the first request after the last successful step. */
  predicate OpenedByFirstChoice(w: World, r: Run)
    requires r.phase.Dispatching?
  {
    var first := |r.steps| - r.stepReplans;
    && 0 <= first
    && (first > 0 ==> r.steps[first - 1].success)
    && (forall k | first <= k < |r.steps| :: !r.steps[k].success)
    && w.reason(first).Ok? && w.reason(first).value.action == Some(r.phase.opener)
  }

  lemma TellingNamesOpener(c: Config, w: World, r: Run)
    requires Telling(c, w, r) && r.phase.Dispatching?
    ensures OpenedByFirstChoice(w, r)
  {
    hide Transcript, Raw, Remembers, TrailingErrors;
    TrailingErrorsAreLast(r.steps);
    var first := |r.steps| - r.stepReplans;
    if first < |r.steps| {
      assert ChosenByModel(w, r.calls, r.steps, first);
    }
  }

  /** Wherever a run is about to dispatch a call, the action that its observation will be labelled
      with is the one the model chose first in this iteration, however often it replanned since. */
  lemma {:induction false} OpenerIsFirstChoice(c: Config, w: World, registry: Registry, goal: string, n: nat)
    requires RunAfter(c, w, registry, goal, n).phase.Dispatching?
    ensures IsPoint(c, w, registry, goal, RunAfter(c, w, registry, goal, n))
    ensures OpenedByFirstChoice(w, RunAfter(c, w, registry, goal, n))
  {
    hide RunAfter, Complete, Telling, OpenedByFirstChoice, Execute;
    PointsLeadToEnd(c, w, registry, goal, n);
    EveryPointTells(c, w, registry, goal, n);
    TellingNamesOpener(c, w, RunAfter(c, w, registry, goal, n));
  }
}
