/** Which limit ends a run in which the model insists on one and the same tool call. */
module CompetingLimits {
  import opened Prelude
  import opened LoopDetector
  import opened CircuitBreaker
  import opened ToolRegistry
  import opened ExecutorModel
  import opened ExecutorLaws
  import opened LoopLaws
  import RegistryLaws
  import TranscriptLaws

  /** The model answered every request of this conversation with the same call, and every summary
      that was asked for was given. */
  ghost predicate Insists(w: World, talk: Conversation, action: string, input: Json) {
    && action != ""
    && (forall n: nat | n < |talk.digested| :: w.summarize(n).Ok?)
    && forall n: nat | n < |talk.asked| :: Asks(w.reason(n), action, input)
  }

  predicate Asks(reply: Result<Thought, string>, action: string, input: Json) {
    && reply.Ok? && !reply.value.isFinal
    && reply.value.action == Some(action) && reply.value.actionInput == input
  }

  predicate Repeats(calls: seq<Call>, action: string, input: Json) {
    forall call | call in calls :: call.name == action && call.input == input
  }

  /** Then all calls of the run are that call, and only a limit can end it. */
  lemma InsistingRepeats(c: Config, w: World, registry: Registry, goal: string, action: string, input: Json)
    requires Insists(w, Execute(c, w, registry, goal).talk, action, input)
    ensures var end := Execute(c, w, registry, goal);
      && |end.calls| == |end.steps|
      && Repeats(end.calls, action, input)
      && (forall i | 0 <= i < |end.steps| :: end.steps[i].action == action)
      && end.phase.verdict.Err? && !end.phase.verdict.error.Ipc?
  {
    hide Complete;
    TranscriptLaws.ModelChoosesEveryCall(c, w, registry, goal);
    RunsBalance(c, w, registry, goal);
    StepsAreSuccessesOrErrors(Execute(c, w, registry, goal).steps);
    var end := Execute(c, w, registry, goal);
    forall n: nat | n < |end.calls|
      ensures end.calls[n].name == end.steps[n].action == action && end.calls[n].input == input
    {
      assert TranscriptLaws.ChosenByModel(w, end.calls, end.steps, n);
      assert Asks(w.reason(n), action, input);
    }
    assert |end.talk.asked| > |end.steps| ==> Asks(w.reason(|end.steps|), action, input);
  }

  // ---------------------------------------------------------------------------
  // Windows filled by one hash.

  predicate Uniform(window: seq<nat>, h: nat, length: nat) {
    |window| == length && forall i | 0 <= i < |window| :: window[i] == h
  }

  lemma {:induction false} UniformCounts(window: seq<nat>, h: nat, length: nat)
    requires Uniform(window, h, length)
    ensures multiset(window)[h] == length
  {
    if window != [] {
      UniformCounts(window[1..], h, length - 1);
      assert window == [window[0]] + window[1..];
    }
  }

  lemma UniformLoops(window: seq<nat>, h: nat, length: nat, threshold: nat)
    requires Uniform(window, h, length)
    ensures Loops(window, threshold) <==> length >= AtLeastOne(threshold)
    ensures forall report :: IsReport(window, threshold, report) ==> report == LoopReport(h, length)
  {
    UniformCounts(window, h, length);
    if length >= AtLeastOne(threshold) {
      assert window[0] == h;
    }
  }

  lemma UniformHashes(c: Config, calls: seq<Call>, action: string, input: Json, k: nat)
    requires Repeats(calls, action, input) && k <= |calls|
    ensures Uniform(LastN(Hashes(c, calls)[..k], c.Window()), c.hashCall(action, input), Min(k, c.Window()))
  {
    forall i | 0 <= i < |calls|
      ensures Hashes(c, calls)[i] == c.hashCall(action, input)
    {
      assert calls[i] in calls;
    }
  }

  /** Before every call of such a run fewer repetitions than the threshold were in sight. */
  lemma RepetitionsInSight(c: Config, w: World, registry: Registry, goal: string, action: string, input: Json)
    requires Repeats(Execute(c, w, registry, goal).calls, action, input)
    ensures var end := Execute(c, w, registry, goal);
      end.calls != [] ==> Min(|end.calls| - 1, c.Window()) < c.Threshold()
  {
    hide Complete, LoopBook, Loops, IsReport, Repeats, Hashes, LastN, Uniform;
    RunsKeepLoopBook(c, w, registry, goal);
    var end := Execute(c, w, registry, goal);
    if end.calls != [] {
      var k: nat := |end.calls| - 1;
      NoLoopSeenBefore(c, end, k);
      UniformHashes(c, end.calls, action, input, k);
      UniformLoops(LastN(Hashes(c, end.calls)[..k], c.Window()), c.hashCall(action, input),
                   Min(k, c.Window()), c.repeatThreshold);
    }
  }

  /** When it ends in a loop, exactly threshold-many are in sight. */
  lemma RepetitionsAtLoop(c: Config, w: World, registry: Registry, goal: string, action: string, input: Json,
                          report: LoopReport)
    requires Repeats(Execute(c, w, registry, goal).calls, action, input)
    requires Execute(c, w, registry, goal).phase == Finished(Err(Loop(report)))
    ensures report == LoopReport(c.hashCall(action, input), c.Threshold())
    ensures Min(|Execute(c, w, registry, goal).calls|, c.Window()) == c.Threshold()
  {
    hide Complete, Loops, IsReport, Uniform, Hashes, LastN;
    LoopReportIsExact(c, w, registry, goal, report);
    var calls := Execute(c, w, registry, goal).calls;
    assert calls[|calls| - 1] in calls;
    UniformHashes(c, calls, action, input, |calls|);
    UniformCounts(LastN(Hashes(c, calls)[..|calls|], c.Window()), report.hash, Min(|calls|, c.Window()));
    WholePrefix(c, calls);
  }

  lemma WholePrefix(c: Config, calls: seq<Call>)
    ensures Hashes(c, calls)[..|calls|] == Hashes(c, calls)
  {
  }

  // ---------------------------------------------------------------------------
  // Which limit fires.

  /** For any mixture of failed and successful calls, and whatever others do to the registry, the
      step log alone decides which of the four limits ended the run: a loop is reported exactly when
      no other limit was reached, it is reported after exactly threshold-many calls, and it cannot
      be reported later than that. */
  lemma {:induction false} RepeatedCallMeetsOneLimit(c: Config, w: World, registry: Registry, goal: string,
                                                     action: string, input: Json)
    requires Insists(w, Execute(c, w, registry, goal).talk, action, input)
    ensures var end := Execute(c, w, registry, goal);
      var s, t, l := c.StepLimit(), c.TaskLimit(), c.Threshold();
      var trailing, errors, successes := TrailingErrors(end.steps), Errors(end.steps), Successes(end.steps);
      && |end.calls| == |end.steps| == successes + errors
      && trailing <= s && errors <= t && successes <= c.maxIterations
      && (end.phase == Finished(Err(MaxReplansPerStep(s, action))) <==> trailing == s)
      && (end.phase == Finished(Err(MaxReplansPerTask(t))) <==> trailing < s && errors == t)
      && (end.phase == Finished(Err(MaxIterationsReached(c.maxIterations))) <==>
            trailing < s && errors < t && successes == c.maxIterations)
      && (end.phase == Finished(Err(Loop(LoopReport(c.hashCall(action, input), l)))) <==>
            trailing < s && errors < t && successes < c.maxIterations)
      && (trailing < s && errors < t && successes < c.maxIterations ==> |end.steps| == l <= c.Window())
      && (l <= c.Window() ==> |end.steps| <= l)
  {
    hide Complete, Insists;
    InsistingRepeats(c, w, registry, goal, action, input);
    RepetitionsInSight(c, w, registry, goal, action, input);
    RunsBalance(c, w, registry, goal);
    var end := Execute(c, w, registry, goal);
    StepsAreSuccessesOrErrors(end.steps);
    if end.phase.verdict.error.Loop? {
      RepetitionsAtLoop(c, w, registry, goal, action, input, end.phase.verdict.error.report);
    }
  }

  lemma {:induction false} OnlyErrors(steps: seq<TaskStep>)
    requires forall step | step in steps :: !step.success
    ensures Errors(steps) == TrailingErrors(steps) == |steps| && Successes(steps) == 0
  {
    if steps != [] {
      OnlyErrors(steps[..|steps| - 1]);
    }
  }

  lemma {:induction false} OnlySuccesses(steps: seq<TaskStep>)
    requires forall step | step in steps :: step.success
    ensures Errors(steps) == TrailingErrors(steps) == 0 && Successes(steps) == |steps|
  {
    if steps != [] {
      OnlySuccesses(steps[..|steps| - 1]);
    }
  }

  /** If every call of the run fails and at least one iteration is allowed, the smallest of the
      per-step limit, the per-task limit and the loop threshold decides, in that order when they are
      equal; the loop threshold takes part only if the window can hold that many calls. */
  lemma {:induction false} FailuresMeetSmallestLimit(c: Config, w: World, registry: Registry, goal: string,
                                                     action: string, input: Json)
    requires Insists(w, Execute(c, w, registry, goal).talk, action, input) && c.maxIterations >= 1
    requires forall step | step in Execute(c, w, registry, goal).steps :: !step.success
    ensures var end := Execute(c, w, registry, goal);
      var s, t := c.StepLimit(), c.TaskLimit();
      var l, canLoop := c.Threshold(), c.Threshold() <= c.Window();
      && (end.phase == Finished(Err(MaxReplansPerStep(s, action))) <==> s <= t && (s <= l || !canLoop))
      && (end.phase == Finished(Err(MaxReplansPerTask(t))) <==> t < s && (t <= l || !canLoop))
      && (end.phase == Finished(Err(Loop(LoopReport(c.hashCall(action, input), l)))) <==> l < s && l < t && canLoop)
      && |end.calls| == (if canLoop then Min(l, Min(s, t)) else Min(s, t))
  {
    hide Complete, Insists;
    RepeatedCallMeetsOneLimit(c, w, registry, goal, action, input);
    OnlyErrors(Execute(c, w, registry, goal).steps);
  }

  /** If every call of the run succeeds, it ends with a loop after exactly threshold-many calls when
      more iterations than that are allowed and the window can hold them, and otherwise uses up its
      iterations with one call in each. */
  lemma {:induction false} SuccessesMeetLoopOrExhaust(c: Config, w: World, registry: Registry, goal: string,
                                                      action: string, input: Json)
    requires Insists(w, Execute(c, w, registry, goal).talk, action, input)
    requires forall step | step in Execute(c, w, registry, goal).steps :: step.success
    ensures var end := Execute(c, w, registry, goal);
      var l := c.Threshold();
      if l < c.maxIterations && l <= c.Window()
      then end.phase == Finished(Err(Loop(LoopReport(c.hashCall(action, input), l)))) && |end.calls| == l
      else end.phase == Finished(Err(MaxIterationsReached(c.maxIterations))) && |end.calls| == c.maxIterations
  {
    hide Complete, Insists;
    RepeatedCallMeetsOneLimit(c, w, registry, goal, action, input);
    OnlySuccesses(Execute(c, w, registry, goal).steps);
  }

  // ---------------------------------------------------------------------------
  // When every call of such a run fails or succeeds.

  predicate Rejects(registry: Registry, action: string, input: Json) {
    action !in registry.tools || registry.tools[action].check(input).Some?
  }

  /** An unknown tool, an invalid input or a tool that answers no call of the run makes every call
      fail, whatever state others leave the breakers in. */
  lemma {:induction false} BrokenToolNeverSucceeds(c: Config, w: World, registry: Registry, goal: string,
                                                   action: string, input: Json)
    requires Insists(w, Execute(c, w, registry, goal).talk, action, input)
    requires Rejects(registry, action, input)
      || forall call | call in Execute(c, w, registry, goal).calls :: call.exchange.reply.Err?
    ensures forall step | step in Execute(c, w, registry, goal).steps :: !step.success
  {
    hide Complete, Insists;
    InsistingRepeats(c, w, registry, goal, action, input);
    RegistryLaws.RunsKeepBooks(c, w, registry, goal);
    var end := Execute(c, w, registry, goal);
    forall i: nat | i < |end.steps|
      ensures !end.steps[i].success
    {
      assert RegistryLaws.OwnEntry(c, w, registry, end, i);
      assert end.calls[i] in end.calls;
    }
  }

  /** The tool is registered, accepts the input and answers every call of the run, and its breaker
      admits the first of them. */
  predicate Healthy(cfg: BreakerConfig, registry: Registry, calls: seq<Call>, action: string, input: Json) {
    && action in registry.breakers && !Rejects(registry, action, input)
    && (forall call | call in calls :: call.exchange.reply.Ok?)
    && (calls != [] ==> Admits(cfg, registry.breakers[action], calls[0].exchange.admitAt))
  }

  lemma {:induction false} HealthyStaysClosed(cfg: BreakerConfig, registry: Registry, calls: seq<Call>,
                                              action: string, input: Json, n: nat)
    requires Repeats(calls, action, input) && Healthy(cfg, registry, calls, action, input) && n <= |calls|
    ensures var now := AfterCalls(cfg, registry, calls[..n]);
      && now.tools == registry.tools && action in now.breakers
      && (n > 0 ==> now.breakers[action].state.Closed?)
      && (n < |calls| ==> ReplyTo(cfg, now, calls[n]).Ok?)
  {
    if n > 0 {
      HealthyStaysClosed(cfg, registry, calls, action, input, n - 1);
      assert calls[..n][..n - 1] == calls[..n - 1];
      assert calls[n - 1] in calls;
    }
    if n < |calls| {
      assert calls[n] in calls;
    }
  }

  /** On a registry that nobody else uses meanwhile, every call of the run succeeds exactly when the
      tool is healthy in this sense: one admitted call is enough to keep its breaker closed. */
  lemma {:induction false} HealthyToolAlwaysSucceeds(c: Config, w: World, registry: Registry, goal: string,
                                                     action: string, input: Json)
    requires Insists(w, Execute(c, w, registry, goal).talk, action, input) && w.Undisturbed() && c.maxIterations >= 1
    ensures var end := Execute(c, w, registry, goal);
      (forall step | step in end.steps :: step.success) <==> Healthy(c.breaker, registry, end.calls, action, input)
  {
    hide Complete, Insists, AfterCalls, RegistryLaws.StepFor;
    InsistingRepeats(c, w, registry, goal, action, input);
    RepeatedCallMeetsOneLimit(c, w, registry, goal, action, input);
    RegistryLaws.RunsAloneKeepBooks(c, w, registry, goal);
    var end := Execute(c, w, registry, goal);
    forall i: nat | i < |end.steps|
      ensures end.steps[i].success <==> RegistryLaws.ReplyAt(c.breaker, registry, end.calls, i).Ok?
    {
      StepTellsReply(c, w, registry, end, i);
    }
    if Healthy(c.breaker, registry, end.calls, action, input) {
      forall i: nat | i < |end.steps|
        ensures end.steps[i].success
      {
        HealthyStaysClosed(c.breaker, registry, end.calls, action, input, i);
      }
    }
    if forall step | step in end.steps :: step.success {
      SuccessMeansHealthy(c.breaker, registry, end.calls, action, input, end.steps);
    }
  }

  lemma StepTellsReply(c: Config, w: World, registry: Registry, r: Run, i: nat)
    requires RegistryLaws.SameBooks(c, w, registry, r) && i < |r.steps|
    ensures r.steps[i].success <==> RegistryLaws.ReplyAt(c.breaker, registry, r.calls, i).Ok?
  {
    assert RegistryLaws.EntryMatches(c, w, registry, r.calls, r.steps, i);
  }

  lemma SuccessMeansHealthy(cfg: BreakerConfig, registry: Registry, calls: seq<Call>,
                            action: string, input: Json, steps: seq<TaskStep>)
    requires Repeats(calls, action, input) && calls != [] && |steps| == |calls|
    requires forall i: nat | i < |calls| :: RegistryLaws.ReplyAt(cfg, registry, calls, i).Ok?
    ensures Healthy(cfg, registry, calls, action, input)
  {
    assert RegistryLaws.ReplyAt(cfg, registry, calls, 0).Ok?;
    assert calls[..0] == [] && calls[0] in calls;
    forall call | call in calls
      ensures call.exchange.reply.Ok?
    {
      var i :| 0 <= i < |calls| && calls[i] == call;
      assert RegistryLaws.ReplyAt(cfg, registry, calls, i).Ok?;
    }
  }
}
