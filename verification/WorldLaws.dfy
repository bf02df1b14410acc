/** A run depends only on the replies that it asked for. */
module WorldLaws {
  import opened Prelude
  import opened ToolRegistry
  import opened ExecutorModel

  /** Both worlds give the same replies to everything that was asked up to this point. */
  ghost predicate AgreeUpTo(w: World, v: World, r: Run) {
    && (forall n: nat | n < |r.talk.asked| :: w.reason(n) == v.reason(n))
    && (forall n: nat | n < |r.talk.digested| :: w.summarize(n) == v.summarize(n))
    && (forall n: nat | n < |r.calls| :: w.dispatch(n) == v.dispatch(n) && w.others(n) == v.others(n))
  }

  /** At the second point at least as much has been asked as at the first. */
  predicate AsksMore(r: Run, later: Run) {
    && |r.talk.asked| <= |later.talk.asked|
    && |r.talk.digested| <= |later.talk.digested|
    && |r.calls| <= |later.calls|
  }

  lemma AgreedBefore(w: World, v: World, r: Run, later: Run)
    requires AgreeUpTo(w, v, later) && AsksMore(r, later)
    ensures AgreeUpTo(w, v, r)
  {
  }

  // ---------------------------------------------------------------------------
  // Nothing that was asked is forgotten.

  lemma PushAsksNothing(c: Config, talk: Conversation, role: ShortTermMemory.Role, text: string)
    ensures var next := Push(c, talk, role, text);
      next.asked == talk.asked && next.digested == talk.digested
  {
  }

  lemma ConsultAsks(c: Config, w: World, r: Run, replan: Option<string>)
    ensures var next := Consult(c, w, r, replan);
      && |next.talk.asked| == |r.talk.asked| + 1
      && next.talk.digested == r.talk.digested && next.calls == r.calls
  {
  }

  lemma DecideAsks(c: Config, w: World, r: Run)
    ensures AsksMore(r, Decide(c, w, r))
  {
    hide Consult;
    ConsultAsks(c, w, r.(talk := Compress(c, w, r.talk).0, stepReplans := 0), None);
  }

  lemma ErrorAsks(c: Config, w: World, r: Run, error: string)
    requires r.phase.Dispatching?
    ensures AsksMore(r, AfterError(c, w, r, error))
  {
    hide Consult, Push;
    PushAsksNothing(c, r.talk, ShortTermMemory.User, ErrorContext(r.phase.action, error));
    ConsultAsks(c, w, Told(c, Charged(r, error), error), Some(r.phase.opener));
  }

  lemma NextAsks(c: Config, w: World, r: Run)
    requires !r.phase.Finished?
    ensures AsksMore(r, Next(c, w, r))
    ensures r.phase.Dispatching? && !LoopDetector.Loops(r.window, c.repeatThreshold) ==>
      |Next(c, w, r).calls| == |r.calls| + 1
  {
    hide Decide, AfterError, Push, AfterCall, ReplyTo;
    match r.phase
    case Deciding => DecideAsks(c, w, r);
    case Dispatching(_, _, _) =>
      NextCalls(c, w, r);
      var reply := PendingReply(c, w, r);
      if reply.Err? {
        ErrorAsks(c, w, Called(c, w, r), reply.error.ToString());
      }
    case Observed(opener, output) =>
      PushAsksNothing(c, r.talk, ShortTermMemory.User, FormatObservation(opener, output));
    case Answered(thought, _) => PushAsksNothing(c, r.talk, ShortTermMemory.Assistant, thought);
  }

  lemma {:induction false} CompleteAsks(c: Config, w: World, r: Run)
    requires InRange(c, r)
    ensures AsksMore(r, Complete(c, w, r))
    decreases c.maxIterations - r.iteration, Rank(c, r)
  {
    hide Next;
    if !r.phase.Finished? {
      NextDescends(c, w, r);
      NextAsks(c, w, r);
      CompleteAsks(c, w, Next(c, w, r));
    }
  }

  // ---------------------------------------------------------------------------
  // Worlds that agree on what was asked give the same run.

  lemma ConsultAgrees(c: Config, w: World, v: World, r: Run, replan: Option<string>)
    requires AgreeUpTo(w, v, Consult(c, w, r, replan))
    ensures Consult(c, v, r, replan) == Consult(c, w, r, replan)
  {
    ConsultAsks(c, w, r, replan);
    assert w.reason(|r.talk.asked|) == v.reason(|r.talk.asked|);
  }

  lemma DecideAgrees(c: Config, w: World, v: World, r: Run)
    requires AgreeUpTo(w, v, Decide(c, w, r))
    ensures Decide(c, v, r) == Decide(c, w, r)
  {
    hide Consult;
    if r.iteration < c.maxIterations {
      var (talk, error) := Compress(c, w, r.talk);
      var ready := r.(talk := talk, stepReplans := 0);
      ConsultAsks(c, w, ready, None);
      if c.nearBudget(ShortTermMemory.Tokens(r.talk.messages), c.stmTokenBudget) {
        assert w.summarize(|r.talk.digested|) == v.summarize(|r.talk.digested|);
      }
      if error.None? {
        ConsultAgrees(c, w, v, ready, None);
      }
    }
  }

  lemma ErrorAgrees(c: Config, w: World, v: World, r: Run, error: string)
    requires r.phase.Dispatching? && AgreeUpTo(w, v, AfterError(c, w, r, error))
    ensures AfterError(c, v, r, error) == AfterError(c, w, r, error)
  {
    hide Consult, Push;
    var failed := Charged(r, error);
    if failed.stepReplans < c.maxReplansPerStep && failed.totalReplans < c.maxReplansPerTask {
      ConsultAgrees(c, w, v, Told(c, failed, error), Some(r.phase.opener));
    }
  }

  lemma NextAgrees(c: Config, w: World, v: World, r: Run)
    requires !r.phase.Finished? && AgreeUpTo(w, v, Next(c, w, r))
    ensures Next(c, v, r) == Next(c, w, r)
  {
    hide Decide, AfterError, Push, AfterCall, ReplyTo, LoopDetector.Loops;
    NextAsks(c, w, r);
    match r.phase
    case Deciding => DecideAgrees(c, w, v, r);
    case Dispatching(_, _, _) =>
      if !LoopDetector.Loops(r.window, c.repeatThreshold) {
        assert w.dispatch(|r.calls|) == v.dispatch(|r.calls|) && w.others(|r.calls|) == v.others(|r.calls|);
        var reply := PendingReply(c, w, r);
        if reply.Err? {
          ErrorAgrees(c, w, v, Called(c, w, r), reply.error.ToString());
        }
      }
    case Observed(_, _) =>
    case Answered(_, _) =>
  }

  lemma {:induction false} CompleteAgrees(c: Config, w: World, v: World, r: Run)
    requires InRange(c, r) && AgreeUpTo(w, v, Complete(c, w, r))
    ensures Complete(c, v, r) == Complete(c, w, r)
    decreases c.maxIterations - r.iteration, Rank(c, r)
  {
    hide Next, AgreeUpTo;
    if !r.phase.Finished? {
      NextDescends(c, w, r);
      CompleteAsks(c, w, Next(c, w, r));
      AgreedBefore(w, v, Next(c, w, r), Complete(c, w, r));
      NextAgrees(c, w, v, r);
      CompleteAgrees(c, w, v, Next(c, w, r));
    }
  }

  /** Two worlds that agree on the requests, summaries and calls that a run made give the same run:
      what a world would have replied to anything else is without effect. So the laws about all
      worlds are about everything that a model, tools and other tasks can do in reaction to a run. */
  lemma {:induction false} RunsDependOnRepliesAsked(c: Config, w: World, v: World, registry: Registry, goal: string)
    requires AgreeUpTo(w, v, Execute(c, w, registry, goal))
    ensures Execute(c, v, registry, goal) == Execute(c, w, registry, goal)
  {
    hide Complete;
    StartIsOnTrack(c, w, registry, goal);
    CompleteAgrees(c, w, v, Start(c, registry, goal));
  }
}
