/** What the model gets to see: the content of every reasoning request of every run. */
module MemoryLaws {
  import opened Prelude
  import opened ShortTermMemory
  import opened ToolRegistry
  import opened ExecutorModel

  /** Everything that entered the memory since the last summary, which counts as the first element. */
  function SinceSummary(log: seq<MemoryEvent>): seq<Message> {
    if log == [] then []
    else match log[|log| - 1]
      case Pushed(m) => SinceSummary(log[..|log| - 1]) + [m]
      case Summarised(m) => [m]
  }

  /** Request `i` is what an offline selection over the whole history before it would choose. */
  ghost predicate RequestIsBest(budget: nat, talk: Conversation, i: nat)
    requires i < |talk.asked| == |talk.askedAt|
  {
    && talk.askedAt[i] <= |talk.log|
    && var history := SinceSummary(talk.log[..talk.askedAt[i]]);
       history != [] && talk.asked[i] == LongestFitting(history, budget)
  }

  /** Likewise for the list handed over for summary `i`, which was near the budget. */
  ghost predicate DigestIsBest(c: Config, talk: Conversation, i: nat)
    requires i < |talk.digested| == |talk.digestedAt|
  {
    && talk.digestedAt[i] <= |talk.log|
    && var history := SinceSummary(talk.log[..talk.digestedAt[i]]);
       && history != [] && talk.digested[i] == LongestFitting(history, c.stmTokenBudget)
       && c.nearBudget(Tokens(talk.digested[i]), c.stmTokenBudget)
  }

  ghost predicate DigestBook(c: Config, talk: Conversation) {
    && |talk.digested| == |talk.digestedAt|
    && forall i: nat | i < |talk.digested| :: DigestIsBest(c, talk, i)
  }

  lemma OldDigestsStay(c: Config, talk: Conversation, later: Conversation)
    requires DigestBook(c, talk) && talk.log <= later.log
    requires later.digested == talk.digested && later.digestedAt == talk.digestedAt
    ensures DigestBook(c, later)
  {
    forall i: nat | i < |later.digested|
      ensures DigestIsBest(c, later, i)
    {
      assert DigestIsBest(c, talk, i);
      assert later.log[..talk.digestedAt[i]] == talk.log[..talk.digestedAt[i]];
    }
  }

  ghost predicate MemoryBook(budget: nat, talk: Conversation) {
    && talk.messages == LongestFitting(SinceSummary(talk.log), budget)
    && |talk.asked| == |talk.askedAt|
    && (forall i: nat | i < |talk.asked| :: RequestIsBest(budget, talk, i))
    && (forall i, j | 0 <= i < j < |talk.askedAt| :: talk.askedAt[i] <= talk.askedAt[j])
    && (forall i | 0 <= i < |talk.askedAt| :: talk.askedAt[i] <= |talk.log|)
  }

  lemma OldRequestsStay(budget: nat, talk: Conversation, later: Conversation)
    requires MemoryBook(budget, talk)
    requires later.asked == talk.asked && later.askedAt == talk.askedAt
    requires talk.log <= later.log
    requires later.messages == LongestFitting(SinceSummary(later.log), budget)
    ensures MemoryBook(budget, later)
  {
    forall i: nat | i < |later.asked|
      ensures RequestIsBest(budget, later, i)
    {
      assert RequestIsBest(budget, talk, i);
      assert later.log[..talk.askedAt[i]] == talk.log[..talk.askedAt[i]];
    }
  }

  lemma PushKeepsMemory(c: Config, talk: Conversation, role: Role, text: string)
    requires MemoryBook(c.stmTokenBudget, talk)
    ensures MemoryBook(c.stmTokenBudget, Push(c, talk, role, text))
    ensures SinceSummary(Push(c, talk, role, text).log) != []
  {
    var m := Message(role, text, EstimateTokens(text));
    var later := Push(c, talk, role, text);
    assert later.log[..|talk.log|] == talk.log;
    AdmitKeepsLongestFitting(SinceSummary(talk.log), m, c.stmTokenBudget);
    OldRequestsStay(c.stmTokenBudget, talk, later);
  }

  lemma SendKeepsMemory(budget: nat, talk: Conversation)
    requires MemoryBook(budget, talk) && SinceSummary(talk.log) != []
    ensures MemoryBook(budget, Send(talk))
  {
    var later := Send(talk);
    forall i: nat | i < |later.asked|
      ensures RequestIsBest(budget, later, i)
    {
      if i < |talk.asked| {
        assert RequestIsBest(budget, talk, i);
      } else {
        assert talk.log[..|talk.log|] == talk.log;
      }
    }
  }

  lemma CompressKeepsMemory(c: Config, w: World, talk: Conversation)
    requires MemoryBook(c.stmTokenBudget, talk) && SinceSummary(talk.log) != []
    ensures MemoryBook(c.stmTokenBudget, Compress(c, w, talk).0)
    ensures SinceSummary(Compress(c, w, talk).0.log) != []
  {
    OldRequestsStay(c.stmTokenBudget, talk, Compress(c, w, talk).0);
  }

  ghost predicate Remembers(c: Config, talk: Conversation) {
    MemoryBook(c.stmTokenBudget, talk) && SinceSummary(talk.log) != [] && DigestBook(c, talk)
  }

  /** The list handed over for a summary is the memory as it stands. */
  lemma HandingOverDigestsBest(c: Config, talk: Conversation, later: Conversation)
    requires Remembers(c, talk) && c.nearBudget(Tokens(talk.messages), c.stmTokenBudget)
    requires talk.log <= later.log
    requires later.digested == talk.digested + [talk.messages]
    requires later.digestedAt == talk.digestedAt + [|talk.log|]
    ensures DigestBook(c, later)
  {
    hide SinceSummary, LongestFitting;
    forall i: nat | i < |later.digested|
      ensures DigestIsBest(c, later, i)
    {
      if i < |talk.digested| {
        assert DigestIsBest(c, talk, i);
        assert later.log[..talk.digestedAt[i]] == talk.log[..talk.digestedAt[i]];
      } else {
        assert later.log[..|talk.log|] == talk.log;
      }
    }
  }

  lemma CompressRemembers(c: Config, w: World, talk: Conversation)
    requires Remembers(c, talk)
    ensures Remembers(c, Compress(c, w, talk).0)
  {
    hide DigestBook, MemoryBook, SinceSummary;
    CompressKeepsMemory(c, w, talk);
    if c.nearBudget(Tokens(talk.messages), c.stmTokenBudget) {
      HandingOverDigestsBest(c, talk, Compress(c, w, talk).0);
    }
  }

  lemma OpeningRemembers(c: Config, goal: string)
    ensures Remembers(c, Push(c, SILENCE, User, goal))
  {
    PushKeepsMemory(c, SILENCE, User, goal);
  }

  lemma PushRemembers(c: Config, talk: Conversation, role: Role, text: string)
    requires Remembers(c, talk)
    ensures Remembers(c, Push(c, talk, role, text))
  {
    hide DigestBook, MemoryBook, SinceSummary;
    PushKeepsMemory(c, talk, role, text);
    OldDigestsStay(c, talk, Push(c, talk, role, text));
  }

  lemma SendRemembers(c: Config, talk: Conversation)
    requires Remembers(c, talk)
    ensures Remembers(c, Send(talk))
  {
    hide DigestBook, MemoryBook, SinceSummary;
    SendKeepsMemory(c.stmTokenBudget, talk);
    OldDigestsStay(c, talk, Send(talk));
  }

  lemma ThoughtIsRemembered(c: Config, talk: Conversation, thought: string)
    requires Remembers(c, talk)
    ensures Remembers(c, PushThought(c, talk, thought))
  {
    if thought != "" {
      PushRemembers(c, talk, Assistant, thought);
    }
  }

  lemma ConsultRemembers(c: Config, w: World, r: Run, replan: Option<string>)
    requires Remembers(c, r.talk)
    ensures Remembers(c, Consult(c, w, r, replan).talk)
  {
    hide MemoryBook, SinceSummary, Push;
    SendRemembers(c, r.talk);
    var reply := w.reason(|r.talk.asked|);
    if reply.Ok? {
      ThoughtIsRemembered(c, Send(r.talk), reply.value.thought);
    }
  }

  lemma DecideRemembers(c: Config, w: World, r: Run)
    requires Remembers(c, r.talk)
    ensures Remembers(c, Decide(c, w, r).talk)
  {
    hide MemoryBook, SinceSummary, Consult;
    CompressRemembers(c, w, r.talk);
    ConsultRemembers(c, w, r.(talk := Compress(c, w, r.talk).0, stepReplans := 0), None);
  }

  lemma ErrorRemembers(c: Config, w: World, r: Run, error: string)
    requires Remembers(c, r.talk) && r.phase.Dispatching?
    ensures Remembers(c, AfterError(c, w, r, error).talk)
  {
    hide MemoryBook, SinceSummary, Consult, Push;
    PushRemembers(c, r.talk, User, ErrorContext(r.phase.action, error));
    ConsultRemembers(c, w, Told(c, Charged(r, error), error), Some(r.phase.opener));
  }

  lemma NextRemembers(c: Config, w: World, r: Run)
    requires Remembers(c, r.talk) && !r.phase.Finished?
    ensures Remembers(c, Next(c, w, r).talk)
  {
    hide MemoryBook, SinceSummary, Consult, Decide, AfterError, Push;
    match r.phase
    case Deciding => DecideRemembers(c, w, r);
    case Dispatching(_, _, _) =>
      var reply := PendingReply(c, w, r);
      if reply.Err? {
        ErrorRemembers(c, w, Called(c, w, r), reply.error.ToString());
      }
    case Observed(opener, output) => PushRemembers(c, r.talk, User, FormatObservation(opener, output));
    case Answered(thought, _) => ThoughtIsRemembered(c, r.talk, thought);
  }

  lemma {:induction false} CompleteRemembers(c: Config, w: World, r: Run)
    requires InRange(c, r) && Remembers(c, r.talk)
    ensures Remembers(c, Complete(c, w, r).talk)
    decreases c.maxIterations - r.iteration, Rank(c, r)
  {
    hide Next, Remembers;
    if !r.phase.Finished? {
      NextDescends(c, w, r);
      NextRemembers(c, w, r);
      CompleteRemembers(c, w, Next(c, w, r));
    }
  }

  lemma RunsRemember(c: Config, w: World, registry: Registry, goal: string)
    ensures Remembers(c, Execute(c, w, registry, goal).talk)
  {
    hide Complete;
    OpeningRemembers(c, goal);
    CompleteRemembers(c, w, Start(c, registry, goal));
  }

  /** Every message list sent for reasoning is, in order, the longest suffix that fits the budget
      of everything that entered the memory since the last summary, or the last message alone when
      that does not fit; it is never empty, and its tokens exceed the budget only if a single
      message does. */
  lemma {:induction false} EveryRequestIsLongestSuffix(c: Config, w: World, registry: Registry, goal: string,
                                                       i: nat, largest: nat)
    requires i < |Execute(c, w, registry, goal).talk.asked|
    ensures var talk := Execute(c, w, registry, goal).talk;
      && |talk.askedAt| == |talk.asked| && talk.askedAt[i] <= |talk.log|
      && var history := SinceSummary(talk.log[..talk.askedAt[i]]);
         && IsLongestFitting(history, c.stmTokenBudget, talk.asked[i])
         && talk.asked[i] != []
         && ((forall m | m in history :: m.tokenCount <= largest) ==>
               Tokens(talk.asked[i]) <= if c.stmTokenBudget <= largest then largest else c.stmTokenBudget)
  {
    hide Complete;
    RunsRemember(c, w, registry, goal);
    var talk := Execute(c, w, registry, goal).talk;
    assert RequestIsBest(c.stmTokenBudget, talk, i);
    var history := SinceSummary(talk.log[..talk.askedAt[i]]);
    LongestFittingIsLongest(history, c.stmTokenBudget);
    if forall m | m in history :: m.tokenCount <= largest {
      RetainedTokensAreBounded(history, c.stmTokenBudget, largest);
    }
  }

  /** Every message list handed over for a summary is, in order, the longest fitting suffix of
      everything that entered the memory since the last summary; it is never empty, and a summary
      is asked for only when that list is near the budget. */
  lemma {:induction false} EveryDigestIsLongestSuffix(c: Config, w: World, registry: Registry, goal: string, i: nat)
    requires i < |Execute(c, w, registry, goal).talk.digested|
    ensures var talk := Execute(c, w, registry, goal).talk;
      && |talk.digestedAt| == |talk.digested| && talk.digestedAt[i] <= |talk.log|
      && var history := SinceSummary(talk.log[..talk.digestedAt[i]]);
         && IsLongestFitting(history, c.stmTokenBudget, talk.digested[i])
         && talk.digested[i] != []
         && c.nearBudget(Tokens(talk.digested[i]), c.stmTokenBudget)
  {
    hide Complete;
    RunsRemember(c, w, registry, goal);
    var talk := Execute(c, w, registry, goal).talk;
    assert DigestIsBest(c, talk, i);
    LongestFittingIsLongest(SinceSummary(talk.log[..talk.digestedAt[i]]), c.stmTokenBudget);
  }

  /** Later requests see at least as much of the log. */
  lemma {:induction false} RequestsAreInOrder(c: Config, w: World, registry: Registry, goal: string, i: nat, j: nat)
    requires i <= j < |Execute(c, w, registry, goal).talk.askedAt|
    ensures var talk := Execute(c, w, registry, goal).talk;
      talk.askedAt[i] <= talk.askedAt[j] <= |talk.log|
  {
    hide Complete;
    RunsRemember(c, w, registry, goal);
  }
}
