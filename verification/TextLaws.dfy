/** What the texts that the executor composes tell the model. */
module TextLaws {
  import opened Prelude
  import opened ShortTermMemory
  import opened ToolRegistry
  import opened ExecutorModel
  import opened ExecutorLaws
  import opened MemoryLaws
  import opened TranscriptLaws

  lemma {:induction false} TailsAgree(head: string, a: string, b: string)
    requires head + a == head + b
    ensures a == b
  {
    assert a == (head + a)[|head|..];
    assert b == (head + b)[|head|..];
  }

  lemma {:induction false} HeadsAgree(a: string, b: string, tail: string)
    requires a + tail == b + tail
    ensures a == b
  {
    assert |a| == |b|;
    assert a == (a + tail)[..|a|];
    assert b == (b + tail)[..|b|];
  }

  // ---------------------------------------------------------------------------
  // Observations.

  function Label(action: string): string {
    "[Observation from " + action + "]:\n"
  }

  /** The text says which action it is about and holds the whole output, or, of an output of more
      than 4000 characters, the first 4000 and its length. */
  ghost predicate HoldsOutput(text: string, action: string, output: Json) {
    && Label(action) <= text
    && var shown := text[|Label(action)|..];
       if |output| <= 4000 then shown == output else IsCut(shown, output)
  }

  /** What is shown of an output of more than 4000 characters. */
  ghost predicate IsCut(shown: string, output: Json)
    requires |output| > 4000
  {
    && 4000 <= |shown| && shown[..4000] == output[..4000]
    && exists digits :: IsNumeral(digits) && Value(digits) == |output| && shown[4000..] == CutNote(digits)
  }

  function CutNote(digits: string): string {
    "... [truncated, " + digits + " chars total]"
  }

  lemma CutHolds(shown: string, output: Json)
    requires |output| > 4000 && shown == output[..4000] + CutNote(Decimal(|output|))
    ensures IsCut(shown, output)
  {
    hide CutNote, IsNumeral, Value, Decimal;
    DecimalReadsBack(|output|);
    assert shown[..4000] == output[..4000];
    assert shown[4000..] == CutNote(Decimal(|output|));
  }

  lemma Regroup(a: string, b: string, c: string, d: string)
    ensures a + b + c + d == a + (b + c + d)
  {
  }

  lemma ObservationIsLabelled(action: string, output: Json)
    ensures FormatObservation(action, output)
         == Label(action) + if |output| > 4000 then output[..4000] + CutNote(Decimal(|output|)) else output
  {
    hide Decimal;
    if |output| > 4000 {
      Regroup(output[..4000], "... [truncated, ", Decimal(|output|), " chars total]");
    }
  }

  lemma AfterHead(head: string, tail: string)
    ensures head <= head + tail && (head + tail)[|head|..] == tail
  {
  }

  lemma {:induction false} ObservationHoldsOutput(action: string, output: Json)
    ensures HoldsOutput(FormatObservation(action, output), action, output)
    ensures |output| <= 4000 ==>
      var text := FormatObservation(action, output);
      |output| <= |text| && text[|text| - |output|..] == output
  {
    hide FormatObservation, Label, CutNote, Decimal, IsCut;
    ObservationIsLabelled(action, output);
    if |output| > 4000 {
      var shown := output[..4000] + CutNote(Decimal(|output|));
      CutHolds(shown, output);
      AfterHead(Label(action), shown);
    } else {
      AfterHead(Label(action), output);
    }
  }

  lemma CutsAgree(shown: string, a: Json, b: Json)
    requires |a| > 4000 && |b| > 4000 && IsCut(shown, a) && IsCut(shown, b)
    ensures |a| == |b| && a[..4000] == b[..4000]
  {
    hide IsNumeral, Value;
    var d :| IsNumeral(d) && Value(d) == |a| && shown[4000..] == CutNote(d);
    var e :| IsNumeral(e) && Value(e) == |b| && shown[4000..] == CutNote(e);
    HeadsAgree("... [truncated, " + d, "... [truncated, " + e, " chars total]");
    TailsAgree("... [truncated, ", d, e);
  }

  /** Two outputs of the same action read the same only if they are the same, or if both are too long
      to be shown, equally long, and begin alike. */
  lemma {:induction false} ObservationsDiffer(action: string, a: Json, b: Json)
    ensures FormatObservation(action, a) == FormatObservation(action, b) <==>
      a == b || (|a| == |b| > 4000 && a[..4000] == b[..4000])
  {
    hide FormatObservation, Label, IsCut;
    if FormatObservation(action, a) == FormatObservation(action, b) {
      ObservationHoldsOutput(action, a);
      ObservationHoldsOutput(action, b);
      var shown := FormatObservation(action, a)[|Label(action)|..];
      if |a| > 4000 && |b| > 4000 {
        CutsAgree(shown, a, b);
      } else if |a| > 4000 {
        CutIsLong(shown, a);
      } else if |b| > 4000 {
        CutIsLong(shown, b);
      }
    }
    ObservationIsLabelled(action, a);
    ObservationIsLabelled(action, b);
  }

  lemma CutIsLong(shown: string, output: Json)
    requires |output| > 4000 && IsCut(shown, output)
    ensures |shown| > 4000
  {
    var d :| shown[4000..] == CutNote(d);
    assert |CutNote(d)| > 0;
  }

  // ---------------------------------------------------------------------------
  // Errors.

  /** The text names the action that failed and gives its error in full. */
  predicate HoldsError(text: string, action: string, error: string) {
    "Tool '" + action + "' failed with error: " + error <= text
  }

  lemma {:induction false} ErrorContextHoldsError(action: string, error: string)
    ensures HoldsError(ErrorContext(action, error), action, error)
  {
  }

  /** Two errors of the same action never read the same. */
  lemma {:induction false} ErrorContextsDiffer(action: string, a: string, b: string)
    requires ErrorContext(action, a) == ErrorContext(action, b)
    ensures a == b
  {
    var head, tail := "Tool '" + action + "' failed with error: ", ". Please try an alternative approach.";
    assert ErrorContext(action, a) == head + a + tail;
    assert ErrorContext(action, b) == head + b + tail;
    HeadsAgree(head + a, head + b, tail);
    TailsAgree(head, a, b);
  }

  /** The message of every tool error tells its kind, and what it carries. */
  predicate Describes(text: string, error: ToolError) {
    match error
    case InvalidInput(m) => text == "Invalid input: " + m
    case ExecutionFailed(m) => text == "Execution failed: " + m
    case Timeout(ms) =>
      && |text| > 16 && text[..14] == "Timeout after " && text[|text| - 2..] == "ms"
      && IsNumeral(text[14..|text| - 2]) && Value(text[14..|text| - 2]) == ms
    case JsonError(m) => text == "JSON error: " + m
    case NotFound(n) => text == "Tool '" + n + "' not found in registry"
    case CircuitOpen(n) =>
      text == "Circuit breaker is open for tool '" + n + "' - tool temporarily unavailable"
  }

  lemma {:induction false} ErrorsDescribeThemselves(error: ToolError)
    ensures Describes(error.ToString(), error)
  {
    if error.Timeout? {
      DecimalReadsBack(error.timeoutMs);
      var digits := Decimal(error.timeoutMs);
      assert error.ToString() == "Timeout after " + digits + "ms";
      assert error.ToString()[14..|error.ToString()| - 2] == digits;
    }
  }

  /** Tells the kind of an error from the first two characters of its message. */
  function KindOf(first: char, second: char): nat {
    match first
    case 'I' => 0
    case 'E' => 1
    case 'T' => if second == 'i' then 2 else 4
    case 'J' => 3
    case _ => 5
  }

  function Kind(error: ToolError): nat {
    match error
    case InvalidInput(_) => 0
    case ExecutionFailed(_) => 1
    case Timeout(_) => 2
    case JsonError(_) => 3
    case NotFound(_) => 4
    case CircuitOpen(_) => 5
  }

  lemma TextTellsKind(error: ToolError)
    ensures |error.ToString()| >= 2
    ensures KindOf(error.ToString()[0], error.ToString()[1]) == Kind(error)
  {
    hide Decimal;
  }

  lemma KindsDiffer(a: ToolError, b: ToolError)
    requires a.ToString() == b.ToString()
    ensures Kind(a) == Kind(b)
  {
    hide KindOf, Kind;
    TextTellsKind(a);
    TextTellsKind(b);
  }

  /** No two tool errors read the same, so the model can tell them apart. */
  lemma {:induction false} ErrorsDiffer(a: ToolError, b: ToolError)
    requires a.ToString() == b.ToString()
    ensures a == b
  {
    KindsDiffer(a, b);
    match a
    case InvalidInput(m) => TailsAgree("Invalid input: ", m, b.message);
    case ExecutionFailed(m) => TailsAgree("Execution failed: ", m, b.message);
    case Timeout(ms) =>
      HeadsAgree("Timeout after " + Decimal(ms), "Timeout after " + Decimal(b.timeoutMs), "ms");
      TailsAgree("Timeout after ", Decimal(ms), Decimal(b.timeoutMs));
      DecimalsDiffer(ms, b.timeoutMs);
    case JsonError(m) => TailsAgree("JSON error: ", m, b.message);
    case NotFound(n) =>
      HeadsAgree("Tool '" + n, "Tool '" + b.name, "' not found in registry");
      TailsAgree("Tool '", n, b.name);
    case CircuitOpen(n) =>
      var head, tail := "Circuit breaker is open for tool '", "' - tool temporarily unavailable";
      HeadsAgree(head + n, head + b.name, tail);
      TailsAgree(head, n, b.name);
  }

  // ---------------------------------------------------------------------------
  // What the model is told after each step of a run.

  lemma {:induction false} NewestIsKept(history: seq<Message>, m: Message, budget: nat)
    ensures var kept := LongestFitting(history + [m], budget);
      kept != [] && kept[|kept| - 1] == m
    decreases |history|
  {
    if history != [] {
      NewestIsKept(history[1..], m, budget);
      assert (history + [m])[1..] == history[1..] + [m];
    }
  }

  lemma LastPushIsNewest(log: seq<MemoryEvent>, m: Message, budget: nat)
    ensures var kept := LongestFitting(SinceSummary(log + [Pushed(m)]), budget);
      kept != [] && kept[|kept| - 1] == m
  {
    assert (log + [Pushed(m)])[..|log|] == log;
    NewestIsKept(SinceSummary(log), m, budget);
  }

  /** The message tells what came of this step: the tool's output under the label of the iteration's
      first action, or the action that failed and its error. */
  ghost predicate TellsStep(m: Message, opener: string, step: TaskStep, call: Call) {
    && m.role == User
    && match step.error
       case None => call.exchange.reply.Ok? && HoldsOutput(m.content, opener, call.exchange.reply.value)
       case Some(error) => HoldsError(m.content, step.action, error)
  }

  lemma ToldTellsStep(w: World, steps: seq<TaskStep>, calls: seq<Call>)
    requires |steps| == |calls| > 0 && ChosenByModel(w, calls, steps, |steps| - 1)
    ensures var n := |steps| - 1;
      ToldOf(steps, calls).Pushed?
      && TellsStep(ToldOf(steps, calls).message, OpenerOf(steps[..n], steps[n].action), steps[n], calls[n])
  {
    hide FormatObservation, HoldsOutput, ErrorContext, HoldsError, OpenerOf;
    var n := |steps| - 1;
    var opener := OpenerOf(steps[..n], steps[n].action);
    match steps[n].error
    case None => ObservationHoldsOutput(opener, calls[n].exchange.reply.value);
    case Some(error) => ErrorContextHoldsError(steps[n].action, error);
  }

  /** At the head of every iteration but the first the newest message in memory holds the output of
      the tool call that has just succeeded, before anything is summarised. */
  lemma {:induction false} MemoryHoldsOutput(c: Config, w: World, registry: Registry, goal: string, n: nat)
    requires RunAfter(c, w, registry, goal, n).phase.Deciding? && RunAfter(c, w, registry, goal, n).steps != []
    ensures var r := RunAfter(c, w, registry, goal, n);
      && |r.steps| == |r.calls| && r.talk.messages != []
      && var last := |r.steps| - 1;
         && r.steps[last].success
         && TellsStep(r.talk.messages[|r.talk.messages| - 1], OpenerOf(r.steps[..last], r.steps[last].action),
                      r.steps[last], r.calls[last])
  {
    hide RunAfter, Transcript, TellsStep, OpenerOf, ToldOf, LongestFitting, SinceSummary;
    EveryPointTells(c, w, registry, goal, n);
    var r := RunAfter(c, w, registry, goal, n);
    var last := |r.steps| - 1;
    assert ChosenByModel(w, r.calls, r.steps, last);
    ToldTellsStep(w, r.steps, r.calls);
    LastPushIsNewest(Transcript(c, w, r.goal, r.steps[..last], r.calls[..last]) + Heard(w, last),
                     ToldOf(r.steps, r.calls).message, c.stmTokenBudget);
    TrailingErrorsAreLast(r.steps);
  }

  /** Every request made right after a failed step ends with the message that names the failed action
      and gives its error; every request made after a successful one ends with its output, unless the
      memory has been summarised in between, and then it consists of the summary alone. */
  lemma {:induction false} RequestTellsLastStep(c: Config, w: World, registry: Registry, goal: string, i: nat)
    requires 0 < i < |Execute(c, w, registry, goal).talk.asked|
    ensures var end := Execute(c, w, registry, goal);
      && i <= |end.steps| == |end.calls|
      && var request, step, call := end.talk.asked[i], end.steps[i - 1], end.calls[i - 1];
         && request != []
         && (|| TellsStep(request[|request| - 1], OpenerOf(end.steps[..i - 1], step.action), step, call)
             || (step.success && |request| == 1 && request[0].role == System))
  {
    hide Complete, Raw, TellsStep, OpenerOf, ToldOf, LongestFitting, SinceSummary, Execute;
    RequestsFollowTranscript(c, w, registry, goal, i);
    ModelChoosesEveryCall(c, w, registry, goal);
    var end := Execute(c, w, registry, goal);
    var steps, calls := end.steps[..i], end.calls[..i];
    assert ChosenByModel(w, end.calls, end.steps, i - 1);
    assert ChosenByModel(w, calls, steps, i - 1);
    ToldTellsStep(w, steps, calls);
    assert steps[..i - 1] == end.steps[..i - 1];
    RawEndsWithTold(c, w, goal, steps, calls);
    if Transcript(c, w, goal, steps, calls) != Raw(c, w, goal, steps, calls) {
      CondensedIsSummary(c, w, Raw(c, w, goal, steps, calls));
      assert TrailingErrors(steps) == 0;
    }
  }

  lemma RawEndsWithTold(c: Config, w: World, goal: string, steps: seq<TaskStep>, calls: seq<Call>)
    requires |steps| == |calls| > 0 && ToldOf(steps, calls).Pushed?
    ensures var kept := LongestFitting(SinceSummary(Raw(c, w, goal, steps, calls)), c.stmTokenBudget);
      kept != [] && kept[|kept| - 1] == ToldOf(steps, calls).message
  {
    hide Transcript, ToldOf, LongestFitting, SinceSummary, Heard;
    var n := |steps| - 1;
    LastPushIsNewest(Transcript(c, w, goal, steps[..n], calls[..n]) + Heard(w, n), ToldOf(steps, calls).message,
                     c.stmTokenBudget);
  }

  lemma CondensedIsSummary(c: Config, w: World, log: seq<MemoryEvent>)
    requires Condensed(c, w, log) != log
    ensures var kept := LongestFitting(SinceSummary(Condensed(c, w, log)), c.stmTokenBudget);
      |kept| == 1 && kept[0].role == System
  {
  }
}
