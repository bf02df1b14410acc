# Control core of the agent runtime: model and proofs

The runtime executes a task in a ReAct loop: it asks a language model for the next action,
dispatches the named tool, feeds the observation back, and asks again, until the model gives a final
answer or a limit is hit. This project models that control core as one layered system and proves
what every run of it does, for every language model and every set of tools.

| file | models |
|---|---|
| `Prelude.dfy` | options, results and small sequence facts |
| `ShortTermMemory.dfy` | the token-budgeted message buffer (class) and its offline specification |
| `LoopDetector.dfy` | the sliding window of call hashes (class) |
| `CircuitBreaker.dfy` | the breaker used by one caller at a time (class), histories of gated uses, rate of executions |
| `BreakerThreads.dfy` | the same breaker as interleaved atomic loads and stores of any number of threads |
| `BreakerMoves.dfy` | what each atomic step touches, and what verdicts and stored times rest on under interference |
| `ToolRegistry.dfy` | tools paired with breakers (class), validation and dispatch, accounting over all breakers |
| `ExecutorModel.dfy` | the ReAct loop with replanning as a state machine over values |
| `PlanExecutor.dfy` | the executor itself (class): nested loops over mutable collaborators, proved to perform exactly the run of the state machine |
| `ExecutorLaws.dfy` | conservation, ceilings, shape of the step log, episodes |
| `LoopLaws.dfy` | what loop detection guarantees about the calls of a run |
| `MemoryLaws.dfy` | the content of every reasoning request of a run |
| `TranscriptLaws.dfy` | every request, call and answer of a run rebuilt from the goal, the model's replies and the step log |
| `TextLaws.dfy` | what the composed messages hold: outputs, errors, lengths |
| `WorldLaws.dfy` | a run depends only on the replies it asked for |
| `RegistryLaws.dfy` | the executor's step log against the breakers' records, rates over runs |
| `CompetingLimits.dfy` | which limit ends a run that repeats one call |
| `LimitLaws.dfy` | runs compared under raised limits; the ceilings are reached |
| `ParallelBranches.dfy` | parallel subtasks on one registry, joined in completion order |
| `SimilarGoals.dfy` | the keyword escape and the ILIKE pattern of the goal search |

## How to read the model

*The outside world is arbitrary.* The language model, the summariser, the tools and the clock are
functions from "how often was it asked before" to a reply, with nothing assumed about them
(`World`, `Exchange`). A run depends only on the replies that it asked for
(`RunsDependOnRepliesAsked`), so whatever a model and tools do in reaction to a run is some such
world, and a lemma about all worlds is a lemma about all runs. Tasks that
run at the same time share the registry; the machine therefore also lets other users leave its
breakers in any state before each dispatch (`World.others`). Since the state of a breaker matters to
a run only when the gate is asked, this covers every interleaving of the breakers' operations.
Lemmas that need the registry to themselves say so by `Undisturbed`.

*Two forms of the executor.* `PlanExecutor.PlanExecutor` has the form of the source: `Execute`,
`ExecuteInner`, `ExecuteToolWithReplan`, `MaybeSummarize` and `Record` correspond to the source's
methods of those names; the bodies of its two loops are split into the methods `RunIterations`,
`Iterate`, `BeginIteration`, `Act`, `EndIteration`, `GiveUp`, `AttemptTool`, `CallTool`, `TryTool`,
`HandleReply` and `AfterToolError` to keep proofs small. `ExecutorModel` is its specification: a
small-step machine (`Next`) whose complete run is `Execute`. The method's contract says that its
result, the requests it sends, the final registry and the episodes it writes are those of that
run, so every law about `ExecutorModel.Execute` is a law about the method.

*Limits.* Every limit is compared with a counter that has already been incremented, so a configured
limit of 0 behaves like 1, except `max_iterations`. In the statements `StepLimit`, `TaskLimit`,
`Threshold` and `Window` are these effective values, and the zero cases are covered. In the table
below I is `max_iterations`, S the effective per-step and R the effective per-task replan limit.

*Where code and comments differ, the code is modelled.*
- A half-open breaker admits every caller (`circuit_breaker.rs:128`), not one probe as line 55 says.
- A failure recorded while the breaker is open refreshes the time of the last failure
  (`circuit_breaker.rs:176`), although the comment at line 170 calls it a no-op.
- The time of the last failure is kept in milliseconds (`circuit_breaker.rs:172-176`), although the field is
  documented in seconds (line 99).
- An episode is written on success and on exhausted iterations only (`executor.rs:200`, `:258`, `:277`),
  although it is documented as written at the end of every task (`episodic_log.rs:8`).
- A result obtained after a replan is labelled with the action that opened the iteration, not with
  the action that produced it (`executor.rs:205-231`); a final answer given while replanning pushes
  its thought a second time (`executor.rs:411-418` and `:243-249`).
- The gate is asked and the input validated before the tool is looked up (`registry.rs:269-287`).

*Properties that the code meets only under a condition.*
- Recording a success keeps the breaker in agreement with the plain history of outcomes if and only
  if the circuit is not open: `SuccessAgreesUnlessOpen`. Behind the gate, one caller at a time
  never records a success on an open circuit, so there the agreement always holds:
  `GatedUsesFollowHistory`. With interleaved callers an open circuit may end up with no failures
  counted, for every threshold: `StaleSuccessErasesTrip`, whose callers all ask the gate first. State and count agree throughout a schedule
  if and only if no thread performs a store whose reason is gone (`OnlyStaleStoresDisagree`,
  `RunsDisagreeByStaleStores`), and callers can ensure that by recording successes only while no
  other thread is inside an operation (`LoneSuccessesAgree`).
- A half-open period admits a single probe if and only if nobody else asks before the first outcome
  is recorded: `HalfOpenAdmitsEveryone`, and for threads `HalfOpenAdmitsEveryThread`. One caller at a time always waits for the outcome, and then
  each period holds at most one real execution: `ProbesAreInDifferentPeriods`.
- A closed breaker may have a count at or above the threshold, but only while some thread is about
  to open it or to reset the count: `OverfullHappens`, `OverfullIsTransient`.
- The ceilings on requests and steps are reached unless the loop threshold is 1: `CeilingsAreReached`,
  `ThresholdOneAllowsOneCall`.
- The loop threshold is effective only if the window can hold that many calls: `ShortWindowNeverLoops`.

*Assumptions.* The interleaved breaker is sequentially consistent. The rate bounds assume a clock
that does not go backwards from one call to the next, and calls that are made one
after the other and run to completion; an execution is dated by the moment it was admitted.
Numbers are unbounded. JSON values are their serialised text, and texts are sequences of bytes.

## Model

| member | source | states |
|---|---|---|
| ShortTermMemory.LongestFittingIsLongest | runtime/src/memory/short_term.rs:111-117 | the offline selection is a suffix, never empty for a non-empty history, within budget unless it is a single message, and every longer suffix exceeds the budget |
| ShortTermMemory.LongestFittingIsUnique | runtime/src/memory/short_term.rs:111-117 | these properties determine the retained messages completely |
| ShortTermMemory.AdmitIsLongestFitting | runtime/src/memory/short_term.rs:118-135 | evicting from the front and appending selects the longest fitting suffix of the appended list |
| ShortTermMemory.AdmitKeepsLongestFitting | runtime/src/memory/short_term.rs:118-135 | online eviction, which sees only retained messages, equals offline selection from the complete history, for every history and budget |
| ShortTermMemory.RetainedTokensAreBounded | runtime/src/memory/short_term.rs:111-135 | the retained total never exceeds the larger of the budget and the largest single message |
| ShortTermMemory.ShortTermMemory.constructor | runtime/src/memory/short_term.rs:102-109 | an empty buffer; a budget of 0 is excluded as the source panics on it |
| ShortTermMemory.ShortTermMemory.Push | runtime/src/memory/short_term.rs:118-142 | the buffer remains the longest fitting suffix of everything pushed, and the token count its exact sum, so the saturating subtraction never clips |
| ShortTermMemory.ShortTermMemory.ReplaceWithSummary | runtime/src/memory/short_term.rs:192-203 | the summary replaces the content and counts as first element from then on, even if it exceeds the budget |
| ShortTermMemory.ShortTermMemory.Clear | runtime/src/memory/short_term.rs:206-209 | forgets all messages and their tokens |
| LoopDetector.SlideIsLastN | runtime/src/reliability/loop_detector.rs:115-124 | the window is exactly the last max(window size, 1) recorded calls |
| LoopDetector.OnlyNewestCanLoop | runtime/src/reliability/loop_detector.rs:143-162 | if nothing looped before the newest call, the only possible report is that call with exactly the threshold as count, so the hash map's iteration order does not matter |
| LoopDetector.LoopDetector.Record | runtime/src/reliability/loop_detector.rs:115-124 | evicts the oldest entry when full, appends the hash, and keeps the window equal to the tail of all recorded calls |
| LoopDetector.LoopDetector.IsLooping | runtime/src/reliability/loop_detector.rs:143-162 | reports if and only if some hash reaches the threshold, and reports such a hash with its true count |
| LoopDetector.LoopDetector.Clear | runtime/src/reliability/loop_detector.rs:199-201 | forgets every recorded call |
| CircuitBreaker.SuccessAgreesUnlessOpen | runtime/src/reliability/circuit_breaker.rs:147-164 | recording a success keeps count and state in agreement with the outcome history if and only if the circuit is not open |
| CircuitBreaker.FailureAgrees | runtime/src/reliability/circuit_breaker.rs:171-197 | recording a failure keeps that agreement in every state |
| CircuitBreaker.GatedUsesFollowHistory | runtime/src/reliability/circuit_breaker.rs:123-197 | for gated uses the count is the length of the trailing run of failures capped at the threshold, and the state is closed if and only if that run is shorter than the threshold |
| CircuitBreaker.ExecutionSettlesState | runtime/src/reliability/circuit_breaker.rs:147-197 | after a real execution the state is closed or open, never half-open, decided by the trailing run of failures |
| CircuitBreaker.ProbesAreInDifferentPeriods | runtime/src/reliability/circuit_breaker.rs:123-197 | two executions admitted while half-open are separated by a new expiry of an open circuit, however many calls passed the gate without executing |
| CircuitBreaker.HalfOpenAdmitsEveryone | runtime/src/reliability/circuit_breaker.rs:123-140 | after the cool-down all callers that ask before an outcome is recorded are admitted; a single probe is admitted if and only if only one asks |
| CircuitBreaker.FailuresAreSpaced | runtime/src/reliability/circuit_breaker.rs:123-209 | an execution that fails after threshold-many failures in a row started at least one recovery timeout after the previous one was recorded |
| CircuitBreaker.BurstBound | runtime/src/reliability/circuit_breaker.rs:123-209 | after any past: within any stretch of executions that all fail, at most threshold + D / recovery start within D milliseconds |
| CircuitBreaker.RateBound | runtime/src/reliability/circuit_breaker.rs:123-209 | a tool that never succeeds is started at most threshold + D / recovery times within D milliseconds of its first use |
| CircuitBreaker.RateBoundIsTight | runtime/src/reliability/circuit_breaker.rs:123-209 | for every configuration and duration some callers reach that number |
| CircuitBreaker.CircuitBreaker.constructor | runtime/src/reliability/circuit_breaker.rs:107-114 | starts closed with no failures |
| CircuitBreaker.CircuitBreaker.CanExecute | runtime/src/reliability/circuit_breaker.rs:123-140 | refuses only an open circuit whose recovery timeout has not elapsed, and leaves it half-open when it admits from open |
| CircuitBreaker.CircuitBreaker.RecordSuccess | runtime/src/reliability/circuit_breaker.rs:147-164 | new state of all three fields |
| CircuitBreaker.CircuitBreaker.RecordFailure | runtime/src/reliability/circuit_breaker.rs:171-197 | new state of all three fields, with the refreshed failure time in every state |
| BreakerThreads.StepKeepsAccount | runtime/src/reliability/circuit_breaker.rs:123-197 | every atomic step of every thread keeps: closed and no reset pending implies count at most threshold - 1 plus the number of threads about to open the circuit |
| BreakerThreads.StepKeepsTripsEarned | runtime/src/reliability/circuit_breaker.rs:123-197 | every atomic step keeps: not closed, or seen not closed by some thread, implies threshold-many increments have happened |
| BreakerThreads.EveryInterleavingIsSafe | runtime/src/reliability/circuit_breaker.rs:123-209 | both hold after every schedule of any number of threads |
| BreakerThreads.OverfullIsTransient | runtime/src/reliability/circuit_breaker.rs:179-186 | closed with a count at the threshold means that some thread is between its increment and its store of open, or about to store zero |
| BreakerThreads.OverfullHappens | runtime/src/reliability/circuit_breaker.rs:179-186 | for every threshold a schedule of callers that ask the gate first reaches a closed circuit with threshold-many failures counted |
| BreakerThreads.QuiescentClosedIsBelowThreshold | runtime/src/reliability/circuit_breaker.rs:123-197 | once all threads have left their operations, closed means count below threshold |
| BreakerThreads.TripNeedsThresholdIncrements | runtime/src/reliability/circuit_breaker.rs:123-197 | before threshold-many increments the circuit is closed and no thread has seen it otherwise |
| BreakerThreads.SoloIsSequential | runtime/src/reliability/circuit_breaker.rs:123-209 | without interference the atomic steps of an operation have exactly the effect of the sequential operation, and can_execute returns what the sequential gate returns |
| BreakerThreads.OnlyStaleStoresDisagree | runtime/src/reliability/circuit_breaker.rs:123-197 | an atomic step of any thread keeps "not closed implies count at the threshold" if and only if it is not a stale store: a reset while not closed, or a store of open or half-open while the count is below the threshold |
| BreakerThreads.RunsDisagreeByStaleStores | runtime/src/reliability/circuit_breaker.rs:123-197 | a schedule keeps that agreement after every prefix if and only if none of its moves is a stale store |
| BreakerThreads.LoneSuccessesAgree | runtime/src/reliability/circuit_breaker.rs:147-197 | if successes are recorded only while no other thread is inside an operation, then in every quiescent state closed is equivalent to a count below the threshold, under every interleaving of the rest |
| BreakerThreads.StaleSuccessErasesTrip | runtime/src/reliability/circuit_breaker.rs:147-155 | for every threshold a schedule of callers that ask the gate first ends quiescent and open with a count of 0, which one caller at a time cannot reach |
| BreakerThreads.HalfOpenAdmitsEveryThread | runtime/src/reliability/circuit_breaker.rs:123-140 | from any half-open state, any number of further threads are admitted one after the other while the circuit stays half-open |
| BreakerMoves.StepsAreSingleAccesses | runtime/src/reliability/circuit_breaker.rs:123-209 | in every system each step of a thread is one access to one of clock, state, count and time of the last failure: what becomes of the thread and the new value depend on that one alone, and the others stay |
| BreakerMoves.RefusalsCompareReadings | runtime/src/reliability/circuit_breaker.rs:200-209 | under every interleaving a refused thread had found the circuit open, then read a time, and that time is less than a recovery timeout after the failure that is the last one when it is refused |
| BreakerMoves.AdmissionsCompareReadings | runtime/src/reliability/circuit_breaker.rs:123-140 | an admitted thread finds the circuit not open, or had found it open, read a time, and then loaded a last failure at least a recovery timeout older, in three steps of its own |
| BreakerMoves.StoredTimesWereRead | runtime/src/reliability/circuit_breaker.rs:171-176 | whenever the time of the last failure changes it becomes what the storing thread read in its step before |
| BreakerMoves.LateFailureRefuses | runtime/src/reliability/circuit_breaker.rs:123-209 | for every threshold a gated schedule in which a failure stored between a caller's clock reading and its load turns its admission into a refusal |
| BreakerMoves.LastFailureGoesBack | runtime/src/reliability/circuit_breaker.rs:171-176 | for every configuration a gated schedule in which an older reading is stored over a newer one |
| ToolRegistry.EveryExecutionIsRecorded | runtime/src/tools/registry.rs:269-331 | a call reaches its tool exactly if the tool is registered, its gate admits and its schema accepts; the breaker then hears of a success or, whatever the error is, of a failure at the time it was recorded, otherwise at most of the admission; no other breaker changes |
| ToolRegistry.ReplyMatchesRecord | runtime/src/tools/registry.rs:269-331 | a call is answered if and only if it reaches its tool and the tool answers; a call that reaches its tool gets the tool's own reply |
| ToolRegistry.RejectionsAreNamed | runtime/src/tools/registry.rs:269-287 | a call that does not reach its tool is told why: unknown tool first, then open circuit, then invalid input |
| ToolRegistry.OutcomesAreExecutions | runtime/src/tools/registry.rs:306-331 | over any calls the breaker of a tool records exactly its executions, in order, with their outcome and times |
| ToolRegistry.BreakersAreIndependent | runtime/src/tools/registry.rs:125-138 | over any sequence of calls tools and breakers stay paired and each breaker is a function of the calls of its own tool |
| ToolRegistry.ToolProbesAreInDifferentPeriods | runtime/src/tools/registry.rs:269-331 | over any calls to any tools, rejected inputs included, two executions of a tool that were admitted while its breaker was half-open are separated by a call that found it open and timed out |
| ToolRegistry.CallsAreAccountedFor | runtime/src/tools/registry.rs:269-331 | answered calls are the successes recorded by all breakers together; all others are the recorded failures plus the rejections before execution |
| ToolRegistry.ToolRateBound | runtime/src/tools/registry.rs:269-331 | while every execution of a tool fails, at most threshold + D / recovery of its executions start within D milliseconds, among arbitrary calls to arbitrary tools |
| Prelude.DecimalReadsBack | runtime/src/planning/executor.rs:537-541 | a printed number is a numeral without superfluous zeros that reads back as that number |
| ToolRegistry.ToolRegistry.Register | runtime/src/tools/registry.rs:125-138 | rejects a duplicate name and changes nothing then; otherwise adds the tool with a fresh breaker of its own and leaves the others alone |
| ToolRegistry.ToolRegistry.Get | runtime/src/tools/registry.rs:150-152 | finds exactly the registered names, and what it finds carries the name asked for |
| ToolRegistry.ToolRegistry.ValidateInput | runtime/src/tools/registry.rs:214-221 | succeeds if and only if the tool exists and accepts the input; which error otherwise |
| ToolRegistry.ToolRegistry.ExecuteWithTimeout | runtime/src/tools/registry.rs:256-331 | the reply and the new state of every breaker, for unknown tool, open circuit, invalid input, tool failure and success |
| ExecutorModel.EstimateTokens | runtime/src/planning/executor.rs:527-529 | a quarter of the length, rounded down, and never less than one token |
| ExecutorModel.NextDescends | runtime/src/planning/executor.rs:165-278 | each step finishes an iteration or brings its end closer, whatever model and tools do; hence every run ends |
| ExecutorModel.LoopReportIsForced | runtime/src/planning/executor.rs:350-360 | in a run the loop check has one possible report: the call dispatched last, with exactly the threshold as count |
| PlanExecutor.PlanExecutor.MaybeSummarize | runtime/src/planning/executor.rs:458-489 | hands over the whole memory in order for a summary and makes the summary the only message, or passes the error on with the memory unchanged |
| PlanExecutor.PlanExecutor.Record | runtime/src/planning/executor.rs:492-516 | offers one episode if a log is attached, with an error exactly for failures, and goes on whether or not it is stored |
| PlanExecutor.PlanExecutor.AttemptTool | runtime/src/planning/executor.rs:350-438 | one round of check, record, execute and replan performs one step of the machine |
| PlanExecutor.PlanExecutor.ExecuteToolWithReplan | runtime/src/planning/executor.rs:335-439 | the replan loop stays on the run of the machine and ends with an observation, a final answer or the error of the run |
| PlanExecutor.PlanExecutor.ExecuteInner | runtime/src/planning/executor.rs:148-279 | the ReAct loop performs the complete run of the machine |
| PlanExecutor.PlanExecutor.Execute | runtime/src/planning/executor.rs:124-146 | result, requests sent, lists handed over for summaries, final registry and episodes offered are those of the machine's run, from any earlier state of the shared collaborators |
| PlanExecutor.EpisodicLog.Insert | runtime/src/memory/episodic_log.rs:155-183 | stores the episode or fails and leaves the log as it was; demands of its caller an error exactly for failures, which the executor's calls are proved to meet |
| ExecutorLaws.Conservation | runtime/src/planning/executor.rs:165-278 | on success: successful steps = iterations - 1, failed steps = replans, requests = iterations + replans; on exhaustion: as many successful steps as iterations allowed |
| ExecutorLaws.Ceilings | runtime/src/planning/executor.rs:165-278 | at most min(I + R - 1, I * S) requests and logged steps in any run; on success fewer than R replans and at most iterations * (S - 1) |
| ExecutorLaws.StepLogShape | runtime/src/planning/executor.rs:362-385 | fewer than S failures in a row except at the end of the log, which happens exactly with the per-step error; the per-task error exactly when R failures were logged otherwise; payloads are S and R |
| ExecutorLaws.EpisodesTellOutcomes | runtime/src/planning/executor.rs:182-278 | exactly one episode on success and on exhaustion, none on any other error; with the error text exactly on failure; an exhausted run's episode has as many successes as iterations |
| LimitLaws.LimitsMatterOnlyWhenHit | runtime/src/planning/executor.rs:165-385 | raising any of the four limits changes nothing about a run that no limit ended |
| LimitLaws.CeilingsAreReached | runtime/src/planning/executor.rs:165-278 | for all I, S and R both ceilings are attained by one run, given a loop threshold of at least 2 and inputs whose hashes differ within a window (or a window shorter than the threshold) |
| LimitLaws.ThresholdOneAllowsOneCall | runtime/src/planning/executor.rs:351-360 | with a loop threshold of 1 higher ceilings are not attained: every run makes at most one call and two requests |
| LoopLaws.NoHashExceedsThreshold | runtime/src/planning/executor.rs:351-360 | no hash occurs more than threshold times in window-many consecutive calls of a run, and threshold times only in a window that ends with the last call |
| LoopLaws.LoopReportIsExact | runtime/src/planning/executor.rs:351-354 | a run that ends in a loop reports its last call with exactly the threshold as count, and every other hash is below it |
| LoopLaws.ShortWindowNeverLoops | runtime/src/reliability/loop_detector.rs:115-162 | a window shorter than the threshold never lets a run end in a loop |
| LoopLaws.PigeonholeBound | runtime/src/planning/executor.rs:350-360 | a run whose calls have k different hashes makes at most k * (threshold - 1) + 1 of them if the window is longer than k * (threshold - 1), whatever the other limits and the tools are |
| MemoryLaws.EveryRequestIsLongestSuffix | runtime/src/planning/executor.rs:549-570 | every request of a run carries, in order, the longest fitting suffix of everything pushed since the last summary; it is never empty and exceeds the budget only through one oversized message |
| MemoryLaws.EveryDigestIsLongestSuffix | runtime/src/planning/executor.rs:170-172 | every list handed over for a summary is the longest fitting suffix of everything pushed since the last summary, never empty, and near the budget |
| MemoryLaws.RequestsAreInOrder | runtime/src/planning/executor.rs:165-180 | later requests are made after at least as much has entered the memory |
| TranscriptLaws.RequestsFollowTranscript | runtime/src/planning/executor.rs:158-231 | the content of every request is a function of the goal, the model's replies and the steps logged before it: every thought, and for every step its error or its observation labelled with the action that opened the iteration |
| TranscriptLaws.ModelChoosesEveryCall | runtime/src/planning/executor.rs:174-262 | call n and step n carry the action and input of reply n, which named a non-empty action; the result is the answer of the last reply; where a server error came from; and what had entered the memory at the end |
| TranscriptLaws.EveryReplyHasItsEffect | runtime/src/planning/executor.rs:174-212 | every reply received has its effect and no other: an error, a final answer, a missing or an empty action is the last reply and ends the run accordingly without another call; any other is followed by the call it names, or by a loop report |
| TranscriptLaws.OpenerIsFirstChoice | runtime/src/planning/executor.rs:197-231 | at every point of a run where a call is about to be dispatched, the action that observations are labelled with is that of the reply to the first request after the last successful step |
| TextLaws.ObservationHoldsOutput | runtime/src/planning/executor.rs:532-546 | an observation holds its label and the whole output, or the first 4000 characters and a length that reads back as the output's |
| TextLaws.ObservationsDiffer | runtime/src/planning/executor.rs:532-546 | two outputs of an action read the same only if equal, or too long to show, equally long and equal in the part shown |
| TextLaws.ErrorContextsDiffer | runtime/src/planning/executor.rs:388-391 | two errors of an action never read the same |
| TextLaws.ErrorsDiffer | runtime/src/tools/mod.rs:44-80 | no two tool errors have the same message |
| TextLaws.MemoryHoldsOutput | runtime/src/planning/executor.rs:229-236 | at the head of every later iteration the newest message in memory holds the output of the call that has just succeeded |
| TextLaws.RequestTellsLastStep | runtime/src/planning/executor.rs:387-408 | a request after a failed step ends with the failed action and its error; after a successful one with its output, unless the memory was summarised |
| WorldLaws.RunsDependOnRepliesAsked | runtime/src/planning/executor.rs:148-439 | two worlds that agree on the requests, summaries and calls that a run made give the same run |
| RegistryLaws.SuccessesAreAnswers | runtime/src/planning/executor.rs:362-376 | the log's entries are the replies of the registry, call by call |
| RegistryLaws.RunsKeepBooks | runtime/src/planning/executor.rs:350-376 | every logged step is the registry's reply to its call in the state in which the call found the registry, whatever other users did to it |
| RegistryLaws.StepsMatchOwnRecords | runtime/src/planning/executor.rs:362-376 | whatever other users do: successful steps = successes this run recorded itself; failed steps = failures it recorded plus its calls rejected before execution |
| RegistryLaws.StepsMatchBreakers | runtime/src/planning/executor.rs:362-376 | on a registry with any past, unused by others during the run: successful steps = growth of the successes recorded over all breakers; failed steps = growth of the recorded failures plus calls rejected before execution |
| RegistryLaws.RunsExtendHistory | runtime/src/planning/executor.rs:362-366 | runs sharing a registry one after another act on it as one sequence of calls |
| RegistryLaws.RunRateBound | runtime/src/tools/registry.rs:269-331 | the rate bound for executions of a tool from the registry's past into a run, while they all fail |
| CompetingLimits.RepeatedCallMeetsOneLimit | runtime/src/planning/executor.rs:165-385 | for a model that repeats one call and any mixture of failures and successes, on a shared registry: the step log alone decides which of the four limits ended the run; a loop is reported exactly when no other limit was reached, after exactly threshold calls |
| CompetingLimits.FailuresMeetSmallestLimit | runtime/src/planning/executor.rs:350-385 | when every call of such a run fails, which of the per-step, per-task and loop errors ends it, by an exact comparison of the limits with ties decided, and how many calls were made |
| CompetingLimits.SuccessesMeetLoopOrExhaust | runtime/src/planning/executor.rs:165-278 | when every call of such a run succeeds, a loop after exactly threshold calls if more iterations are allowed and the window holds them, else exhaustion with one call per iteration |
| CompetingLimits.BrokenToolNeverSucceeds | runtime/src/tools/registry.rs:269-331 | an unknown tool, a rejected input or a tool that answers no call of the run fails every call, whatever state others leave the breakers in |
| CompetingLimits.HealthyToolAlwaysSucceeds | runtime/src/tools/registry.rs:269-331 | with the registry to itself, every call of the run succeeds if and only if tool and input are valid, the tool answers every call, and the breaker admits the first |
| ParallelBranches.CollectKeepsAll | runtime/src/planning/executor.rs:317-322 | joining in a given order keeps every result and fails exactly when a joined branch failed or panicked |
| ParallelBranches.EveryOrderAgrees | runtime/src/planning/executor.rs:296-323 | for every completion order: success if and only if all branches succeeded, then with exactly all branch results; otherwise the error that some branch returned, or its panic |
| ParallelBranches.ExecuteParallel | runtime/src/planning/executor.rs:296-323 | the spawn and join loops meet that specification for one branch per subtask |
| ParallelBranches.JoinAll | runtime/src/planning/executor.rs:317-322 | whichever branch finishes next, the join loop returns the results of all branches in the order joined, or stops at the first branch that failed and returns its error or panic |
| ParallelBranches.CollectedResultsBalance | runtime/src/planning/executor.rs:302-322 | with branches that run the executor on one shared registry: one result per subtask, each with one successful step per iteration but the last and one failed step per replan, whatever the branches do to each other's breakers |
| ParallelBranches.BranchesStopAtThreeRepeats | runtime/src/planning/executor.rs:305-312 | every branch run detects a loop at 3 identical calls among 10, as the defaults say |
| ParallelBranches.BranchesInheritThePlan | runtime/src/planning/executor.rs:302-312 | its limits, its memory budget and its breakers are those of the plan that started it |
| ParallelBranches.BranchRequestsAreBounded | runtime/src/planning/executor.rs:302-322 | together the branches make at most (I + R - 1) requests per subtask |
| SimilarGoals.ChainIsSingleEscape | runtime/src/memory/episodic_log.rs:248-251 | the three replacements in this order escape each special character exactly once and nothing else |
| SimilarGoals.ChainRoundTrips | runtime/src/memory/episodic_log.rs:248-251 | unescaping returns the keyword, so no two keywords share a pattern |
| SimilarGoals.PatternFindsKeyword | runtime/src/memory/episodic_log.rs:246-259 | the pattern matches a goal if and only if the goal contains the keyword literally up to case, and is never rejected as malformed |

## Left out

- Wall-clock timeouts and cancellation: a tool timeout is one more failed reply; the task deadline
  that races the whole run (`executor.rs:135-145`) is not modelled, so the laws are about runs that
  it does not cut off.
- PlanExecutor.PlanExecutor.Execute: is proved for a registry that no other task uses meanwhile and
  without the task deadline; the machine it performs is also studied with other users.
- What a breaker records while several tasks use it at once: `BreakerThreads` proves its safety under
  every interleaving and `StepsMatchOwnRecords` accounts for a run's own records; the totals over all
  breakers and the rate bounds are about tasks that run one after the other.
- Aborting the remaining branches when one parallel branch fails: it does not change the result.
- Weak memory: acquire and release orderings are read as sequential consistency.
- The floating-point comparison that starts a summary: replaced by an arbitrary predicate of the
  token count and the budget, which covers it.
- Hash values: an arbitrary function of name and input; two calls that collide count as equal, as
  they do in the source.
- Requests: only the message list is kept; tool schemas, goal and memory context do not change within
  a run (the long-term memory context is always empty in the source).
- Widths of machine integers, and the truncation of an observation inside a multi-byte character.
- SimilarGoals.Matches: case folding is per character; foldings that change the length of a text are
  not modelled, nor are ordering and limiting of the rows.
- HTTP transport, JSON schema and validation libraries, PostgreSQL, the concrete tools, logging and
  metrics: they appear as arbitrary replies or not at all.
- Error categories, retry classification and accessor methods: each is evident from its body.
