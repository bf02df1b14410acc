/** The per-tool circuit breaker used by one caller at a time: its transitions as values, what
    they say about the history of outcomes, and the object that performs them in place. */
module CircuitBreaker {
  import opened Prelude

  datatype State = Closed | Open | HalfOpen

  datatype BreakerConfig = BreakerConfig(failureThreshold: nat, recoveryMs: nat)

  /** A snapshot of the three atomics. */
  datatype Breaker = Breaker(state: State, failureCount: nat, lastFailure: nat)

  const FRESH: Breaker := Breaker(Closed, 0, 0)

  // ---------------------------------------------------------------------------
  // The transitions.

  predicate ResetDue(cfg: BreakerConfig, lastFailure: nat, now: nat) {
    SaturatingSub(now, lastFailure) >= cfg.recoveryMs
  }

  predicate Admits(cfg: BreakerConfig, b: Breaker, now: nat) {
    b.state.Open? ==> ResetDue(cfg, b.lastFailure, now)
  }

  function AfterAdmission(cfg: BreakerConfig, b: Breaker, now: nat): Breaker {
    if b.state.Open? && ResetDue(cfg, b.lastFailure, now) then b.(state := HalfOpen) else b
  }

  function AfterSuccess(b: Breaker): Breaker {
    match b.state
    case Closed => b.(failureCount := 0)
    case HalfOpen => b.(state := Closed, failureCount := 0)
    case Open => b
  }

  function AfterFailure(cfg: BreakerConfig, b: Breaker, now: nat): Breaker {
    match b.state
    case Closed =>
      Breaker(if b.failureCount + 1 >= cfg.failureThreshold then Open else Closed, b.failureCount + 1, now)
    case HalfOpen => b.(state := Open, lastFailure := now)
    case Open => b.(lastFailure := now)
  }

  // ---------------------------------------------------------------------------
  // Gated uses: the gate is asked first and an outcome is recorded only after admission.

  /** One use of a breaker. `Skipped` passes the gate but never reaches the tool. */
  datatype Use =
    | Skipped(admitAt: nat)
    | Won(admitAt: nat)
    | Lost(admitAt: nat, lostAt: nat)
  {
    function EndsAt(): nat {
      if Lost? then lostAt else admitAt
    }
  }

  /** A recorded outcome; a failure keeps when its execution was admitted and when it was recorded. */
  datatype Outcome = Succeeded | Failed(startedAt: nat, at: nat)

  predicate Executes(cfg: BreakerConfig, b: Breaker, use: Use) {
    Admits(cfg, b, use.admitAt) && !use.Skipped?
  }

  function AfterUse(cfg: BreakerConfig, b: Breaker, use: Use): Breaker {
    if !Admits(cfg, b, use.admitAt) then b
    else
      var admitted := AfterAdmission(cfg, b, use.admitAt);
      match use
      case Skipped(_) => admitted
      case Won(_) => AfterSuccess(admitted)
      case Lost(_, at) => AfterFailure(cfg, admitted, at)
  }

  function OutcomeOf(use: Use): Outcome
    requires !use.Skipped?
  {
    if use.Won? then Succeeded else Failed(use.admitAt, use.lostAt)
  }

  /** The breaker after a sequence of gated uses of a fresh one. */
  function AfterUses(cfg: BreakerConfig, uses: seq<Use>): Breaker {
    if uses == [] then FRESH
    else AfterUse(cfg, AfterUses(cfg, uses[..|uses| - 1]), uses[|uses| - 1])
  }

  /** The outcomes recorded by those uses, oldest first: one for each real tool execution. */
  function Recorded(cfg: BreakerConfig, uses: seq<Use>): seq<Outcome> {
    if uses == [] then []
    else
      var earlier, use := uses[..|uses| - 1], uses[|uses| - 1];
      if Executes(cfg, AfterUses(cfg, earlier), use)
      then Recorded(cfg, earlier) + [OutcomeOf(use)]
      else Recorded(cfg, earlier)
  }

  function TrailingFailures(history: seq<Outcome>): nat {
    if history == [] || history[|history| - 1].Succeeded? then 0
    else 1 + TrailingFailures(history[..|history| - 1])
  }

  /** The counter machine says the same as the plain history of outcomes. */
  predicate Agrees(cfg: BreakerConfig, b: Breaker, history: seq<Outcome>) {
    && b.failureCount == Min(TrailingFailures(history), AtLeastOne(cfg.failureThreshold))
    && (b.state.Closed? <==> TrailingFailures(history) < AtLeastOne(cfg.failureThreshold))
  }

  lemma TrailingOfAppend(history: seq<Outcome>, outcome: Outcome)
    ensures TrailingFailures(history + [outcome])
         == (if outcome.Succeeded? then 0 else TrailingFailures(history) + 1)
  {
    assert (history + [outcome])[..|history|] == history;
  }

  /** Recording a success keeps the agreement exactly when the circuit is not open. */
  lemma {:induction false} SuccessAgreesUnlessOpen(cfg: BreakerConfig, b: Breaker, history: seq<Outcome>)
    requires Agrees(cfg, b, history)
    ensures Agrees(cfg, AfterSuccess(b), history + [Succeeded]) <==> !b.state.Open?
  {
    TrailingOfAppend(history, Succeeded);
  }

  /** Recording a failure keeps the agreement in every state. */
  lemma {:induction false} FailureAgrees(cfg: BreakerConfig, b: Breaker, history: seq<Outcome>, startedAt: nat, at: nat)
    requires Agrees(cfg, b, history)
    ensures Agrees(cfg, AfterFailure(cfg, b, at), history + [Failed(startedAt, at)])
  {
    TrailingOfAppend(history, Failed(startedAt, at));
  }

  /** Sequential refinement: behind the gate, the breaker is a function of the outcome history. */
  lemma {:induction false} GatedUsesFollowHistory(cfg: BreakerConfig, uses: seq<Use>)
    ensures Agrees(cfg, AfterUses(cfg, uses), Recorded(cfg, uses))
  {
    if uses != [] {
      var earlier, use := uses[..|uses| - 1], uses[|uses| - 1];
      GatedUsesFollowHistory(cfg, earlier);
      var b, history := AfterUses(cfg, earlier), Recorded(cfg, earlier);
      if Executes(cfg, b, use) {
        var admitted := AfterAdmission(cfg, b, use.admitAt);
        if use.Won? {
          SuccessAgreesUnlessOpen(cfg, admitted, history);
        } else {
          FailureAgrees(cfg, admitted, history, use.admitAt, use.lostAt);
        }
      }
    }
  }

  /** A real execution always ends the half-open period it ran in: afterwards the circuit is
      closed or open, depending only on the trailing failures. */
  lemma {:induction false} ExecutionSettlesState(cfg: BreakerConfig, uses: seq<Use>)
    requires uses != []
    requires Executes(cfg, AfterUses(cfg, uses[..|uses| - 1]), uses[|uses| - 1])
    ensures AfterUses(cfg, uses).state
         == (if TrailingFailures(Recorded(cfg, uses)) < AtLeastOne(cfg.failureThreshold) then Closed else Open)
  {
    GatedUsesFollowHistory(cfg, uses);
  }

  // ---------------------------------------------------------------------------
  // Probes: executions that were admitted in the half-open state.

  predicate Probes(cfg: BreakerConfig, uses: seq<Use>, i: nat)
    requires i < |uses|
  {
    var b := AfterUses(cfg, uses[..i]);
    && Executes(cfg, b, uses[i])
    && AfterAdmission(cfg, b, uses[i].admitAt).state.HalfOpen?
  }

  /** Use `k` found the circuit open and started a new half-open period. */
  predicate StartsHalfOpen(cfg: BreakerConfig, uses: seq<Use>, k: nat)
    requires k < |uses|
  {
    var b := AfterUses(cfg, uses[..k]);
    b.state.Open? && Admits(cfg, b, uses[k].admitAt)
  }

  lemma {:induction false} HalfOpenHasStart(cfg: BreakerConfig, uses: seq<Use>, i: nat, j: nat) returns (k: nat)
    requires i < j < |uses|
    requires !AfterUses(cfg, uses[..i + 1]).state.HalfOpen?
    requires AfterAdmission(cfg, AfterUses(cfg, uses[..j]), uses[j].admitAt).state.HalfOpen?
    ensures i < k <= j && StartsHalfOpen(cfg, uses, k)
    decreases j
  {
    if AfterUses(cfg, uses[..j]).state.Open? {
      k := j;
    } else {
      assert uses[..j][..j - 1] == uses[..j - 1];
      k := HalfOpenHasStart(cfg, uses, i, j - 1);
    }
  }

  /** Each half-open period holds at most one real execution, although any number of skipped
      uses may pass the gate in it: between two probes the circuit was open and timed out again. */
  lemma ProbesAreInDifferentPeriods(cfg: BreakerConfig, uses: seq<Use>, i: nat, j: nat)
    requires i < j < |uses| && Probes(cfg, uses, i) && Probes(cfg, uses, j)
    ensures exists k | i < k <= j :: StartsHalfOpen(cfg, uses, k)
  {
    assert uses[..i + 1][..i] == uses[..i];
    ExecutionSettlesState(cfg, uses[..i + 1]);
    var k := HalfOpenHasStart(cfg, uses, i, j);
  }

  /** The breaker after callers asked the gate at these times and none has recorded an outcome. */
  function AfterAsks(cfg: BreakerConfig, b: Breaker, times: seq<nat>): Breaker {
    if times == [] then b
    else AfterAdmission(cfg, AfterAsks(cfg, b, times[..|times| - 1]), times[|times| - 1])
  }

  /** How many of them were let through. */
  function Admitted(cfg: BreakerConfig, b: Breaker, times: seq<nat>): nat {
    if times == [] then 0
    else
      var earlier, last := times[..|times| - 1], times[|times| - 1];
      Admitted(cfg, b, earlier) + if Admits(cfg, AfterAsks(cfg, b, earlier), last) then 1 else 0
  }

  /** Callers that do not wait for each other's outcome: after the cool-down a half-open period
      admits every one of them, so it admits a single probe exactly when nobody else asks before
      the first outcome is recorded. */
  lemma {:induction false} HalfOpenAdmitsEveryone(cfg: BreakerConfig, b: Breaker, times: seq<nat>)
    requires b.state.Open? && times != [] && ResetDue(cfg, b.lastFailure, times[0])
    ensures AfterAsks(cfg, b, times).state.HalfOpen?
    ensures Admitted(cfg, b, times) == |times|
    ensures Admitted(cfg, b, times) == 1 <==> |times| == 1
  {
    if |times| > 1 {
      HalfOpenAdmitsEveryone(cfg, b, times[..|times| - 1]);
    }
  }

  // ---------------------------------------------------------------------------
  // Rate of executions against a clock that does not go backwards.

  predicate Clocked(uses: seq<Use>) {
    && (forall i | 0 <= i < |uses| :: uses[i].admitAt <= uses[i].EndsAt())
    && (forall i, j | 0 <= i < j < |uses| :: uses[i].EndsAt() <= uses[j].admitAt)
  }

  /** An execution that fails after at least threshold-many failures in a row was only started a
      recovery timeout after the previous one was recorded. */
  predicate SpacedAt(cfg: BreakerConfig, history: seq<Outcome>, i: nat)
    requires i < |history|
  {
    history[i].Failed? && TrailingFailures(history[..i]) >= AtLeastOne(cfg.failureThreshold) ==>
      && i > 0
      && history[i - 1].Failed?
      && history[i].startedAt >= history[i - 1].at + cfg.recoveryMs
  }

  predicate Spaced(cfg: BreakerConfig, history: seq<Outcome>) {
    forall i: nat | i < |history| :: SpacedAt(cfg, history, i)
  }

  /** What the timestamps of a breaker remember at time `now`. */
  predicate Timely(cfg: BreakerConfig, b: Breaker, history: seq<Outcome>, now: nat) {
    && (history != [] && history[|history| - 1].Failed? ==>
          b.lastFailure == history[|history| - 1].at <= now)
    && (b.state.HalfOpen? ==> now >= b.lastFailure + cfg.recoveryMs)
  }

  lemma OldSpacingStays(cfg: BreakerConfig, history: seq<Outcome>, outcome: Outcome, i: nat)
    requires i < |history| && SpacedAt(cfg, history, i)
    ensures SpacedAt(cfg, history + [outcome], i)
  {
    hide TrailingFailures;
    assert (history + [outcome])[..i] == history[..i];
  }

  lemma NewSpacingHolds(cfg: BreakerConfig, history: seq<Outcome>, outcome: Outcome)
    requires outcome.Failed? && TrailingFailures(history) >= AtLeastOne(cfg.failureThreshold) ==>
      && history != [] && history[|history| - 1].Failed?
      && outcome.startedAt >= history[|history| - 1].at + cfg.recoveryMs
    ensures SpacedAt(cfg, history + [outcome], |history|)
  {
    hide TrailingFailures;
    assert (history + [outcome])[..|history|] == history;
  }

  lemma SpacedAppend(cfg: BreakerConfig, history: seq<Outcome>, outcome: Outcome)
    requires Spaced(cfg, history)
    requires outcome.Failed? && TrailingFailures(history) >= AtLeastOne(cfg.failureThreshold) ==>
      outcome.startedAt >= history[|history| - 1].at + cfg.recoveryMs
    ensures Spaced(cfg, history + [outcome])
  {
    hide SpacedAt;
    NewSpacingHolds(cfg, history, outcome);
    forall i: nat | i < |history + [outcome]|
      ensures SpacedAt(cfg, history + [outcome], i)
    {
      if i < |history| {
        OldSpacingStays(cfg, history, outcome, i);
      }
    }
  }

  lemma {:induction false} FailuresAreSpaced(cfg: BreakerConfig, uses: seq<Use>)
    requires Clocked(uses)
    ensures Spaced(cfg, Recorded(cfg, uses))
    ensures uses != [] ==>
      Timely(cfg, AfterUses(cfg, uses), Recorded(cfg, uses), uses[|uses| - 1].EndsAt())
  {
    if uses != [] {
      var earlier, use := uses[..|uses| - 1], uses[|uses| - 1];
      FailuresAreSpaced(cfg, earlier);
      GatedUsesFollowHistory(cfg, earlier);
      if earlier != [] {
        assert earlier[|earlier| - 1].EndsAt() <= use.admitAt;
      }
      if Executes(cfg, AfterUses(cfg, earlier), use) {
        SpacedAppend(cfg, Recorded(cfg, earlier), OutcomeOf(use));
      }
    }
  }

  lemma {:induction false} OnlyFailuresRecorded(cfg: BreakerConfig, uses: seq<Use>)
    requires forall u | u in uses :: !u.Won?
    ensures forall i | 0 <= i < |Recorded(cfg, uses)| :: Recorded(cfg, uses)[i].Failed?
  {
    if uses != [] {
      OnlyFailuresRecorded(cfg, uses[..|uses| - 1]);
    }
  }

  lemma {:induction false} TrailingOfAllFailures(history: seq<Outcome>)
    requires forall o | o in history :: o.Failed?
    ensures TrailingFailures(history) == |history|
  {
    if history != [] {
      assert history[|history| - 1] in history;
      TrailingOfAllFailures(history[..|history| - 1]);
    }
  }

  /** Recorded failures keep the order of time. */
  predicate InOrder(history: seq<Outcome>) {
    && (forall k | 0 <= k < |history| && history[k].Failed? :: history[k].startedAt <= history[k].at)
    && (forall k, m | 0 <= k < m < |history| && history[k].Failed? && history[m].Failed? ::
          history[k].at <= history[m].startedAt)
  }

  lemma {:induction false} RecordedInOrder(cfg: BreakerConfig, uses: seq<Use>)
    requires Clocked(uses)
    ensures InOrder(Recorded(cfg, uses))
    ensures forall k | 0 <= k < |Recorded(cfg, uses)| && Recorded(cfg, uses)[k].Failed? ::
      uses[0].admitAt <= Recorded(cfg, uses)[k].startedAt && Recorded(cfg, uses)[k].at <= uses[|uses| - 1].EndsAt()
  {
    if uses != [] {
      var earlier := uses[..|uses| - 1];
      RecordedInOrder(cfg, earlier);
      if earlier != [] {
        assert earlier[|earlier| - 1].EndsAt() <= uses[|uses| - 1].admitAt;
      }
    }
  }

  /** Outcomes i to j are all failures. */
  predicate FailsThroughout(history: seq<Outcome>, i: nat, j: nat)
    requires i <= j < |history|
  {
    forall k | i <= k <= j :: history[k].Failed?
  }

  lemma {:induction false} TrailingCoversBlock(history: seq<Outcome>, i: nat, j: nat)
    requires i <= j < |history| && FailsThroughout(history, i, j)
    ensures TrailingFailures(history[..j]) >= j - i
    decreases j
  {
    if i < j {
      TrailingCoversBlock(history, i, j - 1);
      assert history[..j][..j - 1] == history[..j - 1];
    }
  }

  lemma SpacedInBlock(cfg: BreakerConfig, history: seq<Outcome>, i: nat, j: nat)
    requires Spaced(cfg, history) && InOrder(history)
    requires i + AtLeastOne(cfg.failureThreshold) <= j < |history| && FailsThroughout(history, i, j)
    ensures history[j].startedAt >= history[j - 1].startedAt + cfg.recoveryMs
    ensures history[j - 1].startedAt >= history[i].startedAt
  {
    hide TrailingFailures;
    TrailingCoversBlock(history, i, j);
    assert SpacedAt(cfg, history, j);
  }

  /** The time that this many recovery timeouts take. */
  function Delay(cfg: BreakerConfig, periods: nat): nat {
    periods * cfg.recoveryMs
  }

  lemma DelayGrows(cfg: BreakerConfig, periods: nat)
    ensures Delay(cfg, 1) == cfg.recoveryMs
    ensures Delay(cfg, periods + 1) == Delay(cfg, periods) + cfg.recoveryMs
  {
  }

  lemma {:induction false} BlockTimesGrow(cfg: BreakerConfig, history: seq<Outcome>, i: nat, j: nat)
    requires Spaced(cfg, history) && InOrder(history)
    requires i + AtLeastOne(cfg.failureThreshold) <= j < |history| && FailsThroughout(history, i, j)
    ensures history[j].startedAt
         >= history[i].startedAt + Delay(cfg, j - i + 1 - AtLeastOne(cfg.failureThreshold))
    decreases j
  {
    hide Spaced, InOrder, Delay;
    var f := AtLeastOne(cfg.failureThreshold);
    SpacedInBlock(cfg, history, i, j);
    DelayGrows(cfg, j - i - f);
    if i + f < j {
      BlockTimesGrow(cfg, history, i, j - 1);
    }
  }

  lemma DelayFits(cfg: BreakerConfig, periods: nat, duration: nat)
    requires cfg.recoveryMs > 0 && Delay(cfg, periods) <= duration
    ensures periods <= duration / cfg.recoveryMs
  {
    QuotientBound(periods, cfg.recoveryMs, duration);
  }

  /** Whatever happened before, a tool that fails every time it runs is started at most
      threshold + D / recovery times within D milliseconds, counted from any of its failures. */
  lemma {:induction false} BurstBound(cfg: BreakerConfig, uses: seq<Use>, duration: nat, i: nat, j: nat)
    requires Clocked(uses) && cfg.recoveryMs > 0
    requires i <= j < |Recorded(cfg, uses)| && FailsThroughout(Recorded(cfg, uses), i, j)
    ensures Recorded(cfg, uses)[j].startedAt <= Recorded(cfg, uses)[i].startedAt + duration ==>
      j - i < AtLeastOne(cfg.failureThreshold) + duration / cfg.recoveryMs
  {
    hide Clocked, Recorded, Spaced, InOrder, Delay;
    var f, history := AtLeastOne(cfg.failureThreshold), Recorded(cfg, uses);
    FailuresAreSpaced(cfg, uses);
    RecordedInOrder(cfg, uses);
    if i + f <= j && history[j].startedAt <= history[i].startedAt + duration {
      BlockTimesGrow(cfg, history, i, j);
      DelayFits(cfg, j - i + 1 - f, duration);
    }
  }

  /** A tool that never succeeds is started at most threshold + D / recovery times within
      D milliseconds of its first use, whatever the callers do. */
  lemma {:induction false} RateBound(cfg: BreakerConfig, uses: seq<Use>, duration: nat, i: nat)
    requires Clocked(uses) && cfg.recoveryMs > 0
    requires forall u | u in uses :: !u.Won?
    requires i < |Recorded(cfg, uses)|
    ensures Recorded(cfg, uses)[i].Failed?
    ensures Recorded(cfg, uses)[i].startedAt <= uses[0].admitAt + duration ==>
      i < AtLeastOne(cfg.failureThreshold) + duration / cfg.recoveryMs
  {
    OnlyFailuresRecorded(cfg, uses);
    RecordedInOrder(cfg, uses);
    BurstBound(cfg, uses, duration, 0, i);
  }

  lemma QuotientBound(n: nat, d: nat, total: nat)
    requires d > 0 && n * d <= total
    ensures n <= total / d
  {
    var q := total / d;
    assert total == q * d + total % d;
    assert (n - q) * d == n * d - q * d < d;
    assert n - q >= 1 ==> (n - q) * d >= d;
  }

  /** Callers that retry as early as the breaker lets them. */
  function RetryTime(cfg: BreakerConfig, i: nat): nat {
    var f := AtLeastOne(cfg.failureThreshold);
    if i < f then 0 else (i + 1 - f) * cfg.recoveryMs
  }

  function EagerRetries(cfg: BreakerConfig, n: nat): seq<Use> {
    seq(n, i requires 0 <= i => Lost(RetryTime(cfg, i), RetryTime(cfg, i)))
  }

  lemma RetryTimesGrow(cfg: BreakerConfig, i: nat, j: nat)
    requires i <= j
    ensures RetryTime(cfg, i) <= RetryTime(cfg, j)
    ensures i + 1 >= AtLeastOne(cfg.failureThreshold) ==>
      RetryTime(cfg, i + 1) == RetryTime(cfg, i) + cfg.recoveryMs
  {
    var f := AtLeastOne(cfg.failureThreshold);
    if i >= f {
      assert (j + 1 - f) * cfg.recoveryMs == (i + 1 - f) * cfg.recoveryMs + (j - i) * cfg.recoveryMs;
      assert (i + 2 - f) * cfg.recoveryMs == (i + 1 - f) * cfg.recoveryMs + cfg.recoveryMs;
    }
  }

  lemma {:induction false} EagerRetriesAllExecute(cfg: BreakerConfig, n: nat)
    ensures |Recorded(cfg, EagerRetries(cfg, n))| == n
    ensures n > 0 ==> AfterUses(cfg, EagerRetries(cfg, n)).lastFailure == RetryTime(cfg, n - 1)
    ensures forall i | 0 <= i < n ::
      Recorded(cfg, EagerRetries(cfg, n))[i] == Failed(RetryTime(cfg, i), RetryTime(cfg, i))
    decreases n
  {
    if n > 0 {
      EagerRetriesAllExecute(cfg, n - 1);
      var earlier := EagerRetries(cfg, n - 1);
      assert EagerRetries(cfg, n)[..n - 1] == earlier;
      GatedUsesFollowHistory(cfg, earlier);
      TrailingOfAllFailures(Recorded(cfg, earlier));
      if n > 1 {
        RetryTimesGrow(cfg, n - 2, n - 1);
      }
    }
  }

  lemma EagerRetriesAreClocked(cfg: BreakerConfig, n: nat)
    ensures Clocked(EagerRetries(cfg, n))
    ensures forall u | u in EagerRetries(cfg, n) :: !u.Won?
  {
    hide RetryTime;
    forall i, j | 0 <= i < j < n
      ensures RetryTime(cfg, i) <= RetryTime(cfg, j)
    {
      RetryTimesGrow(cfg, i, j);
    }
  }

  lemma RetriesFit(cfg: BreakerConfig, duration: nat, i: nat)
    requires cfg.recoveryMs > 0 && i < AtLeastOne(cfg.failureThreshold) + duration / cfg.recoveryMs
    ensures RetryTime(cfg, i) <= duration
  {
    var f, q := AtLeastOne(cfg.failureThreshold), duration / cfg.recoveryMs;
    RetryTimesGrow(cfg, i, f + q - 1);
    assert q * cfg.recoveryMs <= duration;
    assert RetryTime(cfg, f + q - 1) <= q * cfg.recoveryMs;
  }

  /** The bound of `RateBound` is reached for every configuration and duration. */
  lemma {:induction false} RateBoundIsTight(cfg: BreakerConfig, duration: nat) returns (uses: seq<Use>)
    requires cfg.recoveryMs > 0
    ensures Clocked(uses) && uses != [] && forall u | u in uses :: !u.Won?
    ensures |Recorded(cfg, uses)| == AtLeastOne(cfg.failureThreshold) + duration / cfg.recoveryMs
    ensures forall i | 0 <= i < |Recorded(cfg, uses)| ::
      && Recorded(cfg, uses)[i].Failed?
      && Recorded(cfg, uses)[i].startedAt <= uses[0].admitAt + duration
  {
    hide Recorded, Clocked, RetryTime;
    var n := AtLeastOne(cfg.failureThreshold) + duration / cfg.recoveryMs;
    uses := EagerRetries(cfg, n);
    EagerRetriesAllExecute(cfg, n);
    EagerRetriesAreClocked(cfg, n);
    forall i | 0 <= i < n
      ensures Recorded(cfg, uses)[i].startedAt <= duration
    {
      RetriesFit(cfg, duration, i);
    }
  }

  // ---------------------------------------------------------------------------
  // The breaker object.

  class CircuitBreaker {
    var state: State
    var failureCount: nat
    var lastFailure: nat
    const config: BreakerConfig

    ghost function View(): Breaker
      reads this
    {
      Breaker(state, failureCount, lastFailure)
    }

    constructor (config: BreakerConfig)
      ensures View() == FRESH && this.config == config
    {
      this.state, this.failureCount, this.lastFailure, this.config := Closed, 0, 0, config;
    }

    /** `now` is the clock reading, used only while the circuit is open. */
    method CanExecute(now: nat) returns (allowed: bool)
      modifies this
      ensures allowed == Admits(config, old(View()), now)
      ensures View() == AfterAdmission(config, old(View()), now)
    {
      match state
      case Closed => allowed := true;
      case HalfOpen => allowed := true;
      case Open =>
        if ResetDue(config, lastFailure, now) {
          state := HalfOpen;
          allowed := true;
        } else {
          allowed := false;
        }
    }

    method RecordSuccess()
      modifies this
      ensures View() == AfterSuccess(old(View()))
    {
      match state
      case Closed => failureCount := 0;
      case HalfOpen =>
        state := Closed;
        failureCount := 0;
      case Open =>
    }

    method RecordFailure(now: nat)
      modifies this
      ensures View() == AfterFailure(config, old(View()), now)
    {
      lastFailure := now;
      match state
      case Closed =>
        failureCount := failureCount + 1;
        if failureCount >= config.failureThreshold {
          state := Open;
        }
      case HalfOpen => state := Open;
      case Open =>
    }
  }
}
