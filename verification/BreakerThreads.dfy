/** The circuit breaker shared by any number of threads. Each operation is split into its atomic
    loads and stores, and a schedule interleaves them arbitrarily (sequential consistency). */
module BreakerThreads {
  import opened Prelude
  import opened CircuitBreaker

  type ThreadId = nat

  /** The next atomic step of a thread that is inside an operation. */
  datatype Pc =
    // can_execute
    | AskLoadState
    | AskReadClock
    | AskLoadLast(now: nat)
    | AskStoreHalfOpen
    // record_success
    | WinLoadState
    | WinStoreClosed
    | WinStoreZero
    // record_failure
    | LossReadClock
    | LossStoreLast(now: nat)
    | LossLoadState
    | LossFetchAdd
    | LossStoreOpen(tripped: bool)

  /** Threads that are not in `threads` are outside every operation. */
  datatype System = System(
    state: State,
    failureCount: nat,
    lastFailure: nat,
    threads: map<ThreadId, Pc>,
    increments: nat,
    /** What can_execute last returned to each thread. */
    verdicts: map<ThreadId, bool>)

  datatype Operation = CanExecute | RecordSuccess | RecordFailure

  /** One scheduling decision: a thread enters an operation or performs its next atomic step.
      `clock` is the reading it gets if that step reads the clock. */
  datatype Move = Enter(thread: ThreadId, operation: Operation) | Continue(thread: ThreadId, clock: nat)

  const INITIAL: System := System(Closed, 0, 0, map[], 0, map[])

  function EntryPoint(operation: Operation): Pc {
    match operation
    case CanExecute => AskLoadState
    case RecordSuccess => WinLoadState
    case RecordFailure => LossReadClock
  }

  function At(s: System, t: ThreadId, pc: Pc): System {
    s.(threads := s.threads[t := pc])
  }

  function Leave(s: System, t: ThreadId): System {
    s.(threads := s.threads - {t})
  }

  function Answer(s: System, t: ThreadId, allowed: bool): System {
    Leave(s, t).(verdicts := s.verdicts[t := allowed])
  }

  function Advance(cfg: BreakerConfig, s: System, t: ThreadId, clock: nat): System
    requires t in s.threads
  {
    match s.threads[t]
    case AskLoadState => if s.state.Open? then At(s, t, AskReadClock) else Answer(s, t, true)
    case AskReadClock => At(s, t, AskLoadLast(clock))
    case AskLoadLast(now) =>
      if ResetDue(cfg, s.lastFailure, now) then At(s, t, AskStoreHalfOpen) else Answer(s, t, false)
    case AskStoreHalfOpen => Answer(s, t, true).(state := HalfOpen)
    case WinLoadState =>
      (match s.state
       case Closed => At(s, t, WinStoreZero)
       case HalfOpen => At(s, t, WinStoreClosed)
       case Open => Leave(s, t))
    case WinStoreClosed => At(s, t, WinStoreZero).(state := Closed)
    case WinStoreZero => Leave(s, t).(failureCount := 0)
    case LossReadClock => At(s, t, LossStoreLast(clock))
    case LossStoreLast(now) => At(s, t, LossLoadState).(lastFailure := now)
    case LossLoadState =>
      (match s.state
       case Closed => At(s, t, LossFetchAdd)
       case HalfOpen => At(s, t, LossStoreOpen(false))
       case Open => Leave(s, t))
    case LossFetchAdd =>
      var counted := s.(failureCount := s.failureCount + 1, increments := s.increments + 1);
      if counted.failureCount >= cfg.failureThreshold
      then At(counted, t, LossStoreOpen(true))
      else Leave(counted, t)
    case LossStoreOpen(_) => Leave(s, t).(state := Open)
  }

  /** A move that does not apply (entering twice, continuing outside an operation) does nothing. */
  function Step(cfg: BreakerConfig, s: System, move: Move): System {
    match move
    case Enter(t, operation) => if t in s.threads then s else At(s, t, EntryPoint(operation))
    case Continue(t, clock) => if t in s.threads then Advance(cfg, s, t, clock) else s
  }

  function Run(cfg: BreakerConfig, schedule: seq<Move>): System {
    if schedule == [] then INITIAL
    else Step(cfg, Run(cfg, schedule[..|schedule| - 1]), schedule[|schedule| - 1])
  }

  // ---------------------------------------------------------------------------
  // Safety under every interleaving.

  /** Threads that reached the threshold and are about to open the circuit. */
  function Tripping(s: System): set<ThreadId> {
    set t | t in s.threads && s.threads[t] == LossStoreOpen(true)
  }

  /** Threads that are about to reset the failure count. */
  function Zeroing(s: System): set<ThreadId> {
    set t | t in s.threads && s.threads[t].WinStoreZero?
  }

  /** While the circuit is closed, the failure count stays below the threshold, except for one
      count per thread that is about to open the circuit, and unless a reset is pending. */
  predicate CountIsAccountedFor(cfg: BreakerConfig, s: System) {
    s.state.Closed? && Zeroing(s) == {} ==>
      s.failureCount <= AtLeastOne(cfg.failureThreshold) - 1 + |Tripping(s)|
  }

  /** Program counters that a thread reaches only after it has seen the circuit not closed. */
  predicate HasSeenTrip(pc: Pc) {
    pc.AskReadClock? || pc.AskLoadLast? || pc.AskStoreHalfOpen? || pc.WinStoreClosed? || pc.LossStoreOpen?
  }

  predicate TripsAreEarned(cfg: BreakerConfig, s: System) {
    && s.failureCount <= s.increments
    && (!s.state.Closed? || (exists t :: t in s.threads && HasSeenTrip(s.threads[t])) ==>
          s.increments >= AtLeastOne(cfg.failureThreshold))
  }

  lemma IncrementKeepsAccount(cfg: BreakerConfig, s: System, t: ThreadId, clock: nat)
    requires CountIsAccountedFor(cfg, s) && t in s.threads && s.threads[t].LossFetchAdd?
    ensures CountIsAccountedFor(cfg, Advance(cfg, s, t, clock))
  {
    hide Tripping, Zeroing;
    IncrementTrips(cfg, s, t, clock);
  }

  lemma IncrementTrips(cfg: BreakerConfig, s: System, t: ThreadId, clock: nat)
    requires t in s.threads && s.threads[t].LossFetchAdd?
    ensures var s' := Advance(cfg, s, t, clock);
      && Zeroing(s') == Zeroing(s)
      && t !in Tripping(s)
      && Tripping(s') == if s'.failureCount >= cfg.failureThreshold then Tripping(s) + {t} else Tripping(s)
  {
  }

  lemma StepKeepsAccount(cfg: BreakerConfig, s: System, move: Move)
    requires CountIsAccountedFor(cfg, s)
    ensures CountIsAccountedFor(cfg, Step(cfg, s, move))
  {
    hide Tripping, ResetDue;
    var t := move.thread;
    if move.Continue? && t in s.threads {
      match s.threads[t]
      case WinStoreClosed =>
        assert t in Zeroing(Step(cfg, s, move));
      case WinStoreZero =>
      case LossStoreOpen(_) =>
      case LossFetchAdd =>
        IncrementKeepsAccount(cfg, s, t, move.clock);
      case _ =>
        OthersKeepTheirPlace(cfg, s, move);
    } else {
      OthersKeepTheirPlace(cfg, s, move);
    }
  }

  /** Steps that neither trip nor reset leave the two groups of pending threads as they are,
      except that a reset may become pending. */
  lemma OthersKeepTheirPlace(cfg: BreakerConfig, s: System, move: Move)
    requires move.Continue? && move.thread in s.threads ==>
      var pc := s.threads[move.thread];
      !pc.WinStoreZero? && !pc.LossStoreOpen? && !pc.LossFetchAdd?
    ensures Tripping(Step(cfg, s, move)) == Tripping(s)
    ensures Zeroing(s) <= Zeroing(Step(cfg, s, move))
  {
  }

  /** A step touches the place of its own thread only. */
  lemma StepLeavesOthers(cfg: BreakerConfig, s: System, move: Move, t: ThreadId)
    requires t != move.thread
    ensures var s' := Step(cfg, s, move);
      (t in s'.threads <==> t in s.threads) && (t in s.threads ==> s'.threads[t] == s.threads[t])
  {
    hide Advance;
    if move.Continue? && move.thread in s.threads {
      var s' := Advance(cfg, s, move.thread, move.clock);
      StepMovesOneThread(cfg, s, move.thread, move.clock);
      assert t in s'.threads <==> t in s'.threads - {move.thread};
      assert t in s.threads ==> s'.threads[t] == (s'.threads - {move.thread})[t];
    }
  }

  lemma WhoTrips(cfg: BreakerConfig, s: System, t: ThreadId, clock: nat)
    requires t in s.threads && s.state.Closed? && !HasSeenTrip(s.threads[t])
    requires t in Advance(cfg, s, t, clock).threads && HasSeenTrip(Advance(cfg, s, t, clock).threads[t])
    ensures var s' := Advance(cfg, s, t, clock);
      && s'.failureCount >= AtLeastOne(cfg.failureThreshold)
      && s'.failureCount - s.failureCount == s'.increments - s.increments
  {
    hide ResetDue;
  }

  /** A thread sees the circuit not closed only if it is so, or if its own increment trips it. */
  lemma WhoSeesTrip(cfg: BreakerConfig, s: System, move: Move, t: ThreadId)
    requires var s' := Step(cfg, s, move);
      t in s'.threads && HasSeenTrip(s'.threads[t])
    ensures var s' := Step(cfg, s, move);
      || (t in s.threads && HasSeenTrip(s.threads[t]))
      || !s.state.Closed?
      || (&& s'.failureCount >= AtLeastOne(cfg.failureThreshold)
          && s'.failureCount - s.failureCount == s'.increments - s.increments)
  {
    hide Advance, HasSeenTrip;
    if t != move.thread {
      StepLeavesOthers(cfg, s, move, t);
    } else if move.Continue? && t in s.threads {
      if s.state.Closed? && !HasSeenTrip(s.threads[t]) {
        WhoTrips(cfg, s, t, move.clock);
      }
    } else {
      EnteringSeesNothing(s, move);
    }
  }

  lemma EnteringSeesNothing(s: System, move: Move)
    requires move.Enter?
    ensures !HasSeenTrip(EntryPoint(move.operation))
  {
  }

  lemma StepCounts(cfg: BreakerConfig, s: System, move: Move)
    ensures var s' := Step(cfg, s, move);
      && s.increments <= s'.increments
      && (s.failureCount <= s.increments ==> s'.failureCount <= s'.increments)
      && (s.state.Closed? && !s'.state.Closed? ==>
            move.thread in s.threads && HasSeenTrip(s.threads[move.thread]))
  {
    hide ResetDue;
  }

  lemma {:induction false} StepKeepsTripsEarned(cfg: BreakerConfig, s: System, move: Move)
    requires TripsAreEarned(cfg, s)
    ensures TripsAreEarned(cfg, Step(cfg, s, move))
  {
    hide Step, HasSeenTrip;
    var s' := Step(cfg, s, move);
    StepCounts(cfg, s, move);
    forall t | t in s'.threads && HasSeenTrip(s'.threads[t])
      ensures s'.increments >= AtLeastOne(cfg.failureThreshold)
    {
      WhoSeesTrip(cfg, s, move, t);
    }
  }

  lemma {:induction false} EveryInterleavingIsSafe(cfg: BreakerConfig, schedule: seq<Move>)
    ensures CountIsAccountedFor(cfg, Run(cfg, schedule))
    ensures TripsAreEarned(cfg, Run(cfg, schedule))
  {
    if schedule != [] {
      EveryInterleavingIsSafe(cfg, schedule[..|schedule| - 1]);
      var s := Run(cfg, schedule[..|schedule| - 1]);
      StepKeepsAccount(cfg, s, schedule[|schedule| - 1]);
      StepKeepsTripsEarned(cfg, s, schedule[|schedule| - 1]);
    }
  }

  /** A closed circuit whose count has reached the threshold is always explained by a thread that
      is still inside an operation; so once every thread has left, closed means below threshold. */
  lemma OverfullIsTransient(cfg: BreakerConfig, schedule: seq<Move>)
    requires Run(cfg, schedule).state.Closed?
    requires Run(cfg, schedule).failureCount >= AtLeastOne(cfg.failureThreshold)
    ensures var threads := Run(cfg, schedule).threads;
      exists t :: t in threads && (threads[t] == LossStoreOpen(true) || threads[t] == WinStoreZero)
  {
    EveryInterleavingIsSafe(cfg, schedule);
    var s := Run(cfg, schedule);
    var busy := Tripping(s) + Zeroing(s);
    assert busy != {};
    var t :| t in busy;
    assert t in s.threads;
  }

  lemma QuiescentClosedIsBelowThreshold(cfg: BreakerConfig, schedule: seq<Move>)
    requires Run(cfg, schedule).threads == map[] && Run(cfg, schedule).state.Closed?
    ensures Run(cfg, schedule).failureCount < AtLeastOne(cfg.failureThreshold)
  {
    if Run(cfg, schedule).failureCount >= AtLeastOne(cfg.failureThreshold) {
      OverfullIsTransient(cfg, schedule);
    }
  }

  /** No thread can find the circuit open or half-open before threshold-many increments. */
  lemma TripNeedsThresholdIncrements(cfg: BreakerConfig, schedule: seq<Move>)
    requires Run(cfg, schedule).increments < AtLeastOne(cfg.failureThreshold)
    ensures Run(cfg, schedule).state.Closed?
    ensures forall t | t in Run(cfg, schedule).threads :: !HasSeenTrip(Run(cfg, schedule).threads[t])
  {
    EveryInterleavingIsSafe(cfg, schedule);
  }

  // ---------------------------------------------------------------------------
  // When state and count agree in between.

  /** A circuit that is not closed has counted its failures; this holds throughout for one caller
      at a time. */
  predicate CountsItsTrip(cfg: BreakerConfig, s: System) {
    !s.state.Closed? ==> s.failureCount >= AtLeastOne(cfg.failureThreshold)
  }

  /** A store whose reason is gone: a reset of the count after the circuit has left closed, or a
      store of open or half-open after the count has been reset. */
  predicate IsStale(cfg: BreakerConfig, s: System, move: Move) {
    && move.Continue? && move.thread in s.threads
    && match s.threads[move.thread]
       case WinStoreZero => !s.state.Closed?
       case LossStoreOpen(_) => s.failureCount < AtLeastOne(cfg.failureThreshold)
       case AskStoreHalfOpen => s.failureCount < AtLeastOne(cfg.failureThreshold)
       case _ => false
  }

  /** One atomic step of any thread keeps the agreement exactly when it is not a stale store. */
  lemma {:induction false} OnlyStaleStoresDisagree(cfg: BreakerConfig, s: System, move: Move)
    requires CountsItsTrip(cfg, s)
    ensures CountsItsTrip(cfg, Step(cfg, s, move)) <==> !IsStale(cfg, s, move)
  {
  }

  /** The agreement holds after every prefix of the schedule. */
  predicate AgreesThroughout(cfg: BreakerConfig, schedule: seq<Move>) {
    && CountsItsTrip(cfg, Run(cfg, schedule))
    && (schedule != [] ==> AgreesThroughout(cfg, schedule[..|schedule| - 1]))
  }

  /** No move of the schedule is a stale store where it is made. */
  predicate NeverStale(cfg: BreakerConfig, schedule: seq<Move>) {
    schedule != [] ==>
      && NeverStale(cfg, schedule[..|schedule| - 1])
      && !IsStale(cfg, Run(cfg, schedule[..|schedule| - 1]), schedule[|schedule| - 1])
  }

  /** Hence a schedule keeps the agreement throughout exactly when it contains no stale store. */
  lemma {:induction false} RunsDisagreeByStaleStores(cfg: BreakerConfig, schedule: seq<Move>)
    ensures AgreesThroughout(cfg, schedule) <==> NeverStale(cfg, schedule)
  {
    hide CountsItsTrip, IsStale, Step;
    if schedule == [] {
      assert CountsItsTrip(cfg, INITIAL) by { InitiallyAgreed(cfg); }
    } else {
      var earlier := schedule[..|schedule| - 1];
      RunsDisagreeByStaleStores(cfg, earlier);
      if CountsItsTrip(cfg, Run(cfg, earlier)) {
        OnlyStaleStoresDisagree(cfg, Run(cfg, earlier), schedule[|schedule| - 1]);
      }
    }
  }

  lemma InitiallyAgreed(cfg: BreakerConfig)
    ensures CountsItsTrip(cfg, INITIAL)
  {
  }

  predicate RecordsSuccess(pc: Pc) {
    pc.WinLoadState? || pc.WinStoreClosed? || pc.WinStoreZero?
  }

  /** A thread inside record_success is the only one inside any operation. */
  predicate SuccessIsAlone(s: System) {
    forall t, u | t in s.threads && u in s.threads && RecordsSuccess(s.threads[t]) :: u == t
  }

  /** So it is after every prefix of the schedule. */
  predicate SuccessesAreAlone(cfg: BreakerConfig, schedule: seq<Move>) {
    && SuccessIsAlone(Run(cfg, schedule))
    && (schedule != [] ==> SuccessesAreAlone(cfg, schedule[..|schedule| - 1]))
  }

  /** What holds while successes are recorded alone: no pending store has lost its reason. */
  predicate NothingStale(cfg: BreakerConfig, s: System) {
    && CountsItsTrip(cfg, s)
    && (forall t | t in s.threads && HasSeenTrip(s.threads[t]) ::
          s.failureCount >= AtLeastOne(cfg.failureThreshold))
    && (forall t | t in s.threads && s.threads[t].WinStoreZero? :: s.state.Closed?)
  }

  /** Nothing but a reset lowers the count, and nothing but a trip or a probe leaves closed. */
  lemma WhoResets(cfg: BreakerConfig, s: System, move: Move)
    ensures var s' := Step(cfg, s, move);
      var t := move.thread;
      && (s'.failureCount < s.failureCount ==> move.Continue? && t in s.threads && s.threads[t].WinStoreZero?)
      && (s.state.Closed? && !s'.state.Closed? ==>
            t in s.threads && HasSeenTrip(s.threads[t]) && !RecordsSuccess(s.threads[t]))
      && (t in s'.threads && s'.threads[t].WinStoreZero? ==> s'.state.Closed? || s' == s)
  {
    hide ResetDue;
  }

  lemma SeenTripsStayCounted(cfg: BreakerConfig, s: System, move: Move, t: ThreadId)
    requires NothingStale(cfg, s) && SuccessIsAlone(s)
    requires t in Step(cfg, s, move).threads && HasSeenTrip(Step(cfg, s, move).threads[t])
    ensures Step(cfg, s, move).failureCount >= AtLeastOne(cfg.failureThreshold)
  {
    hide Step, HasSeenTrip;
    WhoSeesTrip(cfg, s, move, t);
    WhoResets(cfg, s, move);
    if Step(cfg, s, move).failureCount < s.failureCount {
      ResetLeavesNobody(cfg, s, move);
    }
  }

  lemma ResetLeavesNobody(cfg: BreakerConfig, s: System, move: Move)
    requires SuccessIsAlone(s) && move.Continue? && move.thread in s.threads
    requires s.threads[move.thread].WinStoreZero?
    ensures Step(cfg, s, move).threads == map[]
  {
    assert RecordsSuccess(s.threads[move.thread]);
  }

  lemma ResetsStayDue(cfg: BreakerConfig, s: System, move: Move, t: ThreadId)
    requires NothingStale(cfg, s) && SuccessIsAlone(s)
    requires t in Step(cfg, s, move).threads && Step(cfg, s, move).threads[t].WinStoreZero?
    ensures Step(cfg, s, move).state.Closed?
  {
    hide Step, HasSeenTrip, CountsItsTrip;
    WhoResets(cfg, s, move);
    if t != move.thread {
      StepLeavesOthers(cfg, s, move, t);
      assert RecordsSuccess(s.threads[t]);
    }
  }

  lemma NothingIsStale(cfg: BreakerConfig, s: System, move: Move)
    requires NothingStale(cfg, s)
    ensures !IsStale(cfg, s, move)
  {
    hide Step;
    if move.Continue? && move.thread in s.threads {
      assert s.threads[move.thread].AskStoreHalfOpen? || s.threads[move.thread].LossStoreOpen? ==>
        HasSeenTrip(s.threads[move.thread]);
    }
  }

  lemma StepStaysFresh(cfg: BreakerConfig, s: System, move: Move)
    requires NothingStale(cfg, s) && SuccessIsAlone(s)
    ensures NothingStale(cfg, Step(cfg, s, move))
  {
    hide Step, CountsItsTrip, HasSeenTrip, IsStale, SuccessIsAlone;
    NothingIsStale(cfg, s, move);
    OnlyStaleStoresDisagree(cfg, s, move);
    forall t | t in Step(cfg, s, move).threads && HasSeenTrip(Step(cfg, s, move).threads[t])
      ensures Step(cfg, s, move).failureCount >= AtLeastOne(cfg.failureThreshold)
    {
      SeenTripsStayCounted(cfg, s, move, t);
    }
    forall t | t in Step(cfg, s, move).threads && Step(cfg, s, move).threads[t].WinStoreZero?
      ensures Step(cfg, s, move).state.Closed?
    {
      ResetsStayDue(cfg, s, move, t);
    }
  }

  lemma {:induction false} AloneStaysFresh(cfg: BreakerConfig, schedule: seq<Move>)
    requires SuccessesAreAlone(cfg, schedule)
    ensures NothingStale(cfg, Run(cfg, schedule))
  {
    if schedule != [] {
      var n := |schedule| - 1;
      AloneStaysFresh(cfg, schedule[..n]);
      StepStaysFresh(cfg, Run(cfg, schedule[..n]), schedule[n]);
    }
  }

  /** Callers that record successes only while no other thread is inside an operation get the
      agreement back under every interleaving of the rest: once all threads have left, the circuit
      is closed exactly when fewer failures than the threshold are counted. */
  lemma {:induction false} LoneSuccessesAgree(cfg: BreakerConfig, schedule: seq<Move>)
    requires SuccessesAreAlone(cfg, schedule) && Run(cfg, schedule).threads == map[]
    ensures var s := Run(cfg, schedule);
      s.state.Closed? <==> s.failureCount < AtLeastOne(cfg.failureThreshold)
  {
    AloneStaysFresh(cfg, schedule);
    if Run(cfg, schedule).state.Closed? {
      QuiescentClosedIsBelowThreshold(cfg, schedule);
    }
  }

  // ---------------------------------------------------------------------------
  // Relation to the sequential breaker.

  function Shared(s: System): Breaker {
    Breaker(s.state, s.failureCount, s.lastFailure)
  }

  function Repeat(cfg: BreakerConfig, s: System, t: ThreadId, clock: nat, steps: nat): System
    decreases steps
  {
    if steps == 0 then s else Repeat(cfg, Step(cfg, s, Continue(t, clock)), t, clock, steps - 1)
  }

  /** The operation of one thread with nobody in between; none takes more than five steps. */
  function Solo(cfg: BreakerConfig, s: System, t: ThreadId, operation: Operation, clock: nat): System {
    Repeat(cfg, Step(cfg, s, Enter(t, operation)), t, clock, 5)
  }

  function Sequentially(cfg: BreakerConfig, b: Breaker, operation: Operation, now: nat): Breaker {
    match operation
    case CanExecute => AfterAdmission(cfg, b, now)
    case RecordSuccess => AfterSuccess(b)
    case RecordFailure => AfterFailure(cfg, b, now)
  }

  function StepsLeft(pc: Pc): (left: nat)
    ensures 1 <= left <= 5
  {
    match pc
    case AskLoadState => 4
    case AskReadClock => 3
    case AskLoadLast(_) => 2
    case AskStoreHalfOpen => 1
    case WinLoadState => 3
    case WinStoreClosed => 2
    case WinStoreZero => 1
    case LossReadClock => 5
    case LossStoreLast(_) => 4
    case LossLoadState => 3
    case LossFetchAdd => 2
    case LossStoreOpen(_) => 1
  }

  /** What the rest of an operation does to the shared variables if nobody interferes. */
  function Rest(cfg: BreakerConfig, b: Breaker, pc: Pc, clock: nat): Breaker {
    match pc
    case AskLoadState => AfterAdmission(cfg, b, clock)
    case AskReadClock => if ResetDue(cfg, b.lastFailure, clock) then b.(state := HalfOpen) else b
    case AskLoadLast(now) => if ResetDue(cfg, b.lastFailure, now) then b.(state := HalfOpen) else b
    case AskStoreHalfOpen => b.(state := HalfOpen)
    case WinLoadState => AfterSuccess(b)
    case WinStoreClosed => b.(state := Closed, failureCount := 0)
    case WinStoreZero => b.(failureCount := 0)
    case LossReadClock => AfterFailure(cfg, b, clock)
    case LossStoreLast(now) => AfterFailure(cfg, b, now)
    case LossLoadState => AfterFailure(cfg, b, b.lastFailure)
    case LossFetchAdd =>
      Breaker(if b.failureCount + 1 >= cfg.failureThreshold then Open else b.state, b.failureCount + 1, b.lastFailure)
    case LossStoreOpen(_) => b.(state := Open)
  }

  /** The verdicts after the rest of an operation, if nobody interferes. */
  function RestVerdicts(cfg: BreakerConfig, s: System, t: ThreadId, clock: nat): map<ThreadId, bool>
    requires t in s.threads
  {
    match s.threads[t]
    case AskLoadState => s.verdicts[t := Admits(cfg, Shared(s), clock)]
    case AskReadClock => s.verdicts[t := ResetDue(cfg, s.lastFailure, clock)]
    case AskLoadLast(now) => s.verdicts[t := ResetDue(cfg, s.lastFailure, now)]
    case AskStoreHalfOpen => s.verdicts[t := true]
    case _ => s.verdicts
  }

  predicate Asks(pc: Pc) {
    pc.AskLoadState? || pc.AskReadClock? || pc.AskLoadLast? || pc.AskStoreHalfOpen?
  }

  ghost predicate KeepsVerdict(cfg: BreakerConfig, s: System, t: ThreadId, clock: nat)
    requires t in s.threads
  {
    var s' := Advance(cfg, s, t, clock);
    RestVerdicts(cfg, s, t, clock) == if t in s'.threads then RestVerdicts(cfg, s', t, clock) else s'.verdicts
  }

  lemma AskFollowsVerdict(cfg: BreakerConfig, s: System, t: ThreadId, clock: nat)
    requires t in s.threads && Asks(s.threads[t])
    ensures KeepsVerdict(cfg, s, t, clock)
  {
  }

  lemma OthersReturnNothing(cfg: BreakerConfig, s: System, t: ThreadId, clock: nat)
    requires t in s.threads && !Asks(s.threads[t])
    ensures KeepsVerdict(cfg, s, t, clock)
  {
    hide ResetDue, Admits;
  }

  lemma StepFollowsVerdict(cfg: BreakerConfig, s: System, t: ThreadId, clock: nat)
    requires t in s.threads
    ensures KeepsVerdict(cfg, s, t, clock)
  {
    hide KeepsVerdict, Asks;
    if Asks(s.threads[t]) {
      AskFollowsVerdict(cfg, s, t, clock);
    } else {
      OthersReturnNothing(cfg, s, t, clock);
    }
  }

  ghost predicate KeepsRest(cfg: BreakerConfig, s: System, t: ThreadId, clock: nat)
    requires t in s.threads
  {
    var s' := Advance(cfg, s, t, clock);
    Rest(cfg, Shared(s), s.threads[t], clock)
    == if t in s'.threads then Rest(cfg, Shared(s'), s'.threads[t], clock) else Shared(s')
  }

  lemma AskFollowsRest(cfg: BreakerConfig, s: System, t: ThreadId, clock: nat)
    requires t in s.threads && Asks(s.threads[t])
    ensures KeepsRest(cfg, s, t, clock)
  {
    hide AfterSuccess, AfterFailure;
  }

  lemma SuccessFollowsRest(cfg: BreakerConfig, s: System, t: ThreadId, clock: nat)
    requires t in s.threads && RecordsSuccess(s.threads[t])
    ensures KeepsRest(cfg, s, t, clock)
  {
    hide AfterAdmission, AfterFailure, ResetDue;
  }

  lemma FailureFollowsRest(cfg: BreakerConfig, s: System, t: ThreadId, clock: nat)
    requires t in s.threads && !Asks(s.threads[t]) && !RecordsSuccess(s.threads[t])
    ensures KeepsRest(cfg, s, t, clock)
  {
    hide AfterAdmission, AfterSuccess, ResetDue;
  }

  /** One atomic step leaves the effect of the rest of the operation as it was. */
  lemma StepFollowsRest(cfg: BreakerConfig, s: System, t: ThreadId, clock: nat)
    requires t in s.threads
    ensures KeepsRest(cfg, s, t, clock)
  {
    hide KeepsRest;
    if Asks(s.threads[t]) {
      AskFollowsRest(cfg, s, t, clock);
    } else if RecordsSuccess(s.threads[t]) {
      SuccessFollowsRest(cfg, s, t, clock);
    } else {
      FailureFollowsRest(cfg, s, t, clock);
    }
  }

  ghost predicate MovesOn(s: System, s': System, t: ThreadId)
    requires t in s.threads
  {
    && s'.threads - {t} == s.threads - {t}
    && (t in s'.threads ==> StepsLeft(s'.threads[t]) < StepsLeft(s.threads[t]))
  }

  lemma AskMovesOn(cfg: BreakerConfig, s: System, t: ThreadId, clock: nat)
    requires t in s.threads && Asks(s.threads[t])
    ensures MovesOn(s, Advance(cfg, s, t, clock), t)
  {
    hide ResetDue;
  }

  lemma SuccessMovesOn(cfg: BreakerConfig, s: System, t: ThreadId, clock: nat)
    requires t in s.threads && RecordsSuccess(s.threads[t])
    ensures MovesOn(s, Advance(cfg, s, t, clock), t)
  {
    hide ResetDue;
  }

  lemma FailureMovesOn(cfg: BreakerConfig, s: System, t: ThreadId, clock: nat)
    requires t in s.threads && !Asks(s.threads[t]) && !RecordsSuccess(s.threads[t])
    ensures MovesOn(s, Advance(cfg, s, t, clock), t)
  {
    hide ResetDue;
  }

  /** A step moves its own thread closer to the end of its operation and no other. */
  lemma StepMovesOneThread(cfg: BreakerConfig, s: System, t: ThreadId, clock: nat)
    requires t in s.threads
    ensures MovesOn(s, Advance(cfg, s, t, clock), t)
  {
    hide MovesOn, Asks, RecordsSuccess, Advance;
    if Asks(s.threads[t]) {
      AskMovesOn(cfg, s, t, clock);
    } else if RecordsSuccess(s.threads[t]) {
      SuccessMovesOn(cfg, s, t, clock);
    } else {
      FailureMovesOn(cfg, s, t, clock);
    }
  }

  lemma RepeatOutside(cfg: BreakerConfig, s: System, t: ThreadId, clock: nat, steps: nat)
    requires t !in s.threads
    ensures Repeat(cfg, s, t, clock, steps) == s
    decreases steps
  {
  }

  lemma {:induction false} RepeatFollows(cfg: BreakerConfig, s: System, t: ThreadId, clock: nat, steps: nat)
    requires t in s.threads && steps >= StepsLeft(s.threads[t])
    ensures Repeat(cfg, s, t, clock, steps).threads == s.threads - {t}
    ensures Shared(Repeat(cfg, s, t, clock, steps)) == Rest(cfg, Shared(s), s.threads[t], clock)
    ensures Repeat(cfg, s, t, clock, steps).verdicts == RestVerdicts(cfg, s, t, clock)
    decreases steps
  {
    hide Rest, RestVerdicts, StepsLeft, Advance;
    var s' := Step(cfg, s, Continue(t, clock));
    StepFollowsVerdict(cfg, s, t, clock);
    StepFollowsRest(cfg, s, t, clock);
    StepMovesOneThread(cfg, s, t, clock);
    if t in s'.threads {
      RepeatFollows(cfg, s', t, clock, steps - 1);
    } else {
      RepeatOutside(cfg, s', t, clock, steps - 1);
      assert s'.threads == s'.threads - {t};
    }
  }

  /** Uninterrupted, the atomic steps perform exactly the sequential operation and return what it
      returns, in any context of other threads that are stopped in the middle of their own operations. */
  lemma {:induction false} SoloIsSequential(cfg: BreakerConfig, s: System, t: ThreadId, operation: Operation,
                                            clock: nat)
    requires t !in s.threads
    ensures Solo(cfg, s, t, operation, clock).threads == s.threads
    ensures Shared(Solo(cfg, s, t, operation, clock)) == Sequentially(cfg, Shared(s), operation, clock)
    ensures Solo(cfg, s, t, operation, clock).verdicts
         == if operation.CanExecute? then s.verdicts[t := Admits(cfg, Shared(s), clock)] else s.verdicts
  {
    var entered := Step(cfg, s, Enter(t, operation));
    RepeatFollows(cfg, entered, t, clock, 5);
    assert entered.threads - {t} == s.threads;
  }

  /** The moves of an operation with nobody in between. */
  function Alone(t: ThreadId, operation: Operation): seq<Move> {
    var go := Continue(t, 0);
    [Enter(t, operation), go, go, go, go, go]
  }

  lemma AloneRunsSolo(cfg: BreakerConfig, schedule: seq<Move>, t: ThreadId, operation: Operation)
    ensures Run(cfg, schedule + Alone(t, operation)) == Solo(cfg, Run(cfg, schedule), t, operation, 0)
  {
    var moves := Alone(t, operation);
    RunOneMore(cfg, schedule, moves[0]);
    RunContinues(cfg, schedule + [moves[0]], t, 5);
    assert schedule + [moves[0]] + Continues(t, 5) == schedule + moves;
  }

  function Continues(t: ThreadId, n: nat): seq<Move> {
    seq(n, _ => Continue(t, 0))
  }

  lemma {:induction false} RunContinues(cfg: BreakerConfig, schedule: seq<Move>, t: ThreadId, n: nat)
    ensures Run(cfg, schedule + Continues(t, n)) == Repeat(cfg, Run(cfg, schedule), t, 0, n)
    decreases n
  {
    if n == 0 {
      assert schedule + Continues(t, 0) == schedule;
    } else {
      RunOneMore(cfg, schedule, Continue(t, 0));
      RunContinues(cfg, schedule + [Continue(t, 0)], t, n - 1);
      assert schedule + [Continue(t, 0)] + Continues(t, n - 1) == schedule + Continues(t, n);
    }
  }

  // ---------------------------------------------------------------------------
  // Schedules of callers that ask the gate before they record an outcome.

  function LastEntered(schedule: seq<Move>, t: ThreadId): Option<Operation> {
    if schedule == [] then None
    else
      var last := schedule[|schedule| - 1];
      if last.Enter? && last.thread == t then Some(last.operation)
      else LastEntered(schedule[..|schedule| - 1], t)
  }

  /** `t` is outside every operation, and the last thing it did was to be let through the gate. */
  predicate WasAdmitted(cfg: BreakerConfig, schedule: seq<Move>, t: ThreadId) {
    && LastEntered(schedule, t) == Some(CanExecute)
    && var s := Run(cfg, schedule); t !in s.threads && t in s.verdicts && s.verdicts[t]
  }

  /** Threads enter operations only from outside, and record an outcome only after an admission of
      their own; each admission serves one outcome. */
  predicate Gated(cfg: BreakerConfig, schedule: seq<Move>) {
    schedule != [] ==>
      var earlier, last := schedule[..|schedule| - 1], schedule[|schedule| - 1];
      && Gated(cfg, earlier)
      && (last.Enter? ==> last.thread !in Run(cfg, earlier).threads)
      && (last.Enter? && !last.operation.CanExecute? ==> WasAdmitted(cfg, earlier, last.thread))
  }

  function NowEntered(schedule: seq<Move>, move: Move, t: ThreadId): Option<Operation> {
    if move.Enter? && move.thread == t then Some(move.operation) else LastEntered(schedule, t)
  }

  lemma GatedOneMore(cfg: BreakerConfig, schedule: seq<Move>, move: Move)
    requires Gated(cfg, schedule)
    requires move.Enter? ==> move.thread !in Run(cfg, schedule).threads
    requires move.Enter? && !move.operation.CanExecute? ==> WasAdmitted(cfg, schedule, move.thread)
    ensures Gated(cfg, schedule + [move])
    ensures forall t :: LastEntered(schedule + [move], t) == NowEntered(schedule, move, t)
  {
    hide Run, WasAdmitted;
    assert (schedule + [move])[..|schedule|] == schedule;
  }

  lemma {:induction false} GatedContinues(cfg: BreakerConfig, schedule: seq<Move>, t: ThreadId, n: nat)
    requires Gated(cfg, schedule)
    ensures Gated(cfg, schedule + Continues(t, n))
    ensures LastEntered(schedule + Continues(t, n), t) == LastEntered(schedule, t)
    decreases n
  {
    hide Gated, LastEntered, Run;
    if n == 0 {
      assert schedule + Continues(t, 0) == schedule;
    } else {
      GatedOneMore(cfg, schedule, Continue(t, 0));
      GatedContinues(cfg, schedule + [Continue(t, 0)], t, n - 1);
      assert schedule + [Continue(t, 0)] + Continues(t, n - 1) == schedule + Continues(t, n);
    }
  }

  lemma GatedAlone(cfg: BreakerConfig, schedule: seq<Move>, t: ThreadId, operation: Operation)
    requires Gated(cfg, schedule) && t !in Run(cfg, schedule).threads
    requires !operation.CanExecute? ==> WasAdmitted(cfg, schedule, t)
    ensures Gated(cfg, schedule + Alone(t, operation))
    ensures LastEntered(schedule + Alone(t, operation), t) == Some(operation)
  {
    hide Gated, LastEntered, Run, WasAdmitted;
    var moves := Alone(t, operation);
    GatedOneMore(cfg, schedule, moves[0]);
    GatedContinues(cfg, schedule + [moves[0]], t, 5);
    assert schedule + [moves[0]] + Continues(t, 5) == schedule + moves;
  }

  /** A thread asks the gate of a closed circuit with nobody in between. */
  lemma AskedAlone(cfg: BreakerConfig, schedule: seq<Move>, t: ThreadId) returns (longer: seq<Move>)
    requires Gated(cfg, schedule) && t !in Run(cfg, schedule).threads && Run(cfg, schedule).state.Closed?
    ensures Gated(cfg, longer) && WasAdmitted(cfg, longer, t)
    ensures Shared(Run(cfg, longer)) == Shared(Run(cfg, schedule))
    ensures Run(cfg, longer).threads == Run(cfg, schedule).threads
  {
    hide Run, Gated, LastEntered, Solo, Alone;
    longer := schedule + Alone(t, CanExecute);
    AloneRunsSolo(cfg, schedule, t, CanExecute);
    SoloIsSequential(cfg, Run(cfg, schedule), t, CanExecute, 0);
    GatedAlone(cfg, schedule, t, CanExecute);
  }

  const SUCCEEDER: ThreadId := 0
  const FAILER: ThreadId := 1

  /** After any schedule that left the circuit closed with no failures counted, one caller is
      admitted and fails, up to threshold-many times, wherever the other threads are. */
  lemma {:induction false} FailuresPileUp(cfg: BreakerConfig, before: seq<Move>, failures: nat)
    returns (schedule: seq<Move>)
    requires Gated(cfg, before) && FAILER !in Run(cfg, before).threads
    requires Run(cfg, before).state.Closed? && Run(cfg, before).failureCount == 0
    requires failures <= AtLeastOne(cfg.failureThreshold)
    ensures var s := Run(cfg, schedule);
      && s.threads == Run(cfg, before).threads && s.failureCount == failures
      && s.state == (if failures == AtLeastOne(cfg.failureThreshold) then Open else Closed)
      && (failures > 0 ==> s.lastFailure == 0)
    ensures Gated(cfg, schedule)
    decreases failures
  {
    hide Run, Gated, LastEntered, Solo, Alone;
    if failures == 0 {
      schedule := before;
    } else {
      var earlier := FailuresPileUp(cfg, before, failures - 1);
      var asked := AskedAlone(cfg, earlier, FAILER);
      schedule := asked + Alone(FAILER, RecordFailure);
      AloneRunsSolo(cfg, asked, FAILER, RecordFailure);
      SoloIsSequential(cfg, Run(cfg, asked), FAILER, RecordFailure, 0);
      GatedAlone(cfg, asked, FAILER, RecordFailure);
    }
  }

  /** The next moves of a thread, one at a time. */
  lemma MakesMove(cfg: BreakerConfig, schedule: seq<Move>, t: ThreadId, clock: nat) returns (longer: seq<Move>)
    requires Gated(cfg, schedule) && t in Run(cfg, schedule).threads
    ensures longer == schedule + [Continue(t, clock)]
    ensures Gated(cfg, longer) && Run(cfg, longer) == Advance(cfg, Run(cfg, schedule), t, clock)
  {
    hide Gated, LastEntered, Advance;
    longer := schedule + [Continue(t, clock)];
    GatedOneMore(cfg, schedule, Continue(t, clock));
    RunOneMore(cfg, schedule, Continue(t, clock));
  }

  lemma Begins(cfg: BreakerConfig, schedule: seq<Move>, t: ThreadId, operation: Operation)
    returns (longer: seq<Move>)
    requires Gated(cfg, schedule) && t !in Run(cfg, schedule).threads
    requires !operation.CanExecute? ==> WasAdmitted(cfg, schedule, t)
    ensures Gated(cfg, longer) && Run(cfg, longer) == At(Run(cfg, schedule), t, EntryPoint(operation))
  {
    hide Gated, LastEntered;
    longer := schedule + [Enter(t, operation)];
    GatedOneMore(cfg, schedule, Enter(t, operation));
    RunOneMore(cfg, schedule, Enter(t, operation));
  }

  /** For every threshold, callers that always ask the gate first can reach a state that is quiescent
      and open with no failures counted: a success that loaded closed before the trip zeroes the
      count after it. `GatedUsesFollowHistory` excludes that for one caller at a time. */
  lemma {:induction false} StaleSuccessErasesTrip(cfg: BreakerConfig) returns (schedule: seq<Move>)
    ensures Gated(cfg, schedule)
    ensures var s := Run(cfg, schedule);
      s.threads == map[] && s.state.Open? && s.failureCount == 0
  {
    hide Gated, LastEntered, Run;
    StartsGated(cfg);
    var asked := AskedAlone(cfg, [], SUCCEEDER);
    var entered := Begins(cfg, asked, SUCCEEDER, RecordSuccess);
    var loaded := MakesMove(cfg, entered, SUCCEEDER, 0);
    var tripped := FailuresPileUp(cfg, loaded, AtLeastOne(cfg.failureThreshold));
    schedule := MakesMove(cfg, tripped, SUCCEEDER, 0);
  }

  lemma StartsGated(cfg: BreakerConfig)
    ensures Gated(cfg, []) && Run(cfg, []) == INITIAL
  {
  }

  /** For every threshold, a closed circuit can have counted threshold-many failures: the state that
      `OverfullIsTransient` speaks of occurs, also when every caller asks the gate first. */
  lemma {:induction false} OverfullHappens(cfg: BreakerConfig) returns (schedule: seq<Move>)
    ensures Gated(cfg, schedule)
    ensures var s := Run(cfg, schedule);
      && s.state.Closed? && s.failureCount == AtLeastOne(cfg.failureThreshold)
      && s.threads == map[FAILER := LossStoreOpen(true)]
  {
    hide Gated, LastEntered, Run;
    StartsGated(cfg);
    var almost := FailuresPileUp(cfg, [], AtLeastOne(cfg.failureThreshold) - 1);
    var asked := AskedAlone(cfg, almost, FAILER);
    schedule := Begins(cfg, asked, FAILER, RecordFailure);
    schedule := MakesMove(cfg, schedule, FAILER, 0);
    schedule := MakesMove(cfg, schedule, FAILER, 0);
    schedule := MakesMove(cfg, schedule, FAILER, 0);
    schedule := MakesMove(cfg, schedule, FAILER, 0);
  }

  // ---------------------------------------------------------------------------
  // Admissions while half-open.

  /** While the circuit is half-open every thread that asks is let through, wherever the others
      are inside their operations. */
  lemma {:induction false} HalfOpenAdmitsEveryThread(cfg: BreakerConfig, schedule: seq<Move>, first: ThreadId, n: nat)
    returns (longer: seq<Move>)
    requires Run(cfg, schedule).state.HalfOpen?
    requires forall t: nat | first <= t < first + n :: t !in Run(cfg, schedule).threads
    ensures var s, s' := Run(cfg, schedule), Run(cfg, longer);
      && schedule <= longer && Shared(s') == Shared(s) && s'.threads == s.threads
      && forall t: nat | first <= t < first + n :: t in s'.verdicts && s'.verdicts[t]
    decreases n
  {
    if n == 0 {
      longer := schedule;
    } else {
      var earlier := HalfOpenAdmitsEveryThread(cfg, schedule, first, n - 1);
      var t := first + n - 1;
      longer := earlier + Alone(t, CanExecute);
      AloneRunsSolo(cfg, earlier, t, CanExecute);
      SoloIsSequential(cfg, Run(cfg, earlier), t, CanExecute, 0);
    }
  }

  lemma RunOneMore(cfg: BreakerConfig, schedule: seq<Move>, move: Move)
    ensures Run(cfg, schedule + [move]) == Step(cfg, Run(cfg, schedule), move)
  {
    assert (schedule + [move])[..|schedule|] == schedule;
  }
}
