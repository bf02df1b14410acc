/** What one atomic step of the breaker touches, and what a verdict or a stored time rests on when
    other threads interfere. */
module BreakerMoves {
  import opened Prelude
  import opened CircuitBreaker
  import opened BreakerThreads

  // ---------------------------------------------------------------------------
  // Every step touches one variable.

  datatype Variable = TheClock | TheState | TheCount | TheLastFailure

  function Touched(pc: Pc): Variable {
    match pc
    case AskLoadState => TheState
    case AskReadClock => TheClock
    case AskLoadLast(_) => TheLastFailure
    case AskStoreHalfOpen => TheState
    case WinLoadState => TheState
    case WinStoreClosed => TheState
    case WinStoreZero => TheCount
    case LossReadClock => TheClock
    case LossStoreLast(_) => TheLastFailure
    case LossLoadState => TheState
    case LossFetchAdd => TheCount
    case LossStoreOpen(_) => TheState
  }

  predicate SameIn(v: Variable, s: System, u: System) {
    match v
    case TheClock => true
    case TheState => s.state == u.state
    case TheCount => s.failureCount == u.failureCount
    case TheLastFailure => s.lastFailure == u.lastFailure
  }

  /** Where a thread is, and what can_execute last returned to it. */
  datatype Fate = Fate(place: Option<Pc>, verdict: Option<bool>)

  function FateOf(s: System, t: ThreadId): Fate {
    Fate(if t in s.threads then Some(s.threads[t]) else None,
         if t in s.verdicts then Some(s.verdicts[t]) else None)
  }

  /** A step is one access to one variable: what becomes of its thread, and the new value of that
      variable, are the same in both systems, and the other variables are left alone. */
  ghost predicate SingleAccess(cfg: BreakerConfig, s: System, u: System, t: ThreadId, clock: nat, other: nat)
    requires t in s.threads && t in u.threads
  {
    var v, s', u' := Touched(s.threads[t]), Advance(cfg, s, t, clock), Advance(cfg, u, t, other);
    && FateOf(s', t) == FateOf(u', t)
    && SameIn(v, s', u')
    && (v != TheState ==> s'.state == s.state)
    && (v != TheCount ==> s'.failureCount == s.failureCount)
    && (v != TheLastFailure ==> s'.lastFailure == s.lastFailure)
  }

  /** The two systems put the thread in the same place and agree in the one variable it touches; of a
      clock reading they agree only if the thread reads the clock. */
  predicate LookAlike(s: System, u: System, t: ThreadId, clock: nat, other: nat) {
    && t in s.threads && FateOf(s, t) == FateOf(u, t)
    && SameIn(Touched(s.threads[t]), s, u)
    && (Touched(s.threads[t]).TheClock? ==> clock == other)
  }

  lemma AsksAreSingle(cfg: BreakerConfig, s: System, u: System, t: ThreadId, clock: nat, other: nat)
    requires LookAlike(s, u, t, clock, other) && Asks(s.threads[t])
    ensures t in u.threads && SingleAccess(cfg, s, u, t, clock, other)
  {
    hide ResetDue;
    assert s.threads[t].AskLoadLast? ==>
      ResetDue(cfg, s.lastFailure, s.threads[t].now) == ResetDue(cfg, u.lastFailure, u.threads[t].now);
  }

  lemma SuccessesAreSingle(cfg: BreakerConfig, s: System, u: System, t: ThreadId, clock: nat, other: nat)
    requires LookAlike(s, u, t, clock, other) && RecordsSuccess(s.threads[t])
    ensures t in u.threads && SingleAccess(cfg, s, u, t, clock, other)
  {
    hide ResetDue;
  }

  lemma FailuresAreSingle(cfg: BreakerConfig, s: System, u: System, t: ThreadId, clock: nat, other: nat)
    requires LookAlike(s, u, t, clock, other) && !Asks(s.threads[t]) && !RecordsSuccess(s.threads[t])
    ensures t in u.threads && SingleAccess(cfg, s, u, t, clock, other)
  {
    hide ResetDue;
  }

  /** Every step of every thread in every system is one access to one variable: what it does depends
      on that variable alone, whatever the clock shows and the other variables hold. */
  lemma {:induction false} StepsAreSingleAccesses(cfg: BreakerConfig, s: System, u: System, t: ThreadId,
                                                  clock: nat, other: nat)
    requires LookAlike(s, u, t, clock, other)
    ensures t in u.threads && SingleAccess(cfg, s, u, t, clock, other)
  {
    hide LookAlike, SingleAccess, Asks, RecordsSuccess;
    InPlace(s, u, t, clock, other);
    if Asks(s.threads[t]) {
      AsksAreSingle(cfg, s, u, t, clock, other);
    } else if RecordsSuccess(s.threads[t]) {
      SuccessesAreSingle(cfg, s, u, t, clock, other);
    } else {
      FailuresAreSingle(cfg, s, u, t, clock, other);
    }
  }

  lemma InPlace(s: System, u: System, t: ThreadId, clock: nat, other: nat)
    requires LookAlike(s, u, t, clock, other)
    ensures t in s.threads && t in u.threads
  {
  }

  // ---------------------------------------------------------------------------
  // What a place in an operation says about the past of its thread.

  /** The last move of the schedule that is a step of `t`. */
  function LastStep(cfg: BreakerConfig, schedule: seq<Move>, t: ThreadId): Option<nat> {
    if schedule == [] then None
    else
      var n := |schedule| - 1;
      if schedule[n].Continue? && schedule[n].thread == t && t in Run(cfg, schedule[..n]).threads then Some(n)
      else LastStep(cfg, schedule[..n], t)
  }

  lemma {:induction false} LastStepIsStep(cfg: BreakerConfig, schedule: seq<Move>, t: ThreadId)
    ensures var last := LastStep(cfg, schedule, t);
      last.Some? ==> last.value < |schedule| && schedule[last.value].Continue? && schedule[last.value].thread == t
  {
    if schedule != [] {
      LastStepIsStep(cfg, schedule[..|schedule| - 1], t);
    }
  }

  /** In its last step the thread could find the circuit in this state. */
  predicate Found(cfg: BreakerConfig, schedule: seq<Move>, t: ThreadId, state: State) {
    LastStepIsStep(cfg, schedule, t);
    var last := LastStep(cfg, schedule, t);
    last.Some? && Run(cfg, schedule[..last.value]).state == state
  }

  /** In its last step the thread could read this time. */
  predicate CouldRead(cfg: BreakerConfig, schedule: seq<Move>, t: ThreadId, x: nat) {
    LastStepIsStep(cfg, schedule, t);
    var last := LastStep(cfg, schedule, t);
    last.Some? && schedule[last.value].clock == x
  }

  /** It read this time in its last step, after it had found the circuit open in the step before. */
  predicate ReadAfterOpen(cfg: BreakerConfig, schedule: seq<Move>, t: ThreadId, x: nat) {
    LastStepIsStep(cfg, schedule, t);
    CouldRead(cfg, schedule, t, x) && Found(cfg, schedule[..LastStep(cfg, schedule, t).value], t, Open)
  }

  /** In its last step it saw that the last failure was a recovery timeout before the time that it had
      read in the step before that. */
  ghost predicate SawTimeout(cfg: BreakerConfig, schedule: seq<Move>, t: ThreadId) {
    LastStepIsStep(cfg, schedule, t);
    var last := LastStep(cfg, schedule, t);
    last.Some? && exists x ::
      && ReadAfterOpen(cfg, schedule[..last.value], t, x)
      && SaturatingSub(x, Run(cfg, schedule[..last.value]).lastFailure) >= cfg.recoveryMs
  }

  ghost predicate HasPast(cfg: BreakerConfig, schedule: seq<Move>, t: ThreadId, pc: Pc) {
    match pc
    case AskReadClock => Found(cfg, schedule, t, Open)
    case AskLoadLast(now) => ReadAfterOpen(cfg, schedule, t, now)
    case AskStoreHalfOpen => SawTimeout(cfg, schedule, t)
    case WinStoreClosed => Found(cfg, schedule, t, HalfOpen)
    case LossStoreLast(now) => CouldRead(cfg, schedule, t, now)
    case LossFetchAdd => Found(cfg, schedule, t, Closed)
    case _ => true
  }

  lemma PastStays(cfg: BreakerConfig, earlier: seq<Move>, move: Move, t: ThreadId, pc: Pc)
    requires HasPast(cfg, earlier, t, pc)
    requires !(move.Continue? && move.thread == t && t in Run(cfg, earlier).threads)
    ensures HasPast(cfg, earlier + [move], t, pc)
  {
    hide Run;
    var schedule := earlier + [move];
    assert schedule[..|earlier|] == earlier;
    LastStepIsStep(cfg, earlier, t);
    var last := LastStep(cfg, earlier, t);
    assert LastStep(cfg, schedule, t) == last;
    if last.Some? {
      assert schedule[..last.value] == earlier[..last.value] && schedule[last.value] == earlier[last.value];
      if pc.AskStoreHalfOpen? {
        var x :| ReadAfterOpen(cfg, earlier[..last.value], t, x)
                 && SaturatingSub(x, Run(cfg, earlier[..last.value]).lastFailure) >= cfg.recoveryMs;
        assert ReadAfterOpen(cfg, schedule[..last.value], t, x);
      }
    }
  }

  lemma PastGrows(cfg: BreakerConfig, earlier: seq<Move>, t: ThreadId, clock: nat)
    requires t in Run(cfg, earlier).threads && HasPast(cfg, earlier, t, Run(cfg, earlier).threads[t])
    requires t in Advance(cfg, Run(cfg, earlier), t, clock).threads
    ensures HasPast(cfg, earlier + [Continue(t, clock)], t, Advance(cfg, Run(cfg, earlier), t, clock).threads[t])
  {
    hide Run;
    var schedule := earlier + [Continue(t, clock)];
    assert schedule[..|earlier|] == earlier;
    assert LastStep(cfg, schedule, t) == Some(|earlier|);
  }

  /** The place of a thread tells what it has seen, under every interleaving. */
  lemma {:induction false} PlaceTellsPast(cfg: BreakerConfig, schedule: seq<Move>, t: ThreadId)
    requires t in Run(cfg, schedule).threads
    ensures HasPast(cfg, schedule, t, Run(cfg, schedule).threads[t])
  {
    hide HasPast, Advance;
    var n := |schedule| - 1;
    var earlier, move := schedule[..n], schedule[n];
    assert schedule == earlier + [move];
    if t in Run(cfg, earlier).threads {
      PlaceTellsPast(cfg, earlier, t);
      if move.Continue? && move.thread == t {
        PastGrows(cfg, earlier, t, move.clock);
      } else {
        StepLeavesOrWaits(cfg, Run(cfg, earlier), move, t);
        PastStays(cfg, earlier, move, t, Run(cfg, earlier).threads[t]);
      }
    } else {
      NewcomersHaveNoPast(cfg, schedule, Run(cfg, earlier), move, t);
    }
  }

  lemma StepLeavesOrWaits(cfg: BreakerConfig, s: System, move: Move, t: ThreadId)
    requires t in s.threads && !(move.Continue? && move.thread == t)
    ensures var s' := Step(cfg, s, move);
      t in s'.threads && s'.threads[t] == s.threads[t]
  {
    hide Advance;
    if move.thread != t {
      StepLeavesOthers(cfg, s, move, t);
    }
  }

  lemma NewcomersHaveNoPast(cfg: BreakerConfig, schedule: seq<Move>, s: System, move: Move, t: ThreadId)
    requires t !in s.threads && t in Step(cfg, s, move).threads
    ensures HasPast(cfg, schedule, t, Step(cfg, s, move).threads[t])
  {
    hide Advance;
    if move.thread != t {
      StepLeavesOthers(cfg, s, move, t);
    }
  }

  // ---------------------------------------------------------------------------
  // Verdicts and stored times.

  /** The thread is inside can_execute and leaves it with this answer in its next step. */
  predicate Answers(cfg: BreakerConfig, schedule: seq<Move>, t: ThreadId, clock: nat, answer: bool) {
    var s, s' := Run(cfg, schedule), Run(cfg, schedule + [Continue(t, clock)]);
    && t in s.threads && Asks(s.threads[t])
    && t !in s'.threads && t in s'.verdicts && s'.verdicts[t] == answer
  }

  /** Under every interleaving: a thread is refused only if the time that it read in its step before
      is less than a recovery timeout after the failure that is the last one now, and it found the
      circuit open in the step before that. */
  lemma {:induction false} RefusalsCompareReadings(cfg: BreakerConfig, schedule: seq<Move>, t: ThreadId, clock: nat)
    requires Answers(cfg, schedule, t, clock, false)
    ensures exists x ::
      && ReadAfterOpen(cfg, schedule, t, x)
      && SaturatingSub(x, Run(cfg, schedule).lastFailure) < cfg.recoveryMs
  {
    PlaceTellsPast(cfg, schedule, t);
    RunOneMore(cfg, schedule, Continue(t, clock));
    RefusesOnlyAfterLoad(cfg, Run(cfg, schedule), t, clock);
  }

  lemma RefusesOnlyAfterLoad(cfg: BreakerConfig, s: System, t: ThreadId, clock: nat)
    requires t in s.threads && Asks(s.threads[t])
    requires var s' := Advance(cfg, s, t, clock); t !in s'.threads && t in s'.verdicts && !s'.verdicts[t]
    ensures s.threads[t].AskLoadLast? && SaturatingSub(s.threads[t].now, s.lastFailure) < cfg.recoveryMs
  {
  }

  /** And it is admitted only if the circuit is not open now, or if it found it open, read the time and
      saw the last failure a recovery timeout before that, in this order. */
  lemma {:induction false} AdmissionsCompareReadings(cfg: BreakerConfig, schedule: seq<Move>, t: ThreadId, clock: nat)
    requires Answers(cfg, schedule, t, clock, true)
    ensures !Run(cfg, schedule).state.Open? || SawTimeout(cfg, schedule, t)
  {
    PlaceTellsPast(cfg, schedule, t);
    RunOneMore(cfg, schedule, Continue(t, clock));
    if Run(cfg, schedule).state.Open? {
      AdmitsOnlyAfterTimeout(cfg, Run(cfg, schedule), t, clock);
    }
  }

  lemma AdmitsOnlyAfterTimeout(cfg: BreakerConfig, s: System, t: ThreadId, clock: nat)
    requires t in s.threads && Asks(s.threads[t]) && s.state.Open?
    requires var s' := Advance(cfg, s, t, clock); t !in s'.threads && t in s'.verdicts && s'.verdicts[t]
    ensures s.threads[t].AskStoreHalfOpen?
  {
  }

  /** Whenever the time of the last failure changes, it becomes the time that the storing thread read
      in its step before. */
  lemma {:induction false} StoredTimesWereRead(cfg: BreakerConfig, schedule: seq<Move>, move: Move)
    requires Run(cfg, schedule + [move]).lastFailure != Run(cfg, schedule).lastFailure
    ensures move.Continue? && CouldRead(cfg, schedule, move.thread, Run(cfg, schedule + [move]).lastFailure)
  {
    RunOneMore(cfg, schedule, move);
    StoresOnlyReading(cfg, Run(cfg, schedule), move);
    PlaceTellsPast(cfg, schedule, move.thread);
  }

  lemma StoresOnlyReading(cfg: BreakerConfig, s: System, move: Move)
    requires Step(cfg, s, move).lastFailure != s.lastFailure
    ensures move.Continue? && move.thread in s.threads
    ensures s.threads[move.thread] == LossStoreLast(Step(cfg, s, move).lastFailure)
  {
    hide ResetDue;
  }

  // ---------------------------------------------------------------------------
  // The steps in between matter.

  const ASKER: ThreadId := 2
  const SLOW: ThreadId := 3

  /** The circuit is open since time 0; `ASKER` has found it open and read a time one recovery timeout
      later; `SLOW`, admitted before the trip, is about to report its own failure. */
  ghost predicate IsTorn(cfg: BreakerConfig, schedule: seq<Move>) {
    var s := Run(cfg, schedule);
    && Gated(cfg, schedule)
    && s.state.Open? && s.lastFailure == 0
    && ASKER in s.threads && s.threads[ASKER] == AskLoadLast(cfg.recoveryMs)
    && SLOW in s.threads && s.threads[SLOW] == LossReadClock
  }

  lemma {:induction false} TornHappens(cfg: BreakerConfig) returns (schedule: seq<Move>)
    ensures IsTorn(cfg, schedule)
  {
    hide Gated, LastEntered, Run;
    StartsGated(cfg);
    schedule := AskedAlone(cfg, [], SLOW);
    schedule := Begins(cfg, schedule, SLOW, RecordFailure);
    schedule := FailuresPileUp(cfg, schedule, AtLeastOne(cfg.failureThreshold));
    schedule := Begins(cfg, schedule, ASKER, CanExecute);
    schedule := MakesMove(cfg, schedule, ASKER, 0);
    schedule := MakesMove(cfg, schedule, ASKER, cfg.recoveryMs);
  }

  /** For every threshold, among callers that all ask the gate first: a thread that has read the clock
      is admitted if it goes on undisturbed, and refused if another thread stores a later failure
      before it loads the time of the last one. */
  lemma {:induction false} LateFailureRefuses(cfg: BreakerConfig)
    returns (torn: seq<Move>, alone: seq<Move>, disturbed: seq<Move>)
    requires cfg.recoveryMs > 0
    ensures torn <= alone && torn <= disturbed && Gated(cfg, alone) && Gated(cfg, disturbed)
    ensures alone == torn + [Continue(ASKER, cfg.recoveryMs)]
    ensures disturbed == torn + [Continue(SLOW, cfg.recoveryMs + 1)] + [Continue(SLOW, cfg.recoveryMs + 1)]
    ensures Answers(cfg, alone, ASKER, cfg.recoveryMs, true)
    ensures Answers(cfg, disturbed, ASKER, cfg.recoveryMs + 1, false)
  {
    hide Gated, LastEntered, Run;
    torn := TornHappens(cfg);
    alone := MakesMove(cfg, torn, ASKER, cfg.recoveryMs);
    RunOneMore(cfg, alone, Continue(ASKER, cfg.recoveryMs));
    disturbed := MakesMove(cfg, torn, SLOW, cfg.recoveryMs + 1);
    disturbed := MakesMove(cfg, disturbed, SLOW, cfg.recoveryMs + 1);
    RunOneMore(cfg, disturbed, Continue(ASKER, cfg.recoveryMs + 1));
  }

  /** For every configuration, among callers that all ask the gate first: a thread that read the clock
      earlier stores its time over a later one, so that the time of the last failure goes back. */
  lemma {:induction false} LastFailureGoesBack(cfg: BreakerConfig) returns (schedule: seq<Move>, move: Move)
    ensures Gated(cfg, schedule + [move])
    ensures Run(cfg, schedule).lastFailure == 2 && Run(cfg, schedule + [move]).lastFailure == 1
    ensures Run(cfg, schedule + [move]).state.Closed?
  {
    hide Gated, LastEntered, Run;
    StartsGated(cfg);
    schedule := AskedAlone(cfg, [], SLOW);
    schedule := Begins(cfg, schedule, SLOW, RecordFailure);
    schedule := AskedAlone(cfg, schedule, FAILER);
    schedule := Begins(cfg, schedule, FAILER, RecordFailure);
    schedule := MakesMove(cfg, schedule, SLOW, 1);
    schedule := MakesMove(cfg, schedule, FAILER, 2);
    schedule := MakesMove(cfg, schedule, FAILER, 2);
    move := Continue(SLOW, 2);
    var longer := MakesMove(cfg, schedule, SLOW, 2);
  }
}
