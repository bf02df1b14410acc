/** What loop detection guarantees about the tool calls of every run. */
module LoopLaws {
  import opened Prelude
  import opened LoopDetector
  import opened ToolRegistry
  import opened ExecutorModel

  /** The dispatched sequence, as the detector sees it. */
  function Hashes(c: Config, calls: seq<Call>): (hashes: seq<nat>)
    ensures |hashes| == |calls|
  {
    seq(|calls|, i requires 0 <= i < |calls| => HashOf(c, calls[i]))
  }

  lemma HashesOfAppend(c: Config, calls: seq<Call>, call: Call)
    ensures Hashes(c, calls + [call]) == Hashes(c, calls) + [HashOf(c, call)]
  {
  }

  // ---------------------------------------------------------------------------
  // The invariant.

  /** Before each call that was made, the window of the calls before it showed no loop. */
  ghost predicate NoLoopBefore(c: Config, hashes: seq<nat>) {
    forall k: nat | k < |hashes| :: !Loops(LastN(hashes[..k], c.Window()), c.repeatThreshold)
  }

  ghost predicate LoopBook(c: Config, r: Run) {
    && LoopIsNews(c, r)
    && r.window == LastN(Hashes(c, r.calls), c.Window())
    && NoLoopBefore(c, Hashes(c, r.calls))
    && (r.phase.Finished? && r.phase.verdict.Err? && r.phase.verdict.error.Loop? ==>
          IsReport(r.window, c.repeatThreshold, r.phase.verdict.error.report))
  }

  lemma NoLoopAppend(c: Config, hashes: seq<nat>, hash: nat)
    requires NoLoopBefore(c, hashes) && !Loops(LastN(hashes, c.Window()), c.repeatThreshold)
    ensures NoLoopBefore(c, hashes + [hash])
  {
    var longer := hashes + [hash];
    forall k: nat | k < |longer|
      ensures !Loops(LastN(longer[..k], c.Window()), c.repeatThreshold)
    {
      assert longer[..k] == hashes[..k];
      if k == |hashes| {
        assert hashes[..k] == hashes;
      }
    }
  }

  /** Only the loop check returns a loop, and it returns what the detector may report. */
  lemma NextLoopVerdict(c: Config, w: World, r: Run)
    requires !r.phase.Finished?
    ensures var next := Next(c, w, r);
      next.phase.Finished? && next.phase.verdict.Err? && next.phase.verdict.error.Loop? ==>
        && next.window == r.window
        && IsReport(r.window, c.repeatThreshold, next.phase.verdict.error.report)
  {
  }

  lemma NextKeepsLoopBook(c: Config, w: World, r: Run)
    requires LoopBook(c, r) && !r.phase.Finished?
    ensures LoopBook(c, Next(c, w, r))
  {
    hide Consult, Decide, AfterReply, Next;
    var next := Next(c, w, r);
    NextCalls(c, w, r);
    NextLoopVerdict(c, w, r);
    FollowingKeepsLoopNews(c, w, r, next);
    if r.phase.Dispatching? && !Loops(r.window, c.repeatThreshold) {
      var hash := HashOf(c, PendingCall(w, r));
      HashesOfAppend(c, r.calls, PendingCall(w, r));
      SlideIsLastN(Hashes(c, r.calls), c.windowSize, hash);
      NoLoopAppend(c, Hashes(c, r.calls), hash);
    }
  }

  lemma {:induction false} CompleteKeepsLoopBook(c: Config, w: World, r: Run)
    requires InRange(c, r) && LoopBook(c, r)
    ensures LoopBook(c, Complete(c, w, r))
    decreases c.maxIterations - r.iteration, Rank(c, r)
  {
    hide Next;
    if !r.phase.Finished? {
      NextDescends(c, w, r);
      NextKeepsLoopBook(c, w, r);
      CompleteKeepsLoopBook(c, w, Next(c, w, r));
    }
  }

  lemma RunsKeepLoopBook(c: Config, w: World, registry: Registry, goal: string)
    ensures LoopBook(c, Execute(c, w, registry, goal))
  {
    CompleteKeepsLoopBook(c, w, Start(c, registry, goal));
  }

  lemma NoLoopSeenBefore(c: Config, r: Run, k: nat)
    requires LoopBook(c, r) && k < |r.calls|
    ensures !Loops(LastN(Hashes(c, r.calls)[..k], c.Window()), c.repeatThreshold)
  {
    hide Loops, IsReport, LoopIsNews;
  }

  // ---------------------------------------------------------------------------
  // Counting in windows.

  lemma InnerWindowsAreLow(c: Config, hashes: seq<nat>, i: nat, j: nat, h: nat)
    requires NoLoopBefore(c, hashes)
    requires i <= j < |hashes| && j - i <= c.Window()
    ensures multiset(hashes[i..j])[h] < c.Threshold()
  {
    var window := LastN(hashes[..j], c.Window());
    NoLoopBoundsCount(window, c.repeatThreshold, h);
    var offset := i - (j - |window|);
    assert window[offset..|window|] == hashes[i..j];
    SliceCountsAtMost(window, offset, |window|, h);
  }

  lemma WindowsAreLow(c: Config, hashes: seq<nat>, i: nat, j: nat, h: nat)
    requires NoLoopBefore(c, hashes)
    requires i <= j <= |hashes| && j - i <= c.Window()
    ensures multiset(hashes[i..j])[h] <= c.Threshold()
    ensures j < |hashes| ==> multiset(hashes[i..j])[h] < c.Threshold()
  {
    hide NoLoopBefore;
    if j < |hashes| {
      InnerWindowsAreLow(c, hashes, i, j, h);
    } else if i < j {
      InnerWindowsAreLow(c, hashes, i, j - 1, h);
      assert hashes[i..j] == hashes[i..j - 1] + [hashes[j - 1]];
      assert multiset(hashes[i..j]) == multiset(hashes[i..j - 1]) + multiset{hashes[j - 1]};
    }
  }

  /** In the calls of any run, no hash occurs more often than the threshold among any
      window-many consecutive calls, and only a window that ends with the run's last call can
      reach the threshold. */
  lemma {:induction false} NoHashExceedsThreshold(c: Config, w: World, registry: Registry, goal: string,
                                                  i: nat, j: nat, h: nat)
    requires i <= j <= |Execute(c, w, registry, goal).calls| && j - i <= c.Window()
    ensures var hashes := Hashes(c, Execute(c, w, registry, goal).calls);
      && multiset(hashes[i..j])[h] <= c.Threshold()
      && (j < |hashes| ==> multiset(hashes[i..j])[h] < c.Threshold())
  {
    hide Complete;
    RunsKeepLoopBook(c, w, registry, goal);
    WindowsAreLow(c, Hashes(c, Execute(c, w, registry, goal).calls), i, j, h);
  }

  lemma ReportIsExact(c: Config, r: Run, report: LoopReport)
    requires LoopIsNews(c, r) && IsReport(r.window, c.repeatThreshold, report)
    ensures r.calls != []
    ensures report == LoopReport(HashOf(c, r.calls[|r.calls| - 1]), c.Threshold())
    ensures multiset(r.window)[report.hash] == c.Threshold()
    ensures forall h | h != report.hash :: multiset(r.window)[h] < c.Threshold()
  {
    hide Loops, Slide;
    var newest := HashOf(c, r.calls[|r.calls| - 1]);
    var earlier :| !Loops(earlier, c.repeatThreshold) && r.window == Slide(earlier, c.windowSize, newest);
    OnlyNewestCanLoop(earlier, c.windowSize, newest, c.repeatThreshold, report);
    forall h | h != report.hash
      ensures multiset(r.window)[h] < c.Threshold()
    {
      OthersStayLow(earlier, c.windowSize, newest, c.repeatThreshold, h);
    }
  }

  /** A reported loop is always the call that was dispatched last, seen exactly threshold-many
      times in the window, and no other hash has reached the threshold. */
  lemma {:induction false} LoopReportIsExact(c: Config, w: World, registry: Registry, goal: string,
                                             report: LoopReport)
    requires Execute(c, w, registry, goal).phase == Finished(Err(Loop(report)))
    ensures var end := Execute(c, w, registry, goal);
      && end.calls != []
      && report == LoopReport(HashOf(c, end.calls[|end.calls| - 1]), c.Threshold())
      && multiset(LastN(Hashes(c, end.calls), c.Window()))[report.hash] == c.Threshold()
      && forall h | h != report.hash :: multiset(LastN(Hashes(c, end.calls), c.Window()))[h] < c.Threshold()
  {
    hide Complete, NoLoopBefore, LoopIsNews, Hashes, LastN;
    RunsKeepLoopBook(c, w, registry, goal);
    ReportIsExact(c, Execute(c, w, registry, goal), report);
  }

  lemma {:induction false} CountAtMostLength(s: seq<nat>, h: nat)
    ensures multiset(s)[h] <= |s|
  {
    if s != [] {
      CountAtMostLength(s[1..], h);
      assert s == [s[0]] + s[1..];
    }
  }

  lemma LoopFitsWindow(c: Config, w: World, registry: Registry, goal: string, report: LoopReport)
    requires Execute(c, w, registry, goal).phase == Finished(Err(Loop(report)))
    ensures c.Threshold() <= c.Window()
  {
    hide Complete;
    LoopReportIsExact(c, w, registry, goal, report);
    CountAtMostLength(LastN(Hashes(c, Execute(c, w, registry, goal).calls), c.Window()), report.hash);
  }

  /** A window shorter than the threshold never reports a loop. */
  lemma {:induction false} ShortWindowNeverLoops(c: Config, w: World, registry: Registry, goal: string)
    requires c.Window() < c.Threshold()
    ensures var verdict := Execute(c, w, registry, goal).phase.verdict;
      verdict.Err? ==> !verdict.error.Loop?
  {
    hide Complete;
    var end := Execute(c, w, registry, goal);
    if end.phase.verdict.Err? && end.phase.verdict.error.Loop? {
      LoopFitsWindow(c, w, registry, goal, end.phase.verdict.error.report);
    }
  }

  // ---------------------------------------------------------------------------
  // The pigeonhole bound.

  lemma MultisetSplits(m: multiset<nat>, h: nat)
    ensures |m| == |m[h := 0]| + m[h]
  {
    assert m == m[h := 0] + multiset{}[h := m[h]];
  }

  lemma OneKeyLess(keys: set<nat>, h: nat, most: nat)
    requires h in keys
    ensures |keys| * most == |keys - {h}| * most + most
  {
    assert |keys| == |keys - {h}| + 1;
    assert (|keys - {h}| + 1) * most == |keys - {h}| * most + most;
  }

  lemma {:induction false} MultisetFits(m: multiset<nat>, keys: set<nat>, most: nat)
    requires forall h | h in m :: h in keys
    requires forall h | h in keys :: m[h] <= most
    ensures |m| <= |keys| * most
    decreases keys
  {
    if keys == {} {
      assert m == multiset{};
    } else {
      var h :| h in keys;
      MultisetFits(m[h := 0], keys - {h}, most);
      MultisetSplits(m, h);
      OneKeyLess(keys, h, most);
    }
  }

  lemma CallsFitPigeonholes(c: Config, hashes: seq<nat>, keys: set<nat>)
    requires NoLoopBefore(c, hashes)
    requires forall h | h in hashes :: h in keys
    requires |keys| * (c.Threshold() - 1) < c.Window()
    ensures |hashes| <= |keys| * (c.Threshold() - 1) + 1
  {
    var m := |keys| * (c.Threshold() - 1) + 1;
    if |hashes| > m {
      var early := hashes[0..m];
      forall h
        ensures multiset(early)[h] <= c.Threshold() - 1
      {
        InnerWindowsAreLow(c, hashes, 0, m, h);
      }
      forall h | h in multiset(early)
        ensures h in keys
      {
        assert h in early;
      }
      MultisetFits(multiset(early), keys, c.Threshold() - 1);
    }
  }

  /** A run whose calls have only |keys| different hashes makes at most |keys| * (threshold - 1) + 1
      of them, if the window is longer than |keys| * (threshold - 1): whatever the iteration and
      replan limits are and whatever the tools do. */
  lemma {:induction false} PigeonholeBound(c: Config, w: World, registry: Registry, goal: string, keys: set<nat>)
    requires forall call | call in Execute(c, w, registry, goal).calls :: HashOf(c, call) in keys
    requires |keys| * (c.Threshold() - 1) < c.Window()
    ensures |Execute(c, w, registry, goal).calls| <= |keys| * (c.Threshold() - 1) + 1
  {
    hide Complete, Loops, IsReport, LoopIsNews, NoLoopBefore;
    RunsKeepLoopBook(c, w, registry, goal);
    var end := Execute(c, w, registry, goal);
    forall h | h in Hashes(c, end.calls)
      ensures h in keys
    {
      var i :| 0 <= i < |end.calls| && Hashes(c, end.calls)[i] == h;
      assert end.calls[i] in end.calls;
    }
    CallsFitPigeonholes(c, Hashes(c, end.calls), keys);
  }
}
