/** The sliding-window detector that aborts a task repeating the same tool call. */
module LoopDetector {
  import opened Prelude

  /** A detected loop: some hash occurred `count` times in the window. */
  datatype LoopReport = LoopReport(hash: nat, count: nat)

  // ---------------------------------------------------------------------------
  // Windows as values.

  /** The window after one more call: the oldest entry leaves when the window is full. */
  function Slide(window: seq<nat>, windowSize: nat, hash: nat): seq<nat> {
    (if |window| >= windowSize && window != [] then window[1..] else window) + [hash]
  }

  ghost predicate Loops(window: seq<nat>, threshold: nat) {
    exists h :: h in window && multiset(window)[h] >= threshold
  }

  /** What the detector may report; which hash it finds first depends on the iteration order. */
  ghost predicate IsReport(window: seq<nat>, threshold: nat, report: LoopReport) {
    && report.hash in window
    && report.count == multiset(window)[report.hash]
    && report.count >= threshold
  }

  lemma SuffixOfAppend(s: seq<nat>, i: nat, x: nat)
    requires i <= |s|
    ensures (s + [x])[i..] == s[i..] + [x]
  {
  }

  lemma SuffixOfSuffix(s: seq<nat>, i: nat, j: nat)
    requires i + j <= |s|
    ensures s[i..][j..] == s[i + j..]
  {
  }

  /** Sliding a window is remembering the last calls of the whole history. */
  lemma {:induction false} SlideIsLastN(recorded: seq<nat>, windowSize: nat, hash: nat)
    ensures Slide(LastN(recorded, AtLeastOne(windowSize)), windowSize, hash)
         == LastN(recorded + [hash], AtLeastOne(windowSize))
  {
    var w := AtLeastOne(windowSize);
    if |recorded| >= w {
      var start: nat := |recorded| - w;
      SuffixOfSuffix(recorded, start, 1);
      SuffixOfAppend(recorded, start + 1, hash);
      assert LastN(recorded, w) == recorded[start..];
      assert LastN(recorded + [hash], w) == (recorded + [hash])[start + 1..];
    } else {
      assert LastN(recorded, w) == recorded;
      assert LastN(recorded + [hash], w) == recorded + [hash];
    }
  }

  lemma SlideCounts(window: seq<nat>, windowSize: nat, hash: nat, h: nat)
    ensures multiset(Slide(window, windowSize, hash))[h] <= multiset(window)[h] + if h == hash then 1 else 0
  {
    var kept := if |window| >= windowSize && window != [] then window[1..] else window;
    assert Slide(window, windowSize, hash) == kept + [hash];
    if kept != window {
      assert window == [window[0]] + window[1..];
    }
  }

  lemma NoLoopBoundsCount(window: seq<nat>, threshold: nat, h: nat)
    requires !Loops(window, threshold)
    ensures multiset(window)[h] < AtLeastOne(threshold)
  {
    if h in window {
      assert !(multiset(window)[h] >= threshold);
    }
  }

  /** If no hash had reached the threshold before the newest call was recorded, then only the
      newest call can have reached it, and it has reached it exactly. */
  lemma {:induction false} OnlyNewestCanLoop(window: seq<nat>, windowSize: nat, hash: nat, threshold: nat,
                                             report: LoopReport)
    requires !Loops(window, threshold)
    requires IsReport(Slide(window, windowSize, hash), threshold, report)
    ensures report == LoopReport(hash, AtLeastOne(threshold))
  {
    hide Loops, Slide;
    SlideCounts(window, windowSize, hash, report.hash);
    NoLoopBoundsCount(window, threshold, report.hash);
    assert report.hash in multiset(Slide(window, windowSize, hash));
  }

  /** Every other hash is still below the threshold. */
  lemma OthersStayLow(window: seq<nat>, windowSize: nat, hash: nat, threshold: nat, other: nat)
    requires !Loops(window, threshold) && other != hash
    ensures multiset(Slide(window, windowSize, hash))[other] < AtLeastOne(threshold)
  {
    var count := multiset(Slide(window, windowSize, hash))[other];
    if count >= AtLeastOne(threshold) {
      assert other in Slide(window, windowSize, hash);
      OnlyNewestCanLoop(window, windowSize, hash, threshold, LoopReport(other, count));
    }
  }

  // ---------------------------------------------------------------------------
  // The detector itself.

  class LoopDetector {
    var window: seq<nat>
    const windowSize: nat
    const repeatThreshold: nat
    /** Hash of a tool name and its canonical input; nothing is assumed about it. */
    const hashCall: (string, Json) -> nat
    /** The hashes of every call recorded since construction or `Clear`. */
    ghost var recorded: seq<nat>

    ghost predicate Valid()
      reads this
    {
      window == LastN(recorded, AtLeastOne(windowSize))
    }

    constructor (windowSize: nat, repeatThreshold: nat, hashCall: (string, Json) -> nat)
      ensures Valid() && window == [] && recorded == []
      ensures this.windowSize == windowSize && this.repeatThreshold == repeatThreshold
      ensures this.hashCall == hashCall
    {
      this.window, this.recorded := [], [];
      this.windowSize, this.repeatThreshold, this.hashCall := windowSize, repeatThreshold, hashCall;
    }

    method Record(toolName: string, input: Json)
      requires Valid()
      modifies this
      ensures Valid()
      ensures recorded == old(recorded) + [hashCall(toolName, input)]
      ensures window == Slide(old(window), windowSize, hashCall(toolName, input))
    {
      var hash := hashCall(toolName, input);
      SlideIsLastN(recorded, windowSize, hash);
      if |window| >= windowSize {
        if window != [] {
          window := window[1..];
        }
      }
      window := window + [hash];
      recorded := recorded + [hash];
    }

    /** Reports some hash at the threshold if there is one; the choice among several is arbitrary. */
    method IsLooping() returns (report: Option<LoopReport>)
      ensures report.None? <==> !Loops(window, repeatThreshold)
      ensures report.Some? ==> IsReport(window, repeatThreshold, report.value)
    {
      var counts: map<nat, nat> := map[];
      var i := 0;
      while i < |window|
        invariant 0 <= i <= |window|
        invariant forall h :: h in counts <==> h in window[..i]
        invariant forall h | h in counts :: counts[h] == multiset(window[..i])[h]
      {
        var hash := window[i];
        assert window[..i + 1] == window[..i] + [hash];
        counts := counts[hash := (if hash in counts then counts[hash] else 0) + 1];
        i := i + 1;
      }
      assert window[..i] == window;
      var todo := counts.Keys;
      while todo != {}
        invariant todo <= counts.Keys
        invariant forall h | h in counts && h !in todo :: counts[h] < repeatThreshold
        decreases todo
      {
        var hash :| hash in todo;
        if counts[hash] >= repeatThreshold {
          return Some(LoopReport(hash, counts[hash]));
        }
        todo := todo - {hash};
      }
      return None;
    }

    method Clear()
      modifies this
      ensures Valid() && window == [] && recorded == []
    {
      window, recorded := [], [];
    }
  }
}
