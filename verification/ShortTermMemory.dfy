/** The token-budgeted message buffer that is sent with every reasoning request. */
module ShortTermMemory {
  import opened Prelude

  datatype Role = System | User | Assistant

  datatype Message = Message(role: Role, content: string, tokenCount: nat)

  function Tokens(messages: seq<Message>): nat {
    if messages == [] then 0 else messages[0].tokenCount + Tokens(messages[1..])
  }

  // ---------------------------------------------------------------------------
  // Offline specification: look at everything that was ever pushed.

  /** `kept` is the longest suffix of `all` that fits the budget; when not even the last
      message fits, it is that message alone. */
  ghost predicate IsLongestFitting(all: seq<Message>, budget: nat, kept: seq<Message>) {
    && |kept| <= |all|
    && kept == all[|all| - |kept|..]
    && (all != [] ==> kept != [])
    && (Tokens(kept) <= budget || |kept| == 1)
    && (forall i | 0 <= i < |all| - |kept| :: Tokens(all[i..]) > budget)
  }

  /** Drops the oldest messages of a complete history until the rest fits or is a single one. */
  function LongestFitting(all: seq<Message>, budget: nat): (kept: seq<Message>) {
    if |all| <= 1 || Tokens(all) <= budget then all else LongestFitting(all[1..], budget)
  }

  lemma {:induction false} LongestFittingIsLongest(all: seq<Message>, budget: nat)
    ensures IsLongestFitting(all, budget, LongestFitting(all, budget))
  {
    if |all| <= 1 || Tokens(all) <= budget {
    } else {
      LongestFittingIsLongest(all[1..], budget);
      var kept := LongestFitting(all[1..], budget);
      assert all[1..][|all[1..]| - |kept|..] == all[|all| - |kept|..];
      forall i | 0 <= i < |all| - |kept|
        ensures Tokens(all[i..]) > budget
      {
        if i > 0 {
          assert all[1..][i - 1..] == all[i..];
        }
      }
    }
  }

  lemma LongestFittingIsUnique(all: seq<Message>, budget: nat, kept: seq<Message>)
    requires IsLongestFitting(all, budget, kept)
    ensures kept == LongestFitting(all, budget)
  {
    LongestFittingIsLongest(all, budget);
    var other := LongestFitting(all, budget);
    // Were one of the two shorter, the other would be a longer suffix that fits.
    assert kept == all[|all| - |kept|..] && other == all[|all| - |other|..];
  }

  // ---------------------------------------------------------------------------
  // Online behaviour: only the retained messages are known.

  /** Removes the oldest messages until `incoming` more tokens fit or nothing is left. */
  function Evict(messages: seq<Message>, incoming: nat, budget: nat): seq<Message> {
    if messages == [] || Tokens(messages) + incoming <= budget then messages
    else Evict(messages[1..], incoming, budget)
  }

  function Admit(messages: seq<Message>, msg: Message, budget: nat): seq<Message> {
    Evict(messages, msg.tokenCount, budget) + [msg]
  }

  lemma {:induction false} TokensOfAppend(messages: seq<Message>, msg: Message)
    ensures Tokens(messages + [msg]) == Tokens(messages) + msg.tokenCount
  {
    if messages == [] {
      assert messages + [msg] == [msg];
    } else {
      TokensOfAppend(messages[1..], msg);
      assert (messages + [msg])[1..] == messages[1..] + [msg];
    }
  }

  /** Evicting and appending is the offline selection over the appended list. */
  lemma {:induction false} AdmitIsLongestFitting(messages: seq<Message>, msg: Message, budget: nat)
    ensures Admit(messages, msg, budget) == LongestFitting(messages + [msg], budget)
  {
    TokensOfAppend(messages, msg);
    if messages == [] || Tokens(messages) + msg.tokenCount <= budget {
    } else {
      AdmitIsLongestFitting(messages[1..], msg, budget);
      assert (messages + [msg])[1..] == messages[1..] + [msg];
    }
  }

  /** Eviction forgets nothing that a later request could still have used. */
  lemma {:induction false} AdmitKeepsLongestFitting(all: seq<Message>, msg: Message, budget: nat)
    ensures Admit(LongestFitting(all, budget), msg, budget) == LongestFitting(all + [msg], budget)
  {
    if |all| <= 1 || Tokens(all) <= budget {
      AdmitIsLongestFitting(all, msg, budget);
    } else {
      AdmitKeepsLongestFitting(all[1..], msg, budget);
      TokensOfAppend(all, msg);
      assert (all + [msg])[1..] == all[1..] + [msg];
    }
  }

  /** The retained total is bounded by the budget or by one oversized message. */
  lemma {:induction false} RetainedTokensAreBounded(all: seq<Message>, budget: nat, largest: nat)
    requires forall m | m in all :: m.tokenCount <= largest
    ensures Tokens(LongestFitting(all, budget)) <= (if budget <= largest then largest else budget)
  {
    LongestFittingIsLongest(all, budget);
    var kept := LongestFitting(all, budget);
    if Tokens(kept) > budget {
      assert kept[0] in all;
      assert kept[1..] == [];
    }
  }

  // ---------------------------------------------------------------------------
  // The buffer itself.

  class ShortTermMemory {
    var messages: seq<Message>
    var tokenCount: nat
    const maxTokens: nat
    /** Everything pushed since construction, since `Clear`, or since the last summary, which
        then counts as the first element. */
    ghost var pushed: seq<Message>

    ghost predicate Valid()
      reads this
    {
      && maxTokens > 0
      && tokenCount == Tokens(messages)
      && messages == LongestFitting(pushed, maxTokens)
    }

    constructor (maxTokens: nat)
      requires maxTokens > 0
      ensures Valid() && this.maxTokens == maxTokens
      ensures messages == [] && pushed == []
    {
      this.messages, this.tokenCount, this.maxTokens, this.pushed := [], 0, maxTokens, [];
    }

    method Push(msg: Message)
      requires Valid()
      modifies this
      ensures Valid()
      ensures pushed == old(pushed) + [msg]
      ensures messages == Admit(old(messages), msg, maxTokens)
    {
      var incoming := msg.tokenCount;
      while messages != [] && tokenCount + incoming > maxTokens
        invariant tokenCount == Tokens(messages)
        invariant Evict(messages, incoming, maxTokens) == Evict(old(messages), incoming, maxTokens)
        invariant pushed == old(pushed)
        decreases |messages|
      {
        var evicted := messages[0];
        messages := messages[1..];
        assert evicted.tokenCount <= tokenCount; // so the saturating subtraction is exact
        tokenCount := SaturatingSub(tokenCount, evicted.tokenCount);
      }
      TokensOfAppend(messages, msg);
      AdmitKeepsLongestFitting(pushed, msg, maxTokens);
      tokenCount := tokenCount + incoming;
      messages := messages + [msg];
      pushed := pushed + [msg];
    }

    method ReplaceWithSummary(summary: Message)
      requires Valid()
      modifies this
      ensures Valid()
      ensures messages == [summary] && pushed == [summary]
    {
      messages := [];
      messages := messages + [summary];
      tokenCount := summary.tokenCount;
      pushed := [summary];
    }

    method Clear()
      requires Valid()
      modifies this
      ensures Valid()
      ensures messages == [] && pushed == []
    {
      messages, tokenCount, pushed := [], 0, [];
    }
  }
}
