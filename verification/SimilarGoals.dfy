/** The search for past goals by keyword: how the keyword becomes an ILIKE pattern, and which goals
    that pattern matches under section 9.7.1 of the PostgreSQL documentation. */
module SimilarGoals {

  // ---------------------------------------------------------------------------
  // Building the pattern.

  function ReplaceAll(s: string, target: char, replacement: string): string {
    if s == "" then ""
    else (if s[0] == target then replacement else [s[0]]) + ReplaceAll(s[1..], target, replacement)
  }

  function EscapeChain(keyword: string): string {
    ReplaceAll(ReplaceAll(ReplaceAll(keyword, '\\', "\\\\"), '%', "\\%"), '_', "\\_")
  }

  function Pattern(keyword: string): string {
    "%" + EscapeChain(keyword) + "%"
  }

  // ---------------------------------------------------------------------------
  // The chain is one escape of each character.

  predicate IsSpecial(ch: char) {
    ch == '\\' || ch == '%' || ch == '_'
  }

  function EscapeChar(ch: char): string {
    if IsSpecial(ch) then ['\\', ch] else [ch]
  }

  function Escape(keyword: string): string {
    if keyword == "" then "" else EscapeChar(keyword[0]) + Escape(keyword[1..])
  }

  lemma {:induction false} ReplaceDistributes(s: string, t: string, target: char, replacement: string)
    ensures ReplaceAll(s + t, target, replacement)
         == ReplaceAll(s, target, replacement) + ReplaceAll(t, target, replacement)
  {
    if s == "" {
      assert s + t == t;
    } else {
      ReplaceDistributes(s[1..], t, target, replacement);
      assert (s + t)[0] == s[0] && (s + t)[1..] == s[1..] + t;
      var first := if s[0] == target then replacement else [s[0]];
      var a, b := ReplaceAll(s[1..], target, replacement), ReplaceAll(t, target, replacement);
      assert first + (a + b) == (first + a) + b;
    }
  }

  lemma ChainDistributes(s: string, t: string)
    ensures EscapeChain(s + t) == EscapeChain(s) + EscapeChain(t)
  {
    ReplaceDistributes(s, t, '\\', "\\\\");
    var s1, t1 := ReplaceAll(s, '\\', "\\\\"), ReplaceAll(t, '\\', "\\\\");
    ReplaceDistributes(s1, t1, '%', "\\%");
    ReplaceDistributes(ReplaceAll(s1, '%', "\\%"), ReplaceAll(t1, '%', "\\%"), '_', "\\_");
  }

  lemma ReplaceOne(ch: char, target: char, replacement: string)
    ensures ReplaceAll([ch], target, replacement) == if ch == target then replacement else [ch]
  {
    assert [ch][1..] == "";
  }

  lemma ReplaceTwo(first: char, second: char, target: char, replacement: string)
    ensures ReplaceAll([first, second], target, replacement)
         == (if first == target then replacement else [first]) + (if second == target then replacement else [second])
  {
    assert [first, second] == [first] + [second];
    ReplaceDistributes([first], [second], target, replacement);
    ReplaceOne(first, target, replacement);
    ReplaceOne(second, target, replacement);
  }

  lemma ChainOnChar(ch: char)
    ensures EscapeChain([ch]) == EscapeChar(ch)
  {
    ReplaceOne(ch, '\\', "\\\\");
    if ch == '\\' {
      ReplaceTwo('\\', '\\', '%', "\\%");
      ReplaceTwo('\\', '\\', '_', "\\_");
    } else if ch == '%' {
      ReplaceOne('%', '%', "\\%");
      ReplaceTwo('\\', '%', '_', "\\_");
    } else {
      ReplaceOne(ch, '%', "\\%");
      ReplaceOne(ch, '_', "\\_");
    }
  }

  /** The three replacements in this order escape every special character exactly once. */
  lemma {:induction false} ChainIsSingleEscape(keyword: string)
    ensures EscapeChain(keyword) == Escape(keyword)
  {
    if keyword != "" {
      assert keyword == [keyword[0]] + keyword[1..];
      ChainDistributes([keyword[0]], keyword[1..]);
      ChainOnChar(keyword[0]);
      ChainIsSingleEscape(keyword[1..]);
    }
  }

  /** Reads an escaped text back; an escape character at the very end stands for nothing. */
  function Unescape(text: string): string {
    if text == "" then ""
    else if text[0] != '\\' then [text[0]] + Unescape(text[1..])
    else if |text| == 1 then ""
    else [text[1]] + Unescape(text[2..])
  }

  lemma UnescapeFirst(ch: char, rest: string)
    ensures Unescape(EscapeChar(ch) + rest) == [ch] + Unescape(rest)
  {
    var first := EscapeChar(ch);
    assert (first + rest)[|first|..] == rest;
  }

  lemma {:induction false} EscapeRoundTrips(keyword: string)
    ensures Unescape(Escape(keyword)) == keyword
  {
    hide Unescape, EscapeChar;
    if keyword == "" {
      UnescapeEmpty();
    } else {
      EscapeRoundTrips(keyword[1..]);
      UnescapeFirst(keyword[0], Escape(keyword[1..]));
    }
  }

  lemma UnescapeEmpty()
    ensures Unescape("") == ""
  {
  }

  /** Escaping loses nothing. */
  lemma {:induction false} ChainRoundTrips(keyword: string)
    ensures Unescape(EscapeChain(keyword)) == keyword
  {
    hide Unescape, EscapeChain, Escape;
    ChainIsSingleEscape(keyword);
    EscapeRoundTrips(keyword);
  }

  // ---------------------------------------------------------------------------
  // What a pattern matches.

  /** Two characters are the same letter; `fold` is the case folding of the database's locale. */
  predicate Same(fold: char -> char, a: char, b: char) {
    fold(a) == fold(b)
  }

  /** ILIKE: `%` stands for any text, `_` for any one character, and a backslash makes the next
      character stand for itself. */
  ghost predicate Matches(fold: char -> char, pattern: string, text: string)
    decreases |pattern|
  {
    if pattern == "" then text == ""
    else if pattern[0] == '%' then exists i: nat | i <= |text| :: Matches(fold, pattern[1..], text[i..])
    else if pattern[0] == '_' then text != "" && Matches(fold, pattern[1..], text[1..])
    else if pattern[0] == '\\' then
      |pattern| >= 2 && text != "" && Same(fold, pattern[1], text[0]) && Matches(fold, pattern[2..], text[1..])
    else text != "" && Same(fold, pattern[0], text[0]) && Matches(fold, pattern[1..], text[1..])
  }

  /** The database rejects a pattern that ends in an escape character with nothing to escape. */
  predicate WellFormed(pattern: string) {
    if pattern == "" then true
    else if pattern[0] == '\\' then |pattern| >= 2 && WellFormed(pattern[2..])
    else WellFormed(pattern[1..])
  }

  predicate StartsWith(fold: char -> char, text: string, keyword: string) {
    |keyword| <= |text| && forall j | 0 <= j < |keyword| :: Same(fold, keyword[j], text[j])
  }

  /** The keyword occurs literally somewhere in the goal, up to case. */
  ghost predicate Contains(fold: char -> char, goal: string, keyword: string) {
    exists i: nat | i <= |goal| :: StartsWith(fold, goal[i..], keyword)
  }

  lemma PercentMatchesAll(fold: char -> char, text: string)
    ensures Matches(fold, "%", text)
  {
    assert "%"[1..] == "" && text[|text|..] == "";
    assert Matches(fold, "%"[1..], text[|text|..]);
  }

  lemma StartsWithStep(fold: char -> char, text: string, keyword: string)
    requires keyword != ""
    ensures StartsWith(fold, text, keyword)
       <==> text != "" && Same(fold, keyword[0], text[0]) && StartsWith(fold, text[1..], keyword[1..])
  {
    if text != "" && StartsWith(fold, text[1..], keyword[1..]) && Same(fold, keyword[0], text[0]) {
      forall j | 0 <= j < |keyword|
        ensures Same(fold, keyword[j], text[j])
      {
        if j > 0 {
          assert keyword[1..][j - 1] == keyword[j] && text[1..][j - 1] == text[j];
        }
      }
    }
  }

  lemma MatchesEscaped(fold: char -> char, ch: char, rest: string, text: string)
    ensures Matches(fold, EscapeChar(ch) + rest, text)
       <==> text != "" && Same(fold, ch, text[0]) && Matches(fold, rest, text[1..])
    ensures WellFormed(EscapeChar(ch) + rest) <==> WellFormed(rest)
  {
    var first := EscapeChar(ch);
    assert (first + rest)[|first|..] == rest;
  }

  lemma {:induction false} EscapedMatchesPrefix(fold: char -> char, keyword: string, text: string)
    ensures Matches(fold, Escape(keyword) + "%", text) <==> StartsWith(fold, text, keyword)
    ensures WellFormed(Escape(keyword) + "%")
  {
    var pattern := Escape(keyword) + "%";
    if keyword == "" {
      assert pattern == "%";
      PercentMatchesAll(fold, text);
    } else {
      hide Matches, WellFormed, StartsWith, EscapeChar;
      var rest := Escape(keyword[1..]) + "%";
      assert pattern == EscapeChar(keyword[0]) + rest;
      MatchesEscaped(fold, keyword[0], rest, text);
      StartsWithStep(fold, text, keyword);
      EscapedMatchesPrefix(fold, keyword[1..], if text == "" then "" else text[1..]);
    }
  }

  /** The search finds a goal exactly when the goal contains the keyword literally, up to case,
      whatever wildcards or escapes the keyword itself contains; and its pattern is never rejected. */
  lemma {:induction false} PatternFindsKeyword(fold: char -> char, keyword: string, goal: string)
    ensures Matches(fold, Pattern(keyword), goal) <==> Contains(fold, goal, keyword)
    ensures WellFormed(Pattern(keyword))
  {
    ChainIsSingleEscape(keyword);
    var rest := Escape(keyword) + "%";
    assert Pattern(keyword)[0] == '%' && Pattern(keyword)[1..] == rest;
    EscapedMatchesPrefix(fold, keyword, goal);
    forall i: nat | i <= |goal|
      ensures Matches(fold, rest, goal[i..]) <==> StartsWith(fold, goal[i..], keyword)
    {
      EscapedMatchesPrefix(fold, keyword, goal[i..]);
    }
  }
}
