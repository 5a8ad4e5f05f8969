/** Fuzzy matching. Scores are integers in tenths of the program's units; lower is better. Queries and
    texts are taken as already lower-cased. */
module Fuzzy {
  import opened Text

  datatype FuzzyMatch = FuzzyMatch(matches: bool, score: int)

  const NO_MATCH := FuzzyMatch(false, 0)
  const EXACT_BONUS := 1000
  const SWAP_PENALTY := 50

  predicate IsBoundary(c: char) {
    IsSpace(c) || c in {'-', '_', '.', '/', ':'}
  }

  /** Whether a match at position `i` of the text starts a word. */
  predicate AtBoundary(text: string, i: nat)
    requires i < |text|
  {
    i == 0 || IsBoundary(text[i - 1])
  }

  // ---- Positions and their score ----

  predicate Within(ps: seq<nat>, text: string) {
    forall k :: 0 <= k < |ps| ==> ps[k] < |text|
  }

  /** The positions greedy matching takes from `i` on: each query character at its earliest place. */
  function Greedy(query: string, text: string, i: nat): (ps: seq<nat>)
    requires i <= |text|
    ensures |ps| <= |query| && Within(ps, text)
    decreases |text| - i
  {
    if query == "" || i == |text| then []
    else if text[i] == query[0] then [i] + Greedy(query[1..], text, i + 1)
    else Greedy(query, text, i + 1)
  }

  /** The length of the run of neighbouring matches that ends with match `k`; a first match at the very
      start of the text counts as a run. */
  function RunLength(ps: seq<nat>, k: nat): nat
    requires k < |ps|
  {
    if k == 0 then (if ps[0] == 0 then 1 else 0)
    else if ps[k] == ps[k - 1] + 1 then RunLength(ps, k - 1) + 1
    else 0
  }

  function CharScore(ps: seq<nat>, text: string, k: nat): int
    requires k < |ps| && ps[k] < |text|
  {
    (if RunLength(ps, k) > 0 then -50 * RunLength(ps, k)
     else if k > 0 then (ps[k] as int - ps[k - 1] as int - 1) * 20 else 0)
    + (if AtBoundary(text, ps[k]) then -100 else 0)
    + ps[k]
  }

  function Score(ps: seq<nat>, text: string, n: nat): int
    requires n <= |ps| && Within(ps, text)
  {
    if n == 0 then 0 else Score(ps, text, n - 1) + CharScore(ps, text, n - 1)
  }

  function MatchOf(query: string, text: string): FuzzyMatch {
    if query == "" then FuzzyMatch(true, 0)
    else if |query| > |text| then NO_MATCH
    else
      var ps := Greedy(query, text, 0);
      if |ps| < |query| then NO_MATCH
      else FuzzyMatch(true, Score(ps, text, |ps|) - if query == text then EXACT_BONUS else 0)
  }

  /** An embedding of the query: strictly increasing positions that carry its characters. */
  ghost predicate Embeds(query: string, text: string, ps: seq<nat>, from: nat) {
    && |ps| == |query|
    && (forall k :: 0 <= k < |ps| ==> from <= ps[k] < |text| && text[ps[k]] == query[k])
    && (forall k :: 0 < k < |ps| ==> ps[k - 1] < ps[k])
  }

  /** The greedy positions embed the part of the query they cover. */
  lemma {:induction false} GreedyEmbeds(query: string, text: string, i: nat)
    requires i <= |text|
    ensures var ps := Greedy(query, text, i); Embeds(query[..|ps|], text, ps, i)
    decreases |text| - i
  {
    if query != "" && i < |text| {
      if text[i] == query[0] {
        GreedyEmbeds(query[1..], text, i + 1);
        var ps, rest := Greedy(query, text, i), Greedy(query[1..], text, i + 1);
        assert forall k :: 0 < k < |ps| ==> ps[k] == rest[k - 1];
      } else {
        GreedyEmbeds(query, text, i + 1);
      }
    }
  }

  /** Taking each character as early as possible loses nothing: if any embedding exists, the greedy
      one is complete and nowhere later. */
  lemma {:induction false} GreedyIsEarliest(query: string, text: string, i: nat, es: seq<nat>)
    requires i <= |text| && Embeds(query, text, es, i)
    ensures |Greedy(query, text, i)| == |query|
    ensures forall k :: 0 <= k < |query| ==> Greedy(query, text, i)[k] <= es[k]
    decreases |text| - i
  {
    if query != "" {
      assert i <= es[0] < |text|;
      if text[i] == query[0] {
        var rest := es[1..];
        forall k | 0 <= k < |rest| ensures i + 1 <= rest[k] < |text| && text[rest[k]] == query[1..][k] {
          IncreasingFrom(es, k + 1);
        }
        GreedyIsEarliest(query[1..], text, i + 1, rest);
      } else {
        forall k | 0 <= k < |es| ensures i + 1 <= es[k] {
          IncreasingFrom(es, k);
        }
        GreedyIsEarliest(query, text, i + 1, es);
      }
    }
  }

  lemma {:induction false} IncreasingFrom(ps: seq<nat>, k: nat)
    requires k < |ps| && forall j :: 0 < j < |ps| ==> ps[j - 1] < ps[j]
    ensures ps[k] >= ps[0] + k
  {
    if k > 0 {
      IncreasingFrom(ps, k - 1);
    }
  }

  ghost predicate Subsequence(query: string, text: string) {
    exists ps: seq<nat> :: Embeds(query, text, ps, 0)
  }

  lemma NoMatchNoScore(query: string, text: string)
    ensures !MatchOf(query, text).matches ==> MatchOf(query, text) == NO_MATCH
  {}

  /** The query matches exactly when it is a subsequence of the text. */
  lemma MatchesExactlySubsequences(query: string, text: string)
    ensures MatchOf(query, text).matches <==> Subsequence(query, text)
  {
    var ps := Greedy(query, text, 0);
    GreedyEmbeds(query, text, 0);
    if |ps| == |query| {
      assert query[..|ps|] == query;
      assert Embeds(query, text, ps, 0);
    }
    forall es: seq<nat> | Embeds(query, text, es, 0) ensures |ps| == |query| && |query| <= |text| {
      GreedyIsEarliest(query, text, 0, es);
      if query != "" {
        IncreasingFrom(es, |es| - 1);
      }
    }
  }

  // ---- The score, taken apart ----

  /** How many of the first `n` matches stand in one unbroken row with match `k`. */
  function InRow(ps: seq<nat>, k: nat, n: nat): nat
    requires k < |ps| && n <= |ps|
  {
    if n == 0 then 0 else InRow(ps, k, n - 1) + (if ps[k] as int - ps[n - 1] == k - (n - 1) then 1 else 0)
  }

  /** The row a match closes, counted one longer when it begins with the text itself. */
  function Row(ps: seq<nat>, k: nat): nat
    requires k < |ps|
  {
    InRow(ps, k, k) + (if ps[k] == k then 1 else 0)
  }

  function Rows(ps: seq<nat>, n: nat): nat
    requires n <= |ps|
  {
    if n == 0 then 0 else Rows(ps, n - 1) + Row(ps, n - 1)
  }

  /** How many characters are skipped between matches. */
  function Skipped(ps: seq<nat>, n: nat): int
    requires n <= |ps|
  {
    if n <= 1 then 0 else Skipped(ps, n - 1) + ps[n - 1] - ps[n - 2] - 1
  }

  /** How many matches begin a word: they stand at the start or behind white space or one of `-_./:`. */
  function WordStarts(ps: seq<nat>, text: string, n: nat): nat
    requires n <= |ps| && Within(ps, text)
  {
    if n == 0 then 0
    else
      var i := ps[n - 1];
      WordStarts(ps, text, n - 1) + (if i == 0 || IsSpace(text[i - 1]) || text[i - 1] in "-_./:" then 1 else 0)
  }

  function PositionSum(ps: seq<nat>, n: nat): nat
    requires n <= |ps|
  {
    if n == 0 then 0 else PositionSum(ps, n - 1) + ps[n - 1]
  }

  ghost predicate Increasing(ps: seq<nat>) {
    forall k :: 0 < k < |ps| ==> ps[k - 1] < ps[k]
  }

  /** In tenths: rows and word starts count for a match, skipped characters and late positions against it. */
  lemma {:induction false} ScoreInParts(ps: seq<nat>, text: string, n: nat)
    requires n <= |ps| && Within(ps, text) && Increasing(ps)
    ensures Score(ps, text, n)
      == -50 * Rows(ps, n) - 100 * WordStarts(ps, text, n) + 20 * Skipped(ps, n) + PositionSum(ps, n)
  {
    hide RunLength, InRow;
    if n > 0 {
      ScoreInParts(ps, text, n - 1);
      RunIsRow(ps, n - 1);
    }
  }

  lemma {:induction false} RunIsRow(ps: seq<nat>, k: nat)
    requires k < |ps| && Increasing(ps)
    ensures RunLength(ps, k) == Row(ps, k)
    ensures RunLength(ps, k) > 0 && k > 0 ==> ps[k] == ps[k - 1] + 1
  {
    if k > 0 {
      RunIsRow(ps, k - 1);
      if ps[k] == ps[k - 1] + 1 {
        SameRow(ps, k, k - 1);
      } else {
        NewRow(ps, k, k);
        IncreasingFrom(ps, k - 1);
      }
    }
  }

  lemma {:induction false} SameRow(ps: seq<nat>, k: nat, n: nat)
    requires 0 < k < |ps| && ps[k] == ps[k - 1] + 1 && n <= k - 1
    ensures InRow(ps, k, n) == InRow(ps, k - 1, n)
  {
    if n > 0 {
      SameRow(ps, k, n - 1);
    }
  }

  lemma {:induction false} NewRow(ps: seq<nat>, k: nat, n: nat)
    requires n <= k < |ps| && 0 < k && Increasing(ps) && ps[k] > ps[k - 1] + 1
    ensures InRow(ps, k, n) == 0
  {
    if n > 0 {
      NewRow(ps, k, n - 1);
      ApartAtLeast(ps, n - 1, k - 1);
    }
  }

  lemma {:induction false} ApartAtLeast(ps: seq<nat>, j: nat, k: nat)
    requires j <= k < |ps| && Increasing(ps)
    ensures ps[k] >= ps[j] + (k - j)
    decreases k - j
  {
    if j < k {
      ApartAtLeast(ps, j, k - 1);
    }
  }

  /** A matching query's score is that of an embedding no other beats to any character, taken apart as above,
      with a hundred points for the very text. */
  lemma MatchScore(query: string, text: string) returns (ps: seq<nat>)
    requires query != "" && MatchOf(query, text).matches
    ensures Embeds(query, text, ps, 0)
    ensures forall es: seq<nat>, k: nat :: Embeds(query, text, es, 0) && k < |query| ==> ps[k] <= es[k]
    ensures MatchOf(query, text).score
      == -50 * Rows(ps, |ps|) - 100 * WordStarts(ps, text, |ps|) + 20 * Skipped(ps, |ps|) + PositionSum(ps, |ps|)
         - if query == text then 1000 else 0
  {
    hide Rows, WordStarts, Skipped, PositionSum;
    ps := Greedy(query, text, 0);
    GreedyEmbeds(query, text, 0);
    assert query[..|ps|] == query;
    ScoreInParts(ps, text, |ps|);
    forall es: seq<nat>, k: nat | Embeds(query, text, es, 0) && k < |query| ensures ps[k] <= es[k] {
      GreedyIsEarliest(query, text, 0, es);
    }
  }

  /** The characters of `\s`, by code. */
  lemma SpaceCharacters(c: char)
    ensures IsSpace(c) <==> var n := c as int;
      9 <= n <= 13 || n in {32, 160, 5760, 8232, 8233, 8239, 8287, 12288, 65279} || 8192 <= n <= 8202
  {}

  // ---- The matching loop ----

  /** The last matched position, or -1. */
  function LastOf(ps: seq<nat>): int {
    if ps == [] then -1 else ps[|ps| - 1]
  }

  /** The run the first `n` matches end with. */
  function RunBefore(ps: seq<nat>, n: nat): nat
    requires n <= |ps|
  {
    if n == 0 then 0 else RunLength(ps, n - 1)
  }

  /** What the scan knows ahead of text position `i`: `all` are the greedy positions of the whole query and
      `ps` those already taken. */
  ghost predicate Scanned(query: string, text: string, i: nat, all: seq<nat>, ps: seq<nat>)
    requires i <= |text|
  {
    && |ps| <= |query| && |ps| <= |all| && Within(all, text) && LastOf(ps) < i
    && all == ps + Greedy(query[|ps|..], text, i)
  }

  /** How one step of the scan accounts for the greedy positions. */
  lemma ScanStep(query: string, text: string, i: nat, all: seq<nat>, ps: seq<nat>) returns (run: nat)
    requires i < |text| && |ps| < |query| && Scanned(query, text, i, all, ps)
    ensures text[i] == query[|ps|] ==>
      && Scanned(query, text, i + 1, all, ps + [i]) && run == RunBefore(all, |ps| + 1)
      && LastOf(ps + [i]) == i && LastOf(ps) >= -1
      && run == (if LastOf(ps) == i - 1 then RunBefore(all, |ps|) + 1 else 0)
      && Score(all, text, |ps| + 1) == Score(all, text, |ps|)
           + (if LastOf(ps) == i - 1 then -50 * run else if LastOf(ps) >= 0 then (i - LastOf(ps) - 1) * 20 else 0)
           + (if i == 0 || IsBoundary(text[i - 1]) then -100 else 0) + i
    ensures text[i] != query[|ps|] ==> Scanned(query, text, i + 1, all, ps)
  {
    run := if text[i] == query[|ps|] then RunLength(ps + [i], |ps|) else 0;
    assert query[|ps|..][1..] == query[|ps| + 1..];
    if text[i] == query[|ps|] {
      assert all == ps + [i] + Greedy(query[|ps| + 1..], text, i + 1);
      RunOfPrefix(all, ps + [i], |ps|);
    }
  }

  lemma {:induction false} RunOfPrefix(all: seq<nat>, ps: seq<nat>, k: nat)
    requires ps <= all && k < |ps|
    ensures RunLength(all, k) == RunLength(ps, k)
  {
    if k > 0 {
      RunOfPrefix(all, ps, k - 1);
    }
  }

  lemma ScanStart(query: string, text: string)
    ensures var all := Greedy(query, text, 0);
      Scanned(query, text, 0, all, []) && Score(all, text, 0) == 0 && RunBefore(all, 0) == 0 && LastOf([]) == -1
  {
    assert query[0..] == query;
  }

  lemma ScanEnd(query: string, text: string, i: nat, all: seq<nat>, ps: seq<nat>)
    requires i <= |text| && Scanned(query, text, i, all, ps) && (|ps| == |query| || i == |text|)
    ensures all == ps
  {}

  lemma Verdict(query: string, text: string)
    requires query != "" && |query| <= |text|
    ensures var all := Greedy(query, text, 0);
      MatchOf(query, text) == if |all| < |query| then NO_MATCH
        else FuzzyMatch(true, Score(all, text, |all|) - if query == text then EXACT_BONUS else 0)
  {}

  method MatchQuery(query: string, text: string) returns (m: FuzzyMatch)
    ensures m == MatchOf(query, text)
  {
    hide Greedy, Score;
    if |query| == 0 {
      return FuzzyMatch(true, 0);
    }
    if |query| > |text| {
      return NO_MATCH;
    }
    m := Scan(query, text);
  }

  method Scan(query: string, text: string) returns (m: FuzzyMatch)
    requires query != "" && |query| <= |text|
    ensures m == MatchOf(query, text)
  {
    hide Greedy, Score, RunLength, IsBoundary, CharScore, Scanned, LastOf, RunBefore, MatchOf;
    var queryIndex, score := 0, 0;
    var lastMatchIndex, consecutiveMatches := -1, 0;
    ghost var ps: seq<nat> := [];
    ghost var all := Greedy(query, text, 0);
    ScanStart(query, text);
    Verdict(query, text);
    var i := 0;
    while i < |text| && queryIndex < |query|
      invariant 0 <= i <= |text| && queryIndex == |ps| <= |query| && |ps| <= |all|
      invariant Scanned(query, text, i, all, ps)
      invariant score == Score(all, text, queryIndex)
      invariant lastMatchIndex == LastOf(ps) && consecutiveMatches == RunBefore(all, |ps|)
      decreases |text| - i
    {
      ghost var run := ScanStep(query, text, i, all, ps);
      if text[i] == query[queryIndex] {
        var isWordBoundary := i == 0 || IsBoundary(text[i - 1]);
        if lastMatchIndex == i - 1 {
          consecutiveMatches := consecutiveMatches + 1;
          score := score - consecutiveMatches * 50;
        } else {
          consecutiveMatches := 0;
          if lastMatchIndex >= 0 {
            score := score + (i - lastMatchIndex - 1) * 20;
          }
        }
        if isWordBoundary {
          score := score - 100;
        }
        score := score + i;
        lastMatchIndex := i;
        ps := ps + [i];
        queryIndex := queryIndex + 1;
      }
      i := i + 1;
    }
    ScanEnd(query, text, i, all, ps);
    if queryIndex < |query| {
      return NO_MATCH;
    }
    if query == text {
      score := score - EXACT_BONUS;
    }
    return FuzzyMatch(true, score);
  }

  // ---- The swapped query ----

  predicate IsLetter(c: char) { 'a' <= c <= 'z' }

  predicate IsDigit(c: char) { '0' <= c <= '9' }

  predicate AllOf(p: char -> bool, s: string) {
    forall c <- s :: p(c)
  }

  /** The length of the longest prefix with the property. */
  function Span(p: char -> bool, s: string): (n: nat)
    ensures n <= |s| && AllOf(p, s[..n]) && (n < |s| ==> !p(s[n]))
  {
    if s == "" || !p(s[0]) then 0 else
      var n := 1 + Span(p, s[1..]);
      assert s[..n] == [s[0]] + s[1..][..n - 1];
      n
  }

  /** The swap for a query of the shape `p+q+`, and "" for any other. */
  function Exchanged(p: char -> bool, q: char -> bool, query: string): string {
    var n := Span(p, query);
    if 0 < n < |query| && AllOf(q, query[n..]) then query[n..] + query[..n] else ""
  }

  function Swapped(query: string): string {
    var alphaNumeric := Exchanged(IsLetter, IsDigit, query);
    if alphaNumeric != "" then alphaNumeric else Exchanged(IsDigit, IsLetter, query)
  }

  function FuzzyMatchOf(query: string, text: string): FuzzyMatch {
    var primary := MatchOf(query, text);
    if primary.matches || Swapped(query) == "" then primary
    else
      var swapped := MatchOf(Swapped(query), text);
      if swapped.matches then FuzzyMatch(true, swapped.score + SWAP_PENALTY) else primary
  }

  /** Matches exactly the texts that hold the query, or its swapped form, as a subsequence; no text but the
      query itself reaches the query's own score. */
  method FuzzyMatchText(query: string, text: string) returns (m: FuzzyMatch)
    ensures m == FuzzyMatchOf(query, text)
    ensures m.matches <==> Subsequence(query, text) || (Swapped(query) != "" && Subsequence(Swapped(query), text))
    ensures Subsequence(query, text) ==> m == MatchOf(query, text)
    ensures !Subsequence(query, text) && m.matches ==> m.score == MatchOf(Swapped(query), text).score + 50
    ensures !m.matches ==> m.score == 0
    ensures m.matches && query != "" ==>
      var best := BaseScore(query, |query|) - EXACT_BONUS;
      m.score >= best && (m.score == best <==> text == query)
  {
    hide MatchOf, Swapped, Subsequence, BaseScore;
    MatchesExactlySubsequences(query, text);
    MatchesExactlySubsequences(Swapped(query), text);
    NoMatchNoScore(query, text);
    if query != "" {
      SelfMatch(query);
      if text != query && FuzzyMatchOf(query, text).matches {
        ExactMatchDominates(query, text);
      }
    }
    var primaryMatch := MatchQuery(query, text);
    if primaryMatch.matches {
      return primaryMatch;
    }
    var swappedQuery := Swapped(query);
    if swappedQuery == "" {
      return primaryMatch;
    }
    var swappedMatch := MatchQuery(swappedQuery, text);
    if !swappedMatch.matches {
      return primaryMatch;
    }
    return FuzzyMatch(true, swappedMatch.score + SWAP_PENALTY);
  }

  /** Letters then digits, or digits then letters, cut at `n`. */
  predicate TwoParts(query: string, n: nat) {
    && 0 < n < |query|
    && ((AllOf(IsLetter, query[..n]) && AllOf(IsDigit, query[n..]))
        || (AllOf(IsDigit, query[..n]) && AllOf(IsLetter, query[n..])))
  }

  /** A query has a swap exactly when it is letters then digits or digits then letters; the swap
      exchanges the two parts, and swapping again gives the query back. */
  lemma SwapExchangesTheParts(query: string)
    ensures Swapped(query) != "" <==> exists n: nat :: TwoParts(query, n)
    ensures forall n: nat :: TwoParts(query, n) ==> Swapped(query) == query[n..] + query[..n]
    ensures Swapped(query) != "" ==> Swapped(Swapped(query)) == query
  {
    forall n: nat | TwoParts(query, n) ensures Swapped(query) == query[n..] + query[..n] {
      SwapOfParts(query, n);
    }
    if Swapped(query) != "" {
      var n := SwapCut(query);
      SwapBack(query, n);
    }
  }

  lemma SwapCut(query: string) returns (n: nat)
    requires Swapped(query) != ""
    ensures TwoParts(query, n)
  {
    n := if Exchanged(IsLetter, IsDigit, query) != "" then Span(IsLetter, query) else Span(IsDigit, query);
  }

  lemma SwapOfParts(query: string, n: nat)
    requires TwoParts(query, n)
    ensures Swapped(query) == query[n..] + query[..n]
  {
    assert query[..n][0] == query[0] && query[0] in query[..n];
    assert query[n..][0] == query[n] && query[n] in query[n..];
    if AllOf(IsLetter, query[..n]) {
      SpanOf(IsLetter, query, n);
    } else {
      SpanOf(IsDigit, query, n);
    }
  }

  lemma SwapBack(query: string, n: nat)
    requires TwoParts(query, n)
    ensures Swapped(query[n..] + query[..n]) == query
  {
    hide Swapped;
    var back, m := query[n..] + query[..n], |query| - n;
    assert back[..m] == query[n..] && back[m..] == query[..n];
    SwapOfParts(back, m);
    assert query[..n] + query[n..] == query;
  }

  lemma {:induction false} SpanOf(p: char -> bool, s: string, n: nat)
    requires n < |s| && AllOf(p, s[..n]) && !p(s[n])
    ensures Span(p, s) == n
  {
    if n > 0 {
      assert s[..n][0] == s[0] && s[..n] == [s[0]] + s[1..][..n - 1];
      SpanOf(p, s[1..], n - 1);
    }
  }

  // ---- An exact match beats every other ----

  /** The score of matching a query against itself, before the bonus. */
  function BaseScore(query: string, n: nat): int
    requires n <= |query|
  {
    if n == 0 then 0
    else BaseScore(query, n - 1) - 50 * n - (if AtBoundary(query, n - 1) then 100 else 0) + (n - 1)
  }

  lemma SelfMatch(query: string)
    requires query != ""
    ensures MatchOf(query, query) == FuzzyMatch(true, BaseScore(query, |query|) - EXACT_BONUS)
  {
    hide Greedy, Score, BaseScore, CharScore, RunLength;
    var ps, ids := Greedy(query, query, 0), seq<nat>(|query|, i requires 0 <= i => i);
    assert Embeds(query, query, ids, 0);
    GreedyIsEarliest(query, query, 0, ids);
    GreedyEmbeds(query, query, 0);
    forall k | 0 <= k < |query| ensures ps[k] == k {
      IncreasingFrom(ps, k);
    }
    SelfScore(query, ps, |query|);
  }

  lemma {:induction false} SelfScore(query: string, ps: seq<nat>, n: nat)
    requires n <= |query| == |ps| && forall k :: 0 <= k < |ps| ==> ps[k] == k
    ensures Score(ps, query, n) == BaseScore(query, n)
  {
    if n > 0 {
      SelfScore(query, ps, n - 1);
      SelfRun(ps, n - 1);
    }
  }

  lemma {:induction false} SelfRun(ps: seq<nat>, k: nat)
    requires k < |ps| && forall j :: 0 <= j < |ps| ==> ps[j] == j
    ensures RunLength(ps, k) == k + 1
  {
    if k > 0 {
      SelfRun(ps, k - 1);
    }
  }

  /** Character by character, no embedding scores better than the query against itself. */
  lemma {:induction false} NoBetterThanSelf(query: string, text: string, ps: seq<nat>, n: nat)
    requires n <= |query| && Embeds(query, text, ps, 0)
    ensures Score(ps, text, n) >= BaseScore(query, n)
  {
    if n > 0 {
      NoBetterThanSelf(query, text, ps, n - 1);
      var k := n - 1;
      IncreasingFrom(ps, k);
      RunIsShort(ps, k);
    }
  }

  lemma {:induction false} RunIsShort(ps: seq<nat>, k: nat)
    requires k < |ps|
    ensures RunLength(ps, k) <= k + 1
  {
    if k > 0 {
      RunIsShort(ps, k - 1);
    }
  }

  lemma MatchIsNoBetterThanSelf(query: string, text: string)
    requires query != "" && MatchOf(query, text).matches
    ensures MatchOf(query, text).score >= BaseScore(query, |query|) - if query == text then EXACT_BONUS else 0
  {
    var ps := Greedy(query, text, 0);
    GreedyEmbeds(query, text, 0);
    assert query[..|ps|] == query;
    NoBetterThanSelf(query, text, ps, |ps|);
  }

  /** Letters and digits end no word, so the base score of such a query depends on its length alone. */
  lemma {:induction false} AlphanumericBase(a: string, b: string, n: nat)
    requires n <= |a| == |b|
    requires forall i :: 0 <= i < n ==> !IsBoundary(a[i]) && !IsBoundary(b[i])
    ensures BaseScore(a, n) == BaseScore(b, n)
  {
    if n > 0 {
      AlphanumericBase(a, b, n - 1);
    }
  }

  /** The exact text wins: every other text that matches, directly or through the swapped query, has a
      strictly worse (higher) score than the text equal to the query. */
  lemma ExactMatchDominates(query: string, text: string)
    requires query != "" && text != query && FuzzyMatchOf(query, text).matches
    ensures FuzzyMatchOf(query, query).matches
    ensures FuzzyMatchOf(query, query).score < FuzzyMatchOf(query, text).score
  {
    SelfMatch(query);
    if MatchOf(query, text).matches {
      MatchIsNoBetterThanSelf(query, text);
    } else {
      var n := SwapCut(query);
      var swapped := Swapped(query);
      MatchIsNoBetterThanSelf(swapped, text);
      SwapOfParts(query, n);
      SwapHasNoBoundary(query, n);
      AlphanumericBase(query, swapped, |query|);
    }
  }

  lemma SwapHasNoBoundary(query: string, n: nat)
    requires TwoParts(query, n)
    ensures forall i :: 0 <= i < |query| ==> !IsBoundary(query[i]) && !IsBoundary((query[n..] + query[..n])[i])
  {
    assert query == query[..n] + query[n..];
    forall c | c in query[..n] || c in query[n..] ensures !IsBoundary(c) {
      assert IsLetter(c) || IsDigit(c);
    }
  }
}
