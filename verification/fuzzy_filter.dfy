/** Filtering and ranking items by every word of a query. */
module FuzzyFilters {
  import opened Text
  import opened Fuzzy

  // ---- The words of a query ----

  predicate NoSpace(c: char) { !IsSpace(c) }

  /** The maximal runs without white space. */
  function Words(s: string): seq<string>
    decreases |s|
  {
    if s == "" then []
    else if IsSpace(s[0]) then Words(s[1..])
    else
      var n := Span(NoSpace, s);
      [s[..n]] + Words(s[n..])
  }

  ghost predicate IsWord(w: string) {
    w != "" && AllOf(NoSpace, w)
  }

  /** The words are what white space separates: a word in front is split off, and what is left of white
      space has no more words. */
  lemma WordsOfText(w: string, c: char, rest: string)
    requires IsWord(w) && IsSpace(c)
    ensures Words("") == [] && Words([c] + rest) == Words(rest)
    ensures Words(w) == [w] && Words(w + [c] + rest) == [w] + Words(rest)
  {
    var s, behind := w + [c] + rest, [c] + rest;
    SpanOfWord(w, w);
    SpanOfWord(w, s);
    assert s[|w|..] == behind && w[|w|..] == "" && s[..|w|] == w && w[..|w|] == w;
    assert w[0] in w && s[0] == w[0];
    assert behind[1..] == rest;
  }

  lemma {:induction false} SpanOfWord(w: string, s: string)
    requires w <= s && AllOf(NoSpace, w) && (|s| == |w| || IsSpace(s[|w|]))
    ensures Span(NoSpace, s) == |w|
  {
    if w != "" {
      assert w[0] in w;
      SpanOfWord(w[1..], s[1..]);
    }
  }

  /** Trimming loses no word, and exactly the blank queries have none. */
  lemma TrimKeepsWords(s: string)
    ensures Words(Trim(s)) == Words(s)
    ensures Words(s) == [] <==> Trim(s) == ""
  {
    StartKeepsWords(s);
    EndKeepsWords(TrimStart(s));
    EndOfTrimmed(s);
  }

  lemma {:induction false} StartKeepsWords(s: string)
    ensures Words(TrimStart(s)) == Words(s)
    ensures TrimStart(s) == "" || !IsSpace(TrimStart(s)[0])
  {
    if s != "" && IsSpace(s[0]) {
      StartKeepsWords(s[1..]);
    }
  }

  lemma {:induction false} EndKeepsWords(s: string)
    ensures Words(TrimEnd(s)) == Words(s) && TrimEnd(s) <= s
    decreases |s|
  {
    if s != "" && IsSpace(s[|s| - 1]) {
      var front := s[..|s| - 1];
      EndKeepsWords(front);
      SpaceBehind(front, s[|s| - 1]);
      assert s == front + [s[|s| - 1]];
    }
  }

  lemma EndOfTrimmed(s: string)
    ensures Trim(s) == "" || !IsSpace(Trim(s)[0])
  {
    StartKeepsWords(s);
    EndKeepsWords(TrimStart(s));
  }

  lemma {:induction false} SpaceBehind(s: string, c: char)
    requires IsSpace(c)
    ensures Words(s + [c]) == Words(s)
    decreases |s|
  {
    var t := s + [c];
    if s == "" {
      assert t[1..] == "";
    } else if IsSpace(s[0]) {
      SpaceBehind(s[1..], c);
      assert t[1..] == s[1..] + [c];
    } else {
      var n := Span(NoSpace, s);
      assert t[..n] == s[..n] && t[n..] == s[n..] + [c];
      SpanOfWord(s[..n], t);
      SpaceBehind(s[n..], c);
    }
  }

  // ---- Ranking ----

  datatype Scored<T> = Scored(item: T, totalScore: int)

  predicate AllMatch(tokens: seq<string>, text: string) {
    forall t <- tokens :: FuzzyMatchOf(t, text).matches
  }

  function Total(tokens: seq<string>, text: string): int {
    if tokens == [] then 0 else FuzzyMatchOf(tokens[0], text).score + Total(tokens[1..], text)
  }

  /** The items on which every token matches, with their totals, in input order. */
  function Kept<T>(items: seq<T>, tokens: seq<string>, getText: T -> string): seq<Scored<T>> {
    if items == [] then []
    else
      var text := getText(items[0]);
      (if AllMatch(tokens, text) then [Scored(items[0], Total(tokens, text))] else [])
      + Kept(items[1..], tokens, getText)
  }

  function OfScore<T>(rs: seq<Scored<T>>, v: int): seq<Scored<T>> {
    if rs == [] then [] else (if rs[0].totalScore == v then [rs[0]] else []) + OfScore(rs[1..], v)
  }

  predicate Ascending<T>(rs: seq<Scored<T>>) {
    forall i, j :: 0 <= i < j < |rs| ==> rs[i].totalScore <= rs[j].totalScore
  }

  /** A stable ordering of `rs` by score: ascending, and entries of equal score in the order of `rs`. */
  ghost predicate StablyOrders<T>(ordered: seq<Scored<T>>, rs: seq<Scored<T>>) {
    Ascending(ordered) && forall v :: OfScore(ordered, v) == OfScore(rs, v)
  }

  function Insert<T>(e: Scored<T>, rs: seq<Scored<T>>): seq<Scored<T>> {
    if rs == [] || e.totalScore <= rs[0].totalScore then [e] + rs else [rs[0]] + Insert(e, rs[1..])
  }

  /** The library's stable sort. */
  function SortByScore<T>(rs: seq<Scored<T>>): seq<Scored<T>> {
    if rs == [] then [] else Insert(rs[0], SortByScore(rs[1..]))
  }

  lemma {:induction false} InsertKeepsOrder<T>(e: Scored<T>, rs: seq<Scored<T>>)
    requires Ascending(rs)
    ensures Ascending(Insert(e, rs)) && Insert(e, rs) != []
    ensures Insert(e, rs)[0] == e || (rs != [] && Insert(e, rs)[0] == rs[0] && rs[0].totalScore < e.totalScore)
  {
    if rs != [] && e.totalScore > rs[0].totalScore {
      InsertKeepsOrder(e, rs[1..]);
    }
  }

  lemma {:induction false} InsertOfScore<T>(e: Scored<T>, rs: seq<Scored<T>>, v: int)
    ensures OfScore(Insert(e, rs), v) == (if e.totalScore == v then [e] else []) + OfScore(rs, v)
  {
    hide OfScore;
    if rs == [] || e.totalScore <= rs[0].totalScore {
      OfScoreAhead(e, rs, v);
    } else {
      InsertOfScore(e, rs[1..], v);
      OfScoreAhead(rs[0], Insert(e, rs[1..]), v);
      OfScoreAhead(rs[0], rs[1..], v);
      assert rs == [rs[0]] + rs[1..];
    }
  }

  lemma OfScoreAhead<T>(e: Scored<T>, rs: seq<Scored<T>>, v: int)
    ensures OfScore([e] + rs, v) == (if e.totalScore == v then [e] else []) + OfScore(rs, v)
  {
    assert ([e] + rs)[1..] == rs;
  }

  lemma {:induction false} SortIsStable<T>(rs: seq<Scored<T>>)
    ensures StablyOrders(SortByScore(rs), rs)
  {
    if rs != [] {
      var rest := SortByScore(rs[1..]);
      SortIsStable(rs[1..]);
      InsertKeepsOrder(rs[0], rest);
      forall v ensures OfScore(Insert(rs[0], rest), v) == OfScore(rs, v) {
        InsertOfScore(rs[0], rest, v);
      }
    }
  }

  /** A stable ordering is unique, so nothing about the sort is left open. */
  lemma StableOrderIsUnique<T>(a: seq<Scored<T>>, b: seq<Scored<T>>, rs: seq<Scored<T>>)
    requires StablyOrders(a, rs) && StablyOrders(b, rs)
    ensures a == b
  {
    SameOfScore(a, b);
  }

  lemma {:induction false} SameOfScore<T>(a: seq<Scored<T>>, b: seq<Scored<T>>)
    requires Ascending(a) && Ascending(b) && forall v :: OfScore(a, v) == OfScore(b, v)
    ensures a == b
  {
    if a == [] {
      if b != [] {
        FirstIsFound(b);
        assert false;
      }
    } else {
      var v := a[0].totalScore;
      var k := HasScore(b, v);
      var j := HasScore(a, b[0].totalScore);
      assert OfScore(a, v)[0] == a[0] && OfScore(b, v)[0] == b[0];
      forall u ensures OfScore(a[1..], u) == OfScore(b[1..], u) {
        assert OfScore(a, u) == OfScore(b, u);
        OfScoreAhead(a[0], a[1..], u);
        OfScoreAhead(b[0], b[1..], u);
        assert a == [a[0]] + a[1..] && b == [b[0]] + b[1..];
        var here := if u == v then [a[0]] else [];
        assert here + OfScore(a[1..], u) == here + OfScore(b[1..], u);
        SameTail(here, OfScore(a[1..], u), OfScore(b[1..], u));
      }
      SameOfScore(a[1..], b[1..]);
    }
  }

  lemma FirstIsFound<T>(rs: seq<Scored<T>>)
    requires rs != []
    ensures OfScore(rs, rs[0].totalScore) != []
  {}

  lemma SameTail<T>(here: seq<T>, a: seq<T>, b: seq<T>)
    requires here + a == here + b
    ensures a == b
  {
    assert a == (here + a)[|here|..] && b == (here + b)[|here|..];
  }

  lemma {:induction false} HasScore<T>(rs: seq<Scored<T>>, v: int) returns (k: nat)
    requires OfScore(rs, v) != []
    ensures k < |rs| && rs[k].totalScore == v && OfScore(rs, v)[0] == rs[k]
  {
    if rs[0].totalScore == v {
      k := 0;
    } else {
      k := HasScore(rs[1..], v);
      k := k + 1;
    }
  }

  function ItemsOf<T>(rs: seq<Scored<T>>): seq<T> {
    seq(|rs|, i requires 0 <= i < |rs| => rs[i].item)
  }

  /** What the filter returns: the kept items in ascending order of their totals, ties in input order. */
  function Ranking<T>(items: seq<T>, tokens: seq<string>, getText: T -> string): seq<T> {
    ItemsOf(SortByScore(Kept(items, tokens, getText)))
  }

  method FuzzyFilter<T>(items: seq<T>, query: string, getText: T -> string) returns (out: seq<T>)
    ensures out == if Trim(query) == "" then items else Ranking(items, Words(query), getText)
  {
    hide FuzzyMatchOf, Words, Trim, SortByScore, Kept, Total, AllMatch;
    TrimKeepsWords(query);
    if |Trim(query)| == 0 {
      return items;
    }
    var tokens := Words(Trim(query));
    NoItems(items, tokens, getText);
    var results: seq<Scored<T>> := [];
    var i := 0;
    while i < |items|
      invariant 0 <= i <= |items|
      invariant results + Kept(items[i..], tokens, getText) == Kept(items, tokens, getText)
    {
      var text := getText(items[i]);
      var totalScore, allMatch := 0, true;
      var j := 0;
      NoTokens(tokens, text);
      while j < |tokens|
        invariant 0 <= j <= |tokens| && allMatch
        invariant AllMatch(tokens[..j], text)
        invariant totalScore + Total(tokens[j..], text) == Total(tokens, text)
      {
        var m := FuzzyMatchText(tokens[j], text);
        OneMoreToken(tokens, j, text);
        if m.matches {
          totalScore := totalScore + m.score;
        } else {
          allMatch := false;
          break;
        }
        j := j + 1;
      }
      assert j == |tokens| ==> tokens[..j] == tokens;
      OneMoreItem(items, i, tokens, getText);
      if allMatch {
        results := results + [Scored(items[i], totalScore)];
      }
      i := i + 1;
    }
    assert results + [] == results && i == |items|;
    results := SortByScore(results);
    out := ItemsOf(results);
  }

  lemma NoItems<T>(items: seq<T>, tokens: seq<string>, getText: T -> string)
    ensures [] + Kept(items[0..], tokens, getText) == Kept(items, tokens, getText)
    ensures Kept(items[|items|..], tokens, getText) == []
  {
    assert items[0..] == items;
  }

  lemma NoTokens(tokens: seq<string>, text: string)
    ensures Total(tokens[0..], text) == Total(tokens, text) && Total(tokens[|tokens|..], text) == 0
    ensures AllMatch(tokens[..0], text)
  {
    assert tokens[0..] == tokens;
  }

  lemma OneMoreToken(tokens: seq<string>, j: nat, text: string)
    requires j < |tokens|
    ensures Total(tokens[j..], text) == FuzzyMatchOf(tokens[j], text).score + Total(tokens[j + 1..], text)
    ensures !FuzzyMatchOf(tokens[j], text).matches ==> !AllMatch(tokens, text)
    ensures AllMatch(tokens[..j], text) && FuzzyMatchOf(tokens[j], text).matches ==> AllMatch(tokens[..j + 1], text)
  {
    assert tokens[j..][1..] == tokens[j + 1..];
    assert tokens[j] in tokens && tokens[..j + 1] == tokens[..j] + [tokens[j]];
  }

  lemma OneMoreItem<T>(items: seq<T>, i: nat, tokens: seq<string>, getText: T -> string)
    requires i < |items|
    ensures var text := getText(items[i]);
      Kept(items[i..], tokens, getText)
      == (if AllMatch(tokens, text) then [Scored(items[i], Total(tokens, text))] else [])
         + Kept(items[i + 1..], tokens, getText)
  {
    assert items[i..][1..] == items[i + 1..];
  }

  // ---- What the ranking means ----

  lemma {:induction false} KeptItems<T>(items: seq<T>, tokens: seq<string>, getText: T -> string)
    ensures forall x <- items :: AllMatch(tokens, getText(x)) ==>
      Scored(x, Total(tokens, getText(x))) in Kept(items, tokens, getText)
    ensures forall e <- Kept(items, tokens, getText) ::
      e.item in items && AllMatch(tokens, getText(e.item)) && e.totalScore == Total(tokens, getText(e.item))
  {
    if items != [] {
      KeptItems(items[1..], tokens, getText);
      assert items == [items[0]] + items[1..];
    }
  }

  lemma SameEntries<T>(a: seq<Scored<T>>, b: seq<Scored<T>>, e: Scored<T>)
    requires e in a && OfScore(a, e.totalScore) == OfScore(b, e.totalScore)
    ensures e in b
  {
    InOfScore(a, e);
    OfScoreIn(b, e);
  }

  lemma {:induction false} InOfScore<T>(rs: seq<Scored<T>>, e: Scored<T>)
    requires e in rs
    ensures e in OfScore(rs, e.totalScore)
  {
    if rs[0] != e {
      InOfScore(rs[1..], e);
    }
  }

  lemma {:induction false} OfScoreIn<T>(rs: seq<Scored<T>>, e: Scored<T>)
    requires e in OfScore(rs, e.totalScore)
    ensures e in rs
  {
    if rs[0] != e {
      OfScoreIn(rs[1..], e);
    }
  }

  /** Sound and complete: an item is returned exactly when every token matches its text. */
  lemma RankingIsSoundAndComplete<T>(items: seq<T>, tokens: seq<string>, getText: T -> string, x: T)
    ensures x in Ranking(items, tokens, getText) <==> x in items && AllMatch(tokens, getText(x))
  {
    var kept := Kept(items, tokens, getText);
    var sorted := SortByScore(kept);
    KeptItems(items, tokens, getText);
    SortIsStable(kept);
    if x in items && AllMatch(tokens, getText(x)) {
      SameEntries(kept, sorted, Scored(x, Total(tokens, getText(x))));
      var k :| 0 <= k < |sorted| && sorted[k] == Scored(x, Total(tokens, getText(x)));
      assert ItemsOf(sorted)[k] == x;
    }
    if x in ItemsOf(sorted) {
      var k :| 0 <= k < |sorted| && ItemsOf(sorted)[k] == x;
      SameEntries(sorted, kept, sorted[k]);
    }
  }

  /** The order of the words does not matter: not for what matches, not for the ranking. */
  lemma TokenOrderIsIrrelevant<T>(items: seq<T>, ts: seq<string>, us: seq<string>, getText: T -> string)
    requires multiset(ts) == multiset(us)
    ensures Ranking(items, ts, getText) == Ranking(items, us, getText)
  {
    SameKept(items, ts, us, getText);
  }

  lemma {:induction false} SameKept<T>(items: seq<T>, ts: seq<string>, us: seq<string>, getText: T -> string)
    requires multiset(ts) == multiset(us)
    ensures Kept(items, ts, getText) == Kept(items, us, getText)
  {
    if items != [] {
      SameKept(items[1..], ts, us, getText);
      SameTotal(ts, us, getText(items[0]));
    }
  }

  lemma {:induction false} SameTotal(ts: seq<string>, us: seq<string>, text: string)
    requires multiset(ts) == multiset(us)
    ensures Total(ts, text) == Total(us, text) && (AllMatch(ts, text) <==> AllMatch(us, text))
  {
    assert |ts| == |multiset(ts)| && |us| == |multiset(us)|;
    if ts != [] {
      var k := WithoutBoth(ts, us);
      SameTotal(ts[1..], us[..k] + us[k + 1..], text);
      TotalMovesOut(us, k, text);
    }
    if AllMatch(ts, text) {
      SameMatches(ts, us, text);
    }
    if AllMatch(us, text) {
      SameMatches(us, ts, text);
    }
  }

  lemma SameMatches(ts: seq<string>, us: seq<string>, text: string)
    requires multiset(ts) == multiset(us) && AllMatch(ts, text)
    ensures AllMatch(us, text)
  {
    forall t | t in us ensures t in ts {
      assert t in multiset(us);
    }
  }

  lemma WithoutBoth<T>(ts: seq<T>, us: seq<T>) returns (k: nat)
    requires ts != [] && multiset(ts) == multiset(us)
    ensures k < |us| && us[k] == ts[0] && multiset(ts[1..]) == multiset(us[..k] + us[k + 1..])
  {
    assert ts[0] in multiset(us);
    k :| k < |us| && us[k] == ts[0];
    WithoutFirst(ts);
    WithoutOne(us, k);
  }

  lemma WithoutFirst<T>(s: seq<T>)
    requires s != []
    ensures multiset(s[1..]) == multiset(s) - multiset{s[0]}
  {
    assert s == [s[0]] + s[1..];
  }

  lemma WithoutOne<T>(s: seq<T>, k: nat)
    requires k < |s|
    ensures multiset(s[..k] + s[k + 1..]) == multiset(s) - multiset{s[k]}
  {
    var front, behind := s[..k], [s[k]] + s[k + 1..];
    assert s == front + behind && multiset(behind) == multiset{s[k]} + multiset(s[k + 1..]);
  }

  lemma TotalMovesOut(us: seq<string>, k: nat, text: string)
    requires k < |us|
    ensures Total(us, text) == FuzzyMatchOf(us[k], text).score + Total(us[..k] + us[k + 1..], text)
  {
    hide Total, FuzzyMatchOf;
    TotalAppend(us[..k], us[k..], text);
    TotalAppend(us[..k], us[k + 1..], text);
    OneMoreToken(us, k, text);
    assert us == us[..k] + us[k..];
  }

  lemma {:induction false} TotalAppend(a: seq<string>, b: seq<string>, text: string)
    ensures Total(a + b, text) == Total(a, text) + Total(b, text)
  {
    hide FuzzyMatchOf;
    if a == [] {
      assert a + b == b;
    } else {
      assert (a + b)[1..] == a[1..] + b;
      TotalAppend(a[1..], b, text);
    }
  }

  /** A one-word query ranks every item whose text is that word ahead of every item whose text is not,
      and leaves none of them out. */
  lemma ExactItemsComeFirst<T>(items: seq<T>, word: string, getText: T -> string)
    requires word != ""
    ensures var ranked := Ranking(items, [word], getText);
      && (forall i, j :: 0 <= i < j < |ranked| && getText(ranked[j]) == word ==> getText(ranked[i]) == word)
      && (forall x <- items :: getText(x) == word ==> x in ranked)
  {
    hide FuzzyMatchOf, SortByScore, Kept, Total, AllMatch;
    var kept := Kept(items, [word], getText);
    var sorted := SortByScore(kept);
    SortIsStable(kept);
    forall k | 0 <= k < |sorted| ensures Ranked(sorted[k], word, getText) {
      EntryIsRanked(items, word, getText, sorted[k]);
    }
    forall i, j | 0 <= i < j < |sorted| && getText(sorted[j].item) == word ensures getText(sorted[i].item) == word {
      assert Ranked(sorted[i], word, getText) && Ranked(sorted[j], word, getText);
    }
    forall x <- items | getText(x) == word ensures x in Ranking(items, [word], getText) {
      ExactMatches(word);
      RankingIsSoundAndComplete(items, [word], getText, x);
    }
  }

  /** The best score belongs to the word's own text alone. */
  ghost predicate Ranked<T>(e: Scored<T>, word: string, getText: T -> string) {
    var best := FuzzyMatchOf(word, word).score;
    e.totalScore >= best && (e.totalScore == best <==> getText(e.item) == word)
  }

  lemma ExactMatches(word: string)
    requires word != ""
    ensures AllMatch([word], word)
  {
    SelfMatch(word);
  }

  lemma EntryIsRanked<T>(items: seq<T>, word: string, getText: T -> string, e: Scored<T>)
    requires word != "" && e in SortByScore(Kept(items, [word], getText))
    ensures Ranked(e, word, getText)
  {
    hide FuzzyMatchOf, SortByScore, Kept, Total;
    var kept := Kept(items, [word], getText);
    SortIsStable(kept);
    SameEntries(SortByScore(kept), kept, e);
    KeptItems(items, [word], getText);
    var text := getText(e.item);
    OneTokenTotal(word, text);
    if text != word {
      assert AllMatch([word], text) && word in [word];
      ExactMatchDominates(word, text);
    }
  }

  lemma OneTokenTotal(word: string, text: string)
    ensures Total([word], text) == FuzzyMatchOf(word, text).score
  {}

  /** The items on which every token matches with a given total, in the order given. */
  function Scoring<T>(items: seq<T>, tokens: seq<string>, getText: T -> string, total: int): seq<T> {
    if items == [] then []
    else
      var text := getText(items[0]);
      (if AllMatch(tokens, text) && Total(tokens, text) == total then [items[0]] else [])
      + Scoring(items[1..], tokens, getText, total)
  }

  /** The ranking is ordered: totals ascend, and for every total the items that have it stand in the order
      in which they were given, none left out or repeated. */
  lemma RankingIsOrdered<T>(items: seq<T>, tokens: seq<string>, getText: T -> string)
    ensures var ranked := Ranking(items, tokens, getText);
      && (forall i, j :: 0 <= i < j < |ranked| ==> Total(tokens, getText(ranked[i])) <= Total(tokens, getText(ranked[j])))
      && (forall total :: Scoring(ranked, tokens, getText, total) == Scoring(items, tokens, getText, total))
  {
    hide Total, AllMatch, SortByScore, Kept, OfScore, Scoring;
    var kept := Kept(items, tokens, getText);
    var sorted := SortByScore(kept);
    SortIsStable(kept);
    forall e <- sorted ensures Genuine(e, tokens, getText) {
      SameEntries(sorted, kept, e);
      KeptItems(items, tokens, getText);
    }
    assert forall i :: 0 <= i < |sorted| ==> sorted[i] in sorted;
    forall total ensures Scoring(ItemsOf(sorted), tokens, getText, total) == Scoring(items, tokens, getText, total) {
      ScoringOfEntries(sorted, tokens, getText, total);
      ScoringOfKept(items, tokens, getText, total);
    }
  }

  ghost predicate Genuine<T>(e: Scored<T>, tokens: seq<string>, getText: T -> string) {
    AllMatch(tokens, getText(e.item)) && e.totalScore == Total(tokens, getText(e.item))
  }

  lemma {:induction false} ScoringOfEntries<T>(rs: seq<Scored<T>>, tokens: seq<string>, getText: T -> string, total: int)
    requires forall e <- rs :: Genuine(e, tokens, getText)
    ensures Scoring(ItemsOf(rs), tokens, getText, total) == ItemsOf(OfScore(rs, total))
  {
    hide Total, AllMatch;
    if rs != [] {
      assert rs[0] in rs && ItemsOf(rs)[1..] == ItemsOf(rs[1..]);
      ScoringOfEntries(rs[1..], tokens, getText, total);
    }
  }

  lemma {:induction false} ScoringOfKept<T>(items: seq<T>, tokens: seq<string>, getText: T -> string, total: int)
    ensures Scoring(items, tokens, getText, total) == ItemsOf(OfScore(Kept(items, tokens, getText), total))
  {
    hide Total, AllMatch;
    if items != [] {
      var rest := Kept(items[1..], tokens, getText);
      ScoringOfKept(items[1..], tokens, getText, total);
      if AllMatch(tokens, getText(items[0])) {
        OfScoreAhead(Scored(items[0], Total(tokens, getText(items[0]))), rest, total);
      } else {
        assert [] + rest == rest;
      }
    }
  }

  /** The total of several tokens is the sum of their scores. */
  lemma TotalIsSum(a: seq<string>, b: seq<string>, word: string, text: string)
    ensures Total([], text) == 0 && Total([word], text) == FuzzyMatchOf(word, text).score
    ensures Total(a + b, text) == Total(a, text) + Total(b, text)
  {
    OneTokenTotal(word, text);
    TotalAppend(a, b, text);
  }
}
