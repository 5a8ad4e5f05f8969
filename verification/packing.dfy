/** Packing session transcripts into files of bounded size, in order. */
module Packing {
  import Text

  const MAX_CHARS_PER_FILE := 100_000
  const SEPARATOR := "\n\n"

  /** The content of a file that holds the given transcripts. */
  function Joined(group: seq<string>): string {
    if group == [] then ""
    else if |group| == 1 then group[0]
    else Joined(group[..|group| - 1]) + SEPARATOR + group[|group| - 1]
  }

  function JoinedAll(groups: seq<seq<string>>): seq<string> {
    seq(|groups|, i requires 0 <= i < |groups| => Joined(groups[i]))
  }

  function Flatten(groups: seq<seq<string>>): seq<string> {
    if groups == [] then [] else Flatten(groups[..|groups| - 1]) + groups[|groups| - 1]
  }

  predicate Fits(group: seq<string>) {
    |Joined(group)| <= MAX_CHARS_PER_FILE
  }

  /** A file is within the bound unless it holds one oversized transcript alone. */
  predicate Allowed(group: seq<string>) {
    group != [] && (Fits(group) || |group| == 1)
  }

  /** A way to cut the transcripts, in order, into allowed files. */
  ghost predicate Packs(groups: seq<seq<string>>, transcripts: seq<string>) {
    Flatten(groups) == transcripts && forall g <- groups :: Allowed(g)
  }

  /** The header of a session is part of every transcript, so none is empty. */
  predicate NonEmpty(transcripts: seq<string>) {
    forall t <- transcripts :: t != ""
  }

  // ---- Sizes ----

  lemma {:induction false} PrefixIsNoLonger(group: seq<string>, n: nat)
    requires n <= |group|
    ensures |Joined(group[..n])| <= |Joined(group)|
  {
    if n < |group| {
      PrefixIsNoLonger(group[..|group| - 1], n);
      assert group[..|group| - 1][..n] == group[..n];
      if |group| == 1 { assert group[..n] == []; }
    } else {
      assert group[..n] == group;
    }
  }

  lemma {:induction false} SuffixIsNoLonger(group: seq<string>, n: nat)
    requires n <= |group|
    ensures |Joined(group[n..])| <= |Joined(group)|
  {
    if n < |group| && |group| > 1 {
      var front := group[..|group| - 1];
      SuffixIsNoLonger(front, n);
      if n < |front| {
        assert group[n..][..|group[n..]| - 1] == front[n..];
      } else {
        assert group[n..] == [group[|group| - 1]];
      }
    } else if n == |group| {
      assert group[n..] == [];
    } else {
      assert group[n..] == group;
    }
  }

  lemma JoinedOneMore(group: seq<string>, t: string)
    ensures Joined(group + [t]) == if group == [] then t else Joined(group) + SEPARATOR + t
    ensures group != [] && t != "" ==> Joined(group + [t]) != ""
  {
    assert (group + [t])[..|group|] == group;
  }

  lemma JoinedIsEmptyOnlyForNone(group: seq<string>)
    requires NonEmpty(group)
    ensures Joined(group) == "" <==> group == []
  {
    if |group| == 1 {
      assert group[0] in group;
    }
  }

  // ---- The packing loop ----

  ghost predicate NoRoom(groups: seq<seq<string>>, i: nat)
    requires i + 1 < |groups|
  {
    groups[i] != [] && groups[i + 1] != [] && !Fits(groups[i] + [groups[i + 1][0]])
  }

  /** Every group but the last has no room for the transcript behind it. */
  ghost predicate Full(groups: seq<seq<string>>) {
    forall i: nat :: i + 1 < |groups| ==> NoRoom(groups, i)
  }

  /** The closed groups and the one whose content is being collected cover the transcripts read. When
      nothing is being collected, the last closed group is an oversized transcript. */
  ghost predicate Collecting(closed: seq<seq<string>>, current: seq<string>, read: seq<string>) {
    && Flatten(closed) + current == read && NonEmpty(current)
    && (forall g <- closed :: Allowed(g))
    && Fits(current)
    && (if current != [] then Full(closed + [current]) else Full(closed) && (closed != [] ==> !Fits(closed[|closed| - 1])))
  }

  /** What one transcript does to the groups. */
  ghost function Next(closed: seq<seq<string>>, current: seq<string>, t: string): (seq<seq<string>>, seq<string>) {
    var flush := current != [] && !Fits(current + [t]);
    var before := if flush then closed + [current] else closed;
    if |t| > MAX_CHARS_PER_FILE then (before + [[t]], [])
    else (before, (if flush then [] else current) + [t])
  }

  lemma FlattenOneMore(groups: seq<seq<string>>, g: seq<string>)
    ensures Flatten(groups + [g]) == Flatten(groups) + g
  {
    assert (groups + [g])[..|groups|] == groups;
  }

  lemma FullOneMore(groups: seq<seq<string>>, g: seq<string>)
    requires Full(groups) && g != []
    requires groups != [] ==> groups[|groups| - 1] != [] && !Fits(groups[|groups| - 1] + [g[0]])
    ensures Full(groups + [g])
  {
    var all := groups + [g];
    forall i: nat | i + 1 < |all| ensures NoRoom(all, i) {
      if i + 1 < |groups| {
        assert NoRoom(groups, i);
      }
    }
  }

  /** A group that is too large stays too large. */
  lemma TooLargeStays(group: seq<string>, t: string)
    requires !Fits(group) && group != []
    ensures !Fits(group + [t])
  {
    JoinedOneMore(group, t);
  }

  /** Replacing the collected group by a longer one that starts alike keeps the closed groups full. */
  lemma FullWithLonger(closed: seq<seq<string>>, current: seq<string>, longer: seq<string>)
    requires Full(closed + [current]) && current != [] && longer != [] && longer[0] == current[0]
    ensures Full(closed + [longer])
  {
    var before, after := closed + [current], closed + [longer];
    forall i: nat | i + 1 < |after| ensures NoRoom(after, i) {
      assert NoRoom(before, i);
    }
  }

  /** Closing the collected group, when it has no room for `t`, leaves full groups ready to take `t`. */
  lemma Closed(closed: seq<seq<string>>, current: seq<string>, read: seq<string>, t: string) returns (before: seq<seq<string>>)
    requires Collecting(closed, current, read) && (current != [] ==> !Fits(current + [t]))
    ensures before == (if current != [] then closed + [current] else closed) && Flatten(before) == read
    ensures (forall g <- before :: Allowed(g)) && Full(before + [[t]])
  {
    hide Fits;
    before := if current != [] then closed + [current] else closed;
    FlattenOneMore(closed, current);
    if before != [] && current == [] {
      assert before[|before| - 1] in before;
      TooLargeStays(before[|before| - 1], t);
    }
    FullOneMore(before, [t]);
  }

  lemma NextKeepsCollecting(closed: seq<seq<string>>, current: seq<string>, read: seq<string>, t: string)
    requires Collecting(closed, current, read) && t != ""
    ensures var (groups, collected) := Next(closed, current, t); Collecting(groups, collected, read + [t])
  {
    hide Fits, Full, Flatten;
    SizeOfOne(current, t);
    SizeOfOne([], t);
    if current != [] && Fits(current + [t]) {
      FullWithLonger(closed, current, current + [t]);
      AppendOne(Flatten(closed), current, t);
    } else {
      var before := Closed(closed, current, read, t);
      FlattenOneMore(before, [t]);
      AppendOne(read, [], t);
      FullOfFewer(before, [t]);
    }
  }

  lemma AppendOne(a: seq<string>, b: seq<string>, t: string)
    ensures a + (b + [t]) == a + b + [t] && a + [t] + [] == a + [t] && [] + [t] == [t]
  {}

  lemma FullOfFewer(groups: seq<seq<string>>, g: seq<string>)
    requires Full(groups + [g])
    ensures Full(groups)
  {
    forall i: nat | i + 1 < |groups| ensures NoRoom(groups, i) {
      assert NoRoom(groups + [g], i);
    }
  }

  lemma SizeOfOne(current: seq<string>, t: string)
    ensures Fits([t]) <==> |t| <= MAX_CHARS_PER_FILE
    ensures current != [] && |t| > MAX_CHARS_PER_FILE ==> !Fits(current + [t])
    ensures current != [] ==> (Fits(current + [t]) <==> |Joined(current)| + |t| + 2 <= MAX_CHARS_PER_FILE)
    ensures current == [] ==> Fits(current)
  {
    JoinedOneMore(current, t);
  }

  /** The packing loop: the files hold a full packing of the transcripts, and no packing has fewer. The
      file written at position `i` of the output carries number `i`. */
  method PackTranscripts(transcripts: seq<string>) returns (files: seq<string>)
    requires NonEmpty(transcripts)
    ensures exists groups :: files == JoinedAll(groups) && Packs(groups, transcripts) && Full(groups)
    ensures forall others :: Packs(others, transcripts) ==> |files| <= |others|
  {
    hide Fits, Collecting, Packs, Full, Joined, JoinedAll;
    files := [];
    ghost var groups: seq<seq<string>> := [];
    var currentContent := "";
    var fileIndex := 0;
    ghost var current: seq<string> := [];
    NothingCollected();
    for i := 0 to |transcripts|
      invariant fileIndex == |files| && files == JoinedAll(groups)
      invariant currentContent == Joined(current)
      invariant Collecting(groups, current, transcripts[..i])
    {
      var transcript := transcripts[i];
      assert transcript in transcripts;
      assert transcripts[..i + 1] == transcripts[..i] + [transcript];
      NextKeepsCollecting(groups, current, transcripts[..i], transcript);
      SizeOfOne(current, transcript);
      JoinedOneMore(current, transcript);
      JoinedOneMore([], transcript);
      assert [] + [transcript] == [transcript];
      CollectedIsEmptyOnlyForNone(groups, current, transcripts[..i]);
      ghost var next := Next(groups, current, transcript);

      if |currentContent| > 0 && |currentContent| + |transcript| + 2 > MAX_CHARS_PER_FILE {
        OneMoreFile(groups, current);
        files := files + [currentContent];
        groups, current := groups + [current], [];
        currentContent := "";
        fileIndex := fileIndex + 1;
      }
      if |transcript| > MAX_CHARS_PER_FILE {
        if |currentContent| > 0 {
          // Pending content is never found here: the flush above has just run.
          assert false;
        }
        OneMoreFile(groups, [transcript]);
        files := files + [transcript];
        groups := groups + [[transcript]];
        fileIndex := fileIndex + 1;
      } else {
        currentContent := currentContent + (if currentContent != "" then SEPARATOR else "") + transcript;
        current := current + [transcript];
      }
      assert (groups, current) == next;
    }
    assert transcripts[..|transcripts|] == transcripts;
    CollectedIsEmptyOnlyForNone(groups, current, transcripts);
    AllCollected(groups, current, transcripts);
    if |currentContent| > 0 {
      OneMoreFile(groups, current);
      files := files + [currentContent];
      groups := groups + [current];
    }
    SmallestOfAll(groups, transcripts);
  }

  lemma OneMoreFile(groups: seq<seq<string>>, g: seq<string>)
    ensures JoinedAll(groups + [g]) == JoinedAll(groups) + [Joined(g)]
    ensures |JoinedAll(groups)| == |groups|
  {
    hide Joined;
  }

  lemma CollectedIsEmptyOnlyForNone(closed: seq<seq<string>>, current: seq<string>, read: seq<string>)
    requires Collecting(closed, current, read)
    ensures Joined(current) == "" <==> current == []
  {
    JoinedIsEmptyOnlyForNone(current);
  }

  /** Writing what is still collected completes a full packing. */
  lemma AllCollected(closed: seq<seq<string>>, current: seq<string>, transcripts: seq<string>)
    requires Collecting(closed, current, transcripts)
    ensures var groups := if current == [] then closed else closed + [current];
      Packs(groups, transcripts) && Full(groups)
  {
    FlattenOneMore(closed, current);
    if current == [] {
      assert Flatten(closed) + [] == Flatten(closed);
    }
  }

  lemma SmallestOfAll(groups: seq<seq<string>>, transcripts: seq<string>)
    requires Packs(groups, transcripts) && Full(groups)
    ensures forall others :: Packs(others, transcripts) ==> |JoinedAll(groups)| <= |others|
  {
    hide Packs, Full;
    forall others | Packs(others, transcripts) ensures |groups| <= |others| {
      FullPackingIsSmallest(groups, others, transcripts);
    }
  }

  lemma NothingCollected()
    ensures Collecting([], [], []) && Joined([]) == "" && JoinedAll([]) == []
  {}

  // ---- Full packings are the smallest ----

  lemma {:induction false} FlattenAppend(a: seq<seq<string>>, b: seq<seq<string>>)
    ensures Flatten(a + b) == Flatten(a) + Flatten(b)
  {
    if b == [] {
      assert a + b == a;
    } else {
      FlattenAppend(a, b[..|b| - 1]);
      assert (a + b)[..|a + b| - 1] == a + b[..|b| - 1];
    }
  }

  /** Where group `k` begins in the flattened list. */
  ghost function Offset(groups: seq<seq<string>>, k: nat): nat
    requires k <= |groups|
  {
    |Flatten(groups[..k])|
  }

  lemma GroupIsSlice(groups: seq<seq<string>>, k: nat)
    requires k < |groups|
    ensures Offset(groups, k + 1) == Offset(groups, k) + |groups[k]| <= |Flatten(groups)|
    ensures Flatten(groups)[Offset(groups, k)..Offset(groups, k + 1)] == groups[k]
  {
    var before, after := groups[..k], groups[k + 1..];
    assert groups == before + [groups[k]] + after && groups[..k + 1] == before + [groups[k]];
    FlattenOneMore(before, groups[k]);
    FlattenAppend(before + [groups[k]], after);
  }

  lemma SliceFits(group: seq<string>, from: nat, to: nat)
    requires from <= to <= |group| && Fits(group)
    ensures Fits(group[from..to])
  {
    PrefixIsNoLonger(group, to);
    SuffixIsNoLonger(group[..to], from);
    assert group[..to][from..] == group[from..to];
  }

  lemma SliceOfSlice(s: seq<string>, start: nat, length: nat, from: nat, to: nat)
    requires start + length <= |s| && from <= to <= length
    ensures s[start..start + length][from..to] == s[start + from..start + to]
  {
    var slice := s[start..start + length];
    forall k | from <= k < to ensures slice[k] == s[start + k] {}
    assert slice[from..to] == s[start + from..start + to];
  }

  /** Neighbouring transcripts that all lie within one allowed file fit together. */
  lemma WithinOneFile(transcripts: seq<string>, start: nat, o: seq<string>, shift: nat, g: seq<string>)
    requires start + |o| <= |transcripts| && o == transcripts[start..start + |o|] && Allowed(o)
    requires g != [] && shift + |g| < |o| && g == transcripts[start + shift..start + shift + |g|]
    ensures Fits(g + [transcripts[start + shift + |g|]])
  {
    hide Fits;
    var next := transcripts[start + shift + |g|];
    var a, b := start + shift, start + shift + |g|;
    assert transcripts[a..b + 1] == transcripts[a..b] + [next];
    SliceOfSlice(transcripts, start, |o|, shift, shift + |g| + 1);
    NotAlone(o, g);
    SliceFits(o, shift, shift + |g| + 1);
  }

  /** After the same number of files, a full packing has placed at least as many transcripts. */
  lemma {:induction false} FullPackingStaysAhead(groups: seq<seq<string>>, others: seq<seq<string>>, transcripts: seq<string>, k: nat)
    requires Packs(groups, transcripts) && Full(groups) && Packs(others, transcripts)
    requires k <= |groups| && k <= |others|
    ensures Offset(groups, k) >= Offset(others, k)
  {
    hide Fits, Allowed, Flatten;
    if k > 0 {
      FullPackingStaysAhead(groups, others, transcripts, k - 1);
      GroupIsSlice(groups, k - 1);
      GroupIsSlice(others, k - 1);
      assert groups[..|groups|] == groups;
      if k < |groups| {
        assert NoRoom(groups, k - 1);
        GroupIsSlice(groups, k);
        var start, shift := Offset(others, k - 1), Offset(groups, k - 1) - Offset(others, k - 1);
        if shift + |groups[k - 1]| < |others[k - 1]| {
          assert others[k - 1] in others;
          WithinOneFile(transcripts, start, others[k - 1], shift, groups[k - 1]);
        }
      }
    }
  }

  lemma NotAlone(o: seq<string>, g: seq<string>)
    requires Allowed(o) && g != [] && |o| > |g|
    ensures Fits(o)
  {}

  /** The loop writes as few files as any order-preserving packing within the bound can. */
  lemma FullPackingIsSmallest(groups: seq<seq<string>>, others: seq<seq<string>>, transcripts: seq<string>)
    requires Packs(groups, transcripts) && Full(groups) && Packs(others, transcripts)
    ensures |groups| <= |others|
  {
    hide Fits, Full;
    assert others[..|others|] == others;
    if |groups| > |others| {
      assert groups[|others|] in groups;
      FullPackingStaysAhead(groups, others, transcripts, |others|);
      GroupIsSlice(groups, |others|);
    }
  }

  /** Two packings that are both full are the same, so the loop's choice is the only one of its kind. */
  lemma FullPackingIsUnique(groups: seq<seq<string>>, others: seq<seq<string>>, transcripts: seq<string>)
    requires Packs(groups, transcripts) && Full(groups) && Packs(others, transcripts) && Full(others)
    ensures groups == others
  {
    hide Fits, Full, Packs;
    FullPackingIsSmallest(groups, others, transcripts);
    FullPackingIsSmallest(others, groups, transcripts);
    forall k | 0 <= k < |groups| ensures groups[k] == others[k] {
      SameGroup(groups, others, transcripts, k);
    }
  }

  lemma SameGroup(groups: seq<seq<string>>, others: seq<seq<string>>, transcripts: seq<string>, k: nat)
    requires Packs(groups, transcripts) && Full(groups) && Packs(others, transcripts) && Full(others)
    requires k < |groups| == |others|
    ensures groups[k] == others[k]
  {
    hide Fits, Full;
    FullPackingStaysAhead(groups, others, transcripts, k);
    FullPackingStaysAhead(others, groups, transcripts, k);
    FullPackingStaysAhead(groups, others, transcripts, k + 1);
    FullPackingStaysAhead(others, groups, transcripts, k + 1);
    GroupIsSlice(groups, k);
    GroupIsSlice(others, k);
  }

  /** A file is its transcripts joined by empty lines, and is within the bound up to a hundred thousand
      characters. */
  lemma {:induction false} FilesAreJoined(group: seq<string>)
    ensures Joined(group) == if group == [] then "" else Text.Join(group, "\n\n")
    ensures Fits(group) <==> |Joined(group)| <= 100000
  {
    if |group| > 1 {
      var front, t := group[..|group| - 1], group[|group| - 1];
      FilesAreJoined(front);
      JoinOneMore(front, t);
      assert group == front + [t];
    }
  }

  lemma {:induction false} JoinOneMore(front: seq<string>, t: string)
    requires front != []
    ensures Text.Join(front + [t], "\n\n") == Text.Join(front, "\n\n") + "\n\n" + t
  {
    var all := front + [t];
    assert all[1..] == front[1..] + [t];
    if |front| == 1 {
      assert all[1..] == [t];
    } else {
      JoinOneMore(front[1..], t);
      var rest := Text.Join(front[1..], "\n\n");
      assert front[0] + "\n\n" + (rest + "\n\n" + t) == front[0] + "\n\n" + rest + "\n\n" + t;
    }
  }
}
