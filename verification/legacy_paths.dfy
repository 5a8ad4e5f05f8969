/** Rewriting paths of the legacy layout inside imported settings. */
module LegacyPaths {
  import opened AgentTypes
  import opened Text

  // ---- Replacing every occurrence ----

  predicate Contains(s: string, p: string) {
    p <= s || (s != "" && Contains(s[1..], p))
  }

  function ReplaceAll(value: string, from: string, to: string): string {
    if from != "" && Contains(value, from) then Join(Split(value, from), to) else value
  }

  /** One scan from the left that replaces every occurrence it meets. */
  function Replaced(s: string, from: string, to: string): string
    requires from != ""
    decreases |s|
  {
    if s == "" then ""
    else if from <= s then to + Replaced(s[|from|..], from, to)
    else [s[0]] + Replaced(s[1..], from, to)
  }

  /** Splitting and joining is one scan from the left. */
  lemma ReplaceAllIsOneScan(s: string, from: string, to: string)
    requires from != ""
    ensures ReplaceAll(s, from, to) == Replaced(s, from, to)
  {
    if Contains(s, from) {
      SplitThenJoin(s, from, to);
    } else {
      AbsentIsNoOp(s, from, to);
    }
  }

  lemma {:induction false} SplitThenJoin(s: string, from: string, to: string)
    requires from != ""
    ensures Join(Split(s, from), to) == Replaced(s, from, to)
    decreases |s|
  {
    hide Split, Join;
    if s == "" {
      NothingToSplit(from, to);
    } else if from <= s {
      SplitHere(s, from, to);
      SplitThenJoin(s[|from|..], from, to);
    } else {
      JoinedAhead(s, from, to);
      SplitThenJoin(s[1..], from, to);
    }
  }

  lemma NothingToSplit(from: string, to: string)
    requires from != ""
    ensures Join(Split("", from), to) == ""
  {}

  lemma SplitHere(s: string, from: string, to: string)
    requires from != "" && from <= s
    ensures Join(Split(s, from), to) == to + Join(Split(s[|from|..], from), to)
  {
    assert Split(s, from)[1..] == Split(s[|from|..], from);
  }

  lemma JoinedAhead(s: string, from: string, to: string)
    requires from != "" && s != "" && !(from <= s)
    ensures Join(Split(s, from), to) == [s[0]] + Join(Split(s[1..], from), to)
  {
    hide Join;
    JoinAhead(Split(s[1..], from), s[0], to);
  }

  lemma {:induction false} AbsentIsNoOp(s: string, from: string, to: string)
    requires from != "" && !Contains(s, from)
    ensures Replaced(s, from, to) == s
    decreases |s|
  {
    if s != "" {
      AbsentIsNoOp(s[1..], from, to);
    }
  }

  // ---- Occurrences ----

  /** No occurrence of `p` can begin in `x` and end behind it. */
  predicate NoStraddle(x: string, p: string) {
    x != "" && p != "" && x[|x| - 1] !in p[..|p| - 1]
  }

  lemma PrefixWithin(x: string, y: string, p: string)
    requires NoStraddle(x, p)
    ensures p <= x + y ==> p <= x
  {
    if |p| > |x| {
      assert p[..|p| - 1][|x| - 1] in p[..|p| - 1];
      assert (x + y)[|x| - 1] == x[|x| - 1];
    }
  }

  lemma PrefixOfCons(c: char, rest: string, p: string)
    requires p != ""
    ensures p <= [c] + rest <==> p[0] == c && p[1..] <= rest
  {
    var s := [c] + rest;
    assert s[0] == c && s[1..] == rest;
    if p[0] == c && p[1..] <= rest {
      assert p == [c] + p[1..];
    }
    if p <= s {
      assert p[1..] == s[1..|p|];
    }
  }

  lemma ReplacedStep(s: string, from: string, to: string)
    requires from != ""
    ensures s == "" ==> Replaced(s, from, to) == ""
    ensures s != "" && !(from <= s) ==> Replaced(s, from, to) == [s[0]] + Replaced(s[1..], from, to)
    ensures from <= s ==> Replaced(s, from, to) == to + Replaced(s[|from|..], from, to)
  {}

  lemma {:induction false} ReplacedAppend(x: string, y: string, p: string, q: string)
    requires NoStraddle(x, p)
    ensures Replaced(x + y, p, q) == Replaced(x, p, q) + Replaced(y, p, q)
    decreases |x|
  {
    hide Replaced;
    PrefixWithin(x, y, p);
    var n, out := if p <= x then |p| else 1, if p <= x then q else [x[0]];
    var rest := x[n..];
    assert (x + y)[n..] == rest + y;
    ReplacedStep(x, p, q);
    ReplacedStep(x + y, p, q);
    if rest == "" {
      assert rest + y == y;
      ReplacedStep(rest, p, q);
    } else {
      ReplacedAppend(rest, y, p, q);
    }
    AppendAssoc(out, Replaced(rest, p, q), Replaced(y, p, q));
  }

  lemma {:induction false} ContainsAppend(x: string, y: string, p: string)
    requires NoStraddle(x, p)
    ensures Contains(x + y, p) ==> Contains(x, p) || Contains(y, p)
    decreases |x|
  {
    PrefixWithin(x, y, p);
    assert (x + y)[1..] == x[1..] + y;
    if |x| == 1 {
      assert x[1..] + y == y;
    } else {
      ContainsAppend(x[1..], y, p);
    }
  }

  lemma {:induction false} ContainsBehind(x: string, y: string, p: string)
    requires Contains(y, p)
    ensures Contains(x + y, p)
  {
    if x == "" {
      assert x + y == y;
    } else {
      ContainsBehind(x[1..], y, p);
      assert (x + y)[1..] == x[1..] + y;
    }
  }

  lemma {:induction false} ContainsAhead(x: string, y: string, p: string)
    requires Contains(x, p)
    ensures Contains(x + y, p)
  {
    if !(p <= x) {
      ContainsAhead(x[1..], y, p);
      assert (x + y)[1..] == x[1..] + y;
    }
  }

  lemma {:induction false} ContainsTrans(s: string, p: string, q: string)
    requires Contains(s, p) && Contains(p, q)
    ensures Contains(s, q)
  {
    if p <= s {
      ContainsAhead(p, s[|p|..], q);
      assert s == p + s[|p|..];
    } else {
      ContainsTrans(s[1..], p, q);
    }
  }

  // ---- What a replacement leaves alone ----

  /** `head` occurs in `u` at most as its end. */
  predicate Avoids(u: string, head: string) {
    !(head <= u && |head| < |u|) && (u == "" || Avoids(u[1..], head))
  }

  /** Replacing a text by one that begins alike, with `head`, neither makes nor breaks `u` at the front
      of a string. */
  lemma {:induction false} FrontIsKept(s: string, from: string, to: string, head: string, u: string)
    requires head != "" && head <= from && head <= to && Avoids(u, head)
    ensures u <= Replaced(s, from, to) <==> u <= s
    decreases |s|
  {
    if u != "" && s != "" {
      if from <= s {
        FrontOfBoth(from, s[|from|..], to + Replaced(s[|from|..], from, to), head, u);
        assert s == from + s[|from|..];
      } else {
        FrontIsKept(s[1..], from, to, head, u[1..]);
        PrefixOfCons(s[0], s[1..], u);
        PrefixOfCons(s[0], Replaced(s[1..], from, to), u);
        assert s == [s[0]] + s[1..];
      }
    }
  }

  lemma FrontOfBoth(from: string, rest: string, out: string, head: string, u: string)
    requires head <= from && head <= out && !(head <= u && |head| < |u|)
    ensures u <= out <==> u <= from + rest
  {
    var s := from + rest;
    assert head <= s;
    if |u| <= |head| {
      assert u <= out <==> u <= head;
      assert u <= s <==> u <= head;
    }
  }

  /** A replacement creates no occurrence of `p`, and leaves none when it replaces `p` itself. */
  lemma {:induction false} NoneCreated(s: string, from: string, to: string, head: string, p: string)
    requires p != "" && head != "" && head <= from && head <= to && Avoids(p[1..], head)
    requires NoStraddle(to, p) && !Contains(to, p)
    requires from == p || !Contains(s, p)
    ensures !Contains(Replaced(s, from, to), p)
    decreases |s|
  {
    if s == "" {
    } else if from <= s {
      var rest := s[|from|..];
      assert s == from + rest;
      if Contains(rest, p) { ContainsBehind(from, rest, p); }
      NoneCreated(rest, from, to, head, p);
      ContainsAppend(to, Replaced(rest, from, to), p);
    } else {
      var out := Replaced(s[1..], from, to);
      NoneCreated(s[1..], from, to, head, p);
      FrontIsKept(s[1..], from, to, head, p[1..]);
      assert ([s[0]] + out)[1..] == out;
      PrefixOfCons(s[0], out, p);
      PrefixOfCons(s[0], s[1..], p);
      assert s == [s[0]] + s[1..];
    }
  }

  /** A stretch without the first character of `from` is copied. */
  lemma {:induction false} Copied(x: string, y: string, from: string, to: string)
    requires from != "" && from[0] !in x
    ensures Replaced(x + y, from, to) == x + Replaced(y, from, to)
    decreases |x|
  {
    if x == "" {
      assert x + y == y;
    } else {
      Copied(x[1..], y, from, to);
      assert (x + y)[1..] == x[1..] + y && x[0] in x;
      assert !(from <= x + y);
    }
  }

  /** Replacing `from` by `to` first makes no difference to a later replacement of `p` by `q` that turns
      both into the same text. */
  lemma {:induction false} Absorbed(s: string, from: string, to: string, p: string, q: string)
    requires from != "" && to != "" && from[0] == to[0] && from[0] !in p
    requires NoStraddle(from, p) && NoStraddle(to, p)
    requires Replaced(from, p, q) == Replaced(to, p, q)
    ensures Replaced(Replaced(s, from, to), p, q) == Replaced(s, p, q)
    decreases |s|
  {
    if s == "" {
    } else if from <= s {
      var rest := s[|from|..];
      assert s == from + rest;
      Absorbed(rest, from, to, p, q);
      ReplacedAppend(from, rest, p, q);
      ReplacedAppend(to, Replaced(rest, from, to), p, q);
    } else {
      var front := if p <= s then p else [s[0]];
      var rest := s[|front|..];
      assert s == front + rest;
      AbsorbedFront(s, from, to, p);
      Absorbed(rest, from, to, p, q);
      assert (front + Replaced(rest, from, to))[|front|..] == Replaced(rest, from, to);
    }
  }

  lemma {:induction false} AvoidsAbsent(u: string, c: char)
    requires c !in u
    ensures Avoids(u, [c])
  {
    if u != "" {
      assert u[0] in u && [c][0] == c;
      AvoidsAbsent(u[1..], c);
    }
  }

  lemma AbsorbedFront(s: string, from: string, to: string, p: string)
    requires s != "" && from != "" && to != "" && p != "" && from[0] == to[0] && from[0] !in p && !(from <= s)
    ensures var front := if p <= s then p else [s[0]];
      Replaced(s, from, to) == front + Replaced(s[|front|..], from, to)
    ensures p <= Replaced(s, from, to) <==> p <= s
  {
    hide Avoids, Replaced;
    AvoidsAbsent(p, from[0]);
    FrontIsKept(s, from, to, [from[0]], p);
    if p <= s {
      CopiedFront(s, from, to, p);
    } else {
      ReplacedStep(s, from, to);
    }
  }

  lemma CopiedFront(s: string, from: string, to: string, p: string)
    requires from != "" && from[0] !in p && p <= s
    ensures Replaced(s, from, to) == p + Replaced(s[|p|..], from, to)
  {
    hide Replaced;
    var rest := s[|p|..];
    assert s == p + rest;
    Copied(p, rest, from, to);
  }

  // ---- The six passes ----

  const LEGACY_CONFIG_DIR_NAME := ".pi"
  const CONFIG_DIR_NAME := ".lumen"

  datatype PathRewrite = PathRewrite(
    legacyUserDir: string, targetUserDir: string, legacyProjectDir: string, targetProjectDir: string)

  /** The directories as they are built from the home directory, the agent directory (which may be
      configured) and the working directory. */
  function PathsFor(home: string, agentDir: string, cwd: string, sep: char): PathRewrite {
    PathRewrite(
      home + [sep] + LEGACY_CONFIG_DIR_NAME + [sep] + "agent", agentDir,
      cwd + [sep] + LEGACY_CONFIG_DIR_NAME, cwd + [sep] + CONFIG_DIR_NAME)
  }

  function TildePasses(value: string): string {
    ReplaceAll(ReplaceAll(value, "~/.pi/agent/", "~/.lumen/agent/"), "~/.pi/agent", "~/.lumen/agent")
  }

  function DirectoryPasses(value: string): string {
    ReplaceAll(ReplaceAll(value, ".pi/", ".lumen/"), ".pi\\", ".lumen\\")
  }

  function UserPass(value: string, dirs: PathRewrite): string {
    ReplaceAll(value, dirs.legacyUserDir, dirs.targetUserDir)
  }

  function ProjectPass(value: string, dirs: PathRewrite): string {
    ReplaceAll(value, dirs.legacyProjectDir, dirs.targetProjectDir)
  }

  function StringRewritten(value: string, dirs: PathRewrite): string {
    ProjectPass(UserPass(DirectoryPasses(TildePasses(value)), dirs), dirs)
  }

  /** For the directories of the program the result holds no legacy path and is what three of the six
      passes make of the value; for any directories the two passes over `~/.pi/agent` change nothing. */
  method RewriteLegacyStringPaths(value: string, dirs: PathRewrite) returns (result: string)
    ensures result == StringRewritten(value, dirs) == ProjectPass(UserPass(DirectoryPasses(value), dirs), dirs)
    ensures forall home, agentDir, cwd, sep :: sep in {'/', '\\'} && dirs == PathsFor(home, agentDir, cwd, sep) ==>
      Clean(result) && result == ProjectPass(DirectoryPasses(value), dirs)
  {
    TildePassesAreAbsorbed(value);
    forall home, agentDir, cwd, sep | sep in {'/', '\\'} && dirs == PathsFor(home, agentDir, cwd, sep)
      ensures Clean(StringRewritten(value, dirs)) && StringRewritten(value, dirs) == ProjectPass(DirectoryPasses(value), dirs)
    {
      SixPassesAreThree(value, home, agentDir, cwd, sep);
      NoLegacyPathIsLeft(value, home, agentDir, cwd, sep);
    }
    result := value;
    result := ReplaceAll(result, "~/.pi/agent/", "~/.lumen/agent/");
    result := ReplaceAll(result, "~/.pi/agent", "~/.lumen/agent");
    result := ReplaceAll(result, ".pi/", ".lumen/");
    result := ReplaceAll(result, ".pi\\", ".lumen\\");
    result := ReplaceAll(result, dirs.legacyUserDir, dirs.targetUserDir);
    result := ReplaceAll(result, dirs.legacyProjectDir, dirs.targetProjectDir);
  }

  predicate Clean(s: string) {
    !Contains(s, ".pi/") && !Contains(s, ".pi\\")
  }

  lemma {:induction false} AbsentByChar(s: string, p: string, c: char)
    requires c in p && c !in s
    ensures !Contains(s, p)
  {
    if s != "" {
      AbsentByChar(s[1..], p, c);
    }
    var k :| 0 <= k < |p| && p[k] == c;
    assert |p| <= |s| ==> s[k] in s;
  }

  /** The pass over `.pi/` turns `~/.pi/` in front of a tail into `~/.lumen/`, and keeps `~/.lumen/`. */
  lemma TildeSpelling(tail: string)
    requires '.' !in tail && 'p' !in tail
    ensures Replaced("~/.pi/" + tail, ".pi/", ".lumen/") == "~/.lumen/" + tail
    ensures Replaced("~/.lumen/" + tail, ".pi/", ".lumen/") == "~/.lumen/" + tail
  {
    hide Replaced;
    UntouchedByPass("~/.lumen/" + tail);
    UntouchedByPass(tail);
    var front, dir, behind := "~/", ".pi/", ".pi/" + tail;
    AppendAssoc("~/", ".pi/", tail);
    assert front + dir == "~/.pi/";
    Copied(front, behind, dir, ".lumen/");
    DirectoryInFront(tail);
    AppendAssoc("~/", ".lumen/", tail);
    assert "~/" + ".lumen/" == "~/.lumen/";
  }

  lemma UntouchedByPass(s: string)
    requires 'p' !in s
    ensures Replaced(s, ".pi/", ".lumen/") == s
  {
    hide Replaced, Contains;
    AbsentByChar(s, ".pi/", 'p');
    AbsentIsNoOp(s, ".pi/", ".lumen/");
  }

  lemma DirectoryInFront(tail: string)
    ensures Replaced(".pi/" + tail, ".pi/", ".lumen/") == ".lumen/" + Replaced(tail, ".pi/", ".lumen/")
  {
    hide Replaced;
    var dir := ".pi/";
    ReplacedStep(dir + tail, dir, ".lumen/");
    assert (dir + tail)[|dir|..] == tail;
  }

  lemma TildeSpellings()
    ensures Replaced("~/.pi/agent/", ".pi/", ".lumen/") == Replaced("~/.lumen/agent/", ".pi/", ".lumen/")
    ensures Replaced("~/.pi/agent", ".pi/", ".lumen/") == Replaced("~/.lumen/agent", ".pi/", ".lumen/")
  {
    hide Replaced;
    TildeSpelling("agent/");
    TildeSpelling("agent");
    assert "~/.pi/" + "agent/" == "~/.pi/agent/" && "~/.lumen/" + "agent/" == "~/.lumen/agent/";
    assert "~/.pi/" + "agent" == "~/.pi/agent" && "~/.lumen/" + "agent" == "~/.lumen/agent";
  }

  /** The two passes over `~/.pi/agent` are subsumed by the pass over `.pi/`. */
  lemma TildePassesAreAbsorbed(value: string)
    ensures DirectoryPasses(TildePasses(value)) == DirectoryPasses(value)
  {
    hide Replaced, Contains;
    var once := Replaced(value, "~/.pi/agent/", "~/.lumen/agent/");
    var twice := Replaced(once, "~/.pi/agent", "~/.lumen/agent");
    TildeSpellings();
    Absorbed(value, "~/.pi/agent/", "~/.lumen/agent/", ".pi/", ".lumen/");
    Absorbed(once, "~/.pi/agent", "~/.lumen/agent", ".pi/", ".lumen/");
    ReplaceAllIsOneScan(value, "~/.pi/agent/", "~/.lumen/agent/");
    ReplaceAllIsOneScan(once, "~/.pi/agent", "~/.lumen/agent");
    ReplaceAllIsOneScan(twice, ".pi/", ".lumen/");
    ReplaceAllIsOneScan(value, ".pi/", ".lumen/");
  }

  lemma SeparatorFacts()
    ensures Avoids("pi/", ".") && Avoids("pi\\", ".")
    ensures Clean(".lumen/") && Clean(".lumen\\")
    ensures NoStraddle(".lumen/", ".pi/") && NoStraddle(".lumen\\", ".pi/")
    ensures NoStraddle(".lumen/", ".pi\\") && NoStraddle(".lumen\\", ".pi\\")
  {
    hide Contains;
    AbsentByChar(".lumen/", ".pi/", 'p');
    AbsentByChar(".lumen/", ".pi\\", 'p');
    AbsentByChar(".lumen\\", ".pi/", 'p');
    AbsentByChar(".lumen\\", ".pi\\", 'p');
    AvoidsAbsent("pi/", '.');
    AvoidsAbsent("pi\\", '.');
  }

  lemma DirectoryPassesClean(value: string)
    ensures Clean(DirectoryPasses(value))
  {
    hide Replaced, Contains, Avoids, NoStraddle;
    SeparatorFacts();
    var slashes := Replaced(value, ".pi/", ".lumen/");
    assert ".pi/"[1..] == "pi/" && ".pi\\"[1..] == "pi\\";
    NoneCreated(value, ".pi/", ".lumen/", ".", ".pi/");
    NoneCreated(slashes, ".pi\\", ".lumen\\", ".", ".pi/");
    NoneCreated(slashes, ".pi\\", ".lumen\\", ".", ".pi\\");
    ReplaceAllIsOneScan(value, ".pi/", ".lumen/");
    ReplaceAllIsOneScan(slashes, ".pi\\", ".lumen\\");
  }

  /** Nothing that contains a legacy path is found in a clean string. */
  lemma CleanHasNo(s: string, p: string)
    requires Clean(s) && !Clean(p)
    ensures !Contains(s, p)
  {
    if Contains(s, p) {
      if Contains(p, ".pi/") {
        ContainsTrans(s, p, ".pi/");
      } else {
        ContainsTrans(s, p, ".pi\\");
      }
    }
  }

  /** The legacy user directory always spells a legacy path. */
  lemma UserDirIsLegacy(home: string, agentDir: string, cwd: string, sep: char)
    requires sep in {'/', '\\'}
    ensures !Clean(PathsFor(home, agentDir, cwd, sep).legacyUserDir)
  {
    var legacy := LEGACY_CONFIG_DIR_NAME + [sep];
    var front, behind := home + [sep], "agent";
    ContainsAhead(legacy, behind, legacy);
    ContainsBehind(front, legacy + behind, legacy);
    assert PathsFor(home, agentDir, cwd, sep).legacyUserDir == front + (legacy + behind);
    assert legacy == ".pi/" || legacy == ".pi\\";
  }

  /** So three passes do all the work, and the configured agent directory is never used. */
  lemma SixPassesAreThree(value: string, home: string, agentDir: string, cwd: string, sep: char)
    requires sep in {'/', '\\'}
    ensures var dirs := PathsFor(home, agentDir, cwd, sep);
      StringRewritten(value, dirs) == ProjectPass(DirectoryPasses(value), dirs)
  {
    hide Clean, Contains, DirectoryPasses, TildePasses;
    TildePassesAreAbsorbed(value);
    DirectoryPassesClean(value);
    UserDirIsLegacy(home, agentDir, cwd, sep);
    CleanHasNo(DirectoryPasses(value), PathsFor(home, agentDir, cwd, sep).legacyUserDir);
  }

  /** Replacing the project directory makes no legacy path of a clean string. */
  lemma ProjectPassStaysClean(value: string, home: string, agentDir: string, cwd: string, sep: char)
    requires sep in {'/', '\\'} && Clean(value)
    ensures Clean(ProjectPass(value, PathsFor(home, agentDir, cwd, sep)))
  {
    hide Replaced, Contains, Avoids, NoStraddle;
    var dirs := PathsFor(home, agentDir, cwd, sep);
    var from, to, head := dirs.legacyProjectDir, dirs.targetProjectDir, cwd + [sep];
    assert from == head + ".pi" && to == head + ".lumen";
    ReplaceAllIsOneScan(value, from, to);
    if Clean(head) {
      HeadFacts(cwd, sep);
      TargetIsClean(head);
      assert ".pi/"[1..] == "pi/" && ".pi\\"[1..] == "pi\\";
      NoneCreated(value, from, to, head, ".pi/");
      NoneCreated(value, from, to, head, ".pi\\");
    } else {
      LegacyAhead(head, ".pi");
      CleanHasNo(value, from);
      AbsentIsNoOp(value, from, to);
    }
  }

  lemma LegacyAhead(x: string, y: string)
    requires !Clean(x)
    ensures !Clean(x + y)
  {
    if Contains(x, ".pi/") {
      ContainsAhead(x, y, ".pi/");
    } else {
      ContainsAhead(x, y, ".pi\\");
    }
  }

  lemma HeadFacts(cwd: string, sep: char)
    requires sep in {'/', '\\'}
    ensures Avoids("pi/", cwd + [sep]) && Avoids("pi\\", cwd + [sep])
  {
    AvoidsBySeparator("pi/", cwd, sep);
    AvoidsBySeparator("pi\\", cwd, sep);
  }

  /** A head that ends with a separator is nowhere in a text whose only separator is its last character. */
  lemma {:induction false} AvoidsBySeparator(u: string, cwd: string, sep: char)
    requires forall i :: 0 <= i < |u| - 1 ==> u[i] != sep
    ensures Avoids(u, cwd + [sep])
  {
    assert (cwd + [sep])[|cwd|] == sep;
    if u != "" {
      AvoidsBySeparator(u[1..], cwd, sep);
    }
  }

  lemma TargetIsClean(head: string)
    requires head != "" && head[|head| - 1] in {'/', '\\'} && Clean(head)
    ensures Clean(head + ".lumen")
    ensures NoStraddle(head + ".lumen", ".pi/") && NoStraddle(head + ".lumen", ".pi\\")
  {
    hide Contains;
    ContainsAppend(head, ".lumen", ".pi/");
    ContainsAppend(head, ".lumen", ".pi\\");
    AbsentByChar(".lumen", ".pi/", 'p');
    AbsentByChar(".lumen", ".pi\\", 'p');
  }

  /** Whatever the directories are, no legacy path is left in a rewritten string. */
  lemma NoLegacyPathIsLeft(value: string, home: string, agentDir: string, cwd: string, sep: char)
    requires sep in {'/', '\\'}
    ensures Clean(StringRewritten(value, PathsFor(home, agentDir, cwd, sep)))
  {
    hide Clean;
    SixPassesAreThree(value, home, agentDir, cwd, sep);
    DirectoryPassesClean(value);
    ProjectPassStaysClean(DirectoryPasses(value), home, agentDir, cwd, sep);
  }

  // ---- JSON trees ----

  /** Assigning to this key of a fresh object sets its prototype and makes no entry. */
  const PROTO := "__proto__"

  /** The entries a fresh object holds after every one of `entries` is assigned to it. */
  function Assigned(entries: seq<(string, Json)>): seq<(string, Json)> {
    if entries == [] then []
    else
      var last := entries[|entries| - 1];
      Assigned(entries[..|entries| - 1]) + (if last.0 == PROTO then [] else [last])
  }

  function JsonRewritten(value: Json, dirs: PathRewrite): Json
    decreases value, 1
  {
    match value
    case JString(s) => JString(StringRewritten(s, dirs))
    case JArray(items) => JArray(seq(|items|, i requires 0 <= i < |items| => JsonRewritten(items[i], dirs)))
    case JObject(entries) => JObject(Assigned(FieldsRewritten(entries, dirs)))
    case _ => value
  }

  function FieldsRewritten(entries: seq<(string, Json)>, dirs: PathRewrite): (fields: seq<(string, Json)>)
    ensures |fields| == |entries|
    ensures forall i :: 0 <= i < |entries| ==> fields[i] == (entries[i].0, JsonRewritten(entries[i].1, dirs))
    decreases JObject(entries), 0
  {
    seq(|entries|, i requires 0 <= i < |entries| => (entries[i].0, JsonRewritten(entries[i].1, dirs)))
  }

  method RewriteLegacyJsonPaths(value: Json, dirs: PathRewrite) returns (rewritten: Json)
    ensures rewritten == JsonRewritten(value, dirs)
    decreases value
  {
    hide StringRewritten, Assigned;
    match value
    case JString(s) =>
      var result := RewriteLegacyStringPaths(s, dirs);
      rewritten := JString(result);
    case JArray(items) =>
      var mapped: seq<Json> := [];
      for i := 0 to |items|
        invariant |mapped| == i && forall k :: 0 <= k < i ==> mapped[k] == JsonRewritten(items[k], dirs)
      {
        var item := RewriteLegacyJsonPaths(items[i], dirs);
        mapped := mapped + [item];
      }
      rewritten := JArray(mapped);
    case JObject(entries) =>
      var fields: seq<(string, Json)> := [];
      ghost var all := FieldsRewritten(entries, dirs);
      NoneAssigned(all);
      for i := 0 to |entries|
        invariant fields == Assigned(all[..i])
      {
        var entry := RewriteLegacyJsonPaths(entries[i].1, dirs);
        OneMoreAssigned(all, i);
        if entries[i].0 != PROTO {
          fields := fields + [(entries[i].0, entry)];
        }
      }
      assert all[..|entries|] == all;
      rewritten := JObject(fields);
    case _ =>
      rewritten := value;
  }

  lemma NoneAssigned(all: seq<(string, Json)>)
    ensures Assigned(all[..0]) == []
  {}

  lemma OneMoreAssigned(all: seq<(string, Json)>, i: nat)
    requires i < |all|
    ensures Assigned(all[..i + 1]) == Assigned(all[..i]) + if all[i].0 == PROTO then [] else [all[i]]
  {
    assert all[..i + 1][..i] == all[..i];
  }

  // ---- What the rewriting keeps, and what it leaves ----

  predicate CleanJson(value: Json) {
    match value
    case JString(s) => Clean(s)
    case JArray(items) => forall i :: 0 <= i < |items| ==> CleanJson(items[i])
    case JObject(entries) => forall i :: 0 <= i < |entries| ==> CleanJson(entries[i].1)
    case _ => true
  }

  datatype Step = Key(key: string) | Index(index: nat)

  /** The value of the last entry with this key, which is the one an object keeps. */
  function Lookup(entries: seq<(string, Json)>, key: string): Option<Json> {
    if entries == [] then None
    else if entries[|entries| - 1].0 == key then Some(entries[|entries| - 1].1)
    else Lookup(entries[..|entries| - 1], key)
  }

  function Child(value: Json, step: Step): Option<Json> {
    match (value, step)
    case (JArray(items), Index(i)) => if i < |items| then Some(items[i]) else None
    case (JObject(entries), Key(k)) => Lookup(entries, k)
    case _ => None
  }

  function At(value: Json, path: seq<Step>): Option<Json>
    decreases |path|
  {
    if path == [] then Some(value)
    else
      match Child(value, path[0])
      case Some(child) => At(child, path[1..])
      case None => None
  }

  /** What rewriting makes of a value that may be absent. */
  function MaybeRewritten(value: Option<Json>, dirs: PathRewrite): Option<Json> {
    match value
    case Some(v) => Some(JsonRewritten(v, dirs))
    case None => None
  }

  lemma {:induction false} LookupRewritten(entries: seq<(string, Json)>, key: string, dirs: PathRewrite)
    ensures Lookup(Assigned(FieldsRewritten(entries, dirs)), key)
      == if key == PROTO then None else MaybeRewritten(Lookup(entries, key), dirs)
  {
    hide JsonRewritten;
    if entries != [] {
      var n := |entries| - 1;
      var all := FieldsRewritten(entries, dirs);
      assert all[..n] == FieldsRewritten(entries[..n], dirs);
      LookupRewritten(entries[..n], key, dirs);
      var kept := Assigned(all[..n]);
      if all[n].0 == PROTO {
        assert kept + [] == kept;
      } else {
        assert (kept + [all[n]])[..|kept|] == kept;
      }
      assert Lookup(entries, key) == if entries[n].0 == key then Some(entries[n].1) else Lookup(entries[..n], key);
    }
  }

  /** Every value stays where it was, rewritten; only what lies behind a `__proto__` key is lost. */
  lemma {:induction false} ValuesStayInPlace(value: Json, path: seq<Step>, dirs: PathRewrite)
    ensures At(JsonRewritten(value, dirs), path)
      == if Key(PROTO) in path then None else MaybeRewritten(At(value, path), dirs)
    decreases |path|
  {
    hide StringRewritten, Assigned;
    if path != [] {
      if value.JObject? && path[0].Key? {
        LookupRewritten(value.entries, path[0].key, dirs);
      }
      var child := Child(value, path[0]);
      if child.Some? {
        ValuesStayInPlace(child.value, path[1..], dirs);
      }
      assert path == [path[0]] + path[1..];
    }
  }

  /** The tree without its strings. */
  function Shape(value: Json): (shape: Json)
    decreases value, 1
  {
    match value
    case JString(s) => JString("")
    case JArray(items) => JArray(ShapeOfItems(items))
    case JObject(entries) => JObject(ShapeOfFields(entries))
    case _ => value
  }

  function ShapeOfItems(items: seq<Json>): (shapes: seq<Json>)
    ensures |shapes| == |items| && forall i :: 0 <= i < |items| ==> shapes[i] == Shape(items[i])
    decreases JArray(items), 0
  {
    seq(|items|, i requires 0 <= i < |items| => Shape(items[i]))
  }

  function ShapeOfFields(entries: seq<(string, Json)>): (shapes: seq<(string, Json)>)
    ensures |shapes| == |entries|
    ensures forall i :: 0 <= i < |entries| ==> shapes[i] == (entries[i].0, Shape(entries[i].1))
    decreases JObject(entries), 0
  {
    seq(|entries|, i requires 0 <= i < |entries| => (entries[i].0, Shape(entries[i].1)))
  }

  predicate HasProto(value: Json) {
    match value
    case JArray(items) => exists i :: 0 <= i < |items| && HasProto(items[i])
    case JObject(entries) => exists i :: 0 <= i < |entries| && (entries[i].0 == PROTO || HasProto(entries[i].1))
    case _ => false
  }

  lemma {:induction false} AssignedKeepsOthers(entries: seq<(string, Json)>)
    ensures |Assigned(entries)| <= |entries|
    ensures |Assigned(entries)| == |entries| <==> forall e <- entries :: e.0 != PROTO
    ensures |Assigned(entries)| == |entries| ==> Assigned(entries) == entries
    ensures forall e <- Assigned(entries) :: e in entries
  {
    if entries != [] {
      var front := entries[..|entries| - 1];
      AssignedKeepsOthers(front);
      assert entries == front + [entries[|entries| - 1]];
    }
  }

  /** Keys, array lengths and all values but strings are kept exactly when no object of the tree has a
      `__proto__` key. */
  lemma {:induction false} ShapeIsKept(value: Json, dirs: PathRewrite)
    ensures Shape(JsonRewritten(value, dirs)) == Shape(value) <==> !HasProto(value)
    decreases value
  {
    match value
    case JArray(items) =>
      var mapped := JsonRewritten(value, dirs).items;
      forall i | 0 <= i < |items|
        ensures Shape(mapped[i]) == Shape(items[i]) <==> !HasProto(items[i])
      {
        ShapeIsKept(items[i], dirs);
      }
      SameItems(mapped, items);
    case JObject(entries) =>
      var all := FieldsRewritten(entries, dirs);
      AssignedKeepsOthers(all);
      forall i | 0 <= i < |entries|
        ensures Shape(all[i].1) == Shape(entries[i].1) <==> !HasProto(entries[i].1)
      {
        ShapeIsKept(entries[i].1, dirs);
      }
      SameFields(all, entries);
      FewerFields(all, entries);
    case _ =>
  }

  lemma SameItems(a: seq<Json>, b: seq<Json>)
    requires |a| == |b|
    ensures ShapeOfItems(a) == ShapeOfItems(b) <==> forall i :: 0 <= i < |b| ==> Shape(a[i]) == Shape(b[i])
  {
    hide Shape;
    if ShapeOfItems(a) == ShapeOfItems(b) {
      assert forall i :: 0 <= i < |b| ==> ShapeOfItems(a)[i] == ShapeOfItems(b)[i];
    }
  }

  lemma SameFields(a: seq<(string, Json)>, b: seq<(string, Json)>)
    requires |a| == |b| && forall i :: 0 <= i < |a| ==> a[i].0 == b[i].0
    ensures ShapeOfFields(a) == ShapeOfFields(b) <==> forall i :: 0 <= i < |b| ==> Shape(a[i].1) == Shape(b[i].1)
  {
    hide Shape;
    if ShapeOfFields(a) == ShapeOfFields(b) {
      assert forall i :: 0 <= i < |b| ==> ShapeOfFields(a)[i] == ShapeOfFields(b)[i];
    }
  }

  lemma FewerFields(all: seq<(string, Json)>, entries: seq<(string, Json)>)
    requires |all| == |entries| && forall i :: 0 <= i < |all| ==> all[i].0 == entries[i].0
    ensures |ShapeOfFields(Assigned(all))| == |ShapeOfFields(entries)|
      <==> forall i :: 0 <= i < |entries| ==> entries[i].0 != PROTO
    ensures |ShapeOfFields(Assigned(all))| == |ShapeOfFields(entries)| ==> Assigned(all) == all
  {
    hide Shape, Assigned;
    AssignedKeepsOthers(all);
    assert (forall e <- all :: e.0 != PROTO) <==> forall i :: 0 <= i < |all| ==> all[i].0 != PROTO;
  }

  /** No string value of a rewritten tree holds a legacy path. */
  lemma {:induction false} RewrittenTreeIsClean(value: Json, home: string, agentDir: string, cwd: string, sep: char)
    requires sep in {'/', '\\'}
    ensures CleanJson(JsonRewritten(value, PathsFor(home, agentDir, cwd, sep)))
    decreases value
  {
    hide Clean, StringRewritten, PathsFor, Assigned;
    var dirs := PathsFor(home, agentDir, cwd, sep);
    match value
    case JString(s) =>
      NoLegacyPathIsLeft(s, home, agentDir, cwd, sep);
    case JArray(items) =>
      forall i | 0 <= i < |items| ensures CleanJson(JsonRewritten(items[i], dirs)) {
        RewrittenTreeIsClean(items[i], home, agentDir, cwd, sep);
      }
    case JObject(entries) =>
      forall i | 0 <= i < |entries| ensures CleanJson(JsonRewritten(entries[i].1, dirs)) {
        RewrittenTreeIsClean(entries[i].1, home, agentDir, cwd, sep);
      }
      CleanFields(FieldsRewritten(entries, dirs));
    case _ =>
  }

  lemma CleanFields(fields: seq<(string, Json)>)
    requires forall i :: 0 <= i < |fields| ==> CleanJson(fields[i].1)
    ensures CleanJson(JObject(Assigned(fields)))
  {
    AssignedKeepsOthers(fields);
    OnlyCleanFields(fields, Assigned(fields));
  }

  lemma OnlyCleanFields(fields: seq<(string, Json)>, kept: seq<(string, Json)>)
    requires (forall i :: 0 <= i < |fields| ==> CleanJson(fields[i].1)) && forall e <- kept :: e in fields
    ensures CleanJson(JObject(kept))
  {
    forall i | 0 <= i < |kept| ensures CleanJson(kept[i].1) {
      assert kept[i] in fields;
    }
  }

  // ---- What becomes of what is there ----

  /** The first occurrence is replaced, and replacing goes on behind it. */
  lemma {:induction false} FirstIsReplaced(a: string, from: string, b: string, to: string)
    requires from != "" && forall k :: 0 <= k < |a| ==> !(from <= (a + from + b)[k..])
    ensures Replaced(a + from + b, from, to) == a + to + Replaced(b, from, to)
    decreases |a|
  {
    hide Replaced;
    var s := a + from + b;
    ReplacedStep(s, from, to);
    if a == "" {
      assert s == from + b && s[|from|..] == b;
    } else {
      assert s[1..] == a[1..] + from + b && s[0..] == s;
      forall k | 0 <= k < |a[1..]| ensures !(from <= (a[1..] + from + b)[k..]) {
        assert s[k + 1..] == s[1..][k..];
      }
      FirstIsReplaced(a[1..], from, b, to);
      assert a == [a[0]] + a[1..];
      AppendAssoc([a[0]], a[1..] + to, Replaced(b, from, to));
      AppendAssoc([a[0]], a[1..], to);
    }
  }

  /** The rewriting spelled out: every `.pi/` becomes `.lumen/`, every `.pi\` becomes `.lumen\`, and then every
      occurrence of the legacy project directory becomes the new one. */
  function RewrittenPlainly(value: string, cwd: string, sep: char): string {
    var directories := Replaced(Replaced(value, ".pi/", ".lumen/"), ".pi\\", ".lumen\\");
    Replaced(directories, cwd + [sep] + ".pi", cwd + [sep] + ".lumen")
  }

  lemma RewritingIsPlain(value: string, home: string, agentDir: string, cwd: string, sep: char)
    requires sep in {'/', '\\'}
    ensures StringRewritten(value, PathsFor(home, agentDir, cwd, sep)) == RewrittenPlainly(value, cwd, sep)
  {
    hide Replaced, ReplaceAll;
    var slashes := Replaced(value, ".pi/", ".lumen/");
    var both := Replaced(slashes, ".pi\\", ".lumen\\");
    SixPassesAreThree(value, home, agentDir, cwd, sep);
    ReplaceAllIsOneScan(value, ".pi/", ".lumen/");
    ReplaceAllIsOneScan(slashes, ".pi\\", ".lumen\\");
    ReplaceAllIsOneScan(both, cwd + [sep] + ".pi", cwd + [sep] + ".lumen");
  }

  /** Every string of a tree that no `__proto__` key hides is rewritten where it stands. */
  lemma StringsAreRewritten(value: Json, path: seq<Step>, s: string, home: string, agentDir: string, cwd: string, sep: char)
    requires sep in {'/', '\\'} && At(value, path) == Some(JString(s)) && Key("__proto__") !in path
    ensures At(JsonRewritten(value, PathsFor(home, agentDir, cwd, sep)), path) == Some(JString(RewrittenPlainly(s, cwd, sep)))
  {
    hide StringRewritten, RewrittenPlainly, At, PathsFor;
    var dirs := PathsFor(home, agentDir, cwd, sep);
    ValuesStayInPlace(value, path, dirs);
    RewritingIsPlain(s, home, agentDir, cwd, sep);
  }
}
