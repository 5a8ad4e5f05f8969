/** Strings as JavaScript sees them: splitting, joining, trimming. */
module Text {

  /** The characters of `\s`, which are also the ones `trim` removes. */
  predicate IsSpace(c: char) {
    c in {' ', '\t', '\n', '\r', '\U{00000b}', '\U{00000c}', '\U{0000a0}', '\U{001680}', '\U{002028}', '\U{002029}',
          '\U{00202f}', '\U{00205f}', '\U{003000}', '\U{00feff}'}
    || '\U{002000}' <= c <= '\U{00200a}'
  }

  function TrimStart(s: string): string {
    if s != [] && IsSpace(s[0]) then TrimStart(s[1..]) else s
  }

  function TrimEnd(s: string): string {
    if s != [] && IsSpace(s[|s| - 1]) then TrimEnd(s[..|s| - 1]) else s
  }

  function Trim(s: string): string {
    TrimEnd(TrimStart(s))
  }

  /** Trimming takes white space off both ends, all of it and nothing else. */
  lemma TrimIsTheMiddle(s: string) returns (before: string, behind: string)
    ensures s == before + Trim(s) + behind
    ensures (forall c <- before :: IsSpace(c)) && (forall c <- behind :: IsSpace(c))
    ensures Trim(s) == "" || (!IsSpace(Trim(s)[0]) && !IsSpace(Trim(s)[|Trim(s)| - 1]))
  {
    before := TrimmedStart(s);
    behind := TrimmedEnd(TrimStart(s));
  }

  lemma {:induction false} TrimmedStart(s: string) returns (before: string)
    ensures s == before + TrimStart(s) && forall c <- before :: IsSpace(c)
    ensures TrimStart(s) == "" || !IsSpace(TrimStart(s)[0])
  {
    before := "";
    if s != [] && IsSpace(s[0]) {
      before := TrimmedStart(s[1..]);
      before := [s[0]] + before;
    }
  }

  lemma {:induction false} TrimmedEnd(s: string) returns (behind: string)
    ensures s == TrimEnd(s) + behind && forall c <- behind :: IsSpace(c)
    ensures TrimEnd(s) == "" || !IsSpace(TrimEnd(s)[|TrimEnd(s)| - 1])
    decreases |s|
  {
    behind := "";
    if s != [] && IsSpace(s[|s| - 1]) {
      behind := TrimmedEnd(s[..|s| - 1]);
      behind := behind + [s[|s| - 1]];
    }
  }

  function Concat(parts: seq<string>): string {
    if parts == [] then "" else Concat(parts[..|parts| - 1]) + parts[|parts| - 1]
  }

  /** `s.split(sep)`. */
  function Split(s: string, sep: string): (pieces: seq<string>)
    requires sep != ""
    ensures pieces != []
    decreases |s|
  {
    if s == "" then [""]
    else if sep <= s then [""] + Split(s[|sep|..], sep)
    else
      var rest := Split(s[1..], sep);
      [[s[0]] + rest[0]] + rest[1..]
  }

  /** `pieces.join(sep)`. */
  function Join(pieces: seq<string>, sep: string): string
    requires pieces != []
  {
    if |pieces| == 1 then pieces[0] else pieces[0] + sep + Join(pieces[1..], sep)
  }

  /** Joining goes on behind the first character, or behind an empty first piece. */
  lemma JoinAhead(rest: seq<string>, c: char, sep: string)
    requires rest != []
    ensures Join([""], sep) == ""
    ensures Join([""] + rest, sep) == sep + Join(rest, sep)
    ensures Join([[c] + rest[0]] + rest[1..], sep) == [c] + Join(rest, sep)
  {
    var pieces, behind := [[c] + rest[0]] + rest[1..], [""] + rest;
    assert pieces[1..] == rest[1..] && behind[1..] == rest;
    assert "" + sep == sep;
    if |rest| > 1 {
      var tail := Join(rest[1..], sep);
      assert [c] + rest[0] + sep + tail == [c] + (rest[0] + sep + tail);
    }
  }

  /** How splitting goes on behind the first character, for a separator of one character. */
  lemma SplitAhead(s: string, sep: char)
    requires s != ""
    ensures var rest := Split(s[1..], [sep]);
      Split(s, [sep]) == if s[0] == sep then [""] + rest else [[s[0]] + rest[0]] + rest[1..]
  {
    assert [sep] <= s <==> s[0] == sep;
  }

  /** Splitting is the one way to cut a string at every separator: it loses nothing, leaves no
      separator inside a piece, and no other list of pieces does both. */
  lemma {:induction false} SplitIsTheInverseOfJoin(s: string, sep: char)
    ensures Join(Split(s, [sep]), [sep]) == s
    ensures forall p <- Split(s, [sep]) :: sep !in p
  {
    hide Join, Split;
    if s == [] {
      JoinAhead([""], sep, [sep]);
      NothingAhead([""], sep);
    } else {
      SplitAhead(s, sep);
      SplitIsTheInverseOfJoin(s[1..], sep);
      var rest := Split(s[1..], [sep]);
      JoinAhead(rest, s[0], [sep]);
      assert s == [s[0]] + s[1..];
      assert rest[0] in rest;
    }
  }

  lemma {:induction false} JoinThenSplit(pieces: seq<string>, sep: char)
    requires pieces != [] && forall p <- pieces :: sep !in p
    ensures Split(Join(pieces, [sep]), [sep]) == pieces
    decreases |pieces|, |pieces[0]|
  {
    var s := Join(pieces, [sep]);
    if s != "" {
      SplitAhead(s, sep);
    }
    if pieces[0] == [] {
      if |pieces| > 1 {
        JoinThenSplit(pieces[1..], sep);
        assert s[1..] == Join(pieces[1..], [sep]);
      }
    } else {
      var shorter := [pieces[0][1..]] + pieces[1..];
      assert s[0] == pieces[0][0] && s[1..] == Join(shorter, [sep]) by {
        if |pieces| > 1 {
          assert shorter[1..] == pieces[1..];
        }
      }
      assert pieces[0] in pieces;
      JoinThenSplit(shorter, sep);
      assert [s[0]] + shorter[0] == pieces[0];
    }
  }

  /** The pieces of a concatenation: the last piece of the left continues into the first of the right. */
  function Continued(left: seq<string>, right: seq<string>): seq<string>
    requires left != [] && right != []
  {
    left[..|left| - 1] + [left[|left| - 1] + right[0]] + right[1..]
  }

  /** Text appended to a string only continues its last piece. */
  lemma {:induction false} SplitAppend(a: string, b: string, sep: char)
    ensures Split(a + b, [sep]) == Continued(Split(a, [sep]), Split(b, [sep]))
  {
    hide Split, Continued;
    var left, right := Split(a, [sep]), Split(b, [sep]);
    if a == [] {
      assert a + b == b;
      NothingAhead(right, sep);
    } else {
      SplitAhead(a, sep);
      SplitAhead(a + b, sep);
      SplitAppend(a[1..], b, sep);
      assert (a + b)[1..] == a[1..] + b;
      var rest := Split(a[1..], [sep]);
      if a[0] == sep {
        ContinuedBehind("", rest, right);
      } else {
        ContinuedInto(a[0], rest, right);
      }
    }
  }

  lemma NothingAhead(right: seq<string>, sep: char)
    requires right != []
    ensures Split("", [sep]) == [""] && Continued([""], right) == right
  {
    assert "" + right[0] == right[0];
  }

  lemma ContinuedBehind(first: string, rest: seq<string>, right: seq<string>)
    requires rest != [] && right != []
    ensures Continued([first] + rest, right) == [first] + Continued(rest, right)
  {
    var left := [first] + rest;
    assert left[..|left| - 1] == [first] + rest[..|rest| - 1];
  }

  lemma ContinuedInto(c: char, rest: seq<string>, right: seq<string>)
    requires rest != [] && right != []
    ensures var joined := Continued(rest, right);
      Continued([[c] + rest[0]] + rest[1..], right) == [[c] + joined[0]] + joined[1..]
  {
    var left, joined := [[c] + rest[0]] + rest[1..], Continued(rest, right);
    if |rest| == 1 {
      assert [c] + (rest[0] + right[0]) == left[0] + right[0];
      assert joined[1..] == right[1..];
    } else {
      assert left[..|left| - 1] == [[c] + rest[0]] + rest[1..|rest| - 1];
      assert joined[1..] == rest[1..|rest| - 1] + [rest[|rest| - 1] + right[0]] + right[1..];
    }
  }
}
