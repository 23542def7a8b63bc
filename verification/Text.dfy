/** The string and path functions of Go's library that the chart client uses. */
module Text {
  import opened Wrappers

  function IndexOf(s: string, c: char): (i: int)
    ensures -1 <= i < |s|
    ensures i >= 0 ==> s[i] == c && c !in s[..i]
    ensures i == -1 ==> c !in s
  {
    if s == "" then -1
    else if s[0] == c then 0
    else
      var i := IndexOf(s[1..], c);
      if i == -1 then -1 else i + 1
  }

  function LastIndexOf(s: string, c: char): (i: int)
    ensures -1 <= i < |s|
    ensures i >= 0 ==> s[i] == c && c !in s[i + 1..]
    ensures i == -1 ==> c !in s
  {
    if s == "" then -1
    else if s[|s| - 1] == c then |s| - 1
    else
      var i := LastIndexOf(s[..|s| - 1], c);
      assert s[i + 1..] == s[..|s| - 1][i + 1..] + [s[|s| - 1]];
      i
  }

  lemma FirstIndexIs(s: string, c: char, i: nat)
    requires i < |s| && s[i] == c && c !in s[..i]
    ensures IndexOf(s, c) == i
  {}

  lemma LastIndexIs(s: string, c: char, i: nat)
    requires i < |s| && s[i] == c && c !in s[i + 1..]
    ensures LastIndexOf(s, c) == i
  {}

  lemma LastIndexAtLeast(s: string, c: char, i: nat)
    requires i < |s| && s[i] == c
    ensures LastIndexOf(s, c) >= i
  {}

  /** The last separator of `x + [c] + y`, when `y` has none. */
  lemma LastSeparator(x: string, c: char, y: string)
    requires c !in y
    ensures LastIndexOf(x + [c] + y, c) == |x|
  {
    var s := x + [c] + y;
    assert s[|x| + 1..] == y;
    LastIndexIs(s, c, |x|);
  }

  /** Unicode white space, as `strings.TrimSpace` takes it. */
  predicate IsSpace(c: char) {
    '\U{9}' <= c <= '\U{D}' || c == ' ' || c == '\U{85}' || c == '\U{A0}' || c == '\U{1680}' ||
    '\U{2000}' <= c <= '\U{200A}' || c == '\U{2028}' || c == '\U{2029}' || c == '\U{202F}' || c == '\U{205F}' ||
      c == '\U{3000}'
  }

  function TrimLeft(s: string): (t: string)
    ensures |t| <= |s| && (|t| == |s| ==> t == s)
    ensures t != "" ==> !IsSpace(t[0])
  {
    if s != "" && IsSpace(s[0]) then TrimLeft(s[1..]) else s
  }

  function TrimRight(s: string): (t: string)
    ensures t <= s
    ensures t != "" ==> !IsSpace(t[|t| - 1])
  {
    if s != "" && IsSpace(s[|s| - 1]) then TrimRight(s[..|s| - 1]) else s
  }

  function TrimSpace(s: string): (t: string)
    ensures |t| <= |s| && (|t| == |s| ==> t == s)
  {
    TrimRight(TrimLeft(s))
  }

  predicate HasSpaceAround(s: string) {
    s != "" && (IsSpace(s[0]) || IsSpace(s[|s| - 1]))
  }

  lemma TrimNothing(s: string)
    requires !HasSpaceAround(s)
    ensures TrimSpace(s) == s
  {}

  /** Blanks, tabs and line ends go at both ends, and nothing from between. */
  lemma TrimsBlanks(before: char, x: string, after: char)
    requires before in {' ', '\t', '\n', '\r'} && after in {' ', '\t', '\n', '\r'}
    requires !HasSpaceAround(x)
    ensures TrimSpace([before] + x + [after]) == x
  {
    var s := [before] + x + [after];
    assert s[1..] == x + [after];
    assert TrimLeft(s) == TrimLeft(x + [after]);
    if x == "" {
      assert x + [after] == [after] && [after][1..] == "";
      assert TrimLeft([after]) == TrimLeft("") == "";
    } else {
      assert TrimLeft(x + [after]) == x + [after];
      assert (x + [after])[..|x|] == x;
      assert TrimRight(x + [after]) == TrimRight(x) == x;
    }
  }

  predicate HasPrefix(s: string, p: string) {
    p <= s
  }

  function TrimPrefix(s: string, p: string): string {
    if p <= s then s[|p|..] else s
  }

  /** Drops one trailing slash. */
  function TrimSlash(s: string): string {
    if s != "" && s[|s| - 1] == '/' then s[..|s| - 1] else s
  }

  /** Splits around the first `c`. */
  function Cut(s: string, c: char): Option<(string, string)> {
    var i := IndexOf(s, c);
    if i == -1 then None else Some((s[..i], s[i + 1..]))
  }

  function DropSlashes(s: string): (t: string)
    ensures t <= s && (t != "" ==> t[|t| - 1] != '/')
  {
    if s != "" && s[|s| - 1] == '/' then DropSlashes(s[..|s| - 1]) else s
  }

  /** The last element of a slash-separated path. */
  function Base(p: string): (b: string)
    ensures b != ""
    ensures b != "/" ==> '/' !in b
  {
    if p == "" then "."
    else
      var t := DropSlashes(p);
      if t == "" then "/" else t[LastIndexOf(t, '/') + 1..]
  }

  /** A path naming an element: not empty and not ending in a slash. */
  predicate NamesElement(p: string) {
    p != "" && p[|p| - 1] != '/'
  }

  lemma BaseAfterSlash(dir: string, name: string)
    requires NamesElement(name)
    ensures Base(dir + "/" + name) == Base(name)
  {
    var p := dir + "/" + name;
    assert DropSlashes(p) == p && DropSlashes(name) == name;
    var i := LastIndexOf(name, '/');
    var at := |dir| + 1 + i;
    assert p[|dir| + 1..] == name;
    assert p[at + 1..] == name[i + 1..];
    LastIndexIs(p, '/', at);
  }

  lemma BaseOfPlain(name: string)
    requires name != "" && '/' !in name
    ensures Base(name) == name
  {}

  /** Text without a slash, appended to a path, is appended to its last element. */
  lemma BaseAppend(p: string, tail: string)
    requires NamesElement(p) && '/' !in tail
    ensures Base(p + tail) == Base(p) + tail
  {
    var s := p + tail;
    if tail == "" {
      assert s == p;
    } else {
      assert s[|s| - 1] == tail[|tail| - 1] && tail[|tail| - 1] in tail;
      assert DropSlashes(s) == s && DropSlashes(p) == p;
      LastSlashBefore(p, tail);
    }
  }

  lemma LastSlashBefore(p: string, tail: string)
    requires '/' !in tail
    ensures var i := LastIndexOf(p, '/');
            LastIndexOf(p + tail, '/') == i && (p + tail)[i + 1..] == p[i + 1..] + tail
  {
    var i := LastIndexOf(p, '/');
    if i >= 0 {
      assert (p + tail)[i + 1..] == p[i + 1..] + tail;
      LastIndexIs(p + tail, '/', i);
    } else {
      assert '/' !in p + tail;
    }
  }

  // ---------- Cutting at the last separator ----------

  /** What stands before the last `c`, and what after it; all of `s` and nothing if there is none. */
  function CutLast(s: string, c: char): (string, string) {
    var i := LastIndexOf(s, c);
    if i == -1 then (s, "") else (s[..i], s[i + 1..])
  }

  /** Joins with a separator, left out before an empty second part. */
  function Join(x: string, c: char, y: string): string {
    if y == "" then x else x + [c] + y
  }

  predicate EndsWith(s: string, c: char) {
    s != "" && s[|s| - 1] == c
  }

  lemma CutJoined(x: string, c: char, y: string)
    ensures CutLast(Join(x, c, y), c) == (x, y) <==> c !in y && (y == "" ==> c !in x)
  {
    var s := Join(x, c, y);
    if y != "" && c !in y {
      LastSeparator(x, c, y);
      assert s[..|x|] == x && s[|x| + 1..] == y;
    } else if y != "" {
      assert s[|x|] == c;
    }
  }

  lemma JoinCut(s: string, c: char)
    ensures var (x, y) := CutLast(s, c);
            if EndsWith(s, c) then s == x + [c] && y == "" else Join(x, c, y) == s
  {
    var i := LastIndexOf(s, c);
    if i >= 0 {
      assert s == s[..i] + [c] + s[i + 1..];
    }
  }

  // ---------- Paths without an element ----------

  lemma {:induction false} OnlySlashesDrop(p: string)
    requires forall i | 0 <= i < |p| :: p[i] == '/'
    ensures DropSlashes(p) == ""
  {
    if p != "" {
      OnlySlashesDrop(p[..|p| - 1]);
    }
  }

  /** The empty path has the base ".", one of slashes only "/". */
  lemma BaseOfNothing(p: string)
    requires forall i | 0 <= i < |p| :: p[i] == '/'
    ensures Base(p) == if p == "" then "." else "/"
  {
    OnlySlashesDrop(p);
  }
}
