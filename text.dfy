/** Text handling the SSH config generator relies on, with the meaning the Rust
    standard library gives it: `str::trim` and `BufRead::lines`, and the
    inverse of the latter, joining lines each followed by a newline. */
module Text {

  /** The characters with the Unicode White_Space property: those `str::trim`
      removes from both ends of a string. */
  predicate IsWhitespace(c: char) {
    c == ' ' || ('\t' <= c <= '\r') || c == '\U{85}' || c == '\U{A0}' || c == '\U{1680}'
    || ('\U{2000}' <= c <= '\U{200A}') || c == '\U{2028}' || c == '\U{2029}'
    || c == '\U{202F}' || c == '\U{205F}' || c == '\U{3000}'
  }

  /** `s` without its leading whitespace. */
  function TrimStart(s: string): (r: string)
    ensures |r| <= |s| && r == s[|s| - |r|..]
    ensures forall k :: 0 <= k < |s| - |r| ==> IsWhitespace(s[k])
    ensures r == [] || !IsWhitespace(r[0])
    decreases |s|
  {
    if s != [] && IsWhitespace(s[0]) then TrimStart(s[1..]) else s
  }

  /** `s` without its trailing whitespace. */
  function TrimEnd(s: string): (r: string)
    ensures |r| <= |s| && r == s[..|r|]
    ensures forall k :: |r| <= k < |s| ==> IsWhitespace(s[k])
    ensures r == [] || !IsWhitespace(r[|r| - 1])
    decreases |s|
  {
    if s != [] && IsWhitespace(s[|s| - 1]) then TrimEnd(s[..|s| - 1]) else s
  }

  /** `r` sits at offset `i` of `s` and only whitespace precedes and follows
      it there. */
  predicate WhitespaceAround(s: string, i: int, r: string) {
    0 <= i <= |s| - |r| && r == s[i..i + |r|]
    && (forall k :: 0 <= k < i ==> IsWhitespace(s[k]))
    && (forall k :: i + |r| <= k < |s| ==> IsWhitespace(s[k]))
  }

  /** `str::trim`: the result is the slice of `s` left once its leading and
      its trailing whitespace are removed, so neither end of it is whitespace,
      and a string whose ends are not whitespace is its own trim. */
  function Trim(s: string): (r: string)
    ensures |r| <= |s|
    ensures WhitespaceAround(s, |s| - |TrimStart(s)|, r)
    ensures r == [] || (!IsWhitespace(r[0]) && !IsWhitespace(r[|r| - 1]))
    ensures (s == [] || (!IsWhitespace(s[0]) && !IsWhitespace(s[|s| - 1]))) ==> r == s
  {
    SliceAround(s, TrimStart(s), TrimEnd(TrimStart(s)));
    TrimEnd(TrimStart(s))
  }

  /** A prefix `r` of a suffix `t` of `s`, where `s` has only whitespace before
      `t` and `t` only whitespace after `r`, has only whitespace around it in
      `s`. */
  lemma SliceAround(s: string, t: string, r: string)
    requires |t| <= |s| && t == s[|s| - |t|..]
    requires forall k :: 0 <= k < |s| - |t| ==> IsWhitespace(s[k])
    requires |r| <= |t| && r == t[..|r|]
    requires forall k :: |r| <= k < |t| ==> IsWhitespace(t[k])
    ensures WhitespaceAround(s, |s| - |t|, r)
  {
    var i := |s| - |t|;
    forall k | i + |r| <= k < |s|
      ensures IsWhitespace(s[k])
    {
      assert s[k] == t[k - i];
    }
  }

  /** The position of the first '\n' in `s`, or `|s|` when there is none. */
  function IndexOfNewline(s: string): (i: nat)
    ensures i <= |s|
    ensures i < |s| ==> s[i] == '\n'
    ensures forall k :: 0 <= k < i ==> s[k] != '\n'
    decreases |s|
  {
    if s == [] || s[0] == '\n' then 0 else 1 + IndexOfNewline(s[1..])
  }

  /** A line read up to a '\n' loses one '\r' just before it. */
  function StripCr(line: string): string {
    if line != [] && line[|line| - 1] == '\r' then line[..|line| - 1] else line
  }

  /** The lines `BufRead::lines` yields from the text `s`: the text is split at
      every '\n', a line that ended in "\r\n" loses the '\r', an unterminated
      last line is yielded as it is, and the empty text has no lines. */
  function Lines(s: string): (ls: seq<string>)
    ensures forall k :: 0 <= k < |ls| ==> '\n' !in ls[k]
    ensures s != [] <==> ls != []
    decreases |s|
  {
    if s == [] then []
    else
      var i := IndexOfNewline(s);
      if i == |s| then
        assert forall c :: c in s ==> c != '\n';
        [s]
      else
        [StripCr(s[..i])] + Lines(s[i + 1..])
  }

  /** The text made of the lines `ls`, each followed by '\n'. */
  function Unlines(ls: seq<string>): (s: string)
    ensures ls != [] ==> s != [] && s[|s| - 1] == '\n'
    ensures |s| >= |ls|
  {
    if ls == [] then "" else ls[0] + "\n" + Unlines(ls[1..])
  }

  /** A line that reads back unchanged from `line + "\n"`: it holds no '\n' and
      does not end in the '\r' that reading would take off. */
  predicate SingleLine(line: string) {
    '\n' !in line && (line == [] || line[|line| - 1] != '\r')
  }

  /** The contract of IndexOfNewline determines it. */
  lemma NewlineAt(s: string, i: nat)
    requires i <= |s| && (i < |s| ==> s[i] == '\n')
    requires forall k :: 0 <= k < i ==> s[k] != '\n'
    ensures IndexOfNewline(s) == i
  {
  }

  /** Text whose first newline is at `i` starts with the line before it. */
  lemma LinesSplit(s: string, i: nat)
    requires i < |s| && s[i] == '\n'
    requires forall k :: 0 <= k < i ==> s[k] != '\n'
    ensures Lines(s) == [StripCr(s[..i])] + Lines(s[i + 1..])
  {
    NewlineAt(s, i);
  }

  /** A prefix ending in a newline is a line of its own. */
  lemma {:induction false} LinesOfLine(line: string, rest: string)
    requires SingleLine(line)
    ensures Lines(line + "\n" + rest) == [line] + Lines(rest)
  {
    var s := line + "\n" + rest;
    forall k | 0 <= k < |line| ensures s[k] != '\n' {
      assert s[k] == line[k];
    }
    LinesSplit(s, |line|);
    assert s[..|line|] == line;
    assert s[|line| + 1..] == rest;
  }

  /** Reading back text made of single lines gives those lines. */
  lemma {:induction false} LinesUnlines(ls: seq<string>)
    requires forall k :: 0 <= k < |ls| ==> SingleLine(ls[k])
    ensures Lines(Unlines(ls)) == ls
    decreases |ls|
  {
    if ls != [] {
      LinesOfLine(ls[0], Unlines(ls[1..]));
      LinesUnlines(ls[1..]);
    }
  }

  lemma {:induction false} UnlinesAppend(a: seq<string>, b: seq<string>)
    ensures Unlines(a + b) == Unlines(a) + Unlines(b)
    decreases |a|
  {
    if a == [] {
      assert a + b == b;
    } else {
      assert (a + b)[1..] == a[1..] + b;
      UnlinesAppend(a[1..], b);
    }
  }

  lemma ConsAppend<T>(x: T, a: seq<T>, b: seq<T>)
    ensures [x] + (a + b) == ([x] + a) + b
  {
  }

  /** The first line of `s` stays the first line whatever is appended, when it
      is terminated inside `s`. */
  lemma FirstLineKept(s: string, t: string, i: nat)
    requires i < |s| && s[i] == '\n'
    requires forall k :: 0 <= k < i ==> s[k] != '\n'
    ensures Lines(s + t) == [StripCr(s[..i])] + Lines(s[i + 1..] + t)
  {
    var u := s + t;
    forall k | 0 <= k < i ensures u[k] != '\n' {
      assert u[k] == s[k];
    }
    LinesSplit(u, i);
    assert u[..i] == s[..i];
    assert u[i + 1..] == s[i + 1..] + t;
  }

  lemma UnlinesSnoc(ls: seq<string>, line: string)
    ensures Unlines(ls + [line]) == Unlines(ls) + line + "\n"
    ensures Unlines(ls + [line]) == Unlines(ls) + (line + "\n")
  {
    UnlinesAppend(ls, [line]);
    assert [line][1..] == [];
    assert Unlines(ls) + line + "\n" == Unlines(ls) + (line + "\n");
  }

  /** Text that is empty or ends in a newline is read line by line independently
      of what follows. */
  lemma {:induction false} LinesConcat(s: string, t: string)
    requires s == [] || s[|s| - 1] == '\n'
    ensures Lines(s + t) == Lines(s) + Lines(t)
    decreases |s|
  {
    if s == [] {
      assert s + t == t;
    } else {
      var i := IndexOfNewline(s);
      var rest := s[i + 1..];
      var first := StripCr(s[..i]);
      assert i < |s| && (rest == [] || rest[|rest| - 1] == '\n') by {
        assert s[|s| - 1] == '\n';
      }
      assert Lines(s + t) == [first] + Lines(rest + t) && Lines(s) == [first] + Lines(rest) by {
        FirstLineKept(s, t, i);
        LinesSplit(s, i);
      }
      LinesConcat(rest, t);
      ConsAppend(first, Lines(rest), Lines(t));
    }
  }

  /** Appending a single line and its newline to text that is empty or ends
      in a newline adds that line. */
  lemma LinesSnocLine(s: string, line: string)
    requires (s == [] || s[|s| - 1] == '\n') && SingleLine(line)
    ensures Lines(s + line + "\n") == Lines(s) + [line]
  {
    assert Lines(line + "\n") == [line] by {
      LinesOfLine(line, "");
      assert line + "\n" + "" == line + "\n";
    }
    LinesConcat(s, line + "\n");
    assert s + line + "\n" == s + (line + "\n");
  }

  /** Appending a terminated line `w` to text with no newline gives one line. */
  lemma OneLineGlued(s: string, w: string)
    requires '\n' !in s && '\n' !in w
    ensures Lines(s + w + "\n") == [StripCr(s + w)]
  {
    var u := s + w + "\n";
    forall k | 0 <= k < |s| + |w| ensures u[k] != '\n' {
      if k < |s| { assert u[k] == s[k]; } else { assert u[k] == w[k - |s|]; }
    }
    LinesSplit(u, |s| + |w|);
    assert u[..|s| + |w|] == s + w;
    assert u[|s| + |w| + 1..] == [];
  }

  /** Text that does not end in a newline has its last line continued by what
      is appended: appending a terminated line `w` adds no line, it is glued
      onto the last one. */
  lemma {:induction false} LinesGlue(s: string, w: string)
    requires s != [] && s[|s| - 1] != '\n' && '\n' !in w
    ensures |Lines(s)| > 0
    ensures Lines(s + w + "\n") == Lines(s)[..|Lines(s)| - 1] + [StripCr(Lines(s)[|Lines(s)| - 1] + w)]
    decreases |s|
  {
    var i := IndexOfNewline(s);
    if i == |s| {
      assert '\n' !in s by {
        assert forall c :: c in s ==> exists k :: 0 <= k < |s| && s[k] == c;
      }
      OneLineGlued(s, w);
    } else {
      var rest := s[i + 1..];
      var head := StripCr(s[..i]);
      assert rest != [] && rest[|rest| - 1] == s[|s| - 1];
      assert Lines(s + w + "\n") == [head] + Lines(rest + w + "\n") by {
        FirstLineKept(s, w + "\n", i);
        assert s + w + "\n" == s + (w + "\n");
        assert rest + (w + "\n") == rest + w + "\n";
      }
      LinesSplit(s, i);
      LinesGlue(rest, w);
      var ls := Lines(rest);
      var n := |ls|;
      ConsInitLast(head, ls);
      ConsAppend(head, ls[..n - 1], [StripCr(ls[n - 1] + w)]);
    }
  }

  lemma ConsInitLast<T>(x: T, ls: seq<T>)
    requires ls != []
    ensures ([x] + ls)[..|ls|] == [x] + ls[..|ls| - 1]
    ensures ([x] + ls)[|ls|] == ls[|ls| - 1]
  {
  }

  /** Prefixing a single line with text that holds no newline and does not end
      in '\r' keeps it a single line. */
  lemma SingleLinePrefixed(a: string, b: string)
    requires '\n' !in a && a != [] && a[|a| - 1] != '\r' && SingleLine(b)
    ensures SingleLine(a + b)
  {
    assert forall c :: c in a + b ==> c in a || c in b;
  }
}
