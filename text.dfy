/** The pieces of Rust's `str` API that the orbit map and the image reader
    rely on: `trim` and `lines`. Strings are sequences of characters. */
module Text {

  /** Rust's `char::is_whitespace`: the characters with the Unicode
      White_Space property. */
  predicate IsWhitespace(c: char)
  {
    || ('\U{0009}' <= c <= '\U{000D}') || c == ' ' || c == '\U{0085}' || c == '\U{00A0}'
    || c == '\U{1680}' || ('\U{2000}' <= c <= '\U{200A}') || c == '\U{2028}' || c == '\U{2029}'
    || c == '\U{202F}' || c == '\U{205F}' || c == '\U{3000}'
  }

  /** `trim_start`: whitespace removed from the front. */
  function TrimStart(s: string): (r: string)
    ensures |r| <= |s|
    decreases |s|
  {
    if s != [] && IsWhitespace(s[0]) then TrimStart(s[1..]) else s
  }

  /** `trim_end`: whitespace removed from the back. */
  function TrimEnd(s: string): (r: string)
    ensures |r| <= |s|
    decreases |s|
  {
    if s != [] && IsWhitespace(s[|s| - 1]) then TrimEnd(s[..|s| - 1]) else s
  }

  /** `trim`: whitespace removed from both ends. */
  function Trim(s: string): (r: string)
  {
    TrimEnd(TrimStart(s))
  }

  /** `trim_start` leaves the longest suffix that does not start with
      whitespace: everything it cuts off is whitespace. */
  lemma {:induction false} TrimStartIsSuffix(s: string)
    ensures var r := TrimStart(s);
      && |r| <= |s| && r == s[|s| - |r|..]
      && (r == [] || !IsWhitespace(r[0]))
      && (forall i :: 0 <= i < |s| - |r| ==> IsWhitespace(s[i]))
    decreases |s|
  {
    if s != [] && IsWhitespace(s[0]) {
      TrimStartIsSuffix(s[1..]);
    }
  }

  /** `trim_end` leaves the longest prefix that does not end with whitespace:
      everything it cuts off is whitespace. */
  lemma {:induction false} TrimEndIsPrefix(s: string)
    ensures var r := TrimEnd(s);
      && |r| <= |s| && r == s[..|r|]
      && (r == [] || !IsWhitespace(r[|r| - 1]))
      && (forall i :: |r| <= i < |s| ==> IsWhitespace(s[i]))
    decreases |s|
  {
    if s != [] && IsWhitespace(s[|s| - 1]) {
      TrimEndIsPrefix(s[..|s| - 1]);
    }
  }

  /** `trim` leaves a slice of its input whose ends are not whitespace, and
      everything it cuts off is whitespace. */
  lemma TrimIsSlice(s: string)
    ensures var r, a := Trim(s), |s| - |TrimStart(s)|;
      && a + |r| <= |s| && r == s[a..a + |r|]
      && (forall i :: 0 <= i < a ==> IsWhitespace(s[i]))
      && (forall i :: a + |r| <= i < |s| ==> IsWhitespace(s[i]))
      && (r == [] || (!IsWhitespace(r[0]) && !IsWhitespace(r[|r| - 1])))
  {
    var t := TrimStart(s);
    TrimStartIsSuffix(s);
    TrimEndIsPrefix(t);
    var r := Trim(s);
    var a := |s| - |t|;
    assert r == t[..|r|];
    assert r == s[a..a + |r|];
    if r != [] {
      assert r[0] == t[0];
    }
  }

  /** A string whose ends are not whitespace is its own trim. */
  lemma TrimUnchanged(s: string)
    requires s == [] || (!IsWhitespace(s[0]) && !IsWhitespace(s[|s| - 1]))
    ensures Trim(s) == s
  {
  }

  /** Trimming twice is trimming once. */
  lemma TrimIdempotent(s: string)
    ensures Trim(Trim(s)) == Trim(s)
  {
    TrimIsSlice(s);
    TrimUnchanged(Trim(s));
  }

  /** The index of the first occurrence of `c`. */
  function IndexOf(s: string, c: char): (i: nat)
    requires c in s
    ensures i < |s| && s[i] == c && c !in s[..i]
  {
    if s[0] == c then 0 else 1 + IndexOf(s[1..], c)
  }

  /** The first `c` in `p + [c] + q`, when `p` holds none, ends `p`. */
  lemma IndexOfFirst(p: string, c: char, q: string)
    requires c !in p
    ensures IndexOf(p + [c] + q, c) == |p|
  {
    var s := p + [c] + q;
    if p != [] {
      assert s[1..] == p[1..] + [c] + q;
      IndexOfFirst(p[1..], c, q);
    }
  }

  /** A line as `lines` yields it: its `\n` already gone, and a `\r` just
      before that `\n` removed too. */
  function StripCarriageReturn(line: string): string
  {
    if line != [] && line[|line| - 1] == '\r' then line[..|line| - 1] else line
  }

  /** `str::lines`: the pieces between `\n` characters, each without a
      trailing `\r`; a final `\n` does not start another line, and a last
      line without one is kept as it is. */
  function Lines(s: string): (r: seq<string>)
    ensures forall k :: 0 <= k < |r| ==> '\n' !in r[k]
    decreases |s|
  {
    if s == [] then []
    else if '\n' !in s then [s]
    else
      var i := IndexOf(s, '\n');
      [StripCarriageReturn(s[..i])] + Lines(s[i + 1..])
  }

  /** The text of some lines, each ended by a `\n`. */
  function JoinLines(lines: seq<string>): string
  {
    if lines == [] then [] else lines[0] + "\n" + JoinLines(lines[1..])
  }

  /** A line without `\n` or a final `\r`, followed by `\n`, is read back as
      the first line, and reading goes on after it. */
  lemma LinesOfLine(head: string, rest: string)
    requires '\n' !in head && (head == [] || head[|head| - 1] != '\r')
    ensures Lines(head + "\n" + rest) == [head] + Lines(rest)
  {
    var s := head + "\n" + rest;
    assert s[|head|] == '\n' && s[..|head|] == head;
    IndexOfFirst(head, '\n', rest);
    assert s[|head| + 1..] == rest;
  }

  /** Reading back lines written one per `\n`: `lines` returns them all, so
      long as none holds a `\n` or ends with a `\r`. */
  lemma {:induction false} LinesOfJoin(lines: seq<string>)
    requires forall k :: 0 <= k < |lines| ==> '\n' !in lines[k]
    requires forall k :: 0 <= k < |lines| ==> lines[k] == [] || lines[k][|lines[k]| - 1] != '\r'
    ensures Lines(JoinLines(lines)) == lines
  {
    if lines != [] {
      LinesOfLine(lines[0], JoinLines(lines[1..]));
      LinesOfJoin(lines[1..]);
      assert lines == [lines[0]] + lines[1..];
    }
  }
}
