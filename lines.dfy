/** Python's `str.splitlines()`, which codecompass.py uses only to count
    the lines of a file for its summary. */
module Lines {

  /** The characters that `str.splitlines` treats as line boundaries:
      line feed, carriage return, vertical tab, form feed, the file, group
      and record separators, next line, line separator and paragraph
      separator. A carriage return followed by a line feed is one
      boundary (see BreakWidth). */
  predicate IsLineBoundary(c: char)
  {
    c == '\n' || c == '\r' || c == '\U{000B}' || c == '\U{000C}' ||
    c == '\U{001C}' || c == '\U{001D}' || c == '\U{001E}' ||
    c == '\U{0085}' || c == '\U{2028}' || c == '\U{2029}'
  }

  predicate NoBoundary(s: string)
  {
    forall i :: 0 <= i < |s| ==> !IsLineBoundary(s[i])
  }

  /** Index of the first boundary in `s`, or `|s|` when there is none. */
  function LineEnd(s: string): (i: nat)
    ensures i <= |s|
    ensures i < |s| ==> IsLineBoundary(s[i])
    ensures NoBoundary(s[..i])
    decreases |s|
  {
    if s == [] || IsLineBoundary(s[0]) then 0 else 1 + LineEnd(s[1..])
  }

  /** Number of characters of the boundary at `i`: two for `\r\n`. */
  function BreakWidth(s: string, i: nat): (w: nat)
    requires i < |s| && IsLineBoundary(s[i])
    ensures 1 <= w <= 2 && i + w <= |s|
  {
    if s[i] == '\r' && i + 1 < |s| && s[i + 1] == '\n' then 2 else 1
  }

  /** `s.splitlines()`: the lines of `s` without their boundaries. An empty
      text has no lines, a final boundary does not open a new line, and
      text after the last boundary is a line of its own. */
  function SplitLines(s: string): (lines: seq<string>)
    ensures forall k :: 0 <= k < |lines| ==> NoBoundary(lines[k])
    ensures |lines| <= |s|
    decreases |s|
  {
    if s == [] then []
    else
      var i := LineEnd(s);
      if i == |s| then [s]
      else [s[..i]] + SplitLines(s[i + BreakWidth(s, i)..])
  }

  /** `len(s.splitlines())`: zero exactly for empty text, and never more
      than the number of characters. */
  function LineCount(s: string): (c: nat)
    ensures c == 0 <==> s == []
    ensures c <= |s|
  {
    |SplitLines(s)|
  }

  /** Reference count of boundaries, scanning left to right: `\r\n` is one
      boundary, every other boundary character is one. */
  function CountBreaks(s: string): nat
    decreases |s|
  {
    if s == [] then 0
    else if |s| >= 2 && s[0] == '\r' && s[1] == '\n' then 1 + CountBreaks(s[2..])
    else (if IsLineBoundary(s[0]) then 1 else 0) + CountBreaks(s[1..])
  }

  /** 1 when the text ends with content that no boundary closes. */
  function OpenTail(s: string): nat
  {
    if s != [] && !IsLineBoundary(s[|s| - 1]) then 1 else 0
  }

  /** A prefix without boundaries adds no boundary. */
  lemma {:induction false} CountBreaksSkip(t: string, u: string)
    requires NoBoundary(t)
    ensures CountBreaks(t + u) == CountBreaks(u)
    decreases |t|
  {
    if t == [] {
      assert t + u == u;
    } else {
      assert (t + u)[0] == t[0] && !IsLineBoundary(t[0]);
      assert (t + u)[1..] == t[1..] + u;
      assert CountBreaks(t + u) == CountBreaks(t[1..] + u);
      CountBreaksSkip(t[1..], u);
    }
  }

  /** The number of lines is the number of boundaries, plus one for
      content after the last boundary. */
  lemma {:induction false} LineCountByBreaks(s: string)
    ensures LineCount(s) == CountBreaks(s) + OpenTail(s)
    decreases |s|
  {
    if s != [] {
      var i := LineEnd(s);
      if i == |s| {
        assert s[..i] == s && s + [] == s;
        CountBreaksSkip(s, []);
      } else {
        var w := BreakWidth(s, i);
        var rest := s[i + w..];
        assert LineCount(s) == 1 + LineCount(rest);
        BreaksAfterFirstLine(s, i);
        LineCountByBreaks(rest);
        if rest != [] {
          assert rest[|rest| - 1] == s[|s| - 1];
        }
      }
    }
  }

  /** Counting boundaries from the first one on. */
  lemma BreaksAfterFirstLine(s: string, i: nat)
    requires i < |s| && IsLineBoundary(s[i]) && NoBoundary(s[..i])
    ensures CountBreaks(s) == 1 + CountBreaks(s[i + BreakWidth(s, i)..])
  {
    assert s == s[..i] + s[i..];
    CountBreaksSkip(s[..i], s[i..]);
    var v := s[i..];
    assert v[0] == s[i];
    if BreakWidth(s, i) == 2 {
      assert v[2..] == s[i + 2..];
    } else {
      assert v[1..] == s[i + 1..];
    }
  }

  /** Appending one character to a text: how the boundary count moves.
      A line feed right after a carriage return completes `\r\n` and adds
      nothing. */
  lemma {:induction false} CountBreaksSnoc(s: string, c: char)
    ensures CountBreaks(s + [c]) ==
      CountBreaks(s) +
      (if IsLineBoundary(c) && !(c == '\n' && s != [] && s[|s| - 1] == '\r') then 1 else 0)
    decreases |s|
  {
    if s == [] {
      assert [] + [c] == [c];
    } else if |s| >= 2 && s[0] == '\r' && s[1] == '\n' {
      assert (s + [c])[2..] == s[2..] + [c];
      CountBreaksSnoc(s[2..], c);
    } else if |s| == 1 && s[0] == '\r' && c == '\n' {
      assert (s + [c])[2..] == [];
    } else {
      assert (s + [c])[1..] == s[1..] + [c];
      CountBreaksSnoc(s[1..], c);
    }
  }

  /** How appending one character changes the line count, which fixes
      `LineCount` on every text: a non-boundary character opens a line
      only when no line is open; a boundary closes the open line (adding
      none), completes a `\r\n` (adding none), or else adds an empty line. */
  lemma LineCountSnoc(s: string, c: char)
    ensures !IsLineBoundary(c) ==>
      LineCount(s + [c]) == LineCount(s) + (1 - OpenTail(s))
    ensures IsLineBoundary(c) ==>
      LineCount(s + [c]) ==
        if OpenTail(s) == 1 || (c == '\n' && s != [] && s[|s| - 1] == '\r')
        then LineCount(s) else LineCount(s) + 1
  {
    LineCountByBreaks(s);
    LineCountByBreaks(s + [c]);
    CountBreaksSnoc(s, c);
  }

  /** Splitting peels off the first line and its boundary. */
  lemma SplitLinesCons(t: string, b: string, u: string)
    requires NoBoundary(t)
    requires b == "\n" || b == "\r\n" || (|b| == 1 && IsLineBoundary(b[0]) && b != "\r")
             || (b == "\r" && (u == [] || u[0] != '\n'))
    ensures SplitLines(t + b + u) == [t] + SplitLines(u)
  {
    var s := t + b + u;
    assert s[..|t|] == t;
    LineEndAt(s, |t|);
    assert s[|t| + |b|..] == u;
  }

  /** `LineEnd` finds the first boundary. */
  lemma {:induction false} LineEndAt(s: string, i: nat)
    requires i < |s| && IsLineBoundary(s[i]) && NoBoundary(s[..i])
    ensures LineEnd(s) == i
    decreases i
  {
    if i > 0 {
      assert s[1..][..i - 1] == s[1..i];
      LineEndAt(s[1..], i - 1);
    }
  }

  /** The three behaviours of `str.splitlines` that the summary relies on,
      on concrete texts. */
  lemma LineCountExamples()
    ensures LineCount("") == 0
    ensures LineCount("a\nb") == 2
    ensures LineCount("a\nb\n") == 2
    ensures LineCount("a\r\nb\r\n") == 2
    ensures LineCount("\n") == 1
  {
    LineCountByBreaks("a\nb");
    LineCountByBreaks("a\nb\n");
    LineCountByBreaks("a\r\nb\r\n");
    LineCountByBreaks("\n");
  }
}
