/** Lines and whitespace as Python's `splitlines`, `isspace` and `strip` see them. */
module Text {

  predicate IsLineBreak(c: char) {
    '\n' <= c <= '\r' || '\U{1C}' <= c <= '\U{1E}' || c == '\U{85}' || '\U{2028}' <= c <= '\U{2029}'
  }

  /** Ten characters end a line: four controls from the newline on, three separators, and three of Unicode's. */
  lemma LineBreaksAre(c: char)
    ensures IsLineBreak(c) <==> c as int in {10, 11, 12, 13, 28, 29, 30, 133, 8232, 8233}
  {
    var n := c as int;
    assert c == n as char;
  }

  predicate IsSpace(c: char) {
    || IsLineBreak(c)
    || c == '\t' || c == '\U{1F}' || c == ' ' || c == '\U{A0}'
    || c == '\U{1680}' || c == '\U{202F}' || c == '\U{205F}' || c == '\U{3000}'
    || '\U{2000}' <= c <= '\U{200A}'
  }

  predicate OneLine(s: string) {
    forall i :: 0 <= i < |s| ==> !IsLineBreak(s[i])
  }

  predicate Blank(s: string) {
    forall i :: 0 <= i < |s| ==> IsSpace(s[i])
  }

  /** The end of the first line. */
  function LineEnd(s: string): (i: nat)
    ensures i <= |s| && OneLine(s[..i]) && (i < |s| ==> IsLineBreak(s[i]))
  {
    if s == "" || IsLineBreak(s[0]) then 0
    else
      var i := LineEnd(s[1..]);
      assert s[..i + 1] == [s[0]] + s[1..][..i];
      i + 1
  }

  function SplitLines(s: string): seq<string>
    decreases |s|
  {
    if s == "" then []
    else
      var i := LineEnd(s);
      if i == |s| then [s]
      else if s[i] == '\r' && i + 1 < |s| && s[i + 1] == '\n' then [s[..i]] + SplitLines(s[i + 2..])
      else [s[..i]] + SplitLines(s[i + 1..])
  }

  lemma {:induction false} LineEndIs(s: string, i: nat)
    requires i <= |s| && OneLine(s[..i]) && (i < |s| ==> IsLineBreak(s[i]))
    ensures LineEnd(s) == i
  {
    if i > 0 {
      assert s[..i][0] == s[0] && s[..i][1..] == s[1..][..i - 1];
      LineEndIs(s[1..], i - 1);
    }
  }

  /** What a line break takes with it: a newline right after a carriage return. */
  function AfterBreak(c: char, rest: string): string {
    if c == '\r' && rest != "" && rest[0] == '\n' then rest[1..] else rest
  }

  /** One line, a line break, and the rest. */
  lemma SplitAtBreak(line: string, c: char, rest: string)
    requires OneLine(line) && IsLineBreak(c)
    ensures SplitLines(line + [c] + rest) == [line] + SplitLines(AfterBreak(c, rest))
  {
    var s := line + [c] + rest;
    assert s[..|line|] == line && s[|line|] == c && s[|line| + 1..] == rest;
    if AfterBreak(c, rest) != rest { assert s[|line| + 1] == rest[0] && s[|line| + 2..] == rest[1..]; }
    LineEndIs(s, |line|);
  }

  lemma SplitFirst(line: string, rest: string)
    requires OneLine(line)
    ensures SplitLines(line + "\n" + rest) == [line] + SplitLines(rest)
  {
    SplitAtBreak(line, '\n', rest);
  }

  lemma SplitLast(line: string)
    requires OneLine(line) && line != ""
    ensures SplitLines(line) == [line]
  {
    assert line[..|line|] == line;
    LineEndIs(line, |line|);
  }

  /** No line that comes out of `splitlines` contains a line break. */
  lemma {:induction false} LinesAreLines(s: string)
    ensures forall i :: 0 <= i < |SplitLines(s)| ==> OneLine(SplitLines(s)[i])
    decreases |s|
  {
    if s != "" {
      var i := LineEnd(s);
      if i == |s| {
        assert s[..i] == s;
      } else if s[i] == '\r' && i + 1 < |s| && s[i + 1] == '\n' {
        LinesAreLines(s[i + 2..]);
      } else {
        LinesAreLines(s[i + 1..]);
      }
    }
  }

  function StripLeft(s: string): (r: string)
    ensures r == "" || !IsSpace(r[0])
  {
    if s == "" || !IsSpace(s[0]) then s else StripLeft(s[1..])
  }

  function StripRight(s: string): (r: string)
    ensures r == "" || !IsSpace(r[|r| - 1])
    ensures r <= s
  {
    if s == "" || !IsSpace(s[|s| - 1]) then s else StripRight(s[..|s| - 1])
  }

  function Strip(s: string): string {
    StripRight(StripLeft(s))
  }

  predicate Stripped(s: string) {
    s == "" || (!IsSpace(s[0]) && !IsSpace(s[|s| - 1]))
  }

  lemma {:induction false} StripLeftIsSuffix(s: string)
    ensures |StripLeft(s)| <= |s| && s[|s| - |StripLeft(s)|..] == StripLeft(s)
  {
    if s != "" && IsSpace(s[0]) { StripLeftIsSuffix(s[1..]); }
  }

  lemma StripIsStripped(s: string)
    ensures Stripped(Strip(s))
    ensures OneLine(s) ==> OneLine(Strip(s))
  {
    var l := StripLeft(s);
    var r := StripRight(l);
    if r != "" { assert r[0] == l[0]; }
    if OneLine(s) {
      StripLeftIsSuffix(s);
      forall i | 0 <= i < |r| ensures !IsLineBreak(r[i]) {
        assert r[i] == l[i] == s[|s| - |l| + i];
      }
    }
  }

  lemma StripStripped(s: string)
    requires Stripped(s)
    ensures Strip(s) == s
  {
  }

  /** Surrounding whitespace is what `strip` removes. */
  lemma {:induction false} StripPadded(left: string, s: string, right: string)
    requires Stripped(s) && Blank(left) && Blank(right)
    ensures Strip(left + s + right) == s
  {
    StripLeftPad(left, s + right);
    assert left + s + right == left + (s + right);
    if s == "" {
      StripLeftPad(right, "");
      assert s + right == right && right + "" == right;
      assert StripLeft(right) == "";
    } else {
      assert StripLeft(s + right) == s + right;
      StripRightPad(s, right);
    }
  }

  lemma {:induction false} StripLeftPad(left: string, s: string)
    requires Blank(left)
    ensures StripLeft(left + s) == StripLeft(s)
  {
    if left == "" {
      assert left + s == s;
    } else {
      assert (left + s)[1..] == left[1..] + s;
      StripLeftPad(left[1..], s);
    }
  }

  lemma {:induction false} StripRightPad(s: string, right: string)
    requires Blank(right)
    ensures StripRight(s + right) == StripRight(s)
  {
    if right == "" {
      assert s + right == s;
    } else {
      var n := |right| - 1;
      assert (s + right)[..|s + right| - 1] == s + right[..n];
      StripRightPad(s, right[..n]);
    }
  }
}
