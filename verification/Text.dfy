/** The few operations of Rust's `str` that the modelled code relies on. */
module Text {

  /** Rust's `char::is_whitespace`: the Unicode White_Space property. */
  predicate IsWhitespace(c: char) {
    var n := c as int;
    (9 <= n <= 13) || n == 0x20 || n == 0x85 || n == 0xA0 || n == 0x1680 || (0x2000 <= n <= 0x200A)
    || n == 0x2028 || n == 0x2029 || n == 0x202F || n == 0x205F || n == 0x3000
  }

  function TrimStart(s: string): string {
    if s != "" && IsWhitespace(s[0]) then TrimStart(s[1..]) else s
  }

  function TrimEnd(s: string): string {
    if s != "" && IsWhitespace(s[|s| - 1]) then TrimEnd(s[..|s| - 1]) else s
  }

  function Trim(s: string): string { TrimEnd(TrimStart(s)) }

  /** A string that trimming leaves alone. */
  predicate Trimmed(s: string) {
    s != "" ==> !IsWhitespace(s[0]) && !IsWhitespace(s[|s| - 1])
  }

  predicate Blank(s: string) { forall k :: 0 <= k < |s| ==> IsWhitespace(s[k]) }

  lemma BlankBoth(a: string, b: string)
    requires Blank(a) && Blank(b)
    ensures Blank(a + b)
  {
  }

  lemma {:induction false} TrimStartTakes(s: string) returns (front: string)
    ensures Blank(front) && s == front + TrimStart(s)
    ensures TrimStart(s) != "" ==> !IsWhitespace(TrimStart(s)[0])
  {
    if s != "" && IsWhitespace(s[0]) {
      var rest := TrimStartTakes(s[1..]);
      front := [s[0]] + rest;
      var t := TrimStart(s[1..]);
      assert s == [s[0]] + s[1..] == [s[0]] + (rest + t) == front + t;
      BlankBoth([s[0]], rest);
    } else {
      front := "";
    }
  }

  lemma {:induction false} TrimEndTakes(s: string) returns (back: string)
    ensures Blank(back) && s == TrimEnd(s) + back
    ensures TrimEnd(s) != "" ==> !IsWhitespace(TrimEnd(s)[|TrimEnd(s)| - 1])
  {
    if s != "" && IsWhitespace(s[|s| - 1]) {
      var rest := TrimEndTakes(s[..|s| - 1]);
      back := rest + [s[|s| - 1]];
      var t := TrimEnd(s[..|s| - 1]);
      assert s == s[..|s| - 1] + [s[|s| - 1]] == (t + rest) + [s[|s| - 1]] == t + back;
      BlankBoth(rest, [s[|s| - 1]]);
    } else {
      back := "";
    }
  }

  /** Trimming takes off exactly the white space at both ends. */
  lemma TrimTakesTheEnds(s: string) returns (front: string, back: string)
    ensures Blank(front) && Blank(back) && s == front + Trim(s) + back && Trimmed(Trim(s))
  {
    front := TrimStartTakes(s);
    back := TrimEndTakes(TrimStart(s));
    var t := TrimStart(s);
    assert s == front + (Trim(s) + back);
    if Trim(s) != "" {
      assert t[0] == Trim(s)[0];
    }
  }

  /** Number of bytes of one character in UTF-8, which is what `String::len` counts. */
  function Utf8Width(c: char): (n: nat)
    ensures 1 <= n <= 4
  {
    if c as int < 0x80 then 1 else if c as int < 0x800 then 2 else if c as int < 0x10000 then 3 else 4
  }

  function ByteLen(s: string): nat {
    if s == "" then 0 else Utf8Width(s[0]) + ByteLen(s[1..])
  }

  lemma {:induction false} ByteLenAppend(a: string, b: string)
    ensures ByteLen(a + b) == ByteLen(a) + ByteLen(b)
  {
    if a == "" {
      assert a + b == b;
    } else {
      assert (a + b)[0] == a[0] && (a + b)[1..] == a[1..] + b;
      ByteLenAppend(a[1..], b);
    }
  }

  /** Rust's `contains`. */
  predicate Occurs(s: string, part: string)
    decreases |s|
  {
    part <= s || (s != "" && Occurs(s[1..], part))
  }

  /** Text written line by line, without a final newline. */
  function JoinLines(lines: seq<string>): string {
    if lines == [] then ""
    else if |lines| == 1 then lines[0]
    else lines[0] + ['\n'] + JoinLines(lines[1..])
  }

  /** The position of the first `c` in `s`, or |s|. */
  function IndexOf(s: string, c: char): (i: nat)
    ensures i <= |s|
    ensures i < |s| ==> s[i] == c
    ensures forall k :: 0 <= k < i ==> s[k] != c
  {
    if s == "" || s[0] == c then 0 else IndexOf(s[1..], c) + 1
  }

  /** Splits at every newline; always at least one piece. */
  function SplitLines(s: string): (lines: seq<string>)
    ensures |lines| >= 1
    decreases |s|
  {
    var i := IndexOf(s, '\n');
    if i == |s| then [s] else [s[..i]] + SplitLines(s[i + 1..])
  }

  lemma JoinHead(head: string, tail: seq<string>)
    requires tail != []
    ensures JoinLines([head] + tail) == head + ['\n'] + JoinLines(tail)
  {
    assert ([head] + tail)[1..] == tail;
  }

  lemma JoinSplit(s: string, i: nat, head: string, rest: string, tail: seq<string>)
    requires i < |s| && s[i] == '\n' && head == s[..i] && rest == s[i + 1..] && tail != [] && JoinLines(tail) == rest
    ensures JoinLines([head] + tail) == s
  {
    JoinHead(head, tail);
    assert head + ['\n'] + rest == s;
  }

  lemma {:induction false} SplitLinesJoins(s: string)
    ensures JoinLines(SplitLines(s)) == s
    decreases |s|
  {
    var i := IndexOf(s, '\n');
    if i == |s| {
      assert SplitLines(s) == [s];
    } else {
      SplitLinesJoins(s[i + 1..]);
      JoinSplit(s, i, s[..i], s[i + 1..], SplitLines(s[i + 1..]));
      assert SplitLines(s) == [s[..i]] + SplitLines(s[i + 1..]);
    }
  }

  lemma {:induction false} SplitLinesHoldNoNewline(s: string, k: nat)
    requires k < |SplitLines(s)|
    ensures '\n' !in SplitLines(s)[k]
    decreases |s|
  {
    var i := IndexOf(s, '\n');
    if i < |s| && k > 0 {
      SplitLinesHoldNoNewline(s[i + 1..], k - 1);
    }
  }
}
