/** Isolating a JSON object in a model's answer (qcue-rs/wiki/src/json_hardening.rs, parse_json_response):
    drop a reasoning preamble and code fences, then count braces outside strings. */
module JsonScan {
  import opened Common
  import opened Text

  // ---------------------------------------------------------------------------------------------
  // The scanner
  // ---------------------------------------------------------------------------------------------

  /** How many characters up to and including the brace that brings the depth back to zero; None when it
      never comes back. */
  function ScanEnd(s: string, depth: int, inStr: bool, esc: bool): Option<nat>
    decreases |s|
  {
    if s == "" then None
    else
      var b, rest := s[0], s[1..];
      if b == '"' && !esc then Plus(ScanEnd(rest, depth, !inStr, false))
      else if b == '\\' && inStr then Plus(ScanEnd(rest, depth, inStr, !esc))
      else if b == '{' && !inStr then Plus(ScanEnd(rest, depth + 1, inStr, false))
      else if b == '}' && !inStr then
        if depth - 1 == 0 then Some(1) else Plus(ScanEnd(rest, depth - 1, inStr, false))
      else Plus(ScanEnd(rest, depth, inStr, false))
  }

  function Plus(n: Option<nat>): Option<nat> { if n.Some? then Some(n.value + 1) else None }

  lemma {:induction false} ScanEndInRange(s: string, depth: int, inStr: bool, esc: bool)
    ensures ScanEnd(s, depth, inStr, esc).Some? ==> 1 <= ScanEnd(s, depth, inStr, esc).value <= |s|
    decreases |s|
  {
    if s != "" {
      forall d: int, q: bool, e: bool
        ensures ScanEnd(s[1..], d, q, e).Some? ==> 1 <= ScanEnd(s[1..], d, q, e).value <= |s[1..]|
      {
        ScanEndInRange(s[1..], d, q, e);
      }
    }
  }

  /** Everything after the last occurrence of `mark`, or the whole text. */
  function AfterLast(s: string, mark: string): string
    requires mark != ""
    decreases |s|
  {
    if |s| < |mark| then s
    else
      var tail := AfterLast(s[1..], mark);
      if Occurs(s[1..], mark) then tail
      else if mark <= s then s[|mark|..]
      else s
  }

  /** Rust's `trim_start_matches`: the prefix is removed as often as it occurs. */
  function DropPrefixes(s: string, prefix: string): string
    requires prefix != ""
    decreases |s|
  {
    if prefix <= s then DropPrefixes(s[|prefix|..], prefix) else s
  }

  function DropSuffix(s: string, suffix: string): string {
    if |suffix| <= |s| && s[|s| - |suffix|..] == suffix then s[..|s| - |suffix|] else s
  }

  const THINK_END := "</think>"
  const FENCE := "```"
  const JSON_FENCE := "```json"

  /** The text without preamble and fences. */
  function Stripped(raw: string): string {
    var s := Trim(raw);
    var t := if Occurs(s, THINK_END) then Trim(AfterLast(s, THINK_END)) else s;
    Trim(DropSuffix(Trim(DropPrefixes(DropPrefixes(t, JSON_FENCE), FENCE)), FENCE))
  }

  /** The text that is handed to the JSON reader. */
  function Isolated(raw: string): string {
    var s := Stripped(raw);
    var start := IndexOf(s, '{');
    if start == |s| then s
    else
      match ScanEnd(s[start..], 0, false, false)
      case Some(n) => (ScanEndInRange(s[start..], 0, false, false); s[start..start + n])
      case None => s
  }

  /** The end of the object that starts at `start`. */
  method ScanObject(s: string, start: nat) returns (end: Option<nat>)
    requires start <= |s|
    ensures end == match ScanEnd(s[start..], 0, false, false)
                   case Some(n) => Some(start + n)
                   case None => None
    ensures end.Some? ==> start <= end.value <= |s|
  {
    var depth, inStr, esc := 0, false, false;
    var i := start;
    while i < |s|
      invariant start <= i <= |s|
      invariant ScanEnd(s[start..], 0, false, false)
                == match ScanEnd(s[i..], depth, inStr, esc)
                   case Some(n) => Some(n + (i - start))
                   case None => None
    {
      assert s[i..][0] == s[i] && s[i..][1..] == s[i + 1..];
      var b := s[i];
      i := i + 1;
      if b == '"' && !esc {
        inStr := !inStr;
      } else if b == '\\' && inStr {
        esc := !esc;
        continue;
      } else if b == '{' && !inStr {
        depth := depth + 1;
      } else if b == '}' && !inStr {
        depth := depth - 1;
        if depth == 0 {
          return Some(i);
        }
      }
      esc := false;
    }
    end := None;
  }

  method IsolateObject(raw: string) returns (text: string)
    ensures text == Isolated(raw)
  {
    var s := Trim(raw);
    if Occurs(s, THINK_END) {
      s := Trim(AfterLast(s, THINK_END));
    }
    s := Trim(DropPrefixes(DropPrefixes(s, JSON_FENCE), FENCE));
    s := Trim(DropSuffix(s, FENCE));
    var start := IndexOf(s, '{');
    if start < |s| {
      var end := ScanObject(s, start);
      if end.Some? {
        return s[start..end.value];
      }
    }
    text := s;
  }

  // ---------------------------------------------------------------------------------------------
  // JSON text (RFC 8259, sections 2 to 7)
  // ---------------------------------------------------------------------------------------------

  /** One character of a string: plain, or a backslash and what it escapes. */
  datatype StrChar = Plain(c: char) | Escaped(c: char)

  /** A JSON value as written, spaces included. `Scalar` is a number or one of the three literals. */
  datatype Value =
    | Scalar(text: string)
    | StrLit(chars: seq<StrChar>)
    | Array(open: string, elems: Elems)
    | Object(open: string, members: Members)

  /** Array elements up to the closing bracket; the text around a value holds its spaces and comma. */
  datatype Elems = NoElem | Elem(before: string, value: Value, after: string, rest: Elems)

  /** Object members up to the closing brace; `colon` holds the colon with its spaces. */
  datatype Members =
    | NoMember
    | Member(before: string, key: seq<StrChar>, colon: string, value: Value, after: string, rest: Members)

  predicate Neutral(c: char) { c != '{' && c != '}' && c != '"' && c != '\\' }

  /** Spaces, commas, colons, digits and letters: text the scanner walks over. */
  predicate Filler(s: string) { forall k :: 0 <= k < |s| ==> Neutral(s[k]) }

  predicate WellFormedChars(cs: seq<StrChar>) {
    forall k :: 0 <= k < |cs| && cs[k].Plain? ==> cs[k].c != '"' && cs[k].c != '\\'
  }

  predicate WellFormed(v: Value) {
    match v
    case Scalar(text) => Filler(text)
    case StrLit(chars) => WellFormedChars(chars)
    case Array(open, elems) => Filler(open) && WellFormedElems(elems)
    case Object(open, members) => Filler(open) && WellFormedMembers(members)
  }

  predicate WellFormedElems(es: Elems) {
    match es
    case NoElem => true
    case Elem(before, value, after, rest) =>
      Filler(before) && WellFormed(value) && Filler(after) && WellFormedElems(rest)
  }

  predicate WellFormedMembers(ms: Members) {
    match ms
    case NoMember => true
    case Member(before, key, colon, value, after, rest) =>
      Filler(before) && WellFormedChars(key) && Filler(colon) && WellFormed(value) && Filler(after)
      && WellFormedMembers(rest)
  }

  function WriteChars(cs: seq<StrChar>): string {
    if cs == [] then ""
    else (if cs[0].Plain? then [cs[0].c] else ['\\', cs[0].c]) + WriteChars(cs[1..])
  }

  function Quoted(cs: seq<StrChar>): string { ['"'] + WriteChars(cs) + ['"'] }

  function Write(v: Value): string {
    match v
    case Scalar(text) => text
    case StrLit(chars) => Quoted(chars)
    case Array(open, elems) => ['['] + open + WriteElems(elems) + [']']
    case Object(open, members) => ['{'] + open + WriteMembers(members) + ['}']
  }

  function WriteElems(es: Elems): string {
    match es
    case NoElem => ""
    case Elem(before, value, after, rest) => before + Write(value) + after + WriteElems(rest)
  }

  function WriteMembers(ms: Members): string {
    match ms
    case NoMember => ""
    case Member(before, key, colon, value, after, rest) =>
      before + Quoted(key) + colon + Write(value) + after + WriteMembers(rest)
  }

  // ---------------------------------------------------------------------------------------------
  // The scanner walks over a value
  // ---------------------------------------------------------------------------------------------

  function Shift(n: Option<nat>, k: nat): Option<nat> { if n.Some? then Some(n.value + k) else None }

  /** Outside strings and inside an object, scanning `s` leaves depth and string state as they were. */
  ghost predicate Crosses(s: string) {
    forall rest: string, depth: nat ::
      depth >= 1 ==> ScanEnd(s + rest, depth, false, false) == Shift(ScanEnd(rest, depth, false, false), |s|)
  }

  lemma CrossesBoth(a: string, b: string)
    requires Crosses(a) && Crosses(b)
    ensures Crosses(a + b)
  {
    forall rest: string, depth: nat | depth >= 1
      ensures ScanEnd(a + b + rest, depth, false, false) == Shift(ScanEnd(rest, depth, false, false), |a + b|)
    {
      Assoc(a, b, rest);
    }
  }

  lemma ScanStep(c: char, rest: string)
    ensures ([c] + rest)[0] == c && ([c] + rest)[1..] == rest
  {
  }

  lemma {:induction false} FillerCrosses(s: string)
    requires Filler(s)
    ensures Crosses(s)
  {
    forall rest: string, depth: nat | depth >= 1
      ensures ScanEnd(s + rest, depth, false, false) == Shift(ScanEnd(rest, depth, false, false), |s|)
    {
      if s == "" {
        assert s + rest == rest;
      } else {
        assert (s + rest)[0] == s[0] && (s + rest)[1..] == s[1..] + rest;
        FillerCrosses(s[1..]);
      }
    }
  }

  /** The inside of a string, whatever it holds, ends still inside the string. */
  lemma {:induction false} CharsStayInside(cs: seq<StrChar>, rest: string, depth: int)
    requires WellFormedChars(cs)
    ensures ScanEnd(WriteChars(cs) + rest, depth, true, false)
            == Shift(ScanEnd(rest, depth, true, false), |WriteChars(cs)|)
  {
    if cs == [] {
      assert WriteChars(cs) + rest == rest;
    } else {
      var tail := WriteChars(cs[1..]) + rest;
      CharsStayInside(cs[1..], rest, depth);
      if cs[0].Plain? {
        assert WriteChars(cs) + rest == [cs[0].c] + tail;
        ScanStep(cs[0].c, tail);
      } else {
        assert WriteChars(cs) + rest == ['\\'] + ([cs[0].c] + tail);
        ScanStep('\\', [cs[0].c] + tail);
        ScanStep(cs[0].c, tail);
        EscapedIsSkipped(cs[0].c, tail, depth);
      }
    }
  }

  lemma EscapedIsSkipped(c: char, tail: string, depth: int)
    ensures ScanEnd([c] + tail, depth, true, true) == Plus(ScanEnd(tail, depth, true, false))
  {
    ScanStep(c, tail);
  }

  lemma QuotedCrosses(cs: seq<StrChar>)
    requires WellFormedChars(cs)
    ensures Crosses(Quoted(cs))
  {
    forall rest: string, depth: nat | depth >= 1
      ensures ScanEnd(Quoted(cs) + rest, depth, false, false)
              == Shift(ScanEnd(rest, depth, false, false), |Quoted(cs)|)
    {
      var inner := WriteChars(cs);
      assert Quoted(cs) + rest == ['"'] + (inner + (['"'] + rest));
      ScanStep('"', inner + (['"'] + rest));
      CharsStayInside(cs, ['"'] + rest, depth);
      ScanStep('"', rest);
    }
  }

  lemma BracedCrosses(inner: string)
    requires Crosses(inner)
    ensures Crosses(['{'] + inner + ['}'])
  {
    var s := ['{'] + inner + ['}'];
    forall rest: string, depth: nat | depth >= 1
      ensures ScanEnd(s + rest, depth, false, false) == Shift(ScanEnd(rest, depth, false, false), |s|)
    {
      assert s + rest == ['{'] + (inner + (['}'] + rest));
      ScanStep('{', inner + (['}'] + rest));
      assert ScanEnd(inner + (['}'] + rest), depth + 1, false, false)
          == Shift(ScanEnd(['}'] + rest, depth + 1, false, false), |inner|);
      ScanStep('}', rest);
    }
  }

  /** A whole object at depth zero is exactly what the scanner takes. */
  lemma ObjectIsTaken(inner: string, rest: string)
    requires Crosses(inner)
    ensures ScanEnd(['{'] + inner + ['}'] + rest, 0, false, false) == Some(|inner| + 2)
  {
    assert ['{'] + inner + ['}'] + rest == ['{'] + (inner + (['}'] + rest));
    ScanStep('{', inner + (['}'] + rest));
    assert ScanEnd(inner + (['}'] + rest), 1, false, false)
        == Shift(ScanEnd(['}'] + rest, 1, false, false), |inner|);
    ScanStep('}', rest);
  }

  lemma {:induction false} ValueCrosses(v: Value)
    requires WellFormed(v)
    ensures Crosses(Write(v))
  {
    match v {
      case Scalar(text) => FillerCrosses(text);
      case StrLit(chars) => QuotedCrosses(chars);
      case Array(open, elems) =>
        ElemsCross(elems);
        assert Filler(['[']) && Filler([']']);
        FillerCrosses(['[']);
        FillerCrosses(open);
        FillerCrosses([']']);
        CrossesBoth(['['], open);
        CrossesBoth(['['] + open, WriteElems(elems));
        CrossesBoth(['['] + open + WriteElems(elems), [']']);
      case Object(open, members) =>
        InsideCrosses(open, members);
        BracedCrosses(open + WriteMembers(members));
        assert Write(v) == ['{'] + (open + WriteMembers(members)) + ['}'];
    }
  }

  lemma {:induction false} InsideCrosses(open: string, members: Members)
    requires Filler(open) && WellFormedMembers(members)
    ensures Crosses(open + WriteMembers(members))
    decreases members, 1
  {
    FillerCrosses(open);
    MembersCross(members);
    CrossesBoth(open, WriteMembers(members));
  }

  lemma {:induction false} ElemsCross(es: Elems)
    requires WellFormedElems(es)
    ensures Crosses(WriteElems(es))
  {
    match es {
      case NoElem => FillerCrosses("");
      case Elem(before, value, after, rest) =>
        FillerCrosses(before);
        ValueCrosses(value);
        FillerCrosses(after);
        ElemsCross(rest);
        CrossesBoth(before, Write(value));
        CrossesBoth(before + Write(value), after);
        CrossesBoth(before + Write(value) + after, WriteElems(rest));
    }
  }

  lemma {:induction false} MembersCross(ms: Members)
    requires WellFormedMembers(ms)
    ensures Crosses(WriteMembers(ms))
    decreases ms, 0
  {
    match ms {
      case NoMember => FillerCrosses("");
      case Member(before, key, colon, value, after, rest) =>
        FillerCrosses(before);
        QuotedCrosses(key);
        FillerCrosses(colon);
        ValueCrosses(value);
        FillerCrosses(after);
        MembersCross(rest);
        CrossesBoth(before, Quoted(key));
        CrossesBoth(before + Quoted(key), colon);
        CrossesBoth(before + Quoted(key) + colon, Write(value));
        CrossesBoth(before + Quoted(key) + colon + Write(value), after);
        CrossesBoth(before + Quoted(key) + colon + Write(value) + after, WriteMembers(rest));
    }
  }

  // ---------------------------------------------------------------------------------------------
  // Stripping never touches the object
  // ---------------------------------------------------------------------------------------------

  predicate Braceless(s: string) { forall k :: 0 <= k < |s| ==> s[k] != '{' }

  predicate IsBraced(o: string) { |o| >= 2 && o[0] == '{' && o[|o| - 1] == '}' }

  /** What is left of the text before the object once a reasoning preamble is dropped: what follows its last
      "</think>", or all of it. */
  function Preface(prefix: string): string {
    if Occurs(prefix, THINK_END) then AfterLast(prefix, THINK_END) else prefix
  }

  /** What stripping leaves before the object. */
  function Kept(prefix: string): string {
    var t := TrimStart(prefix);
    var p := if Occurs(t, THINK_END) then TrimStart(AfterLast(t, THINK_END)) else t;
    TrimStart(DropPrefixes(DropPrefixes(p, JSON_FENCE), FENCE))
  }

  // Each step works on the text before an object as if the object were not there.

  lemma {:induction false} TrimStartBefore(p: string, x: string)
    requires x != "" && x[0] == '{'
    ensures TrimStart(p + x) == TrimStart(p) + x
  {
    if p != "" && IsWhitespace(p[0]) {
      assert (p + x)[1..] == p[1..] + x;
      TrimStartBefore(p[1..], x);
    } else {
      assert "" + x == x;
    }
  }

  /** A prefix without brace ends before the object starts. */
  lemma PrefixFits(p: string, x: string, prefix: string)
    requires Braceless(prefix) && x != "" && x[0] == '{'
    ensures prefix <= p + x <==> prefix <= p
  {
    assert (p + x)[|p|] == '{';
  }

  lemma {:induction false} OccursBefore(p: string, x: string, mark: string)
    requires x != "" && x[0] == '{' && Braceless(mark) && mark != "" && !Occurs(x, mark)
    ensures Occurs(p + x, mark) <==> Occurs(p, mark)
  {
    if p == "" {
      assert "" + x == x;
    } else {
      assert (p + x)[1..] == p[1..] + x;
      PrefixFits(p, x, mark);
      OccursBefore(p[1..], x, mark);
    }
  }

  lemma {:induction false} OccursFits(s: string, mark: string)
    requires Occurs(s, mark)
    ensures |s| >= |mark|
  {
    if !(mark <= s) {
      OccursFits(s[1..], mark);
    }
  }

  lemma {:induction false} AfterLastBefore(p: string, x: string, mark: string)
    requires x != "" && x[0] == '{' && Braceless(mark) && mark != "" && !Occurs(x, mark) && Occurs(p, mark)
    ensures AfterLast(p + x, mark) == AfterLast(p, mark) + x
  {
    OccursFits(p, mark);
    assert (p + x)[1..] == p[1..] + x;
    OccursBefore(p[1..], x, mark);
    if Occurs(p[1..], mark) {
      AfterLastBefore(p[1..], x, mark);
    } else {
      assert mark <= p && mark <= p + x;
      assert (p + x)[|mark|..] == p[|mark|..] + x;
    }
  }

  lemma {:induction false} DropPrefixesBefore(p: string, x: string, prefix: string)
    requires x != "" && x[0] == '{' && prefix != "" && Braceless(prefix)
    ensures DropPrefixes(p + x, prefix) == DropPrefixes(p, prefix) + x
    decreases |p|
  {
    PrefixFits(p, x, prefix);
    if prefix <= p {
      assert (p + x)[|prefix|..] == p[|prefix|..] + x;
      DropPrefixesBefore(p[|prefix|..], x, prefix);
    }
  }

  // And none of them takes a brace away, or adds one.

  lemma {:induction false} TrimStartBraces(p: string)
    ensures Braceless(TrimStart(p)) <==> Braceless(p)
  {
    if p != "" && IsWhitespace(p[0]) {
      TrimStartBraces(p[1..]);
      assert p == [p[0]] + p[1..];
    }
  }

  lemma {:induction false} DropPrefixesBraces(p: string, prefix: string)
    requires prefix != "" && Braceless(prefix)
    ensures Braceless(DropPrefixes(p, prefix)) <==> Braceless(p)
    decreases |p|
  {
    if prefix <= p {
      DropPrefixesBraces(p[|prefix|..], prefix);
      assert p == prefix + p[|prefix|..];
    }
  }

  /** White space in front does not matter to the preamble. */
  lemma {:induction false} TrimmedPreface(p: string)
    ensures Occurs(TrimStart(p), THINK_END) <==> Occurs(p, THINK_END)
    ensures Occurs(p, THINK_END) ==> AfterLast(TrimStart(p), THINK_END) == AfterLast(p, THINK_END)
  {
    if p != "" && IsWhitespace(p[0]) {
      assert THINK_END[0] == '<';
      TrimmedPreface(p[1..]);
      if Occurs(p, THINK_END) {
        OccursFits(p, THINK_END);
      }
    }
  }

  lemma KeptBraces(prefix: string)
    ensures Braceless(Kept(prefix)) <==> Braceless(Preface(prefix))
  {
    var t := TrimStart(prefix);
    var p := if Occurs(t, THINK_END) then TrimStart(AfterLast(t, THINK_END)) else t;
    TrimmedPreface(prefix);
    if Occurs(prefix, THINK_END) {
      TrimStartBraces(AfterLast(t, THINK_END));
    } else {
      TrimStartBraces(prefix);
    }
    DropPrefixesBraces(p, JSON_FENCE);
    DropPrefixesBraces(DropPrefixes(p, JSON_FENCE), FENCE);
    TrimStartBraces(DropPrefixes(DropPrefixes(p, JSON_FENCE), FENCE));
  }

  // What follows the object is only ever cut at its end.

  lemma {:induction false} TrimEndAfter(y: string, q: string) returns (q': string)
    requires y != "" && y[|y| - 1] == '}'
    ensures TrimEnd(y + q) == y + q' && q' <= q
    decreases |q|
  {
    var n := |q| - 1;
    if q != "" && IsWhitespace(q[n]) {
      assert (y + q)[..|y + q| - 1] == y + q[..n];
      q' := TrimEndAfter(y, q[..n]);
    } else {
      q' := q;
      assert q == "" ==> y + q == y;
    }
  }

  lemma DropSuffixAfter(y: string, q: string, suffix: string) returns (q': string)
    requires y != "" && y[|y| - 1] == '}' && forall k :: 0 <= k < |suffix| ==> suffix[k] != '}'
    ensures DropSuffix(y + q, suffix) == y + q' && q' <= q
  {
    var s := y + q;
    if |suffix| <= |s| && s[|s| - |suffix|..] == suffix {
      var cut := |s| - |suffix|;
      assert forall k :: cut <= k < |s| ==> s[k] == suffix[k - cut];
      assert s[|y| - 1] == '}';
      q' := q[..|q| - |suffix|];
      assert s[..cut] == y + q';
    } else {
      q' := q;
    }
  }

  lemma TrimAround(p: string, o: string, q: string) returns (q': string)
    requires IsBraced(o)
    ensures q' <= q && Trim(p + o + q) == TrimStart(p) + o + q'
  {
    Assoc(p, o, q);
    TrimStartBefore(p, o + q);
    Assoc(TrimStart(p), o, q);
    q' := TrimEndAfter(TrimStart(p) + o, q);
  }

  lemma {:induction false} NoOccurrenceInPrefix(a: string, b: string, mark: string)
    requires a <= b && !Occurs(b, mark) && mark != ""
    ensures !Occurs(a, mark)
    decreases |a|
  {
    assert mark <= a ==> mark <= b;
    if a != "" {
      assert a[1..] <= b[1..];
      NoOccurrenceInPrefix(a[1..], b[1..], mark);
    }
  }

  lemma PreambleAround(t: string, o: string, q: string) returns (q': string)
    requires IsBraced(o) && !Occurs(o + q, THINK_END)
    ensures q' <= q
    ensures (if Occurs(t + o + q, THINK_END) then Trim(AfterLast(t + o + q, THINK_END)) else t + o + q)
         == (if Occurs(t, THINK_END) then TrimStart(AfterLast(t, THINK_END)) else t) + o + q'
  {
    Assoc(t, o, q);
    OccursBefore(t, o + q, THINK_END);
    q' := q;
    if Occurs(t, THINK_END) {
      AfterLastBefore(t, o + q, THINK_END);
      Assoc(AfterLast(t, THINK_END), o, q);
      q' := TrimAround(AfterLast(t, THINK_END), o, q);
    }
  }

  lemma FencesAround(p: string, o: string, q: string) returns (q': string)
    requires IsBraced(o)
    ensures q' <= q
    ensures Trim(DropSuffix(Trim(DropPrefixes(DropPrefixes(p + o + q, JSON_FENCE), FENCE)), FENCE))
         == TrimStart(DropPrefixes(DropPrefixes(p, JSON_FENCE), FENCE)) + o + q'
  {
    Assoc(p, o, q);
    DropPrefixesBefore(p, o + q, JSON_FENCE);
    var p1 := DropPrefixes(p, JSON_FENCE);
    DropPrefixesBefore(p1, o + q, FENCE);
    var p2 := DropPrefixes(p1, FENCE);
    Assoc(p2, o, q);
    q' := TrimAround(p2, o, q);
    q' := DropSuffixAfter(TrimStart(p2) + o, q', FENCE);
    q' := TrimAround(TrimStart(p2), o, q');
    TrimmedTwice(p2);
  }

  lemma {:induction false} TrimmedTwice(s: string)
    ensures TrimStart(TrimStart(s)) == TrimStart(s)
  {
    if s != "" && IsWhitespace(s[0]) {
      TrimmedTwice(s[1..]);
    }
  }

  /** What is left after stripping is the object, with what is kept of the text before it and some beginning
      of the text after it. */
  lemma StrippedAround(prefix: string, o: string, suffix: string) returns (q: string)
    requires IsBraced(o) && !Occurs(o + suffix, THINK_END)
    ensures q <= suffix && Stripped(prefix + o + suffix) == Kept(prefix) + o + q
  {
    q := TrimAround(prefix, o, suffix);
    assert o + q <= o + suffix;
    NoOccurrenceInPrefix(o + q, o + suffix, THINK_END);
    var t := TrimStart(prefix);
    q := PreambleAround(t, o, q);
    q := FencesAround(if Occurs(t, THINK_END) then TrimStart(AfterLast(t, THINK_END)) else t, o, q);
  }

  lemma FirstBrace(p: string, o: string, q: string)
    requires IsBraced(o)
    ensures IndexOf(p + o + q, '{') == |p| <==> Braceless(p)
  {
    var s := p + o + q;
    assert s[|p|] == '{' && forall k :: 0 <= k < |p| ==> s[k] == p[k];
  }

  /** The scan starts at the object exactly if the text before it, after its last "</think>", has no opening
      brace; whatever the preamble says. */
  lemma ScanStartsAtObjectExactlyIf(prefix: string, o: string, suffix: string) returns (q: string)
    requires IsBraced(o) && !Occurs(o + suffix, THINK_END)
    ensures q <= suffix && Stripped(prefix + o + suffix) == Kept(prefix) + o + q
    ensures IndexOf(Stripped(prefix + o + suffix), '{') == |Kept(prefix)| <==> Braceless(Preface(prefix))
  {
    q := StrippedAround(prefix, o, suffix);
    KeptBraces(prefix);
    FirstBrace(Kept(prefix), o, q);
  }

  /** Whatever braces, quotes and backslashes the object's strings contain, and whatever the reasoning before
      it contains, exactly the object is isolated: for every object, every text before it without opening brace
      after its last "</think>", and any text after it, as long as neither the object nor what follows
      contains another "</think>". */
  lemma IsolatesTheObject(prefix: string, open: string, members: Members, suffix: string)
    requires Braceless(Preface(prefix)) && WellFormed(Object(open, members))
    requires !Occurs(Write(Object(open, members)) + suffix, THINK_END)
    ensures Isolated(prefix + Write(Object(open, members)) + suffix) == Write(Object(open, members))
  {
    var o, inner := Write(Object(open, members)), open + WriteMembers(members);
    assert o == ['{'] + inner + ['}'];
    var q := ScanStartsAtObjectExactlyIf(prefix, o, suffix);
    InsideCrosses(open, members);
    ObjectIsTaken(inner, q);
    ObjectAtScanStart(prefix + o + suffix, Kept(prefix), o, q);
  }

  lemma ObjectAtScanStart(raw: string, p: string, o: string, q: string)
    requires Stripped(raw) == p + o + q && IndexOf(p + o + q, '{') == |p| && IsBraced(o)
    requires ScanEnd(o + q, 0, false, false) == Some(|o|)
    ensures Isolated(raw) == o
  {
    var s := p + o + q;
    assert s[|p|..] == o + q;
    assert s[|p|..|p| + |o|] == o;
  }

  /** A brace before the object does matter: a braced stretch of filler there is isolated instead of it. */
  lemma BraceBeforeObjectWins(before: string, inner: string, suffix: string)
    requires Braceless(Preface(before)) && Filler(inner) && !Occurs(['{'] + inner + ['}'] + suffix, THINK_END)
    ensures Isolated(before + (['{'] + inner + ['}']) + suffix) == ['{'] + inner + ['}']
  {
    var o := ['{'] + inner + ['}'];
    var q := ScanStartsAtObjectExactlyIf(before, o, suffix);
    FillerCrosses(inner);
    ObjectIsTaken(inner, q);
    ObjectAtScanStart(before + o + suffix, Kept(before), o, q);
  }

  // ---------------------------------------------------------------------------------------------
  // Fenced text without an object
  // ---------------------------------------------------------------------------------------------

  lemma {:induction false} TrimStartPads(a: string, s: string)
    requires Blank(a) && s != "" && !IsWhitespace(s[0])
    ensures TrimStart(a + s) == s
  {
    if a == "" {
      assert a + s == s;
    } else {
      assert (a + s)[1..] == a[1..] + s;
      TrimStartPads(a[1..], s);
    }
  }

  lemma {:induction false} TrimEndPads(s: string, b: string)
    requires Blank(b) && s != "" && !IsWhitespace(s[|s| - 1])
    ensures TrimEnd(s + b) == s
  {
    if b == "" {
      assert s + b == s;
    } else {
      assert (s + b)[..|s + b| - 1] == s + b[..|b| - 1];
      TrimEndPads(s, b[..|b| - 1]);
    }
  }

  lemma TrimPads(a: string, s: string, b: string)
    requires Blank(a) && Blank(b) && s != "" && Trimmed(s)
    ensures Trim(a + s + b) == s
  {
    Assoc(a, s, b);
    TrimStartPads(a, s + b);
    TrimEndPads(s, b);
  }

  /** Without backticks at its ends. */
  predicate Unfenced(body: string) { body != "" && Trimmed(body) && body[0] != '`' && body[|body| - 1] != '`' }

  lemma BothPrefixes(a: string, b: string, c: string)
    ensures a + b <= a + c <==> b <= c
  {
    var x, y := a + b, a + c;
    assert x[|a|..] == b && y[|a|..] == c;
    assert x <= y <==> |b| <= |c| && x == y[..|x|];
    if |b| <= |c| {
      assert y[..|x|] == a + c[..|b|];
    }
  }

  lemma PrefixIsDropped(fence: string, rest: string)
    requires fence == JSON_FENCE || (fence == FENCE && !("json" <= rest))
    requires rest != "" && rest[0] != '`'
    ensures DropPrefixes(DropPrefixes(fence + rest, JSON_FENCE), FENCE) == rest
  {
    var raw := fence + rest;
    assert raw[|fence|..] == rest;
    assert JSON_FENCE[0] == '`' && FENCE[0] == '`' && JSON_FENCE == FENCE + "json";
    BothPrefixes(FENCE, "json", rest);
    assert fence == FENCE ==> FENCE <= raw;
    assert fence == JSON_FENCE ==> JSON_FENCE <= raw;
  }

  lemma SuffixIsDropped(body: string, space: string)
    requires Blank(space) && Unfenced(body)
    ensures Trim(DropSuffix(body + space + FENCE, FENCE)) == body
  {
    var s := body + space + FENCE;
    assert s[|s| - 3..] == FENCE && s[..|s| - 3] == body + space;
    assert "" + body + space == body + space;
    TrimPads("", body, space);
  }

  lemma SpaceIsTrimmed(before: string, inner: string)
    requires Blank(before) && inner != "" && Trimmed(inner)
    ensures Trim(before + inner) == inner
  {
    assert before + inner + "" == before + inner;
    TrimPads(before, inner, "");
  }

  lemma StrippedBy(raw: string, rest: string, inner: string, body: string)
    requires Trim(raw) == raw && !Occurs(raw, THINK_END)
    requires DropPrefixes(DropPrefixes(raw, JSON_FENCE), FENCE) == rest && Trim(rest) == inner
    requires Trim(DropSuffix(inner, FENCE)) == body
    ensures Stripped(raw) == body
  {
  }

  lemma RawIsTrimmed(fence: string, before: string, inner: string)
    requires fence != "" && fence[0] == '`' && Blank(before) && inner != "" && inner[|inner| - 1] == '`'
    requires inner[0] != '`'
    ensures Trim(fence + (before + inner)) == fence + (before + inner)
    ensures (before + inner)[0] != '`'
  {
    var raw := fence + (before + inner);
    assert raw[0] == fence[0] && raw[|raw| - 1] == inner[|inner| - 1];
    assert (before + inner)[0] == if before == "" then inner[0] else before[0];
    assert "" + raw == raw;
    SpaceIsTrimmed("", raw);
  }

  lemma FencedText(fence: string, before: string, inner: string, body: string)
    requires fence == JSON_FENCE || (fence == FENCE && !("json" <= before + inner))
    requires Blank(before) && inner != "" && Trimmed(inner) && inner[0] != '`' && inner[|inner| - 1] == '`'
    requires !Occurs(fence + (before + inner), THINK_END) && Trim(DropSuffix(inner, FENCE)) == body
    ensures Stripped(fence + (before + inner)) == body
  {
    var rest := before + inner;
    RawIsTrimmed(fence, before, inner);
    SpaceIsTrimmed(before, inner);
    PrefixIsDropped(fence, rest);
    StrippedBy(fence + rest, rest, inner, body);
  }

  lemma NothingToScan(raw: string, body: string)
    requires Stripped(raw) == body && '{' !in body
    ensures Isolated(raw) == body
  {
    assert IndexOf(body, '{') == |body|;
  }

  /** A fenced answer that is no object, a list or a word, comes out without its fence and the space in it. */
  lemma FenceIsDropped(fence: string, before: string, body: string, after: string)
    requires Blank(before) && Blank(after) && Unfenced(body) && '{' !in body
    requires fence == "```json" || (fence == "```" && !("json" <= before + (body + after + "```")))
    requires !Occurs(fence + (before + (body + after + "```")), "</think>")
    ensures Isolated(fence + (before + (body + after + "```"))) == body
  {
    var inner := body + after + FENCE;
    assert inner[0] == body[0] && inner[|inner| - 1] == '`';
    SuffixIsDropped(body, after);
    FencedText(fence, before, inner, body);
    NothingToScan(fence + (before + inner), body);
  }
}
