/**
 * The handful of Python string operations that gromacs/tools.py relies on:
 * whitespace tests, ASCII case mapping, strip, index, split, partition,
 * endswith and splitlines. Strings are sequences of characters; case mapping
 * is modelled for ASCII letters only and leaves every other character alone.
 */
module Text {
  import opened Wrappers

  /** Python's `str.isspace()` for one character; `strip()` and the regular
      expression class `\s` use the same set. */
  predicate IsSpace(c: char) {
    var n := c as int;
    n == 32 || 9 <= n <= 13 || 28 <= n <= 31 || n == 0x85 || n == 0xA0 || n == 0x1680
    || 0x2000 <= n <= 0x200A || n == 0x2028 || n == 0x2029 || n == 0x202F || n == 0x205F
    || n == 0x3000
  }

  predicate IsUpper(c: char) { 'A' <= c <= 'Z' }

  predicate IsLower(c: char) { 'a' <= c <= 'z' }

  function Upper(c: char): (u: char)
    ensures !IsLower(u)
    ensures IsUpper(c) || IsLower(c) <==> IsUpper(u)
    ensures IsLower(c) ==> u as int == c as int - 32
    ensures !IsLower(c) ==> u == c
  {
    if IsLower(c) then (c as int - 32) as char else c
  }

  function Lower(c: char): (l: char)
    ensures !IsUpper(l)
    ensures IsUpper(c) || IsLower(c) <==> IsLower(l)
    ensures IsUpper(c) ==> l as int == c as int + 32
    ensures !IsUpper(c) ==> l == c
  {
    if IsUpper(c) then (c as int + 32) as char else c
  }

  /** Python's `str.lower()` over ASCII. */
  function LowerStr(s: string): (r: string)
    ensures |r| == |s|
    ensures forall i :: 0 <= i < |r| ==> !IsUpper(r[i])
    ensures forall i :: 0 <= i < |s| && IsUpper(s[i]) ==> r[i] as int == s[i] as int + 32
    ensures forall i :: 0 <= i < |s| && !IsUpper(s[i]) ==> r[i] == s[i]
  {
    seq(|s|, i requires 0 <= i < |s| => Lower(s[i]))
  }

  /** Python's `str.lstrip()`: the suffix of `s` that starts at its first non-space. */
  function LStrip(s: string): (r: string)
    ensures |r| <= |s| && r == s[|s| - |r|..]
    ensures r == [] || !IsSpace(r[0])
    ensures forall i {:trigger IsSpace(s[i])} :: 0 <= i < |s| - |r| ==> IsSpace(s[i])
    decreases |s|
  {
    if s != [] && IsSpace(s[0]) then LStrip(s[1..]) else s
  }

  /** Python's `str.rstrip()`: the prefix of `s` that ends at its last non-space. */
  function RStrip(s: string): (r: string)
    ensures r <= s
    ensures r == [] || !IsSpace(r[|r| - 1])
    ensures forall i {:trigger IsSpace(s[i])} :: |r| <= i < |s| ==> IsSpace(s[i])
    decreases |s|
  {
    if s != [] && IsSpace(s[|s| - 1]) then RStrip(s[..|s| - 1]) else s
  }

  /** `r` is the infix of `s` that starts at `a`, and every character of `s`
      outside it is whitespace. */
  predicate SpaceAround(s: string, a: int, r: string) {
    && 0 <= a && a + |r| <= |s| && r == s[a..a + |r|]
    && (forall i {:trigger IsSpace(s[i])} :: 0 <= i < a ==> IsSpace(s[i]))
    && (forall i {:trigger IsSpace(s[i])} :: a + |r| <= i < |s| ==> IsSpace(s[i]))
  }

  /** Python's `str.strip()`: the infix of `s` from its first non-space to
      its last, with only whitespace on either side. */
  function Strip(s: string): (r: string)
    ensures r == [] || (!IsSpace(r[0]) && !IsSpace(r[|r| - 1]))
    ensures SpaceAround(s, |s| - |LStrip(s)|, r)
  {
    StripIsInfix(s);
    RStrip(LStrip(s))
  }

  lemma StripIsInfix(s: string)
    ensures SpaceAround(s, |s| - |LStrip(s)|, RStrip(LStrip(s)))
  {
    var left := LStrip(s);
    InfixPadding(s, |s| - |left|, left, RStrip(left));
  }

  /** Whitespace before a suffix of `s`, and whitespace after a prefix of
      that suffix, leave an infix of `s` with whitespace around it. */
  lemma InfixPadding(s: string, a: int, left: string, r: string)
    requires 0 <= a <= |s| && left == s[a..]
    requires forall i {:trigger IsSpace(s[i])} :: 0 <= i < a ==> IsSpace(s[i])
    requires r <= left
    requires forall i {:trigger IsSpace(left[i])} :: |r| <= i < |left| ==> IsSpace(left[i])
    ensures SpaceAround(s, a, r)
  {
    PrefixOfSuffix(s, a, left, r);
    forall i | a + |r| <= i < |s|
      ensures IsSpace(s[i])
    {
      assert s[i] == left[i - a];
    }
  }

  /** A prefix of the suffix of `s` from `a` is the infix of `s` from `a`. */
  lemma PrefixOfSuffix<T>(s: seq<T>, a: int, left: seq<T>, r: seq<T>)
    requires 0 <= a <= |s| && left == s[a..] && r <= left
    ensures a + |r| <= |s| && r == s[a..a + |r|]
  {
    assert r == left[..|r|];
  }

  /** Python's `s.index(c, from)`, with `None` where Python raises ValueError. */
  function IndexFrom(s: string, c: char, from: nat): (r: Option<nat>)
    requires from <= |s|
    ensures r.Some? ==> from <= r.value < |s| && s[r.value] == c
    ensures r.Some? ==> forall j :: from <= j < r.value ==> s[j] != c
    ensures r.None? <==> c !in s[from..]
    decreases |s| - from
  {
    if from == |s| then None
    else if s[from] == c then Some(from)
    else
      assert s[from..] == [s[from]] + s[from + 1..];
      IndexFrom(s, c, from + 1)
  }

  /** `sep` occurs in `s` starting at index `i`. */
  predicate OccursAt(s: string, sep: string, i: nat) {
    i + |sep| <= |s| && s[i..i + |sep|] == sep
  }

  /** Python's `s.find(sep, from)`, with `None` for -1. */
  function FindFrom(s: string, sep: string, from: nat): (r: Option<nat>)
    requires from <= |s|
    ensures r.Some? ==> from <= r.value && OccursAt(s, sep, r.value)
    ensures r.Some? ==> forall j :: from <= j < r.value ==> !OccursAt(s, sep, j)
    ensures r.None? ==> forall j :: from <= j <= |s| ==> !OccursAt(s, sep, j)
    decreases |s| - from
  {
    if OccursAt(s, sep, from) then Some(from)
    else if from == |s| then None
    else FindFrom(s, sep, from + 1)
  }

  /** `r` is the field of `s` that starts at `start`: it runs up to the next
      occurrence of `sep`, or to the end when there is none. */
  predicate FieldAt(s: string, sep: string, start: int, r: string) {
    && 0 <= start && start + |r| <= |s| && r == s[start..start + |r|]
    && (start + |r| == |s| || OccursAt(s, sep, start + |r|))
    && (forall j :: start <= j < start + |r| ==> !OccursAt(s, sep, j))
  }

  /** The field of `s` that starts at `start`. */
  function FieldFrom(s: string, sep: string, start: nat): (r: string)
    requires start <= |s|
    ensures FieldAt(s, sep, start, r)
  {
    match FindFrom(s, sep, start)
    case None => s[start..]
    case Some(j) => s[start..j]
  }

  /** Python's `s.split(sep)[1]` for a non-empty `sep` that occurs in `s`: the
      text after the first occurrence, up to the next occurrence or the end. */
  function SplitSecond(s: string, sep: string): (r: string)
    requires sep != [] && FindFrom(s, sep, 0).Some?
    ensures FieldAt(s, sep, FindFrom(s, sep, 0).value + |sep|, r)
    ensures sep <= s ==> r <= s[|sep|..]
    ensures sep <= s && FindFrom(s, sep, |sep|).None? ==> r == s[|sep|..]
  {
    var start := FindFrom(s, sep, 0).value + |sep|;
    var r := FieldFrom(s, sep, start);
    assert sep <= s ==> start == |sep| by {
      if sep <= s { assert OccursAt(s, sep, 0); }
    }
    assert sep <= s ==> r <= s[|sep|..] by {
      if sep <= s { assert r == s[|sep|..][..|r|]; }
    }
    r
  }

  /** Python's `s.partition(c)[2]`: what follows the first `c`, or "" when there is none. */
  function AfterFirst(s: string, c: char): (r: string)
    ensures c !in s ==> r == []
    ensures c in s ==> |r| < |s| && s[|s| - |r| - 1] == c && r == s[|s| - |r|..]
    ensures c in s ==> c !in s[..|s| - |r| - 1]
  {
    match IndexFrom(s, c, 0)
    case None => []
    case Some(i) => s[i + 1..]
  }

  /** Python's `s.endswith(suffix)`. */
  predicate EndsWith(s: string, suffix: string) {
    |suffix| <= |s| && s[|s| - |suffix|..] == suffix
  }

  /** The line boundaries of Python's `bytes.splitlines()`. */
  const ByteLineBreaks: set<char> := {'\n', '\r'}

  /** The line boundaries of Python's `str.splitlines()`. */
  const StrLineBreaks: set<char> :=
    {'\n', '\r', '\U{B}', '\U{C}', '\U{1C}', '\U{1D}', '\U{1E}', '\U{85}', '\U{2028}', '\U{2029}'}

  /** Index of the first line boundary in `s` at or after `from`, or `|s|`. */
  function LineEnd(s: string, breaks: set<char>, from: nat): (r: nat)
    requires from <= |s|
    ensures from <= r <= |s|
    ensures r < |s| ==> s[r] in breaks
    ensures forall j :: from <= j < r ==> s[j] !in breaks
    decreases |s| - from
  {
    if from == |s| || s[from] in breaks then from else LineEnd(s, breaks, from + 1)
  }

  /** No character of `line` is a line boundary. */
  predicate BreakFree(line: string, breaks: set<char>) {
    forall j :: 0 <= j < |line| ==> line[j] !in breaks
  }

  /** Python's `splitlines()` without keepends: "\r\n" counts as one boundary,
      and a final boundary does not start an empty last line. */
  function SplitLines(s: string, breaks: set<char>): (lines: seq<string>)
    requires '\r' in breaks
    ensures forall k :: 0 <= k < |lines| ==> BreakFree(lines[k], breaks)
    ensures s == [] <==> lines == []
    decreases |s|
  {
    if s == [] then []
    else
      var i := LineEnd(s, breaks, 0);
      if i == |s| then [s]
      else
        var next := if s[i] == '\r' && i + 1 < |s| && s[i + 1] == '\n' then i + 2 else i + 1;
        [s[..i]] + SplitLines(s[next..], breaks)
  }

  /** Python's `"\n".join(lines)`. */
  function JoinLines(lines: seq<string>): string
    decreases |lines|
  {
    if lines == [] then []
    else if |lines| == 1 then lines[0]
    else lines[0] + "\n" + JoinLines(lines[1..])
  }

  /** `s` with every line boundary written as one '\n': a "\r\n" pair and
      each other break character alike. */
  function BreaksToNewlines(s: string, breaks: set<char>): (r: string)
    decreases |s|
  {
    if s == [] then []
    else if s[0] !in breaks then [s[0]] + BreaksToNewlines(s[1..], breaks)
    else if s[0] == '\r' && |s| > 1 && s[1] == '\n' then "\n" + BreaksToNewlines(s[2..], breaks)
    else "\n" + BreaksToNewlines(s[1..], breaks)
  }

  /** The '\n' that stands for a final line boundary of `s`, if it has one. */
  function FinalBreak(s: string, breaks: set<char>): string {
    if s != [] && s[|s| - 1] in breaks then "\n" else ""
  }

  /** Joining the lines gives back the text, with its boundaries normalised
      to '\n' and a final boundary dropped. */
  lemma {:induction false} SplitLinesRoundTrip(s: string, breaks: set<char>)
    requires '\r' in breaks && '\n' in breaks
    ensures JoinLines(SplitLines(s, breaks)) + FinalBreak(s, breaks) == BreaksToNewlines(s, breaks)
    decreases |s|
  {
    if s != [] {
      var i := LineEnd(s, breaks, 0);
      if i == |s| {
        BreakFreePrefix(s, breaks, i);
        assert s[i..] == [] && s[..i] == s;
      } else {
        var next := if s[i] == '\r' && i + 1 < |s| && s[i + 1] == '\n' then i + 2 else i + 1;
        SplitLinesRoundTrip(s[next..], breaks);
        RoundTripStep(s, breaks, i, next);
      }
    }
  }

  /** The inductive step of `SplitLinesRoundTrip`: the first line, its
      boundary, and the round trip of what follows. */
  lemma RoundTripStep(s: string, breaks: set<char>, i: nat, next: nat)
    requires '\r' in breaks && '\n' in breaks
    requires i < |s| && i == LineEnd(s, breaks, 0)
    requires next == if s[i] == '\r' && i + 1 < |s| && s[i + 1] == '\n' then i + 2 else i + 1
    requires JoinLines(SplitLines(s[next..], breaks)) + FinalBreak(s[next..], breaks)
      == BreaksToNewlines(s[next..], breaks)
    ensures JoinLines(SplitLines(s, breaks)) + FinalBreak(s, breaks) == BreaksToNewlines(s, breaks)
  {
    var rest := s[next..];
    var head := s[..i];
    SplitLinesStep(s, breaks, i, next);
    BreakStep(s, breaks, i, next);
    FinalBreakStep(s, breaks, i, next);
    JoinRoundTrip(head, SplitLines(rest, breaks), FinalBreak(s, breaks),
      FinalBreak(rest, breaks), BreaksToNewlines(rest, breaks));
  }

  /** The final boundary of `s` is the one after its first line when
      nothing follows, and that of the rest otherwise. */
  lemma FinalBreakStep(s: string, breaks: set<char>, i: nat, next: nat)
    requires '\n' in breaks && i < |s| && s[i] in breaks
    requires next == if s[i] == '\r' && i + 1 < |s| && s[i + 1] == '\n' then i + 2 else i + 1
    ensures FinalBreak(s, breaks) == if next == |s| then "\n" else FinalBreak(s[next..], breaks)
  {
    if next < |s| {
      assert s[|s| - 1] == s[next..][|s| - next - 1];
    } else if next == i + 2 {
      assert s[|s| - 1] == '\n';
    } else {
      assert s[|s| - 1] == s[i];
    }
  }

  /** The algebra of `RoundTripStep`: a first line in front of the joined
      rest, with the final boundary carried over or supplied. */
  lemma JoinRoundTrip(head: string, lines: seq<string>, fin: string, finRest: string, rest: string)
    requires JoinLines(lines) + finRest == rest
    requires lines == [] ==> fin == "\n" && finRest == [] && rest == []
    requires lines != [] ==> fin == finRest
    ensures JoinLines([head] + lines) + fin == head + "\n" + rest
  {
    JoinCons(head, lines);
    if lines != [] {
      AppendAssoc(head + "\n", JoinLines(lines), finRest);
    }
  }

  /** `SplitLines` cuts off the first line and goes on after its boundary. */
  lemma SplitLinesStep(s: string, breaks: set<char>, i: nat, next: nat)
    requires '\r' in breaks
    requires i < |s| && i == LineEnd(s, breaks, 0)
    requires next == if s[i] == '\r' && i + 1 < |s| && s[i + 1] == '\n' then i + 2 else i + 1
    ensures SplitLines(s, breaks) == [s[..i]] + SplitLines(s[next..], breaks)
  {
  }

  lemma AppendAssoc<T>(a: seq<T>, b: seq<T>, c: seq<T>)
    ensures a + b + c == a + (b + c)
  {
  }

  lemma JoinCons(head: string, lines: seq<string>)
    ensures JoinLines([head] + lines) == if lines == [] then head else head + "\n" + JoinLines(lines)
  {
    assert ([head] + lines)[1..] == lines;
  }

  /** One boundary, of one or two characters, becomes one '\n'. */
  lemma BreakStep(s: string, breaks: set<char>, i: nat, next: nat)
    requires i < |s| && s[i] in breaks && forall j :: 0 <= j < i ==> s[j] !in breaks
    requires next == if s[i] == '\r' && i + 1 < |s| && s[i + 1] == '\n' then i + 2 else i + 1
    ensures BreaksToNewlines(s, breaks) == s[..i] + "\n" + BreaksToNewlines(s[next..], breaks)
  {
    BreakFreePrefix(s, breaks, i);
    var tail := s[i..];
    if next == i + 2 {
      assert tail[2..] == s[next..];
    } else {
      assert tail[1..] == s[next..];
    }
  }

  /** A break-free prefix passes through unchanged. */
  lemma {:induction false} BreakFreePrefix(s: string, breaks: set<char>, i: nat)
    requires i <= |s| && forall j :: 0 <= j < i ==> s[j] !in breaks
    ensures BreaksToNewlines(s, breaks) == s[..i] + BreaksToNewlines(s[i..], breaks)
    decreases i
  {
    if i > 0 {
      assert BreaksToNewlines(s, breaks) == [s[0]] + BreaksToNewlines(s[1..], breaks);
      BreakFreePrefix(s[1..], breaks, i - 1);
      assert s[1..][i - 1..] == s[i..];
      assert s[..i] == [s[0]] + s[1..][..i - 1];
      AppendAssoc([s[0]], s[1..][..i - 1], BreaksToNewlines(s[i..], breaks));
    }
  }
}
