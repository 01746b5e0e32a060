/**
 * The release "virtual command" of gromacs/tools.py: on creation it runs
 * `grompp -version` through the registry and keeps the text after
 * "Gromacs version:" on the first line of its output that matches
 *   ^G[rR][oO][mM][aA][cC][sS] version:\s*(VERSION)?\s*(?P<version>.+)$
 * Running grompp is outside the model: the output and error text it produces
 * for a tool are a parameter.
 */
module Releases {
  import opened Wrappers
  import opened Text
  import opened ToolDict

  /** Length of "Gromacs version:". */
  const HeaderLength := 16

  /** The line starts with "G", then "romacs" in any case, then " version:". */
  predicate HasHeader(line: string) {
    && |line| >= HeaderLength
    && line[0] == 'G'
    && LowerStr(line[1..7]) == "romacs"
    && line[7..HeaderLength] == " version:"
  }

  /** The header test is the pattern's own: "G", then the character classes
      [rR][oO][mM][aA][cC][sS], then " version:". */
  lemma HeaderByClasses(line: string)
    ensures HasHeader(line) <==>
      && |line| >= HeaderLength && line[0] == 'G'
      && (forall i :: 1 <= i < 7 ==> line[i] == "GROMACS"[i] || line[i] == "Gromacs"[i])
      && line[7..HeaderLength] == " version:"
  {
    if |line| >= HeaderLength {
      var l := LowerStr(line[1..7]);
      if l == "romacs" {
        forall i | 1 <= i < 7
          ensures line[i] == "GROMACS"[i] || line[i] == "Gromacs"[i]
        {
          assert l[i - 1] == Lower(line[i]);
        }
      }
    }
  }

  /** Every character of `s` is whitespace. */
  predicate AllSpace(s: string) {
    forall i {:trigger IsSpace(s[i])} :: 0 <= i < |s| ==> IsSpace(s[i])
  }

  /** A release string as the pattern can capture it from a stripped line:
      non-empty, no whitespace at either end, and no newline. */
  predicate WellFormedVersion(v: string) {
    v != [] && !IsSpace(v[0]) && !IsSpace(v[|v| - 1]) && '\n' !in v
  }

  /** The `version` group, given the text after the header from its first
      non-space on: both `\s*` are greedy, so the group starts after "VERSION"
      and the spaces following it when that word is followed by more text. */
  function VersionGroup(rest: string): (group: string)
    ensures |group| <= |rest| && group == rest[|rest| - |group|..]
    ensures group == [] || !IsSpace(group[0]) || group == rest
  {
    if |rest| > 7 && rest[..7] == "VERSION" then LStrip(rest[7..]) else rest
  }

  /** The group skips a leading word "VERSION" that more text follows, and the
      whitespace after it; any other text is the group whole. */
  lemma VersionGroupSpec(rest: string)
    ensures var group := VersionGroup(rest);
      && (|rest| > 7 && rest[..7] == "VERSION" ==>
            && |group| <= |rest| - 7
            && AllSpace(rest[7..|rest| - |group|])
            && (group == [] || !IsSpace(group[0])))
      && (!(|rest| > 7 && rest[..7] == "VERSION") ==> group == rest)
  {
    if |rest| > 7 && rest[..7] == "VERSION" {
      var after := rest[7..];
      var group := LStrip(after);
      var spaces := rest[7..|rest| - |group|];
      forall i | 0 <= i < |spaces|
        ensures IsSpace(spaces[i])
      {
        assert spaces[i] == after[i];
      }
    }
  }

  /** The `version` group of the pattern on a stripped line, or None when the
      pattern does not match: `.` does not cross a newline and the group
      cannot be empty. */
  function MatchVersion(line: string): (v: Option<string>)
    requires line == [] || (!IsSpace(line[0]) && !IsSpace(line[|line| - 1]))
    ensures v.Some? ==> HasHeader(line) && WellFormedVersion(v.value)
  {
    if !HasHeader(line) then None
    else
      var rest := LStrip(line[HeaderLength..]);
      var version := VersionGroup(rest);
      if version == [] || '\n' in version then None
      else
        assert version[|version| - 1] == rest[|rest| - 1] == line[|line| - 1];
        Some(version)
  }

  /** The release string is the end of the line it was read from. */
  lemma MatchVersionIsSuffix(line: string)
    requires line == [] || (!IsSpace(line[0]) && !IsSpace(line[|line| - 1]))
    ensures MatchVersion(line).Some? ==> EndsWith(line, MatchVersion(line).value)
  {
    if MatchVersion(line).Some? {
      var tail := line[HeaderLength..];
      var rest := LStrip(tail);
      var v := VersionGroup(rest);
      assert v == MatchVersion(line).value;
      assert EndsWith(line, v) by {
        SuffixOfSuffix(line, tail, rest);
        SuffixOfSuffix(line, rest, v);
      }
    }
  }

  lemma SuffixOfSuffix(a: string, b: string, c: string)
    requires |b| <= |a| && b == a[|a| - |b|..]
    requires |c| <= |b| && c == b[|b| - |c|..]
    ensures c == a[|a| - |c|..]
  {
    assert forall k :: 0 <= k < |c| ==> c[k] == b[|b| - |c| + k] == a[|a| - |c| + k];
  }

  /** What the constructor's loop finds on one raw output line: strip, then match. */
  function ReleaseOfLine(raw: string): (r: Option<string>)
    ensures r.Some? ==> HasHeader(Strip(raw)) && WellFormedVersion(r.value)
  {
    MatchVersion(Strip(raw))
  }

  /** A line keeps the header it begins with. */
  lemma {:induction false} HeaderPrefix(header: string, tail: string)
    requires HasHeader(header) && |header| == HeaderLength
    ensures HasHeader(header + tail)
  {
    var line := header + tail;
    assert line[..HeaderLength] == header;
    assert line[1..7] == header[1..7];
    assert line[7..HeaderLength] == header[7..HeaderLength];
  }

  /** After the header and any spaces, the pattern reads the group off the rest. */
  lemma {:induction false} HeaderThenRest(header: string, spaces: string, rest: string)
    requires HasHeader(header) && |header| == HeaderLength
    requires forall i :: 0 <= i < |spaces| ==> IsSpace(spaces[i])
    requires rest != [] && !IsSpace(rest[0]) && !IsSpace(rest[|rest| - 1])
    ensures var line := header + spaces + rest;
      && !IsSpace(line[0]) && !IsSpace(line[|line| - 1])
      && MatchVersion(line) == (var g := VersionGroup(rest); if g == [] || '\n' in g then None else Some(g))
  {
    var line := header + spaces + rest;
    HeaderPrefix(header, spaces + rest);
    assert line == header + (spaces + rest);
    assert line[0] == 'G';
    assert line[HeaderLength..] == spaces + rest;
    LStripSpaces(spaces, rest);
    assert line[|line| - 1] == rest[|rest| - 1];
  }

  /** A release string follows the header and any spaces back through the
      pattern unchanged, unless it starts with the word "VERSION" and goes on. */
  lemma VersionRoundTrip(header: string, spaces: string, v: string)
    requires HasHeader(header) && |header| == HeaderLength
    requires forall i :: 0 <= i < |spaces| ==> IsSpace(spaces[i])
    requires WellFormedVersion(v) && !(|v| > 7 && v[..7] == "VERSION")
    ensures MatchVersion(header + spaces + v) == Some(v)
  {
    HeaderThenRest(header, spaces, v);
  }

  /** The word "VERSION" between the header and the release string is skipped. */
  lemma VersionWordRoundTrip(header: string, spaces: string, gap: string, v: string)
    requires HasHeader(header) && |header| == HeaderLength
    requires forall i :: 0 <= i < |spaces| ==> IsSpace(spaces[i])
    requires forall i :: 0 <= i < |gap| ==> IsSpace(gap[i])
    requires WellFormedVersion(v)
    ensures MatchVersion(header + spaces + ("VERSION" + gap + v)) == Some(v)
  {
    var rest := "VERSION" + gap + v;
    assert rest == "VERSION" + (gap + v);
    assert |rest| > 7 && rest[..7] == "VERSION" && rest[7..] == gap + v;
    LStripSpaces(gap, v);
    assert VersionGroup(rest) == v;
    HeaderThenRest(header, spaces, rest);
  }

  /** Spaces in front of a text that starts with a non-space strip away. */
  lemma {:induction false} LStripSpaces(spaces: string, v: string)
    requires forall i :: 0 <= i < |spaces| ==> IsSpace(spaces[i])
    requires v != [] && !IsSpace(v[0])
    ensures LStrip(spaces + v) == v
    decreases |spaces|
  {
    if spaces != [] {
      assert (spaces + v)[1..] == spaces[1..] + v;
      LStripSpaces(spaces[1..], v);
    } else {
      assert spaces + v == v;
    }
  }

  /** What `parse` yields on the first line of `lines` where it yields anything. */
  function FirstOf(lines: seq<string>, parse: string -> Option<string>): Option<string>
    decreases |lines|
  {
    if lines == [] then None
    else if parse(lines[0]).Some? then parse(lines[0])
    else FirstOf(lines[1..], parse)
  }

  /** The release of the first line of `lines` that matches, if any. */
  function FirstRelease(lines: seq<string>): (r: Option<string>)
    ensures r.None? <==> forall i :: 0 <= i < |lines| ==> ReleaseOfLine(lines[i]).None?
    ensures r.Some? ==> WellFormedVersion(r.value)
  {
    FirstOfNone(lines, ReleaseOfLine);
    FoundReleaseWellFormed(lines);
    FirstOf(lines, ReleaseOfLine)
  }

  lemma FoundReleaseWellFormed(lines: seq<string>)
    ensures FirstOf(lines, ReleaseOfLine).Some? ==> WellFormedVersion(FirstOf(lines, ReleaseOfLine).value)
  {
    if FirstOf(lines, ReleaseOfLine).Some? {
      FirstOfIsFirst(lines, ReleaseOfLine);
    }
  }

  /** A scan resumed at line `i` stops there when that line parses and moves
      on to the next line when it does not. */
  lemma FirstOfStep(lines: seq<string>, parse: string -> Option<string>, i: nat)
    requires i < |lines|
    ensures parse(lines[i]).Some? ==> FirstOf(lines[i..], parse) == parse(lines[i])
    ensures parse(lines[i]).None? ==> FirstOf(lines[i..], parse) == FirstOf(lines[i + 1..], parse)
  {
    assert lines[i..][0] == lines[i] && lines[i..][1..] == lines[i + 1..];
  }

  /** Nothing is found exactly when no line parses. */
  lemma {:induction false} FirstOfNone(lines: seq<string>, parse: string -> Option<string>)
    ensures FirstOf(lines, parse).None? <==> forall i :: 0 <= i < |lines| ==> parse(lines[i]).None?
    decreases |lines|
  {
    if lines != [] {
      FirstOfNone(lines[1..], parse);
      assert forall i :: 1 <= i < |lines| ==> lines[i] == lines[1..][i - 1];
    }
  }

  /** What is found comes from a line that parses, before which no line parses. */
  lemma {:induction false} FirstOfIsFirst(lines: seq<string>, parse: string -> Option<string>)
    requires FirstOf(lines, parse).Some?
    ensures exists i :: (0 <= i < |lines| && parse(lines[i]) == FirstOf(lines, parse) &&
      forall j :: 0 <= j < i ==> parse(lines[j]).None?)
    decreases |lines|
  {
    if parse(lines[0]).Some? {
      assert parse(lines[0]) == FirstOf(lines, parse);
    } else {
      var tail := lines[1..];
      FirstOfIsFirst(tail, parse);
      var i :| 0 <= i < |tail| && parse(tail[i]) == FirstOf(tail, parse) &&
        forall j :: 0 <= j < i ==> parse(tail[j]).None?;
      assert lines[i + 1] == tail[i];
      forall j | 0 <= j < i + 1
        ensures parse(lines[j]).None?
      {
        if j > 0 {
          assert lines[j] == tail[j - 1];
        }
      }
    }
  }

  /** A release found is that of a matching line before which none matches. */
  lemma FirstReleaseSpec(lines: seq<string>)
    ensures FirstRelease(lines).Some? ==>
      exists i :: (0 <= i < |lines| && ReleaseOfLine(lines[i]) == FirstRelease(lines) &&
        forall j :: 0 <= j < i ==> ReleaseOfLine(lines[j]).None?)
  {
    if FirstRelease(lines).Some? {
      FirstOfIsFirst(lines, ReleaseOfLine);
    }
  }

  /** The constructor's loop: strip each line, match it, stop at the first match. */
  method ScanRelease(lines: seq<string>) returns (found: Option<string>)
    ensures found == FirstRelease(lines)
  {
    found := None;
    var i := 0;
    assert lines[i..] == lines;
    while i < |lines|
      invariant 0 <= i <= |lines|
      invariant FirstOf(lines, ReleaseOfLine) == FirstOf(lines[i..], ReleaseOfLine)
    {
      var line := Strip(lines[i]);
      var m := MatchVersion(line);
      FirstOfStep(lines, ReleaseOfLine, i);
      if m.Some? {
        found := m;
        return;
      }
      i := i + 1;
    }
    assert lines[i..] == [];
  }

  /** The lines the constructor scans: grompp's output lines, then its error
      lines, split as `str.splitlines()` does; none when the registry has no
      Grompp. `runVersion` stands for running a tool with `-version`. */
  function VersionOutputLines(registry: Dict, runVersion: Tool -> (string, string)): (lines: seq<string>)
    ensures "Grompp" !in registry.table ==> lines == []
    ensures forall k :: 0 <= k < |lines| ==> BreakFree(lines[k], StrLineBreaks)
  {
    if "Grompp" in registry.table then
      var (out, err) := runVersion(registry.table["Grompp"]);
      SplitLines(out, StrLineBreaks) + SplitLines(err, StrLineBreaks)
    else
      []
  }

  class Release {
    /** The release string, or None when it could not be determined. */
    var release: Option<string>

    ghost predicate Valid()
      reads this
    {
      release.Some? ==> WellFormedVersion(release.value)
    }

    /** `Release()`: scan the version output and stop at the first line that matches. */
    constructor (registry: Dict, runVersion: Tool -> (string, string))
      ensures Valid()
      ensures release == FirstRelease(VersionOutputLines(registry, runVersion))
    {
      var outputLines := VersionOutputLines(registry, runVersion);
      var found := ScanRelease(outputLines);
      FirstReleaseSpec(outputLines);
      release := found;
    }

    /** `release()`: the release string, or None. */
    method Call() returns (r: Option<string>)
      requires Valid()
      ensures r == release
      ensures r.Some? ==> WellFormedVersion(r.value)
    {
      r := release;
    }

    /** `str(release)`: the release string, or "unknown" when there is none. */
    function ToString(): (s: string)
      requires Valid()
      reads this
      ensures release.None? ==> s == "unknown"
      ensures release.Some? ==> s == release.value
      ensures s != []
    {
      if release.None? || release.value == [] then "unknown" else release.value
    }

    /** `release.startswith(prefixes)`, with a single prefix given as a
        one-element sequence: None where Python raises AttributeError because
        the release is None, otherwise whether some prefix starts it. */
    function StartsWith(prefixes: seq<string>): (r: Option<bool>)
      reads this
      ensures r.None? <==> release.None?
      ensures r.Some? ==> (r.value <==> exists p :: p in prefixes && p <= release.value)
    {
      if release.None? then None
      else Some(exists p :: p in prefixes && p <= release.value)
    }
  }
}
