/**
 * Reading the output of `<driver> -quiet help commands` (gromacs/tools.py,
 * load_v5_tools): the first five lines and the last line are skipped, and a
 * remaining line names a tool when the run of non-space characters that
 * starts at column 4 is followed by a space.
 */
module HelpParsing {
  import opened Wrappers
  import opened Text

  /** Python's `lines[5:-1]`. */
  function ListedLines(lines: seq<string>): (r: seq<string>)
    ensures |r| == if |lines| < 7 then 0 else |lines| - 6
    ensures forall i :: 0 <= i < |r| ==> r[i] == lines[i + 5]
  {
    if |lines| < 7 then [] else lines[5..|lines| - 1]
  }

  /** The tool a listed line names, if any. */
  function ParseCommandLine(line: string): (r: Option<string>)
    ensures r.Some? <==> |line| > 4 && line[4] != ' ' && ' ' in line[4..]
    ensures r.Some? ==> var n := r.value;
      && n != [] && ' ' !in n
      && 4 + |n| < |line| && line[4..4 + |n|] == n && line[4 + |n|] == ' '
  {
    if |line| > 4 && line[4] != ' ' && ' ' in line[4..] then
      var j := IndexFrom(line, ' ', 4).value;
      Some(line[4..j])
    else
      None
  }

  /** The tool names one driver reports, in the order it lists them: each is
      a non-empty run of non-spaces, and each is named by one of the lines
      between the five-line header and the final line. */
  function CommandNames(output: string): (r: seq<string>)
    ensures forall i :: 0 <= i < |r| ==> r[i] != [] && ' ' !in r[i]
    ensures forall n :: n in r ==>
      exists l :: l in ListedLines(SplitLines(output, ByteLineBreaks)) && ParseCommandLine(l) == Some(n)
    ensures |r| <= |ListedLines(SplitLines(output, ByteLineBreaks))|
  {
    var listed := ListedLines(SplitLines(output, ByteLineBreaks));
    NamesSound(listed);
    Names(listed)
  }

  /** The names the lines yield, in their order. */
  function Names(lines: seq<string>): (names: seq<string>)
    ensures forall l :: l in lines && ParseCommandLine(l).Some? ==> ParseCommandLine(l).value in names
    ensures forall i :: 0 <= i < |names| ==> names[i] != [] && ' ' !in names[i]
    ensures |names| <= |lines|
    decreases |lines|
  {
    if lines == [] then []
    else
      var last := lines[|lines| - 1];
      var init := Names(lines[..|lines| - 1]);
      assert forall l :: l in lines ==> l in lines[..|lines| - 1] || l == last;
      match ParseCommandLine(last)
      case None => init
      case Some(n) => init + [n]
  }

  /** Every name reported comes from a line that names it. */
  lemma {:induction false} NamesSound(lines: seq<string>)
    ensures forall n :: n in Names(lines) ==> exists l :: l in lines && ParseCommandLine(l) == Some(n)
    decreases |lines|
  {
    if lines != [] {
      var init := lines[..|lines| - 1];
      NamesSound(init);
      assert forall l :: l in init ==> l in lines;
    }
  }

  /** Conversely, a line whose column 4 starts a non-empty run of non-spaces
      that a space ends names exactly that run. */
  lemma ParseNamesRun(line: string, name: string)
    requires name != [] && ' ' !in name
    requires 4 + |name| < |line| && line[4..4 + |name|] == name && line[4 + |name|] == ' '
    ensures ParseCommandLine(line) == Some(name)
  {
    assert line[4] == name[0];
    assert line[4 + |name|] in line[4..];
    var n := ParseCommandLine(line).value;
    if |n| < |name| {
      assert false;
    }
    assert n == line[4..4 + |n|];
  }
}
