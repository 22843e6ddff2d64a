/** The brace formatter `PyGoFormatter` of core/runtime/pygo_fmt.py. */
module Formatter {
  import opened Text

  const INDENT_SIZE := 4

  function Spaces(n: nat): string { seq(n, _ => ' ') }

  /** Empty lines and comments are left as they are. */
  predicate Skipped(stripped: string) {
    stripped == "" || "//" <= stripped || "#" <= stripped
  }

  predicate Opens(stripped: string) { '{' in stripped && '}' !in stripped }

  function Dedent(level: nat): nat { if level > 0 then level - 1 else 0 }

  /** The indent level after a line. */
  function NextLevel(line: string, level: nat): nat {
    var stripped := Strip(line);
    if Skipped(stripped) then level
    else if Opens(stripped) then level + 1
    else if '}' in stripped then Dedent(level)
    else level
  }

  /** A line that only closes is written at the level after it, any other at the level before. */
  function FormatLine(line: string, level: nat): string {
    var stripped := Strip(line);
    if Skipped(stripped) then line
    else if '}' in stripped && '{' !in stripped then Spaces(Dedent(level) * INDENT_SIZE) + stripped
    else Spaces(level * INDENT_SIZE) + stripped
  }

  function Level(lines: seq<string>): nat {
    if lines == [] then 0 else NextLevel(lines[|lines| - 1], Level(lines[..|lines| - 1]))
  }

  function Formatted(lines: seq<string>): seq<string> {
    if lines == [] then []
    else
      var n := |lines| - 1;
      Formatted(lines[..n]) + [FormatLine(lines[n], Level(lines[..n]))]
  }

  class PyGoFormatter {
    var indentLevel: nat

    constructor ()
      ensures indentLevel == 0
    {
      indentLevel := 0;
    }

    /** `_format_line`: indents by the current level, then raises it at a block start. */
    method FormatStripped(line: string) returns (formatted: string)
      modifies this
      ensures formatted == Spaces(old(indentLevel) * INDENT_SIZE) + line
      ensures indentLevel == if Opens(line) then old(indentLevel) + 1 else old(indentLevel)
    {
      formatted := Spaces(indentLevel * INDENT_SIZE) + line;
      if '{' in line && '}' !in line {
        indentLevel := indentLevel + 1;
      }
    }

    method FormatContent(content: string) returns (result: string)
      modifies this
      ensures result == Join(FormattedLines(Split(content, '\n')), '\n')
      ensures indentLevel == Level(Split(content, '\n'))
    {
      var lines, formatted := Split(content, '\n'), [];
      indentLevel := 0;
      var i := 0;
      while i < |lines|
        invariant i <= |lines|
        invariant formatted == Formatted(lines[..i]) && indentLevel == Level(lines[..i])
      {
        var line := lines[i];
        var stripped := Strip(line);
        OneLineMore(lines, i);
        if Skipped(stripped) {
          formatted := formatted + [line];
        } else if '{' in stripped {
          var text := FormatStripped(stripped);
          formatted := formatted + [text];
          if '}' in stripped {
            indentLevel := Dedent(indentLevel);
          }
        } else if '}' in stripped {
          indentLevel := Dedent(indentLevel);
          formatted := formatted + [Spaces(indentLevel * INDENT_SIZE) + stripped];
        } else {
          var text := FormatStripped(stripped);
          formatted := formatted + [text];
        }
        i := i + 1;
      }
      assert lines[..|lines|] == lines;
      FormattedLength(lines);
      result := Join(formatted, '\n');
    }
  }

  lemma OneLineMore(lines: seq<string>, i: nat)
    requires i < |lines|
    ensures Formatted(lines[..i + 1]) == Formatted(lines[..i]) + [FormatLine(lines[i], Level(lines[..i]))]
    ensures Level(lines[..i + 1]) == NextLevel(lines[i], Level(lines[..i]))
  {
    assert lines[..i + 1][..i] == lines[..i];
  }

  function FormattedLines(lines: seq<string>): (r: seq<string>)
    requires lines != []
    ensures |r| >= 1
  {
    FormattedLength(lines);
    Formatted(lines)
  }

  lemma {:induction false} FormattedLength(lines: seq<string>)
    ensures |Formatted(lines)| == |lines|
  {
    if lines != [] { FormattedLength(lines[..|lines| - 1]); }
  }

  // ---- Stripping ----

  predicate Bare(s: string) { s != "" ==> !IsSpace(s[0]) && !IsSpace(s[|s| - 1]) }

  lemma {:induction false} StripLeftStops(s: string)
    ensures StripLeft(s) != "" ==> !IsSpace(StripLeft(s)[0])
    ensures |StripLeft(s)| <= |s| && s[|s| - |StripLeft(s)|..] == StripLeft(s)
  {
    if s != "" && IsSpace(s[0]) { StripLeftStops(s[1..]); }
  }

  lemma {:induction false} StripRightStops(s: string)
    ensures StripRight(s) <= s
    ensures StripRight(s) != "" ==> !IsSpace(StripRight(s)[|StripRight(s)| - 1])
  {
    if s != "" && IsSpace(s[|s| - 1]) { StripRightStops(s[..|s| - 1]); }
  }

  lemma StripIsBare(s: string)
    ensures Bare(Strip(s))
  {
    StripLeftStops(s);
    StripRightStops(StripLeft(s));
  }

  lemma {:induction false} StripLeftOfSpaces(n: nat, s: string)
    requires s != "" ==> !IsSpace(s[0])
    ensures StripLeft(Spaces(n) + s) == s
  {
    if n == 0 {
      assert Spaces(0) + s == s;
    } else {
      assert (Spaces(n) + s)[1..] == Spaces(n - 1) + s;
      StripLeftOfSpaces(n - 1, s);
    }
  }

  /** Indenting a stripped line and stripping it again changes nothing. */
  lemma StripOfIndented(n: nat, s: string)
    requires Bare(s)
    ensures Strip(Spaces(n) + s) == s
  {
    StripLeftOfSpaces(n, s);
  }

  lemma FormatKeepsStripped(line: string, level: nat)
    ensures Strip(FormatLine(line, level)) == Strip(line)
  {
    StripIsBare(line);
    StripOfIndented(level * INDENT_SIZE, Strip(line));
    StripOfIndented(Dedent(level) * INDENT_SIZE, Strip(line));
  }

  // ---- What formatting keeps ----

  /** Formatting keeps the number of lines and every stripped line, and with them the levels. */
  lemma {:induction false} FormattingKeepsLines(lines: seq<string>, i: nat)
    requires i < |lines|
    ensures |Formatted(lines)| == |lines| && Strip(Formatted(lines)[i]) == Strip(lines[i])
  {
    var n := |lines| - 1;
    FormattedLength(lines[..n]);
    if i < n {
      FormattingKeepsLines(lines[..n], i);
    } else {
      FormatKeepsStripped(lines[n], Level(lines[..n]));
    }
  }

  lemma {:induction false} FormattingKeepsLevel(lines: seq<string>)
    ensures Level(Formatted(lines)) == Level(lines)
  {
    if lines != [] {
      var n := |lines| - 1;
      FormattingKeepsLevel(lines[..n]);
      FormatKeepsStripped(lines[n], Level(lines[..n]));
      FormattedLength(lines[..n]);
      assert Formatted(lines)[..n] == Formatted(lines[..n]);
    }
  }

  /** Formatting formatted lines again changes nothing. */
  lemma {:induction false} FormattingIsIdempotent(lines: seq<string>)
    ensures Formatted(Formatted(lines)) == Formatted(lines)
  {
    if lines != [] {
      var n := |lines| - 1;
      FormattingIsIdempotent(lines[..n]);
      FormattingKeepsLevel(lines[..n]);
      FormattedLength(lines[..n]);
      var level := Level(lines[..n]);
      FormatKeepsStripped(lines[n], level);
      assert Formatted(lines)[..n] == Formatted(lines[..n]);
      assert FormatLine(FormatLine(lines[n], level), level) == FormatLine(lines[n], level);
    }
  }

  lemma {:induction false} FormattedLinesAreLines(lines: seq<string>)
    requires Without(lines, '\n')
    ensures Without(Formatted(lines), '\n')
  {
    if lines != [] {
      var n := |lines| - 1;
      FormattedLinesAreLines(lines[..n]);
      var line := lines[n];
      StripLeftStops(line);
      StripRightStops(StripLeft(line));
      assert forall k :: 0 <= k < |Strip(line)| ==> Strip(line)[k] == line[|line| - |StripLeft(line)| + k];
      assert '\n' !in Strip(line);
    }
  }

  /** On whole files: the second run of the formatter returns what the first one wrote, with the same
      number of lines, each stripping to what the original line strips to. */
  method FormatTwice(formatter: PyGoFormatter, content: string) returns (once: string, twice: string)
    modifies formatter
    ensures twice == once
    ensures |Split(once, '\n')| == |Split(content, '\n')|
    ensures forall i :: 0 <= i < |Split(content, '\n')| ==>
      Strip(Split(once, '\n')[i]) == Strip(Split(content, '\n')[i])
  {
    var lines := Split(content, '\n');
    once := formatter.FormatContent(content);
    SplitHasNoSeparator(content, '\n');
    FormattedLinesAreLines(lines);
    SplitOfJoin(FormattedLines(lines), '\n');
    twice := formatter.FormatContent(once);
    FormattingIsIdempotent(lines);
    forall i | 0 <= i < |lines| ensures |Formatted(lines)| == |lines| && Strip(Formatted(lines)[i]) == Strip(lines[i]) {
      FormattingKeepsLines(lines, i);
    }
    FormattedLength(lines);
  }

  // ---- The indent level in closed form ----

  /** +1 for '{' without '}', -1 for any '}', 0 otherwise and for skipped lines. */
  function Delta(line: string): int {
    var stripped := Strip(line);
    if Skipped(stripped) then 0 else if Opens(stripped) then 1 else if '}' in stripped then -1 else 0
  }

  function Sum(lines: seq<string>): int {
    if lines == [] then 0 else Sum(lines[..|lines| - 1]) + Delta(lines[|lines| - 1])
  }

  /** The least partial sum, the empty one included. */
  function Lowest(lines: seq<string>): int {
    if lines == [] then 0
    else
      var before := Lowest(lines[..|lines| - 1]);
      if Sum(lines) < before then Sum(lines) else before
  }

  lemma {:induction false} LowestIsBound(lines: seq<string>, j: nat)
    requires j <= |lines|
    ensures Lowest(lines) <= Sum(lines[..j])
  {
    if j == |lines| {
      assert lines[..j] == lines;
    } else {
      var n := |lines| - 1;
      LowestIsBound(lines[..n], j);
      assert lines[..n][..j] == lines[..j];
    }
  }

  lemma {:induction false} LowestIsReached(lines: seq<string>) returns (j: nat)
    ensures j <= |lines| && Lowest(lines) == Sum(lines[..j])
  {
    assert lines[..|lines|] == lines;
    if lines == [] {
      j := 0;
    } else {
      var n := |lines| - 1;
      j := LowestIsReached(lines[..n]);
      assert lines[..n][..j] == lines[..j];
      if Sum(lines) < Lowest(lines[..n]) { j := |lines|; }
    }
  }

  /** The level after some lines is their sum minus the lowest partial sum: a walk reflected at zero. */
  lemma {:induction false} LevelIsReflectedSum(lines: seq<string>)
    ensures Level(lines) == Sum(lines) - Lowest(lines)
  {
    if lines != [] { LevelIsReflectedSum(lines[..|lines| - 1]); }
  }

  /** What a line adds to the sum: one for an opening brace without a closing one, minus one for any closing
      brace, nothing otherwise, and nothing for empty lines and comments. */
  lemma SumOfLine(lines: seq<string>, line: string)
    ensures var s := Strip(line);
      Sum(lines + [line]) - Sum(lines) ==
      if s == "" || "//" <= s || "#" <= s then 0
      else if '{' in s && '}' !in s then 1
      else if '}' in s then -1
      else 0
  {
    assert (lines + [line])[..|lines|] == lines;
  }

  /** Where every line ends up: empty lines and comments as they are; of the others, what they strip to, behind
      four spaces for each level of the sum over the lines before, less its lowest value, and for a line
      that only closes one level less, if there is one. */
  lemma FormattedLine(lines: seq<string>, i: nat)
    requires i < |lines|
    ensures |Formatted(lines)| == |lines|
    ensures var s, depth := Strip(lines[i]), Sum(lines[..i]) - Lowest(lines[..i]);
      depth >= 0 &&
      Formatted(lines)[i] ==
        if s == "" || "//" <= s || "#" <= s then lines[i]
        else if '}' in s && '{' !in s then seq(if depth > 0 then 4 * (depth - 1) else 0, _ => ' ') + s
        else seq(4 * depth, _ => ' ') + s
  {
    FormattedAt(lines, i);
    LevelIsReflectedSum(lines[..i]);
    IndentsAt(lines[i], Level(lines[..i]));
  }

  lemma {:induction false} FormattedAt(lines: seq<string>, i: nat)
    requires i < |lines|
    ensures |Formatted(lines)| == |lines| && Formatted(lines)[i] == FormatLine(lines[i], Level(lines[..i]))
  {
    var n := |lines| - 1;
    var before, last := Formatted(lines[..n]), FormatLine(lines[n], Level(lines[..n]));
    FormattedLength(lines[..n]);
    assert Formatted(lines) == before + [last];
    if i < n {
      FormattedAt(lines[..n], i);
      assert lines[..n][..i] == lines[..i] && lines[..n][i] == lines[i];
    }
  }

  lemma IndentsAt(line: string, level: nat)
    ensures var s := Strip(line);
      FormatLine(line, level) ==
        if s == "" || "//" <= s || "#" <= s then line
        else if '}' in s && '{' !in s then seq(if level > 0 then 4 * (level - 1) else 0, _ => ' ') + s
        else seq(4 * level, _ => ' ') + s
  {
    assert Spaces(4 * level) == seq(4 * level, _ => ' ');
    assert Spaces(4 * Dedent(level)) == seq(if level > 0 then 4 * (level - 1) else 0, _ => ' ');
  }
}
