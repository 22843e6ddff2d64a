/** Source-map comments: injecting them into generated files, reading them back, and looking up the
    entry nearest to an error line (core/runtime/source_map.py). */
module SourceMaps {
  import opened Common
  import opened Text

  const MARKER := "PYGO_ORIGINAL:"

  datatype Entry = Entry(generatedLine: int, sourceFile: string, sourceLine: int)

  // ---- Decimal numbers ----

  predicate IsDigit(c: char) { '0' <= c <= '9' }

  function Digit(d: nat): char
    requires d < 10
  {
    ('0' as int + d) as char
  }

  function Decimal(n: nat): string {
    if n < 10 then [Digit(n)] else Decimal(n / 10) + [Digit(n % 10)]
  }

  /** `str(n)` */
  function Str(n: int): string { if n >= 0 then Decimal(n) else "-" + Decimal(-n) }

  /** `int(s)` for a string of ASCII digits. */
  function ParseDecimal(s: string): nat
    requires forall i :: 0 <= i < |s| ==> IsDigit(s[i])
  {
    if s == "" then 0 else ParseDecimal(s[..|s| - 1]) * 10 + DigitValue(s[|s| - 1])
  }

  function DigitValue(c: char): nat
    requires IsDigit(c)
  {
    c as int - '0' as int
  }

  predicate AllDigits(s: string) { forall i :: 0 <= i < |s| ==> IsDigit(s[i]) }

  lemma {:induction false} DecimalRoundTrip(n: nat)
    ensures Decimal(n) != "" && AllDigits(Decimal(n)) && ParseDecimal(Decimal(n)) == n
  {
    if n >= 10 {
      DecimalRoundTrip(n / 10);
      assert Decimal(n)[..|Decimal(n)| - 1] == Decimal(n / 10);
    } else {
      assert Decimal(n)[..0] == "";
    }
  }

  // ---- The pattern PYGO_ORIGINAL:\s*(\S+):(\d+) ----

  function Word(s: string): string {
    if s != "" && !IsSpace(s[0]) then [s[0]] + Word(s[1..]) else ""
  }

  function Digits(s: string): string {
    if s != "" && IsDigit(s[0]) then [s[0]] + Digits(s[1..]) else ""
  }

  predicate ColonDigitAt(word: string, k: nat) {
    0 < k && k + 1 < |word| && word[k] == ':' && IsDigit(word[k + 1])
  }

  /** The greedy `\S+` backs off to the last colon that is followed by a digit, at or below k. */
  function LastColon(word: string, k: nat): Option<nat> {
    if ColonDigitAt(word, k) then Some(k) else if k == 0 then None else LastColon(word, k - 1)
  }

  lemma {:induction false} DigitsAreDigits(s: string)
    ensures AllDigits(Digits(s))
  {
    if s != "" && IsDigit(s[0]) { DigitsAreDigits(s[1..]); }
  }

  /** The pattern after the marker: `\s*(\S+):(\d+)`. */
  function MatchRest(s: string): Option<(string, nat)> {
    var word := Word(StripLeft(s));
    match LastColon(word, |word|)
    case None => None
    case Some(k) =>
      if k + 1 > |word| then None
      else
        DigitsAreDigits(word[k + 1..]);
        Some((word[..k], ParseDecimal(Digits(word[k + 1..]))))
  }

  /** `re.search`: the leftmost place where the pattern matches. */
  function Search(line: string): Option<(string, nat)> {
    if line == "" then None
    else if MARKER <= line && MatchRest(line[|MARKER|..]).Some? then MatchRest(line[|MARKER|..])
    else Search(line[1..])
  }

  function Comment(name: string, sourceLine: int): string {
    "// " + MARKER + " " + name + ":" + Str(sourceLine)
  }

  predicate NoSpace(s: string) { forall i :: 0 <= i < |s| ==> !IsSpace(s[i]) }

  lemma {:induction false} WordOfNoSpace(s: string)
    requires NoSpace(s)
    ensures Word(s) == s
  {
    if s != "" {
      WordOfNoSpace(s[1..]);
      assert [s[0]] + s[1..] == s;
    }
  }

  lemma {:induction false} DigitsOfAllDigits(s: string)
    requires AllDigits(s)
    ensures Digits(s) == s
  {
    if s != "" {
      DigitsOfAllDigits(s[1..]);
      assert [s[0]] + s[1..] == s;
    }
  }

  lemma {:induction false} LastColonIs(word: string, k: nat, at: nat)
    requires at <= k && ColonDigitAt(word, at)
    requires forall j :: at < j <= k ==> !ColonDigitAt(word, j)
    ensures LastColon(word, k) == Some(at)
  {
    if k > at { LastColonIs(word, k - 1, at); }
  }

  lemma {:induction false} NoColon(word: string, k: nat)
    requires forall j :: 0 <= j <= k ==> !ColonDigitAt(word, j)
    ensures LastColon(word, k) == None
  {
    if k > 0 { NoColon(word, k - 1); }
  }

  lemma SearchSkips(c: char, s: string)
    requires c != MARKER[0]
    ensures Search([c] + s) == Search(s)
  {
    assert ([c] + s)[1..] == s;
  }

  lemma SearchHere(rest: string)
    requires MatchRest(rest).Some?
    ensures Search(MARKER + rest) == MatchRest(rest)
  {
    assert (MARKER + rest)[|MARKER|..] == rest;
  }

  /** The search skips the comment's "// " and matches at the marker. */
  lemma SearchSkipsSlashes(s: string)
    ensures Search("// " + s) == Search(s)
  {
    var one, two := [' '] + s, ['/'] + ([' '] + s);
    SearchSkips(' ', s);
    SearchSkips('/', one);
    SearchSkips('/', two);
    assert "// " + s == ['/'] + two;
  }

  lemma WordAfterSpace(word: string)
    requires word != "" && NoSpace(word)
    ensures Word(StripLeft(" " + word)) == word
  {
    assert (" " + word)[1..] == word;
    WordOfNoSpace(word);
  }

  lemma ColonBeforeNumber(name: string, number: string)
    requires name != "" && number != "" && AllDigits(number)
    ensures var word := name + ":" + number; LastColon(word, |word|) == Some(|name|)
  {
    var word := name + ":" + number;
    assert word[|name| + 1] == number[0];
    forall j | |name| < j <= |word| ensures !ColonDigitAt(word, j) {
      if j < |word| { assert word[j] == number[j - |name| - 1]; }
    }
    LastColonIs(word, |word|, |name|);
  }

  /** The pattern after the marker reads a name, a colon and a number. */
  lemma RestReadsBack(name: string, number: string)
    requires name != "" && NoSpace(name) && number != "" && AllDigits(number)
    ensures MatchRest(" " + (name + ":" + number)) == Some((name, ParseDecimal(number)))
  {
    var word := name + ":" + number;
    WordAfterSpace(word);
    ColonBeforeNumber(name, number);
    assert word[..|name|] == name && word[|name| + 1..] == number;
    DigitsOfAllDigits(number);
  }

  lemma CommentReadsBack(name: string, sourceLine: nat)
    requires name != "" && NoSpace(name)
    ensures Search(Comment(name, sourceLine)) == Some((name, sourceLine))
  {
    DecimalRoundTrip(sourceLine);
    RestReadsBack(name, Decimal(sourceLine));
    CommentParts(name, sourceLine);
    SearchFinds(" " + (name + ":" + Decimal(sourceLine)));
  }

  lemma CommentParts(name: string, sourceLine: int)
    ensures Comment(name, sourceLine) == "// " + (MARKER + (" " + (name + ":" + Str(sourceLine))))
  {
  }

  lemma SearchFinds(rest: string)
    requires MatchRest(rest).Some?
    ensures Search("// " + (MARKER + rest)) == MatchRest(rest)
  {
    SearchHere(rest);
    SearchSkipsSlashes(MARKER + rest);
  }

  lemma {:induction false} WordHasNoSpace(s: string)
    ensures NoSpace(Word(s))
  {
    if s != "" && !IsSpace(s[0]) { WordHasNoSpace(s[1..]); }
  }

  lemma {:induction false} LastColonFound(word: string, k: nat)
    ensures LastColon(word, k).Some? ==> LastColon(word, k).value <= k && ColonDigitAt(word, LastColon(word, k).value)
  {
    if !ColonDigitAt(word, k) && k > 0 { LastColonFound(word, k - 1); }
  }

  /** A name that the pattern yields is not empty and has no white space in it. */
  lemma MatchedName(s: string)
    ensures MatchRest(s).Some? ==> MatchRest(s).value.0 != "" && NoSpace(MatchRest(s).value.0)
  {
    var word := Word(StripLeft(s));
    WordHasNoSpace(StripLeft(s));
    LastColonFound(word, |word|);
  }

  lemma {:induction false} SearchedName(line: string)
    ensures Search(line).Some? ==> Search(line).value.0 != "" && NoSpace(Search(line).value.0)
  {
    if line != "" {
      if MARKER <= line { MatchedName(line[|MARKER|..]); }
      SearchedName(line[1..]);
    }
  }

  predicate Finds(found: Option<(string, nat)>, name: string, sourceLine: int) {
    found.Some? && found.value.0 == name && found.value.1 == sourceLine
  }

  /** Can a source name and line be read back from a comment? */
  predicate Readable(name: string, sourceLine: int) { name != "" && NoSpace(name) && sourceLine >= 0 }

  /** An injected comment is read back as the name and line it was written with, exactly when the name is
      not empty and has no white space, and the line is not negative. */
  lemma CommentReadsBackIff(name: string, sourceLine: int)
    ensures Finds(Search(Comment(name, sourceLine)), name, sourceLine) <==> Readable(name, sourceLine)
  {
    if Readable(name, sourceLine) { CommentReadsBack(name, sourceLine); }
    SearchedName(Comment(name, sourceLine));
  }

  /** For one, the comment of line 3 of "my app.pgo" is never read back. */
  lemma SpacedNameIsLost()
    ensures !Finds(Search(Comment("my app.pgo", 3)), "my app.pgo", 3)
  {
    assert "my app.pgo"[2] == ' ';
    CommentReadsBackIff("my app.pgo", 3);
  }

  // ---- The texts themselves ----

  /** Decimal digits: the last one is the number modulo ten, the ones before it are those of a tenth of the
      number, and a number below ten has no more. */
  lemma DecimalMeans(n: nat)
    ensures var s := Decimal(n);
      && |s| >= 1 && s[|s| - 1] as int - '0' as int == n % 10
      && s[..|s| - 1] == if n < 10 then "" else Decimal(n / 10)
  {
  }

  /** An injected comment, character by character; a negative line is written with a minus sign. */
  lemma CommentMeans(name: string, sourceLine: int)
    ensures Comment(name, sourceLine) ==
            if sourceLine >= 0 then "// PYGO_ORIGINAL: " + name + ":" + Decimal(sourceLine)
            else "// PYGO_ORIGINAL: " + name + ":-" + Decimal(-sourceLine)
  {
    assert "// " + MARKER + " " == "// PYGO_ORIGINAL: ";
    if sourceLine < 0 {
      assert Str(sourceLine) == "-" + Decimal(-sourceLine);
      assert "// PYGO_ORIGINAL: " + name + ":" + ("-" + Decimal(-sourceLine))
          == "// PYGO_ORIGINAL: " + name + ":-" + Decimal(-sourceLine);
    }
  }

  /** A way for the pattern `\s*(\S+):(\d+)` to match the front of a text, with all its digits taken. */
  ghost predicate Parts(s: string, pre: string, name: string, digits: string, post: string) {
    && s == pre + (name + (":" + (digits + post)))
    && (forall c :: c in pre ==> IsSpace(c))
    && name != "" && (forall i :: 0 <= i < |name| ==> !IsSpace(name[i]))
    && digits != "" && (forall i :: 0 <= i < |digits| ==> '0' <= digits[i] <= '9')
    && (post != "" ==> !('0' <= post[0] <= '9'))
  }

  lemma {:induction false} WordMeans(s: string)
    ensures Word(s) <= s && NoSpace(Word(s)) && (|Word(s)| < |s| ==> IsSpace(s[|Word(s)|]))
  {
    if s != "" && !IsSpace(s[0]) { WordMeans(s[1..]); }
  }

  lemma {:induction false} DigitsMeans(s: string)
    ensures Digits(s) <= s && AllDigits(Digits(s)) && (|Digits(s)| < |s| ==> !IsDigit(s[|Digits(s)|]))
  {
    if s != "" && IsDigit(s[0]) { DigitsMeans(s[1..]); }
  }

  /** What is found after the marker is a match of the pattern. */
  lemma MatchFinds(s: string) returns (pre: string, digits: string, post: string)
    requires MatchRest(s).Some?
    ensures Parts(s, pre, MatchRest(s).value.0, digits, post)
    ensures AllDigits(digits) && ParseDecimal(digits) == MatchRest(s).value.1
  {
    var t, word := StripLeft(s), Word(StripLeft(s));
    pre := StripLeftMeans(s);
    LastColonFound(word, |word|);
    var k := LastColon(word, |word|).value;
    digits := Digits(word[k + 1..]);
    DigitsMeans(word[k + 1..]);
    post := WordParts(t, k);
    PartsBehind(pre, t, word[..k], digits, post);
  }

  lemma PartsBehind(pre: string, t: string, name: string, digits: string, post: string)
    requires Parts(t, "", name, digits, post) && forall c :: c in pre ==> IsSpace(c)
    ensures Parts(pre + t, pre, name, digits, post)
  {
    assert t == name + (":" + (digits + post));
  }

  /** The parts of a text that starts with a word. */
  lemma WordParts(t: string, k: nat) returns (post: string)
    requires ColonDigitAt(Word(t), k)
    ensures Parts(t, "", Word(t)[..k], Digits(Word(t)[k + 1..]), post)
  {
    var word, digits := Word(t), Digits(Word(t)[k + 1..]);
    WordMeans(t);
    DigitsMeans(word[k + 1..]);
    post := AfterDigits(word, k, digits, t[|word|..]);
    assert t == word + t[|word|..];
  }

  /** A word cut at its colon and after the digits that follow. */
  lemma AfterDigits(word: string, k: nat, digits: string, rest: string) returns (post: string)
    requires ColonDigitAt(word, k) && NoSpace(word) && (rest != "" ==> IsSpace(rest[0]))
    requires digits <= word[k + 1..] && AllDigits(digits)
    requires |digits| < |word[k + 1..]| ==> !IsDigit(word[k + 1..][|digits|])
    ensures Parts(word + rest, "", word[..k], digits, post)
  {
    var tail := word[k + 1..];
    var left := tail[|digits|..];
    post := left + rest;
    assert tail[0] == word[k + 1];
    CutTwice(word, k, digits, left, rest);
    if left != "" {
      assert post[0] == left[0] == tail[|digits|];
    } else if rest != "" {
      assert post[0] == rest[0];
    }
  }

  lemma CutTwice(word: string, k: nat, digits: string, left: string, rest: string)
    requires k < |word| && word[k] == ':' && word[k + 1..] == digits + left
    ensures word + rest == "" + (word[..k] + (":" + (digits + (left + rest))))
  {
    assert word == word[..k] + (":" + (digits + left));
  }

  lemma {:induction false} StripLeftSkips(pre: string, t: string)
    requires (forall c :: c in pre ==> IsSpace(c)) && (t != "" ==> !IsSpace(t[0]))
    ensures StripLeft(pre + t) == t
  {
    if pre == "" {
      assert pre + t == t;
    } else {
      assert (pre + t)[1..] == pre[1..] + t;
      StripLeftSkips(pre[1..], t);
    }
  }

  lemma {:induction false} WordExtends(a: string, b: string)
    requires NoSpace(a)
    ensures Word(a + b) == a + Word(b)
  {
    if a == "" {
      assert a + b == b;
    } else {
      assert (a + b)[1..] == a[1..] + b;
      WordExtends(a[1..], b);
    }
  }

  lemma {:induction false} LastColonAtLeast(word: string, k: nat, at: nat)
    requires at <= k && ColonDigitAt(word, at)
    ensures LastColon(word, k).Some? && LastColon(word, k).value >= at
  {
    if k > at { LastColonAtLeast(word, k - 1, at); }
  }

  /** Wherever the pattern can match, something is found, and its name is at least as long: the search is
      greedy, as `\S+` is. */
  lemma MatchIsGreedy(s: string, pre: string, name: string, digits: string, post: string)
    requires Parts(s, pre, name, digits, post)
    ensures MatchRest(s).Some? && |MatchRest(s).value.0| >= |name|
  {
    var front := name + (":" + digits);
    assert s == pre + (front + post);
    forall j | 0 <= j < |front| ensures !IsSpace(front[j]) {
      if j < |name| {
        assert front[j] == name[j];
      } else if j > |name| {
        assert front[j] == digits[j - |name| - 1];
      }
    }
    assert (front + post)[0] == front[0];
    StripLeftSkips(pre, front + post);
    WordExtends(front, post);
    var word := front + Word(post);
    assert word[|name|] == ':' && word[|name| + 1] == digits[0];
    LastColonAtLeast(word, |word|, |name|);
    LastColonFound(word, |word|);
  }

  /** `re.search` takes the leftmost place where the marker stands and the pattern matches after it. */
  lemma {:induction false} SearchIsLeftmost(line: string, i: nat)
    requires i <= |line| && "PYGO_ORIGINAL:" <= line[i..] && MatchRest(line[i..][14..]).Some?
    requires forall j :: 0 <= j < i && "PYGO_ORIGINAL:" <= line[j..] ==> MatchRest(line[j..][14..]).None?
    ensures Search(line) == MatchRest(line[i..][14..])
  {
    if i == 0 {
      assert line[0..] == line;
    } else {
      assert line[0..] == line;
      var rest := line[1..];
      assert rest[i - 1..] == line[i..];
      forall j | 0 <= j < i - 1 && MARKER <= rest[j..] ensures MatchRest(rest[j..][14..]).None? {
        assert rest[j..] == line[j + 1..];
      }
      SearchIsLeftmost(rest, i - 1);
    }
  }

  /** And it finds something only where there is such a place. */
  lemma {:induction false} SearchFindsSomewhere(line: string) returns (i: nat)
    requires Search(line).Some?
    ensures i <= |line| && "PYGO_ORIGINAL:" <= line[i..] && MatchRest(line[i..][14..]).Some?
  {
    if MARKER <= line && MatchRest(line[14..]).Some? {
      i := 0;
      assert line[0..] == line;
    } else {
      var k := SearchFindsSomewhere(line[1..]);
      i := k + 1;
      assert line[1..][k..] == line[i..];
    }
  }

  // ---- Injecting and reading back ----

  type LineMap = map<int, int>

  /** The lines of the file with a comment after each tracked line; line numbers start at 1. */
  function Injected(lines: seq<string>, name: string, lineMap: LineMap): seq<string> {
    if lines == [] then []
    else
      var n := |lines|;
      Injected(lines[..n - 1], name, lineMap) + [lines[n - 1]]
      + (if n in lineMap then [Comment(name, lineMap[n])] else [])
  }

  /** What a reader of comments finds in a line. */
  type Reader = string -> Option<(string, nat)>

  function ReadComment(line: string): Option<(string, nat)> {
    if Contains(line, MARKER) then Search(line) else None
  }

  function EntryOf(hit: Option<(string, nat)>, number: nat): seq<Entry> {
    if hit.Some? then [Entry(number, hit.value.0, hit.value.1)] else []
  }

  function Entries(read: Reader, lines: seq<string>): seq<Entry> {
    if lines == [] then [] else Entries(read, lines[..|lines| - 1]) + EntryOf(read(lines[|lines| - 1]), |lines|)
  }

  /** How many of the lines 1..g are tracked. */
  function Tracked(lineMap: LineMap, g: nat): nat {
    if g == 0 then 0 else Tracked(lineMap, g - 1) + (if g in lineMap then 1 else 0)
  }

  /** One entry per tracked line g within the first n, in order, at line g + #{tracked lines <= g}. */
  function Expected(name: string, lineMap: LineMap, n: nat): seq<Entry> {
    if n == 0 then []
    else Expected(name, lineMap, n - 1)
         + (if n in lineMap then [Entry(n + Tracked(lineMap, n), name, lineMap[n])] else [])
  }

  ghost predicate MarkerFree(lines: seq<string>) {
    forall i :: 0 <= i < |lines| ==> !Contains(lines[i], MARKER)
  }

  /** The tracked lines among the first n are mapped to lines that are not negative. */
  ghost predicate LinesNonNegative(lineMap: LineMap, n: nat) {
    forall g :: g in lineMap && 1 <= g <= n ==> lineMap[g] >= 0
  }

  lemma EntriesAppend(read: Reader, lines: seq<string>, line: string)
    ensures Entries(read, lines + [line]) == Entries(read, lines) + EntryOf(read(line), |lines| + 1)
  {
    assert (lines + [line])[..|lines|] == lines;
  }

  lemma {:induction false} InjectedLength(lines: seq<string>, name: string, lineMap: LineMap)
    ensures |Injected(lines, name, lineMap)| == |lines| + Tracked(lineMap, |lines|)
  {
    if lines != [] { InjectedLength(lines[..|lines| - 1], name, lineMap); }
  }

  lemma CommentHasMarker(name: string, sourceLine: int)
    ensures Contains(Comment(name, sourceLine), MARKER)
  {
    CommentParts(name, sourceLine);
    var rest := MARKER + (" " + (name + ":" + Str(sourceLine)));
    assert Contains(rest, MARKER);
    ContainsSkips(' ', rest);
    ContainsSkips('/', [' '] + rest);
    ContainsSkips('/', ['/'] + ([' '] + rest));
    assert "// " + rest == ['/'] + (['/'] + ([' '] + rest));
  }

  lemma ContainsSkips(c: char, s: string)
    requires Contains(s, MARKER)
    ensures Contains([c] + s, MARKER)
  {
    assert ([c] + s)[1..] == s;
  }

  /** A line without an entry, and a comment after it. */
  lemma EntriesAfterLine(read: Reader, before: seq<string>, line: string, comment: string)
    requires read(line) == None
    ensures Entries(read, before + [line]) == Entries(read, before)
    ensures Entries(read, before + [line] + [comment]) == Entries(read, before) + EntryOf(read(comment), |before| + 2)
  {
    EntriesAppend(read, before, line);
    EntriesAppend(read, before + [line], comment);
    assert Entries(read, before) + [] == Entries(read, before);
  }

  // ---- Exactly which files read back ----

  lemma {:induction false} EntriesWithin(read: Reader, lines: seq<string>)
    ensures forall e :: e in Entries(read, lines) ==> e.generatedLine <= |lines|
  {
    if lines != [] { EntriesWithin(read, lines[..|lines| - 1]); }
  }

  /** Every comment is read as it was meant. */
  ghost predicate ReadsComments(read: Reader, name: string, lineMap: LineMap, n: nat) {
    forall g :: g in lineMap && 1 <= g <= n ==> Finds(read(Comment(name, lineMap[g])), name, lineMap[g])
  }

  /** Two lists of entries that end in lines behind all the others. */
  lemma LastEntryDecides(a: seq<Entry>, x: seq<Entry>, hit: Option<(string, nat)>, line: nat, last: Entry)
    requires last.generatedLine == line && forall e :: e in a ==> e.generatedLine < line
    ensures a + EntryOf(hit, line) == x + [last] <==> a == x && Finds(hit, last.sourceFile, last.sourceLine)
  {
    var l, r := a + EntryOf(hit, line), x + [last];
    if l == r {
      assert r[|x|] == last && last in l;
      assert hit.Some?;
      assert l[|a|] == Entry(line, hit.value.0, hit.value.1) && |a| == |x|;
      assert a == l[..|a|] && x == r[..|x|];
    }
  }

  lemma ReadsCommentsStep(read: Reader, name: string, lineMap: LineMap, n: nat)
    requires n > 0
    ensures ReadsComments(read, name, lineMap, n) <==>
      ReadsComments(read, name, lineMap, n - 1)
        && (n in lineMap ==> Finds(read(Comment(name, lineMap[n])), name, lineMap[n]))
  {
  }

  ghost predicate EntriesRight(read: Reader, lines: seq<string>, name: string, lineMap: LineMap) {
    Entries(read, Injected(lines, name, lineMap)) == Expected(name, lineMap, |lines|)
  }

  lemma UntrackedLineRight(read: Reader, lines: seq<string>, name: string, lineMap: LineMap)
    requires lines != [] && read(lines[|lines| - 1]) == None && |lines| !in lineMap
    ensures EntriesRight(read, lines, name, lineMap) <==> EntriesRight(read, lines[..|lines| - 1], name, lineMap)
  {
    var n := |lines|;
    var before := Injected(lines[..n - 1], name, lineMap);
    assert Injected(lines, name, lineMap) == before + [lines[n - 1]];
    EntriesAfterLine(read, before, lines[n - 1], "");
  }

  lemma CommentedLine(read: Reader, before: seq<string>, line: string, comment: string, x: seq<Entry>, last: Entry)
    requires read(line) == None && last.generatedLine == |before| + 2
    ensures Entries(read, before + [line] + [comment]) == x + [last] <==>
            Entries(read, before) == x && Finds(read(comment), last.sourceFile, last.sourceLine)
  {
    EntriesAfterLine(read, before, line, comment);
    EntriesWithin(read, before);
    LastEntryDecides(Entries(read, before), x, read(comment), |before| + 2, last);
  }

  lemma TrackedLineRight(read: Reader, lines: seq<string>, name: string, lineMap: LineMap)
    requires lines != [] && read(lines[|lines| - 1]) == None && |lines| in lineMap
    ensures var n := |lines|;
      EntriesRight(read, lines, name, lineMap) <==>
      EntriesRight(read, lines[..n - 1], name, lineMap) && Finds(read(Comment(name, lineMap[n])), name, lineMap[n])
  {
    var n := |lines|;
    var before := Injected(lines[..n - 1], name, lineMap);
    InjectedLength(lines[..n - 1], name, lineMap);
    var last := Entry(|before| + 2, name, lineMap[n]);
    var comment := Comment(name, lineMap[n]);
    assert Injected(lines, name, lineMap) == before + [lines[n - 1]] + [comment];
    assert Expected(name, lineMap, n) == Expected(name, lineMap, n - 1) + [last];
    CommentedLine(read, before, lines[n - 1], comment, Expected(name, lineMap, n - 1), last);
  }

  lemma {:induction false} EntriesRightIff(read: Reader, lines: seq<string>, name: string, lineMap: LineMap)
    requires forall i :: 0 <= i < |lines| ==> read(lines[i]) == None
    ensures EntriesRight(read, lines, name, lineMap) <==> ReadsComments(read, name, lineMap, |lines|)
  {
    if lines == [] {
      assert Injected(lines, name, lineMap) == [];
    } else {
      var n := |lines|;
      EntriesRightIff(read, lines[..n - 1], name, lineMap);
      ReadsCommentsStep(read, name, lineMap, n);
      if n in lineMap {
        TrackedLineRight(read, lines, name, lineMap);
      } else {
        UntrackedLineRight(read, lines, name, lineMap);
      }
    }
  }

  /** A marker-free file with its comments reads back as exactly the expected entries, exactly when every
      tracked line inside it has a name and a source line that can be read back. */
  lemma InjectedReadsBackIff(lines: seq<string>, name: string, lineMap: LineMap)
    requires MarkerFree(lines)
    ensures Entries(ReadComment, Injected(lines, name, lineMap)) == Expected(name, lineMap, |lines|)
       <==> forall g :: g in lineMap && 1 <= g <= |lines| ==> Readable(name, lineMap[g])
  {
    EntriesRightIff(ReadComment, lines, name, lineMap);
    forall g | g in lineMap && 1 <= g <= |lines|
      ensures Finds(ReadComment(Comment(name, lineMap[g])), name, lineMap[g]) <==> Readable(name, lineMap[g])
    {
      CommentHasMarker(name, lineMap[g]);
      CommentReadsBackIff(name, lineMap[g]);
    }
  }

  /** Reading an injected file back yields exactly the expected entries, and no others. */
  lemma InjectedReadsBack(lines: seq<string>, name: string, lineMap: LineMap)
    requires MarkerFree(lines) && LinesNonNegative(lineMap, |lines|) && name != "" && NoSpace(name)
    ensures Entries(ReadComment, Injected(lines, name, lineMap)) == Expected(name, lineMap, |lines|)
  {
    InjectedReadsBackIff(lines, name, lineMap);
  }

  function WithoutMarkers(lines: seq<string>): seq<string> {
    if lines == [] then []
    else
      var n := |lines| - 1;
      WithoutMarkers(lines[..n]) + (if Contains(lines[n], MARKER) then [] else [lines[n]])
  }

  lemma WithoutMarkersAppend(lines: seq<string>, line: string)
    ensures WithoutMarkers(lines + [line]) == WithoutMarkers(lines) + (if Contains(line, MARKER) then [] else [line])
  {
    assert (lines + [line])[..|lines|] == lines;
  }

  /** Deleting the marker lines of an injected file gives the original file back. */
  lemma {:induction false} DeletingMarkersRestores(lines: seq<string>, name: string, lineMap: LineMap)
    requires MarkerFree(lines)
    ensures WithoutMarkers(Injected(lines, name, lineMap)) == lines
  {
    if lines != [] {
      var n := |lines|;
      var before := Injected(lines[..n - 1], name, lineMap);
      DeletingMarkersRestores(lines[..n - 1], name, lineMap);
      WithoutMarkersAppend(before, lines[n - 1]);
      assert lines[..n - 1] + [lines[n - 1]] == lines;
      if n in lineMap {
        WithoutMarkersAppend(before + [lines[n - 1]], Comment(name, lineMap[n]));
        CommentHasMarker(name, lineMap[n]);
      } else {
        assert before + [lines[n - 1]] + [] == before + [lines[n - 1]];
      }
    }
  }

  // ---- Nearest entry ----

  function Distance(a: int, b: int): nat { if a < b then b - a else a - b }

  /** The entry nearest to the line, the earliest one on ties. */
  ghost predicate IsNearest(entries: seq<Entry>, line: int, i: nat) {
    && i < |entries|
    && (forall j :: 0 <= j < |entries| ==>
      Distance(entries[i].generatedLine, line) <= Distance(entries[j].generatedLine, line))
    && (forall j :: 0 <= j < i ==> Distance(entries[i].generatedLine, line) < Distance(entries[j].generatedLine, line))
  }

  lemma NearestUnique(entries: seq<Entry>, line: int, i: nat, j: nat)
    requires IsNearest(entries, line, i) && IsNearest(entries, line, j)
    ensures i == j
  {
    assert Distance(entries[i].generatedLine, line) <= Distance(entries[j].generatedLine, line);
    assert Distance(entries[j].generatedLine, line) <= Distance(entries[i].generatedLine, line);
  }

  /** `source_file` and `source_line` of the nearest entry, or the given position if there is none. */
  ghost predicate Translates(entries: seq<Entry>, file: string, line: int, result: (string, int)) {
    if entries == [] then result == (file, line)
    else exists i: nat :: IsNearest(entries, line, i) && result == (entries[i].sourceFile, entries[i].sourceLine)
  }

  // ---- The generator as it is written ----

  class SourceMapGenerator {
    var maps: map<string, seq<Entry>>

    constructor ()
      ensures maps == map[]
    {
      maps := map[];
    }

    /** The loop over the lines, with what is looked for in each of them as a parameter. */
    method CollectEntries(read: Reader, lines: seq<string>) returns (entries: seq<Entry>)
      ensures entries == Entries(read, lines)
    {
      entries := [];
      for n := 0 to |lines|
        invariant entries == Entries(read, lines[..n])
      {
        EntriesAppend(read, lines[..n], lines[n]);
        assert lines[..n + 1] == lines[..n] + [lines[n]];
        var found := read(lines[n]);
        if found.Some? {
          entries := entries + [Entry(n + 1, found.value.0, found.value.1)];
        }
      }
      assert lines[..|lines|] == lines;
    }

    method GenerateForFile(generatedFile: string, text: string) returns (entries: seq<Entry>)
      modifies this
      ensures entries == Entries(ReadComment, Split(text, '\n'))
      ensures maps == old(maps)[generatedFile := entries]
    {
      entries := CollectEntries(ReadComment, Split(text, '\n'));
      maps := maps[generatedFile := entries];
    }

    method TranslateError(generatedFile: string, line: int) returns (result: (string, int))
      ensures generatedFile !in maps ==> result == (generatedFile, line)
      ensures generatedFile in maps ==> Translates(maps[generatedFile], generatedFile, line, result)
    {
      if generatedFile !in maps {
        return (generatedFile, line);
      }
      var entries := maps[generatedFile];
      var best: Option<nat> := None;
      for i := 0 to |entries|
        invariant best.None? <==> i == 0
        invariant best.Some? ==> best.value < i && IsNearest(entries[..i], line, best.value)
      {
        if best.None? || Distance(entries[i].generatedLine, line) < Distance(entries[best.value].generatedLine, line) {
          best := Some(i);
        }
        assert forall j :: 0 <= j < i ==> entries[..i + 1][j] == entries[..i][j];
      }
      assert entries[..|entries|] == entries;
      if best.Some? {
        return (entries[best.value].sourceFile, entries[best.value].sourceLine);
      }
      return (generatedFile, line);
    }
  }

  method InjectSourceMapComment(name: string, text: string, lineMap: LineMap) returns (newText: string)
    ensures newText == Join(InjectedLines(Split(text, '\n'), name, lineMap), '\n')
  {
    var lines, newLines := Split(text, '\n'), [];
    for n := 0 to |lines|
      invariant newLines == Injected(lines[..n], name, lineMap)
    {
      assert lines[..n + 1][..n] == lines[..n];
      newLines := newLines + [lines[n]];
      if n + 1 in lineMap {
        newLines := newLines + [Comment(name, lineMap[n + 1])];
      }
    }
    assert lines[..|lines|] == lines;
    InjectedLength(lines, name, lineMap);
    newText := Join(newLines, '\n');
  }

  function InjectedLines(lines: seq<string>, name: string, lineMap: LineMap): (r: seq<string>)
    requires lines != []
    ensures |r| >= 1
  {
    InjectedLength(lines, name, lineMap);
    Injected(lines, name, lineMap)
  }

  // ---- Whole files ----

  lemma StrHasNoSpace(n: int)
    ensures NoSpace(Str(n))
  {
    DecimalRoundTrip(if n >= 0 then n else -n);
  }

  lemma {:induction false} InjectedLinesAreLines(lines: seq<string>, name: string, lineMap: LineMap)
    requires Without(lines, '\n') && NoSpace(name)
    ensures Without(Injected(lines, name, lineMap), '\n')
  {
    if lines != [] {
      var n := |lines|;
      InjectedLinesAreLines(lines[..n - 1], name, lineMap);
      if n in lineMap {
        StrHasNoSpace(lineMap[n]);
        assert '\n' !in Comment(name, lineMap[n]) by {
          assert '\n' !in MARKER && '\n' !in "// " && '\n' !in " " && '\n' !in ":";
        }
      }
    }
  }

  /** End to end, on file contents: injecting into a marker-free file and generating its map yields one
      entry per tracked line, at its moved comment line, with its source name and line; and deleting
      the marker lines gives the original contents back. */
  method InjectAndGenerate(generator: SourceMapGenerator, name: string, text: string, lineMap: LineMap, file: string)
    returns (newText: string, entries: seq<Entry>)
    requires MarkerFree(Split(text, '\n')) && LinesNonNegative(lineMap, |Split(text, '\n')|) && name != ""
      && NoSpace(name)
    modifies generator
    ensures entries == Expected(name, lineMap, |Split(text, '\n')|)
    ensures generator.maps == old(generator.maps)[file := entries]
    ensures WithoutMarkers(Split(newText, '\n')) == Split(text, '\n')
  {
    newText := InjectSourceMapComment(name, text, lineMap);
    var lines := Split(text, '\n');
    SplitHasNoSeparator(text, '\n');
    InjectedLinesAreLines(lines, name, lineMap);
    SplitOfJoin(InjectedLines(lines, name, lineMap), '\n');
    entries := generator.GenerateForFile(file, newText);
    InjectedReadsBack(lines, name, lineMap);
    DeletingMarkersRestores(lines, name, lineMap);
  }

  // ---- Looking lines of an injected file up ----

  /** Where generated line g moves to, and where its comment stands. */
  function Moved(lineMap: LineMap, g: nat): nat
    requires g >= 1
  {
    g + Tracked(lineMap, g - 1)
  }

  function CommentLine(lineMap: LineMap, g: nat): nat { g + Tracked(lineMap, g) }

  /** The entries are those of the tracked lines, one for each, in increasing order. */
  lemma {:induction false} ExpectedAt(name: string, lineMap: LineMap, n: nat, i: nat)
    requires i < |Expected(name, lineMap, n)|
    ensures exists g :: 1 <= g <= n && g in lineMap && i == Tracked(lineMap, g) - 1
                     && Expected(name, lineMap, n)[i] == Entry(CommentLine(lineMap, g), name, lineMap[g])
  {
    ExpectedLength(name, lineMap, n - 1);
    if i < |Expected(name, lineMap, n - 1)| {
      ExpectedAt(name, lineMap, n - 1, i);
    }
  }

  lemma {:induction false} ExpectedLength(name: string, lineMap: LineMap, n: nat)
    ensures |Expected(name, lineMap, n)| == Tracked(lineMap, n)
  {
    if n > 0 { ExpectedLength(name, lineMap, n - 1); }
  }

  lemma {:induction false} TrackedMonotone(lineMap: LineMap, g: nat, h: nat)
    requires g <= h
    ensures Tracked(lineMap, g) <= Tracked(lineMap, h)
    ensures g < h && h in lineMap ==> Tracked(lineMap, g) < Tracked(lineMap, h)
  {
    if g < h { TrackedMonotone(lineMap, g, h - 1); }
  }

  /** The entry of tracked line g. */
  lemma {:induction false} EntryOfTracked(name: string, lineMap: LineMap, n: nat, g: nat)
    requires 1 <= g <= n && g in lineMap
    ensures var i := Tracked(lineMap, g) - 1;
      0 <= i < |Expected(name, lineMap, n)|
        && Expected(name, lineMap, n)[i] == Entry(CommentLine(lineMap, g), name, lineMap[g])
  {
    ExpectedLength(name, lineMap, n - 1);
    if g < n { EntryOfTracked(name, lineMap, n - 1, g); }
  }

  /** A comment line is looked up as the source line it names. */
  lemma CommentLineTranslates(name: string, lineMap: LineMap, n: nat, g: nat)
    requires 1 <= g <= n && g in lineMap
    ensures IsNearest(Expected(name, lineMap, n), CommentLine(lineMap, g), Tracked(lineMap, g) - 1)
    ensures Expected(name, lineMap, n)[Tracked(lineMap, g) - 1].sourceLine == lineMap[g]
  {
    var entries, i := Expected(name, lineMap, n), Tracked(lineMap, g) - 1;
    EntryOfTracked(name, lineMap, n, g);
    forall j | 0 <= j < i ensures entries[j].generatedLine < CommentLine(lineMap, g) {
      ExpectedAt(name, lineMap, n, j);
      var h :| 1 <= h <= n && h in lineMap && j == Tracked(lineMap, h) - 1
          && entries[j] == Entry(CommentLine(lineMap, h), name, lineMap[h]);
      if h >= g { TrackedMonotone(lineMap, g, h); }
      TrackedMonotone(lineMap, h, g);
    }
  }

  /** The place of tracked line g's nearest entry, as seen from where the line moved to: the comment of
      the line before if that one is tracked, which then stands directly above, else its own. */
  lemma MovedLineNearest(name: string, lineMap: LineMap, n: nat, g: nat)
    requires 1 <= g <= n && g in lineMap
    ensures var owner: int := if g > 1 && g - 1 in lineMap then g - 1 else g;
      owner in lineMap && IsNearest(Expected(name, lineMap, n), Moved(lineMap, g), Tracked(lineMap, owner) - 1)
      && Expected(name, lineMap, n)[Tracked(lineMap, owner) - 1] ==
        Entry(CommentLine(lineMap, owner), name, lineMap[owner])
  {
    var entries, line := Expected(name, lineMap, n), Moved(lineMap, g);
    var owner := if g > 1 && g - 1 in lineMap then g - 1 else g;
    var i := Tracked(lineMap, owner) - 1;
    EntryOfTracked(name, lineMap, n, owner);
    assert Distance(CommentLine(lineMap, owner), line) == 1;
    forall j | 0 <= j < |entries|
      ensures Distance(entries[j].generatedLine, line) >= 1
      ensures j < i ==> Distance(entries[j].generatedLine, line) > 1
    {
      ExpectedAt(name, lineMap, n, j);
      var h :| 1 <= h <= n && h in lineMap && j == Tracked(lineMap, h) - 1
          && entries[j] == Entry(CommentLine(lineMap, h), name, lineMap[h]);
      CommentsAround(lineMap, g, owner, h);
    }
  }

  /** No comment stands on a moved line, and none before its owner's is next to it. */
  lemma CommentsAround(lineMap: LineMap, g: nat, owner: nat, h: nat)
    requires g >= 1 && h >= 1 && g in lineMap && h in lineMap
    requires owner == if g > 1 && g - 1 in lineMap then g - 1 else g
    ensures Distance(CommentLine(lineMap, h), Moved(lineMap, g)) >= 1
    ensures Tracked(lineMap, h) < Tracked(lineMap, owner) ==> Distance(CommentLine(lineMap, h), Moved(lineMap, g)) > 1
  {
    if h < g { TrackedMonotone(lineMap, h, g - 1); } else { TrackedMonotone(lineMap, g, h); }
    if h < owner { TrackedMonotone(lineMap, h, owner - 1); } else { TrackedMonotone(lineMap, owner, h); }
  }

  /** The moved position of tracked line g is looked up as its own source line exactly when the line
      before it is not tracked, or is mapped to the same source line. */
  lemma MovedLineTranslatesIff(name: string, lineMap: LineMap, n: nat, g: nat, result: (string, int))
    requires 1 <= g <= n && g in lineMap
    requires Translates(Expected(name, lineMap, n), name, Moved(lineMap, g), result)
    ensures result == (name, lineMap[g]) <==> !(g > 1 && g - 1 in lineMap) || lineMap[g - 1] == lineMap[g]
  {
    var owner := if g > 1 && g - 1 in lineMap then g - 1 else g;
    MovedLineNearest(name, lineMap, n, g);
    TranslatesTo(Expected(name, lineMap, n), name, Moved(lineMap, g), result, Tracked(lineMap, owner) - 1);
  }

  lemma TranslatesTo(entries: seq<Entry>, file: string, line: int, result: (string, int), i: nat)
    requires Translates(entries, file, line, result) && IsNearest(entries, line, i)
    ensures result == (entries[i].sourceFile, entries[i].sourceLine)
  {
    var j: nat :| IsNearest(entries, line, j) && result == (entries[j].sourceFile, entries[j].sourceLine);
    NearestUnique(entries, line, i, j);
  }
}
