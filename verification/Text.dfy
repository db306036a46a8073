/** Text as the code sees it: scanning lines, joining them, and decimal numbers. */
module Text {
  import opened Common

  /** The first position of a character, or the length when it does not occur. */
  function IndexOf(s: string, c: char): (i: nat)
    ensures i <= |s|
    ensures i < |s| ==> s[i] == c
    ensures forall j :: 0 <= j < i ==> s[j] != c
  {
    if s == "" || s[0] == c then 0 else 1 + IndexOf(s[1..], c)
  }

  /** `strings.HasPrefix`. */
  predicate HasPrefix(s: string, prefix: string) { prefix <= s }

  /** `strings.Join(lines, "\n") + "\n"`. */
  function Lines(lines: seq<string>): string {
    if lines == [] then "\n"
    else if |lines| == 1 then lines[0] + "\n"
    else lines[0] + "\n" + Lines(lines[1..])
  }

  /** Every line is ended by a line break, the last one too. */
  lemma {:induction false} LinesInFull(lines: seq<string>, last: string)
    ensures Lines(lines + [last]) == (if lines == [] then "" else Lines(lines)) + last + "\n"
    decreases |lines|
  {
    if lines == [] {
      assert lines + [last] == [last];
    } else {
      assert (lines + [last])[1..] == lines[1..] + [last];
      LinesInFull(lines[1..], last);
      if |lines| == 1 {
        assert "" + last + "\n" == last + "\n";
      } else {
        assert lines[0] + "\n" + (Lines(lines[1..]) + last + "\n") == Lines(lines) + last + "\n";
      }
    }
  }

  /** The longest line a `bufio.Scanner` delivers. */
  const MAX_LINE: nat := 65535

  function DropCarriageReturn(s: string): string {
    if s != "" && s[|s| - 1] == '\r' then s[..|s| - 1] else s
  }

  /** The lines a `bufio.Scanner` delivers. It stops for good at a line that is too long. */
  function ScanLines(s: string): seq<string>
    decreases |s|
  {
    if s == "" then []
    else
      var i := IndexOf(s, '\n');
      if i > MAX_LINE then []
      else if i == |s| then [DropCarriageReturn(s)]
      else [DropCarriageReturn(s[..i])] + ScanLines(s[i + 1..])
  }

  /** A line that survives being written out and scanned again. */
  predicate Clean(line: string) {
    '\n' !in line && |line| <= MAX_LINE && (line != "" ==> line[|line| - 1] != '\r')
  }

  /** A character that a word lacks is found right after the word. */
  lemma {:induction false} IndexAfter(word: string, rest: string, c: char)
    requires c !in word && (rest == "" || rest[0] == c)
    ensures IndexOf(word + rest, c) == |word|
  {
    if word != "" {
      assert (word + rest)[1..] == word[1..] + rest;
      IndexAfter(word[1..], rest, c);
    } else {
      assert word + rest == rest;
    }
  }

  lemma IndexAfterLine(line: string, rest: string)
    requires '\n' !in line
    ensures IndexOf(line + "\n" + rest, '\n') == |line|
  {
    assert line + "\n" + rest == line + ("\n" + rest);
    IndexAfter(line, "\n" + rest, '\n');
  }

  /** What follows the first line. */
  function AfterFirst(lines: seq<string>): string
    requires lines != []
  {
    if |lines| == 1 then "" else Lines(lines[1..])
  }

  lemma ScanFirst(line: string, rest: string)
    requires '\n' !in line
    ensures ScanLines(line + "\n" + rest)
         == if |line| > MAX_LINE then [] else [DropCarriageReturn(line)] + ScanLines(rest)
  {
    var s := line + "\n" + rest;
    IndexAfterLine(line, rest);
    assert s[..|line|] == line && s[|line| + 1..] == rest;
  }

  /** Scanning what was joined gives the lines back. */
  lemma {:induction false} ScanOfLines(lines: seq<string>)
    requires lines != [] && forall i :: 0 <= i < |lines| ==> Clean(lines[i])
    ensures ScanLines(Lines(lines)) == lines
    decreases |lines|
  {
    hide ScanLines;
    ScanFirst(lines[0], AfterFirst(lines));
    assert Lines(lines) == lines[0] + "\n" + AfterFirst(lines);
    assert lines == [lines[0]] + lines[1..];
    if |lines| > 1 { ScanOfLines(lines[1..]); } else { ScanOfNothing(); }
  }

  lemma ScanOfNothing()
    ensures ScanLines("") == []
  {
  }

  /** A line the scanner cannot take ends the scan: it and all that follows are lost. */
  lemma {:induction false} ScanStopsAtLongLine(before: seq<string>, long: string, after: seq<string>)
    requires forall i :: 0 <= i < |before| ==> Clean(before[i])
    requires '\n' !in long && |long| > 65_535
    ensures ScanLines(Lines(before + [long] + after)) == before
    decreases |before|
  {
    hide ScanLines;
    var lines := before + [long] + after;
    ScanFirst(lines[0], AfterFirst(lines));
    assert Lines(lines) == lines[0] + "\n" + AfterFirst(lines);
    if before != [] {
      assert lines[1..] == before[1..] + [long] + after;
      ScanStopsAtLongLine(before[1..], long, after);
      assert before == [before[0]] + before[1..];
    }
  }

  /** Scanning joined lines gives them back if and only if every line survives: none is longer than 65535
      characters and none ends in a carriage return. */
  lemma ScanGivesLinesBackIff(lines: seq<string>)
    requires lines != [] && forall i :: 0 <= i < |lines| ==> '\n' !in lines[i]
    ensures ScanLines(Lines(lines)) == lines <==>
      forall i :: 0 <= i < |lines| ==> |lines[i]| <= 65_535 && (lines[i] != "" ==> lines[i][|lines[i]| - 1] != '\r')
  {
    hide ScanLines;
    CleanLinesSurvive(lines);
    forall i | 0 <= i < |lines|
      ensures Clean(lines[i]) <==> |lines[i]| <= 65_535 && (lines[i] != "" ==> lines[i][|lines[i]| - 1] != '\r')
    {
    }
  }

  lemma {:induction false} CleanLinesSurvive(lines: seq<string>)
    requires lines != [] && forall i :: 0 <= i < |lines| ==> '\n' !in lines[i]
    ensures ScanLines(Lines(lines)) == lines <==> forall i :: 0 <= i < |lines| ==> Clean(lines[i])
    decreases |lines|
  {
    hide ScanLines;
    var line, scanned := lines[0], ScanLines(AfterFirst(lines));
    ScanFirst(line, AfterFirst(lines));
    assert Lines(lines) == line + "\n" + AfterFirst(lines);
    assert lines == [line] + lines[1..];
    if |lines| > 1 { CleanLinesSurvive(lines[1..]); } else { ScanOfNothing(); }
    assert ([DropCarriageReturn(line)] + scanned)[1..] == scanned;
    assert DropCarriageReturn(line) == line <==> line == "" || line[|line| - 1] != '\r';
    assert (forall i :: 0 <= i < |lines| ==> Clean(lines[i])) <==>
      (Clean(line) && forall i :: 0 <= i < |lines[1..]| ==> Clean(lines[1..][i])) by { CleanFirst(lines); }
  }

  lemma CleanFirst(lines: seq<string>)
    requires lines != []
    ensures (forall i :: 0 <= i < |lines| ==> Clean(lines[i])) <==>
      (Clean(lines[0]) && forall i :: 0 <= i < |lines[1..]| ==> Clean(lines[1..][i]))
  {
    hide Clean;
    assert forall i :: 1 <= i < |lines| ==> lines[i] == lines[1..][i - 1];
  }

  /** The lines of a text all of whose lines are terminated. */
  function Split(s: string): Option<seq<string>>
    decreases |s|
  {
    if s == "" then Some([])
    else
      var i := IndexOf(s, '\n');
      if i == |s| then None
      else
        match Split(s[i + 1..])
        case None => None
        case Some(rest) => Some([s[..i]] + rest)
  }

  lemma {:induction false} SplitOfLines(lines: seq<string>)
    requires lines != [] && forall i :: 0 <= i < |lines| ==> '\n' !in lines[i]
    ensures Split(Lines(lines)) == Some(lines)
    decreases |lines|
  {
    var line := lines[0];
    var rest := if |lines| == 1 then "" else Lines(lines[1..]);
    IndexAfterLine(line, rest);
    var s := line + "\n" + rest;
    assert Lines(lines) == s;
    assert s[..|line|] == line && s[|line| + 1..] == rest;
    if |lines| > 1 { SplitOfLines(lines[1..]); }
    assert lines == [line] + lines[1..];
  }

  /** The size of all lines together. */
  function Bytes(lines: seq<string>): nat {
    if lines == [] then 0 else Bytes(lines[..|lines| - 1]) + |lines[|lines| - 1]|
  }

  // ---------------------------------------------------------------- decimal numbers

  predicate IsDigit(c: char) { '0' <= c <= '9' }

  function DigitValue(c: char): int { c as int - '0' as int }

  function Digit(d: nat): (c: char)
    requires d < 10
    ensures IsDigit(c) && DigitValue(c) == d
  {
    ('0' as int + d) as char
  }

  /** `%d` of a number that is not negative. */
  function Decimal(n: nat): (s: string)
    ensures s != "" && forall i :: 0 <= i < |s| ==> IsDigit(s[i])
  {
    if n < 10 then [Digit(n)] else Decimal(n / 10) + [Digit(n % 10)]
  }
}
