/**
 The text questions that the Source Gate asks, as its code answers them, and what each answer means in
 terms of positions in the text.
 */
module SourceText {

  predicate Contains(text: string, part: string) {
    part <= text || (text != [] && Contains(text[1..], part))
  }

  /** What follows the last slash. */
  function FileName(path: string): string {
    if path == [] then []
    else if path[|path| - 1] == '/' then []
    else FileName(path[..|path| - 1]) + [path[|path| - 1]]
  }

  /** Lines without their terminators; a final terminator starts no further line. */
  function Lines(text: string, current: string := []): seq<string>
    decreases |text|
  {
    if text == [] then if current == [] then [] else [current]
    else if text[0] == '\n' then [WithoutReturn(current)] + Lines(text[1..])
    else Lines(text[1..], current + [text[0]])
  }

  function WithoutReturn(line: string): string {
    if line != [] && line[|line| - 1] == '\r' then line[..|line| - 1] else line
  }

  function TrimStart(line: string): string {
    if line != [] && line[0] in {' ', '\t', '\r', '\n'} then TrimStart(line[1..]) else line
  }

  /** An `#include` line that names the target. */
  predicate Includes(text: string, target: string) {
    exists i :: 0 <= i < |Lines(text)|
      && "#include" <= TrimStart(Lines(text)[i]) && Contains(TrimStart(Lines(text)[i]), target)
  }

  function Lower(text: string): string {
    if text == [] then []
    else [if 'A' <= text[0] <= 'Z' then (text[0] as int + 32) as char else text[0]] + Lower(text[1..])
  }

  // ----- Text, by position

  /** `part` stands at this position. */
  predicate At(text: string, i: int, part: string) {
    0 <= i <= i + |part| <= |text| && text[i..i + |part|] == part
  }

  ghost predicate Occurs(text: string, part: string) {
    exists i :: At(text, i, part)
  }

  lemma ShiftedAt(text: string, i: int, part: string)
    requires text != []
    ensures At(text[1..], i, part) <==> 0 <= i && At(text, i + 1, part)
  {
    if 0 <= i && i + |part| < |text| {
      assert text[1..][i..i + |part|] == text[i + 1..i + 1 + |part|];
    }
  }

  lemma {:induction false} ContainsExactly(text: string, part: string)
    ensures Contains(text, part) <==> Occurs(text, part)
    decreases |text|
  {
    hide At;
    StandsFirst(text, part);
    if !(part <= text) && text != [] {
      ContainsExactly(text[1..], part);
      if Occurs(text[1..], part) {
        var i :| At(text[1..], i, part);
        ShiftedAt(text, i, part);
      }
      if Occurs(text, part) {
        var i :| At(text, i, part);
        ShiftedAt(text, i - 1, part);
        AtIsInside(text, i, part);
      }
    }
  }

  lemma StandsFirst(text: string, part: string)
    ensures part <= text <==> At(text, 0, part)
    ensures text == [] && Occurs(text, part) ==> part <= text
  {
  }

  lemma AtIsInside(text: string, i: int, part: string)
    requires At(text, i, part)
    ensures 0 <= i
  {
  }

  predicate IsBlank(c: char) {
    c == ' ' || c == '\t' || c == '\r' || c == '\n'
  }

  /** Only blanks before position `k`, and none at it. */
  predicate StartsAt(line: string, k: int) {
    0 <= k <= |line| && (forall i :: 0 <= i < k ==> IsBlank(line[i])) && (k < |line| ==> !IsBlank(line[k]))
  }

  lemma {:induction false} TrimmedExactly(line: string) returns (k: nat)
    ensures StartsAt(line, k) && TrimStart(line) == line[k..]
    decreases |line|
  {
    if line != [] && IsBlank(line[0]) {
      k := TrimmedExactly(line[1..]);
      k := k + 1;
      assert forall i :: 0 < i < |line| ==> line[i] == line[1..][i - 1];
    } else {
      k := 0;
    }
  }

  /** A maximal stretch of text without a line feed. The empty stretch at the end is no line. */
  ghost predicate IsLine(text: string, i: int, j: int) {
    && 0 <= i <= j <= |text| && i < |text|
    && (i == 0 || text[i - 1] == '\n') && (j == |text| || text[j] == '\n')
    && forall k :: i <= k < j ==> text[k] != '\n'
  }

  /** Its text: one carriage return before the line feed belongs to the terminator. */
  function LineText(text: string, i: int, j: int): string
    requires 0 <= i <= j <= |text|
  {
    if i < j < |text| && text[j - 1] == '\r' then text[i..j - 1] else text[i..j]
  }

  ghost predicate HasLine(text: string, line: string) {
    exists i, j :: IsLine(text, i, j) && line == LineText(text, i, j)
  }

  /** A line after a line feed is a line of what follows it. */
  lemma ShiftedLine(text: string, m: nat, i: int, j: int)
    requires 0 < m <= |text| && text[m - 1] == '\n' && 0 <= i
    ensures IsLine(text[m..], i, j) <==> IsLine(text, i + m, j + m)
    ensures IsLine(text[m..], i, j) ==> LineText(text[m..], i, j) == LineText(text, i + m, j + m)
  {
    var rest := text[m..];
    assert forall k :: 0 <= k < |rest| ==> rest[k] == text[k + m];
    assert forall k :: m <= k < |text| ==> text[k] == rest[k - m];
    if IsLine(rest, i, j) {
      assert rest[i..j] == text[i + m..j + m];
      assert i < j ==> rest[i..j - 1] == text[i + m..j + m - 1];
    }
  }

  /** The lines are the first one and those after its line feed. */
  lemma FirstLine(text: string, n: nat, line: string)
    requires n < |text| && text[n] == '\n' && forall k :: 0 <= k < n ==> text[k] != '\n'
    ensures HasLine(text, line) <==> line == WithoutReturn(text[..n]) || HasLine(text[n + 1..], line)
  {
    hide LineText;
    FirstIsLine(text, n);
    if HasLine(text[n + 1..], line) {
      var i, j :| IsLine(text[n + 1..], i, j) && line == LineText(text[n + 1..], i, j);
      ShiftedLine(text, n + 1, i, j);
    }
    if HasLine(text, line) {
      var i, j :| IsLine(text, i, j) && line == LineText(text, i, j);
      if i > n {
        ShiftedLine(text, n + 1, i - n - 1, j - n - 1);
      } else {
        assert i == 0 && j == n;
      }
    }
  }

  lemma FirstIsLine(text: string, n: nat)
    requires n < |text| && text[n] == '\n' && forall k :: 0 <= k < n ==> text[k] != '\n'
    ensures IsLine(text, 0, n) && LineText(text, 0, n) == WithoutReturn(text[..n])
  {
  }

  lemma {:induction false} LinesExactly(text: string, current: string, line: string)
    requires forall k :: 0 <= k < |current| ==> current[k] != '\n'
    ensures line in Lines(text, current) <==> HasLine(current + text, line)
    decreases |text|
  {
    var all := current + text;
    if text == [] {
      assert all == current;
      LastLine(current, line);
    } else if text[0] == '\n' {
      LinesExactly(text[1..], [], line);
      assert [] + text[1..] == text[1..];
      FirstLine(all, |current|, line);
      assert all[..|current|] == current && all[|current| + 1..] == text[1..];
    } else {
      LinesExactly(text[1..], current + [text[0]], line);
      assert current + [text[0]] + text[1..] == all;
    }
  }

  lemma LastLine(text: string, line: string)
    requires forall k :: 0 <= k < |text| ==> text[k] != '\n'
    ensures HasLine(text, line) <==> text != [] && line == text
  {
    if text != [] {
      assert IsLine(text, 0, |text|) && LineText(text, 0, |text|) == text;
    }
    if HasLine(text, line) {
      var i, j :| IsLine(text, i, j) && line == LineText(text, i, j);
      assert i == 0 && j == |text|;
    }
  }

  /** Some line starts, after blanks, with `#include` and names the target from there on. */
  ghost predicate IncludeLine(text: string, target: string) {
    exists line :: HasLine(text, line) && IsInclude(line, target)
  }

  ghost predicate IsInclude(line: string, target: string) {
    exists k :: StartsAt(line, k) && At(line, k, "#include") && Occurs(line[k..], target)
  }

  /** One line, as the reader tests it. */
  lemma LineIncludesExactly(line: string, target: string)
    ensures "#include" <= TrimStart(line) && Contains(TrimStart(line), target) <==> IsInclude(line, target)
  {
    hide Contains, TrimStart, Occurs;
    var n := TrimmedExactly(line);
    ContainsExactly(line[n..], target);
    forall k | StartsAt(line, k) ensures k == n {
    }
    assert "#include" <= line[n..] <==> At(line, n, "#include");
  }

  lemma IncludesExactly(text: string, target: string)
    ensures Includes(text, target) <==> IncludeLine(text, target)
  {
    hide Lines, TrimStart, Contains, HasLine, IsInclude;
    assert [] + text == text;
    if Includes(text, target) {
      var i :| 0 <= i < |Lines(text)| && "#include" <= TrimStart(Lines(text)[i])
               && Contains(TrimStart(Lines(text)[i]), target);
      LinesExactly(text, [], Lines(text)[i]);
      LineIncludesExactly(Lines(text)[i], target);
    }
    if IncludeLine(text, target) {
      var line :| HasLine(text, line) && IsInclude(line, target);
      LinesExactly(text, [], line);
      LineIncludesExactly(line, target);
      var i :| 0 <= i < |Lines(text)| && Lines(text)[i] == line;
    }
  }

  predicate IsLastPart(path: string, name: string) {
    && |name| <= |path| && name == path[|path| - |name|..] && '/' !in name
    && (|name| < |path| ==> path[|path| - |name| - 1] == '/')
  }

  lemma OneMoreLetter(path: string, name: string)
    requires path != [] && name != [] && path[|path| - 1] != '/'
    ensures IsLastPart(path, name) <==>
              IsLastPart(path[..|path| - 1], name[..|name| - 1]) && name[|name| - 1] == path[|path| - 1]
  {
    var p, n := path[..|path| - 1], name[..|name| - 1];
    assert name == n + [name[|name| - 1]] && path == p + [path[|path| - 1]];
    if |name| <= |path| {
      assert path[|path| - |name|..] == p[|p| - |n|..] + [path[|path| - 1]];
    }
  }

  /** The file name is the part after the last slash, and the only such part. */
  lemma {:induction false} FileNameExactly(path: string, name: string)
    ensures name == FileName(path) <==> IsLastPart(path, name)
    decreases |path|
  {
    if path != [] && path[|path| - 1] != '/' && name != [] {
      FileNameExactly(path[..|path| - 1], name[..|name| - 1]);
      OneMoreLetter(path, name);
    }
  }

  /** Letters are folded one by one, and nothing else is. */
  lemma {:induction false} LowerExactly(text: string)
    ensures |Lower(text)| == |text|
    ensures forall i :: 0 <= i < |text| ==>
              Lower(text)[i] == if 'A' <= text[i] <= 'Z' then (text[i] as int - 'A' as int + 'a' as int) as char else text[i]
    decreases |text|
  {
    if text != [] {
      LowerExactly(text[1..]);
    }
  }
}
