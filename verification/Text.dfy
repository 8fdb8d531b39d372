/** Python's `str.splitlines`, on which both the drift check and the
    provisioning line filter rest. */
module Text {

  /** The characters `str.splitlines` treats as line boundaries. */
  predicate IsBreak(c: char) {
    c in {'\n', '\r', '\U{0B}', '\U{0C}', '\U{1C}', '\U{1D}', '\U{1E}', '\U{85}', '\U{2028}', '\U{2029}'}
  }

  /** Length of the first line of `s`, its terminator included; "\r\n" is one terminator. */
  function LineLength(s: string): (n: nat)
    requires s != ""
    ensures 0 < n <= |s|
  {
    if s[0] == '\r' && |s| > 1 && s[1] == '\n' then 2
    else if IsBreak(s[0]) || |s| == 1 then 1
    else 1 + LineLength(s[1..])
  }

  /** `s.splitlines(keepends=True)` */
  function SplitKeep(s: string): seq<string> {
    if s == "" then []
    else [s[..LineLength(s)]] + SplitKeep(s[LineLength(s)..])
  }

  /** One line without its terminator. */
  function Chop(line: string): string {
    var n := |line|;
    if n >= 2 && line[n - 2..] == "\r\n" then line[..n - 2]
    else if n >= 1 && IsBreak(line[n - 1]) then line[..n - 1]
    else line
  }

  function ChopAll(lines: seq<string>): (r: seq<string>)
    ensures |r| == |lines|
  {
    if lines == [] then [] else [Chop(lines[0])] + ChopAll(lines[1..])
  }

  /** `s.splitlines()` */
  function SplitLines(s: string): seq<string> {
    ChopAll(SplitKeep(s))
  }

  /** `"".join(lines)` */
  function Concat(lines: seq<string>): string {
    if lines == [] then "" else lines[0] + Concat(lines[1..])
  }

  /** A list of lines cut only where `splitlines` cuts: every line is one line,
      every line but the last is terminated, and no "\r\n" is torn apart. */
  ghost predicate LinesOfText(lines: seq<string>) {
    && (forall i :: 0 <= i < |lines| ==> OneLine(lines[i]))
    && (forall i :: 0 <= i < |lines| - 1 ==> Terminated(lines[i], lines[i + 1]))
  }

  /** No boundary but at the end, where "\r\n" is one boundary. */
  ghost predicate OneLine(line: string) {
    line != "" && forall i :: 0 <= i < |line| - 1 && IsBreak(line[i]) ==> i == |line| - 2 && line[i..] == "\r\n"
  }

  ghost predicate Terminated(line: string, next: string)
    requires line != "" && next != ""
  {
    IsBreak(line[|line| - 1]) && !(line[|line| - 1] == '\r' && next[0] == '\n')
  }

  lemma {:induction false} OneLineTail(line: string)
    requires |line| > 1 && !IsBreak(line[0])
    ensures OneLine(line) <==> OneLine(line[1..])
  {
    var rest := line[1..];
    assert forall i :: 0 <= i < |rest| ==> rest[i] == line[i + 1] && rest[i..] == line[i + 1..];
    if OneLine(line) {
      forall i | 0 <= i < |rest| - 1 && IsBreak(rest[i])
        ensures i == |rest| - 2 && rest[i..] == "\r\n"
      {
        assert IsBreak(line[i + 1]);
      }
    }
    if OneLine(rest) {
      forall i | 0 <= i < |line| - 1 && IsBreak(line[i])
        ensures i == |line| - 2 && line[i..] == "\r\n"
      {
        assert IsBreak(rest[i - 1]);
      }
    }
  }

  lemma {:induction false} OneLineIsFirst(line: string)
    requires line != ""
    ensures OneLine(line) <==> LineLength(line) == |line|
  {
    if line[0] == '\r' && |line| > 1 && line[1] == '\n' {
      assert line[0..] == line;
    } else if |line| > 1 {
      if IsBreak(line[0]) {
        assert line[0..] == line;
      } else {
        OneLineTail(line);
        hide OneLine;
        OneLineIsFirst(line[1..]);
      }
    }
  }

  lemma {:induction false} FirstLine(s: string)
    requires s != ""
    ensures var n := LineLength(s);
            && LineLength(s[..n]) == n
            && (n < |s| ==> Terminated(s[..n], s[n..]))
  {
    var n := LineLength(s);
    if s[0] == '\r' && |s| > 1 && s[1] == '\n' {
    } else if IsBreak(s[0]) || |s| == 1 {
    } else {
      FirstLine(s[1..]);
      assert s[..n][1..] == s[1..][..n - 1];
      assert s[n..] == s[1..][n - 1..];
    }
  }

  lemma {:induction false} FirstLineOfJoin(line: string, rest: string)
    requires line != "" && LineLength(line) == |line|
    requires rest != "" ==> Terminated(line, rest)
    ensures LineLength(line + rest) == |line|
  {
    var s := line + rest;
    if rest == "" {
      assert s == line;
    } else if line[0] == '\r' && |line| > 1 && line[1] == '\n' {
      assert s[0] == '\r' && s[1] == '\n';
    } else if IsBreak(line[0]) || |line| == 1 {
      assert |line| == 1;
    } else {
      assert line[1..][|line[1..]| - 1] == line[|line| - 1];
      FirstLineOfJoin(line[1..], rest);
      assert s[1..] == line[1..] + rest;
    }
  }

  /** Splitting loses nothing: joining the kept lines gives back the text. */
  lemma {:induction false} SplitKeepJoins(s: string)
    ensures Concat(SplitKeep(s)) == s
  {
    if s != "" {
      SplitKeepJoins(s[LineLength(s)..]);
      assert s == s[..LineLength(s)] + s[LineLength(s)..];
    }
  }

  /** Splitting cuts exactly at line boundaries. */
  lemma {:induction false} SplitKeepCutsAtBoundaries(s: string)
    ensures LinesOfText(SplitKeep(s))
  {
    if s != "" {
      var n := LineLength(s);
      var rest := SplitKeep(s[n..]);
      SplitKeepCutsAtBoundaries(s[n..]);
      FirstLine(s);
      OneLineIsFirst(s[..n]);
      hide OneLine, LineLength;
      var lines := SplitKeep(s);
      if s[n..] != "" {
        assert rest[0][0] == s[n..][0];
      }
      forall i | 0 <= i < |lines| - 1
        ensures Terminated(lines[i], lines[i + 1])
      {
        if i > 0 { assert lines[i] == rest[i - 1] && lines[i + 1] == rest[i]; }
      }
    }
  }

  /** The converse: any list of lines cut at line boundaries is the split of its join. */
  lemma {:induction false} SplitKeepOfJoin(lines: seq<string>)
    requires LinesOfText(lines)
    ensures SplitKeep(Concat(lines)) == lines
  {
    if lines != [] {
      var rest := lines[1..];
      assert forall i :: 0 <= i < |rest| ==> rest[i] == lines[i + 1];
      SplitKeepOfJoin(rest);
      if rest != [] {
        assert Concat(rest)[0] == rest[0][0];
        assert Terminated(lines[0], rest[0]);
      }
      OneLineIsFirst(lines[0]);
      FirstLineOfJoin(lines[0], Concat(rest));
      assert Concat(lines)[|lines[0]|..] == Concat(rest);
    }
  }

  /** Two texts have the same lines only if they are the same text. */
  lemma SplitKeepInjective(s: string, t: string)
    ensures SplitKeep(s) == SplitKeep(t) <==> s == t
  {
    SplitKeepJoins(s);
    SplitKeepJoins(t);
  }

  // ----------------------------------------------------------------- words

  /** What `str.strip` strips. */
  predicate IsSpace(c: char) {
    || '\t' <= c <= '\r' || '\U{1C}' <= c <= ' ' || c == '\U{85}' || c == '\U{A0}' || c == '\U{1680}'
    || '\U{2000}' <= c <= '\U{200A}' || c in {'\U{2028}', '\U{2029}', '\U{202F}', '\U{205F}', '\U{3000}'}
  }

  /** A non-empty run of characters that `str.split()` keeps together. */
  predicate IsWord(s: string) {
    s != "" && forall i :: 0 <= i < |s| ==> !IsSpace(s[i])
  }

  function WordLength(s: string): (n: nat)
    ensures n <= |s|
    ensures s != "" && !IsSpace(s[0]) ==> n > 0
  {
    if s == "" || IsSpace(s[0]) then 0 else 1 + WordLength(s[1..])
  }

  /** `s.split()` */
  function Words(s: string): seq<string>
    decreases |s|
  {
    if s == "" then []
    else if IsSpace(s[0]) then Words(s[1..])
    else [s[..WordLength(s)]] + Words(s[WordLength(s)..])
  }

  // --------------------------------------------------------------- numbers

  function Digit(n: nat): char
    requires n < 10
  {
    (0x30 + n) as char
  }

  /** `str(n)` */
  function Decimal(n: nat): (s: string)
    ensures s != "" && forall i :: 0 <= i < |s| ==> '0' <= s[i] <= '9'
  {
    if n < 10 then [Digit(n)] else Decimal(n / 10) + [Digit(n % 10)]
  }

  function Value(s: string): nat {
    if s == "" || !('0' <= s[|s| - 1] <= '9') then 0 else Value(s[..|s| - 1]) * 10 + (s[|s| - 1] as int - 0x30)
  }

  lemma {:induction false} ValueOfDecimal(n: nat)
    ensures Value(Decimal(n)) == n
    ensures n > 0 ==> Decimal(n)[0] != '0'
    ensures n < 1000 ==> |Decimal(n)| <= 3
  {
    if n >= 10 {
      ValueOfDecimal(n / 10);
      assert Decimal(n)[..|Decimal(n)| - 1] == Decimal(n / 10);
      if n < 1000 { assert n / 10 < 100 && n / 10 / 10 < 10; }
    }
  }

  // ---------------------------------------------- lines and words put together

  predicate Unbroken(line: string) {
    forall i :: 0 <= i < |line| ==> !IsBreak(line[i])
  }

  /** Every line with its newline. */
  function Terminate(lines: seq<string>): (r: seq<string>)
    ensures |r| == |lines|
    ensures forall i :: 0 <= i < |r| ==> r[i] == lines[i] + "\n"
  {
    if lines == [] then [] else [lines[0] + "\n"] + Terminate(lines[1..])
  }

  lemma {:induction false} UnbrokenLine(line: string)
    requires Unbroken(line)
    ensures LineLength(line + "\n") == |line| + 1
  {
    if line != "" {
      UnbrokenLine(line[1..]);
      assert (line + "\n")[1..] == line[1..] + "\n";
    }
  }

  lemma ChopNewline(line: string)
    requires Unbroken(line)
    ensures Chop(line + "\n") == line
  {
    var s := line + "\n";
    var n := |s|;
    if n >= 2 {
      assert s[n - 2..][0] == line[|line| - 1] != '\r';
      assert s[n - 2..] != "\r\n";
    }
  }

  lemma {:induction false} ChopTerminated(lines: seq<string>)
    requires forall i :: 0 <= i < |lines| ==> Unbroken(lines[i])
    ensures ChopAll(Terminate(lines)) == lines
  {
    if lines != [] {
      ChopNewline(lines[0]);
      ChopTerminated(lines[1..]);
    }
  }

  predicate NewlineEnded(line: string) {
    line != "" && LineLength(line) == |line| && line[|line| - 1] == '\n'
  }

  lemma NewlineEndedLines(lines: seq<string>)
    requires forall i :: 0 <= i < |lines| ==> NewlineEnded(lines[i])
    ensures LinesOfText(lines)
  {
    hide LineLength, OneLine;
    forall i | 0 <= i < |lines|
      ensures OneLine(lines[i]) && lines[i] != ""
    {
      OneLineIsFirst(lines[i]);
    }
    assert IsBreak('\n');
  }

  lemma {:induction false} TerminatedLines(lines: seq<string>)
    requires forall i :: 0 <= i < |lines| ==> Unbroken(lines[i])
    ensures forall i :: 0 <= i < |lines| ==> NewlineEnded(Terminate(lines)[i])
  {
    hide Unbroken, LineLength;
    if lines != [] {
      UnbrokenLine(lines[0]);
      var first := lines[0] + "\n";
      assert NewlineEnded(first);
      TerminatedLines(lines[1..]);
      forall i | 0 <= i < |lines|
        ensures NewlineEnded(Terminate(lines)[i])
      {
        if i > 0 { assert Terminate(lines)[i] == Terminate(lines[1..])[i - 1]; }
        else { assert Terminate(lines)[0] == first; }
      }
    }
  }

  /** Lines without a break in them, each ended by a newline, are what `splitlines` finds. */
  lemma SplitLinesOfJoin(lines: seq<string>)
    requires forall i :: 0 <= i < |lines| ==> Unbroken(lines[i])
    ensures SplitLines(Concat(Terminate(lines))) == lines
  {
    var r := Terminate(lines);
    hide Terminate, LinesOfText, Unbroken, NewlineEnded;
    TerminatedLines(lines);
    NewlineEndedLines(r);
    ChopTerminated(lines);
    SplitKeepOfJoin(r);
  }

  /** Words after a space each. */
  function Spaced(ws: seq<string>): string {
    if ws == [] then "" else " " + ws[0] + Spaced(ws[1..])
  }

  predicate AllWords(ws: seq<string>) {
    forall i :: 0 <= i < |ws| ==> IsWord(ws[i])
  }

  lemma {:induction false} WordFirst(w: string, rest: string)
    requires forall i :: 0 <= i < |w| ==> !IsSpace(w[i])
    requires rest == "" || IsSpace(rest[0])
    ensures WordLength(w + rest) == |w|
  {
    if w == "" {
      assert w + rest == rest;
    } else {
      WordFirst(w[1..], rest);
      assert (w + rest)[1..] == w[1..] + rest;
    }
  }

  lemma WordThenRest(w: string, rest: string)
    requires IsWord(w) && (rest == "" || IsSpace(rest[0]))
    ensures Words(w + rest) == [w] + Words(rest)
  {
    WordFirst(w, rest);
    assert (w + rest)[..|w|] == w && (w + rest)[|w|..] == rest;
  }

  lemma SpaceFirst(s: string)
    ensures Words(" " + s) == Words(s)
  {
    assert (" " + s)[1..] == s;
  }

  lemma UnbrokenParts(w: string, rest: string)
    requires IsWord(w) && Unbroken(rest)
    ensures Unbroken(" " + w + rest)
  {
  }

  lemma {:induction false} WordsOfSpaced(ws: seq<string>)
    requires AllWords(ws)
    ensures Words(Spaced(ws)) == ws
    ensures Unbroken(Spaced(ws))
  {
    if ws != [] {
      hide Words, Unbroken, IsSpace, IsWord;
      var tail := Spaced(ws[1..]);
      assert IsWord(ws[0]);
      assert AllWords(ws[1..]);
      WordsOfSpaced(ws[1..]);
      SpacedStarts(ws[1..]);
      WordThenRest(ws[0], tail);
      SpaceFirst(ws[0] + tail);
      UnbrokenParts(ws[0], tail);
      assert " " + ws[0] + tail == " " + (ws[0] + tail);
    }
  }

  lemma SpacedStarts(ws: seq<string>)
    ensures Spaced(ws) == "" || IsSpace(Spaced(ws)[0])
  {
  }

  /** Words joined by single spaces. */
  function Phrase(ws: seq<string>): string
    requires ws != []
  {
    Spaced(ws)[1..]
  }

  lemma WordsOfPhrase(ws: seq<string>)
    requires ws != [] && AllWords(ws)
    ensures Words(Phrase(ws)) == ws && Unbroken(Phrase(ws)) && Spaced(ws) == " " + Phrase(ws)
  {
    WordsOfSpaced(ws);
    assert Spaced(ws) == " " + Phrase(ws);
    SpaceFirst(Phrase(ws));
    assert forall i :: 0 <= i < |Phrase(ws)| ==> Phrase(ws)[i] == Spaced(ws)[i + 1];
  }

  lemma {:induction false} SpacedConcat(x: seq<string>, y: seq<string>)
    ensures Spaced(x + y) == Spaced(x) + Spaced(y)
    decreases |x|
  {
    if x == [] {
      assert x + y == y;
    } else {
      assert (x + y)[1..] == x[1..] + y;
      SpacedConcat(x[1..], y);
    }
  }

  /** The code points behind the two character classes: the line boundaries of Python's `str.splitlines`, and
      the white space that `str.strip` and `str.split` go by; every boundary is white space. */
  lemma CharacterClasses(c: char)
    ensures IsBreak(c) <==>
            var n := c as int;
            0x0A <= n <= 0x0D || 0x1C <= n <= 0x1E || n == 0x85 || n == 0x2028 || n == 0x2029
    ensures IsSpace(c) <==>
            var n := c as int;
            || 0x09 <= n <= 0x0D || 0x1C <= n <= 0x20 || n == 0x85 || n == 0xA0 || n == 0x1680 || 0x2000 <= n <= 0x200A
            || n == 0x2028 || n == 0x2029 || n == 0x202F || n == 0x205F || n == 0x3000
    ensures IsBreak(c) ==> IsSpace(c)
  {
  }

  lemma {:induction false} ChoppedAt(lines: seq<string>, i: nat)
    requires i < |lines|
    ensures ChopAll(lines)[i] == Chop(lines[i])
  {
    if i > 0 { ChoppedAt(lines[1..], i - 1); }
  }

  lemma {:induction false} ChopExactly(line: string)
    requires OneLine(line)
    ensures var r := Chop(line);
            && Unbroken(r)
            && (line == r || line == r + "\r\n" || (line == r + [line[|line| - 1]] && IsBreak(line[|line| - 1])))
  {
    var r, n := Chop(line), |line|;
    assert forall i :: 0 <= i < |r| ==> r[i] == line[i];
    if n >= 2 && line[n - 2..] == "\r\n" {
      assert line == line[..n - 2] + line[n - 2..];
    } else if IsBreak(line[n - 1]) {
      assert line == line[..n - 1] + [line[n - 1]];
    }
  }

  /** `splitlines` without line ends: as many lines, none with a boundary in it, each the kept line without its
      terminator. */
  lemma {:induction false} SplitLinesExactly(s: string, i: nat)
    requires i < |SplitKeep(s)|
    ensures |SplitLines(s)| == |SplitKeep(s)|
    ensures var line, r := SplitKeep(s)[i], SplitLines(s)[i];
            && line != "" && Unbroken(r)
            && (line == r || line == r + "\r\n" || (line == r + [line[|line| - 1]] && IsBreak(line[|line| - 1])))
  {
    hide OneLine, Unbroken, Chop, Terminated;
    SplitKeepCutsAtBoundaries(s);
    ChoppedAt(SplitKeep(s), i);
    OneLineIsFull(SplitKeep(s)[i]);
    ChopExactly(SplitKeep(s)[i]);
  }

  lemma OneLineIsFull(line: string)
    requires OneLine(line)
    ensures line != ""
  {
  }
}
