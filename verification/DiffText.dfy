/** The printed diff loses nothing: a reader of its lines recovers the hunks, hence the current config. */
module DiffText {
  import opened Wrappers
  import opened Difflib
  import opened DiffProofs
  import opened Sequences
  import Text

  // ---------------------------------------------------------------- reader

  function UpToComma(s: string): (n: nat)
    ensures n <= |s|
  {
    if s == "" || s[0] == ',' then 0 else 1 + UpToComma(s[1..])
  }

  /** "7" is the seventh line, "7,3" the three lines from the seventh, "7,0" nothing after the seventh. */
  function ReadRange(s: string): Option<(nat, nat)> {
    var k := UpToComma(s);
    var first := Text.Value(s[..k]);
    var length := if k == |s| then 1 else Text.Value(s[k + 1..]);
    if length == 0 then Some((first, first))
    else if first == 0 then None
    else Some((first - 1, first - 1 + length))
  }

  predicate IsHeader(line: string) {
    line != "" && line[0] == '@'
  }

  function ReadHeader(line: string): Option<((nat, nat), (nat, nat))> {
    var ws := Text.Words(line);
    if |ws| == 4 && ws[1] != "" && ws[2] != "" then
      match (ReadRange(ws[1][1..]), ReadRange(ws[2][1..]))
      case (Some(x), Some(y)) => Some((x, y))
      case _ => None
    else None
  }

  function BodyLength(lines: seq<string>): (n: nat)
    ensures n <= |lines|
  {
    if lines == [] || IsHeader(lines[0]) then 0 else 1 + BodyLength(lines[1..])
  }

  function ReadBody(lines: seq<string>): Option<seq<HunkLine>> {
    if lines == [] then Some([])
    else if lines[0] == "" then None
    else
      var l := lines[0][1..];
      match ReadBody(lines[1..])
      case None => None
      case Some(rest) =>
        if lines[0][0] == ' ' then Some([Context(l)] + rest)
        else if lines[0][0] == '-' then Some([Removed(l)] + rest)
        else if lines[0][0] == '+' then Some([Added(l)] + rest)
        else None
  }

  function ReadHunks(lines: seq<string>): Option<seq<Hunk>>
    decreases |lines|
  {
    if lines == [] then Some([])
    else
      var n := BodyLength(lines[1..]);
      match (ReadHeader(lines[0]), ReadBody(lines[1..][..n]), ReadHunks(lines[1..][n..]))
      case (Some((x, y)), Some(body), Some(rest)) => Some([Hunk(x.0, x.1, y.0, y.1, body)] + rest)
      case _ => None
  }

  /** The hunks of a printed diff: nothing, or two file lines and the hunks. */
  function ReadDiff(lines: seq<string>): Option<seq<Hunk>> {
    if lines == [] then Some([]) else if |lines| < 2 then None else ReadHunks(lines[2..])
  }

  // ---------------------------------------------------------------- ranges

  lemma {:induction false} DigitsHaveNoComma(s: string, rest: string)
    requires forall i :: 0 <= i < |s| ==> '0' <= s[i] <= '9'
    ensures UpToComma(s) == |s| && UpToComma(s + "," + rest) == |s|
  {
    if s == "" {
      assert (s + "," + rest)[0] == ',';
    } else {
      DigitsHaveNoComma(s[1..], rest);
      assert (s + "," + rest)[1..] == s[1..] + "," + rest;
    }
  }

  lemma RangeReads(start: nat, stop: nat)
    requires start <= stop
    ensures ReadRange(RangeText(start, stop)) == Some((start, stop))
  {
    hide Text.Decimal, Text.Value;
    var length := stop - start;
    if length == 1 {
      Text.ValueOfDecimal(start + 1);
      DigitsHaveNoComma(Text.Decimal(start + 1), "");
      assert RangeText(start, stop)[..|RangeText(start, stop)|] == Text.Decimal(start + 1);
    } else {
      var first := if length == 0 then start else start + 1;
      var x, y := Text.Decimal(first), Text.Decimal(length);
      Text.ValueOfDecimal(first);
      Text.ValueOfDecimal(length);
      DigitsHaveNoComma(x, y);
      assert RangeText(start, stop) == x + "," + y;
      assert (x + "," + y)[..|x|] == x && (x + "," + y)[|x| + 1..] == y;
    }
  }

  /** A range shows its length exactly if that is not one. */
  lemma {:induction false} RangeShowsLength(start: nat, stop: nat)
    requires start <= stop
    ensures ',' in RangeText(start, stop) <==> stop != start + 1
  {
    var length := stop - start;
    var x, y := Text.Decimal(start + 1), Text.Decimal(length);
    if length == 0 {
      assert RangeText(start, stop)[|Text.Decimal(start)|] == ',';
    } else if length > 1 {
      assert RangeText(start, stop)[|x|] == ',';
    }
  }

  // --------------------------------------------------------------- headers

  lemma RangeIsWord(start: nat, stop: nat, sign: char)
    requires sign == '-' || sign == '+'
    ensures Text.IsWord([sign] + RangeText(start, stop))
  {
    hide Text.Decimal;
  }

  lemma FourWords(x: string, y: string)
    requires Text.IsWord(x) && Text.IsWord(y)
    ensures Text.Words("@@ " + x + " " + y + " @@\n") == ["@@", x, y, "@@"]
  {
    hide Text.Words, Text.IsWord;
    assert Text.Words("\n") == [] by { NoWords(); }
    assert Text.IsWord("@@") by { AtIsWord(); }
    var d := "@@" + "\n";
    Text.WordThenRest("@@", "\n");
    Text.SpaceFirst(d);
    Text.WordThenRest(y, " " + d);
    Text.SpaceFirst(y + (" " + d));
    Text.WordThenRest(x, " " + (y + (" " + d)));
    Text.SpaceFirst(x + (" " + (y + (" " + d))));
    Text.WordThenRest("@@", " " + (x + (" " + (y + (" " + d)))));
    assert "@@ " + x + " " + y + " @@\n" == "@@" + (" " + (x + (" " + (y + (" " + d)))));
    assert ["@@"] + ([x] + ([y] + (["@@"] + []))) == ["@@", x, y, "@@"];
  }

  lemma NoWords()
    ensures Text.Words("\n") == []
  {
    assert "\n"[1..] == "";
  }

  lemma AtIsWord()
    ensures Text.IsWord("@@")
  {
  }

  lemma HeaderReads(h: Hunk)
    requires h.oldStart <= h.oldStop && h.newStart <= h.newStop
    ensures var line := "@@ -" + RangeText(h.oldStart, h.oldStop) + " +" + RangeText(h.newStart, h.newStop) + " @@\n";
            IsHeader(line) && ReadHeader(line) == Some(((h.oldStart, h.oldStop), (h.newStart, h.newStop)))
  {
    hide RangeText, ReadRange, Text.Words, Text.IsWord;
    var x, y := RangeText(h.oldStart, h.oldStop), RangeText(h.newStart, h.newStop);
    RangeIsWord(h.oldStart, h.oldStop, '-');
    RangeIsWord(h.newStart, h.newStop, '+');
    RangeReads(h.oldStart, h.oldStop);
    RangeReads(h.newStart, h.newStop);
    FourWords("-" + x, "+" + y);
    assert "@@ -" + x + " +" + y + " @@\n" == "@@ " + ("-" + x) + " " + ("+" + y) + " @@\n";
    assert ("-" + x)[1..] == x && ("+" + y)[1..] == y;
  }

  // ---------------------------------------------------------------- bodies

  lemma {:induction false} BodyReads(body: seq<HunkLine>)
    ensures ReadBody(BodyText(body)) == Some(body)
  {
    if body != [] {
      BodyReads(body[1..]);
      assert body == [body[0]] + body[1..];
    }
  }

  lemma {:induction false} BodyEnds(body: seq<HunkLine>, rest: seq<string>)
    requires rest == [] || IsHeader(rest[0])
    ensures BodyLength(BodyText(body) + rest) == |BodyText(body)|
  {
    if body == [] {
      EmptyConcat(rest);
    } else {
      BodyEnds(body[1..], rest);
      TailOfConcat(BodyText(body), rest);
    }
  }

  ghost predicate Ordered(hs: seq<Hunk>) {
    forall k :: 0 <= k < |hs| ==> hs[k].oldStart <= hs[k].oldStop && hs[k].newStart <= hs[k].newStop
  }

  lemma {:induction false} HunksRead(hs: seq<Hunk>)
    requires Ordered(hs)
    ensures ReadHunks(HunksText(hs)) == Some(hs)
    ensures HunksText(hs) != [] ==> IsHeader(HunksText(hs)[0])
  {
    hide ReadHeader, ReadBody, BodyText, RangeText, BodyLength, IsHeader;
    if hs != [] {
      var h := hs[0];
      var line := "@@ -" + RangeText(h.oldStart, h.oldStop) + " +" + RangeText(h.newStart, h.newStop) + " @@\n";
      var body, rest := BodyText(h.body), HunksText(hs[1..]);
      HeaderReads(h);
      BodyReads(h.body);
      HunksRead(hs[1..]);
      BodyEnds(h.body, rest);
      ConcatAssociates([line], body, rest);
      HunkParts(line, body, rest);
      assert hs == [h] + hs[1..];
    }
  }

  lemma HunkParts(line: string, body: seq<string>, rest: seq<string>)
    ensures var all := [line] + (body + rest);
            all[0] == line && all[1..] == body + rest && all[1..][..|body|] == body && all[1..][|body|..] == rest
  {
  }

  lemma {:induction false} CoveredHunksOrdered(a: seq<Line>, b: seq<Line>, gs: seq<seq<Op>>, i: nat, j: nat)
    requires i <= |a| && j <= |b| && [] !in gs && Covers(a, b, gs, i, j)
    ensures Ordered(HunksOf(a, b, gs))
    decreases |gs|
  {
    hide Covers, HunkOf;
    if gs != [] {
      HunkSides(a, b, gs, i, j);
      var h := HunkOf(a, b, gs[0]);
      CoveredHunksOrdered(a, b, gs[1..], h.oldStop, h.newStop);
      var hs := HunksOf(a, b, gs);
      assert hs == [h] + HunksOf(a, b, gs[1..]);
    }
  }

  /** The printed diff determines the change: reading its lines back gives the hunks, and patching the golden
      lines with what was read gives the current lines. */
  lemma PrintedDiffReadsBack(a: seq<Line>, b: seq<Line>, fromFile: string, toFile: string)
    ensures var read := ReadDiff(UnifiedDiff(a, b, fromFile, toFile));
            read == Some(Hunks(a, b)) && Patch(a, read.value, 0) == Some(b)
    ensures var lines := UnifiedDiff(a, b, fromFile, toFile);
            a != b ==> |lines| > 2 && lines[0] == "--- " + fromFile + "\n" && lines[1] == "+++ " + toFile + "\n"
  {
    hide Hunks, HunksText, ReadHunks, Patch, Covers, Groups;
    DiffRoundTrip(a, b);
    HunksDecideEquality(a, b);
    OrderedHunks(a, b);
    HunksRead(Hunks(a, b));
    var hs := Hunks(a, b);
    HunksPrint(hs);
    if hs != [] {
      var head := ["--- " + fromFile + "\n", "+++ " + toFile + "\n"];
      assert (head + HunksText(hs))[2..] == HunksText(hs);
    }
  }

  lemma HunksPrint(hs: seq<Hunk>)
    ensures hs != [] ==> HunksText(hs) != []
  {
  }

  lemma OrderedHunks(a: seq<Line>, b: seq<Line>)
    ensures Ordered(Hunks(a, b))
  {
    hide Covers, HunksOf, Ordered;
    GroupsOfLists(a, b, CONTEXT);
    CoveredHunksOrdered(a, b, Groups(a, b, CONTEXT), 0, 0);
  }
}
