/** The line diff behind a drift verdict: CPython's `difflib.unified_diff`
    with its sequence matcher, `autojunk` heuristic included. */
module Difflib {
  import Text

  type Line = string

  /** `a[a..a+size]` equals `b[b..b+size]`. */
  datatype Block = Block(a: nat, b: nat, size: nat)

  datatype Tag = Equal | Replace | Delete | Insert

  /** `a[i1..i2]` becomes `b[j1..j2]`. */
  datatype Op = Op(tag: Tag, i1: nat, i2: nat, j1: nat, j2: nat)

  /** Context lines kept around a change. */
  const CONTEXT: nat := 3

  function Min(x: int, y: int): int { if x <= y then x else y }

  function Max(x: int, y: int): int { if x >= y then x else y }

  function Count(b: seq<Line>, x: Line): nat {
    if b == [] then 0 else (if b[0] == x then 1 else 0) + Count(b[1..], x)
  }

  /** Lines too frequent in a long `b` are not indexed. */
  predicate Popular(b: seq<Line>, x: Line) {
    |b| >= 200 && Count(b, x) > |b| / 100 + 1
  }

  // ---------------------------------------------------------------- matching

  predicate Window(a: seq<Line>, b: seq<Line>, alo: nat, ahi: nat, blo: nat, bhi: nat) {
    alo <= ahi <= |a| && blo <= bhi <= |b|
  }

  /** Lines `i..k` of `a` are lines `j..l` of `b`. */
  ghost predicate Same(a: seq<Line>, i: nat, k: nat, b: seq<Line>, j: nat, l: nat) {
    && i <= k <= |a| && j <= l <= |b| && k - i == l - j
    && forall t {:trigger a[t]} :: i <= t < k ==> a[t] == b[t - i + j]
  }

  ghost predicate Matches(a: seq<Line>, b: seq<Line>, alo: nat, ahi: nat, blo: nat, bhi: nat, m: Block) {
    && Window(a, b, alo, ahi, blo, bhi)
    && alo <= m.a && m.a + m.size <= ahi
    && blo <= m.b && m.b + m.size <= bhi
    && Same(a, m.a, m.a + m.size, b, m.b, m.b + m.size)
  }

  /** Length of the run of indexed equal lines that ends at `a[i]`, `b[j]`. */
  function RunLength(a: seq<Line>, b: seq<Line>, alo: nat, blo: nat, i: int, j: int): (k: nat)
    requires i < |a| && j < |b|
    ensures k > 0 ==> alo <= i - k + 1 && blo <= j - k + 1
    ensures k > 0 ==> Same(a, i - k + 1, i + 1, b, j - k + 1, j + 1)
    decreases if i >= alo then i - alo + 1 else 0
  {
    if i < alo || j < blo || a[i] != b[j] || Popular(b, b[j]) then 0
    else
      RunLength(a, b, alo, blo, i - 1, j - 1) + 1
  }

  /** Scans the window row by row and keeps the first longest run. */
  function Scan(a: seq<Line>, b: seq<Line>, alo: nat, ahi: nat, blo: nat, bhi: nat,
                i: nat, j: nat, best: Block): (m: Block)
    requires Window(a, b, alo, ahi, blo, bhi)
    requires alo <= i && blo <= j <= bhi
    requires Matches(a, b, alo, ahi, blo, bhi, best)
    ensures Matches(a, b, alo, ahi, blo, bhi, m)
    decreases if i < ahi then ahi - i else 0, bhi - j
  {
    if i >= ahi then best
    else if j >= bhi then Scan(a, b, alo, ahi, blo, bhi, i + 1, blo, best)
    else
      var k := RunLength(a, b, alo, blo, i, j);
      var better := if k > best.size then Block(i - k + 1, j - k + 1, k) else best;
      Scan(a, b, alo, ahi, blo, bhi, i, j + 1, better)
  }

  /** Grows a match over equal lines before it, popular or not. */
  function ExtendBack(a: seq<Line>, b: seq<Line>, alo: nat, ahi: nat, blo: nat, bhi: nat, m: Block): (r: Block)
    requires Matches(a, b, alo, ahi, blo, bhi, m)
    ensures Matches(a, b, alo, ahi, blo, bhi, r)
    decreases m.a
  {
    if m.a > alo && m.b > blo && a[m.a - 1] == b[m.b - 1] then
      ExtendBack(a, b, alo, ahi, blo, bhi, Block(m.a - 1, m.b - 1, m.size + 1))
    else m
  }

  /** Grows a match over equal lines after it. */
  function ExtendForward(a: seq<Line>, b: seq<Line>, alo: nat, ahi: nat, blo: nat, bhi: nat, m: Block): (r: Block)
    requires Matches(a, b, alo, ahi, blo, bhi, m)
    ensures Matches(a, b, alo, ahi, blo, bhi, r)
    decreases ahi - m.a - m.size
  {
    if m.a + m.size < ahi && m.b + m.size < bhi && a[m.a + m.size] == b[m.b + m.size] then
      ExtendForward(a, b, alo, ahi, blo, bhi, m.(size := m.size + 1))
    else m
  }

  /** `SequenceMatcher.find_longest_match` */
  function LongestMatch(a: seq<Line>, b: seq<Line>, alo: nat, ahi: nat, blo: nat, bhi: nat): (m: Block)
    requires Window(a, b, alo, ahi, blo, bhi)
    ensures Matches(a, b, alo, ahi, blo, bhi, m)
  {
    var best := Scan(a, b, alo, ahi, blo, bhi, alo, blo, Block(alo, blo, 0));
    ExtendForward(a, b, alo, ahi, blo, bhi, ExtendBack(a, b, alo, ahi, blo, bhi, best))
  }

  /** Ordered, disjoint, equal blocks inside the window. */
  ghost predicate Chain(a: seq<Line>, b: seq<Line>, alo: nat, ahi: nat, blo: nat, bhi: nat, ms: seq<Block>)
    decreases |ms|
  {
    Window(a, b, alo, ahi, blo, bhi) &&
    (ms != [] ==>
       && Matches(a, b, alo, ahi, blo, bhi, ms[0])
       && Chain(a, b, ms[0].a + ms[0].size, ahi, ms[0].b + ms[0].size, bhi, ms[1..]))
  }

  /** The recursion of `SequenceMatcher.get_matching_blocks`, in increasing order. */
  function MatchingBlocks(a: seq<Line>, b: seq<Line>, alo: nat, ahi: nat, blo: nat, bhi: nat): seq<Block>
    requires Window(a, b, alo, ahi, blo, bhi)
    decreases ahi - alo
  {
    var m := LongestMatch(a, b, alo, ahi, blo, bhi);
    if m.size == 0 then []
    else
      (if alo < m.a && blo < m.b then MatchingBlocks(a, b, alo, m.a, blo, m.b) else [])
      + [m]
      + (if m.a + m.size < ahi && m.b + m.size < bhi
         then MatchingBlocks(a, b, m.a + m.size, ahi, m.b + m.size, bhi) else [])
  }

  /** Keeps a block unless it is empty. */
  function Emit(m: Block, rest: seq<Block>): seq<Block> {
    if m.size > 0 then [m] + rest else rest
  }

  /** Merges adjacent blocks and appends the final empty one. */
  function Collapse(cur: Block, ms: seq<Block>, la: nat, lb: nat): seq<Block>
    decreases |ms|
  {
    if ms == [] then Emit(cur, [Block(la, lb, 0)])
    else if cur.a + cur.size == ms[0].a && cur.b + cur.size == ms[0].b then
      Collapse(cur.(size := cur.size + ms[0].size), ms[1..], la, lb)
    else Emit(cur, Collapse(ms[0], ms[1..], la, lb))
  }

  function Blocks(a: seq<Line>, b: seq<Line>): seq<Block> {
    Collapse(Block(0, 0, 0), MatchingBlocks(a, b, 0, |a|, 0, |b|), |a|, |b|)
  }

  // ------------------------------------------------------------ edit script

  /** What both sides skip before a block. */
  function GapOps(m: Block, i: nat, j: nat): seq<Op> {
    if i < m.a && j < m.b then [Op(Replace, i, m.a, j, m.b)]
    else if i < m.a then [Op(Delete, i, m.a, j, m.b)]
    else if j < m.b then [Op(Insert, i, m.a, j, m.b)]
    else []
  }

  function BlockOps(m: Block): seq<Op> {
    if m.size > 0 then [Op(Equal, m.a, m.a + m.size, m.b, m.b + m.size)] else []
  }

  /** `SequenceMatcher.get_opcodes`, from position `i`, `j` on */
  function OpcodesFrom(ms: seq<Block>, i: nat, j: nat): seq<Op>
    decreases |ms|
  {
    if ms == [] then []
    else
      var m := ms[0];
      GapOps(m, i, j) + (BlockOps(m) + OpcodesFrom(ms[1..], m.a + m.size, m.b + m.size))
  }

  function Opcodes(a: seq<Line>, b: seq<Line>): seq<Op> {
    OpcodesFrom(Blocks(a, b), 0, 0)
  }

  // ----------------------------------------------------------------- hunks

  function TrimFirst(ops: seq<Op>, n: nat): seq<Op> {
    if ops != [] && ops[0].tag == Equal then
      var c := ops[0];
      [c.(i1 := Max(c.i1, c.i2 - n), j1 := Max(c.j1, c.j2 - n))] + ops[1..]
    else ops
  }

  function TrimLast(ops: seq<Op>, n: nat): seq<Op> {
    if ops != [] && ops[|ops| - 1].tag == Equal then
      var c := ops[|ops| - 1];
      ops[..|ops| - 1] + [c.(i2 := Min(c.i2, c.i1 + n), j2 := Min(c.j2, c.j1 + n))]
    else ops
  }

  /** The loop of `get_grouped_opcodes`: long equal stretches split groups. */
  function GroupFrom(ops: seq<Op>, n: nat, group: seq<Op>): (gs: seq<seq<Op>>)
    ensures [] !in gs
    decreases |ops|
  {
    if ops == [] then
      if group == [] || (|group| == 1 && group[0].tag == Equal) then [] else [group]
    else
      var c := ops[0];
      if c.tag == Equal && c.i2 - c.i1 > n + n then
        [group + [c.(i2 := Min(c.i2, c.i1 + n), j2 := Min(c.j2, c.j1 + n))]]
        + GroupFrom(ops[1..], n, [c.(i1 := Max(c.i1, c.i2 - n), j1 := Max(c.j1, c.j2 - n))])
      else GroupFrom(ops[1..], n, group + [c])
  }

  /** `SequenceMatcher.get_grouped_opcodes(n)` */
  function Groups(a: seq<Line>, b: seq<Line>, n: nat): (gs: seq<seq<Op>>)
    ensures [] !in gs
  {
    var codes := Opcodes(a, b);
    var some := if codes == [] then [Op(Equal, 0, 1, 0, 1)] else codes;
    GroupFrom(TrimLast(TrimFirst(some, n), n), n, [])
  }

  datatype HunkLine = Context(line: Line) | Removed(line: Line) | Added(line: Line)

  /** A hunk as its header and body print it: the old and new line ranges, and the marked lines. */
  datatype Hunk = Hunk(oldStart: nat, oldStop: nat, newStart: nat, newStop: nat, body: seq<HunkLine>)

  /** Python's `lines[lo:hi]`, which clamps. */
  function Slice(lines: seq<Line>, lo: nat, hi: nat): seq<Line> {
    if lo <= hi && lo <= |lines| then lines[lo..Min(hi, |lines|)] else []
  }

  function Contexts(lines: seq<Line>): seq<HunkLine> {
    seq(|lines|, i requires 0 <= i < |lines| => Context(lines[i]))
  }

  function Removals(lines: seq<Line>): seq<HunkLine> {
    seq(|lines|, i requires 0 <= i < |lines| => Removed(lines[i]))
  }

  function Additions(lines: seq<Line>): seq<HunkLine> {
    seq(|lines|, i requires 0 <= i < |lines| => Added(lines[i]))
  }

  function OpBody(a: seq<Line>, b: seq<Line>, c: Op): seq<HunkLine> {
    if c.tag == Equal then Contexts(Slice(a, c.i1, c.i2))
    else
      (if c.tag in {Replace, Delete} then Removals(Slice(a, c.i1, c.i2)) else [])
      + (if c.tag in {Replace, Insert} then Additions(Slice(b, c.j1, c.j2)) else [])
  }

  function GroupBody(a: seq<Line>, b: seq<Line>, g: seq<Op>): seq<HunkLine> {
    if g == [] then [] else OpBody(a, b, g[0]) + GroupBody(a, b, g[1..])
  }

  function HunkOf(a: seq<Line>, b: seq<Line>, g: seq<Op>): Hunk
    requires g != []
  {
    var last := g[|g| - 1];
    Hunk(g[0].i1, last.i2, g[0].j1, last.j2, GroupBody(a, b, g))
  }

  function HunksOf(a: seq<Line>, b: seq<Line>, gs: seq<seq<Op>>): (hs: seq<Hunk>)
    requires [] !in gs
    ensures |hs| == |gs|
  {
    if gs == [] then [] else [HunkOf(a, b, gs[0])] + HunksOf(a, b, gs[1..])
  }

  /** The hunks of `unified_diff(a, b, n=3)` */
  function Hunks(a: seq<Line>, b: seq<Line>): seq<Hunk> {
    HunksOf(a, b, Groups(a, b, CONTEXT))
  }

  // ------------------------------------------------------------------ text

  /** `_format_range_unified`: lines count from one; an empty range names the line before it. */
  function RangeText(start: nat, stop: nat): string {
    var length := Max(0, stop - start);
    if length == 1 then Text.Decimal(start + 1)
    else Text.Decimal(if length == 0 then start else start + 1) + "," + Text.Decimal(length)
  }

  function BodyText(body: seq<HunkLine>): seq<string> {
    if body == [] then []
    else
      [(match body[0]
        case Context(l) => " " + l
        case Removed(l) => "-" + l
        case Added(l) => "+" + l)] + BodyText(body[1..])
  }

  function HunksText(hs: seq<Hunk>): seq<string> {
    if hs == [] then []
    else
      var h := hs[0];
      ["@@ -" + RangeText(h.oldStart, h.oldStop) + " +" + RangeText(h.newStart, h.newStop) + " @@\n"]
      + BodyText(h.body) + HunksText(hs[1..])
  }

  /** `list(difflib.unified_diff(a, b, fromfile, tofile, n=3))` */
  function UnifiedDiff(a: seq<Line>, b: seq<Line>, fromFile: string, toFile: string): seq<string> {
    var hs := Hunks(a, b);
    if hs == [] then [] else ["--- " + fromFile + "\n", "+++ " + toFile + "\n"] + HunksText(hs)
  }
}
