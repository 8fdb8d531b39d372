/** What a unified diff promises: its hunks rebuild either side from the other,
    and there are none exactly when the two sides are equal. */
module DiffProofs {
  import opened Wrappers
  import opened Difflib
  import opened Sequences
  import Text

  // ------------------------------------------------------- applying a diff

  function Olds(body: seq<HunkLine>): seq<Line> {
    if body == [] then []
    else if body[0].Added? then Olds(body[1..])
    else [body[0].line] + Olds(body[1..])
  }

  function News(body: seq<HunkLine>): seq<Line> {
    if body == [] then []
    else if body[0].Removed? then News(body[1..])
    else [body[0].line] + News(body[1..])
  }

  /** A strict patch: each hunk must start at or after `pos`, its old range must be
      as long as its old lines, and the old lines must stand where the header says. */
  function Patch(lines: seq<Line>, hs: seq<Hunk>, pos: nat): Option<seq<Line>>
    requires pos <= |lines|
    decreases |hs|
  {
    if hs == [] then Some(lines[pos..])
    else
      var h := hs[0];
      var oldLines := Olds(h.body);
      if pos <= h.oldStart <= h.oldStop <= |lines| && lines[h.oldStart..h.oldStop] == oldLines then
        match Patch(lines, hs[1..], h.oldStop)
        case None => None
        case Some(rest) => Some(lines[pos..h.oldStart] + News(h.body) + rest)
      else None
  }

  /** The reverse diff. */
  function InvertBody(body: seq<HunkLine>): seq<HunkLine> {
    if body == [] then []
    else
      [(match body[0]
        case Context(l) => Context(l)
        case Removed(l) => Added(l)
        case Added(l) => Removed(l))] + InvertBody(body[1..])
  }

  function Invert(hs: seq<Hunk>): seq<Hunk> {
    if hs == [] then []
    else
      var h := hs[0];
      [Hunk(h.newStart, h.newStop, h.oldStart, h.oldStop, InvertBody(h.body))] + Invert(hs[1..])
  }

  // ------------------------------------------------------------ invariants

  /** An edit operation that says the truth about `a` and `b`. */
  ghost predicate Sound(a: seq<Line>, b: seq<Line>, c: Op) {
    && c.i1 <= c.i2 <= |a| && c.j1 <= c.j2 <= |b|
    && (c.tag == Equal ==> Same(a, c.i1, c.i2, b, c.j1, c.j2))
    && (c.tag == Delete ==> c.j1 == c.j2)
    && (c.tag == Insert ==> c.i1 == c.i2)
  }

  /** Sound operations laid end to end from (i, j) to (k, l). */
  ghost predicate Tiles(a: seq<Line>, b: seq<Line>, ops: seq<Op>, i: nat, j: nat, k: nat, l: nat) {
    if ops == [] then i == k <= |a| && j == l <= |b|
    else
      && Sound(a, b, ops[0]) && ops[0].i1 == i && ops[0].j1 == j
      && Tiles(a, b, ops[1..], ops[0].i2, ops[0].j2, k, l)
  }

  /** Groups of tiles; what lies between and around them is equal on both sides. */
  ghost predicate Covers(a: seq<Line>, b: seq<Line>, gs: seq<seq<Op>>, i: nat, j: nat)
    requires i <= |a| && j <= |b|
  {
    if gs == [] then Same(a, i, |a|, b, j, |b|)
    else
      && gs[0] != []
      && var g := gs[0];
      var last := g[|g| - 1];
      && i <= g[0].i1 <= |a| && j <= g[0].j1 <= |b|
      && Same(a, i, g[0].i1, b, j, g[0].j1)
      && Tiles(a, b, g, g[0].i1, g[0].j1, last.i2, last.j2)
      && last.i2 <= |a| && last.j2 <= |b|
      && Covers(a, b, gs[1..], last.i2, last.j2)
  }

  // ---------------------------------------------- matching blocks to script

  lemma {:induction false} ChainConcat(a: seq<Line>, b: seq<Line>, alo: nat, ahi: nat, blo: nat, bhi: nat,
                                       left: seq<Block>, m: Block, right: seq<Block>)
    requires Matches(a, b, alo, ahi, blo, bhi, m)
    requires Chain(a, b, alo, m.a, blo, m.b, left)
    requires Chain(a, b, m.a + m.size, ahi, m.b + m.size, bhi, right)
    ensures Chain(a, b, alo, ahi, blo, bhi, left + [m] + right)
    decreases |left|
  {
    hide Same;
    var all := left + [m] + right;
    if left == [] {
      assert all[0] == m && all[1..] == right;
    } else {
      var f := left[0];
      ChainConcat(a, b, f.a + f.size, ahi, f.b + f.size, bhi, left[1..], m, right);
      assert all[0] == f && all[1..] == left[1..] + [m] + right;
    }
  }

  lemma {:induction false} MatchingBlocksChain(a: seq<Line>, b: seq<Line>, alo: nat, ahi: nat, blo: nat, bhi: nat)
    requires Window(a, b, alo, ahi, blo, bhi)
    ensures Chain(a, b, alo, ahi, blo, bhi, MatchingBlocks(a, b, alo, ahi, blo, bhi))
    decreases ahi - alo
  {
    hide LongestMatch, Same;
    var m := LongestMatch(a, b, alo, ahi, blo, bhi);
    if m.size > 0 {
      var left, right := [], [];
      if alo < m.a && blo < m.b {
        left := MatchingBlocks(a, b, alo, m.a, blo, m.b);
        MatchingBlocksChain(a, b, alo, m.a, blo, m.b);
      }
      if m.a + m.size < ahi && m.b + m.size < bhi {
        right := MatchingBlocks(a, b, m.a + m.size, ahi, m.b + m.size, bhi);
        MatchingBlocksChain(a, b, m.a + m.size, ahi, m.b + m.size, bhi);
      }
      ChainConcat(a, b, alo, ahi, blo, bhi, left, m, right);
    }
  }

  lemma SameJoin(a: seq<Line>, i: nat, x: nat, k: nat, b: seq<Line>, j: nat, y: nat, l: nat)
    requires Same(a, i, x, b, j, y) && Same(a, x, k, b, y, l)
    ensures Same(a, i, k, b, j, l)
  {
  }

  lemma ChainWiden(a: seq<Line>, b: seq<Line>, alo: nat, blo: nat, i: nat, j: nat, ms: seq<Block>)
    requires alo <= i && blo <= j && Chain(a, b, i, |a|, j, |b|, ms)
    ensures Chain(a, b, alo, |a|, blo, |b|, ms)
  {
    hide Same;
  }

  lemma EmitChain(a: seq<Line>, b: seq<Line>, alo: nat, blo: nat, m: Block, rest: seq<Block>)
    requires Matches(a, b, alo, |a|, blo, |b|, m)
    requires Chain(a, b, m.a + m.size, |a|, m.b + m.size, |b|, rest)
    ensures Chain(a, b, alo, |a|, blo, |b|, Emit(m, rest))
  {
    hide Same;
    if m.size > 0 {
      assert ([m] + rest)[1..] == rest;
    } else {
      ChainWiden(a, b, alo, blo, m.a, m.b, rest);
    }
  }

  lemma EndChain(a: seq<Line>, b: seq<Line>, i: nat, j: nat)
    requires i <= |a| && j <= |b|
    ensures Chain(a, b, i, |a|, j, |b|, [Block(|a|, |b|, 0)])
  {
    assert [Block(|a|, |b|, 0)][1..] == [];
  }

  lemma {:induction false} CollapseChain(a: seq<Line>, b: seq<Line>, alo: nat, blo: nat, cur: Block, ms: seq<Block>)
    requires Matches(a, b, alo, |a|, blo, |b|, cur)
    requires Chain(a, b, cur.a + cur.size, |a|, cur.b + cur.size, |b|, ms)
    ensures Chain(a, b, alo, |a|, blo, |b|, Collapse(cur, ms, |a|, |b|))
    decreases |ms|
  {
    hide Same, Emit;
    var i, j := cur.a + cur.size, cur.b + cur.size;
    if ms == [] {
      EndChain(a, b, i, j);
      EmitChain(a, b, alo, blo, cur, [Block(|a|, |b|, 0)]);
    } else {
      var m := ms[0];
      if i == m.a && j == m.b {
        SameJoin(a, cur.a, m.a, m.a + m.size, b, cur.b, m.b, m.b + m.size);
        CollapseChain(a, b, alo, blo, cur.(size := cur.size + m.size), ms[1..]);
      } else {
        CollapseChain(a, b, i, j, m, ms[1..]);
        EmitChain(a, b, alo, blo, cur, Collapse(m, ms[1..], |a|, |b|));
      }
    }
  }

  lemma {:induction false} TilesConcat(a: seq<Line>, b: seq<Line>, x: seq<Op>, y: seq<Op>,
                                       i: nat, j: nat, k: nat, l: nat, p: nat, q: nat)
    requires Tiles(a, b, x, i, j, k, l) && Tiles(a, b, y, k, l, p, q)
    ensures Tiles(a, b, x + y, i, j, p, q)
    decreases |x|
  {
    hide Same, Sound;
    if x == [] {
      EmptyConcat(y);
    } else {
      TilesConcat(a, b, x[1..], y, x[0].i2, x[0].j2, k, l, p, q);
      TailOfConcat(x, y);
    }
  }

  /** The last block of a chain: where the edit script stops. */
  ghost predicate EndsAt(ms: seq<Block>, p: nat, q: nat) {
    ms != [] && ms[|ms| - 1] == Block(p, q, 0)
  }

  lemma {:induction false} CollapseEnds(cur: Block, ms: seq<Block>, la: nat, lb: nat)
    ensures EndsAt(Collapse(cur, ms, la, lb), la, lb)
    decreases |ms|
  {
    if ms != [] {
      CollapseEnds(cur.(size := cur.size + ms[0].size), ms[1..], la, lb);
      CollapseEnds(ms[0], ms[1..], la, lb);
    }
  }

  lemma GapTiles(a: seq<Line>, b: seq<Line>, m: Block, i: nat, j: nat)
    requires i <= m.a <= |a| && j <= m.b <= |b|
    ensures Tiles(a, b, GapOps(m, i, j), i, j, m.a, m.b)
  {
    hide Same;
    var ops := GapOps(m, i, j);
    if ops != [] { assert ops[1..] == []; }
  }

  lemma BlockTiles(a: seq<Line>, b: seq<Line>, m: Block)
    requires Matches(a, b, 0, |a|, 0, |b|, m)
    ensures Tiles(a, b, BlockOps(m), m.a, m.b, m.a + m.size, m.b + m.size)
  {
    var ops := BlockOps(m);
    if ops != [] { assert ops[1..] == []; }
  }

  lemma {:induction false} OpcodesTile(a: seq<Line>, b: seq<Line>, ms: seq<Block>, i: nat, j: nat)
    requires Chain(a, b, i, |a|, j, |b|, ms) && EndsAt(ms, |a|, |b|)
    ensures Tiles(a, b, OpcodesFrom(ms, i, j), i, j, |a|, |b|)
    decreases |ms|
  {
    hide Same, Tiles, GapOps, BlockOps;
    var m := ms[0];
    var i', j' := m.a + m.size, m.b + m.size;
    var rest := OpcodesFrom(ms[1..], i', j');
    if |ms| > 1 {
      assert ms[1..][|ms| - 2] == ms[|ms| - 1];
      OpcodesTile(a, b, ms[1..], i', j');
    } else {
      NoTiles(a, b);
    }
    GapTiles(a, b, m, i, j);
    BlockTiles(a, b, m);
    TilesConcat(a, b, BlockOps(m), rest, m.a, m.b, i', j', |a|, |b|);
    TilesConcat(a, b, GapOps(m, i, j), BlockOps(m) + rest, i, j, m.a, m.b, |a|, |b|);
  }

  lemma NoTiles(a: seq<Line>, b: seq<Line>)
    ensures Tiles(a, b, [], |a|, |b|, |a|, |b|)
  {
  }

  lemma OpcodesOfLists(a: seq<Line>, b: seq<Line>)
    ensures Tiles(a, b, Opcodes(a, b), 0, 0, |a|, |b|)
  {
    var ms := MatchingBlocks(a, b, 0, |a|, 0, |b|);
    MatchingBlocksChain(a, b, 0, |a|, 0, |b|);
    CollapseChain(a, b, 0, 0, Block(0, 0, 0), ms);
    CollapseEnds(Block(0, 0, 0), ms, |a|, |b|);
    OpcodesTile(a, b, Blocks(a, b), 0, 0);
  }

  // ------------------------------------------------------ script to groups

  lemma SameSlices(a: seq<Line>, i: nat, k: nat, b: seq<Line>, j: nat, l: nat)
    requires Same(a, i, k, b, j, l)
    ensures a[i..k] == b[j..l]
  {
    assert forall t :: 0 <= t < k - i ==> a[i..k][t] == a[i + t] == b[j + t];
  }

  lemma SliceJoin(a: seq<Line>, i: nat, x: nat, k: nat)
    requires i <= x <= k <= |a|
    ensures a[i..k] == a[i..x] + a[x..k]
  {
  }

  lemma {:induction false} TilesAppend(a: seq<Line>, b: seq<Line>, g: seq<Op>, c: Op, i: nat, j: nat)
    requires Sound(a, b, c) && Tiles(a, b, g, i, j, c.i1, c.j1)
    ensures Tiles(a, b, g + [c], i, j, c.i2, c.j2)
  {
    assert [c][1..] == [];
    TilesConcat(a, b, g, [c], i, j, c.i1, c.j1, c.i2, c.j2);
  }

  lemma {:induction false} TilesStart(a: seq<Line>, b: seq<Line>, g: seq<Op>, i: nat, j: nat, k: nat, l: nat)
    requires Tiles(a, b, g, i, j, k, l)
    ensures i <= k <= |a| && j <= l <= |b|
    ensures g != [] ==> g[0].i1 == i && g[0].j1 == j && g[|g| - 1].i2 == k && g[|g| - 1].j2 == l
    decreases |g|
  {
    if |g| > 1 {
      TilesStart(a, b, g[1..], g[0].i2, g[0].j2, k, l);
    } else if |g| == 1 {
      assert g[1..] == [];
    }
  }

  /** A long equal stretch is cut into its first and last `n` lines. */
  lemma CutEqual(a: seq<Line>, b: seq<Line>, c: Op, n: nat) returns (head: Op, tail: Op)
    requires Sound(a, b, c) && c.tag == Equal && c.i2 - c.i1 > n + n
    ensures head == c.(i2 := Min(c.i2, c.i1 + n), j2 := Min(c.j2, c.j1 + n))
    ensures tail == c.(i1 := Max(c.i1, c.i2 - n), j1 := Max(c.j1, c.j2 - n))
    ensures Sound(a, b, head) && head.i1 == c.i1 && head.j1 == c.j1
    ensures Same(a, head.i2, tail.i1, b, head.j2, tail.j1)
    ensures Tiles(a, b, [tail], tail.i1, tail.j1, c.i2, c.j2)
  {
    head := c.(i2 := Min(c.i2, c.i1 + n), j2 := Min(c.j2, c.j1 + n));
    tail := c.(i1 := Max(c.i1, c.i2 - n), j1 := Max(c.j1, c.j2 - n));
    assert [tail][1..] == [];
  }

  /** A group closed at the end of the script. */
  lemma CloseGroup(a: seq<Line>, b: seq<Line>, n: nat, group: seq<Op>,
                   i: nat, j: nat, gi: nat, gj: nat, ei: nat, ej: nat)
    requires Same(a, i, gi, b, j, gj) && Tiles(a, b, group, gi, gj, ei, ej)
    requires ei <= |a| && ej <= |b| && Same(a, ei, |a|, b, ej, |b|)
    ensures Covers(a, b, GroupFrom([], n, group), i, j)
  {
    TilesStart(a, b, group, gi, gj, ei, ej);
    if group == [] || (|group| == 1 && group[0].tag == Equal) {
      assert Same(a, gi, ei, b, gj, ej);
    } else {
      assert [group][1..] == [];
    }
  }

  /** The grouping loop: `group` tiles (gi, gj) to (ci, cj), `ops` continues to (ei, ej). */
  lemma {:induction false} GroupsCover(a: seq<Line>, b: seq<Line>, ops: seq<Op>, n: nat, group: seq<Op>,
                                       i: nat, j: nat, gi: nat, gj: nat, ci: nat, cj: nat, ei: nat, ej: nat)
    requires Same(a, i, gi, b, j, gj)
    requires Tiles(a, b, group, gi, gj, ci, cj)
    requires Tiles(a, b, ops, ci, cj, ei, ej)
    requires ei <= |a| && ej <= |b| && Same(a, ei, |a|, b, ej, |b|)
    ensures Covers(a, b, GroupFrom(ops, n, group), i, j)
    decreases |ops|
  {
    hide Same, Sound, Covers;
    if ops == [] {
      CloseGroup(a, b, n, group, i, j, gi, gj, ei, ej);
      return;
    }
    var c := ops[0];
    var more := ops[1..];
    assert Sound(a, b, c) && c.i1 == ci && c.j1 == cj && Tiles(a, b, more, c.i2, c.j2, ei, ej);
    if c.tag == Equal && c.i2 - c.i1 > n + n {
      var head, tail := CutEqual(a, b, c, n);
      GroupsCover(a, b, more, n, [tail], head.i2, head.j2, tail.i1, tail.j1, c.i2, c.j2, ei, ej);
      TilesAppend(a, b, group, head, gi, gj);
      CoversAdd(a, b, group + [head], GroupFrom(more, n, [tail]), i, j, gi, gj, head.i2, head.j2);
    } else {
      TilesAppend(a, b, group, c, gi, gj);
      GroupsCover(a, b, more, n, group + [c], i, j, gi, gj, c.i2, c.j2, ei, ej);
      assert GroupFrom(ops, n, group) == GroupFrom(more, n, group + [c]);
    }
  }

  lemma CoversAdd(a: seq<Line>, b: seq<Line>, g: seq<Op>, gs: seq<seq<Op>>,
                  i: nat, j: nat, gi: nat, gj: nat, k: nat, l: nat)
    requires g != [] && Same(a, i, gi, b, j, gj) && Tiles(a, b, g, gi, gj, k, l)
    requires k <= |a| && l <= |b| && Covers(a, b, gs, k, l)
    ensures Covers(a, b, [g] + gs, i, j)
  {
    TilesStart(a, b, g, gi, gj, k, l);
    assert ([g] + gs)[1..] == gs;
  }

  lemma {:induction false} TrimFirstTiles(a: seq<Line>, b: seq<Line>, ops: seq<Op>, n: nat, p: nat, q: nat)
    returns (i: nat, j: nat)
    requires ops != [] && Tiles(a, b, ops, 0, 0, p, q)
    ensures i <= |a| && j <= |b| && Same(a, 0, i, b, 0, j)
    ensures Tiles(a, b, TrimFirst(ops, n), i, j, p, q)
    ensures |TrimFirst(ops, n)| == |ops|
  {
    i, j := 0, 0;
    if ops[0].tag == Equal {
      var c := ops[0];
      var d := c.(i1 := Max(c.i1, c.i2 - n), j1 := Max(c.j1, c.j2 - n));
      i, j := d.i1, d.j1;
      assert TrimFirst(ops, n)[1..] == ops[1..];
    }
  }

  lemma {:induction false} TilesSplitLast(a: seq<Line>, b: seq<Line>, ops: seq<Op>, i: nat, j: nat, p: nat, q: nat)
    requires ops != [] && Tiles(a, b, ops, i, j, p, q)
    ensures var c := ops[|ops| - 1];
            Sound(a, b, c) && c.i2 == p && c.j2 == q && Tiles(a, b, ops[..|ops| - 1], i, j, c.i1, c.j1)
    decreases |ops|
  {
    var n := |ops| - 1;
    if n == 0 {
      assert ops[1..] == [] && ops[..0] == [];
    } else {
      TilesSplitLast(a, b, ops[1..], ops[0].i2, ops[0].j2, p, q);
      assert ops[..n][1..] == ops[1..][..n - 1];
      assert ops[..n][0] == ops[0];
    }
  }

  lemma {:induction false} TrimLastTiles(a: seq<Line>, b: seq<Line>, ops: seq<Op>, n: nat, i: nat, j: nat)
    returns (p: nat, q: nat)
    requires ops != [] && Tiles(a, b, ops, i, j, |a|, |b|)
    ensures p <= |a| && q <= |b| && Same(a, p, |a|, b, q, |b|)
    ensures Tiles(a, b, TrimLast(ops, n), i, j, p, q)
  {
    p, q := |a|, |b|;
    TilesSplitLast(a, b, ops, i, j, p, q);
    var c := ops[|ops| - 1];
    if c.tag == Equal {
      var d := c.(i2 := Min(c.i2, c.i1 + n), j2 := Min(c.j2, c.j1 + n));
      p, q := d.i2, d.j2;
      TilesAppend(a, b, ops[..|ops| - 1], d, i, j);
    }
  }

  /** The stand-in operation for two empty lists never becomes a hunk. */
  lemma NoGroups(n: nat)
    ensures GroupFrom(TrimLast(TrimFirst([Op(Equal, 0, 1, 0, 1)], n), n), n, []) == []
  {
    var one := Op(Equal, 0, 1, 0, 1);
    var c := Op(Equal, Max(0, 1 - n), Min(1, Max(0, 1 - n) + n), Max(0, 1 - n), Min(1, Max(0, 1 - n) + n));
    assert TrimFirst([one], n) == [one.(i1 := Max(0, 1 - n), j1 := Max(0, 1 - n))];
    assert TrimLast(TrimFirst([one], n), n) == [c];
    assert [c][1..] == [] && [] + [c] == [c];
    assert GroupFrom([c], n, []) == GroupFrom([], n, [c]) == [];
  }

  lemma SomeGroups(a: seq<Line>, b: seq<Line>, n: nat, codes: seq<Op>)
    requires codes != [] && Tiles(a, b, codes, 0, 0, |a|, |b|)
    ensures Covers(a, b, GroupFrom(TrimLast(TrimFirst(codes, n), n), n, []), 0, 0)
  {
    hide TrimFirst, TrimLast, GroupFrom, Covers, Same;
    var i, j := TrimFirstTiles(a, b, codes, n, |a|, |b|);
    var p, q := TrimLastTiles(a, b, TrimFirst(codes, n), n, i, j);
    GroupsCover(a, b, TrimLast(TrimFirst(codes, n), n), n, [], 0, 0, i, j, i, j, p, q);
  }

  /** The groups of a diff cover both lists; outside them the lists agree. */
  lemma GroupsOfLists(a: seq<Line>, b: seq<Line>, n: nat)
    ensures Covers(a, b, Groups(a, b, n), 0, 0)
  {
    hide Opcodes, GroupFrom, TrimFirst, TrimLast;
    OpcodesOfLists(a, b);
    if Opcodes(a, b) == [] {
      NoGroups(n);
    } else {
      SomeGroups(a, b, n, Opcodes(a, b));
    }
  }

  // --------------------------------------------------- how much context shows

  predicate ShortEqual(c: Op, n: nat) {
    c.tag == Equal ==> c.i2 - c.i1 <= n
  }

  /** At most `n` equal lines at either edge of a group, at most `2 * n` between two changes. */
  ghost predicate Bounded(g: seq<Op>, n: nat) {
    g != [] && ShortEqual(g[0], n) && ShortEqual(g[|g| - 1], n) && forall i :: 0 <= i < |g| ==> ShortEqual(g[i], n + n)
  }

  lemma {:induction false} GroupsBounded(ops: seq<Op>, n: nat, group: seq<Op>)
    requires forall i :: 0 <= i < |group| ==> ShortEqual(group[i], n + n)
    requires group != [] ==> ShortEqual(group[0], n)
    requires group == [] && ops != [] ==> ShortEqual(ops[0], n)
    requires if ops != [] then ShortEqual(ops[|ops| - 1], n) else group != [] ==> ShortEqual(group[|group| - 1], n)
    ensures forall k :: 0 <= k < |GroupFrom(ops, n, group)| ==> Bounded(GroupFrom(ops, n, group)[k], n)
    decreases |ops|
  {
    if ops != [] {
      var c := ops[0];
      if c.tag == Equal && c.i2 - c.i1 > n + n {
        var head, tail := c.(i2 := Min(c.i2, c.i1 + n), j2 := Min(c.j2, c.j1 + n)),
            c.(i1 := Max(c.i1, c.i2 - n), j1 := Max(c.j1, c.j2 - n));
        assert Bounded(group + [head], n);
        GroupsBounded(ops[1..], n, [tail]);
      } else {
        GroupsBounded(ops[1..], n, group + [c]);
      }
    }
  }

  /** Three lines of context: no hunk shows more at its edges, nor more than six equal lines between changes. */
  lemma ContextIsBounded(a: seq<Line>, b: seq<Line>, k: nat)
    requires k < |Groups(a, b, CONTEXT)|
    ensures Bounded(Groups(a, b, CONTEXT)[k], 3)
  {
    hide Opcodes;
    var codes := if Opcodes(a, b) == [] then [Op(Equal, 0, 1, 0, 1)] else Opcodes(a, b);
    var ops := TrimFirst(codes, CONTEXT);
    assert |ops| == |codes| && ShortEqual(ops[0], CONTEXT);
    assert ShortEqual(TrimLast(ops, CONTEXT)[0], CONTEXT);
    GroupsBounded(TrimLast(ops, CONTEXT), CONTEXT, []);
  }

  // ------------------------------------------------------- groups to hunks

  lemma {:induction false} OldsConcat(x: seq<HunkLine>, y: seq<HunkLine>)
    ensures Olds(x + y) == Olds(x) + Olds(y)
  {
    if x == [] {
      EmptyConcat(y);
      EmptyConcat(Olds(y));
    } else {
      OldsConcat(x[1..], y);
      TailOfConcat(x, y);
      if !x[0].Added? { ConcatAssociates([x[0].line], Olds(x[1..]), Olds(y)); }
    }
  }

  lemma {:induction false} NewsConcat(x: seq<HunkLine>, y: seq<HunkLine>)
    ensures News(x + y) == News(x) + News(y)
  {
    if x == [] {
      EmptyConcat(y);
      EmptyConcat(News(y));
    } else {
      NewsConcat(x[1..], y);
      TailOfConcat(x, y);
      if !x[0].Removed? { ConcatAssociates([x[0].line], News(x[1..]), News(y)); }
    }
  }

  lemma SidesConcat(x: seq<HunkLine>, y: seq<HunkLine>)
    ensures Olds(x + y) == Olds(x) + Olds(y)
    ensures News(x + y) == News(x) + News(y)
  {
    OldsConcat(x, y);
    NewsConcat(x, y);
  }

  lemma {:induction false} SidesOfMarks(lines: seq<Line>)
    ensures Olds(Contexts(lines)) == lines && News(Contexts(lines)) == lines
    ensures Olds(Removals(lines)) == lines && News(Removals(lines)) == []
    ensures Olds(Additions(lines)) == [] && News(Additions(lines)) == lines
    decreases |lines|
  {
    if lines != [] {
      SidesOfMarks(lines[1..]);
      assert Contexts(lines)[1..] == Contexts(lines[1..]);
      assert Removals(lines)[1..] == Removals(lines[1..]);
      assert Additions(lines)[1..] == Additions(lines[1..]);
    }
  }

  lemma SidesOfOp(a: seq<Line>, b: seq<Line>, c: Op)
    requires Sound(a, b, c)
    ensures Olds(OpBody(a, b, c)) == a[c.i1..c.i2] && News(OpBody(a, b, c)) == b[c.j1..c.j2]
  {
    if c.tag == Equal { SameSlices(a, c.i1, c.i2, b, c.j1, c.j2); }
    SidesOfMarks(a[c.i1..c.i2]);
    SidesOfMarks(b[c.j1..c.j2]);
    SidesConcat(Removals(a[c.i1..c.i2]), Additions(b[c.j1..c.j2]));
    if c.tag == Delete { assert Removals(a[c.i1..c.i2]) + [] == Removals(a[c.i1..c.i2]); }
    if c.tag == Insert { assert [] + Additions(b[c.j1..c.j2]) == Additions(b[c.j1..c.j2]); }
  }

  lemma {:induction false} SidesOfGroup(a: seq<Line>, b: seq<Line>, g: seq<Op>, i: nat, j: nat, k: nat, l: nat)
    requires Tiles(a, b, g, i, j, k, l)
    ensures i <= k <= |a| && j <= l <= |b|
    ensures Olds(GroupBody(a, b, g)) == a[i..k] && News(GroupBody(a, b, g)) == b[j..l]
    decreases |g|
  {
    if g != [] {
      var c := g[0];
      SidesOfGroup(a, b, g[1..], c.i2, c.j2, k, l);
      SidesOfOp(a, b, c);
      SidesConcat(OpBody(a, b, c), GroupBody(a, b, g[1..]));
      SliceJoin(a, i, c.i2, k);
      SliceJoin(b, j, c.j2, l);
    }
  }

  /** One hunk of a covering: its ranges are in order and its sides are the lines it names. */
  lemma HunkSides(a: seq<Line>, b: seq<Line>, gs: seq<seq<Op>>, i: nat, j: nat)
    requires i <= |a| && j <= |b| && [] !in gs && gs != [] && Covers(a, b, gs, i, j)
    ensures var h := HunkOf(a, b, gs[0]);
            && i <= h.oldStart <= h.oldStop <= |a| && j <= h.newStart <= h.newStop <= |b|
            && a[i..h.oldStart] == b[j..h.newStart]
            && Olds(h.body) == a[h.oldStart..h.oldStop] && News(h.body) == b[h.newStart..h.newStop]
            && Covers(a, b, gs[1..], h.oldStop, h.newStop)
  {
    var g := gs[0];
    var last := g[|g| - 1];
    SameSlices(a, i, g[0].i1, b, j, g[0].j1);
    SidesOfGroup(a, b, g, g[0].i1, g[0].j1, last.i2, last.j2);
  }

  lemma SliceJoin3(a: seq<Line>, i: nat, x: nat, y: nat)
    requires i <= x <= y <= |a|
    ensures a[i..x] + a[x..y] + a[y..] == a[i..]
  {
  }

  lemma {:induction false} PatchCovers(a: seq<Line>, b: seq<Line>, gs: seq<seq<Op>>, i: nat, j: nat)
    requires i <= |a| && j <= |b| && [] !in gs && Covers(a, b, gs, i, j)
    ensures Patch(a, HunksOf(a, b, gs), i) == Some(b[j..])
    decreases |gs|
  {
    if gs == [] {
      SameSlices(a, i, |a|, b, j, |b|);
      assert a[i..] == a[i..|a|] && b[j..] == b[j..|b|];
    } else {
      HunkSides(a, b, gs, i, j);
      var h := HunkOf(a, b, gs[0]);
      PatchCovers(a, b, gs[1..], h.oldStop, h.newStop);
      var hs := HunksOf(a, b, gs);
      assert hs[0] == h && hs[1..] == HunksOf(a, b, gs[1..]);
      SliceJoin3(b, j, h.newStart, h.newStop);
    }
  }

  lemma {:induction false} SidesOfInverse(body: seq<HunkLine>)
    ensures Olds(InvertBody(body)) == News(body) && News(InvertBody(body)) == Olds(body)
    decreases |body|
  {
    if body != [] {
      SidesOfInverse(body[1..]);
      assert InvertBody(body)[1..] == InvertBody(body[1..]);
    }
  }

  lemma {:induction false} UnpatchCovers(a: seq<Line>, b: seq<Line>, gs: seq<seq<Op>>, i: nat, j: nat)
    requires i <= |a| && j <= |b| && [] !in gs && Covers(a, b, gs, i, j)
    ensures Patch(b, Invert(HunksOf(a, b, gs)), j) == Some(a[i..])
    decreases |gs|
  {
    if gs == [] {
      SameSlices(a, i, |a|, b, j, |b|);
      assert a[i..] == a[i..|a|] && b[j..] == b[j..|b|];
    } else {
      HunkSides(a, b, gs, i, j);
      var h := HunkOf(a, b, gs[0]);
      UnpatchCovers(a, b, gs[1..], h.oldStop, h.newStop);
      SidesOfInverse(h.body);
      var hs := HunksOf(a, b, gs);
      assert hs[0] == h && hs[1..] == HunksOf(a, b, gs[1..]);
      assert Invert(hs)[1..] == Invert(hs[1..]);
      SliceJoin3(a, i, h.oldStart, h.oldStop);
    }
  }

  /** The diff is sound both ways: patching the golden lines gives the current lines,
      and the reverse diff takes them back. */
  lemma DiffRoundTrip(a: seq<Line>, b: seq<Line>)
    ensures Patch(a, Hunks(a, b), 0) == Some(b)
    ensures Patch(b, Invert(Hunks(a, b)), 0) == Some(a)
  {
    GroupsOfLists(a, b, CONTEXT);
    PatchCovers(a, b, Groups(a, b, CONTEXT), 0, 0);
    UnpatchCovers(a, b, Groups(a, b, CONTEXT), 0, 0);
    assert a[0..] == a && b[0..] == b;
  }

  // ----------------------------------------------------------- equal lists

  /** Run lengths inside one list are largest on the diagonal. */
  lemma {:induction false} DiagonalRuns(a: seq<Line>, i: int, j: int)
    requires i < |a| && j < |a|
    ensures RunLength(a, a, 0, 0, i, j) <= RunLength(a, a, 0, 0, i, i)
    ensures RunLength(a, a, 0, 0, i, j) <= RunLength(a, a, 0, 0, j, j)
    decreases i
  {
    hide Popular, Same;
    if i >= 0 && j >= 0 { DiagonalRuns(a, i - 1, j - 1); }
  }

  /** Scanning a list against itself never leaves the diagonal. */
  lemma {:induction false} ScanDiagonal(a: seq<Line>, i: nat, j: nat, best: Block)
    requires i <= |a| && j <= |a| && Matches(a, a, 0, |a|, 0, |a|, best)
    requires best.a == best.b
    requires forall r :: 0 <= r < i ==> RunLength(a, a, 0, 0, r, r) <= best.size
    requires i < j ==> RunLength(a, a, 0, 0, i, i) <= best.size
    ensures var m := Scan(a, a, 0, |a|, 0, |a|, i, j, best); m.a == m.b
    decreases |a| - i, |a| - j
  {
    hide RunLength, Popular, Same;
    if i < |a| {
      if j >= |a| {
        ScanDiagonal(a, i + 1, 0, best);
      } else {
        DiagonalRuns(a, i, j);
        var k := RunLength(a, a, 0, 0, i, j);
        ScanDiagonal(a, i, j + 1, if k > best.size then Block(i - k + 1, j - k + 1, k) else best);
      }
    }
  }

  lemma GrowBack(a: seq<Line>, m: Block)
    requires Matches(a, a, 0, |a|, 0, |a|, m) && m.a == m.b > 0
    ensures Matches(a, a, 0, |a|, 0, |a|, Block(m.a - 1, m.b - 1, m.size + 1))
  {
  }

  lemma {:induction false} ExtendBackDiagonal(a: seq<Line>, m: Block)
    requires Matches(a, a, 0, |a|, 0, |a|, m) && m.a == m.b
    ensures var r := ExtendBack(a, a, 0, |a|, 0, |a|, m); r.a == 0 && r.b == 0
    decreases m.a
  {
    hide Same;
    if m.a > 0 {
      GrowBack(a, m);
      ExtendBackDiagonal(a, Block(m.a - 1, m.b - 1, m.size + 1));
    }
  }

  lemma {:induction false} ExtendForwardDiagonal(a: seq<Line>, m: Block)
    requires Matches(a, a, 0, |a|, 0, |a|, m) && m.a == 0 && m.b == 0
    ensures ExtendForward(a, a, 0, |a|, 0, |a|, m) == Block(0, 0, |a|)
    decreases |a| - m.size
  {
    if m.size < |a| {
      ExtendForwardDiagonal(a, m.(size := m.size + 1));
    }
  }

  /** A list matches itself in one block, whatever lines the heuristic drops. */
  lemma SelfMatch(a: seq<Line>)
    ensures LongestMatch(a, a, 0, |a|, 0, |a|) == Block(0, 0, |a|)
  {
    ScanDiagonal(a, 0, 0, Block(0, 0, 0));
    var best := Scan(a, a, 0, |a|, 0, |a|, 0, 0, Block(0, 0, 0));
    ExtendBackDiagonal(a, best);
    ExtendForwardDiagonal(a, ExtendBack(a, a, 0, |a|, 0, |a|, best));
  }

  lemma SelfBlocks(a: seq<Line>)
    requires a != []
    ensures Opcodes(a, a) == [Op(Equal, 0, |a|, 0, |a|)]
  {
    hide LongestMatch;
    SelfMatch(a);
    var n := |a|;
    var all, end := Block(0, 0, n), Block(n, n, 0);
    assert MatchingBlocks(a, a, 0, n, 0, n) == [all];
    SingletonTail(all);
    assert Blocks(a, a) == Collapse(all, [], n, n) == [all, end];
    SingletonTail(end);
    assert [all, end][1..] == [end];
    assert OpcodesFrom([end], n, n) == OpcodesFrom([], n, n) == [];
  }

  lemma SelfDiff(a: seq<Line>)
    ensures Hunks(a, a) == []
  {
    hide Opcodes;
    var n := |a|;
    OpcodesOfLists(a, a);
    if n == 0 {
      assert Opcodes(a, a) == [] by { EmptyDiff(a); }
      NoGroups(CONTEXT);
    } else {
      SelfBlocks(a);
      var c := Op(Equal, 0, n, 0, n);
      var s := Max(0, n - CONTEXT);
      var t := Min(n, s + CONTEXT);
      var d := Op(Equal, s, t, s, t);
      assert TrimFirst([c], CONTEXT) == [Op(Equal, s, n, s, n)];
      assert TrimLast(TrimFirst([c], CONTEXT), CONTEXT) == [d];
      SingletonTail(d);
      EmptyConcat([d]);
      assert GroupFrom([d], CONTEXT, []) == GroupFrom([], CONTEXT, [d]) == [];
    }
  }

  lemma {:induction false} EmptyMatch(a: seq<Line>)
    requires a == []
    ensures MatchingBlocks(a, a, 0, |a|, 0, |a|) == []
  {
    hide LongestMatch;
    SelfMatch(a);
  }

  lemma {:induction false} EmptyDiff(a: seq<Line>)
    requires a == []
    ensures Opcodes(a, a) == []
  {
    EmptyMatch(a);
    hide MatchingBlocks;
    var end := Block(0, 0, 0);
    assert Blocks(a, a) == [end];
    hide Blocks, Collapse;
    SingletonTail(end);
    assert OpcodesFrom([], 0, 0) == [];
    assert OpcodesFrom([end], 0, 0) == [];
  }

  /** No hunks exactly when the lists are equal. */
  lemma HunksDecideEquality(a: seq<Line>, b: seq<Line>)
    ensures Hunks(a, b) == [] <==> a == b
  {
    DiffRoundTrip(a, b);
    SelfDiff(a);
    assert a[0..] == a;
  }

  /** The drift verdict is about the text: the diff of the split configs has a line
      exactly when the two strings differ. */
  lemma VerdictIsTextual(golden: string, current: string, fromFile: string, toFile: string)
    ensures UnifiedDiff(Text.SplitKeep(golden), Text.SplitKeep(current), fromFile, toFile) != []
            <==> golden != current
  {
    HunksDecideEquality(Text.SplitKeep(golden), Text.SplitKeep(current));
    Text.SplitKeepInjective(golden, current);
  }
}
