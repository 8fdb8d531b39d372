/** What the matcher finds: the longest common runs, the first of them, and nothing in common left
    between two matches. */
module DiffMatches {
  import opened Difflib
  import opened DiffProofs
  import opened Sequences

  /** None of the block's lines is too frequent to be indexed. */
  ghost predicate Clean(b: seq<Line>, m: Block)
    requires m.b + m.size <= |b|
  {
    forall t :: m.b <= t < m.b + m.size ==> !Popular(b, b[t])
  }

  /** A common run of indexed lines. */
  ghost predicate CleanMatch(a: seq<Line>, b: seq<Line>, alo: nat, ahi: nat, blo: nat, bhi: nat, m: Block) {
    Matches(a, b, alo, ahi, blo, bhi, m) && Clean(b, m)
  }

  /** `x` starts earlier in `a`, or at the same place in `a` and earlier in `b`. */
  predicate Earlier(x: Block, y: Block) {
    x.a < y.a || (x.a == y.a && x.b < y.b)
  }

  /** No clean run is longer than `best`, and no equally long one starts earlier. */
  ghost predicate First(best: Block, m: Block) {
    m.size <= best.size && (m.size == best.size > 0 ==> !Earlier(m, best))
  }

  /** The run ends in a row above `i`, or in row `i` left of column `j`. */
  predicate EndsBefore(m: Block, i: nat, j: nat) {
    m.a + m.size <= i || (m.a + m.size == i + 1 && m.b + m.size <= j)
  }

  // --------------------------------------------------------------- popular

  function Places(b: seq<Line>, x: Line): set<nat> {
    set k: nat | k < |b| && b[k] == x
  }

  lemma {:induction false} CountIsPlaces(b: seq<Line>, x: Line)
    ensures Count(b, x) == |Places(b, x)|
  {
    if b == [] {
      assert Places(b, x) == {};
    } else {
      CountIsPlaces(b[1..], x);
      var shifted := set k | k in Places(b[1..], x) :: k + 1;
      SameSize(Places(b[1..], x), shifted);
      forall k: nat | k in Places(b, x) && k > 0
        ensures k in shifted
      {
        assert k - 1 in Places(b[1..], x);
      }
      assert Places(b, x) == shifted + if b[0] == x then {0} else {};
    }
  }

  lemma {:induction false} SameSize(s: set<nat>, shifted: set<nat>)
    requires shifted == set k | k in s :: k + 1
    ensures |shifted| == |s|
    decreases |s|
  {
    if s != {} {
      var x :| x in s;
      var rest := set k | k in s - {x} :: k + 1;
      SameSize(s - {x}, rest);
      forall k | k in shifted && k != x + 1
        ensures k in rest
      {
        assert k - 1 in s - {x};
      }
      assert shifted == rest + {x + 1};
    }
  }

  /** A line is left out of the index exactly when the list has at least 200 lines and more than one in a
      hundred of them, and one, are that line. */
  lemma {:induction false} PopularExactly(b: seq<Line>, x: Line)
    ensures Popular(b, x) <==> |b| >= 200 && |set k: nat | k < |b| && b[k] == x| > |b| / 100 + 1
  {
    CountIsPlaces(b, x);
    assert Places(b, x) == set k: nat | k < |b| && b[k] == x;
  }

  // ------------------------------------------------------------------ runs

  lemma {:induction false} RunIsClean(a: seq<Line>, b: seq<Line>, alo: nat, blo: nat, i: int, j: int)
    requires i < |a| && j < |b|
    ensures var k := RunLength(a, b, alo, blo, i, j);
            forall t :: j - k < t <= j && t >= 0 ==> !Popular(b, b[t])
    decreases if i >= alo then i - alo + 1 else 0
  {
    hide Popular;
    if RunLength(a, b, alo, blo, i, j) > 0 { RunIsClean(a, b, alo, blo, i - 1, j - 1); }
  }

  lemma {:induction false} RunIsLongest(a: seq<Line>, b: seq<Line>, alo: nat, ahi: nat, blo: nat, bhi: nat, m: Block)
    requires CleanMatch(a, b, alo, ahi, blo, bhi, m) && m.size > 0
    ensures m.size <= RunLength(a, b, alo, blo, m.a + m.size - 1, m.b + m.size - 1)
    decreases m.size
  {
    hide Popular;
    var i, j := m.a + m.size - 1, m.b + m.size - 1;
    assert a[i] == b[j] && !Popular(b, b[j]);
    if m.size > 1 { RunIsLongest(a, b, alo, ahi, blo, bhi, m.(size := m.size - 1)); }
  }

  // ------------------------------------------------------------------ scan

  /** `best` is the first longest of the clean runs scanned so far. */
  ghost predicate Leads(a: seq<Line>, b: seq<Line>, alo: nat, ahi: nat, blo: nat, bhi: nat, i: nat, j: nat,
      best: Block) {
    && CleanMatch(a, b, alo, ahi, blo, bhi, best)
    && (if best.size == 0 then best == Block(alo, blo, 0) else EndsBefore(best, i, j))
    && forall m :: CleanMatch(a, b, alo, ahi, blo, bhi, m) && EndsBefore(m, i, j) ==> First(best, m)
  }

  lemma {:induction false} StepLeads(a: seq<Line>, b: seq<Line>, alo: nat, ahi: nat, blo: nat, bhi: nat, i: nat,
      j: nat, best: Block)
    requires Window(a, b, alo, ahi, blo, bhi) && alo <= i < ahi && blo <= j < bhi
    requires Leads(a, b, alo, ahi, blo, bhi, i, j, best)
    ensures var k := RunLength(a, b, alo, blo, i, j);
            Leads(a, b, alo, ahi, blo, bhi, i, j + 1, if k > best.size then Block(i - k + 1, j - k + 1, k) else best)
  {
    hide Popular, Same;
    var k := RunLength(a, b, alo, blo, i, j);
    var better := if k > best.size then Block(i - k + 1, j - k + 1, k) else best;
    RunIsClean(a, b, alo, blo, i, j);
    forall m | CleanMatch(a, b, alo, ahi, blo, bhi, m) && EndsBefore(m, i, j + 1)
      ensures First(better, m)
    {
      if EndsBefore(m, i, j) {
        assert First(best, m);
      } else if m.size > 0 {
        RunIsLongest(a, b, alo, ahi, blo, bhi, m);
      }
    }
  }

  lemma {:induction false} ScanLeads(a: seq<Line>, b: seq<Line>, alo: nat, ahi: nat, blo: nat, bhi: nat,
                                     i: nat, j: nat, best: Block)
    requires Window(a, b, alo, ahi, blo, bhi) && alo <= i <= ahi && blo <= j <= bhi
    requires Leads(a, b, alo, ahi, blo, bhi, i, j, best)
    ensures Leads(a, b, alo, ahi, blo, bhi, ahi, blo, Scan(a, b, alo, ahi, blo, bhi, i, j, best))
    decreases ahi - i, bhi - j
  {
    if i < ahi {
      if j >= bhi {
        hide Same, Clean, RunLength;
        ScanLeads(a, b, alo, ahi, blo, bhi, i + 1, blo, best);
      } else {
        hide Leads, RunLength;
        StepLeads(a, b, alo, ahi, blo, bhi, i, j, best);
        var k := RunLength(a, b, alo, blo, i, j);
        ScanLeads(a, b, alo, ahi, blo, bhi, i, j + 1, if k > best.size then Block(i - k + 1, j - k + 1, k) else best);
      }
    } else {
      hide Same, Clean;
    }
  }

  // -------------------------------------------------------------- extension

  /** No equal line stands directly before the block, or directly after it, inside the window. */
  predicate Closed(a: seq<Line>, b: seq<Line>, alo: nat, ahi: nat, blo: nat, bhi: nat, m: Block)
    requires Window(a, b, alo, ahi, blo, bhi) && m.a + m.size <= ahi && m.b + m.size <= bhi
  {
    && (m.a > alo && m.b > blo ==> a[m.a - 1] != b[m.b - 1])
    && (m.a + m.size < ahi && m.b + m.size < bhi ==> a[m.a + m.size] != b[m.b + m.size])
  }

  /** `outer` continues `inner` on both sides along the same diagonal. */
  predicate Around(outer: Block, inner: Block) {
    && outer.a <= inner.a && outer.b <= inner.b && inner.a - outer.a == inner.b - outer.b
    && inner.a + inner.size <= outer.a + outer.size
  }

  lemma {:induction false} BackCloses(a: seq<Line>, b: seq<Line>, alo: nat, ahi: nat, blo: nat, bhi: nat, m: Block)
    requires Matches(a, b, alo, ahi, blo, bhi, m)
    ensures var r := ExtendBack(a, b, alo, ahi, blo, bhi, m);
            && Around(r, m) && r.a + r.size == m.a + m.size
            && (r.a > alo && r.b > blo ==> a[r.a - 1] != b[r.b - 1])
    decreases m.a
  {
    if m.a > alo && m.b > blo && a[m.a - 1] == b[m.b - 1] {
      BackCloses(a, b, alo, ahi, blo, bhi, Block(m.a - 1, m.b - 1, m.size + 1));
    }
  }

  lemma {:induction false} ForwardCloses(a: seq<Line>, b: seq<Line>, alo: nat, ahi: nat, blo: nat, bhi: nat, m: Block)
    requires Matches(a, b, alo, ahi, blo, bhi, m)
    ensures var r := ExtendForward(a, b, alo, ahi, blo, bhi, m);
            && r.a == m.a && r.b == m.b && r.size >= m.size
            && (r.a + r.size < ahi && r.b + r.size < bhi ==> a[r.a + r.size] != b[r.b + r.size])
    decreases ahi - m.a - m.size
  {
    if m.a + m.size < ahi && m.b + m.size < bhi && a[m.a + m.size] == b[m.b + m.size] {
      ForwardCloses(a, b, alo, ahi, blo, bhi, m.(size := m.size + 1));
    }
  }

  lemma {:induction false} StartLeads(a: seq<Line>, b: seq<Line>, alo: nat, ahi: nat, blo: nat, bhi: nat)
    requires Window(a, b, alo, ahi, blo, bhi)
    ensures Leads(a, b, alo, ahi, blo, bhi, alo, blo, Block(alo, blo, 0))
  {
    forall m | CleanMatch(a, b, alo, ahi, blo, bhi, m) && EndsBefore(m, alo, blo)
      ensures First(Block(alo, blo, 0), m)
    {
    }
  }

  /** What one search finds, popular lines or not: the first longest run of indexed lines, continued over
      equal lines on both sides as far as the window allows. */
  lemma {:induction false} LongestMatchExactly(a: seq<Line>, b: seq<Line>, alo: nat, ahi: nat, blo: nat, bhi: nat)
    returns (core: Block)
    requires Window(a, b, alo, ahi, blo, bhi)
    ensures CleanMatch(a, b, alo, ahi, blo, bhi, core)
    ensures forall m :: CleanMatch(a, b, alo, ahi, blo, bhi, m) ==> First(core, m)
    ensures core.size == 0 ==> core == Block(alo, blo, 0)
    ensures var r := LongestMatch(a, b, alo, ahi, blo, bhi);
            Around(r, core) && Closed(a, b, alo, ahi, blo, bhi, r)
  {
    var start := Block(alo, blo, 0);
    StartLeads(a, b, alo, ahi, blo, bhi);
    ScanLeads(a, b, alo, ahi, blo, bhi, alo, blo, start);
    core := Scan(a, b, alo, ahi, blo, bhi, alo, blo, start);
    hide Same, Clean, RunLength, First;
    var back := ExtendBack(a, b, alo, ahi, blo, bhi, core);
    BackCloses(a, b, alo, ahi, blo, bhi, core);
    ForwardCloses(a, b, alo, ahi, blo, bhi, back);
    forall m | CleanMatch(a, b, alo, ahi, blo, bhi, m)
      ensures First(core, m)
    {
      assert EndsBefore(m, ahi, blo);
    }
  }

  /** No run of indexed lines is longer than what the search finds; and if no line is popular, no equally long
      run starts earlier in `a`, or at the same place in `a` and earlier in `b`. */
  lemma {:induction false} LongestIsLongest(a: seq<Line>, b: seq<Line>, alo: nat, ahi: nat, blo: nat, bhi: nat,
      m: Block)
    requires CleanMatch(a, b, alo, ahi, blo, bhi, m)
    ensures var r := LongestMatch(a, b, alo, ahi, blo, bhi);
            && m.size <= r.size
            && ((forall x :: x in b ==> !Popular(b, x)) && m.size == r.size > 0 ==> !Earlier(m, r))
  {
    hide LongestMatch, Same, Popular;
    var core := LongestMatchExactly(a, b, alo, ahi, blo, bhi);
    var r := LongestMatch(a, b, alo, ahi, blo, bhi);
    assert First(core, m);
    if forall x :: x in b ==> !Popular(b, x) {
      assert CleanMatch(a, b, alo, ahi, blo, bhi, r);
      assert First(core, r);
    }
  }

  // ------------------------------------------- nothing in common in between

  /** Every line the two ranges share is popular. */
  ghost predicate NothingShared(a: seq<Line>, b: seq<Line>, i: nat, k: nat, j: nat, l: nat) {
    && i <= k <= |a| && j <= l <= |b|
    && forall x, y :: i <= x < k && j <= y < l && a[x] == b[y] ==> Popular(b, b[y])
  }

  /** Between consecutive blocks, before the first and after the last, nothing is shared. */
  ghost predicate Exhausted(a: seq<Line>, b: seq<Line>, i: nat, k: nat, j: nat, l: nat, ms: seq<Block>)
    decreases |ms|
  {
    if ms == [] then NothingShared(a, b, i, k, j, l)
    else
      && NothingShared(a, b, i, ms[0].a, j, ms[0].b)
      && Exhausted(a, b, ms[0].a + ms[0].size, k, ms[0].b + ms[0].size, l, ms[1..])
  }

  lemma {:induction false} NoMatchNothingShared(a: seq<Line>, b: seq<Line>, alo: nat, ahi: nat, blo: nat, bhi: nat)
    requires Window(a, b, alo, ahi, blo, bhi) && LongestMatch(a, b, alo, ahi, blo, bhi).size == 0
    ensures NothingShared(a, b, alo, ahi, blo, bhi)
  {
    hide LongestMatch, Popular;
    forall x, y | alo <= x < ahi && blo <= y < bhi && a[x] == b[y]
      ensures Popular(b, b[y])
    {
      if !Popular(b, b[y]) { LongestIsLongest(a, b, alo, ahi, blo, bhi, Block(x, y, 1)); }
    }
  }

  lemma {:induction false} ExhaustedConcat(a: seq<Line>, b: seq<Line>, i: nat, k: nat, j: nat, l: nat,
                                           left: seq<Block>, m: Block, right: seq<Block>)
    requires Exhausted(a, b, i, m.a, j, m.b, left) && Exhausted(a, b, m.a + m.size, k, m.b + m.size, l, right)
    ensures Exhausted(a, b, i, k, j, l, left + [m] + right)
    decreases |left|
  {
    hide NothingShared;
    var all := left + [m] + right;
    if left == [] {
      assert all == [m] + right;
      assert all[1..] == right;
    } else {
      assert all[1..] == left[1..] + [m] + right;
      var f := left[0];
      ExhaustedConcat(a, b, f.a + f.size, k, f.b + f.size, l, left[1..], m, right);
    }
  }

  lemma {:induction false} MatchingBlocksExhaust(a: seq<Line>, b: seq<Line>, alo: nat, ahi: nat, blo: nat, bhi: nat)
    requires Window(a, b, alo, ahi, blo, bhi)
    ensures Exhausted(a, b, alo, ahi, blo, bhi, MatchingBlocks(a, b, alo, ahi, blo, bhi))
    decreases ahi - alo
  {
    hide LongestMatch, Popular, Same;
    var m := LongestMatch(a, b, alo, ahi, blo, bhi);
    if m.size == 0 {
      NoMatchNothingShared(a, b, alo, ahi, blo, bhi);
    } else {
      var left, right: seq<Block> := [], [];
      if alo < m.a && blo < m.b {
        left := MatchingBlocks(a, b, alo, m.a, blo, m.b);
        MatchingBlocksExhaust(a, b, alo, m.a, blo, m.b);
      }
      if m.a + m.size < ahi && m.b + m.size < bhi {
        right := MatchingBlocks(a, b, m.a + m.size, ahi, m.b + m.size, bhi);
        MatchingBlocksExhaust(a, b, m.a + m.size, ahi, m.b + m.size, bhi);
      }
      ExhaustedConcat(a, b, alo, ahi, blo, bhi, left, m, right);
    }
  }

  lemma {:induction false} MatchesAreFull(a: seq<Line>, b: seq<Line>, alo: nat, ahi: nat, blo: nat, bhi: nat)
    requires Window(a, b, alo, ahi, blo, bhi)
    ensures AllFull(MatchingBlocks(a, b, alo, ahi, blo, bhi))
    decreases ahi - alo
  {
    hide LongestMatch, Same, AllFull;
    var m := LongestMatch(a, b, alo, ahi, blo, bhi);
    NoneFull();
    if m.size > 0 {
      var left, right: seq<Block> := [], [];
      if alo < m.a && blo < m.b {
        left := MatchingBlocks(a, b, alo, m.a, blo, m.b);
        MatchesAreFull(a, b, alo, m.a, blo, m.b);
      }
      if m.a + m.size < ahi && m.b + m.size < bhi {
        right := MatchingBlocks(a, b, m.a + m.size, ahi, m.b + m.size, bhi);
        MatchesAreFull(a, b, m.a + m.size, ahi, m.b + m.size, bhi);
      }
      FullConcat(left, m, right);
    }
  }

  predicate AllFull(ms: seq<Block>) {
    forall k :: 0 <= k < |ms| ==> ms[k].size > 0
  }

  lemma NoneFull()
    ensures AllFull([])
  {
  }

  lemma FullConcat(left: seq<Block>, m: Block, right: seq<Block>)
    requires AllFull(left) && m.size > 0 && AllFull(right)
    ensures AllFull(left + [m] + right)
  {
  }

  // -------------------------------------------------------- the edit script

  /** Blocks in order, none empty but the last, none touching the next but the last two. */
  ghost predicate Tidy(bs: seq<Block>, i: nat, j: nat)
    decreases |bs|
  {
    && bs != [] && i <= bs[0].a && j <= bs[0].b
    && if |bs| == 1 then bs[0].size == 0
       else
         && bs[0].size > 0
         && (|bs| > 2 ==> bs[1].a != bs[0].a + bs[0].size || bs[1].b != bs[0].b + bs[0].size)
         && Tidy(bs[1..], bs[0].a + bs[0].size, bs[0].b + bs[0].size)
  }

  lemma {:induction false} LastShape(a: seq<Line>, b: seq<Line>, cur: Block, i: nat, j: nat)
    requires i <= cur.a && j <= cur.b && cur.a + cur.size <= |a| && cur.b + cur.size <= |b|
    requires cur.size == 0 ==> cur.a == i && cur.b == j
    requires NothingShared(a, b, i, cur.a, j, cur.b)
    requires NothingShared(a, b, cur.a + cur.size, |a|, cur.b + cur.size, |b|)
    ensures var bs := Emit(cur, [Block(|a|, |b|, 0)]); Tidy(bs, i, j) && Exhausted(a, b, i, |a|, j, |b|, bs)
    ensures cur.size > 0 ==> Emit(cur, [Block(|a|, |b|, 0)])[0] == cur
  {
    hide Popular;
    var end := Block(|a|, |b|, 0);
    SingletonTail(end);
    assert [cur, end][1..] == [end];
    assert Exhausted(a, b, |a|, |a|, |b|, |b|, []);
    hide NothingShared;
    assert Exhausted(a, b, cur.a + cur.size, |a|, cur.b + cur.size, |b|, [end]);
  }

  lemma {:induction false} EmitShape(a: seq<Line>, b: seq<Line>, cur: Block, rest: seq<Block>, i: nat, j: nat)
    requires i <= cur.a && j <= cur.b
    requires cur.size == 0 ==> cur.a == i && cur.b == j
    requires NothingShared(a, b, i, cur.a, j, cur.b)
    requires Tidy(rest, cur.a + cur.size, cur.b + cur.size)
    requires Exhausted(a, b, cur.a + cur.size, |a|, cur.b + cur.size, |b|, rest)
    requires rest[0].a != cur.a + cur.size || rest[0].b != cur.b + cur.size
    ensures Tidy(Emit(cur, rest), i, j) && Exhausted(a, b, i, |a|, j, |b|, Emit(cur, rest))
    ensures cur.size > 0 ==> Emit(cur, rest)[0] == cur
  {
    hide NothingShared;
    if cur.size > 0 { assert ([cur] + rest)[1..] == rest; }
  }

  lemma {:induction false} CollapseShape(a: seq<Line>, b: seq<Line>, cur: Block, ms: seq<Block>, i: nat, j: nat)
    requires i <= cur.a && j <= cur.b && cur.a + cur.size <= |a| && cur.b + cur.size <= |b|
    requires cur.size == 0 ==> cur.a == i && cur.b == j
    requires Chain(a, b, cur.a + cur.size, |a|, cur.b + cur.size, |b|, ms)
    requires forall k :: 0 <= k < |ms| ==> ms[k].size > 0
    requires NothingShared(a, b, i, cur.a, j, cur.b)
    requires Exhausted(a, b, cur.a + cur.size, |a|, cur.b + cur.size, |b|, ms)
    ensures var bs := Collapse(cur, ms, |a|, |b|);
            && Tidy(bs, i, j) && Exhausted(a, b, i, |a|, j, |b|, bs)
            && (cur.size > 0 ==> bs[0].a == cur.a && bs[0].b == cur.b)
    decreases |ms|
  {
    hide Same, NothingShared, Emit;
    if ms == [] {
      LastShape(a, b, cur, i, j);
    } else if cur.a + cur.size == ms[0].a && cur.b + cur.size == ms[0].b {
      CollapseShape(a, b, cur.(size := cur.size + ms[0].size), ms[1..], i, j);
    } else {
      hide NothingShared, Tidy;
      CollapseShape(a, b, ms[0], ms[1..], cur.a + cur.size, cur.b + cur.size);
      hide Chain, Exhausted;
      EmitShape(a, b, cur, Collapse(ms[0], ms[1..], |a|, |b|), i, j);
    }
  }

  lemma {:induction false} CollapseKeeps(cur: Block, ms: seq<Block>, la: nat, lb: nat, m: Block) returns (k: nat)
    requires m.size > 0 && (Around(cur, m) || m in ms)
    ensures var bs := Collapse(cur, ms, la, lb); k < |bs| && Around(bs[k], m)
    decreases |ms|
  {
    if ms == [] {
      k := 0;
    } else if cur.a + cur.size == ms[0].a && cur.b + cur.size == ms[0].b {
      assert m == ms[0] ==> Around(cur.(size := cur.size + ms[0].size), m);
      k := CollapseKeeps(cur.(size := cur.size + ms[0].size), ms[1..], la, lb, m);
    } else if Around(cur, m) {
      k := 0;
    } else {
      k := CollapseKeeps(ms[0], ms[1..], la, lb, m);
      if cur.size > 0 { k := k + 1; }
    }
  }

  /** An operation with the lines its tag calls for; a replacement shares nothing but popular lines. */
  ghost predicate Exact(a: seq<Line>, b: seq<Line>, c: Op) {
    match c.tag
    case Equal => c.i1 < c.i2
    case Delete => c.i1 < c.i2 && c.j1 == c.j2
    case Insert => c.i1 == c.i2 && c.j1 < c.j2
    case Replace => c.i1 < c.i2 && c.j1 < c.j2 && NothingShared(a, b, c.i1, c.i2, c.j1, c.j2)
  }

  /** Changes and equal stretches take turns. */
  ghost predicate Alternating(ops: seq<Op>) {
    forall k :: 0 <= k < |ops| - 1 ==> (ops[k].tag == Equal <==> ops[k + 1].tag != Equal)
  }

  ghost predicate ScriptShape(a: seq<Line>, b: seq<Line>, ops: seq<Op>) {
    Alternating(ops) && forall k :: 0 <= k < |ops| ==> Exact(a, b, ops[k])
  }

  lemma PrependShape(a: seq<Line>, b: seq<Line>, c: Op, ops: seq<Op>)
    requires Exact(a, b, c) && ScriptShape(a, b, ops)
    requires ops != [] ==> (c.tag == Equal <==> ops[0].tag != Equal)
    ensures ScriptShape(a, b, [c] + ops)
  {
    hide Exact;
    var all := [c] + ops;
    assert forall k :: 0 < k < |all| ==> all[k] == ops[k - 1];
  }

  lemma {:induction false} GapShape(a: seq<Line>, b: seq<Line>, m: Block, i: nat, j: nat, ops: seq<Op>)
    requires i <= m.a && j <= m.b && NothingShared(a, b, i, m.a, j, m.b)
    requires ScriptShape(a, b, ops) && (ops != [] ==> ops[0].tag == Equal)
    ensures var all := GapOps(m, i, j) + ops;
            && ScriptShape(a, b, all)
            && (all != [] ==> (all[0].tag == Equal <==> m.a == i && m.b == j))
  {
    hide NothingShared, ScriptShape;
    var gap := GapOps(m, i, j);
    if gap != [] {
      assert gap == [gap[0]];
      PrependShape(a, b, gap[0], ops);
    } else {
      EmptyConcat(ops);
    }
  }

  lemma {:induction false} OpcodesShape(a: seq<Line>, b: seq<Line>, bs: seq<Block>, i: nat, j: nat)
    requires Tidy(bs, i, j) && Exhausted(a, b, i, |a|, j, |b|, bs)
    ensures var ops := OpcodesFrom(bs, i, j);
            && ScriptShape(a, b, ops)
            && (ops != [] ==> (ops[0].tag == Equal <==> bs[0].a == i && bs[0].b == j))
            && (|bs| == 1 && ops != [] ==> ops[0].tag != Equal)
    decreases |bs|
  {
    hide NothingShared, ScriptShape, GapOps;
    var m := bs[0];
    var k, l := m.a + m.size, m.b + m.size;
    EmptyShape(a, b);
    if |bs| == 1 {
      assert bs[1..] == [] && OpcodesFrom([], k, l) == [];
      GapShape(a, b, m, i, j, []);
      LastGap(m, i, j);
    } else {
      OpcodesShape(a, b, bs[1..], k, l);
      var rest := OpcodesFrom(bs[1..], k, l);
      assert rest != [] ==> rest[0].tag != Equal;
      hide OpcodesFrom, Tidy, Exhausted;
      var body := Op(Equal, m.a, k, m.b, l);
      PrependShape(a, b, body, rest);
      GapShape(a, b, m, i, j, [body] + rest);
    }
  }

  lemma EmptyShape(a: seq<Line>, b: seq<Line>)
    ensures ScriptShape(a, b, [])
  {
  }

  lemma LastGap(m: Block, i: nat, j: nat)
    ensures forall k :: 0 <= k < |GapOps(m, i, j)| ==> GapOps(m, i, j)[k].tag != Equal
  {
  }

  /** The edit script of two lists: changes and equal stretches take turns, each operation has the lines its
      tag calls for, and what a replacement removes shares no indexed line with what it adds. */
  lemma {:induction false} ScriptIsTidy(a: seq<Line>, b: seq<Line>)
    ensures ScriptShape(a, b, Opcodes(a, b))
  {
    hide LongestMatch, MatchingBlocks, NothingShared, Exhausted, Tidy, Collapse, OpcodesFrom, ScriptShape, Chain;
    MatchingBlocksChain(a, b, 0, |a|, 0, |b|);
    MatchingBlocksExhaust(a, b, 0, |a|, 0, |b|);
    MatchesAreFull(a, b, 0, |a|, 0, |b|);
    NothingBefore(a, b);
    CollapseShape(a, b, Block(0, 0, 0), MatchingBlocks(a, b, 0, |a|, 0, |b|), 0, 0);
    OpcodesShape(a, b, Blocks(a, b), 0, 0);
  }

  lemma NothingBefore(a: seq<Line>, b: seq<Line>)
    ensures NothingShared(a, b, 0, 0, 0, 0)
  {
  }

  lemma OpcodesStep(bs: seq<Block>, i: nat, j: nat)
    requires bs != []
    ensures var m := bs[0];
            OpcodesFrom(bs, i, j)
            == GapOps(m, i, j) + (BlockOps(m) + OpcodesFrom(bs[1..], m.a + m.size, m.b + m.size))
  {
    hide GapOps, BlockOps;
  }

  lemma {:induction false} BlockBecomesEqual(bs: seq<Block>, i: nat, j: nat, k: nat) returns (x: nat)
    requires k < |bs| && bs[k].size > 0
    ensures var ops, m := OpcodesFrom(bs, i, j), bs[k];
            x < |ops| && ops[x] == Op(Equal, m.a, m.a + m.size, m.b, m.b + m.size)
    decreases |bs|
  {
    hide OpcodesFrom, GapOps;
    var m := bs[0];
    var gap, body, rest := GapOps(m, i, j), BlockOps(m), OpcodesFrom(bs[1..], m.a + m.size, m.b + m.size);
    OpcodesStep(bs, i, j);
    if k == 0 {
      x := |gap| + 0;
      assert (body + rest)[0] == body[0];
      AtConcat(gap, body + rest, 0);
    } else {
      hide BlockOps;
      var y := BlockBecomesEqual(bs[1..], m.a + m.size, m.b + m.size, k - 1);
      x := |gap| + (|body| + y);
      AtConcat(body, rest, y);
      AtConcat(gap, body + rest, |body| + y);
    }
  }

  /** The longest common run of the two lists stands unchanged in one equal stretch of the script, which is
      therefore at least as long as every run of indexed lines that the lists share. */
  lemma {:induction false} LongestRunIsKept(a: seq<Line>, b: seq<Line>, m: Block) returns (x: nat)
    requires CleanMatch(a, b, 0, |a|, 0, |b|, m) && m.size > 0
    ensures x < |Opcodes(a, b)| && Opcodes(a, b)[x].tag == Equal
    ensures var c, r := Opcodes(a, b)[x], LongestMatch(a, b, 0, |a|, 0, |b|);
            && c.i1 <= r.a && r.a + r.size <= c.i2 && r.a - c.i1 == r.b - c.j1
            && m.size <= c.i2 - c.i1
  {
    hide LongestMatch, CleanMatch, Matches, Collapse, OpcodesFrom;
    LongestIsLongest(a, b, 0, |a|, 0, |b|, m);
    var r := LongestMatch(a, b, 0, |a|, 0, |b|);
    var ms := MatchingBlocks(a, b, 0, |a|, 0, |b|);
    assert r in ms;
    var k := CollapseKeeps(Block(0, 0, 0), ms, |a|, |b|, r);
    x := BlockBecomesEqual(Blocks(a, b), 0, 0, k);
  }

  // ------------------------------------------------------ how much is shown

  /** The group opens at the start of both lists,
      or shows exactly `n` equal lines first (all there are, at the start). */
  ghost predicate OpensRight(c: Op, n: nat) {
    if c.tag == Equal then c.i2 - c.i1 == n || (c.i2 - c.i1 < n && c.i1 == 0 && c.j1 == 0) else c.i1 == 0 && c.j1 == 0
  }

  ghost predicate ClosesRight(a: seq<Line>, b: seq<Line>, c: Op, n: nat) {
    if c.tag == Equal then c.i2 - c.i1 == n || (c.i2 - c.i1 < n && c.i2 == |a| && c.j2 == |b|)
    else c.i2 == |a| && c.j2 == |b|
  }

  ghost predicate ExactGroup(a: seq<Line>, b: seq<Line>, g: seq<Op>, n: nat) {
    && g != [] && OpensRight(g[0], n) && ClosesRight(a, b, g[|g| - 1], n)
    && Alternating(g) && (exists k :: 0 <= k < |g| && g[k].tag != Equal)
    && forall k :: 0 <= k < |g| ==> ShortEqual(g[k], n + n)
  }

  /** Every group shows the context it should; between two groups some equal lines are left out. */
  ghost predicate ExactGroups(a: seq<Line>, b: seq<Line>, gs: seq<seq<Op>>, n: nat) {
    && (forall k :: 0 <= k < |gs| ==> ExactGroup(a, b, gs[k], n))
    && (forall k, l :: 0 <= k < l < |gs| && l == k + 1 ==> LeavesOut(gs[k], gs[l]))
  }

  predicate LeavesOut(g: seq<Op>, h: seq<Op>) {
    g != [] && h != [] && g[|g| - 1].i2 < h[0].i1
  }

  lemma {:induction false} CutGroup(a: seq<Line>, b: seq<Line>, group: seq<Op>, c: Op, n: nat)
    requires group != [] && OpensRight(group[0], n) && Alternating(group + [c]) && c.tag == Equal && c.i2 - c.i1 > n + n
    requires forall k :: 0 <= k < |group| ==> ShortEqual(group[k], n + n)
    ensures ExactGroup(a, b, group + [c.(i2 := Min(c.i2, c.i1 + n), j2 := Min(c.j2, c.j1 + n))], n)
  {
    var head := c.(i2 := Min(c.i2, c.i1 + n), j2 := Min(c.j2, c.j1 + n));
    var was, g := group + [c], group + [head];
    forall k | 0 <= k < |g| - 1
      ensures g[k].tag == Equal <==> g[k + 1].tag != Equal
    {
      assert was[k].tag == Equal <==> was[k + 1].tag != Equal;
      assert g[k].tag == was[k].tag && g[k + 1].tag == was[k + 1].tag;
    }
    var last := |group| - 1;
    assert was[last].tag == Equal <==> was[last + 1].tag != Equal;
    assert g[last].tag != Equal;
  }

  lemma {:induction false} LastGroup(a: seq<Line>, b: seq<Line>, group: seq<Op>, n: nat)
    requires Alternating(group) && forall k :: 0 <= k < |group| ==> ShortEqual(group[k], n + n)
    requires group != [] ==> OpensRight(group[0], n) && ClosesRight(a, b, group[|group| - 1], n)
    ensures ExactGroups(a, b, GroupFrom([], n, group), n)
  {
    if group != [] && !(|group| == 1 && group[0].tag == Equal) {
      if group[0].tag == Equal {
        assert group[0].tag == Equal <==> group[1].tag != Equal;
        assert group[1].tag != Equal;
      }
      assert ExactGroup(a, b, group, n);
    }
  }

  lemma {:induction false} FirstGroupStarts(ops: seq<Op>, n: nat, group: seq<Op>)
    requires group != [] && GroupFrom(ops, n, group) != []
    ensures GroupFrom(ops, n, group)[0] != [] && GroupFrom(ops, n, group)[0][0] == group[0]
    decreases |ops|
  {
    if ops != [] && !(ops[0].tag == Equal && ops[0].i2 - ops[0].i1 > n + n) {
      FirstGroupStarts(ops[1..], n, group + [ops[0]]);
    }
  }

  lemma {:induction false} GroupsExact(a: seq<Line>, b: seq<Line>, ops: seq<Op>, n: nat, group: seq<Op>)
    requires Alternating(group + ops) && forall k :: 0 <= k < |group| ==> ShortEqual(group[k], n + n)
    requires group + ops != [] ==>
               OpensRight((group + ops)[0], n) && ClosesRight(a, b, (group + ops)[|group + ops| - 1], n)
    ensures ExactGroups(a, b, GroupFrom(ops, n, group), n)
    decreases |ops|
  {
    hide ClosesRight, OpensRight;
    if ops == [] {
      EmptyConcat(group);
      LastGroup(a, b, group, n);
    } else {
      var c, more := ops[0], ops[1..];
      assert group + ops == (group + [c]) + more;
      if c.tag == Equal && c.i2 - c.i1 > n + n {
        var head := c.(i2 := Min(c.i2, c.i1 + n), j2 := Min(c.j2, c.j1 + n));
        var tail := c.(i1 := Max(c.i1, c.i2 - n), j1 := Max(c.j1, c.j2 - n));
        LongIsInside(a, b, group, c, more, n);
        CutOpens(c, n);
        hide ExactGroup, Alternating;
        PrefixAlternates(group + [c], more);
        CutGroup(a, b, group, c, n);
        TailAlternates(group, c, more, tail);
        SameLast(group + ops, group + [c], tail, more);
        GroupsExact(a, b, more, n, [tail]);
        if GroupFrom(more, n, [tail]) != [] { FirstGroupStarts(more, n, [tail]); }
        PrependGroup(a, b, group + [head], GroupFrom(more, n, [tail]), tail, n);
      } else {
        GroupsExact(a, b, more, n, group + [c]);
      }
    }
  }

  lemma SameLast(all: seq<Op>, before: seq<Op>, tail: Op, more: seq<Op>)
    requires all == before + more && more != []
    ensures ([tail] + more)[|[tail] + more| - 1] == all[|all| - 1]
  {
  }

  /** A stretch long enough to be cut is neither the first nor the last operation. */
  lemma LongIsInside(a: seq<Line>, b: seq<Line>, group: seq<Op>, c: Op, more: seq<Op>, n: nat)
    requires c.tag == Equal && c.i2 - c.i1 > n + n
    requires var all := (group + [c]) + more; OpensRight(all[0], n) && ClosesRight(a, b, all[|all| - 1], n)
    ensures group != [] && more != []
  {
  }

  lemma CutOpens(c: Op, n: nat)
    requires c.tag == Equal && c.i2 - c.i1 > n + n
    ensures OpensRight(c.(i1 := Max(c.i1, c.i2 - n), j1 := Max(c.j1, c.j2 - n)), n)
  {
  }

  lemma {:induction false} PrefixAlternates(x: seq<Op>, y: seq<Op>)
    requires Alternating(x + y)
    ensures Alternating(x)
  {
    forall k | 0 <= k < |x| - 1
      ensures x[k].tag == Equal <==> x[k + 1].tag != Equal
    {
      assert (x + y)[k] == x[k] && (x + y)[k + 1] == x[k + 1];
    }
  }

  lemma {:induction false} TailAlternates(group: seq<Op>, c: Op, more: seq<Op>, tail: Op)
    requires Alternating(group + [c] + more) && tail.tag == c.tag
    ensures Alternating([tail] + more)
  {
    var all, rest := group + [c] + more, [tail] + more;
    forall k | 0 <= k < |rest| - 1
      ensures rest[k].tag == Equal <==> rest[k + 1].tag != Equal
    {
      var j := k + |group|;
      assert all[j].tag == Equal <==> all[j + 1].tag != Equal;
      assert rest[k].tag == all[j].tag && rest[k + 1].tag == all[j + 1].tag;
    }
  }

  lemma {:induction false} PrependGroup(a: seq<Line>, b: seq<Line>, g: seq<Op>, gs: seq<seq<Op>>, tail: Op, n: nat)
    requires ExactGroup(a, b, g, n) && ExactGroups(a, b, gs, n)
    requires g != [] && g[|g| - 1].i2 < tail.i1
    requires gs != [] ==> gs[0] != [] && gs[0][0] == tail
    ensures ExactGroups(a, b, [g] + gs, n)
  {
    hide ExactGroup;
    var all := [g] + gs;
    assert forall k :: 0 < k < |all| ==> all[k] == gs[k - 1];
    forall k, l | 0 <= k < l < |all| && l == k + 1
      ensures LeavesOut(all[k], all[l])
    {
      if k > 0 { assert LeavesOut(gs[k - 1], gs[l - 1]); }
    }
  }

  /** The same operations, but for where some of them start and stop. */
  ghost predicate SameTags(x: seq<Op>, y: seq<Op>) {
    |x| == |y| && forall k :: 0 <= k < |x| ==> x[k].tag == y[k].tag
  }

  lemma {:induction false} SameTagsAlternate(x: seq<Op>, y: seq<Op>)
    requires SameTags(x, y) && Alternating(x)
    ensures Alternating(y)
  {
    forall k | 0 <= k < |y| - 1
      ensures y[k].tag == Equal <==> y[k + 1].tag != Equal
    {
      assert x[k].tag == Equal <==> x[k + 1].tag != Equal;
    }
  }

  lemma {:induction false} TrimFirstShape(codes: seq<Op>, n: nat)
    requires codes != [] && codes[0].i1 == 0 && codes[0].j1 == 0
    requires codes[0].tag == Equal ==> codes[0].i1 <= codes[0].i2 && codes[0].i2 == codes[0].j2
    ensures var ops := TrimFirst(codes, n);
            && SameTags(codes, ops) && OpensRight(ops[0], n)
            && (forall k :: 0 < k < |codes| ==> ops[k] == codes[k])
  {
  }

  lemma {:induction false} TrimLastShape(a: seq<Line>, b: seq<Line>, codes: seq<Op>, n: nat)
    requires codes != []
    requires var c := codes[|codes| - 1];
             c.i2 == |a| && c.j2 == |b| && (c.tag == Equal ==> c.i1 <= c.i2 && c.i2 - c.i1 == c.j2 - c.j1)
    ensures var ops := TrimLast(codes, n);
            && SameTags(codes, ops) && ClosesRight(a, b, ops[|ops| - 1], n)
            && (forall k :: 0 <= k < |codes| - 1 ==> ops[k] == codes[k])
  {
  }

  lemma {:induction false} TrimmedShape(a: seq<Line>, b: seq<Line>, codes: seq<Op>, n: nat)
    requires |codes| > 1 || (|codes| == 1 && codes[0].tag != Equal)
    requires Tiles(a, b, codes, 0, 0, |a|, |b|) && Alternating(codes)
    ensures var ops := TrimLast(TrimFirst(codes, n), n);
            && |ops| == |codes| && Alternating(ops)
            && OpensRight(ops[0], n) && ClosesRight(a, b, ops[|ops| - 1], n)
  {
    TilesStart(a, b, codes, 0, 0, |a|, |b|);
    TilesSplitLast(a, b, codes, 0, 0, |a|, |b|);
    assert Sound(a, b, codes[0]) && Sound(a, b, codes[|codes| - 1]);
    TrimFirstShape(codes, n);
    var ops := TrimFirst(codes, n);
    hide TrimFirst, Tiles, OpensRight;
    SameTagsAlternate(codes, ops);
    TrimLastShape(a, b, ops, n);
    SameTagsAlternate(ops, TrimLast(ops, n));
    hide TrimLast, Alternating, ClosesRight;
    if |codes| == 1 { SameSingle(ops, n); }
  }

  lemma SameSingle(ops: seq<Op>, n: nat)
    requires |ops| == 1 && ops[0].tag != Equal
    ensures TrimLast(ops, n) == ops
  {
  }

  /** The hunks show exactly three lines of context: each group opens and closes with three equal lines, or with
      all there are at the edges of the lists, never shows more than six between two changes, contains a change,
      and is cut off from the next only where equal lines are left out. */
  lemma {:induction false} ContextIsExact(a: seq<Line>, b: seq<Line>)
    ensures ExactGroups(a, b, Groups(a, b, CONTEXT), 3)
  {
    hide Opcodes, GroupFrom, TrimFirst, TrimLast, ExactGroups, Exact, Tiles;
    OpcodesOfLists(a, b);
    ScriptIsTidy(a, b);
    var codes := Opcodes(a, b);
    if codes == [] {
      NoGroups(CONTEXT);
      NoneExact(a, b);
    } else if |codes| == 1 && codes[0].tag == Equal {
      assert codes == [codes[0]];
      OneEqual(codes[0]);
      NoneExact(a, b);
    } else {
      TrimmedShape(a, b, codes, CONTEXT);
      var ops := TrimLast(TrimFirst(codes, CONTEXT), CONTEXT);
      EmptyConcat(ops);
      GroupsExact(a, b, ops, CONTEXT, []);
    }
  }

  lemma NoneExact(a: seq<Line>, b: seq<Line>)
    ensures ExactGroups(a, b, [], 3)
  {
  }

  lemma {:induction false} OneEqual(c: Op)
    requires c.tag == Equal
    ensures GroupFrom(TrimLast(TrimFirst([c], CONTEXT), CONTEXT), CONTEXT, []) == []
  {
    var ops := TrimLast(TrimFirst([c], CONTEXT), CONTEXT);
    assert |ops| == 1 && ops[0].tag == Equal && ops[0].i2 - ops[0].i1 <= CONTEXT;
    assert ops == [ops[0]];
    SingletonTail(ops[0]);
    EmptyConcat(ops);
    assert GroupFrom([], CONTEXT, ops) == [];
  }

  // -------------------------------------------------- removed before added

  /** No removed line stands directly after an added one. */
  ghost predicate RemovedFirst(body: seq<HunkLine>) {
    forall k :: 0 <= k < |body| - 1 && body[k].Added? ==> !body[k + 1].Removed?
  }

  ghost predicate AllContext(body: seq<HunkLine>) {
    forall k :: 0 <= k < |body| ==> body[k].Context?
  }

  lemma {:induction false} OrderConcat(x: seq<HunkLine>, y: seq<HunkLine>)
    requires RemovedFirst(x) && RemovedFirst(y)
    requires x == [] || y == [] || !x[|x| - 1].Added? || !y[0].Removed?
    ensures RemovedFirst(x + y)
  {
    var all := x + y;
    forall k | 0 <= k < |all| - 1 && all[k].Added?
      ensures !all[k + 1].Removed?
    {
      if k + 1 < |x| { assert x[k].Added?; }
      else if k >= |x| { assert y[k - |x|].Added?; }
    }
  }

  lemma OpOrder(a: seq<Line>, b: seq<Line>, c: Op)
    requires Sound(a, b, c) && (c.tag == Equal ==> c.i1 < c.i2)
    ensures RemovedFirst(OpBody(a, b, c))
    ensures c.tag == Equal ==> OpBody(a, b, c) != [] && AllContext(OpBody(a, b, c))
  {
  }

  lemma {:induction false} GroupOrder(a: seq<Line>, b: seq<Line>, g: seq<Op>)
    requires Alternating(g)
    requires forall k :: 0 <= k < |g| ==> Sound(a, b, g[k]) && (g[k].tag == Equal ==> g[k].i1 < g[k].i2)
    ensures RemovedFirst(GroupBody(a, b, g))
    ensures g != [] && g[0].tag == Equal ==> GroupBody(a, b, g) != [] && GroupBody(a, b, g)[0].Context?
    decreases |g|
  {
    hide Sound, OpBody;
    if g != [] {
      var rest := g[1..];
      assert forall k :: 0 <= k < |rest| ==> rest[k] == g[k + 1];
      forall k | 0 <= k < |rest| - 1
        ensures rest[k].tag == Equal <==> rest[k + 1].tag != Equal
      {
        assert g[k + 1].tag == Equal <==> g[k + 2].tag != Equal;
      }
      GroupOrder(a, b, rest);
      OpOrder(a, b, g[0]);
      if rest != [] { assert g[0].tag == Equal <==> g[1].tag != Equal; }
      OrderConcat(OpBody(a, b, g[0]), GroupBody(a, b, rest));
    }
  }

  lemma {:induction false} TilesAreSound(a: seq<Line>, b: seq<Line>, ops: seq<Op>, i: nat, j: nat, k: nat, l: nat,
      x: nat)
    requires Tiles(a, b, ops, i, j, k, l) && x < |ops|
    ensures Sound(a, b, ops[x])
    decreases |ops|
  {
    if x > 0 { TilesAreSound(a, b, ops[1..], ops[0].i2, ops[0].j2, k, l, x - 1); }
  }

  /** The group at a place in a covering tiles its own range. */
  lemma {:induction false} CoveredGroupTiles(a: seq<Line>, b: seq<Line>, gs: seq<seq<Op>>, i: nat, j: nat, x: nat)
    requires i <= |a| && j <= |b| && Covers(a, b, gs, i, j) && x < |gs|
    ensures gs[x] != []
    ensures var g := gs[x]; Tiles(a, b, g, g[0].i1, g[0].j1, g[|g| - 1].i2, g[|g| - 1].j2)
    decreases |gs|
  {
    if x > 0 {
      var last := gs[0][|gs[0]| - 1];
      CoveredGroupTiles(a, b, gs[1..], last.i2, last.j2, x - 1);
    }
  }

  /** Every equal stretch a group shows has a line. */
  ghost predicate FullStretches(g: seq<Op>) {
    forall k :: 0 <= k < |g| && g[k].tag == Equal ==> g[k].i1 < g[k].i2
  }

  lemma {:induction false} GroupsFull(ops: seq<Op>, n: nat, group: seq<Op>)
    requires n > 0 && FullStretches(ops) && FullStretches(group)
    ensures forall x :: 0 <= x < |GroupFrom(ops, n, group)| ==> FullStretches(GroupFrom(ops, n, group)[x])
    decreases |ops|
  {
    if ops != [] {
      var c, more := ops[0], ops[1..];
      assert forall k :: 0 <= k < |more| ==> more[k] == ops[k + 1];
      if c.tag == Equal && c.i2 - c.i1 > n + n {
        var tail := c.(i1 := Max(c.i1, c.i2 - n), j1 := Max(c.j1, c.j2 - n));
        GroupsFull(more, n, [tail]);
      } else {
        GroupsFull(more, n, group + [c]);
      }
    }
  }

  lemma {:induction false} TrimmedFull(ops: seq<Op>, n: nat)
    requires n > 0 && FullStretches(ops)
    ensures FullStretches(TrimLast(TrimFirst(ops, n), n))
  {
    var first := TrimFirst(ops, n);
    assert FullStretches(first);
  }

  lemma ScriptIsFull(a: seq<Line>, b: seq<Line>, ops: seq<Op>)
    requires ScriptShape(a, b, ops)
    ensures FullStretches(ops)
  {
  }

  /** In every hunk the lines a change removes are printed before those it adds. */
  lemma {:induction false} RemovedComeFirst(a: seq<Line>, b: seq<Line>, x: nat)
    requires x < |Groups(a, b, CONTEXT)|
    ensures RemovedFirst(GroupBody(a, b, Groups(a, b, CONTEXT)[x]))
  {
    hide Opcodes, GroupFrom, TrimFirst, TrimLast, Tiles, Covers, ScriptShape, GroupBody, ExactGroup, FullStretches;
    var gs := Groups(a, b, CONTEXT);
    GroupsOfLists(a, b, CONTEXT);
    ContextIsExact(a, b);
    CoveredGroupTiles(a, b, gs, 0, 0, x);
    ScriptIsTidy(a, b);
    ScriptIsFull(a, b, Opcodes(a, b));
    var codes := if Opcodes(a, b) == [] then [Op(Equal, 0, 1, 0, 1)] else Opcodes(a, b);
    OneIsFull();
    TrimmedFull(codes, CONTEXT);
    NoneIsFull();
    GroupsFull(TrimLast(TrimFirst(codes, CONTEXT), CONTEXT), CONTEXT, []);
    var g := gs[x];
    assert FullStretches(g);
    forall k | 0 <= k < |g|
      ensures Sound(a, b, g[k])
    {
      TilesAreSound(a, b, g, g[0].i1, g[0].j1, g[|g| - 1].i2, g[|g| - 1].j2, k);
    }
    ExactAlternates(a, b, g, 3);
    FullAt(g);
    GroupOrder(a, b, g);
  }

  lemma OneIsFull()
    ensures FullStretches([Op(Equal, 0, 1, 0, 1)])
  {
  }

  lemma NoneIsFull()
    ensures FullStretches([])
  {
  }

  lemma FullAt(g: seq<Op>)
    requires FullStretches(g)
    ensures forall k :: 0 <= k < |g| && g[k].tag == Equal ==> g[k].i1 < g[k].i2
  {
  }

  lemma ExactAlternates(a: seq<Line>, b: seq<Line>, g: seq<Op>, n: nat)
    requires ExactGroup(a, b, g, n)
    ensures Alternating(g)
  {
  }
}
