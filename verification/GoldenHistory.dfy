/** Sequential runs of whole calls: the golden flags and the "latest golden" query are
    determined by the history of promotions alone. */
module GoldenHistory {
  import opened Wrappers
  import opened Database
  import opened SecurityTasks
  import opened SecurityRuns
  import opened Integrity

  function SeqRun(db: Db, qs: seq<Request>): Db
    decreases |qs|
  {
    if qs == [] then db else SeqRun(Whole(db, qs[0]).db, qs[1..])
  }

  // -------------------------------------------------- the abstract history

  /** For each device, the snapshots promoted since its last manual choice, that choice included. */
  type History = map<Id, seq<Id>>

  function Line(h: History, d: Id): seq<Id> {
    if d in h then h[d] else []
  }

  /** A call that stored a snapshot of a known device. */
  predicate Pulls(db: Db, q: Request) {
    !q.Promote? && q.device in db.inventory.devices && q.pulled.Ok?
  }

  /** A manual choice starts a new line, a golden snapshot joins it, and a drift check
      starts one only for a device that has none. */
  function Record(db: Db, h: History, q: Request): History {
    var key := db.security.next;
    match q
    case Take(d, _, golden, _) => if Pulls(db, q) && golden then h[d := Line(h, d) + [key]] else h
    case Drift(d, _, _, _) => if Pulls(db, q) && Line(h, d) == [] then h[d := [key]] else h
    case Promote(s) => if s in db.security.snapshots then h[db.security.snapshots[s].device := [s]] else h
  }

  function Recorded(db: Db, h: History, qs: seq<Request>): History
    decreases |qs|
  {
    if qs == [] then h else Recorded(Whole(db, qs[0]).db, Record(db, h, qs[0]), qs[1..])
  }

  /** At each pull the clock does not stand before any stored snapshot. */
  ghost predicate ClockAhead(db: Db, qs: seq<Request>)
    decreases |qs|
  {
    qs != [] ==>
      && (!qs[0].Promote? ==> forall s :: s in db.security.snapshots ==> db.security.snapshots[s].takenAt <= qs[0].now)
      && ClockAhead(Whole(db, qs[0]).db, qs[1..])
  }

  // ------------------------------------------------------------ what a call stores

  /** The snapshot a call inserts. */
  function Inserted(db: Db, q: Request): Snapshot
    requires Pulls(db, q)
  {
    if q.Take? then Snapshot(q.device, q.pulled.value, q.golden, q.now, "")
    else if Latest(db.security, q.device).None? then Snapshot(q.device, q.pulled.value, true, q.now, AUTO_NOTE)
    else Snapshot(q.device, q.pulled.value, false, q.now, "")
  }

  /** The snapshot table after a call. */
  function SnapshotsAfter(db: Db, q: Request): map<Id, Snapshot> {
    var rows := db.security.snapshots;
    if q.Promote? then
      if q.snapshot in rows then
        var cleared := ClearFlags(rows, rows[q.snapshot].device);
        cleared[q.snapshot := rows[q.snapshot].(golden := true)]
      else rows
    else if Pulls(db, q) then rows[db.security.next := Inserted(db, q)]
    else rows
  }

  lemma {:induction false} LatestIgnores(rows: map<Id, Snapshot>, x: Snapshot, d: Id, n: Id, k: Id)
    requires !x.golden && k <= n
    ensures LatestBelow(rows[n := x], d, k) == LatestBelow(rows, d, k)
  {
    if k > 0 {
      LatestIgnores(rows, x, d, n, k - 1);
      LatestIsFlagged(rows, d, k - 1);
    }
  }

  /** A new unflagged snapshot does not change the query. */
  lemma LatestAfterInsert(t: SecurityTables, x: Snapshot, d: Id)
    requires !x.golden
    ensures Latest(t.(next := t.next + 1, snapshots := t.snapshots[t.next := x]), d) == Latest(t, d)
  {
    LatestIgnores(t.snapshots, x, d, t.next, t.next);
  }

  lemma TakeStores(db: Db, q: Request)
    requires q.Take?
    ensures var t' := Whole(db, q).db.security;
            t'.snapshots == SnapshotsAfter(db, q) && t'.next == db.security.next + if Pulls(db, q) then 1 else 0
  {
  }

  lemma PromoteStores(db: Db, q: Request)
    requires q.Promote?
    ensures Whole(db, q).db.security.snapshots == SnapshotsAfter(db, q)
    ensures Whole(db, q).db.security.next == db.security.next
  {
  }

  lemma DriftWithoutPull(db: Db, q: Request)
    requires q.Drift? && !Pulls(db, q)
    ensures var after := Whole(db, q).db;
            && after.security.snapshots == db.security.snapshots && after.inventory == db.inventory
            && after.security.next >= db.security.next
  {
  }

  lemma DriftStores(db: Db, q: Request)
    requires q.Drift? && Pulls(db, q)
    ensures var after := Whole(db, q).db;
            && after.security.snapshots == SnapshotsAfter(db, q) && after.inventory == db.inventory
            && after.security.next > db.security.next
  {
    hide DiffLines;
    var n := db.security.next;
    var x := Snapshot(q.device, q.pulled.value, false, q.now, "");
    LatestAfterInsert(db.security, x, q.device);
    LatestIsFlagged(db.security.snapshots, q.device, n);
    var taken := Send(db, InsertSnapshot(x)).state;
    assert taken.security == db.security.(next := n + 1, snapshots := db.security.snapshots[n := x]);
    assert taken.inventory == db.inventory;
    CheckStores(taken, q.device, n, q.pulled.value, Latest(taken.security, q.device), q.labels);
  }

  lemma ComparisonStores(db: Db, report: Report)
    ensures RanComparison(db, report).db.security.snapshots == db.security.snapshots
    ensures RanComparison(db, report).db.security.next >= db.security.next
    ensures RanComparison(db, report).db.inventory == db.inventory
  {
  }

  lemma PromotionStores(db: Db, d: Id, snap: Id)
    requires snap in db.security.snapshots
    ensures var promoted := Send(db, SetGolden(snap, Some(AUTO_NOTE))).state;
            var after := Send(promoted, InsertReport(Report(d, Some(snap), Some(snap), Clean, ""))).state;
            && after.security.next >= db.security.next && after.inventory == db.inventory
            && after.security.snapshots
               == db.security.snapshots[snap := db.security.snapshots[snap].(golden := true, comment := AUTO_NOTE)]
  {
  }

  lemma CheckStores(db: Db, d: Id, snap: Id, config: string, golden: Option<Id>, labels: Labels)
    requires d in db.inventory.devices && snap in db.security.snapshots
    ensures var after := RanCheck(db, d, snap, config, golden, labels).db;
            && after.security.next >= db.security.next && after.inventory == db.inventory
            && after.security.snapshots
               == if golden.Some? && golden.value in db.security.snapshots then db.security.snapshots
                  else db.security.snapshots[snap := db.security.snapshots[snap].(golden := true, comment := AUTO_NOTE)]
  {
    if golden.Some? && golden.value in db.security.snapshots {
      var lines := DiffLines(db.security.snapshots[golden.value].config, config, labels);
      ComparisonStores(db, Comparison(d, snap, golden.value, lines));
    } else {
      PromotionStores(db, d, snap);
    }
  }

  lemma WholeStores(db: Db, q: Request)
    ensures Whole(db, q).db.security.snapshots == SnapshotsAfter(db, q)
    ensures Whole(db, q).db.security.next >= db.security.next
    ensures Pulls(db, q) ==> Whole(db, q).db.security.next > db.security.next
    ensures Whole(db, q).db.inventory == db.inventory
  {
    match q
    case Take(_, _, _, _) => TakeStores(db, q);
    case Drift(_, _, _, _) => if Pulls(db, q) { DriftStores(db, q); } else { DriftWithoutPull(db, q); }
    case Promote(_) => PromoteStores(db, q);
  }

  // ------------------------------------------------------ the flags are the line

  /** `s` was taken after `r`; snapshots of one instant follow their keys. */
  predicate Before(rows: map<Id, Snapshot>, r: Id, s: Id)
    requires r in rows && s in rows
  {
    rows[r].takenAt < rows[s].takenAt || (rows[r].takenAt == rows[s].takenAt && r < s)
  }

  /** The line's snapshots, oldest first. */
  ghost predicate Ordered(rows: map<Id, Snapshot>, line: seq<Id>) {
    && (forall i :: 0 <= i < |line| ==> line[i] in rows)
    && (forall i, j :: 0 <= i < j < |line| ==> Before(rows, line[i], line[j]))
  }

  /** A device's flagged snapshots are exactly its line. */
  ghost predicate Matches(rows: map<Id, Snapshot>, d: Id, line: seq<Id>) {
    && Ordered(rows, line)
    && (forall s :: Flagged(rows, d, s) <==> s in line)
  }

  ghost predicate Agrees(db: Db, h: History) {
    && Below(db.security.snapshots, db.security.next)
    && (forall d :: Matches(db.security.snapshots, d, Line(h, d)))
  }

  /** The query finds the flagged row that every other flagged row comes before. */
  lemma {:induction false} LatestIsLast(rows: map<Id, Snapshot>, d: Id, n: Id)
    ensures var r := LatestBelow(rows, d, n);
            && (r.None? ==> forall s: Id :: s < n ==> !Flagged(rows, d, s))
            && (r.Some? ==> r.value < n && Flagged(rows, d, r.value))
            && (r.Some? ==> forall s: Id :: s < n && s != r.value && Flagged(rows, d, s) ==> Before(rows, s, r.value))
  {
    if n > 0 { LatestIsLast(rows, d, n - 1); }
  }

  /** So on an ordered line it finds the last entry. */
  lemma LatestOfLine(db: Db, d: Id, line: seq<Id>)
    requires Below(db.security.snapshots, db.security.next) && Matches(db.security.snapshots, d, line)
    ensures Latest(db.security, d) == if line == [] then None else Some(line[|line| - 1])
  {
    var rows := db.security.snapshots;
    LatestIsLast(rows, d, db.security.next);
    var r := Latest(db.security, d);
    if line != [] {
      var last := line[|line| - 1];
      assert last in line && Flagged(rows, d, last);
      assert r.value in line;
      var i :| 0 <= i < |line| && line[i] == r.value;
      assert i == |line| - 1;
    }
  }

  /** Adding a snapshot not earlier than any other: appended to its device's line if flagged. */
  lemma InsertMatches(rows: map<Id, Snapshot>, n: Id, x: Snapshot, d: Id, line: seq<Id>)
    requires Below(rows, n) && Matches(rows, d, line)
    requires forall s :: s in rows ==> rows[s].takenAt <= x.takenAt
    ensures Matches(rows[n := x], d, if x.golden && x.device == d then line + [n] else line)
  {
    var rows' := rows[n := x];
    var line' := if x.golden && x.device == d then line + [n] else line;
    assert Ordered(rows', line');
    forall s
      ensures Flagged(rows', d, s) <==> s in line'
    {
      assert Flagged(rows, d, s) <==> s in line;
      if s == n { assert s !in rows && s !in line; }
    }
  }

  /** Clearing a device and flagging one of its snapshots leaves a line of one; other devices keep theirs. */
  lemma PromoteMatches(rows: map<Id, Snapshot>, s: Id, d: Id, line: seq<Id>)
    requires s in rows && Matches(rows, d, line)
    ensures var rows' := ClearFlags(rows, rows[s].device)[s := rows[s].(golden := true)];
            Matches(rows', d, if rows[s].device == d then [s] else line)
  {
    var rows' := ClearFlags(rows, rows[s].device)[s := rows[s].(golden := true)];
    var line' := if rows[s].device == d then [s] else line;
    assert Ordered(rows', line');
    forall x
      ensures Flagged(rows', d, x) <==> x in line'
    {
      assert Flagged(rows, d, x) <==> x in line;
    }
  }

  lemma WholeAgrees(db: Db, h: History, q: Request)
    requires Agrees(db, h)
    requires !q.Promote? ==> forall s :: s in db.security.snapshots ==> db.security.snapshots[s].takenAt <= q.now
    ensures Agrees(Whole(db, q).db, Record(db, h, q))
  {
    WholeStores(db, q);
    var rows := db.security.snapshots;
    var h' := Record(db, h, q);
    forall d
      ensures Matches(SnapshotsAfter(db, q), d, Line(h', d))
    {
      var line := Line(h, d);
      assert Matches(rows, d, line);
      if q.Promote? {
        if q.snapshot in rows { PromoteMatches(rows, q.snapshot, d, line); }
      } else if Pulls(db, q) {
        LatestOfLine(db, q.device, Line(h, q.device));
        InsertMatches(rows, db.security.next, Inserted(db, q), d, line);
        assert Line(h, q.device) == [] ==> Line(h, q.device) + [db.security.next] == [db.security.next];
      }
    }
  }

  /** After any sequence of whole calls the flagged snapshots of every device are those promoted
      since its last manual choice. */
  lemma {:induction false} RunAgrees(db: Db, h: History, qs: seq<Request>)
    requires Agrees(db, h) && ClockAhead(db, qs)
    ensures Agrees(SeqRun(db, qs), Recorded(db, h, qs))
    decreases |qs|
  {
    if qs != [] {
      WholeAgrees(db, h, qs[0]);
      RunAgrees(Whole(db, qs[0]).db, Record(db, h, qs[0]), qs[1..]);
    }
  }

  /** Refinement to one pointer: the query answers with the most recent promotion, whether it was
      manual, taken as golden or automatic, and however many snapshots are flagged. */
  lemma PointerRefinement(db: Db, h: History, qs: seq<Request>, d: Id)
    requires Agrees(db, h) && ClockAhead(db, qs)
    ensures var line := Line(Recorded(db, h, qs), d);
            Latest(SeqRun(db, qs).security, d) == if line == [] then None else Some(line[|line| - 1])
  {
    RunAgrees(db, h, qs);
    LatestOfLine(SeqRun(db, qs), d, Line(Recorded(db, h, qs), d));
  }

  /** `set_golden` on a stored snapshot, however old: it becomes the one flagged snapshot of its device and
      the answer of the query, and the flags of every other device stay as they were. */
  lemma SetGoldenExactly(db: Db, s: Id, d: Id, r: Id)
    requires s in db.security.snapshots && Below(db.security.snapshots, db.security.next)
    ensures var own, after := db.security.snapshots[s].device, Whole(db, Promote(s)).db.security;
            && (d == own ==> (Flagged(after.snapshots, d, r) <==> r == s) && Latest(after, d) == Some(s))
            && (d != own ==> (Flagged(after.snapshots, d, r) <==> Flagged(db.security.snapshots, d, r)))
  {
    hide Whole;
    WholeStores(db, Promote(s));
    var own, after := db.security.snapshots[s].device, Whole(db, Promote(s)).db.security;
    if d == own {
      assert Flagged(after.snapshots, d, s);
      LatestIsLast(after.snapshots, d, after.next);
    }
  }

  ghost predicate AtMostOneGolden(t: SecurityTables, d: Id) {
    forall s, r :: Flagged(t.snapshots, d, s) && Flagged(t.snapshots, d, r) ==> s == r
  }

  /** Over uninterrupted calls a device has at most one golden snapshot exactly when at most one promotion
      happened since its last manual choice, that choice counted. */
  lemma OneGoldenExactly(db: Db, h: History, qs: seq<Request>, d: Id)
    requires Agrees(db, h) && ClockAhead(db, qs)
    ensures AtMostOneGolden(SeqRun(db, qs).security, d) <==> |Line(Recorded(db, h, qs), d)| <= 1
  {
    RunAgrees(db, h, qs);
    var rows := SeqRun(db, qs).security.snapshots;
    var line := Line(Recorded(db, h, qs), d);
    if |line| > 1 {
      assert line[0] in line && line[1] in line;
      assert Before(rows, line[0], line[1]);
      assert Flagged(rows, d, line[0]) && Flagged(rows, d, line[1]);
    }
  }

  /** One uninterrupted call keeps a device at one golden snapshot exactly unless it is a successful
      "take as golden" for a device that already has one. */
  lemma OneGoldenStep(db: Db, q: Request, d: Id)
    requires Below(db.security.snapshots, db.security.next) && AtMostOneGolden(db.security, d)
    ensures AtMostOneGolden(Whole(db, q).db.security, d)
            <==> !(q.Take? && q.golden && q.device == d && Pulls(db, q) && HasGolden(db.security, d))
  {
    WholeStores(db, q);
    var rows, rows' := db.security.snapshots, SnapshotsAfter(db, q);
    var n := db.security.next;
    LatestIsLast(rows, d, n);
    if q.Promote? || !Pulls(db, q) {
      assert forall s :: Flagged(rows', d, s) ==> Flagged(rows, d, s) || (q.Promote? && s == q.snapshot);
      assert forall s :: q.Promote? && q.snapshot in rows && rows[q.snapshot].device == d && Flagged(rows', d, s) ==>
          s == q.snapshot;
    } else {
      assert forall s :: s != n ==> (Flagged(rows', d, s) <==> Flagged(rows, d, s));
      assert n !in rows;
      if q.Take? && q.golden && q.device == d && HasGolden(db.security, d) {
        var s :| Flagged(rows, d, s);
        assert Flagged(rows', d, s) && Flagged(rows', d, n);
      }
    }
  }

  /** The claim "at most one golden at a time" fails: two golden snapshots of one device. */
  lemma TwoGoldens(db: Db, d: Id)
    requires d in db.inventory.devices && db.security.snapshots == map[]
    ensures var qs := [Take(d, Ok("a"), true, 1), Take(d, Ok("b"), true, 2)];
            !AtMostOneGolden(SeqRun(db, qs).security, d)
  {
    var q0, q1 := Take(d, Ok("a"), true, 1), Take(d, Ok("b"), true, 2);
    var qs := [q0, q1];
    var db1 := Whole(db, q0).db;
    WholeStores(db, q0);
    WholeStores(db1, q1);
    assert qs[1..] == [q1] && [q1][1..] == [];
    assert SeqRun(db, qs) == SeqRun(db1, [q1]) == SeqRun(Whole(db1, q1).db, []);
    var rows := SeqRun(db, qs).security.snapshots;
    assert Flagged(rows, d, db.security.next) && Flagged(rows, d, db1.security.next);
  }
}
