/** Sequential runs of whole calls: snapshots, reports and audit entries account for one another. */
module DriftBookkeeping {
  import opened Wrappers
  import opened Database
  import opened Integrity
  import opened SecurityTasks
  import opened SecurityRuns
  import opened GoldenHistory
  import opened Sequences

  // ------------------------------------------------------------- counting

  function CountAction(audit: seq<Audit>, a: Action): nat {
    if audit == [] then 0 else (if audit[0].action == a then 1 else 0) + CountAction(audit[1..], a)
  }

  /** Reports that compared two snapshots. */
  function Verdicts(reports: map<Id, Report>): set<Id> {
    set r | r in reports && reports[r].status != Error
  }

  /** Those that compared two different ones. */
  function Comparisons(reports: map<Id, Report>): set<Id> {
    set r | r in reports && reports[r].status != Error && reports[r].golden != reports[r].current
  }

  lemma {:induction false} CountConcat(x: seq<Audit>, y: seq<Audit>, a: Action)
    ensures CountAction(x + y, a) == CountAction(x, a) + CountAction(y, a)
  {
    if x == [] {
      EmptyConcat(y);
    } else {
      CountConcat(x[1..], y, a);
      TailOfConcat(x, y);
    }
  }

  // ------------------------------------------------- what a call leaves behind

  /** The report a call stores. */
  function ReportOf(db: Db, q: Request): Option<Report> {
    if !q.Drift? || q.device !in db.inventory.devices then None
    else if q.pulled.Err? then Some(Report(q.device, None, None, Error, q.pulled.error))
    else
      var n := db.security.next;
      var g := Latest(db.security, q.device);
      if g.Some? && g.value in db.security.snapshots then
        Some(Comparison(q.device, n, g.value,
            DiffLines(db.security.snapshots[g.value].config, q.pulled.value, q.labels)))
      else Some(Report(q.device, Some(n), Some(n), Clean, ""))
  }

  /** The audit actions a call logs. */
  function ActionsOf(db: Db, q: Request): seq<Action> {
    if !Pulls(db, q) then []
    else if q.Take? then [SnapshotTaken]
    else if Latest(db.security, q.device).Some? then [DriftCheck]
    else []
  }

  ghost predicate Stored(before: SecurityTables, after: SecurityTables, r: Report, k: Id) {
    k >= before.next && after.reports == before.reports[k := r]
  }

  /** `after` has exactly the report `r` more than `before`, and the actions `acts` more in its log. */
  ghost predicate Left(before: Db, after: Db, r: Option<Report>, acts: seq<Action>) {
    && |acts| <= 1
    && (if acts == [] then after.audit == before.audit
        else exists x :: after.audit == before.audit + [x] && x.action == acts[0])
    && (if r.None? then after.security.reports == before.security.reports
        else exists k :: Stored(before.security, after.security, r.value, k))
  }

  lemma TakeLeaves(db: Db, q: Request)
    requires !q.Drift?
    ensures Left(db, Whole(db, q).db, ReportOf(db, q), ActionsOf(db, q))
    ensures Below(db.security.reports, db.security.next)
        ==> Below(Whole(db, q).db.security.reports, Whole(db, q).db.security.next)
  {
    hide DiffLines, Latest;
  }

  lemma FailedLeaves(db: Db, q: Request)
    requires q.Drift? && !Pulls(db, q)
    ensures Left(db, Whole(db, q).db, ReportOf(db, q), ActionsOf(db, q))
    ensures Below(db.security.reports, db.security.next)
        ==> Below(Whole(db, q).db.security.reports, Whole(db, q).db.security.next)
  {
    hide DiffLines, Latest;
    var n := db.security.next;
    if q.device in db.inventory.devices {
      assert Stored(db.security, Whole(db, q).db.security, ReportOf(db, q).value, n);
    }
  }

  lemma PromotionLeaves(db: Db, d: Id, snap: Id)
    requires d in db.inventory.devices && snap in db.security.snapshots
    ensures var promoted := Send(db, SetGolden(snap, Some(AUTO_NOTE))).state;
            var after := Send(promoted, InsertReport(Report(d, Some(snap), Some(snap), Clean, ""))).state;
            && after.security.reports
                == db.security.reports[db.security.next := Report(d, Some(snap), Some(snap), Clean, "")]
            && after.security.next == db.security.next + 1 && after.audit == db.audit
  {
  }

  lemma ComparisonLeaves(db: Db, report: Report)
    requires report.device in db.inventory.devices
    requires Points(report.golden, db.security.snapshots.Keys) && Points(report.current, db.security.snapshots.Keys)
    ensures var after := RanComparison(db, report).db;
            && after.security.reports == db.security.reports[db.security.next := report]
            && after.security.next == db.security.next + 1
            && exists x :: after.audit == db.audit + [x] && x.action == DriftCheck
  {
    var x := Audit(DriftCheck, Some(report.device), true, DriftDetail(report.status == Drifted, db.security.next));
    assert RanComparison(db, report).db.audit == db.audit + [x];
  }

  lemma PulledLeaves(db: Db, q: Request)
    requires q.Drift? && Pulls(db, q)
    ensures Left(db, Whole(db, q).db, ReportOf(db, q), ActionsOf(db, q))
    ensures Below(db.security.reports, db.security.next)
        ==> Below(Whole(db, q).db.security.reports, Whole(db, q).db.security.next)
  {
    hide DiffLines, RanComparison, Latest, Comparison;
    var n := db.security.next;
    var x := Snapshot(q.device, q.pulled.value, false, q.now, "");
    var taken := Send(db, InsertSnapshot(x)).state;
    assert taken.security == db.security.(next := n + 1, snapshots := db.security.snapshots[n := x]);
    LatestAfterInsert(db.security, x, q.device);
    var g := Latest(db.security, q.device);
    LatestFound(db.security, q.device);
    if g.Some? {
      var lines := DiffLines(db.security.snapshots[g.value].config, q.pulled.value, q.labels);
      var report := Comparison(q.device, n, g.value, lines);
      assert g.value < n;
      ComparisonShape(q.device, n, g.value, lines);
      ComparisonLeaves(taken, report);
    } else {
      PromotionLeaves(taken, q.device, n);
    }
    assert Stored(db.security, Whole(db, q).db.security, ReportOf(db, q).value, n + 1);
  }

  lemma LatestFound(t: SecurityTables, d: Id)
    ensures Latest(t, d).Some? ==> Latest(t, d).value < t.next && Flagged(t.snapshots, d, Latest(t, d).value)
  {
    LatestIsFlagged(t.snapshots, d, t.next);
  }

  lemma ComparisonShape(d: Id, snap: Id, g: Id, lines: seq<string>)
    ensures var r := Comparison(d, snap, g, lines);
            r.device == d && r.golden == Some(g) && r.current == Some(snap) && r.status != Error
  {
  }

  lemma WholeLeaves(db: Db, q: Request)
    ensures Left(db, Whole(db, q).db, ReportOf(db, q), ActionsOf(db, q))
    ensures Below(db.security.reports, db.security.next)
        ==> Below(Whole(db, q).db.security.reports, Whole(db, q).db.security.next)
  {
    hide Whole, Left, ReportOf, ActionsOf, Pulls;
    if !q.Drift? { TakeLeaves(db, q); }
    else if !Pulls(db, q) { FailedLeaves(db, q); }
    else { PulledLeaves(db, q); }
  }

  // ------------------------------------------------------------ the accounts

  /** Every snapshot was logged as taken or belongs to a verdict, and the drift checks logged are
      the comparisons of two different snapshots. */
  ghost predicate Balanced(db: Db) {
    && |db.security.snapshots| == CountAction(db.audit, SnapshotTaken) + |Verdicts(db.security.reports)|
    && CountAction(db.audit, DriftCheck) == |Comparisons(db.security.reports)|
  }

  /** A device starts its baseline at most once, and has one ever after. */
  ghost predicate StartedOnce(t: SecurityTables) {
    && (forall r :: r in t.reports && SelfCompared(t.reports[r]) ==> HasGolden(t, t.reports[r].device))
    && (forall r, s :: r in t.reports && s in t.reports && SelfCompared(t.reports[r]) && SelfCompared(t.reports[s]) ==>
         t.reports[r].device == t.reports[s].device ==> r == s)
  }

  ghost predicate SelfCompared(r: Report) {
    r.golden.Some? && r.golden == r.current
  }

  lemma VerdictInserted(reports: map<Id, Report>, k: Id, r: Report)
    requires k !in reports
    ensures Verdicts(reports[k := r]) == if r.status != Error then Verdicts(reports) + {k} else Verdicts(reports)
  {
  }

  lemma ComparisonInserted(reports: map<Id, Report>, k: Id, r: Report)
    requires k !in reports
    ensures Comparisons(reports[k := r])
         == if r.status != Error && r.golden != r.current then Comparisons(reports) + {k} else Comparisons(reports)
  {
  }

  lemma VerdictsInsert(reports: map<Id, Report>, k: Id, r: Report)
    requires k !in reports
    ensures |Verdicts(reports[k := r])| == |Verdicts(reports)| + if r.status != Error then 1 else 0
    ensures |Comparisons(reports[k := r])|
         == |Comparisons(reports)| + if r.status != Error && r.golden != r.current then 1 else 0
  {
    assert k !in Verdicts(reports) && k !in Comparisons(reports);
    hide Verdicts, Comparisons;
    VerdictInserted(reports, k, r);
    ComparisonInserted(reports, k, r);
  }

  lemma SnapshotsGrow(db: Db, q: Request)
    requires Below(db.security.snapshots, db.security.next)
    ensures |Whole(db, q).db.security.snapshots| == |db.security.snapshots| + if Pulls(db, q) then 1 else 0
    ensures Below(Whole(db, q).db.security.snapshots, Whole(db, q).db.security.next)
  {
    hide Whole;
    WholeStores(db, q);
    var rows, rows' := db.security.snapshots, SnapshotsAfter(db, q);
    if q.Promote? {
      assert rows'.Keys == rows.Keys;
      assert |rows'| == |rows'.Keys|;
    }
  }

  lemma WholeBalances(db: Db, q: Request)
    requires Below(db.security.snapshots, db.security.next) && Below(db.security.reports, db.security.next)
    requires Balanced(db)
    ensures Balanced(Whole(db, q).db)
  {
    hide Whole, DiffLines, Latest, Verdicts, Comparisons, Comparison, SnapshotsAfter;
    SnapshotsGrow(db, q);
    WholeLeaves(db, q);
    var after := Whole(db, q).db;
    var r, acts := ReportOf(db, q), ActionsOf(db, q);
    if acts != [] {
      var x :| after.audit == db.audit + [x] && x.action == acts[0];
      CountConcat(db.audit, [x], SnapshotTaken);
      CountConcat(db.audit, [x], DriftCheck);
      SingletonTail(x);
    }
    LatestFound(db.security, if q.Promote? then 0 else q.device);
    if r.Some? {
      var k :| Stored(db.security, after.security, r.value, k);
      VerdictsInsert(db.security.reports, k, r.value);
      if q.pulled.Ok? && Latest(db.security, q.device).Some? {
        var g := Latest(db.security, q.device).value;
        ComparisonShape(q.device, db.security.next, g,
          DiffLines(db.security.snapshots[g].config, q.pulled.value, q.labels));
      }
    }
  }

  /** Snapshots = SNAPSHOT entries + verdicts, and DRIFT_CHECK entries = comparisons of different
      snapshots, after any sequence of whole calls. */
  lemma {:induction false} RunBalances(db: Db, qs: seq<Request>)
    requires Below(db.security.snapshots, db.security.next) && Below(db.security.reports, db.security.next)
    requires Balanced(db)
    ensures Balanced(SeqRun(db, qs))
    decreases |qs|
  {
    hide Whole, Balanced;
    if qs != [] {
      WholeBalances(db, qs[0]);
      SnapshotsGrow(db, qs[0]);
      WholeLeaves(db, qs[0]);
      RunBalances(Whole(db, qs[0]).db, qs[1..]);
    }
  }

  // -------------------------------------------------------- one start per device

  /** A whole call never leaves a device without the golden snapshot it had. */
  lemma WholeKeepsGolden(db: Db, q: Request, d: Id)
    requires Below(db.security.snapshots, db.security.next) && HasGolden(db.security, d)
    ensures HasGolden(Whole(db, q).db.security, d)
  {
    hide Whole;
    WholeStores(db, q);
    var rows, rows' := db.security.snapshots, SnapshotsAfter(db, q);
    var s :| Flagged(rows, d, s);
    if q.Promote? && q.snapshot in rows && rows[q.snapshot].device == d {
      assert Flagged(rows', d, q.snapshot);
    } else {
      assert Flagged(rows', d, s);
    }
  }

  lemma WholeStartsOnce(db: Db, q: Request)
    requires Below(db.security.snapshots, db.security.next) && Below(db.security.reports, db.security.next)
    requires StartedOnce(db.security)
    ensures StartedOnce(Whole(db, q).db.security)
  {
    hide Whole, DiffLines, Latest, Comparison, SnapshotsAfter;
    WholeLeaves(db, q);
    WholeStores(db, q);
    var t, t' := db.security, Whole(db, q).db.security;
    forall d | HasGolden(t, d)
      ensures HasGolden(t', d)
    {
      WholeKeepsGolden(db, q, d);
    }
    var r := ReportOf(db, q);
    if r.Some? {
      var k :| Stored(t, t', r.value, k);
      if SelfCompared(r.value) { NewReportStarts(db, q); }
    }
  }

  /** A report whose golden is its own current snapshot is only stored for a device that had none. */
  lemma NewReportStarts(db: Db, q: Request)
    requires Below(db.security.snapshots, db.security.next)
    requires ReportOf(db, q).Some? && SelfCompared(ReportOf(db, q).value)
    ensures !HasGolden(db.security, q.device) && HasGolden(Whole(db, q).db.security, q.device)
    ensures ReportOf(db, q).value.device == q.device
  {
    hide Whole, DiffLines, Comparison;
    var n := db.security.next;
    WholeStores(db, q);
    LatestIsLast(db.security.snapshots, q.device, n);
    var g := Latest(db.security, q.device);
    if g.Some? {
      ComparisonShape(q.device, n, g.value, DiffLines(db.security.snapshots[g.value].config, q.pulled.value, q.labels));
    }
    assert Flagged(SnapshotsAfter(db, q), q.device, n);
  }

  /** Over any sequence of whole calls each device gets at most one report that compares its first
      snapshot with itself. */
  lemma {:induction false} RunStartsOnce(db: Db, qs: seq<Request>)
    requires Below(db.security.snapshots, db.security.next) && Below(db.security.reports, db.security.next)
    requires StartedOnce(db.security)
    ensures StartedOnce(SeqRun(db, qs).security)
    decreases |qs|
  {
    hide Whole, StartedOnce;
    if qs != [] {
      WholeStartsOnce(db, qs[0]);
      SnapshotsGrow(db, qs[0]);
      WholeLeaves(db, qs[0]);
      RunStartsOnce(Whole(db, qs[0]).db, qs[1..]);
    }
  }

  // ------------------------------------------------------------- the start

  /** The empty platform meets every invariant above. */
  lemma EmptyStart()
    ensures Sane(World(EMPTY, [])) && ComparedHaveBaseline(World(EMPTY, []))
    ensures Agrees(EMPTY, map[]) && Balanced(EMPTY) && StartedOnce(EMPTY.security)
  {
    assert Verdicts(EMPTY.security.reports) == {} && Comparisons(EMPTY.security.reports) == {};
  }

  /** So in every state that an interleaved run reaches from it every report tells the truth, every device
      with a verdict has a baseline, and every reference is sound. */
  lemma EveryReachableState(es: seq<Event>)
    ensures var w := Play(World(EMPTY, []), es);
            AllTruthful(w.db.security) && ComparedHaveBaseline(w) && Integral(w.db)
  {
    hide Integral, Play, ComparedHaveBaseline, AllTruthful;
    var w := World(EMPTY, []);
    EmptyStart();
    PlayKeepsSane(w, es);
    ComparedAlwaysHaveBaseline(w, es);
    EmptyIsIntegral();
    PlayKeepsIntegrity(w, es);
  }
}
