/** The security tasks and the golden request, each as one call: what it answers and everything it stores. */
module SecurityCalls {
  import opened Wrappers
  import opened Database
  import opened Integrity
  import opened SecurityTasks
  import opened SecurityRuns
  import opened GoldenHistory
  import opened Statements
  import opened DriftText
  import Text

  /** A call on a missing device answers nothing and stores nothing. */
  lemma MissingDevice(db: Db, q: Request)
    requires !q.Promote? && q.device !in db.inventory.devices
    ensures Whole(db, q) == Ran(db, NotFound)
  {
    hide DiffLines;
  }

  /** `take_config_snapshot`: an SSH error is the answer and nothing is stored; otherwise the config is stored with
      the flag that was asked for, and both the audit entry and the answer carry the new key and that flag. */
  lemma {:induction false} TakeExactly(db: Db, d: Id, pulled: Wrappers.Result<string, string>, golden: bool, now: int)
    requires d in db.inventory.devices
    ensures var ran, n := Whole(db, Take(d, pulled, golden, now)), db.security.next;
            match pulled
            case Err(m) => ran == Ran(db, PullFailed(m))
            case Ok(config) =>
              && ran.result == Taken(n, golden)
              && ran.db == db.(security := db.security.(next := n + 1, snapshots := ran.db.security.snapshots),
                               audit := db.audit + [Audit(SnapshotTaken, Some(d), true, SnapshotDetail(n, golden))])
              && Adds(db.security.snapshots, ran.db.security.snapshots, n, Snapshot(d, config, golden, now, ""))
  {
    hide DiffLines;
  }

  /** `run_drift_detection` when the device cannot be read: the error is the answer and the text of an ERROR report;
      no snapshot is stored and nothing is logged. */
  lemma {:induction false} FailedCheckExactly(db: Db, d: Id, message: string, now: int, labels: Labels)
    requires d in db.inventory.devices
    ensures var ran, n := Whole(db, Drift(d, Err(message), now, labels)), db.security.next;
            && ran.result == PullFailed(message)
            && ran.db == db.(security := db.security.(next := n + 1, reports := ran.db.security.reports))
            && Adds(db.security.reports, ran.db.security.reports, n, Report(d, None, None, Error, message))
  {
    hide DiffLines;
  }

  /** The golden snapshots of a device. */
  function FlaggedOf(t: SecurityTables, d: Id): set<Id> {
    set s | s in t.snapshots && t.snapshots[s].device == d && t.snapshots[s].golden
  }

  /** `run_drift_detection` for a device without a golden snapshot: the new snapshot becomes it, with a note; the
      report compares it with itself and is CLEAN; nothing is logged. */
  lemma {:induction false} FirstCheckExactly(db: Db, d: Id, config: string, now: int, labels: Labels)
    requires d in db.inventory.devices && Below(db.security.snapshots, db.security.next)
    requires FlaggedOf(db.security, d) == {}
    ensures var ran, n := Whole(db, Drift(d, Ok(config), now, labels)), db.security.next;
            && ran.result == Initialised
            && ran.db == db.(security := db.security.(next := n + 2,
                 snapshots := ran.db.security.snapshots, reports := ran.db.security.reports))
            && Adds(db.security.snapshots, ran.db.security.snapshots, n,
                 Snapshot(d, config, true, now, "Auto-set as initial golden"))
            && Adds(db.security.reports, ran.db.security.reports, n + 1, Report(d, Some(n), Some(n), Clean, ""))
  {
    hide DiffLines, RanComparison;
    var n, q := db.security.next, Drift(d, Ok(config), now, labels);
    var x := Snapshot(d, config, false, now, "");
    NoGolden(db.security, d);
    hide FlaggedOf, LatestBelow;
    LatestAfterInsert(db.security, x, d);
    var taken := Send(db, InsertSnapshot(x)).state;
    assert taken.security == db.security.(next := n + 1, snapshots := db.security.snapshots[n := x]);
    assert Latest(taken.security, d) == None;
  }

  /** `run_drift_detection` for a device with one: the new snapshot stays unflagged and is compared with the latest
      golden one; the report is CLEAN exactly if the two configs are equal, stores a diff that turns the golden
      config into the new one, and the audit entry and the answer carry the verdict and the report's key. */
  lemma {:induction false} CheckExactly(db: Db, d: Id, config: string, now: int, labels: Labels)
    returns (g: Id, lines: seq<string>, diff: string)
    requires d in db.inventory.devices && Below(db.security.snapshots, db.security.next)
    requires FlaggedOf(db.security, d) != {}
    ensures g in FlaggedOf(db.security, d)
    ensures forall s :: s in FlaggedOf(db.security, d) && s != g ==> Before(db.security.snapshots, s, g)
    ensures Turns(db.security.snapshots[g].config, config, lines) && Headed(lines, labels.fromFile, labels.toFile)
    ensures CutFrom(Text.Concat(lines), diff)
    ensures var ran, n := Whole(db, Drift(d, Ok(config), now, labels)), db.security.next;
            var drift := db.security.snapshots[g].config != config;
            var verdict := if drift then Drifted else Clean;
            && ran.result == Checked(verdict, drift)
            && ran.db == db.(security := db.security.(next := n + 2,
                               snapshots := ran.db.security.snapshots, reports := ran.db.security.reports),
                             audit := db.audit + [Audit(DriftCheck, Some(d), true, DriftDetail(drift, n + 1))])
            && Adds(db.security.snapshots, ran.db.security.snapshots, n, Snapshot(d, config, false, now, ""))
            && Adds(db.security.reports, ran.db.security.reports, n + 1, Report(d, Some(g), Some(n), verdict, diff))
  {
    hide DiffLines, Comparison, Turns, Headed, CutFrom, Text.Concat;
    var n, q := db.security.next, Drift(d, Ok(config), now, labels);
    var x := Snapshot(d, config, false, now, "");
    g := LatestGolden(db.security, d);
    hide FlaggedOf, LatestBelow;
    LatestAfterInsert(db.security, x, d);
    var before := db.security.snapshots[g].config;
    lines := DiffLines(before, config, labels);
    DiffLinesTurn(before, config, labels);
    ComparisonCuts(before, config, d, n, g, lines);
    var report := Comparison(d, n, g, lines);
    ComparisonNames(d, n, g, lines);
    diff := report.diff;
    var taken := Send(db, InsertSnapshot(x)).state;
    assert taken.security == db.security.(next := n + 1, snapshots := db.security.snapshots[n := x]);
    assert Latest(taken.security, d) == Some(g);
    assert taken.security.snapshots[g].config == before;
    hide Latest;
  }

  lemma NoGolden(t: SecurityTables, d: Id)
    requires FlaggedOf(t, d) == {}
    ensures Latest(t, d) == None
  {
    assert forall s :: Flagged(t.snapshots, d, s) ==> s in FlaggedOf(t, d);
    LatestIsFlagged(t.snapshots, d, t.next);
  }

  lemma LatestGolden(t: SecurityTables, d: Id) returns (g: Id)
    requires Below(t.snapshots, t.next) && FlaggedOf(t, d) != {}
    ensures Latest(t, d) == Some(g) && g in FlaggedOf(t, d) && g in t.snapshots && g < t.next
    ensures forall s :: s in FlaggedOf(t, d) && s != g ==> Before(t.snapshots, s, g)
  {
    LatestIsLast(t.snapshots, d, t.next);
    var s :| s in FlaggedOf(t, d);
    assert Flagged(t.snapshots, d, s);
    g := Latest(t, d).value;
    forall r | r in FlaggedOf(t, d) && r != g
      ensures Before(t.snapshots, r, g)
    {
      assert Flagged(t.snapshots, d, r);
    }
  }

  lemma ComparisonCuts(golden: string, current: string, d: Id, s: Id, g: Id, lines: seq<string>)
    requires Turns(golden, current, lines)
    ensures CutFrom(Text.Concat(lines), Comparison(d, s, g, lines).diff)
    ensures Comparison(d, s, g, lines).status == if golden == current then Clean else Drifted
  {
    hide Text.Concat;
  }

  lemma DiffLinesTurn(golden: string, current: string, labels: Labels)
    ensures Turns(golden, current, DiffLines(golden, current, labels))
    ensures Headed(DiffLines(golden, current, labels), labels.fromFile, labels.toFile)
  {
    hide Turns, Headed;
    UnifiedDiffTurns(golden, current, labels.fromFile, labels.toFile);
  }

  lemma ComparisonNames(d: Id, s: Id, g: Id, lines: seq<string>)
    ensures var r := Comparison(d, s, g, lines);
            r == Report(d, Some(g), Some(s), r.status, r.diff) && r.status != Error
  {
  }

  /** `set_golden`: a missing snapshot is not found; otherwise every snapshot of its device is unflagged but the
      chosen one, and no other column, row or table is touched. */
  lemma {:induction false} SetGoldenLeavesRest(db: Db, s: Id)
    ensures var ran := Whole(db, Promote(s));
            if s !in db.security.snapshots then ran == Ran(db, NotFound)
            else
              && ran.result == Promoted
              && ran.db == db.(security := db.security.(snapshots := ran.db.security.snapshots))
              && ran.db.security.snapshots.Keys == db.security.snapshots.Keys
              && forall r :: r in db.security.snapshots ==>
                   ran.db.security.snapshots[r] == db.security.snapshots[r].(golden :=
                     if db.security.snapshots[r].device == db.security.snapshots[s].device then r == s
                     else db.security.snapshots[r].golden)
  {
    hide DiffLines;
  }
}
