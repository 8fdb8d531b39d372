/** Golden snapshots and drift detection. Each task or request is given twice: as
    the imperative code that runs it alone, and as a program of single database
    statements that can be interleaved with others. */
module SecurityTasks {
  import opened Wrappers
  import opened Database
  import Text
  import Difflib

  /** `diff_text[:10000]` */
  const DIFF_LIMIT: nat := 10000

  /** What the two unified-diff header lines say; they carry snapshot dates. */
  datatype Labels = Labels(fromFile: string, toFile: string)

  /** One call. `pulled` is what the device answered to `show running-config`, or
      the SSH error; `now` is the clock at the insert. */
  datatype Request =
    | Take(device: Id, pulled: Wrappers.Result<string, string>, golden: bool, now: int)
    | Drift(device: Id, pulled: Wrappers.Result<string, string>, now: int, labels: Labels)
    | Promote(snapshot: Id)

  datatype TaskResult =
    | NotFound
    | Crashed
    | PullFailed(error: string)
    | Taken(snapshot: Id, golden: bool)
    | Initialised
    | Checked(status: Verdict, drift: bool)
    | Promoted

  /** Where a program stands; every state but `Done` is about to send one statement
      (`DriftLookup`: one query). */
  datatype Proc =
    | TakeInsert(device: Id, config: string, setGolden: bool, now: int)
    | TakeAudit(device: Id, snapshot: Id, setGolden: bool)
    | DriftFailed(device: Id, message: string)
    | DriftInsert(device: Id, config: string, now: int, labels: Labels)
    | DriftLookup(device: Id, snapshot: Id, config: string, labels: Labels)
    | DriftPromote(device: Id, snapshot: Id)
    | DriftInit(device: Id, snapshot: Id)
    | DriftCompare(device: Id, snapshot: Id, golden: Id, lines: seq<string>)
    | DriftAudit(device: Id, report: Id, drift: bool)
    | GoldenClear(device: Id, snapshot: Id)
    | GoldenSet(device: Id, snapshot: Id)
    | Done(result: TaskResult)

  // ----------------------------------------------------------------- query

  predicate Flagged(snapshots: map<Id, Snapshot>, d: Id, s: Id) {
    s in snapshots && snapshots[s].device == d && snapshots[s].golden
  }

  /** `filter(device=d, is_golden=True).order_by("-taken_at").first()` among keys below `n`;
      rows taken at the same instant are ordered by key. */
  function LatestBelow(snapshots: map<Id, Snapshot>, d: Id, n: Id): Option<Id> {
    if n == 0 then None
    else
      var best := LatestBelow(snapshots, d, n - 1);
      if Flagged(snapshots, d, n - 1)
        && (best.Some? && best.value in snapshots ==> snapshots[best.value].takenAt <= snapshots[n - 1].takenAt)
      then Some(n - 1) else best
  }

  function Latest(t: SecurityTables, d: Id): Option<Id> {
    LatestBelow(t.snapshots, d, t.next)
  }

  // ------------------------------------------------------------ the verdict

  /** The stored and reported outcome of comparing two configs. */
  function DiffLines(golden: string, current: string, labels: Labels): seq<string> {
    Difflib.UnifiedDiff(Text.SplitKeep(golden), Text.SplitKeep(current), labels.fromFile, labels.toFile)
  }

  function Truncate(s: string): string {
    if |s| > DIFF_LIMIT then s[..DIFF_LIMIT] else s
  }

  function Comparison(d: Id, snapshot: Id, golden: Id, lines: seq<string>): Report {
    Report(d, Some(golden), Some(snapshot), if lines != [] then Drifted else Clean, Truncate(Text.Concat(lines)))
  }

  const AUTO_NOTE: string := "Auto-set as initial golden"

  // ----------------------------------------------------- statement programs

  datatype Step = Step(db: Db, proc: Proc)

  /** The first reads of a call: the device, or the snapshot to promote. */
  function Start(db: Db, q: Request): Proc {
    match q
    case Take(d, pulled, golden, now) =>
      if d !in db.inventory.devices then Done(NotFound)
      else if pulled.Err? then Done(PullFailed(pulled.error))
      else TakeInsert(d, pulled.value, golden, now)
    case Drift(d, pulled, now, labels) =>
      if d !in db.inventory.devices then Done(NotFound)
      else if pulled.Err? then DriftFailed(d, pulled.error)
      else DriftInsert(d, pulled.value, now, labels)
    case Promote(s) =>
      if s !in db.security.snapshots then Done(NotFound) else GoldenClear(db.security.snapshots[s].device, s)
  }

  /** Sends one security statement; `then` says where the program goes with a new key. */
  function Send(db: Db, s: SecurityStmt): Reply<Db> {
    var r := ExecSecurity(db.security, db.inventory.devices.Keys, s);
    Reply(db.(security := r.state), r.outcome)
  }

  function Write(db: Db, x: Audit): Reply<Db> {
    if Points(x.device, db.inventory.devices.Keys)
    then Reply(db.(audit := db.audit + [x]), Written) else Reply(db, Raised)
  }

  function StoreComparison(db: Db, report: Report): Step {
    var r := Send(db, InsertReport(report));
    Step(r.state,
      if r.outcome.Created? then DriftAudit(report.device, r.outcome.id, report.status == Drifted) else Done(Crashed))
  }

  /** One statement of one program. */
  function Advance(db: Db, p: Proc): Step {
    match p
    case TakeInsert(d, config, golden, now) =>
      var r := Send(db, InsertSnapshot(Snapshot(d, config, golden, now, "")));
      Step(r.state, if r.outcome.Created? then TakeAudit(d, r.outcome.id, golden) else Done(Crashed))
    case TakeAudit(d, s, golden) =>
      var r := Write(db, Audit(SnapshotTaken, Some(d), true, SnapshotDetail(s, golden)));
      Step(r.state, if r.outcome == Raised then Done(Crashed) else Done(Taken(s, golden)))
    case DriftFailed(d, message) =>
      var r := Send(db, InsertReport(Report(d, None, None, Error, message)));
      Step(r.state, if r.outcome == Raised then Done(Crashed) else Done(PullFailed(message)))
    case DriftInsert(d, config, now, labels) =>
      var r := Send(db, InsertSnapshot(Snapshot(d, config, false, now, "")));
      Step(r.state, if r.outcome.Created? then DriftLookup(d, r.outcome.id, config, labels) else Done(Crashed))
    case DriftLookup(d, s, config, labels) =>
      var golden := Latest(db.security, d);
      Step(db,
        if golden.Some? && golden.value in db.security.snapshots
        then DriftCompare(d, s, golden.value, DiffLines(db.security.snapshots[golden.value].config, config, labels))
        else DriftPromote(d, s))
    case DriftPromote(d, s) =>
      var r := Send(db, SetGolden(s, Some(AUTO_NOTE)));
      Step(r.state, if r.outcome == Raised then Done(Crashed) else DriftInit(d, s))
    case DriftInit(d, s) =>
      var r := Send(db, InsertReport(Report(d, Some(s), Some(s), Clean, "")));
      Step(r.state, if r.outcome == Raised then Done(Crashed) else Done(Initialised))
    case DriftCompare(d, s, golden, lines) => StoreComparison(db, Comparison(d, s, golden, lines))
    case DriftAudit(d, report, drift) =>
      var r := Write(db, Audit(DriftCheck, Some(d), true, DriftDetail(drift, report)));
      Step(r.state,
          if r.outcome == Raised then Done(Crashed) else Done(Checked(if drift then Drifted else Clean, drift)))
    case GoldenClear(d, s) => Step(Send(db, ClearGolden(d)).state, GoldenSet(d, s))
    case GoldenSet(d, s) =>
      var r := Send(db, SetGolden(s, None));
      Step(r.state, if r.outcome == Raised then Done(Crashed) else Done(Promoted))
    case Done(_) => Step(db, p)
  }

  /** A program run for `k` statements with nothing in between; a finished one stays put. */
  function Solo(db: Db, p: Proc, k: nat): Step
    decreases k
  {
    if k == 0 then Step(db, p)
    else
      var next := Advance(db, p);
      Solo(next.db, next.proc, k - 1)
  }

  /** No program is longer than this. */
  const LONGEST: nat := 4

  // ------------------------------------------------------------ whole calls

  datatype Ran = Ran(db: Db, result: TaskResult)

  /** `take_config_snapshot` with nothing in between. */
  function RanTake(db: Db, d: Id, pulled: Wrappers.Result<string, string>, golden: bool, now: int): Ran {
    if d !in db.inventory.devices then Ran(db, NotFound)
    else if pulled.Err? then Ran(db, PullFailed(pulled.error))
    else
      var snap := db.security.next;
      var taken := Send(db, InsertSnapshot(Snapshot(d, pulled.value, golden, now, "")));
      Ran(Write(taken.state, Audit(SnapshotTaken, Some(d), true, SnapshotDetail(snap, golden))).state,
          Taken(snap, golden))
  }

  /** `run_drift_detection` with nothing in between. */
  function RanDrift(db: Db, d: Id, pulled: Wrappers.Result<string, string>, now: int, labels: Labels): Ran {
    if d !in db.inventory.devices then Ran(db, NotFound)
    else if pulled.Err? then
      Ran(Send(db, InsertReport(Report(d, None, None, Error, pulled.error))).state, PullFailed(pulled.error))
    else
      var snap := db.security.next;
      var taken := Send(db, InsertSnapshot(Snapshot(d, pulled.value, false, now, ""))).state;
      RanCheck(taken, d, snap, pulled.value, Latest(taken.security, d), labels)
  }

  /** The part of `run_drift_detection` after the golden lookup. */
  function RanCheck(db: Db, d: Id, snap: Id, config: string, golden: Option<Id>, labels: Labels): Ran {
    if golden.Some? && golden.value in db.security.snapshots then
      RanComparison(db,
          Comparison(d, snap, golden.value, DiffLines(db.security.snapshots[golden.value].config, config, labels)))
    else
      var promoted := Send(db, SetGolden(snap, Some(AUTO_NOTE))).state;
      Ran(Send(promoted, InsertReport(Report(d, Some(snap), Some(snap), Clean, ""))).state, Initialised)
  }

  function RanComparison(db: Db, report: Report): Ran {
    var drift := report.status == Drifted;
    var stored := Send(db, InsertReport(report)).state;
    Ran(Write(stored, Audit(DriftCheck, Some(report.device), true, DriftDetail(drift, db.security.next))).state,
        Checked(report.status, drift))
  }

  /** `set_golden` with nothing in between. */
  function RanPromote(db: Db, s: Id): Ran {
    if s !in db.security.snapshots then Ran(db, NotFound)
    else
      var cleared := Send(db, ClearGolden(db.security.snapshots[s].device)).state;
      Ran(Send(cleared, SetGolden(s, None)).state, Promoted)
  }

  function Whole(db: Db, q: Request): Ran {
    match q
    case Take(d, pulled, golden, now) => RanTake(db, d, pulled, golden, now)
    case Drift(d, pulled, now, labels) => RanDrift(db, d, pulled, now, labels)
    case Promote(s) => RanPromote(db, s)
  }

  // --------------------------------------------------------- the task bodies

  method TakeConfigSnapshot(store: Store, d: Id, pulled: Wrappers.Result<string, string>, golden: bool, now: int)
    returns (result: TaskResult)
    modifies store
    ensures Ran(store.db, result) == RanTake(old(store.db), d, pulled, golden, now)
  {
    if d !in store.db.inventory.devices { return NotFound; }
    if pulled.Err? { return PullFailed(pulled.error); }
    var snap := store.Execute(Security(InsertSnapshot(Snapshot(d, pulled.value, golden, now, ""))));
    var logged := store.Execute(Log(Audit(SnapshotTaken, Some(d), true, SnapshotDetail(snap.id, golden))));
    return Taken(snap.id, golden);
  }

  method RunDriftDetection(store: Store, d: Id, pulled: Wrappers.Result<string, string>, now: int, labels: Labels)
    returns (result: TaskResult)
    modifies store
    ensures Ran(store.db, result) == RanDrift(old(store.db), d, pulled, now, labels)
  {
    if d !in store.db.inventory.devices { return NotFound; }
    if pulled.Err? {
      var failed := store.Execute(Security(InsertReport(Report(d, None, None, Error, pulled.error))));
      return PullFailed(pulled.error);
    }
    var created := store.Execute(Security(InsertSnapshot(Snapshot(d, pulled.value, false, now, ""))));
    result := CheckAgainstGolden(store, d, created.id, pulled.value, labels);
  }

  /** The second half of the task: look the golden snapshot up, then promote or compare. */
  method CheckAgainstGolden(store: Store, d: Id, currentSnap: Id, currentConfig: string, labels: Labels)
    returns (result: TaskResult)
    requires d in store.db.inventory.devices && currentSnap in store.db.security.snapshots
    modifies store
    ensures Ran(store.db, result)
         == RanCheck(old(store.db), d, currentSnap, currentConfig, Latest(old(store.db).security, d), labels)
  {
    var golden := Latest(store.db.security, d);
    LatestIsFlagged(store.db.security.snapshots, d, store.db.security.next);
    if golden.None? {
      var flagged := store.Execute(Security(SetGolden(currentSnap, Some(AUTO_NOTE))));
      var reported := store.Execute(Security(InsertReport(Report(d, Some(currentSnap), Some(currentSnap), Clean, ""))));
      return Initialised;
    }
    var goldenConfig := store.db.security.snapshots[golden.value].config;
    var diffLines := DiffLines(goldenConfig, currentConfig, labels);
    result := RecordComparison(store, d, currentSnap, golden.value, diffLines);
  }

  /** The report and audit entry of a comparison. */
  method RecordComparison(store: Store, d: Id, currentSnap: Id, golden: Id, diffLines: seq<string>)
    returns (result: TaskResult)
    requires d in store.db.inventory.devices
    requires currentSnap in store.db.security.snapshots && golden in store.db.security.snapshots
    modifies store
    ensures Ran(store.db, result) == RanComparison(old(store.db), Comparison(d, currentSnap, golden, diffLines))
  {
    var hasDrift := diffLines != [];
    var status := if hasDrift then Drifted else Clean;
    var report := store.Execute(Security(InsertReport(
      Report(d, Some(golden), Some(currentSnap), status, Truncate(Text.Concat(diffLines))))));
    var logged := store.Execute(Log(Audit(DriftCheck, Some(d), true, DriftDetail(hasDrift, report.id))));
    return Checked(status, hasDrift);
  }

  method SetGoldenSnapshot(store: Store, s: Id) returns (result: TaskResult)
    modifies store
    ensures Ran(store.db, result) == RanPromote(old(store.db), s)
  {
    if s !in store.db.security.snapshots { return NotFound; }
    var d := store.db.security.snapshots[s].device;
    var cleared := store.Execute(Security(ClearGolden(d)));
    var saved := store.Execute(Security(SetGolden(s, None)));
    return Promoted;
  }

  // ----------------------------------------------------------------- lemmas

  /** The query answers with a flagged row of the device. */
  lemma {:induction false} LatestIsFlagged(snapshots: map<Id, Snapshot>, d: Id, n: Id)
    ensures var r := LatestBelow(snapshots, d, n);
            r.Some? ==> r.value < n && Flagged(snapshots, d, r.value)
  {
    if n > 0 { LatestIsFlagged(snapshots, d, n - 1); }
  }
}
