/** Any number of drift checks, snapshot tasks, golden requests and deletions,
    interleaved one database statement at a time. */
module SecurityRuns {
  import opened Wrappers
  import opened Database
  import opened SecurityTasks
  import opened Integrity
  import opened Sequences
  import opened DriftText
  import Difflib
  import Text

  datatype World = World(db: Db, procs: seq<Proc>)

  /** A new call arrives, a running program sends its next statement, or any other
      part of the platform sends one of its own. */
  datatype Event = Spawn(request: Request) | Tick(who: nat) | Elsewhere(stmt: Stmt)

  /** Statements of the rest of the platform. Among tasks and requests only the three programs write
      snapshots and reports, and none deletes a single snapshot; the admin site, which could, is left out. */
  predicate Foreign(s: Stmt) {
    match s
    case Security(t) => t.InsertRule? || t.InsertCheck?
    case Removal(t) => !t.DeleteSnapshot?
    case _ => true
  }

  function Next(w: World, e: Event): World {
    match e
    case Spawn(q) => w.(procs := w.procs + [Start(w.db, q)])
    case Tick(i) =>
      if i < |w.procs| then
        var r := Advance(w.db, w.procs[i]);
        World(r.db, w.procs[i := r.proc])
      else w
    case Elsewhere(s) => if Foreign(s) then w.(db := Exec(w.db, s).state) else w
  }

  function Play(w: World, es: seq<Event>): World
    decreases |es|
  {
    if es == [] then w else Play(Next(w, es[0]), es[1..])
  }

  // ------------------------------------------------------------ invariants

  ghost predicate Owns(t: SecurityTables, d: Id, s: Id) {
    s in t.snapshots && t.snapshots[s].device == d
  }

  /** A report either failed and mentions no snapshot, or compares two snapshots of its device, is clean
      exactly when their stored configs are equal, and stores a diff that turns one into the other. */
  ghost predicate Truthful(t: SecurityTables, r: Report) {
    if r.golden.None? || r.current.None? then r.golden.None? && r.current.None? && r.status == Error
    else
      && Owns(t, r.device, r.golden.value) && Owns(t, r.device, r.current.value)
      && r.status
         == (if t.snapshots[r.golden.value].config == t.snapshots[r.current.value].config then Clean else Drifted)
      && Explains(t.snapshots[r.golden.value].config, t.snapshots[r.current.value].config, r.diff)
  }

  ghost predicate AllTruthful(t: SecurityTables) {
    forall r :: r in t.reports ==> Truthful(t, t.reports[r])
  }

  ghost predicate Holds(t: SecurityTables, d: Id, s: Id, config: string) {
    Owns(t, d, s) && t.snapshots[s].config == config
  }

  /** What a program remembers still agrees with the database while its device exists. */
  ghost predicate Remembers(t: SecurityTables, devices: map<Id, Device>, p: Proc) {
    match p
    case DriftLookup(d, s, config, _) => d in devices ==> Holds(t, d, s, config)
    case DriftPromote(d, s) => d in devices ==> Owns(t, d, s)
    case DriftInit(d, s) => d in devices ==> Owns(t, d, s)
    case DriftCompare(d, s, g, lines) =>
      d in devices ==>
          Owns(t, d, s) && Owns(t, d, g) && Turns(t.snapshots[g].config, t.snapshots[s].config, lines)
    case GoldenClear(d, s) => d in devices ==> Owns(t, d, s)
    case GoldenSet(d, s) => d in devices ==> Owns(t, d, s)
    case _ => true
  }

  /** The device a program works on. */
  function DeviceOf(p: Proc): Option<Id> {
    if p.Done? then None else Some(p.device)
  }

  /** New keys are unused. */
  ghost predicate Numbered(db: Db) {
    && Below(db.security.snapshots, db.security.next) && Below(db.inventory.devices, db.inventory.next)
    && (forall s :: s in db.security.snapshots ==> db.security.snapshots[s].device < db.inventory.next)
    && (forall r :: r in db.security.reports ==> db.security.reports[r].device < db.inventory.next)
  }

  ghost predicate Sane(w: World) {
    var t := w.db.security;
    && Numbered(w.db)
    && AllTruthful(t)
    && (forall i :: 0 <= i < |w.procs| ==> Remembers(t, w.db.inventory.devices, w.procs[i]))
    && (forall i :: 0 <= i < |w.procs| && DeviceOf(w.procs[i]).Some? ==>
         DeviceOf(w.procs[i]).value < w.db.inventory.next)
  }

  // ------------------------------------------------ what one statement keeps

  /** Every snapshot whose device survives is still there with its owner and its config,
      and no deleted device comes back. */
  ghost predicate Persist(before: Db, after: Db) {
    var t, t' := before.security, after.security;
    && before.inventory.next <= after.inventory.next
    && (forall d :: d in after.inventory.devices && d < before.inventory.next ==> d in before.inventory.devices)
    && (forall s :: s in t.snapshots && t.snapshots[s].device in after.inventory.devices ==>
         Holds(t', t.snapshots[s].device, s, t.snapshots[s].config))
  }

  lemma RememberingPersists(before: Db, after: Db, p: Proc)
    requires Persist(before, after)
    requires Remembers(before.security, before.inventory.devices, p)
    requires DeviceOf(p).Some? ==> DeviceOf(p).value < before.inventory.next
    ensures Remembers(after.security, after.inventory.devices, p)
  {
  }

  lemma SendPersists(db: Db, s: SecurityStmt)
    requires Numbered(db)
    ensures var after := Send(db, s).state;
            Numbered(after) && Persist(db, after) && after.inventory == db.inventory
  {
    match s {
      case InsertSnapshot(_) =>
      case ClearGolden(_) =>
      case SetGolden(_, _) =>
      case InsertReport(_) =>
      case InsertRule(_) =>
      case InsertCheck(_) =>
    }
  }

  /** Statements that add no report keep every report truthful. */
  lemma SendKeepsTruth(db: Db, s: SecurityStmt)
    requires Numbered(db) && AllTruthful(db.security)
    requires s.InsertReport? && s.report.device in db.inventory.devices ==> Truthful(db.security, s.report)
    ensures AllTruthful(Send(db, s).state.security)
  {
    var t, t' := db.security, Send(db, s).state.security;
    SendPersists(db, s);
    forall r | r in t'.reports
      ensures Truthful(t', t'.reports[r])
    {
      match s {
        case InsertReport(x) =>
        case InsertSnapshot(_) =>
        case ClearGolden(_) =>
        case SetGolden(_, _) =>
        case InsertRule(_) =>
        case InsertCheck(_) =>
      }
    }
  }

  lemma WriteKeeps(db: Db, x: Audit)
    requires Numbered(db)
    ensures Numbered(Write(db, x).state)
    ensures Write(db, x).state.inventory == db.inventory && Write(db, x).state.security == db.security
    ensures Persist(db, Write(db, x).state)
  {
  }

  /** Deleting a device takes its own reports along; every other report keeps both references. */
  lemma RemovalKeepsTruth(db: Db, d: Id)
    requires Numbered(db) && AllTruthful(db.security)
    ensures Persist(db, RemoveDevice(db, d))
    ensures AllTruthful(RemoveDevice(db, d).security)
  {
    hide Explains;
    var t, t' := db.security, DropFromSecurity(db.security, d);
    forall r | r in t'.reports
      ensures Truthful(t', t'.reports[r])
    {
      assert Truthful(t, t.reports[r]);
      assert t'.reports[r] == t.reports[r];
    }
  }

  lemma ForeignKeeps(db: Db, s: Stmt)
    requires Numbered(db) && AllTruthful(db.security) && Foreign(s)
    ensures var after := Exec(db, s).state;
            Numbered(after) && Persist(db, after) && AllTruthful(after.security)
  {
    match s {
      case Inventory(t) => InventoryPersists(db, t);
      case Security(t) =>
        assert Exec(db, s).state == Send(db, t).state;
        SendPersists(db, t);
        SendKeepsTruth(db, t);
      case Provisioning(_) =>
      case Monitoring(_) =>
      case Log(_) =>
      case Removal(t) =>
        if t.DeleteDevice? { RemovalKeepsTruth(db, t.id); }
        else { OtherRemovalPersists(db, t); }
    }
  }

  lemma InventoryPersists(db: Db, s: InventoryStmt)
    requires Numbered(db)
    ensures Numbered(db.(inventory := ExecInventory(db.inventory, s).state))
    ensures Persist(db, db.(inventory := ExecInventory(db.inventory, s).state))
  {
    match s {
      case InsertDevice(_) =>
      case SetDeviceStatus(_, _) =>
      case InsertDiscovery(_) =>
      case SaveDiscovery(_, _) =>
    }
  }

  lemma OtherRemovalPersists(db: Db, s: RemovalStmt)
    requires Numbered(db) && AllTruthful(db.security) && !s.DeleteDevice? && !s.DeleteSnapshot?
    ensures Numbered(ExecRemoval(db, s).state)
    ensures Persist(db, ExecRemoval(db, s).state)
    ensures AllTruthful(ExecRemoval(db, s).state.security)
  {
    match s {
      case DeleteRule(_) =>
      case DeleteTemplate(_) =>
      case DeleteJob(_) =>
    }
  }

  // ------------------------------------------------------ what one program keeps

  /** After `r`, the database is still sound and the program that sent it remembers right. */
  ghost predicate Kept(db: Db, p: Proc, r: Step) {
    && Numbered(r.db) && Persist(db, r.db) && r.db.inventory == db.inventory
    && AllTruthful(r.db.security)
    && Remembers(r.db.security, r.db.inventory.devices, r.proc)
    && (DeviceOf(r.proc).Some? ==> DeviceOf(r.proc) == DeviceOf(p))
  }

  lemma SentKeeps(db: Db, s: SecurityStmt)
    requires Numbered(db) && AllTruthful(db.security)
    requires s.InsertReport? && s.report.device in db.inventory.devices ==> Truthful(db.security, s.report)
    ensures var after := Send(db, s).state;
            && Numbered(after) && Persist(db, after) && after.inventory == db.inventory
            && AllTruthful(after.security)
  {
    SendPersists(db, s);
    SendKeepsTruth(db, s);
  }

  lemma TakeOrGoldenKeeps(db: Db, p: Proc)
    requires p.TakeInsert? || p.TakeAudit? || p.GoldenClear? || p.GoldenSet? || p.Done?
    requires Numbered(db) && AllTruthful(db.security)
    requires Remembers(db.security, db.inventory.devices, p)
    ensures Kept(db, p, Advance(db, p))
  {
    hide DiffLines, Send, AllTruthful;
    match p {
      case TakeInsert(d, config, golden, now) => SentKeeps(db, InsertSnapshot(Snapshot(d, config, golden, now, "")));
      case TakeAudit(d, s, golden) => WriteKeeps(db, Audit(SnapshotTaken, Some(d), true, SnapshotDetail(s, golden)));
      case GoldenClear(d, s) => SentKeeps(db, ClearGolden(d));
      case GoldenSet(d, s) => SentKeeps(db, SetGolden(s, None));
      case Done(_) =>
    }
  }

  lemma DriftStartKeeps(db: Db, p: Proc)
    requires p.DriftFailed? || p.DriftInsert? || p.DriftLookup? || p.DriftPromote?
    requires Numbered(db) && AllTruthful(db.security)
    requires Remembers(db.security, db.inventory.devices, p)
    ensures Kept(db, p, Advance(db, p))
  {
    hide Difflib.UnifiedDiff;
    match p {
      case DriftFailed(d, message) => SentKeeps(db, InsertReport(Report(d, None, None, Error, message)));
      case DriftInsert(d, config, now, labels) => SentKeeps(db, InsertSnapshot(Snapshot(d, config, false, now, "")));
      case DriftLookup(d, s, config, labels) =>
        LatestIsFlagged(db.security.snapshots, d, db.security.next);
        var g := Latest(db.security, d);
        if g.Some? {
          UnifiedDiffTurns(db.security.snapshots[g.value].config, config, labels.fromFile, labels.toFile);
        }
      case DriftPromote(d, s) => SentKeeps(db, SetGolden(s, Some(AUTO_NOTE)));
    }
  }

  lemma ComparisonExplains(golden: string, current: string, d: Id, s: Id, g: Id, lines: seq<string>)
    ensures Turns(golden, current, lines) ==>
              Explains(golden, current, Comparison(d, s, g, lines).diff)
              && Comparison(d, s, g, lines).status == if golden == current then Clean else Drifted
  {
    hide Text.Concat, Difflib.UnifiedDiff;
    assert CutFrom(Text.Concat(lines), Truncate(Text.Concat(lines)));
  }

  lemma DriftEndKeeps(db: Db, p: Proc)
    requires p.DriftInit? || p.DriftCompare? || p.DriftAudit?
    requires Numbered(db) && AllTruthful(db.security)
    requires Remembers(db.security, db.inventory.devices, p)
    ensures Kept(db, p, Advance(db, p))
  {
    hide DiffLines, Send, Persist, Turns, Explains;
    match p {
      case DriftInit(d, s) =>
        if Owns(db.security, d, s) { NothingTurns(db.security.snapshots[s].config); }
        SentKeeps(db, InsertReport(Report(d, Some(s), Some(s), Clean, "")));
      case DriftCompare(d, s, g, lines) =>
        if Owns(db.security, d, s) && Owns(db.security, d, g) {
          ComparisonExplains(db.security.snapshots[g].config, db.security.snapshots[s].config, d, s, g, lines);
        }
        SentKeeps(db, InsertReport(Comparison(d, s, g, lines)));
      case DriftAudit(d, report, drift) => WriteKeeps(db, Audit(DriftCheck, Some(d), true, DriftDetail(drift, report)));
    }
  }

  lemma AdvanceKeeps(db: Db, p: Proc)
    requires Numbered(db) && AllTruthful(db.security)
    requires Remembers(db.security, db.inventory.devices, p)
    ensures Kept(db, p, Advance(db, p))
  {
    if p.DriftFailed? || p.DriftInsert? || p.DriftLookup? || p.DriftPromote? { DriftStartKeeps(db, p); }
    else if p.DriftInit? || p.DriftCompare? || p.DriftAudit? { DriftEndKeeps(db, p); }
    else { TakeOrGoldenKeeps(db, p); }
  }

  lemma NextKeepsSane(w: World, e: Event)
    requires Sane(w)
    ensures Sane(Next(w, e)) && Persist(w.db, Next(w, e).db)
  {
    hide Advance, Exec, AllTruthful;
    match e {
      case Spawn(q) =>
      case Tick(i) =>
        if i < |w.procs| {
          AdvanceKeeps(w.db, w.procs[i]);
          OthersRemember(w, Advance(w.db, w.procs[i]).db);
        }
      case Elsewhere(s) =>
        if Foreign(s) {
          ForeignKeeps(w.db, s);
          OthersRemember(w, Exec(w.db, s).state);
        }
    }
  }

  lemma OthersRemember(w: World, after: Db)
    requires Sane(w) && Persist(w.db, after)
    ensures forall i :: 0 <= i < |w.procs| ==> Remembers(after.security, after.inventory.devices, w.procs[i])
  {
    forall i | 0 <= i < |w.procs|
      ensures Remembers(after.security, after.inventory.devices, w.procs[i])
    {
      RememberingPersists(w.db, after, w.procs[i]);
    }
  }

  /** In every reachable interleaved state every report tells the truth about the two stored
      configs, and ERROR reports are exactly those without snapshots. */
  lemma {:induction false} PlayKeepsSane(w: World, es: seq<Event>)
    requires Sane(w)
    ensures Sane(Play(w, es))
    decreases |es|
  {
    if es != [] {
      NextKeepsSane(w, es[0]);
      PlayKeepsSane(Next(w, es[0]), es[1..]);
    }
  }

  // ---------------------------------------------------- no baseline is lost

  ghost predicate HasGolden(t: SecurityTables, d: Id) {
    exists s :: Flagged(t.snapshots, d, s)
  }

  /** Some `set_golden` request on `d` is between its clear and its set. */
  ghost predicate Pending(procs: seq<Proc>, d: Id) {
    exists i :: 0 <= i < |procs| && procs[i].GoldenSet? && procs[i].device == d
  }

  /** While `d` exists it has a golden snapshot, or is about to get one back. */
  ghost predicate Baseline(w: World, d: Id) {
    d in w.db.inventory.devices ==> HasGolden(w.db.security, d) || Pending(w.procs, d)
  }

  ghost predicate FlagsKept(t: SecurityTables, t': SecurityTables, d: Id) {
    forall s :: Flagged(t.snapshots, d, s) ==> Flagged(t'.snapshots, d, s)
  }

  /** Only clearing a device's flags removes one of them. */
  lemma SendKeepsFlags(db: Db, s: SecurityStmt, d: Id)
    requires Numbered(db)
    requires s.ClearGolden? ==> s.device != d
    ensures FlagsKept(db.security, Send(db, s).state.security, d)
  {
    match s {
      case InsertSnapshot(_) =>
      case ClearGolden(_) =>
      case SetGolden(_, _) =>
      case InsertReport(_) =>
      case InsertRule(_) =>
      case InsertCheck(_) =>
    }
  }

  lemma AdvanceKeepsFlags(db: Db, p: Proc, d: Id)
    requires Numbered(db)
    requires p.GoldenClear? ==> p.device != d
    ensures FlagsKept(db.security, Advance(db, p).db.security, d)
  {
    hide DiffLines;
    match p {
      case TakeInsert(e, config, golden, now) =>
          SendKeepsFlags(db, InsertSnapshot(Snapshot(e, config, golden, now, "")), d);
      case DriftInsert(e, config, now, _) => SendKeepsFlags(db, InsertSnapshot(Snapshot(e, config, false, now, "")), d);
      case DriftPromote(_, s) => SendKeepsFlags(db, SetGolden(s, Some(AUTO_NOTE)), d);
      case GoldenClear(e, _) => SendKeepsFlags(db, ClearGolden(e), d);
      case GoldenSet(_, s) => SendKeepsFlags(db, SetGolden(s, None), d);
      case _ =>
    }
  }

  lemma ForeignKeepsFlags(db: Db, s: Stmt, d: Id)
    requires Foreign(s) && d in Exec(db, s).state.inventory.devices
    ensures FlagsKept(db.security, Exec(db, s).state.security, d)
  {
    match s {
      case Security(t) =>
      case Removal(t) =>
        match t {
          case DeleteDevice(_) =>
          case DeleteRule(_) =>
          case DeleteTemplate(_) =>
          case DeleteJob(_) =>
        }
      case _ =>
    }
  }

  /** Setting a flag gives its device a golden snapshot. */
  lemma SetGivesGolden(db: Db, d: Id, s: Id, note: Option<string>)
    requires Owns(db.security, d, s)
    ensures HasGolden(Send(db, SetGolden(s, note)).state.security, d)
  {
    assert Flagged(Send(db, SetGolden(s, note)).state.security.snapshots, d, s);
  }

  lemma TickKeepsBaseline(w: World, i: nat, d: Id)
    requires Sane(w) && i < |w.procs| && d in w.db.inventory.devices
    requires HasGolden(w.db.security, d) || Pending(w.procs, d)
    ensures var w' := Next(w, Tick(i)); HasGolden(w'.db.security, d) || Pending(w'.procs, d)
  {
    hide DiffLines, Send;
    var p := w.procs[i];
    var w' := Next(w, Tick(i));
    if p.GoldenClear? && p.device == d {
      assert w'.procs[i].GoldenSet? && w'.procs[i].device == d;
    } else {
      AdvanceKeepsFlags(w.db, p, d);
      if p.GoldenSet? && p.device == d {
        assert Remembers(w.db.security, w.db.inventory.devices, p);
        SetGivesGolden(w.db, d, p.snapshot, None);
      } else if Pending(w.procs, d) {
        var j :| 0 <= j < |w.procs| && w.procs[j].GoldenSet? && w.procs[j].device == d;
        assert w'.procs[j] == w.procs[j];
      }
    }
  }

  lemma NextKeepsBaseline(w: World, e: Event, d: Id)
    requires Sane(w) && d < w.db.inventory.next && Baseline(w, d)
    ensures Baseline(Next(w, e), d)
  {
    hide Advance, Exec, Start;
    var w' := Next(w, e);
    NextKeepsSane(w, e);
    if d in w'.db.inventory.devices {
      match e {
        case Spawn(q) =>
          if Pending(w.procs, d) {
            var j :| 0 <= j < |w.procs| && w.procs[j].GoldenSet? && w.procs[j].device == d;
            assert w'.procs[j] == w.procs[j];
          }
        case Tick(i) => if i < |w.procs| { TickKeepsBaseline(w, i, d); }
        case Elsewhere(s) => if Foreign(s) { ForeignKeepsFlags(w.db, s, d); }
      }
    }
  }

  /** No lost baseline: once a device has a golden snapshot, it keeps having one through every
      interleaving, except between the two statements of a `set_golden` request. */
  lemma {:induction false} BaselineNeverLost(w: World, es: seq<Event>, d: Id)
    requires Sane(w) && d < w.db.inventory.next && Baseline(w, d)
    ensures Baseline(Play(w, es), d)
    decreases |es|
  {
    if es != [] {
      NextKeepsSane(w, es[0]);
      NextKeepsBaseline(w, es[0], d);
      BaselineNeverLost(Next(w, es[0]), es[1..], d);
    }
  }

  ghost predicate Quiet(w: World) {
    forall i :: 0 <= i < |w.procs| ==> w.procs[i].Done?
  }

  /** Hence when nothing is running, a surviving device that ever had a golden snapshot has one. */
  lemma QuietWorldHasBaseline(w: World, before: seq<Event>, after: seq<Event>, d: Id)
    requires Sane(w)
    requires d in Play(w, before).db.inventory.devices && HasGolden(Play(w, before).db.security, d)
    requires Quiet(Play(w, before + after)) && d in Play(w, before + after).db.inventory.devices
    ensures HasGolden(Play(w, before + after).db.security, d)
  {
    PlayKeepsSane(w, before);
    PlayConcat(w, before, after);
    BaselineNeverLost(Play(w, before), after, d);
  }

  lemma {:induction false} PlayConcat(w: World, x: seq<Event>, y: seq<Event>)
    ensures Play(w, x + y) == Play(Play(w, x), y)
    decreases |x|
  {
    hide Next;
    if x == [] {
      EmptyConcat(y);
    } else {
      PlayConcat(Next(w, x[0]), x[1..], y);
      TailOfConcat(x, y);
    }
  }

  // ----------------------------------------------- every check had a baseline

  /** Devices the system has compared something for, or is about to. */
  ghost predicate Compared(w: World, d: Id) {
    || (exists r ::
         r in w.db.security.reports && w.db.security.reports[r].device == d && w.db.security.reports[r].golden.Some?)
    || (exists i :: 0 <= i < |w.procs| && (w.procs[i].DriftInit? || w.procs[i].DriftCompare?) && w.procs[i].device == d)
  }

  ghost predicate ComparedHaveBaseline(w: World) {
    forall d: Id :: Compared(w, d) ==> Baseline(w, d)
  }

  ghost predicate Reported(t: SecurityTables, d: Id) {
    exists r :: r in t.reports && t.reports[r].device == d && t.reports[r].golden.Some?
  }

  lemma ForeignAddsNoReport(db: Db, s: Stmt, d: Id)
    requires Foreign(s) && Reported(Exec(db, s).state.security, d)
    ensures Reported(db.security, d)
  {
    var t' := Exec(db, s).state.security;
    var r :| r in t'.reports && t'.reports[r].device == d && t'.reports[r].golden.Some?;
    assert r in db.security.reports && db.security.reports[r].device == d && db.security.reports[r].golden.Some? by {
      match s {
        case Security(t) =>
        case Removal(t) =>
          match t {
            case DeleteDevice(_) =>
            case DeleteRule(_) =>
            case DeleteTemplate(_) =>
            case DeleteJob(_) =>
          }
        case _ =>
      }
    }
  }

  /** A program stores a comparison only when it was about to compare. */
  lemma AdvanceReports(db: Db, p: Proc, d: Id)
    requires Reported(Advance(db, p).db.security, d)
    ensures Reported(db.security, d) || ((p.DriftInit? || p.DriftCompare?) && p.device == d)
  {
    hide DiffLines;
    var t' := Advance(db, p).db.security;
    var r :| r in t'.reports && t'.reports[r].device == d && t'.reports[r].golden.Some?;
    if p.TakeInsert? || p.TakeAudit? || p.DriftInsert? || p.DriftLookup? || p.DriftPromote? || p.DriftAudit?
      || p.GoldenClear? || p.GoldenSet? || p.Done? {
      assert t'.reports == db.security.reports;
    } else if r in db.security.reports && t'.reports[r] == db.security.reports[r] {
    } else {
      assert p.DriftFailed? || p.DriftInit? || p.DriftCompare?;
    }
  }

  /** A program that is about to compare, or has just promoted, leaves its device with a golden snapshot. */
  lemma AdvanceFindsBaseline(db: Db, p: Proc, d: Id)
    requires d in db.inventory.devices && Remembers(db.security, db.inventory.devices, p)
    requires var p' := Advance(db, p).proc; (p'.DriftInit? || p'.DriftCompare?) && p'.device == d
    requires !(p.DriftInit? || p.DriftCompare?)
    ensures HasGolden(Advance(db, p).db.security, d)
  {
    match p {
      case DriftLookup(e, _, _, _) =>
        LatestIsFlagged(db.security.snapshots, e, db.security.next);
        assert Flagged(db.security.snapshots, e, Latest(db.security, e).value);
      case DriftPromote(e, s) => SetGivesGolden(db, e, s, Some(AUTO_NOTE));
      case _ =>
    }
  }

  lemma TickKeepsCompared(w: World, i: nat, d: Id)
    requires Sane(w) && i < |w.procs| && ComparedHaveBaseline(w)
    requires Compared(Next(w, Tick(i)), d) && !Compared(w, d)
    ensures Baseline(Next(w, Tick(i)), d)
  {
    hide Advance;
    var w' := Next(w, Tick(i));
    var p := w.procs[i];
    AdvanceKeeps(w.db, p);
    if Reported(w'.db.security, d) {
      AdvanceReports(w.db, p, d);
      assert false;
    }
    var j :| 0 <= j < |w'.procs| && (w'.procs[j].DriftInit? || w'.procs[j].DriftCompare?) && w'.procs[j].device == d;
    assert j == i;
    if d in w'.db.inventory.devices { AdvanceFindsBaseline(w.db, p, d); }
  }

  lemma NextKeepsCompared(w: World, e: Event)
    requires Sane(w) && ComparedHaveBaseline(w)
    ensures ComparedHaveBaseline(Next(w, e))
  {
    var w' := Next(w, e);
    forall d: Id | Compared(w', d)
      ensures Baseline(w', d)
    {
      if Compared(w, d) {
        NextKeepsBaseline(w, e, d);
      } else if e.Tick? && e.who < |w.procs| {
        TickKeepsCompared(w, e.who, d);
      } else if e.Elsewhere? && Foreign(e.stmt) {
        if Reported(w'.db.security, d) { ForeignAddsNoReport(w.db, e.stmt, d); }
        assert false;
      } else if e.Spawn? {
        assert false;
      }
    }
  }

  /** Every device with a non-ERROR report has a baseline: the system never forgets what it compared against. */
  lemma {:induction false} ComparedAlwaysHaveBaseline(w: World, es: seq<Event>)
    requires Sane(w) && ComparedHaveBaseline(w)
    ensures ComparedHaveBaseline(Play(w, es))
    decreases |es|
  {
    if es != [] {
      NextKeepsSane(w, es[0]);
      NextKeepsCompared(w, es[0]);
      ComparedAlwaysHaveBaseline(Next(w, es[0]), es[1..]);
    }
  }

  // ------------------------------------------- interleavings are statement runs

  /** Whatever happens is a sequence of database statements. */
  lemma AdvanceIsRun(db: Db, p: Proc) returns (ss: seq<Stmt>)
    ensures Advance(db, p).db == Run(db, ss)
  {
    hide DiffLines, Latest;
    ss := match p
      case TakeInsert(d, config, golden, now) => [Security(InsertSnapshot(Snapshot(d, config, golden, now, "")))]
      case TakeAudit(d, s, golden) => [Log(Audit(SnapshotTaken, Some(d), true, SnapshotDetail(s, golden)))]
      case DriftFailed(d, message) => [Security(InsertReport(Report(d, None, None, Error, message)))]
      case DriftInsert(d, config, now, _) => [Security(InsertSnapshot(Snapshot(d, config, false, now, "")))]
      case DriftPromote(_, s) => [Security(SetGolden(s, Some(AUTO_NOTE)))]
      case DriftInit(d, s) => [Security(InsertReport(Report(d, Some(s), Some(s), Clean, "")))]
      case DriftCompare(d, s, g, lines) => [Security(InsertReport(Comparison(d, s, g, lines)))]
      case DriftAudit(d, report, drift) => [Log(Audit(DriftCheck, Some(d), true, DriftDetail(drift, report)))]
      case GoldenClear(d, _) => [Security(ClearGolden(d))]
      case GoldenSet(_, s) => [Security(SetGolden(s, None))]
      case _ => [];
    if ss == [] {
      assert p.DriftLookup? || p.Done?;
    } else {
      OneStatement(db, ss[0]);
      assert Advance(db, p).db == Exec(db, ss[0]).state;
    }
  }

  lemma {:induction false} PlayIsRun(w: World, es: seq<Event>) returns (ss: seq<Stmt>)
    ensures Play(w, es).db == Run(w.db, ss)
    decreases |es|
  {
    hide Exec, Advance;
    if es == [] {
      ss := [];
    } else {
      var first: seq<Stmt> := [];
      if es[0].Tick? && es[0].who < |w.procs| {
        first := AdvanceIsRun(w.db, w.procs[es[0].who]);
      } else if es[0].Elsewhere? && Foreign(es[0].stmt) {
        first := [es[0].stmt];
        OneStatement(w.db, es[0].stmt);
      }
      var rest := PlayIsRun(Next(w, es[0]), es[1..]);
      RunConcat(w.db, first, rest);
      ss := first + rest;
    }
  }

  /** So every interleaving keeps the whole database integral and its audit log growing. */
  lemma PlayKeepsIntegrity(w: World, es: seq<Event>)
    requires Integral(w.db)
    ensures Integral(Play(w, es).db)
    ensures AuditExtends(w.db.audit, Play(w, es).db.audit)
  {
    var ss := PlayIsRun(w, es);
    RunKeepsIntegrity(w.db, ss);
  }

  // ------------------------------------------------- links between the views

  /** A call that nothing interrupts does exactly what its task body does. */
  lemma TakeAlone(db: Db, d: Id, pulled: Wrappers.Result<string, string>, golden: bool, now: int)
    ensures var q := Take(d, pulled, golden, now);
            var ran := RanTake(db, d, pulled, golden, now);
            Solo(db, Start(db, q), LONGEST) == Step(ran.db, Done(ran.result))
  {
    hide DiffLines;
    var q := Take(d, pulled, golden, now);
    var ran := RanTake(db, d, pulled, golden, now);
    SoloDone(ran.db, ran.result);
    if d in db.inventory.devices && pulled.Ok? {
      var a := Advance(db, Start(db, q));
      assert Solo(db, Start(db, q), 4) == Solo(a.db, a.proc, 3);
      assert Advance(a.db, a.proc) == Step(ran.db, Done(ran.result));
      assert Solo(a.db, a.proc, 3) == Solo(ran.db, Done(ran.result), 2);
    }
  }

  lemma PromoteAlone(db: Db, s: Id)
    ensures var ran := RanPromote(db, s);
            Solo(db, Start(db, Promote(s)), LONGEST) == Step(ran.db, Done(ran.result))
  {
    hide DiffLines;
    var ran := RanPromote(db, s);
    SoloDone(ran.db, ran.result);
    if s in db.security.snapshots {
      var a := Advance(db, Start(db, Promote(s)));
      assert Solo(db, Start(db, Promote(s)), 4) == Solo(a.db, a.proc, 3);
      assert Advance(a.db, a.proc) == Step(ran.db, Done(ran.result));
      assert Solo(a.db, a.proc, 3) == Solo(ran.db, Done(ran.result), 2);
    }
  }

  lemma SoloDone(db: Db, r: TaskResult)
    ensures Solo(db, Done(r), 4) == Solo(db, Done(r), 3) == Solo(db, Done(r), 2) == Solo(db, Done(r), 1)
        == Step(db, Done(r))
  {
  }

  lemma SoloStep(db: Db, p: Proc, next: Step, k: nat)
    requires k > 0 && next == Advance(db, p)
    ensures Solo(db, p, k) == Solo(next.db, next.proc, k - 1)
  {
    hide Advance;
  }

  lemma SoloZero(db: Db, p: Proc)
    ensures Solo(db, p, 0) == Step(db, p)
  {
  }

  lemma PromoteStep(db: Db, d: Id, snap: Id)
    requires snap in db.security.snapshots
    ensures var r := Send(db, SetGolden(snap, Some(AUTO_NOTE)));
            Advance(db, DriftPromote(d, snap)) == Step(r.state, DriftInit(d, snap))
    ensures var after := Send(db, SetGolden(snap, Some(AUTO_NOTE))).state;
            after.inventory == db.inventory && snap in after.security.snapshots
  {
    hide DiffLines;
  }

  lemma InitStep(db: Db, d: Id, snap: Id)
    requires d in db.inventory.devices && snap in db.security.snapshots
    ensures var r := Send(db, InsertReport(Report(d, Some(snap), Some(snap), Clean, "")));
            Advance(db, DriftInit(d, snap)) == Step(r.state, Done(Initialised))
  {
    hide DiffLines;
  }

  /** The rest of a check that found no golden snapshot, run alone. */
  lemma PromotionAlone(db: Db, d: Id, snap: Id)
    requires d in db.inventory.devices && snap in db.security.snapshots
    ensures var promoted := Send(db, SetGolden(snap, Some(AUTO_NOTE))).state;
            var reported := Send(promoted, InsertReport(Report(d, Some(snap), Some(snap), Clean, ""))).state;
            Solo(db, DriftPromote(d, snap), 2) == Step(reported, Done(Initialised))
  {
    hide Solo, Advance, Send;
    var promoted := Send(db, SetGolden(snap, Some(AUTO_NOTE))).state;
    PromoteStep(db, d, snap);
    SoloStep(db, DriftPromote(d, snap), Step(promoted, DriftInit(d, snap)), 2);
    var reported := Send(promoted, InsertReport(Report(d, Some(snap), Some(snap), Clean, ""))).state;
    InitStep(promoted, d, snap);
    SoloStep(promoted, DriftInit(d, snap), Step(reported, Done(Initialised)), 1);
    SoloZero(reported, Done(Initialised));
  }

  /** The rest of a check that found one. */
  lemma ComparisonAlone(db: Db, d: Id, snap: Id, g: Id, lines: seq<string>)
    requires d in db.inventory.devices && snap in db.security.snapshots && g in db.security.snapshots
    ensures var ran := RanComparison(db, Comparison(d, snap, g, lines));
            Solo(db, DriftCompare(d, snap, g, lines), 2) == Step(ran.db, Done(ran.result))
  {
    hide Send, StoreComparison, Write, Solo, DiffLines;
    var report := Comparison(d, snap, g, lines);
    StoreStep(db, report);
    var a := StoreComparison(db, report);
    SoloStep(db, DriftCompare(d, snap, g, lines), a, 2);
    AuditStep(a.db, d, db.security.next, a.proc.drift);
  }

  lemma StoreStep(db: Db, report: Report)
    requires report.device in db.inventory.devices
    requires Points(report.golden, db.security.snapshots.Keys) && Points(report.current, db.security.snapshots.Keys)
    ensures StoreComparison(db, report)
         == Step(Send(db, InsertReport(report)).state,
             DriftAudit(report.device, db.security.next, report.status == Drifted))
    ensures Send(db, InsertReport(report)).state.inventory == db.inventory
  {
  }

  lemma AuditStep(db: Db, d: Id, report: Id, drift: bool)
    requires d in db.inventory.devices
    ensures Solo(db, DriftAudit(d, report, drift), 1)
         == Step(Write(db, Audit(DriftCheck, Some(d), true, DriftDetail(drift, report))).state,
                 Done(Checked(if drift then Drifted else Clean, drift)))
  {
    hide DiffLines;
  }

  /** The check after the new snapshot is stored, run alone. */
  lemma CheckAlone(db: Db, d: Id, snap: Id, config: string, labels: Labels)
    requires d in db.inventory.devices && snap in db.security.snapshots
    ensures var ran := RanCheck(db, d, snap, config, Latest(db.security, d), labels);
            Solo(db, DriftLookup(d, snap, config, labels), 3) == Step(ran.db, Done(ran.result))
  {
    hide Solo, Send, DiffLines, Latest, RanComparison;
    var p := DriftLookup(d, snap, config, labels);
    var golden := Latest(db.security, d);
    if golden.Some? && golden.value in db.security.snapshots {
      var lines := DiffLines(db.security.snapshots[golden.value].config, config, labels);
      SoloStep(db, p, Step(db, DriftCompare(d, snap, golden.value, lines)), 3);
      ComparisonAlone(db, d, snap, golden.value, lines);
    } else {
      SoloStep(db, p, Step(db, DriftPromote(d, snap)), 3);
      PromotionAlone(db, d, snap);
    }
  }

  lemma DriftAlone(db: Db, d: Id, pulled: Wrappers.Result<string, string>, now: int, labels: Labels)
    ensures var q := Drift(d, pulled, now, labels);
            var ran := RanDrift(db, d, pulled, now, labels);
            Solo(db, Start(db, q), LONGEST) == Step(ran.db, Done(ran.result))
  {
    hide Solo, DiffLines, RanCheck, Latest;
    var q := Drift(d, pulled, now, labels);
    var ran := RanDrift(db, d, pulled, now, labels);
    SoloDone(ran.db, ran.result);
    if d !in db.inventory.devices {
    } else if pulled.Err? {
      SoloStep(db, DriftFailed(d, pulled.error), Step(ran.db, Done(ran.result)), 4);
    } else {
      var snap := db.security.next;
      var taken := Send(db, InsertSnapshot(Snapshot(d, pulled.value, false, now, ""))).state;
      SoloStep(db, DriftInsert(d, pulled.value, now, labels), Step(taken, DriftLookup(d, snap, pulled.value, labels)),
          4);
      CheckAlone(taken, d, snap, pulled.value, labels);
    }
  }

  lemma WholeIsSolo(db: Db, q: Request)
    ensures Solo(db, Start(db, q), LONGEST) == Step(Whole(db, q).db, Done(Whole(db, q).result))
  {
    match q
    case Take(d, pulled, golden, now) => TakeAlone(db, d, pulled, golden, now);
    case Drift(d, pulled, now, labels) => DriftAlone(db, d, pulled, now, labels);
    case Promote(s) => PromoteAlone(db, s);
  }
}
