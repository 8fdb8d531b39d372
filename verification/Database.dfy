/** The platform's database: rows, tables, and every statement the tasks and
    requests send to it. A task is a program of these statements; a run of the
    platform is any sequence of them. */
module Database {
  import opened Wrappers

  // ------------------------------------------------------------------ rows

  type Id = nat

  datatype DeviceStatus = Online | Offline | Unknown | Maintenance

  datatype Device = Device(hostname: string, ip: string, status: DeviceStatus)

  datatype Rule = Rule(name: string, active: bool)

  datatype Snapshot = Snapshot(device: Id, config: string, golden: bool, takenAt: int, comment: string)

  datatype Verdict = Clean | Drifted | Error

  datatype Report = Report(device: Id, golden: Option<Id>, current: Option<Id>, status: Verdict, diff: string)

  datatype CheckStatus = Compliant | NonCompliant | CheckError

  datatype Check = Check(device: Id, rule: Id, status: CheckStatus, output: string, detail: string)

  datatype JobStatus = Pending | Running | Success | Partial | Completed | Failed

  datatype ProvisioningJob = ProvisioningJob(
    template: Option<Id>, devices: seq<Id>, variables: string,
    status: JobStatus, startedAt: Option<int>, completedAt: Option<int>, rendered: string, taskId: string)

  /** `save(update_fields=...)`: the columns one save writes. */
  datatype JobWrite = JobWrite(
    status: Option<JobStatus>, startedAt: Option<int>, completedAt: Option<int>,
    rendered: Option<string>, taskId: Option<string>)

  const NO_SAVE: JobWrite := JobWrite(None, None, None, None, None)

  datatype PushResult = PushResult(job: Id, device: Id, success: bool, output: string, error: string)

  datatype DiscoveryJob = DiscoveryJob(
    subnet: string,
    status: JobStatus, startedAt: Option<int>, completedAt: Option<int>,
    found: nat, added: nat, log: seq<string>, taskId: string)

  datatype DiscoveryWrite = DiscoveryWrite(
    status: Option<JobStatus>, startedAt: Option<int>, completedAt: Option<int>,
    found: Option<nat>, added: Option<nat>, log: Option<seq<string>>, taskId: Option<string>)

  const NO_DISCOVERY_SAVE: DiscoveryWrite := DiscoveryWrite(None, None, None, None, None, None, None)

  datatype Severity = Critical | Warning | Info | Resolved

  /** The columns of an alert that a webhook delivery writes. */
  datatype Delivered = Delivered(
    alertName: string, severity: Severity, status: string, device: Option<Id>, instance: string,
    labels: map<string, string>, annotations: map<string, string>,
    startsAt: Option<int>, endsAt: Option<int>, generatorUrl: string)

  datatype Alert = Alert(
    fingerprint: string, delivered: Delivered, receivedAt: int, acknowledged: bool, acknowledgedAt: Option<int>)

  datatype Detail =
    | DriftDetail(drift: bool, report: Id)
    | SnapshotDetail(snapshot: Id, golden: bool)
    | PushDetail(job: Id, error: string)
    | ChecksDetail(results: seq<(string, CheckStatus)>)

  datatype Action = PushConfig | ComplianceCheck | DriftCheck | SnapshotTaken

  datatype Audit = Audit(action: Action, device: Option<Id>, success: bool, detail: Detail)

  // ---------------------------------------------------------------- tables

  /** Each application owns its tables and the counter its primary keys come from;
      of keys only their freshness matters. */
  datatype InventoryTables = InventoryTables(
    next: Id, devices: map<Id, Device>, discoveries: map<Id, DiscoveryJob>)

  datatype SecurityTables = SecurityTables(
    next: Id, rules: map<Id, Rule>, snapshots: map<Id, Snapshot>, reports: map<Id, Report>, checks: map<Id, Check>)

  datatype ProvisioningTables = ProvisioningTables(
    next: Id, templates: map<Id, string>, jobs: map<Id, ProvisioningJob>, results: map<Id, PushResult>)

  datatype MonitoringTables = MonitoringTables(next: Id, alerts: map<Id, Alert>)

  datatype Db = Db(
    inventory: InventoryTables,
    security: SecurityTables,
    provisioning: ProvisioningTables,
    monitoring: MonitoringTables,
    audit: seq<Audit>)

  const EMPTY: Db := Db(
    InventoryTables(0, map[], map[]), SecurityTables(0, map[], map[], map[], map[]),
    ProvisioningTables(0, map[], map[], map[]), MonitoringTables(0, map[]), [])

  // ------------------------------------------------------------ statements

  datatype InventoryStmt =
    | InsertDevice(device: Device)
    | SetDeviceStatus(id: Id, status: DeviceStatus)
    | InsertDiscovery(discovery: DiscoveryJob)
    | SaveDiscovery(id: Id, write: DiscoveryWrite)

  datatype SecurityStmt =
    | InsertSnapshot(snapshot: Snapshot)
    | ClearGolden(device: Id)
    | SetGolden(id: Id, note: Option<string>)
    | InsertReport(report: Report)
    | InsertRule(rule: Rule)
    | InsertCheck(check: Check)

  datatype ProvisioningStmt =
    | InsertTemplate(body: string)
    | InsertJob(job: ProvisioningJob)
    | SaveJob(id: Id, write: JobWrite)
    | InsertResult(result: PushResult)

  datatype MonitoringStmt =
    | UpsertAlert(fingerprint: string, delivered: Delivered, now: int)
    | Acknowledge(id: Id, now: int)

  datatype RemovalStmt =
    | DeleteDevice(id: Id)
    | DeleteRule(id: Id)
    | DeleteTemplate(id: Id)
    | DeleteJob(id: Id)
    | DeleteSnapshot(id: Id)

  /** Every statement, by the application that sends it. */
  datatype Stmt =
    | Inventory(inventory: InventoryStmt)
    | Security(security: SecurityStmt)
    | Provisioning(provisioning: ProvisioningStmt)
    | Monitoring(monitoring: MonitoringStmt)
    | Log(entry: Audit)
    | Removal(removal: RemovalStmt)

  /** What the caller sees: a new key, a plain success, or an exception that left the database unchanged. */
  datatype Outcome = Created(id: Id) | Written | Raised

  datatype Reply<T> = Reply(state: T, outcome: Outcome)

  /** Longest hostname column value. */
  const HOSTNAME_LIMIT: nat := 255

  function Pick<T>(w: Option<T>, v: T): T {
    match w case Some(x) => x case None => v
  }

  function PickSome<T>(w: Option<T>, v: Option<T>): Option<T> {
    if w.Some? then w else v
  }

  function WriteJob(row: ProvisioningJob, w: JobWrite): ProvisioningJob {
    row.(status := Pick(w.status, row.status), startedAt := PickSome(w.startedAt, row.startedAt),
      completedAt := PickSome(w.completedAt, row.completedAt), rendered := Pick(w.rendered, row.rendered),
      taskId := Pick(w.taskId, row.taskId))
  }

  function WriteDiscovery(row: DiscoveryJob, w: DiscoveryWrite): DiscoveryJob {
    row.(status := Pick(w.status, row.status), startedAt := PickSome(w.startedAt, row.startedAt),
      completedAt := PickSome(w.completedAt, row.completedAt), found := Pick(w.found, row.found),
      added := Pick(w.added, row.added), log := Pick(w.log, row.log), taskId := Pick(w.taskId, row.taskId))
  }

  /** A foreign key that is null or points at a row. */
  predicate Points(key: Option<Id>, rows: set<Id>) {
    key.None? || key.value in rows
  }

  /** ON DELETE SET NULL */
  function Unlink(key: Option<Id>, gone: set<Id>): Option<Id> {
    if key.Some? && key.value in gone then None else key
  }

  function Without(ids: seq<Id>, id: Id): (r: seq<Id>)
    ensures forall x :: x in r <==> x in ids && x != id
  {
    if ids == [] then []
    else (if ids[0] == id then [] else [ids[0]]) + Without(ids[1..], id)
  }

  function UnlinkAudit(audit: seq<Audit>, device: Id): (r: seq<Audit>)
    ensures |r| == |audit|
    ensures forall i :: 0 <= i < |r| ==> r[i] == audit[i].(device := Unlink(audit[i].device, {device}))
  {
    seq(|audit|, i requires 0 <= i < |audit| => audit[i].(device := Unlink(audit[i].device, {device})))
  }

  // ------------------------------------------------------------- inventory

  predicate Unique(devices: map<Id, Device>, x: Device) {
    forall d :: d in devices ==> devices[d].hostname != x.hostname && devices[d].ip != x.ip
  }

  function ExecInventory(t: InventoryTables, s: InventoryStmt): Reply<InventoryTables> {
    var n := t.next;
    match s
    case InsertDevice(x) =>
      if Unique(t.devices, x) && |x.hostname| <= HOSTNAME_LIMIT
      then Reply(t.(next := n + 1, devices := t.devices[n := x]), Created(n)) else Reply(t, Raised)
    case SetDeviceStatus(id, st) =>
      if id in t.devices then Reply(t.(devices := t.devices[id := t.devices[id].(status := st)]), Written)
      else Reply(t, Written)
    case InsertDiscovery(x) =>
      Reply(t.(next := n + 1, discoveries := t.discoveries[n := x]), Created(n))
    case SaveDiscovery(id, w) =>
      if id in t.discoveries
      then Reply(t.(discoveries := t.discoveries[id := WriteDiscovery(t.discoveries[id], w)]), Written)
      else Reply(t, Raised)
  }

  // -------------------------------------------------------------- security

  function ClearFlags(snapshots: map<Id, Snapshot>, device: Id): map<Id, Snapshot> {
    map i | i in snapshots ::
      if snapshots[i].device == device then snapshots[i].(golden := false) else snapshots[i]
  }

  function ExecSecurity(t: SecurityTables, devices: set<Id>, s: SecurityStmt): Reply<SecurityTables> {
    var n := t.next;
    match s
    case InsertSnapshot(x) =>
      if x.device in devices
      then Reply(t.(next := n + 1, snapshots := t.snapshots[n := x]), Created(n)) else Reply(t, Raised)
    case ClearGolden(d) => Reply(t.(snapshots := ClearFlags(t.snapshots, d)), Written)
    case SetGolden(id, note) =>
      if id in t.snapshots then
        var row := t.snapshots[id];
        Reply(t.(snapshots := t.snapshots[id := row.(golden := true, comment := Pick(note, row.comment))]), Written)
      else Reply(t, Raised)
    case InsertReport(x) =>
      if x.device in devices && Points(x.golden, t.snapshots.Keys) && Points(x.current, t.snapshots.Keys)
      then Reply(t.(next := n + 1, reports := t.reports[n := x]), Created(n)) else Reply(t, Raised)
    case InsertRule(x) => Reply(t.(next := n + 1, rules := t.rules[n := x]), Created(n))
    case InsertCheck(x) =>
      if x.device in devices && x.rule in t.rules
      then Reply(t.(next := n + 1, checks := t.checks[n := x]), Created(n)) else Reply(t, Raised)
  }

  function SnapshotsOf(snapshots: map<Id, Snapshot>, device: Id): set<Id> {
    set s | s in snapshots && snapshots[s].device == device
  }

  function UnlinkSnapshots(reports: map<Id, Report>, gone: set<Id>): map<Id, Report> {
    map r | r in reports ::
      reports[r].(golden := Unlink(reports[r].golden, gone), current := Unlink(reports[r].current, gone))
  }

  /** Deleting a device cascades to its snapshots, reports and checks; a report of
      another device that mentions one of those snapshots loses the reference. */
  function DropFromSecurity(t: SecurityTables, d: Id): SecurityTables {
    var gone := SnapshotsOf(t.snapshots, d);
    t.(snapshots := t.snapshots - gone,
      reports := UnlinkSnapshots(map r | r in t.reports && t.reports[r].device != d :: t.reports[r], gone),
      checks := map c | c in t.checks && t.checks[c].device != d :: t.checks[c])
  }

  // ---------------------------------------------------------- provisioning

  function ExecProvisioning(t: ProvisioningTables, devices: set<Id>, s: ProvisioningStmt): Reply<ProvisioningTables> {
    var n := t.next;
    match s
    case InsertTemplate(x) => Reply(t.(next := n + 1, templates := t.templates[n := x]), Created(n))
    case InsertJob(x) =>
      if Points(x.template, t.templates.Keys) && (forall d :: d in x.devices ==> d in devices)
      then Reply(t.(next := n + 1, jobs := t.jobs[n := x]), Created(n)) else Reply(t, Raised)
    case SaveJob(id, w) =>
      if id in t.jobs then Reply(t.(jobs := t.jobs[id := WriteJob(t.jobs[id], w)]), Written) else Reply(t, Raised)
    case InsertResult(x) =>
      if x.job in t.jobs && x.device in devices
      then Reply(t.(next := n + 1, results := t.results[n := x]), Created(n)) else Reply(t, Raised)
  }

  function DropFromProvisioning(t: ProvisioningTables, d: Id): ProvisioningTables {
    t.(jobs := map j | j in t.jobs :: t.jobs[j].(devices := Without(t.jobs[j].devices, d)),
      results := map r | r in t.results && t.results[r].device != d :: t.results[r])
  }

  // ------------------------------------------------------------ monitoring

  function Hits(alerts: map<Id, Alert>, fingerprint: string): set<Id> {
    set a | a in alerts && alerts[a].fingerprint == fingerprint
  }

  predicate Known(alerts: map<Id, Alert>, fingerprint: string) {
    exists a :: a in Hits(alerts, fingerprint)
  }

  /** At most one row carries the fingerprint; the column is not declared unique. */
  predicate Single(alerts: map<Id, Alert>, fingerprint: string) {
    forall a, b :: a in Hits(alerts, fingerprint) && b in Hits(alerts, fingerprint) ==> a == b
  }

  function Deliver(alerts: map<Id, Alert>, fp: string, x: Delivered): map<Id, Alert> {
    map a | a in alerts :: if alerts[a].fingerprint == fp then alerts[a].(delivered := x) else alerts[a]
  }

  /** `update_or_create(fingerprint=fp, defaults=x)`: no match inserts, one match is
      updated in the `defaults` columns only, several raise MultipleObjectsReturned. */
  function Upsert(t: MonitoringTables, devices: set<Id>, fp: string, x: Delivered, now: int): Reply<MonitoringTables> {
    if !Points(x.device, devices) || !Single(t.alerts, fp) then Reply(t, Raised)
    else if Known(t.alerts, fp) then Reply(t.(alerts := Deliver(t.alerts, fp, x)), Written)
    else Reply(t.(next := t.next + 1, alerts := t.alerts[t.next := Alert(fp, x, now, false, None)]), Created(t.next))
  }

  function ExecMonitoring(t: MonitoringTables, devices: set<Id>, s: MonitoringStmt): Reply<MonitoringTables> {
    match s
    case UpsertAlert(fp, x, now) => Upsert(t, devices, fp, x, now)
    case Acknowledge(id, now) =>
      if id in t.alerts
      then
        var row := t.alerts[id].(acknowledged := true, acknowledgedAt := Some(now));
        Reply(t.(alerts := t.alerts[id := row]), Written)
      else Reply(t, Raised)
  }

  function DropFromMonitoring(t: MonitoringTables, d: Id): MonitoringTables {
    t.(alerts := map a | a in t.alerts ::
      t.alerts[a].(delivered := t.alerts[a].delivered.(device := Unlink(t.alerts[a].delivered.device, {d}))))
  }

  // -------------------------------------------------------------- removals

  function RemoveDevice(db: Db, d: Id): Db {
    Db(db.inventory.(devices := db.inventory.devices - {d}), DropFromSecurity(db.security, d),
       DropFromProvisioning(db.provisioning, d), DropFromMonitoring(db.monitoring, d), UnlinkAudit(db.audit, d))
  }

  function RemoveRule(t: SecurityTables, id: Id): SecurityTables {
    t.(rules := t.rules - {id}, checks := map c | c in t.checks && t.checks[c].rule != id :: t.checks[c])
  }

  function RemoveSnapshot(t: SecurityTables, id: Id): SecurityTables {
    t.(snapshots := t.snapshots - {id}, reports := UnlinkSnapshots(t.reports, {id}))
  }

  function RemoveTemplate(t: ProvisioningTables, id: Id): ProvisioningTables {
    t.(templates := t.templates - {id},
      jobs := map j | j in t.jobs :: t.jobs[j].(template := Unlink(t.jobs[j].template, {id})))
  }

  function RemoveJob(t: ProvisioningTables, id: Id): ProvisioningTables {
    t.(jobs := t.jobs - {id}, results := map r | r in t.results && t.results[r].job != id :: t.results[r])
  }

  /** Deleting a missing row raises. */
  function ExecRemoval(db: Db, s: RemovalStmt): Reply<Db> {
    match s
    case DeleteDevice(id) =>
      if id in db.inventory.devices then Reply(RemoveDevice(db, id), Written) else Reply(db, Raised)
    case DeleteRule(id) =>
      if id in db.security.rules then Reply(db.(security := RemoveRule(db.security, id)), Written)
      else Reply(db, Raised)
    case DeleteSnapshot(id) =>
      if id in db.security.snapshots then Reply(db.(security := RemoveSnapshot(db.security, id)), Written)
      else Reply(db, Raised)
    case DeleteTemplate(id) =>
      if id in db.provisioning.templates then Reply(db.(provisioning := RemoveTemplate(db.provisioning, id)), Written)
      else Reply(db, Raised)
    case DeleteJob(id) =>
      if id in db.provisioning.jobs then Reply(db.(provisioning := RemoveJob(db.provisioning, id)), Written)
      else Reply(db, Raised)
  }

  /** One statement, all or nothing. */
  function Exec(db: Db, s: Stmt): Reply<Db> {
    var devices := db.inventory.devices.Keys;
    match s
    case Inventory(t) =>
      var r := ExecInventory(db.inventory, t); Reply(db.(inventory := r.state), r.outcome)
    case Security(t) =>
      var r := ExecSecurity(db.security, devices, t); Reply(db.(security := r.state), r.outcome)
    case Provisioning(t) =>
      var r := ExecProvisioning(db.provisioning, devices, t); Reply(db.(provisioning := r.state), r.outcome)
    case Monitoring(t) =>
      var r := ExecMonitoring(db.monitoring, devices, t); Reply(db.(monitoring := r.state), r.outcome)
    case Log(x) =>
      if Points(x.device, devices) then Reply(db.(audit := db.audit + [x]), Written) else Reply(db, Raised)
    case Removal(t) => ExecRemoval(db, t)
  }

  /** Any number of statements, from any mix of callers. */
  function Run(db: Db, ss: seq<Stmt>): Db
    decreases |ss|
  {
    if ss == [] then db else Run(Exec(db, ss[0]).state, ss[1..])
  }

  /** The counter from which the application of a statement draws its next key; log entries and removals draw none. */
  function NextKey(db: Db, s: Stmt): Id {
    match s
    case Inventory(_) => db.inventory.next
    case Security(_) => db.security.next
    case Provisioning(_) => db.provisioning.next
    case Monitoring(_) => db.monitoring.next
    case Log(_) => 0
    case Removal(_) => 0
  }

  // -------------------------------------------------------------- the store

  /** The live database that tasks and requests mutate, one statement at a time. */
  class Store {
    var db: Db

    constructor ()
      ensures db == EMPTY
    {
      db := EMPTY;
    }

    method Execute(s: Stmt) returns (outcome: Outcome)
      modifies this
      ensures Reply(db, outcome) == Exec(old(db), s)
      ensures outcome.Raised? ==> db == old(db)
      ensures outcome.Created? ==> outcome.id == NextKey(old(db), s) && NextKey(db, s) == outcome.id + 1
    {
      var reply := Exec(db, s);
      db := reply.state;
      outcome := reply.outcome;
    }
  }
}
