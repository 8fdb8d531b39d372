/** What every statement keeps, hence what holds after any run of any mix of tasks,
    requests and deletions. */
module Integrity {
  import opened Wrappers
  import opened Database
  import opened Sequences

  ghost predicate Below<R>(rows: map<Id, R>, next: Id) {
    forall i :: i in rows ==> i < next
  }

  /** No two devices share a hostname or an address. */
  ghost predicate UniqueDevices(devices: map<Id, Device>) {
    forall x, y :: x in devices && y in devices && x != y ==>
      devices[x].hostname != devices[y].hostname && devices[x].ip != devices[y].ip
  }

  ghost predicate InventoryIntegral(t: InventoryTables) {
    Below(t.devices, t.next) && Below(t.discoveries, t.next) && UniqueDevices(t.devices)
  }

  ghost predicate SecurityIntegral(t: SecurityTables, devices: set<Id>) {
    && Below(t.rules, t.next) && Below(t.snapshots, t.next) && Below(t.reports, t.next) && Below(t.checks, t.next)
    && (forall s :: s in t.snapshots ==> t.snapshots[s].device in devices)
    && (forall r :: r in t.reports ==>
         && t.reports[r].device in devices
         && Points(t.reports[r].golden, t.snapshots.Keys) && Points(t.reports[r].current, t.snapshots.Keys))
    && (forall c :: c in t.checks ==> t.checks[c].device in devices && t.checks[c].rule in t.rules)
  }

  ghost predicate ProvisioningIntegral(t: ProvisioningTables, devices: set<Id>) {
    && Below(t.templates, t.next) && Below(t.jobs, t.next) && Below(t.results, t.next)
    && (forall j :: j in t.jobs ==>
         Points(t.jobs[j].template, t.templates.Keys) && forall d :: d in t.jobs[j].devices ==> d in devices)
    && (forall r :: r in t.results ==> t.results[r].job in t.jobs && t.results[r].device in devices)
  }

  ghost predicate MonitoringIntegral(t: MonitoringTables, devices: set<Id>) {
    && Below(t.alerts, t.next)
    && forall a :: a in t.alerts ==> Points(t.alerts[a].delivered.device, devices)
  }

  ghost predicate AuditIntegral(audit: seq<Audit>, devices: set<Id>) {
    forall i :: 0 <= i < |audit| ==> Points(audit[i].device, devices)
  }

  /** Keys are fresh, devices are unique, and every reference is null or names an existing row. */
  ghost predicate Integral(db: Db) {
    var devices := db.inventory.devices.Keys;
    && InventoryIntegral(db.inventory)
    && SecurityIntegral(db.security, devices)
    && ProvisioningIntegral(db.provisioning, devices)
    && MonitoringIntegral(db.monitoring, devices)
    && AuditIntegral(db.audit, devices)
  }

  lemma EmptyIsIntegral()
    ensures Integral(EMPTY)
  {
  }

  /** `later` extends `earlier`; an old entry may only lose its device reference. */
  ghost predicate AuditExtends(earlier: seq<Audit>, later: seq<Audit>) {
    && |earlier| <= |later|
    && forall i :: 0 <= i < |earlier| ==>
      && later[i].(device := None) == earlier[i].(device := None)
      && (later[i].device == earlier[i].device || later[i].device == None)
  }

  // ------------------------------------------------- one application at a time

  lemma InventoryKeeps(t: InventoryTables, s: InventoryStmt)
    requires InventoryIntegral(t)
    ensures InventoryIntegral(ExecInventory(t, s).state)
    ensures t.devices.Keys <= ExecInventory(t, s).state.devices.Keys
  {
  }

  lemma SecurityKeeps(t: SecurityTables, devices: set<Id>, s: SecurityStmt)
    requires SecurityIntegral(t, devices)
    ensures SecurityIntegral(ExecSecurity(t, devices, s).state, devices)
  {
  }

  lemma ProvisioningKeeps(t: ProvisioningTables, devices: set<Id>, s: ProvisioningStmt)
    requires ProvisioningIntegral(t, devices)
    ensures ProvisioningIntegral(ExecProvisioning(t, devices, s).state, devices)
  {
  }

  lemma MonitoringKeeps(t: MonitoringTables, devices: set<Id>, s: MonitoringStmt)
    requires MonitoringIntegral(t, devices)
    ensures MonitoringIntegral(ExecMonitoring(t, devices, s).state, devices)
  {
  }

  /** More devices never break a reference. */
  lemma MoreDevices(db: Db, t: InventoryTables)
    requires Integral(db) && InventoryIntegral(t) && db.inventory.devices.Keys <= t.devices.Keys
    ensures Integral(db.(inventory := t))
  {
  }

  lemma DropFromSecurityKeeps(t: SecurityTables, devices: set<Id>, d: Id)
    requires SecurityIntegral(t, devices)
    ensures SecurityIntegral(DropFromSecurity(t, d), devices - {d})
  {
  }

  lemma DropFromProvisioningKeeps(t: ProvisioningTables, devices: set<Id>, d: Id)
    requires ProvisioningIntegral(t, devices)
    ensures ProvisioningIntegral(DropFromProvisioning(t, d), devices - {d})
  {
  }

  /** A deleted device takes its own rows with it and leaves no reference behind. */
  lemma RemoveDeviceKeeps(db: Db, d: Id)
    requires Integral(db)
    ensures Integral(RemoveDevice(db, d))
  {
    var devices := db.inventory.devices.Keys;
    DropFromSecurityKeeps(db.security, devices, d);
    DropFromProvisioningKeeps(db.provisioning, devices, d);
    assert RemoveDevice(db, d).inventory.devices.Keys == devices - {d};
  }

  lemma SecurityRemovalKeeps(t: SecurityTables, devices: set<Id>, id: Id)
    requires SecurityIntegral(t, devices)
    ensures SecurityIntegral(RemoveRule(t, id), devices)
    ensures SecurityIntegral(RemoveSnapshot(t, id), devices)
  {
  }

  lemma ProvisioningRemovalKeeps(t: ProvisioningTables, devices: set<Id>, id: Id)
    requires ProvisioningIntegral(t, devices)
    ensures ProvisioningIntegral(RemoveTemplate(t, id), devices)
    ensures ProvisioningIntegral(RemoveJob(t, id), devices)
  {
  }

  lemma RemovalKeeps(db: Db, s: RemovalStmt)
    requires Integral(db)
    ensures Integral(ExecRemoval(db, s).state)
  {
    hide RemoveDevice, RemoveRule, RemoveSnapshot, RemoveTemplate, RemoveJob;
    hide InventoryIntegral, SecurityIntegral, ProvisioningIntegral, MonitoringIntegral, AuditIntegral;
    var devices := db.inventory.devices.Keys;
    SecurityRemovalKeeps(db.security, devices, s.id);
    ProvisioningRemovalKeeps(db.provisioning, devices, s.id);
    match s {
      case DeleteDevice(d) => RemoveDeviceKeeps(db, d);
      case DeleteRule(_) =>
      case DeleteSnapshot(_) =>
      case DeleteTemplate(_) =>
      case DeleteJob(_) =>
    }
  }

  // ------------------------------------------------------ exactly what goes

  /** The rows of one table that stay when some go. */
  ghost predicate Drops<R(!new)>(before: map<Id, R>, after: map<Id, R>, gone: set<Id>) {
    forall i :: (i in after <==> i in before && i !in gone) && (i in after ==> after[i] == before[i])
  }

  function ChecksUnder(t: SecurityTables, rule: Id): set<Id> {
    set c | c in t.checks && t.checks[c].rule == rule
  }

  function ResultsUnder(t: ProvisioningTables, job: Id): set<Id> {
    set r | r in t.results && t.results[r].job == job
  }

  /** Deleting a rule takes exactly its checks along; deleting a snapshot keeps every report and nulls
      exactly the references to it. */
  lemma SecurityRemovalExactly(t: SecurityTables, id: Id)
    ensures var t' := RemoveRule(t, id);
            && Drops(t.rules, t'.rules, {id}) && Drops(t.checks, t'.checks, ChecksUnder(t, id))
            && t'.snapshots == t.snapshots && t'.reports == t.reports
    ensures var t' := RemoveSnapshot(t, id);
            && Drops(t.snapshots, t'.snapshots, {id})
            && t'.reports.Keys == t.reports.Keys && t'.rules == t.rules && t'.checks == t.checks
            && forall r :: r in t.reports ==> t'.reports[r] == t.reports[r].(
                 golden := if t.reports[r].golden == Some(id) then None else t.reports[r].golden,
                 current := if t.reports[r].current == Some(id) then None else t.reports[r].current)
  {
  }

  /** Deleting a job takes exactly its results along; deleting a template keeps every job and nulls exactly
      the references to it. */
  lemma ProvisioningRemovalExactly(t: ProvisioningTables, id: Id)
    ensures var t' := RemoveJob(t, id);
            && Drops(t.jobs, t'.jobs, {id}) && Drops(t.results, t'.results, ResultsUnder(t, id))
            && t'.templates == t.templates
    ensures var t' := RemoveTemplate(t, id);
            && Drops(t.templates, t'.templates, {id})
            && t'.jobs.Keys == t.jobs.Keys && t'.results == t.results
            && forall j :: j in t.jobs ==> t'.jobs[j] == t.jobs[j].(
                 template := if t.jobs[j].template == Some(id) then None else t.jobs[j].template)
  {
  }

  function InventoryKeys(t: InventoryTables): set<Id> {
    t.devices.Keys + t.discoveries.Keys
  }

  function SecurityKeys(t: SecurityTables): set<Id> {
    t.rules.Keys + t.snapshots.Keys + t.reports.Keys + t.checks.Keys
  }

  function ProvisioningKeys(t: ProvisioningTables): set<Id> {
    t.templates.Keys + t.jobs.Keys + t.results.Keys
  }

  /** The keys the rows of a statement's application have. */
  function KeysOf(db: Db, s: Stmt): set<Id> {
    match s
    case Inventory(_) => InventoryKeys(db.inventory)
    case Security(_) => SecurityKeys(db.security)
    case Provisioning(_) => ProvisioningKeys(db.provisioning)
    case Monitoring(_) => db.monitoring.alerts.Keys
    case Log(_) => {}
    case Removal(_) => {}
  }

  /** All or nothing: nothing changed, or a row with an unused key was added, or no key came or went. */
  ghost predicate Atomic<T>(before: T, keys: set<Id>, r: Reply<T>, keys': set<Id>) {
    match r.outcome
    case Raised => r.state == before
    case Created(id) => id !in keys && keys' == keys + {id}
    case Written => keys' == keys
  }

  lemma InventoryAtomic(t: InventoryTables, s: InventoryStmt)
    requires Below(t.devices, t.next) && Below(t.discoveries, t.next)
    ensures var r := ExecInventory(t, s); Atomic(t, InventoryKeys(t), r, InventoryKeys(r.state))
  {
    match s {
      case InsertDevice(_) =>
      case SetDeviceStatus(_, _) =>
      case InsertDiscovery(_) =>
      case SaveDiscovery(_, _) =>
    }
  }

  lemma SecurityAtomic(t: SecurityTables, devices: set<Id>, s: SecurityStmt)
    requires Below(t.rules, t.next) && Below(t.snapshots, t.next) && Below(t.reports, t.next) && Below(t.checks, t.next)
    ensures var r := ExecSecurity(t, devices, s); Atomic(t, SecurityKeys(t), r, SecurityKeys(r.state))
  {
    match s {
      case InsertSnapshot(_) =>
      case ClearGolden(_) =>
      case SetGolden(_, _) =>
      case InsertReport(_) =>
      case InsertRule(_) =>
      case InsertCheck(_) =>
    }
  }

  lemma ProvisioningAtomic(t: ProvisioningTables, devices: set<Id>, s: ProvisioningStmt)
    requires Below(t.templates, t.next) && Below(t.jobs, t.next) && Below(t.results, t.next)
    ensures var r := ExecProvisioning(t, devices, s); Atomic(t, ProvisioningKeys(t), r, ProvisioningKeys(r.state))
  {
    match s {
      case InsertTemplate(_) =>
      case InsertJob(_) =>
      case SaveJob(_, _) =>
      case InsertResult(_) =>
    }
  }

  lemma MonitoringAtomic(t: MonitoringTables, devices: set<Id>, s: MonitoringStmt)
    requires Below(t.alerts, t.next)
    ensures var r := ExecMonitoring(t, devices, s); Atomic(t, t.alerts.Keys, r, r.state.alerts.Keys)
  {
    match s {
      case UpsertAlert(_, _, _) =>
      case Acknowledge(_, _) =>
    }
  }

  /** A statement that raises leaves every table as it was; one that creates a row gives it a key its
      application has not in use, and adds no other key. */
  lemma StatementIsAtomic(db: Db, s: Stmt)
    requires Integral(db)
    ensures var r := Exec(db, s);
            && (r.outcome.Raised? ==> r.state == db)
            && (r.outcome.Created? ==>
                 r.outcome.id !in KeysOf(db, s) && KeysOf(r.state, s) == KeysOf(db, s) + {r.outcome.id})
  {
    hide ExecInventory, ExecSecurity, ExecProvisioning, ExecMonitoring, InventoryKeys, SecurityKeys, ProvisioningKeys,
      RemoveDevice, RemoveRule, RemoveSnapshot, RemoveTemplate, RemoveJob;
    var devices := db.inventory.devices.Keys;
    match s {
      case Inventory(t) => InventoryAtomic(db.inventory, t);
      case Security(t) => SecurityAtomic(db.security, devices, t);
      case Provisioning(t) => ProvisioningAtomic(db.provisioning, devices, t);
      case Monitoring(t) => MonitoringAtomic(db.monitoring, devices, t);
      case Log(_) =>
      case Removal(_) =>
    }
  }

  // ------------------------------------------------------------- every run

  lemma ExecKeepsIntegrity(db: Db, s: Stmt)
    requires Integral(db)
    ensures Integral(Exec(db, s).state)
  {
    var devices := db.inventory.devices.Keys;
    match s {
      case Inventory(t) =>
        InventoryKeeps(db.inventory, t);
        MoreDevices(db, ExecInventory(db.inventory, t).state);
      case Security(t) => SecurityKeeps(db.security, devices, t);
      case Provisioning(t) => ProvisioningKeeps(db.provisioning, devices, t);
      case Monitoring(t) => MonitoringKeeps(db.monitoring, devices, t);
      case Log(_) =>
      case Removal(t) => RemovalKeeps(db, t);
    }
  }

  lemma ExecExtendsAudit(db: Db, s: Stmt)
    ensures AuditExtends(db.audit, Exec(db, s).state.audit)
  {
  }

  /** Referential integrity and unique devices survive every run, and the audit log never shrinks. */
  lemma {:induction false} RunKeepsIntegrity(db: Db, ss: seq<Stmt>)
    requires Integral(db)
    ensures Integral(Run(db, ss))
    ensures AuditExtends(db.audit, Run(db, ss).audit)
    decreases |ss|
  {
    if ss != [] {
      ExecKeepsIntegrity(db, ss[0]);
      ExecExtendsAudit(db, ss[0]);
      RunKeepsIntegrity(Exec(db, ss[0]).state, ss[1..]);
    }
  }

  lemma OneStatement(db: Db, s: Stmt)
    ensures Run(db, [s]) == Exec(db, s).state
  {
    hide Exec;
    var after := Exec(db, s).state;
    assert [s][1..] == [];
    assert Run(after, []) == after;
  }

  lemma {:induction false} RunConcat(db: Db, x: seq<Stmt>, y: seq<Stmt>)
    ensures Run(db, x + y) == Run(Run(db, x), y)
    decreases |x|
  {
    hide Exec;
    if x == [] {
      EmptyConcat(y);
    } else {
      RunConcat(Exec(db, x[0]).state, x[1..], y);
      TailOfConcat(x, y);
    }
  }
}
