/** Exactly what each statement does to the tables: which row it adds, rewrites or takes away, when it
    raises, and that everything else stays. */
module Statements {
  import opened Wrappers
  import opened Database
  import opened Integrity
  import opened Sequences

  /** `row` is added under `id`; every other row stays. */
  ghost predicate Adds<R(!new)>(before: map<Id, R>, after: map<Id, R>, id: Id, row: R) {
    && id in after && after[id] == row && after.Keys == before.Keys + {id}
    && forall i :: i in before && i != id ==> after[i] == before[i]
  }

  /** The row `id` becomes `row`; every other row stays. */
  ghost predicate Rewrites<R(!new)>(before: map<Id, R>, after: map<Id, R>, id: Id, row: R) {
    && id in before && after.Keys == before.Keys && after[id] == row
    && forall i :: i in before && i != id ==> after[i] == before[i]
  }

  // ------------------------------------------------------------- inventory

  /** A device is stored unless its name is too long, or its name or address is taken. */
  lemma InsertDeviceExactly(t: InventoryTables, x: Device)
    ensures var r := ExecInventory(t, InsertDevice(x));
            && (r.outcome == Raised <==>
                 || |x.hostname| > 255
                 || (exists d :: d in t.devices && (t.devices[d].hostname == x.hostname || t.devices[d].ip == x.ip)))
            && (r.outcome != Raised ==>
                 && r.outcome == Created(t.next) && r.state.next == t.next + 1
                 && Adds(t.devices, r.state.devices, t.next, x) && r.state.discoveries == t.discoveries)
  {
    var r := ExecInventory(t, InsertDevice(x));
    if !Unique(t.devices, x) {
      var d :| d in t.devices && (t.devices[d].hostname == x.hostname || t.devices[d].ip == x.ip);
    }
  }

  /** A reachability check writes the status of its device and nothing else; a deleted device is no error. */
  lemma SetDeviceStatusExactly(t: InventoryTables, id: Id, status: DeviceStatus)
    ensures var r := ExecInventory(t, SetDeviceStatus(id, status));
            && r.outcome == Written
            && if id in t.devices
               then r.state == t.(devices := r.state.devices)
                    && Rewrites(t.devices, r.state.devices, id,
                        Device(t.devices[id].hostname, t.devices[id].ip, status))
               else r.state == t
  {
  }

  lemma DiscoveryExactly(t: InventoryTables, id: Id, x: DiscoveryJob, w: DiscoveryWrite)
    ensures var r := ExecInventory(t, InsertDiscovery(x));
            && r.outcome == Created(t.next) && r.state == t.(next := t.next + 1, discoveries := r.state.discoveries)
            && Adds(t.discoveries, r.state.discoveries, t.next, x)
    ensures var r := ExecInventory(t, SaveDiscovery(id, w));
            && (r.outcome == Raised <==> id !in t.discoveries)
            && r.state == t.(discoveries := r.state.discoveries)
            && (id in t.discoveries ==>
                 && id in r.state.discoveries && r.state.discoveries[id].subnet == t.discoveries[id].subnet
                 && Rewrites(t.discoveries, r.state.discoveries, id, r.state.discoveries[id]))
  {
  }

  // -------------------------------------------------------------- security

  /** A snapshot, rule, report or check is stored as given exactly when the rows it names exist. */
  lemma SecurityInsertsExactly(t: SecurityTables, devices: set<Id>, snap: Snapshot, rule: Rule, report: Report,
      check: Check)
    ensures var r := ExecSecurity(t, devices, InsertSnapshot(snap));
            if snap.device in devices
            then r.outcome == Created(t.next) && r.state == t.(next := t.next + 1, snapshots := r.state.snapshots)
                 && Adds(t.snapshots, r.state.snapshots, t.next, snap)
            else r.outcome == Raised
    ensures var r := ExecSecurity(t, devices, InsertRule(rule));
            && r.outcome == Created(t.next) && r.state == t.(next := t.next + 1, rules := r.state.rules)
            && Adds(t.rules, r.state.rules, t.next, rule)
    ensures var r := ExecSecurity(t, devices, InsertReport(report));
            if report.device in devices
               && (report.golden == None || report.golden.value in t.snapshots)
               && (report.current == None || report.current.value in t.snapshots)
            then r.outcome == Created(t.next) && r.state == t.(next := t.next + 1, reports := r.state.reports)
                 && Adds(t.reports, r.state.reports, t.next, report)
            else r.outcome == Raised
    ensures var r := ExecSecurity(t, devices, InsertCheck(check));
            if check.device in devices && check.rule in t.rules
            then r.outcome == Created(t.next) && r.state == t.(next := t.next + 1, checks := r.state.checks)
                 && Adds(t.checks, r.state.checks, t.next, check)
            else r.outcome == Raised
  {
  }

  /** Both golden statements write the flag column (and a note, if given) and no other. */
  lemma GoldenWritesExactly(t: SecurityTables, devices: set<Id>, d: Id, s: Id, note: Option<string>)
    ensures var r := ExecSecurity(t, devices, ClearGolden(d));
            && r.outcome == Written && r.state == t.(snapshots := r.state.snapshots)
            && r.state.snapshots.Keys == t.snapshots.Keys
            && forall k :: k in t.snapshots ==>
                 r.state.snapshots[k] == t.snapshots[k].(golden := t.snapshots[k].golden && t.snapshots[k].device != d)
    ensures var r := ExecSecurity(t, devices, SetGolden(s, note));
            && (r.outcome == Raised <==> s !in t.snapshots)
            && r.state == t.(snapshots := r.state.snapshots)
            && (s in t.snapshots ==> Rewrites(t.snapshots, r.state.snapshots, s,
                 t.snapshots[s].(golden := true, comment := if note.Some? then note.value else t.snapshots[s].comment)))
  {
  }

  // ---------------------------------------------------------- provisioning

  lemma ProvisioningInsertsExactly(t: ProvisioningTables, devices: set<Id>, body: string, job: ProvisioningJob,
      x: PushResult)
    ensures var r := ExecProvisioning(t, devices, InsertTemplate(body));
            && r.outcome == Created(t.next) && r.state == t.(next := t.next + 1, templates := r.state.templates)
            && Adds(t.templates, r.state.templates, t.next, body)
    ensures var r := ExecProvisioning(t, devices, InsertJob(job));
            if (job.template == None || job.template.value in t.templates)
               && forall d :: d in job.devices ==> d in devices
            then r.outcome == Created(t.next) && r.state == t.(next := t.next + 1, jobs := r.state.jobs)
                 && Adds(t.jobs, r.state.jobs, t.next, job)
            else r.outcome == Raised
    ensures var r := ExecProvisioning(t, devices, InsertResult(x));
            if x.job in t.jobs && x.device in devices
            then r.outcome == Created(t.next) && r.state == t.(next := t.next + 1, results := r.state.results)
                 && Adds(t.results, r.state.results, t.next, x)
            else r.outcome == Raised
  {
  }

  lemma SaveJobExactly(t: ProvisioningTables, devices: set<Id>, id: Id, w: JobWrite)
    ensures var r := ExecProvisioning(t, devices, SaveJob(id, w));
            && (r.outcome == Raised <==> id !in t.jobs)
            && r.state == t.(jobs := r.state.jobs)
            && (id in t.jobs ==>
                 && id in r.state.jobs && Rewrites(t.jobs, r.state.jobs, id, r.state.jobs[id])
                 && r.state.jobs[id].template == t.jobs[id].template && r.state.jobs[id].devices == t.jobs[id].devices
                 && r.state.jobs[id].variables == t.jobs[id].variables)
  {
  }

  // ------------------------------------------------------------- deletions

  /** The snapshots of a device, which go with it. */
  function SnapshotsUnder(t: SecurityTables, d: Id): set<Id> {
    set s | s in t.snapshots && t.snapshots[s].device == d
  }

  function ReportsUnder(t: SecurityTables, d: Id): set<Id> {
    set r | r in t.reports && t.reports[r].device == d
  }

  function ChecksOn(t: SecurityTables, d: Id): set<Id> {
    set c | c in t.checks && t.checks[c].device == d
  }

  function ResultsOn(t: ProvisioningTables, d: Id): set<Id> {
    set r | r in t.results && t.results[r].device == d
  }

  /** A reference, nulled exactly if it pointed into `gone`. */
  ghost predicate NulledIf(before: Option<Id>, after: Option<Id>, gone: set<Id>) {
    after == if before.Some? && before.value in gone then None else before
  }

  /** The device's own snapshots, reports and checks are gone, and in the reports that stay exactly the references
      to its snapshots are nulled. */
  ghost predicate SecurityWithout(t: SecurityTables, t': SecurityTables, d: Id) {
    && Drops(t.snapshots, t'.snapshots, SnapshotsUnder(t, d)) && Drops(t.checks, t'.checks, ChecksOn(t, d))
    && t'.rules == t.rules && t'.next == t.next
    && t'.reports.Keys == t.reports.Keys - ReportsUnder(t, d)
    && forall r :: r in t'.reports ==>
         && t'.reports[r].(golden := None, current := None) == t.reports[r].(golden := None, current := None)
         && NulledIf(t.reports[r].golden, t'.reports[r].golden, SnapshotsUnder(t, d))
         && NulledIf(t.reports[r].current, t'.reports[r].current, SnapshotsUnder(t, d))
  }

  lemma DeviceLeavesSecurity(t: SecurityTables, d: Id)
    ensures SecurityWithout(t, DropFromSecurity(t, d), d)
  {
  }

  /** `after` is `before` without the device `d`, in order. */
  ghost predicate OnlyLoses(before: seq<Id>, after: seq<Id>, d: Id)
    decreases |before|
  {
    if before == [] then after == []
    else if before[0] == d then OnlyLoses(before[1..], after, d)
    else after != [] && after[0] == before[0] && OnlyLoses(before[1..], after[1..], d)
  }

  lemma {:induction false} WithoutOnlyLoses(ids: seq<Id>, d: Id)
    ensures OnlyLoses(ids, Without(ids, d), d)
    decreases |ids|
  {
    if ids != [] {
      WithoutOnlyLoses(ids[1..], d);
      EmptyConcat(Without(ids[1..], d));
    }
  }

  /** The device's own results are gone, and every job stays but for the device itself. */
  ghost predicate ProvisioningWithout(t: ProvisioningTables, t': ProvisioningTables, d: Id) {
    && Drops(t.results, t'.results, ResultsOn(t, d)) && t'.templates == t.templates && t'.next == t.next
    && t'.jobs.Keys == t.jobs.Keys
    && forall j :: j in t.jobs ==>
         && t'.jobs[j] == t.jobs[j].(devices := t'.jobs[j].devices)
         && OnlyLoses(t.jobs[j].devices, t'.jobs[j].devices, d)
  }

  lemma {:induction false} DeviceLeavesProvisioning(t: ProvisioningTables, d: Id)
    ensures ProvisioningWithout(t, DropFromProvisioning(t, d), d)
  {
    hide OnlyLoses;
    var t' := DropFromProvisioning(t, d);
    forall j | j in t.jobs
      ensures OnlyLoses(t.jobs[j].devices, t'.jobs[j].devices, d)
    {
      WithoutOnlyLoses(t.jobs[j].devices, d);
    }
  }

  /** Every alert stays but for a reference to the device. */
  ghost predicate MonitoringWithout(t: MonitoringTables, t': MonitoringTables, d: Id) {
    && t'.next == t.next && t'.alerts.Keys == t.alerts.Keys
    && forall a :: a in t.alerts ==>
         && t'.alerts[a] == t.alerts[a].(delivered := t.alerts[a].delivered.(device := t'.alerts[a].delivered.device))
         && NulledIf(t.alerts[a].delivered.device, t'.alerts[a].delivered.device, {d})
  }

  lemma DeviceLeavesMonitoring(t: MonitoringTables, d: Id)
    ensures MonitoringWithout(t, DropFromMonitoring(t, d), d)
  {
  }

  /** Deleting a device: it goes, and with it exactly the snapshots, reports, checks and results that are its own;
      of everything else only references to it, and to its snapshots, are nulled, and jobs lose it from their
      lists; discovery jobs, rules and templates stay, and so does every audit entry. A missing device raises. */
  lemma {:induction false} DeviceRemovalExactly(db: Db, d: Id)
    ensures var r := Exec(db, Removal(DeleteDevice(d)));
            if d !in db.inventory.devices then r == Reply(db, Raised)
            else
              && r.outcome == Written
              && Drops(db.inventory.devices, r.state.inventory.devices, {d})
              && r.state.inventory == db.inventory.(devices := r.state.inventory.devices)
              && SecurityWithout(db.security, r.state.security, d)
              && ProvisioningWithout(db.provisioning, r.state.provisioning, d)
              && MonitoringWithout(db.monitoring, r.state.monitoring, d)
              && |r.state.audit| == |db.audit|
              && forall i :: 0 <= i < |db.audit| ==>
                   && r.state.audit[i] == db.audit[i].(device := r.state.audit[i].device)
                   && NulledIf(db.audit[i].device, r.state.audit[i].device, {d})
  {
    hide DropFromSecurity, DropFromProvisioning, DropFromMonitoring,
      SecurityWithout, ProvisioningWithout, MonitoringWithout;
    DeviceLeavesSecurity(db.security, d);
    DeviceLeavesProvisioning(db.provisioning, d);
    DeviceLeavesMonitoring(db.monitoring, d);
  }

  /** The other deletions reach one application each, and raise on a missing row. */
  lemma RemovalReaches(db: Db, id: Id)
    ensures Exec(db, Removal(DeleteRule(id))) == if id in db.security.rules
      then Reply(db.(security := RemoveRule(db.security, id)), Written) else Reply(db, Raised)
    ensures Exec(db, Removal(DeleteSnapshot(id))) == if id in db.security.snapshots
      then Reply(db.(security := RemoveSnapshot(db.security, id)), Written) else Reply(db, Raised)
    ensures Exec(db, Removal(DeleteTemplate(id))) == if id in db.provisioning.templates
      then Reply(db.(provisioning := RemoveTemplate(db.provisioning, id)), Written) else Reply(db, Raised)
    ensures Exec(db, Removal(DeleteJob(id))) == if id in db.provisioning.jobs
      then Reply(db.(provisioning := RemoveJob(db.provisioning, id)), Written) else Reply(db, Raised)
  {
    hide RemoveRule, RemoveSnapshot, RemoveTemplate, RemoveJob;
  }

  /** An audit entry is appended unless it names a missing device. */
  lemma LogExactly(db: Db, x: Audit)
    ensures Exec(db, Log(x)) == if x.device == None || x.device.value in db.inventory.devices
      then Reply(db.(audit := db.audit + [x]), Written) else Reply(db, Raised)
  {
  }

  /** The three exclusive ways an upsert goes: no row of its fingerprint, one, or a rejected write. */
  lemma {:induction false} UpsertExactly(t: MonitoringTables, devices: set<Id>, fp: string, x: Delivered, now: int)
    ensures var r := ExecMonitoring(t, devices, UpsertAlert(fp, x, now));
            match r.outcome
            case Raised =>
              && r.state == t
              && ((x.device != None && x.device.value !in devices) || exists a, b :: Share(t.alerts, a, b, fp))
            case Created(id) =>
              && id == t.next && r.state == t.(next := t.next + 1, alerts := r.state.alerts)
              && (forall a :: a in t.alerts ==> t.alerts[a].fingerprint != fp)
              && Adds(t.alerts, r.state.alerts, id, Alert(fp, x, now, false, None))
            case Written =>
              && r.state == t.(alerts := r.state.alerts)
              && exists a :: a in t.alerts && t.alerts[a].fingerprint == fp
                   && Rewrites(t.alerts, r.state.alerts, a, t.alerts[a].(delivered := x))
  {
    var r := ExecMonitoring(t, devices, UpsertAlert(fp, x, now));
    if !Single(t.alerts, fp) {
      var a, b :| a in Hits(t.alerts, fp) && b in Hits(t.alerts, fp) && a != b;
      assert Share(t.alerts, a, b, fp);
    } else if Known(t.alerts, fp) {
      var a :| a in Hits(t.alerts, fp);
      forall b | b in t.alerts && b != a
        ensures t.alerts[b].fingerprint != fp
      {
        assert b !in Hits(t.alerts, fp);
      }
      if Points(x.device, devices) { assert Rewrites(t.alerts, r.state.alerts, a, t.alerts[a].(delivered := x)); }
    } else {
      forall a | a in t.alerts
        ensures t.alerts[a].fingerprint != fp
      {
        assert a !in Hits(t.alerts, fp);
      }
    }
  }

  /** Two rows with one fingerprint. */
  predicate Share(alerts: map<Id, Alert>, a: Id, b: Id, fp: string) {
    a in alerts && b in alerts && a != b && alerts[a].fingerprint == fp && alerts[b].fingerprint == fp
  }

  lemma AcknowledgeExactly(t: MonitoringTables, devices: set<Id>, id: Id, now: int)
    ensures var r := ExecMonitoring(t, devices, Acknowledge(id, now));
            && (r.outcome == Raised <==> id !in t.alerts)
            && r.state == t.(alerts := r.state.alerts)
            && (id in t.alerts ==> Rewrites(t.alerts, r.state.alerts, id,
                 t.alerts[id].(acknowledged := true, acknowledgedAt := Some(now))))
  {
  }
}
