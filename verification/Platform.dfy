/** Every task and request of the platform, as whole calls in any order, from an empty database. */
module Platform {
  import opened Wrappers
  import opened Database
  import opened Integrity
  import SecurityTasks
  import SecurityRuns
  import Monitoring
  import DiscoveryTasks
  import DiscoveryRuns
  import ProvisioningTasks

  datatype Call =
    | Guard(request: SecurityTasks.Request)
    | Provision(job: Id, render: ProvisioningTasks.Renderer, push: ProvisioningTasks.Pusher, t0: int, t1: int)
    | Discover(job: Id, plan: DiscoveryTasks.Plan)
    | Alerts(raws: seq<Monitoring.RawAlert>, now: int)
    | Direct(stmt: Stmt)

  /** The database after one call. */
  function Perform(db: Db, c: Call): Db {
    match c
    case Guard(q) => SecurityTasks.Whole(db, q).db
    case Provision(job, render, push, t0, t1) => ProvisioningTasks.RanJob(db, job, render, push, t0, t1).db
    case Discover(job, plan) => db.(inventory := DiscoveryTasks.RanDiscovery(db.inventory, job, plan).tables)
    case Alerts(raws, now) => db.(monitoring := Monitoring.Webhook(db.monitoring, db.inventory, raws, now).tables)
    case Direct(s) => Exec(db, s).state
  }

  function PerformAll(db: Db, cs: seq<Call>): Db
    decreases |cs|
  {
    if |cs| == 0 then db else PerformAll(Perform(db, cs[0]), cs[1..])
  }

  /** `after` is what some statements make of `before`. */
  ghost predicate Reaches(before: Db, after: Db) {
    exists ss :: Run(before, ss) == after
  }

  lemma ReachesNow(db: Db)
    ensures Reaches(db, db)
  {
    assert Run(db, []) == db;
  }

  lemma ReachesNext(db: Db, s: Stmt)
    ensures Reaches(db, Exec(db, s).state)
  {
    OneStatement(db, s);
  }

  lemma ReachesOn(a: Db, b: Db, c: Db)
    requires Reaches(a, b) && Reaches(b, c)
    ensures Reaches(a, c)
  {
    var x :| Run(a, x) == b;
    var y :| Run(b, y) == c;
    RunConcat(a, x, y);
  }

  lemma {:induction false} PushesReach(db: Db, job: Id, devices: seq<Id>, lines: seq<string>,
      push: ProvisioningTasks.Pusher)
    ensures Reaches(db, ProvisioningTasks.PushAll(db, job, devices, lines, push).db)
    decreases |devices|
  {
    hide Exec, Reaches;
    if devices == [] {
      ReachesNow(db);
    } else {
      var p := push(devices[0], lines);
      var s, l := Provisioning(InsertResult(ProvisioningTasks.ResultRow(job, devices[0], p))),
          Log(ProvisioningTasks.AuditRow(job, devices[0], p));
      var stored := Exec(db, s);
      ReachesNext(db, s);
      if !stored.outcome.Raised? {
        var logged := Exec(stored.state, l);
        ReachesNext(stored.state, l);
        ReachesOn(db, stored.state, logged.state);
        if !logged.outcome.Raised? {
          PushesReach(logged.state, job, devices[1..], lines, push);
          ReachesOn(db, logged.state, ProvisioningTasks.PushAll(db, job, devices, lines, push).db);
        }
      }
    }
  }

  lemma JobReaches(db: Db, id: Id, render: ProvisioningTasks.Renderer, push: ProvisioningTasks.Pusher, t0: int, t1: int)
    ensures Reaches(db, ProvisioningTasks.RanJob(db, id, render, push, t0, t1).db)
  {
    hide Exec, Reaches, ProvisioningTasks.PushAll, ProvisioningTasks.ConfigLines, ProvisioningTasks.Aggregate;
    if id !in db.provisioning.jobs {
      ReachesNow(db);
    } else {
      var job := db.provisioning.jobs[id];
      var started := ProvisioningTasks.Saving(db, id, ProvisioningTasks.StartSave(t0));
      ReachesNext(db, Provisioning(SaveJob(id, ProvisioningTasks.StartSave(t0))));
      if job.template.Some? && job.template.value in db.provisioning.templates {
        var rendered := render(db.provisioning.templates[job.template.value], job.variables);
        if rendered.Ok? {
          var ready := ProvisioningTasks.Saving(started, id, ProvisioningTasks.RenderSave(rendered.value));
          ReachesNext(started, Provisioning(SaveJob(id, ProvisioningTasks.RenderSave(rendered.value))));
          ReachesOn(db, started, ready);
          var lines := ProvisioningTasks.ConfigLines(rendered.value);
          var ran := ProvisioningTasks.PushAll(ready, id, job.devices, lines, push);
          PushesReach(ready, id, job.devices, lines, push);
          ReachesOn(db, ready, ran.db);
          var n, k := |ran.results|, ProvisioningTasks.Successes(ran.results);
          var end := Provisioning(SaveJob(id, ProvisioningTasks.EndSave(ProvisioningTasks.Aggregate(k, n), t1)));
          ReachesNext(ran.db, end);
          ReachesOn(db, ran.db, Exec(ran.db, end).state);
        }
      }
    }
  }

  lemma {:induction false} AlertsReach(db: Db, raws: seq<Monitoring.RawAlert>, now: int)
    ensures Reaches(db, db.(monitoring := Monitoring.Webhook(db.monitoring, db.inventory, raws, now).tables))
    decreases |raws|
  {
    hide Reaches, Monitoring.Normalise, Monitoring.Readable, Upsert;
    if raws == [] || !Monitoring.Readable(raws[0]) {
      assert db.(monitoring := db.monitoring) == db;
      ReachesNow(db);
    } else {
      var x := Monitoring.Normalise(db.inventory, raws[0]);
      var s := Database.Monitoring(UpsertAlert(x.fingerprint, x.columns, now));
      var one := Exec(db, s).state;
      ReachesNext(db, s);
      if !Monitoring.Take(db.monitoring, db.inventory, raws[0], now).raised {
        AlertsReach(one, raws[1..], now);
        ReachesOn(db, one, db.(monitoring := Monitoring.Webhook(db.monitoring, db.inventory, raws, now).tables));
      }
    }
  }

  /** One step of a discovery job is at most one statement. */
  lemma StepReaches(db: Db, p: DiscoveryRuns.Proc)
    ensures Reaches(db, db.(inventory := DiscoveryRuns.Advance(db.inventory, p).tables))
  {
    hide Reaches, ExecInventory, DiscoveryTasks.HasIp, DiscoveryRuns.AtHost, DiscoveryRuns.Failing,
        DiscoveryTasks.HeaderLine, DiscoveryTasks.NewDevice;
    ReachesNow(db);
    assert db.(inventory := db.inventory) == db;
    match p {
      case Starting(job, plan) => ReachesNext(db, Inventory(SaveDiscovery(job, DiscoveryTasks.StartSave(plan.t0))));
      case Looking(_, _, _, _) =>
      case Storing(_, _, rest, _) =>
          if rest != [] { ReachesNext(db, Inventory(InsertDevice(DiscoveryTasks.NewDevice(rest[0])))); }
      case Counting(_, _, _, _) =>
      case Ending(job, plan, status, tally) =>
        ReachesNext(db, Inventory(SaveDiscovery(job, DiscoveryTasks.EndSave(status, plan.t1, tally))));
      case Done(_) =>
    }
  }

  lemma {:induction false} SoloReaches(db: Db, p: DiscoveryRuns.Proc, k: nat)
    ensures Reaches(db, db.(inventory := DiscoveryRuns.Solo(db.inventory, p, k).tables))
    decreases k
  {
    hide Reaches, DiscoveryRuns.Advance;
    if k == 0 {
      assert db.(inventory := db.inventory) == db;
      ReachesNow(db);
    } else {
      var r := DiscoveryRuns.Advance(db.inventory, p);
      var next := db.(inventory := r.tables);
      StepReaches(db, p);
      SoloReaches(next, r.proc, k - 1);
      ReachesOn(db, next, db.(inventory := DiscoveryRuns.Solo(db.inventory, p, k).tables));
    }
  }

  lemma {:induction false} GuardReaches(db: Db, p: SecurityTasks.Proc, k: nat)
    ensures Reaches(db, SecurityTasks.Solo(db, p, k).db)
    decreases k
  {
    hide SecurityTasks.Advance, Run;
    if k == 0 {
      ReachesNow(db);
    } else {
      var r := SecurityTasks.Advance(db, p);
      var ss := SecurityRuns.AdvanceIsRun(db, p);
      assert Reaches(db, r.db);
      GuardReaches(r.db, r.proc, k - 1);
      ReachesOn(db, r.db, SecurityTasks.Solo(db, p, k).db);
    }
  }

  lemma PerformReaches(db: Db, c: Call)
    ensures Reaches(db, Perform(db, c))
  {
    hide Reaches, SecurityTasks.Whole, SecurityTasks.Solo, ProvisioningTasks.RanJob, DiscoveryTasks.RanDiscovery,
      DiscoveryRuns.Solo, Monitoring.Webhook, Exec;
    match c {
      case Guard(q) =>
        GuardReaches(db, SecurityTasks.Start(db, q), SecurityTasks.LONGEST);
        SecurityRuns.WholeIsSolo(db, q);
      case Provision(job, render, push, t0, t1) => JobReaches(db, job, render, push, t0, t1);
      case Discover(job, plan) =>
        var k := DiscoveryRuns.WholeIsSolo(db.inventory, job, plan);
        SoloReaches(db, DiscoveryRuns.Starting(job, plan), k);
      case Alerts(raws, now) => AlertsReach(db, raws, now);
      case Direct(s) => ReachesNext(db, s);
    }
  }

  lemma {:induction false} CallsReach(db: Db, cs: seq<Call>)
    ensures Reaches(db, PerformAll(db, cs))
    decreases |cs|
  {
    hide Reaches, Perform;
    if |cs| == 0 {
      ReachesNow(db);
    } else {
      PerformReaches(db, cs[0]);
      CallsReach(Perform(db, cs[0]), cs[1..]);
      ReachesOn(db, Perform(db, cs[0]), PerformAll(db, cs));
    }
  }

  /** Whatever tasks, requests and deletions were performed on an empty database, every reference points at
      a row or is null, keys are fresh and devices unique; and more calls only ever extend the audit log. */
  lemma EveryStateIsIntegral(past: seq<Call>, more: seq<Call>)
    ensures Integral(PerformAll(EMPTY, past))
    ensures AuditExtends(PerformAll(EMPTY, past).audit, PerformAll(PerformAll(EMPTY, past), more).audit)
  {
    hide Integral, Run, PerformAll;
    EmptyIsIntegral();
    CallsReach(EMPTY, past);
    var db := PerformAll(EMPTY, past);
    var x :| Run(EMPTY, x) == db;
    RunKeepsIntegrity(EMPTY, x);
    CallsReach(db, more);
    var y :| Run(db, y) == PerformAll(db, more);
    RunKeepsIntegrity(db, y);
  }
}
