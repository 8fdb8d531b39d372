/** The provisioning worker: render, filter lines, push to each device, aggregate. */
module ProvisioningTasks {
  import opened Wrappers
  import opened Database
  import opened Sequences
  import Text

  // ------------------------------------------------------------ line filter

  /** `not line.strip()` */
  predicate Blank(line: string) {
    forall i :: 0 <= i < |line| ==> Text.IsSpace(line[i])
  }

  function Inked(lines: seq<string>): (r: seq<string>)
    ensures forall i :: 0 <= i < |r| ==> r[i] in lines && !Blank(r[i])
  {
    if lines == [] then []
    else (if Blank(lines[0]) then [] else [lines[0]]) + Inked(lines[1..])
  }

  /** `[line for line in rendered.splitlines() if line.strip()]` */
  function ConfigLines(rendered: string): (r: seq<string>)
    ensures forall i :: 0 <= i < |r| ==> !Blank(r[i])
  {
    Inked(Text.SplitLines(rendered))
  }

  // ------------------------------------------------------------- one device

  /** How pushing the lines to one device ends. */
  datatype Push = Pushed(output: string) | NetmikoFailed(message: string) | OtherFailure(message: string)

  type Pusher = (Id, seq<string>) -> Push

  type Renderer = (string, string) -> Wrappers.Result<string, string>

  function ErrorText(p: Push): string {
    match p
    case Pushed(_) => ""
    case NetmikoFailed(m) => m
    case OtherFailure(m) => "Unexpected error: " + m
  }

  function ResultRow(job: Id, d: Id, p: Push): PushResult {
    PushResult(job, d, p.Pushed?, if p.Pushed? then p.output else "", ErrorText(p))
  }

  function AuditRow(job: Id, d: Id, p: Push): Audit {
    Audit(PushConfig, Some(d), p.Pushed?, PushDetail(job, ErrorText(p)))
  }

  // --------------------------------------------------------------- one run

  datatype JobEnd =
    | Missing
    | NoTemplate
    | RenderFailed(message: string)
    | Lost
    | Finished(total: nat, success: nat, failed: nat)

  datatype Pushes = Pushes(db: Db, results: seq<PushResult>, lost: bool)

  /** The per-device loop: a failed push is recorded and the loop goes on; a row that cannot be
      stored ends the task. */
  function PushAll(db: Db, job: Id, devices: seq<Id>, lines: seq<string>, push: Pusher): Pushes
    decreases |devices|
  {
    if devices == [] then Pushes(db, [], false)
    else
      var x := ResultRow(job, devices[0], push(devices[0], lines));
      var stored := Exec(db, Provisioning(InsertResult(x)));
      if stored.outcome.Raised? then Pushes(stored.state, [], true)
      else
        var logged := Exec(stored.state, Log(AuditRow(job, devices[0], push(devices[0], lines))));
        if logged.outcome.Raised? then Pushes(logged.state, [x], true)
        else
          var rest := PushAll(logged.state, job, devices[1..], lines, push);
          rest.(results := [x] + rest.results)
  }

  function Successes(results: seq<PushResult>): (n: nat)
    ensures n <= |results|
  {
    if results == [] then 0 else (if results[0].success then 1 else 0) + Successes(results[1..])
  }

  function Aggregate(successes: nat, total: nat): JobStatus {
    if successes == total then Success else if successes == 0 then Failed else Partial
  }

  function StartSave(now: int): JobWrite { NO_SAVE.(status := Some(Running), startedAt := Some(now)) }

  function RenderSave(text: string): JobWrite { NO_SAVE.(rendered := Some(text)) }

  function EndSave(status: JobStatus, now: int): JobWrite { NO_SAVE.(status := Some(status), completedAt := Some(now)) }

  function TaskSave(task: string): JobWrite { NO_SAVE.(taskId := Some(task)) }

  function Saving(db: Db, id: Id, w: JobWrite): Db {
    Exec(db, Provisioning(SaveJob(id, w))).state
  }

  datatype JobRun = JobRun(db: Db, end: JobEnd)

  /** `execute_provisioning_job` with nothing in between; `t0` and `t1` are its clock readings. */
  function RanJob(db: Db, id: Id, render: Renderer, push: Pusher, t0: int, t1: int): JobRun {
    if id !in db.provisioning.jobs then JobRun(db, Missing)
    else
      var job := db.provisioning.jobs[id];
      var started := Saving(db, id, StartSave(t0));
      if job.template.None? || job.template.value !in db.provisioning.templates then JobRun(started, NoTemplate)
      else
        var rendered := render(db.provisioning.templates[job.template.value], job.variables);
        if rendered.Err? then JobRun(started, RenderFailed(rendered.error))
        else
          var ready := Saving(started, id, RenderSave(rendered.value));
          var ran := PushAll(ready, id, job.devices, ConfigLines(rendered.value), push);
          if ran.lost then JobRun(ran.db, Lost)
          else
            var n, k := |ran.results|, Successes(ran.results);
            JobRun(Saving(ran.db, id, EndSave(Aggregate(k, n), t1)), Finished(n, k, n - k))
  }

  method ExecuteProvisioningJob(store: Store, id: Id, render: Renderer, push: Pusher, t0: int, t1: int)
    returns (end: JobEnd)
    modifies store
    ensures JobRun(store.db, end) == RanJob(old(store.db), id, render, push, t0, t1)
  {
    hide Exec, PushAll, ConfigLines, Successes, Aggregate;
    if id !in store.db.provisioning.jobs { return Missing; }
    var job := store.db.provisioning.jobs[id];
    var templates := store.db.provisioning.templates;
    var started := store.Execute(Provisioning(SaveJob(id, StartSave(t0))));
    if job.template.None? || job.template.value !in templates { return NoTemplate; }
    var rendered := render(templates[job.template.value], job.variables);
    if rendered.Err? { return RenderFailed(rendered.error); }
    var saved := store.Execute(Provisioning(SaveJob(id, RenderSave(rendered.value))));
    var configLines := ConfigLines(rendered.value);
    var results, lost := PushToDevices(store, id, job.devices, configLines, push);
    if lost { return Lost; }
    var total := |results|;
    var successes := Successes(results);
    var done := store.Execute(Provisioning(SaveJob(id, EndSave(Aggregate(successes, total), t1))));
    return Finished(total, successes, total - successes);
  }

  /** The loop of the task. */
  method PushToDevices(store: Store, id: Id, devices: seq<Id>, configLines: seq<string>, push: Pusher)
    returns (results: seq<PushResult>, lost: bool)
    modifies store
    ensures Pushes(store.db, results, lost) == PushAll(old(store.db), id, devices, configLines, push)
  {
    hide Exec, ResultRow, AuditRow;
    results := [];
    var i := 0;
    ghost var was := store.db;
    while i < |devices|
      invariant 0 <= i <= |devices|
      invariant var rest := PushAll(store.db, id, devices[i..], configLines, push);
                PushAll(was, id, devices, configLines, push) == rest.(results := results + rest.results)
    {
      ghost var rest := PushAll(store.db, id, devices[i..], configLines, push);
      assert devices[i..][0] == devices[i] && devices[i..][1..] == devices[i + 1..];
      var d := devices[i];
      var attempt := push(d, configLines);
      var result := ResultRow(id, d, attempt);
      var stored := store.Execute(Provisioning(InsertResult(result)));
      if stored.Raised? { return results, true; }
      ghost var before := results;
      results := results + [result];
      var logged := store.Execute(Log(AuditRow(id, d, attempt)));
      if logged.Raised? { return results, true; }
      ConcatAssociates(before, [result], PushAll(store.db, id, devices[i + 1..], configLines, push).results);
      i := i + 1;
    }
    return results, false;
  }

  /** What the request's serializer leaves to the defaults: a pending job that has produced nothing. */
  function NewJob(template: Option<Id>, devices: seq<Id>, variables: string): ProvisioningJob {
    ProvisioningJob(template, devices, variables, Pending, None, None, "", "")
  }

  /** `ProvisioningJobViewSet.create`: the job row, then, after dispatch, the task id alone. */
  method CreateProvisioningJob(store: Store, template: Option<Id>, devices: seq<Id>, variables: string, task: string)
    returns (created: Option<Id>)
    modifies store
    ensures created.Some? <==>
      && Points(template, old(store.db).provisioning.templates.Keys)
      && forall d :: d in devices ==> d in old(store.db).inventory.devices
    ensures created.None? ==> store.db == old(store.db)
    ensures created.Some? ==>
      && created.value == old(store.db).provisioning.next
      && store.db == old(store.db).(provisioning := old(store.db).provisioning.(
           next := created.value + 1,
           jobs := old(store.db).provisioning.jobs[created.value :=
             ProvisioningJob(template, devices, variables, Pending, None, None, "", task)]))
  {
    var job := NewJob(template, devices, variables);
    var inserted := store.Execute(Provisioning(InsertJob(job)));
    if inserted.Raised? { return None; }
    ghost var jobs := old(store.db).provisioning.jobs;
    created := Some(inserted.id);
    var saved := store.Execute(Provisioning(SaveJob(inserted.id, TaskSave(task))));
    assert store.db.provisioning.jobs == jobs[created.value := job.(taskId := task)];
  }
}
