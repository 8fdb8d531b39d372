/** What a provisioning job leaves behind, alone and among other statements. */
module ProvisioningRuns {
  import opened Wrappers
  import opened Database
  import opened Integrity
  import opened Footprint
  import opened ProvisioningTasks
  import opened Sequences
  import Text

  // ---------------------------------------------------------- observations

  /** A job's result rows in the order they were stored. */
  function ResultsOf(results: map<Id, PushResult>, job: Id, n: Id): seq<PushResult> {
    if n == 0 then []
    else ResultsOf(results, job, n - 1) + if n - 1 in results && results[n - 1].job == job then [results[n - 1]] else []
  }

  function JobResults(t: ProvisioningTables, job: Id): seq<PushResult> {
    ResultsOf(t.results, job, t.next)
  }

  predicate OfJob(x: Audit, job: Id) {
    x.detail.PushDetail? && x.detail.job == job
  }

  /** The push entries of a job in an audit log. */
  function EntryOf(job: Id): Audit -> Option<Audit> {
    (x: Audit) => if OfJob(x, job) then Some(x) else None
  }

  function JobAudit(audit: seq<Audit>, job: Id): seq<Audit> {
    Project(EntryOf(job), audit)
  }

  function ToResult(job: Id): Stmt -> Option<PushResult> {
    (s: Stmt) => if s.Provisioning? && s.provisioning.InsertResult? && s.provisioning.result.job == job
      then Some(s.provisioning.result) else None
  }

  function ToEntry(job: Id): Stmt -> Option<Audit> {
    (s: Stmt) => if s.Log? && OfJob(s.entry, job) then Some(s.entry) else None
  }

  // ------------------------------------------------------------ line filter

  lemma {:induction false} FilterSplits(lines: seq<string>) returns (dropped: seq<string>)
    ensures forall i :: 0 <= i < |dropped| ==> Blank(dropped[i])
    ensures Interleaved(Inked(lines), dropped, lines)
    decreases |lines|
  {
    hide Blank;
    if lines == [] {
      dropped := [];
    } else {
      dropped := FilterSplits(lines[1..]);
      assert lines == [lines[0]] + lines[1..];
      if Blank(lines[0]) {
        EmptyConcat(Inked(lines[1..]));
        PrependRight(lines[0], Inked(lines[1..]), dropped, lines[1..]);
        dropped := [lines[0]] + dropped;
      } else {
        Prepend(lines[0], Inked(lines[1..]), dropped, lines[1..]);
      }
    }
  }

  /** The filter drops the blank lines and nothing else: the text's lines are its config lines, none of
      them blank, interleaved with blank lines. */
  lemma FilterExactly(rendered: string) returns (dropped: seq<string>)
    ensures forall i :: 0 <= i < |dropped| ==> Blank(dropped[i])
    ensures Interleaved(ConfigLines(rendered), dropped, Text.SplitLines(rendered))
    ensures forall i :: 0 <= i < |ConfigLines(rendered)| ==> !Blank(ConfigLines(rendered)[i])
  {
    dropped := FilterSplits(Text.SplitLines(rendered));
  }

  // ------------------------------------------------------- expected records

  function ExpectedResults(job: Id, devices: seq<Id>, lines: seq<string>, push: Pusher): (r: seq<PushResult>)
    ensures |r| == |devices|
    ensures forall i :: 0 <= i < |r| ==> r[i] == ResultRow(job, devices[i], push(devices[i], lines))
  {
    if devices == [] then []
    else [ResultRow(job, devices[0], push(devices[0], lines))] + ExpectedResults(job, devices[1..], lines, push)
  }

  function ExpectedAudit(job: Id, devices: seq<Id>, lines: seq<string>, push: Pusher): (r: seq<Audit>)
    ensures |r| == |devices|
    ensures forall i :: 0 <= i < |r| ==> r[i] == AuditRow(job, devices[i], push(devices[i], lines))
  {
    if devices == [] then []
    else [AuditRow(job, devices[0], push(devices[0], lines))] + ExpectedAudit(job, devices[1..], lines, push)
  }

  /** What the stored columns must say about a push that ended as `p`. */
  predicate TellsPush(p: Push, success: bool, output: string, error: string) {
    match p
    case Pushed(o) => success && output == o && error == ""
    case NetmikoFailed(m) => !success && output == "" && error == m
    case OtherFailure(m) => !success && output == "" && error == "Unexpected error: " + m
  }

  /** One result and one audit entry per device, in order; both tell how the push of the lines to it ended. */
  ghost predicate Aligned(job: Id, devices: seq<Id>, lines: seq<string>, push: Pusher,
                          results: seq<PushResult>, audit: seq<Audit>) {
    && |results| == |devices| == |audit|
    && forall i :: 0 <= i < |devices| ==>
      && results[i].job == job && results[i].device == devices[i]
      && TellsPush(push(devices[i], lines), results[i].success, results[i].output, results[i].error)
      && audit[i] == Audit(PushConfig, Some(devices[i]), results[i].success, PushDetail(job, results[i].error))
  }

  lemma ExpectedAligned(job: Id, devices: seq<Id>, lines: seq<string>, push: Pusher)
    ensures Aligned(job, devices, lines, push,
              ExpectedResults(job, devices, lines, push), ExpectedAudit(job, devices, lines, push))
  {
  }

  // ------------------------------------------------- the worker's statements

  function PushScript(job: Id, devices: seq<Id>, lines: seq<string>, push: Pusher): seq<Stmt> {
    if devices == [] then []
    else
      var p := push(devices[0], lines);
      [Provisioning(InsertResult(ResultRow(job, devices[0], p))), Log(AuditRow(job, devices[0], p))]
      + PushScript(job, devices[1..], lines, push)
  }

  function FinalStatus(devices: seq<Id>, lines: seq<string>, push: Pusher): JobStatus {
    Aggregate(Successes(ExpectedResults(0, devices, lines, push)), |devices|)
  }

  /** Everything the worker sends for a job whose template rendered to `text`. */
  function Script(id: Id, devices: seq<Id>, text: string, push: Pusher, t0: int, t1: int): seq<Stmt> {
    var lines := ConfigLines(text);
    [Provisioning(SaveJob(id, StartSave(t0))), Provisioning(SaveJob(id, RenderSave(text)))]
    + PushScript(id, devices, lines, push)
    + [Provisioning(SaveJob(id, EndSave(FinalStatus(devices, lines, push), t1)))]
  }

  // ----------------------------------------------------------------- status

  lemma {:induction false} SuccessesCount(results: seq<PushResult>)
    ensures Successes(results) == |results| <==> forall i :: 0 <= i < |results| ==> results[i].success
    ensures Successes(results) == 0 <==> forall i :: 0 <= i < |results| ==> !results[i].success
  {
    if results != [] {
      SuccessesCount(results[1..]);
      assert forall i :: 0 < i < |results| ==> results[i] == results[1..][i - 1];
      assert forall i :: 0 <= i < |results[1..]| ==> results[1..][i] == results[i + 1];
    }
  }

  /** The positions from `k` on whose push succeeded. */
  function Succeeded(devices: seq<Id>, lines: seq<string>, push: Pusher, k: nat): set<nat> {
    set i: nat | k <= i < |devices| && push(devices[i], lines).Pushed?
  }

  lemma {:induction false} SuccessesFrom(job: Id, devices: seq<Id>, lines: seq<string>, push: Pusher, k: nat)
    requires k <= |devices|
    ensures Successes(ExpectedResults(job, devices[k..], lines, push)) == |Succeeded(devices, lines, push, k)|
    decreases |devices| - k
  {
    if k == |devices| {
      assert Succeeded(devices, lines, push, k) == {};
    } else {
      SuccessesFrom(job, devices, lines, push, k + 1);
      assert devices[k..][0] == devices[k] && devices[k..][1..] == devices[k + 1..];
      var results := ExpectedResults(job, devices[k..], lines, push);
      assert results[1..] == ExpectedResults(job, devices[k + 1..], lines, push);
      assert Succeeded(devices, lines, push, k)
          == Succeeded(devices, lines, push, k + 1) + if push(devices[k], lines).Pushed? then {k} else {};
    }
  }

  lemma {:induction false} SuccessesIgnoreJob(a: Id, b: Id, devices: seq<Id>, lines: seq<string>, push: Pusher)
    ensures Successes(ExpectedResults(a, devices, lines, push)) == Successes(ExpectedResults(b, devices, lines, push))
    decreases |devices|
  {
    if devices != [] {
      SuccessesIgnoreJob(a, b, devices[1..], lines, push);
      assert ExpectedResults(a, devices, lines, push)[1..] == ExpectedResults(a, devices[1..], lines, push);
      assert ExpectedResults(b, devices, lines, push)[1..] == ExpectedResults(b, devices[1..], lines, push);
    }
  }

  /** SUCCESS iff every push succeeded (the empty set included), FAILED iff there was a device and
      none succeeded, PARTIAL iff some did and some did not. */
  lemma FinalStatusMeans(devices: seq<Id>, lines: seq<string>, push: Pusher)
    ensures var v := FinalStatus(devices, lines, push);
            && (v == Success <==> forall i :: 0 <= i < |devices| ==> push(devices[i], lines).Pushed?)
            && (v == Failed <==> devices != [] && forall i :: 0 <= i < |devices| ==> !push(devices[i], lines).Pushed?)
            && (v == Partial <==>
                 && (exists i :: 0 <= i < |devices| && push(devices[i], lines).Pushed?)
                 && (exists i :: 0 <= i < |devices| && !push(devices[i], lines).Pushed?))
  {
    var results := ExpectedResults(0, devices, lines, push);
    SuccessesCount(results);
    assert forall i :: 0 <= i < |devices| ==> (results[i].success <==> push(devices[i], lines).Pushed?);
  }

  // ------------------------------------------- what a run does to one job

  /** Neither the job nor any of `devices` is deleted. */
  predicate Quiet(s: Stmt, job: Id, devices: set<Id>) {
    Spares(s, job) && !(s.Removal? && s.removal.DeleteDevice? && s.removal.id in devices)
  }

  /** Two tables that hold the same rows of a job list the same results. */
  lemma {:induction false} SameRows(results: map<Id, PushResult>, results': map<Id, PushResult>, job: Id, n: Id)
    requires forall k: Id :: k < n ==>
        (k in results && results[k].job == job <==> k in results' && results'[k].job == job)
    requires forall k: Id :: k < n && k in results && results[k].job == job ==>
        k in results' && results'[k] == results[k]
    ensures ResultsOf(results', job, n) == ResultsOf(results, job, n)
  {
    if n > 0 { SameRows(results, results', job, n - 1); }
  }

  /** The records a job already has name only `devices`. */
  ghost predicate RecordsName(results: map<Id, PushResult>, id: Id, devices: set<Id>) {
    forall r :: r in results && results[r].job == id ==> results[r].device in devices
  }

  ghost predicate EntriesName(audit: seq<Audit>, id: Id, devices: set<Id>) {
    forall i :: 0 <= i < |audit| && OfJob(audit[i], id) ==> Points(audit[i].device, devices)
  }

  lemma ProvisioningOnResults(t: ProvisioningTables, all: set<Id>, s: ProvisioningStmt, id: Id, devices: set<Id>)
    requires id in t.jobs && Below(t.jobs, t.next) && Below(t.results, t.next)
    requires RecordsName(t.results, id, devices) && devices <= all
    requires s.InsertResult? && s.result.job == id ==> s.result.device in devices
    ensures var t' := ExecProvisioning(t, all, s).state;
            && id in t'.jobs && Below(t'.jobs, t'.next) && Below(t'.results, t'.next)
            && RecordsName(t'.results, id, devices)
            && JobResults(t', id)
               == JobResults(t, id) + if s.InsertResult? && s.result.job == id then [s.result] else []
  {
    var t' := ExecProvisioning(t, all, s).state;
    if t'.next == t.next + 1 {
      SameRows(t.results, t'.results, id, t.next);
    }
  }

  lemma RemovalOnResults(t: ProvisioningTables, job: Id, id: Id)
    requires id in t.jobs && Below(t.jobs, t.next) && Below(t.results, t.next) && job != id
    ensures var t' := RemoveJob(t, job);
            && id in t'.jobs && Below(t'.jobs, t'.next) && Below(t'.results, t'.next)
            && JobResults(t', id) == JobResults(t, id)
            && forall devices :: RecordsName(t.results, id, devices) ==> RecordsName(t'.results, id, devices)
  {
    SameRows(t.results, RemoveJob(t, job).results, id, t.next);
  }

  /** The part of the database one job's records live in. */
  ghost predicate Housed(db: Db, id: Id, devices: set<Id>) {
    && id in db.provisioning.jobs && devices <= db.inventory.devices.Keys
    && Below(db.provisioning.jobs, db.provisioning.next) && Below(db.provisioning.results, db.provisioning.next)
    && RecordsName(db.provisioning.results, id, devices) && EntriesName(db.audit, id, devices)
  }

  /** A statement that records something about job `id` names only devices of `devices`. */
  predicate Names(s: Stmt, id: Id, devices: set<Id>) {
    && (var x := ToResult(id)(s); x.Some? ==> x.value.device in devices)
    && (var x := ToEntry(id)(s); x.Some? ==> Points(x.value.device, devices))
  }

  lemma TemplateOnResults(t: ProvisioningTables, template: Id, id: Id)
    requires id in t.jobs && Below(t.jobs, t.next) && Below(t.results, t.next)
    ensures var t' := RemoveTemplate(t, template);
            && id in t'.jobs && Below(t'.jobs, t'.next) && Below(t'.results, t'.next)
            && JobResults(t', id) == JobResults(t, id)
  {
  }

  lemma DeviceOnResults(t: ProvisioningTables, d: Id, id: Id, devices: set<Id>)
    requires id in t.jobs && Below(t.jobs, t.next) && Below(t.results, t.next)
    requires RecordsName(t.results, id, devices) && d !in devices
    ensures var t' := DropFromProvisioning(t, d);
            && id in t'.jobs && Below(t'.jobs, t'.next) && Below(t'.results, t'.next)
            && RecordsName(t'.results, id, devices) && JobResults(t', id) == JobResults(t, id)
  {
    SameRows(t.results, DropFromProvisioning(t, d).results, id, t.next);
  }

  lemma {:induction false} SameProjection<A, B>(f: A -> Option<B>, xs: seq<A>, ys: seq<A>)
    requires |xs| == |ys| && forall i :: 0 <= i < |xs| ==> f(xs[i]) == f(ys[i])
    ensures Project(f, xs) == Project(f, ys)
    decreases |xs|
  {
    if xs != [] {
      assert f(xs[0]) == f(ys[0]);
      assert forall i :: 0 <= i < |xs[1..]| ==> xs[1..][i] == xs[i + 1] && ys[1..][i] == ys[i + 1];
      SameProjection(f, xs[1..], ys[1..]);
    }
  }

  lemma DeviceOnAudit(audit: seq<Audit>, d: Id, id: Id, devices: set<Id>)
    requires EntriesName(audit, id, devices) && d !in devices
    ensures var after := UnlinkAudit(audit, d);
            EntriesName(after, id, devices) && JobAudit(after, id) == JobAudit(audit, id)
  {
    var after := UnlinkAudit(audit, d);
    forall i | 0 <= i < |audit|
      ensures EntryOf(id)(after[i]) == EntryOf(id)(audit[i])
      ensures OfJob(after[i], id) ==> after[i] == audit[i]
    {
    }
    SameProjection(EntryOf(id), after, audit);
  }

  /** A statement that deletes something. */
  lemma RemovalOnRecords(db: Db, s: RemovalStmt, id: Id, devices: set<Id>)
    requires Housed(db, id, devices) && Quiet(Removal(s), id, devices)
    ensures var after := ExecRemoval(db, s).state;
            && Housed(after, id, devices)
            && JobResults(after.provisioning, id) == JobResults(db.provisioning, id)
            && JobAudit(after.audit, id) == JobAudit(db.audit, id)
  {
    hide JobResults, JobAudit;
    match s {
      case DeleteDevice(d) =>
        hide EntriesName, RecordsName, DropFromProvisioning, UnlinkAudit, DropFromSecurity, DropFromMonitoring;
        if d in db.inventory.devices {
          DeviceOnResults(db.provisioning, d, id, devices);
          DeviceOnAudit(db.audit, d, id, devices);
        }
      case DeleteRule(_) =>
      case DeleteSnapshot(_) =>
      case DeleteTemplate(t) => TemplateOnResults(db.provisioning, t, id);
      case DeleteJob(j) => if j in db.provisioning.jobs { RemovalOnResults(db.provisioning, j, id); }
    }
  }

  lemma LogOnRecords(db: Db, x: Audit, id: Id, devices: set<Id>)
    requires Housed(db, id, devices) && Names(Log(x), id, devices)
    ensures var after := Exec(db, Log(x)).state;
            && Housed(after, id, devices)
            && JobAudit(after.audit, id) == JobAudit(db.audit, id) + Project(ToEntry(id), [Log(x)])
  {
    ProjectOne(ToEntry(id), Log(x));
    EmptyConcat(JobAudit(db.audit, id));
    ProjectConcat(EntryOf(id), db.audit, [x]);
    ProjectOne(EntryOf(id), x);
  }

  lemma ExecOnRecords(db: Db, s: Stmt, id: Id, devices: set<Id>)
    requires Housed(db, id, devices) && Quiet(s, id, devices) && Names(s, id, devices)
    ensures Housed(Exec(db, s).state, id, devices)
    ensures JobResults(Exec(db, s).state.provisioning, id)
        == JobResults(db.provisioning, id) + Project(ToResult(id), [s])
    ensures JobAudit(Exec(db, s).state.audit, id) == JobAudit(db.audit, id) + Project(ToEntry(id), [s])
  {
    ProjectOne(ToResult(id), s);
    ProjectOne(ToEntry(id), s);
    EmptyConcat(JobResults(db.provisioning, id));
    EmptyConcat(JobAudit(db.audit, id));
    hide JobResults, JobAudit, RecordsName, EntriesName, Project;
    match s {
      case Inventory(_) =>
      case Security(_) =>
      case Provisioning(t) =>
        hide ExecProvisioning;
        ProvisioningOnResults(db.provisioning, db.inventory.devices.Keys, t, id, devices);
      case Monitoring(_) =>
      case Log(x) => LogOnRecords(db, x, id, devices);
      case Removal(t) =>
        hide ExecRemoval;
        RemovalOnRecords(db, t, id, devices);
    }
  }

  /** Whatever else runs, a job's results and push entries are the ones stored for it, in order. */
  lemma {:induction false} RecordsAreInserts(db: Db, ss: seq<Stmt>, id: Id, devices: set<Id>)
    requires Housed(db, id, devices)
    requires forall i :: 0 <= i < |ss| ==> Quiet(ss[i], id, devices) && Names(ss[i], id, devices)
    ensures JobResults(Run(db, ss).provisioning, id) == JobResults(db.provisioning, id) + Project(ToResult(id), ss)
    ensures JobAudit(Run(db, ss).audit, id) == JobAudit(db.audit, id) + Project(ToEntry(id), ss)
    decreases |ss|
  {
    if ss == [] {
      EmptyConcat(JobResults(db.provisioning, id));
      EmptyConcat(JobAudit(db.audit, id));
    } else {
      hide Exec, Quiet, Names, JobResults, JobAudit, Housed;
      assert Quiet(ss[0], id, devices) && Names(ss[0], id, devices);
      ExecOnRecords(db, ss[0], id, devices);
      var next := Exec(db, ss[0]).state;
      assert forall i :: 0 <= i < |ss[1..]| ==> ss[1..][i] == ss[i + 1];
      RecordsAreInserts(next, ss[1..], id, devices);
      assert ss == [ss[0]] + ss[1..];
      ProjectConcat(ToResult(id), [ss[0]], ss[1..]);
      ProjectConcat(ToEntry(id), [ss[0]], ss[1..]);
      ConcatAssociates(JobResults(db.provisioning, id), Project(ToResult(id), [ss[0]]), Project(ToResult(id), ss[1..]));
      ConcatAssociates(JobAudit(db.audit, id), Project(ToEntry(id), [ss[0]]), Project(ToEntry(id), ss[1..]));
    }
  }

  // -------------------------------------------- what the worker's statements are

  lemma {:induction false} PushScriptRecords(id: Id, devices: seq<Id>, lines: seq<string>, push: Pusher)
    ensures Project(ToJob(id), PushScript(id, devices, lines, push)) == []
    ensures Project(ToResult(id), PushScript(id, devices, lines, push)) == ExpectedResults(id, devices, lines, push)
    ensures Project(ToEntry(id), PushScript(id, devices, lines, push)) == ExpectedAudit(id, devices, lines, push)
    decreases |devices|
  {
    if devices != [] {
      var p := push(devices[0], lines);
      var s, l := Provisioning(InsertResult(ResultRow(id, devices[0], p))), Log(AuditRow(id, devices[0], p));
      var rest := PushScript(id, devices[1..], lines, push);
      PushScriptRecords(id, devices[1..], lines, push);
      PairThenRest(ToJob(id), s, l, rest);
      PairThenRest(ToResult(id), s, l, rest);
      PairThenRest(ToEntry(id), s, l, rest);
      assert ToEntry(id)(s) == None && ToEntry(id)(l) == Some(AuditRow(id, devices[0], p));
      EmptyConcat([AuditRow(id, devices[0], p)]);
    }
  }

  lemma PairThenRest<A, B>(f: A -> Option<B>, x: A, y: A, rest: seq<A>)
    ensures Project(f, [x, y] + rest)
         == (if f(x).Some? then [f(x).value] else []) + (if f(y).Some? then [f(y).value] else []) + Project(f, rest)
  {
    ProjectConcat(f, [x, y], rest);
    assert [x, y] == [x] + [y];
    ProjectConcat(f, [x], [y]);
    ProjectOne(f, x);
    ProjectOne(f, y);
  }

  lemma BracketedRest<A, B>(f: A -> Option<B>, x: A, y: A, mid: seq<A>, z: A)
    ensures Project(f, [x, y] + mid + [z])
         == (if f(x).Some? then [f(x).value] else []) + (if f(y).Some? then [f(y).value] else [])
            + (Project(f, mid) + if f(z).Some? then [f(z).value] else [])
  {
    ConcatAssociates([x, y], mid, [z]);
    PairThenRest(f, x, y, mid + [z]);
    ProjectConcat(f, mid, [z]);
    ProjectOne(f, z);
  }

  lemma ScriptRecords(id: Id, devices: seq<Id>, text: string, push: Pusher, t0: int, t1: int)
    ensures var lines := ConfigLines(text);
            var script := Script(id, devices, text, push, t0, t1);
            && Project(ToJob(id), script)
                == [StartSave(t0), RenderSave(text), EndSave(FinalStatus(devices, lines, push), t1)]
            && Project(ToResult(id), script) == ExpectedResults(id, devices, lines, push)
            && Project(ToEntry(id), script) == ExpectedAudit(id, devices, lines, push)
  {
    hide ConfigLines, FinalStatus, PushScript, Project, ExpectedResults, ExpectedAudit;
    var lines := ConfigLines(text);
    var a, b := Provisioning(SaveJob(id, StartSave(t0))), Provisioning(SaveJob(id, RenderSave(text)));
    var mid, c := PushScript(id, devices, lines, push),
        Provisioning(SaveJob(id, EndSave(FinalStatus(devices, lines, push), t1)));
    PushScriptRecords(id, devices, lines, push);
    BracketedRest(ToJob(id), a, b, mid, c);
    BracketedRest(ToResult(id), a, b, mid, c);
    BracketedRest(ToEntry(id), a, b, mid, c);
  }

  // ---------------------------------------------------------- main theorems

  lemma JobFolds(row: ProvisioningJob, x: JobWrite, y: JobWrite, z: JobWrite)
    ensures Fold(WriteJob, row, [x, y, z]) == WriteJob(WriteJob(WriteJob(row, x), y), z)
  {
    var one := WriteJob(row, x);
    var two := WriteJob(one, y);
    assert [x, y, z][1..] == [y, z] && [y, z][1..] == [z];
    SingletonTail(z);
    assert Fold(WriteJob, two, [z]) == WriteJob(two, z);
    assert Fold(WriteJob, one, [y, z]) == Fold(WriteJob, two, [z]);
  }

  /** The columns of a finished job. */
  function FinishedRow(row: ProvisioningJob, text: string, push: Pusher, t0: int, t1: int): ProvisioningJob {
    Saved(row).(status := FinalStatus(row.devices, ConfigLines(text), push), startedAt := Some(t0),
      completedAt := Some(t1), rendered := text)
  }

  lemma {:induction false} InProjection<A, B>(f: A -> Option<B>, xs: seq<A>, i: nat)
    requires i < |xs| && f(xs[i]).Some?
    ensures f(xs[i]).value in Project(f, xs)
    decreases |xs|
  {
    if i > 0 { InProjection(f, xs[1..], i - 1); }
  }

  lemma NamesOnlyDevices(id: Id, devices: seq<Id>, lines: seq<string>, push: Pusher, ss: seq<Stmt>, kept: set<Id>)
    requires forall d :: d in devices ==> d in kept
    requires Project(ToResult(id), ss) == ExpectedResults(id, devices, lines, push)
    requires Project(ToEntry(id), ss) == ExpectedAudit(id, devices, lines, push)
    ensures forall i :: 0 <= i < |ss| ==> Names(ss[i], id, kept)
  {
    forall i | 0 <= i < |ss|
      ensures Names(ss[i], id, kept)
    {
      if ToResult(id)(ss[i]).Some? { InProjection(ToResult(id), ss, i); }
      if ToEntry(id)(ss[i]).Some? { InProjection(ToEntry(id), ss, i); }
    }
  }

  /** However the worker's statements are interleaved with the request's task-id save and with any
      statements of the rest of the platform that delete neither the job nor a device it works on or has records
      of (`kept`), a finished job has one result and one push entry per device, matching in order, the status
      its pushes call for, and the task id. */
  lemma JobAmongOthers(db: Db, id: Id, text: string, push: Pusher, t0: int, t1: int,
                       others: seq<Stmt>, ss: seq<Stmt>, task: string, kept: set<Id>)
    requires Housed(db, id, kept) && forall d :: d in db.provisioning.jobs[id].devices ==> d in kept
    requires Interleaved(Script(id, db.provisioning.jobs[id].devices, text, push, t0, t1), others, ss)
    requires forall i :: 0 <= i < |ss| ==> Quiet(ss[i], id, kept)
    requires Project(ToJob(id), others) == [TaskSave(task)]
    requires Project(ToResult(id), others) == [] && Project(ToEntry(id), others) == []
    ensures var row, after := db.provisioning.jobs[id], Run(db, ss);
            var results := ExpectedResults(id, row.devices, ConfigLines(text), push);
            var audit := ExpectedAudit(id, row.devices, ConfigLines(text), push);
            && JobResults(after.provisioning, id) == JobResults(db.provisioning, id) + results
            && JobAudit(after.audit, id) == JobAudit(db.audit, id) + audit
            && Aligned(id, row.devices, ConfigLines(text), push, results, audit)
            && id in after.provisioning.jobs
            && Saved(after.provisioning.jobs[id]) == FinishedRow(row, text, push, t0, t1).(taskId := task)
  {
    hide Run, JobResults, JobAudit, ConfigLines, FinalStatus, PushScript, Script, Names, ExpectedResults, ExpectedAudit,
      RecordsName, EntriesName;
    var row := db.provisioning.jobs[id];
    var script := Script(id, row.devices, text, push, t0, t1);
    ScriptRecords(id, row.devices, text, push, t0, t1);
    ExpectedAligned(id, row.devices, ConfigLines(text), push);
    ProjectInterleaves(ToResult(id), script, others, ss);
    NothingInterleaved(Project(ToResult(id), script), Project(ToResult(id), ss));
    ProjectInterleaves(ToEntry(id), script, others, ss);
    NothingInterleaved(Project(ToEntry(id), script), Project(ToEntry(id), ss));
    NamesOnlyDevices(id, row.devices, ConfigLines(text), push, ss, kept);
    RecordsAreInserts(db, ss, id, kept);
    RequestAndWorkerCommute(db, script, others, ss, id, task);
    JobFolds(Saved(row), StartSave(t0), RenderSave(text),
        EndSave(FinalStatus(row.devices, ConfigLines(text), push), t1));
  }

  // ------------------------------------------------------------ a run alone

  ghost predicate Reachable(db: Db, id: Id, devices: seq<Id>) {
    id in db.provisioning.jobs && forall i :: 0 <= i < |devices| ==> devices[i] in db.inventory.devices
  }

  lemma StoresBoth(db: Db, id: Id, d: Id, p: Push)
    requires id in db.provisioning.jobs && d in db.inventory.devices
    ensures var stored := Exec(db, Provisioning(InsertResult(ResultRow(id, d, p))));
            var logged := Exec(stored.state, Log(AuditRow(id, d, p)));
            && !stored.outcome.Raised? && !logged.outcome.Raised?
            && logged.state.inventory == db.inventory && id in logged.state.provisioning.jobs
  {
  }

  lemma {:induction false} PushAllIsRun(db: Db, id: Id, devices: seq<Id>, lines: seq<string>, push: Pusher)
    requires Reachable(db, id, devices)
    ensures PushAll(db, id, devices, lines, push)
         == Pushes(Run(db, PushScript(id, devices, lines, push)), ExpectedResults(id, devices, lines, push), false)
    decreases |devices|
  {
    if devices != [] {
      hide Exec, ResultRow, AuditRow;
      var p := push(devices[0], lines);
      var s, l := Provisioning(InsertResult(ResultRow(id, devices[0], p))), Log(AuditRow(id, devices[0], p));
      StoresBoth(db, id, devices[0], p);
      var mid := Exec(db, s).state;
      var next := Exec(mid, l).state;
      assert forall i :: 0 <= i < |devices[1..]| ==> devices[1..][i] == devices[i + 1];
      PushAllIsRun(next, id, devices[1..], lines, push);
      var rest := PushScript(id, devices[1..], lines, push);
      RunConcat(db, [s, l], rest);
      assert [s, l] == [s] + [l];
      RunConcat(db, [s], [l]);
      OneStatement(db, s);
      OneStatement(mid, l);
    }
  }

  lemma SavingReaches(db: Db, id: Id, w: JobWrite, devices: seq<Id>)
    requires Reachable(db, id, devices)
    ensures Reachable(Saving(db, id, w), id, devices)
    ensures Run(db, [Provisioning(SaveJob(id, w))]) == Saving(db, id, w)
  {
    OneStatement(db, Provisioning(SaveJob(id, w)));
  }

  /** The template and the text a job renders to, when it does. */
  function RenderedText(db: Db, job: ProvisioningJob, render: Renderer): Option<string> {
    if job.template.None? || job.template.value !in db.provisioning.templates then None
    else match render(db.provisioning.templates[job.template.value], job.variables)
      case Ok(text) => Some(text)
      case Err(_) => None
  }

  lemma ScriptRuns(db: Db, id: Id, text: string, push: Pusher, t0: int, t1: int, devices: seq<Id>)
    requires Reachable(db, id, devices)
    ensures var lines := ConfigLines(text);
            var ready := Saving(Saving(db, id, StartSave(t0)), id, RenderSave(text));
            && Run(db, Script(id, devices, text, push, t0, t1))
               == Saving(Run(ready, PushScript(id, devices, lines, push)), id,
                   EndSave(FinalStatus(devices, lines, push), t1))
            && Reachable(ready, id, devices)
  {
    hide ConfigLines, FinalStatus, PushScript, Saving, Run;
    var lines := ConfigLines(text);
    var a, b := Provisioning(SaveJob(id, StartSave(t0))), Provisioning(SaveJob(id, RenderSave(text)));
    var mid, c := PushScript(id, devices, lines, push),
        Provisioning(SaveJob(id, EndSave(FinalStatus(devices, lines, push), t1)));
    var one := Saving(db, id, StartSave(t0));
    SavingReaches(db, id, StartSave(t0), devices);
    SavingReaches(one, id, RenderSave(text), devices);
    var ready := Saving(one, id, RenderSave(text));
    assert [a, b] == [a] + [b];
    RunConcat(db, [a], [b]);
    RunConcat(db, [a, b], mid);
    RunConcat(db, [a, b] + mid, [c]);
    OneSave(Run(ready, mid), id, EndSave(FinalStatus(devices, lines, push), t1));
  }

  lemma OneSave(db: Db, id: Id, w: JobWrite)
    ensures Run(db, [Provisioning(SaveJob(id, w))]) == Saving(db, id, w)
  {
    OneStatement(db, Provisioning(SaveJob(id, w)));
  }

  /** A finished run alone, whatever it meets: the stored results and push entries tell how each push ended, one
      per device and in order, and the row has its status, times and text. */
  lemma {:induction false} JobAlone(db: Db, id: Id, text: string, push: Pusher, t0: int, t1: int, kept: set<Id>)
    requires Housed(db, id, kept) && forall d :: d in db.provisioning.jobs[id].devices ==> d in kept
    ensures var row := db.provisioning.jobs[id];
            var after := Run(db, Script(id, row.devices, text, push, t0, t1));
            var results := ExpectedResults(id, row.devices, ConfigLines(text), push);
            var audit := ExpectedAudit(id, row.devices, ConfigLines(text), push);
            && JobResults(after.provisioning, id) == JobResults(db.provisioning, id) + results
            && JobAudit(after.audit, id) == JobAudit(db.audit, id) + audit
            && Aligned(id, row.devices, ConfigLines(text), push, results, audit)
            && id in after.provisioning.jobs
            && Saved(after.provisioning.jobs[id]) == FinishedRow(row, text, push, t0, t1)
  {
    hide Run, JobResults, JobAudit, ConfigLines, FinalStatus, PushScript, Names, ExpectedResults, ExpectedAudit,
      RecordsName, EntriesName, Project;
    var row := db.provisioning.jobs[id];
    var script := Script(id, row.devices, text, push, t0, t1);
    ScriptRecords(id, row.devices, text, push, t0, t1);
    ExpectedAligned(id, row.devices, ConfigLines(text), push);
    NamesOnlyDevices(id, row.devices, ConfigLines(text), push, script, kept);
    ScriptIsQuiet(id, row.devices, text, push, t0, t1, kept);
    hide Script, Quiet, Spares;
    RecordsAreInserts(db, script, id, kept);
    QuietSpares(script, id, kept);
    JobRowIsItsSaves(db, script, id);
    JobFolds(Saved(row), StartSave(t0), RenderSave(text),
      EndSave(FinalStatus(row.devices, ConfigLines(text), push), t1));
  }

  predicate DeletesNothing(ss: seq<Stmt>) {
    forall i :: 0 <= i < |ss| ==> !ss[i].Removal?
  }

  lemma DeletesNothingConcat(x: seq<Stmt>, y: seq<Stmt>)
    requires DeletesNothing(x) && DeletesNothing(y)
    ensures DeletesNothing(x + y)
  {
  }

  lemma {:induction false} PushScriptDeletesNothing(id: Id, devices: seq<Id>, lines: seq<string>, push: Pusher)
    ensures DeletesNothing(PushScript(id, devices, lines, push))
    decreases |devices|
  {
    if devices != [] {
      PushScriptDeletesNothing(id, devices[1..], lines, push);
      var p := push(devices[0], lines);
      DeletesNothingConcat(
        [Provisioning(InsertResult(ResultRow(id, devices[0], p))), Log(AuditRow(id, devices[0], p))],
        PushScript(id, devices[1..], lines, push));
    }
  }

  lemma {:induction false} ScriptIsQuiet(id: Id, devices: seq<Id>, text: string, push: Pusher, t0: int, t1: int,
      kept: set<Id>)
    ensures var script := Script(id, devices, text, push, t0, t1);
            forall i :: 0 <= i < |script| ==> Quiet(script[i], id, kept)
  {
    hide ConfigLines, FinalStatus, PushScript;
    var lines := ConfigLines(text);
    var first := [Provisioning(SaveJob(id, StartSave(t0))), Provisioning(SaveJob(id, RenderSave(text)))];
    PushScriptDeletesNothing(id, devices, lines, push);
    DeletesNothingConcat(first, PushScript(id, devices, lines, push));
    DeletesNothingConcat(first + PushScript(id, devices, lines, push),
      [Provisioning(SaveJob(id, EndSave(FinalStatus(devices, lines, push), t1)))]);
  }

  lemma QuietSpares(ss: seq<Stmt>, id: Id, kept: set<Id>)
    requires forall i :: 0 <= i < |ss| ==> Quiet(ss[i], id, kept)
    ensures forall i :: 0 <= i < |ss| ==> Spares(ss[i], id)
  {
  }

  /** A run alone finishes exactly when the job's template is still there and renders; it then did what
      its statements do, and reports success + failed = total = the number of devices. Otherwise the job
      stays RUNNING: only its start was saved. */
  lemma RanJobFinishesExactly(db: Db, id: Id, render: Renderer, push: Pusher, t0: int, t1: int)
    requires id in db.provisioning.jobs && Reachable(db, id, db.provisioning.jobs[id].devices)
    ensures var job := db.provisioning.jobs[id];
            var ran := RanJob(db, id, render, push, t0, t1);
            var text := RenderedText(db, job, render);
            && (ran.end.Finished? <==> text.Some?)
            && (text.Some? ==>
                 && ran.db == Run(db, Script(id, job.devices, text.value, push, t0, t1))
                 && ran.end.success == |Succeeded(job.devices, ConfigLines(text.value), push, 0)|
                 && ran.end.success + ran.end.failed == ran.end.total == |job.devices|)
            && (text.None? ==>
                 && ran.end
                     == (if job.template.None? || job.template.value !in db.provisioning.templates then NoTemplate
                      else RenderFailed(render(db.provisioning.templates[job.template.value], job.variables).error))
                 && ran.db == db.(provisioning := db.provisioning.(jobs := db.provisioning.jobs[id :=
                   job.(status := Running, startedAt := Some(t0))])))
  {
    var job := db.provisioning.jobs[id];
    var text := RenderedText(db, job, render);
    if text.Some? {
      hide ConfigLines, PushScript, PushAll, Script, Saving, Aggregate, Run, Successes, ExpectedResults;
      var lines := ConfigLines(text.value);
      ScriptRuns(db, id, text.value, push, t0, t1, job.devices);
      PushAllIsRun(Saving(Saving(db, id, StartSave(t0)), id, RenderSave(text.value)), id, job.devices, lines, push);
      SuccessesIgnoreJob(0, id, job.devices, lines, push);
      SuccessesFrom(id, job.devices, lines, push, 0);
      assert job.devices[0..] == job.devices;
    }
  }

  /** Where a device has gone meanwhile: the devices before it are served and recorded, and the loop ends there. */
  lemma {:induction false} LostAtFirstMissing(db: Db, id: Id, devices: seq<Id>, lines: seq<string>, push: Pusher,
      k: nat)
    requires k < |devices| && devices[k] !in db.inventory.devices && Reachable(db, id, devices[..k])
    ensures PushAll(db, id, devices, lines, push)
         == Pushes(Run(db, PushScript(id, devices[..k], lines, push)), ExpectedResults(id, devices[..k], lines, push),
             true)
    decreases k
  {
    hide ResultRow, AuditRow;
    var p := push(devices[0], lines);
    if k == 0 {
      assert devices[..0] == [];
      MissingRaises(db, id, devices[0], p);
    } else {
      assert devices[..k][0] == devices[0] && devices[..k][1..] == devices[1..][..k - 1];
      StoresBoth(db, id, devices[0], p);
      hide Exec;
      var s, l := Provisioning(InsertResult(ResultRow(id, devices[0], p))), Log(AuditRow(id, devices[0], p));
      var mid := Exec(db, s).state;
      var next := Exec(mid, l).state;
      var between := devices[1..][..k - 1];
      assert forall i :: 0 <= i < |between| ==> between[i] == devices[..k][i + 1];
      LostAtFirstMissing(next, id, devices[1..], lines, push, k - 1);
      RunConcat(db, [s, l], PushScript(id, devices[1..][..k - 1], lines, push));
      assert [s, l] == [s] + [l];
      RunConcat(db, [s], [l]);
      OneStatement(db, s);
      OneStatement(mid, l);
    }
  }

  lemma MissingRaises(db: Db, id: Id, d: Id, p: Push)
    requires d !in db.inventory.devices
    ensures Exec(db, Provisioning(InsertResult(ResultRow(id, d, p)))) == Reply(db, Raised)
  {
  }
}
