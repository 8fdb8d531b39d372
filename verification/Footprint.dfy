/** Writers of one row that touch disjoint columns cannot disturb each other, whatever
    the interleaving and whatever the rest of the platform does meanwhile. */
module Footprint {
  import opened Wrappers
  import opened Database
  import opened Integrity
  import opened Sequences

  // ---------------------------------------------------------- interleavings

  /** `zs` is some interleaving of `xs` and `ys`, each kept in order. */
  ghost predicate Interleaved<T(!new)>(xs: seq<T>, ys: seq<T>, zs: seq<T>)
    decreases |zs|
  {
    if zs == [] then xs == [] && ys == []
    else
      || (xs != [] && xs[0] == zs[0] && Interleaved(xs[1..], ys, zs[1..]))
      || (ys != [] && ys[0] == zs[0] && Interleaved(xs, ys[1..], zs[1..]))
  }

  function Fold<S, W>(write: (S, W) -> S, s: S, ws: seq<W>): S
    decreases |ws|
  {
    if ws == [] then s else Fold(write, write(s, ws[0]), ws[1..])
  }

  /** What `f` extracts from each element, where it extracts something. */
  function Project<A, B>(f: A -> Option<B>, xs: seq<A>): seq<B>
    decreases |xs|
  {
    if xs == [] then []
    else (if f(xs[0]).Some? then [f(xs[0]).value] else []) + Project(f, xs[1..])
  }

  lemma {:induction false} ProjectConcat<A, B>(f: A -> Option<B>, x: seq<A>, y: seq<A>)
    ensures Project(f, x + y) == Project(f, x) + Project(f, y)
    decreases |x|
  {
    if x == [] {
      EmptyConcat(y);
      EmptyConcat(Project(f, y));
    } else {
      var head := if f(x[0]).Some? then [f(x[0]).value] else [];
      TailOfConcat(x, y);
      ProjectConcat(f, x[1..], y);
      ConcatAssociates(head, Project(f, x[1..]), Project(f, y));
    }
  }

  lemma ProjectOne<A, B>(f: A -> Option<B>, x: A)
    ensures Project(f, [x]) == if f(x).Some? then [f(x).value] else []
  {
    SingletonTail(x);
  }

  ghost predicate Commute<S(!new), W>(write: (S, W) -> S, x: W, y: W) {
    forall s :: write(write(s, x), y) == write(write(s, y), x)
  }

  ghost predicate AllCommute<S(!new), W>(write: (S, W) -> S, xs: seq<W>, ys: seq<W>) {
    forall i, j :: 0 <= i < |xs| && 0 <= j < |ys| ==> Commute(write, xs[i], ys[j])
  }

  lemma {:induction false} WriteMovesPast<S(!new), W>(write: (S, W) -> S, s: S, xs: seq<W>, y: W)
    requires forall i :: 0 <= i < |xs| ==> Commute(write, xs[i], y)
    ensures Fold(write, write(s, y), xs) == write(Fold(write, s, xs), y)
    decreases |xs|
  {
    if xs != [] {
      assert Commute(write, xs[0], y);
      assert forall i :: 0 <= i < |xs[1..]| ==> xs[1..][i] == xs[i + 1];
      WriteMovesPast(write, write(s, xs[0]), xs[1..], y);
    }
  }

  /** Commuting writers: every interleaving ends where one writer after the other ends. */
  lemma {:induction false} InterleavingsAgree<S(!new), W(!new)>(
      write: (S, W) -> S, s: S, xs: seq<W>, ys: seq<W>, zs: seq<W>)
    requires Interleaved(xs, ys, zs) && AllCommute(write, xs, ys)
    ensures Fold(write, s, zs) == Fold(write, Fold(write, s, xs), ys)
    decreases |zs|
  {
    if zs != [] {
      if xs != [] && xs[0] == zs[0] && Interleaved(xs[1..], ys, zs[1..]) {
        assert forall i :: 0 <= i < |xs[1..]| ==> xs[1..][i] == xs[i + 1];
        InterleavingsAgree(write, write(s, zs[0]), xs[1..], ys, zs[1..]);
      } else {
        assert forall j :: 0 <= j < |ys[1..]| ==> ys[1..][j] == ys[j + 1];
        InterleavingsAgree(write, write(s, zs[0]), xs, ys[1..], zs[1..]);
        WriteMovesPast(write, s, xs, ys[0]);
      }
    }
  }

  /** What two interleaved programs do to one row is an interleaving of what each does to it. */
  lemma {:induction false} ProjectInterleaves<A(!new), B(!new)>(f: A -> Option<B>, xs: seq<A>, ys: seq<A>, zs: seq<A>)
    requires Interleaved(xs, ys, zs)
    ensures Interleaved(Project(f, xs), Project(f, ys), Project(f, zs))
    decreases |zs|
  {
    if zs != [] {
      var z := f(zs[0]);
      EmptyConcat(Project(f, zs[1..]));
      if xs != [] && xs[0] == zs[0] && Interleaved(xs[1..], ys, zs[1..]) {
        ProjectInterleaves(f, xs[1..], ys, zs[1..]);
        EmptyConcat(Project(f, xs[1..]));
        if z.Some? { Prepend(z.value, Project(f, xs[1..]), Project(f, ys), Project(f, zs[1..])); }
      } else {
        ProjectInterleaves(f, xs, ys[1..], zs[1..]);
        EmptyConcat(Project(f, ys[1..]));
        if z.Some? { PrependRight(z.value, Project(f, xs), Project(f, ys[1..]), Project(f, zs[1..])); }
      }
    }
  }

  lemma Prepend<T(!new)>(z: T, xs: seq<T>, ys: seq<T>, zs: seq<T>)
    requires Interleaved(xs, ys, zs)
    ensures Interleaved([z] + xs, ys, [z] + zs)
  {
    assert ([z] + xs)[1..] == xs && ([z] + zs)[1..] == zs;
  }

  lemma PrependRight<T(!new)>(z: T, xs: seq<T>, ys: seq<T>, zs: seq<T>)
    requires Interleaved(xs, ys, zs)
    ensures Interleaved(xs, [z] + ys, [z] + zs)
  {
    assert ([z] + ys)[1..] == ys && ([z] + zs)[1..] == zs;
  }

  lemma {:induction false} NothingInterleaved<T(!new)>(xs: seq<T>, zs: seq<T>)
    requires Interleaved(xs, [], zs)
    ensures zs == xs
    decreases |zs|
  {
    if zs != [] {
      NothingInterleaved(xs[1..], zs[1..]);
      assert xs == [xs[0]] + xs[1..] && zs == [zs[0]] + zs[1..];
    }
  }

  // -------------------------------------------------------------- footprints

  /** Two writes of one column can be swapped: one of them leaves it alone, or both agree. */
  predicate Compatible<T(==)>(x: Option<T>, y: Option<T>) {
    x.None? || y.None? || x == y
  }

  predicate JobCompatible(x: JobWrite, y: JobWrite) {
    && Compatible(x.status, y.status) && Compatible(x.startedAt, y.startedAt)
    && Compatible(x.completedAt, y.completedAt) && Compatible(x.rendered, y.rendered) && Compatible(x.taskId, y.taskId)
  }

  predicate DiscoveryCompatible(x: DiscoveryWrite, y: DiscoveryWrite) {
    && Compatible(x.status, y.status) && Compatible(x.startedAt, y.startedAt)
    && Compatible(x.completedAt, y.completedAt) && Compatible(x.found, y.found) && Compatible(x.added, y.added)
    && Compatible(x.log, y.log) && Compatible(x.taskId, y.taskId)
  }

  /** Two saves of a provisioning job commute exactly when they disagree on no column. */
  lemma JobWritesCommute(x: JobWrite, y: JobWrite)
    ensures Commute(WriteJob, x, y) <==> JobCompatible(x, y)
  {
    if Commute(WriteJob, x, y) {
      var row := ProvisioningJob(None, [], "", Pending, None, None, "", "");
      assert WriteJob(WriteJob(row, x), y) == WriteJob(WriteJob(row, y), x);
    }
  }

  lemma DiscoveryWritesCommute(x: DiscoveryWrite, y: DiscoveryWrite)
    ensures Commute(WriteDiscovery, x, y) <==> DiscoveryCompatible(x, y)
  {
    if Commute(WriteDiscovery, x, y) {
      var row := DiscoveryJob("", Pending, None, None, 0, 0, [], "");
      assert WriteDiscovery(WriteDiscovery(row, x), y) == WriteDiscovery(WriteDiscovery(row, y), x);
    }
  }

  // -------------------------------------------- one row, in any run at all

  /** The save of provisioning job `id` that a statement makes, if it makes one. */
  function ToJob(id: Id): Stmt -> Option<JobWrite> {
    (s: Stmt) => if s.Provisioning? && s.provisioning.SaveJob? && s.provisioning.id == id
        then Some(s.provisioning.write) else None
  }

  function ToDiscovery(id: Id): Stmt -> Option<DiscoveryWrite> {
    (s: Stmt) =>
        if s.Inventory? && s.inventory.SaveDiscovery? && s.inventory.id == id then Some(s.inventory.write) else None
  }

  /** The columns of a job row that saves write. */
  function Saved(row: ProvisioningJob): ProvisioningJob {
    row.(template := None, devices := [])
  }

  predicate Spares(s: Stmt, job: Id) {
    !(s.Removal? && s.removal.DeleteJob? && s.removal.id == job)
  }

  lemma ExecOnJob(db: Db, s: Stmt, id: Id)
    requires id in db.provisioning.jobs && Below(db.provisioning.jobs, db.provisioning.next) && Spares(s, id)
    ensures var after := Exec(db, s).state.provisioning;
            && id in after.jobs && Below(after.jobs, after.next)
            && Saved(after.jobs[id]) == match ToJob(id)(s)
               case Some(w) => WriteJob(Saved(db.provisioning.jobs[id]), w)
               case None => Saved(db.provisioning.jobs[id])
  {
    match s {
      case Inventory(_) =>
      case Security(_) =>
      case Provisioning(t) =>
      case Monitoring(_) =>
      case Log(_) =>
      case Removal(t) =>
    }
  }

  /** Whatever runs, a job's columns are the saves made to it, in order. */
  lemma {:induction false} JobRowIsItsSaves(db: Db, ss: seq<Stmt>, id: Id)
    requires id in db.provisioning.jobs && Below(db.provisioning.jobs, db.provisioning.next)
    requires forall i :: 0 <= i < |ss| ==> Spares(ss[i], id)
    ensures id in Run(db, ss).provisioning.jobs
    ensures Saved(Run(db, ss).provisioning.jobs[id])
         == Fold(WriteJob, Saved(db.provisioning.jobs[id]), Project(ToJob(id), ss))
    decreases |ss|
  {
    hide Exec, Spares, Saved;
    if ss != [] {
      ExecOnJob(db, ss[0], id);
      assert forall i :: 0 <= i < |ss[1..]| ==> ss[1..][i] == ss[i + 1];
      JobRowIsItsSaves(Exec(db, ss[0]).state, ss[1..], id);
      FoldStep(WriteJob, Saved(db.provisioning.jobs[id]), ToJob(id), ss);
    }
  }

  lemma FoldStep<A, S, W>(write: (S, W) -> S, s: S, f: A -> Option<W>, xs: seq<A>)
    requires xs != []
    ensures Fold(write, s, Project(f, xs))
         == Fold(write, if f(xs[0]).Some? then write(s, f(xs[0]).value) else s, Project(f, xs[1..]))
  {
    if f(xs[0]).Some? {
      assert Project(f, xs)[1..] == Project(f, xs[1..]);
    } else {
      assert Project(f, xs) == Project(f, xs[1..]);
    }
  }

  lemma ExecOnDiscovery(db: Db, s: Stmt, id: Id)
    requires id in db.inventory.discoveries && Below(db.inventory.discoveries, db.inventory.next)
    ensures var after := Exec(db, s).state.inventory;
            && id in after.discoveries && Below(after.discoveries, after.next)
            && after.discoveries[id] == match ToDiscovery(id)(s)
               case Some(w) => WriteDiscovery(db.inventory.discoveries[id], w)
               case None => db.inventory.discoveries[id]
  {
    match s {
      case Inventory(t) =>
      case Security(_) =>
      case Provisioning(_) =>
      case Monitoring(_) =>
      case Log(_) =>
      case Removal(t) =>
    }
  }

  /** Whatever runs, a discovery job's columns are the saves made to it, in order. */
  lemma {:induction false} DiscoveryRowIsItsSaves(db: Db, ss: seq<Stmt>, id: Id)
    requires id in db.inventory.discoveries && Below(db.inventory.discoveries, db.inventory.next)
    ensures id in Run(db, ss).inventory.discoveries
    ensures Run(db, ss).inventory.discoveries[id]
         == Fold(WriteDiscovery, db.inventory.discoveries[id], Project(ToDiscovery(id), ss))
    decreases |ss|
  {
    hide Exec, WriteDiscovery;
    if ss != [] {
      ExecOnDiscovery(db, ss[0], id);
      DiscoveryRowIsItsSaves(Exec(db, ss[0]).state, ss[1..], id);
      FoldStep(WriteDiscovery, db.inventory.discoveries[id], ToDiscovery(id), ss);
    }
  }

  // --------------------------------------------------- worker against request

  /** A worker's save: the task id is not among its columns. */
  predicate ByWorker(w: JobWrite) {
    w.taskId.None?
  }

  predicate ByDiscoveryWorker(w: DiscoveryWrite) {
    w.taskId.None?
  }

  lemma {:induction false} WorkerKeepsTaskId(row: ProvisioningJob, ws: seq<JobWrite>, id: string)
    requires forall i :: 0 <= i < |ws| ==> ByWorker(ws[i])
    ensures WriteJob(Fold(WriteJob, row, ws), NO_SAVE.(taskId := Some(id))) == Fold(WriteJob, row, ws).(taskId := id)
    ensures Fold(WriteJob, row, ws).taskId == row.taskId
    decreases |ws|
  {
    if ws != [] {
      assert forall i :: 0 <= i < |ws[1..]| ==> ws[1..][i] == ws[i + 1];
      WorkerKeepsTaskId(WriteJob(row, ws[0]), ws[1..], id);
    }
  }

  /** The request's task-id save and a provisioning worker's saves cannot undo each other: in any
      interleaving, with any other statements around them, the row ends with everything the worker
      wrote and the task id. */
  lemma RequestAndWorkerCommute(db: Db, worker: seq<Stmt>, others: seq<Stmt>, ss: seq<Stmt>, id: Id, task: string)
    requires id in db.provisioning.jobs && Below(db.provisioning.jobs, db.provisioning.next)
    requires Interleaved(worker, others, ss) && forall i :: 0 <= i < |ss| ==> Spares(ss[i], id)
    requires forall i :: 0 <= i < |Project(ToJob(id), worker)| ==> ByWorker(Project(ToJob(id), worker)[i])
    requires Project(ToJob(id), others) == [NO_SAVE.(taskId := Some(task))]
    ensures id in Run(db, ss).provisioning.jobs
    ensures Saved(Run(db, ss).provisioning.jobs[id])
         == Fold(WriteJob, Saved(db.provisioning.jobs[id]), Project(ToJob(id), worker)).(taskId := task)
  {
    hide Run, Saved, Spares, Project;
    var row := Saved(db.provisioning.jobs[id]);
    var xs, ys, zs := Project(ToJob(id), worker), Project(ToJob(id), others), Project(ToJob(id), ss);
    JobRowIsItsSaves(db, ss, id);
    ProjectInterleaves(ToJob(id), worker, others, ss);
    forall i, j | 0 <= i < |xs| && 0 <= j < |ys|
      ensures Commute(WriteJob, xs[i], ys[j])
    {
      assert ByWorker(xs[i]);
      JobWritesCommute(xs[i], ys[j]);
    }
    InterleavingsAgree(WriteJob, row, xs, ys, zs);
    WorkerKeepsTaskId(row, xs, task);
    assert Fold(WriteJob, Fold(WriteJob, row, xs), ys) == WriteJob(Fold(WriteJob, row, xs), ys[0]) by {
      assert ys[1..] == [];
    }
  }

  lemma {:induction false} DiscoveryWorkerKeepsTaskId(row: DiscoveryJob, ws: seq<DiscoveryWrite>, id: string)
    requires forall i :: 0 <= i < |ws| ==> ByDiscoveryWorker(ws[i])
    ensures WriteDiscovery(Fold(WriteDiscovery, row, ws), NO_DISCOVERY_SAVE.(taskId := Some(id)))
         == Fold(WriteDiscovery, row, ws).(taskId := id)
    ensures Fold(WriteDiscovery, row, ws).taskId == row.taskId
    decreases |ws|
  {
    if ws != [] {
      assert forall i :: 0 <= i < |ws[1..]| ==> ws[1..][i] == ws[i + 1];
      DiscoveryWorkerKeepsTaskId(WriteDiscovery(row, ws[0]), ws[1..], id);
    }
  }

  /** The same for a discovery job; no task or request deletes those rows. */
  lemma DiscoveryRequestAndWorkerCommute(db: Db, worker: seq<Stmt>, others: seq<Stmt>, ss: seq<Stmt>, id: Id,
      task: string)
    requires id in db.inventory.discoveries && Below(db.inventory.discoveries, db.inventory.next)
    requires Interleaved(worker, others, ss)
    requires forall i :: 0 <= i < |Project(ToDiscovery(id), worker)| ==>
        ByDiscoveryWorker(Project(ToDiscovery(id), worker)[i])
    requires Project(ToDiscovery(id), others) == [NO_DISCOVERY_SAVE.(taskId := Some(task))]
    ensures id in Run(db, ss).inventory.discoveries
    ensures Run(db, ss).inventory.discoveries[id]
         == Fold(WriteDiscovery, db.inventory.discoveries[id], Project(ToDiscovery(id), worker)).(taskId := task)
  {
    hide Run, Project;
    var row := db.inventory.discoveries[id];
    var xs, ys, zs := Project(ToDiscovery(id), worker), Project(ToDiscovery(id), others), Project(ToDiscovery(id), ss);
    DiscoveryRowIsItsSaves(db, ss, id);
    ProjectInterleaves(ToDiscovery(id), worker, others, ss);
    forall i, j | 0 <= i < |xs| && 0 <= j < |ys|
      ensures Commute(WriteDiscovery, xs[i], ys[j])
    {
      assert ByDiscoveryWorker(xs[i]);
      DiscoveryWritesCommute(xs[i], ys[j]);
    }
    InterleavingsAgree(WriteDiscovery, row, xs, ys, zs);
    DiscoveryWorkerKeepsTaskId(row, xs, task);
    assert Fold(WriteDiscovery, Fold(WriteDiscovery, row, xs), ys)
        == WriteDiscovery(Fold(WriteDiscovery, row, xs), ys[0]) by {
      assert ys[1..] == [];
    }
  }
}
