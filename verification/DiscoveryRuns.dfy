/** Any number of discovery jobs on overlapping subnets, interleaved one database step at a time. */
module DiscoveryRuns {
  import opened Wrappers
  import opened Database
  import opened Integrity
  import opened DiscoveryTasks
  import opened DiscoveryProofs

  /** Where a job stands. `Looking` is about to query the inventory for the first of the remaining hosts,
      `Storing` to create its device, `Counting` has created it and not yet counted it. */
  datatype Proc =
    | Starting(job: Id, plan: Plan)
    | Looking(job: Id, plan: Plan, rest: seq<Probe>, tally: Tally)
    | Storing(job: Id, plan: Plan, rest: seq<Probe>, tally: Tally)
    | Counting(job: Id, plan: Plan, rest: seq<Probe>, tally: Tally)
    | Ending(job: Id, plan: Plan, status: JobStatus, tally: Tally)
    | Done(end: RunEnd)

  datatype Step = Step(tables: InventoryTables, proc: Proc)

  function Failing(job: Id, plan: Plan, tally: Tally, message: string): Proc {
    Ending(job, plan, Failed, Note(tally, ErrorLine(message)))
  }

  /** The loop at its head: dead hosts are passed over without touching the database. */
  function AtHost(job: Id, plan: Plan, rest: seq<Probe>, tally: Tally): Proc
    decreases |rest|
  {
    if rest == [] then Ending(job, plan, Completed, tally)
    else match rest[0].ping
      case PingRaised(m) => Failing(job, plan, tally, m)
      case Dead => AtHost(job, plan, rest[1..], tally)
      case Alive => Looking(job, plan, rest, Found(tally, rest[0].ip))
  }

  /** One step of one job. */
  function Advance(t: InventoryTables, p: Proc): Step {
    match p
    case Starting(job, plan) =>
      if job !in t.discoveries then Step(t, Done(Missing))
      else
        var tally := Tally(0, 0, [HeaderLine(plan.stamp, t.discoveries[job].subnet)]);
        Step(Saving(t, job, StartSave(plan.t0)),
          if plan.probes.Err? then Failing(job, plan, tally, plan.probes.error)
          else AtHost(job, plan, plan.probes.value, tally))
    case Looking(job, plan, rest, tally) =>
      if rest == [] then Step(t, p)
      else if HasIp(t.devices, rest[0].ip) then Step(t, AtHost(job, plan, rest[1..], Note(tally, SKIP_LINE)))
      else if rest[0].dns.DnsRaised? then Step(t, Failing(job, plan, tally, rest[0].dns.message))
      else Step(t, Storing(job, plan, rest, tally))
    case Storing(job, plan, rest, tally) =>
      if rest == [] then Step(t, p)
      else
        var stored := ExecInventory(t, InsertDevice(NewDevice(rest[0])));
        Step(stored.state,
          if stored.outcome.Raised? then Failing(job, plan, tally, plan.clash) else Counting(job, plan, rest, tally))
    case Counting(job, plan, rest, tally) =>
      if rest == [] then Step(t, p)
      else Step(t, AtHost(job, plan, rest[1..], Added(tally, HostnameOf(rest[0]))))
    case Ending(job, plan, status, tally) =>
      Step(Saving(t, job, EndSave(status, plan.t1, tally)), Done(Ended(status, tally)))
    case Done(_) => Step(t, p)
  }

  // ------------------------------------------------------------------- runs

  datatype World = World(db: Db, procs: seq<Proc>)

  /** A job is dispatched, a job takes a step, or any other part of the platform sends a statement. */
  datatype Event = Dispatch(job: Id, plan: Plan) | Tick(who: nat) | Elsewhere(stmt: Stmt)

  /** Statements that neither create nor delete a device. */
  predicate NoDevice(s: Stmt) {
    !(s.Inventory? && s.inventory.InsertDevice?) && !(s.Removal? && s.removal.DeleteDevice?)
  }

  function Next(w: World, e: Event): World {
    match e
    case Dispatch(job, plan) => w.(procs := w.procs + [Starting(job, plan)])
    case Tick(i) =>
      if i < |w.procs| then
        var r := Advance(w.db.inventory, w.procs[i]);
        World(w.db.(inventory := r.tables), w.procs[i := r.proc])
      else w
    case Elsewhere(s) => if NoDevice(s) then w.(db := Exec(w.db, s).state) else w
  }

  function Play(w: World, es: seq<Event>): World
    decreases |es|
  {
    if es == [] then w else Play(Next(w, es[0]), es[1..])
  }

  // ----------------------------------------------------------- conservation

  /** What a job's own counter says. */
  function AddedBy(p: Proc): nat {
    match p
    case Starting(_, _) => 0
    case Looking(_, _, _, tally) => tally.added
    case Storing(_, _, _, tally) => tally.added
    case Counting(_, _, _, tally) => tally.added
    case Ending(_, _, _, tally) => tally.added
    case Done(end) => if end.Ended? then end.tally.added else 0
  }

  function SumAdded(procs: seq<Proc>): nat {
    if procs == [] then 0 else SumAdded(procs[..|procs| - 1]) + AddedBy(procs[|procs| - 1])
  }

  /** Jobs between creating a device and counting it. */
  function Uncounted(procs: seq<Proc>): nat {
    if procs == [] then 0 else Uncounted(procs[..|procs| - 1]) + if procs[|procs| - 1].Counting? then 1 else 0
  }

  ghost predicate Sound(t: InventoryTables) {
    Below(t.devices, t.next) && UniqueDevices(t.devices)
  }

  function Owed(p: Proc): nat {
    AddedBy(p) + if p.Counting? then 1 else 0
  }

  lemma {:induction false} AtHostKeepsAdded(job: Id, plan: Plan, rest: seq<Probe>, tally: Tally)
    ensures var p := AtHost(job, plan, rest, tally);
            AddedBy(p) == tally.added && !p.Counting?
    decreases |rest|
  {
    if rest != [] && rest[0].ping.Dead? { AtHostKeepsAdded(job, plan, rest[1..], tally); }
  }

  lemma InventoryConserves(t: InventoryTables, s: InventoryStmt)
    requires Sound(t) && !s.InsertDevice?
    ensures Sound(ExecInventory(t, s).state) && |ExecInventory(t, s).state.devices| == |t.devices|
  {
    var t' := ExecInventory(t, s).state;
    assert t'.devices.Keys == t.devices.Keys;
    assert |t'.devices| == |t'.devices.Keys| && |t.devices| == |t.devices.Keys|;
  }

  lemma NoteKeepsAdded(tally: Tally, line: string)
    ensures Note(tally, line).added == tally.added
  {
  }

  lemma CountingKeepsAdded(job: Id, plan: Plan, rest: seq<Probe>, tally: Tally)
    requires rest != []
    ensures var p := AtHost(job, plan, rest[1..], Added(tally, HostnameOf(rest[0])));
            AddedBy(p) == tally.added + 1 && !p.Counting?
  {
    AtHostKeepsAdded(job, plan, rest[1..], Added(tally, HostnameOf(rest[0])));
  }

  lemma InsertConserves(t: InventoryTables, x: Device)
    requires Sound(t)
    ensures var r := ExecInventory(t, InsertDevice(x));
            Sound(r.state) && |r.state.devices| == |t.devices| + if r.outcome.Raised? then 0 else 1
  {
  }

  /** One step creates as many devices as the job will own up to. */
  lemma AdvanceConserves(t: InventoryTables, p: Proc)
    requires Sound(t)
    ensures var r := Advance(t, p);
            Sound(r.tables) && |r.tables.devices| + Owed(p) == |t.devices| + Owed(r.proc)
  {
    hide HostnameOf, HasIp, AtHost, HeaderLine, ExecInventory, Sound, NewDevice, Note;
    match p {
      case Starting(job, plan) =>
        InventoryConserves(t, SaveDiscovery(job, StartSave(plan.t0)));
        if job in t.discoveries {
          var tally := Tally(0, 0, [HeaderLine(plan.stamp, t.discoveries[job].subnet)]);
          if plan.probes.Ok? { AtHostKeepsAdded(job, plan, plan.probes.value, tally); }
          else { NoteKeepsAdded(tally, ErrorLine(plan.probes.error)); }
        }
      case Looking(job, plan, rest, tally) =>
        NoteKeepsAdded(tally, SKIP_LINE);
        if rest != [] {
          AtHostKeepsAdded(job, plan, rest[1..], Note(tally, SKIP_LINE));
          if rest[0].dns.DnsRaised? { NoteKeepsAdded(tally, ErrorLine(rest[0].dns.message)); }
        }
      case Storing(_, plan, rest, tally) =>
        NoteKeepsAdded(tally, ErrorLine(plan.clash));
        if rest != [] { InsertConserves(t, NewDevice(rest[0])); }
      case Counting(job, plan, rest, tally) =>
        if rest != [] { CountingKeepsAdded(job, plan, rest, tally); }
      case Ending(job, plan, status, tally) =>
          InventoryConserves(t, SaveDiscovery(job, EndSave(status, plan.t1, tally)));
      case Done(_) =>
    }
  }

  lemma {:induction false} SumsUpdate(procs: seq<Proc>, i: nat, p: Proc)
    requires i < |procs|
    ensures SumAdded(procs[i := p]) + AddedBy(procs[i]) == SumAdded(procs) + AddedBy(p)
    ensures Uncounted(procs[i := p]) + (if procs[i].Counting? then 1 else 0)
        == Uncounted(procs) + (if p.Counting? then 1 else 0)
    decreases |procs|
  {
    var n := |procs| - 1;
    if i < n {
      SumsUpdate(procs[..n], i, p);
      assert procs[i := p][..n] == procs[..n][i := p];
    } else {
      assert procs[i := p][..n] == procs[..n];
    }
  }

  lemma SumsAppend(procs: seq<Proc>, p: Proc)
    ensures SumAdded(procs + [p]) == SumAdded(procs) + AddedBy(p)
    ensures Uncounted(procs + [p]) == Uncounted(procs) + if p.Counting? then 1 else 0
  {
    assert (procs + [p])[..|procs|] == procs;
  }

  lemma ElsewhereConserves(db: Db, s: Stmt)
    requires Sound(db.inventory) && NoDevice(s)
    ensures Sound(Exec(db, s).state.inventory) && |Exec(db, s).state.inventory.devices| == |db.inventory.devices|
  {
    match s {
      case Inventory(t) => InventoryConserves(db.inventory, t);
      case Security(_) =>
      case Provisioning(_) =>
      case Monitoring(_) =>
      case Log(_) =>
      case Removal(_) =>
    }
  }

  lemma NextConserves(w: World, e: Event)
    requires Sound(w.db.inventory)
    ensures var w' := Next(w, e);
            && Sound(w'.db.inventory)
            && |w'.db.inventory.devices| + SumAdded(w.procs) + Uncounted(w.procs)
               == |w.db.inventory.devices| + SumAdded(w'.procs) + Uncounted(w'.procs)
  {
    hide Sound, Advance, Exec;
    match e {
      case Dispatch(job, plan) => SumsAppend(w.procs, Starting(job, plan));
      case Tick(i) =>
        if i < |w.procs| {
          AdvanceConserves(w.db.inventory, w.procs[i]);
          SumsUpdate(w.procs, i, Advance(w.db.inventory, w.procs[i]).proc);
        }
      case Elsewhere(s) => if NoDevice(s) { ElsewhereConserves(w.db, s); }
    }
  }

  /** Conservation: however discovery jobs interleave, with each other and with anything that neither
      creates nor deletes devices, the inventory holds its initial devices plus all `added` counters plus
      the devices created and not yet counted; hostnames and addresses stay unique. */
  lemma {:induction false} DevicesAreConserved(w: World, es: seq<Event>)
    requires Sound(w.db.inventory)
    ensures var w' := Play(w, es);
            && Sound(w'.db.inventory)
            && |w'.db.inventory.devices| + SumAdded(w.procs) + Uncounted(w.procs)
               == |w.db.inventory.devices| + SumAdded(w'.procs) + Uncounted(w'.procs)
    decreases |es|
  {
    hide Sound, Next;
    if es != [] {
      NextConserves(w, es[0]);
      DevicesAreConserved(Next(w, es[0]), es[1..]);
    }
  }

  /** From the empty platform, every device is one that some job counts or is about to count. */
  lemma DevicesFromEmpty(es: seq<Event>)
    ensures var w := Play(World(EMPTY, []), es);
            |w.db.inventory.devices| == SumAdded(w.procs) + Uncounted(w.procs)
  {
    hide Play;
    DevicesAreConserved(World(EMPTY, []), es);
  }

  /** The check and the create are two statements: a create succeeds exactly when the name fits and neither
      the name nor the address was taken meanwhile; a job that lost the race changes nothing and fails. */
  lemma CreateSucceedsExactly(t: InventoryTables, p: Proc)
    requires p.Storing? && p.rest != []
    ensures var x, r := p.rest[0], Advance(t, p);
            && (r.proc.Counting? <==>
                 |HostnameOf(x)| <= HOSTNAME_LIMIT && !HasIp(t.devices, x.ip) && NameFree(t.devices, HostnameOf(x)))
            && (!r.proc.Counting? ==> r.tables == t && r.proc.Ending? && r.proc.status == Failed)
  {
    hide HostnameOf;
    var x := NewDevice(p.rest[0]);
    assert Unique(t.devices, x) <==> !HasIp(t.devices, x.ip) && NameFree(t.devices, x.hostname);
  }

  // ------------------------------------------------ every job's own account

  /** A job's counters and log agree at every point, whatever the other jobs do. */
  ghost predicate Accounted(p: Proc) {
    match p
    case Starting(_, _) => true
    case Looking(_, _, rest, tally) => rest != [] && Short(tally)
    case Storing(_, _, rest, tally) => rest != [] && Short(tally)
    case Counting(_, _, rest, tally) => rest != [] && Short(tally)
    case Ending(_, _, status, tally) => Settled(status, tally)
    case Done(end) => end.Ended? ==> Settled(end.status, end.tally)
  }

  ghost predicate Settled(status: JobStatus, tally: Tally) {
    if status == Completed then Exact(tally)
    else
      && status == Failed && tally.log != []
      && var body := tally.(log := tally.log[..|tally.log| - 1]); Exact(body) || Short(body)
  }

  lemma FailingSettles(job: Id, plan: Plan, tally: Tally, message: string)
    requires Exact(tally) || Short(tally)
    ensures Accounted(Failing(job, plan, tally, message))
  {
    hide Exact, Short;
    var noted := Note(tally, ErrorLine(message));
    assert noted.log[..|noted.log| - 1] == tally.log;
    assert noted.(log := tally.log) == tally;
  }

  lemma FoundIsShort(tally: Tally, ip: string)
    requires Exact(tally)
    ensures Short(Found(tally, ip))
  {
    OtherLines(ip, "", "", "", "");
    NoteSkips(tally, AliveLine(ip));
  }

  lemma FollowUpIsExact(tally: Tally, hostname: string)
    requires Short(tally)
    ensures Exact(Note(tally, SKIP_LINE)) && Exact(Added(tally, hostname))
  {
    OtherLines("", hostname, "", "", "");
    NoteSkips(tally, SKIP_LINE);
    NoteSkips(tally, AddedLine(hostname));
  }

  lemma {:induction false} AtHostAccounts(job: Id, plan: Plan, rest: seq<Probe>, tally: Tally)
    requires Exact(tally)
    ensures Accounted(AtHost(job, plan, rest, tally))
    decreases |rest|
  {
    hide Exact, Short, Found, Failing;
    if rest != [] {
      match rest[0].ping {
        case PingRaised(m) => FailingSettles(job, plan, tally, m);
        case Dead => AtHostAccounts(job, plan, rest[1..], tally);
        case Alive => FoundIsShort(tally, rest[0].ip);
      }
    }
  }

  lemma AdvanceAccounts(t: InventoryTables, p: Proc)
    requires Accounted(p)
    ensures Accounted(Advance(t, p).proc)
  {
    hide Exact, Short, AtHost, Failing, ExecInventory, HasIp, HostnameOf, Note, Added, HeaderLine;
    match p {
      case Starting(job, plan) =>
        if job in t.discoveries {
          var subnet := t.discoveries[job].subnet;
          FirstTally(plan.stamp, subnet);
          var tally := Tally(0, 0, [HeaderLine(plan.stamp, subnet)]);
          if plan.probes.Ok? { AtHostAccounts(job, plan, plan.probes.value, tally); }
          else { FailingSettles(job, plan, tally, plan.probes.error); }
        }
      case Looking(job, plan, rest, tally) =>
        FollowUpIsExact(tally, "");
        AtHostAccounts(job, plan, rest[1..], Note(tally, SKIP_LINE));
        if rest[0].dns.DnsRaised? { FailingSettles(job, plan, tally, rest[0].dns.message); }
      case Storing(job, plan, rest, tally) => FailingSettles(job, plan, tally, plan.clash);
      case Counting(job, plan, rest, tally) =>
        FollowUpIsExact(tally, HostnameOf(rest[0]));
        AtHostAccounts(job, plan, rest[1..], Added(tally, HostnameOf(rest[0])));
      case Ending(_, _, _, _) =>
      case Done(_) =>
    }
  }

  ghost predicate AllAccounted(procs: seq<Proc>) {
    forall i :: 0 <= i < |procs| ==> Accounted(procs[i])
  }

  /** Interference never spoils a job's own account: found = added + skipped, two log lines per host. */
  lemma {:induction false} PlayAccounts(w: World, es: seq<Event>)
    requires AllAccounted(w.procs)
    ensures AllAccounted(Play(w, es).procs)
    decreases |es|
  {
    hide Advance, Exec;
    if es != [] {
      var e := es[0];
      if e.Tick? && e.who < |w.procs| { AdvanceAccounts(w.db.inventory, w.procs[e.who]); }
      PlayAccounts(Next(w, e), es[1..]);
    }
  }

  // ----------------------------------------------- the two granularities agree

  function Solo(t: InventoryTables, p: Proc, k: nat): Step
    decreases k
  {
    if k == 0 then Step(t, p)
    else
      var r := Advance(t, p);
      Solo(r.tables, r.proc, k - 1)
  }

  lemma {:induction false} SoloConcat(t: InventoryTables, p: Proc, j: nat, k: nat)
    ensures var mid := Solo(t, p, j); Solo(t, p, j + k) == Solo(mid.tables, mid.proc, k)
    decreases j
  {
    hide Advance;
    if j > 0 {
      var r := Advance(t, p);
      SoloConcat(r.tables, r.proc, j - 1, k);
    }
  }

  /** How a job that swept to `s` ends. */
  function EndOf(job: Id, plan: Plan, s: Swept): Proc {
    if s.error.Some? then Failing(job, plan, s.tally, s.error.value) else Ending(job, plan, Completed, s.tally)
  }

  lemma OneStep(t: InventoryTables, p: Proc)
    ensures Solo(t, p, 1) == Advance(t, p)
  {
    hide Advance;
    var r := Advance(t, p);
    assert Solo(r.tables, r.proc, 0) == r;
  }

  /** The three steps of a live host, run together, are one turn of the loop. */
  lemma {:induction false} LiveHostAlone(t: InventoryTables, job: Id, plan: Plan, rest: seq<Probe>, tally: Tally)
    returns (k: nat)
    requires rest != [] && rest[0].ping.Alive?
    ensures var v := Visit(t, tally, rest[0], plan.clash);
            Solo(t, Looking(job, plan, rest, Found(tally, rest[0].ip)), k)
            == Step(v.tables, if v.error.Some? then Failing(job, plan, v.tally, v.error.value)
                              else AtHost(job, plan, rest[1..], v.tally))
  {
    hide AtHost, ExecInventory, HasIp, HostnameOf, Failing;
    var seen := Found(tally, rest[0].ip);
    var p := Looking(job, plan, rest, seen);
    OneStep(t, p);
    if HasIp(t.devices, rest[0].ip) || rest[0].dns.DnsRaised? {
      k := 1;
    } else {
      var q := Storing(job, plan, rest, seen);
      SoloConcat(t, p, 1, 1);
      OneStep(t, q);
      if ExecInventory(t, InsertDevice(NewDevice(rest[0]))).outcome.Raised? {
        k := 2;
      } else {
        k := 3;
        var r := Advance(t, q);
        SoloConcat(t, p, 2, 1);
        OneStep(r.tables, r.proc);
      }
    }
  }

  lemma {:induction false} HostsAlone(t: InventoryTables, job: Id, plan: Plan, rest: seq<Probe>, tally: Tally)
    returns (k: nat)
    ensures var s := Sweep(t, tally, rest, plan.clash);
            Solo(t, AtHost(job, plan, rest, tally), k) == Step(s.tables, EndOf(job, plan, s))
    decreases |rest|
  {
    hide Advance, Found, Failing, ExecInventory, HasIp, HostnameOf;
    k := 0;
    if rest != [] {
      match rest[0].ping {
        case PingRaised(_) =>
        case Dead => k := HostsAlone(t, job, plan, rest[1..], tally);
        case Alive =>
          k := LiveHostAlone(t, job, plan, rest, tally);
          hide Visit;
          var v := Visit(t, tally, rest[0], plan.clash);
          if v.error.None? {
            var more := HostsAlone(v.tables, job, plan, rest[1..], v.tally);
            SoloConcat(t, AtHost(job, plan, rest, tally), k, more);
            k := k + more;
          }
      }
    }
  }

  /** Run alone to its end, a job's steps do exactly what the whole task does. */
  lemma WholeIsSolo(t: InventoryTables, job: Id, plan: Plan) returns (k: nat)
    ensures Solo(t, Starting(job, plan), k)
         == Step(RanDiscovery(t, job, plan).tables, Done(RanDiscovery(t, job, plan).end))
  {
    hide AtHost, Sweep, ExecInventory, HeaderLine;
    var p := Starting(job, plan);
    OneStep(t, p);
    k := 1;
    if job in t.discoveries {
      var started := Saving(t, job, StartSave(plan.t0));
      var tally := Tally(0, 0, [HeaderLine(plan.stamp, t.discoveries[job].subnet)]);
      var s := SweepPlan(started, tally, plan);
      if plan.probes.Ok? {
        var more := HostsAlone(started, job, plan, plan.probes.value, tally);
        SoloConcat(t, p, 1, more);
        k := 1 + more;
      }
      OneStep(s.tables, EndOf(job, plan, s));
      SoloConcat(t, p, k, 1);
      k := k + 1;
    }
  }
}
