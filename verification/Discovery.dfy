/** Subnet discovery: ping every host, add the ones the inventory lacks, keep count. */
module DiscoveryTasks {
  import opened Wrappers
  import opened Database
  import opened Ipv4

  // --------------------------------------------------------------- oracles

  datatype Ping = Dead | Alive | PingRaised(message: string)

  /** `gethostbyaddr`: a name, the one error the task catches, or any other error. */
  datatype Dns = Name(name: string) | NoName | DnsRaised(message: string)

  /** One host of the subnet and what the network answers about it. */
  datatype Probe = Probe(ip: string, ping: Ping, snmp: string, dns: Dns)

  /** What one run reads from outside the database: its clock, the parsed subnet (or the parse error)
      with the answers of its hosts, and the text of a database error. */
  datatype Plan = Plan(stamp: string, t0: int, t1: int, probes: Wrappers.Result<seq<Probe>, string>, clash: string)

  // -------------------------------------------------------------- one host

  datatype Tally = Tally(found: nat, added: nat, log: seq<string>)

  datatype Swept = Swept(tables: InventoryTables, tally: Tally, error: Option<string>)

  const SKIP_LINE: string := "  \U{2192} already in inventory, skipping"

  function AliveLine(ip: string): string { "[ALIVE] " + ip }

  function AddedLine(hostname: string): string { "  \U{2192} added as '" + hostname + "'" }

  function ErrorLine(message: string): string { "[ERROR] " + message }

  function HeaderLine(stamp: string, subnet: string): string {
    "[" + stamp + "] Starting discovery on " + subnet
  }

  predicate HasIp(devices: map<Id, Device>, ip: string) {
    exists d :: d in devices && devices[d].ip == ip
  }

  /** `snmp_name or dns_name or ip.replace(".", "-")` */
  function HostnameOf(p: Probe): string {
    if p.snmp != "" then p.snmp
    else if p.dns.Name? && p.dns.name != "" then p.dns.name
    else FallbackName(p.ip)
  }

  function NewDevice(p: Probe): Device {
    Device(HostnameOf(p), p.ip, Online)
  }

  function Note(tally: Tally, line: string): Tally {
    tally.(log := tally.log + [line])
  }

  function Found(tally: Tally, ip: string): Tally {
    Note(tally, AliveLine(ip)).(found := tally.found + 1)
  }

  function Added(tally: Tally, hostname: string): Tally {
    Note(tally, AddedLine(hostname)).(added := tally.added + 1)
  }

  /** One turn of the loop; an error leaves what was stored. */
  function Visit(t: InventoryTables, tally: Tally, p: Probe, clash: string): Swept {
    match p.ping
    case PingRaised(m) => Swept(t, tally, Some(m))
    case Dead => Swept(t, tally, None)
    case Alive =>
      var seen := Found(tally, p.ip);
      if HasIp(t.devices, p.ip) then Swept(t, Note(seen, SKIP_LINE), None)
      else if p.dns.DnsRaised? then Swept(t, seen, Some(p.dns.message))
      else
        var stored := ExecInventory(t, InsertDevice(NewDevice(p)));
        if stored.outcome.Raised? then Swept(stored.state, seen, Some(clash))
        else Swept(stored.state, Added(seen, HostnameOf(p)), None)
  }

  function Sweep(t: InventoryTables, tally: Tally, probes: seq<Probe>, clash: string): Swept
    decreases |probes|
  {
    if probes == [] then Swept(t, tally, None)
    else
      var v := Visit(t, tally, probes[0], clash);
      if v.error.Some? then v else Sweep(v.tables, v.tally, probes[1..], clash)
  }

  // --------------------------------------------------------------- one run

  function StartSave(now: int): DiscoveryWrite {
    NO_DISCOVERY_SAVE.(status := Some(Running), startedAt := Some(now))
  }

  function EndSave(status: JobStatus, now: int, tally: Tally): DiscoveryWrite {
    NO_DISCOVERY_SAVE.(status := Some(status), completedAt := Some(now),
      found := Some(tally.found), added := Some(tally.added), log := Some(tally.log))
  }

  function TaskSave(task: string): DiscoveryWrite { NO_DISCOVERY_SAVE.(taskId := Some(task)) }

  function Saving(t: InventoryTables, id: Id, w: DiscoveryWrite): InventoryTables {
    ExecInventory(t, SaveDiscovery(id, w)).state
  }

  datatype RunEnd = Missing | Ended(status: JobStatus, tally: Tally)

  datatype DiscoveryRun = DiscoveryRun(tables: InventoryTables, end: RunEnd)

  /** How a sweep turns into the job's final columns. */
  function Conclude(error: Option<string>, tally: Tally): RunEnd {
    match error
    case None => Ended(Completed, tally)
    case Some(m) => Ended(Failed, Note(tally, ErrorLine(m)))
  }

  function SweepPlan(t: InventoryTables, tally: Tally, plan: Plan): Swept {
    match plan.probes
    case Err(m) => Swept(t, tally, Some(m))
    case Ok(probes) => Sweep(t, tally, probes, plan.clash)
  }

  /** `run_discovery` with nothing in between. */
  function RanDiscovery(t: InventoryTables, id: Id, plan: Plan): DiscoveryRun {
    if id !in t.discoveries then DiscoveryRun(t, Missing)
    else
      var started := Saving(t, id, StartSave(plan.t0));
      var swept := SweepPlan(started, Tally(0, 0, [HeaderLine(plan.stamp, t.discoveries[id].subnet)]), plan);
      var end := Conclude(swept.error, swept.tally);
      DiscoveryRun(Saving(swept.tables, id, EndSave(end.status, plan.t1, end.tally)), end)
  }

  method RunDiscovery(store: Store, id: Id, plan: Plan) returns (end: RunEnd)
    modifies store
    ensures var ran := RanDiscovery(old(store.db).inventory, id, plan);
            store.db == old(store.db).(inventory := ran.tables) && end == ran.end
  {
    hide ExecInventory, Sweep;
    if id !in store.db.inventory.discoveries { return Missing; }
    var subnet := store.db.inventory.discoveries[id].subnet;
    var started := store.Execute(Inventory(SaveDiscovery(id, StartSave(plan.t0))));
    var log := [HeaderLine(plan.stamp, subnet)];
    var tally, error := Tally(0, 0, log), None;
    match plan.probes {
      case Err(m) => error := Some(m);
      case Ok(probes) => tally, error := SweepHosts(store, tally, probes, plan.clash);
    }
    end := Conclude(error, tally);
    var saved := store.Execute(Inventory(SaveDiscovery(id, EndSave(end.status, plan.t1, end.tally))));
  }

  /** The loop over the hosts. */
  method SweepHosts(store: Store, start: Tally, probes: seq<Probe>, clash: string)
    returns (tally: Tally, error: Option<string>)
    modifies store
    ensures var swept := Sweep(old(store.db).inventory, start, probes, clash);
            store.db == old(store.db).(inventory := swept.tables) && tally == swept.tally && error == swept.error
  {
    hide ExecInventory, HasIp;
    var found, added, logLines := start.found, start.added, start.log;
    ghost var was := store.db;
    var i := 0;
    while i < |probes|
      invariant 0 <= i <= |probes|
      invariant store.db == was.(inventory := store.db.inventory)
      invariant Sweep(was.inventory, start, probes, clash)
             == Sweep(store.db.inventory, Tally(found, added, logLines), probes[i..], clash)
    {
      ghost var before := Tally(found, added, logLines);
      ghost var tables := store.db.inventory;
      assert probes[i..][0] == probes[i] && probes[i..][1..] == probes[i + 1..];
      var p := probes[i];
      i := i + 1;
      if p.ping.PingRaised? { return Tally(found, added, logLines), Some(p.ping.message); }
      if p.ping.Dead? { continue; }
      found := found + 1;
      logLines := logLines + [AliveLine(p.ip)];
      if HasIp(store.db.inventory.devices, p.ip) {
        logLines := logLines + [SKIP_LINE];
        continue;
      }
      if p.dns.DnsRaised? { return Tally(found, added, logLines), Some(p.dns.message); }
      var outcome := store.Execute(Inventory(InsertDevice(NewDevice(p))));
      if outcome.Raised? { return Tally(found, added, logLines), Some(clash); }
      added := added + 1;
      logLines := logLines + [AddedLine(HostnameOf(p))];
    }
    return Tally(found, added, logLines), None;
  }

  /** `DiscoveryJobViewSet.create`: the job row, then, after dispatch, the task id alone. */
  method CreateDiscoveryJob(store: Store, subnet: string, task: string) returns (id: Id)
    modifies store
    ensures id == old(store.db).inventory.next
    ensures store.db == old(store.db).(inventory := old(store.db).inventory.(
              next := id + 1,
              discoveries := old(store.db).inventory.discoveries[id :=
                  DiscoveryJob(subnet, Pending, None, None, 0, 0, [], task)]))
  {
    var job := DiscoveryJob(subnet, Pending, None, None, 0, 0, [], "");
    ghost var rows := store.db.inventory.discoveries;
    var inserted := store.Execute(Inventory(InsertDiscovery(job)));
    id := inserted.id;
    var saved := store.Execute(Inventory(SaveDiscovery(id, TaskSave(task))));
    assert store.db.inventory.discoveries == rows[id := job.(taskId := task)];
  }
}
