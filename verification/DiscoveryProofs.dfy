/** What one discovery run does to the inventory, and how its counters and log account for it. */
module DiscoveryProofs {
  import opened Wrappers
  import opened Database
  import opened Integrity
  import opened Ipv4
  import opened DiscoveryTasks
  import opened Sequences
  import Footprint

  // ------------------------------------------------------------- accounting

  function Skips(log: seq<string>): nat {
    if log == [] then 0 else Skips(log[..|log| - 1]) + if log[|log| - 1] == SKIP_LINE then 1 else 0
  }

  /** Every host found was either added or skipped, and logged in two lines. */
  ghost predicate Exact(tally: Tally) {
    tally.found == tally.added + Skips(tally.log) && |tally.log| == 2 * tally.found + 1
  }

  /** One host was found, and nothing more happened to it. */
  ghost predicate Short(tally: Tally) {
    tally.found == tally.added + Skips(tally.log) + 1 && |tally.log| == 2 * tally.found
  }

  lemma NoteSkips(tally: Tally, line: string)
    ensures Skips(Note(tally, line).log) == Skips(tally.log) + if line == SKIP_LINE then 1 else 0
  {
    assert (tally.log + [line])[..|tally.log|] == tally.log;
  }

  lemma OtherLines(ip: string, hostname: string, message: string, stamp: string, subnet: string)
    ensures AliveLine(ip) != SKIP_LINE && AddedLine(hostname) != SKIP_LINE
    ensures ErrorLine(message) != SKIP_LINE && HeaderLine(stamp, subnet) != SKIP_LINE
  {
    assert AliveLine(ip)[0] == '[' && ErrorLine(message)[0] == '[' && HeaderLine(stamp, subnet)[0] == '[';
    assert AddedLine(hostname)[5] == 'd' && SKIP_LINE[5] == 'l';
  }

  lemma VisitAccounts(t: InventoryTables, tally: Tally, p: Probe, clash: string)
    requires Exact(tally)
    ensures var v := Visit(t, tally, p, clash);
            && (v.error.None? ==> Exact(v.tally))
            && (v.error.Some? ==> Exact(v.tally) || Short(v.tally))
            && tally.found <= v.tally.found <= tally.found + 1
  {
    hide Skips, HostnameOf, ExecInventory, HasIp;
    var name := HostnameOf(p);
    OtherLines(p.ip, name, "", "", "");
    var seen := Found(tally, p.ip);
    NoteSkips(tally, AliveLine(p.ip));
    NoteSkips(seen, SKIP_LINE);
    NoteSkips(seen, AddedLine(name));
  }

  lemma {:induction false} SweepAccounts(t: InventoryTables, tally: Tally, probes: seq<Probe>, clash: string)
    requires Exact(tally)
    ensures var s := Sweep(t, tally, probes, clash);
            && (s.error.None? ==> Exact(s.tally))
            && (s.error.Some? ==> Exact(s.tally) || Short(s.tally))
            && tally.found <= s.tally.found <= tally.found + |probes|
    decreases |probes|
  {
    hide Exact, Short, Visit;
    if probes != [] {
      VisitAccounts(t, tally, probes[0], clash);
      var v := Visit(t, tally, probes[0], clash);
      if v.error.None? { SweepAccounts(v.tables, v.tally, probes[1..], clash); }
    }
  }

  lemma FirstTally(stamp: string, subnet: string)
    ensures Exact(Tally(0, 0, [HeaderLine(stamp, subnet)]))
  {
    OtherLines("", "", "", stamp, subnet);
    assert Skips([]) == 0;
    NoteSkips(Tally(0, 0, []), HeaderLine(stamp, subnet));
    assert [] + [HeaderLine(stamp, subnet)] == [HeaderLine(stamp, subnet)];
  }

  /** A completed run found exactly what it added and skipped and logged 2 * found + 1 lines; a failed one
      found at most one host more than it added and skipped, and logged its error last. */
  lemma RunAccounts(t: InventoryTables, id: Id, plan: Plan)
    requires id in t.discoveries
    ensures var end := RanDiscovery(t, id, plan).end;
            && end.Ended?
            && (end.status == Completed ==> Exact(end.tally))
            && (end.status != Completed ==>
                 && end.status == Failed && end.tally.log != []
                 && (var body := end.tally.(log := end.tally.log[..|end.tally.log| - 1]); Exact(body) || Short(body)))
            && end.tally.found <= if plan.probes.Ok? then |plan.probes.value| else 0
  {
    hide Exact, Short, Sweep, ExecInventory;
    FirstTally(plan.stamp, t.discoveries[id].subnet);
    var first := Tally(0, 0, [HeaderLine(plan.stamp, t.discoveries[id].subnet)]);
    var started := Saving(t, id, StartSave(plan.t0));
    if plan.probes.Ok? { SweepAccounts(started, first, plan.probes.value, plan.clash); }
    var s := SweepPlan(started, first, plan);
    if s.error.Some? {
      var noted := Note(s.tally, ErrorLine(s.error.value));
      assert noted.log[..|noted.log| - 1] == s.tally.log;
      assert noted.(log := s.tally.log) == s.tally;
    }
  }

  // --------------------------------------------------------------- inventory

  ghost predicate AliveAt(probes: seq<Probe>, ip: string) {
    exists i :: 0 <= i < |probes| && probes[i].ip == ip && probes[i].ping.Alive?
  }

  /** Old rows stay as they are. */
  ghost predicate Extends(before: map<Id, Device>, after: map<Id, Device>) {
    forall d :: d in before ==> d in after && after[d] == before[d]
  }

  /** A device made of a live host that `before` lacks and whose name lookup did not raise. */
  ghost predicate AddedFrom(before: map<Id, Device>, p: Probe, x: Device) {
    p.ping.Alive? && !p.dns.DnsRaised? && x == NewDevice(p) && !HasIp(before, p.ip)
  }

  /** A row that a sweep over `probes` may have added to `before`. */
  ghost predicate Accepted(before: map<Id, Device>, probes: seq<Probe>, x: Device) {
    exists i :: 0 <= i < |probes| && AddedFrom(before, probes[i], x)
  }

  lemma VisitGrows(t: InventoryTables, tally: Tally, p: Probe, clash: string)
    requires Below(t.devices, t.next)
    ensures var v := Visit(t, tally, p, clash);
            && Below(v.tables.devices, v.tables.next)
            && Extends(t.devices, v.tables.devices)
            && |v.tables.devices| + tally.added == |t.devices| + v.tally.added
            && v.tables.discoveries == t.discoveries
            && (forall d :: d in v.tables.devices && d !in t.devices ==>
                 AddedFrom(t.devices, p, v.tables.devices[d]))
            && (v.error.None? && p.ping.Alive? ==> HasIp(v.tables.devices, p.ip))
  {
    hide HostnameOf;
    var v := Visit(t, tally, p, clash);
    if v.tables.next == t.next + 1 {
      assert v.tables.devices[t.next].ip == p.ip;
    }
  }

  lemma MoreIps(before: map<Id, Device>, after: map<Id, Device>, ip: string)
    requires Extends(before, after) && HasIp(before, ip)
    ensures HasIp(after, ip)
  {
    var d :| d in before && before[d].ip == ip;
    assert after[d].ip == ip;
  }

  lemma {:induction false} SweepGrows(t: InventoryTables, tally: Tally, probes: seq<Probe>, clash: string)
    requires Below(t.devices, t.next)
    ensures var s := Sweep(t, tally, probes, clash);
            && Below(s.tables.devices, s.tables.next)
            && Extends(t.devices, s.tables.devices)
            && |s.tables.devices| + tally.added == |t.devices| + s.tally.added
            && s.tables.discoveries == t.discoveries
    decreases |probes|
  {
    hide Visit, Below;
    if probes != [] {
      VisitGrows(t, tally, probes[0], clash);
      var v := Visit(t, tally, probes[0], clash);
      if v.error.None? { SweepGrows(v.tables, v.tally, probes[1..], clash); }
    }
  }

  /** Every new row is a live host the inventory lacked, stored under its chosen name. */
  lemma {:induction false} SweepAddsOnlyLiveHosts(t: InventoryTables, tally: Tally, probes: seq<Probe>, clash: string,
      d: Id)
    requires Below(t.devices, t.next)
    requires d in Sweep(t, tally, probes, clash).tables.devices && d !in t.devices
    ensures Accepted(t.devices, probes, Sweep(t, tally, probes, clash).tables.devices[d])
    decreases |probes|
  {
    hide Visit, NewDevice, Below;
    if probes != [] {
      VisitGrows(t, tally, probes[0], clash);
      var v := Visit(t, tally, probes[0], clash);
      var s := Sweep(t, tally, probes, clash);
      if d in v.tables.devices {
        if v.error.None? { SweepGrows(v.tables, v.tally, probes[1..], clash); }
        assert s.tables.devices[d] == NewDevice(probes[0]);
      } else {
        SweepAddsOnlyLiveHosts(v.tables, v.tally, probes[1..], clash, d);
        var i :| 0 <= i < |probes[1..]| && AddedFrom(v.tables.devices, probes[1..][i], s.tables.devices[d]);
        assert probes[1..][i] == probes[i + 1];
        if HasIp(t.devices, probes[i + 1].ip) { MoreIps(t.devices, v.tables.devices, probes[i + 1].ip); }
      }
    }
  }

  /** A sweep that ends well leaves no live host out. */
  lemma {:induction false} SweepCovers(t: InventoryTables, tally: Tally, probes: seq<Probe>, clash: string, i: nat)
    requires Below(t.devices, t.next) && i < |probes| && probes[i].ping.Alive?
    requires Sweep(t, tally, probes, clash).error.None?
    ensures HasIp(Sweep(t, tally, probes, clash).tables.devices, probes[i].ip)
    decreases |probes|
  {
    hide Visit, HasIp, Below;
    VisitGrows(t, tally, probes[0], clash);
    var v := Visit(t, tally, probes[0], clash);
    SweepGrows(v.tables, v.tally, probes[1..], clash);
    if i == 0 {
      MoreIps(v.tables.devices, Sweep(t, tally, probes, clash).tables.devices, probes[0].ip);
    } else {
      SweepCovers(v.tables, v.tally, probes[1..], clash, i - 1);
    }
  }

  lemma RunIsSweep(t: InventoryTables, id: Id, plan: Plan)
    requires id in t.discoveries
    ensures var started := Saving(t, id, StartSave(plan.t0));
            var s := SweepPlan(started, Tally(0, 0, [HeaderLine(plan.stamp, t.discoveries[id].subnet)]), plan);
            var ran := RanDiscovery(t, id, plan);
            && started.devices == t.devices && started.next == t.next
            && ran.end == Conclude(s.error, s.tally) && ran.tables.devices == s.tables.devices
                && ran.tables.next == s.tables.next
  {
    hide Sweep;
  }

  /** Coverage: a run keeps every old device, adds `added` rows, each a live host the inventory lacked;
      a completed run leaves exactly the old addresses and those of the live hosts. */
  lemma RunCovers(t: InventoryTables, id: Id, plan: Plan)
    requires id in t.discoveries && Below(t.devices, t.next)
    ensures var ran := RanDiscovery(t, id, plan);
            var probes := if plan.probes.Ok? then plan.probes.value else [];
            && Extends(t.devices, ran.tables.devices)
            && |ran.tables.devices| == |t.devices| + ran.end.tally.added
            && (forall d :: d in ran.tables.devices && d !in t.devices ==>
                   Accepted(t.devices, probes, ran.tables.devices[d]))
            && (ran.end.status == Completed ==> forall ip ::
                 HasIp(ran.tables.devices, ip) <==> HasIp(t.devices, ip) || AliveAt(probes, ip))
  {
    hide Sweep, RanDiscovery, Below, Accepted, HasIp;
    RunIsSweep(t, id, plan);
    var started := Saving(t, id, StartSave(plan.t0));
    var first := Tally(0, 0, [HeaderLine(plan.stamp, t.discoveries[id].subnet)]);
    var ran := RanDiscovery(t, id, plan);
    if plan.probes.Ok? {
      var probes := plan.probes.value;
      SweepGrows(started, first, probes, plan.clash);
      forall d | d in ran.tables.devices && d !in t.devices
        ensures Accepted(t.devices, probes, ran.tables.devices[d])
      {
        SweepAddsOnlyLiveHosts(started, first, probes, plan.clash, d);
      }
      if ran.end.status == Completed {
        forall ip
          ensures HasIp(ran.tables.devices, ip) <==> HasIp(t.devices, ip) || AliveAt(probes, ip)
        {
          AddressesAfter(started, first, probes, plan.clash, ip);
        }
      }
    }
  }

  lemma AddressesAfter(t: InventoryTables, tally: Tally, probes: seq<Probe>, clash: string, ip: string)
    requires Below(t.devices, t.next) && Sweep(t, tally, probes, clash).error.None?
    ensures HasIp(Sweep(t, tally, probes, clash).tables.devices, ip) <==> HasIp(t.devices, ip) || AliveAt(probes, ip)
  {
    hide Sweep, Below;
    var after := Sweep(t, tally, probes, clash).tables.devices;
    SweepGrows(t, tally, probes, clash);
    if HasIp(t.devices, ip) { MoreIps(t.devices, after, ip); }
    if AliveAt(probes, ip) {
      var i :| 0 <= i < |probes| && probes[i].ip == ip && probes[i].ping.Alive?;
      SweepCovers(t, tally, probes, clash, i);
    }
    if HasIp(after, ip) && !HasIp(t.devices, ip) {
      var d :| d in after && after[d].ip == ip;
      SweepAddsOnlyLiveHosts(t, tally, probes, clash, d);
    }
  }

  // ------------------------------------------------ silent networks complete

  /** The probes ask about these addresses. */
  ghost predicate Probed(probes: seq<Probe>, hosts: seq<Address>) {
    |probes| == |hosts| && forall i :: 0 <= i < |probes| ==> probes[i].ip == Print(hosts[i])
  }

  ghost predicate Apart(hosts: seq<Address>) {
    forall i, j :: 0 <= i < j < |hosts| ==> hosts[i] != hosts[j]
  }

  /** Neither SNMP nor DNS knows the host, and nothing raises. */
  predicate Silent(p: Probe) {
    !p.ping.PingRaised? && p.snmp == "" && (p.dns == NoName || p.dns == Name(""))
  }

  /** No device already carries the fallback name of a host to be added. */
  ghost predicate NamesFree(devices: map<Id, Device>, probes: seq<Probe>) {
    forall i :: 0 <= i < |probes| && probes[i].ping.Alive? && !HasIp(devices, probes[i].ip) ==>
      NameFree(devices, FallbackName(probes[i].ip))
  }

  ghost predicate NameFree(devices: map<Id, Device>, name: string) {
    forall d :: d in devices ==> devices[d].hostname != name
  }

  lemma SilentVisit(t: InventoryTables, tally: Tally, p: Probe, a: Address, clash: string)
    requires Silent(p) && p.ip == Print(a)
    requires p.ping.Alive? && !HasIp(t.devices, p.ip) ==> NameFree(t.devices, FallbackName(p.ip))
    ensures var v := Visit(t, tally, p, clash);
            && v.error.None?
            && (v.tables == t
                || v.tables == t.(next := t.next + 1,
                    devices := t.devices[t.next := Device(FallbackName(p.ip), p.ip, Online)]))
  {
    hide Print;
    PrintHasNoDash(a);
    assert |FallbackName(p.ip)| <= HOSTNAME_LIMIT;
    hide FallbackName;
    var x := Device(FallbackName(p.ip), p.ip, Online);
    if p.ping.Alive? && !HasIp(t.devices, p.ip) {
      assert NewDevice(p) == x;
      assert Unique(t.devices, x);
    }
  }

  lemma {:induction false} SilentSweepCompletes(t: InventoryTables, tally: Tally, probes: seq<Probe>,
      hosts: seq<Address>, clash: string)
    requires Below(t.devices, t.next)
    requires Probed(probes, hosts) && Apart(hosts) && NamesFree(t.devices, probes)
    requires forall i :: 0 <= i < |probes| ==> Silent(probes[i])
    ensures Sweep(t, tally, probes, clash).error.None?
    decreases |probes|
  {
    hide Visit, Print, FallbackName, Silent, HasIp;
    if probes != [] {
      SilentVisit(t, tally, probes[0], hosts[0], clash);
      VisitGrows(t, tally, probes[0], clash);
      var v := Visit(t, tally, probes[0], clash);
      forall i | 0 <= i < |probes[1..]| && probes[1..][i].ping.Alive? && !HasIp(v.tables.devices, probes[1..][i].ip)
        ensures NameFree(v.tables.devices, FallbackName(probes[1..][i].ip))
      {
        var j := i + 1;
        assert probes[1..][i] == probes[j] && hosts[0] != hosts[j];
        FallbackNamesDiffer(hosts[0], hosts[j]);
        if HasIp(t.devices, probes[j].ip) { MoreIps(t.devices, v.tables.devices, probes[j].ip); }
      }
      SilentSweepCompletes(v.tables, v.tally, probes[1..], hosts[1..], clash);
    }
  }

  // ------------------------------------------------------------- second run

  /** Hosts that are all known change nothing, whatever SNMP and DNS would say. */
  lemma {:induction false} KnownHostsAddNothing(t: InventoryTables, tally: Tally, probes: seq<Probe>, clash: string)
    requires forall i :: 0 <= i < |probes| ==>
        !probes[i].ping.PingRaised? && (probes[i].ping.Alive? ==> HasIp(t.devices, probes[i].ip))
    ensures var s := Sweep(t, tally, probes, clash);
            s.error.None? && s.tables == t && s.tally.added == tally.added
    decreases |probes|
  {
    hide HasIp;
    if probes != [] {
      assert probes[0].ping.Alive? ==> HasIp(t.devices, probes[0].ip);
      var v := Visit(t, tally, probes[0], clash);
      assert forall i :: 0 <= i < |probes[1..]| ==> probes[1..][i] == probes[i + 1];
      KnownHostsAddNothing(t, v.tally, probes[1..], clash);
    }
  }

  // ----------------------------------------------------------- IPv4 subnets

  /** The plan of a run over the IPv4 subnet of `a` with prefix `p`. */
  ghost predicate PlanFor(plan: Plan, a: Address, p: Prefix) {
    plan.probes.Ok? && Probed(plan.probes.value, Hosts(a, p))
  }

  /** No run finds more hosts than its subnet has. */
  lemma FoundIsBounded(t: InventoryTables, id: Id, plan: Plan, a: Address, p: Prefix)
    requires id in t.discoveries && PlanFor(plan, a, p)
    ensures RanDiscovery(t, id, plan).end.tally.found <= if p <= 30 then Size(p) - 2 else if p == 31 then 2 else 1
  {
    RunAccounts(t, id, plan);
    HostCount(a, p);
  }

  /** A completed run over a subnet adds exactly the live addresses that share its leading bits. */
  lemma SubnetCovered(t: InventoryTables, id: Id, plan: Plan, a: Address, p: Prefix, x: Address)
    requires id in t.discoveries && Below(t.devices, t.next) && PlanFor(plan, a, p)
    requires RanDiscovery(t, id, plan).end.status == Completed
    ensures HasIp(RanDiscovery(t, id, plan).tables.devices, Print(x)) <==>
      || HasIp(t.devices, Print(x))
      || (x in Hosts(a, p) && AliveAt(plan.probes.value, Print(x)))
  {
    hide RanDiscovery, HasIp, Print, Hosts;
    RunCovers(t, id, plan);
    if AliveAt(plan.probes.value, Print(x)) {
      var i :| 0 <= i < |plan.probes.value| && plan.probes.value[i].ip == Print(x) && plan.probes.value[i].ping.Alive?;
      ParsePrint(x);
      ParsePrint(Hosts(a, p)[i]);
      assert Hosts(a, p)[i] == x;
    }
  }

  lemma HostsApart(a: Address, p: Prefix)
    ensures Apart(Hosts(a, p))
  {
    forall i, j | 0 <= i < j < |Hosts(a, p)|
      ensures Hosts(a, p)[i] != Hosts(a, p)[j]
    {
      HostsDistinct(a, p, i, j);
    }
  }

  /** Fallback names cannot clash: over any subnet where SNMP and DNS give nothing, nothing raises and no
      device carries a fallback name already, the run completes; and running again over the same live
      hosts completes and adds nothing. */
  lemma SilentSubnetCompletes(t: InventoryTables, id: Id, plan: Plan, again: Plan, a: Address, p: Prefix)
    requires id in t.discoveries && Below(t.devices, t.next)
    requires PlanFor(plan, a, p) && NamesFree(t.devices, plan.probes.value)
    requires forall i :: 0 <= i < |plan.probes.value| ==> Silent(plan.probes.value[i])
    requires again.probes.Ok? && |again.probes.value| == |plan.probes.value|
    requires forall i :: 0 <= i < |again.probes.value| ==>
      again.probes.value[i].ip == plan.probes.value[i].ip && again.probes.value[i].ping == plan.probes.value[i].ping
    ensures var first := RanDiscovery(t, id, plan);
            && first.end.status == Completed
            && id in first.tables.discoveries
            && (var second := RanDiscovery(first.tables, id, again);
                && second.end.status == Completed && second.end.tally.added == 0
                && second.tables.devices == first.tables.devices)
  {
    hide Sweep, HasIp, Silent, Print, Hosts, NamesFree;
    var probes := plan.probes.value;
    var started := Saving(t, id, StartSave(plan.t0));
    HostsApart(a, p);
    RunIsSweep(t, id, plan);
    var tally := Tally(0, 0, [HeaderLine(plan.stamp, t.discoveries[id].subnet)]);
    SilentSweepCompletes(started, tally, probes, Hosts(a, p), plan.clash);
    SweepGrows(started, tally, probes, plan.clash);
    RunCovers(t, id, plan);
    var first := RanDiscovery(t, id, plan);
    forall i | 0 <= i < |probes|
      ensures !again.probes.value[i].ping.PingRaised?
      ensures again.probes.value[i].ping.Alive? ==> HasIp(first.tables.devices, again.probes.value[i].ip)
    {
      SilentPing(probes[i]);
      if probes[i].ping.Alive? { assert AliveAt(probes, probes[i].ip); }
    }
    RunAgain(first.tables, id, again);
  }

  lemma SilentPing(p: Probe)
    requires Silent(p)
    ensures !p.ping.PingRaised?
  {
  }

  /** Once every live host is in the inventory, a run completes and adds nothing. */
  lemma RunAgain(t: InventoryTables, id: Id, plan: Plan)
    requires id in t.discoveries && plan.probes.Ok?
    requires forall i :: 0 <= i < |plan.probes.value| ==>
      !plan.probes.value[i].ping.PingRaised?
          && (plan.probes.value[i].ping.Alive? ==> HasIp(t.devices, plan.probes.value[i].ip))
    ensures var ran := RanDiscovery(t, id, plan);
            ran.end.status == Completed && ran.end.tally.added == 0 && ran.tables.devices == t.devices
  {
    hide Sweep, HasIp;
    RunIsSweep(t, id, plan);
    KnownHostsAddNothing(Saving(t, id, StartSave(plan.t0)),
        Tally(0, 0, [HeaderLine(plan.stamp, t.discoveries[id].subnet)]),
      plan.probes.value, plan.clash);
  }

  // ------------------------------------------------- worker against request

  /** However a worker's statements are interleaved with the request's task-id save and anything else, the
      finished row has the worker's counters, log and status, and the task id. */
  lemma FinishedRowAmongOthers(db: Db, worker: seq<Stmt>, others: seq<Stmt>, ss: seq<Stmt>, id: Id, task: string,
                               t0: int, t1: int, status: JobStatus, tally: Tally)
    requires id in db.inventory.discoveries && Below(db.inventory.discoveries, db.inventory.next)
    requires Footprint.Interleaved(worker, others, ss)
    requires Footprint.Project(Footprint.ToDiscovery(id), worker) == [StartSave(t0), EndSave(status, t1, tally)]
    requires Footprint.Project(Footprint.ToDiscovery(id), others) == [TaskSave(task)]
    ensures id in Run(db, ss).inventory.discoveries
    ensures Run(db, ss).inventory.discoveries[id] == DiscoveryJob(db.inventory.discoveries[id].subnet, status,
              Some(t0), Some(t1), tally.found, tally.added, tally.log, task)
  {
    hide Run, Footprint.Project;
    var row, x, y := db.inventory.discoveries[id], StartSave(t0), EndSave(status, t1, tally);
    Footprint.DiscoveryRequestAndWorkerCommute(db, worker, others, ss, id, task);
    assert [x, y][1..] == [y];
    SingletonTail(y);
    var one := WriteDiscovery(row, x);
    assert Footprint.Fold(WriteDiscovery, one, [y]) == WriteDiscovery(one, y);
  }
}
