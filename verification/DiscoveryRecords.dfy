/** What a discovery run writes down: the names it gives, the lines it logs, the row it leaves. */
module DiscoveryRecords {
  import opened Wrappers
  import opened Database
  import opened Integrity
  import opened DiscoveryTasks
  import opened DiscoveryProofs
  import opened Sequences

  // ------------------------------------------------------------------ names

  /** `s` with every dot replaced by a dash. */
  predicate Dashed(s: string, r: string) {
    |r| == |s| && forall i :: 0 <= i < |s| ==> r[i] == if s[i] == '.' then '-' else s[i]
  }

  /** The name the network gave, SNMP first, then DNS, then the address; both are asked, and DNS may raise. */
  predicate NamedBy(p: Probe, hostname: string) {
    if p.snmp != "" then hostname == p.snmp && !p.dns.DnsRaised?
    else match p.dns
      case Name(name) => if name != "" then hostname == name else Dashed(p.ip, hostname)
      case NoName => Dashed(p.ip, hostname)
      case DnsRaised(_) => false
  }

  lemma HostnameIsNamed(p: Probe)
    requires !p.dns.DnsRaised?
    ensures NamedBy(p, HostnameOf(p))
  {
  }

  /** Every device a run adds is a live host the inventory lacked, ONLINE, at its own address and under the
      SNMP answer, else the DNS answer, else its address with dashes. */
  lemma {:induction false} AddedDevicesAreNamed(t: InventoryTables, id: Id, plan: Plan, d: Id) returns (i: nat)
    requires id in t.discoveries && Below(t.devices, t.next)
    requires d in RanDiscovery(t, id, plan).tables.devices && d !in t.devices
    ensures plan.probes.Ok? && i < |plan.probes.value|
    ensures var p, x := plan.probes.value[i], RanDiscovery(t, id, plan).tables.devices[d];
            && p.ping == Alive && x.ip == p.ip && x.status == Online && NamedBy(p, x.hostname)
            && (forall e :: e in t.devices ==> t.devices[e].ip != p.ip)
  {
    hide RanDiscovery, HostnameOf, Below;
    RunCovers(t, id, plan);
    var probes := if plan.probes.Ok? then plan.probes.value else [];
    var x := RanDiscovery(t, id, plan).tables.devices[d];
    assert Accepted(t.devices, probes, x);
    i :| 0 <= i < |probes| && AddedFrom(t.devices, probes[i], x);
    HostnameIsNamed(probes[i]);
  }

  // --------------------------------------------------------------- the log

  /** The live hosts among the probes, in order. */
  function Live(probes: seq<Probe>): seq<Probe> {
    if probes == [] then [] else (if probes[0].ping == Alive then [probes[0]] else []) + Live(probes[1..])
  }

  /** The two lines a live host leaves: that it answered, and that it was known or how it was named. */
  ghost predicate TwoLines(p: Probe, first: string, second: string) {
    && first == "[ALIVE] " + p.ip
    && (second == SKIP || exists name :: NamedBy(p, name) && second == ADDED + name + "'")
  }

  const SKIP: string := "  \U{2192} already in inventory, skipping"
  const ADDED: string := "  \U{2192} added as '"

  /** The lines `log[k..]` are those of `live`, two each. */
  ghost predicate Logs(log: seq<string>, k: nat, live: seq<Probe>)
    decreases |live|
  {
    if live == [] then k == |log|
    else k + 2 <= |log| && TwoLines(live[0], log[k], log[k + 1]) && Logs(log, k + 2, live[1..])
  }

  lemma {:induction false} VisitLogs(t: InventoryTables, tally: Tally, p: Probe, clash: string)
    requires Visit(t, tally, p, clash).error.None?
    ensures var log := Visit(t, tally, p, clash).tally.log;
            if p.ping.Alive? then |log| == |tally.log| + 2 && log[..|tally.log|] == tally.log
                                  && TwoLines(p, log[|tally.log|], log[|tally.log| + 1])
            else log == tally.log
  {
    hide HasIp, ExecInventory, HostnameOf, NamedBy;
    if !p.dns.DnsRaised? { HostnameIsNamed(p); }
    assert SKIP == SKIP_LINE;
    assert AddedLine(HostnameOf(p)) == ADDED + HostnameOf(p) + "'";
  }

  lemma {:induction false} SweepLogs(t: InventoryTables, tally: Tally, probes: seq<Probe>, clash: string)
    requires Sweep(t, tally, probes, clash).error.None?
    ensures var log := Sweep(t, tally, probes, clash).tally.log;
            |tally.log| <= |log| && log[..|tally.log|] == tally.log && Logs(log, |tally.log|, Live(probes))
    decreases |probes|
  {
    hide Visit, TwoLines;
    if probes != [] {
      VisitLogs(t, tally, probes[0], clash);
      var v := Visit(t, tally, probes[0], clash);
      SweepLogs(v.tables, v.tally, probes[1..], clash);
      EmptyConcat(Live(probes[1..]));
      var log, n := Sweep(t, tally, probes, clash).tally.log, |tally.log|;
      if probes[0].ping.Alive? {
        assert log[..n + 2] == v.tally.log;
        assert log[..n] == v.tally.log[..n];
        assert log[n] == v.tally.log[n] && log[n + 1] == v.tally.log[n + 1];
        assert ([probes[0]] + Live(probes[1..]))[1..] == Live(probes[1..]);
      }
    }
  }

  /** The log of a completed run: its first line names the subnet, then two lines for every live host, in order:
      that it answered, and that it was known already or under which name it was added. */
  lemma {:induction false} CompletedRunLogs(t: InventoryTables, id: Id, plan: Plan)
    requires id in t.discoveries && RanDiscovery(t, id, plan).end.status == Completed
    ensures plan.probes.Ok?
    ensures var log := RanDiscovery(t, id, plan).end.tally.log;
            && |log| > 0 && log[0] == "[" + plan.stamp + "] Starting discovery on " + t.discoveries[id].subnet
            && Logs(log, 1, Live(plan.probes.value))
  {
    hide Sweep, ExecInventory, Logs;
    var first := Tally(0, 0, [HeaderLine(plan.stamp, t.discoveries[id].subnet)]);
    SweepLogs(Saving(t, id, StartSave(plan.t0)), first, plan.probes.value, plan.clash);
  }

  // ------------------------------------------------------------ how it ends

  lemma {:induction false} SweepAsksAll(t: InventoryTables, tally: Tally, probes: seq<Probe>, clash: string, i: nat)
    requires Below(t.devices, t.next) && Sweep(t, tally, probes, clash).error.None? && i < |probes|
    ensures !probes[i].ping.PingRaised?
    ensures probes[i].ping == Alive && probes[i].dns.DnsRaised? ==>
              HasIp(t.devices, probes[i].ip) || exists j :: 0 <= j < i && probes[j].ip == probes[i].ip
    decreases |probes|
  {
    hide HasIp, Below, ExecInventory;
    var v := Visit(t, tally, probes[0], clash);
    VisitGrows(t, tally, probes[0], clash);
    if i > 0 {
      SweepAsksAll(v.tables, v.tally, probes[1..], clash, i - 1);
      if probes[i].ping == Alive && probes[i].dns.DnsRaised? {
        if j :| 0 <= j < i - 1 && probes[1..][j].ip == probes[1..][i - 1].ip {
          assert probes[j + 1].ip == probes[i].ip;
        } else {
          NewIp(t.devices, v.tables.devices, probes[0], probes[i].ip);
        }
      }
    }
  }

  /** An address that a visit brought in is the visited host's. */
  lemma NewIp(before: map<Id, Device>, after: map<Id, Device>, p: Probe, ip: string)
    requires HasIp(after, ip) && Extends(before, after)
    requires forall d :: d in after && d !in before ==> AddedFrom(before, p, after[d])
    ensures HasIp(before, ip) || p.ip == ip
  {
    var d :| d in after && after[d].ip == ip;
    if d in before { assert before[d].ip == ip; }
  }

  /** A completed run met no ping error at all, and no DNS error for a host whose name it had to ask: every
      such host was known already or listed before. */
  lemma {:induction false} CompletedRunAskedAll(t: InventoryTables, id: Id, plan: Plan, i: nat)
    requires id in t.discoveries && Below(t.devices, t.next) && RanDiscovery(t, id, plan).end.status == Completed
    requires plan.probes.Ok? && i < |plan.probes.value|
    ensures var probes := plan.probes.value;
            && !probes[i].ping.PingRaised?
            && (probes[i].ping == Alive && probes[i].dns.DnsRaised? ==>
                 || (exists d :: d in t.devices && t.devices[d].ip == probes[i].ip)
                 || (exists j :: 0 <= j < i && probes[j].ip == probes[i].ip))
  {
    hide Sweep, Below;
    RunIsSweep(t, id, plan);
    var first := Tally(0, 0, [HeaderLine(plan.stamp, t.discoveries[id].subnet)]);
    SweepAsksAll(Saving(t, id, StartSave(plan.t0)), first, plan.probes.value, plan.clash, i);
  }

  /** What made a run fail. */
  ghost predicate Cause(plan: Plan, message: string) {
    match plan.probes
    case Err(m) => message == m
    case Ok(probes) =>
      || message == plan.clash
      || (exists i :: 0 <= i < |probes| && probes[i].ping == PingRaised(message))
      || (exists i :: 0 <= i < |probes| && probes[i].ping == Alive && probes[i].dns == DnsRaised(message))
  }

  lemma {:induction false} SweepCause(t: InventoryTables, tally: Tally, probes: seq<Probe>, plan: Plan)
    requires plan.probes.Ok? && Sweep(t, tally, probes, plan.clash).error.Some?
    requires forall p :: p in probes ==> p in plan.probes.value
    ensures Cause(plan, Sweep(t, tally, probes, plan.clash).error.value)
    decreases |probes|
  {
    hide HasIp, ExecInventory, HostnameOf;
    var v := Visit(t, tally, probes[0], plan.clash);
    if v.error.Some? {
      assert probes[0] in plan.probes.value;
      var i :| 0 <= i < |plan.probes.value| && plan.probes.value[i] == probes[0];
    } else {
      SweepCause(v.tables, v.tally, probes[1..], plan);
    }
  }

  /** A sweep that fails at a host has treated the hosts before it as a sweep that ends well, added nothing for
      that host, and asked no host after it. */
  lemma {:induction false} FailedSweepStops(t: InventoryTables, tally: Tally, probes: seq<Probe>, clash: string)
    returns (k: nat)
    requires Sweep(t, tally, probes, clash).error.Some?
    ensures k < |probes| && probes[k].ping != Dead
    ensures var s, before := Sweep(t, tally, probes, clash), Sweep(t, tally, probes[..k], clash);
            && before.error.None? && s.tables == before.tables && s.tally.added == before.tally.added
            && (probes[k].ping.PingRaised? ==> s.tally == before.tally)
            && (probes[k].ping == Alive ==>
                 && s.tally.found == before.tally.found + 1
                 && s.tally.log == before.tally.log + ["[ALIVE] " + probes[k].ip])
    decreases |probes|
  {
    hide HasIp, HostnameOf, NewDevice, Unique;
    var v := Visit(t, tally, probes[0], clash);
    if v.error.Some? {
      k := 0;
      assert probes[..0] == [];
      assert Sweep(t, tally, [], clash) == Swept(t, tally, None);
    } else {
      hide Visit;
      var j := FailedSweepStops(v.tables, v.tally, probes[1..], clash);
      k := j + 1;
      assert probes[..k][0] == probes[0] && probes[..k][1..] == probes[1..][..j];
    }
  }

  /** A failed run's last line is its error: the text of the bad subnet, of a ping or DNS error of one of its
      hosts, or of a rejected insert. */
  lemma {:induction false} FailedRunLogsCause(t: InventoryTables, id: Id, plan: Plan) returns (message: string)
    requires id in t.discoveries && RanDiscovery(t, id, plan).end.status == Failed
    ensures var log := RanDiscovery(t, id, plan).end.tally.log;
            |log| > 1 && log[|log| - 1] == "[ERROR] " + message && Cause(plan, message)
  {
    hide Sweep, ExecInventory, Cause;
    var started := Saving(t, id, StartSave(plan.t0));
    var first := Tally(0, 0, [HeaderLine(plan.stamp, t.discoveries[id].subnet)]);
    var s := SweepPlan(started, first, plan);
    RunAccounts(t, id, plan);
    message := s.error.value;
    match plan.probes {
      case Err(m) => BadSubnetCause(plan);
      case Ok(probes) =>
        SweepCause(started, first, probes, plan);
        FirstTally(plan.stamp, t.discoveries[id].subnet);
        SweepAccounts(started, first, probes, plan.clash);
    }
  }

  lemma BadSubnetCause(plan: Plan)
    requires plan.probes.Err?
    ensures Cause(plan, plan.probes.error)
  {
  }

  /** A subnet that cannot be parsed: the run fails with nothing found and two lines logged, and the inventory
      stays as it was. */
  lemma BadSubnetFails(t: InventoryTables, id: Id, plan: Plan)
    requires id in t.discoveries && plan.probes.Err?
    ensures var ran := RanDiscovery(t, id, plan);
            && ran.end == Ended(Failed, Tally(0, 0,
                 ["[" + plan.stamp + "] Starting discovery on " + t.discoveries[id].subnet,
                     "[ERROR] " + plan.probes.error]))
            && ran.tables.devices == t.devices
  {
  }

  /** The row a run leaves: its outcome, both times, both counters and its log; the subnet and the task id stay,
      and so does every other job. */
  lemma {:induction false} RunLeavesRow(t: InventoryTables, id: Id, plan: Plan)
    requires id in t.discoveries && Below(t.devices, t.next)
    ensures var ran, row := RanDiscovery(t, id, plan), t.discoveries[id];
            && ran.end.Ended?
            && ran.tables.discoveries == t.discoveries[id := DiscoveryJob(row.subnet, ran.end.status,
                 Some(plan.t0), Some(plan.t1), ran.end.tally.found, ran.end.tally.added, ran.end.tally.log, row.taskId)]
  {
    hide Sweep;
    var started := Saving(t, id, StartSave(plan.t0));
    var first := Tally(0, 0, [HeaderLine(plan.stamp, t.discoveries[id].subnet)]);
    if plan.probes.Ok? { SweepGrows(started, first, plan.probes.value, plan.clash); }
  }
}
