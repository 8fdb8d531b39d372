/** What the alert table means after any mix of webhook deliveries and acknowledgements. */
module MonitoringProofs {
  import opened Wrappers
  import opened Database
  import opened Monitoring
  import opened Integrity
  import opened Sequences

  /** No two alerts share a fingerprint. */
  ghost predicate Distinct(alerts: map<Id, Alert>) {
    forall a, b :: a in alerts && b in alerts && alerts[a].fingerprint == alerts[b].fingerprint ==> a == b
  }

  /** The table is the map `m`: one row per fingerprint, with the columns `m` gives it. */
  ghost predicate Shows(alerts: map<Id, Alert>, m: map<string, Delivered>) {
    && (forall a :: a in alerts ==> alerts[a].fingerprint in m && alerts[a].delivered == m[alerts[a].fingerprint])
    && (forall fp :: fp in m ==> Known(alerts, fp))
  }

  ghost predicate Table(t: MonitoringTables, m: map<string, Delivered>) {
    Below(t.alerts, t.next) && Distinct(t.alerts) && Shows(t.alerts, m)
  }

  function DeliveriesOf(inventory: InventoryTables, raws: seq<RawAlert>): (ds: seq<Delivery>)
    ensures |ds| == |raws|
    ensures forall i :: 0 <= i < |raws| ==> ds[i] == Normalise(inventory, raws[i])
  {
    seq(|raws|, i requires 0 <= i < |raws| => Normalise(inventory, raws[i]))
  }

  /** Each delivery overwrites its fingerprint's entry. */
  function LastWins(m: map<string, Delivered>, ds: seq<Delivery>): map<string, Delivered>
    decreases |ds|
  {
    if ds == [] then m else LastWins(m[ds[0].fingerprint := ds[0].columns], ds[1..])
  }

  ghost predicate AllReadable(raws: seq<RawAlert>) {
    forall i :: 0 <= i < |raws| ==> Readable(raws[i])
  }

  // -------------------------------------------------------- one delivery

  /** A delivery to a known fingerprint changes no key and no fingerprint. */
  lemma DeliverKeepsKeys(alerts: map<Id, Alert>, fp: string, x: Delivered)
    ensures var after := Deliver(alerts, fp, x);
            && after.Keys == alerts.Keys && |after| == |alerts|
            && (forall g :: Known(after, g) <==> Known(alerts, g))
            && (Distinct(alerts) ==> Distinct(after))
  {
    var after := Deliver(alerts, fp, x);
    assert after.Keys == alerts.Keys;
    assert |after| == |after.Keys| && |alerts| == |alerts.Keys|;
    forall g
      ensures Known(after, g) <==> Known(alerts, g)
    {
      assert forall a :: a in Hits(after, g) <==> a in Hits(alerts, g);
    }
  }

  lemma DeliveredRows(alerts: map<Id, Alert>, fp: string, x: Delivered, m: map<string, Delivered>)
    requires Shows(alerts, m)
    ensures var after := Deliver(alerts, fp, x);
            forall a :: a in after ==>
              after[a].fingerprint in m && after[a].delivered == m[fp := x][after[a].fingerprint]
  {
    hide Known;
  }

  lemma KnownIsMapped(alerts: map<Id, Alert>, fp: string, m: map<string, Delivered>)
    requires Shows(alerts, m) && Known(alerts, fp)
    ensures fp in m
  {
    var a :| a in Hits(alerts, fp);
  }

  lemma DeliveredMap(alerts: map<Id, Alert>, fp: string, x: Delivered, m: map<string, Delivered>)
    requires Shows(alerts, m) && Known(alerts, fp)
    ensures Shows(Deliver(alerts, fp, x), m[fp := x]) && fp in m
  {
    hide Deliver, Known;
    KnownIsMapped(alerts, fp, m);
    var after := Deliver(alerts, fp, x);
    DeliverKeepsKeys(alerts, fp, x);
    DeliveredRows(alerts, fp, x, m);
    forall g | g in m[fp := x]
      ensures Known(after, g)
    {
      assert g in m;
    }
  }

  lemma DeliveredShows(t: MonitoringTables, fp: string, x: Delivered, m: map<string, Delivered>)
    requires Table(t, m) && Known(t.alerts, fp)
    ensures Table(t.(alerts := Deliver(t.alerts, fp, x)), m[fp := x]) && fp in m
    ensures |Deliver(t.alerts, fp, x)| == |t.alerts|
  {
    hide Distinct, Deliver, Known, Shows;
    DeliverKeepsKeys(t.alerts, fp, x);
    DeliveredMap(t.alerts, fp, x, m);
  }

  /** The rows of an insert: the fresh key carries the new fingerprint, every other key its old one. */
  lemma InsertedHits(alerts: map<Id, Alert>, n: Id, row: Alert, g: string)
    requires n !in alerts
    ensures Hits(alerts[n := row], g) == Hits(alerts, g) + if row.fingerprint == g then {n} else {}
  {
  }

  lemma InsertedShows(t: MonitoringTables, row: Alert, m: map<string, Delivered>)
    requires Table(t, m) && !Known(t.alerts, row.fingerprint)
    ensures Table(t.(next := t.next + 1, alerts := t.alerts[t.next := row]), m[row.fingerprint := row.delivered])
    ensures row.fingerprint !in m
  {
    var fp := row.fingerprint;
    var after := t.alerts[t.next := row];
    forall a | a in t.alerts
      ensures t.alerts[a].fingerprint != fp
    {
      assert a !in Hits(t.alerts, fp);
    }
    hide Hits;
    forall g | g in m[fp := row.delivered]
      ensures Known(after, g)
    {
      InsertedHits(t.alerts, t.next, row, g);
      assert Known(t.alerts, g) || g == fp;
      if g == fp { assert t.next in Hits(after, g); }
      else { var b :| b in Hits(t.alerts, g); assert b in Hits(after, g); }
    }
  }

  lemma UpsertShows(t: MonitoringTables, devices: set<Id>, fp: string, x: Delivered, now: int,
      m: map<string, Delivered>)
    requires Table(t, m) && Points(x.device, devices)
    ensures var r := Upsert(t, devices, fp, x, now);
            && !r.outcome.Raised?
            && (r.outcome.Created? <==> fp !in m)
            && Table(r.state, m[fp := x])
            && |r.state.alerts| == |t.alerts| + if r.outcome.Created? then 1 else 0
  {
    assert Single(t.alerts, fp) && t.next !in t.alerts;
    hide Table, Single, Deliver;
    if Known(t.alerts, fp) {
      DeliveredShows(t, fp, x, m);
    } else {
      InsertedShows(t, Alert(fp, x, now, false, None), m);
    }
  }

  lemma NormalisedPoints(inventory: InventoryTables, raw: RawAlert)
    ensures Points(Normalise(inventory, raw).columns.device, inventory.devices.Keys)
  {
  }

  // ------------------------------------------------------------ one payload

  lemma {:induction false} ReadableRefinesMap(t: MonitoringTables, inventory: InventoryTables, raws: seq<RawAlert>,
                                              now: int, m: map<string, Delivered>)
    requires Table(t, m) && AllReadable(raws)
    ensures var ran := Webhook(t, inventory, raws, now);
            && !ran.raised
            && Table(ran.tables, LastWins(m, DeliveriesOf(inventory, raws)))
            && |ran.tables.alerts| == |t.alerts| + ran.created
    decreases |raws|
  {
    hide Table, Normalise, Upsert;
    if raws != [] {
      var x := Normalise(inventory, raws[0]);
      NormalisedPoints(inventory, raws[0]);
      UpsertShows(t, inventory.devices.Keys, x.fingerprint, x.columns, now, m);
      var one := Monitoring.Take(t, inventory, raws[0], now);
      assert DeliveriesOf(inventory, raws)[1..] == DeliveriesOf(inventory, raws[1..]);
      ReadableRefinesMap(one.tables, inventory, raws[1..], now, m[x.fingerprint := x.columns]);
    }
  }

  /** Cutting a payload in two consecutive ones changes nothing, exceptions included. */
  lemma {:induction false} WebhookSplits(t: MonitoringTables, inventory: InventoryTables,
                                         p: seq<RawAlert>, q: seq<RawAlert>, now: int)
    ensures var first := Webhook(t, inventory, p, now);
            var second := Webhook(first.tables, inventory, q, now);
            Webhook(t, inventory, p + q, now)
            == if first.raised then first else second.(created := first.created + second.created)
    decreases |p|
  {
    hide Monitoring.Take;
    if p == [] {
      EmptyConcat(q);
    } else {
      TailOfConcat(p, q);
      var one := Monitoring.Take(t, inventory, p[0], now);
      WebhookSplits(one.tables, inventory, p[1..], q, now);
    }
  }

  /** The entries before the first one whose times cannot be read; the loop stops there. */
  function Prefix(raws: seq<RawAlert>): (p: seq<RawAlert>)
    ensures |p| <= |raws|
  {
    if raws == [] || !Readable(raws[0]) then [] else [raws[0]] + Prefix(raws[1..])
  }

  lemma {:induction false} PrefixIsReadable(raws: seq<RawAlert>)
    ensures AllReadable(Prefix(raws)) && raws == Prefix(raws) + raws[|Prefix(raws)|..]
    ensures |Prefix(raws)| < |raws| ==> !Readable(raws[|Prefix(raws)|])
    ensures Prefix(raws) == raws <==> AllReadable(raws)
    decreases |raws|
  {
    hide Readable;
    if raws != [] && Readable(raws[0]) {
      PrefixIsReadable(raws[1..]);
      assert forall i :: 0 <= i < |raws[1..]| ==> raws[1..][i] == raws[i + 1];
    }
  }

  /** A payload does what its readable prefix does, and then raises if there is more. */
  lemma WebhookStops(t: MonitoringTables, inventory: InventoryTables, raws: seq<RawAlert>, now: int)
    requires !Webhook(t, inventory, Prefix(raws), now).raised
    ensures Webhook(t, inventory, raws, now)
         == Webhook(t, inventory, Prefix(raws), now).(raised := !AllReadable(raws))
  {
    var p := Prefix(raws);
    var rest := raws[|p|..];
    PrefixIsReadable(raws);
    WebhookSplits(t, inventory, p, rest, now);
    hide AllReadable, Readable, Prefix;
    var first := Webhook(t, inventory, p, now);
    if rest != [] {
      assert rest[0] == raws[|p|];
      assert Webhook(first.tables, inventory, rest, now) == Ingest(first.tables, 0, true);
    }
  }

  /** What a payload delivers. */
  function Delivers(inventory: InventoryTables, raws: seq<RawAlert>): seq<Delivery> {
    DeliveriesOf(inventory, Prefix(raws))
  }

  /** The webhook refines a last-writer-wins map: after any payload every fingerprint has one row with the
      columns last delivered for it, `created` is the growth of the table, and the request fails exactly when
      some entry's times cannot be read, keeping what was delivered before it. */
  lemma WebhookRefinesMap(t: MonitoringTables, inventory: InventoryTables, raws: seq<RawAlert>,
                          now: int, m: map<string, Delivered>)
    requires Table(t, m)
    ensures var ran := Webhook(t, inventory, raws, now);
            && (ran.raised <==> !AllReadable(raws))
            && Table(ran.tables, LastWins(m, Delivers(inventory, raws)))
            && |ran.tables.alerts| == |t.alerts| + ran.created
  {
    hide Table, AllReadable, Prefix, Webhook, DeliveriesOf, LastWins;
    PrefixIsReadable(raws);
    ReadableRefinesMap(t, inventory, Prefix(raws), now, m);
    WebhookStops(t, inventory, raws, now);
  }

  // ----------------------------------------------------------------- replay

  /** Rows rewritten by a map of deliveries; nothing else changes. */
  function Overlay(alerts: map<Id, Alert>, m: map<string, Delivered>): map<Id, Alert> {
    map a | a in alerts ::
      if alerts[a].fingerprint in m then alerts[a].(delivered := m[alerts[a].fingerprint]) else alerts[a]
  }

  ghost predicate AllKnown(alerts: map<Id, Alert>, ds: seq<Delivery>) {
    forall i :: 0 <= i < |ds| ==> Known(alerts, ds[i].fingerprint)
  }

  lemma {:induction false} LastWinsOver(m: map<string, Delivered>, ds: seq<Delivery>)
    ensures LastWins(m, ds) == m + LastWins(map[], ds)
    decreases |ds|
  {
    if ds != [] {
      var one := map[ds[0].fingerprint := ds[0].columns];
      LastWinsOver(m[ds[0].fingerprint := ds[0].columns], ds[1..]);
      LastWinsOver(one, ds[1..]);
      assert m[ds[0].fingerprint := ds[0].columns] == m + one;
      assert map[][ds[0].fingerprint := ds[0].columns] == one;
    }
  }

  lemma KnownDelivery(t: MonitoringTables, devices: set<Id>, fp: string, x: Delivered, now: int)
    requires Distinct(t.alerts) && Points(x.device, devices) && Known(t.alerts, fp)
    ensures Upsert(t, devices, fp, x, now) == Reply(t.(alerts := Overlay(t.alerts, map[fp := x])), Written)
    ensures Distinct(Overlay(t.alerts, map[fp := x]))
    ensures forall g :: Known(t.alerts, g) ==> Known(Overlay(t.alerts, map[fp := x]), g)
  {
    assert Single(t.alerts, fp);
    var after := Overlay(t.alerts, map[fp := x]);
    assert Deliver(t.alerts, fp, x) == after;
    forall g | Known(t.alerts, g)
      ensures Known(after, g)
    {
      var a :| a in Hits(t.alerts, g);
      assert a in Hits(after, g);
    }
  }

  lemma OverlayTwice(alerts: map<Id, Alert>, m: map<string, Delivered>, n: map<string, Delivered>)
    ensures Overlay(Overlay(alerts, m), n) == Overlay(alerts, m + n)
  {
  }

  /** A payload about known fingerprints only overwrites delivered columns. */
  lemma {:induction false} WebhookOverlays(t: MonitoringTables, inventory: InventoryTables, raws: seq<RawAlert>,
      now: int)
    requires Distinct(t.alerts) && AllReadable(raws) && AllKnown(t.alerts, DeliveriesOf(inventory, raws))
    ensures Webhook(t, inventory, raws, now)
         == Ingest(t.(alerts := Overlay(t.alerts, LastWins(map[], DeliveriesOf(inventory, raws)))), 0, false)
    decreases |raws|
  {
    hide Normalise, Upsert, Distinct, Known;
    var ds := DeliveriesOf(inventory, raws);
    if raws == [] {
      assert Overlay(t.alerts, map[]) == t.alerts;
    } else {
      var x := ds[0];
      var one := map[x.fingerprint := x.columns];
      NormalisedPoints(inventory, raws[0]);
      KnownDelivery(t, inventory.devices.Keys, x.fingerprint, x.columns, now);
      var rest := DeliveriesOf(inventory, raws[1..]);
      assert ds[1..] == rest;
      var t1 := t.(alerts := Overlay(t.alerts, one));
      assert AllKnown(t1.alerts, rest) by {
        forall i | 0 <= i < |rest| ensures Known(t1.alerts, rest[i].fingerprint) { assert rest[i] == ds[i + 1]; }
      }
      WebhookOverlays(t1, inventory, raws[1..], now);
      OverlayTwice(t.alerts, one, LastWins(map[], rest));
      LastWinsOver(one, rest);
      assert map[][x.fingerprint := x.columns] == one;
    }
  }

  /** Delivering what a row already shows changes nothing. */
  lemma OverlayIdle(alerts: map<Id, Alert>, m: map<string, Delivered>, n: map<string, Delivered>)
    requires Shows(alerts, m + n)
    ensures Overlay(alerts, n) == alerts
  {
    hide Known;
  }

  lemma ReadableReplay(t: MonitoringTables, inventory: InventoryTables, raws: seq<RawAlert>,
                       now: int, later: int, m: map<string, Delivered>)
    requires Table(t, m) && AllReadable(raws)
    ensures var once := Webhook(t, inventory, raws, now);
            Webhook(once.tables, inventory, raws, later) == Ingest(once.tables, 0, false)
  {
    hide Webhook, Normalise, Known, Below, Distinct, Overlay;
    var ds := DeliveriesOf(inventory, raws);
    var once := Webhook(t, inventory, raws, now);
    ReadableRefinesMap(t, inventory, raws, now, m);
    LastWinsOver(m, ds);
    forall i | 0 <= i < |ds|
      ensures Known(once.tables.alerts, ds[i].fingerprint)
    {
      LastWinsKeys(m, ds, i);
    }
    WebhookOverlays(once.tables, inventory, raws, later);
    OverlayIdle(once.tables.alerts, m, LastWins(map[], ds));
  }

  /** Replaying a payload straight after itself creates nothing and leaves the table as it is; it fails
      again exactly if it failed. */
  lemma ReplayChangesNothing(t: MonitoringTables, inventory: InventoryTables, raws: seq<RawAlert>,
                             now: int, later: int, m: map<string, Delivered>)
    requires Table(t, m)
    ensures var once := Webhook(t, inventory, raws, now);
            Webhook(once.tables, inventory, raws, later) == Ingest(once.tables, 0, once.raised)
  {
    hide Table, AllReadable, Prefix, Webhook, DeliveriesOf, LastWins;
    PrefixIsReadable(raws);
    ReadableRefinesMap(t, inventory, Prefix(raws), now, m);
    ReadableReplay(t, inventory, Prefix(raws), now, later, m);
    WebhookStops(t, inventory, raws, now);
    WebhookStops(Webhook(t, inventory, Prefix(raws), now).tables, inventory, raws, later);
  }

  lemma {:induction false} LastWinsKeys(m: map<string, Delivered>, ds: seq<Delivery>, i: nat)
    requires i < |ds|
    ensures ds[i].fingerprint in LastWins(m, ds)
    decreases |ds|
  {
    if i == 0 {
      LastWinsOver(m[ds[0].fingerprint := ds[0].columns], ds[1..]);
    } else {
      LastWinsKeys(m[ds[0].fingerprint := ds[0].columns], ds[1..], i - 1);
    }
  }

  // ------------------------------------------------------- when it raises

  /** A delivery never changes which fingerprints are ambiguous. */
  lemma UpsertKeepsSingle(t: MonitoringTables, devices: set<Id>, fp: string, x: Delivered, now: int, g: string)
    requires Below(t.alerts, t.next)
    ensures var t' := Upsert(t, devices, fp, x, now).state;
            Below(t'.alerts, t'.next) && (Single(t'.alerts, g) <==> Single(t.alerts, g))
  {
    var t' := Upsert(t, devices, fp, x, now).state;
    if !Points(x.device, devices) || !Single(t.alerts, fp) {
    } else if Known(t.alerts, fp) {
      assert Hits(t'.alerts, g) == Hits(t.alerts, g);
    } else if g == fp {
      assert forall a :: a in t.alerts ==> a != t.next && a !in Hits(t.alerts, fp);
      assert forall a :: a in Hits(t'.alerts, g) ==> a == t.next;
      assert Hits(t.alerts, g) == {};
    } else {
      assert Hits(t'.alerts, g) == Hits(t.alerts, g);
    }
  }

  /** An entry the loop cannot process: an unreadable time, or a fingerprint several rows share. */
  ghost predicate Blocked(alerts: map<Id, Alert>, inventory: InventoryTables, raw: RawAlert) {
    raw.startsAt.Unreadable? || raw.endsAt.Unreadable? || !Single(alerts, Normalise(inventory, raw).fingerprint)
  }

  /** The request fails exactly when some entry is blocked in the table it started from. */
  lemma {:induction false} WebhookRaisesExactly(t: MonitoringTables, inventory: InventoryTables, raws: seq<RawAlert>,
      now: int)
    requires Below(t.alerts, t.next)
    ensures Webhook(t, inventory, raws, now).raised
            <==> exists i :: 0 <= i < |raws| && Blocked(t.alerts, inventory, raws[i])
    decreases |raws|
  {
    hide Normalise, Below, Single;
    if raws != [] {
      var x := Normalise(inventory, raws[0]);
      NormalisedPoints(inventory, raws[0]);
      var one := Monitoring.Take(t, inventory, raws[0], now);
      assert one.raised <==> Blocked(t.alerts, inventory, raws[0]);
      if !one.raised {
        UpsertKeepsSingle(t, inventory.devices.Keys, x.fingerprint, x.columns, now, "");
        forall i | 0 <= i < |raws|
          ensures Blocked(one.tables.alerts, inventory, raws[i]) <==> Blocked(t.alerts, inventory, raws[i])
        {
          UpsertKeepsSingle(t, inventory.devices.Keys, x.fingerprint, x.columns, now,
              Normalise(inventory, raws[i]).fingerprint);
        }
        WebhookRaisesExactly(one.tables, inventory, raws[1..], now);
        assert forall i :: 0 <= i < |raws[1..]| ==> raws[1..][i] == raws[i + 1];
        if i :| 1 <= i < |raws| && Blocked(t.alerts, inventory, raws[i]) {
          assert raws[1..][i - 1] == raws[i];
        }
      }
    }
  }

  // -------------------------------------- one alert row, in any run at all

  /** What one statement makes of the delivered columns of fingerprint `fp`: a delivery that is stored
      replaces them, deleting the device they point at nulls that reference, anything else leaves them. */
  function OneDelivery(db: Db, s: Stmt, fp: string, columns: Delivered): Delivered {
    match s
    case Monitoring(UpsertAlert(g, x, _)) =>
      if g == fp && Points(x.device, db.inventory.devices.Keys) then x else columns
    case Removal(DeleteDevice(d)) =>
      if d in db.inventory.devices then columns.(device := Unlink(columns.device, {d})) else columns
    case _ => columns
  }

  /** The delivered columns of `fp` after a run. */
  function LastDelivered(db: Db, ss: seq<Stmt>, fp: string, columns: Delivered): Delivered
    decreases |ss|
  {
    if ss == [] then columns
    else LastDelivered(Exec(db, ss[0]).state, ss[1..], fp, OneDelivery(db, ss[0], fp, columns))
  }

  predicate Acknowledges(s: Stmt, id: Id) {
    s.Monitoring? && s.monitoring.Acknowledge? && s.monitoring.id == id
  }

  /** The time an alert was last acknowledged, if it was. */
  function LastAcknowledged(ss: seq<Stmt>, id: Id, time: Option<int>): Option<int>
    decreases |ss|
  {
    if ss == [] then time
    else LastAcknowledged(ss[1..], id, if Acknowledges(ss[0], id) then Some(ss[0].monitoring.now) else time)
  }

  ghost predicate Acknowledged(ss: seq<Stmt>, id: Id) {
    exists i :: 0 <= i < |ss| && Acknowledges(ss[i], id)
  }

  ghost predicate Keyed(t: MonitoringTables, id: Id) {
    Below(t.alerts, t.next) && Distinct(t.alerts) && id in t.alerts
  }

  lemma MonitoringOnRow(t: MonitoringTables, devices: set<Id>, s: MonitoringStmt, id: Id)
    requires Keyed(t, id)
    ensures var t' := ExecMonitoring(t, devices, s).state;
            var row := t.alerts[id];
            && Keyed(t', id)
            && t'.alerts[id] == row.(
                 delivered := if s.UpsertAlert? && s.fingerprint == row.fingerprint
                     && Points(s.delivered.device, devices)
                   then s.delivered else row.delivered,
                 acknowledged := row.acknowledged || (s.Acknowledge? && s.id == id),
                 acknowledgedAt := if s.Acknowledge? && s.id == id then Some(s.now) else row.acknowledgedAt)
  {
    if s.UpsertAlert? {
      var fp := s.fingerprint;
      assert Single(t.alerts, fp);
      if !Known(t.alerts, fp) {
        assert forall a :: a in t.alerts && t.alerts[a].fingerprint == fp ==> a in Hits(t.alerts, fp);
      }
    }
  }

  lemma RemovalOnRow(t: MonitoringTables, d: Id, id: Id)
    requires Keyed(t, id)
    ensures var t' := DropFromMonitoring(t, d);
            var columns := t.alerts[id].delivered;
            && Keyed(t', id)
            && t'.alerts[id] == t.alerts[id].(delivered := columns.(device := Unlink(columns.device, {d})))
  {
  }

  lemma StatementOnRow(db: Db, s: Stmt, id: Id)
    requires Keyed(db.monitoring, id)
    ensures var t' := Exec(db, s).state.monitoring;
            var row := db.monitoring.alerts[id];
            && Keyed(t', id)
            && t'.alerts[id] == row.(
                 delivered := OneDelivery(db, s, row.fingerprint, row.delivered),
                 acknowledged := row.acknowledged || Acknowledges(s, id),
                 acknowledgedAt := if Acknowledges(s, id) then Some(s.monitoring.now) else row.acknowledgedAt)
  {
    hide Keyed, ExecMonitoring, DropFromMonitoring;
    match s {
      case Inventory(_) =>
      case Security(_) =>
      case Provisioning(_) =>
      case Monitoring(t) => MonitoringOnRow(db.monitoring, db.inventory.devices.Keys, t, id);
      case Log(_) =>
      case Removal(t) => if t.DeleteDevice? { RemovalOnRow(db.monitoring, t.id, id); }
    }
  }

  /** Acknowledgements survive: in any run of any statements a row's delivered columns are those of the last
      delivery, with the reference to a deleted device nulled, and its acknowledgement is that of the last
      acknowledgement; neither kind of statement can undo the other's columns. */
  lemma {:induction false} RowIsTwoHistories(db: Db, ss: seq<Stmt>, id: Id)
    requires Keyed(db.monitoring, id)
    ensures var row := db.monitoring.alerts[id];
            var after := Run(db, ss).monitoring;
            && id in after.alerts
            && after.alerts[id] == row.(
                 delivered := LastDelivered(db, ss, row.fingerprint, row.delivered),
                 acknowledged := row.acknowledged || Acknowledged(ss, id),
                 acknowledgedAt := LastAcknowledged(ss, id, row.acknowledgedAt))
    decreases |ss|
  {
    hide Exec, OneDelivery, Acknowledges;
    if ss != [] {
      StatementOnRow(db, ss[0], id);
      assert forall i :: 0 <= i < |ss[1..]| ==> ss[1..][i] == ss[i + 1];
      RowIsTwoHistories(Exec(db, ss[0]).state, ss[1..], id);
      assert Acknowledged(ss, id) <==> Acknowledges(ss[0], id) || Acknowledged(ss[1..], id) by {
        if i :| 1 <= i < |ss| && Acknowledges(ss[i], id) { assert ss[1..][i - 1] == ss[i]; }
      }
    }
  }

  // -------------------------------------------------------------- dashboard

  function FingerprintsOf(alerts: map<Id, Alert>, rows: set<Id>): set<string>
    requires rows <= alerts.Keys
  {
    set a | a in rows :: alerts[a].fingerprint
  }

  lemma {:induction false} AsManyFingerprints(alerts: map<Id, Alert>, rows: set<Id>)
    requires Distinct(alerts) && rows <= alerts.Keys
    ensures |FingerprintsOf(alerts, rows)| == |rows|
    decreases |rows|
  {
    if rows != {} {
      var a :| a in rows;
      AsManyFingerprints(alerts, rows - {a});
      assert FingerprintsOf(alerts, rows) == FingerprintsOf(alerts, rows - {a}) + {alerts[a].fingerprint};
      assert alerts[a].fingerprint !in FingerprintsOf(alerts, rows - {a});
    } else {
      assert FingerprintsOf(alerts, rows) == {};
    }
  }

  lemma CountersAgree(alerts: map<Id, Alert>, m: map<string, Delivered>)
    requires Distinct(alerts) && Shows(alerts, m)
    ensures |Firing(alerts)| == |set fp | fp in m && m[fp].status == "firing"|
    ensures |FiringCritical(alerts)| == |set fp | fp in m && m[fp].status == "firing" && m[fp].severity == Critical|
  {
    AsManyFingerprints(alerts, Firing(alerts));
    AsManyFingerprints(alerts, FiringCritical(alerts));
    forall fp | fp in m
      ensures exists a :: a in alerts && alerts[a].fingerprint == fp
    {
      var a :| a in Hits(alerts, fp);
    }
    assert FingerprintsOf(alerts, Firing(alerts)) == set fp | fp in m && m[fp].status == "firing";
    assert FingerprintsOf(alerts, FiringCritical(alerts))
        == set fp | fp in m && m[fp].status == "firing" && m[fp].severity == Critical;
  }

  /** A payload, with the clock and the inventory it meets. */
  datatype Payload = Payload(alerts: seq<RawAlert>, now: int, inventory: InventoryTables)

  function Received(t: MonitoringTables, p: Payload): Ingest {
    Webhook(t, p.inventory, p.alerts, p.now)
  }

  /** The outcomes of a sequence of requests. */
  function Outcomes(t: MonitoringTables, ps: seq<Payload>): (r: seq<Ingest>)
    ensures |r| == |ps|
    decreases |ps|
  {
    if ps == [] then [] else [Received(t, ps[0])] + Outcomes(Received(t, ps[0]).tables, ps[1..])
  }

  function Ingested(t: MonitoringTables, ps: seq<Payload>): MonitoringTables
    decreases |ps|
  {
    if ps == [] then t else Ingested(Received(t, ps[0]).tables, ps[1..])
  }

  function SumCreated(outcomes: seq<Ingest>): nat {
    if outcomes == [] then 0 else outcomes[0].created + SumCreated(outcomes[1..])
  }

  /** All deliveries of a sequence of payloads, in order. */
  function History(ps: seq<Payload>): seq<Delivery>
    decreases |ps|
  {
    if ps == [] then [] else Delivers(ps[0].inventory, ps[0].alerts) + History(ps[1..])
  }

  lemma {:induction false} LastWinsConcat(m: map<string, Delivered>, x: seq<Delivery>, y: seq<Delivery>)
    ensures LastWins(m, x + y) == LastWins(LastWins(m, x), y)
    decreases |x|
  {
    if x == [] {
      EmptyConcat(y);
    } else {
      TailOfConcat(x, y);
      LastWinsConcat(m[x[0].fingerprint := x[0].columns], x[1..], y);
    }
  }

  /** Over any sequence of payloads the table shows the last delivery of every fingerprint, grows by the sum
      of the `created` counts, and each request fails exactly when its own payload has an unreadable time. */
  lemma {:induction false} PayloadsRefineMap(t: MonitoringTables, ps: seq<Payload>, m: map<string, Delivered>)
    requires Table(t, m)
    ensures Table(Ingested(t, ps), LastWins(m, History(ps)))
    ensures |Ingested(t, ps).alerts| == |t.alerts| + SumCreated(Outcomes(t, ps))
    ensures forall i :: 0 <= i < |ps| ==> (Outcomes(t, ps)[i].raised <==> !AllReadable(ps[i].alerts))
    decreases |ps|
  {
    hide Table, AllReadable, Webhook, Delivers;
    if ps != [] {
      var p := ps[0];
      var ds, next := Delivers(p.inventory, p.alerts), Received(t, p).tables;
      WebhookRefinesMap(t, p.inventory, p.alerts, p.now, m);
      PayloadsRefineMap(next, ps[1..], LastWins(m, ds));
      LastWinsConcat(m, ds, History(ps[1..]));
      assert forall i :: 0 < i < |ps| ==>
          ps[i] == ps[1..][i - 1] && Outcomes(t, ps)[i] == Outcomes(next, ps[1..])[i - 1];
    }
  }

  /** The dashboard agrees with history: after any payloads from an empty table, the firing counter is the
      number of fingerprints last delivered as firing, and the critical counter those of them last delivered
      with critical severity. */
  lemma DashboardAgreesWithHistory(ps: seq<Payload>)
    ensures var alerts := Ingested(MonitoringTables(0, map[]), ps).alerts;
            var last := LastWins(map[], History(ps));
            && |Firing(alerts)| == |set fp | fp in last && last[fp].status == "firing"|
            && |FiringCritical(alerts)|
               == |set fp | fp in last && last[fp].status == "firing" && last[fp].severity == Critical|
  {
    PayloadsRefineMap(MonitoringTables(0, map[]), ps, map[]);
    CountersAgree(Ingested(MonitoringTables(0, map[]), ps).alerts, LastWins(map[], History(ps)));
  }

  /** `LastWins` says what its name says: an entry is the last delivery of its fingerprint. */
  lemma {:induction false} LastWinsIsLast(ds: seq<Delivery>, i: nat)
    requires i < |ds| && forall j :: i < j < |ds| ==> ds[j].fingerprint != ds[i].fingerprint
    ensures ds[i].fingerprint in LastWins(map[], ds) && LastWins(map[], ds)[ds[i].fingerprint] == ds[i].columns
  {
    var fp := ds[i].fingerprint;
    assert ds == ds[..i] + ds[i..];
    LastWinsConcat(map[], ds[..i], ds[i..]);
    var m := LastWins(map[], ds[..i])[fp := ds[i].columns];
    assert forall j :: 0 <= j < |ds[i..][1..]| ==> ds[i..][1..][j] == ds[i + 1 + j];
    LastWinsIgnores(m, ds[i..][1..], fp);
  }

  lemma {:induction false} LastWinsIgnores(m: map<string, Delivered>, ds: seq<Delivery>, fp: string)
    requires fp in m && forall j :: 0 <= j < |ds| ==> ds[j].fingerprint != fp
    ensures fp in LastWins(m, ds) && LastWins(m, ds)[fp] == m[fp]
    decreases |ds|
  {
    if ds != [] { LastWinsIgnores(m[ds[0].fingerprint := ds[0].columns], ds[1..], fp); }
  }
}
