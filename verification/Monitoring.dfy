/** The AlertManager webhook: keyed upserts over payloads of any length. */
module Monitoring {
  import opened Wrappers
  import opened Database

  /** A time label: absent or empty, parsed (to nothing if it is not a date), or one
      `parse_datetime` raises on. */
  datatype Stamp = Absent | Read(time: Option<int>) | Unreadable

  /** One entry of the payload's `alerts`; every key may be missing. */
  datatype RawAlert = RawAlert(
    fingerprint: Option<string>, status: Option<string>,
    labels: Option<map<string, string>>, annotations: Option<map<string, string>>,
    startsAt: Stamp, endsAt: Stamp, generatorUrl: Option<string>)

  datatype Delivery = Delivery(fingerprint: string, columns: Delivered)

  // -------------------------------------------------------- normalisation

  function Label(labels: map<string, string>, key: string, default: string): string {
    if key in labels then labels[key] else default
  }

  function Lower(s: string): (r: string)
    ensures |r| == |s|
  {
    if s == "" then ""
    else [if 'A' <= s[0] <= 'Z' then (s[0] as int + 32) as char else s[0]] + Lower(s[1..])
  }

  /** Unknown severities count as informational. */
  function SeverityOf(raw: string): Severity {
    var s := Lower(raw);
    if s == "critical" then Critical
    else if s == "warning" then Warning
    else if s == "resolved" then Resolved
    else Info
  }

  /** `instance.split(":")[0]` */
  function HostPart(instance: string): string {
    if instance == "" || instance[0] == ':' then "" else [instance[0]] + HostPart(instance[1..])
  }

  /** `Device.objects.filter(ip_address=ip).first()` among keys below `n` */
  function DeviceAt(devices: map<Id, Device>, ip: string, n: Id): (r: Option<Id>)
    ensures r.Some? ==> r.value < n && r.value in devices && devices[r.value].ip == ip
    ensures r.None? ==> forall d: Id :: d < n && d in devices ==> devices[d].ip != ip
  {
    if n == 0 then None
    else if n - 1 in devices && devices[n - 1].ip == ip then Some(n - 1)
    else DeviceAt(devices, ip, n - 1)
  }

  function Time(s: Stamp): Option<int> {
    if s.Read? then s.time else None
  }

  predicate Readable(raw: RawAlert) {
    !raw.startsAt.Unreadable? && !raw.endsAt.Unreadable?
  }

  /** The fingerprint and columns one entry delivers. */
  function Normalise(inventory: InventoryTables, raw: RawAlert): Delivery {
    var labels := if raw.labels.Some? then raw.labels.value else map[];
    var instance := Label(labels, "instance", "");
    Delivery(
      if raw.fingerprint.Some? then raw.fingerprint.value else "",
      Delivered(
        Label(labels, "alertname", "Unknown"),
        SeverityOf(Label(labels, "severity", "info")),
        if raw.status.Some? then raw.status.value else "firing",
        DeviceAt(inventory.devices, HostPart(instance), inventory.next),
        instance, labels,
        if raw.annotations.Some? then raw.annotations.value else map[],
        Time(raw.startsAt), Time(raw.endsAt),
        if raw.generatorUrl.Some? then raw.generatorUrl.value else ""))
  }

  // ------------------------------------------------------------- ingestion

  /** Where the loop stands after some entries; an exception ends it and keeps what was stored. */
  datatype Ingest = Ingest(tables: MonitoringTables, created: nat, raised: bool)

  function Take(t: MonitoringTables, inventory: InventoryTables, raw: RawAlert, now: int): Ingest {
    if !Readable(raw) then Ingest(t, 0, true)
    else
      var x := Normalise(inventory, raw);
      var r := Upsert(t, inventory.devices.Keys, x.fingerprint, x.columns, now);
      Ingest(r.state, if r.outcome.Created? then 1 else 0, r.outcome.Raised?)
  }

  function Webhook(t: MonitoringTables, inventory: InventoryTables, raws: seq<RawAlert>, now: int): Ingest
    decreases |raws|
  {
    if raws == [] then Ingest(t, 0, false)
    else
      var one := Take(t, inventory, raws[0], now);
      if one.raised then one
      else
        var rest := Webhook(one.tables, inventory, raws[1..], now);
        rest.(created := one.created + rest.created)
  }

  datatype Response = Accepted(received: nat, created: nat) | BadRequest | ServerError

  method AlertmanagerWebhook(store: Store, payload: Option<seq<RawAlert>>, now: int) returns (response: Response)
    modifies store
    ensures var ran := if payload.None? then Ingest(old(store.db).monitoring, 0, false)
                       else Webhook(old(store.db).monitoring, old(store.db).inventory, payload.value, now);
            && store.db == old(store.db).(monitoring := ran.tables)
            && response == if payload.None? then BadRequest
                           else if ran.raised then ServerError
                           else Accepted(|payload.value|, ran.created)
  {
    hide Normalise, Upsert, Readable;
    if payload.None? { return BadRequest; }
    var alerts := payload.value;
    var createdCount := 0;
    var i := 0;
    ghost var was := store.db;
    while i < |alerts|
      invariant 0 <= i <= |alerts|
      invariant store.db == was.(monitoring := store.db.monitoring)
      invariant var all := Webhook(was.monitoring, was.inventory, alerts, now);
                var rest := Webhook(store.db.monitoring, was.inventory, alerts[i..], now);
                all == rest.(created := createdCount + rest.created)
    {
      assert alerts[i..][0] == alerts[i] && alerts[i..][1..] == alerts[i + 1..];
      if !Readable(alerts[i]) { return ServerError; }
      var x := Normalise(store.db.inventory, alerts[i]);
      var outcome := store.Execute(Database.Monitoring(UpsertAlert(x.fingerprint, x.columns, now)));
      if outcome.Raised? { return ServerError; }
      if outcome.Created? { createdCount := createdCount + 1; }
      i := i + 1;
    }
    return Accepted(|alerts|, createdCount);
  }

  /** `AlertViewSet.acknowledge`: a missing alert is not found, any other gets its two columns. */
  method AcknowledgeAlert(store: Store, id: Id, now: int) returns (found: bool)
    modifies store
    ensures found == (id in old(store.db).monitoring.alerts)
    ensures store.db == if found then Exec(old(store.db), Database.Monitoring(Acknowledge(id, now))).state
        else old(store.db)
  {
    if id !in store.db.monitoring.alerts { return false; }
    var outcome := store.Execute(Database.Monitoring(Acknowledge(id, now)));
    return true;
  }

  // ------------------------------------------------------------- dashboard

  function Firing(alerts: map<Id, Alert>): set<Id> {
    set a | a in alerts && alerts[a].delivered.status == "firing"
  }

  function FiringCritical(alerts: map<Id, Alert>): set<Id> {
    set a | a in alerts && alerts[a].delivered.status == "firing" && alerts[a].delivered.severity == Critical
  }
}
