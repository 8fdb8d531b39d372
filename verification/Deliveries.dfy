/** What the webhook stores of one payload entry, column by column. */
module Deliveries {
  import opened Wrappers
  import opened Database
  import opened Integrity
  import opened Monitoring
  import opened MonitoringProofs
  import opened Sequences

  // ------------------------------------------------------ the entry's own keys

  /** The entry's label `key` has value `v`; `default` stands in for a missing label. */
  predicate Labelled(raw: RawAlert, key: string, v: string, default: string) {
    if raw.labels.Some? && key in raw.labels.value then v == raw.labels.value[key] else v == default
  }

  predicate Given(o: Option<string>, v: string, default: string) {
    if o.Some? then v == o.value else v == default
  }

  /** `s` is the lower-case word `w`, with any of its letters possibly in upper case. */
  predicate InAnyCase(s: string, w: string) {
    |s| == |w| && forall i :: 0 <= i < |w| ==> s[i] == w[i] || s[i] as int + 32 == w[i] as int
  }

  predicate LowerLetters(w: string) {
    forall i :: 0 <= i < |w| ==> 'a' <= w[i] <= 'z'
  }

  ghost predicate SeverityIs(x: Severity, text: string) {
    && (x == Critical <==> InAnyCase(text, "critical"))
    && (x == Warning <==> InAnyCase(text, "warning"))
    && (x == Resolved <==> InAnyCase(text, "resolved"))
  }

  /** `ip` is the instance up to its first colon. */
  predicate HostOf(instance: string, ip: string) {
    && ':' !in ip && |ip| <= |instance| && instance[..|ip|] == ip
    && (|ip| < |instance| ==> instance[|ip|] == ':')
  }

  /** The device column names a device at the instance's address, or there is none. */
  ghost predicate DeviceIs(device: Option<Id>, devices: map<Id, Device>, instance: string) {
    exists ip :: HostOf(instance, ip)
      && match device
         case Some(d) => d in devices && devices[d].ip == ip
         case None => forall d :: d in devices ==> devices[d].ip != ip
  }

  ghost predicate StampIs(time: Option<int>, s: Stamp) {
    match s
    case Absent => time == None
    case Read(t) => time == t
    case Unreadable => false
  }

  /** The delivered columns are those of the entry. */
  ghost predicate Tells(x: Delivered, raw: RawAlert, devices: map<Id, Device>) {
    && Labelled(raw, "alertname", x.alertName, "Unknown")
    && (exists text :: Labelled(raw, "severity", text, "info") && SeverityIs(x.severity, text))
    && Given(raw.status, x.status, "firing")
    && Labelled(raw, "instance", x.instance, "")
    && DeviceIs(x.device, devices, x.instance)
    && x.labels == (if raw.labels.Some? then raw.labels.value else map[])
    && x.annotations == (if raw.annotations.Some? then raw.annotations.value else map[])
    && StampIs(x.startsAt, raw.startsAt) && StampIs(x.endsAt, raw.endsAt)
    && Given(raw.generatorUrl, x.generatorUrl, "")
  }

  // ---------------------------------------------------------- normalisation

  lemma {:induction false} LowerSpells(s: string, w: string)
    requires LowerLetters(w)
    ensures Lower(s) == w <==> InAnyCase(s, w)
  {
    if s != "" && w != "" {
      LowerSpells(s[1..], w[1..]);
      var c := if 'A' <= s[0] <= 'Z' then (s[0] as int + 32) as char else s[0];
      assert Lower(s) == [c] + Lower(s[1..]) && w == [w[0]] + w[1..];
      assert forall i :: 0 <= i < |w[1..]| ==> w[1..][i] == w[i + 1];
      assert forall i :: 0 <= i < |s[1..]| ==> s[1..][i] == s[i + 1];
      if InAnyCase(s, w) {
        assert s[0] == w[0] || s[0] as int + 32 == w[0] as int;
      }
      if Lower(s) == w {
        assert c == w[0] && Lower(s[1..]) == w[1..];
        forall i | 0 <= i < |w|
          ensures s[i] == w[i] || s[i] as int + 32 == w[i] as int
        {
          if i > 0 { assert s[1..][i - 1] == w[1..][i - 1] || s[1..][i - 1] as int + 32 == w[1..][i - 1] as int; }
        }
      }
    }
  }

  lemma SeverityMeans(raw: string)
    ensures SeverityIs(SeverityOf(raw), raw)
  {
    LowerSpells(raw, "critical");
    LowerSpells(raw, "warning");
    LowerSpells(raw, "resolved");
    hide InAnyCase, Lower;
  }

  lemma {:induction false} HostPartIsHost(instance: string)
    ensures HostOf(instance, HostPart(instance))
  {
    if instance != "" && instance[0] != ':' {
      var rest := HostPart(instance[1..]);
      HostPartIsHost(instance[1..]);
      assert instance[..|rest| + 1] == [instance[0]] + instance[1..][..|rest|];
    }
  }

  /** Every column of a normalised entry comes from its own key of the payload. */
  lemma {:induction false} NormaliseTells(inventory: InventoryTables, raw: RawAlert)
    requires Below(inventory.devices, inventory.next) && Readable(raw)
    ensures Tells(Normalise(inventory, raw).columns, raw, inventory.devices)
    ensures Given(raw.fingerprint, Normalise(inventory, raw).fingerprint, "")
  {
    hide SeverityIs, HostOf, HostPart, SeverityOf, Below;
    var labels := if raw.labels.Some? then raw.labels.value else map[];
    var text, instance := Label(labels, "severity", "info"), Label(labels, "instance", "");
    SeverityMeans(text);
    assert Labelled(raw, "severity", text, "info");
    HostPartIsHost(instance);
    DeviceTells(inventory, instance);
  }

  lemma DeviceTells(inventory: InventoryTables, instance: string)
    requires Below(inventory.devices, inventory.next) && HostOf(instance, HostPart(instance))
    ensures DeviceIs(DeviceAt(inventory.devices, HostPart(instance), inventory.next), inventory.devices, instance)
  {
  }

  // ------------------------------------------------------- what is stored

  /** The columns a webhook does not deliver: old rows keep theirs, new ones start unacknowledged. */
  ghost predicate OwnColumns(before: map<Id, Alert>, after: map<Id, Alert>, now: int) {
    && (forall a :: a in before ==> a in after)
    && forall a :: a in after ==>
         if a in before then after[a] == before[a].(delivered := after[a].delivered)
         else after[a].receivedAt == now && !after[a].acknowledged && after[a].acknowledgedAt == None
  }

  lemma UpsertKeepsOwn(t: MonitoringTables, devices: set<Id>, fp: string, x: Delivered, now: int)
    requires Below(t.alerts, t.next)
    ensures var t' := Upsert(t, devices, fp, x, now).state;
            Below(t'.alerts, t'.next) && OwnColumns(t.alerts, t'.alerts, now)
  {
    hide Known, Single;
  }

  lemma {:induction false} WebhookKeepsOwn(t: MonitoringTables, inventory: InventoryTables, raws: seq<RawAlert>,
      now: int)
    requires Below(t.alerts, t.next)
    ensures OwnColumns(t.alerts, Webhook(t, inventory, raws, now).tables.alerts, now)
    decreases |raws|
  {
    hide Normalise, Upsert, Below;
    if raws != [] && Readable(raws[0]) {
      var x := Normalise(inventory, raws[0]);
      UpsertKeepsOwn(t, inventory.devices.Keys, x.fingerprint, x.columns, now);
      var one := Monitoring.Take(t, inventory, raws[0], now);
      if !one.raised { WebhookKeepsOwn(one.tables, inventory, raws[1..], now); }
    }
  }

  lemma {:induction false} PrefixAt(raws: seq<RawAlert>, i: nat)
    requires i < |Prefix(raws)|
    ensures Prefix(raws)[i] == raws[i] && Readable(raws[i])
  {
    hide Readable;
    if i > 0 { PrefixAt(raws[1..], i - 1); }
  }

  /** What the table holds of an entry after its payload, for the last entry of a fingerprint among those read:
      one row, whose delivered columns are told by the entry's own keys, and whose other columns are its own. */
  lemma {:induction false} LastEntryIsStored(t: MonitoringTables, inventory: InventoryTables, raws: seq<RawAlert>,
                                             now: int, m: map<string, Delivered>, i: nat, fp: string)
    returns (a: Id)
    requires Table(t, m) && Below(inventory.devices, inventory.next)
    requires i < |Prefix(raws)| && Given(raws[i].fingerprint, fp, "")
    requires forall j :: i < j < |Prefix(raws)| ==> !Given(raws[j].fingerprint, fp, "")
    ensures var after := Webhook(t, inventory, raws, now).tables.alerts;
            && a in after && (forall b :: b in after ==> (after[b].fingerprint == fp <==> b == a))
            && Tells(after[a].delivered, raws[i], inventory.devices)
            && OwnColumns(t.alerts, after, now)
  {
    hide Webhook, Normalise, Readable, Tells, Below, OwnColumns;
    var ds := Delivers(inventory, raws);
    WebhookRefinesMap(t, inventory, raws, now, m);
    WebhookKeepsOwn(t, inventory, raws, now) by { TableIsBelow(t, m); }
    forall j | 0 <= j < |ds|
      ensures ds[j] == Normalise(inventory, raws[j]) && Given(raws[j].fingerprint, ds[j].fingerprint, "")
    {
      PrefixAt(raws, j);
      NormaliseTells(inventory, raws[j]);
    }
    PrefixAt(raws, i);
    NormaliseTells(inventory, raws[i]);
    assert ds[i].fingerprint == fp;
    LastWinsIsLast(ds, i);
    LastWinsOver(m, ds);
    a :| a in Hits(Webhook(t, inventory, raws, now).tables.alerts, fp);
  }

  lemma TableIsBelow(t: MonitoringTables, m: map<string, Delivered>)
    requires Table(t, m)
    ensures Below(t.alerts, t.next)
  {
  }
}
