/** The golden flags of one device through every interleaving: what each event does to them, exactly
    when a second one appears, and exactly when a manual choice survives its own request. */
module GoldenFlags {
  import opened Wrappers
  import opened Database
  import opened Integrity
  import opened SecurityTasks
  import opened SecurityRuns
  import opened GoldenHistory

  // ------------------------------------------------------------ flag changes

  function FlagsOf(t: SecurityTables, d: Id): set<Id> {
    set s | s in t.snapshots && t.snapshots[s].device == d && t.snapshots[s].golden
  }

  /** What one event does to the flags of a device. */
  datatype Change = Keep | Clear | Flag(snapshot: Id)

  function Changed(flags: set<Id>, c: Change): set<Id> {
    match c
    case Keep => flags
    case Clear => {}
    case Flag(s) => flags + {s}
  }

  /** What the next statement of a program does to the flags of `d`. */
  function ChangeBy(db: Db, p: Proc, d: Id): Change {
    match p
    case TakeInsert(e, _, golden, _) =>
      if e == d && golden && d in db.inventory.devices then Flag(db.security.next) else Keep
    case DriftPromote(_, s) => FlagIfOwned(db.security, d, s)
    case GoldenSet(_, s) => FlagIfOwned(db.security, d, s)
    case GoldenClear(e, _) => if e == d then Clear else Keep
    case _ => Keep
  }

  function FlagIfOwned(t: SecurityTables, d: Id, s: Id): Change {
    if s in t.snapshots && t.snapshots[s].device == d then Flag(s) else Keep
  }

  function ChangeOf(w: World, e: Event, d: Id): Change {
    match e
    case Spawn(_) => Keep
    case Tick(i) => if i < |w.procs| then ChangeBy(w.db, w.procs[i], d) else Keep
    case Elsewhere(s) =>
      if s.Removal? && s.removal.DeleteDevice? && s.removal.id == d && d in w.db.inventory.devices then Clear else Keep
  }

  /** The changes a run makes to the flags of `d`, one for each event. */
  function Changes(w: World, es: seq<Event>, d: Id): (cs: seq<Change>)
    ensures |cs| == |es|
    decreases |es|
  {
    if es == [] then [] else [ChangeOf(w, es[0], d)] + Changes(Next(w, es[0]), es[1..], d)
  }

  function ChangedBy(flags: set<Id>, cs: seq<Change>): set<Id>
    decreases |cs|
  {
    if cs == [] then flags else ChangedBy(Changed(flags, cs[0]), cs[1..])
  }

  /** One statement of the security application. */
  lemma SendChangesFlags(db: Db, s: SecurityStmt, d: Id)
    requires Numbered(db)
    ensures var t, t' := db.security, Send(db, s).state.security;
            FlagsOf(t', d) == match s
              case InsertSnapshot(x) =>
                if x.device == d && x.golden && d in db.inventory.devices
                then FlagsOf(t, d) + {t.next} else FlagsOf(t, d)
              case SetGolden(k, _) => Changed(FlagsOf(t, d), FlagIfOwned(t, d, k))
              case ClearGolden(e) => if e == d then {} else FlagsOf(t, d)
              case _ => FlagsOf(t, d)
  {
    match s {
      case InsertSnapshot(_) =>
      case ClearGolden(_) =>
      case SetGolden(_, _) =>
      case InsertReport(_) =>
      case InsertRule(_) =>
      case InsertCheck(_) =>
    }
  }

  lemma AdvanceChangesFlags(db: Db, p: Proc, d: Id)
    requires Numbered(db)
    ensures FlagsOf(Advance(db, p).db.security, d) == Changed(FlagsOf(db.security, d), ChangeBy(db, p, d))
  {
    hide DiffLines, Send, FlagsOf, Comparison;
    match p {
      case TakeInsert(e, config, golden, now) =>
          SendChangesFlags(db, InsertSnapshot(Snapshot(e, config, golden, now, "")), d);
      case TakeAudit(e, s, golden) => WriteKeeps(db, Audit(SnapshotTaken, Some(e), true, SnapshotDetail(s, golden)));
      case DriftFailed(e, message) => SendChangesFlags(db, InsertReport(Report(e, None, None, Error, message)), d);
      case DriftInsert(e, config, now, _) =>
          SendChangesFlags(db, InsertSnapshot(Snapshot(e, config, false, now, "")), d);
      case DriftLookup(_, _, _, _) =>
      case DriftPromote(_, s) => SendChangesFlags(db, SetGolden(s, Some(AUTO_NOTE)), d);
      case DriftInit(e, s) => SendChangesFlags(db, InsertReport(Report(e, Some(s), Some(s), Clean, "")), d);
      case DriftCompare(e, s, g, lines) => SendChangesFlags(db, InsertReport(Comparison(e, s, g, lines)), d);
      case DriftAudit(e, report, drift) => WriteKeeps(db, Audit(DriftCheck, Some(e), true, DriftDetail(drift, report)));
      case GoldenClear(e, _) => SendChangesFlags(db, ClearGolden(e), d);
      case GoldenSet(_, s) => SendChangesFlags(db, SetGolden(s, None), d);
      case Done(_) =>
    }
  }

  lemma ForeignChangesFlags(db: Db, s: Stmt, d: Id)
    requires Numbered(db) && Foreign(s)
    ensures FlagsOf(Exec(db, s).state.security, d)
         == if s.Removal? && s.removal.DeleteDevice? && s.removal.id == d && d in db.inventory.devices then {}
            else FlagsOf(db.security, d)
  {
    match s {
      case Inventory(_) =>
      case Security(t) =>
        assert Exec(db, s).state == Send(db, t).state;
        SendChangesFlags(db, t, d);
      case Provisioning(_) =>
      case Monitoring(_) =>
      case Log(_) =>
      case Removal(t) => RemovalChangesFlags(db, t, d);
    }
  }

  lemma RemovalChangesFlags(db: Db, s: RemovalStmt, d: Id)
    requires !s.DeleteSnapshot?
    ensures FlagsOf(ExecRemoval(db, s).state.security, d)
         == if s.DeleteDevice? && s.id == d && d in db.inventory.devices then {} else FlagsOf(db.security, d)
  {
    match s {
      case DeleteDevice(_) =>
      case DeleteRule(_) =>
      case DeleteTemplate(_) =>
      case DeleteJob(_) =>
    }
  }

  lemma NextChangesFlags(w: World, e: Event, d: Id)
    requires Numbered(w.db)
    ensures FlagsOf(Next(w, e).db.security, d) == Changed(FlagsOf(w.db.security, d), ChangeOf(w, e, d))
  {
    hide FlagsOf, Advance, Exec, ChangeBy, Start;
    match e {
      case Spawn(_) =>
      case Tick(i) => if i < |w.procs| { AdvanceChangesFlags(w.db, w.procs[i], d); }
      case Elsewhere(s) => if Foreign(s) { ForeignChangesFlags(w.db, s, d); }
    }
  }

  /** Over every interleaving the flags of a device are what its clears and flaggings leave. */
  lemma {:induction false} PlayChangesFlags(w: World, es: seq<Event>, d: Id)
    requires Sane(w)
    ensures FlagsOf(Play(w, es).db.security, d) == ChangedBy(FlagsOf(w.db.security, d), Changes(w, es, d))
    decreases |es|
  {
    hide FlagsOf, Next, ChangeOf, Changed;
    if es != [] {
      NextChangesFlags(w, es[0], d);
      NextKeepsSane(w, es[0]);
      PlayChangesFlags(Next(w, es[0]), es[1..], d);
    }
  }

  /** `s` is flagged after the changes: flagged by one of them, or before, and not cleared since. */
  ghost predicate Survives(flags: set<Id>, cs: seq<Change>, s: Id) {
    || (s in flags && forall j :: 0 <= j < |cs| ==> !cs[j].Clear?)
    || (exists i :: 0 <= i < |cs| && FlaggedAt(cs, i, s))
  }

  ghost predicate FlaggedAt(cs: seq<Change>, i: nat, s: Id)
    requires i < |cs|
  {
    cs[i] == Flag(s) && forall j :: i < j < |cs| ==> !cs[j].Clear?
  }

  lemma {:induction false} SurvivorsAreFlagged(flags: set<Id>, cs: seq<Change>, s: Id)
    ensures s in ChangedBy(flags, cs) <==> Survives(flags, cs, s)
    decreases |cs|
  {
    if cs != [] {
      var rest := cs[1..];
      var now := Changed(flags, cs[0]);
      SurvivorsAreFlagged(now, rest, s);
      assert forall j :: 0 <= j < |rest| ==> rest[j] == cs[j + 1];
      if Survives(flags, cs, s) {
        if i :| 0 < i < |cs| && FlaggedAt(cs, i, s) { assert FlaggedAt(rest, i - 1, s); }
        assert Survives(now, rest, s);
      }
      if Survives(now, rest, s) {
        if i :| 0 <= i < |rest| && FlaggedAt(rest, i, s) { assert FlaggedAt(cs, i + 1, s); }
        else if cs[0] == Flag(s) { assert FlaggedAt(cs, 0, s); }
      }
    }
  }

  // ------------------------------------------------- at most one, step by step

  /** The change flags a snapshot while another one is flagged. */
  predicate Collides(flags: set<Id>, c: Change) {
    c.Flag? && flags - {c.snapshot} != {}
  }

  lemma OneIsSmall(t: SecurityTables, d: Id)
    ensures AtMostOneGolden(t, d) <==> forall s, r :: s in FlagsOf(t, d) && r in FlagsOf(t, d) ==> s == r
  {
    assert forall s :: s in FlagsOf(t, d) <==> Flagged(t.snapshots, d, s);
  }

  lemma ChangeKeepsOne(flags: set<Id>, c: Change)
    requires forall s, r :: s in flags && r in flags ==> s == r
    ensures (forall s, r :: s in Changed(flags, c) && r in Changed(flags, c) ==> s == r) <==> !Collides(flags, c)
  {
    if Collides(flags, c) {
      var r :| r in flags - {c.snapshot};
      assert r in Changed(flags, c) && c.snapshot in Changed(flags, c);
    }
  }

  /** One statement keeps a device at one golden snapshot exactly unless it flags a snapshot of that device
      while another one is flagged; only a golden take, an automatic promotion and the second statement of
      `set_golden` flag anything. */
  lemma OneGoldenStatement(db: Db, p: Proc, d: Id)
    requires Numbered(db) && AtMostOneGolden(db.security, d)
    ensures AtMostOneGolden(Advance(db, p).db.security, d) <==> !Collides(FlagsOf(db.security, d), ChangeBy(db, p, d))
    ensures ChangeBy(db, p, d).Flag? ==> (p.TakeInsert? && p.setGolden) || p.DriftPromote? || p.GoldenSet?
  {
    hide Advance, FlagsOf, AtMostOneGolden;
    AdvanceChangesFlags(db, p, d);
    OneIsSmall(db.security, d);
    OneIsSmall(Advance(db, p).db.security, d);
    ChangeKeepsOne(FlagsOf(db.security, d), ChangeBy(db, p, d));
  }

  /** Some event of the run flags a snapshot of `d` while another one is flagged. */
  predicate Collision(w: World, es: seq<Event>, d: Id)
    decreases |es|
  {
    es != [] && (Collides(FlagsOf(w.db.security, d), ChangeOf(w, es[0], d)) || Collision(Next(w, es[0]), es[1..], d))
  }

  /** `d` has at most one golden snapshot now and after every event of the run. */
  ghost predicate AlwaysOne(w: World, es: seq<Event>, d: Id)
    decreases |es|
  {
    AtMostOneGolden(w.db.security, d) && (es != [] ==> AlwaysOne(Next(w, es[0]), es[1..], d))
  }

  /** Exactly when "at most one golden at a time" holds throughout an interleaved run: no event flags a
      snapshot while another one is flagged. */
  lemma {:induction false} AlwaysOneExactly(w: World, es: seq<Event>, d: Id)
    requires Sane(w) && AtMostOneGolden(w.db.security, d)
    ensures AlwaysOne(w, es, d) <==> !Collision(w, es, d)
    decreases |es|
  {
    hide Next, ChangeOf, FlagsOf, AtMostOneGolden, Collides;
    if es != [] {
      var next := Next(w, es[0]);
      NextKeepsSane(w, es[0]);
      NextChangesFlags(w, es[0], d);
      OneIsSmall(w.db.security, d);
      OneIsSmall(next.db.security, d);
      ChangeKeepsOne(FlagsOf(w.db.security, d), ChangeOf(w, es[0], d));
      if AtMostOneGolden(next.db.security, d) { AlwaysOneExactly(next, es[1..], d); }
    }
  }

  /** Exactly when it holds at the end of one: no two snapshots were flagged and not cleared since. */
  lemma FinallyOneExactly(w: World, es: seq<Event>, d: Id)
    requires Sane(w)
    ensures AtMostOneGolden(Play(w, es).db.security, d) <==>
            var flags, cs := FlagsOf(w.db.security, d), Changes(w, es, d);
            forall s, r :: Survives(flags, cs, s) && Survives(flags, cs, r) ==> s == r
  {
    hide FlagsOf, AtMostOneGolden, Survives, Play, Changes;
    var flags, cs := FlagsOf(w.db.security, d), Changes(w, es, d);
    PlayChangesFlags(w, es, d);
    OneIsSmall(Play(w, es).db.security, d);
    forall s
      ensures s in ChangedBy(flags, cs) <==> Survives(flags, cs, s)
    {
      SurvivorsAreFlagged(flags, cs, s);
    }
  }

  // ------------------------------------------------ two overlapping requests

  lemma ClearStep(db: Db, d: Id, s: Id)
    ensures Advance(db, GoldenClear(d, s)).proc == GoldenSet(d, s)
    ensures Advance(db, GoldenClear(d, s)).db.security.snapshots == ClearFlags(db.security.snapshots, d)
  {
  }

  /** The two programs of two `set_golden` requests, run clear, clear, set, set. */
  lemma TwoRequests(db: Db, d: Id, s: Id, r: Id)
    requires s in db.security.snapshots && r in db.security.snapshots
    requires db.security.snapshots[s].device == d && db.security.snapshots[r].device == d
    ensures var one := Advance(db, GoldenClear(d, s));
            var two := Advance(one.db, GoldenClear(d, r));
            var three := Advance(two.db, one.proc);
            var four := Advance(three.db, two.proc);
            && three.proc == Done(Promoted) && four.proc == Done(Promoted)
            && Flagged(four.db.security.snapshots, d, s) && Flagged(four.db.security.snapshots, d, r)
  {
    hide Advance;
    ClearStep(db, d, s);
    var one := Advance(db, GoldenClear(d, s));
    ClearStep(one.db, d, r);
    var two := Advance(one.db, GoldenClear(d, r));
    SetFlags(two.db, d, s, s);
    var three := Advance(two.db, one.proc);
    SetFlags(three.db, d, r, s);
    SetFlags(three.db, d, r, r);
  }

  lemma SetFlags(db: Db, d: Id, s: Id, r: Id)
    requires s in db.security.snapshots && db.security.snapshots[s].device == d
    ensures var after := Advance(db, GoldenSet(d, s));
            && after.proc == Done(Promoted)
            && Flagged(after.db.security.snapshots, d, s)
            && (Flagged(db.security.snapshots, d, r) ==> Flagged(after.db.security.snapshots, d, r))
            && after.db.security.snapshots == db.security.snapshots[s := db.security.snapshots[s].(golden := true)]
  {
  }

  /** Two overlapping `set_golden` requests leave two golden snapshots, although no snapshot was taken as
      golden: both clear, then both set. */
  lemma OverlappingRequests(w: World, d: Id, s: Id, r: Id)
    requires w.procs == [] && s != r && s in w.db.security.snapshots && r in w.db.security.snapshots
    requires w.db.security.snapshots[s].device == d && w.db.security.snapshots[r].device == d
    ensures var w' := Play(w, [Spawn(Promote(s)), Spawn(Promote(r)), Tick(0), Tick(1), Tick(0), Tick(1)]);
            Quiet(w') && !AtMostOneGolden(w'.db.security, d)
  {
    hide Advance;
    var db := w.db;
    TwoRequests(db, d, s, r);
    var p, q := GoldenClear(d, s), GoldenClear(d, r);
    ClearStep(db, d, s);
    var one := Advance(db, p);
    ClearStep(one.db, d, r);
    var two := Advance(one.db, q);
    var three := Advance(two.db, one.proc);
    var four := Advance(three.db, two.proc);
    TwoSpawns(w, s, r);
    TwoTicks(db, p, q);
    TwoTicks(two.db, one.proc, two.proc);
    hide Next;
    PlaysTwo(w, Spawn(Promote(s)), Spawn(Promote(r)), [Tick(0), Tick(1), Tick(0), Tick(1)]);
    PlaysTwo(World(db, [p, q]), Tick(0), Tick(1), [Tick(0), Tick(1)]);
    PlaysTwo(World(two.db, [one.proc, two.proc]), Tick(0), Tick(1), []);
  }

  lemma TwoSpawns(w: World, s: Id, r: Id)
    requires w.procs == [] && s in w.db.security.snapshots && r in w.db.security.snapshots
    ensures var rows := w.db.security.snapshots;
            Next(Next(w, Spawn(Promote(s))), Spawn(Promote(r)))
            == World(w.db, [GoldenClear(rows[s].device, s), GoldenClear(rows[r].device, r)])
  {
  }

  lemma TwoTicks(db: Db, p: Proc, q: Proc)
    ensures var one := Advance(db, p);
            var two := Advance(one.db, q);
            Next(Next(World(db, [p, q]), Tick(0)), Tick(1)) == World(two.db, [one.proc, two.proc])
  {
    hide Advance;
  }

  lemma PlaysTwo(w: World, x: Event, y: Event, rest: seq<Event>)
    ensures Play(w, [x, y] + rest) == Play(Next(Next(w, x), y), rest)
  {
    hide Next;
    assert ([x, y] + rest)[1..] == [y] + rest && ([y] + rest)[1..] == rest;
  }

  // --------------------------------------------------- does the choice stand?

  /** After flagging `s` the query answers `s` exactly when every other flagged snapshot of its device
      comes before it. */
  lemma ChosenIsLatestExactly(db: Db, s: Id)
    requires Below(db.security.snapshots, db.security.next) && s in db.security.snapshots
    ensures var rows, d := db.security.snapshots, db.security.snapshots[s].device;
            Latest(Send(db, SetGolden(s, None)).state.security, d) == Some(s) <==>
            forall r :: Flagged(rows, d, r) && r != s ==> Before(rows, r, s)
  {
    var rows, d := db.security.snapshots, db.security.snapshots[s].device;
    var t := Send(db, SetGolden(s, None)).state.security;
    assert t.snapshots == rows[s := rows[s].(golden := true)] && t.next == db.security.next;
    LatestIsLast(t.snapshots, d, t.next);
    assert Flagged(t.snapshots, d, s);
    forall r | r in rows && r != s
      ensures Flagged(t.snapshots, d, r) <==> Flagged(rows, d, r)
      ensures Before(t.snapshots, r, s) <==> Before(rows, r, s)
    {
    }
    var found := Latest(t, d).value;
    if found != s { assert Before(t.snapshots, s, found); }
  }

  lemma {:induction false} ProgramWaits(w: World, es: seq<Event>, i: nat)
    requires i < |w.procs| && forall k :: 0 <= k < |es| ==> es[k] != Tick(i)
    ensures i < |Play(w, es).procs| && Play(w, es).procs[i] == w.procs[i]
    decreases |es|
  {
    hide Advance, Exec, Start;
    if es != [] {
      assert forall k :: 0 <= k < |es[1..]| ==> es[1..][k] == es[k + 1];
      ProgramWaits(Next(w, es[0]), es[1..], i);
    }
  }

  /** The world in which request `i` has cleared its device and is about to set its snapshot. */
  function Cleared(w: World, i: nat): World
    requires i < |w.procs|
  {
    Next(w, Tick(i))
  }

  lemma ClearedWorld(w: World, i: nat)
    requires Sane(w) && i < |w.procs| && w.procs[i].GoldenClear?
    ensures var p, w' := w.procs[i], Cleared(w, i);
            && Sane(w') && i < |w'.procs| && w'.procs[i] == GoldenSet(p.device, p.snapshot)
            && FlagsOf(w'.db.security, p.device) == {}
  {
    hide Advance, FlagsOf, Sane;
    NextKeepsSane(w, Tick(i));
    var p := w.procs[i];
    ClearStep(w.db, p.device, p.snapshot);
    AdvanceChangesFlags(w.db, p, p.device) by { SaneIsNumbered(w); }
  }

  lemma SaneIsNumbered(w: World)
    requires Sane(w)
    ensures Numbered(w.db)
  {
  }

  lemma WaitingOwns(w: World, i: nat)
    requires Sane(w) && i < |w.procs| && w.procs[i].GoldenSet? && w.procs[i].device in w.db.inventory.devices
    ensures Owns(w.db.security, w.procs[i].device, w.procs[i].snapshot)
  {
    hide Numbered, AllTruthful;
  }

  /** A manual choice in an interleaved run: let anything happen between the two statements of a
      `set_golden` request. The chosen snapshot is the baseline afterwards exactly when every other snapshot
      that was flagged in between, and not cleared again, was taken before it. */
  lemma {:induction false} ChoiceStandsExactly(w: World, i: nat, gap: seq<Event>)
    requires Sane(w) && i < |w.procs| && w.procs[i].GoldenClear?
    requires forall k :: 0 <= k < |gap| ==> gap[k] != Tick(i)
    requires w.procs[i].device in Play(Cleared(w, i), gap).db.inventory.devices
    ensures var d, s := w.procs[i].device, w.procs[i].snapshot;
            var before := Play(Cleared(w, i), gap);
            var rows, cs := before.db.security.snapshots, Changes(Cleared(w, i), gap, d);
            && s in rows
            && (forall r :: Survives({}, cs, r) ==> r in rows)
            && (Latest(Next(before, Tick(i)).db.security, d) == Some(s) <==>
                 forall r :: Survives({}, cs, r) && r != s ==> Before(rows, r, s))
  {
    var d, s, w1 := w.procs[i].device, w.procs[i].snapshot, Cleared(w, i);
    ClearedWorld(w, i);
    PlayKeepsSane(w1, gap);
    ProgramWaits(w1, gap, i);
    var before := Play(w1, gap);
    var cs := Changes(w1, gap, d);
    WaitingOwns(before, i);
    SaneIsNumbered(before);
    PlayChangesFlags(w1, gap, d);
    forall r
      ensures Survives({}, cs, r) <==> Flagged(before.db.security.snapshots, d, r)
    {
      SurvivorsAreFlagged({}, cs, r);
      assert r in FlagsOf(before.db.security, d) <==> Flagged(before.db.security.snapshots, d, r);
    }
    ChosenIsLatestExactly(before.db, s);
    assert Next(before, Tick(i)).db == Send(before.db, SetGolden(s, None)).state;
  }

  /** A whole drift check in the gap steals the baseline unless its clock stands before the chosen snapshot:
      its own snapshot is promoted, and stays flagged beside the chosen one. */
  lemma GapStealsBaseline(db: Db, s: Id, config: string, now: int, labels: Labels)
    requires s in db.security.snapshots && db.security.snapshots[s].device in db.inventory.devices
    requires Below(db.security.snapshots, db.security.next)
    ensures var d := db.security.snapshots[s].device;
            var cleared := Send(db, ClearGolden(d)).state;
            var checked := Whole(cleared, Drift(d, Ok(config), now, labels)).db;
            var after := Send(checked, SetGolden(s, None)).state;
            && Flagged(after.security.snapshots, d, s) && Flagged(after.security.snapshots, d, db.security.next)
            && Latest(after.security, d) == Some(if now < db.security.snapshots[s].takenAt then s else db.security.next)
  {
    hide DiffLines, RanDrift, Whole;
    var d, n := db.security.snapshots[s].device, db.security.next;
    var cleared := Send(db, ClearGolden(d)).state;
    var q := Drift(d, Ok(config), now, labels);
    var rows := cleared.security.snapshots;
    assert rows == ClearFlags(db.security.snapshots, d);
    LatestIsLast(rows, d, n);
    WholeStores(cleared, q);
    var checked := Whole(cleared, q).db;
    var rows' := checked.security.snapshots;
    assert rows' == rows[n := Snapshot(d, config, true, now, AUTO_NOTE)];
    assert forall r :: Flagged(rows', d, r) <==> r == n;
    ChosenIsLatestExactly(checked, s);
    var t := Send(checked, SetGolden(s, None)).state.security;
    assert Flagged(t.snapshots, d, n) && Flagged(t.snapshots, d, s);
    LatestIsLast(t.snapshots, d, t.next);
  }
}
