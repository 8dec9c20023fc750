/**
 The consumer's load while others hold the locks it needs. Under READ COMMITTED the statement takes its
 snapshot, waits for the device rows, and then pairs the devices as they are now with the state rows of
 the snapshot. Runs with such waits are proved to be runs of the protocol, so that everything proved of
 those holds here, unless a device with a flag set was changed within a wait and is monitored after it.
 */
module ReadCommitted {
  import opened Heartbeats
  import opened JobQueue
  import opened Tables
  import opened TableInvariants
  import opened Settings
  import opened Protocol
  import opened ProtocolInvariant
  import opened Delivery
  import opened Trace
  import opened Flags
  import opened Backing

  /** A step at once, or a consumer's transaction whose load waits while others act. */
  datatype Turn = Direct(action: Action) | Waiting(during: seq<Action>, action: Action)

  /** What can happen while the consumer waits. */
  predicate ByOthers(a: Action) {
    !a.Beat? && !a.StaleScan? && !a.Crash? && !a.Restart?
  }

  predicate WellFormed(t: Turn) {
    t.Waiting? ==> (t.action.Beat? || t.action.StaleScan?) && forall a :: a in t.during ==> ByOthers(a)
  }

  /** The rows a load returns: of the devices that are loadable before and after the wait, as they were before. */
  function Joined(before: Db, now: Db): map<string, StateRow> {
    map d | d in Loaded(before) && d in Loaded(now) :: before.states[d]
  }

  /** The notes of a stale check that walks the given rows. */
  function RememberedNotes(db: Db, memory: map<string, StateRow>, order: seq<string>, now: real, threshold: real,
                           mes: set<string>): seq<Note>
    decreases |order|
  {
    if order == [] then []
    else
      var d := order[0];
      var row := Lookup(memory, d);
      if row.None? || !Overdue(row.value, now, threshold) then
        RememberedNotes(db, memory, order[1..], now, threshold, mes)
      else if !Accepts(db, d, d in mes) then
        RememberedNotes(Registered(db, d), memory, order[1..], now, threshold, mes)
      else
        [Accepted(d, Missing, row.value.hb.Sig())]
        + RememberedNotes(StaleMarked(Enqueued(db, row.value.hb, Missing, now), d),
                          memory[d := row.value.(stale := true)], order[1..], now, threshold, mes)
  }

  /** The consumer's transaction on the tables it finds, with the rows it has read. */
  function WithRows(cfg: Config, c: Core, rows: map<string, StateRow>, a: Action): Core {
    match a
    case Beat(hb, now, m1, m2, commit) =>
      if c.up && commit then BeatStep(c, Lookup(rows, hb.device), hb, now, m1, m2) else c
    case StaleScan(order, now, mes, commit) =>
      if c.up && commit then
        Grown(c, RememberedScan(c.db, rows, order, now, cfg.staleAfter, mes).0,
              RememberedNotes(c.db, rows, order, now, cfg.staleAfter, mes))
      else c
    case _ => c
  }

  function TurnStep(cfg: Config, c: Core, t: Turn): Core {
    match t
    case Direct(a) => Step(cfg, c, a)
    case Waiting(during, a) =>
      var c1 := Run(cfg, c, during);
      WithRows(cfg, c1, Joined(c.db, c1.db), a)
  }

  function RunTurns(cfg: Config, c: Core, turns: seq<Turn>): Core
    decreases |turns|
  {
    if turns == [] then c else RunTurns(cfg, TurnStep(cfg, c, turns[0]), turns[1..])
  }

  /** The device had a flag set, was changed within the wait, and is monitored after it. */
  predicate Revived(c: Core, c1: Core, d: string) {
    && d in Joined(c.db, c1.db) && (c.db.states[d].stale || c.db.states[d].alert)
    && EpochOf(c1.epochs, d) != EpochOf(c.epochs, d) && Monitored(c1.db, d)
  }

  /** No heartbeat of the run is of a device revived within the wait of its own load. */
  predicate Unrevived(cfg: Config, c: Core, turns: seq<Turn>)
    decreases |turns|
  {
    turns == [] ||
    (&& (turns[0].Waiting? && turns[0].action.Beat? ==>
           !Revived(c, Run(cfg, c, turns[0].during), turns[0].action.hb.device))
     && Unrevived(cfg, TurnStep(cfg, c, turns[0]), turns[1..]))
  }

  // ----- what others do to one device -----

  predicate FlagsOff(row: StateRow) {
    !row.stale && !row.alert
  }

  /** Without an effective change the device's setting and row are what they were; with one its flags are off. */
  ghost predicate Followed(c: Core, c1: Core, d: string) {
    && (d in c1.db.devices <==> d in c.db.devices) && (d in c1.db.states <==> d in c.db.states)
    && EpochOf(c1.epochs, d) >= EpochOf(c.epochs, d)
    && (d in c.db.states ==>
          c1.db.states[d] == c.db.states[d]
          || c1.db.states[d] == c.db.states[d].(stale := false, alert := false))
    && (EpochOf(c1.epochs, d) == EpochOf(c.epochs, d) ==>
          && Lookup(c1.db.states, d) == Lookup(c.db.states, d)
          && (Deleted(c1.db, d) <==> Deleted(c.db, d)))
    && (EpochOf(c1.epochs, d) != EpochOf(c.epochs, d) && d in c1.db.states ==> FlagsOff(c1.db.states[d]))
  }

  lemma ManageFollowed(c: Core, r: Request, d: string)
    ensures Followed(c, ManageStep(c, r), d)
  {
    ManageStates(c, r);
  }

  lemma StepFollowed(cfg: Config, c: Core, a: Action, d: string)
    requires ByOthers(a)
    ensures Followed(c, Step(cfg, c, a), d) && Step(cfg, c, a).up == c.up
  {
    match a
    case Manage(r) => ManageFollowed(c, r, d);
    case _ => WorkerStepFrame(cfg, c, a);
  }

  lemma {:induction false} WaitFollowed(cfg: Config, c: Core, during: seq<Action>, d: string)
    requires forall a :: a in during ==> ByOthers(a)
    ensures Followed(c, Run(cfg, c, during), d) && Run(cfg, c, during).up == c.up
    decreases |during|
  {
    if during != [] {
      var c1 := Step(cfg, c, during[0]);
      StepFollowed(cfg, c, during[0], d);
      WaitFollowed(cfg, c1, during[1..], d);
    }
  }

  // ----- a heartbeat after a wait -----

  lemma WaitingBeat(cfg: Config, c: Core, during: seq<Action>, hb: Heartbeat, now: real, m1: bool, m2: bool)
    requires Inv(cfg, c) && forall a :: a in during ==> ByOthers(a)
    requires !Revived(c, Run(cfg, c, during), hb.device)
    ensures var c1 := Run(cfg, c, during);
            BeatStep(c1, Lookup(Joined(c.db, c1.db), hb.device), hb, now, m1, m2)
            == BeatStep(c1, Lookup(Loaded(c1.db), hb.device), hb, now, m1, m2)
  {
    var c1, d := Run(cfg, c, during), hb.device;
    WaitFollowed(cfg, c, during, d);
    var read, row := Lookup(Joined(c.db, c1.db), d), Lookup(Loaded(c1.db), d);
    if row.Some? && read != row {
      if !Monitored(c1.db, d) {
      } else if read.None? {
      }
    }
  }

  // ----- a stale check after a wait -----

  /** The walked rows are the stored ones, except that a cleared flag may still be set in them. */
  ghost predicate Walkable(db: Db, rows: map<string, StateRow>) {
    forall d :: d in rows ==>
      && d in Loaded(db)
      && rows[d].hb == db.states[d].hb && rows[d].lastSeen == db.states[d].lastSeen
      && (db.states[d].stale ==> rows[d].stale)
  }

  /** Walking them is the check of the stored rows for some of the devices: one that was read as flagged is
      skipped, and judged by the next check. */
  lemma {:induction false} WaitingWalk(db: Db, rows: map<string, StateRow>, order: seq<string>, now: real,
                                       threshold: real, mes: set<string>) returns (seen: seq<string>)
    requires TablesOk(db) && Walkable(db, rows)
    ensures RememberedScan(db, rows, order, now, threshold, mes).0 == Scanned(db, seen, now, threshold, mes)
    ensures RememberedNotes(db, rows, order, now, threshold, mes) == ScanNotes(db, seen, now, threshold, mes)
    ensures forall d :: d in seen ==> d in order
    decreases |order|
  {
    seen := [];
    if order != [] {
      var d := order[0];
      var row := Lookup(rows, d);
      if row.None? || !Overdue(row.value, now, threshold) || !Accepts(db, d, d in mes) {
        assert row.Some? ==> Registered(db, d) == db;
        seen := WaitingWalk(db, rows, order[1..], now, threshold, mes);
      } else {
        var db' := ScannedOne(db, d, now, threshold, mes);
        ScannedOneKeeps(db, d, now, threshold, mes);
        assert db' == StaleMarked(Enqueued(db, row.value.hb, Missing, now), d);
        var rest := WaitingWalk(db', rows[d := row.value.(stale := true)], order[1..], now, threshold, mes);
        seen := [d] + rest;
        assert seen[1..] == rest;
        assert ScanNote(db, d, now, threshold, mes) == [Accepted(d, Missing, row.value.hb.Sig())];
      }
    }
  }

  lemma JoinedIsWalkable(cfg: Config, c: Core, during: seq<Action>)
    requires forall a :: a in during ==> ByOthers(a)
    ensures Walkable(Run(cfg, c, during).db, Joined(c.db, Run(cfg, c, during).db))
  {
    var c1 := Run(cfg, c, during);
    forall d | d in Joined(c.db, c1.db)
      ensures c.db.states[d].hb == c1.db.states[d].hb && c.db.states[d].lastSeen == c1.db.states[d].lastSeen
      ensures c1.db.states[d].stale ==> c.db.states[d].stale
    {
      WaitFollowed(cfg, c, during, d);
    }
  }

  // ----- runs -----

  /** A turn is a few steps of the protocol; its heartbeat, if it has one, is the turn's. */
  lemma TurnIsSteps(cfg: Config, c: Core, t: Turn) returns (actions: seq<Action>)
    requires ValidConfig(cfg) && Inv(cfg, c) && WellFormed(t)
    requires t.Waiting? && t.action.Beat? ==> !Revived(c, Run(cfg, c, t.during), t.action.hb.device)
    ensures TurnStep(cfg, c, t) == Run(cfg, c, actions)
    ensures forall a :: a in actions && a.Beat? ==> a == t.action
  {
    match t
    case Direct(a) =>
      actions := [a];
      RunOne(cfg, c, a);
    case Waiting(during, a) =>
      var c1 := Run(cfg, c, during);
      RunKeeps(cfg, c, during);
      var last := a;
      match a {
        case Beat(hb, now, m1, m2, commit) => WaitingBeat(cfg, c, during, hb, now, m1, m2);
        case StaleScan(order, now, mes, commit) =>
          JoinedIsWalkable(cfg, c, during);
          var seen := WaitingWalk(c1.db, Joined(c.db, c1.db), order, now, cfg.staleAfter, mes);
          ScanMatchesTables(c1.db, Loaded(c1.db), seen, now, cfg.staleAfter, mes);
          last := StaleScan(seen, now, mes, commit);
      }
      actions := during + [last];
      RunSplits(cfg, c, during, [last]);
      RunOne(cfg, c1, last);
  }

  /** Every run with waits, in which no heartbeat is of a device revived within the wait of its own load, is a run
      of the protocol with the same heartbeats. */
  lemma {:induction false} WaitingRunsAreRuns(cfg: Config, c: Core, turns: seq<Turn>) returns (actions: seq<Action>)
    requires ValidConfig(cfg) && Inv(cfg, c) && Unrevived(cfg, c, turns)
    requires forall t :: t in turns ==> WellFormed(t)
    ensures RunTurns(cfg, c, turns) == Run(cfg, c, actions)
    ensures forall a :: a in actions && a.Beat? ==> exists t :: t in turns && t.action == a
    decreases |turns|
  {
    actions := [];
    if turns != [] {
      assert turns[0] in turns;
      var first := TurnIsSteps(cfg, c, turns[0]);
      var c1 := TurnStep(cfg, c, turns[0]);
      RunKeeps(cfg, c, first);
      var rest := WaitingRunsAreRuns(cfg, c1, turns[1..]);
      RunSplits(cfg, c, first, rest);
      actions := first + rest;
    }
  }

  /** So the laws of the flags hold of them: the flags are what the history has open, the history is lawful, and
      where no device id holds a colon every flag is backed. */
  lemma WaitingRunsKeepTheLaws(cfg: Config, turns: seq<Turn>)
    requires ValidConfig(cfg) && Unrevived(cfg, INITIAL, turns)
    requires forall t :: t in turns ==> WellFormed(t)
    ensures var c := RunTurns(cfg, INITIAL, turns);
            && Inv(cfg, c) && FlagsMatch(c.db, c.trace) && Lawful(c.trace)
            && ((forall t :: t in turns && t.action.Beat? ==> ColonFree(t.action.hb.device)) ==> FlagsBacked(c.db))
  {
    Reachable(cfg, []);
    assert Run(cfg, INITIAL, []) == INITIAL;
    var actions := WaitingRunsAreRuns(cfg, INITIAL, turns);
    Reachable(cfg, actions);
    FlagsFollowTheHistory(cfg, actions);
    if forall t :: t in turns && t.action.Beat? ==> ColonFree(t.action.hb.device) {
      ColonFreeRunsAreBacked(cfg, actions);
      BackedToTheEnd(cfg, INITIAL, actions);
    }
  }

  // ----- the excluded family is real -----

  /** An alert is queued and flagged; while the next load waits, the device is disabled and enabled again; then the
      same report comes once more, and MES would say no. */
  function RevivingTurns(h: Heartbeat): seq<Turn> {
    [Direct(Restart(0.0)), Direct(Beat(h, 0.0, true, true, true)),
     Waiting([Manage(Monitoring(h.device, false, "")), Manage(Monitoring(h.device, true, ""))],
             Beat(h, 1.0, false, false, true))]
  }

  /** After that run the alert flag is set and the only job is cancelled. */
  lemma RevivedRowLeavesAFlagUnbacked(cfg: Config, h: Heartbeat)
    requires h.level != Up
    ensures !FlagsBacked(RunTurns(cfg, INITIAL, RevivingTurns(h)).db)
  {
    var turns := RevivingTurns(h);
    ThreeTurns(cfg, INITIAL, turns[0], turns[1], turns[2]);
    AfterTheWait(cfg, Step(cfg, Step(cfg, INITIAL, Restart(0.0)), Beat(h, 0.0, true, true, true)), h);
  }

  /** The tables with one device, its row and its job. */
  function OneDevice(h: Heartbeat, device: Device, row: StateRow, job: Job): Db {
    Db(map[h.device := device], map[h.device := row], [job])
  }

  lemma Disabled(c: Core, h: Heartbeat)
    requires c.db == OneDevice(h, NEW_DEVICE, StateRow(h, 0.0, false, true), NewJob(h, Alert, 0.0))
    ensures ManageStep(c, Monitoring(h.device, false, "")).db
         == OneDevice(h, Device(false, false, ""), StateRow(h, 0.0, false, false),
                      NewJob(h, Alert, 0.0).(status := Cancelled))
  {
    var db' := ManageStep(c, Monitoring(h.device, false, "")).db;
    assert db'.queue == [NewJob(h, Alert, 0.0).(status := Cancelled)];
  }

  lemma DisabledAndEnabled(cfg: Config, c: Core, h: Heartbeat)
    requires c.db == OneDevice(h, NEW_DEVICE, StateRow(h, 0.0, false, true), NewJob(h, Alert, 0.0)) && c.worker == Idle
    ensures var c' := Run(cfg, c, [Manage(Monitoring(h.device, false, "")), Manage(Monitoring(h.device, true, ""))]);
            && c'.up == c.up
            && c'.db == OneDevice(h, NEW_DEVICE, StateRow(h, 0.0, false, false),
                                  NewJob(h, Alert, 0.0).(status := Cancelled))
  {
    var off, on := Manage(Monitoring(h.device, false, "")), Manage(Monitoring(h.device, true, ""));
    Disabled(c, h);
    RunSplits(cfg, c, [off], [on]);
    RunOne(cfg, c, off);
    RunOne(cfg, Step(cfg, c, off), on);
    assert [off] + [on] == [off, on];
  }

  lemma ThreeTurns(cfg: Config, c: Core, t: Turn, u: Turn, v: Turn)
    ensures RunTurns(cfg, c, [t, u, v]) == TurnStep(cfg, TurnStep(cfg, TurnStep(cfg, c, t), u), v)
  {
    var c2 := TurnStep(cfg, TurnStep(cfg, c, t), u);
    assert [t, u, v][1..] == [u, v] && [u, v][1..] == [v] && [v][1..] == [];
    assert RunTurns(cfg, c2, [v]) == RunTurns(cfg, TurnStep(cfg, c2, v), []);
    assert RunTurns(cfg, TurnStep(cfg, c, t), [u, v]) == RunTurns(cfg, c2, [v]);
  }

  lemma AfterTheWait(cfg: Config, c: Core, h: Heartbeat)
    requires c.db == OneDevice(h, NEW_DEVICE, StateRow(h, 0.0, false, true), NewJob(h, Alert, 0.0))
    requires h.level != Up && c.worker == Idle && c.up
    ensures !FlagsBacked(TurnStep(cfg, c, RevivingTurns(h)[2]).db)
  {
    var c1 := Run(cfg, c, RevivingTurns(h)[2].during);
    DisabledAndEnabled(cfg, c, h);
    assert Lookup(Joined(c.db, c1.db), h.device) == Some(StateRow(h, 0.0, false, true));
  }
}
