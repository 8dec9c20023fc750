/**
 Flags and jobs agree: a flag that is set is backed by a job that was not cancelled. This needs the
 dedupe keys to tell incidents apart; where they do not, the exact condition is given.
 */
module Backing {
  import opened Heartbeats
  import opened JobQueue
  import opened Tables
  import opened TableInvariants
  import opened Settings
  import opened Protocol
  import opened ProtocolInvariant
  import opened Delivery
  import opened Flags
  import opened ConsumerLaws

  /** The queue holds a job for the incident that was not cancelled. */
  ghost predicate HasJob(q: seq<Job>, hb: Heartbeat, kind: Kind) {
    exists i :: 0 <= i < |q| && q[i].status != Cancelled && SameIncident(q[i].hb, q[i].kind, hb, kind)
  }

  /** The key is taken by a live job of a different incident. */
  ghost predicate Clash(q: seq<Job>, hb: Heartbeat, kind: Kind) {
    exists i :: 0 <= i < |q| && q[i].Live() && q[i].key == QueueKey(hb, kind)
                && !SameIncident(q[i].hb, q[i].kind, hb, kind)
  }

  /** An accepted notification leaves its incident with a job, whether a row was inserted or the insert met a
      conflict, exactly unless there was none before and the key is held by another incident. */
  lemma AcceptedIsBackedUnlessClash(db: Db, hb: Heartbeat, kind: Kind, now: real)
    requires TablesOk(db) && Accepts(db, hb.device, true)
    ensures HasJob(Enqueued(db, hb, kind, now).queue, hb, kind)
       <==> HasJob(db.queue, hb, kind) || !Clash(db.queue, hb, kind)
  {
    var job := NewJob(hb, kind, now);
    var q, q' := db.queue, Enqueued(db, hb, kind, now).queue;
    assert q' == Insert(q, job);
    if HasLive(q, job.key) {
      var i :| 0 <= i < |q| && q[i].key == job.key && q[i].Live();
      if !Clash(q, hb, kind) {
        assert SameIncident(q[i].hb, q[i].kind, hb, kind);
      } else {
        var j :| 0 <= j < |q| && q[j].Live() && q[j].key == QueueKey(hb, kind)
                 && !SameIncident(q[j].hb, q[j].kind, hb, kind);
        assert q' == q;
      }
    } else {
      assert q'[|q|] == job && SameIncident(job.hb, job.kind, hb, kind);
      assert !Clash(q, hb, kind);
    }
  }

  // ----- one transaction -----

  ghost predicate FlagsBacked(db: Db) {
    forall d :: d in db.states ==> RowBacked(db.queue, db.states[d])
  }

  /** A set flag has its job, and an alert is for a level that is not UP. */
  ghost predicate RowBacked(q: seq<Job>, row: StateRow) {
    && (row.stale ==> HasJob(q, row.hb, Missing))
    && (row.alert ==> row.hb.level != Up && HasJob(q, row.hb, Alert))
  }

  /** Where a device's row is unchanged and no job is cancelled, its flags stay backed. */
  lemma GrowthKeepsRows(db: Db, db': Db, except: string)
    requires FlagsBacked(db) && Grew(db, db')
    ensures forall d :: d in db.states && d in db'.states && d != except && db'.states[d] == db.states[d] ==>
              RowBacked(db'.queue, db'.states[d])
  {
    forall d | d in db.states && d in db'.states && d != except && db'.states[d] == db.states[d]
      ensures RowBacked(db'.queue, db'.states[d])
    {
      assert db.queue == db'.queue[..|db.queue|];
    }
  }

  /** The notification is accepted without a job of its incident, and its key is held by another one. */
  ghost predicate ClashingAcceptance(db: Db, hb: Heartbeat, kind: Kind, mes: bool) {
    Accepts(db, hb.device, mes) && Clash(db.queue, hb, kind) && !HasJob(db.queue, hb, kind)
  }

  /** The heartbeat's ALERT is a clashing acceptance, on the tables its RECEIVING left. */
  ghost predicate BeatClashes(db: Db, hb: Heartbeat, now: real, m1: bool, m2: bool) {
    var previous := Lookup(Loaded(db), hb.device);
    StatusNotice(previous, hb) == Some(Alert)
    && ClashingAcceptance(AfterReceiving(db, previous, hb, now, m1), hb, Alert, m2)
  }

  /** After an ALERT was called for: whether its incident has a job. */
  lemma AlertBacks(db1: Db, hb: Heartbeat, now: real, m2: bool)
    requires TablesOk(db1) && Accepts(db1, hb.device, m2)
    ensures HasJob(EnqueuedIfActive(db1, hb, Alert, now, m2).queue, hb, Alert)
       <==> !ClashingAcceptance(db1, hb, Alert, m2)
  {
    AcceptedIsBackedUnlessClash(db1, hb, Alert, now);
  }

  /** The stored alert flag is backed exactly unless the ALERT clashed. */
  lemma StoredAlertIsBacked(db: Db, hb: Heartbeat, now: real, m1: bool, m2: bool)
    requires TablesOk(db) && FlagsBacked(db)
    ensures var previous := Lookup(Loaded(db), hb.device);
            var db1 := AfterReceiving(db, previous, hb, now, m1);
            var alert := AlertFlag(previous, hb, Accepts(db1, hb.device, m2));
            RowBacked(Processed(db, hb, now, m1, m2).queue, StateRow(hb, now, false, alert))
            <==> !BeatClashes(db, hb, now, m1, m2)
  {
    var previous := Lookup(Loaded(db), hb.device);
    var db1 := AfterReceiving(db, previous, hb, now, m1);
    var q' := Processed(db, hb, now, m1, m2).queue;
    EnqueuedIfActiveKeeps(db, hb, Receiving, now, m1);
    if StatusNotice(previous, hb) == Some(Alert) {
      if Accepts(db1, hb.device, m2) {
        AlertBacks(db1, hb, now, m2);
      }
    } else if hb.level != Up && previous.Some? && previous.value.alert {
      assert StatusNotice(previous, hb) == None && q' == db1.queue;
      assert RowBacked(db.queue, previous.value);
    }
  }

  /** A heartbeat's transaction keeps every flag backed exactly unless its ALERT clashes. */
  lemma BeatBacksUnlessClash(db: Db, hb: Heartbeat, now: real, m1: bool, m2: bool)
    requires TablesOk(db) && FlagsBacked(db)
    ensures FlagsBacked(Processed(db, hb, now, m1, m2)) <==> !BeatClashes(db, hb, now, m1, m2)
  {
    var previous := Lookup(Loaded(db), hb.device);
    ProcessedKeeps(db, previous, hb, now, m1, m2);
    BeatStates(db, hb, now, m1, m2);
    GrowthKeepsRows(db, Processed(db, hb, now, m1, m2), hb.device);
    if Deleted(db, hb.device) {
    } else {
      StoredAlertIsBacked(db, hb, now, m1, m2);
    }
  }

  /** The MISSING of a device that is overdue is a clashing acceptance. */
  ghost predicate ScanClashes(db: Db, d: string, now: real, threshold: real, mes: set<string>) {
    var row := Lookup(Loaded(db), d);
    row.Some? && Overdue(row.value, now, threshold) && ClashingAcceptance(db, row.value.hb, Missing, d in mes)
  }

  /** So does the stale check of one device, exactly unless its MISSING clashes. */
  lemma ScanBacksUnlessClash(db: Db, d: string, now: real, threshold: real, mes: set<string>)
    requires TablesOk(db) && FlagsBacked(db)
    ensures FlagsBacked(ScannedOne(db, d, now, threshold, mes)) <==> !ScanClashes(db, d, now, threshold, mes)
  {
    var row := Lookup(Loaded(db), d);
    if row.Some? && Overdue(row.value, now, threshold) && Accepts(db, d, d in mes) {
      var hb := row.value.hb;
      var db1 := Enqueued(db, hb, Missing, now);
      EnqueuedKeeps(db, hb, Missing, now);
      MarkedBacks(db, db1, ScannedOne(db, d, now, threshold, mes), d);
      AcceptedIsBackedUnlessClash(db, hb, Missing, now);
    }
  }

  lemma MarkedBacks(db: Db, db1: Db, db': Db, d: string)
    requires FlagsBacked(db) && Grew(db, db1) && d in db.states
    requires db'.queue == db1.queue && db1.states == db.states
    requires db'.states == db.states[d := db.states[d].(stale := true)]
    ensures FlagsBacked(db') <==> HasJob(db1.queue, db.states[d].hb, Missing)
  {
    GrowthKeepsRows(db, db1, "");
    assert RowBacked(db.queue, db.states[d]);
    forall e | e in db.states ensures RowBacked(db1.queue, db.states[e]) {
      assert db.queue == db1.queue[..|db.queue|];
    }
    assert RowBacked(db'.queue, db'.states[d]) <==> HasJob(db1.queue, db.states[d].hb, Missing);
  }

  /** Some device of the walk clashes on the tables it finds. */
  ghost predicate WalkClashes(db: Db, order: seq<string>, now: real, threshold: real, mes: set<string>)
    decreases |order|
  {
    order != [] &&
    (ScanClashes(db, order[0], now, threshold, mes)
     || WalkClashes(ScannedOne(db, order[0], now, threshold, mes), order[1..], now, threshold, mes))
  }

  ghost predicate UnbackedMissing(db: Db, d: string) {
    d in db.states && db.states[d].stale && !HasJob(db.queue, db.states[d].hb, Missing)
  }

  lemma {:induction false} UnbackedStaysInWalk(db: Db, d: string, order: seq<string>, now: real, threshold: real,
                                               mes: set<string>)
    requires TablesOk(db) && UnbackedMissing(db, d)
    ensures UnbackedMissing(Scanned(db, order, now, threshold, mes), d)
    decreases |order|
  {
    if order != [] {
      ScannedOneKeeps(db, order[0], now, threshold, mes);
      UnbackedStaysInWalk(ScannedOne(db, order[0], now, threshold, mes), d, order[1..], now, threshold, mes);
    }
  }

  /** A whole stale scan keeps every flag backed exactly unless a device of the walk clashes. */
  lemma {:induction false} WalkBacksUnlessClash(db: Db, order: seq<string>, now: real, threshold: real,
                                                mes: set<string>)
    requires TablesOk(db) && FlagsBacked(db)
    ensures FlagsBacked(Scanned(db, order, now, threshold, mes)) <==> !WalkClashes(db, order, now, threshold, mes)
    decreases |order|
  {
    if order != [] {
      var db1 := ScannedOne(db, order[0], now, threshold, mes);
      ScannedOneKeeps(db, order[0], now, threshold, mes);
      ScanBacksUnlessClash(db, order[0], now, threshold, mes);
      if ScanClashes(db, order[0], now, threshold, mes) {
        UnbackedStaysInWalk(db1, order[0], order[1..], now, threshold, mes);
      } else {
        WalkBacksUnlessClash(db1, order[1..], now, threshold, mes);
      }
    }
  }

  /** A request cancels jobs only together with the flags they back. */
  lemma ManageKeepsBacking(db: Db, r: Request)
    requires TablesOk(db) && FlagsBacked(db)
    ensures FlagsBacked(Served(db, r))
  {
    var db' := Served(db, r);
    forall d | d in db'.states ensures RowBacked(db'.queue, db'.states[d]) {
      if d != r.device || !Effective(db, db', r.device) {
        ServedRowStaysBacked(db, r, d);
      }
    }
  }

  lemma ServedRowStaysBacked(db: Db, r: Request, d: string)
    requires TablesOk(db) && FlagsBacked(db) && d in db.states
    requires d != r.device || !Effective(db, Served(db, r), r.device)
    ensures RowBacked(Served(db, r).queue, db.states[d])
  {
    forall i | 0 <= i < |db.queue|
      ensures |Served(db, r).queue| == |db.queue| && Evolves(db.queue[i], Served(db, r).queue[i])
      ensures db.queue[i].hb.device == d && Served(db, r).queue[i].status == Cancelled ==>
                db.queue[i].status == Cancelled
    {
    }
    ServedKeeps(db, r);
  }

  /** The worker cancels nothing: the only cancel it issues never finds a row. */
  lemma WorkerCancelsNothing(cfg: Config, c: Core, a: Action, i: nat)
    requires ValidConfig(cfg) && Inv(cfg, c) && i < |c.db.queue| && !a.Beat? && !a.StaleScan? && !a.Manage?
    requires c.db.queue[i].status != Cancelled
    ensures i < |Step(cfg, c, a).db.queue| && Step(cfg, c, a).db.queue[i].status != Cancelled
  {
    match a
    case EnterGuard(outcome) =>
      if InPhase(c, Held) {
        GuardKeeps(cfg, c, outcome);
      }
    case Claim(now, skipped, outcome) =>
    case CommitSent(outcome) =>
    case CommitFailure(outcome) =>
    case _ =>
  }

  lemma WorkerKeepsBacking(cfg: Config, c: Core, a: Action)
    requires ValidConfig(cfg) && Inv(cfg, c) && FlagsBacked(c.db)
    requires !a.Beat? && !a.StaleScan? && !a.Manage?
    ensures FlagsBacked(Step(cfg, c, a).db)
  {
    WorkerStepFrame(cfg, c, a);
    var q, q' := c.db.queue, Step(cfg, c, a).db.queue;
    forall i | 0 <= i < |q| && q'[i].status == Cancelled ensures q[i].status == Cancelled {
      if q[i].status != Cancelled {
        WorkerCancelsNothing(cfg, c, a, i);
      }
    }
    forall d | d in c.db.states ensures RowBacked(q', c.db.states[d]) {
    }
  }

  // ----- whole runs -----

  /** The step commits a clashing acceptance. */
  ghost predicate StepClashes(cfg: Config, c: Core, a: Action) {
    match a
    case Beat(hb, now, m1, m2, commit) => c.up && commit && BeatClashes(c.db, hb, now, m1, m2)
    case StaleScan(order, now, mes, commit) => c.up && commit && WalkClashes(c.db, order, now, cfg.staleAfter, mes)
    case _ => false
  }

  /** From a reachable state with all flags backed, a step leaves them backed exactly unless it clashes. */
  lemma StepBacksUnlessClash(cfg: Config, c: Core, a: Action)
    requires ValidConfig(cfg) && Inv(cfg, c) && FlagsBacked(c.db)
    ensures FlagsBacked(Step(cfg, c, a).db) <==> !StepClashes(cfg, c, a)
  {
    match a
    case Beat(hb, now, m1, m2, _) => BeatBacksUnlessClash(c.db, hb, now, m1, m2);
    case StaleScan(order, now, mes, _) =>
      ScanMatchesTables(c.db, Loaded(c.db), order, now, cfg.staleAfter, mes);
      WalkBacksUnlessClash(c.db, order, now, cfg.staleAfter, mes);
    case Manage(r) => ManageKeepsBacking(c.db, r);
    case _ => WorkerKeepsBacking(cfg, c, a);
  }

  /** No step of the run commits a clashing acceptance. */
  ghost predicate Unclashed(cfg: Config, c: Core, actions: seq<Action>)
    decreases |actions|
  {
    actions == [] || (!StepClashes(cfg, c, actions[0]) && Unclashed(cfg, Step(cfg, c, actions[0]), actions[1..]))
  }

  /** Every flag is backed in every state the run passes through. */
  ghost predicate AlwaysBacked(cfg: Config, c: Core, actions: seq<Action>)
    decreases |actions|
  {
    FlagsBacked(c.db) && (actions == [] || AlwaysBacked(cfg, Step(cfg, c, actions[0]), actions[1..]))
  }

  lemma {:induction false} BackedExactlyUnlessClash(cfg: Config, c: Core, actions: seq<Action>)
    requires ValidConfig(cfg) && Inv(cfg, c) && FlagsBacked(c.db)
    ensures AlwaysBacked(cfg, c, actions) <==> Unclashed(cfg, c, actions)
    decreases |actions|
  {
    if actions != [] {
      var c1 := Step(cfg, c, actions[0]);
      StepKeeps(cfg, c, actions[0]);
      StepBacksUnlessClash(cfg, c, actions[0]);
      if FlagsBacked(c1.db) {
        BackedExactlyUnlessClash(cfg, c1, actions[1..]);
      }
    }
  }

  /** Every flag is backed throughout a run exactly if no step of the run commits a clashing acceptance. */
  lemma RunsBackFlagsUnlessClash(cfg: Config, actions: seq<Action>)
    requires ValidConfig(cfg)
    ensures AlwaysBacked(cfg, INITIAL, actions) <==> Unclashed(cfg, INITIAL, actions)
  {
    Reachable(cfg, []);
    assert Run(cfg, INITIAL, []) == INITIAL;
    BackedExactlyUnlessClash(cfg, INITIAL, actions);
  }

  lemma {:induction false} BackedToTheEnd(cfg: Config, c: Core, actions: seq<Action>)
    requires AlwaysBacked(cfg, c, actions)
    ensures FlagsBacked(Run(cfg, c, actions).db)
    decreases |actions|
  {
    if actions != [] {
      BackedToTheEnd(cfg, Step(cfg, c, actions[0]), actions[1..]);
    }
  }

  // ----- device ids that hold no colon -----

  ghost predicate PlainNames(db: Db) {
    && (forall i {:trigger db.queue[i]} :: 0 <= i < |db.queue| ==> ColonFree(db.queue[i].hb.device))
    && (forall d :: d in db.states ==> ColonFree(d))
  }

  lemma PlainNamesDoNotClash(db: Db, hb: Heartbeat, kind: Kind)
    requires TablesOk(db) && PlainNames(db) && ColonFree(hb.device)
    ensures !Clash(db.queue, hb, kind)
  {
    forall i | 0 <= i < |db.queue| && db.queue[i].key == QueueKey(hb, kind)
      ensures SameIncident(db.queue[i].hb, db.queue[i].kind, hb, kind)
    {
      KeysIdentifyIncidents(db.queue[i].hb, db.queue[i].kind, hb, kind);
    }
  }

  lemma PlainBeat(db: Db, hb: Heartbeat, now: real, m1: bool, m2: bool)
    requires TablesOk(db) && PlainNames(db) && ColonFree(hb.device)
    ensures PlainNames(Processed(db, hb, now, m1, m2)) && !BeatClashes(db, hb, now, m1, m2)
  {
    var previous := Lookup(Loaded(db), hb.device);
    var db1 := AfterReceiving(db, previous, hb, now, m1);
    EnqueuedIfActiveKeeps(db, hb, Receiving, now, m1);
    PlainNamesDoNotClash(db1, hb, Alert);
    BeatFramesOthers(db, hb, now, m1, m2);
    PlainFrame(db, Processed(db, hb, now, m1, m2), hb.device);
  }

  lemma PlainFrame(db: Db, db': Db, d: string)
    requires PlainNames(db) && ColonFree(d) && OthersFramed(db, db', d)
    ensures PlainNames(db')
  {
    forall i | 0 <= i < |db'.queue| ensures ColonFree(db'.queue[i].hb.device) {
      if i < |db.queue| {
        assert db'.queue[i] == db.queue[i];
      }
    }
    forall e | e in db'.states ensures ColonFree(e) {
      assert e != d ==> Lookup(db'.states, e) == Lookup(db.states, e);
    }
  }

  lemma PlainScan(db: Db, d: string, now: real, threshold: real, mes: set<string>)
    requires TablesOk(db) && PlainNames(db)
    ensures PlainNames(ScannedOne(db, d, now, threshold, mes)) && !ScanClashes(db, d, now, threshold, mes)
  {
    if d in Loaded(db) {
      PlainNamesDoNotClash(db, db.states[d].hb, Missing);
      EnqueuedKeeps(db, db.states[d].hb, Missing, now);
    }
  }

  lemma {:induction false} PlainWalk(db: Db, order: seq<string>, now: real, threshold: real, mes: set<string>)
    requires TablesOk(db) && PlainNames(db)
    ensures PlainNames(Scanned(db, order, now, threshold, mes)) && !WalkClashes(db, order, now, threshold, mes)
    decreases |order|
  {
    if order != [] {
      ScannedOneKeeps(db, order[0], now, threshold, mes);
      PlainScan(db, order[0], now, threshold, mes);
      PlainWalk(ScannedOne(db, order[0], now, threshold, mes), order[1..], now, threshold, mes);
    }
  }

  /** Jobs keep their heartbeats, and other actors than the consumer add neither jobs nor rows. */
  lemma OthersKeepNames(cfg: Config, c: Core, a: Action)
    requires Inv(cfg, c) && PlainNames(c.db) && !a.Beat? && !a.StaleScan?
    ensures PlainNames(Step(cfg, c, a).db)
  {
    var db' := Step(cfg, c, a).db;
    StepMoves(cfg, c, a);
    if a.Manage? {
      ServedKeeps(c.db, a.request);
    } else {
      WorkerStepFrame(cfg, c, a);
    }
    forall i | 0 <= i < |db'.queue| ensures ColonFree(db'.queue[i].hb.device) {
      assert Evolves(c.db.queue[i], db'.queue[i]);
    }
  }

  lemma PlainStep(cfg: Config, c: Core, a: Action)
    requires ValidConfig(cfg) && Inv(cfg, c) && PlainNames(c.db)
    requires a.Beat? ==> ColonFree(a.hb.device)
    ensures PlainNames(Step(cfg, c, a).db) && !StepClashes(cfg, c, a)
  {
    match a
    case Beat(hb, now, m1, m2, _) => PlainBeat(c.db, hb, now, m1, m2);
    case StaleScan(order, now, mes, _) =>
      ScanMatchesTables(c.db, Loaded(c.db), order, now, cfg.staleAfter, mes);
      PlainWalk(c.db, order, now, cfg.staleAfter, mes);
    case _ => OthersKeepNames(cfg, c, a);
  }

  lemma {:induction false} PlainRunsDoNotClash(cfg: Config, c: Core, actions: seq<Action>)
    requires ValidConfig(cfg) && Inv(cfg, c) && PlainNames(c.db)
    requires forall a :: a in actions && a.Beat? ==> ColonFree(a.hb.device)
    ensures Unclashed(cfg, c, actions)
    decreases |actions|
  {
    if actions != [] {
      assert actions[0] in actions;
      StepKeeps(cfg, c, actions[0]);
      PlainStep(cfg, c, actions[0]);
      PlainRunsDoNotClash(cfg, Step(cfg, c, actions[0]), actions[1..]);
    }
  }

  /** In every run without a clashing acceptance every set flag has its job: stale a MISSING of the device, alert
      an ALERT of the device with exactly the stored signature, which is not UP. */
  lemma FlagsAreBacked(cfg: Config, actions: seq<Action>, d: string)
    requires ValidConfig(cfg) && Unclashed(cfg, INITIAL, actions)
    requires d in Run(cfg, INITIAL, actions).db.states
    ensures var db := Run(cfg, INITIAL, actions).db;
            && (db.states[d].stale ==>
                  exists i :: 0 <= i < |db.queue| && db.queue[i].hb.device == d && db.queue[i].kind == Missing
                              && db.queue[i].status != Cancelled)
            && (db.states[d].alert ==>
                  && db.states[d].hb.level != Up
                  && exists i :: 0 <= i < |db.queue| && db.queue[i].hb.device == d && db.queue[i].kind == Alert
                                 && db.queue[i].hb.Sig() == db.states[d].hb.Sig() && db.queue[i].status != Cancelled)
  {
    RunsBackFlagsUnlessClash(cfg, actions);
    BackedToTheEnd(cfg, INITIAL, actions);
    Reachable(cfg, actions);
  }

  /** Where no device id holds a colon, every run is one without a clashing acceptance. */
  lemma ColonFreeRunsAreBacked(cfg: Config, actions: seq<Action>)
    requires ValidConfig(cfg)
    requires forall a :: a in actions && a.Beat? ==> ColonFree(a.hb.device)
    ensures Unclashed(cfg, INITIAL, actions) && AlwaysBacked(cfg, INITIAL, actions)
  {
    Reachable(cfg, []);
    assert Run(cfg, INITIAL, []) == INITIAL;
    PlainRunsDoNotClash(cfg, INITIAL, actions);
    RunsBackFlagsUnlessClash(cfg, actions);
  }

  // ----- the failing family is real -----

  /** A heartbeat of the device that will hold the key, one of the device that will need it, and the scan that
      finds both overdue. */
  function ClashingRun(cfg: Config, h1: Heartbeat, h2: Heartbeat): seq<Action> {
    [Restart(0.0), Beat(h2, 0.0, true, true, true), Beat(h1, 0.0, true, true, true),
     StaleScan([h2.device, h1.device], cfg.staleAfter, {h1.device}, true)]
  }

  lemma FirstStep(cfg: Config, c: Core, a: Action, rest: seq<Action>)
    ensures Run(cfg, c, [a] + rest) == Run(cfg, Step(cfg, c, a), rest)
  {
    assert ([a] + rest)[1..] == rest;
  }

  /** The scan finds the key of the MISSING taken by the other device's ALERT. */
  lemma TheScanClashes(h1: Heartbeat, h2: Heartbeat, db: Db, threshold: real)
    requires h1.device == "a:ALERT:WARN:x" && h1.level == Up && threshold > 0.0
    requires h2.device == "a" && h2.level == Warn && h2.code == "x:MISSING"
    requires db.queue == [NewJob(h2, Alert, 0.0)]
    requires db.devices == map[h2.device := NEW_DEVICE, h1.device := NEW_DEVICE]
    requires db.states == map[h2.device := StateRow(h2, 0.0, false, true), h1.device := StateRow(h1, 0.0, false, false)]
    ensures var db' := Scanned(db, [h2.device, h1.device], threshold, threshold, {h1.device});
            db'.queue == db.queue && db'.states == db.states[h1.device := StateRow(h1, 0.0, true, false)]
  {
    ColonsMakeKeysClash(h1, h2);
    assert h1.device != h2.device;
    assert ScannedOne(db, h2.device, threshold, threshold, {h1.device}) == db;
    var db' := ScannedOne(db, h1.device, threshold, threshold, {h1.device});
    assert HasLive(db.queue, QueueKey(h1, Missing)) by {
      assert db.queue[0].key == QueueKey(h1, Missing) && db.queue[0].Live();
    }
    assert [h2.device, h1.device][1..] == [h1.device] && [h1.device][1..] == [];
    assert Scanned(db, [h1.device], threshold, threshold, {h1.device})
        == Scanned(db', [], threshold, threshold, {h1.device}) == db';
  }

  /** A run from empty tables in which the MISSING of one device finds its key taken by the ALERT of another, is
      accepted all the same, and its flag is set with no job behind it. */
  lemma ClashLeavesAFlagUnbacked(cfg: Config, h1: Heartbeat, h2: Heartbeat)
    requires ValidConfig(cfg)
    requires h1.device == "a:ALERT:WARN:x" && h1.level == Up
    requires h2.device == "a" && h2.level == Warn && h2.code == "x:MISSING"
    ensures var db := Run(cfg, INITIAL, ClashingRun(cfg, h1, h2)).db;
            Stale(db, h1.device) && !HasJob(db.queue, h1, Missing) && !FlagsBacked(db)
  {
    var scan := StaleScan([h2.device, h1.device], cfg.staleAfter, {h1.device}, true);
    var before := ClashingRun(cfg, h1, h2)[..3];
    BeforeTheScan(cfg, h1, h2);
    var c := Run(cfg, INITIAL, before);
    TheScanClashes(h1, h2, c.db, cfg.staleAfter);
    Reachable(cfg, before);
    ScanMatchesTables(c.db, Loaded(c.db), scan.order, scan.now, cfg.staleAfter, scan.mes);
    RunSplits(cfg, INITIAL, before, [scan]);
    FirstStep(cfg, c, scan, []);
    assert [scan] + [] == [scan] && before + [scan] == ClashingRun(cfg, h1, h2);
    UnbackedAfterTheScan(h1, h2, Step(cfg, c, scan).db);
  }

  lemma UnbackedAfterTheScan(h1: Heartbeat, h2: Heartbeat, db: Db)
    requires h1.device != h2.device
    requires db.queue == [NewJob(h2, Alert, 0.0)] && h1.device in db.states
    requires db.states[h1.device] == StateRow(h1, 0.0, true, false)
    ensures Stale(db, h1.device) && !HasJob(db.queue, h1, Missing) && !FlagsBacked(db)
  {
  }

  lemma BeforeTheScan(cfg: Config, h1: Heartbeat, h2: Heartbeat)
    ensures var c := Run(cfg, INITIAL, ClashingRun(cfg, h1, h2)[..3]);
            c.up && c.db == Processed(Processed(EMPTY_DB, h2, 0.0, true, true), h1, 0.0, true, true)
  {
    var a, b := Beat(h2, 0.0, true, true, true), Beat(h1, 0.0, true, true, true);
    var c1 := Step(cfg, INITIAL, Restart(0.0));
    assert c1.db == EMPTY_DB && c1.up;
    FirstStep(cfg, INITIAL, Restart(0.0), [a, b]);
    FirstStep(cfg, c1, a, [b]);
    FirstStep(cfg, Step(cfg, c1, a), b, []);
    assert [Restart(0.0)] + [a, b] == ClashingRun(cfg, h1, h2)[..3] && [a] + [b] == [a, b] && [b] + [] == [b];
  }
}
