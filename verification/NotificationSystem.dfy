/**
 The two halves put together: the consumer's loop drives the tables. A polled heartbeat is processed
 and marked handled in one transaction, and the stale check runs only while the gate is open.
 */
module NotificationSystem {
  import opened Heartbeats
  import opened Tables
  import opened TableInvariants
  import opened Settings
  import opened Protocol
  import opened ProtocolInvariant
  import opened Delivery
  import G = Gate
  import opened Feed
  import opened GateSoundness

  datatype System = System(core: Core, feed: Stream)

  datatype Move =
    | OnTables(action: Action)
    | OnKafka(event: Event)
    | ConsumeMessage(partition: int, now: real, mesReceiving: bool, mesStatus: bool)
    | ScanDevices(clock: real, order: seq<string>, now: real, mes: set<string>)
    | CrashAll
    | RestartAll(now: real)

  function Start(parts: map<int, Part>, committed: map<int, int>): System {
    System(INITIAL, Initial(parts, committed))
  }

  /** Actions of the worker and of management; the consumer's and the process's own have their moves. */
  predicate ByOthers(a: Action) {
    !a.Beat? && !a.StaleScan? && !a.Crash? && !a.Restart?
  }

  /** The message a poll of the partition would return. */
  function Polled(cfg: Config, s: System, p: int): Option<int> {
    if s.core.up && s.feed.place == Polling && Readable(cfg, s.feed, p)
    then NextOffset(s.feed.parts[p], s.feed.cursors[p].next) else None
  }

  function MessageActions(cfg: Config, s: System, m: Move): seq<Action>
    requires m.ConsumeMessage?
  {
    var o := Polled(cfg, s, m.partition);
    if o.None? then []
    else match s.feed.parts[m.partition].messages[o.value]
      case Valid(hb) => [Beat(hb, m.now, m.mesReceiving, m.mesStatus, true)]
      case Invalid => []
  }

  predicate Scans(cfg: Config, s: System, clock: real) {
    s.core.up && s.feed.place == Scanning && G.Open(cfg, s.feed.health, clock)
  }

  /** What a move does to the tables' side. */
  function ActionsOf(cfg: Config, s: System, m: Move): seq<Action> {
    match m
    case OnTables(a) => if ByOthers(a) then [a] else []
    case OnKafka(_) => []
    case ConsumeMessage(_, _, _, _) => MessageActions(cfg, s, m)
    case ScanDevices(clock, order, now, mes) => if Scans(cfg, s, clock) then [StaleScan(order, now, mes, true)] else []
    case CrashAll => [Crash]
    case RestartAll(now) => [Restart(now)]
  }

  /** What a move does to the Kafka side. */
  function EventsOf(cfg: Config, s: System, m: Move): seq<Event> {
    match m
    case OnTables(_) => []
    case OnKafka(e) =>
      if e.Append? || e.Trim? || (s.core.up && !e.Consume? && !e.EndScan? && !e.Die?) then [e] else []
    case ConsumeMessage(p, _, _, _) => if Polled(cfg, s, p).Some? then [Consume(p)] else []
    case ScanDevices(_, _, _, _) => if s.core.up then [EndScan] else []
    case CrashAll => [Die]
    case RestartAll(_) => []
  }

  function Advance(cfg: Config, s: System, m: Move): System {
    System(Run(cfg, s.core, ActionsOf(cfg, s, m)), RunFeed(cfg, s.feed, EventsOf(cfg, s, m)))
  }

  function RunSystem(cfg: Config, s: System, moves: seq<Move>): System
    decreases |moves|
  {
    if moves == [] then s else RunSystem(cfg, Advance(cfg, s, moves[0]), moves[1..])
  }

  /** No health check of the run happens in the blind spot. */
  ghost predicate SightedSystem(cfg: Config, s: System, moves: seq<Move>)
    decreases |moves|
  {
    moves == [] ||
    (&& Sighted(cfg, s.feed, EventsOf(cfg, s, moves[0]))
     && SightedSystem(cfg, Advance(cfg, s, moves[0]), moves[1..]))
  }

  lemma {:induction false} FeedSplits(cfg: Config, f: Stream, a: seq<Event>, b: seq<Event>)
    ensures RunFeed(cfg, f, a + b) == RunFeed(cfg, RunFeed(cfg, f, a), b)
    ensures Sighted(cfg, f, a) && Sighted(cfg, RunFeed(cfg, f, a), b) ==> Sighted(cfg, f, a + b)
    decreases |a|
  {
    if a == [] {
      assert a + b == b;
    } else {
      assert (a + b)[0] == a[0] && (a + b)[1..] == a[1..] + b;
      FeedSplits(cfg, Next(cfg, f, a[0]), a[1..], b);
    }
  }

  /** Every run of the system is a run of each half, so all that is proved of either half holds here. */
  lemma {:induction false} HalvesRun(cfg: Config, s: System, moves: seq<Move>)
    returns (actions: seq<Action>, events: seq<Event>)
    ensures RunSystem(cfg, s, moves).core == Run(cfg, s.core, actions)
    ensures RunSystem(cfg, s, moves).feed == RunFeed(cfg, s.feed, events)
    ensures SightedSystem(cfg, s, moves) ==> Sighted(cfg, s.feed, events)
    decreases |moves|
  {
    if moves == [] {
      actions, events := [], [];
    } else {
      var s1 := Advance(cfg, s, moves[0]);
      var a, e := HalvesRun(cfg, s1, moves[1..]);
      actions, events := ActionsOf(cfg, s, moves[0]) + a, EventsOf(cfg, s, moves[0]) + e;
      RunSplits(cfg, s.core, ActionsOf(cfg, s, moves[0]), a);
      FeedSplits(cfg, s.feed, EventsOf(cfg, s, moves[0]), e);
    }
  }

  lemma RunOneEvent(cfg: Config, f: Stream, e: Event)
    ensures RunFeed(cfg, f, [e]) == Next(cfg, f, e)
  {
    assert RunFeed(cfg, Next(cfg, f, e), []) == Next(cfg, f, e);
    assert [e][1..] == [];
  }

  /** The note is a MISSING of a monitored device whose stored row is overdue. */
  predicate OverdueNote(db: Db, n: Note, now: real, threshold: real) {
    && n.Accepted? && n.kind == Missing && n.device in db.states && Monitored(db, n.device)
    && Overdue(db.states[n.device], now, threshold)
  }

  /** Every note of a scan is of a device that was overdue when the scan began. */
  lemma {:induction false} ScanNotesAreOverdue(db: Db, order: seq<string>, now: real, threshold: real, mes: set<string>,
                                               k: nat)
    requires TablesOk(db) && k < |ScanNotes(db, order, now, threshold, mes)|
    ensures OverdueNote(db, ScanNotes(db, order, now, threshold, mes)[k], now, threshold)
    decreases |order|
  {
    var first := ScanNote(db, order[0], now, threshold, mes);
    if k < |first| {
    } else {
      var db1 := ScannedOne(db, order[0], now, threshold, mes);
      var rest := ScanNotes(db1, order[1..], now, threshold, mes);
      assert ScanNotes(db, order, now, threshold, mes) == first + rest;
      ScannedOneKeeps(db, order[0], now, threshold, mes);
      ScanNotesAreOverdue(db1, order[1..], now, threshold, mes, k - |first|);
    }
  }

  /** No move but a scan through an open gate accepts a MISSING. */
  lemma OnlyScansAcceptMissing(cfg: Config, s: System, m: Move, k: nat)
    requires var t := Advance(cfg, s, m).core.trace;
             |s.core.trace| <= k < |t| && t[k].Accepted? && t[k].kind == Missing
    ensures m.ScanDevices? && Scans(cfg, s, m.clock)
    ensures Advance(cfg, s, m).core.trace
         == s.core.trace + ScanNotes(s.core.db, m.order, m.now, cfg.staleAfter, m.mes)
  {
    var actions := ActionsOf(cfg, s, m);
    if actions == [] {
      assert false;
    } else {
      assert actions == [actions[0]];
      RunOne(cfg, s.core, actions[0]);
    }
  }

  /** In every run, under every policy: a MISSING is accepted only by a scan through an open gate, for a monitored
      device whose last processed heartbeat is at least the threshold old. */
  lemma MissingMeansSilent(cfg: Config, parts: map<int, Part>, committed: map<int, int>, moves: seq<Move>, m: Move,
                           k: nat)
    requires ValidConfig(cfg)
    requires var s := RunSystem(cfg, Start(parts, committed), moves);
             var t := Advance(cfg, s, m).core.trace;
             |s.core.trace| <= k < |t| && t[k].Accepted? && t[k].kind == Missing
    ensures var s := RunSystem(cfg, Start(parts, committed), moves);
            var d := Advance(cfg, s, m).core.trace[k].device;
            && m.ScanDevices? && Scans(cfg, s, m.clock)
            && d in s.core.db.states && Monitored(s.core.db, d)
            && m.now - s.core.db.states[d].lastSeen >= cfg.staleAfter
  {
    var s := RunSystem(cfg, Start(parts, committed), moves);
    var actions, events := HalvesRun(cfg, Start(parts, committed), moves);
    Reachable(cfg, actions);
    OnlyScansAcceptMissing(cfg, s, m, k);
    ScanNotesAreOverdue(s.core.db, m.order, m.now, cfg.staleAfter, m.mes, k - |s.core.trace|);
  }

  /** Gate soundness over whole runs with no check in the blind spot: when a MISSING is accepted, every assigned
      partition has been read up to the high watermark recorded at the first check that passed after the last
      disruption. */
  lemma MissingMeansCaughtUp(cfg: Config, parts: map<int, Part>, committed: map<int, int>, moves: seq<Move>, m: Move,
                             k: nat) returns (i: nat)
    requires ValidConfig(cfg) && Startable(parts, committed)
    requires SightedSystem(cfg, Start(parts, committed), moves)
    requires var s := RunSystem(cfg, Start(parts, committed), moves);
             var t := Advance(cfg, s, m).core.trace;
             |s.core.trace| <= k < |t| && t[k].Accepted? && t[k].kind == Missing
    ensures CaughtUpSince(cfg, RunSystem(cfg, Start(parts, committed), moves).feed, i)
  {
    var actions, events := HalvesRun(cfg, Start(parts, committed), moves);
    OnlyScansAcceptMissing(cfg, RunSystem(cfg, Start(parts, committed), moves), m, k);
    i := GateIsSound(cfg, parts, committed, events, m.clock);
  }

  /** With a reset policy other than latest every run of the system is sighted. */
  lemma {:induction false} OtherPoliciesAreSightedHere(cfg: Config, s: System, moves: seq<Move>)
    requires cfg.reset != Latest
    ensures SightedSystem(cfg, s, moves)
    decreases |moves|
  {
    if moves != [] {
      OtherPoliciesAreSighted(cfg, s.feed, EventsOf(cfg, s, moves[0]));
      OtherPoliciesAreSightedHere(cfg, Advance(cfg, s, moves[0]), moves[1..]);
    }
  }

  /** A message becomes handled only by being consumed, together with its transaction or as invalid. */
  lemma HandledWithItsTransaction(cfg: Config, s: System, m: Move, p: int, o: int)
    requires (p, o) !in s.feed.handled && (p, o) in Advance(cfg, s, m).feed.handled
    ensures m.ConsumeMessage? && m.partition == p && p in s.feed.parts && o in s.feed.parts[p].messages
    ensures match s.feed.parts[p].messages[o]
            case Valid(hb) =>
              Advance(cfg, s, m).core.db == Processed(s.core.db, hb, m.now, m.mesReceiving, m.mesStatus)
            case Invalid => Advance(cfg, s, m).core == s.core
  {
    var events := EventsOf(cfg, s, m);
    assert events == [events[0]];
    RunOneEvent(cfg, s.feed, events[0]);
    if MessageActions(cfg, s, m) != [] {
      RunOne(cfg, s.core, MessageActions(cfg, s, m)[0]);
    }
  }

  /** In every reachable state of the system, all messages from a partition's start offset up to its committed
      offset have been handled, and the worker's send, if one is running, is guarded. */
  lemma SystemIsSafe(cfg: Config, parts: map<int, Part>, committed: map<int, int>, moves: seq<Move>, p: int, o: int)
    requires ValidConfig(cfg) && Startable(parts, committed)
    ensures var s := RunSystem(cfg, Start(parts, committed), moves);
            && (p in s.feed.committed && p in s.feed.parts && p in s.feed.start
                && o in s.feed.parts[p].messages && s.feed.start[p] <= o < s.feed.committed[p] ==>
                  (p, o) in s.feed.handled)
            && (InPhase(s.core, Delivering) ==>
                  && Allowed(s.core.db, s.core.worker.id)
                  && Locked(s.core, s.core.db.queue[s.core.worker.id].hb.device))
  {
    var s := RunSystem(cfg, Start(parts, committed), moves);
    var actions, events := HalvesRun(cfg, Start(parts, committed), moves);
    Reachable(cfg, actions);
    if p in s.feed.committed {
      CommitNeverRunsAhead(cfg, parts, committed, events, p);
    }
  }
}
