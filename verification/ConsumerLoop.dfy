/**
 The consumer's loop over the notifier and the Kafka client: each iteration polls, processes and commits,
 checks the broker's health and scans. Every iteration is proved to be moves of the notification system.
 */
module ConsumerLoop {
  import opened Heartbeats
  import opened Tables
  import opened TableInvariants
  import opened Settings
  import opened Protocol
  import opened ProtocolInvariant
  import opened Delivery
  import opened NotificationSystem
  import G = Gate
  import F = Feed
  import opened Postgres
  import opened Api
  import opened KafkaClient
  import opened Notifier

  // ----- what an iteration of the loop meets -----

  /** Before a poll returns: the brokers, a new assignment, or a management request. */
  datatype Happening = Broker(event: F.Event) | Assigned(partitions: set<int>) | Requested(request: Request)

  datatype PollChoice = NoRecord | ErrorRecord(fatal: bool) | NextOf(partition: int)

  datatype Iteration = Iteration(
    before: seq<Happening>,
    poll: PollChoice,
    now: real,
    mesReceiving: bool,
    mesStatus: bool,
    applied: bool,
    raised: bool,
    checkClock: real,
    reachable: bool,
    scanClock: real,
    scanNow: real,
    mes: set<string>)

  function HappeningMoves(h: Happening): seq<Move> {
    match h
    case Broker(e) => if e.Append? || e.Trim? then [OnKafka(e)] else []
    case Assigned(ps) => [OnKafka(F.Rebalance(ps))]
    case Requested(r) => [OnTables(Manage(r))]
  }

  function BeforeMoves(hs: seq<Happening>): seq<Move>
    decreases |hs|
  {
    if hs == [] then [] else HappeningMoves(hs[0]) + BeforeMoves(hs[1..])
  }

  function PollMoves(cfg: Config, s: System, it: Iteration): seq<Move> {
    match it.poll
    case NoRecord => [OnKafka(F.PollNothing)]
    case ErrorRecord(fatal) => [OnKafka(F.PollError(fatal))]
    case NextOf(p) =>
      if Polled(cfg, s, p).None? then [OnKafka(F.PollNothing)]
      else [ConsumeMessage(p, it.now, it.mesReceiving, it.mesStatus), OnKafka(F.CommitOffset(it.applied, it.raised))]
  }

  /** An error ends the iteration before the check. */
  function CheckMoves(s: System, it: Iteration, order: seq<string>): seq<Move> {
    if s.feed.place != F.Checking then []
    else [OnKafka(F.CheckHealth(it.checkClock, it.reachable)), ScanDevices(it.scanClock, order, it.scanNow, it.mes)]
  }

  /** The moves of one iteration, given the order in which the stale check found the devices. */
  function IterationMoves(cfg: Config, s: System, it: Iteration, order: seq<string>): seq<Move> {
    var s1 := RunSystem(cfg, s, BeforeMoves(it.before));
    var s2 := RunSystem(cfg, s1, PollMoves(cfg, s1, it));
    BeforeMoves(it.before) + PollMoves(cfg, s1, it) + CheckMoves(s2, it, order)
  }

  function AfterIteration(cfg: Config, s: System, it: Iteration, order: seq<string>): System {
    RunSystem(cfg, s, IterationMoves(cfg, s, it, order))
  }

  /** An iteration that was done, with the order in which its stale check found the devices. */
  datatype Turn = Turn(it: Iteration, order: seq<string>)

  /** The loop's turns lead from one state of the system to another. */
  ghost predicate Leads(cfg: Config, s: System, turns: seq<Turn>, s': System)
    decreases |turns|
  {
    if turns == [] then s' == s
    else
      var n := |turns| - 1;
      exists h :: Leads(cfg, s, turns[..n], h) && TurnLeads(cfg, h, turns[n], s')
  }

  ghost predicate TurnLeads(cfg: Config, s: System, t: Turn, s': System) {
    s' == AfterIteration(cfg, s, t.it, t.order) && WalksAll(cfg, s, t.it, t.order)
  }

  /** An iteration that gets as far as the check walks over all devices that are loaded after its message. */
  ghost predicate WalksAll(cfg: Config, s: System, it: Iteration, order: seq<string>) {
    var s1 := RunSystem(cfg, s, BeforeMoves(it.before));
    var s2 := RunSystem(cfg, s1, PollMoves(cfg, s1, it));
    s2.feed.place == F.Checking ==> LoadOrder(s2.core.db, order)
  }

  lemma {:induction false} SystemSplits(cfg: Config, s: System, a: seq<Move>, b: seq<Move>)
    ensures RunSystem(cfg, s, a + b) == RunSystem(cfg, RunSystem(cfg, s, a), b)
    decreases |a|
  {
    if a == [] {
      assert a + b == b;
    } else {
      assert (a + b)[0] == a[0] && (a + b)[1..] == a[1..] + b;
      SystemSplits(cfg, Advance(cfg, s, a[0]), a[1..], b);
    }
  }

  lemma OneMove(cfg: Config, s: System, m: Move)
    ensures RunSystem(cfg, s, [m]) == Advance(cfg, s, m)
  {
    assert [m][1..] == [];
    assert RunSystem(cfg, Advance(cfg, s, m), []) == Advance(cfg, s, m);
  }

  lemma TwoMoves(cfg: Config, s: System, m: Move, n: Move)
    ensures RunSystem(cfg, s, [m, n]) == Advance(cfg, Advance(cfg, s, m), n)
  {
    assert [m, n] == [m] + [n];
    SystemSplits(cfg, s, [m], [n]);
    OneMove(cfg, s, m);
    OneMove(cfg, Advance(cfg, s, m), n);
  }

  lemma MovesKeep(cfg: Config, s: System, moves: seq<Move>)
    requires ValidConfig(cfg) && Inv(cfg, s.core)
    ensures Inv(cfg, RunSystem(cfg, s, moves).core)
  {
    var actions, events := HalvesRun(cfg, s, moves);
    RunKeeps(cfg, s.core, actions);
  }

  lemma KafkaMove(cfg: Config, s: System, e: F.Event)
    requires s.core.up && !e.Consume? && !e.EndScan? && !e.Die?
    ensures Advance(cfg, s, OnKafka(e)) == System(s.core, F.Next(cfg, s.feed, e))
  {
    RunOneEvent(cfg, s.feed, e);
    assert Run(cfg, s.core, []) == s.core;
  }

  lemma RequestMove(cfg: Config, s: System, r: Request)
    requires s.core.worker.Idle?
    ensures Advance(cfg, s, OnTables(Manage(r))) == System(ManageStep(s.core, r), s.feed)
  {
    RunOne(cfg, s.core, Manage(r));
    assert F.RunFeed(cfg, s.feed, []) == s.feed;
  }

  /** The tables, and what the loop needs to know of the rest, after a message was consumed. */
  lemma ConsumeMove(cfg: Config, s: System, it: Iteration, p: int)
    requires Polled(cfg, s, p).Some?
    ensures var o := Polled(cfg, s, p).value;
            var s' := Advance(cfg, s, ConsumeMessage(p, it.now, it.mesReceiving, it.mesStatus));
            && s'.feed == F.ConsumeStep(s.feed, p)
            && s'.core.up && s'.core.worker == s.core.worker
            && s'.core.db == (match s.feed.parts[p].messages[o]
                              case Invalid => s.core.db
                              case Valid(hb) => Processed(s.core.db, hb, it.now, it.mesReceiving, it.mesStatus))
  {
    RunOneEvent(cfg, s.feed, F.Consume(p));
    match s.feed.parts[p].messages[Polled(cfg, s, p).value]
    case Valid(hb) => RunOne(cfg, s.core, Beat(hb, it.now, it.mesReceiving, it.mesStatus, true));
    case Invalid => assert Run(cfg, s.core, []) == s.core;
  }

  lemma ScanMove(cfg: Config, s: System, it: Iteration, order: seq<string>)
    requires s.core.up && s.feed.place == F.Scanning
    ensures var s' := Advance(cfg, s, ScanDevices(it.scanClock, order, it.scanNow, it.mes));
            && s'.feed == s.feed.(place := F.Polling)
            && s'.core == (if G.Open(cfg, s.feed.health, it.scanClock)
                           then Step(cfg, s.core, StaleScan(order, it.scanNow, it.mes, true)) else s.core)
  {
    RunOneEvent(cfg, s.feed, F.EndScan);
    RunOne(cfg, s.core, StaleScan(order, it.scanNow, it.mes, true));
    assert Run(cfg, s.core, []) == s.core;
  }

  class NotifierProcess {
    const cfg: Config
    const repo: PostgresRepository
    const notifier: HeartbeatNotifier
    const consumer: KafkaConsumer

    /** Start of the process: interrupted jobs are recovered and the stored states loaded. */
    constructor (cfg: Config, db: Database, parts: map<int, F.Part>, committed: map<int, int>, now: real, ghost c: Core)
      requires db.Valid() && c.db == db.Tables() && !c.up && c.worker.Idle?
      modifies db
      ensures this.cfg == cfg && repo.db == db && Wired() && fresh({repo, notifier, consumer})
      ensures Models(System(Step(cfg, c, Restart(now)), F.Initial(parts, committed)), F.Polling)
      ensures notifier.devices == Loaded(db.Tables())
    {
      this.cfg := cfg;
      var r := new PostgresRepository(db);
      repo := r;
      notifier := new HeartbeatNotifier(cfg, r);
      consumer := new KafkaConsumer(parts, committed);
      new;
      repo.RecoverJobs(now);
      notifier.ReloadManagedStates();
    }

    predicate Wired() {
      notifier.cfg == cfg && notifier.repo == repo
    }

    /** The objects are in the given state of the system, with the loop at the given place. */
    ghost predicate Models(s: System, place: F.Place)
      reads notifier, repo, repo.db, consumer
    {
      && s.core.db == repo.db.Tables() && s.core.up && s.core.worker.Idle?
      && s.feed.parts == consumer.parts && s.feed.cursors == consumer.cursors && s.feed.committed == consumer.committed
      && s.feed.health == notifier.Health() && s.feed.place == place
      && !repo.current && repo.db.Valid() && notifier.TargetsAssigned()
    }

    // ----- before a poll returns -----

    method BrokersMove(e: F.Event, ghost s: System)
      requires Wired() && Models(s, F.Polling) && (e.Append? || e.Trim?)
      modifies consumer
      ensures Models(Advance(cfg, s, OnKafka(e)), F.Polling)
    {
      KafkaMove(cfg, s, e);
      consumer.Observe(cfg, e);
    }

    method Reassign(ps: set<int>, ghost s: System)
      requires Wired() && Models(s, F.Polling)
      modifies consumer, notifier
      ensures Models(Advance(cfg, s, OnKafka(F.Rebalance(ps))), F.Polling)
    {
      KafkaMove(cfg, s, F.Rebalance(ps));
      consumer.Assign(cfg, ps);
      notifier.OnAssignmentChange();
    }

    method ServeRequest(r: Request, ghost s: System)
      requires Wired() && Models(s, F.Polling)
      modifies repo.db
      ensures Models(Advance(cfg, s, OnTables(Manage(r))), F.Polling)
    {
      RequestMove(cfg, s, r);
      var api := new ManagementApi(repo.db);
      var _ := api.Serve(r);
    }

    method Happen(h: Happening, ghost s: System)
      requires Wired() && Models(s, F.Polling)
      modifies notifier, repo.db, consumer
      ensures Models(RunSystem(cfg, s, HappeningMoves(h)), F.Polling)
    {
      match h {
        case Broker(e) =>
          if e.Append? || e.Trim? {
            BrokersMove(e, s);
            OneMove(cfg, s, OnKafka(e));
          }
        case Assigned(ps) =>
          Reassign(ps, s);
          OneMove(cfg, s, OnKafka(F.Rebalance(ps)));
        case Requested(r) =>
          ServeRequest(r, s);
          OneMove(cfg, s, OnTables(Manage(r)));
      }
    }

    /** All that happens before the poll returns. */
    method HappenAll(hs: seq<Happening>, ghost s: System)
      requires Wired() && Models(s, F.Polling)
      modifies notifier, repo.db, consumer
      ensures Models(RunSystem(cfg, s, BeforeMoves(hs)), F.Polling)
    {
      var i := 0;
      ghost var g := s;
      while i < |hs|
        invariant 0 <= i <= |hs| && Models(g, F.Polling)
        invariant RunSystem(cfg, g, BeforeMoves(hs[i..])) == RunSystem(cfg, s, BeforeMoves(hs))
      {
        assert hs[i..][0] == hs[i] && hs[i..][1..] == hs[i + 1..];
        SystemSplits(cfg, g, HappeningMoves(hs[i]), BeforeMoves(hs[i + 1..]));
        Happen(hs[i], g);
        g := RunSystem(cfg, g, HappeningMoves(hs[i]));
        i := i + 1;
      }
    }

    // ----- poll, process, commit -----

    /** The record a poll returns is processed in one transaction. */
    method PollAndProcess(p: int, it: Iteration, ghost s: System) returns (offset: Option<int>)
      requires Wired() && Models(s, F.Polling)
      modifies notifier, repo, repo.db, consumer
      ensures offset == Polled(cfg, s, p)
      ensures offset.None? ==> Models(s, F.Polling)
      ensures offset.Some? ==>
                Models(Advance(cfg, s, ConsumeMessage(p, it.now, it.mesReceiving, it.mesStatus)),
                       F.Committing(p, offset.value))
    {
      offset := consumer.Poll(cfg, p);
      if offset.Some? {
        ConsumeMove(cfg, s, it, p);
        var message := consumer.parts[p].messages[offset.value];
        var _ := notifier.Process(message, it.now, it.mesReceiving, it.mesStatus, Clean);
      }
    }

    method CommitOffset(p: int, offset: int, it: Iteration, ghost s: System)
      requires Wired() && Models(s, F.Committing(p, offset))
      modifies notifier, consumer
      ensures Models(Advance(cfg, s, OnKafka(F.CommitOffset(it.applied, it.raised))),
                     if it.raised then F.Polling else F.Checking)
    {
      KafkaMove(cfg, s, F.CommitOffset(it.applied, it.raised));
      consumer.Commit(p, offset, it.applied, it.raised);
      if it.raised {
        notifier.MarkKafkaUnhealthy();
      }
    }

    /** True when the iteration goes on to the check; an error, polled or raised by the commit, ends it. */
    method PollOnce(it: Iteration, ghost s: System) returns (checks: bool)
      requires Wired() && Models(s, F.Polling)
      modifies notifier, repo, repo.db, consumer
      ensures Models(RunSystem(cfg, s, PollMoves(cfg, s, it)), if checks then F.Checking else F.Polling)
    {
      match it.poll {
        case NoRecord =>
          OneMove(cfg, s, OnKafka(F.PollNothing));
          KafkaMove(cfg, s, F.PollNothing);
          checks := true;
        case ErrorRecord(fatal) =>
          OneMove(cfg, s, OnKafka(F.PollError(fatal)));
          KafkaMove(cfg, s, F.PollError(fatal));
          if fatal {
            notifier.MarkKafkaUnhealthy();
          }
          checks := false;
        case NextOf(p) =>
          checks := PollPartition(p, it, s);
      }
    }

    method PollPartition(p: int, it: Iteration, ghost s: System) returns (checks: bool)
      requires Wired() && Models(s, F.Polling) && it.poll == NextOf(p)
      modifies notifier, repo, repo.db, consumer
      ensures Models(RunSystem(cfg, s, PollMoves(cfg, s, it)), if checks then F.Checking else F.Polling)
    {
      var offset := PollAndProcess(p, it, s);
      if offset.None? {
        OneMove(cfg, s, OnKafka(F.PollNothing));
        KafkaMove(cfg, s, F.PollNothing);
        return true;
      }
      ghost var consume := ConsumeMessage(p, it.now, it.mesReceiving, it.mesStatus);
      TwoMoves(cfg, s, consume, OnKafka(F.CommitOffset(it.applied, it.raised)));
      CommitOffset(p, offset.value, it, Advance(cfg, s, consume));
      checks := !it.raised;
    }

    // ----- check and scan -----

    method Check(it: Iteration, ghost s: System)
      requires Wired() && Models(s, F.Checking)
      modifies notifier
      ensures Models(Advance(cfg, s, OnKafka(F.CheckHealth(it.checkClock, it.reachable))), F.Scanning)
    {
      KafkaMove(cfg, s, F.CheckHealth(it.checkClock, it.reachable));
      var survey := consumer.Ask(it.reachable);
      if survey.Some? {
        SurveyMatchesFeed(cfg, s.feed, survey.value);
      }
      notifier.RefreshKafkaHealth(it.checkClock, false, survey);
    }

    method Scan(it: Iteration, ghost s: System)
      requires Wired() && Models(s, F.Scanning) && TablesOk(s.core.db)
      modifies notifier, repo, repo.db
      ensures LoadOrder(s.core.db, notifier.order)
      ensures Models(Advance(cfg, s, ScanDevices(it.scanClock, notifier.order, it.scanNow, it.mes)), F.Polling)
    {
      var _ := notifier.NotifyStaleDevices(it.scanClock, it.scanNow, it.mes, Clean);
      ScanMove(cfg, s, it, notifier.order);
      ScanMatchesTables(s.core.db, Loaded(s.core.db), notifier.order, it.scanNow, cfg.staleAfter, it.mes);
    }

    method CheckAndScan(it: Iteration, ghost s: System) returns (ghost order: seq<string>)
      requires ValidConfig(cfg) && Wired() && Models(s, F.Checking) && Inv(cfg, s.core)
      modifies notifier, repo, repo.db
      ensures Models(RunSystem(cfg, s, CheckMoves(s, it, order)), F.Polling) && LoadOrder(s.core.db, order)
    {
      ghost var check := OnKafka(F.CheckHealth(it.checkClock, it.reachable));
      KafkaMove(cfg, s, F.CheckHealth(it.checkClock, it.reachable));
      Check(it, s);
      Scan(it, Advance(cfg, s, check));
      order := notifier.order;
      TwoMoves(cfg, s, check, ScanDevices(it.scanClock, order, it.scanNow, it.mes));
    }

    /** One iteration, whatever it meets, takes the objects where its moves take the system. */
    method Iterate(it: Iteration, ghost s: System) returns (ghost order: seq<string>)
      requires ValidConfig(cfg) && Wired() && Models(s, F.Polling) && Inv(cfg, s.core)
      modifies notifier, repo, repo.db, consumer
      ensures Models(AfterIteration(cfg, s, it, order), F.Polling) && WalksAll(cfg, s, it, order)
    {
      ghost var s1 := RunSystem(cfg, s, BeforeMoves(it.before));
      ghost var s2 := RunSystem(cfg, s1, PollMoves(cfg, s1, it));
      HappenAll(it.before, s);
      var checks := PollOnce(it, s1);
      order := [];
      if checks {
        MovesKeep(cfg, s, BeforeMoves(it.before));
        MovesKeep(cfg, s1, PollMoves(cfg, s1, it));
        order := CheckAndScan(it, s2);
      }
      SystemSplits(cfg, s, BeforeMoves(it.before), PollMoves(cfg, s1, it));
      SystemSplits(cfg, s, BeforeMoves(it.before) + PollMoves(cfg, s1, it), CheckMoves(s2, it, order));
    }

    /** The first i iterations are done, and the objects are where they led the system. */
    ghost predicate Done(its: seq<Iteration>, i: nat, s: System, turns: seq<Turn>, s': System)
      reads notifier, repo, repo.db, consumer
    {
      && i <= |its| && |turns| == i && (forall k :: 0 <= k < i ==> turns[k].it == its[k])
      && Leads(cfg, s, turns, s') && Models(s', F.Polling) && Inv(cfg, s'.core)
    }

    /** One more turn. */
    method IterateOn(its: seq<Iteration>, i: nat, ghost s: System, ghost turns: seq<Turn>, ghost h: System)
      returns (ghost turns': seq<Turn>, ghost s': System)
      requires ValidConfig(cfg) && Wired() && i < |its| && Done(its, i, s, turns, h)
      modifies notifier, repo, repo.db, consumer
      ensures Done(its, i + 1, s, turns', s')
    {
      var order := Iterate(its[i], h);
      s' := AfterIteration(cfg, h, its[i], order);
      turns' := turns + [Turn(its[i], order)];
      OneMoreTurn(cfg, s, turns, h, Turn(its[i], order), s');
      IterationKeeps(cfg, h, its[i], order);
    }

    /** The loop until it is stopped, iteration by iteration. */
    method RunLoop(its: seq<Iteration>, ghost s: System) returns (ghost turns: seq<Turn>, ghost s': System)
      requires ValidConfig(cfg) && Wired() && Models(s, F.Polling) && Inv(cfg, s.core)
      modifies notifier, repo, repo.db, consumer
      ensures Done(its, |its|, s, turns, s')
    {
      turns, s' := [], s;
      var i := 0;
      while i < |its|
        invariant 0 <= i <= |its| && Done(its, i, s, turns, s')
      {
        turns, s' := IterateOn(its, i, s, turns, s');
        i := i + 1;
      }
    }
  }

  lemma IterationKeeps(cfg: Config, s: System, it: Iteration, order: seq<string>)
    requires ValidConfig(cfg) && Inv(cfg, s.core)
    ensures Inv(cfg, AfterIteration(cfg, s, it, order).core)
  {
    MovesKeep(cfg, s, IterationMoves(cfg, s, it, order));
  }

  lemma OneMoreTurn(cfg: Config, s: System, turns: seq<Turn>, h: System, t: Turn, s': System)
    ensures Leads(cfg, s, turns, h) && TurnLeads(cfg, h, t, s') ==> Leads(cfg, s, turns + [t], s')
  {
    var longer := turns + [t];
    assert longer[..|longer| - 1] == turns && longer[|longer| - 1] == t;
  }

  /** The loop is a run of the notification system, so all that holds of such runs holds of the objects. */
  lemma {:induction false} LoopIsARun(cfg: Config, s: System, turns: seq<Turn>, s': System) returns (moves: seq<Move>)
    ensures Leads(cfg, s, turns, s') ==> s' == RunSystem(cfg, s, moves)
    decreases |turns|
  {
    moves := [];
    if turns != [] && Leads(cfg, s, turns, s') {
      var n := |turns| - 1;
      var h :| Leads(cfg, s, turns[..n], h) && TurnLeads(cfg, h, turns[n], s');
      var before := LoopIsARun(cfg, s, turns[..n], h);
      SystemSplits(cfg, s, before, IterationMoves(cfg, h, turns[n].it, turns[n].order));
      moves := before + IterationMoves(cfg, h, turns[n].it, turns[n].order);
    }
  }

  /** From the first start of the process on, the loop is a run of the system from empty tables: what is
      proved of all such runs holds of the objects after any number of iterations. */
  lemma FreshLoopIsARun(cfg: Config, parts: map<int, F.Part>, committed: map<int, int>, now: real, turns: seq<Turn>,
                        s': System) returns (moves: seq<Move>)
    ensures Leads(cfg, System(Step(cfg, INITIAL, Restart(now)), F.Initial(parts, committed)), turns, s') ==>
              s' == RunSystem(cfg, Start(parts, committed), moves)
  {
    var first := System(Step(cfg, INITIAL, Restart(now)), F.Initial(parts, committed));
    moves := [];
    if Leads(cfg, first, turns, s') {
      FirstStart(cfg, parts, committed, now);
      var rest := LoopIsARun(cfg, first, turns, s');
      moves := [RestartAll(now)] + rest;
      SystemSplits(cfg, Start(parts, committed), [RestartAll(now)], rest);
    }
  }

  lemma FirstStart(cfg: Config, parts: map<int, F.Part>, committed: map<int, int>, now: real)
    ensures RunSystem(cfg, Start(parts, committed), [RestartAll(now)])
         == System(Step(cfg, INITIAL, Restart(now)), F.Initial(parts, committed))
  {
    RunOne(cfg, INITIAL, Restart(now));
    assert F.RunFeed(cfg, F.Initial(parts, committed), []) == F.Initial(parts, committed);
    OneMove(cfg, Start(parts, committed), RestartAll(now));
  }
}
