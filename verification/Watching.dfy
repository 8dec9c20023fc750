/**
 What the loop must come to: partitions are read from where they should be, the next message is processed, checks
 run when they are due, the gate opens once everything is read, and silence is then reported.
 */
module Watching {
  import opened Heartbeats
  import opened Tables
  import opened Settings
  import opened Protocol
  import opened Delivery
  import opened Reports
  import opened NotificationSystem
  import opened ConsumerLoop
  import G = Gate
  import F = Feed

  // ----- the Kafka side -----

  /** Reading of an assigned partition starts at the committed offset, else where the policy says; no other partition
      is read, and the next check is due. */
  lemma AssignmentStartsReading(cfg: Config, f: F.Stream, ps: set<int>, p: int)
    requires f.place == F.Polling
    ensures var f' := F.Next(cfg, f, F.Rebalance(ps));
            && (p in f'.cursors <==> p in ps && p in f.parts)
            && (p in f'.cursors && p in f.committed ==> f'.cursors[p] == F.Cursor(f.committed[p], false))
            && (p in f'.cursors && p !in f.committed && cfg.reset == Latest ==>
                  f'.cursors[p] == F.Cursor(f.parts[p].high, false))
            && (p in f'.cursors && p !in f.committed && cfg.reset == Earliest ==>
                  f'.cursors[p] == F.Cursor(f.parts[p].low, false))
            && (p in f'.cursors ==> (F.Readable(cfg, f', p) <==> p in f.committed || cfg.reset != Other))
            && !f'.health.healthy && f'.health.targets == None && f'.health.lastCheck == 0.0
            && f'.place == F.Polling && f'.committed == f.committed && f'.parts == f.parts
  {
  }

  /** Something says where a partition's reading stands. */
  predicate Placed(cfg: Config, f: F.Stream, p: int)
    requires p in f.cursors
  {
    || (f.cursors[p].known && f.cursors[p].next >= 0)
    || (p in f.committed && f.committed[p] >= 0)
    || cfg.reset == Latest || cfg.reset == Earliest
  }

  /** A check that is due runs: it succeeds exactly if the brokers answer and there are partitions, all of which can
      be placed; a check that is not due changes nothing. */
  lemma DueChecksRun(cfg: Config, f: F.Stream, now: real, ok: bool)
    requires f.place == F.Checking
    ensures var f' := F.Next(cfg, f, F.CheckHealth(now, ok));
            && f'.place == F.Scanning
            && (now - f.health.lastCheck < cfg.checkInterval ==> f'.health == f.health)
            && (now - f.health.lastCheck >= cfg.checkInterval ==>
                  && f'.health.lastCheck == now
                  && (f'.health.healthy <==>
                        && ok && |f.cursors| > 0
                        && forall p :: p in f.cursors ==> p in f.parts && Placed(cfg, f, p))
                  && (f'.health.healthy ==> f'.health.lastSuccess == now && f'.health.keys == f.cursors.Keys)
                  && (!f'.health.healthy ==> f'.health.targets == None))
  {
    assert forall p :: p in f.cursors && p in f.parts ==> (F.Effective(cfg, f, p).Some? <==> Placed(cfg, f, p));
  }

  /** After a reassignment the first check on a clock past the interval runs, however recent the last one was. */
  lemma ReassignmentBringsACheck(cfg: Config, f: F.Stream, ps: set<int>, now: real, ok: bool)
    requires f.place == F.Polling && now >= cfg.checkInterval
    ensures var f1 := F.Next(cfg, F.Next(cfg, f, F.Rebalance(ps)), F.PollNothing);
            f1.place == F.Checking && F.Next(cfg, f1, F.CheckHealth(now, ok)).health.lastCheck == now
  {
    var f1 := F.Next(cfg, F.Next(cfg, f, F.Rebalance(ps)), F.PollNothing);
    assert f1.place == F.Checking && f1.health.lastCheck == 0.0;
    DueChecksRun(cfg, f1, now, ok);
  }

  /** A fatal poll error closes the gate; any other error changes nothing. */
  lemma FatalErrorsCloseTheGate(cfg: Config, f: F.Stream, fatal: bool)
    requires f.place == F.Polling
    ensures var f' := F.Next(cfg, f, F.PollError(fatal));
            && (if fatal then !f'.health.healthy && f'.health.targets == None else f' == f)
            && f'.place == F.Polling && f'.cursors == f.cursors && f'.committed == f.committed
            && f'.health.lastCheck == f.health.lastCheck
  {
  }

  /** No target lies beyond the end of its partition. */
  ghost predicate TargetsBelowEnds(f: F.Stream) {
    f.health.targets.Some? ==>
      forall p :: p in f.health.targets.value && p in f.parts ==> f.health.targets.value[p] <= f.parts[p].high
  }

  ghost predicate TargetsKnown(f: F.Stream) {
    f.health.targets.Some? ==> f.health.targets.value.Keys <= f.parts.Keys
  }

  lemma NextKeepsBelow(cfg: Config, f: F.Stream, e: F.Event)
    requires TargetsBelowEnds(f) && TargetsKnown(f) && F.FeedOk(f)
    ensures TargetsBelowEnds(F.Next(cfg, f, e)) && TargetsKnown(F.Next(cfg, f, e))
  {
    match e
    case CheckHealth(now, ok) =>
    case _ =>
  }

  lemma {:induction false} RunKeepsBelow(cfg: Config, f: F.Stream, events: seq<F.Event>)
    requires TargetsBelowEnds(f) && TargetsKnown(f) && F.FeedOk(f)
    ensures TargetsBelowEnds(F.RunFeed(cfg, f, events))
    decreases |events|
  {
    if events != [] {
      NextKeepsBelow(cfg, f, events[0]);
      F.NextKeeps(cfg, f, events[0]);
      RunKeepsBelow(cfg, F.Next(cfg, f, events[0]), events[1..]);
    }
  }

  /** Every assigned partition has been read to its end. */
  ghost predicate AllRead(f: F.Stream) {
    && |f.cursors| > 0
    && forall p :: p in f.cursors ==> p in f.parts && f.cursors[p] == F.Cursor(f.parts[p].high, true)
  }

  /** In every reachable state, blind spot or not: once all is read, a due check that reaches the brokers opens the
      gate, for as long as its success is valid. */
  lemma AllReadOpensTheGate(cfg: Config, parts: map<int, F.Part>, committed: map<int, int>, events: seq<F.Event>,
                            now: real)
    requires F.Startable(parts, committed)
    requires var f := F.RunFeed(cfg, F.Initial(parts, committed), events);
             f.place == F.Checking && AllRead(f) && now - f.health.lastCheck >= cfg.checkInterval
    ensures var f := F.RunFeed(cfg, F.Initial(parts, committed), events);
            var h := F.Next(cfg, f, F.CheckHealth(now, true)).health;
            h.healthy && h.lastSuccess == now && h.targets == Some(map[])
  {
    var f := F.RunFeed(cfg, F.Initial(parts, committed), events);
    F.RunFeedKeeps(cfg, F.Initial(parts, committed), events);
    RunKeepsBelow(cfg, F.Initial(parts, committed), events);
    DueChecksRun(cfg, f, now, true);
    NothingIsLeft(cfg, f, now);
  }

  lemma NothingIsLeft(cfg: Config, f: F.Stream, now: real)
    requires F.FeedOk(f) && TargetsBelowEnds(f)
    requires f.place == F.Checking && AllRead(f) && now - f.health.lastCheck >= cfg.checkInterval
    ensures F.Next(cfg, f, F.CheckHealth(now, true)).health.targets == Some(map[])
  {
    var view := F.CurrentView(cfg, f);
    assert forall p :: p in f.cursors ==> F.Effective(cfg, f, p) == Some(f.parts[p].high);
    assert view.Some? && forall p :: p in f.cursors ==> view.value.offsets[p] == view.value.highs[p] == f.parts[p].high;
    var targets := if G.TakesSnapshot(cfg, f.health, now, view.value.highs.Keys) || f.health.targets.None?
                   then view.value.highs else f.health.targets.value;
    G.EmptyMap(G.Pruned(targets, view.value.offsets));
  }
  // ----- both sides together -----

  /** The next message of a partition: none lies between the position and it. */
  ghost predicate NextMessage(f: F.Stream, p: int, o: int)
    requires p in f.cursors && p in f.parts
  {
    && f.cursors[p].next <= o < f.parts[p].high && o in f.parts[p].messages
    && forall k :: f.cursors[p].next <= k < o ==> k !in f.parts[p].messages
  }

  lemma NextMessageIsPolled(cfg: Config, s: System, p: int, o: int)
    requires s.core.up && s.feed.place == F.Polling && F.Readable(cfg, s.feed, p) && NextMessage(s.feed, p, o)
    ensures Polled(cfg, s, p) == Some(o)
  {
  }

  /** In every reachable state: polling a partition that can be read processes its next message, moves the position
      past it and goes on to commit it; a heartbeat is reported in full, an invalid message only skipped. */
  lemma MessagesAreProcessed(cfg: Config, parts: map<int, F.Part>, committed: map<int, int>, moves: seq<Move>, p: int,
                             o: int, now: real, m1: bool, m2: bool)
    requires ValidConfig(cfg)
    requires var s := RunSystem(cfg, Start(parts, committed), moves);
             && s.core.up && s.feed.place == F.Polling && F.Readable(cfg, s.feed, p) && NextMessage(s.feed, p, o)
    ensures var s := RunSystem(cfg, Start(parts, committed), moves);
            var s' := Advance(cfg, s, ConsumeMessage(p, now, m1, m2));
            && s'.feed == s.feed.(cursors := s.feed.cursors[p := F.Cursor(o + 1, true)],
                                  handled := s.feed.handled + {(p, o)}, place := F.Committing(p, o))
            && (match s.feed.parts[p].messages[o]
                case Invalid => s'.core == s.core
                case Valid(hb) =>
                  && s'.core.db == BeatOutcome(s.core.db, hb, now, m1, m2)
                  && s'.core.trace == s.core.trace + BeatReport(s.core.db, hb, m1, m2))
  {
    var s := RunSystem(cfg, Start(parts, committed), moves);
    var actions, events := HalvesRun(cfg, Start(parts, committed), moves);
    NextMessageIsPolled(cfg, s, p, o);
    RunOneEvent(cfg, s.feed, F.Consume(p));
    match s.feed.parts[p].messages[o]
    case Invalid => assert Run(cfg, s.core, []) == s.core;
    case Valid(hb) =>
      RunOne(cfg, s.core, Beat(hb, now, m1, m2, true));
      HeartbeatsAreReported(cfg, actions, hb, now, m1, m2, Missing);
  }

  /** The commit that follows records the offset after the message, unless it failed before it was applied. */
  lemma OffsetsAreCommitted(cfg: Config, s: System, p: int, o: int, applied: bool, raised: bool)
    requires s.core.up && s.feed.place == F.Committing(p, o)
    ensures var s' := Advance(cfg, s, OnKafka(F.CommitOffset(applied, raised)));
            && s'.core == s.core
            && s'.feed.committed == (if raised && !applied then s.feed.committed else s.feed.committed[p := o + 1])
            && s'.feed.place == (if raised then F.Polling else F.Checking)
            && (raised ==> !s'.feed.health.healthy) && (!raised ==> s'.feed.health == s.feed.health)
  {
    KafkaMove(cfg, s, F.CommitOffset(applied, raised));
  }

  /** In every reachable state: a scan through an open gate reports exactly the silent devices, whatever the loop has
      done before; through a closed one it does nothing. */
  lemma OpenGateReportsSilence(cfg: Config, parts: map<int, F.Part>, committed: map<int, int>, moves: seq<Move>,
                               clock: real, order: seq<string>, now: real, mes: set<string>)
    requires ValidConfig(cfg)
    requires var s := RunSystem(cfg, Start(parts, committed), moves);
             s.core.up && s.feed.place == F.Scanning && LoadOrder(s.core.db, order)
    ensures var s := RunSystem(cfg, Start(parts, committed), moves);
            var s', h := Advance(cfg, s, ScanDevices(clock, order, now, mes)), s.feed.health;
            && s'.feed == s.feed.(place := F.Polling) && s'.core.up
            && if h.healthy && clock - h.lastSuccess <= cfg.healthMaxAge && h.targets == Some(map[])
               then && s'.core.db == ScanOutcome(s.core.db, order, now, cfg.staleAfter, mes)
                    && s'.core.trace == s.core.trace + ScanReport(s.core.db, order, now, cfg.staleAfter, mes)
               else s'.core == s.core
  {
    var s := RunSystem(cfg, Start(parts, committed), moves);
    var actions, events := HalvesRun(cfg, Start(parts, committed), moves);
    RunOneEvent(cfg, s.feed, F.EndScan);
    RunOne(cfg, s.core, StaleScan(order, now, mes, true));
    assert Run(cfg, s.core, []) == s.core;
    ScansDoNothingElse(cfg, actions, order, now, mes);
  }

  /** Worker and management act at any moment, as they do in the tables' own system. */
  lemma OthersActAnyTime(cfg: Config, s: System, a: Action)
    requires a.Claim? || a.EnterGuard? || a.GuardBreaks? || a.ConnectionLost? || a.SmtpAnswers? || a.CommitSent?
          || a.CommitFailure? || a.Manage?
    ensures Advance(cfg, s, OnTables(a)) == System(Step(cfg, s.core, a), s.feed)
  {
    RunOne(cfg, s.core, a);
    assert F.RunFeed(cfg, s.feed, []) == s.feed;
  }

  /** An iteration in which nothing is polled: a check and a scan. */
  lemma QuietMoves(cfg: Config, s: System, it: Iteration, order: seq<string>)
    requires s.core.up && s.feed.place == F.Polling && it.before == [] && it.poll == NoRecord
    ensures IterationMoves(cfg, s, it, order)
         == [OnKafka(F.PollNothing), OnKafka(F.CheckHealth(it.checkClock, it.reachable)),
             ScanDevices(it.scanClock, order, it.scanNow, it.mes)]
    ensures WalksAll(cfg, s, it, order) ==> LoadOrder(s.core.db, order)
  {
    OneMove(cfg, s, OnKafka(F.PollNothing));
    KafkaMove(cfg, s, F.PollNothing);
    assert RunSystem(cfg, s, []) == s;
  }

  /** An iteration in which a message is polled and its commit raises nothing: both, then a check and a scan. */
  lemma BusyMoves(cfg: Config, s: System, it: Iteration, p: int, order: seq<string>)
    requires it.before == [] && it.poll == NextOf(p) && Polled(cfg, s, p).Some? && !it.raised
    ensures IterationMoves(cfg, s, it, order)
         == [ConsumeMessage(p, it.now, it.mesReceiving, it.mesStatus), OnKafka(F.CommitOffset(it.applied, false)),
             OnKafka(F.CheckHealth(it.checkClock, it.reachable)), ScanDevices(it.scanClock, order, it.scanNow, it.mes)]
  {
    var consume, commit := ConsumeMessage(p, it.now, it.mesReceiving, it.mesStatus),
                           OnKafka(F.CommitOffset(it.applied, false));
    ConsumeMove(cfg, s, it, p);
    TwoMoves(cfg, s, consume, commit);
    OffsetsAreCommitted(cfg, Advance(cfg, s, consume), p, Polled(cfg, s, p).value, it.applied, false);
    assert RunSystem(cfg, s, []) == s;
  }

  /** An error, polled or raised by the commit, ends the iteration before the check. */
  lemma ErrorMoves(cfg: Config, s: System, it: Iteration, order: seq<string>)
    requires s.core.up && s.feed.place == F.Polling && it.before == []
    ensures it.poll.ErrorRecord? ==> IterationMoves(cfg, s, it, order) == [OnKafka(F.PollError(it.poll.fatal))]
    ensures it.poll.NextOf? && Polled(cfg, s, it.poll.partition).Some? && it.raised ==>
              IterationMoves(cfg, s, it, order)
              == [ConsumeMessage(it.poll.partition, it.now, it.mesReceiving, it.mesStatus),
                  OnKafka(F.CommitOffset(it.applied, true))]
  {
    assert RunSystem(cfg, s, []) == s;
    match it.poll
    case ErrorRecord(fatal) =>
      OneMove(cfg, s, OnKafka(F.PollError(fatal)));
      KafkaMove(cfg, s, F.PollError(fatal));
    case NextOf(p) =>
      if Polled(cfg, s, p).Some? && it.raised {
        var consume, commit := ConsumeMessage(p, it.now, it.mesReceiving, it.mesStatus),
                               OnKafka(F.CommitOffset(it.applied, true));
        ConsumeMove(cfg, s, it, p);
        TwoMoves(cfg, s, consume, commit);
        OffsetsAreCommitted(cfg, Advance(cfg, s, consume), p, Polled(cfg, s, p).value, it.applied, true);
      }
    case NoRecord =>
  }

  /** Before the poll, assignments and requests take effect one after the other. */
  lemma HappeningsTakeEffect(cfg: Config, s: System, ps: set<int>, r: Request)
    requires s.core.up
    ensures RunSystem(cfg, s, BeforeMoves([Assigned(ps), Requested(r)]))
         == System(Step(cfg, s.core, Manage(r)), F.Next(cfg, s.feed, F.Rebalance(ps)))
  {
    var hs := [Assigned(ps), Requested(r)];
    assert hs[1..] == [Requested(r)] && hs[1..][1..] == [];
    assert BeforeMoves(hs[1..]) == HappeningMoves(Requested(r)) + BeforeMoves([]) == [OnTables(Manage(r))];
    assert BeforeMoves(hs) == [OnKafka(F.Rebalance(ps)), OnTables(Manage(r))];
    TwoMoves(cfg, s, OnKafka(F.Rebalance(ps)), OnTables(Manage(r)));
    KafkaMove(cfg, s, F.Rebalance(ps));
    OthersActAnyTime(cfg, Advance(cfg, s, OnKafka(F.Rebalance(ps))), Manage(r));
  }

  lemma QuietIteration(cfg: Config, s: System, it: Iteration, order: seq<string>)
    requires s.core.up && s.feed.place == F.Polling && it.before == [] && it.poll == NoRecord
    ensures var poll, check := OnKafka(F.PollNothing), OnKafka(F.CheckHealth(it.checkClock, it.reachable));
            AfterIteration(cfg, s, it, order)
            == Advance(cfg, Advance(cfg, Advance(cfg, s, poll), check),
                       ScanDevices(it.scanClock, order, it.scanNow, it.mes))
  {
    var poll, check := OnKafka(F.PollNothing), OnKafka(F.CheckHealth(it.checkClock, it.reachable));
    var scan := ScanDevices(it.scanClock, order, it.scanNow, it.mes);
    QuietMoves(cfg, s, it, order);
    assert [poll, check, scan] == [poll, check] + [scan];
    SystemSplits(cfg, s, [poll, check], [scan]);
    TwoMoves(cfg, s, poll, check);
    OneMove(cfg, RunSystem(cfg, s, [poll, check]), scan);
  }

  lemma TwoMoreMoves(cfg: Config, s: System, moves: seq<Move>, m: Move, n: Move)
    ensures RunSystem(cfg, s, moves + [m, n]) == Advance(cfg, Advance(cfg, RunSystem(cfg, s, moves), m), n)
  {
    SystemSplits(cfg, s, moves, [m, n]);
    TwoMoves(cfg, RunSystem(cfg, s, moves), m, n);
  }

  /** From every reachable state in which all is read, one quiet iteration of the loop, with its check due and answered
      and its scan soon after, reports exactly the silent devices. */
  lemma ReadLoopReportsSilence(cfg: Config, parts: map<int, F.Part>, committed: map<int, int>, moves: seq<Move>,
                               t: Turn, s': System)
    requires ValidConfig(cfg) && F.Startable(parts, committed)
    requires var s, it := RunSystem(cfg, Start(parts, committed), moves), t.it;
             && s.core.up && s.feed.place == F.Polling && AllRead(s.feed)
             && it.before == [] && it.poll == NoRecord && it.reachable
             && it.checkClock - s.feed.health.lastCheck >= cfg.checkInterval
             && it.scanClock - it.checkClock <= cfg.healthMaxAge
             && TurnLeads(cfg, s, t, s')
    ensures var s, it := RunSystem(cfg, Start(parts, committed), moves), t.it;
            && LoadOrder(s.core.db, t.order)
            && s'.core.db == ScanOutcome(s.core.db, t.order, it.scanNow, cfg.staleAfter, it.mes)
            && s'.core.trace == s.core.trace + ScanReport(s.core.db, t.order, it.scanNow, cfg.staleAfter, it.mes)
            && s'.core.up && s'.feed.place == F.Polling
  {
    var s, it := RunSystem(cfg, Start(parts, committed), moves), t.it;
    var poll, check := OnKafka(F.PollNothing), OnKafka(F.CheckHealth(it.checkClock, true));
    QuietMoves(cfg, s, it, t.order);
    QuietIteration(cfg, s, it, t.order);
    QuietCheck(cfg, parts, committed, moves, it.checkClock);
    TwoMoreMoves(cfg, Start(parts, committed), moves, poll, check);
    OpenGateReportsSilence(cfg, parts, committed, moves + [poll, check], it.scanClock, t.order, it.scanNow, it.mes);
  }

  lemma QuietCheck(cfg: Config, parts: map<int, F.Part>, committed: map<int, int>, moves: seq<Move>, now: real)
    requires F.Startable(parts, committed)
    requires var s := RunSystem(cfg, Start(parts, committed), moves);
             && s.core.up && s.feed.place == F.Polling && AllRead(s.feed)
             && now - s.feed.health.lastCheck >= cfg.checkInterval
    ensures var s := RunSystem(cfg, Start(parts, committed), moves);
            var s' := Advance(cfg, Advance(cfg, s, OnKafka(F.PollNothing)), OnKafka(F.CheckHealth(now, true)));
            && s'.core == s.core && s'.feed.place == F.Scanning
            && s'.feed.health.healthy && s'.feed.health.lastSuccess == now && s'.feed.health.targets == Some(map[])
  {
    var s := RunSystem(cfg, Start(parts, committed), moves);
    var actions, events := HalvesRun(cfg, Start(parts, committed), moves);
    KafkaMove(cfg, s, F.PollNothing);
    var s1 := Advance(cfg, s, OnKafka(F.PollNothing));
    KafkaMove(cfg, s1, F.CheckHealth(now, true));
    FeedSplits(cfg, F.Initial(parts, committed), events, [F.PollNothing]);
    RunOneEvent(cfg, s.feed, F.PollNothing);
    AllReadOpensTheGate(cfg, parts, committed, events + [F.PollNothing], now);
  }
}
