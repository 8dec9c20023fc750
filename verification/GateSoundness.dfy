/**
 What an open gate means over whole runs: every assigned partition has been read up to the high
 watermark recorded at the snapshot check, the first one that passed after the last disruption.
 */
module GateSoundness {
  import opened Heartbeats
  import opened Settings
  import opened Gate
  import opened Feed

  // ----- the snapshot, read off the history of checks -----

  /** A check starts a new snapshot: it is the first, or follows a disruption, comes too late after the last
      one that passed, or sees another set of partitions. */
  predicate StartsEpoch(cfg: Config, before: seq<Check>, now: real, keys: set<int>) {
    || before == []
    || before[|before| - 1].Disrupted?
    || now - before[|before| - 1].at > cfg.healthMaxAge
    || before[|before| - 1].highs.Keys != keys
  }

  /** The high watermarks recorded when the current epoch started. */
  function Snapshot(cfg: Config, checks: seq<Check>): Option<map<int, int>> {
    if checks == [] then None
    else
      var before, last := checks[..|checks| - 1], checks[|checks| - 1];
      if last.Disrupted? then None
      else if StartsEpoch(cfg, before, last.at, last.highs.Keys) then Some(last.highs)
      else Snapshot(cfg, before)
  }

  /** The snapshot is the record of one check, the first of its epoch, and every check since has passed in
      time with the same partitions. */
  lemma {:induction false} SnapshotIsFirstCheck(cfg: Config, checks: seq<Check>) returns (i: nat)
    requires Snapshot(cfg, checks).Some?
    ensures i < |checks| && checks[i].Passed? && Snapshot(cfg, checks) == Some(checks[i].highs)
    ensures StartsEpoch(cfg, checks[..i], checks[i].at, checks[i].highs.Keys)
    ensures forall k :: i <= k < |checks| ==> checks[k].Passed? && checks[k].highs.Keys == checks[i].highs.Keys
    ensures forall j, k :: i <= j && k == j + 1 && k < |checks| ==> checks[k].at - checks[j].at <= cfg.healthMaxAge
    decreases |checks|
  {
    var n := |checks| - 1;
    if StartsEpoch(cfg, checks[..n], checks[n].at, checks[n].highs.Keys) {
      i := n;
    } else {
      i := SnapshotIsFirstCheck(cfg, checks[..n]);
      assert checks[..n][..i] == checks[..i];
    }
  }

  // ----- the blind spot -----

  /** The partition's position and commit are unknown and the policy is latest: the check takes the current
      end of the log for the place reading starts from. */
  predicate Guessed(cfg: Config, f: Stream, p: int) {
    p in f.cursors && !f.cursors[p].known && p !in f.committed && cfg.reset == Latest
  }

  /** A guess that is wrong: messages lie between where reading really starts and the end of the log. */
  ghost predicate BlindSpot(cfg: Config, f: Stream, p: int) {
    && Guessed(cfg, f, p) && p in f.parts && p in f.start
    && exists o :: o in f.parts[p].messages && f.start[p] <= o
  }

  /** The event is a check that passes and records new watermarks; every other check leaves the record as it is. */
  predicate Records(cfg: Config, f: Stream, e: Event) {
    && e.CheckHealth? && f.place == Checking && e.ok && !Throttled(cfg, f.health, e.now, false) && Surveyable(cfg, f)
    && TakesSnapshot(cfg, f.health, e.now, f.cursors.Keys)
  }

  /** No check of the run records new watermarks while a partition is in the blind spot. */
  ghost predicate Sighted(cfg: Config, f: Stream, events: seq<Event>)
    decreases |events|
  {
    events == [] ||
    (&& (Records(cfg, f, events[0]) ==> forall p :: !BlindSpot(cfg, f, p))
     && Sighted(cfg, Next(cfg, f, events[0]), events[1..]))
  }

  /** With a reset policy other than latest every run is sighted. */
  lemma {:induction false} OtherPoliciesAreSighted(cfg: Config, f: Stream, events: seq<Event>)
    requires cfg.reset != Latest
    ensures Sighted(cfg, f, events)
    decreases |events|
  {
    if events != [] {
      OtherPoliciesAreSighted(cfg, Next(cfg, f, events[0]), events[1..]);
    }
  }

  // ----- the invariant of the gate -----

  /** The partition is done with the snapshot: its effective offset is there, and so is what was handled. */
  ghost predicate Reached(cfg: Config, f: Stream, p: int, target: int)
    requires p in f.cursors && p in f.parts && p in f.start
  {
    && Effective(cfg, f, p).Some? && Effective(cfg, f, p).value >= target
    && ReadUpTo(f, p, target)
    && (Guessed(cfg, f, p) ==> forall o :: o in f.parts[p].messages && f.start[p] <= o ==> o >= target)
  }

  ghost predicate TargetsOk(cfg: Config, f: Stream, snapshot: map<int, int>, targets: map<int, int>) {
    && snapshot.Keys == f.cursors.Keys
    && (forall p :: p in targets ==> p in snapshot && targets[p] == snapshot[p] && !Guessed(cfg, f, p))
    && (forall p :: p in snapshot ==> p in f.parts && p in f.start && snapshot[p] <= f.parts[p].high)
    && (forall p :: p in snapshot && p in targets ==> Effective(cfg, f, p).Some?)
    && (forall p :: p in snapshot && p !in targets ==> Reached(cfg, f, p, snapshot[p]))
  }

  /** The notifier's fields agree with the history of checks. */
  ghost predicate HealthOk(f: Stream) {
    if f.health.healthy then
      && f.health.targets.Some?
      && f.health.keys == f.cursors.Keys
      && f.checks != []
      && f.checks[|f.checks| - 1].Passed?
      && f.checks[|f.checks| - 1].at == f.health.lastSuccess
      && f.checks[|f.checks| - 1].highs.Keys == f.health.keys
    else
      f.health.targets.None? && (f.checks == [] || f.checks[|f.checks| - 1].Disrupted?)
  }

  ghost predicate GateOk(cfg: Config, f: Stream) {
    && FeedOk(f) && HealthOk(f)
    && (f.health.healthy ==>
          && Snapshot(cfg, f.checks).Some?
          && TargetsOk(cfg, f, Snapshot(cfg, f.checks).value, f.health.targets.value))
  }

  /** A passing check takes a snapshot exactly when the history says an epoch starts. */
  lemma FieldsTrackEpochs(cfg: Config, f: Stream, now: real, keys: set<int>)
    requires HealthOk(f)
    ensures TakesSnapshot(cfg, f.health, now, keys) <==> StartsEpoch(cfg, f.checks, now, keys)
  {
  }

  /** What was handled lies in the log, and while a start is only guessed nothing from it on was handled. */
  ghost predicate HandledOk(cfg: Config, f: Stream) {
    && (forall p, o :: (p, o) in f.handled ==> p in f.parts && o < f.parts[p].high)
    && (forall p, o :: (p, o) in f.handled && Guessed(cfg, f, p) && p in f.start ==> o < f.start[p])
  }

  lemma HandledKeeps(cfg: Config, f: Stream, e: Event)
    requires FeedOk(f) && HandledOk(cfg, f)
    ensures HandledOk(cfg, Next(cfg, f, e))
  {
    match e
    case Rebalance(ps) =>
    case Consume(p) =>
    case CommitOffset(applied, raised) =>
    case _ =>
      if e.Append? || e.Trim? {
        BrokersHandleNothing(cfg, f, e);
      } else {
        LoopHandlesNothing(cfg, f, e);
      }
  }

  lemma BrokersHandleNothing(cfg: Config, f: Stream, e: Event)
    requires e.Append? || e.Trim?
    ensures Next(cfg, f, e) == f.(parts := Next(cfg, f, e).parts)
    ensures forall p :: p in f.parts ==> p in Next(cfg, f, e).parts && Next(cfg, f, e).parts[p].high >= f.parts[p].high
  {
  }

  lemma LoopHandlesNothing(cfg: Config, f: Stream, e: Event)
    requires !e.Append? && !e.Trim? && !e.Rebalance? && !e.Consume? && !e.CommitOffset?
    ensures var f' := Next(cfg, f, e);
            && f'.handled == f.handled && f'.committed == f.committed && f'.start == f.start && f'.parts == f.parts
            && (f'.cursors == f.cursors || f'.cursors == map[])
  {
    match e
    case PollNothing =>
    case PollError(_) =>
    case CheckHealth(_, _) =>
    case EndScan =>
    case Die =>
  }

  lemma {:induction false} RunKeepsHandled(cfg: Config, f: Stream, events: seq<Event>)
    requires FeedOk(f) && HandledOk(cfg, f)
    ensures FeedOk(RunFeed(cfg, f, events)) && HandledOk(cfg, RunFeed(cfg, f, events))
    decreases |events|
  {
    if events != [] {
      NextKeeps(cfg, f, events[0]);
      HandledKeeps(cfg, f, events[0]);
      RunKeepsHandled(cfg, Next(cfg, f, events[0]), events[1..]);
    }
  }

  /** In every reachable state, a check would count a partition as caught up with a message before the recorded
      watermark unhandled exactly if the partition is in the blind spot. */
  lemma BlindSpotIsExact(cfg: Config, parts: map<int, Part>, committed: map<int, int>, events: seq<Event>, p: int)
    requires Startable(parts, committed)
    requires var f := RunFeed(cfg, Initial(parts, committed), events);
             p in f.cursors && p in f.parts && Effective(cfg, f, p).Some?
    ensures var f := RunFeed(cfg, Initial(parts, committed), events);
            && p in f.start
            && (Effective(cfg, f, p).value >= f.parts[p].high && !ReadUpTo(f, p, f.parts[p].high)
                <==> BlindSpot(cfg, f, p))
  {
    RunKeepsHandled(cfg, Initial(parts, committed), events);
  }

  // ----- the steps -----

  lemma ReachedAsLogGrows(cfg: Config, f: Stream, f': Stream, p: int, target: int)
    requires p in f.cursors && p in f.parts && p in f.start && Reached(cfg, f, p, target)
    requires p in f'.parts && f' == f.(parts := f'.parts)
    requires target <= f.parts[p].high <= f'.parts[p].high && f.parts[p].low <= f'.parts[p].low
    requires forall o :: o in f'.parts[p].messages && o < f.parts[p].high ==> o in f.parts[p].messages
    ensures Reached(cfg, f', p, target)
  {
    forall o | o in f'.parts[p].messages && o < target ensures o in f.parts[p].messages {}
  }

  /** One partition's log grows at the end or loses messages at the front; the gate is not affected. */
  lemma PartChangeKeepsGate(cfg: Config, f: Stream, p: int, part: Part)
    requires GateOk(cfg, f) && FeedOk(f.(parts := f.parts[p := part]))
    requires p in f.parts ==>
               && f.parts[p].high <= part.high && f.parts[p].low <= part.low
               && (forall o :: o in part.messages && o < f.parts[p].high ==> o in f.parts[p].messages)
    ensures GateOk(cfg, f.(parts := f.parts[p := part]))
  {
    if f.health.healthy {
      TargetsAfterPartChange(cfg, f, p, part, Snapshot(cfg, f.checks).value, f.health.targets.value);
    }
  }

  lemma TargetsAfterPartChange(cfg: Config, f: Stream, p: int, part: Part, snapshot: map<int, int>,
                               targets: map<int, int>)
    requires TargetsOk(cfg, f, snapshot, targets)
    requires p in f.parts ==>
               && f.parts[p].high <= part.high && f.parts[p].low <= part.low
               && (forall o :: o in part.messages && o < f.parts[p].high ==> o in f.parts[p].messages)
    ensures TargetsOk(cfg, f.(parts := f.parts[p := part]), snapshot, targets)
  {
    var f' := f.(parts := f.parts[p := part]);
    forall q | q in snapshot && q !in targets
      ensures Reached(cfg, f', q, snapshot[q])
    {
      ReachedAsLogGrows(cfg, f, f', q, snapshot[q]);
    }
  }

  lemma BrokerKeepsGate(cfg: Config, f: Stream, e: Event)
    requires GateOk(cfg, f) && (e.Append? || e.Trim?)
    ensures GateOk(cfg, Next(cfg, f, e))
  {
    BrokerKeeps(cfg, f, e);
    match e
    case Append(p, gap, message) =>
      PartChangeKeepsGate(cfg, f, p, Appended(if p in f.parts then f.parts[p] else Part(0, 0, map[]), gap, message));
    case Trim(p, low) =>
      if p in f.parts && f.parts[p].low <= low <= f.parts[p].high {
        PartChangeKeepsGate(cfg, f, p, Trimmed(f.parts[p], low));
      }
  }

  /** Reading on keeps what was reached; a guess that was right turns into a known position past the target. */
  lemma ReachedAsReadingGoesOn(cfg: Config, f: Stream, p: int, q: int, target: int)
    requires FeedOk(f) && p in f.cursors && q in f.cursors && Reached(cfg, f, q, target)
    ensures Reached(cfg, ConsumeStep(f, p), q, target)
  {
    var o := NextOffset(f.parts[p], f.cursors[p].next);
    if o.Some? && q == p {
      assert f.start[p] <= f.cursors[p].next <= o.value;
      assert o.value >= f.parts[p].low;
    }
  }

  lemma ConsumeKeepsGate(cfg: Config, f: Stream, p: int)
    requires GateOk(cfg, f) && f.place == Polling && p in f.cursors
    ensures GateOk(cfg, ConsumeStep(f, p))
  {
    var f' := ConsumeStep(f, p);
    ConsumeKeeps(f, p);
    if f.health.healthy {
      assert f'.cursors.Keys == f.cursors.Keys;
      TargetsAfterConsume(cfg, f, p);
    }
  }

  lemma TargetsAfterConsume(cfg: Config, f: Stream, p: int)
    requires FeedOk(f) && p in f.cursors && f.health.healthy && f.health.targets.Some?
    requires Snapshot(cfg, f.checks).Some?
    requires TargetsOk(cfg, f, Snapshot(cfg, f.checks).value, f.health.targets.value)
    ensures TargetsOk(cfg, ConsumeStep(f, p), Snapshot(cfg, f.checks).value, f.health.targets.value)
  {
    var f' := ConsumeStep(f, p);
    var snapshot, targets := Snapshot(cfg, f.checks).value, f.health.targets.value;
    assert f'.cursors.Keys == f.cursors.Keys;
    forall q | q in snapshot && q !in targets
      ensures Reached(cfg, f', q, snapshot[q])
    {
      ReachedAsReadingGoesOn(cfg, f, p, q, snapshot[q]);
    }
  }

  lemma CommitKeepsGate(cfg: Config, f: Stream, applied: bool, raised: bool)
    requires GateOk(cfg, f) && f.place.Committing?
    ensures GateOk(cfg, CommitStep(f, applied, raised))
  {
    var f' := CommitStep(f, applied, raised);
    if !raised && f.health.healthy {
      var snapshot, targets := Snapshot(cfg, f.checks).value, f.health.targets.value;
      forall q | q in snapshot && q !in targets
        ensures Reached(cfg, f', q, snapshot[q])
      {
      }
    }
  }

  lemma ReachedKeepsBook(cfg: Config, f: Stream, f': Stream, p: int, target: int)
    requires p in f.cursors && p in f.parts && p in f.start && Reached(cfg, f, p, target)
    requires f' == f.(place := f'.place, health := f'.health, checks := f'.checks)
    ensures Reached(cfg, f', p, target)
  {
  }

  /** Targets of the current epoch after a passing check: the ones not reached, each with its recorded value. Only
      partitions that were targets before are judged here, and only they must not be in the blind spot. */
  lemma PassedTargets(cfg: Config, f: Stream, f': Stream, snapshot: map<int, int>, earlier: map<int, int>)
    requires FeedOk(f) && Surveyable(cfg, f) && forall p :: p in earlier ==> !BlindSpot(cfg, f, p)
    requires f' == f.(place := f'.place, health := f'.health, checks := f'.checks)
    requires snapshot.Keys == f.cursors.Keys && forall p :: p in snapshot ==> snapshot[p] <= f.parts[p].high
    requires forall p :: p in earlier ==> p in snapshot && earlier[p] == snapshot[p]
    requires forall p :: p in snapshot && p !in earlier ==> Reached(cfg, f, p, snapshot[p])
    ensures TargetsOk(cfg, f', snapshot, Pruned(earlier, CurrentView(cfg, f).value.offsets))
  {
    var offsets := CurrentView(cfg, f).value.offsets;
    var targets := Pruned(earlier, offsets);
    forall p | p in snapshot
      ensures p in targets ==> targets[p] == snapshot[p] && !Guessed(cfg, f, p) && Effective(cfg, f', p).Some?
      ensures p !in targets ==> Reached(cfg, f', p, snapshot[p])
    {
      assert offsets[p] == Effective(cfg, f, p).value;
      if p !in targets {
        ReachedKeepsBook(cfg, f, f', p, snapshot[p]);
      }
    }
  }

  lemma PassedHealth(cfg: Config, f: Stream, now: real)
    requires HealthOk(f) && f.place == Checking && !Throttled(cfg, f.health, now, false) && Surveyable(cfg, f)
    requires f.health.healthy ==> Snapshot(cfg, f.checks).Some?
    ensures var f', view := CheckStep(cfg, f, now, true), CurrentView(cfg, f).value;
            var again := TakesSnapshot(cfg, f.health, now, f.cursors.Keys);
            && HealthOk(f') && f'.health.healthy
            && view.highs.Keys == f.cursors.Keys
            && Snapshot(cfg, f'.checks) == (if again then Some(view.highs) else Snapshot(cfg, f.checks))
            && (!again ==> f.health.healthy && f.health.targets.Some?)
            && f'.health.targets
               == Some(Pruned(if again then view.highs else f.health.targets.value, view.offsets))
  {
    var highs := CurrentView(cfg, f).value.highs;
    assert highs.Keys == f.cursors.Keys;
    FieldsTrackEpochs(cfg, f, now, highs.Keys);
  }

  lemma PassKeepsGate(cfg: Config, f: Stream, now: real)
    requires GateOk(cfg, f) && f.place == Checking && !Throttled(cfg, f.health, now, false) && Surveyable(cfg, f)
    requires Records(cfg, f, CheckHealth(now, true)) ==> forall p :: !BlindSpot(cfg, f, p)
    ensures GateOk(cfg, CheckStep(cfg, f, now, true))
  {
    var f' := CheckStep(cfg, f, now, true);
    var highs := CurrentView(cfg, f).value.highs;
    SameReading(f, f');
    PassedHealth(cfg, f, now);
    if TakesSnapshot(cfg, f.health, now, highs.Keys) {
      PassedTargets(cfg, f, f', highs, highs);
    } else {
      PassedTargets(cfg, f, f', Snapshot(cfg, f.checks).value, f.health.targets.value);
    }
  }

  lemma CheckKeepsGate(cfg: Config, f: Stream, now: real, ok: bool)
    requires GateOk(cfg, f) && f.place == Checking
    requires Records(cfg, f, CheckHealth(now, ok)) ==> forall p :: !BlindSpot(cfg, f, p)
    ensures GateOk(cfg, CheckStep(cfg, f, now, ok))
  {
    if Throttled(cfg, f.health, now, false) {
      SamePlaceKeepsGate(cfg, f, Scanning);
    } else if ok && Surveyable(cfg, f) {
      PassKeepsGate(cfg, f, now);
    } else {
      SameReading(f, CheckStep(cfg, f, now, ok));
    }
  }

  /** Moving on in the loop changes nothing else. */
  lemma SamePlaceKeepsGate(cfg: Config, f: Stream, place: Place)
    requires GateOk(cfg, f) && !place.Committing?
    ensures GateOk(cfg, f.(place := place))
  {
    var f' := f.(place := place);
    SameReading(f, f');
    if f.health.healthy {
      var snapshot, targets := Snapshot(cfg, f.checks).value, f.health.targets.value;
      forall q | q in snapshot && q !in targets
        ensures Reached(cfg, f', q, snapshot[q])
      {
        ReachedKeepsBook(cfg, f, f', q, snapshot[q]);
      }
    }
  }

  lemma NextKeepsGate(cfg: Config, f: Stream, e: Event)
    requires GateOk(cfg, f)
    requires Records(cfg, f, e) ==> forall p :: !BlindSpot(cfg, f, p)
    ensures GateOk(cfg, Next(cfg, f, e))
  {
    match e
    case Append(_, _, _) => BrokerKeepsGate(cfg, f, e);
    case Trim(_, _) => BrokerKeepsGate(cfg, f, e);
    case Consume(p) =>
      if f.place == Polling && p in f.cursors {
        ConsumeKeepsGate(cfg, f, p);
      }
    case CommitOffset(applied, raised) =>
      if f.place.Committing? {
        CommitKeepsGate(cfg, f, applied, raised);
      }
    case CheckHealth(now, ok) =>
      if f.place == Checking {
        CheckKeepsGate(cfg, f, now, ok);
      }
    case PollNothing =>
      if f.place == Polling {
        SamePlaceKeepsGate(cfg, f, Checking);
      }
    case EndScan =>
      if f.place == Scanning {
        SamePlaceKeepsGate(cfg, f, Polling);
      }
    case _ => DisruptionKeepsGate(cfg, f, e);
  }

  /** A disruption closes the gate and starts over. */
  lemma DisruptionKeepsGate(cfg: Config, f: Stream, e: Event)
    requires GateOk(cfg, f) && (e.Rebalance? || e.PollError? || e.Die?)
    ensures GateOk(cfg, Next(cfg, f, e))
  {
    if Next(cfg, f, e) != f {
      NextKeeps(cfg, f, e);
    }
  }

  lemma {:induction false} RunKeepsGate(cfg: Config, f: Stream, events: seq<Event>)
    requires GateOk(cfg, f) && Sighted(cfg, f, events)
    ensures GateOk(cfg, RunFeed(cfg, f, events))
    decreases |events|
  {
    if events != [] {
      NextKeepsGate(cfg, f, events[0]);
      RunKeepsGate(cfg, Next(cfg, f, events[0]), events[1..]);
    }
  }

  /** What an open gate stands for, spelled out on the history of checks: check i is the first of the epoch,
      and every assigned partition has been read up to the high watermark recorded at it. */
  ghost predicate CaughtUpSince(cfg: Config, f: Stream, i: nat) {
    && i < |f.checks| && f.checks[i].Passed?
    && StartsEpoch(cfg, f.checks[..i], f.checks[i].at, f.checks[i].highs.Keys)
    && (forall k :: i <= k < |f.checks| ==> f.checks[k].Passed? && f.checks[k].highs.Keys == f.cursors.Keys)
    && (forall j, k :: i <= j && k == j + 1 && k < |f.checks| ==>
          f.checks[k].at - f.checks[j].at <= cfg.healthMaxAge)
    && (forall p :: p in f.cursors ==>
          && p in f.parts && p in f.start && p in f.checks[i].highs
          && Effective(cfg, f, p).Some? && Effective(cfg, f, p).value >= f.checks[i].highs[p]
          && ReadUpTo(f, p, f.checks[i].highs[p]))
  }

  lemma OpenGateMeansCaughtUp(cfg: Config, f: Stream, now: real) returns (i: nat)
    requires GateOk(cfg, f) && Open(cfg, f.health, now)
    ensures CaughtUpSince(cfg, f, i)
    ensures now - f.checks[|f.checks| - 1].at <= cfg.healthMaxAge
  {
    i := SnapshotIsFirstCheck(cfg, f.checks);
    forall p | p in f.cursors
      ensures p in f.parts && p in f.start && p in f.checks[i].highs && Reached(cfg, f, p, f.checks[i].highs[p])
    {
      assert p in Snapshot(cfg, f.checks).value;
    }
  }

  /** Gate soundness: in every sighted run, whenever the gate is open, everything up to the watermarks of the
      first check after the last disruption has been handled. */
  lemma GateIsSound(cfg: Config, parts: map<int, Part>, committed: map<int, int>, events: seq<Event>, now: real)
    returns (i: nat)
    requires Startable(parts, committed) && Sighted(cfg, Initial(parts, committed), events)
    requires Open(cfg, RunFeed(cfg, Initial(parts, committed), events).health, now)
    ensures CaughtUpSince(cfg, RunFeed(cfg, Initial(parts, committed), events), i)
  {
    RunKeepsGate(cfg, Initial(parts, committed), events);
    i := OpenGateMeansCaughtUp(cfg, RunFeed(cfg, Initial(parts, committed), events), now);
  }

  // ----- exactly when every dropped target was read -----

  /** Every recorded partition that is no longer a target has been read up to its recorded watermark. */
  ghost predicate Kept(cfg: Config, f: Stream) {
    f.health.healthy && f.health.targets.Some? && Snapshot(cfg, f.checks).Some? ==>
      forall p :: p in Snapshot(cfg, f.checks).value && p !in f.health.targets.value ==>
        p in f.parts && p in f.start && ReadUpTo(f, p, Snapshot(cfg, f.checks).value[p])
  }

  ghost predicate AlwaysKept(cfg: Config, f: Stream, events: seq<Event>)
    decreases |events|
  {
    Kept(cfg, f) && (events == [] || AlwaysKept(cfg, Next(cfg, f, events[0]), events[1..]))
  }

  lemma UnreadInBlindSpot(cfg: Config, f: Stream, f': Stream, p: int)
    requires HandledOk(cfg, f) && BlindSpot(cfg, f, p) && FeedOk(f)
    requires f'.parts == f.parts && f'.start == f.start && f'.handled == f.handled
    ensures !ReadUpTo(f', p, f.parts[p].high)
  {
    var o :| o in f.parts[p].messages && f.start[p] <= o;
    assert o in f'.parts[p].messages && (p, o) !in f'.handled;
  }

  lemma RecordDropsGuess(cfg: Config, f: Stream, now: real, p: int)
    requires GateOk(cfg, f) && Records(cfg, f, CheckHealth(now, true)) && Guessed(cfg, f, p)
    ensures var f' := CheckStep(cfg, f, now, true);
            && f'.health.healthy && f'.health.targets.Some? && p !in f'.health.targets.value
            && Snapshot(cfg, f'.checks).Some? && p in Snapshot(cfg, f'.checks).value
            && Snapshot(cfg, f'.checks).value[p] == f.parts[p].high
  {
    var view := CurrentView(cfg, f).value;
    PassedHealth(cfg, f, now);
    assert view.highs[p] == f.parts[p].high && view.offsets[p] == Effective(cfg, f, p).value;
  }

  /** Recording in the blind spot drops the partition's target at once, over a message that was not read. */
  lemma BlindRecordBreaks(cfg: Config, f: Stream, e: Event, p: int)
    requires GateOk(cfg, f) && HandledOk(cfg, f) && Records(cfg, f, e) && BlindSpot(cfg, f, p)
    ensures !Kept(cfg, Next(cfg, f, e))
  {
    RecordDropsGuess(cfg, f, e.now, p);
    UnreadInBlindSpot(cfg, f, CheckStep(cfg, f, e.now, true), p);
  }

  lemma {:induction false} KeptExactly(cfg: Config, f: Stream, events: seq<Event>)
    requires GateOk(cfg, f) && HandledOk(cfg, f)
    ensures AlwaysKept(cfg, f, events) <==> Sighted(cfg, f, events)
    decreases |events|
  {
    if events != [] {
      var e, f1 := events[0], Next(cfg, f, events[0]);
      if Records(cfg, f, e) && exists p :: BlindSpot(cfg, f, p) {
        var p :| BlindSpot(cfg, f, p);
        BlindRecordBreaks(cfg, f, e, p);
        assert !AlwaysKept(cfg, f1, events[1..]);
      } else {
        NextKeepsGate(cfg, f, e);
        HandledKeeps(cfg, f, e);
        KeptExactly(cfg, f1, events[1..]);
      }
    }
  }

  /** Throughout a run, every dropped target was read up to its recorded watermark exactly if no check of the run
      records new watermarks in the blind spot. */
  lemma RunsKeepThePromiseUnlessBlind(cfg: Config, parts: map<int, Part>, committed: map<int, int>, events: seq<Event>)
    requires Startable(parts, committed)
    ensures AlwaysKept(cfg, Initial(parts, committed), events) <==> Sighted(cfg, Initial(parts, committed), events)
  {
    KeptExactly(cfg, Initial(parts, committed), events);
  }

  /** A fresh assignment of an empty partition, and a message that arrives before the first check. */
  function BeforeTheCheck(cfg: Config, message: Message): Stream {
    var f := Next(cfg, Initial(map[0 := Part(0, 0, map[])], map[]), Rebalance({0}));
    Next(cfg, Next(cfg, f, Append(0, 0, message)), PollNothing)
  }

  lemma StateBeforeTheCheck(cfg: Config, message: Message)
    requires ValidConfig(cfg) && cfg.reset == Latest
    ensures var f := BeforeTheCheck(cfg, message);
            && f.parts == map[0 := Part(0, 1, map[0 := message])] && f.cursors == map[0 := Cursor(0, false)]
            && f.committed == map[] && f.start == map[0 := 0] && f.handled == {}
            && f.place == Checking && f.health == UNCHECKED && f.checks == [Disrupted]
  {
    var f := Next(cfg, Initial(map[0 := Part(0, 0, map[])], map[]), Rebalance({0}));
    assert f.cursors == map[0 := Cursor(0, false)] && f.start == map[0 := 0];
    assert Next(cfg, f, Append(0, 0, message)).parts == map[0 := Part(0, 1, map[0 := message])];
  }

  lemma BlindCheck(cfg: Config, f: Stream, message: Message)
    requires ValidConfig(cfg) && cfg.reset == Latest
    requires f.parts == map[0 := Part(0, 1, map[0 := message])] && f.cursors == map[0 := Cursor(0, false)]
    requires f.committed == map[] && f.place == Checking && f.health == UNCHECKED && f.checks == [Disrupted]
    ensures var f' := CheckStep(cfg, f, cfg.checkInterval, true);
            && Open(cfg, f'.health, cfg.checkInterval)
            && f'.checks == [Disrupted, Passed(cfg.checkInterval, map[0 := 1])] && f'.cursors == f.cursors
            && f'.parts == f.parts && f'.start == f.start && f'.handled == f.handled
  {
    assert 0 in f.cursors && Effective(cfg, f, 0) == Some(1);
    var view := CurrentView(cfg, f).value;
    assert view.highs == map[0 := 1] && view.offsets == map[0 := 1];
  }

  function BlindRun(cfg: Config, message: Message): seq<Event> {
    [Rebalance({0}), Append(0, 0, message), PollNothing, CheckHealth(cfg.checkInterval, true)]
  }

  /** The blind spot is real under the latest policy: a message that arrives between the assignment and the
      first check is counted as read, and the gate opens over it. */
  lemma LatestOpensOverUnreadMessage(cfg: Config, message: Message)
    requires ValidConfig(cfg) && cfg.reset == Latest
    ensures var f := RunFeed(cfg, Initial(map[0 := Part(0, 0, map[])], map[]), BlindRun(cfg, message));
            && Open(cfg, f.health, cfg.checkInterval)
            && f.checks == [Disrupted, Passed(cfg.checkInterval, map[0 := 1])] && 0 in f.cursors
            && f.parts == map[0 := Part(0, 1, map[0 := message])] && f.start == map[0 := 0] && f.handled == {}
  {
    StateBeforeTheCheck(cfg, message);
    BlindCheck(cfg, BeforeTheCheck(cfg, message), message);
    FourEvents(cfg, Initial(map[0 := Part(0, 0, map[])], map[]),
               Rebalance({0}), Append(0, 0, message), PollNothing, CheckHealth(cfg.checkInterval, true));
  }

  /** The gate is open only over what was read: in this state, and in every run of the configuration. */
  ghost predicate OpenOnlyWhenCaughtUp(cfg: Config, f: Stream) {
    forall now :: Open(cfg, f.health, now) ==> exists i :: CaughtUpSince(cfg, f, i)
  }

  ghost predicate GateKeepsItsPromise(cfg: Config) {
    forall parts, committed, events :: Startable(parts, committed) ==>
      OpenOnlyWhenCaughtUp(cfg, RunFeed(cfg, Initial(parts, committed), events))
  }

  /** Whether the gate keeps its promise in all runs is a matter of the configured policy, and of nothing else. */
  lemma GateIsSoundUnlessLatest(cfg: Config)
    requires ValidConfig(cfg)
    ensures GateKeepsItsPromise(cfg) <==> cfg.reset != Latest
  {
    if cfg.reset == Latest {
      LatestBreaksThePromise(cfg);
    } else {
      forall parts, committed, events | Startable(parts, committed)
        ensures OpenOnlyWhenCaughtUp(cfg, RunFeed(cfg, Initial(parts, committed), events))
      {
        OtherPoliciesKeepThePromise(cfg, parts, committed, events);
      }
    }
  }

  lemma OtherPoliciesKeepThePromise(cfg: Config, parts: map<int, Part>, committed: map<int, int>, events: seq<Event>)
    requires cfg.reset != Latest && Startable(parts, committed)
    ensures OpenOnlyWhenCaughtUp(cfg, RunFeed(cfg, Initial(parts, committed), events))
  {
    forall now | Open(cfg, RunFeed(cfg, Initial(parts, committed), events).health, now)
      ensures exists i :: CaughtUpSince(cfg, RunFeed(cfg, Initial(parts, committed), events), i)
    {
      OtherPoliciesAreSighted(cfg, Initial(parts, committed), events);
      var i := GateIsSound(cfg, parts, committed, events, now);
    }
  }

  lemma LatestBreaksThePromise(cfg: Config)
    requires ValidConfig(cfg) && cfg.reset == Latest
    ensures !GateKeepsItsPromise(cfg)
  {
    var parts: map<int, Part>, committed: map<int, int> := map[0 := Part(0, 0, map[])], map[];
    var f := RunFeed(cfg, Initial(parts, committed), BlindRun(cfg, Invalid));
    LatestOpensOverUnreadMessage(cfg, Invalid);
    forall i ensures !CaughtUpSince(cfg, f, i) {
      UnreadIsNotCaughtUp(cfg, f, i);
    }
    assert Startable(parts, committed) && !OpenOnlyWhenCaughtUp(cfg, f);
  }

  lemma UnreadIsNotCaughtUp(cfg: Config, f: Stream, i: nat)
    requires f.checks == [Disrupted, Passed(cfg.checkInterval, map[0 := 1])] && 0 in f.cursors
    requires f.parts == map[0 := Part(0, 1, map[0 := Invalid])] && f.start == map[0 := 0] && f.handled == {}
    ensures !CaughtUpSince(cfg, f, i)
  {
    assert 0 in f.parts[0].messages && (0, 0) !in f.handled;
  }

  lemma FirstEvent(cfg: Config, f: Stream, e: Event, rest: seq<Event>)
    ensures RunFeed(cfg, f, [e] + rest) == RunFeed(cfg, Next(cfg, f, e), rest)
  {
    assert ([e] + rest)[1..] == rest;
  }

  lemma FourEvents(cfg: Config, f: Stream, a: Event, b: Event, c: Event, d: Event)
    ensures RunFeed(cfg, f, [a, b, c, d]) == Next(cfg, Next(cfg, Next(cfg, Next(cfg, f, a), b), c), d)
  {
    var f1 := Next(cfg, f, a);
    var f2 := Next(cfg, f1, b);
    var f3 := Next(cfg, f2, c);
    FirstEvent(cfg, f, a, [b, c, d]);
    FirstEvent(cfg, f1, b, [c, d]);
    FirstEvent(cfg, f2, c, [d]);
    FirstEvent(cfg, f3, d, []);
    assert [a] + [b, c, d] == [a, b, c, d] && [b] + [c, d] == [b, c, d] && [c] + [d] == [c, d] && [d] + [] == [d];
  }
}
