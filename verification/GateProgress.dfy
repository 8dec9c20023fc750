/**
 Catching up does not depend on new traffic: within one epoch the live targets only shrink, what is
 outstanding over them is a measure that brokers cannot raise and reading lowers, and the gate opens at
 the first check that finds nothing outstanding. This holds of every run, under every reset policy.
 */
module GateProgress {
  import opened Settings
  import opened Gate
  import opened Feed
  import opened GateSoundness

  predicate LiveTarget(f: Stream, p: int) {
    f.health.targets.Some? && p in f.health.targets.value
  }

  /** How far a partition's effective offset is from its target; nothing once it has none. */
  function Gap(cfg: Config, f: Stream, p: int): nat {
    if LiveTarget(f, p) && p in f.cursors && p in f.parts && Effective(cfg, f, p).Some?
       && f.health.targets.value[p] > Effective(cfg, f, p).value
    then f.health.targets.value[p] - Effective(cfg, f, p).value else 0
  }

  ghost function GapSum(cfg: Config, f: Stream, ps: set<int>): nat {
    if ps == {} then 0
    else var p := Pick(ps); Gap(cfg, f, p) + GapSum(cfg, f, ps - {p})
  }

  /** What is outstanding: the gaps of all assigned partitions. */
  ghost function Outstanding(cfg: Config, f: Stream): nat {
    GapSum(cfg, f, f.cursors.Keys)
  }

  ghost function Pick(ps: set<int>): (p: int)
    requires ps != {}
    ensures p in ps
  {
    EmptySet(ps);
    var p :| p in ps; p
  }

  /** Pointwise smaller gaps sum to no more, and to less if one of them is smaller. */
  lemma {:induction false} SmallerGaps(cfg: Config, f: Stream, f': Stream, ps: set<int>)
    requires forall p :: p in ps ==> Gap(cfg, f', p) <= Gap(cfg, f, p)
    ensures GapSum(cfg, f', ps) <= GapSum(cfg, f, ps)
    ensures (exists p :: p in ps && Gap(cfg, f', p) < Gap(cfg, f, p)) ==> GapSum(cfg, f', ps) < GapSum(cfg, f, ps)
    decreases ps
  {
    if ps != {} {
      var p := Pick(ps);
      SmallerGaps(cfg, f, f', ps - {p});
      if q :| q in ps && Gap(cfg, f', q) < Gap(cfg, f, q) {
        assert q == p || q in ps - {p};
      }
    }
  }

  lemma {:induction false} NothingOutstanding(cfg: Config, f: Stream, ps: set<int>)
    ensures GapSum(cfg, f, ps) == 0 <==> forall p :: p in ps ==> Gap(cfg, f, p) == 0
    decreases ps
  {
    if ps != {} {
      var p := Pick(ps);
      NothingOutstanding(cfg, f, ps - {p});
      assert forall q :: q in ps ==> q == p || q in ps - {p};
    }
  }

  // ----- the invariant of the targets, blind spot or not -----

  /** A live target is an assigned partition's recorded watermark, and its effective offset is no guess. */
  ghost predicate TargetOk(cfg: Config, f: Stream, p: int) {
    && p in f.cursors && p in f.parts
    && Snapshot(cfg, f.checks).Some? && p in Snapshot(cfg, f.checks).value
    && f.health.targets.Some? && p in f.health.targets.value
    && f.health.targets.value[p] == Snapshot(cfg, f.checks).value[p]
    && Effective(cfg, f, p).Some? && !Guessed(cfg, f, p)
  }

  ghost predicate EpochOk(cfg: Config, f: Stream) {
    && FeedOk(f) && HealthOk(f)
    && (f.health.healthy ==>
          && Snapshot(cfg, f.checks).Some?
          && Snapshot(cfg, f.checks).value.Keys == f.cursors.Keys
          && forall p :: LiveTarget(f, p) ==> TargetOk(cfg, f, p))
  }

  lemma BrokerKeepsTarget(cfg: Config, f: Stream, e: Event, p: int)
    requires (e.Append? || e.Trim?) && TargetOk(cfg, f, p)
    ensures TargetOk(cfg, Next(cfg, f, e), p)
  {
  }

  lemma ConsumeKeepsTarget(cfg: Config, f: Stream, q: int, p: int)
    requires FeedOk(f) && q in f.cursors && TargetOk(cfg, f, p)
    ensures TargetOk(cfg, ConsumeStep(f, q), p)
  {
  }

  lemma CommitKeepsTarget(cfg: Config, f: Stream, applied: bool, p: int)
    requires FeedOk(f) && f.place.Committing? && TargetOk(cfg, f, p)
    ensures TargetOk(cfg, CommitStep(f, applied, false), p)
  {
  }

  lemma BrokerKeepsEpoch(cfg: Config, f: Stream, e: Event)
    requires EpochOk(cfg, f) && (e.Append? || e.Trim?)
    ensures EpochOk(cfg, Next(cfg, f, e))
  {
    var f' := Next(cfg, f, e);
    BrokerKeeps(cfg, f, e);
    BrokersHandleNothing(cfg, f, e);
    if f.health.healthy {
      forall p | LiveTarget(f', p) ensures TargetOk(cfg, f', p) {
        BrokerKeepsTarget(cfg, f, e, p);
      }
    }
  }

  lemma ConsumeKeepsEpoch(cfg: Config, f: Stream, q: int)
    requires EpochOk(cfg, f) && f.place == Polling && q in f.cursors
    ensures EpochOk(cfg, ConsumeStep(f, q))
  {
    var f' := ConsumeStep(f, q);
    ConsumeKeeps(f, q);
    assert f'.cursors.Keys == f.cursors.Keys;
    if f.health.healthy {
      forall p | LiveTarget(f', p) ensures TargetOk(cfg, f', p) {
        ConsumeKeepsTarget(cfg, f, q, p);
      }
    }
  }

  lemma CommitKeepsEpoch(cfg: Config, f: Stream, applied: bool, raised: bool)
    requires EpochOk(cfg, f) && f.place.Committing?
    ensures EpochOk(cfg, CommitStep(f, applied, raised))
  {
    var f' := CommitStep(f, applied, raised);
    if !raised && f.health.healthy {
      forall p | LiveTarget(f', p) ensures TargetOk(cfg, f', p) {
        CommitKeepsTarget(cfg, f, applied, p);
      }
    }
  }

  /** A partition that stays a target at a passing check is really behind: a guess would be at the end. */
  lemma StaysTarget(cfg: Config, f: Stream, now: real, p: int)
    requires EpochOk(cfg, f) && f.place == Checking && !Throttled(cfg, f.health, now, false) && Surveyable(cfg, f)
    requires LiveTarget(CheckStep(cfg, f, now, true), p)
    ensures TargetOk(cfg, CheckStep(cfg, f, now, true), p)
  {
    PassedHealth(cfg, f, now);
    var view := CurrentView(cfg, f).value;
    assert p in f.cursors && view.offsets[p] == Effective(cfg, f, p).value && view.highs[p] == f.parts[p].high;
    if !TakesSnapshot(cfg, f.health, now, f.cursors.Keys) {
      assert LiveTarget(f, p) && TargetOk(cfg, f, p);
    }
  }

  lemma CheckKeepsEpoch(cfg: Config, f: Stream, now: real, ok: bool)
    requires EpochOk(cfg, f) && f.place == Checking
    ensures EpochOk(cfg, CheckStep(cfg, f, now, ok))
  {
    BookkeepingKeeps(cfg, f, CheckHealth(now, ok));
    if Throttled(cfg, f.health, now, false) {
      SameBookKeepsEpoch(cfg, f, f.(place := Scanning));
    } else if ok && Surveyable(cfg, f) {
      PassKeepsEpoch(cfg, f, now);
    }
  }

  lemma PassKeepsEpoch(cfg: Config, f: Stream, now: real)
    requires EpochOk(cfg, f) && f.place == Checking && !Throttled(cfg, f.health, now, false) && Surveyable(cfg, f)
    requires FeedOk(CheckStep(cfg, f, now, true))
    ensures EpochOk(cfg, CheckStep(cfg, f, now, true))
  {
    var f' := CheckStep(cfg, f, now, true);
    PassedHealth(cfg, f, now);
    forall p | LiveTarget(f', p) ensures TargetOk(cfg, f', p) {
      StaysTarget(cfg, f, now, p);
    }
  }

  lemma SameBookKeepsEpoch(cfg: Config, f: Stream, f': Stream)
    requires EpochOk(cfg, f) && f' == f.(place := f'.place) && !f'.place.Committing?
    ensures EpochOk(cfg, f')
  {
    SameReading(f, f');
    if f.health.healthy {
      forall p | LiveTarget(f', p) ensures TargetOk(cfg, f', p) {
        assert TargetOk(cfg, f, p);
      }
    }
  }

  /** A disruption leaves no target. */
  lemma DisruptionKeepsEpoch(cfg: Config, f: Stream, e: Event)
    requires EpochOk(cfg, f) && (e.Rebalance? || e.PollError? || e.Die?)
    ensures EpochOk(cfg, Next(cfg, f, e))
  {
    if Next(cfg, f, e) != f {
      NextKeeps(cfg, f, e);
    }
  }

  lemma NextKeepsEpoch(cfg: Config, f: Stream, e: Event)
    requires EpochOk(cfg, f)
    ensures EpochOk(cfg, Next(cfg, f, e))
  {
    match e
    case Append(_, _, _) => BrokerKeepsEpoch(cfg, f, e);
    case Trim(_, _) => BrokerKeepsEpoch(cfg, f, e);
    case Consume(p) =>
      if f.place == Polling && p in f.cursors {
        ConsumeKeepsEpoch(cfg, f, p);
      }
    case CommitOffset(applied, raised) =>
      if f.place.Committing? {
        CommitKeepsEpoch(cfg, f, applied, raised);
      }
    case CheckHealth(now, ok) =>
      if f.place == Checking {
        CheckKeepsEpoch(cfg, f, now, ok);
      }
    case PollNothing =>
      if f.place == Polling {
        SameBookKeepsEpoch(cfg, f, f.(place := Checking));
      }
    case EndScan =>
      if f.place == Scanning {
        SameBookKeepsEpoch(cfg, f, f.(place := Polling));
      }
    case _ => DisruptionKeepsEpoch(cfg, f, e);
  }

  lemma {:induction false} RunKeepsEpoch(cfg: Config, f: Stream, events: seq<Event>)
    requires EpochOk(cfg, f)
    ensures EpochOk(cfg, RunFeed(cfg, f, events))
    decreases |events|
  {
    if events != [] {
      NextKeepsEpoch(cfg, f, events[0]);
      RunKeepsEpoch(cfg, Next(cfg, f, events[0]), events[1..]);
    }
  }

  lemma ReachableEpoch(cfg: Config, parts: map<int, Part>, committed: map<int, int>, events: seq<Event>)
    requires Startable(parts, committed)
    ensures EpochOk(cfg, RunFeed(cfg, Initial(parts, committed), events))
  {
    RunKeepsEpoch(cfg, Initial(parts, committed), events);
  }

  // ----- one step within an epoch -----

  /** The step neither disrupts the health nor is a check that starts a new epoch. */
  predicate StaysInEpoch(cfg: Config, f: Stream, e: Event) {
    && f.health.healthy && Next(cfg, f, e).health.healthy
    && (e.CheckHealth? && f.place == Checking && !Throttled(cfg, f.health, e.now, false) ==>
          !TakesSnapshot(cfg, f.health, e.now, f.cursors.Keys))
  }

  /** The same snapshot, the same partitions, and targets that are a part of what they were, with the same values. */
  ghost predicate SameEpoch(cfg: Config, f: Stream, f': Stream) {
    && f.health.targets.Some? && f'.health.targets.Some?
    && Snapshot(cfg, f'.checks) == Snapshot(cfg, f.checks)
    && f'.cursors.Keys == f.cursors.Keys
    && (forall p :: p in f'.health.targets.value ==>
          p in f.health.targets.value && f'.health.targets.value[p] == f.health.targets.value[p])
  }

  lemma StepShrinksTargets(cfg: Config, f: Stream, e: Event)
    requires EpochOk(cfg, f) && StaysInEpoch(cfg, f, e)
    ensures SameEpoch(cfg, f, Next(cfg, f, e))
  {
    match e
    case CheckHealth(now, ok) =>
      if f.place == Checking && !Throttled(cfg, f.health, now, false) {
        PassedHealth(cfg, f, now);
      }
    case Consume(p) => assert Next(cfg, f, e).cursors.Keys == f.cursors.Keys;
    case _ =>
  }

  lemma ReadingRaisesOffsets(cfg: Config, f: Stream, q: int, p: int)
    requires FeedOk(f) && q in f.cursors && TargetOk(cfg, f, p)
    ensures var f' := ConsumeStep(f, q);
            && p in f'.cursors && p in f'.parts && Effective(cfg, f', p).Some?
            && Effective(cfg, f', p).value >= Effective(cfg, f, p).value
            && (p == q && f' != f ==> Effective(cfg, f', p).value > Effective(cfg, f, p).value)
  {
  }

  /** In an epoch no step widens a gap. */
  lemma GapsOnlyNarrow(cfg: Config, f: Stream, e: Event, p: int)
    requires EpochOk(cfg, f) && StaysInEpoch(cfg, f, e)
    ensures Gap(cfg, Next(cfg, f, e), p) <= Gap(cfg, f, p)
  {
    StepShrinksTargets(cfg, f, e);
    if LiveTarget(Next(cfg, f, e), p) {
      assert TargetOk(cfg, f, p);
    }
  }

  lemma StepProgresses(cfg: Config, f: Stream, e: Event)
    requires EpochOk(cfg, f) && StaysInEpoch(cfg, f, e)
    ensures Outstanding(cfg, Next(cfg, f, e)) <= Outstanding(cfg, f)
  {
    var f' := Next(cfg, f, e);
    StepShrinksTargets(cfg, f, e);
    forall p | p in f.cursors.Keys ensures Gap(cfg, f', p) <= Gap(cfg, f, p) {
      GapsOnlyNarrow(cfg, f, e, p);
    }
    SmallerGaps(cfg, f, f', f.cursors.Keys);
  }

  // ----- every run, from any starting point -----

  /** In every reachable state a step within the epoch keeps the snapshot; targets are only dropped. */
  lemma TargetsOnlyShrink(cfg: Config, parts: map<int, Part>, committed: map<int, int>, before: seq<Event>, e: Event)
    requires Startable(parts, committed)
    requires StaysInEpoch(cfg, RunFeed(cfg, Initial(parts, committed), before), e)
    ensures var f := RunFeed(cfg, Initial(parts, committed), before); SameEpoch(cfg, f, Next(cfg, f, e))
  {
    ReachableEpoch(cfg, parts, committed, before);
    StepShrinksTargets(cfg, RunFeed(cfg, Initial(parts, committed), before), e);
  }

  predicate RunStaysInEpoch(cfg: Config, f: Stream, events: seq<Event>)
    decreases |events|
  {
    events == [] || (StaysInEpoch(cfg, f, events[0]) && RunStaysInEpoch(cfg, Next(cfg, f, events[0]), events[1..]))
  }

  lemma {:induction false} StretchProgresses(cfg: Config, f: Stream, events: seq<Event>)
    requires EpochOk(cfg, f) && f.health.healthy && RunStaysInEpoch(cfg, f, events)
    ensures SameEpoch(cfg, f, RunFeed(cfg, f, events))
    ensures Outstanding(cfg, RunFeed(cfg, f, events)) <= Outstanding(cfg, f)
    decreases |events|
  {
    if events != [] {
      NextKeepsEpoch(cfg, f, events[0]);
      StepShrinksTargets(cfg, f, events[0]);
      StepProgresses(cfg, f, events[0]);
      StretchProgresses(cfg, Next(cfg, f, events[0]), events[1..]);
    }
  }

  /** Over any stretch of any run inside one epoch: the snapshot stays, the targets lose partitions but never
      change a value, and what is outstanding never grows, however much the brokers append. */
  lemma EpochOnlyProgresses(cfg: Config, parts: map<int, Part>, committed: map<int, int>, before: seq<Event>,
                            within: seq<Event>)
    requires Startable(parts, committed)
    requires var f := RunFeed(cfg, Initial(parts, committed), before);
             f.health.healthy && RunStaysInEpoch(cfg, f, within)
    ensures var f := RunFeed(cfg, Initial(parts, committed), before);
            var f' := RunFeed(cfg, f, within);
            SameEpoch(cfg, f, f') && Outstanding(cfg, f') <= Outstanding(cfg, f)
  {
    ReachableEpoch(cfg, parts, committed, before);
    StretchProgresses(cfg, RunFeed(cfg, Initial(parts, committed), before), within);
  }

  /** In every reachable state, reading a message of a partition that is behind leaves strictly less outstanding. */
  lemma ReadingProgresses(cfg: Config, parts: map<int, Part>, committed: map<int, int>, before: seq<Event>, p: int)
    requires Startable(parts, committed)
    requires var f := RunFeed(cfg, Initial(parts, committed), before);
             f.health.healthy && Next(cfg, f, Consume(p)) != f && Gap(cfg, f, p) > 0
    ensures var f := RunFeed(cfg, Initial(parts, committed), before);
            Outstanding(cfg, Next(cfg, f, Consume(p))) < Outstanding(cfg, f)
  {
    ReachableEpoch(cfg, parts, committed, before);
    ReadingNarrows(cfg, RunFeed(cfg, Initial(parts, committed), before), p);
  }

  lemma ReadingNarrows(cfg: Config, f: Stream, p: int)
    requires EpochOk(cfg, f) && f.health.healthy && Next(cfg, f, Consume(p)) != f && Gap(cfg, f, p) > 0
    ensures Outstanding(cfg, Next(cfg, f, Consume(p))) < Outstanding(cfg, f)
  {
    var f' := Next(cfg, f, Consume(p));
    assert f'.cursors.Keys == f.cursors.Keys;
    forall q | q in f.cursors.Keys ensures Gap(cfg, f', q) <= Gap(cfg, f, q) {
      GapsOnlyNarrow(cfg, f, Consume(p), q);
    }
    assert TargetOk(cfg, f, p);
    ReadingRaisesOffsets(cfg, f, p, p);
    SmallerGaps(cfg, f, f', f.cursors.Keys);
  }

  /** In every reachable state, a check that passes within the epoch opens the gate exactly when nothing is
      outstanding. */
  lemma CheckOpensWhenCaughtUp(cfg: Config, parts: map<int, Part>, committed: map<int, int>, before: seq<Event>,
                               now: real)
    requires ValidConfig(cfg) && Startable(parts, committed)
    requires var f := RunFeed(cfg, Initial(parts, committed), before);
             && f.health.healthy && f.place == Checking && Surveyable(cfg, f)
             && !Throttled(cfg, f.health, now, false) && !TakesSnapshot(cfg, f.health, now, f.cursors.Keys)
    ensures var f := RunFeed(cfg, Initial(parts, committed), before);
            Open(cfg, CheckStep(cfg, f, now, true).health, now) <==> Outstanding(cfg, f) == 0
  {
    var f := RunFeed(cfg, Initial(parts, committed), before);
    ReachableEpoch(cfg, parts, committed, before);
    PassedHealth(cfg, f, now);
    NothingLeft(cfg, f);
  }

  lemma NothingLeft(cfg: Config, f: Stream)
    requires EpochOk(cfg, f) && f.health.healthy && Surveyable(cfg, f)
    ensures Pruned(f.health.targets.value, CurrentView(cfg, f).value.offsets) == map[] <==> Outstanding(cfg, f) == 0
  {
    var left := Pruned(f.health.targets.value, CurrentView(cfg, f).value.offsets);
    NothingOutstanding(cfg, f, f.cursors.Keys);
    forall p | p in f.cursors.Keys
      ensures p in left <==> Gap(cfg, f, p) > 0
    {
      assert CurrentView(cfg, f).value.offsets[p] == Effective(cfg, f, p).value;
    }
    EmptyMap(left);
  }

  /** The same for every check that passes, also one that records new watermarks: the gate is open after it
      exactly when it left nothing outstanding. */
  lemma PassOpensWhenNothingIsLeft(cfg: Config, parts: map<int, Part>, committed: map<int, int>, before: seq<Event>,
                                   now: real)
    requires ValidConfig(cfg) && Startable(parts, committed)
    requires var f := RunFeed(cfg, Initial(parts, committed), before);
             f.place == Checking && Surveyable(cfg, f) && !Throttled(cfg, f.health, now, false)
    ensures var f' := CheckStep(cfg, RunFeed(cfg, Initial(parts, committed), before), now, true);
            Open(cfg, f'.health, now) <==> Outstanding(cfg, f') == 0
  {
    ReachableEpoch(cfg, parts, committed, before);
    PassLeaves(cfg, RunFeed(cfg, Initial(parts, committed), before), now);
  }

  lemma PassLeaves(cfg: Config, f: Stream, now: real)
    requires ValidConfig(cfg) && EpochOk(cfg, f)
    requires f.place == Checking && Surveyable(cfg, f) && !Throttled(cfg, f.health, now, false)
    ensures var f' := CheckStep(cfg, f, now, true);
            Open(cfg, f'.health, now) <==> Outstanding(cfg, f') == 0
  {
    var f' := CheckStep(cfg, f, now, true);
    PassedHealth(cfg, f, now);
    NothingOutstanding(cfg, f', f.cursors.Keys);
    forall p | p in f.cursors.Keys
      ensures LiveTarget(f', p) <==> Gap(cfg, f', p) > 0
    {
    }
    EmptyMap(f'.health.targets.value);
  }
}
