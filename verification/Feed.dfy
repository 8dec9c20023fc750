/**
 The Kafka side over whole runs: brokers append, the consumer is assigned partitions, polls,
 processes and commits one message at a time, checks the broker's health and scans. One step of
 the consumer's loop is one step here; between them the brokers and everyone else may act.
 */
module Feed {
  import opened Heartbeats
  import opened Settings
  import opened Gate

  datatype Message = Valid(hb: Heartbeat) | Invalid

  /** A partition's log. Offsets may have gaps, and retention removes a prefix. */
  datatype Part = Part(low: int, high: int, messages: map<int, Message>)

  /** Where the consumer reads next, and whether it got a message since the assignment. */
  datatype Cursor = Cursor(next: int, known: bool)

  /** The place in the consumer's loop. */
  datatype Place = Polling | Committing(partition: int, offset: int) | Checking | Scanning

  /** History of the checks: an unhealthy mark, or a check that passed with these high watermarks. */
  datatype Check = Disrupted | Passed(at: real, highs: map<int, int>)

  datatype Stream = Stream(
    parts: map<int, Part>,
    cursors: map<int, Cursor>,
    committed: map<int, int>,
    start: map<int, int>,
    handled: set<(int, int)>,
    place: Place,
    health: Health,
    checks: seq<Check>)

  datatype Event =
    | Append(partition: int, gap: nat, message: Message)
    | Trim(partition: int, low: int)
    | Rebalance(partitions: set<int>)
    | PollNothing
    | PollError(fatal: bool)
    | Consume(partition: int)
    | CommitOffset(applied: bool, raised: bool)
    | CheckHealth(now: real, ok: bool)
    | EndScan
    | Die

  /** A group that has committed some offsets and read nothing in this history. */
  function Initial(parts: map<int, Part>, committed: map<int, int>): Stream {
    Stream(parts, map[], committed, committed, {}, Polling, UNCHECKED, [])
  }

  /** The first offset from the given one on that holds a message. */
  function NextOffset(part: Part, from: int): (r: Option<int>)
    ensures r.Some? ==> from <= r.value < part.high && r.value in part.messages
    ensures forall o :: from <= o < (if r.Some? then r.value else part.high) ==> o !in part.messages
    decreases part.high - from
  {
    if from >= part.high then None
    else if from in part.messages then Some(from)
    else NextOffset(part, from + 1)
  }

  /** Where reading starts when the group has no committed offset. */
  function ResetOffset(policy: ResetPolicy, part: Part): Option<int> {
    EffectiveOffset(policy, None, None, part.low, part.high)
  }

  function StartOffset(cfg: Config, f: Stream, p: int): Option<int> {
    if p !in f.parts then None
    else if p in f.committed then Some(f.committed[p])
    else ResetOffset(cfg.reset, f.parts[p])
  }

  /** The effective offset a check computes for an assigned partition. */
  function Effective(cfg: Config, f: Stream, p: int): Option<int>
    requires p in f.cursors && p in f.parts
  {
    EffectiveOffset(cfg.reset, if f.cursors[p].known then Some(f.cursors[p].next) else None, At(f.committed, p),
                    f.parts[p].low, f.parts[p].high)
  }

  predicate Surveyable(cfg: Config, f: Stream) {
    && |f.cursors| > 0
    && (forall p :: p in f.cursors ==> p in f.parts && Effective(cfg, f, p).Some?)
  }

  /** The view of a check that succeeds. */
  function CurrentView(cfg: Config, f: Stream): Option<View> {
    if Surveyable(cfg, f) then
      Some(View(map p | p in f.cursors :: f.parts[p].high, map p | p in f.cursors :: Effective(cfg, f, p).value))
    else None
  }

  function Disturbed(f: Stream): Stream {
    f.(health := MarkedUnhealthy(f.health), checks := f.checks + [Disrupted])
  }

  function CheckStep(cfg: Config, f: Stream, now: real, ok: bool): Stream {
    if Throttled(cfg, f.health, now, false) then f.(place := Scanning)
    else
      var view := if ok then CurrentView(cfg, f) else None;
      f.(place := Scanning, health := Checked(cfg, f.health, now, view),
         checks := f.checks + [if view.None? then Disrupted else Passed(now, view.value.highs)])
  }

  /** A partition with nowhere to start from is assigned all the same; nothing is ever read from it. */
  function Assigned(cfg: Config, f: Stream, p: int): Cursor
    requires p in f.parts
  {
    Cursor(if StartOffset(cfg, f, p).Some? then StartOffset(cfg, f, p).value else f.parts[p].high, false)
  }

  /** The client knows where to read the assigned partition. */
  predicate Readable(cfg: Config, f: Stream, p: int) {
    p in f.cursors && p in f.parts && (f.cursors[p].known || StartOffset(cfg, f, p).Some?)
  }

  function RebalanceStep(cfg: Config, f: Stream, ps: set<int>): Stream {
    var cursors := map p | p in ps && p in f.parts :: Assigned(cfg, f, p);
    var resets := map p | p in cursors && p !in f.committed :: cursors[p].next;
    f.(cursors := cursors, start := f.start + resets, health := Reassigned(f.health),
       checks := f.checks + [Disrupted])
  }

  function ConsumeStep(f: Stream, p: int): Stream
    requires p in f.cursors && p in f.parts
  {
    var o := NextOffset(f.parts[p], f.cursors[p].next);
    if o.None? then f
    else f.(cursors := f.cursors[p := Cursor(o.value + 1, true)], handled := f.handled + {(p, o.value)},
            place := Committing(p, o.value))
  }

  function CommitStep(f: Stream, applied: bool, raised: bool): Stream
    requires f.place.Committing?
  {
    var f1 := if applied || !raised
              then f.(committed := f.committed[f.place.partition := f.place.offset + 1]) else f;
    if raised then Disturbed(f1).(place := Polling) else f1.(place := Checking)
  }

  function Appended(part: Part, gap: nat, message: Message): Part {
    Part(part.low, part.high + gap + 1, part.messages[part.high + gap := message])
  }

  function Trimmed(part: Part, low: int): Part {
    part.(low := low, messages := map o | o in part.messages && o >= low :: part.messages[o])
  }

  function Next(cfg: Config, f: Stream, e: Event): Stream {
    match e
    case Append(p, gap, message) =>
      if p in f.parts then f.(parts := f.parts[p := Appended(f.parts[p], gap, message)])
      else f.(parts := f.parts[p := Appended(Part(0, 0, map[]), gap, message)])
    case Trim(p, low) =>
      if p in f.parts && f.parts[p].low <= low <= f.parts[p].high
      then f.(parts := f.parts[p := Trimmed(f.parts[p], low)]) else f
    case Rebalance(ps) => if f.place == Polling then RebalanceStep(cfg, f, ps) else f
    case PollNothing => if f.place == Polling then f.(place := Checking) else f
    case PollError(fatal) => if f.place == Polling && fatal then Disturbed(f) else f
    case Consume(p) =>
      if f.place == Polling && Readable(cfg, f, p) then ConsumeStep(f, p) else f
    case CommitOffset(applied, raised) => if f.place.Committing? then CommitStep(f, applied, raised) else f
    case CheckHealth(now, ok) => if f.place == Checking then CheckStep(cfg, f, now, ok) else f
    case EndScan => if f.place == Scanning then f.(place := Polling) else f
    case Die => f.(cursors := map[], place := Polling, health := UNCHECKED, checks := f.checks + [Disrupted])
  }

  function RunFeed(cfg: Config, f: Stream, events: seq<Event>): Stream
    decreases |events|
  {
    if events == [] then f else RunFeed(cfg, Next(cfg, f, events[0]), events[1..])
  }

  // ----- what is read and what is committed -----

  /** Every message of the partition from its start offset up to the given one has been handled:
      its transaction committed, or it was rejected as invalid. */
  ghost predicate ReadUpTo(f: Stream, p: int, offset: int)
    requires p in f.parts && p in f.start
  {
    forall o {:trigger o in f.parts[p].messages} :: o in f.parts[p].messages && f.start[p] <= o < offset ==>
      (p, o) in f.handled
  }

  ghost predicate PartsOk(f: Stream) {
    forall p :: p in f.parts ==>
      && f.parts[p].low <= f.parts[p].high
      && 0 <= f.parts[p].low
      && (forall o :: o in f.parts[p].messages ==> f.parts[p].low <= o < f.parts[p].high)
  }

  ghost predicate CursorsOk(f: Stream) {
    forall p :: p in f.cursors ==>
      && p in f.parts && p in f.start
      && 0 <= f.start[p] <= f.cursors[p].next <= f.parts[p].high
      && ReadUpTo(f, p, f.cursors[p].next)
      && (!f.cursors[p].known ==> f.cursors[p].next == if p in f.committed then f.committed[p] else f.start[p])
  }

  ghost predicate CommitsOk(f: Stream) {
    && (forall p :: p in f.committed ==>
          && p in f.parts && p in f.start
          && 0 <= f.start[p] <= f.committed[p] <= f.parts[p].high
          && ReadUpTo(f, p, f.committed[p]))
    && (f.place.Committing? ==>
          && f.place.partition in f.cursors
          && f.cursors[f.place.partition] == Cursor(f.place.offset + 1, true))
  }

  ghost predicate FeedOk(f: Stream) {
    PartsOk(f) && CursorsOk(f) && CommitsOk(f)
  }

  /** Brokers, the group's commits and what was handled stay; only the notifier's own bookkeeping moves. */
  lemma SameReading(f: Stream, f': Stream)
    requires FeedOk(f) && f'.parts == f.parts && f'.cursors == f.cursors && f'.committed == f.committed
    requires f'.start == f.start && f'.handled == f.handled && !f'.place.Committing?
    ensures FeedOk(f')
  {
  }

  /** A change of one partition's log that keeps its old messages' fate and adds none below the old end. */
  lemma PartChanges(f: Stream, p: int, part: Part)
    requires FeedOk(f)
    requires 0 <= part.low <= part.high && (p in f.parts ==> f.parts[p].high <= part.high)
    requires forall o :: o in part.messages ==> part.low <= o < part.high
    requires p in f.parts ==>
               forall o :: o in part.messages && o < f.parts[p].high ==> o in f.parts[p].messages
    ensures FeedOk(f.(parts := f.parts[p := part]))
  {
    var f' := f.(parts := f.parts[p := part]);
    forall q, offset | q in f.parts && q in f.start && offset <= f.parts[q].high && ReadUpTo(f, q, offset)
      ensures ReadUpTo(f', q, offset)
    {
    }
  }

  lemma BrokerKeeps(cfg: Config, f: Stream, e: Event)
    requires FeedOk(f) && (e.Append? || e.Trim?)
    ensures FeedOk(Next(cfg, f, e))
  {
    match e
    case Append(p, gap, message) =>
      PartChanges(f, p, Appended(if p in f.parts then f.parts[p] else Part(0, 0, map[]), gap, message));
    case Trim(p, low) =>
      if p in f.parts && f.parts[p].low <= low <= f.parts[p].high {
        PartChanges(f, p, Trimmed(f.parts[p], low));
      }
  }

  lemma RebalanceKeeps(cfg: Config, f: Stream, ps: set<int>)
    requires FeedOk(f) && f.place == Polling
    ensures FeedOk(RebalanceStep(cfg, f, ps))
  {
    var f' := RebalanceStep(cfg, f, ps);
    forall p | p in f'.cursors
      ensures p in f'.parts && p in f'.start && 0 <= f'.start[p] <= f'.cursors[p].next <= f'.parts[p].high
      ensures ReadUpTo(f', p, f'.cursors[p].next)
      ensures f'.cursors[p].next == if p in f.committed then f.committed[p] else f'.start[p]
    {
      if p in f.committed {
        assert f'.start[p] == f.start[p] && ReadUpTo(f, p, f.committed[p]);
      }
    }
    assert CommitsOk(f') by {
      assert forall p :: p in f.committed ==> f'.start[p] == f.start[p];
    }
  }

  /** The consumed message is the first one left, so nothing before it stays unhandled. */
  lemma ConsumeKeeps(f: Stream, p: int)
    requires FeedOk(f) && f.place == Polling && p in f.cursors
    ensures FeedOk(ConsumeStep(f, p))
  {
    var next := NextOffset(f.parts[p], f.cursors[p].next);
    if next.Some? {
      var f' := ConsumeStep(f, p);
      forall o | o in f'.parts[p].messages && f'.start[p] <= o < next.value + 1
        ensures (p, o) in f'.handled
      {
      }
    }
  }

  lemma BookkeepingKeeps(cfg: Config, f: Stream, e: Event)
    requires FeedOk(f)
    requires e.PollNothing? || e.PollError? || e.CheckHealth? || e.EndScan? || e.Die?
    ensures FeedOk(Next(cfg, f, e))
  {
    if !e.Die? && Next(cfg, f, e) != f {
      SameReading(f, Next(cfg, f, e));
    }
  }

  lemma NextKeeps(cfg: Config, f: Stream, e: Event)
    requires FeedOk(f)
    ensures FeedOk(Next(cfg, f, e))
  {
    match e
    case Append(_, _, _) => BrokerKeeps(cfg, f, e);
    case Trim(_, _) => BrokerKeeps(cfg, f, e);
    case Rebalance(ps) =>
      if f.place == Polling {
        RebalanceKeeps(cfg, f, ps);
      }
    case Consume(p) =>
      if f.place == Polling && p in f.cursors {
        ConsumeKeeps(f, p);
      }
    case CommitOffset(applied, raised) =>
    case _ => BookkeepingKeeps(cfg, f, e);
  }

  lemma {:induction false} RunFeedKeeps(cfg: Config, f: Stream, events: seq<Event>)
    requires FeedOk(f)
    ensures FeedOk(RunFeed(cfg, f, events))
    decreases |events|
  {
    if events != [] {
      NextKeeps(cfg, f, events[0]);
      RunFeedKeeps(cfg, Next(cfg, f, events[0]), events[1..]);
    }
  }

  /** A starting point: sound logs and a group whose committed offsets lie within them. */
  ghost predicate Startable(parts: map<int, Part>, committed: map<int, int>) {
    && (forall p :: p in parts ==>
          && 0 <= parts[p].low <= parts[p].high
          && (forall o :: o in parts[p].messages ==> parts[p].low <= o < parts[p].high))
    && (forall p :: p in committed ==> p in parts && 0 <= committed[p] <= parts[p].high)
  }

  /** The committed offset never runs ahead of the database: after every run, with crashes, lost and failed
      commits and rebalances anywhere, all that lies between start and commit has been handled. */
  lemma CommitNeverRunsAhead(cfg: Config, parts: map<int, Part>, committed: map<int, int>, events: seq<Event>, p: int)
    requires Startable(parts, committed)
    requires p in RunFeed(cfg, Initial(parts, committed), events).committed
    ensures var f := RunFeed(cfg, Initial(parts, committed), events);
            && p in f.parts && p in f.start && f.start[p] <= f.committed[p]
            && (forall o :: o in f.parts[p].messages && f.start[p] <= o < f.committed[p] ==> (p, o) in f.handled)
  {
    RunFeedKeeps(cfg, Initial(parts, committed), events);
  }
}
