/**
 The health and catch-up gate in front of the stale check: what one round of broker calls amounts
 to, and how the notifier's fields change on it.
 */
module Gate {
  import opened Heartbeats
  import opened Settings

  /** A consumer position; absent or negative when no message was consumed since the assignment. */
  datatype Position = Position(partition: int, offset: Option<int>)

  /** What the broker calls of one check returned. A partition missing from a map stands for a failed call. */
  datatype Survey = Survey(positions: seq<Position>, committed: map<int, int>, low: map<int, int>, high: map<int, int>)

  /** The high watermark and the effective offset of every assigned partition. */
  datatype View = View(highs: map<int, int>, offsets: map<int, int>)

  datatype Health = Health(healthy: bool, targets: Option<map<int, int>>, keys: set<int>, lastCheck: real,
                           lastSuccess: real)

  const UNCHECKED := Health(false, None, {}, 0.0, 0.0)

  predicate Resolved(offset: Option<int>) {
    offset.Some? && offset.value >= 0
  }

  /** The position, else the committed offset, else what the reset policy says. */
  function EffectiveOffset(policy: ResetPolicy, position: Option<int>, committed: Option<int>, low: int, high: int)
    : Option<int>
  {
    if Resolved(position) then position
    else if Resolved(committed) then committed
    else match policy
      case Latest => Some(high)
      case Earliest => Some(low)
      case Other => None
  }

  function At(m: map<int, int>, key: int): Option<int> {
    if key in m then Some(m[key]) else None
  }

  /** The view built from the first n positions, or nothing if one of them cannot be resolved. */
  function ViewUpTo(policy: ResetPolicy, s: Survey, n: nat): Option<View>
    requires n <= |s.positions|
  {
    if n == 0 then Some(View(map[], map[]))
    else
      var before, p := ViewUpTo(policy, s, n - 1), s.positions[n - 1];
      if before.None? || p.partition !in s.low || p.partition !in s.high then None
      else
        var offset := EffectiveOffset(policy, p.offset, At(s.committed, p.partition),
                                      s.low[p.partition], s.high[p.partition]);
        if offset.None? then None
        else Some(View(before.value.highs[p.partition := s.high[p.partition]],
                       before.value.offsets[p.partition := offset.value]))
  }

  /** A position can be resolved if its watermarks came back and something says where reading starts. */
  predicate CanResolve(policy: ResetPolicy, s: Survey, p: Position) {
    && p.partition in s.low && p.partition in s.high
    && ((p.offset.Some? && p.offset.value >= 0)
        || (p.partition in s.committed && s.committed[p.partition] >= 0)
        || policy == Latest || policy == Earliest)
  }

  /** A view is found exactly if every position can be resolved. */
  lemma {:induction false} ViewFound(policy: ResetPolicy, s: Survey, n: nat)
    requires n <= |s.positions|
    ensures ViewUpTo(policy, s, n).Some? <==> forall k :: 0 <= k < n ==> CanResolve(policy, s, s.positions[k])
  {
    if n > 0 {
      ViewFound(policy, s, n - 1);
    }
  }

  /** For each partition it has the high watermark and, in this order, the position, the committed offset, or the
      end or the start of the log. */
  lemma {:induction false} ViewOnFields(policy: ResetPolicy, s: Survey, n: nat, i: nat)
    requires i < n <= |s.positions| && ViewUpTo(policy, s, n).Some?
    requires forall j :: i < j < n ==> s.positions[j].partition != s.positions[i].partition
    ensures var view, p, position := ViewUpTo(policy, s, n).value, s.positions[i].partition, s.positions[i].offset;
            && p in s.low && p in s.high && p in view.highs && view.highs[p] == s.high[p] && p in view.offsets
            && view.offsets[p] == if position.Some? && position.value >= 0 then position.value
                                  else if p in s.committed && s.committed[p] >= 0 then s.committed[p]
                                  else if policy == Latest then s.high[p] else s.low[p]
    decreases n
  {
    if i < n - 1 {
      ViewOnFields(policy, s, n - 1, i);
    }
  }

  function ViewOf(policy: ResetPolicy, survey: Option<Survey>): Option<View> {
    if survey.None? || |survey.value.positions| == 0 then None
    else ViewUpTo(policy, survey.value, |survey.value.positions|)
  }

  function MarkedUnhealthy(h: Health): Health {
    h.(healthy := false, targets := None)
  }

  function Reassigned(h: Health): Health {
    MarkedUnhealthy(h).(lastCheck := 0.0)
  }

  /** Targets that the offsets have not reached. */
  function Pruned(targets: map<int, int>, offsets: map<int, int>): map<int, int> {
    map k | k in targets && k in offsets && offsets[k] < targets[k] :: targets[k]
  }

  predicate Throttled(cfg: Config, h: Health, now: real, force: bool) {
    !force && now - h.lastCheck < cfg.checkInterval
  }

  /** The targets are taken afresh after an unhealthy mark, an expiry or a change of the partition set. */
  predicate TakesSnapshot(cfg: Config, h: Health, now: real, keys: set<int>) {
    !h.healthy || now - h.lastSuccess > cfg.healthMaxAge || keys != h.keys
  }

  function Checked(cfg: Config, h: Health, now: real, view: Option<View>): Health {
    if view.None? then MarkedUnhealthy(h).(lastCheck := now)
    else
      var v := view.value;
      var targets := if TakesSnapshot(cfg, h, now, v.highs.Keys) || h.targets.None? then v.highs else h.targets.value;
      Health(true, Some(Pruned(targets, v.offsets)), v.highs.Keys, now, now)
  }

  function Refreshed(cfg: Config, h: Health, now: real, force: bool, view: Option<View>): Health {
    if Throttled(cfg, h, now, force) then h else Checked(cfg, h, now, view)
  }

  predicate Open(cfg: Config, h: Health, now: real) {
    && h.healthy
    && now - h.lastSuccess <= cfg.healthMaxAge
    && h.targets == Some(map[])
  }

  lemma EmptySet(s: set<int>)
    ensures s == {} <==> forall p :: p !in s
  {
    if forall p :: p !in s {
      assert s == {};
    }
  }

  lemma EmptyMap<V>(m: map<int, V>)
    ensures m == map[] <==> forall p :: p !in m
  {
    EmptySet(m.Keys);
  }
}
