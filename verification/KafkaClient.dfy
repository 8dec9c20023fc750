/**
 The Kafka consumer object as the notifier uses it: assignment, positions, committed offsets and the
 logs behind them. The calls of one health check, put together, show exactly the feed's current view.
 */
module KafkaClient {
  import opened Heartbeats
  import opened Settings
  import opened Gate
  import opened Feed

  class KafkaConsumer {
    var parts: map<int, Part>
    var cursors: map<int, Cursor>
    var committed: map<int, int>

    /** The client's state as a feed without history. */
    function View(): Stream
      reads this
    {
      Stream(parts, cursors, committed, map[], {}, Polling, UNCHECKED, [])
    }

    constructor (parts: map<int, Part>, committed: map<int, int>)
      ensures this.parts == parts && cursors == map[] && this.committed == committed
    {
      this.parts, cursors, this.committed := parts, map[], committed;
    }

    /** The brokers' own doing. */
    method Observe(cfg: Config, e: Event)
      requires e.Append? || e.Trim?
      modifies this`parts
      ensures parts == Next(cfg, old(View()), e).parts
    {
      parts := Next(cfg, View(), e).parts;
    }

    method Assign(cfg: Config, ps: set<int>)
      modifies this`cursors
      ensures cursors == RebalanceStep(cfg, old(View()), ps).cursors
    {
      cursors := map p | p in ps && p in parts :: Feed.Assigned(cfg, View(), p);
    }

    /** The next message of the partition, if it is assigned, can be read and has one; the position moves past it. */
    method Poll(cfg: Config, p: int) returns (offset: Option<int>)
      modifies this`cursors
      ensures offset == (if Readable(cfg, old(View()), p) then NextOffset(parts[p], old(cursors)[p].next) else None)
      ensures cursors == if offset.Some? then old(cursors)[p := Cursor(offset.value + 1, true)] else old(cursors)
    {
      offset := None;
      if Readable(cfg, View(), p) {
        offset := NextOffset(parts[p], cursors[p].next);
        if offset.Some? {
          cursors := cursors[p := Cursor(offset.value + 1, true)];
        }
      }
    }

    /** A commit that raises may have reached the brokers all the same. */
    method Commit(p: int, offset: int, applied: bool, raised: bool)
      modifies this`committed
      ensures committed == if applied || !raised then old(committed)[p := offset + 1] else old(committed)
    {
      if applied || !raised {
        committed := committed[p := offset + 1];
      }
    }

    /** The calls of one check: positions, committed offsets and watermarks of the assignment. */
    method Ask(reachable: bool) returns (survey: Option<Survey>)
      ensures survey.Some? <==> reachable
      ensures survey.Some? ==> Surveys(View(), survey.value)
    {
      if !reachable {
        return None;
      }
      var positions: seq<Position> := [];
      var low: map<int, int>, high: map<int, int> := map[], map[];
      var left := cursors;
      while left != map[]
        invariant forall p :: p in left ==> p in cursors
        invariant forall i {:trigger positions[i]} :: 0 <= i < |positions| ==>
                    positions[i].partition in cursors && positions[i].partition !in left
                    && positions[i] == Asked(positions[i].partition, cursors[positions[i].partition])
        invariant forall p :: p in cursors && p !in left ==> Asked(p, cursors[p]) in positions
        invariant forall p :: p in low <==> p in cursors && p in parts && p !in left
        invariant forall p :: p in high <==> p in cursors && p in parts && p !in left
        invariant forall p :: p in low ==> low[p] == parts[p].low && high[p] == parts[p].high
        decreases |left|
      {
        EmptyMap(left);
        var p :| p in left;
        positions := positions + [Asked(p, cursors[p])];
        if p in parts {
          low, high := low[p := parts[p].low], high[p := parts[p].high];
        }
        left := left - {p};
      }
      survey := Some(Survey(positions, committed, low, high));
    }
  }

  /** The position the client reports: none before the first message after the assignment. */
  function Asked(p: int, cursor: Cursor): Position {
    Position(p, if cursor.known then Some(cursor.next) else None)
  }

  /** The survey is a complete account of the assignment, in any order. */
  ghost predicate Surveys(f: Stream, s: Survey) {
    && s.committed == f.committed
    && (forall i {:trigger s.positions[i]} :: 0 <= i < |s.positions| ==>
          s.positions[i].partition in f.cursors
          && s.positions[i] == Asked(s.positions[i].partition, f.cursors[s.positions[i].partition]))
    && (forall p :: p in f.cursors ==> Asked(p, f.cursors[p]) in s.positions)
    && (forall p :: p in s.low <==> p in f.cursors && p in f.parts)
    && (forall p :: p in s.high <==> p in f.cursors && p in f.parts)
    && (forall p :: p in s.low ==> s.low[p] == f.parts[p].low && s.high[p] == f.parts[p].high)
  }

  predicate Resolvable(cfg: Config, f: Stream, p: int) {
    p in f.cursors && p in f.parts && Effective(cfg, f, p).Some?
  }

  /** What the notifier has after the first n positions. */
  lemma {:induction false} ViewOfPositions(cfg: Config, f: Stream, s: Survey, n: nat)
    requires Surveys(f, s) && n <= |s.positions|
    ensures var view := ViewUpTo(cfg.reset, s, n);
            && (view.Some? <==>
                  forall i {:trigger s.positions[i]} :: 0 <= i < n ==> Resolvable(cfg, f, s.positions[i].partition))
            && (view.Some? ==>
                  && view.value.highs.Keys == view.value.offsets.Keys
                  && (forall i {:trigger s.positions[i]} :: 0 <= i < n ==> s.positions[i].partition in view.value.highs)
                  && (forall p :: p in view.value.highs ==>
                        && Resolvable(cfg, f, p)
                        && view.value.highs[p] == f.parts[p].high
                        && view.value.offsets[p] == Effective(cfg, f, p).value))
  {
    if n > 0 {
      ViewOfPositions(cfg, f, s, n - 1);
    }
  }

  /** Whatever order the client lists the assignment in, the check computes the feed's current view. */
  lemma SurveyMatchesFeed(cfg: Config, f: Stream, s: Survey)
    requires Surveys(f, s)
    ensures ViewOf(cfg.reset, Some(s)) == CurrentView(cfg, f)
  {
    ViewOfPositions(cfg, f, s, |s.positions|);
    var view := ViewUpTo(cfg.reset, s, |s.positions|);
    forall p | p in f.cursors
      ensures |s.positions| > 0 && (view.Some? ==> p in view.value.highs)
      ensures view.Some? ==> Resolvable(cfg, f, p)
    {
      var i :| 0 <= i < |s.positions| && s.positions[i] == Asked(p, f.cursors[p]);
      assert s.positions[i].partition == p;
    }
    EmptyMap(f.cursors);
    if |s.positions| > 0 {
      assert s.positions[0].partition in f.cursors;
      SameView(cfg, f, view);
    }
  }

  lemma SameView(cfg: Config, f: Stream, view: Option<View>)
    requires f.cursors != map[]
    requires view.Some? <==> forall p :: p in f.cursors ==> Resolvable(cfg, f, p)
    requires view.Some? ==>
               && (forall p :: p in f.cursors ==> p in view.value.highs)
               && view.value.highs.Keys == view.value.offsets.Keys
               && (forall p :: p in view.value.highs ==>
                     && Resolvable(cfg, f, p)
                     && view.value.highs[p] == f.parts[p].high
                     && view.value.offsets[p] == Effective(cfg, f, p).value)
    ensures view == CurrentView(cfg, f)
  {
    assert Surveyable(cfg, f) <==> forall p :: p in f.cursors ==> Resolvable(cfg, f, p);
    if view.Some? {
      var highs := map p | p in f.cursors :: f.parts[p].high;
      var offsets := map p | p in f.cursors :: Effective(cfg, f, p).value;
      assert forall p :: p in view.value.highs <==> p in highs;
      assert view.value.highs == highs;
      assert forall p :: p in view.value.offsets <==> p in view.value.offsets.Keys;
      assert view.value.offsets == offsets;
    }
  }
}
