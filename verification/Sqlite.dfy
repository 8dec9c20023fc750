/**
 The SQLite queue: a second implementation of the job machine, with its own key builder and no guard
 and no cancellation. Its object is proved against the same job functions, and so keeps their laws.
 */
module Sqlite {
  import opened Heartbeats
  import opened JobQueue

  datatype Statement =
    | Recover(now: real)
    | Enqueue(hb: Heartbeat, kind: Kind, now: real)
    | Claim(now: real)
    | Complete(id: nat)
    | Fail(id: nat, nextAt: real, dead: bool)

  function Applied(q: seq<Job>, st: Statement): seq<Job> {
    match st
    case Recover(now) => Recovered(q, now)
    case Enqueue(hb, kind, now) => Insert(q, NewJob(hb, kind, now))
    case Claim(now) => if FirstDue(q, now, {}).Some? then Claimed(q, FirstDue(q, now, {}).value) else q
    case Complete(id) => MarkedSent(q, id)
    case Fail(id, nextAt, dead) => MarkedFailed(q, id, nextAt, dead)
  }

  function AppliedAll(q: seq<Job>, sts: seq<Statement>): seq<Job>
    decreases |sts|
  {
    if sts == [] then q else AppliedAll(Applied(q, sts[0]), sts[1..])
  }

  /** Any sequence of statements keeps one live job per key and takes no job out of SENT, DEAD or CANCELLED. */
  lemma {:induction false} StatementsKeep(q: seq<Job>, sts: seq<Statement>)
    requires UniqueLive(q)
    ensures UniqueLive(AppliedAll(q, sts)) && Moved(q, AppliedAll(q, sts))
    decreases |sts|
  {
    if sts != [] {
      var q1 := Applied(q, sts[0]);
      StatementsKeep(q1, sts[1..]);
    }
  }

  class SQLiteNotificationQueueRepository {
    var queue: seq<Job>

    /** Opening the file recovers the jobs that were being sent when the process stopped. */
    constructor (stored: seq<Job>, now: real)
      ensures queue == Applied(stored, Recover(now)) && |queue| == |stored|
      ensures forall i :: 0 <= i < |stored| ==>
                if stored[i].status == Sending then queue[i] == stored[i].(status := Retry, nextAt := now)
                else queue[i] == stored[i]
    {
      queue := Recovered(stored, now);
    }

    method Enqueue(hb: Heartbeat, kind: Kind, now: real) returns (added: bool)
      modifies this
      ensures queue == Applied(old(queue), Statement.Enqueue(hb, kind, now))
      ensures added <==> !HasLive(old(queue), QueueKey(hb, kind))
      ensures queue == if added then old(queue) + [Job(QueueKey(hb, kind), kind, hb, Pending, 0, now)] else old(queue)
    {
      var key := LegacyKey(hb, kind);
      KeyBuildersAgree(hb, kind);
      added := !HasLive(queue, key);
      if added {
        queue := queue + [Job(key, kind, hb, Pending, 0, now)];
      }
    }

    method ClaimNext(now: real) returns (id: Option<nat>)
      modifies this
      ensures queue == Applied(old(queue), Claim(now))
      ensures id.Some? ==>
                && id.value < |old(queue)|
                && (old(queue)[id.value].status == Pending || old(queue)[id.value].status == Retry)
                && old(queue)[id.value].nextAt <= now
                && queue == old(queue)[id.value := old(queue)[id.value].(status := Sending)]
      ensures id.None? ==> queue == old(queue)
      ensures forall k :: 0 <= k < (if id.Some? then id.value else |old(queue)|) ==>
                (old(queue)[k].status != Pending && old(queue)[k].status != Retry) || old(queue)[k].nextAt > now
    {
      id := FirstDue(queue, now, {});
      if id.Some? {
        queue := queue[id.value := queue[id.value].(status := Sending)];
      }
    }

    method MarkSent(id: nat)
      modifies this
      ensures queue == Applied(old(queue), Complete(id))
      ensures id < |old(queue)| && old(queue)[id].status == Sending ==>
                queue == old(queue)[id := old(queue)[id].(status := Sent)]
    {
      if id < |queue| && queue[id].status == Sending {
        queue := queue[id := queue[id].(status := Sent)];
      }
    }

    method MarkFailed(id: nat, nextAt: real, dead: bool)
      modifies this
      ensures queue == Applied(old(queue), Fail(id, nextAt, dead))
      ensures id < |old(queue)| && old(queue)[id].status == Sending ==>
                var job := old(queue)[id];
                queue == old(queue)[id := job.(status := if dead then Dead else Retry, attempts := job.attempts + 1,
                                               nextAt := nextAt)]
    {
      if id < |queue| && queue[id].status == Sending {
        queue := queue[id := queue[id].(status := if dead then Dead else Retry, attempts := queue[id].attempts + 1,
                                        nextAt := nextAt)];
      }
    }
  }
}
