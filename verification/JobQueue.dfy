/**
 The notification queue as a sequence of jobs in id order, and the statements that change it.
 Both repositories, PostgreSQL and SQLite, run the same job machine.
 */
module JobQueue {
  import opened Heartbeats

  datatype Status = Pending | Retry | Sending | Sent | Dead | Cancelled

  datatype Job = Job(key: string, kind: Kind, hb: Heartbeat, status: Status, attempts: nat, nextAt: real)
  {
    /** The statuses covered by the partial unique index on the dedupe key. */
    predicate Live() {
      status == Pending || status == Retry || status == Sending
    }
  }

  function NewJob(hb: Heartbeat, kind: Kind, now: real): Job {
    Job(QueueKey(hb, kind), kind, hb, Pending, 0, now)
  }

  predicate HasLive(q: seq<Job>, key: string) {
    exists i :: 0 <= i < |q| && q[i].key == key && q[i].Live()
  }

  /** INSERT ... ON CONFLICT DO NOTHING against the partial unique index. */
  function Insert(q: seq<Job>, job: Job): seq<Job> {
    if HasLive(q, job.key) then q else q + [job]
  }

  predicate Due(job: Job, now: real) {
    (job.status == Pending || job.status == Retry) && job.nextAt <= now
  }

  /** The oldest due job whose row is not locked by another transaction. */
  function FirstDue(q: seq<Job>, now: real, skipped: set<nat>, from: nat := 0): (r: Option<nat>)
    requires from <= |q|
    ensures r.Some? ==>
              && from <= r.value < |q| && r.value !in skipped
              && (q[r.value].status == Pending || q[r.value].status == Retry) && q[r.value].nextAt <= now
    ensures forall k {:trigger q[k]} :: from <= k < (if r.Some? then r.value else |q|) ==>
              k in skipped || (q[k].status != Pending && q[k].status != Retry) || q[k].nextAt > now
    decreases |q| - from
  {
    if from == |q| then None
    else if Due(q[from], now) && from !in skipped then Some(from)
    else FirstDue(q, now, skipped, from + 1)
  }

  function Claimed(q: seq<Job>, id: nat): seq<Job>
    requires id < |q|
  {
    q[id := q[id].(status := Sending)]
  }

  /** The three outcome statements all carry WHERE id=... AND status='SENDING'. */
  function MarkedSent(q: seq<Job>, id: nat): seq<Job> {
    if id < |q| && q[id].status == Sending then q[id := q[id].(status := Sent)] else q
  }

  function MarkedFailed(q: seq<Job>, id: nat, nextAt: real, dead: bool): seq<Job> {
    if id < |q| && q[id].status == Sending
    then q[id := q[id].(status := if dead then Dead else Retry, attempts := q[id].attempts + 1, nextAt := nextAt)]
    else q
  }

  function MarkedCancelled(q: seq<Job>, id: nat): seq<Job> {
    if id < |q| && q[id].status == Sending then q[id := q[id].(status := Cancelled)] else q
  }

  function RecoveredJob(job: Job, now: real): Job {
    if job.status == Sending then job.(status := Retry, nextAt := now) else job
  }

  function Recovered(q: seq<Job>, now: real): seq<Job> {
    seq(|q|, i requires 0 <= i < |q| => RecoveredJob(q[i], now))
  }

  function CancelledJob(job: Job, device: string): Job {
    if job.hb.device == device && job.Live() then job.(status := Cancelled) else job
  }

  function DeviceCancelled(q: seq<Job>, device: string): seq<Job> {
    seq(|q|, i requires 0 <= i < |q| => CancelledJob(q[i], device))
  }

  /** What the partial unique index guarantees. */
  ghost predicate UniqueLive(q: seq<Job>) {
    forall i, j :: 0 <= i < j < |q| && q[i].Live() && q[j].Live() ==> q[i].key != q[j].key
  }

  /** One job over time: its identity is fixed and a job that is not live never changes again. */
  predicate Evolves(a: Job, b: Job) {
    && b.key == a.key && b.kind == a.kind && b.hb == a.hb
    && a.attempts <= b.attempts
    && (!a.Live() ==> b == a)
  }

  ghost predicate Moved(q: seq<Job>, q': seq<Job>) {
    |q| <= |q'| && forall i :: 0 <= i < |q| ==> Evolves(q[i], q'[i])
  }

  /** No statement that keeps the keys and revives no job can break uniqueness. */
  lemma UniqueUnlessRevived(q: seq<Job>, q': seq<Job>)
    requires UniqueLive(q) && |q| == |q'|
    requires forall i :: 0 <= i < |q| ==> Evolves(q[i], q'[i])
    ensures UniqueLive(q')
  {
    forall i, j | 0 <= i < j < |q'| && q'[i].Live() && q'[j].Live()
      ensures q'[i].key != q'[j].key
    {
      assert Evolves(q[i], q'[i]) && Evolves(q[j], q'[j]);
    }
  }

  lemma InsertKeepsUnique(q: seq<Job>, job: Job)
    requires UniqueLive(q)
    ensures UniqueLive(Insert(q, job))
  {
    var q' := Insert(q, job);
    forall i, j | 0 <= i < j < |q'| && q'[i].Live() && q'[j].Live()
      ensures q'[i].key != q'[j].key
    {
      if j == |q| {
        assert q[i].key != job.key;
      }
    }
  }
}
