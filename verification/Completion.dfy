/**
 What the worker must get done, said on the fields of the queue: due jobs are claimed and sent, failures are
 rescheduled, interrupted jobs are due again, and a whole backlog can be sent.
 */
module Completion {
  import opened Heartbeats
  import opened JobQueue
  import opened Tables
  import opened Settings
  import opened Backoff
  import opened Protocol
  import opened ProtocolInvariant
  import opened Delivery

  /** A waiting job whose time has come. */
  predicate Ready(job: Job, now: real) {
    (job.status == Pending || job.status == Retry) && job.nextAt <= now
  }

  /** The job is the first in the queue that is ready and that no one else has locked. */
  ghost predicate NextInLine(q: seq<Job>, now: real, skipped: set<nat>, id: nat) {
    && id < |q| && id !in skipped && Ready(q[id], now)
    && forall k :: 0 <= k < id && k !in skipped ==> !Ready(q[k], now)
  }

  function SendingCall(now: real, skipped: set<nat>): seq<Action> {
    [Claim(now, skipped, Clean), EnterGuard(Clean), SmtpAnswers(true), CommitSent(Clean)]
  }

  function FailingCall(now: real, skipped: set<nat>): seq<Action> {
    [Claim(now, skipped, Clean), EnterGuard(Clean), SmtpAnswers(false), CommitFailure(Clean)]
  }

  lemma FourSteps(cfg: Config, c: Core, a0: Action, a1: Action, a2: Action, a3: Action)
    ensures Run(cfg, c, [a0, a1, a2, a3]) == Step(cfg, Step(cfg, Step(cfg, Step(cfg, c, a0), a1), a2), a3)
  {
    var c1 := Step(cfg, c, a0);
    var c2 := Step(cfg, c1, a1);
    var c3 := Step(cfg, c2, a2);
    assert [a0, a1, a2, a3][1..] == [a1, a2, a3] && [a1, a2, a3][1..] == [a2, a3] && [a2, a3][1..] == [a3];
    assert [a3][1..] == [];
    assert Run(cfg, c3, [a3]) == Run(cfg, Step(cfg, c3, a3), []);
    assert Run(cfg, c2, [a2, a3]) == Run(cfg, c3, [a3]);
    assert Run(cfg, c1, [a1, a2, a3]) == Run(cfg, c2, [a2, a3]);
  }

  /** Claim and guard of a job that is next in line: its device is monitored, so the mail may go. */
  lemma ReachesSmtp(cfg: Config, c: Core, now: real, skipped: set<nat>, id: nat)
    requires Inv(cfg, c) && c.up && c.worker.Idle? && NextInLine(c.db.queue, now, skipped, id)
    ensures var c2 := Step(cfg, Step(cfg, c, Claim(now, skipped, Clean)), EnterGuard(Clean));
            var job, log := c.db.queue[id], c.logs[id];
            c2 == c.(db := c.db.(queue := c.db.queue[id := job.(status := Sending)]),
                     logs := c.logs[id := log.(times := log.times + [now])],
                     worker := Busy(Delivering, id, job.attempts, now))
  {
    assert c.db.queue[id].Live();
    var c1 := Step(cfg, c, Claim(now, skipped, Clean));
    assert c1.worker == Busy(Held, id, c.db.queue[id].attempts, now);
    assert Allowed(c1.db, id);
  }

  /** From every reachable idle state, a call in which nothing goes wrong sends the next job in line, and only it. */
  lemma DueJobsAreSent(cfg: Config, c: Core, now: real, skipped: set<nat>, id: nat)
    requires Inv(cfg, c) && c.up && c.worker.Idle? && NextInLine(c.db.queue, now, skipped, id)
    ensures var c' := Run(cfg, c, SendingCall(now, skipped));
            && c'.db == c.db.(queue := c.db.queue[id := c.db.queue[id].(status := Sent)])
            && c'.up && c'.worker == Idle && c'.completed == c.completed + 1
  {
    var c2 := Step(cfg, Step(cfg, c, Claim(now, skipped, Clean)), EnterGuard(Clean));
    ReachesSmtp(cfg, c, now, skipped, id);
    FourSteps(cfg, c, Claim(now, skipped, Clean), EnterGuard(Clean), SmtpAnswers(true), CommitSent(Clean));
    SmtpSends(cfg, c2);
  }

  lemma SmtpSends(cfg: Config, c: Core)
    requires InPhase(c, Delivering) && Allowed(c.db, c.worker.id)
    ensures var c', id := Step(cfg, Step(cfg, c, SmtpAnswers(true)), CommitSent(Clean)), c.worker.id;
            && c'.db == c.db.(queue := c.db.queue[id := c.db.queue[id].(status := Sent)])
            && c'.up && c'.worker == Idle && c'.completed == c.completed + 1
  {
    var c1 := Step(cfg, c, SmtpAnswers(true));
    assert c1.db == c.db && c1.up && c1.completed == c.completed && c1.worker == c.worker.(phase := Delivered);
  }

  /** The job after a refused mail. */
  function Rescheduled(cfg: Config, job: Job, now: real): Job {
    job.(status := if job.attempts + 1 == cfg.maxAttempts then Dead else Retry, attempts := job.attempts + 1,
         nextAt := now + RetryDelay(cfg, job.attempts))
  }

  /** A call whose mail is refused counts the attempt and plans the next after the doubled delay, up to its maximum;
      the last attempt makes the job DEAD. */
  lemma RefusedJobsAreRescheduled(cfg: Config, c: Core, now: real, skipped: set<nat>, id: nat)
    requires Inv(cfg, c) && c.up && c.worker.Idle? && NextInLine(c.db.queue, now, skipped, id)
    ensures var c', job := Run(cfg, c, FailingCall(now, skipped)), c.db.queue[id];
            && c'.db == c.db.(queue := c.db.queue[id := Rescheduled(cfg, job, now)])
            && c'.up && c'.worker == Idle && c'.completed == c.completed + 1
  {
    FailingCallEnds(cfg, c, now, skipped, id);
    FailureOnFields(cfg, c.db, id, now);
  }

  lemma FailingCallEnds(cfg: Config, c: Core, now: real, skipped: set<nat>, id: nat)
    requires Inv(cfg, c) && c.up && c.worker.Idle? && NextInLine(c.db.queue, now, skipped, id)
    ensures var c', job := Run(cfg, c, FailingCall(now, skipped)), c.db.queue[id];
            && c'.db == FailedTables(cfg, ClaimedIn(c.db, id), id, job.attempts, now)
            && c'.up && c'.worker == Idle && c'.completed == c.completed + 1
  {
    ReachesSmtp(cfg, c, now, skipped, id);
    RefusalEnds(cfg, c, now, skipped);
  }

  function ClaimedIn(db: Db, id: nat): Db
    requires id < |db.queue|
  {
    db.(queue := db.queue[id := db.queue[id].(status := Sending)])
  }

  function FailedTables(cfg: Config, db: Db, id: nat, attempts: nat, now: real): Db {
    db.(queue := MarkedFailed(db.queue, id, now + Delay(cfg, attempts + 1), attempts + 1 >= cfg.maxAttempts))
  }

  lemma RefusalEnds(cfg: Config, c: Core, now: real, skipped: set<nat>)
    requires InPhase(Step(cfg, Step(cfg, c, Claim(now, skipped, Clean)), EnterGuard(Clean)), Delivering)
    ensures var c2, c' := Step(cfg, Step(cfg, c, Claim(now, skipped, Clean)), EnterGuard(Clean)),
                          Run(cfg, c, FailingCall(now, skipped));
            && c'.db == FailedTables(cfg, c2.db, c2.worker.id, c2.worker.attempts, c2.worker.now)
            && c'.up && c'.worker == Idle && c'.completed == c2.completed + 1
  {
    FourSteps(cfg, c, Claim(now, skipped, Clean), EnterGuard(Clean), SmtpAnswers(false), CommitFailure(Clean));
  }

  lemma FailureOnFields(cfg: Config, db: Db, id: nat, now: real)
    requires id < |db.queue| && db.queue[id].attempts < cfg.maxAttempts
    ensures FailedTables(cfg, ClaimedIn(db, id), id, db.queue[id].attempts, now)
         == db.(queue := db.queue[id := Rescheduled(cfg, db.queue[id], now)])
  {
    DelayIsRetryDelay(cfg, db.queue[id].attempts);
  }

  /** Whatever the worker was doing, a crash and a restart make exactly the interrupted jobs due, at once. */
  lemma InterruptedJobsAreDueAgain(cfg: Config, c: Core, now: real)
    ensures var c1 := Step(cfg, c, Crash);
            var c' := Step(cfg, c1, Restart(now));
            && c'.up && c'.worker == Idle && |c'.db.queue| == |c.db.queue|
            && c'.db == c.db.(queue := c'.db.queue)
            && forall i :: 0 <= i < |c.db.queue| ==>
                 c'.db.queue[i] == if c.db.queue[i].status == Sending
                                   then c.db.queue[i].(status := Retry, nextAt := now) else c.db.queue[i]
  {
  }

  /** The calls that send everything that is ready, first to last. */
  function Calls(n: nat, now: real): seq<Action> {
    if n == 0 then [] else SendingCall(now, {}) + Calls(n - 1, now)
  }

  /** Exactly the ready jobs from a place in the queue on have become SENT. */
  ghost predicate BacklogSent(q: seq<Job>, q': seq<Job>, now: real) {
    && |q'| == |q|
    && forall i :: 0 <= i < |q| ==> q'[i] == if Ready(q[i], now) then q[i].(status := Sent) else q[i]
  }

  /** From every state that a run reaches with the worker idle, further calls send the whole backlog: every job that
      is ready becomes SENT, and nothing else in the tables moves. */
  lemma {:induction false} BacklogCanBeSent(cfg: Config, c: Core, now: real, from: nat) returns (n: nat)
    requires ValidConfig(cfg) && Inv(cfg, c) && c.up && c.worker.Idle? && from <= |c.db.queue|
    requires forall k :: 0 <= k < from ==> !Ready(c.db.queue[k], now)
    ensures var c' := Run(cfg, c, Calls(n, now));
            && BacklogSent(c.db.queue, c'.db.queue, now) && c'.db == c.db.(queue := c'.db.queue)
            && c'.up && c'.worker == Idle && c'.completed == c.completed + n
    decreases |c.db.queue| - from
  {
    var due := FirstDue(c.db.queue, now, {}, from);
    if due.None? {
      n := 0;
    } else {
      var id := due.value;
      var c1 := Run(cfg, c, SendingCall(now, {}));
      SendNext(cfg, c, now, id);
      n := BacklogCanBeSent(cfg, c1, now, id + 1);
      RunSplits(cfg, c, SendingCall(now, {}), Calls(n, now));
      n := n + 1;
    }
  }

  lemma SendNext(cfg: Config, c: Core, now: real, id: nat)
    requires ValidConfig(cfg) && Inv(cfg, c) && c.up && c.worker.Idle? && NextInLine(c.db.queue, now, {}, id)
    ensures var c1 := Run(cfg, c, SendingCall(now, {}));
            && Inv(cfg, c1) && c1.up && c1.worker == Idle && c1.completed == c.completed + 1
            && c1.db == c.db.(queue := c.db.queue[id := c.db.queue[id].(status := Sent)])
            && forall k :: 0 <= k <= id ==> !Ready(c1.db.queue[k], now)
  {
    DueJobsAreSent(cfg, c, now, {}, id);
    RunKeeps(cfg, c, SendingCall(now, {}));
  }

  /** From empty tables: a new abnormal heartbeat that is accepted has its mail sent by the first call after it. */
  lemma NewAlertIsSent(cfg: Config, hb: Heartbeat, start: real, heard: real, mes: bool, now: real)
    requires ValidConfig(cfg) && hb.level != Up && heard <= now
    ensures var beat := Beat(hb, heard, mes, true, true);
            var c := Run(cfg, INITIAL, [Restart(start), beat] + SendingCall(now, {}));
            c.db.queue == [Job(QueueKey(hb, Alert), Alert, hb, Sent, 0, heard)]
  {
    var start, beat := Restart(start), Beat(hb, heard, mes, true, true);
    var c1 := Step(cfg, INITIAL, start);
    var c2 := Step(cfg, c1, beat);
    RunSplits(cfg, INITIAL, [start, beat], SendingCall(now, {}));
    assert [start, beat][1..] == [beat] && [beat][1..] == [];
    assert Run(cfg, c1, [beat]) == Run(cfg, c2, []) == c2;
    Reachable(cfg, [start, beat]);
    DueJobsAreSent(cfg, c2, now, {}, 0);
  }
}
