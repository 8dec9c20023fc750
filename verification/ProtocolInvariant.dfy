/** The inductive invariant of the protocol: one lemma per kind of step, then every run. */
module ProtocolInvariant {
  import opened JobQueue
  import opened Tables
  import opened TableInvariants
  import opened Settings
  import opened Backoff
  import opened Protocol

  /** What a job row and its history agree on. */
  ghost predicate LogOk(cfg: Config, job: Job, log: JobLog, held: bool) {
    && (job.status == Pending ==> job.attempts == 0 && log.recoveries == 0)
    && (job.status == Pending || job.status == Retry || job.status == Dead ==>
          |log.times| == job.attempts + log.recoveries)
    && (job.status == Sending || job.status == Sent ==> |log.times| == job.attempts + log.recoveries + 1)
    && job.attempts + log.recoveries <= |log.times| <= job.attempts + log.recoveries + 1
    && (if job.status == Dead then job.attempts == cfg.maxAttempts else job.attempts < cfg.maxAttempts)
    && (job.status == Sent ==> log.acceptances > 0)
    && log.completed <= job.attempts + (if !held && (job.status == Sent || job.status == Cancelled) then 1 else 0)
    && (log.recoveries == 0 ==> Spaced(cfg, log.times))
    && (log.recoveries == 0 && job.status == Retry ==>
          |log.times| > 0 && job.nextAt >= log.times[|log.times| - 1] + Delay(cfg, |log.times|))
  }

  ghost predicate LogsOk(cfg: Config, c: Core) {
    && |c.logs| == |c.db.queue|
    && (forall i {:trigger c.logs[i]} :: 0 <= i < |c.logs| ==>
          LogOk(cfg, c.db.queue[i], c.logs[i], c.worker.Busy? && c.worker.id == i))
  }

  /** A live job was queued in its device's current monitoring epoch. */
  ghost predicate EpochsOk(c: Core) {
    forall i {:trigger c.logs[i]} :: 0 <= i < |c.logs| && i < |c.db.queue| && c.db.queue[i].Live() ==>
      c.logs[i].epoch == EpochOf(c.epochs, c.db.queue[i].hb.device)
  }

  ghost predicate WorkerOk(c: Core) {
    c.worker.Busy? ==>
      var w := c.worker;
      && c.up
      && w.id < |c.db.queue| && w.id < |c.logs|
      && var job, log := c.db.queue[w.id], c.logs[w.id];
      && (job.status == Sending || job.status == Cancelled || job.status == Sent)
      && (job.status == Sending ==>
            w.attempts == job.attempts && |log.times| > 0 && log.times[|log.times| - 1] == w.now)
      && (job.status == Sent ==> w.phase == Failed)
      && (w.phase == Delivering || w.phase == Delivered ==> Allowed(c.db, w.id))
      && (w.phase == Delivered ==> log.acceptances > 0)
  }

  ghost predicate Inv(cfg: Config, c: Core) {
    TablesOk(c.db) && LogsOk(cfg, c) && EpochsOk(c) && WorkerOk(c)
  }

  /** The consumer walking its reloaded map does to the tables what reading the tables throughout does. */
  lemma {:induction false} ScanMatchesTables(db: Db, memory: map<string, StateRow>, order: seq<string>, now: real,
                                             threshold: real, mes: set<string>)
    requires TablesOk(db) && memory == Loaded(db)
    ensures RememberedScan(db, memory, order, now, threshold, mes).0 == Scanned(db, order, now, threshold, mes)
    ensures RememberedScan(db, memory, order, now, threshold, mes).1
         == Loaded(Scanned(db, order, now, threshold, mes))
    decreases |order|
  {
    if order != [] {
      var d := order[0];
      var row := Lookup(memory, d);
      var db' := ScannedOne(db, d, now, threshold, mes);
      ScannedOneKeeps(db, d, now, threshold, mes);
      if row.Some? && Overdue(row.value, now, threshold) && Accepts(db, d, d in mes) {
        assert memory[d := row.value.(stale := true)] == Loaded(db');
        ScanMatchesTables(db', Loaded(db'), order[1..], now, threshold, mes);
      } else {
        ScanMatchesTables(db', memory, order[1..], now, threshold, mes);
      }
    }
  }

  // ----- one job and its log -----

  lemma FailedLogOk(cfg: Config, job: Job, log: JobLog)
    requires LogOk(cfg, job, log, true) && job.status == Sending
    requires |log.times| > 0
    ensures var attempts := job.attempts + 1;
            var dead := attempts >= cfg.maxAttempts;
            var job' := job.(status := if dead then Dead else Retry, attempts := attempts,
                             nextAt := log.times[|log.times| - 1] + Delay(cfg, attempts));
            LogOk(cfg, job', log, true) && LogOk(cfg, job', log.(completed := log.completed + 1), false)
  {
  }

  lemma EndedLogOk(cfg: Config, job: Job, log: JobLog, held: bool)
    requires LogOk(cfg, job, log, held) && job.Live()
    ensures LogOk(cfg, job.(status := Cancelled), log, held)
    ensures held ==> LogOk(cfg, job.(status := Cancelled), log.(completed := log.completed + 1), false)
    ensures job.status == Sending && log.acceptances > 0 ==> LogOk(cfg, job.(status := Sent), log, held)
    ensures job.status == Sending && log.acceptances > 0 && held ==>
              LogOk(cfg, job.(status := Sent), log.(completed := log.completed + 1), false)
  {
  }

  /** A step that touches one job and one log leaves every other pair as it was. */
  lemma OneJobChanges(cfg: Config, c: Core, c': Core, id: nat)
    requires LogsOk(cfg, c) && |c'.db.queue| == |c.db.queue| == |c'.logs| && id < |c.logs|
    requires c.worker.Busy? ==> c.worker.id == id
    requires c'.worker.Busy? ==> c'.worker.id == id
    requires forall i :: 0 <= i < |c.logs| && i != id ==> c'.db.queue[i] == c.db.queue[i] && c'.logs[i] == c.logs[i]
    requires LogOk(cfg, c'.db.queue[id], c'.logs[id], c'.worker.Busy?)
    ensures LogsOk(cfg, c')
  {
    forall i | 0 <= i < |c'.logs|
      ensures LogOk(cfg, c'.db.queue[i], c'.logs[i], c'.worker.Busy? && c'.worker.id == i)
    {
      if i != id {
        assert LogOk(cfg, c.db.queue[i], c.logs[i], false);
      }
    }
  }

  // ----- the steps -----

  /** Appended rows start with a fresh log in the current epoch of a monitored device. */
  lemma GrownKeeps(cfg: Config, c: Core, db': Db, notes: seq<Note>)
    requires ValidConfig(cfg) && Inv(cfg, c)
    requires TablesOk(db') && Grew(c.db, db')
    ensures Inv(cfg, Grown(c, db', notes))
  {
    var c' := Grown(c, db', notes);
    var q, q' := c.db.queue, c'.db.queue;
    forall i | 0 <= i < |c'.logs|
      ensures i < |q| ==> c'.logs[i] == c.logs[i] && q'[i] == q[i]
      ensures i >= |q| ==> c'.logs[i] == FreshLog(EpochOf(c.epochs, q'[i].hb.device))
      ensures LogOk(cfg, q'[i], c'.logs[i], c'.worker.Busy? && c'.worker.id == i)
    {
      assert q == q'[..|q|];
      if i < |q| {
        assert LogOk(cfg, q[i], c.logs[i], c.worker.Busy? && c.worker.id == i);
      }
    }
    if c.worker.Busy? {
      assert Monitored(c.db, q[c.worker.id].hb.device) ==> Monitored(c'.db, q[c.worker.id].hb.device);
    }
  }

  lemma ConsumerKeeps(cfg: Config, c: Core, a: Action)
    requires ValidConfig(cfg) && Inv(cfg, c) && (a.Beat? || a.StaleScan?)
    ensures Inv(cfg, Step(cfg, c, a))
  {
    if c.up && a.commit {
      match a
      case Beat(hb, now, m1, m2, _) =>
        ProcessedKeeps(c.db, Lookup(Loaded(c.db), hb.device), hb, now, m1, m2);
        GrownKeeps(cfg, c, Processed(c.db, hb, now, m1, m2), BeatNotes(c.db, hb, now, m1, m2));
      case StaleScan(order, now, mes, _) =>
        ScannedKeeps(c.db, order, now, cfg.staleAfter, mes);
        ScanMatchesTables(c.db, Loaded(c.db), order, now, cfg.staleAfter, mes);
        GrownKeeps(cfg, c, Scanned(c.db, order, now, cfg.staleAfter, mes),
                   ScanNotes(c.db, order, now, cfg.staleAfter, mes));
    }
  }

  /** A claim happens no earlier than the row's next attempt, so the claims stay spaced. */
  lemma ClaimKeeps(cfg: Config, c: Core, now: real, skipped: set<nat>, outcome: Outcome)
    requires ValidConfig(cfg) && Inv(cfg, c) && c.up && c.worker.Idle?
    ensures Inv(cfg, ClaimStep(c, now, skipped, outcome))
  {
    var due := FirstDue(c.db.queue, now, skipped);
    if due.Some? && outcome != Broken(false) {
      ClaimedJobKeeps(cfg, c, ClaimStep(c, now, skipped, outcome), due.value, now);
    }
  }

  lemma ClaimedJobKeeps(cfg: Config, c: Core, c': Core, id: nat, now: real)
    requires Inv(cfg, c) && c.up && c.worker.Idle?
    requires id < |c.db.queue| && Due(c.db.queue[id], now)
    requires c'.db == c.db.(queue := Claimed(c.db.queue, id))
    requires c'.logs == c.logs[id := c.logs[id].(times := c.logs[id].times + [now])]
    requires c'.worker == Idle || c'.worker == Busy(Held, id, c.db.queue[id].attempts, now)
    requires c'.up && c'.epochs == c.epochs
    ensures Inv(cfg, c')
  {
    assert LogOk(cfg, c.db.queue[id], c.logs[id], false);
    OneJobChanges(cfg, c, c', id);
  }

  lemma GuardKeeps(cfg: Config, c: Core, outcome: Outcome)
    requires ValidConfig(cfg) && Inv(cfg, c) && InPhase(c, Held)
    ensures Inv(cfg, GuardStep(c, outcome))
    ensures GuardStep(c, outcome).db == c.db
  {
    var id := c.worker.id;
    var c' := GuardStep(c, outcome);
    assert LogOk(cfg, c.db.queue[id], c.logs[id], true);
    if !Allowed(c.db, id) {
      if outcome == Clean {
        assert c' == Returned(c, id);
        OneJobChanges(cfg, c, c', id);
      } else {
        assert c' == c.(worker := c.worker.(phase := Failed));
        PhaseKeeps(cfg, c, c');
      }
    }
  }

  lemma SentKeeps(cfg: Config, c: Core, outcome: Outcome)
    requires ValidConfig(cfg) && Inv(cfg, c) && InPhase(c, Delivered)
    ensures Inv(cfg, SentStep(c, outcome))
  {
    var id := c.worker.id;
    assert LogOk(cfg, c.db.queue[id], c.logs[id], true);
    EndedLogOk(cfg, c.db.queue[id], c.logs[id], true);
    OneJobChanges(cfg, c, SentStep(c, outcome), id);
  }

  lemma FailureKeeps(cfg: Config, c: Core, outcome: Outcome)
    requires ValidConfig(cfg) && Inv(cfg, c) && InPhase(c, Failed)
    ensures Inv(cfg, FailureStep(cfg, c, outcome))
  {
    var w := c.worker;
    var attempts := w.attempts + 1;
    FailureLogOk(cfg, c, outcome);
    OneJobChanges(cfg, c, FailureStep(cfg, c, outcome), w.id);
  }

  lemma FailureLogOk(cfg: Config, c: Core, outcome: Outcome)
    requires LogsOk(cfg, c) && WorkerOk(c) && InPhase(c, Failed)
    ensures var c', id := FailureStep(cfg, c, outcome), c.worker.id;
            id < |c'.db.queue| && id < |c'.logs| && LogOk(cfg, c'.db.queue[id], c'.logs[id], false)
  {
    var id := c.worker.id;
    var job, log := c.db.queue[id], c.logs[id];
    assert LogOk(cfg, job, log, true);
    if job.status == Sending {
      FailedLogOk(cfg, job, log);
      var attempts := job.attempts + 1;
      var job' := job.(status := if attempts >= cfg.maxAttempts then Dead else Retry, attempts := attempts,
                       nextAt := c.worker.now + Delay(cfg, attempts));
    }
  }

  /** An effective request starts a new epoch for its device and leaves it no live job. */
  lemma ManageCancels(c: Core, r: Request, i: nat)
    requires i < |c.db.queue|
    ensures var c' := ManageStep(c, r);
            var job, effective := c.db.queue[i], Effective(c.db, c'.db, r.device);
            && |c'.db.queue| == |c.db.queue|
            && c'.db.queue[i] == (if effective then CancelledJob(job, r.device) else job)
            && c'.logs == c.logs
            && (!effective || job.hb.device != r.device ==>
                  EpochOf(c'.epochs, job.hb.device) == EpochOf(c.epochs, job.hb.device))
  {
    ServedJob(c.db, r, i);
  }

  lemma ManageKeeps(cfg: Config, c: Core, r: Request)
    requires ValidConfig(cfg) && Inv(cfg, c) && !Locked(c, r.device)
    ensures Inv(cfg, ManageStep(c, r))
  {
    ServedKeeps(c.db, r);
    var c' := ManageStep(c, r);
    forall i | 0 <= i < |c.logs|
      ensures LogOk(cfg, c'.db.queue[i], c'.logs[i], c'.worker.Busy? && c'.worker.id == i)
      ensures c'.db.queue[i].Live() ==> c'.logs[i].epoch == EpochOf(c'.epochs, c'.db.queue[i].hb.device)
    {
      ManageCancels(c, r, i);
      var held := c.worker.Busy? && c.worker.id == i;
      assert LogOk(cfg, c.db.queue[i], c.logs[i], held);
      if c.db.queue[i].Live() {
        EndedLogOk(cfg, c.db.queue[i], c.logs[i], held);
      }
    }
    ManageKeepsWorker(c, r);
  }

  /** The advisory lock keeps a request off the device whose mail is being sent. */
  lemma ManageKeepsWorker(c: Core, r: Request)
    requires WorkerOk(c) && !Locked(c, r.device)
    ensures WorkerOk(ManageStep(c, r))
  {
    if c.worker.Busy? {
      ManageCancels(c, r, c.worker.id);
      var d := c.db.queue[c.worker.id].hb.device;
      if d != r.device {
        assert Monitored(ManageStep(c, r).db, d) == Monitored(c.db, d);
      }
    }
  }

  lemma RestartKeeps(cfg: Config, c: Core, now: real)
    requires ValidConfig(cfg) && Inv(cfg, c) && !c.up
    ensures Inv(cfg, RestartStep(c, now))
  {
    var c' := RestartStep(c, now);
    forall i | 0 <= i < |c'.logs|
      ensures LogOk(cfg, c'.db.queue[i], c'.logs[i], false)
    {
      assert LogOk(cfg, c.db.queue[i], c.logs[i], false);
    }
  }

  /** The SMTP answer is recorded in the log; the worker only changes phase. */
  lemma SmtpKeeps(cfg: Config, c: Core, ok: bool)
    requires Inv(cfg, c) && (InPhase(c, Delivering) || InPhase(c, Orphaned))
    ensures Inv(cfg, SmtpStep(c, ok))
  {
    var id := c.worker.id;
    assert LogOk(cfg, c.db.queue[id], c.logs[id], true);
    OneJobChanges(cfg, c, SmtpStep(c, ok), id);
  }

  /** Losing the worker, or moving it to a phase that claims less, needs no change of the tables. */
  lemma PhaseKeeps(cfg: Config, c: Core, c': Core)
    requires Inv(cfg, c) && c'.db == c.db && c'.logs == c.logs && c'.epochs == c.epochs
    requires c'.worker == Idle
          || (c.worker.Busy? && c'.up == c.up && c.worker.phase != Failed
              && c'.worker in {c.worker.(phase := Failed), c.worker.(phase := Orphaned)})
    ensures Inv(cfg, c')
  {
    forall i | 0 <= i < |c'.logs|
      ensures LogOk(cfg, c'.db.queue[i], c'.logs[i], c'.worker.Busy? && c'.worker.id == i)
    {
      assert LogOk(cfg, c.db.queue[i], c.logs[i], c.worker.Busy? && c.worker.id == i);
    }
  }

  lemma WorkerKeeps(cfg: Config, c: Core, a: Action)
    requires ValidConfig(cfg) && Inv(cfg, c)
    requires !a.Beat? && !a.StaleScan? && !a.Manage? && !a.Restart?
    ensures Inv(cfg, Step(cfg, c, a))
  {
    match a
    case Claim(now, skipped, outcome) =>
      if c.up && c.worker.Idle? {
        ClaimKeeps(cfg, c, now, skipped, outcome);
      }
    case EnterGuard(outcome) =>
      if InPhase(c, Held) {
        GuardKeeps(cfg, c, outcome);
      }
    case GuardBreaks =>
      if InPhase(c, Held) {
        PhaseKeeps(cfg, c, Step(cfg, c, a));
      }
    case ConnectionLost =>
      if InPhase(c, Delivering) {
        PhaseKeeps(cfg, c, Step(cfg, c, a));
      }
    case SmtpAnswers(ok) =>
      if InPhase(c, Delivering) || InPhase(c, Orphaned) {
        SmtpKeeps(cfg, c, ok);
      }
    case CommitSent(outcome) =>
      if InPhase(c, Delivered) {
        SentKeeps(cfg, c, outcome);
      }
    case CommitFailure(outcome) =>
      if InPhase(c, Failed) {
        FailureKeeps(cfg, c, outcome);
      }
    case Crash =>
      PhaseKeeps(cfg, c, Step(cfg, c, a));
  }

  lemma StepKeeps(cfg: Config, c: Core, a: Action)
    requires ValidConfig(cfg) && Inv(cfg, c)
    ensures Inv(cfg, Step(cfg, c, a))
  {
    match a
    case Beat(_, _, _, _, _) => ConsumerKeeps(cfg, c, a);
    case StaleScan(_, _, _, _) => ConsumerKeeps(cfg, c, a);
    case Manage(r) =>
      if !Locked(c, r.device) {
        ManageKeeps(cfg, c, r);
      }
    case Restart(now) =>
      if !c.up {
        RestartKeeps(cfg, c, now);
      }
    case _ => WorkerKeeps(cfg, c, a);
  }

  /** The invariant holds after every run, whatever the interleaving. */
  lemma {:induction false} RunKeeps(cfg: Config, c: Core, actions: seq<Action>)
    requires ValidConfig(cfg) && Inv(cfg, c)
    ensures Inv(cfg, Run(cfg, c, actions))
    decreases |actions|
  {
    if actions != [] {
      StepKeeps(cfg, c, actions[0]);
      RunKeeps(cfg, Step(cfg, c, actions[0]), actions[1..]);
    }
  }

  lemma Reachable(cfg: Config, actions: seq<Action>)
    requires ValidConfig(cfg)
    ensures Inv(cfg, Run(cfg, INITIAL, actions))
  {
    RunKeeps(cfg, INITIAL, actions);
  }
}
