/**
 The notification system as one transition system: the consumer, the SMTP worker, any number of
 management requests, crashes and restarts take steps over the shared tables. Each database
 transaction is one step; the worker's claim, guard, send and outcome are separate steps, so
 anything may happen between them. Beside the tables the state keeps history that no step reads.
 */
module Protocol {
  import opened Heartbeats
  import opened JobQueue
  import opened Tables
  import opened Settings
  import opened Backoff

  /** Held: claimed. Delivering: guard passed, SMTP call running, advisory lock held.
      Orphaned: the connection, and with it the lock, was lost while SMTP still runs.
      Delivered: SMTP accepted, commit pending, lock still held. Failed: left the guard by an exception. */
  datatype Phase = Held | Delivering | Orphaned | Delivered | Failed

  datatype Worker = Idle | Busy(phase: Phase, id: nat, attempts: nat, now: real)

  /** How a commit ends for the caller: cleanly, or with an error although it may have been applied. */
  datatype Outcome = Clean | Broken(applied: bool)

  /** History of one job: the monitoring epoch it was queued in, the clock readings of its claims,
      the times it was recovered, its SMTP acceptances, and the worker calls that returned True for it. */
  datatype JobLog = JobLog(epoch: nat, times: seq<real>, recoveries: nat, acceptances: nat, completed: nat)

  /** History of the devices: notifications accepted, heartbeats stored, settings changed. */
  datatype Note =
    | Accepted(device: string, kind: Kind, sig: Signature)
    | Heard(device: string, sig: Signature)
    | Changed(device: string)

  datatype Core = Core(
    db: Db,
    worker: Worker,
    up: bool,
    epochs: map<string, nat>,
    logs: seq<JobLog>,
    trace: seq<Note>,
    completed: nat)

  const INITIAL := Core(EMPTY_DB, Idle, false, map[], [], [], 0)

  datatype Action =
    | Beat(hb: Heartbeat, now: real, mesReceiving: bool, mesStatus: bool, commit: bool)
    | StaleScan(order: seq<string>, now: real, mes: set<string>, commit: bool)
    | Claim(now: real, skipped: set<nat>, outcome: Outcome)
    | EnterGuard(outcome: Outcome)
    | GuardBreaks
    | ConnectionLost
    | SmtpAnswers(ok: bool)
    | CommitSent(outcome: Outcome)
    | CommitFailure(outcome: Outcome)
    | Manage(request: Request)
    | Crash
    | Restart(now: real)

  // ----- the consumer with its in-memory map -----

  /** The map is reloaded from the tables, the previous row is read from it, and the new row is put back. */
  function RememberedBeat(db: Db, hb: Heartbeat, now: real, m1: bool, m2: bool): (Db, map<string, StateRow>)
  {
    var loaded := Loaded(db);
    var previous := Lookup(loaded, hb.device);
    var db1 := AfterReceiving(db, previous, hb, now, m1);
    (ProcessedFrom(db, previous, hb, now, m1, m2),
     loaded[hb.device := StateRow(hb, now, false, AlertFlag(previous, hb, Accepts(db1, hb.device, m2)))])
  }

  /** The stale check walks the reloaded map, not the tables, and updates both as it goes. */
  function RememberedScan(db: Db, memory: map<string, StateRow>, order: seq<string>, now: real, threshold: real,
                          mes: set<string>): (Db, map<string, StateRow>)
    decreases |order|
  {
    if order == [] then (db, memory)
    else
      var d := order[0];
      var row := Lookup(memory, d);
      if row.None? || !Overdue(row.value, now, threshold) then
        RememberedScan(db, memory, order[1..], now, threshold, mes)
      else if !Accepts(db, d, d in mes) then
        RememberedScan(Registered(db, d), memory, order[1..], now, threshold, mes)
      else
        RememberedScan(StaleMarked(Enqueued(db, row.value.hb, Missing, now), d),
                       memory[d := row.value.(stale := true)], order[1..], now, threshold, mes)
  }

  // ----- history -----

  function EpochOf(epochs: map<string, nat>, device: string): nat {
    if device in epochs then epochs[device] else 0
  }

  function FreshLog(epoch: nat): JobLog {
    JobLog(epoch, [], 0, 0, 0)
  }

  /** The logs after rows were appended to the queue. */
  function Extended(logs: seq<JobLog>, epochs: map<string, nat>, q: seq<Job>): seq<JobLog> {
    if |q| <= |logs| then logs
    else logs + seq(|q| - |logs|, i requires 0 <= i < |q| - |logs| =>
                      FreshLog(EpochOf(epochs, q[|logs| + i].hb.device)))
  }

  function AcceptNote(db: Db, hb: Heartbeat, kind: Kind, mes: bool): seq<Note> {
    if Accepts(db, hb.device, mes) then [Accepted(hb.device, kind, hb.Sig())] else []
  }

  /** What a heartbeat's transaction adds to the history, given the row that was loaded for its device. */
  function BeatNotesFrom(db: Db, previous: Option<StateRow>, hb: Heartbeat, now: real, m1: bool, m2: bool): seq<Note> {
    var db1 := AfterReceiving(db, previous, hb, now, m1);
    var notice := StatusNotice(previous, hb);
    (if previous.Some? && previous.value.stale then AcceptNote(db, hb, Receiving, m1) else [])
    + (if notice.Some? then AcceptNote(db1, hb, notice.value, m2) else [])
    + (if Deleted(db, hb.device) then [] else [Heard(hb.device, hb.Sig())])
  }

  function BeatNotes(db: Db, hb: Heartbeat, now: real, m1: bool, m2: bool): seq<Note> {
    BeatNotesFrom(db, Lookup(Loaded(db), hb.device), hb, now, m1, m2)
  }

  function ScanNote(db: Db, d: string, now: real, threshold: real, mes: set<string>): seq<Note> {
    var row := Lookup(Loaded(db), d);
    if row.Some? && Overdue(row.value, now, threshold) then AcceptNote(db, row.value.hb, Missing, d in mes) else []
  }

  function ScanNotes(db: Db, order: seq<string>, now: real, threshold: real, mes: set<string>): seq<Note>
    decreases |order|
  {
    if order == [] then []
    else ScanNote(db, order[0], now, threshold, mes)
         + ScanNotes(ScannedOne(db, order[0], now, threshold, mes), order[1..], now, threshold, mes)
  }

  // ----- steps -----

  function Grown(c: Core, db': Db, notes: seq<Note>): Core {
    c.(db := db', logs := Extended(c.logs, c.epochs, db'.queue), trace := c.trace + notes)
  }

  /** A committed heartbeat, given the row that was loaded for its device. */
  function BeatStep(c: Core, previous: Option<StateRow>, hb: Heartbeat, now: real, m1: bool, m2: bool): Core {
    Grown(c, ProcessedFrom(c.db, previous, hb, now, m1, m2), BeatNotesFrom(c.db, previous, hb, now, m1, m2))
  }

  function WithLog(c: Core, id: nat, log: JobLog): Core {
    if id < |c.logs| then c.(logs := c.logs[id := log]) else c
  }

  function LogOf(c: Core, id: nat): JobLog {
    if id < |c.logs| then c.logs[id] else FreshLog(0)
  }

  /** The worker's steps change statuses, attempts and due times of jobs, and nothing else in the tables. */
  ghost predicate OnlyJobsChange(c: Core, c': Core) {
    && c'.db.devices == c.db.devices && c'.db.states == c.db.states
    && c'.epochs == c.epochs && c'.trace == c.trace
    && |c'.db.queue| == |c.db.queue| && |c'.logs| == |c.logs|
    && Moved(c.db.queue, c'.db.queue)
  }

  function ClaimStep(c: Core, now: real, skipped: set<nat>, outcome: Outcome): (c': Core)
    ensures OnlyJobsChange(c, c')
    ensures forall i {:trigger c'.db.queue[i]} :: 0 <= i < |c.db.queue| ==>
              c'.db.queue[i] == c.db.queue[i] || c'.db.queue[i] == c.db.queue[i].(status := Sending)
  {
    var due := FirstDue(c.db.queue, now, skipped);
    if due.None? || outcome == Broken(false) then c
    else
      var id := due.value;
      var log := LogOf(c, id);
      WithLog(c, id, log.(times := log.times + [now]))
      .(db := c.db.(queue := Claimed(c.db.queue, id)),
        worker := if outcome == Clean then Busy(Held, id, c.db.queue[id].attempts, now) else Idle)
  }

  /** One worker call returns True for the job. */
  function Returned(c: Core, id: nat): Core {
    var log := LogOf(c, id);
    WithLog(c, id, log.(completed := log.completed + 1)).(worker := Idle, completed := c.completed + 1)
  }

  function JobDevice(c: Core, id: nat): string {
    if id < |c.db.queue| then c.db.queue[id].hb.device else ""
  }

  /** The guard's verdict, read under the advisory lock of the job's device. */
  predicate Allowed(db: Db, id: nat) {
    id < |db.queue| && Monitored(db, db.queue[id].hb.device) && db.queue[id].status == Sending
  }

  function GuardStep(c: Core, outcome: Outcome): (c': Core)
    requires c.worker.Busy?
    ensures OnlyJobsChange(c, c')
  {
    var id := c.worker.id;
    if Allowed(c.db, id) then c.(worker := c.worker.(phase := Delivering))
    else
      var c1 := if outcome == Broken(false) then c
                else c.(db := c.db.(queue := MarkedCancelled(c.db.queue, id)));
      if outcome == Clean then Returned(c1, id) else c1.(worker := c1.worker.(phase := Failed))
  }

  function SmtpStep(c: Core, ok: bool): (c': Core)
    requires c.worker.Busy?
    ensures OnlyJobsChange(c, c')
  {
    var phase := if ok && c.worker.phase == Delivering then Delivered else Failed;
    var c1 := c.(worker := c.worker.(phase := phase));
    var log := LogOf(c, c.worker.id);
    if ok then WithLog(c1, c.worker.id, log.(acceptances := log.acceptances + 1)) else c1
  }

  /** mark_sent runs in the guard's transaction, so a commit that fails undoes it. */
  function SentStep(c: Core, outcome: Outcome): (c': Core)
    requires c.worker.Busy?
    ensures OnlyJobsChange(c, c')
  {
    var c1 := if outcome == Broken(false) then c
              else c.(db := c.db.(queue := MarkedSent(c.db.queue, c.worker.id)));
    if outcome == Clean then Returned(c1, c.worker.id) else c1.(worker := c.worker.(phase := Failed))
  }

  function FailureStep(cfg: Config, c: Core, outcome: Outcome): (c': Core)
    requires c.worker.Busy?
    ensures OnlyJobsChange(c, c')
  {
    var w := c.worker;
    var attempts := w.attempts + 1;
    var q := MarkedFailed(c.db.queue, w.id, w.now + Delay(cfg, attempts), attempts >= cfg.maxAttempts);
    var c1 := if outcome == Broken(false) then c else c.(db := c.db.(queue := q));
    if outcome == Clean then Returned(c1, w.id) else c1.(worker := Idle)
  }

  /** The worker holds the advisory lock from a passed guard to the end of its transaction. */
  predicate Locked(c: Core, device: string) {
    && c.worker.Busy? && (c.worker.phase == Delivering || c.worker.phase == Delivered)
    && JobDevice(c, c.worker.id) == device
  }

  function ManageStep(c: Core, r: Request): Core {
    var db' := Served(c.db, r);
    if Effective(c.db, db', r.device) then
      c.(db := db', epochs := c.epochs[r.device := EpochOf(c.epochs, r.device) + 1],
         trace := c.trace + [Changed(r.device)])
    else c.(db := db')
  }

  function RecoverLog(job: Job, log: JobLog): JobLog {
    if job.status == Sending then log.(recoveries := log.recoveries + 1) else log
  }

  function RestartStep(c: Core, now: real): (c': Core)
    ensures OnlyJobsChange(c, c')
  {
    var db' := c.db.(queue := Recovered(c.db.queue, now));
    c.(db := db', up := true,
       logs := seq(|c.logs|, i requires 0 <= i < |c.logs| =>
                     if i < |c.db.queue| then RecoverLog(c.db.queue[i], c.logs[i]) else c.logs[i]))
  }

  predicate InPhase(c: Core, phase: Phase) {
    c.up && c.worker.Busy? && c.worker.phase == phase
  }

  /** One step. An action whose actor is not ready for it, or that has to wait for a lock, changes nothing. */
  function Step(cfg: Config, c: Core, a: Action): Core {
    match a
    case Beat(hb, now, m1, m2, commit) =>
      if c.up && commit then BeatStep(c, Lookup(Loaded(c.db), hb.device), hb, now, m1, m2) else c
    case StaleScan(order, now, mes, commit) =>
      if c.up && commit then
        Grown(c, RememberedScan(c.db, Loaded(c.db), order, now, cfg.staleAfter, mes).0,
              ScanNotes(c.db, order, now, cfg.staleAfter, mes))
      else c
    case Claim(now, skipped, outcome) =>
      if c.up && c.worker.Idle? then ClaimStep(c, now, skipped, outcome) else c
    case EnterGuard(outcome) => if InPhase(c, Held) then GuardStep(c, outcome) else c
    case GuardBreaks => if InPhase(c, Held) then c.(worker := c.worker.(phase := Failed)) else c
    case ConnectionLost => if InPhase(c, Delivering) then c.(worker := c.worker.(phase := Orphaned)) else c
    case SmtpAnswers(ok) => if InPhase(c, Delivering) || InPhase(c, Orphaned) then SmtpStep(c, ok) else c
    case CommitSent(outcome) => if InPhase(c, Delivered) then SentStep(c, outcome) else c
    case CommitFailure(outcome) => if InPhase(c, Failed) then FailureStep(cfg, c, outcome) else c
    case Manage(r) => if Locked(c, r.device) then c else ManageStep(c, r)
    case Crash => c.(up := false, worker := Idle)
    case Restart(now) => if c.up then c else RestartStep(c, now)
  }

  function Run(cfg: Config, c: Core, actions: seq<Action>): Core
    decreases |actions|
  {
    if actions == [] then c else Run(cfg, Step(cfg, c, actions[0]), actions[1..])
  }
}
