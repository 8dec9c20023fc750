/** What every run promises about a job: when it may be sent, how often it is claimed, how it ends. */
module Delivery {
  import opened JobQueue
  import opened Tables
  import opened TableInvariants
  import opened Settings
  import opened Backoff
  import opened Protocol
  import opened ProtocolInvariant

  lemma {:induction false} RunSplits(cfg: Config, c: Core, a: seq<Action>, b: seq<Action>)
    ensures Run(cfg, c, a + b) == Run(cfg, Run(cfg, c, a), b)
    decreases |a|
  {
    if a == [] {
      assert a + b == b;
    } else {
      assert (a + b)[0] == a[0] && (a + b)[1..] == a[1..] + b;
      RunSplits(cfg, Step(cfg, c, a[0]), a[1..], b);
    }
  }

  lemma RunOne(cfg: Config, c: Core, a: Action)
    ensures Run(cfg, c, [a]) == Step(cfg, c, a)
  {
    assert Run(cfg, Step(cfg, c, a), []) == Step(cfg, c, a);
    assert [a][1..] == [];
  }

  // ----- what one step can do -----

  lemma ConsumerGrows(cfg: Config, c: Core, a: Action)
    requires Inv(cfg, c) && (a.Beat? || a.StaleScan?)
    ensures Grew(c.db, Step(cfg, c, a).db)
  {
    match a
    case Beat(hb, now, m1, m2, _) =>
      ProcessedKeeps(c.db, Lookup(Loaded(c.db), hb.device), hb, now, m1, m2);
    case StaleScan(order, now, mes, _) =>
      ScannedKeeps(c.db, order, now, cfg.staleAfter, mes);
      ScanMatchesTables(c.db, Loaded(c.db), order, now, cfg.staleAfter, mes);
  }

  lemma WorkerStepFrame(cfg: Config, c: Core, a: Action)
    requires !a.Beat? && !a.StaleScan? && !a.Manage?
    ensures OnlyJobsChange(c, Step(cfg, c, a))
  {
  }

  lemma StepMoves(cfg: Config, c: Core, a: Action)
    requires Inv(cfg, c)
    ensures Moved(c.db.queue, Step(cfg, c, a).db.queue)
  {
    match a
    case Beat(_, _, _, _, _) => ConsumerGrows(cfg, c, a);
    case StaleScan(_, _, _, _) => ConsumerGrows(cfg, c, a);
    case Manage(r) => ServedKeeps(c.db, r);
    case _ => WorkerStepFrame(cfg, c, a);
  }

  lemma ManageEpochs(c: Core, r: Request, device: string)
    requires device in c.db.devices
    ensures var c' := ManageStep(c, r);
            && device in c'.db.devices
            && EpochOf(c'.epochs, device)
               == EpochOf(c.epochs, device) + (if Effective(c.db, c'.db, device) then 1 else 0)
            && (Effective(c.db, c'.db, device) ==> r.device == device)
  {
  }

  /** Only a management request changes the settings of a registered device, and it starts a new epoch. */
  lemma StepEpochs(cfg: Config, c: Core, a: Action, device: string)
    requires Inv(cfg, c) && device in c.db.devices
    ensures var c' := Step(cfg, c, a);
            && device in c'.db.devices
            && EpochOf(c'.epochs, device)
               == EpochOf(c.epochs, device) + (if Effective(c.db, c'.db, device) then 1 else 0)
            && (Effective(c.db, c'.db, device) ==> a.Manage? && a.request.device == device)
  {
    match a
    case Beat(_, _, _, _, _) => ConsumerGrows(cfg, c, a);
    case StaleScan(_, _, _, _) => ConsumerGrows(cfg, c, a);
    case Manage(r) => ManageEpochs(c, r, device);
    case _ => WorkerStepFrame(cfg, c, a);
  }

  lemma StepKeepsLogEpochs(cfg: Config, c: Core, a: Action, id: nat)
    requires id < |c.logs|
    ensures id < |Step(cfg, c, a).logs| && Step(cfg, c, a).logs[id].epoch == c.logs[id].epoch
  {
    match a
    case Beat(_, _, _, _, _) =>
    case StaleScan(_, _, _, _) =>
    case Claim(_, _, _) =>
    case _ =>
  }

  lemma {:induction false} RunMoves(cfg: Config, c: Core, actions: seq<Action>)
    requires ValidConfig(cfg) && Inv(cfg, c)
    ensures Moved(c.db.queue, Run(cfg, c, actions).db.queue)
    decreases |actions|
  {
    if actions != [] {
      var c1 := Step(cfg, c, actions[0]);
      StepKeeps(cfg, c, actions[0]);
      StepMoves(cfg, c, actions[0]);
      RunMoves(cfg, c1, actions[1..]);
    }
  }

  lemma {:induction false} RunEpochs(cfg: Config, c: Core, actions: seq<Action>, device: string, id: nat)
    requires ValidConfig(cfg) && Inv(cfg, c) && device in c.db.devices && id < |c.logs|
    ensures var c' := Run(cfg, c, actions);
            && device in c'.db.devices && EpochOf(c'.epochs, device) >= EpochOf(c.epochs, device)
            && id < |c'.logs| && c'.logs[id].epoch == c.logs[id].epoch
    decreases |actions|
  {
    if actions != [] {
      StepKeeps(cfg, c, actions[0]);
      StepEpochs(cfg, c, actions[0], device);
      StepKeepsLogEpochs(cfg, c, actions[0], id);
      RunEpochs(cfg, Step(cfg, c, actions[0]), actions[1..], device, id);
    }
  }

  // ----- safety of sending -----

  /** From the moment the guard lets a send start until its transaction ends, the lock is held, requests
      for the device wait, the device is monitored, the job is SENDING and belongs to the current epoch. */
  lemma SendIsGuarded(cfg: Config, actions: seq<Action>, r: Request)
    requires ValidConfig(cfg)
    ensures var c := Run(cfg, INITIAL, actions);
            InPhase(c, Delivering) || InPhase(c, Delivered) ==>
              && c.worker.id < |c.db.queue| && c.worker.id < |c.logs|
              && var job := c.db.queue[c.worker.id];
              && Locked(c, job.hb.device)
              && Monitored(c.db, job.hb.device)
              && job.status == Sending
              && c.logs[c.worker.id].epoch == EpochOf(c.epochs, job.hb.device)
              && (r.device == job.hb.device ==> Step(cfg, c, Manage(r)) == c)
  {
    Reachable(cfg, actions);
  }

  /** Nobody but the guard starts a send, and it starts one only for the job its own worker claimed. */
  lemma OnlyTheGuardStartsSends(cfg: Config, c: Core, a: Action)
    requires Inv(cfg, c) && !InPhase(c, Delivering) && InPhase(Step(cfg, c, a), Delivering)
    ensures a.EnterGuard? && InPhase(c, Held) && Step(cfg, c, a).worker.id == c.worker.id && Allowed(c.db, c.worker.id)
  {
  }

  /** While a job that was queued before is being sent, no step since then can have been an effective
      change of its device: not even a disable followed by an enable. */
  lemma NoChangeSinceQueued(cfg: Config, before: seq<Action>, mid: seq<Action>, a: Action, after: seq<Action>)
    requires ValidConfig(cfg)
    requires var c := Run(cfg, INITIAL, before + mid + [a] + after);
             InPhase(c, Delivering) && c.worker.id < |Run(cfg, INITIAL, before).db.queue|
    ensures var c1 := Run(cfg, INITIAL, before + mid);
            var c := Run(cfg, INITIAL, before + mid + [a] + after);
            c.worker.id < |c.db.queue| && !Effective(c1.db, Step(cfg, c1, a).db, c.db.queue[c.worker.id].hb.device)
  {
    var c0 := Run(cfg, INITIAL, before);
    var c1 := Run(cfg, INITIAL, before + mid);
    var c2 := Step(cfg, c1, a);
    var c3 := Run(cfg, c2, after);
    RunSplits(cfg, INITIAL, before, mid);
    RunSplits(cfg, INITIAL, before + mid, [a]);
    assert Run(cfg, c1, [a]) == c2 by {
      assert Run(cfg, c2, []) == c2;
      assert [a][1..] == [];
    }
    RunSplits(cfg, INITIAL, before + mid + [a], after);
    Reachable(cfg, before);
    Reachable(cfg, before + mid);
    StepKeeps(cfg, c1, a);
    Reachable(cfg, before + mid + [a] + after);
    var id := c3.worker.id;
    var device := c0.db.queue[id].hb.device;
    RunMoves(cfg, c0, mid);
    StepMoves(cfg, c1, a);
    RunMoves(cfg, c2, after);
    assert Evolves(c0.db.queue[id], c1.db.queue[id]) && Evolves(c1.db.queue[id], c2.db.queue[id]);
    assert Evolves(c2.db.queue[id], c3.db.queue[id]);
    RunEpochs(cfg, c0, mid, device, id);
    StepEpochs(cfg, c1, a, device);
    StepKeepsLogEpochs(cfg, c1, a, id);
    RunEpochs(cfg, c2, after, device, id);
    assert c0.logs[id].epoch == EpochOf(c0.epochs, device);
    assert c3.logs[id].epoch == EpochOf(c3.epochs, device);
  }

  // ----- quiescence and the job machine -----

  /** A disabled or deleted device has nothing left to send and no flag set, in every reachable state. */
  lemma InactiveDevicesAreQuiet(cfg: Config, actions: seq<Action>, device: string)
    requires ValidConfig(cfg)
    requires var db := Run(cfg, INITIAL, actions).db; device in db.devices && !db.devices[device].Active()
    ensures var db := Run(cfg, INITIAL, actions).db;
            && (forall i :: 0 <= i < |db.queue| && db.queue[i].hb.device == device ==> !db.queue[i].Live())
            && (device in db.states ==> !db.states[device].stale && !db.states[device].alert)
  {
    Reachable(cfg, actions);
  }

  /** Hence the cancel statement inside the guard never changes a row. */
  lemma GuardNeverCancels(cfg: Config, actions: seq<Action>, outcome: Outcome)
    requires ValidConfig(cfg)
    ensures var c := Run(cfg, INITIAL, actions); Step(cfg, c, EnterGuard(outcome)).db == c.db
  {
    Reachable(cfg, actions);
    var c := Run(cfg, INITIAL, actions);
    if InPhase(c, Held) {
      GuardKeeps(cfg, c, outcome);
    }
  }

  /** At most one live job per dedupe key. */
  lemma LiveKeysAreUnique(cfg: Config, actions: seq<Action>)
    requires ValidConfig(cfg)
    ensures UniqueLive(Run(cfg, INITIAL, actions).db.queue)
  {
    Reachable(cfg, actions);
  }

  /** No continuation takes a job out of SENT, DEAD or CANCELLED, or changes what it is about. */
  lemma TerminalIsFinal(cfg: Config, before: seq<Action>, after: seq<Action>, id: nat)
    requires ValidConfig(cfg) && id < |Run(cfg, INITIAL, before).db.queue|
    ensures var q, q' := Run(cfg, INITIAL, before).db.queue, Run(cfg, INITIAL, before + after).db.queue;
            && id < |q'|
            && q'[id].key == q[id].key && q'[id].hb == q[id].hb && q'[id].kind == q[id].kind
            && (!q[id].Live() ==> q'[id] == q[id])
  {
    Reachable(cfg, before);
    RunSplits(cfg, INITIAL, before, after);
    RunMoves(cfg, Run(cfg, INITIAL, before), after);
    assert Evolves(Run(cfg, INITIAL, before).db.queue[id], Run(cfg, INITIAL, before + after).db.queue[id]);
  }

  /** Claims are accounted for by failed attempts and recoveries, and attempts by the configured maximum. */
  lemma ClaimsAreAccountedFor(cfg: Config, actions: seq<Action>, id: nat)
    requires ValidConfig(cfg) && id < |Run(cfg, INITIAL, actions).db.queue|
    ensures var c := Run(cfg, INITIAL, actions);
            && id < |c.logs|
            && var job, log := c.db.queue[id], c.logs[id];
            && (job.status in {Pending, Retry, Dead} ==> |log.times| == job.attempts + log.recoveries)
            && job.attempts + log.recoveries <= |log.times| <= job.attempts + log.recoveries + 1
            && (if job.status == Dead then job.attempts == cfg.maxAttempts else job.attempts < cfg.maxAttempts)
            && |log.times| <= cfg.maxAttempts + log.recoveries
            && (job.status == Sent ==> log.acceptances > 0)
  {
    Reachable(cfg, actions);
    var c := Run(cfg, INITIAL, actions);
    assert LogOk(cfg, c.db.queue[id], c.logs[id], c.worker.Busy? && c.worker.id == id);
  }

  /** Without a recovery, the n-th claim comes at least the first n-1 delays after the first one. */
  lemma ClaimsBackOff(cfg: Config, actions: seq<Action>, id: nat, n: nat)
    requires ValidConfig(cfg) && id < |Run(cfg, INITIAL, actions).logs|
    requires Run(cfg, INITIAL, actions).logs[id].recoveries == 0
    requires 0 < n <= |Run(cfg, INITIAL, actions).logs[id].times|
    ensures var times := Run(cfg, INITIAL, actions).logs[id].times;
            times[n - 1] - times[0] >= DelaySum(cfg, n - 1)
  {
    Reachable(cfg, actions);
    var c := Run(cfg, INITIAL, actions);
    assert LogOk(cfg, c.db.queue[id], c.logs[id], c.worker.Busy? && c.worker.id == id);
    SpacedSpan(cfg, c.logs[id].times, n);
  }
}
