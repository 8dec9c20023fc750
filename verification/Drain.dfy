/** Without new notifications the worker runs out of work: every completed call uses up a unit of a measure. */
module Drain {
  import opened JobQueue
  import opened Tables
  import opened TableInvariants
  import opened Settings
  import opened Protocol
  import opened ProtocolInvariant
  import opened Delivery

  /** The attempts a job has left. */
  function Left(cfg: Config, job: Job): int {
    if job.Live() then cfg.maxAttempts - job.attempts else 0
  }

  function Measure(cfg: Config, q: seq<Job>): int {
    if q == [] then 0 else Measure(cfg, q[..|q| - 1]) + Left(cfg, q[|q| - 1])
  }

  /** What n new jobs add: the maximal number of attempts each. */
  function Budget(cfg: Config, n: int): nat
    decreases n
  {
    if n <= 0 then 0 else Budget(cfg, n - 1) + cfg.maxAttempts
  }

  lemma {:induction false} BudgetAdds(cfg: Config, m: nat, n: nat)
    ensures Budget(cfg, m + n) == Budget(cfg, m) + Budget(cfg, n)
    decreases n
  {
    if n > 0 {
      BudgetAdds(cfg, m, n - 1);
    }
  }

  lemma {:induction false} BudgetIsProduct(cfg: Config, n: nat)
    ensures Budget(cfg, n) == n * cfg.maxAttempts
    decreases n
  {
    if n > 0 {
      BudgetIsProduct(cfg, n - 1);
      assert n * cfg.maxAttempts == (n - 1) * cfg.maxAttempts + cfg.maxAttempts;
    }
  }

  ghost predicate WithinLimit(cfg: Config, q: seq<Job>) {
    forall i {:trigger q[i]} :: 0 <= i < |q| ==> q[i].attempts <= cfg.maxAttempts
  }

  lemma InvWithinLimit(cfg: Config, c: Core)
    requires Inv(cfg, c)
    ensures WithinLimit(cfg, c.db.queue)
  {
    forall i | 0 <= i < |c.db.queue| ensures c.db.queue[i].attempts <= cfg.maxAttempts {
      assert LogOk(cfg, c.db.queue[i], c.logs[i], c.worker.Busy? && c.worker.id == i);
    }
  }

  /** Jobs that only evolve cannot raise the measure, and a drop at one job is a drop of the sum. */
  lemma {:induction false} EvolvingLowers(cfg: Config, q: seq<Job>, q': seq<Job>, id: nat)
    requires |q| == |q'| && Moved(q, q') && WithinLimit(cfg, q)
    ensures Measure(cfg, q') <= Measure(cfg, q)
    ensures id < |q| ==> Measure(cfg, q') + Left(cfg, q[id]) - Left(cfg, q'[id]) <= Measure(cfg, q)
    decreases |q|
  {
    if q != [] {
      var n := |q| - 1;
      assert Evolves(q[n], q'[n]);
      EvolvingLowers(cfg, q[..n], q'[..n], id);
    }
  }

  /** Appending fresh jobs raises the measure by the maximum for each. */
  lemma {:induction false} AppendingRaises(cfg: Config, q: seq<Job>, q': seq<Job>)
    requires q <= q'
    requires forall i :: |q| <= i < |q'| ==> q'[i].status == Pending && q'[i].attempts == 0
    ensures Measure(cfg, q') == Measure(cfg, q) + Budget(cfg, |q'| - |q|)
    decreases |q'|
  {
    if |q| == |q'| {
      assert q == q';
    } else {
      var n := |q'| - 1;
      AppendingRaises(cfg, q, q'[..n]);
    }
  }

  /** A job that stopped being live while the worker holds it still owes the worker one True. */
  function Owed(c: Core): int {
    if c.worker.Busy? && c.worker.id < |c.db.queue| && !c.db.queue[c.worker.id].Live() then 1 else 0
  }

  function Level(cfg: Config, c: Core): int {
    Measure(cfg, c.db.queue) + c.completed + Owed(c)
  }

  /** The level rose by no more than the budget of the jobs queued in between. */
  ghost predicate Bounded(cfg: Config, c: Core, c': Core) {
    && |c'.db.queue| >= |c.db.queue|
    && Level(cfg, c') <= Level(cfg, c) + Budget(cfg, |c'.db.queue| - |c.db.queue|)
  }

  lemma BoundedTransitive(cfg: Config, a: Core, b: Core, c: Core)
    requires Bounded(cfg, a, b) && Bounded(cfg, b, c)
    ensures Bounded(cfg, a, c)
  {
    BudgetAdds(cfg, |b.db.queue| - |a.db.queue|, |c.db.queue| - |b.db.queue|);
  }

  lemma ConsumerLevel(cfg: Config, c: Core, a: Action)
    requires ValidConfig(cfg) && Inv(cfg, c) && (a.Beat? || a.StaleScan?)
    ensures Bounded(cfg, c, Step(cfg, c, a))
  {
    ConsumerGrows(cfg, c, a);
    GrowthIsBudgeted(cfg, c, Step(cfg, c, a));
  }

  lemma GrowthIsBudgeted(cfg: Config, c: Core, c': Core)
    requires Grew(c.db, c'.db) && c'.completed == c.completed && Owed(c') == Owed(c)
    ensures Bounded(cfg, c, c')
  {
    AppendingRaises(cfg, c.db.queue, c'.db.queue);
  }

  /** The held job's attempts, the completed calls and what is owed do not grow together. */
  predicate Pays(cfg: Config, c: Core, c': Core) {
    && c.worker.Busy? && c.worker.id < |c.db.queue| && |c'.db.queue| == |c.db.queue|
    && Left(cfg, c'.db.queue[c.worker.id]) + c'.completed + Owed(c')
       <= Left(cfg, c.db.queue[c.worker.id]) + c.completed + Owed(c)
  }

  /** What the worker's step does to the job it holds. */
  lemma HeldJobPays(cfg: Config, c: Core, a: Action)
    requires ValidConfig(cfg) && Inv(cfg, c) && c.worker.Busy?
    requires a.EnterGuard? || a.CommitSent? || a.CommitFailure?
    ensures Pays(cfg, c, Step(cfg, c, a))
  {
    match a
    case EnterGuard(outcome) =>
    case CommitSent(outcome) =>
    case CommitFailure(outcome) =>
  }

  lemma ManageLevel(cfg: Config, c: Core, r: Request)
    requires ValidConfig(cfg) && Inv(cfg, c)
    ensures |ManageStep(c, r).db.queue| == |c.db.queue| && Level(cfg, ManageStep(c, r)) <= Level(cfg, c)
  {
    ServedKeeps(c.db, r);
    InvWithinLimit(cfg, c);
    EvolvingLowers(cfg, c.db.queue, ManageStep(c, r).db.queue, if c.worker.Busy? then c.worker.id else 0);
  }

  /** Steps in which the worker returns nothing: it may only start owing for a job that ended. */
  lemma SilentStep(cfg: Config, c: Core, a: Action)
    requires Inv(cfg, c) && !a.Beat? && !a.StaleScan? && !a.Manage?
    requires c.worker.Idle? || !(a.EnterGuard? || a.CommitSent? || a.CommitFailure?)
    ensures Step(cfg, c, a).completed == c.completed && Owed(Step(cfg, c, a)) <= Owed(c)
  {
  }

  lemma WorkerLevel(cfg: Config, c: Core, a: Action)
    requires ValidConfig(cfg) && Inv(cfg, c) && !a.Beat? && !a.StaleScan? && !a.Manage?
    ensures |Step(cfg, c, a).db.queue| == |c.db.queue| && Level(cfg, Step(cfg, c, a)) <= Level(cfg, c)
  {
    WorkerStepFrame(cfg, c, a);
    InvWithinLimit(cfg, c);
    var c' := Step(cfg, c, a);
    var id := if c.worker.Busy? then c.worker.id else 0;
    EvolvingLowers(cfg, c.db.queue, c'.db.queue, id);
    if c.worker.Busy? && (a.EnterGuard? || a.CommitSent? || a.CommitFailure?) {
      HeldJobPays(cfg, c, a);
    } else {
      SilentStep(cfg, c, a);
    }
  }

  /** No step but an enqueue raises the measure plus the completed calls plus what is owed. */
  lemma StepLevel(cfg: Config, c: Core, a: Action)
    requires ValidConfig(cfg) && Inv(cfg, c)
    ensures Bounded(cfg, c, Step(cfg, c, a))
  {
    match a
    case Beat(_, _, _, _, _) => ConsumerLevel(cfg, c, a);
    case StaleScan(_, _, _, _) => ConsumerLevel(cfg, c, a);
    case Manage(r) => ManageLevel(cfg, c, r);
    case _ => WorkerLevel(cfg, c, a);
  }

  /** The queue grew by fresh jobs, or the jobs in it evolved. */
  ghost predicate GrewOrEvolved(q: seq<Job>, q': seq<Job>) {
    || (q <= q' && forall i :: |q| <= i < |q'| ==> q'[i].status == Pending && q'[i].attempts == 0)
    || (|q'| == |q| && Moved(q, q'))
  }

  lemma StepQueue(cfg: Config, c: Core, a: Action)
    requires ValidConfig(cfg) && Inv(cfg, c)
    ensures GrewOrEvolved(c.db.queue, Step(cfg, c, a).db.queue)
    ensures a.Beat? || a.StaleScan? || |Step(cfg, c, a).db.queue| == |c.db.queue|
  {
    if a.Beat? || a.StaleScan? {
      ConsumerGrows(cfg, c, a);
    } else if a.Manage? {
      ServedKeeps(c.db, a.request);
    } else {
      WorkerStepFrame(cfg, c, a);
    }
  }

  /** The measure grew by no more than the maximum for each job queued in between. */
  predicate RaisedByEnqueues(cfg: Config, q: seq<Job>, q': seq<Job>) {
    |q'| >= |q| && Measure(cfg, q') <= Measure(cfg, q) + (|q'| - |q|) * cfg.maxAttempts
  }

  lemma QueueRaises(cfg: Config, q: seq<Job>, q': seq<Job>)
    requires WithinLimit(cfg, q) && GrewOrEvolved(q, q')
    ensures RaisedByEnqueues(cfg, q, q')
  {
    BudgetIsProduct(cfg, |q'| - |q|);
    if |q'| == |q| && Moved(q, q') {
      EvolvingLowers(cfg, q, q', 0);
    } else {
      AppendingRaises(cfg, q, q');
    }
  }

  /** Enqueuing raises the measure by the maximum for each new job, and no other step raises it at all. */
  lemma OnlyEnqueuesRaiseTheMeasure(cfg: Config, c: Core, a: Action)
    requires ValidConfig(cfg) && Inv(cfg, c)
    ensures RaisedByEnqueues(cfg, c.db.queue, Step(cfg, c, a).db.queue)
    ensures a.Beat? || a.StaleScan? || |Step(cfg, c, a).db.queue| == |c.db.queue|
  {
    StepQueue(cfg, c, a);
    InvWithinLimit(cfg, c);
    QueueRaises(cfg, c.db.queue, Step(cfg, c, a).db.queue);
  }

  lemma {:induction false} RunLevel(cfg: Config, c: Core, actions: seq<Action>)
    requires ValidConfig(cfg) && Inv(cfg, c)
    ensures Bounded(cfg, c, Run(cfg, c, actions))
    decreases |actions|
  {
    if actions != [] {
      var c1 := Step(cfg, c, actions[0]);
      StepKeeps(cfg, c, actions[0]);
      StepLevel(cfg, c, actions[0]);
      RunLevel(cfg, c1, actions[1..]);
      BoundedTransitive(cfg, c, c1, Run(cfg, c1, actions[1..]));
    }
  }

  lemma {:induction false} MeasureNonNegative(cfg: Config, q: seq<Job>)
    requires WithinLimit(cfg, q)
    ensures Measure(cfg, q) >= 0
    decreases |q|
  {
    if q != [] {
      MeasureNonNegative(cfg, q[..|q| - 1]);
    }
  }

  /** The calls that returned True between two states are paid for by the fall of the measure and by what was
      queued; where nothing was queued there are at most the measure of them (one more if the call holding a
      cancelled job had started before). */
  predicate PaidFor(cfg: Config, c: Core, c': Core) {
    && |c'.db.queue| >= |c.db.queue|
    && 0 <= Measure(cfg, c'.db.queue)
    && Measure(cfg, c'.db.queue) + (c'.completed - c.completed) + Owed(c')
       <= Measure(cfg, c.db.queue) + Owed(c) + (|c'.db.queue| - |c.db.queue|) * cfg.maxAttempts
    && (|c'.db.queue| == |c.db.queue| ==> c'.completed - c.completed <= Measure(cfg, c.db.queue) + Owed(c))
  }

  lemma BoundedIsPaidFor(cfg: Config, c: Core, c': Core)
    requires Bounded(cfg, c, c') && WithinLimit(cfg, c'.db.queue)
    ensures PaidFor(cfg, c, c')
  {
    MeasureNonNegative(cfg, c'.db.queue);
    BudgetIsProduct(cfg, |c'.db.queue| - |c.db.queue|);
  }

  lemma WindowIsPaidFor(cfg: Config, c: Core, window: seq<Action>)
    requires ValidConfig(cfg) && Inv(cfg, c)
    ensures PaidFor(cfg, c, Run(cfg, c, window))
  {
    RunLevel(cfg, c, window);
    RunKeeps(cfg, c, window);
    InvWithinLimit(cfg, Run(cfg, c, window));
    BoundedIsPaidFor(cfg, c, Run(cfg, c, window));
  }

  /** Every window of every run is paid for, whatever the interleaving. */
  lemma CompletedCallsAreBounded(cfg: Config, before: seq<Action>, window: seq<Action>)
    requires ValidConfig(cfg)
    ensures PaidFor(cfg, Run(cfg, INITIAL, before), Run(cfg, INITIAL, before + window))
  {
    Reachable(cfg, before);
    RunSplits(cfg, INITIAL, before, window);
    WindowIsPaidFor(cfg, Run(cfg, INITIAL, before), window);
  }

  /** One call, from an idle worker to the moment it returned True: the measure is strictly lower than at
      its start plus what was queued meanwhile, whatever management did in between. */
  lemma TrueCallsLowerTheMeasure(cfg: Config, before: seq<Action>, window: seq<Action>)
    requires ValidConfig(cfg) && Run(cfg, INITIAL, before).worker.Idle?
    requires Run(cfg, INITIAL, before + window).completed > Run(cfg, INITIAL, before).completed
    ensures var c, c' := Run(cfg, INITIAL, before), Run(cfg, INITIAL, before + window);
            Measure(cfg, c'.db.queue)
            < Measure(cfg, c.db.queue) + (|c'.db.queue| - |c.db.queue|) * cfg.maxAttempts
  {
    CompletedCallsAreBounded(cfg, before, window);
  }
}
