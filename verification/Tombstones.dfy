/** Deletion holds until a restore, and monitoring resumes only by an explicit request. */
module Tombstones {
  import opened JobQueue
  import opened Tables
  import opened TableInvariants
  import opened Settings
  import opened Protocol
  import opened ProtocolInvariant
  import opened Delivery
  import opened Flags

  /** Nothing about the device moved: its row, its stored heartbeat, and how many jobs it has. */
  ghost predicate Untouched(db: Db, db': Db, d: string) {
    && Lookup(db'.states, d) == Lookup(db.states, d)
    && JobsOf(db'.queue, d) == JobsOf(db.queue, d)
  }

  function JobsOf(q: seq<Job>, d: string): nat {
    if q == [] then 0 else JobsOf(q[..|q| - 1], d) + (if q[|q| - 1].hb.device == d then 1 else 0)
  }

  lemma {:induction false} SameJobs(q: seq<Job>, q': seq<Job>, d: string)
    requires |q| <= |q'|
    requires forall i :: 0 <= i < |q| ==> q'[i].hb == q[i].hb
    requires forall i :: |q| <= i < |q'| ==> q'[i].hb.device != d
    ensures JobsOf(q', d) == JobsOf(q, d)
    decreases |q'|
  {
    if |q'| > |q| {
      SameJobs(q, q'[..|q'| - 1], d);
    } else if q != [] {
      SameJobs(q[..|q| - 1], q'[..|q'| - 1], d);
    }
  }

  /** The consumer queues nothing for a device that is not monitored. */
  lemma AppendedJobsAreMonitored(c: Core, db': Db, d: string)
    requires TablesOk(db') && Grew(c.db, db') && d in c.db.devices && !Monitored(c.db, d)
    ensures JobsOf(db'.queue, d) == JobsOf(c.db.queue, d)
  {
    forall i | 0 <= i < |c.db.queue| ensures db'.queue[i].hb == c.db.queue[i].hb {
      assert db'.queue[..|c.db.queue|] == c.db.queue;
    }
    forall i | |c.db.queue| <= i < |db'.queue| ensures db'.queue[i].hb.device != d {
      assert db'.queue[i].Live();
    }
    SameJobs(c.db.queue, db'.queue, d);
  }

  lemma {:induction false} ScanSkipsDeleted(db: Db, order: seq<string>, now: real, threshold: real, mes: set<string>,
                                            d: string)
    requires TablesOk(db) && Deleted(db, d)
    ensures Lookup(Scanned(db, order, now, threshold, mes).states, d) == Lookup(db.states, d)
    decreases |order|
  {
    if order != [] {
      var db1 := ScannedOne(db, order[0], now, threshold, mes);
      ScannedOneKeeps(db, order[0], now, threshold, mes);
      assert Lookup(db1.states, d) == Lookup(db.states, d);
      ScanSkipsDeleted(db1, order[1..], now, threshold, mes, d);
    }
  }

  lemma ServedLeavesOthers(db: Db, r: Request, d: string)
    requires d in db.devices && Deleted(db, d) && !Monitored(db, d) && TablesOk(db)
    requires r != Restore(d)
    ensures Deleted(Served(db, r), d) && Untouched(db, Served(db, r), d)
  {
    ServedKeeps(db, r);
    var q, q' := db.queue, Served(db, r).queue;
    forall i | 0 <= i < |q| ensures q'[i].hb == q[i].hb {
      assert Evolves(q[i], q'[i]);
    }
    SameJobs(q, q', d);
  }

  lemma WorkerKeepsTombstone(cfg: Config, c: Core, a: Action, d: string)
    requires Deleted(c.db, d) && !a.Beat? && !a.StaleScan? && !a.Manage?
    ensures Deleted(Step(cfg, c, a).db, d) && Untouched(c.db, Step(cfg, c, a).db, d)
  {
    var c' := Step(cfg, c, a);
    WorkerStepFrame(cfg, c, a);
    forall i | 0 <= i < |c.db.queue| ensures c'.db.queue[i].hb == c.db.queue[i].hb {
      assert Evolves(c.db.queue[i], c'.db.queue[i]);
    }
    SameJobs(c.db.queue, c'.db.queue, d);
  }

  /** While a device is deleted, every step but its own restore leaves it deleted and untouched. */
  lemma StepKeepsTombstone(cfg: Config, c: Core, a: Action, d: string)
    requires ValidConfig(cfg) && Inv(cfg, c) && Deleted(c.db, d)
    requires a != Manage(Restore(d))
    ensures Deleted(Step(cfg, c, a).db, d) && Untouched(c.db, Step(cfg, c, a).db, d)
  {
    match a
    case Beat(hb, now, m1, m2, _) =>
      ConsumerGrows(cfg, c, a);
      StepKeeps(cfg, c, a);
      AppendedJobsAreMonitored(c, Step(cfg, c, a).db, d);
      BeatStates(c.db, hb, now, m1, m2);
    case StaleScan(order, now, mes, _) =>
      ConsumerGrows(cfg, c, a);
      StepKeeps(cfg, c, a);
      AppendedJobsAreMonitored(c, Step(cfg, c, a).db, d);
      ScanSkipsDeleted(c.db, order, now, cfg.staleAfter, mes, d);
      ScanMatchesTables(c.db, Loaded(c.db), order, now, cfg.staleAfter, mes);
    case Manage(r) => ServedLeavesOthers(c.db, r, d);
    case _ => WorkerKeepsTombstone(cfg, c, a, d);
  }

  lemma {:induction false} RunKeepsTombstone(cfg: Config, c: Core, actions: seq<Action>, d: string)
    requires ValidConfig(cfg) && Inv(cfg, c) && Deleted(c.db, d)
    requires Manage(Restore(d)) !in actions
    ensures Deleted(Run(cfg, c, actions).db, d) && Untouched(c.db, Run(cfg, c, actions).db, d)
    decreases |actions|
  {
    if actions != [] {
      assert actions[0] in actions;
      StepKeeps(cfg, c, actions[0]);
      StepKeepsTombstone(cfg, c, actions[0], d);
      RunKeepsTombstone(cfg, Step(cfg, c, actions[0]), actions[1..], d);
    }
  }

  /** From a delete to the next restore nothing changes the stored heartbeat and last-seen time, queues
      anything for the device, or makes it active, whatever else happens. */
  lemma TombstoneHolds(cfg: Config, before: seq<Action>, after: seq<Action>, d: string)
    requires ValidConfig(cfg) && Deleted(Run(cfg, INITIAL, before).db, d)
    requires Manage(Restore(d)) !in after
    ensures var db, db' := Run(cfg, INITIAL, before).db, Run(cfg, INITIAL, before + after).db;
            Deleted(db', d) && !Monitored(db', d) && Untouched(db, db', d)
  {
    Reachable(cfg, before);
    RunSplits(cfg, INITIAL, before, after);
    RunKeepsTombstone(cfg, Run(cfg, INITIAL, before), after, d);
  }

  /** No reachable device is both deleted and enabled. */
  lemma NeverDeletedAndEnabled(cfg: Config, actions: seq<Action>, d: string)
    requires ValidConfig(cfg) && d in Run(cfg, INITIAL, actions).db.devices
    ensures var row := Run(cfg, INITIAL, actions).db.devices[d]; !(row.deleted && row.enabled)
  {
    Reachable(cfg, actions);
  }

  lemma ServedActivates(db: Db, r: Request, d: string)
    requires d in db.devices && !Monitored(db, d)
    ensures d in Served(db, r).devices
    ensures Monitored(Served(db, r), d) ==> r.Monitoring? && r.device == d && r.enabled && !Deleted(db, d)
  {
  }

  lemma StepActivates(cfg: Config, c: Core, a: Action, d: string)
    requires Inv(cfg, c) && d in c.db.devices && !Monitored(c.db, d)
    ensures d in Step(cfg, c, a).db.devices
    ensures Monitored(Step(cfg, c, a).db, d) ==>
              a.Manage? && a.request.Monitoring? && a.request.device == d && a.request.enabled && !Deleted(c.db, d)
  {
    match a
    case Beat(_, _, _, _, _) => ConsumerGrows(cfg, c, a);
    case StaleScan(_, _, _, _) => ConsumerGrows(cfg, c, a);
    case Manage(r) => ServedActivates(c.db, r, d);
    case _ => WorkerStepFrame(cfg, c, a);
  }

  /** An inactive device becomes active again only by an enable request made while it is not deleted. */
  lemma {:induction false} EnabledExplicitly(cfg: Config, c: Core, actions: seq<Action>, d: string) returns (j: nat)
    requires ValidConfig(cfg) && Inv(cfg, c) && d in c.db.devices && !Monitored(c.db, d)
    requires Monitored(Run(cfg, c, actions).db, d)
    ensures j < |actions| && actions[j].Manage? && actions[j].request.Monitoring?
    ensures actions[j].request.device == d && actions[j].request.enabled
    ensures !Deleted(Run(cfg, c, actions[..j]).db, d)
    decreases |actions|
  {
    var c1 := Step(cfg, c, actions[0]);
    StepKeeps(cfg, c, actions[0]);
    StepActivates(cfg, c, actions[0], d);
    if Monitored(c1.db, d) {
      j := 0;
    } else {
      var k := EnabledExplicitly(cfg, c1, actions[1..], d);
      j := k + 1;
      assert actions[..j][1..] == actions[1..][..k];
    }
  }

  /** A deleted device that is active later was restored first and explicitly enabled after that. */
  lemma RestoredThenEnabled(cfg: Config, before: seq<Action>, after: seq<Action>, d: string) returns (i: nat, j: nat)
    requires ValidConfig(cfg) && Deleted(Run(cfg, INITIAL, before).db, d)
    requires Monitored(Run(cfg, INITIAL, before + after).db, d)
    ensures i < j < |after| && after[i] == Manage(Restore(d))
    ensures after[j].Manage? && after[j].request.Monitoring?
    ensures after[j].request.device == d && after[j].request.enabled
  {
    var c := Run(cfg, INITIAL, before);
    Reachable(cfg, before);
    RunSplits(cfg, INITIAL, before, after);
    j := EnabledExplicitly(cfg, c, after, d);
    if Manage(Restore(d)) !in after[..j] {
      RunKeepsTombstone(cfg, c, after[..j], d);
      assert false;
    }
    i :| 0 <= i < j && after[..j][i] == Manage(Restore(d));
  }
}
