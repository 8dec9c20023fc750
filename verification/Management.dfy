/**
 What a management request must do, said on the fields of the tables: which settings it leaves, what it cancels,
 when it is refused, and that a deleted device can be monitored again.
 */
module Management {
  import opened JobQueue
  import opened Tables
  import opened Settings
  import opened Protocol
  import opened ProtocolInvariant

  /** The device has the new settings and no other row moved. If it was enabled or deleted differently before, its
      waiting and running jobs are CANCELLED and its flags off; otherwise jobs and states are as they were. */
  ghost predicate SettingsChanged(db: Db, db': Db, d: string, row: Device)
    requires d in db.devices
  {
    && db'.devices == db.devices[d := row]
    && |db'.queue| == |db.queue|
    && if db.devices[d].enabled == row.enabled && db.devices[d].deleted == row.deleted
       then db'.queue == db.queue && db'.states == db.states
       else
         && (forall i {:trigger db'.queue[i]} :: 0 <= i < |db.queue| ==>
               var job := db.queue[i];
               db'.queue[i]
               == if job.hb.device == d && job.status != Sent && job.status != Dead
                  then job.(status := Cancelled) else job)
         && db'.states
            == if d in db.states then db.states[d := db.states[d].(stale := false, alert := false)] else db.states
  }

  /** The reply and the tables after a request: unknown devices are not found, deleted ones refuse to be enabled or
      disabled, and only deleted ones can be restored; a refused request changes nothing. */
  ghost predicate Fulfilled(db: Db, r: Request, reply: Reply, db': Db) {
    if r.device !in db.devices then reply == NotFound && db' == db
    else match r
      case Monitoring(d, enabled, reason) =>
        if db.devices[d].deleted then reply == Conflict && db' == db
        else reply == Done && SettingsChanged(db, db', d, Device(enabled, false, reason))
      case Delete(d, reason) =>
        reply == Done && SettingsChanged(db, db', d, Device(false, true, reason))
      case Restore(d) =>
        if db.devices[d].deleted
        then reply == Done && SettingsChanged(db, db', d, Device(false, false, "Restored by API"))
        else reply == Conflict && db' == db
  }

  lemma ManagedChanges(db: Db, d: string, row: Device)
    requires d in db.devices
    ensures SettingsChanged(db, Managed(db, d, row.enabled, row.deleted, row.reason), d, row)
  {
    assert Device(row.enabled, row.deleted, row.reason) == row;
    assert db.devices[d] == row ==> db.devices == db.devices[d := row];
  }

  /** Every request is answered and carried out as it should be. */
  lemma ServedFulfils(db: Db, r: Request)
    ensures Fulfilled(db, r, Answer(db, r), Served(db, r))
  {
    if r.device in db.devices {
      match r
      case Monitoring(d, enabled, reason) => ManagedChanges(db, d, Device(enabled, false, reason));
      case Delete(d, reason) => ManagedChanges(db, d, Device(false, true, reason));
      case Restore(d) => ManagedChanges(db, d, Device(false, false, "Restored by API"));
    }
  }

  /** A request waits exactly for a send to its device, and is carried out otherwise. */
  lemma RequestsAreCarriedOut(cfg: Config, c: Core, r: Request)
    ensures var c', w := Step(cfg, c, Manage(r)), c.worker;
            if w.Busy? && (w.phase == Delivering || w.phase == Delivered) && JobDevice(c, w.id) == r.device
            then c' == c
            else Fulfilled(c.db, r, Answer(c.db, r), c'.db) && c'.worker == w && c'.up == c.up && c'.logs == c.logs
  {
    ServedFulfils(c.db, r);
  }

  /** In every reachable state, whatever is being sent, a deleted device is monitored again after a restore and a
      request to enable it; nothing else in the tables moves. */
  lemma DeletedCanBeMonitoredAgain(cfg: Config, actions: seq<Action>, d: string, reason: string)
    requires ValidConfig(cfg)
    requires var c := Run(cfg, INITIAL, actions); d in c.db.devices && c.db.devices[d].deleted
    ensures var c := Run(cfg, INITIAL, actions);
            Run(cfg, c, [Manage(Restore(d)), Manage(Monitoring(d, true, reason))]).db
            == c.db.(devices := c.db.devices[d := Device(true, false, reason)])
  {
    var c := Run(cfg, INITIAL, actions);
    var restore, enable := Manage(Restore(d)), Manage(Monitoring(d, true, reason));
    var c1 := Step(cfg, c, restore);
    Reachable(cfg, actions);
    NothingToCancel(cfg, c, Restore(d), Device(false, false, "Restored by API"));
    StepKeeps(cfg, c, restore);
    NothingToCancel(cfg, c1, Monitoring(d, true, reason), Device(true, false, reason));
    assert [restore, enable][1..] == [enable] && [enable][1..] == [];
    assert Run(cfg, c1, [enable]) == Run(cfg, Step(cfg, c1, enable), []) == Step(cfg, c1, enable);
  }

  /** A request on a device that is not monitored meets no lock and finds no live job and no flag. */
  lemma NothingToCancel(cfg: Config, c: Core, r: Request, row: Device)
    requires Inv(cfg, c) && r.device in c.db.devices && !Monitored(c.db, r.device)
    requires (r.Restore? && c.db.devices[r.device].deleted && row == Device(false, false, "Restored by API"))
          || (r.Monitoring? && !c.db.devices[r.device].deleted && row == Device(r.enabled, false, r.reason))
    ensures Step(cfg, c, Manage(r)).db == c.db.(devices := c.db.devices[r.device := row])
  {
    var d, db' := r.device, Step(cfg, c, Manage(r)).db;
    assert !Locked(c, d);
    ServedFulfils(c.db, r);
    assert SettingsChanged(c.db, db', d, row);
    forall i | 0 <= i < |c.db.queue| ensures db'.queue[i] == c.db.queue[i] {
      if c.db.queue[i].hb.device == d {
        assert !c.db.queue[i].Live();
      }
    }
    assert db'.queue == c.db.queue;
  }
}
