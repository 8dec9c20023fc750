/**
 The PostgreSQL repository in the source's own form: an object per connection owner over the shared
 tables, whose methods run statements inside a transaction that nested calls join. Each method is
 proved against the function of the tables that the protocol uses.
 */
module Postgres {
  import opened Heartbeats
  import opened JobQueue
  import opened Tables
  import opened Protocol
  import opened Management

  class Database {
    var devices: map<string, Device>
    var states: map<string, StateRow>
    var queue: seq<Job>

    function Tables(): Db
      reads this
    {
      Db(devices, states, queue)
    }

    /** A stored row holds a heartbeat of its own device. */
    ghost predicate Valid()
      reads this
    {
      forall d :: d in states ==> states[d].hb.device == d
    }

    constructor ()
      ensures Valid() && Tables() == EMPTY_DB
    {
      devices, states, queue := map[], map[], [];
    }
  }

  /** What the worker keeps of the row it claimed. */
  datatype NotificationJob = NotificationJob(id: nat, hb: Heartbeat, kind: Kind, attempts: nat)

  class PostgresRepository {
    const db: Database
    /** A transaction is open, and what the tables return to if it is rolled back. */
    var current: bool
    var before: Db
    /** The devices whose advisory locks the open transaction holds. */
    var held: set<string>

    constructor (db: Database)
      ensures this.db == db && !current && held == {}
    {
      this.db := db;
      current := false;
      before := EMPTY_DB;
      held := {};
    }

    // ----- transactions -----

    /** A call inside an open transaction joins it. */
    method Begin() returns (outermost: bool)
      modifies this
      ensures outermost == !old(current) && current
      ensures before == if outermost then db.Tables() else old(before)
      ensures held == if outermost then {} else old(held)
    {
      outermost := !current;
      if outermost {
        current, before, held := true, db.Tables(), {};
      }
    }

    /** Only the outermost block commits or rolls back; a commit may fail, applied or not. */
    method Commit(outermost: bool, outcome: Outcome) returns (raised: bool)
      requires current
      modifies this, db
      ensures before == old(before) && current == !outermost
      ensures held == if outermost then {} else old(held)
      ensures raised == (outermost && outcome.Broken?)
      ensures db.Tables() == if outermost && outcome == Broken(false) then old(before) else old(db.Tables())
    {
      raised := outermost && outcome.Broken?;
      if outermost && outcome == Broken(false) {
        RollBack(outermost);
      } else if outermost {
        current, held := false, {};
      }
    }

    method RollBack(outermost: bool)
      requires current
      modifies this, db
      ensures before == old(before) && current == !outermost
      ensures held == if outermost then {} else old(held)
      ensures db.Tables() == if outermost then old(before) else old(db.Tables())
    {
      if outermost {
        db.devices, db.states, db.queue := before.devices, before.states, before.queue;
        current, held := false, {};
      }
    }

    /** Refused outside a transaction, where the lock would be gone at once. Inside one, the lock joins those
        held to the end of the outermost block, whichever nested call asked for it. */
    method LockManagement(device: string) returns (ok: bool)
      modifies this`held
      ensures ok <==> current
      ensures ok ==> device in held && old(held) <= held <= old(held) + {device}
      ensures !ok ==> held == old(held)
    {
      ok := current;
      if ok {
        held := held + {device};
      }
    }

    // ----- the consumer's statements -----

    method MonitoringAllowed(device: string) returns (allowed: bool)
      modifies this, db
      ensures current == old(current) && (current ==> before == old(before))
      ensures held == if current then old(held) else {}
      ensures db.Tables() == Registered(old(db.Tables()), device)
      ensures allowed == Monitored(db.Tables(), device)
      ensures db.devices == if device in old(db.devices) then old(db.devices)
                            else old(db.devices)[device := Device(true, false, "")]
      ensures allowed == (db.devices[device].enabled && !db.devices[device].deleted)
    {
      var outermost := Begin();
      if device !in db.devices {
        db.devices := db.devices[device := NEW_DEVICE];
      }
      var row := db.devices[device];
      allowed := row.enabled && !row.deleted;
      var _ := Commit(outermost, Clean);
    }

    /** Every stored row of a device that is registered and not deleted, once each. */
    method LoadAll() returns (rows: seq<StateRow>)
      requires db.Valid()
      modifies this, db
      ensures current == old(current) && (current ==> before == old(before))
      ensures held == if current then old(held) else {}
      ensures db.Valid() && db.Tables() == old(db.Tables())
      ensures forall i, j :: 0 <= i < j < |rows| ==> rows[i].hb.device != rows[j].hb.device
      ensures forall row :: row in rows <==> Lookup(Loaded(db.Tables()), row.hb.device) == Some(row)
      ensures forall row :: row in rows <==>
                var d := row.hb.device;
                d in db.states && db.states[d] == row && d in db.devices && !db.devices[d].deleted
    {
      var outermost := Begin();
      rows := [];
      var left := db.states.Keys;
      while left != {}
        invariant left <= db.states.Keys
        invariant forall i, j :: 0 <= i < j < |rows| ==> rows[i].hb.device != rows[j].hb.device
        invariant forall row :: row in rows <==>
                    Lookup(Loaded(db.Tables()), row.hb.device) == Some(row) && row.hb.device !in left
        decreases |left|
      {
        var d :| d in left;
        if d in db.devices && !db.devices[d].deleted {
          assert forall i :: 0 <= i < |rows| ==> rows[i] in rows;
          rows := rows + [db.states[d]];
        }
        left := left - {d};
      }
      var _ := Commit(outermost, Clean);
    }

    method Save(hb: Heartbeat, lastSeen: real, stale: bool, alert: bool)
      requires db.Valid()
      modifies this, db
      ensures current == old(current) && (current ==> before == old(before))
      ensures held == if current then old(held) else {}
      ensures db.Valid() && db.Tables() == Saved(old(db.Tables()), hb, lastSeen, stale, alert)
      ensures hb.device in db.devices && db.queue == old(db.queue)
      ensures var row := db.devices[hb.device];
              db.states == if row.deleted then old(db.states)
                           else old(db.states)[hb.device := StateRow(hb, lastSeen, stale && row.enabled,
                                                                     alert && row.enabled)]
    {
      var outermost := Begin();
      var active := MonitoringAllowed(hb.device);
      if !db.devices[hb.device].deleted {
        db.states := db.states[hb.device := StateRow(hb, lastSeen, stale && active, alert && active)];
      }
      var _ := Commit(outermost, Clean);
    }

    method MarkStale(device: string)
      requires db.Valid()
      modifies this, db
      ensures current == old(current) && (current ==> before == old(before))
      ensures held == if current then old(held) else {}
      ensures db.Valid() && db.Tables() == StaleMarked(old(db.Tables()), device)
      ensures device in db.devices && db.queue == old(db.queue)
      ensures db.states == if device in old(db.states) && db.devices[device].enabled && !db.devices[device].deleted
                           then old(db.states)[device := old(db.states)[device].(stale := true)] else old(db.states)
    {
      var outermost := Begin();
      var allowed := MonitoringAllowed(device);
      if allowed && device in db.states {
        db.states := db.states[device := db.states[device].(stale := true)];
      }
      var _ := Commit(outermost, Clean);
    }

    method MarkStatusAlert(device: string, notified: bool)
      requires db.Valid()
      modifies this, db
      ensures current == old(current) && (current ==> before == old(before))
      ensures held == if current then old(held) else {}
      ensures db.Valid() && db.Tables() == StatusAlertMarked(old(db.Tables()), device, notified)
      ensures device in db.devices && db.queue == old(db.queue)
      ensures var on := db.devices[device].enabled && !db.devices[device].deleted;
              db.states == if device in old(db.states)
                           then old(db.states)[device := old(db.states)[device].(alert := notified && on)]
                           else old(db.states)
    {
      var outermost := Begin();
      var active := MonitoringAllowed(device);
      if device in db.states {
        db.states := db.states[device := db.states[device].(alert := notified && active)];
      }
      var _ := Commit(outermost, Clean);
    }

    /** The answer is whether a row was inserted, not whether the notification is wanted. */
    method Enqueue(hb: Heartbeat, kind: Kind, now: real) returns (added: bool)
      modifies this, db
      ensures current == old(current) && (current ==> before == old(before))
      ensures held == if current then old(held) else {}
      ensures db.Tables() == Enqueued(old(db.Tables()), hb, kind, now)
      ensures hb.device in db.devices
      ensures added <==>
                && db.devices[hb.device].enabled && !db.devices[hb.device].deleted
                && forall i {:trigger old(db.queue)[i]} :: 0 <= i < |old(db.queue)| ==>
                     var job := old(db.queue)[i];
                     job.key == QueueKey(hb, kind) ==>
                       job.status != Pending && job.status != Retry && job.status != Sending
      ensures db.queue == if added then old(db.queue) + [Job(QueueKey(hb, kind), kind, hb, Pending, 0, now)]
                          else old(db.queue)
    {
      var key := hb.device + ":" + KindText(kind);
      if kind != Missing {
        key := key + (":" + LevelText(hb.level) + ":" + hb.code);
      }
      var outermost := Begin();
      added := false;
      var allowed := MonitoringAllowed(hb.device);
      if allowed && !HasLive(db.queue, key) {
        db.queue := db.queue + [Job(key, kind, hb, Pending, 0, now)];
        added := true;
      }
      var _ := Commit(outermost, Clean);
    }

    // ----- the worker's statements -----

    method RecoverJobs(now: real)
      modifies this, db
      ensures current == old(current) && (current ==> before == old(before))
      ensures held == if current then old(held) else {}
      ensures db.Tables() == old(db.Tables()).(queue := Recovered(old(db.queue), now))
      ensures |db.queue| == |old(db.queue)|
      ensures forall i :: 0 <= i < |db.queue| ==>
                if old(db.queue)[i].status == Sending
                then db.queue[i] == old(db.queue)[i].(status := Retry, nextAt := now)
                else db.queue[i] == old(db.queue)[i]
    {
      var outermost := Begin();
      db.queue := Recovered(db.queue, now);
      var _ := Commit(outermost, Clean);
    }

    method ClaimNext(now: real, skipped: set<nat>, commit: Outcome) returns (job: Option<NotificationJob>, raised: bool)
      requires !current
      modifies this, db
      ensures !current && held == {}
      ensures var due := FirstDue(old(db.queue), now, skipped);
              && raised == (due.Some? && commit.Broken?)
              && (job.Some? <==> due.Some? && !raised)
              && (job.Some? ==>
                    var row := old(db.queue)[due.value];
                    job.value == NotificationJob(due.value, row.hb, row.kind, row.attempts))
              && db.Tables() == if due.None? || commit == Broken(false) then old(db.Tables())
                                else old(db.Tables()).(queue := Claimed(old(db.queue), due.value))
      ensures job.Some? ==>
                && job.value.id < |old(db.queue)| && job.value.id !in skipped
                && var row := old(db.queue)[job.value.id];
                && (row.status == Pending || row.status == Retry) && row.nextAt <= now
                && db.queue == old(db.queue)[job.value.id := row.(status := Sending)]
      ensures job.None? && !raised ==> db.queue == old(db.queue)
      ensures !raised ==>
                var end := if job.Some? then job.value.id else |old(db.queue)|;
                forall k {:trigger old(db.queue)[k]} :: 0 <= k < end ==>
                  var row := old(db.queue)[k];
                  k in skipped || (row.status != Pending && row.status != Retry) || row.nextAt > now
    {
      var outermost := Begin();
      var due := FirstDue(db.queue, now, skipped);
      if due.None? {
        raised := Commit(outermost, Clean);
        return None, false;
      }
      var row := db.queue[due.value];
      db.queue := db.queue[due.value := row.(status := Sending)];
      raised := Commit(outermost, commit);
      job := if raised then None else Some(NotificationJob(due.value, row.hb, row.kind, row.attempts));
    }

    /** Entering leaves the transaction open: it ends when the caller leaves the guard. */
    method EnterGuard(job: NotificationJob) returns (allowed: bool)
      requires !current && job.id < |db.queue| && db.queue[job.id].hb == job.hb
      modifies this, db
      ensures current && before == old(db.Tables()) && job.hb.device in held
      ensures allowed == Allowed(old(db.Tables()), job.id)
      ensures var d := job.hb.device;
              allowed == (d in old(db.devices) && old(db.devices)[d].enabled && !old(db.devices)[d].deleted
                          && old(db.queue)[job.id].status == Sending)
      ensures db.Tables() == if allowed then old(db.Tables())
                             else old(db.Tables()).(queue := MarkedCancelled(old(db.queue), job.id))
      ensures var row := old(db.queue)[job.id];
              db.queue == if !allowed && row.status == Sending
                          then old(db.queue)[job.id := row.(status := Cancelled)] else old(db.queue)
    {
      var _ := Begin();
      var _ := LockManagement(job.hb.device);
      var d := job.hb.device;
      var active := d in db.devices && db.devices[d].enabled && !db.devices[d].deleted;
      var row := db.queue[job.id];
      allowed := active && row.status == Sending;
      if !allowed && row.status == Sending {
        db.queue := db.queue[job.id := row.(status := Cancelled)];
      }
    }

    method MarkSent(id: nat)
      modifies this, db
      ensures current == old(current) && (current ==> before == old(before))
      ensures held == if current then old(held) else {}
      ensures db.Tables() == old(db.Tables()).(queue := MarkedSent(old(db.queue), id))
      ensures id < |old(db.queue)| && old(db.queue)[id].status == Sending ==>
                db.queue == old(db.queue)[id := old(db.queue)[id].(status := Sent)]
    {
      var outermost := Begin();
      if id < |db.queue| && db.queue[id].status == Sending {
        db.queue := db.queue[id := db.queue[id].(status := Sent)];
      }
      var _ := Commit(outermost, Clean);
    }

    method MarkFailed(id: nat, nextAt: real, dead: bool, commit: Outcome) returns (raised: bool)
      requires !current
      modifies this, db
      ensures !current && held == {} && raised == commit.Broken?
      ensures db.Tables() == if commit == Broken(false) then old(db.Tables())
                             else old(db.Tables()).(queue := MarkedFailed(old(db.queue), id, nextAt, dead))
      ensures commit != Broken(false) && id < |old(db.queue)| && old(db.queue)[id].status == Sending ==>
                var row := old(db.queue)[id];
                db.queue == old(db.queue)[id := row.(status := if dead then Dead else Retry,
                                                     attempts := row.attempts + 1, nextAt := nextAt)]
    {
      var outermost := Begin();
      if id < |db.queue| && db.queue[id].status == Sending {
        var row := db.queue[id];
        db.queue := db.queue[id := row.(status := if dead then Dead else Retry, attempts := row.attempts + 1,
                                        nextAt := nextAt)];
      }
      raised := Commit(outermost, commit);
    }

    // ----- management -----

    /** Not found stands for the KeyError. Callers hold a transaction open already or get their own. */
    method Manage(device: string, enabled: bool, deleted: bool, reason: string) returns (found: bool)
      requires db.Valid()
      modifies this, db
      ensures current == old(current) && (current ==> before == old(before))
      ensures held == if current then old(held) + {device} else {}
      ensures found == (device in old(db.devices)) && db.Valid()
      ensures db.Tables() == if found then Managed(old(db.Tables()), device, enabled, deleted, reason)
                             else old(db.Tables())
      ensures found ==> SettingsChanged(old(db.Tables()), db.Tables(), device, Device(enabled, deleted, reason))
    {
      var outermost := Begin();
      var _ := LockManagement(device);
      if device !in db.devices {
        RollBack(outermost);
        return false;
      }
      ManagedChanges(db.Tables(), device, Device(enabled, deleted, reason));
      found := true;
      var row := db.devices[device];
      if row.enabled == enabled && row.deleted == deleted && row.reason == reason {
        var _ := Commit(outermost, Clean);
        return;
      }
      db.devices := db.devices[device := Device(enabled, deleted, reason)];
      if row.enabled != enabled || row.deleted != deleted {
        db.queue := DeviceCancelled(db.queue, device);
        db.states := FlagsCleared(db.states, device);
      }
      var _ := Commit(outermost, Clean);
    }
  }
}
