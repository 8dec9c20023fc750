/**
 What every committed transaction keeps true of the tables: unique live keys, inactive devices
 without live jobs or flags, and no device that is deleted yet enabled.
 */
module TableInvariants {
  import opened Heartbeats
  import opened JobQueue
  import opened Tables

  ghost predicate JobsOk(db: Db) {
    forall i {:trigger db.queue[i]} :: 0 <= i < |db.queue| ==>
      && db.queue[i].hb.device in db.devices
      && db.queue[i].key == QueueKey(db.queue[i].hb, db.queue[i].kind)
      && (db.queue[i].Live() ==> Monitored(db, db.queue[i].hb.device))
  }

  ghost predicate StatesOk(db: Db) {
    forall d :: d in db.states ==>
      && d in db.devices
      && db.states[d].hb.device == d
      && (db.states[d].stale || db.states[d].alert ==> Monitored(db, d))
  }

  ghost predicate DevicesOk(db: Db) {
    forall d :: d in db.devices ==> !(db.devices[d].deleted && db.devices[d].enabled)
  }

  ghost predicate TablesOk(db: Db) {
    UniqueLive(db.queue) && JobsOk(db) && StatesOk(db) && DevicesOk(db)
  }

  /** What the consumer can do to the devices and the queue: register devices and append fresh jobs. */
  ghost predicate Grew(db: Db, db': Db) {
    && db.queue <= db'.queue
    && (forall i :: |db.queue| <= i < |db'.queue| ==>
          db'.queue[i].status == Pending && db'.queue[i].attempts == 0)
    && (forall d :: d in db.devices ==> d in db'.devices && db'.devices[d] == db.devices[d])
    && (forall d :: d in db'.devices && d !in db.devices ==> db'.devices[d] == NEW_DEVICE)
  }

  lemma EnqueuedKeeps(db: Db, hb: Heartbeat, kind: Kind, now: real)
    requires TablesOk(db)
    ensures TablesOk(Enqueued(db, hb, kind, now)) && Grew(db, Enqueued(db, hb, kind, now))
    ensures Enqueued(db, hb, kind, now).states == db.states
  {
    var db1 := Registered(db, hb.device);
    if Monitored(db1, hb.device) {
      InsertKeepsUnique(db1.queue, NewJob(hb, kind, now));
    }
  }

  lemma EnqueuedIfActiveKeeps(db: Db, hb: Heartbeat, kind: Kind, now: real, mes: bool)
    requires TablesOk(db)
    ensures TablesOk(EnqueuedIfActive(db, hb, kind, now, mes)) && Grew(db, EnqueuedIfActive(db, hb, kind, now, mes))
    ensures EnqueuedIfActive(db, hb, kind, now, mes).states == db.states
  {
    EnqueuedKeeps(db, hb, kind, now);
  }

  lemma SavedKeeps(db: Db, hb: Heartbeat, lastSeen: real, stale: bool, alert: bool)
    requires TablesOk(db)
    ensures TablesOk(Saved(db, hb, lastSeen, stale, alert)) && Grew(db, Saved(db, hb, lastSeen, stale, alert))
  {
    var db' := Saved(db, hb, lastSeen, stale, alert);
    forall d ensures Monitored(db, d) ==> Monitored(db', d) {}
  }

  /** Setting the alert flag by itself obeys the same rule: never for a device that is not monitored. */
  lemma StatusAlertMarkedKeeps(db: Db, device: string, notified: bool)
    requires TablesOk(db)
    ensures TablesOk(StatusAlertMarked(db, device, notified)) && Grew(db, StatusAlertMarked(db, device, notified))
  {
  }

  lemma ProcessedKeeps(db: Db, previous: Option<StateRow>, hb: Heartbeat, now: real, m1: bool, m2: bool)
    requires TablesOk(db)
    ensures TablesOk(ProcessedFrom(db, previous, hb, now, m1, m2))
    ensures Grew(db, ProcessedFrom(db, previous, hb, now, m1, m2))
  {
    EnqueuedIfActiveKeeps(db, hb, Receiving, now, m1);
    var db1 := AfterReceiving(db, previous, hb, now, m1);
    var notice := StatusNotice(previous, hb);
    if notice.Some? {
      EnqueuedIfActiveKeeps(db1, hb, notice.value, now, m2);
    }
    var db2 := AfterNotice(db1, notice, hb, now, m2);
    var flag := AlertFlag(previous, hb, Accepts(db1, hb.device, m2));
    SavedKeeps(db2, hb, now, false, flag);
  }

  lemma ScannedOneKeeps(db: Db, device: string, now: real, threshold: real, mes: set<string>)
    requires TablesOk(db)
    ensures TablesOk(ScannedOne(db, device, now, threshold, mes))
    ensures Grew(db, ScannedOne(db, device, now, threshold, mes))
  {
    if device in Loaded(db) {
      EnqueuedKeeps(db, db.states[device].hb, Missing, now);
    }
  }

  lemma {:induction false} ScannedKeeps(db: Db, order: seq<string>, now: real, threshold: real, mes: set<string>)
    requires TablesOk(db)
    ensures TablesOk(Scanned(db, order, now, threshold, mes))
    ensures Grew(db, Scanned(db, order, now, threshold, mes))
    decreases |order|
  {
    if order != [] {
      var db1 := ScannedOne(db, order[0], now, threshold, mes);
      ScannedOneKeeps(db, order[0], now, threshold, mes);
      ScannedKeeps(db1, order[1..], now, threshold, mes);
    }
  }

  /** What a management request does to one job. */
  lemma ServedJob(db: Db, r: Request, i: nat)
    requires i < |db.queue|
    ensures |Served(db, r).queue| == |db.queue|
    ensures Served(db, r).queue[i]
         == if Effective(db, Served(db, r), r.device) then CancelledJob(db.queue[i], r.device) else db.queue[i]
  {
  }

  /** A management request keeps the tables sound: an effective one cancels what the device had live. */
  lemma ServedKeeps(db: Db, r: Request)
    requires TablesOk(db)
    ensures TablesOk(Served(db, r)) && Moved(db.queue, Served(db, r).queue)
    ensures |Served(db, r).queue| == |db.queue|
  {
    var db' := Served(db, r);
    UniqueUnlessRevived(db.queue, db'.queue);
    forall d | d != r.device
      ensures Monitored(db, d) <==> Monitored(db', d)
    {
    }
    forall i | 0 <= i < |db'.queue|
      ensures db'.queue[i].hb.device in db'.devices
      ensures db'.queue[i].key == QueueKey(db'.queue[i].hb, db'.queue[i].kind)
      ensures db'.queue[i].Live() ==> Monitored(db', db'.queue[i].hb.device)
    {
      assert Evolves(db.queue[i], db'.queue[i]);
    }
  }
}
