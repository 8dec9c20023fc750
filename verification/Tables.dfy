/**
 The three tables shared by the consumer, the SMTP worker and the management API, and what
 each transaction over them computes.
 */
module Tables {
  import opened Heartbeats
  import opened JobQueue

  datatype Device = Device(enabled: bool, deleted: bool, reason: string) {
    predicate Active() {
      enabled && !deleted
    }
  }

  datatype StateRow = StateRow(hb: Heartbeat, lastSeen: real, stale: bool, alert: bool)

  datatype Db = Db(devices: map<string, Device>, states: map<string, StateRow>, queue: seq<Job>)

  const EMPTY_DB := Db(map[], map[], [])

  const NEW_DEVICE := Device(true, false, "")

  predicate Monitored(db: Db, device: string) {
    device in db.devices && db.devices[device].Active()
  }

  predicate Deleted(db: Db, device: string) {
    device in db.devices && db.devices[device].deleted
  }

  /** INSERT INTO devices ... ON CONFLICT DO NOTHING: the side effect of every monitoring check. */
  function Registered(db: Db, device: string): Db {
    if device in db.devices then db else db.(devices := db.devices[device := NEW_DEVICE])
  }

  function Enqueued(db: Db, hb: Heartbeat, kind: Kind, now: real): Db {
    var db1 := Registered(db, hb.device);
    if Monitored(db1, hb.device) then db1.(queue := Insert(db1.queue, NewJob(hb, kind, now))) else db1
  }

  /** The notifier's own decision: the device is monitored and the MES answer is yes. */
  predicate Accepts(db: Db, device: string, mes: bool) {
    (device !in db.devices || db.devices[device].Active()) && mes
  }

  function EnqueuedIfActive(db: Db, hb: Heartbeat, kind: Kind, now: real, mes: bool): Db {
    if Accepts(db, hb.device, mes) then Enqueued(db, hb, kind, now) else Registered(db, hb.device)
  }

  function Saved(db: Db, hb: Heartbeat, lastSeen: real, stale: bool, alert: bool): Db {
    var db1 := Registered(db, hb.device);
    var active := Monitored(db1, hb.device);
    if Deleted(db1, hb.device) then db1
    else db1.(states := db1.states[hb.device := StateRow(hb, lastSeen, stale && active, alert && active)])
  }

  function StaleMarked(db: Db, device: string): Db {
    var db1 := Registered(db, device);
    if Monitored(db1, device) && device in db1.states
    then db1.(states := db1.states[device := db1.states[device].(stale := true)])
    else db1
  }

  function StatusAlertMarked(db: Db, device: string, notified: bool): Db {
    var db1 := Registered(db, device);
    if device in db1.states
    then db1.(states := db1.states[device := db1.states[device].(alert := notified && Monitored(db1, device))])
    else db1
  }

  /** The state rows of devices that are registered and not deleted. */
  function Loaded(db: Db): map<string, StateRow> {
    map d | d in db.states && d in db.devices && !db.devices[d].deleted :: db.states[d]
  }

  // ----- the consumer's transactions -----

  function Lookup(states: map<string, StateRow>, device: string): Option<StateRow> {
    if device in states then Some(states[device]) else None
  }

  /** Which status notification a heartbeat calls for, given the row stored before it. */
  function StatusNotice(previous: Option<StateRow>, hb: Heartbeat): Option<Kind> {
    if hb.level != Up && (previous.None? || previous.value.hb.Sig() != hb.Sig() || !previous.value.alert) then
      Some(Alert)
    else if previous.Some? && previous.value.hb.level != Up && hb.level == Up && previous.value.alert then
      Some(Recovery)
    else
      None
  }

  function AfterReceiving(db: Db, previous: Option<StateRow>, hb: Heartbeat, now: real, mes: bool): Db {
    if previous.Some? && previous.value.stale then EnqueuedIfActive(db, hb, Receiving, now, mes) else db
  }

  function AfterNotice(db: Db, notice: Option<Kind>, hb: Heartbeat, now: real, mes: bool): Db {
    if notice.Some? then EnqueuedIfActive(db, hb, notice.value, now, mes) else db
  }

  /** The alert flag to store: an UP report clears it, an ALERT decides it, anything else keeps it. */
  function AlertFlag(previous: Option<StateRow>, hb: Heartbeat, accepted: bool): bool {
    if hb.level == Up then false
    else if StatusNotice(previous, hb) == Some(Alert) then accepted
    else previous.Some? && previous.value.alert
  }

  /** One heartbeat's transaction, given the row that was loaded for its device. */
  function ProcessedFrom(db: Db, previous: Option<StateRow>, hb: Heartbeat, now: real,
                         mesReceiving: bool, mesStatus: bool): Db
  {
    var db1 := AfterReceiving(db, previous, hb, now, mesReceiving);
    var db2 := AfterNotice(db1, StatusNotice(previous, hb), hb, now, mesStatus);
    Saved(db2, hb, now, false, AlertFlag(previous, hb, Accepts(db1, hb.device, mesStatus)))
  }

  /** One heartbeat's transaction, reading nothing but the tables. */
  function Processed(db: Db, hb: Heartbeat, now: real, mesReceiving: bool, mesStatus: bool): Db {
    ProcessedFrom(db, Lookup(Loaded(db), hb.device), hb, now, mesReceiving, mesStatus)
  }

  predicate Overdue(row: StateRow, now: real, threshold: real) {
    !row.stale && now - row.lastSeen >= threshold
  }

  /** The stale check of one device against its stored row. */
  function ScannedOne(db: Db, device: string, now: real, threshold: real, mes: set<string>): Db {
    var row := Lookup(Loaded(db), device);
    if row.Some? && Overdue(row.value, now, threshold) && Accepts(db, device, device in mes)
    then StaleMarked(Enqueued(db, row.value.hb, Missing, now), device)
    else db
  }

  function Scanned(db: Db, order: seq<string>, now: real, threshold: real, mes: set<string>): Db
    decreases |order|
  {
    if order == [] then db
    else Scanned(ScannedOne(db, order[0], now, threshold, mes), order[1..], now, threshold, mes)
  }

  /** The rows are returned once each, in some order. */
  ghost predicate LoadOrder(db: Db, order: seq<string>) {
    && (forall i, j :: 0 <= i < j < |order| ==> order[i] != order[j])
    && (forall d :: d in order <==> d in Loaded(db))
  }

  // ----- the management transactions -----

  datatype Request =
    | Monitoring(device: string, enabled: bool, reason: string)
    | Delete(device: string, reason: string)
    | Restore(device: string)

  datatype Reply = Done | NotFound | Conflict

  function FlagsCleared(states: map<string, StateRow>, device: string): map<string, StateRow> {
    if device in states then states[device := states[device].(stale := false, alert := false)] else states
  }

  function Managed(db: Db, device: string, enabled: bool, deleted: bool, reason: string): Db
    requires device in db.devices
  {
    var row := db.devices[device];
    var db1 := db.(devices := db.devices[device := Device(enabled, deleted, reason)]);
    if row == Device(enabled, deleted, reason) then db
    else if row.enabled != enabled || row.deleted != deleted then
      db1.(queue := DeviceCancelled(db1.queue, device), states := FlagsCleared(db1.states, device))
    else db1
  }

  function Answer(db: Db, r: Request): Reply {
    if r.device !in db.devices then NotFound
    else match r
      case Monitoring(d, _, _) => if db.devices[d].deleted then Conflict else Done
      case Delete(_, _) => Done
      case Restore(d) => if db.devices[d].deleted then Done else Conflict
  }

  function Served(db: Db, r: Request): Db {
    if Answer(db, r) != Done then db
    else match r
      case Monitoring(d, enabled, reason) => Managed(db, d, enabled, false, reason)
      case Delete(d, reason) => Managed(db, d, false, true, reason)
      case Restore(d) => Managed(db, d, false, false, "Restored by API")
  }

  /** The request changed the device's enabled or deleted setting, not only the reason. */
  predicate Effective(db: Db, db': Db, device: string) {
    && device in db.devices && device in db'.devices
    && (db.devices[device].enabled != db'.devices[device].enabled
        || db.devices[device].deleted != db'.devices[device].deleted)
  }
}
