/**
 What the consumer must report, said on the fields of the tables: which notifications a heartbeat and a stale scan
 make, the rows they store and the jobs they queue. Each transaction runs in stages over changing tables; here its
 whole outcome is read off the tables at its start.
 */
module Reports {
  import opened Heartbeats
  import opened JobQueue
  import opened Tables
  import opened TableInvariants
  import opened Settings
  import opened Protocol
  import opened ProtocolInvariant
  import opened Trace
  import opened Flags

  /** The device is enabled and not deleted, or will be once it is registered. */
  predicate Reporting(db: Db, d: string) {
    d in db.devices ==> db.devices[d].enabled && !db.devices[d].deleted
  }

  /** A job with the key waits to be sent or is being sent. */
  ghost predicate KeyTaken(q: seq<Job>, key: string) {
    exists i :: 0 <= i < |q| && q[i].key == key
                && (q[i].status == Pending || q[i].status == Retry || q[i].status == Sending)
  }

  /** The job a notification adds: none if its key is taken, and otherwise one that is due at once. */
  ghost function JobFor(q: seq<Job>, hb: Heartbeat, kind: Kind, now: real): seq<Job> {
    if KeyTaken(q, QueueKey(hb, kind)) then [] else [Job(QueueKey(hb, kind), kind, hb, Pending, 0, now)]
  }

  function NoteIf(calledFor: bool, hb: Heartbeat, kind: Kind): seq<Note> {
    if calledFor then [Accepted(hb.device, kind, Signature(hb.level, hb.code))] else []
  }

  ghost function JobIf(calledFor: bool, q: seq<Job>, hb: Heartbeat, kind: Kind, now: real): seq<Job> {
    if calledFor then JobFor(q, hb, kind, now) else []
  }

  // ----- a heartbeat -----

  /** It is heard again. */
  predicate CallsForReceiving(db: Db, hb: Heartbeat, mes: bool) {
    Reporting(db, hb.device) && mes && hb.device in db.states && db.states[hb.device].stale
  }

  /** Its present state was alerted already. */
  predicate AlreadyAlerted(db: Db, hb: Heartbeat) {
    && hb.device in db.states && db.states[hb.device].alert
    && db.states[hb.device].hb.level == hb.level && db.states[hb.device].hb.code == hb.code
  }

  predicate CallsForAlert(db: Db, hb: Heartbeat, mes: bool) {
    Reporting(db, hb.device) && mes && hb.level != Up && !AlreadyAlerted(db, hb)
  }

  predicate CallsForRecovery(db: Db, hb: Heartbeat, mes: bool) {
    Reporting(db, hb.device) && mes && hb.level == Up && hb.device in db.states && db.states[hb.device].alert
  }

  /** The notes of a heartbeat, in order. */
  function BeatReport(db: Db, hb: Heartbeat, m1: bool, m2: bool): seq<Note> {
    NoteIf(CallsForReceiving(db, hb, m1), hb, Receiving)
    + NoteIf(CallsForAlert(db, hb, m2), hb, Alert)
    + NoteIf(CallsForRecovery(db, hb, m2), hb, Recovery)
    + (if hb.device in db.devices && db.devices[hb.device].deleted then []
       else [Heard(hb.device, Signature(hb.level, hb.code))])
  }

  /** The jobs it adds. */
  ghost function BeatJobs(db: Db, hb: Heartbeat, now: real, m1: bool, m2: bool): seq<Job> {
    JobIf(CallsForReceiving(db, hb, m1), db.queue, hb, Receiving, now)
    + JobIf(CallsForAlert(db, hb, m2), db.queue, hb, Alert, now)
    + JobIf(CallsForRecovery(db, hb, m2), db.queue, hb, Recovery, now)
  }

  /** The tables it leaves: the device is known, its row is replaced unless it is deleted, and the alert flag says
      that its abnormal state is alerted, before or now. */
  ghost function BeatOutcome(db: Db, hb: Heartbeat, now: real, m1: bool, m2: bool): Db {
    var d := hb.device;
    var alert := Reporting(db, d) && hb.level != Up && (m2 || AlreadyAlerted(db, hb));
    Db(if d in db.devices then db.devices else db.devices[d := Device(true, false, "")],
       if d in db.devices && db.devices[d].deleted then db.states
       else db.states[d := StateRow(hb, now, false, alert)],
       db.queue + BeatJobs(db, hb, now, m1, m2))
  }

  /** An alert flag is set only while the stored state is abnormal. */
  ghost predicate AlertsAreAbnormal(db: Db) {
    forall d :: d in db.states && db.states[d].alert ==> db.states[d].hb.level != Up
  }

  lemma FlagsAreAbnormal(db: Db, t: seq<Note>)
    requires FlagsMatch(db, t) && Lawful(t)
    ensures AlertsAreAbnormal(db)
  {
    forall d | d in db.states && db.states[d].alert ensures db.states[d].hb.level != Up {
      assert AlertSig(db, d) == AlertOpen(t, d);
      AlertIsAbnormal(t, d);
    }
  }

  /** Keys of one heartbeat's notifications differ with the kind. */
  lemma KeysOfKindsDiffer(hb: Heartbeat, k1: Kind, k2: Kind)
    requires k1 != k2 && k1 != Missing && k2 != Missing
    ensures QueueKey(hb, k1) != QueueKey(hb, k2)
  {
    var rest := LevelText(hb.level) + ":" + hb.code;
    var x, y := hb.device + ":" + KeyTail(hb, k1), hb.device + ":" + KeyTail(hb, k2);
    KeyIsDeviceAndTail(hb, k1);
    KeyIsDeviceAndTail(hb, k2);
    assert x[|hb.device| + 1..] == KeyTail(hb, k1) && y[|hb.device| + 1..] == KeyTail(hb, k2);
    if x == y {
      FirstColonSplits(KindText(k1), rest, KindText(k2), rest);
    }
  }

  lemma TakenIsLive(q: seq<Job>, key: string)
    ensures KeyTaken(q, key) == HasLive(q, key)
  {
    if KeyTaken(q, key) {
      var i :| 0 <= i < |q| && q[i].key == key
               && (q[i].status == Pending || q[i].status == Retry || q[i].status == Sending);
      assert q[i].Live();
    }
  }

  lemma TakenStays(q: seq<Job>, more: seq<Job>, key: string)
    requires KeyTaken(q, key)
    ensures KeyTaken(q + more, key)
  {
    var i :| 0 <= i < |q| && q[i].key == key
             && (q[i].status == Pending || q[i].status == Retry || q[i].status == Sending);
    assert (q + more)[i] == q[i];
  }

  /** A further job with another key takes or frees no key. */
  lemma OtherKeyIsAsFree(q: seq<Job>, more: seq<Job>, key: string)
    requires forall i :: 0 <= i < |more| ==> more[i].key != key
    ensures KeyTaken(q + more, key) == KeyTaken(q, key)
  {
    if KeyTaken(q, key) {
      var i :| 0 <= i < |q| && q[i].key == key
               && (q[i].status == Pending || q[i].status == Retry || q[i].status == Sending);
      assert (q + more)[i] == q[i];
    }
  }

  /** One wanted notification: its device is registered, and its job queued if it is accepted. */
  lemma AcceptedAddsItsJob(db: Db, hb: Heartbeat, kind: Kind, now: real, mes: bool)
    ensures Accepts(db, hb.device, mes) == (Reporting(db, hb.device) && mes)
    ensures EnqueuedIfActive(db, hb, kind, now, mes)
         == Registered(db, hb.device).(queue :=
              db.queue + JobIf(Reporting(db, hb.device) && mes, db.queue, hb, kind, now))
  {
    TakenIsLive(db.queue, QueueKey(hb, kind));
    assert db.queue + [] == db.queue;
  }

  /** The first stage of a heartbeat: its RECEIVING. */
  lemma ReceivingStage(db: Db, hb: Heartbeat, now: real, m1: bool)
    requires TablesOk(db)
    ensures var previous := Lookup(Loaded(db), hb.device);
            && AfterReceiving(db, previous, hb, now, m1)
               == db.(queue := db.queue + JobIf(CallsForReceiving(db, hb, m1), db.queue, hb, Receiving, now))
            && ReceivingNote(db, previous, hb, m1) == NoteIf(CallsForReceiving(db, hb, m1), hb, Receiving)
  {
    AcceptedAddsItsJob(db, hb, Receiving, now, m1);
    assert db.queue + [] == db.queue;
  }

  /** What the row loaded for a reporting device calls for. */
  lemma NoticeOnFields(db: Db, hb: Heartbeat)
    requires TablesOk(db) && AlertsAreAbnormal(db) && Reporting(db, hb.device)
    ensures StatusNotice(Lookup(Loaded(db), hb.device), hb)
         == if CallsForAlert(db, hb, true) then Some(Alert)
            else if CallsForRecovery(db, hb, true) then Some(Recovery) else None
  {
    assert hb.device in db.states ==> hb.device in Loaded(db);
  }

  function StatusNotes(db: Db, hb: Heartbeat, m2: bool): seq<Note> {
    NoteIf(CallsForAlert(db, hb, m2), hb, Alert) + NoteIf(CallsForRecovery(db, hb, m2), hb, Recovery)
  }

  ghost function StatusJobs(db: Db, hb: Heartbeat, now: real, m2: bool): seq<Job> {
    JobIf(CallsForAlert(db, hb, m2), db.queue, hb, Alert, now)
    + JobIf(CallsForRecovery(db, hb, m2), db.queue, hb, Recovery, now)
  }

  /** The second stage: its ALERT or RECOVERY, on the tables its RECEIVING left. */
  lemma StatusStage(db: Db, db1: Db, hb: Heartbeat, now: real, m2: bool)
    requires TablesOk(db) && AlertsAreAbnormal(db)
    requires db1 == db.(queue := db1.queue)
    requires KeyTaken(db1.queue, QueueKey(hb, Alert)) == KeyTaken(db.queue, QueueKey(hb, Alert))
    requires KeyTaken(db1.queue, QueueKey(hb, Recovery)) == KeyTaken(db.queue, QueueKey(hb, Recovery))
    ensures var previous := Lookup(Loaded(db), hb.device);
            var db2 := AfterNotice(db1, StatusNotice(previous, hb), hb, now, m2);
            && Registered(db2, hb.device)
               == Registered(db1, hb.device).(queue := db1.queue + StatusJobs(db, hb, now, m2))
            && NoticeNote(db1, previous, hb, m2) == StatusNotes(db, hb, m2)
  {
    var notice := StatusNotice(Lookup(Loaded(db), hb.device), hb);
    assert db1.queue + [] == db1.queue;
    if notice.Some? {
      AcceptedAddsItsJob(db1, hb, notice.value, now, m2);
    }
    if Reporting(db, hb.device) {
      NoticeOnFields(db, hb);
    }
  }

  /** The stored flag says that an abnormal state is alerted, before or now. */
  lemma FlagOnFields(db: Db, db1: Db, hb: Heartbeat, m2: bool)
    requires TablesOk(db) && AlertsAreAbnormal(db) && db1.devices == db.devices
    requires !Deleted(db, hb.device)
    ensures AlertFlag(Lookup(Loaded(db), hb.device), hb, Accepts(db1, hb.device, m2))
         == (Reporting(db, hb.device) && hb.level != Up && (m2 || AlreadyAlerted(db, hb)))
  {
    if Reporting(db, hb.device) {
      NoticeOnFields(db, hb);
    }
  }

  lemma FreeAfterReceiving(db: Db, hb: Heartbeat, now: real, m1: bool, kind: Kind)
    requires kind == Alert || kind == Recovery
    ensures var q := db.queue + JobIf(CallsForReceiving(db, hb, m1), db.queue, hb, Receiving, now);
            KeyTaken(q, QueueKey(hb, kind)) == KeyTaken(db.queue, QueueKey(hb, kind))
  {
    KeysOfKindsDiffer(hb, Receiving, kind);
    OtherKeyIsAsFree(db.queue, JobIf(CallsForReceiving(db, hb, m1), db.queue, hb, Receiving, now), QueueKey(hb, kind));
  }

  /** The last stage: the row is stored. */
  lemma SavedOnFields(db: Db, db1: Db, db2: Db, hb: Heartbeat, now: real, m2: bool)
    requires TablesOk(db) && AlertsAreAbnormal(db) && db1.devices == db.devices && db1.states == db.states
    requires Registered(db2, hb.device)
          == Registered(db1, hb.device).(queue := db1.queue + StatusJobs(db, hb, now, m2))
    ensures var flag := AlertFlag(Lookup(Loaded(db), hb.device), hb, Accepts(db1, hb.device, m2));
            var alert := Reporting(db, hb.device) && hb.level != Up && (m2 || AlreadyAlerted(db, hb));
            Saved(db2, hb, now, false, flag)
            == Registered(db1, hb.device).(queue := db1.queue + StatusJobs(db, hb, now, m2),
                 states := if Deleted(db, hb.device) then db.states
                           else db.states[hb.device := StateRow(hb, now, false, alert)])
  {
    if !Deleted(db, hb.device) {
      FlagOnFields(db, db1, hb, m2);
    }
  }
  lemma BeatTables(db: Db, hb: Heartbeat, now: real, m1: bool, m2: bool)
    requires TablesOk(db) && AlertsAreAbnormal(db)
    ensures Processed(db, hb, now, m1, m2) == BeatOutcome(db, hb, now, m1, m2)
  {
    var previous := Lookup(Loaded(db), hb.device);
    var db1 := AfterReceiving(db, previous, hb, now, m1);
    ReceivingStage(db, hb, now, m1);
    FreeAfterReceiving(db, hb, now, m1, Alert);
    FreeAfterReceiving(db, hb, now, m1, Recovery);
    StatusStage(db, db1, hb, now, m2);
    SavedOnFields(db, db1, AfterNotice(db1, StatusNotice(previous, hb), hb, now, m2), hb, now, m2);
    JobsInOrder(db, hb, now, m1, m2);
  }

  lemma JobsInOrder(db: Db, hb: Heartbeat, now: real, m1: bool, m2: bool)
    ensures db.queue + BeatJobs(db, hb, now, m1, m2)
         == db.queue + JobIf(CallsForReceiving(db, hb, m1), db.queue, hb, Receiving, now) + StatusJobs(db, hb, now, m2)
  {
    var r := JobIf(CallsForReceiving(db, hb, m1), db.queue, hb, Receiving, now);
    assert BeatJobs(db, hb, now, m1, m2) == r + StatusJobs(db, hb, now, m2);
  }

  lemma BeatHistory(db: Db, hb: Heartbeat, now: real, m1: bool, m2: bool)
    requires TablesOk(db) && AlertsAreAbnormal(db)
    ensures BeatNotes(db, hb, now, m1, m2) == BeatReport(db, hb, m1, m2)
  {
    var previous := Lookup(Loaded(db), hb.device);
    var db1 := AfterReceiving(db, previous, hb, now, m1);
    ReceivingStage(db, hb, now, m1);
    FreeAfterReceiving(db, hb, now, m1, Alert);
    FreeAfterReceiving(db, hb, now, m1, Recovery);
    StatusStage(db, db1, hb, now, m2);
    assert BeatNotes(db, hb, now, m1, m2)
        == ReceivingNote(db, previous, hb, m1) + NoticeNote(db1, previous, hb, m2)
           + (if Deleted(db, hb.device) then [] else [Heard(hb.device, hb.Sig())]);
  }

  /** Every accepted notification of a heartbeat has a job with its key afterwards. */
  lemma AcceptedHaveJobs(db: Db, hb: Heartbeat, now: real, m1: bool, m2: bool, kind: Kind)
    requires Accepted(hb.device, kind, Signature(hb.level, hb.code)) in BeatReport(db, hb, m1, m2)
    ensures KeyTaken(BeatOutcome(db, hb, now, m1, m2).queue, QueueKey(hb, kind))
  {
    var key, added := QueueKey(hb, kind), BeatJobs(db, hb, now, m1, m2);
    if KeyTaken(db.queue, key) {
      TakenStays(db.queue, added, key);
    } else {
      var job := Job(key, kind, hb, Pending, 0, now);
      assert job in added;
      var i :| 0 <= i < |added| && added[i] == job;
      assert (db.queue + added)[|db.queue| + i] == job;
    }
  }

  /** In every reachable state: a committed heartbeat, all its stages together, leaves the tables and adds the notes
      that the tables at its start call for, and does nothing else; what it notes as accepted has its job. */
  lemma HeartbeatsAreReported(cfg: Config, actions: seq<Action>, hb: Heartbeat, now: real, m1: bool, m2: bool,
                              kind: Kind)
    requires ValidConfig(cfg) && Run(cfg, INITIAL, actions).up
    ensures var c := Run(cfg, INITIAL, actions);
            var c' := Step(cfg, c, Beat(hb, now, m1, m2, true));
            && c'.db == BeatOutcome(c.db, hb, now, m1, m2) && c'.trace == c.trace + BeatReport(c.db, hb, m1, m2)
            && c'.worker == c.worker && c'.up && c'.epochs == c.epochs && c'.completed == c.completed
            && (Accepted(hb.device, kind, Signature(hb.level, hb.code)) in BeatReport(c.db, hb, m1, m2) ==>
                  KeyTaken(c'.db.queue, QueueKey(hb, kind)))
  {
    var c := Run(cfg, INITIAL, actions);
    Reachable(cfg, actions);
    FlagsFollowTheHistory(cfg, actions);
    FlagsAreAbnormal(c.db, c.trace);
    BeatTables(c.db, hb, now, m1, m2);
    BeatHistory(c.db, hb, now, m1, m2);
    if Accepted(hb.device, kind, Signature(hb.level, hb.code)) in BeatReport(c.db, hb, m1, m2) {
      AcceptedHaveJobs(c.db, hb, now, m1, m2, kind);
    }
  }

  lemma InReport(db: Db, hb: Heartbeat, m1: bool, m2: bool, n: Note)
    ensures var sig := Signature(hb.level, hb.code);
            n in BeatReport(db, hb, m1, m2) <==>
              || (CallsForReceiving(db, hb, m1) && n == Accepted(hb.device, Receiving, sig))
              || (CallsForAlert(db, hb, m2) && n == Accepted(hb.device, Alert, sig))
              || (CallsForRecovery(db, hb, m2) && n == Accepted(hb.device, Recovery, sig))
              || (!Deleted(db, hb.device) && n == Heard(hb.device, sig))
  {
    var a, b := NoteIf(CallsForReceiving(db, hb, m1), hb, Receiving), NoteIf(CallsForAlert(db, hb, m2), hb, Alert);
    var c := NoteIf(CallsForRecovery(db, hb, m2), hb, Recovery);
    var e := if Deleted(db, hb.device) then [] else [Heard(hb.device, Signature(hb.level, hb.code))];
    assert BeatReport(db, hb, m1, m2) == a + b + c + e;
    assert n in a + b + c + e <==> n in a || n in b || n in c || n in e;
  }

  /** The same, condition by condition, in terms of the stored rows alone: which of the notes a heartbeat adds. */
  ghost predicate AddsExactly(db: Db, added: seq<Note>, hb: Heartbeat, m1: bool, m2: bool) {
    var d, sig, known, rows := hb.device, Signature(hb.level, hb.code), db.devices, db.states;
    var monitored := d in known ==> known[d].enabled && !known[d].deleted;
    && (Accepted(d, Receiving, sig) in added <==> monitored && m1 && d in rows && rows[d].stale)
    && (Accepted(d, Alert, sig) in added <==>
          monitored && m2 && hb.level != Up
          && (d !in rows || !rows[d].alert || rows[d].hb.level != hb.level || rows[d].hb.code != hb.code))
    && (Accepted(d, Recovery, sig) in added <==> monitored && m2 && hb.level == Up && d in rows && rows[d].alert)
    && (Heard(d, sig) in added <==> d !in known || !known[d].deleted)
    && Accepted(d, Missing, sig) !in added
  }

  lemma ReportAddsExactly(db: Db, hb: Heartbeat, m1: bool, m2: bool)
    ensures AddsExactly(db, BeatReport(db, hb, m1, m2), hb, m1, m2)
  {
    var d, sig := hb.device, Signature(hb.level, hb.code);
    InReport(db, hb, m1, m2, Accepted(d, Receiving, sig));
    InReport(db, hb, m1, m2, Accepted(d, Alert, sig));
    InReport(db, hb, m1, m2, Accepted(d, Recovery, sig));
    InReport(db, hb, m1, m2, Accepted(d, Missing, sig));
    InReport(db, hb, m1, m2, Heard(d, sig));
  }

  lemma NotesOfAHeartbeat(cfg: Config, actions: seq<Action>, hb: Heartbeat, now: real, m1: bool, m2: bool)
    requires ValidConfig(cfg) && Run(cfg, INITIAL, actions).up
    ensures var c := Run(cfg, INITIAL, actions);
            var t := Step(cfg, c, Beat(hb, now, m1, m2, true)).trace;
            c.trace <= t && AddsExactly(c.db, t[|c.trace|..], hb, m1, m2)
  {
    var c := Run(cfg, INITIAL, actions);
    HeartbeatsAreReported(cfg, actions, hb, now, m1, m2, Missing);
    ReportAddsExactly(c.db, hb, m1, m2);
    assert Step(cfg, c, Beat(hb, now, m1, m2, true)).trace[|c.trace|..] == BeatReport(c.db, hb, m1, m2);
  }

  // ----- a stale scan -----

  /** A monitored device was not heard for the threshold, and no MISSING is out for it. */
  predicate Silent(db: Db, d: string, now: real, threshold: real) {
    && d in db.states && d in db.devices && db.devices[d].enabled && !db.devices[d].deleted
    && !db.states[d].stale && now - db.states[d].lastSeen >= threshold
  }

  /** The notes of a scan, in the order of its walk. */
  function ScanReport(db: Db, order: seq<string>, now: real, threshold: real, mes: set<string>): seq<Note> {
    if order == [] then []
    else
      var d := order[0];
      (if Silent(db, d, now, threshold) && d in mes
       then [Accepted(d, Missing, Signature(db.states[d].hb.level, db.states[d].hb.code))] else [])
      + ScanReport(db, order[1..], now, threshold, mes)
  }

  /** The job that the check of one device adds, if any. */
  ghost function CheckJob(db: Db, d: string, now: real, threshold: real, mes: set<string>): seq<Job> {
    if Silent(db, d, now, threshold) && d in mes then JobFor(db.queue, db.states[d].hb, Missing, now) else []
  }

  /** The jobs a scan adds. */
  ghost function ScanJobs(db: Db, order: seq<string>, now: real, threshold: real, mes: set<string>): seq<Job> {
    if order == [] then []
    else CheckJob(db, order[0], now, threshold, mes) + ScanJobs(db, order[1..], now, threshold, mes)
  }

  /** A row after the scan. */
  function Marked(db: Db, order: seq<string>, now: real, threshold: real, mes: set<string>, d: string): StateRow
    requires d in db.states
  {
    if Silent(db, d, now, threshold) && d in mes && d in order then db.states[d].(stale := true) else db.states[d]
  }

  /** The tables it leaves: exactly the silent devices of the walk for which MES agrees are marked. */
  ghost function ScanOutcome(db: Db, order: seq<string>, now: real, threshold: real, mes: set<string>): Db {
    Db(db.devices,
       map d | d in db.states :: Marked(db, order, now, threshold, mes, d),
       db.queue + ScanJobs(db, order, now, threshold, mes))
  }

  lemma MissingKeysDiffer(h1: Heartbeat, h2: Heartbeat)
    requires h1.device != h2.device
    ensures QueueKey(h1, Missing) != QueueKey(h2, Missing)
  {
    var x, y := QueueKey(h1, Missing), QueueKey(h2, Missing);
    assert x == h1.device + ":MISSING" && y == h2.device + ":MISSING";
    assert x[..|x| - 8] == h1.device && y[..|y| - 8] == h2.device;
  }

  /** The check of one device, on the fields. */
  lemma OneCheck(db: Db, d: string, now: real, threshold: real, mes: set<string>)
    requires TablesOk(db)
    ensures var reported := Silent(db, d, now, threshold) && d in mes;
            && ScannedOne(db, d, now, threshold, mes)
               == (if reported
                   then db.(queue := db.queue + JobFor(db.queue, db.states[d].hb, Missing, now),
                            states := db.states[d := db.states[d].(stale := true)])
                   else db)
            && ScanNote(db, d, now, threshold, mes)
               == (if reported
                   then [Accepted(d, Missing, Signature(db.states[d].hb.level, db.states[d].hb.code))] else [])
  {
    if d in db.states {
      AcceptedAddsItsJob(db, db.states[d].hb, Missing, now, d in mes);
    }
  }

  /** Two tables read alike for a device. */
  ghost predicate ReadAlike(db: Db, db1: Db, d: string) {
    && db1.devices == db.devices && Lookup(db1.states, d) == Lookup(db.states, d)
    && (d in db.states ==>
          KeyTaken(db1.queue, QueueKey(db.states[d].hb, Missing))
          == KeyTaken(db.queue, QueueKey(db.states[d].hb, Missing)))
  }

  lemma OneCheckReadsAlike(db: Db, d: string, e: string, now: real, threshold: real, mes: set<string>)
    requires TablesOk(db) && d != e
    ensures ReadAlike(db, ScannedOne(db, d, now, threshold, mes), e)
  {
    OneCheck(db, d, now, threshold, mes);
    if e in db.states && d in db.states {
      var hb, other := db.states[d].hb, db.states[e].hb;
      MissingKeysDiffer(hb, other);
      OtherKeyIsAsFree(db.queue, JobFor(db.queue, hb, Missing, now), QueueKey(other, Missing));
    }
  }

  lemma {:induction false} AlikeMeansSameReport(db: Db, db1: Db, order: seq<string>, now: real, threshold: real,
                                                mes: set<string>)
    requires forall d :: d in order ==> ReadAlike(db, db1, d)
    ensures ScanReport(db1, order, now, threshold, mes) == ScanReport(db, order, now, threshold, mes)
    ensures ScanJobs(db1, order, now, threshold, mes) == ScanJobs(db, order, now, threshold, mes)
  {
    if order != [] {
      assert ReadAlike(db, db1, order[0]);
      AlikeMeansSameReport(db, db1, order[1..], now, threshold, mes);
    }
  }

  ghost predicate Distinct(order: seq<string>) {
    forall i, j :: 0 <= i < j < |order| ==> order[i] != order[j]
  }

  /** A walk over changing tables finds and does what the tables at its start call for. */
  lemma {:induction false} ScanMeetsItsDuties(db: Db, order: seq<string>, now: real, threshold: real, mes: set<string>)
    requires TablesOk(db) && Distinct(order)
    ensures Scanned(db, order, now, threshold, mes) == ScanOutcome(db, order, now, threshold, mes)
    ensures ScanNotes(db, order, now, threshold, mes) == ScanReport(db, order, now, threshold, mes)
    decreases |order|
  {
    if order == [] {
      assert db.queue + [] == db.queue;
    } else {
      var d, rest := order[0], order[1..];
      var db1 := ScannedOne(db, d, now, threshold, mes);
      OneCheck(db, d, now, threshold, mes);
      ScannedOneKeeps(db, d, now, threshold, mes);
      forall e | e in rest ensures e != d && ReadAlike(db, db1, e) {
        OneCheckReadsAlike(db, d, e, now, threshold, mes);
      }
      AlikeMeansSameReport(db, db1, rest, now, threshold, mes);
      ScanMeetsItsDuties(db1, rest, now, threshold, mes);
      OneMoreCheck(db, db1, order, now, threshold, mes);
    }
  }

  /** The first check and the rest of the walk together. */
  lemma OneMoreCheck(db: Db, db1: Db, order: seq<string>, now: real, threshold: real, mes: set<string>)
    requires order != [] && TablesOk(db) && db1 == ScannedOne(db, order[0], now, threshold, mes)
    requires forall e :: e in order[1..] ==> e != order[0] && ReadAlike(db, db1, e)
    requires ScanJobs(db1, order[1..], now, threshold, mes) == ScanJobs(db, order[1..], now, threshold, mes)
    ensures ScanOutcome(db1, order[1..], now, threshold, mes) == ScanOutcome(db, order, now, threshold, mes)
  {
    var rest := order[1..];
    OneMoreJob(db, order, now, threshold, mes);
    var a, b := ScanOutcome(db1, rest, now, threshold, mes), ScanOutcome(db, order, now, threshold, mes);
    assert a.queue == b.queue;
    OneCheck(db, order[0], now, threshold, mes);
    forall e | e in db.states ensures e in a.states && a.states[e] == b.states[e] {
    }
    assert a.states == b.states;
  }

  lemma JobsGroup(q: seq<Job>, first: seq<Job>, rest: seq<Job>)
    ensures q + first + rest == q + (first + rest)
  {
  }

  lemma OneMoreJob(db: Db, order: seq<string>, now: real, threshold: real, mes: set<string>)
    requires order != [] && TablesOk(db)
    ensures ScannedOne(db, order[0], now, threshold, mes).queue + ScanJobs(db, order[1..], now, threshold, mes)
         == db.queue + ScanJobs(db, order, now, threshold, mes)
  {
    JobsGroup(db.queue, CheckJob(db, order[0], now, threshold, mes), ScanJobs(db, order[1..], now, threshold, mes));
  }

  // ----- counting -----

  lemma {:induction false} CountsAdd(t: seq<Note>, s: seq<Note>, d: string, kind: Kind)
    ensures CountOf(t + s, d, kind) == CountOf(t, d, kind) + CountOf(s, d, kind)
    decreases |s|
  {
    if s == [] {
      assert t + s == t;
    } else {
      assert (t + s)[..|t + s| - 1] == t + s[..|s| - 1];
      CountsAdd(t, s[..|s| - 1], d, kind);
    }
  }

  lemma {:induction false} OneMissingEach(db: Db, order: seq<string>, now: real, threshold: real, mes: set<string>,
                                          d: string)
    requires Distinct(order)
    ensures CountOf(ScanReport(db, order, now, threshold, mes), d, Missing)
         == if Silent(db, d, now, threshold) && d in mes && d in order then 1 else 0
    decreases |order|
  {
    if order != [] {
      var e, rest := order[0], order[1..];
      var report := ScanReport(db, rest, now, threshold, mes);
      OneMissingEach(db, rest, now, threshold, mes, d);
      if Silent(db, e, now, threshold) && e in mes {
        var n := Accepted(e, Missing, Signature(db.states[e].hb.level, db.states[e].hb.code));
        CountsAdd([n], report, d, Missing);
      } else {
        assert ScanReport(db, order, now, threshold, mes) == report;
      }
      assert d in order <==> d == e || d in rest;
    }
  }

  /** Every silent device of the walk has a job with its key afterwards. */
  lemma {:induction false} ReportedHaveJobs(db: Db, order: seq<string>, now: real, threshold: real, mes: set<string>,
                                            d: string)
    requires Silent(db, d, now, threshold) && d in mes && d in order
    ensures KeyTaken(db.queue + ScanJobs(db, order, now, threshold, mes), QueueKey(db.states[d].hb, Missing))
    decreases |order|
  {
    var key := QueueKey(db.states[d].hb, Missing);
    var first := CheckJob(db, order[0], now, threshold, mes);
    var rest := ScanJobs(db, order[1..], now, threshold, mes);
    var q := db.queue + (first + rest);
    if d == order[0] {
      if KeyTaken(db.queue, key) {
        TakenStays(db.queue, first + rest, key);
      } else {
        assert q[|db.queue|] == first[0];
      }
    } else {
      ReportedHaveJobs(db, order[1..], now, threshold, mes, d);
      var i :| 0 <= i < |db.queue + rest| && (db.queue + rest)[i].key == key
               && ((db.queue + rest)[i].status == Pending || (db.queue + rest)[i].status == Retry
                   || (db.queue + rest)[i].status == Sending);
      assert q[if i < |db.queue| then i else i + |first|] == (db.queue + rest)[i];
    }
  }

  /** What a scan over all loaded devices must do for one of them. */
  ghost predicate SilenceReported(db: Db, db': Db, t: seq<Note>, t': seq<Note>, d: string, now: real, threshold: real,
                                  mes: set<string>)
  {
    var reported := Silent(db, d, now, threshold) && d in mes;
    && |t| <= |t'| && (d in db'.states <==> d in db.states)
    && (d in db.states ==>
          db'.states[d] == db.states[d].(stale := db.states[d].stale || reported))
    && CountOf(t', d, Missing) == CountOf(t, d, Missing) + (if reported then 1 else 0)
    && (reported ==>
          && Accepted(d, Missing, Signature(db.states[d].hb.level, db.states[d].hb.code)) in t'[|t|..]
          && KeyTaken(db'.queue, d + ":MISSING"))
  }

  lemma {:induction false} ReportedIsNoted(db: Db, order: seq<string>, now: real, threshold: real, mes: set<string>,
                                           d: string)
    requires Silent(db, d, now, threshold) && d in mes && d in order
    ensures Accepted(d, Missing, Signature(db.states[d].hb.level, db.states[d].hb.code))
         in ScanReport(db, order, now, threshold, mes)
    decreases |order|
  {
    if d != order[0] {
      ReportedIsNoted(db, order[1..], now, threshold, mes, d);
    }
  }

  /** A silent device is walked over, noted, and has its job. */
  lemma ReportIsComplete(db: Db, order: seq<string>, now: real, threshold: real, mes: set<string>, d: string)
    requires StatesOk(db) && d in order && Silent(db, d, now, threshold) && d in mes
    ensures Accepted(d, Missing, Signature(db.states[d].hb.level, db.states[d].hb.code))
         in ScanReport(db, order, now, threshold, mes)
    ensures KeyTaken(db.queue + ScanJobs(db, order, now, threshold, mes), d + ":MISSING")
  {
    ReportedIsNoted(db, order, now, threshold, mes, d);
    ReportedHaveJobs(db, order, now, threshold, mes, d);
    assert QueueKey(db.states[d].hb, Missing) == d + ":MISSING";
  }

  lemma ScanReportsSilence(db: Db, t: seq<Note>, order: seq<string>, now: real, threshold: real, mes: set<string>,
                           d: string)
    requires TablesOk(db) && LoadOrder(db, order)
    ensures SilenceReported(db, Scanned(db, order, now, threshold, mes), t,
                            t + ScanNotes(db, order, now, threshold, mes), d, now, threshold, mes)
  {
    var report := ScanReport(db, order, now, threshold, mes);
    ScanMeetsItsDuties(db, order, now, threshold, mes);
    OneMissingEach(db, order, now, threshold, mes, d);
    CountsAdd(t, report, d, Missing);
    assert (t + report)[|t|..] == report;
    if Silent(db, d, now, threshold) && d in mes {
      assert d in Loaded(db);
      ReportIsComplete(db, order, now, threshold, mes, d);
    }
  }

  /** In every reachable state: a committed scan over the loaded devices marks exactly those that are enabled and not
      deleted, were not heard for the threshold and for which MES agrees; each newly marked one gets one MISSING and
      has a job for it, and no other device gets any. */
  lemma SilenceIsReported(cfg: Config, actions: seq<Action>, order: seq<string>, now: real, mes: set<string>, d: string)
    requires ValidConfig(cfg)
    requires var c := Run(cfg, INITIAL, actions); c.up && LoadOrder(c.db, order) && d in c.db.states
    ensures var c := Run(cfg, INITIAL, actions);
            var c' := Step(cfg, c, StaleScan(order, now, mes, true));
            var row := c.db.states[d];
            && d in c'.db.states && d in c.db.devices
            && (c'.db.states[d].stale <==>
                  || row.stale
                  || (c.db.devices[d].enabled && !c.db.devices[d].deleted
                      && now - row.lastSeen >= cfg.staleAfter && d in mes))
            && c'.db.states[d] == row.(stale := c'.db.states[d].stale)
            && CountOf(c'.trace, d, Missing)
               == CountOf(c.trace, d, Missing) + (if c'.db.states[d].stale && !row.stale then 1 else 0)
            && (c'.db.states[d].stale && !row.stale ==> KeyTaken(c'.db.queue, d + ":MISSING"))
  {
    var c := Run(cfg, INITIAL, actions);
    Reachable(cfg, actions);
    ScanMatchesTables(c.db, Loaded(c.db), order, now, cfg.staleAfter, mes);
    ScanReportsSilence(c.db, c.trace, order, now, cfg.staleAfter, mes, d);
  }

  /** Nothing else happens in it: the whole state after a committed scan, read off the tables at its start. */
  lemma ScansDoNothingElse(cfg: Config, actions: seq<Action>, order: seq<string>, now: real, mes: set<string>)
    requires ValidConfig(cfg)
    requires var c := Run(cfg, INITIAL, actions); c.up && LoadOrder(c.db, order)
    ensures var c := Run(cfg, INITIAL, actions);
            var c' := Step(cfg, c, StaleScan(order, now, mes, true));
            && c'.db == ScanOutcome(c.db, order, now, cfg.staleAfter, mes)
            && c'.trace == c.trace + ScanReport(c.db, order, now, cfg.staleAfter, mes)
            && c'.worker == c.worker && c'.up && c'.epochs == c.epochs && c'.completed == c.completed
  {
    var c := Run(cfg, INITIAL, actions);
    Reachable(cfg, actions);
    ScanMatchesTables(c.db, Loaded(c.db), order, now, cfg.staleAfter, mes);
    ScanMeetsItsDuties(c.db, order, now, cfg.staleAfter, mes);
  }
}
