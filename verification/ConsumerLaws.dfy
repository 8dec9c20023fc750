/** Laws of the consumer's transactions: what redelivery, an old row and the in-memory map can and cannot do. */
module ConsumerLaws {
  import opened Heartbeats
  import opened JobQueue
  import opened Tables
  import opened TableInvariants
  import opened Settings
  import opened Protocol
  import opened ProtocolInvariant
  import opened Flags

  // ----- one heartbeat touches one device -----

  ghost predicate OthersFramed(db: Db, db': Db, d: string) {
    && (forall e :: e != d ==> (e in db'.devices <==> e in db.devices) && Lookup(db'.states, e) == Lookup(db.states, e))
    && (forall e :: e != d && e in db.devices ==> db'.devices[e] == db.devices[e])
    && db.queue <= db'.queue
    && (forall i :: |db.queue| <= i < |db'.queue| ==> db'.queue[i].hb.device == d)
  }

  lemma EnqueuedFrames(db: Db, hb: Heartbeat, kind: Kind, now: real, mes: bool)
    ensures OthersFramed(db, EnqueuedIfActive(db, hb, kind, now, mes), hb.device)
  {
  }

  /** Processing a heartbeat leaves every other device's row, state and jobs as they were. */
  lemma BeatFramesOthers(db: Db, hb: Heartbeat, now: real, m1: bool, m2: bool)
    ensures OthersFramed(db, Processed(db, hb, now, m1, m2), hb.device)
  {
    var previous := Lookup(Loaded(db), hb.device);
    var db1 := AfterReceiving(db, previous, hb, now, m1);
    EnqueuedFrames(db, hb, Receiving, now, m1);
    var notice := StatusNotice(previous, hb);
    if notice.Some? {
      EnqueuedFrames(db1, hb, notice.value, now, m2);
    }
  }

  // ----- redelivery -----

  /** The device's settings and stored state are the same in both. */
  predicate SameView(db: Db, db': Db, d: string) {
    && d in db.devices && d in db'.devices && db'.devices[d] == db.devices[d]
    && Lookup(db'.states, d) == Lookup(db.states, d)
  }

  /** After its heartbeat, a monitored device that reported an abnormal status has no alert flag: MES refused. */
  predicate AlertRefused(db: Db, hb: Heartbeat) {
    hb.level != Up && Monitored(db, hb.device) && hb.device in db.states && !db.states[hb.device].alert
  }

  /** Processing the same heartbeat again, after anything that left the device's rows alone: a job is added
      exactly when the report is abnormal, its ALERT is not flagged (it was refused the first time), the MES
      answer is yes now, and no live job holds the key; otherwise the queue is the same. */
  lemma RedeliveryQueues(db: Db, db1: Db, hb: Heartbeat, t1: real, m1: bool, m2: bool, t2: real, n1: bool, n2: bool)
    requires TablesOk(db) && TablesOk(db1)
    requires SameView(Processed(db, hb, t1, m1, m2), db1, hb.device)
    ensures var first, second := Processed(db, hb, t1, m1, m2), Processed(db1, hb, t2, n1, n2);
            && (AlertRefused(first, hb) ==> !m2)
            && second.queue == (if AlertRefused(first, hb) && n2 then Insert(db1.queue, NewJob(hb, Alert, t2))
                                else db1.queue)
  {
    assert Deleted(db1, hb.device) ==> !Monitored(db1, hb.device);
  }

  /** And both flags are what they were, exactly unless an ALERT that was refused the first time is accepted now. */
  lemma RedeliveryKeepsFlags(db: Db, db1: Db, hb: Heartbeat, t1: real, m1: bool, m2: bool, t2: real, n1: bool, n2: bool)
    requires TablesOk(db) && TablesOk(db1)
    requires SameView(Processed(db, hb, t1, m1, m2), db1, hb.device)
    ensures var first, second := Processed(db, hb, t1, m1, m2), Processed(db1, hb, t2, n1, n2);
            (&& Stale(second, hb.device) == Stale(first, hb.device)
             && AlertSig(second, hb.device) == AlertSig(first, hb.device))
            <==> !(AlertRefused(first, hb) && n2)
  {
    BeatStates(db1, hb, t2, n1, n2);
    ProcessedKeeps(db, Lookup(Loaded(db), hb.device), hb, t1, m1, m2);
    EnqueuedIfActiveKeeps(db1, hb, Receiving, t2, n1);
  }

  // ----- a row that was read before its device was locked -----

  /** Whatever is heard next, working from the row that was read does what the stored row would have done. */
  ghost predicate OldRowIsHarmless(db: Db, read: StateRow) {
    forall hb: Heartbeat, now, m1, m2 :: hb.device == read.hb.device ==>
      ProcessedFrom(db, Some(read), hb, now, m1, m2) == Processed(db, hb, now, m1, m2)
  }

  /** The row that was read is the stored one with flags that a management change has cleared since. */
  predicate ReadBeforeClearing(db: Db, read: StateRow) {
    && read.hb.device in Loaded(db)
    && db.states[read.hb.device] == read.(stale := false, alert := false)
    && (read.alert ==> read.hb.level != Up)
  }

  function LongestKey(q: seq<Job>): nat {
    if q == [] then 0
    else
      var rest, n := LongestKey(q[..|q| - 1]), |q[|q| - 1].key|;
      if n > rest then n else rest
  }

  lemma {:induction false} LongerKeyIsFree(q: seq<Job>, key: string)
    requires |key| > LongestKey(q)
    ensures !HasLive(q, key)
    decreases |q|
  {
    if q != [] {
      LongerKeyIsFree(q[..|q| - 1], key);
      assert forall i :: 0 <= i < |q| - 1 ==> q[..|q| - 1][i] == q[i];
    }
  }

  /** A heartbeat of the device, reporting UP, whose code makes its keys new to the queue. */
  function Unheard(q: seq<Job>, device: string): Heartbeat {
    Heartbeat(device, Up, seq(LongestKey(q) + 1, _ => 'x'), "", 0, 0)
  }

  lemma UnheardIsFree(q: seq<Job>, device: string)
    ensures !HasLive(q, QueueKey(Unheard(q, device), Receiving))
  {
    LongerKeyIsFree(q, QueueKey(Unheard(q, device), Receiving));
  }

  /** With a flag still set in it, the old row shows at once on a monitored device: its repeated abnormal report
      keeps an alert that MES refuses, or any report queues a RECEIVING. */
  lemma OldFlagsShow(db: Db, read: StateRow)
    requires TablesOk(db) && ReadBeforeClearing(db, read) && Monitored(db, read.hb.device)
    requires read.stale || read.alert
    ensures !OldRowIsHarmless(db, read)
  {
    if read.alert {
      var hb := read.hb;
      assert ProcessedFrom(db, Some(read), hb, 0.0, false, false).states[hb.device].alert;
      assert !Processed(db, hb, 0.0, false, false).states[hb.device].alert;
    } else {
      var hb := Unheard(db.queue, read.hb.device);
      UnheardIsFree(db.queue, hb.device);
      assert |ProcessedFrom(db, Some(read), hb, 0.0, true, false).queue| == |db.queue| + 1;
      assert |Processed(db, hb, 0.0, true, false).queue| == |db.queue|;
    }
  }

  /** A join that pairs a locked device with a state row from before a change of that device does harm exactly if
      the device is monitored again and the old row has a flag set: a disable alone does none. */
  lemma OldRowHarmsOnlyIfMonitoredAgain(db: Db, read: StateRow)
    requires TablesOk(db) && ReadBeforeClearing(db, read)
    ensures OldRowIsHarmless(db, read) <==> !Monitored(db, read.hb.device) || (!read.stale && !read.alert)
  {
    if !Monitored(db, read.hb.device) {
      forall hb: Heartbeat, now, m1, m2 | hb.device == read.hb.device
        ensures ProcessedFrom(db, Some(read), hb, now, m1, m2) == Processed(db, hb, now, m1, m2)
      {
      }
    } else if read.stale || read.alert {
      OldFlagsShow(db, read);
    }
  }

  // ----- the in-memory map -----

  /** What is loaded when one registered, not deleted device got a new row. */
  lemma LoadedWithRow(db: Db, db': Db, d: string, row: StateRow)
    requires db'.states == db.states[d := row] && d in db'.devices && !db'.devices[d].deleted
    requires forall e :: e != d ==> (e in db'.devices <==> e in db.devices)
    requires forall e :: e != d && e in db.devices ==> db'.devices[e] == db.devices[e]
    ensures Loaded(db') == Loaded(db)[d := row]
  {
  }

  /** The map after a committed heartbeat holds what the tables would load, exactly unless the device is deleted:
      then the map has a row that is not stored, until the next reload drops it. */
  lemma MapFollowsTheTables(db: Db, hb: Heartbeat, now: real, m1: bool, m2: bool)
    requires TablesOk(db)
    ensures RememberedBeat(db, hb, now, m1, m2).1 == Loaded(Processed(db, hb, now, m1, m2))
       <==> !Deleted(db, hb.device)
  {
    var db', row := Processed(db, hb, now, m1, m2), RememberedBeat(db, hb, now, m1, m2).1[hb.device];
    BeatStates(db, hb, now, m1, m2);
    BeatFramesOthers(db, hb, now, m1, m2);
    if Deleted(db, hb.device) {
      assert hb.device !in Loaded(db');
    } else {
      LoadedWithRow(db, db', hb.device, row);
    }
  }

  /** In every reachable state a committed consumer step with its map queues and saves what the same
      transaction reading only the tables would. */
  lemma ConsumerReadsTheTables(cfg: Config, before: seq<Action>, a: Action)
    requires ValidConfig(cfg) && Run(cfg, INITIAL, before).up
    requires (a.Beat? || a.StaleScan?) && a.commit
    ensures var c := Run(cfg, INITIAL, before);
            Step(cfg, c, a).db
            == if a.Beat? then Processed(c.db, a.hb, a.now, a.mesReceiving, a.mesStatus)
               else Scanned(c.db, a.order, a.now, cfg.staleAfter, a.mes)
  {
    Reachable(cfg, before);
    var c := Run(cfg, INITIAL, before);
    if a.StaleScan? {
      ScanMatchesTables(c.db, Loaded(c.db), a.order, a.now, cfg.staleAfter, a.mes);
    }
  }
}
