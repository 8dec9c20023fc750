/**
 The notification flags over whole runs: they are exactly what the history of accepted notifications,
 stored heartbeats and changed settings has open, and that history obeys its law.
 */
module Flags {
  import opened Heartbeats
  import opened Tables
  import opened TableInvariants
  import opened Settings
  import opened Protocol
  import opened ProtocolInvariant
  import opened Delivery
  import opened Trace

  predicate Stale(db: Db, d: string) {
    d in db.states && db.states[d].stale
  }

  /** The signature the alert flag stands for. */
  function AlertSig(db: Db, d: string): Option<Signature> {
    if d in db.states && db.states[d].alert then Some(db.states[d].hb.Sig()) else None
  }

  ghost predicate FlagsMatch(db: Db, t: seq<Note>) {
    forall d: string ::
      Stale(db, d) == MissingOpen(t, d) == MissingUnanswered(t, d) && AlertSig(db, d) == AlertOpen(t, d)
  }

  /** Two histories leave the same things open for every other device. */
  ghost predicate SameForOthers(t: seq<Note>, t': seq<Note>, device: string) {
    forall d: string :: d != device ==>
      && MissingOpen(t', d) == MissingOpen(t, d)
      && MissingUnanswered(t', d) == MissingUnanswered(t, d)
      && AlertOpen(t', d) == AlertOpen(t, d)
  }

  lemma {:induction false} AlertIsAbnormal(t: seq<Note>, d: string)
    requires Lawful(t) && AlertOpen(t, d).Some?
    ensures AlertOpen(t, d).value.level != Up
    decreases |t|
  {
    var rest, n := t[..|t| - 1], t[|t| - 1];
    if !(n.device == d && n.Accepted? && n.kind == Alert) {
      AlertIsAbnormal(rest, d);
    }
  }

  /** The RECEIVING of a heartbeat, if one is accepted. */
  function ReceivingNote(db: Db, previous: Option<StateRow>, hb: Heartbeat, m1: bool): seq<Note> {
    if previous.Some? && previous.value.stale then AcceptNote(db, hb, Receiving, m1) else []
  }

  /** The ALERT or RECOVERY of a heartbeat, if one is called for and accepted. */
  function NoticeNote(db1: Db, previous: Option<StateRow>, hb: Heartbeat, m2: bool): seq<Note> {
    var notice := StatusNotice(previous, hb);
    if notice.Some? then AcceptNote(db1, hb, notice.value, m2) else []
  }

  lemma ReceivingIsLawful(db: Db, t: seq<Note>, hb: Heartbeat, m1: bool)
    requires TablesOk(db) && FlagsMatch(db, t) && Lawful(t)
    ensures var t1 := t + ReceivingNote(db, Lookup(Loaded(db), hb.device), hb, m1);
            && Lawful(t1) && SameForOthers(t, t1, hb.device)
            && AlertOpen(t1, hb.device) == AlertOpen(t, hb.device)
  {
    var a := ReceivingNote(db, Lookup(Loaded(db), hb.device), hb, m1);
    if a == [] {
      assert t + a == t;
    } else {
      assert a == [a[0]];
    }
  }

  /** Whatever the notice, the flag to be stored says whether an ALERT for the new signature is open. */
  lemma NoticeIsLawful(db1: Db, t1: seq<Note>, previous: Option<StateRow>, hb: Heartbeat, m2: bool)
    requires Lawful(t1)
    requires AlertOpen(t1, hb.device)
          == (if previous.Some? && previous.value.alert then Some(previous.value.hb.Sig()) else None)
    ensures var t2 := t1 + NoticeNote(db1, previous, hb, m2);
            && Lawful(t2) && SameForOthers(t1, t2, hb.device)
            && (AlertFlag(previous, hb, Accepts(db1, hb.device, m2))
                <==> AlertOpen(t2, hb.device) == Some(hb.Sig()))
  {
    var b := NoticeNote(db1, previous, hb, m2);
    if AlertOpen(t1, hb.device).Some? {
      AlertIsAbnormal(t1, hb.device);
    }
    if b == [] {
      assert t1 + b == t1;
    } else {
      assert b == [b[0]];
    }
  }

  /** Saving a heartbeat replaces its device's row, unless the device is deleted. */
  lemma SavedStates(db: Db, hb: Heartbeat, now: real, alert: bool)
    requires alert ==> Monitored(Registered(db, hb.device), hb.device)
    ensures Saved(db, hb, now, false, alert).states
         == if Deleted(db, hb.device) then db.states else db.states[hb.device := StateRow(hb, now, false, alert)]
  {
  }

  lemma BeatStates(db: Db, hb: Heartbeat, now: real, m1: bool, m2: bool)
    requires TablesOk(db)
    ensures var previous := Lookup(Loaded(db), hb.device);
            var db1 := AfterReceiving(db, previous, hb, now, m1);
            var flag := AlertFlag(previous, hb, Accepts(db1, hb.device, m2));
            Processed(db, hb, now, m1, m2).states
            == if Deleted(db, hb.device) then db.states else db.states[hb.device := StateRow(hb, now, false, flag)]
  {
    var previous := Lookup(Loaded(db), hb.device);
    EnqueuedIfActiveKeeps(db, hb, Receiving, now, m1);
    var db1 := AfterReceiving(db, previous, hb, now, m1);
    var notice := StatusNotice(previous, hb);
    if notice.Some? {
      EnqueuedIfActiveKeeps(db1, hb, notice.value, now, m2);
    }
    var db2 := AfterNotice(db1, notice, hb, now, m2);
    assert Deleted(db2, hb.device) == Deleted(db, hb.device);
    SavedStates(db2, hb, now, AlertFlag(previous, hb, Accepts(db1, hb.device, m2)));
  }

  lemma BeatNotesSplit(db: Db, t: seq<Note>, hb: Heartbeat, now: real, m1: bool, m2: bool)
    requires TablesOk(db)
    ensures var previous := Lookup(Loaded(db), hb.device);
            var db1 := AfterReceiving(db, previous, hb, now, m1);
            t + BeatNotes(db, hb, now, m1, m2)
            == if Deleted(db, hb.device) then t
               else t + ReceivingNote(db, previous, hb, m1) + NoticeNote(db1, previous, hb, m2)
                    + [Heard(hb.device, hb.Sig())]
  {
    if Deleted(db, hb.device) {
      assert BeatNotes(db, hb, now, m1, m2) == [];
    }
  }

  lemma BeatKeepsFlags(db: Db, t: seq<Note>, hb: Heartbeat, now: real, m1: bool, m2: bool)
    requires TablesOk(db) && FlagsMatch(db, t) && Lawful(t)
    ensures FlagsMatch(Processed(db, hb, now, m1, m2), t + BeatNotes(db, hb, now, m1, m2))
    ensures Lawful(t + BeatNotes(db, hb, now, m1, m2))
  {
    var d := hb.device;
    var db' := Processed(db, hb, now, m1, m2);
    var previous := Lookup(Loaded(db), d);
    var db1 := AfterReceiving(db, previous, hb, now, m1);
    var a, b := ReceivingNote(db, previous, hb, m1), NoticeNote(db1, previous, hb, m2);
    var t2 := t + a + b;
    BeatStates(db, hb, now, m1, m2);
    BeatNotesSplit(db, t, hb, now, m1, m2);
    ReceivingIsLawful(db, t, hb, m1);
    NoticeIsLawful(db1, t + a, previous, hb, m2);
    if Deleted(db, d) {
    } else {
      StoredKeepsFlags(db, db', t, t2, hb, now, AlertFlag(previous, hb, Accepts(db1, hb.device, m2)));
    }
  }

  /** Storing the heartbeat closes what the notifications before it left open, up to a repeated signature. */
  lemma StoredKeepsFlags(db: Db, db': Db, t: seq<Note>, t2: seq<Note>, hb: Heartbeat, now: real, alert: bool)
    requires FlagsMatch(db, t) && Lawful(t2) && SameForOthers(t, t2, hb.device)
    requires alert <==> AlertOpen(t2, hb.device) == Some(hb.Sig())
    requires db'.states == db.states[hb.device := StateRow(hb, now, false, alert)]
    ensures FlagsMatch(db', t2 + [Heard(hb.device, hb.Sig())]) && Lawful(t2 + [Heard(hb.device, hb.Sig())])
  {
    var d, n := hb.device, Heard(hb.device, hb.Sig());
    var t3 := t2 + [n];
    forall e: string
      ensures Stale(db', e) == MissingOpen(t3, e) == MissingUnanswered(t3, e) && AlertSig(db', e) == AlertOpen(t3, e)
    {
      if e != d {
        assert Stale(db, e) == MissingOpen(t, e) == MissingUnanswered(t, e) && AlertSig(db, e) == AlertOpen(t, e);
      }
    }
  }

  /** Marking a device whose MISSING was accepted keeps its flags in step with the history. */
  lemma MarkingKeepsFlags(db: Db, db': Db, t: seq<Note>, d: string)
    requires FlagsMatch(db, t) && Lawful(t) && d in db.states && !db.states[d].stale
    requires db'.states == db.states[d := db.states[d].(stale := true)]
    ensures var t' := t + [Accepted(d, Missing, db.states[d].hb.Sig())]; FlagsMatch(db', t') && Lawful(t')
  {
    var n := Accepted(d, Missing, db.states[d].hb.Sig());
    assert Stale(db, d) == MissingOpen(t, d) == MissingUnanswered(t, d);
    forall e: string
      ensures Stale(db', e) == MissingOpen(t + [n], e) == MissingUnanswered(t + [n], e)
      ensures AlertSig(db', e) == AlertOpen(t + [n], e)
    {
      assert Stale(db, e) == MissingOpen(t, e) == MissingUnanswered(t, e) && AlertSig(db, e) == AlertOpen(t, e);
    }
  }

  lemma ScanOneKeepsFlags(db: Db, t: seq<Note>, d: string, now: real, threshold: real, mes: set<string>)
    requires TablesOk(db) && FlagsMatch(db, t) && Lawful(t)
    ensures FlagsMatch(ScannedOne(db, d, now, threshold, mes), t + ScanNote(db, d, now, threshold, mes))
    ensures Lawful(t + ScanNote(db, d, now, threshold, mes))
  {
    var row := Lookup(Loaded(db), d);
    if row.Some? && Overdue(row.value, now, threshold) && Accepts(db, d, d in mes) {
      EnqueuedKeeps(db, row.value.hb, Missing, now);
      MarkingKeepsFlags(db, ScannedOne(db, d, now, threshold, mes), t, d);
    } else {
      assert t + ScanNote(db, d, now, threshold, mes) == t;
    }
  }

  lemma {:induction false} ScanKeepsFlags(db: Db, t: seq<Note>, order: seq<string>, now: real, threshold: real,
                                          mes: set<string>)
    requires TablesOk(db) && FlagsMatch(db, t) && Lawful(t)
    ensures FlagsMatch(Scanned(db, order, now, threshold, mes), t + ScanNotes(db, order, now, threshold, mes))
    ensures Lawful(t + ScanNotes(db, order, now, threshold, mes))
    decreases |order|
  {
    if order == [] {
      assert t + ScanNotes(db, order, now, threshold, mes) == t;
    } else {
      var db1 := ScannedOne(db, order[0], now, threshold, mes);
      var n := ScanNote(db, order[0], now, threshold, mes);
      ScannedOneKeeps(db, order[0], now, threshold, mes);
      ScanOneKeepsFlags(db, t, order[0], now, threshold, mes);
      ScanKeepsFlags(db1, t + n, order[1..], now, threshold, mes);
      assert t + (n + ScanNotes(db1, order[1..], now, threshold, mes))
          == t + n + ScanNotes(db1, order[1..], now, threshold, mes);
    }
  }

  lemma ManageStates(c: Core, r: Request)
    ensures var c' := ManageStep(c, r);
            if Effective(c.db, c'.db, r.device)
            then c'.db.states == FlagsCleared(c.db.states, r.device) && c'.trace == c.trace + [Changed(r.device)]
            else c'.db.states == c.db.states && c'.trace == c.trace
  {
  }

  /** An effective change clears the flags and closes whatever was open. */
  lemma ChangeKeepsFlags(db: Db, db': Db, t: seq<Note>, d: string)
    requires FlagsMatch(db, t) && Lawful(t) && db'.states == FlagsCleared(db.states, d)
    ensures FlagsMatch(db', t + [Changed(d)]) && Lawful(t + [Changed(d)])
  {
    var t' := t + [Changed(d)];
    forall e: string
      ensures Stale(db', e) == MissingOpen(t', e) == MissingUnanswered(t', e) && AlertSig(db', e) == AlertOpen(t', e)
    {
      assert Stale(db, e) == MissingOpen(t, e) == MissingUnanswered(t, e) && AlertSig(db, e) == AlertOpen(t, e);
    }
  }

  lemma ManageKeepsFlags(c: Core, r: Request)
    requires FlagsMatch(c.db, c.trace) && Lawful(c.trace)
    ensures FlagsMatch(ManageStep(c, r).db, ManageStep(c, r).trace) && Lawful(ManageStep(c, r).trace)
  {
    var c' := ManageStep(c, r);
    ManageStates(c, r);
    if Effective(c.db, c'.db, r.device) {
      ChangeKeepsFlags(c.db, c'.db, c.trace, r.device);
    }
  }

  lemma StepKeepsFlags(cfg: Config, c: Core, a: Action)
    requires Inv(cfg, c) && FlagsMatch(c.db, c.trace) && Lawful(c.trace)
    ensures FlagsMatch(Step(cfg, c, a).db, Step(cfg, c, a).trace) && Lawful(Step(cfg, c, a).trace)
  {
    match a
    case Beat(hb, now, m1, m2, _) =>
      BeatKeepsFlags(c.db, c.trace, hb, now, m1, m2);
    case StaleScan(order, now, mes, _) =>
      ScanMatchesTables(c.db, Loaded(c.db), order, now, cfg.staleAfter, mes);
      ScanKeepsFlags(c.db, c.trace, order, now, cfg.staleAfter, mes);
    case Manage(r) => ManageKeepsFlags(c, r);
    case _ =>
      WorkerStepFrame(cfg, c, a);
  }

  lemma {:induction false} RunKeepsFlags(cfg: Config, c: Core, actions: seq<Action>)
    requires ValidConfig(cfg) && Inv(cfg, c) && FlagsMatch(c.db, c.trace) && Lawful(c.trace)
    ensures FlagsMatch(Run(cfg, c, actions).db, Run(cfg, c, actions).trace) && Lawful(Run(cfg, c, actions).trace)
    decreases |actions|
  {
    if actions != [] {
      StepKeeps(cfg, c, actions[0]);
      StepKeepsFlags(cfg, c, actions[0]);
      RunKeepsFlags(cfg, Step(cfg, c, actions[0]), actions[1..]);
    }
  }

  /** In every reachable state the flags are exactly what the history has open, and the history is lawful. */
  lemma FlagsFollowTheHistory(cfg: Config, actions: seq<Action>)
    requires ValidConfig(cfg)
    ensures var c := Run(cfg, INITIAL, actions); FlagsMatch(c.db, c.trace) && Lawful(c.trace)
  {
    RunKeepsFlags(cfg, INITIAL, actions);
  }

  /** On every prefix of every run, per device, openings cover closings and the flags that are set. */
  lemma NotificationsAreBalanced(cfg: Config, actions: seq<Action>, d: string)
    requires ValidConfig(cfg)
    ensures var c := Run(cfg, INITIAL, actions);
            && CountOf(c.trace, d, Missing) >= CountOf(c.trace, d, Receiving) + (if Stale(c.db, d) then 1 else 0)
            && CountOf(c.trace, d, Alert) >= CountOf(c.trace, d, Recovery) + (if AlertSig(c.db, d).Some? then 1 else 0)
  {
    FlagsFollowTheHistory(cfg, actions);
    var c := Run(cfg, INITIAL, actions);
    OpeningsCoverClosings(c.trace, d);
    assert Stale(c.db, d) == MissingOpen(c.trace, d) && AlertSig(c.db, d) == AlertOpen(c.trace, d);
  }

  /** Every accepted RECOVERY of every run follows an accepted ALERT for the signature stored in between. */
  lemma RecoveriesFollowAlerts(cfg: Config, actions: seq<Action>, k: nat) returns (j: nat)
    requires ValidConfig(cfg)
    requires var t := Run(cfg, INITIAL, actions).trace; k < |t| && t[k].Accepted? && t[k].kind == Recovery
    ensures var t := Run(cfg, INITIAL, actions).trace;
            && j < k && t[j].Accepted? && t[j].device == t[k].device && t[j].kind == Alert && t[j].sig.level != Up
            && (forall i :: j < i < k && t[i].device == t[k].device ==>
                  t[i] == Heard(t[k].device, t[j].sig)
                  || (t[i].Accepted? && (t[i].kind == Missing || t[i].kind == Receiving)))
  {
    FlagsFollowTheHistory(cfg, actions);
    j := RecoveryFollowsAlert(Run(cfg, INITIAL, actions).trace, k);
  }

  /** Between two stored heartbeats with no changed setting, a device gets at most one MISSING. */
  lemma MissingOncePerSilence(cfg: Config, actions: seq<Action>, j: nat, k: nat) returns (i: nat)
    requires ValidConfig(cfg)
    requires var t := Run(cfg, INITIAL, actions).trace;
             && j < k < |t| && t[j].Accepted? && t[j].kind == Missing
             && t[k].Accepted? && t[k].kind == Missing && t[k].device == t[j].device
    ensures var t := Run(cfg, INITIAL, actions).trace;
            j < i < k && t[i].device == t[j].device && (t[i].Heard? || t[i].Changed?)
  {
    FlagsFollowTheHistory(cfg, actions);
    i := MissingIsNotRepeated(Run(cfg, INITIAL, actions).trace, j, k);
  }
}
