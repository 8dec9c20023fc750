/**
 The consumer in the source's own form: an object with the device map and the health fields, over the
 repository and a Kafka consumer. Each method is proved against the functions of the tables and of the
 gate, and each iteration of the loop against the transition system.
 */
module Notifier {
  import opened Heartbeats
  import opened Tables
  import opened TableInvariants
  import opened Settings
  import opened Protocol
  import opened ProtocolInvariant
  import opened Reports
  import G = Gate
  import F = Feed
  import opened Postgres

  datatype BlockReason = KafkaUnhealthy | CheckExpired | NoTargetsYet | CatchingUp

  class HeartbeatNotifier {
    const cfg: Config
    const repo: PostgresRepository
    /** The device map, and the order in which its keys were put in. */
    var devices: map<string, StateRow>
    var order: seq<string>
    var healthy: bool
    var catchupTargets: Option<map<int, int>>
    var assignedKeys: set<int>
    var lastCheck: real
    var lastSuccess: real

    constructor (cfg: Config, repo: PostgresRepository)
      ensures this.cfg == cfg && this.repo == repo
      ensures Health() == G.UNCHECKED && devices == map[] && order == []
    {
      this.cfg := cfg;
      this.repo := repo;
      devices, order := map[], [];
      healthy, catchupTargets, assignedKeys, lastCheck, lastSuccess := false, None, {}, 0.0, 0.0;
    }

    function Health(): G.Health
      reads this
    {
      G.Health(healthy, catchupTargets, assignedKeys, lastCheck, lastSuccess)
    }

    /** The targets are for assigned partitions, so every one of them is found in a complete survey. */
    ghost predicate TargetsAssigned()
      reads this
    {
      catchupTargets.Some? ==> healthy && catchupTargets.value.Keys <= assignedKeys
    }

    // ----- one heartbeat -----

    /** The map is rebuilt from the tables. */
    method ReloadManagedStates()
      requires repo.db.Valid()
      modifies this`devices, this`order, repo, repo.db
      ensures repo.current == old(repo.current) && (repo.current ==> repo.before == old(repo.before))
      ensures repo.db.Valid() && repo.db.Tables() == old(repo.db.Tables())
      ensures devices == Loaded(repo.db.Tables()) && LoadOrder(repo.db.Tables(), order)
    {
      var rows := repo.LoadAll();
      var states, seen := map[], [];
      var i := 0;
      while i < |rows|
        invariant 0 <= i <= |rows| && |seen| == i
        invariant forall k :: 0 <= k < i ==> seen[k] == rows[k].hb.device
        invariant forall d :: d in states <==> d in seen
        invariant forall k :: 0 <= k < i ==> states[seen[k]] == rows[k]
      {
        states, seen := states[rows[i].hb.device := rows[i]], seen + [rows[i].hb.device];
        i := i + 1;
      }
      LoadedInOrder(repo.db.Tables(), rows, states, seen);
      devices, order := states, seen;
    }

    static lemma LoadedInOrder(db: Db, rows: seq<StateRow>, states: map<string, StateRow>, seen: seq<string>)
      requires forall d :: d in db.states ==> db.states[d].hb.device == d
      requires forall i, j :: 0 <= i < j < |rows| ==> rows[i].hb.device != rows[j].hb.device
      requires forall row :: row in rows <==> Lookup(Loaded(db), row.hb.device) == Some(row)
      requires |seen| == |rows| && forall k :: 0 <= k < |rows| ==> seen[k] == rows[k].hb.device
      requires forall d :: d in states <==> d in seen
      requires forall k :: 0 <= k < |seen| ==> states[seen[k]] == rows[k]
      ensures states == Loaded(db) && LoadOrder(db, seen)
    {
      forall d | d in Loaded(db) ensures d in seen {
        var k :| 0 <= k < |rows| && rows[k] == db.states[d];
        assert seen[k] == d;
      }
      forall d | d in seen ensures d in Loaded(db) && states[d] == Loaded(db)[d] {
        var k :| 0 <= k < |seen| && seen[k] == d;
        assert rows[k] in rows;
      }
      forall i, j | 0 <= i < j < |seen| ensures seen[i] != seen[j] {
        assert rows[i].hb.device != rows[j].hb.device;
      }
    }

    /** True when the notification is wanted, also if its key was taken and no row was added. */
    method EnqueueIfEquipmentActive(hb: Heartbeat, kind: Kind, now: real, mes: bool) returns (accepted: bool)
      modifies repo, repo.db
      ensures repo.current == old(repo.current) && (repo.current ==> repo.before == old(repo.before))
      ensures repo.db.Tables() == EnqueuedIfActive(old(repo.db.Tables()), hb, kind, now, mes)
      ensures accepted == Accepts(old(repo.db.Tables()), hb.device, mes)
      ensures var known := old(repo.db.devices);
              accepted <==>
                mes && (hb.device in known ==> known[hb.device].enabled && !known[hb.device].deleted)
    {
      var allowed := repo.MonitoringAllowed(hb.device);
      if !allowed || !mes {
        return false;
      }
      var _ := repo.Enqueue(hb, kind, now);
      accepted := true;
    }

    /** An abnormal report that is new or was not accepted calls for an ALERT, the first UP after an accepted one
        for a RECOVERY. */
    method Notification(previous: Option<StateRow>, hb: Heartbeat) returns (kind: Option<Kind>)
      ensures kind == StatusNotice(previous, hb)
      ensures kind == Some(Alert) <==>
                && hb.level != Up
                && (previous.None? || previous.value.hb.level != hb.level || previous.value.hb.code != hb.code
                    || !previous.value.alert)
      ensures kind == Some(Recovery) <==>
                hb.level == Up && previous.Some? && previous.value.hb.level != Up && previous.value.alert
      ensures kind == None || kind == Some(Alert) || kind == Some(Recovery)
    {
      kind := None;
      if hb.level != Up && (previous.None? || previous.value.hb.Sig() != hb.Sig() || !previous.value.alert) {
        kind := Some(Alert);
      } else if previous.Some? && previous.value.hb.level != Up && hb.level == Up && previous.value.alert {
        kind := Some(Recovery);
      }
    }

    /** The notifications a heartbeat calls for, and the alert flag to store with it. */
    method Announce(previous: Option<StateRow>, hb: Heartbeat, now: real, mesReceiving: bool, mesStatus: bool)
      returns (alert: bool)
      requires repo.db.Valid() && repo.current
      modifies repo, repo.db
      ensures repo.db.Valid() && repo.current && repo.before == old(repo.before)
      ensures var db1 := AfterReceiving(old(repo.db.Tables()), previous, hb, now, mesReceiving);
              && repo.db.Tables() == AfterNotice(db1, StatusNotice(previous, hb), hb, now, mesStatus)
              && alert == AlertFlag(previous, hb, Accepts(db1, hb.device, mesStatus))
    {
      alert := previous.Some? && previous.value.alert;
      if previous.Some? && previous.value.stale {
        var _ := EnqueueIfEquipmentActive(hb, Receiving, now, mesReceiving);
      }
      var notification := Notification(previous, hb);
      if notification.Some? {
        var allowed := EnqueueIfEquipmentActive(hb, notification.value, now, mesStatus);
        if notification.value == Alert {
          alert := allowed;
        }
      }
      if hb.level == Up {
        alert := false;
      }
    }

    /** One message inside the caller's transaction: an invalid one is skipped. */
    method ProcessState(message: F.Message, now: real, mesReceiving: bool, mesStatus: bool)
      requires repo.db.Valid() && repo.current
      modifies this`devices, this`order, repo, repo.db
      ensures repo.db.Valid() && repo.current && repo.before == old(repo.before)
      ensures match message
              case Invalid => repo.db.Tables() == old(repo.db.Tables()) && devices == old(devices)
              case Valid(hb) =>
                (repo.db.Tables(), devices)
                == RememberedBeat(old(repo.db.Tables()), hb, now, mesReceiving, mesStatus)
    {
      if message.Invalid? {
        return;
      }
      var hb := message.hb;
      ReloadManagedStates();
      var previous := Lookup(devices, hb.device);
      var alert := Announce(previous, hb, now, mesReceiving, mesStatus);
      repo.Save(hb, now, false, alert);
      if hb.device !in devices {
        order := order + [hb.device];
      }
      devices := devices[hb.device := StateRow(hb, now, false, alert)];
    }

    /** One message in its own transaction; the caller commits the Kafka offset after it. */
    method Process(message: F.Message, now: real, mesReceiving: bool, mesStatus: bool, commit: Outcome)
      returns (raised: bool)
      requires repo.db.Valid() && !repo.current
      modifies this`devices, this`order, repo, repo.db
      ensures repo.db.Valid() && !repo.current && raised == commit.Broken?
      ensures repo.db.Tables()
           == if message.Invalid? || commit == Broken(false) then old(repo.db.Tables())
              else Processed(old(repo.db.Tables()), message.hb, now, mesReceiving, mesStatus)
      ensures message.Valid? && commit != Broken(false)
              && TablesOk(old(repo.db.Tables())) && AlertsAreAbnormal(old(repo.db.Tables())) ==>
                repo.db.Tables()
                == BeatOutcome(old(repo.db.Tables()), message.hb, now, mesReceiving, mesStatus)
    {
      if message.Valid? && TablesOk(repo.db.Tables()) && AlertsAreAbnormal(repo.db.Tables()) {
        BeatTables(repo.db.Tables(), message.hb, now, mesReceiving, mesStatus);
      }
      var outermost := repo.Begin();
      ProcessState(message, now, mesReceiving, mesStatus);
      raised := repo.Commit(outermost, commit);
    }

    // ----- the stale check -----

    /** Nothing keeps the check back exactly when the gate is open. */
    method StaleBlockReason(now: real) returns (reason: Option<BlockReason>)
      ensures reason.None? <==> G.Open(cfg, Health(), now)
      ensures reason == Some(KafkaUnhealthy) <==> !healthy
      ensures reason == Some(CheckExpired) <==> healthy && now - lastSuccess > cfg.healthMaxAge
      ensures reason == Some(NoTargetsYet)
         <==> healthy && now - lastSuccess <= cfg.healthMaxAge && catchupTargets.None?
      ensures reason == Some(CatchingUp)
         <==> healthy && now - lastSuccess <= cfg.healthMaxAge && catchupTargets.Some? && catchupTargets.value != map[]
    {
      if !healthy {
        return Some(KafkaUnhealthy);
      }
      if now - lastSuccess > cfg.healthMaxAge {
        return Some(CheckExpired);
      }
      if catchupTargets.None? {
        return Some(NoTargetsYet);
      }
      if catchupTargets.value != map[] {
        return Some(CatchingUp);
      }
      reason := None;
    }

    /** The walk over the map: a device whose notification is not wanted is skipped, the others are marked. */
    method NotifyStaleStates(clock: real, now: real, mes: set<string>)
      requires repo.db.Valid() && repo.current && forall d :: d in order ==> d in devices && devices[d].hb.device == d
      modifies this`devices, repo, repo.db
      ensures repo.db.Valid() && repo.current && repo.before == old(repo.before)
      ensures (repo.db.Tables(), devices)
           == if G.Open(cfg, Health(), clock)
              then RememberedScan(old(repo.db.Tables()), old(devices), order, now, cfg.staleAfter, mes)
              else (old(repo.db.Tables()), old(devices))
    {
      var blocked := StaleBlockReason(clock);
      if blocked.Some? {
        return;
      }
      var i := 0;
      while i < |order|
        invariant 0 <= i <= |order|
        invariant repo.db.Valid() && repo.current && repo.before == old(repo.before)
        invariant forall d :: d in order ==> d in devices && devices[d].hb.device == d
        invariant RememberedScan(repo.db.Tables(), devices, order[i..], now, cfg.staleAfter, mes)
               == RememberedScan(old(repo.db.Tables()), old(devices), order, now, cfg.staleAfter, mes)
      {
        var d := order[i];
        var row := devices[d];
        assert order[i..][0] == d && order[i..][1..] == order[i + 1..];
        i := i + 1;
        if row.stale || now - row.lastSeen < cfg.staleAfter {
          continue;
        }
        var accepted := EnqueueIfEquipmentActive(row.hb, Missing, now, d in mes);
        if !accepted {
          continue;
        }
        repo.MarkStale(row.hb.device);
        devices := devices[d := row.(stale := true)];
      }
    }

    /** The check in its own transaction, over the reloaded map: what it does is read off the tables. */
    method NotifyStaleDevices(clock: real, now: real, mes: set<string>, commit: Outcome) returns (raised: bool)
      requires !repo.current && repo.db.Valid() && TablesOk(repo.db.Tables())
      modifies this`devices, this`order, repo, repo.db
      ensures !repo.current && repo.db.Valid() && raised == commit.Broken?
      ensures LoadOrder(old(repo.db.Tables()), order)
      ensures repo.db.Tables()
           == if G.Open(cfg, Health(), clock) && commit != Broken(false)
              then Scanned(old(repo.db.Tables()), order, now, cfg.staleAfter, mes) else old(repo.db.Tables())
      ensures healthy && clock - lastSuccess <= cfg.healthMaxAge && catchupTargets == Some(map[])
              && commit != Broken(false) ==>
                repo.db.Tables() == ScanOutcome(old(repo.db.Tables()), order, now, cfg.staleAfter, mes)
      ensures !(healthy && clock - lastSuccess <= cfg.healthMaxAge && catchupTargets == Some(map[])) ==>
                repo.db.Tables() == old(repo.db.Tables())
    {
      var outermost := repo.Begin();
      ReloadManagedStates();
      ScanMatchesTables(repo.db.Tables(), devices, order, now, cfg.staleAfter, mes);
      ScanMeetsItsDuties(repo.db.Tables(), order, now, cfg.staleAfter, mes);
      NotifyStaleStates(clock, now, mes);
      raised := repo.Commit(outermost, commit);
    }

    // ----- the health of the Kafka connection -----

    method MarkKafkaUnhealthy()
      modifies this`healthy, this`catchupTargets
      ensures Health() == G.MarkedUnhealthy(old(Health())) && TargetsAssigned()
      ensures !healthy && catchupTargets == None
    {
      healthy, catchupTargets := false, None;
    }

    method OnAssignmentChange()
      modifies this`healthy, this`catchupTargets, this`lastCheck
      ensures Health() == G.Reassigned(old(Health())) && TargetsAssigned()
      ensures !healthy && catchupTargets == None && lastCheck == 0.0
    {
      MarkKafkaUnhealthy();
      lastCheck := 0.0;
    }

    /** The highs and effective offsets of all positions, or nothing once one of them cannot be resolved. */
    method Resolve(survey: G.Survey) returns (view: Option<G.View>)
      ensures view == G.ViewUpTo(cfg.reset, survey, |survey.positions|)
      ensures view.Some? ==> view.value.offsets.Keys == view.value.highs.Keys
    {
      var highs: map<int, int>, offsets: map<int, int> := map[], map[];
      var i := 0;
      while i < |survey.positions|
        invariant 0 <= i <= |survey.positions|
        invariant G.ViewUpTo(cfg.reset, survey, i) == Some(G.View(highs, offsets))
        invariant offsets.Keys == highs.Keys
      {
        var position := survey.positions[i];
        var p := position.partition;
        if p !in survey.low || p !in survey.high {
          ViewStaysNone(survey, i + 1);
          return None;
        }
        var offset := position.offset;
        if offset.None? || offset.value < 0 {
          offset := G.At(survey.committed, p);
        }
        if offset.None? || offset.value < 0 {
          match cfg.reset {
            case Latest => offset := Some(survey.high[p]);
            case Earliest => offset := Some(survey.low[p]);
            case Other =>
              ViewStaysNone(survey, i + 1);
              return None;
          }
        }
        highs, offsets := highs[p := survey.high[p]], offsets[p := offset.value];
        i := i + 1;
      }
      view := Some(G.View(highs, offsets));
    }

    lemma {:induction false} ViewStaysNone(survey: G.Survey, n: nat)
      requires n <= |survey.positions| && G.ViewUpTo(cfg.reset, survey, n).None?
      ensures G.ViewUpTo(cfg.reset, survey, |survey.positions|).None?
      decreases |survey.positions| - n
    {
      if n < |survey.positions| {
        ViewStaysNone(survey, n + 1);
      }
    }

    /** No survey stands for broker calls that failed. */
    method RefreshKafkaHealth(now: real, force: bool, survey: Option<G.Survey>)
      requires TargetsAssigned()
      modifies this`healthy, this`catchupTargets, this`assignedKeys, this`lastCheck, this`lastSuccess
      ensures Health() == G.Refreshed(cfg, old(Health()), now, force, G.ViewOf(cfg.reset, survey)) && TargetsAssigned()
      ensures !force && now - old(lastCheck) < cfg.checkInterval ==> Health() == old(Health())
      ensures force || now - old(lastCheck) >= cfg.checkInterval ==>
                var view := G.ViewOf(cfg.reset, survey);
                && lastCheck == now && healthy == view.Some?
                && (view.None? ==>
                      catchupTargets == None && lastSuccess == old(lastSuccess) && assignedKeys == old(assignedKeys))
                && (view.Some? ==>
                      && lastSuccess == now && assignedKeys == view.value.highs.Keys && catchupTargets.Some?
                      && var anew := !old(healthy) || now - old(lastSuccess) > cfg.healthMaxAge
                                     || view.value.highs.Keys != old(assignedKeys) || old(catchupTargets).None?;
                         var targets := if anew then view.value.highs else old(catchupTargets).value;
                         catchupTargets.value
                         == map p | p in targets && p in view.value.offsets
                                    && view.value.offsets[p] < targets[p] :: targets[p])
    {
      if !force && now - lastCheck < cfg.checkInterval {
        return;
      }
      lastCheck := now;
      var view: Option<G.View> := None;
      if survey.Some? && |survey.value.positions| > 0 {
        view := Resolve(survey.value);
      }
      if view.None? {
        MarkKafkaUnhealthy();
        return;
      }
      var highs, offsets := view.value.highs, view.value.offsets;
      var expired := now - lastSuccess > cfg.healthMaxAge;
      if !healthy || expired || highs.Keys != assignedKeys {
        catchupTargets := None;
      }
      assignedKeys, healthy, lastSuccess := highs.Keys, true, now;
      if catchupTargets.None? {
        catchupTargets := Some(highs);
      }
      var targets := catchupTargets.value;
      catchupTargets := Some(map k | k in targets && offsets[k] < targets[k] :: targets[k]);
      assert catchupTargets.value == G.Pruned(targets, offsets);
    }
  }
}
