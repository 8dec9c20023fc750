/**
 What a history of accepted notifications, stored heartbeats and changed settings can look like.
 The two flags of a device are a function of that history, and the history obeys a law that says
 which notification may follow which.
 */
module Trace {
  import opened Heartbeats
  import opened Protocol

  /** A MISSING was accepted and since then no RECEIVING, no stored heartbeat and no changed setting. */
  function MissingOpen(t: seq<Note>, d: string): bool {
    if t == [] then false
    else
      var rest, n := t[..|t| - 1], t[|t| - 1];
      if n.device != d then MissingOpen(rest, d)
      else match n
        case Accepted(_, kind, _) => kind == Missing || (kind != Receiving && MissingOpen(rest, d))
        case Heard(_, _) => false
        case Changed(_) => false
  }

  /** A MISSING was accepted and since then the device was neither heard nor changed. */
  function MissingUnanswered(t: seq<Note>, d: string): bool {
    if t == [] then false
    else
      var rest, n := t[..|t| - 1], t[|t| - 1];
      if n.device != d then MissingUnanswered(rest, d)
      else n.Accepted? && (n.kind == Missing || MissingUnanswered(rest, d))
  }

  /** The signature of an accepted ALERT since which only heartbeats with that signature were stored,
      no RECOVERY was accepted and no setting changed. */
  function AlertOpen(t: seq<Note>, d: string): Option<Signature> {
    if t == [] then None
    else
      var rest, n := t[..|t| - 1], t[|t| - 1];
      if n.device != d then AlertOpen(rest, d)
      else match n
        case Accepted(_, kind, sig) =>
          if kind == Alert then Some(sig) else if kind == Recovery then None else AlertOpen(rest, d)
        case Heard(_, sig) => if AlertOpen(rest, d) == Some(sig) then Some(sig) else None
        case Changed(_) => None
  }

  /** Which note may come next: no second MISSING or ALERT for an open incident, no RECEIVING without an
      open MISSING, no RECOVERY without an open ALERT. */
  predicate Permits(t: seq<Note>, n: Note) {
    match n
    case Accepted(d, Missing, _) => !MissingOpen(t, d) && !MissingUnanswered(t, d)
    case Accepted(d, Receiving, _) => MissingOpen(t, d)
    case Accepted(d, Alert, sig) => sig.level != Up && AlertOpen(t, d) != Some(sig)
    case Accepted(d, Recovery, sig) =>
      sig.level == Up && AlertOpen(t, d).Some? && AlertOpen(t, d).value.level != Up
    case _ => true
  }

  predicate Lawful(t: seq<Note>) {
    t == [] || (Lawful(t[..|t| - 1]) && Permits(t[..|t| - 1], t[|t| - 1]))
  }

  lemma {:induction false} LawfulPrefix(t: seq<Note>, k: nat)
    requires Lawful(t) && k <= |t|
    ensures Lawful(t[..k])
    decreases |t|
  {
    if k == |t| {
      assert t[..k] == t;
    } else {
      LawfulPrefix(t[..|t| - 1], k);
      assert t[..|t| - 1][..k] == t[..k];
    }
  }

  /** An open ALERT is a past ALERT after which the device did nothing but repeat its signature. */
  lemma {:induction false} OpenAlertWasAccepted(t: seq<Note>, d: string) returns (j: nat)
    requires AlertOpen(t, d).Some?
    ensures j < |t| && t[j] == Accepted(d, Alert, AlertOpen(t, d).value)
    ensures forall i :: j < i < |t| && t[i].device == d ==>
              t[i] == Heard(d, AlertOpen(t, d).value)
              || (t[i].Accepted? && (t[i].kind == Missing || t[i].kind == Receiving))
    decreases |t|
  {
    var rest, n := t[..|t| - 1], t[|t| - 1];
    if n.device == d && n.Accepted? && n.kind == Alert {
      j := |t| - 1;
    } else {
      j := OpenAlertWasAccepted(rest, d);
    }
  }

  /** A MISSING stays unanswered until a stored heartbeat or a changed setting. */
  lemma {:induction false} MissingStaysUnanswered(t: seq<Note>, d: string, j: nat)
    requires j < |t| && t[j].Accepted? && t[j].device == d && t[j].kind == Missing
    requires forall i :: j < i < |t| && t[i].device == d ==> t[i].Accepted?
    ensures MissingUnanswered(t, d)
    decreases |t|
  {
    if j < |t| - 1 {
      MissingStaysUnanswered(t[..|t| - 1], d, j);
    }
  }

  /** A RECOVERY follows an ALERT for the signature that was stored when it was accepted, not UP, with no
      UP heartbeat, no other signature, no further ALERT or RECOVERY and no changed setting in between. */
  lemma RecoveryFollowsAlert(t: seq<Note>, k: nat) returns (j: nat)
    requires Lawful(t) && k < |t| && t[k].Accepted? && t[k].kind == Recovery
    ensures j < k && t[j].Accepted? && t[j].device == t[k].device && t[j].kind == Alert
    ensures t[j].sig.level != Up
    ensures forall i :: j < i < k && t[i].device == t[k].device ==>
              t[i] == Heard(t[k].device, t[j].sig)
              || (t[i].Accepted? && (t[i].kind == Missing || t[i].kind == Receiving))
  {
    LawfulPrefix(t, k + 1);
    assert t[..k + 1][..k] == t[..k] && t[..k + 1][k] == t[k];
    j := OpenAlertWasAccepted(t[..k], t[k].device);
  }

  /** Two MISSING of a device are separated by a stored heartbeat or a changed setting. */
  lemma MissingIsNotRepeated(t: seq<Note>, j: nat, k: nat) returns (i: nat)
    requires Lawful(t) && j < k < |t|
    requires t[j].Accepted? && t[j].kind == Missing
    requires t[k].Accepted? && t[k].kind == Missing && t[k].device == t[j].device
    ensures j < i < k && t[i].device == t[j].device && (t[i].Heard? || t[i].Changed?)
  {
    LawfulPrefix(t, k + 1);
    assert t[..k + 1][..k] == t[..k] && t[..k + 1][k] == t[k];
    if forall i :: j < i < k && t[i].device == t[j].device ==> t[i].Accepted? {
      MissingStaysUnanswered(t[..k], t[j].device, j);
      assert false;
    }
    i :| j < i < k && t[i].device == t[j].device && !t[i].Accepted?;
  }

  // ----- counting -----

  function CountOf(t: seq<Note>, d: string, kind: Kind): nat {
    if t == [] then 0
    else
      var n := t[|t| - 1];
      CountOf(t[..|t| - 1], d, kind) + (if n.Accepted? && n.device == d && n.kind == kind then 1 else 0)
  }

  /** On every lawful history: each RECEIVING is paid for by a MISSING and each RECOVERY by an ALERT,
      with one to spare while the incident is open. */
  lemma {:induction false} OpeningsCoverClosings(t: seq<Note>, d: string)
    requires Lawful(t)
    ensures CountOf(t, d, Missing) >= CountOf(t, d, Receiving) + (if MissingOpen(t, d) then 1 else 0)
    ensures CountOf(t, d, Alert) >= CountOf(t, d, Recovery) + (if AlertOpen(t, d).Some? then 1 else 0)
    decreases |t|
  {
    if t != [] {
      OpeningsCoverClosings(t[..|t| - 1], d);
    }
  }
}
