/**
 The heartbeat record as the notifier uses it, and the dedupe key that names an incident
 in the notification queue. Parsing is outside the model: a Kafka value is either one of
 these records or invalid.
 */
module Heartbeats {

  datatype Option<+T> = None | Some(value: T)

  datatype Level = Up | Warn | Unknown | Down

  datatype Kind = Missing | Receiving | Alert | Recovery

  /** What makes two abnormal reports the same incident: the level and the code. */
  datatype Signature = Signature(level: Level, code: string)

  datatype Heartbeat = Heartbeat(device: string, level: Level, code: string, raw: string,
                                 partition: int, offset: int)
  {
    function Sig(): Signature {
      Signature(level, code)
    }
  }

  function LevelText(level: Level): string {
    match level
    case Up => "UP"
    case Warn => "WARN"
    case Unknown => "UNKNOWN"
    case Down => "DOWN"
  }

  function KindText(kind: Kind): string {
    match kind
    case Missing => "MISSING"
    case Receiving => "RECEIVING"
    case Alert => "ALERT"
    case Recovery => "RECOVERY"
  }

  /** The key built by the PostgreSQL queue: the signature is appended unless the kind is MISSING. */
  function QueueKey(hb: Heartbeat, kind: Kind): string {
    var key := hb.device + ":" + KindText(kind);
    if kind == Missing then key else key + (":" + LevelText(hb.level) + ":" + hb.code)
  }

  /** The key built by the SQLite queue, in one formatted string per case. */
  function LegacyKey(hb: Heartbeat, kind: Kind): string {
    if kind == Missing then hb.device + ":MISSING"
    else hb.device + ":" + KindText(kind) + ":" + LevelText(hb.level) + ":" + hb.code
  }

  predicate ColonFree(s: string) {
    ':' !in s
  }

  /** Two notifications are about the same incident. A MISSING incident has no signature. */
  predicate SameIncident(h1: Heartbeat, k1: Kind, h2: Heartbeat, k2: Kind) {
    && h1.device == h2.device
    && k1 == k2
    && (k1 == Missing || h1.Sig() == h2.Sig())
  }

  /** What follows the device and its colon in a key. */
  function KeyTail(hb: Heartbeat, kind: Kind): string {
    if kind == Missing then "MISSING" else KindText(kind) + ":" + (LevelText(hb.level) + ":" + hb.code)
  }

  lemma KeyIsDeviceAndTail(hb: Heartbeat, kind: Kind)
    ensures QueueKey(hb, kind) == hb.device + ":" + KeyTail(hb, kind)
  {
  }

  /** A string splits at its first colon in one way only. */
  lemma FirstColonSplits(a: string, x: string, b: string, y: string)
    requires ColonFree(a) && ColonFree(b)
    requires a + ":" + x == b + ":" + y
    ensures a == b && x == y
  {
    var s, t := a + ":" + x, b + ":" + y;
    assert s[|a|] == ':' && forall i :: 0 <= i < |a| ==> s[i] == a[i];
    assert t[|b|] == ':' && forall i :: 0 <= i < |b| ==> t[i] == b[i];
    assert |a| == |b|;
    assert a == s[..|a|] == t[..|b|] == b;
    assert x == s[|a| + 1..] == t[|b| + 1..] == y;
  }

  lemma KeyBuildersAgree(hb: Heartbeat, kind: Kind)
    ensures QueueKey(hb, kind) == LegacyKey(hb, kind)
  {
  }

  /** Among devices whose ids hold no colon, a key names an incident, whatever the codes hold. */
  lemma KeysIdentifyIncidents(h1: Heartbeat, k1: Kind, h2: Heartbeat, k2: Kind)
    requires ColonFree(h1.device) && ColonFree(h2.device)
    ensures QueueKey(h1, k1) == QueueKey(h2, k2) <==> SameIncident(h1, k1, h2, k2)
  {
    KeyIsDeviceAndTail(h1, k1);
    KeyIsDeviceAndTail(h2, k2);
    if QueueKey(h1, k1) == QueueKey(h2, k2) {
      FirstColonSplits(h1.device, KeyTail(h1, k1), h2.device, KeyTail(h2, k2));
      assert k1 != Missing ==> KeyTail(h1, k1)[|KindText(k1)|] == ':';
      assert k2 != Missing ==> KeyTail(h2, k2)[|KindText(k2)|] == ':';
      assert k1 == Missing <==> k2 == Missing;
      if k1 != Missing && k2 != Missing {
        var r1, r2 := LevelText(h1.level) + ":" + h1.code, LevelText(h2.level) + ":" + h2.code;
        FirstColonSplits(KindText(k1), r1, KindText(k2), r2);
        FirstColonSplits(LevelText(h1.level), h1.code, LevelText(h2.level), h2.code);
      }
    }
  }

  /** With a colon in a device id the key is ambiguous: a MISSING and an ALERT of two devices share it. */
  lemma ColonsMakeKeysClash(h1: Heartbeat, h2: Heartbeat)
    requires h1.device == "a:ALERT:WARN:x"
    requires h2.device == "a" && h2.level == Warn && h2.code == "x:MISSING"
    ensures QueueKey(h1, Missing) == QueueKey(h2, Alert) && !SameIncident(h1, Missing, h2, Alert)
  {
    assert QueueKey(h1, Missing) == "a:ALERT:WARN:x:MISSING" == QueueKey(h2, Alert);
  }
}
