/** Quarantine envelopes: building one, checking one, and rebuilding an event from current SQL. */
module Quarantine {
  import opened Prelude
  import opened Orders
  import opened Encodings

  type Bytes = seq<Byte>

  const MAX_MESSAGE := 32 * 1024
  const MAX_KEY := 128

  datatype Scope = Scope(topic: string, runId: string, token: string, suffix: string)
  datatype Position = Position(topic: string, partition: int, offset: int)
  datatype Source = Source(topic: string, partition: int, offset: int, topicId: string)
  datatype Record = Record(schema: int, runId: string, owner: string, dlqId: string, source: Source, reason: string,
                           rawSha: string, raw64: string, key64: string)

  /** What dlq_id is a digest of. */
  datatype Identity = Identity(suffix: string, source: Source, rawSha: string, keySha: string)

  /** SHA-256 over bytes and over canonical JSON. */
  datatype Hash = Hash(bytes: Bytes -> string, identity: Identity -> string)

  predicate OwnSource(scope: Scope, topicId: string, p: Position) {
    topicId != "" && p.topic == scope.topic && p.partition == 0 && p.offset >= 0
  }

  /** None stands for every ValueError: a message that cannot be preserved keeps its offset uncommitted. */
  function QuarantineRecord(h: Hash, scope: Scope, topicId: string, p: Position, key: Bytes, raw: Bytes, reason: string): Option<Record> {
    if !OwnSource(scope, topicId, p) || |raw| > MAX_MESSAGE || |key| > MAX_KEY then None
    else
      var source := Source(p.topic, p.partition, p.offset, topicId);
      Some(Record(1, scope.runId, scope.token, h.identity(Identity(scope.suffix, source, h.bytes(raw), h.bytes(key))),
                  source, reason, h.bytes(raw), ToBase64(raw), ToBase64(key)))
  }

  /** The key and raw bytes, if the envelope is this run's and nothing in it was altered. */
  function CheckedQuarantine(h: Hash, scope: Scope, topicId: string, r: Record): Option<(Bytes, Bytes)> {
    if r.schema != 1 || r.owner != scope.token || r.runId != scope.runId then None
    else
      var raw, key := FromBase64(r.raw64), FromBase64(r.key64);
      if raw.None? || key.None? then None
      else
        var p := Position(r.source.topic, r.source.partition, r.source.offset);
        if QuarantineRecord(h, scope, topicId, p, key.value, raw.value, r.reason) != Some(r) then None
        else Some((key.value, raw.value))
  }

  /** A message is preserved exactly if it is from this run's own partition and fits; what is preserved is all of it. */
  lemma {:induction false} RecordExactly(h: Hash, scope: Scope, topicId: string, p: Position, key: Bytes, raw: Bytes, reason: string)
    ensures var r := QuarantineRecord(h, scope, topicId, p, key, raw, reason);
      && (r.Some? <==> topicId != "" && p.topic == scope.topic && p.partition == 0 && p.offset >= 0 && |raw| <= 32768 && |key| <= 128)
      && (r.Some? ==>
            && r.value.schema == 1 && r.value.runId == scope.runId && r.value.owner == scope.token && r.value.reason == reason
            && r.value.source == Source(p.topic, p.partition, p.offset, topicId) && r.value.rawSha == h.bytes(raw)
            && FromBase64(r.value.raw64) == Some(raw) && FromBase64(r.value.key64) == Some(key))
  {
    Base64RoundTrip(raw);
    Base64RoundTrip(key);
    hide ToBase64, FromBase64;
  }

  /** The check accepts exactly what quarantining produces, and gives back exactly what was quarantined. */
  lemma {:induction false} CheckIsExact(h: Hash, scope: Scope, topicId: string, r: Record, key: Bytes, raw: Bytes)
    ensures CheckedQuarantine(h, scope, topicId, r) == Some((key, raw)) <==>
      exists p, reason :: QuarantineRecord(h, scope, topicId, p, key, raw, reason) == Some(r)
  {
    Base64RoundTrip(raw);
    Base64RoundTrip(key);
    hide ToBase64, FromBase64;
    var p := Position(r.source.topic, r.source.partition, r.source.offset);
    if exists q, reason :: QuarantineRecord(h, scope, topicId, q, key, raw, reason) == Some(r) {
      var q, reason :| QuarantineRecord(h, scope, topicId, q, key, raw, reason) == Some(r);
      assert q == p && reason == r.reason;
    }
    if CheckedQuarantine(h, scope, topicId, r) == Some((key, raw)) {
      assert QuarantineRecord(h, scope, topicId, p, key, raw, r.reason) == Some(r);
    }
  }

  /** Redelivering one source position always quarantines under the same id, whatever the reason found this time. */
  lemma {:induction false} SameIdentity(h: Hash, scope: Scope, topicId: string, p: Position, key: Bytes, raw: Bytes, reason: string, reason': string)
    ensures var a, b := QuarantineRecord(h, scope, topicId, p, key, raw, reason), QuarantineRecord(h, scope, topicId, p, key, raw, reason');
      a.Some? <==> b.Some?
    ensures var a, b := QuarantineRecord(h, scope, topicId, p, key, raw, reason), QuarantineRecord(h, scope, topicId, p, key, raw, reason');
      a.Some? ==> a.value.dlqId == b.value.dlqId && a.value.(reason := reason') == b.value
  {
    hide ToBase64;
  }

  /** If the digest of identities collides nowhere, two ids agree exactly for one source position, key hash and payload hash. */
  lemma {:induction false} DistinctIdentity(h: Hash, scope: Scope, topicId: string, p: Position, q: Position,
                                            key: Bytes, raw: Bytes, key': Bytes, raw': Bytes, reason: string, reason': string)
    requires forall a, b :: h.identity(a) == h.identity(b) ==> a == b
    requires QuarantineRecord(h, scope, topicId, p, key, raw, reason).Some? && QuarantineRecord(h, scope, topicId, q, key', raw', reason').Some?
    ensures var a, b := QuarantineRecord(h, scope, topicId, p, key, raw, reason), QuarantineRecord(h, scope, topicId, q, key', raw', reason');
      a.value.dlqId == b.value.dlqId <==> p == q && h.bytes(key) == h.bytes(key') && h.bytes(raw) == h.bytes(raw')
  {
    hide ToBase64;
  }
}
