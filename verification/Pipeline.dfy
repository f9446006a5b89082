/**
 * Outbox, Kafka log and Elasticsearch projection as a step system. Writers, one relay, one consumer and an
 * online rebuild interleave call by call; any process may crash between two calls, and any call's answer may be lost.
 */
module Pipeline {
  import opened Prelude
  import opened Keyset
  import opened Orders

  datatype OutRow = OutRow(event: Event, sent: bool)

  /** An open write transaction: row and key locks held, outbox seq allocated, nothing visible to others yet. */
  datatype Writer = Writer(key: Option<string>, slot: nat, event: Event)

  /** past and slots are history: every committed version of an order, and the outbox seq each was enqueued under. */
  datatype Sql = Sql(orders: map<string, Order>, keys: map<string, string>, outbox: map<nat, OutRow>, nextSeq: nat,
                     open: seq<Writer>, past: map<string, seq<Order>>, slots: map<string, seq<nat>>)

  datatype Relay = RelayIdle | Picked(slot: nat, event: Event) | Acked(slot: nat, event: Event)

  /** Fenced: the PUT met a version conflict and the stored document has not been read yet. */
  datatype Consumer = Waiting | Holding(offset: nat, event: Event) | Fenced(offset: nat, event: Event) | Projected(offset: nat, event: Event)

  datatype Doc = Doc(source: Order, version: int)
  type Index = map<string, Doc>

  datatype Rebuild = NotRunning | Fetching(last: string) | Filing(rest: seq<Order>, end: string, fenced: bool) | Returned | Raised

  /** since, base, filled are history: log length and row versions when the index was created, and whether a rebuild has returned since. */
  datatype System = System(sql: Sql, log: seq<Event>, relay: Relay, committed: nat, consumer: Consumer, index: Index,
                           rebuild: Rebuild, since: nat, base: map<string, int>, filled: bool)

  const START := System(Sql(map[], map[], map[], 1, [], map[], map[]), [], RelayIdle, 0, Waiting, map[], NotRunning, 0, map[], true)
  const SCAN_LIMIT := 200

  // ---- Search.index: one conditional PUT, and after a conflict one GET ----

  datatype Answer = Indexed | DuplicateIgnored | OlderIgnored | Refused(code: string)

  predicate Accepts(index: Index, o: Order) { o.id !in index || index[o.id].version < o.version }
  function Put(index: Index, o: Order): Index { if Accepts(index, o) then index[o.id := Doc(o, o.version)] else index }

  function Check(index: Index, o: Order): Answer {
    if o.id !in index then Refused("not_found")
    else
      var d := index[o.id];
      if d.source.version != d.version || d.source.id != o.id then Refused("projection_version_metadata_mismatch")
      else if d.version > o.version then OlderIgnored
      else if d.version == o.version then (if d.source == o then DuplicateIgnored else Refused("event_version_payload_conflict"))
      else Refused("projection_version_changed_during_check")
  }

  // ---- SQL ----

  predicate Locked(sql: Sql, id: string) { exists w :: w in sql.open && w.event.order.id == id }
  predicate KeyLocked(sql: Sql, key: string) { exists w :: w in sql.open && w.key == Some(key) }

  function Opened(sql: Sql, key: Option<string>, o: Order, eventId: string): Sql {
    sql.(open := sql.open + [Writer(key, sql.nextSeq, Event(1, eventId, o))], nextSeq := sql.nextSeq + 1)
  }

  function Without<T>(s: seq<T>, i: nat): seq<T>
    requires i < |s|
  {
    s[..i] + s[i + 1..]
  }

  function Past(sql: Sql, id: string): seq<Order> { if id in sql.past then sql.past[id] else [] }
  function Slots(sql: Sql, id: string): seq<nat> { if id in sql.slots then sql.slots[id] else [] }

  /** COMMIT makes the order row and its outbox row visible in one step. */
  function Committed(sql: Sql, i: nat): Sql
    requires i < |sql.open|
  {
    var w := sql.open[i];
    var o := w.event.order;
    sql.(orders := sql.orders[o.id := o],
         keys := if w.key.Some? then sql.keys[w.key.value := o.id] else sql.keys,
         outbox := sql.outbox[w.slot := OutRow(w.event, false)],
         open := Without(sql.open, i),
         past := sql.past[o.id := Past(sql, o.id) + [o]],
         slots := sql.slots[o.id := Slots(sql, o.id) + [w.slot]])
  }

  predicate Lower(a: nat, b: nat) { a < b }
  function Unsent(sql: Sql): set<nat> { set q | q in sql.outbox && !sql.outbox[q].sent }

  lemma LowerTotal()
    ensures Total(Lower)
  {
  }

  /** pending_one: WHERE sent_at IS NULL ORDER BY seq LIMIT 1. */
  ghost function Pending(sql: Sql): (r: Option<nat>)
    ensures r.Some? ==> r.value in sql.outbox && !sql.outbox[r.value].sent
    ensures r.Some? ==> forall q :: q in sql.outbox && !sql.outbox[q].sent ==> r.value <= q
    ensures r.None? <==> forall q :: q in sql.outbox ==> sql.outbox[q].sent
  {
    LowerTotal();
    var page := Page(Lower, Unsent(sql), 1);
    if page == [] then
      assert forall q :: q in sql.outbox && !sql.outbox[q].sent ==> q in Unsent(sql);
      None
    else
      assert page[0] in Unsent(sql);
      assert forall q :: q in Unsent(sql) ==> page[0] <= q by {
        forall q | q in Unsent(sql) ensures page[0] <= q { PageComplete(Lower, Unsent(sql), 1, q); }
      }
      assert forall q :: q in sql.outbox && !sql.outbox[q].sent ==> q in Unsent(sql);
      Some(page[0])
  }

  // ---- scan ----

  function Beyond(orders: map<string, Order>, last: string): set<string> { set id | id in orders && Less(last, id) }

  ghost function ScanIds(orders: map<string, Order>, last: string): seq<string> {
    StringOrder();
    Page(Less, Beyond(orders, last), SCAN_LIMIT)
  }

  ghost function ScanRows(orders: map<string, Order>, last: string): (rows: seq<Order>)
    ensures |rows| == |ScanIds(orders, last)|
    ensures forall i :: 0 <= i < |rows| ==> ScanIds(orders, last)[i] in orders && rows[i] == orders[ScanIds(orders, last)[i]]
  {
    StringOrder();
    var ids := ScanIds(orders, last);
    assert forall i :: 0 <= i < |ids| ==> ids[i] in Beyond(orders, last);
    seq(|ids|, i requires 0 <= i < |ids| => orders[ids[i]])
  }

  // ---- steps ----

  /** Whether a call's answer arrived, and if not whether the call took effect. */
  datatype Reply = Answered | LostApplied | LostDropped

  datatype Action =
    | OpenCreate(data: Input, key: string, id: string, eventId: string, now: string)
    | OpenUpdate(id: string, expectedVersion: int, status: string, eventId: string)
    | CommitWrite(i: nat) | AbortWrite(i: nat)
    | Pick | Publish(reply: Reply) | Mark(reply: Reply) | RelayCrash
    | Poll | ConsumerPut(reply: Reply) | ConsumerGet | CommitOffset(reply: Reply) | ConsumerCrash
    | StartRebuild | FetchPage | RebuildPut(reply: Reply) | RebuildGet | RebuildCrash
    | SwitchIndex

  function WriterStep(f: Formats, sql: Sql, a: Action): Sql {
    match a
    case OpenCreate(data, key, id, eventId, now) =>
      if CreateInput(data).Ok? && Identifier(f, id) && Identifier(f, eventId) && f.isTime(now)
         && key !in sql.keys && id !in sql.orders && !Locked(sql, id) && !KeyLocked(sql, key)
      then Opened(sql, Some(key), NewOrder(CreateInput(data).value, id, now), eventId) else sql
    case OpenUpdate(id, expectedVersion, status, eventId) =>
      if id in sql.orders && !Locked(sql, id) && Identifier(f, eventId) && Transition(sql.orders[id], expectedVersion, status).Ok?
      then Opened(sql, None, Transition(sql.orders[id], expectedVersion, status).value, eventId) else sql
    case CommitWrite(i) => if i < |sql.open| then Committed(sql, i) else sql
    case AbortWrite(i) => if i < |sql.open| then sql.(open := Without(sql.open, i)) else sql
    case _ => sql
  }

  ghost function RelayStep(s: System, a: Action): System {
    match a
    case Pick =>
      var q := Pending(s.sql);
      if s.relay.RelayIdle? && q.Some? then s.(relay := Picked(q.value, s.sql.outbox[q.value].event)) else s
    case Publish(reply) =>
      if !s.relay.Picked? then s
      else s.(log := if reply.LostDropped? then s.log else s.log + [s.relay.event],
              relay := if reply.Answered? then Acked(s.relay.slot, s.relay.event) else RelayIdle)
    case Mark(reply) =>
      if !s.relay.Acked? then s
      else
        var q := s.relay.slot;
        var row := if q in s.sql.outbox then s.sql.outbox[q := s.sql.outbox[q].(sent := true)] else s.sql.outbox;
        s.(sql := if reply.LostDropped? then s.sql else s.sql.(outbox := row), relay := RelayIdle)
    case RelayCrash => s.(relay := RelayIdle)
    case _ => s
  }

  function ConsumerStep(f: Formats, s: System, a: Action): System {
    match a
    case Poll => if s.consumer.Waiting? && s.committed < |s.log| then s.(consumer := Holding(s.committed, s.log[s.committed])) else s
    case ConsumerPut(reply) =>
      if !s.consumer.Holding? then s
      else if ValidateEvent(f, s.consumer.event).Problem? then s.(consumer := Waiting)
      else
        var off, e := s.consumer.offset, s.consumer.event;
        s.(index := if reply.LostDropped? then s.index else Put(s.index, e.order),
           consumer := if !reply.Answered? then Waiting else if Accepts(s.index, e.order) then Projected(off, e) else Fenced(off, e))
    case ConsumerGet =>
      if !s.consumer.Fenced? then s
      else
        s.(consumer := if Check(s.index, s.consumer.event.order).Refused? then Waiting else Projected(s.consumer.offset, s.consumer.event))
    case CommitOffset(reply) =>
      if !s.consumer.Projected? then s
      else s.(committed := if reply.LostDropped? then s.committed else s.consumer.offset + 1, consumer := Waiting)
    case ConsumerCrash => s.(consumer := Waiting)
    case _ => s
  }

  function Filed(rest: seq<Order>, end: string): Rebuild
    requires rest != []
  {
    if |rest| == 1 then Fetching(end) else Filing(rest[1..], end, false)
  }

  predicate Busy(r: Rebuild, fenced: bool) { r.Filing? && r.rest != [] && r.fenced == fenced }

  ghost function RebuildStep(s: System, a: Action): System {
    match a
    case StartRebuild => s.(rebuild := Fetching(""))
    case FetchPage =>
      if !s.rebuild.Fetching? then s
      else
        var rows := ScanRows(s.sql.orders, s.rebuild.last);
        if rows == [] then s.(rebuild := Returned, filled := true)
        else s.(rebuild := Filing(rows, rows[|rows| - 1].id, false))
    case RebuildPut(reply) =>
      if !Busy(s.rebuild, false) then s
      else
        var o := s.rebuild.rest[0];
        s.(index := if reply.LostDropped? then s.index else Put(s.index, o),
           rebuild := if !reply.Answered? then Raised
                      else if Accepts(s.index, o) then Filed(s.rebuild.rest, s.rebuild.end)
                      else s.rebuild.(fenced := true))
    case RebuildGet =>
      if !Busy(s.rebuild, true) then s
      else s.(rebuild := if Check(s.index, s.rebuild.rest[0]).Refused? then Raised else Filed(s.rebuild.rest, s.rebuild.end))
    case RebuildCrash => s.(rebuild := Raised)
    case _ => s
  }

  /** A new, empty index: the worker restarts against it, and a rebuild has yet to fill it. */
  function Switched(s: System): System {
    s.(index := map[], consumer := Waiting, rebuild := NotRunning, since := |s.log|,
       base := map id | id in s.sql.orders :: s.sql.orders[id].version, filled := false)
  }

  ghost function Step(f: Formats, s: System, a: Action): System {
    if a.OpenCreate? || a.OpenUpdate? || a.CommitWrite? || a.AbortWrite? then s.(sql := WriterStep(f, s.sql, a))
    else if a.Pick? || a.Publish? || a.Mark? || a.RelayCrash? then RelayStep(s, a)
    else if a.Poll? || a.ConsumerPut? || a.ConsumerGet? || a.CommitOffset? || a.ConsumerCrash? then ConsumerStep(f, s, a)
    else if a.SwitchIndex? then Switched(s)
    else RebuildStep(s, a)
  }

  ghost function Run(f: Formats, s: System, actions: seq<Action>): System
    decreases |actions|
  {
    if actions == [] then s else Run(f, Step(f, s, actions[0]), actions[1..])
  }
}
