/** What relay, consumer and rebuild keep while they interleave with writers and crashes. */
module PipelineLaws {
  import opened Prelude
  import opened Keyset
  import opened Orders
  import opened Pipeline
  import opened PipelineSql

  // ---- the log ----

  /** Every earlier version of the order was sent before this event could be. */
  ghost predicate PredecessorsSent(sql: Sql, o: Order) {
    forall p, q :: SlotOf(sql, p, q) && p.id == o.id && p.version < o.version ==> q in sql.outbox && sql.outbox[q].sent
  }

  /** An event that came out of the outbox. */
  ghost predicate Published(sql: Sql, e: Event) {
    && (exists q :: q in sql.outbox && SlotOf(sql, e.order, q) && sql.outbox[q].event == e)
    && PredecessorsSent(sql, e.order)
  }

  ghost predicate VersionsAscend(log: seq<Event>) {
    forall i, j :: 0 <= i < j < |log| && log[i].order.id == log[j].order.id ==> log[i].order.version <= log[j].order.version
  }

  ghost predicate RelayOk(sql: Sql, log: seq<Event>, r: Relay) {
    match r
    case RelayIdle => true
    case Picked(q, e) => Published(sql, e) && q in sql.outbox && sql.outbox[q] == OutRow(e, false)
    case Acked(q, e) => e in log && q in sql.outbox && sql.outbox[q].event == e
  }

  ghost predicate LogOk(sql: Sql, log: seq<Event>, r: Relay) {
    && (forall e :: e in log ==> Published(sql, e))
    && (forall q {:trigger sql.outbox[q]} :: q in sql.outbox && sql.outbox[q].sent ==> sql.outbox[q].event in log)
    && VersionsAscend(log) && RelayOk(sql, log, r)
  }

  // ---- the index ----

  ghost predicate DocOk(sql: Sql, id: string, d: Doc) {
    d.source.id == id && d.version == d.source.version && Authentic(sql, d.source)
  }

  ghost predicate IndexOk(sql: Sql, index: Index) { forall id :: id in index ==> DocOk(sql, id, index[id]) }

  /** The document is at least as new as this version. */
  predicate Reflects(index: Index, o: Order) { o.id in index && index[o.id].version >= o.version }

  ghost predicate ConsumerOk(log: seq<Event>, committed: nat, index: Index, c: Consumer) {
    match c
    case Waiting => true
    case Holding(off, e) => off == committed < |log| && log[off] == e
    case Fenced(off, e) => off == committed < |log| && log[off] == e && Reflects(index, e.order)
    case Projected(off, e) => off == committed < |log| && log[off] == e && Reflects(index, e.order)
  }

  ghost predicate OffsetsOk(log: seq<Event>, committed: nat, index: Index, since: nat) {
    && committed <= |log| && since <= |log|
    && forall off :: since <= off < committed ==> Reflects(index, log[off].order)
  }

  /** Everything logged before the index was created is a version the base already counts. */
  ghost predicate BaseOk(sql: Sql, log: seq<Event>, since: nat, base: map<string, int>) {
    && since <= |log|
    && (forall off :: 0 <= off < since ==> log[off].order.id in base && log[off].order.version <= base[log[off].order.id])
    && (forall id :: id in base ==> id in sql.orders && base[id] <= sql.orders[id].version)
  }

  // ---- the rebuild ----

  predicate Covered(index: Index, base: map<string, int>, id: string)
    requires id in base
  {
    id in index && index[id].version >= base[id]
  }

  ghost predicate Queued(rest: seq<Order>, id: string, version: int) {
    exists i :: 0 <= i < |rest| && rest[i].id == id && rest[i].version >= version
  }

  ghost predicate RebuildOk(sql: Sql, index: Index, r: Rebuild, base: map<string, int>, filled: bool) {
    && (filled ==> forall id :: id in base ==> Covered(index, base, id))
    && match r
       case Fetching(last) => forall id :: id in base && !Less(last, id) ==> Covered(index, base, id)
       case Filing(rest, end, fenced) =>
         && rest != [] && (forall o :: o in rest ==> Authentic(sql, o)) && (fenced ==> Reflects(index, rest[0]))
         && forall id :: id in base && !Less(end, id) ==> Covered(index, base, id) || Queued(rest, id, base[id])
       case _ => true
  }

  ghost predicate Sound(f: Formats, s: System) {
    && SqlOk(f, s.sql) && LogOk(s.sql, s.log, s.relay)
    && IndexOk(s.sql, s.index) && ConsumerOk(s.log, s.committed, s.index, s.consumer)
    && OffsetsOk(s.log, s.committed, s.index, s.since) && BaseOk(s.sql, s.log, s.since, s.base)
    && RebuildOk(s.sql, s.index, s.rebuild, s.base, s.filled)
  }

  lemma {:induction false} StartSound(f: Formats)
    ensures Sound(f, START)
  {
    hide Chain, ValidateEvent;
  }

  // ---- slots are unique ----

  lemma {:induction false} OneSlot(f: Formats, sql: Sql, q: nat, o: Order)
    requires SqlOk(f, sql) && q in sql.outbox
    ensures sql.outbox[q].event.order == o <==> SlotOf(sql, o, q)
  {
    assert RowOk(f, sql, q);
    if SlotOf(sql, o, q) { assert Enqueued(sql, o.id, o.version - 1); }
    hide HistoryOk, OpenOk, SlotsAscend, ValidateEvent;
  }

  lemma {:induction false} EarlierSlot(f: Formats, sql: Sql, p: Order, q: nat, o: Order, r: nat)
    requires SqlOk(f, sql) && SlotOf(sql, p, q) && SlotOf(sql, o, r) && p.id == o.id && p.version < o.version
    ensures q < r && q in sql.outbox
  {
    assert Ascends(Slots(sql, o.id));
    assert Enqueued(sql, p.id, p.version - 1);
    hide HistoryOk, RowsOk, OpenOk;
  }

  // ---- writers leave everyone else alone ----

  lemma {:induction false} PublishedGrows(f: Formats, sql: Sql, sql': Sql, e: Event)
    requires SqlOk(f, sql) && SqlOk(f, sql') && Grows(sql, sql') && Published(sql, e)
    ensures Published(sql', e)
  {
    var r :| r in sql.outbox && SlotOf(sql, e.order, r) && sql.outbox[r].event == e;
    assert r in sql'.outbox && SlotOf(sql', e.order, r) && sql'.outbox[r].event == e;
    hide SqlOk, SlotOf, Authentic;
    forall p, q | SlotOf(sql', p, q) && p.id == e.order.id && p.version < e.order.version
      ensures q in sql'.outbox && sql'.outbox[q].sent
    {
      OlderSlot(f, sql, sql', p, q, e.order);
    }
  }

  lemma {:induction false} PastSlot(f: Formats, sql: Sql, id: string, k: nat)
    requires HistoryOk(f, sql) && id in sql.past && k < |sql.past[id]|
    ensures id in sql.slots && k < |sql.slots[id]| && SlotOf(sql, sql.past[id][k], sql.slots[id][k])
    ensures sql.past[id][k].id == id && sql.past[id][k].version == k + 1
  {
    assert OrderOk(f, sql, id);
    ChainVersion(f, id, sql.past[id], k);
    hide Chain;
  }

  lemma SameSlot(sql: Sql, p: Order, q: nat, o: Order, r: nat)
    requires SlotOf(sql, p, q) && SlotOf(sql, o, r) && p.id == o.id && p.version == o.version
    ensures p == o && q == r
  {
  }

  /** A version below a committed one was committed already. */
  lemma {:induction false} OlderSlot(f: Formats, sql: Sql, sql': Sql, p: Order, q: nat, o: Order)
    requires SqlOk(f, sql) && Grows(sql, sql') && SlotOf(sql', p, q) && p.id == o.id && p.version < o.version && Authentic(sql, o)
    ensures SlotOf(sql, p, q)
  {
    assert 1 <= p.version && o.id in sql.past && p.version <= |sql.past[o.id]|;
    hide RowsOk, OpenOk, SlotsAscend, HistoryOk, SlotOf, Grows;
    PastSlot(f, sql, o.id, p.version - 1);
    GrowsSlot(sql, sql', sql.past[o.id][p.version - 1], sql.slots[o.id][p.version - 1]);
    SameSlot(sql', sql.past[o.id][p.version - 1], sql.slots[o.id][p.version - 1], p, q);
  }

  lemma GrowsSlot(sql: Sql, sql': Sql, p: Order, q: nat)
    requires Grows(sql, sql') && SlotOf(sql, p, q)
    ensures SlotOf(sql', p, q)
  {
    hide SlotOf, Authentic;
  }

  lemma {:induction false} LogGrows(f: Formats, sql: Sql, sql': Sql, log: seq<Event>, r: Relay)
    requires SqlOk(f, sql) && SqlOk(f, sql') && Grows(sql, sql') && LogOk(sql, log, r)
    requires forall q :: q in sql'.outbox && sql'.outbox[q].sent ==> q in sql.outbox && sql.outbox[q].sent
    ensures LogOk(sql', log, r)
  {
    hide SqlOk, Published, VersionsAscend;
    forall e | Published(sql, e) ensures Published(sql', e) { PublishedGrows(f, sql, sql', e); }
  }

  lemma {:induction false} IndexGrows(sql: Sql, sql': Sql, log: seq<Event>, index: Index, since: nat, base: map<string, int>, r: Rebuild, filled: bool)
    requires Grows(sql, sql') && IndexOk(sql, index) && BaseOk(sql, log, since, base) && RebuildOk(sql, index, r, base, filled)
    ensures IndexOk(sql', index) && BaseOk(sql', log, since, base) && RebuildOk(sql', index, r, base, filled)
  {
    hide Authentic, SlotOf, Covered, Queued;
  }

  lemma {:induction false} NothingSent(f: Formats, sql: Sql, a: Action)
    requires SqlOk(f, sql)
    ensures var sql' := WriterStep(f, sql, a); forall q :: q in sql'.outbox && sql'.outbox[q].sent ==> q in sql.outbox && sql.outbox[q].sent
  {
    hide SqlOk, Transition, CreateInput, NewOrder, Without;
  }

  lemma {:induction false} WriterSound(f: Formats, s: System, a: Action)
    requires Sound(f, s)
    ensures Sound(f, s.(sql := WriterStep(f, s.sql, a)))
  {
    var sql' := WriterStep(f, s.sql, a);
    WriterKeeps(f, s.sql, a);
    NothingSent(f, s.sql, a);
    hide SqlOk, Grows, WriterStep, LogOk, IndexOk, BaseOk, RebuildOk, ConsumerOk, OffsetsOk;
    LogGrows(f, s.sql, sql', s.log, s.relay);
    IndexGrows(s.sql, sql', s.log, s.index, s.since, s.base, s.rebuild, s.filled);
  }

  // ---- the relay ----

  /** pending_one has no watermark: the lowest unsent slot is safe to publish whatever became visible since. */
  lemma {:induction false} PickOk(f: Formats, sql: Sql, log: seq<Event>, q: nat)
    requires SqlOk(f, sql) && Pending(sql) == Some(q)
    ensures RelayOk(sql, log, Picked(q, sql.outbox[q].event))
  {
    var e := sql.outbox[q].event;
    OneSlot(f, sql, q, e.order);
    assert !sql.outbox[q].sent;
    assert forall r :: r in sql.outbox && !sql.outbox[r].sent ==> q <= r;
    hide SqlOk, SlotOf, Authentic, Pending;
    forall p, r | SlotOf(sql, p, r) && p.id == e.order.id && p.version < e.order.version
      ensures r in sql.outbox && sql.outbox[r].sent
    {
      EarlierSlot(f, sql, p, r, e.order, q);
    }
  }

  lemma {:induction false} AppendAscends(f: Formats, sql: Sql, log: seq<Event>, q: nat, e: Event)
    requires SqlOk(f, sql) && LogOk(sql, log, Picked(q, e))
    ensures VersionsAscend(log + [e])
  {
    hide SqlOk, SlotOf, Authentic;
    forall i | 0 <= i < |log| && log[i].order.id == e.order.id ensures log[i].order.version <= e.order.version {
      if log[i].order.version > e.order.version {
        assert log[i] in log && Published(sql, log[i]) && PredecessorsSent(sql, log[i].order);
        OneSlot(f, sql, q, e.order);
      }
    }
  }

  lemma {:induction false} PublishLog(f: Formats, sql: Sql, log: seq<Event>, q: nat, e: Event)
    requires SqlOk(f, sql) && LogOk(sql, log, Picked(q, e))
    ensures LogOk(sql, log + [e], RelayIdle) && LogOk(sql, log + [e], Acked(q, e))
  {
    AppendAscends(f, sql, log, q, e);
    hide SqlOk, Published, VersionsAscend;
    assert e in log + [e];
  }

  /** Appending keeps what is said about earlier offsets. */
  lemma {:induction false} AppendKeeps(s: System, e: Event)
    requires ConsumerOk(s.log, s.committed, s.index, s.consumer) && OffsetsOk(s.log, s.committed, s.index, s.since)
    requires BaseOk(s.sql, s.log, s.since, s.base)
    ensures ConsumerOk(s.log + [e], s.committed, s.index, s.consumer) && OffsetsOk(s.log + [e], s.committed, s.index, s.since)
    ensures BaseOk(s.sql, s.log + [e], s.since, s.base)
  {
    hide Reflects;
  }

  lemma {:induction false} MarkLog(f: Formats, sql: Sql, log: seq<Event>, q: nat, e: Event)
    requires SqlOk(f, sql) && SqlOk(f, MarkedSent(sql, q)) && Grows(sql, MarkedSent(sql, q)) && LogOk(sql, log, Acked(q, e))
    ensures LogOk(MarkedSent(sql, q), log, RelayIdle)
  {
    hide SqlOk, Published, VersionsAscend, Grows;
    forall e | Published(sql, e) ensures Published(MarkedSent(sql, q), e) { PublishedGrows(f, sql, MarkedSent(sql, q), e); }
  }

  lemma RelayIdles(sql: Sql, log: seq<Event>, r: Relay)
    requires LogOk(sql, log, r)
    ensures LogOk(sql, log, RelayIdle)
  {
    hide Published, VersionsAscend;
  }

  lemma {:induction false} RelaySound(f: Formats, s: System, a: Action)
    requires Sound(f, s) && (a.Pick? || a.Publish? || a.Mark? || a.RelayCrash?)
    ensures Sound(f, RelayStep(s, a))
  {
    RelayIdles(s.sql, s.log, s.relay);
    hide SqlOk, Grows, IndexOk, BaseOk, RebuildOk, ConsumerOk, OffsetsOk, LogOk;
    match a
    case Pick =>
      var q := Pending(s.sql);
      if s.relay.RelayIdle? && q.Some? { PickOk(f, s.sql, s.log, q.value); PickLog(s.sql, s.log, q.value); }
    case Publish(reply) =>
      if s.relay.Picked? {
        PublishLog(f, s.sql, s.log, s.relay.slot, s.relay.event);
        AppendKeeps(s, s.relay.event);
      }
    case Mark(reply) =>
      if s.relay.Acked? && !reply.LostDropped? {
        var q := s.relay.slot;
        MarkKeeps(f, s.sql, q);
        MarkLog(f, s.sql, s.log, q, s.relay.event);
        IndexGrows(s.sql, MarkedSent(s.sql, q), s.log, s.index, s.since, s.base, s.rebuild, s.filled);
      }
    case RelayCrash =>
  }

  lemma PickLog(sql: Sql, log: seq<Event>, q: nat)
    requires LogOk(sql, log, RelayIdle) && q in sql.outbox && RelayOk(sql, log, Picked(q, sql.outbox[q].event))
    ensures LogOk(sql, log, Picked(q, sql.outbox[q].event))
  {
    hide Published, VersionsAscend;
  }

  // ---- the index fence ----

  /** Documents are never replaced by older ones. */
  ghost predicate Rises(index: Index, index': Index) {
    forall id :: id in index ==> id in index' && index[id].version <= index'[id].version
  }

  lemma PutRises(index: Index, o: Order)
    ensures Rises(index, Put(index, o)) && Reflects(Put(index, o), o)
    ensures Accepts(index, o) ==> Put(index, o)[o.id] == Doc(o, o.version)
  {
  }

  lemma {:induction false} PutOk(sql: Sql, index: Index, o: Order)
    requires IndexOk(sql, index) && Authentic(sql, o)
    ensures IndexOk(sql, Put(index, o))
  {
    hide Authentic;
  }

  lemma {:induction false} IndexRises(s: System, index': Index)
    requires Rises(s.index, index')
    requires ConsumerOk(s.log, s.committed, s.index, s.consumer) && OffsetsOk(s.log, s.committed, s.index, s.since)
    requires RebuildOk(s.sql, s.index, s.rebuild, s.base, s.filled)
    ensures ConsumerOk(s.log, s.committed, index', s.consumer) && OffsetsOk(s.log, s.committed, index', s.since)
    ensures RebuildOk(s.sql, index', s.rebuild, s.base, s.filled)
  {
    hide Authentic, Queued;
  }

  /** Same version, other content: impossible between versions SQL committed. */
  lemma {:induction false} NoPayloadConflict(sql: Sql, index: Index, o: Order)
    requires IndexOk(sql, index) && Authentic(sql, o) && Reflects(index, o)
    ensures Check(index, o) == if index[o.id].version > o.version then OlderIgnored else DuplicateIgnored
  {
    assert DocOk(sql, o.id, index[o.id]);
  }

  lemma {:induction false} LoggedAuthentic(sql: Sql, log: seq<Event>, r: Relay, e: Event)
    requires LogOk(sql, log, r) && e in log
    ensures Authentic(sql, e.order)
  {
    assert Published(sql, e);
  }

  lemma {:induction false} LoggedValid(f: Formats, sql: Sql, log: seq<Event>, r: Relay, e: Event)
    requires SqlOk(f, sql) && LogOk(sql, log, r) && e in log
    ensures ValidateEvent(f, e).Ok?
  {
    assert Published(sql, e);
    var q :| q in sql.outbox && SlotOf(sql, e.order, q) && sql.outbox[q].event == e;
    assert RowOk(f, sql, q);
  }

  lemma {:induction false} ConsumerSound(f: Formats, s: System, a: Action)
    requires Sound(f, s) && (a.Poll? || a.ConsumerPut? || a.ConsumerGet? || a.CommitOffset? || a.ConsumerCrash?)
    ensures Sound(f, ConsumerStep(f, s, a))
  {
    hide SqlOk, LogOk, BaseOk, IndexOk, RebuildOk, Check, Put, Accepts, ValidateEvent, Reflects;
    match a
    case Poll =>
    case ConsumerPut(reply) =>
      if s.consumer.Holding? && ValidateEvent(f, s.consumer.event).Ok? && !reply.LostDropped? {
        var o := s.consumer.event.order;
        LoggedAuthentic(s.sql, s.log, s.relay, s.consumer.event);
        PutRises(s.index, o);
        PutOk(s.sql, s.index, o);
        IndexRises(s, Put(s.index, o));
      }
    case ConsumerGet =>
    case CommitOffset(reply) =>
    case ConsumerCrash =>
  }

  // ---- the rebuild ----

  lemma {:induction false} FetchOk(f: Formats, s: System)
    requires Sound(f, s) && s.rebuild.Fetching?
    ensures var rows := ScanRows(s.sql.orders, s.rebuild.last);
      if rows == [] then RebuildOk(s.sql, s.index, Returned, s.base, true)
      else RebuildOk(s.sql, s.index, Filing(rows, rows[|rows| - 1].id, false), s.base, s.filled)
  {
    var last, rows := s.rebuild.last, ScanRows(s.sql.orders, s.rebuild.last);
    assert forall id :: id in s.base && !Less(last, id) ==> Covered(s.index, s.base, id);
    assert forall id :: id in s.base ==> id in s.sql.orders && s.base[id] <= s.sql.orders[id].version;
    RowsAuthentic(f, s.sql, last);
    hide Sound, Covered, Queued, ScanRows, Authentic, Less;
    if rows == [] {
      forall id | id in s.base ensures Covered(s.index, s.base, id) {
        if Less(last, id) { ScanReaches(f, s.sql, last, id); }
      }
    } else {
      var end := rows[|rows| - 1].id;
      forall id | id in s.base && !Less(end, id) ensures Covered(s.index, s.base, id) || Queued(rows, id, s.base[id]) {
        if Less(last, id) { ScanReaches(f, s.sql, last, id); QueuedLower(rows, id, s.sql.orders[id].version, s.base[id]); }
      }
    }
  }

  lemma QueuedLower(rest: seq<Order>, id: string, version: int, lower: int)
    requires Queued(rest, id, version) && lower <= version
    ensures Queued(rest, id, lower)
  {
  }

  lemma {:induction false} RowsAuthentic(f: Formats, sql: Sql, last: string)
    requires SqlOk(f, sql)
    ensures forall o :: o in ScanRows(sql.orders, last) ==> Authentic(sql, o)
  {
    forall o | o in ScanRows(sql.orders, last) ensures Authentic(sql, o) {
      var i :| 0 <= i < |ScanRows(sql.orders, last)| && ScanRows(sql.orders, last)[i] == o;
      VersionIsLength(f, sql, ScanIds(sql.orders, last)[i]);
    }
  }

  /** A page has every row up to its last one, as that row is now. */
  lemma {:induction false} ScanReaches(f: Formats, sql: Sql, last: string, id: string)
    requires SqlOk(f, sql) && id in sql.orders && Less(last, id)
    ensures var rows := ScanRows(sql.orders, last);
      rows != [] && (Less(rows[|rows| - 1].id, id) || Queued(rows, id, sql.orders[id].version))
  {
    StringOrder();
    var ids, rows := ScanIds(sql.orders, last), ScanRows(sql.orders, last);
    hide Less;
    PageComplete(Less, Beyond(sql.orders, last), SCAN_LIMIT, id);
    hide Page, Total;
    if id in ids {
      var i :| 0 <= i < |ids| && ids[i] == id;
      VersionIsLength(f, sql, id);
      assert rows[i].id == id;
    } else {
      VersionIsLength(f, sql, ids[|ids| - 1]);
    }
  }

  lemma {:induction false} NextRow(sql: Sql, index: Index, rest: seq<Order>, end: string, fenced: bool, base: map<string, int>, filled: bool)
    requires RebuildOk(sql, index, Filing(rest, end, fenced), base, filled) && Reflects(index, rest[0])
    ensures RebuildOk(sql, index, Filed(rest, end), base, filled)
  {
    hide Authentic;
    forall id | id in base && !Less(end, id) ensures Covered(index, base, id) || (|rest| > 1 && Queued(rest[1..], id, base[id])) {
      if !Covered(index, base, id) {
        var i :| 0 <= i < |rest| && rest[i].id == id && rest[i].version >= base[id];
        assert i > 0 && rest[1..][i - 1] == rest[i];
      }
    }
  }

  lemma FencedRow(sql: Sql, index: Index, rest: seq<Order>, end: string, base: map<string, int>, filled: bool)
    requires RebuildOk(sql, index, Filing(rest, end, false), base, filled) && Reflects(index, rest[0])
    ensures RebuildOk(sql, index, Filing(rest, end, true), base, filled)
  {
  }

  lemma RebuildEnds(sql: Sql, index: Index, r: Rebuild, base: map<string, int>, filled: bool)
    requires RebuildOk(sql, index, r, base, filled)
    ensures RebuildOk(sql, index, Raised, base, filled)
  {
  }

  lemma RefusedOrReflected(index: Index, o: Order)
    requires !Check(index, o).Refused? || Accepts(index, o) == false
    ensures Reflects(index, o)
  {
  }

  lemma {:induction false} FirstRow(sql: Sql, index: Index, rest: seq<Order>, end: string, fenced: bool, base: map<string, int>, filled: bool)
    requires RebuildOk(sql, index, Filing(rest, end, fenced), base, filled)
    ensures rest != [] && Authentic(sql, rest[0])
  {
  }

  lemma {:induction false} RebuildPutSound(f: Formats, s: System, reply: Reply)
    requires Sound(f, s) && Busy(s.rebuild, false)
    ensures Sound(f, RebuildStep(s, RebuildPut(reply)))
  {
    hide SqlOk, LogOk, BaseOk, IndexOk, RebuildOk, ConsumerOk, OffsetsOk, Put, Accepts, Reflects, Filed, Rises;
    var o, index' := s.rebuild.rest[0], Put(s.index, s.rebuild.rest[0]);
    FirstRow(s.sql, s.index, s.rebuild.rest, s.rebuild.end, false, s.base, s.filled);
    PutRises(s.index, o);
    PutOk(s.sql, s.index, o);
    IndexRises(s, index');
    RebuildEnds(s.sql, s.index, s.rebuild, s.base, s.filled);
    RebuildEnds(s.sql, index', s.rebuild, s.base, s.filled);
    NextRow(s.sql, index', s.rebuild.rest, s.rebuild.end, false, s.base, s.filled);
    FencedRow(s.sql, index', s.rebuild.rest, s.rebuild.end, s.base, s.filled);
  }

  lemma {:induction false} StartOk(f: Formats, s: System)
    requires Sound(f, s)
    ensures RebuildOk(s.sql, s.index, Fetching(""), s.base, s.filled)
  {
    forall id | id in s.base ensures Less("", id) {
      assert id in s.sql.orders;
      VersionIsLength(f, s.sql, id);
    }
    hide SqlOk, LogOk, IndexOk, ConsumerOk, OffsetsOk;
  }

  lemma {:induction false} RebuildSound(f: Formats, s: System, a: Action)
    requires Sound(f, s) && (a.StartRebuild? || a.FetchPage? || a.RebuildPut? || a.RebuildGet? || a.RebuildCrash?)
    ensures Sound(f, RebuildStep(s, a))
  {
    match a
    case StartRebuild =>
      StartOk(f, s);
      hide SqlOk, LogOk, BaseOk, IndexOk, RebuildOk, ConsumerOk, OffsetsOk;
    case FetchPage =>
      if s.rebuild.Fetching? { FetchOk(f, s); }
      hide SqlOk, LogOk, BaseOk, IndexOk, RebuildOk, ConsumerOk, OffsetsOk, ScanRows;
    case RebuildPut(reply) =>
      if Busy(s.rebuild, false) { RebuildPutSound(f, s, reply); }
      hide SqlOk, LogOk, BaseOk, IndexOk, RebuildOk, ConsumerOk, OffsetsOk;
    case RebuildGet =>
      hide SqlOk, LogOk, BaseOk, IndexOk, RebuildOk, ConsumerOk, OffsetsOk, Check, Reflects, Filed;
      if Busy(s.rebuild, true) {
        var o := s.rebuild.rest[0];
        RebuildEnds(s.sql, s.index, s.rebuild, s.base, s.filled);
        if !Check(s.index, o).Refused? {
          RefusedOrReflected(s.index, o);
          NextRow(s.sql, s.index, s.rebuild.rest, s.rebuild.end, true, s.base, s.filled);
        }
      }
    case RebuildCrash =>
      RebuildEnds(s.sql, s.index, s.rebuild, s.base, s.filled);
      hide SqlOk, LogOk, BaseOk, IndexOk, RebuildOk, ConsumerOk, OffsetsOk;
  }

  // ---- a new index ----

  lemma {:induction false} SwitchBase(f: Formats, s: System)
    requires Sound(f, s)
    ensures BaseOk(s.sql, s.log, |s.log|, Switched(s).base)
  {
    forall off | 0 <= off < |s.log|
      ensures s.log[off].order.id in s.sql.orders && s.log[off].order.version <= s.sql.orders[s.log[off].order.id].version
    {
      LoggedAuthentic(s.sql, s.log, s.relay, s.log[off]);
      VersionIsLength(f, s.sql, s.log[off].order.id);
    }
    hide Sound, Authentic;
  }

  lemma {:induction false} SwitchSound(f: Formats, s: System)
    requires Sound(f, s)
    ensures Sound(f, Switched(s))
  {
    SwitchBase(f, s);
    hide SqlOk, LogOk, BaseOk, Authentic;
  }

  // ---- every step, every run ----

  lemma {:induction false} StepSound(f: Formats, s: System, a: Action)
    requires Sound(f, s)
    ensures Sound(f, Step(f, s, a))
  {
    hide Sound, WriterStep, RelayStep, ConsumerStep, RebuildStep, Switched;
    if a.OpenCreate? || a.OpenUpdate? || a.CommitWrite? || a.AbortWrite? { WriterSound(f, s, a); }
    else if a.Pick? || a.Publish? || a.Mark? || a.RelayCrash? { RelaySound(f, s, a); }
    else if a.Poll? || a.ConsumerPut? || a.ConsumerGet? || a.CommitOffset? || a.ConsumerCrash? { ConsumerSound(f, s, a); }
    else if a.SwitchIndex? { SwitchSound(f, s); }
    else { RebuildSound(f, s, a); }
  }

  lemma {:induction false} RunSound(f: Formats, s: System, actions: seq<Action>)
    requires Sound(f, s)
    ensures Sound(f, Run(f, s, actions))
    decreases |actions|
  {
    if actions != [] {
      StepSound(f, s, actions[0]);
      hide Sound, Step;
      RunSound(f, Step(f, s, actions[0]), actions[1..]);
    }
  }
}
