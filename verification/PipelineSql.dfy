/** What every write transaction keeps: version chains, and outbox slots in version order. */
module PipelineSql {
  import opened Prelude
  import opened Orders
  import opened Pipeline

  ghost predicate OrderOk(f: Formats, sql: Sql, id: string)
    requires id in sql.orders && id in sql.past && id in sql.slots
  {
    Chain(f, id, sql.past[id]) && sql.orders[id] == sql.past[id][|sql.past[id]| - 1] && |sql.slots[id]| == |sql.past[id]|
  }

  ghost predicate HistoryOk(f: Formats, sql: Sql) {
    && sql.past.Keys == sql.orders.Keys && sql.slots.Keys == sql.orders.Keys
    && forall id {:trigger OrderOk(f, sql, id)} :: id in sql.orders ==> OrderOk(f, sql, id)
  }

  /** A version SQL really committed. */
  ghost predicate Authentic(sql: Sql, o: Order) {
    o.id in sql.past && 1 <= o.version <= |sql.past[o.id]| && sql.past[o.id][o.version - 1] == o
  }

  ghost predicate SlotOf(sql: Sql, o: Order, q: nat) {
    Authentic(sql, o) && o.id in sql.slots && o.version <= |sql.slots[o.id]| && sql.slots[o.id][o.version - 1] == q
  }

  /** The outbox holds version k + 1 of an order in the slot it was enqueued under. */
  ghost predicate Enqueued(sql: Sql, id: string, k: int) {
    id in sql.past && id in sql.slots && 0 <= k < |sql.past[id]| && k < |sql.slots[id]| ==>
      sql.slots[id][k] in sql.outbox && sql.outbox[sql.slots[id][k]].event.order == sql.past[id][k]
  }

  ghost predicate RowOk(f: Formats, sql: Sql, q: nat)
    requires q in sql.outbox
  {
    q < sql.nextSeq && SlotOf(sql, sql.outbox[q].event.order, q) && ValidateEvent(f, sql.outbox[q].event).Ok?
  }

  ghost predicate RowsOk(f: Formats, sql: Sql) {
    && (forall id, k {:trigger Enqueued(sql, id, k)} :: Enqueued(sql, id, k))
    && (forall q {:trigger RowOk(f, sql, q)} :: q in sql.outbox ==> RowOk(f, sql, q))
  }

  ghost predicate Ascends(s: seq<nat>) { forall j, k :: 0 <= j < k < |s| ==> s[j] < s[k] }

  /** Later versions sit in later slots, although slots of different orders may become visible in any order. */
  ghost predicate SlotsAscend(sql: Sql) {
    forall id {:trigger Slots(sql, id)} :: Ascends(Slots(sql, id))
  }

  ghost predicate WriterOk(f: Formats, sql: Sql, w: Writer) {
    var id := w.event.order.id;
    && w.slot < sql.nextSeq && w.slot !in sql.outbox && ValidateEvent(f, w.event).Ok?
    && (forall k :: 0 <= k < |Slots(sql, id)| ==> Slots(sql, id)[k] < w.slot)
    && Chain(f, id, Past(sql, id) + [w.event.order])
  }

  /** No two open writers touch one order or share a slot. */
  ghost predicate Apart(open: seq<Writer>) {
    forall i, j :: 0 <= i < j < |open| ==> open[i].event.order.id != open[j].event.order.id && open[i].slot != open[j].slot
  }

  ghost predicate OpenOk(f: Formats, sql: Sql) {
    && (forall w {:trigger WriterOk(f, sql, w)} :: w in sql.open ==> WriterOk(f, sql, w))
    && Apart(sql.open)
  }

  ghost predicate SqlOk(f: Formats, sql: Sql) { HistoryOk(f, sql) && RowsOk(f, sql) && SlotsAscend(sql) && OpenOk(f, sql) }

  /** Committed rows, versions and outbox events stay; a sent row stays sent. */
  ghost predicate Grows(sql: Sql, sql': Sql) {
    && (forall id :: id in sql.orders ==> id in sql'.orders && sql.orders[id].version <= sql'.orders[id].version)
    && (forall o :: Authentic(sql, o) ==> Authentic(sql', o))
    && (forall o, q :: SlotOf(sql, o, q) ==> SlotOf(sql', o, q))
    && (forall q :: q in sql.outbox ==> q in sql'.outbox && sql'.outbox[q].event == sql.outbox[q].event && (sql.outbox[q].sent ==> sql'.outbox[q].sent))
  }

  // ---- opening a transaction ----

  lemma {:induction false} OpenKeeps(f: Formats, sql: Sql, key: Option<string>, o: Order, eventId: string)
    requires SqlOk(f, sql) && !Locked(sql, o.id) && Chain(f, o.id, Past(sql, o.id) + [o]) && Identifier(f, eventId)
    ensures SqlOk(f, Opened(sql, key, o, eventId))
  {
    var sql' := Opened(sql, key, o, eventId);
    OpenedTables(f, sql, key, o, eventId);
    OpenedWriter(f, sql, key, o, eventId);
    OpenedApart(f, sql, key, o, eventId);
    var w := Writer(key, sql.nextSeq, Event(1, eventId, o));
    hide HistoryOk, RowsOk, SlotsAscend, Apart, Locked, WriterOk;
    forall v | v in sql'.open ensures WriterOk(f, sql', v) {
      if v != w { assert WriterOk(f, sql, v); WriterStays(f, sql, sql', v); }
    }
  }

  lemma {:induction false} WriterStays(f: Formats, sql: Sql, sql': Sql, w: Writer)
    requires WriterOk(f, sql, w) && sql.nextSeq <= sql'.nextSeq && forall q :: q in sql'.outbox ==> q in sql.outbox
    requires sql'.past == sql.past && sql'.slots == sql.slots
    ensures WriterOk(f, sql', w)
  {
    hide Chain, ValidateEvent;
    assert Past(sql', w.event.order.id) == Past(sql, w.event.order.id);
    assert Slots(sql', w.event.order.id) == Slots(sql, w.event.order.id);
  }

  lemma {:induction false} OpenedApart(f: Formats, sql: Sql, key: Option<string>, o: Order, eventId: string)
    requires OpenOk(f, sql) && !Locked(sql, o.id)
    ensures Apart(Opened(sql, key, o, eventId).open)
  {
    hide Chain, ValidateEvent;
    forall i | 0 <= i < |sql.open| ensures sql.open[i].event.order.id != o.id && sql.open[i].slot < sql.nextSeq {
      assert sql.open[i] in sql.open && WriterOk(f, sql, sql.open[i]);
    }
  }

  lemma {:induction false} OpenedTables(f: Formats, sql: Sql, key: Option<string>, o: Order, eventId: string)
    requires SqlOk(f, sql)
    ensures var sql' := Opened(sql, key, o, eventId); HistoryOk(f, sql') && RowsOk(f, sql') && SlotsAscend(sql')
  {
    hide Chain, ValidateEvent, OpenOk, Ascends;
    var sql' := Opened(sql, key, o, eventId);
    forall id | id in sql'.orders ensures OrderOk(f, sql', id) { assert OrderOk(f, sql, id); }
    forall id, k ensures Enqueued(sql', id, k) { assert Enqueued(sql, id, k); }
    forall q | q in sql'.outbox ensures RowOk(f, sql', q) { assert RowOk(f, sql, q); }
    forall id ensures Ascends(Slots(sql', id)) { assert Slots(sql', id) == Slots(sql, id); }
  }

  lemma {:induction false} OpenedWriter(f: Formats, sql: Sql, key: Option<string>, o: Order, eventId: string)
    requires SqlOk(f, sql) && Chain(f, o.id, Past(sql, o.id) + [o]) && Identifier(f, eventId)
    ensures WriterOk(f, Opened(sql, key, o, eventId), Writer(key, sql.nextSeq, Event(1, eventId, o)))
  {
    hide HistoryOk, RowsOk, OpenOk, SlotsAscend, Chain, ValidateEvent;
    var sql' := Opened(sql, key, o, eventId);
    assert Past(sql', o.id) == Past(sql, o.id) && Slots(sql', o.id) == Slots(sql, o.id);
    assert (Past(sql, o.id) + [o])[|Past(sql, o.id)|] == o;
    ChainValid(f, o.id, Past(sql, o.id) + [o], |Past(sql, o.id)|, eventId);
    SlotsBelow(f, sql, o.id);
    assert sql.nextSeq !in sql.outbox by { NextUnused(f, sql); }
  }

  lemma {:induction false} ChainValid(f: Formats, id: string, h: seq<Order>, k: nat, eventId: string)
    requires Chain(f, id, h) && k < |h| && Identifier(f, eventId)
    ensures ValidateEvent(f, Event(1, eventId, h[k])).Ok? && h[k].id == id && h[k].version == k + 1
  {
    assert WellFormed(f, h[k]);
  }

  lemma {:induction false} NextUnused(f: Formats, sql: Sql)
    requires SqlOk(f, sql)
    ensures forall q :: q in sql.outbox ==> q < sql.nextSeq
  {
    hide HistoryOk, OpenOk, SlotsAscend, SlotOf, ValidateEvent;
    forall q | q in sql.outbox ensures q < sql.nextSeq { assert RowOk(f, sql, q); }
  }

  lemma {:induction false} SlotsBelow(f: Formats, sql: Sql, id: string)
    requires SqlOk(f, sql)
    ensures forall k :: 0 <= k < |Slots(sql, id)| ==> Slots(sql, id)[k] < sql.nextSeq
  {
    NextUnused(f, sql);
    hide OpenOk, SlotsAscend, ValidateEvent, Chain, SlotOf;
    forall k | 0 <= k < |Slots(sql, id)| ensures Slots(sql, id)[k] < sql.nextSeq {
      assert OrderOk(f, sql, id) && Enqueued(sql, id, k);
    }
  }

  lemma {:induction false} CreateChain(f: Formats, sql: Sql, data: Input, id: string, now: string)
    requires SqlOk(f, sql) && CreateInput(data).Ok? && Identifier(f, id) && f.isTime(now) && id !in sql.orders
    ensures var o := NewOrder(CreateInput(data).value, id, now); o.id == id && Chain(f, id, Past(sql, id) + [o])
  {
    assert Past(sql, id) == [];
    hide SqlOk, WellFormed, CreateInput, Identifier;
    CreatedWellFormed(f, data, id, now);
    var o := NewOrder(CreateInput(data).value, id, now);
    assert [] + [o] == [o];
    FirstVersion(f, id, o);
  }

  lemma FirstVersion(f: Formats, id: string, o: Order)
    requires o.id == id && o.version == 1 && o.status == "created" && WellFormed(f, o)
    ensures Chain(f, id, [o])
  {
    hide WellFormed;
  }

  lemma {:induction false} UpdateChain(f: Formats, sql: Sql, id: string, expectedVersion: int, status: string)
    requires SqlOk(f, sql) && id in sql.orders && Transition(sql.orders[id], expectedVersion, status).Ok?
    ensures var o := Transition(sql.orders[id], expectedVersion, status).value; o.id == id && Chain(f, id, Past(sql, id) + [o])
  {
    assert OrderOk(f, sql, id);
    hide HistoryOk, RowsOk, OpenOk, SlotsAscend;
    ChainExtends(f, id, sql.past[id], expectedVersion, status);
  }

  lemma {:induction false} ChainExtends(f: Formats, id: string, h: seq<Order>, expectedVersion: int, status: string)
    requires Chain(f, id, h) && Transition(h[|h| - 1], expectedVersion, status).Ok?
    ensures var o := Transition(h[|h| - 1], expectedVersion, status).value; o.id == id && Chain(f, id, h + [o])
  {
    var o := Transition(h[|h| - 1], expectedVersion, status).value;
    ChainVersion(f, id, h, |h| - 1);
    ChainLast(f, id, h);
    TransitionWellFormed(f, h[|h| - 1], expectedVersion, status);
    TransitionColumns(h[|h| - 1], expectedVersion, status);
    hide WellFormed, Transition, Chain;
    ChainAppends(f, id, h, o);
  }

  lemma ChainLast(f: Formats, id: string, h: seq<Order>)
    requires Chain(f, id, h)
    ensures WellFormed(f, h[|h| - 1])
  {
    hide WellFormed;
  }

  lemma {:induction false} ChainAppends(f: Formats, id: string, h: seq<Order>, o: Order)
    requires Chain(f, id, h) && o.id == id && o.version == |h| + 1 && WellFormed(f, o)
    requires Transition(h[|h| - 1], |h|, o.status) == Ok(o)
    ensures Chain(f, id, h + [o])
  {
    hide WellFormed, Transition;
    var g := h + [o];
    forall k | 0 < k < |g| ensures Link(g, k) {
      if k < |h| { assert Link(h, k) && g[k] == h[k] && g[k - 1] == h[k - 1]; }
    }
  }

  lemma TransitionColumns(o: Order, expectedVersion: int, status: string)
    requires Transition(o, expectedVersion, status).Ok?
    ensures var n := Transition(o, expectedVersion, status).value;
      n.id == o.id && n.status == status && n.version == o.version + 1 && expectedVersion == o.version
  {
  }

  // ---- committing ----

  lemma {:induction false} CommitHistory(f: Formats, sql: Sql, i: nat)
    requires SqlOk(f, sql) && i < |sql.open|
    ensures HistoryOk(f, Committed(sql, i))
  {
    var w := sql.open[i];
    CommitChain(f, sql, i);
    NewVersion(f, sql, i);
    CommittedColumns(sql, i);
    hide Chain, RowsOk, SlotsAscend, OpenOk, Committed, Past, Slots;
    HistoryAppends(f, sql, Committed(sql, i), w.event.order, w.slot);
  }

  lemma CommitChain(f: Formats, sql: Sql, i: nat)
    requires SqlOk(f, sql) && i < |sql.open|
    ensures var o := sql.open[i].event.order; Chain(f, o.id, Past(sql, o.id) + [o])
  {
    hide Chain, HistoryOk, RowsOk, SlotsAscend;
    assert sql.open[i] in sql.open && WriterOk(f, sql, sql.open[i]);
  }

  lemma {:induction false} HistoryAppends(f: Formats, sql: Sql, sql': Sql, o: Order, slot: nat)
    requires HistoryOk(f, sql) && Chain(f, o.id, Past(sql, o.id) + [o]) && |Slots(sql, o.id)| == |Past(sql, o.id)|
    requires sql'.orders == sql.orders[o.id := o] && sql'.past == sql.past[o.id := Past(sql, o.id) + [o]]
    requires sql'.slots == sql.slots[o.id := Slots(sql, o.id) + [slot]]
    ensures HistoryOk(f, sql')
  {
    hide Chain, OrderOk, Past, Slots;
    forall id | id in sql'.orders ensures OrderOk(f, sql', id) {
      if id == o.id {
        AppendedOk(f, sql, sql', o, slot);
      } else {
        assert OrderOk(f, sql, id);
        OrderStays(f, sql, sql', id);
      }
    }
  }

  lemma CommittedColumns(sql: Sql, i: nat)
    requires i < |sql.open|
    ensures var o, sql' := sql.open[i].event.order, Committed(sql, i);
      && sql'.orders == sql.orders[o.id := o]
      && sql'.past == sql.past[o.id := Past(sql, o.id) + [o]]
      && sql'.slots == sql.slots[o.id := Slots(sql, o.id) + [sql.open[i].slot]]
  {
  }

  lemma AppendedOk(f: Formats, sql: Sql, sql': Sql, o: Order, slot: nat)
    requires Chain(f, o.id, Past(sql, o.id) + [o]) && |Slots(sql, o.id)| == |Past(sql, o.id)|
    requires o.id in sql'.orders && o.id in sql'.past && o.id in sql'.slots && sql'.orders[o.id] == o
    requires sql'.past[o.id] == Past(sql, o.id) + [o] && sql'.slots[o.id] == Slots(sql, o.id) + [slot]
    ensures OrderOk(f, sql', o.id)
  {
    hide Chain;
  }

  lemma OrderStays(f: Formats, sql: Sql, sql': Sql, id: string)
    requires id in sql.orders && id in sql.past && id in sql.slots && OrderOk(f, sql, id)
    requires id in sql'.orders && id in sql'.past && id in sql'.slots
    requires sql'.orders[id] == sql.orders[id] && sql'.past[id] == sql.past[id] && sql'.slots[id] == sql.slots[id]
    ensures OrderOk(f, sql', id)
  {
    hide Chain;
  }

  lemma {:induction false} NewVersion(f: Formats, sql: Sql, i: nat)
    requires SqlOk(f, sql) && i < |sql.open|
    ensures var o := sql.open[i].event.order; o.version == |Past(sql, o.id)| + 1 && |Slots(sql, o.id)| == |Past(sql, o.id)|
  {
    var n := sql.open[i].event.order;
    assert sql.open[i] in sql.open && WriterOk(f, sql, sql.open[i]);
    ChainVersion(f, n.id, Past(sql, n.id) + [n], |Past(sql, n.id)|);
    hide Chain, RowsOk, SlotsAscend, ValidateEvent;
    if n.id in sql.orders { assert OrderOk(f, sql, n.id); }
  }

  lemma {:induction false} ChainVersion(f: Formats, id: string, h: seq<Order>, k: nat)
    requires Chain(f, id, h) && k < |h|
    ensures h[k].version == k + 1 && h[k].id == id
  {
  }

  lemma {:induction false} CommitAuthentic(f: Formats, sql: Sql, i: nat, o: Order)
    requires SqlOk(f, sql) && i < |sql.open|
    ensures Authentic(sql, o) ==> Authentic(Committed(sql, i), o)
    ensures Authentic(Committed(sql, i), sql.open[i].event.order)
  {
    NewVersion(f, sql, i);
    hide SqlOk;
  }

  lemma {:induction false} CommitSlots(f: Formats, sql: Sql, i: nat, o: Order, q: nat)
    requires SqlOk(f, sql) && i < |sql.open|
    ensures SlotOf(sql, o, q) ==> SlotOf(Committed(sql, i), o, q)
    ensures SlotOf(Committed(sql, i), sql.open[i].event.order, sql.open[i].slot)
  {
    NewVersion(f, sql, i);
    hide SqlOk;
  }

  lemma {:induction false} CommitEnqueued(f: Formats, sql: Sql, i: nat, id: string, k: int)
    requires SqlOk(f, sql) && i < |sql.open|
    ensures Enqueued(Committed(sql, i), id, k)
  {
    NewVersion(f, sql, i);
    assert sql.open[i] in sql.open && WriterOk(f, sql, sql.open[i]) && Enqueued(sql, id, k);
    CommittedColumns(sql, i);
    var slot := sql.open[i].slot;
    assert slot !in sql.outbox && Committed(sql, i).outbox == sql.outbox[slot := OutRow(sql.open[i].event, false)];
    hide SqlOk, Chain, ValidateEvent, WriterOk, Committed;
    EnqueuedAppends(sql, Committed(sql, i), sql.open[i].event, slot, id, k);
  }

  lemma EnqueuedAppends(sql: Sql, sql': Sql, e: Event, slot: nat, id: string, k: int)
    requires Enqueued(sql, id, k) && slot !in sql.outbox && |Slots(sql, e.order.id)| == |Past(sql, e.order.id)|
    requires sql'.past == sql.past[e.order.id := Past(sql, e.order.id) + [e.order]]
    requires sql'.slots == sql.slots[e.order.id := Slots(sql, e.order.id) + [slot]]
    requires sql'.outbox == sql.outbox[slot := OutRow(e, false)]
    ensures Enqueued(sql', id, k)
  {
  }

  lemma {:induction false} CommitRows(f: Formats, sql: Sql, i: nat)
    requires SqlOk(f, sql) && i < |sql.open|
    ensures RowsOk(f, Committed(sql, i))
  {
    var w := sql.open[i];
    assert w in sql.open && WriterOk(f, sql, w);
    var sql' := Committed(sql, i);
    hide HistoryOk, SlotsAscend, OpenOk, Chain, ValidateEvent, SlotOf, Enqueued;
    forall id, k ensures Enqueued(sql', id, k) { CommitEnqueued(f, sql, i, id, k); }
    forall q | q in sql'.outbox ensures RowOk(f, sql', q) {
      if q != w.slot { assert RowOk(f, sql, q); }
      CommitSlots(f, sql, i, sql'.outbox[q].event.order, q);
    }
  }

  lemma {:induction false} CommitAscends(f: Formats, sql: Sql, i: nat)
    requires SqlOk(f, sql) && i < |sql.open|
    ensures SlotsAscend(Committed(sql, i))
  {
    var w := sql.open[i];
    assert w in sql.open && WriterOk(f, sql, w);
    hide HistoryOk, RowsOk, OpenOk, Chain, ValidateEvent;
    forall id ensures Ascends(Slots(Committed(sql, i), id)) { assert Ascends(Slots(sql, id)); }
  }

  lemma {:induction false} CommitOpen(f: Formats, sql: Sql, i: nat)
    requires SqlOk(f, sql) && i < |sql.open|
    ensures OpenOk(f, Committed(sql, i))
  {
    var sql' := Committed(sql, i);
    OpenRest(f, sql, i);
    hide Chain, ValidateEvent, RowsOk, SlotsAscend, HistoryOk;
    forall w | w in sql'.open ensures WriterOk(f, sql', w) {
      var j :| 0 <= j < |sql.open| && j != i && sql.open[j] == w;
      assert WriterOk(f, sql, w);
      assert Past(sql', w.event.order.id) == Past(sql, w.event.order.id) && Slots(sql', w.event.order.id) == Slots(sql, w.event.order.id);
    }
  }

  lemma {:induction false} OpenRest(f: Formats, sql: Sql, i: nat)
    requires OpenOk(f, sql) && i < |sql.open|
    ensures var rest := Without(sql.open, i);
      && (forall w :: w in rest ==> exists j :: 0 <= j < |sql.open| && j != i && sql.open[j] == w)
      && Apart(rest)
      && (forall j :: 0 <= j < |sql.open| && j != i ==>
            sql.open[j].event.order.id != sql.open[i].event.order.id && sql.open[j].slot != sql.open[i].slot)
  {
    hide WriterOk;
    var rest := Without(sql.open, i);
    forall a, b | 0 <= a < b < |rest| ensures rest[a].event.order.id != rest[b].event.order.id && rest[a].slot != rest[b].slot {
      assert rest[a] == sql.open[if a < i then a else a + 1] && rest[b] == sql.open[if b < i then b else b + 1];
    }
    forall w | w in rest ensures exists j :: 0 <= j < |sql.open| && j != i && sql.open[j] == w {
      var a :| 0 <= a < |rest| && rest[a] == w;
      assert rest[a] == sql.open[if a < i then a else a + 1];
    }
  }

  lemma {:induction false} AbortKeeps(f: Formats, sql: Sql, i: nat)
    requires SqlOk(f, sql) && i < |sql.open|
    ensures SqlOk(f, sql.(open := Without(sql.open, i)))
  {
    OpenRest(f, sql, i);
    var sql' := sql.(open := Without(sql.open, i));
    SameTables(f, sql, sql');
    hide HistoryOk, RowsOk, SlotsAscend, WriterOk;
    forall w | w in sql'.open ensures WriterOk(f, sql', w) {
      assert w in sql.open && WriterOk(f, sql, w);
      WriterStays(f, sql, sql', w);
    }
  }

  lemma {:induction false} SameTables(f: Formats, sql: Sql, sql': Sql)
    requires SqlOk(f, sql) && sql' == sql.(open := sql'.open)
    ensures HistoryOk(f, sql') && RowsOk(f, sql') && SlotsAscend(sql')
  {
    hide Chain, ValidateEvent, OpenOk, Ascends;
    forall id | id in sql'.orders ensures OrderOk(f, sql', id) { assert OrderOk(f, sql, id); }
    forall id, k ensures Enqueued(sql', id, k) { assert Enqueued(sql, id, k); }
    forall q | q in sql'.outbox ensures RowOk(f, sql', q) { assert RowOk(f, sql, q); }
    forall id ensures Ascends(Slots(sql', id)) { assert Slots(sql', id) == Slots(sql, id); }
  }

  lemma {:induction false} CommitGrows(f: Formats, sql: Sql, i: nat)
    requires SqlOk(f, sql) && i < |sql.open|
    ensures Grows(sql, Committed(sql, i))
  {
    var sql' := Committed(sql, i);
    CommitColumns(f, sql, i);
    hide SqlOk, Authentic, SlotOf, Committed;
    forall o | Authentic(sql, o) ensures Authentic(sql', o) { CommitAuthentic(f, sql, i, o); }
    forall o, q | SlotOf(sql, o, q) ensures SlotOf(sql', o, q) { CommitSlots(f, sql, i, o, q); }
  }

  lemma {:induction false} CommitColumns(f: Formats, sql: Sql, i: nat)
    requires SqlOk(f, sql) && i < |sql.open|
    ensures var sql' := Committed(sql, i);
      && (forall id :: id in sql.orders ==> id in sql'.orders && sql.orders[id].version <= sql'.orders[id].version)
      && (forall q :: q in sql.outbox ==> q in sql'.outbox && sql'.outbox[q] == sql.outbox[q])
  {
    assert sql.open[i] in sql.open && WriterOk(f, sql, sql.open[i]);
    NewVersion(f, sql, i);
    hide HistoryOk, RowsOk, SlotsAscend, OpenOk, Chain, ValidateEvent;
    forall id | id in sql.orders ensures sql.orders[id].version <= Committed(sql, i).orders[id].version { VersionIsLength(f, sql, id); }
  }

  lemma {:induction false} VersionIsLength(f: Formats, sql: Sql, id: string)
    requires HistoryOk(f, sql) && id in sql.orders
    ensures sql.orders[id].version == |sql.past[id]| && sql.orders[id].id == id && Authentic(sql, sql.orders[id])
    ensures |id| == 36
  {
    assert OrderOk(f, sql, id);
    assert WellFormed(f, sql.past[id][|sql.past[id]| - 1]);
  }

  lemma GrowsReflexive(sql: Sql, sql': Sql)
    requires sql'.orders == sql.orders && sql'.past == sql.past && sql'.slots == sql.slots && sql'.outbox == sql.outbox
    ensures Grows(sql, sql')
  {
  }

  /** Every write step keeps the SQL invariant and only adds to what is committed. */
  lemma {:induction false} WriterKeeps(f: Formats, sql: Sql, a: Action)
    requires SqlOk(f, sql)
    ensures SqlOk(f, WriterStep(f, sql, a)) && Grows(sql, WriterStep(f, sql, a))
  {
    GrowsReflexive(sql, sql);
    hide SqlOk, Grows, Committed, Chain, Transition, CreateInput;
    match a
    case OpenCreate(data, key, id, eventId, now) =>
      if WriterStep(f, sql, a) != sql {
        var o := NewOrder(CreateInput(data).value, id, now);
        CreateChain(f, sql, data, id, now);
        OpenKeeps(f, sql, Some(key), o, eventId);
        GrowsReflexive(sql, Opened(sql, Some(key), o, eventId));
      }
    case OpenUpdate(id, expectedVersion, status, eventId) =>
      if WriterStep(f, sql, a) != sql {
        var o := Transition(sql.orders[id], expectedVersion, status).value;
        UpdateChain(f, sql, id, expectedVersion, status);
        OpenKeeps(f, sql, None, o, eventId);
        GrowsReflexive(sql, Opened(sql, None, o, eventId));
      }
    case CommitWrite(i) => if i < |sql.open| { CommitKeeps(f, sql, i); CommitGrows(f, sql, i); }
    case AbortWrite(i) => if i < |sql.open| { AbortKeeps(f, sql, i); GrowsReflexive(sql, sql.(open := Without(sql.open, i))); }
    case _ =>
  }

  lemma {:induction false} CommitKeeps(f: Formats, sql: Sql, i: nat)
    requires SqlOk(f, sql) && i < |sql.open|
    ensures SqlOk(f, Committed(sql, i))
  {
    CommitHistory(f, sql, i);
    CommitRows(f, sql, i);
    CommitAscends(f, sql, i);
    CommitOpen(f, sql, i);
    hide HistoryOk, RowsOk, SlotsAscend, OpenOk, Committed;
  }

  // ---- marking ----

  function MarkedSent(sql: Sql, q: nat): Sql {
    sql.(outbox := if q in sql.outbox then sql.outbox[q := sql.outbox[q].(sent := true)] else sql.outbox)
  }

  lemma {:induction false} MarkTables(f: Formats, sql: Sql, q: nat)
    requires SqlOk(f, sql)
    ensures HistoryOk(f, MarkedSent(sql, q)) && RowsOk(f, MarkedSent(sql, q)) && SlotsAscend(MarkedSent(sql, q))
  {
    var sql' := MarkedSent(sql, q);
    hide Chain, ValidateEvent, OpenOk, Ascends;
    forall id | id in sql'.orders ensures OrderOk(f, sql', id) { assert OrderOk(f, sql, id); }
    forall id, k ensures Enqueued(sql', id, k) { assert Enqueued(sql, id, k); }
    forall r | r in sql'.outbox ensures RowOk(f, sql', r) { assert RowOk(f, sql, r); }
    forall id ensures Ascends(Slots(sql', id)) { assert Slots(sql', id) == Slots(sql, id); }
  }

  lemma {:induction false} MarkKeeps(f: Formats, sql: Sql, q: nat)
    requires SqlOk(f, sql)
    ensures SqlOk(f, MarkedSent(sql, q)) && Grows(sql, MarkedSent(sql, q))
  {
    var sql' := MarkedSent(sql, q);
    MarkTables(f, sql, q);
    MarkGrows(sql, q);
    hide HistoryOk, RowsOk, SlotsAscend, WriterOk, Apart, Grows;
    forall w | w in sql'.open ensures WriterOk(f, sql', w) {
      assert WriterOk(f, sql, w);
      WriterStays(f, sql, sql', w);
    }
  }

  lemma {:induction false} MarkGrows(sql: Sql, q: nat)
    ensures Grows(sql, MarkedSent(sql, q))
  {
  }
}
