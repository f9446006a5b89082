/** The adapters and the two loops' bodies as they run when nothing else interferes. */
module Adapters {
  import opened Prelude
  import opened Orders
  import opened Pipeline
  import opened PipelineSql
  import opened PipelineTheorems

  class Search {
    var docs: Index

    constructor ()
      ensures docs == map[]
    {
      docs := map[];
    }

    /** One conditional PUT and, on a version conflict, one GET of the stored document. */
    method IndexOrder(o: Order) returns (answer: Answer)
      modifies this`docs
      ensures docs == Put(old(docs), o)
      ensures answer == if Accepts(old(docs), o) then Indexed else Check(old(docs), o)
    {
      if o.id !in docs || docs[o.id].version < o.version {
        docs := docs[o.id := Doc(o, o.version)];
        return Indexed;
      }
      var stored := docs[o.id];
      if stored.source.version != stored.version || stored.source.id != o.id {
        return Refused("projection_version_metadata_mismatch");
      }
      if stored.version > o.version { return OlderIgnored; }
      if stored.source == o { return DuplicateIgnored; }
      answer := Refused("event_version_payload_conflict");
    }
  }

  datatype Saved = Saved(order: Order, created: bool)

  class Repository {
    const f: Formats
    var sql: Sql

    constructor (f: Formats)
      ensures this.f == f && SqlOk(f, sql) && sql.orders == map[] && sql.open == []
    {
      this.f := f;
      sql := START.sql;
      new;
      assert SqlOk(f, sql) by { hide Chain, ValidateEvent; }
    }

    /** Create by idempotency key; the fresh id, event id and clock reading are the caller's to supply. */
    method Create(data: Input, key: string, id: string, eventId: string, now: string) returns (r: Result<Saved>)
      requires SqlOk(f, sql) && sql.open == [] && Identifier(f, id) && Identifier(f, eventId) && f.isTime(now)
      requires forall k :: k in sql.keys ==> sql.keys[k] in sql.orders
      modifies this`sql
      ensures SqlOk(f, sql) && sql.open == [] && Grows(old(sql), sql)
      ensures CreateInput(data).Problem? ==> r == Problem(CreateInput(data).status, CreateInput(data).code) && sql == old(sql)
      ensures CreateInput(data).Ok? && key in old(sql).keys ==>
        sql == old(sql)
        && r == if SameInput(sql.orders[sql.keys[key]], data) then Ok(Saved(sql.orders[sql.keys[key]], false))
                else Problem(409, "idempotency_key_reused_with_different_payload")
      ensures CreateInput(data).Ok? && key !in old(sql).keys && id !in old(sql).orders ==>
        r == Ok(Saved(NewOrder(CreateInput(data).value, id, now), true)) && Adds(old(sql), sql, r.value.order, eventId) && sql.keys == old(sql).keys[key := id]
    {
      hide SqlOk, Grows, Identifier, WriterStep, Opened, Locked, KeyLocked, CreateInput;
      var checked := CreateInput(data);
      GrowsReflexive(sql, sql);
      CheckedInput(data);
      if checked.Problem? { return Problem(checked.status, checked.code); }
      if key in sql.keys { return KeyAnswer(sql.orders[sql.keys[key]], checked.value); }
      if id in sql.orders { return Problem(500, "1062"); }
      var o := NewOrder(checked.value, id, now);
      CreateOpens(f, sql, data, key, id, eventId, now);
      Write(OpenCreate(data, key, id, eventId, now), Some(key), o, eventId);
      r := Ok(Saved(o, true));
    }

    method Update(id: string, expectedVersion: int, status: string, eventId: string) returns (r: Result<Order>)
      requires SqlOk(f, sql) && sql.open == [] && Identifier(f, eventId)
      modifies this`sql
      ensures SqlOk(f, sql) && sql.open == [] && Grows(old(sql), sql)
      ensures id !in old(sql).orders ==> r == Problem(404, "order_not_found")
      ensures id in old(sql).orders ==> r == Transition(old(sql).orders[id], expectedVersion, status)
      ensures if r.Ok? then Adds(old(sql), sql, r.value, eventId) else sql == old(sql)
    {
      GrowsReflexive(sql, sql);
      if id !in sql.orders { return Problem(404, "order_not_found"); }
      r := Transition(sql.orders[id], expectedVersion, status);
      if r.Problem? { return; }
      VersionIsLength(f, sql, id);
      Write(OpenUpdate(id, expectedVersion, status, eventId), None, r.value, eventId);
    }

    /** INSERT or UPDATE of the order, INSERT of its outbox row, COMMIT. */
    method Write(a: Action, key: Option<string>, o: Order, eventId: string)
      requires SqlOk(f, sql) && sql.open == [] && WriterStep(f, sql, a) == Opened(sql, key, o, eventId)
      modifies this`sql
      ensures SqlOk(f, sql) && sql.open == [] && Grows(old(sql), sql) && Adds(old(sql), sql, o, eventId)
      ensures sql.keys == if key.Some? then old(sql).keys[key.value := o.id] else old(sql).keys
    {
      hide *;
      WrittenOk(f, sql, a, key, o, eventId);
      var slot := sql.nextSeq;
      sql := sql.(orders := sql.orders[o.id := o],
                  keys := if key.Some? then sql.keys[key.value := o.id] else sql.keys,
                  outbox := sql.outbox[slot := OutRow(Event(1, eventId, o), false)], nextSeq := slot + 1,
                  past := sql.past[o.id := Past(sql, o.id) + [o]],
                  slots := sql.slots[o.id := Slots(sql, o.id) + [slot]]);
    }

    /** The lowest unsent outbox slot. */
    method PendingOne() returns (r: Option<nat>)
      ensures r == Pending(sql)
    {
      r := None;
      var rest := sql.outbox.Keys;
      while rest != {}
        invariant rest <= sql.outbox.Keys
        invariant r.Some? ==> r.value in sql.outbox && !sql.outbox[r.value].sent
        invariant forall q :: q in sql.outbox && q !in rest && !sql.outbox[q].sent ==> r.Some? && r.value <= q
        decreases |rest|
      {
        var q :| q in rest;
        rest := rest - {q};
        if !sql.outbox[q].sent && (r.None? || q < r.value) { r := Some(q); }
      }
    }

    method MarkSent(q: nat)
      modifies this`sql
      ensures sql == MarkedSent(old(sql), q)
    {
      if q in sql.outbox && !sql.outbox[q].sent { sql := sql.(outbox := sql.outbox[q := sql.outbox[q].(sent := true)]); }
      else { assert q in sql.outbox ==> sql.outbox == sql.outbox[q := sql.outbox[q].(sent := true)]; }
    }
  }

  lemma CheckedInput(data: Input)
    ensures CreateInput(data).Ok? ==> CreateInput(data).value == Input(Strip(data.item), data.quantity, data.unitPrice)
  {
    hide Strip;
  }

  lemma CreateOpens(f: Formats, sql: Sql, data: Input, key: string, id: string, eventId: string, now: string)
    requires CreateInput(data).Ok? && Identifier(f, id) && Identifier(f, eventId) && f.isTime(now)
    requires key !in sql.keys && id !in sql.orders && sql.open == []
    ensures WriterStep(f, sql, OpenCreate(data, key, id, eventId, now)) == Opened(sql, Some(key), NewOrder(CreateInput(data).value, id, now), eventId)
  {
    hide Identifier, CreateInput;
  }

  /** The row carries this request's data, with the item as it is stored. */
  predicate SameInput(o: Order, data: Input) { o.item == Strip(data.item) && o.quantity == data.quantity && o.unitPrice == data.unitPrice }

  function KeyAnswer(o: Order, data: Input): Result<Saved> {
    if o.item != data.item || o.quantity != data.quantity || o.unitPrice != data.unitPrice
    then Problem(409, "idempotency_key_reused_with_different_payload") else Ok(Saved(o, false))
  }

  /** One order row written, and one unsent outbox row carrying exactly it. */
  ghost predicate Adds(before: Sql, after: Sql, o: Order, eventId: string) {
    && after.orders == before.orders[o.id := o]
    && after.outbox == before.outbox[before.nextSeq := OutRow(Event(1, eventId, o), false)]
  }

  function Written(sql: Sql, key: Option<string>, o: Order, eventId: string): Sql {
    Committed(Opened(sql, key, o, eventId), |sql.open|)
  }

  lemma {:induction false} WrittenOk(f: Formats, sql: Sql, a: Action, key: Option<string>, o: Order, eventId: string)
    requires SqlOk(f, sql) && sql.open == [] && WriterStep(f, sql, a) == Opened(sql, key, o, eventId)
    ensures var after := Written(sql, key, o, eventId); SqlOk(f, after) && Grows(sql, after) && Adds(sql, after, o, eventId)
    ensures Written(sql, key, o, eventId) == sql.(orders := sql.orders[o.id := o],
      keys := if key.Some? then sql.keys[key.value := o.id] else sql.keys,
      outbox := sql.outbox[sql.nextSeq := OutRow(Event(1, eventId, o), false)], nextSeq := sql.nextSeq + 1,
      past := sql.past[o.id := Past(sql, o.id) + [o]], slots := sql.slots[o.id := Slots(sql, o.id) + [sql.nextSeq]])
  {
    WrittenColumns(sql, key, o, eventId);
    var begun := Opened(sql, key, o, eventId);
    assert |begun.open| == 1;
    hide SqlOk, Grows, WriterStep, Opened, Committed, Past, Slots;
    WriterKeeps(f, sql, a);
    CommitKeeps(f, begun, 0);
    CommitGrows(f, begun, 0);
    GrowsTwice(sql, begun, Committed(begun, 0));
  }

  lemma {:induction false} WrittenColumns(sql: Sql, key: Option<string>, o: Order, eventId: string)
    requires sql.open == []
    ensures Written(sql, key, o, eventId) == sql.(orders := sql.orders[o.id := o],
      keys := if key.Some? then sql.keys[key.value := o.id] else sql.keys,
      outbox := sql.outbox[sql.nextSeq := OutRow(Event(1, eventId, o), false)], nextSeq := sql.nextSeq + 1,
      past := sql.past[o.id := Past(sql, o.id) + [o]], slots := sql.slots[o.id := Slots(sql, o.id) + [sql.nextSeq]])
  {
    var begun, w := Opened(sql, key, o, eventId), Writer(key, sql.nextSeq, Event(1, eventId, o));
    assert Past(begun, o.id) == Past(sql, o.id) && Slots(begun, o.id) == Slots(sql, o.id);
    assert begun.open == [w] && |sql.open| == 0 && begun.open[0] == w;
    assert Without(begun.open, 0) == [];
    hide Past, Slots, Without;
  }

  lemma GrowsTwice(a: Sql, b: Sql, c: Sql)
    requires Grows(a, b) && Grows(b, c)
    ensures Grows(a, c)
  {
    hide Authentic, SlotOf;
  }

  class Broker {
    var log: seq<Event>

    constructor ()
      ensures log == []
    {
      log := [];
    }

    method Publish(e: Event, reply: Reply) returns (acked: bool)
      modifies this`log
      ensures acked <==> reply.Answered?
      ensures log == if reply.LostDropped? then old(log) else old(log) + [e]
    {
      if !reply.LostDropped? { log := log + [e]; }
      acked := reply.Answered?;
    }
  }

  /** None: nothing pending. Some(false): the publish was not acknowledged, the row stays pending. */
  method RelayOnce(repo: Repository, broker: Broker, reply: Reply) returns (r: Option<bool>)
    modifies repo`sql, broker`log
    ensures r.None? <==> Pending(old(repo.sql)).None?
    ensures r.None? ==> repo.sql == old(repo.sql) && broker.log == old(broker.log)
    ensures r.Some? ==> var q := Pending(old(repo.sql)).value;
      && (r.value <==> reply.Answered?)
      && broker.log == old(broker.log) + (if reply.LostDropped? then [] else [old(repo.sql).outbox[q].event])
      && repo.sql == if r.value then MarkedSent(old(repo.sql), q) else old(repo.sql)
  {
    var q := repo.PendingOne();
    if q.None? { return None; }
    var acked := broker.Publish(repo.sql.outbox[q.value].event, reply);
    if acked { repo.MarkSent(q.value); }
    r := Some(acked);
  }

  /** The offset moves only after the index call has answered without refusing. */
  method ProjectOne(f: Formats, e: Event, search: Search) returns (commit: bool)
    modifies search`docs
    ensures commit ==> ValidateEvent(f, e).Ok? && e.order.id in search.docs && search.docs[e.order.id].version >= e.order.version
    ensures !commit ==> ValidateEvent(f, e).Problem? || Check(old(search.docs), e.order).Refused?
    ensures commit <==> ValidateEvent(f, e).Ok? && !AnswerTo(old(search.docs), e.order).Refused?
    ensures search.docs == if ValidateEvent(f, e).Ok? then Put(old(search.docs), e.order) else old(search.docs)
  {
    var valid := ValidateEvent(f, e);
    ValidExactly(f, e);
    if valid.Problem? { return false; }
    var answer := search.IndexOrder(valid.value);
    commit := !answer.Refused?;
  }

  /** What the index answers to one more version. */
  function AnswerTo(index: Index, o: Order): Answer { if Accepts(index, o) then Indexed else Check(index, o) }

  /** The answer, by version and content of a document that carries its own version and id. */
  lemma AnswerMeaning(index: Index, o: Order)
    ensures o.id !in index ==> AnswerTo(index, o) == Indexed
    ensures o.id in index && index[o.id].source.version == index[o.id].version && index[o.id].source.id == o.id ==>
      AnswerTo(index, o) == if index[o.id].version < o.version then Indexed
                            else if index[o.id].version > o.version then OlderIgnored
                            else if index[o.id].source == o then DuplicateIgnored
                            else Refused("event_version_payload_conflict")
    ensures o.id in index && index[o.id].version >= o.version && (index[o.id].source.version != index[o.id].version || index[o.id].source.id != o.id) ==>
      AnswerTo(index, o) == Refused("projection_version_metadata_mismatch")
  {
  }

  /** How many of these rows, put one after the other, get this answer. */
  function Tally(index: Index, rows: seq<Order>, answer: Answer): nat {
    if rows == [] then 0
    else
      var init := rows[..|rows| - 1];
      Tally(index, init, answer) + if AnswerTo(Fold(index, init), rows[|rows| - 1]) == answer then 1 else 0
  }

  lemma TallyNext(index: Index, rows: seq<Order>, n: nat)
    requires n < |rows|
    ensures forall a :: Tally(index, rows[..n + 1], a) == Tally(index, rows[..n], a) + if AnswerTo(Fold(index, rows[..n]), rows[n]) == a then 1 else 0
  {
    hide Fold, AnswerTo;
    assert rows[..n + 1][..n] == rows[..n];
  }

  datatype Counts = Counts(attempted: nat, indexed: nat, duplicates: nat, older: nat, errors: nat)

  /** rebuild: every scanned row is put; the counters add up; one refusal ends it. */
  method Rebuild(rows: seq<Order>, search: Search) returns (c: Counts)
    modifies search`docs
    ensures c.errors <= 1 && c.attempted == c.indexed + c.duplicates + c.older + c.errors <= |rows|
    ensures search.docs == Fold(old(search.docs), rows[..c.attempted])
    ensures c.indexed == Tally(old(search.docs), rows[..c.attempted], Indexed)
    ensures c.duplicates == Tally(old(search.docs), rows[..c.attempted], DuplicateIgnored)
    ensures c.older == Tally(old(search.docs), rows[..c.attempted], OlderIgnored)
    ensures c.errors == 0 ==> c.attempted == |rows|
    ensures c.errors == 1 ==> c.attempted > 0 && Check(Fold(old(search.docs), rows[..c.attempted - 1]), rows[c.attempted - 1]).Refused?
  {
    hide Fold, Put, Check, Accepts, Tally, Counted;
    c := Counts(0, 0, 0, 0, 0);
    NothingCounted(old(search.docs), rows);
    while c.attempted < |rows|
      invariant c.errors == 0 && c.attempted <= |rows| && Counted(c, old(search.docs), rows) && search.docs == Fold(old(search.docs), rows[..c.attempted])
    {
      var o := rows[c.attempted];
      FoldAppend(old(search.docs), rows[..c.attempted], o);
      assert rows[..c.attempted + 1] == rows[..c.attempted] + [o];
      var answer := search.IndexOrder(o);
      CountedNext(c, old(search.docs), rows, answer);
      c := c.(attempted := c.attempted + 1);
      match answer
      case OlderIgnored => c := c.(older := c.older + 1);
      case DuplicateIgnored => c := c.(duplicates := c.duplicates + 1);
      case Indexed => c := c.(indexed := c.indexed + 1);
      case Refused(_) =>
        c := c.(errors := 1);
        CountedMeans(c, old(search.docs), rows);
        return;
    }
    CountedMeans(c, old(search.docs), rows);
    assert rows[..|rows|] == rows;
  }

  /** The counters so far say how the rows so far were answered. */
  ghost predicate Counted(c: Counts, index: Index, rows: seq<Order>) {
    && c.attempted == c.indexed + c.duplicates + c.older + c.errors <= |rows|
    && c.indexed == Tally(index, rows[..c.attempted], Indexed) && c.duplicates == Tally(index, rows[..c.attempted], DuplicateIgnored)
    && c.older == Tally(index, rows[..c.attempted], OlderIgnored)
  }

  lemma NothingCounted(index: Index, rows: seq<Order>)
    ensures Counted(Counts(0, 0, 0, 0, 0), index, rows) && Fold(index, rows[..0]) == index
  {
  }

  lemma CountedMeans(c: Counts, index: Index, rows: seq<Order>)
    requires Counted(c, index, rows)
    ensures c.attempted == c.indexed + c.duplicates + c.older + c.errors <= |rows|
    ensures c.indexed == Tally(index, rows[..c.attempted], Indexed) && c.duplicates == Tally(index, rows[..c.attempted], DuplicateIgnored)
    ensures c.older == Tally(index, rows[..c.attempted], OlderIgnored)
  {
  }

  lemma {:induction false} CountedNext(c: Counts, index: Index, rows: seq<Order>, answer: Answer)
    requires Counted(c, index, rows) && c.errors == 0 && c.attempted < |rows| && answer == AnswerTo(Fold(index, rows[..c.attempted]), rows[c.attempted])
    ensures var d := c.(attempted := c.attempted + 1);
      Counted(match answer
              case OlderIgnored => d.(older := d.older + 1)
              case DuplicateIgnored => d.(duplicates := d.duplicates + 1)
              case Indexed => d.(indexed := d.indexed + 1)
              case Refused(_) => d.(errors := 1), index, rows)
  {
    TallyNext(index, rows, c.attempted);
    hide Tally, Fold, AnswerTo;
  }

  /** A client that repeats its request gets its order back; with other data it is refused; either way nothing is written. */
  method CreateTwice(repo: Repository, data: Input, other: Input, key: string, ids: seq<string>, eventIds: seq<string>, now: string)
      returns (first: Result<Saved>, again: Result<Saved>, changed: Result<Saved>)
    requires SqlOk(repo.f, repo.sql) && repo.sql.open == [] && (forall k :: k in repo.sql.keys ==> repo.sql.keys[k] in repo.sql.orders)
    requires |ids| == |eventIds| == 3 && (forall i :: 0 <= i < 3 ==> Identifier(repo.f, ids[i]) && Identifier(repo.f, eventIds[i])) && repo.f.isTime(now)
    requires CreateInput(data).Ok? && CreateInput(other).Ok? && key !in repo.sql.keys && ids[0] !in repo.sql.orders
    modifies repo`sql
    ensures first.Ok? && first.value.created && first.value.order.id == ids[0] && Adds(old(repo.sql), repo.sql, first.value.order, eventIds[0])
    ensures again == Ok(Saved(first.value.order, false))
    ensures changed == if Strip(other.item) == Strip(data.item) && other.quantity == data.quantity && other.unitPrice == data.unitPrice
      then again else Problem(409, "idempotency_key_reused_with_different_payload")
  {
    hide SqlOk, Grows, Identifier, Strip;
    first := repo.Create(data, key, ids[0], eventIds[0], now);
    again := repo.Create(data, key, ids[1], eventIds[1], now);
    changed := repo.Create(other, key, ids[2], eventIds[2], now);
  }

  lemma {:induction false} FoldAppend(index: Index, os: seq<Order>, o: Order)
    ensures Fold(index, os + [o]) == Put(Fold(index, os), o)
    decreases |os|
  {
    hide Put;
    if os == [] {
      assert [o][1..] == [] && [] + [o] == [o];
    } else {
      FoldAppend(Put(index, os[0]), os[1..], o);
      assert (os + [o])[1..] == os[1..] + [o];
    }
  }
}
