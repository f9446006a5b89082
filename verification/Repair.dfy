/** Repair from the dead-letter topic: each order as SQL has it now is sent again and consumed. */
module Repair {
  import opened Prelude
  import opened Orders
  import opened Encodings
  import opened Pipeline
  import opened PipelineSql
  import opened PipelineLaws
  import opened Quarantine
  import opened Messages

  // ---- one copy of each record ----

  predicate Known(records: seq<Record>, id: string) { exists r :: r in records && r.dlqId == id }

  /** The dead-letter topic with copies dropped; None when a record is not this run's own or two records share an id. */
  function Unique(w: Setting, records: seq<Record>): Option<seq<Record>> {
    if records == [] then Some([])
    else
      var r, rest := records[|records| - 1], Unique(w, records[..|records| - 1]);
      if rest.None? || CheckedQuarantine(w.h, w.scope, w.topicId, r).None? then None
      else if !Known(rest.value, r.dlqId) then Some(rest.value + [r])
      else if r in rest.value then rest
      else None
  }

  ghost predicate Mine(w: Setting, records: seq<Record>) {
    forall r :: r in records ==> CheckedQuarantine(w.h, w.scope, w.topicId, r).Some?
  }

  ghost predicate Consistent(records: seq<Record>) {
    forall r, r' :: r in records && r' in records && r.dlqId == r'.dlqId ==> r == r'
  }

  ghost predicate DistinctIds(records: seq<Record>) {
    forall i, j :: 0 <= i < j < |records| ==> records[i].dlqId != records[j].dlqId
  }

  /** It is exactly the set of quarantined records, each once, and refused exactly for foreign, altered or conflicting records. */
  lemma {:induction false} UniqueExactly(w: Setting, records: seq<Record>)
    ensures Unique(w, records).Some? <==> Mine(w, records) && Consistent(records)
    ensures Unique(w, records).Some? ==>
      DistinctIds(Unique(w, records).value) && forall r :: r in Unique(w, records).value <==> r in records
  {
    hide CheckedQuarantine;
    if records != [] {
      var n := |records| - 1;
      var init, r := records[..n], records[n];
      UniqueExactly(w, init);
      assert records == init + [r];
    }
  }

  // ---- one repair event ----

  predicate StartsWith(s: string, prefix: string) { |prefix| <= |s| && s[..|prefix|] == prefix }

  /** What lookup_key finds: the row an idempotency key belongs to. */
  function Keyed(sql: Sql): map<string, Order> { map key | key in sql.keys && sql.keys[key] in sql.orders :: sql.orders[sql.keys[key]] }

  /** repair_event: the order as SQL has it now, never the quarantined bytes. None stands for every refusal. */
  function RepairEvent(w: Setting, r: Record, allowed: map<string, string>, rows: map<string, Order>): Option<Event> {
    var checked := CheckedQuarantine(w.h, w.scope, w.topicId, r);
    if checked.None? then None
    else
      var id := Decode(checked.value.0);
      if id.None? || !Identifier(w.f, id.value) || id.value !in allowed then None
      else
        var key := allowed[id.value];
        if !StartsWith(key, w.scope.runId + "-") || key !in rows || rows[key].id != id.value then None
        else
          var e := Event(1, w.eventId(r.dlqId, rows[key]), rows[key]);
          if ValidateEvent(w.f, e).Problem? then None else Some(e)
  }

  /** A record is repaired exactly if it is this run's, names an allowed fixture of this run, and SQL has that order, valid. */
  lemma {:induction false} RepairExactly(w: Setting, r: Record, allowed: map<string, string>, rows: map<string, Order>, id: string, suffix: string)
    requires CheckedQuarantine(w.h, w.scope, w.topicId, r).Some? && Decode(CheckedQuarantine(w.h, w.scope, w.topicId, r).value.0) == Some(id)
    requires id in allowed && allowed[id] == w.scope.runId + "-" + suffix
    ensures var key := allowed[id];
      RepairEvent(w, r, allowed, rows) ==
        if Identifier(w.f, id) && key in rows && rows[key].id == id && ValidateEvent(w.f, Event(1, w.eventId(r.dlqId, rows[key]), rows[key])).Ok?
        then Some(Event(1, w.eventId(r.dlqId, rows[key]), rows[key])) else None
  {
    hide CheckedQuarantine, Decode, Identifier, ValidateEvent;
    var key, prefix := allowed[id], w.scope.runId + "-";
    assert key == prefix + suffix && key[..|prefix|] == prefix;
  }

  /** Nothing else is repaired: not a foreign or altered record, not an order outside this run's fixtures. */
  lemma {:induction false} RepairRefuses(w: Setting, r: Record, allowed: map<string, string>, rows: map<string, Order>)
    ensures RepairEvent(w, r, allowed, rows).Some? ==>
      var checked := CheckedQuarantine(w.h, w.scope, w.topicId, r);
      && checked.Some? && Decode(checked.value.0).Some? && Decode(checked.value.0).value in allowed
      && exists suffix :: allowed[Decode(checked.value.0).value] == w.scope.runId + "-" + suffix
  {
    hide CheckedQuarantine, Decode, Identifier, ValidateEvent;
    if RepairEvent(w, r, allowed, rows).Some? {
      var key, prefix := allowed[Decode(CheckedQuarantine(w.h, w.scope, w.topicId, r).value.0).value], w.scope.runId + "-";
      assert key == prefix + key[|prefix|..];
    }
  }

  /** A repair carries the current row of exactly the order the record was keyed by, which SQL has committed. */
  lemma {:induction false} RepairIsCurrent(w: Setting, r: Record, allowed: map<string, string>, sql: Sql)
    requires SqlOk(w.f, sql)
    ensures var e := RepairEvent(w, r, allowed, Keyed(sql)); e.Some? ==>
      && e.value.order.id in sql.orders && e.value.order == sql.orders[e.value.order.id] && Authentic(sql, e.value.order)
      && ValidateEvent(w.f, e.value).Ok?
      && CheckedQuarantine(w.h, w.scope, w.topicId, r).Some?
      && Decode(CheckedQuarantine(w.h, w.scope, w.topicId, r).value.0) == Some(e.value.order.id)
  {
    hide CheckedQuarantine, ValidateEvent, Identifier, Decode, HistoryOk, RowsOk, OpenOk, SlotsAscend, Authentic;
    var e := RepairEvent(w, r, allowed, Keyed(sql));
    if e.Some? {
      var key :| key in sql.keys && sql.keys[key] in sql.orders && e.value.order == sql.orders[sql.keys[key]];
      VersionIsLength(w.f, sql, sql.keys[key]);
    }
  }

  // ---- all of them ----

  /** One event a record, each read from SQL as it is at that moment; None as soon as one is refused. */
  function Repairs(w: Setting, records: seq<Record>, allowed: map<string, string>, sqls: seq<Sql>): Option<seq<Event>>
    requires |sqls| >= |records|
  {
    if records == [] then Some([])
    else
      var n := |records| - 1;
      var rest := Repairs(w, records[..n], allowed, sqls);
      if rest.None? then None
      else
        var e := RepairEvent(w, records[n], allowed, Keyed(sqls[n]));
        if e.None? then None else Some(rest.value + [e.value])
  }

  lemma {:induction false} RepairsAt(w: Setting, records: seq<Record>, allowed: map<string, string>, sqls: seq<Sql>, i: nat)
    requires |sqls| >= |records| && Repairs(w, records, allowed, sqls).Some?
    ensures |Repairs(w, records, allowed, sqls).value| == |records|
    ensures i < |records| ==> RepairEvent(w, records[i], allowed, Keyed(sqls[i])) == Some(Repairs(w, records, allowed, sqls).value[i])
  {
    hide RepairEvent;
    if records != [] {
      var n := |records| - 1;
      RepairsAt(w, records[..n], allowed, sqls, i);
    }
  }

  function MessageOf(w: Setting, e: Event): Message { Message(Encode(e.order.id), w.write(e)) }
  function Sent(w: Setting, events: seq<Event>): seq<Message> { seq(|events|, i requires 0 <= i < |events| => MessageOf(w, events[i])) }

  /** Canonical JSON of this event fits a message and loads as the event again. */
  predicate ReadsBack(w: Setting, e: Event) { 0 < |w.write(e)| <= MAX_MESSAGE && w.parse(w.write(e)) == Parsed(e) }

  lemma {:induction false} SentDecodes(w: Setting, e: Event)
    requires ReadsBack(w, e) && ValidateEvent(w.f, e).Ok?
    ensures DecodeRecord(w, MessageOf(w, e)) == Ok(e)
  {
    hide ValidateEvent, Encode;
  }

  // ---- consuming them ----

  /** Every call of the attempt is answered. */
  predicate Answering(luck: Luck) { luck.index.Works? && !luck.inject && luck.commit.Answered? }

  /** The index call of a committed version keeps the index authentic, and when it answers the index is that new. */
  lemma {:induction false} AuthenticCall(sql: Sql, index: Index, o: Order, fate: IndexFate)
    requires IndexOk(sql, index) && Authentic(sql, o)
    ensures IndexOk(sql, IndexCall(index, o, fate).0)
    ensures fate.Works? ==> IndexCall(index, o, fate).1.None? && Reflects(IndexCall(index, o, fate).0, o)
  {
    PutRises(index, o);
    PutOk(sql, index, o);
    if Reflects(index, o) { NoPayloadConflict(sql, index, o); }
    hide IndexOk, Authentic, Check, Put;
  }

  /** One committed version at the checkpoint, under either policy and with any luck. */
  lemma {:induction false} AuthenticStep(w: Setting, sql: Sql, s: State, handling: Handling, luck: Luck, e: Event)
    requires s.committed < |s.log| && DecodeRecord(w, s.log[s.committed]) == Ok(e)
    requires IndexOk(sql, s.index) && Authentic(sql, e.order)
    ensures luck.index.Works? ==> Reflects(Process(w, s, handling, luck).0.index, e.order)
    ensures Answering(luck) ==> Process(w, s, handling, luck) == (s.(index := IndexCall(s.index, e.order, luck.index).0, committed := s.committed + 1), Done(false))
    ensures IndexOk(sql, Process(w, s, handling, luck).0.index)
  {
    hide DecodeRecord, IndexOk, Authentic, IndexCall, SetAside, Reflects, Stepped;
    AuthenticCall(sql, s.index, e.order, luck.index);
    var call := IndexCall(s.index, e.order, luck.index);
    if call.1.Some? { SetAsideSteps(w, s.(index := call.0), handling, luck, call.1.value, AtProject); }
  }

  /** The records from the checkpoint on are these committed versions. */
  ghost predicate Ahead(w: Setting, sql: Sql, s: State, events: seq<Event>) {
    && s.committed + |events| == |s.log| && IndexOk(sql, s.index)
    && forall i :: 0 <= i < |events| ==>
        DecodeRecord(w, s.log[s.committed + i]) == Ok(events[i]) && Authentic(sql, events[i].order)
  }

  /** Consuming committed versions with answered calls passes every one of them and leaves each order at its version or newer. */
  lemma {:induction false} AuthenticRun(w: Setting, sql: Sql, s: State, handling: Handling, events: seq<Event>, lucks: seq<Luck>)
    requires Ahead(w, sql, s, events) && |lucks| == |events| && forall luck :: luck in lucks ==> Answering(luck)
    ensures var c := Consumed(w, s, handling, lucks);
      && |c.1| == |events| && (forall i :: 0 <= i < |events| ==> c.1[i] == Done(false))
      && c.0 == s.(index := c.0.index, committed := |s.log|) && IndexOk(sql, c.0.index) && Rises(s.index, c.0.index)
      && forall i :: 0 <= i < |events| ==> Reflects(c.0.index, events[i].order)
    decreases |events|
  {
    hide DecodeRecord, Authentic, IndexOk, Process, IndexCall;
    if events != [] {
      var luck, e := lucks[0], events[0];
      assert luck in lucks && DecodeRecord(w, s.log[s.committed + 0]) == Ok(e) && Authentic(sql, e.order);
      AuthenticStep(w, sql, s, handling, luck, e);
      IndexCallRises(s.index, e.order, luck.index);
      var t := Process(w, s, handling, luck).0;
      assert Ahead(w, sql, t, events[1..]) by {
        forall i | 0 <= i < |events| - 1 ensures DecodeRecord(w, t.log[t.committed + i]) == Ok(events[1..][i]) && Authentic(sql, events[1..][i].order) {
          assert events[1..][i] == events[i + 1] && t.committed + i == s.committed + (i + 1);
        }
      }
      AuthenticRun(w, sql, t, handling, events[1..], lucks[1..]);
      Landed(w, s, handling, events, lucks, t);
    }
  }

  lemma {:induction false} Landed(w: Setting, s: State, handling: Handling, events: seq<Event>, lucks: seq<Luck>, t: State)
    requires events != [] && |lucks| == |events| && s.committed < |s.log| && Process(w, s, handling, lucks[0]) == (t, Done(false))
    requires Rises(s.index, t.index) && Reflects(t.index, events[0].order)
    requires var c := Consumed(w, t, handling, lucks[1..]);
      && |c.1| == |events| - 1 && (forall i :: 0 <= i < |events| - 1 ==> c.1[i] == Done(false)) && Rises(t.index, c.0.index)
      && forall i :: 0 <= i < |events| - 1 ==> Reflects(c.0.index, events[1..][i].order)
    ensures var c := Consumed(w, s, handling, lucks);
      && c.0 == Consumed(w, t, handling, lucks[1..]).0
      && |c.1| == |events| && (forall i :: 0 <= i < |events| ==> c.1[i] == Done(false)) && Rises(s.index, c.0.index)
      && forall i :: 0 <= i < |events| ==> Reflects(c.0.index, events[i].order)
  {
    hide Process;
    var c := Consumed(w, s, handling, lucks);
    forall i | 0 <= i < |events| ensures c.1[i] == Done(false) && Reflects(c.0.index, events[i].order) {
      if i > 0 { assert events[i] == events[1..][i - 1]; }
    }
  }

  /** What the repairs of a dead-letter topic send, as the tables of each lookup decide. */
  function Planned(w: Setting, dlq: seq<Record>, allowed: map<string, string>, sqls: seq<Sql>): Option<seq<Event>> {
    var unique := Unique(w, dlq);
    if unique.None? || |unique.value| != |sqls| then None else Repairs(w, unique.value, allowed, sqls)
  }

  /** Every lookup met sound tables from which the present ones have grown. */
  ghost predicate Lookups(f: Formats, sqls: seq<Sql>, sql: Sql) {
    forall i :: 0 <= i < |sqls| ==> SqlOk(f, sqls[i]) && Grows(sqls[i], sql)
  }

  /** Every event carries the row its lookup read. */
  ghost predicate Carried(sqls: seq<Sql>, sql: Sql, events: seq<Event>) {
    && |events| == |sqls|
    && forall i :: 0 <= i < |events| ==> var o := events[i].order;
        o.id in sqls[i].orders && sqls[i].orders[o.id] == o && Authentic(sql, o)
  }

  lemma {:induction false} PlanSound(w: Setting, dlq: seq<Record>, allowed: map<string, string>, sqls: seq<Sql>, sql: Sql)
    requires Planned(w, dlq, allowed, sqls).Some? && Lookups(w.f, sqls, sql)
    ensures var events := Planned(w, dlq, allowed, sqls).value;
      Carried(sqls, sql, events) && forall e :: e in events ==> ValidateEvent(w.f, e).Ok?
  {
    hide Unique, Repairs, Authentic, SqlOk, Grows, ValidateEvent, RepairEvent;
    var records := Unique(w, dlq).value;
    RepairsAt(w, records, allowed, sqls, 0);
    var events := Planned(w, dlq, allowed, sqls).value;
    forall i | 0 <= i < |events|
      ensures var o := events[i].order;
        o.id in sqls[i].orders && sqls[i].orders[o.id] == o && Authentic(sql, o) && ValidateEvent(w.f, events[i]).Ok?
    {
      RepairsAt(w, records, allowed, sqls, i);
      RepairSound(w, records[i], allowed, sqls[i], sql);
    }
  }

  lemma {:induction false} SentAhead(w: Setting, sqls: seq<Sql>, sql: Sql, s: State, events: seq<Event>)
    requires s.committed == |s.log| && IndexOk(sql, s.index) && Carried(sqls, sql, events)
    requires forall e :: e in events ==> ValidateEvent(w.f, e).Ok? && ReadsBack(w, e)
    ensures Ahead(w, sql, s.(log := s.log + Sent(w, events)), events)
  {
    hide ValidateEvent, ReadsBack, DecodeRecord, Authentic, MessageOf, IndexOk;
    var t := s.(log := s.log + Sent(w, events));
    forall i | 0 <= i < |events| ensures DecodeRecord(w, t.log[t.committed + i]) == Ok(events[i]) && Authentic(sql, events[i].order) {
      assert events[i] in events && t.log[t.committed + i] == MessageOf(w, events[i]);
      SentDecodes(w, events[i]);
    }
  }

  /**
   * Repair of the whole dead-letter topic, when the checkpoint is at the end of the log and the index holds only
   * committed versions: the strict consumer passes every repair, and each repaired order ends at the SQL row its
   * repair read, or newer; at exactly that row if SQL still has it. sqls are the tables as each lookup found them.
   */
  lemma {:induction false} RepairLands(w: Setting, s: State, allowed: map<string, string>, sqls: seq<Sql>, sql: Sql, lucks: seq<Luck>)
    requires s.committed == |s.log| && IndexOk(sql, s.index) && Lookups(w.f, sqls, sql)
    requires Planned(w, s.dlq, allowed, sqls).Some? && forall e :: e in Planned(w, s.dlq, allowed, sqls).value ==> ReadsBack(w, e)
    requires |lucks| == |sqls| && forall luck :: luck in lucks ==> Answering(luck)
    ensures var events := Planned(w, s.dlq, allowed, sqls).value;
      var c := Consumed(w, s.(log := s.log + Sent(w, events)), Strict, lucks);
      && |c.1| == |events| == |sqls| && (forall i :: 0 <= i < |events| ==> c.1[i] == Done(false))
      && c.0.committed == |c.0.log| == |s.log| + |events| && c.0.dlq == s.dlq && IndexOk(sql, c.0.index)
      && forall i :: 0 <= i < |events| ==> Repaired(sqls[i], sql, c.0.index, events[i].order)
  {
    hide Planned, Authentic, IndexOk, Lookups, Consumed, ReadsBack, Reflects, Ahead, ValidateEvent, Answering, Repaired;
    var events := Planned(w, s.dlq, allowed, sqls).value;
    PlanSound(w, s.dlq, allowed, sqls, sql);
    var s1 := s.(log := s.log + Sent(w, events));
    SentAhead(w, sqls, sql, s, events);
    AuthenticRun(w, sql, s1, Strict, events, lucks);
    var index := Consumed(w, s1, Strict, lucks).0.index;
    forall i | 0 <= i < |events| ensures Repaired(sqls[i], sql, index, events[i].order) {
      NewestIsRow(w.f, sqls[i], sql, index, events[i].order);
    }
  }

  /** The index is at the row read or newer, and at that very row while SQL still has it. */
  ghost predicate Repaired(read: Sql, sql: Sql, index: Index, o: Order) {
    && o.id in read.orders && read.orders[o.id] == o && Reflects(index, o)
    && (o.id in sql.past && |sql.past[o.id]| == o.version ==> index[o.id].source == o)
  }

  lemma {:induction false} RepairSound(w: Setting, r: Record, allowed: map<string, string>, read: Sql, sql: Sql)
    requires SqlOk(w.f, read) && Grows(read, sql) && RepairEvent(w, r, allowed, Keyed(read)).Some?
    ensures var e := RepairEvent(w, r, allowed, Keyed(read)).value;
      e.order.id in read.orders && read.orders[e.order.id] == e.order && Authentic(sql, e.order) && ValidateEvent(w.f, e).Ok?
  {
    hide SqlOk, Authentic, RepairEvent, ValidateEvent, CheckedQuarantine;
    RepairIsCurrent(w, r, allowed, read);
  }

  lemma {:induction false} NewestIsRow(f: Formats, read: Sql, sql: Sql, index: Index, o: Order)
    requires IndexOk(sql, index) && Authentic(sql, o) && Reflects(index, o) && o.id in read.orders && read.orders[o.id] == o
    ensures Repaired(read, sql, index, o)
  {
    assert DocOk(sql, o.id, index[o.id]);
  }
}
