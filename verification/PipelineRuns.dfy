/** Schedules without failures: from every reachable system a rebuild can return, and relay and consumer can catch up. */
module PipelineRuns {
  import opened Prelude
  import opened Keyset
  import opened Orders
  import opened Pipeline
  import opened PipelineSql
  import opened PipelineLaws
  import opened PipelineTheorems

  lemma RunOne(f: Formats, s: System, a: Action)
    ensures Run(f, s, [a]) == Step(f, s, a)
  {
    assert [a][1..] == [];
    assert Run(f, Step(f, s, a), []) == Step(f, s, a);
  }

  // ---- a rebuild ----

  predicate Rebuilds(a: Action) { a.StartRebuild? || a.FetchPage? || a == RebuildPut(Answered) || a.RebuildGet? }

  /** Only the index and the rebuild moved. */
  predicate Beside(s: System, s': System) {
    && s'.sql == s.sql && s'.log == s.log && s'.relay == s.relay && s'.committed == s.committed
    && s'.consumer == s.consumer && s'.since == s.since && s'.base == s.base
  }

  lemma PutStep(f: Formats, s: System)
    requires Busy(s.rebuild, false)
    ensures var t := Step(f, s, RebuildPut(Answered));
      Beside(s, t) && t.rebuild == if Accepts(s.index, s.rebuild.rest[0]) then Filed(s.rebuild.rest, s.rebuild.end) else s.rebuild.(fenced := true)
  {
  }

  lemma GetStep(f: Formats, s: System)
    requires Busy(s.rebuild, true) && !Check(s.index, s.rebuild.rest[0]).Refused?
    ensures var t := Step(f, s, RebuildGet); Beside(s, t) && t.rebuild == Filed(s.rebuild.rest, s.rebuild.end)
  {
  }

  /** One row is filed by its PUT, or by the PUT and the GET after a version conflict. */
  lemma {:induction false} RowFiles(f: Formats, s: System) returns (actions: seq<Action>)
    requires Sound(f, s) && Busy(s.rebuild, false)
    ensures forall a :: a in actions ==> Rebuilds(a)
    ensures var e := Run(f, s, actions); Sound(f, e) && Beside(s, e) && e.rebuild == Filed(s.rebuild.rest, s.rebuild.end)
  {
    hide Sound, Run, Step, Check, Filed, Accepts;
    var put := RebuildPut(Answered);
    var t := Step(f, s, put);
    StepSound(f, s, put);
    RunOne(f, s, put);
    PutStep(f, s);
    actions := [put];
    if !Accepts(s.index, s.rebuild.rest[0]) {
      ConflictFree(f, t);
      StepSound(f, t, RebuildGet);
      RunOne(f, t, RebuildGet);
      GetStep(f, t);
      RunConcat(f, s, [put], [RebuildGet]);
      actions := [put] + [RebuildGet];
    }
  }

  lemma {:induction false} ConflictFree(f: Formats, s: System)
    requires Sound(f, s) && Busy(s.rebuild, true)
    ensures !Check(s.index, s.rebuild.rest[0]).Refused?
  {
    hide SqlOk, LogOk, BaseOk, ConsumerOk, OffsetsOk, Check, Authentic, IndexOk;
    FirstRow(s.sql, s.index, s.rebuild.rest, s.rebuild.end, true, s.base, s.filled);
    FencedReflected(s);
    NoPayloadConflict(s.sql, s.index, s.rebuild.rest[0]);
  }

  lemma FencedReflected(s: System)
    requires RebuildOk(s.sql, s.index, s.rebuild, s.base, s.filled) && Busy(s.rebuild, true)
    ensures Reflects(s.index, s.rebuild.rest[0])
  {
  }

  lemma {:induction false} PageFiles(f: Formats, s: System) returns (actions: seq<Action>)
    requires Sound(f, s) && Busy(s.rebuild, false)
    ensures forall a :: a in actions ==> Rebuilds(a)
    ensures var e := Run(f, s, actions); Sound(f, e) && Beside(s, e) && e.rebuild == Fetching(s.rebuild.end)
    decreases if s.rebuild.Filing? then |s.rebuild.rest| else 0
  {
    actions := RowFiles(f, s);
    var t := Run(f, s, actions);
    if |s.rebuild.rest| > 1 {
      hide Sound, Run;
      var more := PageFiles(f, t);
      RunConcat(f, s, actions, more);
      actions := actions + more;
    }
  }

  /** The last row of a page takes the scan further. */
  lemma {:induction false} ScanShrinks(f: Formats, sql: Sql, last: string)
    requires SqlOk(f, sql) && ScanRows(sql.orders, last) != []
    ensures var rows := ScanRows(sql.orders, last); Beyond(sql.orders, rows[|rows| - 1].id) < Beyond(sql.orders, last)
  {
    var rows, ids := ScanRows(sql.orders, last), ScanIds(sql.orders, last);
    var end := rows[|rows| - 1].id;
    VersionIsLength(f, sql, ids[|ids| - 1]);
    LastIsBeyond(sql.orders, last);
    StringOrder();
    hide Less, ScanRows, ScanIds, Page;
    assert end in Beyond(sql.orders, last) && end !in Beyond(sql.orders, end);
  }

  lemma LastIsBeyond(orders: map<string, Order>, last: string)
    requires ScanIds(orders, last) != []
    ensures var ids := ScanIds(orders, last); ids[|ids| - 1] in Beyond(orders, last)
  {
    StringOrder();
    var ids := ScanIds(orders, last);
    assert ids[|ids| - 1] in ids;
  }

  lemma SmallerSet<T>(a: set<T>, b: set<T>)
    requires a < b
    ensures |a| < |b|
  {
    var x :| x in b && x !in a;
    assert a <= b - {x};
    SubsetSize(a, b - {x});
  }

  lemma {:induction false} SubsetSize<T>(a: set<T>, b: set<T>)
    requires a <= b
    ensures |a| <= |b|
    decreases |a|
  {
    if a != {} {
      var x :| x in a;
      SubsetSize(a - {x}, b - {x});
    }
  }

  lemma FetchStep(f: Formats, s: System)
    requires s.rebuild.Fetching?
    ensures var t, rows := Step(f, s, FetchPage), ScanRows(s.sql.orders, s.rebuild.last);
      Beside(s, t) && if rows == [] then t.rebuild.Returned? && t.filled else t.rebuild == Filing(rows, rows[|rows| - 1].id, false)
  {
    hide ScanRows;
  }

  lemma {:induction false} ScanReturns(f: Formats, s: System) returns (actions: seq<Action>)
    requires Sound(f, s) && s.rebuild.Fetching?
    ensures forall a :: a in actions ==> Rebuilds(a)
    ensures var e := Run(f, s, actions); Sound(f, e) && Beside(s, e) && e.rebuild.Returned? && e.filled
    decreases if s.rebuild.Fetching? then |Beyond(s.sql.orders, s.rebuild.last)| else 0
  {
    hide Sound, Run, Step, ScanRows, Beyond, SqlOk, LogOk, IndexOk;
    var t := Step(f, s, FetchPage);
    StepSound(f, s, FetchPage);
    RunOne(f, s, FetchPage);
    FetchStep(f, s);
    ConsumerStands(f, s);
    actions := [FetchPage];
    var rows := ScanRows(s.sql.orders, s.rebuild.last);
    if rows != [] {
      ScanShrinks(f, s.sql, s.rebuild.last);
      SmallerSet(Beyond(s.sql.orders, rows[|rows| - 1].id), Beyond(s.sql.orders, s.rebuild.last));
      var page := PageFiles(f, t);
      RunConcat(f, s, [FetchPage], page);
      var u := Run(f, s, [FetchPage] + page);
      var more := ScanReturns(f, u);
      RunConcat(f, s, [FetchPage] + page, more);
      actions := [FetchPage] + page + more;
    }
  }

  lemma Switching(f: Formats, s: System)
    ensures var t := Step(f, s, SwitchIndex);
      t.sql == s.sql && t.log == s.log && t.committed == s.committed && t.relay == s.relay && t == Switched(s)
  {
  }

  lemma Starting(f: Formats, s: System)
    ensures var t := Step(f, s, StartRebuild); t.rebuild == Fetching("") && Beside(s, t)
  {
  }

  /** From every reachable system a new index can be filled: a rebuild without failures returns. */
  lemma {:induction false} RebuildReturns(f: Formats, before: seq<Action>) returns (during: seq<Action>)
    ensures forall a :: a in during ==> Rebuilds(a)
    ensures var s, e := Run(f, START, before), Run(f, START, before + [SwitchIndex] + during);
      e.rebuild.Returned? && e.filled && e.sql == s.sql && e.log == s.log && e.committed == s.committed
  {
    hide Sound, Run, Step, Switched;
    var s, t := Run(f, START, before), Run(f, START, before + [SwitchIndex]);
    Reached(f, before + [SwitchIndex]);
    RunConcat(f, START, before, [SwitchIndex]);
    RunOne(f, s, SwitchIndex);
    Switching(f, s);
    StepSound(f, t, StartRebuild);
    RunOne(f, t, StartRebuild);
    Starting(f, t);
    var scan := ScanReturns(f, Step(f, t, StartRebuild));
    during := [StartRebuild] + scan;
    RunConcat(f, t, [StartRebuild], scan);
    RunConcat(f, START, before + [SwitchIndex], during);
  }

  // ---- relay and consumer ----

  predicate Delivers(a: Action) {
    || a.Pick? || a == Publish(Answered) || a == Mark(Answered)
    || a.Poll? || a == ConsumerPut(Answered) || a.ConsumerGet? || a == CommitOffset(Answered)
  }

  /** Orders, rebuild and the fill mark are as they were, and no row was unsent. */
  predicate Relayed(s: System, s': System) {
    && s'.sql == s.sql.(outbox := s'.sql.outbox) && s'.rebuild == s.rebuild && s'.filled == s.filled && s'.since == s.since
    && s'.base == s.base && s.log <= s'.log && Unsent(s'.sql) <= Unsent(s.sql)
  }

  lemma MarkStep(f: Formats, s: System)
    requires s.relay.Acked? && s.relay.slot in s.sql.outbox
    ensures var e := Step(f, s, Mark(Answered));
      && Relayed(s, e) && e.relay.RelayIdle? && s.relay.slot !in Unsent(e.sql)
      && e.committed == s.committed && e.consumer == s.consumer && e.index == s.index
  {
  }

  lemma RelaySlot(f: Formats, s: System)
    requires Sound(f, s) && s.relay.Acked?
    ensures s.relay.slot in s.sql.outbox
  {
    assert RelayOk(s.sql, s.log, s.relay);
    hide SqlOk, IndexOk, ConsumerOk, OffsetsOk, BaseOk, RebuildOk, Published;
  }

  lemma {:induction false} MarkSends(f: Formats, s: System) returns (actions: seq<Action>)
    requires Sound(f, s) && s.relay.Acked?
    ensures actions == [Mark(Answered)]
    ensures var e := Run(f, s, actions); Sound(f, e) && Relayed(s, e) && e.relay.RelayIdle? && s.relay.slot !in Unsent(e.sql)
    ensures var e := Run(f, s, actions); e.committed == s.committed && e.consumer == s.consumer && e.index == s.index
  {
    hide Sound, Run, Step;
    RelaySlot(f, s);
    StepSound(f, s, Mark(Answered));
    RunOne(f, s, Mark(Answered));
    MarkStep(f, s);
    actions := [Mark(Answered)];
  }

  lemma {:induction false} PublishSends(f: Formats, s: System) returns (actions: seq<Action>)
    requires Sound(f, s) && s.relay.Picked?
    ensures forall a :: a in actions ==> Delivers(a)
    ensures var e := Run(f, s, actions); Sound(f, e) && Relayed(s, e) && e.relay.RelayIdle? && s.relay.slot !in Unsent(e.sql)
    ensures var e := Run(f, s, actions); e.committed == s.committed && e.consumer == s.consumer && e.index == s.index
  {
    var publish := Publish(Answered);
    StepSound(f, s, publish);
    RunOne(f, s, publish);
    var t := Step(f, s, publish);
    assert t == s.(log := s.log + [s.relay.event], relay := Acked(s.relay.slot, s.relay.event));
    hide Sound, Run;
    var mark := MarkSends(f, t);
    RunConcat(f, s, [publish], mark);
    actions := [publish] + mark;
  }

  /** Whatever the relay was doing, it can send what is unsent. */
  lemma {:induction false} RelayCatchesUp(f: Formats, s: System) returns (actions: seq<Action>)
    requires Sound(f, s)
    ensures forall a :: a in actions ==> Delivers(a)
    ensures var e := Run(f, s, actions); Sound(f, e) && Relayed(s, e) && e.relay.RelayIdle? && Unsent(e.sql) == {}
    ensures var e := Run(f, s, actions); e.committed == s.committed && e.consumer == s.consumer && e.index == s.index
    decreases |Unsent(s.sql)|, if s.relay.RelayIdle? then 0 else 1
  {
    hide SqlOk, LogOk, IndexOk, ConsumerOk, OffsetsOk, BaseOk, RebuildOk;
    if s.relay.RelayIdle? && Unsent(s.sql) == {} {
      actions := [];
    } else {
      var first := RelayTurn(f, s);
      var t := Run(f, s, first);
      hide Sound, Run;
      var more := RelayCatchesUp(f, t);
      RunConcat(f, s, first, more);
      actions := first + more;
    }
  }

  /** One more row is sent, or the relay is done with the one it had. */
  lemma {:induction false} RelayTurn(f: Formats, s: System) returns (actions: seq<Action>)
    requires Sound(f, s) && (!s.relay.RelayIdle? || Unsent(s.sql) != {})
    ensures forall a :: a in actions ==> Delivers(a)
    ensures var e := Run(f, s, actions); Sound(f, e) && Relayed(s, e) && e.relay.RelayIdle?
    ensures var e := Run(f, s, actions); e.committed == s.committed && e.consumer == s.consumer && e.index == s.index
    ensures |Unsent(Run(f, s, actions).sql)| <= |Unsent(s.sql)|
    ensures s.relay.RelayIdle? ==> |Unsent(Run(f, s, actions).sql)| < |Unsent(s.sql)|
  {
    hide Sound, Run;
    if s.relay.Acked? {
      actions := MarkSends(f, s);
    } else if s.relay.Picked? {
      actions := PublishSends(f, s);
    } else {
      StepSound(f, s, Pick);
      RunOne(f, s, Pick);
      var q := Pending(s.sql);
      assert q.Some? && q.value in Unsent(s.sql);
      var t := Step(f, s, Pick);
      assert t == s.(relay := Picked(q.value, s.sql.outbox[q.value].event));
      var sending := PublishSends(f, t);
      RunConcat(f, s, [Pick], sending);
      actions := [Pick] + sending;
      SmallerSet(Unsent(Run(f, s, actions).sql), Unsent(s.sql));
    }
    SubsetSize(Unsent(Run(f, s, actions).sql), Unsent(s.sql));
  }

  /** Only index, consumer and offset moved. */
  predicate Consumed(s: System, s': System) {
    && s'.sql == s.sql && s'.log == s.log && s'.relay == s.relay && s'.rebuild == s.rebuild && s'.filled == s.filled
    && s'.since == s.since && s'.base == s.base
  }

  function Standing(c: Consumer): nat {
    match c
    case Waiting => 4
    case Holding(_, _) => 3
    case Fenced(_, _) => 2
    case Projected(_, _) => 1
  }

  function Behind(s: System): int { 5 * (|s.log| - s.committed) + Standing(s.consumer) }

  /** What an answered call does once the event is known to be good and the index to hold no conflict. */
  lemma ConsumerMoves(f: Formats, s: System, a: Action)
    requires s.committed < |s.log|
    requires match s.consumer
      case Waiting => a.Poll?
      case Holding(off, e) => a == ConsumerPut(Answered) && off == s.committed && ValidateEvent(f, e).Ok?
      case Fenced(off, e) => a.ConsumerGet? && off == s.committed && !Check(s.index, e.order).Refused?
      case Projected(off, e) => a == CommitOffset(Answered) && off == s.committed
    ensures Consumed(s, Step(f, s, a)) && Behind(Step(f, s, a)) < Behind(s)
  {
    hide ValidateEvent, Check, Put, Accepts;
  }

  lemma {:induction false} ConsumerStands(f: Formats, s: System)
    requires Sound(f, s)
    ensures s.committed <= |s.log|
    ensures !s.consumer.Waiting? ==> s.consumer.offset == s.committed < |s.log| && s.consumer.event in s.log
    ensures s.consumer.Fenced? ==> Reflects(s.index, s.consumer.event.order)
    ensures LogOk(s.sql, s.log, s.relay) && IndexOk(s.sql, s.index) && SqlOk(f, s.sql)
  {
    hide SqlOk, LogOk, IndexOk, BaseOk, RebuildOk, Reflects;
  }

  /** One call of the consumer, answered, brings the offset nearer to the end of the log. */
  lemma {:induction false} ConsumerTurn(f: Formats, s: System) returns (a: Action)
    requires Sound(f, s) && (!s.consumer.Waiting? || s.committed < |s.log|)
    ensures Delivers(a) && Sound(f, Step(f, s, a)) && Consumed(s, Step(f, s, a))
    ensures s.committed <= |s.log| && Behind(Step(f, s, a)) < Behind(s)
  {
    hide Sound, Step, ValidateEvent, Check, LogOk, IndexOk, SqlOk, Reflects, Authentic;
    ConsumerStands(f, s);
    match s.consumer {
      case Waiting =>
        a := Poll;
      case Holding(off, e) =>
        a := ConsumerPut(Answered);
        LoggedValid(f, s.sql, s.log, s.relay, e);
      case Fenced(off, e) =>
        a := ConsumerGet;
        LoggedAuthentic(s.sql, s.log, s.relay, e);
        NoPayloadConflict(s.sql, s.index, e.order);
      case Projected(off, e) =>
        a := CommitOffset(Answered);
    }
    StepSound(f, s, a);
    ConsumerMoves(f, s, a);
  }

  lemma {:induction false} ConsumerCatchesUp(f: Formats, s: System) returns (actions: seq<Action>)
    requires Sound(f, s)
    ensures forall a :: a in actions ==> Delivers(a)
    ensures var e := Run(f, s, actions); Sound(f, e) && Consumed(s, e) && e.committed == |e.log| && e.consumer.Waiting?
    decreases if s.committed <= |s.log| then Behind(s) else 0
  {
    hide Sound, Run, Step;
    OffsetBound(f, s);
    if s.consumer.Waiting? && s.committed == |s.log| {
      actions := [];
      assert Run(f, s, []) == s by { RunNone(f, s); }
    } else {
      var a := ConsumerTurn(f, s);
      var t := Step(f, s, a);
      RunOne(f, s, a);
      assert t.committed <= |t.log| by { OffsetBound(f, t); }
      var more := ConsumerCatchesUp(f, t);
      RunConcat(f, s, [a], more);
      actions := [a] + more;
    }
  }

  lemma RunNone(f: Formats, s: System)
    ensures Run(f, s, []) == s
  {
  }

  lemma OffsetBound(f: Formats, s: System)
    requires Sound(f, s)
    ensures s.committed <= |s.log|
  {
    hide SqlOk, LogOk, IndexOk, ConsumerOk, BaseOk, RebuildOk;
  }

  /** From every reachable system relay and consumer without failures catch up. */
  lemma {:induction false} DrainReached(f: Formats, before: seq<Action>) returns (after: seq<Action>)
    ensures forall a :: a in after ==> Delivers(a)
    ensures var s, e := Run(f, START, before), Run(f, START, before + after);
      Drained(e) && e.sql.orders == s.sql.orders && e.filled == s.filled
  {
    Reached(f, before);
    var s := Run(f, START, before);
    hide Sound, Run;
    var sending := RelayCatchesUp(f, s);
    var t := Run(f, s, sending);
    var consuming := ConsumerCatchesUp(f, t);
    after := sending + consuming;
    RunConcat(f, s, sending, consuming);
    RunConcat(f, START, before, after);
    forall q | q in t.sql.outbox ensures t.sql.outbox[q].sent { assert q !in Unsent(t.sql); }
  }

  /** So the rebuild theorem is never empty: any reachable system can be given a new index that ends as the mirror of SQL. */
  lemma {:induction false} RebuildCanMirror(f: Formats, before: seq<Action>) returns (during: seq<Action>, after: seq<Action>)
    ensures Run(f, START, before + [SwitchIndex] + during).rebuild.Returned?
    ensures var e := Run(f, START, before + [SwitchIndex] + during + after);
      Drained(e) && Mirrors(e.index, e.sql.orders) && e.sql.orders == Run(f, START, before).sql.orders
  {
    hide Run, Drained, Mirrors;
    during := RebuildReturns(f, before);
    after := DrainReached(f, before + [SwitchIndex] + during);
    RebuildConvergence(f, before, during, after);
  }

  // ---- writers ----

  /** The tables gain this version of the order and one unsent outbox row carrying it, and nothing else shows. */
  ghost predicate Lands(before: Sql, after: Sql, o: Order, eventId: string) {
    && after.orders == before.orders[o.id := o] && after.open == before.open
    && after.outbox == before.outbox[before.nextSeq := OutRow(Event(1, eventId, o), false)]
  }

  lemma {:induction false} OpenedLands(sql: Sql, key: Option<string>, o: Order, eventId: string)
    ensures var after := Committed(Opened(sql, key, o, eventId), |sql.open|);
      Lands(sql, after, o, eventId) && after.keys == if key.Some? then sql.keys[key.value := o.id] else sql.keys
  {
    var begun := Opened(sql, key, o, eventId);
    assert begun.open[|sql.open|] == Writer(key, sql.nextSeq, Event(1, eventId, o));
    assert Without(begun.open, |sql.open|) == sql.open;
  }

  /** A valid create under an unused key goes through: the new order is version 1, created, with the product as its total. */
  lemma {:induction false} CreateLands(f: Formats, sql: Sql, data: Input, key: string, id: string, eventId: string, now: string)
    requires 1 <= |Strip(data.item)| <= 100 && 1 <= data.quantity <= 1000 && 0 <= data.unitPrice <= 100_000_000
    requires Identifier(f, id) && Identifier(f, eventId) && f.isTime(now)
    requires key !in sql.keys && id !in sql.orders && !Locked(sql, id) && !KeyLocked(sql, key)
    ensures var begun := WriterStep(f, sql, OpenCreate(data, key, id, eventId, now));
      var after := WriterStep(f, begun, CommitWrite(|sql.open|));
      var o := Order(id, Strip(data.item), data.quantity, data.unitPrice, data.quantity * data.unitPrice, "created", 1, now);
      Lands(sql, after, o, eventId) && after.keys == sql.keys[key := id]
  {
    hide Strip, Identifier, Locked, KeyLocked, Opened, Committed, Lands;
    var o := Order(id, Strip(data.item), data.quantity, data.unitPrice, data.quantity * data.unitPrice, "created", 1, now);
    OpenedOne(sql, Some(key), o, eventId);
    OpenedLands(sql, Some(key), o, eventId);
  }

  lemma OpenedOne(sql: Sql, key: Option<string>, o: Order, eventId: string)
    ensures |Opened(sql, key, o, eventId).open| == |sql.open| + 1
  {
  }

  /** An allowed update of an unlocked order on its current version goes through. */
  lemma {:induction false} UpdateLands(f: Formats, sql: Sql, id: string, status: string, eventId: string)
    requires id in sql.orders && sql.orders[id].id == id && !Locked(sql, id) && Identifier(f, eventId)
    requires Allowed(sql.orders[id].status, status)
    ensures var begun := WriterStep(f, sql, OpenUpdate(id, sql.orders[id].version, status, eventId));
      var after := WriterStep(f, begun, CommitWrite(|sql.open|));
      var o := sql.orders[id].(status := status, version := sql.orders[id].version + 1);
      Lands(sql, after, o, eventId) && after.keys == sql.keys
  {
    hide Identifier, Locked, Opened, Committed, Lands, Transition;
    TransitionExactly(sql.orders[id], sql.orders[id].version, status);
    var o := sql.orders[id].(status := status, version := sql.orders[id].version + 1);
    OpenedOne(sql, None, o, eventId);
    OpenedLands(sql, None, o, eventId);
  }
}
