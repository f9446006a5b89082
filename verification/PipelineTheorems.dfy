/** Convergence of the projection, over every run from an empty system. */
module PipelineTheorems {
  import opened Prelude
  import opened Orders
  import opened Pipeline
  import opened PipelineSql
  import opened PipelineLaws

  /** Nothing left to send, nothing left to consume. */
  ghost predicate Drained(s: System) {
    s.committed == |s.log| && forall q :: q in s.sql.outbox ==> s.sql.outbox[q].sent
  }

  ghost predicate Mirrors(index: Index, orders: map<string, Order>) {
    index.Keys == orders.Keys && forall id :: id in orders ==> index[id] == Doc(orders[id], orders[id].version)
  }

  lemma {:induction false} Reached(f: Formats, actions: seq<Action>)
    ensures Sound(f, Run(f, START, actions))
  {
    StartSound(f);
    hide Sound, Run;
    RunSound(f, START, actions);
  }

  /** The newest version of an order is in the log once the outbox is drained. */
  lemma {:induction false} NewestLogged(f: Formats, s: System, id: string) returns (off: nat)
    requires Sound(f, s) && Drained(s) && id in s.sql.orders
    ensures off < |s.log| && s.log[off].order == s.sql.orders[id]
  {
    var q := NewestSlot(f, s.sql, id);
    hide SqlOk, IndexOk, ConsumerOk, OffsetsOk, BaseOk, RebuildOk, Published, VersionsAscend, RelayOk;
    assert s.sql.outbox[q].sent && s.sql.outbox[q].event in s.log;
    off :| 0 <= off < |s.log| && s.log[off] == s.sql.outbox[q].event;
  }

  lemma {:induction false} NewestSlot(f: Formats, sql: Sql, id: string) returns (q: nat)
    requires SqlOk(f, sql) && id in sql.orders
    ensures q in sql.outbox && sql.outbox[q].event.order == sql.orders[id]
  {
    hide Chain, OpenOk, SlotsAscend, ValidateEvent, SlotOf, RowOk;
    VersionIsLength(f, sql, id);
    PastSlot(f, sql, id, |sql.past[id]| - 1);
    q := sql.slots[id][|sql.past[id]| - 1];
    assert Enqueued(sql, id, |sql.past[id]| - 1);
    assert OrderOk(f, sql, id);
  }

  lemma {:induction false} NewestReflected(f: Formats, s: System, id: string)
    requires Sound(f, s) && Drained(s) && s.filled && id in s.sql.orders
    ensures Reflects(s.index, s.sql.orders[id]) && s.sql.orders[id].id == id
  {
    var off := NewestLogged(f, s, id);
    VersionIsLength(f, s.sql, id);
    hide SqlOk, LogOk, IndexOk, ConsumerOk, Authentic;
    if off < s.since { assert id in s.base && Covered(s.index, s.base, id); }
  }

  lemma {:induction false} DocIsCurrent(f: Formats, s: System, id: string)
    requires Sound(f, s) && id in s.index
    ensures id in s.sql.orders && s.index[id].version <= s.sql.orders[id].version
    ensures s.index[id].version == s.sql.orders[id].version ==> s.index[id] == Doc(s.sql.orders[id], s.sql.orders[id].version)
  {
    assert DocOk(s.sql, id, s.index[id]);
    assert id in s.sql.orders;
    VersionIsLength(f, s.sql, id);
    hide SqlOk, LogOk, ConsumerOk, OffsetsOk, BaseOk, RebuildOk;
  }

  lemma {:induction false} DrainedMirrors(f: Formats, s: System)
    requires Sound(f, s) && Drained(s) && s.filled
    ensures Mirrors(s.index, s.sql.orders)
  {
    hide Sound, Drained;
    forall id ensures id in s.index <==> id in s.sql.orders {
      if id in s.index { DocIsCurrent(f, s, id); }
      if id in s.sql.orders { NewestReflected(f, s, id); }
    }
    forall id | id in s.sql.orders ensures s.index[id] == Doc(s.sql.orders[id], s.sql.orders[id].version) {
      NewestReflected(f, s, id);
      DocIsCurrent(f, s, id);
    }
  }

  /**
   * Convergence. In every run of writers, relay, consumer, rebuilds, crashes and lost answers, with outbox
   * slots becoming visible in any order: whenever nothing is unsent and the committed offset is the log end,
   * every order's document is its current row, provided the index was never replaced or a rebuild has
   * returned normally since it was.
   */
  lemma {:induction false} Convergence(f: Formats, actions: seq<Action>)
    requires Drained(Run(f, START, actions)) && Run(f, START, actions).filled
    ensures Mirrors(Run(f, START, actions).index, Run(f, START, actions).sql.orders)
  {
    Reached(f, actions);
    hide Run, Sound, Drained;
    DrainedMirrors(f, Run(f, START, actions));
  }

  // ---- when the index counts as filled ----

  lemma {:induction false} StaysFilled(f: Formats, s: System, a: Action)
    requires s.filled && !a.SwitchIndex?
    ensures Step(f, s, a).filled
  {
    hide WriterStep, Put, Check, ScanRows, Pending, ValidateEvent, Filed;
  }

  lemma {:induction false} RunStaysFilled(f: Formats, s: System, actions: seq<Action>)
    requires s.filled && forall a :: a in actions ==> !a.SwitchIndex?
    ensures Run(f, s, actions).filled
    decreases |actions|
  {
    if actions != [] {
      assert actions[0] in actions;
      StaysFilled(f, s, actions[0]);
      hide Step;
      RunStaysFilled(f, Step(f, s, actions[0]), actions[1..]);
    }
  }

  /** Without a new index, drained means mirrored: no rebuild is ever needed. */
  lemma {:induction false} SteadyConvergence(f: Formats, actions: seq<Action>)
    requires Drained(Run(f, START, actions)) && forall a :: a in actions ==> !a.SwitchIndex?
    ensures Mirrors(Run(f, START, actions).index, Run(f, START, actions).sql.orders)
  {
    RunStaysFilled(f, START, actions);
    hide Run, Drained, Mirrors;
    Convergence(f, actions);
  }

  lemma {:induction false} RunConcat(f: Formats, s: System, p: seq<Action>, q: seq<Action>)
    ensures Run(f, s, p + q) == Run(f, Run(f, s, p), q)
    decreases |p|
  {
    if p == [] {
      assert p + q == q;
    } else {
      hide Step;
      assert (p + q)[0] == p[0] && (p + q)[1..] == p[1..] + q;
      RunConcat(f, Step(f, s, p[0]), p[1..], q);
    }
  }

  /** The rebuild has returned: its last page was empty and nothing was refused. */
  lemma {:induction false} ReturnedFills(f: Formats, s: System, a: Action)
    requires s.rebuild.Returned? ==> s.filled
    ensures Step(f, s, a).rebuild.Returned? ==> Step(f, s, a).filled
  {
    hide WriterStep, Put, Check, ScanRows, Pending, ValidateEvent;
  }

  lemma {:induction false} RunReturnedFills(f: Formats, s: System, actions: seq<Action>)
    requires s.rebuild.Returned? ==> s.filled
    ensures Run(f, s, actions).rebuild.Returned? ==> Run(f, s, actions).filled
    decreases |actions|
  {
    if actions != [] {
      ReturnedFills(f, s, actions[0]);
      hide Step;
      RunReturnedFills(f, Step(f, s, actions[0]), actions[1..]);
    }
  }

  /**
   * Rebuild into an empty index. Any reachable system, at any committed offset, gets a new empty index; then
   * anything may happen, page by page. Once the rebuild has returned normally and outbox and log are drained,
   * the new index mirrors SQL, whatever happened afterwards short of another new index.
   */
  lemma {:induction false} RebuildConvergence(f: Formats, before: seq<Action>, during: seq<Action>, after: seq<Action>)
    requires Run(f, START, before + [SwitchIndex] + during).rebuild.Returned?
    requires forall a :: a in after ==> !a.SwitchIndex?
    requires Drained(Run(f, START, before + [SwitchIndex] + during + after))
    ensures var e := Run(f, START, before + [SwitchIndex] + during + after); Mirrors(e.index, e.sql.orders)
  {
    var p := before + [SwitchIndex] + during;
    RunReturnedFills(f, START, p);
    RunConcat(f, START, p, after);
    RunStaysFilled(f, Run(f, START, p), after);
    hide Run, Drained, Mirrors;
    Convergence(f, p + after);
  }

  // ---- at every moment of every run ----

  /** Per order, the log never goes back a version; every event in it is valid and was committed in SQL. */
  lemma {:induction false} LogIsOrdered(f: Formats, actions: seq<Action>)
    ensures var s := Run(f, START, actions);
      VersionsAscend(s.log) && forall e :: e in s.log ==> ValidateEvent(f, e).Ok? && Authentic(s.sql, e.order)
  {
    Reached(f, actions);
    hide Run, SqlOk, ValidateEvent, Authentic, Published;
    var s := Run(f, START, actions);
    forall e | e in s.log ensures ValidateEvent(f, e).Ok? && Authentic(s.sql, e.order) {
      LoggedValid(f, s.sql, s.log, s.relay, e);
      LoggedAuthentic(s.sql, s.log, s.relay, e);
    }
  }

  /** The index only ever holds versions SQL committed, none newer than the row. */
  lemma {:induction false} IndexIsAuthentic(f: Formats, actions: seq<Action>, id: string)
    requires id in Run(f, START, actions).index
    ensures var s := Run(f, START, actions);
      DocOk(s.sql, id, s.index[id]) && id in s.sql.orders && s.index[id].version <= s.sql.orders[id].version
  {
    Reached(f, actions);
    DocIsCurrent(f, Run(f, START, actions), id);
    assert IndexOk(Run(f, START, actions).sql, Run(f, START, actions).index);
    hide Run, Sound, DocOk;
  }

  /** After a fenced PUT neither consumer nor rebuild can meet a payload conflict, or any other refusal. */
  lemma {:induction false} ConflictUnreachable(f: Formats, actions: seq<Action>)
    ensures var s := Run(f, START, actions);
      && (s.consumer.Fenced? ==> Check(s.index, s.consumer.event.order) in {DuplicateIgnored, OlderIgnored})
      && (Busy(s.rebuild, true) ==> Check(s.index, s.rebuild.rest[0]) in {DuplicateIgnored, OlderIgnored})
      && (s.consumer.Holding? ==> ValidateEvent(f, s.consumer.event).Ok?)
  {
    Reached(f, actions);
    hide Run, SqlOk, ValidateEvent, Authentic, Check;
    var s := Run(f, START, actions);
    if s.consumer.Fenced? {
      LoggedAuthentic(s.sql, s.log, s.relay, s.consumer.event);
      NoPayloadConflict(s.sql, s.index, s.consumer.event.order);
    }
    if s.consumer.Holding? { LoggedValid(f, s.sql, s.log, s.relay, s.consumer.event); }
    if Busy(s.rebuild, true) {
      FirstRow(s.sql, s.index, s.rebuild.rest, s.rebuild.end, true, s.base, s.filled);
      NoPayloadConflict(s.sql, s.index, s.rebuild.rest[0]);
    }
  }

  // ---- the fence alone, over any delivery order ----

  function Fold(index: Index, os: seq<Order>): Index
    decreases |os|
  {
    if os == [] then index else Fold(Put(index, os[0]), os[1..])
  }

  /** One content per id and version, as for versions of one history. */
  ghost predicate OneContent(os: seq<Order>) {
    forall a, b :: a in os && b in os && a.id == b.id && a.version == b.version ==> a == b
  }

  /** The highest delivered version, or what was there before if that is at least as high. */
  ghost predicate Highest(index: Index, os: seq<Order>, id: string, d: Doc) {
    && (forall o :: o in os && o.id == id ==> o.version <= d.version)
    && (id in index ==> index[id].version <= d.version)
    && ((id in index && d == index[id]) || exists o :: o in os && o.id == id && d == Doc(o, o.version))
  }

  lemma {:induction false} FoldHighest(index: Index, os: seq<Order>, id: string)
    ensures id in Fold(index, os) <==> id in index || exists o :: o in os && o.id == id
    ensures id in Fold(index, os) ==> Highest(index, os, id, Fold(index, os)[id])
    decreases |os|
  {
    if os != [] {
      FoldHighest(Put(index, os[0]), os[1..], id);
      assert forall o :: o in os <==> o == os[0] || o in os[1..];
    }
  }

  lemma {:induction false} FoldSameAt(os: seq<Order>, ps: seq<Order>, id: string)
    requires OneContent(os) && forall o :: o in os <==> o in ps
    ensures id in Fold(map[], os) <==> id in Fold(map[], ps)
    ensures id in Fold(map[], os) ==> Fold(map[], os)[id] == Fold(map[], ps)[id]
  {
    FoldHighest(map[], os, id);
    FoldHighest(map[], ps, id);
    hide Fold;
  }

  /** Reordering and duplicating deliveries changes nothing: the final index depends only on the set of versions. */
  lemma {:induction false} FoldOrderFree(os: seq<Order>, ps: seq<Order>)
    requires OneContent(os) && forall o :: o in os <==> o in ps
    ensures Fold(map[], os) == Fold(map[], ps)
  {
    hide Fold;
    forall id ensures id in Fold(map[], os) <==> id in Fold(map[], ps) { FoldSameAt(os, ps, id); }
    forall id | id in Fold(map[], os) ensures Fold(map[], os)[id] == Fold(map[], ps)[id] { FoldSameAt(os, ps, id); }
  }
}
