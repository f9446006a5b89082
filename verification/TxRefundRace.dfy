/** Many refunds of one paid order at once: behind the row lock, and behind the unlocked read. */
module TxRefundRace {
  import opened Prelude
  import opened TxRows
  import opened TxAudit
  import opened TxLaws
  import opened TxSerial
  import opened TxSystem
  import opened TxIsolation
  import Stock = TxStockRace
  import TxPartial
  import opened TxSymptoms

  /** The case after the same order has been given back k times. */
  function Given(b: Books, o: Order, k: nat): Books {
    if k == 0 then b else GiveBack(Given(b, o, k - 1), o)
  }

  predicate Refunder(cl: Client, c: string, oid: string, guarded: bool) { cl.call == RefundCall(c, oid, guarded) && cl.attempt == 0 }
  predicate GaveBack(cl: Client) { cl.phase.Done? && cl.phase.outcome.RefundDone? }
  predicate Repeated(cl: Client) { cl.phase.Done? && cl.phase.outcome.RefundReplayed? }
  function GaveBackOne(cl: Client): int { if GaveBack(cl) then 1 else 0 }
  function RepeatedOne(cl: Client): int { if Repeated(cl) then 1 else 0 }

  /** Where one client stands when the order has been given back k times. */
  predicate Standing(cl: Client, o: Order, k: int) {
    match cl.phase
    case Idle => true
    case InTx(tx) => Rank(tx.stage) > 1 ==> tx.order == o
    case Done(_) => GaveBack(cl) || (Repeated(cl) && k > 0)
    case _ => false
  }

  predicate NotYet(cl: Client) { !cl.phase.Done? && (cl.phase.InTx? ==> Rank(cl.phase.tx.stage) <= 2) }

  ghost predicate RefundRace(fp: Digest, s: System, c: string, b: Books, o: Order, guarded: bool) {
    var k := Sum(GaveBackOne, s.clients);
    && Isolated(fp, s) && c in s.db && k >= 0 && s.db[c] == Given(b, o, k)
    && Lookup(OrderId, b.orders, o.id) == Some(o) && o.state == PAID
    && forall cl :: cl in s.clients ==> Refunder(cl, c, o.id, guarded) && Standing(cl, o, k)
  }

  /** Behind the barrier nobody writes before everybody has read. */
  ghost predicate Raced(s: System) {
    s.barrier && (Stock.AllRead(s) || forall cl :: cl in s.clients ==> NotYet(cl)) && forall cl :: cl in s.clients ==> !Repeated(cl)
  }

  // ---- the row after k refunds ----

  lemma {:induction false} GivenOrder(b: Books, o: Order, k: nat)
    requires Lookup(OrderId, b.orders, o.id) == Some(o) && o.state == PAID
    ensures Lookup(OrderId, Given(b, o, k).orders, o.id) == Some(if k == 0 then o else o.(state := REFUNDED))
    ensures k > 0 ==> Given(b, o, k).orders == Upsert(OrderId, b.orders, o.(state := REFUNDED))
  {
    hide Lookup, Upsert, Given;
    GivenStep(b, o, k);
    if k > 0 {
      GivenOrder(b, o, k - 1);
      var r := o.(state := REFUNDED);
      LookupUpsert(OrderId, Given(b, o, k - 1).orders, r, o.id);
      UpsertTwice(b.orders, r);
    }
  }

  lemma GivenStep(b: Books, o: Order, k: nat)
    ensures Given(b, o, 0) == b
    ensures k > 0 ==> Given(b, o, k).orders == Upsert(OrderId, Given(b, o, k - 1).orders, o.(state := REFUNDED))
  {
    hide Upsert;
  }

  lemma {:induction false} UpsertTwice(os: seq<Order>, r: Order)
    ensures Upsert(OrderId, Upsert(OrderId, os, r), r) == Upsert(OrderId, os, r)
  {
    if os != [] && os[0].id != r.id {
      UpsertTwice(os[1..], r);
      assert Upsert(OrderId, os, r)[1..] == Upsert(OrderId, os[1..], r);
    } else if os != [] {
      assert ([r] + os[1..])[1..] == os[1..];
    }
  }

  // ---- steps ----

  /** What a refund statement can do when the row is o, given back k times so far. */
  lemma {:induction false} RefundStatement(fp: Digest, db: Db, cl: Client, c: string, o: Order, k: nat, guarded: bool, tx: Tx)
    requires Refunder(cl, c, o.id, guarded) && TxInv(fp, db, cl.call, 0, tx) && c in db
    requires Lookup(OrderId, db[c].orders, o.id) == Some(if k == 0 then o else o.(state := REFUNDED)) && o.state == PAID
    requires Rank(tx.stage) > 1 ==> tx.order == o
    ensures var e := Exec(fp, db, cl.call, tx);
      && !e.Duplicate?
      && (e.Continue? ==> e.tx.order == o && Rank(e.tx.stage) == Rank(tx.stage) + 1 && (tx.stage.AtRead? ==> k == 0))
      && (e.Finish? ==> e.outcome == RefundReplayed(o.id) && k > 0 && tx.stage.AtRead?)
      && (e.Commit? ==> tx.stage.AtCommit? && (guarded ==> k == 0))
  {
    hide HasOrder;
  }

  datatype Turn = Stays | Goes(next: Tx) | Repeats | Gives(tx: Tx)

  ghost predicate Taken(s: System, i: nat, o: Order, guarded: bool, s': System, turn: Turn)
    requires i < |s.clients|
  {
    var p, k := s.clients[i].phase, Sum(GaveBackOne, s.clients);
    match turn
    case Stays => s' == s
    case Goes(next) =>
      && s' == SetPhase(s, i, InTx(next)) && (p.Idle? || p.InTx?)
      && (p.Idle? ==> Rank(next.stage) <= 1)
      && (p.InTx? ==> next.order == o && Rank(next.stage) == Rank(p.tx.stage) + 1 && (p.tx.stage.AtStock? && s.barrier ==> Stock.AllRead(s)))
    case Repeats => s' == SetPhase(s, i, Done(RefundReplayed(o.id))) && k > 0 && p.InTx? && p.tx.stage.AtRead?
    case Gives(tx) =>
      && p == InTx(tx) && tx.stage.AtCommit? && (guarded ==> k == 0)
      && s' == SetPhase(s.(db := Install(s.db, tx)), i, Done(RefundDone(o.id)))
  }

  lemma {:induction false} Statement(fp: Digest, s: System, c: string, b: Books, o: Order, guarded: bool, i: nat, tx: Tx)
    requires RefundRace(fp, s, c, b, o, guarded) && i < |s.clients| && s.clients[i].phase == InTx(tx)
    ensures var e, k := Exec(fp, s.db, s.clients[i].call, tx), Sum(GaveBackOne, s.clients);
      && !e.Duplicate?
      && (e.Continue? ==> e.tx.order == o && Rank(e.tx.stage) == Rank(tx.stage) + 1)
      && (e.Finish? ==> e.outcome == RefundReplayed(o.id) && k > 0 && tx.stage.AtRead?)
      && (e.Commit? ==> tx.stage.AtCommit? && (guarded ==> k == 0))
  {
    var cl, k := s.clients[i], Sum(GaveBackOne, s.clients);
    assert cl in s.clients && Standing(cl, o, k);
    assert ClientInv(fp, s.db, cl) && TxInv(fp, s.db, cl.call, 0, tx);
    hide TxInv, Isolated, Exec, GiveBack, Given;
    GivenOrder(b, o, k);
    RefundStatement(fp, s.db, cl, c, o, k, guarded, tx);
  }

  lemma {:induction false} RunTurn(fp: Digest, s: System, c: string, b: Books, o: Order, guarded: bool, i: nat, tx: Tx) returns (turn: Turn)
    requires RefundRace(fp, s, c, b, o, guarded) && i < |s.clients| && s.clients[i].phase == InTx(tx)
    ensures Taken(s, i, o, guarded, RunTx(fp, s, i, tx), turn)
    ensures turn.Stays? ==> Stock.Blocked(s, i, tx)
  {
    var cl := s.clients[i];
    assert cl in s.clients && Refunder(cl, c, o.id, guarded);
    Statement(fp, s, c, b, o, guarded, i, tx);
    hide Exec, Isolated, RefundRace, Target, Free, Install, BarrierClosed, Stock.AllRead, Sum;
    turn := Stays;
    var row := Target(cl.call, tx);
    if (row.Some? && !Free(s, i, row.value)) || BarrierClosed(s, cl.call, tx) {
    } else {
      Stock.BarrierOpen(s, cl.call, tx);
      match Exec(fp, s.db, cl.call, tx)
      case Continue(tx', boundary) => turn := Goes(tx');
      case Finish(_) => turn := Repeats;
      case Duplicate =>
      case Commit => turn := Gives(tx);
    }
  }

  lemma StandingOf(fp: Digest, s: System, c: string, b: Books, o: Order, guarded: bool, i: nat)
    requires RefundRace(fp, s, c, b, o, guarded) && i < |s.clients|
    ensures Standing(s.clients[i], o, Sum(GaveBackOne, s.clients)) && Refunder(s.clients[i], c, o.id, guarded)
  {
    assert s.clients[i] in s.clients;
  }

  lemma {:induction false} RefundTurn(fp: Digest, s: System, c: string, b: Books, o: Order, guarded: bool, i: nat) returns (turn: Turn)
    requires RefundRace(fp, s, c, b, o, guarded) && i < |s.clients|
    ensures Taken(s, i, o, guarded, AdvanceClient(fp, s, i), turn)
    ensures turn.Stays? ==> s.clients[i].phase.Done? || (s.clients[i].phase.InTx? && Stock.Blocked(s, i, s.clients[i].phase.tx))
  {
    turn := Stays;
    assert s.clients[i] in s.clients && Refunder(s.clients[i], c, o.id, guarded);
    hide RefundRace, RunTx, Install, Sum, Stock.Blocked;
    assert Standing(s.clients[i], o, Sum(GaveBackOne, s.clients)) by { StandingOf(fp, s, c, b, o, guarded, i); }
    match s.clients[i].phase
    case Idle => turn := Goes(Begin(s.clients[i].call, s.clients[i].attempt));
    case InTx(tx) => turn := RunTurn(fp, s, c, b, o, guarded, i, tx);
    case _ =>
  }

  lemma {:induction false} MoveRace(fp: Digest, s: System, c: string, b: Books, o: Order, guarded: bool, i: nat, p: Phase)
    requires RefundRace(fp, s, c, b, o, guarded) && i < |s.clients| && !s.clients[i].phase.Done? && Isolated(fp, SetPhase(s, i, p))
    requires !GaveBack(s.clients[i].(phase := p)) && Standing(s.clients[i].(phase := p), o, Sum(GaveBackOne, s.clients))
    ensures RefundRace(fp, SetPhase(s, i, p), c, b, o, guarded)
  {
    var cl' := s.clients[i].(phase := p);
    var s' := SetPhase(s, i, p);
    SumUpdate(GaveBackOne, s.clients, i, cl');
    hide Isolated, Given, Sum;
    assert s.clients[i] in s.clients;
    forall cl | cl in s'.clients ensures Refunder(cl, c, o.id, guarded) && Standing(cl, o, Sum(GaveBackOne, s'.clients)) {
      var j :| 0 <= j < |s'.clients| && s'.clients[j] == cl;
      assert s.clients[j] in s.clients;
    }
  }

  lemma {:induction false} CommitGives(fp: Digest, s: System, c: string, b: Books, o: Order, guarded: bool, i: nat, tx: Tx)
    requires RefundRace(fp, s, c, b, o, guarded) && i < |s.clients| && s.clients[i].phase == InTx(tx) && tx.stage.AtCommit?
    ensures c in Install(s.db, tx) && Install(s.db, tx)[c] == GiveBack(s.db[c], o)
  {
    var cl := s.clients[i];
    assert cl in s.clients && Standing(cl, o, Sum(GaveBackOne, s.clients)) && Refunder(cl, c, o.id, guarded);
    assert ClientInv(fp, s.db, cl) && TxInv(fp, s.db, cl.call, 0, tx);
    assert Head(cl.call, 0, tx);
    hide TxInv, Isolated, Install, GiveBack, Given, Sum, ClientInv;
    CommitMeaning(fp, s, i, tx);
  }

  lemma {:induction false} CommitRace(fp: Digest, s: System, c: string, b: Books, o: Order, guarded: bool, i: nat, tx: Tx)
    requires RefundRace(fp, s, c, b, o, guarded) && i < |s.clients| && s.clients[i].phase == InTx(tx) && tx.stage.AtCommit?
    ensures RefundRace(fp, SetPhase(s.(db := Install(s.db, tx)), i, Done(RefundDone(o.id))), c, b, o, guarded)
  {
    hide Isolated, GiveBack, Sum, Install, Lookup;
    var p := Done(RefundDone(o.id));
    var cl' := s.clients[i].(phase := p);
    var s' := SetPhase(s.(db := Install(s.db, tx)), i, p);
    CommitStep(fp, s, i, tx, p);
    CommitGives(fp, s, c, b, o, guarded, i, tx);
    SumUpdate(GaveBackOne, s.clients, i, cl');
    var k := Sum(GaveBackOne, s.clients);
    assert Given(b, o, k + 1) == GiveBack(Given(b, o, k), o);
    assert s.clients[i] in s.clients;
    forall cl | cl in s'.clients ensures Refunder(cl, c, o.id, guarded) && Standing(cl, o, k + 1) {
      var j :| 0 <= j < |s'.clients| && s'.clients[j] == cl;
      assert s.clients[j] in s.clients && Standing(s.clients[j], o, k) && Refunder(s.clients[j], c, o.id, guarded);
    }
  }

  lemma {:induction false} RaceStep(fp: Digest, s: System, c: string, b: Books, o: Order, guarded: bool, i: nat) returns (turn: Turn)
    requires RefundRace(fp, s, c, b, o, guarded) && i < |s.clients|
    ensures RefundRace(fp, AdvanceClient(fp, s, i), c, b, o, guarded) && Taken(s, i, o, guarded, AdvanceClient(fp, s, i), turn)
  {
    AdvanceIsolated(fp, s, i);
    turn := RefundTurn(fp, s, c, b, o, guarded, i);
    hide AdvanceClient, RefundRace, Isolated, Install, Sum, Stock.AllRead;
    match turn
    case Stays =>
    case Goes(next) => MoveRace(fp, s, c, b, o, guarded, i, InTx(next));
    case Repeats => MoveRace(fp, s, c, b, o, guarded, i, Done(RefundReplayed(o.id)));
    case Gives(tx) => CommitRace(fp, s, c, b, o, guarded, i, tx);
  }

  // ---- whole schedules ----

  ghost predicate Ready(fp: Digest, s: System, c: string, oid: string, guarded: bool) {
    && c in s.db && Balanced(fp, s.db[c]) && CanRefund(s.db[c], oid)
    && forall cl :: cl in s.clients ==> Refunder(cl, c, oid, guarded) && cl.phase.Idle?
  }

  lemma {:induction false} ReadyRace(fp: Digest, s: System, c: string, oid: string, guarded: bool)
    requires Ready(fp, s, c, oid, guarded)
    ensures RefundRace(fp, s, c, s.db[c], Lookup(OrderId, s.db[c].orders, oid).value, guarded)
  {
    hide Balanced;
    SumZero(GaveBackOne, s.clients);
  }

  /** Behind the lock: at most one refund, and nobody is told "replayed" before it is there. */
  lemma {:induction false} GuardedStep(fp: Digest, s: System, c: string, b: Books, o: Order, i: nat)
    requires RefundRace(fp, s, c, b, o, true) && Sum(GaveBackOne, s.clients) <= 1
    ensures var s' := Step(fp, s, Advance(i)); RefundRace(fp, s', c, b, o, true) && Sum(GaveBackOne, s'.clients) <= 1
  {
    if i < |s.clients| {
      hide RefundRace, AdvanceClient, Install, Sum;
      Stock.StepAdvances(fp, s, i);
      var turn := RaceStep(fp, s, c, b, o, true, i);
      SumUpdate(GaveBackOne, s.clients, i, AdvanceClient(fp, s, i).clients[i]);
    }
  }

  lemma {:induction false} GuardedRun(fp: Digest, s: System, c: string, b: Books, o: Order, actions: seq<Action>)
    requires RefundRace(fp, s, c, b, o, true) && Sum(GaveBackOne, s.clients) <= 1 && Stock.Schedule(actions)
    ensures var e := Run(fp, s, actions); RefundRace(fp, e, c, b, o, true) && Sum(GaveBackOne, e.clients) <= 1
    decreases |actions|
  {
    if actions != [] {
      assert actions[0] in actions;
      GuardedStep(fp, s, c, b, o, actions[0].i);
      hide RefundRace, Step;
      GuardedRun(fp, Step(fp, s, actions[0]), c, b, o, actions[1..]);
    }
  }

  lemma {:induction false} Split(cs: seq<Client>)
    requires forall cl :: cl in cs ==> GaveBack(cl) || Repeated(cl)
    ensures Sum(GaveBackOne, cs) + Sum(RepeatedOne, cs) == |cs|
    ensures Sum(GaveBackOne, cs) == 0 ==> forall cl :: cl in cs ==> Repeated(cl)
    ensures Sum(GaveBackOne, cs) >= 0
  {
    if cs != [] {
      Split(cs[1..]);
      assert forall cl :: cl in cs <==> cl == cs[0] || cl in cs[1..];
    }
  }

  /** N refunds of one paid order behind the row lock: one refunds, N - 1 are told it was already refunded. */
  lemma {:induction false} LockedRefundsOnce(fp: Digest, s: System, c: string, oid: string, actions: seq<Action>)
    requires Ready(fp, s, c, oid, true) && s.clients != [] && Stock.Schedule(actions)
    requires forall cl :: cl in Run(fp, s, actions).clients ==> cl.phase.Done?
    ensures var e := Run(fp, s, actions);
      && c in e.db && e.db[c] == Refunded(s.db[c], oid) && Balanced(fp, e.db[c])
      && Sum(GaveBackOne, e.clients) == 1 && Sum(RepeatedOne, e.clients) == |s.clients| - 1
  {
    var b := s.db[c];
    var o := Lookup(OrderId, b.orders, oid).value;
    ReadyRace(fp, s, c, oid, true);
    SumZero(GaveBackOne, s.clients);
    GuardedRun(fp, s, c, b, o, actions);
    Stock.RunKeepsClients(fp, s, actions);
    RefundBalanced(fp, b, oid);
    hide Run, Balanced, GiveBack, CanRefund;
    LockedEnd(fp, Run(fp, s, actions), c, b, o);
  }

  lemma {:induction false} LockedEnd(fp: Digest, e: System, c: string, b: Books, o: Order)
    requires RefundRace(fp, e, c, b, o, true) && Sum(GaveBackOne, e.clients) <= 1 && e.clients != []
    requires forall cl :: cl in e.clients ==> cl.phase.Done?
    ensures e.db[c] == GiveBack(b, o) && Sum(GaveBackOne, e.clients) == 1 && Sum(RepeatedOne, e.clients) == |e.clients| - 1
  {
    hide Isolated, GiveBack;
    Split(e.clients);
    assert e.clients[0] in e.clients;
    assert Given(b, o, 1) == GiveBack(Given(b, o, 0), o);
  }

  // ---- behind the unlocked read ----

  lemma {:induction false} RacedStep(fp: Digest, s: System, c: string, b: Books, o: Order, i: nat)
    requires RefundRace(fp, s, c, b, o, false) && Raced(s)
    ensures var s' := Step(fp, s, Advance(i)); RefundRace(fp, s', c, b, o, false) && Raced(s')
  {
    if i < |s.clients| {
      hide RefundRace, AdvanceClient, Install, Taken, Raced;
      Stock.StepAdvances(fp, s, i);
      var turn := RaceStep(fp, s, c, b, o, false, i);
      NoneGaveBack(s);
      RacedTurn(s, i, o, AdvanceClient(fp, s, i), turn);
    }
  }

  lemma {:induction false} NoneGaveBack(s: System)
    requires Raced(s)
    ensures Sum(GaveBackOne, s.clients) > 0 ==> Stock.AllRead(s)
  {
    if forall cl :: cl in s.clients ==> NotYet(cl) { SumZero(GaveBackOne, s.clients); }
  }

  lemma {:induction false} RacedTurn(s: System, i: nat, o: Order, s': System, turn: Turn)
    requires Raced(s) && i < |s.clients| && Taken(s, i, o, false, s', turn) && (Sum(GaveBackOne, s.clients) > 0 ==> Stock.AllRead(s))
    ensures Raced(s')
  {
    hide Install, Sum;
    var p := s.clients[i].phase;
    assert s.clients[i] in s.clients;
    if turn.Repeats? { assert false; }
    assert Stock.AllRead(s) || NotYet(s.clients[i]);
    forall cl | cl in s'.clients ensures !Repeated(cl) {
      var j :| 0 <= j < |s'.clients| && s'.clients[j] == cl;
      assert s.clients[j] in s.clients;
    }
    if Stock.AllRead(s) {
      assert Stock.AllRead(s');
    } else {
      forall cl | cl in s'.clients ensures NotYet(cl) {
        var j :| 0 <= j < |s'.clients| && s'.clients[j] == cl;
        assert s.clients[j] in s.clients;
      }
    }
  }

  lemma {:induction false} RacedRun(fp: Digest, s: System, c: string, b: Books, o: Order, actions: seq<Action>)
    requires RefundRace(fp, s, c, b, o, false) && Raced(s) && Stock.Schedule(actions)
    ensures var e := Run(fp, s, actions); RefundRace(fp, e, c, b, o, false) && Raced(e)
    decreases |actions|
  {
    if actions != [] {
      assert actions[0] in actions;
      RacedStep(fp, s, c, b, o, actions[0].i);
      hide RefundRace, Step, Raced;
      RacedRun(fp, Step(fp, s, actions[0]), c, b, o, actions[1..]);
    }
  }

  // ---- the rows after k refunds ----

  lemma {:induction false} GivenColumns(b: Books, o: Order, k: nat)
    ensures var g := Given(b, o, k);
      && g.inv.available == b.inv.available + k * o.quantity && g.inv.(available := 0) == b.inv.(available := 0)
      && g.buyer == b.buyer.(balance := b.buyer.balance + k * o.amount)
      && g.merchant == b.merchant.(balance := b.merchant.balance - k * o.amount)
  {
    if k > 0 {
      GivenColumns(b, o, k - 1);
      assert k * o.quantity == (k - 1) * o.quantity + o.quantity;
      assert k * o.amount == (k - 1) * o.amount + o.amount;
      hide Upsert;
    }
  }

  /** Each refund moves amount back and writes it into the ledger, so money and ledger go on agreeing. */
  lemma {:induction false} GivenMoney(b: Books, o: Order, k: nat)
    ensures Sum(Delta, Given(b, o, k).ledger) == Sum(Delta, b.ledger)
    ensures Sum(DeltaOf(BUYER), Given(b, o, k).ledger) == Sum(DeltaOf(BUYER), b.ledger) + k * o.amount
    ensures Sum(DeltaOf(MERCHANT), Given(b, o, k).ledger) == Sum(DeltaOf(MERCHANT), b.ledger) - k * o.amount
  {
    if k > 0 {
      GivenMoney(b, o, k - 1);
      var rows, l := LedgerRows(o, REFUNDED), Given(b, o, k - 1).ledger;
      SumConcat(Delta, l, rows);
      SumConcat(DeltaOf(BUYER), l, rows);
      SumConcat(DeltaOf(MERCHANT), l, rows);
      SumPair(Delta, rows);
      SumPair(DeltaOf(BUYER), rows);
      SumPair(DeltaOf(MERCHANT), rows);
      assert k * o.amount == (k - 1) * o.amount + o.amount;
      hide Upsert, Sum;
    }
  }

  function ReturnEntry(o: Order): Entry { Entry(o.caseId, o.id, BUYER, REFUNDED, o.amount) }

  lemma {:induction false} ReturnRows(o: Order)
    ensures multiset(LedgerRows(o, REFUNDED))[ReturnEntry(o)] == 1
    ensures forall e :: e in LedgerRows(o, REFUNDED) ==> e.caseId == o.caseId
  {
    var rows := LedgerRows(o, REFUNDED);
    assert multiset(rows) == multiset{rows[0], rows[1]};
  }

  lemma {:induction false} GivenLedger(b: Books, o: Order, k: nat)
    ensures multiset(Given(b, o, k).ledger)[ReturnEntry(o)] == multiset(b.ledger)[ReturnEntry(o)] + k
  {
    if k > 0 {
      GivenLedger(b, o, k - 1);
      ReturnRows(o);
      GivenRows(b, o, k);
      hide *;
      CountConcat(Given(b, o, k - 1).ledger, LedgerRows(o, REFUNDED), ReturnEntry(o));
    }
  }

  lemma GivenRows(b: Books, o: Order, k: nat)
    requires k > 0
    ensures Given(b, o, k).ledger == Given(b, o, k - 1).ledger + LedgerRows(o, REFUNDED)
  {
  }

  lemma CountConcat<T>(s: seq<T>, t: seq<T>, x: T)
    ensures multiset(s + t)[x] == multiset(s)[x] + multiset(t)[x]
  {
  }

  lemma {:induction false} GivenCase(b: Books, o: Order, k: nat)
    requires forall e :: e in b.ledger ==> e.caseId == o.caseId
    ensures forall e :: e in Given(b, o, k).ledger ==> e.caseId == o.caseId
  {
    if k > 0 {
      GivenCase(b, o, k - 1);
      ReturnRows(o);
      hide Upsert, LedgerRows;
    }
  }

  lemma OneReturnExpected(o: Order)
    requires o.state == REFUNDED
    ensures ExpectedEntries(o)[(BUYER, REFUNDED, o.amount)] == 1
  {
  }

  lemma {:induction false} EntriesDiffer(l: seq<Entry>, o: Order)
    requires o.state == PAID && multiset(l)[ReturnEntry(o)] >= 2 && forall e :: e in l ==> e.caseId == o.caseId
    ensures Entries(l, o.id) != ExpectedEntries(o.(state := REFUNDED))
  {
    hide Entries, ExpectedEntries;
    EntriesCount(l, o.caseId, o.id, BUYER, REFUNDED, o.amount);
    OneReturnExpected(o.(state := REFUNDED));
  }

  lemma LedgerDiffers(fp: Digest, s: Snapshot, o: Order)
    requires Shaped(s) && Entries(s.ledger, o.id) != ExpectedEntries(o)
    ensures OrderFault(fp, s, true, o, OrderLedgerExact)
  {
  }

  lemma {:induction false} RefundedTwice(fp: Digest, b: Books, o: Order, k: nat)
    requires Balanced(fp, b) && Lookup(OrderId, b.orders, o.id) == Some(o) && o.state == PAID && k >= 2
    ensures OrderFault(fp, Rows(Given(b, o, k)), true, o.(state := REFUNDED), OrderLedgerExact)
  {
    assert GoodOrder(b, o) && AccountedCase(b) by { AccountedRows(b); }
    hide Balanced, Given, Entries, ExpectedEntries, Lookup, OrderFault, ReturnEntry;
    GivenLedger(b, o, k);
    GivenCase(b, o, k);
    EntriesDiffer(Given(b, o, k).ledger, o);
    LedgerDiffers(fp, Rows(Given(b, o, k)), o.(state := REFUNDED));
  }

  ghost predicate AccountedCase(b: Books) { forall e :: e in b.ledger ==> e.caseId == b.inv.caseId }

  lemma {:induction false} RefundedStock(fp: Digest, b: Books, o: Order, k: nat)
    requires Balanced(fp, b) && Lookup(OrderId, b.orders, o.id) == Some(o) && o.state == PAID && k >= 1
    ensures Given(b, o, k).inv.available + Sum(PaidQuantity, Given(b, o, k).orders) == b.inv.initialQty + (k - 1) * o.quantity
    ensures o.quantity > 0 && Given(b, o, k).inv.initialQty == b.inv.initialQty
    ensures Orders(Rows(Given(b, o, k))) == Given(b, o, k).orders
  {
    var r := o.(state := REFUNDED);
    GivenColumns(b, o, k);
    GivenOrder(b, o, k);
    SumUpsert(PaidQuantity, OrderId, b.orders, r);
    assert GoodOrder(b, o) && k * o.quantity == (k - 1) * o.quantity + o.quantity;
    UpsertDistinct(OrderId, b.orders, r);
    DictDistinct(OrderId, Given(b, o, k).orders);
    hide Given;
    assert Given(b, o, k).inv.(available := 0).initialQty == b.inv.(available := 0).initialQty;
  }

  ghost predicate ConservesMoney(s: Snapshot) {
    && Shaped(s) && !StockFault(s, MoneyConservation) && !LedgerFault(s.ledger, s.events, Orders(s), LedgerZeroSum)
    && forall w :: w in s.wallets ==> !WalletFault(s, w, WalletLedgerAgreement)
  }

  lemma ZeroSum(s: Snapshot)
    requires Sum(Delta, s.ledger) == 0
    ensures !LedgerFault(s.ledger, s.events, Orders(s), LedgerZeroSum)
  {
  }

  lemma SameTotal(s: Snapshot)
    requires Shaped(s)
    requires s.wallets[0].balance + s.wallets[1].balance == s.wallets[0].initialBalance + s.wallets[1].initialBalance
    ensures !StockFault(s, MoneyConservation)
  {
  }

  lemma {:induction false} StillConserved(fp: Digest, b: Books, o: Order, k: nat)
    requires Balanced(fp, b)
    ensures ConservesMoney(Rows(Given(b, o, k)))
  {
    var s := Rows(Given(b, o, k));
    BalancedMoney(fp, b);
    AccountedWallets(b, b.buyer, WalletLedgerAgreement);
    hide Balanced, Given, Sum, Orders, StockFault, LedgerFault, WalletFault;
    GivenColumns(b, o, k);
    GivenMoney(b, o, k);
    SameTotal(s);
    ZeroSum(s);
    forall w | w in s.wallets ensures !WalletFault(s, w, WalletLedgerAgreement) { StillAgrees(fp, b, o, k, w); }
  }

  lemma BalancedMoney(fp: Digest, b: Books)
    requires Balanced(fp, b)
    ensures b.buyer.balance + b.merchant.balance == b.buyer.initialBalance + b.merchant.initialBalance
    ensures b.buyer.owner == BUYER && b.merchant.owner == MERCHANT
  {
  }

  lemma {:induction false} StillAgrees(fp: Digest, b: Books, o: Order, k: nat, w: Wallet)
    requires Balanced(fp, b) && w in Rows(Given(b, o, k)).wallets
    ensures !WalletFault(Rows(Given(b, o, k)), w, WalletLedgerAgreement)
  {
    hide Lookup, LedgerFor, EventsFor, ClaimsFor, Distinct, GoodOrder;
    BalancedMoney(fp, b);
    AccountedWallets(b, b.buyer, WalletLedgerAgreement);
    AccountedWallets(b, b.merchant, WalletLedgerAgreement);
    hide Balanced, Given, Sum, Orders;
    GivenColumns(b, o, k);
    GivenMoney(b, o, k);
  }

  // ---- exactly what the audit reports then ----

  /** Always stock, the order's ledger and its events; a bound only if the surplus exceeds what is out on other orders. */
  function RaceSymptoms(b: Books, o: Order, n: nat): set<Violation> {
    {Violation(StockConservation, ""), Violation(OrderLedgerExact, o.id), Violation(OrderEventsExact, o.id)}
    + (if b.inv.available + n * o.quantity > b.inv.initialQty then {Violation(StockBounds, "")} else {})
    + (if b.merchant.balance < n * o.amount then {Violation(NonnegativeBalance, MERCHANT)} else {})
  }

  lemma {:induction false} GivenTidy(fp: Digest, b: Books, o: Order, k: nat)
    requires Balanced(fp, b) && Lookup(OrderId, b.orders, o.id) == Some(o) && o.state == PAID && k >= 1
    ensures Tidy(fp, Given(b, o, k), true, o.id)
  {
    hide Balanced, Tidy, Lookup, Upsert, LedgerRows, EventRow;
    if k == 1 {
      GivenOnce(b, o);
      RefundBalanced(fp, b, o.id);
      BalancedTidy(fp, Given(b, o, 1), true, o.id);
    } else {
      GivenTidy(fp, b, o, k - 1);
      GivenOrder(b, o, k - 1);
      GivenOrder(b, o, k);
      var g, r := Given(b, o, k - 1), o.(state := REFUNDED);
      var g1 := g.(inv := Given(b, o, k).inv, buyer := Given(b, o, k).buyer, merchant := Given(b, o, k).merchant);
      LookupIn(g.orders, r);
      TotalsTidy(fp, g, g1, true, o.id);
      LedgerTidy(fp, g1, true, o, REFUNDED);
      EventTidy(fp, g1.(ledger := g1.ledger + LedgerRows(o, REFUNDED)), true, o, r, REFUNDED);
      assert Given(b, o, k) == g1.(ledger := g1.ledger + LedgerRows(o, REFUNDED)).(events := g.events + [EventRow(o, REFUNDED)]);
    }
  }

  lemma GivenOnce(b: Books, o: Order)
    requires Lookup(OrderId, b.orders, o.id) == Some(o) && o.state == PAID
    ensures CanRefund(b, o.id) && Given(b, o, 1) == Refunded(b, o.id)
  {
    assert Given(b, o, 0) == b;
  }

  lemma LookupIn(os: seq<Order>, r: Order)
    requires Lookup(OrderId, os, r.id) == Some(r)
    ensures r in os
  {
  }

  lemma {:induction false} GivenKinds(b: Books, o: Order, k: nat)
    ensures Kinds(Given(b, o, k).events, o.id)[REFUNDED] == Kinds(b.events, o.id)[REFUNDED] + k
  {
    hide Kinds, Upsert, LedgerRows;
    if k > 0 {
      GivenKinds(b, o, k - 1);
      KindsConcat(Given(b, o, k - 1).events, [EventRow(o, REFUNDED)], o.id);
      OneKind(EventRow(o, REFUNDED), o.id);
    }
  }

  lemma OneRefundKind(o: Order)
    ensures ExpectedKinds(o)[REFUNDED] <= 1
  {
  }

  lemma {:induction false} GivenOrderRows(fp: Digest, b: Books, o: Order, n: nat)
    requires Balanced(fp, b) && Lookup(OrderId, b.orders, o.id) == Some(o) && o.state == PAID && n >= 2
    ensures var g, r := Given(b, o, n), o.(state := REFUNDED);
      && r in g.orders && (forall x :: x in g.orders && x.id == o.id ==> x == r)
      && Entries(g.ledger, o.id) != ExpectedEntries(r) && Kinds(g.events, o.id) != ExpectedKinds(r)
  {
    hide Balanced, Given, Entries, Kinds, ExpectedEntries, ExpectedKinds, Upsert, Lookup, OrderFault, ReturnEntry;
    var g, r := Given(b, o, n), o.(state := REFUNDED);
    RefundedTwice(fp, b, o, n);
    Exactness(fp, g, true, r);
    GivenKinds(b, o, n);
    OneRefundKind(r);
    GivenOrder(b, o, n);
    LookupIn(g.orders, r);
    GivenTidy(fp, b, o, n);
    OnlyOrder(fp, g, r);
  }

  lemma OnlyOrder(fp: Digest, g: Books, r: Order)
    requires Tidy(fp, g, true, r.id) && r in g.orders
    ensures forall x :: x in g.orders && x.id == r.id ==> x == r
  {
    forall x | x in g.orders && x.id == r.id ensures x == r { assert OrderId(x) == OrderId(r); }
  }

  lemma {:induction false} GivenTotals(fp: Digest, b: Books, o: Order, n: nat)
    requires Balanced(fp, b) && Lookup(OrderId, b.orders, o.id) == Some(o) && o.state == PAID && n >= 2
    ensures var g := Given(b, o, n);
      && g.inv.available == b.inv.available + n * o.quantity >= 0 && g.inv.initialQty == b.inv.initialQty
      && g.inv.available + Sum(PaidQuantity, g.orders) > g.inv.initialQty
      && g.buyer.balance >= 0 && g.merchant.balance == b.merchant.balance - n * o.amount
      && g.buyer.balance - g.buyer.initialBalance == Sum(DeltaOf(BUYER), g.ledger)
      && g.merchant.balance - g.merchant.initialBalance == Sum(DeltaOf(MERCHANT), g.ledger)
      && (g.buyer.balance - g.buyer.initialBalance) + (g.merchant.balance - g.merchant.initialBalance) == 0
  {
    hide *;
    GoodAmounts(fp, b, o);
    BalancedMoney(fp, b);
    BalancedSums(fp, b);
    GivenColumns(b, o, n);
    GivenMoney(b, o, n);
    RefundedStock(fp, b, o, n);
    Scaled(n, o.quantity);
    Scaled(n, o.amount);
    var g := Given(b, o, n);
    assert g.inv.(available := 0).initialQty == b.inv.(available := 0).initialQty;
  }

  lemma Scaled(n: nat, x: int)
    requires n >= 2 && x > 0
    ensures n * x > 0 && (n - 1) * x > 0
  {
  }

  lemma {:induction false} BalancedSums(fp: Digest, b: Books)
    requires Balanced(fp, b)
    ensures b.buyer.balance - b.buyer.initialBalance == Sum(DeltaOf(BUYER), b.ledger)
    ensures b.merchant.balance - b.merchant.initialBalance == Sum(DeltaOf(MERCHANT), b.ledger)
  {
    assert Accounted(b);
    hide *;
    WalletSums(b);
  }

  lemma GoodAmounts(fp: Digest, b: Books, o: Order)
    requires Balanced(fp, b) && Lookup(OrderId, b.orders, o.id) == Some(o)
    ensures o.quantity > 0 && o.amount > 0 && b.inv.available >= 0 && b.buyer.balance >= 0
  {
    assert GoodOrder(b, o);
  }

  /** The report on n unlocked refunds of one order, stated from the rows alone. */
  lemma {:induction false} UnlockedExactly(fp: Digest, b: Books, o: Order, n: nat, v: Violation)
    requires Balanced(fp, b) && Lookup(OrderId, b.orders, o.id) == Some(o) && o.state == PAID && n >= 2
    ensures Broken(fp, Rows(Given(b, o, n)), true, v) <==> v in RaceSymptoms(b, o, n)
  {
    hide Balanced, Tidy, Broken, Given, Sum, Entries, Kinds, ExpectedEntries, ExpectedKinds, Lookup;
    GivenTidy(fp, b, o, n);
    GivenTotals(fp, b, o, n);
    GivenOrderRows(fp, b, o, n);
    TidyReport(fp, Given(b, o, n), true, o.id, v);
  }

  /** In the drill the order is the only one, so both bounds are broken too. */
  lemma {:induction false} OneOrderRace(fp: Digest, b: Books, o: Order, n: nat)
    requires Balanced(fp, b) && b.orders == [o] && o.state == PAID && b.merchant.initialBalance == 0 && n >= 2
    ensures RaceSymptoms(b, o, n) ==
      {Violation(StockConservation, ""), Violation(OrderLedgerExact, o.id), Violation(OrderEventsExact, o.id),
       Violation(StockBounds, ""), Violation(NonnegativeBalance, MERCHANT)}
  {
    assert o in b.orders && GoodOrder(b, o);
    SumOne(PaidQuantity, o);
    SumOne(PaidAmount, o);
    assert b.inv.available + o.quantity == b.inv.initialQty && b.merchant.balance == o.amount;
    assert n * o.quantity > o.quantity && n * o.amount > o.amount;
  }

  lemma SumOne<T>(f: T -> int, x: T)
    ensures Sum(f, [x]) == f(x)
  {
    SumAppend(f, [], x);
    assert [] + [x] == [x];
  }

  /**
   * The negative control, for every number of refunds from two up: when all read the paid row before anyone
   * writes, everyone refunds. The order's ledger and the stock are wrong, yet money is still conserved, the
   * ledger still sums to zero and both wallets still agree with it.
   */
  lemma {:induction false} UnlockedRefundsMultiply(fp: Digest, s: System, c: string, oid: string, actions: seq<Action>)
    requires Ready(fp, s, c, oid, false) && s.barrier && |s.clients| >= 2 && Stock.Schedule(actions)
    requires forall cl :: cl in Run(fp, s, actions).clients ==> cl.phase.Done?
    ensures var e := Run(fp, s, actions);
      && (forall cl :: cl in e.clients ==> GaveBack(cl)) && c in e.db && e.db[c] == Given(s.db[c], Lookup(OrderId, s.db[c].orders, oid).value, |s.clients|)
      && Broken(fp, Rows(e.db[c]), true, Violation(OrderLedgerExact, oid))
      && Broken(fp, Rows(e.db[c]), true, Violation(StockConservation, ""))
      && ConservesMoney(Rows(e.db[c]))
      && forall v :: Broken(fp, Rows(e.db[c]), true, v) <==> v in RaceSymptoms(s.db[c], Lookup(OrderId, s.db[c].orders, oid).value, |s.clients|)
  {
    var b := s.db[c];
    var o := Lookup(OrderId, b.orders, oid).value;
    ReadyRaced(fp, s, c, oid);
    ReadyRace(fp, s, c, oid, false);
    ReadyOrder(fp, s, c, oid);
    hide *;
    RacedRun(fp, s, c, b, o, actions);
    Stock.RunKeepsClients(fp, s, actions);
    RacedEnd(fp, Run(fp, s, actions), c, b, o);
    LedgerBroken(fp, b, o, |s.clients|);
    StockBroken(fp, b, o, |s.clients|);
    StillConserved(fp, b, o, |s.clients|);
    forall v ensures Broken(fp, Rows(Given(b, o, |s.clients|)), true, v) <==> v in RaceSymptoms(b, o, |s.clients|) {
      UnlockedExactly(fp, b, o, |s.clients|, v);
    }
  }

  lemma {:induction false} ReadyRaced(fp: Digest, s: System, c: string, oid: string)
    requires Ready(fp, s, c, oid, false) && s.barrier
    ensures Raced(s)
  {
    hide Balanced;
  }

  lemma {:induction false} ReadyOrder(fp: Digest, s: System, c: string, oid: string)
    requires Ready(fp, s, c, oid, false)
    ensures var o := Lookup(OrderId, s.db[c].orders, oid);
      Balanced(fp, s.db[c]) && o.Some? && o.value.id == oid && o.value.state == PAID
  {
    hide Balanced;
  }

  lemma {:induction false} LedgerBroken(fp: Digest, b: Books, o: Order, n: nat)
    requires Balanced(fp, b) && Lookup(OrderId, b.orders, o.id) == Some(o) && o.state == PAID && n >= 2
    ensures Broken(fp, Rows(Given(b, o, n)), true, Violation(OrderLedgerExact, o.id))
  {
    RefundedTwice(fp, b, o, n);
    RefundedStock(fp, b, o, n);
    GivenOrder(b, o, n);
    hide Balanced, Given, Sum, Lookup, OrderFault, Orders, TableFault, WalletBroken;
    var s, r := Rows(Given(b, o, n)), o.(state := REFUNDED);
    assert r in Orders(s);
    assert OrderBroken(fp, s, true, Orders(s), Violation(OrderLedgerExact, o.id));
  }

  lemma {:induction false} StockBroken(fp: Digest, b: Books, o: Order, n: nat)
    requires Balanced(fp, b) && Lookup(OrderId, b.orders, o.id) == Some(o) && o.state == PAID && n >= 2
    ensures Broken(fp, Rows(Given(b, o, n)), true, Violation(StockConservation, ""))
  {
    hide *;
    RefundedStock(fp, b, o, n);
    assert (n - 1) * o.quantity > 0;
    RowsShape(Given(b, o, n));
    TxPartial.StockDiffers(fp, Rows(Given(b, o, n)), true);
  }

  lemma RowsShape(b: Books)
    ensures Shaped(Rows(b)) && Rows(b).inventory[0] == b.inv
  {
  }

  lemma {:induction false} RacedEnd(fp: Digest, e: System, c: string, b: Books, o: Order)
    requires RefundRace(fp, e, c, b, o, false) && Raced(e)
    requires forall cl :: cl in e.clients ==> cl.phase.Done?
    ensures forall cl :: cl in e.clients ==> GaveBack(cl)
    ensures c in e.db && e.db[c] == Given(b, o, |e.clients|)
  {
    hide Isolated, Given;
    Split(e.clients);
    SumZero(RepeatedOne, e.clients);
  }

  // ---- no schedule gets stuck ----

  lemma {:induction false} HeldFurther(fp: Digest, s: System, c: string, b: Books, o: Order, guarded: bool, i: nat, j: nat)
    requires RefundRace(fp, s, c, b, o, guarded) && i < |s.clients| && j < |s.clients| && i != j && s.clients[i].phase.InTx?
    requires Target(s.clients[i].call, s.clients[i].phase.tx).Some?
    requires Target(s.clients[i].call, s.clients[i].phase.tx).value in Held(s.clients[j])
    ensures Stock.Level(s.clients[j]) > Stock.Level(s.clients[i])
  {
    var ci, cj := s.clients[i], s.clients[j];
    StandingOf(fp, s, c, b, o, guarded, i);
    StandingOf(fp, s, c, b, o, guarded, j);
    assert ClientInv(fp, s.db, ci) && ClientInv(fp, s.db, cj) && Held(ci) !! Held(cj);
    hide RefundRace, Isolated, Given, OrderIn, HasClaim, Sum;
    assert cj.phase.InTx?;
    assert TxInv(fp, s.db, ci.call, 0, ci.phase.tx) && TxInv(fp, s.db, cj.call, 0, cj.phase.tx);
    assert Head(ci.call, 0, ci.phase.tx) && Head(cj.call, 0, cj.phase.tx);
  }

  /** The furthest client waits for nobody, once everyone has read or when there is no barrier. */
  lemma {:induction false} FurthestFree(fp: Digest, s: System, c: string, b: Books, o: Order, guarded: bool, i: nat)
    requires RefundRace(fp, s, c, b, o, guarded) && i < |s.clients| && s.clients[i].phase.InTx?
    requires Stock.AllRead(s) || !s.barrier || !s.clients[i].phase.tx.stage.AtStock?
    requires forall j :: 0 <= j < |s.clients| ==> Stock.Level(s.clients[j]) <= Stock.Level(s.clients[i])
    ensures !Stock.Blocked(s, i, s.clients[i].phase.tx)
  {
    hide RefundRace, Held, Target, Stock.Level;
    var row := Target(s.clients[i].call, s.clients[i].phase.tx);
    if row.Some? {
      forall j | 0 <= j < |s.clients| && j != i ensures row.value !in Held(s.clients[j]) {
        if row.value in Held(s.clients[j]) { HeldFurther(fp, s, c, b, o, guarded, i, j); }
      }
    }
  }

  /** Behind the unlocked read a client that has not read yet waits for nobody. */
  lemma {:induction false} WaitingFree(fp: Digest, s: System, c: string, b: Books, o: Order, i: nat)
    requires RefundRace(fp, s, c, b, o, false) && i < |s.clients| && s.clients[i].phase.InTx? && Waiting(s.clients[i])
    ensures !Stock.Blocked(s, i, s.clients[i].phase.tx)
  {
    StandingOf(fp, s, c, b, o, false, i);
    assert ClientInv(fp, s.db, s.clients[i]) && TxInv(fp, s.db, s.clients[i].call, 0, s.clients[i].phase.tx);
    assert Head(s.clients[i].call, 0, s.clients[i].phase.tx);
    hide RefundRace, Isolated, TxInv, ClientInv, Free;
  }

  lemma {:induction false} TurnLeft(s: System, o: Order, guarded: bool, i: nat, s': System, turn: Turn)
    requires i < |s.clients| && Taken(s, i, o, guarded, s', turn) && !turn.Stays?
    ensures Sum(Stock.Left, s'.clients) < Sum(Stock.Left, s.clients)
  {
    hide Install, Sum, Stock.AllRead;
    SumUpdate(Stock.Left, s.clients, i, s'.clients[i]);
  }

  /** With the barrier the reads are unlocked, as the drill sets it up. */
  predicate Arranged(s: System, guarded: bool) { guarded ==> !s.barrier }

  lemma {:induction false} SomeoneMoves(fp: Digest, s: System, c: string, b: Books, o: Order, guarded: bool) returns (i: nat)
    requires RefundRace(fp, s, c, b, o, guarded) && Arranged(s, guarded) && exists cl :: cl in s.clients && !cl.phase.Done?
    ensures i < |s.clients| && Sum(Stock.Left, AdvanceClient(fp, s, i).clients) < Sum(Stock.Left, s.clients)
  {
    hide AdvanceClient, Taken, Stock.Blocked, Sum, RefundRace;
    if k :| 0 <= k < |s.clients| && s.clients[k].phase.Idle? {
      i := k;
    } else if k :| 0 <= k < |s.clients| && Waiting(s.clients[k]) && !guarded {
      i := k;
      WaitingFree(fp, s, c, b, o, i);
    } else {
      i := Stock.Furthest(s.clients);
      FurthestOpen(fp, s, c, b, o, guarded, i);
      FurthestFree(fp, s, c, b, o, guarded, i);
    }
    var turn := RefundTurn(fp, s, c, b, o, guarded, i);
    TurnLeft(s, o, guarded, i, AdvanceClient(fp, s, i), turn);
  }

  lemma {:induction false} FurthestOpen(fp: Digest, s: System, c: string, b: Books, o: Order, guarded: bool, i: nat)
    requires RefundRace(fp, s, c, b, o, guarded) && exists cl :: cl in s.clients && !cl.phase.Done?
    requires forall k :: 0 <= k < |s.clients| ==> !s.clients[k].phase.Idle?
    requires i < |s.clients| && forall j :: 0 <= j < |s.clients| ==> Stock.Level(s.clients[j]) <= Stock.Level(s.clients[i])
    ensures s.clients[i].phase.InTx?
  {
    var cl :| cl in s.clients && !cl.phase.Done?;
    var j :| 0 <= j < |s.clients| && s.clients[j] == cl;
    StandingOf(fp, s, c, b, o, guarded, j);
    hide RefundRace, Sum;
  }

  lemma {:induction false} StepBarrier(fp: Digest, s: System, i: nat)
    requires i < |s.clients|
    ensures AdvanceClient(fp, s, i).barrier == s.barrier
  {
    hide Exec, LookupClaim, LookupOrder, Install, Target, Free, BarrierClosed, Begin;
  }

  /** Every refund race can be brought to its end. */
  lemma {:induction false} RefundsFinish(fp: Digest, s: System, c: string, b: Books, o: Order, guarded: bool) returns (actions: seq<Action>)
    requires RefundRace(fp, s, c, b, o, guarded) && Arranged(s, guarded)
    ensures Stock.Schedule(actions) && forall cl :: cl in Run(fp, s, actions).clients ==> cl.phase.Done?
    decreases Sum(Stock.Left, s.clients)
  {
    actions := [];
    Stock.LeftNonNegative(s.clients);
    if exists cl :: cl in s.clients && !cl.phase.Done? {
      hide RefundRace, Sum;
      var i := SomeoneMoves(fp, s, c, b, o, guarded);
      var turn := RaceStep(fp, s, c, b, o, guarded, i);
      Stock.StepAdvances(fp, s, i);
      StepBarrier(fp, s, i);
      hide Step, AdvanceClient;
      Stock.LeftNonNegative(AdvanceClient(fp, s, i).clients);
      var rest := RefundsFinish(fp, AdvanceClient(fp, s, i), c, b, o, guarded);
      actions := [Advance(i)] + rest;
      assert actions[1..] == rest;
    }
  }
}
