/** The stock race: the same buyers with the conditional decrement and with the stale read. */
module TxStockRace {
  import opened Prelude
  import opened TxRows
  import opened TxAudit
  import opened TxLaws
  import opened TxSerial
  import opened TxSystem
  import opened TxIsolation

  // ---- the buyers ----

  predicate Buyer(call: Call, c: string, policy: Policy) {
    && call.Checkout? && call.req.caseId == c && call.policy == policy
    && call.failAt.None? && !call.loseResponse && call.ids != []
  }

  function Wanted(cl: Client): int { if cl.call.Checkout? then cl.call.req.quantity else 0 }
  function Oid(cl: Client): string { if cl.call.Checkout? && cl.call.ids != [] then cl.call.ids[0] else "" }
  function Key(cl: Client): string { if cl.call.Checkout? then cl.call.req.key else "" }

  predicate Made(cl: Client) { cl.phase.Done? && cl.phase.outcome.Created? }
  predicate SoldOut(cl: Client) { cl.phase == Done(Rejected("sold_out")) }

  function MadeOne(cl: Client): int { if Made(cl) then 1 else 0 }
  function SoldOutOne(cl: Client): int { if SoldOut(cl) then 1 else 0 }
  function MadeQuantity(cl: Client): int { if Made(cl) then Wanted(cl) else 0 }
  function Pending(price: int): Client -> int { (cl: Client) => if Made(cl) then 0 else Wanted(cl) * price }

  ghost predicate Buyers(cs: seq<Client>, c: string, policy: Policy) {
    && (forall i :: 0 <= i < |cs| ==> Buyer(cs[i].call, c, policy) && cs[i].attempt == 0)
    && (policy.NoClaim? || Distinct(Key, cs)) && Distinct(Oid, cs)
  }

  ghost predicate KeyUnused(db: Db, c: string, key: string) {
    c in db && !HasClaim(db, c, key) && Lookup(OrderKey, db[c].orders, key).None?
  }

  /** An order id nobody has used yet and, except for the duplicates of the no-claim control, a key nobody has used. */
  ghost predicate Unused(db: Db, c: string, policy: Policy, cl: Client) {
    c in db && !HasOrder(db, Oid(cl)) && (policy.NoClaim? || KeyUnused(db, c, Key(cl)))
  }

  predicate Phased(cl: Client) { cl.phase.Idle? || cl.phase.InTx? || Made(cl) || SoldOut(cl) }

  ghost predicate Tallied(cs: seq<Client>, b: Books) {
    && |b.orders| == Sum(MadeOne, cs)
    && Sum(PaidQuantity, b.orders) == Sum(MadeQuantity, cs)
    && Sum(Pending(b.inv.unitPrice), cs) <= b.buyer.balance
  }

  /** What every moment of the race keeps, under either policy. */
  ghost predicate Race(fp: Digest, s: System, c: string, policy: Policy) {
    && Isolated(fp, s) && Buyers(s.clients, c, policy) && c in s.db
    && Accounted(s.db[c]) && s.db[c].inv.caseId == c && (policy.NoClaim? || Distinct(OrderKey, s.db[c].orders))
    && Tallied(s.clients, s.db[c])
    && (forall i :: 0 <= i < |s.clients| ==> Phased(s.clients[i]))
    && (forall i :: 0 <= i < |s.clients| && !Made(s.clients[i]) ==> Unused(s.db, c, policy, s.clients[i]))
  }

  // ---- steps ----

  lemma {:induction false} CanPay(fp: Digest, s: System, c: string, policy: Policy, i: nat)
    requires Race(fp, s, c, policy) && i < |s.clients| && !Made(s.clients[i])
    ensures s.db[c].buyer.balance >= Wanted(s.clients[i]) * s.db[c].inv.unitPrice
  {
    var price := s.db[c].inv.unitPrice;
    forall cl | cl in s.clients ensures Pending(price)(cl) >= 0 {}
    SumNonNegative(Pending(price), s.clients);
    assert Pending(price)(s.clients[i]) <= Sum(Pending(price), s.clients);
  }

  /** A funded buyer with unused key and id meets only one refusal: sold out. */
  lemma {:induction false} BuyerStatement(fp: Digest, db: Db, cl: Client, c: string, policy: Policy, tx: Tx)
    requires TxInv(fp, db, cl.call, 0, tx) && Unused(db, c, policy, cl)
    requires Buyer(cl.call, c, policy) && db[c].buyer.balance >= Wanted(cl) * db[c].inv.unitPrice
    ensures var e := Exec(fp, db, cl.call, tx);
      !e.Duplicate? && (e.Finish? ==> e.outcome == Rejected("sold_out") && tx.stage.AtStock?)
      && (e.Finish? ==> cl.call.req.quantity > if policy.StaleStock? then tx.seen else db[c].inv.available)
    ensures var e := Exec(fp, db, cl.call, tx);
      e.Continue? ==> (Rank(e.tx.stage) > 1 ==> e.tx.seen == if tx.stage.AtRead? then db[c].inv.available else tx.seen)
                      && Rank(e.tx.stage) == Rank(tx.stage) + 1
  {
  }

  lemma {:induction false} BuyersKept(s: System, c: string, policy: Policy, i: nat, p: Phase)
    requires Buyers(s.clients, c, policy) && i < |s.clients|
    ensures Buyers(SetPhase(s, i, p).clients, c, policy)
  {
    var cs' := SetPhase(s, i, p).clients;
    assert forall j :: 0 <= j < |cs'| ==> cs'[j].call == s.clients[j].call && cs'[j].attempt == s.clients[j].attempt;
    assert forall j :: 0 <= j < |cs'| ==> Key(cs'[j]) == Key(s.clients[j]) && Oid(cs'[j]) == Oid(s.clients[j]);
  }

  lemma {:induction false} MoveTally(cs: seq<Client>, b: Books, i: nat, p: Phase)
    requires Tallied(cs, b) && i < |cs| && !Made(cs[i]) && !Made(cs[i].(phase := p))
    ensures Tallied(cs[i := cs[i].(phase := p)], b)
  {
    var cl' := cs[i].(phase := p);
    SumUpdate(MadeOne, cs, i, cl');
    SumUpdate(MadeQuantity, cs, i, cl');
    SumUpdate(Pending(b.inv.unitPrice), cs, i, cl');
  }

  lemma {:induction false} Move(fp: Digest, s: System, c: string, policy: Policy, i: nat, p: Phase)
    requires Race(fp, s, c, policy) && i < |s.clients| && !Made(s.clients[i])
    requires Isolated(fp, SetPhase(s, i, p)) && (p.InTx? || p == Done(Rejected("sold_out")))
    ensures Race(fp, SetPhase(s, i, p), c, policy)
  {
    hide Isolated, Accounted, Tallied, Buyers, HasOrder, HasClaim, Lookup, Distinct;
    BuyersKept(s, c, policy, i, p);
    MoveTally(s.clients, s.db[c], i, p);
    var s' := SetPhase(s, i, p);
    forall j | 0 <= j < |s'.clients| && !Made(s'.clients[j]) ensures Unused(s'.db, c, policy, s'.clients[j]) {
      assert Unused(s.db, c, policy, s.clients[j]);
    }
  }

  lemma {:induction false} Sale(fp: Digest, s: System, c: string, policy: Policy, i: nat, tx: Tx)
    requires Race(fp, s, c, policy) && i < |s.clients| && s.clients[i].phase == InTx(tx) && tx.stage.AtCommit?
    ensures var b, b' := s.db[c], Install(s.db, tx)[c];
      && tx.caseId == c && tx.w.available.Some? && tx.order == OrderFor(b, s.clients[i].call.req, Oid(s.clients[i]))
      && Install(s.db, tx) == s.db[c := b']
      && b' == Sell(b, tx.order, tx.w.available.value, if Protects(policy) then [ClaimOf(fp, tx.order)] else [])
  {
    var cl := s.clients[i];
    assert ClientInv(fp, s.db, cl) && TxInv(fp, s.db, cl.call, 0, tx);
    CommitMeaning(fp, s, i, tx);
    assert Head(cl.call, 0, tx) && OrderPart(s.db, cl.call, tx) && CommitEffect(fp, s.db, Install(s.db, tx), cl.call, tx);
    hide TxInv, Isolated, Install, ClientInv, Accounted, Unused, Tallied, HasOrder, OrderIn;
  }

  lemma {:induction false} SaleTally(fp: Digest, s: System, c: string, policy: Policy, i: nat, tx: Tx, o: Order, b': Books, p: Phase)
    requires Race(fp, s, c, policy) && i < |s.clients| && !Made(s.clients[i]) && p == Done(Created(o))
    requires o == OrderFor(s.db[c], s.clients[i].call.req, Oid(s.clients[i]))
    requires b'.orders == s.db[c].orders + [o] && b'.buyer.balance == s.db[c].buyer.balance - o.amount
    requires b'.inv.unitPrice == s.db[c].inv.unitPrice
    ensures Tallied(SetPhase(s, i, p).clients, b')
  {
    var cl' := s.clients[i].(phase := p);
    hide Isolated, Accounted, Unused;
    SumUpdate(MadeOne, s.clients, i, cl');
    SumUpdate(MadeQuantity, s.clients, i, cl');
    SumUpdate(Pending(s.db[c].inv.unitPrice), s.clients, i, cl');
    SumAppend(PaidQuantity, s.db[c].orders, o);
  }

  lemma {:induction false} SaleAccounted(fp: Digest, s: System, c: string, policy: Policy, i: nat, available: int, claims: seq<Claim>)
    requires Race(fp, s, c, policy) && i < |s.clients| && !Made(s.clients[i])
    ensures var o := OrderFor(s.db[c], s.clients[i].call.req, Oid(s.clients[i]));
      Accounted(Sell(s.db[c], o, available, claims)) && (policy.NoClaim? || Distinct(OrderKey, s.db[c].orders + [o]))
  {
    var b, cl := s.db[c], s.clients[i];
    var o := OrderFor(b, cl.call.req, Oid(cl));
    CanPay(fp, s, c, policy, i);
    assert Unused(s.db, c, policy, cl);
    assert OrderIn(s.db, c, o.id).None?;
    if !policy.NoClaim? { AppendDistinct(OrderKey, b.orders, o); }
    SellAccounted(b, o, available, claims);
  }

  lemma Apart(cs: seq<Client>, c: string, policy: Policy, i: nat, j: nat)
    requires Buyers(cs, c, policy) && i < |cs| && j < |cs| && i != j
    ensures (policy.NoClaim? || Key(cs[i]) != Key(cs[j])) && Oid(cs[i]) != Oid(cs[j])
  {
    if i > j { assert (policy.NoClaim? || Key(cs[j]) != Key(cs[i])) && Oid(cs[j]) != Oid(cs[i]); }
  }

  lemma {:induction false} StillUnused(fp: Digest, s: System, c: string, policy: Policy, i: nat, tx: Tx, j: nat)
    requires Race(fp, s, c, policy) && i < |s.clients| && s.clients[i].phase == InTx(tx) && tx.stage.AtCommit?
    requires j < |s.clients| && j != i && !Made(s.clients[j])
    ensures Unused(Install(s.db, tx), c, policy, s.clients[j])
  {
    var ci, cj := s.clients[i], s.clients[j];
    assert ClientInv(fp, s.db, ci) && TxInv(fp, s.db, ci.call, 0, tx) && Unused(s.db, c, policy, cj);
    hide Install, TxInv, Isolated, ClientInv, Accounted, OrderIn, Tallied, Lookup, Buyers, Race;
    Sale(fp, s, c, policy, i, tx);
    CommitOrders(fp, s.db, ci.call, 0, tx);
    CommitClaims(fp, s.db, ci.call, 0, tx);
    Apart(s.clients, c, policy, i, j);
    LookupConcat(OrderKey, s.db[c].orders, [tx.order], Key(cj));
  }

  lemma {:induction false} Commits(fp: Digest, s: System, c: string, policy: Policy, i: nat, tx: Tx)
    requires Race(fp, s, c, policy) && i < |s.clients| && s.clients[i].phase == InTx(tx) && tx.stage.AtCommit?
    ensures Race(fp, SetPhase(s.(db := Install(s.db, tx)), i, Done(Created(tx.order))), c, policy)
  {
    hide Isolated, Accounted, Install, Unused, Tallied, Buyers, Distinct;
    var p := Done(Created(tx.order));
    var db' := Install(s.db, tx);
    var s' := SetPhase(s.(db := db'), i, p);
    CommitStep(fp, s, i, tx, p);
    BuyersKept(s, c, policy, i, p);
    SaleBooks(fp, s, c, policy, i, tx);
    forall j | 0 <= j < |s'.clients| && !Made(s'.clients[j]) ensures Unused(db', c, policy, s'.clients[j]) {
      StillUnused(fp, s, c, policy, i, tx, j);
    }
  }

  lemma {:induction false} SaleBooks(fp: Digest, s: System, c: string, policy: Policy, i: nat, tx: Tx)
    requires Race(fp, s, c, policy) && i < |s.clients| && s.clients[i].phase == InTx(tx) && tx.stage.AtCommit?
    ensures var db' := Install(s.db, tx);
      && c in db' && Accounted(db'[c]) && db'[c].inv.caseId == c && (policy.NoClaim? || Distinct(OrderKey, db'[c].orders))
      && Tallied(SetPhase(s.(db := db'), i, Done(Created(tx.order))).clients, db'[c])
  {
    hide Isolated, Accounted, Install, Unused, Tallied, Buyers, Distinct;
    Sale(fp, s, c, policy, i, tx);
    SaleAccounted(fp, s, c, policy, i, tx.w.available.value, if Protects(policy) then [ClaimOf(fp, tx.order)] else []);
    SaleTally(fp, s, c, policy, i, tx, tx.order, Install(s.db, tx)[c], Done(Created(tx.order)));
  }

  // ---- one step of the race ----

  /** What an Advance did: nothing, one more statement, a sold-out refusal, or a sale. */
  datatype Turn = Stays | Goes(next: Tx) | Refused | Sells(tx: Tx)

  ghost predicate AllRead(s: System) { forall j :: 0 <= j < |s.clients| ==> !Waiting(s.clients[j]) }

  ghost predicate GoesTo(s: System, i: nat, c: string, policy: Policy, next: Tx)
    requires i < |s.clients| && c in s.db
  {
    var p := s.clients[i].phase;
    if p.Idle? then Rank(next.stage) <= 1
    else p.InTx? && Rank(next.stage) == Rank(p.tx.stage) + 1
         && (Rank(next.stage) > 1 ==> next.seen == if p.tx.stage.AtRead? then s.db[c].inv.available else p.tx.seen)
         && (p.tx.stage.AtStock? && policy.StaleStock? && s.barrier ==> AllRead(s))
  }

  ghost predicate Taken(s: System, i: nat, c: string, policy: Policy, s': System, turn: Turn)
    requires i < |s.clients| && c in s.db
  {
    var p := s.clients[i].phase;
    match turn
    case Stays => s' == s
    case Goes(next) => !Made(s.clients[i]) && !SoldOut(s.clients[i]) && s' == SetPhase(s, i, InTx(next)) && GoesTo(s, i, c, policy, next)
    case Refused =>
      && s' == SetPhase(s, i, Done(Rejected("sold_out"))) && p.InTx? && p.tx.stage.AtStock?
      && Wanted(s.clients[i]) > if policy.StaleStock? then p.tx.seen else s.db[c].inv.available
    case Sells(tx) =>
      p == InTx(tx) && tx.stage.AtCommit? && s' == SetPhase(s.(db := Install(s.db, tx)), i, Done(Created(tx.order)))
  }

  lemma PlainCheckpoint(s: System, c: string, policy: Policy, i: nat, tx: Tx, boundary: Option<Failpoint>)
    requires i < |s.clients| && Buyer(s.clients[i].call, c, policy) && !policy.SplitCommit?
    ensures Checkpoint(s, i, tx, boundary) == SetPhase(s, i, InTx(tx))
  {
  }

  lemma BarrierOpen(s: System, call: Call, tx: Tx)
    requires !BarrierClosed(s, call, tx)
    ensures HasHook(call) && s.barrier && tx.stage.AtStock? ==> AllRead(s)
  {
  }

  ghost predicate Bids(fp: Digest, db: Db, cl: Client, c: string, policy: Policy, tx: Tx)
    requires c in db
  {
    match Exec(fp, db, cl.call, tx)
    case Continue(next, _) =>
      Rank(next.stage) == Rank(tx.stage) + 1
      && (Rank(next.stage) > 1 ==> next.seen == if tx.stage.AtRead? then db[c].inv.available else tx.seen)
    case Finish(outcome) =>
      outcome == Rejected("sold_out") && tx.stage.AtStock?
      && cl.call.Checkout? && cl.call.req.quantity > if policy.StaleStock? then tx.seen else db[c].inv.available
    case Duplicate => false
    case Commit => tx.stage.AtCommit?
  }

  lemma {:induction false} Bidding(fp: Digest, s: System, c: string, policy: Policy, i: nat, tx: Tx)
    requires Race(fp, s, c, policy) && i < |s.clients| && s.clients[i].phase == InTx(tx)
    ensures Bids(fp, s.db, s.clients[i], c, policy, tx)
    ensures Buyer(s.clients[i].call, c, policy) && !policy.SplitCommit? && HasHook(s.clients[i].call) == policy.StaleStock?
  {
    var cl := s.clients[i];
    assert Unused(s.db, c, policy, cl) && ClientInv(fp, s.db, cl) && TxInv(fp, s.db, cl.call, 0, tx) && Buyer(cl.call, c, policy);
    CanPay(fp, s, c, policy, i);
    hide Race, TxInv, Isolated, Unused, Exec, Accounted, HasOrder;
    BuyerStatement(fp, s.db, cl, c, policy, tx);
    ExecKeeps(fp, s.db, cl.call, 0, tx);
  }

  predicate Blocked(s: System, i: nat, tx: Tx)
    requires i < |s.clients|
  {
    var row := Target(s.clients[i].call, tx);
    (row.Some? && !Free(s, i, row.value)) || BarrierClosed(s, s.clients[i].call, tx)
  }

  lemma {:induction false} StatementTurn(fp: Digest, s: System, c: string, policy: Policy, i: nat, tx: Tx, next: Tx, boundary: Option<Failpoint>)
    requires c in s.db && i < |s.clients| && s.clients[i].phase == InTx(tx) && Exec(fp, s.db, s.clients[i].call, tx) == Continue(next, boundary)
    requires Bids(fp, s.db, s.clients[i], c, policy, tx) && Buyer(s.clients[i].call, c, policy) && !policy.SplitCommit?
    requires HasHook(s.clients[i].call) == policy.StaleStock? && !BarrierClosed(s, s.clients[i].call, tx)
    ensures Taken(s, i, c, policy, Checkpoint(s, i, next, boundary), Goes(next))
  {
    hide Exec, BarrierClosed, Checkpoint, Buyer, AllRead, Install;
    BarrierOpen(s, s.clients[i].call, tx);
    PlainCheckpoint(s, c, policy, i, next, boundary);
  }

  lemma {:induction false} RunTurn(fp: Digest, s: System, c: string, policy: Policy, i: nat, tx: Tx) returns (turn: Turn)
    requires Race(fp, s, c, policy) && i < |s.clients| && s.clients[i].phase == InTx(tx)
    ensures Taken(s, i, c, policy, RunTx(fp, s, i, tx), turn)
    ensures turn.Stays? ==> Blocked(s, i, tx)
  {
    hide Exec, Isolated, Unused, Target, Free, Install, BarrierClosed, Checkpoint, Buyer, AllRead, GoesTo, HasHook,
      Buyers, Accounted, Tallied, Distinct, Phased, CommitOutcome;
    Bidding(fp, s, c, policy, i, tx);
    turn := Stays;
    if !Blocked(s, i, tx) {
      match Exec(fp, s.db, s.clients[i].call, tx)
      case Continue(next, boundary) =>
        turn := Goes(next);
        StatementTurn(fp, s, c, policy, i, tx, next, boundary);
      case Finish(_) => turn := Refused;
      case Duplicate =>
      case Commit =>
        turn := Sells(tx);
        SaleOutcome(s.clients[i].call, c, policy, tx);
    }
  }

  lemma SaleOutcome(call: Call, c: string, policy: Policy, tx: Tx)
    requires Buyer(call, c, policy)
    ensures CommitOutcome(call, tx) == Created(tx.order)
  {
  }

  lemma {:induction false} BuyerTurn(fp: Digest, s: System, c: string, policy: Policy, i: nat) returns (turn: Turn)
    requires Race(fp, s, c, policy) && i < |s.clients|
    ensures Taken(s, i, c, policy, AdvanceClient(fp, s, i), turn)
    ensures turn.Stays? ==> s.clients[i].phase.Done? || (s.clients[i].phase.InTx? && Blocked(s, i, s.clients[i].phase.tx))
  {
    turn := Stays;
    assert Phased(s.clients[i]) && Buyer(s.clients[i].call, c, policy);
    hide Race, RunTx, Install, Blocked;
    match s.clients[i].phase
    case Idle => turn := Goes(Begin(s.clients[i].call, s.clients[i].attempt));
    case InTx(tx) => turn := RunTurn(fp, s, c, policy, i, tx);
    case _ =>
  }

  lemma {:induction false} TurnKeepsRace(fp: Digest, s: System, c: string, policy: Policy, i: nat, s': System, turn: Turn)
    requires Race(fp, s, c, policy) && i < |s.clients| && Taken(s, i, c, policy, s', turn) && Isolated(fp, s')
    ensures Race(fp, s', c, policy)
  {
    hide Isolated, Race, Install, GoesTo;
    match turn
    case Stays =>
    case Goes(next) => Move(fp, s, c, policy, i, InTx(next));
    case Refused => Move(fp, s, c, policy, i, Done(Rejected("sold_out")));
    case Sells(tx) => Commits(fp, s, c, policy, i, tx);
  }

  // ---- whole schedules: every client keeps advancing in some order, and nothing fails ----

  ghost predicate Schedule(actions: seq<Action>) { forall a :: a in actions ==> a.Advance? }

  ghost predicate Ready(s: System, c: string, policy: Policy, stock: int, balance: int, price: int) {
    && c in s.db && s.db[c] == Fixture(c, stock, balance, price) && stock >= 0 && price > 0 && balance >= 0
    && Buyers(s.clients, c, policy)
    && (forall cl :: cl in s.clients ==> cl.phase.Idle? && !HasOrder(s.db, Oid(cl)))
    && Sum(Pending(price), s.clients) <= balance
  }

  lemma {:induction false} ReadyRace(fp: Digest, s: System, c: string, policy: Policy, stock: int, balance: int, price: int)
    requires Ready(s, c, policy, stock, balance, price) && !policy.SplitCommit?
    ensures Race(fp, s, c, policy) && Stocked(s.db[c])
  {
    FreshBalanced(fp, s.db[c]);
    assert Origin(s.db[c]) == s.db[c];
    hide Balanced, Accounted, HasOrder, Lookup;
    BalancedParts(fp, s.db[c]);
    SumZero(MadeOne, s.clients);
    SumZero(MadeQuantity, s.clients);
    ReadyIsolated(fp, s, c, policy);
    hide Isolated, Buyers;
    forall cl | cl in s.clients ensures Phased(cl) && Unused(s.db, c, policy, cl) {}
  }

  lemma {:induction false} ReadyIsolated(fp: Digest, s: System, c: string, policy: Policy)
    requires Buyers(s.clients, c, policy) && !policy.SplitCommit? && forall cl :: cl in s.clients ==> cl.phase.Idle?
    ensures Isolated(fp, s)
  {
  }

  lemma BalancedParts(fp: Digest, b: Books)
    requires Balanced(fp, b)
    ensures Accounted(b) && Stocked(b) && Distinct(OrderKey, b.orders)
  {
  }

  lemma {:induction false} SaleStock(fp: Digest, s: System, c: string, policy: Policy, i: nat, tx: Tx)
    requires Race(fp, s, c, policy) && i < |s.clients| && s.clients[i].phase == InTx(tx) && tx.stage.AtCommit?
    ensures var base := if policy.StaleStock? then tx.seen else s.db[c].inv.available;
      tx.w.available == Some(base - Wanted(s.clients[i])) && base >= Wanted(s.clients[i])
  {
    hide Accounted, Unused, Tallied, ClaimPart, BuyerPart, MerchantPart, OrderPart, TailPart, LocksDisjoint, Phased;
    var cl := s.clients[i];
    assert ClientInv(fp, s.db, cl) && TxInv(fp, s.db, cl.call, 0, tx) && Buyer(cl.call, c, policy);
    assert StockPart(s.db, cl.call, tx) && Head(cl.call, 0, tx);
    hide TxInv, Isolated, ClientInv, Accounted, Unused, Tallied, Race, Buyers;
  }

  // ---- the conditional decrement ----

  ghost predicate Fair(s: System, c: string, stock: int) {
    && c in s.db && Stocked(s.db[c]) && s.db[c].inv.initialQty == stock
    && (forall cl :: cl in s.clients ==> Wanted(cl) == 1 && (SoldOut(cl) ==> s.db[c].inv.available == 0))
  }

  ghost predicate FairRace(fp: Digest, s: System, c: string, stock: int) {
    Race(fp, s, c, Protected) && Fair(s, c, stock)
  }

  lemma {:induction false} FairMove(s: System, c: string, stock: int, i: nat, p: Phase)
    requires Fair(s, c, stock) && i < |s.clients| && (p == Done(Rejected("sold_out")) ==> s.db[c].inv.available == 0)
    ensures Fair(SetPhase(s, i, p), c, stock)
  {
    hide Stocked;
    var s' := SetPhase(s, i, p);
    forall cl | cl in s'.clients ensures Wanted(cl) == 1 && (SoldOut(cl) ==> s'.db[c].inv.available == 0) {
      var j :| 0 <= j < |s'.clients| && s'.clients[j] == cl;
      assert s.clients[j] in s.clients;
    }
  }

  lemma {:induction false} FairSale(fp: Digest, s: System, c: string, stock: int, i: nat, tx: Tx)
    requires FairRace(fp, s, c, stock) && i < |s.clients| && s.clients[i].phase == InTx(tx) && tx.stage.AtCommit?
    ensures Fair(SetPhase(s.(db := Install(s.db, tx)), i, Done(Created(tx.order))), c, stock)
  {
    hide Race, Install, Isolated;
    Sale(fp, s, c, Protected, i, tx);
    SaleStock(fp, s, c, Protected, i, tx);
    SumAppend(PaidQuantity, s.db[c].orders, tx.order);
    assert s.clients[i] in s.clients;
    var s' := SetPhase(s.(db := Install(s.db, tx)), i, Done(Created(tx.order)));
    forall cl | cl in s'.clients ensures Wanted(cl) == 1 && !SoldOut(cl) {
      var j :| 0 <= j < |s'.clients| && s'.clients[j] == cl;
      assert s.clients[j] in s.clients;
    }
  }

  lemma {:induction false} FairTurn(fp: Digest, s: System, c: string, stock: int, i: nat, s': System, turn: Turn)
    requires FairRace(fp, s, c, stock) && i < |s.clients| && Taken(s, i, c, Protected, s', turn)
    ensures Fair(s', c, stock)
  {
    hide Race, Install, GoesTo, Isolated;
    assert s.clients[i] in s.clients;
    match turn
    case Stays =>
    case Goes(next) => FairMove(s, c, stock, i, InTx(next));
    case Refused => FairMove(s, c, stock, i, Done(Rejected("sold_out")));
    case Sells(tx) => FairSale(fp, s, c, stock, i, tx);
  }

  lemma {:induction false} FairStep(fp: Digest, s: System, c: string, stock: int, i: nat)
    requires FairRace(fp, s, c, stock)
    ensures FairRace(fp, Step(fp, s, Advance(i)), c, stock)
  {
    if i < |s.clients| {
      hide Race, Fair, Isolated, AdvanceClient, Taken;
      StepAdvances(fp, s, i);
      RaceStep(fp, s, c, Protected, i);
      var turn := BuyerTurn(fp, s, c, Protected, i);
      FairTurn(fp, s, c, stock, i, AdvanceClient(fp, s, i), turn);
    }
  }

  lemma {:induction false} RaceStep(fp: Digest, s: System, c: string, policy: Policy, i: nat)
    requires Race(fp, s, c, policy) && i < |s.clients|
    ensures Race(fp, AdvanceClient(fp, s, i), c, policy)
  {
    AdvanceIsolated(fp, s, i);
    var turn := BuyerTurn(fp, s, c, policy, i);
    TurnKeepsRace(fp, s, c, policy, i, AdvanceClient(fp, s, i), turn);
  }

  lemma StepAdvances(fp: Digest, s: System, i: nat)
    requires i < |s.clients|
    ensures Step(fp, s, Advance(i)) == AdvanceClient(fp, s, i)
  {
  }

  lemma {:induction false} FairRun(fp: Digest, s: System, c: string, stock: int, actions: seq<Action>)
    requires FairRace(fp, s, c, stock) && Schedule(actions)
    ensures FairRace(fp, Run(fp, s, actions), c, stock)
    decreases |actions|
  {
    if actions != [] {
      assert actions[0] in actions;
      FairStep(fp, s, c, stock, actions[0].i);
      hide FairRace, Step;
      FairRun(fp, Step(fp, s, actions[0]), c, stock, actions[1..]);
    }
  }

  lemma {:induction false} Split(cs: seq<Client>)
    requires forall cl :: cl in cs ==> Made(cl) || SoldOut(cl)
    ensures Sum(MadeOne, cs) + Sum(SoldOutOne, cs) == |cs| && Sum(SoldOutOne, cs) >= 0
    ensures (forall cl :: cl in cs ==> !SoldOut(cl)) <==> Sum(SoldOutOne, cs) == 0
  {
    if cs != [] {
      Split(cs[1..]);
      assert forall cl :: cl in cs <==> cl == cs[0] || cl in cs[1..];
    }
  }

  function Min(a: int, b: int): int { if a < b then a else b }

  lemma {:induction false} UnitQuantities(cs: seq<Client>)
    requires forall cl :: cl in cs ==> Wanted(cl) == 1
    ensures Sum(MadeQuantity, cs) == Sum(MadeOne, cs)
  {
    SumAgree(MadeQuantity, MadeOne, cs);
  }

  /**
   * Stock S and N funded buyers of one unit, in any order of statements: exactly min(S, N) orders are
   * created, everyone else is told sold out, and that is what the tables hold.
   */
  lemma {:induction false} ProtectedRaceSellsExactly(fp: Digest, s: System, c: string, stock: int, balance: int, price: int, actions: seq<Action>)
    requires Ready(s, c, Protected, stock, balance, price) && Schedule(actions)
    requires forall cl :: cl in s.clients ==> Wanted(cl) == 1
    requires forall cl :: cl in Run(fp, s, actions).clients ==> cl.phase.Done?
    ensures var e := Run(fp, s, actions);
      c in e.db && Sum(MadeOne, e.clients) == Min(stock, |e.clients|)
      && Sum(SoldOutOne, e.clients) == |e.clients| - Min(stock, |e.clients|) && |e.db[c].orders| == Min(stock, |e.clients|)
      && e.db[c].inv.available == stock - Min(stock, |e.clients|)
  {
    ReadyRace(fp, s, c, Protected, stock, balance, price);
    FairRun(fp, s, c, stock, actions);
    hide Run, Ready;
    FairEnd(fp, Run(fp, s, actions), c, stock);
  }

  lemma {:induction false} FairEnd(fp: Digest, e: System, c: string, stock: int)
    requires FairRace(fp, e, c, stock) && forall cl :: cl in e.clients ==> cl.phase.Done?
    ensures Sum(MadeOne, e.clients) == Min(stock, |e.clients|) == |e.db[c].orders|
    ensures Sum(SoldOutOne, e.clients) == |e.clients| - Min(stock, |e.clients|)
    ensures e.db[c].inv.available == stock - Min(stock, |e.clients|)
  {
    hide Isolated, Buyers, Accounted, Unused;
    forall cl | cl in e.clients ensures Made(cl) || SoldOut(cl) { assert Phased(cl); }
    Split(e.clients);
    UnitQuantities(e.clients);
  }

  // ---- the stale read ----

  ghost predicate Untouched(s: System, c: string, stock: int)
    requires c in s.db
  {
    && s.db[c].inv.available == stock
    && forall cl :: cl in s.clients ==> !Made(cl) && (cl.phase.InTx? ==> Rank(cl.phase.tx.stage) <= 2)
  }

  /** The stock column holds what the last committed buyer computed from the initial stock. */
  ghost predicate LastWriter(s: System, c: string, stock: int)
    requires c in s.db
  {
    || (s.db[c].inv.available == stock && forall cl :: cl in s.clients ==> !Made(cl))
    || exists cl :: cl in s.clients && Made(cl) && s.db[c].inv.available == stock - Wanted(cl)
  }

  predicate Read(cl: Client, stock: int) {
    && Wanted(cl) <= stock && !SoldOut(cl)
    && (cl.phase.InTx? && Rank(cl.phase.tx.stage) > 1 ==> cl.phase.tx.seen == stock)
  }

  ghost predicate Stale(s: System, c: string, stock: int) {
    && c in s.db && s.barrier && s.db[c].requests == [] && s.db[c].inv.initialQty == stock
    && (forall cl :: cl in s.clients ==> Read(cl, stock))
    && (AllRead(s) || Untouched(s, c, stock))
    && LastWriter(s, c, stock)
  }

  ghost predicate StaleRace(fp: Digest, s: System, c: string, stock: int) {
    Race(fp, s, c, StaleStock) && Stale(s, c, stock)
  }

  lemma {:induction false} StaleGoes(s: System, c: string, stock: int, i: nat, next: Tx)
    requires Stale(s, c, stock) && i < |s.clients| && !Made(s.clients[i]) && GoesTo(s, i, c, StaleStock, next)
    ensures Stale(SetPhase(s, i, InTx(next)), c, stock)
  {
    var s' := SetPhase(s, i, InTx(next));
    assert s.clients[i] in s.clients && Read(s.clients[i], stock);
    forall cl | cl in s'.clients ensures Read(cl, stock) {
      var j :| 0 <= j < |s'.clients| && s'.clients[j] == cl;
      assert s.clients[j] in s.clients;
      if j == i && Rank(next.stage) == 2 { assert Waiting(s.clients[i]) && !AllRead(s); }
    }
    if AllRead(s) {
      assert AllRead(s');
    } else {
      forall cl | cl in s'.clients ensures !Made(cl) && (cl.phase.InTx? ==> Rank(cl.phase.tx.stage) <= 2) {
        var j :| 0 <= j < |s'.clients| && s'.clients[j] == cl;
        assert s.clients[j] in s.clients;
      }
      assert Untouched(s', c, stock);
    }
    LastWriterKept(s, c, stock, i, InTx(next));
  }

  lemma {:induction false} LastWriterKept(s: System, c: string, stock: int, i: nat, p: Phase)
    requires c in s.db && LastWriter(s, c, stock) && i < |s.clients| && !Made(s.clients[i]) && p.InTx?
    ensures LastWriter(SetPhase(s, i, p), c, stock)
  {
    var s' := SetPhase(s, i, p);
    if s.db[c].inv.available == stock && forall cl :: cl in s.clients ==> !Made(cl) {
      forall cl | cl in s'.clients ensures !Made(cl) {
        var j :| 0 <= j < |s'.clients| && s'.clients[j] == cl;
        assert s.clients[j] in s.clients;
      }
    } else {
      var cl :| cl in s.clients && Made(cl) && s.db[c].inv.available == stock - Wanted(cl);
      var j :| 0 <= j < |s.clients| && s.clients[j] == cl;
      assert s'.clients[j] == cl;
    }
  }

  lemma {:induction false} StaleSells(fp: Digest, s: System, c: string, stock: int, i: nat, tx: Tx)
    requires StaleRace(fp, s, c, stock) && i < |s.clients| && s.clients[i].phase == InTx(tx) && tx.stage.AtCommit?
    ensures Stale(SetPhase(s.(db := Install(s.db, tx)), i, Done(Created(tx.order))), c, stock)
  {
    hide Race, Install, Isolated;
    Sale(fp, s, c, StaleStock, i, tx);
    SaleStock(fp, s, c, StaleStock, i, tx);
    var s' := SetPhase(s.(db := Install(s.db, tx)), i, Done(Created(tx.order)));
    assert s.clients[i] in s.clients && Read(s.clients[i], stock);
    assert s'.clients[i] in s'.clients && Made(s'.clients[i]);
    assert AllRead(s);
    forall cl | cl in s'.clients ensures Read(cl, stock) {
      var j :| 0 <= j < |s'.clients| && s'.clients[j] == cl;
      assert s.clients[j] in s.clients;
    }
    assert s'.db[c].inv.available == stock - Wanted(s'.clients[i]);
  }

  lemma {:induction false} StaleTurn(fp: Digest, s: System, c: string, stock: int, i: nat, s': System, turn: Turn)
    requires StaleRace(fp, s, c, stock) && i < |s.clients| && Taken(s, i, c, StaleStock, s', turn)
    ensures Stale(s', c, stock)
  {
    assert s.clients[i] in s.clients && Read(s.clients[i], stock);
    hide Race, Stale, GoesTo, Install;
    match turn
    case Stays =>
    case Goes(next) => StaleGoes(s, c, stock, i, next);
    case Refused =>
    case Sells(tx) => StaleSells(fp, s, c, stock, i, tx);
  }

  lemma {:induction false} StaleStep(fp: Digest, s: System, c: string, stock: int, i: nat)
    requires StaleRace(fp, s, c, stock)
    ensures StaleRace(fp, Step(fp, s, Advance(i)), c, stock)
  {
    if i < |s.clients| {
      hide Race, Stale, Isolated, AdvanceClient, Taken;
      StepAdvances(fp, s, i);
      RaceStep(fp, s, c, StaleStock, i);
      var turn := BuyerTurn(fp, s, c, StaleStock, i);
      StaleTurn(fp, s, c, stock, i, AdvanceClient(fp, s, i), turn);
    }
  }

  lemma {:induction false} StaleRun(fp: Digest, s: System, c: string, stock: int, actions: seq<Action>)
    requires StaleRace(fp, s, c, stock) && Schedule(actions)
    ensures StaleRace(fp, Run(fp, s, actions), c, stock)
    decreases |actions|
  {
    if actions != [] {
      assert actions[0] in actions;
      StaleStep(fp, s, c, stock, actions[0].i);
      hide StaleRace, Step;
      StaleRun(fp, Step(fp, s, actions[0]), c, stock, actions[1..]);
    }
  }

  lemma {:induction false} AllMade(cs: seq<Client>, one: Client)
    requires forall cl :: cl in cs ==> Made(cl) && Wanted(cl) >= 1
    ensures Sum(MadeOne, cs) == |cs| && Sum(MadeQuantity, cs) >= |cs|
    ensures one in cs ==> Sum(MadeQuantity, cs) >= Wanted(one) + |cs| - 1
  {
    if cs != [] {
      AllMade(cs[1..], one);
      assert cs[0] in cs && forall cl :: cl in cs <==> cl == cs[0] || cl in cs[1..];
    }
  }

  lemma {:induction false} StaleEnd(fp: Digest, e: System, c: string, stock: int)
    requires StaleRace(fp, e, c, stock) && |e.clients| >= 2 && forall cl :: cl in e.clients ==> cl.phase.Done?
    ensures forall cl :: cl in e.clients ==> Made(cl)
    ensures var b := e.db[c];
      && |b.orders| == |e.clients| && 0 <= b.inv.available <= stock
      && b.inv.available + Sum(PaidQuantity, b.orders) > b.inv.initialQty
  {
    hide Isolated, Accounted, Unused;
    forall i | 0 <= i < |e.clients| ensures Made(e.clients[i]) && Wanted(e.clients[i]) >= 1 {
      assert Phased(e.clients[i]) && e.clients[i] in e.clients && Buyer(e.clients[i].call, c, StaleStock);
    }
    assert e.clients[0] in e.clients;
    var cl :| cl in e.clients && e.db[c].inv.available == stock - Wanted(cl);
    AllMade(e.clients, cl);
  }

  lemma {:induction false} NoClaimsNoFault(b: Books, v: Violation)
    requires b.requests == [] && IsClaimCheck(v.check)
    ensures !TableFault(Rows(b), v.check)
  {
    assert !ClaimFault([], Orders(Rows(b)), v.check);
  }

  lemma {:induction false} StockCheckOnly(b: Books, check: Check)
    requires Orders(Rows(b)) == b.orders && Distinct(OrderKey, b.orders) && 0 <= b.inv.available <= b.inv.initialQty
    requires IsOpenCheck(check) && !IsClaimCheck(check)
    ensures TableFault(Rows(b), check) ==> check.StockConservation?
    ensures b.inv.available + Sum(PaidQuantity, b.orders) != b.inv.initialQty ==> TableFault(Rows(b), StockConservation)
  {
    hide Orders;
  }

  lemma TableBreaks(fp: Digest, s: Snapshot, check: Check)
    requires Shaped(s) && TableFault(s, check)
    ensures Broken(fp, s, false, Violation(check, ""))
  {
    hide TableFault;
  }

  /** An oversold but otherwise accounted case without claims: the audit names stock conservation and nothing else. */
  lemma {:induction false} OnlyStockConservation(fp: Digest, b: Books, v: Violation)
    requires Accounted(b) && Distinct(OrderKey, b.orders) && b.requests == [] && 0 <= b.inv.available <= b.inv.initialQty
    requires b.inv.available + Sum(PaidQuantity, b.orders) != b.inv.initialQty
    ensures Broken(fp, Rows(b), false, v) <==> v == Violation(StockConservation, "")
  {
    assert IsOpenCheck(StockConservation) && !IsClaimCheck(StockConservation);
    hide *;
    AccountedRows(b);
    StockCheckOnly(b, StockConservation);
    TableBreaks(fp, Rows(b), StockConservation);
    if Broken(fp, Rows(b), false, v) {
      AccountedBroken(fp, b, false, v);
      if IsClaimCheck(v.check) { NoClaimsNoFault(b, v); } else { StockCheckOnly(b, v.check); }
    }
  }

  lemma {:induction false} AccountedShape(b: Books)
    requires Accounted(b) && b.requests == []
    ensures Malformed(Rows(b), false) ==> Oversize(Rows(b))
  {
    AccountedRows(b);
    forall o | o in b.orders ensures o.caseId == b.inv.caseId { assert GoodOrder(b, o); }
  }

  /**
   * The negative control, for every number of clients from two up: when all read before anyone writes, every
   * buyer is served however little stock there was, and the audit without claims names stock conservation
   * and nothing else.
   */
  lemma {:induction false} StaleStockOversells(fp: Digest, s: System, c: string, stock: int, balance: int, price: int, actions: seq<Action>)
    requires Ready(s, c, StaleStock, stock, balance, price) && s.barrier && |s.clients| >= 2 && Schedule(actions)
    requires forall cl :: cl in s.clients ==> Wanted(cl) <= stock
    requires forall cl :: cl in Run(fp, s, actions).clients ==> cl.phase.Done?
    ensures var e := Run(fp, s, actions);
      && (forall cl :: cl in e.clients ==> Made(cl)) && |e.clients| == |s.clients|
      && c in e.db && |e.db[c].orders| == |e.clients|
      && (Malformed(Rows(e.db[c]), false) ==> Oversize(Rows(e.db[c])))
      && forall v :: Broken(fp, Rows(e.db[c]), false, v) <==> v == Violation(StockConservation, "")
  {
    ReadyRace(fp, s, c, StaleStock, stock, balance, price);
    ReadyStale(s, c, stock, balance, price);
    hide Ready, Stale, Race;
    StaleRun(fp, s, c, stock, actions);
    RunKeepsClients(fp, s, actions);
    hide Run, Accounted;
    var e := Run(fp, s, actions);
    StaleEnd(fp, e, c, stock);
    RaceBooks(fp, e, c, stock);
    AccountedShape(e.db[c]);
    forall v ensures Broken(fp, Rows(e.db[c]), false, v) <==> v == Violation(StockConservation, "") {
      OnlyStockConservation(fp, e.db[c], v);
    }
  }

  lemma {:induction false} ReadyStale(s: System, c: string, stock: int, balance: int, price: int)
    requires Ready(s, c, StaleStock, stock, balance, price) && s.barrier
    requires forall cl :: cl in s.clients ==> Wanted(cl) <= stock
    ensures Stale(s, c, stock)
  {
    hide Buyers, HasOrder;
  }

  lemma RaceBooks(fp: Digest, e: System, c: string, stock: int)
    requires StaleRace(fp, e, c, stock)
    ensures var b := e.db[c]; Accounted(b) && Distinct(OrderKey, b.orders) && b.requests == [] && b.inv.initialQty == stock
  {
  }

  lemma {:induction false} StepKeepsClients(fp: Digest, s: System, a: Action)
    ensures |Step(fp, s, a).clients| == |s.clients|
  {
    hide Exec, LookupClaim, LookupOrder, Install, Target, Free, BarrierClosed, Begin;
  }

  lemma {:induction false} RunKeepsClients(fp: Digest, s: System, actions: seq<Action>)
    ensures |Run(fp, s, actions).clients| == |s.clients|
    decreases |actions|
  {
    if actions != [] {
      StepKeepsClients(fp, s, actions[0]);
      hide Step;
      RunKeepsClients(fp, Step(fp, s, actions[0]), actions[1..]);
    }
  }

  // ---- the missing claim ----

  function Unserved(cl: Client): int { if Made(cl) then 0 else Wanted(cl) }

  /** Enough stock for everyone, and everyone uses the same key. */
  ghost predicate Doubled(s: System, c: string, key: string) {
    && c in s.db && s.db[c].requests == [] && Stocked(s.db[c])
    && Sum(Unserved, s.clients) <= s.db[c].inv.available
    && (forall o :: o in s.db[c].orders ==> o.key == key)
    && (forall cl :: cl in s.clients ==> Key(cl) == key && !SoldOut(cl))
  }

  lemma {:induction false} Served(s: System, c: string, key: string, i: nat)
    requires Doubled(s, c, key) && i < |s.clients| && !Made(s.clients[i])
    ensures Wanted(s.clients[i]) <= s.db[c].inv.available
  {
    forall cl | cl in s.clients ensures Unserved(cl) >= 0 {}
    SumNonNegative(Unserved, s.clients);
    assert Unserved(s.clients[i]) <= Sum(Unserved, s.clients);
  }

  lemma {:induction false} DoubledMove(s: System, c: string, key: string, i: nat, next: Tx)
    requires Doubled(s, c, key) && i < |s.clients| && !Made(s.clients[i])
    ensures Doubled(SetPhase(s, i, InTx(next)), c, key)
  {
    var s' := SetPhase(s, i, InTx(next));
    SumUpdate(Unserved, s.clients, i, s'.clients[i]);
    hide Stocked, Sum;
    forall cl | cl in s'.clients ensures Key(cl) == key && !SoldOut(cl) {
      var j :| 0 <= j < |s'.clients| && s'.clients[j] == cl;
      assert s.clients[j] in s.clients;
    }
  }

  lemma {:induction false} DoubledSale(fp: Digest, s: System, c: string, key: string, i: nat, tx: Tx)
    requires Race(fp, s, c, NoClaim) && Doubled(s, c, key)
    requires i < |s.clients| && s.clients[i].phase == InTx(tx) && tx.stage.AtCommit?
    ensures Doubled(SetPhase(s.(db := Install(s.db, tx)), i, Done(Created(tx.order))), c, key)
  {
    assert c in s.db && Buyer(s.clients[i].call, c, NoClaim);
    hide Race, Install, Isolated, Doubled, Stocked, Sell;
    Sale(fp, s, c, NoClaim, i, tx);
    SaleStock(fp, s, c, NoClaim, i, tx);
    DoubledSold(s, c, key, i, tx.order, s.db[c].inv.available - Wanted(s.clients[i]), Install(s.db, tx));
  }

  lemma {:induction false} DoubledSold(s: System, c: string, key: string, i: nat, o: Order, available: int, db: Db)
    requires Doubled(s, c, key) && i < |s.clients| && !Made(s.clients[i])
    requires s.clients[i].call.Checkout? && o == OrderFor(s.db[c], s.clients[i].call.req, Oid(s.clients[i]))
    requires available == s.db[c].inv.available - Wanted(s.clients[i]) && available >= 0
    requires c in db && db[c] == Sell(s.db[c], o, available, [])
    ensures Doubled(SetPhase(s.(db := db), i, Done(Created(o))), c, key)
  {
    var s' := SetPhase(s.(db := db), i, Done(Created(o)));
    assert s.clients[i] in s.clients;
    SoldStock(s.db[c], o, available);
    SoldRows(s.db[c], o, available);
    SumUpdate(Unserved, s.clients, i, s'.clients[i]);
    hide Stocked, Sum, Sell;
    forall cl | cl in s'.clients ensures Key(cl) == key && !SoldOut(cl) {
      var j :| 0 <= j < |s'.clients| && s'.clients[j] == cl;
      assert s.clients[j] in s.clients;
    }
  }

  lemma SoldStock(b: Books, o: Order, available: int)
    requires Stocked(b) && available == b.inv.available - o.quantity && available >= 0 && o.state == PAID
    ensures Stocked(Sell(b, o, available, [])) && Sell(b, o, available, []).inv.available == available
  {
    SumAppend(PaidQuantity, b.orders, o);
  }

  lemma SoldRows(b: Books, o: Order, available: int)
    ensures Sell(b, o, available, []).orders == b.orders + [o] && Sell(b, o, available, []).requests == b.requests
  {
    assert b.requests + [] == b.requests;
  }

  lemma {:induction false} DoubledStep(fp: Digest, s: System, c: string, key: string, i: nat)
    requires Race(fp, s, c, NoClaim) && Doubled(s, c, key)
    ensures Race(fp, Step(fp, s, Advance(i)), c, NoClaim) && Doubled(Step(fp, s, Advance(i)), c, key)
  {
    if i < |s.clients| {
      hide Race, Doubled, Isolated, AdvanceClient, GoesTo, Install;
      StepAdvances(fp, s, i);
      RaceStep(fp, s, c, NoClaim, i);
      var turn := BuyerTurn(fp, s, c, NoClaim, i);
      match turn
      case Stays =>
      case Goes(next) => DoubledMove(s, c, key, i, next);
      case Refused => Served(s, c, key, i);
      case Sells(tx) => DoubledSale(fp, s, c, key, i, tx);
    }
  }

  lemma {:induction false} DoubledRun(fp: Digest, s: System, c: string, key: string, actions: seq<Action>)
    requires Race(fp, s, c, NoClaim) && Doubled(s, c, key) && Schedule(actions)
    ensures Race(fp, Run(fp, s, actions), c, NoClaim) && Doubled(Run(fp, s, actions), c, key)
    decreases |actions|
  {
    if actions != [] {
      assert actions[0] in actions;
      DoubledStep(fp, s, c, key, actions[0].i);
      hide Race, Doubled, Step;
      DoubledRun(fp, Step(fp, s, actions[0]), c, key, actions[1..]);
    }
  }

  lemma {:induction false} OnlyDuplicates(fp: Digest, b: Books, v: Violation)
    requires Accounted(b) && Stocked(b) && b.requests == [] && |b.orders| >= 2 && forall o, p :: o in b.orders && p in b.orders ==> o.key == p.key
    ensures Broken(fp, Rows(b), false, v) <==> v == Violation(OneOrderPerRequest, "")
  {
    assert b.orders[0] in b.orders && b.orders[1] in b.orders && b.orders[0].key == b.orders[1].key;
    assert IsOpenCheck(OneOrderPerRequest) && !IsClaimCheck(OneOrderPerRequest);
    hide *;
    AccountedRows(b);
    StockedBounds(b);
    DuplicateCheckOnly(fp, b, OneOrderPerRequest);
    if Broken(fp, Rows(b), false, v) {
      AccountedBroken(fp, b, false, v);
      if IsClaimCheck(v.check) { NoClaimsNoFault(b, v); } else { DuplicateCheckOnly(fp, b, v.check); }
    }
  }

  lemma StockedBounds(b: Books)
    requires Accounted(b) && Stocked(b)
    ensures 0 <= b.inv.available <= b.inv.initialQty && b.inv.available + Sum(PaidQuantity, b.orders) == b.inv.initialQty
  {
    OrderTotals(b);
  }

  lemma {:induction false} DuplicateCheckOnly(fp: Digest, b: Books, check: Check)
    requires Orders(Rows(b)) == b.orders && 0 <= b.inv.available <= b.inv.initialQty && |b.orders| >= 2
    requires b.inv.available + Sum(PaidQuantity, b.orders) == b.inv.initialQty
    requires IsOpenCheck(check) && !IsClaimCheck(check)
    ensures TableFault(Rows(b), check) ==> check.OneOrderPerRequest?
    ensures b.orders[0].key == b.orders[1].key ==> Broken(fp, Rows(b), false, Violation(OneOrderPerRequest, ""))
  {
    hide Orders, OrderBroken, WalletBroken;
    if b.orders[0].key == b.orders[1].key {
      assert OrderKey(b.orders[0]) == OrderKey(b.orders[1]);
      assert StockFault(Rows(b), OneOrderPerRequest);
    }
  }

  /**
   * The duplicate control, for every number of clients from two up: without the claim every repetition of one
   * request buys again, and the audit names the duplicate request key and nothing else.
   */
  lemma {:induction false} WithoutClaimEveryRetryBuys(fp: Digest, s: System, c: string, key: string, stock: int, balance: int, price: int, actions: seq<Action>)
    requires Ready(s, c, NoClaim, stock, balance, price) && |s.clients| >= 2 && Schedule(actions)
    requires Sum(Wanted, s.clients) <= stock && forall cl :: cl in s.clients ==> Key(cl) == key
    requires forall cl :: cl in Run(fp, s, actions).clients ==> cl.phase.Done?
    ensures var e := Run(fp, s, actions);
      && (forall cl :: cl in e.clients ==> Made(cl)) && |e.clients| == |s.clients|
      && c in e.db && |e.db[c].orders| == |e.clients|
      && (Malformed(Rows(e.db[c]), false) ==> Oversize(Rows(e.db[c])))
      && forall v :: Broken(fp, Rows(e.db[c]), false, v) <==> v == Violation(OneOrderPerRequest, "")
  {
    ReadyRace(fp, s, c, NoClaim, stock, balance, price);
    ReadyDoubled(s, c, key, stock, balance, price);
    hide *;
    DoubledRun(fp, s, c, key, actions);
    RunKeepsClients(fp, s, actions);
    DoubledEnd(fp, Run(fp, s, actions), c, key);
  }

  lemma {:induction false} ReadyDoubled(s: System, c: string, key: string, stock: int, balance: int, price: int)
    requires Ready(s, c, NoClaim, stock, balance, price)
    requires Sum(Wanted, s.clients) <= stock && forall cl :: cl in s.clients ==> Key(cl) == key
    ensures Doubled(s, c, key)
  {
    SumAgree(Unserved, Wanted, s.clients);
    hide Buyers, HasOrder;
  }

  lemma {:induction false} DoubledEnd(fp: Digest, e: System, c: string, key: string)
    requires Race(fp, e, c, NoClaim) && Doubled(e, c, key) && |e.clients| >= 2 && forall cl :: cl in e.clients ==> cl.phase.Done?
    ensures forall cl :: cl in e.clients ==> Made(cl)
    ensures |e.db[c].orders| == |e.clients| && (Malformed(Rows(e.db[c]), false) ==> Oversize(Rows(e.db[c])))
    ensures forall v :: Broken(fp, Rows(e.db[c]), false, v) <==> v == Violation(OneOrderPerRequest, "")
  {
    hide Isolated, Accounted, Unused, Stocked, Broken, Malformed, Oversize;
    forall i | 0 <= i < |e.clients| ensures Made(e.clients[i]) && Wanted(e.clients[i]) >= 1 {
      assert Phased(e.clients[i]) && e.clients[i] in e.clients && Buyer(e.clients[i].call, c, NoClaim);
    }
    AllMade(e.clients, e.clients[0]);
    AccountedShape(e.db[c]);
    forall v ensures Broken(fp, Rows(e.db[c]), false, v) <==> v == Violation(OneOrderPerRequest, "") {
      OnlyDuplicates(fp, e.db[c], v);
    }
  }

  // ---- no schedule gets stuck ----

  function Left(cl: Client): int {
    match cl.phase
    case Idle => 11
    case InTx(tx) => 10 - Rank(tx.stage)
    case _ => 0
  }

  function Level(cl: Client): int { if cl.phase.InTx? then Rank(cl.phase.tx.stage) else -1 }

  /** A row is locked only by a client further along than the stage that asks for it. */
  lemma {:induction false} HeldFurther(fp: Digest, s: System, c: string, policy: Policy, i: nat, j: nat)
    requires Race(fp, s, c, policy) && i < |s.clients| && j < |s.clients| && i != j && s.clients[i].phase.InTx?
    requires Target(s.clients[i].call, s.clients[i].phase.tx).Some?
    requires Target(s.clients[i].call, s.clients[i].phase.tx).value in Held(s.clients[j])
    ensures Level(s.clients[j]) > Level(s.clients[i])
  {
    var ci, cj := s.clients[i], s.clients[j];
    assert ClientInv(fp, s.db, ci) && ClientInv(fp, s.db, cj) && Phased(cj);
    assert Buyer(ci.call, c, policy) && Buyer(cj.call, c, policy) && ci.attempt == 0 && cj.attempt == 0;
    Apart(s.clients, c, policy, i, j);
    hide Race, Buyers, Isolated, Tallied, Accounted, Unused, HasOrder, HasClaim, OrderIn;
    HeldRank(fp, s.db, ci, cj, c, policy);
  }

  lemma {:induction false} HeldRank(fp: Digest, db: Db, ci: Client, cj: Client, c: string, policy: Policy)
    requires Buyer(ci.call, c, policy) && Buyer(cj.call, c, policy) && ci.attempt == 0 && cj.attempt == 0 && Phased(cj)
    requires ClientInv(fp, db, ci) && ClientInv(fp, db, cj) && ci.phase.InTx?
    requires (policy.NoClaim? || Key(ci) != Key(cj)) && Oid(ci) != Oid(cj)
    requires Target(ci.call, ci.phase.tx).Some? && Target(ci.call, ci.phase.tx).value in Held(cj)
    ensures Level(cj) > Level(ci)
  {
    assert cj.phase.InTx?;
    assert TxInv(fp, db, ci.call, 0, ci.phase.tx) && TxInv(fp, db, cj.call, 0, cj.phase.tx);
    assert Head(ci.call, 0, ci.phase.tx) && Head(cj.call, 0, cj.phase.tx);
    hide HasOrder, HasClaim, OrderIn;
  }

  lemma {:induction false} Furthest(cs: seq<Client>) returns (i: nat)
    requires cs != []
    ensures i < |cs| && forall j :: 0 <= j < |cs| ==> Level(cs[j]) <= Level(cs[i])
  {
    i := 0;
    for n := 1 to |cs|
      invariant i < |cs| && forall j :: 0 <= j < n ==> Level(cs[j]) <= Level(cs[i])
    {
      if Level(cs[n]) > Level(cs[i]) { i := n; }
    }
  }

  /** The furthest client waits for nobody once everyone has read. */
  lemma {:induction false} FurthestFree(fp: Digest, s: System, c: string, policy: Policy, i: nat)
    requires Race(fp, s, c, policy) && i < |s.clients| && s.clients[i].phase.InTx? && AllRead(s)
    requires forall j :: 0 <= j < |s.clients| ==> Level(s.clients[j]) <= Level(s.clients[i])
    ensures !Blocked(s, i, s.clients[i].phase.tx)
  {
    hide Race, Held, Target, Level;
    var row := Target(s.clients[i].call, s.clients[i].phase.tx);
    if row.Some? {
      forall j | 0 <= j < |s.clients| && j != i ensures row.value !in Held(s.clients[j]) {
        if row.value in Held(s.clients[j]) { HeldFurther(fp, s, c, policy, i, j); }
      }
    }
  }

  /** A client that has not read yet waits for nobody. */
  lemma {:induction false} WaitingFree(fp: Digest, s: System, c: string, policy: Policy, i: nat)
    requires Race(fp, s, c, policy) && i < |s.clients| && s.clients[i].phase.InTx? && Waiting(s.clients[i])
    ensures !Blocked(s, i, s.clients[i].phase.tx)
  {
    var cl := s.clients[i];
    assert ClientInv(fp, s.db, cl) && TxInv(fp, s.db, cl.call, 0, cl.phase.tx) && Buyer(cl.call, c, policy);
    assert Head(cl.call, 0, cl.phase.tx);
    hide Race, TxInv, Isolated, ClientInv, Held;
    var row := Target(cl.call, cl.phase.tx);
    if row.Some? {
      forall j | 0 <= j < |s.clients| && j != i ensures row.value !in Held(s.clients[j]) {
        ClaimHolder(fp, s, c, policy, i, j);
      }
    }
  }

  lemma {:induction false} ClaimHolder(fp: Digest, s: System, c: string, policy: Policy, i: nat, j: nat)
    requires Race(fp, s, c, policy) && i < |s.clients| && j < |s.clients| && i != j && !policy.NoClaim?
    ensures RequestRow(c, Key(s.clients[i])) !in Held(s.clients[j])
  {
    hide HasOrder, HasClaim, OrderIn, Accounted, Tallied, Unused, OrderPart, Distinct, Lookup, Write, Exec;
    var cj := s.clients[j];
    assert ClientInv(fp, s.db, cj) && Buyer(cj.call, c, policy) && cj.attempt == 0;
    Apart(s.clients, c, policy, i, j);
    if TxOf(cj).Some? { assert Head(cj.call, 0, TxOf(cj).value); }
  }

  lemma {:induction false} TurnLeft(s: System, c: string, policy: Policy, i: nat, s': System, turn: Turn)
    requires i < |s.clients| && c in s.db && Taken(s, i, c, policy, s', turn) && !turn.Stays?
    ensures |s'.clients| == |s.clients| && Sum(Left, s'.clients) < Sum(Left, s.clients)
  {
    hide Install, Sum, AllRead;
    SumUpdate(Left, s.clients, i, s'.clients[i]);
  }

  /** Deadlock freedom: while anyone is unfinished, someone can take a step, and every step brings the end nearer. */
  lemma {:induction false} SomeoneMoves(fp: Digest, s: System, c: string, policy: Policy) returns (i: nat)
    requires Race(fp, s, c, policy) && exists cl :: cl in s.clients && !cl.phase.Done?
    ensures i < |s.clients| && Sum(Left, AdvanceClient(fp, s, i).clients) < Sum(Left, s.clients)
  {
    hide AdvanceClient, Taken, Blocked, Sum;
    if k :| 0 <= k < |s.clients| && Waiting(s.clients[k]) {
      i := k;
      if s.clients[i].phase.InTx? { WaitingFree(fp, s, c, policy, i); }
    } else {
      i := Furthest(s.clients);
      FurthestOpen(fp, s, c, policy, i);
      FurthestFree(fp, s, c, policy, i);
    }
    var turn := BuyerTurn(fp, s, c, policy, i);
    TurnLeft(s, c, policy, i, AdvanceClient(fp, s, i), turn);
  }

  lemma {:induction false} FurthestOpen(fp: Digest, s: System, c: string, policy: Policy, i: nat)
    requires Race(fp, s, c, policy) && AllRead(s) && exists cl :: cl in s.clients && !cl.phase.Done?
    requires i < |s.clients| && forall j :: 0 <= j < |s.clients| ==> Level(s.clients[j]) <= Level(s.clients[i])
    ensures s.clients[i].phase.InTx?
  {
    var cl :| cl in s.clients && !cl.phase.Done?;
    var j :| 0 <= j < |s.clients| && s.clients[j] == cl;
    assert Phased(s.clients[j]) && !Waiting(s.clients[j]);
    hide Isolated, Accounted, Tallied, Unused, Buyers;
  }

  lemma {:induction false} LeftNonNegative(cs: seq<Client>)
    ensures Sum(Left, cs) >= 0
  {
    SumNonNegative(Left, cs);
  }

  /** Every race can be brought to its end: the statements about finished runs are about runs that exist. */
  lemma {:induction false} RaceFinishes(fp: Digest, s: System, c: string, policy: Policy) returns (actions: seq<Action>)
    requires Race(fp, s, c, policy)
    ensures Schedule(actions) && forall cl :: cl in Run(fp, s, actions).clients ==> cl.phase.Done?
    decreases Sum(Left, s.clients)
  {
    actions := [];
    LeftNonNegative(s.clients);
    if exists cl :: cl in s.clients && !cl.phase.Done? {
      hide Race, Sum;
      var i := SomeoneMoves(fp, s, c, policy);
      RaceStep(fp, s, c, policy, i);
      StepAdvances(fp, s, i);
      hide Step, AdvanceClient;
      LeftNonNegative(AdvanceClient(fp, s, i).clients);
      var rest := RaceFinishes(fp, AdvanceClient(fp, s, i), c, policy);
      actions := [Advance(i)] + rest;
      assert actions[1..] == rest;
    }
  }
}
