/** Every interleaving of protected calls: serializable, audited, and at most one order per request key. */
module TxProtected {
  import opened Prelude
  import opened TxRows
  import opened TxAudit
  import opened TxLaws
  import opened TxSerial
  import opened TxSystem
  import opened TxIsolation

  predicate ProtectedCall(call: Call) {
    match call
    case Checkout(_, policy, _, _, _) => Protects(policy)
    case RefundCall(_, _, guarded) => guarded
  }

  ghost predicate UniqueIds(db: Db) {
    forall c, d, oid :: OrderIn(db, c, oid).Some? && OrderIn(db, d, oid).Some? ==> c == d
  }

  ghost predicate CasesOk(fp: Digest, db: Db) {
    forall c :: c in db ==> Balanced(fp, db[c]) && db[c].inv.caseId == c && OrdersFit(db[c])
  }

  ghost predicate Tables(fp: Digest, db: Db) { CasesOk(fp, db) && UniqueIds(db) }

  // ---- commits are serial operations ----

  /** An operation on one case of the database. */
  function ApplyAt(fp: Digest, db: Db, c: string, op: Op): Db {
    if c in db then db[c := Apply(fp, db[c], op)] else db
  }

  function SerialRun(fp: Digest, db: Db, history: seq<(string, Op)>): Db
    decreases |history|
  {
    if history == [] then db else SerialRun(fp, ApplyAt(fp, db, history[0].0, history[0].1), history[1..])
  }

  function OpOf(call: Call, tx: Tx): Op {
    match call
    case Checkout(req, _, _, _, _) => Buy(req, tx.order.id)
    case RefundCall(_, oid, _) => Refund(oid)
  }

  /** At commit a protected checkout knows everything CanBuy asks for. */
  lemma {:induction false} CheckoutCan(fp: Digest, db: Db, call: Call, attempt: nat, tx: Tx)
    requires TxInv(fp, db, call, attempt, tx) && tx.stage.AtCommit? && call.Checkout? && Protects(call.policy)
    requires tx.caseId in db && db[tx.caseId].inv.caseId == tx.caseId
    ensures CanBuy(db[tx.caseId], call.req, tx.order.id) && !HasOrder(db, tx.order.id)
  {
    var b := db[tx.caseId];
    assert OrderIn(db, tx.caseId, tx.order.id).None?;
    hide Lookup;
  }

  lemma {:induction false} CheckoutOrderIs(fp: Digest, db: Db, call: Call, attempt: nat, tx: Tx)
    requires TxInv(fp, db, call, attempt, tx) && tx.stage.AtCommit? && call.Checkout? && Protects(call.policy)
    requires tx.caseId in db
    ensures tx.caseId == call.req.caseId && tx.order == OrderFor(db[tx.caseId], call.req, tx.order.id)
    ensures tx.w.available == Some(db[tx.caseId].inv.available - call.req.quantity)
  {
    assert Head(call, attempt, tx) && OrderPart(db, call, tx) && StockPart(db, call, tx);
    hide HasOrder, OrderIn;
  }

  lemma {:induction false} CheckoutSerial(fp: Digest, db: Db, call: Call, attempt: nat, tx: Tx)
    requires Tables(fp, db) && TxInv(fp, db, call, attempt, tx) && tx.stage.AtCommit?
    requires call.Checkout? && Protects(call.policy) && CommitEffect(fp, db, Install(db, tx), call, tx)
    ensures CanBuy(db[tx.caseId], call.req, tx.order.id)
    ensures Install(db, tx) == ApplyAt(fp, db, tx.caseId, OpOf(call, tx))
    ensures !HasOrder(db, tx.order.id)
  {
    assert db[tx.caseId].inv.caseId == tx.caseId;
    hide Tables, TxInv, Install, CanBuy, HasOrder, Sell, OrderFor;
    CheckoutCan(fp, db, call, attempt, tx);
    CheckoutOrderIs(fp, db, call, attempt, tx);
  }

  lemma {:induction false} RefundSerial(fp: Digest, db: Db, call: Call, attempt: nat, tx: Tx)
    requires TxInv(fp, db, call, attempt, tx) && tx.stage.AtCommit?
    requires call.RefundCall? && call.guarded && CommitEffect(fp, db, Install(db, tx), call, tx)
    ensures Install(db, tx) == ApplyAt(fp, db, tx.caseId, OpOf(call, tx))
    ensures OrderIn(db, tx.caseId, tx.order.id).Some?
  {
  }

  /** Two-phase locking pays off: a protected commit is one serial operation on the current tables. */
  lemma {:induction false} CommitSerial(fp: Digest, s: System, i: nat, tx: Tx)
    requires Isolated(fp, s) && Tables(fp, s.db) && i < |s.clients| && ProtectedCall(s.clients[i].call)
    requires TxOf(s.clients[i]) == Some(tx) && tx.stage.AtCommit?
    ensures Install(s.db, tx) == ApplyAt(fp, s.db, tx.caseId, OpOf(s.clients[i].call, tx))
  {
    var c := s.clients[i];
    assert ClientInv(fp, s.db, c);
    CommitMeaning(fp, s, i, tx);
    hide Isolated, Install, TxInv, CommitEffect, ApplyAt, Tables;
    if c.call.Checkout? {
      CheckoutSerial(fp, s.db, c.call, c.attempt, tx);
    } else {
      RefundSerial(fp, s.db, c.call, c.attempt, tx);
    }
  }

  lemma {:induction false} CommitTables(fp: Digest, s: System, i: nat, tx: Tx)
    requires Isolated(fp, s) && Tables(fp, s.db) && i < |s.clients| && ProtectedCall(s.clients[i].call)
    requires TxOf(s.clients[i]) == Some(tx) && tx.stage.AtCommit?
    ensures Tables(fp, Install(s.db, tx)) && Grows(s.db, Install(s.db, tx))
  {
    var c := s.clients[i];
    assert ClientInv(fp, s.db, c);
    hide Isolated, Install, TxInv, CommitEffect, ApplyAt, UniqueIds, Grows, CasesOk;
    CommitMeaning(fp, s, i, tx);
    CommitSerial(fp, s, i, tx);
    ApplyTables(fp, s.db, tx.caseId, OpOf(c.call, tx));
    CommitUnique(fp, s.db, c.call, c.attempt, tx);
  }

  lemma {:induction false} ApplyTables(fp: Digest, db: Db, c: string, op: Op)
    requires CasesOk(fp, db)
    ensures CasesOk(fp, ApplyAt(fp, db, c, op))
  {
    hide Balanced, OrdersFit, Apply, SameFixture;
    if c in db {
      ApplyKeeps(fp, db[c], op);
      FixtureColumns(db[c], Apply(fp, db[c], op));
    }
  }

  lemma {:induction false} CommitUnique(fp: Digest, db: Db, call: Call, attempt: nat, tx: Tx)
    requires TxInv(fp, db, call, attempt, tx) && tx.stage.AtCommit? && UniqueIds(db)
    ensures UniqueIds(Install(db, tx))
  {
    CommitOrders(fp, db, call, attempt, tx);
    assert OrderPart(db, call, tx);
    var db' := Install(db, tx);
    forall c, d, oid | OrderIn(db', c, oid).Some? && OrderIn(db', d, oid).Some? ensures c == d {
      CommitOldOrder(fp, db, call, attempt, tx, c, oid);
      CommitOldOrder(fp, db, call, attempt, tx, d, oid);
    }
  }

  lemma {:induction false} CommitOldOrder(fp: Digest, db: Db, call: Call, attempt: nat, tx: Tx, c: string, oid: string)
    requires TxInv(fp, db, call, attempt, tx) && tx.stage.AtCommit? && OrderIn(Install(db, tx), c, oid).Some?
    ensures OrderIn(db, c, oid).Some? || (call.Checkout? && c == tx.caseId && oid == tx.order.id && !HasOrder(db, oid))
  {
    CommitOrders(fp, db, call, attempt, tx);
  }

  // ---- what a caller has been told ----

  /** The tables hold this order, up to a later refund. */
  ghost predicate Recorded(db: Db, c: string, o: Order) {
    OrderIn(db, c, o.id).Some? && OrderIn(db, c, o.id).value.(state := PAID) == o.(state := PAID)
  }

  ghost predicate Answers(db: Db, req: Purchase, o: Order) {
    Recorded(db, req.caseId, o) && o.caseId == req.caseId && o.key == req.key
  }

  /** Some committed order under this key was for another quantity. */
  ghost predicate OtherQuantity(db: Db, req: Purchase) {
    exists o :: Answers(db, req, o) && o.quantity != req.quantity
  }

  ghost predicate Collides(fp: Digest, db: Db, req: Purchase) {
    exists o :: Answers(db, req, o) && o.quantity != req.quantity
      && fp(Purchase(req.caseId, req.key, o.quantity)) == fp(req)
  }

  ghost predicate Told(fp: Digest, db: Db, call: Call, outcome: Outcome) {
    match outcome
    case Created(o) => call.Checkout? && Answers(db, call.req, o) && o.quantity == call.req.quantity
    case Replayed(o) => call.Checkout? && Answers(db, call.req, o) && (call.policy.Protected? ==> o.quantity == call.req.quantity)
    case Rejected(reason) => reason == "idempotency_conflict" ==> call.Checkout? && OtherQuantity(db, call.req)
    case ClaimWithoutOrder => call.Checkout? && call.policy.Protected? && Collides(fp, db, call.req)
    case ConflictWithoutClaim => false
    case _ => true
  }

  ghost predicate ClaimOnFile(db: Db, req: Purchase, claim: Claim) {
    HasClaim(db, req.caseId, req.key) && Lookup(ClaimKey, db[req.caseId].requests, req.key) == Some(claim)
  }

  ghost predicate Informed(fp: Digest, db: Db, c: Client) {
    match c.phase
    case Conflict => c.call.Checkout? && HasClaim(db, c.call.req.caseId, c.call.req.key)
    case LookedUp(claim) => c.call.Checkout? && ClaimOnFile(db, c.call.req, claim)
      && (c.call.policy.Protected? ==> claim.fingerprint == fp(c.call.req))
    case Done(outcome) => Told(fp, db, c.call, outcome)
    case _ => true
  }

  lemma {:induction false} AnswersGrow(db: Db, db': Db, req: Purchase, o: Order)
    requires Grows(db, db') && Answers(db, req, o)
    ensures Answers(db', req, o)
  {
  }

  lemma {:induction false} OthersGrow(fp: Digest, db: Db, db': Db, req: Purchase)
    requires Grows(db, db')
    ensures OtherQuantity(db, req) ==> OtherQuantity(db', req)
    ensures Collides(fp, db, req) ==> Collides(fp, db', req)
    ensures forall o :: Answers(db, req, o) ==> Answers(db', req, o)
  {
    forall o | Answers(db, req, o) ensures Answers(db', req, o) { AnswersGrow(db, db', req, o); }
    hide Answers;
  }

  /** What was said stays true. */
  lemma {:induction false} InformedGrows(fp: Digest, db: Db, db': Db, c: Client)
    requires Grows(db, db') && Informed(fp, db, c)
    ensures Informed(fp, db', c)
  {
    if c.call.Checkout? {
      OthersGrow(fp, db, db', c.call.req);
    }
  }

  // ---- replay ----

  /** The order a committed claim stands for. */
  lemma {:induction false} ClaimHasOrder(fp: Digest, db: Db, req: Purchase, claim: Claim) returns (o: Order)
    requires Tables(fp, db) && ClaimOnFile(db, req, claim)
    ensures Answers(db, req, o) && claim == ClaimOf(fp, o) && FindOrder(db, claim.orderId) == Some(o)
  {
    var b := db[req.caseId];
    assert Balanced(fp, b) && b.inv.caseId == req.caseId;
    BalancedClaims(fp, b);
    assert SameKey(claim, Lookup(OrderId, b.orders, claim.orderId));
    o := Lookup(OrderId, b.orders, claim.orderId).value;
    assert GoodOrder(b, o);
    assert Lookup(ClaimKey, b.requests, o.key) == Some(ClaimOf(fp, o));
    assert OrderIn(db, req.caseId, o.id) == Some(o);
    FindUnique(db, req.caseId, o);
  }

  lemma {:induction false} FindUnique(db: Db, c: string, o: Order)
    requires UniqueIds(db) && c in db && OrderIn(db, c, o.id) == Some(o)
    ensures FindOrder(db, o.id) == Some(o)
  {
    assert HasOrder(db, o.id);
  }

  /**
   * What a repeated request is told, decided by the committed order's quantity and the fingerprints alone.
   * The last answer is the "no matching order" error: it takes two quantities with one fingerprint.
   */
  lemma {:induction false} ReplayDecision(fp: Digest, db: Db, call: Call, claim: Claim, o: Order)
    requires Tables(fp, db) && call.Checkout? && call.policy.Protected? && ClaimOnFile(db, call.req, claim)
    requires FindOrder(db, claim.orderId) == Some(o)
    ensures o.quantity == call.req.quantity <==>
      LookupClaim(fp, db, call) == LookedUp(claim) && LookupOrder(db, call, claim) == Replayed(o)
    ensures fp(Purchase(o.caseId, o.key, o.quantity)) != fp(call.req) <==>
      LookupClaim(fp, db, call) == Done(Rejected("idempotency_conflict"))
    ensures o.quantity != call.req.quantity && fp(Purchase(o.caseId, o.key, o.quantity)) == fp(call.req) <==>
      LookupClaim(fp, db, call) == LookedUp(claim) && LookupOrder(db, call, claim) == ClaimWithoutOrder
  {
    var o' := ClaimHasOrder(fp, db, call.req, claim);
    hide Tables, FindOrder, Answers;
    assert o' == o;
    assert o.caseId == call.req.caseId && o.key == call.req.key by { AnswersKey(db, call.req, o); }
    assert o.quantity == call.req.quantity <==> Purchase(o.caseId, o.key, o.quantity) == call.req;
  }

  lemma AnswersKey(db: Db, req: Purchase, o: Order)
    requires Answers(db, req, o)
    ensures o.caseId == req.caseId && o.key == req.key
  {
  }

  lemma {:induction false} ConflictMeansOther(fp: Digest, db: Db, req: Purchase, claim: Claim)
    requires Tables(fp, db) && ClaimOnFile(db, req, claim) && claim.fingerprint != fp(req)
    ensures OtherQuantity(db, req)
  {
    var o := ClaimHasOrder(fp, db, req, claim);
    AnswersKey(db, req, o);
    hide Tables, Answers, FindOrder, ClaimOnFile;
    assert Purchase(o.caseId, o.key, o.quantity) != req;
  }

  lemma {:induction false} LookupInformed(fp: Digest, db: Db, c: Client)
    requires Tables(fp, db) && c.phase.Conflict? && Informed(fp, db, c) && ProtectedCall(c.call)
    ensures Informed(fp, db, c.(phase := LookupClaim(fp, db, c.call)))
  {
    var claim := Lookup(ClaimKey, db[c.call.req.caseId].requests, c.call.req.key).value;
    if c.call.policy.Protected? && claim.fingerprint != fp(c.call.req) {
      ConflictMeansOther(fp, db, c.call.req, claim);
    }
    hide Tables, OtherQuantity;
  }

  lemma {:induction false} ReplayValue(db: Db, call: Call, claim: Claim, o: Order)
    requires call.Checkout? && FindOrder(db, claim.orderId) == Some(o) && o.caseId == call.req.caseId && o.key == call.req.key
    ensures LookupOrder(db, call, claim) ==
      if !call.policy.UncheckedReplay? && o.quantity != call.req.quantity then ClaimWithoutOrder else Replayed(o)
  {
    hide FindOrder;
  }

  lemma {:induction false} ReplayInformed(fp: Digest, db: Db, c: Client)
    requires Tables(fp, db) && c.phase.LookedUp? && Informed(fp, db, c) && ProtectedCall(c.call)
    ensures Told(fp, db, c.call, LookupOrder(db, c.call, c.phase.claim))
  {
    hide Tables, FindOrder, Answers, HasClaim, OrderIn, ClaimOnFile, LookupOrder;
    var req := c.call.req;
    var o := ClaimHasOrder(fp, db, req, c.phase.claim);
    AnswersKey(db, req, o);
    ReplayValue(db, c.call, c.phase.claim, o);
    if c.call.policy.Protected? && o.quantity != req.quantity {
      assert Collides(fp, db, req);
    }
  }

  /** The missing-order error, from a claim whose order was for another quantity with the same fingerprint. */
  lemma {:induction false} CollisionAnswer(fp: Digest, db: Db, call: Call, o: Order)
    requires Tables(fp, db) && call.Checkout? && call.policy.Protected?
    requires ClaimOnFile(db, call.req, ClaimOf(fp, o)) && OrderIn(db, call.req.caseId, o.id) == Some(o)
    requires o.quantity != call.req.quantity && fp(Purchase(o.caseId, o.key, o.quantity)) == fp(call.req)
    ensures LookupClaim(fp, db, call) == LookedUp(ClaimOf(fp, o))
    ensures LookupOrder(db, call, ClaimOf(fp, o)) == ClaimWithoutOrder
  {
    FindUnique(db, call.req.caseId, o);
    hide Tables, FindOrder;
    ReplayDecision(fp, db, call, ClaimOf(fp, o), o);
  }

  // ---- every step, every run ----

  ghost predicate Guarded(fp: Digest, s: System) {
    && Isolated(fp, s) && Tables(fp, s.db)
    && forall i :: 0 <= i < |s.clients| ==> ProtectedCall(s.clients[i].call) && Informed(fp, s.db, s.clients[i])
  }

  lemma {:induction false} GuardedLocal(fp: Digest, s: System, i: nat, c: Client)
    requires Guarded(fp, s) && i < |s.clients| && c.call == s.clients[i].call && Informed(fp, s.db, c)
    requires Isolated(fp, s.(clients := s.clients[i := c]))
    ensures Guarded(fp, s.(clients := s.clients[i := c]))
  {
    hide Isolated, Tables, Informed;
  }

  lemma {:induction false} GuardedCommit(fp: Digest, s: System, i: nat, tx: Tx, p: Phase)
    requires Guarded(fp, s) && i < |s.clients| && TxOf(s.clients[i]) == Some(tx) && tx.stage.AtCommit? && p.Done?
    requires p == Done(CommitOutcome(s.clients[i].call, tx)) || p == Done(CommitUnknown)
    ensures Guarded(fp, SetPhase(s.(db := Install(s.db, tx)), i, p))
    ensures Install(s.db, tx) == ApplyAt(fp, s.db, tx.caseId, OpOf(s.clients[i].call, tx))
  {
    CommitStep(fp, s, i, tx, p);
    CommitSerial(fp, s, i, tx);
    CommitTables(fp, s, i, tx);
    CommitTold(fp, s, i, tx);
    var db' := Install(s.db, tx);
    var s' := SetPhase(s.(db := db'), i, p);
    hide Isolated, Tables, Informed, Install, ApplyAt, Grows;
    forall j | 0 <= j < |s'.clients| ensures ProtectedCall(s'.clients[j].call) && Informed(fp, db', s'.clients[j]) {
      if j != i { InformedGrows(fp, s.db, db', s.clients[j]); }
      else { InformedDone(fp, db', s'.clients[i], p.outcome); }
    }
  }

  lemma InformedDone(fp: Digest, db: Db, c: Client, outcome: Outcome)
    requires c.phase == Done(outcome) && Told(fp, db, c.call, outcome)
    ensures Informed(fp, db, c)
  {
  }

  lemma {:induction false} CommitTold(fp: Digest, s: System, i: nat, tx: Tx)
    requires Isolated(fp, s) && i < |s.clients| && TxOf(s.clients[i]) == Some(tx) && tx.stage.AtCommit?
    ensures Told(fp, Install(s.db, tx), s.clients[i].call, CommitOutcome(s.clients[i].call, tx))
  {
    var c := s.clients[i];
    assert ClientInv(fp, s.db, c);
    CommitOrders(fp, s.db, c.call, c.attempt, tx);
    hide Install, OrderIn;
  }

  lemma {:induction false} ExecTold(fp: Digest, db: Db, call: Call, attempt: nat, tx: Tx)
    requires TxInv(fp, db, call, attempt, tx)
    ensures Exec(fp, db, call, tx).Finish? ==> Told(fp, db, call, Exec(fp, db, call, tx).outcome)
    ensures Exec(fp, db, call, tx).Duplicate? ==> call.Checkout? && HasClaim(db, call.req.caseId, call.req.key)
  {
  }

  /** RunTx touches the tables only through a commit. */
  lemma {:induction false} RunTxGuarded(fp: Digest, s: System, i: nat, tx: Tx) returns (h: seq<(string, Op)>)
    requires Guarded(fp, s) && i < |s.clients| && s.clients[i].phase == InTx(tx)
    ensures Guarded(fp, RunTx(fp, s, i, tx)) && RunTx(fp, s, i, tx).db == SerialRun(fp, s.db, h)
  {
    var c := s.clients[i];
    h := [];
    RunTxIsolated(fp, s, i, tx);
    assert ClientInv(fp, s.db, c) && ProtectedCall(c.call);
    ExecTold(fp, s.db, c.call, c.attempt, tx);
    ExecKeeps(fp, s.db, c.call, c.attempt, tx);
    hide Exec, TxInv, Guarded, Isolated, Target, Free, BarrierClosed, Install, ClientInv, Told;
    var row := Target(c.call, tx);
    if (row.Some? && !Free(s, i, row.value)) || BarrierClosed(s, c.call, tx) {
    } else {
      match Exec(fp, s.db, c.call, tx)
      case Continue(tx', boundary) =>
        if c.call.Checkout? && boundary.Some? && c.call.failAt == boundary {
          GuardedDone(fp, s, i, Injected(boundary.value));
        } else {
          GuardedLocal(fp, s, i, c.(phase := InTx(tx')));
        }
      case Finish(outcome) => GuardedDone(fp, s, i, outcome);
      case Duplicate => GuardedLocal(fp, s, i, c.(phase := Conflict));
      case Commit =>
        h := [(tx.caseId, OpOf(c.call, tx))];
        GuardedCommit(fp, s, i, tx, Done(CommitOutcome(c.call, tx)));
        SerialOne(fp, s.db, tx.caseId, OpOf(c.call, tx));
    }
  }

  lemma {:induction false} SerialOne(fp: Digest, db: Db, c: string, op: Op)
    ensures SerialRun(fp, db, [(c, op)]) == ApplyAt(fp, db, c, op)
  {
    hide ApplyAt;
    assert [(c, op)][1..] == [];
  }

  lemma {:induction false} GuardedDone(fp: Digest, s: System, i: nat, outcome: Outcome)
    requires Guarded(fp, s) && i < |s.clients| && Told(fp, s.db, s.clients[i].call, outcome)
    requires Isolated(fp, SetPhase(s, i, Done(outcome)))
    ensures Guarded(fp, SetPhase(s, i, Done(outcome)))
  {
    InformedDone(fp, s.db, s.clients[i].(phase := Done(outcome)), outcome);
    GuardedLocal(fp, s, i, s.clients[i].(phase := Done(outcome)));
  }

  lemma {:induction false} AdvanceGuarded(fp: Digest, s: System, i: nat) returns (h: seq<(string, Op)>)
    requires Guarded(fp, s) && i < |s.clients|
    ensures Guarded(fp, AdvanceClient(fp, s, i)) && AdvanceClient(fp, s, i).db == SerialRun(fp, s.db, h)
  {
    var c := s.clients[i];
    h := [];
    AdvanceIsolated(fp, s, i);
    assert ProtectedCall(c.call) && Informed(fp, s.db, c);
    match c.phase
    case Idle => GuardedLocal(fp, s, i, c.(phase := InTx(Begin(c.call, c.attempt))));
    case InTx(tx) => h := RunTxGuarded(fp, s, i, tx);
    case Conflict =>
      LookupInformed(fp, s.db, c);
      GuardedLocal(fp, s, i, c.(phase := LookupClaim(fp, s.db, c.call)));
    case LookedUp(claim) =>
      ReplayInformed(fp, s.db, c);
      GuardedDone(fp, s, i, LookupOrder(s.db, c.call, claim));
    case _ =>
  }

  lemma {:induction false} StepGuarded(fp: Digest, s: System, a: Action) returns (h: seq<(string, Op)>)
    requires Guarded(fp, s)
    ensures Guarded(fp, Step(fp, s, a)) && Step(fp, s, a).db == SerialRun(fp, s.db, h)
  {
    h := [];
    StepIsolated(fp, s, a);
    if a.i < |s.clients| {
      var c := s.clients[a.i];
      assert ClientInv(fp, s.db, c);
      hide Guarded, Isolated, TxInv, AdvanceClient, Install;
      match a
      case Advance(i) => h := AdvanceGuarded(fp, s, i);
      case SqlError(i, code) =>
        if !(c.phase.Done? || c.phase.Limbo? || (c.phase.InTx? && c.phase.tx.stage.AtCommit?)) {
          GuardedLocal(fp, s, i, AfterError(c, code));
        }
      case CommitLost(i) =>
        if c.phase.InTx? && c.phase.tx.stage.AtCommit? { GuardedLocal(fp, s, i, c.(phase := Limbo(c.phase.tx))); }
      case Resolve(i, applied) =>
        if c.phase.Limbo? {
          if applied {
            h := [(c.phase.tx.caseId, OpOf(c.call, c.phase.tx))];
            GuardedCommit(fp, s, i, c.phase.tx, Done(CommitUnknown));
            SerialOne(fp, s.db, c.phase.tx.caseId, OpOf(c.call, c.phase.tx));
          } else {
            GuardedDone(fp, s, i, CommitUnknown);
          }
        }
    }
  }

  lemma {:induction false} SerialRunConcat(fp: Digest, db: Db, p: seq<(string, Op)>, q: seq<(string, Op)>)
    ensures SerialRun(fp, db, p + q) == SerialRun(fp, SerialRun(fp, db, p), q)
    decreases |p|
  {
    if p == [] {
      assert p + q == q;
    } else {
      SerialRunConcat(fp, ApplyAt(fp, db, p[0].0, p[0].1), p[1..], q);
      assert (p + q)[1..] == p[1..] + q;
    }
  }

  /** Serializability: whatever the interleaving, the tables are those of some serial history. */
  lemma {:induction false} RunGuarded(fp: Digest, s: System, actions: seq<Action>) returns (history: seq<(string, Op)>)
    requires Guarded(fp, s)
    ensures Guarded(fp, Run(fp, s, actions)) && Run(fp, s, actions).db == SerialRun(fp, s.db, history)
    decreases |actions|
  {
    history := [];
    if actions != [] {
      var first := StepGuarded(fp, s, actions[0]);
      hide Guarded, Step;
      var rest := RunGuarded(fp, Step(fp, s, actions[0]), actions[1..]);
      history := first + rest;
      SerialRunConcat(fp, s.db, first, rest);
    }
  }

  // ---- the theorems ----

  ghost predicate SeededCase(c: string, b: Books) {
    exists stock, balance, price :: 0 <= stock <= 1_000_000 && 0 <= balance <= 1_000_000 && 1 <= price <= 1_000_000
      && b == Fixture(c, stock, balance, price)
  }

  /** Any number of seeded cases, any number of protected calls, none of them begun. */
  ghost predicate Seeded(s: System) {
    && (forall c :: c in s.db ==> SeededCase(c, s.db[c]))
    && forall i :: 0 <= i < |s.clients| ==>
      s.clients[i].phase.Idle? && s.clients[i].attempt == 0 && ProtectedCall(s.clients[i].call)
  }

  lemma {:induction false} SeededGuarded(fp: Digest, s: System)
    requires Seeded(s)
    ensures Guarded(fp, s)
  {
    forall c | c in s.db ensures Balanced(fp, s.db[c]) && s.db[c].inv.caseId == c && s.db[c].orders == [] {
      var stock, balance, price :| 0 <= stock <= 1_000_000 && 0 <= balance <= 1_000_000 && 1 <= price <= 1_000_000
        && s.db[c] == Fixture(c, stock, balance, price);
      FreshBalanced(fp, s.db[c]);
      assert Origin(s.db[c]) == s.db[c];
    }
    hide Balanced;
    assert Tables(fp, s.db);
  }

  lemma {:induction false} RunFromSeed(fp: Digest, s: System, actions: seq<Action>)
    requires Seeded(s)
    ensures Guarded(fp, Run(fp, s, actions))
    ensures exists history :: Run(fp, s, actions).db == SerialRun(fp, s.db, history)
  {
    SeededGuarded(fp, s);
    var history := RunGuarded(fp, s, actions);
  }

  /**
   * For every number of clients, every interleaving and every failure: at every moment each case's rows,
   * listed in any order, pass the audit with claims required (or exceed its row limit), the merchant is not
   * overdrawn and stock stays within its initial quantity although refund guards neither.
   */
  lemma {:induction false} EveryInterleavingAudits(fp: Digest, s: System, actions: seq<Action>, c: string, listed: Books)
    requires Seeded(s) && c in Run(fp, s, actions).db
    requires SameRows(Run(fp, s, actions).db[c], listed)
    ensures Passes(fp, Rows(listed), true) || Oversize(Rows(listed))
    ensures listed.merchant.balance >= 0 && 0 <= listed.inv.available <= listed.inv.initialQty
  {
    RunFromSeed(fp, s, actions);
    hide Run;
    var b := Run(fp, s, actions).db[c];
    assert Balanced(fp, b);
    BalancedSameRows(fp, b, listed);
    BalancedBounds(fp, listed);
    AuditExact(fp, listed);
  }

  lemma {:induction false} BalancedBounds(fp: Digest, b: Books)
    requires Balanced(fp, b)
    ensures b.merchant.balance >= 0 && 0 <= b.inv.available <= b.inv.initialQty
    ensures b.buyer.owner == BUYER && b.merchant.owner == MERCHANT
  {
    OrderTotals(b);
  }

  /** At any moment a case holds at most one order per request key. */
  lemma {:induction false} AtMostOneOrder(fp: Digest, s: System, actions: seq<Action>, c: string, o1: Order, o2: Order)
    requires Seeded(s) && c in Run(fp, s, actions).db
    requires o1 in Run(fp, s, actions).db[c].orders && o2 in Run(fp, s, actions).db[c].orders && o1.key == o2.key
    ensures o1 == o2
  {
    RunFromSeed(fp, s, actions);
    hide Run;
    var b := Run(fp, s, actions).db[c];
    assert Balanced(fp, b);
    LookupUnique(OrderKey, b.orders, o1);
    LookupUnique(OrderKey, b.orders, o2);
  }

  /**
   * What any caller has been told by the end of any run: a created or replayed order is in the tables with
   * the requested case and key, and under the checked policy with the requested quantity, whatever the
   * digest; a conflict means another quantity really is on file; the missing-claim error never happens, and
   * the missing-order error only when two quantities share a fingerprint.
   */
  lemma {:induction false} CallersAreTold(fp: Digest, s: System, actions: seq<Action>, i: nat)
    requires Seeded(s) && i < |Run(fp, s, actions).clients| && Run(fp, s, actions).clients[i].phase.Done?
    ensures Told(fp, Run(fp, s, actions).db, Run(fp, s, actions).clients[i].call, Run(fp, s, actions).clients[i].phase.outcome)
  {
    RunFromSeed(fp, s, actions);
    hide Run, Told;
    assert Informed(fp, Run(fp, s, actions).db, Run(fp, s, actions).clients[i]);
  }

  /** Before its commit, a lock or deadlock error sends a protected checkout back to the start, twice at most; any other error ends it. */
  lemma RetryExactly(fp: Digest, s: System, i: nat, code: int)
    requires i < |s.clients| && (s.clients[i].phase.Idle? || (s.clients[i].phase.InTx? && !s.clients[i].phase.tx.stage.AtCommit?))
    requires s.clients[i].call.Checkout? && s.clients[i].call.policy.Protected?
    ensures var c, t := s.clients[i], Step(fp, s, SqlError(i, code));
      t == s.(clients := s.clients[i := if (code == 1205 || code == 1213) && c.attempt <= 1
                                        then c.(attempt := c.attempt + 1, phase := Idle) else c.(phase := Done(SqlFailed(code)))])
  {
  }

  function Answer(outcome: Outcome): Option<Order> {
    match outcome
    case Created(o) => Some(o)
    case Replayed(o) => Some(o)
    case _ => None
  }

  predicate Answered(c: Client) { c.phase.Done? && c.call.Checkout? && Answer(c.phase.outcome).Some? }

  /** Two calls with one case and key, however they overlapped, are answered with the same order. */
  lemma {:induction false} SameKeySameOrder(fp: Digest, s: System, actions: seq<Action>, i: nat, j: nat)
    requires Seeded(s) && i < |Run(fp, s, actions).clients| && j < |Run(fp, s, actions).clients|
    requires Answered(Run(fp, s, actions).clients[i]) && Answered(Run(fp, s, actions).clients[j])
    requires Run(fp, s, actions).clients[i].call.req.caseId == Run(fp, s, actions).clients[j].call.req.caseId
    requires Run(fp, s, actions).clients[i].call.req.key == Run(fp, s, actions).clients[j].call.req.key
    ensures var t := Run(fp, s, actions);
      Answer(t.clients[i].phase.outcome).value.id == Answer(t.clients[j].phase.outcome).value.id
  {
    var t := Run(fp, s, actions);
    CallersAreTold(fp, s, actions, i);
    CallersAreTold(fp, s, actions, j);
    RunFromSeed(fp, s, actions);
    hide Run, Guarded;
    var c := t.clients[i].call.req.caseId;
    var x, y := Answer(t.clients[i].phase.outcome).value, Answer(t.clients[j].phase.outcome).value;
    assert Recorded(t.db, c, x) && Recorded(t.db, c, y) && x.key == y.key;
    AtMostOneOrder(fp, s, actions, c, OrderIn(t.db, c, x.id).value, OrderIn(t.db, c, y.id).value);
  }
}
