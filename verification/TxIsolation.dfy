/** Row locks make every commit act as one atomic operation on the tables as they are at that moment. */
module TxIsolation {
  import opened Prelude
  import opened TxRows
  import opened TxSerial
  import opened TxSystem

  function Avail(db: Db, c: string): int { if c in db then db[c].inv.available else 0 }
  function Price(db: Db, c: string): int { if c in db then db[c].inv.unitPrice else 0 }
  function Balance(db: Db, c: string, owner: string): int {
    if c !in db then 0 else if owner == BUYER then db[c].buyer.balance
    else if owner == MERCHANT then db[c].merchant.balance else 0
  }

  /** -1 for a purchase, which takes stock and buyer money; +1 for a refund. */
  function Sign(call: Call): int { if call.Checkout? then -1 else 1 }
  function LedgerPhase(call: Call): string { if call.Checkout? then PAID else REFUNDED }

  // ---- what an open transaction knows, one table row at a time ----

  ghost predicate Head(call: Call, attempt: nat, tx: Tx) {
    match call
    case Checkout(req, policy, _, _, ids) =>
      && tx.caseId == req.caseId && !tx.locked && !policy.SplitCommit?
      && tx.order == Order(if attempt < |ids| then ids[attempt] else "", req.caseId, req.key, req.quantity, tx.order.amount, PAID)
      && (!Protects(policy) ==> !tx.stage.AtClaim?)
    case RefundCall(c, oid, guarded) =>
      && tx.caseId == c && tx.order.id == oid && tx.order.state == PAID && !tx.stage.AtClaim?
      && tx.locked == (guarded && Rank(tx.stage) > 1)
  }

  ghost predicate ClaimPart(fp: Digest, db: Db, call: Call, tx: Tx) {
    if call.Checkout? && Protects(call.policy) && Rank(tx.stage) > 0
    then tx.w.claim == Some(ClaimOf(fp, tx.order)) && !HasClaim(db, tx.caseId, tx.order.key)
    else tx.w.claim == None
  }

  ghost predicate StockPart(db: Db, call: Call, tx: Tx) {
    if Rank(tx.stage) <= 2 then tx.w.available == None
    else if call.Checkout? && call.policy.StaleStock? then
      tx.w.available == Some(tx.seen - tx.order.quantity) && tx.seen >= tx.order.quantity
    else
      && tx.w.available == Some(Avail(db, tx.caseId) + Sign(call) * tx.order.quantity)
      && (call.Checkout? ==> Avail(db, tx.caseId) >= tx.order.quantity)
  }

  ghost predicate BuyerPart(db: Db, call: Call, tx: Tx) {
    if Rank(tx.stage) <= 3 then tx.w.buyer == None
    else
      && tx.w.buyer == Some(Balance(db, tx.caseId, BUYER) + Sign(call) * tx.order.amount)
      && (call.Checkout? ==> Balance(db, tx.caseId, BUYER) >= tx.order.amount)
  }

  ghost predicate MerchantPart(db: Db, call: Call, tx: Tx) {
    if Rank(tx.stage) <= 4 then tx.w.merchant == None
    else tx.w.merchant == Some(Balance(db, tx.caseId, MERCHANT) - Sign(call) * tx.order.amount)
  }

  function OrderAfter(call: Call, o: Order): Order { if call.Checkout? then o else o.(state := REFUNDED) }

  ghost predicate OrderPart(db: Db, call: Call, tx: Tx) {
    && tx.w.order == (if Rank(tx.stage) <= 5 then None else Some(OrderAfter(call, tx.order)))
    && (call.Checkout? && Rank(tx.stage) > 5 ==> !HasOrder(db, tx.order.id))
    && (call.Checkout? && Rank(tx.stage) > 1 ==> tx.order.amount == tx.order.quantity * Price(db, tx.caseId))
    && (call.RefundCall? && Rank(tx.stage) > 1 ==>
        var row := OrderIn(db, tx.caseId, tx.order.id);
        row.Some? && row.value.(state := PAID) == tx.order && (tx.locked ==> row.value == tx.order))
  }

  ghost predicate TailPart(call: Call, tx: Tx) {
    && tx.w.ledger == (if Rank(tx.stage) <= 6 then [] else LedgerRows(tx.order, LedgerPhase(call)))
    && tx.w.events == (if Rank(tx.stage) <= 7 then [] else [EventRow(tx.order, LedgerPhase(call))])
  }

  ghost predicate TxInv(fp: Digest, db: Db, call: Call, attempt: nat, tx: Tx) {
    && Head(call, attempt, tx)
    && (Rank(tx.stage) > 1 ==> tx.caseId in db)
    && ClaimPart(fp, db, call, tx) && StockPart(db, call, tx) && BuyerPart(db, call, tx)
    && MerchantPart(db, call, tx) && OrderPart(db, call, tx) && TailPart(call, tx)
  }

  // ---- frames ----

  ghost predicate SameRow(db: Db, db': Db, r: Row) {
    match r
    case RequestRow(c, k) => HasClaim(db, c, k) == HasClaim(db', c, k)
    case StockRow(c) => Avail(db, c) == Avail(db', c)
    case WalletRow(c, owner) => Balance(db, c, owner) == Balance(db', c, owner)
    case OrderRow(oid) => forall c :: OrderIn(db, c, oid) == OrderIn(db', c, oid)
  }

  /** Rows are only added; an order's columns other than its state never change. */
  ghost predicate Grows(db: Db, db': Db) {
    && db.Keys == db'.Keys
    && (forall c :: c in db ==> SameFixture(db[c], db'[c]))
    && (forall c, x :: c in db && x in db[c].requests ==> x in db'[c].requests)
    && (forall c, k :: HasClaim(db, c, k) ==> HasClaim(db', c, k) && Lookup(ClaimKey, db[c].requests, k) == Lookup(ClaimKey, db'[c].requests, k))
    && (forall c, oid :: OrderIn(db, c, oid).Some? ==>
          OrderIn(db', c, oid).Some? && OrderIn(db', c, oid).value.(state := PAID) == OrderIn(db, c, oid).value.(state := PAID))
  }

  lemma {:induction false} GrowsPrice(db: Db, db': Db, c: string)
    requires Grows(db, db')
    ensures Price(db, c) == Price(db', c)
  {
    if c in db { FixtureColumns(db[c], db'[c]); }
  }

  lemma {:induction false} FrameStock(db: Db, db': Db, call: Call, tx: Tx)
    requires StockPart(db, call, tx) && forall r :: r in Locks(tx) ==> SameRow(db, db', r)
    ensures StockPart(db', call, tx)
  {
    if tx.w.available.Some? { assert SameRow(db, db', StockRow(tx.caseId)); }
  }

  lemma {:induction false} FrameWallets(db: Db, db': Db, call: Call, tx: Tx)
    requires BuyerPart(db, call, tx) && MerchantPart(db, call, tx) && forall r :: r in Locks(tx) ==> SameRow(db, db', r)
    ensures BuyerPart(db', call, tx) && MerchantPart(db', call, tx)
  {
    if tx.w.buyer.Some? { assert SameRow(db, db', WalletRow(tx.caseId, BUYER)); }
    if tx.w.merchant.Some? { assert SameRow(db, db', WalletRow(tx.caseId, MERCHANT)); }
  }

  lemma {:induction false} FrameClaim(fp: Digest, db: Db, db': Db, call: Call, tx: Tx)
    requires ClaimPart(fp, db, call, tx) && forall r :: r in Locks(tx) ==> SameRow(db, db', r)
    ensures ClaimPart(fp, db', call, tx)
  {
    if tx.w.claim.Some? { assert SameRow(db, db', RequestRow(tx.caseId, tx.order.key)); }
  }

  lemma {:induction false} FrameOrder(db: Db, db': Db, call: Call, tx: Tx)
    requires OrderPart(db, call, tx) && Grows(db, db') && forall r :: r in Locks(tx) ==> SameRow(db, db', r)
    ensures OrderPart(db', call, tx)
  {
    GrowsPrice(db, db', tx.caseId);
    if tx.w.order.Some? || tx.locked {
      assert SameRow(db, db', OrderRow(tx.order.id));
      assert HasOrder(db', tx.order.id) ==> HasOrder(db, tx.order.id);
    }
  }

  /** A transaction keeps what it knows while others change only rows it has not locked. */
  lemma {:induction false} Frame(fp: Digest, db: Db, db': Db, call: Call, attempt: nat, tx: Tx)
    requires TxInv(fp, db, call, attempt, tx) && Grows(db, db')
    requires forall r :: r in Locks(tx) ==> SameRow(db, db', r)
    ensures TxInv(fp, db', call, attempt, tx)
  {
    FrameClaim(fp, db, db', call, tx);
    FrameStock(db, db', call, tx);
    FrameWallets(db, db', call, tx);
    FrameOrder(db, db', call, tx);
    hide ClaimPart, StockPart, BuyerPart, MerchantPart, OrderPart;
  }

  // ---- a commit ----

  /** What the commit of a transaction does to its case. */
  ghost predicate CommitEffect(fp: Digest, db: Db, db': Db, call: Call, tx: Tx) {
    && tx.caseId in db && tx.caseId in db' && tx.w.available.Some?
    && db' == db[tx.caseId := db'[tx.caseId]]
    && db'[tx.caseId] ==
       if call.RefundCall? then GiveBack(db[tx.caseId], tx.order)
       else Sell(db[tx.caseId], tx.order, tx.w.available.value, if Protects(call.policy) then [ClaimOf(fp, tx.order)] else [])
  }

  lemma {:induction false} CommitActs(fp: Digest, db: Db, call: Call, attempt: nat, tx: Tx)
    requires TxInv(fp, db, call, attempt, tx) && tx.stage.AtCommit?
    ensures CommitEffect(fp, db, Install(db, tx), call, tx)
  {
    var b := db[tx.caseId];
    if call.Checkout? {
      assert OrderIn(db, tx.caseId, tx.order.id).None?;
      UpsertFresh(OrderId, b.orders, tx.order);
      assert b.requests + [] == b.requests;
    }
  }

  lemma {:induction false} CommitClaims(fp: Digest, db: Db, call: Call, attempt: nat, tx: Tx)
    requires TxInv(fp, db, call, attempt, tx) && tx.stage.AtCommit?
    ensures var db' := Install(db, tx);
      forall c, k :: HasClaim(db', c, k) <==> HasClaim(db, c, k) || (tx.w.claim.Some? && c == tx.caseId && k == tx.order.key)
    ensures var db' := Install(db, tx);
      forall c, k :: HasClaim(db, c, k) ==> Lookup(ClaimKey, db[c].requests, k) == Lookup(ClaimKey, db'[c].requests, k)
  {
    var b, b' := db[tx.caseId], Write(db[tx.caseId], tx.w);
    if tx.w.claim.Some? {
      forall k ensures Lookup(ClaimKey, b'.requests, k) ==
        if Lookup(ClaimKey, b.requests, k).Some? then Lookup(ClaimKey, b.requests, k)
        else if k == tx.order.key then tx.w.claim else None
      {
        LookupConcat(ClaimKey, b.requests, [tx.w.claim.value], k);
      }
    }
  }

  lemma {:induction false} CommitOrders(fp: Digest, db: Db, call: Call, attempt: nat, tx: Tx)
    requires TxInv(fp, db, call, attempt, tx) && tx.stage.AtCommit?
    ensures var db' := Install(db, tx);
      forall c, oid :: OrderIn(db', c, oid) ==
        if c == tx.caseId && oid == tx.order.id then Some(OrderAfter(call, tx.order)) else OrderIn(db, c, oid)
  {
    var b := db[tx.caseId];
    forall oid ensures Lookup(OrderId, Upsert(OrderId, b.orders, tx.w.order.value), oid) ==
      if oid == tx.order.id then tx.w.order else Lookup(OrderId, b.orders, oid)
    {
      LookupUpsert(OrderId, b.orders, tx.w.order.value, oid);
    }
  }

  lemma {:induction false} CommitFrames(fp: Digest, db: Db, call: Call, attempt: nat, tx: Tx, r: Row)
    requires TxInv(fp, db, call, attempt, tx) && tx.stage.AtCommit? && r !in Locks(tx)
    ensures SameRow(db, Install(db, tx), r)
  {
    CommitClaims(fp, db, call, attempt, tx);
    CommitOrders(fp, db, call, attempt, tx);
    hide HasClaim, OrderIn;
    match r
    case RequestRow(c, k) =>
    case StockRow(c) =>
    case WalletRow(c, owner) =>
    case OrderRow(oid) =>
  }

  lemma {:induction false} CommitColumns(fp: Digest, db: Db, call: Call, attempt: nat, tx: Tx)
    requires TxInv(fp, db, call, attempt, tx) && tx.stage.AtCommit?
    ensures forall c :: c in db ==> SameFixture(db[c], Install(db, tx)[c])
    ensures forall c, x :: c in db && x in db[c].requests ==> x in Install(db, tx)[c].requests
  {
  }

  lemma {:induction false} CommitKeepsOrder(fp: Digest, db: Db, call: Call, attempt: nat, tx: Tx, c: string, oid: string)
    requires TxInv(fp, db, call, attempt, tx) && tx.stage.AtCommit? && OrderIn(db, c, oid).Some?
    ensures OrderIn(Install(db, tx), c, oid).Some?
    ensures OrderIn(Install(db, tx), c, oid).value.(state := PAID) == OrderIn(db, c, oid).value.(state := PAID)
  {
    CommitOrders(fp, db, call, attempt, tx);
    assert call.Checkout? ==> oid != tx.order.id;
  }

  lemma {:induction false} CommitGrows(fp: Digest, db: Db, call: Call, attempt: nat, tx: Tx)
    requires TxInv(fp, db, call, attempt, tx) && tx.stage.AtCommit?
    ensures Grows(db, Install(db, tx))
  {
    CommitColumns(fp, db, call, attempt, tx);
    CommitClaims(fp, db, call, attempt, tx);
    var db' := Install(db, tx);
    assert db.Keys == db'.Keys;
    hide OrderIn, TxInv, Install, SameFixture, Lookup;
    forall c, oid | OrderIn(db, c, oid).Some?
      ensures OrderIn(db', c, oid).Some? && OrderIn(db', c, oid).value.(state := PAID) == OrderIn(db, c, oid).value.(state := PAID)
    {
      CommitKeepsOrder(fp, db, call, attempt, tx, c, oid);
    }
  }

  // ---- the system invariant ----

  ghost predicate ClientInv(fp: Digest, db: Db, c: Client) {
    && !(c.call.Checkout? && c.call.policy.SplitCommit?)
    && (TxOf(c).Some? ==> TxInv(fp, db, c.call, c.attempt, TxOf(c).value))
    && (c.phase.Limbo? ==> c.phase.tx.stage.AtCommit?)
  }

  ghost predicate LocksDisjoint(s: System) {
    forall i, j :: 0 <= i < |s.clients| && 0 <= j < |s.clients| && i != j ==> Held(s.clients[i]) !! Held(s.clients[j])
  }

  ghost predicate Isolated(fp: Digest, s: System) {
    LocksDisjoint(s) && forall i :: 0 <= i < |s.clients| ==> ClientInv(fp, s.db, s.clients[i])
  }

  /** A step that leaves the tables alone and locks at most one free row. */
  lemma {:induction false} LocalStep(fp: Digest, s: System, i: nat, c: Client, row: Option<Row>)
    requires Isolated(fp, s) && i < |s.clients| && ClientInv(fp, s.db, c)
    requires row.Some? ==> Free(s, i, row.value)
    requires Held(c) <= Held(s.clients[i]) + (if row.Some? then {row.value} else {})
    ensures Isolated(fp, s.(clients := s.clients[i := c]))
  {
    hide ClientInv, Held;
    var s' := s.(clients := s.clients[i := c]);
    forall a, b | 0 <= a < |s'.clients| && 0 <= b < |s'.clients| && a != b
      ensures Held(s'.clients[a]) !! Held(s'.clients[b])
    {
      assert Held(s.clients[a]) !! Held(s.clients[b]);
      if row.Some? {
        if a == i { assert row.value !in Held(s.clients[b]); }
        if b == i { assert row.value !in Held(s.clients[a]); }
      }
    }
  }

  lemma {:induction false} CommitLeavesOther(fp: Digest, s: System, i: nat, tx: Tx, j: nat)
    requires Isolated(fp, s) && i < |s.clients| && TxOf(s.clients[i]) == Some(tx) && tx.stage.AtCommit?
    requires j < |s.clients| && j != i
    ensures ClientInv(fp, Install(s.db, tx), s.clients[j])
  {
    var ci, cj := s.clients[i], s.clients[j];
    assert ClientInv(fp, s.db, ci) && ClientInv(fp, s.db, cj);
    if TxOf(cj).Some? {
      var t := TxOf(cj).value;
      CommitGrows(fp, s.db, ci.call, ci.attempt, tx);
      assert Held(ci) !! Held(cj);
      forall r | r in Locks(t) ensures SameRow(s.db, Install(s.db, tx), r) {
        CommitFrames(fp, s.db, ci.call, ci.attempt, tx, r);
      }
      Frame(fp, s.db, Install(s.db, tx), cj.call, cj.attempt, t);
    }
  }

  lemma {:induction false} CommitReleases(s: System, i: nat, db: Db, p: Phase)
    requires LocksDisjoint(s) && i < |s.clients| && p.Done?
    ensures LocksDisjoint(SetPhase(s.(db := db), i, p))
  {
    var s' := SetPhase(s.(db := db), i, p);
    forall a, b | 0 <= a < |s'.clients| && 0 <= b < |s'.clients| && a != b
      ensures Held(s'.clients[a]) !! Held(s'.clients[b])
    {
      assert Held(s.clients[a]) !! Held(s.clients[b]);
    }
  }

  lemma {:induction false} CommitMeaning(fp: Digest, s: System, i: nat, tx: Tx)
    requires Isolated(fp, s) && i < |s.clients| && TxOf(s.clients[i]) == Some(tx) && tx.stage.AtCommit?
    ensures Grows(s.db, Install(s.db, tx)) && CommitEffect(fp, s.db, Install(s.db, tx), s.clients[i].call, tx)
  {
    var ci := s.clients[i];
    assert ClientInv(fp, s.db, ci);
    CommitActs(fp, s.db, ci.call, ci.attempt, tx);
    CommitGrows(fp, s.db, ci.call, ci.attempt, tx);
  }

  /** A commit: the committing client lets go of its locks, the others keep what they know. */
  lemma {:induction false} CommitStep(fp: Digest, s: System, i: nat, tx: Tx, p: Phase)
    requires Isolated(fp, s) && i < |s.clients| && TxOf(s.clients[i]) == Some(tx) && tx.stage.AtCommit? && p.Done?
    ensures Isolated(fp, SetPhase(s.(db := Install(s.db, tx)), i, p))
  {
    var db' := Install(s.db, tx);
    var s' := SetPhase(s.(db := db'), i, p);
    CommitReleases(s, i, db', p);
    assert ClientInv(fp, s.db, s.clients[i]);
    hide Install, TxInv, LocksDisjoint;
    forall j | 0 <= j < |s'.clients| ensures ClientInv(fp, db', s'.clients[j]) {
      if j != i { CommitLeavesOther(fp, s, i, tx, j); }
    }
  }

  // ---- every step ----

  ghost predicate Extends(call: Call, tx: Tx, tx': Tx) {
    Locks(tx') <= Locks(tx) + if Target(call, tx).Some? then {Target(call, tx).value} else {}
  }

  lemma {:induction false} BeginInv(fp: Digest, db: Db, call: Call, attempt: nat)
    requires !(call.Checkout? && call.policy.SplitCommit?)
    ensures TxInv(fp, db, call, attempt, Begin(call, attempt)) && Locks(Begin(call, attempt)) == {}
  {
  }

  lemma {:induction false} CheckoutClaim(fp: Digest, db: Db, call: Call, attempt: nat, tx: Tx)
    requires TxInv(fp, db, call, attempt, tx) && call.Checkout? && tx.stage.AtClaim?
    requires ExecCheckout(fp, db, call, tx).Continue?
    ensures TxInv(fp, db, call, attempt, ExecCheckout(fp, db, call, tx).tx) && Extends(call, tx, ExecCheckout(fp, db, call, tx).tx)
  {
  }

  lemma {:induction false} CheckoutRead(fp: Digest, db: Db, call: Call, attempt: nat, tx: Tx)
    requires TxInv(fp, db, call, attempt, tx) && call.Checkout? && tx.stage.AtRead?
    requires ExecCheckout(fp, db, call, tx).Continue?
    ensures TxInv(fp, db, call, attempt, ExecCheckout(fp, db, call, tx).tx) && Extends(call, tx, ExecCheckout(fp, db, call, tx).tx)
  {
  }

  lemma {:induction false} CheckoutStock(fp: Digest, db: Db, call: Call, attempt: nat, tx: Tx)
    requires TxInv(fp, db, call, attempt, tx) && call.Checkout? && tx.stage.AtStock?
    requires ExecCheckout(fp, db, call, tx).Continue?
    ensures TxInv(fp, db, call, attempt, ExecCheckout(fp, db, call, tx).tx) && Extends(call, tx, ExecCheckout(fp, db, call, tx).tx)
  {
  }

  lemma {:induction false} CheckoutMoney(fp: Digest, db: Db, call: Call, attempt: nat, tx: Tx)
    requires TxInv(fp, db, call, attempt, tx) && call.Checkout? && 2 < Rank(tx.stage) <= 4
    requires ExecCheckout(fp, db, call, tx).Continue?
    ensures TxInv(fp, db, call, attempt, ExecCheckout(fp, db, call, tx).tx) && Extends(call, tx, ExecCheckout(fp, db, call, tx).tx)
  {
  }

  lemma {:induction false} CheckoutOrder(fp: Digest, db: Db, call: Call, attempt: nat, tx: Tx)
    requires TxInv(fp, db, call, attempt, tx) && call.Checkout? && tx.stage.AtOrder?
    requires ExecCheckout(fp, db, call, tx).Continue?
    ensures TxInv(fp, db, call, attempt, ExecCheckout(fp, db, call, tx).tx) && Extends(call, tx, ExecCheckout(fp, db, call, tx).tx)
  {
  }

  lemma {:induction false} CheckoutTail(fp: Digest, db: Db, call: Call, attempt: nat, tx: Tx)
    requires TxInv(fp, db, call, attempt, tx) && call.Checkout? && 5 < Rank(tx.stage)
    requires ExecCheckout(fp, db, call, tx).Continue?
    ensures TxInv(fp, db, call, attempt, ExecCheckout(fp, db, call, tx).tx) && Extends(call, tx, ExecCheckout(fp, db, call, tx).tx)
  {
  }

  lemma {:induction false} RefundFirst(fp: Digest, db: Db, call: Call, attempt: nat, tx: Tx)
    requires TxInv(fp, db, call, attempt, tx) && call.RefundCall? && Rank(tx.stage) <= 3
    requires ExecRefund(db, call, tx).Continue?
    ensures TxInv(fp, db, call, attempt, ExecRefund(db, call, tx).tx) && Extends(call, tx, ExecRefund(db, call, tx).tx)
  {
  }

  lemma {:induction false} RefundMiddle(fp: Digest, db: Db, call: Call, attempt: nat, tx: Tx)
    requires TxInv(fp, db, call, attempt, tx) && call.RefundCall? && 3 < Rank(tx.stage) <= 5
    requires ExecRefund(db, call, tx).Continue?
    ensures TxInv(fp, db, call, attempt, ExecRefund(db, call, tx).tx) && Extends(call, tx, ExecRefund(db, call, tx).tx)
  {
  }

  lemma {:induction false} RefundTail(fp: Digest, db: Db, call: Call, attempt: nat, tx: Tx)
    requires TxInv(fp, db, call, attempt, tx) && call.RefundCall? && Rank(tx.stage) > 5
    requires ExecRefund(db, call, tx).Continue?
    ensures TxInv(fp, db, call, attempt, ExecRefund(db, call, tx).tx) && Extends(call, tx, ExecRefund(db, call, tx).tx)
  {
  }

  lemma {:induction false} ExecKeeps(fp: Digest, db: Db, call: Call, attempt: nat, tx: Tx)
    requires TxInv(fp, db, call, attempt, tx)
    ensures Exec(fp, db, call, tx).Continue? ==>
      TxInv(fp, db, call, attempt, Exec(fp, db, call, tx).tx) && Extends(call, tx, Exec(fp, db, call, tx).tx)
    ensures Exec(fp, db, call, tx).Commit? ==> tx.stage.AtCommit?
  {
    if Exec(fp, db, call, tx).Continue? {
      hide TxInv, Extends, ExecCheckout, ExecRefund;
      if call.Checkout? {
        if tx.stage.AtClaim? { CheckoutClaim(fp, db, call, attempt, tx); }
        else if tx.stage.AtRead? { CheckoutRead(fp, db, call, attempt, tx); }
        else if tx.stage.AtStock? { CheckoutStock(fp, db, call, attempt, tx); }
        else if Rank(tx.stage) <= 4 { CheckoutMoney(fp, db, call, attempt, tx); }
        else if tx.stage.AtOrder? { CheckoutOrder(fp, db, call, attempt, tx); }
        else { CheckoutTail(fp, db, call, attempt, tx); }
      } else if Rank(tx.stage) <= 3 {
        RefundFirst(fp, db, call, attempt, tx);
      } else if Rank(tx.stage) <= 5 {
        RefundMiddle(fp, db, call, attempt, tx);
      } else {
        RefundTail(fp, db, call, attempt, tx);
      }
    }
  }

  lemma {:induction false} ContinueIsolated(fp: Digest, s: System, i: nat, tx: Tx)
    requires Isolated(fp, s) && i < |s.clients| && s.clients[i].phase == InTx(tx)
    requires var row := Target(s.clients[i].call, tx); row.Some? ==> Free(s, i, row.value)
    requires Exec(fp, s.db, s.clients[i].call, tx).Continue?
    ensures var e := Exec(fp, s.db, s.clients[i].call, tx); Isolated(fp, Checkpoint(s, i, e.tx, e.boundary))
  {
    var c := s.clients[i];
    assert ClientInv(fp, s.db, c);
    ExecKeeps(fp, s.db, c.call, c.attempt, tx);
    var e := Exec(fp, s.db, c.call, tx);
    hide Exec, TxInv, Isolated, Locks, Target, Free;
    if c.call.Checkout? && e.boundary.Some? && c.call.failAt == e.boundary {
      LocalStep(fp, s, i, c.(phase := Done(Injected(e.boundary.value))), None);
    } else {
      LocalStep(fp, s, i, c.(phase := InTx(e.tx)), Target(c.call, tx));
    }
  }

  lemma {:induction false} RunTxIsolated(fp: Digest, s: System, i: nat, tx: Tx)
    requires Isolated(fp, s) && i < |s.clients| && s.clients[i].phase == InTx(tx)
    ensures Isolated(fp, RunTx(fp, s, i, tx))
  {
    var c := s.clients[i];
    assert ClientInv(fp, s.db, c);
    ExecKeeps(fp, s.db, c.call, c.attempt, tx);
    hide Exec, TxInv, Isolated, Locks, Target, Free, BarrierClosed, Checkpoint;
    var row := Target(c.call, tx);
    if (row.Some? && !Free(s, i, row.value)) || BarrierClosed(s, c.call, tx) {
    } else {
      match Exec(fp, s.db, c.call, tx)
      case Continue(tx', boundary) => ContinueIsolated(fp, s, i, tx);
      case Finish(outcome) => LocalStep(fp, s, i, c.(phase := Done(outcome)), None);
      case Duplicate => LocalStep(fp, s, i, c.(phase := Conflict), None);
      case Commit => CommitStep(fp, s, i, tx, Done(CommitOutcome(c.call, tx)));
    }
  }

  lemma {:induction false} AdvanceIsolated(fp: Digest, s: System, i: nat)
    requires Isolated(fp, s) && i < |s.clients|
    ensures Isolated(fp, AdvanceClient(fp, s, i))
  {
    var c := s.clients[i];
    assert ClientInv(fp, s.db, c);
    hide Isolated, TxInv, Locks, Begin, RunTx;
    match c.phase
    case Idle =>
      BeginInv(fp, s.db, c.call, c.attempt);
      LocalStep(fp, s, i, c.(phase := InTx(Begin(c.call, c.attempt))), None);
    case InTx(tx) => RunTxIsolated(fp, s, i, tx);
    case Conflict => if c.call.Checkout? { LocalStep(fp, s, i, c.(phase := LookupClaim(fp, s.db, c.call)), None); }
    case LookedUp(claim) => if c.call.Checkout? { LocalStep(fp, s, i, c.(phase := Done(LookupOrder(s.db, c.call, claim))), None); }
    case _ =>
  }

  lemma {:induction false} StepIsolated(fp: Digest, s: System, a: Action)
    requires Isolated(fp, s)
    ensures Isolated(fp, Step(fp, s, a))
  {
    if a.i < |s.clients| {
      var c := s.clients[a.i];
      assert ClientInv(fp, s.db, c);
      hide Isolated, TxInv, Locks, AdvanceClient;
      match a
      case Advance(i) => AdvanceIsolated(fp, s, i);
      case SqlError(i, code) =>
        if !(c.phase.Done? || c.phase.Limbo? || (c.phase.InTx? && c.phase.tx.stage.AtCommit?)) {
          LocalStep(fp, s, i, AfterError(c, code), None);
        }
      case CommitLost(i) =>
        if c.phase.InTx? && c.phase.tx.stage.AtCommit? { LocalStep(fp, s, i, c.(phase := Limbo(c.phase.tx)), None); }
      case Resolve(i, applied) =>
        if c.phase.Limbo? {
          if applied { CommitStep(fp, s, i, c.phase.tx, Done(CommitUnknown)); }
          else { LocalStep(fp, s, i, c.(phase := Done(CommitUnknown)), None); }
        }
    }
  }
}
