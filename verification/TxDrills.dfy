/** The sequential drills, run against the repository: an unknown commit, a conflicting retry, and a repeated refund. */
module TxDrills {
  import opened Prelude
  import opened TxRows
  import opened TxAudit
  import opened TxLaws
  import opened TxSerial
  import opened TxSystem
  import opened TxIsolation
  import opened TxProtected
  import opened TxPartial
  import opened TxRepository
  import TxStockRace

  const CALMLY := [CALM, CALM, CALM]

  /** The drill's case is new, its fixture funds two unit orders, and the random order ids are fresh and distinct. */
  ghost predicate Prepared(repo: Repository, c: string, stock: int, balance: int, price: int, ids: seq<string>)
    reads repo
  {
    && Seedable(c, stock, balance, price) && c !in repo.db && stock >= 2 && balance >= 2 * price && UniqueIds(repo.db)
    && |ids| == 6 && ids[0] != ids[3] && forall i :: 0 <= i < 6 ==> !HasOrder(repo.db, ids[i])
  }

  // ---- what the tables say after one sale ----

  lemma {:induction false} SoldRows(fp: Digest, b: Books, req: Request, policy: Policy, oid: string)
    requires b.orders == [] && b.requests == []
    ensures var b', o := Sold(fp, b, req, policy, oid), OrderFor(b, req, oid);
      && b'.orders == [o] && b'.requests == (if Protects(policy) then [ClaimOf(fp, o)] else [])
      && b'.inv == b.inv.(available := b.inv.available - req.quantity)
      && b'.buyer.balance == b.buyer.balance - o.amount
  {
  }

  lemma {:induction false} SaleUnique(fp: Digest, db: Db, c: string, b': Books, o: Order)
    requires UniqueIds(db) && c in db && db[c].orders == [] && !HasOrder(db, o.id) && b'.orders == [o]
    ensures UniqueIds(db[c := b']) && OrderIn(db[c := b'], c, o.id) == Some(o)
    ensures forall oid :: oid != o.id && !HasOrder(db, oid) ==> !HasOrder(db[c := b'], oid)
  {
    var db' := db[c := b'];
    assert forall d, oid :: d != c ==> OrderIn(db', d, oid) == OrderIn(db, d, oid);
    assert forall oid :: OrderIn(db', c, oid).Some? <==> oid == o.id;
    assert forall oid :: !HasOrder(db, oid) ==> forall d :: d != c ==> OrderIn(db, d, oid).None?;
  }

  /** A request under a key that bought o is answered from o, whatever else is in the tables. */
  lemma {:induction false} Reread(fp: Digest, db: Db, o: Order, req: Request, policy: Policy)
    requires UniqueIds(db) && req.caseId in db && OrderIn(db, req.caseId, o.id) == Some(o)
    requires db[req.caseId].requests == [ClaimOf(fp, o)] && o.caseId == req.caseId && o.key == req.key
    ensures HasClaim(db, req.caseId, req.key)
    ensures ReplayOutcome(fp, db, Checkout(req, policy, None, false, [])) ==
      if !policy.UncheckedReplay? && fp(Purchase(o.caseId, o.key, o.quantity)) != fp(req) then Rejected("idempotency_conflict")
      else if !policy.UncheckedReplay? && o.quantity != req.quantity then ClaimWithoutOrder
      else Replayed(o)
  {
    FindUnique(db, req.caseId, o);
    hide FindOrder, HasOrder, UniqueIds, OrderIn;
  }

  lemma {:induction false} FirstSale(fp: Digest, db: Db, c: string, stock: int, balance: int, price: int, req: Request, policy: Policy, oid: string)
    requires c in db && db[c] == Fixture(c, stock, balance, price) && stock >= 2 && balance >= 2 * price && price >= 1
    requires req.caseId == c && req.quantity == 1 && UniqueIds(db) && !HasOrder(db, oid) && !policy.SplitCommit?
    ensures var o := OrderFor(db[c], req, oid); var db' := db[c := Sold(fp, db[c], req, policy, oid)];
      && Expected(db, req, policy, None, oid, CALM) == Ended(Created(o)) && Left(fp, db, req, policy, None, oid, CALM) == db'
      && o == Order(oid, c, req.key, 1, price, PAID) && db'[c].orders == [o] && OrderIn(db', c, oid) == Some(o)
      && db'[c].requests == (if Protects(policy) then [ClaimOf(fp, o)] else [])
      && UniqueIds(db') && (forall id :: id != oid && !HasOrder(db, id) ==> !HasOrder(db', id))
      && (Protects(policy) ==> Balanced(fp, db'[c]) && Passes(fp, Rows(db'[c]), true))
  {
    var b, o := db[c], OrderFor(db[c], req, oid);
    SeedSells(fp, db, c, stock, balance, price, req, oid);
    SoldRows(fp, b, req, policy, oid);
    SaleUnique(fp, db, c, Sold(fp, b, req, policy, oid), o);
    hide HasOrder, UniqueIds, OrderIn, Sold, Expected, Left, Balanced, Passes, Affordable;
    Sells(fp, db, req, policy, oid);
    if Protects(policy) {
      SoldAs(fp, b, req, policy, oid);
      BuyBalanced(fp, b, req, oid);
      BoughtOwners(fp, b, req, oid);
      RetriedBooks(fp, Sold(fp, b, req, policy, oid), b, req, oid);
    }
  }

  lemma SoldAs(fp: Digest, b: Books, req: Request, policy: Policy, oid: string)
    requires CanBuy(b, req, oid) && Protects(policy)
    ensures Sold(fp, b, req, policy, oid) == Bought(fp, b, req, oid)
  {
  }

  lemma BoughtOwners(fp: Digest, b: Books, req: Request, oid: string)
    requires CanBuy(b, req, oid) && b.buyer.owner == BUYER && b.merchant.owner == MERCHANT
    ensures Bought(fp, b, req, oid).buyer.owner == BUYER && Bought(fp, b, req, oid).merchant.owner == MERCHANT
  {
  }

  // ---- commit-ambiguity ----

  /**
   * The protected half: the response is lost after the commit, the read-only lookup finds the order, and the same
   * request is answered with it. One order exists and the audit passes.
   */
  method ProtectedAmbiguity(repo: Repository, c: string, stock: int, balance: int, price: int, ids: seq<string>)
      returns (first: Outcome, observation: Outcome, second: Outcome)
    requires Prepared(repo, c, stock, balance, price, ids)
    modifies repo`db
    ensures first == CommitUnknown && c in repo.db && |repo.db[c].orders| == 1
    ensures observation == second == Replayed(repo.db[c].orders[0]) && repo.db[c].orders[0] == Order(ids[0], c, "same-key", 1, price, PAID)
    ensures Passes(repo.fp, Rows(repo.db[c]), true)
  {
    hide HasOrder, UniqueIds, Balanced, Passes, Expected, Left, Sold, OrderIn, ReplayOutcome, HasClaim;
    var seeded := repo.Seed(c, stock, balance, price, CALM);
    FreshCase(repo.fp, old(repo.db), repo.db, c, ids);
    var req := Purchase(c, "same-key", 1);
    ghost var fp, db0 := repo.fp, repo.db;
    FirstSale(fp, db0, c, stock, balance, price, req, Protected, ids[0]);
    CalmDecides(db0, req, Protected, None, ids[..3], CALMLY);
    first := repo.Purchase(req, Protected, None, true, ids[..3], CALMLY);
    ghost var o := repo.db[c].orders[0];
    Reread(fp, repo.db, o, req, Protected);
    observation := repo.Replay(req, Protected);
    ghost var db1 := repo.db;
    ReplayLeaves(fp, db1, req, Protected, ids[3]);
    CalmDecides(db1, req, Protected, None, ids[3..], CALMLY);
    second := repo.Purchase(req, Protected, None, false, ids[3..], CALMLY);
  }

  lemma ReplayLeaves(fp: Digest, db: Db, req: Request, policy: Policy, oid: string)
    requires HasClaim(db, req.caseId, req.key) && Protects(policy)
    ensures Expected(db, req, policy, None, oid, CALM) == ExistingKey && Left(fp, db, req, policy, None, oid, CALM) == db
  {
    hide HasClaim;
  }

  /** The unsafe half: without a claim the same request buys again, and the audit reports the duplicate key and nothing else. */
  method UnclaimedAmbiguity(repo: Repository, c: string, stock: int, balance: int, price: int, ids: seq<string>)
      returns (first: Outcome, second: Outcome)
    requires Prepared(repo, c, stock, balance, price, ids)
    modifies repo`db
    ensures first == CommitUnknown && second == Created(Order(ids[3], c, "same-key", 1, price, PAID))
    ensures c in repo.db && repo.db[c].orders == [Order(ids[0], c, "same-key", 1, price, PAID), Order(ids[3], c, "same-key", 1, price, PAID)]
    ensures forall v :: Broken(repo.fp, Rows(repo.db[c]), false, v) <==> v == Violation(OneOrderPerRequest, "")
  {
    hide HasOrder, UniqueIds, Broken, Expected, Left, Sold, OrderIn, HasClaim;
    var seeded := repo.Seed(c, stock, balance, price, CALM);
    FreshCase(repo.fp, old(repo.db), repo.db, c, ids);
    var req := Purchase(c, "same-key", 1);
    ghost var fp, db0 := repo.fp, repo.db;
    FirstSale(fp, db0, c, stock, balance, price, req, NoClaim, ids[0]);
    CalmDecides(db0, req, NoClaim, None, ids[..3], CALMLY);
    first := repo.Purchase(req, NoClaim, None, true, ids[..3], CALMLY);
    ghost var db1 := repo.db;
    SecondSale(fp, db0[c], db1, c, stock, balance, price, req, ids[0], ids[3]);
    CalmDecides(db1, req, NoClaim, None, ids[3..], CALMLY);
    second := repo.Purchase(req, NoClaim, None, false, ids[3..], CALMLY);
    assert repo.db[c] == Sold(fp, db1[c], req, NoClaim, ids[3]);
  }

  /** A sale without a claim, under a key that has already bought. */
  lemma {:induction false} SecondSale(fp: Digest, b: Books, db: Db, c: string, stock: int, balance: int, price: int,
                                      req: Request, oid: string, oid': string)
    requires b == Fixture(c, stock, balance, price) && stock >= 2 && balance >= 2 * price && price >= 1 && oid != oid'
    requires req.caseId == c && req.quantity == 1 && c in db && db[c] == Sold(fp, b, req, NoClaim, oid) && !HasOrder(db, oid')
    ensures var o, o' := OrderFor(b, req, oid), OrderFor(b, req, oid'); var b2 := Sold(fp, db[c], req, NoClaim, oid');
      && Expected(db, req, NoClaim, None, oid', CALM) == Ended(Created(o')) && Left(fp, db, req, NoClaim, None, oid', CALM) == db[c := b2]
      && b2.orders == [o, o'] && o' == Order(oid', c, req.key, 1, price, PAID)
      && (forall v :: Broken(fp, Rows(b2), false, v) <==> v == Violation(OneOrderPerRequest, ""))
  {
    hide HasOrder, Broken, Accounted, Sold, Expected, Left, Stocked;
    var b2 := Sold(fp, db[c], req, NoClaim, oid');
    TwoSales(fp, b, c, stock, balance, price, req, oid, oid');
    SellsAgain(fp, db, req, oid');
    forall v ensures Broken(fp, Rows(b2), false, v) <==> v == Violation(OneOrderPerRequest, "") {
      TxStockRace.OnlyDuplicates(fp, b2, v);
    }
  }

  lemma {:induction false} SellsAgain(fp: Digest, db: Db, req: Request, oid: string)
    requires req.caseId in db && !HasOrder(db, oid)
    requires db[req.caseId].inv.available >= req.quantity && db[req.caseId].buyer.balance >= req.quantity * db[req.caseId].inv.unitPrice
    ensures Expected(db, req, NoClaim, None, oid, CALM) == Ended(Created(OrderFor(db[req.caseId], req, oid)))
    ensures Left(fp, db, req, NoClaim, None, oid, CALM) == db[req.caseId := Sold(fp, db[req.caseId], req, NoClaim, oid)]
  {
    hide HasOrder, Sold;
  }

  lemma {:induction false} TwoSales(fp: Digest, b: Books, c: string, stock: int, balance: int, price: int, req: Request, oid: string, oid': string)
    requires b == Fixture(c, stock, balance, price) && stock >= 2 && balance >= 2 * price && price >= 1 && oid != oid'
    requires req.caseId == c && req.quantity == 1
    ensures var b1 := Sold(fp, b, req, NoClaim, oid); var b2 := Sold(fp, b1, req, NoClaim, oid');
      && b1.inv.available >= 1 && b1.buyer.balance >= price == b1.inv.unitPrice && OrderFor(b1, req, oid') == Order(oid', c, req.key, 1, price, PAID)
      && b2.orders == [OrderFor(b, req, oid), OrderFor(b1, req, oid')] && b2.requests == [] && Accounted(b2) && Stocked(b2)
  {
    FirstRows(fp, b, c, stock, balance, price, req, oid);
    var o, b1 := OrderFor(b, req, oid), Sold(fp, b, req, NoClaim, oid);
    hide Sold, Accounted;
    FixtureAccounted(c, stock, balance, price);
    SellAccounted(b, o, stock - 1, []);
    NextRows(fp, b1, o, req, oid');
  }

  lemma {:induction false} FirstRows(fp: Digest, b: Books, c: string, stock: int, balance: int, price: int, req: Request, oid: string)
    requires b == Fixture(c, stock, balance, price) && req.caseId == c && req.quantity == 1
    ensures var o, b1 := OrderFor(b, req, oid), Sold(fp, b, req, NoClaim, oid);
      && b1 == Sell(b, o, stock - 1, []) && b1.orders == [o] && b1.requests == [] && o == Order(oid, c, req.key, 1, price, PAID)
      && b1.inv == Inventory(c, stock, stock - 1, price) && b1.buyer.balance == balance - price
  {
  }

  lemma {:induction false} NextRows(fp: Digest, b1: Books, o: Order, req: Request, oid: string)
    requires Accounted(b1) && b1.orders == [o] && b1.requests == [] && o.state == PAID && o.quantity == 1 && o.id != oid
    requires b1.inv.available >= 1 && b1.inv.available + 1 == b1.inv.initialQty && b1.buyer.balance >= b1.inv.unitPrice
    requires req.caseId == b1.inv.caseId && req.quantity == 1
    ensures var o', b2 := OrderFor(b1, req, oid), Sold(fp, b1, req, NoClaim, oid);
      b2.orders == [o, o'] && b2.requests == [] && Accounted(b2) && Stocked(b2)
  {
    hide Accounted;
    var o' := OrderFor(b1, req, oid);
    SellAccounted(b1, o', b1.inv.available - 1, []);
    TwoStocked(o, o');
  }

  lemma {:induction false} TwoStocked(o: Order, o': Order)
    requires o.state == PAID && o'.state == PAID && o.quantity == 1 && o'.quantity == 1
    ensures [o] + [o'] == [o, o'] && Sum(PaidQuantity, [o, o']) == 2
  {
    SumAppend(PaidQuantity, [], o);
    SumAppend(PaidQuantity, [o], o');
    assert [] + [o] == [o] && [o] + [o'] == [o, o'];
  }

  lemma {:induction false} FixtureAccounted(c: string, stock: int, balance: int, price: int)
    requires stock >= 0 && balance >= 0 && price >= 1
    ensures Accounted(Fixture(c, stock, balance, price))
  {
  }

  // ---- idempotency-conflict ----

  /** The same key for one unit and then for two. */
  method ConflictingRetry(repo: Repository, policy: Policy, c: string, stock: int, balance: int, price: int, ids: seq<string>)
      returns (first: Outcome, conflict: Outcome)
    requires Prepared(repo, c, stock, balance, price, ids) && (policy.Protected? || policy.UncheckedReplay?)
    modifies repo`db
    ensures c in repo.db && repo.db[c].orders == [Order(ids[0], c, "same-key", 1, price, PAID)]
    ensures first == Created(repo.db[c].orders[0]) && Passes(repo.fp, Rows(repo.db[c]), true)
    ensures policy.UncheckedReplay? ==> conflict == Replayed(repo.db[c].orders[0])
    ensures policy.Protected? ==> conflict == if repo.fp(Purchase(c, "same-key", 1)) != repo.fp(Purchase(c, "same-key", 2))
      then Rejected("idempotency_conflict") else ClaimWithoutOrder
  {
    hide HasOrder, UniqueIds, Balanced, Passes, Expected, Left, Sold, OrderIn, ReplayOutcome, HasClaim;
    var seeded := repo.Seed(c, stock, balance, price, CALM);
    FreshCase(repo.fp, old(repo.db), repo.db, c, ids);
    var req, other := Purchase(c, "same-key", 1), Purchase(c, "same-key", 2);
    ghost var fp, db0 := repo.fp, repo.db;
    FirstSale(fp, db0, c, stock, balance, price, req, Protected, ids[0]);
    CalmDecides(db0, req, Protected, None, ids[..3], CALMLY);
    first := repo.Purchase(req, Protected, None, false, ids[..3], CALMLY);
    ghost var db1 := repo.db;
    Reread(fp, db1, db1[c].orders[0], other, policy);
    ReplayLeaves(fp, db1, other, policy, ids[3]);
    CalmDecides(db1, other, policy, None, ids[3..], CALMLY);
    conflict := repo.Purchase(other, policy, None, false, ids[3..], CALMLY);
  }

  // ---- a refund, again, and of nothing ----

  /** A refund changes the case once; refunding again is a replay, and refunding an unknown order is refused. */
  method RefundTwice(repo: Repository, c: string, stock: int, balance: int, price: int, ids: seq<string>)
      returns (first: Outcome, second: Outcome, missing: Outcome)
    requires Prepared(repo, c, stock, balance, price, ids)
    modifies repo`db
    ensures first == RefundDone(ids[0]) && second == RefundReplayed(ids[0]) && missing == Rejected("order_missing")
    ensures c in repo.db && repo.db[c].orders == [Order(ids[0], c, "same-key", 1, price, REFUNDED)]
    ensures repo.db[c].inv.available == stock && repo.db[c].buyer.balance == balance && repo.db[c].merchant.balance == 0
    ensures Passes(repo.fp, Rows(repo.db[c]), true)
  {
    hide HasOrder, UniqueIds, Balanced, Passes, Expected, Left;
    var seeded := repo.Seed(c, stock, balance, price, CALM);
    FreshCase(repo.fp, old(repo.db), repo.db, c, ids);
    var req := Purchase(c, "same-key", 1);
    ghost var fp, db0 := repo.fp, repo.db;
    FirstSale(fp, db0, c, stock, balance, price, req, Protected, ids[0]);
    CalmDecides(db0, req, Protected, None, ids[..3], CALMLY);
    var bought := repo.Purchase(req, Protected, None, false, ids[..3], CALMLY);
    ghost var b := repo.db[c];
    RefundedOnce(fp, db0[c], b, c, stock, balance, price, req, ids[0]);
    first := repo.RefundOrder(c, ids[0], CALM);
    second := repo.RefundOrder(c, ids[0], CALM);
    missing := repo.RefundOrder(c, ids[3], CALM);
  }

  lemma {:induction false} RefundedOnce(fp: Digest, fixture: Books, b: Books, c: string, stock: int, balance: int, price: int, req: Request, oid: string)
    requires fixture == Fixture(c, stock, balance, price) && b == Sold(fp, fixture, req, Protected, oid) && Balanced(fp, b)
    requires req.caseId == c && req.quantity == 1 && req.key == "same-key" && price >= 1
    ensures CanRefund(b, oid)
    ensures var b' := Refunded(b, oid);
      && b'.orders == [Order(oid, c, "same-key", 1, price, REFUNDED)] && b'.inv.available == stock
      && b'.buyer.balance == balance && b'.merchant.balance == 0 && Passes(fp, Rows(b'), true)
  {
    SoldRows(fp, fixture, req, Protected, oid);
    assert b.orders == [Order(oid, c, "same-key", 1, price, PAID)];
    var b' := Refunded(b, oid);
    RefundBalanced(fp, b, oid);
    hide Balanced, Passes;
    AuditExact(fp, b');
    SmallBalanced(fp, b');
  }
}
