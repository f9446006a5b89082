/** What a checkout that commits after every statement leaves behind when it stops at a boundary. */
module TxPartial {
  import opened Prelude
  import opened TxRows
  import opened TxAudit
  import opened TxLaws
  import opened TxSerial
  import opened TxSystem

  function Reached(f: Failpoint): nat {
    match f
    case AfterInventory => 1 case AfterDebit => 2 case AfterCredit => 3
    case AfterOrder => 4 case AfterLedger => 5 case AfterOutbox => 6
  }

  /** The first n statements of a claimless sale of o. */
  function Partial(b: Books, o: Order, n: nat): Books {
    b.(inv := if n >= 1 then b.inv.(available := b.inv.available - o.quantity) else b.inv,
       buyer := if n >= 2 then b.buyer.(balance := b.buyer.balance - o.amount) else b.buyer,
       merchant := if n >= 3 then b.merchant.(balance := b.merchant.balance + o.amount) else b.merchant,
       orders := if n >= 4 then b.orders + [o] else b.orders,
       ledger := if n >= 5 then b.ledger + LedgerRows(o, PAID) else b.ledger,
       events := if n >= 6 then b.events + [EventRow(o, PAID)] else b.events)
  }

  /** The check that notices a sale stopped after boundary f, and about what. */
  function Symptom(f: Failpoint, oid: string): Violation
    requires !f.AfterOutbox?
  {
    match f
    case AfterOrder => Violation(OrderLedgerExact, oid)
    case AfterLedger => Violation(OrderEventsExact, oid)
    case _ => Violation(StockConservation, "")
  }

  /** A sale the case can afford, under a key and an id it has not seen. */
  predicate Affordable(b: Books, o: Order) {
    && Lookup(OrderId, b.orders, o.id).None? && Lookup(OrderKey, b.orders, o.key).None?
    && o.state == PAID && o.caseId == b.inv.caseId && o.quantity > 0 && o.amount == o.quantity * b.inv.unitPrice
    && b.inv.available >= o.quantity && b.buyer.balance >= o.amount
  }

  lemma {:induction false} PartialStock(fp: Digest, b: Books, o: Order, f: Failpoint)
    requires Balanced(fp, b) && Affordable(b, o) && Reached(f) <= 3
    ensures Broken(fp, Rows(Partial(b, o, Reached(f))), false, Symptom(f, o.id))
  {
    AccountedRows(b);
    BalancedStock(fp, b);
    hide Balanced, OrderBroken, WalletBroken, Distinct, Dict, Lookup, LedgerFault, ClaimFault;
    var s := Rows(Partial(b, o, Reached(f)));
    assert Orders(s) == Orders(Rows(b));
    hide Orders, StockFault, Partial;
    StockDiffers(fp, s, false);
  }

  lemma StockDiffers(fp: Digest, s: Snapshot, requireClaims: bool)
    requires Shaped(s) && s.inventory[0].available + Sum(PaidQuantity, Orders(s)) != s.inventory[0].initialQty
    ensures Broken(fp, s, requireClaims, Violation(StockConservation, ""))
  {
    hide Orders, OrderBroken, WalletBroken, LedgerFault, ClaimFault;
    assert StockFault(s, StockConservation);
  }

  lemma BalancedStock(fp: Digest, b: Books)
    requires Balanced(fp, b)
    ensures b.inv.available + Sum(PaidQuantity, b.orders) == b.inv.initialQty
  {
  }

  lemma {:induction false} NoRowsOf(b: Books, oid: string)
    requires Accounted(b) && Lookup(OrderId, b.orders, oid).None?
    ensures Entries(b.ledger, oid) == multiset{} && Kinds(b.events, oid) == multiset{}
  {
    AccountedRows(b);
    LedgerExact(b.ledger, b.orders, b.inv.caseId);
    EventsExact(b.events, b.orders, b.inv.caseId);
    hide Accounted;
    NoEntries(b.ledger, oid);
    NoKinds(b.events, oid);
  }

  lemma {:induction false} NoEntries(l: seq<Entry>, oid: string)
    requires forall e :: e in l ==> e.orderId != oid
    ensures Entries(l, oid) == multiset{}
  {
    if l != [] { NoEntries(l[1..], oid); }
  }

  lemma {:induction false} NoKinds(es: seq<Event>, oid: string)
    requires forall e :: e in es ==> e.orderId != oid
    ensures Kinds(es, oid) == multiset{}
  {
    if es != [] { NoKinds(es[1..], oid); }
  }

  lemma {:induction false} PartialOrder(fp: Digest, b: Books, o: Order, f: Failpoint)
    requires Balanced(fp, b) && Affordable(b, o) && (f.AfterOrder? || f.AfterLedger?)
    ensures Broken(fp, Rows(Partial(b, o, Reached(f))), false, Symptom(f, o.id))
  {
    hide Balanced, Distinct, Lookup, Affordable, Entries, Kinds, Broken, Orders;
    var g := Partial(b, o, Reached(f));
    FreshOrder(fp, b, o);
    NoRowsOf(b, o.id);
    assert o in Orders(Rows(g)) by { AddedOrder(g, b.orders, o); }
    UnrecordedOrder(fp, Rows(g), o, f);
  }

  lemma FreshOrder(fp: Digest, b: Books, o: Order)
    requires Balanced(fp, b) && Affordable(b, o)
    ensures Accounted(b) && Lookup(OrderId, b.orders, o.id).None? && Distinct(OrderId, b.orders)
  {
  }

  lemma AddedOrder(g: Books, os: seq<Order>, o: Order)
    requires g.orders == os + [o] && Distinct(OrderId, os) && Lookup(OrderId, os, o.id).None?
    ensures o in Orders(Rows(g))
  {
    AppendDistinct(OrderId, os, o);
    DictDistinct(OrderId, os + [o]);
  }

  lemma {:induction false} UnrecordedOrder(fp: Digest, s: Snapshot, o: Order, f: Failpoint)
    requires Shaped(s) && o in Orders(s) && (f.AfterOrder? || f.AfterLedger?)
    requires f.AfterOrder? ==> Entries(s.ledger, o.id) == multiset{}
    requires f.AfterLedger? ==> Kinds(s.events, o.id) == multiset{}
    ensures Broken(fp, s, false, Symptom(f, o.id))
  {
    hide Orders, Entries, Kinds, TableFault, WalletBroken;
    assert (BUYER, PAID, -o.amount) in ExpectedEntries(o) && PAID in ExpectedKinds(o);
    assert OrderFault(fp, s, false, o, Symptom(f, o.id).check);
    assert OrderBroken(fp, s, false, Orders(s), Symptom(f, o.id));
  }

  // ---- after the last statement ----

  lemma {:induction false} CompleteIsSale(b: Books, o: Order)
    ensures Partial(b, o, 6) == Sell(b, o, b.inv.available - o.quantity, [])
  {
    assert b.requests + [] == b.requests;
  }

  lemma {:induction false} OldClaims(fp: Digest, b: Books, o: Order, check: Check)
    requires ClaimChecks(fp, b.requests, b.orders) && IsClaimCheck(check)
    ensures !ClaimFault(b.requests, b.orders + [o], check)
  {
    DictDistinct(ClaimKey, b.requests);
    forall c | c in b.requests ensures SameKey(c, Lookup(OrderId, b.orders + [o], c.orderId)) {
      LookupConcat(OrderId, b.orders, [o], c.orderId);
    }
    hide Lookup, SameKey;
  }

  lemma OpenNotLedger(l: seq<Entry>, es: seq<Event>, os: seq<Order>, check: Check)
    requires IsOpenCheck(check)
    ensures !LedgerFault(l, es, os, check)
  {
  }

  lemma {:induction false} CompleteOrders(b: Books, o: Order)
    requires Accounted(b) && Affordable(b, o)
    ensures Orders(Rows(Partial(b, o, 6))) == b.orders + [o]
  {
    AppendDistinct(OrderId, b.orders, o);
    DictDistinct(OrderId, b.orders + [o]);
  }

  lemma {:induction false} CompleteClaims(fp: Digest, b: Books, o: Order, check: Check)
    requires Balanced(fp, b) && IsOpenCheck(check)
    ensures !ClaimFault(b.requests, b.orders + [o], check)
  {
    hide Balanced, ClaimChecks;
    BalancedClaims(fp, b);
    if IsClaimCheck(check) { OldClaims(fp, b, o, check); }
  }

  lemma {:induction false} CompleteTables(fp: Digest, b: Books, o: Order, check: Check)
    requires Balanced(fp, b) && Affordable(b, o) && IsOpenCheck(check)
    ensures !TableFault(Rows(Partial(b, o, 6)), check)
  {
    var g := Partial(b, o, 6);
    assert g.requests == b.requests;
    CompleteOrders(b, o);
    hide Balanced, Affordable, StockFault, LedgerFault, ClaimFault, Orders, IsOpenCheck, Partial;
    CompleteStock(fp, b, o, check);
    CompleteClaims(fp, b, o, check);
    OpenNotLedger(g.ledger, g.events, Orders(Rows(g)), check);
  }

  lemma {:induction false} CompleteStock(fp: Digest, b: Books, o: Order, check: Check)
    requires Balanced(fp, b) && Affordable(b, o) && IsOpenCheck(check) && Orders(Rows(Partial(b, o, 6))) == b.orders + [o]
    ensures !StockFault(Rows(Partial(b, o, 6)), check)
  {
    AppendDistinct(OrderKey, b.orders, o);
    SumAppend(PaidQuantity, b.orders, o);
    OrderTotals(b);
    hide Orders, Lookup, Dict;
  }

  lemma {:induction false} SaleAccounted(fp: Digest, b: Books, o: Order)
    requires Balanced(fp, b) && Affordable(b, o)
    ensures Accounted(Sell(b, o, b.inv.available - o.quantity, []))
  {
    SellAccounted(b, o, b.inv.available - o.quantity, []);
  }

  lemma {:induction false} CompletePasses(fp: Digest, b: Books, o: Order)
    requires Balanced(fp, b) && Affordable(b, o) && !Oversize(Rows(Partial(b, o, 6)))
    ensures Passes(fp, Rows(Partial(b, o, 6)), false)
  {
    var g := Partial(b, o, 6);
    CompleteIsSale(b, o);
    SaleAccounted(fp, b, o);
    assert Balanced(fp, b);
    hide Broken, Balanced, Affordable, Accounted, Partial, Rows, Malformed, Oversize, TableFault;
    forall v ensures !Broken(fp, Rows(g), false, v) {
      if Broken(fp, Rows(g), false, v) { CompleteUnbroken(fp, b, o, v); }
    }
    CompleteShape(fp, b, o);
  }

  lemma {:induction false} CompleteUnbroken(fp: Digest, b: Books, o: Order, v: Violation)
    requires Balanced(fp, b) && Affordable(b, o) && Accounted(Partial(b, o, 6))
    ensures !Broken(fp, Rows(Partial(b, o, 6)), false, v)
  {
    hide Balanced, Affordable, Accounted, Partial, Broken, TableFault;
    if Broken(fp, Rows(Partial(b, o, 6)), false, v) {
      AccountedBroken(fp, Partial(b, o, 6), false, v);
      CompleteTables(fp, b, o, v.check);
    }
  }

  lemma {:induction false} AccountedCases(g: Books)
    requires Accounted(g)
    ensures g.buyer.caseId == g.inv.caseId && g.merchant.caseId == g.inv.caseId
    ensures forall x :: x in g.orders ==> x.caseId == g.inv.caseId
  {
    forall x | x in g.orders ensures x.caseId == g.inv.caseId { assert GoodOrder(g, x); }
  }

  lemma {:induction false} OneCaseRows(g: Books)
    requires g.buyer.caseId == g.inv.caseId && g.merchant.caseId == g.inv.caseId
    requires forall x :: x in g.orders ==> x.caseId == g.inv.caseId
    requires forall x :: x in g.requests ==> x.caseId == g.inv.caseId
    requires forall x :: x in g.ledger ==> x.caseId == g.inv.caseId
    requires forall x :: x in g.events ==> x.caseId == g.inv.caseId
    ensures OneCase(Rows(g))
  {
  }

  lemma {:induction false} CompleteShape(fp: Digest, b: Books, o: Order)
    requires Balanced(fp, b) && Accounted(Partial(b, o, 6))
    ensures Malformed(Rows(Partial(b, o, 6)), false) ==> Oversize(Rows(Partial(b, o, 6)))
  {
    var g := Partial(b, o, 6);
    assert g.requests == b.requests && g.inv.caseId == b.inv.caseId;
    hide Balanced, Accounted, Oversize, Orders, ClaimChecks, OneCase, Partial, KnownWallets;
    AccountedCases(g);
    AccountedRows(g);
    BalancedClaims(fp, b);
    OneCaseRows(g);
  }

  /** Without a claim to check, the audit notices every stopped sale except the one that stopped after the outbox row. */
  lemma {:induction false} SplitCommitNoticed(fp: Digest, b: Books, o: Order, f: Failpoint)
    requires Balanced(fp, b) && Affordable(b, o) && !Oversize(Rows(Partial(b, o, Reached(f))))
    ensures Passes(fp, Rows(Partial(b, o, Reached(f))), false) <==> f.AfterOutbox?
    ensures !f.AfterOutbox? ==> Broken(fp, Rows(Partial(b, o, Reached(f))), false, Symptom(f, o.id))
    ensures Partial(b, o, Reached(f)) != b
  {
    hide Balanced, Rows, Broken, Oversize;
    if f.AfterOutbox? { CompletePasses(fp, b, o); }
    else if Reached(f) <= 3 { PartialStock(fp, b, o, f); }
    else { PartialOrder(fp, b, o, f); }
  }
}
