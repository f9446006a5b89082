/** Exactly which checks the audit reports for a case that is wrong only in its totals and about one order. */
module TxSymptoms {
  import opened Prelude
  import opened TxRows
  import opened TxAudit
  import opened TxLaws
  import opened TxSerial
  import opened TxSystem
  import opened TxPartial

  // ---- checks that follow from others, read off the rows ----

  /** An entry of an unknown owner is reported, whatever else is wrong. */
  lemma {:induction false} OwnersReported(fp: Digest, s: Snapshot, requireClaims: bool)
    requires Shaped(s)
    ensures Broken(fp, s, requireClaims, Violation(KnownLedgerOwners, "")) <==>
      exists i :: 0 <= i < |s.ledger| && s.ledger[i].owner !in {"buyer", "merchant"}
  {
    OnlyTables(fp, s, requireClaims, KnownLedgerOwners);
    hide Broken, Orders;
    if e :| e in s.ledger && e.owner != BUYER && e.owner != MERCHANT {
      var i :| 0 <= i < |s.ledger| && s.ledger[i] == e;
    }
  }

  /** The zero-sum check is about every entry: the buyer's, the merchant's and anyone else's. */
  lemma {:induction false} ZeroSumReported(fp: Digest, s: Snapshot, requireClaims: bool)
    requires Shaped(s) && forall e :: e in s.ledger ==> e.owner in {"buyer", "merchant"}
    ensures Broken(fp, s, requireClaims, Violation(LedgerZeroSum, "")) <==>
      Sum(DeltaOf("buyer"), s.ledger) + Sum(DeltaOf("merchant"), s.ledger) != 0
  {
    OnlyTables(fp, s, requireClaims, LedgerZeroSum);
    OwnersSplit(s.ledger);
    hide Broken, Orders, Sum;
  }

  lemma {:induction false} OwnersSplit(l: seq<Entry>)
    requires forall e :: e in l ==> e.owner in {"buyer", "merchant"}
    ensures Sum(Delta, l) == Sum(DeltaOf("buyer"), l) + Sum(DeltaOf("merchant"), l)
  {
    if l != [] { OwnersSplit(l[1..]); }
  }

  /** The money check is about the four amounts in the two wallet rows. */
  lemma {:induction false} MoneyReported(fp: Digest, s: Snapshot, requireClaims: bool)
    requires Shaped(s)
    ensures Broken(fp, s, requireClaims, Violation(MoneyConservation, "")) <==>
      s.wallets[0].balance - s.wallets[0].initialBalance != s.wallets[1].initialBalance - s.wallets[1].balance
  {
    OnlyTables(fp, s, requireClaims, MoneyConservation);
    hide Broken, Orders;
  }

  /** The bounds check is about both bounds. */
  lemma {:induction false} BoundsReported(fp: Digest, s: Snapshot, requireClaims: bool)
    requires Shaped(s)
    ensures Broken(fp, s, requireClaims, Violation(StockBounds, "")) <==>
      s.inventory[0].available < 0 || s.inventory[0].available > s.inventory[0].initialQty
  {
    OnlyTables(fp, s, requireClaims, StockBounds);
    hide Broken, Orders;
  }

  /** A check over whole tables is reported about no wallet and no order. */
  lemma {:induction false} OnlyTables(fp: Digest, s: Snapshot, requireClaims: bool, check: Check)
    requires Shaped(s) && (check.KnownLedgerOwners? || check.LedgerZeroSum? || check.MoneyConservation? || check.StockBounds?)
    ensures Broken(fp, s, requireClaims, Violation(check, "")) <==> TableFault(s, check)
  {
    hide Orders, TableFault;
  }

  // ---- a case that is tidy but for its totals and one order ----

  ghost predicate TidyOrders(g: Books) {
    Distinct(OrderId, g.orders) && Distinct(OrderKey, g.orders) && forall x :: x in g.orders ==> GoodOrder(g, x)
  }

  ghost predicate TidyClaims(fp: Digest, g: Books, requireClaims: bool) {
    && (forall check :: !ClaimFault(g.requests, g.orders, check))
    && (requireClaims ==> forall x :: x in g.orders ==> !OrderFault(fp, Rows(g), true, x, ClaimPayloadAndOrder))
  }

  ghost predicate TidyLedger(g: Books, oid: string) {
    && Sum(Delta, g.ledger) == 0
    && (forall e :: e in g.ledger ==> (e.owner == BUYER || e.owner == MERCHANT) && Lookup(OrderId, g.orders, e.orderId).Some?)
    && forall x :: x in g.orders && x.id != oid ==> Entries(g.ledger, x.id) == ExpectedEntries(x)
  }

  ghost predicate TidyEvents(g: Books, oid: string) {
    && (forall e :: e in g.events ==> Lookup(OrderId, g.orders, e.orderId).Some?)
    && (forall x :: x in g.orders && x.id != oid ==> Kinds(g.events, x.id) == ExpectedKinds(x))
    && forall x, e :: x in g.orders && e in g.events && e.orderId == x.id ==> PayloadMatches(x, e)
  }

  ghost predicate Tidy(fp: Digest, g: Books, requireClaims: bool, oid: string) {
    FixtureOk(g) && TidyOrders(g) && TidyClaims(fp, g, requireClaims) && TidyLedger(g, oid) && TidyEvents(g, oid)
  }

  /** What the audit then reports, in terms of the rows. */
  ghost predicate Reported(g: Books, oid: string, v: Violation) {
    match v.check
    case StockConservation => v.subject == "" && g.inv.available + Sum(PaidQuantity, g.orders) != g.inv.initialQty
    case StockBounds => v.subject == "" && (g.inv.available < 0 || g.inv.available > g.inv.initialQty)
    case MoneyConservation =>
      v.subject == "" && g.buyer.balance - g.buyer.initialBalance != g.merchant.initialBalance - g.merchant.balance
    case NonnegativeBalance => (v.subject == BUYER && g.buyer.balance < 0) || (v.subject == MERCHANT && g.merchant.balance < 0)
    case WalletLedgerAgreement =>
      || (v.subject == BUYER && g.buyer.balance - g.buyer.initialBalance != Sum(DeltaOf(BUYER), g.ledger))
      || (v.subject == MERCHANT && g.merchant.balance - g.merchant.initialBalance != Sum(DeltaOf(MERCHANT), g.ledger))
    case OrderLedgerExact => v.subject == oid && exists x :: x in g.orders && x.id == oid && Entries(g.ledger, oid) != ExpectedEntries(x)
    case OrderEventsExact => v.subject == oid && exists x :: x in g.orders && x.id == oid && Kinds(g.events, oid) != ExpectedKinds(x)
    case _ => false
  }

  predicate IsTotal(check: Check) { check.StockConservation? || check.StockBounds? || check.MoneyConservation? }

  lemma {:induction false} TidyStock(g: Books, check: Check)
    requires FixtureOk(g) && TidyOrders(g)
    ensures StockFault(Rows(g), check) <==> IsTotal(check) && Reported(g, "", Violation(check, ""))
    ensures Orders(Rows(g)) == g.orders
  {
    DictDistinct(OrderId, g.orders);
    hide Sum, GoodOrder, Dict;
  }

  lemma {:induction false} TidyTables(fp: Digest, g: Books, requireClaims: bool, oid: string, check: Check)
    requires Tidy(fp, g, requireClaims, oid)
    ensures TableFault(Rows(g), check) <==> IsTotal(check) && Reported(g, oid, Violation(check, ""))
  {
    hide Orders, StockFault, ClaimFault, FixtureOk, TidyOrders, OrderFault, Entries, Kinds, Sum;
    TidyStock(g, check);
  }

  lemma {:induction false} TidyWallets(g: Books, oid: string, v: Violation)
    requires FixtureOk(g)
    ensures WalletBroken(Rows(g), Rows(g).wallets, v) <==>
      (v.check.NonnegativeBalance? || v.check.WalletLedgerAgreement?) && Reported(g, oid, v)
  {
    hide Sum, Entries, Kinds;
    var s := Rows(g);
    assert g.buyer in s.wallets && g.merchant in s.wallets;
  }

  lemma {:induction false} TidyOrder(fp: Digest, g: Books, requireClaims: bool, oid: string, x: Order, check: Check)
    requires Tidy(fp, g, requireClaims, oid) && x in g.orders
    ensures OrderFault(fp, Rows(g), requireClaims, x, check) ==> check.OrderLedgerExact? || check.OrderEventsExact?
    ensures OrderFault(fp, Rows(g), requireClaims, x, OrderLedgerExact) <==> x.id == oid && Entries(g.ledger, oid) != ExpectedEntries(x)
    ensures OrderFault(fp, Rows(g), requireClaims, x, OrderEventsExact) <==> x.id == oid && Kinds(g.events, oid) != ExpectedKinds(x)
  {
    hide Entries, Kinds, ExpectedEntries, ExpectedKinds, Sum, Lookup, Distinct, ClaimFault, Claims, PayloadMatches, OrderFault;
    assert GoodOrder(g, x);
    hide GoodOrder;
    Exactness(fp, g, requireClaims, x);
    if check.OrderValues? { GoodValues(fp, g, requireClaims, x); }
    else if check.EventPayloadMatches? { GoodPayloads(fp, g, requireClaims, oid, x); }
    else { GoodClaim(fp, g, requireClaims, x, check); }
  }

  lemma Exactness(fp: Digest, g: Books, requireClaims: bool, x: Order)
    ensures OrderFault(fp, Rows(g), requireClaims, x, OrderLedgerExact) <==> Entries(g.ledger, x.id) != ExpectedEntries(x)
    ensures OrderFault(fp, Rows(g), requireClaims, x, OrderEventsExact) <==> Kinds(g.events, x.id) != ExpectedKinds(x)
  {
  }

  lemma GoodValues(fp: Digest, g: Books, requireClaims: bool, x: Order)
    requires GoodOrder(g, x)
    ensures !OrderFault(fp, Rows(g), requireClaims, x, OrderValues)
  {
  }

  lemma GoodPayloads(fp: Digest, g: Books, requireClaims: bool, oid: string, x: Order)
    requires TidyEvents(g, oid) && x in g.orders
    ensures !OrderFault(fp, Rows(g), requireClaims, x, EventPayloadMatches)
  {
    hide Kinds, ExpectedKinds, Lookup, PayloadMatches;
  }

  lemma GoodClaim(fp: Digest, g: Books, requireClaims: bool, x: Order, check: Check)
    requires TidyClaims(fp, g, requireClaims) && x in g.orders && !check.OrderValues? && !check.EventPayloadMatches?
    ensures OrderFault(fp, Rows(g), requireClaims, x, check) ==> check.OrderLedgerExact? || check.OrderEventsExact?
  {
    hide Entries, Kinds, ClaimFault;
  }

  lemma {:induction false} TidyOrderPart(fp: Digest, g: Books, requireClaims: bool, oid: string, v: Violation)
    requires Tidy(fp, g, requireClaims, oid)
    ensures OrderBroken(fp, Rows(g), requireClaims, g.orders, v) <==>
      (v.check.OrderLedgerExact? || v.check.OrderEventsExact?) && Reported(g, oid, v)
  {
    hide Tidy, OrderFault, Entries, Kinds, ExpectedEntries, ExpectedKinds, Sum;
    forall x | x in g.orders
      ensures OrderFault(fp, Rows(g), requireClaims, x, v.check) ==> v.check.OrderLedgerExact? || v.check.OrderEventsExact?
      ensures OrderFault(fp, Rows(g), requireClaims, x, OrderLedgerExact) <==> x.id == oid && Entries(g.ledger, oid) != ExpectedEntries(x)
      ensures OrderFault(fp, Rows(g), requireClaims, x, OrderEventsExact) <==> x.id == oid && Kinds(g.events, oid) != ExpectedKinds(x)
    {
      TidyOrder(fp, g, requireClaims, oid, x, v.check);
    }
  }

  /** The report of a case that is tidy but for its totals and one order. */
  lemma {:induction false} TidyReport(fp: Digest, g: Books, requireClaims: bool, oid: string, v: Violation)
    requires Tidy(fp, g, requireClaims, oid)
    ensures Broken(fp, Rows(g), requireClaims, v) <==> Reported(g, oid, v)
  {
    TidyTables(fp, g, requireClaims, oid, v.check);
    TidyWallets(g, oid, v);
    TidyOrderPart(fp, g, requireClaims, oid, v);
    TidyStock(g, v.check);
    TotalsOfTable(g, oid, v);
    hide Tidy, TableFault, WalletBroken, OrderBroken, Orders, Reported, FixtureOk, TidyOrders;
  }

  lemma TotalsOfTable(g: Books, oid: string, v: Violation)
    ensures IsTotal(v.check) ==> (Reported(g, oid, v) <==> v.subject == "" && Reported(g, oid, Violation(v.check, "")))
    ensures Reported(g, oid, v) ==> IsTotal(v.check) || v.check.NonnegativeBalance? || v.check.WalletLedgerAgreement? || v.check.OrderLedgerExact? || v.check.OrderEventsExact?
  {
    hide Sum, Entries, Kinds;
  }

  // ---- a balanced case is tidy, and each statement of a sale keeps it so ----

  lemma {:induction false} BalancedTidy(fp: Digest, b: Books, requireClaims: bool, oid: string)
    requires Balanced(fp, b)
    ensures Tidy(fp, b, requireClaims, oid)
  {
    BalancedParts(fp, b);
    BalancedTidyClaims(fp, b, requireClaims);
    BalancedTidyLedger(fp, b, oid);
    BalancedTidyEvents(fp, b, oid);
    hide *;
    assert Tidy(fp, b, requireClaims, oid) by { TidyParts(fp, b, requireClaims, oid); }
  }

  lemma TidyParts(fp: Digest, g: Books, requireClaims: bool, oid: string)
    requires FixtureOk(g) && TidyOrders(g) && TidyClaims(fp, g, requireClaims) && TidyLedger(g, oid) && TidyEvents(g, oid)
    ensures Tidy(fp, g, requireClaims, oid)
  {
  }

  lemma {:induction false} BalancedTidyClaims(fp: Digest, b: Books, requireClaims: bool)
    requires Balanced(fp, b)
    ensures TidyClaims(fp, b, requireClaims)
  {
    hide ClaimChecks, ClaimFault, OrderFault, Accounted, Stocked, Claimed;
    BalancedClaims(fp, b);
    AccountedRows(b);
    forall check ensures !ClaimFault(b.requests, b.orders, check) { NoClaimFault(fp, b, check); }
    forall x | x in b.orders ensures !OrderFault(fp, Rows(b), true, x, ClaimPayloadAndOrder) { ClaimOrders(fp, b, x); }
  }

  lemma {:induction false} BalancedTidyLedger(fp: Digest, b: Books, oid: string)
    requires Balanced(fp, b)
    ensures TidyLedger(b, oid)
  {
    hide Balanced, Entries, ExpectedEntries, LedgerFor, Sum, Lookup, OneCaseOrders;
    LedgerParts(fp, b);
    LedgerExact(b.ledger, b.orders, b.inv.caseId);
  }

  lemma {:induction false} LedgerParts(fp: Digest, b: Books)
    requires Balanced(fp, b)
    ensures OneCaseOrders(b.orders, b.inv.caseId) && multiset(b.ledger) == multiset(LedgerFor(b.orders))
    ensures Sum(Delta, b.ledger) == 0
    ensures forall e :: e in b.ledger ==> e.caseId == b.inv.caseId && (e.owner == BUYER || e.owner == MERCHANT)
  {
    BalancedParts(fp, b);
    assert Accounted(b);
    hide Balanced, Accounted, WalletFault;
    AccountedRows(b);
    AccountedWallets(b, b.buyer, NonnegativeBalance);
  }

  lemma {:induction false} BalancedTidyEvents(fp: Digest, b: Books, oid: string)
    requires Balanced(fp, b)
    ensures TidyEvents(b, oid)
  {
    BalancedParts(fp, b);
    AccountedRows(b);
    hide Balanced, Kinds, ExpectedKinds, EventsFor, Lookup;
    EventsExact(b.events, b.orders, b.inv.caseId);
  }

  lemma BalancedParts(fp: Digest, b: Books)
    requires Balanced(fp, b)
    ensures FixtureOk(b) && TidyOrders(b)
    ensures multiset(b.ledger) == multiset(LedgerFor(b.orders)) && multiset(b.events) == multiset(EventsFor(b.orders))
  {
  }

  lemma NoClaimFault(fp: Digest, b: Books, check: Check)
    requires Orders(Rows(b)) == b.orders && ClaimChecks(fp, b.requests, b.orders)
    ensures !ClaimFault(b.requests, b.orders, check)
  {
    hide ClaimChecks, ClaimFault;
    if IsClaimCheck(check) { ClaimTables(fp, b, check); } else { OtherNoFault(b.requests, b.orders, check); }
  }

  lemma OtherNoFault(requests: seq<Claim>, os: seq<Order>, check: Check)
    requires !IsClaimCheck(check)
    ensures !ClaimFault(requests, os, check)
  {
  }

  /** Stock and balances are no part of tidiness. */
  lemma {:induction false} TotalsTidy(fp: Digest, g: Books, g': Books, requireClaims: bool, oid: string)
    requires Tidy(fp, g, requireClaims, oid)
    requires g'.orders == g.orders && g'.requests == g.requests && g'.ledger == g.ledger && g'.events == g.events
    requires g'.inv == g.inv.(available := g'.inv.available)
    requires g'.buyer == g.buyer.(balance := g'.buyer.balance) && g'.merchant == g.merchant.(balance := g'.merchant.balance)
    ensures Tidy(fp, g', requireClaims, oid)
  {
    hide Entries, Kinds, ExpectedEntries, ExpectedKinds, Sum, Lookup, Distinct, ClaimFault, TidyLedger, TidyEvents, OrderFault;
    assert TidyLedger(g', oid) by { LedgerOnly(g, g', oid); }
    assert TidyEvents(g', oid) by { EventsOnly(g, g', oid); }
    assert forall x :: GoodOrder(g', x) <==> GoodOrder(g, x);
    forall x | x in g'.orders && requireClaims ensures !OrderFault(fp, Rows(g'), true, x, ClaimPayloadAndOrder) {
      assert !OrderFault(fp, Rows(g), true, x, ClaimPayloadAndOrder);
      ClaimsOnly(fp, g, g', x);
    }
  }

  lemma LedgerOnly(g: Books, g': Books, oid: string)
    requires TidyLedger(g, oid) && g'.orders == g.orders && g'.ledger == g.ledger
    ensures TidyLedger(g', oid)
  {
  }

  lemma EventsOnly(g: Books, g': Books, oid: string)
    requires TidyEvents(g, oid) && g'.orders == g.orders && g'.events == g.events
    ensures TidyEvents(g', oid)
  {
  }

  lemma ClaimsOnly(fp: Digest, g: Books, g': Books, x: Order)
    requires g'.requests == g.requests && g'.inv.caseId == g.inv.caseId
    ensures OrderFault(fp, Rows(g'), true, x, ClaimPayloadAndOrder) == OrderFault(fp, Rows(g), true, x, ClaimPayloadAndOrder)
  {
  }

  // ---- the six boundaries ----

  lemma {:induction false} OrderTidy(fp: Digest, b: Books, g: Books, o: Order)
    requires Balanced(fp, b) && Affordable(b, o) && Tidy(fp, g, false, o.id)
    requires g.orders == b.orders && g.requests == b.requests && g.inv == b.inv.(available := g.inv.available)
    ensures Tidy(fp, g.(orders := g.orders + [o]), false, o.id)
  {
    var g' := g.(orders := g.orders + [o]);
    hide Balanced, TidyOrders, TidyClaims, TidyLedger, TidyEvents, Affordable;
    GrownOrders(b, g, o);
    GrownClaims(fp, b, g, o);
    GrownRows(g, o);
    TidyParts(fp, g', false, o.id);
  }

  lemma {:induction false} GrownOrders(b: Books, g: Books, o: Order)
    requires TidyOrders(g) && Affordable(b, o) && g.orders == b.orders && g.inv == b.inv.(available := g.inv.available)
    ensures TidyOrders(g.(orders := g.orders + [o])) && Lookup(OrderId, g.orders, o.id).None?
  {
    AppendDistinct(OrderId, b.orders, o);
    AppendDistinct(OrderKey, b.orders, o);
    hide Distinct, Lookup;
  }

  lemma {:induction false} GrownClaims(fp: Digest, b: Books, g: Books, o: Order)
    requires Balanced(fp, b) && g.orders == b.orders && g.requests == b.requests
    ensures TidyClaims(fp, g.(orders := g.orders + [o]), false)
  {
    hide Balanced, ClaimFault, OrderFault;
    forall check ensures !ClaimFault(g.requests, g.orders + [o], check) {
      if IsClaimCheck(check) { CompleteClaims(fp, b, o, check); } else { OtherNoFault(g.requests, g.orders + [o], check); }
    }
  }

  lemma {:induction false} GrownRows(g: Books, o: Order)
    requires TidyLedger(g, o.id) && TidyEvents(g, o.id) && Lookup(OrderId, g.orders, o.id).None?
    ensures TidyLedger(g.(orders := g.orders + [o]), o.id) && TidyEvents(g.(orders := g.orders + [o]), o.id)
  {
    hide Entries, Kinds, ExpectedEntries, ExpectedKinds, Sum, Lookup, PayloadMatches;
    forall id | Lookup(OrderId, g.orders, id).Some? ensures Lookup(OrderId, g.orders + [o], id).Some? {
      LookupConcat(OrderId, g.orders, [o], id);
    }
  }

  lemma Assoc<T>(x: multiset<T>, y: multiset<T>, z: multiset<T>)
    ensures (x + y) + z == x + (y + z)
  {
  }

  lemma {:induction false} EntriesConcat(l: seq<Entry>, m: seq<Entry>, oid: string)
    ensures Entries(l + m, oid) == Entries(l, oid) + Entries(m, oid)
  {
    if l == [] {
      assert l + m == m && Entries(l, oid) == multiset{};
    } else {
      var h := if l[0].orderId == oid then multiset{(l[0].owner, l[0].phase, l[0].delta)} else multiset{};
      assert (l + m)[0] == l[0] && (l + m)[1..] == l[1..] + m;
      assert Entries(l, oid) == h + Entries(l[1..], oid);
      assert Entries(l + m, oid) == h + Entries(l[1..] + m, oid);
      hide Entries;
      EntriesConcat(l[1..], m, oid);
      Assoc(h, Entries(l[1..], oid), Entries(m, oid));
    }
  }

  lemma {:induction false} KindsConcat(l: seq<Event>, m: seq<Event>, oid: string)
    ensures Kinds(l + m, oid) == Kinds(l, oid) + Kinds(m, oid)
  {
    if l == [] {
      assert l + m == m && Kinds(l, oid) == multiset{};
    } else {
      var h := if l[0].orderId == oid then multiset{l[0].kind} else multiset{};
      assert (l + m)[0] == l[0] && (l + m)[1..] == l[1..] + m;
      assert Kinds(l, oid) == h + Kinds(l[1..], oid);
      assert Kinds(l + m, oid) == h + Kinds(l[1..] + m, oid);
      hide Kinds;
      KindsConcat(l[1..], m, oid);
      Assoc(h, Kinds(l[1..], oid), Kinds(m, oid));
    }
  }

  lemma {:induction false} SumTwo<T>(f: T -> int, x: T, y: T)
    ensures Sum(f, [x, y]) == f(x) + f(y)
  {
    SumAppend(f, [], x);
    SumAppend(f, [x], y);
    assert [] + [x] == [x] && [x] + [y] == [x, y];
  }

  /** The two rows of one booking. */
  lemma {:induction false} BookingRows(o: Order, phase: string, oid: string)
    ensures var l := LedgerRows(o, phase); var sign := if phase == PAID then -1 else 1;
      && |l| == 2 && Sum(Delta, l) == 0 && Sum(DeltaOf(BUYER), l) == sign * o.amount && Sum(DeltaOf(MERCHANT), l) == -sign * o.amount
      && Entries(l, oid) == if oid == o.id then multiset{(BUYER, phase, sign * o.amount), (MERCHANT, phase, -sign * o.amount)} else multiset{}
  {
    var l := LedgerRows(o, phase);
    assert l == [l[0], l[1]] && l[1..] == [l[1]] && l[1..][1..] == [];
    SumTwo(Delta, l[0], l[1]);
    SumTwo(DeltaOf(BUYER), l[0], l[1]);
    SumTwo(DeltaOf(MERCHANT), l[0], l[1]);
    assert Entries(l[1..], oid) == if oid == o.id then multiset{(MERCHANT, phase, l[1].delta)} else multiset{};
  }

  lemma {:induction false} LedgerTidy(fp: Digest, g: Books, requireClaims: bool, o: Order, phase: string)
    requires Tidy(fp, g, requireClaims, o.id) && Lookup(OrderId, g.orders, o.id).Some?
    ensures Tidy(fp, g.(ledger := g.ledger + LedgerRows(o, phase)), requireClaims, o.id)
    ensures forall owner :: Sum(DeltaOf(owner), g.ledger + LedgerRows(o, phase)) == Sum(DeltaOf(owner), g.ledger) + Sum(DeltaOf(owner), LedgerRows(o, phase))
  {
    hide Entries, Kinds, ExpectedEntries, ExpectedKinds, Sum, Distinct, ClaimFault, Lookup, OrderFault, TidyOrders, TidyEvents, FixtureOk;
    var l := LedgerRows(o, phase);
    var g' := g.(ledger := g.ledger + l);
    SumConcat(Delta, g.ledger, l);
    BookingRows(o, phase, o.id);
    forall x | x in g.orders && x.id != o.id ensures Entries(g'.ledger, x.id) == ExpectedEntries(x) {
      EntriesConcat(g.ledger, l, x.id);
      BookingRows(o, phase, x.id);
    }
    forall owner ensures Sum(DeltaOf(owner), g.ledger + l) == Sum(DeltaOf(owner), g.ledger) + Sum(DeltaOf(owner), l) {
      SumConcat(DeltaOf(owner), g.ledger, l);
    }
    OwnersOfBooking(o, phase);
    assert TidyLedger(g', o.id);
    LedgerAside(fp, g, g', requireClaims, o.id);
  }

  lemma OwnersOfBooking(o: Order, phase: string)
    ensures forall e :: e in LedgerRows(o, phase) ==> (e.owner == BUYER || e.owner == MERCHANT) && e.orderId == o.id
  {
  }

  lemma {:induction false} LedgerAside(fp: Digest, g: Books, g': Books, requireClaims: bool, oid: string)
    requires Tidy(fp, g, requireClaims, oid) && TidyLedger(g', oid) && g' == g.(ledger := g'.ledger)
    ensures Tidy(fp, g', requireClaims, oid)
  {
    hide Entries, Kinds, ExpectedEntries, ExpectedKinds, Sum, Distinct, ClaimFault, Lookup, OrderFault, TidyLedger, TidyEvents;
    EventsOnly(g, g', oid);
    assert forall x :: GoodOrder(g', x) <==> GoodOrder(g, x);
    forall x | x in g'.orders && requireClaims ensures !OrderFault(fp, Rows(g'), true, x, ClaimPayloadAndOrder) {
      assert !OrderFault(fp, Rows(g), true, x, ClaimPayloadAndOrder);
      ClaimsOnly(fp, g, g', x);
    }
  }

  lemma {:induction false} EventTidy(fp: Digest, g: Books, requireClaims: bool, o: Order, x: Order, phase: string)
    requires Tidy(fp, g, requireClaims, o.id) && x in g.orders && x.id == o.id && x.quantity == o.quantity && x.amount == o.amount
    requires Lookup(OrderId, g.orders, o.id).Some?
    ensures Tidy(fp, g.(events := g.events + [EventRow(o, phase)]), requireClaims, o.id)
    ensures Kinds(g.events + [EventRow(o, phase)], o.id) == Kinds(g.events, o.id) + multiset{phase}
  {
    hide Entries, ExpectedEntries, ExpectedKinds, Sum, ClaimFault, Lookup, OrderFault, TidyLedger, FixtureOk, Kinds;
    var e := EventRow(o, phase);
    var g' := g.(events := g.events + [e]);
    forall y | y in g.orders && y.id != o.id ensures Kinds(g'.events, y.id) == ExpectedKinds(y) {
      KindsConcat(g.events, [e], y.id);
      OneKind(e, y.id);
    }
    KindsConcat(g.events, [e], o.id);
    OneKind(e, o.id);
    forall y | y in g.orders && y.id == o.id ensures y == x { assert OrderId(y) == OrderId(x); }
    hide Distinct;
    assert TidyEvents(g', o.id);
    EventsAside(fp, g, g', requireClaims, o.id);
  }

  lemma OneKind(e: Event, oid: string)
    ensures Kinds([e], oid) == if e.orderId == oid then multiset{e.kind} else multiset{}
  {
    assert [e][1..] == [];
  }

  lemma {:induction false} EventsAside(fp: Digest, g: Books, g': Books, requireClaims: bool, oid: string)
    requires Tidy(fp, g, requireClaims, oid) && TidyEvents(g', oid) && g' == g.(events := g'.events)
    ensures Tidy(fp, g', requireClaims, oid)
  {
    hide Entries, Kinds, ExpectedEntries, ExpectedKinds, Sum, Distinct, ClaimFault, Lookup, OrderFault, TidyLedger, TidyEvents;
    LedgerOnly(g, g', oid);
    assert forall x :: GoodOrder(g', x) <==> GoodOrder(g, x);
    forall x | x in g'.orders && requireClaims ensures !OrderFault(fp, Rows(g'), true, x, ClaimPayloadAndOrder) {
      assert !OrderFault(fp, Rows(g), true, x, ClaimPayloadAndOrder);
      ClaimsOnly(fp, g, g', x);
    }
  }

  // ---- the exact report at each boundary ----

  /** What the audit without claims reports about a sale that stopped at a boundary, and nothing else. */
  function Symptoms(f: Failpoint, oid: string): set<Violation> {
    match f
    case AfterInventory => {Violation(StockConservation, "")}
    case AfterDebit => {Violation(StockConservation, ""), Violation(MoneyConservation, ""), Violation(WalletLedgerAgreement, BUYER)}
    case AfterCredit =>
      {Violation(StockConservation, ""), Violation(WalletLedgerAgreement, BUYER), Violation(WalletLedgerAgreement, MERCHANT)}
    case AfterOrder =>
      {Violation(WalletLedgerAgreement, BUYER), Violation(WalletLedgerAgreement, MERCHANT),
       Violation(OrderLedgerExact, oid), Violation(OrderEventsExact, oid)}
    case AfterLedger => {Violation(OrderEventsExact, oid)}
    case AfterOutbox => {}
  }

  lemma {:induction false} PartialTidy(fp: Digest, b: Books, o: Order, k: nat)
    requires Balanced(fp, b) && Affordable(b, o) && k <= 6
    ensures Tidy(fp, Partial(b, o, k), false, o.id)
  {
    hide Balanced, Tidy, Affordable, LedgerRows, EventRow;
    BalancedTidy(fp, b, false, o.id);
    TotalsTidy(fp, b, Partial(b, o, if k < 3 then k else 3), false, o.id);
    if k > 3 {
      OrderTidy(fp, b, Partial(b, o, 3), o);
      assert Partial(b, o, 3).(orders := b.orders + [o]) == Partial(b, o, 4);
      Appended(b.orders, o);
    }
    if k > 4 {
      LedgerTidy(fp, Partial(b, o, 4), false, o, PAID);
      assert Partial(b, o, 4).(ledger := b.ledger + LedgerRows(o, PAID)) == Partial(b, o, 5);
    }
    if k > 5 {
      EventTidy(fp, Partial(b, o, 5), false, o, o, PAID);
      assert Partial(b, o, 5).(events := b.events + [EventRow(o, PAID)]) == Partial(b, o, 6);
    }
  }

  lemma Appended(os: seq<Order>, o: Order)
    ensures o in os + [o] && Lookup(OrderId, os + [o], o.id).Some?
  {
    LookupConcat(OrderId, os, [o], o.id);
  }

  /** The amounts a stopped sale leaves. */
  lemma {:induction false} PartialTotals(fp: Digest, b: Books, o: Order, k: nat)
    requires Balanced(fp, b) && Affordable(b, o) && k <= 6
    ensures var g := Partial(b, o, k);
      && o.quantity > 0 && o.amount > 0 && g.inv.initialQty == b.inv.initialQty
      && 0 <= g.inv.available <= g.inv.initialQty && g.buyer.balance >= 0 && g.merchant.balance >= 0
      && g.inv.available + Sum(PaidQuantity, g.orders) == g.inv.initialQty + (if 1 <= k <= 3 then -o.quantity else 0)
      && g.buyer.balance - g.buyer.initialBalance == Sum(DeltaOf(BUYER), g.ledger) - (if 2 <= k <= 4 then o.amount else 0)
      && g.merchant.balance - g.merchant.initialBalance == Sum(DeltaOf(MERCHANT), g.ledger) + (if 3 <= k <= 4 then o.amount else 0)
      && (g.buyer.balance - g.buyer.initialBalance) + (g.merchant.balance - g.merchant.initialBalance) == (if k == 2 then -o.amount else 0)
  {
    SaleAmounts(fp, b, o);
    var l := LedgerRows(o, PAID);
    BookingRows(o, PAID, o.id);
    SumConcat(DeltaOf(BUYER), b.ledger, l);
    SumConcat(DeltaOf(MERCHANT), b.ledger, l);
    SumAppend(PaidQuantity, b.orders, o);
    hide Balanced, Sum, LedgerRows, EventRow, Affordable;
  }

  lemma {:induction false} SaleAmounts(fp: Digest, b: Books, o: Order)
    requires Balanced(fp, b) && Affordable(b, o)
    ensures o.quantity > 0 && o.amount > 0 && o.state == PAID && b.inv.available >= o.quantity && b.buyer.balance >= o.amount
    ensures 0 <= b.inv.available <= b.inv.initialQty && b.merchant.balance >= 0
    ensures b.inv.available + Sum(PaidQuantity, b.orders) == b.inv.initialQty
    ensures b.buyer.balance - b.buyer.initialBalance == Sum(DeltaOf(BUYER), b.ledger)
    ensures b.merchant.balance - b.merchant.initialBalance == Sum(DeltaOf(MERCHANT), b.ledger)
    ensures (b.buyer.balance - b.buyer.initialBalance) + (b.merchant.balance - b.merchant.initialBalance) == 0
  {
    hide Lookup, LedgerFor, EventsFor, ClaimsFor, Sum, Distinct, GoodOrder, Claimed;
    OrderTotals(b);
    WalletSums(b);
  }

  lemma {:induction false} WalletSums(b: Books)
    requires Accounted(b)
    ensures b.buyer.balance - b.buyer.initialBalance == Sum(DeltaOf(BUYER), b.ledger)
    ensures b.merchant.balance - b.merchant.initialBalance == Sum(DeltaOf(MERCHANT), b.ledger)
  {
    hide Lookup, LedgerFor, EventsFor, Sum, Distinct, GoodOrder;
    AccountedWallets(b, b.buyer, WalletLedgerAgreement);
    AccountedWallets(b, b.merchant, WalletLedgerAgreement);
  }

  /** What the rows say about the order itself. */
  lemma {:induction false} PartialOrderRows(fp: Digest, b: Books, o: Order, k: nat)
    requires Balanced(fp, b) && Affordable(b, o) && k <= 6
    ensures var g := Partial(b, o, k);
      && (forall x :: x in g.orders && x.id == o.id ==> k >= 4 && x == o) && (k >= 4 ==> o in g.orders)
      && (Entries(g.ledger, o.id) == ExpectedEntries(o) <==> k >= 5)
      && (Kinds(g.events, o.id) == ExpectedKinds(o) <==> k >= 6)
  {
    FreshAmong(b, o);
    assert Accounted(b);
    hide Balanced, Accounted, Sum, LedgerRows, EventRow, Entries, Kinds, Lookup, Affordable, ExpectedEntries, ExpectedKinds;
    NoRowsOf(b, o.id);
    BookedEntries(b.ledger, o);
    BookedKinds(b.events, o);
  }

  lemma {:induction false} BookedEntries(l: seq<Entry>, o: Order)
    requires Entries(l, o.id) == multiset{} && o.state == PAID
    ensures Entries(l + LedgerRows(o, PAID), o.id) == ExpectedEntries(o) && ExpectedEntries(o) != multiset{}
  {
    hide Entries, LedgerRows, Sum;
    BookingRows(o, PAID, o.id);
    EntriesConcat(l, LedgerRows(o, PAID), o.id);
    assert (BUYER, PAID, -o.amount) in ExpectedEntries(o);
  }

  lemma {:induction false} BookedKinds(es: seq<Event>, o: Order)
    requires Kinds(es, o.id) == multiset{} && o.state == PAID
    ensures Kinds(es + [EventRow(o, PAID)], o.id) == ExpectedKinds(o) && ExpectedKinds(o) != multiset{}
  {
    hide Kinds, EventRow;
    PaidRow(o);
    KindsConcat(es, [EventRow(o, PAID)], o.id);
    OneKind(EventRow(o, PAID), o.id);
    assert PAID in ExpectedKinds(o);
  }

  lemma FreshAmong(b: Books, o: Order)
    requires Affordable(b, o)
    ensures Lookup(OrderId, b.orders, o.id).None? && o.state == PAID && forall x :: x in b.orders ==> x.id != o.id
  {
    forall x | x in b.orders ensures x.id != o.id { assert OrderId(x) != o.id; }
  }

  lemma PaidRow(o: Order)
    ensures EventRow(o, PAID).kind == PAID && EventRow(o, PAID).orderId == o.id
  {
  }

  /** Without claims to check, the audit reports exactly these violations, stated from the rows alone. */
  lemma {:induction false} SplitCommitExactly(fp: Digest, b: Books, o: Order, f: Failpoint, v: Violation)
    requires Balanced(fp, b) && Affordable(b, o)
    ensures Broken(fp, Rows(Partial(b, o, Reached(f))), false, v) <==> v in Symptoms(f, o.id)
  {
    var k := Reached(f);
    hide Balanced, Affordable, Tidy, Broken, Partial, Sum, Entries, Kinds, ExpectedEntries, ExpectedKinds;
    PartialTidy(fp, b, o, k);
    PartialTotals(fp, b, o, k);
    PartialOrderRows(fp, b, o, k);
    TidyReport(fp, Partial(b, o, k), false, o.id, v);
  }
}
