/** Checkout and refund as atomic operations, and which row sets their histories produce. */
module TxSerial {
  import opened Prelude
  import opened TxRows
  import opened TxAudit
  import opened TxLaws

  /** Everything one checkout commit writes; stock and claims are what the policies differ in. */
  function Sell(b: Books, o: Order, available: int, claims: seq<Claim>): Books {
    b.(inv := b.inv.(available := available),
       buyer := b.buyer.(balance := b.buyer.balance - o.amount),
       merchant := b.merchant.(balance := b.merchant.balance + o.amount),
       requests := b.requests + claims,
       orders := b.orders + [o],
       ledger := b.ledger + LedgerRows(o, PAID),
       events := b.events + [EventRow(o, PAID)])
  }

  /** Everything one refund commit writes: no guard on stock or balances. */
  function GiveBack(b: Books, o: Order): Books {
    b.(inv := b.inv.(available := b.inv.available + o.quantity),
       buyer := b.buyer.(balance := b.buyer.balance + o.amount),
       merchant := b.merchant.(balance := b.merchant.balance - o.amount),
       orders := Upsert(OrderId, b.orders, o.(state := REFUNDED)),
       ledger := b.ledger + LedgerRows(o, REFUNDED),
       events := b.events + [EventRow(o, REFUNDED)])
  }

  function OrderFor(b: Books, req: Purchase, oid: string): Order {
    Order(oid, req.caseId, req.key, req.quantity, req.quantity * b.inv.unitPrice, PAID)
  }

  predicate CanBuy(b: Books, req: Purchase, oid: string) {
    && req.caseId == b.inv.caseId
    && Lookup(ClaimKey, b.requests, req.key).None?
    && Lookup(OrderId, b.orders, oid).None?
    && b.inv.available >= req.quantity
    && b.buyer.balance >= req.quantity * b.inv.unitPrice
  }

  function Bought(fp: Digest, b: Books, req: Purchase, oid: string): Books {
    var o := OrderFor(b, req, oid);
    Sell(b, o, b.inv.available - req.quantity, [ClaimOf(fp, o)])
  }

  predicate CanRefund(b: Books, oid: string) {
    Lookup(OrderId, b.orders, oid).Some? && Lookup(OrderId, b.orders, oid).value.state == PAID
  }

  function Refunded(b: Books, oid: string): Books
    requires CanRefund(b, oid)
  {
    GiveBack(b, Lookup(OrderId, b.orders, oid).value)
  }

  /** One call of the repository, run alone; a rejected call changes nothing. */
  datatype Op = Buy(req: Request, oid: string) | Refund(oid: string)

  function Apply(fp: Digest, b: Books, op: Op): Books {
    match op
    case Buy(req, oid) => if CanBuy(b, req, oid) then Bought(fp, b, req, oid) else b
    case Refund(oid) => if CanRefund(b, oid) then Refunded(b, oid) else b
  }

  function Serial(fp: Digest, b: Books, ops: seq<Op>): Books
    decreases |ops|
  {
    if ops == [] then b else Serial(fp, Apply(fp, b, ops[0]), ops[1..])
  }

  lemma {:induction false} SerialConcat(fp: Digest, b: Books, p: seq<Op>, q: seq<Op>)
    ensures Serial(fp, b, p + q) == Serial(fp, Serial(fp, b, p), q)
    decreases |p|
  {
    if p == [] {
      assert p + q == q;
    } else {
      SerialConcat(fp, Apply(fp, b, p[0]), p[1..], q);
      assert (p + q)[1..] == p[1..] + q;
    }
  }

  lemma {:induction false} SerialCons(fp: Digest, b: Books, op: Op, rest: seq<Op>)
    ensures Serial(fp, b, [op] + rest) == Serial(fp, Apply(fp, b, op), rest)
  {
    hide Apply;
    assert ([op] + rest)[1..] == rest;
  }

  lemma {:induction false} SerialPair(fp: Digest, b: Books, p: Op, q: Op)
    ensures Serial(fp, b, [p, q]) == Apply(fp, Apply(fp, b, p), q)
  {
    hide Apply;
    assert [p, q] == [p] + ([q] + []);
    SerialCons(fp, b, p, [q] + []);
    SerialCons(fp, Apply(fp, b, p), q, []);
  }

  // ---- the invariant is kept ----

  lemma {:induction false} LedgerForAppend(os: seq<Order>, o: Order)
    ensures multiset(LedgerFor(os + [o])) == multiset(LedgerFor(os)) + multiset(OrderLedger(o))
  {
    forall e ensures multiset(LedgerFor(os + [o]))[e] == multiset(LedgerFor(os))[e] + multiset(OrderLedger(o))[e] {
      LedgerCount(os, e);
      LedgerCount(os + [o], e);
      SumAppend(EntryCount(e), os, o);
    }
  }

  lemma {:induction false} EventsForAppend(os: seq<Order>, o: Order)
    ensures multiset(EventsFor(os + [o])) == multiset(EventsFor(os)) + multiset(OrderEvents(o))
  {
    forall e ensures multiset(EventsFor(os + [o]))[e] == multiset(EventsFor(os))[e] + multiset(OrderEvents(o))[e] {
      EventsCount(os, e);
      EventsCount(os + [o], e);
      SumAppend(EventCount(e), os, o);
    }
  }

  /** A funded sale of a fresh, well-priced order keeps orders, money, ledger and events agreeing. */
  lemma {:induction false} SellAccounted(b: Books, o: Order, available: int, claims: seq<Claim>)
    requires Accounted(b) && GoodOrder(b, o) && o.state == PAID
    requires Lookup(OrderId, b.orders, o.id).None? && b.buyer.balance >= o.amount
    ensures Accounted(Sell(b, o, available, claims))
    ensures Sum(PaidQuantity, Sell(b, o, available, claims).orders) == Sum(PaidQuantity, b.orders) + o.quantity
  {
    hide LedgerFor, EventsFor, LedgerRows, EventRow, Distinct, Sum, FixtureOk, Lookup, Sell;
    SumAppend(PaidAmount, b.orders, o);
    SumAppend(PaidQuantity, b.orders, o);
    AppendDistinct(OrderId, b.orders, o);
    SoldLedger(b, o);
    SoldEvents(b, o);
    SoldOrders(b, o, available, claims);
    SoldColumns(b, o, available, claims);
  }

  lemma SoldColumns(b: Books, o: Order, available: int, claims: seq<Claim>)
    ensures var r := Sell(b, o, available, claims);
      && r.buyer == b.buyer.(balance := b.buyer.balance - o.amount)
      && r.merchant == b.merchant.(balance := b.merchant.balance + o.amount)
      && r.orders == b.orders + [o] && r.ledger == b.ledger + LedgerRows(o, PAID) && r.events == b.events + [EventRow(o, PAID)]
  {
  }

  lemma {:induction false} SoldOrders(b: Books, o: Order, available: int, claims: seq<Claim>)
    requires FixtureOk(b) && GoodOrder(b, o) && forall x :: x in b.orders ==> GoodOrder(b, x)
    ensures var r := Sell(b, o, available, claims); FixtureOk(r) && forall x :: x in r.orders ==> GoodOrder(r, x)
  {
    var r := Sell(b, o, available, claims);
    forall x | x in r.orders ensures GoodOrder(r, x) { assert x == o || GoodOrder(b, x); }
  }

  lemma {:induction false} SoldLedger(b: Books, o: Order)
    requires multiset(b.ledger) == multiset(LedgerFor(b.orders)) && o.state == PAID
    ensures multiset(b.ledger + LedgerRows(o, PAID)) == multiset(LedgerFor(b.orders + [o]))
  {
    LedgerForAppend(b.orders, o);
    assert OrderLedger(o) == LedgerRows(o, PAID);
    hide LedgerFor, LedgerRows;
  }

  lemma {:induction false} SoldEvents(b: Books, o: Order)
    requires multiset(b.events) == multiset(EventsFor(b.orders)) && o.state == PAID
    ensures multiset(b.events + [EventRow(o, PAID)]) == multiset(EventsFor(b.orders + [o]))
  {
    EventsForAppend(b.orders, o);
    assert OrderEvents(o) == [EventRow(o, PAID)];
    hide EventsFor, EventRow;
  }

  lemma {:induction false} AppendDistinct<T>(key: T -> string, s: seq<T>, x: T)
    requires Distinct(key, s) && Lookup(key, s, key(x)).None?
    ensures Distinct(key, s + [x])
  {
    forall i | 0 <= i < |s| ensures key(s[i]) != key(x) { assert s[i] in s; }
  }

  lemma {:induction false} KeyUnused(fp: Digest, b: Books, key: string)
    requires Balanced(fp, b)
    ensures Lookup(ClaimKey, b.requests, key).None? <==> Lookup(OrderKey, b.orders, key).None?
  {
    BalancedClaims(fp, b);
    forall x | x in b.orders ensures Lookup(ClaimKey, b.requests, x.key).Some? {}
    forall c | c in b.requests ensures Lookup(OrderKey, b.orders, c.key).Some? {
      assert SameKey(c, Lookup(OrderId, b.orders, c.orderId));
    }
  }

  lemma {:induction false} SellClaimed(fp: Digest, b: Books, o: Order, available: int)
    requires Claimed(fp, b) && o.caseId == b.inv.caseId && ValidPurchase(Purchase(b.inv.caseId, o.key, o.quantity))
    ensures Claimed(fp, Sell(b, o, available, [ClaimOf(fp, o)]))
  {
    assert ClaimsFor(fp, b.orders + [o]) == ClaimsFor(fp, b.orders) + [ClaimOf(fp, o)];
  }

  lemma {:induction false} BuyAccounted(fp: Digest, b: Books, req: Request, oid: string)
    requires Balanced(fp, b) && CanBuy(b, req, oid)
    ensures Accounted(Bought(fp, b, req, oid)) && Stocked(Bought(fp, b, req, oid))
  {
    hide LedgerFor, EventsFor, Distinct, Claimed, Lookup;
    var o := OrderFor(b, req, oid);
    SellAccounted(b, o, b.inv.available - req.quantity, [ClaimOf(fp, o)]);
  }

  lemma {:induction false} BuyClaimed(fp: Digest, b: Books, req: Request, oid: string)
    requires Balanced(fp, b) && CanBuy(b, req, oid)
    ensures Claimed(fp, Bought(fp, b, req, oid))
  {
    SellClaimed(fp, b, OrderFor(b, req, oid), b.inv.available - req.quantity);
  }

  lemma {:induction false} BuyKeys(fp: Digest, b: Books, req: Request, oid: string)
    requires Balanced(fp, b) && CanBuy(b, req, oid)
    ensures Distinct(OrderKey, Bought(fp, b, req, oid).orders)
  {
    KeyUnused(fp, b, req.key);
    AppendDistinct(OrderKey, b.orders, OrderFor(b, req, oid));
  }

  lemma {:induction false} BuyBalanced(fp: Digest, b: Books, req: Request, oid: string)
    requires Balanced(fp, b) && CanBuy(b, req, oid)
    ensures Balanced(fp, Bought(fp, b, req, oid))
  {
    BuyAccounted(fp, b, req, oid);
    BuyClaimed(fp, b, req, oid);
    BuyKeys(fp, b, req, oid);
    hide Accounted, Stocked, Claimed, Distinct, CanBuy, Bought;
  }

  lemma {:induction false} RefundedOrderRows(o: Order)
    requires o.state == PAID
    ensures multiset(OrderLedger(o.(state := REFUNDED))) == multiset(OrderLedger(o)) + multiset(LedgerRows(o, REFUNDED))
    ensures multiset(OrderEvents(o.(state := REFUNDED))) == multiset(OrderEvents(o)) + multiset{EventRow(o, REFUNDED)}
  {
    var r := o.(state := REFUNDED);
    assert LedgerRows(r, PAID) == LedgerRows(o, PAID) && LedgerRows(r, REFUNDED) == LedgerRows(o, REFUNDED);
    assert OrderLedger(o) == LedgerRows(o, PAID) + [];
    assert EventRow(r, PAID) == EventRow(o, PAID) && EventRow(r, REFUNDED) == EventRow(o, REFUNDED);
  }

  lemma {:induction false} RefundEntry(os: seq<Order>, o: Order, e: Entry)
    requires Lookup(OrderId, os, o.id) == Some(o) && o.state == PAID
    ensures multiset(LedgerFor(Upsert(OrderId, os, o.(state := REFUNDED))))[e]
      == multiset(LedgerFor(os))[e] + multiset(LedgerRows(o, REFUNDED))[e]
  {
    RefundedOrderRows(o);
    hide OrderLedger, LedgerRows, LedgerFor;
    var r := o.(state := REFUNDED);
    LedgerCount(os, e);
    LedgerCount(Upsert(OrderId, os, r), e);
    SumUpsert(EntryCount(e), OrderId, os, r);
  }

  lemma {:induction false} RefundEvent(os: seq<Order>, o: Order, e: Event)
    requires Lookup(OrderId, os, o.id) == Some(o) && o.state == PAID
    ensures multiset(EventsFor(Upsert(OrderId, os, o.(state := REFUNDED))))[e]
      == multiset(EventsFor(os))[e] + multiset{EventRow(o, REFUNDED)}[e]
  {
    RefundedOrderRows(o);
    hide OrderEvents, EventRow, EventsFor;
    var r := o.(state := REFUNDED);
    EventsCount(os, e);
    EventsCount(Upsert(OrderId, os, r), e);
    SumUpsert(EventCount(e), OrderId, os, r);
  }

  lemma {:induction false} RefundRows(os: seq<Order>, o: Order)
    requires Lookup(OrderId, os, o.id) == Some(o) && o.state == PAID
    ensures var os' := Upsert(OrderId, os, o.(state := REFUNDED));
      && multiset(LedgerFor(os')) == multiset(LedgerFor(os)) + multiset(LedgerRows(o, REFUNDED))
      && multiset(EventsFor(os')) == multiset(EventsFor(os)) + multiset{EventRow(o, REFUNDED)}
  {
    hide LedgerFor, EventsFor, LedgerRows, EventRow, Upsert, Lookup;
    var os' := Upsert(OrderId, os, o.(state := REFUNDED));
    forall e ensures multiset(LedgerFor(os'))[e] == multiset(LedgerFor(os))[e] + multiset(LedgerRows(o, REFUNDED))[e] {
      RefundEntry(os, o, e);
    }
    forall e ensures multiset(EventsFor(os'))[e] == multiset(EventsFor(os))[e] + multiset{EventRow(o, REFUNDED)}[e] {
      RefundEvent(os, o, e);
    }
  }

  /** Refund has no stock or balance guard: both bounds come from the invariant alone. */
  lemma {:induction false} RefundAccounted(b: Books, oid: string)
    requires Accounted(b) && CanRefund(b, oid)
    ensures Accounted(Refunded(b, oid))
    ensures Refunded(b, oid).merchant.balance >= 0
    ensures Stocked(b) ==> Stocked(Refunded(b, oid)) && Refunded(b, oid).inv.available <= b.inv.initialQty
  {
    var o := Lookup(OrderId, b.orders, oid).value;
    var r := o.(state := REFUNDED);
    var b' := Refunded(b, oid);
    OrderTotals(b);
    SumUpsert(PaidAmount, OrderId, b.orders, r);
    SumUpsert(PaidQuantity, OrderId, b.orders, r);
    RefundRows(b.orders, o);
    UpsertDistinct(OrderId, b.orders, r);
    UpsertMembers(OrderId, b.orders, r);
    forall x | x in b'.orders ensures GoodOrder(b', x) { assert GoodOrder(b, o); assert x == r || GoodOrder(b, x); }
    OrderTotals(b');
  }

  lemma {:induction false} RefundBalanced(fp: Digest, b: Books, oid: string)
    requires Balanced(fp, b) && CanRefund(b, oid)
    ensures Balanced(fp, Refunded(b, oid))
  {
    var o := Lookup(OrderId, b.orders, oid).value;
    var r := o.(state := REFUNDED);
    RefundAccounted(b, oid);
    UpsertMembers(OrderId, b.orders, r);
    assert ClaimOf(fp, o) == ClaimOf(fp, r);
    SameClaims(fp, b.orders, r, o);
  }

  lemma {:induction false} SameClaims(fp: Digest, os: seq<Order>, r: Order, o: Order)
    requires Lookup(OrderId, os, r.id) == Some(o) && ClaimOf(fp, r) == ClaimOf(fp, o) && r.key == o.key
    ensures ClaimsFor(fp, Upsert(OrderId, os, r)) == ClaimsFor(fp, os)
    ensures Distinct(OrderKey, os) ==> Distinct(OrderKey, Upsert(OrderId, os, r))
  {
    UpsertColumn(OrderId, OrderKey, os, r);
    UpsertColumn(OrderId, x => ClaimOf(fp, x), os, r);
    hide Upsert, ClaimOf, Lookup;
    var os' := Upsert(OrderId, os, r);
    assert forall i :: 0 <= i < |os| ==> ClaimOf(fp, os'[i]) == ClaimOf(fp, os[i]);
    forall i, j | Distinct(OrderKey, os) && 0 <= i < j < |os'| ensures OrderKey(os'[i]) != OrderKey(os'[j]) {
      assert OrderKey(os[i]) != OrderKey(os[j]);
    }
  }

  ghost predicate SameFixture(a: Books, b: Books) { Origin(a) == Origin(b) }

  predicate Fits(b: Books, o: Order) { o.quantity <= b.inv.initialQty && o.amount <= b.buyer.initialBalance }

  /** Every order, refunded or not, was affordable on its own: a refund returns what a purchase once took. */
  ghost predicate OrdersFit(b: Books) {
    forall o :: o in b.orders ==> Fits(b, o)
  }

  ghost predicate RefundsFit(b: Books) {
    forall o :: o in b.orders && o.state == REFUNDED ==> Fits(b, o)
  }

  lemma {:induction false} BuyFits(fp: Digest, b: Books, req: Request, oid: string)
    requires Balanced(fp, b) && CanBuy(b, req, oid) && OrdersFit(b)
    ensures OrdersFit(Bought(fp, b, req, oid))
  {
    OrderTotals(b);
    var o := OrderFor(b, req, oid);
    assert Fits(b, o);
    hide Balanced, Lookup, ValidPurchase;
    forall x | x in b.orders + [o] ensures Fits(b, x) {}
  }

  lemma {:induction false} RefundFits(b: Books, oid: string)
    requires CanRefund(b, oid) && OrdersFit(b)
    ensures OrdersFit(Refunded(b, oid))
  {
    var o := Lookup(OrderId, b.orders, oid).value;
    UpsertMembers(OrderId, b.orders, o.(state := REFUNDED));
    assert Fits(b, o);
  }

  lemma {:induction false} ApplyKeeps(fp: Digest, b: Books, op: Op)
    requires Balanced(fp, b)
    ensures Balanced(fp, Apply(fp, b, op)) && SameFixture(b, Apply(fp, b, op))
    ensures OrdersFit(b) ==> OrdersFit(Apply(fp, b, op))
  {
    hide Balanced, OrdersFit, CanBuy, CanRefund;
    match op
    case Buy(req, oid) =>
      if CanBuy(b, req, oid) {
        BuyBalanced(fp, b, req, oid);
        if OrdersFit(b) { BuyFits(fp, b, req, oid); }
      }
    case Refund(oid) =>
      if CanRefund(b, oid) {
        RefundBalanced(fp, b, oid);
        if OrdersFit(b) { RefundFits(b, oid); }
      }
  }

  lemma {:induction false} SerialKeeps(fp: Digest, b: Books, ops: seq<Op>)
    requires Balanced(fp, b)
    ensures Balanced(fp, Serial(fp, b, ops)) && SameFixture(b, Serial(fp, b, ops))
    ensures OrdersFit(b) ==> OrdersFit(Serial(fp, b, ops))
    decreases |ops|
  {
    hide Balanced, OrdersFit;
    if ops != [] {
      ApplyKeeps(fp, b, ops[0]);
      SerialKeeps(fp, Apply(fp, b, ops[0]), ops[1..]);
    }
  }

  lemma {:induction false} FreshBalanced(fp: Digest, b: Books)
    requires FixtureOk(b)
    ensures Balanced(fp, Origin(b)) && OrdersFit(Origin(b))
  {
  }

  // ---- the rows of a balanced case are determined by its orders ----

  lemma {:induction false} LedgerImage(os: seq<Order>, ps: seq<Order>)
    requires multiset(os) == multiset(ps)
    ensures multiset(LedgerFor(os)) == multiset(LedgerFor(ps))
  {
    forall e ensures multiset(LedgerFor(os))[e] == multiset(LedgerFor(ps))[e] {
      LedgerCount(os, e);
      LedgerCount(ps, e);
      SumPermutation(EntryCount(e), os, ps);
    }
  }

  lemma {:induction false} EventsImage(os: seq<Order>, ps: seq<Order>)
    requires multiset(os) == multiset(ps)
    ensures multiset(EventsFor(os)) == multiset(EventsFor(ps))
  {
    forall e ensures multiset(EventsFor(os))[e] == multiset(EventsFor(ps))[e] {
      EventsCount(os, e);
      EventsCount(ps, e);
      SumPermutation(EventCount(e), os, ps);
    }
  }

  lemma {:induction false} ClaimsImage(fp: Digest, os: seq<Order>, ps: seq<Order>)
    requires multiset(os) == multiset(ps)
    ensures multiset(ClaimsFor(fp, os)) == multiset(ClaimsFor(fp, ps))
  {
    forall c ensures multiset(ClaimsFor(fp, os))[c] == multiset(ClaimsFor(fp, ps))[c] {
      ClaimsCount(fp, os, c);
      ClaimsCount(fp, ps, c);
      SumPermutation(ClaimCount(fp, c), os, ps);
    }
  }

  lemma {:induction false} OrderImage(fp: Digest, os: seq<Order>, ps: seq<Order>)
    requires multiset(os) == multiset(ps)
    ensures multiset(LedgerFor(os)) == multiset(LedgerFor(ps)) && multiset(EventsFor(os)) == multiset(EventsFor(ps))
    ensures multiset(ClaimsFor(fp, os)) == multiset(ClaimsFor(fp, ps))
    ensures Sum(PaidAmount, os) == Sum(PaidAmount, ps) && Sum(PaidQuantity, os) == Sum(PaidQuantity, ps)
  {
    SumPermutation(PaidAmount, os, ps);
    SumPermutation(PaidQuantity, os, ps);
    LedgerImage(os, ps);
    EventsImage(os, ps);
    ClaimsImage(fp, os, ps);
  }

  lemma {:induction false} BalancedDetermined(fp: Digest, a: Books, b: Books)
    requires Balanced(fp, a) && Balanced(fp, b) && SameFixture(a, b) && multiset(a.orders) == multiset(b.orders)
    ensures SameRows(a, b)
  {
    OrderImage(fp, a.orders, b.orders);
    assert Origin(a).inv == Origin(b).inv && Origin(a).buyer == Origin(b).buyer && Origin(a).merchant == Origin(b).merchant;
    assert a.inv == Origin(a).inv.(available := a.inv.available) && b.inv == Origin(b).inv.(available := b.inv.available);
    assert a.buyer == Origin(a).buyer.(balance := a.buyer.balance) && b.buyer == Origin(b).buyer.(balance := b.buyer.balance);
    assert a.merchant == Origin(a).merchant.(balance := a.merchant.balance);
    assert b.merchant == Origin(b).merchant.(balance := b.merchant.balance);
  }

  lemma {:induction false} BalancedSameRows(fp: Digest, a: Books, b: Books)
    requires Balanced(fp, a) && SameRows(a, b)
    ensures Balanced(fp, b)
  {
    OrderImage(fp, a.orders, b.orders);
    SameRowsMembers(a.orders, b.orders);
    DistinctTransfer(OrderId, a.orders, b.orders);
    DistinctTransfer(OrderKey, a.orders, b.orders);
    forall o | o in b.orders ensures GoodOrder(b, o) { assert GoodOrder(a, o); }
  }

  // ---- oracle soundness: a passing audit is explained by a history ----

  ghost predicate Replayable(b: Books, o: Order) {
    GoodOrder(b, o) && ValidPurchase(Purchase(b.inv.caseId, o.key, o.quantity))
  }

  lemma {:induction false} FixtureColumns(a: Books, b: Books)
    requires SameFixture(a, b)
    ensures a.inv.(available := 0) == b.inv.(available := 0)
    ensures a.buyer.(balance := 0) == b.buyer.(balance := 0)
    ensures a.merchant.(balance := 0) == b.merchant.(balance := 0)
  {
    assert a.inv.(available := 0) == Origin(a).inv.(available := 0);
    assert a.buyer.(balance := 0) == Origin(a).buyer.(balance := 0);
    assert a.merchant.(balance := 0) == Origin(a).merchant.(balance := 0);
  }

  ghost predicate AllRefunded(os: seq<Order>) { forall x :: x in os ==> x.state == REFUNDED }

  /** With every earlier order refunded, stock and funds are back where the fixture put them. */
  lemma {:induction false} BackToStart(m: Books)
    requires Accounted(m) && Stocked(m) && AllRefunded(m.orders)
    ensures m.inv.available == m.inv.initialQty && m.buyer.balance == m.buyer.initialBalance
  {
    SumZero(PaidAmount, m.orders);
    SumZero(PaidQuantity, m.orders);
  }

  lemma {:induction false} ReplayBuy(fp: Digest, b: Books, m: Books, o: Order, rs: seq<Order>)
    requires Balanced(fp, m) && SameFixture(b, m) && AllRefunded(m.orders) && rs == m.orders + [o]
    requires Distinct(OrderId, rs) && Distinct(OrderKey, rs)
    requires Replayable(b, o) && Fits(b, o)
    ensures CanBuy(m, Purchase(b.inv.caseId, o.key, o.quantity), o.id)
    ensures OrderFor(m, Purchase(b.inv.caseId, o.key, o.quantity), o.id) == o.(state := PAID)
  {
    FixtureColumns(b, m);
    BackToStart(m);
    assert rs[|m.orders|] == o && m.orders == rs[..|m.orders|];
    FreshFor(fp, m, o, rs);
  }

  lemma {:induction false} ReplayRefund(fp: Digest, n: Books, os: seq<Order>, o: Order)
    requires Balanced(fp, n) && o.state == REFUNDED && n.orders == os + [o.(state := PAID)]
    ensures CanRefund(n, o.id) && Refunded(n, o.id).orders == os + [o]
  {
    var paid := o.(state := PAID);
    assert n.orders[|os|] == paid && paid in n.orders;
    LookupUnique(OrderId, n.orders, paid);
    LookupConcat(OrderId, os, [paid], o.id);
    forall x | x in os ensures x.id != o.id {
      var i :| 0 <= i < |os| && os[i] == x;
      assert n.orders[i] == x && OrderId(n.orders[i]) != OrderId(n.orders[|os|]);
    }
    UpsertLast(os, paid, o);
    assert paid.(state := REFUNDED) == o;
  }

  lemma {:induction false} PairSteps(fp: Digest, m: Books, req: Request, oid: string)
    requires CanBuy(m, req, oid) && CanRefund(Bought(fp, m, req, oid), oid)
    ensures Serial(fp, m, [Buy(req, oid), Refund(oid)]) == Refunded(Bought(fp, m, req, oid), oid)
    ensures SameFixture(m, Refunded(Bought(fp, m, req, oid), oid))
  {
    SerialPair(fp, m, Buy(req, oid), Refund(oid));
    hide Serial, CanBuy, CanRefund;
    assert Apply(fp, m, Buy(req, oid)) == Bought(fp, m, req, oid);
  }

  lemma {:induction false} PairBalanced(fp: Digest, b: Books, m: Books, o: Order, rs: seq<Order>)
    requires Balanced(fp, m) && SameFixture(b, m) && AllRefunded(m.orders) && rs == m.orders + [o]
    requires Distinct(OrderId, rs) && Distinct(OrderKey, rs) && o.state == REFUNDED
    requires Replayable(b, o) && Fits(b, o)
    ensures var req := Purchase(b.inv.caseId, o.key, o.quantity); var n := Bought(fp, m, req, o.id);
      CanBuy(m, req, o.id) && CanRefund(n, o.id) && Refunded(n, o.id).orders == rs && Balanced(fp, Refunded(n, o.id))
  {
    var req: Request := Purchase(b.inv.caseId, o.key, o.quantity);
    ReplayBuy(fp, b, m, o, rs);
    BuyBalanced(fp, m, req, o.id);
    var n := Bought(fp, m, req, o.id);
    assert n.orders == m.orders + [o.(state := PAID)];
    hide Balanced, Replayable, Fits, Distinct, CanBuy, CanRefund, AllRefunded, Bought, Refunded, OrderFor;
    ReplayRefund(fp, n, m.orders, o);
    RefundBalanced(fp, n, o.id);
  }

  /** One purchase followed at once by its refund, when every earlier order is refunded too. */
  lemma {:induction false} ReplayOneRefunded(fp: Digest, b: Books, m: Books, rs: seq<Order>, o: Order) returns (ops: seq<Op>)
    requires Balanced(fp, m) && SameFixture(b, m) && AllRefunded(m.orders) && rs == m.orders + [o]
    requires Distinct(OrderId, rs) && Distinct(OrderKey, rs) && o.state == REFUNDED
    requires Replayable(b, o) && Fits(b, o)
    ensures Balanced(fp, Serial(fp, m, ops)) && Serial(fp, m, ops).orders == rs && SameFixture(b, Serial(fp, m, ops))
  {
    var req: Request := Purchase(b.inv.caseId, o.key, o.quantity);
    hide Balanced, Replayable, Fits, Distinct, CanBuy, CanRefund, AllRefunded, Bought, Refunded, Serial;
    PairBalanced(fp, b, m, o, rs);
    PairSteps(fp, m, req, o.id);
    ops := [Buy(req, o.id), Refund(o.id)];
  }

  /** Buy and at once refund: affordable one at a time because every refund returns everything. */
  lemma {:induction false} ReplayRefunded(fp: Digest, b: Books, rs: seq<Order>) returns (ops: seq<Op>)
    requires FixtureOk(b)
    requires Distinct(OrderId, rs) && Distinct(OrderKey, rs)
    requires forall o :: o in rs ==> Replayable(b, o) && o.state == REFUNDED && Fits(b, o)
    ensures Balanced(fp, Serial(fp, Origin(b), ops)) && Serial(fp, Origin(b), ops).orders == rs
    ensures SameFixture(b, Serial(fp, Origin(b), ops))
    decreases |rs|
  {
    ops := [];
    if rs == [] {
      FreshBalanced(fp, b);
    } else {
      hide Balanced;
      var p, o := rs[..|rs| - 1], rs[|rs| - 1];
      assert rs == p + [o] && o in rs;
      forall x | x in p ensures x in rs {}
      var before := ReplayRefunded(fp, b, p);
      var m := Serial(fp, Origin(b), before);
      var more := ReplayOneRefunded(fp, b, m, rs, o);
      ops := before + more;
      SerialConcat(fp, Origin(b), before, more);
    }
  }

  lemma {:induction false} UpsertLast(os: seq<Order>, x: Order, y: Order)
    requires Lookup(OrderId, os, x.id).None? && x.id == y.id
    ensures Upsert(OrderId, os + [x], y) == os + [y]
  {
    if os != [] {
      assert (os + [x])[1..] == os[1..] + [x];
      UpsertLast(os[1..], x, y);
    }
  }

  /** A key and an id that no earlier order uses are free in the tables. */
  lemma {:induction false} FreshFor(fp: Digest, m: Books, o: Order, all: seq<Order>)
    requires Balanced(fp, m) && Distinct(OrderId, all) && Distinct(OrderKey, all)
    requires exists n :: 0 <= n < |all| && all[n] == o && n == |m.orders| && m.orders == all[..n]
    ensures Lookup(OrderId, m.orders, o.id).None? && Lookup(ClaimKey, m.requests, o.key).None?
  {
    var n :| 0 <= n < |all| && all[n] == o && n == |m.orders| && m.orders == all[..n];
    forall x | x in m.orders ensures x.id != o.id && x.key != o.key {
      var i :| 0 <= i < n && all[i] == x;
      assert OrderId(all[i]) != OrderId(all[n]) && OrderKey(all[i]) != OrderKey(all[n]);
    }
    SameRowsMembers(m.requests, ClaimsFor(fp, m.orders));
    forall c | c in m.requests ensures ClaimKey(c) != o.key {
      var i :| 0 <= i < |m.orders| && ClaimsFor(fp, m.orders)[i] == c;
      assert m.orders[i] in m.orders;
    }
  }

  ghost predicate PaidSuffix(m: Books, all: seq<Order>) {
    && |m.orders| <= |all| && m.orders == all[..|m.orders|]
    && Distinct(OrderId, all) && Distinct(OrderKey, all)
    && (forall o :: o in all[|m.orders|..] ==> Replayable(m, o) && o.state == PAID)
    && Sum(PaidQuantity, all[|m.orders|..]) <= m.inv.available
    && Sum(PaidAmount, all[|m.orders|..]) <= m.buyer.balance
  }

  lemma {:induction false} ReplayNextPaid(fp: Digest, m: Books, all: seq<Order>)
    requires Balanced(fp, m) && PaidSuffix(m, all) && |m.orders| < |all|
    ensures var o := all[|m.orders|]; var req := Purchase(m.inv.caseId, o.key, o.quantity);
      ValidPurchase(req) && CanBuy(m, req, o.id) && OrderFor(m, req, o.id) == o
  {
    var o, rest := all[|m.orders|], all[|m.orders|..];
    assert rest[0] == o && o in rest && Replayable(m, o);
    hide Balanced, Distinct, Lookup;
    forall x | x in rest ensures PaidAmount(x) >= 0 && PaidQuantity(x) >= 0 { assert Replayable(m, x); }
    SumNonNegative(PaidQuantity, rest);
    SumNonNegative(PaidAmount, rest);
    FreshFor(fp, m, o, all);
  }

  lemma {:induction false} PaidSuffixStep(fp: Digest, m: Books, all: seq<Order>)
    requires PaidSuffix(m, all) && |m.orders| < |all|
    requires var o := all[|m.orders|]; OrderFor(m, Purchase(m.inv.caseId, o.key, o.quantity), o.id) == o
    ensures var o := all[|m.orders|]; PaidSuffix(Bought(fp, m, Purchase(m.inv.caseId, o.key, o.quantity), o.id), all)
  {
    var n := |m.orders|;
    var o := all[n];
    var m' := Bought(fp, m, Purchase(m.inv.caseId, o.key, o.quantity), o.id);
    assert all[n..] == [o] + all[n + 1..];
    assert o in all[n..];
    assert m'.orders == all[..n + 1];
    forall x | x in all[n + 1..] ensures Replayable(m', x) && x.state == PAID { assert x in all[n..] && Replayable(m, x); }
  }

  /** Paid orders are then bought in turn: their total fits because nothing was oversold or overdrawn. */
  lemma {:induction false} ReplayPaid(fp: Digest, m: Books, all: seq<Order>) returns (ops: seq<Op>)
    requires Balanced(fp, m) && PaidSuffix(m, all)
    ensures Balanced(fp, Serial(fp, m, ops)) && Serial(fp, m, ops).orders == all && SameFixture(m, Serial(fp, m, ops))
    decreases |all| - |m.orders|
  {
    ops := [];
    var n := |m.orders|;
    if n < |all| {
      var o := all[n];
      ReplayNextPaid(fp, m, all);
      var req: Request := Purchase(m.inv.caseId, o.key, o.quantity);
      BuyBalanced(fp, m, req, o.id);
      PaidSuffixStep(fp, m, all);
      hide Balanced, PaidSuffix, CanBuy;
      var m' := Bought(fp, m, req, o.id);
      var later := ReplayPaid(fp, m', all);
      ops := [Buy(req, o.id)] + later;
      SerialCons(fp, m, Buy(req, o.id), later);
    }
  }

  function Refundeds(os: seq<Order>): seq<Order> {
    if os == [] then [] else (if os[0].state == REFUNDED then [os[0]] else []) + Refundeds(os[1..])
  }

  function Paids(os: seq<Order>): seq<Order> {
    if os == [] then [] else (if os[0].state == REFUNDED then [] else [os[0]]) + Paids(os[1..])
  }

  lemma {:induction false} PartitionMembers(os: seq<Order>)
    ensures forall o :: o in Refundeds(os) ==> o.state == REFUNDED && o in os
    ensures forall o :: o in Paids(os) ==> o.state != REFUNDED && o in os
  {
    if os != [] { PartitionMembers(os[1..]); }
  }

  lemma {:induction false} PartitionRows(os: seq<Order>)
    ensures multiset(Refundeds(os)) + multiset(Paids(os)) == multiset(os)
  {
    if os != [] {
      PartitionRows(os[1..]);
      assert os == [os[0]] + os[1..];
    }
  }

  lemma {:induction false} Partition(os: seq<Order>)
    ensures multiset(Refundeds(os) + Paids(os)) == multiset(os)
    ensures forall o :: o in Refundeds(os) ==> o.state == REFUNDED && o in os
    ensures forall o :: o in Paids(os) ==> o.state != REFUNDED && o in os
  {
    hide Refundeds, Paids;
    PartitionMembers(os);
    PartitionRows(os);
  }

  lemma {:induction false} ExplainRefunds(fp: Digest, b: Books) returns (ops: seq<Op>)
    requires Balanced(fp, b) && RefundsFit(b)
    ensures Balanced(fp, Serial(fp, Origin(b), ops)) && SameFixture(b, Serial(fp, Origin(b), ops))
    ensures Serial(fp, Origin(b), ops).orders == Refundeds(b.orders)
  {
    var rs, ps := Refundeds(b.orders), Paids(b.orders);
    Partition(b.orders);
    DistinctTransfer(OrderId, b.orders, rs + ps);
    DistinctTransfer(OrderKey, b.orders, rs + ps);
    PrefixDistinct(OrderId, rs, ps);
    PrefixDistinct(OrderKey, rs, ps);
    ops := ReplayRefunded(fp, b, rs);
  }

  lemma {:induction false} PaidsLeft(fp: Digest, b: Books, m: Books)
    requires Balanced(fp, b) && Balanced(fp, m) && SameFixture(b, m) && m.orders == Refundeds(b.orders)
    ensures PaidSuffix(m, Refundeds(b.orders) + Paids(b.orders))
  {
    var rs, ps := Refundeds(b.orders), Paids(b.orders);
    var all := rs + ps;
    Partition(b.orders);
    DistinctTransfer(OrderId, b.orders, all);
    DistinctTransfer(OrderKey, b.orders, all);
    FixtureColumns(b, m);
    Headroom(b, m, rs, ps);
    assert all[..|rs|] == rs && all[|rs|..] == ps;
    forall o | o in ps ensures Replayable(m, o) && o.state == PAID { assert o in b.orders && GoodOrder(b, o); }
  }

  lemma {:induction false} Explain(fp: Digest, b: Books) returns (ops: seq<Op>)
    requires Balanced(fp, b) && RefundsFit(b)
    ensures SameRows(Serial(fp, Origin(b), ops), b)
  {
    hide Balanced, RefundsFit, PaidSuffix, SameRows;
    var all := Refundeds(b.orders) + Paids(b.orders);
    Partition(b.orders);
    var first := ExplainRefunds(fp, b);
    var m := Serial(fp, Origin(b), first);
    PaidsLeft(fp, b, m);
    var second := ReplayPaid(fp, m, all);
    ops := first + second;
    SerialConcat(fp, Origin(b), first, second);
    BalancedDetermined(fp, Serial(fp, Origin(b), ops), b);
  }

  lemma {:induction false} PrefixDistinct<T>(key: T -> string, s: seq<T>, t: seq<T>)
    requires Distinct(key, s + t)
    ensures Distinct(key, s)
  {
    forall i, j | 0 <= i < j < |s| ensures key(s[i]) != key(s[j]) { assert key((s + t)[i]) != key((s + t)[j]); }
  }

  lemma {:induction false} Headroom(b: Books, m: Books, rs: seq<Order>, ps: seq<Order>)
    requires Accounted(b) && Stocked(b) && Accounted(m) && Stocked(m) && m.orders == rs
    requires m.inv.initialQty == b.inv.initialQty && m.buyer.initialBalance == b.buyer.initialBalance
    requires multiset(rs + ps) == multiset(b.orders) && forall o :: o in rs ==> o.state == REFUNDED
    ensures Sum(PaidQuantity, ps) <= m.inv.available && Sum(PaidAmount, ps) <= m.buyer.balance
  {
    SumZero(PaidAmount, rs);
    SumZero(PaidQuantity, rs);
    SumConcat(PaidAmount, rs, ps);
    SumConcat(PaidQuantity, rs, ps);
    SumPermutation(PaidAmount, rs + ps, b.orders);
    SumPermutation(PaidQuantity, rs + ps, b.orders);
  }

  /**
   * Oracle soundness and completeness. Within the row limit, a case passes the audit with every refunded
   * order affordable on its own if and only if some serial history of protected purchases and refunds,
   * started from the case's own fixture, produces exactly those rows in some order.
   */
  lemma {:induction false} AuditSound(fp: Digest, b: Books)
    requires b.buyer.owner == BUYER && b.merchant.owner == MERCHANT
    ensures (Passes(fp, Rows(b), true) && RefundsFit(b)) <==>
      (!Oversize(Rows(b)) && FixtureOk(b) && exists ops :: SameRows(Serial(fp, Origin(b), ops), b))
  {
    hide Passes, Balanced, SameRows;
    AuditExact(fp, b);
    if Passes(fp, Rows(b), true) && RefundsFit(b) {
      var ops := Explain(fp, b);
      assert SameRows(Serial(fp, Origin(b), ops), b);
      assert FixtureOk(b) by { BalancedFixture(fp, b); }
    }
    if !Oversize(Rows(b)) && FixtureOk(b) && exists ops :: SameRows(Serial(fp, Origin(b), ops), b) {
      var ops :| SameRows(Serial(fp, Origin(b), ops), b);
      HistoryBalanced(fp, b, ops);
    }
  }

  lemma {:induction false} BalancedFixture(fp: Digest, b: Books)
    requires Balanced(fp, b)
    ensures FixtureOk(b)
  {
  }

  lemma {:induction false} HistoryBalanced(fp: Digest, b: Books, ops: seq<Op>)
    requires FixtureOk(b) && SameRows(Serial(fp, Origin(b), ops), b)
    ensures Balanced(fp, b) && RefundsFit(b)
  {
    var f := Serial(fp, Origin(b), ops);
    FreshBalanced(fp, b);
    SerialKeeps(fp, Origin(b), ops);
    BalancedSameRows(fp, f, b);
    SameRowsMembers(f.orders, b.orders);
  }
}
