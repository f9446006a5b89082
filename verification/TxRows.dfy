/** The six tables of the transaction lab: row types, one case's rows, and what one order contributes. */
module TxRows {
  import opened Prelude

  datatype Purchase = Purchase(caseId: string, key: string, quantity: int)

  predicate CaseIdChar(c: char, first: bool) {
    'a' <= c <= 'z' || (!first && ('0' <= c <= '9' || c == '-'))
  }

  predicate KeyChar(c: char) {
    'a' <= c <= 'z' || 'A' <= c <= 'Z' || '0' <= c <= '9' || c == '_' || c == '-'
  }

  predicate ValidPurchase(p: Purchase) {
    && 1 <= |p.caseId| <= 40
    && (forall i :: 0 <= i < |p.caseId| ==> CaseIdChar(p.caseId[i], i == 0))
    && 1 <= |p.key| <= 64
    && (forall i :: 0 <= i < |p.key| ==> KeyChar(p.key[i]))
    && 1 <= p.quantity <= 20
  }

  /** A constructed Purchase object: construction refuses everything else. */
  type Request = p: Purchase | ValidPurchase(p) witness Purchase("a", "k", 1)

  /** The request fingerprint. Nothing is assumed about it, not even injectivity. */
  type Digest = Purchase -> string

  datatype Inventory = Inventory(caseId: string, initialQty: int, available: int, unitPrice: int)
  datatype Wallet = Wallet(caseId: string, owner: string, initialBalance: int, balance: int)
  datatype Claim = Claim(caseId: string, key: string, fingerprint: string, orderId: string)
  datatype Order = Order(id: string, caseId: string, key: string, quantity: int, amount: int, state: string)
  datatype Entry = Entry(caseId: string, orderId: string, owner: string, phase: string, delta: int)
  /** What the payload text decodes to; Unreadable covers everything that is not this exact object. */
  datatype Payload = Doc(orderId: string, quantity: int, amount: int, state: string) | Unreadable
  datatype Event = Event(caseId: string, orderId: string, kind: string, payload: Payload)

  const PAID := "paid"
  const REFUNDED := "refunded"
  const BUYER := "buyer"
  const MERCHANT := "merchant"

  function OrderId(o: Order): string { o.id }
  function OrderKey(o: Order): string { o.key }
  function ClaimKey(c: Claim): string { c.key }
  function ClaimTarget(c: Claim): string { c.orderId }

  function PaidQuantity(o: Order): int { if o.state == PAID then o.quantity else 0 }
  function PaidAmount(o: Order): int { if o.state == PAID then o.amount else 0 }
  function Delta(e: Entry): int { e.delta }
  function DeltaOf(owner: string): Entry -> int { (e: Entry) => if e.owner == owner then e.delta else 0 }

  // ---- the rows one order contributes ----

  function ClaimOf(fp: Digest, o: Order): Claim {
    Claim(o.caseId, o.key, fp(Purchase(o.caseId, o.key, o.quantity)), o.id)
  }

  function LedgerRows(o: Order, phase: string): seq<Entry> {
    var sign := if phase == PAID then -1 else 1;
    [Entry(o.caseId, o.id, BUYER, phase, sign * o.amount), Entry(o.caseId, o.id, MERCHANT, phase, -sign * o.amount)]
  }

  function EventRow(o: Order, phase: string): Event {
    Event(o.caseId, o.id, phase, Doc(o.id, o.quantity, o.amount, phase))
  }

  function OrderLedger(o: Order): seq<Entry> {
    LedgerRows(o, PAID) + if o.state == REFUNDED then LedgerRows(o, REFUNDED) else []
  }

  function OrderEvents(o: Order): seq<Event> {
    [EventRow(o, PAID)] + if o.state == REFUNDED then [EventRow(o, REFUNDED)] else []
  }

  function ClaimsFor(fp: Digest, os: seq<Order>): seq<Claim> {
    seq(|os|, i requires 0 <= i < |os| => ClaimOf(fp, os[i]))
  }

  function LedgerFor(os: seq<Order>): seq<Entry> {
    if os == [] then [] else OrderLedger(os[0]) + LedgerFor(os[1..])
  }

  function EventsFor(os: seq<Order>): seq<Event> {
    if os == [] then [] else OrderEvents(os[0]) + EventsFor(os[1..])
  }

  // ---- multiplicities: how often a row occurs among the rows of a list of orders ----

  ghost function EntryCount(e: Entry): Order -> int { (o: Order) => multiset(OrderLedger(o))[e] }
  ghost function EventCount(e: Event): Order -> int { (o: Order) => multiset(OrderEvents(o))[e] }
  ghost function ClaimCount(fp: Digest, c: Claim): Order -> int { (o: Order) => if ClaimOf(fp, o) == c then 1 else 0 }

  lemma {:induction false} LedgerCount(os: seq<Order>, e: Entry)
    ensures multiset(LedgerFor(os))[e] == Sum(EntryCount(e), os)
  {
    if os != [] { LedgerCount(os[1..], e); }
  }

  lemma {:induction false} EventsCount(os: seq<Order>, e: Event)
    ensures multiset(EventsFor(os))[e] == Sum(EventCount(e), os)
  {
    if os != [] { EventsCount(os[1..], e); }
  }

  lemma {:induction false} ClaimsCount(fp: Digest, os: seq<Order>, c: Claim)
    ensures multiset(ClaimsFor(fp, os))[c] == Sum(ClaimCount(fp, c), os)
  {
    if os != [] {
      ClaimsCount(fp, os[1..], c);
      assert ClaimsFor(fp, os) == [ClaimOf(fp, os[0])] + ClaimsFor(fp, os[1..]);
    }
  }

  // ---- one case's share of the six tables ----

  datatype Books = Books(inv: Inventory, buyer: Wallet, merchant: Wallet,
                         requests: seq<Claim>, orders: seq<Order>, ledger: seq<Entry>, events: seq<Event>)

  /** The same rows, listed in any order. */
  ghost predicate SameRows(a: Books, b: Books) {
    && a.inv == b.inv && a.buyer == b.buyer && a.merchant == b.merchant
    && multiset(a.requests) == multiset(b.requests)
    && multiset(a.orders) == multiset(b.orders)
    && multiset(a.ledger) == multiset(b.ledger)
    && multiset(a.events) == multiset(b.events)
  }

  function Fixture(caseId: string, stock: int, balance: int, price: int): Books {
    Books(Inventory(caseId, stock, stock, price),
          Wallet(caseId, BUYER, balance, balance), Wallet(caseId, MERCHANT, 0, 0), [], [], [], [])
  }

  /** The fixture a case started from, read off its immutable columns. */
  function Origin(b: Books): Books {
    Books(b.inv.(available := b.inv.initialQty), b.buyer.(balance := b.buyer.initialBalance),
          b.merchant.(balance := b.merchant.initialBalance), [], [], [], [])
  }

  // ---- when one case's rows are right ----

  ghost predicate FixtureOk(b: Books) {
    && b.inv.initialQty >= 0 && b.inv.unitPrice > 0
    && b.buyer.initialBalance >= 0 && b.merchant.initialBalance >= 0
    && b.buyer.owner == BUYER && b.merchant.owner == MERCHANT
    && b.buyer.caseId == b.inv.caseId && b.merchant.caseId == b.inv.caseId
  }

  ghost predicate GoodOrder(b: Books, o: Order) {
    && o.caseId == b.inv.caseId && o.quantity > 0
    && o.amount == o.quantity * b.inv.unitPrice
    && (o.state == PAID || o.state == REFUNDED)
  }

  /** Orders, money, ledger and events agree; says nothing about stock, claims or request keys. */
  ghost predicate Accounted(b: Books) {
    && FixtureOk(b)
    && Distinct(OrderId, b.orders)
    && (forall o :: o in b.orders ==> GoodOrder(b, o))
    && b.buyer.balance == b.buyer.initialBalance - Sum(PaidAmount, b.orders)
    && b.buyer.balance >= 0
    && b.merchant.balance == b.merchant.initialBalance + Sum(PaidAmount, b.orders)
    && multiset(b.ledger) == multiset(LedgerFor(b.orders))
    && multiset(b.events) == multiset(EventsFor(b.orders))
  }

  ghost predicate Stocked(b: Books) {
    b.inv.available + Sum(PaidQuantity, b.orders) == b.inv.initialQty && b.inv.available >= 0
  }

  ghost predicate Claimed(fp: Digest, b: Books) {
    && multiset(b.requests) == multiset(ClaimsFor(fp, b.orders))
    && forall o :: o in b.orders ==> ValidPurchase(Purchase(b.inv.caseId, o.key, o.quantity))
  }

  /** The whole-state invariant of protected checkout: every table is the image of the order list. */
  ghost predicate Balanced(fp: Digest, b: Books) {
    Accounted(b) && Stocked(b) && Claimed(fp, b) && Distinct(OrderKey, b.orders)
  }

  lemma OrderTotals(b: Books)
    requires forall o :: o in b.orders ==> GoodOrder(b, o)
    requires b.inv.unitPrice > 0
    ensures Sum(PaidAmount, b.orders) >= 0 && Sum(PaidQuantity, b.orders) >= 0
    ensures forall o :: o in b.orders && o.state == PAID ==>
      0 < o.quantity <= Sum(PaidQuantity, b.orders) && 0 < o.amount <= Sum(PaidAmount, b.orders)
  {
    forall o | o in b.orders ensures o.amount > 0 { assert GoodOrder(b, o); }
    SumNonNegative(PaidAmount, b.orders);
    SumNonNegative(PaidQuantity, b.orders);
    forall o | o in b.orders && o.state == PAID
      ensures 0 < o.quantity <= Sum(PaidQuantity, b.orders) && 0 < o.amount <= Sum(PaidAmount, b.orders)
    {
      assert PaidAmount(o) == o.amount && PaidQuantity(o) == o.quantity;
    }
  }
}
