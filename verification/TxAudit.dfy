/** The row-only oracle: it sees table rows, never driver success flags. */
module TxAudit {
  import opened Prelude
  import opened TxRows

  datatype Snapshot = Snapshot(inventory: seq<Inventory>, wallets: seq<Wallet>, requests: seq<Claim>,
                               orders: seq<Order>, ledger: seq<Entry>, events: seq<Event>)

  const MAX_ROWS := 1000

  datatype Check =
    | FixtureValues | UniqueOrderId | StockConservation | StockBounds | MoneyConservation | OneOrderPerRequest
    | KnownLedgerOwners | LedgerZeroSum | LedgerNoOrphans | EventsNoOrphans
    | UniqueClaim | ClaimsNoOrphans | ClaimTargetsUnique | ClaimRequestIdentity
    | WalletValueTypes | NonnegativeBalance | WalletLedgerAgreement
    | OrderValues | ClaimPayloadAndOrder | OrderLedgerExact | OrderEventsExact | EventPayloadMatches

  /** subject is the wallet owner or the order id, and empty for the checks over a whole table. */
  datatype Violation = Violation(check: Check, subject: string)

  datatype AuditError = Oversized | FixtureShape | CrossCase | WalletIdentities | InvalidPurchase
  datatype Verdict = Raised(error: AuditError) | Report(violations: seq<Violation>)

  // ---- Counter comprehensions ----

  function Entries(ledger: seq<Entry>, oid: string): multiset<(string, string, int)> {
    if ledger == [] then multiset{}
    else
      (if ledger[0].orderId == oid then multiset{(ledger[0].owner, ledger[0].phase, ledger[0].delta)} else multiset{})
      + Entries(ledger[1..], oid)
  }

  function Kinds(events: seq<Event>, oid: string): multiset<string> {
    if events == [] then multiset{}
    else (if events[0].orderId == oid then multiset{events[0].kind} else multiset{}) + Kinds(events[1..], oid)
  }

  function ExpectedEntries(o: Order): multiset<(string, string, int)> {
    multiset{(BUYER, PAID, -o.amount), (MERCHANT, PAID, o.amount)}
    + if o.state == REFUNDED then multiset{(BUYER, REFUNDED, o.amount), (MERCHANT, REFUNDED, -o.amount)} else multiset{}
  }

  function ExpectedKinds(o: Order): multiset<string> {
    multiset{PAID} + if o.state == REFUNDED then multiset{REFUNDED} else multiset{}
  }

  // ---- the specification: which checks a snapshot breaks ----

  predicate Oversize(s: Snapshot) {
    || |s.inventory| > MAX_ROWS || |s.wallets| > MAX_ROWS || |s.requests| > MAX_ROWS
    || |s.orders| > MAX_ROWS || |s.ledger| > MAX_ROWS || |s.events| > MAX_ROWS
  }

  predicate Shaped(s: Snapshot) { |s.inventory| == 1 && |s.wallets| == 2 }

  predicate OneCase(s: Snapshot)
    requires Shaped(s)
  {
    var c := s.inventory[0].caseId;
    && (forall w :: w in s.wallets ==> w.caseId == c) && (forall r :: r in s.requests ==> r.caseId == c)
    && (forall o :: o in s.orders ==> o.caseId == c) && (forall e :: e in s.ledger ==> e.caseId == c)
    && (forall e :: e in s.events ==> e.caseId == c)
  }

  predicate KnownWallets(s: Snapshot)
    requires Shaped(s)
  {
    {s.wallets[0].owner, s.wallets[1].owner} == {BUYER, MERCHANT}
  }

  function Orders(s: Snapshot): seq<Order> { Dict(OrderId, s.orders) }
  function Claims(s: Snapshot): seq<Claim> { Dict(ClaimKey, s.requests) }

  predicate Malformed(s: Snapshot, requireClaims: bool) {
    Oversize(s) || !Shaped(s) || !OneCase(s) || !KnownWallets(s)
    || (requireClaims && exists o :: o in Orders(s) && !Constructible(s, o))
  }

  predicate DistinctBy<T>(key: T -> string, s: seq<T>)
    ensures DistinctBy(key, s) <==> Distinct(key, s)
  {
    forall i, j :: 0 <= i < j < |s| ==> key(s[i]) != key(s[j])
  }

  predicate SameKey(c: Claim, o: Option<Order>) { o.Some? && o.value.key == c.key }

  predicate StockFault(s: Snapshot, check: Check)
    requires Shaped(s)
  {
    var inv, os := s.inventory[0], Orders(s);
    match check
    case FixtureValues => !(inv.initialQty >= 0 && inv.unitPrice > 0)
    case UniqueOrderId => |os| != |s.orders|
    case StockConservation => inv.available + Sum(PaidQuantity, os) != inv.initialQty
    case StockBounds => !(0 <= inv.available <= inv.initialQty)
    case MoneyConservation =>
      s.wallets[0].balance + s.wallets[1].balance != s.wallets[0].initialBalance + s.wallets[1].initialBalance
    case OneOrderPerRequest => !DistinctBy(OrderKey, os)
    case _ => false
  }

  predicate LedgerFault(ledger: seq<Entry>, events: seq<Event>, os: seq<Order>, check: Check) {
    match check
    case KnownLedgerOwners => exists e :: e in ledger && e.owner != BUYER && e.owner != MERCHANT
    case LedgerZeroSum => Sum(Delta, ledger) != 0
    case LedgerNoOrphans => exists e :: e in ledger && Lookup(OrderId, os, e.orderId).None?
    case EventsNoOrphans => exists e :: e in events && Lookup(OrderId, os, e.orderId).None?
    case _ => false
  }

  predicate ClaimFault(requests: seq<Claim>, os: seq<Order>, check: Check) {
    var cs := Dict(ClaimKey, requests);
    match check
    case UniqueClaim => |cs| != |requests|
    case ClaimsNoOrphans => exists c :: c in cs && Lookup(OrderId, os, c.orderId).None?
    case ClaimTargetsUnique => !DistinctBy(ClaimTarget, cs)
    case ClaimRequestIdentity => exists c :: c in cs && !SameKey(c, Lookup(OrderId, os, c.orderId))
    case _ => false
  }

  predicate TableFault(s: Snapshot, check: Check)
    requires Shaped(s)
  {
    StockFault(s, check) || LedgerFault(s.ledger, s.events, Orders(s), check) || ClaimFault(s.requests, Orders(s), check)
  }

  predicate WalletFault(s: Snapshot, w: Wallet, check: Check) {
    match check
    case WalletValueTypes => w.initialBalance < 0
    case NonnegativeBalance => w.balance < 0
    case WalletLedgerAgreement => w.balance != w.initialBalance + Sum(DeltaOf(w.owner), s.ledger)
    case _ => false
  }

  predicate PayloadMatches(o: Order, e: Event) { e.payload == Doc(o.id, o.quantity, o.amount, e.kind) }

  predicate OrderFault(fp: Digest, s: Snapshot, requireClaims: bool, o: Order, check: Check)
    requires Shaped(s)
  {
    var inv := s.inventory[0];
    match check
    case OrderValues =>
      !(o.quantity > 0 && o.amount == o.quantity * inv.unitPrice && (o.state == PAID || o.state == REFUNDED))
    case ClaimPayloadAndOrder => requireClaims &&
      var c := Lookup(ClaimKey, Claims(s), o.key);
      !(c.Some? && c.value.orderId == o.id && c.value.fingerprint == fp(Purchase(inv.caseId, o.key, o.quantity)))
    case OrderLedgerExact => Entries(s.ledger, o.id) != ExpectedEntries(o)
    case OrderEventsExact => Kinds(s.events, o.id) != ExpectedKinds(o)
    case EventPayloadMatches => exists e :: e in s.events && e.orderId == o.id && !PayloadMatches(o, e)
    case _ => false
  }

  ghost predicate Broken(fp: Digest, s: Snapshot, requireClaims: bool, v: Violation)
    requires Shaped(s)
  {
    || (v.subject == "" && TableFault(s, v.check))
    || WalletBroken(s, s.wallets, v)
    || OrderBroken(fp, s, requireClaims, Orders(s), v)
  }

  ghost predicate WalletBroken(s: Snapshot, ws: seq<Wallet>, v: Violation) {
    exists w :: w in ws && v.subject == w.owner && WalletFault(s, w, v.check)
  }

  ghost predicate OrderBroken(fp: Digest, s: Snapshot, requireClaims: bool, os: seq<Order>, v: Violation)
    requires Shaped(s)
  {
    exists o :: o in os && v.subject == o.id && OrderFault(fp, s, requireClaims, o, v.check)
  }

  ghost predicate Passes(fp: Digest, s: Snapshot, requireClaims: bool) {
    !Malformed(s, requireClaims) && forall v :: !Broken(fp, s, requireClaims, v)
  }

  // ---- the oracle itself ----

  const STOCK_CHECKS := [FixtureValues, UniqueOrderId, StockConservation, StockBounds, MoneyConservation, OneOrderPerRequest]
  const LEDGER_CHECKS := [KnownLedgerOwners, LedgerZeroSum, LedgerNoOrphans, EventsNoOrphans]
  const CLAIM_CHECKS := [UniqueClaim, ClaimsNoOrphans, ClaimTargetsUnique, ClaimRequestIdentity]
  const WALLET_CHECKS := [WalletValueTypes, NonnegativeBalance, WalletLedgerAgreement]
  const ORDER_CHECKS := [OrderValues, ClaimPayloadAndOrder, OrderLedgerExact, OrderEventsExact]

  /** One `check(name, ok)` call after another. */
  function RunChecks(checks: seq<Check>, fault: Check -> bool, subject: string): (r: seq<Violation>)
    ensures forall v :: v in r <==> v.subject == subject && v.check in checks && fault(v.check)
  {
    if checks == [] then []
    else (if fault(checks[0]) then [Violation(checks[0], subject)] else []) + RunChecks(checks[1..], fault, subject)
  }

  method OrderViolations(fp: Digest, s: Snapshot, requireClaims: bool, o: Order) returns (found: seq<Violation>)
    requires Shaped(s)
    ensures forall v :: v in found <==> v.subject == o.id && OrderFault(fp, s, requireClaims, o, v.check)
  {
    found := RunChecks(ORDER_CHECKS, c => Shaped(s) && OrderFault(fp, s, requireClaims, o, c), o.id);
    ghost var checked := found;
    for i := 0 to |s.events|
      invariant forall v :: v in found <==>
        (v in checked || (v == Violation(EventPayloadMatches, o.id)
                          && exists e :: e in s.events[..i] && e.orderId == o.id && !PayloadMatches(o, e)))
    {
      assert s.events[..i + 1] == s.events[..i] + [s.events[i]];
      if s.events[i].orderId == o.id && !PayloadMatches(o, s.events[i]) {
        found := found + [Violation(EventPayloadMatches, o.id)];
      }
    }
    assert s.events[..|s.events|] == s.events;
    assert forall c :: OrderFault(fp, s, requireClaims, o, c) ==> c in ORDER_CHECKS || c == EventPayloadMatches;
  }

  predicate IsTableCheck(c: Check) { c in STOCK_CHECKS || c in LEDGER_CHECKS || c in CLAIM_CHECKS }

  lemma TableChecksComplete(s: Snapshot, c: Check)
    requires Shaped(s) && TableFault(s, c)
    ensures IsTableCheck(c)
  {
    if c.FixtureValues? || c.UniqueOrderId? || c.StockConservation? {
    } else if c.StockBounds? || c.MoneyConservation? || c.OneOrderPerRequest? {
    } else if c.KnownLedgerOwners? || c.LedgerZeroSum? || c.LedgerNoOrphans? || c.EventsNoOrphans? {
    } else {
      assert c.UniqueClaim? || c.ClaimsNoOrphans? || c.ClaimTargetsUnique? || c.ClaimRequestIdentity?;
    }
  }

  method TableViolations(s: Snapshot) returns (found: seq<Violation>)
    requires Shaped(s)
    ensures forall v :: v in found <==> v.subject == "" && TableFault(s, v.check)
  {
    var fault := c => Shaped(s) && TableFault(s, c);
    var a, b, c := RunChecks(STOCK_CHECKS, fault, ""), RunChecks(LEDGER_CHECKS, fault, ""), RunChecks(CLAIM_CHECKS, fault, "");
    found := a + b + c;
    forall v ensures v in found <==> v.subject == "" && TableFault(s, v.check) {
      assert v in found <==> v in a || v in b || v in c;
      if TableFault(s, v.check) { TableChecksComplete(s, v.check); }
    }
  }

  method WalletViolations(s: Snapshot) returns (found: seq<Violation>)
    ensures forall v :: v in found <==> WalletBroken(s, s.wallets, v)
  {
    found := [];
    for i := 0 to |s.wallets|
      invariant forall v :: v in found <==> WalletBroken(s, s.wallets[..i], v)
    {
      var w := s.wallets[i];
      assert s.wallets[..i + 1] == s.wallets[..i] + [w];
      assert forall c :: WalletFault(s, w, c) ==> c in WALLET_CHECKS;
      found := found + RunChecks(WALLET_CHECKS, c => WalletFault(s, w, c), w.owner);
    }
    assert s.wallets[..|s.wallets|] == s.wallets;
  }

  predicate Constructible(s: Snapshot, o: Order)
    requires Shaped(s)
  {
    ValidPurchase(Purchase(s.inventory[0].caseId, o.key, o.quantity))
  }

  /** The loop over orders; None when building the expected Purchase raises. */
  method OrderLoop(fp: Digest, s: Snapshot, requireClaims: bool) returns (found: Option<seq<Violation>>)
    requires Shaped(s)
    ensures found.None? <==> requireClaims && exists o :: o in Orders(s) && !Constructible(s, o)
    ensures found.Some? ==> forall v :: v in found.value <==> OrderBroken(fp, s, requireClaims, Orders(s), v)
  {
    var os := Orders(s);
    var acc := [];
    for i := 0 to |os|
      invariant requireClaims ==> forall o :: o in os[..i] ==> Constructible(s, o)
      invariant forall v :: v in acc <==> OrderBroken(fp, s, requireClaims, os[..i], v)
    {
      if requireClaims && !Constructible(s, os[i]) {
        return None;
      }
      assert os[..i + 1] == os[..i] + [os[i]];
      var more := OrderViolations(fp, s, requireClaims, os[i]);
      acc := acc + more;
    }
    assert os[..|os|] == os;
    found := Some(acc);
  }

  method Audit(fp: Digest, s: Snapshot, requireClaims: bool) returns (r: Verdict)
    ensures r.Raised? <==> Malformed(s, requireClaims)
    ensures r.Report? ==> forall v :: v in r.violations <==> Broken(fp, s, requireClaims, v)
  {
    if Oversize(s) { return Raised(Oversized); }
    if !Shaped(s) { return Raised(FixtureShape); }
    if !OneCase(s) { return Raised(CrossCase); }
    if !KnownWallets(s) { return Raised(WalletIdentities); }
    var tables := TableViolations(s);
    var wallets := WalletViolations(s);
    var orders := OrderLoop(fp, s, requireClaims);
    if orders.None? { return Raised(InvalidPurchase); }
    r := Report(tables + wallets + orders.value);
  }
}
