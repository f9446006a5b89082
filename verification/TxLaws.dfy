/** What passing the audit means: the six tables are, up to row order, the image of the order list. */
module TxLaws {
  import opened Prelude
  import opened TxRows
  import opened TxAudit

  function Rows(b: Books): Snapshot {
    Snapshot([b.inv], [b.buyer, b.merchant], b.requests, b.orders, b.ledger, b.events)
  }

  // ---- ledger ----

  lemma {:induction false} EntriesCount(l: seq<Entry>, c: string, oid: string, owner: string, phase: string, delta: int)
    requires forall e :: e in l ==> e.caseId == c
    ensures Entries(l, oid)[(owner, phase, delta)] == multiset(l)[Entry(c, oid, owner, phase, delta)]
  {
    if l != [] {
      EntriesCount(l[1..], c, oid, owner, phase, delta);
      assert l == [l[0]] + l[1..];
    }
  }

  lemma OrderEntries(o: Order, owner: string, phase: string, delta: int)
    ensures multiset(OrderLedger(o))[Entry(o.caseId, o.id, owner, phase, delta)] == ExpectedEntries(o)[(owner, phase, delta)]
  {
    var p := LedgerRows(o, PAID);
    assert multiset(p) == multiset{p[0], p[1]};
    if o.state == REFUNDED {
      var r := LedgerRows(o, REFUNDED);
      assert multiset(r) == multiset{r[0], r[1]};
      assert multiset(OrderLedger(o)) == multiset{p[0], p[1]} + multiset{r[0], r[1]};
    } else {
      assert OrderLedger(o) == p;
    }
  }

  ghost predicate OneCaseOrders(os: seq<Order>, c: string) {
    Distinct(OrderId, os) && forall o :: o in os ==> o.caseId == c
  }

  lemma ForeignEntry(o: Order, e: Entry)
    requires e.orderId != o.id || e.caseId != o.caseId
    ensures multiset(OrderLedger(o))[e] == 0
  {
    assert e !in OrderLedger(o);
  }

  lemma LedgerHit(os: seq<Order>, c: string, o: Order, e: Entry)
    requires OneCaseOrders(os, c) && o in os && o.id == e.orderId && e.caseId == c
    ensures multiset(LedgerFor(os))[e] == ExpectedEntries(o)[(e.owner, e.phase, e.delta)]
  {
    LedgerCount(os, e);
    forall y | y in os && OrderId(y) != OrderId(o) ensures EntryCount(e)(y) == 0 { ForeignEntry(y, e); }
    SumSingle(EntryCount(e), OrderId, os, o);
    OrderEntries(o, e.owner, e.phase, e.delta);
  }

  lemma LedgerMiss(os: seq<Order>, c: string, e: Entry)
    requires OneCaseOrders(os, c)
    requires e.caseId != c || forall o :: o in os ==> o.id != e.orderId
    ensures multiset(LedgerFor(os))[e] == 0
  {
    LedgerCount(os, e);
    forall y | y in os ensures EntryCount(e)(y) == 0 { ForeignEntry(y, e); }
    SumZero(EntryCount(e), os);
  }

  ghost predicate LedgerChecks(l: seq<Entry>, os: seq<Order>) {
    && (forall e :: e in l ==> Lookup(OrderId, os, e.orderId).Some?)
    && (forall o :: o in os ==> Entries(l, o.id) == ExpectedEntries(o))
  }

  /** Per-order ledger counts plus "no orphans" pin the ledger down to the rows the orders call for. */
  lemma LedgerExact(l: seq<Entry>, os: seq<Order>, c: string)
    requires OneCaseOrders(os, c)
    requires forall e :: e in l ==> e.caseId == c
    ensures multiset(l) == multiset(LedgerFor(os)) <==> LedgerChecks(l, os)
  {
    if multiset(l) == multiset(LedgerFor(os)) { LedgerOnlyIf(l, os, c); }
    if LedgerChecks(l, os) {
      forall e ensures multiset(l)[e] == multiset(LedgerFor(os))[e] {
        var r := Lookup(OrderId, os, e.orderId);
        assert e in l <==> e in multiset(l);
        if e.caseId == c && r.Some? {
          LedgerHit(os, c, r.value, e);
          EntriesCount(l, c, e.orderId, e.owner, e.phase, e.delta);
        } else {
          LedgerMiss(os, c, e);
        }
      }
    }
  }

  lemma LedgerOnlyIf(l: seq<Entry>, os: seq<Order>, c: string)
    requires OneCaseOrders(os, c)
    requires forall e :: e in l ==> e.caseId == c
    requires multiset(l) == multiset(LedgerFor(os))
    ensures LedgerChecks(l, os)
  {
    forall e | e in l ensures Lookup(OrderId, os, e.orderId).Some? {
      assert e in multiset(l);
      if Lookup(OrderId, os, e.orderId).None? { LedgerMiss(os, c, e); }
    }
    forall o | o in os ensures Entries(l, o.id) == ExpectedEntries(o) {
      forall t: (string, string, int) ensures Entries(l, o.id)[t] == ExpectedEntries(o)[t] {
        EntriesCount(l, c, o.id, t.0, t.1, t.2);
        LedgerHit(os, c, o, Entry(c, o.id, t.0, t.1, t.2));
      }
    }
  }

  lemma {:induction false} LedgerTotals(os: seq<Order>)
    requires forall o :: o in os ==> o.state == PAID || o.state == REFUNDED
    ensures Sum(DeltaOf(BUYER), LedgerFor(os)) == -Sum(PaidAmount, os)
    ensures Sum(DeltaOf(MERCHANT), LedgerFor(os)) == Sum(PaidAmount, os)
    ensures Sum(Delta, LedgerFor(os)) == 0
    ensures forall e :: e in LedgerFor(os) ==> e.owner == BUYER || e.owner == MERCHANT
  {
    if os != [] {
      LedgerTotals(os[1..]);
      OneOrderTotals(DeltaOf(BUYER), os[0]);
      OneOrderTotals(DeltaOf(MERCHANT), os[0]);
      OneOrderTotals(Delta, os[0]);
      SumConcat(DeltaOf(BUYER), OrderLedger(os[0]), LedgerFor(os[1..]));
      SumConcat(DeltaOf(MERCHANT), OrderLedger(os[0]), LedgerFor(os[1..]));
      SumConcat(Delta, OrderLedger(os[0]), LedgerFor(os[1..]));
    }
  }

  lemma OneOrderTotals(f: Entry -> int, o: Order)
    ensures var p, r := LedgerRows(o, PAID), LedgerRows(o, REFUNDED);
      Sum(f, OrderLedger(o)) == f(p[0]) + f(p[1]) + if o.state == REFUNDED then f(r[0]) + f(r[1]) else 0
  {
    var p, r := LedgerRows(o, PAID), LedgerRows(o, REFUNDED);
    SumPair(f, p);
    SumPair(f, r);
    SumConcat(f, p, r);
    assert p + [] == p;
  }

  lemma SumPair<T>(f: T -> int, s: seq<T>)
    requires |s| == 2
    ensures Sum(f, s) == f(s[0]) + f(s[1])
  {
    assert s == [s[0]] + [s[1]];
    SumAppend(f, [s[0]], s[1]);
    assert [s[0]] == [] + [s[0]];
    SumAppend(f, [], s[0]);
  }

  // ---- events ----

  lemma {:induction false} KindsCount(es: seq<Event>, c: string, o: Order, kind: string)
    requires forall e :: e in es ==> e.caseId == c && (e.orderId == o.id ==> PayloadMatches(o, e))
    ensures Kinds(es, o.id)[kind] == multiset(es)[Event(c, o.id, kind, Doc(o.id, o.quantity, o.amount, kind))]
  {
    if es != [] {
      KindsCount(es[1..], c, o, kind);
      assert es == [es[0]] + es[1..];
    }
  }

  lemma ForeignEvent(o: Order, e: Event)
    requires e.orderId != o.id || e.caseId != o.caseId || !PayloadMatches(o, e)
    ensures multiset(OrderEvents(o))[e] == 0
  {
    assert e !in OrderEvents(o);
  }

  lemma EventHit(os: seq<Order>, c: string, o: Order, e: Event)
    requires OneCaseOrders(os, c) && o in os && o.id == e.orderId && e.caseId == c && PayloadMatches(o, e)
    ensures multiset(EventsFor(os))[e] == ExpectedKinds(o)[e.kind]
  {
    EventsCount(os, e);
    forall y | y in os && OrderId(y) != OrderId(o) ensures EventCount(e)(y) == 0 { ForeignEvent(y, e); }
    SumSingle(EventCount(e), OrderId, os, o);
  }

  lemma EventMiss(os: seq<Order>, c: string, e: Event)
    requires OneCaseOrders(os, c)
    requires forall o :: o in os && o.id == e.orderId && e.caseId == c ==> !PayloadMatches(o, e)
    ensures multiset(EventsFor(os))[e] == 0
  {
    EventsCount(os, e);
    forall y | y in os ensures EventCount(e)(y) == 0 { ForeignEvent(y, e); }
    SumZero(EventCount(e), os);
  }

  ghost predicate EventChecks(es: seq<Event>, os: seq<Order>) {
    && (forall e :: e in es ==> Lookup(OrderId, os, e.orderId).Some?)
    && (forall o :: o in os ==> Kinds(es, o.id) == ExpectedKinds(o))
    && (forall o, e :: o in os && e in es && e.orderId == o.id ==> PayloadMatches(o, e))
  }

  lemma EventsExact(es: seq<Event>, os: seq<Order>, c: string)
    requires OneCaseOrders(os, c)
    requires forall e :: e in es ==> e.caseId == c
    ensures multiset(es) == multiset(EventsFor(os)) <==> EventChecks(es, os)
  {
    if multiset(es) == multiset(EventsFor(os)) { EventsOnlyIf(es, os, c); }
    if EventChecks(es, os) {
      forall e ensures multiset(es)[e] == multiset(EventsFor(os))[e] {
        var r := Lookup(OrderId, os, e.orderId);
        assert e in es <==> e in multiset(es);
        if e.caseId == c && r.Some? && PayloadMatches(r.value, e) {
          EventHit(os, c, r.value, e);
          KindsCount(es, c, r.value, e.kind);
        } else {
          forall o | o in os && o.id == e.orderId ensures r == Some(o) { LookupUnique(OrderId, os, o); }
          EventMiss(os, c, e);
        }
      }
    }
  }

  lemma EventsOnlyIf(es: seq<Event>, os: seq<Order>, c: string)
    requires OneCaseOrders(os, c)
    requires forall e :: e in es ==> e.caseId == c
    requires multiset(es) == multiset(EventsFor(os))
    ensures EventChecks(es, os)
  {
    forall e | e in es ensures exists o :: o in os && o.id == e.orderId && PayloadMatches(o, e) {
      assert e in multiset(es);
      if forall o :: o in os && o.id == e.orderId && e.caseId == c ==> !PayloadMatches(o, e) { EventMiss(os, c, e); }
    }
    forall o, e | o in os && e in es && e.orderId == o.id ensures PayloadMatches(o, e) {
      var o' :| o' in os && o'.id == e.orderId && PayloadMatches(o', e);
      LookupUnique(OrderId, os, o);
      LookupUnique(OrderId, os, o');
    }
    forall o | o in os ensures Kinds(es, o.id) == ExpectedKinds(o) {
      forall k ensures Kinds(es, o.id)[k] == ExpectedKinds(o)[k] {
        KindsCount(es, c, o, k);
        EventHit(os, c, o, Event(c, o.id, k, Doc(o.id, o.quantity, o.amount, k)));
      }
    }
  }

  // ---- claims ----

  ghost predicate ClaimChecks(fp: Digest, rs: seq<Claim>, os: seq<Order>) {
    && Distinct(ClaimKey, rs) && Distinct(ClaimTarget, rs)
    && (forall c :: c in rs ==> SameKey(c, Lookup(OrderId, os, c.orderId)))
    && forall o :: o in os ==> Lookup(ClaimKey, rs, o.key) == Some(ClaimOf(fp, o))
  }

  lemma ClaimsExact(fp: Digest, rs: seq<Claim>, os: seq<Order>, c: string)
    requires OneCaseOrders(os, c) && Distinct(OrderKey, os)
    requires forall r :: r in rs ==> r.caseId == c
    ensures multiset(rs) == multiset(ClaimsFor(fp, os)) <==> ClaimChecks(fp, rs, os)
  {
    var cs := ClaimsFor(fp, os);
    forall o | o in os ensures ClaimOf(fp, o) in cs {
      var i :| 0 <= i < |os| && os[i] == o;
      assert cs[i] == ClaimOf(fp, o);
    }
    forall r | r in cs ensures exists o :: o in os && r == ClaimOf(fp, o) {
      var i :| 0 <= i < |cs| && cs[i] == r;
      assert r == ClaimOf(fp, os[i]);
    }
    if multiset(rs) == multiset(cs) {
      SameRowsMembers(rs, cs);
      DistinctTransfer(ClaimKey, cs, rs);
      DistinctTransfer(ClaimTarget, cs, rs);
      forall r | r in rs ensures SameKey(r, Lookup(OrderId, os, r.orderId)) {
        var o :| o in os && r == ClaimOf(fp, o);
        LookupUnique(OrderId, os, o);
      }
      forall o | o in os ensures Lookup(ClaimKey, rs, o.key) == Some(ClaimOf(fp, o)) {
        LookupUnique(ClaimKey, rs, ClaimOf(fp, o));
      }
    }
    if ClaimChecks(fp, rs, os) {
      forall r ensures r in rs <==> r in cs {
        if r in rs {
          var o := Lookup(OrderId, os, r.orderId).value;
          LookupUnique(ClaimKey, rs, r);
          assert Lookup(ClaimKey, rs, o.key) == Some(ClaimOf(fp, o));
        }
      }
      assert forall i, j :: 0 <= i < j < |rs| ==> ClaimKey(rs[i]) != ClaimKey(rs[j]);
      forall i, j | 0 <= i < j < |cs| ensures cs[i] != cs[j] { assert OrderId(os[i]) != OrderId(os[j]); }
      SameMembers(rs, cs);
    }
  }

  /** Distinctness is a property of the rows, not of their order. */
  lemma {:induction false} DistinctTransfer<T>(key: T -> string, s: seq<T>, t: seq<T>)
    requires multiset(s) == multiset(t) && Distinct(key, s)
    ensures Distinct(key, t)
  {
    SameRowsMembers(s, t);
    forall i, j | 0 <= i < j < |t| ensures key(t[i]) != key(t[j]) {
      if key(t[i]) == key(t[j]) {
        assert t[i] in s && t[j] in s;
        LookupUnique(key, s, t[i]);
        LookupUnique(key, s, t[j]);
        var u := t[..i] + t[i + 1..];
        assert t == t[..i] + [t[i]] + t[i + 1..];
        assert u[j - 1] == t[j];
        assert multiset(t) == multiset(u) + multiset{t[i]};
        assert t[j] in multiset(u);
        assert forall a, b :: 0 <= a < b < |s| ==> key(s[a]) != key(s[b]);
        AtMostOnce(s, t[i]);
        assert false;
      }
    }
  }

  // ---- the theorem ----

  predicate IsClaimCheck(c: Check) {
    c.UniqueClaim? || c.ClaimsNoOrphans? || c.ClaimTargetsUnique? || c.ClaimRequestIdentity? || c.ClaimPayloadAndOrder?
  }

  lemma AccountedRows(b: Books)
    requires Accounted(b)
    ensures OneCaseOrders(b.orders, b.inv.caseId)
    ensures forall e :: e in b.ledger ==> e.caseId == b.inv.caseId
    ensures forall e :: e in b.events ==> e.caseId == b.inv.caseId
    ensures Orders(Rows(b)) == b.orders
    ensures KnownWallets(Rows(b))
  {
    var c := b.inv.caseId;
    forall e | e in b.ledger ensures e.caseId == c {
      assert e in multiset(b.ledger);
      if e.caseId != c { LedgerMiss(b.orders, c, e); }
    }
    forall e | e in b.events ensures e.caseId == c {
      assert e in multiset(b.events);
      if e.caseId != c { EventMiss(b.orders, c, e); }
    }
    DictDistinct(OrderId, b.orders);
  }

  lemma AccountedWallets(b: Books, w: Wallet, c: Check)
    requires Accounted(b) && w in Rows(b).wallets
    ensures !WalletFault(Rows(b), w, c)
    ensures Sum(Delta, b.ledger) == 0
    ensures forall e :: e in b.ledger ==> e.owner == BUYER || e.owner == MERCHANT
  {
    LedgerTotals(b.orders);
    SumPermutation(DeltaOf(BUYER), b.ledger, LedgerFor(b.orders));
    SumPermutation(DeltaOf(MERCHANT), b.ledger, LedgerFor(b.orders));
    SumPermutation(Delta, b.ledger, LedgerFor(b.orders));
    SameRowsMembers(b.ledger, LedgerFor(b.orders));
    OrderTotals(b);
  }

  predicate IsOpenCheck(c: Check) { c.StockConservation? || c.StockBounds? || c.OneOrderPerRequest? || IsClaimCheck(c) }

  lemma AccountedLedger(b: Books, c: Check)
    requires Accounted(b)
    ensures !LedgerFault(b.ledger, b.events, b.orders, c)
  {
    AccountedRows(b);
    if c.KnownLedgerOwners? || c.LedgerZeroSum? {
      AccountedWallets(b, b.buyer, NonnegativeBalance);
    } else if c.LedgerNoOrphans? {
      LedgerExact(b.ledger, b.orders, b.inv.caseId);
    } else if c.EventsNoOrphans? {
      EventsExact(b.events, b.orders, b.inv.caseId);
    }
  }

  /** Right orders, money, ledger and events leave only stock, duplicate-key and claim checks to fail. */
  lemma AccountedTables(b: Books, c: Check)
    requires Accounted(b) && !IsOpenCheck(c)
    ensures !TableFault(Rows(b), c)
  {
    AccountedRows(b);
    AccountedLedger(b, c);
    assert !StockFault(Rows(b), c);
    assert !ClaimFault(b.requests, b.orders, c);
  }

  lemma AccountedOrders(fp: Digest, b: Books, requireClaims: bool, o: Order, c: Check)
    requires Accounted(b) && o in b.orders && !c.ClaimPayloadAndOrder?
    ensures !OrderFault(fp, Rows(b), requireClaims, o, c)
  {
    AccountedRows(b);
    assert GoodOrder(b, o);
    if c.OrderLedgerExact? {
      LedgerExact(b.ledger, b.orders, b.inv.caseId);
    } else if c.OrderEventsExact? || c.EventPayloadMatches? {
      EventsExact(b.events, b.orders, b.inv.caseId);
    }
  }

  /** An accounted case can only break an open check, so its audit names nothing else. */
  lemma AccountedBroken(fp: Digest, b: Books, requireClaims: bool, v: Violation)
    requires Accounted(b) && Broken(fp, Rows(b), requireClaims, v)
    ensures IsOpenCheck(v.check)
    ensures !v.check.ClaimPayloadAndOrder? ==> v.subject == "" && TableFault(Rows(b), v.check)
    ensures v.check.ClaimPayloadAndOrder? ==> requireClaims && OrderBroken(fp, Rows(b), requireClaims, b.orders, v)
  {
    AccountedRows(b);
    if WalletBroken(Rows(b), Rows(b).wallets, v) {
      var w :| w in Rows(b).wallets && v.subject == w.owner && WalletFault(Rows(b), w, v.check);
      AccountedWallets(b, w, v.check);
    } else if OrderBroken(fp, Rows(b), requireClaims, b.orders, v) {
      var o :| o in b.orders && v.subject == o.id && OrderFault(fp, Rows(b), requireClaims, o, v.check);
      if !v.check.ClaimPayloadAndOrder? { AccountedOrders(fp, b, requireClaims, o, v.check); }
    } else if !IsOpenCheck(v.check) {
      AccountedTables(b, v.check);
    }
  }

  lemma ClaimTables(fp: Digest, b: Books, c: Check)
    requires Orders(Rows(b)) == b.orders && ClaimChecks(fp, b.requests, b.orders) && IsClaimCheck(c)
    ensures !TableFault(Rows(b), c)
  {
    DictDistinct(ClaimKey, b.requests);
    assert !ClaimFault(b.requests, b.orders, c);
  }

  lemma ClaimOrders(fp: Digest, b: Books, o: Order)
    requires ClaimChecks(fp, b.requests, b.orders) && o in b.orders && o.caseId == b.inv.caseId
    ensures !OrderFault(fp, Rows(b), true, o, ClaimPayloadAndOrder)
  {
    DictDistinct(ClaimKey, b.requests);
    assert Lookup(ClaimKey, b.requests, o.key) == Some(ClaimOf(fp, o));
  }

  lemma BalancedClaims(fp: Digest, b: Books)
    requires Balanced(fp, b)
    ensures forall r :: r in b.requests ==> r.caseId == b.inv.caseId
    ensures ClaimChecks(fp, b.requests, b.orders)
  {
    SameRowsMembers(b.requests, ClaimsFor(fp, b.orders));
    forall r | r in b.requests ensures r.caseId == b.inv.caseId {
      var i :| 0 <= i < |b.orders| && ClaimsFor(fp, b.orders)[i] == r;
      assert GoodOrder(b, b.orders[i]);
    }
    forall o | o in b.orders ensures o.caseId == b.inv.caseId { assert GoodOrder(b, o); }
    ClaimsExact(fp, b.requests, b.orders, b.inv.caseId);
  }

  lemma BalancedShape(fp: Digest, b: Books)
    requires Balanced(fp, b) && !Oversize(Rows(b))
    ensures !Malformed(Rows(b), true)
  {
    AccountedRows(b);
    BalancedClaims(fp, b);
    assert OneCase(Rows(b));
    forall o | o in b.orders ensures Constructible(Rows(b), o) {}
  }

  lemma BalancedStock(fp: Digest, b: Books, c: Check)
    requires Balanced(fp, b) && (c.StockConservation? || c.StockBounds? || c.OneOrderPerRequest?)
    ensures !TableFault(Rows(b), c)
  {
    AccountedRows(b);
    OrderTotals(b);
    assert !LedgerFault(b.ledger, b.events, b.orders, c) && !ClaimFault(b.requests, b.orders, c);
  }

  lemma ClaimsUnbroken(fp: Digest, b: Books, v: Violation)
    requires ClaimChecks(fp, b.requests, b.orders) && OneCaseOrders(b.orders, b.inv.caseId)
    requires v.check.ClaimPayloadAndOrder?
    ensures !OrderBroken(fp, Rows(b), true, b.orders, v)
  {
    forall o | o in b.orders ensures !OrderFault(fp, Rows(b), true, o, v.check) { ClaimOrders(fp, b, o); }
  }

  lemma BalancedUnbroken(fp: Digest, b: Books, v: Violation)
    requires Balanced(fp, b)
    ensures !Broken(fp, Rows(b), true, v)
  {
    if Broken(fp, Rows(b), true, v) {
      AccountedBroken(fp, b, true, v);
      AccountedRows(b);
      BalancedClaims(fp, b);
      if v.check.ClaimPayloadAndOrder? {
        ClaimsUnbroken(fp, b, v);
      } else if IsClaimCheck(v.check) {
        ClaimTables(fp, b, v.check);
      } else {
        BalancedStock(fp, b, v.check);
      }
    }
  }

  lemma BalancedPasses(fp: Digest, b: Books)
    requires Balanced(fp, b) && !Oversize(Rows(b))
    ensures Passes(fp, Rows(b), true)
  {
    BalancedShape(fp, b);
    forall v ensures !Broken(fp, Rows(b), true, v) { BalancedUnbroken(fp, b, v); }
  }

  lemma NoTableFault(fp: Digest, b: Books, c: Check)
    requires Passes(fp, Rows(b), true)
    ensures !TableFault(Rows(b), c)
  {
    assert !Broken(fp, Rows(b), true, Violation(c, ""));
  }

  lemma NoWalletFault(fp: Digest, b: Books, w: Wallet, c: Check)
    requires Passes(fp, Rows(b), true) && w in Rows(b).wallets
    ensures !WalletFault(Rows(b), w, c)
  {
    assert !Broken(fp, Rows(b), true, Violation(c, w.owner));
  }

  lemma NoOrderFault(fp: Digest, b: Books, o: Order, c: Check)
    requires Passes(fp, Rows(b), true) && o in Orders(Rows(b))
    ensures !OrderFault(fp, Rows(b), true, o, c)
  {
    assert !Broken(fp, Rows(b), true, Violation(c, o.id));
  }

  lemma PassesOrders(fp: Digest, b: Books)
    requires Passes(fp, Rows(b), true)
    ensures Orders(Rows(b)) == b.orders && OneCaseOrders(b.orders, b.inv.caseId) && Distinct(OrderKey, b.orders)
  {
    NoTableFault(fp, b, UniqueOrderId);
    NoTableFault(fp, b, OneOrderPerRequest);
    DictDistinct(OrderId, b.orders);
  }

  lemma PassesClaimTables(fp: Digest, b: Books)
    requires Passes(fp, Rows(b), true)
    ensures Distinct(ClaimKey, b.requests) && Distinct(ClaimTarget, b.requests)
    ensures forall r :: r in b.requests ==> SameKey(r, Lookup(OrderId, b.orders, r.orderId))
  {
    PassesOrders(fp, b);
    NoTableFault(fp, b, UniqueClaim);
    NoTableFault(fp, b, ClaimTargetsUnique);
    NoTableFault(fp, b, ClaimRequestIdentity);
    DictDistinct(ClaimKey, b.requests);
    assert !ClaimFault(b.requests, b.orders, UniqueClaim);
    assert !ClaimFault(b.requests, b.orders, ClaimTargetsUnique) && !ClaimFault(b.requests, b.orders, ClaimRequestIdentity);
  }

  lemma PassesClaims(fp: Digest, b: Books)
    requires Passes(fp, Rows(b), true)
    ensures ClaimChecks(fp, b.requests, b.orders)
  {
    PassesOrders(fp, b);
    PassesClaimTables(fp, b);
    DictDistinct(ClaimKey, b.requests);
    forall o | o in b.orders ensures Lookup(ClaimKey, b.requests, o.key) == Some(ClaimOf(fp, o)) {
      NoOrderFault(fp, b, o, ClaimPayloadAndOrder);
      assert OneCase(Rows(b));
      var c := Lookup(ClaimKey, b.requests, o.key).value;
      assert c.caseId == b.inv.caseId;
    }
  }

  lemma PassesLedger(fp: Digest, b: Books)
    requires Passes(fp, Rows(b), true)
    ensures multiset(b.ledger) == multiset(LedgerFor(b.orders))
  {
    PassesOrders(fp, b);
    NoTableFault(fp, b, LedgerNoOrphans);
    assert !LedgerFault(b.ledger, b.events, b.orders, LedgerNoOrphans);
    forall o | o in b.orders ensures Entries(b.ledger, o.id) == ExpectedEntries(o) { NoOrderFault(fp, b, o, OrderLedgerExact); }
    LedgerExact(b.ledger, b.orders, b.inv.caseId);
  }

  lemma PassesEvents(fp: Digest, b: Books)
    requires Passes(fp, Rows(b), true)
    ensures multiset(b.events) == multiset(EventsFor(b.orders))
  {
    PassesOrders(fp, b);
    NoTableFault(fp, b, EventsNoOrphans);
    assert !LedgerFault(b.ledger, b.events, b.orders, EventsNoOrphans);
    forall o | o in b.orders ensures Kinds(b.events, o.id) == ExpectedKinds(o) { NoOrderFault(fp, b, o, OrderEventsExact); }
    forall o, e | o in b.orders && e in b.events && e.orderId == o.id ensures PayloadMatches(o, e) {
      PassesPayload(fp, b, o, e);
    }
    EventsExact(b.events, b.orders, b.inv.caseId);
  }

  lemma PassesPayload(fp: Digest, b: Books, o: Order, e: Event)
    requires Passes(fp, Rows(b), true) && o in Orders(Rows(b)) && e in b.events && e.orderId == o.id
    ensures PayloadMatches(o, e)
  {
    NoOrderFault(fp, b, o, EventPayloadMatches);
  }

  lemma PassesWallet(fp: Digest, b: Books, w: Wallet)
    requires Passes(fp, Rows(b), true) && w in Rows(b).wallets
    ensures w.initialBalance >= 0 && w.balance >= 0
    ensures w.balance == w.initialBalance + Sum(DeltaOf(w.owner), b.ledger)
  {
    NoWalletFault(fp, b, w, WalletLedgerAgreement);
    NoWalletFault(fp, b, w, WalletValueTypes);
    NoWalletFault(fp, b, w, NonnegativeBalance);
  }

  lemma PassesStock(fp: Digest, b: Books)
    requires Passes(fp, Rows(b), true)
    ensures Stocked(b) && b.inv.initialQty >= 0 && b.inv.unitPrice > 0
    ensures forall o :: o in b.orders ==> GoodOrder(b, o)
  {
    PassesOrders(fp, b);
    NoTableFault(fp, b, FixtureValues);
    NoTableFault(fp, b, StockConservation);
    NoTableFault(fp, b, StockBounds);
    forall o | o in b.orders ensures GoodOrder(b, o) { NoOrderFault(fp, b, o, OrderValues); }
  }

  lemma PassesAccounts(fp: Digest, b: Books)
    requires Passes(fp, Rows(b), true)
    requires b.buyer.owner == BUYER && b.merchant.owner == MERCHANT
    ensures Accounted(b) && Stocked(b)
  {
    PassesOrders(fp, b);
    PassesStock(fp, b);
    PassesLedger(fp, b);
    PassesEvents(fp, b);
    PassesWallet(fp, b, b.buyer);
    PassesWallet(fp, b, b.merchant);
    LedgerTotals(b.orders);
    SumPermutation(DeltaOf(BUYER), b.ledger, LedgerFor(b.orders));
    SumPermutation(DeltaOf(MERCHANT), b.ledger, LedgerFor(b.orders));
    assert b.buyer.caseId == b.inv.caseId && b.merchant.caseId == b.inv.caseId by {
      assert OneCase(Rows(b)) && b.buyer in Rows(b).wallets && b.merchant in Rows(b).wallets;
    }
  }

  /**
   * The audit passes exactly when the case is within the row limit and every table is, up to row order,
   * the image of its order list: stock, both balances, claims, ledger and events.
   */
  lemma AuditExact(fp: Digest, b: Books)
    requires b.buyer.owner == BUYER && b.merchant.owner == MERCHANT
    ensures Passes(fp, Rows(b), true) <==> Balanced(fp, b) && !Oversize(Rows(b))
  {
    if Balanced(fp, b) && !Oversize(Rows(b)) { BalancedPasses(fp, b); }
    if Passes(fp, Rows(b), true) {
      PassesOrders(fp, b);
      PassesAccounts(fp, b);
      PassesClaims(fp, b);
      ClaimsExact(fp, b.requests, b.orders, b.inv.caseId);
      forall o | o in b.orders ensures ValidPurchase(Purchase(b.inv.caseId, o.key, o.quantity)) {
        assert Constructible(Rows(b), o);
      }
    }
  }
}
