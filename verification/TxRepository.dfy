/** The repository itself, statement by statement, when nobody else is connected. */
module TxRepository {
  import opened Prelude
  import opened TxRows
  import opened TxAudit
  import opened TxLaws
  import opened TxSerial
  import opened TxSystem
  import opened TxIsolation
  import opened TxProtected
  import opened TxPartial
  import opened TxSymptoms

  /** What the server makes of a COMMIT: answered, or the answer lost after or before it took effect. */
  datatype Fate = Answered | LostApplied | LostDropped

  /** One connection's luck: a driver error before some statement, and the fate of its commit. */
  datatype Luck = Luck(error: Option<(nat, int)>, fate: Fate)

  /** The end of one attempt; ExistingKey is the internal signal of a duplicate claim. */
  datatype Attempt = Ended(outcome: Outcome) | ExistingKey

  predicate Strikes(luck: Luck, statement: nat) { luck.error.Some? && luck.error.value.0 == statement }

  /** The driver error this luck has in store. */
  function Failed(luck: Luck): Outcome { SqlFailed(if luck.error.Some? then luck.error.value.1 else 0) }

  /** How far the statements after the claim get: why they stop, if they do, and how many boundaries they passed. */
  datatype Progress = Progress(stop: Option<Outcome>, passed: nat)

  /** The stock and wallet statements. */
  function Charging(b: Books, o: Order, failAt: Option<Failpoint>, luck: Luck): Progress {
    if Strikes(luck, 2) then Progress(Some(Failed(luck)), 0)
    else if b.inv.available < o.quantity then Progress(Some(Rejected("sold_out")), 0)
    else if failAt == Some(AfterInventory) then Progress(Some(Injected(AfterInventory)), 1)
    else if Strikes(luck, 3) then Progress(Some(Failed(luck)), 1)
    else if b.buyer.balance < o.amount then Progress(Some(Rejected("insufficient_funds")), 1)
    else if failAt == Some(AfterDebit) then Progress(Some(Injected(AfterDebit)), 2)
    else if Strikes(luck, 4) then Progress(Some(Failed(luck)), 2)
    else if failAt == Some(AfterCredit) then Progress(Some(Injected(AfterCredit)), 3)
    else Progress(None, 3)
  }

  /** The order, ledger and event statements. */
  ghost function Recording(db: Db, o: Order, failAt: Option<Failpoint>, luck: Luck): Progress {
    if Strikes(luck, 5) then Progress(Some(Failed(luck)), 3)
    else if HasOrder(db, o.id) then Progress(Some(SqlFailed(1062)), 3)
    else if failAt == Some(AfterOrder) then Progress(Some(Injected(AfterOrder)), 4)
    else if Strikes(luck, 6) then Progress(Some(Failed(luck)), 4)
    else if failAt == Some(AfterLedger) then Progress(Some(Injected(AfterLedger)), 5)
    else if Strikes(luck, 7) then Progress(Some(Failed(luck)), 5)
    else if failAt == Some(AfterOutbox) then Progress(Some(Injected(AfterOutbox)), 6)
    else Progress(None, 6)
  }

  ghost function Selling(db: Db, b: Books, o: Order, failAt: Option<Failpoint>, luck: Luck): Progress {
    var charge := Charging(b, o, failAt, luck);
    if charge.stop.Some? then charge else Recording(db, o, failAt, luck)
  }

  const CALM := Luck(None, Answered)

  /** How a checkout ends up to its COMMIT, read off the tables before it. */
  ghost function Expected(db: Db, req: Request, policy: Policy, failAt: Option<Failpoint>, oid: string, luck: Luck): Attempt {
    if Strikes(luck, 0) then Ended(Failed(luck))
    else if Protects(policy) && HasClaim(db, req.caseId, req.key) then ExistingKey
    else if Strikes(luck, 1) then Ended(Failed(luck))
    else if req.caseId !in db then Ended(Rejected("unknown_case"))
    else
      var o := OrderFor(db[req.caseId], req, oid);
      var stop := Selling(db, db[req.caseId], o, failAt, luck).stop;
      Ended(if stop.Some? then stop.value else Created(o))
  }

  predicate Completes(e: Attempt) { e.Ended? && e.outcome.Created? }

  /** What the caller hears once COMMIT is through: a response may be lost after it as well as during it. */
  function Heard(e: Attempt, fate: Fate, loseResponse: bool): Attempt {
    if Completes(e) && (!fate.Answered? || loseResponse) then Ended(CommitUnknown) else e
  }

  /** The books after a complete sale under a policy. */
  function Sold(fp: Digest, b: Books, req: Request, policy: Policy, oid: string): Books {
    var o := OrderFor(b, req, oid);
    Sell(b, o, b.inv.available - req.quantity, if Protects(policy) then [ClaimOf(fp, o)] else [])
  }

  /** The tables after one attempt: the whole sale or nothing, except that split commit leaves the boundaries it passed. */
  ghost function Left(fp: Digest, db: Db, req: Request, policy: Policy, failAt: Option<Failpoint>, oid: string, luck: Luck): Db {
    var c, e := req.caseId, Expected(db, req, policy, failAt, oid, luck);
    if c !in db then db
    else if policy.SplitCommit? then
      if Strikes(luck, 0) || Strikes(luck, 1) then db
      else
        var o := OrderFor(db[c], req, oid);
        db[c := Partial(db[c], o, Selling(db, db[c], o, failAt, luck).passed)]
    else if Completes(e) && !luck.fate.LostDropped? then db[c := Sold(fp, db[c], req, policy, oid)]
    else db
  }

  ghost predicate Installed(fp: Digest, before: Db, after: Db, req: Request, policy: Policy, oid: string) {
    && req.caseId in before && Expected(before, req, policy, None, oid, CALM) == Ended(Created(OrderFor(before[req.caseId], req, oid)))
    && after == before[req.caseId := Sold(fp, before[req.caseId], req, policy, oid)]
  }

  predicate Seedable(c: string, stock: int, balance: int, price: int) {
    && ValidPurchase(Purchase(c, "seed", 1))
    && 0 <= stock <= 1_000_000 && 0 <= balance <= 1_000_000 && 1 <= price <= 1_000_000
  }

  function RecordedUpTo(b: Books, o: Order, n: nat): Books {
    Partial(b, o, n).(inv := b.inv, buyer := b.buyer, merchant := b.merchant)
  }

  lemma {:induction false} SameOrders(db: Db, db': Db, c: string, oid: string)
    requires c in db && (db' == db || (c in db' && db' == db[c := db'[c]] && db'[c].orders == db[c].orders))
    ensures HasOrder(db', oid) <==> HasOrder(db, oid)
  {
    assert forall d :: OrderIn(db', d, oid) == OrderIn(db, d, oid);
  }

  /**
   * One attempt under a policy that commits at most once: all of the sale or nothing of it. An unknown result means
   * nothing if the commit was dropped, and the sale if only the response was lost.
   */
  ghost predicate OnePurchase(fp: Digest, before: Db, after: Db, req: Request, policy: Policy, failAt: Option<Failpoint>,
                              loseResponse: bool, oid: string, luck: Luck, r: Attempt) {
    match r
    case ExistingKey => Protects(policy) && HasClaim(before, req.caseId, req.key) && after == before
    case Ended(outcome) =>
      if outcome.Created? then
        failAt.None? && luck.fate.Answered? && !loseResponse && Installed(fp, before, after, req, policy, oid) && outcome.order.id == oid
      else if outcome.CommitUnknown? then
        failAt.None? && (luck.fate.LostDropped? ==> after == before)
        && (!luck.fate.LostDropped? ==> (luck.fate.LostApplied? || loseResponse) && Installed(fp, before, after, req, policy, oid))
      else after == before && (outcome.SqlFailed? || outcome.Rejected? || outcome.Injected?)
           && (outcome.SqlFailed? ==> (outcome.code == 1062 && HasOrder(before, oid)) || (luck.error.Some? && luck.error.value.1 == outcome.code))
  }

  lemma PartialOrders(b: Books, o: Order)
    ensures Partial(b, o, 3).orders == b.orders
  {
  }

  lemma RecordingSame(db: Db, db': Db, o: Order, failAt: Option<Failpoint>, luck: Luck)
    requires HasOrder(db', o.id) <==> HasOrder(db, o.id)
    ensures Recording(db', o, failAt, luck) == Recording(db, o, failAt, luck)
  {
  }

  lemma RecordAfterCharge(b: Books, o: Order)
    ensures forall n :: 3 <= n <= 6 ==> RecordedUpTo(Partial(b, o, 3), o, n) == Partial(b, o, n)
  {
  }

  /** Statements that all went through would also have gone through without the failpoint and without the luck. */
  lemma NothingStopped(db: Db, b: Books, o: Order, failAt: Option<Failpoint>, luck: Luck)
    requires Selling(db, b, o, failAt, luck).stop.None?
    ensures failAt.None? && Selling(db, b, o, None, CALM) == Progress(None, 6) && Selling(db, b, o, failAt, luck).passed == 6
  {
    hide HasOrder;
    if failAt.Some? {
      match failAt.value
      case AfterInventory =>
      case AfterDebit =>
      case AfterCredit =>
      case AfterOrder =>
      case AfterLedger =>
      case AfterOutbox =>
    }
  }

  /** The claim row changes nothing the later statements look at. */
  lemma ClaimFirst(db: Db, b: Books, o: Order, claims: seq<Claim>, failAt: Option<Failpoint>, luck: Luck)
    ensures var b' := b.(requests := b.requests + claims);
      && Selling(db, b', o, failAt, luck) == Selling(db, b, o, failAt, luck)
      && Partial(b', o, 6) == Sell(b, o, b.inv.available - o.quantity, claims)
  {
  }

  /** The tables an attempt leaves and what its caller hears fit together. */
  lemma {:induction false} OnceIsAtomic(fp: Digest, db: Db, req: Request, policy: Policy, failAt: Option<Failpoint>,
                                        loseResponse: bool, oid: string, luck: Luck)
    requires !policy.SplitCommit?
    ensures OnePurchase(fp, db, Left(fp, db, req, policy, failAt, oid, luck), req, policy, failAt, loseResponse, oid, luck,
                        Heard(Expected(db, req, policy, failAt, oid, luck), luck.fate, loseResponse))
  {
    hide HasOrder, HasClaim, Sold;
    if req.caseId in db {
      var o := OrderFor(db[req.caseId], req, oid);
      if Selling(db, db[req.caseId], o, failAt, luck).stop.None? { NothingStopped(db, db[req.caseId], o, failAt, luck); }
    }
  }

  /** The attempt that decides a call: the first that did not end in a lock or deadlock error, or the third. */
  ghost function Deciding(db: Db, req: Request, policy: Policy, failAt: Option<Failpoint>, ids: seq<string>, lucks: seq<Luck>, k: nat): (r: nat)
    requires |ids| >= 3 && |lucks| >= 3 && k <= 2
    ensures k <= r <= 2
    decreases 2 - k
  {
    if k < 2 && Protects(policy) && Retryable(Expected(db, req, policy, failAt, ids[k], lucks[k]))
    then Deciding(db, req, policy, failAt, ids, lucks, k + 1) else k
  }

  predicate Retryable(e: Attempt) { e.Ended? && e.outcome.SqlFailed? && (e.outcome.code == 1205 || e.outcome.code == 1213) }

  /** What the caller of purchase hears. */
  ghost function CallAnswer(fp: Digest, db: Db, req: Request, policy: Policy, failAt: Option<Failpoint>, loseResponse: bool,
                            ids: seq<string>, lucks: seq<Luck>): Outcome
    requires |ids| >= 3 && |lucks| >= 3
  {
    var k := Deciding(db, req, policy, failAt, ids, lucks, 0);
    match Heard(Expected(db, req, policy, failAt, ids[k], lucks[k]), lucks[k].fate, loseResponse)
    case Ended(outcome) => outcome
    case ExistingKey => ReplayOutcome(fp, db, Checkout(req, policy, None, false, []))
  }

  ghost function ReplayOutcome(fp: Digest, db: Db, call: Call): (r: Outcome)
    requires call.Checkout?
    ensures r.Replayed? || r.Rejected? || r.ClaimWithoutOrder? || r.ConflictWithoutClaim?
  {
    match LookupClaim(fp, db, call)
    case Done(outcome) => outcome
    case LookedUp(claim) => LookupOrder(db, call, claim)
    case _ => ConflictWithoutClaim
  }

  /** How a refund ends up to its COMMIT; statement 0 is the locking read. */
  function RefundExpected(db: Db, c: string, oid: string, luck: Luck): Outcome {
    if Strikes(luck, 0) then Failed(luck)
    else
      match OrderIn(db, c, oid)
      case None => Rejected("order_missing")
      case Some(o) =>
        if o.state == REFUNDED then RefundReplayed(oid)
        else if o.state != PAID then Rejected("invalid_refund_state")
        else if luck.error.Some? then Failed(luck)
        else RefundDone(oid)
  }

  lemma {:induction false} RowFound(db: Db, oid: string, row: Option<Order>)
    requires UniqueIds(db) && (row.None? <==> !HasOrder(db, oid))
    requires row.Some? ==> exists c :: c in db && OrderIn(db, c, oid) == row
    ensures FindOrder(db, oid) == row
  {
    if row.Some? {
      var c :| c in db && OrderIn(db, c, oid) == row;
      FindUnique(db, c, row.value);
    }
  }

  /** A whole call: whatever its attempts met, the tables gained exactly one complete sale or nothing. */
  ghost predicate CallPurchase(fp: Digest, before: Db, after: Db, req: Request, policy: Policy, ids: seq<string>, outcome: Outcome)
    requires |ids| >= 3
  {
    && (after == before || exists k :: 0 <= k < 3 && Installed(fp, before, after, req, policy, ids[k]))
    && (outcome.Created? ==> exists k :: 0 <= k < 3 && outcome.order.id == ids[k] && Installed(fp, before, after, req, policy, ids[k]))
    && (!outcome.Created? && !outcome.CommitUnknown? ==> after == before)
  }

  /** Good values for a new case, and no driver error at any of the three inserts. */
  predicate SeedRuns(db: Db, c: string, stock: int, balance: int, price: int, luck: Luck) {
    Seedable(c, stock, balance, price) && c !in db && (luck.error.None? || luck.error.value.0 > 2)
  }

  class Repository {
    var db: Db
    const fp: Digest

    constructor (fp: Digest)
      ensures this.fp == fp && db == map[]
    {
      this.fp := fp;
      db := map[];
    }

    /** A case is seeded whole or not at all; only an untroubled call or a commit that landed unanswered seeds it. */
    method Seed(c: string, stock: int, balance: int, price: int, luck: Luck) returns (ok: bool)
      modifies this`db
      ensures ok <==> SeedRuns(old(db), c, stock, balance, price, luck) && luck.fate.Answered?
      ensures db == if SeedRuns(old(db), c, stock, balance, price, luck) && !luck.fate.LostDropped?
        then old(db)[c := Fixture(c, stock, balance, price)] else old(db)
    {
      if !Seedable(c, stock, balance, price) { return false; }
      // The inventory row, then the two wallets; an existing case is a duplicate key.
      if Strikes(luck, 0) || c in db { return false; }
      var inv := Inventory(c, stock, stock, price);
      if Strikes(luck, 1) { return false; }
      var buyer := Wallet(c, BUYER, balance, balance);
      if Strikes(luck, 2) { return false; }
      var merchant := Wallet(c, MERCHANT, 0, 0);
      if luck.fate.LostDropped? { return false; }
      db := db[c := Books(inv, buyer, merchant, [], [], [], [])];
      ok := luck.fate.Answered?;
    }

    /** Statement boundary: the split-commit control publishes what it has so far, then the failure may strike. */
    method Checkpoint(policy: Policy, failAt: Option<Failpoint>, work: Books, c: string, boundary: Failpoint) returns (strike: bool)
      modifies this`db
      ensures strike <==> failAt == Some(boundary)
      ensures db == if policy.SplitCommit? then old(db)[c := work] else old(db)
    {
      if policy.SplitCommit? { db := db[c := work]; }
      strike := failAt == Some(boundary);
    }

    /** The stock and wallet statements; work is what the open transaction sees of its case. */
    method Charge(base: Books, o: Order, policy: Policy, failAt: Option<Failpoint>, luck: Luck)
        returns (stop: Option<Outcome>, work: Books)
      requires o.caseId in db
      modifies this`db
      ensures stop == Charging(base, o, failAt, luck).stop
      ensures stop.None? ==> work == Partial(base, o, 3)
      ensures var passed := Charging(base, o, failAt, luck).passed;
        db == if policy.SplitCommit? && passed > 0 then old(db)[o.caseId := Partial(base, o, passed)] else old(db)
    {
      work := base;
      if Strikes(luck, 2) { return Some(Failed(luck)), work; }
      if work.inv.available < o.quantity { return Some(Rejected("sold_out")), work; }
      work := work.(inv := work.inv.(available := work.inv.available - o.quantity));
      var strike := Checkpoint(policy, failAt, work, o.caseId, AfterInventory);
      if strike { return Some(Injected(AfterInventory)), work; }
      if Strikes(luck, 3) { return Some(Failed(luck)), work; }
      if work.buyer.balance < o.amount { return Some(Rejected("insufficient_funds")), work; }
      work := work.(buyer := work.buyer.(balance := work.buyer.balance - o.amount));
      strike := Checkpoint(policy, failAt, work, o.caseId, AfterDebit);
      if strike { return Some(Injected(AfterDebit)), work; }
      if Strikes(luck, 4) { return Some(Failed(luck)), work; }
      work := work.(merchant := work.merchant.(balance := work.merchant.balance + o.amount));
      strike := Checkpoint(policy, failAt, work, o.caseId, AfterCredit);
      stop := if strike then Some(Injected(AfterCredit)) else None;
    }

    /** The order, ledger and event statements. */
    method Record(base: Books, o: Order, policy: Policy, failAt: Option<Failpoint>, luck: Luck)
        returns (stop: Option<Outcome>, work: Books)
      modifies this`db
      ensures stop == Recording(old(db), o, failAt, luck).stop
      ensures stop.None? ==> work == RecordedUpTo(base, o, 6)
      ensures var passed := Recording(old(db), o, failAt, luck).passed;
        db == if policy.SplitCommit? && passed > 3 then old(db)[o.caseId := RecordedUpTo(base, o, passed)] else old(db)
    {
      hide HasOrder;
      work := base;
      if Strikes(luck, 5) { return Some(Failed(luck)), work; }
      var taken := FindRow(o.id);
      if taken.Some? { return Some(SqlFailed(1062)), work; }
      work := work.(orders := work.orders + [o]);
      var strike := Checkpoint(policy, failAt, work, o.caseId, AfterOrder);
      if strike { return Some(Injected(AfterOrder)), work; }
      if Strikes(luck, 6) { return Some(Failed(luck)), work; }
      work := work.(ledger := work.ledger + LedgerRows(o, PAID));
      strike := Checkpoint(policy, failAt, work, o.caseId, AfterLedger);
      if strike { return Some(Injected(AfterLedger)), work; }
      if Strikes(luck, 7) { return Some(Failed(luck)), work; }
      work := work.(events := work.events + [EventRow(o, PAID)]);
      strike := Checkpoint(policy, failAt, work, o.caseId, AfterOutbox);
      stop := if strike then Some(Injected(AfterOutbox)) else None;
    }

    /** All the statements after the claim. */
    method Statements(base: Books, o: Order, policy: Policy, failAt: Option<Failpoint>, luck: Luck)
        returns (stop: Option<Outcome>, work: Books)
      requires o.caseId in db && base.orders == db[o.caseId].orders
      modifies this`db
      ensures stop == Selling(old(db), base, o, failAt, luck).stop
      ensures stop.None? ==> work == Partial(base, o, 6)
      ensures var passed := Selling(old(db), base, o, failAt, luck).passed;
        db == if policy.SplitCommit? && passed > 0 then old(db)[o.caseId := Partial(base, o, passed)] else old(db)
    {
      hide HasOrder, Partial, Charging, Recording;
      ChargedSome(base, o, failAt, luck);
      stop, work := Charge(base, o, policy, failAt, luck);
      if stop.Some? { return; }
      PartialOrders(base, o);
      SameOrders(old(db), db, o.caseId, o.id);
      ghost var charged := db;
      RecordingSame(old(db), db, o, failAt, luck);
      RecordedSome(old(db), o, failAt, luck);
      stop, work := Record(work, o, policy, failAt, luck);
      RecordAfterCharge(base, o);
      ghost var passed := Recording(old(db), o, failAt, luck).passed;
      assert RecordedUpTo(Partial(base, o, 3), o, passed) == Partial(base, o, passed);
      assert policy.SplitCommit? ==> charged[o.caseId := Partial(base, o, passed)] == old(db)[o.caseId := Partial(base, o, passed)];
    }

    /** _purchase: one connection, one transaction. */
    method PurchaseOnce(req: Request, policy: Policy, failAt: Option<Failpoint>, loseResponse: bool, oid: string, luck: Luck)
        returns (r: Attempt)
      modifies this`db
      ensures r == Heard(Expected(old(db), req, policy, failAt, oid, luck), luck.fate, loseResponse)
      ensures db == Left(fp, old(db), req, policy, failAt, oid, luck)
      ensures policy.SplitCommit? || OnePurchase(fp, old(db), db, req, policy, failAt, loseResponse, oid, luck, r)
    {
      hide HasOrder, Partial, Selling, OnePurchase;
      var c := req.caseId;
      if !policy.SplitCommit? { OnceIsAtomic(fp, db, req, policy, failAt, loseResponse, oid, luck); }
      if Strikes(luck, 0) { return Ended(Failed(luck)); }
      if Protects(policy) && HasClaim(db, c, req.key) { return ExistingKey; }
      if Strikes(luck, 1) { return Ended(Failed(luck)); }
      if c !in db { return Ended(Rejected("unknown_case")); }
      var work := db[c];
      var o := Order(oid, c, req.key, req.quantity, req.quantity * work.inv.unitPrice, PAID);
      ghost var claims := if Protects(policy) then [ClaimOf(fp, o)] else [];
      if Protects(policy) { work := work.(requests := work.requests + [Claim(c, req.key, fp(req), oid)]); }
      ClaimFirst(old(db), db[c], o, claims, failAt, luck);
      assert db[c].requests + [] == db[c].requests;
      WholePassed(old(db), db[c], o, failAt, luck);
      assert Partial(db[c], o, 0) == db[c] by { NothingPartial(db[c], o); }
      var stop: Option<Outcome>;
      stop, work := Statements(work, o, policy, failAt, luck);
      if stop.Some? { return Ended(stop.value); }
      if luck.fate.LostDropped? { return Ended(CommitUnknown); }
      db := db[c := work];
      if luck.fate.LostApplied? || loseResponse { return Ended(CommitUnknown); }
      r := Ended(Created(o));
    }

    /** SELECT * FROM orders WHERE id=...: the primary key spans all cases. */
    method FindRow(oid: string) returns (row: Option<Order>)
      ensures row.None? <==> !HasOrder(db, oid)
      ensures row.Some? ==> exists c :: c in db && OrderIn(db, c, oid) == row
    {
      var rest := db.Keys;
      row := None;
      while rest != {}
        invariant rest <= db.Keys
        invariant row.None? ==> forall c :: c in db && OrderIn(db, c, oid).Some? ==> c in rest
        invariant row.Some? ==> exists c :: c in db && OrderIn(db, c, oid) == row
        decreases |rest|
      {
        var c :| c in rest;
        rest := rest - {c};
        if OrderIn(db, c, oid).Some? { row := OrderIn(db, c, oid); }
      }
    }

    /** lookup(): reads only; the claim decides which order, the order must fit the request. */
    method Replay(req: Request, policy: Policy) returns (outcome: Outcome)
      requires UniqueIds(db)
      ensures outcome == ReplayOutcome(fp, db, Checkout(req, policy, None, false, []))
    {
      if !HasClaim(db, req.caseId, req.key) { return ConflictWithoutClaim; }
      hide FindOrder, HasOrder, Lookup, UniqueIds;
      var claim := Lookup(ClaimKey, db[req.caseId].requests, req.key).value;
      if !policy.UncheckedReplay? && claim.fingerprint != fp(req) { return Rejected("idempotency_conflict"); }
      var row := FindRow(claim.orderId);
      RowFound(db, claim.orderId, row);
      if row.None? || row.value.caseId != req.caseId || row.value.key != req.key
         || (!policy.UncheckedReplay? && row.value.quantity != req.quantity) {
        return ClaimWithoutOrder;
      }
      outcome := Replayed(row.value);
    }

    /** purchase(): at most three attempts, and only after a lock or deadlock error that was rolled back. */
    method Purchase(req: Request, policy: Policy, failAt: Option<Failpoint>, loseResponse: bool, ids: seq<string>, lucks: seq<Luck>)
        returns (outcome: Outcome)
      requires |ids| >= 3 && |lucks| >= 3 && UniqueIds(db)
      modifies this`db
      ensures outcome == CallAnswer(fp, old(db), req, policy, failAt, loseResponse, ids, lucks)
      ensures var k := Deciding(old(db), req, policy, failAt, ids, lucks, 0);
        db == Left(fp, old(db), req, policy, failAt, ids[k], lucks[k])
      ensures policy.SplitCommit? || CallPurchase(fp, old(db), db, req, policy, ids, outcome)
      ensures failAt.Some? && !policy.SplitCommit? ==> db == old(db)
      ensures outcome.SqlFailed? && Protects(policy) && (outcome.code == 1205 || outcome.code == 1213) ==>
        forall k :: 0 <= k < 3 ==> lucks[k].error.Some? && (lucks[k].error.value.1 == 1205 || lucks[k].error.value.1 == 1213)
    {
      hide HasOrder, HasClaim, UniqueIds, Installed, LookupClaim, LookupOrder, Left, Expected;
      var attempt := 0;
      while true
        invariant 0 <= attempt <= 2 && db == old(db)
        invariant Deciding(old(db), req, policy, failAt, ids, lucks, 0) == Deciding(old(db), req, policy, failAt, ids, lucks, attempt)
        invariant forall k :: 0 <= k < attempt ==> lucks[k].error.Some? && (lucks[k].error.value.1 == 1205 || lucks[k].error.value.1 == 1213)
        decreases 2 - attempt
      {
        var r := PurchaseOnce(req, policy, failAt, loseResponse, ids[attempt], lucks[attempt]);
        OnceKeeps(fp, old(db), req, policy, failAt, ids[attempt], lucks[attempt]);
        if r.ExistingKey? {
          outcome := Replay(req, policy);
          return;
        }
        var code := if r.outcome.SqlFailed? then r.outcome.code else 0;
        if (code != 1205 && code != 1213) || attempt == 2 || !Protects(policy) {
          return r.outcome;
        }
        attempt := attempt + 1;
      }
    }

    /** refund(): SELECT ... FOR UPDATE, then six unguarded updates, then COMMIT. */
    method RefundOrder(c: string, oid: string, luck: Luck) returns (outcome: Outcome)
      modifies this`db
      ensures var e := RefundExpected(old(db), c, oid, luck);
        && outcome == (if e.RefundDone? && !luck.fate.Answered? then CommitUnknown else e)
        && (e.RefundDone? ==> c in old(db) && CanRefund(old(db)[c], oid))
        && db == if e.RefundDone? && !luck.fate.LostDropped? then old(db)[c := Refunded(old(db)[c], oid)] else old(db)
    {
      if Strikes(luck, 0) { return Failed(luck); }
      var row := OrderIn(db, c, oid);
      if row.None? { return Rejected("order_missing"); }
      var o := row.value;
      if o.state == REFUNDED { return RefundReplayed(oid); }
      if o.state != PAID { return Rejected("invalid_refund_state"); }
      if luck.error.Some? { return Failed(luck); }
      var work := db[c];
      work := work.(inv := work.inv.(available := work.inv.available + o.quantity));
      work := work.(buyer := work.buyer.(balance := work.buyer.balance + o.amount));
      work := work.(merchant := work.merchant.(balance := work.merchant.balance - o.amount));
      work := work.(orders := Upsert(OrderId, work.orders, o.(state := REFUNDED)));
      work := work.(ledger := work.ledger + LedgerRows(o, REFUNDED));
      work := work.(events := work.events + [EventRow(o, REFUNDED)]);
      if luck.fate.LostDropped? { return CommitUnknown; }
      db := db[c := work];
      outcome := if luck.fate.LostApplied? then CommitUnknown else RefundDone(oid);
    }
  }

  lemma NothingPartial(b: Books, o: Order)
    ensures Partial(b, o, 0) == b
  {
  }

  lemma ChargedSome(b: Books, o: Order, failAt: Option<Failpoint>, luck: Luck)
    ensures var p := Charging(b, o, failAt, luck); p.stop.None? ==> p.passed == 3
  {
  }

  lemma RecordedSome(db: Db, o: Order, failAt: Option<Failpoint>, luck: Luck)
    ensures var p := Recording(db, o, failAt, luck); 3 <= p.passed <= 6 && (p.stop.None? ==> p.passed == 6)
  {
    hide HasOrder;
  }

  lemma WholePassed(db: Db, b: Books, o: Order, failAt: Option<Failpoint>, luck: Luck)
    ensures Selling(db, b, o, failAt, luck).stop.None? ==> Selling(db, b, o, failAt, luck).passed == 6
    ensures var stop := Selling(db, b, o, failAt, luck).stop; stop.Some? ==> !stop.value.Created? && !stop.value.CommitUnknown?
  {
    hide HasOrder;
  }

  /** A lock or deadlock error is a driver error of this attempt, and a protected attempt that met it left nothing. */
  lemma {:induction false} OnceKeeps(fp: Digest, db: Db, req: Request, policy: Policy, failAt: Option<Failpoint>, oid: string, luck: Luck)
    ensures var e := Expected(db, req, policy, failAt, oid, luck);
      && (Retryable(e) ==> luck.error.Some? && luck.error.value.1 == e.outcome.code)
      && (!policy.SplitCommit? && !Completes(e) ==> Left(fp, db, req, policy, failAt, oid, luck) == db)
      && (failAt.Some? ==> !Completes(e)) && !(e.Ended? && e.outcome.CommitUnknown?) && (e.ExistingKey? ==> Protects(policy))
  {
    hide HasOrder, HasClaim;
    if req.caseId in db {
      var o := OrderFor(db[req.caseId], req, oid);
      WholePassed(db, db[req.caseId], o, failAt, luck);
      if Selling(db, db[req.caseId], o, failAt, luck).stop.None? { NothingStopped(db, db[req.caseId], o, failAt, luck); }
    }
  }

  // ---- the rollback drill ----

  lemma {:induction false} SeedSells(fp: Digest, db: Db, c: string, stock: int, balance: int, price: int, req: Request, oid: string)
    requires c in db && db[c] == Fixture(c, stock, balance, price) && stock >= 1 && balance >= price >= 1
    requires req.caseId == c && req.quantity == 1 && !HasOrder(db, oid)
    ensures var b := db[c]; Balanced(fp, b) && OrdersFit(b) && CanBuy(b, req, oid) && Affordable(b, OrderFor(b, req, oid))
    ensures !HasClaim(db, c, req.key) && db[c].orders == [] && db[c].requests == []
  {
    FreshBalanced(fp, db[c]);
    assert Origin(db[c]) == db[c];
    hide Balanced, HasOrder;
  }

  lemma {:induction false} FailsThere(fp: Digest, db: Db, req: Request, policy: Policy, f: Failpoint, oid: string)
    requires req.caseId in db && Affordable(db[req.caseId], OrderFor(db[req.caseId], req, oid))
    requires !HasOrder(db, oid) && !HasClaim(db, req.caseId, req.key)
    ensures Expected(db, req, policy, Some(f), oid, CALM) == Ended(Injected(f))
    ensures Left(fp, db, req, policy, Some(f), oid, CALM) == if policy.SplitCommit?
      then db[req.caseId := Partial(db[req.caseId], OrderFor(db[req.caseId], req, oid), Reached(f))] else db
  {
    hide HasOrder, HasClaim, Lookup, Partial;
    match f
    case AfterInventory =>
    case AfterDebit =>
    case AfterCredit =>
    case AfterOrder =>
    case AfterLedger =>
    case AfterOutbox =>
  }

  /** An affordable checkout under a fresh order id and key goes through, and leaves the whole sale whatever its answer. */
  lemma {:induction false} Sells(fp: Digest, db: Db, req: Request, policy: Policy, oid: string)
    requires req.caseId in db && Affordable(db[req.caseId], OrderFor(db[req.caseId], req, oid)) && !policy.SplitCommit?
    requires !HasOrder(db, oid) && (Protects(policy) ==> !HasClaim(db, req.caseId, req.key))
    ensures Expected(db, req, policy, None, oid, CALM) == Ended(Created(OrderFor(db[req.caseId], req, oid)))
    ensures Left(fp, db, req, policy, None, oid, CALM) == db[req.caseId := Sold(fp, db[req.caseId], req, policy, oid)]
  {
    hide HasOrder, HasClaim, Lookup, Sold;
  }

  /** Any driver error of an otherwise successful protected attempt is what the caller hears, and leaves nothing. */
  lemma {:induction false} ErrorSurfaces(fp: Digest, db: Db, req: Request, policy: Policy, oid: string, n: nat, code: int, fate: Fate)
    requires req.caseId in db && Affordable(db[req.caseId], OrderFor(db[req.caseId], req, oid)) && !policy.SplitCommit?
    requires !HasOrder(db, oid) && (Protects(policy) ==> !HasClaim(db, req.caseId, req.key)) && n <= 7
    ensures Expected(db, req, policy, None, oid, Luck(Some((n, code)), fate)) == Ended(SqlFailed(code))
    ensures Left(fp, db, req, policy, None, oid, Luck(Some((n, code)), fate)) == db
  {
    hide HasOrder, HasClaim, Lookup, Sold;
  }

  lemma CalmDecides(db: Db, req: Request, policy: Policy, failAt: Option<Failpoint>, ids: seq<string>, lucks: seq<Luck>)
    requires |ids| >= 3 && |lucks| >= 3 && lucks[0] == CALM
    ensures Deciding(db, req, policy, failAt, ids, lucks, 0) == 0
  {
    hide HasOrder, HasClaim;
  }

  /** One row of the protected half: fail at the boundary, observe, retry with the same key. */
  method ProtectedRollback(repo: Repository, c: string, f: Failpoint, stock: int, balance: int, price: int, ids: seq<string>)
      returns (first: Outcome, same: bool, retry: Outcome)
    requires Seedable(c, stock, balance, price) && c !in repo.db && stock >= 1 && balance >= price && UniqueIds(repo.db)
    requires |ids| == 6 && forall i :: 0 <= i < 6 ==> !HasOrder(repo.db, ids[i])
    modifies repo`db
    ensures first == Injected(f) && same
    ensures retry.Created? && c in repo.db && Balanced(repo.fp, repo.db[c]) && |repo.db[c].orders| == 1
    ensures Passes(repo.fp, Rows(repo.db[c]), true)
  {
    hide HasOrder, UniqueIds, Balanced, Passes, Expected, Left, Installed, Affordable, CanBuy, HasClaim, Sold;
    var seeded := repo.Seed(c, stock, balance, price, Luck(None, Answered));
    FreshCase(repo.fp, old(repo.db), repo.db, c, ids);
    var before := repo.db[c];
    var req := Purchase(c, "retry-same-key", 1);
    SeedSells(repo.fp, repo.db, c, stock, balance, price, req, ids[0]);
    SeedSells(repo.fp, repo.db, c, stock, balance, price, req, ids[3]);
    FailsThere(repo.fp, repo.db, req, Protected, f, ids[0]);
    Sells(repo.fp, repo.db, req, Protected, ids[3]);
    CalmDecides(repo.db, req, Protected, Some(f), ids[..3], [CALM, CALM, CALM]);
    CalmDecides(repo.db, req, Protected, None, ids[3..], [CALM, CALM, CALM]);
    first := repo.Purchase(req, Protected, Some(f), false, ids[..3], [CALM, CALM, CALM]);
    same := repo.db[c] == before;
    ghost var failed := repo.db;
    retry := repo.Purchase(req, Protected, None, false, ids[3..], [CALM, CALM, CALM]);
    BuyBalanced(repo.fp, before, req, ids[3]);
    SoldIsBought(repo.fp, before, req, ids[3]);
    RetriedBooks(repo.fp, repo.db[c], before, req, ids[3]);
  }

  lemma {:induction false} FreshCase(fp: Digest, before: Db, after: Db, c: string, ids: seq<string>)
    requires c !in before && UniqueIds(before) && c in after && after == before[c := after[c]] && after[c].orders == []
    requires forall i :: 0 <= i < |ids| ==> !HasOrder(before, ids[i])
    ensures UniqueIds(after) && forall i :: 0 <= i < |ids| ==> !HasOrder(after, ids[i])
  {
    assert forall d, oid :: OrderIn(after, d, oid).Some? ==> OrderIn(before, d, oid) == OrderIn(after, d, oid);
  }

  lemma SoldIsBought(fp: Digest, b: Books, req: Request, oid: string)
    requires CanBuy(b, req, oid)
    ensures Sold(fp, b, req, Protected, oid) == Bought(fp, b, req, oid)
  {
  }

  lemma {:induction false} RetriedBooks(fp: Digest, b: Books, before: Books, req: Request, oid: string)
    requires Balanced(fp, b) && before.orders == [] && before.requests == [] && b == Bought(fp, before, req, oid)
    requires b.buyer.owner == BUYER && b.merchant.owner == MERCHANT
    ensures |b.orders| == 1 && Passes(fp, Rows(b), true)
  {
    hide Balanced;
    AuditExact(fp, b);
    SmallBalanced(fp, b);
  }

  lemma {:induction false} SmallBalanced(fp: Digest, b: Books)
    requires Balanced(fp, b) && |b.orders| <= 1
    ensures !Oversize(Rows(b))
  {
    SameRowsMembers(b.requests, ClaimsFor(fp, b.orders));
    SameRowsMembers(b.ledger, LedgerFor(b.orders));
    SameRowsMembers(b.events, EventsFor(b.orders));
    if b.orders != [] {
      assert b.orders == [b.orders[0]];
      assert LedgerFor(b.orders) == OrderLedger(b.orders[0]) + [] && EventsFor(b.orders) == OrderEvents(b.orders[0]) + [];
    }
  }

  /** One row of the unsafe half: the boundary is passed in public, and only the last one leaves nothing to notice. */
  method SplitCommitRollback(repo: Repository, c: string, f: Failpoint, stock: int, balance: int, price: int, ids: seq<string>)
      returns (first: Outcome, same: bool)
    requires Seedable(c, stock, balance, price) && c !in repo.db && stock >= 1 && balance >= price && UniqueIds(repo.db)
    requires |ids| == 3 && forall i :: 0 <= i < 3 ==> !HasOrder(repo.db, ids[i])
    modifies repo`db
    ensures first == Injected(f) && !same && c in repo.db
    ensures Passes(repo.fp, Rows(repo.db[c]), false) <==> f.AfterOutbox?
    ensures forall v :: Broken(repo.fp, Rows(repo.db[c]), false, v) <==> v in Symptoms(f, ids[0])
  {
    hide HasOrder, UniqueIds, Balanced, Passes, Broken, Expected, Left, Installed, Affordable, CanBuy, HasClaim, Partial;
    var seeded := repo.Seed(c, stock, balance, price, Luck(None, Answered));
    FreshCase(repo.fp, old(repo.db), repo.db, c, ids);
    var before := repo.db[c];
    var req := Purchase(c, "retry-same-key", 1);
    SeedSells(repo.fp, repo.db, c, stock, balance, price, req, ids[0]);
    FailsThere(repo.fp, repo.db, req, SplitCommit, f, ids[0]);
    CalmDecides(repo.db, req, SplitCommit, Some(f), ids, [CALM, CALM, CALM]);
    first := repo.Purchase(req, SplitCommit, Some(f), false, ids, [CALM, CALM, CALM]);
    same := repo.db[c] == before;
    SmallPartial(before, OrderFor(before, req, ids[0]), Reached(f));
    SplitCommitNoticed(repo.fp, before, OrderFor(before, req, ids[0]), f);
    forall v ensures Broken(repo.fp, Rows(repo.db[c]), false, v) <==> v in Symptoms(f, ids[0]) {
      SplitCommitExactly(repo.fp, before, OrderFor(before, req, ids[0]), f, v);
    }
  }

  lemma SmallPartial(b: Books, o: Order, n: nat)
    requires b.requests == [] && b.orders == [] && b.ledger == [] && b.events == []
    ensures !Oversize(Rows(Partial(b, o, n)))
  {
  }
}
