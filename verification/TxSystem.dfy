/**
 * Concurrent checkout and refund: statements of many clients interleave over committed tables.
 * A statement takes the row or unique-key lock it writes under, buffers its write, and the buffer becomes
 * visible at commit. Every run is a sequence of actions, so a lemma about all action sequences is a
 * statement about every interleaving, failure, retry and lost commit response.
 */
module TxSystem {
  import opened Prelude
  import opened TxRows
  import opened TxSerial

  datatype Policy = Protected | StaleStock | NoClaim | SplitCommit | UncheckedReplay
  datatype Failpoint = AfterInventory | AfterDebit | AfterCredit | AfterOrder | AfterLedger | AfterOutbox

  /** ids holds the random order id of each attempt; nothing says they are fresh. */
  datatype Call =
    | Checkout(req: Request, policy: Policy, failAt: Option<Failpoint>, loseResponse: bool, ids: seq<string>)
    | RefundCall(caseId: string, orderId: string, guarded: bool)

  /** The statement a transaction executes next. */
  datatype Stage = AtClaim | AtRead | AtStock | AtBuyer | AtMerchant | AtOrder | AtLedger | AtEvent | AtCommit

  function Rank(st: Stage): nat {
    match st
    case AtClaim => 0 case AtRead => 1 case AtStock => 2 case AtBuyer => 3 case AtMerchant => 4
    case AtOrder => 5 case AtLedger => 6 case AtEvent => 7 case AtCommit => 8
  }

  /** Uncommitted writes of one transaction, all within one case. */
  datatype Writes = Writes(claim: Option<Claim>, available: Option<int>, buyer: Option<int>, merchant: Option<int>,
                           order: Option<Order>, ledger: seq<Entry>, events: seq<Event>)

  const NO_WRITES := Writes(None, None, None, None, None, [], [])

  /** order: the order being created, or the order row a refund read; locked: that row is held FOR UPDATE. */
  datatype Tx = Tx(stage: Stage, caseId: string, order: Order, seen: int, locked: bool, w: Writes)

  datatype Outcome =
    | Created(order: Order) | Replayed(order: Order) | RefundDone(orderId: string) | RefundReplayed(orderId: string)
    | Rejected(reason: string) | Injected(at: Failpoint) | CommitUnknown
    | ClaimWithoutOrder | ConflictWithoutClaim | SqlFailed(code: int)

  /** Limbo: the caller was told the commit result is unknown; the server may still apply it or roll it back. */
  datatype Phase = Idle | InTx(tx: Tx) | Limbo(tx: Tx) | Conflict | LookedUp(claim: Claim) | Done(outcome: Outcome)
  datatype Client = Client(call: Call, attempt: nat, phase: Phase)

  type Db = map<string, Books>
  datatype System = System(db: Db, clients: seq<Client>, barrier: bool)

  // ---- locks ----

  datatype Row = RequestRow(caseId: string, key: string) | StockRow(caseId: string)
               | WalletRow(caseId: string, owner: string) | OrderRow(orderId: string)

  function When(b: bool, r: Row): set<Row> { if b then {r} else {} }

  function Locks(tx: Tx): set<Row> {
    When(tx.w.claim.Some?, RequestRow(tx.caseId, tx.order.key))
    + When(tx.w.available.Some?, StockRow(tx.caseId))
    + When(tx.w.buyer.Some?, WalletRow(tx.caseId, BUYER))
    + When(tx.w.merchant.Some?, WalletRow(tx.caseId, MERCHANT))
    + When(tx.w.order.Some? || tx.locked, OrderRow(tx.order.id))
  }

  function TxOf(c: Client): Option<Tx> {
    match c.phase
    case InTx(tx) => Some(tx)
    case Limbo(tx) => Some(tx)
    case _ => None
  }

  function Held(c: Client): set<Row> { if TxOf(c).Some? then Locks(TxOf(c).value) else {} }

  predicate Free(s: System, i: nat, r: Row) {
    forall j :: 0 <= j < |s.clients| && j != i ==> r !in Held(s.clients[j])
  }

  /** The lock the next statement of a transaction waits for. */
  function Target(call: Call, tx: Tx): Option<Row> {
    match tx.stage
    case AtClaim => Some(RequestRow(tx.caseId, tx.order.key))
    case AtRead => if call.RefundCall? && call.guarded then Some(OrderRow(tx.order.id)) else None
    case AtStock =>
      if call.Checkout? && call.policy.StaleStock? && tx.seen < call.req.quantity then None else Some(StockRow(tx.caseId))
    case AtBuyer => Some(WalletRow(tx.caseId, BUYER))
    case AtMerchant => Some(WalletRow(tx.caseId, MERCHANT))
    case AtOrder => Some(OrderRow(tx.order.id))
    case _ => None
  }

  // ---- committed tables ----

  function HasClaim(db: Db, c: string, key: string): bool {
    c in db && Lookup(ClaimKey, db[c].requests, key).Some?
  }

  function OrderIn(db: Db, c: string, oid: string): Option<Order> {
    if c in db then Lookup(OrderId, db[c].orders, oid) else None
  }

  /** orders.id is a primary key over all cases. */
  ghost predicate HasOrder(db: Db, oid: string) { exists c :: c in db && OrderIn(db, c, oid).Some? }

  ghost function FindOrder(db: Db, oid: string): Option<Order> {
    if HasOrder(db, oid) then
      var c :| c in db && OrderIn(db, c, oid).Some?;
      OrderIn(db, c, oid)
    else None
  }

  function Write(b: Books, w: Writes): Books {
    b.(inv := if w.available.Some? then b.inv.(available := w.available.value) else b.inv,
       buyer := if w.buyer.Some? then b.buyer.(balance := w.buyer.value) else b.buyer,
       merchant := if w.merchant.Some? then b.merchant.(balance := w.merchant.value) else b.merchant,
       requests := if w.claim.Some? then b.requests + [w.claim.value] else b.requests,
       orders := if w.order.Some? then Upsert(OrderId, b.orders, w.order.value) else b.orders,
       ledger := b.ledger + w.ledger,
       events := b.events + w.events)
  }

  function Install(db: Db, tx: Tx): Db {
    if tx.caseId in db then db[tx.caseId := Write(db[tx.caseId], tx.w)] else db
  }

  // ---- one statement, given that its lock is free ----

  /** Finish and Duplicate roll the transaction back. */
  datatype Effect = Continue(tx: Tx, boundary: Option<Failpoint>) | Finish(outcome: Outcome) | Duplicate | Commit

  function Protects(p: Policy): bool { p.Protected? || p.UncheckedReplay? }

  function Begin(call: Call, attempt: nat): Tx {
    match call
    case Checkout(req, policy, _, _, ids) =>
      Tx(if Protects(policy) then AtClaim else AtRead, req.caseId,
         Order(if attempt < |ids| then ids[attempt] else "", req.caseId, req.key, req.quantity, 0, PAID), 0, false, NO_WRITES)
    case RefundCall(c, oid, _) =>
      Tx(AtRead, c, Order(oid, c, "", 0, 0, PAID), 0, false, NO_WRITES)
  }

  ghost function Exec(fp: Digest, db: Db, call: Call, tx: Tx): Effect {
    if call.Checkout? then ExecCheckout(fp, db, call, tx) else ExecRefund(db, call, tx)
  }

  ghost function ExecCheckout(fp: Digest, db: Db, call: Call, tx: Tx): Effect
    requires call.Checkout?
  {
    var q, w := call.req.quantity, tx.w;
    if tx.stage.AtClaim? then
      if HasClaim(db, tx.caseId, tx.order.key) then Duplicate
      else Continue(tx.(stage := AtRead, w := w.(claim := Some(ClaimOf(fp, tx.order)))), None)
    else if tx.caseId !in db then Finish(Rejected("unknown_case"))
    else
      var b := db[tx.caseId];
      match tx.stage
      case AtRead =>
        Continue(tx.(stage := AtStock, seen := b.inv.available, order := tx.order.(amount := q * b.inv.unitPrice)), None)
      case AtStock =>
        var base := if call.policy.StaleStock? then tx.seen else b.inv.available;
        if base < q then Finish(Rejected("sold_out"))
        else Continue(tx.(stage := AtBuyer, w := w.(available := Some(base - q))), Some(AfterInventory))
      case AtBuyer =>
        if b.buyer.balance < tx.order.amount then Finish(Rejected("insufficient_funds"))
        else Continue(tx.(stage := AtMerchant, w := w.(buyer := Some(b.buyer.balance - tx.order.amount))), Some(AfterDebit))
      case AtMerchant =>
        Continue(tx.(stage := AtOrder, w := w.(merchant := Some(b.merchant.balance + tx.order.amount))), Some(AfterCredit))
      case AtOrder =>
        if HasOrder(db, tx.order.id) then Finish(SqlFailed(1062))
        else Continue(tx.(stage := AtLedger, w := w.(order := Some(tx.order))), Some(AfterOrder))
      case AtLedger => Continue(tx.(stage := AtEvent, w := w.(ledger := LedgerRows(tx.order, PAID))), Some(AfterLedger))
      case AtEvent => Continue(tx.(stage := AtCommit, w := w.(events := [EventRow(tx.order, PAID)])), Some(AfterOutbox))
      case _ => Commit
  }

  ghost function ExecRefund(db: Db, call: Call, tx: Tx): Effect
    requires call.RefundCall?
  {
    var w := tx.w;
    if tx.stage.AtRead? then
      var row := OrderIn(db, tx.caseId, call.orderId);
      if row.None? then Finish(Rejected("order_missing"))
      else if row.value.state == REFUNDED then Finish(RefundReplayed(call.orderId))
      else if row.value.state != PAID then Finish(Rejected("invalid_refund_state"))
      else Continue(tx.(stage := AtStock, order := row.value, locked := call.guarded), None)
    else if tx.caseId !in db then Finish(Rejected("order_missing"))
    else
      var b := db[tx.caseId];
      match tx.stage
      case AtStock => Continue(tx.(stage := AtBuyer, w := w.(available := Some(b.inv.available + tx.order.quantity))), None)
      case AtBuyer => Continue(tx.(stage := AtMerchant, w := w.(buyer := Some(b.buyer.balance + tx.order.amount))), None)
      case AtMerchant => Continue(tx.(stage := AtOrder, w := w.(merchant := Some(b.merchant.balance - tx.order.amount))), None)
      case AtOrder => Continue(tx.(stage := AtLedger, w := w.(order := Some(tx.order.(state := REFUNDED)))), None)
      case AtLedger => Continue(tx.(stage := AtEvent, w := w.(ledger := LedgerRows(tx.order, REFUNDED))), None)
      case AtEvent => Continue(tx.(stage := AtCommit, w := w.(events := [EventRow(tx.order, REFUNDED)])), None)
      case _ => Commit
  }

  // ---- steps of the system ----

  /** CommitLost: COMMIT raised; Resolve: what the server then made of it. */
  datatype Action = Advance(i: nat) | SqlError(i: nat, code: int) | CommitLost(i: nat) | Resolve(i: nat, applied: bool)

  function SetPhase(s: System, i: nat, p: Phase): System
    requires i < |s.clients|
  {
    s.(clients := s.clients[i := s.clients[i].(phase := p)])
  }

  /** The read barrier the unsafe drills pass as after_read: open once every client has done its read. */
  predicate Waiting(c: Client) { c.phase.Idle? || (c.phase.InTx? && c.phase.tx.stage in {AtClaim, AtRead}) }
  predicate HasHook(call: Call) { call.RefundCall? || call.policy.StaleStock? }
  predicate BarrierClosed(s: System, call: Call, tx: Tx) {
    s.barrier && HasHook(call) && tx.stage.AtStock? && exists j :: 0 <= j < |s.clients| && Waiting(s.clients[j])
  }

  /** checkpoint(stage): split-commit publishes the partial writes, then the injected failure may strike. */
  function Checkpoint(s: System, i: nat, tx: Tx, boundary: Option<Failpoint>): System
    requires i < |s.clients|
  {
    var call := s.clients[i].call;
    var split := call.Checkout? && call.policy.SplitCommit? && boundary.Some?;
    var s1 := if split then s.(db := Install(s.db, tx)) else s;
    if call.Checkout? && boundary.Some? && call.failAt == boundary then SetPhase(s1, i, Done(Injected(boundary.value)))
    else SetPhase(s1, i, InTx(if split then tx.(w := NO_WRITES) else tx))
  }

  function CommitOutcome(call: Call, tx: Tx): Outcome {
    match call
    case Checkout(_, _, _, lose, _) => if lose then CommitUnknown else Created(tx.order)
    case RefundCall(_, oid, _) => RefundDone(oid)
  }

  ghost function RunTx(fp: Digest, s: System, i: nat, tx: Tx): System
    requires i < |s.clients|
  {
    var call := s.clients[i].call;
    var row := Target(call, tx);
    if (row.Some? && !Free(s, i, row.value)) || BarrierClosed(s, call, tx) then s
    else
      match Exec(fp, s.db, call, tx)
      case Continue(tx', boundary) => Checkpoint(s, i, tx', boundary)
      case Finish(outcome) => SetPhase(s, i, Done(outcome))
      case Duplicate => SetPhase(s, i, Conflict)
      case Commit => SetPhase(s.(db := Install(s.db, tx)), i, Done(CommitOutcome(call, tx)))
  }

  /** lookup(): the claim row first, in a fresh read view. */
  function LookupClaim(fp: Digest, db: Db, call: Call): Phase
    requires call.Checkout?
  {
    var req := call.req;
    if !HasClaim(db, req.caseId, req.key) then Done(ConflictWithoutClaim)
    else
      var claim := Lookup(ClaimKey, db[req.caseId].requests, req.key).value;
      if !call.policy.UncheckedReplay? && claim.fingerprint != fp(req) then Done(Rejected("idempotency_conflict"))
      else LookedUp(claim)
  }

  /** lookup(): then the order row the claim names. */
  ghost function LookupOrder(db: Db, call: Call, claim: Claim): Outcome
    requires call.Checkout?
  {
    var req, o := call.req, FindOrder(db, claim.orderId);
    if o.None? || o.value.caseId != req.caseId || o.value.key != req.key
       || (!call.policy.UncheckedReplay? && o.value.quantity != req.quantity) then ClaimWithoutOrder
    else Replayed(o.value)
  }

  ghost function AdvanceClient(fp: Digest, s: System, i: nat): System
    requires i < |s.clients|
  {
    var c := s.clients[i];
    match c.phase
    case Idle => SetPhase(s, i, InTx(Begin(c.call, c.attempt)))
    case InTx(tx) => RunTx(fp, s, i, tx)
    case Conflict => if c.call.Checkout? then SetPhase(s, i, LookupClaim(fp, s.db, c.call)) else s
    case LookedUp(claim) => if c.call.Checkout? then SetPhase(s, i, Done(LookupOrder(s.db, c.call, claim))) else s
    case _ => s
  }

  /** Only a lock or deadlock error of a protected checkout is retried, and at most twice. */
  function AfterError(c: Client, code: int): Client {
    if (c.phase.Idle? || c.phase.InTx?) && c.call.Checkout? && Protects(c.call.policy)
       && (code == 1205 || code == 1213) && c.attempt < 2
    then c.(attempt := c.attempt + 1, phase := Idle)
    else c.(phase := Done(SqlFailed(code)))
  }

  ghost function Step(fp: Digest, s: System, a: Action): System {
    if a.i >= |s.clients| then s
    else
      var c := s.clients[a.i];
      match a
      case Advance(i) => AdvanceClient(fp, s, i)
      case SqlError(i, code) =>
        if c.phase.Done? || c.phase.Limbo? || (c.phase.InTx? && c.phase.tx.stage.AtCommit?) then s
        else s.(clients := s.clients[i := AfterError(c, code)])
      case CommitLost(i) =>
        if c.phase.InTx? && c.phase.tx.stage.AtCommit? then SetPhase(s, i, Limbo(c.phase.tx)) else s
      case Resolve(i, applied) =>
        if !c.phase.Limbo? then s
        else SetPhase(if applied then s.(db := Install(s.db, c.phase.tx)) else s, i, Done(CommitUnknown))
  }

  ghost function Run(fp: Digest, s: System, actions: seq<Action>): System
    decreases |actions|
  {
    if actions == [] then s else Run(fp, Step(fp, s, actions[0]), actions[1..])
  }
}
