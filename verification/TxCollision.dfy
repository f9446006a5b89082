/** When a repeated checkout can meet the error that its claim has no matching order: exactly when fingerprints collide. */
module TxCollision {
  import opened Prelude
  import opened TxRows
  import opened TxSerial
  import opened TxSystem
  import opened TxIsolation
  import opened TxProtected

  /** One key, two quantities, one fingerprint. */
  ghost predicate Colliding(fp: Digest, p: Request, q: Request) {
    p.caseId == q.caseId && p.key == q.key && p.quantity != q.quantity && fp(p) == fp(q)
  }

  /** Some protected run from a seeded system ends with that error at some client. */
  ghost predicate Reachable(fp: Digest) {
    exists s, actions, i: nat :: Meets(fp, s, actions, i)
  }

  ghost predicate Meets(fp: Digest, s: System, actions: seq<Action>, i: nat) {
    Seeded(s) && i < |Run(fp, s, actions).clients| && Run(fp, s, actions).clients[i].phase == Done(ClaimWithoutOrder)
  }

  // ---- a run that meets it: p is bought first, then q arrives under the same key ----

  const STOCK := 20
  const ID := "o"

  function Caller(r: Request): Client { Client(Checkout(r, Protected, None, false, [ID]), 0, Idle) }
  function Opening(p: Request, q: Request): System {
    System(map[p.caseId := Fixture(p.caseId, STOCK, STOCK, 1)], [Caller(p), Caller(q)], false)
  }

  /** The first caller's transaction before its k-th statement. */
  function Statement(fp: Digest, p: Request, k: nat): Tx
    requires k <= 8
  {
    var o := Order(ID, p.caseId, p.key, p.quantity, if k < 2 then 0 else p.quantity, PAID);
    Tx([AtClaim, AtRead, AtStock, AtBuyer, AtMerchant, AtOrder, AtLedger, AtEvent, AtCommit][k],
       p.caseId, o, if k < 2 then 0 else STOCK, false,
       Writes(if k < 1 then None else Some(ClaimOf(fp, o)),
              if k < 3 then None else Some(STOCK - p.quantity),
              if k < 4 then None else Some(STOCK - p.quantity),
              if k < 5 then None else Some(p.quantity),
              if k < 6 then None else Some(o),
              if k < 7 then [] else LedgerRows(o, PAID),
              if k < 8 then [] else [EventRow(o, PAID)]))
  }

  function Bought(fp: Digest, p: Request): Order { Statement(fp, p, 8).order }

  lemma {:induction false} NextStatement(fp: Digest, p: Request, q: Request, k: nat)
    requires k < 8
    ensures var e := Exec(fp, Opening(p, q).db, Caller(p).call, Statement(fp, p, k));
      e.Continue? && e.tx == Statement(fp, p, k + 1)
  {
    hide HasOrder;
    NothingBought(p, q);
  }

  lemma NothingBought(p: Request, q: Request)
    ensures !HasOrder(Opening(p, q).db, ID) && !HasClaim(Opening(p, q).db, p.caseId, p.key)
  {
  }

  lemma {:induction false} RunAppend(fp: Digest, s: System, actions: seq<Action>, a: Action)
    ensures Run(fp, s, actions + [a]) == Step(fp, Run(fp, s, actions), a)
    decreases |actions|
  {
    hide Step;
    if actions == [] {
      assert [] + [a] == [a] && [a][1..] == [];
      assert Run(fp, Step(fp, s, a), []) == Step(fp, s, a);
    } else {
      RunAppend(fp, Step(fp, s, actions[0]), actions[1..], a);
      assert (actions + [a])[1..] == actions[1..] + [a];
    }
  }

  /** With the other caller idle no lock is held by anyone else. */
  lemma {:induction false} AloneStep(fp: Digest, s: System, tx: Tx)
    requires |s.clients| == 2 && s.clients[1].phase.Idle? && s.clients[0].phase == InTx(tx)
    requires s.clients[0].call.Checkout? && s.clients[0].call.policy.Protected? && s.clients[0].call.failAt.None?
    ensures var e := Exec(fp, s.db, s.clients[0].call, tx);
      e.Continue? ==> Step(fp, s, Advance(0)) == SetPhase(s, 0, InTx(e.tx))
    ensures var e := Exec(fp, s.db, s.clients[0].call, tx);
      e.Commit? ==> Step(fp, s, Advance(0)) == SetPhase(s.(db := Install(s.db, tx)), 0, Done(CommitOutcome(s.clients[0].call, tx)))
  {
    hide Exec, Install, Locks, Target;
    assert Held(s.clients[1]) == {};
  }

  function Firsts(n: nat): seq<Action> { seq(n, i requires 0 <= i < n => Advance(0)) }

  lemma {:induction false} Purchasing(fp: Digest, p: Request, q: Request, k: nat)
    requires k <= 8
    ensures Run(fp, Opening(p, q), Firsts(k + 1)) == SetPhase(Opening(p, q), 0, InTx(Statement(fp, p, k)))
  {
    var s := Opening(p, q);
    if k == 0 {
      assert Firsts(1) == [] + [Advance(0)];
      RunAppend(fp, s, [], Advance(0));
      assert Begin(Caller(p).call, 0) == Statement(fp, p, 0);
    } else {
      var tx, next := Statement(fp, p, k - 1), Statement(fp, p, k);
      var t := SetPhase(s, 0, InTx(tx));
      Purchasing(fp, p, q, k - 1);
      NextStatement(fp, p, q, k - 1);
      hide *;
      assert Firsts(k + 1) == Firsts(k) + [Advance(0)] by { FirstsAppend(k); }
      RunAppend(fp, s, Firsts(k), Advance(0));
      Phases(s, p, q, tx, next);
      AloneStep(fp, t, tx);
    }
  }

  lemma FirstsAppend(k: nat)
    ensures Firsts(k + 1) == Firsts(k) + [Advance(0)]
  {
  }

  lemma Phases(s: System, p: Request, q: Request, tx: Tx, next: Tx)
    requires s == Opening(p, q)
    ensures var t := SetPhase(s, 0, InTx(tx));
      && |t.clients| == 2 && t.clients[1] == Caller(q) && t.clients[1].phase.Idle? && t.clients[0].phase == InTx(tx)
      && t.clients[0].call == Caller(p).call == Checkout(p, Protected, None, false, [ID]) && t.db == s.db
      && SetPhase(t, 0, InTx(next)) == SetPhase(s, 0, InTx(next))
  {
  }

  // ---- the second caller ----

  function Sold(fp: Digest, p: Request, q: Request): System {
    var s, tx := Opening(p, q), Statement(fp, p, 8);
    SetPhase(s.(db := Install(s.db, tx)), 0, Done(Created(tx.order)))
  }

  lemma LastStatement(fp: Digest, p: Request, q: Request)
    ensures Exec(fp, Opening(p, q).db, Caller(p).call, Statement(fp, p, 8)).Commit?
    ensures CommitOutcome(Caller(p).call, Statement(fp, p, 8)) == Created(Statement(fp, p, 8).order)
  {
  }

  lemma SoldPhases(s: System, tx: Tx)
    requires |s.clients| == 2
    ensures var t := SetPhase(s, 0, InTx(tx));
      SetPhase(t.(db := Install(t.db, tx)), 0, Done(Created(tx.order))) == SetPhase(s.(db := Install(s.db, tx)), 0, Done(Created(tx.order)))
  {
    hide Install;
  }

  lemma {:induction false} Selling(fp: Digest, p: Request, q: Request)
    ensures Run(fp, Opening(p, q), Firsts(10)) == Sold(fp, p, q)
  {
    hide *;
    var s, tx := Opening(p, q), Statement(fp, p, 8);
    OpeningClients(p, q);
    Purchasing(fp, p, q, 8);
    FirstsAppend(9);
    RunAppend(fp, s, Firsts(9), Advance(0));
    Phases(s, p, q, tx, tx);
    LastStatement(fp, p, q);
    AloneStep(fp, SetPhase(s, 0, InTx(tx)), tx);
    SoldPhases(s, tx);
    assert Sold(fp, p, q) == SetPhase(s.(db := Install(s.db, tx)), 0, Done(Created(tx.order))) by { SoldIs(fp, p, q); }
  }

  lemma OpeningClients(p: Request, q: Request)
    ensures |Opening(p, q).clients| == 2
  {
  }

  lemma SoldIs(fp: Digest, p: Request, q: Request)
    ensures var s, tx := Opening(p, q), Statement(fp, p, 8);
      |s.clients| == 2 && Sold(fp, p, q) == SetPhase(s.(db := Install(s.db, tx)), 0, Done(Created(tx.order)))
  {
    hide Install, Statement;
  }

  lemma {:induction false} SoldTables(fp: Digest, p: Request, q: Request)
    requires p.caseId == q.caseId && p.key == q.key
    ensures var db, o := Sold(fp, p, q).db, Bought(fp, p);
      ClaimOnFile(db, q, ClaimOf(fp, o)) && OrderIn(db, q.caseId, o.id) == Some(o)
      && o.quantity == p.quantity && o.caseId == p.caseId && o.key == p.key
  {
    var b := Sold(fp, p, q).db[p.caseId];
    assert b.requests == [ClaimOf(fp, Bought(fp, p))];
    assert b.orders == [Bought(fp, p)];
  }

  lemma {:induction false} OpeningSeeded(p: Request, q: Request)
    ensures Seeded(Opening(p, q))
  {
    assert Opening(p, q).db[p.caseId] == Fixture(p.caseId, STOCK, STOCK, 1);
  }

  /** The duplicate key is met at once, and the two reads of the lookup follow. */
  lemma {:induction false} SecondSteps(fp: Digest, s: System, q: Request, claim: Claim)
    requires |s.clients| == 2 && s.clients[0].phase.Done? && s.clients[1] == Caller(q)
    requires HasClaim(s.db, q.caseId, q.key)
    ensures var begun := SetPhase(s, 1, InTx(Begin(s.clients[1].call, 0)));
      Step(fp, s, Advance(1)) == begun && Step(fp, begun, Advance(1)) == SetPhase(s, 1, Conflict)
    ensures Step(fp, SetPhase(s, 1, Conflict), Advance(1)) == SetPhase(s, 1, LookupClaim(fp, s.db, Caller(q).call))
    ensures Step(fp, SetPhase(s, 1, LookedUp(claim)), Advance(1)) == SetPhase(s, 1, Done(LookupOrder(s.db, Caller(q).call, claim)))
  {
    hide HasClaim, LookupClaim, LookupOrder;
    assert Held(s.clients[0]) == {};
    var begun := SetPhase(s, 1, InTx(Begin(s.clients[1].call, 0)));
    assert Step(fp, s, Advance(1)) == begun && begun.clients[0] == s.clients[0];
    assert SetPhase(begun, 1, Conflict) == SetPhase(s, 1, Conflict);
  }

  function Whole(): seq<Action> { Firsts(10) + [Advance(1)] + [Advance(1)] + [Advance(1)] + [Advance(1)] }

  /** For any digest and any colliding pair: buy p, ask for q under the same key, and the error is what q is told. */
  lemma {:induction false} MissingOrderReached(fp: Digest, p: Request, q: Request)
    requires Colliding(fp, p, q)
    ensures Seeded(Opening(p, q)) && Run(fp, Opening(p, q), Whole()) == SetPhase(Sold(fp, p, q), 1, Done(ClaimWithoutOrder))
  {
    var s, t, call, o := Opening(p, q), Sold(fp, p, q), Caller(q).call, Bought(fp, p);
    OpeningSeeded(p, q);
    RunFromSeed(fp, s, Firsts(10));
    Selling(fp, p, q);
    SoldTables(fp, p, q);
    hide Run, Seeded, Opening, Sold, Bought, FindOrder, Isolated, Informed, Tables, Step;
    assert Guarded(fp, t);
    assert Tables(fp, t.db);
    CollisionAnswer(fp, t.db, call, o);
    SoldClients(fp, p, q);
    SecondSteps(fp, t, q, ClaimOf(fp, o));
    RunAppend(fp, s, Firsts(10), Advance(1));
    RunAppend(fp, s, Firsts(10) + [Advance(1)], Advance(1));
    RunAppend(fp, s, Firsts(10) + [Advance(1)] + [Advance(1)], Advance(1));
    RunAppend(fp, s, Firsts(10) + [Advance(1)] + [Advance(1)] + [Advance(1)], Advance(1));
  }

  lemma SoldClients(fp: Digest, p: Request, q: Request)
    ensures var t := Sold(fp, p, q); |t.clients| == 2 && t.clients[0].phase.Done? && t.clients[1] == Caller(q)
  {
  }

  lemma {:induction false} ErrorMeansCollision(fp: Digest, s: System, actions: seq<Action>, i: nat) returns (p: Request, q: Request)
    requires Meets(fp, s, actions, i)
    ensures Colliding(fp, p, q)
  {
    CallersAreTold(fp, s, actions, i);
    RunFromSeed(fp, s, actions);
    var db := Run(fp, s, actions).db;
    q := Run(fp, s, actions).clients[i].call.req;
    assert Tables(fp, db);
    hide Run, Guarded, Tables, Answers, Seeded;
    assert Collides(fp, db, q);
    var o :| Answers(db, q, o) && o.quantity != q.quantity && fp(Purchase(q.caseId, q.key, o.quantity)) == fp(q);
    OnFileValid(fp, db, q, o);
    p := Purchase(q.caseId, q.key, o.quantity);
  }

  lemma {:induction false} OnFileValid(fp: Digest, db: Db, q: Request, o: Order)
    requires Tables(fp, db) && Answers(db, q, o)
    ensures ValidPurchase(Purchase(q.caseId, q.key, o.quantity))
  {
    hide ValidPurchase, Accounted, Stocked;
    var b := db[q.caseId];
    assert Balanced(fp, b) && Claimed(fp, b);
  }

  lemma {:induction false} PairReaches(fp: Digest, p: Request, q: Request)
    requires Colliding(fp, p, q)
    ensures Reachable(fp)
  {
    MissingOrderReached(fp, p, q);
    SoldClients(fp, p, q);
    hide Run, Seeded, Opening, Sold;
    assert Meets(fp, Opening(p, q), Whole(), 1);
  }

  /** The missing-order error can be met in some protected run if and only if two requests with one key collide. */
  lemma {:induction false} MissingOrderExactly(fp: Digest)
    ensures Reachable(fp) <==> exists p: Request, q: Request :: Colliding(fp, p, q)
  {
    hide Meets, Colliding;
    if exists p: Request, q: Request :: Colliding(fp, p, q) {
      var p: Request, q: Request :| Colliding(fp, p, q);
      PairReaches(fp, p, q);
    }
    if Reachable(fp) {
      var s, actions, i: nat :| Meets(fp, s, actions, i);
      var p, q := ErrorMeansCollision(fp, s, actions, i);
    }
  }
}
