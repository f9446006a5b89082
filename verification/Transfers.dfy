/**
 * Transfers over a multi-master cluster with first-committer-wins certification. A transaction reads one node's
 * snapshot and ships absolute row values; it is certified only if nothing after its snapshot touched its keys.
 */
module Transfers {
  import opened Prelude

  datatype Move = Move(rid: string, source: nat, target: nat, amount: int)

  /** The row images of one transfer, both balances as absolute values, and the snapshot position they were read at. */
  datatype Writeset = Writeset(move: Move, host: string, left: int, right: int, seen: nat)

  /** Position in the cluster-wide order of certified writesets; a node's state is that of some prefix. */
  type Log = seq<Writeset>

  datatype Phase =
    | Idle | Looked(at: nat) | Prepared(w: Writeset)
    | Committed(host: string) | Insufficient(seen: nat) | Unresolved | Raised
  datatype Client = Client(move: Move, attempt: nat, phase: Phase)

  /** limbo: commits whose caller has given up on an answer; the cluster may still certify them, or never. */
  datatype System = System(log: Log, clients: seq<Client>, limbo: seq<Writeset>)

  const ATTEMPTS := 8

  predicate ValidMove(m: Move, accounts: nat) {
    m.source < accounts && m.target < accounts && m.source != m.target && 1 <= m.amount <= 100
  }

  function Store(b: seq<int>, w: Writeset): seq<int> {
    if w.move.source < |b| && w.move.target < |b| then b[w.move.source := w.left][w.move.target := w.right] else b
  }

  /** Account balances after a prefix of the log. */
  function Balances(b0: seq<int>, log: Log): (b: seq<int>)
    ensures |b| == |b0|
  {
    if log == [] then b0 else Store(Balances(b0, log[..|log| - 1]), log[|log| - 1])
  }

  predicate HasReceipt(log: Log, rid: string) { exists k :: 0 <= k < |log| && log[k].move.rid == rid }

  function Receipt(log: Log, rid: string): Option<Writeset> {
    if log == [] then None else if log[|log| - 1].move.rid == rid then Some(log[|log| - 1]) else Receipt(log[..|log| - 1], rid)
  }

  /** Both touch a common row: an account of either side, or the receipt of one request id. */
  predicate Touches(a: Move, b: Move) {
    a.rid == b.rid || a.source == b.source || a.source == b.target || a.target == b.source || a.target == b.target
  }

  predicate Conflicts(log: Log, seen: nat, m: Move) { exists j :: seen <= j < |log| && Touches(log[j].move, m) }

  // ---- steps ----

  datatype Action =
    | LookUp(i: nat) | Prepare(i: nat, seen: nat, host: string) | Commit(i: nat, answered: bool)
    | Settle(j: nat, applied: bool) | RetryableError(i: nat) | FatalError(i: nat)

  function Retried(c: Client): Client {
    c.(attempt := c.attempt + 1, phase := if c.attempt + 1 >= ATTEMPTS then Unresolved else Idle)
  }

  predicate Active(c: Client) { c.phase.Idle? || c.phase.Looked? || c.phase.Prepared? }

  function SetClient(s: System, i: nat, c: Client): System
    requires i < |s.clients|
  {
    s.(clients := s.clients[i := c])
  }

  /** The causal read (wsrep_sync_wait=1) sees everything certified so far. */
  function LookUpStep(s: System, i: nat): System
    requires i < |s.clients|
  {
    var c := s.clients[i];
    var r := Receipt(s.log, c.move.rid);
    SetClient(s, i, c.(phase :=
      if r.None? then Looked(|s.log|)
      else if r.value.move == c.move then Committed(r.value.host) else Raised))
  }

  /** The locking read at a snapshot no older than the lookup, the balance check, then the receipt insert (1062). */
  function PrepareStep(b0: seq<int>, s: System, i: nat, seen: nat, host: string): System
    requires i < |s.clients| && seen <= |s.log| && ValidMove(s.clients[i].move, |b0|)
  {
    var c := s.clients[i];
    var m, b := c.move, Balances(b0, s.log[..seen]);
    if b[m.source] < m.amount then SetClient(s, i, c.(phase := Insufficient(seen)))
    else if HasReceipt(s.log[..seen], m.rid) then SetClient(s, i, Retried(c))
    else SetClient(s, i, c.(phase := Prepared(Writeset(m, host, b[m.source] - m.amount, b[m.target] + m.amount, seen))))
  }

  /** Certification; a lost answer leaves the commit in limbo and the client retries under the same request id. */
  function CommitStep(s: System, i: nat, answered: bool): System
    requires i < |s.clients| && s.clients[i].phase.Prepared?
  {
    var c := s.clients[i];
    var w := c.phase.w;
    if Conflicts(s.log, w.seen, w.move) then SetClient(s, i, Retried(c))
    else if answered then SetClient(s.(log := s.log + [w]), i, c.(phase := Committed(w.host)))
    else SetClient(s.(limbo := s.limbo + [w]), i, Retried(c))
  }

  function SettleStep(s: System, j: nat, applied: bool): System
    requires j < |s.limbo|
  {
    var w := s.limbo[j];
    var s1 := if applied && !Conflicts(s.log, w.seen, w.move) then s.(log := s.log + [w]) else s;
    s1.(limbo := s.limbo[..j] + s.limbo[j + 1..])
  }

  function Step(b0: seq<int>, s: System, a: Action): System {
    match a
    case LookUp(i) => if i < |s.clients| && s.clients[i].phase.Idle? then LookUpStep(s, i) else s
    case Prepare(i, seen, host) =>
      if i < |s.clients| && s.clients[i].phase.Looked? && s.clients[i].phase.at <= seen <= |s.log| && ValidMove(s.clients[i].move, |b0|)
      then PrepareStep(b0, s, i, seen, host) else s
    case Commit(i, answered) => if i < |s.clients| && s.clients[i].phase.Prepared? then CommitStep(s, i, answered) else s
    case Settle(j, applied) => if j < |s.limbo| then SettleStep(s, j, applied) else s
    case RetryableError(i) => if i < |s.clients| && Active(s.clients[i]) then SetClient(s, i, Retried(s.clients[i])) else s
    case FatalError(i) => if i < |s.clients| && Active(s.clients[i]) then SetClient(s, i, s.clients[i].(phase := Raised)) else s
  }

  function Run(b0: seq<int>, s: System, actions: seq<Action>): System
    decreases |actions|
  {
    if actions == [] then s else Run(b0, Step(b0, s, actions[0]), actions[1..])
  }

  // ---- certification turns snapshots into the present ----

  /** The row images are what this move makes of these balances, and the balance suffices. */
  predicate Fits(b: seq<int>, w: Writeset) {
    && ValidMove(w.move, |b|)
    && w.left == b[w.move.source] - w.move.amount && w.right == b[w.move.target] + w.move.amount && w.left >= 0
  }

  ghost predicate Exact(b0: seq<int>, log: Log, k: nat)
    requires k < |log|
  {
    && Fits(Balances(b0, log[..k]), log[k]) && !HasReceipt(log[..k], log[k].move.rid)
    && log[k].seen <= k && !Conflicts(log[..k], log[k].seen, log[k].move)
  }

  /** Although writesets carry absolute values from old snapshots, each one is exact where it was certified. */
  ghost predicate LogOk(b0: seq<int>, log: Log) { forall k {:trigger Exact(b0, log, k)} :: 0 <= k < |log| ==> Exact(b0, log, k) }

  ghost predicate PendingOk(b0: seq<int>, log: Log, w: Writeset) {
    w.seen <= |log| && Fits(Balances(b0, log[..w.seen]), w) && !HasReceipt(log[..w.seen], w.move.rid)
  }

  lemma {:induction false} Untouched(b0: seq<int>, log: Log, seen: nat, n: nat, m: Move)
    requires seen <= n <= |log| && ValidMove(m, |b0|)
    requires forall j :: seen <= j < n ==> !Touches(log[j].move, m)
    ensures Balances(b0, log[..n])[m.source] == Balances(b0, log[..seen])[m.source]
    ensures Balances(b0, log[..n])[m.target] == Balances(b0, log[..seen])[m.target]
  {
    if n > seen {
      Untouched(b0, log, seen, n - 1, m);
      assert log[..n][..n - 1] == log[..n - 1] && log[..n][n - 1] == log[n - 1];
    }
  }

  lemma {:induction false} Certified(b0: seq<int>, log: Log, w: Writeset)
    requires PendingOk(b0, log, w) && !Conflicts(log, w.seen, w.move)
    ensures Fits(Balances(b0, log), w) && !HasReceipt(log, w.move.rid)
  {
    Untouched(b0, log, w.seen, |log|, w.move);
    assert log[..|log|] == log;
    forall k | 0 <= k < |log| ensures log[k].move.rid != w.move.rid {
      if k < w.seen { assert log[..w.seen][k] == log[k]; } else { assert !Touches(log[k].move, w.move); }
    }
  }

  lemma {:induction false} Appended(b0: seq<int>, log: Log, w: Writeset)
    requires LogOk(b0, log) && PendingOk(b0, log, w) && !Conflicts(log, w.seen, w.move)
    ensures LogOk(b0, log + [w])
  {
    Certified(b0, log, w);
    hide Balances, Fits, Conflicts;
    forall k | 0 <= k < |log + [w]| ensures Exact(b0, log + [w], k) {
      if k < |log| {
        assert Exact(b0, log, k);
        assert (log + [w])[..k] == log[..k];
      } else {
        assert (log + [w])[..k] == log;
      }
    }
  }

  lemma PendingStays(b0: seq<int>, log: Log, log': Log, w: Writeset)
    requires PendingOk(b0, log, w) && log <= log'
    ensures PendingOk(b0, log', w)
  {
    assert log'[..w.seen] == log[..w.seen];
  }

  // ---- the invariant ----

  ghost predicate ClientOk(b0: seq<int>, log: Log, c: Client) {
    && ValidMove(c.move, |b0|)
    && (if c.phase.Unresolved? then c.attempt <= ATTEMPTS else c.attempt < ATTEMPTS)
    && match c.phase
       case Looked(at) => at <= |log|
       case Prepared(w) => w.move == c.move && PendingOk(b0, log, w)
       case Committed(host) => exists k :: 0 <= k < |log| && log[k].move == c.move && log[k].host == host
       case Insufficient(seen) => seen <= |log| && Balances(b0, log[..seen])[c.move.source] < c.move.amount
       case _ => true
  }

  ghost predicate Sound(b0: seq<int>, s: System) {
    && LogOk(b0, s.log)
    && (forall c :: c in s.clients ==> ClientOk(b0, s.log, c))
    && (forall w :: w in s.limbo ==> PendingOk(b0, s.log, w))
  }

  lemma {:induction false} ClientStays(b0: seq<int>, log: Log, log': Log, c: Client)
    requires ClientOk(b0, log, c) && log <= log'
    ensures ClientOk(b0, log', c)
  {
    hide Balances, Fits, HasReceipt;
    match c.phase
    case Prepared(w) => PendingStays(b0, log, log', w);
    case Insufficient(seen) => assert log'[..seen] == log[..seen];
    case Committed(host) =>
      var k :| 0 <= k < |log| && log[k].move == c.move && log[k].host == host;
      assert log'[k] == log[k];
    case _ =>
  }

  lemma {:induction false} SetSound(b0: seq<int>, s: System, i: nat, c: Client)
    requires Sound(b0, s) && i < |s.clients| && ClientOk(b0, s.log, c)
    ensures Sound(b0, SetClient(s, i, c))
  {
    hide ClientOk, PendingOk, LogOk;
    forall d | d in SetClient(s, i, c).clients ensures ClientOk(b0, s.log, d) {
      assert d == c || d in s.clients;
    }
  }

  lemma {:induction false} AppendSound(b0: seq<int>, s: System, w: Writeset)
    requires Sound(b0, s) && PendingOk(b0, s.log, w) && !Conflicts(s.log, w.seen, w.move)
    ensures Sound(b0, s.(log := s.log + [w]))
  {
    Appended(b0, s.log, w);
    hide ClientOk, PendingOk, LogOk, Conflicts;
    var log' := s.log + [w];
    forall d | d in s.clients ensures ClientOk(b0, log', d) { ClientStays(b0, s.log, log', d); }
    forall p | p in s.limbo ensures PendingOk(b0, log', p) { PendingStays(b0, s.log, log', p); }
  }

  lemma {:induction false} ReceiptFound(log: Log, rid: string)
    ensures Receipt(log, rid).None? <==> !HasReceipt(log, rid)
    ensures Receipt(log, rid).Some? ==> exists k :: 0 <= k < |log| && log[k] == Receipt(log, rid).value && log[k].move.rid == rid
  {
    if log != [] {
      var rest := log[..|log| - 1];
      ReceiptFound(rest, rid);
      if HasReceipt(log, rid) && log[|log| - 1].move.rid != rid {
        var k :| 0 <= k < |log| && log[k].move.rid == rid;
        assert rest[k].move.rid == rid;
      }
    }
  }

  lemma {:induction false} LookUpSound(b0: seq<int>, s: System, i: nat)
    requires Sound(b0, s) && i < |s.clients| && s.clients[i].phase.Idle?
    ensures Sound(b0, LookUpStep(s, i))
  {
    var c := s.clients[i];
    assert c in s.clients && ClientOk(b0, s.log, c);
    ReceiptFound(s.log, c.move.rid);
    hide Sound;
    SetSound(b0, s, i, LookUpStep(s, i).clients[i]);
  }

  lemma {:induction false} PrepareSound(b0: seq<int>, s: System, i: nat, seen: nat, host: string)
    requires Sound(b0, s) && i < |s.clients| && s.clients[i].phase.Looked? && seen <= |s.log| && ValidMove(s.clients[i].move, |b0|)
    ensures Sound(b0, PrepareStep(b0, s, i, seen, host))
  {
    var c := s.clients[i];
    assert c in s.clients && ClientOk(b0, s.log, c);
    hide Sound, Balances, HasReceipt;
    SetSound(b0, s, i, PrepareStep(b0, s, i, seen, host).clients[i]);
  }

  lemma {:induction false} CommitSound(b0: seq<int>, s: System, i: nat, answered: bool)
    requires Sound(b0, s) && i < |s.clients| && s.clients[i].phase.Prepared?
    ensures Sound(b0, CommitStep(s, i, answered))
  {
    var c := s.clients[i];
    var w := c.phase.w;
    assert c in s.clients && ClientOk(b0, s.log, c);
    hide LogOk, PendingOk, Conflicts;
    if Conflicts(s.log, w.seen, w.move) {
      SetSound(b0, s, i, Retried(c));
    } else if answered {
      AppendSound(b0, s, w);
      assert (s.log + [w])[|s.log|] == w;
      SetSound(b0, s.(log := s.log + [w]), i, c.(phase := Committed(w.host)));
    } else {
      var s1 := s.(limbo := s.limbo + [w]);
      assert Sound(b0, s1) by { hide ClientOk; }
      SetSound(b0, s1, i, Retried(c));
    }
  }

  lemma {:induction false} SettleSound(b0: seq<int>, s: System, j: nat, applied: bool)
    requires Sound(b0, s) && j < |s.limbo|
    ensures Sound(b0, SettleStep(s, j, applied))
  {
    var p := s.limbo[j];
    assert p in s.limbo;
    if applied && !Conflicts(s.log, p.seen, p.move) { AppendSound(b0, s, p); }
    hide LogOk, PendingOk, ClientOk, Conflicts;
    forall q | q in s.limbo[..j] + s.limbo[j + 1..] ensures q in s.limbo {}
  }

  lemma {:induction false} StepSound(b0: seq<int>, s: System, a: Action)
    requires Sound(b0, s)
    ensures Sound(b0, Step(b0, s, a))
  {
    match a
    case LookUp(i) => if i < |s.clients| && s.clients[i].phase.Idle? { LookUpSound(b0, s, i); }
    case Prepare(i, seen, host) =>
      if i < |s.clients| && s.clients[i].phase.Looked? && s.clients[i].phase.at <= seen <= |s.log| && ValidMove(s.clients[i].move, |b0|) {
        PrepareSound(b0, s, i, seen, host);
      }
    case Commit(i, answered) => if i < |s.clients| && s.clients[i].phase.Prepared? { CommitSound(b0, s, i, answered); }
    case Settle(j, applied) => if j < |s.limbo| { SettleSound(b0, s, j, applied); }
    case RetryableError(i) =>
      if i < |s.clients| && Active(s.clients[i]) { assert s.clients[i] in s.clients; SetSound(b0, s, i, Retried(s.clients[i])); }
    case FatalError(i) =>
      if i < |s.clients| && Active(s.clients[i]) { assert s.clients[i] in s.clients; SetSound(b0, s, i, s.clients[i].(phase := Raised)); }
  }

  lemma {:induction false} RunSound(b0: seq<int>, s: System, actions: seq<Action>)
    requires Sound(b0, s)
    ensures Sound(b0, Run(b0, s, actions))
    decreases |actions|
  {
    if actions != [] {
      StepSound(b0, s, actions[0]);
      hide Sound, Step;
      RunSound(b0, Step(b0, s, actions[0]), actions[1..]);
    }
  }

  ghost predicate Started(b0: seq<int>, s: System) {
    && s.log == [] && s.limbo == []
    && forall c :: c in s.clients ==> ValidMove(c.move, |b0|) && c.attempt == 0 && c.phase.Idle?
  }

  // ---- the theorems ----

  function Same(x: int): int { x }

  lemma {:induction false} Totals(b0: seq<int>, log: Log)
    requires LogOk(b0, log)
    ensures Sum(Same, Balances(b0, log)) == Sum(Same, b0)
    ensures (forall i :: 0 <= i < |b0| ==> b0[i] >= 0) ==> forall i :: 0 <= i < |b0| ==> Balances(b0, log)[i] >= 0
  {
    if log != [] {
      var rest, w := log[..|log| - 1], log[|log| - 1];
      assert Exact(b0, log, |log| - 1);
      PrefixOk(b0, log, |log| - 1);
      Totals(b0, rest);
      var b := Balances(b0, rest);
      SumUpdate(Same, b, w.move.source, w.left);
      SumUpdate(Same, b[w.move.source := w.left], w.move.target, w.right);
      hide Sum;
    }
  }

  lemma PrefixOk(b0: seq<int>, log: Log, n: nat)
    requires LogOk(b0, log) && n <= |log|
    ensures LogOk(b0, log[..n])
  {
    forall k | 0 <= k < n ensures Exact(b0, log[..n], k) {
      assert Exact(b0, log, k) && log[..n][..k] == log[..k];
    }
  }

  /** In every run the total is conserved and no balance is negative, at every node: that is, after every prefix of the log. */
  lemma {:induction false} MoneyIsConserved(b0: seq<int>, s: System, actions: seq<Action>, n: nat)
    requires Started(b0, s) && (forall i :: 0 <= i < |b0| ==> b0[i] >= 0) && n <= |Run(b0, s, actions).log|
    ensures var b := Balances(b0, Run(b0, s, actions).log[..n]);
      Sum(Same, b) == Sum(Same, b0) && forall i :: 0 <= i < |b| ==> b[i] >= 0
  {
    RunSound(b0, s, actions);
    hide Run, Balances, Sum;
    PrefixOk(b0, Run(b0, s, actions).log, n);
    Totals(b0, Run(b0, s, actions).log[..n]);
  }

  /** Each request id moves money at most once, however many attempts and late commits it had. */
  lemma {:induction false} MovesAtMostOnce(b0: seq<int>, s: System, actions: seq<Action>, j: nat, k: nat)
    requires Started(b0, s) && j < k < |Run(b0, s, actions).log|
    ensures Run(b0, s, actions).log[j].move.rid != Run(b0, s, actions).log[k].move.rid
  {
    RunSound(b0, s, actions);
    hide Run, Balances, Fits;
    var log := Run(b0, s, actions).log;
    assert Exact(b0, log, k);
    assert log[..k][j] == log[j];
  }

  /** A returned host means a receipt with exactly the requested source, target and amount, handled by that host. */
  lemma {:induction false} HostMeansReceipt(b0: seq<int>, s: System, actions: seq<Action>, i: nat)
    requires Started(b0, s) && i < |Run(b0, s, actions).clients| && Run(b0, s, actions).clients[i].phase.Committed?
    ensures var e := Run(b0, s, actions);
      e.clients[i].attempt < ATTEMPTS
      && exists k :: 0 <= k < |e.log| && e.log[k].move == e.clients[i].move && e.log[k].host == e.clients[i].phase.host
  {
    RunSound(b0, s, actions);
    hide Run, LogOk, PendingOk;
    assert Run(b0, s, actions).clients[i] in Run(b0, s, actions).clients;
    assert ClientOk(b0, Run(b0, s, actions).log, Run(b0, s, actions).clients[i]);
  }

  // ---- when "insufficient funds" may be believed ----

  predicate UniqueIds(cs: seq<Client>) { forall i, j :: 0 <= i < j < |cs| ==> cs[i].move.rid != cs[j].move.rid }

  /** A commit of this request that cannot be certified any more. */
  predicate Dead(log: Log, w: Writeset, upTo: nat)
    requires upTo <= |log|
  {
    Conflicts(log[..upTo], w.seen, w.move)
  }

  /** Commits of one client's own request, relative to its lookup or its balance check. */
  ghost predicate OwnCommits(log: Log, limbo: seq<Writeset>, c: Client) {
    && (forall w :: w in limbo && w.move.rid == c.move.rid ==> w.move == c.move)
    && (forall w :: w in log && w.move.rid == c.move.rid ==> w.move == c.move)
    && match c.phase
       case Looked(at) =>
         at <= |log| && (forall w :: w in limbo && w.move.rid == c.move.rid ==> w.seen <= at)
         && forall k :: at <= k < |log| && log[k].move.rid == c.move.rid ==> log[k].seen <= at
       case Insufficient(seen) =>
         seen <= |log| && (forall w :: w in limbo && w.move.rid == c.move.rid ==> Dead(log, w, seen))
         && forall k :: seen <= k < |log| ==> log[k].move.rid != c.move.rid
       case _ => true
  }

  ghost predicate Settling(b0: seq<int>, s: System) {
    Sound(b0, s) && UniqueIds(s.clients) && forall c :: c in s.clients ==> OwnCommits(s.log, s.limbo, c)
  }

  lemma DeadGrows(log: Log, log': Log, w: Writeset, upTo: nat)
    requires upTo <= |log| && log <= log' && Dead(log, w, upTo)
    ensures Dead(log', w, upTo) && Conflicts(log', w.seen, w.move)
  {
    assert log'[..upTo] == log[..upTo];
    var j :| w.seen <= j < |log[..upTo]| && Touches(log[..upTo][j].move, w.move);
    assert log'[j] == log[..upTo][j];
  }

  /** A balance that sufficed at one snapshot and not at a later one was touched in between. */
  lemma {:induction false} Starved(b0: seq<int>, log: Log, w: Writeset, seen: nat)
    requires w.seen <= seen <= |log| && Fits(Balances(b0, log[..w.seen]), w)
    requires Balances(b0, log[..seen])[w.move.source] < w.move.amount
    ensures Dead(log, w, seen)
  {
    if forall j :: w.seen <= j < seen ==> !Touches(log[j].move, w.move) {
      Untouched(b0, log, w.seen, seen, w.move);
    } else {
      var j :| w.seen <= j < seen && Touches(log[j].move, w.move);
      assert log[..seen][j] == log[j];
    }
  }

  /** A commit certified after a later snapshot saw nothing touch its rows in between either. */
  lemma {:induction false} StillFunded(b0: seq<int>, log: Log, k: nat, seen: nat)
    requires LogOk(b0, log) && k < |log| && log[k].seen <= seen <= k
    ensures ValidMove(log[k].move, |b0|) && Balances(b0, log[..seen])[log[k].move.source] >= log[k].move.amount
  {
    var w := log[k];
    assert Exact(b0, log, k);
    forall j | seen <= j < k ensures !Touches(log[j].move, w.move) { assert log[..k][j] == log[j]; }
    assert log[..k][..seen] == log[..seen] && log[..k][..k] == log[..k];
    forall j | seen <= j < k ensures !Touches(log[..k][j].move, w.move) {}
    Untouched(b0, log[..k], seen, k, w.move);
  }

  lemma {:induction false} OwnAppend(log: Log, limbo: seq<Writeset>, c: Client, w: Writeset)
    requires OwnCommits(log, limbo, c) && !Conflicts(log, w.seen, w.move)
    requires w.move.rid == c.move.rid ==> w in limbo
    ensures OwnCommits(log + [w], limbo, c)
  {
    var log' := log + [w];
    match c.phase
    case Insufficient(seen) =>
      forall v | v in limbo && v.move.rid == c.move.rid ensures Dead(log', v, seen) { DeadGrows(log, log', v, seen); }
      if w.move.rid == c.move.rid { DeadGrows(log, log, w, seen); }
    case _ =>
  }

  lemma OwnFewer(log: Log, limbo: seq<Writeset>, limbo': seq<Writeset>, c: Client)
    requires OwnCommits(log, limbo, c) && forall w :: w in limbo' ==> w in limbo
    ensures OwnCommits(log, limbo', c)
  {
  }

  lemma OwnMore(log: Log, limbo: seq<Writeset>, c: Client, w: Writeset)
    requires OwnCommits(log, limbo, c) && (w.move.rid == c.move.rid ==> w.move == c.move && c.phase.Prepared?)
    ensures OwnCommits(log, limbo + [w], c)
  {
  }

  lemma {:induction false} BecomesInsufficient(b0: seq<int>, s: System, c: Client, seen: nat)
    requires Settling(b0, s) && c in s.clients && c.phase.Looked? && c.phase.at <= seen <= |s.log|
    requires Balances(b0, s.log[..seen])[c.move.source] < c.move.amount
    ensures OwnCommits(s.log, s.limbo, c.(phase := Insufficient(seen)))
  {
    assert OwnCommits(s.log, s.limbo, c) && ClientOk(b0, s.log, c);
    hide Balances, Dead;
    forall w | w in s.limbo && w.move.rid == c.move.rid ensures Dead(s.log, w, seen) {
      assert PendingOk(b0, s.log, w);
      Starved(b0, s.log, w, seen);
    }
    forall k | seen <= k < |s.log| ensures s.log[k].move.rid != c.move.rid {
      if s.log[k].move.rid == c.move.rid {
        assert s.log[k] in s.log;
        StillFunded(b0, s.log, k, seen);
      }
    }
  }

  lemma {:induction false} SetSettling(b0: seq<int>, s: System, i: nat, c: Client)
    requires Settling(b0, s) && i < |s.clients| && c.move == s.clients[i].move && OwnCommits(s.log, s.limbo, c)
    requires Sound(b0, SetClient(s, i, c))
    ensures Settling(b0, SetClient(s, i, c))
  {
    hide Sound, OwnCommits;
    var s' := SetClient(s, i, c);
    assert forall j :: 0 <= j < |s'.clients| ==> s'.clients[j].move == s.clients[j].move;
    forall d | d in s'.clients ensures OwnCommits(s.log, s.limbo, d) { assert d == c || d in s.clients; }
  }

  lemma {:induction false} PrepareSettling(b0: seq<int>, s: System, i: nat, seen: nat, host: string)
    requires Settling(b0, s) && i < |s.clients| && s.clients[i].phase.Looked? && s.clients[i].phase.at <= seen <= |s.log|
    requires ValidMove(s.clients[i].move, |b0|)
    ensures Settling(b0, PrepareStep(b0, s, i, seen, host))
  {
    var c := s.clients[i];
    var s' := PrepareStep(b0, s, i, seen, host);
    assert c in s.clients && OwnCommits(s.log, s.limbo, c);
    PrepareSound(b0, s, i, seen, host);
    if Balances(b0, s.log[..seen])[c.move.source] < c.move.amount { BecomesInsufficient(b0, s, c, seen); }
    hide Settling, Sound, Balances, HasReceipt, Dead;
    SetSettling(b0, s, i, s'.clients[i]);
  }

  lemma {:induction false} LookUpSettling(b0: seq<int>, s: System, i: nat)
    requires Settling(b0, s) && i < |s.clients| && s.clients[i].phase.Idle?
    ensures Settling(b0, LookUpStep(s, i))
  {
    var c := s.clients[i];
    assert c in s.clients && OwnCommits(s.log, s.limbo, c);
    forall w | w in s.limbo ensures w.seen <= |s.log| { assert PendingOk(b0, s.log, w); }
    LookUpSound(b0, s, i);
    hide Settling, Sound, PendingOk;
    SetSettling(b0, s, i, LookUpStep(s, i).clients[i]);
  }

  lemma {:induction false} AppendSettling(b0: seq<int>, s: System, w: Writeset)
    requires Settling(b0, s) && PendingOk(b0, s.log, w) && !Conflicts(s.log, w.seen, w.move)
    requires forall c :: c in s.clients && w.move.rid == c.move.rid ==> w in s.limbo || (c.phase.Prepared? && w.move == c.move)
    ensures Settling(b0, s.(log := s.log + [w]))
  {
    AppendSound(b0, s, w);
    hide Sound, PendingOk, Conflicts, Dead;
    forall c | c in s.clients ensures OwnCommits(s.log + [w], s.limbo, c) {
      if w.move.rid == c.move.rid && c.phase.Prepared? && w.move == c.move { OwnPrepared(s.log, s.limbo, c, w); }
      else { OwnAppend(s.log, s.limbo, c, w); }
    }
  }

  lemma OwnPrepared(log: Log, limbo: seq<Writeset>, c: Client, w: Writeset)
    requires OwnCommits(log, limbo, c) && c.phase.Prepared? && w.move == c.move
    ensures OwnCommits(log + [w], limbo, c)
  {
  }

  lemma SameClient(cs: seq<Client>, i: nat, d: Client)
    requires UniqueIds(cs) && i < |cs| && d in cs && d.move.rid == cs[i].move.rid
    ensures d == cs[i]
  {
    var j :| 0 <= j < |cs| && cs[j] == d;
    assert j == i;
  }

  lemma {:induction false} CommitSettling(b0: seq<int>, s: System, i: nat, answered: bool)
    requires Settling(b0, s) && i < |s.clients| && s.clients[i].phase.Prepared?
    ensures Settling(b0, CommitStep(s, i, answered))
  {
    var c := s.clients[i];
    var w := c.phase.w;
    assert c in s.clients && OwnCommits(s.log, s.limbo, c) && ClientOk(b0, s.log, c);
    CommitSound(b0, s, i, answered);
    forall d | d in s.clients && d.move.rid == w.move.rid ensures d == c { SameClient(s.clients, i, d); }
    hide Sound, PendingOk, Conflicts, Dead, UniqueIds;
    if Conflicts(s.log, w.seen, w.move) {
      SetSettling(b0, s, i, Retried(c));
    } else if answered {
      AppendSettling(b0, s, w);
      assert OwnCommits(s.log + [w], s.limbo, c);
      SetSettling(b0, s.(log := s.log + [w]), i, c.(phase := Committed(w.host)));
    } else {
      var s1 := s.(limbo := s.limbo + [w]);
      forall d | d in s.clients ensures OwnCommits(s.log, s1.limbo, d) { OwnMore(s.log, s.limbo, d, w); }
      LimboSound(b0, s, w);
      SetSettling(b0, s1, i, Retried(c));
    }
  }

  lemma LimboSound(b0: seq<int>, s: System, w: Writeset)
    requires Sound(b0, s) && PendingOk(b0, s.log, w)
    ensures Sound(b0, s.(limbo := s.limbo + [w]))
  {
    hide LogOk, ClientOk, PendingOk;
  }

  lemma {:induction false} SettleSettling(b0: seq<int>, s: System, j: nat, applied: bool)
    requires Settling(b0, s) && j < |s.limbo|
    ensures Settling(b0, SettleStep(s, j, applied))
  {
    var w := s.limbo[j];
    assert w in s.limbo && PendingOk(b0, s.log, w);
    SettleSound(b0, s, j, applied);
    if applied && !Conflicts(s.log, w.seen, w.move) { AppendSettling(b0, s, w); }
    hide Sound, PendingOk, Conflicts, OwnCommits;
    var s' := SettleStep(s, j, applied);
    forall v | v in s'.limbo ensures v in s.limbo {}
    forall c | c in s.clients ensures OwnCommits(s'.log, s'.limbo, c) { OwnFewer(s'.log, s.limbo, s'.limbo, c); }
  }

  lemma {:induction false} StepSettling(b0: seq<int>, s: System, a: Action)
    requires Settling(b0, s)
    ensures Settling(b0, Step(b0, s, a))
  {
    match a
    case LookUp(i) => if i < |s.clients| && s.clients[i].phase.Idle? { LookUpSettling(b0, s, i); }
    case Prepare(i, seen, host) =>
      if i < |s.clients| && s.clients[i].phase.Looked? && s.clients[i].phase.at <= seen <= |s.log| && ValidMove(s.clients[i].move, |b0|) {
        PrepareSettling(b0, s, i, seen, host);
      }
    case Commit(i, answered) => if i < |s.clients| && s.clients[i].phase.Prepared? { CommitSettling(b0, s, i, answered); }
    case Settle(j, applied) => if j < |s.limbo| { SettleSettling(b0, s, j, applied); }
    case RetryableError(i) => if i < |s.clients| && Active(s.clients[i]) { EndSettling(b0, s, i, Retried(s.clients[i])); }
    case FatalError(i) => if i < |s.clients| && Active(s.clients[i]) { EndSettling(b0, s, i, s.clients[i].(phase := Raised)); }
  }

  lemma {:induction false} EndSettling(b0: seq<int>, s: System, i: nat, c: Client)
    requires Settling(b0, s) && i < |s.clients| && Active(s.clients[i])
    requires c == Retried(s.clients[i]) || c == s.clients[i].(phase := Raised)
    ensures Settling(b0, SetClient(s, i, c))
  {
    assert s.clients[i] in s.clients && ClientOk(b0, s.log, s.clients[i]) && OwnCommits(s.log, s.limbo, s.clients[i]);
    SetSound(b0, s, i, c);
    hide Settling, Sound;
    SetSettling(b0, s, i, c);
  }

  lemma {:induction false} RunSettling(b0: seq<int>, s: System, actions: seq<Action>)
    requires Settling(b0, s)
    ensures Settling(b0, Run(b0, s, actions))
    decreases |actions|
  {
    if actions != [] {
      StepSettling(b0, s, actions[0]);
      hide Settling, Step;
      RunSettling(b0, Step(b0, s, actions[0]), actions[1..]);
    }
  }

  /**
   * A client told "insufficient funds" may still have moved its money, by an earlier attempt whose answer was
   * lost: exactly when that receipt was already in the snapshot its balance was read from. Later it never is.
   */
  lemma {:induction false} InsufficientExactly(b0: seq<int>, s: System, actions: seq<Action>, i: nat)
    requires Started(b0, s) && UniqueIds(s.clients)
    requires i < |Run(b0, s, actions).clients| && Run(b0, s, actions).clients[i].phase.Insufficient?
    ensures var e := Run(b0, s, actions); var c := e.clients[i];
      && c.phase.seen <= |e.log|
      && (HasReceipt(e.log, c.move.rid) <==> HasReceipt(e.log[..c.phase.seen], c.move.rid))
  {
    RunSettling(b0, s, actions);
    hide Run, Sound, Dead;
    var e := Run(b0, s, actions);
    var c := e.clients[i];
    assert c in e.clients && OwnCommits(e.log, e.limbo, c);
    var seen := c.phase.seen;
    if HasReceipt(e.log, c.move.rid) {
      var k :| 0 <= k < |e.log| && e.log[k].move.rid == c.move.rid;
      assert e.log[..seen][k] == e.log[k];
    }
    if HasReceipt(e.log[..seen], c.move.rid) {
      var k :| 0 <= k < |e.log[..seen]| && e.log[..seen][k].move.rid == c.move.rid;
      assert e.log[k].move.rid == c.move.rid;
    }
  }

  lemma RunCons(b0: seq<int>, s: System, a: Action, rest: seq<Action>)
    ensures Run(b0, s, [a] + rest) == Run(b0, Step(b0, s, a), rest)
  {
    hide Step;
    assert ([a] + rest)[1..] == rest;
  }

  const HUNDRED := Move("r", 0, 1, 100)
  const LATE := Writeset(HUNDRED, "n1", 0, 100, 0)

  lemma {:induction false} FirstAttempt()
    ensures Run([100, 0], System([], [Client(HUNDRED, 0, Idle)], []), [LookUp(0), Prepare(0, 0, "n1"), Commit(0, false)])
      == System([], [Client(HUNDRED, 1, Idle)], [LATE])
  {
    var b0 := [100, 0];
    var s1 := System([], [Client(HUNDRED, 0, Looked(0))], []);
    var s2 := System([], [Client(HUNDRED, 0, Prepared(LATE))], []);
    assert Step(b0, System([], [Client(HUNDRED, 0, Idle)], []), LookUp(0)) == s1;
    assert Step(b0, s1, Prepare(0, 0, "n1")) == s2;
    assert Step(b0, s2, Commit(0, false)) == System([], [Client(HUNDRED, 1, Idle)], [LATE]);
    hide Step;
    RunCons(b0, s2, Commit(0, false), []);
    RunCons(b0, s1, Prepare(0, 0, "n1"), [Commit(0, false)]);
    RunCons(b0, System([], [Client(HUNDRED, 0, Idle)], []), LookUp(0), [Prepare(0, 0, "n1"), Commit(0, false)]);
    assert [LookUp(0)] + [Prepare(0, 0, "n1"), Commit(0, false)] == [LookUp(0), Prepare(0, 0, "n1"), Commit(0, false)];
    assert [Prepare(0, 0, "n1")] + [Commit(0, false)] == [Prepare(0, 0, "n1"), Commit(0, false)];
    assert [Commit(0, false)] + [] == [Commit(0, false)];
  }

  lemma {:induction false} SecondAttempt()
    ensures Run([100, 0], System([], [Client(HUNDRED, 1, Idle)], [LATE]), [LookUp(0), Settle(0, true), Prepare(0, 1, "n1")])
      == System([LATE], [Client(HUNDRED, 1, Insufficient(1))], [])
  {
    var b0 := [100, 0];
    var s3 := System([], [Client(HUNDRED, 1, Idle)], [LATE]);
    var s4 := System([], [Client(HUNDRED, 1, Looked(0))], [LATE]);
    var s5 := System([LATE], [Client(HUNDRED, 1, Looked(0))], []);
    assert Step(b0, s3, LookUp(0)) == s4;
    assert Step(b0, s4, Settle(0, true)) == s5;
    assert Balances(b0, [LATE]) == [0, 100] by { assert [LATE][..0] == []; }
    assert [LATE][..1] == [LATE];
    assert Step(b0, s5, Prepare(0, 1, "n1")) == System([LATE], [Client(HUNDRED, 1, Insufficient(1))], []);
    hide Step, Balances;
    RunCons(b0, s5, Prepare(0, 1, "n1"), []);
    RunCons(b0, s4, Settle(0, true), [Prepare(0, 1, "n1")]);
    RunCons(b0, s3, LookUp(0), [Settle(0, true), Prepare(0, 1, "n1")]);
    assert [LookUp(0)] + [Settle(0, true), Prepare(0, 1, "n1")] == [LookUp(0), Settle(0, true), Prepare(0, 1, "n1")];
    assert [Settle(0, true)] + [Prepare(0, 1, "n1")] == [Settle(0, true), Prepare(0, 1, "n1")];
    assert [Prepare(0, 1, "n1")] + [] == [Prepare(0, 1, "n1")];
  }

  lemma {:induction false} RunConcat(b0: seq<int>, s: System, p: seq<Action>, q: seq<Action>)
    ensures Run(b0, s, p + q) == Run(b0, Run(b0, s, p), q)
    decreases |p|
  {
    if p == [] {
      assert p + q == q;
    } else {
      hide Step;
      assert (p + q)[0] == p[0] && (p + q)[1..] == p[1..] + q;
      RunConcat(b0, Step(b0, s, p[0]), p[1..], q);
    }
  }

  /** It happens: the lost commit lands between the retry's lookup and its balance check. */
  lemma {:induction false} InsufficientThoughMoved()
    ensures var s := System([], [Client(HUNDRED, 0, Idle)], []);
      var e := Run([100, 0], s, [LookUp(0), Prepare(0, 0, "n1"), Commit(0, false)] + [LookUp(0), Settle(0, true), Prepare(0, 1, "n1")]);
      Started([100, 0], s) && e.clients[..] == [Client(HUNDRED, 1, Insufficient(1))] && HasReceipt(e.log, HUNDRED.rid)
  {
    hide Run;
    var s := System([], [Client(HUNDRED, 0, Idle)], []);
    FirstAttempt();
    SecondAttempt();
    RunConcat([100, 0], s, [LookUp(0), Prepare(0, 0, "n1"), Commit(0, false)], [LookUp(0), Settle(0, true), Prepare(0, 1, "n1")]);
    assert [LATE][0].move.rid == HUNDRED.rid;
  }

  // ---- a transfer that meets no trouble ----

  /** Looked up, read at the newest snapshot and certified at once: the money has moved, here and nowhere else. */
  lemma {:induction false} TransferGoes(b0: seq<int>, s: System, i: nat, host: string)
    requires i < |s.clients| && s.clients[i].phase.Idle? && ValidMove(s.clients[i].move, |b0|)
    requires !HasReceipt(s.log, s.clients[i].move.rid) && Balances(b0, s.log)[s.clients[i].move.source] >= s.clients[i].move.amount
    ensures var m, b := s.clients[i].move, Balances(b0, s.log);
      var e := Run(b0, s, [LookUp(i), Prepare(i, |s.log|, host), Commit(i, true)]);
      && e.clients == s.clients[i := s.clients[i].(phase := Committed(host))] && e.limbo == s.limbo
      && |e.log| == |s.log| + 1 && s.log <= e.log && e.log[|s.log|].move == m && e.log[|s.log|].host == host
      && Balances(b0, e.log) == b[m.source := b[m.source] - m.amount][m.target := b[m.target] + m.amount]
  {
    var c := s.clients[i];
    var m, b, n := c.move, Balances(b0, s.log), |s.log|;
    var w := Writeset(m, host, b[m.source] - m.amount, b[m.target] + m.amount, n);
    NoReceipt(s.log, m.rid);
    assert s.log[..n] == s.log;
    var s1 := SetClient(s, i, c.(phase := Looked(n)));
    var s2 := SetClient(s, i, c.(phase := Prepared(w)));
    var s3 := SetClient(s.(log := s.log + [w]), i, c.(phase := Committed(host)));
    assert Step(b0, s, LookUp(i)) == s1;
    assert Step(b0, s1, Prepare(i, n, host)) == s2 by { assert SetClient(s1, i, c.(phase := Prepared(w))) == s2; }
    assert Step(b0, s2, Commit(i, true)) == s3 by { assert !Conflicts(s.log, n, m); }
    assert (s.log + [w])[..n] == s.log && Balances(b0, s.log + [w]) == Store(b, w);
    hide Step, Balances;
    RunCons(b0, s2, Commit(i, true), []);
    RunCons(b0, s1, Prepare(i, n, host), [Commit(i, true)]);
    RunCons(b0, s, LookUp(i), [Prepare(i, n, host), Commit(i, true)]);
    assert [LookUp(i)] + [Prepare(i, n, host), Commit(i, true)] == [LookUp(i), Prepare(i, n, host), Commit(i, true)];
    assert [Prepare(i, n, host)] + [Commit(i, true)] == [Prepare(i, n, host), Commit(i, true)];
    assert [Commit(i, true)] + [] == [Commit(i, true)];
  }

  lemma {:induction false} NoReceipt(log: Log, rid: string)
    ensures Receipt(log, rid).None? <==> !HasReceipt(log, rid)
  {
    if log != [] {
      var init := log[..|log| - 1];
      NoReceipt(init, rid);
      if HasReceipt(log, rid) {
        var k :| 0 <= k < |log| && log[k].move.rid == rid;
        if k < |init| { assert init[k].move.rid == rid; }
      }
      if HasReceipt(init, rid) {
        var k :| 0 <= k < |init| && init[k].move.rid == rid;
        assert log[k].move.rid == rid;
      }
    }
  }

  /** Eight attempts and no more. */
  ghost predicate Counted(c: Client) {
    c.attempt <= 8 && (Active(c) ==> c.attempt < 8) && (c.phase.Unresolved? ==> c.attempt == 8)
  }

  lemma {:induction false} StepCounted(b0: seq<int>, s: System, a: Action)
    requires forall c :: c in s.clients ==> Counted(c)
    ensures forall c :: c in Step(b0, s, a).clients ==> Counted(c)
  {
    hide Balances, Receipt, HasReceipt, Conflicts, ValidMove, Store;
    var cs, cs' := s.clients, Step(b0, s, a).clients;
    assert |cs'| == |cs| && forall j :: 0 <= j < |cs| ==> cs[j] in cs;
    assert forall j :: 0 <= j < |cs'| ==> Counted(cs'[j]);
  }

  /** In every run a request is tried at most eight times, and given up as unresolved exactly after the eighth. */
  lemma {:induction false} AttemptsBounded(b0: seq<int>, s: System, actions: seq<Action>)
    requires forall c :: c in s.clients ==> Counted(c)
    ensures forall c :: c in Run(b0, s, actions).clients ==> Counted(c)
    decreases |actions|
  {
    if actions != [] {
      StepCounted(b0, s, actions[0]);
      hide Step, Counted;
      AttemptsBounded(b0, Step(b0, s, actions[0]), actions[1..]);
    }
  }
}
