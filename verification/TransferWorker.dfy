/** One transfer and one worker's request, as the client code runs them against a single copy of the tables. */
module TransferWorker {
  import opened Prelude
  import opened Transfers

  datatype Receipt = Receipt(move: Move, host: string)

  /** One attempt's luck: a driver error before the commit, or a commit whose answer is lost with or without effect. */
  datatype Fate = Answered | ErrorBefore(code: int) | LostApplied(code: int) | LostDropped(code: int)

  const RETRYABLE: set<int> := {1047, 1062, 1205, 1213, 2002, 2003, 2006, 2013}

  datatype Reply = Host(name: string) | NoFunds | Error(code: int) | KeyReused

  /** The tables after exactly this move. */
  predicate Moved(before: seq<int>, receiptsBefore: map<string, Receipt>, after: seq<int>, receiptsAfter: map<string, Receipt>,
                  m: Move, host: string)
    requires ValidMove(m, |before|)
  {
    && after == before[m.source := before[m.source] - m.amount][m.target := before[m.target] + m.amount]
    && receiptsAfter == receiptsBefore[m.rid := Receipt(m, host)] && m.rid !in receiptsBefore && before[m.source] >= m.amount
  }

  class Bank {
    var balances: seq<int>
    var receipts: map<string, Receipt>

    constructor (balances: seq<int>)
      ensures this.balances == balances && receipts == map[]
    {
      this.balances, receipts := balances, map[];
    }

    method Transfer(m: Move, host: string, fate: Fate) returns (r: Reply)
      requires ValidMove(m, |balances|)
      modifies this
      ensures (balances == old(balances) && receipts == old(receipts)) || Moved(old(balances), old(receipts), balances, receipts, m, host)
      ensures r.Host? ==> m.rid in receipts && receipts[m.rid] == Receipt(m, r.name)
      ensures r.KeyReused? <==> m.rid in old(receipts) && old(receipts)[m.rid].move != m
      ensures r.NoFunds? ==> m.rid !in receipts && balances == old(balances) && old(balances)[m.source] < m.amount
      ensures r.Error? ==> fate != Answered && r.code == fate.code
      ensures fate.Answered? && m.rid !in old(receipts) && old(balances)[m.source] >= m.amount ==> r == Host(host)
      ensures m.rid in old(receipts) && old(receipts)[m.rid].move == m ==> r == Host(old(receipts)[m.rid].host)
      ensures m.rid !in old(receipts) ==> (r.Error? <==> fate.ErrorBefore? || (old(balances)[m.source] >= m.amount && !fate.Answered?))
      ensures (m.rid in receipts && m.rid !in old(receipts)) <==>
        m.rid !in old(receipts) && old(balances)[m.source] >= m.amount && (fate.Answered? || fate.LostApplied?)
    {
      if m.rid in receipts {
        if receipts[m.rid].move != m { return KeyReused; }
        return Host(receipts[m.rid].host);
      }
      if fate.ErrorBefore? { return Error(fate.code); }
      if balances[m.source] < m.amount { return NoFunds; }
      if fate.LostDropped? { return Error(fate.code); }
      receipts := receipts[m.rid := Receipt(m, host)];
      balances := balances[m.source := balances[m.source] - m.amount];
      balances := balances[m.target := balances[m.target] + m.amount];
      if fate.LostApplied? { return Error(fate.code); }
      r := Host(host);
    }

    /**
     * The worker's request: up to eight attempts under one request id. Whatever happened to the answers, the money
     * moved once or not at all, and a host is only ever returned with the receipt in place.
     */
    method Request(m: Move, hosts: seq<string>, fates: seq<Fate>) returns (r: Reply, resolved: bool)
      requires ValidMove(m, |balances|) && |hosts| >= ATTEMPTS && |fates| >= ATTEMPTS
      requires forall i :: 0 <= i < |balances| ==> balances[i] >= 0
      modifies this
      ensures |balances| == |old(balances)| && Sum(Same, balances) == Sum(Same, old(balances))
      ensures forall i :: 0 <= i < |balances| ==> balances[i] >= 0
      ensures m.rid in old(receipts) ==> balances == old(balances) && receipts == old(receipts)
      ensures m.rid !in receipts ==> balances == old(balances) && receipts == old(receipts)
      ensures m.rid !in old(receipts) && m.rid in receipts ==> exists host :: Moved(old(balances), old(receipts), balances, receipts, m, host)
      ensures resolved && r.Host? ==> m.rid in receipts && receipts[m.rid] == Receipt(m, r.name)
      ensures resolved <==> r.Host? || r.NoFunds?
      ensures r.NoFunds? ==> m.rid !in old(receipts) && balances == old(balances) && receipts == old(receipts) && old(balances)[m.source] < m.amount
      ensures r.KeyReused? <==> m.rid in old(receipts) && old(receipts)[m.rid].move != m
      ensures r.Error? ==> exists k :: 0 <= k < 8 && fates[k] != Answered && fates[k].code == r.code
      ensures r.Error? && r.code in {1047, 1062, 1205, 1213, 2002, 2003, 2006, 2013} ==>
        forall k :: 0 <= k < 8 ==> fates[k] != Answered && fates[k].code in {1047, 1062, 1205, 1213, 2002, 2003, 2006, 2013}
    {
      r, resolved := NoFunds, false;
      ghost var server: Option<string> := None;
      var attempt := 0;
      while attempt < ATTEMPTS
        invariant 0 <= attempt <= ATTEMPTS && |balances| == |old(balances)| && !resolved
        invariant server.None? ==> balances == old(balances) && receipts == old(receipts)
        invariant server.Some? ==> Moved(old(balances), old(receipts), balances, receipts, m, server.value)
        invariant forall k :: 0 <= k < attempt ==> fates[k] != Answered && fates[k].code in RETRYABLE
        invariant attempt > 0 ==> r.Error? && r.code == fates[attempt - 1].code
        invariant attempt > 0 ==> m.rid !in old(receipts) || old(receipts)[m.rid].move == m
      {
        ghost var unmoved := m.rid !in receipts;
        r := Transfer(m, hosts[attempt], fates[attempt]);
        if unmoved && m.rid in receipts { server := Some(hosts[attempt]); }
        if r.Host? || r.NoFunds? {
          resolved := true;
          break;
        }
        if r.KeyReused? || r.code !in RETRYABLE { break; }
        attempt := attempt + 1;
      }
      SameTotal(old(balances), m);
    }
  }

  lemma SameTotal(b: seq<int>, m: Move)
    requires ValidMove(m, |b|)
    ensures Sum(Same, b[m.source := b[m.source] - m.amount][m.target := b[m.target] + m.amount]) == Sum(Same, b)
  {
    SumUpdate(Same, b, m.source, b[m.source] - m.amount);
    SumUpdate(Same, b[m.source := b[m.source] - m.amount], m.target, b[m.target] + m.amount);
    hide Sum;
  }
}
