/** Bulk loading: the bounded retry of one request, and the batching loop in front of it. */
module Bulk {
  import opened Prelude

  datatype Record = Record(id: string, action: string, source: string)

  function RecordId(r: Record): string { r.id }

  datatype Item = Item(status: int, error: bool)

  /** What the transport brings back; stored are the request positions the server really wrote. */
  datatype Response = Lost(retryable: bool, stored: set<nat>) | Answered(items: seq<Item>, errors: bool, stored: set<nat>)

  const RETRYABLE: set<int> := {429, 502, 503, 504}

  predicate Acked(item: Item) { 200 <= item.status < 300 && !item.error }

  /** The server writes what it acknowledges. */
  ghost predicate Honest(r: Response) {
    r.Answered? ==> forall i :: 0 <= i < |r.items| && 200 <= r.items[i].status < 300 && !r.items[i].error ==> i in r.stored
  }

  datatype Failure = TransportFatal | TransportExhausted | CountMismatch | ItemFatal | ItemsExhausted | InconsistentErrors
  datatype Result<T> = Ok(value: T) | Error(failure: Failure)

  type Store = map<string, string>

  /** Index operations carry their own ids, so repeating one writes the same document again. */
  function Written(store: Store, pending: seq<Record>, stored: set<nat>): Store {
    if pending == [] then store
    else
      var rest := Written(store, pending[..|pending| - 1], stored);
      if |pending| - 1 in stored then rest[pending[|pending| - 1].id := pending[|pending| - 1].source] else rest
  }

  lemma {:induction false} WrittenAt(store: Store, pending: seq<Record>, stored: set<nat>, id: string)
    ensures (forall r :: r in pending ==> r.id != id) ==>
      (id in Written(store, pending, stored) <==> id in store) && (id in store ==> Written(store, pending, stored)[id] == store[id])
    ensures id in store ==> id in Written(store, pending, stored)
    decreases |pending|
  {
    if pending != [] {
      WrittenAt(store, pending[..|pending| - 1], stored, id);
      assert pending[|pending| - 1] in pending;
    }
  }

  lemma {:induction false} WrittenOwn(store: Store, pending: seq<Record>, stored: set<nat>, k: nat)
    requires k < |pending| && Distinct(RecordId, pending) && (k in stored || (pending[k].id in store && store[pending[k].id] == pending[k].source))
    ensures var s := Written(store, pending, stored); pending[k].id in s && s[pending[k].id] == pending[k].source
    decreases |pending|
  {
    var p, last := pending[..|pending| - 1], pending[|pending| - 1];
    if k < |p| {
      WrittenOwn(store, p, stored, k);
      assert RecordId(pending[k]) != RecordId(last);
    } else if k !in stored {
      forall r | r in p ensures r.id != last.id {
        var i :| 0 <= i < |p| && p[i] == r;
        assert RecordId(pending[i]) != RecordId(last);
      }
      WrittenAt(store, p, stored, last.id);
    }
  }

  /** Nothing but the pending records' own content is ever written. */
  ghost predicate OwnContent(before: Store, after: Store, records: seq<Record>) {
    && (forall id :: id in after && (id !in before || after[id] != before[id]) ==> exists r :: r in records && r.id == id && r.source == after[id])
    && (forall id :: id in before ==> id in after)
  }

  lemma {:induction false} WrittenContent(store: Store, pending: seq<Record>, stored: set<nat>)
    ensures OwnContent(store, Written(store, pending, stored), pending)
    decreases |pending|
  {
    if pending != [] {
      var p := pending[..|pending| - 1];
      WrittenContent(store, p, stored);
      assert forall r :: r in p ==> r in pending;
      assert pending[|pending| - 1] in pending;
    }
  }

  lemma {:induction false} ContentTwice(a: Store, b: Store, c: Store, records: seq<Record>, pending: seq<Record>)
    requires OwnContent(a, b, records) && OwnContent(b, c, pending) && forall r :: r in pending ==> r in records
    ensures OwnContent(a, c, records)
  {
  }

  ghost predicate Holds(store: Store, r: Record) { r.id in store && store[r.id] == r.source }

  /** Positions to send again: unacknowledged, with a retryable status. */
  function Again(pending: seq<Record>, items: seq<Item>): (r: seq<Record>)
    requires |pending| == |items|
    ensures forall x :: x in r ==> x in pending
    ensures |r| <= |pending|
  {
    if pending == [] then []
    else (if !Acked(items[0]) && items[0].status in RETRYABLE then [pending[0]] else []) + Again(pending[1..], items[1..])
  }

  predicate AnyFatal(items: seq<Item>) { exists i :: 0 <= i < |items| && !Acked(items[i]) && items[i].status !in RETRYABLE }

  lemma {:induction false} AgainDistinct(pending: seq<Record>, items: seq<Item>)
    requires |pending| == |items| && Distinct(RecordId, pending)
    ensures Distinct(RecordId, Again(pending, items))
  {
    if pending != [] {
      assert forall i, j :: 0 <= i < j < |pending| - 1 ==> pending[1..][i] == pending[i + 1] && pending[1..][j] == pending[j + 1];
      AgainDistinct(pending[1..], items[1..]);
      var rest := Again(pending[1..], items[1..]);
      forall j | 0 <= j < |rest| ensures RecordId(pending[0]) != RecordId(rest[j]) {
        assert rest[j] in pending[1..];
        var i :| 0 <= i < |pending[1..]| && pending[1..][i] == rest[j];
        assert RecordId(pending[0]) != RecordId(pending[i + 1]);
      }
    }
  }

  /** Without a fatal item, what is not sent again was acknowledged. */
  lemma {:induction false} SettledWasAcked(pending: seq<Record>, items: seq<Item>, k: nat)
    requires |pending| == |items| && k < |pending| && !AnyFatal(items) && pending[k] !in Again(pending, items)
    ensures Acked(items[k])
  {
    assert !Acked(items[0]) ==> items[0].status in RETRYABLE;
    assert !Acked(items[0]) ==> Again(pending, items)[0] == pending[0];
    if k > 0 {
      forall i | 0 <= i < |items[1..]| ensures Acked(items[1..][i]) || items[1..][i].status in RETRYABLE { assert items[i + 1] == items[1..][i]; }
      SettledWasAcked(pending[1..], items[1..], k - 1);
    }
  }

  /** Nothing is sent again exactly if every item was acknowledged or is fatal. */
  lemma {:induction false} AgainNone(pending: seq<Record>, items: seq<Item>)
    requires |pending| == |items|
    ensures Again(pending, items) == [] <==> forall i :: 0 <= i < |items| ==> Acked(items[i]) || items[i].status !in RETRYABLE
  {
    if pending != [] {
      AgainNone(pending[1..], items[1..]);
      hide Acked, Again;
      assert Again(pending, items) == (if !Acked(items[0]) && items[0].status in RETRYABLE then [pending[0]] else []) + Again(pending[1..], items[1..]) by {
        AgainStep(pending, items);
      }
      assert forall i :: 0 <= i < |items| - 1 ==> items[1..][i] == items[i + 1];
      if Again(pending[1..], items[1..]) != [] {
        var i :| 0 <= i < |items[1..]| && !Acked(items[1..][i]) && items[1..][i].status in RETRYABLE;
        assert items[i + 1] == items[1..][i];
      } else {
        forall i | 1 <= i < |items| ensures Acked(items[i]) || items[i].status !in RETRYABLE { assert items[1..][i - 1] == items[i]; }
      }
    }
  }

  lemma AgainStep(pending: seq<Record>, items: seq<Item>)
    requires |pending| == |items| && pending != []
    ensures Again(pending, items) == (if !Acked(items[0]) && items[0].status in RETRYABLE then [pending[0]] else []) + Again(pending[1..], items[1..])
  {
  }

  // ---- which responses end a request, and how ----

  /** What is left to send before request k. */
  function Remaining(records: seq<Record>, responses: seq<Response>, k: nat): seq<Record>
    requires k <= |responses|
  {
    if k == 0 then records
    else
      var p := Remaining(records, responses, k - 1);
      match responses[k - 1]
      case Lost(_, _) => p
      case Answered(items, _, _) => if |items| == |p| then Again(p, items) else []
  }

  ghost predicate AllAcked(items: seq<Item>) { forall i :: 0 <= i < |items| ==> 200 <= items[i].status < 300 && !items[i].error }

  ghost predicate NoneFatal(items: seq<Item>) {
    forall i :: 0 <= i < |items| ==> (200 <= items[i].status < 300 && !items[i].error) || items[i].status in {429, 502, 503, 504}
  }

  /** The request is repeated: no usable answer, or an answer without fatal items but with some to retry. */
  ghost predicate Repeats(p: seq<Record>, r: Response) {
    match r
    case Lost(retryable, _) => retryable
    case Answered(items, _, _) => |items| == |p| && NoneFatal(items) && !AllAcked(items)
  }

  /** How a response ends the loop, if it is not repeated or was the last one allowed. */
  ghost predicate Ends(p: seq<Record>, r: Response, failure: Option<Failure>) {
    match failure
    case None => r.Answered? && |r.items| == |p| && AllAcked(r.items) && !r.errors
    case Some(TransportFatal) => r.Lost? && !r.retryable
    case Some(TransportExhausted) => r.Lost? && r.retryable
    case Some(CountMismatch) => r.Answered? && |r.items| != |p|
    case Some(ItemFatal) => r.Answered? && |r.items| == |p| && !NoneFatal(r.items)
    case Some(ItemsExhausted) => r.Answered? && |r.items| == |p| && NoneFatal(r.items) && !AllAcked(r.items)
    case Some(InconsistentErrors) => r.Answered? && |r.items| == |p| && AllAcked(r.items) && r.errors
  }

  ghost predicate RepeatsBefore(records: seq<Record>, responses: seq<Response>, k: nat)
    requires k <= |responses|
  {
    forall j :: 0 <= j < k ==> Repeats(Remaining(records, responses, j), responses[j])
  }

  /** Some allowed request is answered clean, and all before it are repeated. */
  ghost predicate Delivered(records: seq<Record>, responses: seq<Response>, retries: nat)
    requires |responses| > retries
  {
    exists k :: 0 <= k <= retries && RepeatsBefore(records, responses, k) && Ends(Remaining(records, responses, k), responses[k], None)
  }

  function Failed(r: Result<nat>): Option<Failure> { match r case Ok(_) => None case Error(failure) => Some(failure) }

  lemma {:induction false} DeliveredExactly(records: seq<Record>, responses: seq<Response>, retries: nat, k: nat, failure: Option<Failure>)
    requires |responses| > retries && k <= retries && RepeatsBefore(records, responses, k)
    requires Ends(Remaining(records, responses, k), responses[k], failure)
    requires failure == Some(TransportExhausted) || failure == Some(ItemsExhausted) ==> k == retries
    ensures failure.None? <==> Delivered(records, responses, retries)
  {
    hide Remaining, NoneFatal, AllAcked;
    if Delivered(records, responses, retries) {
      var j :| 0 <= j <= retries && RepeatsBefore(records, responses, j) && Ends(Remaining(records, responses, j), responses[j], None);
      if j < k {
        assert false;
      } else if k < j {
        RepeatedEnds(Remaining(records, responses, k), responses[k], failure);
        assert false;
      } else {
        EndsOnce(Remaining(records, responses, k), responses[k], failure);
      }
    }
  }

  lemma RepeatedEnds(p: seq<Record>, r: Response, failure: Option<Failure>)
    requires Repeats(p, r) && Ends(p, r, failure)
    ensures failure == Some(TransportExhausted) || failure == Some(ItemsExhausted)
  {
    hide NoneFatal, AllAcked;
  }

  lemma EndsOnce(p: seq<Record>, r: Response, failure: Option<Failure>)
    requires Ends(p, r, None) && Ends(p, r, failure)
    ensures failure.None?
  {
    AckedNotFatal(p, r);
    hide NoneFatal, AllAcked;
  }

  lemma AckedNotFatal(p: seq<Record>, r: Response)
    ensures r.Answered? && AllAcked(r.items) ==> NoneFatal(r.items)
  {
  }

  lemma {:induction false} ItemsMean(pending: seq<Record>, items: seq<Item>)
    requires |pending| == |items|
    ensures AnyFatal(items) <==> !NoneFatal(items)
    ensures NoneFatal(items) ==> (Again(pending, items) == [] <==> AllAcked(items))
  {
    AgainNone(pending, items);
    hide Again;
  }

  class Cluster {
    var store: Store
    var requests: nat

    constructor ()
      ensures store == map[] && requests == 0
    {
      store, requests := map[], 0;
    }

    method Post(pending: seq<Record>, response: Response)
      modifies this
      ensures store == Written(old(store), pending, response.stored) && requests == old(requests) + 1
    {
      var i := 0;
      while i < |pending|
        invariant 0 <= i <= |pending| && requests == old(requests)
        invariant store == Written(old(store), pending[..i], response.stored)
      {
        assert pending[..i + 1][..i] == pending[..i];
        if i in response.stored { store := store[pending[i].id := pending[i].source]; }
        i := i + 1;
      }
      assert pending[..|pending|] == pending;
      requests := requests + 1;
    }
  }

  /**
   * bulk_send: at most retries + 1 requests; on return every record is stored with its own content, and in any
   * case nothing else was written.
   */
  method BulkSend(cluster: Cluster, records: seq<Record>, retries: nat, responses: seq<Response>) returns (r: Result<nat>)
    requires Distinct(RecordId, records) && |responses| > retries && forall x :: x in responses ==> Honest(x)
    modifies cluster
    ensures old(cluster.requests) < cluster.requests <= old(cluster.requests) + retries + 1
    ensures OwnContent(old(cluster.store), cluster.store, records)
    ensures r.Ok? ==> r.value == |records| && forall x :: x in records ==> Holds(cluster.store, x)
    ensures r.Error? && (r.failure.TransportExhausted? || r.failure.ItemsExhausted?) ==> cluster.requests == old(cluster.requests) + retries + 1
    ensures var k := cluster.requests - old(cluster.requests) - 1;
      RepeatsBefore(records, responses, k) && Ends(Remaining(records, responses, k), responses[k], Failed(r))
    ensures r.Ok? <==> Delivered(records, responses, retries)
  {
    hide RepeatsBefore, Delivered, NoneFatal, AllAcked, Remaining, OwnContent, Holds, Written, Again, AnyFatal, Honest;
    var pending, attempt := records, 0;
    NothingSent(records, responses);
    NothingChanged(cluster.store, records);
    while true
      invariant 0 <= attempt <= retries && cluster.requests == old(cluster.requests) + attempt
      invariant Distinct(RecordId, pending) && forall x :: x in pending ==> x in records
      invariant OwnContent(old(cluster.store), cluster.store, records)
      invariant forall x :: x in records && x !in pending ==> Holds(cluster.store, x)
      invariant pending == Remaining(records, responses, attempt) && RepeatsBefore(records, responses, attempt)
      decreases retries - attempt
    {
      var response := responses[attempt];
      SentKeeps(old(cluster.store), cluster.store, records, pending, response.stored);
      cluster.Post(pending, response);
      match response {
        case Lost(retryable, _) =>
          if !retryable {
            DeliveredExactly(records, responses, retries, attempt, Some(TransportFatal));
            return Error(TransportFatal);
          }
          if attempt == retries {
            DeliveredExactly(records, responses, retries, attempt, Some(TransportExhausted));
            return Error(TransportExhausted);
          }
        case Answered(items, errors, stored) =>
          if |items| != |pending| {
            DeliveredExactly(records, responses, retries, attempt, Some(CountMismatch));
            return Error(CountMismatch);
          }
          ItemsMean(pending, items);
          if AnyFatal(items) {
            DeliveredExactly(records, responses, retries, attempt, Some(ItemFatal));
            return Error(ItemFatal);
          }
          var again := Again(pending, items);
          AckedStored(response);
          Settled(cluster.store, records, pending, items);
          if again == [] {
            DeliveredExactly(records, responses, retries, attempt, if errors then Some(InconsistentErrors) else None);
            if errors { return Error(InconsistentErrors); }
            return Ok(|records|);
          }
          AgainDistinct(pending, items);
          if attempt == retries {
            DeliveredExactly(records, responses, retries, attempt, Some(ItemsExhausted));
            return Error(ItemsExhausted);
          }
          pending := again;
      }
      RemainingNext(records, responses, attempt);
      attempt := attempt + 1;
    }
  }

  lemma AckedStored(r: Response)
    requires Honest(r)
    ensures r.Answered? ==> forall i :: 0 <= i < |r.items| && Acked(r.items[i]) ==> i in r.stored
  {
  }

  lemma NothingChanged(store: Store, records: seq<Record>)
    ensures OwnContent(store, store, records)
  {
  }

  lemma NothingSent(records: seq<Record>, responses: seq<Response>)
    ensures Remaining(records, responses, 0) == records && RepeatsBefore(records, responses, 0)
  {
  }

  lemma RemainingNext(records: seq<Record>, responses: seq<Response>, k: nat)
    requires k < |responses| && RepeatsBefore(records, responses, k) && Repeats(Remaining(records, responses, k), responses[k])
    ensures RepeatsBefore(records, responses, k + 1)
    ensures var p, r := Remaining(records, responses, k), responses[k];
      Remaining(records, responses, k + 1) == match r case Lost(_, _) => p case Answered(items, _, _) => if |items| == |p| then Again(p, items) else []
  {
    hide NoneFatal, AllAcked, Again, Repeats;
  }

  lemma {:induction false} SentKeeps(before: Store, store: Store, records: seq<Record>, pending: seq<Record>, stored: set<nat>)
    requires Distinct(RecordId, records) && Distinct(RecordId, pending) && forall x :: x in pending ==> x in records
    requires OwnContent(before, store, records)
    ensures OwnContent(before, Written(store, pending, stored), records)
    ensures forall x :: x in records && x !in pending && Holds(store, x) ==> Holds(Written(store, pending, stored), x)
    ensures forall k :: 0 <= k < |pending| && k in stored ==> Holds(Written(store, pending, stored), pending[k])
  {
    hide OwnContent, Written, Distinct, Holds;
    WrittenContent(store, pending, stored);
    ContentTwice(before, store, Written(store, pending, stored), records, pending);
    forall x | x in records && x !in pending && Holds(store, x) ensures Holds(Written(store, pending, stored), x) {
      OthersKept(store, records, pending, stored, x);
    }
    forall k | 0 <= k < |pending| && k in stored ensures Holds(Written(store, pending, stored), pending[k]) {
      OwnWritten(store, pending, stored, k);
    }
  }

  lemma OwnWritten(store: Store, pending: seq<Record>, stored: set<nat>, k: nat)
    requires Distinct(RecordId, pending) && k < |pending| && k in stored
    ensures Holds(Written(store, pending, stored), pending[k])
  {
    WrittenOwn(store, pending, stored, k);
    hide Written;
  }

  lemma {:induction false} OthersKept(store: Store, records: seq<Record>, pending: seq<Record>, stored: set<nat>, x: Record)
    requires Distinct(RecordId, records) && forall y :: y in pending ==> y in records
    requires x in records && x !in pending && Holds(store, x)
    ensures Holds(Written(store, pending, stored), x)
  {
    hide Written, Distinct;
    forall y | y in pending ensures y.id != x.id { if y.id == x.id { Same(records, x, y); } }
    WrittenAt(store, pending, stored, x.id);
  }

  lemma Same(records: seq<Record>, x: Record, y: Record)
    requires Distinct(RecordId, records) && x in records && y in records && x.id == y.id
    ensures x == y
  {
    LookupUnique(RecordId, records, x);
    LookupUnique(RecordId, records, y);
  }

  lemma {:induction false} Settled(store: Store, records: seq<Record>, pending: seq<Record>, items: seq<Item>)
    requires |pending| == |items| && !AnyFatal(items)
    requires forall k :: 0 <= k < |pending| && Acked(items[k]) ==> Holds(store, pending[k])
    requires forall x :: x in records && x !in pending ==> Holds(store, x)
    ensures forall x :: x in records && x !in Again(pending, items) ==> Holds(store, x)
  {
    hide Holds, AnyFatal, Acked;
    forall x | x in records && x !in Again(pending, items) ensures Holds(store, x) {
      if x in pending {
        var k :| 0 <= k < |pending| && pending[k] == x;
        SettledWasAcked(pending, items, k);
      }
    }
  }

  // ---- seed_index ----

  function Size(r: Record): int { |r.action| + |r.source| + 2 }
  function Bytes(rs: seq<Record>): int { Sum(Size, rs) }

  function Flatten(bs: seq<seq<Record>>): seq<Record> { if bs == [] then [] else Flatten(bs[..|bs| - 1]) + bs[|bs| - 1] }

  ghost predicate GoodBatch(b: seq<Record>, batchSize: int, limit: int) {
    b != [] && (|b| <= batchSize || |b| == 1) && Bytes(b) <= limit
  }

  /** There was no room left in a batch for the next document. */
  ghost predicate Over(b: seq<Record>, next: Record, batchSize: int, limit: int) { |b| >= batchSize || Bytes(b) + Size(next) > limit }

  ghost predicate FullAt(sent: seq<seq<Record>>, i: int, batchSize: int, limit: int) {
    0 <= i < |sent| - 1 ==> sent[i + 1] != [] && Over(sent[i], sent[i + 1][0], batchSize, limit)
  }

  /** Every batch but the last was sent because the next document did not fit. */
  ghost predicate Greedy(sent: seq<seq<Record>>, batchSize: int, limit: int) { forall i :: FullAt(sent, i, batchSize, limit) }

  ghost predicate GoodBatches(sent: seq<seq<Record>>, batchSize: int, limit: int) { forall b :: b in sent ==> GoodBatch(b, batchSize, limit) }

  /** Where the loop stands after the documents done. */
  ghost predicate Packed(sent: seq<seq<Record>>, pending: seq<Record>, done: seq<Record>, batchSize: int, limit: int) {
    && Flatten(sent) + pending == done && GoodBatches(sent, batchSize, limit) && Greedy(sent, batchSize, limit)
    && (pending != [] ==> GoodBatch(pending, batchSize, limit))
    && (sent != [] ==> pending != [] && Over(sent[|sent| - 1], pending[0], batchSize, limit))
    && forall d :: d in done ==> Size(d) <= limit
  }

  lemma {:induction false} Flushed(sent: seq<seq<Record>>, pending: seq<Record>, done: seq<Record>, batchSize: int, limit: int)
    requires Packed(sent, pending, done, batchSize, limit) && pending != []
    ensures Flatten(sent + [pending]) == done && GoodBatches(sent + [pending], batchSize, limit) && Greedy(sent + [pending], batchSize, limit)
  {
    hide GoodBatch, Over, Flatten;
    FlattenAppend(sent, pending);
    forall i ensures FullAt(sent + [pending], i, batchSize, limit) { assert FullAt(sent, i, batchSize, limit); }
  }

  /** One more document, in this batch or as the first of the next. */
  lemma {:induction false} PackNext(sent: seq<seq<Record>>, pending: seq<Record>, done: seq<Record>, d: Record, batchSize: int, limit: int)
    requires Packed(sent, pending, done, batchSize, limit) && Size(d) <= limit
    ensures var full := pending != [] && Over(pending, d, batchSize, limit);
      Packed(if full then sent + [pending] else sent, if full then [d] else pending + [d], done + [d], batchSize, limit)
    ensures Bytes(pending + [d]) == Bytes(pending) + Size(d) && Bytes([d]) == Size(d)
  {
    hide Flatten, Bytes;
    BytesAppend(pending, d);
    if pending != [] && Over(pending, d, batchSize, limit) {
      Flushed(sent, pending, done, batchSize, limit);
      hide Greedy, GoodBatches, Over;
    } else {
      assert Flatten(sent) + (pending + [d]) == done + [d];
      hide Greedy, GoodBatches;
    }
  }

  lemma BytesAppend(rs: seq<Record>, d: Record)
    ensures Bytes(rs + [d]) == Bytes(rs) + Size(d) && Bytes([d]) == Size(d) && Bytes([]) == 0
  {
    SumAppend(Size, rs, d);
    SumAppend(Size, [], d);
    assert [] + [d] == [d];
  }

  /** The batches a client is sent, or None when one document alone is over the limit; sent is what went out before that. */
  method Batches(docs: seq<Record>, batchSize: int, limit: int) returns (ok: bool, sent: seq<seq<Record>>)
    ensures forall b :: b in sent ==> GoodBatch(b, batchSize, limit)
    ensures ok ==> Flatten(sent) == docs
    ensures !ok ==> Flatten(sent) <= docs
    ensures ok <==> forall d :: d in docs ==> Size(d) <= limit
    ensures Greedy(sent, batchSize, limit)
  {
    hide Flatten, Bytes, Greedy, GoodBatch, Packed, FullAt;
    sent := [];
    var pending, bytes := [], 0;
    NothingPacked(batchSize, limit);
    for i := 0 to |docs|
      invariant Packed(sent, pending, docs[..i], batchSize, limit) && bytes == Bytes(pending)
    {
      var d := docs[i];
      assert docs[..i + 1] == docs[..i] + [d];
      PackedMeans(sent, pending, docs[..i], batchSize, limit);
      if Size(d) > limit {
        assert docs[..i] <= docs;
        return false, sent;
      }
      PackNext(sent, pending, docs[..i], d, batchSize, limit);
      if pending != [] && (|pending| >= batchSize || bytes + Size(d) > limit) {
        sent := sent + [pending];
        pending, bytes := [], 0;
        BytesAppend([], d);
        assert pending + [d] == [d];
      }
      pending, bytes := pending + [d], bytes + Size(d);
    }
    assert docs[..|docs|] == docs;
    PackedMeans(sent, pending, docs, batchSize, limit);
    if pending != [] {
      Flushed(sent, pending, docs, batchSize, limit);
      sent := sent + [pending];
    }
    ok := true;
  }

  lemma NothingPacked(batchSize: int, limit: int)
    ensures Packed([], [], [], batchSize, limit) && Bytes([]) == 0
  {
  }

  lemma PackedMeans(sent: seq<seq<Record>>, pending: seq<Record>, done: seq<Record>, batchSize: int, limit: int)
    requires Packed(sent, pending, done, batchSize, limit)
    ensures GoodBatches(sent, batchSize, limit) && Greedy(sent, batchSize, limit) && Flatten(sent) <= done
    ensures (pending == [] ==> Flatten(sent) == done) && forall d :: d in done ==> Size(d) <= limit
  {
    hide Flatten, Greedy, GoodBatches;
  }

  lemma FlattenAppend(bs: seq<seq<Record>>, b: seq<Record>)
    ensures Flatten(bs + [b]) == Flatten(bs) + b
  {
    assert (bs + [b])[..|bs|] == bs;
  }

  /**
   * seed_index with a client: each full batch goes through bulk_send, the first failure ends the run. Building the
   * batches has no effect on the cluster, so they are built first and sent in the same order.
   */
  method SeedIndex(cluster: Cluster, docs: seq<Record>, batchSize: int, limit: int, retries: nat, responses: seq<seq<Response>>)
      returns (done: bool, sent: seq<seq<Record>>)
    requires Distinct(RecordId, docs) && |responses| >= |docs|
    requires forall rs :: rs in responses ==> |rs| > retries && forall x :: x in rs ==> Honest(x)
    modifies cluster
    ensures OwnContent(old(cluster.store), cluster.store, docs)
    ensures done ==> (forall d :: d in docs ==> Holds(cluster.store, d) && Size(d) <= limit)
    ensures (forall b :: b in sent ==> GoodBatch(b, batchSize, limit)) && Greedy(sent, batchSize, limit) && |sent| <= |docs|
    ensures Flatten(sent) <= docs && ((forall d :: d in docs ==> Size(d) <= limit) ==> Flatten(sent) == docs)
    ensures done <==> (forall d :: d in docs ==> Size(d) <= limit) && forall i :: 0 <= i < |sent| ==> Delivered(sent[i], responses[i], retries)
  {
    hide OwnContent, Flatten, Bytes, Delivered, Ends, RepeatsBefore, Greedy, Holds, Honest, Distinct;
    var ok;
    ok, sent := Batches(docs, batchSize, limit);
    forall i | 0 <= i < |sent| ensures |sent[i]| > 0 { assert GoodBatch(sent[i], batchSize, limit); }
    hide GoodBatch;
    NoMoreBatches(sent);
    FlattenStart(sent);
    NothingChanged(cluster.store, docs);
    for i := 0 to |sent|
      invariant OwnContent(old(cluster.store), cluster.store, docs)
      invariant forall d :: d in Flatten(sent[..i]) ==> Holds(cluster.store, d)
      invariant forall j :: 0 <= j < i ==> Delivered(sent[j], responses[j], retries)
    {
      assert forall x :: x in responses[i] ==> Honest(x);
      BatchOf(docs, sent, i);
      ghost var before := cluster.store;
      var r := BulkSend(cluster, sent[i], retries, responses[i]);
      ContentTwice(old(cluster.store), before, cluster.store, docs, sent[i]);
      if r.Error? { return false, sent; }
      FlattenStep(sent, i);
      forall d | d in Flatten(sent[..i + 1]) ensures Holds(cluster.store, d) {
        if d !in sent[i] { StillHolds(before, cluster.store, docs, sent[i], d); }
      }
    }
    assert sent[..|sent|] == sent;
    done := ok;
  }

  lemma FlattenStart(bs: seq<seq<Record>>)
    ensures Flatten(bs[..0]) == []
  {
  }

  lemma {:induction false} NoMoreBatches(bs: seq<seq<Record>>)
    requires forall i :: 0 <= i < |bs| ==> |bs[i]| > 0
    ensures |bs| <= |Flatten(bs)|
  {
    if bs != [] {
      NoMoreBatches(bs[..|bs| - 1]);
    }
  }

  lemma {:induction false} FlattenStep(bs: seq<seq<Record>>, i: nat)
    requires i < |bs|
    ensures Flatten(bs[..i + 1]) == Flatten(bs[..i]) + bs[i]
  {
    assert bs[..i + 1][..i] == bs[..i];
  }

  lemma {:induction false} FlattenPrefix(bs: seq<seq<Record>>, i: nat)
    requires i <= |bs|
    ensures Flatten(bs[..i]) <= Flatten(bs)
    decreases |bs| - i
  {
    if i < |bs| {
      FlattenStep(bs, i);
      FlattenPrefix(bs, i + 1);
    } else {
      assert bs[..i] == bs;
    }
  }

  /** A batch is a stretch of the documents, so its ids are distinct too. */
  lemma {:induction false} BatchOf(docs: seq<Record>, bs: seq<seq<Record>>, i: nat)
    requires Distinct(RecordId, docs) && Flatten(bs) <= docs && i < |bs|
    ensures Distinct(RecordId, bs[i]) && (forall x :: x in bs[i] ==> x in docs) && forall x :: x in Flatten(bs[..i]) ==> x in docs
  {
    FlattenStep(bs, i);
    FlattenPrefix(bs, i + 1);
    var from := |Flatten(bs[..i])|;
    assert forall k :: 0 <= k < |bs[i]| ==> bs[i][k] == docs[from + k];
    assert forall k :: 0 <= k < from ==> Flatten(bs[..i])[k] == docs[k];
    forall a, b | 0 <= a < b < |bs[i]| ensures RecordId(bs[i][a]) != RecordId(bs[i][b]) {
      assert RecordId(docs[from + a]) != RecordId(docs[from + b]);
    }
  }

  lemma {:induction false} StillHolds(before: Store, after: Store, docs: seq<Record>, sent: seq<Record>, d: Record)
    requires Distinct(RecordId, docs) && d in docs && Holds(before, d) && OwnContent(before, after, sent)
    requires forall x :: x in sent ==> x in docs
    ensures Holds(after, d)
  {
    if after[d.id] != before[d.id] {
      var r :| r in sent && r.id == d.id && r.source == after[d.id];
      Same(docs, r, d);
    }
  }
}
