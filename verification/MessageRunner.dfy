/** The message exercise's runner as an object: its loops over the source topic, the dead-letter topic and the index. */
module MessageRunner {
  import opened Prelude
  import opened Orders
  import opened Pipeline
  import opened PipelineLaws
  import opened Quarantine
  import opened Messages
  import opened Repair

  class Runner {
    const w: Setting
    var log: seq<Message>
    var index: Index
    var dlq: seq<Record>
    var committed: nat

    constructor (w: Setting, log: seq<Message>)
      ensures this.w == w && Contents() == State(log, map[], [], 0) && Accounted(w, Contents())
    {
      this.w, this.log, index, dlq, committed := w, log, map[], [], 0;
    }

    function Contents(): State
      reads this
    {
      State(log, index, dlq, committed)
    }

    method IndexDocument(o: Order, fate: IndexFate) returns (failure: Option<Failure>)
      modifies this`index
      ensures (index, failure) == IndexCall(old(index), o, fate)
    {
      if fate.MappingRejected? { return Some(HttpFailure(400, fate.errorType)); }
      if fate.Fails? && !fate.applied { return Some(OtherFailure); }
      var conflict := o.id in index && index[o.id].version >= o.version;
      if !conflict { index := index[o.id := Doc(o, o.version)]; }
      if fate.Fails? { return Some(OtherFailure); }
      if conflict {
        var stored := index[o.id];
        if stored.source.version != stored.version || stored.source.id != o.id {
          return Some(ProblemFailure(409, "projection_version_metadata_mismatch"));
        }
        if stored.version == o.version && stored.source != o { return Some(ProblemFailure(409, "event_version_payload_conflict")); }
      }
      failure := None;
    }

    method Quarantine(handling: Handling, luck: Luck, e: Failure, stage: Stage) returns (r: Outcome)
      requires committed < |log|
      modifies this`dlq, this`committed
      ensures (Contents(), r) == SetAside(w, old(Contents()), handling, luck, e, stage)
    {
      var reason := PermanentReason(e, stage);
      if reason.None? { return RaisedAgain; }
      if handling.Strict? { return Blocked(reason.value); }
      var m := log[committed];
      var record := QuarantineRecord(w.h, w.scope, w.topicId, Position(w.scope.topic, 0, committed), m.key, m.raw, reason.value);
      if record.None? { return RaisedAgain; }
      if !luck.quarantine.LostDropped? { dlq := dlq + [record.value]; }
      if !luck.quarantine.Answered? || luck.inject { return RaisedAgain; }
      if !luck.commit.LostDropped? { committed := committed + 1; }
      r := if luck.commit.Answered? then Done(true) else RaisedAgain;
    }

    method ProcessRecord(handling: Handling, luck: Luck) returns (r: Outcome)
      requires committed < |log|
      modifies this`index, this`dlq, this`committed
      ensures (Contents(), r) == Process(w, old(Contents()), handling, luck)
    {
      hide DecodeRecord, IndexCall, SetAside;
      var decoded := DecodeRecord(w, log[committed]);
      if decoded.Problem? {
        r := Quarantine(handling, luck, ProblemFailure(decoded.status, decoded.code), AtDecode);
        return;
      }
      var failure := IndexDocument(decoded.value.order, luck.index);
      if failure.Some? {
        r := Quarantine(handling, luck, failure.value, AtProject);
        return;
      }
      if luck.inject { return RaisedAgain; }
      if !luck.commit.LostDropped? { committed := committed + 1; }
      r := if luck.commit.Answered? then Done(false) else RaisedAgain;
    }

    /** consume: up to count records; any exception ends it with the reader closed and nothing more committed. */
    method Consume(count: nat, handling: Handling, lucks: seq<Luck>) returns (results: seq<Outcome>)
      requires |lucks| >= count
      modifies this`index, this`dlq, this`committed
      ensures (Contents(), results) == Consumed(w, old(Contents()), handling, lucks[..count])
      ensures old(Accounted(w, Contents())) ==> Accounted(w, Contents())
      ensures log == old(log) && Rises(old(index), index) && old(dlq) <= dlq
      ensures handling.Strict? ==> dlq == old(dlq) && (old(AllInIndex(w, Contents())) ==> AllInIndex(w, Contents()))
      ensures forall i :: 0 <= i < |results| - 1 ==> results[i].Done?
      ensures (forall i :: 0 <= i < |results| ==> results[i].Done?) ==> committed == old(committed) + |results|
    {
      hide Process, Accounted, AllInIndex, Consumed, Rises;
      results := [];
      ghost var s0 := Contents();
      NothingConsumed(w, s0, handling);
      ConsumedFacts(w, s0, handling, lucks[..count]);
      if handling.Strict? { ConsumedStrict(w, s0, lucks[..count]); }
      assert lucks[..0] == [];
      while |results| < count && committed < |log|
        invariant |results| <= count && (Contents(), results) == Consumed(w, s0, handling, lucks[..|results|])
        invariant forall i :: 0 <= i < |results| ==> results[i].Done?
        decreases count - |results|
      {
        var n, luck := |results|, lucks[|results|];
        ConsumedAppend(w, s0, handling, lucks[..n], luck);
        assert lucks[..n] + [luck] == lucks[..n + 1];
        var r := ProcessRecord(handling, luck);
        results := results + [r];
        assert results[n] == r;
        if !r.Done? { break; }
      }
      ConsumedStops(w, s0, handling, lucks[..|results|], lucks[..count]);
    }

    /**
     * repair: check and deduplicate the dead-letter topic, send one event a record, consume as many. An exception on
     * the way ends it with what was sent; sqls are the tables each lookup meets, sends how each publish ends.
     */
    method RepairAll(allowed: map<string, string>, sqls: seq<Sql>, expected: nat, sends: seq<Reply>, lucks: seq<Luck>)
      returns (sent: seq<Event>, results: Option<seq<Outcome>>)
      requires |sqls| == |sends| == |lucks| == expected
      modifies this`log, this`index, this`dlq, this`committed
      ensures dlq == old(dlq) && log == old(log) + Sent(w, sent)
      ensures results.Some? <==> Planned(w, dlq, allowed, sqls).Some? && forall i :: 0 <= i < expected ==> sends[i].Answered?
      ensures results.Some? ==> Planned(w, dlq, allowed, sqls) == Some(sent)
      ensures results.Some? ==> (Contents(), results.value) == Consumed(w, old(Contents()).(log := log), Strict, lucks)
      ensures results.None? ==> index == old(index) && committed == old(committed)
    {
      hide Repairs, Unique, CheckedQuarantine, Consumed, AllInIndex, Accounted, Sent;
      var unique := Deduplicate();
      if unique.None? || |unique.value| != expected {
        NoneSent(w, log);
        return [], None;
      }
      var ok;
      sent, ok := SendAll(unique.value, allowed, sqls, sends);
      if !ok { return sent, None; }
      ghost var before := Contents();
      ConsumedStrict(w, before, lucks);
      assert lucks[..expected] == lucks;
      var outcomes := Consume(expected, Strict, lucks);
      results := Some(outcomes);
    }

    method SendAll(records: seq<Record>, allowed: map<string, string>, sqls: seq<Sql>, sends: seq<Reply>)
      returns (sent: seq<Event>, ok: bool)
      requires |records| == |sqls| == |sends|
      modifies this`log
      ensures log == old(log) + Sent(w, sent)
      ensures ok <==> Repairs(w, records, allowed, sqls).Some? && forall i :: 0 <= i < |sends| ==> sends[i].Answered?
      ensures ok ==> Repairs(w, records, allowed, sqls) == Some(sent)
    {
      hide Repairs, RepairEvent, Sent, MessageOf;
      sent := [];
      NoneSent(w, log);
      NoRepairs(w, allowed, sqls);
      assert records[..0] == [];
      for i := 0 to |records|
        invariant Repairs(w, records[..i], allowed, sqls) == Some(sent)
        invariant log == old(log) + Sent(w, sent)
        invariant forall j :: 0 <= j < i ==> sends[j].Answered?
      {
        RepairsNext(w, records, allowed, sqls, i);
        var e := RepairEvent(w, records[i], allowed, Keyed(sqls[i]));
        if e.None? { return sent, false; }
        if !sends[i].LostDropped? {
          SentAppend(w, old(log), sent, e.value);
          log := log + [MessageOf(w, e.value)];
          sent := sent + [e.value];
        }
        if !sends[i].Answered? { return sent, false; }
      }
      assert records[..|records|] == records;
      ok := true;
    }

    /** One copy of each quarantined record. */
    method Deduplicate() returns (unique: Option<seq<Record>>)
      ensures unique == Unique(w, dlq)
    {
      hide CheckedQuarantine;
      var found: seq<Record> := [];
      for i := 0 to |dlq|
        invariant Unique(w, dlq[..i]) == Some(found)
      {
        var r := dlq[i];
        assert dlq[..i + 1][..i] == dlq[..i];
        if CheckedQuarantine(w.h, w.scope, w.topicId, r).None? || (Known(found, r.dlqId) && r !in found) {
          StaysRefused(w, dlq, i + 1);
          return None;
        }
        if !Known(found, r.dlqId) { found := found + [r]; }
      }
      assert dlq[..|dlq|] == dlq;
      unique := Some(found);
    }
  }

  // ---- the loops and their specifications ----

  lemma NothingConsumed(w: Setting, s: State, handling: Handling)
    ensures Consumed(w, s, handling, []) == (s, [])
  {
  }

  /** What every such loop keeps, and what its results say about it. */
  lemma {:induction false} ConsumedFacts(w: Setting, s: State, handling: Handling, lucks: seq<Luck>)
    ensures var c := Consumed(w, s, handling, lucks);
      && c.0.log == s.log && Rises(s.index, c.0.index) && s.dlq <= c.0.dlq && (Accounted(w, s) ==> Accounted(w, c.0))
      && (forall i :: 0 <= i < |c.1| - 1 ==> c.1[i].Done?)
      && ((forall i :: 0 <= i < |c.1| ==> c.1[i].Done?) ==> c.0.committed == s.committed + |c.1|)
    decreases |lucks|
  {
    hide Process, Accounted;
    if lucks != [] && s.committed < |s.log| {
      var t := Process(w, s, handling, lucks[0]);
      if Accounted(w, s) { ProcessAccounts(w, s, handling, lucks[0]); }
      ProcessSteps(w, s, handling, lucks[0]);
      if t.1.Done? {
        DoneMoves(w, s, handling, lucks[0]);
        ConsumedFacts(w, t.0, handling, lucks[1..]);
        var rest := Consumed(w, t.0, handling, lucks[1..]);
        assert Consumed(w, s, handling, lucks) == (rest.0, [t.1] + rest.1);
        AllDone(t.1, rest.1);
      } else {
        assert Consumed(w, s, handling, lucks).1[0] == t.1;
      }
    }
  }

  lemma AllDone(first: Outcome, rest: seq<Outcome>)
    requires first.Done?
    ensures (forall i :: 0 <= i < |rest| ==> rest[i].Done?) <==> (forall i :: 0 <= i < |[first] + rest| ==> ([first] + rest)[i].Done?)
    ensures (forall i :: 0 <= i < |rest| - 1 ==> rest[i].Done?) ==> (forall i :: 0 <= i < |rest| ==> ([first] + rest)[i].Done?)
  {
    if forall i :: 0 <= i < |[first] + rest| ==> ([first] + rest)[i].Done? {
      forall i | 0 <= i < |rest| ensures rest[i].Done? { assert ([first] + rest)[i + 1] == rest[i]; }
    }
  }

  /** A loop that stopped early, or ran out of records, would have made no use of more attempts. */
  lemma {:induction false} ConsumedStops(w: Setting, s: State, handling: Handling, lucks: seq<Luck>, more: seq<Luck>)
    requires lucks <= more
    requires var c := Consumed(w, s, handling, lucks);
      || lucks == more || c.0.committed >= |c.0.log| || (exists i :: 0 <= i < |c.1| && !c.1[i].Done?)
    ensures Consumed(w, s, handling, more) == Consumed(w, s, handling, lucks)
    decreases |more|
  {
    hide Process;
    if lucks == more {
    } else if lucks == [] {
      assert s.committed >= |s.log|;
    } else if s.committed < |s.log| && Process(w, s, handling, lucks[0]).1.Done? {
      var t := Process(w, s, handling, lucks[0]);
      assert more[0] == lucks[0] && lucks[1..] <= more[1..];
      var c, rest := Consumed(w, s, handling, lucks), Consumed(w, t.0, handling, lucks[1..]);
      assert c == (rest.0, [t.1] + rest.1);
      if i :| 0 <= i < |c.1| && !c.1[i].Done? { assert !rest.1[i - 1].Done?; }
      ConsumedStops(w, t.0, handling, lucks[1..], more[1..]);
    } else {
      assert more[0] == lucks[0];
    }
  }

  /** Once a record is refused, no more records make up for it. */
  lemma {:induction false} StaysRefused(w: Setting, records: seq<Record>, n: nat)
    requires n <= |records| && Unique(w, records[..n]).None?
    ensures Unique(w, records).None?
    decreases |records| - n
  {
    hide CheckedQuarantine;
    if n == |records| {
      assert records[..n] == records;
    } else {
      assert records[..n + 1][..n] == records[..n];
      StaysRefused(w, records, n + 1);
    }
  }

  lemma NoRepairs(w: Setting, allowed: map<string, string>, sqls: seq<Sql>)
    ensures Repairs(w, [], allowed, sqls) == Some([])
  {
  }

  lemma {:induction false} RepairsNext(w: Setting, records: seq<Record>, allowed: map<string, string>, sqls: seq<Sql>, i: nat)
    requires i < |records| <= |sqls| && Repairs(w, records[..i], allowed, sqls).Some?
    ensures var e := RepairEvent(w, records[i], allowed, Keyed(sqls[i])); var sofar := Repairs(w, records[..i], allowed, sqls).value;
      && Repairs(w, records[..i + 1], allowed, sqls) == (if e.None? then None else Some(sofar + [e.value]))
      && (e.None? ==> Repairs(w, records, allowed, sqls).None?)
  {
    hide RepairEvent;
    assert records[..i + 1][..i] == records[..i];
    if RepairEvent(w, records[i], allowed, Keyed(sqls[i])).None? { NeverRepaired(w, records, allowed, sqls, i + 1); }
  }

  lemma {:induction false} NeverRepaired(w: Setting, records: seq<Record>, allowed: map<string, string>, sqls: seq<Sql>, n: nat)
    requires n <= |records| <= |sqls| && Repairs(w, records[..n], allowed, sqls).None?
    ensures Repairs(w, records, allowed, sqls).None?
    decreases |records| - n
  {
    hide RepairEvent;
    if n == |records| {
      assert records[..n] == records;
    } else {
      assert records[..n + 1][..n] == records[..n];
      NeverRepaired(w, records, allowed, sqls, n + 1);
    }
  }

  lemma NoneSent(w: Setting, log: seq<Message>)
    ensures log == log + Sent(w, [])
  {
  }

  lemma SentAppend(w: Setting, log: seq<Message>, sent: seq<Event>, e: Event)
    ensures log + Sent(w, sent + [e]) == log + Sent(w, sent) + [MessageOf(w, e)]
  {
  }
}
