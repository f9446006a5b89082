/** The opt-in message loop: project or quarantine one record, then and only then commit its offset. */
module Messages {
  import opened Prelude
  import opened Orders
  import opened Encodings
  import opened Pipeline
  import opened PipelineSql
  import opened PipelineLaws
  import opened Quarantine

  datatype Message = Message(key: Bytes, raw: Bytes)
  datatype Handling = Strict | Quarantining

  /** json.loads with its hooks: an event, or the code of what it raised: bad JSON, a duplicate key, a non-finite number. */
  datatype Parse = Parsed(value: Event) | Unparsed(code: string)

  /**
   * Everything the loop is told about its surroundings; parse is json.loads with the strict hooks, write canonical JSON,
   * eventId the UUID a repair derives from a quarantine id and an order.
   */
  datatype Setting = Setting(f: Formats, h: Hash, scope: Scope, topicId: string, parse: Bytes -> Parse,
                             write: Event -> Bytes, eventId: (string, Order) -> string)

  /** The index call: it answers, rejects the document under its mapping, or fails with or without effect. */
  datatype IndexFate = Works | MappingRejected(errorType: string) | Fails(applied: bool)

  /** inject: an exception at the checkpoint; quarantine and commit may each lose their answer. */
  datatype Luck = Luck(index: IndexFate, quarantine: Reply, inject: bool, commit: Reply)

  datatype Stage = AtDecode | AtProject
  datatype Failure = ProblemFailure(status: int, code: string) | HttpFailure(status: int, errorType: string) | OtherFailure

  const MAPPING_ERRORS: set<string> := {"mapper_parsing_exception", "strict_dynamic_mapping_exception"}

  /** Which failures may ever be set aside; everything else must be retried at the same offset. */
  function PermanentReason(e: Failure, stage: Stage): Option<string> {
    match e
    case ProblemFailure(status, code) =>
      if stage.AtDecode? && (status == 400 || status == 422) then Some(code)
      else if stage.AtProject? && code == "event_version_payload_conflict" then Some(code) else None
    case HttpFailure(status, errorType) =>
      if stage.AtProject? && status == 400 && errorType in MAPPING_ERRORS then Some(errorType) else None
    case OtherFailure => None
  }

  function DecodeRecord(w: Setting, m: Message): Result<Event> {
    if !(0 < |m.raw| <= MAX_MESSAGE) then Problem(422, "invalid_event_size")
    else if w.parse(m.raw).Unparsed? then Problem(422, w.parse(m.raw).code)
    else
      var e := w.parse(m.raw).value;
      match ValidateEvent(w.f, e)
      case Problem(status, code) => Problem(status, code)
      case Ok(_) => if m.key != Encode(e.order.id) then Problem(422, "event_key_mismatch") else Ok(e)
  }

  /** Search.index against a possibly failing server: the new index, and a failure if it raised. */
  function IndexCall(index: Index, o: Order, fate: IndexFate): (Index, Option<Failure>) {
    match fate
    case MappingRejected(errorType) => (index, Some(HttpFailure(400, errorType)))
    case Fails(applied) => (if applied then Put(index, o) else index, Some(OtherFailure))
    case Works =>
      if Accepts(index, o) then (Put(index, o), None)
      else
        match Check(index, o)
        case Refused(code) => (index, Some(ProblemFailure(409, code)))
        case _ => (index, None)
  }

  datatype State = State(log: seq<Message>, index: Index, dlq: seq<Record>, committed: nat)

  datatype Outcome = Done(quarantined: bool) | Blocked(reason: string) | RaisedAgain

  function Advance(s: State, off: nat, reply: Reply): State { if reply.LostDropped? then s else s.(committed := off + 1) }
  function Ended(reply: Reply, quarantined: bool): Outcome { if reply.Answered? then Done(quarantined) else RaisedAgain }

  /** The exception handler of process_record. */
  function SetAside(w: Setting, s: State, handling: Handling, luck: Luck, e: Failure, stage: Stage): (State, Outcome)
    requires s.committed < |s.log|
  {
    var off, reason := s.committed, PermanentReason(e, stage);
    if reason.None? then (s, RaisedAgain)
    else if handling.Strict? then (s, Blocked(reason.value))
    else
      var m := s.log[off];
      var r := QuarantineRecord(w.h, w.scope, w.topicId, Position(w.scope.topic, 0, off), m.key, m.raw, reason.value);
      if r.None? then (s, RaisedAgain)
      else
        var s1 := if luck.quarantine.LostDropped? then s else s.(dlq := s.dlq + [r.value]);
        if !luck.quarantine.Answered? || luck.inject then (s1, RaisedAgain)
        else (Advance(s1, off, luck.commit), Ended(luck.commit, true))
  }

  /** process_record on the record at the committed offset. */
  function Process(w: Setting, s: State, handling: Handling, luck: Luck): (State, Outcome)
    requires s.committed < |s.log|
  {
    match DecodeRecord(w, s.log[s.committed])
    case Problem(status, code) => SetAside(w, s, handling, luck, ProblemFailure(status, code), AtDecode)
    case Ok(e) =>
      var call := IndexCall(s.index, e.order, luck.index);
      var s1 := s.(index := call.0);
      if call.1.Some? then SetAside(w, s1, handling, luck, call.1.value, AtProject)
      else if luck.inject then (s1, RaisedAgain)
      else (Advance(s1, s.committed, luck.commit), Ended(luck.commit, false))
  }

  // ---- what every offset behind the checkpoint has to show ----

  /** What a record is if it decodes to e: the facts about raw bytes, event and key, independently of who checks them when. */
  ghost predicate Genuine(w: Setting, m: Message, e: Event) {
    var o := e.order;
    && 0 < |m.raw| <= 32768 && w.parse(m.raw) == Parsed(e)
    && e.schema == 1 && Identifier(w.f, e.eventId) && Identifier(w.f, o.id)
    && 1 <= |Strip(o.item)| <= 100 && 1 <= o.quantity <= 1000 && 0 <= o.unitPrice <= 100_000_000
    && o.version >= 1 && o.status in {"created", "paid", "shipped", "cancelled"}
    && o.total == o.quantity * o.unitPrice && w.f.isTime(o.createdAt)
    && m.key == Encode(o.id)
  }

  ghost predicate Readable(w: Setting, m: Message) { w.parse(m.raw).Parsed? && Genuine(w, m, w.parse(m.raw).value) }

  /** A record decodes to an event exactly if it is genuine. */
  lemma {:induction false} DecodeExactly(w: Setting, m: Message, e: Event)
    ensures DecodeRecord(w, m) == Ok(e) <==> Genuine(w, m, e)
    ensures DecodeRecord(w, m).Ok? <==> Readable(w, m)
    ensures DecodeRecord(w, m).Ok? ==> w.parse(m.raw) == Parsed(DecodeRecord(w, m).value)
  {
    hide Encode, Identifier, Strip;
  }

  ghost predicate Shown(w: Setting, s: State, off: nat)
    requires off < |s.log|
  {
    InIndex(w, s, off) || SetAsideAt(w, s, off)
  }

  /** This record is genuine, and the index holds its version or a newer one. */
  ghost predicate InIndex(w: Setting, s: State, off: nat)
    requires off < |s.log|
  {
    Readable(w, s.log[off]) && Reflects(s.index, w.parse(s.log[off].raw).value.order)
  }

  ghost predicate SetAsideAt(w: Setting, s: State, off: nat)
    requires off < |s.log|
  {
    exists r, reason :: r in s.dlq
      && QuarantineRecord(w.h, w.scope, w.topicId, Position(w.scope.topic, 0, off), s.log[off].key, s.log[off].raw, reason) == Some(r)
  }

  ghost predicate Accounted(w: Setting, s: State) {
    s.committed <= |s.log| && forall off :: 0 <= off < s.committed ==> Shown(w, s, off)
  }

  lemma {:induction false} IndexCallRises(index: Index, o: Order, fate: IndexFate)
    ensures Rises(index, IndexCall(index, o, fate).0)
    ensures IndexCall(index, o, fate).1.None? ==> Reflects(IndexCall(index, o, fate).0, o)
  {
    PutRises(index, o);
  }

  lemma {:induction false} ShownStays(w: Setting, s: State, s': State, off: nat)
    requires off < |s.log| && s.log <= s'.log && Rises(s.index, s'.index) && Shown(w, s, off)
    requires forall r :: r in s.dlq ==> r in s'.dlq
    ensures Shown(w, s', off)
  {
    assert s'.log[off] == s.log[off];
    hide Genuine, QuarantineRecord;
    if SetAsideAt(w, s, off) {
      var r, reason :| r in s.dlq
        && QuarantineRecord(w.h, w.scope, w.topicId, Position(w.scope.topic, 0, off), s.log[off].key, s.log[off].raw, reason) == Some(r);
      assert r in s'.dlq;
    }
  }

  /** The result of one step: the offset stays, or moves one past a record that is shown. */
  ghost predicate Stepped(w: Setting, s: State, s': State) {
    && s'.log == s.log && Rises(s.index, s'.index) && s.dlq <= s'.dlq && s.committed < |s.log|
    && (s'.committed == s.committed || (s'.committed == s.committed + 1 && Shown(w, s', s.committed)))
  }

  lemma {:induction false} SetAsideSteps(w: Setting, s: State, handling: Handling, luck: Luck, e: Failure, stage: Stage)
    requires s.committed < |s.log|
    ensures Stepped(w, s, SetAside(w, s, handling, luck, e, stage).0)
    ensures SetAside(w, s, handling, luck, e, stage).0.index == s.index
  {
    hide QuarantineRecord, DecodeRecord;
  }

  lemma {:induction false} ProcessSteps(w: Setting, s: State, handling: Handling, luck: Luck)
    requires s.committed < |s.log|
    ensures Stepped(w, s, Process(w, s, handling, luck).0)
  {
    hide SetAside, DecodeRecord, IndexCall, SetAsideAt, Genuine;
    match DecodeRecord(w, s.log[s.committed])
    case Problem(status, code) => SetAsideSteps(w, s, handling, luck, ProblemFailure(status, code), AtDecode);
    case Ok(e) =>
      var call := IndexCall(s.index, e.order, luck.index);
      DecodeExactly(w, s.log[s.committed], e);
      IndexCallRises(s.index, e.order, luck.index);
      if call.1.Some? { SetAsideSteps(w, s.(index := call.0), handling, luck, call.1.value, AtProject); }
  }

  lemma {:induction false} ProcessAccounts(w: Setting, s: State, handling: Handling, luck: Luck)
    requires Accounted(w, s) && s.committed < |s.log|
    ensures Accounted(w, Process(w, s, handling, luck).0)
  {
    hide Process, Shown, Rises;
    ProcessSteps(w, s, handling, luck);
    var s' := Process(w, s, handling, luck).0;
    forall off | 0 <= off < s'.committed ensures Shown(w, s', off) {
      if off < s.committed { ShownStays(w, s, s', off); }
    }
  }

  // ---- every run ----

  /** A crash at either checkpoint is luck.inject; records may arrive and handling may change between steps. */
  datatype Happening = Arrive(m: Message) | Attempt(handling: Handling, luck: Luck)

  function Step(w: Setting, s: State, a: Happening): State {
    match a
    case Arrive(m) => s.(log := s.log + [m])
    case Attempt(handling, luck) => if s.committed < |s.log| then Process(w, s, handling, luck).0 else s
  }

  function Run(w: Setting, s: State, happenings: seq<Happening>): State
    decreases |happenings|
  {
    if happenings == [] then s else Run(w, Step(w, s, happenings[0]), happenings[1..])
  }

  lemma {:induction false} ArriveAccounts(w: Setting, s: State, m: Message)
    requires Accounted(w, s)
    ensures Accounted(w, s.(log := s.log + [m]))
  {
    hide Shown;
    var s' := s.(log := s.log + [m]);
    forall off | 0 <= off < s'.committed ensures Shown(w, s', off) { ShownStays(w, s, s', off); }
  }

  /**
   * In every run of arrivals and attempts, under any policy, any crash and any lost answer: each offset below
   * the committed one is projected at its own version or newer, or has its record in the dead-letter topic.
   */
  lemma {:induction false} EveryOffsetAccounted(w: Setting, s: State, happenings: seq<Happening>)
    requires Accounted(w, s)
    ensures Accounted(w, Run(w, s, happenings))
    decreases |happenings|
  {
    if happenings != [] {
      var a := happenings[0];
      if a.Arrive? { ArriveAccounts(w, s, a.m); }
      else if s.committed < |s.log| { ProcessAccounts(w, s, a.handling, a.luck); }
      hide Accounted, Process;
      EveryOffsetAccounted(w, Step(w, s, a), happenings[1..]);
    }
  }

  // ---- strict never passes poison, and nothing passes an unclassified error ----

  /** The index holds a sound document of this version with other content. */
  predicate Collides(index: Index, o: Order) {
    o.id in index
    && var d := index[o.id]; d.version == o.version && d.source.version == d.version && d.source.id == o.id && d.source != o
  }

  /** This record is not genuine, the index rejects it under its mapping, or holds other content under its version. */
  ghost predicate Poison(w: Setting, s: State, luck: Luck)
    requires s.committed < |s.log|
  {
    var m := s.log[s.committed];
    || !Readable(w, m)
    || (luck.index.MappingRejected? && luck.index.errorType in {"mapper_parsing_exception", "strict_dynamic_mapping_exception"})
    || (luck.index.Works? && Collides(s.index, w.parse(m.raw).value.order))
  }

  /** Why it is poison: the first fact that fails. */
  ghost function Reason(w: Setting, s: State, luck: Luck): string
    requires s.committed < |s.log|
  {
    var m := s.log[s.committed];
    if !(0 < |m.raw| <= 32768) then "invalid_event_size"
    else if w.parse(m.raw).Unparsed? then w.parse(m.raw).code
    else
      var e := w.parse(m.raw).value;
      var o := e.order;
      if e.schema != 1 then "unsupported_event_schema"
      else if !Identifier(w.f, e.eventId) || !Identifier(w.f, o.id) then "invalid_order_id"
      else if !(1 <= |Strip(o.item)| <= 100) then "item_must_be_1_to_100_characters"
      else if !(1 <= o.quantity <= 1000) then "quantity_must_be_integer_1_to_1000"
      else if !(0 <= o.unitPrice <= 100_000_000) then "unit_price_must_be_integer_0_to_100000000"
      else if o.version < 1 then "invalid_event_version"
      else if o.status !in {"created", "paid", "shipped", "cancelled"} then "invalid_event_fields"
      else if o.total != o.quantity * o.unitPrice then "invalid_event_total"
      else if !w.f.isTime(o.createdAt) then "invalid_event_timestamp"
      else if m.key != Encode(o.id) then "event_key_mismatch"
      else if luck.index.MappingRejected? then luck.index.errorType
      else "event_version_payload_conflict"
  }

  lemma {:induction false} DecodeReason(w: Setting, s: State, luck: Luck)
    requires s.committed < |s.log|
    ensures var d := DecodeRecord(w, s.log[s.committed]); d.Problem? ==> d.code == Reason(w, s, luck)
  {
    hide Encode, Identifier, Strip;
  }

  lemma {:induction false} ProjectReason(w: Setting, s: State, luck: Luck)
    requires s.committed < |s.log| && Readable(w, s.log[s.committed])
    ensures Reason(w, s, luck) == if luck.index.MappingRejected? then luck.index.errorType else "event_version_payload_conflict"
  {
    hide Encode, Identifier, Strip;
  }

  lemma {:induction false} DecodeIsPermanent(w: Setting, m: Message)
    ensures DecodeRecord(w, m).Problem? ==> DecodeRecord(w, m).status == 400 || DecodeRecord(w, m).status == 422
  {
    hide Encode, Strip, Identifier, CreateInput;
    if w.parse(m.raw).Parsed? { InputIsPermanent(InputOf(w.parse(m.raw).value.order)); }
  }

  function InputOf(o: Order): Input { Input(o.item, o.quantity, o.unitPrice) }

  lemma InputIsPermanent(data: Input)
    ensures CreateInput(data).Problem? ==> CreateInput(data).status == 400
  {
    hide Strip;
  }

  predicate Permanent(e: Option<Failure>, stage: Stage) { e.Some? && PermanentReason(e.value, stage).Some? }

  /** The index call fails for good exactly on a mapping rejection or a payload conflict, and then it has written nothing. */
  lemma {:induction false} CallFailure(index: Index, o: Order, fate: IndexFate)
    ensures Permanent(IndexCall(index, o, fate).1, AtProject) <==>
      (fate.MappingRejected? && fate.errorType in {"mapper_parsing_exception", "strict_dynamic_mapping_exception"})
      || (fate.Works? && Collides(index, o))
    ensures Permanent(IndexCall(index, o, fate).1, AtProject) ==>
      IndexCall(index, o, fate).0 == index
      && PermanentReason(IndexCall(index, o, fate).1.value, AtProject).value == if fate.MappingRejected? then fate.errorType else "event_version_payload_conflict"
  {
    hide Put;
  }

  /** The permanent failure of a poison record, and where it arose. */
  lemma {:induction false} PoisonFailure(w: Setting, s: State, luck: Luck) returns (e: Failure, stage: Stage)
    requires s.committed < |s.log| && Poison(w, s, luck)
    ensures PermanentReason(e, stage) == Some(Reason(w, s, luck))
    ensures forall handling :: Process(w, s, handling, luck) == SetAside(w, s, handling, luck, e, stage)
  {
    hide DecodeRecord, SetAside, IndexCall, Collides, Readable, Reason;
    var d := DecodeRecord(w, s.log[s.committed]);
    DecodeIsPermanent(w, s.log[s.committed]);
    DecodeReason(w, s, luck);
    match d {
      case Problem(status, code) => e, stage := ProblemFailure(status, code), AtDecode;
      case Ok(v) =>
        DecodeExactly(w, s.log[s.committed], v);
        ProjectReason(w, s, luck);
        CallFailure(s.index, v.order, luck.index);
        e, stage := IndexCall(s.index, v.order, luck.index).1.value, AtProject;
        assert s.(index := s.index) == s;
    }
  }

  /** The strict policy stops exactly on poison, says why, and then nothing at all has changed. */
  lemma {:induction false} StrictBlocks(w: Setting, s: State, luck: Luck)
    requires s.committed < |s.log|
    ensures Process(w, s, Strict, luck).1.Blocked? <==> Poison(w, s, luck)
    ensures Poison(w, s, luck) ==> Process(w, s, Strict, luck) == (s, Blocked(Reason(w, s, luck)))
  {
    hide DecodeRecord, IndexCall, Process, PermanentReason, Poison, Reason;
    if Poison(w, s, luck) {
      var e, stage := PoisonFailure(w, s, luck);
    } else {
      NotPoison(w, s, luck);
    }
  }

  lemma {:induction false} NotPoison(w: Setting, s: State, luck: Luck)
    requires s.committed < |s.log| && !Poison(w, s, luck)
    ensures !Process(w, s, Strict, luck).1.Blocked?
  {
    hide DecodeRecord, IndexCall, PermanentReason, Collides, Genuine;
    var m := s.log[s.committed];
    DecodeExactly(w, m, w.parse(m.raw).value);
    CallFailure(s.index, w.parse(m.raw).value.order, luck.index);
  }

  /** Under the strict policy the offset moves exactly past a record that decoded and that the index took, and the topic never grows. */
  lemma {:induction false} StrictMoves(w: Setting, s: State, luck: Luck)
    requires s.committed < |s.log|
    ensures var t, m := Process(w, s, Strict, luck).0, s.log[s.committed];
      && t.dlq == s.dlq && t.log == s.log
      && (t.committed != s.committed <==>
          Readable(w, m) && IndexCall(s.index, w.parse(m.raw).value.order, luck.index).1.None? && !luck.inject && !luck.commit.LostDropped?)
  {
    hide *;
    var m := s.log[s.committed];
    match DecodeRecord(w, m) {
      case Problem(status, code) =>
        NotReadable(w, m);
        StrictUndecoded(w, s, luck, status, code);
      case Ok(e) =>
        DecodeExactly(w, m, e);
        StrictDecoded(w, s, luck, e);
    }
  }

  lemma {:induction false} StrictUndecoded(w: Setting, s: State, luck: Luck, status: int, code: string)
    requires s.committed < |s.log| && DecodeRecord(w, s.log[s.committed]) == Problem(status, code)
    ensures Process(w, s, Strict, luck).0 == s
  {
    hide DecodeRecord, SetAside, IndexCall;
    StrictLeaves(w, s, luck, ProblemFailure(status, code), AtDecode);
  }

  lemma {:induction false} StrictDecoded(w: Setting, s: State, luck: Luck, e: Event)
    requires s.committed < |s.log| && DecodeRecord(w, s.log[s.committed]) == Ok(e)
    ensures var t := Process(w, s, Strict, luck).0;
      && t.dlq == s.dlq && t.log == s.log
      && (t.committed != s.committed <==> IndexCall(s.index, e.order, luck.index).1.None? && !luck.inject && !luck.commit.LostDropped?)
  {
    hide DecodeRecord, SetAside, IndexCall;
    var call := IndexCall(s.index, e.order, luck.index);
    if call.1.Some? { StrictLeaves(w, s.(index := call.0), luck, call.1.value, AtProject); }
  }

  lemma StrictLeaves(w: Setting, s: State, luck: Luck, e: Failure, stage: Stage)
    requires s.committed < |s.log|
    ensures SetAside(w, s, Strict, luck, e, stage).0 == s
  {
  }

  lemma NotReadable(w: Setting, m: Message)
    ensures DecodeRecord(w, m).Problem? ==> !Readable(w, m)
  {
    if w.parse(m.raw).Parsed? { DecodeExactly(w, m, w.parse(m.raw).value); }
  }

  ghost predicate AllInIndex(w: Setting, s: State) {
    s.committed <= |s.log| && forall off :: 0 <= off < s.committed ==> InIndex(w, s, off)
  }

  lemma {:induction false} StrictStep(w: Setting, s: State, luck: Luck)
    requires s.committed < |s.log|
    ensures var t := Process(w, s, Strict, luck).0;
      t.committed == s.committed || (t.committed == s.committed + 1 && t.log == s.log && InIndex(w, t, s.committed))
  {
    hide DecodeRecord, IndexCall, Reflects, Genuine;
    var d := DecodeRecord(w, s.log[s.committed]);
    if d.Ok? {
      DecodeExactly(w, s.log[s.committed], d.value);
      IndexCallRises(s.index, d.value.order, luck.index);
    }
  }

  lemma {:induction false} InIndexStays(w: Setting, s: State, t: State, off: nat)
    requires off < |s.log| && InIndex(w, s, off) && s.log <= t.log && Rises(s.index, t.index)
    ensures InIndex(w, t, off)
  {
    hide Genuine;
    assert t.log[off] == s.log[off];
  }

  lemma {:induction false} StrictProjects(w: Setting, s: State, luck: Luck)
    requires AllInIndex(w, s) && s.committed < |s.log|
    ensures AllInIndex(w, Process(w, s, Strict, luck).0) && Process(w, s, Strict, luck).0.dlq == s.dlq
  {
    hide InIndex, Shown, Process, Readable, IndexCall, Rises;
    var t := Process(w, s, Strict, luck).0;
    StrictMoves(w, s, luck);
    ProcessSteps(w, s, Strict, luck);
    StrictStep(w, s, luck);
    forall off | 0 <= off < t.committed ensures InIndex(w, t, off) {
      if off < s.committed { InIndexStays(w, s, t, off); }
    }
  }

  ghost predicate OnlyStrict(happenings: seq<Happening>) {
    forall a :: a in happenings && a.Attempt? ==> a.handling.Strict?
  }

  /**
   * In every strict run, whatever arrives, crashes or is lost: nothing is quarantined, and every offset that was
   * passed decodes and is in the index. Poison of any kind, mapping rejections included, is never passed.
   */
  lemma {:induction false} StrictNeverPassesPoison(w: Setting, s: State, happenings: seq<Happening>)
    requires AllInIndex(w, s) && OnlyStrict(happenings)
    ensures AllInIndex(w, Run(w, s, happenings)) && Run(w, s, happenings).dlq == s.dlq
    decreases |happenings|
  {
    if happenings != [] {
      var a := happenings[0];
      assert a in happenings;
      if a.Arrive? {
        hide InIndex;
        var t := s.(log := s.log + [a.m]);
        forall off | 0 <= off < t.committed ensures InIndex(w, t, off) { InIndexStays(w, s, t, off); }
      } else if s.committed < |s.log| {
        StrictProjects(w, s, a.luck);
      }
      hide AllInIndex, Process;
      StrictNeverPassesPoison(w, Step(w, s, a), happenings[1..]);
    }
  }

  function Arrivals(happenings: seq<Happening>): seq<Message> {
    if happenings == [] then []
    else (if happenings[0].Arrive? then [happenings[0].m] else []) + Arrivals(happenings[1..])
  }

  lemma {:induction false} PoisonStays(w: Setting, s: State, m: Message, luck: Luck)
    requires s.committed < |s.log| && Poison(w, s, luck)
    ensures Poison(w, s.(log := s.log + [m]), luck)
  {
    hide Readable, Collides;
  }

  lemma {:induction false} PoisonWaits(w: Setting, s: State, a: Happening)
    requires s.committed < |s.log| && (a.Attempt? ==> a.handling.Strict? && Poison(w, s, a.luck))
    ensures Step(w, s, a) == if a.Arrive? then s.(log := s.log + [a.m]) else s
  {
    hide Process, Poison, Reason;
    if a.Attempt? { StrictBlocks(w, s, a.luck); }
  }

  /** While every attempt meets poison, a strict run does nothing but queue what arrives. */
  lemma {:induction false} StrictStaysAtPoison(w: Setting, s: State, happenings: seq<Happening>)
    requires s.committed < |s.log| && OnlyStrict(happenings)
    requires forall a :: a in happenings && a.Attempt? ==> Poison(w, s, a.luck)
    ensures Run(w, s, happenings) == s.(log := s.log + Arrivals(happenings))
    decreases |happenings|
  {
    hide Process, Poison, Reason, Step;
    if happenings == [] {
      assert s.log + [] == s.log;
    } else {
      var a, rest := happenings[0], happenings[1..];
      var t := Step(w, s, a);
      assert a in happenings;
      PoisonWaits(w, s, a);
      forall b | b in rest && b.Attempt? ensures Poison(w, t, b.luck) {
        assert b in happenings;
        if a.Arrive? { PoisonStays(w, s, a.m, b.luck); }
      }
      StrictStaysAtPoison(w, t, rest);
      if a.Arrive? { assert s.log + [a.m] + Arrivals(rest) == s.log + ([a.m] + Arrivals(rest)); }
      else { assert [] + Arrivals(rest) == Arrivals(rest); }
    }
  }

  /** An error that is not permanent never moves the offset and never quarantines, under either policy. */
  lemma {:induction false} TransientStays(w: Setting, s: State, handling: Handling, luck: Luck, e: Event)
    requires s.committed < |s.log| && DecodeRecord(w, s.log[s.committed]) == Ok(e)
    requires var failure := IndexCall(s.index, e.order, luck.index).1; failure.Some? && PermanentReason(failure.value, AtProject).None?
    ensures var t := Process(w, s, handling, luck); t.0.committed == s.committed && t.0.dlq == s.dlq && t.1 == RaisedAgain
  {
    hide DecodeRecord, IndexCall;
  }

  /** Quarantining moves past poison of any kind whenever its calls are answered, leaving exactly its envelope behind. */
  lemma {:induction false} QuarantineAdvances(w: Setting, s: State, luck: Luck)
    requires s.committed < |s.log| && Poison(w, s, luck) && luck.quarantine.Answered? && !luck.inject && luck.commit.Answered?
    requires w.topicId != "" && |s.log[s.committed].raw| <= MAX_MESSAGE && |s.log[s.committed].key| <= MAX_KEY
    ensures var t := Process(w, s, Quarantining, luck);
      t.1 == Done(true) && t.0.committed == s.committed + 1 && t.0.index == s.index
      && |t.0.dlq| == |s.dlq| + 1 && SetAsideAt(w, t.0, s.committed) && t.0.dlq[|s.dlq|].reason == Reason(w, s, luck)
  {
    hide *;
    var e, stage := PoisonFailure(w, s, luck);
    Envelope(w, s, luck, e, stage, Reason(w, s, luck));
  }

  lemma {:induction false} Envelope(w: Setting, s: State, luck: Luck, e: Failure, stage: Stage, reason: string)
    requires s.committed < |s.log| && PermanentReason(e, stage) == Some(reason)
    requires luck.quarantine.Answered? && !luck.inject && luck.commit.Answered?
    requires w.topicId != "" && |s.log[s.committed].raw| <= MAX_MESSAGE && |s.log[s.committed].key| <= MAX_KEY
    ensures var t := SetAside(w, s, Quarantining, luck, e, stage);
      t.1 == Done(true) && t.0.committed == s.committed + 1 && t.0.index == s.index
      && |t.0.dlq| == |s.dlq| + 1 && SetAsideAt(w, t.0, s.committed) && t.0.dlq[|s.dlq|].reason == reason
  {
    hide DecodeRecord, ToBase64, PermanentReason;
    var t := SetAside(w, s, Quarantining, luck, e, stage);
    assert t.0.dlq[|s.dlq|] in t.0.dlq;
  }

  // ---- consume ----

  /** The loop of consume over the records that have arrived: one attempt a record, ended by the first exception. */
  function Consumed(w: Setting, s: State, handling: Handling, lucks: seq<Luck>): (State, seq<Outcome>)
    decreases |lucks|
  {
    if lucks == [] || s.committed >= |s.log| then (s, [])
    else
      var t := Process(w, s, handling, lucks[0]);
      if !t.1.Done? then (t.0, [t.1])
      else
        var rest := Consumed(w, t.0, handling, lucks[1..]);
        (rest.0, [t.1] + rest.1)
  }

  /** One more attempt at the end of a loop that met no exception. */
  lemma {:induction false} ConsumedAppend(w: Setting, s: State, handling: Handling, lucks: seq<Luck>, luck: Luck)
    requires var c := Consumed(w, s, handling, lucks);
      |c.1| == |lucks| && (forall i :: 0 <= i < |lucks| ==> c.1[i].Done?) && c.0.committed < |c.0.log|
    ensures var c := Consumed(w, s, handling, lucks); var t := Process(w, c.0, handling, luck);
      Consumed(w, s, handling, lucks + [luck]) == (t.0, c.1 + [t.1])
    decreases |lucks|
  {
    hide Process;
    if lucks == [] {
      var u := Process(w, s, handling, luck);
      assert lucks + [luck] == [luck] && [luck][1..] == [];
      assert Consumed(w, u.0, handling, []) == (u.0, []) && [u.1] + [] == [u.1] && [] + [u.1] == [u.1];
    } else {
      var t := Process(w, s, handling, lucks[0]);
      var rest := Consumed(w, t.0, handling, lucks[1..]);
      assert Consumed(w, s, handling, lucks).1[0].Done?;
      assert Consumed(w, s, handling, lucks).1 == [t.1] + rest.1;
      forall i | 0 <= i < |lucks[1..]| ensures rest.1[i].Done? { assert rest.1[i] == ([t.1] + rest.1)[i + 1]; }
      ConsumedAppend(w, t.0, handling, lucks[1..], luck);
      var longer := lucks + [luck];
      assert longer[0] == lucks[0] && longer[1..] == lucks[1..] + [luck];
      var more := Consumed(w, t.0, handling, longer[1..]);
      var u := Process(w, rest.0, handling, luck);
      assert Consumed(w, s, handling, longer) == (more.0, [t.1] + more.1);
      assert more == (u.0, rest.1 + [u.1]);
      assert [t.1] + (rest.1 + [u.1]) == ([t.1] + rest.1) + [u.1];
      assert Consumed(w, s, handling, lucks) == (rest.0, [t.1] + rest.1);
    }
  }

  /** A strict loop quarantines nothing, and keeps every offset it passed in the index. */
  lemma {:induction false} ConsumedStrict(w: Setting, s: State, lucks: seq<Luck>)
    ensures var t := Consumed(w, s, Strict, lucks).0; t.dlq == s.dlq && t.log == s.log
    ensures AllInIndex(w, s) ==> AllInIndex(w, Consumed(w, s, Strict, lucks).0)
    decreases |lucks|
  {
    hide Process, AllInIndex;
    if lucks != [] && s.committed < |s.log| {
      StrictMoves(w, s, lucks[0]);
      if AllInIndex(w, s) { StrictProjects(w, s, lucks[0]); }
      ConsumedStrict(w, Process(w, s, Strict, lucks[0]).0, lucks[1..]);
    }
  }

  lemma {:induction false} DoneMoves(w: Setting, s: State, handling: Handling, luck: Luck)
    requires s.committed < |s.log|
    ensures Process(w, s, handling, luck).1.Done? ==> Process(w, s, handling, luck).0.committed == s.committed + 1
  {
    hide DecodeRecord, IndexCall, QuarantineRecord;
  }
}
