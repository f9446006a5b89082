/** The order rules: input checks, the version chain of one order, event envelopes and their validation. */
module Orders {

  datatype Result<+T> = Ok(value: T) | Problem(status: int, code: string)

  datatype Input = Input(item: string, quantity: int, unitPrice: int)
  datatype Order = Order(id: string, item: string, quantity: int, unitPrice: int, total: int,
                         status: string, version: int, createdAt: string)
  datatype Event = Event(schema: int, eventId: string, order: Order)

  /** Which 36-character strings are canonical UUIDs and which strings datetime.fromisoformat accepts. */
  datatype Formats = Formats(isId: string -> bool, isTime: string -> bool)

  predicate HexOrDash(c: char) { '0' <= c <= '9' || 'a' <= c <= 'f' || c == '-' }

  predicate Identifier(f: Formats, s: string) {
    |s| == 36 && (forall i :: 0 <= i < |s| ==> HexOrDash(s[i])) && f.isId(s)
  }

  const STATES: set<string> := {"created", "paid", "shipped", "cancelled"}

  function Next(status: string): set<string> {
    if status == "created" then {"paid", "cancelled"} else if status == "paid" then {"shipped", "cancelled"} else {}
  }

  // ---- str.strip() ----

  predicate IsSpace(c: char) {
    var n := c as int;
    || 9 <= n <= 13 || 28 <= n <= 32 || n == 0x85 || n == 0xA0 || n == 0x1680
    || 0x2000 <= n <= 0x200A || n == 0x2028 || n == 0x2029 || n == 0x202F || n == 0x205F || n == 0x3000
  }

  function StripLeft(s: string): (r: string)
    ensures |r| <= |s| && (r != [] ==> !IsSpace(r[0]))
    ensures exists k :: 0 <= k <= |s| && r == s[k..]
  {
    if s != [] && IsSpace(s[0]) then
      var r := StripLeft(s[1..]);
      var k :| 0 <= k <= |s[1..]| && r == s[1..][k..];
      assert s[1..][k..] == s[k + 1..];
      r
    else assert s[0..] == s; s
  }

  function StripRight(s: string): (r: string)
    ensures |r| <= |s| && (r != [] ==> !IsSpace(r[|r| - 1]))
    ensures r == s[..|r|]
  {
    if s != [] && IsSpace(s[|s| - 1]) then StripRight(s[..|s| - 1]) else s
  }

  function Strip(s: string): string { StripRight(StripLeft(s)) }

  /** A stripped string strips to itself, so a stored item passes the input check it once passed. */
  lemma {:induction false} StripIdempotent(s: string)
    ensures Strip(Strip(s)) == Strip(s)
  {
    var l := StripLeft(s);
    var r := StripRight(l);
    if r != [] {
      assert r[0] == l[0];
    }
  }

  ghost predicate AllSpace(s: string) { forall i :: 0 <= i < |s| ==> IsSpace(s[i]) }

  lemma {:induction false} StrippedLeft(s: string) returns (k: nat)
    ensures k <= |s| && StripLeft(s) == s[k..] && AllSpace(s[..k])
  {
    k := 0;
    assert s[0..] == s;
    if s != [] && IsSpace(s[0]) {
      var j := StrippedLeft(s[1..]);
      k := j + 1;
      assert s[1..][j..] == s[k..] && s[..k] == [s[0]] + s[1..][..j];
    }
  }

  lemma {:induction false} StrippedRight(s: string)
    ensures |StripRight(s)| <= |s| && StripRight(s) == s[..|StripRight(s)|] && AllSpace(s[|StripRight(s)|..])
  {
    if s != [] && IsSpace(s[|s| - 1]) {
      var init := s[..|s| - 1];
      StrippedRight(init);
      var n := |StripRight(init)|;
      assert s[n..] == init[n..] + [s[|s| - 1]];
    }
  }

  /** Only white space goes, all of it, and at the two ends only. */
  lemma {:induction false} StripExactly(s: string) returns (left: string, right: string)
    ensures s == left + Strip(s) + right && AllSpace(left) && AllSpace(right)
    ensures Strip(s) != [] ==> !IsSpace(Strip(s)[0]) && !IsSpace(Strip(s)[|Strip(s)| - 1])
  {
    hide *;
    var k := StrippedLeft(s);
    var l := s[k..];
    StrippedRight(l);
    StripEnds(s);
    var n := |Strip(s)|;
    left, right := s[..k], l[n..];
    Pieces(s, k, n);
  }

  lemma StripEnds(s: string)
    ensures Strip(s) == StripRight(StripLeft(s))
    ensures Strip(s) != [] ==> !IsSpace(Strip(s)[0]) && !IsSpace(Strip(s)[|Strip(s)| - 1])
  {
    var l := StripLeft(s);
    var r := StripRight(l);
    if r != [] { assert r[0] == l[0]; }
  }

  lemma Pieces(s: string, k: nat, n: nat)
    requires k <= |s| && n <= |s[k..]|
    ensures s == s[..k] + s[k..][..n] + s[k..][n..]
  {
  }

  // ---- create_input, new_order, transition ----

  function CreateInput(data: Input): Result<Input> {
    if !(1 <= |Strip(data.item)| <= 100) then Problem(400, "item_must_be_1_to_100_characters")
    else if !(1 <= data.quantity <= 1000) then Problem(400, "quantity_must_be_integer_1_to_1000")
    else if !(0 <= data.unitPrice <= 100_000_000) then Problem(400, "unit_price_must_be_integer_0_to_100000000")
    else Ok(data.(item := Strip(data.item)))
  }

  function NewOrder(data: Input, id: string, now: string): Order {
    Order(id, data.item, data.quantity, data.unitPrice, data.quantity * data.unitPrice, "created", 1, now)
  }

  function Transition(o: Order, expectedVersion: int, status: string): Result<Order> {
    if expectedVersion != o.version then Problem(409, "order_version_conflict")
    else if status !in Next(o.status) then Problem(409, "invalid_status_transition")
    else Ok(o.(status := status, version := o.version + 1))
  }

  predicate Allowed(from: string, to: string) {
    || (from == "created" && to == "paid") || (from == "created" && to == "cancelled")
    || (from == "paid" && to == "shipped") || (from == "paid" && to == "cancelled")
  }

  /** The four transitions there are, on the version the client saw; nothing but status and version changes. */
  lemma TransitionExactly(o: Order, expectedVersion: int, status: string)
    ensures var r := Transition(o, expectedVersion, status);
      && (r.Ok? <==> expectedVersion == o.version && Allowed(o.status, status))
      && (r.Ok? ==> r.value == Order(o.id, o.item, o.quantity, o.unitPrice, o.total, status, o.version + 1, o.createdAt))
      && (r.Problem? ==> r == Problem(409, if expectedVersion != o.version then "order_version_conflict" else "invalid_status_transition"))
  {
  }

  // ---- validate_event ----

  function ValidateEvent(f: Formats, e: Event): Result<Order> {
    var o := e.order;
    if e.schema != 1 then Problem(422, "unsupported_event_schema")
    else if !Identifier(f, e.eventId) || !Identifier(f, o.id) then Problem(400, "invalid_order_id")
    else
      match CreateInput(Input(o.item, o.quantity, o.unitPrice))
      case Problem(status, code) => Problem(status, code)
      case Ok(_) =>
        if o.version < 1 then Problem(422, "invalid_event_version")
        else if o.status !in STATES then Problem(422, "invalid_event_fields")
        else if o.total != o.quantity * o.unitPrice then Problem(422, "invalid_event_total")
        else if !f.isTime(o.createdAt) then Problem(422, "invalid_event_timestamp")
        else Ok(o)
  }

  /** A row this service could have stored. */
  predicate WellFormed(f: Formats, o: Order) {
    && Identifier(f, o.id) && f.isTime(o.createdAt)
    && CreateInput(Input(o.item, o.quantity, o.unitPrice)) == Ok(Input(o.item, o.quantity, o.unitPrice))
    && o.total == o.quantity * o.unitPrice && o.status in STATES && o.version >= 1
  }

  lemma {:induction false} CreatedWellFormed(f: Formats, data: Input, id: string, now: string)
    requires CreateInput(data).Ok? && Identifier(f, id) && f.isTime(now)
    ensures WellFormed(f, NewOrder(CreateInput(data).value, id, now))
  {
    StripIdempotent(data.item);
    hide Strip, Identifier;
  }

  lemma {:induction false} TransitionWellFormed(f: Formats, o: Order, expectedVersion: int, status: string)
    requires WellFormed(f, o) && Transition(o, expectedVersion, status).Ok?
    ensures WellFormed(f, Transition(o, expectedVersion, status).value)
  {
  }

  /** Validation accepts exactly the rows the service could have stored, up to the spaces around an item. */
  lemma {:induction false} ValidExactly(f: Formats, e: Event)
    ensures ValidateEvent(f, e).Ok? <==>
      e.schema == 1 && Identifier(f, e.eventId) && WellFormed(f, e.order.(item := Strip(e.order.item)))
    ensures ValidateEvent(f, e).Ok? ==> ValidateEvent(f, e).value == e.order
  {
    StripIdempotent(e.order.item);
    hide Strip, Identifier;
  }

  // ---- how far one order can go ----

  function Depth(status: string): int {
    if status == "created" then 0 else if status == "paid" then 1 else 2
  }

  ghost predicate Link(h: seq<Order>, k: nat)
    requires 0 < k < |h|
  {
    Transition(h[k - 1], k, h[k].status) == Ok(h[k])
  }

  /** A chain of versions as SQL commits them: created first, then one allowed transition at a time. */
  ghost predicate Chain(f: Formats, id: string, h: seq<Order>) {
    && h != []
    && (forall k :: 0 <= k < |h| ==> h[k].id == id && h[k].version == k + 1 && WellFormed(f, h[k]))
    && h[0].status == "created"
    && (forall k {:trigger Link(h, k)} :: 0 < k < |h| ==> Link(h, k))
  }

  lemma LaterIsDeeper(o: Order, expectedVersion: int, status: string)
    requires Transition(o, expectedVersion, status).Ok?
    ensures Depth(status) > Depth(o.status) && o.status !in {"shipped", "cancelled"}
  {
  }

  lemma {:induction false} ChainDepth(f: Formats, id: string, h: seq<Order>, k: nat)
    requires Chain(f, id, h) && k < |h|
    ensures k <= Depth(h[k].status) <= 2
  {
    hide WellFormed;
    if k > 0 {
      ChainDepth(f, id, h, k - 1);
      assert Link(h, k);
      hide Chain;
      LaterIsDeeper(h[k - 1], k, h[k].status);
    }
  }

  /** Every order has at most three versions, and a shipped or cancelled one is final. */
  lemma {:induction false} ChainEnds(f: Formats, id: string, h: seq<Order>, k: nat)
    requires Chain(f, id, h) && k < |h|
    ensures |h| <= 3
    ensures h[k].status in {"shipped", "cancelled"} ==> k == |h| - 1
  {
    hide WellFormed;
    ChainDepth(f, id, h, |h| - 1);
    if k < |h| - 1 {
      assert Link(h, k + 1);
      hide Chain;
      LaterIsDeeper(h[k], k + 1, h[k + 1].status);
    }
  }
}
