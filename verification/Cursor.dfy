/** The order-list query and its page cursor. */
module Cursor {
  import opened Prelude
  import opened Orders
  import opened Encodings
  import opened Json

  datatype PageInput = PageInput(limit: int, q: string, status: string, after: Option<(string, string)>)

  const PARAMETERS: set<string> := {"limit", "cursor", "q", "status"}

  predicate AsciiDigit(c: char) { '0' <= c <= '9' }

  function Number(s: string): int
    requires forall i :: 0 <= i < |s| ==> AsciiDigit(s[i])
  {
    if s == [] then 0 else assert AsciiDigit(s[|s| - 1]); Number(s[..|s| - 1]) * 10 + (s[|s| - 1] - '0') as int
  }

  function Single(query: map<string, seq<string>>, key: string, default_: string): string
    requires key in query ==> |query[key]| == 1
  {
    if key in query then query[key][0] else default_
  }

  /** The position a cursor stands for, if it was issued for this filter. */
  function ReadCursor(f: Formats, cursor: string, q: string, status: string): Option<(string, string)> {
    if |cursor| > 1024 || cursor == [] then None
    else
      var bytes := FromUrl(cursor);
      if bytes.None? then None
      else
        var text := Decode(bytes.value);
        if text.None? then None
        else
          var parts := Load(text.value);
          if parts.None? || |parts.value| != 4 || |parts.value[0]| > 40 || parts.value[2..] != [q, status] then None
          else if !f.isTime(parts.value[0]) || !Identifier(f, parts.value[1]) then None
          else Some((parts.value[0], parts.value[1]))
  }

  function OrderPageInput(f: Formats, query: map<string, seq<string>>): Result<PageInput> {
    if exists k :: k in query && (k !in PARAMETERS || |query[k]| != 1) then Problem(400, "invalid_order_page_parameters")
    else
      var limit, q, status := Single(query, "limit", "25"), Strip(Single(query, "q", "")), Single(query, "status", "");
      if !(1 <= |limit| <= 3) || (exists i :: 0 <= i < |limit| && !AsciiDigit(limit[i])) || !(1 <= Number(limit) <= 100) then
        Problem(400, "invalid_page_limit")
      else if |q| > 100 || (status != "" && status !in STATES) then Problem(400, "invalid_order_filter")
      else
        var cursor := Single(query, "cursor", "");
        if cursor == "" then Ok(PageInput(Number(limit), q, status, None))
        else
          var after := ReadCursor(f, cursor, q, status);
          if after.None? then Problem(400, "invalid_order_cursor") else Ok(PageInput(Number(limit), q, status, after))
  }

  /** json.dumps([created_at, id, q, status], ensure_ascii=False).encode(), in unpadded URL-safe base64. */
  function IssueCursor(createdAt: string, id: string, q: string, status: string): string {
    ToUrl(Encode(Dump([createdAt, id, q, status])))
  }

  datatype PageResult = PageResult(orders: seq<Order>, hasMore: bool, nextCursor: Option<string>)

  /** rows were fetched with LIMIT limit + 1. */
  function OrderPageResult(rows: seq<Order>, limit: nat, q: string, status: string): PageResult
    requires limit > 0
  {
    if |rows| > limit then
      var last := rows[limit - 1];
      PageResult(rows[..limit], true, Some(IssueCursor(last.createdAt, last.id, q, status)))
    else PageResult(rows, false, None)
  }

  // ---- what the service stores ----

  predicate TimeChar(c: char) { '0' <= c <= '9' || c == '-' || c == ':' || c == '.' || c == '+' || c == 'T' || c == 'Z' }

  /** An ISO timestamp as new orders carry it: plain ASCII that fits the 40-character column. */
  predicate StoredTime(f: Formats, s: string) {
    |s| <= 40 && (forall i :: 0 <= i < |s| ==> TimeChar(s[i])) && f.isTime(s)
  }

  predicate Filter(q: string, status: string) {
    |q| <= 100 && Strip(q) == q && (status == "" || status in STATES)
  }

  // ---- length ----

  predicate Plain(s: string) { forall i :: 0 <= i < |s| ==> ' ' <= s[i] < 127 as char && s[i] != QUOTE && s[i] != SLASH }

  lemma {:induction false} PlainLength(s: string)
    requires Plain(s)
    ensures |Encode(Escape(s))| == |s|
  {
    if s != [] {
      PlainLength(s[1..]);
      assert EscapeChar(s[0]) == [s[0]];
      assert ([s[0]] + Escape(s[1..]))[1..] == Escape(s[1..]);
    }
  }

  lemma {:induction false} QuotedLength(s: string)
    ensures |Encode(Quoted(s))| == |Encode(Escape(s))| + 2
  {
    EncodeConcat([QUOTE] + Escape(s), [QUOTE]);
    EncodeConcat([QUOTE], Escape(s));
    AsciiLength([QUOTE]);
  }

  function QuotedLengths(parts: seq<string>): int {
    if parts == [] then 0 else |Encode(Quoted(parts[0]))| + QuotedLengths(parts[1..])
  }

  lemma {:induction false} DumpRestLength(parts: seq<string>)
    ensures |Encode(DumpRest(parts))| == QuotedLengths(parts) + 2 * |parts| + 1
  {
    RestSplits(parts);
    if parts == [] {
      AsciiLength("]");
    } else {
      DumpRestLength(parts[1..]);
      EncodeConcat(", ", Quoted(parts[0]) + DumpRest(parts[1..]));
      EncodeConcat(Quoted(parts[0]), DumpRest(parts[1..]));
      AsciiLength(", ");
      hide Encode, Quoted, DumpRest;
    }
  }

  lemma {:induction false} DumpLength(parts: seq<string>)
    requires parts != []
    ensures |Encode(Dump(parts))| == QuotedLengths(parts) + 2 * |parts|
  {
    EncodeConcat("[", Quoted(parts[0]) + DumpRest(parts[1..]));
    EncodeConcat(Quoted(parts[0]), DumpRest(parts[1..]));
    AsciiLength("[");
    DumpRestLength(parts[1..]);
    assert Dump(parts) == "[" + (Quoted(parts[0]) + DumpRest(parts[1..]));
    hide Encode, Quoted, DumpRest, Dump;
  }

  lemma {:induction false} FourLengths(a: string, b: string, c: string, d: string)
    ensures QuotedLengths([a, b, c, d]) == |Encode(Escape(a))| + |Encode(Escape(b))| + |Encode(Escape(c))| + |Encode(Escape(d))| + 8
  {
    QuotedLength(a);
    QuotedLength(b);
    QuotedLength(c);
    QuotedLength(d);
    hide Encode, Quoted, Escape;
    assert QuotedLengths([d]) == |Encode(Quoted(d))| by { assert [d][1..] == []; }
    assert QuotedLengths([c, d]) == |Encode(Quoted(c))| + QuotedLengths([d]) by { assert [c, d][1..] == [d]; }
    assert QuotedLengths([b, c, d]) == |Encode(Quoted(b))| + QuotedLengths([c, d]) by { assert [b, c, d][1..] == [c, d]; }
    assert [a, b, c, d][1..] == [b, c, d];
  }

  lemma PlainParts(f: Formats, createdAt: string, id: string, status: string)
    requires StoredTime(f, createdAt) && Identifier(f, id) && (status == "" || status in STATES)
    ensures Plain(createdAt) && Plain(id) && Plain(status) && |status| <= 9
  {
    assert Plain("") && Plain("created") && Plain("paid") && Plain("shipped") && Plain("cancelled");
    assert status == "" || status == "created" || status == "paid" || status == "shipped" || status == "cancelled";
    forall i | 0 <= i < |createdAt| ensures ' ' <= createdAt[i] < 127 as char && createdAt[i] != QUOTE && createdAt[i] != SLASH {
      assert TimeChar(createdAt[i]);
    }
    forall i | 0 <= i < |id| ensures ' ' <= id[i] < 127 as char && id[i] != QUOTE && id[i] != SLASH {
      assert HexOrDash(id[i]);
    }
  }

  /** Even a filter of a hundred control characters, six bytes each, leaves the cursor within the limit it is read back with. */
  lemma {:induction false} CursorFits(f: Formats, createdAt: string, id: string, q: string, status: string)
    requires StoredTime(f, createdAt) && Identifier(f, id) && Filter(q, status)
    ensures 0 < |IssueCursor(createdAt, id, q, status)| <= 1024
  {
    var parts := [createdAt, id, q, status];
    PlainParts(f, createdAt, id, status);
    PlainLength(createdAt);
    PlainLength(id);
    PlainLength(status);
    EscapeLength(q);
    FourLengths(createdAt, id, q, status);
    DumpLength(parts);
    hide Encode, Escape, Dump, QuotedLengths, Digits, Plain, Strip;
    DigitsLength(Encode(Dump(parts)));
    DigitsSome(Encode(Dump(parts)));
  }

  lemma DigitsSome(bs: seq<Byte>)
    ensures bs != [] ==> Digits(bs) != []
  {
  }

  // ---- round trip ----

  /** A cursor read back under its own filter is exactly the last row's position; under any other filter it is refused. */
  lemma {:induction false} CursorRoundTrip(f: Formats, createdAt: string, id: string, q: string, status: string, q': string, status': string)
    requires StoredTime(f, createdAt) && Identifier(f, id) && Filter(q, status)
    ensures ReadCursor(f, IssueCursor(createdAt, id, q, status), q', status') ==
      if q' == q && status' == status then Some((createdAt, id)) else None
  {
    var parts := [createdAt, id, q, status];
    CursorFits(f, createdAt, id, q, status);
    UrlRoundTrip(Encode(Dump(parts)));
    Utf8RoundTrip(Dump(parts));
    DumpRoundTrip(parts);
    assert parts[2..] == [q, status];
    hide ToUrl, FromUrl, Encode, Decode, Dump, Load, Strip;
    assert [q, status] == [q', status'] <==> q == q' && status == status' by {
      assert [q, status][0] == q && [q, status][1] == status && [q', status'][0] == q' && [q', status'][1] == status';
    }
  }

  /** The same, through the whole query: the next request with the cursor continues exactly after the last row. */
  lemma {:induction false} NextPageQuery(f: Formats, rows: seq<Order>, limit: nat, q: string, status: string, raw: string)
    requires 0 < limit < |rows| && Filter(q, status) && Strip(raw) == q
    requires Identifier(f, rows[limit - 1].id) && StoredTime(f, rows[limit - 1].createdAt)
    ensures var next := OrderPageResult(rows, limit, q, status).nextCursor;
      next.Some? && OrderPageInput(f, map["q" := [raw], "status" := [status], "cursor" := [next.value]])
        == Ok(PageInput(25, q, status, Some((rows[limit - 1].createdAt, rows[limit - 1].id))))
  {
    var last := rows[limit - 1];
    CursorFits(f, last.createdAt, last.id, q, status);
    CursorRoundTrip(f, last.createdAt, last.id, q, status, q, status);
    hide IssueCursor, ReadCursor, Strip, Identifier, StoredTime, OrderPageInput;
    CursorQuery(f, raw, status, IssueCursor(last.createdAt, last.id, q, status));
  }

  lemma {:induction false} CursorQuery(f: Formats, raw: string, status: string, cursor: string)
    requires Filter(Strip(raw), status) && cursor != ""
    ensures OrderPageInput(f, map["q" := [raw], "status" := [status], "cursor" := [cursor]]) ==
      var after := ReadCursor(f, cursor, Strip(raw), status);
      if after.None? then Problem(400, "invalid_order_cursor") else Ok(PageInput(25, Strip(raw), status, after))
  {
    DefaultLimit();
    hide ReadCursor, Strip, Number;
    var query := map["q" := [raw], "status" := [status], "cursor" := [cursor]];
    assert forall k :: k in query ==> k in PARAMETERS && |query[k]| == 1;
    assert Single(query, "limit", "25") == "25" && Single(query, "q", "") == raw;
    assert Single(query, "status", "") == status && Single(query, "cursor", "") == cursor;
    assert AsciiDigit("25"[0]) && AsciiDigit("25"[1]);
  }

  lemma DefaultLimit()
    ensures Number("25") == 25
  {
    assert "25"[..1] == "2" && "2"[..0] == "";
    assert Number("2") == 2;
  }

  // ---- exactly which queries and cursors are accepted ----

  /** A cursor is accepted exactly if it is short, decodes, and lists a time, an id and this very filter. */
  lemma {:induction false} CursorExactly(f: Formats, cursor: string, q: string, status: string, time: string, id: string)
    ensures ReadCursor(f, cursor, q, status) == Some((time, id)) <==>
      (0 < |cursor| <= 1024 && FromUrl(cursor).Some? && Decode(FromUrl(cursor).value).Some?
       && Load(Decode(FromUrl(cursor).value).value) == Some([time, id, q, status])
       && |time| <= 40 && f.isTime(time) && Identifier(f, id))
  {
    hide FromUrl, Decode, Load, Identifier;
    if FromUrl(cursor).Some? && Decode(FromUrl(cursor).value).Some? && Load(Decode(FromUrl(cursor).value).value).Some? {
      FourParts(Load(Decode(FromUrl(cursor).value).value).value, time, id, q, status);
    }
  }

  lemma FourParts(parts: seq<string>, time: string, id: string, q: string, status: string)
    ensures |parts| == 4 && parts[0] == time && parts[1] == id && parts[2..] == [q, status] <==> parts == [time, id, q, status]
  {
    if |parts| == 4 && parts[2..] == [q, status] { assert parts[2] == parts[2..][0] && parts[3] == parts[2..][1]; }
    if parts == [time, id, q, status] { assert parts[2..] == [q, status]; }
  }

  /** One value each of the four parameters at most. */
  ghost predicate KnownParameters(query: map<string, seq<string>>) {
    forall k :: k in query ==> k in {"limit", "cursor", "q", "status"} && |query[k]| == 1
  }

  function Given(query: map<string, seq<string>>, key: string, default_: string): string {
    if key in query && query[key] != [] then query[key][0] else default_
  }

  ghost predicate GoodLimit(limit: string) {
    1 <= |limit| <= 3 && (forall i :: 0 <= i < |limit| ==> '0' <= limit[i] <= '9') && 1 <= Number(limit) <= 100
  }

  /** A query is answered, and each way of being wrong is named, in this order. */
  lemma {:induction false} QueryExactly(f: Formats, query: map<string, seq<string>>)
    ensures var limit, q, status, cursor := Given(query, "limit", "25"), Strip(Given(query, "q", "")), Given(query, "status", ""), Given(query, "cursor", "");
      OrderPageInput(f, query) ==
        if !KnownParameters(query) then Problem(400, "invalid_order_page_parameters")
        else if !GoodLimit(limit) then Problem(400, "invalid_page_limit")
        else if |q| > 100 || status !in {"", "created", "paid", "shipped", "cancelled"} then Problem(400, "invalid_order_filter")
        else if cursor == "" then Ok(PageInput(Number(limit), q, status, None))
        else if ReadCursor(f, cursor, q, status).None? then Problem(400, "invalid_order_cursor")
        else Ok(PageInput(Number(limit), q, status, ReadCursor(f, cursor, q, status)))
  {
    hide ReadCursor, Strip, Number;
    if KnownParameters(query) {
      assert forall k :: k in query ==> k in PARAMETERS && |query[k]| == 1;
      assert Single(query, "limit", "25") == Given(query, "limit", "25") && Single(query, "q", "") == Given(query, "q", "");
      assert Single(query, "status", "") == Given(query, "status", "") && Single(query, "cursor", "") == Given(query, "cursor", "");
      var limit := Given(query, "limit", "25");
      assert (exists i :: 0 <= i < |limit| && !AsciiDigit(limit[i])) <==> !(forall i :: 0 <= i < |limit| ==> '0' <= limit[i] <= '9');
    }
  }

  /** The number a limit stands for, digit by digit. */
  lemma LimitValues(a: char, b: char, c: char)
    requires AsciiDigit(a) && AsciiDigit(b) && AsciiDigit(c)
    ensures Number([a]) == (a - '0') as int && Number([a, b]) == 10 * (a - '0') as int + (b - '0') as int
    ensures Number([a, b, c]) == 100 * (a - '0') as int + 10 * (b - '0') as int + (c - '0') as int
  {
    assert [a][..0] == [] && [a, b][..1] == [a] && [a, b, c][..2] == [a, b];
    assert Number([a]) == Number([]) * 10 + (a - '0') as int;
    assert Number([a, b]) == Number([a]) * 10 + (b - '0') as int;
  }
}
