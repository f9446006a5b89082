/** Keyset pages over orders: what a reader following next_cursor sees, on a fixed or a moving table. */
module Pages {
  import opened Prelude
  import opened Keyset
  import opened Orders
  import opened Cursor

  type Position = (string, string)
  type Table = map<string, Order>

  // ---- LIKE with ESCAPE '!' ----

  predicate Special(c: char) { c == '!' || c == '%' || c == '_' }

  /** q.replace("!", "!!").replace("%", "!%").replace("_", "!_") */
  function EscapeLike(q: string): string {
    if q == [] then [] else (if Special(q[0]) then ['!', q[0]] else [q[0]]) + EscapeLike(q[1..])
  }

  predicate Like(text: string, pattern: string)
    decreases |pattern|, |text|
  {
    if pattern == [] then text == []
    else if pattern[0] == '%' then Like(text, pattern[1..]) || (text != [] && Like(text[1..], pattern))
    else if text == [] then false
    else if pattern[0] == '!' && |pattern| > 1 then text[0] == pattern[1] && Like(text[1..], pattern[2..])
    else (pattern[0] == '_' || text[0] == pattern[0]) && Like(text[1..], pattern[1..])
  }

  predicate StartsWith(text: string, q: string) { |q| <= |text| && text[..|q|] == q }
  predicate Contains(text: string, q: string) { exists i :: 0 <= i <= |text| && StartsWith(text[i..], q) }

  lemma {:induction false} LikeAnything(text: string)
    ensures Like(text, "%")
  {
    if text == [] {
      assert "%"[1..] == [];
    } else {
      LikeAnything(text[1..]);
    }
  }

  lemma {:induction false} LikePrefix(text: string, q: string)
    ensures Like(text, EscapeLike(q) + "%") <==> StartsWith(text, q)
  {
    var p := EscapeLike(q) + "%";
    if q == [] {
      assert p == "%";
      LikeAnything(text);
    } else {
      var rest := EscapeLike(q[1..]) + "%";
      if Special(q[0]) { assert p == ['!', q[0]] + rest && p[2..] == rest; } else { assert p == [q[0]] + rest && p[1..] == rest; }
      if text != [] {
        LikePrefix(text[1..], q[1..]);
        assert StartsWith(text, q) <==> text[0] == q[0] && StartsWith(text[1..], q[1..]) by {
          if |q| <= |text| {
            assert text[..|q|] == [text[0]] + text[1..][..|q| - 1] && q == [q[0]] + q[1..];
          }
        }
      }
    }
  }

  /** The escaping is right: the pattern matches exactly the texts that contain the filter, wildcards taken literally. */
  lemma {:induction false} LikeContains(text: string, q: string)
    ensures Like(text, "%" + EscapeLike(q) + "%") <==> Contains(text, q)
  {
    var p := "%" + EscapeLike(q) + "%";
    assert p[1..] == EscapeLike(q) + "%";
    LikePrefix(text, q);
    assert text[0..] == text;
    if text != [] {
      LikeContains(text[1..], q);
      if Contains(text, q) && !StartsWith(text, q) {
        var i :| 0 <= i <= |text| && StartsWith(text[i..], q);
        assert text[1..][i - 1..] == text[i..];
      }
      if Contains(text[1..], q) {
        var i :| 0 <= i <= |text[1..]| && StartsWith(text[1..][i..], q);
        assert text[1..][i..] == text[i + 1..];
      }
    } else if Contains(text, q) {
      assert StartsWith(text, q);
    }
  }

  // ---- one page ----

  function PositionOf(o: Order): Position { (o.createdAt, o.id) }

  /** ORDER BY created_at DESC, id DESC: a is listed before b. */
  predicate Newer(a: Position, b: Position) { Less(b.0, a.0) || (a.0 == b.0 && Less(b.1, a.1)) }

  lemma {:induction false} NewerTotal()
    ensures Total(Newer)
  {
    StringOrder();
    hide Less;
  }

  function Lower(lower: char -> char, s: string): string { seq(|s|, i requires 0 <= i < |s| => lower(s[i])) }

  /** LOWER(item) LIKE LOWER(pattern) OR id LIKE pattern, and the status filter; empty filters are left out. */
  predicate Matches(lower: char -> char, o: Order, q: string, status: string) {
    var pattern := "%" + EscapeLike(q) + "%";
    && (q == "" || Like(Lower(lower, o.item), Lower(lower, pattern)) || Like(o.id, pattern))
    && (status == "" || o.status == status)
  }

  /** LOWER leaves the wildcard characters alone and makes no new ones. */
  ghost predicate KeepsSpecials(lower: char -> char) {
    forall c :: (Special(c) ==> lower(c) == c) && (Special(lower(c)) ==> Special(c))
  }

  lemma {:induction false} LowerEscape(lower: char -> char, q: string)
    requires KeepsSpecials(lower)
    ensures Lower(lower, EscapeLike(q)) == EscapeLike(Lower(lower, q))
  {
    if q != [] {
      LowerEscape(lower, q[1..]);
      assert Lower(lower, q) == [lower(q[0])] + Lower(lower, q[1..]);
      LowerConcat(lower, if Special(q[0]) then ['!', q[0]] else [q[0]], EscapeLike(q[1..]));
    } else {
      assert Lower(lower, []) == [];
    }
  }

  lemma LowerConcat(lower: char -> char, s: string, t: string)
    ensures Lower(lower, s + t) == Lower(lower, s) + Lower(lower, t)
  {
  }

  /** What the search box means: the item contains the text regardless of case, or the id contains it. */
  lemma {:induction false} MatchMeaning(lower: char -> char, o: Order, q: string, status: string)
    requires KeepsSpecials(lower)
    ensures Matches(lower, o, q, status) <==>
      (q == "" || Contains(Lower(lower, o.item), Lower(lower, q)) || Contains(o.id, q)) && (status == "" || o.status == status)
  {
    LikeContains(o.id, q);
    LikeContains(Lower(lower, o.item), Lower(lower, q));
    LowerEscape(lower, q);
    LowerConcat(lower, "%" + EscapeLike(q), "%");
    LowerConcat(lower, "%", EscapeLike(q));
    assert Special('%') && Lower(lower, "%") == "%";
    hide Like, Contains, EscapeLike;
  }

  /** The rows a request asks for; match stands for its filter. */
  function Wanted(table: Table, match_: Order -> bool, after: Option<Position>): set<Position> {
    set id | id in table && match_(table[id]) && (after.None? || Newer(after.value, PositionOf(table[id]))) :: PositionOf(table[id])
  }

  /** The positions a page returns, and whether it says there are more. */
  ghost function PageOf(table: Table, match_: Order -> bool, after: Option<Position>, limit: nat): seq<Position>
    requires limit > 0
  {
    NewerTotal();
    var rows := Page(Newer, Wanted(table, match_, after), limit + 1);
    if |rows| > limit then rows[..limit] else rows
  }

  ghost predicate HasMore(table: Table, match_: Order -> bool, after: Option<Position>, limit: nat) {
    NewerTotal();
    |Page(Newer, Wanted(table, match_, after), limit + 1)| > limit
  }

  lemma {:induction false} PageFacts(table: Table, match_: Order -> bool, after: Option<Position>, limit: nat)
    requires limit > 0
    ensures var page := PageOf(table, match_, after, limit);
      && Ascending(Newer, page) && (forall k :: k in page ==> k in Wanted(table, match_, after))
      && (HasMore(table, match_, after, limit) ==> |page| == limit)
      && (forall k :: k in Wanted(table, match_, after) ==>
            k in page || (HasMore(table, match_, after, limit) && Newer(page[|page| - 1], k)))
  {
    hide Newer, Wanted, Page;
    NewerTotal();
    var wanted := Wanted(table, match_, after);
    var rows := Page(Newer, wanted, limit + 1);
    var page := PageOf(table, match_, after, limit);
    forall k | k in wanted ensures k in page || (|rows| > limit && Newer(page[|page| - 1], k)) {
      PageComplete(Newer, wanted, limit + 1, k);
      if k !in page && k in rows { assert rows[limit] == k; }
    }
  }

  /** The rows of one fetch: LIMIT limit + 1 positions in order, each with its row as the table has it. */
  ghost predicate Fetched(table: Table, match_: Order -> bool, after: Option<Position>, limit: nat, rows: seq<Order>) {
    NewerTotal();
    var page := Page(Newer, Wanted(table, match_, after), limit + 1);
    |rows| == |page| && forall i :: 0 <= i < |rows| ==> PositionOf(rows[i]) == page[i]
  }

  /** The response carries exactly the page, says rightly whether there is more, and its cursor leads to the page's last row. */
  lemma {:induction false} ResponseIsPage(f: Formats, table: Table, match_: Order -> bool, after: Option<Position>,
                                          limit: nat, rows: seq<Order>, q: string, status: string)
    requires limit > 0 && Fetched(table, match_, after, limit, rows) && Filter(q, status)
    requires forall o :: o in rows ==> Identifier(f, o.id) && StoredTime(f, o.createdAt)
    ensures var r := OrderPageResult(rows, limit, q, status); var page := PageOf(table, match_, after, limit);
      && (r.hasMore <==> HasMore(table, match_, after, limit)) && (r.nextCursor.Some? <==> r.hasMore)
      && |r.orders| == |page| && (forall i :: 0 <= i < |page| ==> PositionOf(r.orders[i]) == page[i])
      && (r.hasMore ==> page != [] && ReadCursor(f, r.nextCursor.value, q, status) == Some(page[|page| - 1]))
  {
    hide Newer, Wanted, Page, IssueCursor, ReadCursor, Identifier, StoredTime, Filter;
    if |rows| > limit {
      var last := rows[limit - 1];
      assert last in rows;
      CursorRoundTrip(f, last.createdAt, last.id, q, status, q, status);
    }
  }

  // ---- following next_cursor ----

  /** A request sees the table as it is then; limits may differ from page to page. */
  datatype Request = Request(table: Table, limit: nat)

  ghost predicate Requests(rs: seq<Request>) { forall r :: r in rs ==> r.limit > 0 }

  ghost function Walk(rs: seq<Request>, match_: Order -> bool, after: Option<Position>): seq<Position>
    requires Requests(rs)
    decreases |rs|
  {
    if rs == [] then []
    else
      var page := PageOf(rs[0].table, match_, after, rs[0].limit);
      if HasMore(rs[0].table, match_, after, rs[0].limit) then
        PageFacts(rs[0].table, match_, after, rs[0].limit);
        page + Walk(rs[1..], match_, Some(page[|page| - 1]))
      else page
  }

  /** Some page of the walk said there was no more. */
  ghost predicate Finished(rs: seq<Request>, match_: Order -> bool, after: Option<Position>)
    requires Requests(rs)
    decreases |rs|
  {
    if rs == [] then false
    else if !HasMore(rs[0].table, match_, after, rs[0].limit) then true
    else
      PageFacts(rs[0].table, match_, after, rs[0].limit);
      var page := PageOf(rs[0].table, match_, after, rs[0].limit);
      Finished(rs[1..], match_, Some(page[|page| - 1]))
  }

  lemma {:induction false} JoinAscending(page: seq<Position>, rest: seq<Position>)
    requires page != [] && Ascending(Newer, page) && Ascending(Newer, rest) && Total(Newer)
    requires forall k :: k in rest ==> Newer(page[|page| - 1], k)
    ensures Ascending(Newer, page + rest)
  {
    AscendingJoin(Newer, page, rest);
  }

  lemma {:induction false} AscendingJoin<T(!new)>(less: (T, T) -> bool, page: seq<T>, rest: seq<T>)
    requires page != [] && Ascending(less, page) && Ascending(less, rest) && Total(less)
    requires forall k :: k in rest ==> less(page[|page| - 1], k)
    ensures Ascending(less, page + rest)
  {
    forall i, j | 0 <= i < |page| && 0 <= j < |rest| ensures less(page[i], rest[j]) {
      assert rest[j] in rest && less(page[|page| - 1], rest[j]);
      assert i < |page| - 1 ==> less(page[i], page[|page| - 1]);
    }
  }

  lemma {:induction false} FurtherOn(after: Option<Position>, last: Position, rest: seq<Position>)
    requires Total(Newer) && (after.None? || Newer(after.value, last)) && forall k :: k in rest ==> Newer(last, k)
    ensures forall k :: k in rest ==> after.None? || Newer(after.value, k)
  {
    hide Less;
  }

  /** Whatever was inserted or changed between pages, the positions returned go strictly down the order: none twice. */
  lemma {:induction false} NoRepeats(rs: seq<Request>, match_: Order -> bool, after: Option<Position>)
    requires Requests(rs)
    ensures Ascending(Newer, Walk(rs, match_, after))
    ensures forall k :: k in Walk(rs, match_, after) ==> after.None? || Newer(after.value, k)
    decreases |rs|
  {
    if rs != [] {
      hide Newer, PageOf, HasMore, Wanted, Ascending, Total;
      var r := rs[0];
      PageFacts(r.table, match_, after, r.limit);
      WantedAfter(r.table, match_, after);
      var page := PageOf(r.table, match_, after, r.limit);
      if HasMore(r.table, match_, after, r.limit) {
        var last := page[|page| - 1];
        assert last in page;
        NoRepeats(rs[1..], match_, Some(last));
        NewerTotal();
        var rest := Walk(rs[1..], match_, Some(last));
        JoinAscending(page, rest);
        FurtherOn(after, last, rest);
      }
    }
  }

  lemma WantedAfter(table: Table, match_: Order -> bool, after: Option<Position>)
    ensures forall k :: k in Wanted(table, match_, after) ==> after.None? || Newer(after.value, k)
  {
  }

  /** Present and matching, at this position, in every table the walk looked at. */
  ghost predicate Throughout(rs: seq<Request>, match_: Order -> bool, k: Position) {
    forall r :: r in rs ==> k in Wanted(r.table, match_, None)
  }

  lemma WantedFrom(table: Table, match_: Order -> bool, after: Option<Position>, k: Position)
    ensures k in Wanted(table, match_, after) <==> k in Wanted(table, match_, None) && (after.None? || Newer(after.value, k))
  {
  }

  /** A finished walk has returned every row that was present and matching throughout. */
  lemma {:induction false} Complete(rs: seq<Request>, match_: Order -> bool, after: Option<Position>, k: Position)
    requires Requests(rs) && Finished(rs, match_, after) && Throughout(rs, match_, k)
    requires after.None? || Newer(after.value, k)
    ensures k in Walk(rs, match_, after)
    decreases |rs|
  {
    hide PageOf, HasMore, Wanted, Newer;
    var r := rs[0];
    assert r in rs;
    PageFacts(r.table, match_, after, r.limit);
    WantedFrom(r.table, match_, after, k);
    var page := PageOf(r.table, match_, after, r.limit);
    if k !in page {
      Complete(rs[1..], match_, Some(page[|page| - 1]), k);
    }
  }

  // ---- a fixed table ----

  ghost predicate Fixed(rs: seq<Request>, table: Table) { forall r :: r in rs ==> r.table == table }

  lemma {:induction false} WalkWanted(rs: seq<Request>, table: Table, match_: Order -> bool, after: Option<Position>, k: Position)
    requires Requests(rs) && Fixed(rs, table) && k in Walk(rs, match_, after)
    ensures k in Wanted(table, match_, None)
    decreases |rs|
  {
    hide PageOf, HasMore, Wanted, Newer;
    var r := rs[0];
    assert r in rs;
    PageFacts(r.table, match_, after, r.limit);
    WantedFrom(table, match_, after, k);
    var page := PageOf(r.table, match_, after, r.limit);
    if k !in page {
      WalkWanted(rs[1..], table, match_, Some(page[|page| - 1]), k);
    }
  }

  /** Every page that has more returns at least one row, so as many requests as rows are enough. */
  lemma {:induction false} Terminates(rs: seq<Request>, table: Table, match_: Order -> bool, after: Option<Position>)
    requires Requests(rs) && Fixed(rs, table) && |rs| > |Wanted(table, match_, after)|
    ensures Finished(rs, match_, after)
    decreases |rs|
  {
    hide PageOf, HasMore, Wanted, Newer;
    var r := rs[0];
    assert r in rs;
    if HasMore(table, match_, after, r.limit) {
      PageFacts(table, match_, after, r.limit);
      var page := PageOf(table, match_, after, r.limit);
      var last := page[|page| - 1];
      FewerLeft(table, match_, after, last);
      Terminates(rs[1..], table, match_, Some(last));
    }
  }

  lemma {:induction false} FewerLeft(table: Table, match_: Order -> bool, after: Option<Position>, last: Position)
    requires last in Wanted(table, match_, after)
    ensures |Wanted(table, match_, Some(last))| < |Wanted(table, match_, after)|
  {
    NewerTotal();
    var left, all := Wanted(table, match_, Some(last)), Wanted(table, match_, after);
    WantedFrom(table, match_, after, last);
    forall k ensures k in left ==> k in all && k != last {
      WantedFrom(table, match_, Some(last), k);
      WantedFrom(table, match_, after, k);
    }
    assert left <= all - {last};
    Smaller(left, all - {last});
  }

  lemma {:induction false} Smaller<T>(a: set<T>, b: set<T>)
    requires a <= b
    ensures |a| <= |b|
  {
    if a != {} {
      var x :| x in a;
      Smaller(a - {x}, b - {x});
    }
  }

  lemma {:induction false} AscendingUnique<T(!new)>(less: (T, T) -> bool, s: seq<T>, t: seq<T>)
    requires Total(less) && Ascending(less, s) && Ascending(less, t) && forall x :: x in s <==> x in t
    ensures s == t
  {
    assert t == [] || t[0] in t;
    if s != [] {
      assert s[0] in s && s[0] in t;
      var i :| 0 <= i < |t| && t[i] == s[0];
      assert t[0] in s;
      var j :| 0 <= j < |s| && s[j] == t[0];
      assert i == 0 && s[0] == t[0];
      forall x ensures x in s[1..] <==> x in t[1..] {
        if x in s[1..] { var a :| 0 <= a < |s| - 1 && s[1..][a] == x; assert s[a + 1] == x && less(s[0], s[a + 1]); assert x in t; }
        if x in t[1..] { var a :| 0 <= a < |t| - 1 && t[1..][a] == x; assert t[a + 1] == x && less(t[0], t[a + 1]); assert x in s; }
      }
      AscendingUnique(less, s[1..], t[1..]);
    }
  }

  /**
   * Over a table that holds still, following next_cursor with any positive limits ends, and returns exactly
   * the matching rows, newest first, each once.
   */
  lemma {:induction false} ExactEnumeration(rs: seq<Request>, table: Table, match_: Order -> bool)
    requires Requests(rs) && Fixed(rs, table) && |rs| > |Wanted(table, match_, None)|
    ensures Finished(rs, match_, None) && Total(Newer)
    ensures Walk(rs, match_, None) == Listed(Newer, Wanted(table, match_, None))
  {
    NewerTotal();
    Terminates(rs, table, match_, None);
    NoRepeats(rs, match_, None);
    var walk, wanted := Walk(rs, match_, None), Wanted(table, match_, None);
    hide Walk, Finished, Newer, Wanted, Listed;
    forall k ensures k in walk <==> k in wanted {
      if k in walk { WalkWanted(rs, table, match_, None, k); }
      if k in wanted { Complete(rs, match_, None, k); }
    }
    AscendingUnique(Newer, walk, Listed(Newer, wanted));
  }
}
