/** Total orders, the one sorted listing of a finite set, and LIMIT pages over it. */
module Keyset {

  ghost predicate Total<T(!new)>(less: (T, T) -> bool) {
    && (forall a :: !less(a, a))
    && (forall a, b, c :: less(a, b) && less(b, c) ==> less(a, c))
    && (forall a, b :: a == b || less(a, b) || less(b, a))
  }

  ghost predicate Ascending<T(!new)>(less: (T, T) -> bool, s: seq<T>) {
    forall i, j :: 0 <= i < j < |s| ==> less(s[i], s[j])
  }

  lemma {:induction false} LeastExists<T(!new)>(less: (T, T) -> bool, keys: set<T>)
    requires Total(less) && keys != {}
    ensures exists m :: m in keys && forall x :: x in keys ==> x == m || less(m, x)
    decreases |keys|
  {
    var k :| k in keys;
    if keys == {k} {
      assert k in keys && forall x :: x in keys ==> x == k || less(k, x);
    } else {
      LeastExists(less, keys - {k});
      var m :| m in keys - {k} && forall x :: x in keys - {k} ==> x == m || less(m, x);
      var least := if less(k, m) then k else m;
      forall x | x in keys && x != least ensures less(least, x) {
        assert k == m || less(k, m) || less(m, k);
        if x != k && x != m { assert x in keys - {k} && less(m, x); }
      }
      assert least in keys;
    }
  }

  /** ORDER BY: the keys in order. */
  ghost function Listed<T(!new)>(less: (T, T) -> bool, keys: set<T>): (s: seq<T>)
    requires Total(less)
    ensures Ascending(less, s) && forall x :: x in s <==> x in keys
    decreases |keys|
  {
    if keys == {} then []
    else
      LeastExists(less, keys);
      var m :| m in keys && forall x :: x in keys ==> x == m || less(m, x);
      [m] + Listed(less, keys - {m})
  }

  /** WHERE key > cursor ORDER BY key LIMIT n; no cursor on the first page. */
  ghost function Page<T(!new)>(less: (T, T) -> bool, keys: set<T>, limit: nat): (s: seq<T>)
    requires Total(less)
    ensures |s| <= limit && Ascending(less, s)
    ensures forall x :: x in s ==> x in keys
    ensures keys != {} && limit > 0 ==> s != []
  {
    var all := Listed(less, keys);
    if keys != {} then var k :| k in keys; assert k in all; if |all| <= limit then all else all[..limit]
    else all
  }

  /** A page has no holes: every key up to its last one is on it, and a short page is everything. */
  lemma {:induction false} PageComplete<T(!new)>(less: (T, T) -> bool, keys: set<T>, limit: nat, k: T)
    requires Total(less) && k in keys && limit > 0
    ensures var s := Page(less, keys, limit); k in s || (|s| == limit && less(s[limit - 1], k))
  {
    var all := Listed(less, keys);
    var i :| 0 <= i < |all| && all[i] == k;
  }

  // ---- strings ----

  /** Byte-wise string order. */
  predicate Less(a: string, b: string) {
    if b == [] then false
    else if a == [] then true
    else a[0] < b[0] || (a[0] == b[0] && Less(a[1..], b[1..]))
  }

  lemma {:induction false} LessTransitive(a: string, b: string, c: string)
    requires Less(a, b) && Less(b, c)
    ensures Less(a, c)
  {
    if a != [] && a[0] == b[0] && b[0] == c[0] { LessTransitive(a[1..], b[1..], c[1..]); }
  }

  lemma {:induction false} LessIrreflexive(a: string)
    ensures !Less(a, a)
  {
    if a != [] { LessIrreflexive(a[1..]); }
  }

  lemma {:induction false} LessTotal(a: string, b: string)
    ensures a == b || Less(a, b) || Less(b, a)
  {
    if a != [] && b != [] && a[0] == b[0] {
      LessTotal(a[1..], b[1..]);
      assert a == [a[0]] + a[1..] && b == [b[0]] + b[1..];
    }
  }

  lemma {:induction false} StringOrder()
    ensures Total(Less)
  {
    forall a ensures !Less(a, a) { LessIrreflexive(a); }
    forall a, b, c | Less(a, b) && Less(b, c) ensures Less(a, c) { LessTransitive(a, b, c); }
    forall a, b ensures a == b || Less(a, b) || Less(b, a) { LessTotal(a, b); }
  }
}
