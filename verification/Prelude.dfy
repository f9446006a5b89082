/** Shared vocabulary: options, sums over sequences, and rows addressed by a key. */
module Prelude {

  datatype Option<+T> = None | Some(value: T)

  /** The total of f over a sequence. */
  function Sum<T>(f: T -> int, s: seq<T>): int {
    if s == [] then 0 else f(s[0]) + Sum(f, s[1..])
  }

  lemma {:induction false} SumConcat<T>(f: T -> int, s: seq<T>, t: seq<T>)
    ensures Sum(f, s + t) == Sum(f, s) + Sum(f, t)
  {
    if s == [] {
      assert s + t == t;
    } else {
      SumConcat(f, s[1..], t);
      assert (s + t)[1..] == s[1..] + t;
    }
  }

  lemma SumAppend<T>(f: T -> int, s: seq<T>, x: T)
    ensures Sum(f, s + [x]) == Sum(f, s) + f(x)
  {
    SumConcat(f, s, [x]);
    assert [x][1..] == [];
  }

  lemma SumUpdate<T>(f: T -> int, s: seq<T>, i: nat, x: T)
    requires i < |s|
    ensures Sum(f, s[i := x]) == Sum(f, s) - f(s[i]) + f(x)
  {
    assert s == s[..i] + [s[i]] + s[i + 1..];
    assert s[i := x] == s[..i] + [x] + s[i + 1..];
    SumConcat(f, s[..i] + [s[i]], s[i + 1..]);
    SumConcat(f, s[..i] + [x], s[i + 1..]);
    SumAppend(f, s[..i], s[i]);
    SumAppend(f, s[..i], x);
  }

  /** A total does not depend on the order of the rows. */
  lemma {:induction false} SumPermutation<T>(f: T -> int, s: seq<T>, t: seq<T>)
    requires multiset(s) == multiset(t)
    ensures Sum(f, s) == Sum(f, t)
  {
    if s == [] {
      assert |multiset(t)| == 0;
      assert t == [];
    } else {
      assert s[0] in multiset(t);
      var i :| 0 <= i < |t| && t[i] == s[0];
      var rest := t[..i] + t[i + 1..];
      assert t == t[..i] + [t[i]] + t[i + 1..];
      assert s == [s[0]] + s[1..];
      assert multiset(rest) == multiset(t) - multiset{s[0]};
      assert multiset(s[1..]) == multiset(s) - multiset{s[0]};
      SumPermutation(f, s[1..], rest);
      SumConcat(f, t[..i] + [t[i]], t[i + 1..]);
      SumAppend(f, t[..i], t[i]);
      SumConcat(f, t[..i], t[i + 1..]);
    }
  }

  lemma {:induction false} SumNonNegative<T>(f: T -> int, s: seq<T>)
    requires forall x :: x in s ==> f(x) >= 0
    ensures Sum(f, s) >= 0
    ensures forall x :: x in s ==> f(x) <= Sum(f, s)
  {
    if s != [] {
      SumNonNegative(f, s[1..]);
    }
  }

  lemma {:induction false} SumAgree<T>(f: T -> int, g: T -> int, s: seq<T>)
    requires forall x :: x in s ==> f(x) == g(x)
    ensures Sum(f, s) == Sum(g, s)
  {
    if s != [] {
      SumAgree(f, g, s[1..]);
    }
  }

  // ---- rows addressed by a key: a table with a primary key, or a Python dict ----

  /** The first row carrying key k. */
  function Lookup<T>(key: T -> string, s: seq<T>, k: string): (r: Option<T>)
    ensures r.Some? ==> r.value in s && key(r.value) == k
    ensures r.None? ==> forall x :: x in s ==> key(x) != k
  {
    if s == [] then None
    else if key(s[0]) == k then Some(s[0])
    else Lookup(key, s[1..], k)
  }

  /** Replace the row that shares x's key, or append x. */
  function Upsert<T>(key: T -> string, s: seq<T>, x: T): (r: seq<T>)
    ensures |s| <= |r| <= |s| + 1
  {
    if s == [] then [x]
    else if key(s[0]) == key(x) then [x] + s[1..]
    else [s[0]] + Upsert(key, s[1..], x)
  }

  /** A Python dict comprehension: first position, last value. */
  function Dict<T>(key: T -> string, s: seq<T>): (r: seq<T>)
    ensures |r| <= |s|
  {
    if s == [] then [] else Upsert(key, Dict(key, s[..|s| - 1]), s[|s| - 1])
  }

  ghost predicate Distinct<T>(key: T -> string, s: seq<T>) {
    forall i, j :: 0 <= i < j < |s| ==> key(s[i]) != key(s[j])
  }

  lemma {:induction false} LookupUpsert<T>(key: T -> string, s: seq<T>, x: T, k: string)
    ensures Lookup(key, Upsert(key, s, x), k) == if key(x) == k then Some(x) else Lookup(key, s, k)
  {
    if s != [] && key(s[0]) != key(x) {
      LookupUpsert(key, s[1..], x, k);
      assert Upsert(key, s, x)[1..] == Upsert(key, s[1..], x);
    } else if s != [] {
      assert Upsert(key, s, x)[1..] == s[1..];
    }
  }

  lemma {:induction false} LookupUnique<T>(key: T -> string, s: seq<T>, x: T)
    requires Distinct(key, s) && x in s
    ensures Lookup(key, s, key(x)) == Some(x)
  {
    if x != s[0] {
      var i :| 0 <= i < |s| && s[i] == x;
      assert s[1..][i - 1] == x;
      assert forall a, b :: 0 <= a < b < |s| - 1 ==> s[1..][a] == s[a + 1] && s[1..][b] == s[b + 1];
      LookupUnique(key, s[1..], x);
    }
  }

  lemma {:induction false} LookupConcat<T>(key: T -> string, s: seq<T>, t: seq<T>, k: string)
    ensures Lookup(key, s + t, k) == if Lookup(key, s, k).Some? then Lookup(key, s, k) else Lookup(key, t, k)
  {
    if s == [] {
      assert s + t == t;
    } else {
      assert (s + t)[1..] == s[1..] + t;
      LookupConcat(key, s[1..], t, k);
    }
  }

  lemma {:induction false} UpsertFresh<T>(key: T -> string, s: seq<T>, x: T)
    requires Lookup(key, s, key(x)).None?
    ensures Upsert(key, s, x) == s + [x]
  {
    if s != [] {
      UpsertFresh(key, s[1..], x);
    }
  }

  lemma {:induction false} UpsertMembers<T>(key: T -> string, s: seq<T>, x: T)
    ensures x in Upsert(key, s, x)
    ensures forall y :: y in Upsert(key, s, x) ==> y == x || y in s
    ensures forall y :: y in s && key(y) != key(x) ==> y in Upsert(key, s, x)
  {
    if s != [] && key(s[0]) != key(x) {
      UpsertMembers(key, s[1..], x);
    }
  }

  /** Overwriting a row keeps the keys of every position. */
  lemma {:induction false} UpsertKeys<T>(key: T -> string, s: seq<T>, x: T)
    requires Lookup(key, s, key(x)).Some?
    ensures |Upsert(key, s, x)| == |s|
    ensures forall i :: 0 <= i < |s| ==> key(Upsert(key, s, x)[i]) == key(s[i])
  {
    if key(s[0]) != key(x) {
      UpsertKeys(key, s[1..], x);
    }
  }

  /** Overwriting a row with one that agrees on column g leaves column g alone at every position. */
  lemma {:induction false} UpsertColumn<T, U>(key: T -> string, g: T -> U, s: seq<T>, x: T)
    requires Lookup(key, s, key(x)).Some? && g(Lookup(key, s, key(x)).value) == g(x)
    ensures |Upsert(key, s, x)| == |s|
    ensures forall i :: 0 <= i < |s| ==> g(Upsert(key, s, x)[i]) == g(s[i])
  {
    if key(s[0]) != key(x) {
      UpsertColumn(key, g, s[1..], x);
    }
  }

  lemma UpsertDistinct<T>(key: T -> string, s: seq<T>, x: T)
    requires Distinct(key, s)
    ensures Distinct(key, Upsert(key, s, x))
  {
    if Lookup(key, s, key(x)).Some? {
      UpsertKeys(key, s, x);
    } else {
      UpsertFresh(key, s, x);
    }
  }

  lemma {:induction false} SumUpsert<T>(f: T -> int, key: T -> string, s: seq<T>, x: T)
    requires Lookup(key, s, key(x)).Some?
    ensures Sum(f, Upsert(key, s, x)) == Sum(f, s) - f(Lookup(key, s, key(x)).value) + f(x)
  {
    var r := Upsert(key, s, x);
    if key(s[0]) == key(x) {
      assert r[1..] == s[1..];
    } else {
      SumUpsert(f, key, s[1..], x);
      assert r[1..] == Upsert(key, s[1..], x);
    }
  }

  /** len(dict) == len(rows) is exactly "no key occurs twice", and then the dict is the rows. */
  lemma {:induction false} DictDistinct<T>(key: T -> string, s: seq<T>)
    ensures Distinct(key, Dict(key, s))
    ensures |Dict(key, s)| == |s| <==> Distinct(key, s)
    ensures Distinct(key, s) ==> Dict(key, s) == s
    ensures forall k :: Lookup(key, Dict(key, s), k).Some? <==> Lookup(key, s, k).Some?
  {
    if s != [] {
      var p, x := s[..|s| - 1], s[|s| - 1];
      assert s == p + [x];
      DictDistinct(key, p);
      UpsertDistinct(key, Dict(key, p), x);
      forall k ensures Lookup(key, Dict(key, s), k).Some? <==> Lookup(key, s, k).Some? {
        LookupUpsert(key, Dict(key, p), x, k);
        LookupConcat(key, p, [x], k);
      }
      if Lookup(key, p, key(x)).Some? {
        var y := Lookup(key, p, key(x)).value;
        var i :| 0 <= i < |p| && p[i] == y;
        assert key(s[i]) == key(s[|s| - 1]);
        UpsertKeys(key, Dict(key, p), x);
      } else {
        UpsertFresh(key, Dict(key, p), x);
        forall i | 0 <= i < |p| ensures key(p[i]) != key(x) { assert p[i] in p; }
        assert forall i :: 0 <= i < |p| ==> s[i] == p[i];
      }
    }
  }

  /** Two duplicate-free sequences with the same members hold the same rows. */
  lemma SameMembers<T>(s: seq<T>, t: seq<T>)
    requires forall i, j :: 0 <= i < j < |s| ==> s[i] != s[j]
    requires forall i, j :: 0 <= i < j < |t| ==> t[i] != t[j]
    requires forall x :: x in s <==> x in t
    ensures multiset(s) == multiset(t)
  {
    forall x ensures multiset(s)[x] == multiset(t)[x] {
      AtMostOnce(s, x);
      AtMostOnce(t, x);
      assert x in s <==> x in multiset(s);
      assert x in t <==> x in multiset(t);
    }
  }

  lemma {:induction false} AtMostOnce<T>(s: seq<T>, x: T)
    requires forall i, j :: 0 <= i < j < |s| ==> s[i] != s[j]
    ensures multiset(s)[x] <= 1
  {
    if s != [] {
      assert s == [s[0]] + s[1..];
      forall i, j | 0 <= i < j < |s| - 1 ensures s[1..][i] != s[1..][j] { assert s[i + 1] != s[j + 1]; }
      AtMostOnce(s[1..], x);
    }
  }

  lemma {:induction false} SumZero<T>(f: T -> int, s: seq<T>)
    requires forall x :: x in s ==> f(x) == 0
    ensures Sum(f, s) == 0
  {
    if s != [] { SumZero(f, s[1..]); }
  }

  /** When only the row keyed like x weighs anything, the total is x's weight. */
  lemma {:induction false} SumSingle<T>(f: T -> int, key: T -> string, s: seq<T>, x: T)
    requires Distinct(key, s) && x in s
    requires forall y :: y in s && key(y) != key(x) ==> f(y) == 0
    ensures Sum(f, s) == f(x)
  {
    assert forall a, b :: 0 <= a < b < |s| - 1 ==> s[1..][a] == s[a + 1] && s[1..][b] == s[b + 1];
    if x == s[0] {
      forall y | y in s[1..] ensures f(y) == 0 {
        var i :| 0 <= i < |s| - 1 && s[1..][i] == y;
        assert s[i + 1] == y;
      }
      SumZero(f, s[1..]);
    } else {
      var i :| 0 <= i < |s| && s[i] == x;
      assert key(s[0]) != key(s[i]);
      assert s[1..][i - 1] == x;
      SumSingle(f, key, s[1..], x);
    }
  }

  /** Indexing form of permutation: the rows of a permuted table are the same rows. */
  lemma SameRowsMembers<T>(s: seq<T>, t: seq<T>)
    requires multiset(s) == multiset(t)
    ensures |s| == |t| && forall x :: x in s <==> x in t
  {
    assert |multiset(s)| == |s| && |multiset(t)| == |t|;
    forall x ensures x in s <==> x in t {
      assert x in s <==> x in multiset(s);
      assert x in t <==> x in multiset(t);
    }
  }
}
