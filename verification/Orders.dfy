/** Strict total orders, the lexicographic order of Rust strings, and the two library idioms the
    repository leans on: "sort, then drop adjacent duplicates", and iterating an ordered map. */
module Orders {

  ghost predicate StrictTotal<T(!new)>(less: (T, T) -> bool) {
    && (forall a :: !less(a, a))
    && (forall a, b :: a == b || less(a, b) || less(b, a))
    && (forall a, b, c :: less(a, b) && less(b, c) ==> less(a, c))
  }

  predicate LexLess<T(==)>(less: (T, T) -> bool, a: seq<T>, b: seq<T>) {
    b != [] && (a == [] || less(a[0], b[0]) || (a[0] == b[0] && LexLess(less, a[1..], b[1..])))
  }

  lemma {:induction false} LexIrreflexive<T(!new)>(less: (T, T) -> bool, a: seq<T>)
    requires StrictTotal(less)
    ensures !LexLess(less, a, a)
  {
    if a != [] { LexIrreflexive(less, a[1..]); }
  }

  lemma {:induction false} LexTotal<T(!new)>(less: (T, T) -> bool, a: seq<T>, b: seq<T>)
    requires StrictTotal(less)
    ensures a == b || LexLess(less, a, b) || LexLess(less, b, a)
  {
    if a != [] && b != [] && a[0] == b[0] {
      LexTotal(less, a[1..], b[1..]);
      assert a == [a[0]] + a[1..] && b == [b[0]] + b[1..];
    }
  }

  lemma {:induction false} LexTransitive<T(!new)>(less: (T, T) -> bool, a: seq<T>, b: seq<T>, c: seq<T>)
    requires StrictTotal(less) && LexLess(less, a, b) && LexLess(less, b, c)
    ensures LexLess(less, a, c)
  {
    if a != [] && a[0] == b[0] == c[0] { LexTransitive(less, a[1..], b[1..], c[1..]); }
  }

  predicate CharLess(a: char, b: char) { a < b }

  /** The order of Rust's `str`: code-point by code-point, which is what comparing UTF-8 bytes gives. */
  predicate TextLess(a: string, b: string) { LexLess(CharLess, a, b) }

  lemma TextOrder()
    ensures StrictTotal(TextLess)
  {
    assert StrictTotal(CharLess);
    forall a: string ensures !TextLess(a, a) { LexIrreflexive(CharLess, a); }
    forall a: string, b: string ensures a == b || TextLess(a, b) || TextLess(b, a) { LexTotal(CharLess, a, b); }
    forall a: string, b: string, c: string | TextLess(a, b) && TextLess(b, c) ensures TextLess(a, c) {
      LexTransitive(CharLess, a, b, c);
    }
  }

  /** Strictly increasing by `key`. */
  ghost predicate Ascending<T, K>(key: T -> K, less: (K, K) -> bool, s: seq<T>) {
    forall i, j | 0 <= i < j < |s| :: less(key(s[i]), key(s[j]))
  }

  function Insert<T, K(==)>(key: T -> K, less: (K, K) -> bool, x: T, s: seq<T>): seq<T> {
    if s == [] || less(key(x), key(s[0])) then [x] + s
    else if key(x) == key(s[0]) then [x] + s[1..]
    else [s[0]] + Insert(key, less, x, s[1..])
  }

  /** A stable sort by `key` followed by dropping all but the first element of each key. */
  function SortDedup<T, K(==)>(key: T -> K, less: (K, K) -> bool, s: seq<T>): seq<T> {
    if s == [] then [] else Insert(key, less, s[0], SortDedup(key, less, s[1..]))
  }

  lemma {:induction false} InsertHolds<T, K(!new)>(key: T -> K, less: (K, K) -> bool, x: T, s: seq<T>)
    ensures var r := Insert(key, less, x, s);
      && x in r
      && (forall y :: y in r ==> y == x || y in s)
      && (forall y :: y in s ==> y in r || key(y) == key(x))
  {
    if !(s == [] || less(key(x), key(s[0]))) && key(x) != key(s[0]) {
      InsertHolds(key, less, x, s[1..]);
      assert forall y :: y in s <==> y == s[0] || y in s[1..];
    }
  }

  lemma PrependAscends<T, K(!new)>(key: T -> K, less: (K, K) -> bool, x: T, s: seq<T>)
    requires Ascending(key, less, s) && forall y | y in s :: less(key(x), key(y))
    ensures Ascending(key, less, [x] + s)
  {
    forall i, j | 0 <= i < j < |[x] + s| ensures less(key(([x] + s)[i]), key(([x] + s)[j])) {
      assert s[j - 1] in s;
    }
  }

  lemma {:induction false} InsertOrdered<T, K(!new)>(key: T -> K, less: (K, K) -> bool, x: T, s: seq<T>)
    requires StrictTotal(less) && Ascending(key, less, s)
    ensures Ascending(key, less, Insert(key, less, x, s))
  {
    if s == [] || less(key(x), key(s[0])) {
      PrependAscends(key, less, x, s);
    } else if key(x) == key(s[0]) {
      PrependAscends(key, less, x, s[1..]);
    } else {
      InsertOrdered(key, less, x, s[1..]);
      InsertHolds(key, less, x, s[1..]);
      PrependAscends(key, less, s[0], Insert(key, less, x, s[1..]));
    }
  }

  /** Some element of `s` has key `k`. */
  ghost predicate HasKey<T, K>(key: T -> K, s: seq<T>, k: K) { exists i :: 0 <= i < |s| && key(s[i]) == k }

  lemma {:induction false} InsertKeys<T, K(!new)>(key: T -> K, less: (K, K) -> bool, x: T, s: seq<T>, k: K)
    ensures HasKey(key, Insert(key, less, x, s), k) <==> k == key(x) || HasKey(key, s, k)
  {
    var r := Insert(key, less, x, s);
    if s == [] || less(key(x), key(s[0])) {
      assert r[0] == x && r[1..] == s;
      if HasKey(key, s, k) { var i :| 0 <= i < |s| && key(s[i]) == k; assert key(r[i + 1]) == k; }
    } else if key(x) == key(s[0]) {
      assert r[0] == x && r[1..] == s[1..];
      if HasKey(key, s, k) { var i :| 0 <= i < |s| && key(s[i]) == k; assert key(r[i]) == k; }
      if HasKey(key, r, k) { var i :| 0 <= i < |r| && key(r[i]) == k; assert key(s[i]) == k; }
    } else {
      InsertKeys(key, less, x, s[1..], k);
      var t := Insert(key, less, x, s[1..]);
      if HasKey(key, t, k) { var i :| 0 <= i < |t| && key(t[i]) == k; assert key(r[i + 1]) == k; }
      if HasKey(key, r, k) { var i :| 0 <= i < |r| && key(r[i]) == k; assert i > 0 ==> key(t[i - 1]) == k; }
      if HasKey(key, s, k) {
        var i :| 0 <= i < |s| && key(s[i]) == k;
        assert i > 0 ==> key(s[1..][i - 1]) == k;
        assert key(r[0]) == key(s[0]);
      }
    }
  }

  /** The result is strictly ascending and holds only elements of the input. */
  lemma {:induction false} SortDedupOrdered<T, K(!new)>(key: T -> K, less: (K, K) -> bool, s: seq<T>)
    requires StrictTotal(less)
    ensures var r := SortDedup(key, less, s);
      Ascending(key, less, r) && (forall y :: y in r ==> y in s)
  {
    if s != [] {
      SortDedupOrdered(key, less, s[1..]);
      InsertOrdered(key, less, s[0], SortDedup(key, less, s[1..]));
      InsertHolds(key, less, s[0], SortDedup(key, less, s[1..]));
    }
  }

  /** No key is lost and none is invented. */
  lemma {:induction false} SortDedupKeys<T, K(!new)>(key: T -> K, less: (K, K) -> bool, s: seq<T>, k: K)
    ensures HasKey(key, SortDedup(key, less, s), k) <==> HasKey(key, s, k)
  {
    if s != [] {
      SortDedupKeys(key, less, s[1..], k);
      InsertKeys(key, less, s[0], SortDedup(key, less, s[1..]), k);
      if HasKey(key, s[1..], k) { var i :| 0 <= i < |s| - 1 && key(s[1..][i]) == k; assert key(s[i + 1]) == k; }
      if HasKey(key, s, k) { var i :| 0 <= i < |s| && key(s[i]) == k; assert i > 0 ==> key(s[1..][i - 1]) == k; }
    }
  }

  /** An ascending sequence is determined by its elements. */
  lemma {:induction false} AscendingUnique<T, K(!new)>(key: T -> K, less: (K, K) -> bool, a: seq<T>, b: seq<T>)
    requires StrictTotal(less) && Ascending(key, less, a) && Ascending(key, less, b)
    requires forall x :: x in a <==> x in b
    ensures a == b
  {
    if a != [] {
      assert a[0] in b;
      assert b[0] in a;
      var i :| 0 <= i < |b| && b[i] == a[0];
      var j :| 0 <= j < |a| && a[j] == b[0];
      assert a[0] == b[0];
      forall x ensures x in a[1..] <==> x in b[1..] {
        if x in a[1..] {
          var m :| 0 < m < |a| && a[m] == x;
          assert x in b;
          assert x != b[0];
        }
        if x in b[1..] {
          var m :| 0 < m < |b| && b[m] == x;
          assert x in a;
          assert x != a[0];
        }
      }
      AscendingUnique(key, less, a[1..], b[1..]);
      assert a == [a[0]] + a[1..] && b == [b[0]] + b[1..];
    } else {
      FirstIsIn(b);
    }
  }

  lemma FirstIsIn<T>(b: seq<T>)
    ensures b == [] || b[0] in b
  {
  }

  function Same<T>(x: T): T { x }

  /** Sorting and de-duplicating whole values yields equal results exactly for equal sets. */
  lemma {:induction false} SortDedupIsTheSet<T(!new)>(less: (T, T) -> bool, a: seq<T>, b: seq<T>)
    requires StrictTotal(less)
    ensures SortDedup(Same, less, a) == SortDedup(Same, less, b) <==> (forall x :: x in a <==> x in b)
  {
    var ca, cb := SortDedup(Same, less, a), SortDedup(Same, less, b);
    SortDedupOrdered(Same, less, a);
    SortDedupOrdered(Same, less, b);
    forall x ensures (x in a <==> x in ca) && (x in b <==> x in cb) {
      SortDedupKeys(Same, less, a, x);
      SortDedupKeys(Same, less, b, x);
      assert (x in a <==> HasKey(Same, a, x)) && (x in b <==> HasKey(Same, b, x));
      assert (x in ca <==> HasKey(Same, ca, x)) && (x in cb <==> HasKey(Same, cb, x));
    }
    if forall x :: x in a <==> x in b {
      AscendingUnique(Same, less, ca, cb);
    }
    if ca == cb {
      forall x ensures x in a <==> x in b { assert x in ca <==> x in cb; }
    }
  }

  // ---- Ordered iteration of a BTreeMap's keys ----

  ghost predicate IsLeast(x: string, s: set<string>) { x in s && forall y | y in s :: y == x || TextLess(x, y) }

  lemma {:induction false} LeastExists(s: set<string>)
    requires s != {}
    ensures exists x :: IsLeast(x, s)
  {
    TextOrder();
    var x :| x in s;
    if s == {x} {
      assert IsLeast(x, s);
    } else {
      assert s - {x} != {};
      LeastExists(s - {x});
      var y :| IsLeast(y, s - {x});
      forall z | z in s && TextLess(x, y) ensures z == x || TextLess(x, z) {
        if z != x && z != y { assert z in s - {x}; assert TextLess(y, z); }
      }
      if TextLess(x, y) { assert IsLeast(x, s); } else { assert IsLeast(y, s); }
    }
  }

  function InOrder(s: set<string>): (names: seq<string>)
    ensures forall x :: x in names <==> x in s
    ensures Ascending(Same, TextLess, names)
  {
    if s == {} then []
    else
      LeastExists(s); TextOrder();
      var x :| x in s && forall y | y in s :: y == x || TextLess(x, y);
      [x] + InOrder(s - {x})
  }
}
