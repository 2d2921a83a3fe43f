/**
 * Orderings used by the list views and the dashboard. An ORDER BY on a
 * column that is not unique leaves ties to the database; here ties keep
 * ascending primary-key order, which is one of the orders the database may
 * return. Rows are sorted by a stable insertion sort under a total preorder.
 */
module Ordering {

  /** Strictly ascending, hence free of duplicates. */
  predicate Increasing(s: seq<nat>) {
    forall i, j :: 0 <= i < j < |s| ==> s[i] < s[j]
  }

  predicate Distinct(s: seq<nat>) {
    forall i, j :: 0 <= i < j < |s| ==> s[i] != s[j]
  }

  /** m is the smallest key of the table. */
  predicate IsLeast(m: nat, ids: set<nat>) {
    m in ids && forall y | y in ids :: m <= y
  }

  lemma {:induction false} MinExists(ids: set<nat>)
    requires ids != {}
    ensures exists m :: IsLeast(m, ids)
    decreases ids
  {
    var x :| x in ids;
    if ids == {x} {
      assert IsLeast(x, ids);
    } else {
      MinExists(ids - {x});
      var m :| IsLeast(m, ids - {x});
      var least := if x < m then x else m;
      forall y | y in ids ensures least <= y {
        if y != x {
          assert y in ids - {x};
        }
      }
      assert IsLeast(least, ids);
    }
  }

  /** The smallest key of a non-empty table. */
  function Least(ids: set<nat>): (m: nat)
    requires ids != {}
    ensures IsLeast(m, ids)
  {
    MinExists(ids);
    var m :| IsLeast(m, ids);
    m
  }

  /** The primary keys of a table in ascending order. */
  function Enumerate(ids: set<nat>): (r: seq<nat>)
    ensures |r| == |ids|
    ensures forall x :: x in r <==> x in ids
    ensures Increasing(r)
    decreases ids
  {
    if ids == {} then []
    else
      var m := Least(ids);
      var rest := Enumerate(ids - {m});
      assert forall x :: x in rest ==> m < x;
      [m] + rest
  }

  /** `le` is total and transitive: any two rows can be compared consistently. */
  ghost predicate TotalPreorder(le: (nat, nat) -> bool) {
    && (forall a, b :: le(a, b) || le(b, a))
    && (forall a, b, c :: le(a, b) && le(b, c) ==> le(a, c))
  }

  ghost predicate Sorted(s: seq<nat>, le: (nat, nat) -> bool) {
    forall i, j :: 0 <= i < j < |s| ==> le(s[i], s[j])
  }

  /** Places x before the first element it may precede, so x goes ahead of its ties. */
  function Insert(x: nat, s: seq<nat>, le: (nat, nat) -> bool): (r: seq<nat>)
    ensures |r| == |s| + 1
    ensures multiset(r) == multiset(s) + multiset{x}
  {
    if s == [] || le(x, s[0]) then [x] + s
    else
      assert s == [s[0]] + s[1..];
      [s[0]] + Insert(x, s[1..], le)
  }

  /** Stable insertion sort: equal rows keep their input order. */
  function Sort(s: seq<nat>, le: (nat, nat) -> bool): (r: seq<nat>)
    ensures |r| == |s|
    ensures multiset(r) == multiset(s)
  {
    if s == [] then []
    else
      assert s == [s[0]] + s[1..];
      Insert(s[0], Sort(s[1..], le), le)
  }

  lemma {:induction false} InsertSorted(x: nat, s: seq<nat>, le: (nat, nat) -> bool)
    requires TotalPreorder(le) && Sorted(s, le)
    ensures Sorted(Insert(x, s, le), le)
  {
    if s == [] || le(x, s[0]) {
      var r := [x] + s;
      forall i, j | 0 <= i < j < |r| ensures le(r[i], r[j]) {
        if i == 0 && j > 1 {
          assert le(x, s[0]) && le(s[0], s[j - 1]);
        }
      }
    } else {
      var rest := Insert(x, s[1..], le);
      assert Sorted(s[1..], le);
      InsertSorted(x, s[1..], le);
      assert le(s[0], x);
      forall y | y in rest ensures le(s[0], y) {
        assert y in multiset(rest);
        if y != x {
          assert y in multiset(s[1..]);
          var j :| 0 <= j < |s[1..]| && s[1..][j] == y;
          assert s[j + 1] == y;
        }
      }
      var r := [s[0]] + rest;
      forall i, j | 0 <= i < j < |r| ensures le(r[i], r[j]) {
        if i == 0 {
          assert r[j] == rest[j - 1];
          assert r[j] in rest;
        } else {
          assert r[i] == rest[i - 1] && r[j] == rest[j - 1];
        }
      }
    }
  }

  lemma {:induction false} SortSorted(s: seq<nat>, le: (nat, nat) -> bool)
    requires TotalPreorder(le)
    ensures Sorted(Sort(s, le), le)
  {
    if s != [] {
      SortSorted(s[1..], le);
      InsertSorted(s[0], Sort(s[1..], le), le);
    }
  }

  lemma HeadNotInTail(s: seq<nat>)
    requires Distinct(s) && s != []
    ensures s[0] !in s[1..]
  {
  }

  lemma {:induction false} InsertDistinct(x: nat, s: seq<nat>, le: (nat, nat) -> bool)
    requires Distinct(s) && x !in s
    ensures Distinct(Insert(x, s, le))
  {
    if s == [] || le(x, s[0]) {
      var r := [x] + s;
      forall i, j | 0 <= i < j < |r| ensures r[i] != r[j] {
        if i == 0 {
          assert r[j] in s;
        }
      }
    } else {
      assert Distinct(s[1..]);
      InsertDistinct(x, s[1..], le);
      var rest := Insert(x, s[1..], le);
      HeadNotInTail(s);
      assert s[0] != x;
      forall y | y in rest ensures y != s[0] {
        assert y in multiset(rest);
        assert y == x || y in multiset(s[1..]);
      }
      var r := [s[0]] + rest;
      forall i, j | 0 <= i < j < |r| ensures r[i] != r[j] {
        if i == 0 {
          assert r[j] == rest[j - 1];
          assert r[j] in rest;
        } else {
          assert r[i] == rest[i - 1] && r[j] == rest[j - 1];
        }
      }
    }
  }

  lemma {:induction false} SortDistinct(s: seq<nat>, le: (nat, nat) -> bool)
    requires Distinct(s)
    ensures Distinct(Sort(s, le))
  {
    if s != [] {
      assert Distinct(s[1..]);
      SortDistinct(s[1..], le);
      var rest := Sort(s[1..], le);
      HeadNotInTail(s);
      forall y | y in rest ensures y != s[0] {
        assert y in multiset(rest);
      }
      InsertDistinct(s[0], rest, le);
    }
  }

  /** Every key of a table exactly once, in the order `le`, ties by ascending key. */
  function OrderBy(ids: set<nat>, le: (nat, nat) -> bool): (r: seq<nat>)
    ensures |r| == |ids|
    ensures forall x :: x in r <==> x in ids
  {
    var r := Sort(Enumerate(ids), le);
    assert forall x :: x in r <==> x in multiset(Enumerate(ids));
    r
  }

  lemma OrderByDistinctSorted(ids: set<nat>, le: (nat, nat) -> bool)
    requires TotalPreorder(le)
    ensures Distinct(OrderBy(ids, le)) && Sorted(OrderBy(ids, le), le)
  {
    SortDistinct(Enumerate(ids), le);
    SortSorted(Enumerate(ids), le);
  }

  /** The slice `[:k]` of an ordered query. */
  function Take(s: seq<nat>, k: nat): (r: seq<nat>)
    ensures |r| == if |s| < k then |s| else k
    ensures r == s[..|r|]
  {
    if |s| <= k then s else s[..k]
  }

  /**
   * r is a first-k selection of the table `ids` in the order `le`: k distinct
   * rows of the table (all of them when there are fewer), in that order, and
   * no row left out comes before any row taken.
   */
  ghost predicate LeadingRows(r: seq<nat>, ids: set<nat>, le: (nat, nat) -> bool, k: nat) {
    && |r| == (if |ids| < k then |ids| else k)
    && Distinct(r)
    && Sorted(r, le)
    && (forall x :: x in r ==> x in ids)
    && (forall x, i :: x in ids && x !in r && 0 <= i < |r| ==> le(r[i], x))
  }

  lemma FirstKAreLeading(ids: set<nat>, le: (nat, nat) -> bool, k: nat)
    requires TotalPreorder(le)
    ensures LeadingRows(Take(OrderBy(ids, le), k), ids, le, k)
  {
    var o := OrderBy(ids, le);
    OrderByDistinctSorted(ids, le);
    var r := Take(o, k);
    forall x, i | x in ids && x !in r && 0 <= i < |r| ensures le(r[i], x) {
      var j :| 0 <= j < |o| && o[j] == x;
      assert j >= |r| by {
        forall l | 0 <= l < |r| ensures o[l] != x {
          assert o[l] == r[l];
        }
      }
      assert r[i] == o[i];
    }
  }

  /** Rows ordered by an integer column, largest first (Django's `-column`). */
  function KeyOr(key: map<nat, int>, id: nat): int {
    if id in key then key[id] else 0
  }

  function Descending(key: map<nat, int>): (le: (nat, nat) -> bool)
    ensures forall a, b :: le(a, b) <==> KeyOr(key, a) >= KeyOr(key, b)
  {
    (a: nat, b: nat) => KeyOr(key, a) >= KeyOr(key, b)
  }

  lemma DescendingIsTotalPreorder(key: map<nat, int>)
    ensures TotalPreorder(Descending(key))
  {
  }

  /**
   * A first-k selection in descending order of an integer column, read back
   * as statements about the column's values.
   */
  lemma LeadingByDescendingKey(r: seq<nat>, key: map<nat, int>, k: nat)
    requires LeadingRows(r, key.Keys, Descending(key), k)
    ensures |r| == (if |key| < k then |key| else k)
    ensures forall i :: 0 <= i < |r| ==> r[i] in key
    ensures forall i, j :: 0 <= i < j < |r| ==> key[r[i]] >= key[r[j]]
    ensures forall x, i :: x in key && x !in r && 0 <= i < |r| ==> key[r[i]] >= key[x]
  {
  }

  /**
   * The first k rows by a descending integer column: k distinct rows of the
   * table (all of them when there are fewer), largest value first, and no
   * row left out has a larger value than a row taken.
   */
  lemma FirstKByDescendingKey(key: map<nat, int>, k: nat)
    ensures var r := Take(OrderBy(key.Keys, Descending(key)), k);
      && |r| == (if |key| < k then |key| else k)
      && Distinct(r)
      && (forall i :: 0 <= i < |r| ==> r[i] in key)
      && (forall i, j :: 0 <= i < j < |r| ==> key[r[i]] >= key[r[j]])
      && (forall x, i :: x in key && x !in r && 0 <= i < |r| ==> key[r[i]] >= key[x])
  {
    var le := Descending(key);
    var r := Take(OrderBy(key.Keys, le), k);
    DescendingIsTotalPreorder(key);
    FirstKAreLeading(key.Keys, le, k);
    LeadingByDescendingKey(r, key, k);
  }

  /** Lexicographic order on character codes. */
  predicate LexLe(a: string, b: string) {
    a == [] || (b != [] && (a[0] < b[0] || (a[0] == b[0] && LexLe(a[1..], b[1..]))))
  }

  lemma {:induction false} LexLeTotal(a: string, b: string)
    ensures LexLe(a, b) || LexLe(b, a)
  {
    if a != [] && b != [] && a[0] == b[0] {
      LexLeTotal(a[1..], b[1..]);
    }
  }

  lemma {:induction false} LexLeTransitive(a: string, b: string, c: string)
    requires LexLe(a, b) && LexLe(b, c)
    ensures LexLe(a, c)
  {
    if a != [] && b != [] && c != [] && a[0] == b[0] && b[0] == c[0] {
      LexLeTransitive(a[1..], b[1..], c[1..]);
    }
  }

  /** Rows ordered by a text column, smallest first (Django's `column`). */
  function TextOr(key: map<nat, string>, id: nat): string {
    if id in key then key[id] else ""
  }

  function Ascending(key: map<nat, string>): (le: (nat, nat) -> bool)
    ensures forall a, b :: le(a, b) <==> LexLe(TextOr(key, a), TextOr(key, b))
  {
    (a: nat, b: nat) => LexLe(TextOr(key, a), TextOr(key, b))
  }

  lemma AscendingIsTotalPreorder(key: map<nat, string>)
    ensures TotalPreorder(Ascending(key))
  {
    var le := Ascending(key);
    forall a, b ensures le(a, b) || le(b, a) {
      LexLeTotal(TextOr(key, a), TextOr(key, b));
    }
    forall a, b, c | le(a, b) && le(b, c) ensures le(a, c) {
      LexLeTransitive(TextOr(key, a), TextOr(key, b), TextOr(key, c));
    }
  }
}
