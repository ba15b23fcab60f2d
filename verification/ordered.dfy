/** Finite sets read in order: the prefix a key-ordered listing or an ORDER BY … LIMIT query returns. */
module Ordered {

  ghost predicate Total<T(!new)>(less: (T, T) -> bool) {
    && (forall a :: !less(a, a))
    && (forall a, b :: a == b || less(a, b) || less(b, a))
    && (forall a, b, c :: less(a, b) && less(b, c) ==> less(a, c))
  }

  ghost predicate IsLeast<T>(less: (T, T) -> bool, x: T, s: set<T>) {
    x in s && forall o | o in s :: o == x || less(x, o)
  }

  lemma {:induction false} LeastExists<T(!new)>(less: (T, T) -> bool, s: set<T>)
    requires Total(less) && s != {}
    ensures exists x :: IsLeast(less, x, s)
    decreases |s|
  {
    var any :| any in s;
    if s == {any} {
      assert IsLeast(less, any, s);
    } else {
      LeastExists(less, s - {any});
      var x :| IsLeast(less, x, s - {any});
      var best := if less(any, x) then any else x;
      forall o | o in s
        ensures o == best || less(best, o)
      {
        assert o == any || o in s - {any};
      }
      assert IsLeast(less, best, s);
    }
  }

  ghost function Least<T(!new)>(less: (T, T) -> bool, s: set<T>): (x: T)
    requires Total(less) && s != {}
    ensures IsLeast(less, x, s)
  {
    LeastExists(less, s);
    var x :| IsLeast(less, x, s);
    x
  }

  /** The first n elements of s in order, or all of them if there are fewer. */
  ghost function Prefix<T(!new)>(less: (T, T) -> bool, s: set<T>, n: nat): seq<T>
    requires Total(less)
    decreases n
  {
    if n == 0 || s == {} then []
    else
      var x := Least(less, s);
      [x] + Prefix(less, s - {x}, n - 1)
  }

  ghost function Sorted<T(!new)>(less: (T, T) -> bool, s: set<T>): seq<T>
    requires Total(less)
  {
    Prefix(less, s, |s|)
  }

  ghost predicate InOrder<T(!new)>(less: (T, T) -> bool, q: seq<T>) {
    forall i, j | 0 <= i < j < |q| :: less(q[i], q[j])
  }

  /** A listing is sorted, takes its rows from the set, and leaves out only rows after its last. */
  lemma {:induction false} PrefixRows<T(!new)>(less: (T, T) -> bool, s: set<T>, n: nat)
    requires Total(less)
    ensures var q := Prefix(less, s, n);
            && InOrder(less, q)
            && (forall x | x in q :: x in s)
            && |q| == (if n < |s| then n else |s|)
            && (forall x, y | x in q && y in s && y !in q :: less(x, y))
    decreases n
  {
    if n != 0 && s != {} {
      var x := Least(less, s);
      PrefixRows(less, s - {x}, n - 1);
      var rest := Prefix(less, s - {x}, n - 1);
      var q := Prefix(less, s, n);
      assert q == [x] + rest;
      forall i, j | 0 <= i < j < |q|
        ensures less(q[i], q[j])
      {
        if i == 0 {
          assert q[j] == rest[j - 1] && rest[j - 1] in s - {x};
        } else {
          assert q[i] == rest[i - 1] && q[j] == rest[j - 1];
        }
      }
    }
  }

  /** Whatever comes before a listed row is listed before it. */
  lemma PrefixClosed<T(!new)>(less: (T, T) -> bool, s: set<T>, n: nat, q: nat, x: T)
    requires Total(less) && q < |Prefix(less, s, n)| && x in s && less(x, Prefix(less, s, n)[q])
    ensures x in Prefix(less, s, n)[..q]
  {
    PrefixRows(less, s, n);
    var rows := Prefix(less, s, n);
    assert rows[q] in rows;
    assert !less(rows[q], x);
    assert forall p | q <= p < |rows| :: rows[p] != x;
    var p :| 0 <= p < |rows| && rows[p] == x;
    assert rows[..q][p] == x;
  }

  /** A listing is determined by being in order and having the right rows. */
  lemma {:induction false} InOrderUnique<T(!new)>(less: (T, T) -> bool, p: seq<T>, q: seq<T>)
    requires Total(less) && InOrder(less, p) && InOrder(less, q)
    requires forall x :: x in p <==> x in q
    ensures p == q
    decreases |p|
  {
    assert q != [] ==> q[0] in p;
    if p != [] {
      assert p[0] in q;
      var i :| 0 <= i < |q| && q[i] == p[0];
      var j :| 0 <= j < |p| && p[j] == q[0];
      assert p[0] == q[0];
      forall x
        ensures x in p[1..] <==> x in q[1..]
      {
        if x in p[1..] {
          var k :| 0 <= k < |p[1..]| && p[1..][k] == x;
          assert less(p[0], p[k + 1]);
          assert x in p && x != p[0];
          assert x in q;
        }
        if x in q[1..] {
          var k :| 0 <= k < |q[1..]| && q[1..][k] == x;
          assert less(q[0], q[k + 1]);
          assert x in q && x != q[0];
          assert x in p;
        }
      }
      InOrderUnique(less, p[1..], q[1..]);
    }
  }

  ghost function Earlier<T(!new)>(less: (T, T) -> bool, s: set<T>, x: T): set<T> {
    set y | y in s && less(y, x)
  }

  /** A row is listed exactly when fewer than n rows come before it. */
  lemma {:induction false} PrefixByRank<T(!new)>(less: (T, T) -> bool, s: set<T>, n: nat, x: T)
    requires Total(less) && x in s
    ensures x in Prefix(less, s, n) <==> |Earlier(less, s, x)| < n
    decreases n
  {
    if n != 0 {
      var m := Least(less, s);
      assert Prefix(less, s, n) == [m] + Prefix(less, s - {m}, n - 1);
      if x == m {
        assert Earlier(less, s, x) == {};
      } else {
        PrefixByRank(less, s - {m}, n - 1, x);
        assert Earlier(less, s, x) == Earlier(less, s - {m}, x) + {m};
        if x in Prefix(less, s, n) {
          assert x in Prefix(less, s - {m}, n - 1);
        }
      }
    }
  }

  lemma SortedRows<T(!new)>(less: (T, T) -> bool, s: set<T>)
    requires Total(less)
    ensures var q := Sorted(less, s);
            InOrder(less, q) && |q| == |s| && forall x :: x in q <==> x in s
  {
    PrefixRows(less, s, |s|);
    var q := Sorted(less, s);
    var seen := set x | x in q;
    SameSize(less, q, seen);
    if seen != s {
      assert seen < s;
      SmallerSubset(seen, s);
    }
  }

  lemma {:induction false} SameSize<T(!new)>(less: (T, T) -> bool, q: seq<T>, seen: set<T>)
    requires Total(less) && InOrder(less, q) && seen == set x | x in q
    ensures |seen| == |q|
    decreases |q|
  {
    if q != [] {
      var rest := set x | x in q[1..];
      forall k | 0 <= k < |q[1..]|
        ensures q[1..][k] != q[0]
      {
        assert less(q[0], q[k + 1]);
      }
      assert q == [q[0]] + q[1..];
      assert seen == rest + {q[0]};
      SameSize(less, q[1..], rest);
    }
  }

  lemma SmallerSubset<T>(a: set<T>, b: set<T>)
    requires a < b
    ensures |a| < |b|
  {
    assert b == a + (b - a);
    assert |b| == |a| + |b - a|;
  }

  lemma JoinInOrder<T(!new)>(less: (T, T) -> bool, a: seq<T>, b: seq<T>)
    requires InOrder(less, a) && InOrder(less, b)
    requires forall x, y | x in a && y in b :: less(x, y)
    ensures InOrder(less, a + b)
  {
    var q := a + b;
    forall i, j | 0 <= i < j < |q|
      ensures less(q[i], q[j])
    {
      if i < |a| <= j {
        assert q[i] in a && q[j] in b;
      } else if |a| <= i {
        assert q[i] == b[i - |a|] && q[j] == b[j - |a|];
      }
    }
  }

  ghost function Later<T(!new)>(less: (T, T) -> bool, s: set<T>, x: T): set<T> {
    set y | y in s && less(x, y)
  }

  /** Reading n rows, and then everything after the last of them, reads the whole list. */
  lemma PagesJoin<T(!new)>(less: (T, T) -> bool, s: set<T>, n: nat)
    requires Total(less) && 0 < n < |s|
    ensures var page := Prefix(less, s, n);
            |page| == n &&
            Sorted(less, s) == page + Sorted(less, Later(less, s, page[n - 1]))
  {
    PrefixRows(less, s, n);
    var page := Prefix(less, s, n);
    var last := page[n - 1];
    var rest := Later(less, s, last);
    SortedRows(less, s);
    SortedRows(less, rest);
    var joined := page + Sorted(less, rest);
    forall x
      ensures x in joined <==> x in s
    {
      if x in s && x !in page {
        assert last in page;
        assert x in rest;
      }
    }
    forall x, y | x in page && y in Sorted(less, rest)
      ensures less(x, y)
    {
      var i :| 0 <= i < n && page[i] == x;
      assert i == n - 1 || less(page[i], last);
      assert less(last, y);
    }
    JoinInOrder(less, page, Sorted(less, rest));
    InOrderUnique(less, joined, Sorted(less, s));
  }

  lemma WholeList<T(!new)>(less: (T, T) -> bool, s: set<T>, n: nat)
    requires Total(less) && |s| <= n
    ensures Prefix(less, s, n) == Sorted(less, s)
  {
    PrefixRows(less, s, n);
    SortedRows(less, s);
    var q := Prefix(less, s, n);
    var seen := set x | x in q;
    SameSize(less, q, seen);
    if seen != s {
      assert seen < s;
      SmallerSubset(seen, s);
    }
    InOrderUnique(less, q, Sorted(less, s));
  }
}
