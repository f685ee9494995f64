/**
 Store keys are strings compared code point by code point. This module orders a set of keys
 and states what "the keys after a cursor" are.
 */
module KeyOrder {
  import opened Outcomes

  /** Strict code-point order, Python's `<` on `str` and SQLite's binary collation. */
  predicate Less(a: string, b: string)
    decreases |a|
  {
    |b| != 0 && (|a| == 0 || a[0] < b[0] || (a[0] == b[0] && Less(a[1..], b[1..])))
  }

  lemma LessIrreflexive(a: string)
    ensures !Less(a, a)
    decreases |a|
  {
  }

  lemma {:induction false} LessTransitive(a: string, b: string, c: string)
    requires Less(a, b) && Less(b, c)
    ensures Less(a, c)
    decreases |a|
  {
    if |a| != 0 && a[0] == b[0] && b[0] == c[0] {
      LessTransitive(a[1..], b[1..], c[1..]);
    }
  }

  lemma {:induction false} LessTotal(a: string, b: string)
    ensures a == b || Less(a, b) || Less(b, a)
    decreases |a|
  {
    if |a| != 0 && |b| != 0 && a[0] == b[0] {
      LessTotal(a[1..], b[1..]);
      assert a == [a[0]] + a[1..];
      assert b == [b[0]] + b[1..];
    }
  }

  /** Position `p` decides: the keys agree before it, and there `a` ends or has the smaller character. */
  ghost predicate DecidedAt(a: string, b: string, p: nat)
  {
    p <= |a| && p < |b| && a[..p] == b[..p] && (p == |a| || a[p] < b[p])
  }

  /** The order is that of a dictionary. */
  lemma {:induction false} LessIsDictionaryOrder(a: string, b: string)
    ensures Less(a, b) <==> exists p: nat :: DecidedAt(a, b, p)
    decreases |a|
  {
    if |a| == 0 || |b| == 0 || a[0] != b[0] {
      if Less(a, b) {
        assert DecidedAt(a, b, 0);
      }
    } else {
      LessIsDictionaryOrder(a[1..], b[1..]);
      if Less(a, b) {
        var p: nat :| DecidedAt(a[1..], b[1..], p);
        assert a[..p + 1] == [a[0]] + a[1..][..p] && b[..p + 1] == [b[0]] + b[1..][..p];
        assert DecidedAt(a, b, p + 1);
      }
      if p: nat :| DecidedAt(a, b, p) {
        assert p > 0 by { assert a[0] == b[0]; }
        assert a[1..][..p - 1] == a[..p][1..] && b[1..][..p - 1] == b[..p][1..];
        assert DecidedAt(a[1..], b[1..], p - 1);
      }
    }
  }

  /** `Less` behaves as a strict total order on the keys at hand. */
  lemma LessLaws()
    ensures forall a :: !Less(a, a)
    ensures forall a, b, c :: Less(a, b) && Less(b, c) ==> Less(a, c)
    ensures forall a, b :: a == b || Less(a, b) || Less(b, a)
  {
    forall a { LessIrreflexive(a); }
    forall a, b, c | Less(a, b) && Less(b, c) { LessTransitive(a, b, c); }
    forall a, b { LessTotal(a, b); }
  }

  predicate IsLeast(m: string, ks: set<string>)
  {
    m in ks && forall k | k in ks :: k == m || Less(m, k)
  }

  lemma {:induction false} LeastExists(ks: set<string>)
    requires ks != {}
    ensures exists m :: IsLeast(m, ks)
    decreases ks
  {
    var k :| k in ks;
    if ks == {k} {
      assert IsLeast(k, ks);
    } else {
      LeastExists(ks - {k});
      var n :| IsLeast(n, ks - {k});
      LessLaws();
      assert IsLeast(if Less(k, n) then k else n, ks);
    }
  }

  function Least(ks: set<string>): (m: string)
    requires ks != {}
    ensures m in ks
  {
    LessLaws();
    LeastExists(ks);
    var m :| IsLeast(m, ks);
    m
  }

  /** Strictly increasing, hence without repetition. */
  ghost predicate Increasing(s: seq<string>)
  {
    forall i, j | 0 <= i < j < |s| :: Less(s[i], s[j])
  }

  /** Python's `sorted(keys)`. */
  function Sorted(ks: set<string>): (s: seq<string>)
    ensures |s| == |ks|
    decreases ks
  {
    if ks == {} then [] else
      var m := Least(ks);
      [m] + Sorted(ks - {m})
  }

  lemma {:induction false} SortedLaws(ks: set<string>)
    ensures Increasing(Sorted(ks))
    ensures forall k :: k in Sorted(ks) <==> k in ks
    decreases ks
  {
    if ks != {} {
      var m := Least(ks);
      var rest := Sorted(ks - {m});
      SortedLaws(ks - {m});
      assert Sorted(ks) == [m] + rest;
      assert forall i | 0 <= i < |rest| :: rest[i] in rest;
    }
  }

  lemma SortedMember(ks: set<string>, i: nat)
    requires i < |ks|
    ensures Sorted(ks)[i] in ks
  {
    SortedLaws(ks);
  }

  /** An increasing sequence is determined by its members. */
  lemma {:induction false} IncreasingUnique(s: seq<string>, t: seq<string>)
    requires Increasing(s) && Increasing(t)
    requires forall k :: k in s <==> k in t
    ensures s == t
  {
    LessLaws();
    assert (s != [] ==> s[0] in t) && (t != [] ==> t[0] in s);
    if s != [] {
      assert s[0] == t[0];
      assert forall k :: k in s[1..] <==> k in s && k != s[0];
      assert forall k :: k in t[1..] <==> k in t && k != t[0];
      IncreasingUnique(s[1..], t[1..]);
    }
  }

  lemma SortedIs(ks: set<string>, s: seq<string>)
    requires Increasing(s)
    requires forall k :: k in s <==> k in ks
    ensures s == Sorted(ks)
  {
    SortedLaws(ks);
    IncreasingUnique(s, Sorted(ks));
  }

  /** `order` lists the members of `ks`, each once: an order in which a set may be iterated. */
  ghost predicate Iterates(order: seq<string>, ks: set<string>)
  {
    && (forall i, j | 0 <= i < j < |order| :: order[i] != order[j])
    && forall k :: k in order <==> k in ks
  }

  function Insert(k: string, s: seq<string>): seq<string>
  {
    if s == [] then [k] else if Less(k, s[0]) then [k] + s else [s[0]] + Insert(k, s[1..])
  }

  /** `sorted` of an iteration order. */
  function SortList(order: seq<string>): seq<string>
  {
    if order == [] then [] else Insert(order[0], SortList(order[1..]))
  }

  lemma {:induction false} InsertLaws(k: string, s: seq<string>)
    requires Increasing(s) && k !in s
    ensures Increasing(Insert(k, s))
    ensures forall x :: x in Insert(k, s) <==> x == k || x in s
  {
    LessLaws();
    if s != [] && !Less(k, s[0]) {
      InsertLaws(k, s[1..]);
      var rest := Insert(k, s[1..]);
      assert forall x :: x in s <==> x == s[0] || x in s[1..];
      forall i | 0 <= i < |rest|
        ensures Less(s[0], rest[i])
      {
        assert rest[i] in rest;
        assert rest[i] == k || rest[i] in s[1..];
      }
    } else if s != [] {
      forall i | 0 <= i < |s|
        ensures Less(k, s[i])
      {
        assert i == 0 || Less(s[0], s[i]);
      }
    }
  }

  /** Whatever the order a set is iterated in, sorting it gives the same list. */
  lemma {:induction false} SortListIsSorted(order: seq<string>, ks: set<string>)
    requires Iterates(order, ks)
    ensures SortList(order) == Sorted(ks)
    decreases |order|
  {
    if order == [] {
      assert forall k :: k in ks <==> k in order;
      assert ks == {};
    } else {
      var k, rest := order[0], ks - {order[0]};
      assert forall x :: x in order <==> x == k || x in order[1..];
      assert k !in order[1..];
      SortListIsSorted(order[1..], rest);
      SortedLaws(rest);
      InsertLaws(k, Sorted(rest));
      SortedIs(ks, SortList(order));
    }
  }

  /** Whether `k` lies after a page cursor; `None` is the start of the walk. */
  predicate After(k: string, cursor: Option<string>)
  {
    cursor.None? || Less(cursor.value, k)
  }

  function Above(ks: set<string>, cursor: Option<string>): set<string>
  {
    set k | k in ks && After(k, cursor)
  }

  lemma DropMembers(s: seq<string>, ks: set<string>, i: nat)
    requires i <= |s| && Increasing(s)
    requires forall j | i <= j < |s| :: s[j] in ks
    requires forall j | 0 <= j < i :: s[j] !in ks
    requires forall k | k in ks :: k in s
    ensures s[i..] == Sorted(ks)
  {
    forall k | k in ks
      ensures k in s[i..]
    {
      var j :| 0 <= j < |s| && s[j] == k;
      assert s[i..][j - i] == k;
    }
    SortedIs(ks, s[i..]);
  }

  /** Dropping the keys up to `cursor` from a sorted list leaves the sorted later keys. */
  lemma SuffixIsAbove(ks: set<string>, cursor: Option<string>, i: nat)
    requires i <= |ks|
    requires forall j | 0 <= j < i :: !After(Sorted(ks)[j], cursor)
    requires forall j | i <= j < |ks| :: After(Sorted(ks)[j], cursor)
    ensures Sorted(ks)[i..] == Sorted(Above(ks, cursor))
  {
    SortedLaws(ks);
    DropMembers(Sorted(ks), Above(ks, cursor), i);
  }

  /** Moving the cursor to the `n`-th later key drops exactly the first `n` of them. */
  lemma AboveNth(ks: set<string>, cursor: Option<string>, n: nat)
    requires n < |Above(ks, cursor)|
    ensures Sorted(Above(ks, Some(Sorted(Above(ks, cursor))[n]))) == Sorted(Above(ks, cursor))[n + 1..]
  {
    var up := Above(ks, cursor);
    var s := Sorted(up);
    var c := Some(s[n]);
    SortedLaws(up);
    assert s[n] in up;
    assert Above(up, c) == Above(ks, c) by { LessLaws(); }
    forall j | 0 <= j < n + 1
      ensures !After(s[j], c)
    {
      LessLaws();
      assert j == n || Less(s[j], s[n]);
    }
    SuffixIsAbove(up, c, n + 1);
  }

  /** The members of `s` that lie in `hits`, in the order of `s`. */
  function Filter(s: seq<string>, hits: set<string>): seq<string>
  {
    if s == [] then [] else (if s[0] in hits then [s[0]] else []) + Filter(s[1..], hits)
  }

  lemma {:induction false} FilterLaws(s: seq<string>, hits: set<string>)
    requires Increasing(s)
    ensures Increasing(Filter(s, hits))
    ensures forall k :: k in Filter(s, hits) <==> k in s && k in hits
  {
    if s != [] {
      FilterLaws(s[1..], hits);
      var rest := Filter(s[1..], hits);
      forall i | 0 <= i < |rest|
        ensures Less(s[0], rest[i])
      {
        assert rest[i] in rest && rest[i] in s[1..];
      }
    }
  }

  /** Filtering the sorted keys is sorting the filtered keys. */
  lemma FilterOfSorted(scope: set<string>, hits: set<string>, cursor: Option<string>)
    requires hits <= scope
    ensures Filter(Sorted(Above(scope, cursor)), hits) == Sorted(Above(hits, cursor))
  {
    SortedLaws(Above(scope, cursor));
    FilterLaws(Sorted(Above(scope, cursor)), hits);
    SortedIs(Above(hits, cursor), Filter(Sorted(Above(scope, cursor)), hits));
  }
}
