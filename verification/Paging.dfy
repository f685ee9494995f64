/**
 Cursor pagination over a set of keys. `scope` is what a page call scans, `hits` the part of it
 that passes the caller's filter; an unfiltered page has `hits == scope`.
 */
module Paging {
  import opened Outcomes
  import opened KeyOrder

  datatype KeyPage = KeyPage(keys: seq<string>, next: Option<string>)

  /**
   The page a call owes its caller: the first `limit` hits after the cursor. It names a next
   cursor, its own last key, exactly if it is full and some key of the scope is still to come.
   */
  ghost function PageOf(scope: set<string>, hits: set<string>, limit: nat, cursor: Option<string>): KeyPage
    requires limit > 0
  {
    var due := Sorted(Above(hits, cursor));
    if |due| < limit then KeyPage(due, None) else
      var last := Some(due[limit - 1]);
      KeyPage(due[..limit], if Above(scope, last) == {} then None else last)
  }

  /** A page and what its cursor leaves are together what was due; without a cursor nothing is left. */
  lemma PageSplits(scope: set<string>, hits: set<string>, limit: nat, cursor: Option<string>)
    requires limit > 0 && hits <= scope
    ensures var p := PageOf(scope, hits, limit, cursor);
            && Sorted(Above(hits, cursor)) == p.keys + (if p.next.None? then [] else Sorted(Above(hits, p.next)))
            && |p.keys| <= limit
            && (p.next.Some? ==> |p.keys| == limit && p.next.value == p.keys[limit - 1])
            && (p.next.Some? ==> |Above(scope, p.next)| < |Above(scope, cursor)|)
  {
    var due := Sorted(Above(hits, cursor));
    if |due| >= limit {
      var last := due[limit - 1];
      AboveNth(hits, cursor, limit - 1);
      assert due == due[..limit] + due[limit..];
      SortedMember(Above(hits, cursor), limit - 1);
      LessLaws();
      assert Above(scope, Some(last)) <= Above(scope, cursor) - {last};
      SubsetSize(Above(scope, Some(last)), Above(scope, cursor) - {last});
      if Above(scope, Some(last)) == {} {
        assert Above(hits, Some(last)) == {};
      }
    }
  }

  /** A page holds later hits only, in increasing order. */
  lemma PageHits(scope: set<string>, hits: set<string>, limit: nat, cursor: Option<string>)
    requires limit > 0
    ensures var keys := PageOf(scope, hits, limit, cursor).keys;
            Increasing(keys) && forall k | k in keys :: k in hits && After(k, cursor)
  {
    SortedLaws(Above(hits, cursor));
    forall k | k in PageOf(scope, hits, limit, cursor).keys
      ensures k in Above(hits, cursor)
    {
      assert k in Sorted(Above(hits, cursor));
    }
  }

  lemma {:induction false} SubsetSize(a: set<string>, b: set<string>)
    requires a <= b
    ensures |a| <= |b|
    decreases a
  {
    if a != {} {
      var x :| x in a;
      SubsetSize(a - {x}, b - {x});
    }
  }

  function Flatten(pages: seq<seq<string>>): seq<string>
  {
    if pages == [] then [] else pages[0] + Flatten(pages[1..])
  }

  /** All pages a caller sees when it follows the cursors of an unchanging store. */
  ghost function Walk(scope: set<string>, hits: set<string>, limit: nat, cursor: Option<string>): seq<seq<string>>
    requires limit > 0 && hits <= scope
    decreases |Above(scope, cursor)|
  {
    PageSplits(scope, hits, limit, cursor);
    var p := PageOf(scope, hits, limit, cursor);
    [p.keys] + if p.next.None? then [] else Walk(scope, hits, limit, p.next)
  }

  /**
   The walk is exactly the sorted hits, each once and in order; every page but the last is full;
   and beyond the first call, every call is paid for by `limit` hits, so that `m` hits cost at
   most `m / limit + 1` calls.
   */
  lemma {:induction false} WalkIsSortedHits(scope: set<string>, hits: set<string>, limit: nat, cursor: Option<string>)
    requires limit > 0 && hits <= scope
    ensures var w := Walk(scope, hits, limit, cursor);
            && Flatten(w) == Sorted(Above(hits, cursor))
            && |w| >= 1 && (|w| - 1) * limit <= |Above(hits, cursor)|
            && (forall i | 0 <= i < |w| - 1 :: |w[i]| == limit)
            && |w[|w| - 1]| <= limit
    decreases |Above(scope, cursor)|
  {
    PageSplits(scope, hits, limit, cursor);
    var p := PageOf(scope, hits, limit, cursor);
    var w := Walk(scope, hits, limit, cursor);
    if p.next.Some? {
      WalkIsSortedHits(scope, hits, limit, p.next);
      var rest := Walk(scope, hits, limit, p.next);
      assert w == [p.keys] + rest && w[1..] == rest;
      WalkStep(rest, p.keys, limit);
    } else {
      assert w == [p.keys] && w[1..] == [];
    }
  }

  lemma WalkStep(rest: seq<seq<string>>, first: seq<string>, limit: nat)
    requires |rest| >= 1 && |first| == limit
    requires forall i | 0 <= i < |rest| - 1 :: |rest[i]| == limit
    ensures var w := [first] + rest;
            && (|w| - 1) * limit == limit + (|rest| - 1) * limit
            && (forall i | 0 <= i < |w| - 1 :: |w[i]| == limit)
            && w[|w| - 1] == rest[|rest| - 1]
  {
  }

  /** What one page call of a drifting walk finds in the store. */
  datatype Snapshot = Snapshot(scope: set<string>, hits: set<string>)

  datatype Drift = Drift(pages: seq<seq<string>>, finished: bool)

  /** A walk whose store may change arbitrarily between calls: call `i` sees `snaps[i]`. */
  ghost function DriftingWalk(snaps: seq<Snapshot>, limit: nat, cursor: Option<string>): Drift
    requires limit > 0
  {
    if snaps == [] then Drift([], false) else
      var p := PageOf(snaps[0].scope, snaps[0].hits, limit, cursor);
      if p.next.None? then Drift([p.keys], true) else
        var rest := DriftingWalk(snaps[1..], limit, p.next);
        Drift([p.keys] + rest.pages, rest.finished)
  }

  ghost predicate Consistent(snaps: seq<Snapshot>)
  {
    forall s | s in snaps :: s.hits <= s.scope
  }

  /** No key is ever returned twice: the walk's keys strictly increase from the cursor on. */
  lemma {:induction false} DriftNeverRepeats(snaps: seq<Snapshot>, limit: nat, cursor: Option<string>)
    requires limit > 0 && Consistent(snaps)
    ensures var all := Flatten(DriftingWalk(snaps, limit, cursor).pages);
            Increasing(all) && forall k | k in all :: After(k, cursor)
    decreases |snaps|
  {
    if snaps != [] {
      var s := snaps[0];
      PageSplits(s.scope, s.hits, limit, cursor);
      var p := PageOf(s.scope, s.hits, limit, cursor);
      var d := DriftingWalk(snaps, limit, cursor);
      PageHits(s.scope, s.hits, limit, cursor);
      if p.next.Some? {
        DriftNeverRepeats(snaps[1..], limit, p.next);
        var tail := DriftingWalk(snaps[1..], limit, p.next).pages;
        assert d.pages[1..] == tail;
        JoinIncreasing(p.keys, Flatten(tail), cursor, p.next.value);
      } else {
        assert d.pages[1..] == [];
        assert Flatten(d.pages) == p.keys;
      }
    }
  }

  lemma JoinIncreasing(a: seq<string>, b: seq<string>, cursor: Option<string>, last: string)
    requires Increasing(a) && Increasing(b)
    requires a != [] && last == a[|a| - 1]
    requires forall k | k in a :: After(k, cursor)
    requires forall k | k in b :: Less(last, k)
    ensures Increasing(a + b)
    ensures forall k | k in a + b :: After(k, cursor)
  {
    var s := a + b;
    forall i, j | 0 <= i < j < |s|
      ensures Less(s[i], s[j])
    {
      LessLaws();
      if i < |a| <= j {
        assert s[j] in b && s[i] == a[i];
        assert i == |a| - 1 || Less(s[i], last);
      }
    }
    forall k | k in b
      ensures After(k, cursor)
    {
      LessLaws();
      assert After(last, cursor);
    }
  }

  /** A key that stays a hit for the whole of a finished walk is returned (exactly once, as above). */
  lemma {:induction false} DriftLosesNothing(snaps: seq<Snapshot>, limit: nat, cursor: Option<string>, k: string)
    requires limit > 0 && Consistent(snaps)
    requires DriftingWalk(snaps, limit, cursor).finished
    requires forall s | s in snaps :: k in s.hits
    requires After(k, cursor)
    ensures k in Flatten(DriftingWalk(snaps, limit, cursor).pages)
    decreases |snaps|
  {
    var s := snaps[0];
    PageSplits(s.scope, s.hits, limit, cursor);
    var p := PageOf(s.scope, s.hits, limit, cursor);
    var d := DriftingWalk(snaps, limit, cursor);
    SortedLaws(Above(s.hits, cursor));
    assert k in Sorted(Above(s.hits, cursor));
    if p.next.Some? {
      SortedLaws(Above(s.hits, p.next));
      assert d.pages[1..] == DriftingWalk(snaps[1..], limit, p.next).pages;
      if k !in p.keys {
        assert k in Sorted(Above(s.hits, p.next));
        DriftLosesNothing(snaps[1..], limit, p.next, k);
      }
    }
  }

  /** Everything a drifting walk returns on its `i`-th page was a hit at that moment. */
  lemma {:induction false} DriftOnlyReturnsHits(snaps: seq<Snapshot>, limit: nat, cursor: Option<string>)
    requires limit > 0
    ensures var pages := DriftingWalk(snaps, limit, cursor).pages;
            && |pages| <= |snaps|
            && forall i, k | 0 <= i < |pages| && k in pages[i] :: k in snaps[i].hits
    decreases |snaps|
  {
    if snaps != [] {
      var p := PageOf(snaps[0].scope, snaps[0].hits, limit, cursor);
      PageHits(snaps[0].scope, snaps[0].hits, limit, cursor);
      if p.next.Some? {
        DriftOnlyReturnsHits(snaps[1..], limit, p.next);
      }
    }
  }
}
