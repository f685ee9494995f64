/** What a caller gets who follows the cursors of a filtered activity listing. */
module ActivityWalk {
  import opened Outcomes
  import opened KeyOrder
  import opened Paging
  import opened Activities

  lemma WalkFromTheStart(scope: set<string>, hits: set<string>, limit: nat)
    requires limit > 0 && hits <= scope
    ensures var w := Walk(scope, hits, limit, None);
            && Flatten(w) == Filter(Sorted(scope), hits)
            && (forall k :: k in Flatten(w) <==> k in hits)
            && |w| >= 1 && (|w| - 1) * limit <= |hits|
            && (forall i | 0 <= i < |w| - 1 :: |w[i]| == limit)
  {
    assert Above(scope, None) == scope && Above(hits, None) == hits;
    WalkIsSortedHits(scope, hits, limit, None);
    FilterOfSorted(scope, hits, None);
    SortedLaws(hits);
  }

  /**
   On a store that does not change, the pages joined together are the key-sorted activities of
   the scope, filtered: each once, in order. Every page but the last is full, and each call after
   the first is paid for by `limit` returned activities.
   */
  lemma WalkListsEveryHit(items: map<string, Activity>, q: Query, limit: nat)
    requires limit > 0
    ensures var w := Walk(ScopeFor(items, q), HitsFor(items, q), limit, None);
            && Flatten(w) == Filter(Sorted(ScopeFor(items, q)), HitsFor(items, q))
            && (forall k :: k in Flatten(w) <==> k in HitsFor(items, q))
            && |w| >= 1 && (|w| - 1) * limit <= |HitsFor(items, q)|
            && (forall i | 0 <= i < |w| - 1 :: |w[i]| == limit)
  {
    WalkFromTheStart(ScopeFor(items, q), HitsFor(items, q), limit);
  }

  /** In terms of the stored fields: a walk returns exactly the activities that answer every filter given. */
  lemma WalkAnswersTheQuery(items: map<string, Activity>, q: Query, limit: nat, k: string)
    requires limit > 0
    ensures k in Flatten(Walk(ScopeFor(items, q), HitsFor(items, q), limit, None)) <==>
              && k in items
              && (q.session.Some? ==> items[k].sessionId == q.session.value)
              && (q.state.Some? ==> items[k].state == q.state.value)
              && (q.owner.Some? ==> items[k].ownerEntityId == q.owner.value)
  {
    WalkListsEveryHit(items, q, limit);
  }

  /** What the `i`-th call of a walk finds, when the store is `stores[i]` at that moment. */
  ghost function SnapshotsOf(stores: seq<map<string, Activity>>, q: Query): seq<Snapshot>
  {
    seq(|stores|, i requires 0 <= i < |stores| => Snapshot(ScopeFor(stores[i], q), HitsFor(stores[i], q)))
  }

  /**
   The store may change in any way between calls: keys put, removed (the cursor's own key too),
   moved to another session or state. Still no activity is returned twice, whatever is returned
   was a hit when its page was read, and an activity that is a hit throughout a finished walk is
   returned.
   */
  lemma WalkSurvivesChanges(stores: seq<map<string, Activity>>, q: Query, limit: nat)
    requires limit > 0
    ensures var d := DriftingWalk(SnapshotsOf(stores, q), limit, None);
            var all := Flatten(d.pages);
            && (forall i, j | 0 <= i < j < |all| :: all[i] != all[j])
            && |d.pages| <= |stores|
            && (forall i, k | 0 <= i < |d.pages| && k in d.pages[i] :: k in HitsFor(stores[i], q))
            && (d.finished ==> forall k | (forall s | s in stores :: k in HitsFor(s, q)) :: k in all)
  {
    var snaps := SnapshotsOf(stores, q);
    var d := DriftingWalk(snaps, limit, None);
    var all := Flatten(d.pages);
    DriftNeverRepeats(snaps, limit, None);
    DriftOnlyReturnsHits(snaps, limit, None);
    forall i, j | 0 <= i < j < |all|
      ensures all[i] != all[j]
    {
      LessIrreflexive(all[i]);
    }
    if d.finished {
      forall k | forall s | s in stores :: k in HitsFor(s, q)
        ensures k in all
      {
        forall s | s in snaps
          ensures k in s.hits
        {
          var i :| 0 <= i < |snaps| && snaps[i] == s;
          assert stores[i] in stores;
        }
        DriftLosesNothing(snaps, limit, None, k);
      }
    }
  }
}
