/** The in-memory store with a group index, and its two paged listings. */
module GroupedStore {
  import opened Outcomes
  import opened KeyOrder
  import opened Paging

  datatype Page<+V> = Page(values: seq<V>, next: Option<string>)

  /** The stored values under `keys`, in that order. */
  function ValuesAt<V>(items: map<string, V>, keys: seq<string>): seq<V>
    requires forall k | k in keys :: k in items
  {
    seq(|keys|, i requires 0 <= i < |keys| => assert keys[i] in keys; items[keys[i]])
  }

  /** The keys whose stored value belongs to the group. */
  function KeysOfGroup<V>(items: map<string, V>, groupFn: V -> string, group: string): set<string>
  {
    set k | k in items && groupFn(items[k]) == group
  }

  /** The keys a listing ranges over: one group, or the whole store. */
  function ScopeOf<V>(items: map<string, V>, groupFn: V -> string, group: Option<string>): set<string>
  {
    if group.None? then items.Keys else KeysOfGroup(items, groupFn, group.value)
  }

  /** What a paged listing of `hits` inside `scope` returns, as values. */
  ghost function ListingOf<V>(items: map<string, V>, scope: set<string>, hits: set<string>, limit: int, cursor: Option<string>)
    : Result<Page<V>>
    requires hits <= items.Keys
  {
    if limit <= 0 then Err(ValueError) else
      var p := PageOf(scope, hits, limit, cursor);
      PageHits(scope, hits, limit, cursor);
      Ok(Page(ValuesAt(items, p.keys), p.next))
  }

  /** Looking one key beyond the limit decides whether a page has a successor. */
  lemma CutIsPage(ks: set<string>, limit: int, cursor: Option<string>)
    requires limit > 0
    ensures var due := Sorted(Above(ks, cursor));
            PageOf(ks, ks, limit, cursor)
            == if |due| > limit then KeyPage(due[..limit], Some(due[limit - 1])) else KeyPage(due, None)
  {
    var due := Sorted(Above(ks, cursor));
    if |due| >= limit {
      AboveNth(ks, cursor, limit - 1);
      assert |Above(ks, Some(due[limit - 1]))| == |due| - limit;
      assert |due| == limit ==> due[..limit] == due;
    }
  }

  /** The loop that finds the first key after the cursor. */
  method FirstAfter(ks: set<string>, cursor: string) returns (start: nat)
    ensures start <= |ks| && Sorted(ks)[start..] == Sorted(Above(ks, Some(cursor)))
  {
    var keys := Sorted(ks);
    start := 0;
    while start < |keys| && !Less(cursor, keys[start])
      invariant 0 <= start <= |keys|
      invariant forall j | 0 <= j < start :: !After(keys[j], Some(cursor))
    {
      start := start + 1;
    }
    SortedLaws(ks);
    forall j | start <= j < |keys|
      ensures After(keys[j], Some(cursor))
    {
      if start < j {
        assert Less(keys[start], keys[j]);
        LessTransitive(cursor, keys[start], keys[j]);
      }
    }
    SuffixIsAbove(ks, Some(cursor), start);
  }

  /** The page scan shared by both listings: skip to the cursor, cut `limit + 1` keys. */
  method PageKeys(ks: set<string>, limit: int, cursor: Option<string>) returns (page: KeyPage)
    requires limit > 0
    ensures page == PageOf(ks, ks, limit, cursor)
  {
    var keys := Sorted(ks);
    var start := 0;
    if cursor.Some? {
      start := FirstAfter(ks, cursor.value);
      if start == |keys| {
        CutIsPage(ks, limit, cursor);
        return KeyPage([], None);
      }
    } else {
      SuffixIsAbove(ks, cursor, 0);
    }
    var pageKeys := keys[start..if start + limit + 1 < |keys| then start + limit + 1 else |keys|];
    CutIsPage(ks, limit, cursor);
    if |pageKeys| > limit {
      page := KeyPage(pageKeys[..limit], Some(pageKeys[limit - 1]));
    } else {
      page := KeyPage(pageKeys, None);
    }
  }

  class GroupedStore<V> {
    const keyFn: V -> string
    const groupFn: V -> string
    var items: map<string, V>
    var groups: map<string, set<string>>

    constructor (keyFn: V -> string, groupFn: V -> string)
      ensures this.keyFn == keyFn && this.groupFn == groupFn
      ensures Valid() && items == map[]
    {
      this.keyFn, this.groupFn := keyFn, groupFn;
      items, groups := map[], map[];
    }

    /** `_groups.get(group, set())` */
    function Group(group: string): set<string>
      reads this
    {
      if group in groups then groups[group] else {}
    }

    /** The index is exact: a group's key set is the keys whose stored value is in that group. */
    ghost predicate Valid()
      reads this
    {
      && (forall k | k in items :: keyFn(items[k]) == k)
      && (forall g :: Group(g) == KeysOfGroup(items, groupFn, g))
    }

    method Put(value: V)
      requires Valid()
      modifies this
      ensures Valid() && items == old(items)[keyFn(value) := value]
    {
      var key, group := keyFn(value), groupFn(value);
      if key in items {
        var oldGroup := groupFn(items[key]);
        if oldGroup != group {
          groups := groups[oldGroup := Group(oldGroup) - {key}];
        }
      }
      items := items[key := value];
      groups := groups[group := Group(group) + {key}];
      forall g
        ensures Group(g) == KeysOfGroup(items, groupFn, g)
      {
        assert old(Group(g)) == KeysOfGroup(old(items), groupFn, g);
        assert forall k :: k in KeysOfGroup(items, groupFn, g) <==>
                 if k == key then g == group else k in KeysOfGroup(old(items), groupFn, g);
        assert forall k :: k in Group(g) <==> if k == key then g == group else k in old(Group(g));
      }
    }

    method Get(key: string) returns (value: Option<V>)
      ensures value == if key in items then Some(items[key]) else None
    {
      value := if key in items then Some(items[key]) else None;
    }

    method Remove(key: string) returns (value: Option<V>)
      requires Valid()
      modifies this
      ensures value == if key in old(items) then Some(old(items)[key]) else None
      ensures Valid() && items == old(items) - {key}
    {
      if key !in items {
        return None;
      }
      value := Some(items[key]);
      items := items - {key};
      var group := groupFn(value.value);
      groups := groups[group := Group(group) - {key}];
      forall g
        ensures Group(g) == KeysOfGroup(items, groupFn, g)
      {
        assert old(Group(g)) == KeysOfGroup(old(items), groupFn, g);
      }
    }

    /** All members of a group, in key order. */
    method ByGroup(group: string) returns (values: seq<V>)
      requires Valid()
      ensures (forall k | k in Sorted(KeysOfGroup(items, groupFn, group)) :: k in items)
              && values == ValuesAt(items, Sorted(KeysOfGroup(items, groupFn, group)))
    {
      SortedLaws(Group(group));
      values := ValuesAt(items, Sorted(Group(group)));
    }

    method ListPage(limit: int, cursor: Option<string>) returns (page: Result<Page<V>>)
      requires Valid()
      ensures page == ListingOf(items, items.Keys, items.Keys, limit, cursor)
    {
      if limit <= 0 {
        return Err(ValueError);
      }
      var p := PageKeys(items.Keys, limit, cursor);
      PageHits(items.Keys, items.Keys, limit, cursor);
      page := Ok(Page(ValuesAt(items, p.keys), p.next));
    }

    method ByGroupPage(group: string, limit: int, cursor: Option<string>) returns (page: Result<Page<V>>)
      requires Valid()
      ensures page == ListingOf(items, KeysOfGroup(items, groupFn, group), KeysOfGroup(items, groupFn, group), limit, cursor)
    {
      if limit <= 0 {
        return Err(ValueError);
      }
      var p := PageKeys(Group(group), limit, cursor);
      PageHits(Group(group), Group(group), limit, cursor);
      page := Ok(Page(ValuesAt(items, p.keys), p.next));
    }
  }
}
