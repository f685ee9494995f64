/** The SQLite stores as queries over an abstract table; the JSON text of the value column is decoded already. */
module SqliteTable {
  import opened Outcomes
  import opened KeyOrder
  import opened Paging
  import opened GroupedStore

  datatype Row<+V> = Row(group: string, value: V)

  /** `WHERE group = ? AND key > ?`, each condition present only when its parameter is. */
  function Where<V>(rows: map<string, Row<V>>, group: Option<string>, cursor: Option<string>): set<string>
  {
    set k | k in rows && (group.Some? ==> rows[k].group == group.value) && (cursor.Some? ==> Less(cursor.value, k))
  }

  /** `SELECT key ... ORDER BY key ASC LIMIT n` */
  function Select<V>(rows: map<string, Row<V>>, group: Option<string>, cursor: Option<string>, n: nat): (keys: seq<string>)
  {
    var all := Sorted(Where(rows, group, cursor));
    if n < |all| then all[..n] else all
  }

  function ValuesOf<V>(rows: map<string, Row<V>>): map<string, V>
  {
    map k | k in rows :: rows[k].value
  }

  /** The rows selected with `LIMIT limit + 1` are the page and, when present, the sign of a successor. */
  lemma SelectIsPage<V>(rows: map<string, Row<V>>, groupFn: V -> string, group: Option<string>, limit: nat, cursor: Option<string>)
    requires limit > 0
    requires forall k | k in rows :: groupFn(rows[k].value) == rows[k].group
    ensures var scope := ScopeOf(ValuesOf(rows), groupFn, group);
            var selected := Select(rows, group, cursor, limit + 1);
            PageOf(scope, scope, limit, cursor)
            == if |selected| > limit then KeyPage(selected[..limit], Some(selected[limit - 1])) else KeyPage(selected, None)
  {
    var scope := ScopeOf(ValuesOf(rows), groupFn, group);
    assert Where(rows, group, cursor) == Above(scope, cursor);
    CutIsPage(scope, limit, cursor);
  }

  /** The loop that appends the decoded rows. */
  method Decode<V>(rows: map<string, Row<V>>, shown: seq<string>) returns (out: seq<V>)
    requires forall k | k in shown :: k in rows
    ensures out == ValuesAt(ValuesOf(rows), shown)
  {
    out := [];
    for i := 0 to |shown|
      invariant |out| == i && forall j | 0 <= j < i :: shown[j] in shown && out[j] == rows[shown[j]].value
    {
      assert shown[i] in shown;
      out := out + [rows[shown[i]].value];
    }
  }

  class SqliteGroupedTable<V> {
    const keyFn: V -> string
    const groupFn: V -> string
    var rows: map<string, Row<V>>

    constructor (keyFn: V -> string, groupFn: V -> string)
      ensures this.keyFn == keyFn && this.groupFn == groupFn
      ensures Valid() && Contents() == map[]
    {
      this.keyFn, this.groupFn := keyFn, groupFn;
      rows := map[];
    }

    ghost predicate Valid()
      reads this
    {
      forall k | k in rows :: keyFn(rows[k].value) == k && groupFn(rows[k].value) == rows[k].group
    }

    /** The decoded value of every row, by primary key. */
    function Contents(): map<string, V>
      reads this
    {
      ValuesOf(rows)
    }

    /** `REPLACE INTO ...` */
    method Put(value: V)
      requires Valid()
      modifies this
      ensures Valid() && Contents() == old(Contents())[keyFn(value) := value]
    {
      rows := rows[keyFn(value) := Row(groupFn(value), value)];
    }

    /** The same page, from `key > cursor LIMIT limit + 1`, as the in-memory store's scan of its sorted index. */
    method ListPage(group: Option<string>, limit: int, cursor: Option<string>) returns (page: Result<Page<V>>)
      requires Valid()
      ensures page == ListingOf(Contents(), ScopeOf(Contents(), groupFn, group), ScopeOf(Contents(), groupFn, group), limit, cursor)
    {
      if limit <= 0 {
        return Err(ValueError);
      }
      ghost var scope := ScopeOf(Contents(), groupFn, group);
      SelectIsPage(rows, groupFn, group, limit, cursor);
      PageHits(scope, scope, limit, cursor);
      var selected := Select(rows, group, cursor, limit + 1);
      var shown := if |selected| > limit then selected[..limit] else selected;
      var out := Decode(rows, shown);
      page := Ok(Page(out, if |selected| > limit then Some(selected[limit - 1]) else None));
    }
  }
}
