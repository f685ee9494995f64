/** Activities, their state table, and the engine that changes and lists them. */
module Activities {
  import opened Outcomes
  import opened Json
  import opened KeyOrder
  import opened Paging
  import opened GroupedStore
  import opened SqliteTable
  import Sessions

  datatype ActivityState =
    | Submitted
    | Working
    | InputRequired
    | AuthRequired
    | Completed
    | Failed
    | Canceled
    | Rejected

  datatype Activity = Activity(
    activityId: string,
    sessionId: string,
    ownerEntityId: string,
    initiatorEntityId: string,
    state: ActivityState,
    operation: Option<string>,
    inputPayload: Fields,
    resultPayload: Option<Fields>,
    resultRef: Option<string>,
    statusMessage: Option<string>,
    error: Option<Fields>)

  /** `_ALLOWED_TRANSITIONS` */
  function AllowedTransitions(s: ActivityState): set<ActivityState>
  {
    match s
    case Submitted => {Working, Canceled, Rejected}
    case Working => {InputRequired, ActivityState.AuthRequired, Completed, Failed, Canceled, Rejected}
    case InputRequired => {Working, Canceled}
    case AuthRequired => {Working, Canceled, Rejected}
    case _ => {}
  }

  const TERMINAL: set<ActivityState> := {Completed, Failed, Canceled, Rejected}

  /** The table read by columns: from where each state may be entered. */
  lemma StatesAreEnteredFrom(from: ActivityState, to: ActivityState)
    ensures to in AllowedTransitions(from) <==>
              match to
              case Submitted => false
              case Working => from == Submitted || from == InputRequired || from == ActivityState.AuthRequired
              case Canceled => from != Completed && from != Failed && from != Canceled && from != Rejected
              case Rejected => from == Submitted || from == Working || from == ActivityState.AuthRequired
              case _ => from == Working
  {
  }

  /** Each engine operation as its effect on the fetched activity; an error means nothing is stored. */
  function Transitioned(a: Activity, next: ActivityState, message: Option<string>, patch: Fields): Result<Activity>
  {
    if next !in AllowedTransitions(a.state) then Err(InvalidStateTransition) else
      Ok(a.(state := next, statusMessage := message, inputPayload := a.inputPayload + patch))
  }

  function CompletedWith(a: Activity, payload: Option<Fields>, ref: Option<string>): Result<Activity>
  {
    if a.state !in {Submitted, Working, InputRequired, ActivityState.AuthRequired} then Err(InvalidStateTransition) else
      Ok(a.(state := Completed, resultPayload := payload, resultRef := ref))
  }

  function ErrorFields(message: string, details: Fields): Fields
  {
    map["message" := Str(message), "details" := Obj(details)]
  }

  function FailedWith(a: Activity, message: string, details: Fields): Activity
  {
    a.(state := Failed, error := Some(ErrorFields(message, details)))
  }

  function CanceledWith(a: Activity, reason: Option<string>): Result<Activity>
  {
    if a.state in TERMINAL then Err(InvalidStateTransition) else
      Ok(a.(state := Canceled, statusMessage := reason))
  }

  /** Putting a changed activity back; an error stores nothing. */
  function PutBack(items: map<string, Activity>, id: string, changed: Result<Activity>): (map<string, Activity>, Result<Activity>)
  {
    (if changed.Ok? then items[id := changed.value] else items, changed)
  }

  function NewlySubmitted(activityId: string, sessionId: string, owner: string, initiator: string, operation: string, input: Fields): Activity
  {
    Activity(activityId, sessionId, owner, initiator, Submitted, Some(operation), input, None, None, None, None)
  }

  /** `start`: the id must be free, and every id usable. */
  function StartedWith(items: map<string, Activity>, a: Activity): (map<string, Activity>, Result<Activity>)
  {
    if a.activityId in items then (items, Err(AlreadyExists))
    else if Sessions.Blank(a.activityId) || Sessions.Blank(a.sessionId) || Sessions.Blank(a.ownerEntityId)
            || Sessions.Blank(a.initiatorEntityId) then (items, Err(InvalidArgument))
    else (items[a.activityId := a], Ok(a))
  }

  function SessionOf(a: Activity): string
  {
    a.sessionId
  }

  predicate Matches(a: Activity, state: Option<ActivityState>, owner: Option<string>)
  {
    && (state.Some? ==> a.state == state.value)
    && (owner.Some? ==> a.ownerEntityId == owner.value)
  }

  function Scope(items: map<string, Activity>, session: Option<string>): set<string>
  {
    ScopeOf(items, SessionOf, session)
  }

  /** The keys a filtered listing must return. */
  function Hits(items: map<string, Activity>, session: Option<string>, state: Option<ActivityState>, owner: Option<string>)
    : (hits: set<string>)
  {
    set k | k in Scope(items, session) && k in items && Matches(items[k], state, owner)
  }

  /** `out` holds the stored values of the first keys of `keys`. */
  ghost predicate Holds<V>(items: map<string, V>, keys: seq<string>, out: seq<V>)
  {
    |out| <= |keys| && forall i | 0 <= i < |out| :: keys[i] in items && out[i] == items[keys[i]]
  }

  /** A refill in progress: `out` are the first keys due, `ahead` is the part of the scope not yet looked at. */
  ghost predicate Refilling<V>(items: map<string, V>, hits: set<string>, due: seq<string>, ahead: seq<string>, out: seq<V>)
  {
    Holds(items, due, out) && due[|out|..] == Filter(ahead, hits)
  }

  /** Looking at one more key: a hit is the next key due and is collected, any other is passed over. */
  lemma RefillStep<V>(items: map<string, V>, hits: set<string>, due: seq<string>, ahead: seq<string>, out: seq<V>)
    requires Refilling(items, hits, due, ahead, out)
    requires ahead != [] && ahead[0] in items
    ensures ahead[0] !in hits ==> Refilling(items, hits, due, ahead[1..], out)
    ensures ahead[0] in hits ==>
              && |out| < |due| && due[|out|] == ahead[0]
              && Refilling(items, hits, due, ahead[1..], out + [items[ahead[0]]])
  {
  }

  /** Once the whole scope has been looked at, nothing more is due. */
  lemma RefillExhausted<V>(items: map<string, V>, scope: set<string>, hits: set<string>, limit: int, cursor: Option<string>, out: seq<V>)
    requires hits <= scope && hits <= items.Keys && |out| < limit
    requires Refilling(items, hits, Sorted(Above(hits, cursor)), [], out)
    ensures ListingOf(items, scope, hits, limit, cursor) == Ok(Page(out, None))
  {
    PageHits(scope, hits, limit, cursor);
    assert out == ValuesAt(items, Sorted(Above(hits, cursor)));
  }

  /** A full page, and whether the scope holds anything after its last key. */
  lemma RefillFull<V>(items: map<string, V>, scope: set<string>, hits: set<string>, limit: int, cursor: Option<string>,
                      from: Option<string>, n: nat, out: seq<V>)
    requires hits <= scope && hits <= items.Keys && |out| == limit > 0
    requires Holds(items, Sorted(Above(hits, cursor)), out)
    requires n < |Above(scope, from)| && Sorted(Above(hits, cursor))[limit - 1] == Sorted(Above(scope, from))[n]
    ensures ListingOf(items, scope, hits, limit, cursor)
            == Ok(Page(out, if n + 1 == |Above(scope, from)| then None else Some(Sorted(Above(scope, from))[n])))
  {
    var due := Sorted(Above(hits, cursor));
    AboveNth(scope, from, n);
    assert |Above(scope, Some(due[limit - 1]))| == |Above(scope, from)| - n - 1;
    PageHits(scope, hits, limit, cursor);
    assert out == ValuesAt(items, due[..limit]);
  }

  /** What one store page tells about the scope: its keys, and whether anything follows them. */
  lemma ChunkFacts<V>(items: map<string, V>, scope: set<string>, limit: int, from: Option<string>)
    requires scope <= items.Keys && limit > 0
    ensures var ahead := Sorted(Above(scope, from));
            var page := ListingOf(items, scope, scope, limit, from);
            && page.Ok?
            && var chunk := page.value.values;
               && Holds(items, ahead, chunk)
               && (page.value.next.None? ==> |chunk| == |ahead|)
               && (page.value.next.Some? ==> |chunk| == limit < |ahead| && page.value.next.value == ahead[limit - 1])
  {
    CutIsPage(scope, limit, from);
    PageHits(scope, scope, limit, from);
  }

  lemma ChunkHits(items: map<string, Activity>, session: Option<string>, state: Option<ActivityState>, owner: Option<string>,
                  from: Option<string>, chunk: seq<Activity>)
    requires Holds(items, Sorted(Above(Scope(items, session), from)), chunk)
    ensures forall i | 0 <= i < |chunk| ::
              Sorted(Above(Scope(items, session), from))[i] in Hits(items, session, state, owner) <==> Matches(chunk[i], state, owner)
  {
    forall i | 0 <= i < |chunk|
      ensures Sorted(Above(Scope(items, session), from))[i] in Scope(items, session)
    {
      SortedMember(Above(Scope(items, session), from), i);
    }
  }

  /** Taking the next cursor from a chunk leaves the rest of the scope ahead. */
  lemma CursorAfterChunk(scope: set<string>, from: Option<string>, n: nat)
    requires 0 < n <= |Above(scope, from)|
    ensures var next := Some(Sorted(Above(scope, from))[n - 1]);
            Sorted(Above(scope, next)) == Sorted(Above(scope, from))[n..]
  {
    AboveNth(scope, from, n - 1);
  }

  /**
   The inner loop of a filtered listing: collect the hits of one chunk until the page is full.
   `stop` is the chunk index at which it filled up.
   */
  method CollectChunk(chunk: seq<Activity>, collected: seq<Activity>, state: Option<ActivityState>, owner: Option<string>, limit: int,
                      ghost items: map<string, Activity>, ghost hits: set<string>, ghost due: seq<string>, ghost ahead: seq<string>)
    returns (out: seq<Activity>, stop: Option<nat>)
    requires |collected| < limit
    requires Holds(items, ahead, chunk)
    requires forall i | 0 <= i < |chunk| :: ahead[i] in hits <==> Matches(chunk[i], state, owner)
    requires Refilling(items, hits, due, ahead, collected)
    ensures stop.None? ==> |out| < limit && Refilling(items, hits, due, ahead[|chunk|..], out)
    ensures stop.Some? ==>
              && stop.value < |chunk| && |out| == limit
              && Holds(items, due, out) && due[limit - 1] == ahead[stop.value]
  {
    out := collected;
    for idx := 0 to |chunk|
      invariant |out| < limit
      invariant Refilling(items, hits, due, ahead[idx..], out)
    {
      var activity := chunk[idx];
      RefillStep(items, hits, due, ahead[idx..], out);
      assert ahead[idx..][1..] == ahead[idx + 1..];
      if state.Some? && activity.state != state.value {
        continue;
      }
      if owner.Some? && activity.ownerEntityId != owner.value {
        continue;
      }
      out := out + [activity];
      if |out| >= limit {
        return out, Some(idx);
      }
    }
    stop := None;
  }

  /** The comprehension of `list` that keeps the matching activities. */
  method FilterActivities(all: seq<Activity>, state: Option<ActivityState>, owner: Option<string>,
                          ghost items: map<string, Activity>, ghost keys: seq<string>, ghost hits: set<string>)
    returns (out: seq<Activity>)
    requires |all| == |keys| && Holds(items, keys, all)
    requires forall i | 0 <= i < |keys| :: keys[i] in hits <==> Matches(all[i], state, owner)
    requires forall k | k in Filter(keys, hits) :: k in items
    ensures out == ValuesAt(items, Filter(keys, hits))
  {
    out := [];
    ghost var due := Filter(keys, hits);
    for i := 0 to |all|
      invariant Refilling(items, hits, due, keys[i..], out)
    {
      RefillStep(items, hits, due, keys[i..], out);
      assert keys[i..][1..] == keys[i + 1..];
      if Matches(all[i], state, owner) {
        out := out + [all[i]];
      }
    }
    assert keys[|all|..] == [];
  }

  function IdOf(a: Activity): string
  {
    a.activityId
  }

  /** A filter a caller keeps for the whole walk. */
  datatype Query = Query(session: Option<string>, state: Option<ActivityState>, owner: Option<string>)

  function ScopeFor(items: map<string, Activity>, q: Query): set<string>
  {
    Scope(items, q.session)
  }

  function HitsFor(items: map<string, Activity>, q: Query): set<string>
  {
    Hits(items, q.session, q.state, q.owner)
  }

  /** A chunk holds the next activities of the scope, tells the hits among them, and its cursor leaves the rest ahead. */
  ghost predicate ChunkOf(items: map<string, Activity>, q: Query, from: Option<string>, chunk: seq<Activity>, next: Option<string>)
  {
    var ahead := Sorted(Above(ScopeFor(items, q), from));
    && Holds(items, ahead, chunk)
    && (forall i | 0 <= i < |chunk| :: ahead[i] in HitsFor(items, q) <==> Matches(chunk[i], q.state, q.owner))
    && (next.None? ==> ahead[|chunk|..] == [])
    && (next.Some? ==> 0 < |chunk| < |ahead| && Sorted(Above(ScopeFor(items, q), next)) == ahead[|chunk|..])
  }

  lemma PageIsChunk(items: map<string, Activity>, q: Query, limit: int, from: Option<string>)
    requires limit > 0
    ensures var page := ListingOf(items, ScopeFor(items, q), ScopeFor(items, q), limit, from);
            page.Ok? && ChunkOf(items, q, from, page.value.values, page.value.next)
  {
    var scope := ScopeFor(items, q);
    ChunkFacts(items, scope, limit, from);
    var page := ListingOf(items, scope, scope, limit, from).value;
    ChunkHits(items, q.session, q.state, q.owner, from, page.values);
    if page.next.Some? {
      CursorAfterChunk(scope, from, limit);
    }
  }

  ghost predicate Keyed(items: map<string, Activity>)
  {
    forall k | k in items :: items[k].activityId == k
  }

  /** A listing under way: `out` collected, and the keys after `from` still to look at. */
  ghost predicate Underway(items: map<string, Activity>, q: Query, cursor: Option<string>, from: Option<string>, out: seq<Activity>)
  {
    Refilling(items, HitsFor(items, q), Sorted(Above(HitsFor(items, q), cursor)), Sorted(Above(ScopeFor(items, q), from)), out)
  }

  /** The page the listing has to give. */
  ghost function PageFor(items: map<string, Activity>, q: Query, limit: int, cursor: Option<string>): Result<Page<Activity>>
  {
    ListingOf(items, ScopeFor(items, q), HitsFor(items, q), limit, cursor)
  }

  /** The page filled up inside the chunk, at index `stop`. */
  lemma TurnFills(items: map<string, Activity>, q: Query, limit: nat, cursor: Option<string>, from: Option<string>,
                  chunk: seq<Activity>, next: Option<string>, out: seq<Activity>, stop: nat)
    requires Keyed(items) && ChunkOf(items, q, from, chunk, next) && |out| == limit > 0 && stop < |chunk|
    requires var due := Sorted(Above(HitsFor(items, q), cursor));
             Holds(items, due, out) && due[limit - 1] == Sorted(Above(ScopeFor(items, q), from))[stop]
    ensures PageFor(items, q, limit, cursor)
            == Ok(Page(out, if stop < |chunk| - 1 || next.Some? then Some(out[limit - 1].activityId) else None))
  {
    RefillFull(items, ScopeFor(items, q), HitsFor(items, q), limit, cursor, from, stop, out);
  }

  /** Nothing is left behind the chunk. */
  lemma TurnExhausts(items: map<string, Activity>, q: Query, limit: nat, cursor: Option<string>, from: Option<string>,
                     chunk: seq<Activity>, out: seq<Activity>)
    requires ChunkOf(items, q, from, chunk, None) && |out| < limit
    requires var ahead := Sorted(Above(ScopeFor(items, q), from));
             Refilling(items, HitsFor(items, q), Sorted(Above(HitsFor(items, q), cursor)), ahead[|chunk|..], out)
    ensures PageFor(items, q, limit, cursor) == Ok(Page(out, None))
  {
    RefillExhausted(items, ScopeFor(items, q), HitsFor(items, q), limit, cursor, out);
  }

  /** More may follow, behind the chunk's cursor. */
  lemma TurnContinues(items: map<string, Activity>, q: Query, cursor: Option<string>, from: Option<string>,
                      chunk: seq<Activity>, next: Option<string>, out: seq<Activity>)
    requires ChunkOf(items, q, from, chunk, next) && next.Some?
    requires var ahead := Sorted(Above(ScopeFor(items, q), from));
             Refilling(items, HitsFor(items, q), Sorted(Above(HitsFor(items, q), cursor)), ahead[|chunk|..], out)
    ensures Underway(items, q, cursor, next, out) && |Above(ScopeFor(items, q), next)| < |Above(ScopeFor(items, q), from)|
  {
    assert |Sorted(Above(ScopeFor(items, q), next))| == |Above(ScopeFor(items, q), next)|;
  }

  lemma ValuesAreHits(items: map<string, Activity>, keys: seq<string>, out: seq<Activity>)
    requires Keyed(items) && (forall k | k in keys :: k in items) && out == ValuesAt(items, keys)
    ensures forall a :: a in out <==> a.activityId in items && items[a.activityId] == a && a.activityId in keys
  {
    forall a
      ensures a in out <==> a.activityId in items && items[a.activityId] == a && a.activityId in keys
    {
      if a in out {
        var i :| 0 <= i < |out| && out[i] == a;
        assert keys[i] in keys && items[keys[i]] == a;
      } else if a.activityId in keys {
        var i :| 0 <= i < |keys| && keys[i] == a.activityId;
        assert out[i] == items[keys[i]];
      }
    }
  }

  /** What the page shows, in terms of the activities' own fields: answers to the query behind the cursor, and all of them if nothing is to come. */
  ghost predicate ShowsAnswers(items: map<string, Activity>, q: Query, cursor: Option<string>, page: Page<Activity>)
  {
    OnlyAnswers(items, q, cursor, page.values) && (page.next.None? ==> AllAnswers(items, q, cursor, page.values))
  }

  ghost predicate OnlyAnswers(items: map<string, Activity>, q: Query, cursor: Option<string>, values: seq<Activity>)
  {
    forall a | a in values ::
          && a.activityId in items && items[a.activityId] == a
          && (q.session.Some? ==> a.sessionId == q.session.value)
          && (q.state.Some? ==> a.state == q.state.value)
          && (q.owner.Some? ==> a.ownerEntityId == q.owner.value)
          && (cursor.Some? ==> Less(cursor.value, a.activityId))
  }

  ghost predicate AllAnswers(items: map<string, Activity>, q: Query, cursor: Option<string>, values: seq<Activity>)
  {
    forall k | k in items ::
          || (q.session.Some? && items[k].sessionId != q.session.value)
          || (q.state.Some? && items[k].state != q.state.value)
          || (q.owner.Some? && items[k].ownerEntityId != q.owner.value)
          || (cursor.Some? && !Less(cursor.value, k))
          || items[k] in values
  }

  lemma PageShowsAnswers(items: map<string, Activity>, q: Query, limit: nat, cursor: Option<string>)
    requires Keyed(items) && limit > 0
    ensures var page := PageFor(items, q, limit, cursor); page.Ok? && ShowsAnswers(items, q, cursor, page.value)
  {
    var hits := HitsFor(items, q);
    var p := PageOf(ScopeFor(items, q), hits, limit, cursor);
    PageHits(ScopeFor(items, q), hits, limit, cursor);
    PageSplits(ScopeFor(items, q), hits, limit, cursor);
    ValuesAreHits(items, p.keys, ValuesAt(items, p.keys));
    if p.next.None? {
      SortedLaws(Above(hits, cursor));
      LastPageShowsAll(items, q, cursor, p.keys, ValuesAt(items, p.keys));
    }
  }

  lemma LastPageShowsAll(items: map<string, Activity>, q: Query, cursor: Option<string>, keys: seq<string>, values: seq<Activity>)
    requires Keyed(items) && forall k :: k in keys <==> k in Above(HitsFor(items, q), cursor)
    requires forall a :: a in values <==> a.activityId in items && items[a.activityId] == a && a.activityId in keys
    ensures AllAnswers(items, q, cursor, values)
  {
    forall k | k in items
      ensures k in Above(HitsFor(items, q), cursor) ==> items[k] in values
    {
      assert items[k].activityId == k;
    }
  }

  /** The two stores an engine may page over. */
  datatype ActivityPages = InMemory(store: GroupedStore<Activity>) | Sqlite(table: SqliteGroupedTable<Activity>)
  {
    function Source(): object
    {
      if InMemory? then store else table
    }

    ghost predicate Valid()
      reads Source()
    {
      if InMemory? then store.Valid() && store.groupFn == SessionOf && store.keyFn == IdOf
      else table.Valid() && table.groupFn == SessionOf && table.keyFn == IdOf
    }

    ghost function Items(): map<string, Activity>
      reads Source()
    {
      if InMemory? then store.items else table.Contents()
    }

    /** `list_page` of the store. */
    method StorePage(session: Option<string>, limit: int, cursor: Option<string>) returns (page: Result<Page<Activity>>)
      requires Valid()
      ensures page == ListingOf(Items(), Scope(Items(), session), Scope(Items(), session), limit, cursor)
    {
      if Sqlite? {
        page := table.ListPage(session, limit, cursor);
      } else if session.None? {
        page := store.ListPage(limit, cursor);
      } else {
        page := store.ByGroupPage(session.value, limit, cursor);
      }
    }

    /** One store page seen from the refill loop. */
    method NextChunk(q: Query, limit: int, from: Option<string>) returns (chunk: seq<Activity>, next: Option<string>)
      requires Valid() && limit > 0
      ensures Keyed(Items()) && ChunkOf(Items(), q, from, chunk, next)
    {
      var page := StorePage(q.session, limit, from);
      PageIsChunk(Items(), q, limit, from);
      chunk, next := page.value.values, page.value.next;
    }
  }

  /** How one turn of the refill loop ends: a full page, an exhausted store, or the cursor for the next turn. */
  datatype Refill = Full(page: Page<Activity>) | Exhausted | More(next: Option<string>)

  /** One turn of the refill loop: one store page, and the hits in it. */
  method RefillOnce(pages: ActivityPages, q: Query, limit: nat, ghost cursor: Option<string>, from: Option<string>, collected: seq<Activity>)
    returns (out: seq<Activity>, turn: Refill)
    requires pages.Valid() && |collected| < limit && Underway(pages.Items(), q, cursor, from, collected)
    ensures turn.Full? ==> PageFor(pages.Items(), q, limit, cursor) == Ok(turn.page)
    ensures turn.Exhausted? ==> PageFor(pages.Items(), q, limit, cursor) == Ok(Page(out, None))
    ensures turn.More? ==>
              && |out| < limit && Underway(pages.Items(), q, cursor, turn.next, out)
              && |Above(ScopeFor(pages.Items(), q), turn.next)| < |Above(ScopeFor(pages.Items(), q), from)|
  {
    ghost var items := pages.Items();
    ghost var hits := HitsFor(items, q);
    var chunk, next := pages.NextChunk(q, limit, from);
    if chunk == [] {
      TurnExhausts(items, q, limit, cursor, from, chunk, collected);
      return collected, Exhausted;
    }
    var stop;
    out, stop := CollectChunk(chunk, collected, q.state, q.owner, limit,
                              items, hits, Sorted(Above(hits, cursor)), Sorted(Above(ScopeFor(items, q), from)));
    if stop.Some? {
      TurnFills(items, q, limit, cursor, from, chunk, next, out, stop.value);
      if stop.value < |chunk| - 1 || next.Some? {
        return out, Full(Page(out, Some(out[|out| - 1].activityId)));
      }
      return out, Full(Page(out, None));
    }
    if next.None? {
      TurnExhausts(items, q, limit, cursor, from, chunk, out);
      return out, Exhausted;
    }
    TurnContinues(items, q, cursor, from, chunk, next, out);
    turn := More(next);
  }

  lemma UnderwayAtStart(items: map<string, Activity>, q: Query, cursor: Option<string>)
    ensures Underway(items, q, cursor, cursor, [])
  {
    FilterOfSorted(ScopeFor(items, q), HitsFor(items, q), cursor);
  }

  /** The refill loop: take store pages until `limit` hits are collected or the store is exhausted. */
  method FilteredPage(pages: ActivityPages, q: Query, limit: nat, cursor: Option<string>) returns (page: Result<Page<Activity>>)
    requires pages.Valid() && limit > 0
    ensures page == PageFor(pages.Items(), q, limit, cursor)
  {
    UnderwayAtStart(pages.Items(), q, cursor);
    var out: seq<Activity> := [];
    var pageCursor := cursor;
    while |out| < limit
      invariant |out| < limit && Underway(pages.Items(), q, cursor, pageCursor, out)
      decreases |Above(ScopeFor(pages.Items(), q), pageCursor)|
    {
      var turn;
      out, turn := RefillOnce(pages, q, limit, cursor, pageCursor, out);
      match turn {
        case Full(full) => return Ok(full);
        case Exhausted => break;
        case More(next) => pageCursor := next;
      }
    }
    page := Ok(Page(out, None));
  }

  /** `list_page` of the engine, over either store: unfiltered listings are the store's own, filtered ones are refilled. */
  method ListActivities(pages: ActivityPages, q: Query, limit: int, cursor: Option<string>) returns (page: Result<Page<Activity>>)
    requires pages.Valid()
    ensures page == if limit <= 0 then Err(InvalidArgument) else PageFor(pages.Items(), q, limit, cursor)
    ensures page.Ok? ==> ShowsAnswers(pages.Items(), q, cursor, page.value)
  {
    if limit <= 0 {
      return Err(InvalidArgument);
    }
    PageShowsAnswers(pages.Items(), q, limit, cursor);
    if q.state.None? && q.owner.None? {
      assert HitsFor(pages.Items(), q) == ScopeFor(pages.Items(), q);
      page := pages.StorePage(q.session, limit, cursor);
    } else {
      page := FilteredPage(pages, q, limit, cursor);
    }
  }

  class ActivityEngine {
    const store: GroupedStore<Activity>

    constructor (store: GroupedStore<Activity>)
      ensures this.store == store
    {
      this.store := store;
    }

    ghost predicate Valid()
      reads this, store
    {
      store.Valid() && store.groupFn == SessionOf && store.keyFn == IdOf
    }

    method Start(activityId: string, sessionId: string, owner: string, initiator: string, operation: string, input: Fields)
      returns (r: Result<Activity>)
      requires Valid()
      modifies store
      ensures Valid()
      ensures (store.items, r) == StartedWith(old(store.items), NewlySubmitted(activityId, sessionId, owner, initiator, operation, input))
      ensures r.Ok? <==> activityId !in old(store.items) && !exists s | s in [activityId, sessionId, owner, initiator] :: Sessions.Blank(s)
      ensures r.Err? ==> store.items == old(store.items)
      ensures r.Ok? ==>
                && r.value == Activity(activityId, sessionId, owner, initiator, Submitted, Some(operation), input, None, None, None, None)
                && store.items == old(store.items)[activityId := r.value]
    {
      var existing := store.Get(activityId);
      if existing.Some? {
        return Err(AlreadyExists);
      }
      if Sessions.Blank(activityId) || Sessions.Blank(sessionId) || Sessions.Blank(owner) || Sessions.Blank(initiator) {
        return Err(InvalidArgument);
      }
      var activity := NewlySubmitted(activityId, sessionId, owner, initiator, operation, input);
      store.Put(activity);
      r := Ok(activity);
    }

    method Transition(id: string, next: ActivityState, message: Option<string>, patch: Fields) returns (r: Result<Activity>)
      requires Valid()
      modifies store
      ensures Valid()
      ensures (store.items, r) == if id !in old(store.items) then (old(store.items), Err(NotFound))
                                  else PutBack(old(store.items), id, Transitioned(old(store.items)[id], next, message, patch))
      ensures r.Ok? <==> id in old(store.items) && next in AllowedTransitions(old(store.items)[id].state)
      ensures r.Err? ==> store.items == old(store.items)
      ensures r.Ok? ==>
                && store.items == old(store.items)[id := r.value]
                && (forall k | k in patch :: k in r.value.inputPayload && r.value.inputPayload[k] == patch[k])
                && (forall k | k in old(store.items)[id].inputPayload && k !in patch ::
                      k in r.value.inputPayload && r.value.inputPayload[k] == old(store.items)[id].inputPayload[k])
                && r.value == old(store.items)[id].(state := next, statusMessage := message, inputPayload := r.value.inputPayload)
    {
      var found := store.Get(id);
      if found.None? {
        return Err(NotFound);
      }
      var activity := found.value;
      if next !in AllowedTransitions(activity.state) {
        return Err(InvalidStateTransition);
      }
      activity := activity.(state := next, statusMessage := message, inputPayload := activity.inputPayload + patch);
      store.Put(activity);
      r := Ok(activity);
    }

    method Complete(id: string, payload: Option<Fields>, ref: Option<string>) returns (r: Result<Activity>)
      requires Valid()
      modifies store
      ensures Valid()
      ensures (store.items, r) == if id !in old(store.items) then (old(store.items), Err(NotFound))
                                  else PutBack(old(store.items), id, CompletedWith(old(store.items)[id], payload, ref))
      ensures r.Ok? <==> id in old(store.items) && old(store.items)[id].state in {Submitted, Working, InputRequired, ActivityState.AuthRequired}
      ensures r.Err? ==> store.items == old(store.items)
      ensures r.Ok? ==>
                && store.items == old(store.items)[id := r.value]
                && r.value.state == Completed && r.value.resultPayload == payload && r.value.resultRef == ref
                && old(store.items)[id] == r.value.(state := old(store.items)[id].state,
                                                    resultPayload := old(store.items)[id].resultPayload, resultRef := old(store.items)[id].resultRef)
    {
      var found := store.Get(id);
      if found.None? {
        return Err(NotFound);
      }
      var activity := found.value;
      if activity.state !in {Submitted, Working, InputRequired, ActivityState.AuthRequired} {
        return Err(InvalidStateTransition);
      }
      activity := activity.(state := Completed, resultPayload := payload, resultRef := ref);
      store.Put(activity);
      r := Ok(activity);
    }

    /** Alone among these, `fail` asks nothing of the current state. */
    method Fail(id: string, message: string, details: Fields) returns (r: Result<Activity>)
      requires Valid()
      modifies store
      ensures Valid()
      ensures (store.items, r) == if id !in old(store.items) then (old(store.items), Err(NotFound))
                                  else PutBack(old(store.items), id, Ok(FailedWith(old(store.items)[id], message, details)))
      ensures r.Ok? <==> id in old(store.items)
      ensures r.Err? ==> store.items == old(store.items)
      ensures r.Ok? ==>
                && store.items == old(store.items)[id := r.value]
                && r.value == old(store.items)[id].(state := Failed, error := Some(map["message" := Str(message), "details" := Obj(details)]))
    {
      var found := store.Get(id);
      if found.None? {
        return Err(NotFound);
      }
      var activity := found.value.(state := Failed, error := Some(ErrorFields(message, details)));
      store.Put(activity);
      r := Ok(activity);
    }

    method Cancel(id: string, reason: Option<string>) returns (r: Result<Activity>)
      requires Valid()
      modifies store
      ensures Valid()
      ensures (store.items, r) == if id !in old(store.items) then (old(store.items), Err(NotFound))
                                  else PutBack(old(store.items), id, CanceledWith(old(store.items)[id], reason))
      ensures r.Ok? <==> id in old(store.items) && old(store.items)[id].state !in {Completed, Failed, Canceled, Rejected}
      ensures r.Err? ==> store.items == old(store.items)
      ensures r.Ok? ==>
                && store.items == old(store.items)[id := r.value]
                && r.value == old(store.items)[id].(state := Canceled, statusMessage := reason)
    {
      var found := store.Get(id);
      if found.None? {
        return Err(NotFound);
      }
      var activity := found.value;
      if activity.state in TERMINAL {
        return Err(InvalidStateTransition);
      }
      activity := activity.(state := Canceled, statusMessage := reason);
      store.Put(activity);
      r := Ok(activity);
    }

    /** `list` within one session: the session's activities in key order, filtered. */
    method ListSession(session: string, state: Option<ActivityState>, owner: Option<string>) returns (out: seq<Activity>)
      requires Valid()
      ensures var hits := Hits(store.items, Some(session), state, owner);
              var keys := Filter(Sorted(Scope(store.items, Some(session))), hits);
              (forall k | k in keys :: k in store.items) && out == ValuesAt(store.items, keys)
      ensures forall a :: a in out <==>
                && a.activityId in store.items && store.items[a.activityId] == a && a.sessionId == session
                && (state.Some? ==> a.state == state.value)
                && (owner.Some? ==> a.ownerEntityId == owner.value)
    {
      ghost var scope := Scope(store.items, Some(session));
      ghost var hits := Hits(store.items, Some(session), state, owner);
      var all := store.ByGroup(session);
      SortedLaws(scope);
      FilterLaws(Sorted(scope), hits);
      out := FilterActivities(all, state, owner, store.items, Sorted(scope), hits);
      ValuesAreHits(store.items, Filter(Sorted(scope), hits), out);
    }

    method ListPage(session: Option<string>, state: Option<ActivityState>, owner: Option<string>, limit: int, cursor: Option<string>)
      returns (page: Result<Page<Activity>>)
      requires Valid()
      ensures page == if limit <= 0 then Err(InvalidArgument) else
                        ListingOf(store.items, Scope(store.items, session), Hits(store.items, session, state, owner), limit, cursor)
      ensures page.Ok? ==> forall a | a in page.value.values ::
                && a.activityId in store.items && store.items[a.activityId] == a
                && (session.Some? ==> a.sessionId == session.value)
                && (state.Some? ==> a.state == state.value)
                && (owner.Some? ==> a.ownerEntityId == owner.value)
    {
      page := ListActivities(InMemory(store), Query(session, state, owner), limit, cursor);
    }
  }
}
