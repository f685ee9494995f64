/** The lazily evicting directory against one that purges expired cards at every clock step. */
module DirectoryRefinement {
  import opened Outcomes
  import opened Directory

  datatype Op =
    | PublishOp(card: Card, actor: Option<string>, upsert: bool)
    | ResolveOp(id: string, actor: Option<string>, requireHealthy: bool)
    | ListOp(actor: Option<string>, requireHealthy: bool)
    | HeartbeatOp(id: string, actor: Option<string>, replacement: Option<Card>)
    | HealthOp(id: string, healthy: bool, reason: Option<string>)
    | HealthQuery(id: string)

  /** What a call answers. */
  datatype View = Carded(card: Result<Card>) | Listed(cards: map<string, Card>) | Changed(done: Result<()>) | Reported(report: Result<HealthReport>)

  /** The calls that read cards. */
  predicate IsRead(op: Op)
  {
    op.ResolveOp? || op.ListOp?
  }

  function LazyStep(p: Policy, es: Entries, op: Op, now: int): (Entries, View)
  {
    match op
    case PublishOp(card, actor, upsert) => var (after, r) := Publish(p, es, card, actor, upsert, now); (after, Carded(r))
    case ResolveOp(id, actor, requireHealthy) => var (rest, r) := Resolve(es, id, actor, requireHealthy, now); (rest, Carded(r))
    case ListOp(actor, requireHealthy) => (Unexpired(es, now), Listed(Listing(es, actor, requireHealthy, now)))
    case HeartbeatOp(id, actor, replacement) => var (after, r) := Heartbeat(p, es, id, actor, replacement, now); (after, Carded(r))
    case HealthOp(id, healthy, reason) => var (after, r) := SetHealth(es, id, healthy, reason); (after, Changed(r))
    case HealthQuery(id) => (es, Reported(Health(es, id)))
  }

  function EagerStep(p: Policy, es: Entries, op: Op, now: int): (Entries, View)
  {
    LazyStep(p, Unexpired(es, now), op, now)
  }

  /** Both hold the same unexpired entries at time `now`. */
  ghost predicate Agree(lazy: Entries, eager: Entries, now: int)
  {
    Unexpired(lazy, now) == Unexpired(eager, now)
  }

  predicate Stale(es: Entries, id: string, now: int)
  {
    id in es && Expired(es[id].card, now)
  }

  /**
   The call lets an expired entry that was never read make a difference: a publish without upsert
   is blocked by it, or a heartbeat brings it back to life.
   */
  predicate Diverges(p: Policy, lazy: Entries, op: Op, now: int)
  {
    match op
    case PublishOp(card, actor, upsert) => !upsert && Stale(lazy, card.entityId, now) && Publishable(p, card, actor, now).Ok?
    case HeartbeatOp(id, actor, replacement) =>
      replacement.None? && Stale(lazy, id, now) && Allowed(lazy[id].card.aclPublish, actor) && Unsigned(lazy[id].card)
    case _ => false
  }

  /** The call's own answer tells an expired entry from a missing one. */
  predicate Noticed(p: Policy, lazy: Entries, op: Op, now: int)
  {
    match op
    case PublishOp(_, _, _) => Diverges(p, lazy, op, now)
    case HeartbeatOp(id, _, replacement) => replacement.None? && Stale(lazy, id, now)
    case HealthOp(id, _, _) => Stale(lazy, id, now)
    case HealthQuery(id) => Stale(lazy, id, now)
    case _ => false
  }

  lemma PurgeAgain(es: Entries, earlier: int, now: int)
    requires earlier <= now
    ensures Unexpired(Unexpired(es, earlier), now) == Unexpired(es, now)
  {
  }

  /** Agreement lasts while the clock advances. */
  lemma AgreeLater(lazy: Entries, eager: Entries, earlier: int, now: int)
    requires Agree(lazy, eager, earlier) && earlier <= now
    ensures Agree(lazy, eager, now)
  {
    PurgeAgain(lazy, earlier, now);
    PurgeAgain(eager, earlier, now);
  }

  /** Writing the same entry under the same key keeps agreement. */
  lemma WriteBoth(a: Entries, b: Entries, id: string, e: DirEntry, now: int)
    requires Agree(a, b, now)
    ensures Agree(a[id := e], b[id := e], now)
  {
    var x, y := Unexpired(a[id := e], now), Unexpired(b[id := e], now);
    assert forall k | k != id :: k in x <==> k in Unexpired(a, now);
    assert forall k | k != id :: k in y <==> k in Unexpired(b, now);
    forall k | k in x
      ensures k in y && x[k] == y[k]
    {
      if k != id { assert x[k] == Unexpired(a, now)[k] && y[k] == Unexpired(b, now)[k]; }
    }
  }

  lemma Members(a: Entries, b: Entries, id: string, now: int)
    requires Agree(a, b, now)
    ensures id in a && !Expired(a[id].card, now) <==> id in b && !Expired(b[id].card, now)
    ensures id in a && !Expired(a[id].card, now) ==> a[id] == b[id]
  {
    assert id in Unexpired(a, now) <==> id in Unexpired(b, now);
    if id in Unexpired(a, now) {
      assert Unexpired(a, now)[id] == Unexpired(b, now)[id];
    }
  }

  lemma DropExpired(es: Entries, id: string, now: int)
    requires Stale(es, id, now)
    ensures Unexpired(es - {id}, now) == Unexpired(es, now)
  {
  }

  lemma WriteStale(es: Entries, id: string, e: DirEntry, now: int)
    requires Stale(es, id, now) && Expired(e.card, now)
    ensures Unexpired(es[id := e], now) == Unexpired(es, now)
  {
  }

  lemma ResolveAgrees(a: Entries, b: Entries, id: string, actor: Option<string>, requireHealthy: bool, now: int)
    requires Agree(a, b, now)
    ensures Resolve(a, id, actor, requireHealthy, now).1 == Resolve(b, id, actor, requireHealthy, now).1
    ensures Agree(Resolve(a, id, actor, requireHealthy, now).0, Resolve(b, id, actor, requireHealthy, now).0, now)
  {
    Members(a, b, id, now);
    if Stale(a, id, now) { DropExpired(a, id, now); }
    if Stale(b, id, now) { DropExpired(b, id, now); }
  }

  lemma ListAgrees(a: Entries, b: Entries, actor: Option<string>, requireHealthy: bool, now: int)
    requires Agree(a, b, now)
    ensures Listing(a, actor, requireHealthy, now) == Listing(b, actor, requireHealthy, now)
  {
    forall id
      ensures id in a && Shown(a[id], actor, requireHealthy, now) <==> id in b && Shown(b[id], actor, requireHealthy, now)
      ensures id in a && Shown(a[id], actor, requireHealthy, now) ==> a[id] == b[id]
    {
      Members(a, b, id, now);
    }
  }

  lemma PublishAgrees(p: Policy, a: Entries, b: Entries, card: Card, actor: Option<string>, upsert: bool, now: int)
    requires Agree(a, b, now) && (forall id | id in b :: !Expired(b[id].card, now))
    ensures Agree(Publish(p, a, card, actor, upsert, now).0, Publish(p, b, card, actor, upsert, now).0, now)
            <==> !Diverges(p, a, PublishOp(card, actor, upsert), now)
  {
    Members(a, b, card.entityId, now);
    var e := DirEntry(card, true, None, None);
    WriteBoth(a, b, card.entityId, e, now);
    if Diverges(p, a, PublishOp(card, actor, upsert), now) {
      assert card.entityId in Unexpired(b[card.entityId := e], now);
      assert card.entityId !in Unexpired(a, now);
    }
  }

  lemma ReplacementAgrees(p: Policy, a: Entries, b: Entries, id: string, actor: Option<string>, card: Card, now: int)
    requires Agree(a, b, now)
    ensures Agree(Heartbeat(p, a, id, actor, Some(card), now).0, Heartbeat(p, b, id, actor, Some(card), now).0, now)
  {
    var e := DirEntry(card, true, None, Some(now));
    WriteBoth(a, b, id, e, now);
    if card.entityId == id && Publishable(p, card, actor, now).Ok? {
      assert a[id := DirEntry(card, true, None, None)][id := e] == a[id := e];
      assert b[id := DirEntry(card, true, None, None)][id := e] == b[id := e];
    }
  }

  lemma HeartbeatAgrees(p: Policy, a: Entries, b: Entries, id: string, actor: Option<string>, now: int)
    requires Agree(a, b, now) && (forall id | id in b :: !Expired(b[id].card, now))
    ensures Agree(Heartbeat(p, a, id, actor, None, now).0, Heartbeat(p, b, id, actor, None, now).0, now)
            <==> !Diverges(p, a, HeartbeatOp(id, actor, None), now)
  {
    Members(a, b, id, now);
    if id in b {
      WriteBoth(a, b, id, b[id].(card := Refreshed(b[id].card, now), lastHeartbeatAt := Some(now)), now);
    } else if Diverges(p, a, HeartbeatOp(id, actor, None), now) {
      assert id in Unexpired(Heartbeat(p, a, id, actor, None, now).0, now);
      assert id !in Unexpired(b, now);
    }
  }

  lemma HealthAgrees(a: Entries, b: Entries, id: string, healthy: bool, reason: Option<string>, now: int)
    requires Agree(a, b, now) && (forall id | id in b :: !Expired(b[id].card, now))
    ensures Agree(SetHealth(a, id, healthy, reason).0, SetHealth(b, id, healthy, reason).0, now)
  {
    Members(a, b, id, now);
    if id in b {
      WriteBoth(a, b, id, b[id].(healthy := healthy, healthReason := reason), now);
    } else if id in a {
      WriteStale(a, id, a[id].(healthy := healthy, healthReason := reason), now);
    }
  }

  /**
   One call on agreeing directories: it leaves them agreeing, and if it is a read answers alike, if
   and only if it is not one of the two divergent calls on an expired entry.
   */
  lemma StepAgreesIffNotDivergent(p: Policy, lazy: Entries, eager: Entries, op: Op, now: int)
    requires Agree(lazy, eager, now)
    ensures var (l, seen) := LazyStep(p, lazy, op, now);
            var (e, meant) := EagerStep(p, eager, op, now);
            (Agree(l, e, now) && (IsRead(op) ==> seen == meant)) <==> !Diverges(p, lazy, op, now)
  {
    var purged := Unexpired(eager, now);
    match op
    case PublishOp(card, actor, upsert) => PublishAgrees(p, lazy, purged, card, actor, upsert, now);
    case ResolveOp(id, actor, requireHealthy) => ResolveAgrees(lazy, purged, id, actor, requireHealthy, now);
    case ListOp(actor, requireHealthy) =>
      ListAgrees(lazy, purged, actor, requireHealthy, now);
    case HeartbeatOp(id, actor, replacement) =>
      if replacement.Some? {
        ReplacementAgrees(p, lazy, purged, id, actor, replacement.value, now);
      } else {
        HeartbeatAgrees(p, lazy, purged, id, actor, now);
      }
    case HealthOp(id, healthy, reason) => HealthAgrees(lazy, purged, id, healthy, reason, now);
    case HealthQuery(_) =>
  }

  /** Any call on agreeing directories is answered alike if and only if it does not notice an expired entry. */
  lemma AnswersAlikeIffUnnoticed(p: Policy, lazy: Entries, eager: Entries, op: Op, now: int)
    requires Agree(lazy, eager, now)
    ensures LazyStep(p, lazy, op, now).1 == EagerStep(p, eager, op, now).1 <==> !Noticed(p, lazy, op, now)
  {
    var purged := Unexpired(eager, now);
    match op
    case PublishOp(card, _, _) => Members(lazy, purged, card.entityId, now);
    case ResolveOp(id, actor, requireHealthy) => ResolveAgrees(lazy, purged, id, actor, requireHealthy, now);
    case ListOp(actor, requireHealthy) => ListAgrees(lazy, purged, actor, requireHealthy, now);
    case HeartbeatOp(id, _, _) => Members(lazy, purged, id, now);
    case HealthOp(id, _, _) => Members(lazy, purged, id, now);
    case HealthQuery(id) => Members(lazy, purged, id, now);
  }

  /** A call at an instant. */
  datatype Timed = Timed(op: Op, now: int)

  /** The answers to the calls of a run: to all of them, or to the reads alone. */
  function LazyViews(p: Policy, es: Entries, calls: seq<Timed>, readsOnly: bool): seq<View>
    decreases |calls|
  {
    if calls == [] then [] else
      var (next, seen) := LazyStep(p, es, calls[0].op, calls[0].now);
      (if readsOnly && !IsRead(calls[0].op) then [] else [seen]) + LazyViews(p, next, calls[1..], readsOnly)
  }

  function EagerViews(p: Policy, es: Entries, calls: seq<Timed>, readsOnly: bool): seq<View>
    decreases |calls|
  {
    if calls == [] then [] else
      var (next, seen) := EagerStep(p, es, calls[0].op, calls[0].now);
      (if readsOnly && !IsRead(calls[0].op) then [] else [seen]) + EagerViews(p, next, calls[1..], readsOnly)
  }

  /** The clock never runs backwards. */
  ghost predicate Monotone(start: int, calls: seq<Timed>)
    decreases |calls|
  {
    calls == [] || (start <= calls[0].now && Monotone(calls[0].now, calls[1..]))
  }

  ghost predicate NeverDiverges(p: Policy, es: Entries, calls: seq<Timed>)
    decreases |calls|
  {
    calls == [] ||
    (!Diverges(p, es, calls[0].op, calls[0].now) && NeverDiverges(p, LazyStep(p, es, calls[0].op, calls[0].now).0, calls[1..]))
  }

  ghost predicate NeverNotices(p: Policy, es: Entries, calls: seq<Timed>)
    decreases |calls|
  {
    calls == [] ||
    (!Noticed(p, es, calls[0].op, calls[0].now) && NeverNotices(p, LazyStep(p, es, calls[0].op, calls[0].now).0, calls[1..]))
  }

  /** Over every run without a divergent call, `resolve` and `list` cannot tell lazy eviction from purging at every step. */
  lemma {:induction false} LazyAnswersLikeEager(p: Policy, lazy: Entries, eager: Entries, start: int, calls: seq<Timed>)
    requires Agree(lazy, eager, start) && Monotone(start, calls) && NeverDiverges(p, lazy, calls)
    ensures LazyViews(p, lazy, calls, true) == EagerViews(p, eager, calls, true)
    decreases |calls|
  {
    if calls != [] {
      var op, now := calls[0].op, calls[0].now;
      AgreeLater(lazy, eager, start, now);
      StepAgreesIffNotDivergent(p, lazy, eager, op, now);
      LazyAnswersLikeEager(p, LazyStep(p, lazy, op, now).0, EagerStep(p, eager, op, now).0, now, calls[1..]);
    }
  }

  /** Over every run no call of which notices an expired entry, no answer of any call can. */
  lemma {:induction false} AllAnswersAlike(p: Policy, lazy: Entries, eager: Entries, start: int, calls: seq<Timed>)
    requires Agree(lazy, eager, start) && Monotone(start, calls) && NeverNotices(p, lazy, calls)
    ensures LazyViews(p, lazy, calls, false) == EagerViews(p, eager, calls, false)
    decreases |calls|
  {
    if calls != [] {
      var op, now := calls[0].op, calls[0].now;
      AgreeLater(lazy, eager, start, now);
      StepAgreesIffNotDivergent(p, lazy, eager, op, now);
      AnswersAlikeIffUnnoticed(p, lazy, eager, op, now);
      AllAnswersAlike(p, LazyStep(p, lazy, op, now).0, EagerStep(p, eager, op, now).0, now, calls[1..]);
    }
  }

  /** An unsigned card that anyone may publish and read, valid until instant 10. */
  const BRIEF: Card := Card("e", "c", {}, {}, None, None, None, None, Some(10), None)

  const LONG: Card := BRIEF.(expiresAt := Some(100))

  const OPEN: Policy := Policy(map[], false, (_, _) => false)

  const READ: Timed := Timed(ResolveOp("e", None, false), 20)

  const FIRST: Timed := Timed(PublishOp(BRIEF, None, true), 0)

  const STALE: Entries := map["e" := DirEntry(BRIEF, true, None, None)]

  lemma ExpiresUnread()
    ensures Unexpired(map[], 0) == map[] && Unexpired(map[], 20) == map[] && Unexpired(STALE, 20) == map[]
    ensures LazyStep(OPEN, map[], FIRST.op, 0).0 == EagerStep(OPEN, map[], FIRST.op, 0).0 == STALE
  {
    assert Unexpired(map[], 0) == map[];
    assert Unexpired(STALE, 20) == map[];
  }

  /** The first divergence happens: at 20, nobody has read the card that expired at 10, and it blocks an insert. */
  lemma ExpiredCardBlocksInsert()
    ensures var calls := [FIRST, Timed(PublishOp(LONG, None, false), 20), READ];
            LazyViews(OPEN, map[], calls, true) == [Carded(Err(NotFound))] && EagerViews(OPEN, map[], calls, true) == [Carded(Ok(LONG))]
  {
    var insert := Timed(PublishOp(LONG, None, false), 20);
    var inserted: Entries := map["e" := DirEntry(LONG, true, None, None)];
    ExpiresUnread();
    Alone(OPEN, map[], FIRST, [insert, READ]);
    Alone(OPEN, STALE, insert, [READ]);
    Alone(OPEN, STALE, READ, []);
    assert Unexpired(inserted, 20) == inserted;
    Alone(OPEN, inserted, READ, []);
  }

  /** So does the second: a heartbeat brings the expired card back to life. */
  lemma ExpiredCardIsRevived()
    ensures var calls := [FIRST, Timed(HeartbeatOp("e", None, None), 20), READ];
            LazyViews(OPEN, map[], calls, true) == [Carded(Ok(Refreshed(BRIEF, 20)))] && EagerViews(OPEN, map[], calls, true) == [Carded(Err(NotFound))]
  {
    var beat := Timed(HeartbeatOp("e", None, None), 20);
    ExpiresUnread();
    Alone(OPEN, map[], FIRST, [beat, READ]);
    Alone(OPEN, STALE, beat, [READ]);
    Alone(OPEN, STALE["e" := DirEntry(Refreshed(BRIEF, 20), true, None, Some(20))], READ, []);
    Alone(OPEN, map[], READ, []);
  }

  /** The first call of a run, taken by itself. */
  lemma Alone(p: Policy, es: Entries, call: Timed, rest: seq<Timed>)
    ensures LazyViews(p, es, [call] + rest, true)
            == (if IsRead(call.op) then [LazyStep(p, es, call.op, call.now).1] else []) + LazyViews(p, LazyStep(p, es, call.op, call.now).0, rest, true)
    ensures EagerViews(p, es, [call] + rest, true)
            == (if IsRead(call.op) then [EagerStep(p, es, call.op, call.now).1] else []) + EagerViews(p, EagerStep(p, es, call.op, call.now).0, rest, true)
  {
    assert ([call] + rest)[1..] == rest;
  }
}
