/** Over every run, an activity's lifecycle events spell the history of its state. */
module LifecycleHistory {
  import opened Outcomes
  import opened Events
  import opened Activities
  import opened Lifecycle
  import opened ServerSanity
  import S = Sessions

  const ALL_STATES: seq<ActivityState> :=
    [Submitted, Working, InputRequired, ActivityState.AuthRequired, Completed, Failed, Canceled, Rejected]

  lemma TypesDiffer(s: ActivityState, t: ActivityState)
    ensures LifecycleType(s) == LifecycleType(t) <==> s == t
  {
    assert LifecycleType(s)[9..] == StateName(s);
    assert LifecycleType(t)[9..] == StateName(t);
    if s != t {
      assert StateName(s)[0] != StateName(t)[0] || StateName(s)[1] != StateName(t)[1];
    }
  }

  predicate IsLifecycleType(eventType: string)
  {
    exists s :: s in ALL_STATES && LifecycleType(s) == eventType
  }

  /** The state a lifecycle event announces. */
  ghost function Announced(e: Event): ActivityState
    requires IsLifecycleType(e.eventType)
  {
    var s :| LifecycleType(s) == e.eventType; s
  }

  predicate About(e: Event, id: string)
  {
    e.activityId == Some(id) && IsLifecycleType(e.eventType)
  }

  /** The states announced for activity `id`, oldest first. */
  ghost function History(events: seq<Event>, id: string): seq<ActivityState>
  {
    if events == [] then [] else
      var e := events[|events| - 1];
      History(events[..|events| - 1], id) + (if About(e, id) then [Announced(e)] else [])
  }

  lemma HistorySnoc(events: seq<Event>, e: Event, id: string)
    ensures History(events + [e], id) == History(events, id) + (if About(e, id) then [Announced(e)] else [])
  {
  }

  /** The edges histories are made of: the table, what `complete` also accepts, and the unguarded `fail`. */
  predicate Edge(x: ActivityState, y: ActivityState)
  {
    || y in AllowedTransitions(x)
    || (y == Completed && x in {Submitted, InputRequired, ActivityState.AuthRequired})
    || (y == Failed && x != Submitted)
  }

  ghost predicate Spelled(h: seq<ActivityState>, last: ActivityState)
  {
    && h != [] && h[0] == Submitted && h[|h| - 1] == last
    && forall i | 0 <= i < |h| - 1 :: Edge(h[i], h[i + 1])
  }

  ghost predicate HistoriesHold(w: World)
  {
    && (forall id | id in w.activities :: Spelled(History(w.published, id), w.activities[id].state))
    && (forall id | id !in w.activities :: History(w.published, id) == [])
  }

  lemma EmitKeepsHistories(w: World, eventType: string, session: string, activity: Option<string>, producer: string)
    requires HistoriesHold(w) && (activity.Some? ==> !IsLifecycleType(eventType))
    ensures HistoriesHold(Emitted(w, eventType, session, activity, producer).0)
  {
  }

  lemma ExtendSpelled(h: seq<ActivityState>, last: ActivityState, next: ActivityState)
    requires Spelled(h, last) && Edge(last, next)
    ensures Spelled(h + [next], next)
  {
  }

  /** Whether putting `a` back is a legal start or step of its activity. */
  ghost predicate Continues(w: World, a: Activity)
  {
    if a.activityId in w.activities then Edge(w.activities[a.activityId].state, a.state) else a.state == Submitted
  }

  lemma EventAnnounces(s: ActivityState, e: Event)
    requires e.eventType == LifecycleType(s)
    ensures IsLifecycleType(e.eventType) && Announced(e) == s
  {
    assert s in ALL_STATES && LifecycleType(s) == e.eventType;
    TypesDiffer(s, Announced(e));
  }

  /** The state-and-event pair extends the activity's history by its new state, and no other's. */
  lemma PairKeepsHistories(w: World, a: Activity, producer: string)
    requires HistoriesHold(w) && Continues(w, a)
    requires !S.Blank(a.sessionId) && !S.Blank(producer)
    ensures StoredAndEmitted(w, a, producer).1 == Ok(a)
    ensures HistoriesHold(StoredAndEmitted(w, a, producer).0)
  {
    assert LifecycleType(a.state)[0] == 'a';
    var v := StoredAndEmitted(w, a, producer).0;
    var e := v.published[|w.published|];
    EventAnnounces(a.state, e);
    forall id
      ensures id in v.activities ==> Spelled(History(v.published, id), v.activities[id].state)
      ensures id !in v.activities ==> History(v.published, id) == []
    {
      HistorySnoc(w.published, e, id);
      if id == a.activityId && id in w.activities {
        ExtendSpelled(History(w.published, id), w.activities[id].state, a.state);
      }
    }
  }

  lemma SpelledOnce(h: seq<ActivityState>, x: ActivityState, y: ActivityState)
    requires Spelled(h, x) && Spelled(h, y)
    ensures x == y
  {
  }

  /** Storing a changed state without its event leaves a history that no longer ends in it. */
  lemma SilentStoreBreaks(w: World, v: World, id: string)
    requires HistoriesHold(w) && id in w.activities && id in v.activities
    requires v.published == w.published && v.activities[id].state != w.activities[id].state
    ensures !HistoriesHold(v)
  {
    if Spelled(History(v.published, id), v.activities[id].state) {
      SpelledOnce(History(w.published, id), w.activities[id].state, v.activities[id].state);
    }
  }

  /** The blank producer of an update or completion: it is given, not empty, yet white space. */
  predicate BlankSource(change: Change, source: Option<string>)
  {
    !change.Cancel? && S.Blank(ProducerOf(source))
  }

  lemma ChangeIsEdge(a: Activity, change: Change)
    requires Changed(a, change).Ok?
    ensures var b := Changed(a, change).value;
            b.activityId == a.activityId && b.sessionId == a.sessionId && b.state != a.state && Edge(a.state, b.state)
  {
  }

  lemma ReviseKeepsHistories(w: World, id: string, change: Change, source: Option<string>)
    requires Sane(w) && HistoriesHold(w)
    ensures HistoriesHold(ChangeActivity(w, id, change, source).0)
            <==> !(id in w.activities && Changed(w.activities[id], change).Ok? && BlankSource(change, source))
  {
    if id in w.activities && Changed(w.activities[id], change).Ok? {
      var b := Changed(w.activities[id], change).value;
      ChangeIsEdge(w.activities[id], change);
      var producer := if change.Cancel? then SERVER else ProducerOf(source);
      if BlankSource(change, source) {
        SilentStoreBreaks(w, ChangeActivity(w, id, change, source).0, id);
      } else {
        assert SERVER[0] == 'f';
        PairKeepsHistories(w, b, producer);
      }
    }
  }

  /** The result the token meter cannot encode, of an activity that could still be completed. */
  predicate Unmeasured(w: World, ticket: Ticket, end: HandlerEnd)
  {
    && end.Returned? && !end.measurable
    && ticket.activity.activityId in w.activities
    && w.activities[ticket.activity.activityId].state !in TERMINAL
  }

  /** Histories depend on the events and the activities only. */
  lemma SameHistories(w: World, v: World)
    requires v.published == w.published && v.activities == w.activities
    ensures HistoriesHold(v) <==> HistoriesHold(w)
  {
  }

  /** What the end of a start does to activities and events. */
  ghost predicate FinishedParts(w: World, v: World, ticket: Ticket, end: HandlerEnd)
    requires ticket.activity.activityId in w.activities
  {
    var r := FinishedAs(w.activities[ticket.activity.activityId], end);
    if r.Err? then v.published == w.published && v.activities == w.activities
    else if end.Returned? && !end.measurable then
      v.published == w.published && v.activities == w.activities[ticket.activity.activityId := r.value]
    else
      var pair := StoredAndEmitted(w, r.value, ticket.request.ownerEntityId).0;
      v.published == pair.published && v.activities == pair.activities
  }

  lemma FinishHasParts(w: World, ticket: Ticket, end: HandlerEnd)
    requires ticket.activity.activityId in w.activities
    requires w.activities[ticket.activity.activityId].activityId == ticket.activity.activityId
    ensures FinishedParts(w, Finish(w, ticket, end).0, ticket, end)
  {
  }

  lemma FinishedAsIsEdge(a: Activity, end: HandlerEnd)
    requires a.state != Submitted && FinishedAs(a, end).Ok?
    ensures var b := FinishedAs(a, end).value;
            Edge(a.state, b.state) && b.activityId == a.activityId && b.sessionId == a.sessionId
    ensures end.Returned? ==> a.state !in TERMINAL && FinishedAs(a, end).value.state != a.state
  {
  }

  lemma PartsKeepHistories(w: World, v: World, ticket: Ticket, end: HandlerEnd)
    requires Sane(w) && HistoriesHold(w) && ticket in w.waiting && FinishedParts(w, v, ticket, end)
    ensures HistoriesHold(v) <==> !Unmeasured(w, ticket, end)
  {
    var a := w.activities[ticket.activity.activityId];
    var r := FinishedAs(a, end);
    if r.Err? {
      SameHistories(w, v);
    } else {
      FinishedAsIsEdge(a, end);
      if end.Returned? && !end.measurable {
        SilentStoreBreaks(w, v, a.activityId);
      } else {
        PairKeepsHistories(w, r.value, ticket.request.ownerEntityId);
        SameHistories(StoredAndEmitted(w, r.value, ticket.request.ownerEntityId).0, v);
      }
    }
  }

  lemma FinishKeepsHistories(w: World, ticket: Ticket, end: HandlerEnd)
    requires Sane(w) && HistoriesHold(w) && ticket in w.waiting
    ensures HistoriesHold(Finish(w, ticket, end).0) <==> !Unmeasured(w, ticket, end)
  {
    FinishHasParts(w, ticket, end);
    PartsKeepHistories(w, Finish(w, ticket, end).0, ticket, end);
  }

  lemma SubmitKeeps(w: World, req: Request)
    requires Sane(w) && HistoriesHold(w) && req.initiatorEntityId in w.entities
    ensures HistoriesHold(Submit(w, req).0)
  {
    SubmitFrame(w, req);
    if Submit(w, req).1.Ok? {
      PairKeepsHistories(w, NewActivity(req), req.initiatorEntityId);
    }
  }

  lemma ExecuteKeeps(w: World, req: Request)
    requires Sane(w) && HistoriesHold(w) && req.ownerEntityId in w.entities
    requires req.activityId in w.activities && w.activities[req.activityId] == NewActivity(req)
    ensures HistoriesHold(Execute(w, req, NewActivity(req)).0)
  {
    ExecuteFrame(w, req);
    if req.autoExecute && req.operation in w.handlers {
      PairKeepsHistories(w, AsWorking(req), req.ownerEntityId);
    }
  }

  lemma LaunchKeeps(w: World, req: Request)
    requires Sane(w) && HistoriesHold(w)
    requires req.initiatorEntityId in w.entities && req.ownerEntityId in w.entities
    ensures HistoriesHold(Launch(w, req).0)
  {
    SubmitFrame(w, req);
    SubmitKeeps(w, req);
    var (v, r) := Submit(w, req);
    if r.Ok? {
      ExecuteKeeps(v, req);
    }
  }

  lemma BeginKeeps(w: World, req: Request, j: Judgement)
    requires Sane(w) && HistoriesHold(w)
    ensures HistoriesHold(Begin(w, req, j).0)
  {
    if Validated(w, req).Ok? {
      var g := Governed(w, req, j);
      assert Sane(g) && HistoriesHold(g);
      LaunchKeeps(g, req);
    }
  }
}
