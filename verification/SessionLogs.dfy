/** The history of an activity can be read off its session's stream. */
module SessionLogs {
  import opened Outcomes
  import opened Events
  import opened EventStores
  import opened EventLogs
  import opened Activities
  import opened Sequences
  import opened Lifecycle
  import opened LifecycleHistory
  import opened LifecycleRuns
  import opened ServerSanity
  import S = Sessions

  /** A lifecycle event is about a stored activity, and lies in that activity's session. */
  ghost predicate InOwnSession(e: Event, activities: map<string, Activity>)
  {
    Truthy(e.activityId) && IsLifecycleType(e.eventType) ==>
      e.activityId.value in activities && activities[e.activityId.value].sessionId == e.sessionId
  }

  /** Lifecycle events lie in their activity's session. */
  ghost predicate Regular(w: World)
  {
    forall e | e in w.published :: InOwnSession(e, w.activities)
  }

  lemma PairKeepsRegular(w: World, a: Activity, producer: string)
    requires Regular(w)
    requires a.activityId in w.activities ==> w.activities[a.activityId].sessionId == a.sessionId
    ensures Regular(StoredAndEmitted(w, a, producer).0)
  {
    var stored := w.(activities := w.activities[a.activityId := a]);
  }

  lemma FinishKeepsRegular(w: World, ticket: Ticket, end: HandlerEnd)
    requires Sane(w) && Regular(w) && ticket in w.waiting
    ensures Regular(Finish(w, ticket, end).0)
  {
    var a := w.activities[ticket.activity.activityId];
    var r := FinishedAs(a, end);
    var resumed := w.(waiting := w.waiting - {ticket});
    if r.Ok? {
      PairKeepsRegular(resumed, r.value, ticket.request.ownerEntityId);
    }
  }

  lemma LaunchKeepsRegular(w: World, req: Request)
    requires Regular(w)
    ensures Regular(Launch(w, req).0)
  {
    var (v, r) := Submit(w, req);
    if StartedWith(w.activities, NewActivity(req)).1.Ok? {
      PairKeepsRegular(w, NewActivity(req), req.initiatorEntityId);
    }
    if r.Ok? {
      PairFrame(w, NewActivity(req), req.initiatorEntityId);
      var working := Transitioned(NewActivity(req), Working, None, map[]).value;
      PairKeepsRegular(v, working, req.ownerEntityId);
    }
  }

  lemma BeginKeepsRegular(w: World, req: Request, j: Judgement)
    requires Regular(w)
    ensures Regular(Begin(w, req, j).0)
  {
    var g := Governed(w, req, j);
    assert Regular(g);
    LaunchKeepsRegular(g, req);
  }

  lemma StepKeepsRegular(w: World, op: Op)
    requires Sane(w) && Regular(w) && NoForgery(op)
    ensures Regular(Step(w, op))
  {
    match op
    case OnSession(call) => SessionStepKeepsRegular(w, call);
    case Start(req, j, end) => StartKeepsRegular(w, req, j, end);
    case BeginStart(req, j) => BeginKeepsRegular(w, req, j);
    case FinishStart(ticket, end) => if ticket in w.waiting { FinishKeepsRegular(w, ticket, end); }
    case Revise(id, change, source) => ReviseKeepsRegular(w, id, change, source);
    case _ =>
  }

  lemma SessionStepKeepsRegular(w: World, call: S.Call)
    requires Regular(w)
    ensures Regular(SessionStep(w, call).0)
  {
    var (sessions, r) := S.Apply(w.sessions, call);
    var (eventType, producer) := SessionEvent(call);
  }

  lemma StartKeepsRegular(w: World, req: Request, j: Judgement, end: HandlerEnd)
    requires Sane(w) && Regular(w)
    ensures Regular(SyncStart(w, req, j, end).0)
  {
    BeginKeepsRegular(w, req, j);
    BeginKeepsSane(w, req, j);
    var (v, r) := Begin(w, req, j);
    if r.Awaiting? {
      FinishKeepsRegular(v, r.ticket, end);
    }
  }

  lemma ReviseKeepsRegular(w: World, id: string, change: Change, source: Option<string>)
    requires Sane(w) && Regular(w)
    ensures Regular(ChangeActivity(w, id, change, source).0)
  {
    if id in w.activities && Changed(w.activities[id], change).Ok? {
      PairKeepsRegular(w, Changed(w.activities[id], change).value, if change.Cancel? then SERVER else ProducerOf(source));
    }
  }

  lemma {:induction false} RunKeepsRegular(w: World, ops: seq<Op>)
    requires Sane(w) && Regular(w) && forall op | op in ops :: NoForgery(op)
    ensures Regular(Run(w, ops))
    decreases |ops|
  {
    if ops != [] {
      assert ops[0] in ops;
      StepKeepsRegular(w, ops[0]);
      StepKeepsSane(w, ops[0]);
      RunKeepsRegular(Step(w, ops[0]), ops[1..]);
    }
  }

  lemma {:induction false} CleanRunForgesNothing(w: World, ops: seq<Op>)
    requires CleanRun(w, ops)
    ensures forall op | op in ops :: NoForgery(op)
    decreases |ops|
  {
    if ops != [] {
      CleanRunForgesNothing(Step(w, ops[0]), ops[1..]);
    }
  }

  lemma {:induction false} HistoryJoin(x: seq<Event>, y: seq<Event>, id: string)
    ensures History(x + y, id) == History(x, id) + History(y, id)
    decreases |y|
  {
    if y == [] {
      assert x + y == x;
      RightUnit(History(x, id));
    } else {
      var init, e := y[..|y| - 1], y[|y| - 1];
      assert y == init + [e] && x + y == (x + init) + [e];
      HistoryJoin(x, init, id);
      HistorySnoc(init, e, id);
      HistorySnoc(x + init, e, id);
      Associate(History(x, id), History(init, id), if About(e, id) then [Announced(e)] else []);
    }
  }

  /** The history with every state written twice. */
  function Doubled(h: seq<ActivityState>): seq<ActivityState>
  {
    if h == [] then [] else [h[0], h[0]] + Doubled(h[1..])
  }

  lemma DoubledIsNotSpelled(h: seq<ActivityState>, last: ActivityState)
    requires h != [] && h[0] == Submitted
    ensures !Spelled(Doubled(h), last)
  {
    assert Doubled(h)[0] == Submitted && Doubled(h)[1] == Submitted;
    assert !Edge(Submitted, Submitted);
  }

  lemma HistoryOfOne(e: Event, id: string)
    ensures History([e], id) == if About(e, id) then [Announced(e)] else []
  {
    assert [e][..0] == [];
  }

  /** What one event adds to the history read off its own session's log. */
  lemma FiledHistory(e: Event, session: string, id: string)
    requires id != "" && (About(e, id) ==> e.sessionId == session)
    ensures var filed := History(Filed(e, StreamKey(session, None)), id);
            filed == if id == "*" then Doubled(History([e], id)) else History([e], id)
  {
    HistoryOfOne(e, id);
    if About(e, id) {
      JoinedSameSession(session, id, "*");
      if id == "*" {
        assert Filed(e, StreamKey(session, None)) == [e] + [e];
        HistoryJoin([e], [e], id);
        assert Doubled([Announced(e)]) == [Announced(e), Announced(e)];
      } else {
        RightUnit([e]);
      }
    } else if Filed(e, StreamKey(session, None)) == [e] + [e] {
      HistoryJoin([e], [e], id);
    }
  }

  lemma {:induction false} DoubledJoin(x: seq<ActivityState>, y: seq<ActivityState>)
    ensures Doubled(x + y) == Doubled(x) + Doubled(y)
  {
    if x == [] {
      assert x + y == y;
    } else {
      DoubledJoin(x[1..], y);
      assert (x + y)[1..] == x[1..] + y;
    }
  }

  /** Other sessions' events, and misfiled ones, leave the history in the session's log alone; only the name `*` doubles it. */
  lemma {:induction false} LogHistory(events: seq<Event>, session: string, id: string)
    requires id != "" && forall e | e in events && About(e, id) :: e.sessionId == session
    ensures History(FiledAll(events, StreamKey(session, None)), id)
            == if id == "*" then Doubled(History(events, id)) else History(events, id)
  {
    if events != [] {
      var key := StreamKey(session, None);
      assert events == [events[0]] + events[1..];
      LogHistory(events[1..], session, id);
      HistoryJoin(Filed(events[0], key), FiledAll(events[1..], key), id);
      HistoryJoin([events[0]], events[1..], id);
      FiledHistory(events[0], session, id);
      DoubledJoin(History([events[0]], id), History(events[1..], id));
    }
  }

  lemma StreamSpellsHistory(w: World, id: string)
    requires Sane(w) && HistoriesHold(w) && Regular(w) && id in w.activities
    ensures var log := LogOf(PublishAll(map[], w.published), StreamKey(w.activities[id].sessionId, None));
            Spelled(History(log, id), w.activities[id].state) <==> id != "*"
  {
    var session := w.activities[id].sessionId;
    FreshLogsHoldFiledEvents(w.published, StreamKey(session, None));
    LogHistory(w.published, session, id);
    if id == "*" {
      DoubledIsNotSpelled(History(w.published, id), w.activities[id].state);
    }
  }

  /**
   After every clean run from the empty server, the session stream of an activity, as the event
   engine stores it, spells the activity's history (submitted first, allowed edges, the stored state
   last) if and only if the activity is not called `*`: whatever else is filed in that stream, only
   that name collides with the session's own key.
   */
  lemma SessionStreamSpellsHistory(ops: seq<Op>, id: string)
    requires CleanRun(EMPTY, ops) && id in Run(EMPTY, ops).activities
    ensures var w := Run(EMPTY, ops);
            var log := LogOf(PublishAll(map[], w.published), StreamKey(w.activities[id].sessionId, None));
            Spelled(History(log, id), w.activities[id].state) <==> id != "*"
  {
    EmptyServerIsSane();
    RunKeepsSane(EMPTY, ops);
    HistoriesHoldInEveryRun(EMPTY, ops);
    CleanRunForgesNothing(EMPTY, ops);
    RunKeepsRegular(EMPTY, ops);
    StreamSpellsHistory(Run(EMPTY, ops), id);
  }
}
