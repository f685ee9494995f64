/** The server's own events, seen through the event engine: clean logs, and subscribers that miss nothing. */
module ServerStreams {
  import opened Outcomes
  import opened Events
  import opened EventStores
  import opened EventEngine
  import opened EventLogs
  import opened Decimal
  import opened Activities
  import opened Lifecycle
  import opened ServerSanity
  import R = EventRuns
  import B = Backpressure
  import S = Sessions

  /** Events are numbered through. */
  ghost predicate Numbered(published: seq<Event>)
  {
    forall i | 0 <= i < |published| :: published[i].eventId == EventId(i)
  }

  lemma EmitKeepsNumbered(w: World, eventType: string, session: string, activity: Option<string>, producer: string)
    requires Numbered(w.published)
    ensures Numbered(Emitted(w, eventType, session, activity, producer).0.published)
  {
  }

  lemma PairKeepsNumbered(w: World, a: Activity, producer: string)
    requires Numbered(w.published)
    ensures Numbered(StoredAndEmitted(w, a, producer).0.published)
  {
    EmitKeepsNumbered(w.(activities := w.activities[a.activityId := a]), LifecycleType(a.state), a.sessionId, Some(a.activityId), producer);
  }

  lemma LaunchKeepsNumbered(w: World, req: Request)
    requires Numbered(w.published)
    ensures Numbered(Launch(w, req).0.published)
  {
    PairKeepsNumbered(w, NewActivity(req), req.initiatorEntityId);
    var (v, r) := Submit(w, req);
    if r.Ok? {
      PairKeepsNumbered(v, Transitioned(r.value, Working, None, map[]).value, req.ownerEntityId);
    }
  }

  lemma BeginKeepsNumbered(w: World, req: Request, j: Judgement)
    requires Numbered(w.published)
    ensures Numbered(Begin(w, req, j).0.published)
  {
    LaunchKeepsNumbered(Governed(w, req, j), req);
  }

  lemma FinishKeepsNumbered(w: World, ticket: Ticket, end: HandlerEnd)
    requires Numbered(w.published)
    ensures Numbered(Finish(w, ticket, end).0.published)
  {
    var resumed := w.(waiting := w.waiting - {ticket});
    if ticket.activity.activityId in w.activities && FinishedAs(w.activities[ticket.activity.activityId], end).Ok? {
      PairKeepsNumbered(resumed, FinishedAs(w.activities[ticket.activity.activityId], end).value, ticket.request.ownerEntityId);
    }
  }

  lemma StartKeepsNumbered(w: World, req: Request, j: Judgement, end: HandlerEnd)
    requires Numbered(w.published)
    ensures Numbered(SyncStart(w, req, j, end).0.published)
  {
    BeginKeepsNumbered(w, req, j);
    var (v, r) := Begin(w, req, j);
    if r.Awaiting? {
      FinishKeepsNumbered(v, r.ticket, end);
    }
  }

  lemma ChangeKeepsNumbered(w: World, id: string, change: Change, source: Option<string>)
    requires Numbered(w.published)
    ensures Numbered(ChangeActivity(w, id, change, source).0.published)
  {
    if id in w.activities && Changed(w.activities[id], change).Ok? {
      PairKeepsNumbered(w, Changed(w.activities[id], change).value, if change.Cancel? then SERVER else ProducerOf(source));
    }
  }

  lemma SessionStepKeepsNumbered(w: World, call: S.Call)
    requires Numbered(w.published)
    ensures Numbered(SessionStep(w, call).0.published)
  {
    var (eventType, producer) := SessionEvent(call);
    EmitKeepsNumbered(w.(sessions := S.Apply(w.sessions, call).0), eventType, call.id, None, producer);
  }

  lemma StepKeepsNumbered(w: World, op: Op)
    requires Numbered(w.published)
    ensures Numbered(Step(w, op).published)
  {
    match op
    case OnSession(call) => SessionStepKeepsNumbered(w, call);
    case PublicEmit(eventType, session, activity, producer) => EmitKeepsNumbered(w, eventType, session, activity, producer);
    case Start(req, j, end) => StartKeepsNumbered(w, req, j, end);
    case BeginStart(req, j) => BeginKeepsNumbered(w, req, j);
    case FinishStart(ticket, end) => FinishKeepsNumbered(w, ticket, end);
    case Revise(id, change, source) => ChangeKeepsNumbered(w, id, change, source);
    case Record(_) =>
    case RegisterEntity(_) =>
    case RegisterHandler(_) =>
  }

  lemma {:induction false} RunKeepsNumbered(w: World, ops: seq<Op>)
    requires Numbered(w.published)
    ensures Numbered(Run(w, ops).published)
    decreases |ops|
  {
    if ops != [] {
      StepKeepsNumbered(w, ops[0]);
      RunKeepsNumbered(Step(w, ops[0]), ops[1..]);
    }
  }

  lemma NumberedIsClean(events: seq<Event>)
    requires Numbered(events)
    ensures UniqueIds(events) && forall e | e in events :: e.eventId != ""
  {
    forall i, j | 0 <= i < j < |events|
      ensures events[i].eventId != events[j].eventId
    {
      DigitsInjective(i, j);
      assert EventId(i)[4..] == Digits(i) && EventId(j)[4..] == Digits(j);
    }
  }

  lemma {:induction false} FiledFrom(events: seq<Event>, key: string)
    ensures forall e | e in FiledAll(events, key) :: e in events
  {
    if events != [] {
      FiledFrom(events[1..], key);
    }
  }

  /**
   After every run of the server, whatever the calls, every log of its events has distinct and
   non-empty ids if and only if nothing was published about an activity called `*`.
   */
  lemma ServerLogsAreClean(ops: seq<Op>)
    ensures var events := Run(EMPTY, ops).published;
            (forall key :: R.Clean(LogOf(PublishAll(map[], events), key))) <==> (forall e | e in events :: !NamesWildcard(e))
  {
    var events := Run(EMPTY, ops).published;
    RunKeepsNumbered(EMPTY, ops);
    NumberedIsClean(events);
    LogIdsStayUniqueIffNoWildcard(events);
    forall key
      ensures forall e | e in LogOf(PublishAll(map[], events), key) :: e.eventId != ""
    {
      FreshLogsHoldFiledEvents(events, key);
      FiledFrom(events, key);
    }
  }

  /** What the calls of an engine run publish. */
  function PublishedIn(calls: seq<R.Op>): seq<Event>
  {
    if calls == [] then [] else (if calls[0].Publish? then [calls[0].event] else []) + PublishedIn(calls[1..])
  }

  lemma CallFiles(s: EngineState, call: R.Op, rest: seq<Event>)
    ensures var now := if call.Publish? then [call.event] else [];
            PublishAll(R.Step(s, call).0.logs, rest) == PublishAll(s.logs, now + rest)
  {
    if call.Publish? {
      assert ([call.event] + rest)[1..] == rest;
    } else {
      assert [] + rest == rest;
    }
  }

  lemma {:induction false} RunFiles(s: EngineState, calls: seq<R.Op>)
    ensures R.Run(s, calls).logs == PublishAll(s.logs, PublishedIn(calls))
    decreases |calls|
  {
    if calls != [] {
      RunFiles(R.Step(s, calls[0]).0, calls[1..]);
      CallFiles(s, calls[0], PublishedIn(calls[1..]));
    }
  }

  lemma {:induction false} RunJoin(s: EngineState, x: seq<R.Op>, y: seq<R.Op>)
    ensures R.Run(s, x + y) == R.Run(R.Run(s, x), y)
    decreases |x|
  {
    if x == [] {
      assert x + y == y;
    } else {
      assert (x + y)[1..] == x[1..] + y;
      RunJoin(R.Step(s, x[0]).0, x[1..], y);
    }
  }

  /**
   A subscriber of the server's events misses nothing and sees nothing twice: in any engine run that
   publishes what some server run emitted, with any other calls mixed in, a stream opened without a
   cursor and not resubscribed reads its log from the first event on without gap or duplicate.
   */
  lemma SubscriberMissesNothing(ops: seq<Op>, window: int, before: seq<R.Op>, id: string, session: string, activity: Option<string>,
                                after: seq<R.Op>)
    requires PublishedIn(before + [R.Open(id, session, activity, None)] + after) == Run(EMPTY, ops).published
    requires forall e | e in Run(EMPTY, ops).published :: !NamesWildcard(e)
    requires id !in R.Run(B.Idle(window), before).streams
    requires forall call | call in after :: !(call.Resubscribe? && call.id == id)
    ensures var begun := R.Step(R.Run(B.Idle(window), before), R.Open(id, session, activity, None)).0;
            var end := R.Run(begun, after);
            R.OnLog(end, id) && R.Received(begun, after, id) == R.StreamLog(end, id)[..R.Position(end, id)]
  {
    var opening := R.Open(id, session, activity, None);
    var s := R.Run(B.Idle(window), before);
    var begun := R.Step(s, opening).0;
    RunFiles(B.Idle(window), before + [opening] + after);
    RunJoin(B.Idle(window), before + [opening], after);
    RunJoin(B.Idle(window), before, [opening]);
    assert R.Run(s, [opening]) == R.Run(begun, []) == begun;
    ServerLogsAreClean(ops);
    R.RunGrows(begun, after, id);
    R.OpenedReadsFromTheStart(s, id, session, activity, after);
  }
}
