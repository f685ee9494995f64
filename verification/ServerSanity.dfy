/** What every call of the server keeps about its records, whatever events it emits or fails to emit. */
module ServerSanity {
  import opened Outcomes
  import opened Activities
  import opened Lifecycle
  import S = Sessions

  ghost predicate SaneActivities(activities: map<string, Activity>)
  {
    forall id | id in activities :: activities[id].activityId == id && !S.Blank(id) && !S.Blank(activities[id].sessionId)
  }

  ghost predicate SaneWaiting(w: World)
  {
    forall t | t in w.waiting ::
      && t.activity.activityId in w.activities && w.activities[t.activity.activityId].state != Submitted
      && w.activities[t.activity.activityId].sessionId == t.request.sessionId
      && t.request.ownerEntityId in w.entities
  }

  /** Records sit under their own id, have usable ids, and nobody waits on an activity still submitted. */
  ghost predicate Sane(w: World)
  {
    && (forall e | e in w.entities :: !S.Blank(e))
    && (forall id | id in w.sessions :: !S.Blank(id))
    && SaneActivities(w.activities)
    && SaneWaiting(w)
  }

  lemma PairFrame(w: World, a: Activity, producer: string)
    ensures var v := StoredAndEmitted(w, a, producer).0;
            v == w.(activities := w.activities[a.activityId := a], published := v.published)
  {
  }

  /** With a usable session and producer, the event of a pair is always emitted. */
  lemma PairSucceeds(w: World, a: Activity, producer: string)
    requires !S.Blank(a.sessionId) && !S.Blank(producer)
    ensures StoredAndEmitted(w, a, producer).1 == Ok(a)
  {
    assert LifecycleType(a.state)[0] == 'a';
  }

  /** Putting back an activity that is no longer merely submitted keeps the server sane. */
  lemma StoreKeepsSane(w: World, v: World, a: Activity)
    requires Sane(w) && a.activityId in w.activities && a.state != Submitted && a.sessionId == w.activities[a.activityId].sessionId
    requires v.activities == w.activities[a.activityId := a]
    requires v.entities == w.entities && v.sessions == w.sessions && v.waiting <= w.waiting
    ensures Sane(v)
  {
  }

  /** The record a finished start leaves in the store, if it changes it. */
  function FinishedAs(a: Activity, end: HandlerEnd): Result<Activity>
  {
    match end
    case Raised(message) => Ok(FailedWith(a, message, map[]))
    case StillWorking => Err(NotFound)
    case Abandoned => Err(InternalError)
    case Returned(payload, ref, _) => CompletedWith(a, Some(payload), ref)
  }

  lemma FinishFrame(w: World, ticket: Ticket, end: HandlerEnd)
    requires ticket.activity.activityId in w.activities
    requires w.activities[ticket.activity.activityId].activityId == ticket.activity.activityId
    ensures var v := Finish(w, ticket, end).0;
            var r := FinishedAs(w.activities[ticket.activity.activityId], end);
            && v.activities == (if r.Ok? then w.activities[ticket.activity.activityId := r.value] else w.activities)
            && v.entities == w.entities && v.sessions == w.sessions && v.waiting == w.waiting - {ticket}
  {
    var a := w.activities[ticket.activity.activityId];
    var r := FinishedAs(a, end);
    if r.Ok? {
      PairFrame(w.(waiting := w.waiting - {ticket}), r.value, ticket.request.ownerEntityId);
    }
  }

  lemma FinishKeepsSane(w: World, ticket: Ticket, end: HandlerEnd)
    requires Sane(w) && ticket in w.waiting
    ensures Sane(Finish(w, ticket, end).0)
  {
    FinishFrame(w, ticket, end);
    var r := FinishedAs(w.activities[ticket.activity.activityId], end);
    if r.Ok? {
      StoreKeepsSane(w, Finish(w, ticket, end).0, r.value);
    }
  }

  lemma ChangeKeepsSane(w: World, id: string, change: Change, source: Option<string>)
    requires Sane(w)
    ensures Sane(ChangeActivity(w, id, change, source).0)
  {
    if id in w.activities && Changed(w.activities[id], change).Ok? {
      var b := Changed(w.activities[id], change).value;
      PairFrame(w, b, if change.Cancel? then SERVER else ProducerOf(source));
      StoreKeepsSane(w, ChangeActivity(w, id, change, source).0, b);
    }
  }

  /** A submission is refused and changes nothing, or stores the new activity and emits its event. */
  lemma SubmitFrame(w: World, req: Request)
    requires Sane(w) && req.initiatorEntityId in w.entities
    ensures var (v, r) := Submit(w, req);
            && Sane(v)
            && (r.Err? ==> v == w)
            && (r.Ok? ==> v == w.(activities := w.activities[req.activityId := NewActivity(req)], published := v.published)
                          && r.value == NewActivity(req) && req.activityId !in w.activities
                          && !S.Blank(req.activityId) && !S.Blank(req.sessionId))
  {
    var created := StartedWith(w.activities, NewActivity(req)).1;
    if created.Ok? {
      PairSucceeds(w, created.value, req.initiatorEntityId);
      PairFrame(w, created.value, req.initiatorEntityId);
    }
  }

  function AsWorking(req: Request): Activity
  {
    NewActivity(req).(state := Working)
  }

  lemma WorkingIsStored(w: World, req: Request)
    requires !S.Blank(req.sessionId) && !S.Blank(req.ownerEntityId) && req.autoExecute && req.operation in w.handlers
    ensures var (v, r) := Execute(w, req, NewActivity(req));
            var ticket := Ticket(req, AsWorking(req));
            && r == Awaiting(ticket)
            && v == StoredAndEmitted(w, AsWorking(req), req.ownerEntityId).0.(waiting := w.waiting + {ticket})
  {
    assert req.inputPayload + map[] == req.inputPayload;
    assert Transitioned(NewActivity(req), Working, None, map[]) == Ok(AsWorking(req));
    PairSucceeds(w, AsWorking(req), req.ownerEntityId);
    PairFrame(w, AsWorking(req), req.ownerEntityId);
  }

  /** Executing a fresh submission always succeeds: it settles, or works and awaits its handler. */
  lemma ExecuteFrame(w: World, req: Request)
    requires Sane(w) && req.ownerEntityId in w.entities
    requires req.activityId in w.activities && w.activities[req.activityId] == NewActivity(req)
    ensures var (v, r) := Execute(w, req, NewActivity(req));
            var ticket := Ticket(req, AsWorking(req));
            && Sane(v)
            && if !req.autoExecute || req.operation !in w.handlers
               then v == Remembered(w, req, NewActivity(req)) && r == Settled(NewActivity(req))
               else v == w.(activities := w.activities[req.activityId := AsWorking(req)], published := v.published, waiting := w.waiting + {ticket})
                    && StoredAndEmitted(w, AsWorking(req), req.ownerEntityId).0 == v.(waiting := w.waiting)
                    && r == Awaiting(ticket)
  {
    if req.autoExecute && req.operation in w.handlers {
      WorkingIsStored(w, req);
      PairFrame(w, AsWorking(req), req.ownerEntityId);
    }
  }

  /** The two sane intermediate states of a launch. */
  lemma LaunchKeepsSane(w: World, req: Request)
    requires Sane(w) && req.initiatorEntityId in w.entities && req.ownerEntityId in w.entities
    ensures var (v, r) := Launch(w, req);
            Sane(v) && (r.Awaiting? ==> r.ticket == Ticket(req, AsWorking(req)) && r.ticket in v.waiting)
  {
    SubmitFrame(w, req);
    var (v, r) := Submit(w, req);
    if r.Ok? {
      ExecuteFrame(v, req);
    }
  }

  lemma BeginKeepsSane(w: World, req: Request, j: Judgement)
    requires Sane(w)
    ensures var (v, r) := Begin(w, req, j);
            Sane(v) && (r.Awaiting? ==> r.ticket == Ticket(req, AsWorking(req)) && r.ticket in v.waiting)
  {
    if Validated(w, req).Ok? {
      assert Sane(Governed(w, req, j));
      LaunchKeepsSane(Governed(w, req, j), req);
    }
  }

  lemma StartEndsAsFinish(w: World, req: Request, j: Judgement, end: HandlerEnd)
    ensures var (v, r) := Begin(w, req, j);
            SyncStart(w, req, j, end).0 == if r.Awaiting? then Finish(v, r.ticket, end).0 else v
  {
  }

  lemma BegunKeepsSane(u: World, v: World, r: Started, end: HandlerEnd)
    requires Sane(v) && (r.Awaiting? ==> r.ticket in v.waiting)
    requires u == if r.Awaiting? then Finish(v, r.ticket, end).0 else v
    ensures Sane(u)
  {
    if r.Awaiting? {
      FinishKeepsSane(v, r.ticket, end);
    }
  }

  lemma StartKeepsSane(w: World, req: Request, j: Judgement, end: HandlerEnd)
    requires Sane(w)
    ensures Sane(SyncStart(w, req, j, end).0)
  {
    StartEndsAsFinish(w, req, j, end);
    BeginKeepsSane(w, req, j);
    BegunKeepsSane(SyncStart(w, req, j, end).0, Begin(w, req, j).0, Begin(w, req, j).1, end);
  }

  lemma StepKeepsSane(w: World, op: Op)
    requires Sane(w)
    ensures Sane(Step(w, op))
  {
    match op
    case Start(req, j, end) => StartKeepsSane(w, req, j, end);
    case BeginStart(req, j) => BeginKeepsSane(w, req, j);
    case FinishStart(ticket, end) => if ticket in w.waiting { FinishKeepsSane(w, ticket, end); }
    case Revise(id, change, source) => ChangeKeepsSane(w, id, change, source);
    case _ =>
  }

  /** In every run, whatever it emits, skips or forges. */
  lemma {:induction false} RunKeepsSane(w: World, ops: seq<Op>)
    requires Sane(w)
    ensures Sane(Run(w, ops))
    decreases |ops|
  {
    if ops != [] {
      StepKeepsSane(w, ops[0]);
      RunKeepsSane(Step(w, ops[0]), ops[1..]);
    }
  }

  /** A start that has to wait for its handler leaves its activity working. */
  lemma AwaitingIsWorking(w: World, req: Request, j: Judgement)
    requires Begin(w, req, j).1.Awaiting?
    ensures var (v, r) := Begin(w, req, j);
            && r.ticket in v.waiting && r.ticket.activity.activityId == req.activityId
            && req.activityId in v.activities && v.activities[req.activityId].state == Working
            && v.activities[req.activityId].sessionId == r.ticket.request.sessionId
  {
  }

  lemma EmptyServerIsSane()
    ensures Sane(EMPTY)
  {
  }
}
