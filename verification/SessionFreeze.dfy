/** Once a session has ended, its record and the set of its activities no longer change. */
module SessionFreeze {
  import opened Outcomes
  import opened Activities
  import opened Lifecycle
  import opened ServerSanity
  import S = Sessions

  function ActivitiesOf(w: World, session: string): set<string>
  {
    set id | id in w.activities && w.activities[id].sessionId == session
  }

  predicate EndedIn(w: World, session: string)
  {
    session in w.sessions && S.Ended(w.sessions[session])
  }

  /** The step left the session's record and its activities' membership alone. */
  predicate Frozen(w: World, v: World, session: string)
  {
    session in v.sessions && session in w.sessions && v.sessions[session] == w.sessions[session]
    && ActivitiesOf(v, session) == ActivitiesOf(w, session)
  }

  lemma PutBackKeepsMembership(w: World, v: World, a: Activity, session: string)
    requires a.activityId in w.activities && w.activities[a.activityId].sessionId == a.sessionId
    requires v.activities == w.activities[a.activityId := a]
    ensures ActivitiesOf(v, session) == ActivitiesOf(w, session)
  {
  }

  lemma ReviseFreezes(w: World, id: string, change: Change, source: Option<string>, session: string)
    requires Sane(w) && EndedIn(w, session)
    ensures Frozen(w, ChangeActivity(w, id, change, source).0, session)
  {
    if id in w.activities && Changed(w.activities[id], change).Ok? {
      var b := Changed(w.activities[id], change).value;
      PairFrame(w, b, if change.Cancel? then SERVER else ProducerOf(source));
      PutBackKeepsMembership(w, ChangeActivity(w, id, change, source).0, b, session);
    }
  }

  lemma FinishFreezes(w: World, ticket: Ticket, end: HandlerEnd, session: string)
    requires Sane(w) && ticket in w.waiting && session in w.sessions
    ensures Frozen(w, Finish(w, ticket, end).0, session)
  {
    FinishFrame(w, ticket, end);
    var r := FinishedAs(w.activities[ticket.activity.activityId], end);
    if r.Ok? {
      PutBackKeepsMembership(w, Finish(w, ticket, end).0, r.value, session);
    }
  }

  lemma ExecuteFreezes(w: World, req: Request, session: string)
    requires req.activityId in w.activities && w.activities[req.activityId] == NewActivity(req)
    requires session in w.sessions
    ensures Frozen(w, Execute(w, req, NewActivity(req)).0, session)
  {
    var working := NewActivity(req).(state := Working);
    PairFrame(w, working, req.ownerEntityId);
    PutBackKeepsMembership(w, StoredAndEmitted(w, working, req.ownerEntityId).0, working, session);
  }

  /** A start in an active session adds no activity to an ended one. */
  lemma BeginFreezes(w: World, req: Request, j: Judgement, session: string)
    requires EndedIn(w, session)
    ensures Frozen(w, Begin(w, req, j).0, session)
  {
    if Validated(w, req).Ok? {
      var g := Governed(w, req, j);
      assert req.sessionId != session;
      var (v, r) := Submit(g, req);
      PairFrame(g, NewActivity(req), req.initiatorEntityId);
      assert ActivitiesOf(v, session) == ActivitiesOf(w, session);
      if r.Ok? {
        ExecuteFreezes(v, req, session);
      }
    }
  }

  lemma SessionStepFreezes(w: World, call: S.Call, session: string)
    requires EndedIn(w, session)
    ensures Frozen(w, SessionStep(w, call).0, session)
  {
  }

  lemma StartFreezes(w: World, req: Request, j: Judgement, end: HandlerEnd, session: string)
    requires Sane(w) && EndedIn(w, session)
    ensures Frozen(w, SyncStart(w, req, j, end).0, session)
  {
    StartEndsAsFinish(w, req, j, end);
    BeginFreezes(w, req, j, session);
    BeginKeepsSane(w, req, j);
    BegunFreezes(w, SyncStart(w, req, j, end).0, Begin(w, req, j).0, Begin(w, req, j).1, end, session);
  }

  lemma BegunFreezes(w: World, u: World, v: World, r: Started, end: HandlerEnd, session: string)
    requires Sane(v) && Frozen(w, v, session) && (r.Awaiting? ==> r.ticket in v.waiting)
    requires u == if r.Awaiting? then Finish(v, r.ticket, end).0 else v
    ensures Frozen(w, u, session)
  {
    if r.Awaiting? {
      FinishFreezes(v, r.ticket, end, session);
    }
  }

  /** Whatever the call, and whether or not it is accepted. */
  lemma EndedSessionIsFrozen(w: World, op: Op, session: string)
    requires Sane(w) && EndedIn(w, session)
    ensures Frozen(w, Step(w, op), session)
  {
    match op
    case OnSession(call) => SessionStepFreezes(w, call, session);
    case Start(req, j, end) => StartFreezes(w, req, j, end, session);
    case BeginStart(req, j) => BeginFreezes(w, req, j, session);
    case FinishStart(ticket, end) =>
      if ticket in w.waiting {
        FinishFreezes(w, ticket, end, session);
      }
    case Revise(id, change, source) => ReviseFreezes(w, id, change, source, session);
    case _ =>
  }

  /** Over any run, events skipped or forged included. */
  lemma {:induction false} EndedSessionStaysFrozen(w: World, ops: seq<Op>, session: string)
    requires Sane(w) && EndedIn(w, session)
    ensures Frozen(w, Run(w, ops), session)
    decreases |ops|
  {
    if ops != [] {
      EndedSessionIsFrozen(w, ops[0], session);
      StepKeepsSane(w, ops[0]);
      EndedSessionStaysFrozen(Step(w, ops[0]), ops[1..], session);
    }
  }
}
