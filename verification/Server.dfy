/** The server object: the orchestrated start, and the explicit activity calls, step by step as the code takes them. */
module Server {
  import opened Outcomes
  import opened Json
  import opened Events
  import opened Activities
  import opened Lifecycle
  import opened Idempotency
  import opened ServerSanity
  import S = Sessions

  class FPServer {
    const sessions: S.SessionEngine
    const activities: ActivityEngine
    const idempotency: IdempotencyGuard
    var entities: set<string>
    var handlers: set<string>
    var published: seq<Event>
    var provenance: seq<Provenance>
    var waiting: set<Ticket>

    constructor (sessions: S.SessionEngine, activities: ActivityEngine, idempotency: IdempotencyGuard)
      requires activities.Valid() && sessions.store == map[] && activities.store.items == map[] && idempotency.cache == map[]
      ensures this.sessions == sessions && this.activities == activities && this.idempotency == idempotency
      ensures Valid() && State() == EMPTY
    {
      this.sessions, this.activities, this.idempotency := sessions, activities, idempotency;
      entities, handlers, published, provenance, waiting := {}, {}, [], [], {};
    }

    function State(): World
      reads this, sessions, activities, activities.store, idempotency
    {
      World(entities, handlers, sessions.store, activities.store.items, published, idempotency.cache, provenance, waiting)
    }

    ghost predicate Valid()
      reads this, activities, activities.store
    {
      activities.Valid()
    }

    method EmitEvent(eventType: string, session: string, activity: Option<string>, producer: string) returns (r: Result<()>)
      requires Valid()
      modifies this
      ensures Valid()
      ensures (State(), r) == Emitted(old(State()), eventType, session, activity, producer)
    {
      if S.Blank(eventType) || S.Blank(session) || S.Blank(producer) {
        return Err(InvalidArgument);
      }
      published := published + [Event(EventId(|published|), eventType, session, activity, producer, map[])];
      r := Ok(());
    }

    /** The event that follows an accepted session call; `before` is the server as it was before the call. */
    method EmitSession(call: S.Call, updated: Result<S.Session>, ghost before: World) returns (r: Result<S.Session>)
      requires Valid()
      requires State() == before.(sessions := sessions.store) && (updated.Err? ==> sessions.store == before.sessions)
      modifies this
      ensures Valid()
      ensures (State(), r) == AnnouncedCall(before, call, (old(sessions.store), updated))
    {
      if updated.Err? {
        return updated;
      }
      var (eventType, producer) := SessionEvent(call);
      var emitted := EmitEvent(eventType, call.id, None, producer);
      r := if emitted.Ok? then updated else Err(emitted.code);
    }

    method CreateSession(id: string, participants: set<string>, roles: map<string, set<string>>, policyRef: Option<string>, budget: S.Budget)
      returns (r: Result<S.Session>)
      requires Valid()
      modifies this, sessions
      ensures Valid()
      ensures (State(), r) == SessionStep(old(State()), S.Create(id, participants, roles, policyRef, budget, map[]))
    {
      if participants - entities != {} {
        return Err(NotFound);
      }
      var created := sessions.CreateSession(id, participants, roles, policyRef, budget, map[]);
      r := EmitSession(S.Create(id, participants, roles, policyRef, budget, map[]), created, old(State()));
    }

    method JoinSession(id: string, entity: string, roles: Option<set<string>>) returns (r: Result<S.Session>)
      requires Valid()
      modifies this, sessions
      ensures Valid()
      ensures (State(), r) == SessionStep(old(State()), S.Join(id, entity, roles))
    {
      if entity !in entities {
        assert entity in {entity} - entities;
        return Err(NotFound);
      }
      var updated := sessions.JoinSession(id, entity, roles);
      r := EmitSession(S.Join(id, entity, roles), updated, old(State()));
    }

    /** Leaving asks for no known entity. */
    method LeaveSession(id: string, entity: string) returns (r: Result<S.Session>)
      requires Valid()
      modifies this, sessions
      ensures Valid()
      ensures (State(), r) == SessionStep(old(State()), S.Leave(id, entity))
    {
      var updated := sessions.LeaveSession(id, entity);
      r := EmitSession(S.Leave(id, entity), updated, old(State()));
    }

    method UpdateSession(id: string, policyRef: Option<string>, budget: Option<S.Budget>, state: Option<S.SessionState>,
                         rolesPatch: map<string, set<string>>)
      returns (r: Result<S.Session>)
      requires Valid()
      modifies this, sessions
      ensures Valid()
      ensures (State(), r) == SessionStep(old(State()), S.Update(id, policyRef, budget, state, rolesPatch))
    {
      if rolesPatch.Keys - entities != {} {
        return Err(NotFound);
      }
      var updated := sessions.UpdateSession(id, policyRef, budget, state, rolesPatch);
      r := EmitSession(S.Update(id, policyRef, budget, state, rolesPatch), updated, old(State()));
    }

    method CloseSession(id: string, reason: Option<string>) returns (r: Result<S.Session>)
      requires Valid()
      modifies this, sessions
      ensures Valid()
      ensures (State(), r) == SessionStep(old(State()), S.Close(id, reason))
    {
      var updated := sessions.CloseSession(id, reason);
      r := EmitSession(S.Close(id, reason), updated, old(State()));
    }

    /** The event that follows a stored state; `before` is the server as it was before the store. */
    method EmitState(a: Activity, producer: string, ghost before: World) returns (r: Result<Activity>)
      requires Valid()
      requires State() == before.(activities := before.activities[a.activityId := a])
      modifies this
      ensures Valid()
      ensures (State(), r) == StoredAndEmitted(before, a, producer)
    {
      var emitted := EmitEvent(LifecycleType(a.state), a.sessionId, Some(a.activityId), producer);
      r := if emitted.Ok? then Ok(a) else Err(emitted.code);
    }

    method ValidateParticipantsAndSession(req: Request) returns (r: Result<S.Session>)
      ensures r == Validated(State(), req)
    {
      if req.ownerEntityId !in entities {
        return Err(NotFound);
      }
      if req.initiatorEntityId !in entities {
        return Err(NotFound);
      }
      if req.sessionId !in sessions.store {
        return Err(NotFound);
      }
      var session := sessions.store[req.sessionId];
      if session.state != S.Active {
        return Err(InvalidStateTransition);
      }
      if req.ownerEntityId !in session.participants {
        return Err(AuthzDenied);
      }
      if req.initiatorEntityId !in session.participants {
        return Err(AuthzDenied);
      }
      r := Ok(session);
    }

    method CheckIdempotency(req: Request) returns (r: Result<Option<Activity>>)
      ensures r == Cached(State(), req)
    {
      if !Truthy(req.idempotencyKey) {
        return Ok(None);
      }
      r := idempotency.Check(req.idempotencyKey.value, Some(FingerprintOf(req)));
    }

    method RecordProvenance(record: Provenance)
      requires Valid()
      modifies this
      ensures Valid()
      ensures State() == Step(old(State()), Record(record))
    {
      provenance := provenance + [record];
    }

    /** The record is written first; a denial is raised after it. */
    method EnforcePolicy(req: Request, j: Judgement) returns (r: Result<()>)
      requires Valid()
      modifies this
      ensures Valid()
      ensures State() == Governed(old(State()), req, j) && r == if j.allowed then Ok(()) else Err(PolicyDenied)
    {
      provenance := provenance + [Provenance(PreInvoke, [req.sessionId, req.initiatorEntityId], j.allowed)];
      if !j.allowed {
        return Err(PolicyDenied);
      }
      r := Ok(());
    }

    method CreateSubmittedActivity(req: Request) returns (r: Result<Activity>)
      requires Valid()
      modifies this, activities.store
      ensures Valid()
      ensures (State(), r) == Submit(old(State()), req)
    {
      r := activities.Start(req.activityId, req.sessionId, req.ownerEntityId, req.initiatorEntityId, req.operation, req.inputPayload);
      if r.Err? {
        return;
      }
      var emitted := EmitEvent(LifecycleType(Submitted), req.sessionId, Some(r.value.activityId), req.initiatorEntityId);
      if emitted.Err? {
        return Err(emitted.code);
      }
    }

    method StoreForKey(req: Request, activity: Activity)
      requires Valid()
      modifies idempotency
      ensures Valid()
      ensures State() == Remembered(old(State()), req, activity)
    {
      if Truthy(req.idempotencyKey) {
        idempotency.Store(req.idempotencyKey.value, activity, FingerprintOf(req));
      }
    }

    /** The start of an execution: the activity is working, and its handler is what comes next. */
    method ExecuteUntilHandler(req: Request, submitted: Activity) returns (r: Started)
      requires Valid()
      requires submitted.activityId in activities.store.items && activities.store.items[submitted.activityId] == submitted
      modifies this, activities.store, idempotency
      ensures Valid()
      ensures submitted.sessionId == req.sessionId ==> (State(), r) == Execute(old(State()), req, submitted)
    {
      if !req.autoExecute || req.operation !in handlers {
        StoreForKey(req, submitted);
        return Settled(submitted);
      }
      var working := activities.Transition(submitted.activityId, Working, None, map[]);
      if working.Err? {
        return Refused(working.code);
      }
      var emitted := EmitEvent(LifecycleType(Working), req.sessionId, Some(working.value.activityId), req.ownerEntityId);
      if emitted.Err? {
        return Refused(emitted.code);
      }
      var ticket := Ticket(req, working.value);
      waiting := waiting + {ticket};
      r := Awaiting(ticket);
    }

    /** Validation, token budget and idempotency, in this order. */
    method Admit(req: Request, j: Judgement) returns (r: Result<Option<Activity>>)
      ensures r == Admission(State(), req, j)
    {
      var session := ValidateParticipantsAndSession(req);
      if session.Err? {
        return Err(session.code);
      }
      var limit := session.value.budget.tokenLimit;
      if limit.Some? && j.tokens > limit.value {
        return Err(RateLimited);
      }
      if j.hookError.Some? {
        return Err(j.hookError.value);
      }
      r := CheckIdempotency(req);
    }

    method StartUntilHandler(req: Request, j: Judgement) returns (r: Started)
      requires Valid()
      modifies this, activities.store, idempotency
      ensures Valid()
      ensures (State(), r) == Begin(old(State()), req, j)
    {
      var admitted := Admit(req, j);
      if admitted.Err? {
        return Refused(admitted.code);
      }
      if admitted.value.Some? {
        return Replayed(admitted.value.value);
      }
      var governed := EnforcePolicy(req, j);
      if governed.Err? {
        return Refused(governed.code);
      }
      var created := CreateSubmittedActivity(req);
      if created.Err? {
        return Refused(created.code);
      }
      r := ExecuteUntilHandler(req, created.value);
    }

    /** The rest of a start, once its handler has ended. */
    method ResumeAfterHandler(ticket: Ticket, end: HandlerEnd) returns (r: Result<Activity>)
      requires Valid() && ticket in waiting
      requires ticket.activity.activityId in activities.store.items ==>
                 activities.store.items[ticket.activity.activityId].sessionId == ticket.request.sessionId
      modifies this, activities.store, idempotency
      ensures Valid()
      ensures (State(), r) == Finish(old(State()), ticket, end)
    {
      var id, req := ticket.activity.activityId, ticket.request;
      waiting := waiting - {ticket};
      match end {
        case StillWorking =>
          StoreForKey(req, ticket.activity);
          return Ok(ticket.activity);
        case Abandoned =>
          return Err(InternalError);
        case Raised(message) =>
          r := activities.Fail(id, message, map[]);
        case Returned(payload, ref, _) =>
          r := activities.Complete(id, Some(payload), ref);
      }
      if r.Err? {
        return;
      }
      if end.Returned? && !end.measurable {
        return Err(InternalError);
      }
      var emitted := EmitEvent(LifecycleType(r.value.state), req.sessionId, Some(r.value.activityId), req.ownerEntityId);
      if emitted.Err? {
        return Err(emitted.code);
      }
      StoreForKey(req, r.value);
    }

    /** A synchronous start: the handler runs in between and leaves the server alone. */
    method StartActivity(req: Request, j: Judgement, end: HandlerEnd) returns (r: Result<Activity>)
      requires Valid()
      modifies this, activities.store, idempotency
      ensures Valid()
      ensures (State(), r) == SyncStart(old(State()), req, j, end)
    {
      ghost var before := State();
      var started := StartUntilHandler(req, j);
      match started {
        case Refused(code) => r := Err(code);
        case Replayed(cached) => r := Ok(cached);
        case Settled(activity) => r := Ok(activity);
        case Awaiting(ticket) =>
          AwaitingIsWorking(before, req, j);
          r := ResumeAfterHandler(ticket, end);
      }
    }

    method UpdateActivity(id: string, state: ActivityState, message: Option<string>, patch: Fields, producer: Option<string>)
      returns (r: Result<Activity>)
      requires Valid()
      modifies this, activities.store
      ensures Valid()
      ensures (State(), r) == ChangeActivity(old(State()), id, ToState(state, message, patch), producer)
    {
      ghost var before := State();
      r := activities.Transition(id, state, message, patch);
      if r.Err? {
        assert State() == before;
        return;
      }
      assert State() == before.(activities := before.activities[id := r.value]);
      r := EmitState(r.value, ProducerOf(producer), before);
    }

    method CancelActivity(id: string, reason: Option<string>) returns (r: Result<Activity>)
      requires Valid()
      modifies this, activities.store
      ensures Valid()
      ensures (State(), r) == ChangeActivity(old(State()), id, Cancel(reason), None)
    {
      ghost var before := State();
      r := activities.Cancel(id, reason);
      if r.Err? {
        assert State() == before;
        return;
      }
      assert State() == before.(activities := before.activities[id := r.value]);
      r := EmitState(r.value, SERVER, before);
    }

    /** `payload` and `ref` as they are after compaction. */
    method CompleteActivity(id: string, payload: Option<Fields>, ref: Option<string>, producer: Option<string>)
      returns (r: Result<Activity>)
      requires Valid()
      modifies this, activities.store
      ensures Valid()
      ensures (State(), r) == ChangeActivity(old(State()), id, Complete(payload, ref), producer)
    {
      ghost var before := State();
      r := activities.Complete(id, payload, ref);
      if r.Err? {
        assert State() == before;
        return;
      }
      assert State() == before.(activities := before.activities[id := r.value]);
      r := EmitState(r.value, ProducerOf(producer), before);
    }
  }
}
