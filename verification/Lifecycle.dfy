/**
 The server as one value, and its calls as atomic steps. An asynchronous start is two steps, one
 up to the handler's await and one after it; a synchronous start is both in a row.
 */
module Lifecycle {
  import opened Outcomes
  import opened Json
  import opened Events
  import opened Activities
  import opened Decimal
  import S = Sessions

  /** The fields the idempotency fingerprint serialises. */
  datatype Fingerprint = Fingerprint(sessionId: string, ownerEntityId: string, initiatorEntityId: string, operation: string, inputPayload: Fields)

  datatype Entry = Entry(fingerprint: Fingerprint, activity: Activity)

  /** The hook a decision was taken at: before a start, or any other one (role changes, settlements). */
  datatype Hook = PreInvoke | OtherHook

  datatype Provenance = Provenance(hook: Hook, subjectRefs: seq<string>, allowed: bool)

  /** `activityId` is the caller's, or freshly generated. */
  datatype Request = Request(
    sessionId: string,
    ownerEntityId: string,
    initiatorEntityId: string,
    operation: string,
    inputPayload: Fields,
    activityId: string,
    idempotencyKey: Option<string>,
    autoExecute: bool)

  /** What the meter, the budget hook and the policy engine answer for one request. */
  datatype Judgement = Judgement(tokens: nat, hookError: Option<ErrorCode>, allowed: bool)

  /**
   How a handler ends. `measurable` says its (compacted) result survives the token meter's JSON
   encoding; `Abandoned` is a start cancelled while it waits, or a result that cannot be compacted.
   */
  datatype HandlerEnd =
    | Raised(message: string)
    | StillWorking
    | Abandoned
    | Returned(payload: Fields, ref: Option<string>, measurable: bool)

  /** A start waiting for its handler. */
  datatype Ticket = Ticket(request: Request, activity: Activity)

  datatype World = World(
    entities: set<string>,
    handlers: set<string>,
    sessions: S.Store,
    activities: map<string, Activity>,
    published: seq<Event>,
    idempotency: map<string, Entry>,
    provenance: seq<Provenance>,
    waiting: set<Ticket>)

  const SERVER: string := "fp:system:runtime"

  function StateName(s: ActivityState): string
  {
    match s
    case Submitted => "submitted"
    case Working => "working"
    case InputRequired => "input_required"
    case AuthRequired => "auth_required"
    case Completed => "completed"
    case Failed => "failed"
    case Canceled => "canceled"
    case Rejected => "rejected"
  }

  function LifecycleType(s: ActivityState): string
  {
    "activity." + StateName(s)
  }

  /** Generated event ids are all different; a running number stands for the random one. */
  function EventId(n: nat): string
  {
    "evt-" + Digits(n)
  }

  /** `_emit_event`: an event with a blank type, session or producer is refused. */
  function Emitted(w: World, eventType: string, session: string, activity: Option<string>, producer: string): (World, Result<()>)
  {
    if S.Blank(eventType) || S.Blank(session) || S.Blank(producer) then (w, Err(InvalidArgument))
    else (w.(published := w.published + [Event(EventId(|w.published|), eventType, session, activity, producer, map[])]), Ok(()))
  }

  /** The state-and-event pair: the new activity is stored first, then its event is emitted. */
  function StoredAndEmitted(w: World, a: Activity, producer: string): (World, Result<Activity>)
  {
    var (v, r) := Emitted(w.(activities := w.activities[a.activityId := a]), LifecycleType(a.state), a.sessionId, Some(a.activityId), producer);
    (v, if r.Ok? then Ok(a) else Err(r.code))
  }

  function FingerprintOf(req: Request): Fingerprint
  {
    Fingerprint(req.sessionId, req.ownerEntityId, req.initiatorEntityId, req.operation, req.inputPayload)
  }

  function Validated(w: World, req: Request): Result<S.Session>
  {
    if req.ownerEntityId !in w.entities || req.initiatorEntityId !in w.entities || req.sessionId !in w.sessions then Err(NotFound)
    else
      var session := w.sessions[req.sessionId];
      if session.state != S.Active then Err(InvalidStateTransition)
      else if req.ownerEntityId !in session.participants || req.initiatorEntityId !in session.participants then Err(AuthzDenied)
      else Ok(session)
  }

  function BudgetChecked(session: S.Session, j: Judgement): Result<()>
  {
    if session.budget.tokenLimit.Some? && j.tokens > session.budget.tokenLimit.value then Err(RateLimited)
    else if j.hookError.Some? then Err(j.hookError.value)
    else Ok(())
  }

  /** The activity cached under the request's key, if any; a different fingerprint is a conflict. */
  function Cached(w: World, req: Request): Result<Option<Activity>>
  {
    if !Truthy(req.idempotencyKey) || req.idempotencyKey.value !in w.idempotency then Ok(None)
    else
      var entry := w.idempotency[req.idempotencyKey.value];
      if entry.fingerprint != FingerprintOf(req) then Err(Conflict) else Ok(Some(entry.activity))
  }

  /** One provenance record per policy decision, written before a denial is raised; both references are validated by now. */
  function Governed(w: World, req: Request, j: Judgement): World
  {
    w.(provenance := w.provenance + [Provenance(PreInvoke, [req.sessionId, req.initiatorEntityId], j.allowed)])
  }

  function NewActivity(req: Request): Activity
  {
    NewlySubmitted(req.activityId, req.sessionId, req.ownerEntityId, req.initiatorEntityId, req.operation, req.inputPayload)
  }

  function Submit(w: World, req: Request): (World, Result<Activity>)
  {
    var (_, r) := StartedWith(w.activities, NewActivity(req));
    if r.Err? then (w, r) else StoredAndEmitted(w, r.value, req.initiatorEntityId)
  }

  function Remembered(w: World, req: Request, a: Activity): World
  {
    if Truthy(req.idempotencyKey)
    then w.(idempotency := w.idempotency[req.idempotencyKey.value := Entry(FingerprintOf(req), a)])
    else w
  }

  datatype Started =
    | Refused(code: ErrorCode)
    | Replayed(cached: Activity)
    | Settled(activity: Activity)
    | Awaiting(ticket: Ticket)

  /** The checks of a start before the policy engine is asked; a cached activity answers it already. */
  function Admission(w: World, req: Request, j: Judgement): Result<Option<Activity>>
  {
    var session := Validated(w, req);
    if session.Err? then Err(session.code) else
      var budget := BudgetChecked(session.value, j);
      if budget.Err? then Err(budget.code) else Cached(w, req)
  }

  /** A start up to its handler: everything, if there is no handler to run. */
  function Begin(w: World, req: Request, j: Judgement): (World, Started)
  {
    var admitted := Admission(w, req, j);
    if admitted.Err? then (w, Refused(admitted.code))
    else if admitted.value.Some? then (w, Replayed(admitted.value.value))
    else
      var governed := Governed(w, req, j);
      if !j.allowed then (governed, Refused(PolicyDenied)) else Launch(governed, req)
  }

  function Launch(w: World, req: Request): (World, Started)
  {
    var (submitted, created) := Submit(w, req);
    if created.Err? then (submitted, Refused(created.code)) else Execute(submitted, req, created.value)
  }

  /** The submitted activity is moved to working and handed to its handler, if it has one to run. */
  function Execute(w: World, req: Request, submitted: Activity): (World, Started)
  {
    if !req.autoExecute || req.operation !in w.handlers then (Remembered(w, req, submitted), Settled(submitted))
    else
      var working := Transitioned(submitted, Working, None, map[]);
      if working.Err? then (w, Refused(working.code)) else
        var (running, emitted) := StoredAndEmitted(w, working.value, req.ownerEntityId);
        if emitted.Err? then (running, Refused(emitted.code)) else
          var ticket := Ticket(req, working.value);
          (running.(waiting := running.waiting + {ticket}), Awaiting(ticket))
  }

  /** A start after its handler: the activity is changed as it is stored by then. */
  function Finish(w: World, ticket: Ticket, end: HandlerEnd): (World, Result<Activity>)
  {
    var id := ticket.activity.activityId;
    var resumed := w.(waiting := w.waiting - {ticket});
    if end.StillWorking? then (Remembered(resumed, ticket.request, ticket.activity), Ok(ticket.activity))
    else if end.Abandoned? then (resumed, Err(InternalError))
    else if id !in resumed.activities then (resumed, Err(NotFound))
    else
      var changed := if end.Raised? then Ok(FailedWith(resumed.activities[id], end.message, map[]))
                     else CompletedWith(resumed.activities[id], Some(end.payload), end.ref);
      if changed.Err? then (resumed, Err(changed.code))
      else if end.Returned? && !end.measurable then
        (resumed.(activities := resumed.activities[id := changed.value]), Err(InternalError))
      else
        var (done, emitted) := StoredAndEmitted(resumed, changed.value, ticket.request.ownerEntityId);
        if emitted.Err? then (done, Err(emitted.code)) else (Remembered(done, ticket.request, changed.value), emitted)
  }

  function SyncStart(w: World, req: Request, j: Judgement, end: HandlerEnd): (World, Result<Activity>)
  {
    var (begun, started) := Begin(w, req, j);
    match started
    case Refused(code) => (begun, Err(code))
    case Replayed(a) => (begun, Ok(a))
    case Settled(a) => (begun, Ok(a))
    case Awaiting(ticket) => Finish(begun, ticket, end)
  }

  function ProducerOf(given: Option<string>): string
  {
    if Truthy(given) then given.value else SERVER
  }

  /** What an explicit update, cancel or complete does to the stored activity. */
  datatype Change =
    | ToState(next: ActivityState, message: Option<string>, patch: Fields)
    | Cancel(reason: Option<string>)
    | Complete(payload: Option<Fields>, ref: Option<string>)

  function Changed(a: Activity, change: Change): Result<Activity>
  {
    match change
    case ToState(next, message, patch) => Transitioned(a, next, message, patch)
    case Cancel(reason) => CanceledWith(a, reason)
    case Complete(payload, ref) => CompletedWith(a, payload, ref)
  }

  function ChangeActivity(w: World, id: string, change: Change, producer: Option<string>): (World, Result<Activity>)
  {
    if id !in w.activities then (w, Err(NotFound)) else
      var changed := Changed(w.activities[id], change);
      if changed.Err? then (w, Err(changed.code))
      else StoredAndEmitted(w, changed.value, if change.Cancel? then SERVER else ProducerOf(producer))
  }

  /** `Record` is a decision at another hook, or a record written by a caller. */
  datatype Op =
    | RegisterEntity(entityId: string)
    | RegisterHandler(operation: string)
    | OnSession(call: S.Call)
    | Record(record: Provenance)
    | PublicEmit(eventType: string, session: string, activity: Option<string>, producer: string)
    | Start(request: Request, judgement: Judgement, end: HandlerEnd)
    | BeginStart(request: Request, judgement: Judgement)
    | FinishStart(ticket: Ticket, end: HandlerEnd)
    | Revise(id: string, change: Change, source: Option<string>)

  /** The event that follows an accepted session call. */
  function SessionEvent(call: S.Call): (string, string)
  {
    match call
    case Create(_, _, _, _, _, _) => ("session.created", SERVER)
    case Join(_, entity, _) => ("session.joined", entity)
    case Leave(_, entity) => ("session.left", entity)
    case Update(_, _, _, _, _) => ("session.updated", SERVER)
    case Close(_, _) => ("session.closed", SERVER)
  }

  function EntitiesNamed(call: S.Call): set<string>
  {
    match call
    case Create(_, participants, _, _, _, _) => participants
    case Join(_, entity, _) => {entity}
    case Update(_, _, _, _, patch) => patch.Keys
    case _ => {}
  }

  /** A session call that came to `applied`: the store it left, and its event when it was accepted. */
  function AnnouncedCall(w: World, call: S.Call, applied: (S.Store, Result<S.Session>)): (World, Result<S.Session>)
  {
    if applied.1.Err? then (w, applied.1) else
      var (eventType, producer) := SessionEvent(call);
      var (v, emitted) := Emitted(w.(sessions := applied.0), eventType, call.id, None, producer);
      (v, if emitted.Ok? then applied.1 else Err(emitted.code))
  }

  function SessionStep(w: World, call: S.Call): (World, Result<S.Session>)
  {
    if EntitiesNamed(call) - w.entities != {} then (w, Err(NotFound)) else AnnouncedCall(w, call, S.Apply(w.sessions, call))
  }

  function Step(w: World, op: Op): World
  {
    match op
    case RegisterEntity(id) => if S.Blank(id) then w else w.(entities := w.entities + {id})
    case RegisterHandler(operation) => w.(handlers := w.handlers + {operation})
    case OnSession(call) => SessionStep(w, call).0
    case Record(record) => w.(provenance := w.provenance + [record])
    case PublicEmit(eventType, session, activity, producer) => Emitted(w, eventType, session, activity, producer).0
    case Start(req, j, end) => SyncStart(w, req, j, end).0
    case BeginStart(req, j) => Begin(w, req, j).0
    case FinishStart(ticket, end) => if ticket in w.waiting then Finish(w, ticket, end).0 else w
    case Revise(id, change, source) => ChangeActivity(w, id, change, source).0
  }

  function Run(w: World, ops: seq<Op>): World
    decreases |ops|
  {
    if ops == [] then w else Run(Step(w, ops[0]), ops[1..])
  }

  const EMPTY: World := World({}, {}, map[], map[], [], map[], [], {})
}
