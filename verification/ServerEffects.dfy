/** What the server's calls leave behind, told by the fields of the request and of the stored records. */
module ServerEffects {
  import opened Outcomes
  import opened Json
  import opened Events
  import opened Activities
  import opened Lifecycle
  import opened ServerSanity
  import opened Idempotency
  import opened Sequences
  import S = Sessions

  // -------- admission --------

  /** Everybody named is known, and the session is one of the server's. */
  predicate NamesAreKnown(w: World, req: Request)
  {
    req.ownerEntityId in w.entities && req.initiatorEntityId in w.entities && req.sessionId in w.sessions
  }

  /** The request may start an activity, as far as the session, its participants and its budget are concerned. */
  predicate Admissible(w: World, req: Request, j: Judgement)
  {
    && NamesAreKnown(w, req)
    && var session := w.sessions[req.sessionId];
       && session.state == S.Active
       && req.ownerEntityId in session.participants && req.initiatorEntityId in session.participants
       && (session.budget.tokenLimit.Some? ==> j.tokens <= session.budget.tokenLimit.value)
       && j.hookError.None?
  }

  /** What the cache has for the request: nothing, the activity answered before, or a conflict with another request. */
  function AnswerUnder(cache: map<string, Entry>, req: Request): Result<Option<Activity>>
  {
    if req.idempotencyKey.None? || req.idempotencyKey.value == "" || req.idempotencyKey.value !in cache then Ok(None)
    else
      var entry := cache[req.idempotencyKey.value];
      if entry.fingerprint == Fingerprint(req.sessionId, req.ownerEntityId, req.initiatorEntityId, req.operation, req.inputPayload)
      then Ok(Some(entry.activity)) else Err(Conflict)
  }

  /** A start is refused for the first of its faults: unknown names, the session's state, participation, tokens, the budget hook, the key. */
  lemma RefusedForTheFirstFault(w: World, req: Request, j: Judgement)
    ensures var r := Admission(w, req, j);
            && (!NamesAreKnown(w, req) ==> r == Err(NotFound))
            && (NamesAreKnown(w, req) ==>
                  var session := w.sessions[req.sessionId];
                  var taking := req.ownerEntityId in session.participants && req.initiatorEntityId in session.participants;
                  var withinBudget := session.budget.tokenLimit.Some? ==> j.tokens <= session.budget.tokenLimit.value;
                  && (session.state != S.Active ==> r == Err(InvalidStateTransition))
                  && (session.state == S.Active && !taking ==> r == Err(AuthzDenied))
                  && (session.state == S.Active && taking && !withinBudget ==> r == Err(RateLimited))
                  && (session.state == S.Active && taking && withinBudget && j.hookError.Some? ==> r == Err(j.hookError.value)))
            && (Admissible(w, req, j) ==> r == AnswerUnder(w.idempotency, req))
            && (!Admissible(w, req, j) ==> r.Err?)
  {
  }

  // -------- starting --------

  /** The cache once `a` answers the request. */
  function CacheWith(w: World, req: Request, a: Activity): map<string, Entry>
  {
    if req.idempotencyKey.None? || req.idempotencyKey.value == "" then w.idempotency
    else w.idempotency[req.idempotencyKey.value :=
           Entry(Fingerprint(req.sessionId, req.ownerEntityId, req.initiatorEntityId, req.operation, req.inputPayload), a)]
  }

  /** The start comes to launch its activity. */
  predicate StartsAfresh(w: World, req: Request, j: Judgement)
  {
    && Admissible(w, req, j) && j.allowed && AnswerUnder(w.idempotency, req) == Ok(None)
    && req.activityId !in w.activities && !S.Blank(req.activityId)
  }

  function Submission(req: Request): Activity
  {
    Activity(req.activityId, req.sessionId, req.ownerEntityId, req.initiatorEntityId, Submitted, Some(req.operation), req.inputPayload,
             None, None, None, None)
  }

  /** The event about the request's activity that the server numbers `n`. */
  function Note(n: nat, eventType: string, req: Request, producer: string): Event
  {
    Event(EventId(n), eventType, req.sessionId, Some(req.activityId), producer, map[])
  }

  lemma EventNames()
    ensures LifecycleType(Submitted) == "activity.submitted" && LifecycleType(Working) == "activity.working"
    ensures LifecycleType(Completed) == "activity.completed" && LifecycleType(Failed) == "activity.failed"
    ensures LifecycleType(Canceled) == "activity.canceled"
  {
    assert "activity." + "submitted" == "activity.submitted" && "activity." + "working" == "activity.working";
    assert "activity." + "completed" == "activity.completed" && "activity." + "failed" == "activity.failed";
    assert "activity." + "canceled" == "activity.canceled";
  }

  lemma SubmitsExactly(w: World, req: Request)
    requires Sane(w) && NamesAreKnown(w, req) && req.activityId !in w.activities && !S.Blank(req.activityId)
    ensures Submit(w, req) == (w.(activities := w.activities[req.activityId := Submission(req)],
                                  published := w.published + [Note(|w.published|, "activity.submitted", req, req.initiatorEntityId)]),
                               Ok(Submission(req)))
  {
    EventNames();
    PairSucceeds(w, NewActivity(req), req.initiatorEntityId);
  }

  lemma ExecutesExactly(w: World, req: Request)
    requires Sane(w) && NamesAreKnown(w, req)
    requires req.activityId in w.activities && w.activities[req.activityId] == Submission(req)
    ensures var working := Submission(req).(state := Working);
            var ticket := Ticket(req, working);
            Execute(w, req, Submission(req)) ==
              if req.autoExecute && req.operation in w.handlers
              then (w.(activities := w.activities[req.activityId := working],
                       published := w.published + [Note(|w.published|, "activity.working", req, req.ownerEntityId)],
                       waiting := w.waiting + {ticket}),
                    Awaiting(ticket))
              else (w.(idempotency := CacheWith(w, req, Submission(req))), Settled(Submission(req)))
  {
    EventNames();
    ExecuteFrame(w, req);
    if req.autoExecute && req.operation in w.handlers {
      PairSucceeds(w, AsWorking(req), req.ownerEntityId);
    }
  }

  /** Everything a fresh start does up to its handler: decision, activity, events with their producers, and the answer where no handler is to run. */
  lemma FreshStartTakesEffect(w: World, req: Request, j: Judgement)
    requires Sane(w) && StartsAfresh(w, req, j)
    ensures var (v, r) := Begin(w, req, j);
            var submitted, n := Submission(req), |w.published|;
            var working := submitted.(state := Working);
            var decided := w.provenance + [Provenance(PreInvoke, [req.sessionId, req.initiatorEntityId], true)];
            if req.autoExecute && req.operation in w.handlers
            then && r == Awaiting(Ticket(req, working))
                 && v == w.(activities := w.activities[req.activityId := working],
                            published := w.published + [Note(n, "activity.submitted", req, req.initiatorEntityId),
                                                        Note(n + 1, "activity.working", req, req.ownerEntityId)],
                            provenance := decided,
                            waiting := w.waiting + {Ticket(req, working)})
            else && r == Settled(submitted)
                 && v == w.(activities := w.activities[req.activityId := submitted],
                            published := w.published + [Note(n, "activity.submitted", req, req.initiatorEntityId)],
                            provenance := decided,
                            idempotency := CacheWith(w, req, submitted))
  {
    RefusedForTheFirstFault(w, req, j);
    var g := Governed(w, req, j);
    assert Sane(g);
    SubmitsExactly(g, req);
    var first := Note(|w.published|, "activity.submitted", req, req.initiatorEntityId);
    var second := Note(|w.published| + 1, "activity.working", req, req.ownerEntityId);
    var s := Submit(g, req).0;
    ExecutesExactly(s, req);
    OneMore(w.published, first, second, second);
    assert s.activities[req.activityId := Submission(req).(state := Working)] == w.activities[req.activityId := Submission(req).(state := Working)];
  }

  // -------- the end of a handler --------

  /** The activity as the handler's end leaves it. */
  function Ended(a: Activity, end: HandlerEnd): Activity
    requires end.Raised? || end.Returned?
  {
    match end
    case Raised(message) => a.(state := Failed, error := Some(map["message" := Str(message), "details" := Obj(map[])]))
    case Returned(payload, ref, _) => a.(state := Completed, resultPayload := Some(payload), resultRef := ref)
  }

  /** How a started handler may end: answered with an event, answered as it is, lost before its event, or lost altogether. */
  lemma HandlerEndTakesEffect(w: World, ticket: Ticket, end: HandlerEnd)
    requires Sane(w) && ticket in w.waiting
    ensures var (v, r) := Finish(w, ticket, end);
            var req, a := ticket.request, w.activities[ticket.activity.activityId];
            var resumed := w.(waiting := w.waiting - {ticket});
            if end.StillWorking? then r == Ok(ticket.activity) && v == resumed.(idempotency := CacheWith(w, req, ticket.activity))
            else if end.Abandoned? then r.Err? && v == resumed
            else if end.Returned? && a.state in {Completed, Failed, Canceled, Rejected} then r == Err(InvalidStateTransition) && v == resumed
            else
              var b := Ended(a, end);
              var stored := resumed.(activities := w.activities[a.activityId := b]);
              if end.Returned? && !end.measurable then r.Err? && v == stored
              else
                var note := Event(EventId(|w.published|), if end.Raised? then "activity.failed" else "activity.completed",
                                  a.sessionId, Some(a.activityId), req.ownerEntityId, map[]);
                r == Ok(b) && v == stored.(published := w.published + [note], idempotency := CacheWith(w, req, b))
  {
    var a := w.activities[ticket.activity.activityId];
    var resumed := w.(waiting := w.waiting - {ticket});
    FinishFrame(w, ticket, end);
    if end.Raised? || (end.Returned? && a.state !in TERMINAL) {
      EventNames();
      PairSucceeds(resumed, Ended(a, end), ticket.request.ownerEntityId);
    }
  }

  /** From start to answer: a synchronous start whose handler returns leaves a completed activity, three events, one decision and one answer. */
  lemma StartToAnswer(w: World, req: Request, j: Judgement, payload: Fields, ref: Option<string>)
    requires Sane(w) && StartsAfresh(w, req, j) && req.autoExecute && req.operation in w.handlers
    ensures var done := Submission(req).(state := Completed, resultPayload := Some(payload), resultRef := ref);
            SyncStart(w, req, j, Returned(payload, ref, true)) == (AfterStart(w, req, done), Ok(done))
  {
    FreshStartTakesEffect(w, req, j);
    BeginKeepsSane(w, req, j);
    NotYetWaiting(w, req);
    EndOfFreshStart(w, Begin(w, req, j).0, req, payload, ref);
  }

  function AfterStart(w: World, req: Request, done: Activity): World
  {
    var n := |w.published|;
    w.(activities := w.activities[req.activityId := done],
       published := w.published + [Note(n, "activity.submitted", req, req.initiatorEntityId),
                                   Note(n + 1, "activity.working", req, req.ownerEntityId),
                                   Note(n + 2, "activity.completed", req, req.ownerEntityId)],
       provenance := w.provenance + [Provenance(PreInvoke, [req.sessionId, req.initiatorEntityId], true)],
       idempotency := CacheWith(w, req, done))
  }

  lemma OneMore<T>(log: seq<T>, a: T, b: T, c: T)
    ensures log + [a] + [b] == log + [a, b] && log + [a, b] + [c] == log + [a, b, c]
  {
  }

  lemma EndOfFreshStart(w: World, v: World, req: Request, payload: Fields, ref: Option<string>)
    requires Sane(v) && forall t | t in w.waiting :: t.activity.activityId != req.activityId
    requires var working := Submission(req).(state := Working);
             v == w.(activities := w.activities[req.activityId := working],
                     published := w.published + [Note(|w.published|, "activity.submitted", req, req.initiatorEntityId),
                                                 Note(|w.published| + 1, "activity.working", req, req.ownerEntityId)],
                     provenance := w.provenance + [Provenance(PreInvoke, [req.sessionId, req.initiatorEntityId], true)],
                     waiting := w.waiting + {Ticket(req, working)})
    ensures var done := Submission(req).(state := Completed, resultPayload := Some(payload), resultRef := ref);
            Finish(v, Ticket(req, Submission(req).(state := Working)), Returned(payload, ref, true)) == (AfterStart(w, req, done), Ok(done))
  {
    var working, done := Submission(req).(state := Working), Submission(req).(state := Completed, resultPayload := Some(payload), resultRef := ref);
    var ticket := Ticket(req, working);
    HandlerEndTakesEffect(v, ticket, Returned(payload, ref, true));
    assert v.waiting - {ticket} == w.waiting;
    assert v.activities[req.activityId := done] == w.activities[req.activityId := done];
    var n := |w.published|;
    OneMore(w.published, Note(n, "activity.submitted", req, req.initiatorEntityId), Note(n + 1, "activity.working", req, req.ownerEntityId),
            Note(n + 2, "activity.completed", req, req.ownerEntityId));
  }

  lemma NotYetWaiting(w: World, req: Request)
    requires Sane(w) && req.activityId !in w.activities
    ensures forall t | t in w.waiting :: t.activity.activityId != req.activityId
  {
  }

  // -------- keys --------

  /** The five fields that a repeated request has to share with the first. */
  predicate AsksTheSame(a: Request, b: Request)
  {
    && a.sessionId == b.sessionId && a.ownerEntityId == b.ownerEntityId && a.initiatorEntityId == b.initiatorEntityId
    && a.operation == b.operation && a.inputPayload == b.inputPayload
  }

  /** Once a start has settled under a key, an admissible request with the key changes nothing: it gets that activity if it asks the same, else a conflict. */
  lemma SettledKeyIsReplayed(w: World, first: Request, j: Judgement, second: Request, k: Judgement, key: string)
    requires Sane(w) && Begin(w, first, j).1.Settled? && Uses(first, key) && Uses(second, key)
    requires Admissible(Begin(w, first, j).0, second, k)
    ensures var (v, r) := Begin(w, first, j);
            Begin(v, second, k) == (v, if AsksTheSame(first, second) then Replayed(r.activity) else Refused(Conflict))
  {
    BeginEffect(w, first, j);
    RefusedForTheFirstFault(Begin(w, first, j).0, second, k);
  }

  /** So it is once a handler's end has been answered. */
  lemma AnsweredKeyIsReplayed(w: World, ticket: Ticket, end: HandlerEnd, second: Request, k: Judgement, key: string)
    requires Sane(w) && ticket in w.waiting && Finish(w, ticket, end).1.Ok? && Uses(ticket.request, key) && Uses(second, key)
    requires Admissible(Finish(w, ticket, end).0, second, k)
    ensures var (v, r) := Finish(w, ticket, end);
            Begin(v, second, k) == (v, if AsksTheSame(ticket.request, second) then Replayed(r.value) else Refused(Conflict))
  {
    FinishEffect(w, ticket, end);
    RefusedForTheFirstFault(Finish(w, ticket, end).0, second, k);
  }

  // -------- explicit calls --------

  /** The activity is stored, and its event follows under the producer's name unless that is blank. */
  ghost predicate StoredAndNoted(w: World, v: World, r: Result<Activity>, a: Activity, eventType: string, producer: string)
  {
    && v == w.(activities := w.activities[a.activityId := a], published := v.published)
    && if S.Blank(producer) then r == Err(InvalidArgument) && v.published == w.published
       else && r == Ok(a)
            && v.published == w.published + [Event(EventId(|w.published|), eventType, a.sessionId, Some(a.activityId), producer, map[])]
  }

  function Announcer(source: Option<string>): string
  {
    if source.Some? && source.value != "" then source.value else "fp:system:runtime"
  }

  /** An update along the state table stores the record and then its event; any other changes nothing. */
  lemma UpdateTakesEffect(w: World, id: string, next: ActivityState, message: Option<string>, patch: Fields, source: Option<string>)
    requires Sane(w) && id in w.activities
    ensures var (v, r) := ChangeActivity(w, id, ToState(next, message, patch), source);
            var a := w.activities[id];
            if next in AllowedTransitions(a.state)
            then StoredAndNoted(w, v, r, a.(state := next, statusMessage := message, inputPayload := a.inputPayload + patch),
                                "activity." + StateName(next), Announcer(source))
            else r == Err(InvalidStateTransition) && v == w
  {
    var a := w.activities[id];
    var b := a.(state := next, statusMessage := message, inputPayload := a.inputPayload + patch);
    if next in AllowedTransitions(a.state) {
      assert Changed(a, ToState(next, message, patch)) == Ok(b);
      StoredIsNoted(w, b, Announcer(source));
    }
  }

  lemma CancelTakesEffect(w: World, id: string, reason: Option<string>, source: Option<string>)
    requires Sane(w) && id in w.activities
    ensures var (v, r) := ChangeActivity(w, id, Cancel(reason), source);
            var a := w.activities[id];
            if a.state !in {Completed, Failed, Canceled, Rejected}
            then StoredAndNoted(w, v, r, a.(state := Canceled, statusMessage := reason), "activity.canceled", "fp:system:runtime")
            else r == Err(InvalidStateTransition) && v == w
  {
    EventNames();
    var a := w.activities[id];
    if a.state !in TERMINAL {
      StoredIsNoted(w, a.(state := Canceled, statusMessage := reason), SERVER);
    }
  }

  lemma CompleteTakesEffect(w: World, id: string, payload: Option<Fields>, ref: Option<string>, source: Option<string>)
    requires Sane(w) && id in w.activities
    ensures var (v, r) := ChangeActivity(w, id, Complete(payload, ref), source);
            var a := w.activities[id];
            if a.state in {Submitted, Working, InputRequired, ActivityState.AuthRequired}
            then StoredAndNoted(w, v, r, a.(state := Completed, resultPayload := payload, resultRef := ref), "activity.completed", Announcer(source))
            else r == Err(InvalidStateTransition) && v == w
  {
    EventNames();
    var a := w.activities[id];
    if CompletedWith(a, payload, ref).Ok? {
      StoredIsNoted(w, a.(state := Completed, resultPayload := payload, resultRef := ref), Announcer(source));
    }
  }

  lemma StoredIsNoted(w: World, a: Activity, producer: string)
    requires !S.Blank(a.sessionId)
    ensures var (v, r) := StoredAndEmitted(w, a, producer); StoredAndNoted(w, v, r, a, "activity." + StateName(a.state), producer)
  {
    assert LifecycleType(a.state)[0] == 'a';
  }

  /** The event of a session call: about the session alone, by the entity that joins or leaves and by the server otherwise. */
  function Announcement(n: nat, call: S.Call): Event
  {
    match call
    case Create(id, _, _, _, _, _) => Event(EventId(n), "session.created", id, None, "fp:system:runtime", map[])
    case Join(id, entity, _) => Event(EventId(n), "session.joined", id, None, entity, map[])
    case Leave(id, entity) => Event(EventId(n), "session.left", id, None, entity, map[])
    case Update(id, _, _, _, _) => Event(EventId(n), "session.updated", id, None, "fp:system:runtime", map[])
    case Close(id, _) => Event(EventId(n), "session.closed", id, None, "fp:system:runtime", map[])
  }

  /** A session call that names somebody unknown: leaving and closing ask nobody. */
  ghost predicate NamesAStranger(w: World, call: S.Call)
  {
    match call
    case Create(_, participants, _, _, _, _) => exists e :: e in participants && e !in w.entities
    case Join(_, entity, _) => entity !in w.entities
    case Update(_, _, _, _, patch) => exists e :: e in patch && e !in w.entities
    case _ => false
  }

  lemma StrangersAreRefused(w: World, call: S.Call)
    ensures NamesAStranger(w, call) <==> EntitiesNamed(call) - w.entities != {}
  {
    if NamesAStranger(w, call) {
      var e :| e in EntitiesNamed(call) && e !in w.entities;
      assert e in EntitiesNamed(call) - w.entities;
    }
  }

  lemma AnnouncedExactly(w: World, call: S.Call, applied: (S.Store, Result<S.Session>))
    ensures AnnouncedCall(w, call, applied) ==
              if applied.1.Err? then (w, applied.1)
              else if S.Blank(call.id) || S.Blank(Announcement(0, call).producerEntityId) then (w.(sessions := applied.0), Err(InvalidArgument))
              else (w.(sessions := applied.0, published := w.published + [Announcement(|w.published|, call)]), applied.1)
  {
    assert SessionEvent(call).0[0] == 's';
  }

  /** A session call that names a stranger, or that the engine refuses, changes nothing; an accepted one stores the session and announces it. */
  lemma SessionCallTakesEffect(w: World, call: S.Call)
    ensures var (v, r) := SessionStep(w, call);
            var applied := S.Apply(w.sessions, call);
            if NamesAStranger(w, call) then v == w && r == Err(NotFound)
            else if applied.1.Err? then v == w && r == applied.1
            else if S.Blank(call.id) || S.Blank(Announcement(0, call).producerEntityId)
            then v == w.(sessions := applied.0) && r == Err(InvalidArgument)
            else v == w.(sessions := applied.0, published := w.published + [Announcement(|w.published|, call)]) && r == applied.1
  {
    StrangersAreRefused(w, call);
    AnnouncedExactly(w, call, S.Apply(w.sessions, call));
  }
}
