/** One idempotency key: at most one activity, one handler run, and one answer. */
module Idempotency {
  import opened Outcomes
  import opened Events
  import opened Activities
  import opened Lifecycle
  import opened ServerSanity
  import opened Sequences
  import S = Sessions

  /** `IdempotencyGuard` */
  class IdempotencyGuard {
    var cache: map<string, Entry>

    constructor ()
      ensures cache == map[]
    {
      cache := map[];
    }

    /** Without a fingerprint any entry under the key is a hit. */
    method Check(key: string, fingerprint: Option<Fingerprint>) returns (r: Result<Option<Activity>>)
      ensures r.Err? <==> key in cache && fingerprint.Some? && cache[key].fingerprint != fingerprint.value
      ensures r.Err? ==> r.code == Conflict
      ensures r.Ok? ==> r.value == if key in cache then Some(cache[key].activity) else None
    {
      if key !in cache {
        return Ok(None);
      }
      var entry := cache[key];
      if fingerprint.Some? && entry.fingerprint != fingerprint.value {
        return Err(Conflict);
      }
      r := Ok(Some(entry.activity));
    }

    method Store(key: string, activity: Activity, fingerprint: Fingerprint)
      modifies this
      ensures cache == old(cache)[key := Entry(fingerprint, activity)]
    {
      cache := cache[key := Entry(fingerprint, activity)];
    }
  }

  /** The request gets as far as the policy engine. */
  predicate ReachesPolicy(w: World, req: Request, j: Judgement)
  {
    Validated(w, req).Ok? && BudgetChecked(Validated(w, req).value, j).Ok? && Cached(w, req) == Ok(None)
  }

  predicate Uses(req: Request, key: string)
  {
    key != "" && req.idempotencyKey == Some(key)
  }

  /** A key already answered: every further start repeats the answer or is refused, and changes nothing at all. */
  lemma AnsweredKeyReplays(w: World, req: Request, j: Judgement, key: string)
    requires Uses(req, key) && key in w.idempotency
    ensures var (v, r) := Begin(w, req, j);
            var asked := Fingerprint(req.sessionId, req.ownerEntityId, req.initiatorEntityId, req.operation, req.inputPayload);
            && v == w
            && (r.Refused? || r == Replayed(w.idempotency[key].activity))
            && (w.idempotency[key].fingerprint != asked ==> r.Refused?)
            && ((w.idempotency[key].fingerprint == asked && Validated(w, req).Ok? && BudgetChecked(Validated(w, req).value, j).Ok?)
                ==> r == Replayed(w.idempotency[key].activity))
  {
  }

  /** The start stores a new activity: it passes every check, and its activity id is free and usable. */
  predicate Launches(w: World, req: Request, j: Judgement)
  {
    ReachesPolicy(w, req, j) && j.allowed && req.activityId !in w.activities && !S.Blank(req.activityId)
  }

  predicate HasHandler(w: World, req: Request)
  {
    req.autoExecute && req.operation in w.handlers
  }

  /** What launching leaves of the cache and of the waiting starts. */
  ghost predicate Launched(w: World, v: World, r: Started, req: Request)
  {
    if HasHandler(w, req)
    then r == Awaiting(Ticket(req, AsWorking(req))) && v.waiting == w.waiting + {r.ticket} && v.idempotency == w.idempotency
    else r == Settled(NewActivity(req)) && v.waiting == w.waiting && v.idempotency == Remembered(w, req, NewActivity(req)).idempotency
  }

  lemma LaunchEffect(w: World, req: Request)
    requires Sane(w) && req.ownerEntityId in w.entities && req.initiatorEntityId in w.entities && req.sessionId in w.sessions
    ensures var (v, r) := Launch(w, req);
            if req.activityId !in w.activities && !S.Blank(req.activityId) then Launched(w, v, r, req)
            else r.Refused? && v == w
  {
    SubmitFrame(w, req);
    var (v, r) := Submit(w, req);
    if r.Ok? {
      ExecuteFrame(v, req);
    }
    assert r.Ok? <==> req.activityId !in w.activities && !S.Blank(req.activityId) by {
      PairSucceeds(w, NewActivity(req), req.initiatorEntityId);
    }
  }

  /** A start launches, or leaves the cache and the waiting starts alone. */
  lemma BeginEffect(w: World, req: Request, j: Judgement)
    requires Sane(w)
    ensures var (v, r) := Begin(w, req, j);
            if Launches(w, req, j) then Launched(w, v, r, req)
            else v.waiting == w.waiting && v.idempotency == w.idempotency && (r.Refused? || r.Replayed?)
  {
    if ReachesPolicy(w, req, j) {
      var g := Governed(w, req, j);
      assert Sane(g);
      LaunchEffect(g, req);
    }
  }

  /** Only a key already answered is replayed, and with its answer. */
  lemma ReplayIsCached(w: World, req: Request, j: Judgement)
    requires Sane(w) && Begin(w, req, j).1.Replayed?
    ensures Truthy(req.idempotencyKey) && req.idempotencyKey.value in w.idempotency
    ensures Begin(w, req, j).1.cached == w.idempotency[req.idempotencyKey.value].activity
  {
    if ReachesPolicy(w, req, j) {
      BeginEffect(w, req, j);
    }
  }

  /** The handler's end is answered: it is not abandoned, its result can be measured, and nobody finished the activity meanwhile. */
  predicate EndsWell(w: World, ticket: Ticket, end: HandlerEnd)
    requires ticket.activity.activityId in w.activities
  {
    !end.Abandoned? && (end.Returned? ==> end.measurable && w.activities[ticket.activity.activityId].state !in TERMINAL)
  }

  lemma FinishEffect(w: World, ticket: Ticket, end: HandlerEnd)
    requires Sane(w) && ticket in w.waiting
    ensures var (v, r) := Finish(w, ticket, end);
            && v.waiting == w.waiting - {ticket}
            && (r.Ok? <==> EndsWell(w, ticket, end))
            && (r.Err? ==> v.idempotency == w.idempotency)
            && (r.Ok? ==> r.value.activityId == ticket.activity.activityId
                          && v.idempotency == Remembered(w, ticket.request, r.value).idempotency)
  {
    FinishFrame(w, ticket, end);
    var resumed := w.(waiting := w.waiting - {ticket});
    var a := FinishedAs(w.activities[ticket.activity.activityId], end);
    if a.Ok? {
      PairSucceeds(resumed, a.value, ticket.request.ownerEntityId);
      PairFrame(resumed, a.value, ticket.request.ownerEntityId);
    }
  }

  /** The activity a step creates under `key`; starting its handler counts as creating it. */
  function CreatedBy(w: World, op: Op, key: string): seq<string>
  {
    if (op.Start? || op.BeginStart?) && Uses(op.request, key) then
      var r := Begin(w, op.request, op.judgement).1;
      if r.Settled? || r.Awaiting? then [op.request.activityId] else []
    else []
  }

  /** The activity ids that successful starts with `key` answer in this step. */
  function AnsweredBy(w: World, op: Op, key: string): seq<string>
  {
    match op
    case Start(req, j, end) =>
      var r := SyncStart(w, req, j, end).1;
      if Uses(req, key) && r.Ok? then [r.value.activityId] else []
    case BeginStart(req, j) =>
      var r := Begin(w, req, j).1;
      if !Uses(req, key) then [] else if r.Replayed? then [r.cached.activityId] else if r.Settled? then [r.activity.activityId] else []
    case FinishStart(ticket, end) =>
      if ticket in w.waiting && Uses(ticket.request, key) && Finish(w, ticket, end).1.Ok? then [Finish(w, ticket, end).1.value.activityId] else []
    case _ => []
  }

  predicate KeyWaits(w: World, key: string)
  {
    exists t :: t in w.waiting && Uses(t.request, key)
  }

  /** The handler of a synchronous start is abandoned, or returns what the token meter cannot encode. */
  predicate Unanswered(w: World, req: Request, end: HandlerEnd)
  {
    HasHandler(w, req) && (end.Abandoned? || (end.Returned? && !end.measurable))
  }

  /**
   What a caller has to see to before a step with `key`: no start launches while another one with
   the key waits for its handler, and a handler's end is answered.
   */
  ghost predicate KeySafe(w: World, op: Op, key: string)
  {
    match op
    case Start(req, j, end) => Uses(req, key) && Launches(w, req, j) ==>
      !KeyWaits(w, key) && !Unanswered(w, req, end)
    case BeginStart(req, j) => Uses(req, key) && Launches(w, req, j) ==> !KeyWaits(w, key)
    case FinishStart(ticket, end) => ticket in w.waiting && Uses(ticket.request, key) ==>
      ticket.activity.activityId in w.activities && EndsWell(w, ticket, end)
    case _ => true
  }

  /** `made` lists the activities created under `key` so far; each is answered, or its start still waits. */
  ghost predicate OncePerKey(w: World, key: string, made: seq<string>)
  {
    && |made| <= 1
    && (key in w.idempotency ==> made == [w.idempotency[key].activity.activityId])
    && (forall t | t in w.waiting && Uses(t.request, key) :: made == [t.activity.activityId] && key !in w.idempotency)
    && (forall t, u | t in w.waiting && u in w.waiting && Uses(t.request, key) && Uses(u.request, key) :: t == u)
    && (made != [] ==> key in w.idempotency || KeyWaits(w, key))
  }

  /** A launch whose activity `a` is answered at once. */
  lemma AnsweredOnce(w: World, v: World, a: Activity, fingerprint: Fingerprint, key: string, made: seq<string>)
    requires OncePerKey(w, key, made) && key !in w.idempotency
    requires v.waiting == w.waiting && v.idempotency == w.idempotency[key := Entry(fingerprint, a)]
    ensures OncePerKey(v, key, made + [a.activityId]) <==> !KeyWaits(w, key)
  {
    if !KeyWaits(w, key) {
      assert made == [] && [] + [a.activityId] == [a.activityId];
    }
  }

  /** A launch that waits for its handler. */
  lemma AwaitingOnce(w: World, v: World, ticket: Ticket, key: string, made: seq<string>)
    requires OncePerKey(w, key, made) && Uses(ticket.request, key) && key !in w.idempotency
    requires v.waiting == w.waiting + {ticket} && v.idempotency == w.idempotency
    ensures OncePerKey(v, key, made + [ticket.activity.activityId]) <==> !KeyWaits(w, key)
  {
    assert ticket in v.waiting;
    if !KeyWaits(w, key) {
      assert made == [] && made + [ticket.activity.activityId] == [ticket.activity.activityId];
    }
  }

  /** A launch that ended without an answer. */
  lemma LostOnce(w: World, v: World, id: string, key: string, made: seq<string>)
    requires OncePerKey(w, key, made) && key !in w.idempotency
    requires v.waiting == w.waiting && v.idempotency == w.idempotency
    ensures !OncePerKey(v, key, made + [id])
  {
    if KeyWaits(w, key) {
      assert |made + [id]| == 2;
    }
  }

  /** Steps that touch neither the cache's entry for the key nor the waiting starts with it. */
  lemma OtherKeepsOnce(w: World, v: World, key: string, made: seq<string>)
    requires OncePerKey(w, key, made)
    requires forall t: Ticket | Uses(t.request, key) :: t in v.waiting <==> t in w.waiting
    requires key in v.idempotency <==> key in w.idempotency
    requires key in w.idempotency ==> v.idempotency[key] == w.idempotency[key]
    ensures OncePerKey(v, key, made)
  {
    if KeyWaits(w, key) {
      var t :| t in w.waiting && Uses(t.request, key);
      assert t in v.waiting;
    }
  }

  lemma CreatesIfLaunches(w: World, op: Op, key: string)
    requires Sane(w) && (op.Start? || op.BeginStart?)
    ensures CreatedBy(w, op, key) == if Uses(op.request, key) && Launches(w, op.request, op.judgement) then [op.request.activityId] else []
  {
    BeginEffect(w, op.request, op.judgement);
  }

  lemma LaunchedOnce(w: World, v: World, r: Started, req: Request, key: string, made: seq<string>)
    requires OncePerKey(w, key, made) && Uses(req, key) && key !in w.idempotency && Launched(w, v, r, req)
    ensures OncePerKey(v, key, made + [req.activityId]) <==> !KeyWaits(w, key)
  {
    if HasHandler(w, req) {
      AwaitingOnce(w, v, r.ticket, key, made);
    } else {
      AnsweredOnce(w, v, NewActivity(req), FingerprintOf(req), key, made);
    }
  }

  /** A launch for another key. */
  lemma OtherLaunchKeepsOnce(w: World, v: World, r: Started, req: Request, key: string, made: seq<string>)
    requires OncePerKey(w, key, made) && !Uses(req, key) && key != "" && Launched(w, v, r, req)
    ensures OncePerKey(v, key, made)
  {
    OtherKeepsOnce(w, v, key, made);
  }

  lemma BeginKeepsOnce(w: World, req: Request, j: Judgement, key: string, made: seq<string>)
    requires Sane(w) && OncePerKey(w, key, made) && key != ""
    ensures OncePerKey(Begin(w, req, j).0, key, made + CreatedBy(w, BeginStart(req, j), key)) <==> KeySafe(w, BeginStart(req, j), key)
  {
    BeginEffect(w, req, j);
    CreatesIfLaunches(w, BeginStart(req, j), key);
    var (v, r) := Begin(w, req, j);
    RightUnit(made);
    if !Launches(w, req, j) {
      OtherKeepsOnce(w, v, key, made);
    } else if Uses(req, key) {
      LaunchedOnce(w, v, r, req, key, made);
    } else {
      OtherLaunchKeepsOnce(w, v, r, req, key, made);
    }
  }

  lemma FinishKeepsOnce(w: World, ticket: Ticket, end: HandlerEnd, key: string, made: seq<string>)
    requires Sane(w) && OncePerKey(w, key, made) && key != "" && ticket in w.waiting
    ensures OncePerKey(Finish(w, ticket, end).0, key, made) <==> KeySafe(w, FinishStart(ticket, end), key)
  {
    FinishEffect(w, ticket, end);
    var v := Finish(w, ticket, end).0;
    if !Uses(ticket.request, key) {
      OtherKeepsOnce(w, v, key, made);
    } else {
      assert !KeyWaits(v, key);
    }
  }

  /** A synchronous start with a handler is its begin, and the end of a working activity. */
  lemma HandledStart(w: World, req: Request, j: Judgement, end: HandlerEnd)
    requires Sane(w) && Launches(w, req, j) && HasHandler(w, req)
    ensures var v := Begin(w, req, j).0;
            var ticket := Ticket(req, AsWorking(req));
            && Sane(v) && ticket in v.waiting && v.waiting == w.waiting + {ticket} && v.idempotency == w.idempotency
            && v.activities[req.activityId].state == Working
            && SyncStart(w, req, j, end) == Finish(v, ticket, end)
  {
    BeginEffect(w, req, j);
    BeginKeepsSane(w, req, j);
    AwaitingIsWorking(w, req, j);
  }

  /** What a synchronous start leaves behind: nothing new, an answer, or an activity without one. */
  ghost predicate StartLeaves(w: World, v: World, r: Result<Activity>, req: Request, launches: bool, end: HandlerEnd)
  {
    && v.waiting == w.waiting
    && if !launches then v.idempotency == w.idempotency
       else if Unanswered(w, req, end) then v.idempotency == w.idempotency && r.Err?
       else r.Ok? && r.value.activityId == req.activityId && v.idempotency == Remembered(w, req, r.value).idempotency
  }

  lemma EndLeaves(w: World, v: World, req: Request, ticket: Ticket, end: HandlerEnd)
    requires Sane(v) && ticket == Ticket(req, AsWorking(req)) && ticket in v.waiting && ticket !in w.waiting && HasHandler(w, req)
    requires v.waiting == w.waiting + {ticket} && v.idempotency == w.idempotency && v.activities[req.activityId].state == Working
    ensures var (u, r) := Finish(v, ticket, end); StartLeaves(w, u, r, req, true, end)
  {
    FinishEffect(v, ticket, end);
  }

  lemma StartEffect(w: World, req: Request, j: Judgement, end: HandlerEnd)
    requires Sane(w)
    ensures var (v, r) := SyncStart(w, req, j, end); StartLeaves(w, v, r, req, Launches(w, req, j), end)
  {
    if Launches(w, req, j) && HasHandler(w, req) {
      HandledStart(w, req, j, end);
      var ticket := Ticket(req, AsWorking(req));
      assert ticket !in w.waiting;
      EndLeaves(w, Begin(w, req, j).0, req, ticket, end);
    } else {
      BeginEffect(w, req, j);
    }
  }

  lemma StartedOnce(w: World, v: World, r: Result<Activity>, req: Request, end: HandlerEnd, key: string, made: seq<string>)
    requires OncePerKey(w, key, made) && Uses(req, key) && key !in w.idempotency && StartLeaves(w, v, r, req, true, end)
    ensures OncePerKey(v, key, made + [req.activityId]) <==> !KeyWaits(w, key) && !Unanswered(w, req, end)
  {
    if Unanswered(w, req, end) {
      LostOnce(w, v, req.activityId, key, made);
    } else {
      AnsweredOnce(w, v, r.value, FingerprintOf(req), key, made);
    }
  }

  lemma EndedOnce(w: World, v: World, r: Result<Activity>, req: Request, launched: bool, end: HandlerEnd, key: string, made: seq<string>)
    requires OncePerKey(w, key, made) && StartLeaves(w, v, r, req, launched, end)
    requires Uses(req, key) && launched ==> key !in w.idempotency
    ensures OncePerKey(v, key, made + if Uses(req, key) && launched then [req.activityId] else [])
            <==> (Uses(req, key) && launched ==> !KeyWaits(w, key) && !Unanswered(w, req, end))
  {
    RightUnit(made);
    if Uses(req, key) && launched {
      StartedOnce(w, v, r, req, end, key, made);
    } else {
      OtherKeepsOnce(w, v, key, made);
    }
  }

  lemma StartKeepsOnce(w: World, req: Request, j: Judgement, end: HandlerEnd, key: string, made: seq<string>)
    requires Sane(w) && OncePerKey(w, key, made) && key != ""
    ensures OncePerKey(SyncStart(w, req, j, end).0, key, made + CreatedBy(w, Start(req, j, end), key)) <==> KeySafe(w, Start(req, j, end), key)
  {
    StartEffect(w, req, j, end);
    CreatesIfLaunches(w, Start(req, j, end), key);
    var (v, r) := SyncStart(w, req, j, end);
    EndedOnce(w, v, r, req, Launches(w, req, j), end, key, made);
  }

  /**
   One step keeps at most one activity per key, each of them answered or waiting, if and only if
   it is safe for the key.
   */
  lemma StepKeepsOnce(w: World, op: Op, key: string, made: seq<string>)
    requires Sane(w) && OncePerKey(w, key, made) && key != ""
    ensures OncePerKey(Step(w, op), key, made + CreatedBy(w, op, key)) <==> KeySafe(w, op, key)
  {
    match op
    case Start(req, j, end) => StartKeepsOnce(w, req, j, end, key, made);
    case BeginStart(req, j) => BeginKeepsOnce(w, req, j, key, made);
    case FinishStart(ticket, end) =>
      if ticket in w.waiting {
        FinishKeepsOnce(w, ticket, end, key, made);
      }
      RightUnit(made);
    case _ =>
      QuietStep(w, op);
      OtherKeepsOnce(w, Step(w, op), key, made);
      RightUnit(made);
  }

  lemma QuietStep(w: World, op: Op)
    requires !op.Start? && !op.BeginStart? && !op.FinishStart?
    ensures Step(w, op).idempotency == w.idempotency && Step(w, op).waiting == w.waiting
  {
  }

  lemma BeginAnswers(w: World, req: Request, j: Judgement, key: string, made: seq<string>)
    requires Sane(w) && OncePerKey(w, key, made) && key != "" && KeySafe(w, BeginStart(req, j), key)
    ensures forall id | id in AnsweredBy(w, BeginStart(req, j), key) :: made + CreatedBy(w, BeginStart(req, j), key) == [id]
  {
    CreatesIfLaunches(w, BeginStart(req, j), key);
    RightUnit(made);
    if Launches(w, req, j) {
      BeginEffect(w, req, j);
      assert Uses(req, key) ==> made == [];
      assert [] + [req.activityId] == [req.activityId];
    } else {
      UnlaunchedAnswers(w, req, j, StillWorking, key, made);
    }
  }

  lemma FinishAnswers(w: World, ticket: Ticket, end: HandlerEnd, key: string, made: seq<string>)
    requires Sane(w) && OncePerKey(w, key, made) && ticket in w.waiting
    ensures forall id | id in AnsweredBy(w, FinishStart(ticket, end), key) :: made == [id]
  {
    FinishEffect(w, ticket, end);
  }

  lemma StartAnswers(w: World, req: Request, j: Judgement, end: HandlerEnd, key: string, made: seq<string>)
    requires Sane(w) && OncePerKey(w, key, made) && key != "" && KeySafe(w, Start(req, j, end), key)
    ensures forall id | id in AnsweredBy(w, Start(req, j, end), key) :: made + CreatedBy(w, Start(req, j, end), key) == [id]
  {
    CreatesIfLaunches(w, Start(req, j, end), key);
    if Launches(w, req, j) {
      StartEffect(w, req, j, end);
      assert Uses(req, key) ==> made == [];
      assert [] + [req.activityId] == [req.activityId];
    } else {
      UnlaunchedAnswers(w, req, j, end, key, made);
      RightUnit(made);
    }
  }

  /** A start that launches nothing succeeds only by replaying. */
  lemma UnlaunchedAnswers(w: World, req: Request, j: Judgement, end: HandlerEnd, key: string, made: seq<string>)
    requires Sane(w) && OncePerKey(w, key, made) && key != "" && !Launches(w, req, j)
    ensures forall id | id in AnsweredBy(w, Start(req, j, end), key) + AnsweredBy(w, BeginStart(req, j), key) :: made == [id]
  {
    BeginEffect(w, req, j);
    if Begin(w, req, j).1.Replayed? {
      ReplayIsCached(w, req, j);
    }
  }

  /** In a safe step, every successful start with the key answers the one activity made under it. */
  lemma StepAnswers(w: World, op: Op, key: string, made: seq<string>)
    requires Sane(w) && OncePerKey(w, key, made) && key != "" && KeySafe(w, op, key)
    ensures forall id | id in AnsweredBy(w, op, key) :: made + CreatedBy(w, op, key) == [id]
  {
    match op
    case Start(req, j, end) => StartAnswers(w, req, j, end, key, made);
    case BeginStart(req, j) => BeginAnswers(w, req, j, key, made);
    case FinishStart(ticket, end) =>
      if ticket in w.waiting {
        FinishAnswers(w, ticket, end, key, made);
      }
      RightUnit(made);
    case _ =>
  }

  function CreatedIn(w: World, ops: seq<Op>, key: string): seq<string>
    decreases |ops|
  {
    if ops == [] then [] else CreatedBy(w, ops[0], key) + CreatedIn(Step(w, ops[0]), ops[1..], key)
  }

  function AnsweredIn(w: World, ops: seq<Op>, key: string): seq<string>
    decreases |ops|
  {
    if ops == [] then [] else AnsweredBy(w, ops[0], key) + AnsweredIn(Step(w, ops[0]), ops[1..], key)
  }

  ghost predicate KeySafeRun(w: World, ops: seq<Op>, key: string)
    decreases |ops|
  {
    ops == [] || (KeySafe(w, ops[0], key) && KeySafeRun(Step(w, ops[0]), ops[1..], key))
  }

  /**
   Over the run, a key creates at most one activity (hence runs a handler at most once), and every
   successful start with the key answers that activity.
   */
  lemma {:induction false} RunKeepsOnce(w: World, ops: seq<Op>, key: string, made: seq<string>)
    requires Sane(w) && key != "" && OncePerKey(w, key, made) && KeySafeRun(w, ops, key)
    ensures OncePerKey(Run(w, ops), key, made + CreatedIn(w, ops, key))
    ensures forall id | id in AnsweredIn(w, ops, key) :: made + CreatedIn(w, ops, key) == [id]
    decreases |ops|
  {
    if ops != [] {
      var now := CreatedBy(w, ops[0], key);
      var later := CreatedIn(Step(w, ops[0]), ops[1..], key);
      StepKeepsOnce(w, ops[0], key, made);
      StepAnswers(w, ops[0], key, made);
      StepKeepsSane(w, ops[0]);
      RunKeepsOnce(Step(w, ops[0]), ops[1..], key, made + now);
      Associate(made, now, later);
      assert |made + now + later| <= 1;
    } else {
      RightUnit(made);
    }
  }

  /** From the empty server: one activity per key at most, and one answer. */
  lemma KeyCreatesOnce(ops: seq<Op>, key: string)
    requires key != "" && KeySafeRun(EMPTY, ops, key)
    ensures |CreatedIn(EMPTY, ops, key)| <= 1
    ensures forall id | id in AnsweredIn(EMPTY, ops, key) :: CreatedIn(EMPTY, ops, key) == [id]
  {
    EmptyServerIsSane();
    RunKeepsOnce(EMPTY, ops, key, []);
    assert [] + CreatedIn(EMPTY, ops, key) == CreatedIn(EMPTY, ops, key);
  }
}
