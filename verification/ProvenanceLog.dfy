/** The provenance log: one record per policy decision, and no activity without an approval. */
module ProvenanceLog {
  import opened Outcomes
  import opened Activities
  import opened Lifecycle
  import opened ServerSanity
  import opened Idempotency
  import opened Sequences

  /** The decision a step takes, or the record it writes, if any. */
  function DecisionsBy(w: World, op: Op): seq<Provenance>
  {
    if op.Record? then [op.record]
    else if (op.Start? || op.BeginStart?) && ReachesPolicy(w, op.request, op.judgement)
    then [Provenance(PreInvoke, [op.request.sessionId, op.request.initiatorEntityId], op.judgement.allowed)]
    else []
  }

  function DecisionsIn(w: World, ops: seq<Op>): seq<Provenance>
    decreases |ops|
  {
    if ops == [] then [] else DecisionsBy(w, ops[0]) + DecisionsIn(Step(w, ops[0]), ops[1..])
  }

  lemma LaunchRecordsNothing(w: World, req: Request)
    ensures Launch(w, req).0.provenance == w.provenance
  {
  }

  lemma BeginRecords(w: World, req: Request, j: Judgement)
    ensures Begin(w, req, j).0.provenance == w.provenance + DecisionsBy(w, BeginStart(req, j))
  {
    RightUnit(w.provenance);
    if ReachesPolicy(w, req, j) {
      LaunchRecordsNothing(Governed(w, req, j), req);
    }
  }

  lemma StartRecords(w: World, req: Request, j: Judgement, end: HandlerEnd)
    ensures SyncStart(w, req, j, end).0.provenance == w.provenance + DecisionsBy(w, BeginStart(req, j))
  {
    StartEndsAsFinish(w, req, j, end);
    BeginRecords(w, req, j);
  }

  lemma StepRecords(w: World, op: Op)
    ensures Step(w, op).provenance == w.provenance + DecisionsBy(w, op)
  {
    match op
    case Start(req, j, end) => StartRecords(w, req, j, end);
    case BeginStart(req, j) => BeginRecords(w, req, j);
    case _ => RightUnit(w.provenance);
  }

  /** Over every run the log grows by exactly the decisions taken, allowed or denied, in their order. */
  lemma {:induction false} LogIsTheDecisions(w: World, ops: seq<Op>)
    ensures Run(w, ops).provenance == w.provenance + DecisionsIn(w, ops)
    decreases |ops|
  {
    if ops == [] {
      RightUnit(w.provenance);
    } else {
      StepRecords(w, ops[0]);
      LogIsTheDecisions(Step(w, ops[0]), ops[1..]);
      Associate(w.provenance, DecisionsBy(w, ops[0]), DecisionsIn(Step(w, ops[0]), ops[1..]));
    }
  }

  /** A refused start leaves nothing behind but the record of its decision, if it came to one. */
  lemma RefusedStartLeavesItsRecord(w: World, req: Request, j: Judgement)
    requires Sane(w) && Begin(w, req, j).1.Refused?
    ensures Begin(w, req, j).0 == w.(provenance := w.provenance + DecisionsBy(w, BeginStart(req, j)))
  {
    RightUnit(w.provenance);
    if ReachesPolicy(w, req, j) && j.allowed {
      assert Sane(Governed(w, req, j));
      LaunchEffect(Governed(w, req, j), req);
    }
  }

  /** How many of the records allow a start in this session by this initiator. */
  function Approvals(log: seq<Provenance>, session: string, initiator: string): nat
  {
    if log == [] then 0 else
      Approvals(log[..|log| - 1], session, initiator) + if log[|log| - 1] == Provenance(PreInvoke, [session, initiator], true) then 1 else 0
  }

  lemma ApprovalsSnoc(log: seq<Provenance>, p: Provenance, session: string, initiator: string)
    ensures Approvals(log + [p], session, initiator)
            == Approvals(log, session, initiator) + if p == Provenance(PreInvoke, [session, initiator], true) then 1 else 0
  {
    assert (log + [p])[..|log|] == log;
  }

  /** The activities of a session started by one initiator. */
  function StartedBy(activities: map<string, Activity>, session: string, initiator: string): set<string>
  {
    set id | id in activities && activities[id].sessionId == session && activities[id].initiatorEntityId == initiator
  }

  /** Each activity of the session and initiator has an approval of its own. */
  ghost predicate Approved(w: World, session: string, initiator: string)
  {
    |StartedBy(w.activities, session, initiator)| <= Approvals(w.provenance, session, initiator)
  }

  lemma PutBackKeepsStarter(activities: map<string, Activity>, a: Activity, session: string, initiator: string)
    requires a.activityId in activities
    requires a.sessionId == activities[a.activityId].sessionId && a.initiatorEntityId == activities[a.activityId].initiatorEntityId
    ensures StartedBy(activities[a.activityId := a], session, initiator) == StartedBy(activities, session, initiator)
  {
  }

  lemma NewStarter(activities: map<string, Activity>, a: Activity, session: string, initiator: string)
    requires a.activityId !in activities
    ensures |StartedBy(activities[a.activityId := a], session, initiator)| == |StartedBy(activities, session, initiator)|
            + if a.sessionId == session && a.initiatorEntityId == initiator then 1 else 0
  {
    var more := StartedBy(activities[a.activityId := a], session, initiator);
    assert more == StartedBy(activities, session, initiator)
                   + if a.sessionId == session && a.initiatorEntityId == initiator then {a.activityId} else {};
  }

  lemma LaunchStarts(w: World, req: Request, session: string, initiator: string)
    requires Sane(w) && req.ownerEntityId in w.entities && req.initiatorEntityId in w.entities
    ensures |StartedBy(Launch(w, req).0.activities, session, initiator)| <= |StartedBy(w.activities, session, initiator)|
            + if req.sessionId == session && req.initiatorEntityId == initiator then 1 else 0
  {
    SubmitFrame(w, req);
    var (v, r) := Submit(w, req);
    if r.Ok? {
      NewStarter(w.activities, NewActivity(req), session, initiator);
      ExecuteFrame(v, req);
      PutBackKeepsStarter(v.activities, AsWorking(req), session, initiator);
    }
  }

  lemma BeginKeepsApproved(w: World, req: Request, j: Judgement, session: string, initiator: string)
    requires Sane(w) && Approved(w, session, initiator)
    ensures Approved(Begin(w, req, j).0, session, initiator)
  {
    if ReachesPolicy(w, req, j) {
      var g := Governed(w, req, j);
      ApprovalsSnoc(w.provenance, Provenance(PreInvoke, [req.sessionId, req.initiatorEntityId], j.allowed), session, initiator);
      if j.allowed {
        assert Sane(g);
        LaunchStarts(g, req, session, initiator);
        LaunchRecordsNothing(g, req);
      }
    }
  }

  lemma FinishKeepsApproved(w: World, ticket: Ticket, end: HandlerEnd, session: string, initiator: string)
    requires Sane(w) && ticket in w.waiting && Approved(w, session, initiator)
    ensures Approved(Finish(w, ticket, end).0, session, initiator)
  {
    FinishFrame(w, ticket, end);
    var r := FinishedAs(w.activities[ticket.activity.activityId], end);
    if r.Ok? {
      PutBackKeepsStarter(w.activities, r.value, session, initiator);
    }
  }

  lemma ReviseKeepsApproved(w: World, id: string, change: Change, source: Option<string>, session: string, initiator: string)
    requires Sane(w) && Approved(w, session, initiator)
    ensures Approved(ChangeActivity(w, id, change, source).0, session, initiator)
  {
    if id in w.activities && Changed(w.activities[id], change).Ok? {
      var b := Changed(w.activities[id], change).value;
      PairFrame(w, b, if change.Cancel? then SERVER else ProducerOf(source));
      PutBackKeepsStarter(w.activities, b, session, initiator);
    }
  }

  lemma BegunKeepsApproved(u: World, v: World, r: Started, end: HandlerEnd, session: string, initiator: string)
    requires Sane(v) && Approved(v, session, initiator) && (r.Awaiting? ==> r.ticket in v.waiting)
    requires u == if r.Awaiting? then Finish(v, r.ticket, end).0 else v
    ensures Approved(u, session, initiator)
  {
    if r.Awaiting? {
      FinishKeepsApproved(v, r.ticket, end, session, initiator);
    }
  }

  lemma StartKeepsApproved(w: World, req: Request, j: Judgement, end: HandlerEnd, session: string, initiator: string)
    requires Sane(w) && Approved(w, session, initiator)
    ensures Approved(SyncStart(w, req, j, end).0, session, initiator)
  {
    StartEndsAsFinish(w, req, j, end);
    BeginKeepsApproved(w, req, j, session, initiator);
    BeginKeepsSane(w, req, j);
    BegunKeepsApproved(SyncStart(w, req, j, end).0, Begin(w, req, j).0, Begin(w, req, j).1, end, session, initiator);
  }

  /** Calls that touch neither activities nor the log. */
  lemma QuietKeepsApproved(w: World, op: Op, session: string, initiator: string)
    requires Approved(w, session, initiator) && !op.Start? && !op.BeginStart? && !op.FinishStart? && !op.Revise? && !op.Record?
    ensures Approved(Step(w, op), session, initiator)
  {
    assert Step(w, op).activities == w.activities && Step(w, op).provenance == w.provenance;
  }

  lemma StepKeepsApproved(w: World, op: Op, session: string, initiator: string)
    requires Sane(w) && Approved(w, session, initiator)
    ensures Approved(Step(w, op), session, initiator)
  {
    match op
    case Start(req, j, end) => StartKeepsApproved(w, req, j, end, session, initiator);
    case BeginStart(req, j) => BeginKeepsApproved(w, req, j, session, initiator);
    case FinishStart(ticket, end) =>
      if ticket in w.waiting {
        FinishKeepsApproved(w, ticket, end, session, initiator);
      }
    case Revise(id, change, source) => ReviseKeepsApproved(w, id, change, source, session, initiator);
    case Record(record) => ApprovalsSnoc(w.provenance, record, session, initiator);
    case _ => QuietKeepsApproved(w, op, session, initiator);
  }

  /**
   No activity without its own approval: in every run, a session and an initiator never have more
   activities than the log holds records allowing them one.
   */
  lemma {:induction false} EveryActivityWasApproved(w: World, ops: seq<Op>, session: string, initiator: string)
    requires Sane(w) && Approved(w, session, initiator)
    ensures Approved(Run(w, ops), session, initiator)
    decreases |ops|
  {
    if ops != [] {
      StepKeepsApproved(w, ops[0], session, initiator);
      StepKeepsSane(w, ops[0]);
      EveryActivityWasApproved(Step(w, ops[0]), ops[1..], session, initiator);
    }
  }
}
