/** The history theorem over runs, and when a terminal state is final. */
module LifecycleRuns {
  import opened Outcomes
  import opened Activities
  import opened Lifecycle
  import opened LifecycleHistory
  import opened ServerSanity
  import S = Sessions

  lemma SessionStepKeeps(w: World, call: S.Call)
    requires HistoriesHold(w)
    ensures HistoriesHold(SessionStep(w, call).0)
  {
    var (sessions, r) := S.Apply(w.sessions, call);
    var (eventType, producer) := SessionEvent(call);
    var stored := w.(sessions := sessions);
    assert HistoriesHold(stored);
    EmitKeepsHistories(stored, eventType, call.id, None, producer);
  }

  /** The step stores a changed activity state but fails before its event. */
  predicate Skips(w: World, op: Op)
  {
    match op
    case Revise(id, change, source) => id in w.activities && Changed(w.activities[id], change).Ok? && BlankSource(change, source)
    case FinishStart(ticket, end) => ticket in w.waiting && Unmeasured(w, ticket, end)
    case Start(req, j, end) => var (v, r) := Begin(w, req, j); r.Awaiting? && Unmeasured(v, r.ticket, end)
    case _ => false
  }

  /** The public `emit_event` is not used to forge lifecycle events. */
  predicate NoForgery(op: Op)
  {
    op.PublicEmit? && op.activity.Some? ==> !IsLifecycleType(op.eventType)
  }

  lemma BegunKeeps(w: World, v: World, r: Started, end: HandlerEnd)
    requires Sane(v) && HistoriesHold(v) && (r.Awaiting? ==> r.ticket in v.waiting)
    requires w == if r.Awaiting? then Finish(v, r.ticket, end).0 else v
    ensures HistoriesHold(w) <==> !(r.Awaiting? && Unmeasured(v, r.ticket, end))
  {
    if r.Awaiting? {
      FinishKeepsHistories(v, r.ticket, end);
    }
  }

  lemma StartStepKeeps(w: World, req: Request, j: Judgement, end: HandlerEnd)
    requires Sane(w) && HistoriesHold(w)
    ensures HistoriesHold(SyncStart(w, req, j, end).0) <==> !Skips(w, Start(req, j, end))
  {
    StartEndsAsFinish(w, req, j, end);
    BeginKeepsSane(w, req, j);
    BeginKeeps(w, req, j);
    BegunKeeps(SyncStart(w, req, j, end).0, Begin(w, req, j).0, Begin(w, req, j).1, end);
  }

  /** One step keeps every activity's events in line with its state if and only if it does not skip an event. */
  lemma StepKeepsHistories(w: World, op: Op)
    requires Sane(w) && HistoriesHold(w) && NoForgery(op)
    ensures HistoriesHold(Step(w, op)) <==> !Skips(w, op)
  {
    match op
    case OnSession(call) => SessionStepKeeps(w, call);
    case Record(_) => SameHistories(w, Step(w, op));
    case PublicEmit(eventType, session, activity, producer) => EmitKeepsHistories(w, eventType, session, activity, producer);
    case Start(req, j, end) => StartStepKeeps(w, req, j, end);
    case BeginStart(req, j) => BeginKeeps(w, req, j);
    case FinishStart(ticket, end) => if ticket in w.waiting { FinishKeepsHistories(w, ticket, end); }
    case Revise(id, change, source) => ReviseKeepsHistories(w, id, change, source);
    case RegisterEntity(_) =>
    case RegisterHandler(_) =>
  }

  ghost predicate CleanRun(w: World, ops: seq<Op>)
    decreases |ops|
  {
    ops == [] || (NoForgery(ops[0]) && !Skips(w, ops[0]) && CleanRun(Step(w, ops[0]), ops[1..]))
  }

  /**
   From the empty server, through any interleaving of starts, awaits, updates, cancels and
   completions, each activity's lifecycle events begin with its submission, follow the allowed
   edges, and end in its stored state.
   */
  lemma {:induction false} HistoriesHoldInEveryRun(w: World, ops: seq<Op>)
    requires Sane(w) && HistoriesHold(w) && CleanRun(w, ops)
    ensures HistoriesHold(Run(w, ops))
    decreases |ops|
  {
    if ops != [] {
      StepKeepsHistories(w, ops[0]);
      StepKeepsSane(w, ops[0]);
      HistoriesHoldInEveryRun(Step(w, ops[0]), ops[1..]);
    }
  }

  /** The late failure: the handler of a finished activity raises after all. */
  predicate FailsLate(w: World, op: Op, id: string)
  {
    op.FinishStart? && op.ticket in w.waiting && op.ticket.activity.activityId == id && op.end.Raised?
  }

  /** The step left the activity's record as it was. */
  predicate Spares(w: World, v: World, id: string)
  {
    id in w.activities && id in v.activities && v.activities[id] == w.activities[id]
  }

  lemma ChangeSparesTerminal(w: World, id: string, change: Change, source: Option<string>, done: string)
    requires Sane(w) && done in w.activities && w.activities[done].state in TERMINAL
    ensures Spares(w, ChangeActivity(w, id, change, source).0, done)
  {
    if id in w.activities && Changed(w.activities[id], change).Ok? {
      var b := Changed(w.activities[id], change).value;
      PairFrame(w, b, if change.Cancel? then SERVER else ProducerOf(source));
    }
  }

  lemma BeginSpares(w: World, req: Request, j: Judgement, done: string)
    requires done in w.activities
    ensures var (v, r) := Begin(w, req, j);
            Spares(w, v, done) && (r.Awaiting? ==> r.ticket.activity.activityId != done)
  {
  }

  lemma FinishSparesOthers(w: World, ticket: Ticket, end: HandlerEnd, done: string)
    requires Sane(w) && ticket in w.waiting && done in w.activities && ticket.activity.activityId != done
    ensures Spares(w, Finish(w, ticket, end).0, done)
  {
    FinishFrame(w, ticket, end);
  }

  lemma FinishSparesTerminal(w: World, ticket: Ticket, end: HandlerEnd)
    requires Sane(w) && ticket in w.waiting && w.activities[ticket.activity.activityId].state in TERMINAL && !end.Raised?
    ensures Spares(w, Finish(w, ticket, end).0, ticket.activity.activityId)
  {
    FinishFrame(w, ticket, end);
  }

  lemma StartSpares(w: World, req: Request, j: Judgement, end: HandlerEnd, done: string)
    requires Sane(w) && done in w.activities
    ensures Spares(w, SyncStart(w, req, j, end).0, done)
  {
    StartEndsAsFinish(w, req, j, end);
    BeginSpares(w, req, j, done);
    BeginKeepsSane(w, req, j);
    BegunSpares(w, SyncStart(w, req, j, end).0, Begin(w, req, j).0, Begin(w, req, j).1, end, done);
  }

  lemma BegunSpares(w: World, u: World, v: World, r: Started, end: HandlerEnd, done: string)
    requires Sane(v) && Spares(w, v, done) && (r.Awaiting? ==> r.ticket in v.waiting && r.ticket.activity.activityId != done)
    requires u == if r.Awaiting? then Finish(v, r.ticket, end).0 else v
    ensures Spares(w, u, done)
  {
    if r.Awaiting? {
      FinishSparesOthers(v, r.ticket, end, done);
    }
  }

  /** A step that is no late failure of a terminal activity leaves its whole record alone. */
  lemma StepSparesTerminal(w: World, op: Op, id: string)
    requires Sane(w) && id in w.activities && w.activities[id].state in TERMINAL && !FailsLate(w, op, id)
    ensures Spares(w, Step(w, op), id)
  {
    match op
    case Start(req, j, end) => StartSpares(w, req, j, end, id);
    case BeginStart(req, j) => BeginSpares(w, req, j, id);
    case FinishStart(ticket, end) =>
      if ticket in w.waiting {
        if ticket.activity.activityId == id {
          FinishSparesTerminal(w, ticket, end);
        } else {
          FinishSparesOthers(w, ticket, end, id);
        }
      }
    case Revise(other, change, source) => ChangeSparesTerminal(w, other, change, source, id);
    case _ =>
  }

  lemma LateFailureFails(w: World, op: Op, id: string)
    requires Sane(w) && FailsLate(w, op, id)
    ensures id in Step(w, op).activities && Step(w, op).activities[id].state == Failed
  {
    FinishFrame(w, op.ticket, op.end);
  }

  /** A terminal state changes in exactly one way: the handler still running for the activity raises, and it was not failed yet. */
  lemma TerminalChangesOnlyByLateFailure(w: World, op: Op, id: string)
    requires Sane(w) && id in w.activities && w.activities[id].state in TERMINAL
    ensures id in Step(w, op).activities
    ensures Step(w, op).activities[id].state != w.activities[id].state <==> FailsLate(w, op, id) && w.activities[id].state != Failed
    ensures !FailsLate(w, op, id) ==> Step(w, op).activities[id] == w.activities[id]
  {
    if FailsLate(w, op, id) {
      LateFailureFails(w, op, id);
    } else {
      StepSparesTerminal(w, op, id);
    }
  }

  /** Some step of the run is a late failure of the activity. */
  ghost predicate EverFailsLate(w: World, ops: seq<Op>, id: string)
    decreases |ops|
  {
    ops != [] && (FailsLate(w, ops[0], id) || EverFailsLate(Step(w, ops[0]), ops[1..], id))
  }

  lemma {:induction false} FailedStaysFailed(w: World, ops: seq<Op>, id: string)
    requires Sane(w) && id in w.activities && w.activities[id].state == Failed
    ensures id in Run(w, ops).activities && Run(w, ops).activities[id].state == Failed
    decreases |ops|
  {
    if ops != [] {
      TerminalChangesOnlyByLateFailure(w, ops[0], id);
      StepKeepsSane(w, ops[0]);
      FailedStaysFailed(Step(w, ops[0]), ops[1..], id);
    }
  }

  /**
   Over any run at all, events skipped or forged included, a completed, canceled or rejected
   activity keeps its state if and only if no handler still running for it raises; and without
   such a late failure any terminal activity keeps its whole record.
   */
  lemma {:induction false} TerminalIsAbsorbing(w: World, ops: seq<Op>, id: string)
    requires Sane(w) && id in w.activities && w.activities[id].state in TERMINAL
    ensures id in Run(w, ops).activities
    ensures Run(w, ops).activities[id].state == w.activities[id].state
            <==> w.activities[id].state == Failed || !EverFailsLate(w, ops, id)
    ensures !EverFailsLate(w, ops, id) ==> Run(w, ops).activities[id] == w.activities[id]
    decreases |ops|
  {
    if ops != [] {
      var v := Step(w, ops[0]);
      TerminalChangesOnlyByLateFailure(w, ops[0], id);
      StepKeepsSane(w, ops[0]);
      if FailsLate(w, ops[0], id) {
        LateFailureFails(w, ops[0], id);
        FailedStaysFailed(v, ops[1..], id);
      } else {
        TerminalIsAbsorbing(v, ops[1..], id);
      }
    }
  }

  /** Synchronous starts leave no handler behind that could fail late. */
  lemma {:induction false} WithoutAwaitsNothingFailsLate(w: World, ops: seq<Op>, id: string)
    requires forall op | op in ops :: !op.FinishStart?
    ensures !EverFailsLate(w, ops, id)
    decreases |ops|
  {
    if ops != [] {
      assert ops[0] in ops;
      WithoutAwaitsNothingFailsLate(Step(w, ops[0]), ops[1..], id);
    }
  }

  /** Such a failure is possible: a running activity that is canceled, and whose handler then raises, ends as failed. */
  lemma CanceledActivityCanFail(w: World, ticket: Ticket, message: string)
    requires Sane(w) && ticket in w.waiting
    requires w.activities[ticket.activity.activityId].state == Working
    ensures var id := ticket.activity.activityId;
            var canceled := ChangeActivity(w, id, Cancel(None), None).0;
            var failed := Finish(canceled, ticket, Raised(message)).0;
            && id in canceled.activities && canceled.activities[id].state == Canceled && ticket in canceled.waiting
            && id in failed.activities && failed.activities[id].state == Failed
  {
    var id := ticket.activity.activityId;
    PairFrame(w, CanceledWith(w.activities[id], None).value, SERVER);
    FinishFrame(ChangeActivity(w, id, Cancel(None), None).0, ticket, Raised(message));
  }
}
