/** Concrete runs from the empty server that reach the exceptions the run theorems speak of. */
module ServerWitnesses {
  import opened Outcomes
  import opened Events
  import opened Activities
  import opened Lifecycle
  import opened LifecycleHistory
  import opened LifecycleRuns
  import opened ServerSanity
  import opened Idempotency
  import opened Sequences
  import S = Sessions

  /** Two entities, one handler and one session. */
  const SETUP: seq<Op> := [
    RegisterEntity("a"),
    RegisterEntity("b"),
    RegisterHandler("run"),
    OnSession(S.Create("s", {"a", "b"}, map[], None, S.Budget(None, None), map[]))]

  const ROOM: S.Session :=
    S.Session("s", {"a", "b"}, map["a" := S.DEFAULT_ROLES, "b" := S.DEFAULT_ROLES], S.Active, None, S.Budget(None, None), map[])

  const READY: World :=
    World({"a", "b"}, {"run"}, map["s" := ROOM], map[], [Event(EventId(0), "session.created", "s", None, SERVER, map[])], map[], [], {})

  function Keyed(id: string): Request
  {
    Request("s", "a", "b", "run", map[], id, Some("k"), true)
  }

  const APPROVAL: Judgement := Judgement(0, None, true)

  lemma NotBlank(s: string)
    requires s != "" && !S.IsSpace(s[0])
    ensures !S.Blank(s)
  {
  }

  lemma RoomIsCreated()
    ensures S.Apply(map[], SETUP[3].call) == (map["s" := ROOM], Ok(ROOM))
  {
    NotBlank("s");
    assert |{"a", "b"}| == 2;
    assert S.WithDefaults(map[], {"a", "b"}) == ROOM.roles;
  }

  lemma SessionIsOpened(w: World)
    requires w == World({"a", "b"}, {"run"}, map[], map[], [], map[], [], {})
    ensures Step(w, SETUP[3]) == READY
  {
    RoomIsCreated();
    NotBlank("session.created");
    NotBlank("s");
    NotBlank(SERVER);
    assert EntitiesNamed(SETUP[3].call) - w.entities == {};
    assert [] + READY.published == READY.published;
  }

  lemma ReadyIsReached()
    ensures Run(EMPTY, SETUP) == READY && CleanRun(EMPTY, SETUP)
  {
    NotBlank("a");
    NotBlank("b");
    var first := EMPTY.(entities := {"a"});
    var second := EMPTY.(entities := {"a", "b"});
    var third := second.(handlers := {"run"});
    assert Step(EMPTY, SETUP[0]) == first;
    assert Step(first, SETUP[1]) == second;
    assert Step(second, SETUP[2]) == third;
    SessionIsOpened(third);
    assert SETUP[1..][1..] == SETUP[2..] && SETUP[2..][1..] == SETUP[3..] && SETUP[3..][1..] == [];
    assert Run(third, SETUP[3..]) == Run(READY, []);
    assert CleanRun(third, SETUP[3..]);
    assert CleanRun(second, SETUP[2..]);
    assert CleanRun(first, SETUP[1..]);
  }

  lemma NotBlankId(id: string)
    requires id in {"1", "2"}
    ensures !S.Blank(id)
  {
    NotBlank(id);
  }

  lemma ReadyLaunches()
    ensures Launches(READY, Keyed("1"), APPROVAL) && HasHandler(READY, Keyed("1"))
  {
    NotBlank("1");
  }

  lemma QuietRunReaches(ops: seq<Op>)
    requires CleanRun(EMPTY, ops) && forall op | op in ops :: !op.Start? && !op.BeginStart?
    ensures var w := Run(EMPTY, ops); Reaches(EMPTY, w, "k", []) && Sane(w) && HistoriesHold(w)
  {
    EmptyServerIsSane();
    RunKeepsSane(EMPTY, ops);
    HistoriesHoldInEveryRun(EMPTY, ops);
    NothingStarted(EMPTY, ops, "k");
  }

  /** It can start activity `1` under key `k`, and is reached from the empty server by a run that has not used the key. */
  ghost predicate ReadyServer(w: World)
  {
    && Reaches(EMPTY, w, "k", []) && Sane(w) && HistoriesHold(w)
    && Launches(w, Keyed("1"), APPROVAL) && HasHandler(w, Keyed("1")) && w.activities == map[]
  }

  /** A server that can start activity `1` under key `k`, reached by a clean run from the empty server. */
  lemma AReadyServer()
    ensures exists w :: ReadyServer(w)
  {
    ReadyIsReached();
    ReadyLaunches();
    QuietRunReaches(SETUP);
    assert ReadyServer(READY);
  }

  lemma {:induction false} NothingStarted(w: World, ops: seq<Op>, key: string)
    requires forall op | op in ops :: !op.Start? && !op.BeginStart?
    ensures CreatedIn(w, ops, key) == []
    decreases |ops|
  {
    if ops != [] {
      assert ops[0] in ops;
      NothingStarted(Step(w, ops[0]), ops[1..], key);
    }
  }

  lemma {:induction false} RunJoin(w: World, x: seq<Op>, y: seq<Op>)
    ensures Run(w, x + y) == Run(Run(w, x), y)
    decreases |x|
  {
    if x == [] {
      assert x + y == y;
    } else {
      assert (x + y)[1..] == x[1..] + y;
      RunJoin(Step(w, x[0]), x[1..], y);
    }
  }

  lemma {:induction false} CreatedJoin(w: World, x: seq<Op>, y: seq<Op>, key: string)
    ensures CreatedIn(w, x + y, key) == CreatedIn(w, x, key) + CreatedIn(Run(w, x), y, key)
    decreases |x|
  {
    if x == [] {
      assert x + y == y;
      assert [] + CreatedIn(w, y, key) == CreatedIn(w, y, key);
    } else {
      assert (x + y)[1..] == x[1..] + y;
      CreatedJoin(Step(w, x[0]), x[1..], y, key);
      Associate(CreatedBy(w, x[0], key), CreatedIn(Step(w, x[0]), x[1..], key), CreatedIn(Run(w, x), y, key));
    }
  }

  /** Some run leads from `w` to `v` and creates `made` under the key. */
  ghost predicate Reaches(w: World, v: World, key: string, made: seq<string>)
  {
    exists ops :: Run(w, ops) == v && CreatedIn(w, ops, key) == made
  }

  lemma StepReaches(w: World, op: Op, key: string)
    ensures Reaches(w, Step(w, op), key, CreatedBy(w, op, key))
  {
    assert [op][1..] == [];
    assert Run(Step(w, op), []) == Step(w, op);
    RightUnit(CreatedBy(w, op, key));
    assert Run(w, [op]) == Step(w, op) && CreatedIn(w, [op], key) == CreatedBy(w, op, key);
  }

  lemma ReachesJoin(w: World, v: World, u: World, key: string, made: seq<string>, more: seq<string>)
    requires Reaches(w, v, key, made) && Reaches(v, u, key, more)
    ensures Reaches(w, u, key, made + more)
  {
    var x :| Run(w, x) == v && CreatedIn(w, x, key) == made;
    var y :| Run(v, y) == u && CreatedIn(v, y, key) == more;
    RunJoin(w, x, y);
    CreatedJoin(w, x, y, key);
  }

  /** What a start, an update and the end of a handler leave alone. */
  ghost predicate SameRegistry(w: World, v: World)
  {
    v.entities == w.entities && v.handlers == w.handlers && v.sessions == w.sessions
  }

  lemma LaunchAddsKey(w: World, req: Request)
    requires Sane(w) && req.ownerEntityId in w.entities && req.initiatorEntityId in w.entities
    requires req.activityId !in w.activities && !S.Blank(req.activityId) && !S.Blank(req.sessionId)
    ensures Launch(w, req).0.activities.Keys == w.activities.Keys + {req.activityId}
  {
    SubmitFrame(w, req);
    PairSucceeds(w, NewActivity(req), req.initiatorEntityId);
    ExecuteFrame(Submit(w, req).0, req);
  }

  /** A start with a handler to run, seen from outside: its activity works and waits, everything else is as before. */
  ghost predicate Runs(w: World, v: World, req: Request, state: ActivityState)
  {
    && Sane(v) && SameRegistry(w, v) && v.activities.Keys == w.activities.Keys + {req.activityId}
    && v.activities[req.activityId].state == state
    && v.waiting == w.waiting + {Ticket(req, AsWorking(req))} && v.idempotency == w.idempotency
  }

  lemma BegunRuns(w: World, req: Request, j: Judgement)
    requires Sane(w) && Launches(w, req, j) && HasHandler(w, req)
    ensures Runs(w, Begin(w, req, j).0, req, Working)
  {
    var g := Governed(w, req, j);
    BeginEffect(w, req, j);
    BeginKeepsSane(w, req, j);
    AwaitingIsWorking(w, req, j);
    assert Sane(g);
    LaunchAddsKey(g, req);
  }

  lemma CompletedRuns(w: World, v: World, req: Request)
    requires Runs(w, v, req, Working)
    ensures Runs(w, ChangeActivity(v, req.activityId, Complete(None, None), None).0, req, Completed)
  {
    var done := CompletedWith(v.activities[req.activityId], None, None);
    ChangeKeepsSane(v, req.activityId, Complete(None, None), None);
    PairFrame(v, done.value, SERVER);
  }

  /**
   A start that another caller's completion has overtaken raises when its handler returns, and leaves
   no answer under its key: the same request with a new activity id then launches a second activity.
   */
  lemma OvertakenStartIsRetried(w: World, v: World, req: Request, j: Judgement, end: HandlerEnd, again: Request, key: string)
    requires Launches(w, req, j) && Uses(req, key) && Runs(w, v, req, Completed) && end.Returned?
    requires again == req.(activityId := again.activityId) && again.activityId !in v.activities && !S.Blank(again.activityId)
    ensures var (u, r) := Finish(v, Ticket(req, AsWorking(req)), end);
            r.Err? && CreatedBy(u, BeginStart(again, j), key) == [again.activityId]
  {
    OvertakenEnd(w, v, req, end);
    RetryLaunches(w, Finish(v, Ticket(req, AsWorking(req)), end).0, req, again, j, key);
  }

  lemma OvertakenEnd(w: World, v: World, req: Request, end: HandlerEnd)
    requires Runs(w, v, req, Completed) && end.Returned?
    ensures var (u, r) := Finish(v, Ticket(req, AsWorking(req)), end);
            r.Err? && Sane(u) && SameRegistry(w, u) && u.idempotency == w.idempotency && u.activities == v.activities
  {
    var ticket := Ticket(req, AsWorking(req));
    FinishEffect(v, ticket, end);
    FinishFrame(v, ticket, end);
    FinishKeepsSane(v, ticket, end);
  }

  lemma RetryLaunches(w: World, u: World, req: Request, again: Request, j: Judgement, key: string)
    requires Launches(w, req, j) && Uses(req, key) && Sane(u) && SameRegistry(w, u) && u.idempotency == w.idempotency
    requires again == req.(activityId := again.activityId) && again.activityId !in u.activities && !S.Blank(again.activityId)
    ensures CreatedBy(u, BeginStart(again, j), key) == [again.activityId]
  {
    LaunchesAgain(w, u, req, again, j);
    CreatesIfLaunches(u, BeginStart(again, j), key);
  }

  lemma LaunchesAgain(w: World, u: World, req: Request, again: Request, j: Judgement)
    requires Launches(w, req, j) && SameRegistry(w, u) && u.idempotency == w.idempotency
    requires again == req.(activityId := again.activityId) && again.activityId !in u.activities && !S.Blank(again.activityId)
    ensures Launches(u, again, j)
  {
    assert FingerprintOf(again) == FingerprintOf(req);
  }

  lemma BeginReachesOne(w: World, req: Request, j: Judgement, key: string)
    requires Sane(w) && Launches(w, req, j) && Uses(req, key)
    ensures Reaches(w, Begin(w, req, j).0, key, [req.activityId])
  {
    StepReaches(w, BeginStart(req, j), key);
    CreatesIfLaunches(w, BeginStart(req, j), key);
  }

  lemma ReviseReaches(w: World, id: string, change: Change, source: Option<string>, key: string)
    ensures Reaches(w, ChangeActivity(w, id, change, source).0, key, [])
  {
    StepReaches(w, Revise(id, change, source), key);
  }

  lemma EndReaches(v: World, ticket: Ticket, end: HandlerEnd, key: string)
    requires ticket in v.waiting
    ensures Reaches(v, Finish(v, ticket, end).0, key, [])
  {
    StepReaches(v, FinishStart(ticket, end), key);
  }

  lemma FinishThenRetry(w: World, v: World, req: Request, j: Judgement, again: Request, key: string) returns (u: World)
    requires Launches(w, req, j) && Uses(req, key) && Runs(w, v, req, Completed)
    requires again == req.(activityId := again.activityId) && again.activityId !in v.activities && !S.Blank(again.activityId)
    ensures Reaches(v, u, key, [again.activityId])
  {
    var ticket, end := Ticket(req, AsWorking(req)), Returned(map[], None, true);
    OvertakenStartIsRetried(w, v, req, j, end, again, key);
    EndReaches(v, ticket, end, key);
    var t := Finish(v, ticket, end).0;
    u := Step(t, BeginStart(again, j));
    StepReaches(t, BeginStart(again, j), key);
    ReachesJoin(v, t, u, key, [], [again.activityId]);
    assert [] + [again.activityId] == [again.activityId];
  }

  lemma CompleteThenRetry(w: World, v: World, req: Request, j: Judgement, again: Request, key: string) returns (u: World)
    requires Launches(w, req, j) && Uses(req, key) && Runs(w, v, req, Working)
    requires again == req.(activityId := again.activityId) && again.activityId !in v.activities && !S.Blank(again.activityId)
    ensures Reaches(v, u, key, [again.activityId])
  {
    var t := ChangeActivity(v, req.activityId, Complete(None, None), None).0;
    ReviseReaches(v, req.activityId, Complete(None, None), None, key);
    CompletedRuns(w, v, req);
    u := FinishThenRetry(w, t, req, j, again, key);
    ReachesJoin(v, t, u, key, [], [again.activityId]);
    assert [] + [again.activityId] == [again.activityId];
  }

  lemma ReachesPair(w: World, v: World, u: World, key: string, a: string, b: string)
    requires Reaches(w, v, key, [a]) && Reaches(v, u, key, [b])
    ensures Reaches(w, u, key, [a, b])
  {
    ReachesJoin(w, v, u, key, [a], [b]);
    assert [a] + [b] == [a, b];
  }

  lemma BeginThenRetry(w: World, req: Request, j: Judgement, again: Request, key: string) returns (u: World)
    requires Sane(w) && Launches(w, req, j) && HasHandler(w, req) && Uses(req, key)
    requires again == req.(activityId := again.activityId) && !S.Blank(again.activityId)
    requires again.activityId !in w.activities && again.activityId != req.activityId
    ensures Reaches(w, u, key, [req.activityId, again.activityId])
  {
    var v := Begin(w, req, j).0;
    BeginReachesOne(w, req, j, key);
    BegunRuns(w, req, j);
    u := CompleteThenRetry(w, v, req, j, again, key);
    ReachesPair(w, v, u, key, req.activityId, again.activityId);
  }

  /** Where a step is not safe for its key, a retry can create a second activity: from the empty server, one key and two activities. */
  lemma TwoActivitiesUnderOneKey()
    ensures exists w :: Reaches(EMPTY, w, "k", ["1", "2"])
  {
    AReadyServer();
    var w :| ReadyServer(w);
    TwiceUnderOneKey(w);
  }

  lemma TwiceUnderOneKey(w: World)
    requires ReadyServer(w)
    ensures exists u :: Reaches(EMPTY, u, "k", ["1", "2"])
  {
    NotBlankId("2");
    var u := BeginThenRetry(w, Keyed("1"), APPROVAL, Keyed("2"), "k");
    ReachesJoin(EMPTY, w, u, "k", [], ["1", "2"]);
    assert [] + ["1", "2"] == ["1", "2"];
  }

  /** A server in some run from the empty one on which activity `1` is working and its handler runs. */
  ghost predicate RunningServer(v: World, ticket: Ticket)
  {
    && Reaches(EMPTY, v, "k", ["1"]) && Sane(v) && HistoriesHold(v)
    && ticket in v.waiting && ticket.activity.activityId == "1"
    && "1" in v.activities && v.activities["1"].state == Working
  }

  lemma ARunningServer()
    ensures exists v, ticket :: RunningServer(v, ticket)
  {
    AReadyServer();
    var w :| ReadyServer(w);
    var v := Begin(w, Keyed("1"), APPROVAL).0;
    BeginReachesOne(w, Keyed("1"), APPROVAL, "k");
    BegunRuns(w, Keyed("1"), APPROVAL);
    BeginKeeps(w, Keyed("1"), APPROVAL);
    var ticket := Ticket(Keyed("1"), AsWorking(Keyed("1")));
    ReachesJoin(EMPTY, w, v, "k", [], ["1"]);
    assert [] + ["1"] == ["1"];
    assert RunningServer(v, ticket);
  }

  lemma SpaceSkips(v: World, id: string)
    requires id in v.activities && v.activities[id].state == Working
    ensures exists op: Op :: op.Revise? && NoForgery(op) && Skips(v, op)
  {
    var op := Revise(id, ToState(InputRequired, None, map[]), Some("\U{A0}"));
    assert NoForgery(op) && Skips(v, op);
  }

  lemma UnmeasuredSkips(v: World, ticket: Ticket)
    requires ticket in v.waiting && ticket.activity.activityId in v.activities
    requires v.activities[ticket.activity.activityId].state == Working
    ensures exists op: Op :: op.FinishStart? && NoForgery(op) && Skips(v, op)
  {
    var op := FinishStart(ticket, Returned(map[], None, false));
    assert NoForgery(op) && Skips(v, op);
  }

  /** A step that is reached, skips its event, and leaves a history that does not end in the stored state. */
  ghost predicate SkipReached(w: World, op: Op)
  {
    Reaches(EMPTY, w, "k", ["1"]) && Skips(w, op) && !HistoriesHold(Step(w, op))
  }

  /** Both ways to skip an event happen in reachable states: an update by a producer of white space, and a result that cannot be measured. */
  lemma EventsAreSkipped()
    ensures exists w, op: Op :: op.Revise? && SkipReached(w, op)
    ensures exists w, op: Op :: op.FinishStart? && SkipReached(w, op)
  {
    ARunningServer();
    var v, ticket :| RunningServer(v, ticket);
    SpaceSkips(v, "1");
    var spaced: Op :| spaced.Revise? && NoForgery(spaced) && Skips(v, spaced);
    UnmeasuredSkips(v, ticket);
    var unmeasured: Op :| unmeasured.FinishStart? && NoForgery(unmeasured) && Skips(v, unmeasured);
    StepKeepsHistories(v, spaced);
    StepKeepsHistories(v, unmeasured);
    assert SkipReached(v, spaced) && SkipReached(v, unmeasured);
  }

  /** The activity is canceled, but its handler still runs. */
  ghost predicate CanceledWhileRunning(w: World, ticket: Ticket)
  {
    && ticket in w.waiting
    && ticket.activity.activityId in w.activities && w.activities[ticket.activity.activityId].state == Canceled
  }

  lemma CancelReaches(v: World, ticket: Ticket, key: string)
    requires Sane(v) && ticket in v.waiting && v.activities[ticket.activity.activityId].state == Working
    ensures exists u :: Reaches(v, u, key, []) && CanceledWhileRunning(u, ticket)
  {
    var op := Revise(ticket.activity.activityId, Cancel(None), None);
    StepReaches(v, op, key);
    CanceledActivityCanFail(v, ticket, "x");
    assert CanceledWhileRunning(Step(v, op), ticket);
  }

  /** So does the late failure: the handler of a canceled activity can still raise. */
  lemma LateFailureHappens()
    ensures exists w, op: Op, id: string ::
              Reaches(EMPTY, w, "k", ["1"]) && id in w.activities && w.activities[id].state == Canceled && FailsLate(w, op, id)
  {
    ARunningServer();
    var v, ticket :| RunningServer(v, ticket);
    CancelReaches(v, ticket, "k");
    var u :| Reaches(v, u, "k", []) && CanceledWhileRunning(u, ticket);
    ReachesJoin(EMPTY, v, u, "k", ["1"], []);
    assert ["1"] + [] == ["1"];
    assert FailsLate(u, FinishStart(ticket, Raised("x")), "1");
  }
}
