/** The outstanding count over whole runs, and the consumer it never refuses. */
module Backpressure {
  import opened Outcomes
  import opened Events
  import opened EventStores
  import opened EventEngine
  import opened EventRuns

  /** What one call does to a stream's count. */
  datatype Move = Delivered(n: nat) | AckedCount(n: nat)

  function MovesOfStep(s: EngineState, op: Op, id: string): seq<Move>
  {
    if Handed(s, op, id) != [] then [Delivered(|Handed(s, op, id)|)]
    else if op.Ack? && op.id == id && id in s.streams then [AckedCount(|op.ids|)]
    else []
  }

  /** The accepted deliveries and acks of stream `id` over a run, oldest first. */
  function Moves(s: EngineState, ops: seq<Op>, id: string): seq<Move>
    decreases |ops|
  {
    if ops == [] then [] else MovesOfStep(s, ops[0], id) + Moves(Step(s, ops[0]).0, ops[1..], id)
  }

  /** Delivered minus acked. */
  function Net(h: seq<Move>): int
  {
    if h == [] then 0 else
      var change: int := if h[0].Delivered? then h[0].n else 0 - h[0].n;
      change + Net(h[1..])
  }

  /** `m` is the largest of `base + Net(h)` and the nets of the suffixes of `h`. */
  ghost predicate IsPeak(m: int, base: int, h: seq<Move>)
  {
    && base + Net(h) <= m
    && (forall i | 0 <= i <= |h| :: Net(h[i..]) <= m)
    && (m == base + Net(h) || exists i :: 0 <= i <= |h| && Net(h[i..]) == m)
  }

  lemma PeakCons(m: int, base: nat, move: Move, h: seq<Move>)
    requires var next := if move.Delivered? then base + move.n else base - move.n;
             IsPeak(m, if next < 0 then 0 else next, h)
    ensures IsPeak(m, base, [move] + h)
  {
    var all := [move] + h;
    assert all[1..] == h && all[0..] == all && h[0..] == h;
    forall i | 0 <= i <= |all|
      ensures Net(all[i..]) <= m
    {
      if i > 0 { assert all[i..] == h[i - 1..]; }
    }
    if exists i :: 0 <= i <= |h| && Net(h[i..]) == m {
      var i :| 0 <= i <= |h| && Net(h[i..]) == m;
      assert all[i + 1..] == h[i..];
    }
  }

  /** A stream whose count lies within its window. */
  ghost predicate WithinWindow(s: EngineState, id: string)
  {
    id in s.streams && id in s.windows && 0 <= OutstandingOf(s.outstanding, id) <= s.windows[id]
  }

  /** The engine before its first call. */
  function Idle(window: int): EngineState
  {
    EngineState(map[], map[], map[], map[], window)
  }

  /** Exactly the open streams have a window and a count, and each count lies within its window. */
  ghost predicate Ledger(s: EngineState)
  {
    && s.defaultWindow > 0
    && s.windows.Keys == s.streams.Keys && s.outstanding.Keys == s.streams.Keys
    && forall id | id in s.streams :: s.windows[id] > 0 && WithinWindow(s, id)
  }

  lemma OpenKeepsLedger(s: EngineState, op: Op)
    requires Ledger(s) && op.Open?
    ensures Ledger(Step(s, op).0)
  {
  }

  lemma ReadKeepsLedger(s: EngineState, op: Op)
    requires Ledger(s) && op.Read?
    ensures Ledger(Step(s, op).0)
  {
  }

  lemma AckKeepsLedger(s: EngineState, op: Op)
    requires Ledger(s) && op.Ack?
    ensures Ledger(Step(s, op).0)
  {
  }

  lemma StepKeepsLedger(s: EngineState, op: Op)
    requires Ledger(s)
    ensures Ledger(Step(s, op).0)
  {
    match op
    case Publish(_) =>
    case Open(_, _, _, _) => OpenKeepsLedger(s, op);
    case Read(_, _) => ReadKeepsLedger(s, op);
    case Resubscribe(_, _) =>
    case Ack(_, _) => AckKeepsLedger(s, op);
  }

  /** In every run of a new engine, every stream stays within its window. */
  lemma {:induction false} EveryStreamStaysWithinItsWindow(s: EngineState, ops: seq<Op>)
    requires Ledger(s)
    ensures Ledger(Run(s, ops))
    decreases |ops|
  {
    if ops != [] {
      StepKeepsLedger(s, ops[0]);
      EveryStreamStaysWithinItsWindow(Step(s, ops[0]).0, ops[1..]);
    }
  }

  lemma IdleLedger(window: int)
    requires window > 0
    ensures Ledger(Idle(window))
  {
  }

  /** The count after one call, clamped at zero. */
  ghost predicate Counts(s: EngineState, t: EngineState, id: string, moves: seq<Move>)
  {
    && WithinWindow(t, id) && id in s.windows && t.windows[id] == s.windows[id]
    && var next := OutstandingOf(s.outstanding, id) + Net(moves);
       OutstandingOf(t.outstanding, id) == if next < 0 then 0 else next
  }

  lemma NetOfOne(move: Move)
    ensures Net([move]) == (if move.Delivered? then move.n else 0 - move.n) && Net([]) == 0
  {
  }

  lemma ReadCounts(s: EngineState, id: string, limit: int)
    requires WithinWindow(s, id)
    ensures Counts(s, Step(s, Read(id, limit)).0, id, MovesOfStep(s, Read(id, limit), id))
  {
    NetOfOne(Delivered(|Handed(s, Read(id, limit), id)|));
  }

  lemma AckCounts(s: EngineState, id: string, ids: seq<string>)
    requires WithinWindow(s, id)
    ensures Counts(s, Step(s, Ack(id, ids)).0, id, MovesOfStep(s, Ack(id, ids), id))
  {
    NetOfOne(AckedCount(|ids|));
  }

  lemma OtherCallKeepsCount(s: EngineState, op: Op, id: string)
    requires WithinWindow(s, id) && !(op.Read? && op.id == id) && !(op.Ack? && op.id == id)
    ensures Counts(s, Step(s, op).0, id, MovesOfStep(s, op, id)) && MovesOfStep(s, op, id) == []
  {
    NetOfOne(Delivered(0));
  }

  lemma StepCounts(s: EngineState, op: Op, id: string)
    requires WithinWindow(s, id)
    ensures Counts(s, Step(s, op).0, id, MovesOfStep(s, op, id))
  {
    if op.Read? && op.id == id {
      ReadCounts(s, id, op.limit);
    } else if op.Ack? && op.id == id {
      AckCounts(s, id, op.ids);
    } else {
      OtherCallKeepsCount(s, op, id);
    }
  }

  /**
   Over any run the count stays within 0 and the window, and is the peak of the stream's history:
   for a stream that starts at 0, the largest net of any suffix. Acking more than was delivered
   therefore earns no credit.
   */
  lemma {:induction false} OutstandingIsPeakOfHistory(s: EngineState, ops: seq<Op>, id: string)
    requires WithinWindow(s, id)
    ensures WithinWindow(Run(s, ops), id)
    ensures IsPeak(OutstandingOf(Run(s, ops).outstanding, id), OutstandingOf(s.outstanding, id), Moves(s, ops, id))
    decreases |ops|
  {
    if ops != [] {
      var t := Step(s, ops[0]).0;
      var rest := Moves(t, ops[1..], id);
      StepCounts(s, ops[0], id);
      OutstandingIsPeakOfHistory(t, ops[1..], id);
      var moves := MovesOfStep(s, ops[0], id);
      if moves == [] {
        assert [] + rest == rest;
      } else {
        assert moves == [moves[0]];
        PeakCons(OutstandingOf(Run(s, ops).outstanding, id), OutstandingOf(s.outstanding, id), moves[0], rest);
      }
    }
  }

  /** The result of `rounds` rounds of reading up to `limit` events and acking exactly those. */
  datatype Drained = Drained(state: EngineState, events: seq<Event>, refused: bool)

  function IdsOf(events: seq<Event>): (ids: seq<string>)
    ensures |ids| == |events|
  {
    seq(|events|, i requires 0 <= i < |events| => events[i].eventId)
  }

  function Drain(s: EngineState, id: string, limit: int, rounds: nat): Drained
    decreases rounds
  {
    if rounds == 0 then Drained(s, [], false) else
      var (t, got) := ReadFrom(s, id, limit);
      if got.Err? then Drained(t, [], true) else
        var u := Acked(t, id, IdsOf(got.value)).0;
        var rest := Drain(u, id, limit, rounds - 1);
        Drained(rest.state, got.value + rest.events, rest.refused)
  }

  /** The state after one round that is not refused. */
  function AfterRound(s: EngineState, id: string, limit: int): EngineState
  {
    var (t, got) := ReadFrom(s, id, limit);
    if got.Err? then t else Acked(t, id, IdsOf(got.value)).0
  }

  /** A stream with everything acked, read with a limit that fits its window. */
  ghost predicate Steady(s: EngineState, id: string, limit: int)
  {
    OnLog(s, id) && id in s.windows && 0 < limit <= s.windows[id] && OutstandingOf(s.outstanding, id) == 0
  }

  /** A stream just opened in any run of a new engine can be read steadily, and its count starts at zero. */
  lemma OpenedIsSteady(window: int, ops: seq<Op>, id: string, session: string, activity: Option<string>, from: Option<string>, limit: int)
    requires 0 < limit <= window && id !in Run(Idle(window), ops).streams
    requires var log := LogOf(Run(Idle(window), ops).logs, StreamKey(session, activity)); Clean(log) && Known(log, from)
    ensures var s := Step(Run(Idle(window), ops), Open(id, session, activity, from)).0;
            WithinWindow(s, id) && Steady(s, id, limit)
  {
    var s := Run(Idle(window), ops);
    IdleLedger(window);
    EveryStreamStaysWithinItsWindow(Idle(window), ops);
    StepKeepsLedger(s, Open(id, session, activity, from));
    RunKeepsDefault(Idle(window), ops);
  }

  lemma {:induction false} RunKeepsDefault(s: EngineState, ops: seq<Op>)
    ensures Run(s, ops).defaultWindow == s.defaultWindow
    decreases |ops|
  {
    if ops != [] {
      RunKeepsDefault(Step(s, ops[0]).0, ops[1..]);
    }
  }

  lemma OneRound(s: EngineState, id: string, limit: int)
    requires Steady(s, id, limit)
    ensures var batch, u := Cut(StreamLog(s, id), Position(s, id), limit), AfterRound(s, id, limit);
            && ReadFrom(s, id, limit).1 == Ok(batch)
            && Steady(u, id, limit)
            && StreamLog(u, id) == StreamLog(s, id)
            && Position(u, id) == Position(s, id) + |batch|
  {
    ReadMoves(s, id, limit);
  }

  lemma CutTwice<T>(s: seq<T>, from: nat, a: nat, b: nat)
    requires from <= |s|
    ensures var first := Cut(s, from, a);
            from + |first| <= |s| && first + Cut(s, from + |first|, b) == Cut(s, from, a + b)
  {
  }

  function Times(rounds: nat, limit: nat): nat
  {
    if rounds == 0 then 0 else limit + Times(rounds - 1, limit)
  }

  lemma {:induction false} TimesIsProduct(rounds: nat, limit: nat)
    ensures Times(rounds, limit) == rounds * limit
  {
    if rounds > 0 { TimesIsProduct(rounds - 1, limit); }
  }

  /** One round, then the rest. */
  lemma DrainOneRound(s: EngineState, id: string, limit: int, rounds: nat)
    requires Steady(s, id, limit) && rounds > 0
    ensures var first, u := Cut(StreamLog(s, id), Position(s, id), limit), AfterRound(s, id, limit);
            var rest := Drain(u, id, limit, rounds - 1);
            && Steady(u, id, limit) && StreamLog(u, id) == StreamLog(s, id) && Position(u, id) == Position(s, id) + |first|
            && Drain(s, id, limit, rounds) == Drained(rest.state, first + rest.events, rest.refused)
  {
    OneRound(s, id, limit);
  }

  /**
   A consumer whose limit fits the window and who acks each batch is never refused, and after
   `rounds` rounds holds the first `rounds * limit` events of its backlog (all of it, if shorter).
   */
  lemma {:induction false} SteadyConsumerDrains(s: EngineState, id: string, limit: int, rounds: nat)
    requires Steady(s, id, limit)
    ensures var d := Drain(s, id, limit, rounds);
            && !d.refused
            && d.events == Cut(StreamLog(s, id), Position(s, id), Times(rounds, limit))
            && OutstandingOf(d.state.outstanding, id) == 0
    decreases rounds
  {
    if rounds > 0 {
      DrainOneRound(s, id, limit, rounds);
      SteadyConsumerDrains(AfterRound(s, id, limit), id, limit, rounds - 1);
      CutTwice(StreamLog(s, id), Position(s, id), limit, Times(rounds - 1, limit));
    }
  }

  /** A backlog of `n` events takes exactly the rounds that cover it: one fewer leaves some unread. */
  lemma BacklogNeedsCeilingRounds(s: EngineState, id: string, limit: int, rounds: nat)
    requires Steady(s, id, limit)
    ensures Drain(s, id, limit, rounds).events == StreamLog(s, id)[Position(s, id)..]
            <==> rounds * limit >= |StreamLog(s, id)| - Position(s, id)
  {
    SteadyConsumerDrains(s, id, limit, rounds);
    TimesIsProduct(rounds, limit);
  }
}
