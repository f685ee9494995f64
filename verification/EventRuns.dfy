/** What every run of the event engine keeps: replay positions, windows, and how the two logs relate. */
module EventRuns {
  import opened Outcomes
  import opened Events
  import opened EventStores
  import opened EventEngine

  datatype Op =
    | Publish(event: Event)
    | Open(id: string, sessionId: string, activityId: Option<string>, from: Option<string>)
    | Read(id: string, limit: int)
    | Resubscribe(id: string, last: string)
    | Ack(id: string, ids: seq<string>)

  /** One call; the second component is what a read hands out. A refused call changes nothing. */
  function Step(s: EngineState, op: Op): (EngineState, seq<Event>)
  {
    match op
    case Publish(e) => (s.(logs := Published(s.logs, e)), [])
    case Open(id, session, activity, from) => (if id in s.streams then s else Opened(s, id, session, activity, from), [])
    case Read(id, limit) => var (t, r) := ReadFrom(s, id, limit); (t, if r.Ok? then r.value else [])
    case Resubscribe(id, last) => (Resubscribed(s, id, last).0, [])
    case Ack(id, ids) => (Acked(s, id, ids).0, [])
  }

  function Run(s: EngineState, ops: seq<Op>): EngineState
    decreases |ops|
  {
    if ops == [] then s else Run(Step(s, ops[0]).0, ops[1..])
  }

  /** The log a stream reads. */
  function StreamLog(s: EngineState, id: string): seq<Event>
  {
    if id in s.streams then LogOf(s.logs, s.streams[id].Key()) else []
  }

  lemma PublishGrows(logs: Logs, e: Event, key: string)
    ensures LogOf(logs, key) <= LogOf(Published(logs, e), key)
  {
  }

  /** Logs only grow and a stream keeps its key. */
  lemma StepGrows(s: EngineState, op: Op, key: string)
    ensures LogOf(s.logs, key) <= LogOf(Step(s, op).0.logs, key)
    ensures forall id | id in s.streams :: id in Step(s, op).0.streams && Step(s, op).0.streams[id].Key() == s.streams[id].Key()
  {
    if op.Publish? {
      PublishGrows(s.logs, op.event, key);
    }
    forall id | id in s.streams
      ensures id in Step(s, op).0.streams && Step(s, op).0.streams[id].Key() == s.streams[id].Key()
    {
    }
  }

  lemma {:induction false} RunGrows(s: EngineState, ops: seq<Op>, id: string)
    requires id in s.streams
    ensures id in Run(s, ops).streams && Run(s, ops).streams[id].Key() == s.streams[id].Key()
    ensures StreamLog(s, id) <= StreamLog(Run(s, ops), id)
    decreases |ops|
  {
    if ops != [] {
      StepGrows(s, ops[0], s.streams[id].Key());
      RunGrows(Step(s, ops[0]).0, ops[1..], id);
    }
  }

  /** Event ids are non-empty and distinct. */
  ghost predicate Clean(log: seq<Event>)
  {
    UniqueIds(log) && forall e | e in log :: e.eventId != ""
  }

  /** The cursor is unset, or names an event of the log. */
  ghost predicate Known(log: seq<Event>, cursor: Option<string>)
  {
    Truthy(cursor) ==> ResumeAt(log, cursor) > 0
  }

  /** A known cursor keeps its position while the log grows. */
  lemma ResumeStable(log: seq<Event>, more: seq<Event>, cursor: Option<string>)
    requires log <= more && Known(log, cursor)
    ensures Known(more, cursor) && ResumeAt(more, cursor) == ResumeAt(log, cursor)
  {
    if Truthy(cursor) {
      FirstIndexIsFirst(log, cursor.value);
      FirstIndexUnique(more, cursor.value, ResumeAt(log, cursor));
    }
  }

  /** In a clean log, the id of the event at position `i` resumes right behind it. */
  lemma ResumeBehind(log: seq<Event>, i: nat)
    requires i < |log| && Clean(log)
    ensures Known(log, Some(log[i].eventId)) && ResumeAt(log, Some(log[i].eventId)) == i + 1
  {
    assert log[i] in log;
    FirstIndexUnique(log, log[i].eventId, i + 1);
  }

  /** Where stream `id` stands in its log. */
  function Position(s: EngineState, id: string): nat
    requires id in s.streams
  {
    ResumeAt(StreamLog(s, id), s.streams[id].cursor)
  }

  ghost predicate OnLog(s: EngineState, id: string)
  {
    id in s.streams && Clean(StreamLog(s, id)) && Known(StreamLog(s, id), s.streams[id].cursor)
  }

  lemma CutIsSegment<T>(s: seq<T>, from: nat, limit: nat)
    requires from <= |s|
    ensures from + |Cut(s, from, limit)| <= |s| && Cut(s, from, limit) == s[from..from + |Cut(s, from, limit)|]
  {
  }

  /** What a read changes of its stream: nothing, or the cursor, to the last event handed out. */
  lemma ReadShape(s: EngineState, id: string, limit: int)
    requires id in s.streams
    ensures var (t, got) := Step(s, Read(id, limit));
            && t.logs == s.logs && id in t.streams && t.streams[id].Key() == s.streams[id].Key()
            && if got == [] then t.streams[id].cursor == s.streams[id].cursor
               else limit > 0 && got == Cut(StreamLog(s, id), Position(s, id), limit)
                    && t.streams[id].cursor == Some(got[|got| - 1].eventId)
  {
  }

  /** A read hands out the events from the stream's position on, and moves the position past them. */
  lemma ReadMoves(s: EngineState, id: string, limit: int)
    requires OnLog(s, id)
    ensures var (t, got) := Step(s, Read(id, limit));
            && t.logs == s.logs && OnLog(t, id)
            && Position(s, id) + |got| <= |StreamLog(s, id)|
            && got == StreamLog(s, id)[Position(s, id)..Position(s, id) + |got|]
            && Position(t, id) == Position(s, id) + |got|
  {
    ReadShape(s, id, limit);
    MovedCursor(s, Step(s, Read(id, limit)).0, Step(s, Read(id, limit)).1, id, limit);
  }

  lemma MovedCursor(s: EngineState, t: EngineState, got: seq<Event>, id: string, limit: int)
    requires OnLog(s, id) && t.logs == s.logs && id in t.streams && t.streams[id].Key() == s.streams[id].Key()
    requires if got == [] then t.streams[id].cursor == s.streams[id].cursor
             else limit > 0 && got == Cut(StreamLog(s, id), Position(s, id), limit)
                  && t.streams[id].cursor == Some(got[|got| - 1].eventId)
    ensures OnLog(t, id) && Position(s, id) + |got| <= |StreamLog(s, id)|
    ensures got == StreamLog(s, id)[Position(s, id)..Position(s, id) + |got|]
    ensures Position(t, id) == Position(s, id) + |got|
  {
    if got != [] {
      CutIsSegment(StreamLog(s, id), Position(s, id), limit);
      ResumeBehind(StreamLog(s, id), Position(s, id) + |got| - 1);
    }
  }

  /** No other call moves stream `id`, except resubscribing it. */
  lemma OtherStepKeepsPosition(s: EngineState, op: Op, id: string)
    requires OnLog(s, id) && Clean(StreamLog(Step(s, op).0, id))
    requires !(op.Read? && op.id == id) && !(op.Resubscribe? && op.id == id)
    ensures OnLog(Step(s, op).0, id) && Position(Step(s, op).0, id) == Position(s, id)
  {
    StepGrows(s, op, s.streams[id].Key());
    ResumeStable(StreamLog(s, id), StreamLog(Step(s, op).0, id), s.streams[id].cursor);
  }

  /** Events handed to stream `id` by one call. */
  function Handed(s: EngineState, op: Op, id: string): seq<Event>
  {
    if op.Read? && op.id == id then Step(s, op).1 else []
  }

  /** One call that is no resubscription hands out the events from the stream's position on. */
  lemma StepMoves(s: EngineState, op: Op, id: string)
    requires OnLog(s, id) && Clean(StreamLog(Step(s, op).0, id))
    requires !(op.Resubscribe? && op.id == id)
    ensures var t, got := Step(s, op).0, Handed(s, op, id);
            && OnLog(t, id) && StreamLog(s, id) <= StreamLog(t, id)
            && Position(t, id) == Position(s, id) + |got| <= |StreamLog(t, id)|
            && got == StreamLog(t, id)[Position(s, id)..Position(t, id)]
  {
    StepGrows(s, op, s.streams[id].Key());
    if op.Read? && op.id == id {
      ReadMoves(s, id, op.limit);
    } else {
      OtherStepKeepsPosition(s, op, id);
    }
  }

  /** The batches handed to stream `id` over a run, joined. */
  function Received(s: EngineState, ops: seq<Op>, id: string): seq<Event>
    decreases |ops|
  {
    if ops == [] then [] else Handed(s, ops[0], id) + Received(Step(s, ops[0]).0, ops[1..], id)
  }

  lemma JoinSegments<T>(early: seq<T>, log: seq<T>, a: nat, b: nat, c: nat)
    requires early <= log && a <= b <= c <= |log| && b <= |early|
    ensures early[a..b] + log[b..c] == log[a..c]
  {
  }

  /**
   Without resubscription, whatever is published, acked, refused or read elsewhere in between,
   the batches join to one contiguous segment of the stream's log: no gap and no duplicate.
   */
  lemma {:induction false} ReadsAreContiguous(s: EngineState, ops: seq<Op>, id: string)
    requires OnLog(s, id) && Clean(StreamLog(Run(s, ops), id))
    requires forall op | op in ops :: !(op.Resubscribe? && op.id == id)
    ensures var end := Run(s, ops);
            && OnLog(end, id)
            && Position(s, id) <= Position(end, id)
            && Received(s, ops, id) == StreamLog(end, id)[Position(s, id)..Position(end, id)]
    decreases |ops|
  {
    if ops != [] {
      var t := Step(s, ops[0]).0;
      StepGrows(s, ops[0], s.streams[id].Key());
      RunGrows(t, ops[1..], id);
      StepMoves(s, ops[0], id);
      ReadsAreContiguous(t, ops[1..], id);
      JoinSegments(StreamLog(t, id), StreamLog(Run(s, ops), id), Position(s, id), Position(t, id), Position(Run(s, ops), id));
    }
  }

  /** A stream opened without a cursor reads its whole log from the first event on. */
  lemma OpenedReadsFromTheStart(s: EngineState, id: string, session: string, activity: Option<string>, ops: seq<Op>)
    requires id !in s.streams
    requires var t := Step(s, Open(id, session, activity, None)).0; Clean(StreamLog(Run(t, ops), id))
    requires forall op | op in ops :: !(op.Resubscribe? && op.id == id)
    ensures var t := Step(s, Open(id, session, activity, None)).0;
            var end := Run(t, ops);
            OnLog(end, id) && Received(t, ops, id) == StreamLog(end, id)[..Position(end, id)]
  {
    var t := Step(s, Open(id, session, activity, None)).0;
    RunGrows(t, ops, id);
    ReadsAreContiguous(t, ops, id);
  }

  /** A stream opened behind an event receives what follows that event, without gap or duplicate, and nothing before. */
  lemma OpenedReadsBehind(s: EngineState, id: string, session: string, activity: Option<string>, i: nat, ops: seq<Op>)
    requires id !in s.streams && i < |LogOf(s.logs, StreamKey(session, activity))|
    requires var from := Some(LogOf(s.logs, StreamKey(session, activity))[i].eventId);
             Clean(StreamLog(Run(Step(s, Open(id, session, activity, from)).0, ops), id))
    requires forall op | op in ops :: !(op.Resubscribe? && op.id == id)
    ensures var t := Step(s, Open(id, session, activity, Some(LogOf(s.logs, StreamKey(session, activity))[i].eventId))).0;
            var end := Run(t, ops);
            && OnLog(end, id) && i + 1 <= Position(end, id)
            && Received(t, ops, id) == StreamLog(end, id)[i + 1..Position(end, id)]
  {
    var t := Step(s, Open(id, session, activity, Some(LogOf(s.logs, StreamKey(session, activity))[i].eventId))).0;
    RunGrows(t, ops, id);
    ResumeBehind(StreamLog(t, id), i);
    ReadsAreContiguous(t, ops, id);
  }

  /** Resubscribing behind an event replays what follows it, whatever was read, acked or resubscribed before. */
  lemma ResubscribeReplaysTheRest(s: EngineState, id: string, i: nat, limit: nat)
    requires id in s.streams && Clean(StreamLog(s, id)) && i < |StreamLog(s, id)|
    ensures var t := Resubscribed(s, id, StreamLog(s, id)[i].eventId).0;
            OnLog(t, id) && Pending(t, id, limit) == Cut(StreamLog(s, id), i + 1, limit)
  {
    ResumeBehind(StreamLog(s, id), i);
  }

  /** Whether one call hands position `p` of its log to stream `id`. */
  ghost predicate HandsOut(s: EngineState, op: Op, id: string, p: nat)
    requires id in s.streams
  {
    Position(s, id) <= p < Position(s, id) + |Handed(s, op, id)|
  }

  /** The first position beyond everything handed out so far, if it was `top` before the call. */
  ghost function Raised(s: EngineState, op: Op, id: string, top: nat): nat
    requires id in s.streams
  {
    var end := Position(s, id) + |Handed(s, op, id)|;
    if end > top then end else top
  }

  /**
   Every resubscription of `id` in the run names an event already handed to it, that is one at a
   position from `start` up to the top reached by then.
   */
  ghost predicate ResubscribesToDelivered(s: EngineState, ops: seq<Op>, id: string, start: nat, top: nat)
    requires id in s.streams
    decreases |ops|
  {
    ops == [] ||
    (StepGrows(s, ops[0], s.streams[id].Key());
     && (ops[0].Resubscribe? && ops[0].id == id ==>
           exists p | start <= p < top && p < |StreamLog(s, id)| :: StreamLog(s, id)[p].eventId == ops[0].last)
     && ResubscribesToDelivered(Step(s, ops[0]).0, ops[1..], id, start, Raised(s, ops[0], id, top)))
  }

  /** Whether some call of the run hands position `p` to stream `id`. */
  ghost predicate RunHandsOut(s: EngineState, ops: seq<Op>, id: string, p: nat)
    requires id in s.streams
    decreases |ops|
  {
    ops != [] &&
    (StepGrows(s, ops[0], s.streams[id].Key());
     HandsOut(s, ops[0], id, p) || RunHandsOut(Step(s, ops[0]).0, ops[1..], id, p))
  }

  ghost function RunTop(s: EngineState, ops: seq<Op>, id: string, top: nat): nat
    requires id in s.streams
    decreases |ops|
  {
    if ops == [] then top else
      StepGrows(s, ops[0], s.streams[id].Key());
      RunTop(Step(s, ops[0]).0, ops[1..], id, Raised(s, ops[0], id, top))
  }

  /** One call keeps the position between the start and the top. */
  lemma StepStaysBelowTop(s: EngineState, op: Op, id: string, start: nat, top: nat)
    requires OnLog(s, id) && Clean(StreamLog(Step(s, op).0, id))
    requires start <= Position(s, id) <= top
    requires op.Resubscribe? && op.id == id ==>
               exists p | start <= p < top && p < |StreamLog(s, id)| :: StreamLog(s, id)[p].eventId == op.last
    ensures OnLog(Step(s, op).0, id)
    ensures start <= Position(Step(s, op).0, id) <= Raised(s, op, id, top)
  {
    if op.Resubscribe? && op.id == id {
      var p :| start <= p < top && p < |StreamLog(s, id)| && StreamLog(s, id)[p].eventId == op.last;
      ResumeBehind(StreamLog(s, id), p);
    } else {
      StepMoves(s, op, id);
    }
  }

  lemma {:induction false} RunStaysBelowTop(s: EngineState, ops: seq<Op>, id: string, start: nat, top: nat)
    requires OnLog(s, id) && Clean(StreamLog(Run(s, ops), id))
    requires start <= Position(s, id) <= top
    requires ResubscribesToDelivered(s, ops, id, start, top)
    ensures OnLog(Run(s, ops), id)
    ensures start <= Position(Run(s, ops), id) <= RunTop(s, ops, id, top)
    decreases |ops|
  {
    if ops != [] {
      var t := Step(s, ops[0]).0;
      StepGrows(s, ops[0], s.streams[id].Key());
      RunGrows(t, ops[1..], id);
      StepStaysBelowTop(s, ops[0], id, start, top);
      RunStaysBelowTop(t, ops[1..], id, start, Raised(s, ops[0], id, top));
    }
  }

  /**
   If resubscriptions only go back to delivered events, the positions handed out over the run are
   exactly those from the start position up to the final top: no event below it was skipped.
   */
  lemma {:induction false} DeliveredPrefixIsUnbroken(s: EngineState, ops: seq<Op>, id: string, start: nat, top: nat, p: nat)
    requires OnLog(s, id) && Clean(StreamLog(Run(s, ops), id))
    requires start <= Position(s, id) <= top
    requires ResubscribesToDelivered(s, ops, id, start, top)
    ensures (start <= p < top || RunHandsOut(s, ops, id, p)) <==> start <= p < RunTop(s, ops, id, top)
    decreases |ops|
  {
    if ops != [] {
      var t := Step(s, ops[0]).0;
      StepGrows(s, ops[0], s.streams[id].Key());
      RunGrows(t, ops[1..], id);
      StepStaysBelowTop(s, ops[0], id, start, top);
      DeliveredPrefixIsUnbroken(t, ops[1..], id, start, Raised(s, ops[0], id, top), p);
    }
  }
}
