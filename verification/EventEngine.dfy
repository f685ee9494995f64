/** The event engine: dual-append publishing, cursor reads under a backpressure window, resubscribe and ack. */
module EventEngine {
  import opened Outcomes
  import opened Events
  import opened EventStores

  datatype Stream = Stream(sessionId: string, activityId: Option<string>, cursor: Option<string>, acked: set<string>)
  {
    function Key(): string
    {
      StreamKey(sessionId, activityId)
    }
  }

  /** Everything the engine remembers, as one value. */
  datatype EngineState = EngineState(
    logs: Logs,
    streams: map<string, Stream>,
    outstanding: map<string, int>,
    windows: map<string, int>,
    defaultWindow: int)

  function OutstandingOf(outstanding: map<string, int>, id: string): int
  {
    if id in outstanding then outstanding[id] else 0
  }

  function WindowOf(s: EngineState, id: string): int
  {
    if id in s.windows then s.windows[id] else s.defaultWindow
  }

  function Published(logs: Logs, e: Event): Logs
  {
    var once := Appended(logs, StreamKey(e.sessionId, None), [e]);
    if Truthy(e.activityId) then Appended(once, StreamKey(e.sessionId, e.activityId), [e]) else once
  }

  /** A stream opened under the fresh id `id`. */
  function Opened(s: EngineState, id: string, session: string, activity: Option<string>, from: Option<string>): EngineState
  {
    s.(streams := s.streams[id := Stream(session, activity, from, {})],
       windows := if id in s.windows then s.windows else s.windows[id := s.defaultWindow],
       outstanding := if id in s.outstanding then s.outstanding else s.outstanding[id := 0])
  }

  function Pending(s: EngineState, id: string, limit: nat): seq<Event>
    requires id in s.streams
  {
    Replay(LogOf(s.logs, s.streams[id].Key()), s.streams[id].cursor, limit)
  }

  function ReadFrom(s: EngineState, id: string, limit: int): (EngineState, Result<seq<Event>>)
  {
    if limit <= 0 then (s, Err(InvalidArgument))
    else if id !in s.streams then (s, Err(NotFound))
    else
      var events := Pending(s, id, limit);
      if events == [] then (s, Ok(events))
      else
        var outstanding := OutstandingOf(s.outstanding, id) + |events|;
        if outstanding > WindowOf(s, id) then (s, Err(Backpressure))
        else
          (s.(outstanding := s.outstanding[id := outstanding],
              streams := s.streams[id := s.streams[id].(cursor := Some(events[|events| - 1].eventId))]),
           Ok(events))
  }

  /** A read is refused for its limit, an unknown stream or the window, and then changes nothing; else it moves the cursor and counts what it hands out. */
  lemma ReadTakesEffect(s: EngineState, id: string, limit: int)
    ensures var (t, r) := ReadFrom(s, id, limit);
            && (r.Err? ==> t == s)
            && (r == Err(InvalidArgument) <==> limit <= 0)
            && (r == Err(NotFound) <==> limit > 0 && id !in s.streams)
            && (r == Err(Backpressure) <==>
                  && limit > 0 && id in s.streams
                  && var n := |Pending(s, id, limit)|;
                     n > 0 && (if id in s.outstanding then s.outstanding[id] else 0) + n > if id in s.windows then s.windows[id] else s.defaultWindow)
            && (r.Ok? ==> r.value == Pending(s, id, limit) && |r.value| <= limit)
            && (r.Ok? && r.value == [] ==> t == s)
            && (r.Ok? && r.value != [] ==>
                  && t.streams == s.streams[id := s.streams[id].(cursor := Some(r.value[|r.value| - 1].eventId))]
                  && t.outstanding == s.outstanding[id := (if id in s.outstanding then s.outstanding[id] else 0) + |r.value|]
                  && t.logs == s.logs && t.windows == s.windows)
  {
  }

  function Resubscribed(s: EngineState, id: string, last: string): (EngineState, Result<Stream>)
  {
    if id !in s.streams then (s, Err(NotFound)) else
      var stream := s.streams[id].(cursor := Some(last));
      (s.(streams := s.streams[id := stream]), Ok(stream))
  }

  function Acked(s: EngineState, id: string, ids: seq<string>): (EngineState, Result<()>)
  {
    if id !in s.streams then (s, Err(NotFound)) else
      var stream := s.streams[id].(acked := s.streams[id].acked + set x | x in ids);
      var left := OutstandingOf(s.outstanding, id) - |ids|;
      (s.(streams := s.streams[id := stream], outstanding := s.outstanding[id := if left < 0 then 0 else left]), Ok(()))
  }

  class BackpressureController {
    const defaultWindow: int
    var outstanding: map<string, int>
    var windows: map<string, int>

    constructor (defaultWindow: int)
      requires defaultWindow > 0
      ensures this.defaultWindow == defaultWindow && outstanding == map[] && windows == map[]
    {
      this.defaultWindow := defaultWindow;
      outstanding, windows := map[], map[];
    }

    method ConfigureStream(id: string, window: Option<int>) returns (r: Result<()>)
      modifies this
      ensures r == if window.Some? && window.value <= 0 then Err(InvalidArgument) else Ok(())
      ensures r.Err? ==> outstanding == old(outstanding) && windows == old(windows)
      ensures r.Ok? ==>
                && outstanding == (if id in old(outstanding) then old(outstanding) else old(outstanding)[id := 0])
                && windows == (if window.Some? then old(windows)[id := window.value]
                               else if id in old(windows) then old(windows) else old(windows)[id := defaultWindow])
    {
      if window.Some? {
        if window.value <= 0 {
          return Err(InvalidArgument);
        }
        windows := windows[id := window.value];
      } else if id !in windows {
        windows := windows[id := defaultWindow];
      }
      if id !in outstanding {
        outstanding := outstanding[id := 0];
      }
      r := Ok(());
    }

    method OnDeliver(id: string, delivered: nat) returns (r: Result<()>)
      modifies this
      ensures windows == old(windows)
      ensures var total := OutstandingOf(old(outstanding), id) + delivered;
              if total > (if id in windows then windows[id] else defaultWindow)
              then r == Err(Backpressure) && outstanding == old(outstanding)
              else r == Ok(()) && outstanding == old(outstanding)[id := total]
    {
      var total := OutstandingOf(outstanding, id) + delivered;
      var window := if id in windows then windows[id] else defaultWindow;
      if total > window {
        return Err(Backpressure);
      }
      outstanding := outstanding[id := total];
      r := Ok(());
    }

    method OnAck(id: string, count: nat)
      modifies this
      ensures windows == old(windows)
      ensures var left := OutstandingOf(old(outstanding), id) - count;
              outstanding == old(outstanding)[id := if left < 0 then 0 else left]
    {
      var current := OutstandingOf(outstanding, id);
      outstanding := outstanding[id := if current - count < 0 then 0 else current - count];
    }
  }

  class EventEngine {
    const store: InMemoryEventStore
    const backpressure: BackpressureController
    var streams: map<string, Stream>

    constructor (store: InMemoryEventStore, window: int)
      requires window > 0
      ensures this.store == store && fresh(backpressure)
      ensures State() == EngineState(store.streams, map[], map[], map[], window)
    {
      this.store := store;
      backpressure := new BackpressureController(window);
      streams := map[];
    }

    function State(): EngineState
      reads this, store, backpressure
    {
      EngineState(store.streams, streams, backpressure.outstanding, backpressure.windows, backpressure.defaultWindow)
    }

    method Publish(e: Event) returns (published: Event)
      modifies store
      ensures published == e
      ensures State() == old(State()).(logs := Published(old(State()).logs, e))
    {
      store.Append(StreamKey(e.sessionId, None), [e]);
      if Truthy(e.activityId) {
        store.Append(StreamKey(e.sessionId, e.activityId), [e]);
      }
      published := e;
    }

    /** `id` is the generated stream id. */
    method Open(id: string, session: string, activity: Option<string>, from: Option<string>) returns (stream: Stream)
      requires id !in streams
      modifies this, backpressure
      ensures stream == Stream(session, activity, from, {})
      ensures State() == Opened(old(State()), id, session, activity, from)
      ensures streams == old(streams)[id := stream]
    {
      stream := Stream(session, activity, from, {});
      streams := streams[id := stream];
      var _ := backpressure.ConfigureStream(id, None);
    }

    method Read(id: string, limit: int) returns (r: Result<seq<Event>>)
      modifies this, backpressure
      ensures (State(), r) == ReadFrom(old(State()), id, limit)
    {
      if limit <= 0 {
        return Err(InvalidArgument);
      }
      if id !in streams {
        return Err(NotFound);
      }
      var stream := streams[id];
      var events := store.ReplayFrom(stream.Key(), stream.cursor, limit);
      if events != [] {
        var delivered := backpressure.OnDeliver(id, |events|);
        if delivered.Err? {
          return Err(delivered.code);
        }
        streams := streams[id := stream.(cursor := Some(events[|events| - 1].eventId))];
      }
      r := Ok(events);
    }

    method Resubscribe(id: string, last: string) returns (r: Result<Stream>)
      modifies this
      ensures (State(), r) == Resubscribed(old(State()), id, last)
      ensures if id !in old(streams) then r == Err(NotFound) && streams == old(streams)
              else r == Ok(old(streams)[id].(cursor := Some(last))) && streams == old(streams)[id := r.value]
    {
      if id !in streams {
        return Err(NotFound);
      }
      var stream := streams[id].(cursor := Some(last));
      streams := streams[id := stream];
      r := Ok(stream);
    }

    method Ack(id: string, ids: seq<string>) returns (r: Result<()>)
      modifies this, backpressure
      ensures (State(), r) == Acked(old(State()), id, ids)
      ensures r.Err? <==> id !in old(streams)
      ensures r.Err? ==> r.code == NotFound && State() == old(State())
      ensures r.Ok? ==>
                && streams == old(streams)[id := old(streams)[id].(acked := streams[id].acked)]
                && forall x :: x in streams[id].acked <==> x in old(streams)[id].acked || x in ids
    {
      if id !in streams {
        return Err(NotFound);
      }
      var stream := streams[id];
      streams := streams[id := stream.(acked := stream.acked + set x | x in ids)];
      backpressure.OnAck(id, |ids|);
      r := Ok(());
    }
  }
}
