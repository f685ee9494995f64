/** The two event stores: one list per stream in memory, one global numbered table in SQLite. */
module EventStores {
  import opened Outcomes
  import opened Events

  type Logs = map<string, seq<Event>>

  function LogOf(logs: Logs, key: string): seq<Event>
  {
    if key in logs then logs[key] else []
  }

  /** `append`: an empty batch does not even create the stream. */
  function Appended(logs: Logs, key: string, events: seq<Event>): Logs
  {
    if events == [] then logs else logs[key := LogOf(logs, key) + events]
  }

  ghost predicate UniqueIds(log: seq<Event>)
  {
    forall i, j | 0 <= i < j < |log| :: log[i].eventId != log[j].eventId
  }

  /** Where a replay resumes: behind the first event with the cursor's id, else at the start. */
  function ResumeAt(log: seq<Event>, cursor: Option<string>): (at: nat)
    ensures at <= |log|
  {
    if Truthy(cursor) then FirstIndex(log, cursor.value) else 0
  }

  /** One more than the index of the first event called `id`, or 0. */
  function FirstIndex(log: seq<Event>, id: string): (at: nat)
    ensures at <= |log|
  {
    if log == [] then 0
    else if log[0].eventId == id then 1
    else var n := FirstIndex(log[1..], id);
         if n == 0 then 0 else n + 1
  }

  lemma {:induction false} FirstIndexIsFirst(log: seq<Event>, id: string)
    ensures var n := FirstIndex(log, id);
            && (n == 0 ==> forall i | 0 <= i < |log| :: log[i].eventId != id)
            && (n > 0 ==> log[n - 1].eventId == id && forall i | 0 <= i < n - 1 :: log[i].eventId != id)
  {
    if log != [] && log[0].eventId != id {
      FirstIndexIsFirst(log[1..], id);
      assert forall i | 1 <= i < |log| :: log[i] == log[1..][i - 1];
    }
  }

  lemma FirstIndexUnique(log: seq<Event>, id: string, n: nat)
    requires n <= |log|
    requires n == 0 ==> forall i | 0 <= i < |log| :: log[i].eventId != id
    requires n > 0 ==> log[n - 1].eventId == id && forall i | 0 <= i < n - 1 :: log[i].eventId != id
    ensures FirstIndex(log, id) == n
  {
    FirstIndexIsFirst(log, id);
  }

  function Cut<T>(s: seq<T>, from: nat, limit: nat): seq<T>
    requires from <= |s|
  {
    if from + limit < |s| then s[from..from + limit] else s[from..]
  }

  function Replay(log: seq<Event>, cursor: Option<string>, limit: nat): seq<Event>
  {
    Cut(log, ResumeAt(log, cursor), limit)
  }

  /** Index `k` is right behind the first event the cursor names, or the start where it names none. */
  ghost predicate ResumesAt(log: seq<Event>, cursor: Option<string>, k: nat)
  {
    && k <= |log|
    && (k > 0 ==> cursor == Some(log[k - 1].eventId) && log[k - 1].eventId != "" && forall i | 0 <= i < k - 1 :: log[i].eventId != log[k - 1].eventId)
    && (k == 0 ==> cursor == Some("") || forall i | 0 <= i < |log| :: cursor != Some(log[i].eventId))
  }

  class InMemoryEventStore {
    var streams: Logs

    constructor ()
      ensures streams == map[]
    {
      streams := map[];
    }

    method Append(key: string, events: seq<Event>)
      modifies this
      ensures streams == Appended(old(streams), key, events)
    {
      if events == [] {
        return;
      }
      streams := streams[key := LogOf(streams, key) + events];
    }

    method ReplayFrom(key: string, lastEventId: Option<string>, limit: nat) returns (events: seq<Event>)
      ensures events == Replay(LogOf(streams, key), lastEventId, limit)
      ensures key !in streams ==> events == []
      ensures key in streams ==> exists k: nat ::
                && ResumesAt(streams[key], lastEventId, k)
                && events == streams[key][k..if k + limit < |streams[key]| then k + limit else |streams[key]|]
    {
      var log := LogOf(streams, key);
      if log == [] {
        assert ResumesAt(log, lastEventId, 0);
        return [];
      }
      var startIdx := 0;
      if Truthy(lastEventId) {
        var idx := 0;
        while idx < |log|
          invariant 0 <= idx <= |log| && startIdx == 0
          invariant forall i | 0 <= i < idx :: log[i].eventId != lastEventId.value
          invariant idx == |log| ==> ResumesAt(log, lastEventId, 0)
        {
          if log[idx].eventId == lastEventId.value {
            startIdx := idx + 1;
            break;
          }
          idx := idx + 1;
        }
        FirstIndexUnique(log, lastEventId.value, startIdx);
      }
      assert ResumesAt(log, lastEventId, startIdx);
      events := log[startIdx..if startIdx + limit < |log| then startIdx + limit else |log|];
    }
  }

  /** A row of the `events` table; `seqNo` is the auto-increment primary key. */
  datatype EventRow = EventRow(streamKey: string, seqNo: nat, event: Event)

  /** Row numbers start at 1 and strictly increase in insertion order. */
  ghost predicate Numbered(rows: seq<EventRow>)
  {
    && (forall i | 0 <= i < |rows| :: rows[i].seqNo > 0)
    && (forall i, j | 0 <= i < j < |rows| :: rows[i].seqNo < rows[j].seqNo)
  }

  function Inserted(rows: seq<EventRow>, key: string, events: seq<Event>): seq<EventRow>
    decreases |events|
  {
    if events == [] then rows else
      var seqNo := if rows == [] then 1 else rows[|rows| - 1].seqNo + 1;
      Inserted(rows + [EventRow(key, seqNo, events[0])], key, events[1..])
  }

  /** `WHERE stream_key = ? AND seq > ? ORDER BY seq ASC` */
  function SelectAfter(rows: seq<EventRow>, key: string, from: nat): seq<Event>
  {
    if rows == [] then []
    else (if rows[0].streamKey == key && rows[0].seqNo > from then [rows[0].event] else []) + SelectAfter(rows[1..], key, from)
  }

  /** `SELECT seq WHERE stream_key = ? AND event_id = ? ORDER BY seq DESC LIMIT 1`, or 0 without a row. */
  function LastSeqNo(rows: seq<EventRow>, key: string, id: string): nat
  {
    if rows == [] then 0
    else
      var row := rows[|rows| - 1];
      if row.streamKey == key && row.event.eventId == id then row.seqNo else LastSeqNo(rows[..|rows| - 1], key, id)
  }

  function SqlReplay(rows: seq<EventRow>, key: string, cursor: Option<string>, limit: nat): seq<Event>
  {
    Cut(SelectAfter(rows, key, if Truthy(cursor) then LastSeqNo(rows, key, cursor.value) else 0), 0, limit)
  }

  class SqliteEventStore {
    var rows: seq<EventRow>

    constructor ()
      ensures rows == []
    {
      rows := [];
    }

    method Append(key: string, events: seq<Event>)
      modifies this
      ensures rows == Inserted(old(rows), key, events)
    {
      if events == [] {
        return;
      }
      var i := 0;
      while i < |events|
        invariant 0 <= i <= |events|
        invariant Inserted(rows, key, events[i..]) == Inserted(old(rows), key, events)
      {
        var seqNo := if rows == [] then 1 else rows[|rows| - 1].seqNo + 1;
        rows := rows + [EventRow(key, seqNo, events[i])];
        assert events[i..][1..] == events[i + 1..];
        i := i + 1;
      }
    }

    method ReplayFrom(key: string, lastEventId: Option<string>, limit: nat) returns (events: seq<Event>)
      ensures events == SqlReplay(rows, key, lastEventId, limit)
    {
      var fromSeq := 0;
      if Truthy(lastEventId) {
        fromSeq := LastSeqNo(rows, key, lastEventId.value);
      }
      var selected := SelectAfter(rows, key, fromSeq);
      if limit < |selected| {
        selected := selected[..limit];
      }
      events := [];
      for i := 0 to |selected|
        invariant events == selected[..i]
      {
        events := events + [selected[i]];
      }
    }
  }
}
