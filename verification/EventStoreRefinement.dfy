/** The global SQLite table answers replays like the per-stream lists, exactly when event ids are unique per stream. */
module EventStoreRefinement {
  import opened Outcomes
  import opened Events
  import opened EventStores
  import opened Sequences

  lemma {:induction false} SelectSnoc(rows: seq<EventRow>, row: EventRow, key: string, from: nat)
    ensures SelectAfter(rows + [row], key, from)
            == SelectAfter(rows, key, from) + (if row.streamKey == key && row.seqNo > from then [row.event] else [])
  {
    if rows == [] {
      assert rows + [row] == [row];
    } else {
      SelectSnoc(rows[1..], row, key, from);
      assert (rows + [row])[1..] == rows[1..] + [row];
    }
  }

  /** The table holds, under every stream key, that stream's list in order. */
  ghost predicate Represents(rows: seq<EventRow>, logs: Logs)
  {
    Numbered(rows) && forall key :: SelectAfter(rows, key, 0) == LogOf(logs, key)
  }

  function NextSeqNo(rows: seq<EventRow>): nat
  {
    if rows == [] then 1 else rows[|rows| - 1].seqNo + 1
  }

  lemma InsertOne(rows: seq<EventRow>, logs: Logs, key: string, e: Event)
    requires Represents(rows, logs)
    ensures Represents(rows + [EventRow(key, NextSeqNo(rows), e)], Appended(logs, key, [e]))
  {
    var row := EventRow(key, NextSeqNo(rows), e);
    forall k
      ensures SelectAfter(rows + [row], k, 0) == LogOf(Appended(logs, key, [e]), k)
    {
      SelectSnoc(rows, row, k, 0);
      assert SelectAfter(rows, k, 0) + [] == SelectAfter(rows, k, 0);
    }
  }

  lemma AppendedTwice(logs: Logs, key: string, a: seq<Event>, b: seq<Event>)
    requires a != []
    ensures Appended(Appended(logs, key, a), key, b) == Appended(logs, key, a + b)
  {
    assert LogOf(logs, key) + a + b == LogOf(logs, key) + (a + b);
    if b == [] { assert a + b == a; }
  }

  lemma {:induction false} InsertRepresents(rows: seq<EventRow>, logs: Logs, key: string, events: seq<Event>)
    requires Represents(rows, logs)
    ensures Represents(Inserted(rows, key, events), Appended(logs, key, events))
    decreases |events|
  {
    if events != [] {
      InsertOne(rows, logs, key, events[0]);
      InsertRepresents(rows + [EventRow(key, NextSeqNo(rows), events[0])], Appended(logs, key, [events[0]]), key, events[1..]);
      assert [events[0]] + events[1..] == events;
      AppendedTwice(logs, key, [events[0]], events[1..]);
    }
  }

  /** One more than the index of the last event called `id`, or 0. */
  ghost function LastIndex(log: seq<Event>, id: string): (at: nat)
    ensures at <= |log|
  {
    if log == [] then 0
    else if log[|log| - 1].eventId == id then |log|
    else LastIndex(log[..|log| - 1], id)
  }

  lemma {:induction false} SelectAfterAll(rows: seq<EventRow>, key: string, from: nat)
    requires forall i | 0 <= i < |rows| :: rows[i].seqNo <= from
    ensures SelectAfter(rows, key, from) == []
  {
    if rows != [] {
      SelectAfterAll(rows[1..], key, from);
    }
  }

  lemma {:induction false} LastSeqNoBound(rows: seq<EventRow>, key: string, id: string)
    requires Numbered(rows)
    ensures LastSeqNo(rows, key, id) == 0 || exists i | 0 <= i < |rows| :: LastSeqNo(rows, key, id) == rows[i].seqNo
  {
    if rows != [] {
      var row := rows[|rows| - 1];
      if !(row.streamKey == key && row.event.eventId == id) {
        LastSeqNoBound(rows[..|rows| - 1], key, id);
      }
    }
  }

  ghost predicate ResumesAtLast(rows: seq<EventRow>, key: string, id: string)
  {
    var log := SelectAfter(rows, key, 0);
    SelectAfter(rows, key, LastSeqNo(rows, key, id)) == log[LastIndex(log, id)..]
  }

  lemma LastSeqNoSnoc(rows: seq<EventRow>, row: EventRow, key: string, id: string)
    ensures LastSeqNo(rows + [row], key, id)
            == if row.streamKey == key && row.event.eventId == id then row.seqNo else LastSeqNo(rows, key, id)
  {
  }

  lemma ResumesAfterMatch(rows: seq<EventRow>, row: EventRow, key: string, id: string)
    requires Numbered(rows + [row]) && row.streamKey == key && row.event.eventId == id
    ensures ResumesAtLast(rows + [row], key, id)
  {
    var all := rows + [row];
    LastSeqNoSnoc(rows, row, key, id);
    forall i | 0 <= i < |all|
      ensures all[i].seqNo <= row.seqNo
    {
      assert all[|rows|] == row;
    }
    SelectAfterAll(all, key, row.seqNo);
    SelectSnoc(rows, row, key, 0);
  }

  lemma ResumesAfterOther(rows: seq<EventRow>, row: EventRow, key: string, id: string)
    requires Numbered(rows + [row]) && !(row.streamKey == key && row.event.eventId == id)
    requires LastSeqNo(rows, key, id) < row.seqNo && ResumesAtLast(rows, key, id)
    ensures ResumesAtLast(rows + [row], key, id)
  {
    LastSeqNoSnoc(rows, row, key, id);
    SelectSnoc(rows, row, key, 0);
    SelectSnoc(rows, row, key, LastSeqNo(rows, key, id));
    var log := SelectAfter(rows, key, 0);
    RightUnit(log);
    RightUnit(log[LastIndex(log, id)..]);
  }

  /** The table resumes behind the last row with the cursor's id. */
  lemma {:induction false} SqlResumesAtLast(rows: seq<EventRow>, key: string, id: string)
    requires Numbered(rows)
    ensures ResumesAtLast(rows, key, id)
  {
    if rows != [] {
      var init, row := rows[..|rows| - 1], rows[|rows| - 1];
      assert rows == init + [row];
      if row.streamKey == key && row.event.eventId == id {
        ResumesAfterMatch(init, row, key, id);
      } else {
        SqlResumesAtLast(init, key, id);
        LastSeqNoBound(init, key, id);
        ResumesAfterOther(init, row, key, id);
      }
    }
  }

  lemma {:induction false} LastIndexIsLast(log: seq<Event>, id: string)
    ensures var n := LastIndex(log, id);
            && (n > 0 ==> log[n - 1].eventId == id)
            && (forall i | n <= i < |log| :: log[i].eventId != id)
    decreases |log|
  {
    if log != [] && log[|log| - 1].eventId != id {
      LastIndexIsLast(log[..|log| - 1], id);
    }
  }

  lemma FirstIsLastIfUnique(log: seq<Event>, id: string)
    requires UniqueIds(log)
    ensures FirstIndex(log, id) == LastIndex(log, id)
  {
    FirstIndexIsFirst(log, id);
    LastIndexIsLast(log, id);
  }

  lemma FirstBeforeLastIfRepeated(log: seq<Event>, i: nat, j: nat)
    requires i < j < |log| && log[i].eventId == log[j].eventId
    ensures FirstIndex(log, log[i].eventId) < LastIndex(log, log[i].eventId)
  {
    FirstIndexIsFirst(log, log[i].eventId);
    LastIndexIsLast(log, log[i].eventId);
  }

  lemma UniqueReplaysAgree(rows: seq<EventRow>, logs: Logs, key: string, cursor: Option<string>, limit: nat)
    requires Represents(rows, logs) && UniqueIds(LogOf(logs, key))
    ensures SqlReplay(rows, key, cursor, limit) == Replay(LogOf(logs, key), cursor, limit)
  {
    if Truthy(cursor) {
      SqlResumesAtLast(rows, key, cursor.value);
      FirstIsLastIfUnique(LogOf(logs, key), cursor.value);
      CutOfSuffix(LogOf(logs, key), FirstIndex(LogOf(logs, key), cursor.value), limit);
    }
  }

  lemma RepeatedReplaysDiffer(rows: seq<EventRow>, logs: Logs, key: string, i: nat, j: nat)
    requires Represents(rows, logs)
    requires i < j < |LogOf(logs, key)| && LogOf(logs, key)[i].eventId == LogOf(logs, key)[j].eventId != ""
    ensures var log := LogOf(logs, key);
            SqlReplay(rows, key, Some(log[i].eventId), |log|) != Replay(log, Some(log[i].eventId), |log|)
  {
    var log := LogOf(logs, key);
    SqlResumesAtLast(rows, key, log[i].eventId);
    FirstBeforeLastIfRepeated(log, i, j);
  }

  /** One stream: the two replays agree on all cursors and limits if and only if its ids are unique. */
  lemma ReplaysAgreeIffUnique(rows: seq<EventRow>, logs: Logs, key: string)
    requires Represents(rows, logs)
    requires forall e | e in LogOf(logs, key) :: e.eventId != ""
    ensures (forall cursor, limit :: SqlReplay(rows, key, cursor, limit) == Replay(LogOf(logs, key), cursor, limit))
            <==> UniqueIds(LogOf(logs, key))
  {
    var log := LogOf(logs, key);
    if UniqueIds(log) {
      forall cursor, limit
        ensures SqlReplay(rows, key, cursor, limit) == Replay(log, cursor, limit)
      {
        UniqueReplaysAgree(rows, logs, key, cursor, limit);
      }
    } else {
      var i, j :| 0 <= i < j < |log| && log[i].eventId == log[j].eventId;
      assert log[i] in log;
      RepeatedReplaysDiffer(rows, logs, key, i, j);
    }
  }

  lemma CutOfSuffix<T>(s: seq<T>, from: nat, limit: nat)
    requires from <= |s|
    ensures Cut(s[from..], 0, limit) == Cut(s, from, limit)
  {
  }

  /** One `append` call, as both stores receive it. */
  datatype Batch = Batch(key: string, events: seq<Event>)

  function MemoryAfter(logs: Logs, batches: seq<Batch>): Logs
    decreases |batches|
  {
    if batches == [] then logs else MemoryAfter(Appended(logs, batches[0].key, batches[0].events), batches[1..])
  }

  function TableAfter(rows: seq<EventRow>, batches: seq<Batch>): seq<EventRow>
    decreases |batches|
  {
    if batches == [] then rows else TableAfter(Inserted(rows, batches[0].key, batches[0].events), batches[1..])
  }

  lemma {:induction false} RunsRepresent(rows: seq<EventRow>, logs: Logs, batches: seq<Batch>)
    requires Represents(rows, logs)
    ensures Represents(TableAfter(rows, batches), MemoryAfter(logs, batches))
    decreases |batches|
  {
    if batches != [] {
      InsertRepresents(rows, logs, batches[0].key, batches[0].events);
      RunsRepresent(Inserted(rows, batches[0].key, batches[0].events), Appended(logs, batches[0].key, batches[0].events), batches[1..]);
    }
  }

  lemma {:induction false} RunKeepsIdsNonEmpty(logs: Logs, batches: seq<Batch>, key: string)
    requires forall e | e in LogOf(logs, key) :: e.eventId != ""
    requires forall b, e | b in batches && e in b.events :: e.eventId != ""
    ensures forall e | e in LogOf(MemoryAfter(logs, batches), key) :: e.eventId != ""
    decreases |batches|
  {
    if batches != [] {
      assert batches[0] in batches;
      var next := Appended(logs, batches[0].key, batches[0].events);
      assert forall e | e in LogOf(next, key) :: e in LogOf(logs, key) || e in batches[0].events;
      RunKeepsIdsNonEmpty(next, batches[1..], key);
    }
  }

  /**
   After any run of appends to two fresh stores, the SQLite store replays every stream like the
   in-memory store, for every cursor and limit, if and only if no stream holds one id twice.
   */
  lemma SqliteRefinesMemory(batches: seq<Batch>)
    requires forall b, e | b in batches && e in b.events :: e.eventId != ""
    ensures var logs, rows := MemoryAfter(map[], batches), TableAfter([], batches);
            (forall key, cursor, limit :: SqlReplay(rows, key, cursor, limit) == Replay(LogOf(logs, key), cursor, limit))
            <==> (forall key :: UniqueIds(LogOf(logs, key)))
  {
    var logs, rows := MemoryAfter(map[], batches), TableAfter([], batches);
    RunsRepresent([], map[], batches);
    forall key
      ensures (forall cursor, limit :: SqlReplay(rows, key, cursor, limit) == Replay(LogOf(logs, key), cursor, limit))
              <==> UniqueIds(LogOf(logs, key))
    {
      RunKeepsIdsNonEmpty(map[], batches, key);
      ReplaysAgreeIffUnique(rows, logs, key);
    }
  }
}
