/** How the logs written by `publish` relate to the published events, and to each other. */
module EventLogs {
  import opened Outcomes
  import opened Events
  import opened EventStores
  import opened EventEngine
  import opened Sequences

  function PublishAll(logs: Logs, events: seq<Event>): Logs
    decreases |events|
  {
    if events == [] then logs else PublishAll(Published(logs, events[0]), events[1..])
  }

  /** The events a key's log is meant to hold: the session's, or those of one activity in it. */
  predicate Belongs(e: Event, sessionId: string, tag: string)
  {
    e.sessionId == sessionId && (tag == "*" || (Truthy(e.activityId) && e.activityId.value == tag))
  }

  function Selected(events: seq<Event>, sessionId: string, tag: string): seq<Event>
  {
    if events == [] then [] else
      (if Belongs(events[0], sessionId, tag) then [events[0]] else []) + Selected(events[1..], sessionId, tag)
  }

  /** The copies of `e` that publishing it leaves under a stream key. */
  function Filed(e: Event, key: string): seq<Event>
  {
    (if StreamKey(e.sessionId, None) == key then [e] else [])
    + (if Truthy(e.activityId) && StreamKey(e.sessionId, e.activityId) == key then [e] else [])
  }

  function FiledAll(events: seq<Event>, key: string): seq<Event>
  {
    if events == [] then [] else Filed(events[0], key) + FiledAll(events[1..], key)
  }

  lemma PublishFiles(logs: Logs, e: Event, key: string)
    ensures LogOf(Published(logs, e), key) == LogOf(logs, key) + Filed(e, key)
  {
    RightUnit(LogOf(logs, key));
    Associate(LogOf(logs, key), [e], if Truthy(e.activityId) && StreamKey(e.sessionId, e.activityId) == key then [e] else []);
  }

  /** Over any publish run, each log grows by the copies filed under its key. */
  lemma {:induction false} LogsHoldFiledEvents(logs: Logs, events: seq<Event>, key: string)
    ensures LogOf(PublishAll(logs, events), key) == LogOf(logs, key) + FiledAll(events, key)
    decreases |events|
  {
    if events == [] {
      RightUnit(LogOf(logs, key));
    } else {
      PublishFiles(logs, events[0], key);
      LogsHoldFiledEvents(Published(logs, events[0]), events[1..], key);
      Associate(LogOf(logs, key), Filed(events[0], key), FiledAll(events[1..], key));
    }
  }

  lemma FreshLogsHoldFiledEvents(events: seq<Event>, key: string)
    ensures LogOf(PublishAll(map[], events), key) == FiledAll(events, key)
  {
    LogsHoldFiledEvents(map[], events, key);
    assert [] + FiledAll(events, key) == FiledAll(events, key);
  }

  function OnceIfBelongs(e: Event, sessionId: string, tag: string): seq<Event>
  {
    if Belongs(e, sessionId, tag) then [e] else []
  }

  /** Publishing about activity `*` writes the event twice into the session's log. */
  predicate NamesWildcard(e: Event)
  {
    e.activityId == Some("*")
  }

  /** Two different pairs of session and label with one joined key. */
  predicate Collide(s: string, a: string, t: string, b: string)
  {
    Joined(s, a) == Joined(t, b) && (s, a) != (t, b)
  }

  /**
   Publishing files the event more often under the key than it belongs there: its activity is called
   like the session wildcard, or its session or activity key is that of another pair.
   */
  predicate Misfiled(e: Event, sessionId: string, tag: string)
  {
    || (NamesWildcard(e) && e.sessionId == sessionId && tag == "*")
    || Collide(e.sessionId, "*", sessionId, tag)
    || (Truthy(e.activityId) && Collide(e.sessionId, e.activityId.value, sessionId, tag))
  }

  lemma FiledIfBelongs(e: Event, sessionId: string, tag: string)
    requires tag != ""
    ensures Belongs(e, sessionId, tag) ==> e in Filed(e, Joined(sessionId, tag))
    ensures |Filed(e, Joined(sessionId, tag))| >= |OnceIfBelongs(e, sessionId, tag)|
    ensures !Misfiled(e, sessionId, tag) <==> Filed(e, Joined(sessionId, tag)) == OnceIfBelongs(e, sessionId, tag)
  {
  }

  lemma SameJoin<T>(a: seq<T>, x: seq<T>, b: seq<T>, y: seq<T>)
    requires |a| >= |b| && |x| >= |y| && (|a| == |b| ==> a == b)
    ensures a + x == b + y <==> a == b && x == y
    ensures a + x != b + y ==> |a| > |b| || x != y
  {
    if a + x == b + y {
      assert |a| == |b|;
      assert (a + x)[|a|..] == x && (b + y)[|a|..] == y;
    }
  }

  lemma {:induction false} FiledIsSelected(events: seq<Event>, sessionId: string, tag: string)
    requires tag != ""
    ensures |FiledAll(events, Joined(sessionId, tag))| >= |Selected(events, sessionId, tag)|
    ensures FiledAll(events, Joined(sessionId, tag)) == Selected(events, sessionId, tag)
            <==> forall e | e in events :: !Misfiled(e, sessionId, tag)
  {
    if events != [] {
      var key := Joined(sessionId, tag);
      FiledIsSelected(events[1..], sessionId, tag);
      FiledIfBelongs(events[0], sessionId, tag);
      SameJoin(Filed(events[0], key), FiledAll(events[1..], key),
               OnceIfBelongs(events[0], sessionId, tag), Selected(events[1..], sessionId, tag));
      assert forall e :: e in events <==> e == events[0] || e in events[1..];
    }
  }

  /**
   After any publish run, the log of a session or of an activity is exactly its events, in order
   and each once, if and only if none of the events is misfiled under its key.
   */
  lemma LogsHoldSelectedEvents(events: seq<Event>, sessionId: string, tag: string)
    requires tag != ""
    ensures LogOf(PublishAll(map[], events), Joined(sessionId, tag)) == Selected(events, sessionId, tag)
            <==> forall e | e in events :: !Misfiled(e, sessionId, tag)
  {
    FreshLogsHoldFiledEvents(events, Joined(sessionId, tag));
    FiledIsSelected(events, sessionId, tag);
  }

  /** An event of another session, or about another activity, one of whose keys is the activity's. */
  predicate Foreign(e: Event, sessionId: string, activityId: string)
  {
    && !Belongs(e, sessionId, activityId)
    && (Collide(e.sessionId, "*", sessionId, activityId)
        || (Truthy(e.activityId) && Collide(e.sessionId, e.activityId.value, sessionId, activityId)))
  }

  lemma JoinedSameSession(sessionId: string, a: string, b: string)
    ensures Joined(sessionId, a) == Joined(sessionId, b) <==> a == b
  {
    assert Joined(sessionId, a)[|sessionId| + 1..] == a && Joined(sessionId, b)[|sessionId| + 1..] == b;
  }

  lemma {:induction false} SelectedJoin(x: seq<Event>, y: seq<Event>, sessionId: string, tag: string)
    ensures Selected(x + y, sessionId, tag) == Selected(x, sessionId, tag) + Selected(y, sessionId, tag)
    decreases |x|
  {
    if x == [] {
      assert x + y == y;
    } else {
      SelectedJoin(x[1..], y, sessionId, tag);
      assert (x + y)[1..] == x[1..] + y;
      Associate(OnceIfBelongs(x[0], sessionId, tag), Selected(x[1..], sessionId, tag), Selected(y, sessionId, tag));
    }
  }

  lemma PartOfSession(e: Event, sessionId: string, activityId: string)
    requires activityId != ""
    ensures var own := Filed(e, StreamKey(sessionId, Some(activityId)));
            var part := Selected(Filed(e, StreamKey(sessionId, None)), sessionId, activityId);
            && |own| >= |part|
            && (|own| == |part| ==> own == part)
            && (own == part <==> !Foreign(e, sessionId, activityId))
  {
    JoinedSameSession(sessionId, activityId, "*");
    JoinedSameSession(e.sessionId, if Truthy(e.activityId) then e.activityId.value else "*", "*");
    if e.sessionId == sessionId && Truthy(e.activityId) {
      JoinedSameSession(sessionId, e.activityId.value, activityId);
    }
    if Filed(e, StreamKey(sessionId, None)) == [e, e] {
      assert [e, e] == [e] + [e];
      SelectedJoin([e], [e], sessionId, activityId);
    }
  }

  /**
   An activity's stream is the part of its session's stream about that activity, in the same order,
   if and only if no foreign event was published.
   */
  lemma ActivityStreamIsPartOfSessionStream(events: seq<Event>, sessionId: string, activityId: string)
    requires activityId != ""
    ensures var logs := PublishAll(map[], events);
            LogOf(logs, StreamKey(sessionId, Some(activityId)))
            == Selected(LogOf(logs, StreamKey(sessionId, None)), sessionId, activityId)
            <==> forall e | e in events :: !Foreign(e, sessionId, activityId)
  {
    FreshLogsHoldFiledEvents(events, StreamKey(sessionId, Some(activityId)));
    FreshLogsHoldFiledEvents(events, StreamKey(sessionId, None));
    FiledIsPart(events, sessionId, activityId);
  }

  lemma {:induction false} FiledIsPart(events: seq<Event>, sessionId: string, activityId: string)
    requires activityId != ""
    ensures var own := FiledAll(events, StreamKey(sessionId, Some(activityId)));
            var part := Selected(FiledAll(events, StreamKey(sessionId, None)), sessionId, activityId);
            |own| >= |part| && (own == part <==> forall e | e in events :: !Foreign(e, sessionId, activityId))
  {
    if events != [] {
      var e, rest := events[0], events[1..];
      var own, whole := StreamKey(sessionId, Some(activityId)), StreamKey(sessionId, None);
      FiledIsPart(rest, sessionId, activityId);
      PartOfSession(e, sessionId, activityId);
      SelectedJoin(Filed(e, whole), FiledAll(rest, whole), sessionId, activityId);
      SameJoin(Filed(e, own), FiledAll(rest, own),
               Selected(Filed(e, whole), sessionId, activityId), Selected(FiledAll(rest, whole), sessionId, activityId));
      assert forall x :: x in events <==> x == e || x in rest;
    }
  }

  /** Activity ids without ':' that are not `*`, the usual case, are neither foreign to each other nor misfiled. */
  lemma ColonFreeActivitiesStayApart(e: Event, sessionId: string, activityId: string)
    requires Truthy(e.activityId) ==> ':' !in e.activityId.value && e.activityId.value != "*"
    requires activityId != "" && ':' !in activityId && activityId != "*"
    ensures !Foreign(e, sessionId, activityId) && !Misfiled(e, sessionId, activityId) && !Misfiled(e, sessionId, "*")
  {
    ColonFreeIsSeparable(activityId, "*");
    SeparableKeysDiffer(e.sessionId, "*", sessionId, activityId);
    if Truthy(e.activityId) {
      ColonFreeIsSeparable(e.activityId.value, activityId);
      ColonFreeIsSeparable(e.activityId.value, "*");
      SeparableKeysDiffer(e.sessionId, e.activityId.value, sessionId, activityId);
      SeparableKeysDiffer(e.sessionId, e.activityId.value, sessionId, "*");
    }
    SeparableKeysDiffer(e.sessionId, "*", sessionId, "*");
  }

  /** In the usual case, therefore, every log holds what it is meant to hold. */
  lemma ColonFreeLogsAreExact(events: seq<Event>, sessionId: string, activityId: string)
    requires forall e | e in events && Truthy(e.activityId) :: ':' !in e.activityId.value && e.activityId.value != "*"
    requires activityId != "" && ':' !in activityId && activityId != "*"
    ensures var logs := PublishAll(map[], events);
            && LogOf(logs, StreamKey(sessionId, None)) == Selected(events, sessionId, "*")
            && LogOf(logs, StreamKey(sessionId, Some(activityId))) == Selected(events, sessionId, activityId)
  {
    forall e | e in events
      ensures !Misfiled(e, sessionId, activityId) && !Misfiled(e, sessionId, "*")
    {
      ColonFreeActivitiesStayApart(e, sessionId, activityId);
    }
    LogsHoldSelectedEvents(events, sessionId, "*");
    LogsHoldSelectedEvents(events, sessionId, activityId);
  }

  /** Ids are distinct in every log, and every logged event is one of `seen`. */
  ghost predicate LogsDistinct(logs: Logs, seen: set<string>)
  {
    forall key :: UniqueIds(LogOf(logs, key)) && forall e | e in LogOf(logs, key) :: e.eventId in seen
  }

  lemma AppendDistinct(log: seq<Event>, seen: set<string>, e: Event)
    requires UniqueIds(log) && forall x | x in log :: x.eventId in seen
    requires e.eventId !in seen
    ensures UniqueIds(log + [e]) && forall x | x in log + [e] :: x.eventId in seen + {e.eventId}
  {
  }

  lemma PublishKeepsDistinct(logs: Logs, seen: set<string>, e: Event)
    requires LogsDistinct(logs, seen) && e.eventId !in seen && !NamesWildcard(e)
    ensures LogsDistinct(Published(logs, e), seen + {e.eventId})
  {
    var sessionKey := StreamKey(e.sessionId, None);
    if Truthy(e.activityId) {
      assert Joined(e.sessionId, e.activityId.value)[|e.sessionId| + 1..] == e.activityId.value;
      assert Joined(e.sessionId, "*")[|e.sessionId| + 1..] == "*";
    }
    forall key
      ensures UniqueIds(LogOf(Published(logs, e), key))
      ensures forall x | x in LogOf(Published(logs, e), key) :: x.eventId in seen + {e.eventId}
    {
      AppendDistinct(LogOf(logs, key), seen, e);
    }
  }

  ghost predicate DistinctFrom(events: seq<Event>, seen: set<string>)
  {
    UniqueIds(events) && forall e | e in events :: e.eventId !in seen
  }

  lemma {:induction false} PublishAllKeepsDistinct(logs: Logs, seen: set<string>, events: seq<Event>)
    requires LogsDistinct(logs, seen) && DistinctFrom(events, seen)
    requires forall e | e in events :: !NamesWildcard(e)
    ensures forall key :: UniqueIds(LogOf(PublishAll(logs, events), key))
    decreases |events|
  {
    if events != [] {
      assert events[0] in events;
      PublishKeepsDistinct(logs, seen, events[0]);
      forall e | e in events[1..]
        ensures e.eventId !in seen + {events[0].eventId}
      {
        var i :| 0 <= i < |events[1..]| && events[1..][i] == e;
        assert e == events[i + 1] && e in events;
      }
      PublishAllKeepsDistinct(Published(logs, events[0]), seen + {events[0].eventId}, events[1..]);
    }
  }

  lemma {:induction false} LogsGrow(logs: Logs, events: seq<Event>, key: string)
    ensures LogOf(logs, key) <= LogOf(PublishAll(logs, events), key)
    decreases |events|
  {
    if events != [] {
      LogsGrow(Published(logs, events[0]), events[1..], key);
    }
  }

  lemma {:induction false} WildcardRepeats(logs: Logs, events: seq<Event>, i: nat)
    requires i < |events| && NamesWildcard(events[i])
    ensures !UniqueIds(LogOf(PublishAll(logs, events), StreamKey(events[i].sessionId, None)))
    decreases |events|
  {
    var key := StreamKey(events[i].sessionId, None);
    if i == 0 {
      var next := Published(logs, events[0]);
      LogsGrow(next, events[1..], key);
      var n := |LogOf(logs, key)|;
      var final := LogOf(PublishAll(logs, events), key);
      assert LogOf(next, key)[n] == LogOf(next, key)[n + 1] == events[0];
      assert final[n].eventId == final[n + 1].eventId;
    } else {
      WildcardRepeats(Published(logs, events[0]), events[1..], i - 1);
    }
  }

  /**
   Publishing events with distinct ids leaves ids distinct within every log, even where keys
   collide, if and only if none of them names the activity `*`.
   */
  lemma LogIdsStayUniqueIffNoWildcard(events: seq<Event>)
    requires UniqueIds(events)
    ensures (forall key :: UniqueIds(LogOf(PublishAll(map[], events), key))) <==> (forall e | e in events :: !NamesWildcard(e))
  {
    if forall e | e in events :: !NamesWildcard(e) {
      PublishAllKeepsDistinct(map[], {}, events);
    } else {
      var i :| 0 <= i < |events| && NamesWildcard(events[i]);
      WildcardRepeats(map[], events, i);
    }
  }
}
