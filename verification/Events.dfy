/** Events, and the string keys under which their logs are kept. */
module Events {
  import opened Outcomes
  import opened Json

  datatype Event = Event(
    eventId: string,
    eventType: string,
    sessionId: string,
    activityId: Option<string>,
    producerEntityId: string,
    payload: Fields)

  /** Python truth of an optional string: absent and empty count alike. */
  predicate Truthy(s: Option<string>)
  {
    s.Some? && s.value != ""
  }

  /** The part of a stream key after the session: the activity, or `*` for the whole session. */
  function Label(activityId: Option<string>): string
  {
    if Truthy(activityId) then activityId.value else "*"
  }

  function Joined(sessionId: string, tag: string): string
  {
    sessionId + ":" + tag
  }

  /** `_stream_key` */
  function StreamKey(sessionId: string, activityId: Option<string>): string
  {
    Joined(sessionId, Label(activityId))
  }

  predicate EndsWith(s: string, suffix: string)
  {
    |suffix| <= |s| && s[|s| - |suffix|..] == suffix
  }

  /** Two distinct labels can never produce one key: neither ends in ':' and the other. */
  predicate Separable(a: string, b: string)
  {
    !EndsWith(a, ":" + b) && !EndsWith(b, ":" + a)
  }

  lemma SameTail(s: string, a: string, t: string, b: string)
    requires Joined(s, a) == Joined(t, b) && |a| >= |b|
    ensures if |a| == |b| then s == t && a == b else EndsWith(a, ":" + b)
  {
    var k := Joined(s, a);
    assert k[|s| + 1..] == a && k[|t| + 1..] == b;
    if |a| == |b| {
      assert k[..|s|] == s && k[..|t|] == t;
    } else {
      assert k[|t|..] == ":" + b;
      assert a[|a| - |b| - 1..] == k[|t|..];
    }
  }

  /** Separable labels keep their keys apart, whatever the session ids contain. */
  lemma SeparableKeysDiffer(s: string, a: string, t: string, b: string)
    requires a == b || Separable(a, b)
    ensures Joined(s, a) == Joined(t, b) <==> s == t && a == b
  {
    if Joined(s, a) == Joined(t, b) {
      if |a| >= |b| {
        SameTail(s, a, t, b);
      } else {
        SameTail(t, b, s, a);
      }
    }
  }

  /** The condition is exact: labels that are not separable do collide, for suitable sessions. */
  lemma KeysCollideUnlessSeparable(a: string, b: string)
    requires a != b
    ensures (forall s, t :: Joined(s, a) != Joined(t, b)) <==> Separable(a, b)
  {
    if Separable(a, b) {
      forall s, t
        ensures Joined(s, a) != Joined(t, b)
      {
        SeparableKeysDiffer(s, a, t, b);
      }
    } else if EndsWith(a, ":" + b) {
      CollisionOf(a, b);
    } else {
      CollisionOf(b, a);
    }
  }

  lemma CollisionOf(a: string, b: string)
    requires EndsWith(a, ":" + b)
    ensures Joined("s", a) == Joined("s:" + a[..|a| - |b| - 1], b)
  {
  }

  lemma EndingHasColon(a: string, b: string)
    ensures EndsWith(a, ":" + b) ==> ':' in a
  {
    if EndsWith(a, ":" + b) {
      assert a[|a| - |b| - 1..][0] == ':';
    }
  }

  /** Labels without ':' are separable, in particular from each other and from `*`. */
  lemma ColonFreeIsSeparable(a: string, b: string)
    requires ':' !in a && ':' !in b
    ensures Separable(a, b)
  {
    EndingHasColon(a, b);
    EndingHasColon(b, a);
  }
}
