/**
 The store codec at the level of JSON trees: sessions, memberships, activities and events, with every
 field. Instants are integer leaves; the text of timestamps and of JSON itself is not part of this
 model. A Python set is encoded by sorting it in whatever order it happens to be iterated.
 */
module Codec {
  import opened Outcomes
  import opened Json
  import opened KeyOrder
  import opened Activities
  import opened Events
  import L = Lifecycle
  import S = Sessions

  datatype MembershipStatus = MemberActive | Inactive | Suspended | Revoked

  datatype Delegation = Delegation(scope: seq<string>, spendLimit: Option<S.SpendLimit>, maxTokenLimit: Option<int>, expiresAt: Option<int>)

  datatype Membership = Membership(
    membershipId: string,
    organizationId: string,
    memberEntityId: string,
    roles: set<string>,
    status: MembershipStatus,
    delegations: seq<Delegation>)

  /** A stored record: what the engines work on, and its two timestamps. */
  datatype Dated<+T> = Dated(record: T, createdAt: int, updatedAt: int)

  /** A stored event: what the engines work on, and the fields they only pass along. */
  datatype EventRecord = EventRecord(
    event: Event,
    occurredAt: int,
    traceId: Option<string>,
    causationId: Option<string>,
    policyRef: Option<string>,
    evidenceRefs: seq<string>)

  /** The orders in which the sets of a session are iterated. */
  datatype SessionOrder = SessionOrder(participants: seq<string>, roles: map<string, seq<string>>)

  ghost predicate OrderOf(o: SessionOrder, s: S.Session)
  {
    && Iterates(o.participants, s.participants)
    && o.roles.Keys == s.roles.Keys && forall e | e in s.roles :: Iterates(o.roles[e], s.roles[e])
  }

  // -------- encoding --------

  function Strings(items: seq<string>): Json
  {
    Arr(seq(|items|, i requires 0 <= i < |items| => Str(items[i])))
  }

  /** Sets are encoded as sorted lists. */
  function StringSet(order: seq<string>): Json
  {
    Strings(SortList(order))
  }

  function OrNull(s: Option<string>): Json
  {
    if s.Some? then Str(s.value) else Null
  }

  function IntOrNull(n: Option<int>): Json
  {
    if n.Some? then Int(n.value) else Null
  }

  function FieldsOrNull(f: Option<Fields>): Json
  {
    if f.Some? then Obj(f.value) else Null
  }

  function EncodeSpend(l: Option<S.SpendLimit>): Json
  {
    if l.Some? then Obj(map["currency" := Str(l.value.currency), "amount" := Float(l.value.amount)]) else Null
  }

  function SessionStateName(s: S.SessionState): string
  {
    match s
    case Created => "created"
    case Active => "active"
    case Paused => "paused"
    case Closing => "closing"
    case Closed => "closed"
    case SessionFailed => "failed"
  }

  function RoleTrees(o: map<string, seq<string>>): Fields
  {
    map e | e in o :: StringSet(o[e])
  }

  function EncodeBudget(b: S.Budget): Fields
  {
    map["spend_limit" := EncodeSpend(b.spendLimit), "token_limit" := IntOrNull(b.tokenLimit)]
  }

  function EncodeSession(d: Dated<S.Session>, o: SessionOrder): Fields
  {
    var s := d.record;
    map[
      "session_id" := Str(s.sessionId),
      "participants" := StringSet(o.participants),
      "roles" := Obj(RoleTrees(o.roles)),
      "state" := Str(SessionStateName(s.state)),
      "policy_ref" := OrNull(s.policyRef),
      "budget" := Obj(EncodeBudget(s.budget)),
      "created_at" := Int(d.createdAt),
      "updated_at" := Int(d.updatedAt),
      "metadata" := Obj(s.metadata)]
  }

  function StatusName(s: MembershipStatus): string
  {
    match s
    case MemberActive => "active"
    case Inactive => "inactive"
    case Suspended => "suspended"
    case Revoked => "revoked"
  }

  function EncodeDelegation(d: Delegation): Json
  {
    Obj(map[
      "scope" := Strings(d.scope),
      "constraints" := Obj(map["spend_limit" := EncodeSpend(d.spendLimit), "max_token_limit" := IntOrNull(d.maxTokenLimit)]),
      "expires_at" := IntOrNull(d.expiresAt)])
  }

  function EncodeDelegations(ds: seq<Delegation>): seq<Json>
  {
    seq(|ds|, i requires 0 <= i < |ds| => EncodeDelegation(ds[i]))
  }

  function EncodeMembership(d: Dated<Membership>, order: seq<string>): Fields
  {
    var m := d.record;
    map[
      "membership_id" := Str(m.membershipId),
      "organization_id" := Str(m.organizationId),
      "member_entity_id" := Str(m.memberEntityId),
      "roles" := StringSet(order),
      "status" := Str(StatusName(m.status)),
      "delegations" := Arr(EncodeDelegations(m.delegations)),
      "created_at" := Int(d.createdAt),
      "updated_at" := Int(d.updatedAt)]
  }

  function EncodeActivity(d: Dated<Activity>): Fields
  {
    var a := d.record;
    map[
      "activity_id" := Str(a.activityId),
      "session_id" := Str(a.sessionId),
      "owner_entity_id" := Str(a.ownerEntityId),
      "initiator_entity_id" := Str(a.initiatorEntityId),
      "state" := Str(L.StateName(a.state)),
      "operation" := OrNull(a.operation),
      "input_payload" := Obj(a.inputPayload),
      "result_payload" := FieldsOrNull(a.resultPayload),
      "result_ref" := OrNull(a.resultRef),
      "status_message" := OrNull(a.statusMessage),
      "error" := FieldsOrNull(a.error),
      "created_at" := Int(d.createdAt),
      "updated_at" := Int(d.updatedAt)]
  }

  function EncodeEvent(r: EventRecord): Fields
  {
    map[
      "event_id" := Str(r.event.eventId),
      "event_type" := Str(r.event.eventType),
      "session_id" := Str(r.event.sessionId),
      "producer_entity_id" := Str(r.event.producerEntityId),
      "occurred_at" := Int(r.occurredAt),
      "activity_id" := OrNull(r.event.activityId),
      "trace_id" := OrNull(r.traceId),
      "causation_id" := OrNull(r.causationId),
      "payload" := Obj(r.event.payload),
      "policy_ref" := OrNull(r.policyRef),
      "evidence_refs" := Strings(r.evidenceRefs)]
  }

  // -------- decoding --------

  /** `data["key"]`, where only a string is expected. */
  function StrAt(f: Fields, key: string): Result<string>
  {
    if key in f && f[key].Str? then Ok(f[key].s) else Err(ValueError)
  }

  function OptStrAt(f: Fields, key: string): Result<Option<string>>
  {
    if key !in f || f[key].Null? then Ok(None) else if f[key].Str? then Ok(Some(f[key].s)) else Err(ValueError)
  }

  function OptIntAt(f: Fields, key: string): Result<Option<int>>
  {
    if key !in f || f[key].Null? then Ok(None) else if f[key].Int? then Ok(Some(f[key].i)) else Err(ValueError)
  }

  /** `_dt(data.get("key"))`: whatever is no instant is taken as the present. */
  function InstantAt(f: Fields, key: string, now: int): int
  {
    if key in f && f[key].Int? then f[key].i else now
  }

  /** `_dt_or_none(data.get("key"))` */
  function OptInstantAt(f: Fields, key: string, now: int): Option<int>
  {
    if key !in f || f[key].Null? then None else Some(InstantAt(f, key, now))
  }

  /** `dict(data.get("key", {}))` */
  function FieldsAt(f: Fields, key: string): Result<Fields>
  {
    if key !in f then Ok(map[]) else if f[key].Obj? then Ok(f[key].fields) else Err(ValueError)
  }

  function OptFieldsAt(f: Fields, key: string): Result<Option<Fields>>
  {
    if key !in f || f[key].Null? then Ok(None) else if f[key].Obj? then Ok(Some(f[key].fields)) else Err(ValueError)
  }

  function ToStrings(items: seq<Json>): Result<seq<string>>
  {
    if items == [] then Ok([])
    else if !items[0].Str? then Err(ValueError)
    else
      var rest :- ToStrings(items[1..]);
      Ok([items[0].s] + rest)
  }

  /** `list(data.get("key", []))` */
  function StringsAt(f: Fields, key: string): Result<seq<string>>
  {
    if key !in f then Ok([]) else if f[key].Arr? then ToStrings(f[key].items) else Err(ValueError)
  }

  function SetOf(items: seq<string>): set<string>
  {
    set x | x in items
  }

  function RoleSet(j: Json): Result<set<string>>
  {
    if !j.Arr? then Err(ValueError) else
      var items :- ToStrings(j.items);
      Ok(SetOf(items))
  }

  function RoleSets(f: Fields): Result<map<string, set<string>>>
  {
    if forall e | e in f :: RoleSet(f[e]).Ok? then Ok(map e | e in f :: RoleSet(f[e]).value) else Err(ValueError)
  }

  function ToSessionState(name: string): Result<S.SessionState>
  {
    match name
    case "created" => Ok(S.Created)
    case "active" => Ok(S.Active)
    case "paused" => Ok(S.Paused)
    case "closing" => Ok(S.Closing)
    case "closed" => Ok(S.Closed)
    case "failed" => Ok(S.SessionFailed)
    case _ => Err(ValueError)
  }

  function ToStatus(name: string): Result<MembershipStatus>
  {
    match name
    case "active" => Ok(MemberActive)
    case "inactive" => Ok(Inactive)
    case "suspended" => Ok(Suspended)
    case "revoked" => Ok(Revoked)
    case _ => Err(ValueError)
  }

  function ToActivityState(name: string): Result<ActivityState>
  {
    match name
    case "submitted" => Ok(Submitted)
    case "working" => Ok(Working)
    case "input_required" => Ok(InputRequired)
    case "auth_required" => Ok(ActivityState.AuthRequired)
    case "completed" => Ok(Completed)
    case "failed" => Ok(Failed)
    case "canceled" => Ok(Canceled)
    case "rejected" => Ok(Rejected)
    case _ => Err(ValueError)
  }

  predicate ValidSpend(l: Option<S.SpendLimit>)
  {
    l.Some? ==> !S.Blank(l.value.currency) && l.value.amount >= 0.0
  }

  predicate ValidTokens(n: Option<int>)
  {
    n.Some? ==> n.value >= 0
  }

  function SpendAt(f: Fields, key: string): Result<Option<S.SpendLimit>>
  {
    if key !in f || !f[key].Obj? then Ok(None) else
      var spend := f[key].fields;
      var currency :- StrAt(spend, "currency");
      if "amount" !in spend || !spend["amount"].Float? then Err(ValueError)
      else
        var limit := Some(S.SpendLimit(currency, spend["amount"].r));
        if ValidSpend(limit) then Ok(limit) else Err(InvalidArgument)
  }

  /** `Session.__post_init__`, with those of its budget. */
  predicate ValidSession(s: S.Session)
  {
    && !S.Blank(s.sessionId) && s.participants != {} && s.roles != map[]
    && ValidSpend(s.budget.spendLimit) && ValidTokens(s.budget.tokenLimit)
  }

  function BudgetAt(f: Fields, key: string): Result<S.Budget>
  {
    var budget :- FieldsAt(f, key);
    var spend :- SpendAt(budget, "spend_limit");
    var tokens :- OptIntAt(budget, "token_limit");
    if ValidTokens(tokens) then Ok(S.Budget(spend, tokens)) else Err(InvalidArgument)
  }

  function RolesAt(f: Fields, key: string): Result<map<string, set<string>>>
  {
    var fields :- FieldsAt(f, key);
    RoleSets(fields)
  }

  function DecodeSession(f: Fields, now: int): Result<Dated<S.Session>>
  {
    var id :- StrAt(f, "session_id");
    var participants :- StringsAt(f, "participants");
    var roles :- RolesAt(f, "roles");
    var stateName :- if "state" in f then StrAt(f, "state") else Ok("created");
    var state :- ToSessionState(stateName);
    var policyRef :- OptStrAt(f, "policy_ref");
    var budget :- BudgetAt(f, "budget");
    var metadata :- FieldsAt(f, "metadata");
    var s := S.Session(id, SetOf(participants), roles, state, policyRef, budget, metadata);
    if ValidSession(s) then Ok(Dated(s, InstantAt(f, "created_at", now), InstantAt(f, "updated_at", now))) else Err(InvalidArgument)
  }

  predicate ValidDelegation(d: Delegation)
  {
    d.scope != [] && ValidSpend(d.spendLimit) && ValidTokens(d.maxTokenLimit)
  }

  function DecodeDelegation(j: Json, now: int): Result<Delegation>
  {
    if !j.Obj? then Err(ValueError) else
      var scope :- StringsAt(j.fields, "scope");
      var constraints :- FieldsAt(j.fields, "constraints");
      var spend :- SpendAt(constraints, "spend_limit");
      var tokens :- OptIntAt(constraints, "max_token_limit");
      var d := Delegation(scope, spend, tokens, OptInstantAt(j.fields, "expires_at", now));
      if ValidDelegation(d) then Ok(d) else Err(InvalidArgument)
  }

  function DecodeDelegations(items: seq<Json>, now: int): Result<seq<Delegation>>
  {
    if items == [] then Ok([]) else
      var first :- DecodeDelegation(items[0], now);
      var rest :- DecodeDelegations(items[1..], now);
      Ok([first] + rest)
  }

  predicate ValidMembership(m: Membership)
  {
    && !S.Blank(m.membershipId) && !S.Blank(m.organizationId) && !S.Blank(m.memberEntityId) && m.roles != {}
    && forall d | d in m.delegations :: ValidDelegation(d)
  }

  function DecodeMembership(f: Fields, now: int): Result<Dated<Membership>>
  {
    var id :- StrAt(f, "membership_id");
    var organization :- StrAt(f, "organization_id");
    var entity :- StrAt(f, "member_entity_id");
    var roles :- StringsAt(f, "roles");
    var statusName :- if "status" in f then StrAt(f, "status") else Ok("active");
    var status :- ToStatus(statusName);
    var delegations :- if "delegations" !in f then Ok([]) else if f["delegations"].Arr? then DecodeDelegations(f["delegations"].items, now) else Err(ValueError);
    if S.Blank(id) || S.Blank(organization) || S.Blank(entity) || roles == [] then Err(InvalidArgument)
    else Ok(Dated(Membership(id, organization, entity, SetOf(roles), status, delegations),
                  InstantAt(f, "created_at", now), InstantAt(f, "updated_at", now)))
  }

  predicate ValidActivity(a: Activity)
  {
    !S.Blank(a.activityId) && !S.Blank(a.sessionId) && !S.Blank(a.ownerEntityId) && !S.Blank(a.initiatorEntityId)
  }

  function DecodeActivity(f: Fields, now: int): Result<Dated<Activity>>
  {
    var stateName :- if "state" in f then StrAt(f, "state") else Ok("submitted");
    var state :- ToActivityState(stateName);
    var id :- StrAt(f, "activity_id");
    var session :- StrAt(f, "session_id");
    var owner :- StrAt(f, "owner_entity_id");
    var initiator :- StrAt(f, "initiator_entity_id");
    var operation :- OptStrAt(f, "operation");
    var input :- FieldsAt(f, "input_payload");
    var result :- OptFieldsAt(f, "result_payload");
    var ref :- OptStrAt(f, "result_ref");
    var message :- OptStrAt(f, "status_message");
    var error :- OptFieldsAt(f, "error");
    var a := Activity(id, session, owner, initiator, state, operation, input, result, ref, message, error);
    if ValidActivity(a) then Ok(Dated(a, InstantAt(f, "created_at", now), InstantAt(f, "updated_at", now))) else Err(InvalidArgument)
  }

  predicate ValidEvent(e: Event)
  {
    !S.Blank(e.eventId) && !S.Blank(e.eventType) && !S.Blank(e.sessionId) && !S.Blank(e.producerEntityId)
  }

  function DecodeEvent(f: Fields, now: int): Result<EventRecord>
  {
    var id :- StrAt(f, "event_id");
    var eventType :- StrAt(f, "event_type");
    var session :- StrAt(f, "session_id");
    var producer :- StrAt(f, "producer_entity_id");
    var activity :- OptStrAt(f, "activity_id");
    var trace :- OptStrAt(f, "trace_id");
    var causation :- OptStrAt(f, "causation_id");
    var payload :- FieldsAt(f, "payload");
    var policyRef :- OptStrAt(f, "policy_ref");
    var evidence :- StringsAt(f, "evidence_refs");
    var e := Event(id, eventType, session, activity, producer, payload);
    if ValidEvent(e) then Ok(EventRecord(e, InstantAt(f, "occurred_at", now), trace, causation, policyRef, evidence)) else Err(InvalidArgument)
  }

  // -------- round trips --------

  lemma {:induction false} StringsRoundTrip(items: seq<string>)
    ensures ToStrings(Strings(items).items) == Ok(items)
  {
    if items != [] {
      StringsRoundTrip(items[1..]);
      assert Strings(items).items[1..] == Strings(items[1..]).items;
      assert [items[0]] + items[1..] == items;
    }
  }

  /** Encoding a set as a sorted list loses nothing, in whatever order the set is iterated. */
  lemma StringSetRoundTrip(order: seq<string>, items: set<string>)
    requires Iterates(order, items)
    ensures StringSet(order) == Strings(Sorted(items))
    ensures RoleSet(StringSet(order)) == Ok(items)
    ensures ToStrings(StringSet(order).items) == Ok(Sorted(items)) && SetOf(Sorted(items)) == items
  {
    SortListIsSorted(order, items);
    StringsRoundTrip(Sorted(items));
    SortedLaws(items);
    assert SetOf(Sorted(items)) == items;
  }

  lemma RolesRoundTrip(o: map<string, seq<string>>, roles: map<string, set<string>>)
    requires o.Keys == roles.Keys && forall e | e in roles :: Iterates(o[e], roles[e])
    ensures RoleSets(RoleTrees(o)) == Ok(roles)
  {
    var f := RoleTrees(o);
    forall e | e in roles
      ensures RoleSet(f[e]) == Ok(roles[e])
    {
      StringSetRoundTrip(o[e], roles[e]);
    }
    assert RoleSets(f).value == roles;
  }

  lemma BudgetRoundTrip(b: S.Budget, f: Fields, key: string)
    requires key in f && f[key] == Obj(EncodeBudget(b))
    ensures BudgetAt(f, key) == if ValidSpend(b.spendLimit) && ValidTokens(b.tokenLimit) then Ok(b) else Err(InvalidArgument)
  {
    var fields := f[key].fields;
    assert "spend_limit" in fields && fields["spend_limit"] == EncodeSpend(b.spendLimit);
    assert "token_limit" in fields && fields["token_limit"] == IntOrNull(b.tokenLimit);
  }

  ghost predicate HoldsSession(f: Fields, d: Dated<S.Session>, o: SessionOrder)
  {
    var s := d.record;
    && "session_id" in f && f["session_id"] == Str(s.sessionId)
    && "participants" in f && f["participants"] == StringSet(o.participants)
    && "roles" in f && f["roles"] == Obj(RoleTrees(o.roles))
    && "state" in f && f["state"] == Str(SessionStateName(s.state))
    && "policy_ref" in f && f["policy_ref"] == OrNull(s.policyRef)
    && "budget" in f && f["budget"] == Obj(EncodeBudget(s.budget))
    && "metadata" in f && f["metadata"] == Obj(s.metadata)
    && "created_at" in f && f["created_at"] == Int(d.createdAt)
    && "updated_at" in f && f["updated_at"] == Int(d.updatedAt)
  }

  lemma SessionStateRoundTrip(s: S.SessionState)
    ensures ToSessionState(SessionStateName(s)) == Ok(s)
  {
  }

  lemma DecodeHeldSession(f: Fields, d: Dated<S.Session>, o: SessionOrder, now: int)
    requires OrderOf(o, d.record) && HoldsSession(f, d, o)
    ensures DecodeSession(f, now) == if ValidSession(d.record) then Ok(d) else Err(InvalidArgument)
  {
    StringSetRoundTrip(o.participants, d.record.participants);
    RolesRoundTrip(o.roles, d.record.roles);
    BudgetRoundTrip(d.record.budget, f, "budget");
    SessionStateRoundTrip(d.record.state);
  }

  /**
   A stored session decodes to itself, timestamps and metadata included, if and only if it passes
   the model's own checks; otherwise decoding is refused.
   */
  lemma SessionRoundTrip(d: Dated<S.Session>, o: SessionOrder, now: int)
    requires OrderOf(o, d.record)
    ensures DecodeSession(EncodeSession(d, o), now) == if ValidSession(d.record) then Ok(d) else Err(InvalidArgument)
  {
    DecodeHeldSession(EncodeSession(d, o), d, o, now);
  }

  lemma SetTreeIgnoresOrder(o: seq<string>, u: seq<string>, items: set<string>)
    requires Iterates(o, items) && Iterates(u, items)
    ensures StringSet(o) == StringSet(u)
  {
    SortListIsSorted(o, items);
    SortListIsSorted(u, items);
  }

  lemma RolesTreeIgnoresOrder(o: map<string, seq<string>>, u: map<string, seq<string>>, roles: map<string, set<string>>)
    requires o.Keys == u.Keys == roles.Keys
    requires forall e | e in roles :: Iterates(o[e], roles[e]) && Iterates(u[e], roles[e])
    ensures RoleTrees(o) == RoleTrees(u)
  {
    var x, y := RoleTrees(o), RoleTrees(u);
    assert x.Keys == y.Keys;
    forall e | e in x
      ensures x[e] == y[e]
    {
      SetTreeIgnoresOrder(o[e], u[e], roles[e]);
    }
  }

  /** The tree does not depend on the order in which a session's sets are iterated. */
  lemma SessionTreeIgnoresOrder(d: Dated<S.Session>, o: SessionOrder, u: SessionOrder)
    requires OrderOf(o, d.record) && OrderOf(u, d.record)
    ensures EncodeSession(d, o) == EncodeSession(d, u)
  {
    SetTreeIgnoresOrder(o.participants, u.participants, d.record.participants);
    RolesTreeIgnoresOrder(o.roles, u.roles, d.record.roles);
  }

  /**
   The tree is canonical: however their sets are iterated, two valid sessions are encoded as one tree
   if and only if they are equal.
   */
  lemma SessionTreeIsCanonical(d: Dated<S.Session>, o: SessionOrder, e: Dated<S.Session>, u: SessionOrder)
    requires OrderOf(o, d.record) && OrderOf(u, e.record) && ValidSession(d.record) && ValidSession(e.record)
    ensures EncodeSession(d, o) == EncodeSession(e, u) <==> d == e
  {
    SessionRoundTrip(d, o, 0);
    SessionRoundTrip(e, u, 0);
    if d == e {
      SessionTreeIgnoresOrder(d, o, u);
    }
  }

  /** The calls of two participants and then nobody: created, and left by both. */
  const EMPTYING: seq<S.Call> :=
    [S.Create("s", {"a", "b"}, map[], None, S.Budget(None, None), map[]), S.Leave("s", "a"), S.Leave("s", "b")]

  /** A session everybody has left is reachable. */
  lemma EmptiedSessionIsReached()
    ensures var store := S.RunCalls(map[], EMPTYING);
            "s" in store && store["s"].participants == {} && store["s"].roles == map[]
  {
    var created := S.Apply(map[], EMPTYING[0]).0;
    assert |{"a", "b"}| == 2;
    assert !S.Blank("s") by { assert !S.IsSpace("s"[0]); }
    assert !S.HasEmptyRoleSet(map[]);
    assert created["s"].participants == {"a", "b"} && created["s"].state == S.Active;
    var once := S.Apply(created, EMPTYING[1]).0;
    assert once["s"].participants == {"b"};
    var twice := S.Apply(once, EMPTYING[2]).0;
    assert twice["s"].participants == {} && twice["s"].roles.Keys == {};
    assert S.RunCalls(map[], EMPTYING) == S.RunCalls(created, EMPTYING[1..]);
    assert EMPTYING[1..][1..] == EMPTYING[2..];
    assert S.RunCalls(created, EMPTYING[1..]) == S.RunCalls(once, EMPTYING[2..]);
    assert EMPTYING[2..][1..] == [];
    assert S.RunCalls(once, EMPTYING[2..]) == S.RunCalls(twice, []) == twice;
  }

  /** Such a session is stored, but cannot be read back: decoding refuses exactly what its own checks refuse. */
  lemma EmptiedSessionIsLost(d: Dated<S.Session>, o: SessionOrder, now: int)
    requires OrderOf(o, d.record) && d.record.participants == {}
    ensures DecodeSession(EncodeSession(d, o), now) == Err(InvalidArgument)
  {
    SessionRoundTrip(d, o, now);
  }

  lemma DelegationRoundTrip(d: Delegation, now: int)
    ensures DecodeDelegation(EncodeDelegation(d), now) == if ValidDelegation(d) then Ok(d) else Err(InvalidArgument)
  {
    var f := EncodeDelegation(d).fields;
    StringsRoundTrip(d.scope);
  }

  lemma {:induction false} DelegationsRoundTrip(ds: seq<Delegation>, now: int)
    ensures DecodeDelegations(EncodeDelegations(ds), now)
            == if forall d | d in ds :: ValidDelegation(d) then Ok(ds) else Err(InvalidArgument)
  {
    if ds != [] {
      assert EncodeDelegations(ds)[1..] == EncodeDelegations(ds[1..]);
      DelegationRoundTrip(ds[0], now);
      DelegationsRoundTrip(ds[1..], now);
      assert ds == [ds[0]] + ds[1..];
      assert forall d :: d in ds <==> d == ds[0] || d in ds[1..];
    }
  }

  ghost predicate HoldsMembership(f: Fields, d: Dated<Membership>, order: seq<string>)
  {
    var m := d.record;
    && "membership_id" in f && f["membership_id"] == Str(m.membershipId)
    && "organization_id" in f && f["organization_id"] == Str(m.organizationId)
    && "member_entity_id" in f && f["member_entity_id"] == Str(m.memberEntityId)
    && "roles" in f && f["roles"] == StringSet(order)
    && "status" in f && f["status"] == Str(StatusName(m.status))
    && "delegations" in f && f["delegations"] == Arr(EncodeDelegations(m.delegations))
    && "created_at" in f && f["created_at"] == Int(d.createdAt)
    && "updated_at" in f && f["updated_at"] == Int(d.updatedAt)
  }

  lemma StatusRoundTrip(s: MembershipStatus)
    ensures ToStatus(StatusName(s)) == Ok(s)
  {
  }

  lemma DecodeHeldMembership(f: Fields, d: Dated<Membership>, order: seq<string>, now: int)
    requires Iterates(order, d.record.roles) && HoldsMembership(f, d, order)
    ensures DecodeMembership(f, now) == if ValidMembership(d.record) then Ok(d) else Err(InvalidArgument)
  {
    StringSetRoundTrip(order, d.record.roles);
    StatusRoundTrip(d.record.status);
    DelegationsRoundTrip(d.record.delegations, now);
    assert Sorted(d.record.roles) == [] <==> d.record.roles == {};
  }

  lemma MembershipRoundTrip(d: Dated<Membership>, order: seq<string>, now: int)
    requires Iterates(order, d.record.roles)
    ensures DecodeMembership(EncodeMembership(d, order), now) == if ValidMembership(d.record) then Ok(d) else Err(InvalidArgument)
  {
    assert HoldsMembership(EncodeMembership(d, order), d, order);
    DecodeHeldMembership(EncodeMembership(d, order), d, order, now);
  }

  /** Memberships have canonical trees as well. */
  lemma MembershipTreeIsCanonical(d: Dated<Membership>, o: seq<string>, e: Dated<Membership>, u: seq<string>)
    requires Iterates(o, d.record.roles) && Iterates(u, e.record.roles) && ValidMembership(d.record) && ValidMembership(e.record)
    ensures EncodeMembership(d, o) == EncodeMembership(e, u) <==> d == e
  {
    MembershipRoundTrip(d, o, 0);
    MembershipRoundTrip(e, u, 0);
    if d == e {
      StringSetRoundTrip(o, d.record.roles);
      StringSetRoundTrip(u, d.record.roles);
    }
  }

  ghost predicate HoldsActivityIds(f: Fields, a: Activity)
  {
    && "activity_id" in f && f["activity_id"] == Str(a.activityId)
    && "session_id" in f && f["session_id"] == Str(a.sessionId)
    && "owner_entity_id" in f && f["owner_entity_id"] == Str(a.ownerEntityId)
    && "initiator_entity_id" in f && f["initiator_entity_id"] == Str(a.initiatorEntityId)
    && "state" in f && f["state"] == Str(L.StateName(a.state))
    && "operation" in f && f["operation"] == OrNull(a.operation)
  }

  ghost predicate HoldsActivityPayloads(f: Fields, d: Dated<Activity>)
  {
    var a := d.record;
    && "input_payload" in f && f["input_payload"] == Obj(a.inputPayload)
    && "result_payload" in f && f["result_payload"] == FieldsOrNull(a.resultPayload)
    && "result_ref" in f && f["result_ref"] == OrNull(a.resultRef)
    && "status_message" in f && f["status_message"] == OrNull(a.statusMessage)
    && "error" in f && f["error"] == FieldsOrNull(a.error)
    && "created_at" in f && f["created_at"] == Int(d.createdAt)
    && "updated_at" in f && f["updated_at"] == Int(d.updatedAt)
  }

  lemma DecodeHeldActivity(f: Fields, d: Dated<Activity>, now: int)
    requires HoldsActivityIds(f, d.record) && HoldsActivityPayloads(f, d)
    ensures DecodeActivity(f, now) == if ValidActivity(d.record) then Ok(d) else Err(InvalidArgument)
  {
  }

  lemma ActivityRoundTrip(d: Dated<Activity>, now: int)
    ensures DecodeActivity(EncodeActivity(d), now) == if ValidActivity(d.record) then Ok(d) else Err(InvalidArgument)
  {
    DecodeHeldActivity(EncodeActivity(d), d, now);
  }

  ghost predicate HoldsEvent(f: Fields, r: EventRecord)
  {
    && "event_id" in f && f["event_id"] == Str(r.event.eventId)
    && "event_type" in f && f["event_type"] == Str(r.event.eventType)
    && "session_id" in f && f["session_id"] == Str(r.event.sessionId)
    && "producer_entity_id" in f && f["producer_entity_id"] == Str(r.event.producerEntityId)
    && "occurred_at" in f && f["occurred_at"] == Int(r.occurredAt)
    && "activity_id" in f && f["activity_id"] == OrNull(r.event.activityId)
    && "trace_id" in f && f["trace_id"] == OrNull(r.traceId)
    && "causation_id" in f && f["causation_id"] == OrNull(r.causationId)
    && "payload" in f && f["payload"] == Obj(r.event.payload)
    && "policy_ref" in f && f["policy_ref"] == OrNull(r.policyRef)
    && "evidence_refs" in f && f["evidence_refs"] == Strings(r.evidenceRefs)
  }

  lemma DecodeHeldEvent(f: Fields, r: EventRecord, now: int)
    requires HoldsEvent(f, r)
    ensures DecodeEvent(f, now) == if ValidEvent(r.event) then Ok(r) else Err(InvalidArgument)
  {
    StringsRoundTrip(r.evidenceRefs);
  }

  lemma EventRoundTrip(r: EventRecord, now: int)
    ensures DecodeEvent(EncodeEvent(r), now) == if ValidEvent(r.event) then Ok(r) else Err(InvalidArgument)
  {
    assert HoldsEvent(EncodeEvent(r), r);
    DecodeHeldEvent(EncodeEvent(r), r, now);
  }
}
