/** Sessions: participants, roles and the session state table. */
module Sessions {
  import opened Outcomes
  import opened Json

  datatype SessionState = Created | Active | Paused | Closing | Closed | SessionFailed

  datatype SpendLimit = SpendLimit(currency: string, amount: real)

  datatype Budget = Budget(spendLimit: Option<SpendLimit>, tokenLimit: Option<int>)

  datatype Session = Session(
    sessionId: string,
    participants: set<string>,
    roles: map<string, set<string>>,
    state: SessionState,
    policyRef: Option<string>,
    budget: Budget,
    metadata: Fields)

  type Store = map<string, Session>

  /** The characters `str.isspace` accepts, which `str.strip` removes. */
  predicate IsSpace(c: char)
  {
    || '\t' <= c <= '\r' || '\U{1C}' <= c <= ' ' || c == '\U{85}' || c == '\U{A0}' || c == '\U{1680}'
    || '\U{2000}' <= c <= '\U{200A}' || c == '\U{2028}' || c == '\U{2029}' || c == '\U{202F}' || c == '\U{205F}' || c == '\U{3000}'
  }

  /** Python's `not value or not value.strip()`. */
  predicate Blank(s: string)
  {
    forall i | 0 <= i < |s| :: IsSpace(s[i])
  }

  /** `_ALLOWED_SESSION_TRANSITIONS` */
  function AllowedSessionTransitions(s: SessionState): set<SessionState>
  {
    match s
    case Created => {Active, Closing, Closed, SessionFailed}
    case Active => {Paused, Closing, Closed, SessionFailed}
    case Paused => {Active, Closing, Closed, SessionFailed}
    case Closing => {Closed, SessionFailed}
    case Closed => {}
    case SessionFailed => {}
  }

  /** The table read by columns: from where each state may be entered. */
  lemma StatesAreEnteredFrom(from: SessionState, to: SessionState)
    ensures to in AllowedSessionTransitions(from) <==>
              match to
              case Created => false
              case Active => from == Created || from == Paused
              case Paused => from == Active
              case Closing => from == Created || from == Active || from == Paused
              case _ => from != Closed && from != SessionFailed
  {
  }

  const DEFAULT_ROLES: set<string> := {"participant"}

  predicate HasEmptyRoleSet(roles: map<string, set<string>>)
  {
    exists e :: e in roles && roles[e] == {}
  }

  function NewSession(id: string, participants: set<string>, roles: map<string, set<string>>, policyRef: Option<string>, budget: Budget,
                      metadata: Fields): Result<Session>
  {
    if |participants| < 2 || roles.Keys - participants != {} || HasEmptyRoleSet(roles) || Blank(id) then Err(InvalidArgument)
    else Ok(Session(id, participants, WithDefaults(roles, participants), Active, policyRef, budget, metadata))
  }

  /** Every participant without a role set gets the default one. */
  function WithDefaults(roles: map<string, set<string>>, participants: set<string>): map<string, set<string>>
  {
    map e | e in roles.Keys + participants :: if e in roles then roles[e] else DEFAULT_ROLES
  }

  function Joined(s: Session, entity: string, roles: Option<set<string>>): Result<Session>
  {
    if s.state != Active then Err(InvalidStateTransition) else
      Ok(s.(participants := s.participants + {entity},
            roles := if roles.Some? && roles.value != {} then s.roles[entity := roles.value]
                     else if entity in s.roles then s.roles else s.roles[entity := DEFAULT_ROLES]))
  }

  function Left(s: Session, entity: string): Result<Session>
  {
    if s.state in {Closed, SessionFailed} then Err(InvalidStateTransition) else
      Ok(s.(participants := s.participants - {entity}, roles := s.roles - {entity}))
  }

  function Updated(s: Session, policyRef: Option<string>, budget: Option<Budget>, state: Option<SessionState>,
                   rolesPatch: map<string, set<string>>): Result<Session>
  {
    if s.state in {Closed, SessionFailed} then Err(InvalidStateTransition)
    else if state.Some? && state.value != s.state && state.value !in AllowedSessionTransitions(s.state) then Err(InvalidStateTransition)
    else if HasEmptyRoleSet(rolesPatch) then Err(InvalidArgument)
    else
      Ok(s.(policyRef := if policyRef.Some? then policyRef else s.policyRef,
            budget := if budget.Some? then budget.value else s.budget,
            state := if state.Some? then state.value else s.state,
            participants := s.participants + rolesPatch.Keys,
            roles := s.roles + rolesPatch))
  }

  function ClosedBy(s: Session, reason: Option<string>): Result<Session>
  {
    if s.state == Closed then Ok(s)
    else if Closed !in AllowedSessionTransitions(s.state) then Err(InvalidStateTransition)
    else Ok(s.(state := Closed,
               metadata := if reason.Some? && reason.value != "" then s.metadata["close_reason" := Str(reason.value)] else s.metadata))
  }

  datatype Call =
    | Create(id: string, participants: set<string>, initialRoles: map<string, set<string>>, policyRef: Option<string>, budget: Budget,
             metadata: Fields)
    | Join(id: string, entity: string, roles: Option<set<string>>)
    | Leave(id: string, entity: string)
    | Update(id: string, newPolicyRef: Option<string>, newBudget: Option<Budget>, state: Option<SessionState>,
             rolesPatch: map<string, set<string>>)
    | Close(id: string, reason: Option<string>)

  /** One call on the store: a refused call leaves it as it was. */
  function Apply(store: Store, call: Call): (Store, Result<Session>)
  {
    var r :=
      if call.Create? then
        if call.id in store then Err(AlreadyExists)
        else NewSession(call.id, call.participants, call.initialRoles, call.policyRef, call.budget, call.metadata)
      else if call.id !in store then Err(NotFound)
      else
        match call
        case Join(id, entity, roles) => Joined(store[id], entity, roles)
        case Leave(id, entity) => Left(store[id], entity)
        case Update(id, policyRef, budget, state, patch) => Updated(store[id], policyRef, budget, state, patch)
        case Close(id, reason) => ClosedBy(store[id], reason)
        case Create(_, _, _, _, _, _) => Err(NotFound);
    (if r.Ok? then store[call.id := r.value] else store, r)
  }

  /** Role keys are the participants, every role set is non-empty, and the record sits under its own id. */
  ghost predicate WellFormed(store: Store)
  {
    forall id | id in store ::
      && store[id].sessionId == id
      && store[id].roles.Keys == store[id].participants
      && forall e | e in store[id].roles :: store[id].roles[e] != {}
  }

  predicate Ended(s: Session)
  {
    s.state in {Closed, SessionFailed}
  }

  function RunCalls(store: Store, calls: seq<Call>): Store
    decreases |calls|
  {
    if calls == [] then store else RunCalls(Apply(store, calls[0]).0, calls[1..])
  }

  ghost predicate RolesMatch(s: Session)
  {
    s.roles.Keys == s.participants && forall e | e in s.roles :: s.roles[e] != {}
  }

  lemma DefaultsMatch(roles: map<string, set<string>>, participants: set<string>)
    requires roles.Keys <= participants && !HasEmptyRoleSet(roles)
    ensures WithDefaults(roles, participants).Keys == participants
    ensures forall e | e in participants :: WithDefaults(roles, participants)[e] != {}
  {
    forall e | e in participants
      ensures WithDefaults(roles, participants)[e] != {}
    {
      assert e in roles && roles[e] == {} ==> HasEmptyRoleSet(roles);
    }
  }

  lemma NewMatches(id: string, participants: set<string>, roles: map<string, set<string>>, policyRef: Option<string>, budget: Budget,
                   metadata: Fields)
    ensures var r := NewSession(id, participants, roles, policyRef, budget, metadata);
            r.Ok? ==> r.value.sessionId == id && RolesMatch(r.value)
  {
    if NewSession(id, participants, roles, policyRef, budget, metadata).Ok? {
      forall e | e in roles
        ensures e in participants
      {
        assert e !in roles.Keys - participants;
      }
      DefaultsMatch(roles, participants);
    }
  }

  lemma ApplyKeepsWellFormed(store: Store, call: Call)
    requires WellFormed(store)
    ensures WellFormed(Apply(store, call).0)
  {
    match call
    case Create(id, participants, roles, policyRef, budget, metadata) =>
      NewMatches(id, participants, roles, policyRef, budget, metadata);
    case Update(id, policyRef, budget, state, patch) =>
      if id in store {
        assert RolesMatch(store[id]);
      }
    case _ =>
  }

  /**
   In every state reachable from an empty store, role keys equal participants with non-empty role
   sets, and a session that has ended keeps its record through the rest of the run.
   */
  lemma {:induction false} SessionRuns(store: Store, calls: seq<Call>)
    requires WellFormed(store)
    ensures WellFormed(RunCalls(store, calls))
    ensures forall id | id in store && Ended(store[id]) ::
              id in RunCalls(store, calls) && RunCalls(store, calls)[id] == store[id]
    decreases |calls|
  {
    if calls != [] {
      ApplyKeepsWellFormed(store, calls[0]);
      forall id | id in store && Ended(store[id])
        ensures id in Apply(store, calls[0]).0 && Apply(store, calls[0]).0[id] == store[id]
      {
      }
      SessionRuns(Apply(store, calls[0]).0, calls[1..]);
    }
  }

  /** The loop of `create` that copies the given role sets and refuses an empty one. */
  method CheckedRoles(roles: map<string, set<string>>) returns (r: Result<map<string, set<string>>>)
    ensures r == if HasEmptyRoleSet(roles) then Err(InvalidArgument) else Ok(roles)
  {
    var normalized: map<string, set<string>> := map[];
    var todo := roles.Keys;
    while todo != {}
      invariant todo <= roles.Keys && normalized.Keys == roles.Keys - todo
      invariant forall e | e in normalized :: normalized[e] == roles[e] && roles[e] != {}
      decreases todo
    {
      var e :| e in todo;
      if roles[e] == {} {
        return Err(InvalidArgument);
      }
      normalized := normalized[e := roles[e]];
      todo := todo - {e};
    }
    assert normalized == roles;
    r := Ok(normalized);
  }

  /** The loop of `create` that gives the remaining participants the default role. */
  method FillDefaults(roles: map<string, set<string>>, participants: set<string>) returns (filled: map<string, set<string>>)
    ensures filled == WithDefaults(roles, participants)
  {
    filled := roles;
    var todo := participants;
    while todo != {}
      invariant todo <= participants && filled.Keys == roles.Keys + (participants - todo)
      invariant forall e | e in filled :: filled[e] == if e in roles then roles[e] else DEFAULT_ROLES
      decreases todo
    {
      var e :| e in todo;
      if e !in filled {
        filled := filled[e := DEFAULT_ROLES];
      }
      todo := todo - {e};
    }
  }

  /** The patch is applied for all entities but those in `todo`. */
  ghost predicate PatchedSoFar(roles: map<string, set<string>>, patch: map<string, set<string>>, todo: set<string>, now: map<string, set<string>>)
  {
    && now.Keys == roles.Keys + (patch.Keys - todo)
    && forall e | e in now :: now[e] == if e in patch && e !in todo then patch[e] else if e in roles then roles[e] else {}
  }

  lemma PatchedAll(roles: map<string, set<string>>, patch: map<string, set<string>>, now: map<string, set<string>>)
    requires PatchedSoFar(roles, patch, {}, now)
    ensures now == roles + patch
  {
  }

  /** The loop of `update` over `roles_patch`. */
  method PatchRoles(session: Session, rolesPatch: map<string, set<string>>) returns (r: Result<Session>)
    ensures r == if HasEmptyRoleSet(rolesPatch) then Err(InvalidArgument) else
                   Ok(session.(roles := session.roles + rolesPatch, participants := session.participants + rolesPatch.Keys))
  {
    var roles, participants := session.roles, session.participants;
    var todo := rolesPatch.Keys;
    while todo != {}
      invariant todo <= rolesPatch.Keys
      invariant forall e | e in rolesPatch && e !in todo :: rolesPatch[e] != {}
      invariant PatchedSoFar(session.roles, rolesPatch, todo, roles)
      invariant participants == session.participants + (rolesPatch.Keys - todo)
      decreases todo
    {
      var e :| e in todo;
      if rolesPatch[e] == {} {
        return Err(InvalidArgument);
      }
      roles := roles[e := rolesPatch[e]];
      participants := participants + {e};
      todo := todo - {e};
    }
    PatchedAll(session.roles, rolesPatch, roles);
    assert participants == session.participants + rolesPatch.Keys;
    r := Ok(session.(roles := roles, participants := participants));
  }

  lemma CreatedRoles(roles: map<string, set<string>>, participants: set<string>, filled: map<string, set<string>>)
    requires filled == WithDefaults(roles, participants)
    ensures forall e | e in participants :: e in filled && filled[e] == if e in roles then roles[e] else {"participant"}
  {
  }

  lemma RolesAreSound(roles: map<string, set<string>>, participants: set<string>)
    ensures roles.Keys - participants != {} <==> !(roles.Keys <= participants)
    ensures HasEmptyRoleSet(roles) <==> !forall e | e in roles :: roles[e] != {}
  {
    if roles.Keys - participants == {} {
      forall e | e in roles
        ensures e in participants
      {
        assert e !in roles.Keys - participants;
      }
    }
  }

  class SessionEngine {
    var store: Store

    constructor ()
      ensures store == map[]
    {
      store := map[];
    }

    method CreateSession(id: string, participants: set<string>, roles: map<string, set<string>>, policyRef: Option<string>, budget: Budget,
                         metadata: Fields)
      returns (r: Result<Session>)
      modifies this
      ensures (store, r) == Apply(old(store), Create(id, participants, roles, policyRef, budget, metadata))
      ensures r.Ok? <==>
                && id !in old(store) && !Blank(id) && |participants| >= 2 && roles.Keys <= participants
                && forall e | e in roles :: roles[e] != {}
      ensures r == Err(AlreadyExists) <==> id in old(store)
      ensures r.Err? ==> store == old(store)
      ensures r.Ok? ==>
                && store == old(store)[id := r.value]
                && r.value == Session(id, participants, r.value.roles, Active, policyRef, budget, metadata)
                && forall e | e in participants :: e in r.value.roles && r.value.roles[e] == if e in roles then roles[e] else {"participant"}
    {
      RolesAreSound(roles, participants);
      if id in store {
        return Err(AlreadyExists);
      }
      if |participants| < 2 {
        return Err(InvalidArgument);
      }
      if roles.Keys - participants != {} {
        return Err(InvalidArgument);
      }
      var checked := CheckedRoles(roles);
      if checked.Err? {
        return Err(checked.code);
      }
      var normalized := FillDefaults(checked.value, participants);
      CreatedRoles(roles, participants, normalized);
      if Blank(id) {
        return Err(InvalidArgument);
      }
      var session := Session(id, participants, normalized, Active, policyRef, budget, metadata);
      store := store[id := session];
      r := Ok(session);
    }

    method JoinSession(id: string, entity: string, roles: Option<set<string>>) returns (r: Result<Session>)
      modifies this
      ensures (store, r) == Apply(old(store), Join(id, entity, roles))
      ensures r.Ok? <==> id in old(store) && old(store)[id].state == Active
      ensures r.Err? ==> store == old(store) && r.code == if id in old(store) then InvalidStateTransition else NotFound
      ensures r.Ok? ==>
                && store == old(store)[id := r.value]
                && r.value == old(store)[id].(participants := old(store)[id].participants + {entity}, roles := r.value.roles)
                && entity in r.value.roles
                && r.value.roles[entity] == (if roles.Some? && roles.value != {} then roles.value
                                             else if entity in old(store)[id].roles then old(store)[id].roles[entity]
                                             else {"participant"})
                && r.value.roles - {entity} == old(store)[id].roles - {entity}
    {
      if id !in store {
        return Err(NotFound);
      }
      var session := store[id];
      if session.state != Active {
        return Err(InvalidStateTransition);
      }
      session := session.(participants := session.participants + {entity});
      if roles.Some? && roles.value != {} {
        session := session.(roles := session.roles[entity := roles.value]);
      } else if entity !in session.roles {
        session := session.(roles := session.roles[entity := DEFAULT_ROLES]);
      }
      store := store[id := session];
      r := Ok(session);
    }

    method LeaveSession(id: string, entity: string) returns (r: Result<Session>)
      modifies this
      ensures (store, r) == Apply(old(store), Leave(id, entity))
      ensures r.Ok? <==> id in old(store) && old(store)[id].state != Closed && old(store)[id].state != SessionFailed
      ensures r.Err? ==> store == old(store) && r.code == if id in old(store) then InvalidStateTransition else NotFound
      ensures r.Ok? ==>
                && store == old(store)[id := r.value]
                && r.value == old(store)[id].(participants := r.value.participants, roles := r.value.roles)
                && (forall e :: e in r.value.participants <==> e in old(store)[id].participants && e != entity)
                && (forall e :: e in r.value.roles <==> e in old(store)[id].roles && e != entity)
                && forall e | e in r.value.roles :: r.value.roles[e] == old(store)[id].roles[e]
    {
      if id !in store {
        return Err(NotFound);
      }
      var session := store[id];
      if session.state in {Closed, SessionFailed} {
        return Err(InvalidStateTransition);
      }
      session := session.(participants := session.participants - {entity});
      session := session.(roles := session.roles - {entity});
      store := store[id := session];
      r := Ok(session);
    }

    method UpdateSession(id: string, policyRef: Option<string>, budget: Option<Budget>, state: Option<SessionState>,
                         rolesPatch: map<string, set<string>>)
      returns (r: Result<Session>)
      modifies this
      ensures (store, r) == Apply(old(store), Update(id, policyRef, budget, state, rolesPatch))
      ensures r.Ok? <==>
                && id in old(store) && old(store)[id].state !in {Closed, SessionFailed}
                && (state.Some? ==> state.value == old(store)[id].state || state.value in AllowedSessionTransitions(old(store)[id].state))
                && forall e | e in rolesPatch :: rolesPatch[e] != {}
      ensures r.Err? ==> store == old(store) && (r.code == NotFound <==> id !in old(store))
      ensures r.Ok? ==>
                && store == old(store)[id := r.value]
                && r.value.sessionId == old(store)[id].sessionId && r.value.metadata == old(store)[id].metadata
                && r.value.policyRef == (if policyRef.Some? then policyRef else old(store)[id].policyRef)
                && r.value.budget == (if budget.Some? then budget.value else old(store)[id].budget)
                && r.value.state == (if state.Some? then state.value else old(store)[id].state)
                && (forall e :: e in r.value.participants <==> e in old(store)[id].participants || e in rolesPatch)
                && (forall e :: e in r.value.roles <==> e in old(store)[id].roles || e in rolesPatch)
                && forall e | e in r.value.roles :: r.value.roles[e] == if e in rolesPatch then rolesPatch[e] else old(store)[id].roles[e]
    {
      if id !in store {
        return Err(NotFound);
      }
      var session := store[id];
      if session.state in {Closed, SessionFailed} {
        return Err(InvalidStateTransition);
      }
      if policyRef.Some? {
        session := session.(policyRef := policyRef);
      }
      if budget.Some? {
        session := session.(budget := budget.value);
      }
      if state.Some? {
        if state.value != session.state && state.value !in AllowedSessionTransitions(session.state) {
          return Err(InvalidStateTransition);
        }
        session := session.(state := state.value);
      }
      var patched := PatchRoles(session, rolesPatch);
      if patched.Err? {
        return Err(patched.code);
      }
      session := patched.value;
      store := store[id := session];
      r := Ok(session);
    }

    method CloseSession(id: string, reason: Option<string>) returns (r: Result<Session>)
      modifies this
      ensures (store, r) == Apply(old(store), Close(id, reason))
      ensures r.Ok? <==> id in old(store) && old(store)[id].state != SessionFailed
      ensures r.Err? ==> r.code == if id in old(store) then InvalidStateTransition else NotFound
      ensures r.Err? || old(store)[id].state == Closed ==> store == old(store)
      ensures r.Ok? ==>
                && store == old(store)[id := r.value] && r.value.state == Closed
                && old(store)[id] == r.value.(state := old(store)[id].state, metadata := old(store)[id].metadata)
                && r.value.metadata == (if old(store)[id].state != Closed && reason.Some? && reason.value != ""
                                        then old(store)[id].metadata["close_reason" := Str(reason.value)] else old(store)[id].metadata)
    {
      if id !in store {
        return Err(NotFound);
      }
      var session := store[id];
      if session.state == Closed {
        assert store == store[id := session];
        return Ok(session);
      }
      if Closed !in AllowedSessionTransitions(session.state) {
        return Err(InvalidStateTransition);
      }
      session := session.(state := Closed);
      if reason.Some? && reason.value != "" {
        session := session.(metadata := session.metadata["close_reason" := Str(reason.value)]);
      }
      store := store[id := session];
      r := Ok(session);
    }
  }
}
