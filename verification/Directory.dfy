/** The directory of server cards: expiry is checked on read, and a card read after it expired is evicted. */
module Directory {
  import opened Outcomes

  /** A card's own checks admit positive lifetimes only. */
  type Lifetime = n: int | n > 0 witness 1

  /** `expiresAt` is an instant; `acl` sets are the metadata's read and publish lists, empty when absent. */
  datatype Card = Card(
    entityId: string,
    content: string,
    aclPublish: set<string>,
    aclRead: set<string>,
    signAlg: Option<string>,
    keyRef: Option<string>,
    signature: Option<string>,
    issuedAt: Option<int>,
    expiresAt: Option<int>,
    ttlSeconds: Option<Lifetime>)

  datatype DirEntry = DirEntry(card: Card, healthy: bool, healthReason: Option<string>, lastHeartbeatAt: Option<int>)

  type Entries = map<string, DirEntry>

  /** What stays fixed: the trusted keys, whether signatures are demanded, and the signature check itself. */
  datatype Policy = Policy(publicKeys: map<string, string>, requireSignature: bool, verify: (Card, string) -> bool)

  predicate Unsigned(c: Card)
  {
    c.signAlg.None? || c.signAlg.value == "none"
  }

  predicate Expired(c: Card, now: int)
  {
    c.expiresAt.Some? && c.expiresAt.value <= now
  }

  predicate NonEmpty(s: Option<string>)
  {
    s.Some? && s.value != ""
  }

  /** The signature is of the one supported kind and holds under a trusted key. */
  predicate Genuine(p: Policy, c: Card)
  {
    && c.signAlg == Some("ed25519") && NonEmpty(c.keyRef) && NonEmpty(c.signature)
    && c.keyRef.value in p.publicKeys && p.verify(c, p.publicKeys[c.keyRef.value])
  }

  /** The directory answers for the card: it is genuine, or unsigned where that is allowed. */
  predicate Vouched(p: Policy, c: Card)
  {
    if Unsigned(c) then !p.requireSignature else Genuine(p, c)
  }

  /** How a card that is not vouched for is refused. */
  function SignatureError(c: Card): ErrorCode
  {
    if !Unsigned(c) && c.signAlg.value != "ed25519" then InvalidArgument else AuthRequired
  }

  predicate Allowed(acl: set<string>, actor: Option<string>)
  {
    acl == {} || (actor.Some? && actor.value in acl)
  }

  /** The checks of `publish` that do not look at the directory. */
  function Publishable(p: Policy, c: Card, actor: Option<string>, now: int): Result<()>
  {
    if !Allowed(c.aclPublish, actor) then Err(AuthzDenied)
    else if !Vouched(p, c) then Err(SignatureError(c))
    else if Expired(c, now) then Err(NotFound)
    else Ok(())
  }

  function Publish(p: Policy, es: Entries, c: Card, actor: Option<string>, upsert: bool, now: int): (Entries, Result<Card>)
  {
    var ok := Publishable(p, c, actor, now);
    if ok.Err? then (es, Err(ok.code))
    else if c.entityId in es && !upsert then (es, Err(AlreadyExists))
    else (es[c.entityId := DirEntry(c, true, None, None)], Ok(c))
  }

  /** `_get_valid_entry`: an expired entry is dropped and then missing. */
  function ValidEntry(es: Entries, id: string, now: int): (Entries, Result<DirEntry>)
  {
    if id !in es then (es, Err(NotFound))
    else if Expired(es[id].card, now) then (es - {id}, Err(NotFound))
    else (es, Ok(es[id]))
  }

  function Resolve(es: Entries, id: string, actor: Option<string>, requireHealthy: bool, now: int): (Entries, Result<Card>)
  {
    var (rest, entry) := ValidEntry(es, id, now);
    if entry.Err? then (rest, Err(entry.code))
    else if !Allowed(entry.value.card.aclRead, actor) then (rest, Err(AuthzDenied))
    else if requireHealthy && !entry.value.healthy then (rest, Err(NotFound))
    else (rest, Ok(entry.value.card))
  }

  /** An entry a reader may see: not expired, readable, and healthy if that is asked for. */
  predicate Shown(e: DirEntry, actor: Option<string>, requireHealthy: bool, now: int)
  {
    !Expired(e.card, now) && Allowed(e.card.aclRead, actor) && (requireHealthy ==> e.healthy)
  }

  /** `list` evicts every expired entry it visits and shows those that resolve. */
  function Unexpired(es: Entries, now: int): Entries
  {
    map id | id in es && !Expired(es[id].card, now) :: es[id]
  }

  function Listing(es: Entries, actor: Option<string>, requireHealthy: bool, now: int): map<string, Card>
  {
    map id | id in es && Shown(es[id], actor, requireHealthy, now) :: es[id].card
  }

  const DEFAULT_TTL: int := 600

  function Refreshed(c: Card, now: int): Card
  {
    c.(issuedAt := Some(now), expiresAt := Some(now + if c.ttlSeconds.Some? && c.ttlSeconds.value != 0 then c.ttlSeconds.value else DEFAULT_TTL))
  }

  function Heartbeat(p: Policy, es: Entries, id: string, actor: Option<string>, replacement: Option<Card>, now: int): (Entries, Result<Card>)
  {
    if replacement.Some? then
      if replacement.value.entityId != id then (es, Err(InvalidArgument))
      else
        var (after, r) := Publish(p, es, replacement.value, actor, true, now);
        if r.Err? then (after, r) else (after[id := after[id].(lastHeartbeatAt := Some(now))], r)
    else if id !in es then (es, Err(NotFound))
    else
      var c := es[id].card;
      if !Allowed(c.aclPublish, actor) then (es, Err(AuthzDenied))
      else if !Unsigned(c) then (es, Err(InvalidArgument))
      else (es[id := es[id].(card := Refreshed(c, now), lastHeartbeatAt := Some(now))], Ok(Refreshed(c, now)))
  }

  function SetHealth(es: Entries, id: string, healthy: bool, reason: Option<string>): (Entries, Result<()>)
  {
    if id !in es then (es, Err(NotFound)) else (es[id := es[id].(healthy := healthy, healthReason := reason)], Ok(()))
  }

  datatype HealthReport = HealthReport(healthy: bool, reason: Option<string>, lastHeartbeatAt: Option<int>)

  /** `health` looks at any entry, expired or not. */
  function Health(es: Entries, id: string): Result<HealthReport>
  {
    if id !in es then Err(NotFound) else Ok(HealthReport(es[id].healthy, es[id].healthReason, es[id].lastHeartbeatAt))
  }

  class DirectoryService {
    const policy: Policy
    var entries: Entries

    constructor (policy: Policy)
      ensures this.policy == policy && entries == map[]
    {
      this.policy := policy;
      entries := map[];
    }

    /** `verify_server_card`. Its own answer for unsigned cards is never asked for here. */
    method VerifyServerCard(card: Card) returns (r: Result<bool>)
      ensures !Unsigned(card) ==> (r == Ok(true) <==> Genuine(policy, card))
      ensures r.Err? <==> !Unsigned(card) && card.signAlg.value != "ed25519"
      ensures r.Err? ==> r.code == InvalidArgument
      ensures Unsigned(card) ==> (r == Ok(true) <==> card.signature.None? || card.signature.value == "unsigned")
      ensures card.signAlg == Some("ed25519") ==>
                (r == Ok(true) <==>
                   && card.keyRef.Some? && card.keyRef.value != "" && card.signature.Some? && card.signature.value != ""
                   && card.keyRef.value in policy.publicKeys && policy.verify(card, policy.publicKeys[card.keyRef.value]))
    {
      if Unsigned(card) {
        return Ok(card.signature.None? || card.signature.value == "unsigned");
      }
      if card.signAlg.value != "ed25519" {
        return Err(InvalidArgument);
      }
      if !NonEmpty(card.keyRef) || !NonEmpty(card.signature) {
        return Ok(false);
      }
      if card.keyRef.value !in policy.publicKeys {
        return Ok(false);
      }
      r := Ok(policy.verify(card, policy.publicKeys[card.keyRef.value]));
    }

    method VerifySignature(card: Card) returns (r: Result<()>)
      ensures r.Ok? <==> Vouched(policy, card)
      ensures r.Err? ==> r.code == SignatureError(card)
    {
      if Unsigned(card) {
        if policy.requireSignature {
          return Err(AuthRequired);
        }
        return Ok(());
      }
      var verdict := VerifyServerCard(card);
      if verdict.Err? {
        return Err(verdict.code);
      }
      if !verdict.value {
        return Err(AuthRequired);
      }
      r := Ok(());
    }

    method PublishCard(card: Card, actor: Option<string>, upsert: bool, now: int) returns (r: Result<Card>)
      modifies this
      ensures (entries, r) == Publish(policy, old(entries), card, actor, upsert, now)
      ensures r.Ok? <==>
                && (card.aclPublish == {} || (actor.Some? && actor.value in card.aclPublish))
                && Vouched(policy, card)
                && (card.expiresAt.Some? ==> now < card.expiresAt.value)
                && (upsert || card.entityId !in old(entries))
      ensures r == Err(AuthzDenied) <==> card.aclPublish != {} && (actor.None? || actor.value !in card.aclPublish)
      ensures r == Err(AlreadyExists) ==> card.entityId in old(entries) && !upsert
      ensures r.Err? ==> entries == old(entries)
      ensures r.Ok? ==> r.value == card && entries == old(entries)[card.entityId := DirEntry(card, true, None, None)]
    {
      if !Allowed(card.aclPublish, actor) {
        return Err(AuthzDenied);
      }
      var signed := VerifySignature(card);
      if signed.Err? {
        return Err(signed.code);
      }
      if Expired(card, now) {
        return Err(NotFound);
      }
      if card.entityId in entries && !upsert {
        return Err(AlreadyExists);
      }
      entries := entries[card.entityId := DirEntry(card, true, None, None)];
      r := Ok(card);
    }

    method ResolveCard(id: string, actor: Option<string>, requireHealthy: bool, now: int) returns (r: Result<Card>)
      modifies this
      ensures (entries, r) == Resolve(old(entries), id, actor, requireHealthy, now)
      ensures entries == if id in old(entries) && Expired(old(entries)[id].card, now) then old(entries) - {id} else old(entries)
      ensures r.Ok? <==> id in old(entries) && Shown(old(entries)[id], actor, requireHealthy, now)
      ensures r.Ok? ==> r.value == old(entries)[id].card
      ensures id in old(entries) ==>
                var e := old(entries)[id];
                && (r.Ok? <==>
                      && (e.card.expiresAt.Some? ==> now < e.card.expiresAt.value)
                      && (e.card.aclRead == {} || (actor.Some? && actor.value in e.card.aclRead))
                      && (requireHealthy ==> e.healthy))
                && (id !in entries <==> e.card.expiresAt.Some? && e.card.expiresAt.value <= now)
                && (r == Err(AuthzDenied) <==> id in entries && e.card.aclRead != {} && (actor.None? || actor.value !in e.card.aclRead))
    {
      if id !in entries {
        return Err(NotFound);
      }
      var entry := entries[id];
      if Expired(entry.card, now) {
        entries := entries - {id};
        return Err(NotFound);
      }
      if !Allowed(entry.card.aclRead, actor) {
        return Err(AuthzDenied);
      }
      if requireHealthy && !entry.healthy {
        return Err(NotFound);
      }
      r := Ok(entry.card);
    }

    /** The loop over a snapshot of the ids; what resolves is listed, errors are passed over. */
    method ListCards(actor: Option<string>, requireHealthy: bool, now: int) returns (out: map<string, Card>)
      modifies this
      ensures out == Listing(old(entries), actor, requireHealthy, now)
      ensures entries == Unexpired(old(entries), now)
      ensures forall id :: id in entries <==>
                id in old(entries) && (old(entries)[id].card.expiresAt.Some? ==> now < old(entries)[id].card.expiresAt.value)
      ensures forall id :: id in out <==>
                && id in entries && (requireHealthy ==> entries[id].healthy)
                && (entries[id].card.aclRead == {} || (actor.Some? && actor.value in entries[id].card.aclRead))
      ensures forall id | id in out :: entries[id] == old(entries)[id] && out[id] == entries[id].card
    {
      ghost var before := entries;
      var todo := entries.Keys;
      out := map[];
      while todo != {}
        invariant todo <= before.Keys
        invariant forall id :: id in entries <==> id in before && (id in todo || !Expired(before[id].card, now))
        invariant forall id | id in entries :: entries[id] == before[id]
        invariant forall id :: id in out <==> id in before && id !in todo && Shown(before[id], actor, requireHealthy, now)
        invariant forall id | id in out :: out[id] == before[id].card
        decreases todo
      {
        var id :| id in todo;
        var r := ResolveCard(id, actor, requireHealthy, now);
        if r.Ok? {
          out := out[id := r.value];
        }
        todo := todo - {id};
      }
    }

    method HeartbeatCard(id: string, actor: Option<string>, replacement: Option<Card>, now: int) returns (r: Result<Card>)
      modifies this
      ensures (entries, r) == Heartbeat(policy, old(entries), id, actor, replacement, now)
      ensures r.Err? ==> entries == old(entries)
      ensures r.Ok? ==> id in entries && entries - {id} == old(entries) - {id} && r.value == entries[id].card && entries[id].lastHeartbeatAt == Some(now)
      ensures replacement.Some? ==>
                (r.Ok? <==>
                   && replacement.value.entityId == id && Vouched(policy, replacement.value)
                   && (replacement.value.aclPublish == {} || (actor.Some? && actor.value in replacement.value.aclPublish))
                   && (replacement.value.expiresAt.Some? ==> now < replacement.value.expiresAt.value))
      ensures replacement.Some? && r.Ok? ==> r.value == replacement.value && entries[id].healthy
      ensures replacement.None? ==>
                (r.Ok? <==>
                   && id in old(entries)
                   && (old(entries)[id].card.aclPublish == {} || (actor.Some? && actor.value in old(entries)[id].card.aclPublish))
                   && (old(entries)[id].card.signAlg == None || old(entries)[id].card.signAlg == Some("none")))
      ensures replacement.None? && r.Ok? ==>
                var c := old(entries)[id].card;
                && entries[id] == old(entries)[id].(card := r.value, lastHeartbeatAt := Some(now))
                && r.value == c.(issuedAt := Some(now), expiresAt := Some(now + if c.ttlSeconds.Some? then c.ttlSeconds.value else 600))
    {
      if replacement.Some? {
        if replacement.value.entityId != id {
          return Err(InvalidArgument);
        }
        r := PublishCard(replacement.value, actor, true, now);
        if r.Err? {
          return;
        }
        entries := entries[id := entries[id].(lastHeartbeatAt := Some(now))];
        return;
      }
      if id !in entries {
        return Err(NotFound);
      }
      var card := entries[id].card;
      if !Allowed(card.aclPublish, actor) {
        return Err(AuthzDenied);
      }
      if !Unsigned(card) {
        return Err(InvalidArgument);
      }
      var updated := Refreshed(card, now);
      entries := entries[id := entries[id].(card := updated, lastHeartbeatAt := Some(now))];
      r := Ok(updated);
    }

    method ReadHealth(id: string) returns (r: Result<HealthReport>)
      ensures r.Ok? <==> id in entries
      ensures r.Ok? ==> entries[id] == DirEntry(entries[id].card, r.value.healthy, r.value.reason, r.value.lastHeartbeatAt)
      ensures r == Health(entries, id)
    {
      if id !in entries {
        return Err(NotFound);
      }
      var entry := entries[id];
      r := Ok(HealthReport(entry.healthy, entry.healthReason, entry.lastHeartbeatAt));
    }

    method ChangeHealth(id: string, healthy: bool, reason: Option<string>) returns (r: Result<()>)
      modifies this
      ensures (entries, r) == SetHealth(old(entries), id, healthy, reason)
      ensures r == if id in old(entries) then Ok(()) else Err(NotFound)
      ensures r.Err? ==> entries == old(entries)
      ensures r.Ok? ==>
                && entries == old(entries)[id := entries[id]]
                && entries[id].healthy == healthy && entries[id].healthReason == reason
                && entries[id].card == old(entries)[id].card && entries[id].lastHeartbeatAt == old(entries)[id].lastHeartbeatAt
    {
      if id !in entries {
        return Err(NotFound);
      }
      entries := entries[id := entries[id].(healthy := healthy, healthReason := reason)];
      r := Ok(());
    }
  }
}
