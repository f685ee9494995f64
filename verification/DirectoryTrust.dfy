/** Nothing the directory answers has escaped the signature check. */
module DirectoryTrust {
  import opened Outcomes
  import opened Directory
  import opened DirectoryRefinement

  /** Every entry is a vouched card under its own entity id. */
  ghost predicate AllVouched(p: Policy, es: Entries)
  {
    forall id | id in es :: es[id].card.entityId == id && Vouched(p, es[id].card)
  }

  /** The card is in force: not expired, and unsigned where that is allowed, or signed with a trusted key that its signature holds under. */
  ghost predicate InForce(p: Policy, c: Card, now: int)
  {
    && (c.expiresAt.Some? ==> now < c.expiresAt.value)
    && if c.signAlg == None || c.signAlg == Some("none") then !p.requireSignature
       else && c.signAlg == Some("ed25519")
            && c.keyRef.Some? && c.keyRef.value != "" && c.signature.Some? && c.signature.value != ""
            && c.keyRef.value in p.publicKeys && p.verify(c, p.publicKeys[c.keyRef.value])
  }

  /** The cards an answer shows. */
  function CardsIn(v: View): set<Card>
  {
    match v
    case Carded(Ok(card)) => {card}
    case Listed(cards) => cards.Values
    case _ => {}
  }

  function RunTimed(p: Policy, es: Entries, calls: seq<Timed>): Entries
    decreases |calls|
  {
    if calls == [] then es else RunTimed(p, LazyStep(p, es, calls[0].op, calls[0].now).0, calls[1..])
  }

  lemma {:induction false} RunKeepsVouched(p: Policy, es: Entries, calls: seq<Timed>)
    requires AllVouched(p, es)
    ensures AllVouched(p, RunTimed(p, es, calls))
    decreases |calls|
  {
    if calls != [] {
      RunKeepsVouched(p, LazyStep(p, es, calls[0].op, calls[0].now).0, calls[1..]);
    }
  }

  /**
   After any run of a new directory, renewals of expired entries included, whatever a call answers is
   a card that passed the signature check as it is shown, and has not expired. Where signatures are
   demanded, no heartbeat extends a stored card: it takes a newly signed replacement.
   */
  lemma OnlyVouchedCardsAreShown(p: Policy, calls: seq<Timed>, op: Op, now: int)
    ensures var es := RunTimed(p, map[], calls);
            var seen := LazyStep(p, es, op, now).1;
            && (forall c | c in CardsIn(seen) :: InForce(p, c, now))
            && (seen.Listed? ==> forall id | id in seen.cards :: seen.cards[id].entityId == id)
            && (p.requireSignature && op.HeartbeatOp? && op.replacement.None? ==>
                  LazyStep(p, es, op, now).0 == es && seen.card.Err?)
  {
    RunKeepsVouched(p, map[], calls);
  }
}
