/** The fee setter and the callback of a collection issuance. */
module Settings {
  import opened Types
  import opened Mappers
  import opened Common
  import opened Catalogue
  import opened Storage

  /** Sets the platform's cut: nothing attached, owner only, and strictly
      below 100%. */
  method SetCutFees(t: Ticketing, env: Env, fees: nat) returns (r: Outcome)
    requires t.Valid()
    modifies t`fees
    ensures t.Valid()
    ensures env.Paid() ==> r == Fail(NotPayable)
    ensures !env.Paid() && env.caller != env.owner ==> r == Fail(OnlyOwner)
    ensures !env.Paid() && env.caller == env.owner && fees >= ROYALTIES_MAX ==> r == Fail(FeeTooHigh)
    ensures r == Pass <==> !env.Paid() && env.caller == env.owner && fees < ROYALTIES_MAX
    ensures t.fees == if r == Pass then fees else old(t.fees)
  {
    if env.Paid() {
      return Fail(NotPayable);
    }
    if env.caller != env.owner {
      return Fail(OnlyOwner);
    }
    if fees >= ROYALTIES_MAX {
      return Fail(FeeTooHigh);
    }
    t.fees := fees;
    r := Pass;
  }

  /** What the host reports back about a collection issuance. */
  datatype IssueResult = Issued(token: Bytes) | IssueFailed

  /** The record of an event whose collection was just issued: no transfer
      role, nothing minted, and the platform's fee at that moment. */
  function NewEvent(token: Bytes, eventId: Id, args: EventArgs, fees: nat): (r: Event)
    ensures r.id == eventId && r.token == token && r.mintCount == 0 && r.fees == fees && !r.transferRole
    ensures r.maxCapacity == args.maxCapacity && r.maxPerUser == args.maxPerUser
    ensures r.hasKyc == args.hasKyc && r.refundPolicy == args.refundPolicy
    ensures r.appendNumber == args.appendNumber && r.botProtection == args.botProtection
  {
    Event(token, false, eventId, args.maxCapacity, args.maxPerUser, fees, 0,
          args.hasKyc, args.refundPolicy, args.appendNumber, args.botProtection)
  }

  /** The EGLD handed back to the requester of a failed issuance, if any. */
  function EgldRefund(to: Address, amount: nat): (r: seq<Transfer>)
    ensures amount == 0 <==> r == []
    ensures amount > 0 ==> r == [Transfer(to, [Payment(Egld, 0, amount)])]
  {
    if amount > 0 then [Transfer(to, [Payment(Egld, 0, amount)])] else []
  }

  /** The issuance callback. On success with an ESDT collection: the
      collection is registered (numbering from 1 unless it already counts),
      the event's token mapper takes it, and the event's record is stored;
      a mapper that already holds a collection refuses it and the callback
      aborts. A reported token that reads as the native currency changes
      nothing. On failure: the event id leaves the event set, but its token
      mapper stays pending, so the id cannot be issued again; the EGLD that
      came back goes to the original caller. */
  method IssueCallback(t: Ticketing, eventId: Id, args: EventArgs, caller: Address, result: IssueResult, returned: nat)
    returns (r: Outcome)
    requires t.Valid()
    modifies t`inventory, t`collections, t`host
    ensures t.Valid()
    ensures r == Fail(TokenIdSet) <==>
      result.Issued? && Parse(result.token).Esdt? &&
      eventId in old(t.collections.tokenOf) && old(t.collections.tokenOf[eventId]).TokenSet?
    ensures r.Fail? ==> r == Fail(TokenIdSet)
    ensures r.Fail? || (result.Issued? && Parse(result.token).Egld?) ==>
      t.inventory == old(t.inventory) && t.collections == old(t.collections) && t.host == old(t.host)
    ensures r == Pass && result.Issued? && Parse(result.token).Esdt? ==>
      && t.collections == old(t.collections).Registered(eventId, result.token)
      && t.inventory == old(t.inventory).WithEvent(NewEvent(result.token, eventId, args, t.fees))
      && t.host == old(t.host)
    ensures result.IssueFailed? ==>
      && r == Pass
      && t.inventory == old(t.inventory).WithoutEventId(eventId)
      && eventId !in t.inventory.events
      && t.collections == old(t.collections)
      && t.host == old(t.host).Sent(EgldRefund(caller, returned))
  {
    match result
    case Issued(token) =>
      if Parse(token).Esdt? {
        if eventId in t.collections.tokenOf && t.collections.tokenOf[eventId].TokenSet? {
          return Fail(TokenIdSet);
        }
        RegisteredNonces(t.collections, eventId, token);
        t.collections := t.collections.Registered(eventId, token);
        var event := NewEvent(token, eventId, args, t.fees);
        WithEventOk(t.inventory, event);
        t.inventory := t.inventory.WithEvent(event);
      }
      r := Pass;
    case IssueFailed =>
      WithoutEventIdOk(t.inventory, eventId);
      t.inventory := t.inventory.WithoutEventId(eventId);
      if returned > 0 {
        t.host := t.host.Sent([Transfer(caller, [Payment(Egld, 0, returned)])]);
      }
      r := Pass;
  }
}
