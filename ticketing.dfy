/** The sale endpoints: deployment, the paid purchase, and the owner's two
    ways of handing out tickets. Each endpoint either aborts, leaving storage
    as it was, or completes with the new state its contract names. */
module Endpoints {
  import opened Types
  import opened Mappers
  import opened Common
  import opened Catalogue
  import opened Storage
  import opened Validation
  import opened Bookkeeping
  import opened Settings

  /** Deploys the contract with the platform's cut; the deployer is the
      owner, and nothing may be attached. */
  method Deploy(env: Env, fees: nat) returns (r: Result<Ticketing>)
    ensures r.Failure? <==> env.Paid() || fees >= ROYALTIES_MAX
    ensures r.Failure? ==> r.error == if env.Paid() then NotPayable else FeeTooHigh
    ensures r.Success? ==>
      && fresh(r.value) && r.value.Valid() && r.value.fees == fees
      && r.value.inventory == EmptyInventory && r.value.sales == Sales(map[], map[], map[])
      && r.value.collections == Collections(map[], [], map[])
      && r.value.ledger == Ledger([], map[]) && r.value.host == Host(map[], [], [], [])
  {
    var t := new Ticketing();
    var outcome := SetCutFees(t, env.(owner := env.caller), fees);
    if outcome == Pass {
      r := Success(t);
    } else {
      r := Failure(outcome.error);
    }
  }

  // ------------------------------------------------------------ buy

  /** An admitted purchase: the records it is checked against and its reconciled payment. */
  datatype Sale = Sale(lot: Lot, settlement: Settlement)

  /** The purchase's checks in the endpoint's order: the pre-sale check with
      the caller as buyer, then the payment (direct, or through the swap
      aggregator), then the identity gate, then the recipient test of the
      mint. The first failure aborts the purchase. */
  function AdmitBuy(
    inv: Inventory, sales: Sales, env: Env, eventId: Id, ticketTypeId: Id, stageId: Id, quantity: nat,
    signature: Option<Bytes>, data: Option<Bytes>, swaps: Option<seq<Bytes>>, limits: Option<seq<Bytes>>): (r: Result<Sale>)
    ensures var check := CommonBuyCheck(inv, sales, eventId, ticketTypeId, stageId, quantity, env.caller, env.now);
      && (check.Failure? ==> r == Failure(check.error))
      && (check.Success? ==>
            var lot := check.value;
            var paid := CommonPaymentCheck(lot.stage, quantity, env.payment, swaps, limits, env.aggregate);
            && (paid.Failure? ==> r == Failure(paid.error))
            && (paid.Success? ==>
                  var kyc := CheckKyc(lot.event, lot.ticketType, lot.stage, env.caller, quantity, signature, data, env.signer, env.verify);
                  && (kyc.Fail? ==> r == Failure(kyc.error))
                  && (kyc == Pass && env.caller in env.smartContracts ==> r == Failure(OnlyUserAccounts))
                  && (kyc == Pass && env.caller !in env.smartContracts ==> r == Success(Sale(lot, paid.value)))))
    ensures r.Success? ==>
      && CommonBuyCheck(inv, sales, eventId, ticketTypeId, stageId, quantity, env.caller, env.now) == Success(r.value.lot)
      && CommonPaymentCheck(r.value.lot.stage, quantity, env.payment, swaps, limits, env.aggregate) == Success(r.value.settlement)
  {
    match CommonBuyCheck(inv, sales, eventId, ticketTypeId, stageId, quantity, env.caller, env.now)
    case Failure(e) => Failure(e)
    case Success(lot) =>
      match CommonPaymentCheck(lot.stage, quantity, env.payment, swaps, limits, env.aggregate)
      case Failure(e) => Failure(e)
      case Success(settlement) =>
        var kyc := CheckKyc(lot.event, lot.ticketType, lot.stage, env.caller, quantity, signature, data, env.signer, env.verify);
        if kyc.Fail? then Failure(kyc.error)
        else
          match SendNftGuard(env.caller, env.smartContracts, Some(lot.stage))
          case Failure(e) => Failure(e)
          case Success(_) => Success(Sale(lot, settlement))
  }

  /** What an admitted purchase guarantees: a positive quantity within the
      buyer's limits and the capacities, a settled amount of exactly the
      quantity times the first matching price, no more than was paid in, a
      designated signer's signature over this very purchase when the event
      asks for one, and a user account as the recipient. */
  lemma AdmittedBuy(
    inv: Inventory, sales: Sales, env: Env, eventId: Id, ticketTypeId: Id, stageId: Id, quantity: nat,
    signature: Option<Bytes>, data: Option<Bytes>, swaps: Option<seq<Bytes>>, limits: Option<seq<Bytes>>)
    requires AdmitBuy(inv, sales, env, eventId, ticketTypeId, stageId, quantity, signature, data, swaps, limits).Success?
    ensures var sale := AdmitBuy(inv, sales, env, eventId, ticketTypeId, stageId, quantity, signature, data, swaps, limits).value;
      var lot := sale.lot;
      var counts := sales.CountsOf(env.caller, eventId, ticketTypeId, stageId);
      && quantity > 0 && lot.stage.active && InWindow(lot.stage, env.now)
      && WithinCap(counts.stage, quantity, lot.stage.maxPerUser)
      && WithinCap(counts.ticketType, quantity, lot.ticketType.maxPerUser)
      && WithinCap(counts.event, quantity, lot.event.maxPerUser)
      && Fits(lot.ticketType.mintCount, quantity, lot.ticketType.mintLimit)
      && Fits(lot.stage.mintCount, quantity, lot.stage.mintLimit)
      && Fits(lot.event.mintCount, quantity, lot.event.maxCapacity)
      && sale.settlement.payment.amount == quantity * sale.settlement.pricePerNft
      && (!(swaps.Some? && limits.Some?) ==> sale.settlement.payment == env.payment && sale.settlement.refund.None?)
      && (lot.event.hasKyc ==>
            Attested(Payload(env.caller, lot.event, lot.ticketType, lot.stage, quantity, HAS_KYC_TAG), signature, data, env.signer, env.verify))
      && (!lot.event.hasKyc && lot.event.botProtection ==>
            Attested(Payload(env.caller, lot.event, lot.ticketType, lot.stage, quantity, BOT_PROTECTION_TAG), signature, data, env.signer, env.verify))
      && env.caller !in env.smartContracts
  {
    AdmittedPurchase(inv, sales, eventId, ticketTypeId, stageId, quantity, env.caller, env.now);
    var lot := CommonBuyCheck(inv, sales, eventId, ticketTypeId, stageId, quantity, env.caller, env.now).value;
    var paid := CommonPaymentCheck(lot.stage, quantity, env.payment, swaps, limits, env.aggregate);
    if !(swaps.Some? && limits.Some?) {
      var i := Position(lot.stage.prices, Name(env.payment.token), env.payment.nonce);
      assert i.Some?;
      assert IsFirstMatch(lot.stage.prices, Name(env.payment.token), env.payment.nonce, i.value);
    }
  }

  /** The refund of a swap's surplus, if any, to the buyer. */
  function Refunds(to: Address, refund: Option<Payment>): (r: seq<Transfer>)
    ensures |r| == if refund.Some? then 1 else 0
    ensures refund.Some? ==> r[0] == Transfer(to, [refund.value])
  {
    if refund.Some? then [Transfer(to, [refund.value])] else []
  }

  /** Carries out an admitted purchase by `env.caller`: the swap surplus goes
      back to the buyer, the tickets are minted to the buyer, the platform's
      cut goes to the owner and the payment is booked. */
  method Fulfil(t: Ticketing, env: Env, sale: Sale, quantity: nat) returns (payments: seq<EsdtPayment>)
    requires t.Valid()
    requires (sale.lot.event.id, sale.lot.ticketType.id) in t.inventory.ticketTypeById
    requires sale.lot.stage.ticketTypeId == sale.lot.ticketType.id
    modifies t`inventory, t`sales, t`collections, t`ledger, t`host
    ensures t.Valid()
    ensures var lot := sale.lot;
      var token := lot.event.token;
      && payments == NftPayments(token, old(t.host.Created(token)), quantity)
      && t.inventory == Restocked(old(t.inventory), lot.event, lot.ticketType, lot.stage, quantity)
      && t.sales == old(t.sales).Sold(env.caller, lot.event.id, lot.ticketType.id, lot.stage.id, quantity)
      && t.collections == old(t.collections).Advanced(token, quantity)
      && t.host == Minted(old(t.host).Sent(Refunds(env.caller, sale.settlement.refund)), lot.event, lot.ticketType,
                          old(t.collections.NextNonce(token)), quantity, env.caller)
                     .Sent(PlatformTransfers(sale.settlement.payment, t.fees, env.owner))
      && t.ledger == Credited(old(t.ledger), sale.settlement.payment, t.fees)
  {
    hide Inventory.Ok;  // Mint keeps the catalogue invariant; its body is not needed here
    t.host := t.host.Sent(Refunds(env.caller, sale.settlement.refund));
    var soldOut;
    payments, soldOut := Mint(t, sale.lot.event, sale.lot.ticketType, sale.lot.stage, env.caller, quantity);
    CreditedAccrues(t.ledger, sale.settlement.payment, t.fees, sale.settlement.payment.token);
    DistributeIncome(t, sale.settlement.payment, env.owner);
  }

  /** Buys `quantity` tickets of a stage. A purchase that fails a check
      changes nothing; an admitted one is carried out by `Fulfil`, and the
      minted tickets are returned. */
  method Buy(
    t: Ticketing, env: Env, eventId: Id, ticketTypeId: Id, stageId: Id, quantity: nat,
    signature: Option<Bytes>, data: Option<Bytes>, swaps: Option<seq<Bytes>>, limits: Option<seq<Bytes>>)
    returns (r: Result<seq<EsdtPayment>>)
    requires t.Valid()
    modifies t`inventory, t`sales, t`collections, t`ledger, t`host
    ensures t.Valid()
    ensures var admitted := AdmitBuy(old(t.inventory), old(t.sales), env, eventId, ticketTypeId, stageId, quantity, signature, data, swaps, limits);
      && (admitted.Failure? ==> r == Failure(admitted.error) && unchanged(t))
      && (admitted.Success? ==>
            var lot := admitted.value.lot;
            var settlement := admitted.value.settlement;
            var token := lot.event.token;
            && r == Success(NftPayments(token, old(t.host.Created(token)), quantity))
            && t.inventory == Restocked(old(t.inventory), lot.event, lot.ticketType, lot.stage, quantity)
            && t.sales == old(t.sales).Sold(env.caller, eventId, ticketTypeId, stageId, quantity)
            && t.collections == old(t.collections).Advanced(token, quantity)
            && t.host == Minted(old(t.host).Sent(Refunds(env.caller, settlement.refund)), lot.event, lot.ticketType,
                                old(t.collections.NextNonce(token)), quantity, env.caller)
                           .Sent(PlatformTransfers(settlement.payment, t.fees, env.owner))
            && t.ledger == Credited(old(t.ledger), settlement.payment, t.fees))
  {
    var admitted := AdmitBuy(t.inventory, t.sales, env, eventId, ticketTypeId, stageId, quantity, signature, data, swaps, limits);
    if admitted.Failure? {
      return Failure(admitted.error);
    }
    AdmittedPurchase(t.inventory, t.sales, eventId, ticketTypeId, stageId, quantity, env.caller, env.now);
    var payments := Fulfil(t, env, admitted.value, quantity);
    r := Success(payments);
  }

  // ------------------------------------------------------------ giveaways

  /** The free giveaway: nothing attached, owner only, for an existing
      event and ticket type, to each (recipient, quantity) in turn after the
      stage-less capacity check. The mint it calls is given no stage, and the mint aborts on a
      missing stage after refusing smart-contract recipients, so the first
      recipient always aborts the call: only an empty list completes, with no
      tickets and nothing changed. */
  method Giveaway(t: Ticketing, env: Env, eventId: Id, ticketTypeId: Id, users: seq<(Address, nat)>)
    returns (r: Result<seq<EsdtPayment>>)
    ensures env.Paid() ==> r == Failure(NotPayable)
    ensures !env.Paid() && env.caller != env.owner ==> r == Failure(OnlyOwner)
    ensures !env.Paid() && env.caller == env.owner && eventId !in t.inventory.eventById ==> r == Failure(EventInvalid)
    ensures !env.Paid() && env.caller == env.owner && eventId in t.inventory.eventById && (eventId, ticketTypeId) !in t.inventory.ticketTypeById ==>
      r == Failure(TicketTypeInvalid)
    ensures r.Success? <==>
      !env.Paid() && env.caller == env.owner && eventId in t.inventory.eventById && (eventId, ticketTypeId) in t.inventory.ticketTypeById && users == []
    ensures r.Success? ==> r.value == []
    ensures !env.Paid() && env.caller == env.owner && eventId in t.inventory.eventById && (eventId, ticketTypeId) in t.inventory.ticketTypeById && users != [] ==>
      var soldOut := CheckTypeSoldOut(t.inventory.eventById[eventId], t.inventory.ticketTypeById[(eventId, ticketTypeId)], users[0].1);
      r == Failure(if soldOut.Fail? then soldOut.error else if users[0].0 in env.smartContracts then OnlyUserAccounts else StageMissing)
  {
    if env.Paid() {
      return Failure(NotPayable);
    }
    if env.caller != env.owner {
      return Failure(OnlyOwner);
    }
    var event := DoesEventExist(t.inventory, eventId);
    if event.Failure? {
      return Failure(event.error);
    }
    var ticketType := DoesTicketTypeExist(t.inventory, eventId, ticketTypeId);
    if ticketType.Failure? {
      return Failure(ticketType.error);
    }
    var all: seq<EsdtPayment> := [];
    for i := 0 to |users|
      invariant i == 0 && all == []
    {
      var (to, quantity) := users[i];
      var soldOut := CheckTypeSoldOut(event.value, ticketType.value, quantity);
      if soldOut.Fail? {
        return Failure(soldOut.error);
      }
      match SendNftGuard(to, env.smartContracts, None)
      case Failure(e) => return Failure(e);
      case Success(_) => assert false;
    }
    r := Success(all);
  }

  /** The owner's paid issue: nothing attached and owner only, then the
      checks of a purchase with `to` as buyer and no payment, then the
      identity gate, then the recipient test of the mint. The first failure
      aborts. */
  function AdmitIssue(
    inv: Inventory, sales: Sales, env: Env, eventId: Id, ticketTypeId: Id, stageId: Id, to: Address, quantity: nat,
    signature: Option<Bytes>, data: Option<Bytes>): (r: Result<Lot>)
    ensures env.Paid() ==> r == Failure(NotPayable)
    ensures !env.Paid() && env.caller != env.owner ==> r == Failure(OnlyOwner)
    ensures !env.Paid() && env.caller == env.owner ==>
      var check := CommonBuyCheck(inv, sales, eventId, ticketTypeId, stageId, quantity, to, env.now);
      && (check.Failure? ==> r == Failure(check.error))
      && (check.Success? ==>
            var lot := check.value;
            var kyc := CheckKyc(lot.event, lot.ticketType, lot.stage, to, quantity, signature, data, env.signer, env.verify);
            && (kyc.Fail? ==> r == Failure(kyc.error))
            && (kyc == Pass && to in env.smartContracts ==> r == Failure(OnlyUserAccounts))
            && (kyc == Pass && to !in env.smartContracts ==> r == Success(lot)))
    ensures r.Success? ==> CommonBuyCheck(inv, sales, eventId, ticketTypeId, stageId, quantity, to, env.now) == Success(r.value)
  {
    if env.Paid() then Failure(NotPayable)
    else if env.caller != env.owner then Failure(OnlyOwner)
    else
      match CommonBuyCheck(inv, sales, eventId, ticketTypeId, stageId, quantity, to, env.now)
      case Failure(e) => Failure(e)
      case Success(lot) =>
        var kyc := CheckKyc(lot.event, lot.ticketType, lot.stage, to, quantity, signature, data, env.signer, env.verify);
        if kyc.Fail? then Failure(kyc.error)
        else
          match SendNftGuard(to, env.smartContracts, Some(lot.stage))
          case Failure(e) => Failure(e)
          case Success(_) => Success(lot)
  }

  /** Issues `quantity` tickets of a stage to `to` on the owner's say-so: the
      same checks and bookkeeping as a purchase by `to`, with no payment. */
  method GiveawayAdmin(
    t: Ticketing, env: Env, eventId: Id, ticketTypeId: Id, stageId: Id, to: Address, quantity: nat,
    signature: Option<Bytes>, data: Option<Bytes>)
    returns (r: Result<seq<EsdtPayment>>)
    requires t.Valid()
    modifies t`inventory, t`sales, t`collections, t`host
    ensures t.Valid()
    ensures var admitted := AdmitIssue(old(t.inventory), old(t.sales), env, eventId, ticketTypeId, stageId, to, quantity, signature, data);
      && (admitted.Failure? ==> r == Failure(admitted.error) && unchanged(t))
      && (admitted.Success? ==>
            var lot := admitted.value;
            var token := lot.event.token;
            && r == Success(NftPayments(token, old(t.host.Created(token)), quantity))
            && t.inventory == Restocked(old(t.inventory), lot.event, lot.ticketType, lot.stage, quantity)
            && t.sales == old(t.sales).Sold(to, eventId, ticketTypeId, stageId, quantity)
            && t.collections == old(t.collections).Advanced(token, quantity)
            && t.host == Minted(old(t.host), lot.event, lot.ticketType, old(t.collections.NextNonce(token)), quantity, to))
  {
    var admitted := AdmitIssue(t.inventory, t.sales, env, eventId, ticketTypeId, stageId, to, quantity, signature, data);
    if admitted.Failure? {
      return Failure(admitted.error);
    }
    AdmittedPurchase(t.inventory, t.sales, eventId, ticketTypeId, stageId, quantity, to, env.now);
    var lot := admitted.value;
    var payments, soldOut := Mint(t, lot.event, lot.ticketType, lot.stage, to, quantity);
    r := Success(payments);
  }
}
