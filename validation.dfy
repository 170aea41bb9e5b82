/** The storage reads that open the endpoints: record lookups that abort on an
    empty slot, the whitelist test, and the full pre-sale check of a stage
    purchase. */
module Validation {
  import opened Types
  import opened Mappers
  import opened Common
  import opened Catalogue
  import opened Storage

  // ------------------------------------------------------------ record lookups

  /** The management endpoints' event test: its record slot is not empty. */
  function IsEventValid(inv: Inventory, eventId: Id): (r: Outcome)
    ensures r == Pass <==> eventId in inv.eventById
    ensures r != Pass ==> r == Fail(EventIdInvalid)
  {
    if eventId in inv.eventById then Pass else Fail(EventIdInvalid)
  }

  /** The management endpoints' ticket-type test: its record slot is not empty. */
  function IsTicketTypeValid(inv: Inventory, eventId: Id, ticketTypeId: Id): (r: Outcome)
    ensures r == Pass <==> (eventId, ticketTypeId) in inv.ticketTypeById
    ensures r != Pass ==> r == Fail(TicketTypeIdInvalid)
  {
    if (eventId, ticketTypeId) in inv.ticketTypeById then Pass else Fail(TicketTypeIdInvalid)
  }

  /** The stage lookup: the stage map holds the key, and its record is read. */
  function IsTicketStageValid(inv: Inventory, eventId: Id, ticketTypeId: Id, stageId: Id): (r: Result<TicketStage>)
    ensures r.Success? <==> (eventId, ticketTypeId, stageId) in inv.stageById
    ensures r.Success? ==> r.value == inv.stageById[(eventId, ticketTypeId, stageId)]
    ensures r.Failure? ==> r.error == TicketStageIdInvalid
    ensures inv.Ok() && r.Success? ==> r.value.id == stageId && r.value.ticketTypeId == ticketTypeId
  {
    if (eventId, ticketTypeId, stageId) in inv.stageById then Success(inv.stageById[(eventId, ticketTypeId, stageId)])
    else Failure(TicketStageIdInvalid)
  }

  /** The event read of the sale endpoints and the views. */
  function DoesEventExist(inv: Inventory, eventId: Id): (r: Result<Event>)
    ensures r.Success? <==> eventId in inv.eventById
    ensures r.Success? ==> r.value == inv.eventById[eventId]
    ensures r.Failure? ==> r.error == EventInvalid
    ensures inv.Ok() && r.Success? ==> r.value.id == eventId
  {
    if eventId in inv.eventById then Success(inv.eventById[eventId]) else Failure(EventInvalid)
  }

  /** The ticket-type read of the sale endpoints. */
  function DoesTicketTypeExist(inv: Inventory, eventId: Id, ticketTypeId: Id): (r: Result<TicketType>)
    ensures r.Success? <==> (eventId, ticketTypeId) in inv.ticketTypeById
    ensures r.Success? ==> r.value == inv.ticketTypeById[(eventId, ticketTypeId)]
    ensures r.Failure? ==> r.error == TicketTypeInvalid
    ensures inv.Ok() && r.Success? ==> r.value.id == ticketTypeId && ticketTypeId in inv.TypesOf(eventId)
  {
    if (eventId, ticketTypeId) in inv.ticketTypeById then Success(inv.ticketTypeById[(eventId, ticketTypeId)])
    else Failure(TicketTypeInvalid)
  }

  /** The address is on the stage's whitelist. */
  function IsWhitelisted(inv: Inventory, eventId: Id, ticketTypeId: Id, stageId: Id, address: Address): (r: bool)
    ensures r <==> exists i :: 0 <= i < |inv.WhitelistOf(eventId, ticketTypeId, stageId)| && inv.WhitelistOf(eventId, ticketTypeId, stageId)[i] == address
  {
    address in inv.WhitelistOf(eventId, ticketTypeId, stageId)
  }

  // ------------------------------------------------------------ the pre-sale check

  /** The records a purchase is checked against. */
  datatype Lot = Lot(event: Event, ticketType: TicketType, stage: TicketStage)

  /** The event, ticket-type and stage records all exist. */
  predicate Stored(inv: Inventory, eventId: Id, ticketTypeId: Id, stageId: Id)
  {
    eventId in inv.eventById && (eventId, ticketTypeId) in inv.ticketTypeById && (eventId, ticketTypeId, stageId) in inv.stageById
  }

  function LotOf(inv: Inventory, eventId: Id, ticketTypeId: Id, stageId: Id): Lot
    requires Stored(inv, eventId, ticketTypeId, stageId)
  {
    Lot(inv.eventById[eventId], inv.ticketTypeById[(eventId, ticketTypeId)], inv.stageById[(eventId, ticketTypeId, stageId)])
  }

  /** The stage is selling to `buyer` at `now`: active, within its window, and
      the buyer is whitelisted when the stage has a whitelist. */
  predicate OnSale(inv: Inventory, eventId: Id, ticketTypeId: Id, stageId: Id, stage: TicketStage, buyer: Address, now: nat)
  {
    stage.active && InWindow(stage, now) && (stage.hasWhitelist ==> IsWhitelisted(inv, eventId, ticketTypeId, stageId, buyer))
  }

  /** Every test a stage purchase of `quantity` by `buyer` at time `now` must
      pass, in order: the three records exist; the stage is active, has
      started, has not ended and (with a whitelist) lists the buyer; the
      quantity is positive; the buyer's limits; the capacities. The first
      failing test is the error. */
  function CommonBuyCheck(inv: Inventory, sales: Sales, eventId: Id, ticketTypeId: Id, stageId: Id, quantity: nat, buyer: Address, now: nat)
    : (r: Result<Lot>)
    ensures eventId !in inv.eventById ==> r == Failure(EventInvalid)
    ensures eventId in inv.eventById && (eventId, ticketTypeId) !in inv.ticketTypeById ==> r == Failure(TicketTypeInvalid)
    ensures eventId in inv.eventById && (eventId, ticketTypeId) in inv.ticketTypeById && (eventId, ticketTypeId, stageId) !in inv.stageById ==>
      r == Failure(TicketStageIdInvalid)
    ensures Stored(inv, eventId, ticketTypeId, stageId) ==>
      var lot := LotOf(inv, eventId, ticketTypeId, stageId);
      var counts := sales.CountsOf(buyer, eventId, ticketTypeId, stageId);
      && (!lot.stage.active ==> r == Failure(SaleNotActive))
      && (lot.stage.active && now < lot.stage.startTime ==> r == Failure(StageNotStarted))
      && (lot.stage.active && lot.stage.startTime <= now && !InWindow(lot.stage, now) ==> r == Failure(StageEnded))
      && (lot.stage.active && InWindow(lot.stage, now) && !OnSale(inv, eventId, ticketTypeId, stageId, lot.stage, buyer, now) ==>
            r == Failure(NotWhitelisted))
      && (OnSale(inv, eventId, ticketTypeId, stageId, lot.stage, buyer, now) && quantity == 0 ==> r == Failure(ZeroQuantity))
      && (OnSale(inv, eventId, ticketTypeId, stageId, lot.stage, buyer, now) && quantity > 0 ==>
            var limits := CheckBuysLimits(counts, quantity, lot.event, lot.ticketType, lot.stage);
            && (limits.Fail? ==> r == Failure(limits.error))
            && (limits == Pass ==>
                  var soldOut := CheckSoldOut(lot.event, lot.ticketType, lot.stage, quantity);
                  && (soldOut.Fail? ==> r == Failure(soldOut.error))
                  && (soldOut == Pass ==> r == Success(lot))))
    ensures r.Success? ==> Stored(inv, eventId, ticketTypeId, stageId) && r.value == LotOf(inv, eventId, ticketTypeId, stageId)
  {
    match DoesEventExist(inv, eventId)
    case Failure(e) => Failure(e)
    case Success(event) =>
      match DoesTicketTypeExist(inv, eventId, ticketTypeId)
      case Failure(e) => Failure(e)
      case Success(ticketType) =>
        match IsTicketStageValid(inv, eventId, ticketTypeId, stageId)
        case Failure(e) => Failure(e)
        case Success(stage) =>
          if !stage.active then Failure(SaleNotActive)
          else if now < stage.startTime then Failure(StageNotStarted)
          else if !(stage.endTime == 0 || now <= stage.endTime) then Failure(StageEnded)
          else if stage.hasWhitelist && !IsWhitelisted(inv, eventId, ticketTypeId, stageId, buyer) then Failure(NotWhitelisted)
          else if quantity == 0 then Failure(ZeroQuantity)
          else
            var limits := CheckBuysLimits(sales.CountsOf(buyer, eventId, ticketTypeId, stageId), quantity, event, ticketType, stage);
            if limits.Fail? then Failure(limits.error)
            else
              var soldOut := CheckSoldOut(event, ticketType, stage, quantity);
              if soldOut.Fail? then Failure(soldOut.error)
              else Success(Lot(event, ticketType, stage))
  }

  /** An admitted purchase stays within every per-user limit and every
      capacity, on a live stage the buyer may buy from, for a positive
      quantity; and in a consistent catalogue the records carry the requested ids. */
  lemma AdmittedPurchase(inv: Inventory, sales: Sales, eventId: Id, ticketTypeId: Id, stageId: Id, quantity: nat, buyer: Address, now: nat)
    requires CommonBuyCheck(inv, sales, eventId, ticketTypeId, stageId, quantity, buyer, now).Success?
    ensures var lot := CommonBuyCheck(inv, sales, eventId, ticketTypeId, stageId, quantity, buyer, now).value;
      var counts := sales.CountsOf(buyer, eventId, ticketTypeId, stageId);
      && quantity > 0
      && lot.stage.active && InWindow(lot.stage, now)
      && (lot.stage.hasWhitelist ==> buyer in inv.WhitelistOf(eventId, ticketTypeId, stageId))
      && WithinCap(counts.stage, quantity, lot.stage.maxPerUser)
      && WithinCap(counts.ticketType, quantity, lot.ticketType.maxPerUser)
      && WithinCap(counts.event, quantity, lot.event.maxPerUser)
      && Fits(lot.ticketType.mintCount, quantity, lot.ticketType.mintLimit)
      && Fits(lot.stage.mintCount, quantity, lot.stage.mintLimit)
      && Fits(lot.event.mintCount, quantity, lot.event.maxCapacity)
      && (inv.Ok() ==> lot.event.id == eventId && lot.ticketType.id == ticketTypeId && lot.stage.id == stageId
                        && lot.stage.ticketTypeId == ticketTypeId)
  {
    var lot := CommonBuyCheck(inv, sales, eventId, ticketTypeId, stageId, quantity, buyer, now).value;
    assert lot == LotOf(inv, eventId, ticketTypeId, stageId);
  }
}
