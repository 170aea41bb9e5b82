/** The owner's catalogue endpoints: creating an event (which requests its
    NFT collection), creating, editing and removing ticket types and stages,
    editing an event, and maintaining a stage's whitelist. Every endpoint is
    owner only, every one but the event creation refuses an attached
    payment, and each runs all of its checks before its first write, so a
    failing call leaves storage as it was. */
module Manage {
  import opened Types
  import opened Mappers
  import opened Catalogue
  import opened Storage
  import opened Validation

  /** Requests an event's collection. The attached EGLD must be exactly the
      issue cost, the event id must be new to the event set, and the id's
      token mapper must be empty: an id whose earlier issuance failed left
      the event set but keeps a pending mapper, so it cannot be used again.
      The id then joins the event set, its mapper turns pending, and the
      issuance is requested with that payment, the arguments the callback
      will store, and the caller it will refund. */
  method CreateEvent(t: Ticketing, env: Env, eventId: Id, tokenName: Bytes, ticker: Bytes, args: EventArgs)
    returns (r: Outcome)
    requires t.Valid()
    modifies t`inventory, t`collections, t`host
    ensures t.Valid()
    ensures env.caller != env.owner ==> r == Fail(OnlyOwner)
    ensures env.caller == env.owner && env.EgldValue() != NFT_ISSUE_COST ==> r == Fail(IssueCostWrong)
    ensures env.caller == env.owner && env.EgldValue() == NFT_ISSUE_COST && eventId in old(t.inventory.events) ==>
      r == Fail(EventIdUsed)
    ensures env.caller == env.owner && env.EgldValue() == NFT_ISSUE_COST && eventId !in old(t.inventory.events) ==>
      eventId in old(t.collections.tokenOf) ==>
      r == Fail(if old(t.collections.tokenOf[eventId]).Pending? then IssuePending else TokenIdSet)
    ensures r == Pass <==>
      && env.caller == env.owner && env.EgldValue() == NFT_ISSUE_COST
      && eventId !in old(t.inventory.events) && eventId !in old(t.collections.tokenOf)
    ensures r.Fail? ==> t.inventory == old(t.inventory) && t.collections == old(t.collections) && t.host == old(t.host)
    ensures r == Pass ==>
      && t.inventory == old(t.inventory).WithEventId(eventId)
      && t.collections == old(t.collections).Reserved(eventId)
      && t.host == old(t.host).Requested(IssueRequest(eventId, NFT_ISSUE_COST, tokenName, ticker, args, env.caller))
  {
    if env.caller != env.owner {
      return Fail(OnlyOwner);
    }
    var cost := env.EgldValue();
    if cost != NFT_ISSUE_COST {
      return Fail(IssueCostWrong);
    }
    if eventId in t.inventory.events {
      return Fail(EventIdUsed);
    }
    // the token mapper refuses a second issuance
    if eventId in t.collections.tokenOf {
      return Fail(if t.collections.tokenOf[eventId].Pending? then IssuePending else TokenIdSet);
    }
    WithEventIdOk(t.inventory, eventId);
    t.inventory := t.inventory.WithEventId(eventId);
    t.collections := t.collections.Reserved(eventId);
    t.host := t.host.Requested(IssueRequest(eventId, cost, tokenName, ticker, args, env.caller));
    r := Pass;
  }

  /** A new ticket type's record: the arguments, and nothing minted yet. */
  function NewTicketType(args: TicketTypeArgs): (r: TicketType)
    ensures r.id == args.id && r.mintCount == 0
    ensures r.baseName == args.baseName && r.image == args.image && r.royalties == args.royalties
    ensures r.maxPerUser == args.maxPerUser && r.mintLimit == args.mintLimit
  {
    TicketType(args.baseName, args.image, args.royalties, args.id, args.maxPerUser, args.mintLimit, 0)
  }

  /** Creates a ticket type under a stored event; its id must not be listed there yet. */
  method CreateTicketType(t: Ticketing, env: Env, eventId: Id, args: TicketTypeArgs) returns (r: Outcome)
    requires t.Valid()
    modifies t`inventory
    ensures t.Valid()
    ensures env.Paid() ==> r == Fail(NotPayable)
    ensures !env.Paid() && env.caller != env.owner ==> r == Fail(OnlyOwner)
    ensures !env.Paid() && env.caller == env.owner && eventId !in old(t.inventory.eventById) ==> r == Fail(EventIdInvalid)
    ensures !env.Paid() && env.caller == env.owner && eventId in old(t.inventory.eventById) && args.id in old(t.inventory.TypesOf(eventId)) ==>
      r == Fail(TicketTypeIdUsed)
    ensures r == Pass <==>
      !env.Paid() && env.caller == env.owner && eventId in old(t.inventory.eventById) && args.id !in old(t.inventory.TypesOf(eventId))
    ensures r.Fail? ==> t.inventory == old(t.inventory)
    ensures r == Pass ==> t.inventory == old(t.inventory).WithTicketType(eventId, NewTicketType(args))
    ensures r == Pass ==> args.id in t.inventory.TypesOf(eventId) && t.inventory.ticketTypeById[(eventId, args.id)] == NewTicketType(args)
  {
    if env.Paid() {
      return Fail(NotPayable);
    }
    if env.caller != env.owner {
      return Fail(OnlyOwner);
    }
    var valid := IsEventValid(t.inventory, eventId);
    if valid.Fail? {
      return valid;
    }
    if args.id in t.inventory.TypesOf(eventId) {
      return Fail(TicketTypeIdUsed);
    }
    var ticketType := NewTicketType(args);
    WithTicketTypeOk(t.inventory, eventId, ticketType);
    t.inventory := t.inventory.WithTicketType(eventId, ticketType);
    r := Pass;
  }

  /** A new stage's record: the arguments, the ticket type it belongs to, and nothing minted yet. */
  function NewStage(ticketTypeId: Id, args: TicketStageArgs): (r: TicketStage)
    ensures r.id == args.id && r.ticketTypeId == ticketTypeId && r.mintCount == 0
    ensures r.prices == args.prices && r.hasWhitelist == args.hasWhitelist && r.active == args.active
    ensures r.startTime == args.startTime && r.endTime == args.endTime
    ensures r.maxPerUser == args.maxPerUser && r.mintLimit == args.mintLimit
  {
    TicketStage(args.prices, args.id, ticketTypeId, args.hasWhitelist, args.maxPerUser, args.mintLimit, 0,
                args.startTime, args.endTime, args.active)
  }

  /** Creates a stage of a stored ticket type; its id must not be a key of the stage map yet. */
  method CreateTicketStage(t: Ticketing, env: Env, eventId: Id, ticketTypeId: Id, args: TicketStageArgs) returns (r: Outcome)
    requires t.Valid()
    modifies t`inventory
    ensures t.Valid()
    ensures env.Paid() ==> r == Fail(NotPayable)
    ensures !env.Paid() && env.caller != env.owner ==> r == Fail(OnlyOwner)
    ensures !env.Paid() && env.caller == env.owner && eventId !in old(t.inventory.eventById) ==> r == Fail(EventIdInvalid)
    ensures !env.Paid() && env.caller == env.owner && eventId in old(t.inventory.eventById) && (eventId, ticketTypeId) !in old(t.inventory.ticketTypeById) ==>
      r == Fail(TicketTypeIdInvalid)
    ensures !env.Paid() && env.caller == env.owner && eventId in old(t.inventory.eventById) && (eventId, ticketTypeId) in old(t.inventory.ticketTypeById) ==>
      args.id in old(t.inventory.StageIdsOf(eventId, ticketTypeId)) ==> r == Fail(StageKeyExists)
    ensures r == Pass <==>
      && !env.Paid() && env.caller == env.owner && eventId in old(t.inventory.eventById) && (eventId, ticketTypeId) in old(t.inventory.ticketTypeById)
      && args.id !in old(t.inventory.StageIdsOf(eventId, ticketTypeId))
    ensures r.Fail? ==> t.inventory == old(t.inventory)
    ensures r == Pass ==> t.inventory == old(t.inventory).WithStage(eventId, ticketTypeId, NewStage(ticketTypeId, args))
  {
    if env.Paid() {
      return Fail(NotPayable);
    }
    if env.caller != env.owner {
      return Fail(OnlyOwner);
    }
    var valid := IsEventValid(t.inventory, eventId);
    if valid.Fail? {
      return valid;
    }
    valid := IsTicketTypeValid(t.inventory, eventId, ticketTypeId);
    if valid.Fail? {
      return valid;
    }
    if args.id in t.inventory.StageIdsOf(eventId, ticketTypeId) {
      return Fail(StageKeyExists);
    }
    var stage := NewStage(ticketTypeId, args);
    WithStageOk(t.inventory, eventId, ticketTypeId, stage);
    t.inventory := t.inventory.WithStage(eventId, ticketTypeId, stage);
    r := Pass;
  }

  /** Removes a stored ticket type: its stages, its id in the event's list and its record. */
  method RemoveTicketType(t: Ticketing, env: Env, eventId: Id, ticketTypeId: Id) returns (r: Outcome)
    requires t.Valid()
    modifies t`inventory
    ensures t.Valid()
    ensures env.Paid() ==> r == Fail(NotPayable)
    ensures !env.Paid() && env.caller != env.owner ==> r == Fail(OnlyOwner)
    ensures !env.Paid() && env.caller == env.owner && eventId !in old(t.inventory.eventById) ==> r == Fail(EventIdInvalid)
    ensures !env.Paid() && env.caller == env.owner && eventId in old(t.inventory.eventById) && (eventId, ticketTypeId) !in old(t.inventory.ticketTypeById) ==>
      r == Fail(TicketTypeIdInvalid)
    ensures r == Pass <==>
      !env.Paid() && env.caller == env.owner && eventId in old(t.inventory.eventById) && (eventId, ticketTypeId) in old(t.inventory.ticketTypeById)
    ensures r.Fail? ==> t.inventory == old(t.inventory)
    ensures r == Pass ==> t.inventory == old(t.inventory).WithoutTicketType(eventId, ticketTypeId)
    ensures r == Pass ==> ticketTypeId !in t.inventory.TypesOf(eventId) && (eventId, ticketTypeId) !in t.inventory.ticketTypeById
  {
    if env.Paid() {
      return Fail(NotPayable);
    }
    if env.caller != env.owner {
      return Fail(OnlyOwner);
    }
    var valid := IsEventValid(t.inventory, eventId);
    if valid.Fail? {
      return valid;
    }
    valid := IsTicketTypeValid(t.inventory, eventId, ticketTypeId);
    if valid.Fail? {
      return valid;
    }
    WithoutTicketTypeOk(t.inventory, eventId, ticketTypeId);
    t.inventory := t.inventory.WithoutTicketType(eventId, ticketTypeId);
    r := Pass;
  }

  /** Removes a stage key of a stored ticket type; a key that is not there is no error and changes nothing. */
  method RemoveTicketStage(t: Ticketing, env: Env, eventId: Id, ticketTypeId: Id, stageId: Id) returns (r: Outcome)
    requires t.Valid()
    modifies t`inventory
    ensures t.Valid()
    ensures env.Paid() ==> r == Fail(NotPayable)
    ensures !env.Paid() && env.caller != env.owner ==> r == Fail(OnlyOwner)
    ensures !env.Paid() && env.caller == env.owner && eventId !in old(t.inventory.eventById) ==> r == Fail(EventIdInvalid)
    ensures !env.Paid() && env.caller == env.owner && eventId in old(t.inventory.eventById) && (eventId, ticketTypeId) !in old(t.inventory.ticketTypeById) ==>
      r == Fail(TicketTypeIdInvalid)
    ensures r == Pass <==>
      !env.Paid() && env.caller == env.owner && eventId in old(t.inventory.eventById) && (eventId, ticketTypeId) in old(t.inventory.ticketTypeById)
    ensures r.Fail? ==> t.inventory == old(t.inventory)
    ensures r == Pass ==> t.inventory == old(t.inventory).WithoutStage(eventId, ticketTypeId, stageId)
    ensures r == Pass ==> (eventId, ticketTypeId, stageId) !in t.inventory.stageById
  {
    if env.Paid() {
      return Fail(NotPayable);
    }
    if env.caller != env.owner {
      return Fail(OnlyOwner);
    }
    var valid := IsEventValid(t.inventory, eventId);
    if valid.Fail? {
      return valid;
    }
    valid := IsTicketTypeValid(t.inventory, eventId, ticketTypeId);
    if valid.Fail? {
      return valid;
    }
    WithoutStageOk(t.inventory, eventId, ticketTypeId, stageId);
    t.inventory := t.inventory.WithoutStage(eventId, ticketTypeId, stageId);
    r := Pass;
  }

  /** A ticket type's record after an edit: name, image, royalties and both
      limits come from the arguments; the id and the mint count are kept. */
  function EditedTicketType(ticketType: TicketType, args: TicketTypeArgs): (r: TicketType)
    ensures r.id == ticketType.id && r.mintCount == ticketType.mintCount
    ensures r.baseName == args.baseName && r.image == args.image && r.royalties == args.royalties
    ensures r.maxPerUser == args.maxPerUser && r.mintLimit == args.mintLimit
  {
    ticketType.(baseName := args.baseName, image := args.image, royalties := args.royalties,
                mintLimit := args.mintLimit, maxPerUser := args.maxPerUser)
  }

  /** Edits the stored ticket type `args.id` of a stored event. */
  method EditTicketType(t: Ticketing, env: Env, eventId: Id, args: TicketTypeArgs) returns (r: Outcome)
    requires t.Valid()
    modifies t`inventory
    ensures t.Valid()
    ensures env.Paid() ==> r == Fail(NotPayable)
    ensures !env.Paid() && env.caller != env.owner ==> r == Fail(OnlyOwner)
    ensures !env.Paid() && env.caller == env.owner && eventId !in old(t.inventory.eventById) ==> r == Fail(EventIdInvalid)
    ensures !env.Paid() && env.caller == env.owner && eventId in old(t.inventory.eventById) && (eventId, args.id) !in old(t.inventory.ticketTypeById) ==>
      r == Fail(TicketTypeIdInvalid)
    ensures r == Pass <==>
      !env.Paid() && env.caller == env.owner && eventId in old(t.inventory.eventById) && (eventId, args.id) in old(t.inventory.ticketTypeById)
    ensures r.Fail? ==> t.inventory == old(t.inventory)
    ensures r == Pass ==>
      t.inventory == old(t.inventory).WithTypeRecord(eventId, EditedTicketType(old(t.inventory.ticketTypeById[(eventId, args.id)]), args))
  {
    if env.Paid() {
      return Fail(NotPayable);
    }
    if env.caller != env.owner {
      return Fail(OnlyOwner);
    }
    var valid := IsEventValid(t.inventory, eventId);
    if valid.Fail? {
      return valid;
    }
    valid := IsTicketTypeValid(t.inventory, eventId, args.id);
    if valid.Fail? {
      return valid;
    }
    var edited := EditedTicketType(t.inventory.ticketTypeById[(eventId, args.id)], args);
    WithTypeRecordOk(t.inventory, eventId, edited);
    t.inventory := t.inventory.WithTypeRecord(eventId, edited);
    r := Pass;
  }

  /** A stage's record after an edit: prices, whitelist flag, window, limits
      and the active flag come from the arguments; the id, the ticket type and
      the mint count are kept. */
  function EditedStage(stage: TicketStage, args: TicketStageArgs): (r: TicketStage)
    ensures r.id == stage.id && r.ticketTypeId == stage.ticketTypeId && r.mintCount == stage.mintCount
    ensures r.prices == args.prices && r.hasWhitelist == args.hasWhitelist && r.active == args.active
    ensures r.startTime == args.startTime && r.endTime == args.endTime
    ensures r.maxPerUser == args.maxPerUser && r.mintLimit == args.mintLimit
  {
    stage.(hasWhitelist := args.hasWhitelist, maxPerUser := args.maxPerUser, endTime := args.endTime,
           startTime := args.startTime, mintLimit := args.mintLimit, active := args.active, prices := args.prices)
  }

  /** Edits the stage `args.id` of a stored ticket type; a key that is not in
      the stage map is no error and changes nothing. */
  method EditTicketStage(t: Ticketing, env: Env, eventId: Id, ticketTypeId: Id, args: TicketStageArgs) returns (r: Outcome)
    requires t.Valid()
    modifies t`inventory
    ensures t.Valid()
    ensures env.Paid() ==> r == Fail(NotPayable)
    ensures !env.Paid() && env.caller != env.owner ==> r == Fail(OnlyOwner)
    ensures !env.Paid() && env.caller == env.owner && eventId !in old(t.inventory.eventById) ==> r == Fail(EventIdInvalid)
    ensures !env.Paid() && env.caller == env.owner && eventId in old(t.inventory.eventById) && (eventId, ticketTypeId) !in old(t.inventory.ticketTypeById) ==>
      r == Fail(TicketTypeIdInvalid)
    ensures r == Pass <==>
      !env.Paid() && env.caller == env.owner && eventId in old(t.inventory.eventById) && (eventId, ticketTypeId) in old(t.inventory.ticketTypeById)
    ensures r.Fail? || (eventId, ticketTypeId, args.id) !in old(t.inventory.stageById) ==> t.inventory == old(t.inventory)
    ensures r == Pass && (eventId, ticketTypeId, args.id) in old(t.inventory.stageById) ==>
      t.inventory == old(t.inventory).WithStage(eventId, ticketTypeId, EditedStage(old(t.inventory.stageById[(eventId, ticketTypeId, args.id)]), args))
  {
    if env.Paid() {
      return Fail(NotPayable);
    }
    if env.caller != env.owner {
      return Fail(OnlyOwner);
    }
    var valid := IsEventValid(t.inventory, eventId);
    if valid.Fail? {
      return valid;
    }
    valid := IsTicketTypeValid(t.inventory, eventId, ticketTypeId);
    if valid.Fail? {
      return valid;
    }
    r := Pass;
    var found := IsTicketStageValid(t.inventory, eventId, ticketTypeId, args.id);
    if found.Success? {
      var edited := EditedStage(found.value, args);
      WithStageOk(t.inventory, eventId, ticketTypeId, edited);
      t.inventory := t.inventory.WithStage(eventId, ticketTypeId, edited);
    }
  }

  /** An event's record after an edit: capacity, per-user limit and the four
      flags come from the arguments; the collection, the transfer role, the
      id, the fee and the mint count are kept. */
  function EditedEvent(event: Event, args: EventArgs): (r: Event)
    ensures r.id == event.id && r.token == event.token && r.transferRole == event.transferRole
    ensures r.fees == event.fees && r.mintCount == event.mintCount
    ensures r.maxCapacity == args.maxCapacity && r.maxPerUser == args.maxPerUser
    ensures r.hasKyc == args.hasKyc && r.refundPolicy == args.refundPolicy
    ensures r.appendNumber == args.appendNumber && r.botProtection == args.botProtection
  {
    event.(maxCapacity := args.maxCapacity, maxPerUser := args.maxPerUser, hasKyc := args.hasKyc,
           refundPolicy := args.refundPolicy, appendNumber := args.appendNumber, botProtection := args.botProtection)
  }

  /** Edits a stored event. */
  method EditEvent(t: Ticketing, env: Env, eventId: Id, args: EventArgs) returns (r: Outcome)
    requires t.Valid()
    modifies t`inventory
    ensures t.Valid()
    ensures env.Paid() ==> r == Fail(NotPayable)
    ensures !env.Paid() && env.caller != env.owner ==> r == Fail(OnlyOwner)
    ensures !env.Paid() && env.caller == env.owner && eventId !in old(t.inventory.eventById) ==> r == Fail(EventIdInvalid)
    ensures r == Pass <==> !env.Paid() && env.caller == env.owner && eventId in old(t.inventory.eventById)
    ensures r.Fail? ==> t.inventory == old(t.inventory)
    ensures r == Pass ==> t.inventory == old(t.inventory).WithEvent(EditedEvent(old(t.inventory.eventById[eventId]), args))
  {
    if env.Paid() {
      return Fail(NotPayable);
    }
    if env.caller != env.owner {
      return Fail(OnlyOwner);
    }
    var valid := IsEventValid(t.inventory, eventId);
    if valid.Fail? {
      return valid;
    }
    var edited := EditedEvent(t.inventory.eventById[eventId], args);
    WithEventOk(t.inventory, edited);
    t.inventory := t.inventory.WithEvent(edited);
    r := Pass;
  }

  /** Adds wallets to a stage's whitelist, one after the other, skipping
      those already on it. The event and the ticket type must be stored; the
      stage is not looked up. */
  method AddToWhitelist(t: Ticketing, env: Env, eventId: Id, ticketTypeId: Id, stageId: Id, wallets: seq<Address>)
    returns (r: Outcome)
    requires t.Valid()
    modifies t`inventory
    ensures t.Valid()
    ensures env.Paid() ==> r == Fail(NotPayable)
    ensures !env.Paid() && env.caller != env.owner ==> r == Fail(OnlyOwner)
    ensures !env.Paid() && env.caller == env.owner && eventId !in old(t.inventory.eventById) ==> r == Fail(EventIdInvalid)
    ensures !env.Paid() && env.caller == env.owner && eventId in old(t.inventory.eventById) && (eventId, ticketTypeId) !in old(t.inventory.ticketTypeById) ==>
      r == Fail(TicketTypeIdInvalid)
    ensures r == Pass <==>
      !env.Paid() && env.caller == env.owner && eventId in old(t.inventory.eventById) && (eventId, ticketTypeId) in old(t.inventory.ticketTypeById)
    ensures r.Fail? ==> t.inventory == old(t.inventory)
    ensures r == Pass ==>
      var listed := Extended(old(t.inventory.WhitelistOf(eventId, ticketTypeId, stageId)), wallets);
      t.inventory == old(t.inventory).WithWhitelist(eventId, ticketTypeId, stageId, listed)
  {
    if env.Paid() {
      return Fail(NotPayable);
    }
    if env.caller != env.owner {
      return Fail(OnlyOwner);
    }
    var valid := IsEventValid(t.inventory, eventId);
    if valid.Fail? {
      return valid;
    }
    valid := IsTicketTypeValid(t.inventory, eventId, ticketTypeId);
    if valid.Fail? {
      return valid;
    }
    var listed := t.inventory.WhitelistOf(eventId, ticketTypeId, stageId);
    var i := 0;
    while i < |wallets|
      invariant 0 <= i <= |wallets|
      invariant listed == Extended(t.inventory.WhitelistOf(eventId, ticketTypeId, stageId), wallets[..i])
    {
      assert wallets[..i + 1][..i] == wallets[..i];
      listed := SetInsert(listed, wallets[i]);
      i := i + 1;
    }
    assert wallets[..i] == wallets;
    WithWhitelistOk(t.inventory, eventId, ticketTypeId, stageId, listed);
    t.inventory := t.inventory.WithWhitelist(eventId, ticketTypeId, stageId, listed);
    r := Pass;
  }

  /** Removes wallets from a stage's whitelist, one after the other; a wallet
      not on it is skipped. The event and the ticket type must be stored; the
      stage is not looked up. */
  method RemoveFromWhitelist(t: Ticketing, env: Env, eventId: Id, ticketTypeId: Id, stageId: Id, wallets: seq<Address>)
    returns (r: Outcome)
    requires t.Valid()
    modifies t`inventory
    ensures t.Valid()
    ensures env.Paid() ==> r == Fail(NotPayable)
    ensures !env.Paid() && env.caller != env.owner ==> r == Fail(OnlyOwner)
    ensures !env.Paid() && env.caller == env.owner && eventId !in old(t.inventory.eventById) ==> r == Fail(EventIdInvalid)
    ensures !env.Paid() && env.caller == env.owner && eventId in old(t.inventory.eventById) && (eventId, ticketTypeId) !in old(t.inventory.ticketTypeById) ==>
      r == Fail(TicketTypeIdInvalid)
    ensures r == Pass <==>
      !env.Paid() && env.caller == env.owner && eventId in old(t.inventory.eventById) && (eventId, ticketTypeId) in old(t.inventory.ticketTypeById)
    ensures r.Fail? ==> t.inventory == old(t.inventory)
    ensures r == Pass ==>
      var listed := Pruned(old(t.inventory.WhitelistOf(eventId, ticketTypeId, stageId)), wallets);
      t.inventory == old(t.inventory).WithWhitelist(eventId, ticketTypeId, stageId, listed)
  {
    if env.Paid() {
      return Fail(NotPayable);
    }
    if env.caller != env.owner {
      return Fail(OnlyOwner);
    }
    var valid := IsEventValid(t.inventory, eventId);
    if valid.Fail? {
      return valid;
    }
    valid := IsTicketTypeValid(t.inventory, eventId, ticketTypeId);
    if valid.Fail? {
      return valid;
    }
    var listed := t.inventory.WhitelistOf(eventId, ticketTypeId, stageId);
    var i := 0;
    while i < |wallets|
      invariant 0 <= i <= |wallets|
      invariant listed == Pruned(t.inventory.WhitelistOf(eventId, ticketTypeId, stageId), wallets[..i])
    {
      assert wallets[..i + 1][..i] == wallets[..i];
      listed := SwapRemove(listed, wallets[i]);
      i := i + 1;
    }
    assert wallets[..i] == wallets;
    WithWhitelistOk(t.inventory, eventId, ticketTypeId, stageId, listed);
    t.inventory := t.inventory.WithWhitelist(eventId, ticketTypeId, stageId, listed);
    r := Pass;
  }
}
