/** The catalogue part of the contract's storage: the event set, the event,
    ticket-type and stage records, and the stage whitelists. Every write the
    endpoints make to it is one of the update functions below, each of which
    keeps the catalogue invariant `Ok`. */
module Catalogue {
  import opened Types
  import opened Mappers

  datatype Inventory = Inventory(
    events: seq<Id>,                                  // the event-id set mapper
    eventById: map<Id, Event>,                        // one record slot per event
    ticketTypes: map<Id, seq<Id>>,                    // the ticket-type-id set mapper of each event
    ticketTypeById: map<(Id, Id), TicketType>,        // one record slot per (event, ticket type)
    stageIds: map<(Id, Id), seq<Id>>,                 // the stage map of each (event, ticket type): its keys in order ...
    stageById: map<(Id, Id, Id), TicketStage>,        // ... and its value slots
    whitelistWallets: map<(Id, Id, Id), seq<Address>>) // the wallet set mapper of each stage
  {
    /** The ticket-type ids listed under an event; an empty mapper reads as []. */
    function TypesOf(eventId: Id): seq<Id>
    {
      Lookup(ticketTypes, eventId, [])
    }

    /** The stage ids of a ticket type, in the stage map's key order. */
    function StageIdsOf(eventId: Id, ticketTypeId: Id): seq<Id>
    {
      Lookup(stageIds, (eventId, ticketTypeId), [])
    }

    function WhitelistOf(eventId: Id, ticketTypeId: Id, stageId: Id): seq<Address>
    {
      Lookup(whitelistWallets, (eventId, ticketTypeId, stageId), [])
    }

    /** The catalogue invariant:
        - the event set and every id list hold each id once;
        - each event, ticket-type and stage record sits under its own id, and
          a stage names the ticket type it belongs to;
        - a ticket-type record exists exactly for the ids listed under its event;
        - a stage record exists exactly for the keys of its stage map, and only
          ticket types that exist have a stage map.
        The event set and the event records are not tied: an event joins the
        set when its collection is requested and gets its record only in the
        issue callback. */
    ghost predicate Ok()
    {
      && Distinct(events)
      && EventsOk(eventById)
      && TypesOk(ticketTypes, ticketTypeById)
      && StagesOk(ticketTypeById, stageIds, stageById)
      && WhitelistsOk(whitelistWallets)
    }

    // ------------------------------------------------------------ events

    /** An event id joins the event set (collection issuance requested). */
    function WithEventId(eventId: Id): (r: Inventory)
      ensures eventId in r.events
    {
      this.(events := SetInsert(events, eventId))
    }

    /** An event id leaves the event set (collection issuance failed). */
    function WithoutEventId(eventId: Id): (r: Inventory)
      ensures Distinct(events) ==> eventId !in r.events
    {
      this.(events := SwapRemove(events, eventId))
    }

    /** An event record is stored under its own id. */
    function WithEvent(event: Event): (r: Inventory)
      ensures event.id in r.eventById && r.eventById[event.id] == event
    {
      this.(eventById := eventById[event.id := event])
    }

    // ------------------------------------------------------------ ticket types

    /** A ticket-type record is stored over the one under its id. */
    function WithTypeRecord(eventId: Id, ticketType: TicketType): (r: Inventory)
      ensures (eventId, ticketType.id) in r.ticketTypeById && r.ticketTypeById[(eventId, ticketType.id)] == ticketType
    {
      this.(ticketTypeById := ticketTypeById[(eventId, ticketType.id) := ticketType])
    }

    /** A new ticket type: its id joins the event's list and its record is stored. */
    function WithTicketType(eventId: Id, ticketType: TicketType): (r: Inventory)
      ensures ticketType.id in r.TypesOf(eventId)
      ensures (eventId, ticketType.id) in r.ticketTypeById && r.ticketTypeById[(eventId, ticketType.id)] == ticketType
    {
      this.(ticketTypes := ticketTypes[eventId := SetInsert(TypesOf(eventId), ticketType.id)])
        .WithTypeRecord(eventId, ticketType)
    }

    /** A ticket type is removed: its stage map is cleared, its id swap-removed
        from the event's list and its record cleared. */
    function WithoutTicketType(eventId: Id, ticketTypeId: Id): (r: Inventory)
      ensures (eventId, ticketTypeId) !in r.ticketTypeById && r.StageIdsOf(eventId, ticketTypeId) == []
      ensures forall s :: (eventId, ticketTypeId, s) !in r.stageById
      ensures r.events == events && r.eventById == eventById && r.whitelistWallets == whitelistWallets
    {
      this.(
        ticketTypes := ticketTypes[eventId := SwapRemove(TypesOf(eventId), ticketTypeId)],
        ticketTypeById := ticketTypeById - {(eventId, ticketTypeId)},
        stageIds := stageIds - {(eventId, ticketTypeId)},
        stageById := StagesOutside(stageById, eventId, ticketTypeId))
    }

    // ------------------------------------------------------------ stages

    /** A stage map insertion: a new key joins the end of the key order, and
        the record is stored under its key. */
    function WithStage(eventId: Id, ticketTypeId: Id, stage: TicketStage): (r: Inventory)
      ensures stage.id in r.StageIdsOf(eventId, ticketTypeId)
      ensures (eventId, ticketTypeId, stage.id) in r.stageById && r.stageById[(eventId, ticketTypeId, stage.id)] == stage
    {
      this.(
        stageIds := stageIds[(eventId, ticketTypeId) := SetInsert(StageIdsOf(eventId, ticketTypeId), stage.id)],
        stageById := stageById[(eventId, ticketTypeId, stage.id) := stage])
    }

    /** A stage map removal: a present key is unlinked, the other keys keep
        their order, and its record is dropped; an absent key changes nothing. */
    function WithoutStage(eventId: Id, ticketTypeId: Id, stageId: Id): (r: Inventory)
      ensures stageId !in StageIdsOf(eventId, ticketTypeId) ==> r == this
      ensures stageId in StageIdsOf(eventId, ticketTypeId) ==> (eventId, ticketTypeId, stageId) !in r.stageById
    {
      var ids := StageIdsOf(eventId, ticketTypeId);
      if stageId !in ids then this
      else
        this.(
          stageIds := stageIds[(eventId, ticketTypeId) := Without(ids, stageId)],
          stageById := stageById - {(eventId, ticketTypeId, stageId)})
    }

    // ------------------------------------------------------------ whitelists

    /** A stage's whitelist is replaced by `wallets`. */
    function WithWhitelist(eventId: Id, ticketTypeId: Id, stageId: Id, wallets: seq<Address>): (r: Inventory)
      ensures r.WhitelistOf(eventId, ticketTypeId, stageId) == wallets
    {
      this.(whitelistWallets := whitelistWallets[(eventId, ticketTypeId, stageId) := wallets])
    }
  }

  /** The stage records that do not belong to the given ticket type. */
  function StagesOutside(stageById: map<(Id, Id, Id), TicketStage>, eventId: Id, ticketTypeId: Id): (r: map<(Id, Id, Id), TicketStage>)
    ensures forall k :: k in r <==> k in stageById && (k.0, k.1) != (eventId, ticketTypeId)
    ensures forall k :: k in r ==> r[k] == stageById[k]
  {
    map k | k in stageById && (k.0, k.1) != (eventId, ticketTypeId) :: stageById[k]
  }

  // The invariant, one predicate per storage group, so that an update that
  // leaves a group alone keeps that part of the invariant without proof.

  ghost predicate EventsOk(eventById: map<Id, Event>)
  {
    forall e :: e in eventById ==> eventById[e].id == e
  }

  ghost predicate TypesOk(ticketTypes: map<Id, seq<Id>>, ticketTypeById: map<(Id, Id), TicketType>)
  {
    && (forall e :: e in ticketTypes ==> Distinct(ticketTypes[e]))
    && (forall k :: k in ticketTypeById ==> ticketTypeById[k].id == k.1 && k.0 in ticketTypes && k.1 in ticketTypes[k.0])
    && (forall e, ty :: e in ticketTypes && ty in ticketTypes[e] ==> (e, ty) in ticketTypeById)
  }

  ghost predicate StagesOk(ticketTypeById: map<(Id, Id), TicketType>, stageIds: map<(Id, Id), seq<Id>>, stageById: map<(Id, Id, Id), TicketStage>)
  {
    && (forall k :: k in stageIds ==> Distinct(stageIds[k]) && k in ticketTypeById)
    && (forall k :: k in stageById ==>
          stageById[k].id == k.2 && stageById[k].ticketTypeId == k.1 && (k.0, k.1) in stageIds && k.2 in stageIds[(k.0, k.1)])
    && (forall k, s :: k in stageIds && s in stageIds[k] ==> (k.0, k.1, s) in stageById)
  }

  ghost predicate WhitelistsOk(whitelistWallets: map<(Id, Id, Id), seq<Address>>)
  {
    forall k :: k in whitelistWallets ==> Distinct(whitelistWallets[k])
  }

  // ------------------------------------------------------------ invariant preservation

  lemma WithEventIdOk(inv: Inventory, eventId: Id)
    requires inv.Ok()
    ensures inv.WithEventId(eventId).Ok()
  {
  }

  lemma WithoutEventIdOk(inv: Inventory, eventId: Id)
    requires inv.Ok()
    ensures inv.WithoutEventId(eventId).Ok()
  {
  }

  lemma WithEventOk(inv: Inventory, event: Event)
    requires inv.Ok()
    ensures inv.WithEvent(event).Ok()
  {
  }

  /** Overwriting an existing ticket-type record keeps the invariant. */
  lemma WithTypeRecordOk(inv: Inventory, eventId: Id, ticketType: TicketType)
    requires inv.Ok() && (eventId, ticketType.id) in inv.ticketTypeById
    ensures inv.WithTypeRecord(eventId, ticketType).Ok()
  {
  }

  lemma WithTicketTypeOk(inv: Inventory, eventId: Id, ticketType: TicketType)
    requires inv.Ok()
    ensures inv.WithTicketType(eventId, ticketType).Ok()
  {
    TypeInsertedOk(inv.ticketTypes, inv.ticketTypeById, eventId, ticketType);
  }

  /** The ticket-type part of `WithTicketTypeOk`, over the two maps alone. */
  lemma TypeInsertedOk(ticketTypes: map<Id, seq<Id>>, ticketTypeById: map<(Id, Id), TicketType>, eventId: Id, ticketType: TicketType)
    requires TypesOk(ticketTypes, ticketTypeById)
    ensures TypesOk(ticketTypes[eventId := SetInsert(Lookup(ticketTypes, eventId, []), ticketType.id)],
                    ticketTypeById[(eventId, ticketType.id) := ticketType])
  {
    var types := ticketTypes[eventId := SetInsert(Lookup(ticketTypes, eventId, []), ticketType.id)];
    var byId := ticketTypeById[(eventId, ticketType.id) := ticketType];
    forall e, ty | e in types && ty in types[e] ensures (e, ty) in byId {
      if e != eventId { assert ty in ticketTypes[e]; }
    }
  }

  lemma WithoutTicketTypeOk(inv: Inventory, eventId: Id, ticketTypeId: Id)
    requires inv.Ok()
    ensures inv.WithoutTicketType(eventId, ticketTypeId).Ok()
  {
    TypeRemovedOk(inv.ticketTypes, inv.ticketTypeById, eventId, ticketTypeId);
    TypeStagesRemovedOk(inv.ticketTypeById, inv.stageIds, inv.stageById, eventId, ticketTypeId);
  }

  /** The ticket-type part of `WithoutTicketTypeOk`, over the two maps alone. */
  lemma TypeRemovedOk(ticketTypes: map<Id, seq<Id>>, ticketTypeById: map<(Id, Id), TicketType>, eventId: Id, ticketTypeId: Id)
    requires TypesOk(ticketTypes, ticketTypeById)
    ensures TypesOk(ticketTypes[eventId := SwapRemove(Lookup(ticketTypes, eventId, []), ticketTypeId)],
                    ticketTypeById - {(eventId, ticketTypeId)})
  {
    var types := ticketTypes[eventId := SwapRemove(Lookup(ticketTypes, eventId, []), ticketTypeId)];
    var byId := ticketTypeById - {(eventId, ticketTypeId)};
    forall k | k in byId ensures k.0 in types && k.1 in types[k.0] {
      assert k.1 in ticketTypes[k.0];
    }
  }

  /** The stage part of `WithoutTicketTypeOk`, over the three maps alone. */
  lemma TypeStagesRemovedOk(ticketTypeById: map<(Id, Id), TicketType>, stageIds: map<(Id, Id), seq<Id>>, stageById: map<(Id, Id, Id), TicketStage>,
                            eventId: Id, ticketTypeId: Id)
    requires StagesOk(ticketTypeById, stageIds, stageById)
    ensures StagesOk(ticketTypeById - {(eventId, ticketTypeId)}, stageIds - {(eventId, ticketTypeId)},
                     StagesOutside(stageById, eventId, ticketTypeId))
  {
    var ids := stageIds - {(eventId, ticketTypeId)};
    forall k | k in StagesOutside(stageById, eventId, ticketTypeId) ensures (k.0, k.1) in ids && k.2 in ids[(k.0, k.1)] {
      assert k.2 in stageIds[(k.0, k.1)];
    }
  }

  /** Storing a stage of an existing ticket type, under that type, keeps the invariant. */
  lemma WithStageOk(inv: Inventory, eventId: Id, ticketTypeId: Id, stage: TicketStage)
    requires inv.Ok() && (eventId, ticketTypeId) in inv.ticketTypeById && stage.ticketTypeId == ticketTypeId
    ensures inv.WithStage(eventId, ticketTypeId, stage).Ok()
  {
    StageInsertedOk(inv.ticketTypeById, inv.stageIds, inv.stageById, eventId, ticketTypeId, stage);
  }

  /** The stage part of `WithStageOk`, over the three maps alone. */
  lemma StageInsertedOk(ticketTypeById: map<(Id, Id), TicketType>, stageIds: map<(Id, Id), seq<Id>>, stageById: map<(Id, Id, Id), TicketStage>,
                        eventId: Id, ticketTypeId: Id, stage: TicketStage)
    requires StagesOk(ticketTypeById, stageIds, stageById)
    requires (eventId, ticketTypeId) in ticketTypeById && stage.ticketTypeId == ticketTypeId
    ensures StagesOk(ticketTypeById,
                     stageIds[(eventId, ticketTypeId) := SetInsert(Lookup(stageIds, (eventId, ticketTypeId), []), stage.id)],
                     stageById[(eventId, ticketTypeId, stage.id) := stage])
  {
    var ids := stageIds[(eventId, ticketTypeId) := SetInsert(Lookup(stageIds, (eventId, ticketTypeId), []), stage.id)];
    var byId := stageById[(eventId, ticketTypeId, stage.id) := stage];
    forall k | k in byId ensures (k.0, k.1) in ids && k.2 in ids[(k.0, k.1)] {
      if (k.0, k.1) != (eventId, ticketTypeId) { assert k.2 in stageIds[(k.0, k.1)]; }
    }
    forall k, s | k in ids && s in ids[k] ensures (k.0, k.1, s) in byId {
      if k != (eventId, ticketTypeId) { assert s in stageIds[k]; }
    }
  }

  lemma WithoutStageOk(inv: Inventory, eventId: Id, ticketTypeId: Id, stageId: Id)
    requires inv.Ok()
    ensures inv.WithoutStage(eventId, ticketTypeId, stageId).Ok()
  {
    if stageId in inv.StageIdsOf(eventId, ticketTypeId) {
      StageRemovedOk(inv.ticketTypeById, inv.stageIds, inv.stageById, eventId, ticketTypeId, stageId);
    }
  }

  /** The stage part of `WithoutStageOk` for a present key, over the three maps alone. */
  lemma StageRemovedOk(ticketTypeById: map<(Id, Id), TicketType>, stageIds: map<(Id, Id), seq<Id>>, stageById: map<(Id, Id, Id), TicketStage>,
                       eventId: Id, ticketTypeId: Id, stageId: Id)
    requires StagesOk(ticketTypeById, stageIds, stageById)
    requires stageId in Lookup(stageIds, (eventId, ticketTypeId), [])
    ensures StagesOk(ticketTypeById,
                     stageIds[(eventId, ticketTypeId) := Without(Lookup(stageIds, (eventId, ticketTypeId), []), stageId)],
                     stageById - {(eventId, ticketTypeId, stageId)})
  {
    var ids := stageIds[(eventId, ticketTypeId) := Without(Lookup(stageIds, (eventId, ticketTypeId), []), stageId)];
    var byId := stageById - {(eventId, ticketTypeId, stageId)};
    forall k | k in byId ensures (k.0, k.1) in ids && k.2 in ids[(k.0, k.1)] {
      assert k.2 in stageIds[(k.0, k.1)];
    }
    forall k, s | k in ids && s in ids[k] ensures (k.0, k.1, s) in byId {
      assert s in stageIds[k];
    }
  }

  lemma WithWhitelistOk(inv: Inventory, eventId: Id, ticketTypeId: Id, stageId: Id, wallets: seq<Address>)
    requires inv.Ok() && Distinct(wallets)
    ensures inv.WithWhitelist(eventId, ticketTypeId, stageId, wallets).Ok()
  {
  }

  /** The mapper of a fresh contract: everything empty. */
  const EmptyInventory := Inventory([], map[], map[], map[], map[], map[], map[])

  lemma EmptyInventoryOk()
    ensures EmptyInventory.Ok()
  {
  }
}
