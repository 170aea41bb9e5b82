/** The read-only views: the stored events, the ticket types and stages of an
    event, the income map, and the size of a stage's whitelist. None of them
    changes storage. */
module Views {
  import opened Types
  import opened Mappers
  import opened Catalogue
  import opened Storage
  import opened Validation

  /** The record of every id in the event set, in the set's order. An id whose
      collection is still being issued has no record yet, and the view then
      aborts. */
  method GetEvents(t: Ticketing) returns (r: Result<seq<Event>>)
    ensures r.Failure? <==> exists i :: 0 <= i < |t.inventory.events| && t.inventory.events[i] !in t.inventory.eventById
    ensures r.Failure? ==> r.error == EventInvalid
    ensures r.Success? ==> r.value == InOrder(t.inventory.events, t.inventory.eventById)
    ensures r.Success? && t.Valid() ==> forall i :: 0 <= i < |r.value| ==> r.value[i].id == t.inventory.events[i]
  {
    var events := t.inventory.events;
    var results := [];
    for i := 0 to |events|
      invariant |results| == i
      invariant forall j :: 0 <= j < i ==> events[j] in t.inventory.eventById && results[j] == t.inventory.eventById[events[j]]
    {
      match DoesEventExist(t.inventory, events[i])
      case Failure(e) =>
        return Failure(e);
      case Success(event) =>
        results := results + [event];
    }
    r := Success(results);
  }

  /** The records of an event's ticket types, in the order of its id list. */
  method GetTypes(t: Ticketing, eventId: Id) returns (types: seq<TicketType>)
    requires t.Valid()
    ensures var ids := t.inventory.TypesOf(eventId);
      && |types| == |ids|
      && forall i :: 0 <= i < |ids| ==>
           (eventId, ids[i]) in t.inventory.ticketTypeById && types[i] == t.inventory.ticketTypeById[(eventId, ids[i])]
           && types[i].id == ids[i]
  {
    var ids := t.inventory.TypesOf(eventId);
    types := [];
    for i := 0 to |ids|
      invariant |types| == i
      invariant forall j :: 0 <= j < i ==>
        (eventId, ids[j]) in t.inventory.ticketTypeById && types[j] == t.inventory.ticketTypeById[(eventId, ids[j])]
        && types[j].id == ids[j]
    {
      assert ids[i] in t.inventory.ticketTypes[eventId];
      types := types + [t.inventory.ticketTypeById[(eventId, ids[i])]];
    }
  }

  /** The stage map's values in key order: the record of each stage of the ticket type. */
  function StagesOf(inv: Inventory, eventId: Id, ticketTypeId: Id): (r: seq<TicketStage>)
    requires inv.Ok()
    ensures var ids := inv.StageIdsOf(eventId, ticketTypeId);
      && |r| == |ids|
      && forall i :: 0 <= i < |ids| ==>
           (eventId, ticketTypeId, ids[i]) in inv.stageById && r[i] == inv.stageById[(eventId, ticketTypeId, ids[i])]
           && r[i].id == ids[i] && r[i].ticketTypeId == ticketTypeId
  {
    var ids := inv.StageIdsOf(eventId, ticketTypeId);
    assert forall i :: 0 <= i < |ids| ==> ids[i] in inv.stageIds[(eventId, ticketTypeId)];
    seq(|ids|, i requires 0 <= i < |ids| => inv.stageById[(eventId, ticketTypeId, ids[i])])
  }

  /** The stages of one ticket type, in the stage map's key order. */
  method GetTypeStages(t: Ticketing, eventId: Id, ticketTypeId: Id) returns (stages: seq<TicketStage>)
    requires t.Valid()
    ensures stages == StagesOf(t.inventory, eventId, ticketTypeId)
  {
    var ids := t.inventory.StageIdsOf(eventId, ticketTypeId);
    stages := [];
    for i := 0 to |ids|
      invariant stages == StagesOf(t.inventory, eventId, ticketTypeId)[..i]
    {
      stages := stages + [t.inventory.stageById[(eventId, ticketTypeId, ids[i])]];
    }
  }

  /** The stages of the listed ticket types, type after type. */
  function AllStages(inv: Inventory, eventId: Id, ticketTypeIds: seq<Id>): (r: seq<TicketStage>)
    requires inv.Ok()
    ensures forall s :: s in r ==>
      && s.ticketTypeId in ticketTypeIds
      && (eventId, s.ticketTypeId, s.id) in inv.stageById && inv.stageById[(eventId, s.ticketTypeId, s.id)] == s
  {
    if ticketTypeIds == [] then []
    else AllStages(inv, eventId, ticketTypeIds[..|ticketTypeIds| - 1]) + StagesOf(inv, eventId, ticketTypeIds[|ticketTypeIds| - 1])
  }

  /** Every stored stage of a listed ticket type is among them. */
  lemma {:induction false} AllStagesComplete(inv: Inventory, eventId: Id, ticketTypeIds: seq<Id>, ticketTypeId: Id, stageId: Id)
    requires inv.Ok()
    requires ticketTypeId in ticketTypeIds && stageId in inv.StageIdsOf(eventId, ticketTypeId)
    ensures (eventId, ticketTypeId, stageId) in inv.stageById
    ensures inv.stageById[(eventId, ticketTypeId, stageId)] in AllStages(inv, eventId, ticketTypeIds)
  {
    var last := |ticketTypeIds| - 1;
    var i := IndexOf(inv.StageIdsOf(eventId, ticketTypeId), stageId);
    if ticketTypeIds[last] == ticketTypeId {
      assert StagesOf(inv, eventId, ticketTypeId)[i] == inv.stageById[(eventId, ticketTypeId, stageId)];
    } else {
      assert ticketTypeId in ticketTypeIds[..last] by {
        assert ticketTypeIds == ticketTypeIds[..last] + [ticketTypeIds[last]];
      }
      AllStagesComplete(inv, eventId, ticketTypeIds[..last], ticketTypeId, stageId);
    }
  }

  /** The stages of every ticket type of an event, type after type in the
      order of the event's id list. */
  method GetAllStages(t: Ticketing, eventId: Id) returns (stages: seq<TicketStage>)
    requires t.Valid()
    ensures stages == AllStages(t.inventory, eventId, t.inventory.TypesOf(eventId))
  {
    var ids := t.inventory.TypesOf(eventId);
    stages := [];
    for i := 0 to |ids|
      invariant stages == AllStages(t.inventory, eventId, ids[..i])
    {
      var typeStages := GetTypeStages(t, eventId, ids[i]);
      assert ids[..i + 1][..i] == ids[..i];
      stages := stages + typeStages;
    }
    assert ids[..|ids|] == ids;
  }

  /** The income map's tokens in the order they were first credited. */
  method GetAllIncomeTokens(t: Ticketing) returns (tokens: seq<TokenId>)
    ensures tokens == t.ledger.tokens
    ensures t.Valid() ==> Distinct(tokens) && forall k :: k in tokens <==> k in t.ledger.income
  {
    tokens := t.ledger.tokens;
  }

  /** The accrued payment of a token; a token never credited aborts the view. */
  method GetIncomePayment(t: Ticketing, token: TokenId) returns (r: Result<Payment>)
    ensures r.Success? <==> token in t.ledger.income
    ensures r.Failure? ==> r.error == IncomeMissing
    ensures r.Success? ==> r.value == t.ledger.income[token]
    ensures r.Success? && t.Valid() ==> r.value == Payment(token, 0, t.ledger.Accrued(token))
  {
    if token in t.ledger.income {
      r := Success(t.ledger.income[token]);
    } else {
      r := Failure(IncomeMissing);
    }
  }

  /** The length of a stage's whitelist, which in a consistent store is the
      number of different wallets on it. */
  method WhitelistedSize(t: Ticketing, eventId: Id, ticketTypeId: Id, stageId: Id) returns (size: nat)
    ensures size == |t.inventory.WhitelistOf(eventId, ticketTypeId, stageId)|
    ensures t.Valid() ==> size == |set a | a in t.inventory.WhitelistOf(eventId, ticketTypeId, stageId)|
  {
    var wallets := t.inventory.WhitelistOf(eventId, ticketTypeId, stageId);
    size := |wallets|;
    if t.Valid() {
      DistinctCardinality(wallets);
    }
  }
}
