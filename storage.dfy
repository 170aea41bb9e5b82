/** The contract's storage, grouped by the parts each endpoint touches: the
    catalogue, the per-user purchase counters, the collections, the fee, the
    income map, and what the host records on the contract's behalf (the NFTs
    it created, the transfers the contract made and the collection issuances
    awaiting their callback). */
module Storage {
  import opened Types
  import opened Mappers
  import opened Common
  import opened Catalogue

  /** An NFT the host created: collection, nonce, name, royalties and image URI. */
  datatype Nft = Nft(token: Bytes, nonce: nat, name: Bytes, royalties: nat, uri: Bytes)

  /** A transfer out of the contract. */
  datatype Transfer = Transfer(to: Address, payments: seq<Payment>)

  /** A collection issuance requested from the host, paid with `cost`; its
      callback arrives in a later transaction with the event id, the event
      arguments and the requesting caller. */
  datatype IssueRequest = IssueRequest(eventId: Id, cost: nat, tokenName: Bytes, ticker: Bytes, args: EventArgs, caller: Address)

  /** The per-user purchase counters: by (user, event), by (user, event,
      ticket type) and by (user, event, ticket type, stage). */
  datatype Sales = Sales(
    perEvent: map<(Address, Id), nat>,
    perTicketType: map<(Address, Id, Id), nat>,
    perStage: map<(Address, Id, Id, Id), nat>)
  {
    /** What `user` has bought so far at stage, type and event level; an empty counter reads 0. */
    function CountsOf(user: Address, eventId: Id, ticketTypeId: Id, stageId: Id): Counts
    {
      Counts(Lookup(perStage, (user, eventId, ticketTypeId, stageId), 0),
             Lookup(perTicketType, (user, eventId, ticketTypeId), 0),
             Lookup(perEvent, (user, eventId), 0))
    }

    /** The counters after `n` tickets of a stage went to `to`. */
    function Sold(to: Address, eventId: Id, ticketTypeId: Id, stageId: Id, n: nat): (r: Sales)
    {
      var c := CountsOf(to, eventId, ticketTypeId, stageId);
      Sales(perEvent[(to, eventId) := c.event + n],
            perTicketType[(to, eventId, ticketTypeId) := c.ticketType + n],
            perStage[(to, eventId, ticketTypeId, stageId) := c.stage + n])
    }
  }

  /** A sale of `n` raises each of the buyer's three counters by `n` and no other counter. */
  lemma SoldCounts(sales: Sales, to: Address, eventId: Id, ticketTypeId: Id, stageId: Id, n: nat,
                   user: Address, e: Id, ty: Id, s: Id)
    ensures var before := sales.CountsOf(user, e, ty, s);
            var after := sales.Sold(to, eventId, ticketTypeId, stageId, n).CountsOf(user, e, ty, s);
            && after.event == before.event + (if (user, e) == (to, eventId) then n else 0)
            && after.ticketType == before.ticketType + (if (user, e, ty) == (to, eventId, ticketTypeId) then n else 0)
            && after.stage == before.stage + (if (user, e, ty, s) == (to, eventId, ticketTypeId, stageId) then n else 0)
  {
  }

  /** What an event's token mapper holds once it is no longer empty: an
      issuance under way, or the issued collection. */
  datatype TokenState = Pending | TokenSet(token: Bytes)

  /** The collection registry: the next local ticket number of each
      collection, the set of collections, and each event's token mapper (an
      event without an entry has never requested a collection). */
  datatype Collections = Collections(nextNonce: map<Bytes, nat>, tokens: seq<Bytes>, tokenOf: map<Id, TokenState>)
  {
    ghost predicate Ok()
    {
      Distinct(tokens)
    }

    /** The local number the next ticket of `token` gets; an empty slot reads 0. */
    function NextNonce(token: Bytes): nat
    {
      Lookup(nextNonce, token, 0)
    }

    /** The registry after `n` tickets of `token` were numbered. */
    function Advanced(token: Bytes, n: nat): (r: Collections)
    {
      this.(nextNonce := nextNonce[token := NextNonce(token) + n])
    }

    /** The registry after an event's collection was issued: numbering starts
        at 1 unless the collection already has a counter, the collection joins
        the set, and the event's token mapper holds it. */
    function Registered(eventId: Id, token: Bytes): (r: Collections)
    {
      Collections(if token in nextNonce then nextNonce else nextNonce[token := 1],
                  SetInsert(tokens, token),
                  tokenOf[eventId := TokenSet(token)])
    }

    /** The registry after an event requested its collection: its token mapper is pending. */
    function Reserved(eventId: Id): (r: Collections)
      ensures r.tokenOf == tokenOf[eventId := Pending]
      ensures r.nextNonce == nextNonce && r.tokens == tokens
    {
      this.(tokenOf := tokenOf[eventId := Pending])
    }
  }

  /** Numbering `n` tickets moves the collection's counter by `n` and leaves every other counter and the collection set alone. */
  lemma AdvancedNonces(c: Collections, token: Bytes, n: nat, other: Bytes)
    ensures c.Advanced(token, n).NextNonce(token) == c.NextNonce(token) + n
    ensures other != token ==> c.Advanced(token, n).NextNonce(other) == c.NextNonce(other)
    ensures c.Advanced(token, n).tokens == c.tokens
    ensures c.Ok() ==> c.Advanced(token, n).Ok()
  {
  }

  /** Registration never resets an existing counter, starts a new one at 1, and keeps the collection set free of repeats. */
  lemma RegisteredNonces(c: Collections, eventId: Id, token: Bytes)
    ensures var r := c.Registered(eventId, token);
      && r.NextNonce(token) == (if token in c.nextNonce then c.nextNonce[token] else 1)
      && token in r.tokens && r.tokenOf[eventId] == TokenSet(token)
      && (c.Ok() ==> r.Ok())
  {
  }

  /** The income map: its tokens in insertion order, and the accrued payment of each. */
  datatype Ledger = Ledger(tokens: seq<TokenId>, income: map<TokenId, Payment>)
  {
    /** Each token is listed once, and its entry is a fungible payment in that token. */
    ghost predicate Ok()
    {
      && Listed(tokens, income)
      && (forall k :: k in income ==> income[k].token == k && income[k].nonce == 0)
    }

    /** The amount accrued for `token`, 0 when it has no entry. */
    function Accrued(token: TokenId): nat
    {
      if token in income then income[token].amount else 0
    }
  }

  /** What the host keeps for the contract: the NFT count of each collection,
      the NFTs created, the transfers made and the issuances requested. */
  datatype Host = Host(created: map<Bytes, nat>, minted: seq<Nft>, transfers: seq<Transfer>, issuances: seq<IssueRequest>)
  {
    /** How many NFTs the host created in a collection; the next one gets this plus one as its nonce. */
    function Created(token: Bytes): nat
    {
      Lookup(created, token, 0)
    }

    /** The host after the contract sent `sent`. */
    function Sent(sent: seq<Transfer>): Host
    {
      this.(transfers := transfers + sent)
    }

    /** The host after the contract asked it to issue a collection. */
    function Requested(request: IssueRequest): (r: Host)
      ensures r.issuances == issuances + [request] && r.created == created && r.minted == minted && r.transfers == transfers
    {
      this.(issuances := issuances + [request])
    }
  }

  /** What a transaction sees of the chain and of the contracts it calls:
      the caller, the contract's owner, the block timestamp, the attached
      payment, which addresses are smart contracts, the signer the manager
      contract designates (None when that call fails), the signature
      verifier, and the swap aggregator. */
  datatype Env = Env(
    caller: Address,
    owner: Address,
    now: nat,
    payment: Payment,
    smartContracts: set<Address>,
    signer: Option<Address>,
    verify: Verifier,
    aggregate: Aggregator)
  {
    /** Something is attached to the call; an endpoint that is not payable refuses it. */
    predicate Paid()
    {
      payment.amount > 0
    }

    /** The EGLD attached to the call; an ESDT payment carries none. */
    function EgldValue(): nat
    {
      if payment.token.Egld? then payment.amount else 0
    }
  }

  class Ticketing {
    var inventory: Inventory
    var sales: Sales
    var collections: Collections
    /** The platform's cut in basis points. */
    var fees: nat
    var ledger: Ledger
    var host: Host

    /** The storage invariant: the catalogue's, the collection set's and the
        income map's, and a fee below 100%. */
    ghost predicate Valid()
      reads this
    {
      inventory.Ok() && collections.Ok() && fees < ROYALTIES_MAX && ledger.Ok()
    }

    /** A freshly deployed contract: every storage slot empty, the fee 0. */
    constructor ()
      ensures Valid()
      ensures inventory == EmptyInventory && sales == Sales(map[], map[], map[])
      ensures collections == Collections(map[], [], map[]) && fees == 0
      ensures ledger == Ledger([], map[]) && host == Host(map[], [], [], [])
    {
      inventory := EmptyInventory;
      sales := Sales(map[], map[], map[]);
      collections := Collections(map[], [], map[]);
      fees := 0;
      ledger := Ledger([], map[]);
      host := Host(map[], [], [], []);
      EmptyInventoryOk();
    }
  }
}
