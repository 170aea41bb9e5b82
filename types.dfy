/** Records of the ticketing contract and the values that flow through its endpoints.

    Byte buffers (ids, names, payloads) are sequences of bytes; the contract's
    `u32`/`u64`/`BigUint` quantities are unbounded naturals. */
module Types {

  type byte = b: int | 0 <= b < 256

  type Bytes = seq<byte>

  /** Ids of events, ticket types and stages are free-form buffers. */
  type Id = Bytes

  /** A wallet or contract address, in its managed-buffer form. */
  type Address = Bytes

  /** Cost of issuing an event's NFT collection: exactly 0.05 EGLD. */
  const NFT_ISSUE_COST: nat := 50_000_000_000_000_000
  /** Fee denominator: fees are basis points. */
  const ROYALTIES_MAX: nat := 10_000
  /** Every minted ticket is a single NFT unit. */
  const NFT_AMOUNT: nat := 1

  /** The name the host gives the native currency ("EGLD"). */
  const EGLD_NAME: Bytes := [69, 71, 76, 68]

  /** A payment token that may be the native currency or an ESDT token. */
  datatype TokenId = Egld | Esdt(ticker: Bytes)

  /** The token's name buffer. */
  function Name(t: TokenId): (r: Bytes)
    ensures t.Egld? ==> r == EGLD_NAME
  {
    match t
    case Egld => EGLD_NAME
    case Esdt(ticker) => ticker
  }

  /** Reads a name buffer back as a payment token; "EGLD" means the native currency. */
  function Parse(name: Bytes): (r: TokenId)
    ensures Name(r) == name
    ensures r.Egld? <==> name == EGLD_NAME
  {
    if name == EGLD_NAME then Egld else Esdt(name)
  }

  /** Parsing a name gives the token back, except for an ESDT ticker spelled like the native currency. */
  lemma ParseName(t: TokenId)
    requires t.Esdt? ==> t.ticker != EGLD_NAME
    ensures Parse(Name(t)) == t
  {
  }

  /** An ESDT payment: price entries, aggregator output and minted NFTs. */
  datatype EsdtPayment = EsdtPayment(token: Bytes, nonce: nat, amount: nat)

  /** A payment in the native currency or an ESDT token. */
  datatype Payment = Payment(token: TokenId, nonce: nat, amount: nat)

  datatype Event = Event(
    token: Bytes,
    transferRole: bool,
    id: Id,
    maxCapacity: nat,
    maxPerUser: nat,
    fees: nat,
    mintCount: nat,
    hasKyc: bool,
    refundPolicy: bool,
    appendNumber: bool,
    botProtection: bool)
  {
    /** The record with `n` more tickets counted as minted. */
    function Counted(n: nat): (r: Event)
      ensures r.mintCount == mintCount + n && r.id == id && r.token == token && r.maxCapacity == maxCapacity
      ensures r.(mintCount := mintCount) == this
    {
      this.(mintCount := mintCount + n)
    }
  }

  datatype EventArgs = EventArgs(
    maxCapacity: nat,
    maxPerUser: nat,
    hasKyc: bool,
    refundPolicy: bool,
    appendNumber: bool,
    botProtection: bool)

  datatype TicketType = TicketType(
    baseName: Bytes,
    image: Bytes,
    royalties: nat,
    id: Id,
    maxPerUser: nat,
    mintLimit: nat,
    mintCount: nat)
  {
    /** The record with `n` more tickets counted as minted. */
    function Counted(n: nat): (r: TicketType)
      ensures r.mintCount == mintCount + n && r.id == id && r.mintLimit == mintLimit
      ensures r.(mintCount := mintCount) == this
    {
      this.(mintCount := mintCount + n)
    }
  }

  datatype TicketTypeArgs = TicketTypeArgs(
    baseName: Bytes,
    image: Bytes,
    royalties: nat,
    id: Id,
    maxPerUser: nat,
    mintLimit: nat)

  datatype TicketStage = TicketStage(
    prices: seq<EsdtPayment>,
    id: Id,
    ticketTypeId: Id,
    hasWhitelist: bool,
    maxPerUser: nat,
    mintLimit: nat,
    mintCount: nat,
    startTime: nat,
    endTime: nat,
    active: bool)
  {
    /** The record with `n` more tickets counted as minted. */
    function Counted(n: nat): (r: TicketStage)
      ensures r.mintCount == mintCount + n && r.id == id && r.ticketTypeId == ticketTypeId && r.prices == prices
      ensures r.(mintCount := mintCount) == this
    {
      this.(mintCount := mintCount + n)
    }
  }

  datatype TicketStageArgs = TicketStageArgs(
    prices: seq<EsdtPayment>,
    id: Id,
    hasWhitelist: bool,
    maxPerUser: nat,
    mintLimit: nat,
    startTime: nat,
    endTime: nat,
    active: bool)

  /** The reasons an endpoint aborts; each stands for one `require!` or failing call. */
  datatype Error =
    | OnlyOwner
    | EventIdInvalid          // is_event_valid
    | EventInvalid            // does_event_exists
    | TicketTypeIdInvalid     // is_ticket_type_valid
    | TicketTypeInvalid       // does_ticket_type_exists
    | TicketStageIdInvalid    // is_ticket_stage_valid
    | SaleNotActive
    | StageNotStarted
    | StageEnded
    | NotWhitelisted
    | ZeroQuantity
    | StageLimitExceeded
    | TypeLimitExceeded
    | EventLimitExceeded
    | TypeSoldOut
    | StageSoldOut
    | EventSoldOut
    | PaymentInvalid
    | PaymentAmountWrong
    | SwapFailed
    | SwapInvalid
    | SwapUnderpaid
    | DataMissing
    | SignatureMissing
    | PayloadInvalid
    | SignerUnavailable
    | SignatureInvalid
    | OnlyUserAccounts
    | StageMissing            // unwrap of an absent stage
    | NotPayable              // a payment attached to an endpoint that accepts none
    | IssueCostWrong
    | IssuePending            // the event's token mapper awaits an issuance
    | TokenIdSet              // the event's token mapper already holds a collection
    | EventIdUsed
    | TicketTypeIdUsed
    | StageKeyExists
    | FeeTooHigh
    | RecordMissing           // get of an empty storage slot
    | IncomeMissing

  datatype Option<T> = None | Some(value: T)

  datatype Result<T> = Success(value: T) | Failure(error: Error)

  datatype Outcome = Pass | Fail(error: Error)
}
