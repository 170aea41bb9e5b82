/** The read-and-decide parts of the sale pipeline: per-user limits, sold-out
    checks, price lookup and payment reconciliation, the identity payload,
    ticket naming and the fee split. None of them touches storage. */
module Common {
  import opened Types

  // ---------------------------------------------------------------- limits

  /** A per-user cap admits `quantity` more on top of `count`; a cap of 0 means unlimited. */
  predicate WithinCap(count: nat, quantity: nat, cap: nat)
  {
    cap == 0 || count + quantity <= cap
  }

  /** The caller's purchases so far, at stage, type and event level. */
  datatype Counts = Counts(stage: nat, ticketType: nat, event: nat)

  /** Per-user limits, checked stage first, then type, then event. */
  function CheckBuysLimits(counts: Counts, quantity: nat, event: Event, ticketType: TicketType, stage: TicketStage): (r: Outcome)
    ensures r == Pass <==>
      && WithinCap(counts.stage, quantity, stage.maxPerUser)
      && WithinCap(counts.ticketType, quantity, ticketType.maxPerUser)
      && WithinCap(counts.event, quantity, event.maxPerUser)
    ensures r == Fail(StageLimitExceeded) <==> !WithinCap(counts.stage, quantity, stage.maxPerUser)
    ensures r == Fail(TypeLimitExceeded) <==>
      WithinCap(counts.stage, quantity, stage.maxPerUser) && !WithinCap(counts.ticketType, quantity, ticketType.maxPerUser)
    ensures r == Fail(EventLimitExceeded) <==>
      && WithinCap(counts.stage, quantity, stage.maxPerUser)
      && WithinCap(counts.ticketType, quantity, ticketType.maxPerUser)
      && !WithinCap(counts.event, quantity, event.maxPerUser)
  {
    if stage.maxPerUser > 0 && counts.stage + quantity > stage.maxPerUser then Fail(StageLimitExceeded)
    else if ticketType.maxPerUser > 0 && counts.ticketType + quantity > ticketType.maxPerUser then Fail(TypeLimitExceeded)
    else if event.maxPerUser > 0 && counts.event + quantity > event.maxPerUser then Fail(EventLimitExceeded)
    else Pass
  }

  /** A cap equal to what the caller already holds admits nothing more. */
  lemma CapReachedRejects(counts: Counts, quantity: nat, event: Event, ticketType: TicketType, stage: TicketStage)
    requires stage.maxPerUser > 0 && counts.stage == stage.maxPerUser && quantity > 0
    ensures CheckBuysLimits(counts, quantity, event, ticketType, stage) == Fail(StageLimitExceeded)
  {
  }

  // -------------------------------------------------------------- sold out

  /** Minting `count` more keeps a running total within its limit. */
  predicate Fits(mintCount: nat, count: nat, limit: nat)
  {
    mintCount + count <= limit
  }

  /** Capacity checks in the order type, stage, event. */
  function CheckSoldOut(event: Event, ticketType: TicketType, stage: TicketStage, count: nat): (r: Outcome)
    ensures r == Pass <==>
      && Fits(ticketType.mintCount, count, ticketType.mintLimit)
      && Fits(stage.mintCount, count, stage.mintLimit)
      && Fits(event.mintCount, count, event.maxCapacity)
    ensures r == Fail(TypeSoldOut) <==> !Fits(ticketType.mintCount, count, ticketType.mintLimit)
    ensures r == Fail(StageSoldOut) <==>
      Fits(ticketType.mintCount, count, ticketType.mintLimit) && !Fits(stage.mintCount, count, stage.mintLimit)
    ensures r == Fail(EventSoldOut) <==>
      && Fits(ticketType.mintCount, count, ticketType.mintLimit)
      && Fits(stage.mintCount, count, stage.mintLimit)
      && !Fits(event.mintCount, count, event.maxCapacity)
  {
    if ticketType.mintLimit < ticketType.mintCount + count then Fail(TypeSoldOut)
    else if stage.mintLimit < stage.mintCount + count then Fail(StageSoldOut)
    else if event.maxCapacity < event.mintCount + count then Fail(EventSoldOut)
    else Pass
  }

  /** The stage-less capacity check: type, then event. */
  function CheckTypeSoldOut(event: Event, ticketType: TicketType, count: nat): (r: Outcome)
    ensures r == Pass <==>
      Fits(ticketType.mintCount, count, ticketType.mintLimit) && Fits(event.mintCount, count, event.maxCapacity)
    ensures r == Fail(TypeSoldOut) <==> !Fits(ticketType.mintCount, count, ticketType.mintLimit)
    ensures r == Fail(EventSoldOut) <==>
      Fits(ticketType.mintCount, count, ticketType.mintLimit) && !Fits(event.mintCount, count, event.maxCapacity)
  {
    if ticketType.mintLimit < ticketType.mintCount + count then Fail(TypeSoldOut)
    else if event.maxCapacity < event.mintCount + count then Fail(EventSoldOut)
    else Pass
  }

  /** The stage-less check is the full check with the stage test left out:
      whatever the full check admits it admits, and it reports a type or event
      failure exactly as the full check does. */
  lemma TypeSoldOutOmitsStage(event: Event, ticketType: TicketType, stage: TicketStage, count: nat)
    ensures CheckSoldOut(event, ticketType, stage, count) == Pass ==> CheckTypeSoldOut(event, ticketType, count) == Pass
    ensures CheckTypeSoldOut(event, ticketType, count) == Fail(TypeSoldOut) ==>
      CheckSoldOut(event, ticketType, stage, count) == Fail(TypeSoldOut)
    ensures Fits(stage.mintCount, count, stage.mintLimit) ==>
      CheckSoldOut(event, ticketType, stage, count) == CheckTypeSoldOut(event, ticketType, count)
  {
  }

  // ------------------------------------------------------------ time window

  /** The stage's sale window holds `now`; both ends are inclusive and an end time of 0 means open-ended. */
  predicate InWindow(stage: TicketStage, now: nat)
  {
    stage.startTime <= now && (stage.endTime == 0 || now <= stage.endTime)
  }

  // ------------------------------------------------------------ price table

  predicate Matches(p: EsdtPayment, token: Bytes, nonce: nat)
  {
    p.token == token && p.nonce == nonce
  }

  /** Entry `i` is the first price entry for (token, nonce). */
  predicate IsFirstMatch(prices: seq<EsdtPayment>, token: Bytes, nonce: nat, i: nat)
  {
    && i < |prices|
    && Matches(prices[i], token, nonce)
    && forall j :: 0 <= j < i ==> !Matches(prices[j], token, nonce)
  }

  /** The linear scan for the first price entry matching (token, nonce). */
  function Position(prices: seq<EsdtPayment>, token: Bytes, nonce: nat): (r: Option<nat>)
    ensures r.Some? ==> IsFirstMatch(prices, token, nonce, r.value)
    ensures r.None? <==> forall j :: 0 <= j < |prices| ==> !Matches(prices[j], token, nonce)
  {
    if prices == [] then None
    else if Matches(prices[0], token, nonce) then Some(0)
    else
      match Position(prices[1..], token, nonce)
      case None => None
      case Some(i) => Some(i + 1)
  }

  /** At most one entry is the first match, so the price is well defined even with duplicate entries. */
  lemma FirstMatchUnique(prices: seq<EsdtPayment>, token: Bytes, nonce: nat, i: nat, k: nat)
    requires IsFirstMatch(prices, token, nonce, i) && IsFirstMatch(prices, token, nonce, k)
    ensures i == k
  {
  }

  // ------------------------------------------------------- payment reconciliation

  /** A reconciled payment: what is settled, the unit price it was checked
      against, and what goes back to the buyer. */
  datatype Settlement = Settlement(payment: Payment, pricePerNft: nat, refund: Option<Payment>)

  function Refunded(refund: Option<Payment>): (r: nat)
    ensures refund.None? ==> r == 0
    ensures refund.Some? ==> r == refund.value.amount
  {
    if refund.Some? then refund.value.amount else 0
  }

  /** Direct mode: the attached payment must be exactly `quantity` times the
      first matching price; a payment no entry matches is refused first. */
  function DirectPayment(prices: seq<EsdtPayment>, quantity: nat, paid: Payment): (r: Result<Settlement>)
    ensures r == Failure(PaymentInvalid) <==> forall j :: 0 <= j < |prices| ==> !Matches(prices[j], Name(paid.token), paid.nonce)
    ensures forall i: nat {:trigger IsFirstMatch(prices, Name(paid.token), paid.nonce, i)} :: IsFirstMatch(prices, Name(paid.token), paid.nonce, i) ==>
      && (r.Success? <==> paid.amount == quantity * prices[i].amount)
      && (r.Failure? ==> r.error == PaymentAmountWrong)
      && (r.Success? ==> r.value == Settlement(paid, prices[i].amount, None))
  {
    match Position(prices, Name(paid.token), paid.nonce)
    case None => Failure(PaymentInvalid)
    case Some(i) =>
      var price := prices[i].amount;
      if quantity * price == paid.amount then Success(Settlement(paid, price, None))
      else Failure(PaymentAmountWrong)
  }

  /** Swap mode: the aggregator's output must match a price entry and cover
      the total; the total is settled and the surplus, if any, refunded in
      the output's token. */
  function SwapPayment(prices: seq<EsdtPayment>, quantity: nat, output: EsdtPayment): (r: Result<Settlement>)
    ensures r == Failure(SwapInvalid) <==> forall j :: 0 <= j < |prices| ==> !Matches(prices[j], output.token, output.nonce)
    ensures forall i: nat {:trigger IsFirstMatch(prices, output.token, output.nonce, i)} :: IsFirstMatch(prices, output.token, output.nonce, i) ==>
      && (r.Success? <==> quantity * prices[i].amount <= output.amount)
      && (r.Failure? ==> r.error == SwapUnderpaid)
      && (r.Success? ==> r.value.pricePerNft == prices[i].amount)
    ensures r.Success? ==>
      && r.value.payment == Payment(Parse(output.token), output.nonce, quantity * r.value.pricePerNft)
      && r.value.payment.amount + Refunded(r.value.refund) == output.amount
      && (r.value.refund.Some? <==> r.value.payment.amount < output.amount)
      && (r.value.refund.Some? ==> r.value.refund.value.token == Parse(output.token) && r.value.refund.value.nonce == output.nonce)
  {
    match Position(prices, output.token, output.nonce)
    case None => Failure(SwapInvalid)
    case Some(i) =>
      var price := prices[i].amount;
      var total := quantity * price;
      if total > output.amount then Failure(SwapUnderpaid)
      else
        var token := Parse(output.token);
        var refund := if output.amount > total then Some(Payment(token, output.nonce, output.amount - total)) else None;
        Success(Settlement(Payment(token, output.nonce, total), price, refund))
  }

  /** The aggregator: swaps an amount of a token along the given steps within
      the given limits, or fails (None), which aborts the purchase. */
  type Aggregator = (TokenId, nat, seq<Bytes>, seq<Bytes>) -> Option<EsdtPayment>

  /** Swap mode is taken only when both the steps and the limits are supplied. */
  function CommonPaymentCheck(
    stage: TicketStage, quantity: nat, paid: Payment,
    swaps: Option<seq<Bytes>>, limits: Option<seq<Bytes>>, aggregate: Aggregator): (r: Result<Settlement>)
    ensures !(swaps.Some? && limits.Some?) ==> r == DirectPayment(stage.prices, quantity, paid)
    ensures swaps.Some? && limits.Some? ==>
      r == match aggregate(paid.token, paid.amount, swaps.value, limits.value)
           case None => Failure(SwapFailed)
           case Some(output) => SwapPayment(stage.prices, quantity, output)
    ensures r.Success? ==> r.value.payment.amount == quantity * r.value.pricePerNft
  {
    if swaps.Some? && limits.Some? then
      match aggregate(paid.token, paid.amount, swaps.value, limits.value)
      case None => Failure(SwapFailed)
      case Some(output) => SwapPayment(stage.prices, quantity, output)
    else
      DirectPayment(stage.prices, quantity, paid)
  }

  // -------------------------------------------------------------- decimals

  predicate IsDigit(b: byte)
  {
    48 <= b <= 57
  }

  predicate AllDigits(s: Bytes)
  {
    forall i :: 0 <= i < |s| ==> IsDigit(s[i])
  }

  /** The decimal rendering of a number, most significant digit first. */
  function Decimal(n: nat): (r: Bytes)
    ensures |r| >= 1 && AllDigits(r)
  {
    if n < 10 then [(48 + n) as byte] else Decimal(n / 10) + [(48 + n % 10) as byte]
  }

  /** Reads a string of decimal digits back as a number. */
  function DecimalValue(s: Bytes): nat
    requires AllDigits(s)
  {
    if s == [] then 0 else DecimalValue(s[..|s| - 1]) * 10 + (s[|s| - 1] as int - 48)
  }

  lemma {:induction false} DecimalRoundTrip(n: nat)
    ensures DecimalValue(Decimal(n)) == n
  {
    if n >= 10 {
      DecimalRoundTrip(n / 10);
      var s := Decimal(n);
      assert s[..|s| - 1] == Decimal(n / 10);
    }
  }

  /** Different numbers render differently. */
  lemma DecimalInjective(a: nat, b: nat)
    requires a != b
    ensures Decimal(a) != Decimal(b)
  {
    DecimalRoundTrip(a);
    DecimalRoundTrip(b);
  }

  // -------------------------------------------------------------- identity

  const HAS_KYC_TAG: Bytes := [104, 97, 115, 95, 107, 121, 99] // "has_kyc"
  const BOT_PROTECTION_TAG: Bytes := [98, 111, 116, 95, 112, 114, 111, 116, 101, 99, 116, 105, 111, 110] // "bot_protection"

  /** The purchase intent a signer attests: caller, event, type, stage, quantity and the mode's tag, concatenated. */
  function Payload(caller: Address, event: Event, ticketType: TicketType, stage: TicketStage, quantity: nat, tag: Bytes): (r: Bytes)
    ensures |r| >= |caller| && r[..|caller|] == caller
    ensures |r| >= |tag| && r[|r| - |tag|..] == tag
  {
    caller + event.id + ticketType.id + stage.id + Decimal(quantity) + tag
  }

  /** A payload attests one quantity only. */
  lemma PayloadBindsQuantity(caller: Address, event: Event, ticketType: TicketType, stage: TicketStage, a: nat, b: nat, tag: Bytes)
    requires a != b
    ensures Payload(caller, event, ticketType, stage, a, tag) != Payload(caller, event, ticketType, stage, b, tag)
  {
    var prefix := caller + event.id + ticketType.id + stage.id;
    var pa := Payload(caller, event, ticketType, stage, a, tag);
    var pb := Payload(caller, event, ticketType, stage, b, tag);
    assert pa == prefix + Decimal(a) + tag;
    assert pb == prefix + Decimal(b) + tag;
    assert pa[|prefix|..|pa| - |tag|] == Decimal(a);
    assert pb[|prefix|..|pb| - |tag|] == Decimal(b);
    DecimalInjective(a, b);
  }

  /** The signature verifier: signer, message, signature. */
  type Verifier = (Address, Bytes, Bytes) -> bool

  /** The data is the expected payload and the designated signer signed it. */
  predicate Attested(payload: Bytes, signature: Option<Bytes>, data: Option<Bytes>, signer: Option<Address>, verify: Verifier)
  {
    data == Some(payload) && signature.Some? && signer.Some? && verify(signer.value, payload, signature.value)
  }

  /** The identity gate: KYC takes precedence over bot protection; with neither flag no check is made.
      `signer` is the registry's answer, None when that lookup fails. */
  function CheckKyc(
    event: Event, ticketType: TicketType, stage: TicketStage, caller: Address, quantity: nat,
    signature: Option<Bytes>, data: Option<Bytes>, signer: Option<Address>, verify: Verifier): (r: Outcome)
    ensures !event.hasKyc && !event.botProtection ==> r == Pass
    ensures event.hasKyc ==>
      (r == Pass <==> Attested(Payload(caller, event, ticketType, stage, quantity, HAS_KYC_TAG), signature, data, signer, verify))
    ensures !event.hasKyc && event.botProtection ==>
      (r == Pass <==> Attested(Payload(caller, event, ticketType, stage, quantity, BOT_PROTECTION_TAG), signature, data, signer, verify))
    ensures event.hasKyc && data.None? ==> r == Fail(DataMissing)
    ensures !event.hasKyc && event.botProtection && signature.None? ==> r == Fail(SignatureMissing)
  {
    if event.hasKyc then
      var payload := Payload(caller, event, ticketType, stage, quantity, HAS_KYC_TAG);
      if data.None? then Fail(DataMissing)
      else if payload != data.value then Fail(PayloadInvalid)
      else if signer.None? then Fail(SignerUnavailable)
      else if signature.None? then Fail(SignatureMissing)
      else if !verify(signer.value, data.value, signature.value) then Fail(SignatureInvalid)
      else Pass
    else if event.botProtection then
      var payload := Payload(caller, event, ticketType, stage, quantity, BOT_PROTECTION_TAG);
      if signature.None? then Fail(SignatureMissing)
      else if data.None? then Fail(DataMissing)
      else if payload != data.value then Fail(PayloadInvalid)
      else if signer.None? then Fail(SignerUnavailable)
      else if !verify(signer.value, data.value, signature.value) then Fail(SignatureInvalid)
      else Pass
    else Pass
  }

  // ------------------------------------------------------------ minting

  /** The recipient test and the unwrap of the stage that open the mint:
      a smart-contract recipient is refused, and an absent stage aborts. */
  function SendNftGuard(to: Address, smartContracts: set<Address>, stage: Option<TicketStage>): (r: Result<TicketStage>)
    ensures r.Success? <==> to !in smartContracts && stage.Some?
    ensures r.Success? ==> r.value == stage.value
    ensures to in smartContracts ==> r == Failure(OnlyUserAccounts)
    ensures to !in smartContracts && stage.None? ==> r == Failure(StageMissing)
  {
    if to in smartContracts then Failure(OnlyUserAccounts)
    else if stage.None? then Failure(StageMissing)
    else Success(stage.value)
  }

  /** A ticket's name: the type's base name, followed by the local nonce when the event appends numbers. */
  function NftName(nonce: nat, baseName: Bytes, event: Event): (r: Bytes)
    ensures |baseName| <= |r| && r[..|baseName|] == baseName
    ensures !event.appendNumber ==> r == baseName
    ensures event.appendNumber ==> r[|baseName|..] == Decimal(nonce)
  {
    if event.appendNumber then baseName + Decimal(nonce) else baseName
  }

  /** With numbering on, tickets with different nonces get different names. */
  lemma NftNamesDistinct(a: nat, b: nat, baseName: Bytes, event: Event)
    requires event.appendNumber && a != b
    ensures NftName(a, baseName, event) != NftName(b, baseName, event)
  {
    DecimalInjective(a, b);
  }

  // ------------------------------------------------------------ fees

  /** `total * percentage / 10_000`, rounded down. */
  function CutAmount(total: nat, percentage: nat): (r: nat)
    ensures r * ROYALTIES_MAX <= total * percentage < (r + 1) * ROYALTIES_MAX
  {
    total * percentage / ROYALTIES_MAX
  }

  /** The platform cut and the organizer share, each rounded down, add up to
      the amount or to one less: the split never creates value and loses at most one unit. */
  lemma CutSplit(amount: nat, fee: nat)
    requires fee <= ROYALTIES_MAX
    ensures amount - 1 <= CutAmount(amount, fee) + CutAmount(amount, ROYALTIES_MAX - fee) <= amount
  {
    var p := CutAmount(amount, fee);
    var o := CutAmount(amount, ROYALTIES_MAX - fee);
    assert amount * fee + amount * (ROYALTIES_MAX - fee) == amount * ROYALTIES_MAX;
    assert (p + o) * ROYALTIES_MAX <= amount * ROYALTIES_MAX;
    assert amount * ROYALTIES_MAX < (p + o + 2) * ROYALTIES_MAX;
  }
}
