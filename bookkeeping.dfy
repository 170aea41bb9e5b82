/** Minting with its bookkeeping, and the distribution of a settled payment. */
module Bookkeeping {
  import opened Types
  import opened Mappers
  import opened Common
  import opened Catalogue
  import opened Storage

  // ------------------------------------------------------------ minting

  /** The one-unit payments for `n` NFTs the host creates in a row after the collection's first `created` ones. */
  function NftPayments(token: Bytes, created: nat, n: nat): (r: seq<EsdtPayment>)
    ensures |r| == n
    ensures forall i :: 0 <= i < n ==> r[i] == EsdtPayment(token, created + i + 1, NFT_AMOUNT)
  {
    seq(n, i requires 0 <= i < n => EsdtPayment(token, created + i + 1, NFT_AMOUNT))
  }

  /** The NFTs a mint of `n` tickets creates: the i-th gets host nonce
      `created + i + 1` and is named after local number `nonce + i`. */
  function NewNfts(event: Event, ticketType: TicketType, nonce: nat, created: nat, n: nat): (r: seq<Nft>)
    ensures |r| == n
    ensures forall i :: 0 <= i < n ==>
      r[i] == Nft(event.token, created + i + 1, NftName(nonce + i, ticketType.baseName, event), ticketType.royalties, ticketType.image)
  {
    seq(n, i requires 0 <= i < n =>
      Nft(event.token, created + i + 1, NftName(nonce + i, ticketType.baseName, event), ticketType.royalties, ticketType.image))
  }

  /** A batch of tickets carries pairwise different nonces, and pairwise different names when the event numbers them. */
  lemma NewNftsDistinct(event: Event, ticketType: TicketType, nonce: nat, created: nat, n: nat, i: nat, j: nat)
    requires i < j < n
    ensures NewNfts(event, ticketType, nonce, created, n)[i].nonce != NewNfts(event, ticketType, nonce, created, n)[j].nonce
    ensures event.appendNumber ==>
      NewNfts(event, ticketType, nonce, created, n)[i].name != NewNfts(event, ticketType, nonce, created, n)[j].name
  {
    if event.appendNumber {
      NftNamesDistinct(nonce + i, nonce + j, ticketType.baseName, event);
    }
  }

  /** ESDT payments as payments of the ESDT token. */
  function AsPayments(s: seq<EsdtPayment>): (r: seq<Payment>)
    ensures |r| == |s|
    ensures forall i :: 0 <= i < |s| ==> r[i] == Payment(Esdt(s[i].token), s[i].nonce, s[i].amount)
  {
    seq(|s|, i requires 0 <= i < |s| => Payment(Esdt(s[i].token), s[i].nonce, s[i].amount))
  }

  /** The host after it created `n` NFTs in the event's collection, the
      i-th named after local number `nonce + i`. */
  function WithNfts(h: Host, event: Event, ticketType: TicketType, nonce: nat, n: nat): Host
  {
    var created := h.Created(event.token);
    h.(created := if n == 0 then h.created else h.created[event.token := created + n],
       minted := h.minted + NewNfts(event, ticketType, nonce, created, n))
  }

  /** The host after a mint of `n` tickets to `to`: `n` more NFTs in the
      event's collection, and one transfer carrying all of them. */
  function Minted(h: Host, event: Event, ticketType: TicketType, nonce: nat, n: nat, to: Address): Host
  {
    WithNfts(h, event, ticketType, nonce, n).Sent([Transfer(to, AsPayments(NftPayments(event.token, h.Created(event.token), n)))])
  }

  /** A mint creates exactly `n` NFTs, all new in their collection, and
      sends each of them, once, to the recipient. */
  lemma MintedDelivers(h: Host, event: Event, ticketType: TicketType, nonce: nat, n: nat, to: Address)
    ensures var h' := Minted(h, event, ticketType, nonce, n, to);
      && h'.Created(event.token) == h.Created(event.token) + n
      && |h'.minted| == |h.minted| + n
      && h'.transfers[..|h.transfers|] == h.transfers && |h'.transfers| == |h.transfers| + 1
      && h'.transfers[|h.transfers|].to == to
      && |h'.transfers[|h.transfers|].payments| == n
      && (forall i :: 0 <= i < n ==>
            && h'.minted[|h.minted| + i].nonce > h.Created(event.token)
            && h'.transfers[|h.transfers|].payments[i] ==
                 Payment(Esdt(event.token), h'.minted[|h.minted| + i].nonce, NFT_AMOUNT))
  {
  }

  /** The catalogue after a mint of `n` stores the stage, ticket-type and
      event records, each with `n` more tickets counted, in that order; a
      stage new to its ticket type's stage map joins the end of its key order. */
  function Restocked(inv: Inventory, event: Event, ticketType: TicketType, stage: TicketStage, n: nat): Inventory
  {
    inv.WithStage(event.id, ticketType.id, stage.Counted(n))
       .WithTypeRecord(event.id, ticketType.Counted(n))
       .WithEvent(event.Counted(n))
  }

  /** Storing a ticket type's records back, each with more tickets counted,
      keeps the catalogue invariant. */
  lemma RestockedOk(inv: Inventory, event: Event, ticketType: TicketType, stage: TicketStage, n: nat)
    requires inv.Ok()
    requires (event.id, ticketType.id) in inv.ticketTypeById && stage.ticketTypeId == ticketType.id
    ensures Restocked(inv, event, ticketType, stage, n).Ok()
  {
    WithStageOk(inv, event.id, ticketType.id, stage.Counted(n));
    var i1 := inv.WithStage(event.id, ticketType.id, stage.Counted(n));
    WithTypeRecordOk(i1, event.id, ticketType.Counted(n));
    WithEventOk(i1.WithTypeRecord(event.id, ticketType.Counted(n)), event.Counted(n));
  }

  /** Creates `n` NFTs of the event's collection, the i-th named after local
      number `nonce + i`, and returns them as one-unit payments. */
  method CreateNfts(t: Ticketing, event: Event, ticketType: TicketType, nonce: nat, n: nat)
    returns (payments: seq<EsdtPayment>)
    modifies t`host
    ensures payments == NftPayments(event.token, old(t.host.Created(event.token)), n)
    ensures t.host == WithNfts(old(t.host), event, ticketType, nonce, n)
  {
    ghost var created0 := t.host.Created(event.token);
    payments := [];
    var i := 0;
    while i < n
      invariant 0 <= i <= n
      invariant payments == NftPayments(event.token, created0, i)
      invariant t.host == old(t.host).(
        created := if i == 0 then old(t.host.created) else old(t.host.created)[event.token := created0 + i],
        minted := old(t.host.minted) + NewNfts(event, ticketType, nonce, created0, i))
    {
      var name := NftName(nonce + i, ticketType.baseName, event);
      // the host gives the NFT the collection's next nonce
      var nftNonce := t.host.Created(event.token) + 1;
      t.host := t.host.(created := t.host.created[event.token := nftNonce],
                        minted := t.host.minted + [Nft(event.token, nftNonce, name, ticketType.royalties, ticketType.image)]);
      payments := payments + [EsdtPayment(event.token, nftNonce, NFT_AMOUNT)];
      i := i + 1;
    }
  }

  /** Mints `n` tickets of a stage to `to` and books them: the collection's
      numbering, the three purchase counters and the three mint counts move
      by `n`, the tickets go to `to` in one transfer, and the updated records
      are stored. `soldOut` is what the mint log reports: the event reached
      exactly its capacity. The records are the ones just read from storage. */
  method Mint(t: Ticketing, event: Event, ticketType: TicketType, stage: TicketStage, to: Address, n: nat)
    returns (payments: seq<EsdtPayment>, soldOut: bool)
    requires t.Valid()
    requires (event.id, ticketType.id) in t.inventory.ticketTypeById && stage.ticketTypeId == ticketType.id
    modifies t`host, t`sales, t`collections, t`inventory
    ensures t.Valid()
    ensures payments == NftPayments(event.token, old(t.host.Created(event.token)), n)
    ensures t.host == Minted(old(t.host), event, ticketType, old(t.collections.NextNonce(event.token)), n, to)
    ensures t.sales == old(t.sales).Sold(to, event.id, ticketType.id, stage.id, n)
    ensures t.collections == old(t.collections).Advanced(event.token, n)
    ensures t.inventory == Restocked(old(t.inventory), event, ticketType, stage, n)
    ensures soldOut <==> event.mintCount + n == event.maxCapacity
  {
    hide Inventory.Ok;  // the catalogue invariant follows from RestockedOk alone
    var nonce := t.collections.NextNonce(event.token);
    payments := CreateNfts(t, event, ticketType, nonce, n);
    t.sales := t.sales.Sold(to, event.id, ticketType.id, stage.id, n);
    AdvancedNonces(t.collections, event.token, n, event.token);
    t.collections := t.collections.Advanced(event.token, n);
    t.host := t.host.Sent([Transfer(to, AsPayments(payments))]);
    soldOut := event.mintCount + n == event.maxCapacity;
    RestockedOk(t.inventory, event, ticketType, stage, n);
    t.inventory := Restocked(t.inventory, event, ticketType, stage, n);
  }

  // ------------------------------------------------------------ income

  /** A payment is booked in the income map when it is fungible (nonce 0), not empty, and the organizer's share of it is not zero. */
  predicate Credits(payment: Payment, fee: nat)
    requires fee <= ROYALTIES_MAX
  {
    payment.nonce == 0 && payment.amount > 0 && CutAmount(payment.amount, ROYALTIES_MAX - fee) > 0
  }

  /** A map-mapper insertion into the income map: a new token joins the end of the key order. */
  function Put(l: Ledger, token: TokenId, entry: Payment): Ledger
  {
    Ledger(SetInsert(l.tokens, token), l.income[token := entry])
  }

  /** The income map after a payment: the token's entry grows by the payment's
      whole amount, or the payment becomes the entry, when the payment is booked at all. */
  function Credited(l: Ledger, payment: Payment, fee: nat): Ledger
    requires fee <= ROYALTIES_MAX
  {
    if !Credits(payment, fee) then l
    else if payment.token in l.income then Put(l, payment.token, l.income[payment.token].(amount := l.income[payment.token].amount + payment.amount))
    else Put(l, payment.token, payment)
  }

  /** Booking a payment adds its whole amount (not only the organizer's share)
      to its own token's entry, touches no other entry, and keeps the income
      map's invariant. */
  lemma CreditedAccrues(l: Ledger, payment: Payment, fee: nat, other: TokenId)
    requires fee <= ROYALTIES_MAX
    ensures Credited(l, payment, fee).Accrued(payment.token) == l.Accrued(payment.token) + (if Credits(payment, fee) then payment.amount else 0)
    ensures other != payment.token ==> Credited(l, payment, fee).Accrued(other) == l.Accrued(other)
    ensures l.Ok() ==> Credited(l, payment, fee).Ok()
  {
    if Credits(payment, fee) {
      var entry := if payment.token in l.income then l.income[payment.token].(amount := l.income[payment.token].amount + payment.amount) else payment;
      assert Credited(l, payment, fee) == Put(l, payment.token, entry);
      PutOk(l, payment.token, entry);
    }
  }

  lemma PutOk(l: Ledger, token: TokenId, entry: Payment)
    ensures Put(l, token, entry).Accrued(token) == entry.amount
    ensures forall k :: k != token ==> Put(l, token, entry).Accrued(k) == l.Accrued(k)
    ensures l.Ok() && entry.token == token && entry.nonce == 0 ==> Put(l, token, entry).Ok()
  {
  }

  /** A payment credits the organizer exactly when it is fungible and its
      amount times the organizer's share of 10 000 reaches 10 000: at a fee
      of 0 a single unit does, at a fee of 9 999 it takes 10 000 units, and
      at any fee below 100% a payment of 10 000 units or more always does. */
  lemma CreditsThreshold(payment: Payment, fee: nat)
    requires fee <= ROYALTIES_MAX
    ensures Credits(payment, fee) <==> payment.nonce == 0 && payment.amount * (ROYALTIES_MAX - fee) >= ROYALTIES_MAX
    ensures fee < ROYALTIES_MAX && payment.nonce == 0 && payment.amount >= ROYALTIES_MAX ==> Credits(payment, fee)
  {
    var share := ROYALTIES_MAX - fee;
    var cut := CutAmount(payment.amount, share);
    if cut > 0 {
      MulAtLeast(cut, ROYALTIES_MAX);
    }
    if payment.amount == 0 {
      assert payment.amount * share == 0;
    }
    if share > 0 {
      MulAtLeast(share, payment.amount);
    }
  }

  /** A positive factor does not shrink the other one. */
  lemma MulAtLeast(k: nat, x: nat)
    requires k > 0
    ensures k * x >= x && x * k >= x
  {
  }

  /** The platform's cut goes to the owner when the payment is fungible and the cut is not zero. */
  function PlatformTransfers(payment: Payment, fee: nat, owner: Address): (r: seq<Transfer>)
    ensures |r| <= 1
    ensures |r| == 1 <==> payment.nonce == 0 && CutAmount(payment.amount, fee) > 0
    ensures |r| == 1 ==> r[0] == Transfer(owner, [Payment(payment.token, 0, CutAmount(payment.amount, fee))])
  {
    if payment.nonce == 0 && payment.amount > 0 && CutAmount(payment.amount, fee) > 0 then
      [Transfer(owner, [Payment(payment.token, 0, CutAmount(payment.amount, fee))])]
    else []
  }

  /** Splits a settled payment: the platform's cut to the owner, and the
      payment booked in the income map. A royalty-bearing (non-zero nonce)
      or empty payment changes nothing. */
  method DistributeIncome(t: Ticketing, payment: Payment, owner: Address)
    requires t.fees <= ROYALTIES_MAX
    modifies t`ledger, t`host
    ensures t.ledger == Credited(old(t.ledger), payment, t.fees)
    ensures t.host == old(t.host).Sent(PlatformTransfers(payment, t.fees, owner))
  {
    if payment.nonce > 0 {
      // royalty-bearing payments are not distributed
    } else if payment.amount > 0 {
      var platformCut := CutAmount(payment.amount, t.fees);
      var ownerRevenue := CutAmount(payment.amount, ROYALTIES_MAX - t.fees);
      if platformCut > 0 {
        t.host := t.host.Sent([Transfer(owner, [Payment(payment.token, payment.nonce, platformCut)])]);
      }
      if ownerRevenue > 0 {
        if payment.token in t.ledger.income {
          var data := t.ledger.income[payment.token];
          data := data.(amount := data.amount + payment.amount);
          t.ledger := Put(t.ledger, payment.token, data);
        } else {
          t.ledger := Put(t.ledger, payment.token, payment);
        }
      }
    }
  }
}
