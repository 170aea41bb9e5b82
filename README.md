# Ticketing contract model

A model of the MultiversX ticket-sale smart contract: an owner creates events (each with its own NFT collection), ticket types under an event and sale stages under a ticket type. Buyers pay for tickets at a stage, which mints them as NFTs. The model covers:

- the pre-sale checks (records exist, stage active and in its window, whitelist, positive quantity, per-user limits, capacities);
- the payment check, direct or through a swap aggregator, which refunds any surplus;
- the KYC / bot-protection signature gate;
- the mint with its counters;
- the platform fee split and the income ledger;
- the owner's management endpoints, the collection-issuance callback and the read-only views.

Layout, one module per file:

- `types.dfy` (`Types`): the records `Event`, `TicketType` and `TicketStage`, their argument records, tokens, payments and the abort reasons (`Error`).
- `mappers.dfy` (`Mappers`): the two storage mappers the contract is built on.
  - An unordered set mapper is a distinct sequence with append-on-insert and swap-remove.
  - A map mapper has keys in insertion order beside a key-to-value map.
- `common.dfy` (`Common`): the pure decisions of `common.rs`, namely limits, sold-out checks, the first-match price lookup, payment reconciliation, the identity payload, decimal rendering, ticket naming and the fee cut.
- `catalogue.dfy` (`Catalogue`): the events, ticket types, stages and whitelists. Every write is an update function that keeps the catalogue invariant `Inventory.Ok`.
- `storage.dfy` (`Storage`):
  - the remaining storage: purchase counters, collections, the income ledger;
  - what the host records for the contract: created NFTs, outgoing transfers, requested issuances;
  - the environment of a transaction (`Env`);
  - the `Ticketing` class, whose fields are the storage groups and whose `Valid` is the storage invariant.
- `bookkeeping.dfy` (`Bookkeeping`): `send_nft` as the imperative `CreateNfts`/`Mint`, and `distribute_income` as `DistributeIncome`, each proved against specification functions (`Minted`, `Restocked`, `Credited`, `PlatformTransfers`).
- `validation.dfy` (`Validation`): the storage reads that abort on a missing record, and `common_buy_check`.
- `settings.dfy` (`Settings`): `set_cut_fees` and `issue_callback`.
- `ticketing.dfy` (`Endpoints`): `init`, `buy`, `giveaway` and `giveaway_admin`.
- `manage.dfy` (`Manage`): the ten owner endpoints of `manage.rs`.
- `views.dfy` (`Views`): the seven views of `views.rs`.

How the model represents things:

- Endpoints are methods on a `Ticketing` object. Each returns an `Outcome`/`Result` whose failure carries the first `require!` that fails.
- A failing endpoint leaves storage as it was, since the chain reverts the transaction.
- Cross-contract calls are fields of `Env`: the manager contract's signer, the Ed25519 verifier and the swap aggregator. So are the block timestamp, the attached payment and the smart-contract test of an address.

## Model

| member | source | states |
|---|---|---|
| Types.Name | ticketing/src/common.rs:335-339 | the native currency's name buffer is "EGLD"; the direct-mode lookup compares price entries against this name |
| Types.Parse | ticketing/src/common.rs:318-320 | reading a name back gives a token with that name, and it is the native currency exactly when the name is "EGLD" |
| Types.ParseName | ticketing/src/common.rs:318-320 | parsing a token's name gives the token back, except for an ESDT ticker spelled "EGLD" |
| Types.Event.Counted | ticketing/src/common.rs:125 | the event's mint count grows by the minted number and every other field is kept |
| Types.TicketType.Counted | ticketing/src/common.rs:126 | the ticket type's mint count grows by the minted number and every other field is kept |
| Types.TicketStage.Counted | ticketing/src/common.rs:127-129 | the stage's mint count grows by the minted number and every other field is kept |
| Mappers.SetInsert | ticketing/src/manage.rs:31-34 | set-mapper insert: the items are the old ones plus the new one, old order kept as a prefix, no repeats introduced |
| Mappers.SwapRemove | ticketing/src/settings.rs:45 | set-mapper swap_remove: the removed item is gone, every other item stays, length drops by one; an absent item changes nothing |
| Mappers.DistinctCardinality | ticketing/src/views.rs:76-85 | a set mapper's length equals the number of different items it holds |
| Mappers.Extended | ticketing/src/manage.rs:193-208 | set-mapper extend: inserting the items one by one keeps the old vector as a prefix and introduces no repeats |
| Mappers.ExtendedMembers | ticketing/src/manage.rs:193-208 | after extend, an item is present iff it was present before or is among the added items |
| Mappers.Pruned | ticketing/src/manage.rs:210-228 | swap-removing the items one by one introduces no repeats and never grows the vector |
| Mappers.PrunedMembers | ticketing/src/manage.rs:210-228 | after the removals, an item is present iff it was present before and is not among the removed items |
| Mappers.Without | ticketing/src/manage.rs:125-126 | map-mapper key removal: exactly the removed key leaves the key list, no repeats introduced |
| Mappers.InOrder | ticketing/src/views.rs:15-17 | the values of a map, one per listed key, in the order of the keys |
| Common.CheckBuysLimits | ticketing/src/common.rs:247-286 | passes iff each of the stage, type and event caps is 0 (unlimited) or admits the quantity; the stage cap is reported first, then the type cap, then the event cap |
| Common.CapReachedRejects | ticketing/src/common.rs:253-263 | a caller who already holds the stage cap cannot buy a positive quantity more |
| Common.CheckSoldOut | ticketing/src/common.rs:352-373 | passes iff type, stage and event capacities all fit the count; failures are reported in the order type, stage, event |
| Common.CheckTypeSoldOut | ticketing/src/common.rs:375-390 | passes iff type and event capacities fit; type reported before event |
| Common.TypeSoldOutOmitsStage | ticketing/src/common.rs:352-390 | the stage-less check admits whatever the full check admits, and agrees with it whenever the stage fits |
| Common.Position | ticketing/src/common.rs:306-309 | the index returned is the first price entry with the token and nonce; None iff no entry matches |
| Common.FirstMatchUnique | ticketing/src/common.rs:335-339 | the first matching entry is unique, so a price list with duplicates still gives one price |
| Common.Refunded | ticketing/src/common.rs:321-328 | no refund means nothing is refunded; a refund counts its whole amount |
| Common.DirectPayment | ticketing/src/common.rs:334-348 | fails with "Payment invalid" iff no entry matches the paid token and nonce; otherwise succeeds iff the payment is exactly quantity times the first match's price, settling the payment itself with no refund |
| Common.SwapPayment | ticketing/src/common.rs:299-333 | fails with "Swap invalid" iff no entry matches the aggregator output; otherwise succeeds iff the output covers quantity times the first match's price; settled amount plus refund equals the output, refund present iff there is a surplus, in the output's token and nonce |
| Common.CommonPaymentCheck | ticketing/src/common.rs:288-350 | swap mode iff both steps and limits are supplied (a failing aggregator aborts); otherwise direct mode; the settled amount is always quantity times the unit price |
| Common.Decimal | ticketing/src/common.rs:173 | a number renders as a non-empty string of decimal digits |
| Common.DecimalRoundTrip | ticketing/src/common.rs:173 | reading the rendering back gives the number |
| Common.DecimalInjective | ticketing/src/common.rs:173 | different numbers render differently |
| Common.Payload | ticketing/src/common.rs:167-174 | the expected payload starts with the caller's address and ends with the mode's tag |
| Common.PayloadBindsQuantity | ticketing/src/common.rs:167-174 | payloads for different quantities differ, so a signature authorises one quantity only |
| Common.CheckKyc | ticketing/src/common.rs:154-200 | no flag: passes; KYC (taking precedence): passes iff the data is the caller/event/type/stage/quantity/"has_kyc" payload and the designated signer signed it; bot protection: the same with "bot_protection"; missing data (KYC) and missing signature (bot protection) are the first failures |
| Common.SendNftGuard | ticketing/src/common.rs:74-79 | a smart-contract recipient is refused first; then an absent stage aborts; otherwise the stage is returned |
| Common.NftName | ticketing/src/common.rs:428-439 | the name is the base name, followed by the decimal nonce iff the event appends numbers |
| Common.NftNamesDistinct | ticketing/src/common.rs:428-439 | with numbering on, different nonces give different names |
| Common.CutAmount | ticketing/src/common.rs:445-447 | the cut is total times percentage over 10 000, rounded down |
| Common.CutSplit | ticketing/src/common.rs:400-404 | platform cut plus organizer share is the amount or one less: the split never creates value |
| Catalogue.Inventory.WithEventId | ticketing/src/manage.rs:31-34 | the event id joins the event set |
| Catalogue.Inventory.WithoutEventId | ticketing/src/settings.rs:45 | the event id leaves the event set |
| Catalogue.Inventory.WithEvent | ticketing/src/settings.rs:40 | the event record is stored under its own id |
| Catalogue.Inventory.WithTypeRecord | ticketing/src/manage.rs:145 | the ticket-type record is stored under (event, its id) |
| Catalogue.Inventory.WithTicketType | ticketing/src/manage.rs:58-70 | the id joins the event's type list and the record is stored |
| Catalogue.Inventory.WithoutTicketType | ticketing/src/manage.rs:108-110 | the type's record, stage map and every stage record are gone; the event set, the event records and the whitelists are kept |
| Catalogue.Inventory.WithStage | ticketing/src/manage.rs:100 | map-mapper insert: the stage id is a key of its type's stage map and the record is stored under it |
| Catalogue.Inventory.WithoutStage | ticketing/src/manage.rs:125-126 | map-mapper remove: a present key loses its record; an absent key changes nothing |
| Catalogue.Inventory.WithWhitelist | ticketing/src/manage.rs:206-208 | the stage's whitelist becomes the given wallets |
| Catalogue.StagesOutside | ticketing/src/manage.rs:108 | clearing a stage map keeps exactly the stage records of the other ticket types, unchanged |
| Catalogue.WithEventIdOk | ticketing/src/manage.rs:31-34 | adding an event id keeps the catalogue invariant |
| Catalogue.WithoutEventIdOk | ticketing/src/settings.rs:44-45 | removing an event id keeps the catalogue invariant |
| Catalogue.WithEventOk | ticketing/src/settings.rs:27-40 | storing an event record keeps the catalogue invariant |
| Catalogue.WithTypeRecordOk | ticketing/src/manage.rs:137-146 | overwriting an existing ticket-type record under its id keeps the invariant |
| Catalogue.WithTicketTypeOk | ticketing/src/manage.rs:48-72 | creating a ticket type keeps the invariant |
| Catalogue.WithoutTicketTypeOk | ticketing/src/manage.rs:103-112 | removing a ticket type with its stages keeps the invariant |
| Catalogue.WithStageOk | ticketing/src/manage.rs:74-101 | inserting a stage of an existing ticket type that names that type keeps the invariant |
| Catalogue.WithoutStageOk | ticketing/src/manage.rs:114-129 | removing a stage key keeps the invariant |
| Catalogue.WithWhitelistOk | ticketing/src/manage.rs:193-228 | storing a repeat-free whitelist keeps the invariant |
| Catalogue.EmptyInventoryOk | ticketing/src/ticketing.rs:31-34 | the empty catalogue of a fresh deployment satisfies the invariant |
| Storage.SoldCounts | ticketing/src/common.rs:111-118 | a sale of n raises the buyer's event, type and stage counters by n and no other counter |
| Storage.AdvancedNonces | ticketing/src/common.rs:81-121 | numbering n tickets moves the collection's next local nonce by n and no other collection's |
| Storage.RegisteredNonces | ticketing/src/settings.rs:24-26 | a new collection starts numbering at 1, an existing counter is kept, the collection joins the set and the event's token mapper holds it |
| Storage.Collections.Reserved | ticketing/src/manage.rs:38-45 | an issuance marks the event's token mapper pending and changes no counter and no collection |
| Storage.Host.Requested | ticketing/src/manage.rs:38-45 | an issuance request is appended and nothing else the host keeps changes |
| Storage.Ticketing.constructor | ticketing/src/ticketing.rs:31-34 | a fresh contract has every storage group empty and satisfies the storage invariant |
| Bookkeeping.NftPayments | ticketing/src/common.rs:84-109 | the i-th minted ticket is one unit of the collection with host nonce created + i + 1 |
| Bookkeeping.NewNfts | ticketing/src/common.rs:84-109 | the i-th NFT gets host nonce created + i + 1, the name for local number nonce + i, the type's royalties and image |
| Bookkeeping.NewNftsDistinct | ticketing/src/common.rs:84-109 | tickets of one batch have pairwise different nonces, and pairwise different names when numbered |
| Bookkeeping.AsPayments | ticketing/src/common.rs:123 | the NFT payments sent are the minted ESDT payments one for one |
| Bookkeeping.MintedDelivers | ticketing/src/common.rs:84-123 | a mint creates exactly n new NFTs above the collection's previous count and sends each of them once, in one transfer, to the recipient |
| Bookkeeping.RestockedOk | ticketing/src/common.rs:142-148 | storing the stage, type and event records back with counts raised keeps the catalogue invariant |
| Bookkeeping.CreateNfts | ticketing/src/common.rs:84-109 | the creation loop returns exactly the NftPayments of the batch and leaves the host with exactly those NFTs added |
| Bookkeeping.Mint | ticketing/src/common.rs:66-151 | send_nft with a stage: host, counters, next nonce and records move exactly as Minted, Sold, Advanced and Restocked say; the sold-out flag is "event reached its capacity"; the storage invariant is kept |
| Bookkeeping.CreditedAccrues | ticketing/src/common.rs:414-424 | a booked payment adds its whole amount to its own token's entry, no other entry changes, the ledger invariant is kept |
| Bookkeeping.PutOk | ticketing/src/common.rs:418-422 | a map-mapper insert sets the token's entry and no other |
| Bookkeeping.CreditsThreshold | ticketing/src/common.rs:400-415 | a payment is booked iff it is fungible and its amount times (10 000 - fee) reaches 10 000; below a 100% fee every fungible payment of 10 000 units or more is booked |
| Bookkeeping.PlatformTransfers | ticketing/src/common.rs:406-413 | the owner receives one transfer of the platform cut iff the payment is fungible and the cut is not zero |
| Bookkeeping.DistributeIncome | ticketing/src/common.rs:392-426 | the ledger becomes Credited and the host gains exactly PlatformTransfers; a royalty-bearing payment changes nothing |
| Validation.IsEventValid | ticketing/src/common.rs:9-17 | passes iff the event record exists |
| Validation.IsTicketTypeValid | ticketing/src/common.rs:19-32 | passes iff the ticket-type record exists |
| Validation.IsTicketStageValid | ticketing/src/common.rs:34-48 | succeeds iff the stage record exists, returning it; under the invariant it carries the requested ids |
| Validation.DoesEventExist | ticketing/src/common.rs:50-54 | succeeds iff the event record exists, returning it; under the invariant its id is the requested one |
| Validation.DoesTicketTypeExist | ticketing/src/common.rs:56-64 | succeeds iff the ticket-type record exists, returning it; under the invariant it is listed under its event |
| Validation.IsWhitelisted | ticketing/src/common.rs:478-488 | true iff the address is on the stage's whitelist |
| Validation.CommonBuyCheck | ticketing/src/common.rs:202-245 | the first failing test in the order event, type, stage, active, started, not ended, whitelist, quantity > 0, limits, capacities is the error; otherwise the three stored records |
| Validation.AdmittedPurchase | ticketing/src/common.rs:202-245 | an admitted purchase is positive, on an active stage in its window, by a whitelisted buyer when required, within all caps and capacities |
| Settings.SetCutFees | ticketing/src/settings.rs:54-62 | nothing attached, owner only; the fee is set iff the call is unpaid, from the owner and the fee is below 10 000 |
| Settings.NewEvent | ticketing/src/settings.rs:27-39 | a new event record has the arguments, the current fee, no transfer role and nothing minted |
| Settings.EgldRefund | ticketing/src/settings.rs:46-49 | the returned EGLD goes back to the requester iff it is not zero |
| Settings.IssueCallback | ticketing/src/settings.rs:13-52 | success with an ESDT collection aborts iff the event's token mapper already holds a collection, and otherwise registers it and stores the event record; a token reading as the native currency changes nothing; failure frees the event id, leaves the token mapper pending and refunds the EGLD; the storage invariant is kept |
| Endpoints.Deploy | ticketing/src/ticketing.rs:31-34 | deployment succeeds iff nothing is attached and the fee is below 10 000, with empty storage and that fee |
| Endpoints.AdmitBuy | ticketing/src/ticketing.rs:53-79 | the purchase's failures in order: pre-sale check, payment, identity gate, smart-contract recipient |
| Endpoints.AdmittedBuy | ticketing/src/ticketing.rs:53-79 | an admitted purchase is within limits and capacities, settles quantity times the unit price (the attached payment itself in direct mode), carries a designated signer's signature over this purchase when required, and goes to a user account |
| Endpoints.Refunds | ticketing/src/common.rs:321-328 | a swap surplus becomes one transfer back to the buyer |
| Endpoints.Fulfil | ticketing/src/ticketing.rs:59-92 | refund, mint to the caller, platform cut and ledger booking, each as its specification function says; the storage invariant is kept |
| Endpoints.Buy | ticketing/src/ticketing.rs:39-93 | a refused purchase changes nothing and reports the first failure; an admitted one returns the minted tickets and moves every storage group exactly as specified |
| Endpoints.Giveaway | ticketing/src/ticketing.rs:95-125 | nothing attached, owner only, event and type must exist; the first recipient always aborts (capacity, smart contract or the missing stage), so only an empty list succeeds, with no tickets |
| Endpoints.AdmitIssue | ticketing/src/ticketing.rs:127-161 | nothing attached, owner only, then the pre-sale check with the recipient as buyer, the identity gate and the smart-contract test, first failure wins |
| Endpoints.GiveawayAdmin | ticketing/src/ticketing.rs:127-174 | a refused issue changes nothing; an admitted one mints to the recipient with the purchase's bookkeeping and no payment |
| Manage.CreateEvent | ticketing/src/manage.rs:16-46 | owner only; exactly 0.05 EGLD; an id new to the event set; its token mapper neither pending nor set, else the matching abort; then the id joins the event set, its mapper turns pending and one issuance request with the caller is recorded |
| Manage.NewTicketType | ticketing/src/manage.rs:60-68 | a new ticket type has the arguments and nothing minted |
| Manage.CreateTicketType | ticketing/src/manage.rs:48-72 | nothing attached, owner only; the event must exist; the id must be new to the event; then the type is listed and its record stored |
| Manage.NewStage | ticketing/src/manage.rs:87-98 | a new stage has the arguments, its ticket type and nothing minted |
| Manage.CreateTicketStage | ticketing/src/manage.rs:74-101 | nothing attached, owner only; event and type must exist; the stage key must be new; then the stage is inserted |
| Manage.RemoveTicketType | ticketing/src/manage.rs:103-112 | nothing attached, owner only; event and type must exist; then the type, its list entry and all its stages are gone |
| Manage.RemoveTicketStage | ticketing/src/manage.rs:114-129 | nothing attached, owner only; event and type must exist; then the stage is gone, and an absent key is no error |
| Manage.EditedTicketType | ticketing/src/manage.rs:138-144 | an edit replaces name, image, royalties and limits, keeping id and mint count |
| Manage.EditTicketType | ticketing/src/manage.rs:131-147 | nothing attached, owner only; event and type args.id must exist; then the edited record replaces the old one |
| Manage.EditedStage | ticketing/src/manage.rs:165-172 | an edit replaces whitelist flag, limits, window, activity and prices, keeping id, ticket type and mint count |
| Manage.EditTicketStage | ticketing/src/manage.rs:149-176 | nothing attached, owner only; event and type must exist; a stored stage is replaced by its edit, an absent one changes nothing |
| Manage.EditedEvent | ticketing/src/manage.rs:182-189 | an edit replaces capacity, per-user limit and the four flags, keeping id, token, transfer role, fee and mint count |
| Manage.EditEvent | ticketing/src/manage.rs:178-191 | nothing attached, owner only; the event must exist; then its record is replaced by its edit |
| Manage.AddToWhitelist | ticketing/src/manage.rs:193-208 | nothing attached, owner only; event and type must exist; then the whitelist is the old one extended by the wallets, skipping those already present |
| Manage.RemoveFromWhitelist | ticketing/src/manage.rs:210-228 | nothing attached, owner only; event and type must exist; then the whitelist is the old one with each wallet swap-removed |
| Views.GetEvents | ticketing/src/views.rs:10-20 | aborts iff some listed event has no record yet; otherwise the records in the event set's order |
| Views.GetTypes | ticketing/src/views.rs:22-32 | the records of the event's listed ticket types, in list order, each carrying its id |
| Views.StagesOf | ticketing/src/views.rs:41-45 | the stage map's values in key order, each the record under its key with that id and ticket type |
| Views.GetTypeStages | ticketing/src/views.rs:34-48 | the push loop returns exactly StagesOf |
| Views.AllStages | ticketing/src/views.rs:55-61 | every stage returned is a stored stage of a listed ticket type |
| Views.AllStagesComplete | ticketing/src/views.rs:55-61 | every stored stage of a listed ticket type is returned |
| Views.GetAllStages | ticketing/src/views.rs:50-64 | the nested loop returns exactly AllStages over the event's ticket types |
| Views.GetAllIncomeTokens | ticketing/src/views.rs:66-69 | the income map's keys in order, each once, exactly the tokens with an entry |
| Views.GetIncomePayment | ticketing/src/views.rs:71-74 | aborts iff the token has no entry; otherwise the entry, a fungible payment of the accrued amount |
| Views.WhitelistedSize | ticketing/src/views.rs:76-85 | the whitelist's length, which is the number of different wallets on it |

## Left out

- Logs: the `emit_*` calls of `events.rs` are not modelled, and neither is the interactor.
- `upgrade` (ticketing/src/ticketing.rs:36-37) does nothing and is not modelled.
- `transfer_wallets` is not modelled, because no core endpoint reads or writes it.
- Mint: counters, mint counts and nonces are unbounded naturals. The `u32` wrap-around of `+=` on them is not modelled.
- Cross-contract calls are parameters of `Env`: the manager's signer (`get_signer`, where None stands for a failing call), `aggregate`/`get_aggregator`, and Ed25519 verification (an uninterpreted `Verifier`).
- `aggregate`'s token handling is not modelled. The model does not capture which call it makes or that it takes the first payment received back.
- Token identifiers are plain names. "EGLD" is the native currency, and their format is not validated.
- Common.Decimal stands in for `sc_format!("{}", n)`. It renders the number in decimal, most significant digit first.
- `require_is_minting` (ticketing/src/common.rs:441-443) is folded into Validation.CommonBuyCheck as its "not active" test.
- Manage.CreateEvent: the framework's `payable("EGLD")` filter is not separate. An ESDT payment reads as 0 EGLD and fails the cost check, so the call aborts either way, with a different message.
- Endpoints.Buy: the swap refund is sent before the identity gate in the source, but after every check in the model. Any later abort reverts it, so the final states agree.
- Manage.AddToWhitelist and Manage.RemoveFromWhitelist: the per-wallet loop builds the new whitelist in a local sequence and stores it once. The source writes storage per wallet, and the final storage is the same.
- Settings.IssueCallback and Manage.CreateEvent: the token mapper is reduced to its state (empty, pending, or holding a collection). Its check that a token identifier is well formed is not modelled.
- Common.CheckBuysLimits: the buyer's counters plus the quantity (ticketing/src/common.rs:260, 272, 281) are unbounded naturals; the `u32` wrap-around of that addition is not modelled.
- Common.CheckSoldOut: the mint counts plus the quantity (ticketing/src/common.rs:360-370) are unbounded naturals; the `u32` wrap-around of that addition is not modelled.
- Common.CheckTypeSoldOut: the mint counts plus the quantity (ticketing/src/common.rs:382-387) are unbounded naturals; the `u32` wrap-around of that addition is not modelled.
- Views: the view functions take no payment, so the framework's rejection of a paid view call is not modelled.
- Views.GetTypes, Views.GetTypeStages and Views.GetAllStages require the storage invariant, which every endpoint keeps. The source would abort on a listed id without a record, and that case cannot arise from a reachable state.
- Endpoints.Giveaway: no iteration completes, so the model has no mint for the stage-less path (`emit_type_mint`, the skipped stage counter).
- Bookkeeping.Mint: the sold-out flag only feeds the mint log, and the model returns it.
- Bookkeeping.DistributeIncome: the income ledger grows by the payment's whole amount, not by the organizer's share, as the source does. The organizer's share only decides whether the payment is booked.
- `get_events`, `get_types` and the other views return ManagedVec values. The model returns sequences.
