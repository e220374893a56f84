# AgroCylo: verified model of the escrow, the registry, the indexer and the read models

AgroCylo lets investors fund agricultural production campaigns. A Soroban contract holds the money, a second
contract keeps a directory of campaigns, a server polls the chain and folds the contract's events into a database,
and two read models (the analytics page and the investor portfolio) turn events and rows into figures. This project
models the four parts and proves that they tell one story.

- **Escrow contract** (`EscrowTypes`, `Campaigns`, `Chain`, `EscrowContract`). A campaign has nine statuses, five
  money fields, a contribution slot per investor, a tranche list, a dispute and a harvest record. `Campaigns` gives
  each entry point as a step from a campaign's stored entries to an effect, or to nothing where the contract panics.
  `Chain` is the deployed contract: all campaigns, the token balances, the registries by address and the address that
  is set, the event log, and the calls that act on them; a panic rolls the whole call back. `EscrowContract` is the
  contract in the form of its source, a class whose methods check, update and write back, each proved to do exactly
  what `Chain` says.
- **Theorems about it** (`Sums`, `Accounting`, `Lifecycle`, `Rules`, `Tranches`, `Solvency`, `Payouts`, `ClaimOrder`,
  `Acceptance`, `Futures`, `Effects`, `Tokens`). `Chain.Decompose` shows that every campaign of every run of the
  contract is a life of its own (`Campaigns.Lived`), so that what is proved of all lives holds of all campaigns of all
  runs. `Acceptance` says exactly when the deployed contract accepts a call: the checks of the entry point, the token
  transfer, the solvency check and the report to the registry together. `Futures` says that further calls can open
  every campaign, and exactly which campaigns they cannot open while the registry stays as it is set. `Effects` says
  what each call writes and reports, and `Tokens` that tokens are conserved and only spent by those who sign.
- **Registry** (`PagedLogs`, `RegistryContract`, `RegistryRules`, `Mirror`). Paged append logs, flat indexes with
  offset/limit reads, registration and linking, exactly when a registry accepts each call, and the status mirror.
- **Indexer** (`EventWire`, `EventFold`, `Replay`, `DbMirror`, `LogFold`, `Redelivery`, `UnknownPayee`, `Indexer`,
  `IndexerSafety`, `IndexerLoss`, `Delivery`, `PartialDelivery`, `LateRows`, `Losses`). The payload tuples and their
  parser, the fold into the user, campaign, investment and transaction tables in the order of its writes, the polling
  protocol with pages, errors, partial cursor writes, crashes and restarts, and the end-to-end results: what the
  database holds after any of this, exactly when it agrees with the contract in full, and what becomes of it when
  events come again or it is down.
- **Read models** (`Analytics`, `AnalyticsMirror`, `Portfolio`, `ServedPortfolio`). The event replay behind the charts,
  and the claimable estimate of each investment, both compared with the contract; the estimate also as the indexer's
  database gives it when events have come again.

`dafny verify dfyconfig.toml` checks the whole project.

## How to read the model

- A step or call that panics is `None`; error messages are not modelled. `Run(Genesis(), acts)` is the contract after
  any list of transactions, including token payments and issuance by others and the passing of time.
- A transaction's signers are a set of addresses. It never contains the escrow contract's own address: that
  authorization only exists inside calls the contract makes itself. That address (`Campaigns.SELF`) is left unspecified.
- Amounts are unbounded integers. `Lifecycle.ClaimArithmeticFits` shows that the products of the claims fit an i128;
  every other amount is bounded by the target, which `create_campaign` bounds by the largest i64. The running total of
  `configure_tranches` is compared with the funding, so an overflow there rejects the list as the comparison does.
- `set_registry` stores any address. `notify_registry` records an activity there, which a registry always accepts from
  the contract itself and which panics where there is no registry, and for some steps also updates the registry's status.
  That panics if the registry has no record of the campaign, has not been initialised, or names this contract neither as
  the campaign's escrow nor as its own admin (`Acceptance.CanReport`). Either way the call is rolled back.
  `Acceptance.Heard` is the absence of both obstacles: no registry is set, or there is one at the address and it accepts
  the report. Registries are deployed at any address but the contract's own; one that has none yet can still get one.

## Where the code differs from what is said about it

- `contracts/production_escrow/README.md` says that the escrow can never claim to hold more than it holds. The check
  compares one campaign with the whole balance, so with several campaigns of one token it does not follow:
  `Payouts.SharedTokenInsolvent` is a run that owes 200 and holds 100, and after `Payouts.LastClaimFails` an investor
  with a share of 100 cannot claim it. `Solvency.SolventIff` says exactly when the token is solvent.
- The same file says that a campaign becomes Funded as soon as its target is hit. That holds exactly if the contribution
  that hit it was a `fund_campaign` call (`Acceptance.TargetMetByCall`); a reconciled one leaves it Funding
  (`Acceptance.FundingAtTarget`, with a run in `Acceptance.TargetMetStillFunding`).
- It also says that the admin can mark such a campaign failed. If a registry has been set and does not accept the
  report, that call, like every call that reports a status, is rolled back (`Acceptance.RolledBackIff` has the exact
  condition). A campaign that was funded before the registry was set is blocked until it is registered and linked
  (`Acceptance.LateRegistryBlocks`, `Futures.LateRegistryDelays`); one whose record names another contract stays blocked,
  unless it can still expire, until the admin sets another registry or the registry's admin hands its role over
  (`Futures.NotOpenAsSetIff`, `Futures.NotOpenHereIff`, with a run in `Futures.MisdirectedBlocks`). With such calls every
  campaign can be opened (`Futures.AlwaysCanOpen`).
- The comment in `handleClaim` says why a handler makes the event's address a user: the transaction row refers to it. The
  handlers of harvest reports and settlements do not, and their events may name an address never seen, an admin or any
  payee. Then the campaign's row is written, the transaction row fails, and the event is neither stored nor broadcast; if
  it comes again after a restart, the returns are added again, or the status goes back from Settled to Harvested
  (`UnknownPayee.UnknownPayeeShows`). `LogFold.TableMirrorsEscrow`, `Redelivery.SteadyIffHarmless` and
  `Delivery.DatabaseComplete` say exactly what follows.
- The handlers' comments say that the campaign table mirrors the contract. `total_funded` does not, where
  `fund_campaign` completes the funding: it reports the completed total before the deposit that completed it, and the
  deposit is added again (`DbMirror.TotalMirroredIff`). The portfolio divides by that column, so its estimate can be half
  of the claim (`Portfolio.EstimateCanFallShort`); it also ignores claims already made (`Portfolio.ClaimKeepsEstimate`),
  and it can exceed the claim where a settlement to an unknown payee has come again (`ServedPortfolio.ShownAboveClaim`).
- `metrics.ts` says that its statuses are reached only after the target was met. Two of the six are not
  (`AnalyticsMirror.ReachedGuaranteesIff`).
- The listener's comments say that a restart does not skip what happened while the process was down. That holds from
  the first cursor row on, not before (`IndexerSafety.NeverSkips`, `IndexerLoss.SkipsBeforeFirstRow`).
- The listener logs every event that it handed over as processed and persisted. The parser catches a database error, the
  event counts as processed all the same, and once a row has passed it, it is never stored (`Losses.LostForGood`).
- Processing an event list with repeats is not the same as processing it without, if an event came before its campaign
  was created or its address was a user (`Replay.ReplayStoresSameIff`, `Replay.SteadyIff`). For deliveries that follow
  the contract's log it is the same if every harvest report and settlement names an address seen before
  (`Redelivery.ReplayOfLog`).
- A comment in `contracts/registry/src/campaign.rs` says that a campaign can be linked without having been registered.
  The guard above it rejects that (`RegistryContract.IndexListsRegistered`).

## Model

| member | source | states |
|---|---|---|
| `Accounting.SoundStep` | contracts/production_escrow/src/lib.rs:229-803 | every step of every entry point keeps the relation between status and money fields: nothing negative, total_funded at most the target, nothing booked out while collecting, Funded has released nothing and InProduction something, the producing and settled statuses are exactly at target, claimable statuses hold nothing, refundable and returnable never both positive, the dispute is open exactly while Disputed |
| `Lifecycle.LivedSound` | contracts/production_escrow/src/lib.rs:148-803 | that relation, and the agreement of slots, deposits and payouts, hold for every campaign after any list of attempted steps |
| `Accounting.BookedStep` | contracts/production_escrow/src/storage.rs:80-93 | every step keeps the contribution slots equal to the deposits in the events, zeroed for exactly those who claimed, and each claimant paid exactly one share of the pool |
| `Lifecycle.SlotsAccountForTotal` | contracts/production_escrow/src/lib.rs:255-273 | slots sum to total_funded until the campaign is claimable; afterwards slots and the deposits of those who claimed do |
| `Lifecycle.ClaimArithmeticFits` | contracts/production_escrow/src/lib.rs:636-647 | a claim never divides by zero, its pool is within the funding, and contributed times pool is at most (2^63-1)^2, within an i128 |
| `Lifecycle.ClaimsWithinPool` | contracts/production_escrow/src/lib.rs:628-654 | whatever subset has claimed, each was paid one share and all together at most the pool; once everyone with a positive share has claimed, less than one unit per contributor is left |
| `Solvency.OwedCoversHeld` | contracts/production_escrow/src/lib.rs:86-88 | a campaign never pays out more than it was funded with, and what it holds is part of what it still owes |
| `Lifecycle.PotentialStep` | contracts/production_escrow/src/lib.rs:229-803 | every successful step strictly decreases a natural-number bound, except configure_tranches, which keeps it |
| `Lifecycle.LifeIsBounded` | contracts/production_escrow/src/lib.rs:229-803 | a campaign takes at most 3 * target + 6 such steps in its whole life |
| `Lifecycle.OneDispute` | contracts/production_escrow/src/lib.rs:501-543 | at most one dispute is ever opened, the record exists exactly if one was, and it is open exactly while the campaign is Disputed |
| `Rules.StepFollowsEdge` | contracts/production_escrow/src/lib.rs:229-803 | statuses change only along the life cycle and its exits, and only contributions, configurations, releases and claims leave a status as it is |
| `Acceptance.CommitsIff` | contracts/production_escrow/src/lib.rs:37-83 | a call that passes its entry point's checks commits exactly if the tokens are there, the solvency check passes, there is a registry at the address set, if one is, wherever the call notifies it, and, where the call reports a status, that registry accepts the report; this covers the fund_campaign call that completes the funding |
| `Acceptance.RolledBackIff` | contracts/production_escrow/src/lib.rs:37-83 | so a call that would otherwise go through is rolled back by the notification exactly if an address is set, the call reports a status or is a deposit, and there is no registry at the address; or the call reports a status and the registry has no record of the campaign, has not been initialised, or names this contract neither as its escrow nor as the admin |
| `Acceptance.ReportsNeverRollBack` | contracts/production_escrow/src/lib.rs:139-142 | with a registry set before the first campaign, and as long as it remains the one that is set, that obstacle is exactly a registry that has not been initialised; if it had been when it was set, no call of any later run in which it remains set is rolled back by a report |
| `Acceptance.SignaturesOnlyAuthorise` | contracts/production_escrow/src/lib.rs:90-93 | a call without the signatures that its entry point asks for changes nothing; with them, it makes no difference to the outcome who else signed |
| `Acceptance.CreateAcceptedIff` | contracts/production_escrow/src/lib.rs:148-226 | exactly when create_campaign commits: a new id, target and deadline in range, the farmer's signature, and with an address set a registry there with that farmer's registration of a campaign not linked yet, approved contract or not; the campaign starts Active with nothing, the record names the contract and has the metadata as crop and region, and a registry with an admin then accepts the campaign's reports |
| `Acceptance.FundAcceptedIff` | contracts/production_escrow/src/lib.rs:229-284 | after any run, exactly when fund_campaign commits: status, deadline, remaining target, the investor's tokens and signature, the campaign's own funds covered, a registry at the address set, if one is, and, where the call completes the funding, one that accepts the report |
| `Acceptance.FundPays` | contracts/production_escrow/src/lib.rs:229-284 | a committed deposit moves exactly the amount from the investor to the contract, adds it to the total, and leaves Funded exactly at the target |
| `Acceptance.ExpireAcceptedIff` | contracts/production_escrow/src/lib.rs:746-769 | after any run, expiry by anyone commits exactly for a campaign that is Active or Funding, past its deadline and short of its target; no registry or balance stands in the way; it leaves Failed with all that was held refundable |
| `Acceptance.MarkFailedAcceptedIff` | contracts/production_escrow/src/lib.rs:703-735 | after any run, mark_failed commits exactly from the admin, before the harvest report, if the registry is no obstacle, and leaves the same |
| `Acceptance.ReceiveAcceptedIff` | contracts/production_escrow/src/lib.rs:302-342 | after any run, exactly when receive_contribution commits: both signatures, status, deadline, remaining target, and a balance that covers what is held together with the amount; it moves no tokens and leaves Funding |
| `Acceptance.CompleteAcceptedIff` | contracts/production_escrow/src/lib.rs:344-364 | after any run, complete_funding commits exactly from the admin for a campaign that is Funding at its target, with its total; the last thing that happened to it is then a reconciled contribution |
| `Acceptance.ConfigureAcceptedIff` | contracts/production_escrow/src/lib.rs:368-395 | after any run, configure_tranches commits exactly from the admin, in a Funded campaign, for a list of positive amounts that sum to at most total_funded; the list is then the stored one |
| `Acceptance.HarvestAcceptedIff` | contracts/production_escrow/src/lib.rs:463-499 | after any run, report_harvest commits exactly in Funded and InProduction, from the farmer or the admin, whoever is named and signed, if the registry is no obstacle; it leaves Harvested and a record of reporter, outcome, time and ledger |
| `Acceptance.DisputeAcceptedIff` | contracts/production_escrow/src/lib.rs:501-543 | after any run, open_dispute commits exactly before the harvest report, from a signer who is the farmer, the admin or has deposited, if the registry is no obstacle; it leaves Disputed and an open dispute of opener, reason, time and ledger without a resolution |
| `Acceptance.SettingAcceptedIff` | contracts/production_escrow/src/lib.rs:121-142 | the admin is appointed once, by signing, and from then on alone sets the registry address, to any |
| `Acceptance.TargetMetByCall` | contracts/production_escrow/src/lib.rs:264-271 | the call that brings a campaign to its target is fund_campaign or receive_contribution, and leaves it Funded exactly if it is the former |
| `Acceptance.FundingAtTarget` | contracts/production_escrow/src/lib.rs:323-342 | after any run, a campaign at its target is Funding exactly if the last thing that happened to it is a reconciled contribution |
| `Acceptance.TargetMetStillFunding` | contracts/production_escrow/src/lib.rs:323-342 | such a run: a campaign at its target of 100 that is Funding |
| `Rules.ReconciledToTarget` | contracts/production_escrow/src/lib.rs:323-342 | that campaign takes no contribution and cannot expire any more; only completion, failure or a dispute is left |
| `Acceptance.ResolveAcceptedIff` | contracts/production_escrow/src/lib.rs:564-596 | after any run, exactly which resolutions commit, and how each divides what is held between farmer and investors, no tokens moving |
| `Acceptance.SettleAcceptedIff` | contracts/production_escrow/src/lib.rs:658-700 | after any run, exactly which settlements commit; in a solvent token the balance is never the obstacle |
| `Acceptance.SettlePays` | contracts/production_escrow/src/lib.rs:658-700 | a settlement pays out the payout, books it, and makes the rest of what was held returnable |
| `Acceptance.NothingIsTrapped` | contracts/production_escrow/src/lib.rs:545-735 | after any run, for a campaign that is not claimable yet: the admin alone can in one call make everything held claimable by the investors exactly if the registry is no obstacle; if it is, or if there is no admin yet, no single call on the campaign opens it, except expiry where that is due |
| `Acceptance.LateRegistryBlocks` | contracts/production_escrow/src/lib.rs:139-142 | the condition matters: a run after which a funded campaign holds 100 and, the registry having been deployed and set late, no single call on it makes it claimable |
| `Futures.AlwaysCanOpen` | contracts/production_escrow/src/lib.rs:139-142 | after any run, whatever registry is set and whatever it records, some further calls make what a campaign holds claimable |
| `Futures.NotOpenAsSetIff` | contracts/production_escrow/src/lib.rs:37-83 | after any run: no further list of calls without set_registry and without a registry's update_admin, by whomever, makes what a campaign holds claimable, exactly if it is not claimable yet, the registry that is set has a record of it that names another contract and does not have the escrow contract as its admin (or the address set is the contract's own), and it is not a campaign still collecting and short of its target, which expires |
| `Futures.HandedOver` | contracts/registry/src/admin.rs:20-28 | without another set_registry, too: where the registry that is set is initialised and has a record of the campaign, whichever contract that names, further calls open it, its admin handing its role to the escrow contract |
| `Futures.NotOpenHereIff` | contracts/registry/src/admin.rs:20-28 | so no further calls without set_registry open a campaign exactly if it is not claimable, does not expire, and the address set is the escrow contract's own |
| `Futures.LateRegistryDelays` | contracts/registry/src/campaign.rs:54-100 | after the run of LateRegistryBlocks further calls open the campaign, the registry staying as it is set |
| `Futures.MisdirectedBlocks` | contracts/registry/src/campaign.rs:54-100 | a run after which a funded campaign holds 100 that no further calls without set_registry and update_admin make claimable, its farmer having linked it to another contract; with them, some do |
| `Acceptance.ClaimOpenTo` | contracts/production_escrow/src/lib.rs:778-803 | after any run, a claim in a claimable campaign commits exactly for an investor who contributed, has not claimed, has a share of at least one unit, and whose share the contract's balance covers |
| `Acceptance.SolventClaims` | contracts/production_escrow/src/lib.rs:628-654 | in a solvent token the balance is never the obstacle: exactly those who contributed, have not claimed and have a share of at least one unit can claim |
| `Acceptance.ReleasesAcceptedIff` | contracts/production_escrow/src/lib.rs:400-459 | after any run, a list of releases on a campaign with a tranche list commits in full exactly if its amounts are a sub-multiset of the unreleased ones and, unless it is empty, the registry is no obstacle; released amount and flags then agree and no tokens have moved |
| `Acceptance.FreshReleasesAcceptedIff` | contracts/production_escrow/src/lib.rs:368-459 | after a configuration with all flags false these are exactly the sub-multisets of the configured amounts, and what is booked as released is the sum of the flagged tranches |
| `Acceptance.UnplannedReleaseAcceptedIff` | contracts/production_escrow/src/lib.rs:400-459 | without a tranche list, a release commits exactly up to what is held, in Funded and InProduction, with the admin's signature and the registry no obstacle |
| `Tranches.MarkFirstMatch` | contracts/production_escrow/src/lib.rs:421-448 | a release flags the earliest unreleased tranche of its amount and nothing else, and is rejected exactly when there is none |
| `Tranches.LivedBacked` | contracts/production_escrow/src/lib.rs:368-459 | in every reachable campaign the configured tranches are positive and what they still allow is covered by held funds, so the two statements on releases apply whenever it produces |
| `Chain.Decompose` | contracts/production_escrow/src/lib.rs:119-803 | every campaign of every run of the contract, with any other campaigns, registry calls, payments and clock ticks in between, is a life in the sense of the per-campaign theorems |
| `Effects.StepWrites` | contracts/production_escrow/src/lib.rs:229-803 | which entry points write which entries: of the campaign only the total, the three pools and the status ever change, each by the calls it belongs to; a slot changes only for the investor a call names |
| `Effects.StepReports` | contracts/production_escrow/src/events.rs:4-113 | the event of each call says what the call changed: amounts as differences of the stored fields, the total, the number of tranches, the share paid, and the time and ledger of the call; CampaignFunded comes first where a deposit completes the funding |
| `Effects.CallLogs` | contracts/production_escrow/src/events.rs:4-113 | after any run, a committed call appends exactly that to the log under its campaign and ledger, and touches no other campaign, nor admin or registry setting |
| `Effects.LivedTold` | contracts/production_escrow/src/storage.rs:80-93 | throughout every life total_funded, released, refundable and returnable are sums over the events, and the harvest record, the dispute, its resolution and the number of tranches are what the last event of their kind says |
| `Effects.LogInTime` | contracts/production_escrow/src/events.rs:4-113 | over every run the events' times are in the order of the log and none lies in the future |
| `Tokens.SupplyIsIssued` | contracts/production_escrow/src/lib.rs:229-284 | over every run all holders of a token together have exactly what was issued of it |
| `Tokens.NobodyOwes` | contracts/production_escrow/src/lib.rs:641-650 | no balance is ever negative |
| `Tokens.SpentIfSigned` | contracts/production_escrow/src/lib.rs:90-93 | no call lowers anybody's balance but the contract's own without that holder's signature |
| `Solvency.TransferMatchesEvents` | contracts/production_escrow/src/lib.rs:641-650 | the tokens a step moves in or out are exactly what its last event reports |
| `Solvency.Conservation` | contracts/production_escrow/src/lib.rs:250-283 | after every run the contract's balance of a token is what its campaigns' events say moved in and out, plus what it was given otherwise |
| `Solvency.SolventIff` | contracts/production_escrow/src/lib.rs:99-105 | the balance covers everything owed in a token exactly when the reconciled contributions stay within what the contract was given |
| `Solvency.FundOnlySolvent` | contracts/production_escrow/src/lib.rs:229-284 | with fund_campaign as the only contribution path every token is solvent after every run |
| `Solvency.PayoutsNeverLackFunds` | contracts/production_escrow/src/lib.rs:674-689 | in a solvent token no settlement or claim lacks funds and the solvency check never fires |
| `Payouts.SoleCampaignSolvent` | contracts/production_escrow/src/lib.rs:302-342 | with one campaign per token the token is solvent after every run, receive_contribution included |
| `Payouts.SharedTokenInsolvent` | contracts/production_escrow/src/lib.rs:99-105 | two campaigns of one token can be recorded against the same deposit: a run that owes at least 200 with a balance of 100 |
| `Payouts.LastClaimFails` | contracts/production_escrow/src/lib.rs:628-654 | and then a claim can fail: a run after which an investor passes every check of claim_refund for a share of 100 and the transfer finds a balance of 0 |
| `ClaimOrder.ClaimsOutcome` | contracts/production_escrow/src/lib.rs:628-654 | from any reachable solvent state, a list of distinct claims zeroes exactly its members' slots and pays each what was due at the start |
| `ClaimOrder.ClaimsCommute` | contracts/production_escrow/src/lib.rs:778-803 | any two orders of the same claims end with the same entries and balances |
| `EscrowContract.ProductionEscrow.Initialize` | contracts/production_escrow/src/lib.rs:121-128 | sets the admin once, with the new admin's signature, or changes nothing |
| `EscrowContract.ProductionEscrow.SetRegistry` | contracts/production_escrow/src/lib.rs:139-142 | stores the address, whatever it is and whatever was stored before, if the admin signed, or changes nothing |
| `EscrowContract.ProductionEscrow.CreateCampaign` | contracts/production_escrow/src/lib.rs:148-226 | creates the record, links it in the registry if one is set and emits the event exactly as Chain.Apply says, or changes nothing |
| `EscrowContract.ProductionEscrow.FundCampaign` | contracts/production_escrow/src/lib.rs:229-284 | moves the deposit, records it, completes the funding at the target, checks solvency, notifies and emits exactly as Chain.Apply says, or changes nothing |
| `EscrowContract.ProductionEscrow.ReceiveContribution` | contracts/production_escrow/src/lib.rs:302-342 | records a contribution without a transfer exactly as Chain.Apply says, or changes nothing |
| `EscrowContract.ProductionEscrow.CompleteFunding` | contracts/production_escrow/src/lib.rs:344-364 | completes the funding exactly as Chain.Apply says, or changes nothing |
| `EscrowContract.ProductionEscrow.ConfigureTranches` | contracts/production_escrow/src/lib.rs:368-395 | the summing loop accepts exactly the lists of positive amounts within the funding, and the call does exactly what Chain.Apply says |
| `EscrowContract.ProductionEscrow.Mark` | contracts/production_escrow/src/lib.rs:421-448 | the copying loop finds and flags the first unreleased tranche of the amount, or returns the list unchanged |
| `EscrowContract.ProductionEscrow.ReleaseTranche` | contracts/production_escrow/src/lib.rs:400-459 | books a release and marks its tranche exactly as Chain.Apply says, or changes nothing |
| `EscrowContract.ProductionEscrow.ReportHarvest` | contracts/production_escrow/src/lib.rs:463-499 | stores the harvest record and status exactly as Chain.Apply says, or changes nothing |
| `EscrowContract.ProductionEscrow.OpenDispute` | contracts/production_escrow/src/lib.rs:501-543 | stores an open dispute exactly as Chain.Apply says, or changes nothing |
| `EscrowContract.ProductionEscrow.ResolveDispute` | contracts/production_escrow/src/lib.rs:545-616 | books the division of the held funds and closes the dispute exactly as Chain.Apply says, or changes nothing |
| `EscrowContract.ProductionEscrow.ClaimRefund` | contracts/production_escrow/src/lib.rs:628-654 | zeroes the slot and transfers the share exactly as Chain.Apply says, or changes nothing |
| `EscrowContract.ProductionEscrow.SettleCampaign` | contracts/production_escrow/src/lib.rs:658-700 | books and pays the settlement exactly as Chain.Apply says, or changes nothing |
| `EscrowContract.ProductionEscrow.MarkFailed` | contracts/production_escrow/src/lib.rs:703-735 | makes the held funds refundable exactly as Chain.Apply says, or changes nothing |
| `EscrowContract.ProductionEscrow.ExpireCampaign` | contracts/production_escrow/src/lib.rs:746-769 | makes the held funds of an expired campaign refundable, without notifying the registry, exactly as Chain.Apply says, or changes nothing |
| `EscrowContract.ProductionEscrow.ClaimReturn` | contracts/production_escrow/src/lib.rs:778-803 | zeroes the slot and transfers the share exactly as Chain.Apply says, or changes nothing |
| `EscrowContract.ProductionEscrow.NotifyRegistry` | contracts/production_escrow/src/lib.rs:37-83 | does nothing if no registry is set; otherwise updates the status in the registry at the address as the contract itself, if the step reports one, and fails where that registry does or there is none |
| `PagedLogs.AppendHolds` | contracts/registry/src/storage.rs:147-186 | appending to a key's pages appends to its list: record i at slot i % 100 of page i / 100, all pages but the last full |
| `PagedLogs.PagesHoldLog` | contracts/registry/src/activity.rs:11-63 | after any interleaving of appends to any keys, each key's pages hold exactly its own records in insertion order |
| `PagedLogs.PageShape` | contracts/registry/src/activity.rs:67-82 | every page but the last holds exactly 100 records, the last 1 to 100, and the page count is the ceiling of n / 100 |
| `PagedLogs.PagedLog.Append` | contracts/registry/src/storage.rs:147-186 | rewrites the page entries in place and appends to the key's list, leaving the other keys' lists alone |
| `PagedLogs.PagedLog.GetAll` | contracts/registry/src/activity.rs:84-94 | the loop over pages returns the whole list in insertion order |
| `PagedLogs.PagedLog.GetPage` | contracts/registry/src/storage.rs:124-133 | a page read returns the corresponding stretch of the list, or nothing past the end |
| `PagedLogs.PagedLog.PageCount` | contracts/registry/src/activity.rs:67-70 | the number of pages is the ceiling of the number of records over 100 |
| `RegistryContract.FlatIndex.PushOnce` | contracts/registry/src/storage.rs:195-226 | indexing is idempotent: an id already listed changes nothing, a new one is appended |
| `RegistryContract.FlatIndex.Push` | contracts/registry/src/storage.rs:254-263 | appends to the index without a check, which its caller has made |
| `RegistryContract.FlatIndex.Read` | contracts/registry/src/storage.rs:228-242 | a read returns the entries from the offset on, as many as asked for or as there are |
| `RegistryContract.ReaderSeesPrefix` | contracts/registry/src/storage.rs:228-242 | a reader that advances its offset by the number of ids returned, interleaved with appends, has read a gap-free, duplicate-free prefix of the index |
| `RegistryContract.IndexListsRegistered` | contracts/registry/src/campaign.rs:7-100 | over every run the global index of every registry lists exactly its registered campaigns, each once, and only those are linked |
| `RegistryContract.Contract.Initialize` | contracts/registry/src/admin.rs:4-13 | sets the admin once, with the new admin's signature, or changes nothing |
| `RegistryContract.Contract.UpdateAdmin` | contracts/registry/src/admin.rs:20-28 | replaces the admin by any address, with the old admin's signature alone, or changes nothing |
| `RegistryContract.Contract.ApproveContract` | contracts/registry/src/admin.rs:34-40 | adds the contract to the approved ones, if the admin signed, or changes nothing |
| `RegistryContract.Contract.RevokeContract` | contracts/registry/src/admin.rs:42-48 | takes the contract off them, if the admin signed, or changes nothing |
| `RegistryContract.Contract.RegisterCampaign` | contracts/registry/src/campaign.rs:7-33 | records the farmer of a new campaign and indexes it, if the farmer signed, or changes nothing |
| `RegistryContract.Contract.LinkCampaignEscrow` | contracts/registry/src/campaign.rs:54-100 | links a registered campaign for its own farmer, indexes it and appends it to the farmer's pages, or changes nothing |
| `RegistryContract.Contract.UpdateCampaignStatus` | contracts/registry/src/campaign.rs:102-124 | sets the mirror for the admin or the linked contract, or changes nothing |
| `RegistryContract.Contract.ReconcileCampaignStatus` | contracts/registry/src/campaign.rs:168-189 | sets the mirror to the reported status and returns whether it differed |
| `RegistryRules.AppointedIff` | contracts/registry/src/admin.rs:4-28 | a registry's admin is appointed once, by signing, and hands over to any address with the old admin's signature alone |
| `RegistryRules.ApproveAcceptedIff` | contracts/registry/src/admin.rs:34-48 | the admin alone approves and revokes, one contract at a time |
| `RegistryRules.ApprovedIff` | contracts/registry/src/admin.rs:34-48 | over every run a contract is approved exactly if the last committed decision about it approved it |
| `RegistryRules.RegisterAcceptedIff` | contracts/registry/src/campaign.rs:7-33 | after any run, a campaign is registered exactly by a signing farmer and if nobody has registered it, and is then last in the index |
| `RegistryRules.LinkAcceptedIff` | contracts/registry/src/campaign.rs:54-100 | after any run, exactly which links commit: registered by that farmer, not linked yet, signed by the contract if it is approved and by the farmer if not; the record has what the call names |
| `RegistryRules.RecordsAreLinked` | contracts/registry/src/campaign.rs:54-100 | over every run each record has, up to its status, the content of a committed link call or of the campaign's creation while that registry was set |
| `RegistryRules.UpdateAcceptedIff` | contracts/registry/src/campaign.rs:102-124 | exactly which status updates commit, and that they change that status alone |
| `RegistryRules.ReconcileAcceptedIff` | contracts/registry/src/campaign.rs:168-189 | exactly which reconciliations commit; the record then has the status that its contract reports, this one or another |
| `Mirror.MirrorTracks` | contracts/production_escrow/src/lib.rs:37-83 | with a registry set before the first campaign that remains the one set, and no override by its admin, in every interleaving with calls on this and other registries its mirror agrees with the escrow or is Active or Funding while the escrow is Funding, Funded or Failed |
| `Mirror.MirrorIsPast` | contracts/registry/src/campaign.rs:102-124 | under the same conditions the mirror always holds a status that the escrow has had |
| `Mirror.ReconcileHeals` | contracts/registry/src/campaign.rs:168-189 | in any registry, set or not, reconciling a campaign linked to this contract makes the two equal, returns true exactly when they differed, and a second call changes nothing |
| `EventWire.DecimalRoundTrip` | server/src/indexer/parsers/event-parser.service.ts:37-43 | printing an integer and parsing it back is the identity |
| `EventWire.WireRoundTrip` | contracts/production_escrow/src/events.rs:4-113 | every event the contract publishes parses to its own data under its own campaign, whichever of the three shapes the enum decodes to |
| `EventWire.ParsesIff` | server/src/indexer/parsers/event-parser.service.ts:143-200 | of arbitrary raw events, exactly which are ignored, which parse and which make parsing throw, by a table of what each field has to be |
| `EventFold.BroadcastOnce` | server/src/indexer/parsers/event-parser.service.ts:117-140 | whatever is handed over, however often, and whether or not the database is up, broadcasts and stored events correspond one to one |
| `EventFold.EventParserService.ProcessEvent` | server/src/indexer/parsers/event-parser.service.ts:117-140 | parses, persists and then broadcasts one event; broadcasts nothing where it does not parse, is stored already, a write fails, or the database is down |
| `EventFold.EventParserService.EmitCampaignEvent` | server/src/indexer/parsers/event-parser.service.ts:122-131 | an event can be broadcast only once it is stored |
| `EventFold.EventParserService.PersistEvent` | server/src/indexer/parsers/event-parser.service.ts:916-1004 | the writes in their order, while the database is up: the user, unless it is a harvest report or settlement, the campaign's row, which must exist or be created, and the transaction row, which needs the user; what was written before a failure stays |
| `EventFold.EventParserService.CreateTransaction` | server/prisma/migrations/20260819164517_init/migration.sql:133-133 | the transaction row is written exactly if the address it refers to is a user |
| `EventFold.EventParserService.UpdateCampaign` | server/src/indexer/parsers/event-parser.service.ts:1037-1271 | the handlers' writes to the campaign row, or a failure where the row is missing |
| `EventFold.HandlerWrites` | server/src/indexer/parsers/event-parser.service.ts:1014-1271 | which handlers write which columns of an existing row, and that claims write none |
| `Replay.ReplayStoresSameIff` | server/src/indexer/parsers/event-parser.service.ts:916-1004 | processing a list with repeats leaves the transactions, broadcasts, investments and users of its first occurrences exactly if no event that failed for want of its campaign or its user came again when it could be stored |
| `Replay.SteadyIff` | server/src/indexer/parsers/event-parser.service.ts:916-1004 | repeats show in the database at no time exactly if none takes effect: an event not stored yet, whose campaign has a row, and whose address is a user by now or whose handler writes something else into the row than what is there |
| `Replay.ReplayCanRevive` | server/src/indexer/parsers/event-parser.service.ts:916-923 | an event that came before its campaign's creation and comes again after it does make a difference: the repeat succeeds where the first delivery failed |
| `Replay.PayeeCanRevive` | server/src/indexer/parsers/event-parser.service.ts:1249-1271 | so does a settlement that came before its payee was a user and comes again after it |
| `Replay.StoredAreFirstStorable` | server/src/indexer/parsers/event-parser.service.ts:916-1004 | after any deliveries, the stored and broadcast events are exactly the first occurrences, in order, of the deliveries that found their campaign and their user |
| `Replay.UserIffNamed` | server/src/indexer/parsers/event-parser.service.ts:1006-1012 | an address is a user exactly if an event was delivered whose handler makes it one, whether or not that event could be stored |
| `Replay.RowIffCreated` | server/src/indexer/parsers/event-parser.service.ts:1014-1035 | a campaign's row exists exactly if its creation has been delivered |
| `DbMirror.LivedRowMatches` | server/src/indexer/parsers/event-parser.service.ts:1014-1271 | at every transaction end the folded row agrees with the contract in farmer, target, status (Funding shown as Active), refundable and returnable, and its total is off by exactly what was counted twice |
| `DbMirror.TotalMirroredIff` | contracts/production_escrow/src/lib.rs:264-283 | the folded total equals total_funded exactly if no fund_campaign call completed the funding; if one did, it is too large by that one deposit |
| `DbMirror.FoldedTotalFits` | server/prisma/migrations/20260819164517_init/migration.sql:11-11 | the folded total is at most twice the target, so that it fits the BIGINT column for targets below 2^62 |
| `DbMirror.LivedRowDetails` | server/src/indexer/parsers/event-parser.service.ts:1014-1271 | the folded row also has the number of tranches that is stored and the outcome of the harvest record |
| `DbMirror.WrittenAgain` | server/src/indexer/parsers/event-parser.service.ts:1150-1271 | writing a harvest report into its row a second time leaves the row alone exactly as long as there is no settlement, a settlement exactly if it returns nothing |
| `LogFold.RunOrderly` | contracts/production_escrow/src/lib.rs:463-700 | in every run's log ids count up from 0, a campaign's first event is its creation, only its settlement and claims follow its harvest report, and only claims its settlement |
| `Redelivery.ReplayOfLog` | server/src/indexer/parsers/event-parser.service.ts:916-1004 | deliveries whose first occurrences follow such a log leave exactly what processing the log once leaves, if every harvest report and settlement names an address that an earlier event made a user |
| `Redelivery.SteadyIffHarmless` | server/src/indexer/parsers/event-parser.service.ts:916-1004 | for any such deliveries repeats show at no time exactly if none is harmful: a repeat of a harvest report or settlement whose address was no user whenever it came, and is one by now; or that is a settlement with returns; or a harvest report after the settlement |
| `Redelivery.AllBroadcastIff` | server/src/indexer/parsers/event-parser.service.ts:117-140 | whatever comes again and however often, all events of the log are stored and broadcast in its order exactly if every harvest report and settlement names an address that an earlier event made a user |
| `Redelivery.DeliveriesKeep` | server/src/indexer/parsers/event-parser.service.ts:1014-1271 | whatever comes again, the investments and users are those of the log, the other events are stored, and all rows are right up to status, outcome and returnable |
| `LogFold.TableMirrorsEscrow` | server/src/indexer/parsers/event-parser.service.ts:916-1271 | after every run, folding the whole log once leaves exactly the contract's campaigns in the table, each in agreement with it, tranche count and outcome included, and every deposit as an investment; stored and broadcast in order are exactly the events other than harvest reports and settlements that name an address no earlier event made a user, so all of them if and only if there is none of those |
| `LogFold.SeenIff` | server/src/indexer/parsers/event-parser.service.ts:1014-1271 | which addresses these are: the farmer of a creation, contributors, recipients of tranches, claimants and openers of disputes |
| `UnknownPayee.UnknownPayeeShows` | server/src/indexer/parsers/event-parser.service.ts:1150-1271 | a run with both: its harvest report by the admin and its settlement to an unknown payee are neither stored nor broadcast, a second delivery of the settlement doubles the returns, and one of the harvest report takes the status back from Settled to Harvested |
| `Indexer.EventListener.ReadCursor` | server/src/indexer/soroban-event-listener.service.ts:90-110 | the smallest existing row; without one the override less one, or the tip |
| `Indexer.EventListener.PersistCursor` | server/src/indexer/soroban-event-listener.service.ts:112-125 | the rows after those writes that take effect |
| `Indexer.EventListener.StartListening` | server/src/indexer/soroban-event-listener.service.ts:156-172 | loads the cursor once, and does nothing when already running |
| `Indexer.EventListener.PollEvents` | server/src/indexer/soroban-event-listener.service.ts:180-262 | one poll does exactly what the poll function says for these replies, and writes the cursor only where the page loop ended without an error |
| `Indexer.EventListener.FetchPages` | server/src/indexer/soroban-event-listener.service.ts:198-227 | the page loop hands over each page's new events in order and ends drained, capped or failed as the fetch function says |
| `IndexerSafety.FetchOk` | server/src/indexer/soroban-event-listener.service.ts:198-227 | a drained poll has handed over everything up to the reported tip, a capped one exactly the next 5000 events |
| `IndexerSafety.PollOk` | server/src/indexer/soroban-event-listener.service.ts:180-252 | a poll never moves the cursor back, and everything the cursor passes over has been handed over by this process |
| `IndexerSafety.StartsAt` | server/src/indexer/soroban-event-listener.service.ts:90-110 | a process starts at a smallest row; without one right before a positive override, or else at the tip |
| `IndexerSafety.PollWritesIff` | server/src/indexer/soroban-event-listener.service.ts:180-252 | the cursor is written exactly by the polls that found ledgers to process and got an answer for every page up to the last or the fiftieth |
| `IndexerSafety.PollAdvancesIff` | server/src/indexer/soroban-event-listener.service.ts:229-250 | an error-free poll with ledgers to process stands still exactly when it hits the page cap within the first of them, and otherwise strictly advances |
| `IndexerSafety.CrowdedIffPacked` | server/src/indexer/soroban-event-listener.service.ts:26-33 | which is possible exactly for a ledger that holds at least 5000 events |
| `IndexerSafety.PollsReachTip` | server/src/indexer/soroban-event-listener.service.ts:180-262 | if no ledger holds that many, each error-free poll gains a ledger, so finitely many reach a fixed tip |
| `IndexerSafety.NeverSkips` | server/src/indexer/soroban-event-listener.service.ts:90-125 | over every sequence of polls, errors, partial cursor writes, crashes and restarts, once a row exists every event above the start of the process that wrote the first row, up to the value the next process would load, has been handed over |
| `IndexerSafety.HandedOnce` | server/src/indexer/soroban-event-listener.service.ts:211-217 | a running process has handed over all it has passed, each event once, and nothing that is not on the chain |
| `IndexerSafety.CursorNeverDecreases` | server/src/indexer/soroban-event-listener.service.ts:90-125 | once a row exists, the value the next process would load never decreases, however many of the writes take effect |
| `IndexerLoss.NothingBelowRow` | server/src/indexer/soroban-event-listener.service.ts:90-125 | once a row exists, no later process hands over anything at or below the smallest row |
| `IndexerLoss.SkipsBeforeFirstRow` | server/src/indexer/soroban-event-listener.service.ts:102-109 | before the first row there is no such guarantee: from every reachable state without a process and without a row, any event that appears and that the next start, for lack of an override, begins at or above, is never handed over by any later polls, crashes and restarts, as long as no further process starts without a row |
| `IndexerLoss.SkipExample` | server/src/indexer/soroban-event-listener.service.ts:102-109 | a concrete life in which the first event of the chain is skipped and a row passes it |
| `Delivery.DeliversInOrder` | server/src/indexer/soroban-event-listener.service.ts:102-107 | with a start ledger at or below the first event, first deliveries are a prefix of the chain, without gaps and in order |
| `Delivery.RunsCanBeWatched` | server/src/indexer/soroban-event-listener.service.ts:102-107 | every run whose events lie in ledgers from 1 on is a chain that an indexer can watch from its start |
| `Delivery.DatabaseFollowsLog` | server/src/indexer/soroban-event-listener.service.ts:180-288 | then, while the database is up, whatever polls, RPC errors, crashes and restarts came before: investments and users are those of a prefix of the contract's log, all rows are right up to status, outcome and returnable, all events of the prefix are stored and broadcast in order exactly if they are keyed (each harvest report and settlement names an address that an earlier event made a user), and then the database is that of the prefix processed once |
| `Delivery.FollowsAlwaysIff` | server/src/indexer/soroban-event-listener.service.ts:180-288 | it was so at every moment exactly if no repeated hand-over is harmful; none is where all events are keyed |
| `Delivery.DatabaseComplete` | server/src/indexer/parsers/event-parser.service.ts:117-1271 | while the database is up, once every event has been handed over: every deposit is an investment and the campaign table holds exactly the contract's campaigns, right in farmer, target, total_funded and refundable; and database and contract agree in full, every event stored and broadcast once in order and every campaign as it is on chain, if and only if all events are keyed |
| `Delivery.DatabaseCatchesUp` | server/src/indexer/parsers/event-parser.service.ts:117-1271 | the same once the cursor has passed the last event |
| `Delivery.DatabaseWillAgree` | server/src/indexer/soroban-event-listener.service.ts:180-262 | liveness: from any state with a running process, if no ledger holds 5000 events and the database is up, as many error-free polls as there are ledgers left bring the database into that agreement, in full if and only if all events are keyed, whichever cursor writes take effect |
| `Losses.InStepIff` | server/src/indexer/parsers/event-parser.service.ts:132-140 | after any life of the indexer and any outages of the database, database and contract agree in full if and only if the answered hand-overs that found their campaign and their user are first made in the order of the log and leave none of it out, and no settlement with returns reached its campaign's row before its address was a user |
| `Losses.TransactionIff` | server/src/indexer/parsers/event-parser.service.ts:984-999 | and, whatever the order, an event is in the transaction table exactly if one of its answered hand-overs found its campaign and its user |
| `Losses.FirstLifeRightIff` | server/src/indexer/parsers/event-parser.service.ts:132-140 | in the life of a first process that starts early enough every outage matters, also for an event that could not have been stored: the database is that of what was handed over exactly if there was none |
| `Losses.LostForGood` | server/src/indexer/soroban-event-listener.service.ts:211-217 | an event that the database took on none of its hand-overs and that a cursor row has passed is never stored, whatever polls, crashes and restarts follow and however long the database stays up later |
| `Losses.PassedForGood` | server/src/indexer/soroban-event-listener.service.ts:211-217 | the same of every event that is not stored when a cursor row has passed it, be it for an outage or for want of its user |
| `Delivery.WireOrdered` | contracts/production_escrow/src/events.rs:4-113 | every run's log is a chain as the indexer assumes: numbered and in ledger order |
| `Analytics.SortIsStable` | client/src/lib/analytics/metrics.ts:89 | the sort orders by ledger, keeps every event, and keeps the order within a ledger |
| `Analytics.Replay` | client/src/lib/analytics/metrics.ts:91-161 | the event loop computes the fold of the events into accumulators, daily volumes and the total |
| `Analytics.BoardOfItems` | client/src/lib/analytics/metrics.ts:78-113 | of which, for any events: a volume for exactly the days, of 86400 seconds from the epoch, in which a named campaign got a deposit, each the sum of that day's deposits; the sum of all of them; and an accumulator for exactly the campaigns created |
| `Analytics.TrackStatus` | client/src/lib/analytics/metrics.ts:115-157 | what each event does to the status of its campaign, and to no other |
| `Analytics.ComputeAnalyticsMetrics` | client/src/lib/analytics/metrics.ts:86-211 | of any events: one point in order for exactly the days with a deposit, with that day's sum; the total; the number of campaigns; the average of their targets and the percentage of them that reached the target as quotients, zero where there is no campaign; the nine counts in order; and three outcomes, still collecting, failed and the rest, that sum to the campaigns |
| `Analytics.BuildSizeDistribution` | client/src/lib/analytics/metrics.ts:214-244 | each bucket counts exactly the amounts in its range, and every amount is counted once |
| `Analytics.StatusesAddUp` | client/src/lib/analytics/metrics.ts:183-191 | the nine status counts sum to the number of campaigns |
| `Analytics.OutcomesAddUp` | client/src/lib/analytics/metrics.ts:171-181 | what is neither counted as reached nor failed is still collecting, so the clamp at zero never acts |
| `AnalyticsMirror.LivedAccMatches` | client/src/lib/analytics/metrics.ts:98-161 | the replayed status of a campaign equals its on-chain status at every transaction end, except Active for a campaign that is Funding by reconciled contributions alone |
| `AnalyticsMirror.BoardMirrorsEscrow` | client/src/lib/analytics/metrics.ts:91-161 | after every run the board holds exactly the contract's campaigns, each with its target and that status |
| `AnalyticsMirror.CountsMatchChain` | client/src/lib/analytics/metrics.ts:163-191 | each count on the page is the number of on-chain campaigns shown that way, and the total is the number of campaigns |
| `AnalyticsMirror.PageMatchesChain` | client/src/lib/analytics/metrics.ts:163-211 | so for the log of any run the page shows the contract's number of campaigns, the average of their targets, the numbers collecting and failed as they are shown, and the sum of the deposits made |
| `AnalyticsMirror.VolumeIsFunding` | client/src/lib/analytics/metrics.ts:107-113 | the total volume is the sum of total_funded less what was reconciled, and equals it exactly if nothing was reconciled |
| `AnalyticsMirror.FundOnlyVolume` | client/src/lib/analytics/metrics.ts:107-113 | with fund_campaign as the only contribution path the total volume, the sum of the daily volumes and the sum of total_funded are the same |
| `AnalyticsMirror.ReplayOrder` | client/src/lib/analytics/metrics.ts:89 | the log of a run needs no sorting |
| `AnalyticsMirror.ReachedGuaranteesIff` | client/src/lib/analytics/metrics.ts:26-34 | of the six statuses counted as having reached the target, exactly Disputed and Resolved do not guarantee it |
| `Portfolio.FloorsWithinShare` | server/src/modules/investors/investors.service.ts:45-54 | rounding down once per deposit gives at most the single share, and less by fewer units than there are deposits |
| `Portfolio.EstimateWithinShare` | server/src/modules/investors/investors.service.ts:45-54 | for every reachable campaign and contributor, the estimates sum to at most the claim, open or already paid; they are, less than one unit per deposit short, the share of the investor's own deposits in the total with the double count; so with the contract's own total and nothing reconciled they are as close to the claim |
| `Portfolio.PortfolioWithinClaim` | server/src/modules/investors/investors.service.ts:39-54 | the same of each campaign in the portfolio read from the database that folding a run's log once leaves; `ServedPortfolio.ServedWithinClaim` is about repeats |
| `Portfolio.PortfolioInvested` | server/src/modules/investors/investors.service.ts:33-65 | of that database: one position for each deposit, the latest first, with its amount, its campaign and that campaign's status on chain; and totalInvested is the sum over all campaigns of what the investor deposited there |
| `Portfolio.PortfolioTotalWithinClaims` | server/src/modules/investors/investors.service.ts:66-77 | for the log folded once, the page's total is at most what the contract pays the investor over all campaigns, paid or open; with the contract's own totals and nothing reconciled it is short by at most one unit per deposit |
| `Portfolio.EstimateCanFallShort` | server/src/modules/investors/investors.service.ts:45-54 | with the total counted twice the estimate can be half of the claim |
| `Portfolio.ClaimKeepsEstimate` | server/src/modules/investors/investors.service.ts:45-54 | a claim leaves the estimate as it was, while the contract then pays nothing more |
| `LateRows.LateColumns` | server/src/indexer/parsers/event-parser.service.ts:1150-1271 | under deliveries that follow the log with any repeats: once a campaign is settled, its row has the contract's returns as many times as the settlement came before a delivery of it found its payee a user, that one included, and the status of the late event that was written last; until then both columns are right |
| `ServedPortfolio.InRateIff` | server/src/modules/investors/investors.service.ts:45-54 | the pool over the total as the page has them is at most the contract's exactly if the settlement is not shown, has been written at most once, returns nothing, or has been written twice where the total is doubled as well |
| `ServedPortfolio.NeverAboveIff` | server/src/modules/investors/investors.service.ts:45-54 | that is so exactly if no list of deposits whatever could be shown above its claim, roundings included |
| `ServedPortfolio.ServedWithinClaim` | server/src/modules/investors/investors.service.ts:39-80 | of the database that the indexer serves, after any life of it while the database is up, once every event has been handed over: what the page shows a contributor is the deposits' shares of the pool that the written settlements make; it is within the claim if the condition of InRateIff holds, which is exactly the condition under which no deposits could exceed theirs, and above the claim where an investor with nothing reconciled makes a unit per deposit more at the page's rate |
| `ServedPortfolio.ServedInvested` | server/src/modules/investors/investors.service.ts:33-65 | the same positions and totalInvested, whatever came again, of the database that the indexer serves once every event has been handed over |
| `ServedPortfolio.ServedTotalWithinClaims` | server/src/modules/investors/investors.service.ts:66-77 | there the page's total is within what the contract pays over all campaigns if that condition holds of each, as it does where no repeat is harmful |
| `ServedPortfolio.ShownAboveClaim` | server/src/modules/investors/investors.service.ts:45-54 | a run, and three deliveries of its settlement, after which a sole investor of 100 who can claim 60 is shown 90 |

## Left out

- Signature checking itself, TTL and archival (`extend_*_ttl`, `touch_campaign`), and panic messages: entries are always readable and those calls do nothing.
- The token contract beyond a balance map whose transfers fail only for lack of funds; negative amounts never reach it.
- `EscrowContract.ProductionEscrow.NotifyRegistry`: the activity record that it appends is not in this state; `PagedLogs` models those records on their own.
- `RegistryContract.Contract.RegisterCampaign`: title, description and creation time are not kept.
- The registry's farmer profiles and getters without logic are not part of this model.
- `Futures.NotOpenAsSetIff`: addresses of accounts and of other contracts, at which no registry can be deployed, are not told from free ones.
- `Futures.NotOpenHereIff`: the same.
- Other escrow contracts: what one of them reports to `reconcile_campaign_status` is an arbitrary input.
- `Mirror.MirrorTracks`: assumes that the registry is set before the first campaign, remains the one set, and that its admin overrides no status; without the first two, `Acceptance.RolledBackIff` says what happens.
- `Mirror.MirrorIsPast`: assumes the same.
- `Acceptance.ReportsNeverRollBack`: assumes the first two.
- `EventFold.EventParserService.PersistEvent`: an outage of the database is one of the whole call; one between its statements is not modelled, and the tranche and dispute tables are left out.
- `DbMirror.TotalMirroredIff`: integer columns are unbounded; where the second count of the completing deposit exceeds the BIGINT column, which takes a target of 2^62 or more (`DbMirror.FoldedTotalFits`), that update fails in the database.
- `EventFold.EventParserService.UpdateCampaign`: writes the campaign row without its timestamp columns, and no tranche or dispute rows.
- `Delivery.DatabaseFollowsLog`: assumes that the database is up at every hand-over; `Losses.InStepIff` says what holds otherwise.
- `Delivery.DatabaseComplete`: assumes the same.
- `ServedPortfolio.ServedWithinClaim`: assumes the same.
- `ServedPortfolio.ServedTotalWithinClaims`: assumes the same.
- `ServedPortfolio.ServedInvested`: assumes the same; the status in a position is that of the row, on which see `LateRows.LateColumns`.
- `Delivery.DatabaseCatchesUp`: assumes the same.
- `Delivery.DatabaseWillAgree`: assumes the same.
- Registry events in the database fold: the listener subscribes to the escrow contract ids only.
- `Indexer.EventListener.PollEvents`: polls are sequential, the event decoder never throws, and the contract ids are the same in every process; the RPC serves an append-only log in ledger order, gives a continuation cursor whenever events remain, and covers at least the ledgers up to the tip it reports.
- `stopListening`, the health status and the poll timer.
- `Analytics.ComputeAnalyticsMetrics`: JavaScript's rounding of numbers, date formatting and bucket labels; days are numbered, averages are exact, and timestamps are not negative.
- The lookback window with which the client fetches events: the analytics theorems are about the full log.
- Web pages, wallet and socket code, the REST layer, WebSocket tokens, NestJS wiring, configuration and logging.
