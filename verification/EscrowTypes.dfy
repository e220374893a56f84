// Data definitions shared by the escrow contract, the registry, the indexer and
// the read models: the structs of contracts/escrow_types and the payload tuples
// of contracts/production_escrow/src/events.rs.

module EscrowTypes {

  datatype Option<+T> = None | Some(value: T)

  ghost predicate Distinct<T>(s: seq<T>) {
    forall i, j :: 0 <= i < j < |s| ==> s[i] != s[j]
  }

  type Address = string
  type Symbol = string

  datatype CampaignStatus =
    Active | Funding | Funded | InProduction | Harvested | Disputed | Resolved | Settled | Failed

  // The source names the second variant Resolved, like the campaign status.
  datatype DisputeStatus = Open | Closed

  datatype Resolution = Pending | FullRefund | PartialSettlement | FullPayout

  datatype Campaign = Campaign(
    farmer: Address,
    target: int,
    token: Address,
    deadline: nat,
    metadata: Symbol,
    totalFunded: int,
    released: int,
    refundable: int,
    returnable: int,
    status: CampaignStatus)

  datatype HarvestRecord = HarvestRecord(farmer: Address, outcome: Symbol, timestamp: nat, ledger: nat)

  datatype Dispute = Dispute(
    campaign: nat,
    opener: Address,
    reason: Symbol,
    timestamp: nat,
    ledger: nat,
    status: DisputeStatus,
    resolution: Resolution)

  datatype Tranche = Tranche(amount: int, milestone: Symbol, released: bool)

  // One event payload; the campaign id travels in the topics (see LogEntry).
  datatype Event =
    | CampaignCreated(farmer: Address, timestamp: int, target: int)
    | ContribReceived(investor: Address, timestamp: int, amount: int)
    | ContribReconciled(investor: Address, timestamp: int, amount: int)
    | CampaignFunded(timestamp: int, total: int)
    | TranchesConfigured(timestamp: int, count: int)
    | TrancheReleased(recipient: Address, timestamp: int, amount: int)
    | HarvestReported(farmer: Address, outcome: Symbol, timestamp: int)
    | CampaignFailed(timestamp: int, refundable: int)
    | ReturnClaimed(investor: Address, timestamp: int, amount: int)
    | RefundClaimed(investor: Address, timestamp: int, amount: int)
    | DisputeOpened(opener: Address, reason: Symbol, timestamp: int, ledger: int)
    | DisputeResolved(admin: Address, resolution: Resolution, payout: int, refund: int, timestamp: int, ledger: int)
    | CampaignSettled(farmer: Address, timestamp: int, farmerPayout: int, investorReturns: int)

  // An event as it sits in the chain's log. Ids are handed out in log order.
  datatype LogEntry = LogEntry(id: nat, campaign: nat, ledger: nat, event: Event)

  // The events of one campaign, in log order.
  function Project(log: seq<LogEntry>, campaign: nat): seq<Event> {
    if log == [] then []
    else
      var rest := Project(log[..|log| - 1], campaign);
      var last := log[|log| - 1];
      if last.campaign == campaign then rest + [last.event] else rest
  }

  lemma ProjectAppend(log: seq<LogEntry>, e: LogEntry, campaign: nat)
    ensures Project(log + [e], campaign)
         == Project(log, campaign) + if e.campaign == campaign then [e.event] else []
  {
  }
}
