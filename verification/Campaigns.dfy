// One campaign of ProductionEscrowContract: its stored entries and what each
// entry point does to them. A step is a function from the entries to an Effect,
// or None where the contract panics and the transaction is rolled back.

module Campaigns {
  import opened EscrowTypes

  // The address of the escrow contract itself, whatever it is.
  const SELF: Address

  const I64_MAX: int := 0x7FFF_FFFF_FFFF_FFFF
  const I128_MAX: int := 0x7FFF_FFFF_FFFF_FFFF_FFFF_FFFF_FFFF_FFFF

  // The keyed store's entries for one campaign id. An absent contribution reads
  // as 0 and an absent tranche list as the empty one.
  datatype Cell = Cell(
    campaign: Campaign,
    slots: map<Address, int>,
    tranches: seq<Tranche>,
    dispute: Option<Dispute>,
    harvest: Option<HarvestRecord>)
  {
    function Slot(a: Address): int {
      if a in slots then slots[a] else 0
    }

    // Funds neither released nor set aside for investors (escrow_held).
    function Held(): int {
      campaign.totalFunded - campaign.released - campaign.refundable - campaign.returnable
    }
  }

  // Signers of a transaction. The contract's own authorization only exists
  // inside a call that it makes itself, so no transaction carries it.
  type Signers = s: set<Address> | SELF !in s witness {}

  // What a step reads from its surroundings.
  datatype Env = Env(id: nat, signers: Signers, admin: Option<Address>, now: nat, ledger: nat)
  {
    predicate AdminSigned() { admin.Some? && admin.value in signers }
    predicate IsAdmin(a: Address) { admin == Some(a) }
  }

  datatype Transfer = NoTransfer | Transfer(from: Address, to: Address, amount: int)

  // The registry call a step ends with: none, an activity record only, or an
  // activity record and a status update.
  datatype Notice = Silent | Activity | Sync(status: CampaignStatus)

  datatype Effect = Effect(cell: Cell, transfer: Transfer, checkSolvency: bool, notice: Notice, events: seq<Event>)

  datatype Op =
    | Fund(investor: Address, amount: int)
    | Receive(investor: Address, amount: int)
    | Complete(total: int)
    | Configure(tranches: seq<Tranche>)
    | Release(recipient: Address, amount: int)
    | Harvest(farmer: Address, outcome: Symbol)
    | Dispute(opener: Address, reason: Symbol)
    | Resolve(resolution: Resolution, payout: int)
    | ClaimRefund(investor: Address)
    | Settle(payee: Address, payout: int)
    | MarkFailed
    | Expire
    | ClaimReturn(investor: Address)

  predicate Accepting(s: CampaignStatus) { s.Active? || s.Funding? }

  predicate Producing(s: CampaignStatus) { s.Funded? || s.InProduction? }

  predicate Refunding(s: CampaignStatus) { s.Resolved? || s.Failed? }

  predicate Claimable(s: CampaignStatus) { Refunding(s) || s.Settled? }

  // Rust's integer division: truncation towards zero.
  function TruncDiv(a: int, b: int): int
    requires b != 0
  {
    if 0 <= a then a / b else -((-a) / b)
  }

  // create_campaign's record, once its checks have passed.
  function Newborn(farmer: Address, target: int, token: Address, deadline: nat, metadata: Symbol): Cell {
    Cell(Campaign(farmer, target, token, deadline, metadata, 0, 0, 0, 0, Active), map[], [], None, None)
  }

  // The part that fund_campaign and receive_contribution share: what recording
  // a contribution does to the entries, unless the campaign does not accept it.
  function Record(c: Cell, e: Env, investor: Address, amount: int): Option<Cell> {
    var k := c.campaign;
    if amount <= 0 || !Accepting(k.status) || k.deadline < e.now || k.target - k.totalFunded < amount then None
    else Some(c.(
      campaign := k.(totalFunded := k.totalFunded + amount, status := Funding),
      slots := c.slots[investor := c.Slot(investor) + amount]))
  }

  function FundStep(c: Cell, e: Env, investor: Address, amount: int): Option<Effect> {
    var recorded := Record(c, e, investor, amount);
    if recorded.None? || investor !in e.signers then None
    else
      var k := recorded.value.campaign;
      var deposit := Transfer(investor, SELF, amount);
      var received := ContribReceived(investor, e.now, amount);
      if k.target <= k.totalFunded then
        Some(Effect(recorded.value.(campaign := k.(status := Funded)), deposit, true, Sync(Funded),
                    [CampaignFunded(e.now, k.totalFunded), received]))
      else
        Some(Effect(recorded.value, deposit, true, Activity, [received]))
  }

  function ReceiveStep(c: Cell, e: Env, investor: Address, amount: int): Option<Effect> {
    var recorded := Record(c, e, investor, amount);
    if recorded.None? || !e.AdminSigned() || c.campaign.farmer !in e.signers then None
    else Some(Effect(recorded.value, NoTransfer, true, Silent, [ContribReconciled(investor, e.now, amount)]))
  }

  function CompleteStep(c: Cell, e: Env, total: int): Option<Effect> {
    var k := c.campaign;
    if !e.AdminSigned() || !Accepting(k.status) || total != k.totalFunded || k.totalFunded < k.target then None
    else Some(Effect(c.(campaign := k.(status := Funded)), NoTransfer, false, Silent, [CampaignFunded(e.now, total)]))
  }

  function Total(ts: seq<Tranche>): int {
    if ts == [] then 0 else Total(ts[..|ts| - 1]) + ts[|ts| - 1].amount
  }

  function ConfigureStep(c: Cell, e: Env, ts: seq<Tranche>): Option<Effect> {
    if !e.AdminSigned() || !c.campaign.status.Funded? || ts == []
       || (exists i :: 0 <= i < |ts| && ts[i].amount <= 0)
       || c.campaign.totalFunded < Total(ts)
    then None
    else Some(Effect(c.(tranches := ts), NoTransfer, false, Silent, [TranchesConfigured(e.now, |ts|)]))
  }

  // The list with its first unreleased tranche of this amount flagged, if any.
  function MarkFirst(ts: seq<Tranche>, amount: int): Option<seq<Tranche>> {
    if ts == [] then None
    else if !ts[0].released && ts[0].amount == amount then Some([ts[0].(released := true)] + ts[1..])
    else
      var rest := MarkFirst(ts[1..], amount);
      if rest.None? then None else Some([ts[0]] + rest.value)
  }

  function ReleaseStep(c: Cell, e: Env, recipient: Address, amount: int): Option<Effect> {
    var k := c.campaign;
    var marked := if c.tranches == [] then Some([]) else MarkFirst(c.tranches, amount);
    if amount <= 0 || !e.AdminSigned() || !Producing(k.status) || c.Held() < amount || marked.None? then None
    else Some(Effect(
      c.(campaign := k.(status := InProduction, released := k.released + amount), tranches := marked.value),
      NoTransfer, false, Sync(InProduction), [TrancheReleased(recipient, e.now, amount)]))
  }

  function HarvestStep(c: Cell, e: Env, farmer: Address, outcome: Symbol): Option<Effect> {
    var k := c.campaign;
    if (k.farmer != farmer && !e.IsAdmin(farmer)) || farmer !in e.signers || !Producing(k.status) then None
    else Some(Effect(
      c.(campaign := k.(status := Harvested), harvest := Some(HarvestRecord(farmer, outcome, e.now, e.ledger))),
      NoTransfer, false, Sync(Harvested), [HarvestReported(farmer, outcome, e.now)]))
  }

  function DisputeStep(c: Cell, e: Env, opener: Address, reason: Symbol): Option<Effect> {
    var k := c.campaign;
    if !(Accepting(k.status) || Producing(k.status))
       || (k.farmer != opener && c.Slot(opener) <= 0 && !e.IsAdmin(opener))
       || opener !in e.signers
    then None
    else Some(Effect(
      c.(campaign := k.(status := Disputed),
         dispute := Some(EscrowTypes.Dispute(e.id, opener, reason, e.now, e.ledger, DisputeStatus.Open, Pending))),
      NoTransfer, false, Sync(Disputed), [DisputeOpened(opener, reason, e.now, e.ledger)]))
  }

  // What a resolution pays the farmer out of the held funds; the rest becomes
  // refundable.
  function FarmerShare(resolution: Resolution, payout: int, held: int): Option<int> {
    match resolution
    case Pending => None
    case FullRefund => if payout != 0 then None else Some(0)
    case FullPayout => if payout != 0 then None else Some(held)
    case PartialSettlement => if payout <= 0 || held <= payout then None else Some(payout)
  }

  function ResolveStep(c: Cell, e: Env, resolution: Resolution, payout: int): Option<Effect> {
    var k := c.campaign;
    var farmer := FarmerShare(resolution, payout, c.Held());
    if !e.AdminSigned() || !k.status.Disputed? || c.dispute.None? || !c.dispute.value.status.Open? || farmer.None?
    then None
    else
      var refund := c.Held() - farmer.value;
      Some(Effect(
        c.(campaign := k.(released := k.released + farmer.value, refundable := k.refundable + refund,
                          status := Resolved),
           dispute := Some(c.dispute.value.(status := Closed, resolution := resolution))),
        NoTransfer, false, Sync(Resolved),
        [DisputeResolved(e.admin.value, resolution, farmer.value, refund, e.now, e.ledger)]))
  }

  // One investor's part of a pool, or None where claiming panics.
  function ClaimShare(c: Cell, e: Env, investor: Address, pool: int): Option<int> {
    var k := c.campaign;
    if c.Slot(investor) <= 0 || k.totalFunded == 0 then None
    else
      var share := TruncDiv(c.Slot(investor) * pool, k.totalFunded);
      if share <= 0 || investor !in e.signers then None else Some(share)
  }

  function ClaimRefundStep(c: Cell, e: Env, investor: Address): Option<Effect> {
    var share := ClaimShare(c, e, investor, c.campaign.refundable);
    if !Refunding(c.campaign.status) || share.None? then None
    else Some(Effect(c.(slots := c.slots[investor := 0]), Transfer(SELF, investor, share.value), false, Silent,
                     [RefundClaimed(investor, e.now, share.value)]))
  }

  function ClaimReturnStep(c: Cell, e: Env, investor: Address): Option<Effect> {
    var share := ClaimShare(c, e, investor, c.campaign.returnable);
    if !c.campaign.status.Settled? || share.None? then None
    else Some(Effect(c.(slots := c.slots[investor := 0]), Transfer(SELF, investor, share.value), false, Silent,
                     [ReturnClaimed(investor, e.now, share.value)]))
  }

  function SettleStep(c: Cell, e: Env, payee: Address, payout: int): Option<Effect> {
    var k := c.campaign;
    if payout < 0 || !e.AdminSigned() || !k.status.Harvested? || c.Held() < payout then None
    else
      var investors := c.Held() - payout;
      Some(Effect(
        c.(campaign := k.(released := k.released + payout, returnable := k.returnable + investors, status := Settled)),
        if 0 < payout then Transfer(SELF, payee, payout) else NoTransfer, false, Sync(Settled),
        [CampaignSettled(payee, e.now, payout, investors)]))
  }

  // The write that mark_failed and expire_campaign share.
  function Failing(c: Cell, e: Env, notice: Notice): Effect {
    var k := c.campaign;
    var refundable := k.refundable + c.Held();
    Effect(c.(campaign := k.(refundable := refundable, status := Failed)), NoTransfer, false, notice,
           [CampaignFailed(e.now, refundable)])
  }

  function MarkFailedStep(c: Cell, e: Env): Option<Effect> {
    if !e.AdminSigned() || !(Accepting(c.campaign.status) || Producing(c.campaign.status)) then None
    else Some(Failing(c, e, Sync(Failed)))
  }

  function ExpireStep(c: Cell, e: Env): Option<Effect> {
    var k := c.campaign;
    if !Accepting(k.status) || e.now <= k.deadline || k.target <= k.totalFunded then None
    else Some(Failing(c, e, Silent))
  }

  function Attempt(c: Cell, e: Env, op: Op): Option<Effect> {
    match op
    case Fund(investor, amount) => FundStep(c, e, investor, amount)
    case Receive(investor, amount) => ReceiveStep(c, e, investor, amount)
    case Complete(total) => CompleteStep(c, e, total)
    case Configure(ts) => ConfigureStep(c, e, ts)
    case Release(recipient, amount) => ReleaseStep(c, e, recipient, amount)
    case Harvest(farmer, outcome) => HarvestStep(c, e, farmer, outcome)
    case Dispute(opener, reason) => DisputeStep(c, e, opener, reason)
    case Resolve(resolution, payout) => ResolveStep(c, e, resolution, payout)
    case ClaimRefund(investor) => ClaimRefundStep(c, e, investor)
    case Settle(payee, payout) => SettleStep(c, e, payee, payout)
    case MarkFailed => MarkFailedStep(c, e)
    case Expire => ExpireStep(c, e)
    case ClaimReturn(investor) => ClaimReturnStep(c, e, investor)
  }

  // The claim that a campaign's status asks for.
  function ClaimCall(c: Cell, a: Address): Op {
    if c.campaign.status.Settled? then ClaimReturn(a) else ClaimRefund(a)
  }

  // ------------------------------------------------------------ local runs

  // The arguments of a create_campaign call that passed its checks.
  datatype Birth = Birth(farmer: Address, target: int, token: Address, deadline: nat, metadata: Symbol, now: nat)
  {
    predicate Valid() { 0 < target <= I64_MAX && now < deadline }
    function Cell(): Cell { Newborn(farmer, target, token, deadline, metadata) }
    function Trace(): seq<Event> { [CampaignCreated(farmer, now, target)] }
  }

  datatype Try = Try(env: Env, op: Op)

  // A campaign together with every event it has emitted.
  datatype Life = Life(cell: Cell, trace: seq<Event>)

  function Advance(l: Life, t: Try): Life {
    var x := Attempt(l.cell, t.env, t.op);
    if x.None? then l else Life(x.value.cell, l.trace + x.value.events)
  }

  // A campaign's life from its creation through a list of attempted steps.
  function Lived(b: Birth, tries: seq<Try>): Life {
    if tries == [] then Life(b.Cell(), b.Trace())
    else Advance(Lived(b, tries[..|tries| - 1]), tries[|tries| - 1])
  }
}
