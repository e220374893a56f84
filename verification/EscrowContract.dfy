// ProductionEscrowContract in the form of its source: entry points that load a
// campaign, check, update and write it back step by step. Each is proved to do
// exactly what Chain.Apply says, and nothing at all where the source panics.

module EscrowContract {
  import opened EscrowTypes
  import opened Campaigns
  import opened Chain

  // What an entry point must have done, piece by piece, to have run to completion.
  lemma Committed(s: State, s1: State, signers: Signers, id: nat, op: Op)
    requires id in s.cells
    requires s1 == s.(cells := s1.cells, log := s1.log, balances := s1.balances, registries := s1.registries)
    requires Attempt(s.cells[id], EnvOf(s, signers, id), op).Some?
    requires var x := Attempt(s.cells[id], EnvOf(s, signers, id), op).value;
             && Move(s.balances, x.cell.campaign.token, x.transfer) == Some(s1.balances)
             && (x.checkSolvency ==> Solvent(x.cell, s1.balances))
             && Notified(s, id, x.notice) == Some(s1.registries)
             && s1.cells == s.cells[id := x.cell]
             && 1 <= |x.events| <= 2 && s1.log == Stamped(s.log, id, s.ledger, x.events)
    ensures Apply(s, signers, On(id, op)) == Some(s1)
  {
    AppendStamped(s.log, id, s.ledger, Attempt(s.cells[id], EnvOf(s, signers, id), op).value.events);
  }

  // What the registry makes of a notice does not depend on what the call has written.
  lemma NotifiedSame(s: State, s1: State, id: nat, notice: Notice)
    requires s1.registryAt == s.registryAt && s1.registries == s.registries
    ensures Notified(s1, id, notice) == Notified(s, id, notice)
  {
  }

  lemma NotCommitted(s: State, signers: Signers, id: nat, op: Op)
    requires id in s.cells && Attempt(s.cells[id], EnvOf(s, signers, id), op).Some?
    requires Notified(s, id, Attempt(s.cells[id], EnvOf(s, signers, id), op).value.notice).None?
    ensures Apply(s, signers, On(id, op)).None?
  {
  }

  // The checks of an entry point have passed, and its token transfer has been made.
  ghost predicate Decided(s: State, signers: Signers, id: nat, op: Op, balances: Balances) {
    && id in s.cells && Attempt(s.cells[id], EnvOf(s, signers, id), op).Some?
    && var x := Attempt(s.cells[id], EnvOf(s, signers, id), op).value;
       Move(s.balances, x.cell.campaign.token, x.transfer) == Some(balances)
  }

  // The event that a call has emitted so far, if any.
  ghost function Reported(before: seq<LogEntry>, log: seq<LogEntry>): seq<Event> {
    if |before| < |log| then [log[|before|].event] else []
  }

  // How far the loop of release_tranche has got: nothing flagged among the first i,
  // or the first match flagged and the rest still to copy.
  ghost predicate Marking(tranches: seq<Tranche>, amount: int, i: nat, found: bool, updated: seq<Tranche>)
    requires i <= |tranches|
  {
    if found then MarkFirst(tranches, amount) == Some(updated + tranches[i..])
    else
      var rest := MarkFirst(tranches[i..], amount);
      updated == tranches[..i] && MarkFirst(tranches, amount) == if rest.None? then None else Some(updated + rest.value)
  }

  lemma MarkingStep(tranches: seq<Tranche>, amount: int, i: nat, found: bool, updated: seq<Tranche>)
    requires i < |tranches| && Marking(tranches, amount, i, found, updated)
    ensures var t := tranches[i];
            if !found && !t.released && t.amount == amount
            then Marking(tranches, amount, i + 1, true, updated + [t.(released := true)])
            else Marking(tranches, amount, i + 1, found, updated + [t])
  {
    var t, rest := tranches[i], tranches[i + 1..];
    assert tranches[i..] == [t] + rest;
    if !found && !t.released && t.amount == amount {
      assert updated + ([t.(released := true)] + rest) == updated + [t.(released := true)] + rest;
    } else if found {
      assert updated + ([t] + rest) == updated + [t] + rest;
    } else if MarkFirst(rest, amount).Some? {
      assert updated + ([t] + MarkFirst(rest, amount).value) == updated + [t] + MarkFirst(rest, amount).value;
    }
  }

  class ProductionEscrow {
    var admin: Option<Address>
    var registryAt: Option<Address>
    var cells: map<nat, Cell>
    var log: seq<LogEntry>
    var balances: Balances
    var registries: Registries
    var now: nat
    var ledger: nat

    constructor ()
      ensures Snapshot() == Genesis()
    {
      admin, registryAt, cells, log, balances := None, None, map[], [], map[];
      registries, now, ledger := map[], 0, 0;
    }

    function Snapshot(): State
      reads this
    {
      State(admin, registryAt, cells, log, balances, registries, now, ledger)
    }

    // A call ran to completion, or panicked and left the state s0 it found.
    predicate Executed(s0: State, signers: Signers, call: Call, ok: bool)
      reads this
    {
      var r := Apply(s0, signers, call);
      ok == r.Some? && Snapshot() == if r.Some? then r.value else s0
    }

    // ---------------------------------------------------------- storage, events, token, registries

    // What the host does when a call panics after it has written something.
    method Rollback(s: State)
      modifies this
      ensures Snapshot() == s
    {
      admin, registryAt, cells, log := s.admin, s.registryAt, s.cells, s.log;
      balances, registries, now, ledger := s.balances, s.registries, s.now, s.ledger;
    }

    method SetCampaign(id: nat, campaign: Campaign)
      requires id in cells
      modifies this`cells
      ensures cells == old(cells)[id := old(cells)[id].(campaign := campaign)]
    {
      cells := cells[id := cells[id].(campaign := campaign)];
    }

    method SetContribution(id: nat, investor: Address, amount: int)
      requires id in cells
      modifies this`cells
      ensures cells == old(cells)[id := old(cells)[id].(slots := old(cells)[id].slots[investor := amount])]
    {
      cells := cells[id := cells[id].(slots := cells[id].slots[investor := amount])];
    }

    // The two writes that record a contribution.
    method StoreContribution(id: nat, campaign: Campaign, investor: Address, amount: int)
      requires id in cells
      modifies this`cells
      ensures cells == old(cells)[id := old(cells)[id].(
                campaign := campaign,
                slots := old(cells)[id].slots[investor := old(cells)[id].Slot(investor) + amount])]
    {
      SetCampaign(id, campaign);
      SetContribution(id, investor, cells[id].Slot(investor) + amount);
    }

    method SetTranches(id: nat, tranches: seq<Tranche>)
      requires id in cells
      modifies this`cells
      ensures cells == old(cells)[id := old(cells)[id].(tranches := tranches)]
    {
      cells := cells[id := cells[id].(tranches := tranches)];
    }

    method SetDispute(id: nat, dispute: EscrowTypes.Dispute)
      requires id in cells
      modifies this`cells
      ensures cells == old(cells)[id := old(cells)[id].(dispute := Some(dispute))]
    {
      cells := cells[id := cells[id].(dispute := Some(dispute))];
    }

    method SetHarvest(id: nat, harvest: HarvestRecord)
      requires id in cells
      modifies this`cells
      ensures cells == old(cells)[id := old(cells)[id].(harvest := Some(harvest))]
    {
      cells := cells[id := cells[id].(harvest := Some(harvest))];
    }

    method Emit(id: nat, event: Event)
      modifies this`log
      ensures log == old(log) + [LogEntry(|old(log)|, id, ledger, event)]
    {
      log := log + [LogEntry(|log|, id, ledger, event)];
    }

    method TokenTransfer(token: Address, from: Address, to: Address, amount: int) returns (ok: bool)
      modifies this`balances
      ensures ok == Move(old(balances), token, Transfer(from, to, amount)).Some?
      ensures balances == if ok then Move(old(balances), token, Transfer(from, to, amount)).value else old(balances)
    {
      ok := amount <= Balance(balances, token, from);
      if ok {
        balances := Credit(Credit(balances, token, from, -amount), token, to, amount);
      }
    }

    method NotifyRegistry(id: nat, notice: Notice) returns (ok: bool)
      modifies this`registries
      ensures ok == Notified(old(Snapshot()), id, notice).Some?
      ensures registries == if ok then Notified(old(Snapshot()), id, notice).value else old(registries)
    {
      if registryAt.None? || notice.Silent? {
        return true;
      }
      var at := registryAt.value;
      if at !in registries {
        return false;
      }
      ok := true;
      if notice.Sync? {
        var updated := UpdateStatus(registries[at], {SELF}, id, SELF, notice.status);
        ok := updated.Some?;
        if ok {
          registries := registries[at := updated.value];
        }
      }
    }

    // How fund_campaign ends: campaign and contribution are written back, the
    // registry is notified, and unless that panics the deposit is reported.
    method ConcludeDeposit(s: State, signers: Signers, id: nat, campaign: Campaign, investor: Address,
                           amount: int) returns (ok: bool)
      requires Decided(s, signers, id, Fund(investor, amount), balances)
      requires var x := Attempt(s.cells[id], EnvOf(s, signers, id), Fund(investor, amount)).value;
               && x.cell == s.cells[id].(campaign := campaign,
                    slots := s.cells[id].slots[investor := s.cells[id].Slot(investor) + amount])
               && x.notice == (if campaign.status == Funded then Sync(Funded) else Activity)
               && x.events == Reported(s.log, log) + [ContribReceived(investor, now, amount)]
               && (x.checkSolvency ==> Solvent(x.cell, balances))
      requires Snapshot() == s.(balances := balances, log := log)
      requires log == s.log || (|log| == |s.log| + 1
          && log == s.log + [LogEntry(|s.log|, id, ledger, log[|s.log|].event)])
      modifies this
      ensures Executed(s, signers, On(id, Fund(investor, amount)), ok)
    {
      StoreContribution(id, campaign, investor, amount);
      NotifiedSame(s, Snapshot(), id, if campaign.status == Funded then Sync(Funded) else Activity);
      ok := NotifyRegistry(id, if campaign.status == Funded then Sync(Funded) else Activity);
      if ok {
        Emit(id, ContribReceived(investor, now, amount));
        Committed(s, Snapshot(), signers, id, Fund(investor, amount));
      } else {
        Rollback(s);
        NotCommitted(s, signers, id, Fund(investor, amount));
      }
    }

    // How receive_contribution ends: unless the contract would owe more than it
    // has, campaign and contribution are written back and reported.
    method ConcludeReconciled(signers: Signers, id: nat, campaign: Campaign, investor: Address,
                              amount: int) returns (ok: bool)
      requires id in cells && Attempt(cells[id], EnvOf(Snapshot(), signers, id), Receive(investor, amount)).Some?
      requires Attempt(cells[id], EnvOf(Snapshot(), signers, id), Receive(investor, amount)).value.cell.campaign
          == campaign
      modifies this
      ensures Executed(old(Snapshot()), signers, On(id, Receive(investor, amount)), ok)
    {
      ghost var s := Snapshot();
      if !Solvent(cells[id].(campaign := campaign), balances) {
        return false;
      }
      StoreContribution(id, campaign, investor, amount);
      Emit(id, ContribReconciled(investor, now, amount));
      Committed(s, Snapshot(), signers, id, Receive(investor, amount));
      return true;
    }

    // How most entry points end: the campaign is written back, the registry is
    // notified, and unless that panics the event is emitted.
    method Conclude(s: State, signers: Signers, id: nat, ghost op: Op, campaign: Campaign, notice: Notice,
                    event: Event) returns (ok: bool)
      requires id in cells && Decided(s, signers, id, op, balances)
      requires var x := Attempt(s.cells[id], EnvOf(s, signers, id), op).value;
               x == Effect(cells[id].(campaign := campaign), x.transfer, false, notice, [event])
      requires Snapshot() == s.(balances := balances, cells := s.cells[id := cells[id]])
      modifies this
      ensures Executed(s, signers, On(id, op), ok)
    {
      SetCampaign(id, campaign);
      NotifiedSame(s, Snapshot(), id, notice);
      ok := NotifyRegistry(id, notice);
      if ok {
        Emit(id, event);
        Committed(s, Snapshot(), signers, id, op);
      } else {
        Rollback(s);
        NotCommitted(s, signers, id, op);
      }
    }

    // How the two claims end: the slot is zeroed, and unless the transfer of the
    // share panics it is reported.
    method ConcludeClaim(signers: Signers, id: nat, ghost op: Op, investor: Address, share: int,
                         event: Event) returns (ok: bool)
      requires id in cells && Attempt(cells[id], EnvOf(Snapshot(), signers, id), op).Some?
      requires Attempt(cells[id], EnvOf(Snapshot(), signers, id), op).value
               == Effect(cells[id].(slots := cells[id].slots[investor := 0]), Transfer(SELF, investor, share), false,
                   Silent, [event])
      modifies this
      ensures Executed(old(Snapshot()), signers, On(id, op), ok)
    {
      var s := Snapshot();
      SetContribution(id, investor, 0);
      ok := TokenTransfer(cells[id].campaign.token, SELF, investor, share);
      if ok {
        Emit(id, event);
        Committed(s, Snapshot(), signers, id, op);
      } else {
        Rollback(s);
      }
    }

    // ---------------------------------------------------------- administration

    method Initialize(signers: Signers, newAdmin: Address) returns (ok: bool)
      modifies this
      ensures Executed(old(Snapshot()), signers, Call.Initialize(newAdmin), ok)
    {
      if admin.Some? || newAdmin !in signers {
        return false;
      }
      admin := Some(newAdmin);
      return true;
    }

    method SetRegistry(signers: Signers, address: Address) returns (ok: bool)
      modifies this
      ensures Executed(old(Snapshot()), signers, Call.SetRegistry(address), ok)
    {
      if admin.None? || admin.value !in signers {
        return false;
      }
      registryAt := Some(address);
      return true;
    }

    method CreateCampaign(signers: Signers, id: nat, farmer: Address, target: int, token: Address, deadline: nat,
                          metadata: Symbol)
      returns (ok: bool)
      modifies this
      ensures Executed(old(Snapshot()), signers, Call.CreateCampaign(id, farmer, target, token, deadline, metadata), ok)
    {
      if id in cells || target <= 0 || deadline <= now || I64_MAX < target || farmer !in signers {
        return false;
      }
      var s := Snapshot();
      cells := cells[id := Newborn(farmer, target, token, deadline, metadata)];
      if registryAt.Some? {
        if registryAt.value !in registries {
          Rollback(s);
          return false;
        }
        var at := registryAt.value;
        var linked := LinkEscrow(registries[at], signers + {SELF}, id, farmer, SELF, metadata, metadata);
        if linked.None? {
          Rollback(s);
          return false;
        }
        registries := registries[at := linked.value];
      }
      ok := NotifyRegistry(id, Activity);
      Emit(id, CampaignCreated(farmer, now, target));
      AppendStamped(s.log, id, ledger, [CampaignCreated(farmer, now, target)]);
    }

    // ---------------------------------------------------------- funding

    method FundCampaign(signers: Signers, id: nat, investor: Address, amount: int) returns (ok: bool)
      modifies this
      ensures Executed(old(Snapshot()), signers, On(id, Fund(investor, amount)), ok)
    {
      if amount <= 0 || investor !in signers || id !in cells {
        return false;
      }
      var campaign := cells[id].campaign;
      if campaign.status != Active && campaign.status != Funding {
        return false;
      }
      if campaign.deadline < now {
        return false;
      }
      var s := Snapshot();
      ok := TokenTransfer(campaign.token, investor, SELF, amount);
      if ok {
        ok := Deposit(s, signers, id, investor, amount);
      }
    }

    // The rest of fund_campaign, after the token transfer.
    method Deposit(s: State, signers: Signers, id: nat, investor: Address, amount: int) returns (ok: bool)
      requires 0 < amount && investor in signers && id in cells
      requires Accepting(cells[id].campaign.status) && now <= cells[id].campaign.deadline
      requires Move(s.balances, cells[id].campaign.token, Transfer(investor, SELF, amount)) == Some(balances)
      requires Snapshot() == s.(balances := balances)
      modifies this
      ensures Executed(s, signers, On(id, Fund(investor, amount)), ok)
    {
      var campaign := cells[id].campaign;
      var remaining := campaign.target - campaign.totalFunded;
      if remaining < amount {
        Rollback(s);
        return false;
      }
      campaign := campaign.(totalFunded := campaign.totalFunded + amount);
      campaign := campaign.(status := Funding);
      if campaign.target <= campaign.totalFunded {
        campaign := campaign.(status := Funded);
        Emit(id, CampaignFunded(now, campaign.totalFunded));
      }
      if !Solvent(cells[id].(campaign := campaign), balances) {
        Rollback(s);
        return false;
      }
      ok := ConcludeDeposit(s, signers, id, campaign, investor, amount);
    }

    method ReceiveContribution(signers: Signers, id: nat, investor: Address, amount: int) returns (ok: bool)
      modifies this
      ensures Executed(old(Snapshot()), signers, On(id, Receive(investor, amount)), ok)
    {
      if amount <= 0 || admin.None? || admin.value !in signers || id !in cells {
        return false;
      }
      var campaign := cells[id].campaign;
      if campaign.farmer !in signers {
        return false;
      }
      if campaign.status != Active && campaign.status != Funding {
        return false;
      }
      if campaign.deadline < now {
        return false;
      }
      var remaining := campaign.target - campaign.totalFunded;
      if remaining < amount {
        return false;
      }
      campaign := campaign.(totalFunded := campaign.totalFunded + amount);
      campaign := campaign.(status := Funding);
      ok := ConcludeReconciled(signers, id, campaign, investor, amount);
    }

    method CompleteFunding(signers: Signers, id: nat, total: int) returns (ok: bool)
      modifies this
      ensures Executed(old(Snapshot()), signers, On(id, Complete(total)), ok)
    {
      if admin.None? || admin.value !in signers || id !in cells {
        return false;
      }
      ghost var s := Snapshot();
      var campaign := cells[id].campaign;
      if campaign.status != Active && campaign.status != Funding {
        return false;
      }
      if total != campaign.totalFunded || campaign.totalFunded < campaign.target {
        return false;
      }
      campaign := campaign.(status := Funded);
      SetCampaign(id, campaign);
      Emit(id, CampaignFunded(now, total));
      Committed(s, Snapshot(), signers, id, Complete(total));
      return true;
    }

    // ---------------------------------------------------------- tranches

    // The running sum is an i128: overflowing it panics.
    method ConfigureTranches(signers: Signers, id: nat, tranches: seq<Tranche>) returns (ok: bool)
      requires id in cells ==> cells[id].campaign.totalFunded <= I128_MAX
      modifies this
      ensures Executed(old(Snapshot()), signers, On(id, Configure(tranches)), ok)
    {
      if admin.None? || admin.value !in signers || id !in cells {
        return false;
      }
      ghost var s := Snapshot();
      var campaign := cells[id].campaign;
      if campaign.status != Funded || tranches == [] {
        return false;
      }
      var total := 0;
      for i := 0 to |tranches|
        invariant total == Total(tranches[..i])
        invariant forall j :: 0 <= j < i ==> 0 < tranches[j].amount
        invariant Snapshot() == old(Snapshot())
      {
        if tranches[i].amount <= 0 {
          return false;
        }
        assert tranches[..i + 1][..i] == tranches[..i];
        if I128_MAX < total + tranches[i].amount {
          TotalGrows(tranches, i + 1);
          return false;
        }
        total := total + tranches[i].amount;
      }
      assert tranches[..|tranches|] == tranches;
      if campaign.totalFunded < total {
        return false;
      }
      SetTranches(id, tranches);
      Emit(id, TranchesConfigured(now, |tranches|));
      Committed(s, Snapshot(), signers, id, Configure(tranches));
      return true;
    }

    method ReleaseTranche(signers: Signers, id: nat, recipient: Address, amount: int) returns (ok: bool)
      modifies this
      ensures Executed(old(Snapshot()), signers, On(id, Release(recipient, amount)), ok)
    {
      if amount <= 0 || admin.None? || admin.value !in signers || id !in cells {
        return false;
      }
      var s := Snapshot();
      var campaign := cells[id].campaign;
      if campaign.status != Funded && campaign.status != InProduction {
        return false;
      }
      if cells[id].Held() < amount {
        return false;
      }
      var tranches := cells[id].tranches;
      if tranches != [] {
        var found, updated := Mark(tranches, amount);
        if !found {
          return false;
        }
        SetTranches(id, updated);
      }
      if campaign.status == Funded {
        campaign := campaign.(status := InProduction);
      }
      campaign := campaign.(released := campaign.released + amount);
      ok := Conclude(s, signers, id, Release(recipient, amount), campaign, Sync(campaign.status),
        TrancheReleased(recipient, now, amount));
    }

    // The source's loop: copy the list, flagging the first unreleased match.
    static method Mark(tranches: seq<Tranche>, amount: int) returns (found: bool, updated: seq<Tranche>)
      ensures found == MarkFirst(tranches, amount).Some?
      ensures updated == if found then MarkFirst(tranches, amount).value else tranches
    {
      found, updated := false, [];
      assert tranches[0..] == tranches;
      if MarkFirst(tranches, amount).Some? {
        assert [] + MarkFirst(tranches, amount).value == MarkFirst(tranches, amount).value;
      }
      for i := 0 to |tranches|
        invariant Marking(tranches, amount, i, found, updated)
      {
        var t := tranches[i];
        MarkingStep(tranches, amount, i, found, updated);
        if !found && !t.released && t.amount == amount {
          updated := updated + [t.(released := true)];
          found := true;
        } else {
          updated := updated + [t];
        }
      }
    }

    // ---------------------------------------------------------- harvest and disputes

    method ReportHarvest(signers: Signers, id: nat, farmer: Address, outcome: Symbol) returns (ok: bool)
      modifies this
      ensures Executed(old(Snapshot()), signers, On(id, Harvest(farmer, outcome)), ok)
    {
      if id !in cells {
        return false;
      }
      var s := Snapshot();
      var campaign := cells[id].campaign;
      if campaign.farmer != farmer && admin != Some(farmer) {
        return false;
      }
      if farmer !in signers || (campaign.status != Funded && campaign.status != InProduction) {
        return false;
      }
      SetHarvest(id, HarvestRecord(farmer, outcome, now, ledger));
      campaign := campaign.(status := Harvested);
      ok := Conclude(s, signers, id, Harvest(farmer, outcome), campaign, Sync(Harvested),
        HarvestReported(farmer, outcome, now));
    }

    method OpenDispute(signers: Signers, id: nat, opener: Address, reason: Symbol) returns (ok: bool)
      modifies this
      ensures Executed(old(Snapshot()), signers, On(id, Op.Dispute(opener, reason)), ok)
    {
      if id !in cells {
        return false;
      }
      var s := Snapshot();
      var campaign := cells[id].campaign;
      if campaign.status != Active && campaign.status != Funding
         && campaign.status != Funded && campaign.status != InProduction
      {
        return false;
      }
      var isFarmer := campaign.farmer == opener;
      var isContributor := 0 < cells[id].Slot(opener);
      var isAdmin := admin == Some(opener);
      if (!isFarmer && !isContributor && !isAdmin) || opener !in signers {
        return false;
      }
      SetDispute(id, EscrowTypes.Dispute(id, opener, reason, now, ledger, DisputeStatus.Open, Pending));
      campaign := campaign.(status := Disputed);
      ok := Conclude(s, signers, id, Op.Dispute(opener, reason), campaign, Sync(Disputed),
        DisputeOpened(opener, reason, now, ledger));
    }

    method ResolveDispute(signers: Signers, id: nat, resolution: Resolution, payout: int) returns (ok: bool)
      modifies this
      ensures Executed(old(Snapshot()), signers, On(id, Resolve(resolution, payout)), ok)
    {
      if admin.None? || admin.value !in signers || id !in cells {
        return false;
      }
      var s := Snapshot();
      var campaign := cells[id].campaign;
      if campaign.status != Disputed || cells[id].dispute.None?
         || cells[id].dispute.value.status != DisputeStatus.Open
      {
        return false;
      }
      var dispute := cells[id].dispute.value;
      var held := cells[id].Held();
      var toFarmer, toInvestors;
      match resolution {
        case Pending =>
          return false;
        case FullRefund =>
          if payout != 0 {
            return false;
          }
          toFarmer, toInvestors := 0, held;
        case FullPayout =>
          if payout != 0 {
            return false;
          }
          toFarmer, toInvestors := held, 0;
        case PartialSettlement =>
          if payout <= 0 || held <= payout {
            return false;
          }
          toFarmer, toInvestors := payout, held - payout;
      }
      campaign := campaign.(released := campaign.released + toFarmer);
      campaign := campaign.(refundable := campaign.refundable + toInvestors);
      campaign := campaign.(status := Resolved);
      SetDispute(id, dispute.(status := Closed, resolution := resolution));
      ok := Conclude(s, signers, id, Resolve(resolution, payout), campaign, Sync(Resolved),
        DisputeResolved(admin.value, resolution, toFarmer, toInvestors, now, ledger));
    }

    // ---------------------------------------------------------- settlement, failure, claims

    method ClaimRefund(signers: Signers, id: nat, investor: Address) returns (ok: bool)
      modifies this
      ensures Executed(old(Snapshot()), signers, On(id, Op.ClaimRefund(investor)), ok)
    {
      if id !in cells {
        return false;
      }
      var campaign := cells[id].campaign;
      if campaign.status != Resolved && campaign.status != Failed {
        return false;
      }
      var contributed := cells[id].Slot(investor);
      if contributed <= 0 || campaign.totalFunded == 0 {
        return false;
      }
      var share := TruncDiv(contributed * campaign.refundable, campaign.totalFunded);
      if share <= 0 || investor !in signers {
        return false;
      }
      ok := ConcludeClaim(signers, id, Op.ClaimRefund(investor), investor, share, RefundClaimed(investor, now, share));
    }

    method SettleCampaign(signers: Signers, id: nat, payee: Address, payout: int) returns (ok: bool)
      modifies this
      ensures Executed(old(Snapshot()), signers, On(id, Settle(payee, payout)), ok)
    {
      if payout < 0 || admin.None? || admin.value !in signers || id !in cells {
        return false;
      }
      var s := Snapshot();
      var campaign := cells[id].campaign;
      if campaign.status != Harvested {
        return false;
      }
      var held := cells[id].Held();
      if held < payout {
        return false;
      }
      var investorReturns := held - payout;
      if 0 < payout {
        var moved := TokenTransfer(campaign.token, SELF, payee, payout);
        if !moved {
          return false;
        }
      }
      campaign := campaign.(released := campaign.released + payout);
      campaign := campaign.(returnable := campaign.returnable + investorReturns);
      campaign := campaign.(status := Settled);
      ok := Conclude(s, signers, id, Settle(payee, payout), campaign, Sync(Settled),
        CampaignSettled(payee, now, payout, investorReturns));
    }

    method MarkFailed(signers: Signers, id: nat) returns (ok: bool)
      modifies this
      ensures Executed(old(Snapshot()), signers, On(id, Op.MarkFailed), ok)
    {
      if admin.None? || admin.value !in signers || id !in cells {
        return false;
      }
      var s := Snapshot();
      var campaign := cells[id].campaign;
      if campaign.status != Active && campaign.status != Funding
         && campaign.status != Funded && campaign.status != InProduction
      {
        return false;
      }
      var held := cells[id].Held();
      campaign := campaign.(refundable := campaign.refundable + held);
      campaign := campaign.(status := Failed);
      ok := Conclude(s, signers, id, Op.MarkFailed, campaign, Sync(Failed), CampaignFailed(now, campaign.refundable));
    }

    method ExpireCampaign(signers: Signers, id: nat) returns (ok: bool)
      modifies this
      ensures Executed(old(Snapshot()), signers, On(id, Expire), ok)
    {
      if id !in cells {
        return false;
      }
      ghost var s := Snapshot();
      var campaign := cells[id].campaign;
      if campaign.status != Active && campaign.status != Funding {
        return false;
      }
      if now <= campaign.deadline || campaign.target <= campaign.totalFunded {
        return false;
      }
      var held := cells[id].Held();
      campaign := campaign.(refundable := campaign.refundable + held);
      campaign := campaign.(status := Failed);
      SetCampaign(id, campaign);
      Emit(id, CampaignFailed(now, campaign.refundable));
      Committed(s, Snapshot(), signers, id, Expire);
      return true;
    }

    method ClaimReturn(signers: Signers, id: nat, investor: Address) returns (ok: bool)
      modifies this
      ensures Executed(old(Snapshot()), signers, On(id, Op.ClaimReturn(investor)), ok)
    {
      if id !in cells {
        return false;
      }
      var campaign := cells[id].campaign;
      if campaign.status != Settled {
        return false;
      }
      var contributed := cells[id].Slot(investor);
      if contributed <= 0 || campaign.totalFunded == 0 {
        return false;
      }
      var share := TruncDiv(contributed * campaign.returnable, campaign.totalFunded);
      if share <= 0 || investor !in signers {
        return false;
      }
      ok := ConcludeClaim(signers, id, Op.ClaimReturn(investor), investor, share, ReturnClaimed(investor, now, share));
    }
  }

  // Once a prefix of the tranches exceeds a bound, the list as a whole fails one
  // of the two checks that follow the summation.
  lemma {:induction false} TotalGrows(ts: seq<Tranche>, i: nat)
    requires i <= |ts|
    ensures (exists j :: 0 <= j < |ts| && ts[j].amount <= 0) || Total(ts[..i]) <= Total(ts)
    decreases |ts| - i
  {
    if i < |ts| {
      TotalGrows(ts, i + 1);
      assert ts[..i + 1][..i] == ts[..i];
    } else {
      assert ts[..i] == ts;
    }
  }
}
