// Exactly when the deployed contract accepts a call: the checks of the entry point
// itself, the token transfer, the solvency check and the report to the registry.

module Acceptance {
  import opened EscrowTypes
  import opened Campaigns
  import opened Accounting
  import opened Lifecycle
  import opened Chain
  import opened Solvency
  import opened Payouts
  import opened Sums
  import opened Tranches
  import opened Rules
  import opened Mirror

  // ------------------------------------------------------------ the report to the registry

  // Whether the registry accepts a status reported by the contract itself.
  predicate CanReport(r: Registry, id: nat) {
    id in r.records && r.admin.Some? && (r.records[id].escrow == SELF || r.admin.value == SELF)
  }

  // No registry is set, or there is one at the address.
  predicate Listens(w: State) {
    w.registryAt.Some? ==> w.registryAt.value in w.registries
  }

  // The registry is no obstacle: none is set, or it accepts reports on this campaign.
  predicate Heard(w: State, id: nat) {
    w.registryAt.Some? ==> w.registryAt.value in w.registries && CanReport(w.registries[w.registryAt.value], id)
  }

  // The calls that end by reporting a status. A contribution does so if it is the
  // one that completes the funding.
  predicate Reports(c: Cell, op: Op) {
    op.Release? || op.Harvest? || op.Dispute? || op.Resolve? || op.Settle? || op.MarkFailed?
    || (op.Fund? && c.campaign.target <= c.campaign.totalFunded + op.amount)
  }

  lemma {:induction false} ReportsIffSync(c: Cell, e: Env, op: Op)
    requires Attempt(c, e, op).Some?
    ensures var notice := Attempt(c, e, op).value.notice;
            (notice.Sync? <==> Reports(c, op)) && (notice.Activity? <==> op.Fund? && !Reports(c, op))
  {
  }

  // Whether the notice that a call ends with gets through: a status has to be
  // accepted; a deposit that does not complete the funding is only recorded.
  predicate Noted(w: State, c: Cell, op: Op, id: nat) {
    (Reports(c, op) ==> Heard(w, id)) && (op.Fund? ==> Listens(w))
  }

  lemma {:induction false} NotifiedIff(w: State, id: nat, notice: Notice)
    ensures Notified(w, id, notice).Some? <==>
              (notice.Sync? ==> Heard(w, id)) && (notice.Activity? ==> Listens(w))
  {
  }

  // The token transfer of an effect goes through, and so does the solvency check.
  predicate Payable(w: State, x: Effect) {
    var moved := Move(w.balances, x.cell.campaign.token, x.transfer);
    moved.Some? && (x.checkSolvency ==> Solvent(x.cell, moved.value))
  }

  // A call that passes the checks of its entry point commits exactly if the tokens
  // are there and the registry is no obstacle to what it reports.
  lemma {:induction false} CommitsIff(w: State, signers: Signers, id: nat, op: Op)
    requires id in w.cells && Attempt(w.cells[id], EnvOf(w, signers, id), op).Some?
    ensures var x := Attempt(w.cells[id], EnvOf(w, signers, id), op).value;
            Apply(w, signers, On(id, op)).Some? <==> Payable(w, x) && Noted(w, w.cells[id], op, id)
  {
    ReportsIffSync(w.cells[id], EnvOf(w, signers, id), op);
    NotifiedIff(w, id, Attempt(w.cells[id], EnvOf(w, signers, id), op).value.notice);
  }

  // So a call that would otherwise go through is rolled back exactly if an address is
  // set, the call reports a status or is a deposit, and there is no registry at that
  // address; or the call reports a status and the registry there has no record of the
  // campaign, has not been initialised, or names neither this contract as the
  // campaign's escrow nor as its own admin.
  lemma {:induction false} RolledBackIff(w: State, signers: Signers, id: nat, op: Op)
    requires id in w.cells && Attempt(w.cells[id], EnvOf(w, signers, id), op).Some?
    requires Payable(w, Attempt(w.cells[id], EnvOf(w, signers, id), op).value)
    ensures Apply(w, signers, On(id, op)).None? <==>
              && w.registryAt.Some? && (Reports(w.cells[id], op) || op.Fund?)
              && (w.registryAt.value !in w.registries
                  || (Reports(w.cells[id], op)
                      && (var r := w.registries[w.registryAt.value];
                          id !in r.records || r.admin.None?
                          || (r.records[id].escrow != SELF && r.admin.value != SELF))))
  {
    CommitsIff(w, signers, id, op);
  }

  // A registry that was set before the first campaign, and remains set, has a record
  // of every campaign, naming this contract.
  ghost predicate AllLinked(w: State, at: Address) {
    w.registryAt == Some(at) && forall id :: id in w.cells ==> LinkedAt(w, at, id)
  }

  predicate LinkedAt(w: State, at: Address, id: nat) {
    var records := RecordsAt(w, at);
    id in records && records[id].escrow == SELF
  }

  predicate Initialised(w: State, at: Address) {
    at in w.registries && w.registries[at].admin.Some?
  }

  lemma {:induction false} AllLinkedStep(w: State, at: Address, a: Act)
    requires AllLinked(w, at) && Step(w, a).registryAt == Some(at)
    ensures AllLinked(Step(w, a), at)
  {
    if !a.call.On? && !a.call.CreateCampaign? {
      OthersKeepCells(w, a);
    }
    forall id | id in Step(w, a).cells ensures LinkedAt(Step(w, a), at, id) {
      if id in w.cells {
        assert LinkedAt(w, at, id);
        LinkKept(w, at, a, id);
      }
    }
  }

  // A record is never removed and never changes its contract.
  lemma {:induction false} LinkKept(w: State, at: Address, a: Act, id: nat)
    requires id in RecordsAt(w, at)
    ensures id in RecordsAt(Step(w, a), at) && RecordsAt(Step(w, a), at)[id].escrow == RecordsAt(w, at)[id].escrow
  {
    if Apply(w, a.signers, a.call).Some? && a.call.At? && a.call.address == at {
      CallKeepsLink(w, w.registries[at], a.signers, a.call.call, id);
    } else if !a.call.On? && !a.call.CreateCampaign? {
      RecordsSame(w, at, a);
    }
  }

  lemma {:induction false} CallKeepsLink(w: State, r: Registry, signers: Signers, call: RegistryCall, id: nat)
    requires OnRegistry(w, r, signers, call).Some? && id in r.records
    ensures var r' := OnRegistry(w, r, signers, call).value;
            && id in r'.records && r'.records[id].escrow == r.records[id].escrow
            && (r.admin.Some? ==> r'.admin.Some?)
  {
  }

  lemma {:induction false} StaysInitialised(w: State, at: Address, a: Act)
    requires Initialised(w, at)
    ensures Initialised(Step(w, a), at)
  {
  }

  lemma {:induction false} LinkedFirstLinksAll(acts: seq<Act>, start: nat, at: Address)
    requires LinkedFirst(acts, start, at)
    ensures AllLinked(Run(Genesis(), acts), at)
    ensures Initialised(Run(Genesis(), acts[..start]), at) ==> Initialised(Run(Genesis(), acts), at)
  {
    LinkedFirstPrefix(acts, start, at);
    if start < |acts| {
      var init := acts[..|acts| - 1];
      LinkedFirstPrefix(init, start, at);
      LinkedFirstLinksAll(init, start, at);
      assert init[..start] == acts[..start];
      AllLinkedStep(Run(Genesis(), init), at, acts[|acts| - 1]);
      if Initialised(Run(Genesis(), init), at) {
        StaysInitialised(Run(Genesis(), init), at, acts[|acts| - 1]);
      }
    } else {
      assert acts[..start] == acts;
    }
  }

  // With a registry set before the first campaign that remains the one that is set,
  // it is no obstacle exactly if it has been initialised; once it has been, no call
  // on any campaign is ever rolled back by a report.
  lemma {:induction false} ReportsNeverRollBack(acts: seq<Act>, start: nat, at: Address, signers: Signers, id: nat,
                                                op: Op)
    requires LinkedFirst(acts, start, at)
    requires var w := Run(Genesis(), acts);
             id in w.cells && Attempt(w.cells[id], EnvOf(w, signers, id), op).Some?
    ensures var w := Run(Genesis(), acts);
            var x := Attempt(w.cells[id], EnvOf(w, signers, id), op).value;
            && (Heard(w, id) <==> Initialised(w, at)) && Listens(w)
            && (Initialised(Run(Genesis(), acts[..start]), at) ==>
                  (Apply(w, signers, On(id, op)).Some? <==> Payable(w, x)))
  {
    var w := Run(Genesis(), acts);
    LinkedFirstLinksAll(acts, start, at);
    assert LinkedAt(w, at, id);
    CommitsIff(w, signers, id, op);
  }

  // ------------------------------------------------------------ signatures

  // The contract has an admin, who has signed.
  predicate AdminAmong(w: State, signers: Signers) {
    w.admin.Some? && w.admin.value in signers
  }

  // The admin is appointed once, by signing, and from then on sets the registry to any
  // address.
  lemma {:induction false} SettingAcceptedIff(w: State, signers: Signers, a: Address)
    ensures var appointed, pointed := Apply(w, signers, Initialize(a)), Apply(w, signers, SetRegistry(a));
            && (appointed.Some? <==> w.admin.None? && a in signers)
            && (appointed.Some? ==> appointed.value == w.(admin := Some(a)))
            && (pointed.Some? <==> AdminAmong(w, signers))
            && (pointed.Some? ==> pointed.value == w.(registryAt := Some(a)))
  {
  }

  // A call without its signatures changes nothing; with them, it does not matter
  // who else has signed.
  lemma SignaturesOnlyAuthorise(w: State, one: Signers, two: Signers, id: nat, op: Op)
    requires id in w.cells
    ensures !Authorised(w.cells[id], EnvOf(w, one, id), op) ==> Apply(w, one, On(id, op)).None?
    ensures Authorised(w.cells[id], EnvOf(w, one, id), op) && Authorised(w.cells[id], EnvOf(w, two, id), op) ==>
              Apply(w, one, On(id, op)) == Apply(w, two, On(id, op))
  {
    var c, e := w.cells[id], EnvOf(w, one, id);
    assert EnvOf(w, two, id) == e.(signers := two);
    if !Authorised(c, e, op) {
      UnauthorisedFails(c, e, op);
    } else if Authorised(c, e.(signers := two), op) {
      SignaturesSuffice(c, e, two, op);
    }
  }

  // ------------------------------------------------------------ creation

  // create_campaign is accepted exactly for a new id, a target within the range, a
  // deadline ahead and a farmer who signed; with a registry set, also only if there is
  // one at the address, that farmer has registered the campaign there, and it is not
  // linked yet. Whether the escrow contract is on the registry's list of approved
  // contracts does not matter. The campaign then starts with nothing, and the record
  // has its metadata as crop and region.
  lemma {:induction false} CreateAcceptedIff(w: State, signers: Signers, id: nat, farmer: Address, target: int,
                                             token: Address, deadline: nat, metadata: Symbol)
    ensures var r := Apply(w, signers, CreateCampaign(id, farmer, target, token, deadline, metadata));
            && (r.Some? <==>
                  && id !in w.cells && 0 < target <= 0x7FFF_FFFF_FFFF_FFFF && w.now < deadline && farmer in signers
                  && (w.registryAt.Some? ==> w.registryAt.value in w.registries
                                             && CanLink(w.registries[w.registryAt.value], id, farmer)))
            && (r.Some? && w.registryAt.Some? && Initialised(w, w.registryAt.value) ==> Heard(r.value, id))
            && (r.Some? ==>
                  && r.value.cells == w.cells[id := Cell(Campaign(farmer, target, token, deadline, metadata,
                                                                  0, 0, 0, 0, Active), map[], [], None, None)]
                  && (w.registryAt.Some? ==>
                        var records := RecordsAt(r.value, w.registryAt.value);
                        id in records && records[id] == Record(farmer, SELF, metadata, metadata, Active)))
  {
  }

  predicate CanLink(r: Registry, id: nat, farmer: Address) {
    id in r.infos && r.infos[id] == farmer && id !in r.records
  }

  // ------------------------------------------------------------ contributions and expiry

  // In a solvent token the balance covers what a campaign holds, which is never negative.
  lemma {:induction false} HeldWithinBalance(acts: seq<Act>, id: nat)
    requires id in Run(Genesis(), acts).cells
    ensures var w := Run(Genesis(), acts);
            var c := w.cells[id];
            Sound(c) && (TokenSolvent(w, c.campaign.token) ==> c.Held() <= Balance(w.balances, c.campaign.token, SELF))
  {
    var w := Run(Genesis(), acts);
    RunSound(acts, id);
    if TokenSolvent(w, w.cells[id].campaign.token) {
      OwedWithinBalance(acts, id);
    }
  }

  // fund_campaign is accepted exactly within the deadline, up to the remaining
  // target, from an investor who signed and has the tokens, while what the campaign
  // holds is covered; the completing contribution also has to get past the registry.
  lemma {:induction false} FundAcceptedIff(acts: seq<Act>, signers: Signers, id: nat, investor: Address, amount: int)
    requires id in Run(Genesis(), acts).cells
    ensures var w := Run(Genesis(), acts);
            var c, k := w.cells[id], w.cells[id].campaign;
            && (Apply(w, signers, On(id, Fund(investor, amount))).Some? <==>
                  && investor in signers && (k.status.Active? || k.status.Funding?) && w.now <= k.deadline
                  && 0 < amount <= k.target - k.totalFunded
                  && amount <= Balance(w.balances, k.token, investor) && c.Held() <= Balance(w.balances, k.token, SELF)
                  && (if amount == k.target - k.totalFunded then Heard(w, id) else Listens(w)))
            && (TokenSolvent(w, k.token) ==> c.Held() <= Balance(w.balances, k.token, SELF))
  {
    var w := Run(Genesis(), acts);
    var c, e := w.cells[id], EnvOf(w, signers, id);
    HeldWithinBalance(acts, id);
    FundChecks(c, e, investor, amount);
    if FundStep(c, e, investor, amount).Some? {
      CommitsIff(w, signers, id, Fund(investor, amount));
      FundFunded(w, c, e, investor, amount);
    }
  }

  // It moves the deposit, and makes the campaign Funded exactly if it meets the target.
  lemma {:induction false} FundPays(acts: seq<Act>, signers: Signers, id: nat, investor: Address, amount: int)
    requires var w := Run(Genesis(), acts); id in w.cells && Apply(w, signers, On(id, Fund(investor, amount))).Some?
    ensures var w := Run(Genesis(), acts);
            var w' := Step(w, Act(signers, On(id, Fund(investor, amount))));
            var k, k' := w.cells[id].campaign, w'.cells[id].campaign;
            && k'.totalFunded == k.totalFunded + amount
            && k'.status == (if k.totalFunded + amount == k.target then Funded else Funding)
            && Balance(w'.balances, k.token, investor) == Balance(w.balances, k.token, investor) - amount
            && Balance(w'.balances, k.token, SELF) == Balance(w.balances, k.token, SELF) + amount
  {
    RunSound(acts, id);
  }

  lemma FundChecks(c: Cell, e: Env, investor: Address, amount: int)
    ensures var k := c.campaign;
            FundStep(c, e, investor, amount).Some? <==>
              && investor in e.signers && Accepting(k.status) && e.now <= k.deadline
              && 0 < amount <= k.target - k.totalFunded
  {
  }

  lemma FundFunded(w: State, c: Cell, e: Env, investor: Address, amount: int)
    requires FundStep(c, e, investor, amount).Some?
    ensures var k := c.campaign;
            Payable(w, FundStep(c, e, investor, amount).value) <==>
              amount <= Balance(w.balances, k.token, investor) && c.Held() <= Balance(w.balances, k.token, SELF)
  {
    var x := FundStep(c, e, investor, amount).value;
    if Move(w.balances, c.campaign.token, x.transfer).Some? {
      MoveDelta(w.balances, c.campaign.token, x.transfer, c.campaign.token);
    }
  }

  // Anyone can expire a campaign, exactly after its deadline and while it is short
  // of its target; nothing else can stand in the way.
  lemma {:induction false} ExpireAcceptedIff(acts: seq<Act>, signers: Signers, id: nat)
    requires id in Run(Genesis(), acts).cells
    ensures var w := Run(Genesis(), acts);
            var k := w.cells[id].campaign;
            var r := Apply(w, signers, On(id, Expire));
            && (r.Some? <==> (k.status.Active? || k.status.Funding?) && k.deadline < w.now && k.totalFunded < k.target)
            && (r.Some? ==> FailedWith(r.value.cells[id], w.cells[id].Held()))
  {
    var w := Run(Genesis(), acts);
    RunSound(acts, id);
    if ExpireStep(w.cells[id], EnvOf(w, signers, id)).Some? {
      CommitsIff(w, signers, id, Expire);
    }
  }

  // All that was held has become refundable.
  predicate FailedWith(c: Cell, held: int) {
    c.campaign.status.Failed? && c.campaign.refundable == held && c.Held() == 0
  }

  // The admin can do the same at any time before the harvest report, if the registry
  // is no obstacle.
  lemma {:induction false} MarkFailedAcceptedIff(acts: seq<Act>, signers: Signers, id: nat)
    requires id in Run(Genesis(), acts).cells
    ensures var w := Run(Genesis(), acts);
            var s, r := w.cells[id].campaign.status, Apply(w, signers, On(id, Op.MarkFailed));
            && (r.Some? <==> AdminAmong(w, signers) && (s.Active? || s.Funding? || s.Funded? || s.InProduction?)
                             && Heard(w, id))
            && (r.Some? ==> FailedWith(r.value.cells[id], w.cells[id].Held()))
  {
    var w := Run(Genesis(), acts);
    RunSound(acts, id);
    if MarkFailedStep(w.cells[id], EnvOf(w, signers, id)).Some? {
      CommitsIff(w, signers, id, Op.MarkFailed);
    }
  }

  // receive_contribution is accepted exactly within the deadline, up to the remaining
  // target, with the signatures of the admin and the farmer, while the balance covers
  // what the campaign then holds; it moves no tokens and leaves the campaign Funding.
  lemma {:induction false} ReceiveAcceptedIff(acts: seq<Act>, signers: Signers, id: nat, investor: Address,
                                              amount: int)
    requires id in Run(Genesis(), acts).cells
    ensures var w := Run(Genesis(), acts);
            var c, k := w.cells[id], w.cells[id].campaign;
            var r := Apply(w, signers, On(id, Receive(investor, amount)));
            && (r.Some? <==>
                  && AdminAmong(w, signers) && k.farmer in signers
                  && (k.status.Active? || k.status.Funding?) && w.now <= k.deadline
                  && 0 < amount <= k.target - k.totalFunded
                  && c.Held() + amount <= Balance(w.balances, k.token, SELF))
            && (r.Some? ==> r.value.balances == w.balances && r.value.cells[id].campaign.status.Funding?)
  {
    var w := Run(Genesis(), acts);
    if ReceiveStep(w.cells[id], EnvOf(w, signers, id), investor, amount).Some? {
      CommitsIff(w, signers, id, Receive(investor, amount));
    }
  }

  // complete_funding is accepted exactly from the admin, for a campaign that still
  // collects although its target is met, and with the total it has. Only reconciled
  // contributions lead there.
  lemma {:induction false} CompleteAcceptedIff(acts: seq<Act>, signers: Signers, id: nat, total: int)
    requires id in Run(Genesis(), acts).cells
    ensures var w := Run(Genesis(), acts);
            var k, r := w.cells[id].campaign, Apply(w, signers, On(id, Complete(total)));
            && (r.Some? <==> AdminAmong(w, signers) && k.status.Funding? && total == k.totalFunded == k.target)
            && (r.Some? ==> Project(w.log, id) != [] && Last(Project(w.log, id)).ContribReconciled?)
            && (r.Some? ==> r.value.cells[id] == w.cells[id].(campaign := k.(status := Funded)))
  {
    var w := Run(Genesis(), acts);
    RunSound(acts, id);
    FundingAtTarget(acts, id);
    if CompleteStep(w.cells[id], EnvOf(w, signers, id), total).Some? {
      CommitsIff(w, signers, id, Complete(total));
    }
  }

  // ------------------------------------------------------------ production

  // configure_tranches is accepted exactly from the admin, in a campaign that is
  // Funded, for a list of positive amounts that together are within the funding, all
  // of it included; the list is then the stored one.
  lemma {:induction false} ConfigureAcceptedIff(acts: seq<Act>, signers: Signers, id: nat, ts: seq<Tranche>)
    requires id in Run(Genesis(), acts).cells
    ensures var w := Run(Genesis(), acts);
            var k, r := w.cells[id].campaign, Apply(w, signers, On(id, Configure(ts)));
            && (r.Some? <==>
                  && AdminAmong(w, signers) && k.status.Funded? && ts != []
                  && (forall i :: 0 <= i < |ts| ==> 0 < ts[i].amount) && SumOf(Amounts(ts)) <= k.totalFunded)
            && (r.Some? ==> r.value.cells[id] == w.cells[id].(tranches := ts))
  {
    var w := Run(Genesis(), acts);
    TotalIsSum(ts);
    if ConfigureStep(w.cells[id], EnvOf(w, signers, id), ts).Some? {
      CommitsIff(w, signers, id, Configure(ts));
    }
  }

  lemma {:induction false} TotalIsSum(ts: seq<Tranche>)
    ensures Campaigns.Total(ts) == SumOf(Amounts(ts))
  {
    if ts != [] {
      TotalIsSum(ts[..|ts| - 1]);
      assert Amounts(ts)[..|ts| - 1] == Amounts(ts[..|ts| - 1]);
    }
  }

  // Between funding and the harvest report.
  predicate Produces(c: Cell) {
    c.campaign.status.Funded? || c.campaign.status.InProduction?
  }

  // report_harvest is accepted exactly from the farmer or the admin, whoever of them is
  // named and has signed, in a campaign that is Funded or InProduction, and if the
  // registry is no obstacle. It leaves the record of the report.
  lemma {:induction false} HarvestAcceptedIff(acts: seq<Act>, signers: Signers, id: nat, reporter: Address,
                                              outcome: Symbol)
    requires id in Run(Genesis(), acts).cells
    ensures var w := Run(Genesis(), acts);
            var c, r := w.cells[id], Apply(w, signers, On(id, Harvest(reporter, outcome)));
            && (r.Some? <==>
                  && Produces(c) && reporter in signers
                  && (reporter == c.campaign.farmer || w.admin == Some(reporter)) && Heard(w, id))
            && (r.Some? ==>
                  && r.value.cells[id].campaign == c.campaign.(status := Harvested)
                  && r.value.cells[id].harvest == Some(HarvestRecord(reporter, outcome, w.now, w.ledger))
                  && r.value.balances == w.balances)
  {
    var w := Run(Genesis(), acts);
    if HarvestStep(w.cells[id], EnvOf(w, signers, id), reporter, outcome).Some? {
      CommitsIff(w, signers, id, Harvest(reporter, outcome));
    }
  }

  // open_dispute is accepted exactly before the harvest report, from the farmer, the
  // admin or whoever has contributed, and if the registry is no obstacle. It leaves the
  // record of an open dispute without a resolution.
  lemma {:induction false} DisputeAcceptedIff(acts: seq<Act>, signers: Signers, id: nat, opener: Address,
                                              reason: Symbol)
    requires id in Run(Genesis(), acts).cells
    ensures var w := Run(Genesis(), acts);
            var k, d := w.cells[id].campaign, Deposits(Project(w.log, id));
            var r := Apply(w, signers, On(id, Op.Dispute(opener, reason)));
            && (r.Some? <==>
                  && (k.status.Active? || k.status.Funding? || k.status.Funded? || k.status.InProduction?)
                  && opener in signers
                  && (opener == k.farmer || w.admin == Some(opener) || (opener in d && 0 < d[opener])) && Heard(w, id))
            && (r.Some? ==>
                  && r.value.cells[id].campaign == k.(status := Disputed)
                  && r.value.cells[id].dispute
                       == Some(EscrowTypes.Dispute(id, opener, reason, w.now, w.ledger, DisputeStatus.Open, Pending))
                  && r.value.balances == w.balances)
  {
    var w := Run(Genesis(), acts);
    RunSound(acts, id);
    SlotIsDeposit(LifeOf(w, id), opener);
    DisputeChecks(w.cells[id], EnvOf(w, signers, id), opener, reason);
    if DisputeStep(w.cells[id], EnvOf(w, signers, id), opener, reason).Some? {
      CommitsIff(w, signers, id, Op.Dispute(opener, reason));
    }
  }

  lemma {:induction false} DisputeChecks(c: Cell, e: Env, opener: Address, reason: Symbol)
    ensures var k, x := c.campaign, DisputeStep(c, e, opener, reason);
            && (x.Some? <==>
                  && (k.status.Active? || k.status.Funding? || k.status.Funded? || k.status.InProduction?)
                  && opener in e.signers && (opener == k.farmer || e.admin == Some(opener) || 0 < c.Slot(opener)))
            && (x.Some? ==> x.value.transfer == NoTransfer && !x.value.checkSolvency && !Claimable(k.status))
  {
  }

  // Until a campaign can be claimed from, its slots are the deposits.
  lemma SlotIsDeposit(l: Life, a: Address)
    requires Booked(l)
    ensures !Claimable(l.cell.campaign.status) ==>
              (0 < l.cell.Slot(a) <==> a in Deposits(l.trace) && 0 < Deposits(l.trace)[a])
  {
  }

  // The call that brings a campaign to its target makes it Funded exactly if it is
  // fund_campaign.
  lemma TargetMetByCall(acts: seq<Act>, signers: Signers, id: nat, op: Op)
    requires var w := Run(Genesis(), acts);
             && id in w.cells && Apply(w, signers, On(id, op)).Some?
             && w.cells[id].campaign.totalFunded < w.cells[id].campaign.target
             && (var k := Step(w, Act(signers, On(id, op))).cells[id].campaign; k.totalFunded == k.target)
    ensures var k := Step(Run(Genesis(), acts), Act(signers, On(id, op))).cells[id].campaign;
            (op.Fund? || op.Receive?) && k.status == if op.Fund? then Funded else Funding
  {
    var w := Run(Genesis(), acts);
    RunSound(acts, id);
    FixedFields(w.cells[id], EnvOf(w, signers, id), op);
    TargetMetBy(w.cells[id], EnvOf(w, signers, id), op);
  }

  // A campaign of a run that has met its target is still Funding exactly if the
  // last thing that happened to it is a reconciled contribution.
  lemma FundingAtTarget(acts: seq<Act>, id: nat)
    requires id in Run(Genesis(), acts).cells
    ensures var w := Run(Genesis(), acts);
            var c, t := w.cells[id].campaign, Project(w.log, id);
            t != [] && (c.totalFunded == c.target ==> (c.status.Funding? <==> Last(t).ContribReconciled?))
  {
    var b, tries := Decompose(acts, id);
    FundingAtTargetIff(b, tries);
    LivedSound(b, tries);
  }

  // Such runs exist: in this one the second campaign has met its target of 100 by
  // a reconciled contribution, and is Funding.
  lemma TargetMetStillFunding(k: Cast)
    requires k.Outside()
    ensures var w := Run(Genesis(), SharedTokenRun(k));
            && 2 in w.cells && w.cells[2].campaign.status.Funding?
            && w.cells[2].campaign.totalFunded == w.cells[2].campaign.target == 100
  {
    SharedTokenStage(k);
  }

  // ------------------------------------------------------------ division of held funds

  // resolve_dispute is accepted exactly for these resolutions, and divides what is
  // held: nothing to the farmer, everything, or a part that leaves both something.
  lemma {:induction false} ResolveAcceptedIff(acts: seq<Act>, signers: Signers, id: nat, resolution: Resolution,
                                              payout: int)
    requires id in Run(Genesis(), acts).cells
    ensures var w := Run(Genesis(), acts);
            var c, r := w.cells[id], Apply(w, signers, On(id, Resolve(resolution, payout)));
            && (r.Some? <==>
                  && AdminAmong(w, signers) && c.campaign.status.Disputed? && Heard(w, id)
                  && if resolution.PartialSettlement? then 0 < payout < c.Held()
                     else !resolution.Pending? && payout == 0)
            && (r.Some? ==>
                  var k, k' := c.campaign, r.value.cells[id].campaign;
                  && k'.status.Resolved? && (k'.released - k.released) + k'.refundable == c.Held()
                  && (resolution.FullRefund? ==> k'.released == k.released)
                  && (resolution.FullPayout? ==> k'.refundable == 0)
                  && (resolution.PartialSettlement? ==> k'.released - k.released == payout && 0 < k'.refundable)
                  && r.value.balances == w.balances)
  {
    var w := Run(Genesis(), acts);
    var c, e := w.cells[id], EnvOf(w, signers, id);
    RunSound(acts, id);
    if e.AdminSigned() {
      ResolutionDivides(c, e, resolution, payout);
    }
    if ResolveStep(c, e, resolution, payout).Some? {
      CommitsIff(w, signers, id, Resolve(resolution, payout));
    }
  }

  // settle_campaign is accepted exactly for these payouts; in a solvent token the
  // contract always has the tokens.
  lemma {:induction false} SettleAcceptedIff(acts: seq<Act>, signers: Signers, id: nat, payee: Address, payout: int)
    requires id in Run(Genesis(), acts).cells
    ensures var w := Run(Genesis(), acts);
            var c := w.cells[id];
            && (Apply(w, signers, On(id, Settle(payee, payout))).Some? <==>
                  && AdminAmong(w, signers) && c.campaign.status.Harvested? && Heard(w, id)
                  && 0 <= payout <= c.Held()
                  && (0 < payout ==> payout <= Balance(w.balances, c.campaign.token, SELF)))
            && (TokenSolvent(w, c.campaign.token) ==> c.Held() <= Balance(w.balances, c.campaign.token, SELF))
  {
    var w := Run(Genesis(), acts);
    var c, e := w.cells[id], EnvOf(w, signers, id);
    HeldWithinBalance(acts, id);
    if e.AdminSigned() {
      SettlementDivides(c, e, payee, payout);
    }
    if SettleStep(c, e, payee, payout).Some? {
      CommitsIff(w, signers, id, Settle(payee, payout));
    }
  }

  // It divides what is held between the payee and the investors, and moves the payout.
  lemma {:induction false} SettlePays(acts: seq<Act>, signers: Signers, id: nat, payee: Address, payout: int)
    requires var w := Run(Genesis(), acts); id in w.cells && Apply(w, signers, On(id, Settle(payee, payout))).Some?
    ensures var w := Run(Genesis(), acts);
            var w' := Step(w, Act(signers, On(id, Settle(payee, payout))));
            var k, k' := w.cells[id].campaign, w'.cells[id].campaign;
            && k'.status.Settled? && k'.released == k.released + payout && k'.returnable == w.cells[id].Held() - payout
            && (payee != SELF ==>
                  && Balance(w'.balances, k.token, payee) == Balance(w.balances, k.token, payee) + payout
                  && Balance(w'.balances, k.token, SELF) == Balance(w.balances, k.token, SELF) - payout)
  {
    var w := Run(Genesis(), acts);
    RunSound(acts, id);
    SettlementDivides(w.cells[id], EnvOf(w, signers, id), payee, payout);
  }

  // ------------------------------------------------------------ making funds claimable

  // A call that opens a campaign for claims.
  predicate Opens(w: State, signers: Signers, id: nat, op: Op)
    requires id in w.cells
  {
    var r := Apply(w, signers, On(id, op));
    r.Some? && id in r.value.cells && Claimable(r.value.cells[id].campaign.status)
  }

  // The admin's way to leave everything that is held to the investors.
  function Unwinding(c: Cell): Op {
    match c.campaign.status
    case Harvested => Settle(c.campaign.farmer, 0)
    case Disputed => Resolve(FullRefund, 0)
    case _ => Op.MarkFailed
  }

  lemma UnwindingStep(c: Cell, e: Env)
    requires Sound(c) && e.AdminSigned() && !Claimable(c.campaign.status)
    ensures var x := Attempt(c, e, Unwinding(c));
            && x.Some? && Claimable(x.value.cell.campaign.status) && Reports(c, Unwinding(c))
            && Pool(x.value.cell.campaign) == c.Held() && x.value.cell.campaign.released == c.campaign.released
            && x.value.transfer == NoTransfer && !x.value.checkSolvency
  {
  }

  lemma OpeningReports(c: Cell, e: Env, op: Op)
    requires !Claimable(c.campaign.status) && Attempt(c, e, op).Some?
    requires Claimable(Attempt(c, e, op).value.cell.campaign.status)
    ensures op.Expire? || (Reports(c, op) && e.AdminSigned())
  {
  }

  // In every reachable state that is not claimable yet, the admin alone can make
  // all that is held claimable by the investors in one call, exactly if the
  // registry is no obstacle. If it is one, or there is no admin yet, no single call
  // on the campaign opens it, except expiry where that is due.
  lemma {:induction false} NothingIsTrapped(acts: seq<Act>, signers: Signers, id: nat)
    requires var w := Run(Genesis(), acts);
             id in w.cells && !Claimable(w.cells[id].campaign.status)
    ensures var w := Run(Genesis(), acts);
            var c, op := w.cells[id], Unwinding(w.cells[id]);
            && (Apply(w, signers, On(id, op)).Some? <==> AdminAmong(w, signers) && Heard(w, id))
            && (AdminAmong(w, signers) && Heard(w, id) ==>
                  var w' := Step(w, Act(signers, On(id, op)));
                  && Opens(w, signers, id, op) && Pool(w'.cells[id].campaign) == c.Held()
                  && w'.cells[id].campaign.released == c.campaign.released && w'.balances == w.balances)
            && ((exists any: Op, who: Signers :: Opens(w, who, id, any)) <==>
                  (w.admin.Some? && Heard(w, id)) || ExpireStep(c, EnvOf(w, signers, id)).Some?)
  {
    var w := Run(Genesis(), acts);
    var c, e := w.cells[id], EnvOf(w, signers, id);
    RunSound(acts, id);
    AdminUnwinds(w, signers, id);
    if w.admin.Some? && Heard(w, id) {
      AdminIsOutside(acts);
      AdminUnwinds(w, {w.admin.value}, id);
      assert Opens(w, {w.admin.value}, id, Unwinding(c));
    } else if ExpireStep(c, e).Some? {
      CommitsIff(w, signers, id, Expire);
      assert Opens(w, signers, id, Expire);
    }
    forall any: Op, who: Signers | Opens(w, who, id, any)
      ensures (w.admin.Some? && Heard(w, id)) || ExpireStep(c, e).Some?
    {
      OpeningNeedsRegistry(w, signers, who, id, any);
    }
  }

  lemma {:induction false} AdminUnwinds(w: State, signers: Signers, id: nat)
    requires id in w.cells && Sound(w.cells[id]) && !Claimable(w.cells[id].campaign.status)
    ensures var c, op := w.cells[id], Unwinding(w.cells[id]);
            && (Apply(w, signers, On(id, op)).Some? <==> AdminAmong(w, signers) && Heard(w, id))
            && (AdminAmong(w, signers) && Heard(w, id) ==>
                  var w' := Step(w, Act(signers, On(id, op)));
                  && Opens(w, signers, id, op) && Pool(w'.cells[id].campaign) == c.Held()
                  && w'.cells[id].campaign.released == c.campaign.released && w'.balances == w.balances)
  {
    var c, e := w.cells[id], EnvOf(w, signers, id);
    if e.AdminSigned() {
      UnwindingStep(c, e);
      CommitsIff(w, signers, id, Unwinding(c));
    } else {
      UnauthorisedFails(c, e, Unwinding(c));
    }
  }

  // The admin has signed its own appointment, so it is not the contract itself.
  lemma {:induction false} AdminIsOutside(acts: seq<Act>)
    ensures Run(Genesis(), acts).admin != Some(SELF)
  {
    if acts != [] {
      AdminIsOutside(acts[..|acts| - 1]);
      AdminStays(Run(Genesis(), acts[..|acts| - 1]), acts[|acts| - 1]);
    }
  }

  lemma {:induction false} AdminStays(w: State, a: Act)
    ensures Step(w, a).admin == w.admin || (Step(w, a).admin.Some? && Step(w, a).admin.value in a.signers)
  {
  }

  lemma {:induction false} OpeningNeedsRegistry(w: State, signers: Signers, who: Signers, id: nat, op: Op)
    requires id in w.cells && !Claimable(w.cells[id].campaign.status) && Opens(w, who, id, op)
    ensures (w.admin.Some? && Heard(w, id)) || ExpireStep(w.cells[id], EnvOf(w, signers, id)).Some?
  {
    OpeningReports(w.cells[id], EnvOf(w, who, id), op);
    CommitsIff(w, who, id, op);
  }

  // The condition matters: a campaign that was funded before the registry was set
  // holds 100, and no single call on it opens it for claims.
  function LateRegistryRun(k: Cast, at: Address): seq<Act>
    requires k.Outside()
  {
    Opening(k) + [Depositing(k)] + [Act({}, Deploy(at))] + [Act({k.admin}, SetRegistry(at))]
  }

  lemma {:induction false} LateRegistryStage(k: Cast, at: Address)
    requires k.Outside() && at != SELF
    ensures var w := Run(Genesis(), LateRegistryRun(k, at));
            && w.registryAt == Some(at) && w.admin == Some(k.admin) && w.registries == map[at := NewRegistry()]
            && 1 in w.cells && w.cells[1] == Progress(k.farmer, k.token, "maize", k.ann, 100, Funded)
  {
    var before := Opening(k) + [Depositing(k)];
    OpeningStage(k);
    RunSnoc(Opening(k), Depositing(k));
    DepositStage(k, Run(Genesis(), Opening(k)));
    RunSnoc(before, Act({}, Deploy(at)));
    RunSnoc(before + [Act({}, Deploy(at))], Act({k.admin}, SetRegistry(at)));
  }

  lemma {:induction false} LateRegistryBlocks(k: Cast, at: Address)
    requires k.Outside() && at != SELF
    ensures var w := Run(Genesis(), LateRegistryRun(k, at));
            && w.registryAt == Some(at) && at in w.registries
            && 1 in w.cells && w.cells[1].campaign.status.Funded? && w.cells[1].Held() == 100
            && Attempt(w.cells[1], EnvOf(w, {k.admin}, 1), Op.MarkFailed).Some?
            && forall any: Op, who: Signers :: !Opens(w, who, 1, any)
  {
    LateRegistryStage(k, at);
    NothingIsTrapped(LateRegistryRun(k, at), {k.admin}, 1);
  }

  // ------------------------------------------------------------ claims

  // In a claimable campaign a claim is accepted exactly from an investor who
  // contributed and has not claimed, whose share rounds down to at least one unit,
  // and whose share the contract's balance covers. In a solvent token it always is.
  lemma {:induction false} ClaimOpenTo(acts: seq<Act>, signers: Signers, id: nat, a: Address)
    requires var w := Run(Genesis(), acts);
             id in w.cells && Claimable(w.cells[id].campaign.status) && a in signers
    ensures var w := Run(Genesis(), acts);
            var k, t := w.cells[id].campaign, Project(w.log, id);
            var d := Deposits(t);
            Apply(w, signers, On(id, ClaimCall(w.cells[id], a))).Some? <==>
              && a in d && a !in Paid(t) && 0 < k.totalFunded && 0 < d[a] * Pool(k) / k.totalFunded
              && d[a] * Pool(k) / k.totalFunded <= Balance(w.balances, k.token, SELF)
  {
    var w := Run(Genesis(), acts);
    var c, e, op := w.cells[id], EnvOf(w, signers, id), ClaimCall(w.cells[id], a);
    var b, tries := Decompose(acts, id);
    ClaimChecks(b, tries, e, a);
    if Attempt(c, e, op).Some? {
      RunSound(acts, id);
      ClaimMoves(c, e, a);
      CommitsIff(w, signers, id, op);
    }
  }

  lemma ClaimMoves(c: Cell, e: Env, a: Address)
    requires Sound(c) && Claimable(c.campaign.status) && Attempt(c, e, ClaimCall(c, a)).Some?
    ensures var x := Attempt(c, e, ClaimCall(c, a)).value;
            && c.campaign.totalFunded != 0 && !x.checkSolvency && !x.notice.Sync? && x.cell.campaign == c.campaign
            && x.transfer == Transfer(SELF, a, c.Slot(a) * Pool(c.campaign) / c.campaign.totalFunded)
  {
    assert 0 <= c.Slot(a) * Pool(c.campaign);
  }

  lemma SolventClaims(acts: seq<Act>, signers: Signers, id: nat, a: Address)
    requires var w := Run(Genesis(), acts);
             id in w.cells && Claimable(w.cells[id].campaign.status) && a in signers
             && TokenSolvent(w, w.cells[id].campaign.token)
    ensures var w := Run(Genesis(), acts);
            var k, t := w.cells[id].campaign, Project(w.log, id);
            var d := Deposits(t);
            Apply(w, signers, On(id, ClaimCall(w.cells[id], a))).Some? <==>
              a in d && a !in Paid(t) && 0 < k.totalFunded && 0 < d[a] * Pool(k) / k.totalFunded
  {
    var w := Run(Genesis(), acts);
    var b, tries := Decompose(acts, id);
    ClaimOpenTo(acts, signers, id, a);
    ClaimChecks(b, tries, EnvOf(w, signers, id), a);
    if Attempt(w.cells[id], EnvOf(w, signers, id), ClaimCall(w.cells[id], a)).Some? {
      SolventShare(acts, signers, id, a);
    }
  }

  lemma {:induction false} SolventShare(acts: seq<Act>, signers: Signers, id: nat, a: Address)
    requires var w := Run(Genesis(), acts);
             id in w.cells && Claimable(w.cells[id].campaign.status) && a in signers
             && TokenSolvent(w, w.cells[id].campaign.token)
             && Attempt(w.cells[id], EnvOf(w, signers, id), ClaimCall(w.cells[id], a)).Some?
    ensures var w := Run(Genesis(), acts);
            Apply(w, signers, On(id, ClaimCall(w.cells[id], a))).Some?
  {
    var w := Run(Genesis(), acts);
    PayoutsNeverLackFunds(acts, signers, id, ClaimCall(w.cells[id], a));
    RunSound(acts, id);
    ClaimMoves(w.cells[id], EnvOf(w, signers, id), a);
    CommitsIff(w, signers, id, ClaimCall(w.cells[id], a));
  }

  // ------------------------------------------------------------ releases

  // One release: accepted exactly if its amount is unreleased and the registry is
  // no obstacle; the escrow balance never blocks it.
  lemma {:induction false} ReleaseAcceptedIff(w: State, signers: Signers, id: nat, recipient: Address, a: int)
    requires id in w.cells && Ready(w.cells[id]) && AdminAmong(w, signers)
    ensures Apply(w, signers, On(id, Release(recipient, a))).Some? <==>
              a in Unreleased(w.cells[id].tranches) && Heard(w, id)
    ensures Apply(w, signers, On(id, Release(recipient, a))).Some? ==>
              var w' := Step(w, Act(signers, On(id, Release(recipient, a))));
              && w'.cells.Keys == w.cells.Keys && Ready(w'.cells[id]) && Heard(w', id)
              && w'.admin == w.admin && w'.balances == w.balances
              && w'.cells[id].campaign.released == w.cells[id].campaign.released + a
              && Flagged(w'.cells[id].tranches) == Flagged(w.cells[id].tranches) + a
              && Unreleased(w'.cells[id].tranches) == Unreleased(w.cells[id].tranches) - multiset{a}
  {
    var c, e := w.cells[id], EnvOf(w, signers, id);
    ReleaseOne(c, e, recipient, a);
    if ReleaseStep(c, e, recipient, a).Some? {
      CommitsIff(w, signers, id, Release(recipient, a));
      ReleaseMovesNothing(c, e, recipient, a);
    }
  }

  lemma ReleaseMovesNothing(c: Cell, e: Env, recipient: Address, a: int)
    requires ReleaseStep(c, e, recipient, a).Some?
    ensures var x := ReleaseStep(c, e, recipient, a).value; x.transfer == NoTransfer && !x.checkSolvency
  {
  }

  // Without a tranche list a release is accepted exactly up to what is held.
  lemma UnplannedReleaseAcceptedIff(acts: seq<Act>, signers: Signers, id: nat, recipient: Address, a: int)
    requires id in Run(Genesis(), acts).cells && Run(Genesis(), acts).cells[id].tranches == []
    ensures var w := Run(Genesis(), acts);
            Apply(w, signers, On(id, Release(recipient, a))).Some? <==>
              && AdminAmong(w, signers) && Produces(w.cells[id])
              && 0 < a <= w.cells[id].Held() && Heard(w, id)
  {
    var w := Run(Genesis(), acts);
    if ReleaseStep(w.cells[id], EnvOf(w, signers, id), recipient, a).Some? {
      CommitsIff(w, signers, id, Release(recipient, a));
      ReleaseMovesNothing(w.cells[id], EnvOf(w, signers, id), recipient, a);
    }
  }

  function Releases(signers: Signers, id: nat, recipient: Address, amounts: seq<int>): seq<Act> {
    if amounts == [] then []
    else Releases(signers, id, recipient, amounts[..|amounts| - 1])
         + [Act(signers, On(id, Release(recipient, amounts[|amounts| - 1])))]
  }

  // Every one of these further calls commits.
  ghost predicate AllCommit(acts: seq<Act>, more: seq<Act>) {
    forall i :: 0 <= i < |more| ==> Apply(Run(Genesis(), acts + more[..i]), more[i].signers, more[i].call).Some?
  }

  lemma AllCommitSnoc(acts: seq<Act>, more: seq<Act>, a: Act)
    ensures AllCommit(acts, more + [a]) <==>
              AllCommit(acts, more) && Apply(Run(Genesis(), acts + more), a.signers, a.call).Some?
    ensures Run(Genesis(), acts + (more + [a])) == Step(Run(Genesis(), acts + more), a)
  {
    var longer := more + [a];
    assert longer[..|more|] == more && longer[|more|] == a;
    forall i | 0 <= i < |more| ensures longer[..i] == more[..i] && longer[i] == more[i] {
    }
    RunSnoc(acts + more, a);
    assert acts + longer == acts + more + [a];
  }

  // What a list of releases leaves.
  ghost predicate Released(w: State, w': State, id: nat, amounts: seq<int>)
    requires id in w.cells
  {
    && w'.cells.Keys == w.cells.Keys && Ready(w'.cells[id]) && (Heard(w', id) <==> Heard(w, id))
    && w'.admin == w.admin && w'.balances == w.balances
    && w'.cells[id].campaign.released == w.cells[id].campaign.released + SumOf(amounts)
    && Flagged(w'.cells[id].tranches) == Flagged(w.cells[id].tranches) + SumOf(amounts)
    && Unreleased(w'.cells[id].tranches) == Unreleased(w.cells[id].tranches) - multiset(amounts)
  }

  // A list of releases commits in full exactly if its amounts are a sub-multiset of
  // the unreleased ones and, unless it is empty, the registry is no obstacle.
  ghost predicate ReleasesExactly(acts: seq<Act>, signers: Signers, id: nat, recipient: Address, amounts: seq<int>)
    requires id in Run(Genesis(), acts).cells
  {
    var w, more := Run(Genesis(), acts), Releases(signers, id, recipient, amounts);
    && (AllCommit(acts, more) <==>
          multiset(amounts) <= Unreleased(w.cells[id].tranches) && (amounts != [] ==> Heard(w, id)))
    && (AllCommit(acts, more) ==> Released(w, Run(Genesis(), acts + more), id, amounts))
  }

  // That is so after any run, on a campaign that produces with a tranche list.
  lemma {:induction false} ReleasesAcceptedIff(acts: seq<Act>, signers: Signers, id: nat, recipient: Address,
                                               amounts: seq<int>)
    requires var w := Run(Genesis(), acts);
             id in w.cells && Ready(w.cells[id]) && AdminAmong(w, signers)
    ensures ReleasesExactly(acts, signers, id, recipient, amounts)
    decreases |amounts|
  {
    if amounts == [] {
      assert acts + [] == acts;
    } else {
      var init, a := amounts[..|amounts| - 1], amounts[|amounts| - 1];
      assert amounts == init + [a];
      ReleasesAcceptedIff(acts, signers, id, recipient, init);
      ReleasesSnoc(acts, signers, id, recipient, init, a);
    }
  }

  lemma {:induction false} ReleasesSnoc(acts: seq<Act>, signers: Signers, id: nat, recipient: Address,
                                        amounts: seq<int>, a: int)
    requires id in Run(Genesis(), acts).cells && AdminAmong(Run(Genesis(), acts), signers)
    requires ReleasesExactly(acts, signers, id, recipient, amounts)
    ensures ReleasesExactly(acts, signers, id, recipient, amounts + [a])
  {
    var w, more := Run(Genesis(), acts), Releases(signers, id, recipient, amounts);
    assert (amounts + [a])[..|amounts|] == amounts;
    AllCommitSnoc(acts, more, Act(signers, On(id, Release(recipient, a))));
    TakeLast(amounts, a, Unreleased(w.cells[id].tranches));
    if AllCommit(acts, more) {
      OneMoreRelease(w, Run(Genesis(), acts + more), signers, id, recipient, amounts, a);
    }
  }

  lemma {:induction false} OneMoreRelease(w: State, w1: State, signers: Signers, id: nat, recipient: Address,
                                          amounts: seq<int>, a: int)
    requires id in w.cells && AdminAmong(w, signers) && Released(w, w1, id, amounts)
    ensures Apply(w1, signers, On(id, Release(recipient, a))).Some? <==>
              a in Unreleased(w.cells[id].tranches) - multiset(amounts) && Heard(w, id)
    ensures Apply(w1, signers, On(id, Release(recipient, a))).Some? ==>
              Released(w, Step(w1, Act(signers, On(id, Release(recipient, a)))), id, amounts + [a])
  {
    ReleaseAcceptedIff(w1, signers, id, recipient, a);
    assert (amounts + [a])[..|amounts|] == amounts;
  }

  lemma {:induction false} TakeLast(amounts: seq<int>, a: int, available: multiset<int>)
    ensures multiset(amounts + [a]) == multiset(amounts) + multiset{a}
    ensures multiset(amounts + [a]) <= available <==>
              multiset(amounts) <= available && a in available - multiset(amounts)
  {
  }

  // After a configuration with all flags false these are exactly the sub-multisets
  // of the configured amounts, and what is booked as released is the sum of the
  // flagged tranches.
  lemma {:induction false} FreshReleasesAcceptedIff(acts: seq<Act>, signers: Signers, id: nat, ts: seq<Tranche>,
                                                    recipient: Address, amounts: seq<int>)
    requires var w := Run(Genesis(), acts); id in w.cells && Apply(w, signers, On(id, Configure(ts))).Some?
    requires forall i :: 0 <= i < |ts| ==> !ts[i].released
    ensures var configured := acts + [Act(signers, On(id, Configure(ts)))];
            var w, more := Run(Genesis(), configured), Releases(signers, id, recipient, amounts);
            && id in w.cells
            && (AllCommit(configured, more) <==>
                  multiset(amounts) <= multiset(Amounts(ts)) && (amounts != [] ==> Heard(w, id)))
            && (AllCommit(configured, more) ==>
                  var w' := Run(Genesis(), configured + more);
                  && id in w'.cells
                  && w'.cells[id].campaign.released == Flagged(w'.cells[id].tranches) == SumOf(amounts))
  {
    var w, a := Run(Genesis(), acts), Act(signers, On(id, Configure(ts)));
    RunSnoc(acts, a);
    ConfiguredCell(w, signers, id, ts);
    RunReady(acts + [a], id);
    RunSound(acts, id);
    AllUnreleased(ts);
    ReleasesAcceptedIff(acts + [a], signers, id, recipient, amounts);
  }

  lemma ConfiguredCell(w: State, signers: Signers, id: nat, ts: seq<Tranche>)
    requires id in w.cells && Apply(w, signers, On(id, Configure(ts))).Some?
    ensures var w' := Step(w, Act(signers, On(id, Configure(ts))));
            && id in w'.cells && ts != [] && w'.cells[id] == w.cells[id].(tranches := ts)
            && w.cells[id].campaign.status.Funded? && AdminAmong(w', signers)
  {
  }

  // The releases above apply to every campaign that produces with a tranche list.
  lemma RunReady(acts: seq<Act>, id: nat)
    requires var w := Run(Genesis(), acts);
             id in w.cells && Producing(w.cells[id].campaign.status) && w.cells[id].tranches != []
    ensures Ready(Run(Genesis(), acts).cells[id])
  {
    var b, tries := Decompose(acts, id);
    LivedBacked(b, tries);
  }
}
