// The rules that the entry points themselves enforce, before any transfer and any
// report to the registry: which status follows which, who has to sign, what meeting
// the target means, how held funds are divided, and who may claim. Acceptance adds
// the rest.

module Rules {
  import opened EscrowTypes
  import opened Campaigns
  import opened Accounting
  import opened Lifecycle

  // ------------------------------------------------------------ statuses

  // The documented life cycle with its side exits, and the steps that stay put.
  predicate Edge(from: CampaignStatus, to: CampaignStatus) {
    match from
    case Active => to.Funding? || to.Funded? || to.Disputed? || to.Failed?
    case Funding => to.Funding? || to.Funded? || to.Disputed? || to.Failed?
    case Funded => to.Funded? || to.InProduction? || to.Harvested? || to.Disputed? || to.Failed?
    case InProduction => to.InProduction? || to.Harvested? || to.Disputed? || to.Failed?
    case Harvested => to.Settled?
    case Disputed => to.Resolved?
    case Resolved => to.Resolved?
    case Settled => to.Settled?
    case Failed => to.Failed?
  }

  // Every step follows the life cycle, and a step that stays put is one that the
  // status allows any number of: a contribution, a configuration, a release or a claim.
  lemma StepFollowsEdge(c: Cell, e: Env, op: Op)
    requires Sound(c) && Attempt(c, e, op).Some?
    ensures var from, to := c.campaign.status, Attempt(c, e, op).value.cell.campaign.status;
            && Edge(from, to)
            && (from == to ==>
                  op.Fund? || op.Receive? || op.Configure? || op.Release? || op.ClaimRefund? || op.ClaimReturn?)
            && (to.Failed? && from != to ==> op.MarkFailed? || op.Expire?)
            && (to.Funded? && from != to ==> op.Fund? || op.Complete?)
  {
  }

  // ------------------------------------------------------------ signatures

  // Whose signature each entry point asks for.
  predicate Authorised(c: Cell, e: Env, op: Op) {
    match op
    case Fund(investor, _) => investor in e.signers
    case Receive(_, _) => e.admin.Some? && e.admin.value in e.signers && c.campaign.farmer in e.signers
    case Harvest(farmer, _) => farmer in e.signers && (farmer == c.campaign.farmer || e.admin == Some(farmer))
    case Dispute(opener, _) =>
      opener in e.signers && (opener == c.campaign.farmer || 0 < c.Slot(opener) || e.admin == Some(opener))
    case ClaimRefund(investor) => investor in e.signers
    case ClaimReturn(investor) => investor in e.signers
    case Expire => true
    case _ => e.admin.Some? && e.admin.value in e.signers
  }

  // Without its signatures no step is possible; with them, it does not matter who
  // else has signed.
  lemma UnauthorisedFails(c: Cell, e: Env, op: Op)
    requires !Authorised(c, e, op)
    ensures Attempt(c, e, op).None?
  {
  }

  lemma SignaturesSuffice(c: Cell, e: Env, signers: Signers, op: Op)
    requires Authorised(c, e, op) && Authorised(c, e.(signers := signers), op)
    ensures Attempt(c, e.(signers := signers), op) == Attempt(c, e, op)
  {
  }

  // ------------------------------------------------------------ meeting the target

  // A contribution that brings a campaign to its target makes it Funded exactly if
  // it is a fund_campaign call; a reconciled one leaves it Funding.
  lemma TargetMetBy(c: Cell, e: Env, op: Op)
    requires Sound(c) && c.campaign.totalFunded < c.campaign.target && Attempt(c, e, op).Some?
    requires Attempt(c, e, op).value.cell.campaign.totalFunded == c.campaign.target
    ensures op.Fund? || op.Receive?
    ensures Attempt(c, e, op).value.cell.campaign.status == if op.Fund? then Funded else Funding
  {
  }

  function Last(t: seq<Event>): Event
    requires t != []
  {
    t[|t| - 1]
  }

  // What the last event says about the funding: reconciled contributions leave the
  // campaign Funding, deposits do so below the target, and a campaign that is
  // Funding has taken a contribution last.
  ghost predicate LastTells(l: Life) {
    && l.trace != []
    && (Last(l.trace).ContribReconciled? ==> l.cell.campaign.status.Funding?)
    && (Last(l.trace).ContribReceived? ==>
          l.cell.campaign.status == if l.cell.campaign.totalFunded == l.cell.campaign.target then Funded else Funding)
    && (l.cell.campaign.status.Funding? ==> Last(l.trace).ContribReceived? || Last(l.trace).ContribReconciled?)
  }

  // The last event of a step and the status it leaves.
  lemma {:induction false} LastOfStep(l: Life, e: Env, op: Op)
    requires Sound(l.cell) && Attempt(l.cell, e, op).Some?
    ensures LastTells(Advance(l, Try(e, op)))
  {
    var x := Attempt(l.cell, e, op).value;
    StepEvents(l.cell, e, op);
    assert Last(l.trace + x.events) == Last(x.events);
  }

  lemma {:induction false} LivedLastTells(b: Birth, tries: seq<Try>)
    requires b.Valid()
    ensures LastTells(Lived(b, tries))
  {
    if tries != [] {
      var l := Lived(b, tries[..|tries| - 1]);
      var t := tries[|tries| - 1];
      LivedLastTells(b, tries[..|tries| - 1]);
      LivedSound(b, tries[..|tries| - 1]);
      if Attempt(l.cell, t.env, t.op).Some? {
        LastOfStep(l, t.env, t.op);
      }
    }
  }

  // A campaign sits at its target while still Funding exactly if the contribution
  // that met the target was a reconciled one and nothing has happened since.
  lemma FundingAtTargetIff(b: Birth, tries: seq<Try>)
    requires b.Valid()
    ensures var l := Lived(b, tries);
            && l.trace != []
            && (l.cell.campaign.totalFunded == b.target ==>
                  (l.cell.campaign.status.Funding? <==> Last(l.trace).ContribReconciled?))
  {
    LivedSound(b, tries);
    LivedLastTells(b, tries);
  }

  // Then no contribution and no expiry is possible any more, whatever the time, and
  // only the admin can complete or fail it (or a dispute be opened).
  lemma ReconciledToTarget(c: Cell, e: Env, op: Op)
    requires Sound(c) && c.campaign.status.Funding? && c.campaign.totalFunded == c.campaign.target
    requires Attempt(c, e, op).Some?
    ensures op.Complete? || op.MarkFailed? || op.Dispute?
    ensures !op.Dispute? ==> e.AdminSigned()
  {
  }

  // ------------------------------------------------------------ division of held funds

  // A resolution divides what is held: nothing to the farmer, everything, or a
  // part that leaves something to both sides. Anything else is rejected.
  lemma ResolutionDivides(c: Cell, e: Env, resolution: Resolution, payout: int)
    requires Sound(c) && e.AdminSigned()
    ensures ResolveStep(c, e, resolution, payout).Some? <==>
              c.campaign.status.Disputed? &&
              if resolution.PartialSettlement? then 0 < payout < c.Held() else !resolution.Pending? && payout == 0
    ensures ResolveStep(c, e, resolution, payout).Some? ==>
              var k, k' := c.campaign, ResolveStep(c, e, resolution, payout).value.cell.campaign;
              && (k'.released - k.released) + k'.refundable == c.Held()
              && (resolution.FullRefund? ==> k'.released == k.released)
              && (resolution.FullPayout? ==> k'.refundable == 0)
              && (resolution.PartialSettlement? ==> k'.released - k.released == payout && 0 < k'.refundable)
  {
  }

  // A settlement divides what is held between the payee and the investors.
  lemma SettlementDivides(c: Cell, e: Env, payee: Address, payout: int)
    requires Sound(c) && e.AdminSigned()
    ensures SettleStep(c, e, payee, payout).Some? <==> c.campaign.status.Harvested? && 0 <= payout <= c.Held()
    ensures SettleStep(c, e, payee, payout).Some? ==>
              var x := SettleStep(c, e, payee, payout).value;
              && (x.cell.campaign.released - c.campaign.released) + x.cell.campaign.returnable == c.Held()
              && x.cell.campaign.returnable == c.Held() - payout
              && x.transfer == if payout == 0 then NoTransfer else Transfer(SELF, payee, payout)
  {
  }

  // ------------------------------------------------------------ claims

  // Once a campaign is claimable, an investor who signs gets a share exactly once,
  // and exactly if the share rounds down to at least one unit.
  lemma {:induction false} ClaimChecks(b: Birth, tries: seq<Try>, e: Env, a: Address)
    requires b.Valid() && Claimable(Lived(b, tries).cell.campaign.status) && a in e.signers
    ensures var l := Lived(b, tries);
            var k, d := l.cell.campaign, Deposits(l.trace);
            var op := if k.status.Settled? then ClaimReturn(a) else ClaimRefund(a);
            Attempt(l.cell, e, op).Some? <==>
              a in d && a !in Paid(l.trace) && 0 < k.totalFunded && 0 < d[a] * Pool(k) / k.totalFunded
  {
    var l := Lived(b, tries);
    LivedSound(b, tries);
    if 0 < l.cell.Slot(a) {
      ClaimArithmeticFits(l, a);
    }
  }
}
