// Further consequences for payouts: one campaign per token is always solvent,
// several are not.

module Payouts {
  import opened EscrowTypes
  import opened Campaigns
  import opened Accounting
  import opened Lifecycle
  import opened Chain
  import opened Solvency
  import opened Sums

  lemma RunSnoc(acts: seq<Act>, a: Act)
    ensures Run(Genesis(), acts + [a]) == Step(Run(Genesis(), acts), a)
    ensures forall token: Address ::
              Gifts(acts + [a], token) == Gifts(acts, token) + Gift(Run(Genesis(), acts), a, token)
  {
  }

  // ------------------------------------------------------------ one campaign per token

  ghost predicate ReceivesOn(w: State, a: Act, token: Address) {
    a.call.On? && a.call.op.Receive? && a.call.id in w.cells && w.cells[a.call.id].campaign.token == token
  }

  lemma ReconciledKept(w: State, a: Act, token: Address)
    requires Tidy(w) && Apply(w, a.signers, a.call).Some? && !ReceivesOn(w, a, token)
    ensures Sum(PerCampaign(Step(w, a), token, ReconciledIn)) == Sum(PerCampaign(w, token, ReconciledIn))
  {
    var w' := Step(w, a);
    if a.call.On? {
      var id, op := a.call.id, a.call.op;
      var c, e := w.cells[id], EnvOf(w, a.signers, id);
      var x := Attempt(c, e, op).value;
      CommitOnLives(w, id, x);
      FixedFields(c, e, op);
      SumOnWrite(w, w', id, x.cell, token, ReconciledIn);
      if !op.Receive? {
        OnlyReceiveReconciles(c, e, op);
        EventSumStep(Project(w.log, id), x.events, AmountReconciled);
      }
    } else if a.call.CreateCampaign? {
      var b := BirthOf(w, a.call);
      CreateOnLives(w, a.signers, a.call.id, b);
      EventSumBirth(b, AmountReconciled);
      SumOnWrite(w, w', a.call.id, b.Cell(), token, ReconciledIn);
    } else {
      OthersKeepCells(w, a);
      assert PerCampaign(w', token, ReconciledIn) == PerCampaign(w, token, ReconciledIn);
    }
  }

  // A solvent token stays solvent through everything but receive_contribution.
  lemma SolventKept(acts: seq<Act>, a: Act, token: Address)
    requires var w := Run(Genesis(), acts); TokenSolvent(w, token) && !ReceivesOn(w, a, token)
    ensures TokenSolvent(Run(Genesis(), acts + [a]), token)
  {
    var w := Run(Genesis(), acts);
    RunSnoc(acts, a);
    SolventIff(acts, token);
    SolventIff(acts + [a], token);
    GiftNonNegative(w, a, token);
    NoStrayEvents(acts);
    if Apply(w, a.signers, a.call).Some? {
      ReconciledKept(w, a, token);
    }
  }

  ghost predicate SoleCampaign(w: State, token: Address) {
    forall i, j ::
      i in w.cells && j in w.cells && w.cells[i].campaign.token == token && w.cells[j].campaign.token == token ==>
        i == j
  }

  lemma SoleBefore(w: State, a: Act, token: Address)
    requires Tidy(w) && SoleCampaign(Step(w, a), token)
    ensures SoleCampaign(w, token)
  {
    if Apply(w, a.signers, a.call).Some? {
      forall i | i in w.cells
        ensures i in Step(w, a).cells && Step(w, a).cells[i].campaign.token == w.cells[i].campaign.token
      {
        StepOnLives(w, a, i);
        assert Step(w, a).cells[i] == LifeOf(Step(w, a), i).cell && w.cells[i] == LifeOf(w, i).cell;
        if a.call.On? && a.call.id == i && Attempt(w.cells[i], EnvOf(w, a.signers, i), a.call.op).Some? {
          FixedFields(w.cells[i], EnvOf(w, a.signers, i), a.call.op);
        }
      }
    }
  }

  // A contribution recorded by receive_contribution passed assert_solvent, and in
  // a campaign still accepting money everything owed is held.
  lemma {:induction false} ReceivedIsCovered(acts: seq<Act>, signers: Signers, id: nat, investor: Address, amount: int)
    requires var w := Run(Genesis(), acts);
             id in w.cells && Apply(w, signers, On(id, Receive(investor, amount))).Some?
    ensures var w' := Step(Run(Genesis(), acts), Act(signers, On(id, Receive(investor, amount))));
            && id in w'.cells
            && Owed(LifeOf(w', id)) <= Balance(w'.balances, w'.cells[id].campaign.token, SELF)
  {
    var w := Run(Genesis(), acts);
    var a := Act(signers, On(id, Receive(investor, amount)));
    var w' := Step(w, a);
    RunSnoc(acts, a);
    NoStrayEvents(acts);
    CommitOnLives(w, id, Attempt(w.cells[id], EnvOf(w, signers, id), a.call.op).value);
    RunSound(acts + [a], id);
    var l := LifeOf(w', id);
    assert Paid(l.trace) == map[];
    assert EventSum(l.trace, AmountSettled) == 0;
  }

  // With one campaign per token, the token stays solvent on every path,
  // receive_contribution included.
  lemma {:induction false} SoleCampaignSolvent(acts: seq<Act>, token: Address)
    requires SoleCampaign(Run(Genesis(), acts), token)
    ensures TokenSolvent(Run(Genesis(), acts), token)
  {
    if acts == [] {
      assert OwedBy(Genesis(), token) == map[];
    } else {
      var init, a := acts[..|acts| - 1], acts[|acts| - 1];
      var w, w' := Run(Genesis(), init), Run(Genesis(), acts);
      assert init + [a] == acts;
      NoStrayEvents(init);
      SoleBefore(w, a, token);
      SoleCampaignSolvent(init, token);
      if !ReceivesOn(w, a, token) {
        SolventKept(init, a, token);
      } else if Apply(w, a.signers, a.call).Some? {
        ReceivedIsCovered(init, a.signers, a.call.id, a.call.op.investor, a.call.op.amount);
        var id := a.call.id;
        FixedFields(w.cells[id], EnvOf(w, a.signers, id), a.call.op);
        assert OwedBy(w', token) - {id} == map[];
        SumRemove(OwedBy(w', token), id);
      }
    }
  }

  // ------------------------------------------------------------ several campaigns per token

  // assert_solvent compares one campaign with the whole balance. Two campaigns of
  // one token can therefore both be recorded against the same deposit: here an
  // investor deposits 100 in one, 100 more are reconciled in the other, and the
  // contract owes 200 while it has 100.
  datatype Cast = Cast(admin: Address, farmer: Address, ann: Address, bob: Address, token: Address)
  {
    predicate Outside() { admin != SELF && farmer != SELF && ann != SELF }
  }

  function Opening(k: Cast): seq<Act>
    requires k.Outside()
  {
    [ Act({k.admin}, Initialize(k.admin)),
      Act({}, Issue(k.token, k.ann, 100)),
      Act({k.farmer}, CreateCampaign(1, k.farmer, 100, k.token, 10, "maize")),
      Act({k.farmer}, CreateCampaign(2, k.farmer, 100, k.token, 10, "beans")) ]
  }

  function Depositing(k: Cast): Act
    requires k.Outside()
  {
    Act({k.ann}, On(1, Fund(k.ann, 100)))
  }

  function Reconciling(k: Cast): Act
    requires k.Outside()
  {
    Act({k.admin, k.farmer}, On(2, Receive(k.bob, 100)))
  }

  function SharedTokenRun(k: Cast): seq<Act>
    requires k.Outside()
  {
    Opening(k) + [Depositing(k)] + [Reconciling(k)]
  }

  // How far the run has got: what the two campaigns record and the contract has.
  ghost predicate Stage(k: Cast, w: State, one: int, two: int, balance: int) {
    && w.cells.Keys == {1, 2} && w.registryAt.None? && w.admin == Some(k.admin) && w.now == 0
    && w.registries == map[]
    && w.cells[1] == Progress(k.farmer, k.token, "maize", k.ann, one, if one == 0 then Active else Funded)
    && w.cells[2] == Progress(k.farmer, k.token, "beans", k.bob, two, if two == 0 then Active else Funding)
    && Balance(w.balances, k.token, SELF) == balance
  }

  // A campaign that one investor has put so much into.
  function Progress(farmer: Address, token: Address, crop: Symbol, a: Address, total: int,
                    status: CampaignStatus): Cell {
    var c := Newborn(farmer, 100, token, 10, crop);
    c.(campaign := c.campaign.(totalFunded := total, status := status),
       slots := if total == 0 then map[] else map[a := total])
  }

  lemma {:induction false} OpeningStage(k: Cast)
    requires k.Outside()
    ensures Stage(k, Run(Genesis(), Opening(k)), 0, 0, 0)
    ensures Balance(Run(Genesis(), Opening(k)).balances, k.token, k.ann) == 100
  {
    var s := Opening(k);
    RunSnoc([], s[0]);
    RunSnoc(s[..1], s[1]);
    RunSnoc(s[..2], s[2]);
    RunSnoc(s[..3], s[3]);
    assert s[..1] == [] + [s[0]] && s[..2] == s[..1] + [s[1]] && s[..3] == s[..2] + [s[2]] && s == s[..3] + [s[3]];
    var w3 := Step(Step(Step(Genesis(), s[0]), s[1]), s[2]);
    assert w3.cells == map[1 := Newborn(k.farmer, 100, k.token, 10, "maize")];
    assert w3.balances == map[(k.token, k.ann) := 100];
  }

  lemma DepositStage(k: Cast, w: State)
    requires k.Outside() && Stage(k, w, 0, 0, 0) && Balance(w.balances, k.token, k.ann) == 100
    ensures Stage(k, Step(w, Depositing(k)), 100, 0, 100)
  {
    var x := FundStep(w.cells[1], EnvOf(w, {k.ann}, 1), k.ann, 100).value;
    MoveDelta(w.balances, k.token, x.transfer, k.token);
  }

  lemma ReconcileStage(k: Cast, w: State)
    requires k.Outside() && Stage(k, w, 100, 0, 100)
    ensures Stage(k, Step(w, Reconciling(k)), 100, 100, 100)
  {
  }

  lemma SharedTokenStage(k: Cast)
    requires k.Outside()
    ensures Stage(k, Run(Genesis(), SharedTokenRun(k)), 100, 100, 100)
  {
    OpeningStage(k);
    RunSnoc(Opening(k), Depositing(k));
    RunSnoc(Opening(k) + [Depositing(k)], Reconciling(k));
    DepositStage(k, Run(Genesis(), Opening(k)));
    ReconcileStage(k, Step(Run(Genesis(), Opening(k)), Depositing(k)));
  }

  lemma {:induction false} SharedTokenInsolvent(k: Cast)
    requires k.Outside()
    ensures var w := Run(Genesis(), SharedTokenRun(k));
            && !TokenSolvent(w, k.token)
            && Sum(OwedBy(w, k.token)) >= 200 && Balance(w.balances, k.token, SELF) == 100
  {
    SharedTokenStage(k);
    var acts := SharedTokenRun(k);
    var w := Run(Genesis(), acts);
    RunSound(acts, 1);
    RunSound(acts, 2);
    OwedCoversHeld(LifeOf(w, 1));
    OwedCoversHeld(LifeOf(w, 2));
    var owed := OwedBy(w, k.token);
    SumRemove(owed, 1);
    SumRemove(owed - {1}, 2);
    assert owed - {1} - {2} == map[];
  }

  // ------------------------------------------------------------ what becomes of it

  function Failure(k: Cast, id: nat): Act
    requires k.Outside()
  {
    Act({k.admin}, On(id, Op.MarkFailed))
  }

  function AnnClaims(k: Cast): Act
    requires k.Outside()
  {
    Act({k.ann}, On(1, Op.ClaimRefund(k.ann)))
  }

  // Both campaigns fail, and the investor of the first claims.
  function LastClaimRun(k: Cast): seq<Act>
    requires k.Outside()
  {
    SharedTokenRun(k) + [Failure(k, 1)] + [Failure(k, 2)] + [AnnClaims(k)]
  }

  function FailedCell(c: Cell): Cell {
    c.(campaign := c.campaign.(refundable := c.Held(), status := Failed))
  }

  lemma FailureStep(k: Cast, w: State, id: nat)
    requires k.Outside() && w.registryAt.None? && w.admin == Some(k.admin) && id in w.cells
    requires NothingSetAside(w.cells[id].campaign)
    requires Accepting(w.cells[id].campaign.status) || Producing(w.cells[id].campaign.status)
    ensures var w' := Step(w, Failure(k, id));
            && w'.cells == w.cells[id := FailedCell(w.cells[id])] && w'.balances == w.balances
            && w'.registryAt.None? && w'.admin == w.admin
  {
  }

  lemma AnnClaimsStep(k: Cast, w: State)
    requires k.Outside() && 1 in w.cells && Balance(w.balances, k.token, SELF) == 100
    requires w.cells[1] == FailedCell(Progress(k.farmer, k.token, "maize", k.ann, 100, Funded))
    ensures var w' := Step(w, AnnClaims(k));
            && w'.cells == w.cells[1 := w'.cells[1]] && Balance(w'.balances, k.token, SELF) == 0
  {
    var c := w.cells[1];
    var x := Effect(c.(slots := c.slots[k.ann := 0]), Transfer(SELF, k.ann, 100), false, Silent,
      [RefundClaimed(k.ann, w.now, 100)]);
    assert ClaimRefundStep(c, EnvOf(w, {k.ann}, 1), k.ann) == Some(x);
    MoveDelta(w.balances, k.token, x.transfer, k.token);
  }

  // The investor of the second campaign can then claim a share of 100 as far as the
  // campaign goes, and the claim is rolled back: the contract has nothing left.
  lemma LastClaimFails(k: Cast)
    requires k.Outside() && k.bob != SELF
    ensures var w := Run(Genesis(), LastClaimRun(k));
            var claim := On(2, Op.ClaimRefund(k.bob));
            && 2 in w.cells && w.cells[2].Slot(k.bob) == 100 && Balance(w.balances, k.token, SELF) == 0
            && Attempt(w.cells[2], EnvOf(w, {k.bob}, 2), Op.ClaimRefund(k.bob)).Some?
            && Apply(w, {k.bob}, claim).None?
  {
    var acts := SharedTokenRun(k);
    SharedTokenStage(k);
    RunSnoc(acts, Failure(k, 1));
    RunSnoc(acts + [Failure(k, 1)], Failure(k, 2));
    RunSnoc(acts + [Failure(k, 1)] + [Failure(k, 2)], AnnClaims(k));
    FailureStep(k, Run(Genesis(), acts), 1);
    FailureStep(k, Run(Genesis(), acts + [Failure(k, 1)]), 2);
    AnnClaimsStep(k, Run(Genesis(), acts + [Failure(k, 1)] + [Failure(k, 2)]));
    BobClaims(k, Run(Genesis(), LastClaimRun(k)));
  }

  lemma BobClaims(k: Cast, w: State)
    requires k.Outside() && k.bob != SELF && 2 in w.cells && Balance(w.balances, k.token, SELF) == 0
    requires w.cells[2] == FailedCell(Progress(k.farmer, k.token, "beans", k.bob, 100, Funding))
    ensures Attempt(w.cells[2], EnvOf(w, {k.bob}, 2), Op.ClaimRefund(k.bob)).Some?
    ensures Apply(w, {k.bob}, On(2, Op.ClaimRefund(k.bob))).None?
  {
  }
}
