// Exactly when a registry accepts the calls made on it, and what each leaves; who is
// approved, and where a record comes from, over whole runs.

module RegistryRules {
  import opened EscrowTypes
  import opened Campaigns
  import opened Chain
  import opened Mirror
  import opened RegistryContract

  // The call went through and has left this registry, and everything else as it was.
  ghost predicate Left(w: State, signers: Signers, at: Address, call: RegistryCall, r': Registry) {
    at in w.registries && Apply(w, signers, At(at, call)) == Some(w.(registries := w.registries[at := r']))
  }

  // The registry's admin has signed.
  predicate RunBy(r: Registry, signers: Signers) {
    r.admin.Some? && r.admin.value in signers
  }

  // ------------------------------------------------------------ the admin

  // An admin is appointed once, by signing; from then on each hands over to the next.
  lemma {:induction false} AppointedIff(w: State, signers: Signers, at: Address, admin: Address)
    requires at in w.registries
    ensures var r := w.registries[at];
            && (Apply(w, signers, At(at, InitializeRegistry(admin))).Some? <==> r.admin.None? && admin in signers)
            && (Apply(w, signers, At(at, UpdateAdmin(admin))).Some? <==> RunBy(r, signers))
            && (r.admin.None? && admin in signers ==>
                  Left(w, signers, at, InitializeRegistry(admin), r.(admin := Some(admin))))
            && (RunBy(r, signers) ==> Left(w, signers, at, UpdateAdmin(admin), r.(admin := Some(admin))))
  {
  }

  // The admin decides which contracts are approved, one at a time.
  lemma {:induction false} ApproveAcceptedIff(w: State, signers: Signers, at: Address, contract: Address,
                                              approved: bool)
    requires at in w.registries
    ensures var r, x := w.registries[at], Apply(w, signers, At(at, Approve(contract, approved)));
            && (x.Some? <==> RunBy(r, signers))
            && (x.Some? ==>
                  && at in x.value.registries
                  && var r' := x.value.registries[at];
                     && Left(w, signers, at, Approve(contract, approved), r.(approved := r'.approved))
                     && forall a :: a in r'.approved <==> if a == contract then approved else a in r.approved)
  {
  }

  // A committed decision on a contract in the course of a run.
  ghost predicate Decides(acts: seq<Act>, i: nat, at: Address, contract: Address, approved: bool) {
    && i < |acts| && acts[i].call == At(at, Approve(contract, approved))
    && Apply(Run(Genesis(), acts[..i]), acts[i].signers, acts[i].call).Some?
  }

  // A contract is approved exactly if the last decision about it says so.
  ghost predicate ApprovedLast(acts: seq<Act>, at: Address, contract: Address) {
    exists i: nat :: Decides(acts, i, at, contract, true) && NotRevoked(acts, i, at, contract)
  }

  ghost predicate NotRevoked(acts: seq<Act>, i: nat, at: Address, contract: Address) {
    forall j: nat :: i < j ==> !Decides(acts, j, at, contract, false)
  }

  predicate IsApproved(w: State, at: Address, contract: Address) {
    at in w.registries && contract in w.registries[at].approved
  }

  lemma {:induction false} ApprovedIff(acts: seq<Act>, at: Address, contract: Address)
    ensures IsApproved(Run(Genesis(), acts), at, contract) <==> ApprovedLast(acts, at, contract)
  {
    if acts == [] {
    } else {
      var init, a := acts[..|acts| - 1], acts[|acts| - 1];
      ApprovedIff(init, at, contract);
      ApprovedStep(Run(Genesis(), init), a, at, contract);
      LastDecision(acts, at, contract);
    }
  }

  // Only such decisions change who is approved.
  lemma {:induction false} ApprovedStep(w: State, a: Act, at: Address, contract: Address)
    ensures IsApproved(Step(w, a), at, contract) <==>
              if Apply(w, a.signers, a.call).Some? && a.call.At? && a.call.address == at && a.call.call.Approve?
                 && a.call.call.contract == contract
              then a.call.call.approved else IsApproved(w, at, contract)
  {
    if a.call.On? || a.call.CreateCampaign? {
      OwnCallsApproveNone(w, a, at);
    }
  }

  lemma {:induction false} OwnCallsApproveNone(w: State, a: Act, at: Address)
    requires a.call.On? || a.call.CreateCampaign?
    ensures at in Step(w, a).registries <==> at in w.registries
    ensures at in w.registries ==> Step(w, a).registries[at].approved == w.registries[at].approved
  {
  }

  lemma {:induction false} LastDecision(acts: seq<Act>, at: Address, contract: Address)
    requires acts != []
    ensures var init, n := acts[..|acts| - 1], |acts| - 1;
            ApprovedLast(acts, at, contract) <==>
              Decides(acts, n, at, contract, true)
              || (ApprovedLast(init, at, contract) && !Decides(acts, n, at, contract, false))
  {
    var init, n := acts[..|acts| - 1], |acts| - 1;
    forall i: nat, approved: bool
      ensures Decides(acts, i, at, contract, approved) <==>
                Decides(init, i, at, contract, approved) || (i == n && Decides(acts, i, at, contract, approved))
    {
      if i < n {
        assert acts[..i] == init[..i] && acts[i] == init[i];
      }
    }
    if Decides(acts, n, at, contract, true) {
      assert NotRevoked(acts, n, at, contract);
    }
    if ApprovedLast(init, at, contract) && !Decides(acts, n, at, contract, false) {
      var i: nat :| Decides(init, i, at, contract, true) && NotRevoked(init, i, at, contract);
      assert NotRevoked(acts, i, at, contract);
    }
    if ApprovedLast(acts, at, contract) && !Decides(acts, n, at, contract, true) {
      var i: nat :| Decides(acts, i, at, contract, true) && NotRevoked(acts, i, at, contract);
      assert Decides(init, i, at, contract, true) && NotRevoked(init, i, at, contract);
    }
  }

  // ------------------------------------------------------------ campaigns

  // A farmer registers a campaign by signing, unless somebody has.
  lemma {:induction false} RegisterAcceptedIff(acts: seq<Act>, signers: Signers, at: Address, id: nat, farmer: Address)
    requires at in Run(Genesis(), acts).registries
    ensures var w := Run(Genesis(), acts);
            var r, call := w.registries[at], Register(id, farmer);
            && (Apply(w, signers, At(at, call)).Some? <==> farmer in signers && id !in r.infos)
            && (farmer in signers && id !in r.infos ==>
                  Left(w, signers, at, call, r.(infos := r.infos[id := farmer], index := r.index + [id])))
  {
    IndexListsRegistered(acts, at);
  }

  // A registered campaign is linked once, in the name of the farmer who registered it,
  // with the farmer's signature or, where the contract is approved, with the contract's
  // instead. The record has what the call names.
  lemma {:induction false} LinkAcceptedIff(acts: seq<Act>, signers: Signers, at: Address, id: nat, farmer: Address,
                                           escrow: Address, crop: Symbol, region: Symbol)
    requires at in Run(Genesis(), acts).registries
    ensures var w := Run(Genesis(), acts);
            var r, call := w.registries[at], Link(id, farmer, escrow, crop, region);
            && (Apply(w, signers, At(at, call)).Some? <==>
                  && id in r.infos && r.infos[id] == farmer && id !in r.records
                  && (escrow in r.approved ==> escrow in signers) && (escrow !in r.approved ==> farmer in signers))
            && (Apply(w, signers, At(at, call)).Some? ==>
                  Left(w, signers, at, call,
                       r.(records := r.records[id := Record(farmer, escrow, crop, region, Active)])))
  {
    IndexListsRegistered(acts, at);
  }

  // A status is set by the registry's admin or the linked contract, once there is an
  // admin.
  lemma {:induction false} UpdateAcceptedIff(w: State, signers: Signers, at: Address, id: nat, caller: Address,
                                             status: CampaignStatus)
    requires at in w.registries
    ensures var r, call := w.registries[at], Update(id, caller, status);
            && (Apply(w, signers, At(at, call)).Some? <==>
                  && id in r.records && r.admin.Some? && caller in signers
                  && (caller == r.admin.value || caller == r.records[id].escrow))
            && (Apply(w, signers, At(at, call)).Some? ==>
                  Left(w, signers, at, call, r.(records := r.records[id := r.records[id].(status := status)])))
  {
  }

  // Anyone can have a record reconciled; it then has the status that its contract
  // reports, this one or another.
  lemma {:induction false} ReconcileAcceptedIff(w: State, signers: Signers, at: Address, id: nat,
                                                foreign: Option<CampaignStatus>)
    requires at in w.registries
    ensures var r, call := w.registries[at], ReconcileStatus(id, foreign);
            && (Apply(w, signers, At(at, call)).Some? <==>
                  id in r.records && (if r.records[id].escrow == SELF then id in w.cells else foreign.Some?))
            && (Apply(w, signers, At(at, call)).Some? ==>
                  var truth := if r.records[id].escrow == SELF then w.cells[id].campaign.status else foreign.value;
                  Left(w, signers, at, call, r.(records := r.records[id := r.records[id].(status := truth)])))
  {
    var r := w.registries[at];
    if id in r.records {
      assert r.records[id := r.records[id]] == r.records;
    }
  }

  // ------------------------------------------------------------ provenance

  // A committed call that linked the campaign with this content: one on the registry, or
  // the creation of the campaign while the registry was set.
  ghost predicate Links(acts: seq<Act>, i: nat, at: Address, id: nat, record: Record) {
    && i < |acts| && Apply(Run(Genesis(), acts[..i]), acts[i].signers, acts[i].call).Some?
    && match acts[i].call
       case At(address, call) =>
         address == at && call == Link(id, record.farmer, record.escrow, record.crop, record.region)
       case CreateCampaign(created, farmer, _, _, _, metadata) =>
         && Run(Genesis(), acts[..i]).registryAt == Some(at) && created == id
         && record.(status := Active) == Record(farmer, SELF, metadata, metadata, Active)
       case _ => false
  }

  // Every record has, up to its status, the content with which it was linked.
  lemma {:induction false} RecordsAreLinked(acts: seq<Act>, at: Address, id: nat)
    requires id in RecordsAt(Run(Genesis(), acts), at)
    ensures exists i: nat :: Links(acts, i, at, id, RecordsAt(Run(Genesis(), acts), at)[id])
  {
    var init, a := acts[..|acts| - 1], acts[|acts| - 1];
    var w := Run(Genesis(), init);
    if id in RecordsAt(w, at) {
      RecordsAreLinked(init, at, id);
      var i: nat :| Links(init, i, at, id, RecordsAt(w, at)[id]);
      ContentKept(w, a, at, id);
      assert acts[..i] == init[..i] && acts[i] == init[i];
      assert Links(acts, i, at, id, RecordsAt(Run(Genesis(), acts), at)[id]);
    } else {
      NewRecord(w, a, at, id);
      assert Links(acts, |init|, at, id, RecordsAt(Run(Genesis(), acts), at)[id]);
    }
  }

  lemma {:induction false} ContentKept(w: State, a: Act, at: Address, id: nat)
    requires id in RecordsAt(w, at)
    ensures id in RecordsAt(Step(w, a), at)
    ensures RecordsAt(Step(w, a), at)[id].(status := Active) == RecordsAt(w, at)[id].(status := Active)
  {
    if a.call.At? && a.call.address == at {
      if Apply(w, a.signers, a.call).Some? {
        CallKeepsContent(w, w.registries[at], a.signers, a.call.call, id);
      }
    } else if !a.call.On? && !a.call.CreateCampaign? {
      RecordsSame(w, at, a);
    }
  }

  lemma {:induction false} CallKeepsContent(w: State, r: Registry, signers: Signers, call: RegistryCall, id: nat)
    requires OnRegistry(w, r, signers, call).Some? && id in r.records
    ensures var r' := OnRegistry(w, r, signers, call).value;
            id in r'.records && r'.records[id].(status := Active) == r.records[id].(status := Active)
  {
  }

  lemma {:induction false} NewRecord(w: State, a: Act, at: Address, id: nat)
    requires id !in RecordsAt(w, at) && id in RecordsAt(Step(w, a), at)
    ensures Apply(w, a.signers, a.call).Some?
    ensures var record := RecordsAt(Step(w, a), at)[id];
            match a.call
            case At(address, call) =>
              address == at && call == Link(id, record.farmer, record.escrow, record.crop, record.region)
            case CreateCampaign(created, farmer, _, _, _, metadata) =>
              && w.registryAt == Some(at) && created == id
              && record.(status := Active) == Record(farmer, SELF, metadata, metadata, Active)
            case _ => false
  {
  }
}
