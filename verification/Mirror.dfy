// The registry's mirror of campaign statuses: fed by some escrow steps, and
// repaired by reconcile_campaign_status.

module Mirror {
  import opened EscrowTypes
  import opened Campaigns
  import opened Accounting
  import opened Chain
  import opened Solvency
  import opened Payouts

  // The mirror agrees with the escrow, or lags behind within the funding phase:
  // deposits below the target, reconciled contributions, complete_funding and
  // expire_campaign do not notify the registry's status.
  ghost predicate Tracks(mirror: CampaignStatus, escrow: CampaignStatus) {
    mirror == escrow || (Accepting(mirror) && (escrow.Funding? || escrow.Funded? || escrow.Failed?))
  }

  // What the registry at an address keeps of the campaigns linked in it.
  function RecordsAt(w: State, at: Address): map<nat, Record> {
    if at in w.registries then w.registries[at].records else map[]
  }

  ghost predicate Mirrored(w: State, at: Address, id: nat)
    requires id in w.cells
  {
    var records := RecordsAt(w, at);
    id in records && records[id].escrow == SELF && Tracks(records[id].status, w.cells[id].campaign.status)
  }

  ghost predicate AllMirrored(w: State, at: Address) {
    w.registryAt == Some(at) && forall id :: id in w.cells ==> Mirrored(w, at, id)
  }

  // The registry admin setting a status by hand.
  ghost predicate Override(w: State, at: Address, a: Act) {
    && at in w.registries && a.call.At? && a.call.address == at && a.call.call.Update?
    && w.registries[at].admin == Some(a.call.call.caller)
  }

  ghost predicate NoOverrides(acts: seq<Act>, at: Address) {
    forall i :: 0 <= i < |acts| ==> !Override(Run(Genesis(), acts[..i]), at, acts[i])
  }

  // How a step's notice relates to the status it leaves.
  lemma NoticeTracks(c: Cell, e: Env, op: Op, mirror: CampaignStatus)
    requires Sound(c) && Attempt(c, e, op).Some? && Tracks(mirror, c.campaign.status)
    ensures var x := Attempt(c, e, op).value;
            if x.notice.Sync? then x.notice.status == x.cell.campaign.status
            else Tracks(mirror, x.cell.campaign.status)
  {
  }

  lemma {:induction false} MirroredOnCommit(w: State, at: Address, signers: Signers, id: nat, op: Op)
    requires AllMirrored(w, at) && Apply(w, signers, On(id, op)).Some? && Sound(w.cells[id])
    ensures AllMirrored(Step(w, Act(signers, On(id, op))), at)
  {
    var c, e := w.cells[id], EnvOf(w, signers, id);
    assert Mirrored(w, at, id);
    NoticeTracks(c, e, op, w.registries[at].records[id].status);
    var w' := Commit(w, id, Attempt(c, e, op).value).value;
    forall j | j in w'.cells ensures Mirrored(w', at, j) {
      assert Mirrored(w, at, j);
    }
  }

  lemma {:induction false} MirroredOnCreate(w: State, at: Address, signers: Signers, id: nat, b: Birth)
    requires AllMirrored(w, at) && Create(w, signers, id, b).Some?
    ensures AllMirrored(Create(w, signers, id, b).value, at)
  {
    var w' := Create(w, signers, id, b).value;
    forall j | j in w'.cells ensures Mirrored(w', at, j) {
      if j != id { assert Mirrored(w, at, j); }
    }
  }

  // Registry calls that are not overrides, and everything else.
  lemma {:induction false} MirroredOnOthers(w: State, at: Address, a: Act)
    requires AllMirrored(w, at) && !a.call.On? && !a.call.CreateCampaign? && !Override(w, at, a)
    requires Step(w, a).registryAt == Some(at)
    ensures AllMirrored(Step(w, a), at)
  {
    OthersKeepCells(w, a);
    var w' := Step(w, a);
    forall j | j in w'.cells ensures Mirrored(w', at, j) {
      assert Mirrored(w, at, j);
      RecordsKept(w, at, a, j);
    }
  }

  lemma {:induction false} RecordsKept(w: State, at: Address, a: Act, j: nat)
    requires !a.call.On? && !a.call.CreateCampaign? && !Override(w, at, a)
    requires j in w.cells && j in RecordsAt(w, at) && RecordsAt(w, at)[j].escrow == SELF
    ensures var r, r' := RecordsAt(w, at)[j], RecordsAt(Step(w, a), at);
            && j in r' && r'[j].escrow == SELF
            && (r'[j].status == r.status || r'[j].status == w.cells[j].campaign.status)
  {
    if Apply(w, a.signers, a.call).Some? && a.call.At? && a.call.address == at {
      CallKeepsRecord(w, w.registries[at], a.signers, a.call.call, j);
    } else {
      RecordsSame(w, at, a);
    }
  }

  lemma {:induction false} CallKeepsRecord(w: State, r: Registry, signers: Signers, call: RegistryCall, j: nat)
    requires OnRegistry(w, r, signers, call).Some? && !(call.Update? && r.admin == Some(call.caller))
    requires j in w.cells && j in r.records && r.records[j].escrow == SELF
    ensures var records := OnRegistry(w, r, signers, call).value.records;
            && j in records && records[j].escrow == SELF
            && (records[j].status == r.records[j].status || records[j].status == w.cells[j].campaign.status)
  {
  }

  lemma {:induction false} RecordsSame(w: State, at: Address, a: Act)
    requires !a.call.On? && !a.call.CreateCampaign?
    requires Apply(w, a.signers, a.call).None? || !(a.call.At? && a.call.address == at)
    ensures RecordsAt(Step(w, a), at) == RecordsAt(w, at)
  {
  }

  // A registry is set before the first campaign is created, after start acts, and
  // remains the one that is set.
  ghost predicate LinkedFirst(acts: seq<Act>, start: nat, at: Address) {
    && start <= |acts| && Run(Genesis(), acts[..start]).cells == map[]
    && forall n :: start <= n <= |acts| ==> PointsAt(acts[..n], at)
  }

  ghost predicate PointsAt(acts: seq<Act>, at: Address) {
    Run(Genesis(), acts).registryAt == Some(at)
  }

  lemma {:induction false} LinkedFirstPrefix(acts: seq<Act>, start: nat, at: Address)
    requires LinkedFirst(acts, start, at)
    ensures PointsAt(acts, at)
    ensures if start == |acts| then Run(Genesis(), acts).cells == map[]
            else LinkedFirst(acts[..|acts| - 1], start, at)
  {
    assert acts[..|acts|] == acts;
    assert PointsAt(acts[..|acts|], at);
    if start < |acts| {
      var init := acts[..|acts| - 1];
      assert init[..start] == acts[..start];
      forall n | start <= n <= |init| ensures PointsAt(init[..n], at) {
        assert init[..n] == acts[..n];
        assert PointsAt(acts[..n], at);
      }
    }
  }

  // With no admin override either, the mirror tracks the escrow in every
  // interleaving of escrow steps, reconciliations and other registry calls.
  lemma {:induction false} MirrorTracks(acts: seq<Act>, start: nat, at: Address)
    requires LinkedFirst(acts, start, at) && NoOverrides(acts, at)
    ensures AllMirrored(Run(Genesis(), acts), at)
  {
    LinkedFirstPrefix(acts, start, at);
    if start < |acts| {
      var init, a := acts[..|acts| - 1], acts[|acts| - 1];
      var w := Run(Genesis(), init);
      NoOverridesPrefix(acts, at);
      MirrorTracks(init, start, at);
      if Apply(w, a.signers, a.call).Some? {
        if a.call.On? {
          RunSound(init, a.call.id);
          MirroredOnCommit(w, at, a.signers, a.call.id, a.call.op);
        } else if a.call.CreateCampaign? {
          MirroredOnCreate(w, at, a.signers, a.call.id, BirthOf(w, a.call));
        } else {
          MirroredOnOthers(w, at, a);
        }
      }
    }
  }

  lemma {:induction false} NoOverridesPrefix(acts: seq<Act>, at: Address)
    requires acts != [] && NoOverrides(acts, at)
    ensures NoOverrides(acts[..|acts| - 1], at) && !Override(Run(Genesis(), acts[..|acts| - 1]), at, acts[|acts| - 1])
  {
    var init := acts[..|acts| - 1];
    forall i | 0 <= i < |init| ensures !Override(Run(Genesis(), init[..i]), at, init[i]) {
      assert init[..i] == acts[..i] && init[i] == acts[i];
    }
  }

  // A step moves the mirror of a campaign only to the status the escrow then has.
  lemma {:induction false} MirrorMoves(w: State, at: Address, a: Act, id: nat)
    requires AllMirrored(w, at) && Tidy(w) && !Override(w, at, a) && id in w.cells && Sound(w.cells[id])
    ensures var w' := Step(w, a);
            && id in w'.cells && id in RecordsAt(w', at)
            && (RecordsAt(w', at)[id].status == RecordsAt(w, at)[id].status
                || RecordsAt(w', at)[id].status == w'.cells[id].campaign.status)
  {
    assert Mirrored(w, at, id);
    if Apply(w, a.signers, a.call).Some? {
      if a.call.On? && a.call.id == id {
        NoticeTracks(w.cells[id], EnvOf(w, a.signers, id), a.call.op, w.registries[at].records[id].status);
      } else if !a.call.On? && !a.call.CreateCampaign? {
        OthersKeepCells(w, a);
        RecordsKept(w, at, a, id);
      }
    }
  }

  // The mirror of a campaign as it is now, and the escrow's status at some point
  // of the run.
  ghost predicate MirrorWas(acts: seq<Act>, at: Address, id: nat, j: nat)
    requires j <= |acts|
  {
    var records, past := RecordsAt(Run(Genesis(), acts), at), Run(Genesis(), acts[..j]);
    id in records && id in past.cells && records[id].status == past.cells[id].campaign.status
  }

  // The mirror always holds a status that the escrow has had.
  lemma {:induction false} MirrorIsPast(acts: seq<Act>, start: nat, at: Address, id: nat)
    requires LinkedFirst(acts, start, at) && NoOverrides(acts, at) && id in Run(Genesis(), acts).cells
    ensures exists j :: 0 <= j <= |acts| && MirrorWas(acts, at, id, j)
    decreases |acts|
  {
    LinkedFirstPrefix(acts, start, at);
    NoOverridesPrefix(acts, at);
    MirrorTracks(acts, start, at);
    var init := acts[..|acts| - 1];
    MirrorTracks(init, start, at);
    if id in Run(Genesis(), init).cells {
      MirrorIsPast(init, start, at, id);
      var j :| 0 <= j <= |init| && MirrorWas(init, at, id, j);
      LastMove(acts, at, id, j);
    } else {
      NoStrayEvents(init);
      FreshMirror(Run(Genesis(), init), at, acts[|acts| - 1], id);
      MirrorIsNow(acts, at, id);
    }
  }

  lemma {:induction false} MirrorIsNow(acts: seq<Act>, at: Address, id: nat)
    requires var w := Run(Genesis(), acts);
             && id in w.cells && id in RecordsAt(w, at)
             && RecordsAt(w, at)[id].status == w.cells[id].campaign.status
    ensures MirrorWas(acts, at, id, |acts|)
  {
    assert acts[..|acts|] == acts;
  }

  lemma {:induction false} LastMove(acts: seq<Act>, at: Address, id: nat, j: nat)
    requires acts != [] && NoOverrides(acts, at) && AllMirrored(Run(Genesis(), acts[..|acts| - 1]), at)
    requires id in Run(Genesis(), acts[..|acts| - 1]).cells
    requires j <= |acts| - 1 && MirrorWas(acts[..|acts| - 1], at, id, j)
    ensures MirrorWas(acts, at, id, j) || MirrorWas(acts, at, id, |acts|)
  {
    var init := acts[..|acts| - 1];
    NoOverridesPrefix(acts, at);
    NoStrayEvents(init);
    RunSound(init, id);
    MirrorMoves(Run(Genesis(), init), at, acts[|acts| - 1], id);
    if RecordsAt(Run(Genesis(), acts), at)[id].status == Run(Genesis(), acts).cells[id].campaign.status {
      MirrorIsNow(acts, at, id);
    } else {
      assert init[..j] == acts[..j];
    }
  }

  // A campaign that has just been created is mirrored exactly.
  lemma {:induction false} FreshMirror(w: State, at: Address, a: Act, id: nat)
    requires w.registryAt == Some(at) && Tidy(w) && id !in w.cells && id in Step(w, a).cells
    ensures var w' := Step(w, a);
            id in RecordsAt(w', at) && RecordsAt(w', at)[id].status == w'.cells[id].campaign.status
  {
    StepOnLives(w, a, id);
  }

  // Reconciling makes the mirror equal to the escrow, reports whether it was
  // not, and has nothing left to do the second time.
  lemma {:induction false} ReconcileHeals(w: State, at: Address, signers: Signers, id: nat,
                                          foreign: Option<CampaignStatus>)
    requires at in w.registries && id in w.registries[at].records && w.registries[at].records[id].escrow == SELF
    requires id in w.cells
    ensures var r := w.registries[at];
            var x := Reconcile(r, id, Truth(w, r, id, foreign));
            var w' := Step(w, Act(signers, At(at, ReconcileStatus(id, foreign))));
            && x.Some? && w' == w.(registries := w.registries[at := x.value.0])
            && x.value.0.records == r.records[id := x.value.0.records[id]]
            && x.value.0.records[id] == r.records[id].(status := w.cells[id].campaign.status)
            && (x.value.1 <==> r.records[id].status != w.cells[id].campaign.status)
            && Reconcile(x.value.0, id, Truth(w', x.value.0, id, foreign)) == Some((x.value.0, false))
  {
  }
}
