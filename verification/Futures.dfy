// What further calls can still do for a campaign: whether some list of them makes its
// funds claimable, and what becomes of that without set_registry and update_admin.

module Futures {
  import opened EscrowTypes
  import opened Campaigns
  import opened Accounting
  import opened Lifecycle
  import opened Chain
  import opened Solvency
  import opened Payouts
  import opened Mirror
  import opened Acceptance

  // ------------------------------------------------------------ opening by further calls

  // Some further calls make what the campaign holds claimable.
  ghost predicate CanOpen(acts: seq<Act>, id: nat) {
    exists more: seq<Act> :: OpenAfter(acts, more, id)
  }

  ghost predicate OpenAfter(acts: seq<Act>, more: seq<Act>, id: nat) {
    var w := Run(Genesis(), acts + more);
    id in w.cells && Claimable(w.cells[id].campaign.status)
  }

  // Someone who is not the escrow contract.
  function Anyone(): (a: Address)
    ensures a != SELF
  {
    SELF + ['x']
  }

  // The same campaign, under the same admin if there was one.
  ghost predicate Untouched(w: State, w': State, id: nat)
    requires id in w.cells
  {
    id in w'.cells && w'.cells[id] == w.cells[id] && (w.admin.Some? ==> w'.admin == w.admin)
  }

  lemma {:induction false} Further(acts: seq<Act>, a: Act, id: nat)
    requires id in Run(Genesis(), acts).cells && !a.call.On? && !a.call.CreateCampaign?
    ensures var w, w' := Run(Genesis(), acts), Run(Genesis(), acts + [a]);
            w' == Step(w, a) && Untouched(w, w', id)
  {
    RunSnoc(acts, a);
    OthersKeepCells(Run(Genesis(), acts), a);
  }

  // A call on a registry leaves the address that is set and the other registries alone.
  lemma {:induction false} FurtherAt(acts: seq<Act>, signers: Signers, at: Address, call: RegistryCall, id: nat)
    requires id in Run(Genesis(), acts).cells && at in Run(Genesis(), acts).registries
    requires OnRegistry(Run(Genesis(), acts), Run(Genesis(), acts).registries[at], signers, call).Some?
    ensures var w, w' := Run(Genesis(), acts), Run(Genesis(), acts + [Act(signers, At(at, call))]);
            && Untouched(w, w', id) && w'.registryAt == w.registryAt && w'.admin == w.admin
            && w'.registries == w.registries[at := OnRegistry(w, w.registries[at], signers, call).value]
  {
    Further(acts, Act(signers, At(at, call)), id);
  }

  // The admin is initialised, if it was not.
  lemma {:induction false} GetAdmin(acts: seq<Act>, id: nat) returns (more: seq<Act>)
    requires id in Run(Genesis(), acts).cells
    ensures var w, w' := Run(Genesis(), acts), Run(Genesis(), acts + more);
            && Untouched(w, w', id) && w'.admin.Some? && w'.registryAt == w.registryAt && w'.registries == w.registries
            && AsSet(more)
  {
    if Run(Genesis(), acts).admin.Some? {
      more := [];
      assert acts + more == acts;
    } else {
      more := [Act({Anyone()}, Initialize(Anyone()))];
      Further(acts, more[0], id);
    }
  }

  lemma CanOpenLater(acts: seq<Act>, more: seq<Act>, id: nat)
    requires CanOpen(acts + more, id)
    ensures CanOpen(acts, id)
  {
    var rest: seq<Act> :| OpenAfter(acts + more, rest, id);
    assert acts + (more + rest) == acts + more + rest;
    assert OpenAfter(acts, more + rest, id);
  }

  // Where the registry is no obstacle, the admin opens the campaign in one call.
  lemma {:induction false} Unwound(acts: seq<Act>, id: nat) returns (call: Act)
    requires id in Run(Genesis(), acts).cells && !Claimable(Run(Genesis(), acts).cells[id].campaign.status)
    requires Run(Genesis(), acts).admin.Some? && Heard(Run(Genesis(), acts), id)
    ensures call.call.On? && OpenAfter(acts, [call], id)
  {
    var w := Run(Genesis(), acts);
    AdminIsOutside(acts);
    call := Act({w.admin.value}, On(id, Unwinding(w.cells[id])));
    NothingIsTrapped(acts, {w.admin.value}, id);
    RunSnoc(acts, call);
  }

  // ------------------------------------------------------------ a new registry

  // An address that is none of these.
  lemma {:induction false} FreshAddress(used: set<Address>) returns (a: Address)
    ensures a !in used && a != SELF
  {
    a := LongerThan(used + {SELF});
  }

  lemma {:induction false} LongerThan(used: set<Address>) returns (a: Address)
    ensures forall b :: b in used ==> |b| < |a|
    decreases used
  {
    if used == {} {
      a := "";
    } else {
      var b :| b in used;
      var c := LongerThan(used - {b});
      a := if |b| < |c| then c else b + ['x'];
    }
  }

  // A registry that anyone has deployed and initialised, with the campaign registered
  // and linked to the escrow contract.
  lemma {:induction false} GetRegistry(acts: seq<Act>, id: nat) returns (more: seq<Act>, at: Address)
    requires id in Run(Genesis(), acts).cells
    ensures var w, w' := Run(Genesis(), acts), Run(Genesis(), acts + more);
            Untouched(w, w', id) && at in w'.registries && CanReport(w'.registries[at], id)
  {
    at := FreshAddress(Run(Genesis(), acts).registries.Keys);
    var deploy := Act({}, Deploy(at));
    Further(acts, deploy, id);
    var rest := FillRegistry(acts + [deploy], at, id);
    more := [deploy] + rest;
    assert acts + more == acts + [deploy] + rest;
  }

  lemma {:induction false} FillRegistry(acts: seq<Act>, at: Address, id: nat) returns (more: seq<Act>)
    requires id in Run(Genesis(), acts).cells
    requires at in Run(Genesis(), acts).registries && Run(Genesis(), acts).registries[at] == NewRegistry()
    ensures var w, w' := Run(Genesis(), acts), Run(Genesis(), acts + more);
            Untouched(w, w', id) && at in w'.registries && CanReport(w'.registries[at], id)
  {
    var x := Anyone();
    var one, two := Act({x}, At(at, InitializeRegistry(x))), Act({x}, At(at, Register(id, x)));
    var three := Act({x}, At(at, Link(id, x, SELF, "", "")));
    FurtherAt(acts, {x}, at, InitializeRegistry(x), id);
    FurtherAt(acts + [one], {x}, at, Register(id, x), id);
    FurtherAt(acts + [one] + [two], {x}, at, Link(id, x, SELF, "", ""), id);
    more := [one] + [two] + [three];
    assert acts + more == acts + [one] + [two] + [three];
  }

  // After every run, further calls can make what a campaign holds claimable by its
  // investors, whatever registry is set and whatever it records: the admin can point
  // the contract at another one.
  lemma {:induction false} AlwaysCanOpen(acts: seq<Act>, id: nat)
    requires id in Run(Genesis(), acts).cells
    ensures CanOpen(acts, id)
  {
    if Claimable(Run(Genesis(), acts).cells[id].campaign.status) {
      assert acts + [] == acts;
      assert OpenAfter(acts, [], id);
    } else {
      var one := GetAdmin(acts, id);
      var two, at := GetRegistry(acts + one, id);
      Repointed(acts + one + two, at, id);
      CanOpenLater(acts + one, two, id);
      CanOpenLater(acts, one, id);
    }
  }

  lemma {:induction false} Repointed(acts: seq<Act>, at: Address, id: nat)
    requires var w := Run(Genesis(), acts);
             && id in w.cells && !Claimable(w.cells[id].campaign.status) && w.admin.Some?
             && at in w.registries && CanReport(w.registries[at], id)
    ensures CanOpen(acts, id)
  {
    AdminIsOutside(acts);
    var point := Act({Run(Genesis(), acts).admin.value}, SetRegistry(at));
    Further(acts, point, id);
    var call := Unwound(acts + [point], id);
    assert OpenAfter(acts + [point], [call], id);
    CanOpenLater(acts, [point], id);
  }

  // ------------------------------------------------------------ while the registry stays as it is set

  // No call of set_registry or of a registry's update_admin.
  ghost predicate AsSet(more: seq<Act>) {
    forall i :: 0 <= i < |more| ==> KeepsSetting(more[i])
  }

  predicate KeepsSetting(a: Act) {
    !a.call.SetRegistry? && !(a.call.At? && a.call.call.UpdateAdmin?)
  }

  // Some further calls other than those make what the campaign holds claimable.
  ghost predicate CanOpenAsSet(acts: seq<Act>, id: nat) {
    exists more: seq<Act> :: AsSet(more) && OpenAfter(acts, more, id)
  }

  // No call of set_registry.
  ghost predicate SameAddress(more: seq<Act>) {
    forall i :: 0 <= i < |more| ==> !more[i].call.SetRegistry?
  }

  ghost predicate CanOpenHere(acts: seq<Act>, id: nat) {
    exists more: seq<Act> :: SameAddress(more) && OpenAfter(acts, more, id)
  }

  // The registry that is set has a record of the campaign that names another contract,
  // and the escrow contract is not its admin; or the address is the contract's own.
  predicate Misdirected(w: State, id: nat) {
    && w.registryAt.Some?
    && var at := w.registryAt.value;
       at == SELF
       || (at in w.registries && id in w.registries[at].records && w.registries[at].records[id].escrow != SELF
           && w.registries[at].admin != Some(SELF))
  }

  // Still collecting, so that it expires in time.
  predicate CanExpire(k: Campaign) {
    Accepting(k.status) && k.totalFunded < k.target
  }

  predicate Shut(w: State, id: nat) {
    && id in w.cells && Misdirected(w, id)
    && !Claimable(w.cells[id].campaign.status) && !CanExpire(w.cells[id].campaign)
  }

  // Registered farmers are not the escrow contract itself, which has signed nothing; a
  // registry is set by an admin, and a contract approved by the registry's; and the
  // escrow contract's own address is not a registry's.
  ghost predicate Grounded(w: State) {
    && SELF !in w.registries && (w.registryAt.Some? ==> w.admin.Some?)
    && forall at :: at in w.registries ==> GroundedRegistry(w.registries[at])
  }

  ghost predicate GroundedRegistry(r: Registry) {
    && (forall id :: id in r.infos ==> r.infos[id] != SELF)
    && (r.approved != {} ==> r.admin.Some?)
  }

  lemma {:induction false} CallGrounded(w: State, r: Registry, signers: Signers, call: RegistryCall)
    requires GroundedRegistry(r) && OnRegistry(w, r, signers, call).Some?
    ensures GroundedRegistry(OnRegistry(w, r, signers, call).value)
  {
  }

  lemma {:induction false} GroundedStep(w: State, a: Act)
    requires Grounded(w)
    ensures Grounded(Step(w, a))
  {
    var w' := Step(w, a);
    if Apply(w, a.signers, a.call).Some? {
      SettingKept(w, a);
      forall at | at in w'.registries ensures GroundedRegistry(w'.registries[at]) {
        RegistryStep(w, a, at);
      }
    }
  }

  lemma {:induction false} SettingKept(w: State, a: Act)
    requires Apply(w, a.signers, a.call).Some? && SELF !in w.registries
    ensures SELF !in Step(w, a).registries && (w.admin.Some? ==> Step(w, a).admin == w.admin)
    ensures !a.call.SetRegistry? ==> Step(w, a).registryAt == w.registryAt
    ensures Step(w, a).registryAt.Some? && w.registryAt.None? ==> w.admin.Some?
  {
    if a.call.On? || a.call.CreateCampaign? {
      OwnCallsSet(w, a);
    }
  }

  // They set no address, deploy no registry and appoint no admin.
  lemma {:induction false} OwnCallsSet(w: State, a: Act)
    requires Apply(w, a.signers, a.call).Some? && (a.call.On? || a.call.CreateCampaign?)
    ensures var w' := Step(w, a);
            w'.admin == w.admin && w'.registryAt == w.registryAt && w'.registries.Keys == w.registries.Keys
  {
  }

  lemma {:induction false} RegistryStep(w: State, a: Act, at: Address)
    requires Apply(w, a.signers, a.call).Some? && at in Step(w, a).registries
    requires at in w.registries ==> GroundedRegistry(w.registries[at])
    ensures GroundedRegistry(Step(w, a).registries[at])
  {
    if a.call.At? && a.call.address == at {
      CallGrounded(w, w.registries[at], a.signers, a.call.call);
    } else if a.call.On? || a.call.CreateCampaign? {
      OwnCallsKeep(w, a, at);
    }
  }

  // The escrow contract's own calls on a registry touch its records and index only.
  lemma {:induction false} OwnCallsKeep(w: State, a: Act, at: Address)
    requires Apply(w, a.signers, a.call).Some? && (a.call.On? || a.call.CreateCampaign?)
    requires at in Step(w, a).registries
    ensures at in w.registries
    ensures var r, r' := w.registries[at], Step(w, a).registries[at];
            r'.admin == r.admin && r'.infos == r.infos && r'.approved == r.approved
  {
  }

  lemma {:induction false} RunGrounded(acts: seq<Act>)
    ensures Grounded(Run(Genesis(), acts))
  {
    if acts != [] {
      RunGrounded(acts[..|acts| - 1]);
      GroundedStep(Run(Genesis(), acts[..|acts| - 1]), acts[|acts| - 1]);
    }
  }

  lemma {:induction false} MisdirectedStays(w: State, a: Act, id: nat)
    requires Misdirected(w, id) && Stays(w, a)
    ensures Misdirected(Step(w, a), id) && Step(w, a).registryAt == w.registryAt
  {
    if Apply(w, a.signers, a.call).Some? {
      var at := w.registryAt.value;
      if at != SELF {
        LinkKept(w, at, a, id);
        AdminNotHandedOver(w, a, at);
      } else if a.call.On? || a.call.CreateCampaign? {
        OwnCallsSet(w, a);
      }
    }
  }

  // The call does not change the setting; where the address is the contract's own, no
  // registry's update_admin does.
  predicate Stays(w: State, a: Act) {
    KeepsSetting(a) || (!a.call.SetRegistry? && w.registryAt == Some(SELF))
  }

  lemma {:induction false} AdminNotHandedOver(w: State, a: Act, at: Address)
    requires Apply(w, a.signers, a.call).Some? && KeepsSetting(a) && at in w.registries
    requires w.registries[at].admin != Some(SELF)
    ensures at in Step(w, a).registries && Step(w, a).registries[at].admin != Some(SELF)
    ensures Step(w, a).registryAt == w.registryAt
  {
    if a.call.On? || a.call.CreateCampaign? {
      OwnCallsSet(w, a);
      OwnCallsKeep(w, a, at);
    }
  }

  // The only steps left to such a campaign report nothing and open nothing.
  lemma {:induction false} QuietStep(c: Cell, e: Env, op: Op)
    requires !Claimable(c.campaign.status) && !CanExpire(c.campaign)
    requires Attempt(c, e, op).Some? && !Reports(c, op)
    ensures var k := Attempt(c, e, op).value.cell.campaign; !Claimable(k.status) && !CanExpire(k)
  {
  }

  lemma {:induction false} ShutStays(w: State, a: Act, id: nat)
    requires Grounded(w) && Shut(w, id) && Stays(w, a)
    ensures Shut(Step(w, a), id) && Step(w, a).registryAt == w.registryAt
  {
    MisdirectedStays(w, a, id);
    if Apply(w, a.signers, a.call).Some? {
      if a.call.On? && a.call.id == id {
        CommitsIff(w, a.signers, id, a.call.op);
        QuietStep(w.cells[id], EnvOf(w, a.signers, id), a.call.op);
      } else {
        OtherCellsKept(w, a, id);
      }
    }
  }

  lemma {:induction false} OtherCellsKept(w: State, a: Act, id: nat)
    requires id in w.cells && !(a.call.On? && a.call.id == id)
    ensures id in Step(w, a).cells && Step(w, a).cells[id] == w.cells[id]
  {
    if !a.call.On? && !a.call.CreateCampaign? {
      OthersKeepCells(w, a);
    }
  }

  lemma {:induction false} ShutAsSet(acts: seq<Act>, more: seq<Act>, id: nat)
    requires Shut(Run(Genesis(), acts), id)
    requires AsSet(more) || (SameAddress(more) && Run(Genesis(), acts).registryAt == Some(SELF))
    ensures Shut(Run(Genesis(), acts + more), id)
    ensures Run(Genesis(), acts + more).registryAt == Run(Genesis(), acts).registryAt
    decreases |more|
  {
    if more == [] {
      assert acts + more == acts;
    } else {
      var init, last := more[..|more| - 1], more[|more| - 1];
      ShutAsSet(acts, init, id);
      assert acts + more == acts + init + [last];
      RunSnoc(acts + init, last);
      RunGrounded(acts + init);
      ShutStays(Run(Genesis(), acts + init), last, id);
    }
  }

  // ------------------------------------------------------------ getting the registry to listen

  // The registry at an address has been deployed, and the address is the one set.
  predicate Set(w: State, at: Address) {
    w.registryAt == Some(at) && at in w.registries
  }

  lemma {:induction false} GetDeployed(acts: seq<Act>, at: Address, id: nat) returns (more: seq<Act>)
    requires id in Run(Genesis(), acts).cells && Run(Genesis(), acts).registryAt == Some(at) && at != SELF
    ensures var w, w' := Run(Genesis(), acts), Run(Genesis(), acts + more);
            && Untouched(w, w', id) && Set(w', at) && AsSet(more)
            && (at in w.registries ==> w'.registries == w.registries)
            && (at !in w.registries ==> w'.registries[at] == NewRegistry())
  {
    if at in Run(Genesis(), acts).registries {
      more := [];
      assert acts + more == acts;
    } else {
      more := [Act({}, Deploy(at))];
      Further(acts, more[0], id);
    }
  }

  // One more call on the registry that is set.
  lemma {:induction false} OneMore(acts: seq<Act>, signers: Signers, at: Address, call: RegistryCall, id: nat)
    returns (more: seq<Act>)
    requires id in Run(Genesis(), acts).cells && Set(Run(Genesis(), acts), at) && !call.UpdateAdmin?
    requires OnRegistry(Run(Genesis(), acts), Run(Genesis(), acts).registries[at], signers, call).Some?
    ensures var w, w' := Run(Genesis(), acts), Run(Genesis(), acts + more);
            && Untouched(w, w', id) && Set(w', at) && AsSet(more)
            && w'.registries[at] == OnRegistry(w, w.registries[at], signers, call).value
  {
    more := [Act(signers, At(at, call))];
    FurtherAt(acts, signers, at, call, id);
  }

  lemma {:induction false} Joined(acts: seq<Act>, one: seq<Act>, two: seq<Act>)
    requires AsSet(one) && AsSet(two)
    ensures AsSet(one + two) && acts + (one + two) == acts + one + two
  {
    forall i | 0 <= i < |one + two| ensures KeepsSetting((one + two)[i]) {
      if i < |one| {
        assert KeepsSetting(one[i]);
      } else {
        assert KeepsSetting(two[i - |one|]);
      }
    }
  }

  lemma {:induction false} GetInitialised(acts: seq<Act>, at: Address, id: nat) returns (more: seq<Act>)
    requires id in Run(Genesis(), acts).cells && Set(Run(Genesis(), acts), at)
    ensures var w, w' := Run(Genesis(), acts), Run(Genesis(), acts + more);
            && Untouched(w, w', id) && Set(w', at) && AsSet(more) && w'.registries[at].admin.Some?
            && w'.registries[at].records == w.registries[at].records
            && (w.registries[at].admin.Some? ==> w'.registries[at].admin == w.registries[at].admin)
  {
    if Run(Genesis(), acts).registries[at].admin.Some? {
      more := [];
      assert acts + more == acts;
    } else {
      more := OneMore(acts, {Anyone()}, at, InitializeRegistry(Anyone()), id);
    }
  }

  lemma {:induction false} GetRegistered(acts: seq<Act>, at: Address, id: nat) returns (more: seq<Act>)
    requires id in Run(Genesis(), acts).cells && Set(Run(Genesis(), acts), at)
    ensures var w, w' := Run(Genesis(), acts), Run(Genesis(), acts + more);
            && Untouched(w, w', id) && Set(w', at) && AsSet(more) && id in w'.registries[at].infos
            && w'.registries[at].admin == w.registries[at].admin
            && w'.registries[at].records == w.registries[at].records
  {
    if id in Run(Genesis(), acts).registries[at].infos {
      more := [];
      assert acts + more == acts;
    } else {
      more := OneMore(acts, {Anyone()}, at, Register(id, Anyone()), id);
    }
  }

  // The escrow contract is not on the registry's list, so that the farmer links.
  lemma {:induction false} GetUnapproved(acts: seq<Act>, at: Address, id: nat) returns (more: seq<Act>)
    requires id in Run(Genesis(), acts).cells && Set(Run(Genesis(), acts), at)
    requires Run(Genesis(), acts).registries[at].admin.Some? && Run(Genesis(), acts).registries[at].admin != Some(SELF)
    ensures var w, w' := Run(Genesis(), acts), Run(Genesis(), acts + more);
            && Untouched(w, w', id) && Set(w', at) && AsSet(more) && SELF !in w'.registries[at].approved
            && w'.registries[at].admin == w.registries[at].admin && w'.registries[at].infos == w.registries[at].infos
            && w'.registries[at].records == w.registries[at].records
  {
    more := OneMore(acts, {Run(Genesis(), acts).registries[at].admin.value}, at, Approve(SELF, false), id);
  }

  // A registered campaign gets a record that lets the escrow contract report: one that
  // names it, or, where it is the admin, any.
  lemma {:induction false} GetLinked(acts: seq<Act>, at: Address, id: nat) returns (more: seq<Act>)
    requires id in Run(Genesis(), acts).cells && Set(Run(Genesis(), acts), at)
    requires var r := Run(Genesis(), acts).registries[at];
             r.admin.Some? && id in r.infos && id !in r.records && (SELF in r.approved ==> r.admin == Some(SELF))
    ensures var w, w' := Run(Genesis(), acts), Run(Genesis(), acts + more);
            Untouched(w, w', id) && Set(w', at) && AsSet(more) && CanReport(w'.registries[at], id)
  {
    RunGrounded(acts);
    var r := Run(Genesis(), acts).registries[at];
    var farmer := r.infos[id];
    assert GroundedRegistry(r);
    var escrow := if SELF in r.approved then farmer else SELF;
    more := OneMore(acts, {farmer}, at, Link(id, farmer, escrow, "", ""), id);
  }

  lemma {:induction false} GetRecord(acts: seq<Act>, at: Address, id: nat) returns (more: seq<Act>)
    requires id in Run(Genesis(), acts).cells && Set(Run(Genesis(), acts), at)
    requires var r := Run(Genesis(), acts).registries[at]; r.admin.Some? && id in r.infos && id !in r.records
    ensures var w, w' := Run(Genesis(), acts), Run(Genesis(), acts + more);
            Untouched(w, w', id) && Set(w', at) && AsSet(more) && CanReport(w'.registries[at], id)
  {
    if Run(Genesis(), acts).registries[at].admin == Some(SELF) {
      more := GetLinked(acts, at, id);
    } else {
      var one := GetUnapproved(acts, at, id);
      var two := GetLinked(acts + one, at, id);
      Joined(acts, one, two);
      more := one + two;
    }
  }

  lemma {:induction false} GetReport(acts: seq<Act>, at: Address, id: nat) returns (more: seq<Act>)
    requires id in Run(Genesis(), acts).cells && Set(Run(Genesis(), acts), at)
    requires var r := Run(Genesis(), acts).registries[at];
             r.admin.Some? && (id in r.records ==> CanReport(r, id))
    ensures var w, w' := Run(Genesis(), acts), Run(Genesis(), acts + more);
            Untouched(w, w', id) && Set(w', at) && AsSet(more) && CanReport(w'.registries[at], id)
  {
    if id in Run(Genesis(), acts).registries[at].records {
      more := [];
      assert acts + more == acts;
    } else {
      var one := GetRegistered(acts, at, id);
      var two := GetRecord(acts + one, at, id);
      Joined(acts, one, two);
      more := one + two;
    }
  }

  lemma {:induction false} GetReady(acts: seq<Act>, at: Address, id: nat) returns (more: seq<Act>)
    requires id in Run(Genesis(), acts).cells && Run(Genesis(), acts).registryAt == Some(at)
    requires !Misdirected(Run(Genesis(), acts), id)
    ensures var w, w' := Run(Genesis(), acts), Run(Genesis(), acts + more);
            && Untouched(w, w', id) && Set(w', at) && AsSet(more) && w'.registries[at].admin.Some?
            && (id in w'.registries[at].records ==> CanReport(w'.registries[at], id))
  {
    var one := GetDeployed(acts, at, id);
    var two := GetInitialised(acts + one, at, id);
    Joined(acts, one, two);
    more := one + two;
  }

  // Unless the campaign is misdirected, the registry can be got to listen.
  lemma {:induction false} GetHeard(acts: seq<Act>, id: nat) returns (more: seq<Act>)
    requires id in Run(Genesis(), acts).cells && !Misdirected(Run(Genesis(), acts), id)
    ensures var w, w' := Run(Genesis(), acts), Run(Genesis(), acts + more);
            Untouched(w, w', id) && AsSet(more) && Heard(w', id)
  {
    if Run(Genesis(), acts).registryAt.None? {
      more := [];
      assert acts + more == acts;
    } else {
      var at := Run(Genesis(), acts).registryAt.value;
      var one := GetReady(acts, at, id);
      var two := GetReport(acts + one, at, id);
      Joined(acts, one, two);
      more := one + two;
    }
  }

  // A campaign that is collecting and short of its target expires in time.
  lemma {:induction false} Expires(acts: seq<Act>, id: nat)
    requires id in Run(Genesis(), acts).cells && CanExpire(Run(Genesis(), acts).cells[id].campaign)
    ensures CanOpenAsSet(acts, id)
  {
    var w := Run(Genesis(), acts);
    var wait, call := Act({}, Tick(w.cells[id].campaign.deadline + 1, 0)), Act({}, On(id, Expire));
    Further(acts, wait, id);
    ExpireAcceptedIff(acts + [wait], {}, id);
    RunSnoc(acts + [wait], call);
    assert acts + [wait] + [call] == acts + ([wait] + [call]);
    assert AsSet([wait] + [call]) && OpenAfter(acts, [wait] + [call], id);
  }

  lemma {:induction false} OpensAsSet(acts: seq<Act>, id: nat)
    requires id in Run(Genesis(), acts).cells && !Claimable(Run(Genesis(), acts).cells[id].campaign.status)
    requires !Misdirected(Run(Genesis(), acts), id)
    ensures CanOpenAsSet(acts, id)
  {
    var one := GetHeard(acts, id);
    var two := GetAdmin(acts + one, id);
    Joined(acts, one, two);
    var call := Unwound(acts + (one + two), id);
    Joined(acts, one + two, [call]);
    assert OpenAfter(acts, one + two + [call], id);
  }

  // After any run: no further calls other than set_registry and a registry's
  // update_admin, by whomever, make what a campaign holds claimable, exactly if it is
  // not claimable yet, the registry that is set has a record of it that names another
  // contract and does not have the escrow contract as its admin (or the address set is
  // the contract's own), and the campaign is not one that is still collecting and short
  // of its target, which expires.
  lemma {:induction false} NotOpenAsSetIff(acts: seq<Act>, id: nat)
    requires id in Run(Genesis(), acts).cells
    ensures !CanOpenAsSet(acts, id) <==> Shut(Run(Genesis(), acts), id)
  {
    var w := Run(Genesis(), acts);
    if Shut(w, id) {
      forall more: seq<Act> | AsSet(more) ensures !OpenAfter(acts, more, id) {
        ShutAsSet(acts, more, id);
      }
    } else if Claimable(w.cells[id].campaign.status) {
      assert acts + [] == acts;
      assert AsSet([]) && OpenAfter(acts, [], id);
    } else if CanExpire(w.cells[id].campaign) {
      Expires(acts, id);
    } else {
      OpensAsSet(acts, id);
    }
  }

  // ------------------------------------------------------------ handing the registry over

  // A registry that has a record of the campaign, whichever contract that names, listens
  // once its admin has handed its role to the escrow contract.
  lemma {:induction false} HandedOver(acts: seq<Act>, id: nat) returns (more: seq<Act>)
    requires var w := Run(Genesis(), acts);
             && id in w.cells && !Claimable(w.cells[id].campaign.status) && w.admin.Some?
             && w.registryAt.Some? && Initialised(w, w.registryAt.value)
             && id in w.registries[w.registryAt.value].records
    ensures SameAddress(more) && OpenAfter(acts, more, id)
  {
    var w := Run(Genesis(), acts);
    var at := w.registryAt.value;
    if w.registries[at].admin == Some(SELF) {
      var call := Unwound(acts, id);
      more := [call];
    } else {
      var hand := Act({w.registries[at].admin.value}, At(at, UpdateAdmin(SELF)));
      FurtherAt(acts, {w.registries[at].admin.value}, at, UpdateAdmin(SELF), id);
      var call := Unwound(acts + [hand], id);
      more := [hand, call];
      assert acts + more == acts + [hand] + [call];
    }
  }

  lemma {:induction false} OpensHere(acts: seq<Act>, id: nat)
    requires Shut(Run(Genesis(), acts), id) && Run(Genesis(), acts).registryAt != Some(SELF)
    ensures CanOpenHere(acts, id)
  {
    var one := GetAdmin(acts, id);
    var two := GetInitialised(acts + one, Run(Genesis(), acts).registryAt.value, id);
    Joined(acts, one, two);
    var three := HandedOver(acts + (one + two), id);
    SameAddressJoined(one + two, three);
    assert acts + (one + two + three) == acts + (one + two) + three;
    assert OpenAfter(acts, one + two + three, id);
  }

  lemma {:induction false} SameAddressJoined(one: seq<Act>, two: seq<Act>)
    requires AsSet(one) && SameAddress(two)
    ensures SameAddress(one + two)
  {
    forall i | 0 <= i < |one + two| ensures !(one + two)[i].call.SetRegistry? {
      if i < |one| {
        assert KeepsSetting(one[i]);
      }
    }
  }

  // So even without another set_registry further calls open every campaign, unless the
  // address set is the escrow contract's own and the campaign does not expire.
  lemma {:induction false} NotOpenHereIff(acts: seq<Act>, id: nat)
    requires id in Run(Genesis(), acts).cells
    ensures !CanOpenHere(acts, id) <==>
              Shut(Run(Genesis(), acts), id) && Run(Genesis(), acts).registryAt == Some(SELF)
  {
    var w := Run(Genesis(), acts);
    if !Shut(w, id) {
      NotOpenAsSetIff(acts, id);
      var more: seq<Act> :| AsSet(more) && OpenAfter(acts, more, id);
      SameAddressJoined(more, []);
      assert more + [] == more;
    } else if w.registryAt == Some(SELF) {
      forall more: seq<Act> | SameAddress(more) ensures !OpenAfter(acts, more, id) {
        ShutAsSet(acts, more, id);
      }
    } else {
      OpensHere(acts, id);
    }
  }

  // ------------------------------------------------------------ both cases happen

  // A registry that was set after the funding blocks every call that would open the
  // campaign, but no more than that: once the farmer has registered and linked it, the
  // admin opens it.
  lemma {:induction false} LateRegistryDelays(k: Cast, at: Address)
    requires k.Outside() && at != SELF
    ensures CanOpenAsSet(LateRegistryRun(k, at), 1)
  {
    LateRegistryStage(k, at);
    NotOpenAsSetIff(LateRegistryRun(k, at), 1);
  }

  // If the farmer links it to another contract instead, the 100 that it holds stay
  // closed until the admin sets another registry or the registry's admin hands over.
  function MisdirectedRun(k: Cast, at: Address, other: Address): seq<Act>
    requires k.Outside()
  {
    LateRegistryRun(k, at) + [Act({k.farmer}, At(at, Register(1, k.farmer)))]
    + [Act({k.farmer}, At(at, Link(1, k.farmer, other, "", "")))]
  }

  lemma {:induction false} MisdirectedBlocks(k: Cast, at: Address, other: Address)
    requires k.Outside() && at != SELF && other != SELF
    ensures var w := Run(Genesis(), MisdirectedRun(k, at, other));
            && 1 in w.cells && w.cells[1].campaign.status.Funded? && w.cells[1].Held() == 100
            && !CanOpenAsSet(MisdirectedRun(k, at, other), 1) && CanOpen(MisdirectedRun(k, at, other), 1)
  {
    var acts := LateRegistryRun(k, at);
    LateRegistryStage(k, at);
    FurtherAt(acts, {k.farmer}, at, Register(1, k.farmer), 1);
    FurtherAt(acts + [Act({k.farmer}, At(at, Register(1, k.farmer)))], {k.farmer}, at,
              Link(1, k.farmer, other, "", ""), 1);
    NotOpenAsSetIff(MisdirectedRun(k, at, other), 1);
    AlwaysCanOpen(MisdirectedRun(k, at, other), 1);
  }
}
