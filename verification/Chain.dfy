// The escrow contract as deployed: all its campaigns, the token balances it sees, the
// registries, one of which it may be pointed at, and its event log. A call either
// commits as a whole or leaves everything as it was.

module Chain {
  import opened EscrowTypes
  import opened Campaigns

  // ------------------------------------------------------------ registry contract

  datatype Record = Record(farmer: Address, escrow: Address, crop: Symbol, region: Symbol, status: CampaignStatus)

  // The parts of RegistryContract that escrow calls depend on: admin, approved
  // contracts, registered campaigns (by farmer), linked records, and the global
  // campaign index in index order.
  datatype Registry = Registry(
    admin: Option<Address>,
    approved: set<Address>,
    infos: map<nat, Address>,
    records: map<nat, Record>,
    index: seq<nat>)

  // A registry as it is deployed.
  function NewRegistry(): Registry {
    Registry(None, {}, map[], map[], [])
  }

  function Indexed(index: seq<nat>, id: nat): seq<nat> {
    if id in index then index else index + [id]
  }

  function InitializeAdmin(r: Registry, signers: set<Address>, admin: Address): Option<Registry> {
    if r.admin.Some? || admin !in signers then None else Some(r.(admin := Some(admin)))
  }

  // The old admin's signature is all that is asked for.
  function HandOver(r: Registry, signers: set<Address>, admin: Address): Option<Registry> {
    if r.admin.None? || r.admin.value !in signers then None else Some(r.(admin := Some(admin)))
  }

  function SetApproved(r: Registry, signers: set<Address>, contract: Address, approved: bool): Option<Registry> {
    if r.admin.None? || r.admin.value !in signers then None
    else Some(r.(approved := if approved then r.approved + {contract} else r.approved - {contract}))
  }

  function RegisterCampaign(r: Registry, signers: set<Address>, id: nat, farmer: Address): Option<Registry> {
    if farmer !in signers || id in r.infos then None
    else Some(r.(infos := r.infos[id := farmer], index := Indexed(r.index, id)))
  }

  function LinkEscrow(r: Registry, signers: set<Address>, id: nat, farmer: Address, escrow: Address,
                      crop: Symbol, region: Symbol): Option<Registry>
  {
    if id in r.records || id !in r.infos || r.infos[id] != farmer
       || (if escrow in r.approved then escrow else farmer) !in signers
    then None
    else Some(r.(records := r.records[id := Record(farmer, escrow, crop, region, Active)],
                 index := Indexed(r.index, id)))
  }

  function UpdateStatus(r: Registry, signers: set<Address>, id: nat, caller: Address,
                        status: CampaignStatus): Option<Registry> {
    if id !in r.records || r.admin.None? || caller !in signers
       || (r.admin.value != caller && r.records[id].escrow != caller)
    then None
    else Some(r.(records := r.records[id := r.records[id].(status := status)]))
  }

  // The second component is the call's result: whether drift was corrected.
  // The truth is what the linked escrow contract reports for the campaign.
  function Reconcile(r: Registry, id: nat, truth: Option<CampaignStatus>): Option<(Registry, bool)> {
    if id !in r.records || truth.None? then None
    else if r.records[id].status == truth.value then Some((r, false))
    else Some((r.(records := r.records[id := r.records[id].(status := truth.value)]), true))
  }

  // ------------------------------------------------------------ token balances

  // Balances by (token, holder); an absent entry is 0.
  type Balances = map<(Address, Address), int>

  function Balance(b: Balances, token: Address, holder: Address): int {
    if (token, holder) in b then b[(token, holder)] else 0
  }

  function Credit(b: Balances, token: Address, holder: Address, amount: int): Balances {
    b[(token, holder) := Balance(b, token, holder) + amount]
  }

  function Move(b: Balances, token: Address, t: Transfer): Option<Balances> {
    match t
    case NoTransfer => Some(b)
    case Transfer(from, to, amount) =>
      if Balance(b, token, from) < amount then None
      else Some(Credit(Credit(b, token, from, -amount), token, to, amount))
  }

  // ------------------------------------------------------------ the whole contract

  datatype State = State(
    admin: Option<Address>,
    registryAt: Option<Address>,  // what set_registry has stored
    cells: map<nat, Cell>,
    log: seq<LogEntry>,
    balances: Balances,
    registries: map<Address, Registry>,  // by address
    now: nat,
    ledger: nat)

  function Genesis(): State {
    State(None, None, map[], [], map[], map[], 0, 0)
  }

  datatype RegistryCall =
    | InitializeRegistry(admin: Address)
    | UpdateAdmin(admin: Address)
    | Approve(contract: Address, approved: bool)
    | Register(id: nat, farmer: Address)
    | Link(id: nat, farmer: Address, escrow: Address, crop: Symbol, region: Symbol)
    | Update(id: nat, caller: Address, status: CampaignStatus)
    | ReconcileStatus(id: nat, foreign: Option<CampaignStatus>)  // what another escrow contract would report

  datatype Call =
    // ProductionEscrowContract
    | Initialize(admin: Address)
    | SetRegistry(address: Address)
    | CreateCampaign(id: nat, farmer: Address, target: int, token: Address, deadline: nat, metadata: Symbol)
    | On(id: nat, op: Op)
    // a RegistryContract: its deployment, and calls on it
    | Deploy(address: Address)
    | At(address: Address, call: RegistryCall)
    // surroundings: token transfers and issuance by others, and the clock
    | Pay(token: Address, from: Address, to: Address, amount: nat)
    | Issue(token: Address, to: Address, amount: nat)
    | Tick(seconds: nat, ledgers: nat)

  function EnvOf(w: State, signers: Signers, id: nat): Env {
    Env(id, signers, w.admin, w.now, w.ledger)
  }

  function Append(log: seq<LogEntry>, campaign: nat, ledger: nat, events: seq<Event>): seq<LogEntry>
    decreases |events|
  {
    if events == [] then log
    else Append(log + [LogEntry(|log|, campaign, ledger, events[0])], campaign, ledger, events[1..])
  }

  type Registries = map<Address, Registry>

  function Put(rs: Registries, address: Address, r: Option<Registry>): Option<Registries> {
    if r.None? then None else Some(rs[address := r.value])
  }

  // The registries after notify_registry. Recording an activity only fails where the
  // address is not that of a registry, since the contract is its own authorized
  // actor; updating the status may fail there, too.
  function Notified(w: State, id: nat, notice: Notice): Option<Registries> {
    if w.registryAt.None? || notice.Silent? then Some(w.registries)
    else if w.registryAt.value !in w.registries then None
    else if notice.Activity? then Some(w.registries)
    else
      var at := w.registryAt.value;
      Put(w.registries, at, UpdateStatus(w.registries[at], {SELF}, id, SELF, notice.status))
  }

  // assert_solvent: one campaign's held funds against the whole token balance.
  predicate Solvent(c: Cell, b: Balances) {
    c.Held() <= Balance(b, c.campaign.token, SELF)
  }

  // What an effect on one campaign does to the contract, unless the transfer, the
  // solvency check or the registry call panics.
  function Commit(w: State, id: nat, x: Effect): Option<State> {
    var moved := Move(w.balances, x.cell.campaign.token, x.transfer);
    var registries := Notified(w, id, x.notice);
    if moved.None? || (x.checkSolvency && !Solvent(x.cell, moved.value)) || registries.None? then None
    else Some(w.(
      cells := w.cells[id := x.cell],
      log := Append(w.log, id, w.ledger, x.events),
      balances := moved.value,
      registries := registries.value))
  }

  // The registries after create_campaign has linked the campaign, if one is set.
  function LinkedIn(w: State, signers: Signers, id: nat, b: Birth): Option<Registries> {
    if w.registryAt.None? then Some(w.registries)
    else if w.registryAt.value !in w.registries then None
    else
      var at := w.registryAt.value;
      Put(w.registries, at,
          LinkEscrow(w.registries[at], signers + {SELF}, id, b.farmer, SELF, b.metadata, b.metadata))
  }

  function Create(w: State, signers: Signers, id: nat, b: Birth): Option<State> {
    var registries := LinkedIn(w, signers, id, b);
    if id in w.cells || !b.Valid() || b.farmer !in signers || registries.None? then None
    else Some(w.(
      cells := w.cells[id := b.Cell()],
      log := Append(w.log, id, w.ledger, b.Trace()),
      registries := registries.value))
  }

  // What get_campaign reports as the campaign's status.
  function StatusOf(w: State, id: nat): Option<CampaignStatus> {
    if id in w.cells then Some(w.cells[id].campaign.status) else None
  }

  // The status that the escrow contract linked to a record reports.
  function Truth(w: State, r: Registry, id: nat, foreign: Option<CampaignStatus>): Option<CampaignStatus> {
    if id in r.records && r.records[id].escrow == SELF then StatusOf(w, id) else foreign
  }

  // What a call does to the registry that it is made on.
  function OnRegistry(w: State, r: Registry, signers: Signers, call: RegistryCall): Option<Registry> {
    match call
    case InitializeRegistry(admin) => InitializeAdmin(r, signers, admin)
    case UpdateAdmin(admin) => HandOver(r, signers, admin)
    case Approve(contract, approved) => SetApproved(r, signers, contract, approved)
    case Register(id, farmer) => RegisterCampaign(r, signers, id, farmer)
    case Link(id, farmer, escrow, crop, region) => LinkEscrow(r, signers, id, farmer, escrow, crop, region)
    case Update(id, caller, status) => UpdateStatus(r, signers, id, caller, status)
    case ReconcileStatus(id, foreign) =>
      var x := Reconcile(r, id, Truth(w, r, id, foreign));
      if x.None? then None else Some(x.value.0)
  }

  function Apply(w: State, signers: Signers, call: Call): Option<State> {
    match call
    case Initialize(admin) =>
      if w.admin.Some? || admin !in signers then None else Some(w.(admin := Some(admin)))
    case SetRegistry(address) =>
      if EnvOf(w, signers, 0).AdminSigned() then Some(w.(registryAt := Some(address))) else None
    case CreateCampaign(id, farmer, target, token, deadline, metadata) =>
      Create(w, signers, id, Birth(farmer, target, token, deadline, metadata, w.now))
    case On(id, op) =>
      if id !in w.cells then None
      else
        var x := Attempt(w.cells[id], EnvOf(w, signers, id), op);
        if x.None? then None else Commit(w, id, x.value)
    case Deploy(address) =>
      if address in w.registries || address == SELF then None
      else Some(w.(registries := w.registries[address := NewRegistry()]))
    case At(address, c) =>
      if address !in w.registries then None
      else
        var rs := Put(w.registries, address, OnRegistry(w, w.registries[address], signers, c));
        if rs.None? then None else Some(w.(registries := rs.value))
    case Pay(token, from, to, amount) =>
      var moved := Move(w.balances, token, Transfer(from, to, amount));
      if from !in signers || moved.None? then None else Some(w.(balances := moved.value))
    case Issue(token, to, amount) => Some(w.(balances := Credit(w.balances, token, to, amount)))
    case Tick(seconds, ledgers) => Some(w.(now := w.now + seconds, ledger := w.ledger + ledgers))
  }

  datatype Act = Act(signers: Signers, call: Call)

  // A transaction: a panic rolls everything back.
  function Step(w: State, a: Act): State {
    var r := Apply(w, a.signers, a.call);
    if r.None? then w else r.value
  }

  function Run(w: State, acts: seq<Act>): State {
    if acts == [] then w else Step(Run(w, acts[..|acts| - 1]), acts[|acts| - 1])
  }

  // ------------------------------------------------------------ the log

  // The log with the events of one call appended.
  function Stamped(log: seq<LogEntry>, id: nat, ledger: nat, events: seq<Event>): seq<LogEntry> {
    match |events|
    case 1 => log + [LogEntry(|log|, id, ledger, events[0])]
    case 2 => log + [LogEntry(|log|, id, ledger, events[0])] + [LogEntry(|log| + 1, id, ledger, events[1])]
    case _ => log
  }

  lemma AppendStamped(log: seq<LogEntry>, id: nat, ledger: nat, events: seq<Event>)
    requires 1 <= |events| <= 2
    ensures Append(log, id, ledger, events) == Stamped(log, id, ledger, events)
  {
    var one := log + [LogEntry(|log|, id, ledger, events[0])];
    if |events| == 2 {
      assert events[1..][0] == events[1] && events[1..][1..] == [];
      assert Append(one, id, ledger, events[1..]) == one + [LogEntry(|one|, id, ledger, events[1])];
    } else {
      assert events[1..] == [];
    }
  }

  // ------------------------------------------------------------ decomposition into lives

  lemma {:induction false} ProjectEvents(log: seq<LogEntry>, campaign: nat, ledger: nat, events: seq<Event>, id: nat)
    ensures Project(Append(log, campaign, ledger, events), id)
         == Project(log, id) + if id == campaign then events else []
    decreases |events|
  {
    if events != [] {
      var first := LogEntry(|log|, campaign, ledger, events[0]);
      ProjectAppend(log, first, id);
      ProjectEvents(log + [first], campaign, ledger, events[1..], id);
      assert events == [events[0]] + events[1..];
      if id == campaign {
        assert Project(log, id) + [events[0]] + events[1..] == Project(log, id) + events;
      }
    }
  }

  // What one campaign has been through: its stored entries and its events.
  function LifeOf(w: State, id: nat): Life
    requires id in w.cells
  {
    Life(w.cells[id], Project(w.log, id))
  }

  // Campaigns that do not exist have no events.
  ghost predicate Tidy(w: State) {
    forall id: nat :: id !in w.cells ==> Project(w.log, id) == []
  }

  // Only create_campaign and the per-campaign entry points touch entries and log.
  lemma {:induction false} OthersKeepCells(w: State, a: Act)
    requires !a.call.On? && !a.call.CreateCampaign?
    ensures Step(w, a).cells == w.cells && Step(w, a).log == w.log
  {
  }

  lemma CreateOnLives(w: State, signers: Signers, id: nat, b: Birth)
    requires Tidy(w) && Create(w, signers, id, b).Some?
    ensures var w' := Create(w, signers, id, b).value;
            && Tidy(w') && b.Valid() && id !in w.cells && w'.cells == w.cells[id := b.Cell()]
            && Project(w'.log, id) == b.Trace()
            && forall j: nat :: j != id ==> Project(w'.log, j) == Project(w.log, j)
  {
    forall j: nat { ProjectEvents(w.log, id, w.ledger, b.Trace(), j); }
    assert [] + b.Trace() == b.Trace();
  }

  lemma CommitOnLives(w: State, id: nat, x: Effect)
    requires Tidy(w) && id in w.cells && Commit(w, id, x).Some?
    ensures var w' := Commit(w, id, x).value;
            && Tidy(w') && w'.cells == w.cells[id := x.cell]
            && Project(w'.log, id) == Project(w.log, id) + x.events
            && forall j: nat :: j != id ==> Project(w'.log, j) == Project(w.log, j)
  {
    forall j: nat { ProjectEvents(w.log, id, w.ledger, x.events, j); }
  }

  // How a committed call shows up in the life of each campaign: it creates one
  // campaign, or makes one step on one campaign, or touches none.
  lemma StepOnLives(w: State, a: Act, id: nat)
    requires Tidy(w) && Apply(w, a.signers, a.call).Some?
    ensures var w' := Step(w, a);
            && Tidy(w')
            && w.cells.Keys <= w'.cells.Keys
            && (id in w.cells ==>
                  LifeOf(w', id) == if a.call.On? && a.call.id == id
                                    then Advance(LifeOf(w, id), Try(EnvOf(w, a.signers, id), a.call.op))
                                    else LifeOf(w, id))
            && (id in w'.cells && id !in w.cells ==>
                  a.call.CreateCampaign? && a.call.id == id && BirthOf(w, a.call).Valid()
                  && LifeOf(w', id) == Life(BirthOf(w, a.call).Cell(), BirthOf(w, a.call).Trace()))
  {
    if a.call.CreateCampaign? {
      CreateOnLives(w, a.signers, a.call.id, BirthOf(w, a.call));
    } else if a.call.On? {
      var x := Attempt(w.cells[a.call.id], EnvOf(w, a.signers, a.call.id), a.call.op);
      CommitOnLives(w, a.call.id, x.value);
    } else {
      OthersKeepCells(w, a);
    }
  }

  function BirthOf(w: State, call: Call): Birth
    requires call.CreateCampaign?
  {
    Birth(call.farmer, call.target, call.token, call.deadline, call.metadata, w.now)
  }

  lemma {:induction false} NoStrayEvents(acts: seq<Act>)
    ensures Tidy(Run(Genesis(), acts))
  {
    if acts != [] {
      var w := Run(Genesis(), acts[..|acts| - 1]);
      var a := acts[|acts| - 1];
      NoStrayEvents(acts[..|acts| - 1]);
      if Apply(w, a.signers, a.call).Some? {
        StepOnLives(w, a, 0);
      }
    }
  }

  lemma {:induction false} LoggedCampaignsExist(log: seq<LogEntry>, e: LogEntry)
    requires e in log
    ensures Project(log, e.campaign) != []
  {
    var init, last := log[..|log| - 1], log[|log| - 1];
    assert log == init + [last];
    if e in init {
      LoggedCampaignsExist(init, e);
    }
  }

  // Every campaign of every run of the contract is a life in the sense of
  // Campaigns.Lived: no other campaign and no registry, token or clock action
  // interferes with it. Theorems about lives therefore hold of all campaigns.
  lemma {:induction false} Decompose(acts: seq<Act>, id: nat) returns (b: Birth, tries: seq<Try>)
    requires id in Run(Genesis(), acts).cells
    ensures b.Valid() && Lived(b, tries) == LifeOf(Run(Genesis(), acts), id)
    decreases |acts|
  {
    var init := acts[..|acts| - 1];
    var w := Run(Genesis(), init);
    var a := acts[|acts| - 1];
    NoStrayEvents(init);
    if Apply(w, a.signers, a.call).None? {
      b, tries := Decompose(init, id);
    } else {
      StepOnLives(w, a, id);
      if id !in w.cells {
        b, tries := BirthOf(w, a.call), [];
      } else {
        b, tries := Decompose(init, id);
        if a.call.On? && a.call.id == id {
          var t := Try(EnvOf(w, a.signers, id), a.call.op);
          assert (tries + [t])[..|tries|] == tries;
          tries := tries + [t];
        }
      }
    }
  }
}
