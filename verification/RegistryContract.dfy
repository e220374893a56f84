// RegistryContract: registration, linking, status updates and reconciliation over
// its stored entries, and the flat global indexes with their offset/limit reads.

module RegistryContract {
  import opened EscrowTypes
  import opened Campaigns
  import opened Chain
  import opened PagedLogs

  // The part of a list that a read of limit entries from offset returns.
  function Slice<T>(list: seq<T>, offset: nat, limit: nat): seq<T> {
    list[Min(offset, |list|)..Min(offset + limit, |list|)]
  }

  // A flat, append-only index: numbered slots and a count.
  class FlatIndex<T(==)> {
    var count: nat
    var slots: map<nat, T>
    var marked: set<T>
    ghost var order: seq<T>

    ghost predicate Valid()
      reads this
    {
      && count == |order|
      && (forall i :: 0 <= i < count ==> i in slots && slots[i] == order[i])
      && (forall x :: x in marked ==> x in order)
    }

    // Every entry went in through PushOnce.
    ghost predicate AllMarked()
      reads this
    {
      forall x :: x in order ==> x in marked
    }

    constructor ()
      ensures Valid() && AllMarked() && order == []
    {
      count, slots, marked, order := 0, map[], {}, [];
    }

    // index_farmer: the caller has already checked that x is new.
    method Push(x: T)
      requires Valid()
      modifies this
      ensures Valid() && order == old(order) + [x]
    {
      slots := slots[count := x];
      count := count + 1;
      order := order + [x];
    }

    // index_campaign: a second call with the same entry does nothing.
    method PushOnce(x: T)
      requires Valid() && AllMarked()
      modifies this
      ensures Valid() && AllMarked()
      ensures order == if x in old(order) then old(order) else old(order) + [x]
    {
      if x in marked {
        return;
      }
      marked := marked + {x};
      slots := slots[count := x];
      count := count + 1;
      order := order + [x];
    }

    // get_campaigns and get_farmer_addresses.
    method Read(offset: nat, limit: nat) returns (found: seq<T>)
      requires Valid()
      ensures found == Slice(order, offset, limit)
      ensures |found| == Min(limit, if offset <= |order| then |order| - offset else 0)
      ensures forall i :: 0 <= i < |found| ==> found[i] == order[offset + i]
    {
      found := [];
      var index, remaining := offset, limit;
      while 0 < remaining && index < count
        invariant index + remaining == offset + limit && offset <= index
        invariant index <= count || index == offset
        invariant found == order[Min(offset, count)..Min(index, count)]
      {
        if index in slots {
          found := found + [slots[index]];
        }
        index, remaining := index + 1, remaining - 1;
      }
    }
  }

  // ------------------------------------------------------------ paging readers

  // A reader pages through the index, advancing its offset by the number of ids
  // each read returned, while others append.
  datatype Visit = Append(id: nat) | ReadNext(limit: nat)

  datatype Reading = Reading(index: seq<nat>, offset: nat, read: seq<nat>)
  {
    function Next(v: Visit): Reading {
      match v
      case Append(id) => Reading(Indexed(index, id), offset, read)
      case ReadNext(limit) =>
        var page := Slice(index, offset, limit);
        Reading(index, offset + |page|, read + page)
    }
  }

  function ReadAlong(visits: seq<Visit>): Reading {
    if visits == [] then Reading([], 0, [])
    else ReadAlong(visits[..|visits| - 1]).Next(visits[|visits| - 1])
  }

  // Whatever is appended between reads, the reader has read a gap-free and
  // duplicate-free prefix of the index.
  lemma {:induction false} ReaderSeesPrefix(visits: seq<Visit>)
    ensures var r := ReadAlong(visits);
            && Distinct(r.index) && r.offset <= |r.index| && r.read == r.index[..r.offset] && Distinct(r.read)
  {
    if visits != [] {
      var before := ReadAlong(visits[..|visits| - 1]);
      ReaderSeesPrefix(visits[..|visits| - 1]);
      match visits[|visits| - 1] {
        case Append(id) => assert Indexed(before.index, id)[..before.offset] == before.index[..before.offset];
        case ReadNext(limit) =>
          var page := Slice(before.index, before.offset, limit);
          assert before.index[..before.offset] + page == before.index[..before.offset + |page|];
      }
    }
  }

  // ------------------------------------------------------------ the index over whole runs

  ghost predicate WellIndexed(r: Registry) {
    Distinct(r.index) && (forall id :: id in r.index <==> id in r.infos) && r.records.Keys <= r.infos.Keys
  }

  // One call of register, link, update or reconcile, or none of them.
  ghost predicate MovesTo(r: Registry, r': Registry) {
    || (exists signers, id, farmer :: Chain.RegisterCampaign(r, signers, id, farmer) == Some(r'))
    || (exists signers, id, farmer, escrow, crop, region ::
          LinkEscrow(r, signers, id, farmer, escrow, crop, region) == Some(r'))
    || (exists signers, id, caller, status :: UpdateStatus(r, signers, id, caller, status) == Some(r'))
    || (exists id, truth :: Reconcile(r, id, truth).Some? && Reconcile(r, id, truth).value.0 == r')
    || (r'.index == r.index && r'.infos == r.infos && r'.records == r.records)
  }

  // Registering adds the id once; linking and the status calls never add any.
  lemma {:induction false} IndexOnRegistry(r: Registry, r': Registry)
    requires WellIndexed(r)
    requires MovesTo(r, r')
    ensures WellIndexed(r')
    ensures r.index != r'.index ==> exists id :: id !in r.infos && r'.index == r.index + [id]
  {
  }

  lemma {:induction false} CallMoves(w: State, r: Registry, signers: Signers, call: RegistryCall)
    requires OnRegistry(w, r, signers, call).Some?
    ensures MovesTo(r, OnRegistry(w, r, signers, call).value)
  {
    var r' := OnRegistry(w, r, signers, call).value;
    match call {
      case Register(id, farmer) => assert Chain.RegisterCampaign(r, signers, id, farmer) == Some(r');
      case Link(id, farmer, escrow, crop, region) =>
        assert LinkEscrow(r, signers, id, farmer, escrow, crop, region) == Some(r');
      case Update(id, caller, status) => assert UpdateStatus(r, signers, id, caller, status) == Some(r');
      case ReconcileStatus(id, foreign) => assert Reconcile(r, id, Truth(w, r, id, foreign)).value.0 == r';
      case _ =>
    }
  }

  // A run changes a registry only through its own functions.
  lemma {:induction false} RegistryMoves(w: State, a: Act, at: Address)
    requires Apply(w, a.signers, a.call).Some? && at in w.registries
    ensures at in Step(w, a).registries && MovesTo(w.registries[at], Step(w, a).registries[at])
  {
    var r := w.registries[at];
    match a.call {
      case At(address, call) =>
        if address == at {
          CallMoves(w, r, a.signers, call);
        }
      case On(id, op) =>
        var x := Attempt(w.cells[id], EnvOf(w, a.signers, id), op).value;
        if w.registryAt == Some(at) && x.notice.Sync? {
          assert UpdateStatus(r, {SELF}, id, SELF, x.notice.status) == Some(Step(w, a).registries[at]);
        }
      case CreateCampaign(id, farmer, _, _, _, metadata) =>
        if w.registryAt == Some(at) {
          assert LinkEscrow(r, a.signers + {SELF}, id, farmer, SELF, metadata, metadata)
              == Some(Step(w, a).registries[at]);
        }
      case _ =>
    }
  }

  lemma {:induction false} NewRegistryIsEmpty(w: State, a: Act, at: Address)
    requires at !in w.registries && at in Step(w, a).registries
    ensures Step(w, a).registries[at] == NewRegistry()
  {
  }

  // Over every run the global index of every registry lists exactly its registered
  // campaigns, each once, and only registered campaigns are ever linked.
  lemma {:induction false} IndexListsRegistered(acts: seq<Act>, at: Address)
    requires at in Run(Genesis(), acts).registries
    ensures WellIndexed(Run(Genesis(), acts).registries[at])
  {
    var w, a := Run(Genesis(), acts[..|acts| - 1]), acts[|acts| - 1];
    if at !in w.registries {
      NewRegistryIsEmpty(w, a, at);
    } else {
      IndexListsRegistered(acts[..|acts| - 1], at);
      if Apply(w, a.signers, a.call).Some? {
        RegistryMoves(w, a, at);
        IndexOnRegistry(w.registries[at], Step(w, a).registries[at]);
      }
    }
  }

  // ------------------------------------------------------------ the contract

  class Contract {
    var admin: Option<Address>
    var approved: set<Address>
    var infos: map<nat, Address>
    var records: map<nat, Record>
    const index: FlatIndex<nat>
    const farmerPages: PagedLog<Address, nat>

    ghost predicate Valid()
      reads this, index, farmerPages
    {
      index.Valid() && index.AllMarked() && farmerPages.Valid()
    }

    ghost function Snapshot(): Registry
      reads this, index
    {
      Registry(admin, approved, infos, records, index.order)
    }

    // A call completed with the given registry, or panicked and left r0.
    ghost predicate Did(r0: Registry, result: Option<Registry>, ok: bool)
      reads this, index
    {
      ok == result.Some? && Snapshot() == if result.Some? then result.value else r0
    }

    constructor ()
      ensures Valid() && fresh(index) && fresh(farmerPages)
      ensures Snapshot() == NewRegistry() && farmerPages.contents == map[]
    {
      admin, approved, infos, records := None, {}, map[], map[];
      index := new FlatIndex();
      farmerPages := new PagedLog();
    }

    method Initialize(signers: set<Address>, newAdmin: Address) returns (ok: bool)
      requires Valid()
      modifies this
      ensures Valid() && Did(old(Snapshot()), InitializeAdmin(old(Snapshot()), signers, newAdmin), ok)
    {
      if admin.Some? || newAdmin !in signers {
        return false;
      }
      admin := Some(newAdmin);
      return true;
    }

    method UpdateAdmin(signers: set<Address>, newAdmin: Address) returns (ok: bool)
      requires Valid()
      modifies this
      ensures Valid() && Did(old(Snapshot()), HandOver(old(Snapshot()), signers, newAdmin), ok)
    {
      if admin.None? || admin.value !in signers {
        return false;
      }
      admin := Some(newAdmin);
      return true;
    }

    method ApproveContract(signers: set<Address>, contract: Address) returns (ok: bool)
      requires Valid()
      modifies this
      ensures Valid() && Did(old(Snapshot()), SetApproved(old(Snapshot()), signers, contract, true), ok)
    {
      if admin.None? || admin.value !in signers {
        return false;
      }
      approved := approved + {contract};
      return true;
    }

    method RevokeContract(signers: set<Address>, contract: Address) returns (ok: bool)
      requires Valid()
      modifies this
      ensures Valid() && Did(old(Snapshot()), SetApproved(old(Snapshot()), signers, contract, false), ok)
    {
      if admin.None? || admin.value !in signers {
        return false;
      }
      approved := approved - {contract};
      return true;
    }

    method RegisterCampaign(signers: set<Address>, id: nat, farmer: Address) returns (ok: bool)
      requires Valid()
      modifies this, index
      ensures Valid() && Did(old(Snapshot()), Chain.RegisterCampaign(old(Snapshot()), signers, id, farmer), ok)
    {
      if farmer !in signers || id in infos {
        return false;
      }
      infos := infos[id := farmer];
      index.PushOnce(id);
      return true;
    }

    method LinkCampaignEscrow(signers: set<Address>, id: nat, farmer: Address, escrow: Address, crop: Symbol,
                              region: Symbol)
      returns (ok: bool)
      requires Valid()
      modifies this, index, farmerPages
      ensures Valid()
      ensures Did(old(Snapshot()), LinkEscrow(old(Snapshot()), signers, id, farmer, escrow, crop, region), ok)
      ensures farmerPages.contents ==
              if ok then old(farmerPages.contents)[farmer := old(farmerPages.Contents(farmer)) + [id]]
                                      else old(farmerPages.contents)
    {
      if id in records || id !in infos || infos[id] != farmer {
        return false;
      }
      if escrow in approved {
        if escrow !in signers {
          return false;
        }
      } else if farmer !in signers {
        return false;
      }
      records := records[id := Record(farmer, escrow, crop, region, Active)];
      farmerPages.Append(farmer, id);
      index.PushOnce(id);
      return true;
    }

    method UpdateCampaignStatus(signers: set<Address>, id: nat, caller: Address,
                                status: CampaignStatus) returns (ok: bool)
      requires Valid()
      modifies this
      ensures Valid() && Did(old(Snapshot()), UpdateStatus(old(Snapshot()), signers, id, caller, status), ok)
    {
      if id !in records || admin.None? {
        return false;
      }
      var isAdmin := admin.value == caller;
      var isRegisteredEscrow := records[id].escrow == caller;
      if (!isAdmin && !isRegisteredEscrow) || caller !in signers {
        return false;
      }
      records := records[id := records[id].(status := status)];
      return true;
    }

    // truth is what the linked escrow contract reports for the campaign.
    method ReconcileCampaignStatus(id: nat, truth: Option<CampaignStatus>) returns (ok: bool, drifted: bool)
      requires Valid()
      modifies this
      ensures Valid()
      ensures var r := Reconcile(old(Snapshot()), id, truth);
              && ok == r.Some?
              && (ok ==> Snapshot() == r.value.0 && drifted == r.value.1)
              && (!ok ==> Snapshot() == old(Snapshot()))
    {
      if id !in records || truth.None? {
        return false, false;
      }
      if records[id].status == truth.value {
        return true, false;
      }
      records := records[id := records[id].(status := truth.value)];
      return true, true;
    }
  }
}
