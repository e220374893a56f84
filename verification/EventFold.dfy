// EventParserService: folding parsed events into the database, once each, and
// broadcasting what was stored.

module EventFold {
  import opened EscrowTypes
  import opened EventWire

  // The columns of a Campaign row that escrow events write.
  datatype Row = Row(
    farmer: string,
    target: int,
    status: CampaignStatus,
    totalFunded: int,
    trancheCount: Option<int>,
    outcome: Option<string>,
    refundable: int,
    returnable: int)

  datatype Investment = Investment(id: nat, campaign: string, investor: string, amount: int)

  // The user table, the campaign table, the investment table in order of creation,
  // and the transaction table, which is the record of what has been processed.
  datatype Db = Db(
    users: set<string>,
    campaigns: map<string, Row>,
    investments: seq<Investment>,
    transactions: map<nat, ParsedEvent>)

  function EmptyDb(): Db { Db({}, map[], [], map[]) }

  // The address that the transaction row of an event refers to.
  function UserOf(data: Data): Option<string> {
    match data
    case EscrowCreatedData(farmer, _, _) => Some(farmer)
    case InvestedData(investor, _, _) => Some(investor)
    case ReconciledData(investor, _, _) => Some(investor)
    case TrancheReleasedData(recipient, _, _) => Some(recipient)
    case HarvestReportedData(farmer, _, _) => Some(farmer)
    case ReturnClaimedData(investor, _, _) => Some(investor)
    case RefundClaimedData(investor, _, _) => Some(investor)
    case DisputeOpenedData(opener, _, _, _) => Some(opener)
    case SettledData(farmer, _, _, _) => Some(farmer)
    case _ => None
  }

  // Whether the handler first makes that address a user; those of HarvestReported
  // and CampaignSettled do not.
  predicate EnsuresUser(data: Data) {
    UserOf(data).Some? && !data.HarvestReportedData? && !data.SettledData?
  }

  function UsersWith(users: set<string>, data: Data): set<string> {
    if EnsuresUser(data) then users + {UserOf(data).value} else users
  }

  predicate UserKnown(users: set<string>, data: Data) {
    UserOf(data).None? || UserOf(data).value in users
  }

  // What a handler does to the campaign's row; None where it throws, because there
  // is no such campaign.
  function RowStep(row: Option<Row>, data: Data): Option<Row> {
    if row.None? then
      if data.EscrowCreatedData? then Some(Row(data.farmer, data.targetAmount, Active, 0, None, None, 0, 0)) else None
    else
      var r := row.value;
      Some(match data
           case EscrowCreatedData(farmer, _, target) => r.(farmer := farmer, target := target)
           case InvestedData(_, _, amount) => r.(totalFunded := r.totalFunded + amount)
           case ReconciledData(_, _, amount) => r.(totalFunded := r.totalFunded + amount)
           case FundedData(_, total) => r.(status := Funded, totalFunded := total)
           case TranchesConfiguredData(_, count) => r.(trancheCount := Some(count))
           case TrancheReleasedData(_, _, _) => if r.status == Funded then r.(status := InProduction) else r
           case HarvestReportedData(_, outcome, _) => r.(status := Harvested, outcome := Some(outcome))
           case FailedData(_, refundable) => r.(status := Failed, refundable := refundable)
           case ReturnClaimedData(_, _, _) => r
           case RefundClaimedData(_, _, _) => r
           case DisputeOpenedData(_, _, _, _) => r.(status := Disputed)
           case DisputeResolvedData(_, _, _, refund, _, _) =>
             r.(status := Resolved, refundable := r.refundable + refund)
           case SettledData(_, _, _, investors) => r.(status := Settled, returnable := r.returnable + investors))
  }

  // Which handlers write which columns of an existing row; a further creation event
  // rewrites what the first one said.
  lemma {:induction false} HandlerWrites(r: Row, data: Data)
    ensures RowStep(Some(r), data).Some?
    ensures var r' := RowStep(Some(r), data).value;
            && (if data.EscrowCreatedData? then r' == r.(farmer := data.farmer, target := data.targetAmount)
                else r'.farmer == r.farmer && r'.target == r.target)
            && (r'.totalFunded != r.totalFunded ==> data.InvestedData? || data.ReconciledData? || data.FundedData?)
            && (r'.trancheCount != r.trancheCount ==> data.TranchesConfiguredData?)
            && (r'.outcome != r.outcome ==> data.HarvestReportedData?)
            && (r'.refundable != r.refundable ==> data.FailedData? || data.DisputeResolvedData?)
            && (r'.returnable != r.returnable ==> data.SettledData?)
            && (data.ReturnClaimedData? || data.RefundClaimedData? ==> r' == r)
  {
  }

  function RowOf(db: Db, campaign: string): Option<Row> {
    if campaign in db.campaigns then Some(db.campaigns[campaign]) else None
  }

  datatype Written = Written(db: Db, stored: bool)

  // persistEvent in the order of its writes: the user, the campaign's row, and last
  // the transaction row, which fails if the address it refers to is no user. What
  // was written before a failure stays.
  function Persist(db: Db, p: ParsedEvent): Written {
    if p.id in db.transactions then Written(db, false)
    else
      var users := UsersWith(db.users, p.data);
      var row := RowStep(RowOf(db, p.campaign), p.data);
      if row.None? then Written(db.(users := users), false)
      else
        var updated := Db(
          users,
          db.campaigns[p.campaign := row.value],
          if p.data.InvestedData? then db.investments + [Investment(p.id, p.campaign, p.data.investor, p.data.amount)]
          else db.investments,
          db.transactions);
        if UserKnown(users, p.data) then Written(updated.(transactions := db.transactions[p.id := p]), true)
        else Written(updated, false)
  }

  // The service's database and the events it has broadcast, in order.
  datatype Service = Service(db: Db, broadcasts: seq<ParsedEvent>)

  function Absorb(s: Service, p: ParsedEvent): Service {
    var w := Persist(s.db, p);
    Service(w.db, if w.stored then s.broadcasts + [p] else s.broadcasts)
  }

  function Process(s: Service, raw: Raw): Service {
    var p := ParseEvent(raw);
    if p.Parsed? then Absorb(s, p.event) else s
  }

  function ProcessAll(s: Service, raws: seq<Raw>): Service {
    if raws == [] then s else Process(ProcessAll(s, raws[..|raws| - 1]), raws[|raws| - 1])
  }

  // One hand-over to the service: the event, and whether the database is up. While
  // it is down the error is caught and logged, and nothing is written.
  datatype Handoff = Handoff(raw: Raw, answered: bool)

  function Receive(s: Service, h: Handoff): Service {
    if h.answered then Process(s, h.raw) else s
  }

  function ReceiveAll(s: Service, hs: seq<Handoff>): Service {
    if hs == [] then s else Receive(ReceiveAll(s, hs[..|hs| - 1]), hs[|hs| - 1])
  }

  // The events whose hand-over the database answered.
  function Answered(hs: seq<Handoff>): seq<Raw> {
    if hs == [] then []
    else
      var init, last := Answered(hs[..|hs| - 1]), hs[|hs| - 1];
      if last.answered then init + [last.raw] else init
  }

  lemma {:induction false} ReceivesAnswered(s: Service, hs: seq<Handoff>)
    ensures ReceiveAll(s, hs) == ProcessAll(s, Answered(hs))
  {
    if hs != [] {
      ReceivesAnswered(s, hs[..|hs| - 1]);
      var init := Answered(hs[..|hs| - 1]);
      assert (init + [hs[|hs| - 1].raw])[..|init|] == init;
    }
  }

  // Broadcasts and stored transactions correspond one to one.
  ghost predicate Consistent(s: Service) {
    && (forall p :: p in s.broadcasts ==> p.id in s.db.transactions && s.db.transactions[p.id] == p)
    && (forall id :: id in s.db.transactions ==>
         s.db.transactions[id].id == id && s.db.transactions[id] in s.broadcasts)
    && (forall i, j :: 0 <= i < j < |s.broadcasts| ==> s.broadcasts[i].id != s.broadcasts[j].id)
  }

  lemma ConsistentStep(s: Service, p: ParsedEvent)
    requires Consistent(s)
    ensures Consistent(Absorb(s, p))
  {
    var s' := Absorb(s, p);
    if Persist(s.db, p).stored {
      assert s'.broadcasts == s.broadcasts + [p];
      forall id | id in s'.db.transactions
        ensures s'.db.transactions[id].id == id && s'.db.transactions[id] in s'.broadcasts
      {
        if id != p.id { assert s'.db.transactions[id] == s.db.transactions[id]; }
      }
    }
  }

  // Whatever is handed over, in whatever order and however often, and whichever
  // hand-overs the database fails, each stored event is broadcast exactly once and
  // nothing else is broadcast.
  lemma {:induction false} BroadcastOnce(hs: seq<Handoff>)
    ensures Consistent(ReceiveAll(Service(EmptyDb(), []), hs))
  {
    if hs != [] {
      var init, last := hs[..|hs| - 1], hs[|hs| - 1];
      BroadcastOnce(init);
      var p := ParseEvent(last.raw);
      if last.answered && p.Parsed? {
        ConsistentStep(ReceiveAll(Service(EmptyDb(), []), init), p.event);
      }
    }
  }

  // ------------------------------------------------------------ the service

  class EventParserService {
    var db: Db
    var broadcasts: seq<ParsedEvent>

    constructor ()
      ensures State() == Service(EmptyDb(), [])
    {
      db, broadcasts := EmptyDb(), [];
    }

    function State(): Service
      reads this
    {
      Service(db, broadcasts)
    }

    // Broadcasting is only possible for an event that has been stored.
    method EmitCampaignEvent(p: ParsedEvent)
      requires p.id in db.transactions && db.transactions[p.id] == p
      modifies this`broadcasts
      ensures broadcasts == old(broadcasts) + [p]
    {
      broadcasts := broadcasts + [p];
    }

    // answered tells whether the database is up; its errors are caught here.
    method ProcessEvent(raw: Raw, answered: bool)
      modifies this
      ensures State() == Receive(old(State()), Handoff(raw, answered))
    {
      var parsed := ParseEvent(raw);
      if !parsed.Parsed? {
        return;
      }
      var persisted := PersistEvent(parsed.event, answered);
      if persisted {
        EmitCampaignEvent(parsed.event);
      }
    }

    // False where the event is already recorded, a write fails or the database is
    // down; the writes before the one that fails stay.
    method PersistEvent(p: ParsedEvent, answered: bool) returns (persisted: bool)
      modifies this`db
      ensures answered ==> Written(db, persisted) == Persist(old(db), p)
      ensures !answered ==> !persisted && db == old(db)
      ensures persisted ==> p.id in db.transactions && db.transactions[p.id] == p
    {
      if !answered || p.id in db.transactions {
        return false;
      }
      if EnsuresUser(p.data) {
        EnsureUser(UserOf(p.data).value);
      }
      var written := true;
      match p.data {
        case EscrowCreatedData(farmer, _, target) => UpsertCampaign(p.campaign, farmer, target);
        case InvestedData(investor, _, amount) =>
          written := CreateInvestment(Investment(p.id, p.campaign, investor, amount));
          if written {
            written := UpdateCampaign(p.campaign, p.data);
          }
        case _ => written := UpdateCampaign(p.campaign, p.data);
      }
      if written {
        persisted := CreateTransaction(p);
      } else {
        persisted := false;
      }
    }

    method EnsureUser(address: string)
      modifies this`db
      ensures db == old(db).(users := old(db).users + {address})
    {
      db := db.(users := db.users + {address});
    }

    // Refers to its campaign, and to an investor who has just been made a user.
    method CreateInvestment(investment: Investment) returns (written: bool)
      modifies this`db
      ensures written == (investment.campaign in old(db).campaigns)
      ensures db == if written then old(db).(investments := old(db).investments + [investment]) else old(db)
    {
      if investment.campaign !in db.campaigns {
        return false;
      }
      db := db.(investments := db.investments + [investment]);
      return true;
    }

    // Refers to a campaign that exists by now, and possibly to a user.
    method CreateTransaction(p: ParsedEvent) returns (written: bool)
      modifies this`db
      ensures written == UserKnown(old(db).users, p.data)
      ensures db == if written then old(db).(transactions := old(db).transactions[p.id := p]) else old(db)
    {
      if UserOf(p.data).Some? && UserOf(p.data).value !in db.users {
        return false;
      }
      db := db.(transactions := db.transactions[p.id := p]);
      return true;
    }

    method UpsertCampaign(campaign: string, farmer: string, target: int)
      modifies this`db
      ensures db == old(db).(campaigns := old(db).campaigns[
                campaign := RowStep(RowOf(old(db), campaign), EscrowCreatedData(farmer, 0, target)).value])
    {
      var row := if campaign in db.campaigns then db.campaigns[campaign].(farmer := farmer, target := target)
                 else Row(farmer, target, Active, 0, None, None, 0, 0);
      db := db.(campaigns := db.campaigns[campaign := row]);
    }

    method UpdateCampaign(campaign: string, data: Data) returns (written: bool)
      requires !data.EscrowCreatedData?
      modifies this`db
      ensures written == RowStep(RowOf(old(db), campaign), data).Some?
      ensures db == if written then old(db).(campaigns := old(db).campaigns[
                                       campaign := RowStep(RowOf(old(db), campaign), data).value])
                    else old(db)
    {
      if campaign !in db.campaigns {
        return false;
      }
      var row := db.campaigns[campaign];
      match data {
        case InvestedData(_, _, amount) => row := row.(totalFunded := row.totalFunded + amount);
        case ReconciledData(_, _, amount) => row := row.(totalFunded := row.totalFunded + amount);
        case FundedData(_, total) => row := row.(status := Funded, totalFunded := total);
        case TranchesConfiguredData(_, count) => row := row.(trancheCount := Some(count));
        case TrancheReleasedData(_, _, _) =>
          if row.status == Funded {
            row := row.(status := InProduction);
          }
        case HarvestReportedData(_, outcome, _) => row := row.(status := Harvested, outcome := Some(outcome));
        case FailedData(_, refundable) => row := row.(status := Failed, refundable := refundable);
        case ReturnClaimedData(_, _, _) =>
        case RefundClaimedData(_, _, _) =>
        case DisputeOpenedData(_, _, _, _) => row := row.(status := Disputed);
        case DisputeResolvedData(_, _, _, refund, _, _) =>
          row := row.(status := Resolved, refundable := row.refundable + refund);
        case SettledData(_, _, _, investors) =>
          row := row.(status := Settled, returnable := row.returnable + investors);
      }
      db := db.(campaigns := db.campaigns[campaign := row]);
      return true;
    }
  }
}
