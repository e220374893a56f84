// The accounting of a single campaign: what every step keeps, how the stored
// contributions relate to the emitted events, and the bound on its length.

module Accounting {
  import opened EscrowTypes
  import opened Campaigns
  import opened Sums

  // ------------------------------------------------------------ money fields

  ghost predicate NothingSetAside(k: Campaign) { k.refundable == 0 && k.returnable == 0 }

  // The relation between status and money fields in every reachable state.
  ghost predicate Sound(c: Cell) {
    var k := c.campaign;
    && 0 < k.target <= I64_MAX
    && 0 <= k.totalFunded <= k.target
    && 0 <= k.released && 0 <= k.refundable && 0 <= k.returnable && 0 <= c.Held()
    && (k.status.Active? ==> k.totalFunded == 0 && k.released == 0 && NothingSetAside(k))
    && (k.status.Funding? ==> 0 < k.totalFunded && k.released == 0 && NothingSetAside(k))
    && (k.status.Funded? ==> k.totalFunded == k.target && k.released == 0 && NothingSetAside(k))
    && (k.status.InProduction? ==> k.totalFunded == k.target && 0 < k.released && NothingSetAside(k))
    && (k.status.Harvested? ==> k.totalFunded == k.target && NothingSetAside(k))
    && (k.status.Disputed? ==> NothingSetAside(k))
    && (Refunding(k.status) ==> k.returnable == 0 && c.Held() == 0)
    && (k.status.Settled? ==> k.totalFunded == k.target && k.refundable == 0 && c.Held() == 0)
    && (forall a :: a in c.slots ==> 0 <= c.slots[a])
    && (c.dispute.Some? && c.dispute.value.status.Open? <==> k.status.Disputed?)
    && (c.dispute.Some? && c.dispute.value.status.Closed? <==> k.status.Resolved?)
  }

  lemma RecordSound(c: Cell, e: Env, investor: Address, amount: int)
    requires Sound(c) && Record(c, e, investor, amount).Some?
    ensures Sound(Record(c, e, investor, amount).value)
  {
  }

  lemma FixedFields(c: Cell, e: Env, op: Op)
    requires Attempt(c, e, op).Some?
    ensures var k, k' := c.campaign, Attempt(c, e, op).value.cell.campaign;
            k'.target == k.target && k'.token == k.token && k'.farmer == k.farmer && k'.deadline == k.deadline
  {
  }

  lemma {:induction false} SoundEarly(c: Cell, e: Env, op: Op)
    requires op.Fund? || op.Receive? || op.Complete? || op.Configure? || op.Release? || op.Harvest? || op.Dispute?
    requires Sound(c) && Attempt(c, e, op).Some?
    ensures Sound(Attempt(c, e, op).value.cell)
  {
    match op {
      case Fund(investor, amount) => RecordSound(c, e, investor, amount);
      case Receive(investor, amount) => RecordSound(c, e, investor, amount);
      case _ =>
    }
  }

  lemma {:induction false} SoundLate(c: Cell, e: Env, op: Op)
    requires op.Resolve? || op.ClaimRefund? || op.Settle? || op.MarkFailed? || op.Expire? || op.ClaimReturn?
    requires Sound(c) && Attempt(c, e, op).Some?
    ensures Sound(Attempt(c, e, op).value.cell)
  {
  }

  // Every step keeps the accounting invariant.
  lemma SoundStep(c: Cell, e: Env, op: Op)
    requires Sound(c) && Attempt(c, e, op).Some?
    ensures Sound(Attempt(c, e, op).value.cell)
  {
    if op.Fund? || op.Receive? || op.Complete? || op.Configure? || op.Release? || op.Harvest? || op.Dispute? {
      SoundEarly(c, e, op);
    } else {
      SoundLate(c, e, op);
    }
  }

  // ------------------------------------------------------------ events and slots

  function Added(m: map<Address, int>, a: Address, amount: int): map<Address, int> {
    m[a := (if a in m then m[a] else 0) + amount]
  }

  // What each investor put in, according to the events.
  function Deposits(t: seq<Event>): map<Address, int> {
    if t == [] then map[]
    else
      var before := Deposits(t[..|t| - 1]);
      match t[|t| - 1]
      case ContribReceived(a, _, amount) => Added(before, a, amount)
      case ContribReconciled(a, _, amount) => Added(before, a, amount)
      case _ => before
  }

  // What each investor was paid by claims, according to the events.
  function Paid(t: seq<Event>): map<Address, int> {
    if t == [] then map[]
    else
      var before := Paid(t[..|t| - 1]);
      match t[|t| - 1]
      case RefundClaimed(a, _, amount) => Added(before, a, amount)
      case ReturnClaimed(a, _, amount) => Added(before, a, amount)
      case _ => before
  }

  // The pool that claims draw on.
  function Pool(k: Campaign): int {
    if Refunding(k.status) then k.refundable else if k.status.Settled? then k.returnable else 0
  }

  // The slots are the deposits, zeroed for those who claimed, and each claimant
  // was paid exactly one share of the pool.
  ghost predicate Booked(l: Life) {
    var k, deposits, paid := l.cell.campaign, Deposits(l.trace), Paid(l.trace);
    && Sum(deposits) == k.totalFunded
    && (forall a :: a in deposits ==> 0 < deposits[a])
    && paid.Keys <= deposits.Keys
    && (paid != map[] ==> Claimable(k.status))
    && l.cell.slots.Keys == deposits.Keys
    && (forall a :: a in deposits ==> l.cell.slots[a] == if a in paid then 0 else deposits[a])
    && (k.totalFunded != 0 ==>
          forall a :: a in paid ==> 0 < paid[a] == deposits[a] * Pool(k) / k.totalFunded)
  }

  lemma OneEvent(t: seq<Event>, e: Event)
    ensures (t + [e])[..|t|] == t && (t + [e])[|t|] == e
  {
  }

  // Events that carry neither a deposit nor a claim.
  predicate Neutral(e: Event) {
    !(e.ContribReceived? || e.ContribReconciled? || e.RefundClaimed? || e.ReturnClaimed?)
  }

  lemma NeutralEvent(t: seq<Event>, e: Event)
    requires Neutral(e)
    ensures Deposits(t + [e]) == Deposits(t) && Paid(t + [e]) == Paid(t)
  {
  }

  lemma DepositEvent(t: seq<Event>, e: Event, a: Address, amount: int)
    requires (e.ContribReceived? || e.ContribReconciled?) && e.investor == a && e.amount == amount
    ensures Deposits(t + [e]) == Added(Deposits(t), a, amount) && Paid(t + [e]) == Paid(t)
    ensures Sum(Deposits(t + [e])) == Sum(Deposits(t)) + amount
  {
    OneEvent(t, e);
    SumUpdate(Deposits(t), a, Deposits(t + [e])[a]);
  }

  lemma ClaimEvent(t: seq<Event>, e: Event, a: Address, amount: int)
    requires (e.RefundClaimed? || e.ReturnClaimed?) && e.investor == a && e.amount == amount
    ensures Deposits(t + [e]) == Deposits(t) && Paid(t + [e]) == Added(Paid(t), a, amount)
  {
  }

  lemma NoDeposits(t: seq<Event>)
    requires Sum(Deposits(t)) == 0 && forall a :: a in Deposits(t) ==> 0 < Deposits(t)[a]
    ensures Deposits(t) == map[]
  {
    if Deposits(t) != map[] {
      var a :| a in Deposits(t);
      SumRemove(Deposits(t), a);
      SumNonNegative(Deposits(t) - {a});
    }
  }

  lemma {:induction false} BookedDeposit(l: Life, e: Env, investor: Address, amount: int, received: bool, funded: bool)
    requires Sound(l.cell) && Booked(l) && Record(l.cell, e, investor, amount).Some?
    ensures var c := Record(l.cell, e, investor, amount).value;
            var ev := if received then ContribReceived(investor, e.now, amount)
                      else ContribReconciled(investor, e.now, amount);
            var t := if funded then l.trace + [CampaignFunded(e.now, c.campaign.totalFunded)] else l.trace;
            && Booked(Life(c, t + [ev]))
  {
    var c := Record(l.cell, e, investor, amount).value;
    var ev := if received then ContribReceived(investor, e.now, amount) else ContribReconciled(investor, e.now, amount);
    var t := l.trace;
    if funded {
      NeutralEvent(t, CampaignFunded(e.now, c.campaign.totalFunded));
      t := t + [CampaignFunded(e.now, c.campaign.totalFunded)];
    }
    DepositEvent(t, ev, investor, amount);
    BookedRecord(l, e, investor, amount, t + [ev]);
  }

  // A recorded contribution, once the events report it.
  lemma {:induction false} BookedRecord(l: Life, e: Env, investor: Address, amount: int, t: seq<Event>)
    requires Sound(l.cell) && Booked(l) && Record(l.cell, e, investor, amount).Some?
    requires Deposits(t) == Added(Deposits(l.trace), investor, amount) && Paid(t) == Paid(l.trace)
    requires Sum(Deposits(t)) == Sum(Deposits(l.trace)) + amount
    ensures Booked(Life(Record(l.cell, e, investor, amount).value, t))
  {
    assert Paid(l.trace) == map[];
  }

  lemma {:induction false} BookedClaim(l: Life, e: Env, investor: Address, ev: Event)
    requires Sound(l.cell) && Booked(l) && Claimable(l.cell.campaign.status)
    requires ClaimShare(l.cell, e, investor, Pool(l.cell.campaign)).Some?
    requires ev.RefundClaimed? || ev.ReturnClaimed?
    requires ev.investor == investor && ev.amount == ClaimShare(l.cell, e, investor, Pool(l.cell.campaign)).value
    ensures Booked(Life(l.cell.(slots := l.cell.slots[investor := 0]), l.trace + [ev]))
    ensures investor !in Paid(l.trace)
  {
    ClaimEvent(l.trace, ev, investor, ev.amount);
    assert l.cell.slots[investor] == Deposits(l.trace)[investor];
  }

  // Every other step leaves slots and total alone, and starts before any claim.
  lemma BookedNeutral(l: Life, c: Cell, ev: Event)
    requires Booked(l) && !Claimable(l.cell.campaign.status) && Neutral(ev)
    requires c.slots == l.cell.slots && c.campaign.totalFunded == l.cell.campaign.totalFunded
    ensures Booked(Life(c, l.trace + [ev]))
  {
  }

  predicate Moving(op: Op) { op.Fund? || op.Receive? || op.ClaimRefund? || op.ClaimReturn? }

  lemma NeutralStep(c: Cell, e: Env, op: Op)
    requires !Moving(op) && Attempt(c, e, op).Some?
    ensures var x := Attempt(c, e, op).value;
            && !Claimable(c.campaign.status) && |x.events| == 1 && Neutral(x.events[0])
            && x.cell.slots == c.slots && x.cell.campaign.totalFunded == c.campaign.totalFunded
  {
  }

  lemma {:induction false} BookedFund(l: Life, e: Env, investor: Address, amount: int)
    requires Sound(l.cell) && Booked(l) && FundStep(l.cell, e, investor, amount).Some?
    ensures Booked(Advance(l, Try(e, Fund(investor, amount))))
  {
    var k := Record(l.cell, e, investor, amount).value.campaign;
    BookedDeposit(l, e, investor, amount, true, k.target <= k.totalFunded);
    if k.target <= k.totalFunded {
      assert l.trace + [CampaignFunded(e.now, k.totalFunded), ContribReceived(investor, e.now, amount)]
          == l.trace + [CampaignFunded(e.now, k.totalFunded)] + [ContribReceived(investor, e.now, amount)];
      assert Pool(k) == Pool(k.(status := Funded));
    }
  }

  lemma BookedOther(l: Life, e: Env, op: Op)
    requires Booked(l) && !Moving(op) && Attempt(l.cell, e, op).Some?
    ensures Booked(Advance(l, Try(e, op)))
  {
    NeutralStep(l.cell, e, op);
    var x := Attempt(l.cell, e, op).value;
    BookedNeutral(l, x.cell, x.events[0]);
    assert x.events == [x.events[0]];
  }

  lemma {:induction false} BookedStep(l: Life, e: Env, op: Op)
    requires Sound(l.cell) && Booked(l) && Attempt(l.cell, e, op).Some?
    ensures Booked(Advance(l, Try(e, op)))
  {
    if !Moving(op) {
      BookedOther(l, e, op);
    } else {
      match op {
        case Fund(investor, amount) => BookedFund(l, e, investor, amount);
        case Receive(investor, amount) => BookedDeposit(l, e, investor, amount, false, false);
        case ClaimRefund(investor) => BookedClaim(l, e, investor, ClaimRefundStep(l.cell, e, investor).value.events[0]);
        case ClaimReturn(investor) => BookedClaim(l, e, investor, ClaimReturnStep(l.cell, e, investor).value.events[0]);
      }
    }
  }
}
