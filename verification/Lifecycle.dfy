// Theorems about one campaign over its whole life, from creation through any
// list of attempted steps.

module Lifecycle {
  import opened EscrowTypes
  import opened Campaigns
  import opened Accounting
  import opened Sums

  // Every reachable campaign satisfies the accounting and bookkeeping invariants.
  lemma {:induction false} LivedSound(b: Birth, tries: seq<Try>)
    requires b.Valid()
    ensures Sound(Lived(b, tries).cell) && Booked(Lived(b, tries))
    ensures Lived(b, tries).cell.campaign.target == b.target && Lived(b, tries).cell.campaign.token == b.token
  {
    if tries == [] {
      assert b.Trace()[..0] == [];
    } else {
      var before := Lived(b, tries[..|tries| - 1]);
      var t := tries[|tries| - 1];
      LivedSound(b, tries[..|tries| - 1]);
      if Attempt(before.cell, t.env, t.op).Some? {
        SoundStep(before.cell, t.env, t.op);
        FixedFields(before.cell, t.env, t.op);
        BookedStep(before, t.env, t.op);
      }
    }
  }

  // ------------------------------------------------------------ length of a life

  function Contributors(c: Cell): set<Address> {
    set a | a in c.slots && 0 < c.slots[a]
  }

  // An upper bound on the steps a campaign can still take.
  function Potential(c: Cell): int {
    var k := c.campaign;
    |Contributors(c)| +
    match k.status
    case Active => 2 * (k.target - k.totalFunded) + k.target + 6
    case Funding => 2 * (k.target - k.totalFunded) + k.target + 6
    case Funded => c.Held() + 5
    case InProduction => c.Held() + 4
    case Harvested => 3
    case Disputed => 2
    case _ => 0
  }

  lemma RecordContributors(c: Cell, e: Env, investor: Address, amount: int)
    requires Record(c, e, investor, amount).Some?
    ensures |Contributors(Record(c, e, investor, amount).value)| <= |Contributors(c)| + 1
  {
    var after := Contributors(Record(c, e, investor, amount).value);
    assert after <= Contributors(c) + {investor};
    CardinalityMono(after, Contributors(c) + {investor});
  }

  lemma {:induction false} CardinalityMono<T>(a: set<T>, b: set<T>)
    requires a <= b
    ensures |a| <= |b|
  {
    assert b == a + (b - a);
  }

  lemma ClaimContributors(c: Cell, investor: Address)
    requires 0 < c.Slot(investor)
    ensures |Contributors(c.(slots := c.slots[investor := 0]))| == |Contributors(c)| - 1
  {
    assert Contributors(c.(slots := c.slots[investor := 0])) == Contributors(c) - {investor};
  }

  // Every step but configure_tranches uses up some of the bound; that one keeps it.
  lemma {:induction false} PotentialStep(c: Cell, e: Env, op: Op)
    requires Sound(c) && Attempt(c, e, op).Some?
    ensures var after := Potential(Attempt(c, e, op).value.cell);
            0 <= after && if op.Configure? then after == Potential(c) else after < Potential(c)
  {
    match op {
      case Fund(investor, amount) =>
        RecordContributors(c, e, investor, amount);
        SameContributors(Record(c, e, investor, amount).value, Attempt(c, e, op).value.cell);
      case Receive(investor, amount) => RecordContributors(c, e, investor, amount);
      case ClaimRefund(investor) => ClaimContributors(c, investor);
      case ClaimReturn(investor) => ClaimContributors(c, investor);
      case _ => SameContributors(c, Attempt(c, e, op).value.cell);
    }
  }

  lemma {:induction false} SameContributors(c: Cell, c': Cell)
    requires c'.slots == c.slots
    ensures Contributors(c') == Contributors(c)
  {
  }

  // The number of successful steps other than configure_tranches.
  function Taken(b: Birth, tries: seq<Try>): nat {
    if tries == [] then 0
    else
      var t := tries[|tries| - 1];
      Taken(b, tries[..|tries| - 1]) +
      if Attempt(Lived(b, tries[..|tries| - 1]).cell, t.env, t.op).Some? && !t.op.Configure? then 1 else 0
  }

  // A campaign takes at most 3 * target + 6 such steps in its whole life.
  lemma {:induction false} LifeIsBounded(b: Birth, tries: seq<Try>)
    requires b.Valid()
    ensures Taken(b, tries) + Potential(Lived(b, tries).cell) <= 3 * b.target + 6
    ensures 0 <= Potential(Lived(b, tries).cell)
  {
    if tries == [] {
      assert Contributors(b.Cell()) == {};
    } else {
      var before := Lived(b, tries[..|tries| - 1]);
      var t := tries[|tries| - 1];
      LifeIsBounded(b, tries[..|tries| - 1]);
      LivedSound(b, tries[..|tries| - 1]);
      if Attempt(before.cell, t.env, t.op).Some? {
        PotentialStep(before.cell, t.env, t.op);
      }
    }
  }

  function Disputes(t: seq<Event>): nat {
    if t == [] then 0 else Disputes(t[..|t| - 1]) + if t[|t| - 1].DisputeOpened? then 1 else 0
  }

  // At most one dispute is ever opened; the record is there exactly if one was,
  // and it is open exactly while the campaign is Disputed.
  lemma {:induction false} OneDispute(b: Birth, tries: seq<Try>)
    requires b.Valid()
    ensures var l := Lived(b, tries);
            && Disputes(l.trace) == (if l.cell.dispute.Some? then 1 else 0)
            && (l.cell.dispute.Some? && l.cell.dispute.value.status.Open? <==> l.cell.campaign.status.Disputed?)
  {
    LivedSound(b, tries);
    if tries == [] {
      assert b.Trace()[..0] == [];
    } else {
      var l := Lived(b, tries[..|tries| - 1]);
      var t := tries[|tries| - 1];
      OneDispute(b, tries[..|tries| - 1]);
      LivedSound(b, tries[..|tries| - 1]);
      if Attempt(l.cell, t.env, t.op).Some? {
        DisputeStepCount(l, t.env, t.op);
      }
    }
  }

  // A step emits one event, or CampaignFunded followed by the contribution that
  // completed the funding; DisputeOpened comes from open_dispute alone.
  lemma StepEvents(c: Cell, e: Env, op: Op)
    requires Attempt(c, e, op).Some?
    ensures var ev := Attempt(c, e, op).value.events;
            && (|ev| == 1 || (|ev| == 2 && op.Fund? && ev[0].CampaignFunded? && ev[1].ContribReceived?))
            && (ev[0].DisputeOpened? <==> op.Dispute?)
  {
  }

  lemma StepDispute(c: Cell, e: Env, op: Op)
    requires Sound(c) && Attempt(c, e, op).Some?
    ensures Attempt(c, e, op).value.cell.dispute.Some? <==> c.dispute.Some? || op.Dispute?
    ensures op.Dispute? ==> c.dispute.None?
  {
  }

  lemma DisputeStepCount(l: Life, e: Env, op: Op)
    requires Sound(l.cell) && Attempt(l.cell, e, op).Some?
    requires Disputes(l.trace) == if l.cell.dispute.Some? then 1 else 0
    ensures var l' := Advance(l, Try(e, op));
            Disputes(l'.trace) == if l'.cell.dispute.Some? then 1 else 0
  {
    StepEvents(l.cell, e, op);
    StepDispute(l.cell, e, op);
    TraceDisputes(l.trace, Attempt(l.cell, e, op).value.events);
  }

  lemma TraceDisputes(t: seq<Event>, ev: seq<Event>)
    requires |ev| == 1 || (|ev| == 2 && !ev[1].DisputeOpened?)
    ensures Disputes(t + ev) ==
              Disputes(t) + if ev[0].DisputeOpened? || (|ev| == 2 && ev[1].DisputeOpened?) then 1 else 0
  {
    OneEvent(t, ev[0]);
    if |ev| == 2 {
      OneEvent(t + [ev[0]], ev[1]);
      assert t + ev == t + [ev[0]] + [ev[1]];
    } else {
      assert ev == [ev[0]];
    }
  }

  // ------------------------------------------------------------ contribution ledger

  // While nothing is claimable the slots sum to total_funded; afterwards the
  // slots and the deposits of those who claimed do.
  lemma SlotsAccountForTotal(l: Life)
    requires Booked(l)
    ensures Sum(l.cell.slots) + Sum(map a | a in Deposits(l.trace) && a in Paid(l.trace) :: Deposits(l.trace)[a])
         == l.cell.campaign.totalFunded
    ensures !Claimable(l.cell.campaign.status) ==> Sum(l.cell.slots) == l.cell.campaign.totalFunded
  {
    var d, p := Deposits(l.trace), Paid(l.trace);
    SumSplit(d, p.Keys);
    SumIgnoresZeros(d - p.Keys, l.cell.slots);
    if p == map[] {
      assert l.cell.slots == d;
    }
  }

  // A claim never divides by zero, and its product fits an i128.
  lemma ClaimArithmeticFits(l: Life, a: Address)
    requires Sound(l.cell) && Booked(l) && 0 < l.cell.Slot(a)
    ensures 0 < l.cell.Slot(a) <= l.cell.campaign.totalFunded
    ensures 0 <= Pool(l.cell.campaign) <= l.cell.campaign.totalFunded
    ensures 0 <= l.cell.Slot(a) * Pool(l.cell.campaign) <= I64_MAX * I64_MAX <= I128_MAX
  {
    PartOfSum(Deposits(l.trace), a);
    var s, p := l.cell.Slot(a), Pool(l.cell.campaign);
    MulMono(s, p, I64_MAX);
    MulMono(I64_MAX, s, I64_MAX);
    assert s * I64_MAX == I64_MAX * s;
  }

  // ------------------------------------------------------------ the last events

  function Reaped(t: seq<Event>): bool {
    t != [] && (t[|t| - 1].HarvestReported? || Reaped(t[..|t| - 1]))
  }

  function Concluded(t: seq<Event>): bool {
    t != [] && (t[|t| - 1].CampaignSettled? || Concluded(t[..|t| - 1]))
  }

  predicate IsClaim(e: Event) {
    e.ReturnClaimed? || e.RefundClaimed?
  }

  // What can come next: the creation first, only the settlement and claims after
  // the harvest report, and only claims after the settlement.
  predicate Follows(t: seq<Event>, e: Event) {
    && (t == [] ==> e.CampaignCreated?)
    && (Reaped(t) ==> e.CampaignSettled? || IsClaim(e))
    && (Concluded(t) ==> IsClaim(e))
    && (e.CampaignSettled? ==> 0 <= e.investorReturns)
  }

  predicate AllFollow(t: seq<Event>, ev: seq<Event>)
    decreases |ev|
  {
    ev == [] || (Follows(t, ev[0]) && AllFollow(t + [ev[0]], ev[1..]))
  }

  // The status tells which of the two events there have been.
  ghost predicate PhaseTells(l: Life) {
    && (Concluded(l.trace) <==> l.cell.campaign.status.Settled?)
    && (Reaped(l.trace) <==> l.cell.campaign.status.Harvested? || l.cell.campaign.status.Settled?)
  }

  lemma PhaseSnoc(t: seq<Event>, e: Event)
    ensures Reaped(t + [e]) == (Reaped(t) || e.HarvestReported?)
    ensures Concluded(t + [e]) == (Concluded(t) || e.CampaignSettled?)
  {
  }

  lemma {:induction false} PhaseStep(c: Cell, e: Env, op: Op)
    requires Sound(c) && Attempt(c, e, op).Some?
    ensures var x := Attempt(c, e, op).value;
            var from, to, last := c.campaign.status, x.cell.campaign.status, x.events[|x.events| - 1];
            && (last.HarvestReported? <==> to.Harvested?)
            && (last.HarvestReported? ==> !from.Harvested? && !from.Settled?)
            && (last.CampaignSettled? ==> from.Harvested? && to.Settled? && 0 <= last.investorReturns)
            && (from.Harvested? ==> last.CampaignSettled?)
            && (from.Settled? ==> to.Settled? && IsClaim(last))
            && (to.Settled? ==> from.Settled? || last.CampaignSettled?)
  {
  }

  lemma {:induction false} LivedPhases(b: Birth, tries: seq<Try>)
    requires b.Valid()
    ensures PhaseTells(Lived(b, tries))
  {
    if tries == [] {
      assert b.Trace()[..0] == [];
    } else {
      var l := Lived(b, tries[..|tries| - 1]);
      var t := tries[|tries| - 1];
      LivedPhases(b, tries[..|tries| - 1]);
      LivedSound(b, tries[..|tries| - 1]);
      if Attempt(l.cell, t.env, t.op).Some? {
        PhaseKept(l, t.env, t.op);
      }
    }
  }

  lemma {:induction false} PhaseKept(l: Life, e: Env, op: Op)
    requires Sound(l.cell) && PhaseTells(l) && Attempt(l.cell, e, op).Some?
    ensures PhaseTells(Advance(l, Try(e, op)))
  {
    var ev := Attempt(l.cell, e, op).value.events;
    StepEvents(l.cell, e, op);
    PhaseStep(l.cell, e, op);
    PhaseSnoc(l.trace, ev[0]);
    if |ev| == 2 {
      PhaseSnoc(l.trace + [ev[0]], ev[1]);
      assert l.trace + ev == l.trace + [ev[0]] + [ev[1]];
    } else {
      assert ev == [ev[0]];
    }
  }

  // So the events of every step are ones that can come next.
  lemma {:induction false} StepFollows(l: Life, e: Env, op: Op)
    requires Sound(l.cell) && PhaseTells(l) && l.trace != [] && Attempt(l.cell, e, op).Some?
    ensures AllFollow(l.trace, Attempt(l.cell, e, op).value.events)
  {
    var ev := Attempt(l.cell, e, op).value.events;
    StepEvents(l.cell, e, op);
    PhaseStep(l.cell, e, op);
    if |ev| == 2 {
      PhaseSnoc(l.trace, ev[0]);
      assert ev[1..][1..] == [];
      assert Follows(l.trace, ev[0]) && Follows(l.trace + [ev[0]], ev[1]);
    } else {
      assert ev[1..] == [];
    }
  }

  // ------------------------------------------------------------ claims

  // Whatever subset of investors has claimed, each got exactly one share of the
  // pool, and together they got no more than the pool. Once everyone with a
  // positive share has claimed, less than one unit per contributor is left.
  lemma ClaimsWithinPool(l: Life)
    requires Sound(l.cell) && Booked(l) && 0 < l.cell.campaign.totalFunded
    ensures var k, d, p := l.cell.campaign, Deposits(l.trace), Paid(l.trace);
            var shares := Shares(d, Pool(k), k.totalFunded);
            && p.Keys <= d.Keys
            && (forall a :: a in p ==> p[a] == shares[a])
            && Sum(p) <= Pool(k)
            && ((forall a :: a in d && 0 < shares[a] ==> a in p) ==> Pool(k) - Sum(p) < |d|)
  {
    var k, d, p := l.cell.campaign, Deposits(l.trace), Paid(l.trace);
    var shares := Shares(d, Pool(k), k.totalFunded);
    SharesOfWhole(d, Pool(k), k.totalFunded);
    forall a | a in shares ensures 0 <= shares[a] {
      ShareNonNegative(d[a], Pool(k), k.totalFunded);
    }
    SumSubmap(p, shares);
    if forall a :: a in d && 0 < shares[a] ==> a in p {
      SumIgnoresZeros(p, shares);
    }
  }

  lemma ShareNonNegative(part: int, pool: int, total: int)
    requires 0 <= part && 0 <= pool && 0 < total
    ensures 0 <= part * pool / total
  {
  }
}
