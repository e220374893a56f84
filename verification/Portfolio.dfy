// InvestorsService.portfolio: the claimable estimate of each investment, against
// what the contract would pay.

module Portfolio {
  import opened EscrowTypes
  import opened Campaigns
  import opened Accounting
  import opened Lifecycle
  import opened Chain
  import opened Solvency
  import opened Sums
  import opened EventWire
  import opened EventFold
  import opened DbMirror
  import opened LogFold
  import Replay

  // ------------------------------------------------------------ the service

  // The pool that a row's status makes claimable.
  function RowPool(r: Row): int {
    if r.status.Resolved? || r.status.Failed? then r.refundable else if r.status.Settled? then r.returnable else 0
  }

  // BigInt division truncates.
  function Estimate(amount: int, r: Row): int {
    if 0 < r.totalFunded && 0 < RowPool(r) then TruncDiv(amount * RowPool(r), r.totalFunded) else 0
  }

  datatype Position = Position(investment: nat, campaign: string, status: CampaignStatus, amount: int, claimable: int)

  datatype Summary = Summary(positions: seq<Position>, totalInvested: int, totalClaimable: int)

  // Every investment row refers to a campaign row.
  ghost predicate Linked(db: Db) {
    forall inv :: inv in db.investments ==> inv.campaign in db.campaigns
  }

  // The investor's positions, latest first.
  function PositionsOf(db: Db, investments: seq<Investment>, investor: string): seq<Position>
    requires forall inv :: inv in investments ==> inv.campaign in db.campaigns
  {
    if investments == [] then []
    else
      var last := investments[|investments| - 1];
      var row := db.campaigns[last.campaign];
      (if last.investor == investor
       then [Position(last.id, last.campaign, row.status, last.amount, Estimate(last.amount, row))] else [])
      + PositionsOf(db, investments[..|investments| - 1], investor)
  }

  function AmountSum(positions: seq<Position>): int {
    if positions == [] then 0 else positions[0].amount + AmountSum(positions[1..])
  }

  function ClaimableSum(positions: seq<Position>): int {
    if positions == [] then 0 else positions[0].claimable + ClaimableSum(positions[1..])
  }

  function PortfolioOf(db: Db, investor: string): Summary
    requires Linked(db)
  {
    var positions := PositionsOf(db, db.investments, investor);
    Summary(positions, AmountSum(positions), ClaimableSum(positions))
  }

  // ------------------------------------------------------------ floors

  function FloorSum(xs: seq<int>, pool: int, total: int): int
    requires 0 < total
  {
    if xs == [] then 0 else FloorSum(xs[..|xs| - 1], pool, total) + xs[|xs| - 1] * pool / total
  }

  lemma {:induction false} FloorSumScaled(xs: seq<int>, pool: int, total: int)
    requires 0 < total
    ensures Scaled(total, pool, SumOf(xs), FloorSum(xs, pool, total), |xs|)
  {
    if xs != [] {
      var init, last := xs[..|xs| - 1], xs[|xs| - 1];
      FloorSumScaled(init, pool, total);
      ScaledStep(total, pool, last, SumOf(init), FloorSum(init, pool, total), |init|);
    }
  }

  // Rounding down once per deposit gives at most what rounding down once gives,
  // and less by fewer units than there are deposits.
  lemma FloorsWithinShare(xs: seq<int>, pool: int, total: int)
    requires 0 < total && xs != []
    ensures FloorSum(xs, pool, total) <= SumOf(xs) * pool / total < FloorSum(xs, pool, total) + |xs|
  {
    FloorSumScaled(xs, pool, total);
    ScaledQuotient(total, SumOf(xs) * pool, FloorSum(xs, pool, total), |xs|);
  }

  lemma ScaledQuotient(total: int, x: int, shares: int, count: nat)
    requires 0 < total && 0 < count && total * shares <= x <= total * shares + count * (total - 1)
    ensures shares <= x / total < shares + count
  {
    var q := x / total;
    assert total * q <= x < total * q + total;
    if q < shares { MulMono(total, q + 1, shares); }
    if shares + count <= q { MulMono(total, shares + count, q); }
    assert count * (total - 1) == total * count - count;
  }

  // A larger divisor gives smaller floors.
  lemma {:induction false} FloorSumAntitone(xs: seq<int>, pool: int, total: int, larger: int)
    requires 0 < total <= larger && 0 <= pool && forall x :: x in xs ==> 0 <= x
    ensures 0 <= FloorSum(xs, pool, larger) <= FloorSum(xs, pool, total)
  {
    if xs != [] {
      var init, last := xs[..|xs| - 1], xs[|xs| - 1];
      assert xs == init + [last];
      assert forall x :: x in init ==> x in xs;
      FloorSumAntitone(init, pool, total, larger);
      assert last in xs;
      ShareNonNegative(last, pool, larger);
      QuotientAntitone(last * pool, total, larger);
    }
  }

  lemma QuotientAntitone(x: int, total: int, larger: int)
    requires 0 <= x && 0 < total <= larger
    ensures x / larger <= x / total
  {
    var p, q := x / total, x / larger;
    assert total * p <= x < total * p + total;
    assert larger * q <= x;
    assert 0 <= q;
    assert total * q <= larger * q by { MulMono(q, total, larger); }
    if p < q { MulMono(total, p + 1, q); }
  }

  // ------------------------------------------------------------ one campaign

  // The deposits that one investor made by fund_campaign, and what was reconciled
  // in the investor's name.
  function Received(t: seq<Event>, a: Address): seq<int> {
    if t == [] then []
    else
      var last := t[|t| - 1];
      Received(t[..|t| - 1], a) + if last.ContribReceived? && last.investor == a then [last.amount] else []
  }

  function Reconciled(t: seq<Event>, a: Address): int {
    if t == [] then 0
    else
      var last := t[|t| - 1];
      Reconciled(t[..|t| - 1], a) + if last.ContribReconciled? && last.investor == a then last.amount else 0
  }

  ghost predicate NonNegative(xs: seq<int>) {
    forall i :: 0 <= i < |xs| ==> 0 <= xs[i]
  }

  lemma ReceivedSnoc(t: seq<Event>, e: Event, a: Address)
    ensures Received(t + [e], a) == Received(t, a) + if e.ContribReceived? && e.investor == a then [e.amount] else []
    ensures Reconciled(t + [e], a) == Reconciled(t, a) + if e.ContribReconciled? && e.investor == a then e.amount else 0
  {
  }

  lemma SumOfSnoc(xs: seq<int>, x: int)
    ensures SumOf(xs + [x]) == SumOf(xs) + x
  {
  }

  // A contribution slot is made of deposits and reconciled amounts.
  lemma {:induction false} DepositsSplit(t: seq<Event>, a: Address)
    ensures (if a in Deposits(t) then Deposits(t)[a] else 0) == SumOf(Received(t, a)) + Reconciled(t, a)
  {
    if t != [] {
      DepositsSplit(t[..|t| - 1], a);
      var last := t[|t| - 1];
      if last.ContribReceived? && last.investor == a {
        SumOfSnoc(Received(t[..|t| - 1], a), last.amount);
      } else {
        assert Received(t, a) == Received(t[..|t| - 1], a);
      }
    }
  }

  lemma {:induction false} LivedAmounts(b: Birth, tries: seq<Try>, a: Address)
    requires b.Valid()
    ensures NonNegative(Received(Lived(b, tries).trace, a)) && 0 <= Reconciled(Lived(b, tries).trace, a)
  {
    if tries == [] {
      ReceivedSnoc([], b.Trace()[0], a);
      assert [] + b.Trace() == b.Trace();
    } else {
      var l := Lived(b, tries[..|tries| - 1]);
      var t := tries[|tries| - 1];
      LivedAmounts(b, tries[..|tries| - 1], a);
      LivedSound(b, tries[..|tries| - 1]);
      AmountsStep(l, t, a);
    }
  }

  lemma {:induction false} AmountsStep(l: Life, t: Try, a: Address)
    requires Sound(l.cell) && NonNegative(Received(l.trace, a)) && 0 <= Reconciled(l.trace, a)
    ensures NonNegative(Received(Advance(l, t).trace, a)) && 0 <= Reconciled(Advance(l, t).trace, a)
  {
    if Attempt(l.cell, t.env, t.op).Some? {
      StepAmounts(l.cell, t.env, t.op);
      AmountsAfter(l.trace, Attempt(l.cell, t.env, t.op).value.events, a);
    }
  }

  lemma {:induction false} AmountsAfter(t: seq<Event>, ev: seq<Event>, a: Address)
    requires NonNegative(Received(t, a)) && 0 <= Reconciled(t, a)
    requires |ev| == 1 || (|ev| == 2 && ev[0].CampaignFunded?)
    requires 0 <= AmountReceived(ev[|ev| - 1]) && 0 <= AmountReconciled(ev[|ev| - 1])
    ensures NonNegative(Received(t + ev, a)) && 0 <= Reconciled(t + ev, a)
  {
    if |ev| == 2 {
      AmountsAfterOne(t, ev[0], a);
      AmountsAfterOne(t + [ev[0]], ev[1], a);
      assert t + ev == t + [ev[0]] + [ev[1]];
    } else {
      AmountsAfterOne(t, ev[0], a);
      assert ev == [ev[0]];
    }
  }

  lemma {:induction false} AmountsAfterOne(t: seq<Event>, e: Event, a: Address)
    requires NonNegative(Received(t, a)) && 0 <= Reconciled(t, a)
    requires 0 <= AmountReceived(e) && 0 <= AmountReconciled(e)
    ensures NonNegative(Received(t + [e], a)) && 0 <= Reconciled(t + [e], a)
  {
    ReceivedSnoc(t, e, a);
  }

  // What the portfolio shows as claimable for these deposits.
  function EstimateSum(xs: seq<int>, r: Row): int {
    if xs == [] then 0 else EstimateSum(xs[..|xs| - 1], r) + Estimate(xs[|xs| - 1], r)
  }

  lemma {:induction false} EstimatesAreFloors(xs: seq<int>, r: Row)
    requires NonNegative(xs) && 0 < r.totalFunded && 0 <= RowPool(r)
    ensures EstimateSum(xs, r) == FloorSum(xs, RowPool(r), r.totalFunded)
  {
    if xs != [] {
      EstimatesAreFloors(xs[..|xs| - 1], r);
      var x, p := xs[|xs| - 1], RowPool(r);
      assert 0 <= x * p;
    }
  }

  // The contract's share for an investor who has not claimed.
  function ShareOf(c: Cell, a: Address): int
    requires c.campaign.totalFunded != 0
  {
    TruncDiv(c.Slot(a) * Pool(c.campaign), c.campaign.totalFunded)
  }

  // What the contract has paid an investor or, as long as it has not, would pay.
  function ClaimOf(c: Cell, t: seq<Event>, a: Address): int {
    if a in Paid(t) then Paid(t)[a] else if c.campaign.totalFunded == 0 then 0 else ShareOf(c, a)
  }

  // The estimate never exceeds the claim it stands for, whether open or made. It is
  // the share of what the investor deposited in the total as the table has it, less
  // than one unit per deposit short; so with the contract's own total and no
  // reconciled part, it is as close to the claim.
  lemma {:induction false} EstimateWithinShare(b: Birth, tries: seq<Try>, a: Address)
    requires b.Valid()
    requires a in Deposits(Lived(b, tries).trace)
    ensures var l := Lived(b, tries);
            var k, row, xs := l.cell.campaign, RowFold(l.trace), Received(l.trace, a);
            && row.Some? && 0 < k.totalFunded <= row.value.totalFunded
            && 0 <= EstimateSum(xs, row.value) <= ClaimOf(l.cell, l.trace, a)
            && Brackets(EstimateSum(xs, row.value), xs, Pool(k), k.totalFunded + Overcount(l.trace))
            && (Overcount(l.trace) == 0 && Reconciled(l.trace, a) == 0 && xs != [] ==>
                  ClaimOf(l.cell, l.trace, a) < EstimateSum(xs, row.value) + |xs|)
  {
    var l := Lived(b, tries);
    LivedSound(b, tries);
    LivedRowMatches(b, tries);
    LivedAtMostOneTwice(b, tries);
    LivedAmounts(b, tries, a);
    DepositsSplit(l.trace, a);
    ClaimOfDeposit(l, a);
    var k, row, xs := l.cell.campaign, RowFold(l.trace).value, Received(l.trace, a);
    EstimateBounds(xs, row, Deposits(l.trace)[a], Pool(k), k.totalFunded);
    EstimateBrackets(xs, row, Pool(k), k.totalFunded + Overcount(l.trace));
  }

  // Paid or not, it is the share of the investor's deposits.
  lemma ClaimOfDeposit(l: Life, a: Address)
    requires Sound(l.cell) && Booked(l) && a in Deposits(l.trace)
    ensures var k, d := l.cell.campaign, Deposits(l.trace)[a];
            && 0 < d <= k.totalFunded && 0 <= Pool(k)
            && ClaimOf(l.cell, l.trace, a) == TruncDiv(d * Pool(k), k.totalFunded)
  {
    var k, d := l.cell.campaign, Deposits(l.trace)[a];
    PartOfSum(Deposits(l.trace), a);
    MulMono(Pool(k), 0, d);
  }

  // At most the share of the deposits in a total, and less than one unit per deposit
  // below it.
  ghost predicate Brackets(estimate: int, xs: seq<int>, pool: int, total: int) {
    0 < total && (xs != [] ==> estimate <= SumOf(xs) * pool / total < estimate + |xs|)
  }

  lemma {:induction false} EstimateBrackets(xs: seq<int>, r: Row, pool: int, total: int)
    requires NonNegative(xs) && RowPool(r) == pool && 0 <= pool && 0 < total == r.totalFunded
    ensures Brackets(EstimateSum(xs, r), xs, pool, total)
  {
    EstimatesAreFloors(xs, r);
    if xs != [] {
      FloorsWithinShare(xs, pool, total);
    }
  }

  lemma {:induction false} EstimateBounds(xs: seq<int>, r: Row, slot: int, pool: int, total: int)
    requires NonNegative(xs) && SumOf(xs) <= slot && RowPool(r) == pool && 0 <= pool && 0 < total <= r.totalFunded
    requires 0 <= slot
    ensures 0 <= EstimateSum(xs, r) <= TruncDiv(slot * pool, total)
    ensures r.totalFunded == total && SumOf(xs) == slot && xs != [] ==>
              TruncDiv(slot * pool, total) < EstimateSum(xs, r) + |xs|
  {
    EstimatesAreFloors(xs, r);
    FloorSumAntitone(xs, pool, total, r.totalFunded);
    MulMono(pool, SumOf(xs), slot);
    ShareNonNegative(slot, pool, total);
    if xs != [] {
      FloorsWithinShare(xs, pool, total);
      QuotientMono(SumOf(xs) * pool, slot * pool, total);
    }
  }

  lemma QuotientMono(x: int, y: int, total: int)
    requires x <= y && 0 < total
    ensures x / total <= y / total
  {
    var p, q := x / total, y / total;
    assert total * p <= x && y < total * q + total;
    if q < p { MulMono(total, q + 1, p); }
  }

  function ShortTrace(a: Address, admin: Address): seq<Event> {
    [CampaignCreated(admin, 0, 100)] + [CampaignFunded(0, 100)] + [ContribReceived(a, 0, 100)]
        + [CampaignFailed(0, 100)]
  }

  lemma ShortRow(a: Address, admin: Address)
    ensures RowFold(ShortTrace(a, admin)) == Some(Row(admin, 100, Failed, 200, None, None, 100, 0))
    ensures Received(ShortTrace(a, admin), a) == [100]
  {
    var t1 := [CampaignCreated(admin, 0, 100)];
    var t2 := t1 + [CampaignFunded(0, 100)];
    var t3 := t2 + [ContribReceived(a, 0, 100)];
    assert [] + t1 == t1;
    FoldSnoc([], t1[0]);
    FoldSnoc(t1, CampaignFunded(0, 100));
    FoldSnoc(t2, ContribReceived(a, 0, 100));
    FoldSnoc(t3, CampaignFailed(0, 100));
    ReceivedSnoc([], t1[0], a);
    ReceivedSnoc(t1, CampaignFunded(0, 100), a);
    ReceivedSnoc(t2, ContribReceived(a, 0, 100), a);
    ReceivedSnoc(t3, CampaignFailed(0, 100), a);
  }

  lemma ShortLife(b: Birth, e: Env, a: Address, admin: Address)
    requires a != SELF && admin != SELF
    requires b == Birth(admin, 100, "token", 10, "maize", 0) && e == Env(1, {a, admin}, Some(admin), 0, 0)
    ensures var l := Lived(b, [Try(e, Fund(a, 100)), Try(e, MarkFailed)]);
            && l.cell.campaign.totalFunded == l.cell.campaign.refundable == 100 && l.cell.campaign.status.Failed?
            && l.cell.Slot(a) == 100 && l.trace == ShortTrace(a, admin)
  {
    var fund, fail := Try(e, Fund(a, 100)), Try(e, MarkFailed);
    assert [fund, fail][..1] == [fund] && [fund][..0] == [];
    var l0, l1 := Lived(b, []), Lived(b, [fund]);
    assert l1 == Advance(l0, fund);
    assert l1.trace == [CampaignCreated(admin, 0, 100)] + [CampaignFunded(0, 100)] + [ContribReceived(a, 0, 100)];
    assert Lived(b, [fund, fail]) == Advance(l1, fail);
  }

  // The shortfall is real where the deposit that completed the funding is counted
  // twice: a sole investor who put in all 100 of a failed campaign can claim 100
  // and is shown 50.
  lemma EstimateCanFallShort(b: Birth, e: Env, a: Address, admin: Address)
    requires a != SELF && admin != SELF
    requires b == Birth(admin, 100, "token", 10, "maize", 0) && e == Env(1, {a, admin}, Some(admin), 0, 0)
    ensures var l := Lived(b, [Try(e, Fund(a, 100)), Try(e, MarkFailed)]);
            && l.cell.campaign.totalFunded == 100 && ShareOf(l.cell, a) == 100
            && Received(l.trace, a) == [100]
            && RowFold(l.trace).Some? && EstimateSum([100], RowFold(l.trace).value) == 50
  {
    ShortLife(b, e, a, admin);
    ShortRow(a, admin);
    assert [100][..0] == [];
  }

  // The estimate knows nothing of claims: once an investor has claimed, the
  // contract has nothing left to pay and the portfolio shows what it showed before.
  lemma {:induction false} ClaimKeepsEstimate(l: Life, e: Env, e': Env, op: Op, a: Address)
    requires op == ClaimRefund(a) || op == ClaimReturn(a)
    requires Attempt(l.cell, e, op).Some? && RowFold(l.trace).Some?
    ensures var l' := Advance(l, Try(e, op));
            && RowFold(l'.trace) == RowFold(l.trace) && Received(l'.trace, a) == Received(l.trace, a)
            && Attempt(l'.cell, e', op).None?
  {
    var x := Attempt(l.cell, e, op).value;
    ClaimOnce(l.cell, e, e', op, a);
    ClaimUnseen(l.trace, x.events[0], a);
    assert x.events == [x.events[0]];
  }

  lemma {:induction false} ClaimUnseen(t: seq<Event>, claim: Event, a: Address)
    requires RowFold(t).Some? && (claim.RefundClaimed? || claim.ReturnClaimed?)
    ensures RowFold(t + [claim]) == RowFold(t) && Received(t + [claim], a) == Received(t, a)
  {
    FoldSnoc(t, claim);
    ReceivedSnoc(t, claim, a);
  }

  lemma {:induction false} ClaimOnce(c: Cell, e: Env, e': Env, op: Op, a: Address)
    requires op == ClaimRefund(a) || op == ClaimReturn(a)
    requires Attempt(c, e, op).Some?
    ensures var x := Attempt(c, e, op).value;
            && |x.events| == 1 && (x.events[0].RefundClaimed? || x.events[0].ReturnClaimed?)
            && Attempt(x.cell, e', op).None?
  {
  }

  // ------------------------------------------------------------ the whole database

  function ClaimableIn(positions: seq<Position>, campaign: string): int {
    if positions == [] then 0
    else
      (if positions[0].campaign == campaign then positions[0].claimable else 0)
      + ClaimableIn(positions[1..], campaign)
  }

  lemma ClaimableSnoc(db: Db, invested: seq<Investment>, inv: Investment, a: Address, campaign: string)
    requires inv.campaign in db.campaigns && forall i :: i in invested ==> i.campaign in db.campaigns
    ensures forall i :: i in invested + [inv] ==> i.campaign in db.campaigns
    ensures ClaimableIn(PositionsOf(db, invested + [inv], a), campaign)
         == ClaimableIn(PositionsOf(db, invested, a), campaign) +
            if inv.investor == a && inv.campaign == campaign then Estimate(inv.amount, db.campaigns[campaign]) else 0
  {
    assert (invested + [inv])[..|invested|] == invested;
    var rest := PositionsOf(db, invested, a);
    if inv.investor == a {
      var row := db.campaigns[inv.campaign];
      var p := Position(inv.id, inv.campaign, row.status, inv.amount, Estimate(inv.amount, row));
      assert ([p] + rest)[1..] == rest;
    } else {
      assert [] + rest == rest;
    }
  }

  lemma EstimateSnoc(xs: seq<int>, x: int, r: Row)
    ensures EstimateSum(xs + [x], r) == EstimateSum(xs, r) + Estimate(x, r)
  {
  }

  lemma {:induction false} ReceivedNext(log: seq<LogEntry>, e: LogEntry, a: Address, c: nat)
    ensures Received(Project(log + [e], c), a) ==
              if e.campaign == c && e.event.ContribReceived? && e.event.investor == a
              then Received(Project(log, c), a) + [e.event.amount] else Received(Project(log, c), a)
  {
    ProjectAppend(log, e, c);
    if e.campaign == c {
      ReceivedSnoc(Project(log, c), e.event, a);
    } else {
      assert Project(log, c) + [] == Project(log, c);
    }
  }

  // What an entry of the log adds to an investor's positions in a campaign is
  // what it adds to the investor's deposits there.
  lemma {:induction false} LastPosition(log: seq<LogEntry>, e: LogEntry, db: Db, a: Address, c: nat)
    requires forall inv :: inv in Invested(log) ==> inv.campaign in db.campaigns
    requires Decimal(e.campaign) in db.campaigns && Decimal(c) in db.campaigns
    requires ClaimableIn(PositionsOf(db, Invested(log), a), Decimal(c))
          == EstimateSum(Received(Project(log, c), a), db.campaigns[Decimal(c)])
    ensures forall inv :: inv in Invested(log + [e]) ==> inv.campaign in db.campaigns
    ensures ClaimableIn(PositionsOf(db, Invested(log + [e]), a), Decimal(c))
         == EstimateSum(Received(Project(log + [e], c), a), db.campaigns[Decimal(c)])
  {
    InvestedSnoc(log, e);
    SameName(e.campaign, c);
    var xs := Received(Project(log, c), a);
    ReceivedNext(log, e, a, c);
    if e.event.ContribReceived? {
      ClaimableSnoc(db, Invested(log), Investment(e.id, Decimal(e.campaign), e.event.investor, e.event.amount), a,
                    Decimal(c));
      EstimateSnoc(xs, e.event.amount, db.campaigns[Decimal(c)]);
    } else {
      assert Invested(log) + [] == Invested(log);
    }
  }

  // The positions in one campaign are the investor's deposits in it.
  lemma {:induction false} PositionsAreDeposits(log: seq<LogEntry>, db: Db, a: Address, c: nat)
    requires forall i :: 0 <= i < |log| ==> Decimal(log[i].campaign) in db.campaigns
    requires Decimal(c) in db.campaigns
    ensures forall inv :: inv in Invested(log) ==> inv.campaign in db.campaigns
    ensures ClaimableIn(PositionsOf(db, Invested(log), a), Decimal(c))
         == EstimateSum(Received(Project(log, c), a), db.campaigns[Decimal(c)])
  {
    if log != [] {
      var init, last := log[..|log| - 1], log[|log| - 1];
      assert log == init + [last];
      PositionsAreDeposits(init, db, a, c);
      LastPosition(init, last, db, a, c);
    }
  }

  // For every campaign of every run, what the portfolio shows an investor is
  // within what the contract pays, and close to it.
  lemma {:induction false} PortfolioWithinClaim(acts: seq<Act>, shapes: nat -> Shape, id: nat, a: Address)
    requires id in Run(Genesis(), acts).cells
    requires a in Deposits(Project(Run(Genesis(), acts).log, id))
    ensures var w := Run(Genesis(), acts);
            var db := ProcessAll(Service(EmptyDb(), []), Wire(w.log, shapes)).db;
            var t, xs := Project(w.log, id), Received(Project(w.log, id), a);
            && Linked(db) && w.cells[id].campaign.totalFunded != 0
            && (var shown := ClaimableIn(PortfolioOf(db, a).positions, Decimal(id));
                && 0 <= shown <= ClaimOf(w.cells[id], t, a)
                && Brackets(shown, xs, Pool(w.cells[id].campaign), w.cells[id].campaign.totalFunded + Overcount(t))
                && (Overcount(t) == 0 && Reconciled(t, a) == 0 && xs != [] ==>
                      ClaimOf(w.cells[id], t, a) < shown + |xs|))
  {
    var w := Run(Genesis(), acts);
    FoldIsTabled(acts, shapes);
    PortfolioIsDeposits(acts, ProcessAll(Service(EmptyDb(), []), Wire(w.log, shapes)).db, id, a);
    var b, tries := Decompose(acts, id);
    EstimateWithinShare(b, tries, a);
    RowIsFold(acts, shapes, id);
  }

  // The deposits of the run are the investments, and every campaign has a row.
  ghost predicate Tabled(db: Db, w: State) {
    db.investments == Invested(w.log) && forall id :: id in w.cells ==> Decimal(id) in db.campaigns
  }

  lemma {:induction false} FoldIsTabled(acts: seq<Act>, shapes: nat -> Shape)
    ensures var w := Run(Genesis(), acts);
            Tabled(ProcessAll(Service(EmptyDb(), []), Wire(w.log, shapes)).db, w)
  {
    var w := Run(Genesis(), acts);
    var db := ProcessAll(Service(EmptyDb(), []), Wire(w.log, shapes)).db;
    TableMirrorsEscrow(acts, shapes);
    forall id | id in w.cells ensures Decimal(id) in db.campaigns {
      assert RowOf(db, Decimal(id)).Some?;
    }
  }

  lemma {:induction false} PortfolioIsDeposits(acts: seq<Act>, db: Db, id: nat, a: Address)
    requires id in Run(Genesis(), acts).cells && Tabled(db, Run(Genesis(), acts))
    ensures var w := Run(Genesis(), acts);
            && Linked(db) && Decimal(id) in db.campaigns
            && ClaimableIn(PortfolioOf(db, a).positions, Decimal(id))
               == EstimateSum(Received(Project(w.log, id), a), db.campaigns[Decimal(id)])
  {
    var w := Run(Genesis(), acts);
    NoStrayEvents(acts);
    forall i | 0 <= i < |w.log| ensures Decimal(w.log[i].campaign) in db.campaigns {
      LoggedCampaignsExist(w.log, w.log[i]);
    }
    PositionsAreDeposits(w.log, db, a, id);
  }

  lemma {:induction false} RowIsFold(acts: seq<Act>, shapes: nat -> Shape, id: nat)
    ensures var w := Run(Genesis(), acts);
            RowOf(ProcessAll(Service(EmptyDb(), []), Wire(w.log, shapes)).db, Decimal(id))
                == RowFold(Project(w.log, id))
  {
    var w := Run(Genesis(), acts);
    RunOrderly(acts);
    WireIsRead(w.log, shapes);
    Replay.ProcessAllIsAfter(Wire(w.log, shapes));
    TableHoldsLog(w.log);
    assert RowHolds(Replay.After(ReadAll(w.log)), w.log, id);
  }

  // ------------------------------------------------------------ the total

  // What the positions show, campaign by campaign.
  ghost function ShownIn(positions: seq<Position>, ids: set<nat>): map<nat, int> {
    map id | id in ids :: ClaimableIn(positions, Decimal(id))
  }

  ghost predicate Named(positions: seq<Position>, names: set<string>) {
    forall i :: 0 <= i < |positions| ==> positions[i].campaign in names
  }

  lemma {:induction false} ShownAddsUp(positions: seq<Position>, ids: set<nat>)
    requires Named(positions, Numerals(ids))
    ensures Sum(ShownIn(positions, ids)) == ClaimableSum(positions)
  {
    if positions == [] {
      SumIgnoresZeros(map[], ShownIn([], ids));
    } else {
      ShownAddsUp(positions[1..], ids);
      FirstAddsUp(positions[0], positions[1..], ids);
      assert positions == [positions[0]] + positions[1..];
    }
  }

  lemma {:induction false} FirstAddsUp(p: Position, rest: seq<Position>, ids: set<nat>)
    requires p.campaign in Numerals(ids)
    ensures Sum(ShownIn([p] + rest, ids)) == p.claimable + Sum(ShownIn(rest, ids))
  {
    var id :| id in ids && Decimal(id) == p.campaign;
    var shown, before := ShownIn([p] + rest, ids), ShownIn(rest, ids);
    forall j | j in ids ensures shown[j] == before[j] + if j == id then p.claimable else 0 {
      FirstClaimable(p, rest, Decimal(j));
      SameName(j, id);
    }
    SumRaise(shown, before, id, p.claimable);
  }

  lemma {:induction false} FirstClaimable(p: Position, rest: seq<Position>, campaign: string)
    ensures ClaimableIn([p] + rest, campaign)
         == (if p.campaign == campaign then p.claimable else 0) + ClaimableIn(rest, campaign)
  {
    assert ([p] + rest)[1..] == rest;
  }

  lemma {:induction false} InvestedNamed(log: seq<LogEntry>, ids: set<nat>)
    requires forall i :: 0 <= i < |log| ==> log[i].campaign in ids
    ensures forall inv :: inv in Invested(log) ==> inv.campaign in Numerals(ids)
  {
    if log != [] {
      var init, last := log[..|log| - 1], log[|log| - 1];
      InvestedNamed(init, ids);
      assert log == init + [last];
      InvestedSnoc(init, last);
    }
  }

  lemma {:induction false} PositionsNamed(db: Db, invested: seq<Investment>, a: Address, names: set<string>)
    requires forall inv :: inv in invested ==> inv.campaign in db.campaigns && inv.campaign in names
    ensures Named(PositionsOf(db, invested, a), names)
  {
    if invested != [] {
      assert invested[|invested| - 1] in invested;
      PositionsNamed(db, invested[..|invested| - 1], a, names);
    }
  }

  // What the contract pays an investor in each campaign, and how often the
  // investor has deposited there.
  ghost function ClaimsOf(w: State, a: Address): map<nat, int> {
    map id | id in w.cells :: ClaimOf(w.cells[id], Project(w.log, id), a)
  }

  ghost function DepositCounts(w: State, a: Address): map<nat, int> {
    map id | id in w.cells :: |Received(Project(w.log, id), a)|
  }

  // The page's total is within what the contract pays over all campaigns; with the
  // contract's own totals and nothing reconciled it is short of it by at most one
  // unit per deposit.
  lemma {:induction false} PortfolioTotalWithinClaims(acts: seq<Act>, shapes: nat -> Shape, a: Address)
    ensures var w := Run(Genesis(), acts);
            var db := ProcessAll(Service(EmptyDb(), []), Wire(w.log, shapes)).db;
            && Linked(db)
            && 0 <= PortfolioOf(db, a).totalClaimable <= Sum(ClaimsOf(w, a))
            && ((forall id :: id in w.cells ==>
                   Overcount(Project(w.log, id)) == 0 && Reconciled(Project(w.log, id), a) == 0) ==>
                  Sum(ClaimsOf(w, a)) <= PortfolioOf(db, a).totalClaimable + Sum(DepositCounts(w, a)))
  {
    var w := Run(Genesis(), acts);
    var db := ProcessAll(Service(EmptyDb(), []), Wire(w.log, shapes)).db;
    FoldIsTabled(acts, shapes);
    TotalIsShown(acts, db, a);
    var positions := PortfolioOf(db, a).positions;
    var shown, claims, counts := ShownIn(positions, w.cells.Keys), ClaimsOf(w, a), DepositCounts(w, a);
    forall id | id in w.cells ensures ShownNearClaim(w, id, a, shown[id]) {
      PortfolioNearClaim(acts, shapes, id, a);
    }
    SumNonNegative(shown);
    SumSubmap(shown, claims);
    if forall id :: id in w.cells ==> Overcount(Project(w.log, id)) == 0 && Reconciled(Project(w.log, id), a) == 0 {
      var bounds := map id | id in w.cells :: shown[id] + counts[id];
      SumPlus(shown, counts, bounds);
      SumSubmap(claims, bounds);
    }
  }

  ghost predicate ShownNearClaim(w: State, id: nat, a: Address, shown: int)
    requires id in w.cells
  {
    var t := Project(w.log, id);
    var claim := ClaimOf(w.cells[id], t, a);
    0 <= shown <= claim && (Overcount(t) == 0 && Reconciled(t, a) == 0 ==> claim <= shown + |Received(t, a)|)
  }

  lemma {:induction false} PortfolioNearClaim(acts: seq<Act>, shapes: nat -> Shape, id: nat, a: Address)
    requires id in Run(Genesis(), acts).cells
    ensures var w := Run(Genesis(), acts);
            var db := ProcessAll(Service(EmptyDb(), []), Wire(w.log, shapes)).db;
            Linked(db) && ShownNearClaim(w, id, a, ClaimableIn(PortfolioOf(db, a).positions, Decimal(id)))
  {
    var w := Run(Genesis(), acts);
    var t := Project(w.log, id);
    var b, tries := Decompose(acts, id);
    LivedSound(b, tries);
    FoldIsTabled(acts, shapes);
    PortfolioIsDeposits(acts, ProcessAll(Service(EmptyDb(), []), Wire(w.log, shapes)).db, id, a);
    if a in Deposits(t) {
      PortfolioWithinClaim(acts, shapes, id, a);
      if Reconciled(t, a) == 0 { DepositsSplit(t, a); }
    } else {
      NothingReceived(t, a);
    }
  }

  lemma {:induction false} NothingReceived(t: seq<Event>, a: Address)
    requires a !in Deposits(t)
    ensures Received(t, a) == []
  {
    if t != [] {
      NothingReceived(t[..|t| - 1], a);
    }
  }

  lemma {:induction false} TotalIsShown(acts: seq<Act>, db: Db, a: Address)
    requires Tabled(db, Run(Genesis(), acts))
    ensures var w := Run(Genesis(), acts);
            && Linked(db)
            && PortfolioOf(db, a).totalClaimable == Sum(ShownIn(PortfolioOf(db, a).positions, w.cells.Keys))
  {
    var w := Run(Genesis(), acts);
    NoStrayEvents(acts);
    forall i | 0 <= i < |w.log| ensures w.log[i].campaign in w.cells.Keys {
      LoggedCampaignsExist(w.log, w.log[i]);
    }
    InvestedNamed(w.log, w.cells.Keys);
    PositionsNamed(db, db.investments, a, Numerals(w.cells.Keys));
    ShownAddsUp(PortfolioOf(db, a).positions, w.cells.Keys);
  }

  // ------------------------------------------------------------ positions and amounts

  // The deposits in the log that an investor made, in order.
  function DepositsOf(log: seq<LogEntry>, a: Address): seq<LogEntry> {
    if log == [] then []
    else
      var init, last := DepositsOf(log[..|log| - 1], a), log[|log| - 1];
      if last.event.ContribReceived? && last.event.investor == a then init + [last] else init
  }

  ghost predicate IsDeposit(e: LogEntry, a: Address) {
    e.event.ContribReceived? && e.event.investor == a
  }

  // The position that a deposit makes: its own amount, under its campaign, with the
  // status and the estimate of the campaign's row.
  ghost predicate ShowsDeposit(p: Position, e: LogEntry, db: Db, a: Address) {
    && IsDeposit(e, a) && Decimal(e.campaign) in db.campaigns
    && p.investment == e.id && p.campaign == Decimal(e.campaign) && p.amount == e.event.amount
    && p.status == db.campaigns[Decimal(e.campaign)].status
    && p.claimable == Estimate(e.event.amount, db.campaigns[Decimal(e.campaign)])
  }

  // One position for each deposit, the latest first.
  ghost predicate ListsDeposits(positions: seq<Position>, log: seq<LogEntry>, db: Db, a: Address) {
    && |positions| == |DepositsOf(log, a)|
    && forall i :: 0 <= i < |positions| ==> ShowsDeposit(positions[i], DepositsOf(log, a)[|positions| - 1 - i], db, a)
  }

  lemma {:induction false} PositionsListDeposits(log: seq<LogEntry>, db: Db, a: Address)
    requires forall i :: 0 <= i < |log| ==> Decimal(log[i].campaign) in db.campaigns
    ensures forall inv :: inv in Invested(log) ==> inv.campaign in db.campaigns
    ensures ListsDeposits(PositionsOf(db, Invested(log), a), log, db, a)
    ensures AmountSum(PositionsOf(db, Invested(log), a)) == DepositedBy(log, a)
  {
    if log != [] {
      var init, last := log[..|log| - 1], log[|log| - 1];
      assert log == init + [last];
      PositionsListDeposits(init, db, a);
      InvestedSnoc(init, last);
      OnePosition(init, last, db, a);
    }
  }

  lemma {:induction false} OnePosition(log: seq<LogEntry>, e: LogEntry, db: Db, a: Address)
    requires Decimal(e.campaign) in db.campaigns
    requires forall inv :: inv in Invested(log) ==> inv.campaign in db.campaigns
    requires ListsDeposits(PositionsOf(db, Invested(log), a), log, db, a)
    requires AmountSum(PositionsOf(db, Invested(log), a)) == DepositedBy(log, a)
    ensures forall inv :: inv in Invested(log + [e]) ==> inv.campaign in db.campaigns
    ensures ListsDeposits(PositionsOf(db, Invested(log + [e]), a), log + [e], db, a)
    ensures AmountSum(PositionsOf(db, Invested(log + [e]), a)) == DepositedBy(log + [e], a)
  {
    InvestedSnoc(log, e);
    assert (log + [e])[..|log|] == log;
    if IsDeposit(e, a) {
      NewestFirst(db, Invested(log), Investment(e.id, Decimal(e.campaign), e.event.investor, e.event.amount), a);
      ListsNewest(PositionsOf(db, Invested(log), a), log, e, db, a);
    } else {
      NoPosition(log, e, db, a);
    }
  }

  lemma {:induction false} NoPosition(log: seq<LogEntry>, e: LogEntry, db: Db, a: Address)
    requires Decimal(e.campaign) in db.campaigns && !IsDeposit(e, a)
    requires forall inv :: inv in Invested(log) ==> inv.campaign in db.campaigns
    ensures forall inv :: inv in Invested(log + [e]) ==> inv.campaign in db.campaigns
    ensures PositionsOf(db, Invested(log + [e]), a) == PositionsOf(db, Invested(log), a)
    ensures DepositsOf(log + [e], a) == DepositsOf(log, a) && DepositedBy(log + [e], a) == DepositedBy(log, a)
  {
    InvestedSnoc(log, e);
    assert (log + [e])[..|log|] == log;
    if e.event.ContribReceived? {
      NewestFirst(db, Invested(log), Investment(e.id, Decimal(e.campaign), e.event.investor, e.event.amount), a);
    } else {
      assert Invested(log) + [] == Invested(log);
    }
  }

  lemma {:induction false} ListsNewest(positions: seq<Position>, log: seq<LogEntry>, e: LogEntry, db: Db, a: Address)
    requires ListsDeposits(positions, log, db, a) && IsDeposit(e, a) && Decimal(e.campaign) in db.campaigns
    ensures var row := db.campaigns[Decimal(e.campaign)];
            ListsDeposits([Position(e.id, Decimal(e.campaign), row.status, e.event.amount,
                                    Estimate(e.event.amount, row))] + positions, log + [e], db, a)
  {
    var row := db.campaigns[Decimal(e.campaign)];
    var p := Position(e.id, Decimal(e.campaign), row.status, e.event.amount, Estimate(e.event.amount, row));
    var all, n := [p] + positions, |positions|;
    assert (log + [e])[..|log|] == log;
    assert DepositsOf(log + [e], a) == DepositsOf(log, a) + [e];
    forall i | 0 <= i < n + 1 ensures ShowsDeposit(all[i], DepositsOf(log + [e], a)[n - i], db, a) {
      if i > 0 {
        assert all[i] == positions[i - 1] && DepositsOf(log + [e], a)[n - i] == DepositsOf(log, a)[n - i];
        assert ShowsDeposit(positions[i - 1], DepositsOf(log, a)[n - 1 - (i - 1)], db, a);
      }
    }
  }

  lemma {:induction false} NewestFirst(db: Db, invested: seq<Investment>, inv: Investment, a: Address)
    requires inv.campaign in db.campaigns && forall i :: i in invested ==> i.campaign in db.campaigns
    ensures forall i :: i in invested + [inv] ==> i.campaign in db.campaigns
    ensures var row, rest := db.campaigns[inv.campaign], PositionsOf(db, invested, a);
            var p := Position(inv.id, inv.campaign, row.status, inv.amount, Estimate(inv.amount, row));
            && PositionsOf(db, invested + [inv], a) == (if inv.investor == a then [p] + rest else rest)
            && AmountSum([p] + rest) == inv.amount + AmountSum(rest)
  {
    assert (invested + [inv])[..|invested|] == invested;
    var row, rest := db.campaigns[inv.campaign], PositionsOf(db, invested, a);
    var p := Position(inv.id, inv.campaign, row.status, inv.amount, Estimate(inv.amount, row));
    assert ([p] + rest)[1..] == rest;
    assert [] + rest == rest;
  }

  // What an investor deposited, over the whole log and in each of these campaigns.
  function DepositedBy(log: seq<LogEntry>, a: Address): int {
    if log == [] then 0
    else
      var last := log[|log| - 1].event;
      DepositedBy(log[..|log| - 1], a) + if last.ContribReceived? && last.investor == a then last.amount else 0
  }

  ghost function DepositsMade(log: seq<LogEntry>, ids: set<nat>, a: Address): map<nat, int> {
    map id | id in ids :: SumOf(Received(Project(log, id), a))
  }

  function DepositIn(e: LogEntry, a: Address): int {
    if e.event.ContribReceived? && e.event.investor == a then e.event.amount else 0
  }

  lemma {:induction false} MadeSnoc(log: seq<LogEntry>, e: LogEntry, id: nat, a: Address)
    ensures SumOf(Received(Project(log + [e], id), a))
         == SumOf(Received(Project(log, id), a)) + if id == e.campaign then DepositIn(e, a) else 0
  {
    ProjectAppend(log, e, id);
    var t := Project(log, id);
    if id == e.campaign {
      ReceivedSnoc(t, e.event, a);
      if IsDeposit(e, a) {
        SumOfSnoc(Received(t, a), e.event.amount);
      } else {
        assert Received(t, a) + [] == Received(t, a);
      }
    } else {
      assert t + [] == t;
    }
  }

  lemma {:induction false} MadeOnSnoc(log: seq<LogEntry>, e: LogEntry, ids: set<nat>, a: Address)
    requires e.campaign in ids
    ensures Sum(DepositsMade(log + [e], ids, a)) == Sum(DepositsMade(log, ids, a)) + DepositIn(e, a)
  {
    var before, after := DepositsMade(log, ids, a), DepositsMade(log + [e], ids, a);
    forall id | id in ids ensures after[id] == before[id] + if id == e.campaign then DepositIn(e, a) else 0 {
      MadeSnoc(log, e, id, a);
    }
    SumRaise(after, before, e.campaign, DepositIn(e, a));
  }

  lemma {:induction false} NothingMade(ids: set<nat>, a: Address)
    ensures Sum(DepositsMade([], ids, a)) == 0
  {
    forall id | id in ids ensures DepositsMade([], ids, a)[id] == 0 {
      assert Project([], id) == [] && Received([], a) == [];
    }
    SumOfZeros(DepositsMade([], ids, a));
  }

  lemma {:induction false} DepositsByCampaign(log: seq<LogEntry>, ids: set<nat>, a: Address)
    requires forall i :: 0 <= i < |log| ==> log[i].campaign in ids
    ensures DepositedBy(log, a) == Sum(DepositsMade(log, ids, a))
  {
    if log == [] {
      NothingMade(ids, a);
    } else {
      var init, e := log[..|log| - 1], log[|log| - 1];
      assert e.campaign in ids;
      forall i | 0 <= i < |init| ensures init[i].campaign in ids { assert init[i] == log[i]; }
      DepositsByCampaign(init, ids, a);
      MadeOnSnoc(init, e, ids, a);
      DepositedSnoc(init, e, a);
      LastApart(log);
    }
  }

  lemma DepositedSnoc(log: seq<LogEntry>, e: LogEntry, a: Address)
    ensures DepositedBy(log + [e], a) == DepositedBy(log, a) + DepositIn(e, a)
  {
  }

  // So the page lists an investor's deposits, and shows as invested what these are over
  // all campaigns.
  lemma {:induction false} PortfolioListsDeposits(acts: seq<Act>, db: Db, a: Address)
    requires Tabled(db, Run(Genesis(), acts))
    ensures var w := Run(Genesis(), acts);
            && Linked(db) && ListsDeposits(PortfolioOf(db, a).positions, w.log, db, a)
            && PortfolioOf(db, a).totalInvested == Sum(DepositsMade(w.log, w.cells.Keys, a))
  {
    var w := Run(Genesis(), acts);
    NoStrayEvents(acts);
    forall i | 0 <= i < |w.log| ensures w.log[i].campaign in w.cells.Keys {
      LoggedCampaignsExist(w.log, w.log[i]);
    }
    PositionsListDeposits(w.log, db, a);
    DepositsByCampaign(w.log, w.cells.Keys, a);
  }

  // After every run, of the database that folding its log once leaves; the statuses are
  // those of the contract.
  lemma {:induction false} PortfolioInvested(acts: seq<Act>, shapes: nat -> Shape, a: Address)
    ensures var w := Run(Genesis(), acts);
            var db := ProcessAll(Service(EmptyDb(), []), Wire(w.log, shapes)).db;
            && Linked(db) && ListsDeposits(PortfolioOf(db, a).positions, w.log, db, a)
            && PortfolioOf(db, a).totalInvested == Sum(DepositsMade(w.log, w.cells.Keys, a))
            && forall id :: id in w.cells ==>
                 Decimal(id) in db.campaigns && db.campaigns[Decimal(id)].status == Shown(w.cells[id].campaign.status)
  {
    var w := Run(Genesis(), acts);
    var db := ProcessAll(Service(EmptyDb(), []), Wire(w.log, shapes)).db;
    FoldIsTabled(acts, shapes);
    PortfolioListsDeposits(acts, db, a);
    TableMirrorsEscrow(acts, shapes);
    forall id | id in w.cells
      ensures Decimal(id) in db.campaigns && db.campaigns[Decimal(id)].status == Shown(w.cells[id].campaign.status)
    {
      assert Agrees(RowOf(db, Decimal(id)), w.cells[id].campaign, Overcount(Project(w.log, id)));
    }
  }
}
