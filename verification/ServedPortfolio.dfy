// The portfolio as the indexer's database shows it, in which events of the log may have
// come repeatedly: what it shows of a campaign, and when that can exceed what the
// contract pays.

module ServedPortfolio {
  import opened EscrowTypes
  import opened Campaigns
  import opened Accounting
  import opened Lifecycle
  import opened Chain
  import opened Solvency
  import opened Payouts
  import opened Sums
  import opened EventWire
  import opened EventFold
  import opened Replay
  import opened DbMirror
  import opened LogFold
  import opened Redelivery
  import opened LateRows
  import opened Portfolio
  import opened UnknownPayee
  import opened Indexer
  import opened IndexerSafety
  import opened Delivery

  // ------------------------------------------------------------ rates

  // Each deposit's share of one pool in one total, against the share of all deposits
  // together of another pool in another total.
  ghost predicate NeverAbove(p: int, larger: int, pool: int, total: int)
    requires 0 < total && 0 < larger
  {
    forall xs :: NonNegative(xs) ==> FloorSum(xs, p, larger) <= SumOf(xs) * pool / total
  }

  // Floors of the smaller rate stay below, whatever is added to the deposits.
  lemma {:induction false} LowerRate(xs: seq<int>, slot: int, p: int, larger: int, pool: int, total: int)
    requires 0 < total && 0 < larger && 0 <= pool && p * total <= pool * larger
    requires 0 <= SumOf(xs) <= slot
    ensures FloorSum(xs, p, larger) <= slot * pool / total
  {
    var q := FloorSum(xs, p, larger);
    FloorSumScaled(xs, p, larger);
    assert larger * q <= SumOf(xs) * p;
    Rescaled(q, SumOf(xs), p, larger, pool, total);
    MulMono(pool, SumOf(xs), slot);
    IntoQuotient(q, slot * pool, total);
  }

  lemma {:induction false} Rescaled(q: int, x: int, p: int, larger: int, pool: int, total: int)
    requires 0 < total && 0 < larger && 0 <= x && p * total <= pool * larger && larger * q <= x * p
    ensures total * q <= x * pool
  {
    MulMono(total, larger * q, x * p);
    MulMono(x, p * total, pool * larger);
    assert larger * (total * q) == total * (larger * q);
    assert total * (x * p) == x * (p * total);
    assert x * (pool * larger) == larger * (x * pool);
    Cancel(larger, total * q, x * pool);
  }

  lemma Cancel(t: int, a: int, b: int)
    requires 0 < t && t * a <= t * b
    ensures a <= b
  {
    if b < a { MulMono(t, b + 1, a); }
  }

  lemma IntoQuotient(q: int, x: int, total: int)
    requires 0 < total && total * q <= x
    ensures q <= x / total
  {
    if x / total < q { MulMono(total, x / total + 1, q); }
  }

  lemma {:induction false} SumOfNonNegative(xs: seq<int>)
    requires NonNegative(xs)
    ensures 0 <= SumOf(xs)
  {
    if xs != [] {
      SumOfNonNegative(xs[..|xs| - 1]);
    }
  }

  // Whatever the deposits, nothing is above exactly if the rate is not.
  lemma {:induction false} NeverAboveIff(p: int, larger: int, pool: int, total: int)
    requires 0 < total && 0 < larger && 0 <= pool
    ensures NeverAbove(p, larger, pool, total) <==> p * total <= pool * larger
  {
    if p * total <= pool * larger {
      forall xs | NonNegative(xs) ensures FloorSum(xs, p, larger) <= SumOf(xs) * pool / total {
        SumOfNonNegative(xs);
        LowerRate(xs, SumOf(xs), p, larger, pool, total);
      }
    } else {
      var x := total * larger;
      MulMono(larger, 1, total);
      OneDeposit(x, p, larger);
      assert x * p == larger * (total * p) && x * pool == total * (larger * pool);
      Exact(larger, total * p);
      Exact(total, larger * pool);
      assert SumOf([x]) * pool / total == larger * pool;
      assert NonNegative([x]);
    }
  }

  lemma OneDeposit(x: int, p: int, total: int)
    requires 0 < total
    ensures FloorSum([x], p, total) == x * p / total && SumOf([x]) == x
  {
    assert [x][..0] == [];
  }

  lemma Exact(t: int, a: int)
    requires 0 < t
    ensures t * a / t == a
  {
    IntoQuotient(a, t * a, t);
    if a < t * a / t { MulMono(t, a + 1, t * a / t); }
  }

  // A higher rate shows as soon as it makes a unit per deposit.
  lemma {:induction false} HigherRate(xs: seq<int>, p: int, larger: int, pool: int, total: int)
    requires 0 < total && 0 < larger && xs != []
    requires |xs| * (total * larger) <= SumOf(xs) * (p * total - pool * larger)
    ensures SumOf(xs) * pool / total < FloorSum(xs, p, larger)
  {
    var q, x, n := FloorSum(xs, p, larger), SumOf(xs), |xs|;
    FloorSumScaled(xs, p, larger);
    Spread(x, p, larger, pool, total);
    Gap(q, x * p, x * pool, n, larger, total);
    if q <= x * pool / total {
      MulMono(total, q, x * pool / total);
    }
  }

  lemma Spread(x: int, p: int, larger: int, pool: int, total: int)
    ensures x * (p * total - pool * larger) == total * (x * p) - larger * (x * pool)
  {
    assert x * (p * total) == total * (x * p) && x * (pool * larger) == larger * (x * pool);
  }

  lemma {:induction false} Gap(q: int, a: int, c: int, n: int, larger: int, total: int)
    requires 0 < total && 0 < larger && 0 < n
    requires a <= larger * q + n * (larger - 1) && n * (total * larger) <= total * a - larger * c
    ensures c < total * q
  {
    MulMono(total, a, larger * q + n * (larger - 1));
    Regroup(q, n, larger, total);
    MulMono(total, 1, n);
    if total * q <= c { MulMono(larger, total * q, c); }
  }

  lemma Regroup(q: int, n: int, larger: int, total: int)
    ensures total * (larger * q + n * (larger - 1)) == larger * (total * q) + n * (total * larger) - total * n
  {
    assert total * (larger * q) == larger * (total * q);
    assert total * (n * (larger - 1)) == n * (total * larger) - total * n;
  }

  // ------------------------------------------------------------ what the page divides

  // The pool that the page divides, after n settlements were written and, the status
  // having been taken back, none is shown.
  function PagePool(k: Campaign, n: nat, back: bool): int {
    if k.status.Settled? then (if back then 0 else n * k.returnable) else Pool(k)
  }

  // Not more per unit deposited than the contract pays: the settlement is not shown, has
  // been written once, returns nothing, or has been written twice where the total is
  // doubled as well.
  predicate InRate(k: Campaign, over: int, n: nat, back: bool) {
    !k.status.Settled? || back || n <= 1 || k.returnable == 0 || (n == 2 && over == k.totalFunded)
  }

  lemma {:induction false} InRateIff(k: Campaign, over: int, n: nat, back: bool)
    requires 0 < k.totalFunded && 0 <= over <= k.totalFunded && 0 <= k.refundable && 0 <= k.returnable
    ensures PagePool(k, n, back) * k.totalFunded <= Pool(k) * (k.totalFunded + over) <==> InRate(k, over, n, back)
  {
    var r, t := k.returnable, k.totalFunded;
    if k.status.Settled? && !back {
      assert (n * r) * t == r * (n * t);
      if n <= 1 {
        MulMono(t, n, 1);
        MulMono(r, n * t, t + over);
      } else {
        MulMono(t, 2, n);
        if n > 2 { MulMono(t, 3, n); }
        if r > 0 && r * (n * t) <= r * (t + over) { Cancel(r, n * t, t + over); }
      }
    } else {
      ShareNonNegative(Pool(k), over, 1);
      assert Pool(k) * (t + over) == Pool(k) * t + Pool(k) * over;
      MulMono(t, 0, Pool(k));
    }
  }

  // ------------------------------------------------------------ one campaign

  // What deliveries of the run's log leave in a campaign's row, as far as the page
  // uses it.
  lemma {:induction false} PoolOfRow(acts: seq<Act>, events: seq<ParsedEvent>, id: nat)
    requires id in Run(Genesis(), acts).cells && Delivers(events, Run(Genesis(), acts).log)
    ensures var w := Run(Genesis(), acts);
            var row, k := RowOf(After(events).db, Decimal(id)), w.cells[id].campaign;
            var n, back := Settlements(events, Decimal(id)), HarvestLast(events, Decimal(id));
            && row.Some? && row.value.totalFunded == k.totalFunded + Overcount(Project(w.log, id))
            && RowPool(row.value) == PagePool(k, n, back)
            && (k.status.Settled? ==> 0 < n && row.value.status == if back then Harvested else Settled)
  {
    var w := Run(Genesis(), acts);
    var b, tries := Decompose(acts, id);
    LivedRowMatches(b, tries);
    LivedPhases(b, tries);
    DeliveriesKeep(events, w.log);
    assert ColumnsHold(After(events), w.log, id);
    LateColumns(events, w.log, id);
    RowsPool(RowOf(After(events).db, Decimal(id)), Lived(b, tries), Settlements(events, Decimal(id)),
             HarvestLast(events, Decimal(id)));
  }

  lemma {:induction false} RowsPool(row: Option<Row>, l: Life, n: nat, back: bool)
    requires RowMatches(l) && PhaseTells(l)
    requires RowTallied(row, l.trace, n, back) && Columns(row) == Columns(RowFold(l.trace))
    ensures var k := l.cell.campaign;
            && row.Some? && row.value.totalFunded == k.totalFunded + Overcount(l.trace)
            && RowPool(row.value) == PagePool(k, n, back)
            && (k.status.Settled? ==> 0 < n && row.value.status == if back then Harvested else Settled)
  {
  }

  lemma {:induction false} ServedTabled(acts: seq<Act>, events: seq<ParsedEvent>)
    requires Delivers(events, Run(Genesis(), acts).log)
    ensures Tabled(After(events).db, Run(Genesis(), acts))
  {
    var w := Run(Genesis(), acts);
    DeliveriesKeep(events, w.log);
    forall id | id in w.cells ensures Decimal(id) in After(events).db.campaigns {
      PoolOfRow(acts, events, id);
    }
  }

  // What the page shows an investor of a campaign: for each deposit the share of its
  // pool in the total with the double count, rounded down.
  ghost function ShownOf(k: Campaign, over: int, n: nat, back: bool, xs: seq<int>): int
    requires 0 < k.totalFunded + over
  {
    FloorSum(xs, PagePool(k, n, back), k.totalFunded + over)
  }

  // The investor's deposits alone, and these in the campaign's own total, make a rate
  // that is higher by a unit per deposit.
  predicate UnitsAbove(k: Campaign, over: int, n: nat, back: bool, xs: seq<int>) {
    xs != [] &&
    |xs| * (k.totalFunded * (k.totalFunded + over))
      <= SumOf(xs) * (PagePool(k, n, back) * k.totalFunded - Pool(k) * (k.totalFunded + over))
  }

  // What is shown against the claim.
  ghost predicate Near(c: Cell, t: seq<Event>, a: Address, n: nat, back: bool, shown: int) {
    var k, over, xs := c.campaign, Overcount(t), Received(t, a);
    && 0 < k.totalFunded && 0 <= over <= k.totalFunded && 0 <= shown == ShownOf(k, over, n, back, xs)
    && (InRate(k, over, n, back) ==> shown <= ClaimOf(c, t, a))
    && (UnitsAbove(k, over, n, back, xs) && Reconciled(t, a) == 0 ==> ClaimOf(c, t, a) < shown)
  }

  lemma {:induction false} ShareNear(xs: seq<int>, slot: int, k: Campaign, over: int, n: nat, back: bool)
    requires NonNegative(xs) && 0 <= SumOf(xs) <= slot
    requires 0 < k.totalFunded && 0 <= over <= k.totalFunded && 0 <= k.refundable && 0 <= k.returnable
    ensures InRate(k, over, n, back) ==> ShownOf(k, over, n, back, xs) <= slot * Pool(k) / k.totalFunded
    ensures UnitsAbove(k, over, n, back, xs) && SumOf(xs) == slot ==>
              slot * Pool(k) / k.totalFunded < ShownOf(k, over, n, back, xs)
  {
    var p, larger := PagePool(k, n, back), k.totalFunded + over;
    InRateIff(k, over, n, back);
    if InRate(k, over, n, back) {
      LowerRate(xs, slot, p, larger, Pool(k), k.totalFunded);
    }
    if UnitsAbove(k, over, n, back, xs) {
      HigherRate(xs, p, larger, Pool(k), k.totalFunded);
    }
  }

  lemma {:induction false} NearClaim(l: Life, row: Row, n: nat, back: bool, a: Address)
    requires Sound(l.cell) && Booked(l) && AtMostOneTwice(l) && a in Deposits(l.trace)
    requires NonNegative(Received(l.trace, a)) && 0 <= Reconciled(l.trace, a)
    requires row.totalFunded == l.cell.campaign.totalFunded + Overcount(l.trace)
    requires RowPool(row) == PagePool(l.cell.campaign, n, back)
    ensures Near(l.cell, l.trace, a, n, back, EstimateSum(Received(l.trace, a), row))
  {
    var k, t, xs := l.cell.campaign, l.trace, Received(l.trace, a);
    ClaimOfDeposit(l, a);
    DepositsSplit(t, a);
    SumOfNonNegative(xs);
    ShareNonNegative(Deposits(t)[a], Pool(k), k.totalFunded);
    MulMono(k.returnable, 0, n);
    EstimatesAreFloors(xs, row);
    FloorSumAntitone(xs, RowPool(row), row.totalFunded, row.totalFunded);
    ShareNear(xs, Deposits(t)[a], k, Overcount(t), n, back);
  }

  lemma {:induction false} CampaignNear(acts: seq<Act>, id: nat, a: Address, row: Row, n: nat, back: bool)
    requires id in Run(Genesis(), acts).cells && a in Deposits(Project(Run(Genesis(), acts).log, id))
    requires var w := Run(Genesis(), acts);
             && row.totalFunded == w.cells[id].campaign.totalFunded + Overcount(Project(w.log, id))
             && RowPool(row) == PagePool(w.cells[id].campaign, n, back)
    ensures var w := Run(Genesis(), acts);
            var t := Project(w.log, id);
            Near(w.cells[id], t, a, n, back, EstimateSum(Received(t, a), row))
  {
    var b, tries := Decompose(acts, id);
    LivedSound(b, tries);
    LivedAtMostOneTwice(b, tries);
    LivedAmounts(b, tries, a);
    NearClaim(Lived(b, tries), row, n, back, a);
  }

  lemma {:induction false} DeliveredNear(acts: seq<Act>, events: seq<ParsedEvent>, id: nat, a: Address)
    requires id in Run(Genesis(), acts).cells && Delivers(events, Run(Genesis(), acts).log)
    requires a in Deposits(Project(Run(Genesis(), acts).log, id))
    ensures var w, db := Run(Genesis(), acts), After(events).db;
            Linked(db) && Near(w.cells[id], Project(w.log, id), a, Settlements(events, Decimal(id)),
                               HarvestLast(events, Decimal(id)),
                               ClaimableIn(PortfolioOf(db, a).positions, Decimal(id)))
  {
    var db := After(events).db;
    ServedTabled(acts, events);
    PortfolioIsDeposits(acts, db, id, a);
    PoolOfRow(acts, events, id);
    CampaignNear(acts, id, a, db.campaigns[Decimal(id)], Settlements(events, Decimal(id)),
                 HarvestLast(events, Decimal(id)));
  }

  // ------------------------------------------------------------ the indexer's database

  // While the database is up, once everything on the chain has been handed over, the
  // hand-overs are deliveries of the whole log.
  lemma {:induction false} ServedAll(acts: seq<Act>, shapes: nat -> Shape, ids: seq<string>, ticks: seq<Tick>,
                                     base: int, answers: seq<bool>)
    requires Watches(acts, shapes, ids, ticks, base)
    requires |answers| == |RunTicks(ids, ticks).Handed()| && AllAnswered(answers)
    requires forall e :: e in RunTicks(ids, ticks).chain ==> e in RunTicks(ids, ticks).Handed()
    ensures var y, log := RunTicks(ids, ticks), Run(Genesis(), acts).log;
            Delivers(ParsedOf(y.Handed()), log) && Served(y, answers) == After(ParsedOf(y.Handed()))
  {
    var log := Run(Genesis(), acts).log;
    var n := ServedFollows(acts, shapes, ids, ticks, base, answers);
    AllInFront(acts, shapes, ids, ticks, base);
    assert log[..n] == log;
  }

  // Then the page shows a contributor the shares of the pool that the settlements
  // written make, within the claim if their rate is within the contract's, and above it
  // where it is higher by a unit per deposit. The rate is within the contract's, so
  // that no deposits whatever could be shown above their claim, exactly if the
  // settlement is not shown, has been written once, returns nothing, or has been
  // written twice where the total is doubled as well.
  lemma {:induction false} ServedWithinClaim(acts: seq<Act>, shapes: nat -> Shape, ids: seq<string>, ticks: seq<Tick>,
                                             base: int, answers: seq<bool>, id: nat, a: Address)
    requires Watches(acts, shapes, ids, ticks, base)
    requires |answers| == |RunTicks(ids, ticks).Handed()| && AllAnswered(answers)
    requires forall e :: e in RunTicks(ids, ticks).chain ==> e in RunTicks(ids, ticks).Handed()
    requires id in Run(Genesis(), acts).cells && a in Deposits(Project(Run(Genesis(), acts).log, id))
    ensures var w, events := Run(Genesis(), acts), ParsedOf(RunTicks(ids, ticks).Handed());
            var db, k := Served(RunTicks(ids, ticks), answers).db, w.cells[id].campaign;
            var over := Overcount(Project(w.log, id));
            var n, back := Settlements(events, Decimal(id)), HarvestLast(events, Decimal(id));
            && Linked(db)
            && Near(w.cells[id], Project(w.log, id), a, n, back, ClaimableIn(PortfolioOf(db, a).positions, Decimal(id)))
            && (NeverAbove(PagePool(k, n, back), k.totalFunded + over, Pool(k), k.totalFunded) <==>
                  InRate(k, over, n, back))
  {
    var w, events := Run(Genesis(), acts), ParsedOf(RunTicks(ids, ticks).Handed());
    ServedAll(acts, shapes, ids, ticks, base, answers);
    DeliveredNear(acts, events, id, a);
    RatesIff(acts, id, Settlements(events, Decimal(id)), HarvestLast(events, Decimal(id)));
  }

  lemma {:induction false} RatesIff(acts: seq<Act>, id: nat, n: nat, back: bool)
    requires id in Run(Genesis(), acts).cells
    requires var w := Run(Genesis(), acts);
             && 0 < w.cells[id].campaign.totalFunded
             && 0 <= Overcount(Project(w.log, id)) <= w.cells[id].campaign.totalFunded
    ensures var w := Run(Genesis(), acts);
            var k, over := w.cells[id].campaign, Overcount(Project(w.log, id));
            NeverAbove(PagePool(k, n, back), k.totalFunded + over, Pool(k), k.totalFunded) <==> InRate(k, over, n, back)
  {
    var w := Run(Genesis(), acts);
    var k, over := w.cells[id].campaign, Overcount(Project(w.log, id));
    var b, tries := Decompose(acts, id);
    LivedSound(b, tries);
    NeverAboveIff(PagePool(k, n, back), k.totalFunded + over, Pool(k), k.totalFunded);
    InRateIff(k, over, n, back);
  }

  // Where no repeat does harm, every rate is within the contract's.
  lemma {:induction false} HarmlessInRate(acts: seq<Act>, events: seq<ParsedEvent>, id: nat)
    requires id in Run(Genesis(), acts).cells && Delivers(events, Run(Genesis(), acts).log) && NoneHarmful(events)
    ensures var w := Run(Genesis(), acts);
            InRate(w.cells[id].campaign, Overcount(Project(w.log, id)), Settlements(events, Decimal(id)),
                   HarvestLast(events, Decimal(id)))
  {
    var w := Run(Genesis(), acts);
    var b, tries := Decompose(acts, id);
    SteadyIffHarmless(events, w.log);
    SteadyNow(events);
    TableHoldsLog(w.log);
    assert RowHolds(After(ReadAll(w.log)), w.log, id);
    LivedRowMatches(b, tries);
    LivedPhases(b, tries);
    PoolOfRow(acts, events, id);
    SameReturns(w.cells[id].campaign, Settlements(events, Decimal(id)));
  }

  lemma SameReturns(k: Campaign, n: nat)
    ensures n * k.returnable == k.returnable ==> n == 1 || k.returnable == 0
  {
  }

  // ------------------------------------------------------------ the total

  // The page's total is within what the contract pays over all campaigns wherever no
  // campaign is shown at a higher rate; so it is where no repeat does harm.
  lemma {:induction false} ServedTotalWithinClaims(acts: seq<Act>, shapes: nat -> Shape, ids: seq<string>,
                                                   ticks: seq<Tick>, base: int, answers: seq<bool>, a: Address)
    requires Watches(acts, shapes, ids, ticks, base)
    requires |answers| == |RunTicks(ids, ticks).Handed()| && AllAnswered(answers)
    requires forall e :: e in RunTicks(ids, ticks).chain ==> e in RunTicks(ids, ticks).Handed()
    ensures var w, events := Run(Genesis(), acts), ParsedOf(RunTicks(ids, ticks).Handed());
            var db := Served(RunTicks(ids, ticks), answers).db;
            && Linked(db) && 0 <= PortfolioOf(db, a).totalClaimable
            && (AllInRate(w, events) ==> PortfolioOf(db, a).totalClaimable <= Sum(ClaimsOf(w, a)))
            && (NoneHarmful(events) ==> AllInRate(w, events))
  {
    var w, events := Run(Genesis(), acts), ParsedOf(RunTicks(ids, ticks).Handed());
    ServedAll(acts, shapes, ids, ticks, base, answers);
    DeliveredTotal(acts, events, a);
    if NoneHarmful(events) {
      forall id | id in w.cells ensures InRateAt(w, events, id) {
        HarmlessInRate(acts, events, id);
      }
    }
  }

  ghost predicate InRateAt(w: State, events: seq<ParsedEvent>, id: nat)
    requires id in w.cells
  {
    InRate(w.cells[id].campaign, Overcount(Project(w.log, id)), Settlements(events, Decimal(id)),
           HarvestLast(events, Decimal(id)))
  }

  ghost predicate AllInRate(w: State, events: seq<ParsedEvent>) {
    forall id :: id in w.cells ==> InRateAt(w, events, id)
  }

  lemma {:induction false} DeliveredTotal(acts: seq<Act>, events: seq<ParsedEvent>, a: Address)
    requires Delivers(events, Run(Genesis(), acts).log)
    ensures var w, db := Run(Genesis(), acts), After(events).db;
            && Linked(db) && 0 <= PortfolioOf(db, a).totalClaimable
            && (AllInRate(w, events) ==> PortfolioOf(db, a).totalClaimable <= Sum(ClaimsOf(w, a)))
  {
    var w, db := Run(Genesis(), acts), After(events).db;
    ServedTabled(acts, events);
    TotalIsShown(acts, db, a);
    var shown, claims := ShownIn(PortfolioOf(db, a).positions, w.cells.Keys), ClaimsOf(w, a);
    forall id | id in w.cells ensures 0 <= shown[id] && (InRateAt(w, events, id) ==> shown[id] <= claims[id])
                                      && 0 <= claims[id] {
      DeliveredBelow(acts, events, id, a);
    }
    SumNonNegative(shown);
    if AllInRate(w, events) {
      SumSubmap(shown, claims);
    }
  }

  lemma {:induction false} DeliveredBelow(acts: seq<Act>, events: seq<ParsedEvent>, id: nat, a: Address)
    requires id in Run(Genesis(), acts).cells && Delivers(events, Run(Genesis(), acts).log)
    ensures var w, db := Run(Genesis(), acts), After(events).db;
            && Linked(db)
            && (var shown := ClaimableIn(PortfolioOf(db, a).positions, Decimal(id));
                var claim := ClaimOf(w.cells[id], Project(w.log, id), a);
                0 <= shown && 0 <= claim && (InRateAt(w, events, id) ==> shown <= claim))
  {
    var t := Project(Run(Genesis(), acts).log, id);
    ClaimAtLeast(acts, id, a);
    if a in Deposits(t) {
      DeliveredNear(acts, events, id, a);
    } else {
      ServedTabled(acts, events);
      PortfolioIsDeposits(acts, After(events).db, id, a);
      NothingReceived(t, a);
    }
  }

  lemma {:induction false} ClaimAtLeast(acts: seq<Act>, id: nat, a: Address)
    requires id in Run(Genesis(), acts).cells
    ensures var w := Run(Genesis(), acts); 0 <= ClaimOf(w.cells[id], Project(w.log, id), a)
  {
    var b, tries := Decompose(acts, id);
    LivedSound(b, tries);
    ClaimOfLife(Lived(b, tries), a);
  }

  lemma {:induction false} ClaimOfLife(l: Life, a: Address)
    requires Sound(l.cell) && Booked(l)
    ensures 0 <= ClaimOf(l.cell, l.trace, a)
  {
    if a in Deposits(l.trace) {
      ClaimOfDeposit(l, a);
      ShareNonNegative(Deposits(l.trace)[a], Pool(l.cell.campaign), l.cell.campaign.totalFunded);
    }
  }

  // Whatever came again, the page lists an investor's deposits and adds them up.
  lemma {:induction false} ServedInvested(acts: seq<Act>, shapes: nat -> Shape, ids: seq<string>, ticks: seq<Tick>,
                                          base: int, answers: seq<bool>, a: Address)
    requires Watches(acts, shapes, ids, ticks, base)
    requires |answers| == |RunTicks(ids, ticks).Handed()| && AllAnswered(answers)
    requires forall e :: e in RunTicks(ids, ticks).chain ==> e in RunTicks(ids, ticks).Handed()
    ensures var w, db := Run(Genesis(), acts), Served(RunTicks(ids, ticks), answers).db;
            && Linked(db) && ListsDeposits(PortfolioOf(db, a).positions, w.log, db, a)
            && PortfolioOf(db, a).totalInvested == Sum(DepositsMade(w.log, w.cells.Keys, a))
  {
    ServedAll(acts, shapes, ids, ticks, base, answers);
    ServedTabled(acts, ParsedOf(RunTicks(ids, ticks).Handed()));
    PortfolioListsDeposits(acts, Served(RunTicks(ids, ticks), answers).db, a);
  }

  // ------------------------------------------------------------ a witness

  lemma {:induction false} LogDelivers(log: seq<LogEntry>)
    requires Orderly(log)
    ensures Delivers(ReadAll(log), log)
  {
    FirstsOfLog(log);
    ReadAllAt(log);
    forall p | p in ReadAll(log) ensures p.id < |log| && p == Read(log[p.id]) {
      var i :| 0 <= i < |log| && ReadAll(log)[i] == p;
    }
    SameIds(log, ReadAll(log));
  }

  lemma {:induction false} FirstsOfLog(log: seq<LogEntry>)
    requires Orderly(log)
    ensures Firsts(ReadAll(log)) == ReadAll(log)
  {
    if log != [] {
      var init, last := log[..|log| - 1], log[|log| - 1];
      OrderlyLast(log);
      FirstsOfLog(init);
      NotYetDelivered(init, last.id);
      Replay.FirstsSnoc(ReadAll(init), Read(last));
    }
  }

  lemma {:induction false} NotYetDelivered(log: seq<LogEntry>, id: nat)
    requires Orderly(log) && |log| <= id
    ensures !Delivered(ReadAll(log), id)
  {
    ReadAllAt(log);
  }

  lemma {:induction false} AgainDelivers(events: seq<ParsedEvent>, log: seq<LogEntry>, i: nat)
    requires Delivers(events, log) && i < |log|
    ensures Delivers(events + [Read(log[i])], log)
  {
    var all := events + [Read(log[i])];
    LoggedIsDelivered(events, log, i);
    Replay.FirstsSnoc(events, Read(log[i]));
    forall p | p in all ensures p.id < |log| && p == Read(log[p.id]) {
      if p in events {
        var k :| 0 <= k < |events| && events[k] == p;
        DeliveredIsLogged(events, log, k);
      }
    }
    SameIds(log, all);
  }

  // The trace with or without the deposit of 100, and whether CampaignFunded is last.
  ghost predicate TraceIs(t: seq<Event>, a: Address, paid: bool, funded: bool) {
    && (funded ==> t != [] && t[|t| - 1].CampaignFunded?)
    && Received(t, a) == (if paid then [100] else []) && Overcount(t) == (if paid then 100 else 0)
    && Deposits(t) == if paid then map[a := 100] else map[]
  }

  lemma {:induction false} QuietTrace(t: seq<Event>, e: Event, a: Address, paid: bool, funded: bool)
    requires TraceIs(t, a, paid, funded) && !e.ContribReceived? && !e.ContribReconciled?
    ensures TraceIs(t + [e], a, paid, e.CampaignFunded?)
  {
    ReceivedSnoc(t, e, a);
    FoldSnoc(t, e);
    assert (t + [e])[..|t|] == t;
  }

  lemma {:induction false} PaidTrace(t: seq<Event>, a: Address)
    requires TraceIs(t, a, false, true)
    ensures TraceIs(t + [ContribReceived(a, 0, 100)], a, true, false)
  {
    var e := ContribReceived(a, 0, 100);
    ReceivedSnoc(t, e, a);
    FoldSnoc(t, e);
    assert (t + [e])[..|t|] == t;
  }

  lemma {:induction false} TraceUpTo(k: Cast, n: nat)
    requires n <= 6
    ensures TraceIs(Project(Entries(k)[..n], 1), k.ann, 4 <= n, n == 3)
  {
    if 0 < n {
      var e := Entries(k);
      TraceUpTo(k, n - 1);
      assert e[..n] == e[..n - 1] + [e[n - 1]];
      ProjectAppend(e[..n - 1], e[n - 1], 1);
      if n == 4 {
        PaidTrace(Project(e[..n - 1], 1), k.ann);
      } else if n != 2 {
        QuietTrace(Project(e[..n - 1], 1), e[n - 1].event, k.ann, 4 <= n - 1, false);
      }
    }
  }

  lemma SettledTrace(k: Cast)
    ensures var t := Project(Entries(k), 1);
            Received(t, k.ann) == [100] && Overcount(t) == 100 && k.ann in Deposits(t) && Deposits(t)[k.ann] == 100
  {
    TraceUpTo(k, 6);
    assert Entries(k)[..6] == Entries(k);
  }

  // The settlement once more, as long as its payee is no user.
  lemma {:induction false} SettledOnceMore(k: Cast, s: Service)
    requires 5 !in s.db.transactions && k.bob !in s.db.users && Decimal(1) in s.db.campaigns
    ensures var s', row := Absorb(s, Read(Entries(k)[5])), s.db.campaigns[Decimal(1)];
            && 5 !in s'.db.transactions && s'.db.users == s.db.users
            && RowOf(s'.db, Decimal(1)) == Some(row.(status := Settled, returnable := row.returnable + 60))
  {
  }

  // A sole investor of 100 who can claim 60 is shown 90 once the settlement, whose
  // payee is no user, has come three times.
  lemma {:induction false} ShownAboveClaim(k: Cast)
    requires k.Outside() && k.admin !in {k.farmer, k.ann} && k.bob !in {k.farmer, k.ann}
    ensures var w := Run(Genesis(), SettledRun(k));
            && |w.log| == 6 && 1 in w.cells && ClaimOf(w.cells[1], Project(w.log, 1), k.ann) == 60
            && (var events := ReadAll(w.log) + [Read(w.log[5])] + [Read(w.log[5])];
                && Delivers(events, w.log) && Linked(After(events).db)
                && ClaimableIn(PortfolioOf(After(events).db, k.ann).positions, Decimal(1)) == 90)
  {
    var w := Run(Genesis(), SettledRun(k));
    SettledRunLog(k);
    RunOrderly(SettledRun(k));
    SettledTrace(k);
    TableMirrors(SettledRun(k), 1);
    ThriceDelivered(k);
    ShownThrice(SettledRun(k), k.ann, ReadAll(w.log) + [Read(w.log[5])] + [Read(w.log[5])]);
    SixtyDue(k);
  }

  // Processed once, the row is right.
  lemma {:induction false} TableMirrors(acts: seq<Act>, id: nat)
    requires id in Run(Genesis(), acts).cells
    ensures var w := Run(Genesis(), acts);
            var row := RowOf(After(ReadAll(w.log)).db, Decimal(id));
            row.Some? && row.value.returnable == w.cells[id].campaign.returnable
  {
    var w := Run(Genesis(), acts);
    RunOrderly(acts);
    TableHoldsLog(w.log);
    assert RowHolds(After(ReadAll(w.log)), w.log, id);
    var b, tries := Decompose(acts, id);
    LivedRowMatches(b, tries);
  }

  lemma {:induction false} ShownThrice(acts: seq<Act>, a: Address, events: seq<ParsedEvent>)
    requires 1 in Run(Genesis(), acts).cells && Delivers(events, Run(Genesis(), acts).log)
    requires var w := Run(Genesis(), acts);
             && w.cells[1].campaign.totalFunded == 100
             && Overcount(Project(w.log, 1)) == 100 && Received(Project(w.log, 1), a) == [100]
    requires var row := RowOf(After(events).db, Decimal(1));
             row.Some? && row.value.status == Settled && row.value.returnable == 180
    ensures var db := After(events).db;
            Linked(db) && ClaimableIn(PortfolioOf(db, a).positions, Decimal(1)) == 90
  {
    ServedTabled(acts, events);
    PortfolioIsDeposits(acts, After(events).db, 1, a);
    PoolOfRow(acts, events, 1);
    Ninety(After(events).db.campaigns[Decimal(1)]);
  }

  lemma {:induction false} ThriceDelivered(k: Cast)
    requires Orderly(Entries(k)) && k.admin !in {k.farmer, k.ann} && k.bob !in {k.farmer, k.ann}
    requires var once := RowOf(After(ReadAll(Entries(k))).db, Decimal(1)); once.Some? && once.value.returnable == 60
    ensures var e := Entries(k);
            var events := ReadAll(e) + [Read(e[5])] + [Read(e[5])];
            var row := RowOf(After(events).db, Decimal(1));
            Delivers(events, e) && row.Some? && row.value.status == Settled && row.value.returnable == 180
  {
    var e := Entries(k);
    LogDelivers(e);
    AgainDelivers(ReadAll(e), e, 5);
    AgainDelivers(ReadAll(e) + [Read(e[5])], e, 5);
    TableHoldsLog(e);
    KeepsFour(k);
    SeenUpTo(k, 6);
    assert e[..6] == e;
    AfterSnoc(ReadAll(e), Read(e[5]));
    AfterSnoc(ReadAll(e) + [Read(e[5])], Read(e[5]));
    SettledOnceMore(k, After(ReadAll(e)));
    SettledOnceMore(k, Absorb(After(ReadAll(e)), Read(e[5])));
  }

  lemma Ninety(row: Row)
    requires row.status == Settled && row.returnable == 180 && row.totalFunded == 200
    ensures EstimateSum([100], row) == 90
  {
    assert [100][..0] == [];
  }

  lemma {:induction false} SixtyDue(k: Cast)
    requires k.Outside()
    ensures var w := Run(Genesis(), SettledRun(k));
            1 in w.cells && ClaimOf(w.cells[1], Project(w.log, 1), k.ann) == 60
  {
    var w := Run(Genesis(), SettledRun(k));
    SettledRunLog(k);
    SettledTrace(k);
    var b, tries := Decompose(SettledRun(k), 1);
    LivedSound(b, tries);
    ClaimOfDeposit(LifeOf(w, 1), k.ann);
  }
}
