// What the analytics replay shows, compared with the contract.

module AnalyticsMirror {
  import opened EscrowTypes
  import opened Campaigns
  import opened Accounting
  import opened Lifecycle
  import opened Chain
  import opened Solvency
  import opened Sums
  import opened EventWire
  import opened Analytics
  import LogFold

  // ------------------------------------------------------------ volumes

  // The daily volumes add up to the total volume.
  lemma {:induction false} DaysAddUp(items: seq<Item>)
    ensures Sum(FeedAll(items).volumeByDay) == FeedAll(items).totalVolume
  {
    if items != [] {
      var b, x := FeedAll(items[..|items| - 1]), items[|items| - 1];
      DaysAddUp(items[..|items| - 1]);
      if x.campaign != "" && x.event.ContribReceived? {
        var day := Day(x.event.timestamp);
        SumUpdate(b.volumeByDay, day, Volume(b.volumeByDay, day) + x.event.amount);
      }
    }
  }

  function PointSum(points: seq<(int, int)>): int {
    if points == [] then 0 else PointSum(points[..|points| - 1]) + points[|points| - 1].1
  }

  lemma {:induction false} SeriesAddsUp(points: seq<(int, int)>, days: map<int, int>)
    requires IsSeries(points, days)
    ensures PointSum(points) == Sum(days)
    decreases |points|
  {
    if points == [] {
      if forall d :: d !in days {
        assert days == map[];
      }
    } else {
      var init, last := points[..|points| - 1], points[|points| - 1];
      var rest := days - {last.0};
      forall d | d in rest ensures HasDay(init, d) {
        var i :| 0 <= i < |points| && points[i].0 == d;
        assert init[i].0 == d;
      }
      SeriesAddsUp(init, rest);
      SumRemove(days, last.0);
    }
  }

  lemma {:induction false} VolumeSeriesIsSeries(points: seq<(int, int)>, items: seq<Item>)
    requires IsVolumeSeries(points, items)
    ensures IsSeries(points, FeedAll(items).volumeByDay)
  {
    var days := FeedAll(items).volumeByDay;
    forall day ensures (day in days <==> AnyOn(items, day)) && Volume(days, day) == VolumeOn(items, day) {
      BoardOfItems(items, day, "");
    }
    forall i | 0 <= i < |points| ensures points[i].0 in days && points[i].1 == days[points[i].0] {
      assert HasDay(points, points[i].0);
    }
  }

  // ------------------------------------------------------------ one campaign

  function AccStep(acc: Option<Acc>, e: Event): Option<Acc> {
    if e.CampaignCreated? then Some(Acc(e.target, Active))
    else if acc.None? then None
    else Some(acc.value.(status := StatusAfter(acc.value.status, e)))
  }

  function AccFold(t: seq<Event>): Option<Acc> {
    if t == [] then None else AccStep(AccFold(t[..|t| - 1]), t[|t| - 1])
  }

  // Whether any contribution moved tokens.
  function Deposited(t: seq<Event>): bool {
    t != [] && (Deposited(t[..|t| - 1]) || t[|t| - 1].ContribReceived?)
  }

  // The replay follows every status, except that reconciled contributions alone
  // leave it at Active.
  function Replayed(s: CampaignStatus, deposited: bool): CampaignStatus {
    if s.Funding? && !deposited then Active else s
  }

  ghost predicate AccMatches(l: Life) {
    AccFold(l.trace) == Some(Acc(l.cell.campaign.target, Replayed(l.cell.campaign.status, Deposited(l.trace))))
    && (l.cell.campaign.status.Active? ==> !Deposited(l.trace))
  }

  lemma AccSnoc(t: seq<Event>, e: Event)
    ensures AccFold(t + [e]) == AccStep(AccFold(t), e)
    ensures Deposited(t + [e]) <==> Deposited(t) || e.ContribReceived?
  {
  }

  // What a step's events do to the replayed status.
  lemma {:induction false} StatusFollows(c: Cell, e: Env, op: Op, deposited: bool)
    requires Sound(c) && !op.Fund? && Attempt(c, e, op).Some? && (c.campaign.status.Active? ==> !deposited)
    ensures var x := Attempt(c, e, op).value;
            && |x.events| == 1 && !x.events[0].ContribReceived? && !x.events[0].CampaignCreated?
            && StatusAfter(Replayed(c.campaign.status, deposited), x.events[0])
                 == Replayed(x.cell.campaign.status, deposited)
            && !x.cell.campaign.status.Active?
  {
  }

  lemma AccOnOther(l: Life, e: Env, op: Op)
    requires AccMatches(l) && Sound(l.cell) && !op.Fund? && Attempt(l.cell, e, op).Some?
    ensures AccMatches(Advance(l, Try(e, op)))
  {
    var x := Attempt(l.cell, e, op).value;
    StatusFollows(l.cell, e, op, Deposited(l.trace));
    FixedFields(l.cell, e, op);
    AccSnoc(l.trace, x.events[0]);
    assert x.events == [x.events[0]];
  }

  lemma AccOnFund(l: Life, e: Env, investor: Address, amount: int)
    requires AccMatches(l) && FundStep(l.cell, e, investor, amount).Some?
    ensures AccMatches(Advance(l, Try(e, Fund(investor, amount))))
  {
    var x := FundStep(l.cell, e, investor, amount).value;
    AccSnoc(l.trace, x.events[0]);
    if |x.events| == 2 {
      AccSnoc(l.trace + [x.events[0]], x.events[1]);
      assert l.trace + x.events == l.trace + [x.events[0]] + [x.events[1]];
    } else {
      assert x.events == [x.events[0]];
    }
  }

  lemma {:induction false} LivedAccMatches(b: Birth, tries: seq<Try>)
    requires b.Valid()
    ensures AccMatches(Lived(b, tries))
  {
    if tries == [] {
      AccSnoc([], b.Trace()[0]);
      assert [] + b.Trace() == b.Trace();
    } else {
      var l := Lived(b, tries[..|tries| - 1]);
      var t := tries[|tries| - 1];
      LivedAccMatches(b, tries[..|tries| - 1]);
      LivedSound(b, tries[..|tries| - 1]);
      AccOnStep(l, t);
    }
  }

  lemma {:induction false} AccOnStep(l: Life, t: Try)
    requires AccMatches(l) && Sound(l.cell)
    ensures AccMatches(Advance(l, t))
  {
    if Attempt(l.cell, t.env, t.op).Some? {
      match t.op {
        case Fund(investor, amount) => AccOnFund(l, t.env, investor, amount);
        case _ => AccOnOther(l, t.env, t.op);
      }
    }
  }

  // ------------------------------------------------------------ the whole log

  function ItemOf(e: LogEntry): Item { Item(e.ledger, Decimal(e.campaign), e.event) }

  function Items(log: seq<LogEntry>): seq<Item> {
    if log == [] then [] else Items(log[..|log| - 1]) + [ItemOf(log[|log| - 1])]
  }

  lemma {:induction false} ItemsAt(log: seq<LogEntry>)
    ensures |Items(log)| == |log|
    ensures forall i :: 0 <= i < |log| ==> Items(log)[i] == ItemOf(log[i])
  {
    if log != [] {
      ItemsAt(log[..|log| - 1]);
    }
  }

  function BoardOf(log: seq<LogEntry>): Board { FeedAll(Items(log)) }

  lemma BoardSnoc(log: seq<LogEntry>, e: LogEntry)
    ensures BoardOf(log + [e]) == Feed(BoardOf(log), ItemOf(e))
  {
  }

  function AccOf(b: Board, campaign: string): Option<Acc> {
    if campaign in b.campaigns then Some(b.campaigns[campaign]) else None
  }

  lemma NumeralsAreNotEmpty(n: nat)
    ensures Decimal(n) != ""
  {
  }

  // The accumulator of each campaign is the fold of the campaign's own events.
  lemma {:induction false} BoardHoldsAccs(log: seq<LogEntry>, c: nat)
    ensures AccOf(BoardOf(log), Decimal(c)) == AccFold(Project(log, c))
  {
    if log != [] {
      var init, e := log[..|log| - 1], log[|log| - 1];
      assert init + [e] == log;
      BoardHoldsAccs(init, c);
      BoardSnoc(init, e);
      ProjectAppend(init, e, c);
      NumeralsAreNotEmpty(e.campaign);
      if e.campaign == c {
        AccSnoc(Project(init, c), e.event);
      } else if Decimal(e.campaign) == Decimal(c) {
        DecimalInjective(e.campaign, c);
      }
    }
  }

  // Nothing but campaigns of the log is on the board.
  lemma {:induction false} BoardKeys(log: seq<LogEntry>, k: string)
    requires k in BoardOf(log).campaigns
    ensures exists c: nat :: Decimal(c) == k
  {
    var init, e := log[..|log| - 1], log[|log| - 1];
    assert init + [e] == log;
    BoardSnoc(init, e);
    if k in BoardOf(init).campaigns {
      BoardKeys(init, k);
    }
  }

  function LogSum(log: seq<LogEntry>, f: Event -> int): int {
    if log == [] then 0 else LogSum(log[..|log| - 1], f) + f(log[|log| - 1].event)
  }

  lemma {:induction false} BoardVolume(log: seq<LogEntry>)
    ensures BoardOf(log).totalVolume == LogSum(log, AmountReceived)
  {
    if log != [] {
      var init, e := log[..|log| - 1], log[|log| - 1];
      assert init + [e] == log;
      BoardVolume(init);
      BoardSnoc(init, e);
      NumeralsAreNotEmpty(e.campaign);
    }
  }

  function ReceivedIn(t: seq<Event>): int { EventSum(t, AmountReceived) }

  // A quantity of each of these campaigns, read off its events.
  ghost function ByCampaign(log: seq<LogEntry>, ids: set<nat>, f: seq<Event> -> int): map<nat, int> {
    map id | id in ids :: f(Project(log, id))
  }

  ghost predicate Within(log: seq<LogEntry>, ids: set<nat>) {
    forall i :: 0 <= i < |log| ==> log[i].campaign in ids
  }

  lemma WithinPrefix(log: seq<LogEntry>, e: LogEntry, ids: set<nat>)
    requires Within(log + [e], ids)
    ensures Within(log, ids) && e.campaign in ids
  {
    assert (log + [e])[|log|] == e;
    forall i | 0 <= i < |log| ensures log[i].campaign in ids {
      assert (log + [e])[i] == log[i];
    }
  }

  lemma ReceivedSnoc(log: seq<LogEntry>, e: LogEntry, id: nat)
    ensures ReceivedIn(Project(log + [e], id))
         == ReceivedIn(Project(log, id)) + if id == e.campaign then AmountReceived(e.event) else 0
  {
  }

  // The last event counts for its own campaign.
  lemma ReceivedOnSnoc(log: seq<LogEntry>, e: LogEntry, ids: set<nat>)
    requires e.campaign in ids
    ensures Sum(ByCampaign(log + [e], ids, ReceivedIn))
        == Sum(ByCampaign(log, ids, ReceivedIn)) + AmountReceived(e.event)
  {
    var before, after := ByCampaign(log, ids, ReceivedIn), ByCampaign(log + [e], ids, ReceivedIn);
    forall id | id in ids ensures after[id] == before[id] + if id == e.campaign then AmountReceived(e.event) else 0 {
      ReceivedSnoc(log, e, id);
    }
    SumRaise(after, before, e.campaign, AmountReceived(e.event));
  }

  // What was received according to the log was received by its campaigns.
  lemma {:induction false} ReceivedByCampaign(log: seq<LogEntry>, ids: set<nat>)
    requires Within(log, ids)
    ensures LogSum(log, AmountReceived) == Sum(ByCampaign(log, ids, ReceivedIn))
  {
    if log == [] {
      SumOfZeros(ByCampaign(log, ids, ReceivedIn));
    } else {
      var init, e := log[..|log| - 1], log[|log| - 1];
      assert log == init + [e];
      WithinPrefix(init, e, ids);
      ReceivedByCampaign(init, ids);
      ReceivedOnSnoc(init, e, ids);
    }
  }

  // ------------------------------------------------------------ runs of the contract

  ghost function Funding(w: State): map<nat, int> {
    map id | id in w.cells :: w.cells[id].campaign.totalFunded
  }

  lemma FundingSplits(acts: seq<Act>)
    ensures var w := Run(Genesis(), acts);
            var reconciled := ByCampaign(w.log, w.cells.Keys, ReconciledIn);
            && Sum(Funding(w)) == Sum(ByCampaign(w.log, w.cells.Keys, ReceivedIn)) + Sum(reconciled)
            && forall id :: id in reconciled ==> 0 <= reconciled[id]
  {
    var w := Run(Genesis(), acts);
    var received := ByCampaign(w.log, w.cells.Keys, ReceivedIn);
    var reconciled := ByCampaign(w.log, w.cells.Keys, ReconciledIn);
    forall id | id in w.cells
      ensures Funding(w)[id] == received[id] + reconciled[id] && 0 <= reconciled[id]
    {
      RunSound(acts, id);
    }
    SumPlus(received, reconciled, Funding(w));
  }

  lemma VolumeIsReceived(acts: seq<Act>)
    ensures var w := Run(Genesis(), acts);
            BoardOf(w.log).totalVolume == Sum(ByCampaign(w.log, w.cells.Keys, ReceivedIn))
  {
    var w := Run(Genesis(), acts);
    NoStrayEvents(acts);
    forall i | 0 <= i < |w.log| ensures w.log[i].campaign in w.cells.Keys {
      LoggedCampaignsExist(w.log, w.log[i]);
    }
    BoardVolume(w.log);
    ReceivedByCampaign(w.log, w.cells.Keys);
  }

  // The total volume is what the campaigns record as funded, less what was only
  // reconciled; so it is the recorded funding exactly if nothing was reconciled.
  lemma VolumeIsFunding(acts: seq<Act>)
    ensures var w := Run(Genesis(), acts);
            var reconciled := ByCampaign(w.log, w.cells.Keys, ReconciledIn);
            && BoardOf(w.log).totalVolume == Sum(Funding(w)) - Sum(reconciled)
            && (BoardOf(w.log).totalVolume == Sum(Funding(w)) <==>
                 forall id :: id in reconciled ==> reconciled[id] == 0)
  {
    var w := Run(Genesis(), acts);
    FundingSplits(acts);
    VolumeIsReceived(acts);
    ZeroSum(ByCampaign(w.log, w.cells.Keys, ReconciledIn));
  }

  lemma ZeroSum(m: map<nat, int>)
    requires forall k :: k in m ==> 0 <= m[k]
    ensures Sum(m) == 0 <==> forall k :: k in m ==> m[k] == 0
  {
    if forall k :: k in m ==> m[k] == 0 {
      SumOfZeros(m);
    }
    forall k | k in m ensures m[k] <= Sum(m) {
      PartOfSum(m, k);
    }
  }

  // With fund_campaign as the only way to contribute, the total volume, the sum
  // of the daily volumes and the recorded funding are one and the same.
  lemma FundOnlyVolume(acts: seq<Act>, points: seq<(int, int)>)
    requires forall i :: 0 <= i < |acts| ==> !(acts[i].call.On? && acts[i].call.op.Receive?)
    requires IsVolumeSeries(points, Items(Run(Genesis(), acts).log))
    ensures var w := Run(Genesis(), acts);
            BoardOf(w.log).totalVolume == Sum(Funding(w)) == PointSum(points)
  {
    var w := Run(Genesis(), acts);
    forall id | id in w.cells ensures ReconciledIn(Project(w.log, id)) == 0 {
      NothingReconciled(acts, id);
    }
    VolumeIsFunding(acts);
    DaysAddUp(Items(w.log));
    VolumeSeriesIsSeries(points, Items(w.log));
    SeriesAddsUp(points, BoardOf(w.log).volumeByDay);
  }

  // The status that the analytics page shows for a campaign.
  function ShownStatus(w: State, id: nat): CampaignStatus
    requires id in w.cells
  {
    Replayed(w.cells[id].campaign.status, Deposited(Project(w.log, id)))
  }

  // One accumulator per campaign, with its target and its shown status.
  ghost predicate BoardMirrors(b: Board, w: State) {
    && (forall id: nat :: AccOf(b, Decimal(id)) ==
          if id in w.cells then Some(Acc(w.cells[id].campaign.target, ShownStatus(w, id))) else None)
    && (forall k :: k in b.campaigns ==> exists id: nat :: Decimal(id) == k)
  }

  // The board after a run has one accumulator per campaign, with its target and
  // its status, except for Active in place of Funding where nothing was deposited.
  lemma BoardMirrorsEscrow(acts: seq<Act>)
    ensures var w := Run(Genesis(), acts); BoardMirrors(BoardOf(w.log), w)
  {
    var w := Run(Genesis(), acts);
    NoStrayEvents(acts);
    forall id: nat
      ensures AccOf(BoardOf(w.log), Decimal(id)) ==
              if id in w.cells then Some(Acc(w.cells[id].campaign.target, ShownStatus(w, id))) else None
    {
      BoardHoldsAccs(w.log, id);
      if id in w.cells {
        var b, tries := Decompose(acts, id);
        LivedAccMatches(b, tries);
      }
    }
    forall k | k in BoardOf(w.log).campaigns ensures exists id: nat :: Decimal(id) == k {
      BoardKeys(w.log, k);
    }
  }

  // ------------------------------------------------------------ counts

  lemma {:induction false} NumeralsCount(ids: set<nat>)
    ensures |Numerals(ids)| == |ids|
    decreases |ids|
  {
    if ids != {} {
      var id :| id in ids;
      NumeralsCount(ids - {id});
      forall j | j in ids - {id} ensures Decimal(j) != Decimal(id) {
        if Decimal(j) == Decimal(id) { DecimalInjective(j, id); }
      }
      assert Numerals(ids) == Numerals(ids - {id}) + {Decimal(id)};
    }
  }

  function Showing(w: State, p: CampaignStatus -> bool): set<nat> {
    set id | id in w.cells && p(ShownStatus(w, id))
  }

  lemma CountedIsShown(b: Board, w: State, p: CampaignStatus -> bool, k: string)
    requires Keyed(b) && BoardMirrors(b, w) && k in With(b, p)
    ensures k in Numerals(Showing(w, p))
  {
    assert k in b.campaigns;
    var id: nat :| Decimal(id) == k;
    assert AccOf(b, Decimal(id)).Some?;
    assert id in Showing(w, p);
  }

  lemma ShownIsCounted(b: Board, w: State, p: CampaignStatus -> bool, id: nat)
    requires Keyed(b) && BoardMirrors(b, w) && id in Showing(w, p)
    ensures Decimal(id) in With(b, p)
  {
    assert AccOf(b, Decimal(id)).Some?;
  }

  lemma CountedAreShown(acts: seq<Act>, p: CampaignStatus -> bool)
    ensures var w := Run(Genesis(), acts);
            var b := BoardOf(w.log);
            Keyed(b) && With(b, p) == Numerals(Showing(w, p))
  {
    var w := Run(Genesis(), acts);
    var b := BoardOf(w.log);
    FeedAllKeyed(Items(w.log));
    BoardMirrorsEscrow(acts);
    forall k | k in With(b, p) ensures k in Numerals(Showing(w, p)) {
      CountedIsShown(b, w, p, k);
    }
    forall id | id in Showing(w, p) ensures Decimal(id) in With(b, p) {
      ShownIsCounted(b, w, p, id);
    }
  }

  // Each count on the page is the number of on-chain campaigns shown that way,
  // and the total is the number of campaigns.
  lemma {:induction false} CountsMatchChain(acts: seq<Act>, p: CampaignStatus -> bool)
    ensures var w := Run(Genesis(), acts);
            var b := BoardOf(w.log);
            |With(b, p)| == |Showing(w, p)| && |b.campaigns| == |w.cells|
  {
    CountedAreShown(acts, p);
    NumeralsCount(Showing(Run(Genesis(), acts), p));
    AllCounted(acts);
  }

  lemma {:induction false} AllCounted(acts: seq<Act>)
    ensures var w := Run(Genesis(), acts);
            BoardOf(w.log).campaigns.Keys == Numerals(w.cells.Keys) && |BoardOf(w.log).campaigns| == |w.cells|
  {
    var w := Run(Genesis(), acts);
    var b := BoardOf(w.log);
    var all := (s: CampaignStatus) => true;
    CountedAreShown(acts, all);
    NumeralsCount(w.cells.Keys);
    assert With(b, all) == b.campaigns.Keys;
    assert Showing(w, all) == w.cells.Keys;
  }

  // What the contract's campaigns ask for.
  ghost function Targets(w: State): map<nat, int> {
    map id | id in w.cells :: w.cells[id].campaign.target
  }

  lemma {:induction false} RenamedSum(m: map<nat, int>, r: map<string, int>)
    requires r.Keys == Numerals(m.Keys) && forall id :: id in m ==> r[Decimal(id)] == m[id]
    ensures Sum(r) == Sum(m)
    decreases |m|
  {
    if m == map[] {
      assert r == map[];
    } else {
      var id :| id in m;
      SumRemove(m, id);
      SumRemove(r, Decimal(id));
      forall j | j in m - {id} ensures Decimal(j) != Decimal(id) { SameName(j, id); }
      assert (r - {Decimal(id)}).Keys == Numerals((m - {id}).Keys);
      RenamedSum(m - {id}, r - {Decimal(id)});
    }
  }

  lemma {:induction false} TargetMatches(acts: seq<Act>, id: nat)
    requires id in Run(Genesis(), acts).cells
    ensures var w := Run(Genesis(), acts);
            && Decimal(id) in BoardOf(w.log).campaigns
            && BoardOf(w.log).campaigns[Decimal(id)].target == w.cells[id].campaign.target
  {
    BoardMirrorsEscrow(acts);
    assert AccOf(BoardOf(Run(Genesis(), acts).log), Decimal(id)).Some?;
  }

  lemma {:induction false} TargetsMatchChain(acts: seq<Act>)
    ensures var w := Run(Genesis(), acts); Sum(TargetsOf(BoardOf(w.log))) == Sum(Targets(w))
  {
    var w := Run(Genesis(), acts);
    AllCounted(acts);
    forall id | id in w.cells
      ensures Decimal(id) in TargetsOf(BoardOf(w.log)) && TargetsOf(BoardOf(w.log))[Decimal(id)] == Targets(w)[id]
    {
      TargetMatches(acts, id);
    }
    RenamedSum(Targets(w), TargetsOf(BoardOf(w.log)));
  }

  // So the page shows, of the log of any run, the number of campaigns, the average of
  // their targets, how many are still collecting and how many have failed, as the
  // contract has them; and the volumes, whose total is the deposits made.
  lemma {:induction false} PageMatchesChain(acts: seq<Act>, m: Metrics)
    requires var items := Items(Run(Genesis(), acts).log);
             var b := FeedAll(SortByLedger(items));
             DescribesEvents(m, items, b) && DescribesRates(m, b) && DescribesOutcomes(m, b)
    ensures var w := Run(Genesis(), acts);
            && m.totalCampaigns == |w.cells|
            && IsQuotient(m.averageCampaignSize, Sum(Targets(w)) as real, |w.cells|)
            && m.stillRaising == |Showing(w, Is(Active))| + |Showing(w, Is(CampaignStatus.Funding))|
            && m.failed == |Showing(w, Is(Failed))|
            && m.totalVolume == Sum(ByCampaign(w.log, w.cells.Keys, ReceivedIn))
  {
    ReplayOrder(acts);
    TargetsMatchChain(acts);
    CountsMatchChain(acts, Is(Active));
    CountsMatchChain(acts, Is(CampaignStatus.Funding));
    CountsMatchChain(acts, Is(Failed));
    VolumeIsReceived(acts);
    BoardOfItems(Items(Run(Genesis(), acts).log), 0, "");
  }

  // The log of a run needs no sorting: the page replays it as it is.
  lemma ReplayOrder(acts: seq<Act>)
    ensures var log := Run(Genesis(), acts).log; SortByLedger(Items(log)) == Items(log)
  {
    var log := Run(Genesis(), acts).log;
    LogFold.RunInLedgerOrder(acts);
    ItemsAt(log);
    SortOfSorted(Items(log));
  }

  // ------------------------------------------------------------ statuses and targets

  // Whether every campaign with this status has met its target.
  ghost predicate GuaranteesTarget(s: CampaignStatus) {
    forall b: Birth, tries: seq<Try> :: b.Valid() && Lived(b, tries).cell.campaign.status == s ==>
      Lived(b, tries).cell.campaign.totalFunded == b.target
  }

  // Not so for two of the six statuses that are counted as having reached it: a
  // campaign can be disputed, and resolved, while it is still collecting.
  lemma ReachedGuaranteesIff(s: CampaignStatus)
    requires Reached(s)
    ensures GuaranteesTarget(s) <==> !s.Disputed? && !s.Resolved?
  {
    if s.Disputed? || s.Resolved? {
      var b, tries := EarlyDispute(s);
      assert Lived(b, tries).cell.campaign.totalFunded != b.target;
    } else {
      forall b: Birth, tries: seq<Try> | b.Valid() && Lived(b, tries).cell.campaign.status == s
        ensures Lived(b, tries).cell.campaign.totalFunded == b.target
      {
        LivedSound(b, tries);
      }
    }
  }

  lemma EarlyDispute(s: CampaignStatus) returns (b: Birth, tries: seq<Try>)
    requires s.Disputed? || s.Resolved?
    ensures b.Valid() && Lived(b, tries).cell.campaign.status == s
            && Lived(b, tries).cell.campaign.totalFunded < b.target
  {
    var farmer: Address := if SELF == "a" then "b" else "a";
    var e := Env(1, {farmer}, Some(farmer), 0, 0);
    var dispute := Try(e, Op.Dispute(farmer, "weather"));
    b := Birth(farmer, 100, "token", 10, "maize", 0);
    assert Lived(b, []).cell == b.Cell();
    tries := [dispute];
    assert tries[..0] == [];
    var disputed := Lived(b, tries);
    assert disputed.cell.campaign.status.Disputed? && disputed.cell.campaign.totalFunded == 0;
    if s.Resolved? {
      var resolve := Try(e, Resolve(FullRefund, 0));
      tries := [dispute, resolve];
      assert tries[..1] == [dispute];
      assert Lived(b, tries) == Advance(disputed, resolve);
    }
  }
}
