// computeAnalyticsMetrics: replaying a list of escrow events into per-campaign
// accumulators and the figures that the charts show.

module Analytics {
  import opened EscrowTypes
  import opened Sums

  // A decoded event as the client fetches it.
  datatype Item = Item(ledger: nat, campaign: string, event: Event)

  // ------------------------------------------------------------ sorting by ledger

  ghost predicate Ascending(items: seq<Item>) {
    forall i, j :: 0 <= i < j < |items| ==> items[i].ledger <= items[j].ledger
  }

  // Behind every item of the same or an earlier ledger.
  function Insert(sorted: seq<Item>, e: Item): seq<Item> {
    if sorted == [] || sorted[|sorted| - 1].ledger <= e.ledger then sorted + [e]
    else Insert(sorted[..|sorted| - 1], e) + [sorted[|sorted| - 1]]
  }

  // JavaScript's stable sort by ledger.
  function SortByLedger(items: seq<Item>): seq<Item> {
    if items == [] then [] else Insert(SortByLedger(items[..|items| - 1]), items[|items| - 1])
  }

  // The items of one ledger, in the order in which they come.
  function OfLedger(items: seq<Item>, ledger: nat): seq<Item> {
    if items == [] then []
    else
      var init, last := OfLedger(items[..|items| - 1], ledger), items[|items| - 1];
      if last.ledger == ledger then init + [last] else init
  }

  lemma {:induction false} InsertKeepsItems(sorted: seq<Item>, e: Item)
    ensures multiset(Insert(sorted, e)) == multiset(sorted) + multiset{e}
  {
    if sorted != [] && e.ledger < sorted[|sorted| - 1].ledger {
      assert sorted == sorted[..|sorted| - 1] + [sorted[|sorted| - 1]];
      InsertKeepsItems(sorted[..|sorted| - 1], e);
    }
  }

  lemma {:induction false} InsertAscends(sorted: seq<Item>, e: Item)
    requires Ascending(sorted)
    ensures Ascending(Insert(sorted, e))
    ensures sorted != [] && e.ledger < sorted[|sorted| - 1].ledger
            ==> forall i :: 0 <= i < |Insert(sorted, e)| ==> Insert(sorted, e)[i].ledger <= sorted[|sorted| - 1].ledger
  {
    if sorted != [] && e.ledger < sorted[|sorted| - 1].ledger {
      InsertAscends(sorted[..|sorted| - 1], e);
    }
  }

  lemma {:induction false} InsertIsStable(sorted: seq<Item>, e: Item, ledger: nat)
    requires Ascending(sorted)
    ensures OfLedger(Insert(sorted, e), ledger) == OfLedger(sorted, ledger) + if e.ledger == ledger then [e] else []
  {
    if sorted != [] && e.ledger < sorted[|sorted| - 1].ledger {
      var init, last := sorted[..|sorted| - 1], sorted[|sorted| - 1];
      InsertIsStable(init, e, ledger);
      OfLedgerSnoc(Insert(init, e), last, ledger);
    } else {
      OfLedgerSnoc(sorted, e, ledger);
    }
  }

  lemma OfLedgerSnoc(items: seq<Item>, e: Item, ledger: nat)
    ensures OfLedger(items + [e], ledger) == OfLedger(items, ledger) + if e.ledger == ledger then [e] else []
  {
  }

  lemma {:induction false} SortAscends(items: seq<Item>)
    ensures Ascending(SortByLedger(items))
  {
    if items != [] {
      SortAscends(items[..|items| - 1]);
      InsertAscends(SortByLedger(items[..|items| - 1]), items[|items| - 1]);
    }
  }

  // The sort orders by ledger, keeps every item, and keeps the order within a ledger.
  lemma {:induction false} SortIsStable(items: seq<Item>, ledger: nat)
    ensures Ascending(SortByLedger(items)) && multiset(SortByLedger(items)) == multiset(items)
    ensures OfLedger(SortByLedger(items), ledger) == OfLedger(items, ledger)
  {
    SortAscends(items);
    if items != [] {
      var init, last := items[..|items| - 1], items[|items| - 1];
      assert multiset(items) == multiset(init) + multiset{last} by { assert items == init + [last]; }
      SortIsStable(init, ledger);
      InsertKeepsItems(SortByLedger(init), last);
      InsertIsStable(SortByLedger(init), last, ledger);
    }
  }

  lemma {:induction false} SortOfSorted(items: seq<Item>)
    requires Ascending(items)
    ensures SortByLedger(items) == items
  {
    if items != [] {
      var init, last := items[..|items| - 1], items[|items| - 1];
      assert Ascending(init);
      SortOfSorted(init);
      assert Insert(init, last) == init + [last];
    }
  }

  // ------------------------------------------------------------ the replay

  datatype Acc = Acc(target: int, status: CampaignStatus)

  // Accumulators by campaign, keys in insertion order, and volumes by day.
  datatype Board = Board(keys: seq<string>, campaigns: map<string, Acc>, volumeByDay: map<int, int>, totalVolume: int)

  const SECONDS_PER_DAY: int := 86400

  function Day(timestamp: int): int { timestamp / SECONDS_PER_DAY }

  function StatusAfter(s: CampaignStatus, e: Event): CampaignStatus {
    match e
    case ContribReceived(_, _, _) => if s.Active? then Funding else s
    case CampaignFunded(_, _) => Funded
    case TrancheReleased(_, _, _) => if s.Funded? then InProduction else s
    case CampaignFailed(_, _) => Failed
    case HarvestReported(_, _, _) => Harvested
    case DisputeOpened(_, _, _, _) => Disputed
    case DisputeResolved(_, _, _, _, _, _) => Resolved
    case CampaignSettled(_, _, _, _) => Settled
    case _ => s
  }

  function Volume(days: map<int, int>, day: int): int {
    if day in days then days[day] else 0
  }

  function Feed(b: Board, x: Item): Board {
    if x.campaign == "" then b
    else if x.event.CampaignCreated? then
      b.(keys := if x.campaign in b.campaigns then b.keys else b.keys + [x.campaign],
         campaigns := b.campaigns[x.campaign := Acc(x.event.target, Active)])
    else
      var b' := if !x.event.ContribReceived? then b
                else
                  var day := Day(x.event.timestamp);
                  b.(totalVolume := b.totalVolume + x.event.amount,
                     volumeByDay := b.volumeByDay[day := Volume(b.volumeByDay, day) + x.event.amount]);
      if x.campaign !in b'.campaigns then b'
      else
        var acc := b'.campaigns[x.campaign];
        b'.(campaigns := b'.campaigns[x.campaign := acc.(status := StatusAfter(acc.status, x.event))])
  }

  function FeedAll(items: seq<Item>): Board {
    if items == [] then Board([], map[], map[], 0) else Feed(FeedAll(items[..|items| - 1]), items[|items| - 1])
  }

  // The keys list each accumulator exactly once.
  ghost predicate Keyed(b: Board) {
    && (forall k :: k in b.keys <==> k in b.campaigns)
    && (forall i, j :: 0 <= i < j < |b.keys| ==> b.keys[i] != b.keys[j])
  }

  lemma {:induction false} FeedAllKeyed(items: seq<Item>)
    ensures Keyed(FeedAll(items))
  {
    if items != [] {
      FeedAllKeyed(items[..|items| - 1]);
      FeedKeyed(FeedAll(items[..|items| - 1]), items[|items| - 1]);
    }
  }

  lemma FeedKeyed(b: Board, x: Item)
    requires Keyed(b)
    ensures Keyed(Feed(b, x))
  {
  }

  function Accs(b: Board): seq<Acc>
    requires Keyed(b)
  {
    seq(|b.keys|, i requires 0 <= i < |b.keys| => b.campaigns[b.keys[i]])
  }

  // ------------------------------------------------------------ counts

  const STATUSES: seq<CampaignStatus> :=
    [Active, Funding, Funded, InProduction, Harvested, Disputed, Resolved, Settled, Failed]

  predicate Reached(s: CampaignStatus) {
    s.Funded? || s.InProduction? || s.Harvested? || s.Disputed? || s.Resolved? || s.Settled?
  }

  function Count(accs: seq<Acc>, p: CampaignStatus -> bool): nat {
    if accs == [] then 0 else Count(accs[..|accs| - 1], p) + if p(accs[|accs| - 1].status) then 1 else 0
  }

  function Is(s: CampaignStatus): CampaignStatus -> bool { x => x == s }

  // Every campaign has exactly one of the nine statuses.
  lemma {:induction false} StatusesAddUp(accs: seq<Acc>)
    ensures Count(accs, Is(Active)) + Count(accs, Is(Funding)) + Count(accs, Is(Funded)) + Count(accs, Is(InProduction))
            + Count(accs, Is(Harvested)) + Count(accs, Is(Disputed)) + Count(accs, Is(Resolved))
            + Count(accs, Is(Settled))
            + Count(accs, Is(Failed)) == |accs|
  {
    if accs != [] {
      StatusesAddUp(accs[..|accs| - 1]);
    }
  }

  // What is neither counted as having reached its target nor failed is still
  // collecting, so that no outcome slice is ever negative.
  lemma {:induction false} OutcomesAddUp(accs: seq<Acc>)
    ensures |accs| - Count(accs, Reached) - Count(accs, Is(Failed))
        == Count(accs, Is(Active)) + Count(accs, Is(Funding))
  {
    if accs != [] {
      OutcomesAddUp(accs[..|accs| - 1]);
    }
  }

  // The campaigns with such a status, all of them or among some keys.
  ghost function With(b: Board, p: CampaignStatus -> bool): set<string> {
    set k | k in b.campaigns && p(b.campaigns[k].status)
  }

  ghost function WithIn(campaigns: map<string, Acc>, keys: seq<string>, p: CampaignStatus -> bool): set<string> {
    set k | k in keys && k in campaigns && p(campaigns[k].status)
  }

  function AccsAt(campaigns: map<string, Acc>, keys: seq<string>): seq<Acc>
    requires forall k :: k in keys ==> k in campaigns
  {
    seq(|keys|, i requires 0 <= i < |keys| => campaigns[keys[i]])
  }

  lemma {:induction false} CountWithIn(campaigns: map<string, Acc>, keys: seq<string>, p: CampaignStatus -> bool)
    requires Distinct(keys) && forall k :: k in keys ==> k in campaigns
    ensures Count(AccsAt(campaigns, keys), p) == |WithIn(campaigns, keys, p)|
  {
    if keys == [] {
      assert WithIn(campaigns, keys, p) == {};
    } else {
      var init, last := keys[..|keys| - 1], keys[|keys| - 1];
      assert keys == init + [last] && last !in init;
      CountWithIn(campaigns, init, p);
      assert AccsAt(campaigns, keys)[..|init|] == AccsAt(campaigns, init);
      assert WithIn(campaigns, keys, p)
          == WithIn(campaigns, init, p) + if p(campaigns[last].status) then {last} else {};
    }
  }

  lemma {:induction false} CountIsWith(b: Board, p: CampaignStatus -> bool)
    requires Keyed(b)
    ensures Count(Accs(b), p) == |With(b, p)|
  {
    CountWithIn(b.campaigns, b.keys, p);
    assert AccsAt(b.campaigns, b.keys) == Accs(b);
    assert WithIn(b.campaigns, b.keys, p) == With(b, p);
  }

  lemma {:induction false} AccsAreCampaigns(b: Board)
    requires Keyed(b)
    ensures |Accs(b)| == |b.campaigns|
  {
    var all := (s: CampaignStatus) => true;
    CountIsWith(b, all);
    CountAll(Accs(b), all);
    assert With(b, all) == b.campaigns.Keys;
  }

  lemma {:induction false} CountAll(accs: seq<Acc>, all: CampaignStatus -> bool)
    requires forall s :: all(s)
    ensures Count(accs, all) == |accs|
  {
    if accs != [] {
      CountAll(accs[..|accs| - 1], all);
    }
  }

  // What the campaigns ask for.
  ghost function TargetsOf(b: Board): map<string, int> {
    map k | k in b.campaigns :: b.campaigns[k].target
  }

  // ------------------------------------------------------------ size distribution

  function Least(xs: seq<int>): int
    requires xs != []
  {
    if |xs| == 1 then xs[0]
    else
      var m := Least(xs[..|xs| - 1]);
      if xs[|xs| - 1] < m then xs[|xs| - 1] else m
  }

  function Greatest(xs: seq<int>): int
    requires xs != []
  {
    if |xs| == 1 then xs[0]
    else
      var m := Greatest(xs[..|xs| - 1]);
      if m < xs[|xs| - 1] then xs[|xs| - 1] else m
  }

  lemma {:induction false} Extremes(xs: seq<int>)
    requires xs != []
    ensures Least(xs) in xs && Greatest(xs) in xs
    ensures forall x :: x in xs ==> Least(xs) <= x <= Greatest(xs)
  {
    if |xs| > 1 {
      var init, last := xs[..|xs| - 1], xs[|xs| - 1];
      assert xs == init + [last];
      Extremes(init);
    }
  }

  // The buckets split [low, high] into count equal ranges; the last includes high.
  ghost predicate InBucket(x: int, low: int, high: int, count: nat, i: nat) {
    && i < count && i * (high - low) <= (x - low) * count
    && ((x - low) * count < (i + 1) * (high - low) || i == count - 1)
  }

  function BucketOf(x: int, low: int, high: int, count: nat): int
    requires low < high
  {
    var index := (x - low) * count / (high - low);
    if count - 1 < index then count - 1 else index
  }

  lemma BucketIsRange(x: int, low: int, high: int, count: nat, i: nat)
    requires low < high && low <= x <= high && 0 < count
    ensures 0 <= BucketOf(x, low, high, count) < count
    ensures InBucket(x, low, high, count, i) <==> i == BucketOf(x, low, high, count)
  {
    ClippedDivision((x - low) * count, high - low, count, i);
    MulMono(count, x - low, high - low);
    MulMono(count, 0, x - low);
  }

  // Division clipped to the last of count ranges, from 0 up to count divisors.
  lemma ClippedDivision(n: int, d: int, count: nat, i: nat)
    requires 0 < d && 0 < count
    ensures 0 <= n <= d * count ==>
              && 0 <= n / d <= count
              && (i == (if count - 1 < n / d then count - 1 else n / d) <==>
                    i < count && i * d <= n && (n < (i + 1) * d || i == count - 1))
  {
    if 0 <= n <= d * count {
      DivisionIsRange(n, d, i);
      DivisionIsRange(n, d, count + 1);
      assert (count + 1) * d == d * count + d;
    }
  }

  lemma DivisionIsRange(n: int, d: int, i: int)
    requires 0 < d && 0 <= n
    ensures 0 <= n / d
    ensures i * d <= n < (i + 1) * d <==> i == n / d
    ensures i <= n / d <==> i * d <= n
  {
    var q := n / d;
    assert q * d <= n < q * d + d;
    if i < q { MulMono(d, i + 1, q); }
    if q < i { MulMono(d, q + 1, i); }
    assert (i + 1) * d == i * d + d && (q + 1) * d == q * d + d;
  }

  ghost function CountIn(xs: seq<int>, low: int, high: int, count: nat, i: nat): nat {
    if xs == [] then 0
    else CountIn(xs[..|xs| - 1], low, high, count, i) + if InBucket(xs[|xs| - 1], low, high, count, i) then 1 else 0
  }

  function Total(counts: seq<nat>): nat {
    if counts == [] then 0 else Total(counts[..|counts| - 1]) + counts[|counts| - 1]
  }

  lemma {:induction false} TotalOnIncrement(counts: seq<nat>, i: nat)
    requires i < |counts|
    ensures Total(counts[i := counts[i] + 1]) == Total(counts) + 1
  {
    var init := counts[..|counts| - 1];
    var after := counts[i := counts[i] + 1];
    if i < |init| {
      assert after[..|counts| - 1] == init[i := init[i] + 1];
      TotalOnIncrement(init, i);
    } else {
      assert after[..|counts| - 1] == init;
    }
  }

  lemma {:induction false} TotalOfZeros(counts: seq<nat>)
    requires forall i :: 0 <= i < |counts| ==> counts[i] == 0
    ensures Total(counts) == 0
  {
    if counts != [] {
      TotalOfZeros(counts[..|counts| - 1]);
    }
  }

  ghost predicate Tallies(buckets: seq<nat>, xs: seq<int>, low: int, high: int) {
    && Total(buckets) == |xs|
    && forall i :: 0 <= i < |buckets| ==> buckets[i] == CountIn(xs, low, high, |buckets|, i)
  }

  // Counting one more amount, in the one bucket whose range it is in.
  lemma TallyOne(buckets: seq<nat>, xs: seq<int>, x: int, low: int, high: int)
    requires Tallies(buckets, xs, low, high) && buckets != [] && low < high && low <= x <= high
    ensures var i := BucketOf(x, low, high, |buckets|);
            0 <= i < |buckets| && Tallies(buckets[i := buckets[i] + 1], xs + [x], low, high)
  {
    BucketIsRange(x, low, high, |buckets|, 0);
    var index := BucketOf(x, low, high, |buckets|);
    TotalOnIncrement(buckets, index);
    forall i | 0 <= i < |buckets|
      ensures CountIn(xs + [x], low, high, |buckets|, i)
           == CountIn(xs, low, high, |buckets|, i) + if i == index then 1 else 0
    {
      BucketIsRange(x, low, high, |buckets|, i);
      assert (xs + [x])[..|xs|] == xs;
    }
  }

  // Up to five equal ranges from the smallest to the greatest amount: each bucket
  // counts the amounts in its range, and every amount is counted once.
  ghost predicate IsDistribution(sizes: seq<nat>, amounts: seq<int>) {
    && Total(sizes) == |amounts|
    && (amounts == [] ==> sizes == [])
    && (amounts != [] && Least(amounts) == Greatest(amounts) ==> sizes == [|amounts|])
    && (amounts != [] && Least(amounts) < Greatest(amounts) ==>
          && |sizes| == (if |amounts| < 5 then |amounts| else 5)
          && forall i :: 0 <= i < |sizes| ==>
               sizes[i] == CountIn(amounts, Least(amounts), Greatest(amounts), |sizes|, i))
  }

  method BuildSizeDistribution(amounts: seq<int>) returns (sizes: seq<nat>)
    ensures IsDistribution(sizes, amounts)
  {
    if |amounts| == 0 {
      return [];
    }
    var low, high := Least(amounts), Greatest(amounts);
    Extremes(amounts);
    if low == high {
      assert [|amounts|][..0] == [];
      return [|amounts|];
    }
    var count := if |amounts| < 5 then |amounts| else 5;
    var buckets := seq(count, _ => 0);
    TotalOfZeros(buckets);
    for k := 0 to |amounts|
      invariant |buckets| == count && Tallies(buckets, amounts[..k], low, high)
    {
      assert amounts[k] in amounts;
      TallyOne(buckets, amounts[..k], amounts[k], low, high);
      assert amounts[..k] + [amounts[k]] == amounts[..k + 1];
      var index := BucketOf(amounts[k], low, high, count);
      buckets := buckets[index := buckets[index] + 1];
    }
    assert amounts[..|amounts|] == amounts;
    return buckets;
  }

  // ------------------------------------------------------------ what the events themselves say

  // A deposit of this day, counted from the epoch, in a named campaign.
  predicate DepositOn(x: Item, day: int) {
    x.campaign != "" && x.event.ContribReceived? && 86400 * day <= x.event.timestamp < 86400 * (day + 1)
  }

  ghost function VolumeOn(items: seq<Item>, day: int): int {
    if items == [] then 0
    else
      var last := items[|items| - 1];
      VolumeOn(items[..|items| - 1], day) + if DepositOn(last, day) then last.event.amount else 0
  }

  ghost predicate AnyOn(items: seq<Item>, day: int) {
    exists i :: 0 <= i < |items| && DepositOn(items[i], day)
  }

  // All deposits in named campaigns.
  ghost function Deposits(items: seq<Item>): int {
    if items == [] then 0
    else
      var last := items[|items| - 1];
      Deposits(items[..|items| - 1])
      + if last.campaign != "" && last.event.ContribReceived? then last.event.amount else 0
  }

  predicate Creates(x: Item, campaign: string) {
    campaign != "" && x.campaign == campaign && x.event.CampaignCreated?
  }

  ghost predicate CreatedIn(items: seq<Item>, campaign: string) {
    exists i :: 0 <= i < |items| && Creates(items[i], campaign)
  }

  lemma {:induction false} DayIsRange(timestamp: int, day: int)
    ensures Day(timestamp) == day <==> 86400 * day <= timestamp < 86400 * (day + 1)
  {
  }

  lemma ItemsSnoc(items: seq<Item>, x: Item, day: int, campaign: string)
    ensures VolumeOn(items + [x], day) == VolumeOn(items, day) + if DepositOn(x, day) then x.event.amount else 0
    ensures AnyOn(items + [x], day) <==> AnyOn(items, day) || DepositOn(x, day)
    ensures CreatedIn(items + [x], campaign) <==> CreatedIn(items, campaign) || Creates(x, campaign)
    ensures Deposits(items + [x])
         == Deposits(items) + if x.campaign != "" && x.event.ContribReceived? then x.event.amount else 0
  {
    var all := items + [x];
    assert all[..|items|] == items && all[|items|] == x;
    if AnyOn(items, day) {
      var i :| 0 <= i < |items| && DepositOn(items[i], day);
      assert DepositOn(all[i], day);
    }
    if CreatedIn(items, campaign) {
      var i :| 0 <= i < |items| && Creates(items[i], campaign);
      assert Creates(all[i], campaign);
    }
  }

  // The board has a volume for exactly the days with a deposit, and it is that day's;
  // and an accumulator for exactly the campaigns that were created.
  lemma {:induction false} BoardOfItems(items: seq<Item>, day: int, campaign: string)
    ensures var b := FeedAll(items);
            && (day in b.volumeByDay <==> AnyOn(items, day)) && Volume(b.volumeByDay, day) == VolumeOn(items, day)
            && b.totalVolume == Deposits(items) && (campaign in b.campaigns <==> CreatedIn(items, campaign))
  {
    if items != [] {
      var init, x := items[..|items| - 1], items[|items| - 1];
      assert items == init + [x];
      BoardOfItems(init, day, campaign);
      ItemsSnoc(init, x, day, campaign);
      if x.event.ContribReceived? {
        DayIsRange(x.event.timestamp, day);
      }
    }
  }

  // Sorting changes none of this.
  ghost predicate SayTheSame(items: seq<Item>, others: seq<Item>, day: int, campaign: string) {
    && VolumeOn(items, day) == VolumeOn(others, day) && (AnyOn(items, day) <==> AnyOn(others, day))
    && (CreatedIn(items, campaign) <==> CreatedIn(others, campaign)) && Deposits(items) == Deposits(others)
  }

  lemma {:induction false} SameSnoc(items: seq<Item>, others: seq<Item>, x: Item, day: int, campaign: string)
    requires SayTheSame(items, others, day, campaign)
    ensures SayTheSame(items + [x], others + [x], day, campaign)
  {
    ItemsSnoc(items, x, day, campaign);
    ItemsSnoc(others, x, day, campaign);
  }

  lemma {:induction false} SwapSame(items: seq<Item>, x: Item, y: Item, day: int, campaign: string)
    ensures SayTheSame(items + [x] + [y], items + [y] + [x], day, campaign)
  {
    ItemsSnoc(items, x, day, campaign);
    ItemsSnoc(items, y, day, campaign);
    ItemsSnoc(items + [x], y, day, campaign);
    ItemsSnoc(items + [y], x, day, campaign);
  }

  lemma {:induction false} InsertKeeps(sorted: seq<Item>, e: Item, day: int, campaign: string)
    ensures SayTheSame(Insert(sorted, e), sorted + [e], day, campaign)
  {
    if sorted != [] && e.ledger < sorted[|sorted| - 1].ledger {
      var init, last := sorted[..|sorted| - 1], sorted[|sorted| - 1];
      InsertKeeps(init, e, day, campaign);
      SameSnoc(Insert(init, e), init + [e], last, day, campaign);
      SwapSame(init, e, last, day, campaign);
      assert sorted == init + [last];
    }
  }

  lemma {:induction false} SortKeeps(items: seq<Item>, day: int, campaign: string)
    ensures SayTheSame(SortByLedger(items), items, day, campaign)
  {
    if items != [] {
      var init, x := items[..|items| - 1], items[|items| - 1];
      SortKeeps(init, day, campaign);
      InsertKeeps(SortByLedger(init), x, day, campaign);
      SameSnoc(SortByLedger(init), init, x, day, campaign);
      SameTrans(SortByLedger(items), SortByLedger(init) + [x], init + [x], day, campaign);
      assert items == init + [x];
    } else {
      assert SortByLedger(items) == items;
    }
  }

  lemma SameTrans(items: seq<Item>, others: seq<Item>, third: seq<Item>, day: int, campaign: string)
    requires SayTheSame(items, others, day, campaign) && SayTheSame(others, third, day, campaign)
    ensures SayTheSame(items, third, day, campaign)
  {
  }

  // ------------------------------------------------------------ the metrics

  datatype Metrics = Metrics(
    totalCampaigns: nat,
    totalVolume: int,
    averageCampaignSize: real,
    fundingSuccessRatePercent: real,
    fundingVolumeOverTime: seq<(int, int)>,
    campaignsByStatus: seq<(CampaignStatus, nat)>,
    campaignSizeDistribution: seq<nat>,
    reachedTarget: nat,
    stillRaising: nat,
    failed: nat)

  function Targets(accs: seq<Acc>): seq<int> {
    if accs == [] then [] else Targets(accs[..|accs| - 1]) + [accs[|accs| - 1].target]
  }

  ghost predicate HasDay(points: seq<(int, int)>, day: int) {
    exists i :: 0 <= i < |points| && points[i].0 == day
  }

  // One point per day with volume, in order.
  ghost predicate IsSeries(points: seq<(int, int)>, days: map<int, int>) {
    && (forall i, j :: 0 <= i < j < |points| ==> points[i].0 < points[j].0)
    && (forall i :: 0 <= i < |points| ==> points[i].0 in days && points[i].1 == days[points[i].0])
    && (forall d :: d in days ==> HasDay(points, d))
  }

  predicate IsLeast(s: set<int>, d: int) {
    d in s && forall x :: x in s ==> d <= x
  }

  lemma Element(s: set<int>) returns (x: int)
    requires s != {}
    ensures x in s
  {
    if forall x :: x !in s {
      assert false;
    }
    x :| x in s;
  }

  lemma {:induction false} HasLeast(s: set<int>)
    requires s != {}
    ensures exists d :: IsLeast(s, d)
  {
    var x := Element(s);
    var rest := s - {x};
    if rest == {} {
      assert s == {x};
      assert IsLeast(s, x);
    } else {
      HasLeast(rest);
      var d :| IsLeast(rest, d);
      assert s == rest + {x};
      assert IsLeast(s, if x < d then x else d);
    }
  }

  // A series of the days not in rest, all of them before the days in rest.
  ghost predicate SeriesSoFar(points: seq<(int, int)>, days: map<int, int>, rest: set<int>) {
    && rest <= days.Keys && IsSeries(points, days - rest)
    && forall i, d :: 0 <= i < |points| && d in rest ==> points[i].0 < d
  }

  lemma SeriesStep(points: seq<(int, int)>, days: map<int, int>, rest: set<int>, d: int)
    requires SeriesSoFar(points, days, rest) && IsLeast(rest, d)
    ensures SeriesSoFar(points + [(d, days[d])], days, rest - {d})
  {
    var longer := points + [(d, days[d])];
    forall e | e in days - (rest - {d}) ensures HasDay(longer, e) {
      if e == d {
        assert longer[|points|].0 == d;
      } else {
        assert e in days - rest && HasDay(points, e);
        var i :| 0 <= i < |points| && points[i].0 == e;
        assert longer[i].0 == e;
      }
    }
  }

  // The days with volume, sorted.
  method SortDays(days: map<int, int>) returns (points: seq<(int, int)>)
    ensures IsSeries(points, days)
  {
    points := [];
    var rest := days.Keys;
    assert days - rest == map[];
    while rest != {}
      invariant SeriesSoFar(points, days, rest)
      decreases rest
    {
      HasLeast(rest);
      var d :| IsLeast(rest, d);
      SeriesStep(points, days, rest, d);
      points := points + [(d, days[d])];
      rest := rest - {d};
    }
    assert days - rest == days;
  }

  // The source divides by the number of campaigns, or shows zero where there are none.
  function Ratio(part: int, whole: int): real {
    if whole == 0 then 0.0 else part as real / whole as real
  }

  lemma {:induction false} TargetsAt(accs: seq<Acc>)
    ensures |Targets(accs)| == |accs| && forall i :: 0 <= i < |accs| ==> Targets(accs)[i] == accs[i].target
  {
    if accs != [] {
      TargetsAt(accs[..|accs| - 1]);
    }
  }

  ghost function TargetsWithin(campaigns: map<string, Acc>, keys: seq<string>): map<string, int> {
    map k | k in keys && k in campaigns :: campaigns[k].target
  }

  lemma {:induction false} TargetsSnoc(campaigns: map<string, Acc>, keys: seq<string>, k: string)
    requires k in campaigns && k !in keys && forall j :: j in keys ==> j in campaigns
    ensures SumOf(Targets(AccsAt(campaigns, keys + [k])))
         == SumOf(Targets(AccsAt(campaigns, keys))) + campaigns[k].target
    ensures Sum(TargetsWithin(campaigns, keys + [k])) == Sum(TargetsWithin(campaigns, keys)) + campaigns[k].target
  {
    var accs := AccsAt(campaigns, keys);
    assert AccsAt(campaigns, keys + [k]) == accs + [campaigns[k]];
    assert (accs + [campaigns[k]])[..|accs|] == accs;
    var targets := Targets(accs);
    assert (targets + [campaigns[k].target])[..|targets|] == targets;
    assert TargetsWithin(campaigns, keys + [k]) == TargetsWithin(campaigns, keys)[k := campaigns[k].target];
    SumUpdate(TargetsWithin(campaigns, keys), k, campaigns[k].target);
  }

  lemma {:induction false} TargetsAddUp(campaigns: map<string, Acc>, keys: seq<string>)
    requires Distinct(keys) && forall k :: k in keys ==> k in campaigns
    ensures SumOf(Targets(AccsAt(campaigns, keys))) == Sum(TargetsWithin(campaigns, keys))
  {
    if keys == [] {
      assert TargetsWithin(campaigns, keys) == map[];
    } else {
      var init, last := keys[..|keys| - 1], keys[|keys| - 1];
      assert keys == init + [last];
      assert last !in init;
      TargetsAddUp(campaigns, init);
      TargetsSnoc(campaigns, init, last);
    }
  }

  // The sum of the targets in insertion order is that over all campaigns.
  lemma {:induction false} AllTargetsAddUp(b: Board)
    requires Keyed(b)
    ensures SumOf(Targets(Accs(b))) == Sum(TargetsOf(b))
  {
    TargetsAddUp(b.campaigns, b.keys);
    assert AccsAt(b.campaigns, b.keys) == Accs(b);
    assert TargetsWithin(b.campaigns, b.keys) == TargetsOf(b);
  }

  // One point for each day with a deposit, in order, with the deposits of that day.
  ghost predicate IsVolumeSeries(points: seq<(int, int)>, items: seq<Item>) {
    && (forall i, j :: 0 <= i < j < |points| ==> points[i].0 < points[j].0)
    && (forall day :: HasDay(points, day) <==> AnyOn(items, day))
    && (forall i :: 0 <= i < |points| ==> points[i].1 == VolumeOn(items, points[i].0))
  }

  // An average or a rate is zero where there is nothing to divide by.
  ghost predicate IsQuotient(q: real, part: real, whole: int) {
    if whole == 0 then q == 0.0 else q * whole as real == part
  }

  // The nine statuses in the order of the life cycle, each with its campaigns.
  ghost predicate IsStatusCount(counts: seq<(CampaignStatus, nat)>, b: Board) {
    counts == [(Active, |With(b, Is(Active))|), (Funding, |With(b, Is(Funding))|), (Funded, |With(b, Is(Funded))|),
               (InProduction, |With(b, Is(InProduction))|), (Harvested, |With(b, Is(Harvested))|),
               (Disputed, |With(b, Is(Disputed))|), (Resolved, |With(b, Is(Resolved))|),
               (Settled, |With(b, Is(Settled))|), (Failed, |With(b, Is(Failed))|)]
  }

  // The figures in terms of the events: the daily volumes and their total, and which
  // campaigns there are.
  ghost predicate DescribesEvents(m: Metrics, items: seq<Item>, b: Board) {
    && IsVolumeSeries(m.fundingVolumeOverTime, items) && m.totalVolume == Deposits(items)
    && (forall k :: k in b.campaigns <==> CreatedIn(items, k))
  }

  // The others in terms of these campaigns: how many there are, the average of their
  // targets and the share of them that counts as having reached its target.
  ghost predicate DescribesRates(m: Metrics, b: Board) {
    && m.totalCampaigns == |b.campaigns|
    && IsQuotient(m.averageCampaignSize, Sum(TargetsOf(b)) as real, m.totalCampaigns)
    && IsQuotient(m.fundingSuccessRatePercent, 100.0 * m.reachedTarget as real, m.totalCampaigns)
  }

  // How they divide: by status, and into those still collecting, failed, and the rest.
  ghost predicate DescribesOutcomes(m: Metrics, b: Board) {
    && IsStatusCount(m.campaignsByStatus, b)
    && m.stillRaising == |With(b, Is(Active))| + |With(b, Is(Funding))| && m.failed == |With(b, Is(Failed))|
    && m.reachedTarget + m.stillRaising + m.failed == |b.campaigns|
  }

  // And how their targets are distributed.
  ghost predicate DescribesSizes(m: Metrics, b: Board) {
    exists amounts :: AreTargets(amounts, b) && IsDistribution(m.campaignSizeDistribution, amounts)
  }

  // The targets of the campaigns, each once, in some order.
  ghost predicate AreTargets(amounts: seq<int>, b: Board) {
    exists keys: seq<string> :: Lists(keys, b) && |amounts| == |keys|
                                && forall i :: 0 <= i < |keys| ==> amounts[i] == b.campaigns[keys[i]].target
  }

  ghost predicate Lists(keys: seq<string>, b: Board) {
    Distinct(keys) && forall k :: k in keys <==> k in b.campaigns
  }

  // What an event does to the status of its campaign, if that is known.
  method TrackStatus(campaigns: map<string, Acc>, id: string, e: Event) returns (tracked: map<string, Acc>)
    ensures tracked == if id in campaigns
                       then campaigns[id := campaigns[id].(status := StatusAfter(campaigns[id].status, e))]
                       else campaigns
  {
    if id !in campaigns {
      return campaigns;
    }
    var campaign := campaigns[id];
    match e {
      case ContribReceived(_, _, _) =>
        if campaign.status == Active {
          campaign := campaign.(status := Funding);
        }
      case CampaignFunded(_, _) => campaign := campaign.(status := Funded);
      case TrancheReleased(_, _, _) =>
        if campaign.status == Funded {
          campaign := campaign.(status := InProduction);
        }
      case CampaignFailed(_, _) => campaign := campaign.(status := Failed);
      case HarvestReported(_, _, _) => campaign := campaign.(status := Harvested);
      case DisputeOpened(_, _, _, _) => campaign := campaign.(status := Disputed);
      case DisputeResolved(_, _, _, _, _, _) => campaign := campaign.(status := Resolved);
      case CampaignSettled(_, _, _, _) => campaign := campaign.(status := Settled);
      case _ =>
    }
    return campaigns[id := campaign];
  }

  // The event loop.
  method Replay(events: seq<Item>) returns (b: Board)
    ensures b == FeedAll(events)
  {
    var keys: seq<string>, campaigns: map<string, Acc> := [], map[];
    var volumeByDay: map<int, int>, totalVolume := map[], 0;
    for i := 0 to |events|
      invariant Board(keys, campaigns, volumeByDay, totalVolume) == FeedAll(events[..i])
    {
      var x := events[i];
      assert events[..i + 1][..i] == events[..i];
      if x.campaign == "" {
        continue;
      }
      if x.event.CampaignCreated? {
        if x.campaign !in campaigns {
          keys := keys + [x.campaign];
        }
        campaigns := campaigns[x.campaign := Acc(x.event.target, Active)];
      } else {
        if x.event.ContribReceived? {
          var day := Day(x.event.timestamp);
          totalVolume := totalVolume + x.event.amount;
          volumeByDay := volumeByDay[day := Volume(volumeByDay, day) + x.event.amount];
        }
        campaigns := TrackStatus(campaigns, x.campaign, x.event);
      }
    }
    assert events[..|events|] == events;
    return Board(keys, campaigns, volumeByDay, totalVolume);
  }

  method CountStatuses(accs: seq<Acc>) returns (counts: seq<(CampaignStatus, nat)>)
    ensures |counts| == |STATUSES|
    ensures forall i :: 0 <= i < |STATUSES| ==> counts[i] == (STATUSES[i], Count(accs, Is(STATUSES[i])))
  {
    counts := [];
    for i := 0 to |STATUSES|
      invariant |counts| == i && forall j :: 0 <= j < i ==> counts[j] == (STATUSES[j], Count(accs, Is(STATUSES[j])))
    {
      counts := counts + [(STATUSES[i], Count(accs, Is(STATUSES[i])))];
    }
  }

  lemma {:induction false} SeriesOfBoard(points: seq<(int, int)>, rawEvents: seq<Item>)
    requires IsSeries(points, FeedAll(SortByLedger(rawEvents)).volumeByDay)
    ensures IsVolumeSeries(points, rawEvents)
  {
    var days := FeedAll(SortByLedger(rawEvents)).volumeByDay;
    forall day
      ensures (day in days <==> AnyOn(rawEvents, day)) && Volume(days, day) == VolumeOn(rawEvents, day)
    {
      BoardOfItems(SortByLedger(rawEvents), day, "");
      SortKeeps(rawEvents, day, "");
    }
    forall day ensures HasDay(points, day) <==> day in days {
      if HasDay(points, day) {
        var i :| 0 <= i < |points| && points[i].0 == day;
      }
    }
  }

  lemma {:induction false} CampaignsOfBoard(rawEvents: seq<Item>)
    ensures var b := FeedAll(SortByLedger(rawEvents));
            && Keyed(b) && b.totalVolume == Deposits(rawEvents)
            && forall k :: k in b.campaigns <==> CreatedIn(rawEvents, k)
  {
    FeedAllKeyed(SortByLedger(rawEvents));
    BoardOfItems(SortByLedger(rawEvents), 0, "");
    SortKeeps(rawEvents, 0, "");
    forall k ensures k in FeedAll(SortByLedger(rawEvents)).campaigns <==> CreatedIn(rawEvents, k) {
      BoardOfItems(SortByLedger(rawEvents), 0, k);
      SortKeeps(rawEvents, 0, k);
    }
  }

  lemma {:induction false} CountsOfBoard(counts: seq<(CampaignStatus, nat)>, b: Board)
    requires Keyed(b) && |counts| == |STATUSES|
    requires forall i :: 0 <= i < |STATUSES| ==> counts[i] == (STATUSES[i], Count(Accs(b), Is(STATUSES[i])))
    ensures IsStatusCount(counts, b)
  {
    CountIsWith(b, Is(Active));
    CountIsWith(b, Is(Funding));
    CountIsWith(b, Is(Funded));
    CountIsWith(b, Is(InProduction));
    CountIsWith(b, Is(Harvested));
    CountIsWith(b, Is(Disputed));
    CountIsWith(b, Is(Resolved));
    CountIsWith(b, Is(Settled));
    CountIsWith(b, Is(Failed));
  }

  lemma {:induction false} TargetsListed(b: Board)
    requires Keyed(b)
    ensures AreTargets(Targets(Accs(b)), b)
  {
    TargetsAt(Accs(b));
    assert Lists(b.keys, b);
  }

  lemma RatioIsQuotient(part: int, whole: nat)
    ensures IsQuotient(Ratio(part, whole), part as real, whole)
    ensures IsQuotient(Ratio(part, whole) * 100.0, 100.0 * part as real, whole)
  {
    if whole != 0 {
      assert Ratio(part, whole) * whole as real == part as real;
    }
  }

  // The counts of the campaigns, and what follows for the figures made of them.
  lemma {:induction false} CountsDescribe(b: Board)
    requires Keyed(b)
    ensures var accs := Accs(b);
            && |accs| == |b.campaigns| && SumOf(Targets(accs)) == Sum(TargetsOf(b)) && |Targets(accs)| == |accs|
            && Count(accs, Is(Failed)) == |With(b, Is(Failed))|
            && |accs| - Count(accs, Reached) - Count(accs, Is(Failed))
                 == |With(b, Is(Active))| + |With(b, Is(Funding))|
            && AreTargets(Targets(accs), b)
  {
    TargetsAt(Accs(b));
    TargetsListed(b);
    AllTargetsAddUp(b);
    AccsAreCampaigns(b);
    OutcomesAddUp(Accs(b));
    CountIsWith(b, Is(Active));
    CountIsWith(b, Is(Funding));
    CountIsWith(b, Is(Failed));
  }

  // The figures as they are computed from the accumulators.
  ghost predicate Computed(m: Metrics, b: Board)
    requires Keyed(b)
  {
    var accs := Accs(b);
    && m.totalCampaigns == |accs| && m.totalVolume == b.totalVolume
    && m.averageCampaignSize == Ratio(SumOf(Targets(accs)), |accs|)
    && m.fundingSuccessRatePercent == Ratio(m.reachedTarget, |accs|) * 100.0
    && IsSeries(m.fundingVolumeOverTime, b.volumeByDay)
    && |m.campaignsByStatus| == |STATUSES|
    && (forall i :: 0 <= i < |STATUSES| ==> m.campaignsByStatus[i] == (STATUSES[i], Count(accs, Is(STATUSES[i]))))
    && IsDistribution(m.campaignSizeDistribution, Targets(accs))
    && m.reachedTarget == Count(accs, Reached) && m.failed == Count(accs, Is(Failed))
    && m.reachedTarget + m.stillRaising + m.failed == |accs|
  }

  lemma {:induction false} ComputedRates(m: Metrics, b: Board)
    requires Keyed(b) && Computed(m, b)
    ensures DescribesRates(m, b)
  {
    AllTargetsAddUp(b);
    AccsAreCampaigns(b);
    RatesOf(m, Sum(TargetsOf(b)), |b.campaigns|);
  }

  lemma {:induction false} RatesOf(m: Metrics, targets: int, count: nat)
    requires m.totalCampaigns == count && m.averageCampaignSize == Ratio(targets, count)
    requires m.fundingSuccessRatePercent == Ratio(m.reachedTarget, count) * 100.0
    ensures IsQuotient(m.averageCampaignSize, targets as real, m.totalCampaigns)
    ensures IsQuotient(m.fundingSuccessRatePercent, 100.0 * m.reachedTarget as real, m.totalCampaigns)
  {
    RatioIsQuotient(targets, count);
    RatioIsQuotient(m.reachedTarget, count);
  }

  lemma {:induction false} ComputedOutcomes(m: Metrics, b: Board)
    requires Keyed(b) && Computed(m, b)
    ensures DescribesOutcomes(m, b)
  {
    CountsOfBoard(m.campaignsByStatus, b);
    CountsDescribe(b);
  }

  lemma {:induction false} ComputedSizes(m: Metrics, b: Board)
    requires Keyed(b) && Computed(m, b)
    ensures DescribesSizes(m, b)
  {
    TargetsListed(b);
  }

  lemma {:induction false} ComputedEvents(m: Metrics, rawEvents: seq<Item>)
    requires Keyed(FeedAll(SortByLedger(rawEvents))) && Computed(m, FeedAll(SortByLedger(rawEvents)))
    ensures DescribesEvents(m, rawEvents, FeedAll(SortByLedger(rawEvents)))
  {
    CampaignsOfBoard(rawEvents);
    SeriesOfBoard(m.fundingVolumeOverTime, rawEvents);
  }

  method ComputeAnalyticsMetrics(rawEvents: seq<Item>) returns (m: Metrics)
    ensures DescribesEvents(m, rawEvents, FeedAll(SortByLedger(rawEvents)))
    ensures DescribesRates(m, FeedAll(SortByLedger(rawEvents)))
    ensures DescribesOutcomes(m, FeedAll(SortByLedger(rawEvents)))
    ensures DescribesSizes(m, FeedAll(SortByLedger(rawEvents)))
  {
    var b := Replay(SortByLedger(rawEvents));
    FeedAllKeyed(SortByLedger(rawEvents));
    var accs := Accs(b);
    var targets := Targets(accs);
    TargetsAt(accs);
    var average := Ratio(SumOf(targets), |targets|);
    var reachedTarget, failed := Count(accs, Reached), Count(accs, Is(Failed));
    OutcomesAddUp(accs);
    var stillRaising := |accs| - reachedTarget - failed;
    var rate := Ratio(reachedTarget, |accs|) * 100.0;
    var points := SortDays(b.volumeByDay);
    var counts := CountStatuses(accs);
    var sizes := BuildSizeDistribution(targets);
    m := Metrics(|accs|, b.totalVolume, average, rate, points, counts, sizes,
                 reachedTarget, if 0 <= stillRaising then stillRaising else 0, failed);
    ComputedEvents(m, rawEvents);
    ComputedRates(m, b);
    ComputedOutcomes(m, b);
    ComputedSizes(m, b);
  }
}
