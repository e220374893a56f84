// A run of the contract whose harvest report and settlement name addresses that the
// indexer has never seen, and what the database makes of it.

module UnknownPayee {
  import opened EscrowTypes
  import opened Campaigns
  import opened Accounting
  import opened Lifecycle
  import opened Chain
  import opened Solvency
  import opened Payouts
  import opened EventWire
  import opened EventFold
  import opened Replay
  import opened DbMirror
  import opened LogFold
  import opened Redelivery

  // The admin reports the harvest and settles in favour of bob.
  function Harvesting(k: Cast): Act
    requires k.Outside()
  {
    Act({k.admin}, On(1, Harvest(k.admin, "good")))
  }

  function Settling(k: Cast): Act
    requires k.Outside()
  {
    Act({k.admin}, On(1, Settle(k.bob, 40)))
  }

  function SettledRun(k: Cast): seq<Act>
    requires k.Outside()
  {
    Opening(k) + [Depositing(k)] + [Harvesting(k)] + [Settling(k)]
  }

  // Its log, as far as it has got.
  function Entries(k: Cast): seq<LogEntry> {
    [LogEntry(0, 1, 0, CampaignCreated(k.farmer, 0, 100)),
     LogEntry(1, 2, 0, CampaignCreated(k.farmer, 0, 100)),
     LogEntry(2, 1, 0, CampaignFunded(0, 100)),
     LogEntry(3, 1, 0, ContribReceived(k.ann, 0, 100)),
     LogEntry(4, 1, 0, HarvestReported(k.admin, "good", 0)),
     LogEntry(5, 1, 0, CampaignSettled(k.bob, 0, 40, 60))]
  }

  lemma {:induction false} CreateLogs(w: State, signers: Signers, id: nat, b: Birth)
    requires Create(w, signers, id, b).Some?
    ensures Create(w, signers, id, b).value.log
        == w.log + [LogEntry(|w.log|, id, w.ledger, CampaignCreated(b.farmer, b.now, b.target))]
    ensures Create(w, signers, id, b).value.ledger == w.ledger
  {
    AppendStamped(w.log, id, w.ledger, b.Trace());
  }

  lemma {:induction false} OneLogs(w: State, signers: Signers, id: nat, op: Op)
    requires Apply(w, signers, On(id, op)).Some? && |Attempt(w.cells[id], EnvOf(w, signers, id), op).value.events| == 1
    ensures var w', ev := Apply(w, signers, On(id, op)).value,
                       Attempt(w.cells[id], EnvOf(w, signers, id), op).value.events;
            w'.log == w.log + [LogEntry(|w.log|, id, w.ledger, ev[0])] && w'.ledger == w.ledger
  {
    AppendStamped(w.log, id, w.ledger, Attempt(w.cells[id], EnvOf(w, signers, id), op).value.events);
  }

  lemma {:induction false} TwoLogs(w: State, signers: Signers, id: nat, op: Op)
    requires Apply(w, signers, On(id, op)).Some? && |Attempt(w.cells[id], EnvOf(w, signers, id), op).value.events| == 2
    ensures var w', ev := Apply(w, signers, On(id, op)).value,
                       Attempt(w.cells[id], EnvOf(w, signers, id), op).value.events;
            && w'.log == w.log + [LogEntry(|w.log|, id, w.ledger, ev[0])] + [LogEntry(|w.log| + 1, id, w.ledger, ev[1])]
            && w'.ledger == w.ledger
  {
    AppendStamped(w.log, id, w.ledger, Attempt(w.cells[id], EnvOf(w, signers, id), op).value.events);
  }

  lemma {:induction false} OpeningLog(k: Cast)
    requires k.Outside()
    ensures var w := Run(Genesis(), Opening(k)); w.log == Entries(k)[..2] && w.ledger == 0
  {
    var s := Opening(k);
    RunSnoc([], s[0]);
    RunSnoc(s[..1], s[1]);
    RunSnoc(s[..2], s[2]);
    RunSnoc(s[..3], s[3]);
    assert s[..1] == [] + [s[0]] && s[..2] == s[..1] + [s[1]] && s[..3] == s[..2] + [s[2]] && s == s[..3] + [s[3]];
    var w2 := Step(Step(Genesis(), s[0]), s[1]);
    var w3 := Step(w2, s[2]);
    assert w2.cells == map[] && w2.log == [] && w2.now == 0 && w2.registryAt.None?;
    CreateLogs(w2, {k.farmer}, 1, BirthOf(w2, s[2].call));
    assert w3.cells.Keys == {1} && w3.now == 0 && w3.registryAt.None?;
    CreateLogs(w3, {k.farmer}, 2, BirthOf(w3, s[3].call));
    assert Entries(k)[..2] == [Entries(k)[0]] + [Entries(k)[1]];
  }

  lemma {:induction false} DepositLog(k: Cast, w: State)
    requires k.Outside() && Stage(k, w, 0, 0, 0) && Balance(w.balances, k.token, k.ann) == 100
    requires w.log == Entries(k)[..2] && w.ledger == 0
    ensures var w' := Step(w, Depositing(k)); w'.log == Entries(k)[..4] && w'.ledger == 0
  {
    DepositStage(k, w);
    assert Apply(w, {k.ann}, On(1, Fund(k.ann, 100))).Some?;
    TwoLogs(w, {k.ann}, 1, Fund(k.ann, 100));
    assert Entries(k)[..4] == Entries(k)[..2] + [Entries(k)[2]] + [Entries(k)[3]];
  }

  lemma {:induction false} HarvestLog(k: Cast, w: State)
    requires k.Outside() && Stage(k, w, 100, 0, 100) && w.log == Entries(k)[..4] && w.ledger == 0
    ensures var w' := Step(w, Harvesting(k));
            && w'.log == Entries(k)[..5] && w'.ledger == 0 && w'.balances == w.balances
            && w'.registryAt.None? && w'.now == 0
            && w'.admin == w.admin && 1 in w'.cells && w'.cells[1].campaign == w.cells[1].campaign.(status := Harvested)
  {
    assert Apply(w, {k.admin}, On(1, Harvest(k.admin, "good"))).Some?;
    OneLogs(w, {k.admin}, 1, Harvest(k.admin, "good"));
    assert Entries(k)[..5] == Entries(k)[..4] + [Entries(k)[4]];
  }

  lemma {:induction false} SettleLog(k: Cast, w: State)
    requires k.Outside() && w.log == Entries(k)[..5] && w.ledger == 0 && w.registryAt.None? && w.now == 0
             && w.admin == Some(k.admin)
    requires 1 in w.cells && Balance(w.balances, k.token, SELF) == 100
    requires w.cells[1].campaign
          == Progress(k.farmer, k.token, "maize", k.ann, 100, Funded).campaign.(status := Harvested)
    ensures var w' := Step(w, Settling(k));
            && w'.log == Entries(k) && 1 in w'.cells
            && w'.cells[1].campaign.status.Settled? && w'.cells[1].campaign.returnable == 60
            && w'.cells[1].campaign.totalFunded == 100
  {
    assert Apply(w, {k.admin}, On(1, Settle(k.bob, 40))).Some?;
    OneLogs(w, {k.admin}, 1, Settle(k.bob, 40));
    assert Entries(k) == Entries(k)[..5] + [Entries(k)[5]];
  }

  lemma {:induction false} SettledRunLog(k: Cast)
    requires k.Outside()
    ensures var w := Run(Genesis(), SettledRun(k));
            && w.log == Entries(k) && 1 in w.cells
            && w.cells[1].campaign.status.Settled? && w.cells[1].campaign.returnable == 60
            && w.cells[1].campaign.totalFunded == 100
  {
    var a := Opening(k);
    OpeningStage(k);
    OpeningLog(k);
    RunSnoc(a, Depositing(k));
    RunSnoc(a + [Depositing(k)], Harvesting(k));
    RunSnoc(a + [Depositing(k)] + [Harvesting(k)], Settling(k));
    DepositStage(k, Run(Genesis(), a));
    DepositLog(k, Run(Genesis(), a));
    HarvestLog(k, Run(Genesis(), a + [Depositing(k)]));
    SettleLog(k, Run(Genesis(), a + [Depositing(k)] + [Harvesting(k)]));
  }

  // Of these events only the farmer and ann become users.
  lemma {:induction false} SeenUpTo(k: Cast, n: nat)
    requires n <= 6
    ensures Seen(Entries(k)[..n]) <= {k.farmer, k.ann}
  {
    if 0 < n {
      SeenUpTo(k, n - 1);
      assert Entries(k)[..n][..n - 1] == Entries(k)[..n - 1];
    }
  }

  // Neither late event of this run is keyed. Processed once, they are neither stored
  // nor broadcast, although the row is right. Delivered again after a restart, the
  // settlement doubles the returns, and the harvest report then takes the status back.
  lemma {:induction false} UnknownPayeeShows(k: Cast, shapes: nat -> Shape)
    requires k.Outside() && k.admin !in {k.farmer, k.ann} && k.bob !in {k.farmer, k.ann}
    ensures var w := Run(Genesis(), SettledRun(k));
            var s := ProcessAll(Service(EmptyDb(), []), Wire(w.log, shapes));
            && |w.log| == 6 && 1 in w.cells && w.cells[1].campaign.status.Settled?
            && w.cells[1].campaign.returnable == 60
            && 4 !in s.db.transactions && 5 !in s.db.transactions && s.broadcasts == ReadAll(w.log[..4])
            && TableAgrees(s.db, w)
            && (var again := Absorb(s, Read(w.log[5]));
                var back := Absorb(again, Read(w.log[4]));
                && RowOf(again.db, Decimal(1)).Some? && RowOf(again.db, Decimal(1)).value.returnable == 120
                && RowOf(back.db, Decimal(1)).Some? && RowOf(back.db, Decimal(1)).value.status == Harvested)
  {
    var w := Run(Genesis(), SettledRun(k));
    SettledRunLog(k);
    TableMirrorsEscrow(SettledRun(k), shapes);
    RunOrderly(SettledRun(k));
    WireIsRead(w.log, shapes);
    ProcessAllIsAfter(Wire(w.log, shapes));
    TableHoldsLog(w.log);
    SeenUpTo(k, 4);
    SeenUpTo(k, 5);
    KeepsFour(k);
    AgainShows(k, After(ReadAll(w.log)), w.cells[1].campaign);
  }

  lemma {:induction false} KeepsFour(k: Cast)
    requires k.admin !in {k.farmer, k.ann} && k.bob !in {k.farmer, k.ann}
    ensures Keep(Entries(k)) == Entries(k)[..4] && !KeyedAt(Entries(k), 4) && !KeyedAt(Entries(k), 5)
  {
    var e := Entries(k);
    SeenUpTo(k, 4);
    SeenUpTo(k, 5);
    KeepsEarly(k, 4);
    assert e[..5] == e[..4] + [e[4]] && e == e[..5] + [e[5]];
    AppendedTo(e[..4], e[4]);
    AppendedTo(e[..5], e[5]);
  }

  lemma {:induction false} KeepsEarly(k: Cast, n: nat)
    requires n <= 4
    ensures Keep(Entries(k)[..n]) == Entries(k)[..n]
  {
    if 0 < n {
      KeepsEarly(k, n - 1);
      assert Entries(k)[..n] == Entries(k)[..n - 1] + [Entries(k)[n - 1]];
      AppendedTo(Entries(k)[..n - 1], Entries(k)[n - 1]);
    }
  }

  lemma {:induction false} AgainShows(k: Cast, s: Service, c: Campaign)
    requires k.admin !in {k.farmer, k.ann} && k.bob !in {k.farmer, k.ann}
    requires Recorded(s, Entries(k)) && !KeyedAt(Entries(k), 4) && !KeyedAt(Entries(k), 5)
    requires RowOf(s.db, Decimal(1)).Some? && RowOf(s.db, Decimal(1)).value.returnable == 60
    ensures var again := Absorb(s, Read(Entries(k)[5]));
            var back := Absorb(again, Read(Entries(k)[4]));
            && RowOf(again.db, Decimal(1)).Some? && RowOf(again.db, Decimal(1)).value.returnable == 120
            && RowOf(back.db, Decimal(1)).Some? && RowOf(back.db, Decimal(1)).value.status == Harvested
  {
    assert 4 !in s.db.transactions && 5 !in s.db.transactions;
    AbsorbAdds(s, Read(Entries(k)[5]));
  }
}
