// Folding the contract's whole event log: the campaign table after every run.

module LogFold {
  import opened EscrowTypes
  import opened Campaigns
  import opened Accounting
  import opened Lifecycle
  import opened Chain
  import opened EventWire
  import opened EventFold
  import opened Replay
  import opened DbMirror

  // What the parser makes of a log entry, and of a log.
  function Read(e: LogEntry): ParsedEvent {
    ParsedEvent(e.id, Decimal(e.campaign), DataOf(e.event))
  }

  function ReadAll(log: seq<LogEntry>): seq<ParsedEvent> {
    if log == [] then [] else ReadAll(log[..|log| - 1]) + [Read(log[|log| - 1])]
  }

  // The log as raw events; the enum shape may differ from event to event.
  function Wire(log: seq<LogEntry>, shapes: nat -> Shape): seq<Raw> {
    if log == [] then []
    else
      var last := log[|log| - 1];
      Wire(log[..|log| - 1], shapes) + [Publish(last, shapes(last.id))]
  }

  lemma {:induction false} WireIsRead(log: seq<LogEntry>, shapes: nat -> Shape)
    ensures ParsedOf(Wire(log, shapes)) == ReadAll(log)
  {
    if log != [] {
      var init, last := log[..|log| - 1], log[|log| - 1];
      WireIsRead(init, shapes);
      WireRoundTrip(last, shapes(last.id));
      var w := Wire(init, shapes);
      assert (w + [Publish(last, shapes(last.id))])[..|w|] == w;
    }
  }

  lemma {:induction false} ReadAllAt(log: seq<LogEntry>)
    ensures |ReadAll(log)| == |log|
    ensures forall i :: 0 <= i < |log| ==> ReadAll(log)[i] == Read(log[i])
  {
    if log != [] {
      var init := log[..|log| - 1];
      ReadAllAt(init);
      forall i | 0 <= i < |log| ensures ReadAll(log)[i] == Read(log[i]) {
        if i < |init| { assert init[i] == log[i]; }
      }
    }
  }

  // Ids count up from 0, and each event can follow those of its campaign.
  ghost predicate Orderly(log: seq<LogEntry>) {
    forall i :: 0 <= i < |log| ==> log[i].id == i && Follows(Project(log[..i], log[i].campaign), log[i].event)
  }

  lemma {:induction false} OrderlyPrefix(log: seq<LogEntry>, n: nat)
    requires Orderly(log) && n <= |log|
    ensures Orderly(log[..n])
  {
    forall i | 0 <= i < n
      ensures log[..n][i].id == i && Follows(Project(log[..n][..i], log[..n][i].campaign), log[..n][i].event)
    {
      assert log[..n][..i] == log[..i] && log[..n][i] == log[i];
    }
  }

  lemma {:induction false} OrderlyLast(log: seq<LogEntry>)
    requires Orderly(log) && log != []
    ensures var init, last := log[..|log| - 1], log[|log| - 1];
            && Orderly(init) && last.id == |init| && Follows(Project(init, last.campaign), last.event)
            && log == init + [last]
  {
    OrderlyPrefix(log, |log| - 1);
    OrderlyAt(log, |log| - 1);
    LastApart(log);
  }

  lemma OrderlyAt(log: seq<LogEntry>, i: nat)
    requires Orderly(log) && i < |log|
    ensures log[i].id == i && Follows(Project(log[..i], log[i].campaign), log[i].event)
  {
  }

  lemma LastApart<T>(s: seq<T>)
    requires s != []
    ensures s == s[..|s| - 1] + [s[|s| - 1]]
  {
  }

  lemma {:induction false} ProjectEnds(log: seq<LogEntry>, c: nat)
    requires Orderly(log)
    ensures Ends(Project(log, c))
  {
    if log != [] {
      var init, last := log[..|log| - 1], log[|log| - 1];
      OrderlyLast(log);
      ProjectEnds(init, c);
      ProjectAppend(init, last, c);
      if last.campaign == c {
        EndsSnoc(Project(init, c), last.event);
      }
    }
  }

  lemma EndsSnoc(t: seq<Event>, e: Event)
    requires Ends(t) && Follows(t, e)
    ensures Ends(t + [e])
  {
    assert (t + [e])[..|t|] == t;
  }

  // ------------------------------------------------------------ whom the log names

  // The addresses that the events of a log make users: the farmer of a creation,
  // contributors, recipients of tranches, claimants and openers of disputes.
  function Seen(log: seq<LogEntry>): set<string> {
    if log == [] then {} else UsersWith(Seen(log[..|log| - 1]), DataOf(log[|log| - 1].event))
  }

  // Who they are, event by event.
  predicate MakesUser(e: Event, user: string) {
    match e
    case CampaignCreated(farmer, _, _) => farmer == user
    case ContribReceived(investor, _, _) => investor == user
    case ContribReconciled(investor, _, _) => investor == user
    case TrancheReleased(recipient, _, _) => recipient == user
    case ReturnClaimed(investor, _, _) => investor == user
    case RefundClaimed(investor, _, _) => investor == user
    case DisputeOpened(opener, _, _, _) => opener == user
    case _ => false
  }

  lemma {:induction false} SeenIff(log: seq<LogEntry>, user: string)
    ensures user in Seen(log) <==> exists i :: 0 <= i < |log| && MakesUser(log[i].event, user)
  {
    if log != [] {
      var init, last := log[..|log| - 1], log[|log| - 1];
      SeenIff(init, user);
      MakesUserIff(last.event, user);
      if exists i :: 0 <= i < |init| && MakesUser(init[i].event, user) {
        var i :| 0 <= i < |init| && MakesUser(init[i].event, user);
        assert MakesUser(log[i].event, user);
      }
    }
  }

  lemma {:induction false} MakesUserIff(e: Event, user: string)
    ensures MakesUser(e, user) <==> EnsuresUser(DataOf(e)) && UserOf(DataOf(e)) == Some(user)
  {
  }

  // A harvest report or settlement names one of these.
  predicate Keyed(users: set<string>, e: Event) {
    && (e.HarvestReported? ==> e.farmer in users)
    && (e.CampaignSettled? ==> e.farmer in users)
  }

  predicate KeyedAt(log: seq<LogEntry>, i: nat)
    requires i < |log|
  {
    Keyed(Seen(log[..i]), log[i].event)
  }

  // Every harvest report and settlement names an address that an earlier event made
  // a user.
  ghost predicate AllKeyed(log: seq<LogEntry>) {
    forall i :: 0 <= i < |log| ==> KeyedAt(log, i)
  }

  lemma AllKeyedSnoc(log: seq<LogEntry>)
    requires log != []
    ensures AllKeyed(log) <==> AllKeyed(log[..|log| - 1]) && KeyedAt(log, |log| - 1)
  {
    var init := log[..|log| - 1];
    forall i | 0 <= i < |init| ensures KeyedAt(log, i) <==> KeyedAt(init, i) {
      assert init[..i] == log[..i];
    }
  }

  lemma AllKeyedPrefix(log: seq<LogEntry>, n: nat)
    requires n <= |log| && AllKeyed(log)
    ensures AllKeyed(log[..n])
  {
    forall i | 0 <= i < n ensures KeyedAt(log[..n], i) {
      assert KeyedAt(log, i) && log[..n][..i] == log[..i];
    }
  }

  // Without the others.
  function Keep(log: seq<LogEntry>): seq<LogEntry> {
    if log == [] then []
    else
      var init, last := log[..|log| - 1], log[|log| - 1];
      Keep(init) + if KeyedAt(log, |init|) then [last] else []
  }

  lemma {:induction false} KeepAllIff(log: seq<LogEntry>)
    ensures |Keep(log)| <= |log| && (Keep(log) == log <==> AllKeyed(log))
    ensures |Keep(log)| == |log| ==> AllKeyed(log)
  {
    if log != [] {
      var init, last := log[..|log| - 1], log[|log| - 1];
      KeepAllIff(init);
      AllKeyedSnoc(log);
      assert log == init + [last];
      if KeyedAt(log, |init|) {
        assert (Keep(init) + [last])[..|Keep(init)|] == Keep(init);
      }
    }
  }

  lemma {:induction false} KeptReadsIff(log: seq<LogEntry>)
    ensures ReadAll(Keep(log)) == ReadAll(log) <==> AllKeyed(log)
  {
    KeepAllIff(log);
    ReadAllAt(log);
    ReadAllAt(Keep(log));
  }

  // The contributions that moved tokens, as investment rows.
  function Invested(log: seq<LogEntry>): seq<Investment> {
    if log == [] then []
    else
      var last := log[|log| - 1];
      Invested(log[..|log| - 1]) +
      if last.event.ContribReceived?
      then [Investment(last.id, Decimal(last.campaign), last.event.investor, last.event.amount)] else []
  }

  lemma {:induction false} InvestedSnoc(log: seq<LogEntry>, e: LogEntry)
    ensures Invested(log + [e]) == Invested(log) +
              if e.event.ContribReceived?
              then [Investment(e.id, Decimal(e.campaign), e.event.investor, e.event.amount)] else []
  {
    assert (log + [e])[..|log|] == log;
  }

  ghost predicate IdsRecorded(s: Service, log: seq<LogEntry>) {
    forall id: nat :: id in s.db.transactions <==> id < |log| && KeyedAt(log, id)
  }

  // The keyed events of the log are recorded and broadcast once, in order, and every
  // deposit is an investment.
  ghost predicate Recorded(s: Service, log: seq<LogEntry>) {
    && s.broadcasts == ReadAll(Keep(log)) && s.db.investments == Invested(log) && s.db.users == Seen(log)
    && IdsRecorded(s, log)
  }

  // The campaign's row is the fold of the campaign's own events.
  ghost predicate RowHolds(s: Service, log: seq<LogEntry>, c: nat) {
    RowOf(s.db, Decimal(c)) == RowFold(Project(log, c))
  }

  ghost predicate RowsHold(s: Service, log: seq<LogEntry>) {
    forall c: nat :: RowHolds(s, log, c)
  }

  // A campaign with events has a row, since its first event is its creation.
  lemma {:induction false} RowKnown(log: seq<LogEntry>, c: nat)
    requires Orderly(log) && Project(log, c) != []
    ensures RowFold(Project(log, c)).Some?
  {
    var init, last := log[..|log| - 1], log[|log| - 1];
    OrderlyPrefix(log, |init|);
    if Project(init, c) != [] {
      RowKnown(init, c);
    }
    if last.campaign == c {
      FoldSnoc(Project(init, c), last.event);
    }
  }

  lemma CanBeWritten(s: Service, log: seq<LogEntry>, e: LogEntry)
    requires Orderly(log) && RowHolds(s, log, e.campaign) && Follows(Project(log, e.campaign), e.event)
    ensures RowStep(RowOf(s.db, Decimal(e.campaign)), DataOf(e.event)).Some?
  {
    if Project(log, e.campaign) != [] {
      RowKnown(log, e.campaign);
    }
  }

  // What a new event of a known campaign adds to the record.
  lemma {:induction false} AbsorbsNext(s: Service, log: seq<LogEntry>, e: LogEntry)
    requires Recorded(s, log) && e.id == |log| && RowStep(RowOf(s.db, Decimal(e.campaign)), DataOf(e.event)).Some?
    ensures Recorded(Absorb(s, Read(e)), log + [e])
  {
    AppendedTo(log, e);
    ReadAllSnoc(Keep(log), e);
    AbsorbAdds(s, Read(e));
    StoredIfKeyed(s, e);
    AddsInvestment(s, log, e);
    AddsId(s, log, e);
    if !Keyed(Seen(log), e.event) {
      assert Keep(log) + [] == Keep(log);
    }
  }

  lemma {:induction false} AddsId(s: Service, log: seq<LogEntry>, e: LogEntry)
    requires IdsRecorded(s, log) && e.id == |log| && s.db.users == Seen(log)
    requires RowStep(RowOf(s.db, Decimal(e.campaign)), DataOf(e.event)).Some?
    ensures IdsRecorded(Absorb(s, Read(e)), log + [e])
  {
    AppendedTo(log, e);
    AbsorbAdds(s, Read(e));
    StoredIfKeyed(s, e);
  }

  lemma {:induction false} AddsInvestment(s: Service, log: seq<LogEntry>, e: LogEntry)
    requires s.db.investments == Invested(log) && e.id !in s.db.transactions
    requires RowStep(RowOf(s.db, Decimal(e.campaign)), DataOf(e.event)).Some?
    ensures Absorb(s, Read(e)).db.investments == Invested(log + [e])
  {
    assert (log + [e])[..|log|] == log;
    assert Invested(log) + [] == Invested(log);
  }

  lemma {:induction false} AppendedTo(log: seq<LogEntry>, e: LogEntry)
    ensures Keep(log + [e]) == Keep(log) + if Keyed(Seen(log), e.event) then [e] else []
    ensures Seen(log + [e]) == UsersWith(Seen(log), DataOf(e.event))
    ensures forall i :: 0 <= i <= |log| ==>
              (KeyedAt(log + [e], i) <==> if i < |log| then KeyedAt(log, i) else Keyed(Seen(log), e.event))
  {
    var log' := log + [e];
    assert log'[..|log|] == log;
    forall i | 0 <= i <= |log|
      ensures KeyedAt(log', i) <==> if i < |log| then KeyedAt(log, i) else Keyed(Seen(log), e.event)
    {
      assert log'[..i] == log[..i];
    }
  }

  lemma {:induction false} StoredIfKeyed(s: Service, e: LogEntry)
    requires e.id !in s.db.transactions && RowStep(RowOf(s.db, Decimal(e.campaign)), DataOf(e.event)).Some?
    ensures Persist(s.db, Read(e)).stored <==> Keyed(s.db.users, e.event)
  {
  }

  lemma ReadAllSnoc(log: seq<LogEntry>, e: LogEntry)
    ensures ReadAll(log + [e]) == ReadAll(log) + [Read(e)]
  {
  }

  lemma {:induction false} RowAfterNext(s: Service, log: seq<LogEntry>, e: LogEntry, c: nat)
    requires e.id !in s.db.transactions && RowStep(RowOf(s.db, Decimal(e.campaign)), DataOf(e.event)).Some?
    requires RowHolds(s, log, e.campaign) && RowHolds(s, log, c)
    ensures RowHolds(Absorb(s, Read(e)), log + [e], c)
  {
    ProjectAppend(log, e, c);
    if c == e.campaign {
      FoldSnoc(Project(log, c), e.event);
    } else if Decimal(c) == Decimal(e.campaign) {
      DecimalInjective(c, e.campaign);
    }
  }

  lemma {:induction false} HoldsWithNext(s: Service, log: seq<LogEntry>, e: LogEntry)
    requires Orderly(log) && e.id == |log| && Follows(Project(log, e.campaign), e.event)
    requires Recorded(s, log) && RowsHold(s, log)
    ensures Recorded(Absorb(s, Read(e)), log + [e]) && RowsHold(Absorb(s, Read(e)), log + [e])
  {
    assert RowHolds(s, log, e.campaign);
    CanBeWritten(s, log, e);
    AbsorbsNext(s, log, e);
    forall c: nat ensures RowHolds(Absorb(s, Read(e)), log + [e], c) {
      assert RowHolds(s, log, c);
      RowAfterNext(s, log, e, c);
    }
  }

  lemma {:induction false} TableHoldsLog(log: seq<LogEntry>)
    requires Orderly(log)
    ensures Recorded(After(ReadAll(log)), log) && RowsHold(After(ReadAll(log)), log)
  {
    if log != [] {
      var init, last := log[..|log| - 1], log[|log| - 1];
      OrderlyLast(log);
      TableHoldsLog(init);
      AfterSnoc(ReadAll(init), Read(last));
      HoldsWithNext(After(ReadAll(init)), init, last);
    }
  }

  // ------------------------------------------------------------ runs of the contract

  lemma {:induction false} OrderlyAppend(log: seq<LogEntry>, campaign: nat, ledger: nat, events: seq<Event>)
    requires Orderly(log) && AllFollow(Project(log, campaign), events)
    ensures Orderly(Append(log, campaign, ledger, events))
    decreases |events|
  {
    if events != [] {
      var first := LogEntry(|log|, campaign, ledger, events[0]);
      var log' := log + [first];
      forall i | 0 <= i < |log'|
        ensures log'[i].id == i && Follows(Project(log'[..i], log'[i].campaign), log'[i].event)
      {
        assert log'[..i] == if i < |log| then log[..i] else log;
      }
      ProjectAppend(log, first, campaign);
      OrderlyAppend(log', campaign, ledger, events[1..]);
    }
  }

  // The contract's invariants on one campaign, and its first event.
  ghost predicate Regular(w: State, id: nat)
    requires id in w.cells
  {
    Sound(w.cells[id]) && PhaseTells(LifeOf(w, id)) && Project(w.log, id) != []
  }

  lemma {:induction false} StepOrderly(w: State, a: Act)
    requires Tidy(w) && Orderly(w.log) && Apply(w, a.signers, a.call).Some?
    requires forall id :: id in w.cells ==> Regular(w, id)
    ensures Orderly(Step(w, a).log)
    ensures forall id :: id in Step(w, a).cells ==> Project(Step(w, a).log, id) != []
  {
    if a.call.On? {
      var id, e := a.call.id, EnvOf(w, a.signers, a.call.id);
      var x := Attempt(w.cells[id], e, a.call.op).value;
      assert Regular(w, id);
      StepFollows(LifeOf(w, id), e, a.call.op);
      OrderlyAppend(w.log, id, w.ledger, x.events);
      CommitOnLives(w, id, x);
    } else if a.call.CreateCampaign? {
      var b := BirthOf(w, a.call);
      CreateOnLives(w, a.signers, a.call.id, b);
      assert b.Trace()[1..] == [];
      OrderlyAppend(w.log, a.call.id, w.ledger, b.Trace());
    } else {
      OthersKeepCells(w, a);
    }
  }

  lemma {:induction false} RunRegular(acts: seq<Act>, id: nat)
    requires id in Run(Genesis(), acts).cells && Project(Run(Genesis(), acts).log, id) != []
    ensures Regular(Run(Genesis(), acts), id)
  {
    var b, tries := Decompose(acts, id);
    LivedSound(b, tries);
    LivedPhases(b, tries);
  }

  lemma {:induction false} RunOrderly(acts: seq<Act>)
    ensures var w := Run(Genesis(), acts); Orderly(w.log) && forall id :: id in w.cells ==> Project(w.log, id) != []
  {
    if acts != [] {
      var init, a := acts[..|acts| - 1], acts[|acts| - 1];
      var w := Run(Genesis(), init);
      RunOrderly(init);
      NoStrayEvents(init);
      if Apply(w, a.signers, a.call).Some? {
        forall id | id in w.cells ensures Regular(w, id) { RunRegular(init, id); }
        StepOrderly(w, a);
      }
    }
  }

  // Ledgers never go down along a log, and stay within the current one.
  ghost predicate InLedgerOrder(log: seq<LogEntry>, ledger: nat) {
    && (forall i, j :: 0 <= i < j < |log| ==> log[i].ledger <= log[j].ledger)
    && (forall i :: 0 <= i < |log| ==> log[i].ledger <= ledger)
  }

  lemma AppendInOrder(log: seq<LogEntry>, campaign: nat, ledger: nat, events: seq<Event>)
    requires InLedgerOrder(log, ledger)
    ensures InLedgerOrder(Append(log, campaign, ledger, events), ledger)
    decreases |events|
  {
    if events != [] {
      AppendInOrder(log + [LogEntry(|log|, campaign, ledger, events[0])], campaign, ledger, events[1..]);
    }
  }

  // The log is what the indexer assumes of a chain: numbered, in ledger order.
  lemma {:induction false} RunInLedgerOrder(acts: seq<Act>)
    ensures InLedgerOrder(Run(Genesis(), acts).log, Run(Genesis(), acts).ledger)
  {
    if acts != [] {
      var init, a := acts[..|acts| - 1], acts[|acts| - 1];
      RunInLedgerOrder(init);
      StepInOrder(Run(Genesis(), init), a);
    }
  }

  lemma StepInOrder(w: State, a: Act)
    requires InLedgerOrder(w.log, w.ledger)
    ensures InLedgerOrder(Step(w, a).log, Step(w, a).ledger)
  {
    if Apply(w, a.signers, a.call).Some? {
      if a.call.On? {
        var x := Attempt(w.cells[a.call.id], EnvOf(w, a.signers, a.call.id), a.call.op).value;
        AppendInOrder(w.log, a.call.id, w.ledger, x.events);
      } else if a.call.CreateCampaign? {
        AppendInOrder(w.log, a.call.id, w.ledger, BirthOf(w, a.call).Trace());
      } else {
        OthersKeepCells(w, a);
        LedgerKept(w, a);
      }
    }
  }

  lemma {:induction false} LedgerKept(w: State, a: Act)
    requires !a.call.On? && !a.call.CreateCampaign?
    ensures w.ledger <= Step(w, a).ledger
  {
    if Apply(w, a.signers, a.call).Some? && !a.call.Tick? {
      assert Apply(w, a.signers, a.call).value.ledger == w.ledger;
    }
  }

  // Row by row, the campaign table is what the contract stores.
  ghost predicate TableAgrees(db: Db, w: State) {
    forall id: nat ::
      if id in w.cells then Agrees(RowOf(db, Decimal(id)), w.cells[id].campaign, Overcount(Project(w.log, id)))
      else RowOf(db, Decimal(id)).None?
  }

  ghost predicate TableDetailed(db: Db, w: State) {
    forall id: nat :: id in w.cells ==> Detailed(RowOf(db, Decimal(id)), w.cells[id])
  }

  // After every run, parsing and folding the whole log, each event once, leaves
  // exactly the contract's campaigns in the table, each in agreement with what the
  // contract stores, and every deposit as an investment. Stored and broadcast are
  // the keyed events, so all of them exactly if every one is keyed.
  lemma {:induction false} TableMirrorsEscrow(acts: seq<Act>, shapes: nat -> Shape)
    ensures var w := Run(Genesis(), acts);
            var s := ProcessAll(Service(EmptyDb(), []), Wire(w.log, shapes));
            && TableAgrees(s.db, w) && TableDetailed(s.db, w) && s.db.investments == Invested(w.log)
            && s.broadcasts == ReadAll(Keep(w.log))
            && (s.broadcasts == ReadAll(w.log) <==> AllKeyed(w.log))
            && IdsRecorded(s, w.log)
  {
    var w := Run(Genesis(), acts);
    RunOrderly(acts);
    WireIsRead(w.log, shapes);
    ProcessAllIsAfter(Wire(w.log, shapes));
    TableHoldsLog(w.log);
    KeptReadsIff(w.log);
    RowsAgree(acts, After(ReadAll(w.log)));
    RowsDetailed(acts, After(ReadAll(w.log)));
  }

  lemma {:induction false} RowsAgree(acts: seq<Act>, s: Service)
    requires RowsHold(s, Run(Genesis(), acts).log)
    ensures TableAgrees(s.db, Run(Genesis(), acts))
  {
    var w := Run(Genesis(), acts);
    NoStrayEvents(acts);
    forall id: nat
      ensures if id in w.cells
              then Agrees(RowOf(s.db, Decimal(id)), w.cells[id].campaign, Overcount(Project(w.log, id)))
              else RowOf(s.db, Decimal(id)).None?
    {
      assert RowHolds(s, w.log, id);
      if id in w.cells {
        var b, tries := Decompose(acts, id);
        LivedRowMatches(b, tries);
      }
    }
  }

  lemma {:induction false} RowsDetailed(acts: seq<Act>, s: Service)
    requires RowsHold(s, Run(Genesis(), acts).log)
    ensures TableDetailed(s.db, Run(Genesis(), acts))
  {
    var w := Run(Genesis(), acts);
    forall id: nat | id in w.cells ensures Detailed(RowOf(s.db, Decimal(id)), w.cells[id]) {
      assert RowHolds(s, w.log, id);
      var b, tries := Decompose(acts, id);
      LivedRowDetails(b, tries);
    }
  }
}
