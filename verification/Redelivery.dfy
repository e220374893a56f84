// Deliveries that follow the contract's log, each event coming as often as it may:
// what they store, when a repeat does harm, and what stays right in any case.

module Redelivery {
  import opened EscrowTypes
  import opened Accounting
  import opened Lifecycle
  import opened EventWire
  import opened EventFold
  import opened Replay
  import opened DbMirror
  import opened LogFold

  // The first deliveries are the log, in order.
  ghost predicate Delivers(events: seq<ParsedEvent>, log: seq<LogEntry>) {
    Orderly(log) && SameIdSameEvent(events) && Firsts(events) == ReadAll(log)
  }

  // The list is empty, or ends with the last entry of the log, or with a repeat.
  lemma {:induction false} DeliversLast(events: seq<ParsedEvent>, log: seq<LogEntry>)
    requires Delivers(events, log) && events != []
    ensures var init, last := events[..|events| - 1], events[|events| - 1];
            if Delivered(init, last.id) then Delivers(init, log)
            else log != [] && Delivers(init, log[..|log| - 1]) && last == Read(log[|log| - 1])
  {
    var init, last := events[..|events| - 1], events[|events| - 1];
    SameIdPrefix(events, |init|);
    ReadAllAt(log);
    if !Delivered(init, last.id) {
      assert Firsts(events) == Firsts(init) + [last];
      assert Firsts(init) == Firsts(events)[..|log| - 1];
      assert ReadAll(log) == ReadAll(log[..|log| - 1]) + [Read(log[|log| - 1])];
      OrderlyPrefix(log, |log| - 1);
    }
  }

  // What is delivered is in the log, and what is in the log is delivered.
  lemma {:induction false} DeliveredIsLogged(events: seq<ParsedEvent>, log: seq<LogEntry>, k: nat)
    requires Delivers(events, log) && k < |events|
    ensures events[k].id < |log| && events[k] == Read(log[events[k].id])
  {
    DeliveredInFirsts(events, events[k].id);
    FirstsAreDelivered(events);
    ReadAllAt(log);
    var j :| 0 <= j < |log| && Firsts(events)[j].id == events[k].id;
    assert log[j].id == j && Firsts(events)[j] in events;
  }

  lemma {:induction false} LoggedIsDelivered(events: seq<ParsedEvent>, log: seq<LogEntry>, i: nat)
    requires Delivers(events, log) && i < |log|
    ensures Read(log[i]) in events
  {
    ReadAllAt(log);
    FirstsAreDelivered(events);
    assert Firsts(events)[i] in Firsts(events);
  }

  // ------------------------------------------------------------ what is right in any case

  // A row without the columns that harvest reports and settlements write.
  function Columns(row: Option<Row>): Option<Row> {
    if row.None? then None else Some(row.value.(status := Active, outcome := None, returnable := 0))
  }

  lemma {:induction false} ColumnsStep(a: Option<Row>, b: Option<Row>, data: Data)
    requires Columns(a) == Columns(b)
    ensures Columns(RowStep(a, data)) == Columns(RowStep(b, data))
    ensures a.Some? && (data.HarvestReportedData? || data.SettledData?) ==> Columns(RowStep(a, data)) == Columns(a)
  {
  }

  ghost predicate ColumnsHold(s: Service, log: seq<LogEntry>, c: nat) {
    Columns(RowOf(s.db, Decimal(c))) == Columns(RowFold(Project(log, c)))
  }

  // Investments and users are those of the log, the keyed events are stored, and all
  // rows are right up to these columns.
  ghost predicate Kept(s: Service, log: seq<LogEntry>) {
    && s.db.investments == Invested(log) && s.db.users == Seen(log)
    && (forall i :: 0 <= i < |log| && KeyedAt(log, i) ==> i in s.db.transactions)
    && (forall id :: id in s.db.transactions ==> id < |log|)
  }

  ghost predicate AllColumnsHold(s: Service, log: seq<LogEntry>) {
    forall c: nat :: ColumnsHold(s, log, c)
  }

  lemma {:induction false} DeliveriesKeep(events: seq<ParsedEvent>, log: seq<LogEntry>)
    requires Delivers(events, log)
    ensures Kept(After(events), log) && AllColumnsHold(After(events), log)
    decreases |events|
  {
    if events == [] {
      ReadAllAt(log);
      assert log == [];
      forall c: nat ensures ColumnsHold(After(events), log, c) {
      }
    } else {
      var init, last := events[..|events| - 1], events[|events| - 1];
      DeliversLast(events, log);
      if Delivered(init, last.id) {
        DeliveriesKeep(init, log);
        DeliveredIsLogged(events, log, |init|);
        RepeatKeeps(After(init), log, last.id);
      } else {
        OrderlyLast(log);
        DeliveriesKeep(init, log[..|log| - 1]);
        NextKeeps(After(init), log[..|log| - 1], log[|log| - 1]);
      }
    }
  }

  lemma {:induction false} RepeatKeeps(s: Service, log: seq<LogEntry>, i: nat)
    requires Orderly(log) && i < |log| && Kept(s, log) && AllColumnsHold(s, log)
    ensures Kept(Absorb(s, Read(log[i])), log) && AllColumnsHold(Absorb(s, Read(log[i])), log)
  {
    var p := Read(log[i]);
    AbsorbAdds(s, p);
    if i !in s.db.transactions {
      assert !KeyedAt(log, i);
      forall c: nat ensures ColumnsHold(Absorb(s, p), log, c) {
        assert ColumnsHold(s, log, c);
        LateKeepsColumns(s, p, Decimal(c));
      }
    }
  }

  lemma {:induction false} AbsorbRow(s: Service, p: ParsedEvent, campaign: string)
    ensures var row := RowOf(s.db, campaign);
            RowOf(Absorb(s, p).db, campaign) ==
              if p.campaign == campaign && p.id !in s.db.transactions && RowStep(row, p.data).Some?
              then RowStep(row, p.data)
              else row
  {
  }

  lemma {:induction false} LateKeepsColumns(s: Service, p: ParsedEvent, campaign: string)
    requires p.data.HarvestReportedData? || p.data.SettledData?
    ensures Columns(RowOf(Absorb(s, p).db, campaign)) == Columns(RowOf(s.db, campaign))
    ensures Absorb(s, p).db.investments == s.db.investments
  {
    ColumnsStep(RowOf(s.db, p.campaign), RowOf(s.db, p.campaign), p.data);
  }

  lemma {:induction false} NextKeeps(s: Service, log: seq<LogEntry>, e: LogEntry)
    requires Orderly(log) && e.id == |log| && Follows(Project(log, e.campaign), e.event)
    requires Kept(s, log) && AllColumnsHold(s, log)
    ensures Kept(Absorb(s, Read(e)), log + [e]) && AllColumnsHold(Absorb(s, Read(e)), log + [e])
  {
    assert ColumnsHold(s, log, e.campaign);
    RowCanBeWritten(s, log, e);
    AppendedTo(log, e);
    AbsorbAdds(s, Read(e));
    StoredIfKeyed(s, e);
    AddsInvestment(s, log, e);
    forall c: nat ensures ColumnsHold(Absorb(s, Read(e)), log + [e], c) {
      assert ColumnsHold(s, log, c);
      ColumnsWithNext(s, log, e, c);
    }
  }

  lemma {:induction false} RowCanBeWritten(s: Service, log: seq<LogEntry>, e: LogEntry)
    requires Orderly(log) && ColumnsHold(s, log, e.campaign) && Follows(Project(log, e.campaign), e.event)
    ensures RowStep(RowOf(s.db, Decimal(e.campaign)), DataOf(e.event)).Some?
  {
    if Project(log, e.campaign) != [] {
      RowKnown(log, e.campaign);
    }
  }

  lemma {:induction false} ColumnsWithNext(s: Service, log: seq<LogEntry>, e: LogEntry, c: nat)
    requires e.id !in s.db.transactions && RowStep(RowOf(s.db, Decimal(e.campaign)), DataOf(e.event)).Some?
    requires ColumnsHold(s, log, e.campaign) && ColumnsHold(s, log, c)
    ensures ColumnsHold(Absorb(s, Read(e)), log + [e], c)
  {
    ProjectAppend(log, e, c);
    if c == e.campaign {
      FoldSnoc(Project(log, c), e.event);
      ColumnsStep(RowOf(s.db, Decimal(c)), RowFold(Project(log, c)), DataOf(e.event));
    } else if Decimal(c) == Decimal(e.campaign) {
      DecimalInjective(c, e.campaign);
    }
  }

  // ------------------------------------------------------------ what is stored and broadcast

  lemma {:induction false} CreatedIffLogged(events: seq<ParsedEvent>, log: seq<LogEntry>, c: nat)
    requires Delivers(events, log)
    ensures Created(events, Decimal(c)) <==> Project(log, c) != []
  {
    DeliveriesKeep(events, log);
    assert ColumnsHold(After(events), log, c);
    RowIffCreated(events, Decimal(c));
    if Project(log, c) != [] {
      RowKnown(log, c);
    }
  }

  lemma {:induction false} NamedIffSeen(events: seq<ParsedEvent>, log: seq<LogEntry>, user: string)
    requires Delivers(events, log)
    ensures Named(events, user) <==> user in Seen(log)
  {
    DeliveriesKeep(events, log);
    UserIffNamed(events, user);
  }

  // An event of a created campaign finds what it needs exactly if it is keyed.
  lemma {:induction false} ReadyIffKeyed(events: seq<ParsedEvent>, log: seq<LogEntry>, e: LogEntry)
    requires Delivers(events, log) && (e.event.CampaignCreated? || Project(log, e.campaign) != [])
    ensures Ready(events, Read(e)) <==> Keyed(Seen(log), e.event)
  {
    CreatedIffLogged(events, log, e.campaign);
    if e.event.HarvestReported? || e.event.CampaignSettled? {
      NamedIffSeen(events, log, e.event.farmer);
    }
  }

  // The event that made an address a user has been broadcast.
  lemma {:induction false} NamerIsBroadcast(events: seq<ParsedEvent>, log: seq<LogEntry>, user: string)
    returns (p: ParsedEvent)
    requires Delivers(events, log) && Named(events, user)
    ensures Names(p, user) && p in After(events).broadcasts
  {
    var j :| 0 <= j < |events| && Names(events[j], user);
    NamersAreStored(events, log, j);
    StoredIsBroadcast(events, events[j]);
    p := events[j];
  }

  // So a harvest report or settlement is never broadcast in its place in the log
  // unless an earlier event made its address a user.
  lemma {:induction false} BroadcastAt(events: seq<ParsedEvent>, log: seq<LogEntry>, i: nat)
    requires Delivers(events, log) && i < |log|
    requires After(events).broadcasts == ReadAll(log)
    ensures KeyedAt(log, i)
  {
    ReadAllAt(log);
    var user := LateUser(log[i].event);
    if user.Some? {
      var k := StoredWhen(events, i);
      var p := StoredNeedsNamer(events, log, k, user.value);
      NamedBefore(log, i, p, user.value);
    }
  }

  // The address that only an earlier event can have made a user.
  function LateUser(e: Event): (user: Option<string>)
    ensures forall users: set<string> :: Keyed(users, e) <==> user.None? || user.value in users
    ensures user.Some? ==> UserOf(DataOf(e)) == user && !EnsuresUser(DataOf(e))
  {
    match e
    case HarvestReported(farmer, _, _) => Some(farmer)
    case CampaignSettled(farmer, _, _, _) => Some(farmer)
    case _ => None
  }

  // When such an event is stored, the one that made its address a user has been
  // broadcast.
  lemma {:induction false} StoredNeedsNamer(events: seq<ParsedEvent>, log: seq<LogEntry>, k: nat, user: string)
    returns (p: ParsedEvent)
    requires Delivers(events, log) && k < |events| && Persist(After(events[..k]).db, events[k]).stored
    requires UserOf(events[k].data) == Some(user) && !EnsuresUser(events[k].data)
    ensures Names(p, user) && p in After(events[..k]).broadcasts
  {
    var log' := DeliversPrefix(events, log, k);
    StoredIfReady(events[..k], events[k]);
    p := NamerIsBroadcast(events[..k], log', user);
  }

  lemma {:induction false} NamedBefore(log: seq<LogEntry>, i: nat, p: ParsedEvent, user: string)
    requires i <= |log| == |ReadAll(log)| && Names(p, user) && p in ReadAll(log)[..i]
    ensures user in Seen(log[..i])
  {
    ReadAllAt(log);
    var m :| 0 <= m < i && ReadAll(log)[m] == p;
    assert log[..i][m] == log[m];
    SeenNames(log[..i], m, user);
  }

  lemma {:induction false} SeenNames(log: seq<LogEntry>, m: nat, user: string)
    requires m < |log| && Names(Read(log[m]), user)
    ensures user in Seen(log)
  {
    if m < |log| - 1 {
      SeenNames(log[..|log| - 1], m, user);
    }
  }

  lemma {:induction false} DeliversPrefix(events: seq<ParsedEvent>, log: seq<LogEntry>,
                                          k: nat) returns (log': seq<LogEntry>)
    requires Delivers(events, log) && k <= |events|
    ensures Delivers(events[..k], log') && log' <= log
  {
    if k == |events| {
      assert events[..k] == events;
      log' := log;
    } else {
      var init, last := events[..|events| - 1], events[|events| - 1];
      DeliversLast(events, log);
      log' := DeliversPrefix(init, if Delivered(init, last.id) then log else log[..|log| - 1], k);
      assert init[..k] == events[..k];
    }
  }

  // The delivery at which the i-th broadcast was made.
  lemma {:induction false} StoredWhen(events: seq<ParsedEvent>, i: nat) returns (k: nat)
    requires i < |After(events).broadcasts|
    ensures k < |events| && Persist(After(events[..k]).db, events[k]).stored
    ensures After(events[..k]).broadcasts == After(events).broadcasts[..i] && events[k] == After(events).broadcasts[i]
  {
    var init, last := events[..|events| - 1], events[|events| - 1];
    AbsorbAdds(After(init), last);
    if i < |After(init).broadcasts| {
      k := StoredWhen(init, i);
      assert init[..k] == events[..k];
    } else {
      k := |init|;
    }
  }

  // An event whose handler makes its address a user is stored at once.
  lemma {:induction false} NamersAreStored(events: seq<ParsedEvent>, log: seq<LogEntry>, j: nat)
    requires Delivers(events, log) && j < |events| && EnsuresUser(events[j].data)
    ensures events[j].id in After(events).db.transactions
  {
    DeliveriesKeep(events, log);
    DeliveredIsLogged(events, log, j);
    assert KeyedAt(log, events[j].id);
  }

  lemma {:induction false} StoredIsBroadcast(events: seq<ParsedEvent>, p: ParsedEvent)
    requires SameIdSameEvent(events) && p in events && p.id in After(events).db.transactions
    ensures p in After(events).broadcasts
  {
    var init, last := events[..|events| - 1], events[|events| - 1];
    assert events == init + [last];
    SameIdPrefix(events, |init|);
    AbsorbAdds(After(init), last);
    if p.id in After(init).db.transactions {
      RecordedWasDelivered(init, p.id);
      var i :| 0 <= i < |init| && init[i].id == p.id;
      var j :| 0 <= j < |events| && events[j] == p;
      assert events[i] == events[j];
      StoredIsBroadcast(init, p);
    } else {
      var j :| 0 <= j < |events| && events[j] == p;
      assert events[|init|].id == events[j].id;
    }
  }

  // Whatever comes again, and however often: every event of the log is stored and
  // broadcast, in its order, exactly if all are keyed.
  lemma {:induction false} AllBroadcastIff(events: seq<ParsedEvent>, log: seq<LogEntry>)
    requires Delivers(events, log)
    ensures After(events).broadcasts == ReadAll(log) <==> AllKeyed(log)
  {
    if AllKeyed(log) {
      ReplayOfLog(events, log);
      TableHoldsLog(log);
      KeepAllIff(log);
    }
    if After(events).broadcasts == ReadAll(log) {
      forall i | 0 <= i < |log| ensures KeyedAt(log, i) {
        BroadcastAt(events, log, i);
      }
    }
  }

  // Deliveries of a log whose events are all keyed leave what the log leaves.
  lemma {:induction false} ReplayOfLog(events: seq<ParsedEvent>, log: seq<LogEntry>)
    requires Delivers(events, log) && AllKeyed(log)
    ensures After(events) == After(ReadAll(log))
    decreases |events|
  {
    if events == [] {
      ReadAllAt(log);
    } else {
      var init, last := events[..|events| - 1], events[|events| - 1];
      DeliversLast(events, log);
      if Delivered(init, last.id) {
        ReplayOfLog(init, log);
        DeliveredIsLogged(events, log, |init|);
        DeliveriesKeep(init, log);
        assert KeyedAt(log, last.id);
        AbsorbAdds(After(init), last);
      } else {
        AllKeyedSnoc(log);
        ReplayOfLog(init, log[..|log| - 1]);
        AfterSnoc(ReadAll(log[..|log| - 1]), last);
      }
    }
  }

  // ------------------------------------------------------------ when a repeat does harm

  ghost predicate SettlementIn(events: seq<ParsedEvent>, campaign: string) {
    exists j :: 0 <= j < |events| && events[j].data.SettledData? && events[j].campaign == campaign
  }

  // A repeat of an event that was never keyed when it came: it does harm if it is by
  // now, since it is then stored out of its order; if it is a settlement with returns
  // to the investors, which are added again; and if it is a harvest report and the
  // settlement of the campaign has come since, whose status it overwrites.
  ghost predicate Harmful(events: seq<ParsedEvent>, k: nat)
    requires k < |events|
  {
    var before, p := events[..k], events[k];
    && Delivered(before, p.id) && (forall j :: !ReadyAt(before, j, p.id))
    && (Ready(before, p) || (p.data.SettledData? && p.data.investorReturns != 0)
        || (p.data.HarvestReportedData? && SettlementIn(before, p.campaign)))
  }

  lemma {:induction false} ProjectHas(log: seq<LogEntry>, i: nat) returns (m: nat)
    requires i < |log|
    ensures m < |Project(log, log[i].campaign)| && Project(log, log[i].campaign)[m] == log[i].event
  {
    var init, last := log[..|log| - 1], log[|log| - 1];
    assert log == init + [last];
    ProjectAppend(init, last, log[i].campaign);
    if i < |init| {
      m := ProjectHas(init, i);
    } else {
      m := |Project(init, last.campaign)|;
    }
  }

  lemma {:induction false} ConcludedBy(log: seq<LogEntry>, c: nat) returns (i: nat)
    requires Concluded(Project(log, c))
    ensures i < |log| && log[i].campaign == c && log[i].event.CampaignSettled?
  {
    var init, last := log[..|log| - 1], log[|log| - 1];
    assert log == init + [last];
    ProjectAppend(init, last, c);
    PhaseSnoc(Project(init, c), last.event);
    if last.campaign == c && last.event.CampaignSettled? {
      i := |init|;
    } else {
      i := ConcludedBy(init, c);
    }
  }

  lemma {:induction false} SettlementIff(events: seq<ParsedEvent>, log: seq<LogEntry>, c: nat)
    requires Delivers(events, log)
    ensures SettlementIn(events, Decimal(c)) <==> Concluded(Project(log, c))
  {
    if Concluded(Project(log, c)) {
      var i := ConcludedBy(log, c);
      LoggedIsDelivered(events, log, i);
      var j :| 0 <= j < |events| && events[j] == Read(log[i]);
    }
    if SettlementIn(events, Decimal(c)) {
      var j :| 0 <= j < |events| && events[j].data.SettledData? && events[j].campaign == Decimal(c);
      DeliveredIsLogged(events, log, j);
      SettlementLogged(log, events[j].id, c);
    }
  }

  lemma {:induction false} SettlementLogged(log: seq<LogEntry>, i: nat, c: nat)
    requires i < |log| && Read(log[i]).data.SettledData? && Decimal(log[i].campaign) == Decimal(c)
    ensures Concluded(Project(log, c))
  {
    DecimalInjective(log[i].campaign, c);
    var m := ProjectHas(log, i);
    SettlementCloses(Project(log, c), m);
  }

  // What a late event would write into its campaign's row a second time.
  lemma {:induction false} LateWritesAgain(s: Service, log: seq<LogEntry>, i: nat)
    requires Orderly(log) && i < |log| && RowsHold(s, log) && LateUser(log[i].event).Some?
    ensures var p, row := Read(log[i]), RowOf(s.db, Decimal(log[i].campaign));
            && row.Some?
            && (RowStep(row, p.data) != row <==>
                  if p.data.SettledData? then p.data.investorReturns != 0 else Concluded(Project(log, log[i].campaign)))
  {
    var c := log[i].campaign;
    assert RowHolds(s, log, c);
    ProjectEnds(log, c);
    var m := ProjectHas(log, i);
    RowAtEnd(Project(log, c));
    WrittenAgain(Project(log, c), m);
  }

  // As long as no repeat has shown, the harmful repeats are the ones that take effect.
  lemma {:induction false} HarmfulIff(events: seq<ParsedEvent>, k: nat, log: seq<LogEntry>)
    requires k < |events| && SameIdSameEvent(events) && Delivers(events[..k], log) && Unseen(events[..k])
    ensures TakesEffect(events, k) <==> Harmful(events, k)
  {
    var before, p := events[..k], events[k];
    if Delivered(before, p.id) {
      var j :| 0 <= j < |before| && before[j].id == p.id;
      assert before[j] == events[j];
      DeliveredIsLogged(before, log, j);
      StoredIffReady(before, p.id);
      TableHoldsLog(log);
      if p.id !in After(before).db.transactions {
        LateHarmfulIff(events, k, log, p.id);
      }
    }
  }

  lemma {:induction false} LateHarmfulIff(events: seq<ParsedEvent>, k: nat, log: seq<LogEntry>, i: nat)
    requires k < |events| && Delivers(events[..k], log) && RowsHold(After(events[..k]), log)
    requires i < |log| && events[k] == Read(log[i]) && log[i].id == i && !KeyedAt(log, i)
    ensures var before, p := events[..k], events[k];
            var db := After(before).db;
            && p.campaign in db.campaigns
            && (UserKnown(db.users, p.data) <==> Ready(before, p))
            && (RowStep(RowOf(db, p.campaign), p.data) != RowOf(db, p.campaign) <==>
                  (p.data.SettledData? && p.data.investorReturns != 0)
                  || (p.data.HarvestReportedData? && SettlementIn(before, p.campaign)))
  {
    var before := events[..k];
    var c := log[i].campaign;
    LateWritesAgain(After(before), log, i);
    SettlementIff(before, log, c);
    var m := ProjectHas(log, i);
    ReadyIffKeyed(before, log, log[i]);
    DeliveriesKeep(before, log);
  }

  ghost predicate NoneHarmful(events: seq<ParsedEvent>) {
    forall k :: 0 <= k < |events| ==> !Harmful(events, k)
  }

  lemma {:induction false} NoneHarmfulSnoc(events: seq<ParsedEvent>)
    requires events != []
    ensures NoneHarmful(events) <==> NoneHarmful(events[..|events| - 1]) && !Harmful(events, |events| - 1)
  {
    var init := events[..|events| - 1];
    forall k | 0 <= k < |init| ensures Harmful(events, k) <==> Harmful(init, k) {
      assert events[..k] == init[..k];
    }
  }

  // At no time do repeats show in the database exactly if none of them does harm.
  lemma {:induction false} SteadyIffHarmless(events: seq<ParsedEvent>, log: seq<LogEntry>)
    requires Delivers(events, log)
    ensures Steady(events) <==> NoneHarmful(events)
    decreases |events|
  {
    if events == [] {
      SteadyIff(events);
    } else {
      var init, last := events[..|events| - 1], events[|events| - 1];
      DeliversLast(events, log);
      var log' := if Delivered(init, last.id) then log else log[..|log| - 1];
      SteadyIffHarmless(init, log');
      SteadySnoc(events);
      NoneHarmfulSnoc(events);
      if Steady(init) {
        LastHarmsIff(events, log');
      }
    }
  }

  lemma {:induction false} LastHarmsIff(events: seq<ParsedEvent>, log: seq<LogEntry>)
    requires events != [] && SameIdSameEvent(events)
    requires Delivers(events[..|events| - 1], log) && Steady(events[..|events| - 1])
    ensures Unseen(events) <==> !Harmful(events, |events| - 1)
  {
    SteadyNow(events[..|events| - 1]);
    LastShows(events);
    HarmfulIff(events, |events| - 1, log);
  }

  // With keyed events only, no repeat does.
  lemma {:induction false} KeyedIsHarmless(events: seq<ParsedEvent>, log: seq<LogEntry>)
    requires Delivers(events, log) && AllKeyed(log)
    ensures NoneHarmful(events)
  {
    forall k | 0 <= k < |events| ensures !Harmful(events, k) {
      var before := events[..k];
      if Delivered(before, events[k].id) {
        var log' := DeliversPrefix(events, log, k);
        var j :| 0 <= j < |before| && before[j].id == events[k].id;
        DeliveredIsLogged(before, log', j);
        DeliveriesKeep(before, log');
        KeyedPrefix(log, log', events[k].id);
        StoredIffReady(before, events[k].id);
      }
    }
  }

  lemma KeyedPrefix(log: seq<LogEntry>, log': seq<LogEntry>, i: nat)
    requires log' <= log && i < |log'| && AllKeyed(log)
    ensures KeyedAt(log', i)
  {
    assert KeyedAt(log, i) && log'[..i] == log[..i];
  }
}
