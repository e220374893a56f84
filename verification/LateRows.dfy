// What deliveries of the contract's log, each event coming as often as it may, leave in
// the two columns of a campaign's row that harvest reports and settlements write.

module LateRows {
  import opened EscrowTypes
  import opened Lifecycle
  import opened Chain
  import opened EventWire
  import opened EventFold
  import opened Replay
  import opened DbMirror
  import opened LogFold
  import opened Redelivery

  // A harvest report or settlement of the campaign, no delivery of which has found its
  // address among the users before.
  ghost predicate WritesLate(events: seq<ParsedEvent>, p: ParsedEvent, campaign: string) {
    && p.campaign == campaign && (p.data.HarvestReportedData? || p.data.SettledData?)
    && forall j :: !ReadyAt(events, j, p.id)
  }

  // How often the settlement is written into the row, and whether a harvest report is
  // the last of these events to be written.
  ghost function Settlements(events: seq<ParsedEvent>, campaign: string): nat {
    if events == [] then 0
    else
      var init, last := events[..|events| - 1], events[|events| - 1];
      Settlements(init, campaign) + if WritesLate(init, last, campaign) && last.data.SettledData? then 1 else 0
  }

  ghost predicate HarvestLast(events: seq<ParsedEvent>, campaign: string) {
    events != [] &&
    var init, last := events[..|events| - 1], events[|events| - 1];
    if WritesLate(init, last, campaign) then last.data.HarvestReportedData? else HarvestLast(init, campaign)
  }

  // A row that has these columns from n settlements, the last of them before a harvest
  // report or not.
  ghost predicate RowTallied(row: Option<Row>, t: seq<Event>, n: nat, back: bool) {
    var fold := RowFold(t);
    && (!Concluded(t) ==> n == 0)
    && (row.Some? ==>
          && fold.Some?
          && row.value.returnable == n * fold.value.returnable
          && (Concluded(t) ==> 0 < n && row.value.status == if back then Harvested else Settled)
          && (!Concluded(t) ==> fold.value.returnable == 0 && row.value.status == fold.value.status))
  }

  // The returns in the row are those of the one settlement.
  lemma {:induction false} SettlementWritten(t: seq<Event>, i: nat)
    requires Ends(t) && i < |t| && t[i].CampaignSettled?
    ensures Concluded(t) && RowFold(t).Some? && RowFold(t).value.returnable == t[i].investorReturns
  {
    var init, last := t[..|t| - 1], t[|t| - 1];
    assert t == init + [last];
    FoldSnoc(init, last);
    PhaseSnoc(init, last);
    RowAtEnd(t);
    if i < |init| {
      SettlementWritten(init, i);
    } else {
      NoReturnsYet(init);
    }
  }

  lemma {:induction false} NoReturnsYet(t: seq<Event>)
    requires !Concluded(t)
    ensures RowFold(t).Some? ==> RowFold(t).value.returnable == 0
  {
    if t != [] {
      var init, last := t[..|t| - 1], t[|t| - 1];
      assert t == init + [last];
      PhaseSnoc(init, last);
      FoldSnoc(init, last);
      NoReturnsYet(init);
    }
  }

  lemma {:induction false} WritesLateIff(events: seq<ParsedEvent>, p: ParsedEvent, campaign: string)
    requires SameIdSameEvent(events)
    ensures WritesLate(events, p, campaign) <==>
              p.campaign == campaign && (p.data.HarvestReportedData? || p.data.SettledData?)
              && p.id !in After(events).db.transactions
  {
    StoredIffReady(events, p.id);
  }

  // The next event of the campaign is delivered for the first time.
  lemma {:induction false} NextLate(row: Option<Row>, t: seq<Event>, n: nat, back: bool, e: Event, data: Data)
    requires Ends(t) && Follows(t, e) && RowTallied(row, t, n, back) && Columns(row) == Columns(RowFold(t))
    requires data == DataOf(e)
    ensures RowTallied(RowStep(row, data), t + [e], n + if data.SettledData? then 1 else 0,
                    if data.SettledData? || data.HarvestReportedData? then data.HarvestReportedData? else back)
  {
    FoldSnoc(t, e);
    PhaseSnoc(t, e);
    if t != [] {
      RowAtEnd(t);
    }
    if e.CampaignSettled? {
      NoReturnsYet(t);
    }
  }

  // A late event of the campaign is written again.
  lemma {:induction false} AgainLate(row: Option<Row>, t: seq<Event>, n: nat, back: bool, i: nat, data: Data)
    requires Ends(t) && i < |t| && RowTallied(row, t, n, back) && row.Some? && data == DataOf(t[i])
    requires data.SettledData? || data.HarvestReportedData?
    ensures RowTallied(RowStep(row, data), t, n + if data.SettledData? then 1 else 0, data.HarvestReportedData?)
  {
    RowAtEnd(t);
    if t[i].CampaignSettled? {
      SettlementWritten(t, i);
    } else {
      HarvestWritten(t, i);
    }
  }

  ghost predicate LateHolds(events: seq<ParsedEvent>, log: seq<LogEntry>, c: nat) {
    TalliedAt(events, Project(log, c), c)
  }

  // Once the campaign is settled, the row has the contract's returns as many times as
  // the settlement has been written, and the status of the late event that was written
  // last; until then both columns are right.
  lemma {:induction false} LateColumns(events: seq<ParsedEvent>, log: seq<LogEntry>, c: nat)
    requires Delivers(events, log)
    ensures LateHolds(events, log, c)
    decreases |events|
  {
    if events == [] {
      ReadAllAt(log);
      assert log == [];
    } else {
      var init, last := events[..|events| - 1], events[|events| - 1];
      assert events == init + [last];
      DeliversLast(events, log);
      if Delivered(init, last.id) {
        LateColumns(init, log, c);
        DeliveredIsLogged(events, log, |init|);
        RepeatLate(init, log, c, last);
      } else {
        LateColumns(init, log[..|log| - 1], c);
        OrderlyLast(log);
        FirstLate(init, log[..|log| - 1], c, log[|log| - 1]);
      }
    }
  }

  // What one more delivery does to the row of campaign c, and to the two counts.
  lemma {:induction false} OneMore(events: seq<ParsedEvent>, p: ParsedEvent, c: nat)
    requires SameIdSameEvent(events)
    requires p.campaign == Decimal(c) ==> RowStep(RowOf(After(events).db, Decimal(c)), p.data).Some?
    ensures var all, campaign := events + [p], Decimal(c);
            var row := RowOf(After(events).db, campaign);
            var written := p.campaign == campaign && p.id !in After(events).db.transactions;
            var late := written && (p.data.HarvestReportedData? || p.data.SettledData?);
            && RowOf(After(all).db, campaign) == (if written then RowStep(row, p.data) else row)
            && Settlements(all, campaign)
               == Settlements(events, campaign) + (if late && p.data.SettledData? then 1 else 0)
            && HarvestLast(all, campaign) == if late then p.data.HarvestReportedData? else HarvestLast(events, campaign)
  {
    var all := events + [p];
    assert all[..|events|] == events;
    WritesLateIff(events, p, Decimal(c));
    AbsorbRow(After(events), p, Decimal(c));
  }

  ghost predicate TalliedAt(events: seq<ParsedEvent>, t: seq<Event>, c: nat) {
    RowTallied(RowOf(After(events).db, Decimal(c)), t, Settlements(events, Decimal(c)), HarvestLast(events, Decimal(c)))
  }

  // A late event is written.
  lemma {:induction false} TalliedLate(events: seq<ParsedEvent>, p: ParsedEvent, t: seq<Event>, c: nat)
    requires SameIdSameEvent(events) && p.campaign == Decimal(c) && p.id !in After(events).db.transactions
    requires p.data.SettledData? || p.data.HarvestReportedData?
    requires RowStep(RowOf(After(events).db, Decimal(c)), p.data).Some?
    requires RowTallied(RowStep(RowOf(After(events).db, Decimal(c)), p.data), t,
                        Settlements(events, Decimal(c)) + if p.data.SettledData? then 1 else 0,
                        p.data.HarvestReportedData?)
    ensures TalliedAt(events + [p], t, c)
  {
    OneMore(events, p, c);
  }

  // Another event of the campaign is.
  lemma {:induction false} TalliedOther(events: seq<ParsedEvent>, p: ParsedEvent, t: seq<Event>, c: nat)
    requires SameIdSameEvent(events) && p.campaign == Decimal(c) && p.id !in After(events).db.transactions
    requires !p.data.SettledData? && !p.data.HarvestReportedData?
    requires RowStep(RowOf(After(events).db, Decimal(c)), p.data).Some?
    requires RowTallied(RowStep(RowOf(After(events).db, Decimal(c)), p.data), t,
                        Settlements(events, Decimal(c)), HarvestLast(events, Decimal(c)))
    ensures TalliedAt(events + [p], t, c)
  {
    OneMore(events, p, c);
  }

  lemma {:induction false} TalliedAgain(events: seq<ParsedEvent>, p: ParsedEvent, t: seq<Event>, i: nat, c: nat)
    requires SameIdSameEvent(events) && TalliedAt(events, t, c) && RowOf(After(events).db, Decimal(c)).Some?
    requires p.campaign == Decimal(c) && p.id !in After(events).db.transactions
    requires Ends(t) && i < |t| && p.data == DataOf(t[i]) && (p.data.SettledData? || p.data.HarvestReportedData?)
    ensures TalliedAt(events + [p], t, c)
  {
    AgainLate(RowOf(After(events).db, Decimal(c)), t, Settlements(events, Decimal(c)), HarvestLast(events, Decimal(c)),
              i, p.data);
    TalliedLate(events, p, t, c);
  }

  lemma {:induction false} TalliedNext(events: seq<ParsedEvent>, p: ParsedEvent, t: seq<Event>, e: Event, c: nat)
    requires SameIdSameEvent(events) && TalliedAt(events, t, c)
    requires p.campaign == Decimal(c) && p.id !in After(events).db.transactions && p.data == DataOf(e)
    requires Columns(RowOf(After(events).db, Decimal(c))) == Columns(RowFold(t))
    requires RowStep(RowOf(After(events).db, Decimal(c)), p.data).Some? && Ends(t) && Follows(t, e)
    ensures TalliedAt(events + [p], t + [e], c)
  {
    NextLate(RowOf(After(events).db, Decimal(c)), t, Settlements(events, Decimal(c)), HarvestLast(events, Decimal(c)),
             e, p.data);
    if p.data.SettledData? || p.data.HarvestReportedData? {
      TalliedLate(events, p, t + [e], c);
    } else {
      TalliedOther(events, p, t + [e], c);
    }
  }

  lemma {:induction false} TalliedIdle(events: seq<ParsedEvent>, p: ParsedEvent, t: seq<Event>, c: nat)
    requires SameIdSameEvent(events) && TalliedAt(events, t, c)
    requires p.campaign != Decimal(c) || p.id in After(events).db.transactions
    ensures TalliedAt(events + [p], t, c)
  {
    WritesLateIff(events, p, Decimal(c));
    assert (events + [p])[..|events|] == events;
    AbsorbRow(After(events), p, Decimal(c));
  }

  lemma LateData(e: Event)
    requires e.CampaignSettled? || e.HarvestReported?
    ensures DataOf(e).SettledData? || DataOf(e).HarvestReportedData?
  {
  }

  // A repeat of an event that is not stored is one of a late event.
  lemma {:induction false} RepeatIsLate(events: seq<ParsedEvent>, log: seq<LogEntry>, i: nat) returns (m: nat)
    requires Delivers(events, log) && i < |log| && i !in After(events).db.transactions
    ensures var t := Project(log, log[i].campaign);
            && Ends(t) && m < |t| && t[m] == log[i].event && (t[m].CampaignSettled? || t[m].HarvestReported?)
            && RowOf(After(events).db, Decimal(log[i].campaign)).Some?
  {
    DeliveriesKeep(events, log);
    assert !KeyedAt(log, i);
    assert ColumnsHold(After(events), log, log[i].campaign);
    m := ProjectHas(log, i);
    ProjectEnds(log, log[i].campaign);
    RowAtEnd(Project(log, log[i].campaign));
  }

  lemma {:induction false} RepeatLate(events: seq<ParsedEvent>, log: seq<LogEntry>, c: nat, p: ParsedEvent)
    requires Delivers(events, log) && LateHolds(events, log, c) && p.id < |log| && p == Read(log[p.id])
    ensures LateHolds(events + [p], log, c)
  {
    SameName(log[p.id].campaign, c);
    if log[p.id].campaign == c && p.id !in After(events).db.transactions {
      var m := RepeatIsLate(events, log, p.id);
      LateData(log[p.id].event);
      TalliedAgain(events, p, Project(log, c), m, c);
    } else {
      TalliedIdle(events, p, Project(log, c), c);
    }
  }

  lemma {:induction false} NextIsWritten(events: seq<ParsedEvent>, log: seq<LogEntry>, e: LogEntry)
    requires Delivers(events, log) && e.id == |log| && Follows(Project(log, e.campaign), e.event)
    ensures var row, t := RowOf(After(events).db, Decimal(e.campaign)), Project(log, e.campaign);
            && Columns(row) == Columns(RowFold(t)) && Ends(t) && RowStep(row, DataOf(e.event)).Some?
            && e.id !in After(events).db.transactions
  {
    DeliveriesKeep(events, log);
    assert ColumnsHold(After(events), log, e.campaign);
    RowCanBeWritten(After(events), log, e);
    ProjectEnds(log, e.campaign);
  }

  lemma {:induction false} FirstLate(events: seq<ParsedEvent>, log: seq<LogEntry>, c: nat, e: LogEntry)
    requires Delivers(events, log) && LateHolds(events, log, c)
    requires e.id == |log| && Follows(Project(log, e.campaign), e.event)
    ensures LateHolds(events + [Read(e)], log + [e], c)
  {
    ProjectAppend(log, e, c);
    SameName(e.campaign, c);
    if e.campaign == c {
      NextIsWritten(events, log, e);
      TalliedNext(events, Read(e), Project(log, c), e.event, c);
    } else {
      TalliedIdle(events, Read(e), Project(log, c), c);
    }
  }
}
