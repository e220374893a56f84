// Deliveries of a log with losses, in any order, after which all of the log has
// been stored in its order after all: which rows are right then.

module PartialDelivery {
  import opened EscrowTypes
  import opened Accounting
  import opened Lifecycle
  import opened EventWire
  import opened EventFold
  import opened Replay
  import opened DbMirror
  import opened LogFold
  import opened Redelivery

  // All deliveries are of events of the log.
  ghost predicate OfLog(events: seq<ParsedEvent>, log: seq<LogEntry>) {
    Orderly(log) && forall k :: 0 <= k < |events| ==> events[k].id < |log| && events[k] == Read(log[events[k].id])
  }

  lemma OfLogSameId(events: seq<ParsedEvent>, log: seq<LogEntry>)
    requires OfLog(events, log)
    ensures SameIdSameEvent(events)
  {
  }

  ghost predicate HarvestIn(events: seq<ParsedEvent>, campaign: string) {
    exists j :: 0 <= j < |events| && events[j].data.HarvestReportedData? && events[j].campaign == campaign
  }

  // A settlement that finds its campaign, but not its address among the users: its
  // returns are added to the row, and it is not stored.
  ghost predicate AddsUnstored(events: seq<ParsedEvent>, p: ParsedEvent, campaign: string) {
    p.data.SettledData? && p.campaign == campaign && Created(events, campaign) && !Ready(events, p)
  }

  ghost function Extra(events: seq<ParsedEvent>, campaign: string): int {
    if events == [] then 0
    else
      var init, last := events[..|events| - 1], events[|events| - 1];
      Extra(init, campaign) + if AddsUnstored(init, last, campaign) then last.data.investorReturns else 0
  }

  lemma ExtraSnoc(events: seq<ParsedEvent>, p: ParsedEvent, campaign: string)
    ensures Extra(events + [p], campaign)
         == Extra(events, campaign) + if AddsUnstored(events, p, campaign) then p.data.investorReturns else 0
    ensures SettlementIn(events + [p], campaign)
       <==> SettlementIn(events, campaign) || (p.data.SettledData? && p.campaign == campaign)
    ensures HarvestIn(events + [p], campaign)
       <==> HarvestIn(events, campaign) || (p.data.HarvestReportedData? && p.campaign == campaign)
  {
    var all := events + [p];
    assert all[..|events|] == events && all[|events|] == p;
    if SettlementIn(events, campaign) {
      var j :| 0 <= j < |events| && events[j].data.SettledData? && events[j].campaign == campaign;
      assert all[j] == events[j];
    }
    if HarvestIn(events, campaign) {
      var j :| 0 <= j < |events| && events[j].data.HarvestReportedData? && events[j].campaign == campaign;
      assert all[j] == events[j];
    }
  }

  // A row against the fold of what is stored of its campaign: the returns are too
  // high by those added without storing.
  ghost predicate MoneyInv(row: Option<Row>, events: seq<ParsedEvent>, t: seq<Event>, campaign: string) {
    var fold := RowFold(t);
    && Columns(row) == Columns(fold)
    && (row.None? ==> Extra(events, campaign) == 0)
    && (row.Some? ==> row.value.returnable == fold.value.returnable + Extra(events, campaign))
  }

  // The status is right unless a late event that is not stored has been written.
  ghost predicate StatusInv(row: Option<Row>, events: seq<ParsedEvent>, t: seq<Event>, campaign: string) {
    StatusOk(row, RowFold(t), Reaped(t), Concluded(t), HarvestIn(events, campaign), SettlementIn(events, campaign))
  }

  ghost predicate StatusOk(row: Option<Row>, fold: Option<Row>, reaped: bool, concluded: bool, harvest: bool,
                           settlement: bool) {
    row.Some? && fold.Some? ==>
      && (concluded ==> row.value.status == Settled)
      && (reaped && !settlement ==> row.value.status == Harvested)
      && (!harvest && !settlement ==> row.value.status == fold.value.status)
  }

  lemma {:induction false} StatusStep(row: Option<Row>, fold: Option<Row>, reaped: bool, concluded: bool, harvest: bool,
                                      settlement: bool, data: Data)
    requires StatusOk(row, fold, reaped, concluded, harvest, settlement) && Columns(row) == Columns(fold)
    requires reaped ==> data.SettledData? || data.ReturnClaimedData? || data.RefundClaimedData?
    requires concluded ==> data.ReturnClaimedData? || data.RefundClaimedData?
    ensures StatusOk(RowStep(row, data), RowStep(fold, data), reaped || data.HarvestReportedData?,
                     concluded || data.SettledData?, harvest || data.HarvestReportedData?,
                     settlement || data.SettledData?)
  {
  }

  ghost predicate RowInv(row: Option<Row>, events: seq<ParsedEvent>, t: seq<Event>, campaign: string) {
    MoneyInv(row, events, t, campaign) && StatusInv(row, events, t, campaign)
  }

  // Nothing happens to the row.
  lemma {:induction false} InvIdle(row: Option<Row>, events: seq<ParsedEvent>, t: seq<Event>, campaign: string,
                                   p: ParsedEvent)
    requires RowInv(row, events, t, campaign) && !AddsUnstored(events, p, campaign)
    ensures RowInv(row, events + [p], t, campaign)
  {
    ExtraSnoc(events, p, campaign);
  }

  // The next event of the campaign is stored.
  lemma {:induction false} InvStored(row: Option<Row>, events: seq<ParsedEvent>, t: seq<Event>, campaign: string,
                                     p: ParsedEvent,
                                     e: Event)
    requires RowInv(row, events, t, campaign) && Ready(events, p) && p.data == DataOf(e) && p.campaign == campaign
    requires Ends(t) && Follows(t, e) && RowStep(row, p.data).Some?
    ensures RowInv(RowStep(row, p.data), events + [p], t + [e], campaign)
  {
    ExtraSnoc(events, p, campaign);
    FoldSnoc(t, e);
    ColumnsStep(row, RowFold(t), p.data);
    StatusStored(row, events, t, campaign, p, e);
  }

  lemma {:induction false} StatusStored(row: Option<Row>, events: seq<ParsedEvent>, t: seq<Event>, campaign: string,
                                        p: ParsedEvent, e: Event)
    requires StatusInv(row, events, t, campaign) && Columns(row) == Columns(RowFold(t))
    requires p.data == DataOf(e) && p.campaign == campaign && Follows(t, e) && RowStep(row, p.data).Some?
    ensures StatusInv(RowStep(row, p.data), events + [p], t + [e], campaign)
  {
    ExtraSnoc(events, p, campaign);
    FoldSnoc(t, e);
    PhaseSnoc(t, e);
    StatusStep(row, RowFold(t), Reaped(t), Concluded(t), HarvestIn(events, campaign), SettlementIn(events, campaign),
               p.data);
  }

  // A late event is written without being stored.
  lemma {:induction false} InvWritten(row: Option<Row>, events: seq<ParsedEvent>, t: seq<Event>, campaign: string,
                                      p: ParsedEvent)
    requires RowInv(row, events, t, campaign) && row.Some? && p.campaign == campaign
    requires p.data.HarvestReportedData? || p.data.SettledData?
    requires Created(events, campaign) && !Ready(events, p)
    requires Reaped(t) ==> !p.data.HarvestReportedData?
    requires !Concluded(t)
    ensures RowInv(RowStep(row, p.data), events + [p], t, campaign)
  {
    ExtraSnoc(events, p, campaign);
    ColumnsStep(row, row, p.data);
  }

  lemma {:induction false} PhaseStays(log: seq<LogEntry>, n: nat, i: nat, c: nat)
    requires n <= i <= |log|
    ensures Reaped(Project(log[..n], c)) ==> Reaped(Project(log[..i], c))
    ensures Concluded(Project(log[..n], c)) ==> Concluded(Project(log[..i], c))
  {
    if n < i {
      PhaseStays(log, n, i - 1, c);
      assert log[..i] == log[..i - 1] + [log[i - 1]];
      ProjectAppend(log[..i - 1], log[i - 1], c);
      PhaseSnoc(Project(log[..i - 1], c), log[i - 1].event);
    }
  }

  lemma {:induction false} BroadcastIsStored(events: seq<ParsedEvent>)
    ensures forall p :: p in After(events).broadcasts ==> p.id in After(events).db.transactions
  {
    if events != [] {
      BroadcastIsStored(events[..|events| - 1]);
      AbsorbAdds(After(events[..|events| - 1]), events[|events| - 1]);
    }
  }

  // Where a delivery stores its event, it is the next one of the log.
  lemma {:induction false} StoredIsNext(bs: seq<ParsedEvent>, p: ParsedEvent, log: seq<LogEntry>, n: nat)
    requires n <= |log| && bs + [p] == ReadAll(log[..n])
    ensures 0 < n && bs == ReadAll(log[..n - 1]) && p == Read(log[n - 1]) && log[..n] == log[..n - 1] + [log[n - 1]]
  {
    ReadAllAt(log[..n]);
    assert log[..n][..n - 1] == log[..n - 1];
    assert bs == (bs + [p])[..n - 1];
  }

  // Where it does not, and the event is not stored yet, it is a later one.
  lemma {:induction false} EarlierIsStored(events: seq<ParsedEvent>, log: seq<LogEntry>, n: nat, i: nat)
    requires n <= |log| && After(events).broadcasts == ReadAll(log[..n]) && Orderly(log) && i < n
    ensures i in After(events).db.transactions
  {
    ReadAllAt(log[..n]);
    BroadcastIsStored(events);
    assert ReadAll(log[..n])[i] in After(events).broadcasts;
  }

  // In a state in which the first n events of the log have been stored in order, the
  // row of campaign c is as described.
  ghost predicate InvAt(events: seq<ParsedEvent>, log: seq<LogEntry>, n: nat, c: nat)
    requires n <= |log|
  {
    RowInv(RowOf(After(events).db, Decimal(c)), events, Project(log[..n], c), Decimal(c))
  }

  lemma {:induction false} RowsInv(events: seq<ParsedEvent>, log: seq<LogEntry>, n: nat, c: nat)
    requires OfLog(events, log) && n <= |log| && After(events).broadcasts == ReadAll(log[..n])
    ensures InvAt(events, log, n, c)
    decreases |events|
  {
    if events == [] {
      ReadAllAt(log[..n]);
      assert log[..n] == [];
    } else {
      var init, last := events[..|events| - 1], events[|events| - 1];
      assert events == init + [last];
      OfLogPrefix(init, last, log);
      AbsorbAdds(After(init), last);
      if Persist(After(init).db, last).stored {
        StoredIsNext(After(init).broadcasts, last, log, n);
        RowsInv(init, log, n - 1, c);
        StoredInv(init, log, n - 1, c, last);
      } else {
        RowsInv(init, log, n, c);
        UnstoredInv(init, log, n, c, last);
      }
    }
  }

  lemma {:induction false} StoredInv(events: seq<ParsedEvent>, log: seq<LogEntry>, n: nat, c: nat, p: ParsedEvent)
    requires OfLog(events, log) && n < |log| && p == Read(log[n]) && Persist(After(events).db, p).stored
    requires InvAt(events, log, n, c)
    ensures InvAt(events + [p], log, n + 1, c)
  {
    ProjectNext(log, n, c);
    if log[n].campaign == c {
      OfLogSameId(events, log);
      StoredIfReady(events, p);
      StoredHere(events, Project(log[..n], c), Decimal(c), p, log[n].event);
    } else {
      SameName(log[n].campaign, c);
      Idle(events, Project(log[..n], c), Decimal(c), p);
    }
  }

  lemma {:induction false} ProjectNext(log: seq<LogEntry>, n: nat, c: nat)
    requires Orderly(log) && n < |log|
    ensures Project(log[..n + 1], c) ==
              if log[n].campaign == c then Project(log[..n], c) + [log[n].event] else Project(log[..n], c)
    ensures Ends(Project(log[..n], c)) && (log[n].campaign == c ==> Follows(Project(log[..n], c), log[n].event))
  {
    assert log[..n + 1] == log[..n] + [log[n]];
    ProjectAppend(log[..n], log[n], c);
    OrderlyPrefix(log, n);
    ProjectEnds(log[..n], c);
  }

  lemma {:induction false} StoredHere(events: seq<ParsedEvent>, t: seq<Event>, campaign: string, p: ParsedEvent,
                                      e: Event)
    requires RowInv(RowOf(After(events).db, campaign), events, t, campaign)
    requires Persist(After(events).db, p).stored && Ready(events, p) && p.campaign == campaign && p.data == DataOf(e)
    requires Ends(t) && Follows(t, e)
    ensures RowInv(RowOf(After(events + [p]).db, campaign), events + [p], t + [e], campaign)
  {
    AfterSnoc(events, p);
    AbsorbRow(After(events), p, campaign);
    InvStored(RowOf(After(events).db, campaign), events, t, campaign, p, e);
  }

  lemma {:induction false} Idle(events: seq<ParsedEvent>, t: seq<Event>, campaign: string, p: ParsedEvent)
    requires RowInv(RowOf(After(events).db, campaign), events, t, campaign) && !AddsUnstored(events, p, campaign)
    requires p.campaign == campaign && RowStep(RowOf(After(events).db, campaign), p.data).Some? ==>
               p.id in After(events).db.transactions
    ensures RowInv(RowOf(After(events + [p]).db, campaign), events + [p], t, campaign)
  {
    AfterSnoc(events, p);
    AbsorbRow(After(events), p, campaign);
    InvIdle(RowOf(After(events).db, campaign), events, t, campaign, p);
  }

  lemma {:induction false} WrittenHere(events: seq<ParsedEvent>, t: seq<Event>, campaign: string, p: ParsedEvent)
    requires RowInv(RowOf(After(events).db, campaign), events, t, campaign) && RowOf(After(events).db, campaign).Some?
    requires p.campaign == campaign && p.id !in After(events).db.transactions
    requires p.data.HarvestReportedData? || p.data.SettledData?
    requires Created(events, campaign) && !Ready(events, p)
    requires (Reaped(t) ==> !p.data.HarvestReportedData?) && !Concluded(t)
    ensures RowInv(RowOf(After(events + [p]).db, campaign), events + [p], t, campaign)
  {
    AfterSnoc(events, p);
    AbsorbRow(After(events), p, campaign);
    InvWritten(RowOf(After(events).db, campaign), events, t, campaign, p);
  }

  lemma {:induction false} UnstoredInv(events: seq<ParsedEvent>, log: seq<LogEntry>, n: nat, c: nat, p: ParsedEvent)
    requires OfLog(events + [p], log) && n <= |log| && !Persist(After(events).db, p).stored
    requires After(events).broadcasts == ReadAll(log[..n])
    requires InvAt(events, log, n, c)
    ensures InvAt(events + [p], log, n, c)
  {
    var t := Project(log[..n], c);
    if p.campaign == Decimal(c) && RowOf(After(events).db, Decimal(c)).Some? && p.id !in After(events).db.transactions {
      Unready(events, log, n, c, p);
      WrittenHere(events, t, Decimal(c), p);
    } else {
      NothingAdded(events, log, c, p);
      Idle(events, t, Decimal(c), p);
    }
  }

  // An event that is not stored although its campaign has a row is a late one.
  lemma {:induction false} Unready(events: seq<ParsedEvent>, log: seq<LogEntry>, n: nat, c: nat, p: ParsedEvent)
    requires OfLog(events + [p], log) && n <= |log| && !Persist(After(events).db, p).stored
    requires After(events).broadcasts == ReadAll(log[..n])
    requires p.campaign == Decimal(c) && RowOf(After(events).db, Decimal(c)).Some?
             && p.id !in After(events).db.transactions
    ensures p.data.HarvestReportedData? || p.data.SettledData?
    ensures Created(events, Decimal(c)) && !Ready(events, p)
    ensures (Reaped(Project(log[..n], c)) ==> !p.data.HarvestReportedData?) && !Concluded(Project(log[..n], c))
  {
    UnreadyIsLate(events, log, p);
    OfLogPrefix(events, p, log);
    UnstoredIsLater(events, log, n, p.id);
    PhaseStays(log, n, p.id, c);
    LaterFollows(log, p.id, c);
  }

  lemma {:induction false} UnreadyIsLate(events: seq<ParsedEvent>, log: seq<LogEntry>, p: ParsedEvent)
    requires OfLog(events + [p], log) && !Persist(After(events).db, p).stored
    requires p.campaign in After(events).db.campaigns && p.id !in After(events).db.transactions
    ensures Created(events, p.campaign) && !Ready(events, p) && (p.data.HarvestReportedData? || p.data.SettledData?)
  {
    OfLogPrefix(events, p, log);
    OfLogSameId(events, log);
    RowIffCreated(events, p.campaign);
    StoredIfReady(events, p);
  }

  lemma UnstoredIsLater(events: seq<ParsedEvent>, log: seq<LogEntry>, n: nat, i: nat)
    requires n <= |log| && After(events).broadcasts == ReadAll(log[..n]) && Orderly(log)
    requires i !in After(events).db.transactions
    ensures n <= i
  {
    if i < n {
      EarlierIsStored(events, log, n, i);
    }
  }

  lemma {:induction false} NothingAdded(events: seq<ParsedEvent>, log: seq<LogEntry>, c: nat, p: ParsedEvent)
    requires OfLog(events + [p], log) && !Persist(After(events).db, p).stored
    requires p.campaign != Decimal(c) || RowOf(After(events).db, Decimal(c)).None?
        || p.id in After(events).db.transactions
    ensures !AddsUnstored(events, p, Decimal(c))
    ensures p.campaign == Decimal(c) && RowStep(RowOf(After(events).db, Decimal(c)), p.data).Some? ==>
              p.id in After(events).db.transactions
  {
    OfLogPrefix(events, p, log);
    OfLogSameId(events, log);
    RowIffCreated(events, Decimal(c));
    StoredIfReady(events, p);
    if p.id in After(events).db.transactions {
      StoredIsReady(events, p, log);
    }
  }

  lemma OfLogPrefix(events: seq<ParsedEvent>, p: ParsedEvent, log: seq<LogEntry>)
    requires OfLog(events + [p], log)
    ensures OfLog(events, log) && p.id < |log| && p == Read(log[p.id])
  {
    assert (events + [p])[|events|] == p;
    forall k | 0 <= k < |events| ensures events[k].id < |log| && events[k] == Read(log[events[k].id]) {
      assert (events + [p])[k] == events[k];
    }
  }

  lemma {:induction false} StoredIsReady(events: seq<ParsedEvent>, p: ParsedEvent, log: seq<LogEntry>)
    requires OfLog(events + [p], log) && SameIdSameEvent(events) && p.id in After(events).db.transactions
    ensures Ready(events, p)
  {
    OfLogPrefix(events, p, log);
    StoredIffReady(events, p.id);
    var k: nat :| ReadyAt(events, k, p.id);
    assert events[k] == p;
    ReadyStays(events, k, p);
  }

  // A late event of a campaign follows what has come of it so far.
  lemma {:induction false} LaterFollows(log: seq<LogEntry>, i: nat, c: nat)
    requires Orderly(log) && i < |log| && Decimal(log[i].campaign) == Decimal(c)
    ensures var data := Read(log[i]).data;
            && (data.HarvestReportedData? || data.SettledData? ==> !Concluded(Project(log[..i], c)))
            && (data.HarvestReportedData? ==> !Reaped(Project(log[..i], c)))
  {
    DecimalInjective(log[i].campaign, c);
    assert Follows(Project(log[..i], log[i].campaign), log[i].event);
  }

  // ------------------------------------------------------------ which rows are right

  // A settlement with returns to the investors came, and its campaign had a row, while
  // its address was no user.
  ghost predicate TooEarly(events: seq<ParsedEvent>, k: nat)
    requires k < |events|
  {
    AddsUnstored(events[..k], events[k], events[k].campaign) && events[k].data.investorReturns != 0
  }

  ghost predicate NoneTooEarly(events: seq<ParsedEvent>) {
    forall k :: 0 <= k < |events| ==> !TooEarly(events, k)
  }

  lemma {:induction false} ReturnsAtLeast(log: seq<LogEntry>, i: nat)
    requires Orderly(log) && i < |log| && Read(log[i]).data.SettledData?
    ensures 0 <= Read(log[i]).data.investorReturns
  {
    assert Follows(Project(log[..i], log[i].campaign), log[i].event);
  }

  lemma OfLogPart(events: seq<ParsedEvent>, log: seq<LogEntry>, k: nat)
    requires OfLog(events, log) && k <= |events|
    ensures OfLog(events[..k], log)
  {
  }

  // What is added without storing only grows.
  lemma {:induction false} ExtraGrows(events: seq<ParsedEvent>, log: seq<LogEntry>, k: nat, campaign: string)
    requires OfLog(events, log) && k <= |events|
    ensures Extra(events[..k], campaign) <= Extra(events, campaign)
  {
    if k < |events| {
      var n := |events| - 1;
      OfLogPart(events, log, n);
      ExtraGrows(events[..n], log, k, campaign);
      assert events[..n][..k] == events[..k];
      if events[n].data.SettledData? {
        ReturnsAtLeast(log, events[n].id);
      }
    } else {
      assert events[..k] == events;
    }
  }

  lemma {:induction false} TooEarlyAdds(events: seq<ParsedEvent>, log: seq<LogEntry>, k: nat)
    requires OfLog(events, log) && k < |events| && TooEarly(events, k)
    ensures 0 < Extra(events, events[k].campaign)
  {
    ExtraAtLeast(events, log, k, events[k].campaign);
    ReturnsAtLeast(log, events[k].id);
    ExtraSnoc(events[..k], events[k], events[k].campaign);
    UpTo(events, k);
    ExtraGrows(events, log, k + 1, events[k].campaign);
  }

  lemma UpTo<T>(s: seq<T>, k: nat)
    requires k < |s|
    ensures s[..k + 1] == s[..k] + [s[k]]
  {
  }

  lemma {:induction false} ExtraAtLeast(events: seq<ParsedEvent>, log: seq<LogEntry>, k: nat, campaign: string)
    requires OfLog(events, log) && k <= |events|
    ensures 0 <= Extra(events[..k], campaign)
  {
    OfLogPart(events, log, k);
    ExtraGrows(events[..k], log, 0, campaign);
    assert events[..k][..0] == [];
  }

  lemma {:induction false} NothingExtra(events: seq<ParsedEvent>, campaign: string)
    requires NoneTooEarly(events)
    ensures Extra(events, campaign) == 0
  {
    if events != [] {
      var init, last := events[..|events| - 1], events[|events| - 1];
      assert events == init + [last];
      TooEarlySnoc(init, last);
      NothingExtra(init, campaign);
    }
  }

  lemma TooEarlySnoc(events: seq<ParsedEvent>, p: ParsedEvent)
    ensures forall k :: 0 <= k < |events| ==> (TooEarly(events + [p], k) <==> TooEarly(events, k))
    ensures TooEarly(events + [p], |events|) <==> AddsUnstored(events, p, p.campaign) && p.data.investorReturns != 0
    ensures NoneTooEarly(events + [p]) ==> NoneTooEarly(events) && !TooEarly(events + [p], |events|)
  {
    var all := events + [p];
    assert all[..|events|] == events;
    forall k | 0 <= k < |events| ensures TooEarly(all, k) <==> TooEarly(events, k) {
      assert all[..k] == events[..k] && all[k] == events[k];
    }
  }

  // The row of a campaign in the columns that the contract knows.
  ghost predicate RowRight(row: Option<Row>, fold: Option<Row>) {
    && Columns(row) == Columns(fold)
    && (row.Some? ==> row.value.status == fold.value.status && row.value.returnable == fold.value.returnable)
  }

  // Once all of the log has been stored in its order, a campaign's row is right but
  // for the returns that were added without storing.
  lemma {:induction false} RowRightIff(events: seq<ParsedEvent>, log: seq<LogEntry>, c: nat)
    requires OfLog(events, log) && After(events).broadcasts == ReadAll(log)
    ensures RowRight(RowOf(After(events).db, Decimal(c)), RowFold(Project(log, c))) <==> Extra(events, Decimal(c)) == 0
  {
    assert log[..|log|] == log;
    RowsInv(events, log, |log|, c);
    StatusInTheEnd(events, log, c);
  }

  lemma {:induction false} StatusInTheEnd(events: seq<ParsedEvent>, log: seq<LogEntry>, c: nat)
    requires OfLog(events, log)
    requires InvAt(events, log, |log|, c) && log[..|log|] == log
    ensures var row, fold := RowOf(After(events).db, Decimal(c)), RowFold(Project(log, c));
            row.Some? ==> fold.Some? && row.value.status == fold.value.status
  {
    var t := Project(log, c);
    ProjectEnds(log, c);
    if t != [] {
      RowAtEnd(t);
      LateOnlyLogged(events, log, c);
    }
  }

  lemma {:induction false} LateOnlyLogged(events: seq<ParsedEvent>, log: seq<LogEntry>, c: nat)
    requires OfLog(events, log)
    ensures SettlementIn(events, Decimal(c)) ==> Concluded(Project(log, c))
    ensures HarvestIn(events, Decimal(c)) ==> Reaped(Project(log, c))
  {
    if SettlementIn(events, Decimal(c)) {
      var j :| 0 <= j < |events| && events[j].data.SettledData? && events[j].campaign == Decimal(c);
      SettlementLogged(log, events[j].id, c);
    }
    if HarvestIn(events, Decimal(c)) {
      var j :| 0 <= j < |events| && events[j].data.HarvestReportedData? && events[j].campaign == Decimal(c);
      HarvestLogged(log, events[j].id, c);
    }
  }

  lemma {:induction false} HarvestLogged(log: seq<LogEntry>, i: nat, c: nat)
    requires Orderly(log) && i < |log| && Read(log[i]).data.HarvestReportedData?
             && Decimal(log[i].campaign) == Decimal(c)
    ensures Reaped(Project(log, c))
  {
    DecimalInjective(log[i].campaign, c);
    var m := ProjectHas(log, i);
    ProjectEnds(log, c);
    HarvestWritten(Project(log, c), m);
  }

  // ------------------------------------------------------------ investments

  function InvestmentOf(p: ParsedEvent): seq<Investment> {
    if p.data.InvestedData? then [Investment(p.id, p.campaign, p.data.investor, p.data.amount)] else []
  }

  function InvestmentsOf(events: seq<ParsedEvent>): seq<Investment> {
    if events == [] then [] else InvestmentsOf(events[..|events| - 1]) + InvestmentOf(events[|events| - 1])
  }

  lemma {:induction false} InvestmentsSnoc(events: seq<ParsedEvent>, p: ParsedEvent)
    ensures InvestmentsOf(events + [p]) == InvestmentsOf(events) + InvestmentOf(p)
  {
    assert (events + [p])[..|events|] == events;
  }

  // The investments are those of the stored events.
  lemma {:induction false} InvestmentsStored(events: seq<ParsedEvent>)
    ensures After(events).db.investments == InvestmentsOf(After(events).broadcasts)
  {
    if events != [] {
      var s, p := After(events[..|events| - 1]), events[|events| - 1];
      InvestmentsStored(events[..|events| - 1]);
      AbsorbInvests(s, p);
      if Persist(s.db, p).stored {
        InvestmentsSnoc(s.broadcasts, p);
      }
    }
  }

  lemma {:induction false} AbsorbInvests(s: Service, p: ParsedEvent)
    ensures Absorb(s, p).db.investments ==
              if Persist(s.db, p).stored then s.db.investments + InvestmentOf(p) else s.db.investments
  {
  }

  lemma {:induction false} InvestmentsOfLog(log: seq<LogEntry>)
    ensures InvestmentsOf(ReadAll(log)) == Invested(log)
  {
    if log != [] {
      InvestmentsOfLog(log[..|log| - 1]);
      InvestmentsSnoc(ReadAll(log[..|log| - 1]), Read(log[|log| - 1]));
      SameInvestment(log[|log| - 1]);
    }
  }

  lemma {:induction false} SameInvestment(e: LogEntry)
    ensures InvestmentOf(Read(e)) ==
              if e.event.ContribReceived?
              then [Investment(e.id, Decimal(e.campaign), e.event.investor, e.event.amount)] else []
  {
  }

  // ------------------------------------------------------------ late events that never came

  // Without a harvest report there is no outcome, and without a settlement the status
  // is not Settled.
  lemma {:induction false} LateNeedsEvent(events: seq<ParsedEvent>, campaign: string)
    ensures var row := RowOf(After(events).db, campaign);
            row.Some? ==> (!HarvestIn(events, campaign) ==> row.value.outcome.None?)
                          && (!SettlementIn(events, campaign) ==> row.value.status != Settled)
  {
    if events != [] {
      var init, last := events[..|events| - 1], events[|events| - 1];
      assert events == init + [last];
      LateNeedsEvent(init, campaign);
      ExtraSnoc(init, last, campaign);
      AbsorbRow(After(init), last, campaign);
      if RowStep(RowOf(After(init).db, campaign), last.data).Some? {
        NotYetLate(RowOf(After(init).db, campaign), last.data);
      }
    }
  }

  lemma {:induction false} NotYetLate(row: Option<Row>, data: Data)
    requires RowStep(row, data).Some?
    ensures var row' := RowStep(row, data).value;
            && (!data.HarvestReportedData? && (row.Some? ==> row.value.outcome.None?) ==> row'.outcome.None?)
            && (!data.SettledData? && (row.Some? ==> row.value.status != Settled) ==> row'.status != Settled)
  {
  }

  // A campaign has one harvest report and one settlement at most.
  lemma {:induction false} OneOfEach(log: seq<LogEntry>, i: nat, j: nat)
    requires Orderly(log) && i < j < |log| && log[i].campaign == log[j].campaign
    ensures !(log[i].event.HarvestReported? && log[j].event.HarvestReported?)
    ensures !(log[i].event.CampaignSettled? && log[j].event.CampaignSettled?)
  {
    var before := log[..j];
    assert before[i] == log[i];
    OrderlyPrefix(log, j);
    ProjectEnds(before, log[i].campaign);
    var m := ProjectHas(before, i);
    if log[i].event.HarvestReported? {
      HarvestWritten(Project(before, log[i].campaign), m);
    }
    if log[i].event.CampaignSettled? {
      SettlementCloses(Project(before, log[i].campaign), m);
    }
    assert Follows(Project(log[..j], log[j].campaign), log[j].event);
  }

  // What the log leaves in the row of a campaign with a late event.
  lemma {:induction false} LateInRow(log: seq<LogEntry>, i: nat)
    requires Orderly(log) && i < |log| && LateUser(log[i].event).Some?
    ensures var row := RowOf(After(ReadAll(log)).db, Decimal(log[i].campaign));
            && row.Some?
            && (log[i].event.HarvestReported? ==> row.value.outcome.Some?)
            && (log[i].event.CampaignSettled? ==> row.value.status == Settled)
  {
    var c := log[i].campaign;
    TableHoldsLog(log);
    assert RowHolds(After(ReadAll(log)), log, c);
    ProjectEnds(log, c);
    var m := ProjectHas(log, i);
    RowAtEnd(Project(log, c));
    if log[i].event.HarvestReported? {
      HarvestWritten(Project(log, c), m);
    } else {
      SettlementCloses(Project(log, c), m);
    }
  }

  // Deliveries of the log without this event leave another row.
  lemma {:induction false} LateMissing(events: seq<ParsedEvent>, log: seq<LogEntry>, i: nat)
    requires OfLog(events, log) && i < |log| && LateUser(log[i].event).Some? && !Delivered(events, i)
    ensures After(events) != After(ReadAll(log))
  {
    var e := log[i];
    LateInRow(log, i);
    LateNeedsEvent(events, Decimal(e.campaign));
    if e.event.HarvestReported? && HarvestIn(events, Decimal(e.campaign)) {
      var j :| 0 <= j < |events| && events[j].data.HarvestReportedData? && events[j].campaign == Decimal(e.campaign);
      SameLate(log, i, events[j].id);
    }
    if e.event.CampaignSettled? && SettlementIn(events, Decimal(e.campaign)) {
      var j :| 0 <= j < |events| && events[j].data.SettledData? && events[j].campaign == Decimal(e.campaign);
      SameLate(log, i, events[j].id);
    }
  }

  lemma {:induction false} SameLate(log: seq<LogEntry>, i: nat, j: nat)
    requires Orderly(log) && i < |log| && j < |log| && Decimal(log[i].campaign) == Decimal(log[j].campaign)
    requires (log[i].event.HarvestReported? && Read(log[j]).data.HarvestReportedData?)
             || (log[i].event.CampaignSettled? && Read(log[j]).data.SettledData?)
    ensures i == j
  {
    DecimalInjective(log[i].campaign, log[j].campaign);
    if i < j {
      OneOfEach(log, i, j);
    } else if j < i {
      OneOfEach(log, j, i);
    }
  }

  // An event that does not come any more is not stored any more.
  lemma {:induction false} NotStoredLater(events: seq<ParsedEvent>, more: seq<ParsedEvent>, id: nat)
    requires id !in After(events).db.transactions && !Delivered(more, id)
    ensures id !in After(events + more).db.transactions
    decreases |more|
  {
    if more == [] {
      assert events + more == events;
    } else {
      var init, last := more[..|more| - 1], more[|more| - 1];
      assert more == init + [last] && events + more == events + init + [last];
      DeliveredSnoc(init, last, id);
      NotStoredLater(events, init, id);
      AfterSnoc(events + init, last);
      AbsorbAdds(After(events + init), last);
    }
  }
}
