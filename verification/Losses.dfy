// What becomes of the database when it is down: the error is caught, the event
// counts as processed, and the cursor moves on.

module Losses {
  import opened EscrowTypes
  import opened Campaigns
  import opened Chain
  import opened EventWire
  import opened EventFold
  import opened Indexer
  import opened IndexerSafety
  import opened IndexerLoss
  import opened LogFold
  import opened Delivery
  import opened Redelivery
  import opened PartialDelivery
  import opened DbMirror
  import Replay

  // The events of hand-overs that the database answered.
  function Stored(handed: seq<Raw>, answers: seq<bool>): seq<ParsedEvent>
    requires |answers| == |handed|
  {
    Replay.ParsedOf(Answered(Handoffs(handed, answers)))
  }

  lemma ServedIsAfter(y: System, answers: seq<bool>)
    requires |answers| == |y.Handed()|
    ensures Served(y, answers) == Replay.After(Stored(y.Handed(), answers))
  {
    ReceivesAnswered(Service(EmptyDb(), []), Handoffs(y.Handed(), answers));
    Replay.ProcessAllIsAfter(Answered(Handoffs(y.Handed(), answers)));
  }

  // Each answered event was handed over, and answered, at some point.
  lemma {:induction false} AnsweredAt(handed: seq<Raw>, answers: seq<bool>, r: Raw) returns (k: nat)
    requires |answers| == |handed| && r in Answered(Handoffs(handed, answers))
    ensures k < |handed| && handed[k] == r && answers[k]
  {
    var n := |handed| - 1;
    var init := Handoffs(handed[..n], answers[..n]);
    var last := Handoff(handed[n], answers[n]);
    assert (init + [last])[..|init|] == init;
    if r in Answered(init) {
      k := AnsweredAt(handed[..n], answers[..n], r);
    } else {
      k := n;
    }
  }

  // ------------------------------------------------------------ exactly which losses matter

  lemma {:induction false} StoredOfLog(ids: seq<string>, ticks: seq<Tick>, log: seq<LogEntry>, shapes: nat -> Shape,
                                       answers: seq<bool>)
    requires TicksOk(ids, ticks) && Orderly(log) && RunTicks(ids, ticks).chain <= Wire(log, shapes)
    requires |answers| == |RunTicks(ids, ticks).Handed()|
    ensures OfLog(Stored(RunTicks(ids, ticks).Handed(), answers), log)
  {
    var y := RunTicks(ids, ticks);
    RunOk(ids, ticks);
    forall r | r in Answered(Handoffs(y.Handed(), answers)) ensures r in Wire(log, shapes) {
      var k := AnsweredAt(y.Handed(), answers, r);
      assert y.Handed()[k] in y.Handed();
    }
    ParsedFromWire(log, shapes, Answered(Handoffs(y.Handed(), answers)));
    var events := Stored(y.Handed(), answers);
    forall k | 0 <= k < |events| ensures events[k].id < |log| && events[k] == Read(log[events[k].id]) {
      assert events[k] in events;
    }
  }

  // After any life of the indexer and any outages, an event is in the transaction
  // table exactly if one of its answered hand-overs found its campaign and its user.
  lemma {:induction false} TransactionIff(acts: seq<Act>, shapes: nat -> Shape, ids: seq<string>, ticks: seq<Tick>,
                                          answers: seq<bool>, id: nat)
    requires TicksOk(ids, ticks) && RunTicks(ids, ticks).chain == Wire(Run(Genesis(), acts).log, shapes)
    requires |answers| == |RunTicks(ids, ticks).Handed()|
    ensures id in Served(RunTicks(ids, ticks), answers).db.transactions <==>
              exists k :: Replay.ReadyAt(Stored(RunTicks(ids, ticks).Handed(), answers), k, id)
  {
    var y, log := RunTicks(ids, ticks), Run(Genesis(), acts).log;
    RunOrderly(acts);
    StoredOfLog(ids, ticks, log, shapes, answers);
    OfLogSameId(Stored(y.Handed(), answers), log);
    ServedIsAfter(y, answers);
    Replay.StoredIffReady(Stored(y.Handed(), answers), id);
  }

  // Database and contract agree in full if and only if the answered hand-overs that
  // found their campaign and their user are first made in the order of the log and
  // leave none of it out, and no settlement with returns to the investors reached its
  // campaign's row before its address was a user.
  lemma {:induction false} InStepIff(acts: seq<Act>, shapes: nat -> Shape, ids: seq<string>, ticks: seq<Tick>,
                                     answers: seq<bool>)
    requires TicksOk(ids, ticks) && RunTicks(ids, ticks).chain == Wire(Run(Genesis(), acts).log, shapes)
    requires |answers| == |RunTicks(ids, ticks).Handed()|
    ensures var y, w := RunTicks(ids, ticks), Run(Genesis(), acts);
            var events := Stored(y.Handed(), answers);
            InStep(Served(y, answers), w) <==>
              Replay.Firsts(Replay.Storable(events)) == ReadAll(w.log) && NoneTooEarly(events)
  {
    var y, log := RunTicks(ids, ticks), Run(Genesis(), acts).log;
    var events := Stored(y.Handed(), answers);
    RunOrderly(acts);
    StoredOfLog(ids, ticks, log, shapes, answers);
    OfLogSameId(events, log);
    ServedIsAfter(y, answers);
    Replay.StoredAreFirstStorable(events);
    if Replay.After(events).broadcasts == ReadAll(log) {
      InvestmentsStored(events);
      InvestmentsOfLog(log);
      TableAgreesIff(acts, events);
    }
  }

  lemma {:induction false} TableAgreesIff(acts: seq<Act>, events: seq<ParsedEvent>)
    requires OfLog(events, Run(Genesis(), acts).log)
    requires Replay.After(events).broadcasts == ReadAll(Run(Genesis(), acts).log)
    ensures TableAgrees(Replay.After(events).db, Run(Genesis(), acts)) <==> NoneTooEarly(events)
  {
    if NoneTooEarly(events) {
      TableIsRight(acts, events);
    } else {
      var k :| 0 <= k < |events| && TooEarly(events, k);
      RowIsWrong(acts, events, k);
    }
  }

  lemma {:induction false} TableIsRight(acts: seq<Act>, events: seq<ParsedEvent>)
    requires OfLog(events, Run(Genesis(), acts).log) && NoneTooEarly(events)
    requires Replay.After(events).broadcasts == ReadAll(Run(Genesis(), acts).log)
    ensures TableAgrees(Replay.After(events).db, Run(Genesis(), acts))
  {
    var w, db := Run(Genesis(), acts), Replay.After(events).db;
    forall id: nat
      ensures if id in w.cells
              then Agrees(RowOf(db, Decimal(id)), w.cells[id].campaign, Overcount(Project(w.log, id)))
              else RowOf(db, Decimal(id)).None?
    {
      NothingExtra(events, Decimal(id));
      RowRightIff(events, w.log, id);
      FoldAgrees(acts, id);
    }
  }

  lemma {:induction false} RowIsWrong(acts: seq<Act>, events: seq<ParsedEvent>, k: nat)
    requires OfLog(events, Run(Genesis(), acts).log) && k < |events| && TooEarly(events, k)
    requires Replay.After(events).broadcasts == ReadAll(Run(Genesis(), acts).log)
    ensures !TableAgrees(Replay.After(events).db, Run(Genesis(), acts))
  {
    var w := Run(Genesis(), acts);
    var e := w.log[events[k].id];
    NoStrayEvents(acts);
    assert e in w.log;
    LoggedCampaignsExist(w.log, e);
    TooEarlyAdds(events, w.log, k);
    RowRightIff(events, w.log, e.campaign);
    FoldAgrees(acts, e.campaign);
    ReturnsWrong(events, w.log, e.campaign);
  }

  // With returns added, the row does not have the contract's.
  lemma {:induction false} ReturnsWrong(events: seq<ParsedEvent>, log: seq<LogEntry>, c: nat)
    requires OfLog(events, log) && Replay.After(events).broadcasts == ReadAll(log) && 0 < Extra(events, Decimal(c))
    ensures var row, fold := RowOf(Replay.After(events).db, Decimal(c)), RowFold(Project(log, c));
            row.Some? && fold.Some? && row.value.returnable != fold.value.returnable
  {
    assert log[..|log|] == log;
    RowsInv(events, log, |log|, c);
  }

  lemma {:induction false} FoldAgrees(acts: seq<Act>, id: nat)
    ensures var w := Run(Genesis(), acts);
            if id in w.cells
            then Agrees(RowFold(Project(w.log, id)), w.cells[id].campaign, Overcount(Project(w.log, id)))
            else RowFold(Project(w.log, id)).None?
  {
    NoStrayEvents(acts);
    if id in Run(Genesis(), acts).cells {
      var b, tries := Decompose(acts, id);
      LivedRowMatches(b, tries);
    }
  }

  // ------------------------------------------------------------ lost for good

  // No hand-over of this event was answered.
  ghost predicate Lost(handed: seq<Raw>, answers: seq<bool>, e: Raw)
    requires |answers| == |handed|
  {
    forall k :: 0 <= k < |handed| && handed[k] == e ==> !answers[k]
  }

  lemma LostIsNotStored(log: seq<LogEntry>, shapes: nat -> Shape, y: System, answers: seq<bool>, e: Raw)
    requires Orderly(log) && y.chain == Wire(log, shapes) && FromWire(log, shapes, y.Handed()) && e in y.chain
    requires |answers| == |y.Handed()| && Lost(y.Handed(), answers, e)
    ensures e.id !in Served(y, answers).db.transactions
  {
    var rs := Answered(Handoffs(y.Handed(), answers));
    ServedIsAfter(y, answers);
    if e.id in Served(y, answers).db.transactions {
      Replay.RecordedWasDelivered(Stored(y.Handed(), answers), e.id);
      forall r | r in rs ensures Parses(r) && r in y.chain {
        var k := AnsweredAt(y.Handed(), answers, r);
        assert y.Handed()[k] in y.Handed();
        OneFromWire(log, shapes, r);
      }
      SameDeliveries(rs, e.id);
      var j :| 0 <= j < |rs| && rs[j].id == e.id;
      assert rs[j] in rs;
      SameEvent(log, shapes, rs[j], e);
      var k := AnsweredAt(y.Handed(), answers, e);
    }
  }

  lemma SameEvent(log: seq<LogEntry>, shapes: nat -> Shape, r: Raw, e: Raw)
    requires Orderly(log) && r in Wire(log, shapes) && e in Wire(log, shapes) && r.id == e.id
    ensures r == e
  {
    WireAt(log, shapes);
    var i :| 0 <= i < |log| && Wire(log, shapes)[i] == r;
    var j :| 0 <= j < |log| && Wire(log, shapes)[j] == e;
    assert r.id == i && e.id == j;
  }

  // An event that the database failed to take on every hand-over, and that a cursor
  // row has passed, is lost for good: whatever polls, errors, crashes and restarts
  // follow, and however long the database stays up from then on, it is not stored.
  lemma {:induction false} LostForGood(acts: seq<Act>, shapes: nat -> Shape, ids: seq<string>, ticks: seq<Tick>,
                                       more: seq<Tick>,
                    answers: seq<bool>, later: seq<bool>, e: Raw)
    requires TicksOk(ids, ticks + more) && RunTicks(ids, ticks + more).chain == Wire(Run(Genesis(), acts).log, shapes)
    requires var y := RunTicks(ids, ticks);
             && |answers| == |y.Handed()| && Lost(y.Handed(), answers, e)
             && MinRow(ids, y.rows).Some? && e.ledger <= MinRow(ids, y.rows).value
    requires e in RunTicks(ids, ticks + more).chain
    requires |later| == |RunTicks(ids, ticks + more).Handed()| && answers <= later
    ensures e.id !in Served(RunTicks(ids, ticks + more), later).db.transactions
  {
    var y, y', log := RunTicks(ids, ticks), RunTicks(ids, ticks + more), Run(Genesis(), acts).log;
    NothingBelowRow(ids, ticks, more);
    RunOk(ids, ticks + more);
    RunOrderly(acts);
    forall k | 0 <= k < |y'.Handed()| && y'.Handed()[k] == e ensures !later[k] {
      if k < |y.Handed()| {
        assert y.Handed()[k] == e;
      }
    }
    LostIsNotStored(log, shapes, y', later, e);
  }

  // More generally, an event that is not stored and that a cursor row has passed,
  // because the database was down or because its address was no user, is never stored.
  lemma {:induction false} PassedForGood(acts: seq<Act>, shapes: nat -> Shape, ids: seq<string>, ticks: seq<Tick>,
                                         more: seq<Tick>, answers: seq<bool>, later: seq<bool>, e: Raw)
    requires TicksOk(ids, ticks + more) && RunTicks(ids, ticks + more).chain == Wire(Run(Genesis(), acts).log, shapes)
    requires |answers| == |RunTicks(ids, ticks).Handed()|
    requires e.id !in Served(RunTicks(ids, ticks), answers).db.transactions
    requires MinRow(ids, RunTicks(ids, ticks).rows).Some? && e.ledger <= MinRow(ids, RunTicks(ids, ticks).rows).value
    requires e in RunTicks(ids, ticks + more).chain
    requires |later| == |RunTicks(ids, ticks + more).Handed()| && answers <= later
    ensures e.id !in Served(RunTicks(ids, ticks + more), later).db.transactions
  {
    var y, y', log := RunTicks(ids, ticks), RunTicks(ids, ticks + more), Run(Genesis(), acts).log;
    NothingBelowRow(ids, ticks, more);
    RunOk(ids, ticks + more);
    RunOrderly(acts);
    ServedIsAfter(y, answers);
    ServedIsAfter(y', later);
    var rest := AnsweredGrows(y.Handed(), answers, y'.Handed(), later);
    forall r | r in rest ensures Parses(r) && r.id != e.id {
      var j :| |y.Handed()| <= j < |y'.Handed()| && y'.Handed()[j] == r;
      assert y'.Handed()[j] in y'.Handed();
      WireParses(log, shapes, r);
      if r.id == e.id {
        SameEvent(log, shapes, r, e);
      }
    }
    ParsedConcat(Answered(Handoffs(y.Handed(), answers)), rest);
    SameDeliveries(rest, e.id);
    NotStoredLater(Stored(y.Handed(), answers), Replay.ParsedOf(rest), e.id);
  }

  lemma {:induction false} AnsweredGrows(handed: seq<Raw>, answers: seq<bool>, handed': seq<Raw>, later: seq<bool>)
    returns (rest: seq<Raw>)
    requires |answers| == |handed| && |later| == |handed'| && handed <= handed' && answers <= later
    ensures Answered(Handoffs(handed', later)) == Answered(Handoffs(handed, answers)) + rest
    ensures forall r :: r in rest ==> exists j :: |handed| <= j < |handed'| && handed'[j] == r
    decreases |handed'|
  {
    if |handed| == |handed'| {
      assert handed' == handed && later == answers;
      rest := [];
    } else {
      var n := |handed'| - 1;
      var init := Handoffs(handed'[..n], later[..n]);
      rest := AnsweredGrows(handed, answers, handed'[..n], later[..n]);
      assert (init + [Handoff(handed'[n], later[n])])[..|init|] == init;
      forall r | r in rest ensures exists j :: |handed| <= j < |handed'| && handed'[j] == r {
        var j :| |handed| <= j < n && handed'[..n][j] == r;
        assert handed'[j] == r;
      }
      if later[n] {
        rest := rest + [handed'[n]];
      }
    }
  }

  lemma {:induction false} ParsedConcat(rs: seq<Raw>, more: seq<Raw>)
    ensures Replay.ParsedOf(rs + more) == Replay.ParsedOf(rs) + Replay.ParsedOf(more)
    decreases |more|
  {
    if more == [] {
      assert rs + more == rs;
      assert Replay.ParsedOf(rs) + [] == Replay.ParsedOf(rs);
    } else {
      var init, last := more[..|more| - 1], more[|more| - 1];
      assert (rs + more)[..|rs + more| - 1] == rs + init;
      ParsedConcat(rs, init);
    }
  }

  // ------------------------------------------------------------ the first process

  // In the life of a first process that starts early enough no event comes twice.
  // Every outage does damage then, even where the event could not have been stored:
  // what has been handed over so far is in the tables exactly if there was none.
  lemma {:induction false} FirstLifeRightIff(acts: seq<Act>, shapes: nat -> Shape, ids: seq<string>, ticks: seq<Tick>,
                                             base: int, answers: seq<bool>)
    requires Watches(acts, shapes, ids, ticks, base)
    requires RunTicks(ids, ticks).earlier == [] && |answers| == |RunTicks(ids, ticks).Handed()|
    ensures var y, log := RunTicks(ids, ticks), Run(Genesis(), acts).log;
            var n := |FirstsOf(y.Handed())|;
            && n <= |log|
            && (Served(y, answers) == ProcessAll(Service(EmptyDb(), []), Wire(log[..n], shapes)) <==>
                 AllAnswered(answers))
  {
    var y, log := RunTicks(ids, ticks), Run(Genesis(), acts).log;
    FirstLifeHands(acts, shapes, ids, ticks, base);
    ServedIsAfter(y, answers);
    PrefixRightIff(log, shapes, y.Handed(), answers);
  }

  lemma {:induction false} FirstLifeHands(acts: seq<Act>, shapes: nat -> Shape, ids: seq<string>, ticks: seq<Tick>,
                                          base: int)
    requires Watches(acts, shapes, ids, ticks, base) && RunTicks(ids, ticks).earlier == []
    ensures var handed, log := RunTicks(ids, ticks).Handed(), Run(Genesis(), acts).log;
            && Orderly(log) && FirstsOf(handed) == handed && |handed| <= |log|
            && handed == Wire(log[..|handed|], shapes)
  {
    var handed, log := RunTicks(ids, ticks).Handed(), Run(Genesis(), acts).log;
    RunOrderly(acts);
    HandedAsIs(acts, shapes, ids, ticks, base);
    WireFront(log, shapes, handed);
  }

  lemma {:induction false} WireFront(log: seq<LogEntry>, shapes: nat -> Shape, front: seq<Raw>)
    requires front <= Wire(log, shapes)
    ensures |front| <= |log| && front == Wire(log[..|front|], shapes)
  {
    WireAt(log, shapes);
    WirePrefix(log, shapes, |front|);
  }

  lemma {:induction false} HandedAsIs(acts: seq<Act>, shapes: nat -> Shape, ids: seq<string>, ticks: seq<Tick>,
                                      base: int)
    requires Watches(acts, shapes, ids, ticks, base) && RunTicks(ids, ticks).earlier == []
    ensures var handed := RunTicks(ids, ticks).Handed();
            FirstsOf(handed) == handed && handed <= Wire(Run(Genesis(), acts).log, shapes)
  {
    RunOk(ids, ticks);
    HandedOnceEach(ids, RunTicks(ids, ticks));
    DeliversInOrder(ids, ticks, base);
  }

  lemma HandedOnceEach(ids: seq<string>, y: System)
    requires SystemOk(ids, y) && y.earlier == []
    ensures FirstsOf(y.Handed()) == y.Handed()
  {
    assert y.Handed() == y.Mine();
    FirstsOfDistinct(y.Handed());
  }

  lemma {:induction false} PrefixRightIff(log: seq<LogEntry>, shapes: nat -> Shape, handed: seq<Raw>,
                                          answers: seq<bool>)
    requires Orderly(log) && |handed| <= |log| && handed == Wire(log[..|handed|], shapes) && |answers| == |handed|
    ensures AllAnswered(answers) <==>
              Replay.After(Stored(handed, answers)) == ProcessAll(Service(EmptyDb(), []), Wire(log[..|handed|], shapes))
  {
    Replay.ProcessAllIsAfter(handed);
    WireIsRead(log[..|handed|], shapes);
    if AllAnswered(answers) {
      AnsweredAll(handed, answers);
    } else {
      var k :| 0 <= k < |answers| && !answers[k];
      OutageShows(log, shapes, handed, answers, k);
    }
  }

  lemma {:induction false} FirstsOfDistinct(rs: seq<Raw>)
    requires forall i, j :: 0 <= i < j < |rs| ==> rs[i].id != rs[j].id
    ensures FirstsOf(rs) == rs
  {
    if rs != [] {
      FirstsOfDistinct(rs[..|rs| - 1]);
    }
  }

  // The hand-overs being the first events of the log, an unanswered one is missed in
  // the transaction table, or in the row where it is a late event.
  lemma {:induction false} OutageShows(log: seq<LogEntry>, shapes: nat -> Shape, handed: seq<Raw>, answers: seq<bool>,
                                       k: nat)
    requires Orderly(log) && |handed| <= |log| && handed == Wire(log[..|handed|], shapes) && |answers| == |handed|
    requires k < |handed| && !answers[k]
    ensures Replay.After(Stored(handed, answers)) != Replay.After(ReadAll(log[..|handed|]))
  {
    var log', events := log[..|handed|], Stored(handed, answers);
    OrderlyPrefix(log, |handed|);
    WireAt(log', shapes);
    StoredIsAnswered(log', shapes, handed, answers);
    TableHoldsLog(log');
    if KeyedAt(log', k) {
      if k in Replay.After(events).db.transactions {
        Replay.RecordedWasDelivered(events, k);
      }
    } else {
      LateMissing(events, log', k);
    }
  }

  // What is stored of such hand-overs is the log without the unanswered ones.
  lemma {:induction false} StoredIsAnswered(log: seq<LogEntry>, shapes: nat -> Shape, handed: seq<Raw>,
                                            answers: seq<bool>)
    requires Orderly(log) && handed == Wire(log, shapes) && |answers| == |handed| == |log|
    ensures OfLog(Stored(handed, answers), log)
    ensures forall k :: 0 <= k < |handed| && !answers[k] ==> !Replay.Delivered(Stored(handed, answers), k)
  {
    var rs, events := Answered(Handoffs(handed, answers)), Stored(handed, answers);
    WireAt(log, shapes);
    forall r | r in rs ensures r in Wire(log, shapes) && Parses(r) && r.id < |answers| && answers[r.id] {
      var k := AnsweredAt(handed, answers, r);
      WireParses(log, shapes, r);
      assert log[k].id == k;
    }
    ParsedFromWire(log, shapes, rs);
    ParsedAt(rs);
    forall k | 0 <= k < |events|
      ensures events[k].id < |log| && events[k] == Read(log[events[k].id]) && answers[events[k].id]
    {
      assert events[k] in events && rs[k] in rs;
    }
  }
}
