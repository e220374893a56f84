// What the indexer never hands over: nothing at or below a cursor row again, and
// nothing that a start without a row has passed.

module IndexerLoss {
  import opened EscrowTypes
  import opened EventWire
  import opened Indexer
  import opened IndexerSafety

  // More has been handed over, all of it above a ledger.
  ghost predicate Extends(before: seq<Raw>, after: seq<Raw>, low: int) {
    before <= after && forall k :: |before| <= k < |after| ==> low < after[k].ledger
  }

  lemma ExtendsOn(a: seq<Raw>, b: seq<Raw>, c: seq<Raw>, low: int)
    requires Extends(a, b, low) && Extends(b, c, low)
    ensures Extends(a, c, low)
  {
    forall k | |a| <= k < |c| ensures low < c[k].ledger {
      if k < |b| { assert b[k] == c[k]; }
    }
  }

  lemma {:induction false} HandAbove(m: Memory, events: seq<Raw>, low: int)
    requires forall e :: e in events ==> low < e.ledger
    ensures Extends(m.handed, Hand(m, events).handed, low) && Hand(m, events).last == m.last
  {
    if events != [] {
      var init, last := events[..|events| - 1], events[|events| - 1];
      assert forall e :: e in init ==> e in events;
      assert last in events;
      HandAbove(m, init, low);
    }
  }

  lemma {:induction false} FetchAbove(m: Memory, chain: seq<Raw>, latest: nat, pos: nat, replies: seq<Reply>, page: nat,
                                      seenUpTo: Option<nat>, low: int)
    requires RepliesOk(chain, latest, pos, replies, page)
    requires forall i :: pos <= i < |chain| ==> low < chain[i].ledger
    ensures Extends(m.handed, Fetch(m, replies, page, seenUpTo).memory.handed, low)
    decreases MAX_PAGES - page
  {
    if page < MAX_PAGES && page < |replies| && replies[page].Page? {
      var r := replies[page];
      var m' := Hand(m, r.events);
      HandAbove(m, r.events, low);
      if !Final(r) {
        FetchAbove(m', chain, latest, pos + |r.events|, replies, page + 1, LastLedger(r.events, seenUpTo), low);
        ExtendsOn(m.handed, m'.handed, Fetch(m, replies, page, seenUpTo).memory.handed, low);
      }
    }
  }

  // A poll hands over nothing at or below the cursor.
  lemma PollAbove(m: Memory, chain: seq<Raw>, tip: nat, latest: Option<nat>, replies: seq<Reply>)
    requires Ordered(chain, tip) && PollValid(chain, tip, m, latest, replies)
    ensures Extends(m.handed, Poll(m, latest, replies).memory.handed, m.last)
  {
    if Polls(m, latest) {
      BeforeSplits(chain, m.last + 1, tip);
      FetchAbove(m, chain, latest.value, Before(chain, m.last + 1), replies, 0, None, m.last);
    }
  }

  lemma ExtendsBelow(earlier: seq<Raw>, a: seq<Raw>, b: seq<Raw>, low: int, lower: int)
    requires Extends(a, b, low) && lower <= low
    ensures Extends(earlier + a, earlier + b, lower)
  {
    forall k | |earlier + a| <= k < |earlier + b| ensures lower < (earlier + b)[k].ledger {
      assert (earlier + b)[k] == b[k - |earlier|];
    }
  }

  lemma ExtendsCut(earlier: seq<Raw>, a: seq<Raw>, b: seq<Raw>, low: int, n: nat)
    requires Extends(earlier + a, earlier + b, low) && |a| <= n <= |b|
    ensures Extends(earlier + a, earlier + b[..n] + [], low)
  {
    var cut := earlier + b[..n] + [];
    assert cut == (earlier + b)[..|earlier| + n];
  }

  // ------------------------------------------------------------ below a cursor row

  // What a tick hands over lies above any ledger at or below the process's cursor.
  lemma TickAbove(ids: seq<string>, y: System, t: Tick, low: int)
    requires Ordered(y.chain, y.tip) && TickOk(y, t) && (y.process.Some? ==> low <= y.process.value.memory.last)
    ensures Extends(y.Handed(), StepTick(ids, y, t).Handed(), low)
  {
    if y.process.Some? && (t.PollTick? || t.CrashInPoll?) {
      var m := y.process.value.memory;
      var m' := Poll(m, t.latest, t.replies).memory;
      PollAbove(m, y.chain, y.tip, t.latest, t.replies);
      ExtendsBelow(y.earlier, m.handed, m'.handed, m.last, low);
      if t.CrashInPoll? {
        ExtendsCut(y.earlier, m.handed, m'.handed, low, t.reached);
      }
    } else {
      assert StepTick(ids, y, t).Handed() == y.Handed();
    }
  }

  // The smallest row, and with it the running process's cursor, stays where it is
  // or goes up.
  lemma RowStays(ids: seq<string>, y: System, t: Tick)
    requires SystemOk(ids, y) && TickOk(y, t) && MinRow(ids, y.rows).Some?
    ensures var new' := MinRow(ids, StepTick(ids, y, t).rows); new'.Some? && MinRow(ids, y.rows).value <= new'.value
  {
    if t.PollTick? && y.process.Some? {
      PollCovers(ids, y, t.latest, t.replies);
      MinRowWritten(ids, y.rows, t.effective, Poll(y.process.value.memory, t.latest, t.replies).memory.last);
    }
  }

  lemma TicksPrefix(ids: seq<string>, ticks: seq<Tick>, more: seq<Tick>)
    requires TicksOk(ids, ticks + more)
    ensures TicksOk(ids, ticks)
    decreases |more|
  {
    if more != [] {
      assert (ticks + more)[..|ticks + more| - 1] == ticks + more[..|more| - 1];
      TicksPrefix(ids, ticks, more[..|more| - 1]);
    } else {
      assert ticks + more == ticks;
    }
  }

  // Once the smallest row is v, nothing at or below v is ever handed over again,
  // whatever polls, errors, crashes and restarts follow.
  lemma {:induction false} NothingBelowRow(ids: seq<string>, ticks: seq<Tick>, more: seq<Tick>)
    requires TicksOk(ids, ticks + more) && MinRow(ids, RunTicks(ids, ticks).rows).Some?
    ensures var y, y' := RunTicks(ids, ticks), RunTicks(ids, ticks + more);
            && Extends(y.Handed(), y'.Handed(), MinRow(ids, y.rows).value)
            && MinRow(ids, y'.rows).Some? && MinRow(ids, y.rows).value <= MinRow(ids, y'.rows).value
    decreases |more|
  {
    if more == [] {
      assert ticks + more == ticks;
    } else {
      var init, t := more[..|more| - 1], more[|more| - 1];
      assert ticks + more == ticks + init + [t];
      RunTicksSnoc(ids, ticks + init, t);
      NothingBelowRow(ids, ticks, init);
      RunOk(ids, ticks + init);
      var y, y1 := RunTicks(ids, ticks), RunTicks(ids, ticks + init);
      TickAbove(ids, y1, t, MinRow(ids, y.rows).value);
      RowStays(ids, y1, t);
      ExtendsOn(y.Handed(), y1.Handed(), RunTicks(ids, ticks + more).Handed(), MinRow(ids, y.rows).value);
    }
  }

  // ------------------------------------------------------------ before the first row

  // No process starts without a row.
  ghost predicate NoBlindStart(ids: seq<string>, ticks: seq<Tick>, more: seq<Tick>) {
    forall i :: 0 <= i < |more| && more[i].Boot? ==>
      RunTicks(ids, ticks + more[..i]).process.Some? || MinRow(ids, RunTicks(ids, ticks + more[..i]).rows).Some?
  }

  // An event is out of reach: not handed over so far, and at or below every cursor
  // from which the indexer could go on.
  ghost predicate Passed(ids: seq<string>, y: System, e: Raw) {
    && e !in y.Handed()
    && (y.process.Some? ==> e.ledger <= y.process.value.memory.last)
    && (MinRow(ids, y.rows).Some? ==> e.ledger <= MinRow(ids, y.rows).value)
  }

  lemma NotAdded(before: seq<Raw>, after: seq<Raw>, e: Raw, low: int)
    requires Extends(before, after, low) && e !in before && e.ledger <= low
    ensures e !in after
  {
    forall k | 0 <= k < |after| ensures after[k] != e {
      if k < |before| { assert before[k] == after[k]; }
    }
  }

  lemma PassedStays(ids: seq<string>, y: System, t: Tick, e: Raw)
    requires SystemOk(ids, y) && TickOk(y, t) && Passed(ids, y, e) && ids != []
    requires t.Boot? ==> y.process.Some? || MinRow(ids, y.rows).Some?
    ensures Passed(ids, StepTick(ids, y, t), e)
  {
    var y' := StepTick(ids, y, t);
    TickAbove(ids, y, t, e.ledger);
    NotAdded(y.Handed(), y'.Handed(), e, e.ledger);
    if t.PollTick? && y.process.Some? {
      PollCovers(ids, y, t.latest, t.replies);
      MinRowWritten(ids, y.rows, t.effective, y'.process.value.memory.last);
    }
  }

  lemma NoBlindPrefix(ids: seq<string>, ticks: seq<Tick>, more: seq<Tick>)
    requires more != [] && NoBlindStart(ids, ticks, more)
    ensures var init, t := more[..|more| - 1], more[|more| - 1];
            var y := RunTicks(ids, ticks + init);
            && NoBlindStart(ids, ticks, init)
            && (t.Boot? ==> y.process.Some? || MinRow(ids, y.rows).Some?)
  {
    var init := more[..|more| - 1];
    forall i | 0 <= i < |init| && init[i].Boot?
      ensures RunTicks(ids, ticks + init[..i]).process.Some? || MinRow(ids, RunTicks(ids, ticks + init[..i]).rows).Some?
    {
      assert init[..i] == more[..i] && init[i] == more[i];
    }
  }

  lemma {:induction false} PassedForever(ids: seq<string>, ticks: seq<Tick>, more: seq<Tick>, e: Raw)
    requires ids != [] && TicksOk(ids, ticks + more) && NoBlindStart(ids, ticks, more)
             && Passed(ids, RunTicks(ids, ticks), e)
    ensures Passed(ids, RunTicks(ids, ticks + more), e)
    decreases |more|
  {
    if more == [] {
      assert ticks + more == ticks;
    } else {
      var init, t := more[..|more| - 1], more[|more| - 1];
      assert ticks + more == ticks + init + [t];
      RunTicksSnoc(ids, ticks + init, t);
      NoBlindPrefix(ids, ticks, more);
      PassedForever(ids, ticks, init, e);
      RunOk(ids, ticks + init);
      PassedStays(ids, RunTicks(ids, ticks + init), t, e);
    }
  }

  // From any reachable state without a process and without a row: an event that
  // appears and is passed by the next start, for lack of an override, is never
  // handed over, as long as no further process starts without a row. Hence the
  // anchor in NeverSkips.
  lemma SkipsBeforeFirstRow(ids: seq<string>, ticks: seq<Tick>, events: seq<Raw>, tip: nat, override: int,
                            sequence: nat,
                            more: seq<Tick>, e: Raw)
    requires ids != [] && override <= 0 && e in events && e.ledger <= sequence
    requires RunTicks(ids, ticks).process.None? && MinRow(ids, RunTicks(ids, ticks).rows).None?
    requires var started := ticks + [Grow(events, tip)] + [Boot(override, sequence)];
             TicksOk(ids, started + more) && NoBlindStart(ids, started, more)
    ensures var y := RunTicks(ids, ticks + [Grow(events, tip)] + [Boot(override, sequence)] + more);
            e !in y.Handed() && (MinRow(ids, y.rows).Some? ==> e.ledger <= MinRow(ids, y.rows).value)
  {
    var grown := ticks + [Grow(events, tip)];
    var started := grown + [Boot(override, sequence)];
    TicksPrefix(ids, started, more);
    RunTicksSnoc(ids, grown, Boot(override, sequence));
    RunTicksSnoc(ids, ticks, Grow(events, tip));
    var y := RunTicks(ids, ticks);
    RunOk(ids, ticks);
    assert RunTicks(ids, started).Handed() == y.Handed();
    PassedForever(ids, started, more, e);
  }

  // Such a skip in full: the first start finds the event of ledger 1 on the chain,
  // and the first poll writes a row past it.
  function Skipping(id: string, e: Raw): seq<Tick> {
    [Grow([e], 1)] + [Boot(0, 1)] + [Grow([], 2)] + [PollTick(Some(2), [Page([], false)], {id})]
  }

  lemma OneRow(id: string, rows: Rows)
    ensures MinRow([id], rows) == if id in rows then Some(rows[id]) else None
  {
  }

  lemma SkippingStarts(id: string, e: Raw)
    requires e.ledger == 1
    ensures var ticks := [Grow([e], 1)] + [Boot(0, 1)] + [Grow([], 2)];
            && TicksOk([id], ticks)
            && RunTicks([id], ticks) == System([e], 2, map[], Some(Process(1, Memory(1, {}, []))), [], 0)
  {
    OneRow(id, map[]);
    RunTicksSnoc([id], [], Grow([e], 1));
    assert [] + [Grow([e], 1)] == [Grow([e], 1)];
    RunTicksSnoc([id], [Grow([e], 1)], Boot(0, 1));
    RunTicksSnoc([id], [Grow([e], 1)] + [Boot(0, 1)], Grow([], 2));
  }

  lemma SkipExample(id: string, e: Raw)
    requires e.ledger == 1
    ensures var y := RunTicks([id], Skipping(id, e));
            TicksOk([id], Skipping(id, e)) && y.rows == map[id := 2] && e in y.chain && y.Handed() == []
  {
    var started := [Grow([e], 1)] + [Boot(0, 1)] + [Grow([], 2)];
    var reply := Page([], false);
    SkippingStarts(id, e);
    RunTicksSnoc([id], started, PollTick(Some(2), [reply], {id}));
    EmptyPoll(1, 2, reply);
    EmptyPageOk([e], reply);
    assert Written([id], map[], {id}, 2) == map[id := 2];
    assert [e][0] == e;
  }

  lemma EmptyPoll(last: int, latest: nat, reply: Reply)
    requires last < latest && reply == Page([], false)
    ensures Poll(Memory(last, {}, []), Some(latest), [reply]) == Polled(Memory(latest, {}, []), true)
  {
    var m := Memory(last, {}, []);
    assert Hand(m, []) == m;
    assert Fetch(m, [reply], 0, None) == Drained(m);
  }

  lemma EmptyPageOk(chain: seq<Raw>, reply: Reply)
    requires Ordered(chain, 2) && reply == Page([], false) && forall e :: e in chain ==> e.ledger == 1
    ensures RepliesOk(chain, 2, Before(chain, 2), [reply], 0)
  {
    BeforeSplits(chain, 2, 2);
    forall i | 0 <= i < |chain| ensures chain[i].ledger < 2 {
      assert chain[i] in chain;
    }
  }
}
