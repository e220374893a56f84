// The indexer over any sequence of polls, RPC errors, partial cursor writes,
// crashes and restarts: it skips nothing, repeats nothing within one process,
// and its cursor never goes back.

module IndexerSafety {
  import opened EscrowTypes
  import opened EventWire
  import opened Indexer

  // ------------------------------------------------------------ the chain and the RPC

  // Events in ledger order, up to the tip, each under its own id.
  ghost predicate Ordered(chain: seq<Raw>, tip: nat) {
    && (forall i, j :: 0 <= i < j < |chain| ==> chain[i].ledger <= chain[j].ledger && chain[i].id != chain[j].id)
    && (forall i :: 0 <= i < |chain| ==> chain[i].ledger <= tip)
  }

  // The position of the first event at or after a ledger.
  function Before(chain: seq<Raw>, ledger: int): nat {
    if chain == [] then 0
    else if chain[|chain| - 1].ledger < ledger then |chain|
    else Before(chain[..|chain| - 1], ledger)
  }

  lemma {:induction false} BeforeSplits(chain: seq<Raw>, ledger: int, tip: nat)
    requires Ordered(chain, tip)
    ensures Before(chain, ledger) <= |chain|
    ensures forall i :: 0 <= i < |chain| ==> (i < Before(chain, ledger) <==> chain[i].ledger < ledger)
  {
    if chain != [] && ledger <= chain[|chain| - 1].ledger {
      BeforeSplits(chain[..|chain| - 1], ledger, tip);
    }
  }

  // A page continues from its position; one without a cursor, or with fewer than the
  // 100 events asked for, leaves nothing up to latest.
  ghost predicate PageOk(chain: seq<Raw>, latest: nat, pos: nat, r: Reply)
    requires r.Page?
  {
    && |r.events| <= 100 && pos + |r.events| <= |chain| && r.events == chain[pos..pos + |r.events|]
    && (!r.more || |r.events| < 100 ==> forall i :: pos + |r.events| <= i < |chain| ==> latest < chain[i].ledger)
  }

  ghost predicate RepliesOk(chain: seq<Raw>, latest: nat, pos: nat, replies: seq<Reply>, page: nat)
    decreases MAX_PAGES - page
  {
    page < MAX_PAGES && page < |replies| && replies[page].Page? ==>
      && PageOk(chain, latest, pos, replies[page])
      && (!Final(replies[page]) ==> RepliesOk(chain, latest, pos + |replies[page].events|, replies, page + 1))
  }

  // ------------------------------------------------------------ one poll

  predicate Has(events: seq<Raw>, id: nat) {
    exists k :: 0 <= k < |events| && events[k].id == id
  }

  // The process remembers exactly what it handed over, all of it once.
  ghost predicate MemoryOk(m: Memory, chain: seq<Raw>) {
    && (forall r :: r in m.handed ==> r in chain)
    && (forall id :: id in m.seen <==> Has(m.handed, id))
    && (forall i, j :: 0 <= i < j < |m.handed| ==> m.handed[i].id != m.handed[j].id)
  }

  lemma SeenWasHanded(m: Memory, chain: seq<Raw>, tip: nat, e: Raw)
    requires MemoryOk(m, chain) && Ordered(chain, tip) && e in chain && e.id in m.seen
    ensures e in m.handed
  {
    var k :| 0 <= k < |m.handed| && m.handed[k].id == e.id;
    assert m.handed[k] in chain;
    var i :| 0 <= i < |chain| && chain[i] == m.handed[k];
    var j :| 0 <= j < |chain| && chain[j] == e;
    if i < j || j < i { assert false; }
  }

  lemma HandOneOk(m: Memory, chain: seq<Raw>, tip: nat, e: Raw)
    requires MemoryOk(m, chain) && Ordered(chain, tip) && e in chain
    ensures var m' := HandOne(m, e);
            MemoryOk(m', chain) && m.handed <= m'.handed && e in m'.handed && m'.last == m.last
  {
    if e.id in m.seen {
      SeenWasHanded(m, chain, tip, e);
    } else {
      var m' := HandOne(m, e);
      forall id ensures id in m'.seen <==> Has(m'.handed, id) {
        HasSnoc(m.handed, e, id);
      }
      assert m'.handed[|m.handed|] == e;
      forall i, j | 0 <= i < j < |m'.handed| ensures m'.handed[i].id != m'.handed[j].id {
        if j == |m.handed| {
          assert Has(m.handed, m.handed[i].id);
        }
      }
    }
  }

  lemma HasSnoc(events: seq<Raw>, e: Raw, id: nat)
    ensures Has(events + [e], id) <==> Has(events, id) || e.id == id
  {
    assert (events + [e])[|events|] == e;
    if Has(events, id) {
      var k :| 0 <= k < |events| && events[k].id == id;
      assert (events + [e])[k] == events[k];
    }
  }

  lemma {:induction false} HandOk(m: Memory, chain: seq<Raw>, tip: nat, events: seq<Raw>)
    requires MemoryOk(m, chain) && Ordered(chain, tip) && forall e :: e in events ==> e in chain
    ensures var m' := Hand(m, events);
            && MemoryOk(m', chain) && m.handed <= m'.handed && m'.last == m.last
            && forall e :: e in events ==> e in m'.handed
  {
    if events != [] {
      var init, last := events[..|events| - 1], events[|events| - 1];
      assert events == init + [last];
      HandOk(m, chain, tip, init);
      HandOneOk(Hand(m, init), chain, tip, last);
    }
  }

  // The events at positions from..to have been handed over.
  ghost predicate Given(chain: seq<Raw>, from: nat, to: nat, handed: seq<Raw>) {
    forall i :: from <= i < to && i < |chain| ==> chain[i] in handed
  }

  // Everything up to latest, or the next so many full pages of events.
  ghost predicate Fetched(chain: seq<Raw>, latest: nat, pos: nat, pages: nat, o: Outcome) {
    match o
    case Failed(_) => true
    case Drained(m) => forall i :: pos <= i < |chain| && chain[i].ledger <= latest ==> chain[i] in m.handed
    case Capped(m, seenUpTo) =>
      && pos + PAGE_LIMIT * pages <= |chain| && Given(chain, pos, pos + PAGE_LIMIT * pages, m.handed)
      && (0 < pages ==> seenUpTo == Some(chain[pos + PAGE_LIMIT * pages - 1].ledger))
  }

  // The page loop keeps the memory in order, and only adds to what was handed over.
  lemma {:induction false} FetchKeeps(m: Memory, chain: seq<Raw>, tip: nat, latest: nat, pos: nat,
                                      replies: seq<Reply>, page: nat, seenUpTo: Option<nat>)
    requires MemoryOk(m, chain) && Ordered(chain, tip) && RepliesOk(chain, latest, pos, replies, page)
    ensures var o := Fetch(m, replies, page, seenUpTo);
            MemoryOk(o.memory, chain) && m.handed <= o.memory.handed && o.memory.last == m.last
    decreases MAX_PAGES - page
  {
    if page < MAX_PAGES && page < |replies| && replies[page].Page? {
      var r := replies[page];
      OnePage(m, chain, tip, latest, pos, page, r);
      if !Final(r) {
        FetchKeeps(Hand(m, r.events), chain, tip, latest, pos + PAGE_LIMIT, replies, page + 1,
                   LastLedger(r.events, seenUpTo));
      }
    }
  }

  // What the loop hands over, page by page, from a page at position pos on.
  ghost predicate Handing(m: Memory, chain: seq<Raw>, latest: nat, pos: nat, replies: seq<Reply>, page: nat,
                          seenUpTo: Option<nat>)
    decreases MAX_PAGES - page
  {
    page < MAX_PAGES && page < |replies| && replies[page].Page? ==>
      var r := replies[page];
      var m', seenUpTo' := Hand(m, r.events), LastLedger(r.events, seenUpTo);
      if Final(r) then Fetched(chain, latest, pos, MAX_PAGES - page, Drained(m'))
      else
        && pos + PAGE_LIMIT <= |chain| && Given(chain, pos, pos + PAGE_LIMIT, m'.handed)
        && seenUpTo' == Some(chain[pos + PAGE_LIMIT - 1].ledger)
        && m'.handed <= Fetch(m', replies, page + 1, seenUpTo').memory.handed
        && Handing(m', chain, latest, pos + PAGE_LIMIT, replies, page + 1, seenUpTo')
  }

  lemma {:induction false} HandsOver(m: Memory, chain: seq<Raw>, tip: nat, latest: nat, pos: nat,
                                     replies: seq<Reply>, page: nat, seenUpTo: Option<nat>)
    requires MemoryOk(m, chain) && Ordered(chain, tip) && RepliesOk(chain, latest, pos, replies, page)
    ensures Handing(m, chain, latest, pos, replies, page, seenUpTo)
    decreases MAX_PAGES - page
  {
    if page < MAX_PAGES && page < |replies| && replies[page].Page? {
      var r := replies[page];
      var m', seenUpTo' := Hand(m, r.events), LastLedger(r.events, seenUpTo);
      OnePage(m, chain, tip, latest, pos, page, r);
      if !Final(r) {
        FetchKeeps(m', chain, tip, latest, pos + PAGE_LIMIT, replies, page + 1, seenUpTo');
        HandsOver(m', chain, tip, latest, pos + PAGE_LIMIT, replies, page + 1, seenUpTo');
      }
    }
  }

  lemma {:induction false} FetchedBy(m: Memory, chain: seq<Raw>, latest: nat, pos: nat,
                                     replies: seq<Reply>, page: nat, seenUpTo: Option<nat>)
    requires Handing(m, chain, latest, pos, replies, page, seenUpTo)
    requires page <= MAX_PAGES && pos <= |chain|
    ensures Fetched(chain, latest, pos, MAX_PAGES - page, Fetch(m, replies, page, seenUpTo))
    decreases MAX_PAGES - page
  {
    if page < MAX_PAGES && page < |replies| && replies[page].Page? && !Final(replies[page]) {
      var r := replies[page];
      var m', seenUpTo' := Hand(m, r.events), LastLedger(r.events, seenUpTo);
      FetchedBy(m', chain, latest, pos + PAGE_LIMIT, replies, page + 1, seenUpTo');
      AfterFullPage(chain, latest, pos, page, Fetch(m', replies, page + 1, seenUpTo'), m'.handed, seenUpTo');
    }
  }

  // A drained page loop has handed over everything up to latest, one that hit the
  // page cap exactly the next 50 full pages of events.
  lemma {:induction false} FetchOk(m: Memory, chain: seq<Raw>, tip: nat, latest: nat, pos: nat, replies: seq<Reply>)
    requires MemoryOk(m, chain) && Ordered(chain, tip) && RepliesOk(chain, latest, pos, replies, 0) && pos <= |chain|
    ensures var o := Fetch(m, replies, 0, None);
            && MemoryOk(o.memory, chain) && m.handed <= o.memory.handed && o.memory.last == m.last
            && Fetched(chain, latest, pos, MAX_PAGES, o)
  {
    FetchKeeps(m, chain, tip, latest, pos, replies, 0, None);
    HandsOver(m, chain, tip, latest, pos, replies, 0, None);
    FetchedBy(m, chain, latest, pos, replies, 0, None);
  }

  lemma {:induction false} OnePage(m: Memory, chain: seq<Raw>, tip: nat, latest: nat, pos: nat, page: nat, r: Reply)
    requires MemoryOk(m, chain) && Ordered(chain, tip) && r.Page? && PageOk(chain, latest, pos, r) && page < MAX_PAGES
    ensures var m' := Hand(m, r.events);
            && MemoryOk(m', chain) && m.handed <= m'.handed && m'.last == m.last
            && if Final(r) then Fetched(chain, latest, pos, MAX_PAGES - page, Drained(m'))
               else |r.events| == PAGE_LIMIT && Given(chain, pos, pos + PAGE_LIMIT, m'.handed)
                    && pos + PAGE_LIMIT <= |chain| && r.events[PAGE_LIMIT - 1] == chain[pos + PAGE_LIMIT - 1]
  {
    HandOk(m, chain, tip, r.events);
    PageGiven(chain, latest, pos, r, Hand(m, r.events).handed);
  }

  lemma PageGiven(chain: seq<Raw>, latest: nat, pos: nat, r: Reply, handed: seq<Raw>)
    requires r.Page? && PageOk(chain, latest, pos, r) && forall e :: e in r.events ==> e in handed
    ensures Given(chain, pos, pos + |r.events|, handed)
    ensures Final(r) ==> forall i :: pos <= i < |chain| && chain[i].ledger <= latest ==> chain[i] in handed
  {
  }

  lemma AfterFullPage(chain: seq<Raw>, latest: nat, pos: nat, page: nat, o: Outcome, handed: seq<Raw>,
                      seenUpTo: Option<nat>)
    requires page < MAX_PAGES && Given(chain, pos, pos + PAGE_LIMIT, handed) && handed <= o.memory.handed
    requires pos + PAGE_LIMIT <= |chain| && seenUpTo == Some(chain[pos + PAGE_LIMIT - 1].ledger)
    requires Fetched(chain, latest, pos + PAGE_LIMIT, MAX_PAGES - (page + 1), o)
    requires o.Capped? && page + 1 == MAX_PAGES ==> o.seenUpTo == seenUpTo
    ensures Fetched(chain, latest, pos, MAX_PAGES - page, o)
  {
  }

  ghost predicate PollValid(chain: seq<Raw>, tip: nat, m: Memory, latest: Option<nat>, replies: seq<Reply>) {
    latest.Some? ==>
      latest.value <= tip && RepliesOk(chain, latest.value, Before(chain, m.last + 1), replies, 0)
  }

  // All 50 pages of a poll fall into the ledger it starts from.
  ghost predicate Crowded(chain: seq<Raw>, ledger: int) {
    var pos := Before(chain, ledger);
    pos + PAGE_LIMIT * MAX_PAGES <= |chain| && chain[pos + PAGE_LIMIT * MAX_PAGES - 1].ledger == ledger
  }

  // 5000 events in a row of one ledger; all of a ledger's events are in a row.
  ghost predicate Packed(chain: seq<Raw>, ledger: int, k: nat) {
    k + 5000 <= |chain| && forall i :: k <= i < k + 5000 ==> chain[i].ledger == ledger
  }

  lemma CrowdedIffPacked(chain: seq<Raw>, tip: nat, ledger: int)
    requires Ordered(chain, tip)
    ensures Crowded(chain, ledger) <==> exists k: nat :: Packed(chain, ledger, k)
  {
    BeforeSplits(chain, ledger, tip);
    if Crowded(chain, ledger) {
      assert Packed(chain, ledger, Before(chain, ledger));
    }
    if exists k: nat :: Packed(chain, ledger, k) {
      var k: nat :| Packed(chain, ledger, k);
      var pos := Before(chain, ledger);
      assert chain[k].ledger == ledger && pos <= k;
      assert chain[k + PAGE_LIMIT * MAX_PAGES - 1].ledger == ledger;
      assert ledger <= chain[pos + PAGE_LIMIT * MAX_PAGES - 1].ledger;
    }
  }

  // What a poll that gets past its first check did.
  ghost predicate Polls(m: Memory, latest: Option<nat>) {
    latest.Some? && m.last + 1 <= latest.value
  }

  // Every event in this range of ledgers has been handed over.
  ghost predicate Covered(chain: seq<Raw>, handed: seq<Raw>, low: int, high: int) {
    forall i :: 0 <= i < |chain| && low < chain[i].ledger <= high ==> chain[i] in handed
  }

  // The page loop fails exactly at a page that is not answered, after full pages with a
  // cursor, within the first 50.
  ghost predicate FailsAt(replies: seq<Reply>, from: nat, p: nat) {
    && from <= p < 50 && (|replies| <= p || replies[p].Fault?)
    && forall q :: from <= q < p && q < |replies| ==>
         replies[q].Page? && replies[q].more && 100 <= |replies[q].events|
  }

  lemma {:induction false} FetchFailsIff(m: Memory, replies: seq<Reply>, page: nat, seenUpTo: Option<nat>)
    requires page <= 50 && page <= |replies| + 1
    ensures Fetch(m, replies, page, seenUpTo).Failed? <==> exists p: nat :: FailsAt(replies, page, p)
    decreases 50 - page
  {
    if page < 50 {
      if |replies| <= page || replies[page].Fault? {
        assert FailsAt(replies, page, page);
      } else {
        var r, next := replies[page], page + 1;
        FetchFailsIff(Hand(m, r.events), replies, next, LastLedger(r.events, seenUpTo));
        if !Final(r) {
          if exists p: nat :: FailsAt(replies, next, p) {
            var p: nat :| FailsAt(replies, next, p);
            assert FailsAt(replies, page, p);
          }
        }
        if exists p: nat :: FailsAt(replies, page, p) {
          var p: nat :| FailsAt(replies, page, p);
          assert page < p && FailsAt(replies, next, p);
        }
      }
    }
  }

  // So the cursor is written exactly by the polls that found something to do and were
  // answered to the end.
  lemma {:induction false} PollWritesIff(m: Memory, latest: Option<nat>, replies: seq<Reply>)
    ensures Poll(m, latest, replies).persists <==>
              latest.Some? && m.last < latest.value && !exists p: nat :: FailsAt(replies, 0, p)
  {
    FetchFailsIff(m, replies, 0, None);
  }

  // Where a process starts: at 0 without contracts; at a smallest row; without one right
  // before a positive override, and otherwise at the tip.
  lemma {:induction false} StartsAt(ids: seq<string>, rows: Rows, override: int, latest: nat)
    ensures var start := LoadCursor(ids, rows, override, latest);
            && (ids == [] ==> start == 0)
            && (ids != [] && (forall id :: id in ids ==> id !in rows) ==>
                  start == if override <= 0 then latest else override - 1)
            && ((exists id :: id in ids && id in rows) ==>
                  (exists id :: id in ids && id in rows && rows[id] == start)
                  && forall id :: id in ids && id in rows ==> start <= rows[id])
  {
    MinRowSpec(ids, rows);
  }

  // A poll never moves the cursor back; whatever the cursor passes over has been
  // handed to the parser by this process; the cursor stays within the tip.
  lemma {:induction false} PollOk(m: Memory, chain: seq<Raw>, tip: nat, latest: Option<nat>, replies: seq<Reply>)
    requires MemoryOk(m, chain) && Ordered(chain, tip) && PollValid(chain, tip, m, latest, replies)
    ensures var m' := Poll(m, latest, replies).memory;
            && MemoryOk(m', chain) && m.handed <= m'.handed
            && m.last <= m'.last && (m'.last != m.last ==> m'.last <= tip)
            && Covered(chain, m'.handed, m.last, m'.last)
  {
    if Polls(m, latest) {
      PollKeeps(m, chain, tip, latest.value, replies);
      PollMoves(m, chain, tip, latest.value, replies);
    }
  }

  lemma {:induction false} PollKeeps(m: Memory, chain: seq<Raw>, tip: nat, latest: nat, replies: seq<Reply>)
    requires MemoryOk(m, chain) && Ordered(chain, tip) && PollValid(chain, tip, m, Some(latest), replies)
    ensures var m' := Poll(m, Some(latest), replies).memory; MemoryOk(m', chain) && m.handed <= m'.handed
  {
    PollFetches(m, chain, tip, latest, replies);
    MemoryKept(Fetch(m, replies, 0, None).memory, Conclude(latest, Fetch(m, replies, 0, None)).memory, chain);
  }

  lemma {:induction false} PollMoves(m: Memory, chain: seq<Raw>, tip: nat, latest: nat, replies: seq<Reply>)
    requires MemoryOk(m, chain) && Ordered(chain, tip) && PollValid(chain, tip, m, Some(latest), replies)
    requires Polls(m, Some(latest))
    ensures var m' := Poll(m, Some(latest), replies).memory;
            && m.last <= m'.last && (m'.last != m.last ==> m'.last <= tip) && Covered(chain, m'.handed, m.last, m'.last)
  {
    PollFetches(m, chain, tip, latest, replies);
    ConcludeOk(chain, tip, m.last, latest, Fetch(m, replies, 0, None));
  }

  // It does not depend on where the cursor is.
  lemma {:induction false} MemoryKept(m: Memory, m': Memory, chain: seq<Raw>)
    requires MemoryOk(m, chain) && m'.handed == m.handed && m'.seen == m.seen
    ensures MemoryOk(m', chain)
  {
  }

  lemma PollFetches(m: Memory, chain: seq<Raw>, tip: nat, latest: nat, replies: seq<Reply>)
    requires MemoryOk(m, chain) && Ordered(chain, tip)
    requires RepliesOk(chain, latest, Before(chain, m.last + 1), replies, 0)
    ensures var o := Fetch(m, replies, 0, None);
            && MemoryOk(o.memory, chain) && m.handed <= o.memory.handed && o.memory.last == m.last
            && Before(chain, m.last + 1) <= |chain|
            && Fetched(chain, latest, Before(chain, m.last + 1), MAX_PAGES, o)
  {
    BeforeSplits(chain, m.last + 1, tip);
    FetchOk(m, chain, tip, latest, Before(chain, m.last + 1), replies);
  }

  lemma ConcludeOk(chain: seq<Raw>, tip: nat, last: int, latest: nat, o: Outcome)
    requires Ordered(chain, tip) && o.memory.last == last < latest <= tip
    requires Before(chain, last + 1) <= |chain| && Fetched(chain, latest, Before(chain, last + 1), MAX_PAGES, o)
    ensures var p := Conclude(latest, o);
            && p.memory.handed == o.memory.handed && p.memory.seen == o.memory.seen
            && last <= p.memory.last && (p.memory.last != last ==> p.memory.last <= tip)
            && Covered(chain, o.memory.handed, last, p.memory.last)
            && (p.persists <==> !o.Failed?)
            && (!o.Failed? ==> (p.memory.last == last <==> o.Capped? && Crowded(chain, last + 1)))
  {
    BeforeSplits(chain, last + 1, tip);
    if o.Capped? {
      CappedOk(chain, tip, last, latest, o);
    }
  }

  lemma CappedOk(chain: seq<Raw>, tip: nat, last: int, latest: nat, o: Outcome)
    requires Ordered(chain, tip) && o.Capped?
    requires Before(chain, last + 1) <= |chain| && Fetched(chain, latest, Before(chain, last + 1), MAX_PAGES, o)
    ensures o.seenUpTo.Some? && last < o.seenUpTo.value <= tip
    ensures o.seenUpTo.value == last + 1 <==> Crowded(chain, last + 1)
    ensures forall i :: 0 <= i < |chain| && last < chain[i].ledger < o.seenUpTo.value ==> chain[i] in o.memory.handed
  {
    var pos := Before(chain, last + 1);
    BeforeSplits(chain, last + 1, tip);
    var end := pos + PAGE_LIMIT * MAX_PAGES;
    forall i | 0 <= i < |chain| && last < chain[i].ledger < o.seenUpTo.value ensures chain[i] in o.memory.handed {
      assert pos <= i < end;
    }
  }

  // An error-free poll with ledgers to process stands still exactly when it hits
  // the page cap inside the first of them; otherwise it strictly advances.
  lemma {:induction false} PollAdvancesIff(m: Memory, chain: seq<Raw>, tip: nat, latest: Option<nat>,
                                           replies: seq<Reply>)
    requires MemoryOk(m, chain) && Ordered(chain, tip) && PollValid(chain, tip, m, latest, replies)
    requires Polls(m, latest) && !Fetch(m, replies, 0, None).Failed?
    ensures var p := Poll(m, latest, replies);
            && p.persists
            && (p.memory.last == m.last <==> Fetch(m, replies, 0, None).Capped? && Crowded(chain, m.last + 1))
            && (p.memory.last != m.last ==> m.last < p.memory.last <= tip)
  {
    PollFetches(m, chain, tip, latest.value, replies);
    ConcludeOk(chain, tip, m.last, latest.value, Fetch(m, replies, 0, None));
  }

  // Several polls against a chain that does not grow.
  function PollAll(m: Memory, tip: nat, polls: seq<seq<Reply>>): Memory {
    if polls == [] then m else Poll(PollAll(m, tip, polls[..|polls| - 1]), Some(tip), polls[|polls| - 1]).memory
  }

  ghost predicate PollsValid(m: Memory, chain: seq<Raw>, tip: nat, polls: seq<seq<Reply>>) {
    polls != [] ==>
      var before := PollAll(m, tip, polls[..|polls| - 1]);
      && PollsValid(m, chain, tip, polls[..|polls| - 1])
      && PollValid(chain, tip, before, Some(tip), polls[|polls| - 1])
      && !Fetch(before, polls[|polls| - 1], 0, None).Failed?
  }

  // If no ledger holds 5000 events, each poll gains at least one ledger, so
  // finitely many polls reach the tip.
  lemma {:induction false} PollsReachTip(m: Memory, chain: seq<Raw>, tip: nat, polls: seq<seq<Reply>>)
    requires MemoryOk(m, chain) && Ordered(chain, tip) && PollsValid(m, chain, tip, polls)
    requires forall ledger: int :: !Crowded(chain, ledger)
    ensures var m' := PollAll(m, tip, polls);
            MemoryOk(m', chain) && m.last <= m'.last && (m.last + |polls| <= m'.last || tip <= m'.last)
  {
    if polls != [] {
      var init, last := polls[..|polls| - 1], polls[|polls| - 1];
      PollsReachTip(m, chain, tip, init);
      var before := PollAll(m, tip, init);
      PollOk(before, chain, tip, Some(tip), last);
      if before.last < tip {
        PollAdvancesIff(before, chain, tip, Some(tip), last);
      }
    }
  }

  // ------------------------------------------------------------ cursor rows

  lemma {:induction false} MinRowSpec(ids: seq<string>, rows: Rows)
    ensures MinRow(ids, rows).Some? <==> exists id :: id in ids && id in rows
    ensures MinRow(ids, rows).Some? ==>
              && (forall id :: id in ids && id in rows ==> MinRow(ids, rows).value <= rows[id])
              && exists id :: id in ids && id in rows && rows[id] == MinRow(ids, rows).value
  {
    if ids != [] {
      var init, last := ids[..|ids| - 1], ids[|ids| - 1];
      assert ids == init + [last];
      MinRowSpec(init, rows);
    }
  }

  lemma {:induction false} WrittenSpec(ids: seq<string>, rows: Rows, effective: set<string>, ledger: int)
    ensures var rows' := Written(ids, rows, effective, ledger);
            && (forall id :: id in rows' <==> id in rows || (id in ids && id in effective))
            && (forall id :: id in rows' ==>
                  rows'[id] == if id in ids && id in effective then ledger else rows[id])
  {
    if ids != [] {
      var init, last := ids[..|ids| - 1], ids[|ids| - 1];
      assert ids == init + [last];
      WrittenSpec(init, rows, effective, ledger);
    }
  }

  // However many of the writes take effect, the smallest row stays between its
  // old value and the ledger written.
  lemma MinRowWritten(ids: seq<string>, rows: Rows, effective: set<string>, ledger: int)
    requires MinRow(ids, rows).Some? ==> MinRow(ids, rows).value <= ledger
    ensures var old', new' := MinRow(ids, rows), MinRow(ids, Written(ids, rows, effective, ledger));
            && (old'.Some? ==> new'.Some? && old'.value <= new'.value)
            && (new'.Some? ==> new'.value <= ledger)
            && (old'.None? && new'.Some? ==> new'.value == ledger)
  {
    var rows' := Written(ids, rows, effective, ledger);
    MinRowSpec(ids, rows);
    MinRowSpec(ids, rows');
    WrittenSpec(ids, rows, effective, ledger);
  }

  // ------------------------------------------------------------ the whole system

  // A running process: where it started and its memory.
  datatype Process = Process(start: int, memory: Memory)

  // The chain so far, the cursor table, the running process, what earlier
  // processes handed over, and where the process that wrote the first row started.
  datatype System = System(chain: seq<Raw>, tip: nat, rows: Rows, process: Option<Process>, earlier: seq<Raw>,
                           anchor: int)
  {
    function Mine(): seq<Raw> { if process.Some? then process.value.memory.handed else [] }

    // Everything handed to the parser so far, in order.
    function Handed(): seq<Raw> { earlier + Mine() }
  }

  datatype Tick =
    | Grow(events: seq<Raw>, tip: nat)
    | Boot(override: int, sequence: nat)
    | PollTick(latest: Option<nat>, replies: seq<Reply>, effective: set<string>)
    | Crash
    | CrashInPoll(latest: Option<nat>, replies: seq<Reply>, reached: nat)  // having handed over so many events in all

  // What is assumed of the surroundings: the chain only grows, above its tip; the
  // RPC never reports a tip that does not exist and serves pages as PageOk says.
  ghost predicate TickOk(y: System, t: Tick) {
    match t
    case Grow(events, tip) =>
      y.tip <= tip && Ordered(y.chain + events, tip) && forall e :: e in events ==> y.tip < e.ledger
    case Boot(_, latest) => latest <= y.tip
    case PollTick(latest, replies, _) =>
      y.process.Some? ==> PollValid(y.chain, y.tip, y.process.value.memory, latest, replies)
    case Crash => true
    case CrashInPoll(latest, replies, reached) =>
      y.process.Some? ==>
        && PollValid(y.chain, y.tip, y.process.value.memory, latest, replies)
        && |y.Mine()| <= reached <= |Poll(y.process.value.memory, latest, replies).memory.handed|
  }

  function StepTick(ids: seq<string>, y: System, t: Tick): System {
    match t
    case Grow(events, tip) => y.(chain := y.chain + events, tip := tip)
    case Boot(override, latest) =>
      if y.process.Some? then y
      else
        var start := LoadCursor(ids, y.rows, override, latest);
        y.(process := Some(Process(start, Memory(start, {}, []))))
    case PollTick(latest, replies, effective) =>
      if y.process.None? then y
      else
        var p := Poll(y.process.value.memory, latest, replies);
        var rows := if p.persists then Written(ids, y.rows, effective, p.memory.last) else y.rows;
        y.(process := Some(y.process.value.(memory := p.memory)), rows := rows,
           anchor := if MinRow(ids, y.rows).None? && MinRow(ids, rows).Some? then y.process.value.start else y.anchor)
    case Crash => y.(process := None, earlier := y.Handed())
    case CrashInPoll(latest, replies, reached) =>
      if y.process.None? then y
      else
        var handed := Poll(y.process.value.memory, latest, replies).memory.handed;
        y.(process := None, earlier := y.earlier + handed[..if reached < |handed| then reached else |handed|])
  }

  function First(rows: Rows): System {
    System([], 0, rows, None, [], 0)
  }

  // A run of an installation with these contracts, whose cursor table starts empty.
  function RunTicks(ids: seq<string>, ticks: seq<Tick>): System {
    if ticks == [] then First(map[]) else StepTick(ids, RunTicks(ids, ticks[..|ticks| - 1]), ticks[|ticks| - 1])
  }

  ghost predicate TicksOk(ids: seq<string>, ticks: seq<Tick>) {
    ticks != [] ==>
      && TicksOk(ids, ticks[..|ticks| - 1])
      && TickOk(RunTicks(ids, ticks[..|ticks| - 1]), ticks[|ticks| - 1])
  }

  // Where gap-free coverage begins: the start of the process that wrote the first
  // row, or of the running one while there is no row.
  function Low(ids: seq<string>, y: System): int {
    if MinRow(ids, y.rows).Some? || y.process.None? then y.anchor else y.process.value.start
  }

  ghost predicate ProcessOk(ids: seq<string>, y: System, p: Process) {
    && MemoryOk(p.memory, y.chain)
    && (p.memory.last <= Low(ids, y) || p.memory.last <= y.tip)
    && (p.memory.last <= p.start || p.memory.last <= y.tip)
    && Covered(y.chain, p.memory.handed, p.start, p.memory.last)
    && Covered(y.chain, y.Handed(), Low(ids, y), p.memory.last)
    && (MinRow(ids, y.rows).Some? ==> MinRow(ids, y.rows).value <= p.memory.last)
  }

  ghost predicate RowsOk(ids: seq<string>, y: System) {
    MinRow(ids, y.rows).Some? ==>
      var v := MinRow(ids, y.rows).value;
      (v <= y.anchor || v <= y.tip) && Covered(y.chain, y.Handed(), y.anchor, v)
  }

  ghost predicate SystemOk(ids: seq<string>, y: System) {
    && Ordered(y.chain, y.tip)
    && (forall r :: r in y.earlier ==> r in y.chain)
    && RowsOk(ids, y)
    && (y.process.Some? ==> ProcessOk(ids, y, y.process.value))
  }

  lemma {:induction false} GrowOk(ids: seq<string>, y: System, events: seq<Raw>, tip: nat)
    requires SystemOk(ids, y) && TickOk(y, Grow(events, tip))
    ensures SystemOk(ids, StepTick(ids, y, Grow(events, tip)))
  {
  }

  lemma BootOk(ids: seq<string>, y: System, override: int, latest: nat)
    requires SystemOk(ids, y)
    ensures SystemOk(ids, StepTick(ids, y, Boot(override, latest)))
  {
  }

  lemma CoveredMore(chain: seq<Raw>, handed: seq<Raw>, more: seq<Raw>, low: int, high: int)
    requires Covered(chain, handed, low, high) && forall r :: r in handed ==> r in more
    ensures Covered(chain, more, low, high)
  {
  }

  lemma CoveredTo(chain: seq<Raw>, handed: seq<Raw>, low: int, mid: int, high: int)
    requires Covered(chain, handed, low, mid) && Covered(chain, handed, mid, high)
    ensures Covered(chain, handed, low, high)
  {
  }

  // What a process covers after a poll.
  lemma PollCovers(ids: seq<string>, y: System, latest: Option<nat>, replies: seq<Reply>)
    requires SystemOk(ids, y) && y.process.Some? && PollValid(y.chain, y.tip, y.process.value.memory, latest, replies)
    ensures var p, m' := y.process.value, Poll(y.process.value.memory, latest, replies).memory;
            && MemoryOk(m', y.chain) && p.memory.handed <= m'.handed && p.memory.last <= m'.last
            && (m'.last == p.memory.last || m'.last <= y.tip)
            && Covered(y.chain, m'.handed, p.start, m'.last)
            && Covered(y.chain, y.earlier + m'.handed, Low(ids, y), m'.last)
  {
    var p, m' := y.process.value, Poll(y.process.value.memory, latest, replies).memory;
    PollOk(p.memory, y.chain, y.tip, latest, replies);
    PrefixIn(p.memory.handed, m'.handed);
    CoveredMore(y.chain, p.memory.handed, m'.handed, p.start, p.memory.last);
    CoveredTo(y.chain, m'.handed, p.start, p.memory.last, m'.last);
    CoveredMore(y.chain, y.Handed(), y.earlier + m'.handed, Low(ids, y), p.memory.last);
    CoveredMore(y.chain, m'.handed, y.earlier + m'.handed, p.memory.last, m'.last);
    CoveredTo(y.chain, y.earlier + m'.handed, Low(ids, y), p.memory.last, m'.last);
  }

  lemma PrefixIn(a: seq<Raw>, b: seq<Raw>)
    requires a <= b
    ensures forall r :: r in a ==> r in b
  {
  }

  lemma PollTickOk(ids: seq<string>, y: System, latest: Option<nat>, replies: seq<Reply>, effective: set<string>)
    requires SystemOk(ids, y) && TickOk(y, PollTick(latest, replies, effective))
    ensures SystemOk(ids, StepTick(ids, y, PollTick(latest, replies, effective)))
  {
    if y.process.Some? {
      var y' := StepTick(ids, y, PollTick(latest, replies, effective));
      PollCovers(ids, y, latest, replies);
      MinRowWritten(ids, y.rows, effective, y'.process.value.memory.last);
      assert y'.Handed() == y.earlier + y'.process.value.memory.handed;
      assert Low(ids, y') == Low(ids, y);
      if MinRow(ids, y'.rows).Some? {
        CoveredLess(y.chain, y'.Handed(), y'.anchor, MinRow(ids, y'.rows).value, y'.process.value.memory.last);
      }
    }
  }

  lemma CoveredLess(chain: seq<Raw>, handed: seq<Raw>, low: int, high: int, higher: int)
    requires Covered(chain, handed, low, higher) && high <= higher
    ensures Covered(chain, handed, low, high)
  {
  }

  lemma {:induction false} CrashOk(ids: seq<string>, y: System, t: Tick)
    requires SystemOk(ids, y) && TickOk(y, t) && (t.Crash? || t.CrashInPoll?)
    ensures SystemOk(ids, StepTick(ids, y, t))
  {
    var y' := StepTick(ids, y, t);
    assert y'.earlier + [] == y'.earlier;
    if t.CrashInPoll? && y.process.Some? {
      PollCovers(ids, y, t.latest, t.replies);
      var handed := Poll(y.process.value.memory, t.latest, t.replies).memory.handed;
      PrefixIn(y.Mine(), handed[..t.reached]);
    }
    if MinRow(ids, y.rows).Some? && y'.process.None? {
      CoveredMore(y.chain, y.Handed(), y'.Handed(), y.anchor, MinRow(ids, y.rows).value);
    }
  }

  lemma {:induction false} RunOk(ids: seq<string>, ticks: seq<Tick>)
    requires TicksOk(ids, ticks)
    ensures SystemOk(ids, RunTicks(ids, ticks))
  {
    if ticks == [] {
      MinRowSpec(ids, map[]);
    } else {
      var init, t := ticks[..|ticks| - 1], ticks[|ticks| - 1];
      var y := RunTicks(ids, init);
      RunOk(ids, init);
      match t {
        case Grow(events, tip) => GrowOk(ids, y, events, tip);
        case Boot(override, latest) => BootOk(ids, y, override, latest);
        case PollTick(latest, replies, effective) => PollTickOk(ids, y, latest, replies, effective);
        case Crash => CrashOk(ids, y, t);
        case CrashInPoll(_, _, _) => CrashOk(ids, y, t);
      }
    }
  }

  // Never skips: whatever happens, once a cursor row exists, every event above
  // the start of the process that wrote the first row, up to the value the next
  // process would load, has been handed to the parser.
  lemma NeverSkips(ids: seq<string>, ticks: seq<Tick>, override: int, latest: nat)
    requires TicksOk(ids, ticks) && MinRow(ids, RunTicks(ids, ticks).rows).Some?
    ensures var y := RunTicks(ids, ticks);
            Covered(y.chain, y.Handed(), y.anchor, LoadCursor(ids, y.rows, override, latest))
  {
    RunOk(ids, ticks);
  }

  // A running process has itself handed over all it has passed, each event once,
  // and nothing that is not on the chain.
  lemma HandedOnce(ids: seq<string>, ticks: seq<Tick>)
    requires TicksOk(ids, ticks) && RunTicks(ids, ticks).process.Some?
    ensures var y := RunTicks(ids, ticks);
            var p := y.process.value;
            && Covered(y.chain, p.memory.handed, p.start, p.memory.last)
            && (forall i, j :: 0 <= i < j < |p.memory.handed| ==> p.memory.handed[i].id != p.memory.handed[j].id)
            && (forall r :: r in p.memory.handed ==> r in y.chain)
  {
    RunOk(ids, ticks);
  }

  // Once a row exists, the value the next process would load never decreases,
  // and the anchor stays.
  lemma CursorNeverDecreases(ids: seq<string>, ticks: seq<Tick>, t: Tick, override: int, latest: nat, override': int,
                             latest': nat)
    requires TicksOk(ids, ticks + [t]) && MinRow(ids, RunTicks(ids, ticks).rows).Some?
    ensures var y, y' := RunTicks(ids, ticks), RunTicks(ids, ticks + [t]);
            && LoadCursor(ids, y.rows, override, latest) <= LoadCursor(ids, y'.rows, override', latest')
            && y'.anchor == y.anchor
  {
    assert (ticks + [t])[..|ticks|] == ticks;
    var y := RunTicks(ids, ticks);
    RunOk(ids, ticks);
    if t.PollTick? && y.process.Some? {
      PollCovers(ids, y, t.latest, t.replies);
      MinRowWritten(ids, y.rows, t.effective, Poll(y.process.value.memory, t.latest, t.replies).memory.last);
    }
  }

  lemma RunTicksSnoc(ids: seq<string>, ticks: seq<Tick>, t: Tick)
    ensures RunTicks(ids, ticks + [t]) == StepTick(ids, RunTicks(ids, ticks), t)
    ensures TicksOk(ids, ticks + [t]) <==> TicksOk(ids, ticks) && TickOk(RunTicks(ids, ticks), t)
  {
  }
}
