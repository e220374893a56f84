// SorobanEventListenerService: one process's polling, as functions of what the
// RPC replies and which cursor writes take effect, and as the class itself.

module Indexer {
  import opened EscrowTypes
  import opened EventWire

  const PAGE_LIMIT: nat := 100
  const MAX_PAGES: nat := 50

  // The process's fields, and what it has handed to the parser so far.
  datatype Memory = Memory(last: int, seen: set<nat>, handed: seq<Raw>)

  function HandOne(m: Memory, e: Raw): Memory {
    if e.id in m.seen then m else m.(seen := m.seen + {e.id}, handed := m.handed + [e])
  }

  function Hand(m: Memory, events: seq<Raw>): Memory {
    if events == [] then m else HandOne(Hand(m, events[..|events| - 1]), events[|events| - 1])
  }

  // A getEvents reply: a page and whether it came with a cursor; or an error.
  datatype Reply = Page(events: seq<Raw>, more: bool) | Fault

  // The page that ends a poll: no cursor, or fewer events than asked for.
  predicate Final(r: Reply) {
    r.Page? && (!r.more || |r.events| < PAGE_LIMIT)
  }

  // How the page loop ends: a final page, the page cap, or an error.
  datatype Outcome = Drained(memory: Memory) | Capped(memory: Memory, seenUpTo: Option<nat>) | Failed(memory: Memory)

  function LastLedger(events: seq<Raw>, before: Option<nat>): Option<nat> {
    if events == [] then before else Some(events[|events| - 1].ledger)
  }

  function Fetch(m: Memory, replies: seq<Reply>, page: nat, seenUpTo: Option<nat>): Outcome
    decreases MAX_PAGES - page
  {
    if MAX_PAGES <= page then Capped(m, seenUpTo)
    else if |replies| <= page || replies[page].Fault? then Outcome.Failed(m)
    else
      var r := replies[page];
      var m' := Hand(m, r.events);
      if Final(r) then Drained(m') else Fetch(m', replies, page + 1, LastLedger(r.events, seenUpTo))
  }

  datatype Polled = Polled(memory: Memory, persists: bool)

  // Where the cursor goes once the pages have been fetched.
  function Conclude(latest: nat, o: Outcome): Polled {
    match o
    case Failed(m) => Polled(m, false)
    case Drained(m) => Polled(m.(last := latest), true)
    case Capped(m, seenUpTo) => Polled(if seenUpTo.Some? then m.(last := seenUpTo.value - 1) else m, true)
  }

  // A poll, up to the writing of the cursor. latest is None where the RPC fails.
  function Poll(m: Memory, latest: Option<nat>, replies: seq<Reply>): Polled {
    if latest.None? || latest.value < m.last + 1 then Polled(m, false)
    else Conclude(latest.value, Fetch(m, replies, 0, None))
  }

  // Cursor rows by contract id.
  type Rows = map<string, int>

  // The smallest row among those that exist.
  function MinRow(ids: seq<string>, rows: Rows): Option<int> {
    if ids == [] then None
    else
      var rest, id := MinRow(ids[..|ids| - 1], rows), ids[|ids| - 1];
      if id !in rows then rest
      else if rest.Some? && rest.value <= rows[id] then rest
      else Some(rows[id])
  }

  // Where a process starts: at the smallest row; without one at the override, if
  // set, or at the current tip.
  function LoadCursor(ids: seq<string>, rows: Rows, override: int, latest: nat): int {
    var min := MinRow(ids, rows);
    if ids == [] then 0 else if min.Some? then min.value else if 0 < override then override - 1 else latest
  }

  // The rows after writing those that take effect.
  function Written(ids: seq<string>, rows: Rows, effective: set<string>, ledger: int): Rows {
    if ids == [] then rows
    else
      var rest, id := Written(ids[..|ids| - 1], rows, effective, ledger), ids[|ids| - 1];
      if id in effective then rest[id := ledger] else rest
  }

  class EventListener {
    const contractIds: seq<string>
    var rows: Rows            // the cursor table
    var handed: seq<Raw>      // what the parser has been given
    var lastProcessedLedger: int
    var processedEventIds: set<nat>
    var isRunning: bool

    constructor (ids: seq<string>, table: Rows)
      ensures contractIds == ids && rows == table && !isRunning
      ensures State() == Memory(0, {}, [])
    {
      contractIds, rows, handed := ids, table, [];
      lastProcessedLedger, processedEventIds, isRunning := 0, {}, false;
    }

    function State(): Memory
      reads this
    {
      Memory(lastProcessedLedger, processedEventIds, handed)
    }

    method ReadCursor(override: int, latest: nat) returns (ledger: int)
      ensures ledger == LoadCursor(contractIds, rows, override, latest)
    {
      if |contractIds| == 0 {
        return 0;
      }
      var min: Option<int> := None;
      for i := 0 to |contractIds|
        invariant min == MinRow(contractIds[..i], rows)
      {
        var id := contractIds[i];
        assert contractIds[..i + 1][..i] == contractIds[..i];
        if id in rows && (min.None? || rows[id] < min.value) {
          min := Some(rows[id]);
        }
      }
      assert contractIds[..|contractIds|] == contractIds;
      if min.Some? {
        return min.value;
      }
      if 0 < override {
        return override - 1;
      }
      return latest;
    }

    // Each upsert may take effect or not.
    method PersistCursor(effective: set<string>)
      modifies this`rows
      ensures rows == Written(contractIds, old(rows), effective, lastProcessedLedger)
    {
      for i := 0 to |contractIds|
        invariant rows == Written(contractIds[..i], old(rows), effective, lastProcessedLedger)
      {
        assert contractIds[..i + 1][..i] == contractIds[..i];
        if contractIds[i] in effective {
          rows := rows[contractIds[i] := lastProcessedLedger];
        }
      }
      assert contractIds[..|contractIds|] == contractIds;
    }

    method StartListening(override: int, latest: nat)
      modifies this`isRunning, this`lastProcessedLedger
      ensures isRunning
      ensures State() == if old(isRunning) then old(State())
                         else old(State()).(last := LoadCursor(contractIds, rows, override, latest))
    {
      if isRunning {
        return;
      }
      isRunning := true;
      lastProcessedLedger := ReadCursor(override, latest);
    }

    method ProcessEvent(e: Raw)
      modifies this`handed
      ensures handed == old(handed) + [e]
    {
      handed := handed + [e];
    }

    method HandPage(events: seq<Raw>)
      modifies this`handed, this`processedEventIds
      ensures State() == Hand(old(State()), events)
    {
      for i := 0 to |events|
        invariant State() == Hand(old(State()), events[..i])
      {
        assert events[..i + 1][..i] == events[..i];
        if events[i].id !in processedEventIds {
          processedEventIds := processedEventIds + {events[i].id};
          ProcessEvent(events[i]);
        }
      }
      assert events[..|events|] == events;
    }

    // The page loop; not ok where the RPC fails.
    method FetchPages(replies: seq<Reply>) returns (ok: bool, drained: bool, lastEventLedgerSeen: Option<nat>)
      modifies this`handed, this`processedEventIds
      ensures Fetch(old(State()), replies, 0, None) ==
              if !ok then Outcome.Failed(State())
              else if drained then Drained(State()) else Capped(State(), lastEventLedgerSeen)
    {
      lastEventLedgerSeen := None;
      var page := 0;
      while page < MAX_PAGES
        invariant page <= MAX_PAGES
        invariant Fetch(old(State()), replies, 0, None) == Fetch(State(), replies, page, lastEventLedgerSeen)
      {
        if |replies| <= page || replies[page].Fault? {
          return false, false, lastEventLedgerSeen;
        }
        ghost var before, seenUpTo := State(), lastEventLedgerSeen;
        var events := replies[page].events;
        HandPage(events);
        if 0 < |events| {
          lastEventLedgerSeen := Some(events[|events| - 1].ledger);
        }
        assert Fetch(before, replies, page, seenUpTo) ==
               if Final(replies[page]) then Drained(State())
                   else Fetch(State(), replies, page + 1, lastEventLedgerSeen);
        if !replies[page].more || |events| < PAGE_LIMIT {
          return true, true, lastEventLedgerSeen;
        }
        page := page + 1;
      }
      return true, false, lastEventLedgerSeen;
    }

    // One poll. An RPC error at any point ends it without moving the cursor.
    method PollEvents(latest: Option<nat>, replies: seq<Reply>, effective: set<string>)
      modifies this`rows, this`handed, this`processedEventIds, this`lastProcessedLedger
      ensures var p := Poll(old(State()), latest, replies);
              if !isRunning || contractIds == [] then State() == old(State()) && rows == old(rows)
              else State() == p.memory &&
                   rows == if p.persists then Written(contractIds, old(rows), effective, p.memory.last) else old(rows)
    {
      if !isRunning || |contractIds| == 0 || latest.None? {
        return;
      }
      var startLedger := lastProcessedLedger + 1;
      if latest.value < startLedger {
        return;
      }
      var ok, drainedAllPages, lastEventLedgerSeen := FetchPages(replies);
      if !ok {
        return;
      }
      if drainedAllPages {
        lastProcessedLedger := latest.value;
      } else if lastEventLedgerSeen.Some? {
        var ledger: int := lastEventLedgerSeen.value;
        lastProcessedLedger := ledger - 1;
      }
      PersistCursor(effective);
    }
  }
}
