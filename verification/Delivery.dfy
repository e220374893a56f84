// From the chain to the database: an indexer that starts before the first event
// delivers the log gap-free and in order, replays included; what the database holds
// once it has caught up, and exactly when that agrees with the contract in full.

module Delivery {
  import opened EscrowTypes
  import opened Campaigns
  import opened Chain
  import opened EventWire
  import opened EventFold
  import opened Indexer
  import opened IndexerSafety
  import opened DbMirror
  import opened LogFold
  import opened Redelivery
  import Replay

  // First deliveries, in order.
  function FirstsOf(rs: seq<Raw>): seq<Raw> {
    if rs == [] then []
    else
      var init, last := FirstsOf(rs[..|rs| - 1]), rs[|rs| - 1];
      if Has(rs[..|rs| - 1], last.id) then init else init + [last]
  }

  lemma FirstsSnoc(rs: seq<Raw>, e: Raw)
    ensures FirstsOf(rs + [e]) == if Has(rs, e.id) then FirstsOf(rs) else FirstsOf(rs) + [e]
  {
  }

  lemma {:induction false} FirstsKeepIds(rs: seq<Raw>, id: nat)
    ensures Has(FirstsOf(rs), id) <==> Has(rs, id)
  {
    if rs != [] {
      var init, last := rs[..|rs| - 1], rs[|rs| - 1];
      assert rs == init + [last];
      FirstsKeepIds(init, id);
      HasSnoc(init, last, id);
      HasSnoc(FirstsOf(init), last, id);
    }
  }

  // What has been delivered is the first part of the chain, in its order.
  ghost predicate Front(chain: seq<Raw>, handed: seq<Raw>) {
    FirstsOf(handed) <= chain
  }

  // An event of the chain has been delivered exactly if it lies in the front.
  lemma {:induction false} InFront(chain: seq<Raw>, tip: nat, handed: seq<Raw>, k: nat)
    requires Ordered(chain, tip) && Front(chain, handed) && k < |chain|
    ensures Has(handed, chain[k].id) <==> k < |FirstsOf(handed)|
  {
    var firsts := FirstsOf(handed);
    FirstsKeepIds(handed, chain[k].id);
    if k < |firsts| {
      assert firsts[k] == chain[k];
    }
    if Has(firsts, chain[k].id) {
      var j :| 0 <= j < |firsts| && firsts[j].id == chain[k].id;
      assert firsts[j] == chain[j];
    }
  }

  lemma DeliveredInFront(chain: seq<Raw>, tip: nat, handed: seq<Raw>, k: nat)
    requires Ordered(chain, tip) && Front(chain, handed) && k < |chain| && chain[k] in handed
    ensures k < |FirstsOf(handed)|
  {
    var j :| 0 <= j < |handed| && handed[j] == chain[k];
    assert Has(handed, chain[k].id);
    InFront(chain, tip, handed, k);
  }

  // What the process remembers, with the front reaching at least up to k.
  ghost predicate FrontAt(chain: seq<Raw>, earlier: seq<Raw>, m: Memory, k: nat) {
    MemoryOk(m, chain) && Front(chain, earlier + m.handed) && k <= |FirstsOf(earlier + m.handed)|
  }

  lemma SeenIsDelivered(chain: seq<Raw>, earlier: seq<Raw>, m: Memory, id: nat)
    requires MemoryOk(m, chain) && id in m.seen
    ensures Has(earlier + m.handed, id)
  {
    var j :| 0 <= j < |m.handed| && m.handed[j].id == id;
    assert (earlier + m.handed)[|earlier| + j].id == id;
  }

  // Handing over the event at a position within or right after the front.
  lemma {:induction false} FrontGrows(chain: seq<Raw>, tip: nat, earlier: seq<Raw>, m: Memory, k: nat)
    requires Ordered(chain, tip) && FrontAt(chain, earlier, m, k) && k < |chain|
    ensures var handed := earlier + HandOne(m, chain[k]).handed;
            Front(chain, handed) && k < |FirstsOf(handed)|
  {
    var e, h := chain[k], earlier + m.handed;
    if e.id in m.seen {
      SeenIsDelivered(chain, earlier, m, e.id);
      InFront(chain, tip, h, k);
    } else {
      FrontSnoc(chain, tip, h, k);
      assert earlier + HandOne(m, e).handed == h + [e];
    }
  }

  lemma {:induction false} FrontSnoc(chain: seq<Raw>, tip: nat, handed: seq<Raw>, k: nat)
    requires Ordered(chain, tip) && Front(chain, handed) && k <= |FirstsOf(handed)| && k < |chain|
    ensures Front(chain, handed + [chain[k]]) && k < |FirstsOf(handed + [chain[k]])|
  {
    InFront(chain, tip, handed, k);
    FirstsSnoc(handed, chain[k]);
  }

  lemma FrontHandOne(chain: seq<Raw>, tip: nat, earlier: seq<Raw>, m: Memory, k: nat)
    requires Ordered(chain, tip) && FrontAt(chain, earlier, m, k) && k < |chain|
    ensures FrontAt(chain, earlier, HandOne(m, chain[k]), k + 1)
  {
    FrontGrows(chain, tip, earlier, m, k);
    HandOneOk(m, chain, tip, chain[k]);
  }

  lemma HandSlice(m: Memory, chain: seq<Raw>, pos: nat, n: nat)
    requires 0 < n && pos + n <= |chain|
    ensures Hand(m, chain[pos..pos + n]) == HandOne(Hand(m, chain[pos..pos + n - 1]), chain[pos + n - 1])
  {
    var events := chain[pos..pos + n];
    assert events[..n - 1] == chain[pos..pos + n - 1];
  }

  lemma {:induction false} FrontHandNext(chain: seq<Raw>, tip: nat, earlier: seq<Raw>, m: Memory, pos: nat, n: nat)
    requires Ordered(chain, tip) && 0 < n && pos + n <= |chain|
    requires FrontAt(chain, earlier, Hand(m, chain[pos..pos + n - 1]), pos + n - 1)
    ensures FrontAt(chain, earlier, Hand(m, chain[pos..pos + n]), pos + n)
  {
    HandSlice(m, chain, pos, n);
    FrontHandOne(chain, tip, earlier, Hand(m, chain[pos..pos + n - 1]), pos + n - 1);
  }

  lemma {:induction false} FrontHand(chain: seq<Raw>, tip: nat, earlier: seq<Raw>, m: Memory, pos: nat, n: nat)
    requires Ordered(chain, tip) && FrontAt(chain, earlier, m, pos) && pos + n <= |chain|
    ensures FrontAt(chain, earlier, Hand(m, chain[pos..pos + n]), pos + n)
    decreases n
  {
    if n == 0 {
      assert chain[pos..pos + n] == [];
    } else {
      FrontHand(chain, tip, earlier, m, pos, n - 1);
      FrontHandNext(chain, tip, earlier, m, pos, n);
    }
  }

  lemma {:induction false} FrontFetch(chain: seq<Raw>, tip: nat, latest: nat, earlier: seq<Raw>, m: Memory, pos: nat,
                                      replies: seq<Reply>, page: nat, seenUpTo: Option<nat>)
    requires Ordered(chain, tip) && FrontAt(chain, earlier, m, pos)
    requires RepliesOk(chain, latest, pos, replies, page) && page <= MAX_PAGES
    ensures Front(chain, earlier + Fetch(m, replies, page, seenUpTo).memory.handed)
    decreases MAX_PAGES - page
  {
    if page < MAX_PAGES && page < |replies| && replies[page].Page? {
      var r := replies[page];
      FrontHand(chain, tip, earlier, m, pos, |r.events|);
      if !Final(r) {
        FrontFetch(chain, tip, latest, earlier, Hand(m, r.events), pos + |r.events|, replies, page + 1,
                   LastLedger(r.events, seenUpTo));
      }
    }
  }

  // ------------------------------------------------------------ the whole system

  // Every start without a row begins below the chain's first event.
  ghost predicate EarlyStarts(ticks: seq<Tick>, base: int) {
    forall i :: 0 <= i < |ticks| && ticks[i].Boot? ==> 0 < ticks[i].override && ticks[i].override - 1 == base
  }

  ghost predicate Early(ids: seq<string>, y: System, base: int) {
    && (MinRow(ids, y.rows).Some? || y.process.Some? ==> Low(ids, y) == base)
    && Front(y.chain, y.Handed())
  }

  // The front reaches the position from which a poll fetches.
  lemma {:induction false} FrontReaches(ids: seq<string>, y: System, base: int)
    requires SystemOk(ids, y) && y.process.Some? && Early(ids, y, base)
    requires forall e :: e in y.chain ==> base < e.ledger
    ensures FrontAt(y.chain, y.earlier, y.process.value.memory, Before(y.chain, y.process.value.memory.last + 1))
  {
    var last := y.process.value.memory.last;
    var pos := Before(y.chain, last + 1);
    BeforeSplits(y.chain, last + 1, y.tip);
    if pos != 0 {
      assert y.chain[pos - 1] in y.chain && y.chain[pos - 1] in y.Handed();
      DeliveredInFront(y.chain, y.tip, y.Handed(), pos - 1);
    }
  }

  lemma EarlyPoll(ids: seq<string>, y: System, base: int, latest: Option<nat>, replies: seq<Reply>)
    requires SystemOk(ids, y) && y.process.Some? && Early(ids, y, base)
    requires PollValid(y.chain, y.tip, y.process.value.memory, latest, replies)
    requires forall e :: e in y.chain ==> base < e.ledger
    ensures Front(y.chain, y.earlier + Poll(y.process.value.memory, latest, replies).memory.handed)
  {
    var m := y.process.value.memory;
    if Polls(m, latest) {
      FrontReaches(ids, y, base);
      FrontFetch(y.chain, y.tip, latest.value, y.earlier, m, Before(y.chain, m.last + 1), replies, 0, None);
    }
  }

  // A shorter delivery has a shorter front.
  lemma {:induction false} FrontPrefix(chain: seq<Raw>, handed: seq<Raw>, n: nat)
    requires Front(chain, handed) && n <= |handed|
    ensures Front(chain, handed[..n])
    decreases |handed|
  {
    if n < |handed| {
      var init := handed[..|handed| - 1];
      assert handed[..n] == init[..n];
      FrontPrefix(chain, init, n);
    } else {
      assert handed[..n] == handed;
    }
  }

  // What holds of the system and its surroundings before each tick.
  ghost predicate EarlySystem(ids: seq<string>, y: System, base: int) {
    SystemOk(ids, y) && Early(ids, y, base) && forall e :: e in y.chain ==> base < e.ledger
  }

  lemma EarlyBoot(ids: seq<string>, y: System, override: int, sequence: nat, base: int)
    requires EarlySystem(ids, y, base) && ids != [] && 0 < override && override - 1 == base
    ensures Early(ids, StepTick(ids, y, Boot(override, sequence)), base)
  {
  }

  lemma EarlyPollTick(ids: seq<string>, y: System, latest: Option<nat>, replies: seq<Reply>, effective: set<string>,
                      base: int)
    requires EarlySystem(ids, y, base) && TickOk(y, PollTick(latest, replies, effective))
    ensures Early(ids, StepTick(ids, y, PollTick(latest, replies, effective)), base)
  {
    if y.process.Some? {
      EarlyPoll(ids, y, base, latest, replies);
      PollCovers(ids, y, latest, replies);
      MinRowWritten(ids, y.rows, effective, Poll(y.process.value.memory, latest, replies).memory.last);
    }
  }

  lemma CutShort(chain: seq<Raw>, earlier: seq<Raw>, handed: seq<Raw>, n: nat)
    requires Front(chain, earlier + handed) && n <= |handed|
    ensures Front(chain, earlier + handed[..n] + [])
  {
    FrontPrefix(chain, earlier + handed, |earlier| + n);
    assert (earlier + handed)[..|earlier| + n] == earlier + handed[..n] + [];
  }

  lemma EarlyTick(ids: seq<string>, y: System, t: Tick, base: int)
    requires EarlySystem(ids, y, base) && TickOk(y, t)
    requires ids != [] && (t.Boot? ==> 0 < t.override && t.override - 1 == base)
    ensures Early(ids, StepTick(ids, y, t), base)
  {
    match t {
      case Grow(events, _) => assert FirstsOf(y.Handed()) <= y.chain <= y.chain + events;
      case Boot(override, sequence) => EarlyBoot(ids, y, override, sequence, base);
      case PollTick(latest, replies, effective) => EarlyPollTick(ids, y, latest, replies, effective, base);
      case Crash => assert StepTick(ids, y, t).Handed() == y.Handed();
      case CrashInPoll(latest, replies, reached) =>
        if y.process.Some? {
          EarlyPoll(ids, y, base, latest, replies);
          CutShort(y.chain, y.earlier, Poll(y.process.value.memory, latest, replies).memory.handed, reached);
        }
    }
  }

  // The chain only grows.
  lemma ChainGrows(ids: seq<string>, y: System, t: Tick)
    ensures y.chain <= StepTick(ids, y, t).chain
  {
  }

  // An indexer whose start ledger lies at or below the first event delivers the
  // chain in order and without gaps: first deliveries are a prefix of the chain
  // that reaches at least as far as the cursor.
  lemma {:induction false} DeliversInOrder(ids: seq<string>, ticks: seq<Tick>, base: int)
    requires ids != [] && TicksOk(ids, ticks) && EarlyStarts(ticks, base)
    requires forall e :: e in RunTicks(ids, ticks).chain ==> base < e.ledger
    ensures Early(ids, RunTicks(ids, ticks), base)
  {
    if ticks == [] {
      MinRowSpec(ids, map[]);
    } else {
      var init, t := ticks[..|ticks| - 1], ticks[|ticks| - 1];
      var y := RunTicks(ids, init);
      ChainGrows(ids, y, t);
      PrefixIn(y.chain, RunTicks(ids, ticks).chain);
      assert forall i :: 0 <= i < |init| ==> init[i] == ticks[i];
      DeliversInOrder(ids, init, base);
      RunOk(ids, init);
      EarlyTick(ids, y, t, base);
    }
  }

  // ------------------------------------------------------------ database and contract

  // A raw event that parses under its own id.
  ghost predicate Parses(r: Raw) {
    ParseEvent(r).Parsed? && ParseEvent(r).event.id == r.id
  }

  lemma {:induction false} ParsedAt(rs: seq<Raw>)
    requires forall r :: r in rs ==> Parses(r)
    ensures |Replay.ParsedOf(rs)| == |rs|
    ensures forall i :: 0 <= i < |rs| ==> Replay.ParsedOf(rs)[i].id == rs[i].id
  {
    if rs != [] {
      assert rs == rs[..|rs| - 1] + [rs[|rs| - 1]];
      assert Parses(rs[|rs| - 1]);
      ParsedAt(rs[..|rs| - 1]);
    }
  }

  // Taking first deliveries commutes with parsing.
  lemma {:induction false} FirstsOfParsed(rs: seq<Raw>)
    requires forall r :: r in rs ==> Parses(r)
    ensures Replay.Firsts(Replay.ParsedOf(rs)) == Replay.ParsedOf(FirstsOf(rs))
  {
    if rs != [] {
      var init, last := rs[..|rs| - 1], rs[|rs| - 1];
      assert rs == init + [last];
      FirstsOfParsed(init);
      assert Parses(last);
      var p := ParseEvent(last).event;
      Replay.FirstsSnoc(Replay.ParsedOf(init), p);
      SameDeliveries(init, p.id);
      var firsts := FirstsOf(init);
      assert (firsts + [last])[..|firsts|] == firsts;
    }
  }

  lemma SameDeliveries(rs: seq<Raw>, id: nat)
    requires forall r :: r in rs ==> Parses(r)
    ensures Replay.Delivered(Replay.ParsedOf(rs), id) <==> Has(rs, id)
  {
    ParsedAt(rs);
    var ps := Replay.ParsedOf(rs);
    if Has(rs, id) {
      var k :| 0 <= k < |rs| && rs[k].id == id;
      assert ps[k].id == id;
    }
    if Replay.Delivered(ps, id) {
      var k :| 0 <= k < |ps| && ps[k].id == id;
      assert rs[k].id == id;
    }
  }

  lemma {:induction false} WireAt(log: seq<LogEntry>, shapes: nat -> Shape)
    ensures |Wire(log, shapes)| == |log|
    ensures forall i :: 0 <= i < |log| ==> Wire(log, shapes)[i] == Publish(log[i], shapes(log[i].id))
  {
    if log != [] {
      WireAt(log[..|log| - 1], shapes);
    }
  }

  // The contract's log, as the RPC serves it, is a chain as the indexer assumes.
  lemma WireOrdered(acts: seq<Act>, shapes: nat -> Shape)
    ensures var w := Run(Genesis(), acts); Ordered(Wire(w.log, shapes), w.ledger)
  {
    var log := Run(Genesis(), acts).log;
    WireAt(log, shapes);
    RunOrderly(acts);
    RunInLedgerOrder(acts);
  }

  lemma WirePrefix(log: seq<LogEntry>, shapes: nat -> Shape, n: nat)
    requires n <= |log|
    ensures |Wire(log, shapes)| == |log| && Wire(log, shapes)[..n] == Wire(log[..n], shapes)
  {
    WireAt(log, shapes);
    WireAt(log[..n], shapes);
  }

  lemma WireParses(log: seq<LogEntry>, shapes: nat -> Shape, r: Raw)
    requires r in Wire(log, shapes)
    ensures Parses(r)
  {
    WireAt(log, shapes);
    var i :| 0 <= i < |log| && Wire(log, shapes)[i] == r;
    WireRoundTrip(log[i], shapes(log[i].id));
  }

  ghost predicate FromWire(log: seq<LogEntry>, shapes: nat -> Shape, rs: seq<Raw>) {
    forall r :: r in rs ==> r in Wire(log, shapes)
  }

  lemma {:induction false} ParsedFromWire(log: seq<LogEntry>, shapes: nat -> Shape, rs: seq<Raw>)
    requires Orderly(log) && FromWire(log, shapes, rs)
    ensures forall p :: p in Replay.ParsedOf(rs) ==> p.id < |log| && p == Read(log[p.id])
  {
    if rs != [] {
      var init, last := rs[..|rs| - 1], rs[|rs| - 1];
      assert rs == init + [last];
      ParsedFromWire(log, shapes, init);
      assert last in rs;
      OneFromWire(log, shapes, last);
    }
  }

  lemma {:induction false} OneFromWire(log: seq<LogEntry>, shapes: nat -> Shape, r: Raw)
    requires Orderly(log) && r in Wire(log, shapes)
    ensures ParseEvent(r).Parsed? && ParseEvent(r).event.id == r.id < |log| && ParseEvent(r).event == Read(log[r.id])
  {
    WireAt(log, shapes);
    var i :| 0 <= i < |log| && Wire(log, shapes)[i] == r;
    WireRoundTrip(log[i], shapes(log[i].id));
  }

  lemma {:induction false} SameIds(log: seq<LogEntry>, events: seq<ParsedEvent>)
    requires forall p :: p in events ==> p.id < |log| && p == Read(log[p.id])
    ensures Replay.SameIdSameEvent(events)
  {
    forall i, j | 0 <= i < |events| && 0 <= j < |events| && events[i].id == events[j].id
      ensures events[i] == events[j]
    {
      assert events[i] in events && events[j] in events;
    }
  }

  lemma {:induction false} FrontIsRead(log: seq<LogEntry>, shapes: nat -> Shape, handed: seq<Raw>, n: nat)
    requires n <= |log| == |Wire(log, shapes)| && FirstsOf(handed) == Wire(log, shapes)[..n]
    requires forall r :: r in handed ==> Parses(r)
    ensures Replay.Firsts(Replay.ParsedOf(handed)) == ReadAll(log[..n])
  {
    FirstsOfParsed(handed);
    WirePrefix(log, shapes, n);
    WireIsRead(log[..n], shapes);
  }

  // Hand-overs from the wire whose front is a prefix of it are deliveries of that
  // prefix of the log.
  lemma {:induction false} HandedDelivers(log: seq<LogEntry>, shapes: nat -> Shape, handed: seq<Raw>, n: nat)
    requires Orderly(log) && n <= |log| == |Wire(log, shapes)| && FirstsOf(handed) == Wire(log, shapes)[..n]
    requires FromWire(log, shapes, handed)
    ensures Delivers(Replay.ParsedOf(handed), log[..n])
  {
    forall r | r in handed ensures Parses(r) { WireParses(log, shapes, r); }
    FrontIsRead(log, shapes, handed, n);
    ParsedFromWire(log, shapes, handed);
    SameIds(log, Replay.ParsedOf(handed));
    OrderlyPrefix(log, n);
  }

  // The indexer watches the log of this run of the contract.
  ghost predicate Watches(acts: seq<Act>, shapes: nat -> Shape, ids: seq<string>, ticks: seq<Tick>, base: int) {
    && ids != [] && TicksOk(ids, ticks) && EarlyStarts(ticks, base)
    && RunTicks(ids, ticks).chain == Wire(Run(Genesis(), acts).log, shapes)
    && forall e :: e in RunTicks(ids, ticks).chain ==> base < e.ledger
  }

  // Every run whose events lie in ledgers from 1 on can be watched from its start.
  lemma RunsCanBeWatched(acts: seq<Act>, shapes: nat -> Shape, id: string)
    requires forall e :: e in Run(Genesis(), acts).log ==> 0 < e.ledger
    ensures var w := Run(Genesis(), acts);
            Watches(acts, shapes, [id], [Grow(Wire(w.log, shapes), w.ledger)], 0)
  {
    var w := Run(Genesis(), acts);
    var chain := Wire(w.log, shapes);
    WireOrdered(acts, shapes);
    WireLedgers(w.log, shapes);
    GrowAtOnce([id], chain, w.ledger);
  }

  lemma WireLedgers(log: seq<LogEntry>, shapes: nat -> Shape)
    requires forall e :: e in log ==> 0 < e.ledger
    ensures forall r :: r in Wire(log, shapes) ==> 0 < r.ledger
  {
    WireAt(log, shapes);
    forall r | r in Wire(log, shapes) ensures 0 < r.ledger {
      var i :| 0 <= i < |log| && Wire(log, shapes)[i] == r;
      assert log[i] in log;
    }
  }

  lemma GrowAtOnce(ids: seq<string>, chain: seq<Raw>, tip: nat)
    requires Ordered(chain, tip) && forall e :: e in chain ==> 0 < e.ledger
    ensures TicksOk(ids, [Grow(chain, tip)]) && RunTicks(ids, [Grow(chain, tip)]).chain == chain
  {
    RunTicksSnoc(ids, [], Grow(chain, tip));
    assert [] + [Grow(chain, tip)] == [Grow(chain, tip)];
    assert [] + chain == chain;
  }

  // Hand-overs paired with the answers of the database.
  function Handoffs(handed: seq<Raw>, answers: seq<bool>): seq<Handoff>
    requires |answers| == |handed|
  {
    if handed == [] then []
    else Handoffs(handed[..|handed| - 1], answers[..|answers| - 1])
         + [Handoff(handed[|handed| - 1], answers[|answers| - 1])]
  }

  ghost predicate AllAnswered(answers: seq<bool>) {
    forall i :: 0 <= i < |answers| ==> answers[i]
  }

  lemma {:induction false} AnsweredAll(handed: seq<Raw>, answers: seq<bool>)
    requires |answers| == |handed| && AllAnswered(answers)
    ensures Answered(Handoffs(handed, answers)) == handed
  {
    if handed != [] {
      var n := |handed| - 1;
      AnsweredAll(handed[..n], answers[..n]);
      var init := Handoffs(handed[..n], answers[..n]);
      assert (init + [Handoff(handed[n], answers[n])])[..|init|] == init;
    }
  }

  // The service after the indexer's hand-overs.
  function Served(y: System, answers: seq<bool>): Service
    requires |answers| == |y.Handed()|
  {
    ReceiveAll(Service(EmptyDb(), []), Handoffs(y.Handed(), answers))
  }

  // While the database is up: the hand-overs are deliveries of a prefix of the
  // contract's log, whatever polls, RPC errors, crashes and restarts came before.
  lemma {:induction false} ServedFollows(acts: seq<Act>, shapes: nat -> Shape, ids: seq<string>, ticks: seq<Tick>,
                                         base: int, answers: seq<bool>)
    returns (n: nat)
    requires Watches(acts, shapes, ids, ticks, base)
    requires |answers| == |RunTicks(ids, ticks).Handed()| && AllAnswered(answers)
    ensures var y, log := RunTicks(ids, ticks), Run(Genesis(), acts).log;
            && n == |FirstsOf(y.Handed())| <= |log| && Delivers(Replay.ParsedOf(y.Handed()), log[..n])
            && Served(y, answers) == Replay.After(Replay.ParsedOf(y.Handed()))
  {
    var y, log := RunTicks(ids, ticks), Run(Genesis(), acts).log;
    n := |FirstsOf(y.Handed())|;
    DeliversInOrder(ids, ticks, base);
    RunOk(ids, ticks);
    RunOrderly(acts);
    WireAt(log, shapes);
    HandedDelivers(log, shapes, y.Handed(), n);
    ReceivesAnswered(Service(EmptyDb(), []), Handoffs(y.Handed(), answers));
    AnsweredAll(y.Handed(), answers);
    Replay.ProcessAllIsAfter(y.Handed());
  }

  // So, of that prefix, every deposit is an investment, the users are the addresses
  // named, all rows are right up to status, outcome and returnable, and all events
  // are stored and broadcast in order exactly if they are keyed; then nothing tells
  // the database from that of the prefix processed once.
  lemma {:induction false} DatabaseFollowsLog(acts: seq<Act>, shapes: nat -> Shape, ids: seq<string>, ticks: seq<Tick>,
                                              base: int, answers: seq<bool>)
    returns (n: nat)
    requires Watches(acts, shapes, ids, ticks, base)
    requires |answers| == |RunTicks(ids, ticks).Handed()| && AllAnswered(answers)
    ensures var y, log := RunTicks(ids, ticks), Run(Genesis(), acts).log;
            var s := Served(y, answers);
            && n == |FirstsOf(y.Handed())| <= |log|
            && s.db.investments == Invested(log[..n]) && s.db.users == Seen(log[..n]) && AllColumnsHold(s, log[..n])
            && (s.broadcasts == ReadAll(log[..n]) <==> AllKeyed(log[..n]))
            && (AllKeyed(log[..n]) ==> s == ProcessAll(Service(EmptyDb(), []), Wire(log[..n], shapes)))
  {
    var y, log := RunTicks(ids, ticks), Run(Genesis(), acts).log;
    n := ServedFollows(acts, shapes, ids, ticks, base, answers);
    var events := Replay.ParsedOf(y.Handed());
    DeliveriesKeep(events, log[..n]);
    AllBroadcastIff(events, log[..n]);
    if AllKeyed(log[..n]) {
      ReplayOfLog(events, log[..n]);
      Replay.ProcessAllIsAfter(Wire(log[..n], shapes));
      WireIsRead(log[..n], shapes);
    }
  }

  // At no time was the service different from what the part of the log that had
  // come by then leaves.
  ghost predicate AlwaysFollowed(handed: seq<Raw>, log: seq<LogEntry>, shapes: nat -> Shape) {
    forall m :: 0 <= m <= |handed| ==> FollowedAt(handed, log, shapes, m)
  }

  ghost predicate FollowedAt(handed: seq<Raw>, log: seq<LogEntry>, shapes: nat -> Shape, m: nat)
    requires m <= |handed|
  {
    var n := |FirstsOf(handed[..m])|;
    n <= |log| && ProcessAll(Service(EmptyDb(), []), handed[..m])
        == ProcessAll(Service(EmptyDb(), []), Wire(log[..n], shapes))
  }

  // While the database is up, that is so exactly if no repeated hand-over does harm;
  // none does where every event is keyed.
  lemma {:induction false} FollowsAlwaysIff(acts: seq<Act>, shapes: nat -> Shape, ids: seq<string>, ticks: seq<Tick>,
                                            base: int)
    requires Watches(acts, shapes, ids, ticks, base)
    ensures var handed, log := RunTicks(ids, ticks).Handed(), Run(Genesis(), acts).log;
            && (AlwaysFollowed(handed, log, shapes) <==> NoneHarmful(Replay.ParsedOf(handed)))
            && (AllKeyed(log) ==> AlwaysFollowed(handed, log, shapes))
  {
    var handed, log := RunTicks(ids, ticks).Handed(), Run(Genesis(), acts).log;
    var events := Replay.ParsedOf(handed);
    var answers := seq(|handed|, _ => true);
    var n := ServedFollows(acts, shapes, ids, ticks, base, answers);
    SteadyIffHarmless(events, log[..n]);
    if AllKeyed(log) {
      AllKeyedPrefix(log, n);
      KeyedIsHarmless(events, log[..n]);
    }
    RunOk(ids, ticks);
    RunOrderly(acts);
    DeliversInOrder(ids, ticks, base);
    AlwaysIffSteady(log, shapes, handed);
  }

  lemma {:induction false} AlwaysIffSteady(log: seq<LogEntry>, shapes: nat -> Shape, handed: seq<Raw>)
    requires Orderly(log) && FromWire(log, shapes, handed) && FirstsOf(handed) <= Wire(log, shapes)
    ensures AlwaysFollowed(handed, log, shapes) <==> Replay.Steady(Replay.ParsedOf(handed))
  {
    var events := Replay.ParsedOf(handed);
    forall r | r in handed ensures Parses(r) { WireParses(log, shapes, r); }
    ParsedAt(handed);
    forall m | 0 <= m <= |handed|
      ensures FollowedAt(handed, log, shapes, m) <==> Replay.Unseen(events[..m])
    {
      FollowedIff(log, shapes, handed, m);
    }
  }

  lemma {:induction false} FollowedIff(log: seq<LogEntry>, shapes: nat -> Shape, handed: seq<Raw>, m: nat)
    requires Orderly(log) && FromWire(log, shapes, handed) && FirstsOf(handed) <= Wire(log, shapes) && m <= |handed|
    ensures var events := Replay.ParsedOf(handed);
            m <= |events| && (FollowedAt(handed, log, shapes, m) <==> Replay.Unseen(events[..m]))
  {
    forall r | r in handed ensures Parses(r) { WireParses(log, shapes, r); }
    ParsedAt(handed);
    ParsedPrefix(handed, m);
    FirstsPrefix(handed, m);
    WireAt(log, shapes);
    var n := |FirstsOf(handed[..m])|;
    FrontIsRead(log, shapes, handed[..m], n);
    Replay.ProcessAllIsAfter(handed[..m]);
    Replay.ProcessAllIsAfter(Wire(log[..n], shapes));
    WireIsRead(log[..n], shapes);
  }

  lemma {:induction false} ParsedPrefix(rs: seq<Raw>, m: nat)
    requires m <= |rs| && forall r :: r in rs ==> Parses(r)
    ensures m <= |Replay.ParsedOf(rs)| && Replay.ParsedOf(rs)[..m] == Replay.ParsedOf(rs[..m])
  {
    ParsedAt(rs);
    if m < |rs| {
      var init := rs[..|rs| - 1];
      assert rs == init + [rs[|rs| - 1]];
      assert Parses(rs[|rs| - 1]);
      ParsedAt(init);
      ParsedPrefix(init, m);
      assert init[..m] == rs[..m];
      assert Replay.ParsedOf(rs)[..m] == Replay.ParsedOf(init)[..m];
    } else {
      assert rs[..m] == rs;
    }
  }

  lemma {:induction false} FirstsPrefix(rs: seq<Raw>, m: nat)
    requires m <= |rs|
    ensures FirstsOf(rs[..m]) <= FirstsOf(rs)
  {
    if m < |rs| {
      FirstsPrefix(rs[..|rs| - 1], m);
      assert rs[..|rs| - 1][..m] == rs[..m];
    } else {
      assert rs[..m] == rs;
    }
  }

  // The database and the contract after this run agree in everything that does not
  // depend on harvest reports and settlements: every deposit is an investment, and
  // the campaign table holds exactly the contract's campaigns, right in farmer,
  // target, total_funded and refundable.
  ghost predicate InPart(s: Service, w: State) {
    && s.db.investments == Invested(w.log)
    && forall id: nat ::
         if id in w.cells
         then AgreesInPart(RowOf(s.db, Decimal(id)), w.cells[id].campaign, Overcount(Project(w.log, id)))
         else RowOf(s.db, Decimal(id)).None?
  }

  // They agree in full: every event stored and broadcast once, in order, and every
  // campaign in the table as it is stored on chain.
  ghost predicate InStep(s: Service, w: State) {
    s.broadcasts == ReadAll(w.log) && s.db.investments == Invested(w.log) && TableAgrees(s.db, w)
  }

  lemma {:induction false} AllInFront(acts: seq<Act>, shapes: nat -> Shape, ids: seq<string>, ticks: seq<Tick>,
                                      base: int)
    requires Watches(acts, shapes, ids, ticks, base)
    requires forall e :: e in RunTicks(ids, ticks).chain ==> e in RunTicks(ids, ticks).Handed()
    ensures |FirstsOf(RunTicks(ids, ticks).Handed())| == |Run(Genesis(), acts).log|
  {
    var y, log := RunTicks(ids, ticks), Run(Genesis(), acts).log;
    RunOk(ids, ticks);
    DeliversInOrder(ids, ticks, base);
    WireAt(log, shapes);
    if log != [] {
      assert y.chain[|log| - 1] in y.chain;
      DeliveredInFront(y.chain, y.tip, y.Handed(), |log| - 1);
    }
  }

  // Once everything on the chain has been handed over, they agree in part, and in
  // full exactly if every harvest report and settlement names an address that an
  // earlier event made a user.
  lemma {:induction false} DatabaseComplete(acts: seq<Act>, shapes: nat -> Shape, ids: seq<string>, ticks: seq<Tick>,
                                            base: int, answers: seq<bool>)
    requires Watches(acts, shapes, ids, ticks, base)
    requires |answers| == |RunTicks(ids, ticks).Handed()| && AllAnswered(answers)
    requires forall e :: e in RunTicks(ids, ticks).chain ==> e in RunTicks(ids, ticks).Handed()
    ensures var w, s := Run(Genesis(), acts), Served(RunTicks(ids, ticks), answers);
            InPart(s, w) && (InStep(s, w) <==> AllKeyed(w.log))
  {
    var y, log := RunTicks(ids, ticks), Run(Genesis(), acts).log;
    var n := DatabaseFollowsLog(acts, shapes, ids, ticks, base, answers);
    AllInFront(acts, shapes, ids, ticks, base);
    assert log[..n] == log;
    ColumnsAgree(acts, Served(y, answers));
    TableMirrorsEscrow(acts, shapes);
  }

  lemma {:induction false} ColumnsAgree(acts: seq<Act>, s: Service)
    requires AllColumnsHold(s, Run(Genesis(), acts).log) && s.db.investments == Invested(Run(Genesis(), acts).log)
    ensures InPart(s, Run(Genesis(), acts))
  {
    var w := Run(Genesis(), acts);
    NoStrayEvents(acts);
    forall id: nat
      ensures if id in w.cells
              then AgreesInPart(RowOf(s.db, Decimal(id)), w.cells[id].campaign, Overcount(Project(w.log, id)))
              else RowOf(s.db, Decimal(id)).None?
    {
      assert ColumnsHold(s, w.log, id);
      if id in w.cells {
        var b, tries := Decompose(acts, id);
        LivedRowMatches(b, tries);
      }
    }
  }

  // Which is so once a cursor row has passed the last event.
  lemma {:induction false} DatabaseCatchesUp(acts: seq<Act>, shapes: nat -> Shape, ids: seq<string>, ticks: seq<Tick>,
                                             base: int, answers: seq<bool>)
    requires Watches(acts, shapes, ids, ticks, base) && MinRow(ids, RunTicks(ids, ticks).rows).Some?
    requires |answers| == |RunTicks(ids, ticks).Handed()| && AllAnswered(answers)
    requires forall e :: e in RunTicks(ids, ticks).chain ==> e.ledger <= MinRow(ids, RunTicks(ids, ticks).rows).value
    ensures var w, s := Run(Genesis(), acts), Served(RunTicks(ids, ticks), answers);
            InPart(s, w) && (InStep(s, w) <==> AllKeyed(w.log))
  {
    RunOk(ids, ticks);
    DeliversInOrder(ids, ticks, base);
    CoveredIsHanded(RunTicks(ids, ticks), base, MinRow(ids, RunTicks(ids, ticks).rows).value);
    DatabaseComplete(acts, shapes, ids, ticks, base, answers);
  }

  lemma CoveredIsHanded(y: System, low: int, high: int)
    requires Covered(y.chain, y.Handed(), low, high)
    requires forall e :: e in y.chain ==> low < e.ledger <= high
    ensures forall e :: e in y.chain ==> e in y.Handed()
  {
    forall e | e in y.chain ensures e in y.Handed() {
      var i :| 0 <= i < |y.chain| && y.chain[i] == e;
    }
  }

  // ------------------------------------------------------------ liveness

  // Polls of one process against a chain that does not grow, the cursor writes
  // taking effect or not.
  function PollTicks(tip: nat, polls: seq<seq<Reply>>, effective: seq<set<string>>): seq<Tick>
    requires |effective| == |polls|
  {
    if polls == [] then []
    else PollTicks(tip, polls[..|polls| - 1], effective[..|polls| - 1])
         + [PollTick(Some(tip), polls[|polls| - 1], effective[|polls| - 1])]
  }

  lemma {:induction false} PollTicksRun(ids: seq<string>, ticks: seq<Tick>, tip: nat, polls: seq<seq<Reply>>,
                                        effective: seq<set<string>>)
    requires |effective| == |polls| && TicksOk(ids, ticks) && RunTicks(ids, ticks).process.Some?
    requires var y := RunTicks(ids, ticks); tip == y.tip && PollsValid(y.process.value.memory, y.chain, tip, polls)
    ensures var y, more := RunTicks(ids, ticks), PollTicks(tip, polls, effective);
            var y' := RunTicks(ids, ticks + more);
            && TicksOk(ids, ticks + more) && y'.chain == y.chain && y'.tip == y.tip && y'.process.Some?
            && y'.process.value.memory == PollAll(y.process.value.memory, tip, polls)
            && forall i :: 0 <= i < |more| ==> !more[i].Boot?
    decreases |polls|
  {
    if polls == [] {
      assert ticks + [] == ticks;
    } else {
      var n := |polls| - 1;
      var more := PollTicks(tip, polls[..n], effective[..n]);
      var t := PollTick(Some(tip), polls[n], effective[n]);
      PollTicksRun(ids, ticks, tip, polls[..n], effective[..n]);
      RunTicksSnoc(ids, ticks + more, t);
      assert ticks + (more + [t]) == ticks + more + [t];
    }
  }

  // From any state of a watching indexer with a running process, if no ledger
  // holds 5000 events: as many error-free polls as there are ledgers left bring the
  // database into agreement with the contract.
  lemma {:induction false} DatabaseWillAgree(acts: seq<Act>, shapes: nat -> Shape, ids: seq<string>, ticks: seq<Tick>,
                                             base: int,
                          polls: seq<seq<Reply>>, effective: seq<set<string>>, answers: seq<bool>)
    requires Watches(acts, shapes, ids, ticks, base) && RunTicks(ids, ticks).process.Some? && |effective| == |polls|
    requires var y := RunTicks(ids, ticks);
             && PollsValid(y.process.value.memory, y.chain, y.tip, polls)
             && y.tip <= y.process.value.memory.last + |polls|
             && forall ledger: int :: !Crowded(y.chain, ledger)
    requires var y := RunTicks(ids, ticks);
             |answers| == |RunTicks(ids, ticks + PollTicks(y.tip, polls, effective)).Handed()| && AllAnswered(answers)
    ensures var y, w := RunTicks(ids, ticks), Run(Genesis(), acts);
            var s := Served(RunTicks(ids, ticks + PollTicks(y.tip, polls, effective)), answers);
            InPart(s, w) && (InStep(s, w) <==> AllKeyed(w.log))
  {
    var y := RunTicks(ids, ticks);
    var all := ticks + PollTicks(y.tip, polls, effective);
    RunOk(ids, ticks);
    PollTicksRun(ids, ticks, y.tip, polls, effective);
    PollsReachTip(y.process.value.memory, y.chain, y.tip, polls);
    RunOk(ids, all);
    StillWatches(acts, shapes, ids, ticks, PollTicks(y.tip, polls, effective), base);
    DeliversInOrder(ids, all, base);
    var y' := RunTicks(ids, all);
    CoveredLess(y'.chain, y'.Handed(), base, y.tip, y'.process.value.memory.last);
    TipIsHanded(y', base);
    DatabaseComplete(acts, shapes, ids, all, base, answers);
  }

  lemma TipIsHanded(y: System, base: int)
    requires Ordered(y.chain, y.tip) && Covered(y.chain, y.Handed(), base, y.tip)
    requires forall e :: e in y.chain ==> base < e.ledger
    ensures forall e :: e in y.chain ==> e in y.Handed()
  {
    forall e | e in y.chain ensures e.ledger <= y.tip {
      var i :| 0 <= i < |y.chain| && y.chain[i] == e;
    }
    CoveredIsHanded(y, base, y.tip);
  }

  lemma StillWatches(acts: seq<Act>, shapes: nat -> Shape, ids: seq<string>, ticks: seq<Tick>, more: seq<Tick>,
                     base: int)
    requires Watches(acts, shapes, ids, ticks, base) && TicksOk(ids, ticks + more)
    requires RunTicks(ids, ticks + more).chain == RunTicks(ids, ticks).chain
    requires forall i :: 0 <= i < |more| ==> !more[i].Boot?
    ensures Watches(acts, shapes, ids, ticks + more, base)
  {
    forall i | 0 <= i < |ticks + more| && (ticks + more)[i].Boot?
      ensures 0 < (ticks + more)[i].override && (ticks + more)[i].override - 1 == base
    {
      assert i < |ticks|;
      assert (ticks + more)[i] == ticks[i];
    }
  }
}
