// What each call leaves in a campaign's entries and in the log: which fields it writes,
// what its events say about them, and what the entries and events of a whole life say
// about each other.

module Effects {
  import opened EscrowTypes
  import opened Campaigns
  import opened Accounting
  import opened Lifecycle
  import opened Chain
  import opened Solvency

  // ------------------------------------------------------------ one step

  // The calls that write each of the entries. Everything else about a campaign is fixed
  // when it is created.
  lemma {:induction false} StepWrites(c: Cell, e: Env, op: Op)
    requires Attempt(c, e, op).Some?
    ensures var c' := Attempt(c, e, op).value.cell;
            var k, k' := c.campaign, c'.campaign;
            && k' == k.(totalFunded := k'.totalFunded, released := k'.released, refundable := k'.refundable,
                        returnable := k'.returnable, status := k'.status)
            && (k'.totalFunded != k.totalFunded ==> op.Fund? || op.Receive?)
            && (k'.released != k.released ==> op.Release? || op.Resolve? || op.Settle?)
            && (k'.refundable != k.refundable ==> op.Resolve? || op.MarkFailed? || op.Expire?)
            && (k'.returnable != k.returnable ==> op.Settle?)
            && (c'.tranches != c.tranches ==> op.Configure? || op.Release?)
            && (c'.harvest != c.harvest ==> op.Harvest?)
            && (c'.dispute != c.dispute ==> op.Dispute? || op.Resolve?)
            && (forall a :: c'.Slot(a) != c.Slot(a) ==>
                  (op.Fund? || op.Receive? || op.ClaimRefund? || op.ClaimReturn?) && a == op.investor)
  {
  }

  // The event that reports a call, in terms of its arguments and of what it leaves.
  function Report(op: Op, e: Env, c: Cell, c': Cell): Event {
    var k, k' := c.campaign, c'.campaign;
    match op
    case Fund(investor, amount) => ContribReceived(investor, e.now, amount)
    case Receive(investor, amount) => ContribReconciled(investor, e.now, amount)
    case Complete(_) => CampaignFunded(e.now, k'.totalFunded)
    case Configure(_) => TranchesConfigured(e.now, |c'.tranches|)
    case Release(recipient, _) => TrancheReleased(recipient, e.now, k'.released - k.released)
    case Harvest(farmer, outcome) => HarvestReported(farmer, outcome, e.now)
    case Dispute(opener, reason) => DisputeOpened(opener, reason, e.now, e.ledger)
    case Resolve(resolution, _) =>
      DisputeResolved(if e.admin.Some? then e.admin.value else "", resolution, k'.released - k.released,
                      k'.refundable - k.refundable, e.now, e.ledger)
    case ClaimRefund(investor) => RefundClaimed(investor, e.now, ShareBefore(c, investor))
    case ClaimReturn(investor) => ReturnClaimed(investor, e.now, ShareBefore(c, investor))
    case Settle(payee, _) => CampaignSettled(payee, e.now, k'.released - k.released, k'.returnable - k.returnable)
    case MarkFailed => CampaignFailed(e.now, k'.refundable)
    case Expire => CampaignFailed(e.now, k'.refundable)
  }

  function ShareBefore(c: Cell, a: Address): int {
    if c.campaign.totalFunded == 0 then 0 else c.Slot(a) * Pool(c.campaign) / c.campaign.totalFunded
  }

  // A step emits that event, and before it CampaignFunded if it is a deposit that makes
  // the campaign Funded.
  lemma {:induction false} StepReports(c: Cell, e: Env, op: Op)
    requires Sound(c) && Attempt(c, e, op).Some?
    ensures var x := Attempt(c, e, op).value;
            x.events == (if op.Fund? && x.cell.campaign.status.Funded?
                         then [CampaignFunded(e.now, x.cell.campaign.totalFunded)] else [])
                        + [Report(op, e, c, x.cell)]
  {
    if (op.ClaimRefund? || op.ClaimReturn?) && c.campaign.totalFunded != 0 {
      ShareFloors(c, op.investor);
    }
  }

  lemma {:induction false} ShareFloors(c: Cell, a: Address)
    requires Sound(c) && c.campaign.totalFunded != 0
    ensures TruncDiv(c.Slot(a) * Pool(c.campaign), c.campaign.totalFunded) == ShareBefore(c, a)
  {
    ShareNonNegative(c.Slot(a), Pool(c.campaign), c.campaign.totalFunded);
    if c.Slot(a) * Pool(c.campaign) < 0 {
      ProductNonNegative(c.Slot(a), Pool(c.campaign));
    }
  }

  lemma ProductNonNegative(x: int, y: int)
    requires 0 <= x && 0 <= y
    ensures 0 <= x * y
  {
  }

  // ------------------------------------------------------------ one life

  // What the events say was booked out, set aside for refunds, and set aside for returns.
  function BookedOut(e: Event): int {
    match e
    case TrancheReleased(_, _, amount) => amount
    case DisputeResolved(_, _, payout, _, _, _) => payout
    case CampaignSettled(_, _, payout, _) => payout
    case _ => 0
  }

  function ForRefunds(e: Event): int {
    match e
    case DisputeResolved(_, _, _, refund, _, _) => refund
    case CampaignFailed(_, refundable) => refundable
    case _ => 0
  }

  function ForReturns(e: Event): int {
    if e.CampaignSettled? then e.investorReturns else 0
  }

  // The money fields are the sums of what the events say.
  ghost predicate MoneyTold(l: Life) {
    var k, t := l.cell.campaign, l.trace;
    && k.totalFunded == EventSum(t, AmountReceived) + EventSum(t, AmountReconciled)
    && k.released == EventSum(t, BookedOut) && k.refundable == EventSum(t, ForRefunds)
    && k.returnable == EventSum(t, ForReturns)
  }

  // The records are what the last events of their kind say.
  function HarvestTold(t: seq<Event>): Option<(Address, Symbol, int)> {
    if t == [] then None
    else
      var last := t[|t| - 1];
      if last.HarvestReported? then Some((last.farmer, last.outcome, last.timestamp)) else HarvestTold(t[..|t| - 1])
  }

  function DisputeTold(t: seq<Event>): Option<(Address, Symbol, int, int)> {
    if t == [] then None
    else
      var last := t[|t| - 1];
      if last.DisputeOpened? then Some((last.opener, last.reason, last.timestamp, last.ledger))
      else DisputeTold(t[..|t| - 1])
  }

  function ResolutionTold(t: seq<Event>): Option<Resolution> {
    if t == [] then None
    else if t[|t| - 1].DisputeResolved? then Some(t[|t| - 1].resolution)
    else ResolutionTold(t[..|t| - 1])
  }

  function CountTold(t: seq<Event>): int {
    if t == [] then 0
    else if t[|t| - 1].TranchesConfigured? then t[|t| - 1].count
    else CountTold(t[..|t| - 1])
  }

  ghost predicate RecordsTold(l: Life) {
    var h, d, t := l.cell.harvest, l.cell.dispute, l.trace;
    && HarvestTold(t) == (if h.None? then None else Some((h.value.farmer, h.value.outcome, h.value.timestamp as int)))
    && DisputeTold(t) == (if d.None? then None
                          else Some((d.value.opener, d.value.reason, d.value.timestamp as int, d.value.ledger as int)))
    && (d.None? ==> ResolutionTold(t).None?)
    && (d.Some? ==> if d.value.status.Open? then d.value.resolution == Pending && ResolutionTold(t).None?
                    else ResolutionTold(t) == Some(d.value.resolution))
    && CountTold(t) == |l.cell.tranches|
  }

  lemma ToldSnoc(t: seq<Event>, e: Event)
    ensures HarvestTold(t + [e])
         == if e.HarvestReported? then Some((e.farmer, e.outcome, e.timestamp)) else HarvestTold(t)
    ensures DisputeTold(t + [e])
         == if e.DisputeOpened? then Some((e.opener, e.reason, e.timestamp, e.ledger)) else DisputeTold(t)
    ensures ResolutionTold(t + [e]) == if e.DisputeResolved? then Some(e.resolution) else ResolutionTold(t)
    ensures CountTold(t + [e]) == if e.TranchesConfigured? then e.count else CountTold(t)
  {
  }

  // What a step's one or two events tell is what it changes.
  lemma {:induction false} MoneyStep(l: Life, e: Env, op: Op)
    requires Sound(l.cell) && MoneyTold(l) && Attempt(l.cell, e, op).Some?
    ensures MoneyTold(Advance(l, Try(e, op)))
  {
    var ev := Attempt(l.cell, e, op).value.events;
    StepEvents(l.cell, e, op);
    StepMoney(l.cell, e, op);
    EventSumStep(l.trace, ev, AmountReceived);
    EventSumStep(l.trace, ev, AmountReconciled);
    EventSumStep(l.trace, ev, BookedOut);
    EventSumStep(l.trace, ev, ForRefunds);
    EventSumStep(l.trace, ev, ForReturns);
  }

  lemma {:induction false} StepMoney(c: Cell, e: Env, op: Op)
    requires Sound(c) && Attempt(c, e, op).Some?
    ensures var x := Attempt(c, e, op).value;
            var k, k', last := c.campaign, x.cell.campaign, x.events[|x.events| - 1];
            && (|x.events| == 2 ==> x.events[0].CampaignFunded?)
            && k'.totalFunded == k.totalFunded + AmountReceived(last) + AmountReconciled(last)
            && k'.released == k.released + BookedOut(last) && k'.refundable == k.refundable + ForRefunds(last)
            && k'.returnable == k.returnable + ForReturns(last)
  {
  }

  lemma {:induction false} MarkedLength(ts: seq<Tranche>, amount: int)
    requires MarkFirst(ts, amount).Some?
    ensures |MarkFirst(ts, amount).value| == |ts|
  {
    if ts != [] && !(!ts[0].released && ts[0].amount == amount) {
      MarkedLength(ts[1..], amount);
    }
  }

  // A harvest report, a dispute, its resolution or a configuration in an event is the one
  // that the step has stored; other events leave the records alone.
  lemma {:induction false} StepRecords(c: Cell, e: Env, op: Op)
    requires Sound(c) && Attempt(c, e, op).Some?
    ensures var x := Attempt(c, e, op).value;
            var c', ev := x.cell, x.events[|x.events| - 1];
            && (if ev.HarvestReported?
                then c'.harvest.Some? && c'.harvest.value.farmer == ev.farmer && c'.harvest.value.outcome == ev.outcome
                     && c'.harvest.value.timestamp == ev.timestamp
                else c'.harvest == c.harvest)
            && (if ev.DisputeOpened?
                then c'.dispute.Some? && c'.dispute.value.opener == ev.opener && c'.dispute.value.reason == ev.reason
                     && c'.dispute.value.timestamp == ev.timestamp && c'.dispute.value.ledger == ev.ledger
                     && c'.dispute.value.status.Open? && c'.dispute.value.resolution == Pending && c.dispute.None?
                else if ev.DisputeResolved?
                then c.dispute.Some?
                     && c'.dispute == Some(c.dispute.value.(status := Closed, resolution := ev.resolution))
                else c'.dispute == c.dispute)
            && (if ev.TranchesConfigured? then ev.count == |c'.tranches| else |c'.tranches| == |c.tranches|)
  {
    if op.Release? && c.tranches != [] {
      MarkedLength(c.tranches, op.amount);
    }
  }

  lemma {:induction false} RecordsStep(l: Life, e: Env, op: Op)
    requires Sound(l.cell) && RecordsTold(l) && Attempt(l.cell, e, op).Some?
    ensures RecordsTold(Advance(l, Try(e, op)))
  {
    var ev := Attempt(l.cell, e, op).value.events;
    StepEvents(l.cell, e, op);
    StepRecords(l.cell, e, op);
    ToldSnoc(l.trace, ev[0]);
    if |ev| == 2 {
      ToldSnoc(l.trace + [ev[0]], ev[1]);
      assert l.trace + ev == l.trace + [ev[0]] + [ev[1]];
    } else {
      assert ev == [ev[0]];
    }
  }

  // Throughout every life the money fields are the sums of what the events say, and the
  // harvest record, the dispute, its resolution and the number of tranches are what the
  // last event of their kind says.
  lemma {:induction false} LivedTold(b: Birth, tries: seq<Try>)
    requires b.Valid()
    ensures MoneyTold(Lived(b, tries)) && RecordsTold(Lived(b, tries))
  {
    if tries == [] {
      BirthMoney(b);
      BirthRecords(b);
    } else {
      var l := Lived(b, tries[..|tries| - 1]);
      var t := tries[|tries| - 1];
      LivedTold(b, tries[..|tries| - 1]);
      LivedSound(b, tries[..|tries| - 1]);
      if Attempt(l.cell, t.env, t.op).Some? {
        MoneyStep(l, t.env, t.op);
        RecordsStep(l, t.env, t.op);
      }
    }
  }

  lemma {:induction false} BirthMoney(b: Birth)
    ensures MoneyTold(Life(b.Cell(), b.Trace()))
  {
    EventSumBirth(b, AmountReceived);
    EventSumBirth(b, AmountReconciled);
    EventSumBirth(b, BookedOut);
    EventSumBirth(b, ForRefunds);
    EventSumBirth(b, ForReturns);
  }

  lemma {:induction false} BirthRecords(b: Birth)
    ensures RecordsTold(Life(b.Cell(), b.Trace()))
  {
    var t := b.Trace();
    assert t[..|t| - 1] == [];
  }

  // ------------------------------------------------------------ the log

  // A committed call on a campaign appends its report, stamped with the campaign and the
  // ledger, and CampaignFunded before it where a deposit completes the funding; it
  // touches no other campaign, and neither the admin nor the registry setting.
  lemma {:induction false} CallLogs(acts: seq<Act>, signers: Signers, id: nat, op: Op)
    requires var w := Run(Genesis(), acts); id in w.cells && Apply(w, signers, On(id, op)).Some?
    ensures var w := Run(Genesis(), acts);
            var w' := Step(w, Act(signers, On(id, op)));
            && id in w'.cells && w'.cells == w.cells[id := w'.cells[id]]
            && w' == w.(cells := w'.cells, log := w'.log, balances := w'.balances, registries := w'.registries)
            && (var c, c' := w.cells[id], w'.cells[id];
                var n, last := |w.log|, Report(op, EnvOf(w, signers, id), c, c');
                w'.log == if op.Fund? && c'.campaign.status.Funded?
                          then w.log + [LogEntry(n, id, w.ledger, CampaignFunded(w.now, c'.campaign.totalFunded))]
                               + [LogEntry(n + 1, id, w.ledger, last)]
                          else w.log + [LogEntry(n, id, w.ledger, last)])
  {
    var w := Run(Genesis(), acts);
    RunSound(acts, id);
    var x := Attempt(w.cells[id], EnvOf(w, signers, id), op).value;
    StepReports(w.cells[id], EnvOf(w, signers, id), op);
    AppendStamped(w.log, id, w.ledger, x.events);
  }

  // The time that an event carries.
  function TimeOf(e: Event): int {
    match e
    case CampaignCreated(_, timestamp, _) => timestamp
    case ContribReceived(_, timestamp, _) => timestamp
    case ContribReconciled(_, timestamp, _) => timestamp
    case CampaignFunded(timestamp, _) => timestamp
    case TranchesConfigured(timestamp, _) => timestamp
    case TrancheReleased(_, timestamp, _) => timestamp
    case HarvestReported(_, _, timestamp) => timestamp
    case CampaignFailed(timestamp, _) => timestamp
    case ReturnClaimed(_, timestamp, _) => timestamp
    case RefundClaimed(_, timestamp, _) => timestamp
    case DisputeOpened(_, _, timestamp, _) => timestamp
    case DisputeResolved(_, _, _, _, timestamp, _) => timestamp
    case CampaignSettled(_, timestamp, _, _) => timestamp
  }

  // A new entry carries the time and the ledger of its call.
  ghost predicate StampedNow(e: LogEntry, w: State) {
    && e.ledger == w.ledger && TimeOf(e.event) == w.now
    && (e.event.DisputeOpened? || e.event.DisputeResolved? ==> e.event.ledger == e.ledger)
  }

  lemma {:induction false} StepStamps(w: State, a: Act)
    ensures var w' := Step(w, a);
            && w.log <= w'.log && |w'.log| <= |w.log| + 2 && (w'.log != w.log ==> w'.now == w.now)
            && forall i :: |w.log| <= i < |w'.log| ==> StampedNow(w'.log[i], w)
  {
    if Apply(w, a.signers, a.call).Some? {
      if a.call.On? {
        var x := Attempt(w.cells[a.call.id], EnvOf(w, a.signers, a.call.id), a.call.op).value;
        StepEvents(w.cells[a.call.id], EnvOf(w, a.signers, a.call.id), a.call.op);
        EventsStamped(w.cells[a.call.id], EnvOf(w, a.signers, a.call.id), a.call.op);
        AppendStamped(w.log, a.call.id, w.ledger, x.events);
      } else if a.call.CreateCampaign? {
        AppendStamped(w.log, a.call.id, w.ledger, BirthOf(w, a.call).Trace());
      } else {
        OthersKeepCells(w, a);
      }
    }
  }

  lemma {:induction false} EventsStamped(c: Cell, e: Env, op: Op)
    requires Attempt(c, e, op).Some?
    ensures forall i :: 0 <= i < |Attempt(c, e, op).value.events| ==>
              var ev := Attempt(c, e, op).value.events[i];
              TimeOf(ev) == e.now && (ev.DisputeOpened? || ev.DisputeResolved? ==> ev.ledger == e.ledger)
  {
  }

  ghost predicate InTime(log: seq<LogEntry>, now: int) {
    && (forall i :: 0 <= i < |log| ==> TimeOf(log[i].event) <= now)
    && forall i, j :: 0 <= i < j < |log| ==> TimeOf(log[i].event) <= TimeOf(log[j].event)
  }

  lemma {:induction false} InTimeGrows(log: seq<LogEntry>, log': seq<LogEntry>, now: int, now': int)
    requires InTime(log, now) && log <= log' && now <= now'
    requires forall i :: |log| <= i < |log'| ==> TimeOf(log'[i].event) == now
    ensures InTime(log', now')
  {
    forall i | 0 <= i < |log'| ensures TimeOf(log'[i].event) <= now {
      if i < |log| { assert log'[i] == log[i]; }
    }
    forall i, j | 0 <= i < j < |log'| ensures TimeOf(log'[i].event) <= TimeOf(log'[j].event) {
      if j < |log| { assert log'[i] == log[i] && log'[j] == log[j]; }
    }
  }

  // Over every run the log is in the order of its times, none of them in the future.
  lemma {:induction false} LogInTime(acts: seq<Act>)
    ensures var w := Run(Genesis(), acts); InTime(w.log, w.now)
  {
    if acts != [] {
      var w, a := Run(Genesis(), acts[..|acts| - 1]), acts[|acts| - 1];
      LogInTime(acts[..|acts| - 1]);
      StepStamps(w, a);
      TimePasses(w, a);
      InTimeGrows(w.log, Step(w, a).log, w.now, Step(w, a).now);
    }
  }

  lemma {:induction false} TimePasses(w: State, a: Act)
    ensures w.now <= Step(w, a).now
  {
  }
}
