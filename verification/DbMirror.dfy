// The campaign table mirrors the escrow: what folding a campaign's events gives,
// compared with what the contract stores.

module DbMirror {
  import opened EscrowTypes
  import opened Campaigns
  import opened Accounting
  import opened Lifecycle
  import opened Chain
  import opened Solvency
  import opened Effects
  import opened EventWire
  import opened EventFold
  import Replay

  // ------------------------------------------------------------ one campaign

  // The campaign's row after its own events.
  function RowFold(t: seq<Event>): Option<Row> {
    if t == [] then None else RowStep(RowFold(t[..|t| - 1]), DataOf(t[|t| - 1]))
  }

  // The table has no status for a campaign that is still collecting.
  function Shown(s: CampaignStatus): CampaignStatus {
    if s.Funding? then Active else s
  }

  // The deposit reported right after CampaignFunded: fund_campaign reports the
  // completed total first and the deposit that completed it second.
  predicate CompletesAt(t: seq<Event>, i: int) {
    0 < i < |t| && t[i - 1].CampaignFunded? && t[i].ContribReceived?
  }

  function Overcount(t: seq<Event>): int {
    if t == [] then 0
    else Overcount(t[..|t| - 1]) + if CompletesAt(t, |t| - 1) then t[|t| - 1].amount else 0
  }

  // A row against the campaign it is about, over being counted twice.
  ghost predicate Agrees(row: Option<Row>, k: Campaign, over: int) {
    && row.Some?
    && row.value.farmer == k.farmer && row.value.target == k.target
    && row.value.status == Shown(k.status)
    && row.value.refundable == k.refundable && row.value.returnable == k.returnable
    && row.value.totalFunded == k.totalFunded + over
  }

  // The same up to status and returnable.
  ghost predicate AgreesInPart(row: Option<Row>, k: Campaign, over: int) {
    && row.Some?
    && row.value.farmer == k.farmer && row.value.target == k.target && row.value.refundable == k.refundable
    && row.value.totalFunded == k.totalFunded + over
  }

  ghost predicate RowMatches(l: Life) {
    Agrees(RowFold(l.trace), l.cell.campaign, Overcount(l.trace))
  }

  // While a campaign accepts money, CampaignFunded has not been emitted.
  ghost predicate NotYetFunded(l: Life) {
    Accepting(l.cell.campaign.status) ==>
      Overcount(l.trace) == 0 && l.trace != [] && !l.trace[|l.trace| - 1].CampaignFunded?
  }

  lemma FoldSnoc(t: seq<Event>, e: Event)
    ensures RowFold(t + [e]) == RowStep(RowFold(t), DataOf(e))
    ensures Overcount(t + [e]) == Overcount(t)
              + if t != [] && t[|t| - 1].CampaignFunded? && e.ContribReceived? then e.amount else 0
  {
  }

  // ------------------------------------------------------------ late events, written again

  // A list of events each of which could come next.
  ghost predicate Ends(t: seq<Event>) {
    t == [] || (Ends(t[..|t| - 1]) && Follows(t[..|t| - 1], t[|t| - 1]))
  }

  lemma {:induction false} RowAtEnd(t: seq<Event>)
    requires Ends(t) && t != []
    ensures RowFold(t).Some?
    ensures Reaped(t) ==> RowFold(t).value.status == if Concluded(t) then Settled else Harvested
    ensures Concluded(t) ==> RowFold(t).value.status == Settled
  {
    var init, last := t[..|t| - 1], t[|t| - 1];
    if init != [] {
      RowAtEnd(init);
    }
    assert t == init + [last];
    FoldSnoc(init, last);
    PhaseSnoc(init, last);
  }

  // The outcome in the row is that of the one harvest report.
  lemma {:induction false} HarvestWritten(t: seq<Event>, i: nat)
    requires Ends(t) && i < |t| && t[i].HarvestReported?
    ensures Reaped(t) && RowFold(t).Some? && RowFold(t).value.outcome == Some(t[i].outcome)
  {
    var init, last := t[..|t| - 1], t[|t| - 1];
    assert t == init + [last];
    FoldSnoc(init, last);
    PhaseSnoc(init, last);
    if init != [] {
      RowAtEnd(init);
    }
    if i < |init| {
      HarvestWritten(init, i);
    }
  }

  lemma {:induction false} SettlementCloses(t: seq<Event>, i: nat)
    requires i < |t| && t[i].CampaignSettled?
    ensures Concluded(t)
  {
    if i < |t| - 1 {
      SettlementCloses(t[..|t| - 1], i);
    }
  }

  // Writing a harvest report again leaves the row alone exactly as long as there is
  // no settlement; writing a settlement again exactly if it returns nothing.
  lemma {:induction false} WrittenAgain(t: seq<Event>, i: nat)
    requires Ends(t) && i < |t| && (t[i].HarvestReported? || t[i].CampaignSettled?)
    ensures RowStep(RowFold(t), DataOf(t[i])) == RowFold(t) <==>
              if t[i].HarvestReported? then !Concluded(t) else t[i].investorReturns == 0
  {
    RowAtEnd(t);
    if t[i].HarvestReported? {
      HarvestWritten(t, i);
    } else {
      SettlementCloses(t, i);
    }
  }

  // ------------------------------------------------------------ one step

  lemma AgreesFund(row: Option<Row>, c: Cell, e: Env, investor: Address, amount: int)
    requires Agrees(row, c.campaign, 0) && Sound(c) && FundStep(c, e, investor, amount).Some?
    ensures var x := FundStep(c, e, investor, amount).value;
            var first := RowStep(row, DataOf(x.events[0]));
            if |x.events| == 2 then Agrees(RowStep(first, DataOf(x.events[1])), x.cell.campaign, amount)
            else |x.events| == 1 && Agrees(first, x.cell.campaign, 0)
  {
  }

  lemma {:induction false} AgreesEarly(row: Option<Row>, c: Cell, e: Env, op: Op, over: int)
    requires op.Receive? || op.Complete? || op.Configure? || op.Release? || op.Harvest? || op.Dispute?
    requires Agrees(row, c.campaign, over) && (op.Complete? ==> over == 0) && Sound(c) && Attempt(c, e, op).Some?
    ensures var x := Attempt(c, e, op).value; Agrees(RowStep(row, DataOf(x.events[0])), x.cell.campaign, over)
  {
  }

  lemma {:induction false} AgreesLate(row: Option<Row>, c: Cell, e: Env, op: Op, over: int)
    requires op.Resolve? || op.ClaimRefund? || op.Settle? || op.MarkFailed? || op.Expire? || op.ClaimReturn?
    requires Agrees(row, c.campaign, over) && Sound(c) && Attempt(c, e, op).Some?
    ensures var x := Attempt(c, e, op).value; Agrees(RowStep(row, DataOf(x.events[0])), x.cell.campaign, over)
  {
  }

  lemma {:induction false} MatchesFund(l: Life, e: Env, investor: Address, amount: int)
    requires RowMatches(l) && NotYetFunded(l) && Sound(l.cell) && FundStep(l.cell, e, investor, amount).Some?
    ensures var l' := Advance(l, Try(e, Fund(investor, amount))); RowMatches(l') && NotYetFunded(l')
  {
    var x := FundStep(l.cell, e, investor, amount).value;
    AgreesFund(RowFold(l.trace), l.cell, e, investor, amount);
    FoldSnoc(l.trace, x.events[0]);
    if |x.events| == 2 {
      FoldSnoc(l.trace + [x.events[0]], x.events[1]);
      assert l.trace + x.events == l.trace + [x.events[0]] + [x.events[1]];
    } else {
      assert x.events == [x.events[0]];
    }
  }

  // Steps other than funding emit one event, and it is not a deposit.
  lemma OtherEvent(c: Cell, e: Env, op: Op)
    requires !op.Fund? && Attempt(c, e, op).Some?
    ensures var x := Attempt(c, e, op).value;
            && |x.events| == 1 && !x.events[0].ContribReceived?
            && (Accepting(x.cell.campaign.status) ==> Accepting(c.campaign.status) && !x.events[0].CampaignFunded?)
            && (op.Complete? ==> Accepting(c.campaign.status))
  {
  }

  lemma {:induction false} MatchesOther(l: Life, e: Env, op: Op)
    requires RowMatches(l) && NotYetFunded(l) && Sound(l.cell) && !op.Fund? && Attempt(l.cell, e, op).Some?
    ensures var l' := Advance(l, Try(e, op)); RowMatches(l') && NotYetFunded(l')
  {
    var x := Attempt(l.cell, e, op).value;
    var over := Overcount(l.trace);
    OtherEvent(l.cell, e, op);
    FoldSnoc(l.trace, x.events[0]);
    assert x.events == [x.events[0]];
    if op.Resolve? || op.ClaimRefund? || op.Settle? || op.MarkFailed? || op.Expire? || op.ClaimReturn? {
      AgreesLate(RowFold(l.trace), l.cell, e, op, over);
    } else {
      AgreesEarly(RowFold(l.trace), l.cell, e, op, over);
    }
  }

  // At the end of every transaction the folded row agrees with the contract in
  // farmer, target, status, refundable and returnable, and total_funded is off
  // by exactly the deposit that completed the funding, if one did.
  lemma {:induction false} LivedRowMatches(b: Birth, tries: seq<Try>)
    requires b.Valid()
    ensures RowMatches(Lived(b, tries)) && NotYetFunded(Lived(b, tries))
  {
    if tries == [] {
      FoldSnoc([], b.Trace()[0]);
      assert [] + b.Trace() == b.Trace();
    } else {
      var l := Lived(b, tries[..|tries| - 1]);
      var t := tries[|tries| - 1];
      LivedRowMatches(b, tries[..|tries| - 1]);
      LivedSound(b, tries[..|tries| - 1]);
      MatchesStep(l, t);
    }
  }

  lemma {:induction false} MatchesStep(l: Life, t: Try)
    requires RowMatches(l) && NotYetFunded(l) && Sound(l.cell)
    ensures RowMatches(Advance(l, t)) && NotYetFunded(Advance(l, t))
  {
    if Attempt(l.cell, t.env, t.op).Some? {
      match t.op {
        case Fund(investor, amount) => MatchesFund(l, t.env, investor, amount);
        case _ => MatchesOther(l, t.env, t.op);
      }
    }
  }

  // The columns for the number of tranches and the outcome of the harvest, against what
  // the contract stores.
  ghost predicate Detailed(row: Option<Row>, c: Cell) {
    && row.Some?
    && row.value.trancheCount == (if c.tranches == [] then None else Some(|c.tranches|))
    && row.value.outcome == (if c.harvest.None? then None else Some(c.harvest.value.outcome))
  }

  lemma {:induction false} DetailOf(row: Option<Row>, e: Event)
    requires row.Some?
    ensures var row' := RowStep(row, DataOf(e));
            && row'.Some?
            && row'.value.trancheCount == (if e.TranchesConfigured? then Some(e.count) else row.value.trancheCount)
            && row'.value.outcome == (if e.HarvestReported? then Some(e.outcome) else row.value.outcome)
  {
  }

  lemma {:induction false} DetailedStep(l: Life, e: Env, op: Op)
    requires Sound(l.cell) && Detailed(RowFold(l.trace), l.cell) && Attempt(l.cell, e, op).Some?
    ensures var l' := Advance(l, Try(e, op)); Detailed(RowFold(l'.trace), l'.cell)
  {
    var ev := Attempt(l.cell, e, op).value.events;
    StepEvents(l.cell, e, op);
    StepRecords(l.cell, e, op);
    ConfiguresSome(l.cell, e, op);
    FoldSnoc(l.trace, ev[0]);
    DetailOf(RowFold(l.trace), ev[0]);
    if |ev| == 2 {
      FoldSnoc(l.trace + [ev[0]], ev[1]);
      DetailOf(RowFold(l.trace + [ev[0]]), ev[1]);
      assert l.trace + ev == l.trace + [ev[0]] + [ev[1]];
    } else {
      assert ev == [ev[0]];
    }
  }

  lemma {:induction false} ConfiguresSome(c: Cell, e: Env, op: Op)
    requires Attempt(c, e, op).Some?
    ensures var ev := Attempt(c, e, op).value.events;
            ev != [] && (ev[|ev| - 1].TranchesConfigured? ==> 0 < ev[|ev| - 1].count)
  {
  }

  // The folded row has the number of tranches configured last and the outcome of the
  // harvest report.
  lemma {:induction false} LivedRowDetails(b: Birth, tries: seq<Try>)
    requires b.Valid()
    ensures Detailed(RowFold(Lived(b, tries).trace), Lived(b, tries).cell)
  {
    if tries == [] {
      FoldSnoc([], b.Trace()[0]);
      assert [] + b.Trace() == b.Trace();
    } else {
      var l := Lived(b, tries[..|tries| - 1]);
      var t := tries[|tries| - 1];
      LivedRowDetails(b, tries[..|tries| - 1]);
      LivedSound(b, tries[..|tries| - 1]);
      if Attempt(l.cell, t.env, t.op).Some? {
        DetailedStep(l, t.env, t.op);
      }
    }
  }

  // The double count is nothing, or the one deposit that completed the funding.
  ghost predicate CountedTwice(t: seq<Event>, i: int) {
    CompletesAt(t, i) && Overcount(t) == t[i].amount && 0 < t[i].amount && forall j :: CompletesAt(t, j) ==> j == i
  }

  ghost predicate NothingCountedTwice(t: seq<Event>) {
    Overcount(t) == 0 && forall j :: !CompletesAt(t, j)
  }

  ghost predicate AtMostOneTwice(l: Life) {
    NothingCountedTwice(l.trace)
    || (exists i :: CountedTwice(l.trace, i) && l.trace[i].amount <= l.cell.campaign.totalFunded)
  }

  lemma CompletesSnoc(t: seq<Event>, e: Event, i: int)
    ensures CompletesAt(t + [e], i) <==>
              CompletesAt(t, i) || (i == |t| && t != [] && t[|t| - 1].CampaignFunded? && e.ContribReceived?)
  {
  }

  // An event that completes nothing leaves the count alone.
  lemma TwiceKept(t: seq<Event>, e: Event)
    requires !e.ContribReceived? || t == [] || !t[|t| - 1].CampaignFunded?
    ensures NothingCountedTwice(t) ==> NothingCountedTwice(t + [e])
    ensures forall i :: CountedTwice(t, i) ==> CountedTwice(t + [e], i) && (t + [e])[i] == t[i]
  {
    FoldSnoc(t, e);
    forall i ensures CompletesAt(t + [e], i) <==> CompletesAt(t, i) { CompletesSnoc(t, e, i); }
  }

  lemma TwiceOnFund(l: Life, e: Env, investor: Address, amount: int)
    requires AtMostOneTwice(l) && NotYetFunded(l) && Sound(l.cell) && FundStep(l.cell, e, investor, amount).Some?
    ensures AtMostOneTwice(Advance(l, Try(e, Fund(investor, amount))))
  {
    var x := FundStep(l.cell, e, investor, amount).value;
    TwiceKept(l.trace, x.events[0]);
    var t := l.trace + [x.events[0]];
    if |x.events| == 2 {
      var t' := t + [x.events[1]];
      assert l.trace + x.events == t';
      FoldSnoc(t, x.events[1]);
      forall i ensures CompletesAt(t', i) <==> i == |t| { CompletesSnoc(t, x.events[1], i); }
      assert CountedTwice(t', |t|);
    } else {
      assert l.trace + x.events == t;
    }
  }

  lemma TwiceOnOther(l: Life, e: Env, op: Op)
    requires AtMostOneTwice(l) && !op.Fund? && Sound(l.cell) && Attempt(l.cell, e, op).Some?
    ensures AtMostOneTwice(Advance(l, Try(e, op)))
  {
    var x := Attempt(l.cell, e, op).value;
    OtherEvent(l.cell, e, op);
    StepAmounts(l.cell, e, op);
    TwiceKept(l.trace, x.events[0]);
    assert x.events == [x.events[0]];
  }

  lemma {:induction false} LivedAtMostOneTwice(b: Birth, tries: seq<Try>)
    requires b.Valid()
    ensures AtMostOneTwice(Lived(b, tries))
  {
    if tries == [] {
      FoldSnoc([], b.Trace()[0]);
      assert [] + b.Trace() == b.Trace();
    } else {
      var l := Lived(b, tries[..|tries| - 1]);
      var t := tries[|tries| - 1];
      LivedAtMostOneTwice(b, tries[..|tries| - 1]);
      LivedRowMatches(b, tries[..|tries| - 1]);
      LivedSound(b, tries[..|tries| - 1]);
      if Attempt(l.cell, t.env, t.op).Some? {
        match t.op {
          case Fund(investor, amount) => TwiceOnFund(l, t.env, investor, amount);
          case _ => TwiceOnOther(l, t.env, t.op);
        }
      }
    }
  }

  // total_funded is mirrored if and only if no fund_campaign call completed the
  // funding.
  lemma TotalMirroredIff(b: Birth, tries: seq<Try>)
    requires b.Valid()
    ensures var l := Lived(b, tries);
            && RowFold(l.trace).Some?
            && (RowFold(l.trace).value.totalFunded == l.cell.campaign.totalFunded <==>
                 forall i :: !CompletesAt(l.trace, i))
            && (forall i :: CompletesAt(l.trace, i) ==>
                  RowFold(l.trace).value.totalFunded == l.cell.campaign.totalFunded + l.trace[i].amount)
  {
    LivedRowMatches(b, tries);
    LivedAtMostOneTwice(b, tries);
  }

  // The double count stays within the column, a signed 64-bit integer, for targets
  // below 2^62.
  lemma FoldedTotalFits(b: Birth, tries: seq<Try>)
    requires b.Valid()
    ensures var row := RowFold(Lived(b, tries).trace);
            && row.Some? && 0 <= row.value.totalFunded <= 2 * b.target
            && (b.target < 0x4000_0000_0000_0000 ==> row.value.totalFunded <= I64_MAX)
  {
    LivedSound(b, tries);
    LivedRowMatches(b, tries);
    LivedAtMostOneTwice(b, tries);
  }
}
