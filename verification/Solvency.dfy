// Token solvency of the whole contract: what its balance amounts to after any
// run, when it covers everything owed, and that it then never blocks a payout.

module Solvency {
  import opened EscrowTypes
  import opened Campaigns
  import opened Accounting
  import opened Lifecycle
  import opened Chain
  import opened Sums

  // The amounts that single events report: a deposit that moved tokens in, a
  // reconciliation that moved none, and payouts by claims and by settlement.
  function AmountReceived(e: Event): int { if e.ContribReceived? then e.amount else 0 }

  function AmountReconciled(e: Event): int { if e.ContribReconciled? then e.amount else 0 }

  function AmountClaimed(e: Event): int { if e.RefundClaimed? || e.ReturnClaimed? then e.amount else 0 }

  function AmountSettled(e: Event): int { if e.CampaignSettled? then e.farmerPayout else 0 }

  function EventSum(t: seq<Event>, f: Event -> int): int {
    if t == [] then 0 else EventSum(t[..|t| - 1], f) + f(t[|t| - 1])
  }

  // Of the event lists that steps emit, only the last event counts.
  lemma {:induction false} LastCounts(t: seq<Event>, ev: seq<Event>, f: Event -> int)
    requires |ev| == 1 || (|ev| == 2 && f(ev[0]) == 0)
    ensures EventSum(t + ev, f) == EventSum(t, f) + f(ev[|ev| - 1])
  {
    EventSumStep(t, ev, f);
  }

  // The event lists that steps emit, summed after a trace.
  lemma EventSumStep(t: seq<Event>, ev: seq<Event>, f: Event -> int)
    requires |ev| == 1 || |ev| == 2
    ensures EventSum(t + ev, f) == EventSum(t, f) + f(ev[0]) + if |ev| == 2 then f(ev[1]) else 0
  {
    OneEvent(t, ev[0]);
    if |ev| == 2 {
      OneEvent(t + [ev[0]], ev[1]);
      assert t + ev == t + [ev[0]] + [ev[1]];
    } else {
      assert ev == [ev[0]];
    }
  }

  // ------------------------------------------------------------ one campaign

  // The recorded funding is what was received and reconciled, and what was paid
  // out stays within what was booked out.
  ghost predicate Tallied(l: Life) {
    var k, t := l.cell.campaign, l.trace;
    && k.totalFunded == EventSum(t, AmountReceived) + EventSum(t, AmountReconciled)
    && 0 <= EventSum(t, AmountReceived) && 0 <= EventSum(t, AmountReconciled)
    && EventSum(t, AmountClaimed) == Sum(Paid(t))
    && 0 <= EventSum(t, AmountSettled) <= k.released
  }

  // What a step's events say is what it did to the recorded amounts; only the
  // last event carries any.
  lemma {:induction false} StepAmounts(c: Cell, e: Env, op: Op)
    requires Sound(c) && Attempt(c, e, op).Some?
    ensures var x := Attempt(c, e, op).value;
            && (|x.events| == 1 || (|x.events| == 2 && x.events[0].CampaignFunded?))
            && (var last := x.events[|x.events| - 1];
                && x.cell.campaign.totalFunded == c.campaign.totalFunded + AmountReceived(last) + AmountReconciled(last)
                && 0 <= AmountReceived(last) && 0 <= AmountReconciled(last) && 0 <= AmountSettled(last)
                && c.campaign.released + AmountSettled(last) <= x.cell.campaign.released)
  {
  }

  lemma PaidStep(t: seq<Event>, ev: seq<Event>)
    requires |ev| == 1 || (|ev| == 2 && ev[0].CampaignFunded?)
    ensures Sum(Paid(t + ev)) == Sum(Paid(t)) + AmountClaimed(ev[|ev| - 1])
  {
    if |ev| == 2 {
      PaidOne(t, ev[0]);
      PaidOne(t + [ev[0]], ev[1]);
      assert t + ev == t + [ev[0]] + [ev[1]];
    } else {
      PaidOne(t, ev[0]);
      assert ev == [ev[0]];
    }
  }

  lemma PaidOne(t: seq<Event>, e: Event)
    ensures Sum(Paid(t + [e])) == Sum(Paid(t)) + AmountClaimed(e)
  {
    OneEvent(t, e);
    if e.RefundClaimed? || e.ReturnClaimed? {
      SumUpdate(Paid(t), e.investor, Added(Paid(t), e.investor, e.amount)[e.investor]);
    }
  }

  lemma {:induction false} EventsCount(t: seq<Event>, ev: seq<Event>)
    requires |ev| == 1 || (|ev| == 2 && ev[0].CampaignFunded?)
    ensures var last := ev[|ev| - 1];
            && EventSum(t + ev, AmountReceived) == EventSum(t, AmountReceived) + AmountReceived(last)
            && EventSum(t + ev, AmountReconciled) == EventSum(t, AmountReconciled) + AmountReconciled(last)
            && EventSum(t + ev, AmountClaimed) == EventSum(t, AmountClaimed) + AmountClaimed(last)
            && EventSum(t + ev, AmountSettled) == EventSum(t, AmountSettled) + AmountSettled(last)
            && Sum(Paid(t + ev)) == Sum(Paid(t)) + AmountClaimed(last)
  {
    LastCounts(t, ev, AmountReceived);
    LastCounts(t, ev, AmountReconciled);
    LastCounts(t, ev, AmountClaimed);
    LastCounts(t, ev, AmountSettled);
    PaidStep(t, ev);
  }

  lemma {:induction false} TalliedStep(l: Life, e: Env, op: Op)
    requires Sound(l.cell) && Tallied(l) && Attempt(l.cell, e, op).Some?
    ensures Tallied(Advance(l, Try(e, op)))
  {
    StepAmounts(l.cell, e, op);
    EventsCount(l.trace, Attempt(l.cell, e, op).value.events);
  }

  lemma EventSumBirth(b: Birth, f: Event -> int)
    ensures EventSum(b.Trace(), f) == f(b.Trace()[0])
  {
  }

  lemma TalliedBirth(b: Birth)
    ensures Tallied(Life(b.Cell(), b.Trace()))
  {
  }

  lemma {:induction false} LivedTallied(b: Birth, tries: seq<Try>)
    requires b.Valid()
    ensures Tallied(Lived(b, tries))
  {
    if tries == [] {
      TalliedBirth(b);
    } else {
      var l := Lived(b, tries[..|tries| - 1]);
      var t := tries[|tries| - 1];
      LivedTallied(b, tries[..|tries| - 1]);
      LivedSound(b, tries[..|tries| - 1]);
      if Attempt(l.cell, t.env, t.op).Some? {
        TalliedStep(l, t.env, t.op);
      }
    }
  }

  // What a campaign has moved in, and what it still owes, in tokens.
  function NetIn(t: seq<Event>): int {
    EventSum(t, AmountReceived) - EventSum(t, AmountClaimed) - EventSum(t, AmountSettled)
  }

  function Owed(l: Life): int {
    l.cell.campaign.totalFunded - EventSum(l.trace, AmountClaimed) - EventSum(l.trace, AmountSettled)
  }

  // A campaign never pays out more than it was funded with, and what it holds is
  // part of what it owes.
  lemma OwedCoversHeld(l: Life)
    requires Sound(l.cell) && Booked(l) && Tallied(l)
    ensures 0 <= l.cell.Held() <= Owed(l)
  {
    if l.cell.campaign.totalFunded != 0 {
      ClaimsWithinPool(l);
    } else {
      NoDeposits(l.trace);
      assert Paid(l.trace) == map[];
    }
  }

  // ------------------------------------------------------------ the whole contract

  function ReconciledIn(t: seq<Event>): int {
    EventSum(t, AmountReconciled)
  }

  // A quantity of each campaign of one token, read off its events.
  ghost function PerCampaign(w: State, token: Address, f: seq<Event> -> int): map<nat, int> {
    map id | id in w.cells && w.cells[id].campaign.token == token :: f(Project(w.log, id))
  }

  ghost function OwedBy(w: State, token: Address): map<nat, int> {
    map id | id in w.cells && w.cells[id].campaign.token == token :: Owed(LifeOf(w, id))
  }

  // Tokens the contract was given other than through fund_campaign.
  function Gift(w: State, a: Act, token: Address): int {
    if Apply(w, a.signers, a.call).None? then 0
    else
      match a.call
      case Pay(tk, _, to, amount) => if tk == token && to == SELF then amount else 0
      case Issue(tk, to, amount) => if tk == token && to == SELF then amount else 0
      case On(id, Settle(payee, payout)) => if w.cells[id].campaign.token == token && payee == SELF then payout else 0
      case _ => 0
  }

  function Gifts(acts: seq<Act>, token: Address): int {
    if acts == [] then 0
    else Gifts(acts[..|acts| - 1], token) + Gift(Run(Genesis(), acts[..|acts| - 1]), acts[|acts| - 1], token)
  }

  // By how much a transfer changes the contract's own balance.
  function SelfDelta(t: Transfer): int {
    match t
    case NoTransfer => 0
    case Transfer(from, to, amount) => (if to == SELF then amount else 0) - (if from == SELF then amount else 0)
  }

  lemma MoveDelta(b: Balances, tk: Address, t: Transfer, token: Address)
    requires Move(b, tk, t).Some?
    ensures Balance(Move(b, tk, t).value, token, SELF)
         == Balance(b, token, SELF) + if tk == token then SelfDelta(t) else 0
  {
  }

  function NetOf(e: Event): int { AmountReceived(e) - AmountClaimed(e) - AmountSettled(e) }

  // A step's transfer is exactly what its last event reports, except that a
  // settlement paid to the contract itself stays there.
  lemma TransferMatchesEvents(c: Cell, e: Env, op: Op)
    requires Attempt(c, e, op).Some?
    ensures var x := Attempt(c, e, op).value;
            var kept := if op.Settle? && op.payee == SELF then op.payout else 0;
            x.events != [] && SelfDelta(x.transfer) == NetOf(x.events[|x.events| - 1]) + kept
  {
  }

  lemma GiftNonNegative(w: State, a: Act, token: Address)
    ensures 0 <= Gift(w, a, token)
  {
  }

  lemma BalanceOnCommit(w: State, signers: Signers, id: nat, op: Op, token: Address)
    requires Apply(w, signers, On(id, op)).Some?
    ensures var x := Attempt(w.cells[id], EnvOf(w, signers, id), op).value;
            && x.events != []
            && (var delta := if x.cell.campaign.token == token then NetOf(x.events[|x.events| - 1]) else 0;
                var kept := if x.cell.campaign.token == token && op.Settle? && op.payee == SELF then op.payout else 0;
                Balance(Commit(w, id, x).value.balances, token, SELF)
                == Balance(w.balances, token, SELF) + delta + kept)
  {
    var c, e := w.cells[id], EnvOf(w, signers, id);
    var x := Attempt(c, e, op).value;
    MoveDelta(w.balances, x.cell.campaign.token, x.transfer, token);
    TransferMatchesEvents(c, e, op);
  }

  lemma NetInStep(t: seq<Event>, ev: seq<Event>)
    requires |ev| == 1 || (|ev| == 2 && ev[0].CampaignFunded?)
    ensures NetIn(t + ev) == NetIn(t) + NetOf(ev[|ev| - 1])
  {
    EventSumStep(t, ev, AmountReceived);
    EventSumStep(t, ev, AmountClaimed);
    EventSumStep(t, ev, AmountSettled);
  }

  // Writing one campaign changes its own summand only.
  lemma SumOnWrite(w: State, w': State, id: nat, cell: Cell, token: Address, f: seq<Event> -> int)
    requires w'.cells == w.cells[id := cell]
    requires id in w.cells ==> cell.campaign.token == w.cells[id].campaign.token
    requires forall j: nat :: j != id ==> Project(w'.log, j) == Project(w.log, j)
    ensures var before := if id in w.cells then f(Project(w.log, id)) else 0;
            Sum(PerCampaign(w', token, f)) == Sum(PerCampaign(w, token, f)) +
              if cell.campaign.token == token then f(Project(w'.log, id)) - before else 0
  {
    if cell.campaign.token == token {
      OwnSummand(w, w', id, cell, token, f);
      SumUpdate(PerCampaign(w, token, f), id, f(Project(w'.log, id)));
    } else {
      OtherSummands(w, w', id, cell, token, f);
    }
  }

  lemma OwnSummand(w: State, w': State, id: nat, cell: Cell, token: Address, f: seq<Event> -> int)
    requires w'.cells == w.cells[id := cell] && cell.campaign.token == token
    requires forall j: nat :: j != id ==> Project(w'.log, j) == Project(w.log, j)
    ensures PerCampaign(w', token, f) == PerCampaign(w, token, f)[id := f(Project(w'.log, id))]
  {
  }

  lemma OtherSummands(w: State, w': State, id: nat, cell: Cell, token: Address, f: seq<Event> -> int)
    requires w'.cells == w.cells[id := cell] && cell.campaign.token != token
    requires id in w.cells ==> w.cells[id].campaign.token != token
    requires forall j: nat :: j != id ==> Project(w'.log, j) == Project(w.log, j)
    ensures PerCampaign(w', token, f) == PerCampaign(w, token, f)
  {
  }

  // What a call adds to what its campaign has moved in.
  lemma {:induction false} NetInOnCommit(w: State, id: nat, e: Env, op: Op, token: Address)
    requires Tidy(w) && id in w.cells && Sound(w.cells[id]) && Attempt(w.cells[id], e, op).Some?
    requires Commit(w, id, Attempt(w.cells[id], e, op).value).Some?
    ensures var x := Attempt(w.cells[id], e, op).value;
            && x.events != []
            && Sum(PerCampaign(Commit(w, id, x).value, token, NetIn)) == Sum(PerCampaign(w, token, NetIn)) +
                 if x.cell.campaign.token == token then NetOf(x.events[|x.events| - 1]) else 0
  {
    var x := Attempt(w.cells[id], e, op).value;
    FixedFields(w.cells[id], e, op);
    StepAmounts(w.cells[id], e, op);
    CommitOnLives(w, id, x);
    NetInStep(Project(w.log, id), x.events);
    SumOnWrite(w, Commit(w, id, x).value, id, x.cell, token, NetIn);
  }

  lemma {:induction false} ConservedOnCommit(w: State, signers: Signers, id: nat, op: Op, token: Address)
    requires Tidy(w) && Apply(w, signers, On(id, op)).Some? && Sound(w.cells[id])
    ensures var w' := Apply(w, signers, On(id, op)).value;
            Balance(w'.balances, token, SELF) - Sum(PerCampaign(w', token, NetIn))
            == Balance(w.balances, token, SELF) - Sum(PerCampaign(w, token, NetIn))
                + Gift(w, Act(signers, On(id, op)), token)
  {
    var c, e := w.cells[id], EnvOf(w, signers, id);
    FixedFields(c, e, op);
    BalanceOnCommit(w, signers, id, op, token);
    NetInOnCommit(w, id, e, op, token);
  }

  lemma NewbornNet(b: Birth)
    ensures NetIn(b.Trace()) == 0
  {
    EventSumBirth(b, AmountReceived);
    EventSumBirth(b, AmountClaimed);
    EventSumBirth(b, AmountSettled);
  }

  // Other calls move the contract's balance by gifts alone.
  lemma {:induction false} BalanceOnOthers(w: State, a: Act, token: Address)
    requires !a.call.On?
    ensures Balance(Step(w, a).balances, token, SELF) == Balance(w.balances, token, SELF) + Gift(w, a, token)
  {
    if !a.call.Pay? && !a.call.Issue? {
      BalancesKept(w, a);
    }
  }

  lemma {:induction false} BalancesKept(w: State, a: Act)
    requires !a.call.On? && !a.call.Pay? && !a.call.Issue?
    ensures Step(w, a).balances == w.balances
  {
  }

  lemma MovedOnOthers(w: State, a: Act, token: Address)
    requires Tidy(w) && !a.call.On? && Apply(w, a.signers, a.call).Some?
    ensures Sum(PerCampaign(Step(w, a), token, NetIn)) == Sum(PerCampaign(w, token, NetIn))
  {
    if a.call.CreateCampaign? {
      var b := BirthOf(w, a.call);
      CreateOnLives(w, a.signers, a.call.id, b);
      NewbornNet(b);
      SumOnWrite(w, Step(w, a), a.call.id, b.Cell(), token, NetIn);
    } else {
      OthersKeepCells(w, a);
      assert PerCampaign(Step(w, a), token, NetIn) == PerCampaign(w, token, NetIn);
    }
  }

  // Sound entries for every campaign of every run.
  lemma RunSound(acts: seq<Act>, id: nat)
    requires id in Run(Genesis(), acts).cells
    ensures var l := LifeOf(Run(Genesis(), acts), id); Sound(l.cell) && Booked(l) && Tallied(l)
  {
    var b, tries := Decompose(acts, id);
    LivedSound(b, tries);
    LivedTallied(b, tries);
  }

  // Conservation: after every run, the contract's balance of a token is what the
  // events of its campaigns say moved in and out, plus what it was given.
  lemma {:induction false} Conservation(acts: seq<Act>, token: Address)
    ensures var w := Run(Genesis(), acts);
            Balance(w.balances, token, SELF) == Sum(PerCampaign(w, token, NetIn)) + Gifts(acts, token)
    ensures 0 <= Gifts(acts, token)
  {
    if acts == [] {
      assert PerCampaign(Genesis(), token, NetIn) == map[];
    } else {
      var init, a := acts[..|acts| - 1], acts[|acts| - 1];
      var w := Run(Genesis(), init);
      Conservation(init, token);
      NoStrayEvents(init);
      GiftNonNegative(w, a, token);
      if Apply(w, a.signers, a.call).Some? {
        if a.call.On? {
          RunSound(init, a.call.id);
          ConservedOnCommit(w, a.signers, a.call.id, a.call.op, token);
        } else {
          BalanceOnOthers(w, a, token);
          MovedOnOthers(w, a, token);
        }
      }
    }
  }

  ghost predicate TokenSolvent(w: State, token: Address) {
    Sum(OwedBy(w, token)) <= Balance(w.balances, token, SELF)
  }

  lemma OwedIsMovedPlusReconciled(acts: seq<Act>, token: Address)
    ensures var w := Run(Genesis(), acts);
            Sum(OwedBy(w, token)) == Sum(PerCampaign(w, token, NetIn)) + Sum(PerCampaign(w, token, ReconciledIn))
    ensures 0 <= Sum(PerCampaign(Run(Genesis(), acts), token, ReconciledIn))
  {
    var w := Run(Genesis(), acts);
    forall id | id in w.cells ensures Tallied(LifeOf(w, id)) {
      RunSound(acts, id);
    }
    SumPlus(PerCampaign(w, token, NetIn), PerCampaign(w, token, ReconciledIn), OwedBy(w, token));
    SumNonNegative(PerCampaign(w, token, ReconciledIn));
  }

  // Exactly when the balance covers everything owed in a token: when the
  // reconciled contributions stay within what the contract was given.
  lemma SolventIff(acts: seq<Act>, token: Address)
    ensures var w := Run(Genesis(), acts);
            TokenSolvent(w, token) <==> Sum(PerCampaign(w, token, ReconciledIn)) <= Gifts(acts, token)
  {
    Conservation(acts, token);
    OwedIsMovedPlusReconciled(acts, token);
  }

  // With fund_campaign as the only contribution path, every token is solvent
  // after every run.
  lemma {:induction false} FundOnlySolvent(acts: seq<Act>, token: Address)
    requires forall i :: 0 <= i < |acts| ==> !(acts[i].call.On? && acts[i].call.op.Receive?)
    ensures TokenSolvent(Run(Genesis(), acts), token)
  {
    var w := Run(Genesis(), acts);
    Conservation(acts, token);
    SolventIff(acts, token);
    forall id | id in w.cells ensures EventSum(Project(w.log, id), AmountReconciled) == 0 {
      NothingReconciled(acts, id);
    }
    SumOfZeros(PerCampaign(w, token, ReconciledIn));
  }

  lemma SumOfZeros<K>(m: map<K, int>)
    requires forall k :: k in m ==> m[k] == 0
    ensures Sum(m) == 0
  {
  }

  lemma {:induction false} NothingReconciled(acts: seq<Act>, id: nat)
    requires forall i :: 0 <= i < |acts| ==> !(acts[i].call.On? && acts[i].call.op.Receive?)
    ensures EventSum(Project(Run(Genesis(), acts).log, id), AmountReconciled) == 0
  {
    if acts != [] {
      var init, a := acts[..|acts| - 1], acts[|acts| - 1];
      var w := Run(Genesis(), init);
      NothingReconciled(init, id);
      NoStrayEvents(init);
      if Apply(w, a.signers, a.call).Some? {
        if a.call.On? {
          var c, e := w.cells[a.call.id], EnvOf(w, a.signers, a.call.id);
          var x := Attempt(c, e, a.call.op).value;
          CommitOnLives(w, a.call.id, x);
          OnlyReceiveReconciles(c, e, a.call.op);
          EventSumStep(Project(w.log, a.call.id), x.events, AmountReconciled);
        } else if a.call.CreateCampaign? {
          CreateOnLives(w, a.signers, a.call.id, BirthOf(w, a.call));
          EventSumBirth(BirthOf(w, a.call), AmountReconciled);
        } else {
          OthersKeepCells(w, a);
        }
      }
    }
  }

  lemma OnlyReceiveReconciles(c: Cell, e: Env, op: Op)
    requires Attempt(c, e, op).Some? && !op.Receive?
    ensures var ev := Attempt(c, e, op).value.events;
            && (|ev| == 1 || |ev| == 2)
            && forall i :: 0 <= i < |ev| ==> AmountReconciled(ev[i]) == 0
  {
  }

  // ------------------------------------------------------------ payouts are never blocked

  lemma OwedWithinBalance(acts: seq<Act>, id: nat)
    requires var w := Run(Genesis(), acts); id in w.cells && TokenSolvent(w, w.cells[id].campaign.token)
    ensures var w := Run(Genesis(), acts);
            && 0 <= w.cells[id].Held() <= Owed(LifeOf(w, id))
            && Owed(LifeOf(w, id)) <= Balance(w.balances, w.cells[id].campaign.token, SELF)
  {
    var w := Run(Genesis(), acts);
    var token := w.cells[id].campaign.token;
    forall j | j in w.cells ensures 0 <= Owed(LifeOf(w, j)) && w.cells[j].Held() <= Owed(LifeOf(w, j)) {
      RunSound(acts, j);
      OwedCoversHeld(LifeOf(w, j));
    }
    RunSound(acts, id);
    OwedCoversHeld(LifeOf(w, id));
    PartOfSum(OwedBy(w, token), id);
  }

  // In a solvent token, a settlement or claim that passes the contract's own
  // checks never lacks funds, and a funding transfer that goes through never
  // trips the solvency check.
  lemma {:induction false} PayoutsNeverLackFunds(acts: seq<Act>, signers: Signers, id: nat, op: Op)
    requires var w := Run(Genesis(), acts);
             && id in w.cells && TokenSolvent(w, w.cells[id].campaign.token)
             && Attempt(w.cells[id], EnvOf(w, signers, id), op).Some? && !op.Receive?
    ensures var w := Run(Genesis(), acts);
            var x := Attempt(w.cells[id], EnvOf(w, signers, id), op).value;
            var moved := Move(w.balances, w.cells[id].campaign.token, x.transfer);
            && (!op.Fund? ==> moved.Some?)
            && (moved.Some? && x.checkSolvency ==> Solvent(x.cell, moved.value))
  {
    var w := Run(Genesis(), acts);
    RunSound(acts, id);
    OwedWithinBalance(acts, id);
    OwedAfter(LifeOf(w, id), EnvOf(w, signers, id), op);
    TransferShape(w.cells[id], EnvOf(w, signers, id), op);
    var x := Attempt(w.cells[id], EnvOf(w, signers, id), op).value;
    if op.Fund? {
      DepositCovers(w.balances, w.cells[id].campaign.token, op.investor, op.amount, Owed(LifeOf(w, id)));
    }
  }

  // Where the balance covered what was owed, it covers what is owed after a deposit.
  lemma DepositCovers(balances: Balances, token: Address, investor: Address, amount: int, owed: int)
    requires investor != SELF && owed <= Balance(balances, token, SELF)
    ensures var moved := Move(balances, token, Transfer(investor, SELF, amount));
            moved.Some? ==> owed + amount <= Balance(moved.value, token, SELF)
  {
  }

  // What a step leaves held and owed, and how the amount owed changes.
  lemma {:induction false} OwedAfter(l: Life, e: Env, op: Op)
    requires Sound(l.cell) && Booked(l) && Tallied(l) && Attempt(l.cell, e, op).Some?
    ensures var x := Attempt(l.cell, e, op).value;
            var owed' := Owed(Advance(l, Try(e, op)));
            && x.events != []
            && (var last := x.events[|x.events| - 1];
                && 0 <= x.cell.Held() <= owed'
                && owed' == Owed(l) + AmountReceived(last) + AmountReconciled(last)
                            - AmountClaimed(last) - AmountSettled(last))
  {
    var ev := Attempt(l.cell, e, op).value.events;
    SoundStep(l.cell, e, op);
    BookedStep(l, e, op);
    TalliedStep(l, e, op);
    OwedCoversHeld(Advance(l, Try(e, op)));
    StepAmounts(l.cell, e, op);
    EventsCount(l.trace, ev);
  }

  lemma TransferShape(c: Cell, e: Env, op: Op)
    requires Attempt(c, e, op).Some? && !op.Receive?
    ensures var x := Attempt(c, e, op).value;
            var last := x.events[|x.events| - 1];
            && x.events != []
            && (op.Fund? <==> x.checkSolvency)
            && (op.Fund? ==> x.transfer == Transfer(op.investor, SELF, op.amount) && op.investor != SELF
                             && AmountReceived(last) == op.amount
                             && AmountReconciled(last) == AmountClaimed(last) == AmountSettled(last) == 0)
            && (!op.Fund? ==> AmountReceived(last) == AmountReconciled(last) == 0
                              && (x.transfer.Transfer? ==>
                                    && x.transfer.from == SELF
                                    && x.transfer.amount == AmountClaimed(last) + AmountSettled(last)))
  {
  }
}
