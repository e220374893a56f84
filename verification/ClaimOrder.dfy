// The order in which investors claim does not matter: payouts, slots and token
// balances depend only on who has claimed.

module ClaimOrder {
  import opened EscrowTypes
  import opened Campaigns
  import opened Accounting
  import opened Lifecycle
  import opened Chain
  import opened Solvency
  import opened Payouts
  import opened Sums

  // What an investor gets by claiming now.
  function Due(c: Cell, a: Address): int {
    if c.Slot(a) <= 0 || c.campaign.totalFunded == 0 then 0
    else TruncDiv(c.Slot(a) * Pool(c.campaign), c.campaign.totalFunded)
  }

  ghost function DueSum(c: Cell, done: set<Address>): int {
    Sum(map a | a in done :: Due(c, a))
  }

  function Zeroed(c: Cell, done: set<Address>): map<Address, int> {
    map a | a in c.slots :: if a in done && 0 < Due(c, a) then 0 else c.slots[a]
  }

  // An investor other than the contract itself.
  type Investor = a: Address | a != SELF witness SELF + "x"

  function ClaimAct(c: Cell, id: nat, a: Investor): Act {
    Act({a}, On(id, ClaimCall(c, a)))
  }

  function Claims(c: Cell, id: nat, order: seq<Investor>): seq<Act> {
    if order == [] then []
    else Claims(c, id, order[..|order| - 1]) + [ClaimAct(c, id, order[|order| - 1])]
  }

  // Balances after a set of claims: each claimant holds its due more, and the
  // contract the sum less.
  ghost predicate PaidOut(b: Balances, b1: Balances, c: Cell, done: set<Address>) {
    forall token, a {:trigger Balance(b1, token, a)} ::
      Balance(b1, token, a) == Balance(b, token, a)
        + (if token == c.campaign.token && a in done then Due(c, a) else 0)
        - (if token == c.campaign.token && a == SELF then DueSum(c, done) else 0)
  }

  // The state w1 that a set of claims on one campaign makes of w: the claimants'
  // slots are zeroed and they are paid.
  ghost predicate Outcome(w: State, w1: State, id: nat, done: set<Address>)
    requires id in w.cells
  {
    var c := w.cells[id];
    w1.cells == w.cells[id := c.(slots := Zeroed(c, done))] && PaidOut(w.balances, w1.balances, c, done)
  }

  lemma NoClaims(w: State, id: nat)
    requires id in w.cells
    ensures Outcome(w, w, id, {})
  {
    var c := w.cells[id];
    assert c.slots == Zeroed(c, {});
    assert w.cells == w.cells[id := c.(slots := Zeroed(c, {}))];
    assert (map a | a in {} :: Due(c, a)) == map[];
    assert DueSum(c, {}) == 0;
  }

  lemma DueSumAdd(c: Cell, done: set<Address>, a: Address)
    requires a !in done
    ensures DueSum(c, done + {a}) == DueSum(c, done) + Due(c, a)
  {
    var before := map b | b in done :: Due(c, b);
    assert (map b | b in done + {a} :: Due(c, b)) == before[a := Due(c, a)];
    SumUpdate(before, a, Due(c, a));
  }

  // Claims of others leave what is due to an investor as it was.
  lemma DueUnmoved(c: Cell, done: set<Address>, a: Address)
    requires a !in done
    ensures Due(c.(slots := Zeroed(c, done)), a) == Due(c, a)
  {
  }

  // A claim either pays what is due, or panics when nothing is.
  lemma ClaimEffect(c: Cell, e: Env, a: Investor)
    requires Claimable(c.campaign.status) && a in e.signers
    ensures var x := Attempt(c, e, ClaimCall(c, a));
            && (x.Some? <==> 0 < Due(c, a))
            && (x.Some? ==> x.value.cell == c.(slots := c.slots[a := 0])
                            && x.value.transfer == Transfer(SELF, a, Due(c, a))
                            && x.value.notice == Silent && !x.value.checkSolvency)
  {
  }

  lemma DueSumOne(c: Cell, a: Address)
    ensures DueSum(c, {a}) == Due(c, a)
  {
    var none: set<Address> := {};
    DueSumAdd(c, none, a);
    assert none + {a} == {a};
    assert (map b | b in none :: Due(c, b)) == map[];
  }

  lemma TransferPays(b: Balances, b1: Balances, c: Cell, a: Investor, done: set<Address>)
    requires done == {a}
    requires Move(b, c.campaign.token, Transfer(SELF, a, Due(c, a))) == Some(b1)
    ensures PaidOut(b, b1, c, done)
  {
    var tk, d := c.campaign.token, Due(c, a);
    DueSumOne(c, a);
    forall token, h
      ensures Balance(b1, token, h) == Balance(b, token, h)
                + (if token == c.campaign.token && h in done then Due(c, h) else 0)
                - (if token == c.campaign.token && h == SELF then DueSum(c, done) else 0)
    {
      CreditBalance(b, tk, SELF, -d, token, h);
      CreditBalance(Credit(b, tk, SELF, -d), tk, a, d, token, h);
    }
  }

  lemma CreditBalance(b: Balances, tk: Address, holder: Address, amount: int, token: Address, h: Address)
    ensures Balance(Credit(b, tk, holder, amount), token, h)
         == Balance(b, token, h) + if token == tk && h == holder then amount else 0
  {
  }

  lemma ClaimCommits(w: State, id: nat, a: Investor)
    requires id in w.cells && Claimable(w.cells[id].campaign.status) && 0 < Due(w.cells[id], a)
    requires var c := w.cells[id]; Move(w.balances, c.campaign.token, Transfer(SELF, a, Due(c, a))).Some?
    ensures Outcome(w, Step(w, ClaimAct(w.cells[id], id, a)), id, {a})
  {
    var c := w.cells[id];
    ClaimEffect(c, EnvOf(w, {a}, id), a);
    TransferPays(w.balances, Step(w, ClaimAct(c, id, a)).balances, c, a, {a});
    assert c.slots[a := 0] == Zeroed(c, {a});
  }

  lemma ClaimPanics(w: State, id: nat, a: Investor)
    requires id in w.cells && Claimable(w.cells[id].campaign.status) && Due(w.cells[id], a) == 0
    ensures Outcome(w, Step(w, ClaimAct(w.cells[id], id, a)), id, {a})
  {
    var c := w.cells[id];
    ClaimEffect(c, EnvOf(w, {a}, id), a);
    DueSumOne(c, a);
    assert c.slots == Zeroed(c, {a});
    assert w.cells == w.cells[id := c.(slots := Zeroed(c, {a}))];
  }

  // One more claim on a reachable, solvent state.
  lemma {:induction false} OneMoreClaim(acts: seq<Act>, id: nat, a: Investor)
    requires var w := Run(Genesis(), acts);
             id in w.cells && Claimable(w.cells[id].campaign.status) && TokenSolvent(w, w.cells[id].campaign.token)
    ensures var w := Run(Genesis(), acts);
            Outcome(w, Step(w, ClaimAct(w.cells[id], id, a)), id, {a})
  {
    var w := Run(Genesis(), acts);
    RunSound(acts, id);
    if 0 < Due(w.cells[id], a) {
      ClaimEffect(w.cells[id], EnvOf(w, {a}, id), a);
      PayoutsNeverLackFunds(acts, {a}, id, ClaimCall(w.cells[id], a));
      ClaimCommits(w, id, a);
    } else {
      DueNonNegative(w.cells[id], a);
      ClaimPanics(w, id, a);
    }
  }

  lemma DueNonNegative(c: Cell, a: Address)
    requires Sound(c)
    ensures 0 <= Due(c, a)
  {
  }

  lemma ZeroedCompose(c: Cell, done: set<Address>, a: Investor)
    requires a !in done
    ensures Zeroed(c.(slots := Zeroed(c, done)), {a}) == Zeroed(c, done + {a})
  {
  }

  lemma PaidCompose(b: Balances, b1: Balances, b2: Balances, c: Cell, done: set<Address>, a: Investor)
    requires a !in done && PaidOut(b, b1, c, done) && PaidOut(b1, b2, c.(slots := Zeroed(c, done)), {a})
    ensures PaidOut(b, b2, c, done + {a})
  {
    DueUnmoved(c, done, a);
    DueSumAdd(c, done, a);
    DueSumOne(c.(slots := Zeroed(c, done)), a);
    forall token, h
      ensures Balance(b2, token, h) == Balance(b, token, h)
                + (if token == c.campaign.token && h in done + {a} then Due(c, h) else 0)
                - (if token == c.campaign.token && h == SELF then DueSum(c, done + {a}) else 0)
    {
      assert Balance(b2, token, h) - Balance(b1, token, h) ==
               (if token == c.campaign.token && h == a then Due(c, a) else 0)
               - (if token == c.campaign.token && h == SELF then Due(c, a) else 0);
    }
  }

  // Outcomes of disjoint sets of claims compose.
  lemma OutcomesCompose(w: State, w1: State, w2: State, id: nat, done: set<Address>, a: Investor)
    requires id in w.cells && Outcome(w, w1, id, done) && a !in done && id in w1.cells && Outcome(w1, w2, id, {a})
    ensures Outcome(w, w2, id, done + {a})
  {
    ZeroedCompose(w.cells[id], done, a);
    PaidCompose(w.balances, w1.balances, w2.balances, w.cells[id], done, a);
  }

  function Members(order: seq<Investor>): set<Address> {
    set a: Address | a in order
  }

  // A state in which claims on the campaign are open and the token is solvent.
  ghost predicate ClaimsOpen(acts: seq<Act>, id: nat) {
    var w := Run(Genesis(), acts);
    id in w.cells && Claimable(w.cells[id].campaign.status) && TokenSolvent(w, w.cells[id].campaign.token)
  }

  // A list of claims zeroes and pays its members, whatever the order.
  lemma {:induction false} ClaimsOutcome(acts: seq<Act>, id: nat, c: Cell, order: seq<Investor>)
    requires ClaimsOpen(acts, id) && Distinct(order) && c == Run(Genesis(), acts).cells[id]
    ensures Outcome(Run(Genesis(), acts), Run(Genesis(), acts + Claims(c, id, order)), id, Members(order))
    ensures ClaimsOpen(acts + Claims(c, id, order), id)
  {
    var w := Run(Genesis(), acts);
    if order == [] {
      assert acts + Claims(c, id, order) == acts;
      assert Members(order) == {};
      NoClaims(w, id);
    } else {
      var init, a := order[..|order| - 1], order[|order| - 1];
      ClaimsOutcome(acts, id, c, init);
      var before := acts + Claims(c, id, init);
      var w1 := Run(Genesis(), before);
      assert acts + Claims(c, id, order) == before + [ClaimAct(c, id, a)];
      RunSnoc(before, ClaimAct(c, id, a));
      assert ClaimAct(w1.cells[id], id, a) == ClaimAct(c, id, a);
      SolventKept(before, ClaimAct(c, id, a), c.campaign.token);
      OneMoreClaim(before, id, a);
      assert a !in Members(init);
      OutcomesCompose(w, w1, Step(w1, ClaimAct(c, id, a)), id, Members(init), a);
      assert Members(order) == Members(init) + {a};
    }
  }

  lemma SameOutcome(w: State, w1: State, w2: State, id: nat, done: set<Address>)
    requires id in w.cells && Outcome(w, w1, id, done) && Outcome(w, w2, id, done)
    ensures w1.cells == w2.cells
    ensures forall token, a :: Balance(w1.balances, token, a) == Balance(w2.balances, token, a)
  {
  }

  // Two orders of the same claims end with the same entries and balances.
  lemma ClaimsCommute(acts: seq<Act>, id: nat, c: Cell, one: seq<Investor>, two: seq<Investor>)
    requires ClaimsOpen(acts, id) && c == Run(Genesis(), acts).cells[id]
    requires Distinct(one) && Distinct(two) && Members(one) == Members(two)
    ensures var w1, w2 := Run(Genesis(), acts + Claims(c, id, one)), Run(Genesis(), acts + Claims(c, id, two));
            && w1.cells == w2.cells
            && forall token, a :: Balance(w1.balances, token, a) == Balance(w2.balances, token, a)
  {
    ClaimsOutcome(acts, id, c, one);
    ClaimsOutcome(acts, id, c, two);
    SameOutcome(Run(Genesis(), acts), Run(Genesis(), acts + Claims(c, id, one)),
                Run(Genesis(), acts + Claims(c, id, two)), id, Members(one));
  }
}
