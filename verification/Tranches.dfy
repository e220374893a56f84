// Milestone releases: which release a configured tranche list admits.

module Tranches {
  import opened EscrowTypes
  import opened Campaigns
  import opened Accounting

  function Unreleased(ts: seq<Tranche>): multiset<int> {
    if ts == [] then multiset{}
    else (if ts[0].released then multiset{} else multiset{ts[0].amount}) + Unreleased(ts[1..])
  }

  function UnreleasedSum(ts: seq<Tranche>): int {
    if ts == [] then 0 else (if ts[0].released then 0 else ts[0].amount) + UnreleasedSum(ts[1..])
  }

  function Flagged(ts: seq<Tranche>): int {
    if ts == [] then 0 else (if ts[0].released then ts[0].amount else 0) + Flagged(ts[1..])
  }

  ghost predicate Matches(t: Tranche, amount: int) { !t.released && t.amount == amount }

  // Releasing an amount flags the earliest unreleased tranche of that amount and
  // nothing else, and fails exactly when there is none.
  lemma {:induction false} MarkFirstMatch(ts: seq<Tranche>, amount: int)
    ensures MarkFirst(ts, amount).None? <==> forall j :: 0 <= j < |ts| ==> !Matches(ts[j], amount)
    ensures MarkFirst(ts, amount).Some? ==>
              exists i :: 0 <= i < |ts| && Matches(ts[i], amount)
                       && (forall j :: 0 <= j < i ==> !Matches(ts[j], amount))
                       && MarkFirst(ts, amount).value == ts[i := ts[i].(released := true)]
  {
    if ts != [] {
      if Matches(ts[0], amount) {
        assert MarkFirst(ts, amount).value == ts[0 := ts[0].(released := true)];
      } else {
        MarkFirstMatch(ts[1..], amount);
        if MarkFirst(ts[1..], amount).Some? {
          var i :| 0 <= i < |ts[1..]| && Matches(ts[1..][i], amount)
                   && (forall j :: 0 <= j < i ==> !Matches(ts[1..][j], amount))
                   && MarkFirst(ts[1..], amount).value == ts[1..][i := ts[1..][i].(released := true)];
          assert MarkFirst(ts, amount).value == ts[i + 1 := ts[i + 1].(released := true)];
          forall j | 0 <= j < i + 1 ensures !Matches(ts[j], amount) {
            if j > 0 { assert ts[j] == ts[1..][j - 1]; }
          }
        } else {
          forall j | 0 <= j < |ts| ensures !Matches(ts[j], amount) {
            if j > 0 { assert ts[j] == ts[1..][j - 1]; }
          }
        }
      }
    }
  }

  // In terms of the multiset of amounts still unreleased: a release takes one
  // occurrence out, and succeeds exactly when there is one.
  lemma {:induction false} MarkFirstAmounts(ts: seq<Tranche>, amount: int)
    ensures MarkFirst(ts, amount).Some? <==> amount in Unreleased(ts)
    ensures MarkFirst(ts, amount).Some? ==>
              var ms := MarkFirst(ts, amount).value;
              && ms != [] && Unreleased(ms) == Unreleased(ts) - multiset{amount}
              && UnreleasedSum(ms) == UnreleasedSum(ts) - amount
              && Flagged(ms) == Flagged(ts) + amount
  {
    if ts != [] && !Matches(ts[0], amount) {
      MarkFirstAmounts(ts[1..], amount);
      if MarkFirst(ts[1..], amount).Some? {
        var rest := MarkFirst(ts[1..], amount).value;
        assert ([ts[0]] + rest)[1..] == rest;
      }
    } else if ts != [] {
      var ms := [ts[0].(released := true)] + ts[1..];
      assert ms[1..] == ts[1..];
    }
  }

  // A configured list is positive, and what it still allows is covered by funds.
  ghost predicate Backed(c: Cell) {
    Producing(c.campaign.status) && c.tranches != [] ==>
      && (forall i :: 0 <= i < |c.tranches| ==> 0 < c.tranches[i].amount)
      && UnreleasedSum(c.tranches) + c.campaign.released <= c.campaign.totalFunded
  }

  lemma {:induction false} UnreleasedWithinTotal(ts: seq<Tranche>)
    requires forall i :: 0 <= i < |ts| ==> 0 < ts[i].amount
    ensures UnreleasedSum(ts) <= Total(ts)
  {
    if ts != [] {
      var init, last := ts[..|ts| - 1], ts[|ts| - 1];
      UnreleasedWithinTotal(init);
      UnreleasedSumSnoc(init, last);
      assert ts == init + [last];
    }
  }

  lemma {:induction false} UnreleasedSumSnoc(ts: seq<Tranche>, t: Tranche)
    ensures UnreleasedSum(ts + [t]) == UnreleasedSum(ts) + if t.released then 0 else t.amount
  {
    if ts != [] {
      UnreleasedSumSnoc(ts[1..], t);
      assert (ts + [t])[1..] == ts[1..] + [t];
    } else {
      assert ([t])[1..] == [];
    }
  }

  lemma MarkFirstPositive(ts: seq<Tranche>, amount: int)
    requires MarkFirst(ts, amount).Some? && forall i :: 0 <= i < |ts| ==> 0 < ts[i].amount
    ensures forall i :: 0 <= i < |MarkFirst(ts, amount).value| ==> 0 < MarkFirst(ts, amount).value[i].amount
  {
  }

  lemma ReleaseKeeps(c: Cell, e: Env, recipient: Address, amount: int)
    requires Sound(c) && Backed(c) && ReleaseStep(c, e, recipient, amount).Some?
    ensures Sound(ReleaseStep(c, e, recipient, amount).value.cell)
    ensures Backed(ReleaseStep(c, e, recipient, amount).value.cell)
  {
    if c.tranches != [] {
      MarkFirstAmounts(c.tranches, amount);
      MarkFirstPositive(c.tranches, amount);
    }
  }

  lemma {:induction false} BackedStep(c: Cell, e: Env, op: Op)
    requires Sound(c) && Backed(c) && Attempt(c, e, op).Some?
    requires Accepting(c.campaign.status) ==> c.tranches == []
    ensures Backed(Attempt(c, e, op).value.cell)
    ensures var c' := Attempt(c, e, op).value.cell; Accepting(c'.campaign.status) ==> c'.tranches == []
  {
    match op {
      case Configure(ts) => UnreleasedWithinTotal(ts);
      case Release(recipient, amount) => ReleaseKeeps(c, e, recipient, amount);
      case _ =>
    }
  }

  // A campaign that releases tranches against a configured list.
  ghost predicate Ready(c: Cell) {
    Sound(c) && Backed(c) && Producing(c.campaign.status) && c.tranches != []
  }

  // One release: it succeeds exactly when the amount is unreleased (the escrow
  // balance never blocks it), and moves that amount from unreleased to released.
  lemma ReleaseOne(c: Cell, e: Env, recipient: Address, a: int)
    requires Ready(c) && e.AdminSigned()
    ensures ReleaseStep(c, e, recipient, a).Some? <==> a in Unreleased(c.tranches)
    ensures ReleaseStep(c, e, recipient, a).Some? ==>
              var c' := ReleaseStep(c, e, recipient, a).value.cell;
              && Ready(c')
              && c'.campaign.released == c.campaign.released + a
              && Flagged(c'.tranches) == Flagged(c.tranches) + a
              && Unreleased(c'.tranches) == Unreleased(c.tranches) - multiset{a}
  {
    MarkFirstAmounts(c.tranches, a);
    if a in Unreleased(c.tranches) {
      UnreleasedAmount(c.tranches, a);
      ReleaseKeeps(c, e, recipient, a);
    }
  }

  lemma {:induction false} UnreleasedAmount(ts: seq<Tranche>, a: int)
    requires a in Unreleased(ts) && forall i :: 0 <= i < |ts| ==> 0 < ts[i].amount
    ensures 0 < a <= UnreleasedSum(ts)
  {
    if ts[0].released || ts[0].amount != a {
      UnreleasedAmount(ts[1..], a);
    } else {
      UnreleasedSumNonNegative(ts[1..]);
    }
  }

  lemma {:induction false} UnreleasedSumNonNegative(ts: seq<Tranche>)
    requires forall i :: 0 <= i < |ts| ==> 0 < ts[i].amount
    ensures 0 <= UnreleasedSum(ts)
  {
    if ts != [] {
      UnreleasedSumNonNegative(ts[1..]);
    }
  }

  function Amounts(ts: seq<Tranche>): seq<int> {
    seq(|ts|, i requires 0 <= i < |ts| => ts[i].amount)
  }

  lemma {:induction false} AllUnreleased(ts: seq<Tranche>)
    requires forall i :: 0 <= i < |ts| ==> !ts[i].released
    ensures Unreleased(ts) == multiset(Amounts(ts)) && Flagged(ts) == 0
  {
    if ts != [] {
      AllUnreleased(ts[1..]);
      assert Amounts(ts) == [ts[0].amount] + Amounts(ts[1..]);
    } else {
      assert Amounts(ts) == [];
    }
  }

  // Every reachable campaign has a backed tranche list, so the lemma on
  // one release applies whenever it is Funded or InProduction.
  lemma {:induction false} LivedBacked(b: Birth, tries: seq<Try>)
    requires b.Valid()
    ensures Sound(Lived(b, tries).cell) && Backed(Lived(b, tries).cell)
    ensures Accepting(Lived(b, tries).cell.campaign.status) ==> Lived(b, tries).cell.tranches == []
  {
    if tries != [] {
      var c := Lived(b, tries[..|tries| - 1]).cell;
      var t := tries[|tries| - 1];
      LivedBacked(b, tries[..|tries| - 1]);
      if Attempt(c, t.env, t.op).Some? {
        SoundStep(c, t.env, t.op);
        BackedStep(c, t.env, t.op);
      }
    }
  }
}
