// The token balances over whole runs: nothing appears or disappears, nobody owes, and
// nobody's tokens move without a signature.

module Tokens {
  import opened EscrowTypes
  import opened Campaigns
  import opened Chain
  import opened Sums

  // The balances of one token.
  ghost function HoldersOf(b: Balances, token: Address): map<(Address, Address), int> {
    map k | k in b && k.0 == token :: b[k]
  }

  ghost function Supply(b: Balances, token: Address): int {
    Sum(HoldersOf(b, token))
  }

  // What has been issued to whomever.
  function Issued(acts: seq<Act>, token: Address): int {
    if acts == [] then 0
    else
      var call := acts[|acts| - 1].call;
      Issued(acts[..|acts| - 1], token) + if call.Issue? && call.token == token then call.amount else 0
  }

  lemma {:induction false} CreditAdds(b: Balances, tk: Address, holder: Address, amount: int, token: Address)
    ensures Supply(Credit(b, tk, holder, amount), token) == Supply(b, token) + if tk == token then amount else 0
  {
    var after := HoldersOf(Credit(b, tk, holder, amount), token);
    if tk == token {
      SumUpdate(HoldersOf(b, token), (tk, holder), Balance(b, tk, holder) + amount);
      assert after == HoldersOf(b, token)[(tk, holder) := Balance(b, tk, holder) + amount];
    } else {
      assert after == HoldersOf(b, token);
    }
  }

  lemma {:induction false} MoveKeeps(b: Balances, tk: Address, t: Transfer, token: Address)
    requires Move(b, tk, t).Some?
    ensures Supply(Move(b, tk, t).value, token) == Supply(b, token)
  {
    if t.Transfer? {
      CreditAdds(b, tk, t.from, -t.amount, token);
      CreditAdds(Credit(b, tk, t.from, -t.amount), tk, t.to, t.amount, token);
    }
  }

  // All holders of a token together have exactly what has been issued of it.
  lemma {:induction false} SupplyIsIssued(acts: seq<Act>, token: Address)
    ensures Supply(Run(Genesis(), acts).balances, token) == Issued(acts, token)
  {
    if acts == [] {
      assert HoldersOf(map[], token) == map[];
    } else {
      var w, a := Run(Genesis(), acts[..|acts| - 1]), acts[|acts| - 1];
      SupplyIsIssued(acts[..|acts| - 1], token);
      SupplyStep(w, a, token);
    }
  }

  lemma {:induction false} SupplyStep(w: State, a: Act, token: Address)
    ensures Supply(Step(w, a).balances, token)
         == Supply(w.balances, token) + if a.call.Issue? && a.call.token == token then a.call.amount else 0
  {
    if Apply(w, a.signers, a.call).Some? {
      match a.call {
        case On(id, op) =>
          var x := Attempt(w.cells[id], EnvOf(w, a.signers, id), op).value;
          MoveKeeps(w.balances, x.cell.campaign.token, x.transfer, token);
        case Pay(tk, from, to, amount) => MoveKeeps(w.balances, tk, Transfer(from, to, amount), token);
        case Issue(tk, to, amount) => CreditAdds(w.balances, tk, to, amount, token);
        case _ =>
      }
    }
  }

  // A step moves a positive amount, from the contract or from an investor who signed.
  lemma {:induction false} StepMoves(c: Cell, e: Env, op: Op)
    requires Attempt(c, e, op).Some?
    ensures var t := Attempt(c, e, op).value.transfer;
            t.Transfer? ==> 0 < t.amount && (t.from == SELF || t.from in e.signers)
  {
  }

  // By how much a transfer changes a holder's balance.
  lemma {:induction false} MoveChanges(b: Balances, tk: Address, t: Transfer, token: Address, holder: Address)
    requires Move(b, tk, t).Some?
    ensures Balance(Move(b, tk, t).value, token, holder) == Balance(b, token, holder) +
              if t.NoTransfer? || tk != token then 0
              else (if t.to == holder then t.amount else 0) - (if t.from == holder then t.amount else 0)
    ensures t.Transfer? ==> t.amount <= Balance(b, tk, t.from)
  {
  }

  // Nobody's balance is ever negative, and none but the contract's falls without the
  // holder's signature.
  lemma {:induction false} NobodyOwes(acts: seq<Act>, token: Address, holder: Address)
    ensures 0 <= Balance(Run(Genesis(), acts).balances, token, holder)
  {
    if acts != [] {
      NobodyOwes(acts[..|acts| - 1], token, holder);
      SpentIfSigned(Run(Genesis(), acts[..|acts| - 1]), acts[|acts| - 1], token, holder);
    }
  }

  lemma {:induction false} SpentIfSigned(w: State, a: Act, token: Address, holder: Address)
    ensures var before, after := Balance(w.balances, token, holder), Balance(Step(w, a).balances, token, holder);
            && (after < before ==> 0 <= after)
            && (after < before && holder != SELF ==> holder in a.signers)
  {
    if Apply(w, a.signers, a.call).Some? {
      match a.call {
        case On(id, op) =>
          var x := Attempt(w.cells[id], EnvOf(w, a.signers, id), op).value;
          StepMoves(w.cells[id], EnvOf(w, a.signers, id), op);
          MoveChanges(w.balances, x.cell.campaign.token, x.transfer, token, holder);
        case Pay(tk, from, to, amount) => MoveChanges(w.balances, tk, Transfer(from, to, amount), token, holder);
        case _ =>
      }
    }
  }
}
