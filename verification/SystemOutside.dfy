// What the outside world may do between two calls of the role manager: token calls by accounts
// that are no contract of the system are steps that the runs of the system allow.
module SystemOutside {
  import opened Types
  import opened Erc
  import opened System
  import opened SystemRuns
  import L = Ledger

  // A call of one token by somebody who is no contract of the system.
  ghost predicate ByOutsider(y: Sys, op: L.Op) {
    !IsContract(y, op.caller) && (op.OpMint? ==> 0 <= op.value)
  }

  // Whatever an outsider calls, the contracts lose no money and give no allowance.
  lemma OutsiderIsAllowed(y: Sys, t: Address, op: L.Op)
    requires Inv(y) && t in y.w && ByOutsider(y, op)
    ensures Allowed(y, OpOutside(y.w[t := L.Step(y.w[t], op)]))
  {
    hide Inv, Guarded, L.Step, NoWorse;
    forall c | IsContract(y, c)
      ensures NoWorse(y.w, y.w[t := L.Step(y.w[t], op)], c)
    {
      InvContract(y, c);
      OutsiderNoWorse(y.w, t, op, c);
    }
  }

  lemma OutsiderNoWorse(w: World, t: Address, op: L.Op, c: Address)
    requires Guarded(w, c) && t in w && op.caller != c && (op.OpMint? ==> 0 <= op.value)
    ensures NoWorse(w, w[t := L.Step(w[t], op)], c)
  {
    hide L.Step;
    var w' := w[t := L.Step(w[t], op)];
    assert L.NoAllowance(w[t], c);
    L.OthersOnlyAdd(w[t], op, c);
    assert forall u :: u != t ==> BalanceOf(w', u, c) == BalanceOf(w, u, c);
    assert BalanceOf(w', t, c) == L.BalanceOf(L.Step(w[t], op), c);
  }

  // Creating a token, or creating one again at the address of an earlier one, replaces its
  // ledger. That is allowed if and only if no contract of the system holds the old token.
  lemma NewTokenIsAllowed(y: Sys, t: Address, admin: Address)
    requires Inv(y) && !IsContract(y, admin)
    ensures Allowed(y, OpOutside(y.w[t := L.NewLedger(t, admin)]))
            <==> forall c :: IsContract(y, c) ==> BalanceOf(y.w, t, c) == 0
  {
    hide Inv, Guarded, NoWorse, IsContract;
    var w := y.w[t := L.NewLedger(t, admin)];
    forall c | IsContract(y, c)
      ensures NoWorse(y.w, w, c) <==> BalanceOf(y.w, t, c) == 0
    {
      InvContract(y, c);
      ReplacedNoWorse(y.w, t, admin, c);
    }
  }

  lemma ReplacedNoWorse(w: World, t: Address, admin: Address, c: Address)
    requires Guarded(w, c) && admin != c
    ensures NoWorse(w, w[t := L.NewLedger(t, admin)], c) <==> BalanceOf(w, t, c) == 0
  {
    var w' := w[t := L.NewLedger(t, admin)];
    assert BalanceOf(w', t, c) == 0;
    assert forall u :: u != t ==> BalanceOf(w', u, c) == BalanceOf(w, u, c);
  }
}
