// Runs of the pledge pool, and the solvency of every reachable state.
module PoolRuns {
  import opened Types
  import opened Erc
  import opened Pool
  import opened PoolOps

  datatype Op =
    | OpPledge(addr: Address, s: nat, money: int)
    | OpWithdraw(payee: Payee, s: nat, j: nat, money: int, lock: int)
    | OpAddToken(taddr: Address)
    | OpOutside(w: World)

  datatype Sys = Sys(p: Pool, w: World)

  // A call that fails is undone as a whole, as a contract platform does.
  function Step(y: Sys, op: Op): (r: Sys)
    requires Coherent(y.p) && (op.OpWithdraw? && op.payee.NoPayee? ==> op.payee.err != NoError)
  {
    match op
    case OpPledge(addr, s, money) =>
      var (p, w, err) := Pledge(y.p, y.w, y.p.owner, addr, s, money);
      if err == NoError then Sys(p, w) else y
    case OpWithdraw(payee, s, j, money, lock) =>
      var (p, w, err) := Withdraw(y.p, y.w, payee, s, j, money, lock);
      if err == NoError then Sys(p, w) else y
    case OpAddToken(taddr) => Sys(AddToken(y.p, y.w, y.p.owner, taddr, y.p.token).0, y.w)
    case OpOutside(w) => Sys(y.p, w)
  }

  // What the callers guarantee. Locks are not negative; a new token is not registered yet;
  // and whatever happens outside, nobody takes money from the pool's accounts or holds an
  // allowance on them (Ledger.OthersOnlyAdd: no call by another account does).
  ghost predicate Allowed(y: Sys, op: Op) {
    match op
    case OpPledge(addr, s, money) => true
    case OpWithdraw(payee, s, j, money, lock) => 0 <= lock && (payee.NoPayee? ==> payee.err != NoError)
    case OpAddToken(taddr) => taddr !in y.p.tokens
    case OpOutside(w) =>
      && NoAllowances(w, y.p.local)
      && (forall t :: BalanceOf(y.w, t, y.p.local) <= BalanceOf(w, t, y.p.local))
  }

  ghost predicate Good(y: Sys) {
    && Inv(y.p, y.w)
    && NoAllowances(y.w, y.p.local)
    && (forall t :: 0 <= BalanceOf(y.w, t, y.p.local))
  }

  // Every step of the run is allowed in the state it is taken in.
  ghost predicate AllowedRun(y: Sys, ops: seq<Op>)
    requires Good(y)
    decreases |ops|
  {
    ops == [] || (Allowed(y, ops[0]) && (StepKeepsGood(y, ops[0]); AllowedRun(Step(y, ops[0]), ops[1..])))
  }

  ghost function Run(y: Sys, ops: seq<Op>): (z: Sys)
    requires Good(y) && AllowedRun(y, ops)
    ensures Good(z)
    decreases |ops|
  {
    if ops == [] then y
    else
      StepKeepsGood(y, ops[0]);
      Run(Step(y, ops[0]), ops[1..])
  }

  // A transfer out of the pool's own account, or into it, gives nobody an allowance on it.
  lemma TransfersKeepGuard(w: World, taddr: Address, a: Address, other: Address, money: int, caller: Address)
    requires NoAllowances(w, a) && (forall t :: 0 <= BalanceOf(w, t, a))
    ensures var (w', err) := Send(w, taddr, a, other, money);
      NoAllowances(w', a) && (forall t :: 0 <= BalanceOf(w', t, a))
    ensures var (w', err) := SendFrom(w, taddr, caller, other, a, money);
      NoAllowances(w', a) && (forall t :: 0 <= BalanceOf(w', t, a))
  {
    forall t
      ensures 0 <= BalanceOf(Send(w, taddr, a, other, money).0, t, a)
      ensures 0 <= BalanceOf(SendFrom(w, taddr, caller, other, a, money).0, t, a)
    {
      SendEffect(w, taddr, a, other, money, t, a);
      SendFromEffect(w, taddr, caller, other, a, money, t, a);
    }
  }

  lemma PledgeKeepsGood(y: Sys, addr: Address, s: nat, money: int)
    requires Good(y)
    ensures Good(Step(y, OpPledge(addr, s, money)))
  {
    hide Entries, Covered, TotalStake, Settle, Book;
    if Pledge(y.p, y.w, y.p.owner, addr, s, money).2 == NoError {
      PledgeKeepsInv(y.p, y.w, y.p.owner, addr, s, money);
      PledgeMoves(y.p, y.w, y.p.owner, addr, s, money);
      TransfersKeepGuard(y.w, y.p.tokens[0], y.p.local, addr, money, y.p.local);
    }
  }

  lemma WithdrawKeepsGood(y: Sys, op: Op)
    requires Good(y) && op.OpWithdraw? && Allowed(y, op)
    ensures Good(Step(y, op))
  {
    hide Entries, Covered, TotalStake, Settle, Book, View, Payable;
    var OpWithdraw(payee, s, j, money, lock) := op;
    WithdrawKeepsInv(y.p, y.w, payee, s, j, money, lock);
    if CanWithdraw(y.p, payee, s, j, money) {
      WithdrawResult(y.p, y.w, payee, s, j, money, lock);
      TransfersKeepGuard(y.w, y.p.tokens[j], y.p.local, payee.addr, Paid(y.p, y.w, s, j, money, lock), y.p.local);
      WithdrawMoves(y.p, y.w, payee, s, j, money, lock);
    } else {
      WithdrawRefused(y.p, y.w, payee, s, j, money, lock);
    }
  }

  lemma StepKeepsGood(y: Sys, op: Op)
    requires Good(y) && Allowed(y, op)
    ensures Good(Step(y, op))
  {
    hide Entries, Covered, TotalStake, Pledge, Withdraw;
    match op
    case OpPledge(addr, s, money) => PledgeKeepsGood(y, addr, s, money);
    case OpWithdraw(_, _, _, _, _) => WithdrawKeepsGood(y, op);
    case OpAddToken(taddr) => AddTokenKeepsInv(y.p, y.w, y.p.owner, taddr, y.p.token);
    case OpOutside(w) =>
      OutsideKeepsInv(y.p, y.w, w);
      assert forall t :: 0 <= BalanceOf(y.w, t, y.p.local) <= BalanceOf(w, t, y.p.local);
  }

  // Pool solvency: in every reachable state and for every token, everything GetBalance
  // reports, summed over all stakers, is in the pool's account.
  lemma ReachableIsSolvent(y: Sys, ops: seq<Op>, i: nat)
    requires Good(y) && AllowedRun(y, ops)
    requires i < |Run(y, ops).p.tokens|
    ensures var z := Run(y, ops);
      && Reported(z.p, z.w, i) <= Bal(z.p, z.w, i)
      && z.p.total == TotalStake(z.p)
  {
    Solvent(Run(y, ops).p, Run(y, ops).w, i);
  }

  lemma NewPoolIsGood(owner: Address, local: Address, ptoken: Address, w: World)
    requires NoAllowances(w, local) && (forall t :: 0 <= BalanceOf(w, t, local))
    ensures Good(Sys(NewPool(owner, local, ptoken, w), w))
  {
    NewPoolInv(owner, local, ptoken, w);
  }
}
