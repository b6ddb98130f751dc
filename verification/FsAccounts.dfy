// The statement of account of every index, over runs of the storage manager with nothing undone:
// what it paid in and was credited is what it was paid out and has left.
module FsAccounts {
  import opened Types
  import opened Erc
  import opened Fs
  import opened FsRecords
  import opened FsRuns
  import opened FsEffects
  import opened FsCounts
  import H = FsHistories
  import S = Settlements

  // What the contract's own account in the token of k gains by a call.
  ghost function OwnGain(y: Sys, now: u64, op: Op, k: MultiKey): int {
    if k.token < |y.tokens|
    then BalanceOf(Step(y, now, op).w, y.tokens[k.token], y.f.local) - BalanceOf(y.w, y.tokens[k.token], y.f.local)
    else 0
  }

  // What the index of k pays in by a call,
  ghost function PaidIn(y: Sys, now: u64, op: Op, k: MultiKey): int {
    if op.OpRecharge? && k == MultiKey(op.index, op.t) then OwnGain(y, now, op, k) else 0
  }

  // is paid out,
  ghost function PaidOut(y: Sys, now: u64, op: Op, k: MultiKey): int {
    if (op.OpWithdraw? && k == MultiKey(op.index, op.t)) || (op.OpProWithdraw? && k == MultiKey(op.pro, op.t))
    then -OwnGain(y, now, op, k) else 0
  }

  // spends as a user on an order, less what it gets as the foundation,
  ghost function Spent(y: Sys, op: Op, k: MultiKey): int {
    if op.OpAddOrder? && Adds(y, op, op.user, op.pro) && k.token == op.t
    then (if k.role == op.user then CostOf(op.start, op.end, op.sprice) else 0)
         - (if k.role == y.f.foundation then PriceOf(op.start, op.end, op.sprice) / 100 else 0)
    else 0
  }

  // and gets as a keeper.
  ghost function Shared(y: Sys, now: u64, op: Op, k: MultiKey): int {
    if op.OpWithdraw? && Distributes(y.f, now, op.info, op.amount) && 0 < y.f.totalCount && k.token in y.f.tokens
    then Part(y.f, k.role, k.token) else 0
  }

  // What the provider of k has claimed so far.
  function Claimed(f: Fs, k: MultiKey): int {
    SettlementOf(f, k).hasPaid
  }

  ghost predicate Balanced(y: Sys, now: u64, op: Op, k: MultiKey) {
    var z := Step(y, now, op);
    Get(z.f.balance, k) + PaidOut(y, now, op, k) - Claimed(z.f, k)
    == Get(y.f.balance, k) + PaidIn(y, now, op, k) + Shared(y, now, op, k) - Spent(y, op, k) - Claimed(y.f, k)
  }

  lemma ClaimedMoves(y: Sys, now: u64, op: Op, k: MultiKey)
    ensures Claimed(Step(y, now, op).f, k) == Claimed(y.f, k)
              + if op.OpProWithdraw? && k == MultiKey(op.pro, op.t) && Accepts(y.f, now, k, op.pay, op.lost)
                then op.pay - Claimed(y.f, k) else 0
  {
    hide Step, AddOrder, SubOrder, PayOf, S.EndFee, S.Calc, S.Linear, Accepts;
    H.StepMoves(y, now, op, k);
    if op.OpProWithdraw? && k == MultiKey(op.pro, op.t) {
      if k in y.f.proInfo {
        ClaimEffect(y.f, now, k, op.pay, op.lost);
        ClaimBooks(y.f, now, k, op.pay, op.lost);
      } else {
        NotAccepted(y.f, now, k, op.pay, op.lost);
      }
    }
  }

  lemma ClaimBooks(f: Fs, now: u64, k: MultiKey, pay: int, lost: int)
    requires k in f.proInfo
    ensures k in Claim(f, now, k, pay, lost).0.proInfo
    ensures Claim(f, now, k, pay, lost).0.proInfo[k] == H.Paid(f.proInfo[k], now, pay, lost)
  {
    hide S.Calc, S.Linear;
  }

  lemma OrderBalances(y: Sys, now: u64, op: Op, k: MultiKey)
    requires Good(y) && (op.OpAddOrder? || op.OpSubOrder?)
    ensures Balanced(y, now, op, k)
  {
    hide Inv, AddOrder, SubOrder, Claimed, CostOf, PriceOf, RecordsMove, Counts, PotMoves, SameRecordsAs, NonceOf,
      SubNonceOf, RecordOf;
    ClaimedMoves(y, now, op, k);
    if op.OpAddOrder? {
      AddOrderEffect(y.f, y.f.owner, op.kindex, op.user, op.pro, op.start, op.end, op.size, op.nonce, op.t, op.sprice);
    } else {
      SubOrderEffect(y.f, y.f.owner, now, op.kindex, op.user, op.pro, op.start, op.end, op.size, op.nonce, op.t,
                     op.sprice);
    }
  }

  lemma DepositBalances(y: Sys, now: u64, op: Op, k: MultiKey)
    requires Allowed(y, op) && op.OpRecharge?
    ensures Balanced(y, now, op, k)
  {
    hide Recharge, CanTake, TakeError, Claimed, SamePots, SameCounts;
    ClaimedMoves(y, now, op, k);
    if op.t < |y.tokens| {
      RechargeEffect(y.f, y.w, y.f.owner, op.addr, op.index, y.tokens, op.t, op.money, y.tokens[op.t], y.f.local);
    } else {
      RechargeEffect(y.f, y.w, y.f.owner, op.addr, op.index, y.tokens, op.t, op.money, y.f.local, y.f.local);
    }
  }

  lemma PayoutBalances(y: Sys, now: u64, op: Op, k: MultiKey)
    requires Good(y) && Allowed(y, op) && Answered(op) && (op.OpWithdraw? || op.OpProWithdraw?)
    ensures Balanced(y, now, op, k)
  {
    hide Inv, Withdraw, ProWithdraw, CanPay, PayError, SameCounts, Part, Distributes, Accepts;
    ClaimedMoves(y, now, op, k);
    var tk := if op.t < |y.tokens| then y.tokens[op.t] else y.f.local;
    match op
    case OpWithdraw(info, index, t, amount) =>
      WithdrawEffect(y.f, y.w, now, info, index, y.tokens, t, amount, k, tk, y.f.local);
    case OpProWithdraw(info, pro, t, pay, lost) =>
      ProWithdrawEffect(y.f, y.w, now, info, pro, y.tokens, t, pay, lost, k, tk, y.f.local);
      AcceptedKey(y.f, now, MultiKey(pro, t), pay, lost);
  }

  lemma AcceptedKey(f: Fs, now: u64, k: MultiKey, pay: int, lost: int)
    ensures Accepts(f, now, k, pay, lost) ==> k in f.proInfo
  {
  }

  // The role manager names an error when it does not know an index.
  predicate Answered(op: Op) {
    && (op.OpWithdraw? && op.info.NoInfo? ==> op.info.err != NoError)
    && (op.OpProWithdraw? && op.info.NoInfo? ==> op.info.err != NoError)
  }

  lemma OthersBalance(y: Sys, now: u64, op: Op, k: MultiKey)
    requires op.OpAddKeeper? || op.OpCreateFs? || op.OpRegisterToken? || op.OpOutside?
    ensures Balanced(y, now, op, k)
  {
  }

  lemma StepBalances(y: Sys, now: u64, op: Op, k: MultiKey)
    requires Good(y) && Allowed(y, op) && Answered(op)
    ensures Balanced(y, now, op, k)
  {
    hide Good, Allowed, Answered, Balanced;
    if op.OpAddOrder? || op.OpSubOrder? {
      OrderBalances(y, now, op, k);
    } else if op.OpRecharge? {
      DepositBalances(y, now, op, k);
    } else if op.OpWithdraw? || op.OpProWithdraw? {
      PayoutBalances(y, now, op, k);
    } else {
      OthersBalance(y, now, op, k);
    }
  }

  // ---------- Runs ----------

  ghost predicate AnsweredRun(ops: seq<Timed>) {
    forall o :: o in ops ==> Answered(o.op)
  }

  ghost function TotalIn(y: Sys, ops: seq<Timed>, k: MultiKey): int
    decreases |ops|
  {
    if ops == [] then 0
    else PaidIn(y, ops[0].now, ops[0].op, k) + TotalIn(Step(y, ops[0].now, ops[0].op), ops[1..], k)
  }

  ghost function TotalOut(y: Sys, ops: seq<Timed>, k: MultiKey): int
    decreases |ops|
  {
    if ops == [] then 0
    else PaidOut(y, ops[0].now, ops[0].op, k) + TotalOut(Step(y, ops[0].now, ops[0].op), ops[1..], k)
  }

  ghost function TotalSpent(y: Sys, ops: seq<Timed>, k: MultiKey): int
    decreases |ops|
  {
    if ops == [] then 0 else Spent(y, ops[0].op, k) + TotalSpent(Step(y, ops[0].now, ops[0].op), ops[1..], k)
  }

  ghost function TotalShared(y: Sys, ops: seq<Timed>, k: MultiKey): int
    decreases |ops|
  {
    if ops == [] then 0
    else Shared(y, ops[0].now, ops[0].op, k) + TotalShared(Step(y, ops[0].now, ops[0].op), ops[1..], k)
  }

  // Over every run and for every index and token: what the contract's account paid out for the
  // index, and what is left of its balance, is what it had, what it paid in, what its claims as a
  // provider came to and its shares as a keeper, less what its orders cost as a user, with the
  // hundredths for the foundation.
  lemma {:induction false} AccountsBalance(y: Sys, ops: seq<Timed>, k: MultiKey)
    requires Good(y) && AllowedRun(y, ops) && AnsweredRun(ops)
    ensures var z := Run(y, ops);
      TotalOut(y, ops, k) + Get(z.f.balance, k)
      == Get(y.f.balance, k) + TotalIn(y, ops, k) + (Claimed(z.f, k) - Claimed(y.f, k)) + TotalShared(y, ops, k)
         - TotalSpent(y, ops, k)
    decreases |ops|
  {
    hide Good, Allowed, Answered, Step, Claimed, PaidIn, PaidOut, Spent, Shared;
    if ops == [] {
    } else {
      StepKeepsGood(y, ops[0].now, ops[0].op);
      StepBalances(y, ops[0].now, ops[0].op, k);
      AccountsBalance(Step(y, ops[0].now, ops[0].op), ops[1..], k);
    }
  }

  // A provider that is neither keeper nor foundation and orders nothing is paid what it claims: no
  // more, and what it was not paid is its balance.
  lemma ProviderIsPaid(owner: Address, local: Address, foundation: nat, now: u64, w: World, tokens: seq<Address>,
                       ops: seq<Timed>, k: MultiKey)
    requires Distinct(tokens)
    requires var y := Sys(NewFs(owner, local, foundation, now), w, tokens);
      && AllowedRun(y, ops) && AnsweredRun(ops)
      && TotalIn(y, ops, k) == TotalShared(y, ops, k) == TotalSpent(y, ops, k) == 0
    ensures var y := Sys(NewFs(owner, local, foundation, now), w, tokens);
      TotalOut(y, ops, k) + Get(Run(y, ops).f.balance, k) == Claimed(Run(y, ops).f, k)
  {
    hide Run, AllowedRun, AnsweredRun, TotalIn, TotalOut, TotalShared, TotalSpent, Inv;
    NewFsGood(Sys(NewFs(owner, local, foundation, now), w, tokens));
    AccountsBalance(Sys(NewFs(owner, local, foundation, now), w, tokens), ops, k);
  }
}
