// Runs of the whole system as the code performs them: a failing call leaves behind whatever it
// had changed. All but one kind of failure keep every contract sound.
module SystemRaw {
  import opened Types
  import opened Erc
  import opened System
  import opened SystemRuns
  import P = Pool
  import PO = PoolOps
  import R = Registry
  import M = FsMoney

  // The state that a call leaves behind, failed or not.
  function After(y: Sys, now: u64, op: Op): Sys
    requires Shape(y)
  {
    Do(y, now, op).0
  }

  // ---------- A failing pledge ----------

  // Who pays for a pledge, and the ledgers after the approval.
  function Payer(y: Sys, caller: Address, index: nat): Address
    requires index < |y.reg.addrs|
  {
    if caller == y.reg.admin then y.reg.local else y.reg.addrs[index]
  }

  function WorldFor(y: Sys, caller: Address, money: int): World
    requires 0 < |y.reg.tokens|
  {
    if caller == y.reg.admin then Approved(y.w, y.reg.tokens[0], y.reg.local, y.pool.owner, money) else y.w
  }

  // The pledge passes all checks, and its transfer fails.
  predicate FailsAtTransfer(y: Sys, op: Op)
    requires Shape(y)
  {
    && op.OpPledge? && 0 <= op.money && 0 < |y.reg.tokens|
    && R.InfoError(y.reg, op.index) == NoError
    && (if op.caller == y.reg.admin then y.reg.tokens[0] in y.w else op.caller == y.reg.addrs[op.index])
    && NoError != P.Pledge(y.pool, WorldFor(y, op.caller, op.money), y.reg.local, Payer(y, op.caller, op.index),
                           op.index, op.money).2
  }

  // A reward of the staker in the main token is waiting to be settled.
  ghost predicate RewardWaits(y: Sys, index: nat)
    requires Inv(y)
  {
    PoolParts(y);
    P.View(y.pool, y.w, index, 0) != P.Stake(y.pool, index)
  }

  lemma PoolParts(y: Sys)
    requires Inv(y)
    ensures Shape(y) && P.Coherent(y.pool) && 0 < |y.pool.tokens| == |y.reg.tokens| && 0 in y.pool.tInfo
    ensures y.pool.owner == y.reg.local && P.Inv(y.pool, y.w)
  {
    hide R.Coherent, P.Inv;
    InvReg(y);
    PO.PoolShape(y.pool, y.w, 0);
  }

  // What a pledge leaves behind when its transfer fails.
  lemma FailedPledgeLeaves(y: Sys, now: u64, op: Op)
    requires Shape(y) && FailsAtTransfer(y, op) && y.pool.owner == y.reg.local
    ensures var w := WorldFor(y, op.caller, op.money);
      var (pool, w', err) := P.Pledge(y.pool, w, y.reg.local, Payer(y, op.caller, op.index), op.index, op.money);
      && After(y, now, op) == y.(pool := pool, w := w')
      && err != NoError && Do(y, now, op).1 != NoError
  {
    hide P.Coherent, P.Pledge, Approved, R.InfoError;
  }

  lemma FailedPledgeKeeps(y: Sys, now: u64, op: Op)
    requires Inv(y) && Shape(y) && FailsAtTransfer(y, op)
    ensures Inv(After(y, now, op)) <==> !RewardWaits(y, op.index)
  {
    hide Inv, After, Do, P.Coherent, P.Inv, P.Pledge, P.View, P.Stake, Approved, R.Coherent, Guarded;
    PoolParts(y);
    InvReg(y);
    var OpPledge(caller, index, money) := op;
    var w, addr := WorldFor(y, caller, money), Payer(y, caller, index);
    var y1 := y.(w := w);
    ApprovalKeeps(y, y.reg.tokens[0], y.pool.owner, money);
    assert Inv(y1);
    PoolParts(y1);
    InvReg(y1);
    SameView(y, w, money, index);
    var (pool, w', _) := P.Pledge(y.pool, w, y.reg.local, addr, index, money);
    FailedPledgeLeaves(y, now, op);
    PO.FailedPledgeKeepsInv(y.pool, w, y.reg.local, addr, index, money);
    FailedFields(y.pool, w, addr, index, money);
    if P.Inv(pool, w) {
      forall c | IsContract(y1, c)
        ensures NoWorse(w, w, c)
      {
        InvContract(y1, c);
        SameIsNoWorse(w, c);
      }
      PoolMoves(y1, pool, w);
    }
    var z := After(y, now, op);
    if Inv(z) {
      InvReg(z);
    }
  }

  // The approval changes no balance, and so no report.
  lemma SameView(y: Sys, w: World, money: int, index: nat)
    requires Inv(y) && (w == y.w || w == Approved(y.w, y.reg.tokens[0], y.reg.local, y.pool.owner, money))
    requires 0 < |y.reg.tokens| && P.Coherent(y.pool) && 0 < |y.pool.tokens| && 0 in y.pool.tInfo
    ensures P.View(y.pool, w, index, 0) == P.View(y.pool, y.w, index, 0)
  {
    hide Inv, Approved, Guarded, P.Claim, P.Coherent;
    InvReg(y);
    ApprovedNoWorse(y.w, y.reg.tokens[0], y.reg.local, y.pool.owner, money, y.pool.local);
    assert P.Bal(y.pool, w, 0) == P.Bal(y.pool, y.w, 0);
  }

  lemma FailedFields(p: P.Pool, w: World, addr: Address, index: nat, money: int)
    requires P.Inv(p, w) && 0 <= money
    requires P.Coherent(p) && P.Pledge(p, w, p.owner, addr, index, money).2 != NoError
    ensures var q := P.Pledge(p, w, p.owner, addr, index, money).0;
      q.local == p.local && q.owner == p.owner && q.tokens == p.tokens
  {
    hide P.Inv, P.Coherent, P.Settle, P.Stake, P.View;
    PO.SettledStake(p, w, index);
  }

  // A pledge that is refused before its transfer leaves no more than an approval.
  lemma RefusedPledgeKeeps(y: Sys, now: u64, op: Op)
    requires Inv(y) && Shape(y) && op.OpPledge? && !FailsAtTransfer(y, op) && Do(y, now, op).1 != NoError
    ensures Inv(After(y, now, op))
  {
    hide Inv, P.Coherent, P.Settle, P.Book, P.Stake, SendFrom, Approved, R.InfoError;
    PoolParts(y);
    ApprovalKeeps(y, y.reg.tokens[0], y.pool.owner, op.money);
  }

  // ---------- Every call ----------

  lemma PledgeLeaves(y: Sys, now: u64, op: Op)
    requires Inv(y) && Shape(y) && op.OpPledge?
    ensures Inv(After(y, now, op)) <==> !(FailsAtTransfer(y, op) && RewardWaits(y, op.index))
  {
    hide Inv, After, Do, RewardWaits, FailsAtTransfer;
    var OpPledge(caller, index, money) := op;
    if FailsAtTransfer(y, op) {
      FailedPledgeKeeps(y, now, op);
    } else if Do(y, now, op).1 != NoError {
      RefusedPledgeKeeps(y, now, op);
    } else {
      AfterPledge(y, now, op);
      PledgeKeeps(y, caller, index, money);
    }
  }

  lemma AfterPledge(y: Sys, now: u64, op: Op)
    requires Shape(y) && op.OpPledge?
    ensures Do(y, now, op) == Pledge(y, op.caller, op.index, op.money)
    ensures After(y, now, op) == Pledge(y, op.caller, op.index, op.money).0
  {
    hide Pledge, P.Coherent;
  }

  lemma RegistrationLeaves(y: Sys, now: u64, op: Op)
    requires Inv(y) && Allowed(y, op)
    requires op.OpRegisterToken? || op.OpRegister? || op.OpRegisterKeeper? || op.OpRegisterProvider?
             || op.OpRegisterUser? || op.OpSetPledgeMoney? || op.OpCreateGroup? || op.OpSetReady?
             || op.OpAddKeeper? || op.OpAddProvider? || op.OpOutside?
    ensures Shape(y) && Inv(After(y, now, op))
  {
    hide Inv, R.Coherent, P.Coherent, RegisterToken, Register, RegisterRole, RegisterUser, CreateGroup, SetReady,
      AddKeeperToGroup, AddProviderToGroup, SetPledgeMoney, NoWorse, Guarded, IsContract;
    InvReg(y);
    match op
    case OpRegisterToken(taddr) => RegisterTokenKeeps(y, taddr);
    case OpRegister(addr) => RegisterKeeps(y, addr);
    case OpRegisterKeeper(index) => RegisterRoleKeeps(y, index, R.Keeper);
    case OpRegisterProvider(index) => RegisterRoleKeeps(y, index, R.Provider);
    case OpRegisterUser(index, g) => RegisterUserKeeps(y, index, g);
    case OpSetPledgeMoney(kPledge, pPledge) => SetPledgeMoneyKeeps(y, kPledge, pPledge);
    case OpCreateGroup(caller, level, fsLocal) => CreateGroupKeeps(y, now, caller, level, fsLocal);
    case OpSetReady(g, signatures) => SetReadyKeeps(y, g, signatures);
    case OpAddKeeper(index, g) => AddKeeperKeeps(y, index, g);
    case OpAddProvider(index, g) => AddProviderKeeps(y, index, g);
    case OpOutside(w) => WorldMoves(y, w);
  }

  lemma MoneyLeaves(y: Sys, now: u64, op: Op)
    requires Inv(y)
    requires op.OpWithdraw? || op.OpRecharge? || op.OpWithdrawFromFs? || op.OpProWithdraw? || op.OpAddOrder?
             || op.OpSubOrder?
    ensures Shape(y) && Inv(After(y, now, op))
  {
    hide Inv, R.Coherent, P.Coherent, Withdraw, Recharge, WithdrawFromFs, ProWithdraw, AddOrder, SubOrder;
    InvReg(y);
    match op
    case OpWithdraw(index, t, money) => WithdrawKeeps(y, index, t, money);
    case OpRecharge(caller, index, t, money) => RechargeKeeps(y, caller, index, t, money);
    case OpWithdrawFromFs(index, t, amount) => StorageKeeps(y, now, index, t, amount, 0);
    case OpProWithdraw(index, t, pay, lost) => StorageKeeps(y, now, index, t, pay, lost);
    case OpAddOrder(caller, user, pro, start, end, size, nonce, t, sprice) =>
      AddOrderKeeps(y, now, caller, user, pro, start, end, size, nonce, t, sprice);
    case OpSubOrder(caller, user, pro, start, end, size, nonce, t, sprice) =>
      SubOrderKeeps(y, now, caller, user, pro, start, end, size, nonce, t, sprice);
  }

  // Every call keeps every contract sound, failed or not and with nothing undone, but for one:
  // a pledge whose transfer fails while a reward of the staker is waiting.
  lemma CallKeepsInv(y: Sys, now: u64, op: Op)
    requires Inv(y) && Allowed(y, op)
    ensures Shape(y)
    ensures Inv(After(y, now, op)) <==> !(FailsAtTransfer(y, op) && RewardWaits(y, op.index))
  {
    hide Inv, After, Allowed, RewardWaits, P.Coherent;
    PoolParts(y);
    match op
    case OpPledge(_, _, _) => PledgeLeaves(y, now, op);
    case OpWithdraw(_, _, _) => MoneyLeaves(y, now, op);
    case OpRecharge(_, _, _, _) => MoneyLeaves(y, now, op);
    case OpWithdrawFromFs(_, _, _) => MoneyLeaves(y, now, op);
    case OpProWithdraw(_, _, _, _) => MoneyLeaves(y, now, op);
    case OpAddOrder(_, _, _, _, _, _, _, _, _) => MoneyLeaves(y, now, op);
    case OpSubOrder(_, _, _, _, _, _, _, _, _) => MoneyLeaves(y, now, op);
    case _ => RegistrationLeaves(y, now, op);
  }

  // ---------- Runs ----------

  ghost predicate Sound(y: Sys, op: Op)
    requires Inv(y)
  {
    InvReg(y);
    Allowed(y, op) && !(FailsAtTransfer(y, op) && RewardWaits(y, op.index))
  }

  ghost predicate SoundRun(y: Sys, ops: seq<Timed>)
    requires Inv(y)
    decreases |ops|
  {
    ops == [] ||
    (Sound(y, ops[0].op)
     && (CallKeepsInv(y, ops[0].now, ops[0].op); SoundRun(After(y, ops[0].now, ops[0].op), ops[1..])))
  }

  ghost function RawRun(y: Sys, ops: seq<Timed>): (z: Sys)
    requires Inv(y) && SoundRun(y, ops)
    ensures Inv(z)
    decreases |ops|
  {
    if ops == [] then y
    else
      CallKeepsInv(y, ops[0].now, ops[0].op);
      RawRun(After(y, ops[0].now, ops[0].op), ops[1..])
  }

  // The whole system as the code runs it, with nothing undone: as long as no pledge fails at
  // its transfer while a reward is waiting, the pool holds what it reports and each storage
  // manager what it owes.
  lemma RawSystemIsSafe(y: Sys, ops: seq<Timed>, t: nat, g: nat)
    requires Inv(y) && SoundRun(y, ops)
    ensures var z := RawRun(y, ops);
      && P.Coherent(z.pool)
      && z.pool.tokens == z.reg.tokens && Distinct(z.reg.tokens) && Distinct(z.reg.addrs)
      && |z.fms| == |z.reg.groups|
      && (t < |z.reg.tokens| ==> P.Reported(z.pool, z.w, t) <= P.Bal(z.pool, z.w, t))
      && (g < |z.fms| ==> z.fms[g].keepers == z.reg.groups[g].keepers)
      && (g < |z.fms| && t < |z.reg.tokens| ==>
            M.Owed(z.fms[g], t) <= BalanceOf(z.w, z.reg.tokens[t], z.fms[g].local))
  {
    hide Inv, RawRun, SoundRun;
    SafeState(RawRun(y, ops), t, g);
  }
}
