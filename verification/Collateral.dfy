// Collateral: over every run of the whole system, whoever became a keeper or a provider has
// at least the pledge threshold of that role reported by the pool, as long as nobody raises
// the thresholds.
module Collateral {
  import opened Types
  import opened Erc
  import opened System
  import opened SystemRuns
  import P = Pool
  import PO = PoolOps
  import R = Registry
  import F = Fs
  import M = FsMoney
  import I = Issuance

  // ---------- The pool ----------

  lemma MulGrows(a: int, b: int, k: int)
    requires 0 <= k && a <= b
    ensures a * k <= b * k
  {
  }

  lemma DivGrows(a: int, b: int, t: int)
    requires 0 < t && a <= b
    ensures a / t <= b / t
  {
    var x, y := a / t, b / t;
    P.DivMul(a, t);
    P.DivMul(b, t);
    assert (y + 1) * t == y * t + t;
    if y + 1 <= x {
      MulGrows(y + 1, x, t);
    }
  }

  // Money that arrives lowers nobody's reported balance.
  lemma ViewGrows(p: P.Pool, w: World, w': World, s: nat, i: nat)
    requires P.Inv(p, w) && i < |p.tokens| && i in p.tInfo && P.Bal(p, w, i) <= P.Bal(p, w', i)
    ensures P.View(p, w, s, i) <= P.View(p, w', s, i)
  {
    hide P.Covered, P.TotalStake, P.Bal, P.Claim, P.Stake;
    var g, g' := P.Bal(p, w, i) - p.tInfo[i].last, P.Bal(p, w', i) - p.tInfo[i].last;
    if 0 < g && 0 < p.total {
      DivGrows(g, g', p.total);
    } else if 0 < p.total {
      DivGrows(0, if 0 < g' then g' else 0, p.total);
    }
    assert P.Gain(p, w, i) <= P.Gain(p, w', i);
    P.ClaimNonNegative(p, s, i, p.tInfo[i].accum);
    P.ClaimIsLinear(p, s, i, p.tInfo[i].accum, P.Gain(p, w, i));
    P.ClaimIsLinear(p, s, i, p.tInfo[i].accum, P.Gain(p, w', i));
    MulGrows(P.Gain(p, w, i), P.Gain(p, w', i), P.Stake(p, s));
  }

  lemma PledgeKeepsViews(p: P.Pool, w: World, caller: Address, addr: Address, s: nat, money: int, t: nat)
    requires P.Inv(p, w) && PO.NoAllowances(w, p.local) && P.Pledge(p, w, caller, addr, s, money).2 == NoError
    ensures var (q, w', _) := P.Pledge(p, w, caller, addr, s, money);
      P.Coherent(q) && 0 in p.tInfo && 0 in q.tInfo && P.View(p, w, t, 0) <= P.View(q, w', t, 0)
  {
    hide P.Pledge, P.Entries, P.Covered, P.TotalStake, P.View, P.Stake;
    PO.PledgeMoves(p, w, caller, addr, s, money);
    assert 0 in p.tInfo;
    PO.PledgeNonInterference(p, w, caller, addr, s, money, t, 0);
  }

  // A withdrawal takes what exceeds the lock at most.
  lemma WithdrawKeepsLock(p: P.Pool, w: World, payee: P.Payee, s: nat, j: nat, money: int, lock: int, t: nat)
    requires P.Inv(p, w) && 0 <= lock && PO.CanWithdraw(p, payee, s, j, money)
    ensures var (q, w', _) := P.Withdraw(p, w, payee, s, j, money, lock);
      && P.Coherent(q) && 0 in p.tInfo && 0 in q.tInfo
      && (if t == s then Min(lock, P.View(p, w, s, 0)) else P.View(p, w, t, 0)) <= P.View(q, w', t, 0)
  {
    hide P.Inv, P.Withdraw, P.View, P.Book, P.Settle, P.Moved, Send;
    // The same withdrawal to some account other than the pool's own, which may be the payee.
    var other := P.Payee(Address(p.local.id + 1));
    PoolFacts(p, w);
    var (q, w', _) := P.Withdraw(p, w, payee, s, j, money, lock);
    var (q2, w2, _) := P.Withdraw(p, w, other, s, j, money, lock);
    PO.WithdrawResult(p, w, payee, s, j, money, lock);
    PO.WithdrawResult(p, w, other, s, j, money, lock);
    PO.WithdrawKeepsInv(p, w, other, s, j, money, lock);
    PoolFacts(q, w2);
    WithdrawFields(p, w, payee, s, j, money, lock);
    PO.WithdrawNonInterference(p, w, other, s, j, money, lock, t, 0);
    PO.WithdrawBalances(p, w, payee, s, j, money, lock, p.tokens[0], p.local);
    PO.WithdrawBalances(p, w, other, s, j, money, lock, p.tokens[0], p.local);
    ViewGrows(q, w2, w', t, 0);
  }

  lemma PoolFacts(p: P.Pool, w: World)
    requires P.Inv(p, w)
    ensures P.Coherent(p) && 0 < |p.tokens| && 0 in p.tInfo
  {
  }

  // ---------- The thresholds ----------

  // What the role manager locks for an index; nothing for one that is not registered yet.
  function LockedFor(r: R.Registry, i: nat): int
    requires R.Coherent(r)
  {
    if i < |r.addrs| then LockOf(r, R.InfoOf(r, i).role) else 0
  }

  // What GetBalance reports for an index in the main token, 0 for one that never pledged.
  ghost function PledgedBy(y: Sys, i: nat): int
    requires Inv(y)
  {
    InvFacts(y);
    P.View(y.pool, y.w, i, 0)
  }

  // Every keeper and provider has its threshold reported by the pool.
  ghost predicate Collateralised(y: Sys)
    requires Inv(y)
  {
    InvFacts(y);
    forall i: nat :: LockedFor(y.reg, i) <= PledgedBy(y, i)
  }

  lemma InvFacts(y: Sys)
    requires Inv(y)
    ensures R.Coherent(y.reg) && P.Coherent(y.pool) && 0 < |y.pool.tokens| && 0 in y.pool.tInfo
  {
    hide R.Coherent, P.Inv;
    InvReg(y);
    PoolFacts(y.pool, y.w);
  }

  // No index has more locked in s than in r.
  ghost predicate LocksStay(r: R.Registry, s: R.Registry)
    requires R.Coherent(r) && R.Coherent(s)
  {
    forall i: nat :: LockedFor(s, i) <= LockedFor(r, i)
  }

  lemma RegistrationKeepsLocks(y: Sys, now: u64, op: Op)
    requires Inv(y) && R.Coherent(y.reg) && R.Coherent(Step(y, now, op).reg)
    requires op.OpRegisterToken? || op.OpRegister? || op.OpRegisterUser?
    ensures LocksStay(y.reg, Step(y, now, op).reg)
  {
    hide Inv, P.Coherent, P.AddToken, F.CreateFs, R.Grouped, R.TokensListed, R.GroupError;
    InvReg(y);
  }

  lemma GroupsKeepLocks(y: Sys, now: u64, op: Op)
    requires Inv(y) && R.Coherent(y.reg) && R.Coherent(Step(y, now, op).reg)
    requires op.OpCreateGroup? || op.OpSetReady? || op.OpAddKeeper? || op.OpAddProvider?
    ensures LocksStay(y.reg, Step(y, now, op).reg)
  {
    hide Inv, P.Coherent, F.AddKeeper, R.Coherent, R.InfoError, LockedFor, LocksStay;
    InvReg(y);
    var z := Step(y, now, op);
    SameInfoLocks(y.reg, y.reg);
    if op.OpCreateGroup? || op.OpSetReady? {
      SameInfoLocks(y.reg, z.reg);
    } else if z.reg != y.reg {
      JoinLocks(y.reg, y.reg.(groups := z.reg.groups), op.index, op.g);
    }
  }

  lemma SameInfoLocks(r: R.Registry, s: R.Registry)
    requires R.Coherent(r) && R.Coherent(s) && s.addrs == r.addrs && s.info == r.info
    requires s.pledgeKeeper == r.pledgeKeeper && s.pledgePro == r.pledgePro
    ensures LocksStay(r, s)
  {
  }

  // Joining a group changes no role.
  lemma JoinLocks(r: R.Registry, s: R.Registry, index: nat, g: nat)
    requires R.Coherent(r) && R.InfoError(r, index) == NoError && s == r.(groups := s.groups)
    requires R.Coherent(R.SetInfo(s, index, R.InfoOf(r, index).(gIndex := g, isActive := true)))
    ensures LocksStay(r, R.SetInfo(s, index, R.InfoOf(r, index).(gIndex := g, isActive := true)))
  {
    hide R.Grouped, R.TokensListed;
  }

  lemma OthersKeepLocks(y: Sys, now: u64, op: Op)
    requires Inv(y) && R.Coherent(y.reg) && R.Coherent(Step(y, now, op).reg)
    requires op.OpPledge? || op.OpWithdraw? || op.OpRecharge? || op.OpWithdrawFromFs? || op.OpProWithdraw?
             || op.OpAddOrder? || op.OpSubOrder? || op.OpOutside?
    ensures LocksStay(y.reg, Step(y, now, op).reg)
  {
    hide Inv, P.Coherent, R.Coherent, P.Pledge, P.Withdraw, F.Recharge, F.Withdraw, F.ProWithdraw, F.AddOrder,
      F.SubOrder,
      I.Book, Send, Approved, PartyError, MemberError;
    InvReg(y);
    if op.OpAddOrder? || op.OpSubOrder? {
      OrderRegistry(y, now, op);
    }
  }

  // Only an index whose reported balance reaches the threshold takes the role.
  lemma RolesAreCovered(y: Sys, now: u64, op: Op, i: nat)
    requires Inv(y) && R.Coherent(y.reg) && R.Coherent(Step(y, now, op).reg)
    requires P.Coherent(y.pool) && 0 < |y.pool.tokens| && 0 in y.pool.tInfo
    requires op.OpRegisterKeeper? || op.OpRegisterProvider?
    ensures LockedFor(Step(y, now, op).reg, i) <= LockedFor(y.reg, i)
         || LockedFor(Step(y, now, op).reg, i) <= P.View(y.pool, y.w, i, 0)
  {
    hide Inv, P.Coherent, P.View, R.Grouped, R.TokensListed;
  }

  // ---------- The money ----------

  // The pool holds at least as much of its main token, and is otherwise the same.
  ghost predicate PoolWaits(y: Sys, z: Sys)
    requires 0 < |y.pool.tokens|
  {
    z.pool == y.pool && P.Bal(y.pool, y.w, 0) <= P.Bal(y.pool, z.w, 0)
  }

  lemma RecordsLeavePool(y: Sys, now: u64, op: Op)
    requires Inv(y) && 0 < |y.pool.tokens|
    requires op.OpRegister? || op.OpRegisterKeeper? || op.OpRegisterProvider? || op.OpRegisterUser?
             || op.OpSetPledgeMoney?
             || op.OpCreateGroup? || op.OpSetReady? || op.OpAddKeeper? || op.OpAddProvider? || op.OpSubOrder?
    ensures PoolWaits(y, Step(y, now, op))
  {
    hide Inv, P.Coherent, R.Coherent, F.CreateFs, F.AddKeeper, F.SubOrder, PartyError, R.Register, R.RegisterRole,
      R.RegisterUser, R.CreateGroup, R.SetReady, R.AddKeeperToGroup, R.AddProviderToGroup, R.UserError, R.KeeperError,
      R.AddToGroup, PledgedIn, P.Bal;
  }

  lemma WithdrawNoWorse(f: F.Fs, w: World, now: u64, info: F.Info, index: nat, tokens: seq<Address>, t: nat,
                        amount: int, c: Address)
    requires Guarded(w, c) && c != f.local
    ensures NoWorse(w, F.Withdraw(f, w, now, info, index, tokens, t, amount).1, c)
  {
    hide Guarded, F.PayOut, F.Share;
    M.ShareLocal(f, now);
    SameIsNoWorse(w, c);
    if info.Info? {
      PayOutNoWorse(f, w, info.addr, index, tokens, t, amount, c);
      PayOutNoWorse(F.Share(f, now).0, w, info.addr, index, tokens, t, amount, c);
    }
  }

  lemma RechargeNoWorse(f: F.Fs, w: World, caller: Address, addr: Address, index: nat, tokens: seq<Address>, t: nat,
                        money: int, c: Address)
    requires Guarded(w, c)
    ensures NoWorse(w, F.Recharge(f, w, caller, addr, index, tokens, t, money).1, c)
  {
    hide Guarded, SendFrom;
    SameIsNoWorse(w, c);
    if t < |tokens| {
      SendFromNoWorse(w, tokens[t], f.local, addr, f.local, money, c);
    }
  }

  lemma StorageFeedsPool(y: Sys, now: u64, op: Op)
    requires Inv(y) && 0 < |y.pool.tokens| && Guarded(y.w, y.pool.local)
    requires op.OpRecharge? || op.OpWithdrawFromFs? || op.OpProWithdraw?
    ensures PoolWaits(y, Step(y, now, op))
  {
    hide Inv, P.Coherent, R.Coherent, F.Recharge, F.Withdraw, F.ProWithdraw, Approved, Guarded;
    InvReg(y);
    var r, c := y.reg, y.pool.local;
    if MemberError(r, op.index, op.t) == NoError {
      var g := R.InfoOf(r, op.index).gIndex;
      FsApart(y, g);
      match op
      case OpRecharge(caller, index, t, money) =>
        var addr := if caller == r.admin then r.local else r.addrs[index];
        var w := if caller == r.admin then Approved(y.w, r.tokens[t], r.local, y.fms[g].owner, money) else y.w;
        ApprovedNoWorse(y.w, r.tokens[t], r.local, y.fms[g].owner, money, c);
        SameIsNoWorse(y.w, c);
        assert NoWorse(y.w, w, c);
        RechargeNoWorse(y.fms[g], w, r.local, addr, index, r.tokens, t, money, c);
      case OpWithdrawFromFs(index, t, amount) =>
        WithdrawNoWorse(y.fms[g], y.w, now, InfoFor(r, index), index, r.tokens, t, amount, c);
      case OpProWithdraw(index, t, pay, lost) =>
        ProWithdrawNoWorse(y.fms[g], y.w, now, InfoFor(r, index), index, r.tokens, t, pay, lost, c);
    }
  }

  lemma FsApart(y: Sys, g: nat)
    requires Inv(y) && g < |y.fms|
    ensures y.fms[g].local != y.pool.local
  {
    hide P.Inv, R.Coherent, FsOk, Guarded;
  }

  lemma OrderFeedsPool(y: Sys, now: u64, op: Op)
    requires Inv(y) && 0 < |y.pool.tokens| && Guarded(y.w, y.pool.local) && op.OpAddOrder?
    ensures PoolWaits(y, Step(y, now, op))
  {
    hide Inv, P.Coherent, R.Coherent, F.AddOrder, I.Book, I.Clock, Send, PartyError, Guarded;
    InvReg(y);
    if 0 < |y.reg.tokens| {
      var b := I.Book(y.iss, I.Call(now, op.start, op.end, op.size, op.sprice));
      SendNoWorse(y.w, y.reg.tokens[0], y.reg.local, y.pool.local, b.reward, y.pool.local);
    }
  }

  // Whatever is neither a pledge nor a withdrawal nor a new token leaves the pool waiting.
  lemma OthersFeedPool(y: Sys, now: u64, op: Op)
    requires Inv(y) && Allowed(y, op) && 0 < |y.pool.tokens|
    requires !op.OpPledge? && !op.OpWithdraw? && !op.OpRegisterToken?
    ensures PoolWaits(y, Step(y, now, op))
  {
    hide Inv, Step, P.Coherent, Guarded, PoolWaits;
    InvReg(y);
    match op
    case OpRecharge(_, _, _, _) => StorageFeedsPool(y, now, op);
    case OpWithdrawFromFs(_, _, _) => StorageFeedsPool(y, now, op);
    case OpProWithdraw(_, _, _, _) => StorageFeedsPool(y, now, op);
    case OpAddOrder(_, _, _, _, _, _, _, _, _) => OrderFeedsPool(y, now, op);
    case OpOutside(w) => OutsideFeedsPool(y, now, w);
    case _ => RecordsLeavePool(y, now, op);
  }

  lemma OutsideFeedsPool(y: Sys, now: u64, w: World)
    requires Inv(y) && Allowed(y, OpOutside(w)) && 0 < |y.pool.tokens|
    ensures PoolWaits(y, Step(y, now, OpOutside(w)))
  {
    hide Inv, P.Coherent, Guarded;
    assert IsContract(y, y.pool.local);
  }

  // ---------- One step ----------

  lemma PledgeStep(y: Sys, now: u64, op: Op, i: nat)
    requires Inv(y) && op.OpPledge? && Inv(Step(y, now, op))
    ensures PledgedBy(y, i) <= PledgedBy(Step(y, now, op), i)
  {
    hide Inv, R.Coherent, P.Coherent, P.Inv, P.Pledge, P.View, Approved, Guarded;
    InvReg(y);
    InvFacts(y);
    var OpPledge(caller, index, money) := op;
    if Pledge(y, caller, index, money).1 == NoError {
      var r := y.reg;
      var addr := if caller == r.admin then r.local else r.addrs[index];
      var w := if caller == r.admin then Approved(y.w, r.tokens[0], r.local, y.pool.owner, money) else y.w;
      ApprovedNoWorse(y.w, r.tokens[0], r.local, y.pool.owner, money, y.pool.local);
      ViewGrows(y.pool, y.w, w, i, 0);
      ApprovalKeeps(y, r.tokens[0], y.pool.owner, money);
      InvReg(y.(w := w));
      assert PO.NoAllowances(w, y.pool.local) by { InvGuard(y.(w := w)); }
      PledgeKeepsViews(y.pool, w, r.local, addr, index, money, i);
    }
  }

  lemma InvGuard(y: Sys)
    requires Inv(y)
    ensures PO.NoAllowances(y.w, y.pool.local)
  {
    hide R.Coherent, P.Inv, FsOk;
    assert IsContract(y, y.pool.local);
  }

  lemma WithdrawStep(y: Sys, now: u64, op: Op, i: nat)
    requires Inv(y) && op.OpWithdraw? && Inv(Step(y, now, op)) && R.Coherent(y.reg)
    ensures Min(LockedFor(y.reg, i), PledgedBy(y, i)) <= PledgedBy(Step(y, now, op), i)
  {
    hide Inv, R.Coherent, P.Coherent, P.Inv, P.Withdraw, P.View, PO.CanWithdraw;
    InvReg(y);
    InvFacts(y);
    var OpWithdraw(index, t, money) := op;
    if Withdraw(y, index, t, money).1 == NoError {
      var r := y.reg;
      var payee, lock := P.Payee(r.addrs[index]), LockOf(r, R.InfoOf(r, index).role);
      if !PO.CanWithdraw(y.pool, payee, index, t, money) {
        PO.WithdrawRefused(y.pool, y.w, payee, index, t, money, lock);
      }
      WithdrawKeepsLock(y.pool, y.w, payee, index, t, money, lock, i);
    }
  }

  lemma TokenStep(y: Sys, now: u64, op: Op, i: nat)
    requires Inv(y) && op.OpRegisterToken? && Inv(Step(y, now, op))
    ensures PledgedBy(y, i) <= PledgedBy(Step(y, now, op), i)
  {
    hide Inv, R.Coherent, P.Coherent, P.Inv, P.AddToken;
    InvReg(y);
    InvFacts(y);
    var taddr := op.taddr;
    if RegisterToken(y, taddr).1 == NoError {
      AddTokenView(y.pool, y.w, y.reg.local, taddr, i);
    }
  }

  lemma AddTokenView(p: P.Pool, w: World, caller: Address, taddr: Address, s: nat)
    requires P.Inv(p, w) && caller == p.owner
    ensures var q := P.AddToken(p, w, caller, taddr, |p.tokens|).0;
      0 < |p.tokens| && 0 in p.tInfo && 0 < |q.tokens| && 0 in q.tInfo && P.View(q, w, s, 0) == P.View(p, w, s, 0)
  {
    hide P.Covered, P.TotalStake, P.Entries;
  }

  lemma WaitingStep(y: Sys, now: u64, op: Op, i: nat)
    requires Inv(y) && Allowed(y, op) && Inv(Step(y, now, op))
    requires !op.OpPledge? && !op.OpWithdraw? && !op.OpRegisterToken?
    ensures PledgedBy(y, i) <= PledgedBy(Step(y, now, op), i)
  {
    hide Inv, Step, P.View, P.Inv, R.Coherent, P.Coherent;
    InvReg(y);
    InvFacts(y);
    OthersFeedPool(y, now, op);
    ViewGrows(y.pool, y.w, Step(y, now, op).w, i, 0);
  }

  // A change of the thresholds raises neither.
  predicate NotRaised(r: R.Registry, op: Op) {
    op.OpSetPledgeMoney? ==> op.kPledge <= r.pledgeKeeper && op.pPledge <= r.pledgePro
  }

  lemma ThresholdsKeepLocks(y: Sys, now: u64, op: Op)
    requires Inv(y) && R.Coherent(y.reg) && R.Coherent(Step(y, now, op).reg) && op.OpSetPledgeMoney?
             && NotRaised(y.reg, op)
    ensures LocksStay(y.reg, Step(y, now, op).reg)
  {
    hide Inv, P.Coherent, R.Coherent;
  }

  lemma StepKeepsCollateral(y: Sys, now: u64, op: Op)
    requires Inv(y) && Allowed(y, op) && NotRaised(y.reg, op) && Collateralised(y)
    ensures Inv(Step(y, now, op)) && Collateralised(Step(y, now, op))
  {
    hide Inv, Step, Allowed, R.Coherent, PledgedBy, LockedFor, P.Coherent, NotRaised;
    StepKeepsInv(y, now, op);
    var z := Step(y, now, op);
    InvFacts(y);
    InvFacts(z);
    forall i: nat
      ensures LockedFor(z.reg, i) <= PledgedBy(z, i)
    {
      match op
      case OpPledge(_, _, _) => PledgeStep(y, now, op, i); OthersKeepLocks(y, now, op);
      case OpWithdraw(_, _, _) => WithdrawStep(y, now, op, i); OthersKeepLocks(y, now, op);
      case OpRegisterToken(_) => TokenStep(y, now, op, i); RegistrationKeepsLocks(y, now, op);
      case OpRegisterKeeper(_) => WaitingStep(y, now, op, i); RoleStep(y, now, op, i);
      case OpRegisterProvider(_) => WaitingStep(y, now, op, i); RoleStep(y, now, op, i);
      case OpSetPledgeMoney(_, _) => WaitingStep(y, now, op, i); ThresholdsKeepLocks(y, now, op);
      case OpRecharge(_, _, _, _) => WaitingStep(y, now, op, i); OthersKeepLocks(y, now, op);
      case OpWithdrawFromFs(_, _, _) => WaitingStep(y, now, op, i); OthersKeepLocks(y, now, op);
      case OpProWithdraw(_, _, _, _) => WaitingStep(y, now, op, i); OthersKeepLocks(y, now, op);
      case OpAddOrder(_, _, _, _, _, _, _, _, _) => WaitingStep(y, now, op, i); OthersKeepLocks(y, now, op);
      case OpSubOrder(_, _, _, _, _, _, _, _, _) => WaitingStep(y, now, op, i); OthersKeepLocks(y, now, op);
      case OpOutside(_) => WaitingStep(y, now, op, i); OthersKeepLocks(y, now, op);
      case OpRegister(_) => WaitingStep(y, now, op, i); RegistrationKeepsLocks(y, now, op);
      case OpRegisterUser(_, _) => WaitingStep(y, now, op, i); RegistrationKeepsLocks(y, now, op);
      case _ => WaitingStep(y, now, op, i); GroupsKeepLocks(y, now, op);
    }
  }

  lemma RoleStep(y: Sys, now: u64, op: Op, i: nat)
    requires Inv(y) && R.Coherent(y.reg) && R.Coherent(Step(y, now, op).reg)
    requires op.OpRegisterKeeper? || op.OpRegisterProvider?
    ensures LockedFor(Step(y, now, op).reg, i) <= LockedFor(y.reg, i)
         || LockedFor(Step(y, now, op).reg, i) <= PledgedBy(y, i)
  {
    hide Inv, Step, P.View, R.Coherent, P.Coherent, LockedFor;
    InvReg(y);
    InvFacts(y);
    RolesAreCovered(y, now, op, i);
  }

  // ---------- Runs ----------

  ghost predicate NeverRaised(y: Sys, ops: seq<Timed>)
    requires Inv(y) && AllowedRun(y, ops)
    decreases |ops|
  {
    ops == [] ||
    (StepKeepsInv(y, ops[0].now, ops[0].op);
     NotRaised(y.reg, ops[0].op) && NeverRaised(Step(y, ops[0].now, ops[0].op), ops[1..]))
  }

  // Over every run in which the thresholds are never raised, the pool reports at least the
  // threshold of its role for every keeper and provider, whatever they and others withdraw.
  lemma {:induction false} CollateralStays(y: Sys, ops: seq<Timed>)
    requires Inv(y) && AllowedRun(y, ops) && NeverRaised(y, ops) && Collateralised(y)
    ensures Collateralised(Run(y, ops))
    decreases |ops|
  {
    hide Inv, Step, Allowed, Collateralised, NotRaised;
    if ops == [] {
    } else {
      StepKeepsInv(y, ops[0].now, ops[0].op);
      StepKeepsCollateral(y, ops[0].now, ops[0].op);
      CollateralStays(Step(y, ops[0].now, ops[0].op), ops[1..]);
    }
  }

  lemma NewIsCollateralised(w: World, local: Address, poolLocal: Address, admin: Address, foundation: Address,
                            ptoken: Address, kPledge: int, pPledge: int, now: u64)
    requires Guarded(w, poolLocal) && poolLocal != local && 0 <= kPledge && 0 <= pPledge
    ensures var y := NewSys(w, local, poolLocal, admin, foundation, ptoken, kPledge, pPledge, now);
      Inv(y) && Collateralised(y)
  {
    hide Inv;
    NewSysInv(w, local, poolLocal, admin, foundation, ptoken, kPledge, pPledge, now);
  }
}
