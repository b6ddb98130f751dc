// What the role manager's registrations do: to the registry, see RegistryEffects, and to the other
// contract that each of them involves.
module SystemMembers {
  import opened Types
  import opened Erc
  import opened System
  import opened SystemRuns
  import opened SystemEffects
  import P = Pool
  import PO = PoolOps
  import PR = PoolReports
  import R = Registry
  import RE = RegistryEffects
  import F = Fs
  import FE = FsEffects
  import FR = FsRecords
  import Runs = FsRuns
  import I = Issuance

  // An index becomes keeper, or provider, exactly when it is an account to which the pool reports
  // the threshold of that role in the main token.
  lemma RegisterRoleEffect(y: Sys, index: nat, role: R.Role)
    requires Linked(y) && (role == R.Keeper || role == R.Provider)
    ensures P.Coherent(y.pool)
    ensures var (z, err) := RegisterRole(y, index, role);
      var need := if role == R.Keeper then y.reg.pledgeKeeper else y.reg.pledgePro;
      && err == (if RE.IndexError(y.reg, index) != NoError then RE.IndexError(y.reg, index)
                 else if RoleOf(y.reg, index) != R.Account then ErrRoleType
                 else if P.GetBalance(y.pool, y.w, index).NoBalances? || PR.ReportFor(y.pool, y.w, index, 0) < need
                 then ErrBalanceNotEnough
                 else NoError)
      && z == y.(reg := z.reg) && (err != NoError ==> z == y)
      && (err == NoError ==>
            && index < |y.reg.addrs|
            && RE.Redescribed(y.reg, z.reg, index, R.InfoOf(y.reg, index).(role := role)))
  {
    hide P.Inv, P.Coherent, P.View, FR.Inv, R.Indexed, R.RegisterRole, RE.Redescribed, PO.NoAllowances;
    PoolPart(y);
    var need := if role == R.Keeper then y.reg.pledgeKeeper else y.reg.pledgePro;
    RE.RegisterRoleEffect(y.reg, index, PledgedIn(y.pool, y.w, index), need, role);
    PR.ReportIsView(y.pool, y.w, index);
  }

  // An account becomes a user of an open group exactly when the group's storage manager does not
  // know it as an active user. Both take it at once, and nothing else changes.
  lemma RegisterUserEffect(y: Sys, index: nat, g: nat)
    requires Linked(y)
    ensures var (z, err) := RegisterUser(y, index, g);
      && err == (if RE.IndexError(y.reg, index) != NoError then RE.IndexError(y.reg, index)
                 else if RoleOf(y.reg, index) != R.Account then ErrRoleType
                 else if RE.OpenError(y.reg, g) != NoError then RE.OpenError(y.reg, g)
                 else if FE.Active(y.fms[g].fs, index) then ErrExist
                 else NoError)
      && (err != NoError ==> z == y)
      && (err == NoError ==>
            && index < |y.reg.addrs| && g < |y.fms| == |z.fms|
            && RE.Redescribed(y.reg, z.reg, index, R.InfoOf(y.reg, index).(role := R.User, gIndex := g))
            && z == y.(reg := z.reg, fms := y.fms[g := z.fms[g]])
            && FE.Active(z.fms[g].fs, index) && FE.SameRecordsAs(y.fms[g].fs, z.fms[g].fs)
            && z.fms[g].balance == y.fms[g].balance)
  {
    hide P.Inv, P.Coherent, FR.Inv, R.Indexed, R.RegisterUser, R.UserError, RE.Redescribed, F.CreateFs,
      FE.SameRecordsAs, PO.NoAllowances;
    RE.RegisterUserEffect(y.reg, index, g);
    if g < |y.fms| {
      FE.CreateFsEffect(y.fms[g], y.reg.local, index);
      assert y.fms[g := y.fms[g]] == y.fms;
    }
  }

  // A keeper joins a group and its storage manager at once.
  lemma AddKeeperEffect(y: Sys, index: nat, g: nat)
    requires Linked(y)
    ensures var (z, err) := AddKeeperToGroup(y, index, g);
      && err == R.KeeperError(y.reg, index, g)
      && z.reg == R.AddKeeperToGroup(y.reg, index, g).0
      && (err != NoError ==> z == y)
      && (err == NoError ==>
            && g < |y.fms| == |z.fms|
            && z == y.(reg := z.reg, fms := y.fms[g := z.fms[g]])
            && z.fms[g].keepers == y.fms[g].keepers + [index] && FE.CountOf(z.fms[g], index) == 1
            && z.fms[g].balance == y.fms[g].balance)
  {
    hide P.Inv, P.Coherent, FR.Inv, R.Indexed, R.KeeperError, R.AddKeeperToGroup, F.AddKeeper, PO.NoAllowances;
    RE.AddKeeperEffect(y.reg, index, g);
    if g < |y.fms| {
      FE.AddKeeperEffect(y.fms[g], y.reg.local, index);
    }
  }

  // Calls of the registry alone, and the thresholds.
  lemma RegistryCalls(y: Sys, now: u64, op: Op)
    requires Linked(y) && (op.OpRegister? || op.OpAddProvider? || op.OpSetReady? || op.OpSetPledgeMoney?)
    ensures var (z, err) := Do(y, now, op);
      && z == y.(reg := z.reg)
      && (z.reg, err) == match op
           case OpRegister(addr) => R.Register(y.reg, addr)
           case OpAddProvider(index, g) => R.AddProviderToGroup(y.reg, index, g)
           case OpSetReady(g, signatures) => R.SetReady(y.reg, g, signatures)
           case OpSetPledgeMoney(kPledge, pPledge) =>
             (y.reg.(pledgeKeeper := kPledge, pledgePro := pPledge), NoError)
  {
    hide P.Inv, FR.Inv, R.Indexed, R.Register, R.AddProviderToGroup, R.SetReady, PO.NoAllowances;
  }

  // A token is taken by the registry and by the pool under the same index, with nothing reported
  // to anybody, exactly when it is not listed yet.
  lemma RegisterTokenEffect(y: Sys, taddr: Address, s: nat)
    requires Linked(y) && R.TokensListed(y.reg)
    ensures P.Coherent(y.pool)
    ensures var (z, err) := RegisterToken(y, taddr);
      && err == (if taddr in y.reg.tokens then ErrExist else NoError)
      && (err != NoError ==> z == y)
      && (err == NoError ==>
            && z == y.(reg := z.reg, pool := z.pool) && P.Coherent(z.pool)
            && z.reg.tokens == z.pool.tokens == y.reg.tokens + [taddr]
            && PR.ReportFor(z.pool, y.w, s, |y.reg.tokens|) == 0
            && forall t: nat :: t < |y.reg.tokens| ==>
                 PR.ReportFor(z.pool, y.w, s, t) == PR.ReportFor(y.pool, y.w, s, t))
  {
    hide P.Inv, P.Coherent, P.AddToken, P.View, FR.Inv, R.Indexed, P.GetBalance, PO.NoAllowances;
    PoolPart(y);
    PR.AddTokenReports(y.pool, y.w, y.reg.local, taddr, |y.reg.tokens|, s);
    KnownToken(y.reg, taddr);
    PR.ReportIsView(y.pool, y.w, s);
  }

  lemma KnownToken(r: R.Registry, taddr: Address)
    requires R.TokensListed(r)
    ensures taddr in r.tIndex <==> taddr in r.tokens
  {
    if taddr in r.tIndex {
      assert r.tokens[r.tIndex[taddr]] == taddr;
    }
  }

  // The administrator alone opens a group, whose storage manager owes nothing, knows nobody, and
  // has index 0 for its foundation.
  lemma CreateGroupEffect(y: Sys, now: u64, caller: Address, level: nat, fsLocal: Address)
    requires Linked(y)
    ensures var (z, err) := CreateGroup(y, now, caller, level, fsLocal);
      && err == (if caller == y.reg.admin then NoError else ErrPermission)
      && (err != NoError ==> z == y)
      && (err == NoError ==>
            && z == y.(reg := R.CreateGroup(y.reg, caller, level).0, fms := z.fms)
            && |z.fms| == |y.fms| + 1 && z.fms[..|y.fms|] == y.fms
            && var f := z.fms[|y.fms|];
            && f.local == fsLocal && f.owner == y.reg.local && f.foundation == 0 && f.lastTime == now
            && f.balance == map[] && f.fs == map[] && f.keepers == [] && f.proInfo == map[] && f.tAcc == map[])
  {
    hide P.Inv, FR.Inv, R.Indexed, PO.NoAllowances;
    RE.CreateGroupEffect(y.reg, caller, level);
  }

  // ---------- The foundation ----------

  // Index 0 is the foundation's address, and the one that every storage manager credits with the
  // hundredth of each order.
  ghost predicate FoundationFirst(y: Sys) {
    && 0 < |y.reg.addrs| && y.reg.addrs[0] == y.reg.foundation
    && forall g: nat :: g < |y.fms| ==> y.fms[g].foundation == 0
  }

  // A new system: the creator administers it, the foundation is its only index, the main token its
  // only token; it has no groups, has issued nothing, and owes nobody anything.
  lemma NewSystem(w: World, local: Address, poolLocal: Address, admin: Address, foundation: Address,
                  ptoken: Address, kPledge: int, pPledge: int, now: u64, s: nat)
    ensures var y := NewSys(w, local, poolLocal, admin, foundation, ptoken, kPledge, pPledge, now);
      && y.w == w && y.fms == []
      && y.reg.local == local && y.reg.admin == admin && y.reg.foundation == foundation
      && y.reg.addrs == [foundation] && y.reg.tokens == [ptoken] && y.reg.groups == []
      && y.reg.pledgeKeeper == kPledge && y.reg.pledgePro == pPledge
      && R.Indexed(y.reg) && RE.IndexError(y.reg, 0) == NoError && RoleOf(y.reg, 0) == R.Account
      && y.pool.owner == local && y.pool.local == poolLocal && y.pool.tokens == [ptoken] && y.pool.total == 0
      && P.Coherent(y.pool) && P.GetBalance(y.pool, w, s).NoBalances?
      && y.iss.lastMint == now && y.iss.mintLevel == 0 && y.iss.price == y.iss.size == y.iss.spaceTime == 0
      && y.iss.totalPaid == y.iss.totalPay == 0 && y.iss.subP == map[] && y.iss.subS == map[]
  {
    assert P.All(1) == {0} by {
      assert forall i: nat :: i in P.All(1) <==> i < 1;
    }
  }

  lemma NewFoundation(w: World, local: Address, poolLocal: Address, admin: Address, foundation: Address,
                      ptoken: Address, kPledge: int, pPledge: int, now: u64)
    ensures FoundationFirst(NewSys(w, local, poolLocal, admin, foundation, ptoken, kPledge, pPledge, now))
  {
  }

  // No call changes the foundation of a storage manager.
  ghost predicate FoundationsStay(y: Sys, z: Sys) {
    && |y.fms| <= |z.fms|
    && forall g: nat :: g < |z.fms| ==> z.fms[g].foundation == if g < |y.fms| then y.fms[g].foundation else 0
  }

  lemma OrdersKeepFoundation(y: Sys, now: u64, op: Op)
    requires Shape(y) && (op.OpAddOrder? || op.OpSubOrder?)
    ensures FoundationsStay(y, Step(y, now, op))
  {
    hide P.Coherent, F.AddOrder, F.SubOrder, I.Book, I.Clock, Send, IndexOf, R.AddToGroup;
    var user := op.user;
    if PartyError(y.reg, user, op.pro, false) == NoError {
      Runs.OrdersKeepContract(y.fms[R.InfoOf(y.reg, user).gIndex], y.reg.local, now, IndexOf(y.reg, op.caller), user,
                              op.pro, op.start, op.end, op.size, op.nonce, op.t, op.sprice);
    }
  }

  lemma RechargeKeepsFoundation(y: Sys, now: u64, op: Op)
    requires Shape(y) && op.OpRecharge?
    ensures FoundationsStay(y, Step(y, now, op))
  {
    hide P.Coherent, F.Recharge, Approved;
    var OpRecharge(caller, index, t, money) := op;
    var r := y.reg;
    if MemberError(r, index, t) == NoError {
      var f := y.fms[R.InfoOf(r, index).gIndex];
      var w := if caller == r.admin then Approved(y.w, r.tokens[t], r.local, f.owner, money) else y.w;
      Runs.RechargeKeepsContract(f, w, r.local, PayerOf(r, caller, index), index, r.tokens, t, money);
    }
  }

  lemma WithdrawKeepsFoundation(y: Sys, now: u64, op: Op)
    requires Shape(y) && op.OpWithdrawFromFs?
    ensures FoundationsStay(y, Step(y, now, op))
  {
    hide P.Coherent, F.Withdraw;
    if MemberError(y.reg, op.index, op.t) == NoError {
      Runs.WithdrawKeepsContract(y.fms[R.InfoOf(y.reg, op.index).gIndex], y.w, now, InfoFor(y.reg, op.index), op.index,
                                 y.reg.tokens, op.t, op.amount);
    }
  }

  lemma ClaimKeepsFoundation(y: Sys, now: u64, op: Op)
    requires Shape(y) && op.OpProWithdraw?
    ensures FoundationsStay(y, Step(y, now, op))
  {
    hide P.Coherent, F.ProWithdraw, F.SettlementOf;
    if MemberError(y.reg, op.index, op.t) == NoError {
      Runs.ProWithdrawKeepsContract(y.fms[R.InfoOf(y.reg, op.index).gIndex], y.w, now, InfoFor(y.reg, op.index),
                                    op.index, y.reg.tokens, op.t, op.pay, op.lost);
    }
  }

  lemma MembersKeepFoundation(y: Sys, now: u64, op: Op)
    requires Shape(y) && !op.OpAddOrder? && !op.OpSubOrder? && !op.OpRecharge? && !op.OpWithdrawFromFs?
             && !op.OpProWithdraw?
    ensures FoundationsStay(y, Step(y, now, op))
  {
    hide P.Coherent, P.Pledge, P.Withdraw, P.AddToken, R.Register, R.RegisterToken, R.RegisterRole, R.SetReady,
      R.AddProviderToGroup, R.AddKeeperToGroup, R.RegisterUser, PledgedIn, Approved, R.InfoError;
  }

  lemma StepKeepsFoundation(y: Sys, now: u64, op: Op)
    requires Inv(y) && FoundationFirst(y)
    ensures Shape(y) && FoundationFirst(Step(y, now, op))
  {
    hide Inv, Step, R.Coherent;
    InvReg(y);
    StepKeepsRoles(y, now, op);
    if op.OpAddOrder? || op.OpSubOrder? {
      OrdersKeepFoundation(y, now, op);
    } else if op.OpRecharge? {
      RechargeKeepsFoundation(y, now, op);
    } else if op.OpWithdrawFromFs? {
      WithdrawKeepsFoundation(y, now, op);
    } else if op.OpProWithdraw? {
      ClaimKeepsFoundation(y, now, op);
    } else {
      MembersKeepFoundation(y, now, op);
    }
  }

  // Over every run from creation the hundredths go to the foundation: index 0 stays its address,
  // and every storage manager, also one that joins on the way, credits index 0.
  lemma {:induction false} FoundationStays(y: Sys, ops: seq<Timed>)
    requires Inv(y) && AllowedRun(y, ops) && FoundationFirst(y)
    ensures FoundationFirst(Run(y, ops)) && Run(y, ops).reg.foundation == y.reg.foundation
    decreases |ops|
  {
    hide Inv, Step, Allowed, FoundationFirst;
    if ops == [] {
    } else {
      StepKeepsInv(y, ops[0].now, ops[0].op);
      StepKeepsFoundation(y, ops[0].now, ops[0].op);
      StepKeepsNames(y, ops[0].now, ops[0].op);
      FoundationStays(Step(y, ops[0].now, ops[0].op), ops[1..]);
    }
  }

  lemma StepKeepsNames(y: Sys, now: u64, op: Op)
    requires Inv(y)
    ensures Shape(y) && Step(y, now, op).reg.foundation == y.reg.foundation
  {
    hide Inv, Step, R.Coherent;
    StepKeepsRoles(y, now, op);
  }
}
