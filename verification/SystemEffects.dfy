// What the role manager's calls do from end to end: who pays and who is paid, by the address that
// is registered for an index, and exactly when a call goes through.
module SystemEffects {
  import opened Types
  import opened Erc
  import opened System
  import opened SystemRuns
  import P = Pool
  import PO = PoolOps
  import PR = PoolReports
  import R = Registry
  import RE = RegistryEffects
  import FR = FsRecords

  // What the calls rely on, in every reachable state.
  ghost predicate Linked(y: Sys) {
    && Shape(y) && R.Indexed(y.reg)
    && P.Inv(y.pool, y.w) && y.pool.tokens == y.reg.tokens && y.pool.owner == y.reg.local != y.pool.local
    && PO.NoAllowances(y.w, y.pool.local)
    && 0 <= y.reg.pledgeKeeper && 0 <= y.reg.pledgePro
    && (forall g: nat :: g < |y.fms| ==>
          FR.Inv(y.fms[g]) && y.fms[g].owner == y.reg.local != y.fms[g].local)
  }

  lemma InvIsLinked(y: Sys)
    requires Inv(y)
    ensures Linked(y)
  {
    hide Inv, P.Inv, FR.Inv, R.Indexed, PO.NoAllowances, Shape, Backed;
    InvReg(y);
    CoherentIsIndexed(y.reg);
    forall g: nat | g < |y.fms|
      ensures FR.Inv(y.fms[g]) && y.fms[g].owner == y.reg.local != y.fms[g].local
    {
      InvFs(y, g);
    }
  }

  lemma CoherentIsIndexed(r: R.Registry)
    requires R.Coherent(r)
    ensures R.Indexed(r)
  {
  }

  lemma PoolPart(y: Sys)
    requires Linked(y)
    ensures P.Coherent(y.pool) && 0 < |y.reg.tokens| == |y.pool.tokens|
  {
    hide P.Inv, P.Coherent, FR.Inv, R.Indexed, PO.NoAllowances;
    PO.PoolShape(y.pool, y.w, 0);
    HasToken(y.pool);
  }

  lemma HasToken(p: P.Pool)
    requires P.Coherent(p)
    ensures 0 < |p.tokens|
  {
  }

  function AddressOf(r: R.Registry, index: nat): Address
    requires index < |r.addrs|
  {
    r.addrs[index]
  }

  ghost function RoleOf(r: R.Registry, index: nat): R.Role
    requires R.Indexed(r) && index < |r.addrs|
  {
    R.InfoOf(r, index).role
  }

  ghost function GroupOf(r: R.Registry, index: nat): nat
    requires R.Indexed(r) && index < |r.addrs|
  {
    R.InfoOf(r, index).gIndex
  }

  // ---------- The pledge pool ----------

  // What index must leave in the pool.
  ghost function LockFor(y: Sys, index: nat, t: nat): int
    requires R.Indexed(y.reg) && index < |y.reg.addrs|
  {
    if t != 0 then 0
    else match RoleOf(y.reg, index)
      case Keeper => y.reg.pledgeKeeper
      case Provider => y.reg.pledgePro
      case User => 0
      case Account => 0
  }

  // What a withdrawal pays: all that GetBalance reports beyond the lock, or the amount asked for
  // when that is positive and less.
  ghost function PoolPays(y: Sys, index: nat, t: nat, money: int): int
    requires Linked(y) && index < |y.reg.addrs|
  {
    PoolPart(y);
    var free := PR.ReportFor(y.pool, y.w, index, t) - LockFor(y, index, t);
    Max(0, if 0 < money then Min(money, free) else free)
  }

  // A withdrawal from the pledge pool goes through exactly for a known index that has pledged, in
  // a listed token, unless the token joined while nobody was staking and the index has no entry in
  // it. The address registered for the index gets what it may have, out of the pool's account; no
  // other account, and no other contract, changes.
  lemma WithdrawEffect(y: Sys, index: nat, t: nat, money: int, tk: Address, a: Address)
    requires Linked(y)
    ensures P.Coherent(y.pool)
    ensures var (z, err) := Withdraw(y, index, t, money);
      && err == (if |y.reg.tokens| <= t then ErrInput
                 else if RE.IndexError(y.reg, index) != NoError then RE.IndexError(y.reg, index)
                 else if money < 0 then ErrInput
                 else if P.GetBalance(y.pool, y.w, index).NoBalances? then ErrEmpty
                 else if MultiKey(index, t) !in y.pool.amount && y.pool.total <= 0 then ErrEmpty
                 else NoError)
      && z == y.(pool := z.pool, w := z.w)
      && (err != NoError ==> z == y)
      && (err == NoError ==>
            && index < |y.reg.addrs| && t < |y.reg.tokens|
            && BalanceOf(z.w, tk, a) == BalanceOf(y.w, tk, a)
                 + (if tk == y.reg.tokens[t] && a == AddressOf(y.reg, index) then PoolPays(y, index, t, money) else 0)
                 - (if tk == y.reg.tokens[t] && a == y.pool.local then PoolPays(y, index, t, money) else 0))
  {
    hide P.Inv, P.Coherent, P.Withdraw, P.View, P.GetBalance, FR.Inv, R.Indexed, PO.CanWithdraw, PO.NoAllowances,
      PR.ReportFor;
    PoolPart(y);
    RE.IndexErrorIs(y.reg, index);
    if t < |y.reg.tokens| && RE.IndexError(y.reg, index) == NoError {
      var addr := AddressOf(y.reg, index);
      var lock := LockOf(y.reg, R.InfoOf(y.reg, index).role);
      PR.ReportIsView(y.pool, y.w, index);
      PR.ReportOf(y.pool, y.w, index, t);
      PoolWithdraw(y.pool, y.w, addr, index, t, money, lock);
    }
  }

  lemma PoolWithdraw(p: P.Pool, w: World, addr: Address, s: nat, t: nat, money: int, lock: int)
    requires P.Inv(p, w) && 0 <= lock && t < |p.tokens|
    ensures P.Coherent(p) && t in p.tInfo
    ensures var (q, w', err) := P.Withdraw(p, w, P.Payee(addr), s, t, money, lock);
      var free := P.View(p, w, s, t) - if t == 0 then lock else 0;
      var rw := Max(0, if 0 < money then Min(money, free) else free);
      && err == (if money < 0 then ErrInput else if MultiKey(s, 0) !in p.amount then ErrEmpty
                 else if MultiKey(s, t) !in p.amount && p.total <= 0 then ErrEmpty else NoError)
      && (err != NoError ==> q == p && w' == w)
      && (err == NoError ==>
            forall tk, a :: BalanceOf(w', tk, a) == BalanceOf(w, tk, a)
              + (if tk == p.tokens[t] && a == addr then rw else 0)
              - (if tk == p.tokens[t] && a == p.local then rw else 0))
  {
    hide P.Inv, P.Coherent, P.Withdraw, P.View;
    PO.PoolShape(p, w, t);
    if PO.CanWithdraw(p, P.Payee(addr), s, t, money) {
      PO.WithdrawPaysView(p, w, P.Payee(addr), s, t, money, lock);
    } else {
      PO.WithdrawRefused(p, w, P.Payee(addr), s, t, money, lock);
      PoolRefusal(p, w, addr, s, t, money, lock);
    }
  }

  lemma PoolRefusal(p: P.Pool, w: World, addr: Address, s: nat, t: nat, money: int, lock: int)
    requires P.Coherent(p) && t < |p.tokens| && !PO.CanWithdraw(p, P.Payee(addr), s, t, money)
    ensures P.Withdraw(p, w, P.Payee(addr), s, t, money, lock).2 == if money < 0 then ErrInput else ErrEmpty
  {
    hide P.Coherent;
    if 0 <= money && MultiKey(s, 0) in p.amount {
      PO.SettleNothing(p, w, s, false);
      assert P.Touched(p, t) == {};
    }
  }

  // Who pays for index: the address registered for it, or the role manager itself when the
  // administrator calls.
  function PayerOf(r: R.Registry, caller: Address, index: nat): Address
    requires index < |r.addrs|
  {
    if caller == r.admin then r.local else AddressOf(r, index)
  }

  // A pledge goes through exactly for a known index, called by its address or the administrator,
  // when the pool has an allowance on the payer. The approval that the administrator's call makes
  // first names the role manager itself, so that it does not help: the allowance for the pool must
  // have been there before.
  lemma PledgeEffect(y: Sys, caller: Address, index: nat, money: int, tk: Address, a: Address)
    requires Linked(y)
    ensures P.Coherent(y.pool) && 0 < |y.reg.tokens|
    ensures var (z, err) := Pledge(y, caller, index, money);
      && (err == NoError <==>
            && RE.IndexError(y.reg, index) == NoError
            && (caller == y.reg.admin || caller == AddressOf(y.reg, index))
            && CanTake(y.w, y.reg.tokens[0], y.pool.local, PayerOf(y.reg, caller, index), money))
      && z == y.(pool := z.pool, w := z.w) && P.Coherent(z.pool)
      && (err != NoError ==> BalanceOf(z.w, tk, a) == BalanceOf(y.w, tk, a))
      && (err == NoError ==>
            && BalanceOf(z.w, tk, a) == BalanceOf(y.w, tk, a)
                 - (if tk == y.reg.tokens[0] && a == PayerOf(y.reg, caller, index) then money else 0)
                 + (if tk == y.reg.tokens[0] && a == y.pool.local then money else 0)
            && PR.ReportFor(z.pool, z.w, index, 0) == PR.ReportFor(y.pool, y.w, index, 0) + money)
  {
    hide P.Inv, P.Coherent, P.Pledge, P.View, P.GetBalance, FR.Inv, R.Indexed, PO.NoAllowances, PR.ReportFor, CanTake,
      TakeError, Approved;
    PoolPart(y);
    RE.IndexErrorIs(y.reg, index);
    if RE.IndexError(y.reg, index) == NoError {
      var r, addr := y.reg, PayerOf(y.reg, caller, index);
      var w := if caller == r.admin then Approved(y.w, r.tokens[0], r.local, y.pool.owner, money) else y.w;
      ApprovedEffect(y.w, r.tokens[0], r.local, y.pool.owner, money);
      ApprovedPool(y, w, money);
      PR.PledgePays(y.pool, w, r.local, addr, index, money, tk, a);
      MissingToken(y.w, r.tokens[0], y.pool.local, addr, money);
      SameReports(y.pool, y.w, w, index, 0);
      if P.Pledge(y.pool, w, r.local, addr, index, money).2 == NoError {
        PledgeReport(y.pool, w, r.local, addr, index, money);
      } else {
        FailedShape(y.pool, w, r.local, addr, index, money);
      }
    }
  }

  lemma MissingToken(w: World, t: Address, spender: Address, from: Address, money: int)
    ensures t !in w ==> !CanTake(w, t, spender, from, money)
  {
  }

  lemma FailedShape(p: P.Pool, w: World, caller: Address, addr: Address, s: nat, money: int)
    requires P.Coherent(p)
    ensures P.Coherent(P.Pledge(p, w, caller, addr, s, money).0)
  {
    hide P.Settle, P.Book, P.Coherent, SendFrom;
    PO.SettledStake(p, w, s);
    BookedShape(P.Settle(p, w, s, P.All(|p.tokens|), true), s, money, P.Stake(p, s));
  }

  lemma BookedShape(p: P.Pool, s: nat, d: int, oldStake: int)
    requires P.Coherent(p) && MultiKey(s, 0) in p.amount
    ensures 0 in p.tInfo && P.Coherent(P.Book(p, s, 0, d, oldStake))
  {
    var q := P.Book(p, s, 0, d, oldStake);
    assert q.tInfo.Keys == p.tInfo.Keys && q.amount.Keys == p.amount.Keys;
  }

  // The approval of the administrator's call leaves the pool as it is.
  lemma ApprovedPool(y: Sys, w: World, money: int)
    requires Linked(y) && 0 < |y.reg.tokens|
    requires w == y.w || w == Approved(y.w, y.reg.tokens[0], y.reg.local, y.pool.owner, money)
    ensures P.Inv(y.pool, w) && PO.NoAllowances(w, y.pool.local)
    ensures forall t, a :: BalanceOf(w, t, a) == BalanceOf(y.w, t, a)
  {
    hide P.Inv, FR.Inv, R.Indexed, P.Coherent, Shape;
    ApprovedEffect(y.w, y.reg.tokens[0], y.reg.local, y.pool.owner, money);
    PO.OutsideKeepsInv(y.pool, y.w, w);
  }

  lemma SameReports(p: P.Pool, w: World, w': World, s: nat, t: nat)
    requires P.Coherent(p) && t < |p.tokens| && forall tk, a :: BalanceOf(w', tk, a) == BalanceOf(w, tk, a)
    ensures PR.ReportFor(p, w', s, t) == PR.ReportFor(p, w, s, t)
  {
    hide PR.ReportFor, P.Coherent, P.Claim;
    PR.ReportOf(p, w, s, t);
    PR.ReportOf(p, w', s, t);
    assert P.Bal(p, w', t) == P.Bal(p, w, t);
  }

  lemma PledgeReport(p: P.Pool, w: World, caller: Address, addr: Address, s: nat, money: int)
    requires P.Inv(p, w) && PO.NoAllowances(w, p.local) && P.Coherent(p)
    requires P.Pledge(p, w, caller, addr, s, money).2 == NoError
    ensures var (q, w', _) := P.Pledge(p, w, caller, addr, s, money);
      P.Coherent(q) && PR.ReportFor(q, w', s, 0) == PR.ReportFor(p, w, s, 0) + money
  {
    hide P.Inv, P.Coherent, P.Pledge, P.View, P.GetBalance, PO.NoAllowances, PR.ReportFor, P.Moved, P.Forfeit;
    var (q, w', _) := P.Pledge(p, w, caller, addr, s, money);
    PO.PledgeMoves(p, w, caller, addr, s, money);
    PO.MovedShape(p, w, q, s, P.All(|p.tokens|), true, 0, money);
    HasToken(p);
    PR.ReportOf(p, w, s, 0);
    PR.ReportOf(q, w', s, 0);
    PO.PledgeNonInterference(p, w, caller, addr, s, money, s, 0);
    PR.MovedEntries(p, w, q, s, P.All(|p.tokens|), true, 0, money, s);
    NewStakerView(p, w, s);
  }

  lemma NewStakerView(p: P.Pool, w: World, s: nat)
    requires P.Coherent(p) && 0 in p.tInfo && 0 < |p.tokens|
    ensures MultiKey(s, 0) !in p.amount ==> P.View(p, w, s, 0) == 0
  {
    assert P.AccumNow(p, w, 0) * 0 == 0;
  }
}
