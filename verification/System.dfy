// The whole system as one state machine: token ledgers, role manager, pledge pool and one
// storage manager per group. The operations are those of the role manager, which calls the
// other contracts (server/contract/role.go).
module System {
  import opened Types
  import opened Erc
  import P = Pool
  import R = Registry
  import F = Fs
  import I = Issuance

  datatype Sys = Sys(w: World, reg: R.Registry, iss: I.Issue, pool: P.Pool, fms: seq<F.Fs>)

  // One storage manager per group, and a pool of the right shape.
  predicate Shape(y: Sys) {
    |y.fms| == |y.reg.groups| && P.Coherent(y.pool)
  }

  function NewSys(w: World, local: Address, poolLocal: Address, admin: Address, foundation: Address, ptoken: Address,
                  kPledge: int, pPledge: int, now: u64): Sys
  {
    Sys(w, R.NewRegistry(local, admin, foundation, ptoken, kPledge, pPledge), I.NewIssue(now),
        P.NewPool(local, poolLocal, ptoken, w), [])
  }

  function SetFs(y: Sys, g: nat, f: F.Fs): Sys
    requires g < |y.fms|
  {
    y.(fms := y.fms[g := f])
  }

  // ---------- Registration ----------

  function RegisterToken(y: Sys, taddr: Address): (Sys, Error) {
    var (reg, err) := R.RegisterToken(y.reg, taddr);
    if err != NoError then (y, err)
    else
      var (pool, perr) := P.AddToken(y.pool, y.w, y.reg.local, taddr, |y.reg.tokens|);
      (y.(reg := reg, pool := pool), perr)
  }

  function Register(y: Sys, addr: Address): (Sys, Error) {
    var (reg, err) := R.Register(y.reg, addr);
    (y.(reg := reg), err)
  }

  // What an index has pledged, as the pool reports it.
  function PledgedIn(p: P.Pool, w: World, index: nat): R.Pledged
    requires P.Coherent(p)
  {
    var b := P.GetBalance(p, w, index);
    if b.NoBalances? || |b.vals| < 1 then R.NothingPledged else R.Pledged(b.vals[0])
  }

  function RegisterRole(y: Sys, index: nat, role: R.Role): (Sys, Error)
    requires P.Coherent(y.pool)
  {
    var need := if role == R.Keeper then y.reg.pledgeKeeper else y.reg.pledgePro;
    var (reg, err) := R.RegisterRole(y.reg, index, PledgedIn(y.pool, y.w, index), need, role);
    (y.(reg := reg), err)
  }

  function RegisterUser(y: Sys, index: nat, g: nat): (Sys, Error)
    requires Shape(y)
  {
    if R.UserError(y.reg, index, g) != NoError then (y, R.UserError(y.reg, index, g))
    else
      var (f, err) := F.CreateFs(y.fms[g], y.reg.local, index);
      if err != NoError then (SetFs(y, g, f), err)
      else (SetFs(y, g, f).(reg := R.RegisterUser(y.reg, index, g).0), NoError)
  }

  // fsLocal is the contract address derived for the new group.
  function CreateGroup(y: Sys, now: u64, caller: Address, level: nat, fsLocal: Address): (Sys, Error) {
    var (reg, err) := R.CreateGroup(y.reg, caller, level);
    if err != NoError then (y, err)
    else (y.(reg := reg, fms := y.fms + [F.NewFs(y.reg.local, fsLocal, 0, now)]), NoError)
  }

  function SetReady(y: Sys, g: nat, signatures: nat): (Sys, Error) {
    var (reg, err) := R.SetReady(y.reg, g, signatures);
    (y.(reg := reg), err)
  }

  function AddKeeperToGroup(y: Sys, index: nat, g: nat): (Sys, Error)
    requires Shape(y)
  {
    if R.KeeperError(y.reg, index, g) != NoError then (y, R.KeeperError(y.reg, index, g))
    else
      var (f, err) := F.AddKeeper(y.fms[g], y.reg.local, index);
      if err != NoError then (SetFs(y, g, f), err)
      else (SetFs(y, g, f).(reg := R.AddKeeperToGroup(y.reg, index, g).0), NoError)
  }

  function AddProviderToGroup(y: Sys, index: nat, g: nat): (Sys, Error) {
    var (reg, err) := R.AddProviderToGroup(y.reg, index, g);
    (y.(reg := reg), err)
  }

  function SetPledgeMoney(y: Sys, kPledge: int, pPledge: int): (Sys, Error) {
    (y.(reg := y.reg.(pledgeKeeper := kPledge, pledgePro := pPledge)), NoError)
  }

  // ---------- Pledging ----------

  // The administrator pledges out of the role manager's own account and approves first; the
  // approval names the pool's owner, which is the role manager itself.
  function Pledge(y: Sys, caller: Address, index: nat, money: int): (Sys, Error)
    requires Shape(y)
  {
    var r := y.reg;
    if R.InfoError(r, index) != NoError then (y, R.InfoError(r, index))
    else if |r.tokens| == 0 then (y, ErrEmpty)
    else if caller == r.admin && r.tokens[0] !in y.w then (y, ErrEmpty)
    else if caller != r.admin && caller != r.addrs[index] then (y, ErrPermission)
    else
      var addr := if caller == r.admin then r.local else r.addrs[index];
      var w := if caller == r.admin then Approved(y.w, r.tokens[0], r.local, y.pool.owner, money) else y.w;
      var (pool, w1, err) := P.Pledge(y.pool, w, r.local, addr, index, money);
      (y.(pool := pool, w := w1), err)
  }

  function LockOf(r: R.Registry, role: R.Role): int {
    if role == R.Keeper then r.pledgeKeeper else if role == R.Provider then r.pledgePro else 0
  }

  function Withdraw(y: Sys, index: nat, t: nat, money: int): (Sys, Error)
    requires Shape(y)
  {
    var r := y.reg;
    if |r.tokens| <= t then (y, ErrInput)
    else if R.InfoError(r, index) != NoError then (y, R.InfoError(r, index))
    else
      var lock := LockOf(r, R.InfoOf(r, index).role);
      var (pool, w, err) := P.Withdraw(y.pool, y.w, P.Payee(r.addrs[index]), index, t, money, lock);
      (y.(pool := pool, w := w), err)
  }

  // ---------- Storage ----------

  function MemberError(r: R.Registry, index: nat, t: nat): Error {
    if |r.tokens| <= t then ErrInput
    else if R.InfoError(r, index) != NoError then R.InfoError(r, index)
    else R.GroupError(r, R.InfoOf(r, index).gIndex)
  }

  function InfoFor(r: R.Registry, index: nat): F.Info
    requires R.InfoError(r, index) == NoError
  {
    F.Info(r.addrs[index], R.InfoOf(r, index).role == R.Keeper)
  }

  function Recharge(y: Sys, caller: Address, index: nat, t: nat, money: int): (Sys, Error)
    requires Shape(y)
  {
    var r := y.reg;
    if MemberError(r, index, t) != NoError then (y, MemberError(r, index, t))
    else if caller == r.admin && r.tokens[t] !in y.w then (y, ErrEmpty)
    else if caller != r.admin && caller != r.addrs[index] then (y, ErrPermission)
    else
      var g := R.InfoOf(r, index).gIndex;
      var addr := if caller == r.admin then r.local else r.addrs[index];
      var w := if caller == r.admin then Approved(y.w, r.tokens[t], r.local, y.fms[g].owner, money) else y.w;
      var (f, w1, err) := F.Recharge(y.fms[g], w, r.local, addr, index, r.tokens, t, money);
      (SetFs(y, g, f).(w := w1), err)
  }

  function WithdrawFromFs(y: Sys, now: u64, index: nat, t: nat, amount: int): (Sys, Error)
    requires Shape(y)
  {
    var r := y.reg;
    if MemberError(r, index, t) != NoError then (y, MemberError(r, index, t))
    else
      var g := R.InfoOf(r, index).gIndex;
      var (f, w, err) := F.Withdraw(y.fms[g], y.w, now, InfoFor(r, index), index, r.tokens, t, amount);
      (SetFs(y, g, f).(w := w), err)
  }

  // A loss the provider admits in the main token counts as paid for the issuance totals.
  function ProWithdraw(y: Sys, now: u64, index: nat, t: nat, pay: int, lost: int): (Sys, Error)
    requires Shape(y)
  {
    var r := y.reg;
    if MemberError(r, index, t) != NoError then (y, MemberError(r, index, t))
    else
      var g := R.InfoOf(r, index).gIndex;
      var before := F.SettlementOf(y.fms[g], MultiKey(index, t)).lost;
      var (f, w, err) := F.ProWithdraw(y.fms[g], y.w, now, InfoFor(r, index), index, r.tokens, t, pay, lost);
      var y1 := SetFs(y, g, f).(w := w);
      if err != NoError || t != 0 then (y1, err)
      else (y1.(iss := y1.iss.(totalPaid := y1.iss.totalPaid + lost - before)), NoError)
  }

  // ---------- Orders ----------

  function IndexOf(r: R.Registry, caller: Address): nat {
    if caller in r.info then r.info[caller].index else 0
  }

  // The parties' checks common to both order operations; user must have this role if asked.
  function PartyError(r: R.Registry, user: nat, pro: nat, needUser: bool): Error {
    if R.InfoError(r, user) != NoError then R.InfoError(r, user)
    else if needUser && R.InfoOf(r, user).role != R.User then ErrRoleType
    else if R.InfoError(r, pro) != NoError then R.InfoError(r, pro)
    else if R.InfoOf(r, pro).role != R.Provider then ErrRoleType
    else if R.InfoOf(r, pro).gIndex != R.InfoOf(r, user).gIndex then ErrInput
    else R.GroupError(r, R.InfoOf(r, user).gIndex)
  }

  // Issuance for an accepted order in the main token: book it, and send the reward that is
  // due to the pledge pool. The clock moves only when that succeeds.
  function Issue(y: Sys, c: I.Call): (Sys, Error)
    requires 0 < |y.reg.tokens|
  {
    var b := I.Book(y.iss, c);
    var done := b.issue.(lastMint := I.Clock(y.iss.lastMint, c.now));
    if b.paid <= 0 then (y.(iss := done), NoError)
    else
      var (w, err) := Send(y.w, y.reg.tokens[0], y.reg.local, y.pool.local, b.reward);
      (y.(w := w, iss := if err == NoError then done else b.issue), err)
  }

  function AddOrder(y: Sys, now: u64, caller: Address, user: nat, pro: nat, start: u64, end: u64, size: u64,
                    nonce: nat, t: nat, sprice: int): (Sys, Error)
    requires Shape(y)
  {
    var r := y.reg;
    if size == 0 || end <= start || I.DayOf(end) != end then (y, ErrInput)
    else if PartyError(r, user, pro, false) != NoError then (y, PartyError(r, user, pro, false))
    else if |r.tokens| <= t then (y, ErrBalanceNotEnough)
    else
      var g := R.InfoOf(r, user).gIndex;
      var (f, err) := F.AddOrder(y.fms[g], r.local, IndexOf(r, caller), user, pro, start, end, size, nonce, t, sprice);
      var y1 := SetFs(y, g, f);
      if err != NoError || t != 0 then (y1, err)
      else Issue(y1.(reg := R.AddToGroup(r, g, size, sprice)), I.Call(now, start, end, size, sprice))
  }

  function SubOrder(y: Sys, now: u64, caller: Address, user: nat, pro: nat, start: u64, end: u64, size: u64,
                    nonce: nat, t: nat, sprice: int): (Sys, Error)
    requires Shape(y)
  {
    var r := y.reg;
    if PartyError(r, user, pro, true) != NoError then (y, PartyError(r, user, pro, true))
    else
      var g := R.InfoOf(r, user).gIndex;
      var (f, err) := F.SubOrder(y.fms[g], r.local, now, IndexOf(r, caller), user, pro, start, end, size, nonce, t,
                                 sprice);
      var y1 := SetFs(y, g, f);
      if err != NoError then (y1, err)
      else (y1.(reg := R.AddToGroup(r, g, -(size as int), -sprice)), NoError)
  }
}
