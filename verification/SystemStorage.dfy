// What the role manager's calls to the storage managers do from end to end: which group serves an
// index, whose balance moves, and which registered address pays or is paid.
module SystemStorage {
  import opened Types
  import opened Erc
  import opened System
  import opened SystemEffects
  import P = Pool
  import R = Registry
  import RE = RegistryEffects
  import F = Fs
  import FE = FsEffects
  import FR = FsRecords
  import I = Issuance
  import IC = IssuanceClock

  // ---------- Money ----------

  // Why an index has no storage money in token t: the token, the index or its group is not there.
  ghost function ServedError(y: Sys, index: nat, t: nat): Error
    requires R.Indexed(y.reg)
  {
    if |y.reg.tokens| <= t then ErrInput
    else if RE.IndexError(y.reg, index) != NoError then RE.IndexError(y.reg, index)
    else RE.OpenError(y.reg, GroupOf(y.reg, index))
  }

  lemma Served(y: Sys, index: nat, t: nat)
    requires Linked(y)
    ensures MemberError(y.reg, index, t) == ServedError(y, index, t)
    ensures ServedError(y, index, t) == NoError ==>
      && index < |y.reg.addrs| && t < |y.reg.tokens| && GroupOf(y.reg, index) < |y.fms| == |y.reg.groups|
      && R.InfoError(y.reg, index) == NoError
      && InfoFor(y.reg, index) == F.Info(AddressOf(y.reg, index), RoleOf(y.reg, index) == R.Keeper)
      && FR.Inv(y.fms[GroupOf(y.reg, index)])
      && y.fms[GroupOf(y.reg, index)].owner == y.reg.local != y.fms[GroupOf(y.reg, index)].local
  {
    hide P.Inv, P.Coherent, FR.Inv;
    RE.IndexErrorIs(y.reg, index);
  }

  // The storage manager of group g alone changed, to f, and the ledgers.
  ghost predicate OneManager(y: Sys, z: Sys, g: nat) {
    g < |y.fms| && |z.fms| == |y.fms| && z == y.(fms := y.fms[g := z.fms[g]], w := z.w)
  }

  // A deposit for index reaches the storage manager of its group exactly when the group is open,
  // the index or the administrator calls, and the storage manager has an allowance on the payer
  // (again the approval of an administrator's call names the role manager, and does not help).
  // Then the balance of index in that token, and no other, grows by the money, and the payer's
  // account pays it to the storage manager.
  lemma RechargeEffect(y: Sys, caller: Address, index: nat, t: nat, money: int, k: MultiKey, tk: Address, a: Address)
    requires Linked(y)
    ensures var (z, err) := Recharge(y, caller, index, t, money);
      && (ServedError(y, index, t) != NoError ==> err == ServedError(y, index, t) && z == y)
      && (ServedError(y, index, t) == NoError ==>
            var g := GroupOf(y.reg, index);
            && index < |y.reg.addrs| && t < |y.reg.tokens| && g < |y.fms|
            && OneManager(y, z, g)
            && (err == NoError <==>
                  && (caller == y.reg.admin || caller == AddressOf(y.reg, index))
                  && CanTake(y.w, y.reg.tokens[t], y.fms[g].local, PayerOf(y.reg, caller, index), money))
            && Get(z.fms[g].balance, k) == Get(y.fms[g].balance, k)
                 + (if err == NoError && k == MultiKey(index, t) then money else 0)
            && BalanceOf(z.w, tk, a) == BalanceOf(y.w, tk, a)
                 - (if err == NoError && tk == y.reg.tokens[t] && a == PayerOf(y.reg, caller, index) then money else 0)
                 + (if err == NoError && tk == y.reg.tokens[t] && a == y.fms[g].local then money else 0))
  {
    hide P.Inv, P.Coherent, F.Recharge, FR.Inv, R.Indexed, MemberError, CanTake, TakeError, Approved;
    Served(y, index, t);
    if ServedError(y, index, t) == NoError {
      var r, g, addr := y.reg, GroupOf(y.reg, index), PayerOf(y.reg, caller, index);
      var w := if caller == r.admin then Approved(y.w, r.tokens[t], r.local, y.fms[g].owner, money) else y.w;
      ApprovedEffect(y.w, r.tokens[t], r.local, y.fms[g].owner, money);
      MissingToken(y.w, r.tokens[t], y.fms[g].local, addr, money);
      FE.RechargeEffect(y.fms[g], w, r.local, addr, index, r.tokens, t, money, tk, a);
    }
  }

  // Withdraw pays the address registered for the index what its group's storage manager owes it:
  // its balance, and for a keeper its part of the pot when that is distributed.
  lemma WithdrawFromFsEffect(y: Sys, now: u64, index: nat, t: nat, amount: int, k: MultiKey, tk: Address, a: Address)
    requires Linked(y)
    ensures var (z, err) := WithdrawFromFs(y, now, index, t, amount);
      && (ServedError(y, index, t) != NoError ==> err == ServedError(y, index, t) && z == y)
      && (ServedError(y, index, t) == NoError ==>
            var g, addr := GroupOf(y.reg, index), AddressOf(y.reg, index);
            && g < |y.fms| && t < |y.reg.tokens|
            && OneManager(y, z, g)
            && var info := F.Info(addr, RoleOf(y.reg, index) == R.Keeper);
            var due := FE.Owing(y.fms[g], now, info, amount, MultiKey(index, t));
            var pay := if amount == 0 || due < amount then due else amount;
            && (err == NoError <==>
                  && 0 <= amount && (FE.Distributes(y.fms[g], now, info, amount) ==> 0 < y.fms[g].totalCount)
                  && CanPay(y.w, y.reg.tokens[t], y.fms[g].local, pay))
            && Get(z.fms[g].balance, k) == FE.Owing(y.fms[g], now, info, amount, k)
                 - (if err == NoError && k == MultiKey(index, t) then pay else 0)
            && BalanceOf(z.w, tk, a) == BalanceOf(y.w, tk, a)
                 - (if err == NoError && tk == y.reg.tokens[t] && a == y.fms[g].local then pay else 0)
                 + (if err == NoError && tk == y.reg.tokens[t] && a == addr then pay else 0))
  {
    hide P.Inv, P.Coherent, F.Withdraw, FR.Inv, R.Indexed, MemberError, CanPay, PayError, FE.Owing, FE.Distributes,
      R.InfoError, InfoFor;
    Served(y, index, t);
    if ServedError(y, index, t) == NoError {
      var g := GroupOf(y.reg, index);
      FE.WithdrawEffect(y.fms[g], y.w, now, InfoFor(y.reg, index), index, y.reg.tokens, t, amount, k, tk, a);
    }
  }

  // ProWithdraw pays the address registered for the provider all that the provider has after its
  // claim, and leaves nothing. An accepted claim that is paid adds the newly admitted loss to the
  // issuance's totalPaid, in the main token.
  lemma ProWithdrawEffect(y: Sys, now: u64, index: nat, t: nat, pay: int, lost: int, j: MultiKey, tk: Address,
                          a: Address)
    requires Linked(y)
    ensures var (z, err) := ProWithdraw(y, now, index, t, pay, lost);
      && (ServedError(y, index, t) != NoError ==> err == ServedError(y, index, t) && z == y)
      && (ServedError(y, index, t) == NoError ==>
            var g, addr, k := GroupOf(y.reg, index), AddressOf(y.reg, index), MultiKey(index, t);
            && g < |y.fms| && t < |y.reg.tokens|
            && OneManager(y, z.(iss := y.iss), g)
            && var f := y.fms[g];
            var accepted := FE.Accepts(f, now, k, pay, lost);
            var due := Get(f.balance, k) + if accepted then pay - F.SettlementOf(f, k).hasPaid else 0;
            && (err == NoError <==> accepted && CanPay(y.w, y.reg.tokens[t], f.local, due))
            && Get(z.fms[g].balance, j) == (if j != k then Get(f.balance, j) else if err == NoError then 0 else due)
            && BalanceOf(z.w, tk, a) == BalanceOf(y.w, tk, a)
                 - (if err == NoError && tk == y.reg.tokens[t] && a == f.local then due else 0)
                 + (if err == NoError && tk == y.reg.tokens[t] && a == addr then due else 0)
            && z.iss == y.iss.(totalPaid := z.iss.totalPaid)
            && z.iss.totalPaid == y.iss.totalPaid
                 + if err == NoError && t == 0 then lost - F.SettlementOf(f, k).lost else 0)
  {
    hide P.Inv, P.Coherent, F.ProWithdraw, FR.Inv, R.Indexed, MemberError, CanPay, PayError, R.InfoError, InfoFor;
    Served(y, index, t);
    if ServedError(y, index, t) == NoError {
      var g := GroupOf(y.reg, index);
      FE.ProWithdrawEffect(y.fms[g], y.w, now, InfoFor(y.reg, index), index, y.reg.tokens, t, pay, lost, j, tk, a);
    }
  }

  // ---------- Orders ----------

  // Why two indices cannot have an order: one of them is not there or has another role, they are
  // served by different groups, or the group is not open. Only SubOrder looks at the user's role.
  ghost function PairError(y: Sys, user: nat, pro: nat, needUser: bool): Error
    requires R.Indexed(y.reg)
  {
    if RE.IndexError(y.reg, user) != NoError then RE.IndexError(y.reg, user)
    else if needUser && RoleOf(y.reg, user) != R.User then ErrRoleType
    else if RE.IndexError(y.reg, pro) != NoError then RE.IndexError(y.reg, pro)
    else if RoleOf(y.reg, pro) != R.Provider then ErrRoleType
    else if GroupOf(y.reg, pro) != GroupOf(y.reg, user) then ErrInput
    else RE.OpenError(y.reg, GroupOf(y.reg, user))
  }

  lemma Paired(y: Sys, user: nat, pro: nat, needUser: bool)
    requires Linked(y)
    ensures PartyError(y.reg, user, pro, needUser) == PairError(y, user, pro, needUser)
    ensures PairError(y, user, pro, needUser) == NoError ==>
      && user < |y.reg.addrs| && GroupOf(y.reg, user) == R.InfoOf(y.reg, user).gIndex < |y.fms| == |y.reg.groups|
      && FR.Inv(y.fms[GroupOf(y.reg, user)]) && y.fms[GroupOf(y.reg, user)].owner == y.reg.local
  {
    hide P.Inv, P.Coherent, FR.Inv;
    RE.IndexErrorIs(y.reg, user);
    RE.IndexErrorIs(y.reg, pro);
  }

  // The keeper that calls, or index 0 for a caller that is not registered.
  ghost predicate CallsAs(r: R.Registry, caller: Address, kindex: nat) {
    if caller in r.addrs then kindex < |r.addrs| && r.addrs[kindex] == caller else kindex == 0
  }

  lemma CallerIndex(r: R.Registry, caller: Address)
    requires R.Indexed(r)
    ensures CallsAs(r, caller, IndexOf(r, caller))
  {
    RE.KnownAddress(r, caller);
  }

  // What an order does in the storage manager of a group: see FsEffects.AddOrderEffect.
  ghost predicate OrderAdded(f: F.Fs, g: F.Fs, k: nat, user: nat, pro: nat, t: nat, start: u64, end: u64, size: u64,
                             sprice: int) {
    var cost, tax := FE.CostOf(start, end, sprice), FE.PriceOf(start, end, sprice) / 100;
    var rec := FE.RecordOf(f.fs, user, pro, t);
    && (forall j :: Get(g.balance, j) == Get(f.balance, j)
          + (if j == MultiKey(f.foundation, t) then tax else 0) - (if j == MultiKey(user, t) then cost else 0))
    && FE.RecordsMove(f.fs, g.fs, user, pro, t, 1, 0, Add64(rec.size, size), sprice)
    && FE.Counts(f, g, k)
  }

  // The storage manager of the user takes the order.
  ghost predicate Takes(f: F.Fs, user: nat, pro: nat, t: nat, start: u64, end: u64, nonce: nat, sprice: int) {
    && FE.Active(f.fs, user)
    && MultiKey(user, t) in f.balance && FE.CostOf(start, end, sprice) <= Get(f.balance, MultiKey(user, t))
    && nonce == FE.NonceOf(f.fs, user, pro) && FE.RecordOf(f.fs, user, pro, t).time <= start
  }

  // The reward of a main-token order is nothing, or can be paid.
  ghost predicate RewardPaid(y: Sys, c: I.Call)
    requires 0 < |y.reg.tokens|
  {
    var b := I.Book(y.iss, c);
    b.paid <= 0 || CanPay(y.w, y.reg.tokens[0], y.reg.local, b.reward)
  }

  // An order goes through exactly when it has a size, a duration and an end at midnight, its
  // parties fit, its token is listed, the storage manager of the user's group takes it, and a
  // reward that is due can be paid. A main-token order whose reward cannot be paid is refused, and
  // stays in the storage manager and in the totals of the group; the issuance time stays, too.
  lemma AddOrderEffect(y: Sys, now: u64, caller: Address, user: nat, pro: nat, start: u64, end: u64, size: u64,
                       nonce: nat, t: nat, sprice: int)
    requires Linked(y)
    ensures 0 < |y.reg.tokens|
    ensures var (z, err) := AddOrder(y, now, caller, user, pro, start, end, size, nonce, t, sprice);
      var fits := 0 < size && start < end && end % 86400 == 0 && PairError(y, user, pro, false) == NoError
                  && t < |y.reg.tokens|;
      && (!fits ==>
            && z == y
            && err == if size == 0 || end <= start || end % 86400 != 0 then ErrInput
                      else if PairError(y, user, pro, false) != NoError then PairError(y, user, pro, false)
                      else ErrBalanceNotEnough)
      && (fits ==>
            var g := GroupOf(y.reg, user);
            && g < |y.fms| == |y.reg.groups| == |z.fms|
            && var taken := Takes(y.fms[g], user, pro, t, start, end, nonce, sprice);
            && (err == NoError <==> taken && (t == 0 ==> RewardPaid(y, I.Call(now, start, end, size, sprice))))
            && (forall h: nat :: h < |y.fms| && h != g ==> z.fms[h] == y.fms[h])
            && (taken ==> exists k: nat :: CallsAs(y.reg, caller, k)
                            && OrderAdded(y.fms[g], z.fms[g], k, user, pro, t, start, end, size, sprice))
            && (!taken ==> z.fms[g].balance == y.fms[g].balance && z.iss == y.iss)
            && z.reg == (if taken && t == 0 then R.AddToGroup(y.reg, g, size, sprice) else y.reg)
            && (t != 0 || err != NoError ==> z.w == y.w && z.iss.lastMint == y.iss.lastMint)
            && (t != 0 ==> z.iss == y.iss)
            && (taken && t == 0 ==>
                  var c := I.Call(now, start, end, size, sprice);
                  z.iss == if err == NoError then I.AddOrder(y.iss, c) else I.Book(y.iss, c).issue)
            && (t == 0 && err == NoError ==>
                  z.iss.lastMint == if now < y.iss.lastMint then y.iss.lastMint + 86400
                                    else Min(now, y.iss.lastMint + 86400)))
  {
    hide P.Inv, P.Coherent, F.AddOrder, FR.Inv, R.Indexed, PartyError, Issue, I.Book, I.Clock, CanPay, OrderAdded,
      Takes, RewardPaid, FE.RecordsMove, FE.Counts, IndexOf, CallsAs, R.AddToGroup;
    PoolPart(y);
    Paired(y, user, pro, false);
    MidnightEnd(end);
    if 0 < size && start < end && PairError(y, user, pro, false) == NoError && t < |y.reg.tokens| {
      var g := GroupOf(y.reg, user);
      var k := IndexOf(y.reg, caller);
      CallerIndex(y.reg, caller);
      var (f, err) := F.AddOrder(y.fms[g], y.reg.local, k, user, pro, start, end, size, nonce, t, sprice);
      ManagerTakes(y.fms[g], k, user, pro, start, end, size, nonce, t, sprice);
      if err == NoError && t == 0 {
        TotalsOnly(y.reg, g, size, sprice);
        IssueEffect(SetFs(y, g, f).(reg := R.AddToGroup(y.reg, g, size, sprice)), y,
                    I.Call(now, start, end, size, sprice));
      }
    }
  }

  lemma TotalsOnly(r: R.Registry, g: nat, size: int, price: int)
    requires g < |r.groups|
    ensures var q := R.AddToGroup(r, g, size, price); q.tokens == r.tokens && q.local == r.local
  {
  }

  lemma MidnightEnd(end: u64)
    ensures I.DayOf(end) == end <==> end % 86400 == 0
  {
  }

  lemma ManagerTakes(f: F.Fs, k: nat, user: nat, pro: nat, start: u64, end: u64, size: u64, nonce: nat, t: nat,
                     sprice: int)
    ensures var (g, err) := F.AddOrder(f, f.owner, k, user, pro, start, end, size, nonce, t, sprice);
      && (err == NoError <==> Takes(f, user, pro, t, start, end, nonce, sprice))
      && (err == NoError ==> OrderAdded(f, g, k, user, pro, t, start, end, size, sprice))
      && (err != NoError ==> g.balance == f.balance)
  {
    hide F.AddOrder, FE.CostOf, FE.PriceOf, FE.RecordsMove, FE.Counts;
    FE.AddOrderEffect(f, f.owner, k, user, pro, start, end, size, nonce, t, sprice);
  }

  // Issuance pays, or fails to, and moves its clock only when it does not fail. The totals
  // count the order either way.
  lemma IssueEffect(y1: Sys, y: Sys, c: I.Call)
    requires 0 < |y.reg.tokens| && y1.reg.tokens == y.reg.tokens && y1.reg.local == y.reg.local
    requires y1.iss == y.iss && y1.w == y.w && y1.pool == y.pool
    ensures var (z, err) := Issue(y1, c);
      && (err == NoError <==> RewardPaid(y, c))
      && z.reg == y1.reg && z.fms == y1.fms
      && z.iss == (if err == NoError then I.AddOrder(y.iss, c) else I.Book(y.iss, c).issue)
      && (err != NoError ==> z.w == y.w && z.iss.lastMint == y.iss.lastMint)
      && (err == NoError ==>
            z.iss.lastMint == if c.now < y.iss.lastMint then y.iss.lastMint + 86400
                              else Min(c.now, y.iss.lastMint + 86400))
  {
    hide Send, CanPay, PayError;
    BookKeepsClock(y.iss, c);
    hide I.Book;
    IC.CallMovesClock(y.iss, c);
    var b := I.Book(y.iss, c);
    SendSucceeds(y.w, y.reg.tokens[0], y.reg.local, y.pool.local, b.reward);
    SendEffect(y.w, y.reg.tokens[0], y.reg.local, y.pool.local, b.reward, y.reg.tokens[0], y.reg.local);
  }

  lemma BookKeepsClock(s: I.Issue, c: I.Call)
    ensures I.Book(s, c).issue.lastMint == s.lastMint
  {
    hide I.MintLoop, I.PaidNow;
  }

  // The storage manager of the user closes the order: see FsEffects.SubOrderEffect.
  ghost predicate OrderClosed(f: F.Fs, g: F.Fs, k: nat, user: nat, pro: nat, t: nat, start: u64, end: u64, size: u64,
                              sprice: int) {
    var rec := FE.RecordOf(f.fs, user, pro, t);
    && size <= rec.size && start < end
    && FE.RecordsMove(f.fs, g.fs, user, pro, t, 0, 1, rec.size - size, -sprice)
    && FE.PotMoves(f, g, t, sprice * (end - start) / 100)
    && FE.Counts(f, g, k)
  }

  // An order is closed exactly when its parties fit, it has a size and a duration, it has ended,
  // and the record of the active user with the provider holds it under this number. A refused call
  // changes nothing. Nobody's balance changes.
  lemma SubOrderEffect(y: Sys, now: u64, caller: Address, user: nat, pro: nat, start: u64, end: u64, size: u64,
                       nonce: nat, t: nat, sprice: int)
    requires Linked(y)
    ensures var (z, err) := SubOrder(y, now, caller, user, pro, start, end, size, nonce, t, sprice);
      && (PairError(y, user, pro, true) != NoError ==> err == PairError(y, user, pro, true))
      && (PairError(y, user, pro, true) == NoError ==>
            var g := GroupOf(y.reg, user);
            && g < |y.fms| == |y.reg.groups| == |z.fms|
            && var f := y.fms[g];
            && (err == NoError <==>
                  && 0 < size && start < end <= now && FE.Active(f.fs, user)
                  && nonce == FE.SubNonceOf(f.fs, user, pro) && size <= FE.RecordOf(f.fs, user, pro, t).size)
            && (forall h: nat :: h < |y.fms| && h != g ==> z.fms[h] == y.fms[h])
            && z.fms[g].balance == f.balance
            && (err == NoError ==>
                  && z.reg == R.AddToGroup(y.reg, g, -(size as int), -sprice)
                  && exists k: nat :: CallsAs(y.reg, caller, k)
                       && OrderClosed(f, z.fms[g], k, user, pro, t, start, end, size, sprice)))
      && (err != NoError ==> z == y)
      && z.w == y.w && z.iss == y.iss && z.pool == y.pool
  {
    hide P.Inv, P.Coherent, F.SubOrder, FR.Inv, R.Indexed, PartyError, OrderClosed, FE.RecordsMove, FE.Counts,
      FE.PotMoves, IndexOf, CallsAs, R.AddToGroup;
    Paired(y, user, pro, true);
    if PairError(y, user, pro, true) == NoError {
      var g := GroupOf(y.reg, user);
      var k := IndexOf(y.reg, caller);
      CallerIndex(y.reg, caller);
      ManagerCloses(y.fms[g], now, k, user, pro, start, end, size, nonce, t, sprice);
      if F.SubOrder(y.fms[g], y.reg.local, now, k, user, pro, start, end, size, nonce, t, sprice).1 != NoError {
        assert y.fms[g := y.fms[g]] == y.fms;
      }
    }
  }

  lemma ManagerCloses(f: F.Fs, now: u64, k: nat, user: nat, pro: nat, start: u64, end: u64, size: u64, nonce: nat,
                      t: nat, sprice: int)
    requires FR.Inv(f)
    ensures var (g, err) := F.SubOrder(f, f.owner, now, k, user, pro, start, end, size, nonce, t, sprice);
      && (err == NoError <==>
            && 0 < size && start < end <= now && FE.Active(f.fs, user)
            && nonce == FE.SubNonceOf(f.fs, user, pro) && size <= FE.RecordOf(f.fs, user, pro, t).size)
      && g.balance == f.balance
      && (err == NoError ==> OrderClosed(f, g, k, user, pro, t, start, end, size, sprice))
      && (err != NoError ==> g == f)
  {
    hide F.SubOrder, FR.Inv, FE.RecordsMove, FE.Counts, FE.PotMoves;
    FE.SubOrderEffect(f, f.owner, now, k, user, pro, start, end, size, nonce, t, sprice);
  }
}
