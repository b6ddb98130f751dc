// Keeper sharing in closed form, and runs of storage management.
module FsRuns {
  import opened Types
  import opened Sums
  import opened Erc
  import opened Fs
  import opened FsMoney
  import opened FsRecords
  import S = Settlements

  // ---------- One distribution ----------

  ghost function SetOf(ks: seq<nat>): set<nat> {
    set k | k in ks
  }

  ghost predicate AllCounted(f: Fs, ks: seq<nat>) {
    forall k :: k in ks ==> k in f.count
  }

  // g is f after each keeper in ks received per times its count of token t.
  ghost predicate Paid(f: Fs, g: Fs, t: nat, per: int, ks: seq<nat>)
    requires AllCounted(f, ks)
  {
    && g.count == f.count
    && (forall k: MultiKey ::
          Get(g.balance, k) == Get(f.balance, k) + if k.token == t && k.role in ks then per * f.count[k.role] else 0)
    && (forall u: nat ::
          Get(g.tAcc, u) == Get(f.tAcc, u) - if u == t then per * Sum(SetOf(ks), CountIn(f.count)) else 0)
  }

  lemma {:induction false} ShareKeepersPays(f: Fs, t: nat, per: int, ks: seq<nat>)
    requires AllCounted(f, ks) && Distinct(ks)
    ensures Paid(f, ShareKeepers(f, t, per, ks), t, per, ks)
    decreases |ks|
  {
    hide Paid, CountIn, Sum, PayKeeper;
    if ks == [] {
      PaidNothing(f, t, per);
    } else {
      var k := ks[0];
      var c := f.count[k];
      var h := PayKeeper(f, t, per, k);
      PayKeeperPays(f, t, per, k);
      assert ShareKeepers(f, t, per, ks) == ShareKeepers(h, t, per, ks[1..]);
      ShareKeepersPays(h, t, per, ks[1..]);
      HeadCount(f, ks);
      Distribute(per, c, Sum(SetOf(ks[1..]), CountIn(f.count)));
      PaidStep(f, h, ShareKeepers(h, t, per, ks[1..]), t, per, ks);
    }
  }

  lemma PaidNothing(f: Fs, t: nat, per: int)
    ensures Paid(f, f, t, per, [])
  {
    var none: seq<nat> := [];
    assert SetOf(none) == {};
    assert per * Sum(SetOf(none), CountIn(f.count)) == 0;
  }

  lemma PayKeeperPays(f: Fs, t: nat, per: int, k: nat)
    requires k in f.count
    ensures var h := PayKeeper(f, t, per, k);
      && h.count == f.count
      && (forall j: MultiKey ::
            Get(h.balance, j) == Get(f.balance, j) + if j == MultiKey(k, t) then per * f.count[k] else 0)
      && (forall u: nat :: Get(h.tAcc, u) == Get(f.tAcc, u) - if u == t then per * f.count[k] else 0)
  {
  }

  lemma HeadCount(f: Fs, ks: seq<nat>)
    requires AllCounted(f, ks) && Distinct(ks) && ks != []
    ensures Sum(SetOf(ks), CountIn(f.count)) == f.count[ks[0]] + Sum(SetOf(ks[1..]), CountIn(f.count))
  {
    assert SetOf(ks) == SetOf(ks[1..]) + {ks[0]};
    SumInsert(SetOf(ks[1..]), CountIn(f.count), ks[0]);
  }

  lemma PaidStep(f: Fs, h: Fs, g: Fs, t: nat, per: int, ks: seq<nat>)
    requires ks != [] && AllCounted(f, ks) && Distinct(ks) && h.count == f.count
    requires Paid(h, g, t, per, ks[1..])
    requires forall k: MultiKey ::
      Get(h.balance, k) == Get(f.balance, k) + if k == MultiKey(ks[0], t) then per * f.count[ks[0]] else 0
    requires forall u: nat :: Get(h.tAcc, u) == Get(f.tAcc, u) - if u == t then per * f.count[ks[0]] else 0
    requires per * Sum(SetOf(ks), CountIn(f.count))
          == per * f.count[ks[0]] + per * Sum(SetOf(ks[1..]), CountIn(f.count))
    ensures Paid(f, g, t, per, ks)
  {
    hide CountIn;
    assert forall k :: k in ks <==> k == ks[0] || k in ks[1..];
    forall k: MultiKey
      ensures Get(g.balance, k) == Get(f.balance, k) + if k.token == t && k.role in ks then per * f.count[k.role] else 0
    {
      assert k == MultiKey(k.role, k.token);
    }
  }

  // The share of keeper r in token t.
  function Part(f: Fs, r: nat, t: nat): int
    requires 0 < f.totalCount
  {
    if r in f.count then Get(f.tAcc, t) / f.totalCount * f.count[r] else 0
  }

  // g is f after the pots ts were distributed: every keeper has its part of each pot, and
  // the remainder stays.
  ghost predicate Distributed(f: Fs, g: Fs, ts: seq<nat>)
    requires 0 < f.totalCount
  {
    && g.count == f.count && g.totalCount == f.totalCount && g.keepers == f.keepers
    && (forall k: MultiKey ::
          Get(g.balance, k) == Get(f.balance, k) + if k.token in ts then Part(f, k.role, k.token) else 0)
    && (forall t: nat :: Get(g.tAcc, t) == if t in ts then Get(f.tAcc, t) % f.totalCount else Get(f.tAcc, t))
  }

  lemma ShareOneToken(f: Fs, t: nat)
    requires Counted(f) && 0 < f.totalCount && t in f.tAcc
    ensures Distributed(f, ShareKeepers(f, t, f.tAcc[t] / f.totalCount, f.keepers), [t])
  {
    hide ShareKeepers, CountIn;
    var per := f.tAcc[t] / f.totalCount;
    ShareKeepersPays(f, t, per, f.keepers);
    ShareKeepersLocal(f, t, per, f.keepers);
    assert SetOf(f.keepers) == f.count.Keys;
    assert per * f.totalCount == f.tAcc[t] - f.tAcc[t] % f.totalCount;
  }

  lemma {:induction false} ShareTokensDistributes(f: Fs, ts: seq<nat>)
    requires Counted(f) && 0 < f.totalCount && Distinct(ts)
    requires forall t :: t in ts ==> t in f.tAcc
    ensures ShareTokens(f, ts).1 == NoError && Distributed(f, ShareTokens(f, ts).0, ts)
    decreases |ts|
  {
    hide ShareKeepers, Distributed, CountIn;
    if ts == [] {
      DistributedNone(f);
    } else {
      var t := ts[0];
      var per := f.tAcc[t] / f.totalCount;
      var h := ShareKeepers(f, t, per, f.keepers);
      ShareOneToken(f, t);
      ShareKeepersLocal(f, t, per, f.keepers);
      DistributedCounted(f, h, [t]);
      ShareTokensDistributes(h, ts[1..]);
      DistributedStep(f, h, ShareTokens(h, ts[1..]).0, ts);
    }
  }

  lemma DistributedNone(f: Fs)
    requires 0 < f.totalCount
    ensures Distributed(f, f, [])
  {
  }

  lemma DistributedCounted(f: Fs, h: Fs, ts: seq<nat>)
    requires Counted(f) && 0 < f.totalCount && Distributed(f, h, ts)
    requires h.tAcc.Keys == f.tAcc.Keys && h.tokens == f.tokens
    ensures Counted(h)
  {
    CountedUnchanged(f, h);
  }

  lemma DistributedStep(f: Fs, h: Fs, g: Fs, ts: seq<nat>)
    requires 0 < f.totalCount && ts != [] && Distinct(ts)
    requires Distributed(f, h, [ts[0]]) && Distributed(h, g, ts[1..])
    ensures Distributed(f, g, ts)
  {
    assert forall t :: t in ts <==> t == ts[0] || t in ts[1..];
    assert ts[0] !in ts[1..];
    forall k: MultiKey
      ensures Get(g.balance, k) == Get(f.balance, k) + if k.token in ts then Part(f, k.role, k.token) else 0
    {
      if k.token in ts[1..] {
        assert Part(h, k.role, k.token) == Part(f, k.role, k.token);
      }
    }
  }

  // Keeper sharing: whatever the order of the keepers, a due distribution gives each keeper
  // floor(pot / totalCount) times its count, in every token. The parts add up to
  // floor(pot / totalCount) * totalCount, and pot mod totalCount stays.
  lemma KeeperSharing(f: Fs, now: u64)
    requires Inv(f) && Due(f, now) && 0 < f.totalCount
    ensures var (g, err) := Share(f, now);
      && err == NoError && g.lastTime == now
      && Distributed(f, g, f.tokens)
      && Counted(g)
      && (forall t :: t in f.tAcc ==>
            Get(g.tAcc, t) == f.tAcc[t] % f.totalCount
            && f.tAcc[t] - Get(g.tAcc, t) == f.tAcc[t] / f.totalCount * Sum(f.count.Keys, CountIn(f.count)))
  {
    hide ShareTokens, CountIn;
    ShareTokensDistributes(f, f.tokens);
    ShareTokensLocal(f, f.tokens);
    DistributedCounted(f, Share(f, now).0, f.tokens);
    forall t | t in f.tAcc
      ensures f.tAcc[t] - f.tAcc[t] % f.totalCount == f.tAcc[t] / f.totalCount * f.totalCount
    {
    }
  }

  lemma ShareKeepsInv(f: Fs, now: u64)
    requires Inv(f)
    ensures Inv(Share(f, now).0)
  {
    hide Share, Counted, UserPrices, Distributed;
    ShareLocal(f, now);
    var g := Share(f, now).0;
    assert Counted(g) by {
      if Due(f, now) && 0 < f.totalCount {
        KeeperSharing(f, now);
      } else {
        ShareIdle(f, now);
      }
    }
    SameRecords(f, g);
  }

  lemma ShareIdle(f: Fs, now: u64)
    requires !Due(f, now) || f.totalCount == 0
    ensures Share(f, now).0 == f
  {
  }

  // ---------- The other operations ----------

  lemma RechargeKeepsInv(f: Fs, w: World, caller: Address, addr: Address, index: nat, tokens: seq<Address>, t: nat,
                         money: int)
    requires Inv(f)
    ensures Inv(Recharge(f, w, caller, addr, index, tokens, t, money).0)
  {
    hide Agree, Counted, SendFrom, Credit, EnsureToken;
    EnsureTokenKeeps(f, t);
    CreditKeeps(EnsureToken(f, t), MultiKey(index, t), money);
  }

  lemma PayOutKeepsInv(f: Fs, w: World, addr: Address, index: nat, tokens: seq<Address>, t: nat, amount: int)
    requires Inv(f)
    ensures Inv(PayOut(f, w, addr, index, tokens, t, amount).0)
  {
    hide Agree, Counted, Send;
    var k := MultiKey(index, t);
    var f1 := Credit(f, k, 0);
    CreditKeeps(f, k, 0);
    CreditKeeps(f1, k, -(if amount == 0 || f1.balance[k] < amount then f1.balance[k] else amount));
  }

  lemma WithdrawKeepsInv(f: Fs, w: World, now: u64, info: Info, index: nat, tokens: seq<Address>, t: nat, amount: int)
    requires Inv(f)
    ensures Inv(Withdraw(f, w, now, info, index, tokens, t, amount).0)
  {
    hide Inv, Share, PayOut;
    if 0 <= amount && info.Info? {
      ShareKeepsInv(f, now);
      var (f1, err) := if info.isKeeper then Share(f, now) else (f, NoError);
      PayOutKeepsInv(f1, w, info.addr, index, tokens, t, amount);
    }
  }

  lemma ClaimKeepsInv(f: Fs, now: u64, k: MultiKey, pay: int, lost: int)
    requires Inv(f) && k in f.proInfo
    ensures Inv(Claim(f, now, k, pay, lost).0)
  {
    hide UserPrices, Counted;
    var g := Claim(f, now, k, pay, lost).0;
    assert g.proInfo.Keys == f.proInfo.Keys;
    assert forall j :: SettlementOf(g, j).price == SettlementOf(f, j).price;
    assert g.tAcc.Keys == f.tAcc.Keys;
    CountedUnchanged(f, g);
  }

  lemma ProWithdrawKeepsInv(f: Fs, w: World, now: u64, info: Info, pro: nat, tokens: seq<Address>, t: nat, pay: int,
                            lost: int)
    requires Inv(f)
    ensures Inv(ProWithdraw(f, w, now, info, pro, tokens, t, pay, lost).0)
  {
    hide Agree, Counted, Claim, Send, Credit;
    var k := MultiKey(pro, t);
    if k in f.proInfo {
      ClaimKeepsInv(f, now, k, pay, lost);
      var f1 := Claim(f, now, k, pay, lost).0;
      CreditKeeps(f1, k, -Get(f1.balance, k));
    }
  }

  // ---------- Runs ----------

  datatype Op =
    | OpAddKeeper(kindex: nat)
    | OpCreateFs(user: nat)
    | OpAddOrder(kindex: nat, user: nat, pro: nat, start: u64, end: u64, size: u64, nonce: nat, t: nat, sprice: int)
    | OpSubOrder(kindex: nat, user: nat, pro: nat, start: u64, end: u64, size: u64, nonce: nat, t: nat, sprice: int)
    | OpRecharge(addr: Address, index: nat, t: nat, money: int)
    | OpWithdraw(info: Info, index: nat, t: nat, amount: int)
    | OpProWithdraw(info: Info, pro: nat, t: nat, pay: int, lost: int)
    | OpRegisterToken(taddr: Address)
    | OpOutside(w: World)

  datatype Sys = Sys(f: Fs, w: World, tokens: seq<Address>)

  // One call at time now. Nothing is undone when it fails.
  function Step(y: Sys, now: u64, op: Op): Sys {
    var (f, w, ts) := (y.f, y.w, y.tokens);
    match op
    case OpAddKeeper(kindex) => Sys(AddKeeper(f, f.owner, kindex).0, w, ts)
    case OpCreateFs(user) => Sys(CreateFs(f, f.owner, user).0, w, ts)
    case OpAddOrder(kindex, user, pro, start, end, size, nonce, t, sprice) =>
      Sys(AddOrder(f, f.owner, kindex, user, pro, start, end, size, nonce, t, sprice).0, w, ts)
    case OpSubOrder(kindex, user, pro, start, end, size, nonce, t, sprice) =>
      Sys(SubOrder(f, f.owner, now, kindex, user, pro, start, end, size, nonce, t, sprice).0, w, ts)
    case OpRecharge(addr, index, t, money) =>
      var (g, w', _) := Recharge(f, w, f.owner, addr, index, ts, t, money);
      Sys(g, w', ts)
    case OpWithdraw(info, index, t, amount) =>
      var (g, w', _) := Withdraw(f, w, now, info, index, ts, t, amount);
      Sys(g, w', ts)
    case OpProWithdraw(info, pro, t, pay, lost) =>
      var (g, w', _) := ProWithdraw(f, w, now, info, pro, ts, t, pay, lost);
      Sys(g, w', ts)
    case OpRegisterToken(taddr) => Sys(f, w, ts + [taddr])
    case OpOutside(w') => Sys(f, w', ts)
  }

  // What is assumed of the calls: nobody joins as a keeper twice and no token is listed twice,
  // as the role manager sees to; and payers and payees are not the contract itself, which a
  // registration of its address would allow (FsMoney has what happens then).
  ghost predicate Allowed(y: Sys, op: Op) {
    match op
    case OpAddKeeper(kindex) => kindex !in y.f.keepers
    case OpRecharge(addr, _, _, _) => addr != y.f.local
    case OpWithdraw(info, _, _, _) => info.Info? ==> info.addr != y.f.local
    case OpProWithdraw(info, _, _, _, _) => info.Info? ==> info.addr != y.f.local
    case OpRegisterToken(taddr) => taddr !in y.tokens
    case _ => true
  }

  ghost predicate Good(y: Sys) {
    Inv(y.f) && Distinct(y.tokens)
  }

  lemma StepKeepsGood(y: Sys, now: u64, op: Op)
    requires Good(y) && Allowed(y, op)
    ensures Good(Step(y, now, op)) && y.tokens <= Step(y, now, op).tokens
  {
    hide Inv, AddKeeper, CreateFs, AddOrder, SubOrder, Recharge, Withdraw, ProWithdraw;
    var (f, w, ts) := (y.f, y.w, y.tokens);
    match op
    case OpAddKeeper(kindex) => AddKeeperKeepsInv(f, f.owner, kindex);
    case OpCreateFs(user) => CreateFsKeepsInv(f, f.owner, user);
    case OpAddOrder(kindex, user, pro, start, end, size, nonce, t, sprice) =>
      AddOrderKeepsInv(f, f.owner, kindex, user, pro, start, end, size, nonce, t, sprice);
    case OpSubOrder(kindex, user, pro, start, end, size, nonce, t, sprice) =>
      SubOrderKeepsInv(f, f.owner, now, kindex, user, pro, start, end, size, nonce, t, sprice);
    case OpRecharge(addr, index, t, money) => RechargeKeepsInv(f, w, f.owner, addr, index, ts, t, money);
    case OpWithdraw(info, index, t, amount) => WithdrawKeepsInv(f, w, now, info, index, ts, t, amount);
    case OpProWithdraw(info, pro, t, pay, lost) => ProWithdrawKeepsInv(f, w, now, info, pro, ts, t, pay, lost);
    case OpRegisterToken(taddr) =>
    case OpOutside(_) =>
  }

  // Money that an outside transaction brings to the contract in token u.
  function Gift(y: Sys, op: Op, u: nat): int
    requires u < |y.tokens|
  {
    if op.OpOutside? then BalanceOf(op.w, y.tokens[u], y.f.local) - BalanceOf(y.w, y.tokens[u], y.f.local) else 0
  }

  lemma StepConserves(y: Sys, now: u64, op: Op, u: nat)
    requires Good(y) && Allowed(y, op) && u < |y.tokens|
    ensures var z := Step(y, now, op);
      && z.f.local == y.f.local && u < |z.tokens|
      && Surplus(z.f, z.w, z.tokens, u) == Surplus(y.f, y.w, y.tokens, u) + Gift(y, op, u)
  {
    hide Inv, Balances, Escrows, AddOrder, SubOrder, Recharge, Withdraw, ProWithdraw;
    var (f, w, ts) := (y.f, y.w, y.tokens);
    match op
    case OpAddKeeper(kindex) =>
    case OpCreateFs(user) =>
    case OpAddOrder(kindex, user, pro, start, end, size, nonce, t, sprice) =>
      AddOrderOwed(f, f.owner, kindex, user, pro, start, end, size, nonce, t, sprice, u);
      OrdersKeepContract(f, f.owner, now, kindex, user, pro, start, end, size, nonce, t, sprice);
    case OpSubOrder(kindex, user, pro, start, end, size, nonce, t, sprice) =>
      SubOrderOwed(f, f.owner, now, kindex, user, pro, start, end, size, nonce, t, sprice, u);
      OrdersKeepContract(f, f.owner, now, kindex, user, pro, start, end, size, nonce, t, sprice);
    case OpRecharge(addr, index, t, money) => RechargeConserves(f, w, f.owner, addr, index, ts, t, money, u);
    case OpWithdraw(info, index, t, amount) => WithdrawConserves(f, w, now, info, index, ts, t, amount, u);
    case OpProWithdraw(info, pro, t, pay, lost) => ProWithdrawConserves(f, w, now, info, pro, ts, t, pay, lost, u);
    case OpRegisterToken(taddr) => assert (ts + [taddr])[u] == ts[u];
    case OpOutside(_) =>
  }

  lemma StepKeepsLocal(y: Sys, now: u64, op: Op)
    ensures Step(y, now, op).f.local == y.f.local
  {
    hide AddOrder, SubOrder, Recharge, Withdraw, ProWithdraw;
    var (f, w, ts) := (y.f, y.w, y.tokens);
    match op
    case OpAddKeeper(kindex) =>
    case OpCreateFs(user) =>
    case OpAddOrder(kindex, user, pro, start, end, size, nonce, t, sprice) =>
      OrdersKeepContract(f, f.owner, now, kindex, user, pro, start, end, size, nonce, t, sprice);
    case OpSubOrder(kindex, user, pro, start, end, size, nonce, t, sprice) =>
      OrdersKeepContract(f, f.owner, now, kindex, user, pro, start, end, size, nonce, t, sprice);
    case OpRecharge(addr, index, t, money) =>
      MoneyKeepsContract(f, w, now, f.owner, NoInfo(ErrEmpty), addr, index, ts, t, money, 0);
    case OpWithdraw(info, index, t, amount) =>
      MoneyKeepsContract(f, w, now, f.owner, info, f.local, index, ts, t, amount, 0);
    case OpProWithdraw(info, pro, t, pay, lost) =>
      MoneyKeepsContract(f, w, now, f.owner, info, f.local, pro, ts, t, pay, lost);
    case OpRegisterToken(_) =>
    case OpOutside(_) =>
  }

  // The identity of the contract and its keepers: nothing but AddKeeper changes them.
  ghost predicate SameContract(f: Fs, g: Fs) {
    g.local == f.local && g.owner == f.owner && g.foundation == f.foundation && g.keepers == f.keepers
  }

  lemma BookKeepsContract(f: Fs, kindex: nat, user: nat, pro: nat, start: u64, end: u64, size: u64, t: nat, sprice: int)
    requires user in f.fs && pro in f.fs[user].ao
    ensures SameContract(f, BookOrder(f, kindex, user, pro, start, end, size, t, sprice))
  {
    hide S.Add, PayOf, Booked, SettlementOf;
  }

  lemma CloseKeepsContract(f: Fs, kindex: nat, user: nat, pro: nat, start: u64, end: u64, size: u64, t: nat,
                           sprice: int)
    requires user in f.fs && pro in f.fs[user].ao && t in f.fs[user].ao[pro].sInfo
    ensures SameContract(f, CloseOrder(f, kindex, user, pro, start, end, size, t, sprice).0)
  {
    hide S.Sub, S.EndFee, Closed;
  }

  lemma OrdersKeepContract(f: Fs, caller: Address, now: u64, kindex: nat, user: nat, pro: nat, start: u64, end: u64,
                           size: u64, nonce: nat, t: nat, sprice: int)
    ensures SameContract(f, AddOrder(f, caller, kindex, user, pro, start, end, size, nonce, t, sprice).0)
    ensures SameContract(f, SubOrder(f, caller, now, kindex, user, pro, start, end, size, nonce, t, sprice).0)
  {
    hide AddOrder, SubOrder;
    AddKeepsContract(f, caller, kindex, user, pro, start, end, size, nonce, t, sprice);
    SubKeepsContract(f, caller, now, kindex, user, pro, start, end, size, nonce, t, sprice);
  }

  lemma AddKeepsContract(f: Fs, caller: Address, kindex: nat, user: nat, pro: nat, start: u64, end: u64, size: u64,
                         nonce: nat, t: nat, sprice: int)
    ensures SameContract(f, AddOrder(f, caller, kindex, user, pro, start, end, size, nonce, t, sprice).0)
  {
    hide BookOrder, PayOf;
    if FsError(f, user) == NoError {
      BookKeepsContract(OpenOrders(EnsureToken(f, t), user, pro), kindex, user, pro, start, end, size, t, sprice);
    }
  }

  lemma SubKeepsContract(f: Fs, caller: Address, now: u64, kindex: nat, user: nat, pro: nat, start: u64, end: u64,
                         size: u64, nonce: nat, t: nat, sprice: int)
    ensures SameContract(f, SubOrder(f, caller, now, kindex, user, pro, start, end, size, nonce, t, sprice).0)
  {
    hide CloseOrder;
    if FsError(f, user) == NoError && pro in f.fs[user].ao && t in f.fs[user].ao[pro].sInfo {
      CloseKeepsContract(f, kindex, user, pro, start, end, size, t, sprice);
    }
  }

  lemma CreateKeepsContract(f: Fs, caller: Address, user: nat)
    ensures SameContract(f, CreateFs(f, caller, user).0)
  {
  }

  lemma PayOutKeepsContract(f: Fs, w: World, addr: Address, index: nat, tokens: seq<Address>, t: nat, x: int)
    ensures SameContract(f, PayOut(f, w, addr, index, tokens, t, x).0)
    ensures SameContract(f, PayAll(f, w, Info(addr, true), MultiKey(index, t), tokens).0)
  {
    hide Send;
  }

  lemma ClaimKeepsContract(f: Fs, now: u64, k: MultiKey, pay: int, lost: int)
    requires k in f.proInfo
    ensures SameContract(f, Claim(f, now, k, pay, lost).0)
  {
    hide S.Calc, S.Linear;
  }

  lemma MoneyKeepsContract(f: Fs, w: World, now: u64, caller: Address, info: Info, addr: Address, index: nat,
                           tokens: seq<Address>, t: nat, x: int, lost: int)
    ensures SameContract(f, Recharge(f, w, caller, addr, index, tokens, t, x).0)
    ensures SameContract(f, Withdraw(f, w, now, info, index, tokens, t, x).0)
    ensures SameContract(f, ProWithdraw(f, w, now, info, index, tokens, t, x, lost).0)
  {
    hide Recharge, Withdraw, ProWithdraw;
    RechargeKeepsContract(f, w, caller, addr, index, tokens, t, x);
    WithdrawKeepsContract(f, w, now, info, index, tokens, t, x);
    ProWithdrawKeepsContract(f, w, now, info, index, tokens, t, x, lost);
  }

  lemma RechargeKeepsContract(f: Fs, w: World, caller: Address, addr: Address, index: nat, tokens: seq<Address>,
                              t: nat, x: int)
    ensures SameContract(f, Recharge(f, w, caller, addr, index, tokens, t, x).0)
  {
    hide SendFrom;
  }

  lemma WithdrawKeepsContract(f: Fs, w: World, now: u64, info: Info, index: nat, tokens: seq<Address>, t: nat, x: int)
    ensures SameContract(f, Withdraw(f, w, now, info, index, tokens, t, x).0)
  {
    hide Share, PayOut;
    ShareLocal(f, now);
    if info.Info? {
      PayOutKeepsContract(f, w, info.addr, index, tokens, t, x);
      PayOutKeepsContract(Share(f, now).0, w, info.addr, index, tokens, t, x);
    }
  }

  lemma ProWithdrawKeepsContract(f: Fs, w: World, now: u64, info: Info, pro: nat, tokens: seq<Address>, t: nat,
                                 x: int, lost: int)
    ensures SameContract(f, ProWithdraw(f, w, now, info, pro, tokens, t, x, lost).0)
  {
    hide Claim, Send;
    if MultiKey(pro, t) in f.proInfo {
      ClaimKeepsContract(f, now, MultiKey(pro, t), x, lost);
    }
  }

  // ---------- Every run ----------

  datatype Timed = Timed(now: u64, op: Op)

  ghost predicate AllowedRun(y: Sys, ops: seq<Timed>)
    decreases |ops|
  {
    ops == [] || (Allowed(y, ops[0].op) && AllowedRun(Step(y, ops[0].now, ops[0].op), ops[1..]))
  }

  ghost function Run(y: Sys, ops: seq<Timed>): Sys
    decreases |ops|
  {
    if ops == [] then y else Run(Step(y, ops[0].now, ops[0].op), ops[1..])
  }

  // Money that outside transactions bring to the contract in token u, once it is registered.
  ghost function Gifts(y: Sys, ops: seq<Timed>, u: nat): int
    decreases |ops|
  {
    if ops == [] then 0
    else (if u < |y.tokens| then Gift(y, ops[0].op, u) else 0) + Gifts(Step(y, ops[0].now, ops[0].op), ops[1..], u)
  }

  // What the contract owned in token u when the run began, or when the token was registered.
  ghost function OwnedAtFirst(y: Sys, ops: seq<Timed>, u: nat): int
    decreases |ops|
  {
    if u < |y.tokens| then BalanceOf(y.w, y.tokens[u], y.f.local)
    else if ops == [] then 0
    else OwnedAtFirst(Step(y, ops[0].now, ops[0].op), ops[1..], u)
  }

  // In a token that is not registered nothing is owed on account of any call.
  lemma UnlistedStays(y: Sys, now: u64, op: Op, u: nat)
    requires |y.tokens| <= u
    ensures Owed(Step(y, now, op).f, u) == Owed(y.f, u)
  {
    hide Owed, AddOrder, SubOrder, Recharge, Withdraw, ProWithdraw, AddKeeper, CreateFs;
    var (f, w, ts) := (y.f, y.w, y.tokens);
    match op
    case OpAddKeeper(kindex) => RegistrationOwed(f, f.owner, kindex, u);
    case OpCreateFs(user) => RegistrationOwed(f, f.owner, user, u);
    case OpAddOrder(kindex, user, pro, start, end, size, nonce, t, sprice) =>
      AddOrderOwed(f, f.owner, kindex, user, pro, start, end, size, nonce, t, sprice, u);
    case OpSubOrder(kindex, user, pro, start, end, size, nonce, t, sprice) =>
      SubOrderOwed(f, f.owner, now, kindex, user, pro, start, end, size, nonce, t, sprice, u);
    case OpRecharge(addr, index, t, money) =>
      UnlistedMoney(f, w, now, addr, NoInfo(ErrEmpty), index, ts, t, money, 0, u);
    case OpWithdraw(info, index, t, amount) => UnlistedMoney(f, w, now, f.local, info, index, ts, t, amount, 0, u);
    case OpProWithdraw(info, pro, t, pay, lost) => UnlistedMoney(f, w, now, f.local, info, pro, ts, t, pay, lost, u);
    case OpRegisterToken(_) =>
    case OpOutside(_) =>
  }

  lemma RegistrationOwed(f: Fs, caller: Address, index: nat, u: nat)
    ensures Owed(AddKeeper(f, caller, index).0, u) == Owed(f, u)
    ensures Owed(CreateFs(f, caller, index).0, u) == Owed(f, u)
  {
    hide Balances, Escrows;
  }

  lemma UnlistedMoney(f: Fs, w: World, now: u64, addr: Address, info: Info, index: nat, tokens: seq<Address>, t: nat,
                      x: int, lost: int, u: nat)
    requires |tokens| <= u
    ensures Owed(Recharge(f, w, f.owner, addr, index, tokens, t, x).0, u) == Owed(f, u)
    ensures Owed(Withdraw(f, w, now, info, index, tokens, t, x).0, u) == Owed(f, u)
    ensures Owed(ProWithdraw(f, w, now, info, index, tokens, t, x, lost).0, u) == Owed(f, u)
  {
    hide Owed, Recharge, Withdraw, ProWithdraw;
    if t != u {
      OtherTokensOwed(f, w, now, f.owner, info, addr, index, tokens, t, x, lost, u);
    } else {
      UnlistedCall(f, w, now, addr, info, index, tokens, t, x, lost);
    }
  }

  lemma UnlistedCall(f: Fs, w: World, now: u64, addr: Address, info: Info, index: nat, tokens: seq<Address>, t: nat,
                     x: int, lost: int)
    requires |tokens| <= t
    ensures Owed(Recharge(f, w, f.owner, addr, index, tokens, t, x).0, t) == Owed(f, t)
    ensures Owed(Withdraw(f, w, now, info, index, tokens, t, x).0, t) == Owed(f, t)
    ensures Owed(ProWithdraw(f, w, now, info, index, tokens, t, x, lost).0, t) == Owed(f, t)
  {
    hide Owed, Share, Claim, Credit;
    ShareOwed(f, now, t);
    CreditOwed(f, MultiKey(index, t), 0, t);
    CreditOwed(Share(f, now).0, MultiKey(index, t), 0, t);
    if MultiKey(index, t) in f.proInfo {
      ClaimOwed(f, now, MultiKey(index, t), x, lost, t);
    }
  }

  // Conservation: over every run, failed calls and all, what the contract owns in a token
  // beyond what it owes changes by the outside donations and by nothing else, from the start
  // of the run or from the registration of the token on. Along the way the settlements agree
  // with the users' records and the keepers' counters add up.
  lemma {:induction false} RunConserves(y: Sys, ops: seq<Timed>, u: nat)
    requires Good(y) && AllowedRun(y, ops)
    ensures var z := Run(y, ops);
      && Good(z) && |y.tokens| <= |z.tokens| && z.f.local == y.f.local
      && (u < |z.tokens| ==>
            Surplus(z.f, z.w, z.tokens, u) == OwnedAtFirst(y, ops, u) - Owed(y.f, u) + Gifts(y, ops, u))
    decreases |ops|
  {
    hide Good, Step, Gift, Allowed, Owed;
    if ops == [] {
    } else {
      var Timed(now, op) := ops[0];
      var y1 := Step(y, now, op);
      StepKeepsGood(y, now, op);
      StepKeepsLocal(y, now, op);
      if u < |y.tokens| {
        StepConserves(y, now, op, u);
        assert OwnedAtFirst(y1, ops[1..], u) == BalanceOf(y1.w, y1.tokens[u], y1.f.local);
      } else {
        UnlistedStays(y, now, op, u);
      }
      RunConserves(y1, ops[1..], u);
    }
  }

  // From the creation of the contract, for every token registered before or during the run:
  // balances, pot, escrow and unreleased fees add up to exactly the money that came in other
  // than by donation.
  lemma ConservationFromStart(owner: Address, local: Address, foundation: nat, now: u64, w: World, tokens: seq<Address>,
                              ops: seq<Timed>, u: nat)
    requires Distinct(tokens)
    requires AllowedRun(Sys(NewFs(owner, local, foundation, now), w, tokens), ops)
    requires u < |Run(Sys(NewFs(owner, local, foundation, now), w, tokens), ops).tokens|
    ensures var y := Sys(NewFs(owner, local, foundation, now), w, tokens);
      var z := Run(y, ops);
      BalanceOf(z.w, z.tokens[u], local) - OwnedAtFirst(y, ops, u) - Gifts(y, ops, u)
      == Balances(z.f.balance, u) + Get(z.f.tAcc, u) + Escrows(z.f.proInfo, u)
  {
    hide Run, AllowedRun, Gifts, OwnedAtFirst, Balances, Escrows;
    var y := Sys(NewFs(owner, local, foundation, now), w, tokens);
    NewFsGood(y);
    RunConserves(y, ops, u);
  }

  lemma NewFsGood(y: Sys)
    requires y.f == NewFs(y.f.owner, y.f.local, y.f.foundation, y.f.lastTime) && Distinct(y.tokens)
    ensures Good(y)
    ensures forall u: nat :: Owed(y.f, u) == 0
  {
  }
}
