// Exact conservation in storage settlement: what the contract owns in a token changes
// exactly as much as what it owes in it, in every operation and whatever its result.
module FsMoney {
  import opened Types
  import opened Sums
  import opened Erc
  import opened Fs
  import S = Settlements

  // ---------- What the contract owes ----------

  ghost function BalanceIn(balance: map<MultiKey, int>, t: nat): MultiKey -> int {
    (k: MultiKey) => if k.token == t then Get(balance, k) else 0
  }

  function Escrow(se: S.Settlement): int {
    (se.maxPay - se.hasPaid) + (se.managePay - se.endPaid - se.linearPaid)
  }

  ghost function EscrowIn(proInfo: map<MultiKey, S.Settlement>, t: nat): MultiKey -> int {
    (k: MultiKey) => if k.token == t && k in proInfo then Escrow(proInfo[k]) else 0
  }

  ghost function Balances(balance: map<MultiKey, int>, t: nat): int {
    Sum(balance.Keys, BalanceIn(balance, t))
  }

  ghost function Escrows(proInfo: map<MultiKey, S.Settlement>, t: nat): int {
    Sum(proInfo.Keys, EscrowIn(proInfo, t))
  }

  // User and payee balances, the keepers' pot, provider escrow and unreleased keeper fees.
  ghost function Owed(f: Fs, t: nat): int {
    Balances(f.balance, t) + Get(f.tAcc, t) + Escrows(f.proInfo, t)
  }

  lemma BalancePut(balance: map<MultiKey, int>, k: MultiKey, v: int, t: nat)
    ensures Balances(balance[k := v], t) == Balances(balance, t) + if k.token == t then v - Get(balance, k) else 0
  {
    assert balance[k := v].Keys == balance.Keys + {k};
    SumPut(balance.Keys, BalanceIn(balance, t), BalanceIn(balance[k := v], t), k);
  }

  lemma EscrowPut(proInfo: map<MultiKey, S.Settlement>, k: MultiKey, se: S.Settlement, t: nat)
    ensures Escrows(proInfo[k := se], t) == Escrows(proInfo, t)
      + if k.token == t then Escrow(se) - (if k in proInfo then Escrow(proInfo[k]) else 0) else 0
  {
    assert proInfo[k := se].Keys == proInfo.Keys + {k};
    SumPut(proInfo.Keys, EscrowIn(proInfo, t), EscrowIn(proInfo[k := se], t), k);
  }

  lemma CreditOwed(f: Fs, k: MultiKey, v: int, t: nat)
    ensures Owed(Credit(f, k, v), t) == Owed(f, t) + if k.token == t then v else 0
  {
    BalancePut(f.balance, k, Get(f.balance, k) + v, t);
  }

  // ---------- Orders ----------

  lemma BookOrderOwed(f: Fs, kindex: nat, user: nat, pro: nat, start: u64, end: u64, size: u64, t: nat, sprice: int,
                      u: nat)
    requires user in f.fs && pro in f.fs[user].ao
    ensures Owed(BookOrder(f, kindex, user, pro, start, end, size, t, sprice), u) == Owed(f, u)
  {
    hide Balances, Escrows;
    var pay := PayOf(start, end, sprice);
    var manage, tax := pay / 100 * MANAGE_RATE, pay / 100 * TAX_RATE;
    var k := MultiKey(pro, t);
    var se := S.Add(SettlementOf(f, k), start, size, sprice, pay, manage);
    EscrowPut(f.proInfo, k, se, u);
    var b1 := f.balance[MultiKey(f.foundation, t) := Get(f.balance, MultiKey(f.foundation, t)) + tax];
    BalancePut(f.balance, MultiKey(f.foundation, t), Get(f.balance, MultiKey(f.foundation, t)) + tax, u);
    BalancePut(b1, MultiKey(user, t), Get(b1, MultiKey(user, t)) - (pay + manage + tax), u);
  }

  lemma AddOrderOwed(f: Fs, caller: Address, kindex: nat, user: nat, pro: nat, start: u64, end: u64, size: u64,
                     nonce: nat, t: nat, sprice: int, u: nat)
    ensures Owed(AddOrder(f, caller, kindex, user, pro, start, end, size, nonce, t, sprice).0, u) == Owed(f, u)
  {
    hide BookOrder, Owed, PayOf, EnsureToken, OpenOrders;
    var f1 := EnsureToken(f, t);
    OpenedOwed(f, t, user, pro, u);
    if FsError(f1, user) == NoError {
      OpenOrdersUser(f1, user, pro);
      BookOrderOwed(OpenOrders(f1, user, pro), kindex, user, pro, start, end, size, t, sprice, u);
    }
  }

  lemma OpenOrdersUser(f: Fs, user: nat, pro: nat)
    requires user in f.fs
    ensures var g := OpenOrders(f, user, pro); user in g.fs && pro in g.fs[user].ao
  {
  }

  lemma OpenedOwed(f: Fs, t: nat, user: nat, pro: nat, u: nat)
    ensures var f1 := EnsureToken(f, t);
      Owed(f1, u) == Owed(f, u) && (user in f1.fs ==> Owed(OpenOrders(f1, user, pro), u) == Owed(f, u))
  {
    hide Balances, Escrows;
  }

  lemma SubOrderOwed(f: Fs, caller: Address, now: u64, kindex: nat, user: nat, pro: nat, start: u64, end: u64,
                     size: u64, nonce: nat, t: nat, sprice: int, u: nat)
    ensures Owed(SubOrder(f, caller, now, kindex, user, pro, start, end, size, nonce, t, sprice).0, u) == Owed(f, u)
  {
    hide Balances, Escrows;
    var k := MultiKey(pro, t);
    if k in f.proInfo {
      var se := S.Sub(f.proInfo[k], end, size, sprice);
      EscrowPut(f.proInfo, k, se.(endPaid := se.endPaid + S.EndFee(start, end, sprice)), u);
    }
  }

  // ---------- Keeper sharing ----------

  lemma {:induction false} ShareKeepersOwed(f: Fs, t: nat, per: int, keepers: seq<nat>, u: nat)
    ensures Owed(ShareKeepers(f, t, per, keepers), u) == Owed(f, u)
    decreases |keepers|
  {
    hide Balances, Escrows;
    if keepers == [] {
    } else {
      var k := keepers[0];
      if k in f.count {
        CreditOwed(f.(tAcc := f.tAcc[t := Get(f.tAcc, t) - per * f.count[k]]), MultiKey(k, t), per * f.count[k], u);
      }
      ShareKeepersOwed(PayKeeper(f, t, per, k), t, per, keepers[1..], u);
    }
  }

  lemma {:induction false} ShareTokensOwed(f: Fs, tokens: seq<nat>, u: nat)
    requires 0 < f.totalCount
    ensures Owed(ShareTokens(f, tokens).0, u) == Owed(f, u)
    decreases |tokens|
  {
    hide Owed, ShareKeepers;
    if tokens != [] && tokens[0] in f.tAcc {
      var per := f.tAcc[tokens[0]] / f.totalCount;
      ShareKeepersOwed(f, tokens[0], per, f.keepers, u);
      ShareTokensOwed(ShareKeepers(f, tokens[0], per, f.keepers), tokens[1..], u);
    }
  }

  lemma ShareOwed(f: Fs, now: u64, u: nat)
    ensures Owed(Share(f, now).0, u) == Owed(f, u)
  {
    hide ShareTokens, Balances, Escrows;
    if Due(f, now) && 0 < f.totalCount {
      ShareTokensOwed(f, f.tokens, u);
    }
  }

  // ---------- Money in and out ----------
  // A payment to somebody else leaves the surplus as it was; the contract paying itself
  // keeps the money and drops the debt.

  // What the contract owns in token u beyond what it owes.
  ghost function Surplus(f: Fs, w: World, tokens: seq<Address>, u: nat): int
    requires u < |tokens|
  {
    BalanceOf(w, tokens[u], f.local) - Owed(f, u)
  }

  lemma SendOut(w: World, local: Address, addr: Address, tokens: seq<Address>, t: nat, money: int, u: nat)
    requires Distinct(tokens) && t < |tokens| && u < |tokens|
    ensures var (w', err) := Send(w, tokens[t], local, addr, money);
      && BalanceOf(w', tokens[u], local)
         == BalanceOf(w, tokens[u], local) - (if err == NoError && u == t && addr != local then money else 0)
      && (err == NoError ==> 0 <= money)
  {
    hide Send;
    SendEffect(w, tokens[t], local, addr, money, tokens[u], local);
  }

  lemma RechargeConserves(f: Fs, w: World, caller: Address, addr: Address, index: nat, tokens: seq<Address>, t: nat,
                          money: int, u: nat)
    requires Distinct(tokens) && u < |tokens| && addr != f.local
    ensures var (g, w', _) := Recharge(f, w, caller, addr, index, tokens, t, money);
      g.local == f.local && Surplus(g, w', tokens, u) == Surplus(f, w, tokens, u)
  {
    hide SendFrom, Owed, Credit;
    if caller == f.owner && t < |tokens| {
      assert tokens[t] == tokens[u] <==> t == u;
      SendFromEffect(w, tokens[t], f.local, addr, f.local, money, tokens[u], f.local);
      OwedOfOpened(f, t, u);
      CreditOwed(EnsureToken(f, t), MultiKey(index, t), money, u);
      assert Credit(EnsureToken(f, t), MultiKey(index, t), money).local == f.local by {
        CreditLocal(EnsureToken(f, t), MultiKey(index, t), money);
      }
    }
  }

  lemma CreditLocal(f: Fs, k: MultiKey, v: int)
    ensures Credit(f, k, v).local == f.local
  {
  }

  lemma PayOutConserves(f: Fs, w: World, addr: Address, index: nat, tokens: seq<Address>, t: nat, amount: int, u: nat)
    requires Distinct(tokens) && u < |tokens|
    ensures var (g, w', _) := PayOut(f, w, addr, index, tokens, t, amount);
      && g.local == f.local
      && Surplus(f, w, tokens, u) <= Surplus(g, w', tokens, u)
      && (addr != f.local ==> Surplus(g, w', tokens, u) == Surplus(f, w, tokens, u))
  {
    hide Send, Owed;
    var k := MultiKey(index, t);
    CreditOwed(f, k, 0, u);
    if t < |tokens| {
      var f1 := Credit(f, k, 0);
      var pay := if amount == 0 || f1.balance[k] < amount then f1.balance[k] else amount;
      SendOut(w, f.local, addr, tokens, t, pay, u);
      CreditOwed(f1, k, -pay, u);
    }
  }

  lemma {:induction false} ShareKeepersLocal(f: Fs, t: nat, per: int, keepers: seq<nat>)
    ensures var g := ShareKeepers(f, t, per, keepers);
      && g.local == f.local && g.owner == f.owner && g.foundation == f.foundation && g.users == f.users && g.fs == f.fs
      && g.keepers == f.keepers && g.proInfo == f.proInfo && g.tokens == f.tokens && g.lastTime == f.lastTime
      && g.tAcc.Keys <= f.tAcc.Keys + {t}
      && f.tAcc.Keys <= g.tAcc.Keys
    decreases |keepers|
  {
    if keepers == [] {
    } else {
      ShareKeepersLocal(PayKeeper(f, t, per, keepers[0]), t, per, keepers[1..]);
    }
  }

  lemma {:induction false} ShareTokensLocal(f: Fs, tokens: seq<nat>)
    requires 0 < f.totalCount
    ensures var g := ShareTokens(f, tokens).0;
      && g.local == f.local && g.owner == f.owner && g.foundation == f.foundation && g.users == f.users && g.fs == f.fs
      && g.keepers == f.keepers && g.proInfo == f.proInfo && g.tokens == f.tokens
      && g.tAcc.Keys == f.tAcc.Keys
    decreases |tokens|
  {
    hide ShareKeepers;
    if tokens != [] && tokens[0] in f.tAcc {
      var per := f.tAcc[tokens[0]] / f.totalCount;
      ShareKeepersLocal(f, tokens[0], per, f.keepers);
      ShareTokensLocal(ShareKeepers(f, tokens[0], per, f.keepers), tokens[1..]);
    }
  }

  lemma ShareLocal(f: Fs, now: u64)
    ensures var g := Share(f, now).0;
      && g.local == f.local && g.owner == f.owner && g.foundation == f.foundation && g.users == f.users && g.fs == f.fs
      && g.keepers == f.keepers && g.proInfo == f.proInfo && g.tokens == f.tokens
      && g.tAcc.Keys == f.tAcc.Keys
  {
    hide ShareTokens;
    if Due(f, now) && 0 < f.totalCount {
      ShareTokensLocal(f, f.tokens);
    }
  }

  lemma WithdrawConserves(f: Fs, w: World, now: u64, info: Info, index: nat, tokens: seq<Address>, t: nat,
                          amount: int, u: nat)
    requires Distinct(tokens) && u < |tokens|
    ensures var (g, w', _) := Withdraw(f, w, now, info, index, tokens, t, amount);
      && g.local == f.local
      && Surplus(f, w, tokens, u) <= Surplus(g, w', tokens, u)
      && ((info.Info? ==> info.addr != f.local) ==> Surplus(g, w', tokens, u) == Surplus(f, w, tokens, u))
  {
    hide Share, PayOut, Owed;
    if 0 <= amount && info.Info? {
      ShareOwed(f, now, u);
      ShareLocal(f, now);
      var (f1, err) := if info.isKeeper then Share(f, now) else (f, NoError);
      PayOutConserves(f1, w, info.addr, index, tokens, t, amount, u);
    }
  }

  lemma ClaimOwed(f: Fs, now: u64, k: MultiKey, pay: int, lost: int, u: nat)
    requires k in f.proInfo
    ensures Owed(Claim(f, now, k, pay, lost).0, u) == Owed(f, u)
  {
    hide Balances, Escrows;
    var (se, thisPay, err) := S.Calc(f.proInfo[k], now, pay, lost);
    EscrowPut(f.proInfo, k, se, u);
    EscrowPut(f.proInfo, k, S.Linear(se), u);
    BalancePut(f.balance, k, Get(f.balance, k) + thisPay, u);
  }

  lemma PayAllConserves(f: Fs, w: World, info: Info, k: MultiKey, tokens: seq<Address>, u: nat)
    requires Distinct(tokens) && u < |tokens|
    ensures var (g, w', _) := PayAll(f, w, info, k, tokens);
      && g.local == f.local
      && Surplus(f, w, tokens, u) <= Surplus(g, w', tokens, u)
      && ((info.Info? ==> info.addr != f.local) ==> Surplus(g, w', tokens, u) == Surplus(f, w, tokens, u))
  {
    hide Send, Owed;
    if info.Info? && k.token < |tokens| {
      SendOut(w, f.local, info.addr, tokens, k.token, Get(f.balance, k), u);
      CreditOwed(f, k, -Get(f.balance, k), u);
    }
  }

  lemma ProWithdrawConserves(f: Fs, w: World, now: u64, info: Info, pro: nat, tokens: seq<Address>, t: nat, pay: int,
                             lost: int, u: nat)
    requires Distinct(tokens) && u < |tokens|
    ensures var (g, w', _) := ProWithdraw(f, w, now, info, pro, tokens, t, pay, lost);
      && g.local == f.local
      && Surplus(f, w, tokens, u) <= Surplus(g, w', tokens, u)
      && ((info.Info? ==> info.addr != f.local) ==> Surplus(g, w', tokens, u) == Surplus(f, w, tokens, u))
  {
    hide PayAll, Owed;
    var k := MultiKey(pro, t);
    if k in f.proInfo {
      ClaimOwed(f, now, k, pay, lost, u);
      PayAllConserves(Claim(f, now, k, pay, lost).0, w, info, k, tokens, u);
    }
  }

  // ---------- Other tokens ----------

  // What is owed in a token changes only by operations on that token.
  lemma OtherTokensOwed(f: Fs, w: World, now: u64, caller: Address, info: Info, addr: Address, index: nat,
                        tokens: seq<Address>, t: nat, x: int, lost: int, u: nat)
    requires u != t
    ensures Owed(Recharge(f, w, caller, addr, index, tokens, t, x).0, u) == Owed(f, u)
    ensures Owed(Withdraw(f, w, now, info, index, tokens, t, x).0, u) == Owed(f, u)
    ensures Owed(ProWithdraw(f, w, now, info, index, tokens, t, x, lost).0, u) == Owed(f, u)
  {
    hide Owed, Send, SendFrom, Share, Claim, EnsureToken;
    var k := MultiKey(index, t);
    OwedOfOpened(f, t, u);
    CreditOwed(EnsureToken(f, t), k, x, u);
    ShareOwed(f, now, u);
    PayOutOther(f, w, if info.Info? then info.addr else addr, index, tokens, t, x, u);
    PayOutOther(Share(f, now).0, w, if info.Info? then info.addr else addr, index, tokens, t, x, u);
    if k in f.proInfo {
      ClaimOwed(f, now, k, x, lost, u);
      var f1 := Claim(f, now, k, x, lost).0;
      CreditOwed(f1, k, -Get(f1.balance, k), u);
    }
  }

  lemma OwedOfOpened(f: Fs, t: nat, u: nat)
    ensures Owed(EnsureToken(f, t), u) == Owed(f, u)
  {
  }

  lemma PayOutOther(f: Fs, w: World, addr: Address, index: nat, tokens: seq<Address>, t: nat, amount: int, u: nat)
    requires u != t
    ensures Owed(PayOut(f, w, addr, index, tokens, t, amount).0, u) == Owed(f, u)
  {
    hide Owed, Send;
    var k := MultiKey(index, t);
    CreditOwed(f, k, 0, u);
    var f1 := Credit(f, k, 0);
    CreditOwed(f1, k, -(if amount == 0 || f1.balance[k] < amount then f1.balance[k] else amount), u);
  }
}
