// Storage management of server/contract/fs.go as a value.
module Fs {
  import opened Types
  import opened Erc
  import S = Settlements

  datatype StoreInfo = StoreInfo(time: u64, size: u64, price: int)

  // Orders of one user with one provider.
  datatype AggOrder = AggOrder(nonce: nat, subNonce: nat, sInfo: map<nat, StoreInfo>)

  datatype FsInfo = FsInfo(isActive: bool, providers: seq<nat>, ao: map<nat, AggOrder>)

  datatype Fs = Fs(
    local: Address,
    owner: Address,
    foundation: nat,
    balance: map<MultiKey, int>,
    users: seq<nat>,
    fs: map<nat, FsInfo>,
    keepers: seq<nat>,
    lastTime: u64,
    tAcc: map<nat, int>,
    totalCount: nat,
    count: map<nat, nat>,
    proInfo: map<MultiKey, S.Settlement>,
    tokens: seq<nat>)

  const MANAGE_RATE: int := 4
  const TAX_RATE: int := 1
  const PERIOD: u64 := 1

  function NewFs(owner: Address, local: Address, foundation: nat, now: u64): Fs {
    Fs(local, owner, foundation, map[], [], map[], [], now, map[], 0, map[], map[], [])
  }

  // What the role manager answers about an index: its address, and whether it is a keeper.
  datatype Info = NoInfo(err: Error) | Info(addr: Address, isKeeper: bool)

  // ---------- Registration ----------

  function AddKeeper(f: Fs, caller: Address, kindex: nat): (Fs, Error) {
    if caller != f.owner then (f, ErrPermission)
    else
      (f.(keepers := f.keepers + [kindex], count := f.count[kindex := 1], totalCount := f.totalCount + 1), NoError)
  }

  function EnsureToken(f: Fs, t: nat): Fs {
    if t in f.tAcc then f else f.(tAcc := f.tAcc[t := 0], tokens := f.tokens + [t])
  }

  function CreateFs(f: Fs, caller: Address, user: nat): (Fs, Error) {
    if caller != f.owner then (f, ErrPermission)
    else if user in f.fs && f.fs[user].isActive then (f, ErrExist)
    else
      var g := if user in f.fs then f.(fs := f.fs[user := f.fs[user].(isActive := true)])
               else f.(fs := f.fs[user := FsInfo(true, [], map[])], users := f.users + [user]);
      (EnsureToken(g, 0), NoError)
  }

  // ---------- Orders ----------

  function FsError(f: Fs, user: nat): Error {
    if user !in f.fs then ErrEmpty else if !f.fs[user].isActive then ErrPermission else NoError
  }

  function SetOrders(f: Fs, user: nat, pro: nat, a: AggOrder): Fs
    requires user in f.fs
  {
    f.(fs := f.fs[user := f.fs[user].(ao := f.fs[user].ao[pro := a])])
  }

  // The record of user and pro, created when missing.
  function OpenOrders(f: Fs, user: nat, pro: nat): Fs
    requires user in f.fs
  {
    if pro in f.fs[user].ao then f
    else
      SetOrders(f.(fs := f.fs[user := f.fs[user].(providers := f.fs[user].providers + [pro])]),
                user, pro, AggOrder(0, 0, map[]))
  }

  function Touch(f: Fs, kindex: nat): Fs {
    if kindex in f.count
    then f.(count := f.count[kindex := f.count[kindex] + 1], totalCount := f.totalCount + 1)
    else f
  }

  function Credit(f: Fs, k: MultiKey, v: int): Fs {
    f.(balance := f.balance[k := Get(f.balance, k) + v])
  }

  function SettlementOf(f: Fs, k: MultiKey): S.Settlement {
    if k in f.proInfo then f.proInfo[k] else S.EMPTY
  }

  function PayOf(start: u64, end: u64, sprice: int): int {
    Sub64(end, start) * sprice
  }

  // The user's record with one more order.
  function Booked(a: AggOrder, size: u64, t: nat, sprice: int): AggOrder {
    var si := if t in a.sInfo then a.sInfo[t] else StoreInfo(0, 0, 0);
    AggOrder(a.nonce + 1, a.subNonce,
             a.sInfo[t := StoreInfo(si.time, Add64(si.size, size), si.price + sprice)])
  }

  // Everything AddOrder does to the records once its checks have passed.
  function BookOrder(f: Fs, kindex: nat, user: nat, pro: nat, start: u64, end: u64, size: u64, t: nat, sprice: int): Fs
    requires user in f.fs && pro in f.fs[user].ao
  {
    var pay := PayOf(start, end, sprice);
    var manage, tax := pay / 100 * MANAGE_RATE, pay / 100 * TAX_RATE;
    var k := MultiKey(pro, t);
    var f1 := SetOrders(f, user, pro, Booked(f.fs[user].ao[pro], size, t, sprice));
    var f2 := f1.(proInfo := f1.proInfo[k := S.Add(SettlementOf(f1, k), start, size, sprice, pay, manage)]);
    var f3 := Credit(f2, MultiKey(f.foundation, t), tax);
    Touch(Credit(f3, MultiKey(user, t), -(pay + manage + tax)), kindex)
  }

  function AddOrder(f: Fs, caller: Address, kindex: nat, user: nat, pro: nat, start: u64, end: u64, size: u64,
                    nonce: nat, t: nat, sprice: int): (Fs, Error)
  {
    if caller != f.owner then (f, ErrPermission)
    else
      var f1 := EnsureToken(f, t);
      var pay := PayOf(start, end, sprice);
      var cost := pay + pay / 100 * MANAGE_RATE + pay / 100 * TAX_RATE;
      if MultiKey(user, t) !in f1.balance || f1.balance[MultiKey(user, t)] < cost then (f1, ErrBalanceNotEnough)
      else if FsError(f1, user) != NoError then (f1, FsError(f1, user))
      else
        var f2 := OpenOrders(f1, user, pro);
        var a := f2.fs[user].ao[pro];
        if a.nonce != nonce then (f2, ErrNonce)
        else if t in a.sInfo && start < a.sInfo[t].time then (f2, ErrInput)
        else (BookOrder(f2, kindex, user, pro, start, end, size, t, sprice), NoError)
  }

  // The user's record with one order less; subNonce counts the orders that were closed.
  function Closed(a: AggOrder, size: u64, t: nat, sprice: int): AggOrder
    requires t in a.sInfo
  {
    var si := a.sInfo[t];
    a.(sInfo := a.sInfo[t := StoreInfo(si.time, Sub64(si.size, size), si.price - sprice)])
  }

  // The provider's settlement loses an order, and its end fee goes into the keepers' pot.
  function Released(f: Fs, k: MultiKey, start: u64, end: u64, size: u64, sprice: int): Fs
    requires k in f.proInfo
  {
    var se := S.Sub(f.proInfo[k], end, size, sprice);
    var fee := S.EndFee(start, end, sprice);
    f.(proInfo := f.proInfo[k := se.(endPaid := se.endPaid + fee)],
       tAcc := f.tAcc[k.token := Get(f.tAcc, k.token) + fee])
  }

  // Everything SubOrder does to the records once its checks have passed. The user's record
  // is changed before the settlement is looked up.
  function CloseOrder(f: Fs, kindex: nat, user: nat, pro: nat, start: u64, end: u64, size: u64, t: nat,
                      sprice: int): (Fs, Error)
    requires user in f.fs && pro in f.fs[user].ao && t in f.fs[user].ao[pro].sInfo
  {
    var left := Closed(f.fs[user].ao[pro], size, t, sprice);
    var k := MultiKey(pro, t);
    if k !in f.proInfo then (SetOrders(f, user, pro, left), ErrEmpty)
    else
      var f1 := SetOrders(f, user, pro, left.(subNonce := left.subNonce + 1));
      (Touch(Released(f1, k, start, end, size, sprice), kindex), NoError)
  }

  function SubOrder(f: Fs, caller: Address, now: u64, kindex: nat, user: nat, pro: nat, start: u64, end: u64, size: u64,
                    nonce: nat, t: nat, sprice: int): (Fs, Error)
  {
    if caller != f.owner then (f, ErrPermission)
    else if size == 0 || end <= start then (f, ErrInput)
    else if now < end then (f, ErrRes)
    else if FsError(f, user) != NoError then (f, FsError(f, user))
    else if pro !in f.fs[user].ao then (f, ErrEmpty)
    else if f.fs[user].ao[pro].subNonce != nonce then (f, ErrNonce)
    else if t !in f.fs[user].ao[pro].sInfo then (f, ErrEmpty)
    else if f.fs[user].ao[pro].sInfo[t].size < size then (f, ErrRes)
    else CloseOrder(f, kindex, user, pro, start, end, size, t, sprice)
  }

  // ---------- Money ----------

  function Recharge(f: Fs, w: World, caller: Address, addr: Address, index: nat, tokens: seq<Address>, t: nat,
                    money: int): (Fs, World, Error) {
    if caller != f.owner then (f, w, ErrPermission)
    else if |tokens| <= t then (f, w, ErrInput)
    else
      var f1 := EnsureToken(f, t);
      var (w1, err) := SendFrom(w, tokens[t], f.local, addr, f.local, money);
      if err != NoError then (f1, w1, err)
      else (Credit(f1, MultiKey(index, t), money), w1, NoError)
  }

  // Pay one keeper; one without a counter gets a counter instead.
  function PayKeeper(f: Fs, t: nat, per: int, k: nat): Fs {
    if k in f.count
    then Credit(f.(tAcc := f.tAcc[t := Get(f.tAcc, t) - per * f.count[k]]), MultiKey(k, t), per * f.count[k])
    else f.(count := f.count[k := 1])
  }

  // Pay every keeper its share per of token t out of the pot.
  function ShareKeepers(f: Fs, t: nat, per: int, keepers: seq<nat>): (r: Fs)
    ensures r.totalCount == f.totalCount
    decreases |keepers|
  {
    if keepers == [] then f
    else
      ShareKeepers(PayKeeper(f, t, per, keepers[0]), t, per, keepers[1..])
  }

  function ShareTokens(f: Fs, tokens: seq<nat>): (Fs, Error)
    requires 0 < f.totalCount
    decreases |tokens|
  {
    if tokens == [] then (f, NoError)
    else if tokens[0] !in f.tAcc then (f, ErrEmpty)
    else ShareTokens(ShareKeepers(f, tokens[0], f.tAcc[tokens[0]] / f.totalCount, f.keepers), tokens[1..])
  }

  predicate Due(f: Fs, now: u64) {
    PERIOD < Sub64(now, f.lastTime)
  }

  // Distribution of the keepers' pot, at most once per period.
  function Share(f: Fs, now: u64): (Fs, Error) {
    if !Due(f, now) then (f, NoError)
    else if f.totalCount == 0 then (f, ErrRes)
    else
      var (g, err) := ShareTokens(f, f.tokens);
      if err != NoError then (g, err) else (g.(lastTime := now), NoError)
  }

  // Pay out of the balance of index: everything for an amount of 0 or beyond the balance.
  function PayOut(f: Fs, w: World, addr: Address, index: nat, tokens: seq<Address>, t: nat,
                  amount: int): (Fs, World, Error) {
    var k := MultiKey(index, t);
    var f1 := Credit(f, k, 0);
    var bal := f1.balance[k];
    var pay := if amount == 0 || bal < amount then bal else amount;
    if |tokens| <= t then (f1, w, ErrInput)
    else
      var (w1, err) := Send(w, tokens[t], f.local, addr, pay);
      if err != NoError then (f1, w1, err) else (Credit(f1, k, -pay), w1, NoError)
  }

  function Withdraw(f: Fs, w: World, now: u64, info: Info, index: nat, tokens: seq<Address>, t: nat,
                    amount: int): (Fs, World, Error)
  {
    if amount < 0 then (f, w, ErrInput)
    else if info.NoInfo? then (f, w, info.err)
    else
      var (f1, err) := if info.isKeeper then Share(f, now) else (f, NoError);
      if err != NoError then (f1, w, err)
      else PayOut(f1, w, info.addr, index, tokens, t, amount)
  }

  // Accept a provider's claim: settle, release the linear keeper fee, credit the provider.
  function Claim(f: Fs, now: u64, k: MultiKey, pay: int, lost: int): (Fs, Error)
    requires k in f.proInfo
  {
    var (se, thisPay, err) := S.Calc(f.proInfo[k], now, pay, lost);
    if err != NoError then (f.(proInfo := f.proInfo[k := se]), err)
    else
      var se1 := S.Linear(se);
      var lpay := se1.linearPaid - se.linearPaid;
      var f1 := f.(proInfo := f.proInfo[k := se1],
                   tAcc := if 0 < lpay then f.tAcc[k.token := Get(f.tAcc, k.token) + lpay] else f.tAcc);
      (Credit(f1, k, thisPay), NoError)
  }

  // Pay out a whole balance.
  function PayAll(f: Fs, w: World, info: Info, k: MultiKey, tokens: seq<Address>): (Fs, World, Error) {
    if info.NoInfo? then (f, w, info.err)
    else if |tokens| <= k.token then (f, w, ErrInput)
    else
      var (w1, err) := Send(w, tokens[k.token], f.local, info.addr, Get(f.balance, k));
      if err != NoError then (f, w1, err) else (Credit(f, k, -Get(f.balance, k)), w1, NoError)
  }

  function ProWithdraw(f: Fs, w: World, now: u64, info: Info, pro: nat, tokens: seq<Address>, t: nat, pay: int,
                       lost: int): (Fs, World, Error) {
    var k := MultiKey(pro, t);
    if k !in f.proInfo then (f, w, ErrEmpty)
    else
      var (f1, err) := Claim(f, now, k, pay, lost);
      if err != NoError then (f1, w, err) else PayAll(f1, w, info, k, tokens)
  }

  // Available and locked amounts of an index. A keeper's share counts as available once the
  // period is over.
  function GetBalance(f: Fs, now: u64, index: nat, t: nat): (int, int) {
    var k := MultiKey(index, t);
    var avail := Get(f.balance, k);
    var lock :=
      if k in f.proInfo then
        var se := f.proInfo[k];
        Min(se.canPay + Sub64(now, se.time) * se.price, se.maxPay - se.lost) - se.hasPaid
      else 0;
    if f.totalCount == 0 || index !in f.count then (avail, lock)
    else
      var pro := Get(f.tAcc, t) / f.totalCount * f.count[index];
      if PERIOD <= Sub64(now, f.lastTime) then (avail + pro, lock) else (avail, lock + pro)
  }
}
