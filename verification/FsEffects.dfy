// What each call of the storage manager does, key by key, and exactly when it succeeds.
module FsEffects {
  import opened Types
  import opened Erc
  import opened Fs
  import opened FsRecords
  import opened FsRuns
  import FsViews
  import M = FsMoney
  import S = Settlements

  // ---------- What can be read ----------

  type Users = map<nat, FsInfo>

  predicate Known(fs: Users, user: nat, pro: nat) {
    user in fs && pro in fs[user].ao
  }

  // The next order of user with pro must carry this number,
  function NonceOf(fs: Users, user: nat, pro: nat): nat {
    if Known(fs, user, pro) then fs[user].ao[pro].nonce else 0
  }

  // and the next one to be closed this one.
  function SubNonceOf(fs: Users, user: nat, pro: nat): nat {
    if Known(fs, user, pro) then fs[user].ao[pro].subNonce else 0
  }

  // What user stores with pro for token t.
  function RecordOf(fs: Users, user: nat, pro: nat, t: nat): StoreInfo {
    if Known(fs, user, pro) && t in fs[user].ao[pro].sInfo then fs[user].ao[pro].sInfo[t] else StoreInfo(0, 0, 0)
  }

  predicate Active(fs: Users, user: nat) {
    user in fs && fs[user].isActive
  }

  function CountOf(f: Fs, k: nat): nat {
    if k in f.count then f.count[k] else 0
  }

  // The records of fs, but that a orders were added and b closed for user, pro and t, which
  // moved the size to size and the price by d.
  ghost predicate RecordsMove(fs: Users, gs: Users, user: nat, pro: nat, t: nat, a: nat, b: nat, size: u64, d: int) {
    && (forall u: nat, p: nat :: NonceOf(gs, u, p) == NonceOf(fs, u, p) + if u == user && p == pro then a else 0)
    && (forall u: nat, p: nat :: SubNonceOf(gs, u, p) == SubNonceOf(fs, u, p) + if u == user && p == pro then b else 0)
    && (forall u: nat, p: nat, i: nat :: RecordOf(gs, u, p, i)
          == if u == user && p == pro && i == t
             then StoreInfo(RecordOf(fs, u, p, i).time, size, RecordOf(fs, u, p, i).price + d)
             else RecordOf(fs, u, p, i))
    && (forall u: nat :: Active(gs, u) <==> Active(fs, u))
  }

  ghost predicate SameRecordsAs(fs: Users, gs: Users) {
    && (forall u: nat, p: nat :: NonceOf(gs, u, p) == NonceOf(fs, u, p) && SubNonceOf(gs, u, p) == SubNonceOf(fs, u, p))
    && (forall u: nat, p: nat, i: nat :: RecordOf(gs, u, p, i) == RecordOf(fs, u, p, i))
  }

  // The keeper k counts one more order; an index without a counter gets none.
  ghost predicate Counts(f: Fs, g: Fs, k: nat) {
    && g.count.Keys == f.count.Keys && g.keepers == f.keepers
    && (forall j :: j in f.count ==> g.count[j] == f.count[j] + if j == k then 1 else 0)
  }

  ghost predicate SameCounts(f: Fs, g: Fs) {
    g.count == f.count && g.keepers == f.keepers && g.totalCount == f.totalCount
  }

  // The pot of token t is v fuller.
  ghost predicate PotMoves(f: Fs, g: Fs, t: nat, v: int) {
    forall u: nat :: Get(g.tAcc, u) == Get(f.tAcc, u) + if u == t then v else 0
  }

  ghost predicate SamePots(f: Fs, g: Fs) {
    forall u: nat :: Get(g.tAcc, u) == Get(f.tAcc, u)
  }

  // ---------- Members ----------

  // Only the owner adds a keeper, who starts with a count of 1. Nothing else changes.
  lemma AddKeeperEffect(f: Fs, caller: Address, kindex: nat)
    ensures var (g, err) := AddKeeper(f, caller, kindex);
      && err == (if caller == f.owner then NoError else ErrPermission)
      && (err != NoError ==> g == f)
      && (err == NoError ==>
            && g.keepers == f.keepers + [kindex] && g.totalCount == f.totalCount + 1
            && (forall j: nat :: CountOf(g, j) == if j == kindex then 1 else CountOf(f, j))
            && g == f.(keepers := g.keepers, totalCount := g.totalCount, count := g.count))
  {
  }

  // Only the owner registers a user, who must not be active and is afterwards. It is listed once,
  // and nothing that anybody has or stores changes.
  lemma CreateFsEffect(f: Fs, caller: Address, user: nat)
    ensures var (g, err) := CreateFs(f, caller, user);
      && err == (if caller != f.owner then ErrPermission else if Active(f.fs, user) then ErrExist else NoError)
      && (err != NoError ==> g == f)
      && (forall u: nat :: Active(g.fs, u) <==> Active(f.fs, u) || (err == NoError && u == user))
      && g.users == f.users + (if err == NoError && user !in f.fs then [user] else [])
      && SameRecordsAs(f.fs, g.fs)
      && g.balance == f.balance && SamePots(f, g) && SameCounts(f, g) && g.proInfo == f.proInfo
  {
    hide SameRecordsAs;
    SameAsItself(f);
    var info := if user in f.fs then f.fs[user].(isActive := true) else FsInfo(true, [], map[]);
    Activated(f.fs, user, info);
  }

  lemma SameAsItself(f: Fs)
    ensures SameRecordsAs(f.fs, f.fs) && SameCounts(f, f) && SamePots(f, f)
  {
  }

  lemma Activated(fs: Users, user: nat, info: FsInfo)
    requires info.ao == if user in fs then fs[user].ao else map[]
    ensures SameRecordsAs(fs, fs[user := info])
  {
  }

  // ---------- Orders ----------

  // What an order costs its provider's users: the price over its time, 4 of every hundred for
  // the keepers and 1 for the foundation.
  function PriceOf(start: u64, end: u64, sprice: int): int {
    sprice * (if start <= end then end - start else end - start + 18446744073709551616)
  }

  function CostOf(start: u64, end: u64, sprice: int): int {
    PriceOf(start, end, sprice) + 5 * (PriceOf(start, end, sprice) / 100)
  }

  // An order is added exactly when the owner calls, the user is active, its balance in the token
  // covers the cost, the number is the next one and the order starts no earlier than recorded.
  // The user pays the cost, the foundation gets a hundredth of the price, and nobody else gains
  // or loses; the record grows, and the keeper counts one more order. A refused order changes no
  // balance, record or counter.
  lemma AddOrderEffect(f: Fs, caller: Address, kindex: nat, user: nat, pro: nat, start: u64, end: u64, size: u64,
                       nonce: nat, t: nat, sprice: int)
    ensures var (g, err) := AddOrder(f, caller, kindex, user, pro, start, end, size, nonce, t, sprice);
      var cost, tax := CostOf(start, end, sprice), PriceOf(start, end, sprice) / 100;
      var rec := RecordOf(f.fs, user, pro, t);
      && (err == NoError <==>
            && caller == f.owner && Active(f.fs, user)
            && MultiKey(user, t) in f.balance && cost <= Get(f.balance, MultiKey(user, t))
            && nonce == NonceOf(f.fs, user, pro) && rec.time <= start)
      && err == (if caller != f.owner then ErrPermission
                 else if MultiKey(user, t) !in f.balance || Get(f.balance, MultiKey(user, t)) < cost
                 then ErrBalanceNotEnough
                 else if user !in f.fs then ErrEmpty
                 else if !Active(f.fs, user) then ErrPermission
                 else if nonce != NonceOf(f.fs, user, pro) then ErrNonce
                 else if start < rec.time then ErrInput else NoError)
      && SamePots(f, g)
      && (err == NoError ==>
            && (forall k :: Get(g.balance, k) == Get(f.balance, k)
                  + (if k == MultiKey(f.foundation, t) then tax else 0) - (if k == MultiKey(user, t) then cost else 0))
            && RecordsMove(f.fs, g.fs, user, pro, t, 1, 0, Add64(rec.size, size), sprice)
            && Counts(f, g, kindex))
      && (err != NoError ==> g.balance == f.balance && SameRecordsAs(f.fs, g.fs) && SameCounts(f, g))
  {
    hide RecordsMove, SameRecordsAs, Counts, SameCounts, SamePots, OpenOrders, BookOrder, EnsureToken, PriceOf,
      NonceOf, RecordOf;
    var f1 := EnsureToken(f, t);
    SameAsItself(f);
    PotOpened(f, t);
    PriceIs(start, end, sprice);
    if user in f.fs {
      var f2 := OpenOrders(f1, user, pro);
      RecordOpened(f1, user, pro, t);
      RecordRead(f2.fs, user, pro, t);
      BookEffect(f2, kindex, user, pro, start, end, size, t, sprice);
      MovedSince(f.fs, f2.fs, BookOrder(f2, kindex, user, pro, start, end, size, t, sprice).fs, user, pro, t,
                 Add64(RecordOf(f.fs, user, pro, t).size, size), sprice);
      CountedSince(f, f1, f2, BookOrder(f2, kindex, user, pro, start, end, size, t, sprice), kindex);
    }
  }

  lemma PriceIs(start: u64, end: u64, sprice: int)
    ensures PayOf(start, end, sprice) == PriceOf(start, end, sprice)
  {
  }

  lemma PotOpened(f: Fs, t: nat)
    ensures var g := EnsureToken(f, t);
      && SamePots(f, g) && g == f.(tAcc := g.tAcc, tokens := g.tokens)
      && SameCounts(f, g) && SameRecordsAs(f.fs, g.fs)
  {
  }

  // An empty record shows nowhere.
  lemma RecordOpened(f: Fs, user: nat, pro: nat, t: nat)
    requires user in f.fs
    ensures var g := OpenOrders(f, user, pro);
      && Known(g.fs, user, pro) && g == f.(fs := g.fs)
      && SameRecordsAs(f.fs, g.fs)
      && NonceOf(g.fs, user, pro) == NonceOf(f.fs, user, pro)
      && RecordOf(g.fs, user, pro, t) == RecordOf(f.fs, user, pro, t)
      && (forall u: nat :: Active(g.fs, u) <==> Active(f.fs, u))
  {
    var g := OpenOrders(f, user, pro);
    if pro !in f.fs[user].ao {
      assert g.fs == f.fs[user := g.fs[user]];
      assert g.fs[user].ao == f.fs[user].ao[pro := AggOrder(0, 0, map[])];
      hide OpenOrders;
      forall u: nat, p: nat, i: nat
        ensures NonceOf(g.fs, u, p) == NonceOf(f.fs, u, p) && SubNonceOf(g.fs, u, p) == SubNonceOf(f.fs, u, p)
        ensures RecordOf(g.fs, u, p, i) == RecordOf(f.fs, u, p, i)
      {
      }
    }
  }

  lemma RecordRead(fs: Users, user: nat, pro: nat, t: nat)
    requires Known(fs, user, pro)
    ensures NonceOf(fs, user, pro) == fs[user].ao[pro].nonce
    ensures RecordOf(fs, user, pro, t)
            == if t in fs[user].ao[pro].sInfo then fs[user].ao[pro].sInfo[t] else StoreInfo(0, 0, 0)
  {
  }

  lemma MovedSince(fs: Users, fs2: Users, gs: Users, user: nat, pro: nat, t: nat, size: u64, d: int)
    requires SameRecordsAs(fs, fs2) && (forall u: nat :: Active(fs2, u) <==> Active(fs, u))
    requires RecordsMove(fs2, gs, user, pro, t, 1, 0, size, d)
    ensures RecordsMove(fs, gs, user, pro, t, 1, 0, size, d)
  {
    hide NonceOf, SubNonceOf, RecordOf, Active;
  }

  lemma CountedSince(f: Fs, f1: Fs, f2: Fs, g: Fs, kindex: nat)
    requires SameCounts(f, f1) && SamePots(f, f1) && f2 == f1.(fs := f2.fs) && Counts(f2, g, kindex) && SamePots(f2, g)
    ensures Counts(f, g, kindex) && SamePots(f, g) && SameCounts(f, f2) && SamePots(f, f2)
  {
  }

  lemma BookEffect(f: Fs, kindex: nat, user: nat, pro: nat, start: u64, end: u64, size: u64, t: nat, sprice: int)
    requires Known(f.fs, user, pro)
    ensures var g := BookOrder(f, kindex, user, pro, start, end, size, t, sprice);
      var cost, tax := CostOf(start, end, sprice), PriceOf(start, end, sprice) / 100;
      && SamePots(f, g) && Counts(f, g, kindex)
      && (forall k :: Get(g.balance, k) == Get(f.balance, k)
            + (if k == MultiKey(f.foundation, t) then tax else 0) - (if k == MultiKey(user, t) then cost else 0))
      && RecordsMove(f.fs, g.fs, user, pro, t, 1, 0, Add64(RecordOf(f.fs, user, pro, t).size, size), sprice)
  {
    hide RecordsMove, Counts, SamePots, BookOrder, SetOrders, Booked, PriceOf;
    PriceIs(start, end, sprice);
    BookParts(f, kindex, user, pro, start, end, size, t, sprice);
    BookedMoves(f, user, pro, size, t, sprice);
    TouchCounts(f, kindex);
  }

  lemma BookParts(f: Fs, kindex: nat, user: nat, pro: nat, start: u64, end: u64, size: u64, t: nat, sprice: int)
    requires Known(f.fs, user, pro)
    ensures var g := BookOrder(f, kindex, user, pro, start, end, size, t, sprice);
      var pay := PayOf(start, end, sprice);
      && g.fs == SetOrders(f, user, pro, Booked(f.fs[user].ao[pro], size, t, sprice)).fs
      && g.count == Touch(f, kindex).count && g.keepers == f.keepers && g.tAcc == f.tAcc
      && (forall k :: Get(g.balance, k) == Get(f.balance, k)
            + (if k == MultiKey(f.foundation, t) then pay / 100 else 0)
            - (if k == MultiKey(user, t) then pay + 5 * (pay / 100) else 0))
    ensures SamePots(f, BookOrder(f, kindex, user, pro, start, end, size, t, sprice))
  {
    hide S.Add, Booked, PayOf;
  }

  lemma TouchCounts(f: Fs, kindex: nat)
    ensures forall g: Fs :: g.count == Touch(f, kindex).count && g.keepers == f.keepers ==> Counts(f, g, kindex)
  {
  }

  // The record of user and pro is replaced by a.
  lemma RecordSet(f: Fs, user: nat, pro: nat, a: AggOrder, u: nat, p: nat, i: nat)
    requires Known(f.fs, user, pro)
    ensures var gs := SetOrders(f, user, pro, a).fs;
      && NonceOf(gs, u, p) == (if u == user && p == pro then a.nonce else NonceOf(f.fs, u, p))
      && SubNonceOf(gs, u, p) == (if u == user && p == pro then a.subNonce else SubNonceOf(f.fs, u, p))
      && RecordOf(gs, u, p, i)
         == (if u == user && p == pro then if i in a.sInfo then a.sInfo[i] else StoreInfo(0, 0, 0)
             else RecordOf(f.fs, u, p, i))
      && (Active(gs, u) <==> Active(f.fs, u))
  {
  }

  lemma BookedMoves(f: Fs, user: nat, pro: nat, size: u64, t: nat, sprice: int)
    requires Known(f.fs, user, pro)
    ensures RecordsMove(f.fs, SetOrders(f, user, pro, Booked(f.fs[user].ao[pro], size, t, sprice)).fs, user, pro, t,
                        1, 0, Add64(RecordOf(f.fs, user, pro, t).size, size), sprice)
  {
    hide SetOrders, Active;
    var a := Booked(f.fs[user].ao[pro], size, t, sprice);
    forall u: nat, p: nat, i: nat {
      RecordSet(f, user, pro, a, u, p, i);
    }
    forall u: nat, p: nat {
      RecordSet(f, user, pro, a, u, p, 0);
    }
    forall u: nat {
      RecordSet(f, user, pro, a, u, 0, 0);
    }
  }

  // An order is closed exactly when the owner calls, the order has a size and a duration and has
  // ended, the user is active, the number is the next one and the record holds the size. The
  // record shrinks by size and price, whatever the order was added with; a hundredth of the price
  // over its time goes into the pot, and the keeper counts one more order. A refused call changes
  // nothing.
  lemma SubOrderEffect(f: Fs, caller: Address, now: u64, kindex: nat, user: nat, pro: nat, start: u64, end: u64,
                       size: u64, nonce: nat, t: nat, sprice: int)
    requires Inv(f)
    ensures var (g, err) := SubOrder(f, caller, now, kindex, user, pro, start, end, size, nonce, t, sprice);
      var rec := RecordOf(f.fs, user, pro, t);
      && (err == NoError <==>
            && caller == f.owner && 0 < size && start < end <= now && Active(f.fs, user)
            && nonce == SubNonceOf(f.fs, user, pro) && size <= rec.size)
      && err == (if caller != f.owner then ErrPermission
                 else if size == 0 || end <= start then ErrInput
                 else if now < end then ErrRes
                 else if user !in f.fs then ErrEmpty
                 else if !Active(f.fs, user) then ErrPermission
                 else if !Known(f.fs, user, pro) then ErrEmpty
                 else if nonce != SubNonceOf(f.fs, user, pro) then ErrNonce
                 else if !HasOrders(f.fs, user, MultiKey(pro, t)) then ErrEmpty
                 else if rec.size < size then ErrRes else NoError)
      && g.balance == f.balance
      && (err == NoError ==>
            && RecordsMove(f.fs, g.fs, user, pro, t, 0, 1, rec.size - size, -sprice)
            && PotMoves(f, g, t, sprice * (end - start) / 100)
            && Counts(f, g, kindex))
      && (err != NoError ==> g == f)
  {
    hide Inv, RecordsMove, Counts, CloseOrder, PotMoves;
    if Known(f.fs, user, pro) && t in f.fs[user].ao[pro].sInfo {
      CloseOrderCompletes(f, kindex, user, pro, start, end, size, t, sprice);
      if start < end && size <= f.fs[user].ao[pro].sInfo[t].size {
        CloseEffect(f, kindex, user, pro, start, end, size, t, sprice);
      }
    }
  }

  lemma CloseEffect(f: Fs, kindex: nat, user: nat, pro: nat, start: u64, end: u64, size: u64, t: nat, sprice: int)
    requires Known(f.fs, user, pro) && t in f.fs[user].ao[pro].sInfo && start < end
    requires size <= f.fs[user].ao[pro].sInfo[t].size
    requires CloseOrder(f, kindex, user, pro, start, end, size, t, sprice).1 == NoError
    ensures var g := CloseOrder(f, kindex, user, pro, start, end, size, t, sprice).0;
      && g.balance == f.balance
      && RecordsMove(f.fs, g.fs, user, pro, t, 0, 1, RecordOf(f.fs, user, pro, t).size - size, -sprice)
      && PotMoves(f, g, t, sprice * (end - start) / 100)
      && Counts(f, g, kindex)
  {
    hide RecordsMove, Counts, PotMoves, SetOrders, Closed, CloseOrder;
    CloseParts(f, kindex, user, pro, start, end, size, t, sprice);
    ClosedMoves(f, user, pro, size, t, sprice);
    TouchCounts(f, kindex);
    PotFilled(f, CloseOrder(f, kindex, user, pro, start, end, size, t, sprice).0, t, sprice * (end - start) / 100);
  }

  lemma PotFilled(f: Fs, g: Fs, t: nat, v: int)
    requires g.tAcc == f.tAcc[t := Get(f.tAcc, t) + v]
    ensures PotMoves(f, g, t, v)
  {
  }

  lemma CloseParts(f: Fs, kindex: nat, user: nat, pro: nat, start: u64, end: u64, size: u64, t: nat, sprice: int)
    requires Known(f.fs, user, pro) && t in f.fs[user].ao[pro].sInfo && start < end
    requires CloseOrder(f, kindex, user, pro, start, end, size, t, sprice).1 == NoError
    ensures var g := CloseOrder(f, kindex, user, pro, start, end, size, t, sprice).0;
      var left := Closed(f.fs[user].ao[pro], size, t, sprice);
      && g.fs == SetOrders(f, user, pro, left.(subNonce := left.subNonce + 1)).fs
      && g.balance == f.balance && g.count == Touch(f, kindex).count && g.keepers == f.keepers
      && g.tAcc == f.tAcc[t := Get(f.tAcc, t) + sprice * (end - start) / 100]
  {
    hide S.Sub, Closed;
  }

  lemma ClosedMoves(f: Fs, user: nat, pro: nat, size: u64, t: nat, sprice: int)
    requires Known(f.fs, user, pro) && t in f.fs[user].ao[pro].sInfo
    requires size <= f.fs[user].ao[pro].sInfo[t].size
    ensures var left := Closed(f.fs[user].ao[pro], size, t, sprice);
      RecordsMove(f.fs, SetOrders(f, user, pro, left.(subNonce := left.subNonce + 1)).fs, user, pro, t, 0, 1,
                  RecordOf(f.fs, user, pro, t).size - size, -sprice)
  {
    hide SetOrders, Active;
    var left := Closed(f.fs[user].ao[pro], size, t, sprice);
    var a := left.(subNonce := left.subNonce + 1);
    forall u: nat, p: nat, i: nat {
      RecordSet(f, user, pro, a, u, p, i);
    }
    forall u: nat, p: nat {
      RecordSet(f, user, pro, a, u, p, 0);
    }
    forall u: nat {
      RecordSet(f, user, pro, a, u, 0, 0);
    }
  }

  // ---------- Deposits ----------

  // A deposit goes through exactly when the owner calls for a listed token and the contract may
  // take the money from the payer. Then index has that much more of the token, also in what
  // GetBalance reports as available, and nobody else has; the payer's account, and its
  // allowance, lose as much to the contract's. Otherwise no balance changes.
  lemma RechargeEffect(f: Fs, w: World, caller: Address, addr: Address, index: nat, tokens: seq<Address>, t: nat,
                       money: int, tk: Address, a: Address)
    ensures var (g, w', err) := Recharge(f, w, caller, addr, index, tokens, t, money);
      && (err == NoError <==> caller == f.owner && t < |tokens| && CanTake(w, tokens[t], f.local, addr, money))
      && err == (if caller != f.owner then ErrPermission else if |tokens| <= t then ErrInput
                 else TakeError(w, tokens[t], f.local, addr, money))
      && (forall k :: Get(g.balance, k) == Get(f.balance, k)
                        + if err == NoError && k == MultiKey(index, t) then money else 0)
      && g.balance.Keys == f.balance.Keys + (if err == NoError then {MultiKey(index, t)} else {})
      && SamePots(f, g) && SameCounts(f, g) && g.fs == f.fs && g.users == f.users && g.proInfo == f.proInfo
      && (err != NoError ==> w' == w)
      && (err == NoError ==>
            && BalanceOf(w', tk, a) == BalanceOf(w, tk, a)
                 - (if tk == tokens[t] && a == addr then money else 0)
                 + (if tk == tokens[t] && a == f.local then money else 0)
            && AllowanceOf(w', tokens[t], addr, f.local) == AllowanceOf(w, tokens[t], addr, f.local) - money)
  {
    hide SendFrom, CanTake, TakeError, EnsureToken, Credit, SamePots, SameCounts;
    Recharged(f, w, caller, addr, index, tokens, t, money);
    PotOpened(f, t);
    CreditEffect(EnsureToken(f, t), MultiKey(index, t), money);
    if t < |tokens| {
      SendFromSucceeds(w, tokens[t], f.local, addr, f.local, money);
      SendFromEffect(w, tokens[t], f.local, addr, f.local, money, tk, a);
    }
  }

  lemma RechargeReport(f: Fs, w: World, caller: Address, addr: Address, index: nat, tokens: seq<Address>, t: nat,
                       money: int, now: u64, i: nat, u: nat)
    ensures var (g, w', err) := Recharge(f, w, caller, addr, index, tokens, t, money);
      var (avail, lock) := GetBalance(f, now, i, u);
      GetBalance(g, now, i, u) == (avail + if err == NoError && i == index && u == t then money else 0, lock)
  {
    hide SendFrom, Part;
    var (g, _, err) := Recharge(f, w, caller, addr, index, tokens, t, money);
    Recharged(f, w, caller, addr, index, tokens, t, money);
    SameReport(f, g, now, i, u);
    hide Recharge, GetBalance;
    assert MultiKey(i, u) == MultiKey(index, t) <==> i == index && u == t;
  }

  lemma Recharged(f: Fs, w: World, caller: Address, addr: Address, index: nat, tokens: seq<Address>, t: nat, money: int)
    ensures var (g, _, err) := Recharge(f, w, caller, addr, index, tokens, t, money);
      && (forall k :: Get(g.balance, k) == Get(f.balance, k)
                        + if err == NoError && k == MultiKey(index, t) then money else 0)
      && SamePots(f, g) && SameCounts(f, g) && g.proInfo == f.proInfo && g.lastTime == f.lastTime
  {
    hide SendFrom, EnsureToken, Credit;
    SameAsItself(f);
    PotOpened(f, t);
    CreditEffect(EnsureToken(f, t), MultiKey(index, t), money);
  }

  lemma CreditEffect(f: Fs, k: MultiKey, v: int)
    ensures var g := Credit(f, k, v);
      && g == f.(balance := g.balance) && g.balance.Keys == f.balance.Keys + {k}
      && (forall j :: Get(g.balance, j) == Get(f.balance, j) + if j == k then v else 0)
  {
  }

  // The report depends on the balance, the settlement, the pot and the counters.
  lemma SameReport(f: Fs, g: Fs, now: u64, i: nat, u: nat)
    requires SamePots(f, g) && SameCounts(f, g) && g.proInfo == f.proInfo && g.lastTime == f.lastTime
    ensures GetBalance(g, now, i, u).1 == GetBalance(f, now, i, u).1
    ensures GetBalance(g, now, i, u).0 - Get(g.balance, MultiKey(i, u))
         == GetBalance(f, now, i, u).0 - Get(f.balance, MultiKey(i, u))
  {
  }

  // ---------- Payouts ----------

  // The keepers' pots are distributed before the withdrawal of a keeper, once a period is over.
  predicate Distributes(f: Fs, now: u64, info: Info, amount: int) {
    0 <= amount && info.Info? && info.isKeeper && 1 < Sub64(now, f.lastTime)
  }

  // What index may withdraw: its balance, and its part of the pot when that is distributed.
  function Owing(f: Fs, now: u64, info: Info, amount: int, k: MultiKey): int {
    Get(f.balance, k) + if Distributes(f, now, info, amount) && 0 < f.totalCount && k.token in f.tokens
                        then Part(f, k.role, k.token) else 0
  }

  // A withdrawal succeeds exactly when the amount is not negative, the role manager knows the
  // index, the distribution that is due has keepers, the token is listed and the contract can pay.
  // It pays the amount asked for, or all that is due for 0 or more than that, to the address that
  // the role manager names; that much leaves the balance of the index, and every other balance
  // changes by the distribution alone. When the payment fails, the distribution stays.
  lemma WithdrawEffect(f: Fs, w: World, now: u64, info: Info, index: nat, tokens: seq<Address>, t: nat, amount: int,
                       k: MultiKey, tk: Address, a: Address)
    requires Inv(f) && (info.NoInfo? ==> info.err != NoError)
    ensures var (g, w', err) := Withdraw(f, w, now, info, index, tokens, t, amount);
      var due := Owing(f, now, info, amount, MultiKey(index, t));
      var pay := if amount == 0 || due < amount then due else amount;
      && (err == NoError <==>
            && 0 <= amount && info.Info? && (Distributes(f, now, info, amount) ==> 0 < f.totalCount)
            && t < |tokens| && CanPay(w, tokens[t], f.local, pay))
      && err == (if amount < 0 then ErrInput
                 else if info.NoInfo? then info.err
                 else if Distributes(f, now, info, amount) && f.totalCount == 0 then ErrRes
                 else if |tokens| <= t then ErrInput else PayError(w, tokens[t], f.local, pay))
      && Get(g.balance, k)
         == Owing(f, now, info, amount, k) - (if err == NoError && k == MultiKey(index, t) then pay else 0)
      && g.fs == f.fs && g.users == f.users && g.proInfo == f.proInfo && SameCounts(f, g)
      && (err != NoError ==> w' == w)
      && (err == NoError ==>
            BalanceOf(w', tk, a) == BalanceOf(w, tk, a)
              - (if tk == tokens[t] && a == f.local then pay else 0)
              + (if tk == tokens[t] && a == info.addr then pay else 0))
  {
    hide Inv, Share, PayOut, Part, CanPay, PayError;
    if 0 <= amount && info.Info? {
      SharedEffect(f, now, info, amount);
      var f1 := if info.isKeeper then Share(f, now).0 else f;
      assert Get(f1.balance, k) == Owing(f, now, info, amount, k);
      assert Get(f1.balance, MultiKey(index, t)) == Owing(f, now, info, amount, MultiKey(index, t));
      PayOutEffect(f1, w, info.addr, index, tokens, t, amount, k, tk, a);
    }
  }

  lemma SharedEffect(f: Fs, now: u64, info: Info, amount: int)
    requires Inv(f) && 0 <= amount && info.Info?
    ensures var (g, err) := if info.isKeeper then Share(f, now) else (f, NoError);
      && err == (if Distributes(f, now, info, amount) && f.totalCount == 0 then ErrRes else NoError)
      && (forall k :: Get(g.balance, k) == Owing(f, now, info, amount, k))
      && g.fs == f.fs && g.users == f.users && g.proInfo == f.proInfo && SameCounts(f, g) && g.local == f.local
  {
    hide ShareTokens, Agree, Part;
    M.ShareLocal(f, now);
    if Due(f, now) && 0 < f.totalCount {
      KeeperSharing(f, now);
    }
  }

  // A payment out of the balance of index.
  lemma PayOutEffect(f: Fs, w: World, addr: Address, index: nat, tokens: seq<Address>, t: nat, amount: int, k: MultiKey,
                     tk: Address, a: Address)
    ensures var (g, w', err) := PayOut(f, w, addr, index, tokens, t, amount);
      var due := Get(f.balance, MultiKey(index, t));
      var pay := if amount == 0 || due < amount then due else amount;
      && (err == NoError <==> t < |tokens| && CanPay(w, tokens[t], f.local, pay))
      && err == (if |tokens| <= t then ErrInput else PayError(w, tokens[t], f.local, pay))
      && Get(g.balance, k) == Get(f.balance, k) - (if err == NoError && k == MultiKey(index, t) then pay else 0)
      && g.fs == f.fs && g.users == f.users && g.proInfo == f.proInfo && SameCounts(f, g) && g.local == f.local
      && (err != NoError ==> w' == w)
      && (err == NoError ==>
            BalanceOf(w', tk, a) == BalanceOf(w, tk, a)
              - (if tk == tokens[t] && a == f.local then pay else 0)
              + (if tk == tokens[t] && a == addr then pay else 0))
  {
    hide Send, CanPay, PayError;
    var due := Get(f.balance, MultiKey(index, t));
    var pay := if amount == 0 || due < amount then due else amount;
    PayOutParts(f, w, addr, index, tokens, t, amount);
    hide PayOut;
    if t < |tokens| {
      SendSucceeds(w, tokens[t], f.local, addr, pay);
      SendEffect(w, tokens[t], f.local, addr, pay, tk, a);
    }
  }

  lemma PayOutParts(f: Fs, w: World, addr: Address, index: nat, tokens: seq<Address>, t: nat, amount: int)
    ensures var (g, w', err) := PayOut(f, w, addr, index, tokens, t, amount);
      var due := Get(f.balance, MultiKey(index, t));
      var pay := if amount == 0 || due < amount then due else amount;
      && (err == NoError ==> t < |tokens|)
      && (t < |tokens| ==> (w', err) == Send(w, tokens[t], f.local, addr, pay))
      && (|tokens| <= t ==> w' == w && err == ErrInput)
      && (forall k :: Get(g.balance, k)
            == Get(f.balance, k) - if err == NoError && k == MultiKey(index, t) then pay else 0)
      && g.fs == f.fs && g.users == f.users && g.proInfo == f.proInfo && SameCounts(f, g) && g.local == f.local
  {
    hide Send;
  }

  // The claim is accepted: see FsViews.ProviderViewAgrees for what has accrued.
  predicate Accepts(f: Fs, now: u64, k: MultiKey, pay: int, lost: int) {
    && k in f.proInfo && f.proInfo[k].hasPaid <= pay <= FsViews.AccruedBy(f.proInfo[k], Max(f.proInfo[k].time, now))
    && f.proInfo[k].lost <= lost
  }

  // A provider is paid. The call succeeds exactly when the claim is accepted, the role manager
  // knows the provider, the token is listed and the contract can pay all that the provider has
  // then: its balance and what it had not been paid of the claim. That goes to the address that
  // the role manager names, and nothing is left. When the payment fails, it stays the balance;
  // when the claim is refused, the balance is the one of before. Nobody else gains or loses.
  lemma ProWithdrawEffect(f: Fs, w: World, now: u64, info: Info, pro: nat, tokens: seq<Address>, t: nat, pay: int,
                          lost: int, j: MultiKey, tk: Address, a: Address)
    requires info.NoInfo? ==> info.err != NoError
    ensures var (g, w', err) := ProWithdraw(f, w, now, info, pro, tokens, t, pay, lost);
      var k := MultiKey(pro, t);
      var accepted := Accepts(f, now, k, pay, lost);
      var due := Get(f.balance, k) + if accepted then pay - f.proInfo[k].hasPaid else 0;
      && (err == NoError <==> accepted && info.Info? && t < |tokens| && CanPay(w, tokens[t], f.local, due))
      && err == (if k !in f.proInfo then ErrEmpty else if !accepted then ErrRes
                 else if info.NoInfo? then info.err
                 else if |tokens| <= t then ErrInput else PayError(w, tokens[t], f.local, due))
      && Get(g.balance, j) == (if j != k then Get(f.balance, j) else if err == NoError then 0 else due)
      && g.fs == f.fs && g.users == f.users && SameCounts(f, g)
      && (err != NoError ==> w' == w)
      && (err == NoError ==>
            BalanceOf(w', tk, a) == BalanceOf(w, tk, a)
              - (if tk == tokens[t] && a == f.local then due else 0)
              + (if tk == tokens[t] && a == info.addr then due else 0))
  {
    hide Claim, PayAll, CanPay, Accepts, PayError;
    var k := MultiKey(pro, t);
    if k in f.proInfo {
      ClaimEffect(f, now, k, pay, lost);
      PayAllEffect(Claim(f, now, k, pay, lost).0, w, info, k, tokens, j, tk, a);
    } else {
      NotAccepted(f, now, k, pay, lost);
    }
  }

  lemma NotAccepted(f: Fs, now: u64, k: MultiKey, pay: int, lost: int)
    requires k !in f.proInfo
    ensures !Accepts(f, now, k, pay, lost)
  {
  }

  // The books of a claim. A claim for more than has accrued is refused, and still the admitted
  // loss stays.
  lemma ClaimEffect(f: Fs, now: u64, k: MultiKey, pay: int, lost: int)
    requires k in f.proInfo
    ensures var (g, err) := Claim(f, now, k, pay, lost);
      var s := f.proInfo[k];
      && err == (if Accepts(f, now, k, pay, lost) then NoError else ErrRes)
      && (forall j :: Get(g.balance, j) == Get(f.balance, j) + if err == NoError && j == k then pay - s.hasPaid else 0)
      && g.fs == f.fs && g.users == f.users && SameCounts(f, g) && g.local == f.local
      && k in g.proInfo
      && g.proInfo[k].hasPaid == (if err == NoError then pay else s.hasPaid)
      && g.proInfo[k].lost == (if s.hasPaid <= pay && s.lost <= lost then lost else s.lost)
  {
    hide Accepts;
    FsViews.ClaimAccepted(f, now, k, pay, lost);
    AcceptsMeans(f, now, k, pay, lost);
  }

  lemma AcceptsMeans(f: Fs, now: u64, k: MultiKey, pay: int, lost: int)
    requires k in f.proInfo
    ensures var s := f.proInfo[k];
      Accepts(f, now, k, pay, lost)
      <==> s.hasPaid <= pay <= FsViews.AccruedBy(s, Max(s.time, now)) && s.lost <= lost
  {
  }

  lemma PayAllEffect(f: Fs, w: World, info: Info, k: MultiKey, tokens: seq<Address>, j: MultiKey, tk: Address,
                     a: Address)
    requires info.NoInfo? ==> info.err != NoError
    ensures var (g, w', err) := PayAll(f, w, info, k, tokens);
      var due := Get(f.balance, k);
      && (err == NoError <==> info.Info? && k.token < |tokens| && CanPay(w, tokens[k.token], f.local, due))
      && err == (if info.NoInfo? then info.err else if |tokens| <= k.token then ErrInput
                 else PayError(w, tokens[k.token], f.local, due))
      && Get(g.balance, j) == (if err == NoError && j == k then 0 else Get(f.balance, j))
      && g.fs == f.fs && g.users == f.users && SameCounts(f, g)
      && (err != NoError ==> w' == w)
      && (err == NoError ==>
            BalanceOf(w', tk, a) == BalanceOf(w, tk, a)
              - (if tk == tokens[k.token] && a == f.local then due else 0)
              + (if tk == tokens[k.token] && a == info.addr then due else 0))
  {
    hide Send, CanPay, PayError;
    if info.Info? && k.token < |tokens| {
      SendSucceeds(w, tokens[k.token], f.local, info.addr, Get(f.balance, k));
      SendEffect(w, tokens[k.token], f.local, info.addr, Get(f.balance, k), tk, a);
    }
  }

  // An index without a counter, as users and providers are, withdraws exactly what GetBalance
  // reports to it as available, when the contract owns it.
  lemma MemberViewAgrees(f: Fs, w: World, now: u64, addr: Address, index: nat, tokens: seq<Address>, t: nat)
    requires index !in f.count && t < |tokens| && addr != f.local
    ensures var (g, w', err) := Withdraw(f, w, now, Info(addr, false), index, tokens, t, 0);
      var avail := GetBalance(f, now, index, t).0;
      && (err == NoError <==> CanPay(w, tokens[t], f.local, avail))
      && (err == NoError ==>
            && BalanceOf(w', tokens[t], addr) == BalanceOf(w, tokens[t], addr) + avail
            && GetBalance(g, now, index, t).0 == 0)
  {
    hide CanPay, PayOut;
    PayOutEffect(f, w, addr, index, tokens, t, 0, MultiKey(index, t), tokens[t], addr);
  }
}
