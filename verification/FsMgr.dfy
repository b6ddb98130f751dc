// The storage management object of server/contract/fs.go, updated in place. Each method is
// proved equal to the operation of the same name in Fs.
module FsManager {
  import opened Types
  import opened Erc
  import F = Fs
  import S = Settlements

  // Only the users' records change.
  lemma SetOrdersRest(f: F.Fs, user: nat, pro: nat, a: F.AggOrder)
    requires user in f.fs
    ensures var g := F.SetOrders(f, user, pro, a); g == f.(fs := g.fs) && user in g.fs
  {
  }

  // Storing a record again after the release leaves the last one.
  lemma ReleasedThenStored(f: F.Fs, user: nat, pro: nat, a: F.AggOrder, b: F.AggOrder,
                           k: MultiKey, start: u64, end: u64, size: u64, sprice: int)
    requires user in f.fs && k in f.proInfo
    ensures var g := F.Released(F.SetOrders(f, user, pro, a), k, start, end, size, sprice);
      && user in g.fs
      && F.SetOrders(g, user, pro, b) == F.Released(F.SetOrders(f, user, pro, b), k, start, end, size, sprice)
  {
    var ao: map<nat, F.AggOrder> := f.fs[user].ao;
    assert ao[pro := a][pro := b] == ao[pro := b];
    var g := F.Released(F.SetOrders(f, user, pro, a), k, start, end, size, sprice);
    assert F.SetOrders(g, user, pro, b).fs == F.SetOrders(f, user, pro, b).fs;
  }

  lemma EnsureTokenRest(f: F.Fs, t: nat)
    ensures var g := F.EnsureToken(f, t); g == f.(tAcc := g.tAcc, tokens := g.tokens)
  {
  }

  class FsMgr {
    const gm: GlobalMap
    const local: Address
    const owner: Address
    const foundation: nat
    var balance: map<MultiKey, int>
    var users: seq<nat>
    var fs: map<nat, F.FsInfo>
    var keepers: seq<nat>
    var lastTime: u64
    var tAcc: map<nat, int>
    var totalCount: nat
    var count: map<nat, nat>
    var proInfo: map<MultiKey, S.SettlementObject>
    var tokens: seq<nat>

    ghost function Settled(): map<MultiKey, S.Settlement>
      reads this, proInfo.Values
    {
      map k | k in proInfo :: proInfo[k].State()
    }

    ghost function State(): F.Fs
      reads this, proInfo.Values
    {
      F.Fs(local, owner, foundation, balance, users, fs, keepers, lastTime, tAcc, totalCount, count, Settled(), tokens)
    }

    // Different keys have different settlement objects.
    ghost predicate Valid()
      reads this, gm
    {
      && gm.Valid()
      && (forall j, k :: j in proInfo && k in proInfo && j != k ==> proInfo[j] != proInfo[k])
    }

    constructor (gm: GlobalMap, caller: Address, local: Address, founder: nat, now: u64)
      requires gm.Valid()
      ensures this.gm == gm && Valid()
      ensures State() == F.NewFs(caller, local, founder, now)
      ensures proInfo == map[]
    {
      this.gm := gm;
      this.local := local;
      owner := caller;
      foundation := founder;
      balance, users, fs, keepers := map[], [], map[], [];
      lastTime, tAcc, totalCount, count := now, map[], 0, map[];
      proInfo, tokens := map[], [];
    }

    method AddKeeper(caller: Address, kindex: nat) returns (err: Error)
      requires Valid()
      modifies this
      ensures Valid() && proInfo == old(proInfo)
      ensures (State(), err) == F.AddKeeper(old(State()), caller, kindex)
    {
      if caller != owner {
        return ErrPermission;
      }
      keepers := keepers + [kindex];
      count := count[kindex := 1];
      totalCount := totalCount + 1;
      assert Settled() == old(Settled());
      return NoError;
    }

    // A pot for a token that is used for the first time.
    method OpenToken(tokenIndex: nat)
      modifies this`tAcc, this`tokens
      ensures State() == F.EnsureToken(old(State()), tokenIndex)
    {
      if tokenIndex !in tAcc {
        tAcc := tAcc[tokenIndex := 0];
        tokens := tokens + [tokenIndex];
      }
    }

    method CreateFs(caller: Address, user: nat) returns (err: Error)
      requires Valid()
      modifies this
      ensures Valid() && proInfo == old(proInfo)
      ensures (State(), err) == F.CreateFs(old(State()), caller, user)
    {
      if caller != owner {
        return ErrPermission;
      }
      if user in fs {
        if fs[user].isActive {
          return ErrExist;
        }
      } else {
        fs := fs[user := F.FsInfo(false, [], map[])];
        users := users + [user];
      }
      fs := fs[user := fs[user].(isActive := true)];
      assert user !in old(fs) ==> fs == old(fs)[user := F.FsInfo(true, [], map[])];
      assert Settled() == old(Settled());
      OpenToken(0);
      return NoError;
    }

    // The fee counters: a keeper that brings an order in is counted once more.
    method CountKeeper(kindex: nat)
      modifies this`count, this`totalCount
      ensures State() == F.Touch(old(State()), kindex)
    {
      if kindex in count {
        var cnt := count[kindex];
        cnt := cnt + 1;
        count := count[kindex := cnt];
        totalCount := totalCount + 1;
      }
    }

    // Add v to the balance under k, which is created when missing.
    method AddBalance(k: MultiKey, v: int)
      modifies this`balance
      ensures State() == F.Credit(old(State()), k, v)
    {
      if k in balance {
        balance := balance[k := balance[k] + v];
      } else {
        balance := balance[k := v];
      }
    }

    // The settlement of a provider gets one more order.
    method SettleAdd(k: MultiKey, start: u64, size: u64, sprice: int, pay: int, manage: int)
      requires Valid()
      modifies this`proInfo, proInfo.Values
      ensures Valid() && fresh(proInfo.Values - old(proInfo.Values))
      ensures State() == old(State()).(proInfo :=
        old(Settled())[k := S.Add(F.SettlementOf(old(State()), k), start, size, sprice, pay, manage)])
    {
      if k !in proInfo {
        var freshSe := new S.SettlementObject();
        proInfo := proInfo[k := freshSe];
      }
      var se := proInfo[k];
      se.AddOrder(start, size, sprice, pay, manage);
      assert Settled() ==
        old(Settled())[k := S.Add(F.SettlementOf(old(State()), k), start, size, sprice, pay, manage)];
    }

    // The record of user and proIndex, created when missing.
    method OpenRecord(user: nat, proIndex: nat)
      requires user in fs
      modifies this`fs
      ensures user in fs && proIndex in fs[user].ao
      ensures State() == F.OpenOrders(old(State()), user, proIndex)
    {
      if proIndex !in fs[user].ao {
        var fi := fs[user];
        fi := fi.(providers := fi.providers + [proIndex]);
        fi := fi.(ao := fi.ao[proIndex := F.AggOrder(0, 0, map[])]);
        fs := fs[user := fi];
        assert fs == F.OpenOrders(old(State()), user, proIndex).fs;
      }
    }

    method StoreRecord(user: nat, proIndex: nat, pi: F.AggOrder)
      requires user in fs
      modifies this`fs
      ensures State() == F.SetOrders(old(State()), user, proIndex, pi)
      ensures user in fs && proIndex in fs[user].ao && fs[user].ao[proIndex] == pi
    {
      fs := fs[user := fs[user].(ao := fs[user].ao[proIndex := pi])];
    }

    // The user's record gets one more order.
    method BookRecord(user: nat, proIndex: nat, size: u64, tokenIndex: nat, sprice: int)
      requires user in fs && proIndex in fs[user].ao
      modifies this`fs
      ensures State() == F.SetOrders(old(State()), user, proIndex,
                                     F.Booked(old(fs)[user].ao[proIndex], size, tokenIndex, sprice))
    {
      var pi := fs[user].ao[proIndex];
      var si := if tokenIndex in pi.sInfo then pi.sInfo[tokenIndex] else F.StoreInfo(0, 0, 0);
      si := si.(price := si.price + sprice);
      si := si.(size := Add64(si.size, size));
      pi := pi.(sInfo := pi.sInfo[tokenIndex := si]);
      pi := pi.(nonce := pi.nonce + 1);
      StoreRecord(user, proIndex, pi);
    }

    // The part of AddOrder after its checks.
    method BookOrder(kindex: nat, user: nat, proIndex: nat, start: u64, end: u64, size: u64, tokenIndex: nat,
                     sprice: int)
      requires Valid() && user in fs && proIndex in fs[user].ao
      modifies this, proInfo.Values
      ensures Valid() && fresh(proInfo.Values - old(proInfo.Values))
      ensures State() == F.BookOrder(old(State()), kindex, user, proIndex, start, end, size, tokenIndex, sprice)
    {
      hide F.Credit, F.Touch, F.SetOrders, F.Booked, S.Add, GlobalMap.Valid;
      var pay := Sub64(end, start) * sprice;
      var per := pay / 100;
      var manage := per * F.MANAGE_RATE;
      var tax := per * F.TAX_RATE;
      SetOrdersRest(State(), user, proIndex, F.Booked(fs[user].ao[proIndex], size, tokenIndex, sprice));
      BookRecord(user, proIndex, size, tokenIndex, sprice);
      SettleAdd(MultiKey(proIndex, tokenIndex), start, size, sprice, pay, manage);
      Charge(kindex, user, tokenIndex, tax, pay + manage + tax);
    }

    // The tax goes to the foundation, the user pays, and the keeper is counted.
    method Charge(kindex: nat, user: nat, tokenIndex: nat, tax: int, payAndTax: int)
      modifies this`balance, this`count, this`totalCount
      ensures State() == F.Touch(F.Credit(F.Credit(old(State()), MultiKey(foundation, tokenIndex), tax),
                                          MultiKey(user, tokenIndex), -payAndTax), kindex)
    {
      hide F.Credit, F.Touch;
      AddBalance(MultiKey(foundation, tokenIndex), tax);
      AddBalance(MultiKey(user, tokenIndex), -payAndTax);
      CountKeeper(kindex);
    }

    method AddOrder(caller: Address, kindex: nat, user: nat, proIndex: nat, start: u64, end: u64, size: u64,
                    nonce: nat, tokenIndex: nat, sprice: int)
      returns (err: Error)
      requires Valid()
      modifies this, proInfo.Values
      ensures Valid() && fresh(proInfo.Values - old(proInfo.Values))
      ensures (State(), err)
           == F.AddOrder(old(State()), caller, kindex, user, proIndex, start, end, size, nonce, tokenIndex, sprice)
    {
      hide F.EnsureToken, F.OpenOrders, F.BookOrder, GlobalMap.Valid;
      if caller != owner {
        return ErrPermission;
      }
      OpenToken(tokenIndex);
      var uKey := MultiKey(user, tokenIndex);
      if uKey !in balance {
        return ErrBalanceNotEnough;
      }
      var pay := Sub64(end, start) * sprice;
      var per := pay / 100;
      var payAndTax := pay + per * F.MANAGE_RATE;
      payAndTax := payAndTax + per * F.TAX_RATE;
      if balance[uKey] < payAndTax {
        return ErrBalanceNotEnough;
      }
      if user !in fs {
        return ErrEmpty;
      }
      if !fs[user].isActive {
        return ErrPermission;
      }
      OpenRecord(user, proIndex);
      var pi := fs[user].ao[proIndex];
      if pi.nonce != nonce {
        return ErrNonce;
      }
      if tokenIndex in pi.sInfo && start < pi.sInfo[tokenIndex].time {
        return ErrInput;
      }
      BookOrder(kindex, user, proIndex, start, end, size, tokenIndex, sprice);
      return NoError;
    }

    method SubOrder(caller: Address, now: u64, kindex: nat, user: nat, proIndex: nat, start: u64, end: u64, size: u64,
                    nonce: nat, tokenIndex: nat, sprice: int)
      returns (err: Error)
      requires Valid()
      modifies this, proInfo.Values
      ensures Valid() && proInfo == old(proInfo)
      ensures (State(), err)
           == F.SubOrder(old(State()), caller, now, kindex, user, proIndex, start, end, size, nonce, tokenIndex, sprice)
    {
      hide F.CloseOrder;
      if caller != owner {
        return ErrPermission;
      }
      if size <= 0 {
        return ErrInput;
      }
      if end <= start {
        return ErrInput;
      }
      if now < end {
        return ErrRes;
      }
      if user !in fs {
        return ErrEmpty;
      }
      if !fs[user].isActive {
        return ErrPermission;
      }
      if proIndex !in fs[user].ao {
        return ErrEmpty;
      }
      var pi := fs[user].ao[proIndex];
      if pi.subNonce != nonce {
        return ErrNonce;
      }
      if tokenIndex !in pi.sInfo {
        return ErrEmpty;
      }
      if pi.sInfo[tokenIndex].size < size {
        return ErrRes;
      }
      err := CloseOrder(kindex, user, proIndex, start, end, size, tokenIndex, sprice);
    }

    // The part of SubOrder after its checks.
    method CloseOrder(kindex: nat, user: nat, proIndex: nat, start: u64, end: u64, size: u64, tokenIndex: nat,
                      sprice: int)
      returns (err: Error)
      requires Valid() && user in fs && proIndex in fs[user].ao && tokenIndex in fs[user].ao[proIndex].sInfo
      modifies this, proInfo.Values
      ensures Valid() && proInfo == old(proInfo)
      ensures (State(), err)
           == F.CloseOrder(old(State()), kindex, user, proIndex, start, end, size, tokenIndex, sprice)
    {
      hide F.Touch, F.SetOrders, F.Closed, F.Released, GlobalMap.Valid;
      ghost var f := State();
      var pi := CloseRecord(user, proIndex, size, tokenIndex, sprice);
      SetOrdersRest(f, user, proIndex, pi);
      var pKey := MultiKey(proIndex, tokenIndex);
      if pKey !in proInfo {
        return ErrEmpty;
      }
      ReleaseEnd(pKey, start, end, size, sprice);
      pi := pi.(subNonce := pi.subNonce + 1);
      ReleasedThenStored(f, user, proIndex, F.Closed(f.fs[user].ao[proIndex], size, tokenIndex, sprice), pi,
                         pKey, start, end, size, sprice);
      SetOrdersRest(f, user, proIndex, pi);
      StoreRecord(user, proIndex, pi);
      CountKeeper(kindex);
      return NoError;
    }

    // The user's record loses an order.
    method CloseRecord(user: nat, proIndex: nat, size: u64, tokenIndex: nat, sprice: int) returns (pi: F.AggOrder)
      requires user in fs && proIndex in fs[user].ao && tokenIndex in fs[user].ao[proIndex].sInfo
      modifies this`fs
      ensures pi == F.Closed(old(fs)[user].ao[proIndex], size, tokenIndex, sprice)
      ensures State() == F.SetOrders(old(State()), user, proIndex, pi)
    {
      pi := fs[user].ao[proIndex];
      var si := pi.sInfo[tokenIndex];
      si := si.(price := si.price - sprice);
      si := si.(size := Sub64(si.size, size));
      pi := pi.(sInfo := pi.sInfo[tokenIndex := si]);
      StoreRecord(user, proIndex, pi);
    }

    // The end fee goes into the keepers' pot, whose entry exists (FsRecords.Agree).
    method ReleaseEnd(k: MultiKey, start: u64, end: u64, size: u64, sprice: int)
      requires Valid() && k in proInfo
      modifies this`tAcc, proInfo.Values
      ensures State() == F.Released(old(State()), k, start, end, size, sprice)
    {
      hide S.Sub, S.EndFee, GlobalMap.Valid;
      var endPaid := SettleSub(k, start, end, size, sprice);
      TakeFromPot(k.token, -endPaid);
    }

    // The settlement of a provider loses an order, and the end fee is released.
    method SettleSub(k: MultiKey, start: u64, end: u64, size: u64, sprice: int) returns (endPaid: int)
      requires Valid() && k in proInfo
      modifies proInfo.Values
      ensures endPaid == S.EndFee(start, end, sprice)
      ensures Settled() == old(Settled())[k := var se := S.Sub(old(Settled())[k], end, size, sprice);
                                               se.(endPaid := se.endPaid + S.EndFee(start, end, sprice))]
    {
      var se := proInfo[k];
      se.SubOrder(end, size, sprice);
      endPaid := sprice * Sub64(end, start);
      endPaid := endPaid / 100;
      se.endPaid := se.endPaid + endPaid;
    }

    method GetBalance(now: u64, index: nat, tIndex: nat) returns (avail: int, lock: int)
      ensures (avail, lock) == F.GetBalance(State(), now, index, tIndex)
    {
      avail, lock := 0, 0;
      var mk := MultiKey(index, tIndex);
      if mk in balance {
        avail := balance[mk];
      }
      if mk in proInfo {
        var se := proInfo[mk];
        var canPay := se.canPay;
        var tmp: int := Sub64(now, se.time);
        tmp := tmp * se.price;
        canPay := canPay + tmp;
        var hardlimit := se.maxPay - se.lost;
        if hardlimit < canPay {
          canPay := hardlimit;
        }
        lock := canPay - se.hasPaid;
      }
      if totalCount <= 0 {
        return avail, lock;
      }
      if index in count {
        var per := Get(tAcc, tIndex) / totalCount;
        var pro := per * count[index];
        if F.PERIOD <= Sub64(now, lastTime) {
          avail := avail + pro;
        } else {
          lock := lock + pro;
        }
      }
    }

    method Recharge(caller: Address, addr: Address, index: nat, tokenList: seq<Address>, tokenIndex: nat, money: int)
      returns (err: Error)
      requires Valid()
      modifies this, gm.ercs.Values
      ensures Valid() && proInfo == old(proInfo)
      ensures (State(), gm.World(), err)
           == F.Recharge(old(State()), old(gm.World()), caller, addr, index, tokenList, tokenIndex, money)
    {
      hide F.EnsureToken, F.Credit, SendFrom, GlobalMap.World, GlobalMap.Valid;
      if caller != owner {
        return ErrPermission;
      }
      if |tokenList| <= tokenIndex {
        return ErrInput;
      }
      OpenToken(tokenIndex);
      ghost var f1 := State();
      EnsureTokenRest(old(State()), tokenIndex);
      err := gm.SendBalanceFrom(tokenList[tokenIndex], local, addr, local, money);
      assert Settled() == old(Settled());
      assert State() == f1;
      if err != NoError {
        return;
      }
      AddBalance(MultiKey(index, tokenIndex), money);
    }

    // One keeper's part of the pot of token tindex.
    method PayKeeper(tindex: nat, per: int, kindex: nat)
      modifies this`balance, this`tAcc, this`count
      ensures State() == F.PayKeeper(old(State()), tindex, per, kindex)
    {
      if kindex in count {
        var kc := count[kindex];
        var pro := per * kc;
        AddBalance(MultiKey(kindex, tindex), pro);
        TakeFromPot(tindex, pro);
      } else {
        count := count[kindex := 1];
      }
    }

    method TakeFromPot(t: nat, v: int)
      modifies this`tAcc
      ensures State() == old(State()).(tAcc := old(tAcc)[t := Get(old(tAcc), t) - v])
    {
      tAcc := tAcc[t := Get(tAcc, t) - v];
    }

    // The nested distribution loops of Withdraw.
    method ShareProfit() returns (err: Error)
      requires 0 < totalCount
      modifies this`balance, this`tAcc, this`count
      ensures (State(), err) == F.ShareTokens(old(State()), tokens)
    {
      hide F.PayKeeper;
      for i := 0 to |tokens|
        invariant F.ShareTokens(State(), tokens[i..]) == F.ShareTokens(old(State()), tokens)
      {
        var tindex := tokens[i];
        assert tokens[i..][0] == tindex && tokens[i..][1..] == tokens[i + 1..];
        if tindex !in tAcc {
          return ErrEmpty;
        }
        var per := tAcc[tindex] / totalCount;
        ghost var f := State();
        for j := 0 to |keepers|
          invariant F.ShareKeepers(State(), tindex, per, keepers[j..]) == F.ShareKeepers(f, tindex, per, keepers)
        {
          assert keepers[j..][0] == keepers[j] && keepers[j..][1..] == keepers[j + 1..];
          PayKeeper(tindex, per, keepers[j]);
        }
      }
      return NoError;
    }

    method Withdraw(ntime: u64, info: F.Info, index: nat, tokenList: seq<Address>, tokenIndex: nat, amount: int)
      returns (err: Error)
      requires Valid()
      modifies this, gm.ercs.Values
      ensures Valid() && proInfo == old(proInfo)
      ensures (State(), gm.World(), err)
           == F.Withdraw(old(State()), old(gm.World()), ntime, info, index, tokenList, tokenIndex, amount)
    {
      hide F.Share, F.PayOut, GlobalMap.World, GlobalMap.Valid;
      if amount < 0 {
        return ErrInput;
      }
      if info.NoInfo? {
        return info.err;
      }
      if info.isKeeper {
        err := ShareDue(ntime);
        if err != NoError {
          return;
        }
      }
      err := PayOut(info.addr, index, tokenList, tokenIndex, amount);
    }

    // The distribution of Withdraw, at most once per period.
    method ShareDue(ntime: u64) returns (err: Error)
      modifies this`balance, this`tAcc, this`count, this`lastTime
      ensures (State(), err) == F.Share(old(State()), ntime)
    {
      hide F.ShareTokens;
      if F.PERIOD < Sub64(ntime, lastTime) {
        if totalCount <= 0 {
          return ErrRes;
        }
        err := ShareProfit();
        if err != NoError {
          return;
        }
        ghost var g := State();
        lastTime := ntime;
        assert Settled() == g.proInfo;
        assert State() == g.(lastTime := ntime);
      }
      return NoError;
    }

    // The payout of Withdraw.
    method PayOut(addr: Address, index: nat, tokenList: seq<Address>, tokenIndex: nat, amount: int) returns (err: Error)
      requires Valid()
      modifies this`balance, gm.ercs.Values
      ensures Valid()
      ensures (State(), gm.World(), err)
           == F.PayOut(old(State()), old(gm.World()), addr, index, tokenList, tokenIndex, amount)
    {
      hide Send, GlobalMap.World, GlobalMap.Valid;
      var nk := MultiKey(index, tokenIndex);
      AddBalance(nk, 0);
      var pay := amount;
      if pay == 0 || balance[nk] < pay {
        pay := balance[nk];
      }
      if |tokenList| <= tokenIndex {
        return ErrInput;
      }
      ghost var f1 := State();
      err := gm.SendBalance(tokenList[tokenIndex], local, addr, pay);
      assert Settled() == old(Settled());
      assert State() == f1;
      if err != NoError {
        return;
      }
      AddBalance(nk, -pay);
    }

    method ProWithdraw(ntime: u64, info: F.Info, proIndex: nat, tokenList: seq<Address>, tokenIndex: nat, pay: int,
                       lost: int)
      returns (err: Error)
      requires Valid()
      modifies this, proInfo.Values, gm.ercs.Values
      ensures Valid() && proInfo == old(proInfo)
      ensures (State(), gm.World(), err)
           == F.ProWithdraw(old(State()), old(gm.World()), ntime, info, proIndex, tokenList, tokenIndex, pay, lost)
    {
      hide F.Claim, F.PayAll, GlobalMap.World, GlobalMap.Valid;
      var pKey := MultiKey(proIndex, tokenIndex);
      if pKey !in proInfo {
        return ErrEmpty;
      }
      err := Claim(ntime, pKey, pay, lost);
      if err != NoError {
        return;
      }
      err := PayAll(info, pKey, tokenList);
    }

    // The accounting part of ProWithdraw.
    method Claim(ntime: u64, pKey: MultiKey, pay: int, lost: int) returns (err: Error)
      requires Valid() && pKey in proInfo
      modifies this`balance, this`tAcc, proInfo.Values
      ensures Valid() && gm.World() == old(gm.World())
      ensures (State(), err) == F.Claim(old(State()), ntime, pKey, pay, lost)
    {
      hide F.Credit, S.Calc, S.Linear, GlobalMap.Valid, GlobalMap.World;
      var thisPay, lpay;
      thisPay, lpay, err := SettleClaim(ntime, pKey, pay, lost);
      if err != NoError {
        return;
      }
      assert gm.World() == old(gm.World());
      PayClaim(pKey, lpay, thisPay);
    }

    // The linear fee goes into the pot and the claimed amount to the provider's balance.
    method PayClaim(pKey: MultiKey, lpay: int, thisPay: int)
      modifies this`balance, this`tAcc
      ensures State() == F.Credit(
        old(State()).(tAcc := if 0 < lpay then old(tAcc)[pKey.token := Get(old(tAcc), pKey.token) + lpay]
                      else old(tAcc)),
        pKey, thisPay)
    {
      hide F.Credit;
      AddPot(pKey.token, lpay);
      AddBalance(pKey, thisPay);
    }

    method AddPot(t: nat, lpay: int)
      modifies this`tAcc
      ensures State() == old(State()).(tAcc := if 0 < lpay then old(tAcc)[t := Get(old(tAcc), t) + lpay] else old(tAcc))
    {
      if 0 < lpay {
        tAcc := tAcc[t := Get(tAcc, t) + lpay];
      }
    }

    // The settlement accepts a claim and releases the linear keeper fee lpay.
    method SettleClaim(ntime: u64, k: MultiKey, pay: int, lost: int) returns (thisPay: int, lpay: int, err: Error)
      requires Valid() && k in proInfo
      modifies proInfo.Values
      ensures var (se, res, e) := S.Calc(old(Settled())[k], ntime, pay, lost);
        && err == e && thisPay == res
        && Settled() == old(Settled())[k := if e == NoError then S.Linear(se) else se]
        && (e == NoError ==> lpay == S.Linear(se).linearPaid - se.linearPaid)
    {
      hide S.Calc, S.Linear, GlobalMap.Valid;
      lpay := 0;
      var se := proInfo[k];
      thisPay, err := se.CalcPay(ntime, pay, lost);
      if err == NoError {
        lpay := se.ReleaseLinear();
      }
    }

    // The payout of ProWithdraw.
    method PayAll(info: F.Info, pKey: MultiKey, tokenList: seq<Address>) returns (err: Error)
      requires Valid()
      modifies this`balance, gm.ercs.Values
      ensures Valid()
      ensures (State(), gm.World(), err) == F.PayAll(old(State()), old(gm.World()), info, pKey, tokenList)
    {
      hide Send, GlobalMap.World, GlobalMap.Valid;
      if info.NoInfo? {
        return info.err;
      }
      if |tokenList| <= pKey.token {
        return ErrInput;
      }
      var pb := Get(balance, pKey);
      err := gm.SendBalance(tokenList[pKey.token], local, info.addr, pb);
      assert Settled() == old(Settled());
      assert State() == old(State());
      if err != NoError {
        return;
      }
      AddBalance(pKey, -pb);
    }
  }
}
