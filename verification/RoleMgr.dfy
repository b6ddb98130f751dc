// The role manager object of server/contract/role.go: registry, groups and issuance, updated
// in place, with calls to the pledge pool and to the groups' storage managers. Each method is
// proved equal to the operation of the same name in System, on the state of all contracts.
module RoleManager {
  import opened Types
  import opened Erc
  import opened PledgeManager
  import opened FsDirectory
  import P = Pool
  import F = Fs
  import R = Registry
  import I = Issuance
  import System

  // The reward level after the loop of AddOrder, one step at a time.
  lemma MintStep(level: nat, spaceTime: int, size: int, i: nat)
    requires i < |I.MINT|
    ensures var st := spaceTime / Max(I.MINT[i].size, size);
      I.MintLoop(level, spaceTime, size, i)
      == if I.MINT[i].duration <= st then I.MintLoop(i, st, size, i + 1) else (level, st)
  {
  }

  lemma MintEnd(level: nat, spaceTime: int, size: int)
    ensures I.MintLoop(level, spaceTime, size, |I.MINT|) == (level, spaceTime)
  {
  }

  lemma MemberHasInfo(r: R.Registry, index: nat, t: nat)
    requires System.MemberError(r, index, t) == NoError
    ensures R.InfoError(r, index) == NoError && t < |r.tokens|
  {
  }

  lemma UserPartyError(r: R.Registry, user: nat, pro: nat)
    ensures System.PartyError(r, user, pro, true)
         == if R.InfoError(r, user) != NoError then R.InfoError(r, user)
            else if R.InfoOf(r, user).role != R.User then ErrRoleType
            else System.PartyError(r, user, pro, false)
  {
  }

  // The issuance totals of a call, and then its reward, are the call.
  lemma BookIsReward(s: I.Issue, c: I.Call, z: I.Issue, reward: int)
    requires var paid, t := I.PaidNow(s, c), I.Totals(s, c, I.PaidNow(s, c));
      && s.mintLevel < |I.MINT| && z.mintLevel < |I.MINT|
      && z == t.(mintLevel := z.mintLevel, spaceTime := z.spaceTime)
      && (z.mintLevel, z.spaceTime) == (if paid <= 0 then (t.mintLevel, t.spaceTime)
                                        else I.MintLoop(t.mintLevel, t.spaceTime, t.size, t.mintLevel + 1))
      && reward == if paid <= 0 then 0 else paid * I.MINT[z.mintLevel].ratio / 100
    ensures I.Booked(z, I.PaidNow(s, c), reward) == I.Book(s, c)
  {
    hide I.MintLoop, I.Crosses, I.DayOf, I.Clock;
  }

  class RoleMgr {
    const gm: GlobalMap
    const local: Address
    const admin: Address
    const foundation: Address
    const pool: PledgeMgr
    // the storage managers of the groups
    const dir: FsDir

    var addrs: seq<Address>
    var info: map<Address, R.BaseInfo>
    var groups: seq<R.GroupInfo>
    var tokens: seq<Address>
    var tInfo: map<Address, nat>
    var pledgeKeeper: int
    var pledgePro: int

    var mintLevel: nat
    var lastMint: int
    var size: int
    var price: int
    var spaceTime: int
    var totalPaid: int
    var totalPay: int
    var subPMap: map<int, int>
    var subSMap: map<int, int>

    ghost function Reg(): R.Registry
      reads this
    {
      R.Registry(local, admin, foundation, addrs, info, groups, tokens, tInfo, pledgeKeeper, pledgePro)
    }

    ghost function Iss(): I.Issue
      reads this
    {
      I.Issue(price, size, spaceTime, totalPaid, totalPay, mintLevel, lastMint, subPMap, subSMap)
    }

    // The state of all contracts.
    ghost function Abs(): System.Sys
      reads this, gm, gm.ercs.Values, pool, dir, dir.fms, dir.Objects()
    {
      System.Sys(gm.World(), Reg(), Iss(), pool.State(), dir.States())
    }

    ghost predicate Valid()
      reads this, gm, pool, dir, dir.fms
    {
      && pool.gm == gm && pool.owner == local && pool.Valid()
      && dir.gm == gm && dir.owner == local && dir.Valid()
      && |dir.fms| == |groups|
      && 0 < |tokens|
      && mintLevel < |I.MINT|
    }

    lemma AbsShape()
      requires Valid()
      ensures System.Shape(Abs()) && |dir.States()| == |groups| && gm.Valid()
    {
    }

    lemma PoolOwner()
      requires Valid()
      ensures Abs().pool.owner == pool.owner == local
    {
    }

    constructor (gm: GlobalMap, local: Address, poolLocal: Address, caller: Address, foundation: Address,
                 primaryToken: Address, kPledge: int, pPledge: int, now: u64)
      requires gm.Valid()
      ensures Valid() && this.gm == gm
      ensures Abs() == System.NewSys(gm.World(), local, poolLocal, caller, foundation, primaryToken, kPledge, pPledge,
                                     now)
    {
      hide P.Coherent;
      this.gm := gm;
      this.local := local;
      admin := caller;
      this.foundation := foundation;
      addrs := [foundation];
      info := map[foundation := R.BaseInfo(false, false, R.Account, 0, 0)];
      groups := [];
      tokens := [primaryToken];
      tInfo := map[primaryToken := 0];
      pledgeKeeper, pledgePro := kPledge, pPledge;
      mintLevel, lastMint, size, price, spaceTime := 0, now, 0, 0, 0;
      totalPaid, totalPay := 0, 0;
      subPMap, subSMap := map[], map[];
      pool := new PledgeMgr(gm, local, primaryToken, poolLocal);
      dir := new FsDir(gm, local);
    }

    // ---------- Registration ----------

    method GetInfo(index: nat) returns (err: Error)
      ensures err == R.InfoError(Reg(), index)
    {
      if |addrs| <= index {
        return ErrInput;
      }
      var addr := addrs[index];
      if addr !in info {
        return ErrEmpty;
      }
      if info[addr].isBanned {
        return ErrPermission;
      }
      return NoError;
    }

    method Register(addr: Address) returns (err: Error)
      requires Valid()
      modifies this`addrs, this`info
      ensures Valid()
      ensures (Abs(), err) == System.Register(old(Abs()), addr)
    {
      hide GlobalMap.World, GlobalMap.Valid, P.Coherent, PledgeMgr.State, PledgeMgr.Valid, FsDir.Valid, FsDir.States,
        FsDir.Objects;
      if addr in info {
        return ErrExist;
      }
      var bi := R.BaseInfo(false, false, R.Account, |addrs|, 0);
      addrs := addrs + [addr];
      info := info[addr := bi];
      return NoError;
    }

    method RegisterToken(taddr: Address) returns (err: Error)
      requires Valid()
      modifies this`tokens, this`tInfo, pool
      ensures Valid()
      ensures (Abs(), err) == System.RegisterToken(old(Abs()), taddr)
    {
      hide GlobalMap.World, GlobalMap.Valid, P.Coherent, PledgeMgr.State, PledgeMgr.Valid, FsDir.Valid, FsDir.States,
        FsDir.Objects, P.AddToken;
      if taddr in tInfo {
        return ErrExist;
      }
      var ti := |tokens|;
      tokens := tokens + [taddr];
      tInfo := tInfo[taddr := ti];
      err := pool.AddToken(local, taddr, ti);
    }

    method RegisterKeeper(index: nat) returns (err: Error)
      requires Valid()
      modifies this`info
      ensures Valid()
      ensures (Abs(), err) == System.RegisterRole(old(Abs()), index, R.Keeper)
    {
      hide GlobalMap.World, GlobalMap.Valid, P.Coherent, PledgeMgr.State, PledgeMgr.Valid, FsDir.Valid, FsDir.States,
        FsDir.Objects;
      err := RegisterAs(index, pledgeKeeper, R.Keeper);
    }

    method RegisterProvider(index: nat) returns (err: Error)
      requires Valid()
      modifies this`info
      ensures Valid()
      ensures (Abs(), err) == System.RegisterRole(old(Abs()), index, R.Provider)
    {
      hide GlobalMap.World, GlobalMap.Valid, P.Coherent, PledgeMgr.State, PledgeMgr.Valid, FsDir.Valid, FsDir.States,
        FsDir.Objects;
      err := RegisterAs(index, pledgePro, R.Provider);
    }

    // The code that RegisterKeeper and RegisterProvider share.
    method RegisterAs(index: nat, need: int, role: R.Role) returns (err: Error)
      requires Valid()
      requires need == if role == R.Keeper then pledgeKeeper else pledgePro
      modifies this`info
      ensures Valid()
      ensures (Abs(), err) == System.RegisterRole(old(Abs()), index, role)
    {
      hide GlobalMap.World, GlobalMap.Valid, P.Coherent, PledgeMgr.State, PledgeMgr.Valid, FsDir.Valid, FsDir.States,
        FsDir.Objects, P.GetBalance;
      err := GetInfo(index);
      if err != NoError {
        return;
      }
      var addr := addrs[index];
      if info[addr].role != R.Account {
        return ErrRoleType;
      }
      var res := pool.GetBalance(index);
      if res.NoBalances? || |res.vals| < 1 {
        return ErrBalanceNotEnough;
      }
      if res.vals[0] < need {
        return ErrBalanceNotEnough;
      }
      info := info[addr := info[addr].(role := role)];
      return NoError;
    }

    method RegisterUser(index: nat, gIndex: nat) returns (err: Error)
      requires Valid()
      modifies this`info, dir.fms
      ensures Valid()
      ensures (Abs(), err) == System.RegisterUser(old(Abs()), index, gIndex)
    {
      hide GlobalMap.World, GlobalMap.Valid, P.Coherent, PledgeMgr.State, PledgeMgr.Valid, FsDir.Valid, FsDir.States,
        FsDir.Objects, F.CreateFs;
      AbsShape();
      err := GetInfo(index);
      if err != NoError {
        return;
      }
      var addr := addrs[index];
      if info[addr].role != R.Account {
        return ErrRoleType;
      }
      if |groups| <= gIndex {
        return ErrInput;
      }
      if !groups[gIndex].isActive || groups[gIndex].isBanned {
        return ErrPermission;
      }
      err := dir.CreateFs(gIndex, local, index);
      if err != NoError {
        return;
      }
      info := info[addr := info[addr].(role := R.User, gIndex := gIndex)];
    }

    method SetPledgeMoney(kPledge: int, pPledge: int) returns (err: Error)
      requires Valid()
      modifies this`pledgeKeeper, this`pledgePro
      ensures Valid()
      ensures (Abs(), err) == System.SetPledgeMoney(old(Abs()), kPledge, pPledge)
    {
      hide GlobalMap.World, GlobalMap.Valid, P.Coherent, PledgeMgr.State, PledgeMgr.Valid, FsDir.Valid, FsDir.States,
        FsDir.Objects;
      pledgeKeeper := kPledge;
      pledgePro := pPledge;
      return NoError;
    }

    // ---------- Groups ----------

    method CreateGroup(caller: Address, level: nat, fsLocal: Address, now: u64) returns (err: Error)
      requires Valid()
      modifies this`groups, dir
      ensures Valid()
      ensures (Abs(), err) == System.CreateGroup(old(Abs()), now, caller, level, fsLocal)
    {
      hide GlobalMap.World, GlobalMap.Valid, P.Coherent, PledgeMgr.State, PledgeMgr.Valid, FsDir.Valid, FsDir.States,
        FsDir.Objects, F.NewFs;
      AbsShape();
      if caller != admin {
        return ErrPermission;
      }
      var gi := R.GroupInfo(false, false, false, level, [], [], 0, 0);
      groups := groups + [gi];
      dir.Create(fsLocal, 0, now);
      return NoError;
    }

    method SetReady(gIndex: nat, signatures: nat) returns (err: Error)
      requires Valid()
      modifies this`groups
      ensures Valid()
      ensures (Abs(), err) == System.SetReady(old(Abs()), gIndex, signatures)
    {
      hide GlobalMap.World, GlobalMap.Valid, P.Coherent, PledgeMgr.State, PledgeMgr.Valid, FsDir.Valid, FsDir.States,
        FsDir.Objects;
      if |groups| <= gIndex {
        return ErrInput;
      }
      var gi := groups[gIndex];
      if gi.isBanned {
        return ErrPermission;
      }
      if gi.isActive {
        return ErrPermission;
      }
      if signatures < gi.level {
        return ErrPermission;
      }
      groups := groups[gIndex := gi.(isReady := true)];
      return NoError;
    }

    method AddKeeperToGroup(index: nat, gIndex: nat) returns (err: Error)
      requires Valid()
      modifies this`groups, this`info, dir.fms
      ensures Valid()
      ensures (Abs(), err) == System.AddKeeperToGroup(old(Abs()), index, gIndex)
    {
      hide GlobalMap.World, GlobalMap.Valid, P.Coherent, PledgeMgr.State, PledgeMgr.Valid, FsDir.Valid, FsDir.States,
        FsDir.Objects, F.AddKeeper;
      AbsShape();
      if |groups| <= gIndex {
        return ErrInput;
      }
      var gi := groups[gIndex];
      if gi.isBanned {
        return ErrPermission;
      }
      err := GetInfo(index);
      if err != NoError {
        return;
      }
      var addr := addrs[index];
      if info[addr].role != R.Keeper {
        return ErrRoleType;
      }
      if info[addr].isActive {
        return ErrPermission;
      }
      err := dir.AddKeeper(gIndex, local, index);
      if err != NoError {
        return;
      }
      gi := gi.(keepers := gi.keepers + [index]);
      if gi.level <= |gi.keepers| {
        gi := gi.(isActive := true);
      }
      Join(index, gIndex, gi);
      return NoError;
    }

    // An address becomes an active member of a group with the new lists gi.
    method Join(index: nat, gIndex: nat, gi: R.GroupInfo)
      requires Valid() && gIndex < |groups| && R.InfoError(Reg(), index) == NoError
      modifies this`groups, this`info
      ensures Valid()
      ensures Abs() == old(Abs()).(reg := R.SetInfo(old(Reg()).(groups := old(groups)[gIndex := gi]), index,
                                                    R.InfoOf(old(Reg()), index).(gIndex := gIndex, isActive := true)))
    {
      hide GlobalMap.World, GlobalMap.Valid, P.Coherent, PledgeMgr.State, PledgeMgr.Valid, FsDir.Valid, FsDir.States,
        FsDir.Objects;
      var addr := addrs[index];
      info := info[addr := info[addr].(gIndex := gIndex, isActive := true)];
      groups := groups[gIndex := gi];
    }

    method AddProviderToGroup(index: nat, gIndex: nat) returns (err: Error)
      requires Valid()
      modifies this`groups, this`info
      ensures Valid()
      ensures (Abs(), err) == System.AddProviderToGroup(old(Abs()), index, gIndex)
    {
      hide GlobalMap.World, GlobalMap.Valid, P.Coherent, PledgeMgr.State, PledgeMgr.Valid, FsDir.Valid, FsDir.States,
        FsDir.Objects;
      if |groups| <= gIndex {
        return ErrInput;
      }
      var gi := groups[gIndex];
      if gi.isBanned {
        return ErrPermission;
      }
      err := GetInfo(index);
      if err != NoError {
        return;
      }
      var addr := addrs[index];
      if info[addr].isActive {
        return ErrPermission;
      }
      if info[addr].role != R.Provider {
        return ErrRoleType;
      }
      Join(index, gIndex, gi.(providers := gi.providers + [index]));
      return NoError;
    }

    // ---------- Issuance ----------

    // The order enters the bucket of the day it ends.
    method AddBucket(end: int, osize: int, sprice: int)
      modifies this`subPMap, this`subSMap
      ensures subPMap == I.AddTo(old(subPMap), end, sprice)
      ensures subSMap == I.AddTo(old(subSMap), end, osize)
    {
      if end in subPMap {
        subPMap := subPMap[end := subPMap[end] + sprice];
      } else {
        subPMap := subPMap[end := sprice];
      }
      if end in subSMap {
        subSMap := subSMap[end := subSMap[end] + osize];
      } else {
        subSMap := subSMap[end := osize];
      }
    }

    // What became due up to ntime; the bucket of a day that is crossed leaves the totals.
    method CrossDay(ntime: int) returns (paid: int)
      modifies this`price, this`size
      ensures price == old(price) - I.Crossed(lastMint, ntime, subPMap)
      ensures size == old(size) - I.Crossed(lastMint, ntime, subSMap)
      ensures paid == old(price) * (ntime - lastMint) - I.Crossed(lastMint, ntime, subPMap) * (ntime - I.DayOf(ntime))
    {
      var dur := ntime - lastMint;
      paid := price * dur;
      if lastMint / DAY < ntime / DAY {
        var midTime := ntime / DAY * DAY;
        if midTime in subPMap {
          var sp := subPMap[midTime];
          var subPay := sp * (ntime - midTime);
          paid := paid - subPay;
          price := price - sp;
        }
        if midTime in subSMap {
          size := size - subSMap[midTime];
        }
      }
    }

    // Issuance for an accepted order in the main token.
    method Mint(now: u64, start: u64, end: u64, osize: u64, sprice: int) returns (err: Error)
      requires Valid()
      modifies this`price, this`size, this`spaceTime, this`totalPaid, this`totalPay, this`mintLevel, this`lastMint,
        this`subPMap, this`subSMap, gm.ercs.Values
      ensures Valid()
      ensures (Abs(), err) == System.Issue(old(Abs()), I.Call(now, start, end, osize, sprice))
    {
      hide GlobalMap.World, GlobalMap.Valid, P.Coherent, PledgeMgr.Valid, FsDir.Valid, FsDir.States, FsDir.Objects,
        I.Book, I.Clock, Send;
      AbsShape();
      var ntime := IssueClock(now);
      var paid, reward := BookTotals(ntime, start, end, osize, sprice, now);
      if paid <= 0 {
        SetClock(ntime);
        return NoError;
      }
      err := SendReward(reward);
      if err != NoError {
        return;
      }
      SetClock(ntime);
    }

    method IssueClock(now: u64) returns (ntime: int)
      ensures ntime == I.Clock(lastMint, now)
    {
      ntime := now;
      if now < lastMint || DAY < now - lastMint {
        ntime := lastMint + DAY;
      }
    }

    method SetClock(ntime: int)
      requires Valid()
      modifies this`lastMint
      ensures Valid() && Abs() == old(Abs()).(iss := old(Iss()).(lastMint := ntime))
    {
      hide GlobalMap.World, GlobalMap.Valid, P.Coherent, PledgeMgr.State, PledgeMgr.Valid, FsDir.Valid, FsDir.States,
        FsDir.Objects;
      lastMint := ntime;
    }

    method SendReward(reward: int) returns (err: Error)
      requires Valid()
      modifies gm.ercs.Values
      ensures Valid()
      ensures var (w, e) := Send(old(gm.World()), tokens[0], local, pool.local, reward);
        Abs() == old(Abs()).(w := w) && err == e
    {
      hide GlobalMap.World, GlobalMap.Valid, P.Coherent, PledgeMgr.State, PledgeMgr.Valid, FsDir.Valid, FsDir.States,
        FsDir.Objects, Send;
      AbsShape();
      err := gm.SendBalance(tokens[0], local, pool.local, reward);
    }

    method BookTotals(ntime: int, start: int, end: int, osize: int, sprice: int, ghost now: int)
      returns (paid: int, reward: int)
      requires Valid() && ntime == I.Clock(lastMint, now)
      modifies this`price, this`size, this`spaceTime, this`totalPaid, this`totalPay, this`mintLevel, this`subPMap,
        this`subSMap
      ensures Valid()
      ensures var b := I.Book(old(Iss()), I.Call(now, start, end, osize, sprice));
        Abs() == old(Abs()).(iss := b.issue) && paid == b.paid && reward == b.reward
    {
      hide GlobalMap.World, GlobalMap.Valid, P.Coherent, PledgeMgr.State, PledgeMgr.Valid, FsDir.Valid, FsDir.States,
        FsDir.Objects, I.Book, I.Clock;
      paid, reward := BookMint(ntime, start, end, osize, sprice, now);
    }

    // The totals and the reward, up to the transfer.
    method BookMint(ntime: int, start: int, end: int, osize: int, sprice: int, ghost now: int)
      returns (paid: int, reward: int)
      requires mintLevel < |I.MINT| && ntime == I.Clock(lastMint, now)
      modifies this`price, this`size, this`spaceTime, this`totalPaid, this`totalPay, this`mintLevel, this`subPMap,
        this`subSMap
      ensures mintLevel < |I.MINT|
      ensures I.Booked(Iss(), paid, reward) == I.Book(old(Iss()), I.Call(now, start, end, osize, sprice))
    {
      hide I.MintLoop, I.Crossed, I.DayOf, I.Clock, I.Book, I.AddTo;
      ghost var s := Iss();
      AddBucket(end, osize, sprice);
      paid := CrossDay(ntime);
      totalPaid := totalPaid + paid;
      spaceTime := spaceTime + osize * (end - start);
      totalPay := totalPay + sprice * (end - start);
      size := size + osize;
      price := price + sprice;
      ghost var t := Iss();
      assert t == I.Totals(s, I.Call(now, start, end, osize, sprice), paid);
      reward := Reward(paid);
      BookIsReward(s, I.Call(now, start, end, osize, sprice), Iss(), reward);
    }

    // A positive amount may raise the level, and is multiplied by its ratio.
    method Reward(paid: int) returns (reward: int)
      requires mintLevel < |I.MINT|
      modifies this`mintLevel, this`spaceTime
      ensures mintLevel < |I.MINT|
      ensures (mintLevel, spaceTime) == if paid <= 0 then (old(mintLevel), old(spaceTime))
                                        else I.MintLoop(old(mintLevel), old(spaceTime), size, old(mintLevel) + 1)
      ensures reward == if paid <= 0 then 0 else paid * I.MINT[mintLevel].ratio / 100
    {
      hide I.MintLoop;
      reward := 0;
      if 0 < paid {
        RaiseLevel();
        reward := paid * I.MINT[mintLevel].ratio;
        reward := reward / 100;
      }
    }

    // The loop over the mint levels.
    method RaiseLevel()
      requires mintLevel < |I.MINT|
      modifies this`mintLevel, this`spaceTime
      ensures (mintLevel, spaceTime) == I.MintLoop(old(mintLevel), old(spaceTime), size, old(mintLevel) + 1)
      ensures mintLevel < |I.MINT|
    {
      hide I.MintLoop;
      var i := mintLevel + 1;
      while i < |I.MINT|
        invariant mintLevel < i <= |I.MINT|
        invariant I.MintLoop(mintLevel, spaceTime, size, i)
               == I.MintLoop(old(mintLevel), old(spaceTime), size, old(mintLevel) + 1)
      {
        var esize := I.MINT[i].size;
        if esize < size {
          esize := size;
        }
        var dur := I.MINT[i].duration;
        MintStep(mintLevel, spaceTime, size, i);
        spaceTime := spaceTime / esize;
        if dur <= spaceTime {
          mintLevel := i;
        } else {
          return;
        }
        i := i + 1;
      }
      MintEnd(mintLevel, spaceTime, size);
    }

    // ---------- Orders ----------

    // The checks of AddOrder before the storage manager is called, and the keeper's index.
    method CheckOrder(caller: Address, user: nat, proIndex: nat) returns (kindex: nat, gIndex: nat, err: Error)
      ensures err == System.PartyError(Reg(), user, proIndex, false)
      ensures kindex == System.IndexOf(Reg(), caller)
      ensures err == NoError ==> gIndex == R.InfoOf(Reg(), user).gIndex && gIndex < |groups|
    {
      kindex, gIndex := 0, 0;
      if caller in info {
        kindex := info[caller].index;
      }
      err := GetInfo(user);
      if err != NoError {
        return;
      }
      err := GetInfo(proIndex);
      if err != NoError {
        return;
      }
      var ui, pi := info[addrs[user]], info[addrs[proIndex]];
      if pi.role != R.Provider {
        return kindex, gIndex, ErrRoleType;
      }
      if pi.gIndex != ui.gIndex {
        return kindex, gIndex, ErrInput;
      }
      if |groups| <= ui.gIndex {
        return kindex, gIndex, ErrInput;
      }
      var gi := groups[ui.gIndex];
      if !gi.isActive || gi.isBanned {
        return kindex, gIndex, ErrPermission;
      }
      gIndex := ui.gIndex;
    }

    method AddOrder(caller: Address, now: u64, user: nat, proIndex: nat, start: u64, end: u64, osize: u64,
                    nonce: nat, tokenIndex: nat, sprice: int) returns (err: Error)
      requires Valid()
      modifies this, dir.fms, dir.Objects(), gm.ercs.Values
      ensures Valid()
      ensures (Abs(), err)
           == System.AddOrder(old(Abs()), now, caller, user, proIndex, start, end, osize, nonce, tokenIndex, sprice)
    {
      hide GlobalMap.World, GlobalMap.Valid, P.Coherent, PledgeMgr.State, PledgeMgr.Valid, FsDir.Valid, FsDir.States,
        FsDir.Objects, F.AddOrder, R.AddToGroup, System.PartyError, System.IndexOf, System.Issue;
      AbsShape();
      if osize <= 0 {
        return ErrInput;
      }
      if end <= start {
        return ErrInput;
      }
      if end / 86400 * 86400 as int != end {
        return ErrInput;
      }
      var kindex, gIndex;
      kindex, gIndex, err := CheckOrder(caller, user, proIndex);
      if err != NoError {
        return;
      }
      if |tokens| <= tokenIndex {
        return ErrBalanceNotEnough;
      }
      dir.ObjectsOf(gIndex);
      err := dir.AddOrder(gIndex, local, kindex, user, proIndex, start, end, osize, nonce, tokenIndex, sprice);
      if err != NoError || tokenIndex != 0 {
        return;
      }
      ChangeGroup(gIndex, osize, sprice);
      err := Mint(now, start, end, osize, sprice);
    }

    // The totals of a group; negative amounts for an order that was closed.
    method ChangeGroup(gIndex: nat, osize: int, sprice: int)
      requires Valid() && gIndex < |groups|
      modifies this`groups
      ensures Valid()
      ensures Abs() == old(Abs()).(reg := R.AddToGroup(old(Reg()), gIndex, osize, sprice))
    {
      hide GlobalMap.World, GlobalMap.Valid, P.Coherent, PledgeMgr.State, PledgeMgr.Valid, FsDir.Valid, FsDir.States,
        FsDir.Objects;
      var gi := groups[gIndex];
      gi := gi.(size := gi.size + osize);
      gi := gi.(price := gi.price + sprice);
      groups := groups[gIndex := gi];
    }

    // ---------- Pledging ----------

    // The role manager approves a spender of its own tokens.
    method ApproveOwn(tokenIndex: nat, spender: Address, money: int) returns (err: Error)
      requires Valid() && tokenIndex < |tokens|
      modifies gm.ercs.Values
      ensures Valid()
      ensures err == if tokens[tokenIndex] in old(gm.World()) then NoError else ErrEmpty
      ensures Abs() == if err == NoError
                       then old(Abs()).(w := Approved(old(gm.World()), tokens[tokenIndex], local, spender, money))
                       else old(Abs())
    {
      hide GlobalMap.World, GlobalMap.Valid, P.Coherent, PledgeMgr.State, PledgeMgr.Valid, FsDir.Valid, FsDir.States,
        FsDir.Objects, Approved;
      AbsShape();
      err := gm.Approve(tokens[tokenIndex], local, spender, money);
    }

    // Who pays: the account of index for its own call, and for the administrator the role manager
    // itself, after an approval.
    method FindPayer(caller: Address, index: nat, tokenIndex: nat, spender: Address, money: int)
      returns (addr: Address, err: Error)
      requires Valid() && tokenIndex < |tokens| && index < |addrs|
      modifies gm.ercs.Values
      ensures Valid()
      ensures addr == if caller == admin then local else addrs[index]
      ensures err == if caller == admin then (if tokens[tokenIndex] in old(gm.World()) then NoError else ErrEmpty)
                     else if caller == addrs[index] then NoError else ErrPermission
      ensures Abs() == if err == NoError && caller == admin
                       then old(Abs()).(w := Approved(old(gm.World()), tokens[tokenIndex], local, spender, money))
                       else old(Abs())
    {
      hide GlobalMap.World, GlobalMap.Valid, P.Coherent, PledgeMgr.State, PledgeMgr.Valid, FsDir.Valid, FsDir.States,
        FsDir.Objects, Approved;
      addr := addrs[index];
      err := NoError;
      if caller == admin {
        addr := local;
        err := ApproveOwn(tokenIndex, spender, money);
      } else if caller != addr {
        err := ErrPermission;
      }
    }

    // When the caller is the administrator the role manager pays, after an approval.
    method Pledge(caller: Address, index: nat, money: int) returns (err: Error)
      requires Valid()
      modifies pool, gm.ercs.Values
      ensures Valid()
      ensures (Abs(), err) == System.Pledge(old(Abs()), caller, index, money)
    {
      hide GlobalMap.World, GlobalMap.Valid, P.Coherent, PledgeMgr.State, PledgeMgr.Valid, FsDir.Valid, FsDir.States,
        FsDir.Objects, P.Pledge, Approved;
      AbsShape();
      PoolOwner();
      err := GetInfo(index);
      if err != NoError {
        return;
      }
      var addr;
      addr, err := FindPayer(caller, index, 0, pool.owner, money);
      if err != NoError {
        return;
      }
      err := pool.Pledge(local, addr, index, money);
    }

    method Withdraw(index: nat, tokenIndex: nat, money: int) returns (err: Error)
      requires Valid()
      modifies pool, gm.ercs.Values
      ensures Valid()
      ensures (Abs(), err) == System.Withdraw(old(Abs()), index, tokenIndex, money)
    {
      hide GlobalMap.World, GlobalMap.Valid, P.Coherent, PledgeMgr.State, PledgeMgr.Valid, FsDir.Valid, FsDir.States,
        FsDir.Objects, P.Withdraw;
      AbsShape();
      if |tokens| <= tokenIndex {
        return ErrInput;
      }
      err := GetInfo(index);
      if err != NoError {
        return;
      }
      var bi := info[addrs[index]];
      var lock := 0;
      if bi.role == R.Keeper {
        lock := pledgeKeeper;
      } else if bi.role == R.Provider {
        lock := pledgePro;
      }
      err := pool.Withdraw(P.Payee(addrs[index]), index, tokenIndex, money, lock);
    }

    // ---------- Storage money ----------

    // The group whose storage manager serves index.
    method FindGroup(index: nat, tokenIndex: nat) returns (gIndex: nat, err: Error)
      ensures err == System.MemberError(Reg(), index, tokenIndex)
      ensures err == NoError ==> gIndex == R.InfoOf(Reg(), index).gIndex && gIndex < |groups|
    {
      gIndex := 0;
      if |tokens| <= tokenIndex {
        return gIndex, ErrInput;
      }
      err := GetInfo(index);
      if err != NoError {
        return;
      }
      var ui := info[addrs[index]];
      if |groups| <= ui.gIndex {
        return gIndex, ErrInput;
      }
      var gi := groups[ui.gIndex];
      if !gi.isActive || gi.isBanned {
        return gIndex, ErrPermission;
      }
      gIndex := ui.gIndex;
    }

    method WithdrawFromFs(now: u64, index: nat, tokenIndex: nat, amount: int) returns (err: Error)
      requires Valid()
      modifies dir.fms, gm.ercs.Values
      ensures Valid()
      ensures (Abs(), err) == System.WithdrawFromFs(old(Abs()), now, index, tokenIndex, amount)
    {
      hide GlobalMap.World, GlobalMap.Valid, P.Coherent, PledgeMgr.State, PledgeMgr.Valid, FsDir.Valid, FsDir.States,
        FsDir.Objects, F.Withdraw, System.MemberError;
      AbsShape();
      var g;
      g, err := FindGroup(index, tokenIndex);
      if err != NoError {
        return;
      }
      MemberHasInfo(Reg(), index, tokenIndex);
      var addr := addrs[index];
      err := dir.Withdraw(g, now, F.Info(addr, info[addr].role == R.Keeper), index, tokens, tokenIndex, amount);
    }

    // A loss that the provider admits in the main token counts as paid.
    method ProWithdraw(now: u64, proIndex: nat, tokenIndex: nat, pay: int, lost: int) returns (err: Error)
      requires Valid()
      modifies this`totalPaid, dir.fms, dir.Objects(), gm.ercs.Values
      ensures Valid()
      ensures (Abs(), err) == System.ProWithdraw(old(Abs()), now, proIndex, tokenIndex, pay, lost)
    {
      hide GlobalMap.World, GlobalMap.Valid, P.Coherent, PledgeMgr.State, PledgeMgr.Valid, FsDir.Valid, FsDir.States,
        FsDir.Objects, F.ProWithdraw, F.SettlementOf, System.MemberError;
      AbsShape();
      var g;
      g, err := FindGroup(proIndex, tokenIndex);
      if err != NoError {
        return;
      }
      MemberHasInfo(Reg(), proIndex, tokenIndex);
      var blost := dir.LostBefore(g, proIndex, tokenIndex);
      var addr := addrs[proIndex];
      dir.ObjectsOf(g);
      err := dir.ProWithdraw(g, now, F.Info(addr, info[addr].role == R.Keeper), proIndex, tokens, tokenIndex, pay,
                             lost);
      if err != NoError {
        return;
      }
      if tokenIndex == 0 {
        AddLost(lost, blost);
      }
    }

    method AddLost(lost: int, blost: int)
      requires Valid()
      modifies this`totalPaid
      ensures Valid()
      ensures Abs() == old(Abs()).(iss := old(Iss()).(totalPaid := old(totalPaid) + lost - blost))
    {
      hide GlobalMap.World, GlobalMap.Valid, P.Coherent, PledgeMgr.State, PledgeMgr.Valid, FsDir.Valid, FsDir.States,
        FsDir.Objects;
      totalPaid := totalPaid + lost;
      totalPaid := totalPaid - blost;
    }

    method Recharge(caller: Address, index: nat, tokenIndex: nat, money: int) returns (err: Error)
      requires Valid()
      modifies dir.fms, gm.ercs.Values
      ensures Valid()
      ensures (Abs(), err) == System.Recharge(old(Abs()), caller, index, tokenIndex, money)
    {
      hide GlobalMap.World, GlobalMap.Valid, P.Coherent, PledgeMgr.State, PledgeMgr.Valid, FsDir.Valid, FsDir.States,
        FsDir.Objects, F.Recharge, System.MemberError, Approved;
      AbsShape();
      var g;
      g, err := FindGroup(index, tokenIndex);
      if err != NoError {
        return;
      }
      MemberHasInfo(Reg(), index, tokenIndex);
      dir.At(g);
      var addr;
      addr, err := FindPayer(caller, index, tokenIndex, dir.fms[g].owner, money);
      if err != NoError {
        return;
      }
      err := dir.Recharge(g, local, addr, index, tokens, tokenIndex, money);
    }

    // SubOrder asks for the role of the user as well.
    method CheckUserOrder(caller: Address, user: nat, proIndex: nat) returns (kindex: nat, gIndex: nat, err: Error)
      ensures err == System.PartyError(Reg(), user, proIndex, true)
      ensures err == NoError ==> kindex == System.IndexOf(Reg(), caller)
      ensures err == NoError ==> gIndex == R.InfoOf(Reg(), user).gIndex && gIndex < |groups|
    {
      hide System.PartyError, System.IndexOf, R.GroupError;
      UserPartyError(Reg(), user, proIndex);
      kindex, gIndex := 0, 0;
      err := GetInfo(user);
      if err != NoError {
        return;
      }
      if info[addrs[user]].role != R.User {
        return kindex, gIndex, ErrRoleType;
      }
      kindex, gIndex, err := CheckOrder(caller, user, proIndex);
    }

    // The size and price of the group fall for every token, although AddOrder raises them
    // for the main token only.
    method SubOrder(caller: Address, now: u64, user: nat, proIndex: nat, start: u64, end: u64, osize: u64,
                    nonce: nat, tokenIndex: nat, sprice: int) returns (err: Error)
      requires Valid()
      modifies this`groups, dir.fms, dir.Objects()
      ensures Valid()
      ensures (Abs(), err)
           == System.SubOrder(old(Abs()), now, caller, user, proIndex, start, end, osize, nonce, tokenIndex, sprice)
    {
      hide GlobalMap.World, GlobalMap.Valid, P.Coherent, PledgeMgr.State, PledgeMgr.Valid, FsDir.Valid, FsDir.States,
        FsDir.Objects, F.SubOrder, R.AddToGroup, System.PartyError, System.IndexOf, R.GroupError;
      AbsShape();
      var kindex, g;
      kindex, g, err := CheckUserOrder(caller, user, proIndex);
      if err != NoError {
        return;
      }
      dir.ObjectsOf(g);
      err := dir.SubOrder(g, local, now, kindex, user, proIndex, start, end, osize, nonce, tokenIndex, sprice);
      if err != NoError {
        return;
      }
      ChangeGroup(g, -(osize as int), -sprice);
    }
  }
}
