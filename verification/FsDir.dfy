// The storage managers that the role manager finds at its groups' addresses
// (server/contract/role.go keeps the addresses, globalMap the objects). Calling one of them
// leaves all others as they are.
module FsDirectory {
  import opened Types
  import opened Erc
  import opened FsManager
  import F = Fs
  import S = Settlements

  class FsDir {
    const gm: GlobalMap
    const owner: Address
    var fms: seq<FsMgr>

    // All settlement objects.
    ghost function Objects(): set<S.SettlementObject>
      reads this, fms
    {
      set f, k | f in fms && k in f.proInfo :: f.proInfo[k]
    }

    ghost function States(): seq<F.Fs>
      reads this, fms, set f, k | f in fms && k in f.proInfo :: f.proInfo[k]
    {
      seq(|fms|, i requires 0 <= i < |fms| reads this, fms, set f, k | f in fms && k in f.proInfo :: f.proInfo[k] =>
        fms[i].State())
    }

    ghost predicate Valid()
      reads this, gm, fms
    {
      && gm.Valid()
      && (forall g: nat :: g < |fms| ==> fms[g].gm == gm && fms[g].owner == owner && fms[g].Valid())
      && (forall g: nat, h: nat :: g < |fms| && h < |fms| && g != h ==>
            fms[g] != fms[h] && fms[g].proInfo.Values !! fms[h].proInfo.Values)
    }

    constructor (gm: GlobalMap, owner: Address)
      requires gm.Valid()
      ensures this.gm == gm && this.owner == owner && fms == [] && Valid() && States() == []
    {
      this.gm := gm;
      this.owner := owner;
      fms := [];
    }

    // What a call of fms[g] leaves alone.
    twostate predicate OthersStay(g: nat)
      reads this, gm, fms, Objects()
    {
      && g < |fms| && fms == old(fms) && gm.ercs == old(gm.ercs)
      && (forall h: nat :: h < |fms| && h != g ==>
            unchanged(fms[h]) && forall k :: k in fms[h].proInfo ==> unchanged(fms[h].proInfo[k]))
      && (forall k :: k in fms[g].proInfo ==>
            fms[g].proInfo[k] in old(fms[g].proInfo.Values) || fresh(fms[g].proInfo[k]))
    }

    twostate lemma Called(g: nat)
      requires old(Valid()) && OthersStay(g) && fms[g].Valid()
      ensures Valid()
      ensures States() == old(States())[g := fms[g].State()]
    {
    }

    lemma At(g: nat)
      requires Valid() && g < |fms|
      ensures |States()| == |fms| && States()[g] == fms[g].State()
      ensures fms[g].Valid() && fms[g].gm == gm && fms[g].owner == owner && gm.Valid()
      ensures forall h: nat :: h < |fms| && h != g ==>
        fms[h] != fms[g] && fms[h].proInfo.Values !! fms[g].proInfo.Values
    {
    }

    lemma ObjectsOf(g: nat)
      requires g < |fms|
      ensures fms[g].proInfo.Values <= Objects()
    {
      forall x | x in fms[g].proInfo.Values
        ensures x in Objects()
      {
        var k :| k in fms[g].proInfo && fms[g].proInfo[k] == x;
        assert fms[g] in fms;
      }
    }

    method CreateFs(g: nat, caller: Address, user: nat) returns (err: Error)
      requires Valid() && g < |fms|
      modifies fms[g]
      ensures Valid() && fms == old(fms)
      ensures var (f, e) := F.CreateFs(old(States())[g], caller, user);
        States() == old(States())[g := f] && err == e
    {
      hide Valid, States, F.CreateFs;
      At(g);
      err := fms[g].CreateFs(caller, user);
      Called(g);
    }

    method AddKeeper(g: nat, caller: Address, kindex: nat) returns (err: Error)
      requires Valid() && g < |fms|
      modifies fms[g]
      ensures Valid() && fms == old(fms)
      ensures var (f, e) := F.AddKeeper(old(States())[g], caller, kindex);
        States() == old(States())[g := f] && err == e
    {
      hide Valid, States, F.AddKeeper;
      At(g);
      err := fms[g].AddKeeper(caller, kindex);
      Called(g);
    }

    method AddOrder(g: nat, caller: Address, kindex: nat, user: nat, proIndex: nat, start: u64, end: u64, size: u64,
                    nonce: nat, tokenIndex: nat, sprice: int) returns (err: Error)
      requires Valid() && g < |fms|
      modifies fms[g], fms[g].proInfo.Values
      ensures Valid() && fms == old(fms)
      ensures var (f, e) := F.AddOrder(old(States())[g], caller, kindex, user, proIndex, start, end, size, nonce,
                                       tokenIndex, sprice);
        States() == old(States())[g := f] && err == e
    {
      hide Valid, States, F.AddOrder;
      At(g);
      err := fms[g].AddOrder(caller, kindex, user, proIndex, start, end, size, nonce, tokenIndex, sprice);
      Called(g);
    }

    method SubOrder(g: nat, caller: Address, now: u64, kindex: nat, user: nat, proIndex: nat, start: u64, end: u64,
                    size: u64, nonce: nat, tokenIndex: nat, sprice: int) returns (err: Error)
      requires Valid() && g < |fms|
      modifies fms[g], fms[g].proInfo.Values
      ensures Valid() && fms == old(fms)
      ensures var (f, e) := F.SubOrder(old(States())[g], caller, now, kindex, user, proIndex, start, end, size, nonce,
                                       tokenIndex, sprice);
        States() == old(States())[g := f] && err == e
    {
      hide Valid, States, F.SubOrder;
      At(g);
      err := fms[g].SubOrder(caller, now, kindex, user, proIndex, start, end, size, nonce, tokenIndex, sprice);
      Called(g);
    }

    method Recharge(g: nat, caller: Address, addr: Address, index: nat, tokenList: seq<Address>, tokenIndex: nat,
                    money: int) returns (err: Error)
      requires Valid() && g < |fms|
      modifies fms[g], gm.ercs.Values
      ensures Valid() && fms == old(fms)
      ensures var (f, w, e) := F.Recharge(old(States())[g], old(gm.World()), caller, addr, index, tokenList,
                                          tokenIndex, money);
        States() == old(States())[g := f] && gm.World() == w && err == e
    {
      hide Valid, States, F.Recharge, GlobalMap.World;
      At(g);
      err := fms[g].Recharge(caller, addr, index, tokenList, tokenIndex, money);
      Called(g);
    }

    method Withdraw(g: nat, now: u64, info: F.Info, index: nat, tokenList: seq<Address>, tokenIndex: nat, amount: int)
      returns (err: Error)
      requires Valid() && g < |fms|
      modifies fms[g], gm.ercs.Values
      ensures Valid() && fms == old(fms)
      ensures var (f, w, e) := F.Withdraw(old(States())[g], old(gm.World()), now, info, index, tokenList, tokenIndex,
                                          amount);
        States() == old(States())[g := f] && gm.World() == w && err == e
    {
      hide Valid, States, F.Withdraw, GlobalMap.World;
      At(g);
      err := fms[g].Withdraw(now, info, index, tokenList, tokenIndex, amount);
      Called(g);
    }

    method ProWithdraw(g: nat, now: u64, info: F.Info, proIndex: nat, tokenList: seq<Address>, tokenIndex: nat,
                       pay: int, lost: int) returns (err: Error)
      requires Valid() && g < |fms|
      modifies fms[g], fms[g].proInfo.Values, gm.ercs.Values
      ensures Valid() && fms == old(fms)
      ensures var (f, w, e) := F.ProWithdraw(old(States())[g], old(gm.World()), now, info, proIndex, tokenList,
                                             tokenIndex, pay, lost);
        States() == old(States())[g := f] && gm.World() == w && err == e
    {
      hide Valid, States, F.ProWithdraw, GlobalMap.World;
      At(g);
      err := fms[g].ProWithdraw(now, info, proIndex, tokenList, tokenIndex, pay, lost);
      Called(g);
    }

    // The loss already settled for a provider in a token; none without a settlement.
    method LostBefore(g: nat, index: nat, tIndex: nat) returns (lost: int)
      requires Valid() && g < |fms|
      ensures lost == F.SettlementOf(States()[g], MultiKey(index, tIndex)).lost
    {
      hide Valid, States;
      At(g);
      lost := 0;
      var mk := MultiKey(index, tIndex);
      if mk in fms[g].proInfo {
        lost := fms[g].proInfo[mk].lost;
      }
    }

    method Create(local: Address, founder: nat, now: u64)
      requires Valid()
      modifies this`fms
      ensures Valid() && |fms| == |old(fms)| + 1 && fms[..|old(fms)|] == old(fms) && fresh(fms[|old(fms)|])
      ensures States() == old(States()) + [F.NewFs(owner, local, founder, now)]
    {
      var fm := new FsMgr(gm, owner, local, founder, now);
      fms := fms + [fm];
    }
  }
}
