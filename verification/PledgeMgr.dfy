// The pledge pool object of server/contract/pledge.go. Its methods loop over the tokens and
// update the maps in place; each is proved equal to the operation of the same name in Pool.
module PledgeManager {
  import opened Types
  import opened Erc
  import P = Pool

  lemma SettleNone(p: P.Pool, w: World, s: nat, restart: bool)
    requires P.Coherent(p)
    ensures P.Settle(p, w, s, P.All(0), restart) == p
  {
    hide P.AccumNow, P.Bal, P.Credited;
    var q := P.Settle(p, w, s, {}, restart);
    assert P.Keys(s, {}) == {};
    assert q.amount == p.amount;
    assert q.tInfo == p.tInfo;
  }

  // Settling one more token changes that token and the entry of s in it, and nothing else.
  lemma SettleOne(p: P.Pool, w: World, s: nat, touched: set<nat>, restart: bool, i: nat)
    requires P.Coherent(p) && touched <= P.All(|p.tokens|) && i < |p.tokens| && i !in touched
    ensures var q := P.Settle(p, w, s, touched, restart);
      var k := MultiKey(s, i);
      && i in p.tInfo && i in q.tInfo && q.tInfo[i] == p.tInfo[i]
      && (k in q.amount <==> k in p.amount)
      && (k in p.amount ==> q.amount[k] == p.amount[k])
      && P.Settle(p, w, s, touched + {i}, restart) ==
           q.(tInfo := q.tInfo[i := P.RewardInfo(P.AccumNow(p, w, i), P.Bal(p, w, i))],
              amount := q.amount[k := P.RewardInfo(P.AccumNow(p, w, i), P.Credited(p, w, s, i, restart))])
  {
    hide P.AccumNow, P.Bal, P.Credited;
    var q := P.Settle(p, w, s, touched, restart);
    var r := P.Settle(p, w, s, touched + {i}, restart);
    P.KeysMember(s, touched, MultiKey(s, i));
    assert r.tInfo == q.tInfo[i := P.RewardInfo(P.AccumNow(p, w, i), P.Bal(p, w, i))];
    SettleOneEntry(p, w, s, touched, restart, i);
  }

  lemma SettleOneEntry(p: P.Pool, w: World, s: nat, touched: set<nat>, restart: bool, i: nat)
    requires P.Coherent(p) && touched <= P.All(|p.tokens|) && i < |p.tokens| && i !in touched
    ensures P.Settle(p, w, s, touched + {i}, restart).amount
         == P.Settle(p, w, s, touched, restart).amount
              [MultiKey(s, i) := P.RewardInfo(P.AccumNow(p, w, i), P.Credited(p, w, s, i, restart))]
  {
    hide P.AccumNow, P.Bal, P.Credited;
    assert P.Keys(s, touched + {i}) == P.Keys(s, touched) + {MultiKey(s, i)};
  }

  // What the loop bodies compute for one token and one entry.
  lemma Computed(p: P.Pool, w: World, s: nat, i: nat, restart: bool, bal: int, accum: int, rew: P.RewardInfo)
    requires i in p.tInfo && i < |p.tokens|
    requires bal == BalanceOf(w, p.tokens[i], p.local)
    requires var tv := bal - p.tInfo[i].last;
      accum == p.tInfo[i].accum + if 0 < tv && 0 < p.total then tv / p.total else 0
    requires var k := MultiKey(s, i);
      rew == if k in p.amount then p.amount[k] else P.RewardInfo(if restart then p.tInfo[i].accum else 0, 0)
    ensures bal == P.Bal(p, w, i) && accum == P.AccumNow(p, w, i)
    ensures rew.last + (accum - rew.accum) * P.Stake(p, s) == P.Credited(p, w, s, i, restart)
  {
  }

  // Creating the token-0 entry of a new staker first makes no difference.
  lemma NewStakerSettles(p: P.Pool, w: World, s: nat)
    requires P.Coherent(p) && MultiKey(s, 0) !in p.amount
    ensures var p0 := p.(amount := p.amount[MultiKey(s, 0) := P.RewardInfo(p.tInfo[0].accum, 0)]);
      && P.Coherent(p0)
      && P.Settle(p0, w, s, P.All(|p.tokens|), true) == P.Settle(p, w, s, P.All(|p.tokens|), true)
  {
    hide P.Gain, P.Bal, P.Credited, P.AccumNow, P.Settle;
    var p0 := p.(amount := p.amount[MultiKey(s, 0) := P.RewardInfo(p.tInfo[0].accum, 0)]);
    var all := P.All(|p.tokens|);
    forall i | i in p.tInfo {
      NewStakerCredit(p, p0, w, s, i);
    }
    P.KeysMember(s, all, MultiKey(s, 0));
    SameEntries(p, p0, w, s, all);
    SameInfo(p, p0, w, s, all);
  }

  // Settling depends on the pool before through these parts alone.
  lemma SameInfo(p: P.Pool, p0: P.Pool, w: World, s: nat, all: set<nat>)
    requires P.Coherent(p) && P.Coherent(p0) && all == P.All(|p.tokens|)
    requires p0 == p.(amount := p0.amount)
    requires forall i :: i in p.tInfo ==>
      P.AccumNow(p0, w, i) == P.AccumNow(p, w, i) && P.Bal(p0, w, i) == P.Bal(p, w, i)
    requires P.Settle(p0, w, s, all, true).amount == P.Settle(p, w, s, all, true).amount
    ensures P.Settle(p0, w, s, all, true) == P.Settle(p, w, s, all, true)
  {
    hide P.Gain, P.Bal, P.Credited, P.AccumNow, P.Stake;
    assert P.Settle(p0, w, s, all, true).tInfo == P.Settle(p, w, s, all, true).tInfo;
  }

  lemma SameEntries(p: P.Pool, p0: P.Pool, w: World, s: nat, all: set<nat>)
    requires P.Coherent(p) && P.Coherent(p0) && all == P.All(|p.tokens|) && p0.tokens == p.tokens
    requires p0.amount.Keys == p.amount.Keys + {MultiKey(s, 0)} && MultiKey(s, 0) in P.Keys(s, all)
    requires forall k :: k in p.amount && k.role != s ==> p0.amount[k] == p.amount[k]
    requires forall i :: i in p.tInfo ==>
      P.AccumNow(p0, w, i) == P.AccumNow(p, w, i) && P.Credited(p0, w, s, i, true) == P.Credited(p, w, s, i, true)
    ensures P.Settle(p0, w, s, all, true).amount == P.Settle(p, w, s, all, true).amount
  {
    hide P.Gain, P.Bal, P.Credited, P.AccumNow, P.Stake;
    assert p0.amount.Keys + P.Keys(s, all) == p.amount.Keys + P.Keys(s, all);
  }

  lemma NewStakerCredit(p: P.Pool, p0: P.Pool, w: World, s: nat, i: nat)
    requires P.Coherent(p) && i in p.tInfo && MultiKey(s, 0) !in p.amount
    requires p0 == p.(amount := p.amount[MultiKey(s, 0) := P.RewardInfo(p.tInfo[0].accum, 0)])
    ensures P.AccumNow(p0, w, i) == P.AccumNow(p, w, i) && P.Bal(p0, w, i) == P.Bal(p, w, i)
    ensures P.Credited(p0, w, s, i, true) == P.Credited(p, w, s, i, true) == 0
  {
    assert P.Gain(p, w, i) * 0 == 0;
    assert (P.AccumNow(p, w, 0) - p.tInfo[0].accum) * 0 == 0;
  }

  lemma PledgeBooks(p: P.Pool, w: World, s: nat, money: int)
    requires P.Coherent(p)
    ensures var p1 := P.Settle(p, w, s, P.All(|p.tokens|), true);
      && P.Coherent(p1) && 1 <= |p.tokens| && p1.local == p.local && p1.tokens == p.tokens && p1.total == p.total
      && 0 in p1.tInfo && MultiKey(s, 0) in p1.amount
      && P.Coherent(P.Book(p1, s, 0, money, P.Stake(p, s)))
  {
    hide P.Settle, P.Book, P.Credited, P.AccumNow, P.Bal;
    P.SettleEntries(p, w, s, P.All(|p.tokens|), true);
    P.BookEntries(P.Settle(p, w, s, P.All(|p.tokens|), true), s, 0, money, P.Stake(p, s));
  }

  lemma WithdrawSettled(p: P.Pool, w: World, s: nat, j: nat)
    requires P.Coherent(p) && MultiKey(s, 0) in p.amount
    ensures P.Coherent(P.Settle(p, w, s, P.Touched(p, j), false))
  {
    hide P.Settle, P.Credited, P.AccumNow, P.Bal;
    P.SettleEntries(p, w, s, P.Touched(p, j), false);
  }

  // The last part of Withdraw, case by case, is one booking.
  lemma WithdrawBooks(p: P.Pool, w: World, s: nat, j: nat, rw: int)
    requires P.Coherent(p) && MultiKey(s, 0) in p.amount
    requires MultiKey(s, j) in P.Settle(p, w, s, P.Touched(p, j), false).amount
    ensures var p1 := P.Settle(p, w, s, P.Touched(p, j), false);
      && P.Coherent(p1) && j in p1.tInfo && j < |p1.tokens| && p1.tokens == p.tokens && p1.local == p.local
      && P.Coherent(P.Book(p1, s, j, -Max(rw, 0), P.Stake(p, s)))
      && P.Book(p1, s, j, -Max(rw, 0), P.Stake(p, s)) == Finish(p1, s, j, rw, P.Stake(p, s))
  {
    hide P.Settle, P.Credited, P.Bal, P.AccumNow, P.Book, Finish;
    var p1 := P.Settle(p, w, s, P.Touched(p, j), false);
    P.SettleEntries(p, w, s, P.Touched(p, j), false);
    P.BookEntries(p1, s, j, -Max(rw, 0), P.Stake(p, s));
    if j != 0 {
      assert MultiKey(s, 0) in p1.amount && p1.amount[MultiKey(s, 0)] == p.amount[MultiKey(s, 0)];
      assert P.Stake(p1, s) == P.Stake(p, s);
    }
    FinishBooks(p1, s, j, rw, P.Stake(p, s));
  }

  function Finish(p: P.Pool, s: nat, j: nat, rw: int, staked: int): P.Pool
    requires j in p.tInfo && MultiKey(s, j) in p.amount
  {
    var k := MultiKey(s, j);
    var q := if 0 < rw
             then p.(tInfo := p.tInfo[j := p.tInfo[j].(last := p.tInfo[j].last - rw)],
                     amount := p.amount[k := p.amount[k].(last := p.amount[k].last - rw)])
             else p;
    if j == 0 then q.(total := q.total - staked + q.amount[k].last) else q
  }

  lemma FinishBooks(p: P.Pool, s: nat, j: nat, rw: int, staked: int)
    requires j in p.tInfo && MultiKey(s, j) in p.amount
    requires j != 0 ==> P.Stake(p, s) == staked
    ensures P.Book(p, s, j, -Max(rw, 0), staked) == Finish(p, s, j, rw, staked)
  {
    var k := MultiKey(s, j);
    if rw <= 0 {
      assert p.tInfo[j := p.tInfo[j].(last := p.tInfo[j].last + 0)] == p.tInfo;
      assert p.amount[k := p.amount[k].(last := p.amount[k].last + 0)] == p.amount;
    }
  }

  class PledgeMgr {
    const gm: GlobalMap
    const owner: Address
    const local: Address
    var token: nat
    var tokens: seq<Address>
    var totalPledge: int
    var amount: map<MultiKey, P.RewardInfo>
    var tInfo: map<nat, P.RewardInfo>

    ghost function State(): P.Pool
      reads this
    {
      P.Pool(owner, local, tokens, token, totalPledge, amount, tInfo)
    }

    ghost predicate Valid()
      reads this, gm
    {
      P.Coherent(State()) && gm.Valid()
    }

    constructor (gm: GlobalMap, caller: Address, ptoken: Address, local: Address)
      requires gm.Valid()
      ensures this.gm == gm && Valid()
      ensures State() == P.NewPool(caller, local, ptoken, gm.World())
    {
      this.gm := gm;
      owner := caller;
      this.local := local;
      totalPledge := 0;
      token := 1;
      amount := map[];
      tokens := [ptoken];
      var bal := gm.GetBalance(ptoken, local);
      tInfo := map[0 := P.RewardInfo(0, bal)];
      new;
      assert P.All(1) == {0} by {
        assert forall i: nat :: i in P.All(1) <==> i < 1;
      }
    }

    method GetBalance(index: nat) returns (res: P.Balances)
      requires Valid()
      ensures res == P.GetBalance(State(), gm.World(), index)
    {
      var mk := MultiKey(index, 0);
      if mk !in amount {
        return P.NoBalances;
      }
      var staked := amount[mk].last;
      var vals: seq<int> := [];
      for i := 0 to |tokens|
        invariant |vals| == i
        invariant forall j :: 0 <= j < i ==> vals[j] == P.View(State(), gm.World(), index, j)
      {
        var ti := tInfo[i];
        var val := ti.accum;
        var bal := gm.GetBalance(tokens[i], local);
        bal := bal - ti.last;
        if 0 < bal && 0 < totalPledge {
          bal := bal / totalPledge;
          val := val + bal;
        }
        var mki := MultiKey(index, i);
        if mki in amount {
          var rew := amount[mki];
          val := val - rew.accum;
          val := val * staked;
          val := val + rew.last;
        } else {
          val := val * staked;
        }
        vals := vals + [val];
      }
      return P.Balances(vals);
    }

    method AddToken(caller: Address, tAddr: Address, tokenIndex: nat) returns (err: Error)
      requires Valid()
      modifies this
      ensures Valid()
      ensures (State(), err) == P.AddToken(old(State()), gm.World(), caller, tAddr, tokenIndex)
    {
      if caller != owner {
        return ErrPermission;
      }
      if token != tokenIndex {
        return ErrInput;
      }
      var bal := gm.GetBalance(tAddr, local);
      tInfo := tInfo[tokenIndex := P.RewardInfo(0, bal)];
      tokens := tokens + [tAddr];
      token := tokenIndex + 1;
      assert tInfo.Keys == old(tInfo.Keys) + {tokenIndex};
      assert P.All(token) == P.All(tokenIndex) + {tokenIndex};
      return NoError;
    }

    // A new staker gets an entry for token 0 that starts from the current accumulator.
    method OpenEntry(index: nat) returns (staked: int)
      requires Valid()
      modifies this`amount
      ensures Valid() && MultiKey(index, 0) in amount && totalPledge == old(totalPledge)
      ensures staked == P.Stake(State(), index) == P.Stake(old(State()), index)
      ensures P.Settle(State(), gm.World(), index, P.All(|tokens|), true)
           == P.Settle(old(State()), gm.World(), index, P.All(|tokens|), true)
    {
      hide P.Settle;
      var mk := MultiKey(index, 0);
      if mk !in amount {
        NewStakerSettles(State(), gm.World(), index);
        amount := amount[mk := P.RewardInfo(tInfo[0].accum, 0)];
      }
      staked := amount[mk].last;
    }

    // The settlement loop of Pledge.
    method SettleForPledge(index: nat, staked: int)
      requires Valid() && staked == P.Stake(State(), index)
      modifies this`amount, this`tInfo
      ensures State() == P.Settle(old(State()), gm.World(), index, P.All(|tokens|), true)
    {
      hide P.Settle, P.Credited, P.AccumNow, P.Bal, P.Coherent, P.Stake, GlobalMap.World, GlobalMap.Valid;
      ghost var p, w := State(), gm.World();
      SettleNone(p, w, index, true);
      for i := 0 to |tokens|
        invariant gm.World() == w
        invariant State() == P.Settle(p, w, index, P.All(i), true)
        invariant totalPledge == p.total
      {
        SettleOne(p, w, index, P.All(i), true, i);
        assert P.All(i + 1) == P.All(i) + {i};
        var ti := tInfo[i];
        var mki := MultiKey(index, i);
        var rew := if mki in amount then amount[mki] else P.RewardInfo(ti.accum, 0);
        var bal := gm.GetBalance(tokens[i], local);
        var tv := bal - ti.last;
        var accum := ti.accum;
        if 0 < tv && 0 < totalPledge {
          tv := tv / totalPledge;
          accum := accum + tv;
        }
        Computed(p, w, index, i, true, bal, accum, rew);
        tInfo := tInfo[i := P.RewardInfo(accum, bal)];
        var res := accum - rew.accum;
        res := res * staked;
        amount := amount[mki := P.RewardInfo(accum, rew.last + res)];
      }
    }

    // The updates of Pledge after the transfer.
    method Credit(index: nat, money: int, staked: int)
      requires P.Coherent(State()) && MultiKey(index, 0) in amount
      modifies this`amount, this`tInfo, this`totalPledge
      ensures State() == P.Book(old(State()), index, 0, money, staked)
    {
      var mk := MultiKey(index, 0);
      tInfo := tInfo[0 := tInfo[0].(last := tInfo[0].last + money)];
      amount := amount[mk := amount[mk].(last := amount[mk].last + money)];
      totalPledge := totalPledge - staked;
      totalPledge := totalPledge + amount[mk].last;
    }

    method Pledge(caller: Address, addr: Address, index: nat, money: int) returns (err: Error)
      requires Valid()
      modifies this, gm.ercs.Values
      ensures Valid()
      ensures (State(), gm.World(), err) == P.Pledge(old(State()), old(gm.World()), caller, addr, index, money)
    {
      hide P.Settle, P.Book, P.Coherent, SendFrom, GlobalMap.World, GlobalMap.Valid;
      if caller != owner {
        return ErrPermission;
      }
      if money < 0 {
        return ErrRes;
      }
      var staked := OpenEntry(index);
      SettleForPledge(index, staked);
      PledgeBooks(old(State()), gm.World(), index, money);
      ghost var p1 := State();
      err := gm.SendBalanceFrom(tokens[0], local, addr, local, money);
      assert State() == p1;
      if err != NoError {
        return;
      }
      Credit(index, money, staked);
    }

    // The settlement loop of Withdraw.
    method SettleForWithdraw(index: nat, tokenIndex: nat, staked: int)
      requires Valid() && staked == P.Stake(State(), index)
      modifies this`amount, this`tInfo
      ensures State() == P.Settle(old(State()), gm.World(), index, P.Touched(old(State()), tokenIndex), false)
    {
      hide P.Settle, P.Credited, P.AccumNow, P.Bal, P.Coherent, P.Stake, GlobalMap.World, GlobalMap.Valid;
      ghost var p, w := State(), gm.World();
      ghost var touched: set<nat> := {};
      SettleNone(p, w, index, false);
      if 0 < totalPledge {
        for i := 0 to |tokens|
          invariant gm.World() == w
          invariant forall k: nat :: k in touched <==> k < i && k in P.Touched(p, tokenIndex)
          invariant touched <= P.All(|p.tokens|)
          invariant State() == P.Settle(p, w, index, touched, false)
          invariant totalPledge == p.total
        {
          if tokenIndex != 0 && tokenIndex != i {
            continue;
          }
          SettleOne(p, w, index, touched, false, i);
          touched := touched + {i};
          var ti := tInfo[i];
          var bal := gm.GetBalance(tokens[i], local);
          var tv := bal - ti.last;
          var accum := ti.accum;
          if 0 < tv && 0 < totalPledge {
            tv := tv / totalPledge;
            accum := accum + tv;
          }
          tInfo := tInfo[i := P.RewardInfo(accum, bal)];
          var mki := MultiKey(index, i);
          var rew := if mki in amount then amount[mki] else P.RewardInfo(0, 0);
          Computed(p, w, index, i, false, bal, accum, rew);
          var res := accum - rew.accum;
          res := res * staked;
          amount := amount[mki := P.RewardInfo(accum, rew.last + res)];
        }
      }
      assert touched == P.Touched(p, tokenIndex);
    }

    // The updates of Withdraw after the transfer.
    method Debit(index: nat, tokenIndex: nat, rw: int, staked: int)
      requires tokenIndex in tInfo && MultiKey(index, tokenIndex) in amount
      modifies this`amount, this`tInfo, this`totalPledge
      ensures State() == Finish(old(State()), index, tokenIndex, rw, staked)
    {
      var mki := MultiKey(index, tokenIndex);
      if 0 < rw {
        tInfo := tInfo[tokenIndex := tInfo[tokenIndex].(last := tInfo[tokenIndex].last - rw)];
        amount := amount[mki := amount[mki].(last := amount[mki].last - rw)];
      }
      if tokenIndex == 0 {
        totalPledge := totalPledge - staked;
        totalPledge := totalPledge + amount[mki].last;
      }
    }

    method Withdraw(payee: P.Payee, index: nat, tokenIndex: nat, money: int, lock: int) returns (err: Error)
      requires Valid()
      requires payee.NoPayee? ==> payee.err != NoError
      modifies this, gm.ercs.Values
      ensures Valid()
      ensures (State(), gm.World(), err)
           == P.Withdraw(old(State()), old(gm.World()), payee, index, tokenIndex, money, lock)
    {
      hide P.Settle, P.Book, P.Coherent, P.Touched, Finish, Send, GlobalMap.World, GlobalMap.Valid;
      if money < 0 {
        return ErrInput;
      }
      if |tokens| < tokenIndex {
        return ErrInput;
      }
      if payee.NoPayee? {
        return payee.err;
      }
      var mk := MultiKey(index, 0);
      if mk !in amount {
        return ErrEmpty;
      }
      var staked := amount[mk].last;
      SettleForWithdraw(index, tokenIndex, staked);
      WithdrawSettled(old(State()), gm.World(), index, tokenIndex);
      var mki := MultiKey(index, tokenIndex);
      if mki !in amount {
        return ErrEmpty;
      }
      var rw := amount[mki].last;
      WithdrawBooks(old(State()), gm.World(), index, tokenIndex, P.Payable(rw, tokenIndex, money, lock));
      if tokenIndex == 0 {
        rw := rw - lock;
      }
      if 0 < money && money < rw {
        rw := money;
      }
      ghost var p1 := State();
      if 0 < rw {
        err := gm.SendBalance(tokens[tokenIndex], local, payee.addr, rw);
        assert State() == p1;
        if err != NoError {
          return;
        }
      }
      Debit(index, tokenIndex, rw, staked);
      return NoError;
    }
  }
}
