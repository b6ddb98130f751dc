// What GetBalance of server/contract/fs.go reports, against what the payouts give.
module FsViews {
  import opened Types
  import opened Sums
  import opened Erc
  import opened Fs
  import opened FsMoney
  import opened FsRecords
  import opened FsRuns
  import E = Earnings
  import L = Ledger
  import S = Settlements

  // ---------- The keeper's view ----------

  // What a keeper's Withdraw of everything asks the contract to pay.
  function DueTo(f: Fs, now: u64, index: nat, t: nat): int
    requires 0 < f.totalCount && index in f.count
  {
    Get(f.balance, MultiKey(index, t)) + if Due(f, now) then Part(f, index, t) else 0
  }

  // The contract can pay due in the token.
  predicate Funded(w: World, token: Address, local: Address, due: int) {
    0 <= due && (0 < due ==> due <= BalanceOf(w, token, local))
  }

  // A group keeper's Withdraw of everything pays what is due when the contract can, and nothing
  // otherwise. That is what GetBalance reported as available in two cases: the contract can
  // pay, and not exactly a period has passed (at that instant the view already counts the share,
  // and Withdraw does not distribute it yet) or the share is nothing; or it cannot, and nothing
  // was reported.
  lemma KeeperViewAgrees(f: Fs, w: World, now: u64, addr: Address, index: nat, tokens: seq<Address>, t: nat)
    requires Inv(f) && index in f.count && t in f.tAcc && t < |tokens| && addr != f.local && 0 < f.totalCount
    ensures var w' := Withdraw(f, w, now, Info(addr, true), index, tokens, t, 0).1;
      var avail := GetBalance(f, now, index, t).0;
      var paid := BalanceOf(w', tokens[t], addr) - BalanceOf(w, tokens[t], addr);
      var due := DueTo(f, now, index, t);
      var funded := Funded(w, tokens[t], f.local, due);
      && paid == (if funded then due else 0)
      && (paid == avail <==> if funded then Sub64(now, f.lastTime) != PERIOD || Part(f, index, t) == 0 else avail == 0)
  {
    hide ShareTokens, Send, Counted, Agree;
    var k := MultiKey(index, t);
    var f1 := Share(f, now).0;
    if Due(f, now) {
      KeeperSharing(f, now);
      TokenListed(f, t);
    }
    ShareLocal(f, now);
    var due := DueTo(f, now, index, t);
    assert Get(f1.balance, k) == due;
    SendEffect(w, tokens[t], f.local, addr, due, tokens[t], addr);
    if 0 < due {
      SendSucceeds(w, tokens[t], f.local, addr, due);
    }
  }

  // One keeper with a pot of 10, one second after the last distribution: 10 are reported as
  // available, and nothing is paid.
  const ONE_KEEPER := Fs(CONTRACT, Address(2), 0, map[], [], map[], [7], 0, map[0 := 10], 1, map[7 := 1], map[], [0])
  const CONTRACT := Address(1)
  const KEEPER := Address(3)
  const TOKEN := Address(4)

  lemma ViewRunsAhead()
    ensures var w := map[TOKEN := L.Ledger(TOKEN, Address(2), 10, map[CONTRACT := 10], map[])];
      var (_, w', err) := Withdraw(ONE_KEEPER, w, 1, Info(KEEPER, true), 7, [TOKEN], 0, 0);
      && Inv(ONE_KEEPER)
      && err == NoError
      && GetBalance(ONE_KEEPER, 1, 7, 0).0 == 10
      && BalanceOf(w', TOKEN, KEEPER) - BalanceOf(w, TOKEN, KEEPER) == 0
  {
    var f := ONE_KEEPER;
    SumRemove(f.count.Keys, CountIn(f.count), 7);
    assert f.count.Keys - {7} == {};
    forall k: MultiKey
      ensures UserPrices(f.fs, k) == 0
    {
      SumZero(f.fs.Keys, PriceIn(f.fs, k));
    }
  }

  // The ordinary end of an order of 300 that cost its user 315, with one keeper who added and
  // closed it: the provider was paid 300 and the foundation has withdrawn its 3, so that the
  // contract owns 12. The keepers' pot is 15.
  const ENDED := Fs(CONTRACT, Address(2), 0, map[MultiKey(5, 0) := 0, MultiKey(0, 0) := 0, MultiKey(6, 0) := 0], [5],
                    map[5 := FsInfo(true, [6], map[6 := AggOrder(1, 1, map[0 := StoreInfo(0, 0, 0)])])],
                    [7], 0, map[0 := 15], 3, map[7 := 3],
                    map[MultiKey(6, 0) := S.Settlement(100, U64 - 1, 0, 300, 300, 300, 0, 0, 12, 3, 12)], [0])
  const ENDED_WORLD: World := map[TOKEN := L.Ledger(TOKEN, Address(2), 12, map[CONTRACT := 12], map[])]

  // More than a period later 15 are reported as available to the only keeper, Withdraw fails,
  // and nothing is paid.
  lemma ViewExceedsHoldings()
    ensures var (_, w', err) := Withdraw(ENDED, ENDED_WORLD, 200, Info(KEEPER, true), 7, [TOKEN], 0, 0);
      && Inv(ENDED)
      && E.Summary(ENDED.proInfo[MultiKey(6, 0)], [E.Order(0, 100, 3, true)])
      && Owed(ENDED, 0) == 12 == BalanceOf(ENDED_WORLD, TOKEN, CONTRACT)
      && GetBalance(ENDED, 200, 7, 0).0 == 15
      && err == ErrBalanceNotEnough
      && BalanceOf(w', TOKEN, KEEPER) - BalanceOf(ENDED_WORLD, TOKEN, KEEPER) == 0
  {
    hide Inv, Owed, E.Summary, Withdraw;
    EndedSummary();
    EndedInv();
    EndedOwes();
    EndedWithdraw();
  }

  lemma EndedSummary()
    ensures E.Summary(ENDED.proInfo[MultiKey(6, 0)], [E.Order(0, 100, 3, true)])
  {
    var o := E.Order(0, 100, 3, true);
    E.SumSeqOne(o, E.LivePrice());
    E.SumSeqOne(o, E.Earned(100));
    E.SumSeqOne(o, E.PayOf());
    E.SumSeqOne(o, E.FloorOf());
    E.SumSeqOne(o, E.EndFloorOf());
  }

  lemma EndedInv()
    ensures Inv(ENDED)
  {
    hide Agree, Counted;
    EndedCounted();
    EndedAgrees();
  }

  lemma EndedCounted()
    ensures Counted(ENDED)
  {
    var f := ENDED;
    SumRemove(f.count.Keys, CountIn(f.count), 7);
    assert f.count.Keys - {7} == {};
  }

  lemma EndedAgrees()
    ensures Agree(ENDED)
  {
    hide UserPrices, HasOrders;
    EndedRecord();
    forall k: MultiKey
      ensures UserPrices(ENDED.fs, k) == 0
    {
      EndedPrices(k);
    }
  }

  lemma EndedRecord()
    ensures forall u: nat, k: MultiKey :: HasOrders(ENDED.fs, u, k) ==> u == 5 && k == MultiKey(6, 0)
  {
  }

  lemma EndedPrices(k: MultiKey)
    ensures UserPrices(ENDED.fs, k) == 0
  {
    SumZero(ENDED.fs.Keys, PriceIn(ENDED.fs, k));
  }

  lemma EndedOwes()
    ensures Owed(ENDED, 0) == 12
  {
    var f := ENDED;
    SumZero(f.balance.Keys, BalanceIn(f.balance, 0));
    SumRemove(f.proInfo.Keys, EscrowIn(f.proInfo, 0), MultiKey(6, 0));
    assert f.proInfo.Keys - {MultiKey(6, 0)} == {};
  }

  lemma EndedWithdraw()
    ensures var (_, w', err) := Withdraw(ENDED, ENDED_WORLD, 200, Info(KEEPER, true), 7, [TOKEN], 0, 0);
      err == ErrBalanceNotEnough && w' == ENDED_WORLD
  {
    var f1 := PayKeeper(ENDED, 0, 5, 7);
    assert [7][1..] == [] && [0][1..] == [];
    assert ShareKeepers(ENDED, 0, 5, [7]) == ShareKeepers(f1, 0, 5, []) == f1;
    assert ShareTokens(ENDED, [0]) == ShareTokens(f1, []) == (f1, NoError);
    assert ENDED_WORLD[TOKEN := ENDED_WORLD[TOKEN]] == ENDED_WORLD;
  }

  lemma TokenListed(f: Fs, t: nat)
    requires Counted(f) && t in f.tAcc
    ensures t in f.tokens
  {
  }

  // ---------- The provider's view ----------

  // The part of an index's share that GetBalance reports as locked: all of it until a period is
  // over, nothing for an index that has no counter.
  function LockedShare(f: Fs, now: u64, index: nat, t: nat): int {
    if f.totalCount == 0 || index !in f.count || PERIOD <= Sub64(now, f.lastTime) then 0 else Part(f, index, t)
  }

  // The settlement time lies ahead, as it does after an order that starts later, and the view
  // accrues over the wrapped difference.
  predicate Ahead(s: S.Settlement, now: u64) {
    now < s.time && s.price != 0
  }

  // What has accrued at time t or later.
  function AccruedBy(s: S.Settlement, t: int): int {
    s.canPay + (t - s.time) * s.price
  }

  // A provider's claim is accepted up to what its orders have accrued, whatever was lost: the
  // code compares a loss with earlier losses only. What has accrued is what was earned if and
  // only if no live order's end is passed. GetBalance reports what is left of it if and only if
  // the losses admitted so far fit between it and what the users put up; with a settlement time
  // ahead of the clock, if and only if they fill that room exactly.
  lemma ProviderViewAgrees(f: Fs, now: u64, k: MultiKey, h: seq<E.Order>, pay: int, lost: int)
    requires k in f.proInfo && E.Summary(f.proInfo[k], h)
    ensures var s := f.proInfo[k];
      var t := Max(s.time, now);
      var accrued := AccruedBy(s, t);
      var lock := GetBalance(f, now, k.role, k.token).1 - LockedShare(f, now, k.role, k.token);
      && (accrued == SumSeq(h, E.Earned(t)) <==> E.NotPassed(h, t))
      && (Claim(f, now, k, pay, lost).1 == NoError <==> s.hasPaid <= pay <= accrued && s.lost <= lost)
      && (lock == accrued - s.hasPaid <==>
            if Ahead(s, now) then s.lost == s.maxPay - accrued else s.lost <= s.maxPay - accrued)
  {
    hide SumSeq, E.Earned, E.Summary, E.NotPassed, Claim, GetBalance, LockedShare;
    var s := f.proInfo[k];
    E.AccrualExact(s, h, Max(s.time, now));
    PriceNotNegative(s, h);
    ClaimAccepted(f, now, k, pay, lost);
    LockedView(f, now, k);
  }

  lemma ClaimAccepted(f: Fs, now: u64, k: MultiKey, pay: int, lost: int)
    requires k in f.proInfo
    ensures var s := f.proInfo[k];
      Claim(f, now, k, pay, lost).1 == NoError
      <==> s.hasPaid <= pay <= AccruedBy(s, Max(s.time, now)) && s.lost <= lost
  {
    hide S.Linear, Credit;
  }

  // The view accrues over the wrapped difference, and reports no more than the room left.
  lemma LockedView(f: Fs, now: u64, k: MultiKey)
    requires k in f.proInfo && 0 <= f.proInfo[k].price
    ensures var s := f.proInfo[k];
      var accrued := AccruedBy(s, Max(s.time, now));
      var lock := GetBalance(f, now, k.role, k.token).1 - LockedShare(f, now, k.role, k.token);
      lock == accrued - s.hasPaid <==>
        if Ahead(s, now) then s.lost == s.maxPay - accrued else s.lost <= s.maxPay - accrued
  {
    var s := f.proInfo[k];
    var viewed := s.canPay + Sub64(now, s.time) * s.price;
    assert GetBalance(f, now, k.role, k.token).1 - LockedShare(f, now, k.role, k.token)
        == Min(viewed, s.maxPay - s.lost) - s.hasPaid by {
      assert MultiKey(k.role, k.token) == k;
    }
    hide GetBalance, LockedShare;
    if Ahead(s, now) {
      E.TimesGrows(s.price, 1, Sub64(now, s.time));
    }
  }

  lemma PriceNotNegative(s: S.Settlement, h: seq<E.Order>)
    requires E.Summary(s, h)
    ensures 0 <= s.price
  {
    hide SumSeq;
    SumSeqZero(h, E.LivePrice());
  }

  // One order of 100 that cost its user 105, with half of it admitted as lost, at its end: 50 are
  // reported as locked, and a claim of 100 is accepted and paid in full.
  const HALF_LOST := Fs(CONTRACT, Address(2), 0, map[MultiKey(5, 0) := 0, MultiKey(0, 0) := 1, MultiKey(6, 0) := 0],
                        [5], map[5 := FsInfo(true, [6], map[6 := AggOrder(1, 0, map[0 := StoreInfo(0, 1, 1)])])],
                        [7], 0, map[0 := 0], 2, map[7 := 2],
                        map[MultiKey(6, 0) := S.Settlement(0, 0, 1, 100, 0, 0, 50, 0, 4, 0, 0)], [0])

  const HALF_LOST_WORLD: World := map[TOKEN := L.Ledger(TOKEN, Address(2), 105, map[CONTRACT := 105], map[])]
  const PROVIDER := Address(5)

  lemma LossIsStillPaid()
    ensures var (g, w', err) := ProWithdraw(HALF_LOST, HALF_LOST_WORLD, 100, Info(PROVIDER, false), 6, [TOKEN], 0,
                                            100, 50);
      && Inv(HALF_LOST)
      && E.Summary(HALF_LOST.proInfo[MultiKey(6, 0)], [E.Order(0, 100, 1, false)])
      && GetBalance(HALF_LOST, 100, 6, 0) == (0, 50)
      && err == NoError
      && BalanceOf(w', TOKEN, PROVIDER) == 100 && Get(g.balance, MultiKey(6, 0)) == 0
  {
    hide Inv, E.Summary, ProWithdraw, GetBalance;
    HalfLostInv();
    HalfLostSummary();
    HalfLostView();
    HalfLostPaid();
  }

  lemma HalfLostInv()
    ensures Inv(HALF_LOST)
  {
    hide Agree, Counted;
    HalfLostCounted();
    HalfLostAgrees();
  }

  lemma HalfLostSummary()
    ensures E.Summary(HALF_LOST.proInfo[MultiKey(6, 0)], [E.Order(0, 100, 1, false)])
  {
    var o := E.Order(0, 100, 1, false);
    E.SumSeqOne(o, E.LivePrice());
    E.SumSeqOne(o, E.Earned(0));
    E.SumSeqOne(o, E.PayOf());
    E.SumSeqOne(o, E.FloorOf());
    E.SumSeqOne(o, E.EndFloorOf());
  }

  lemma HalfLostView()
    ensures GetBalance(HALF_LOST, 100, 6, 0) == (0, 50)
  {
  }

  lemma HalfLostPaid()
    ensures var (g, w', err) := ProWithdraw(HALF_LOST, HALF_LOST_WORLD, 100, Info(PROVIDER, false), 6, [TOKEN], 0,
                                            100, 50);
      err == NoError && BalanceOf(w', TOKEN, PROVIDER) == 100 && Get(g.balance, MultiKey(6, 0)) == 0
  {
    hide Claim, Send;
    HalfLostClaimed();
    SendEffect(HALF_LOST_WORLD, TOKEN, CONTRACT, PROVIDER, 100, TOKEN, PROVIDER);
    SendSucceeds(HALF_LOST_WORLD, TOKEN, CONTRACT, PROVIDER, 100);
  }

  lemma HalfLostClaimed()
    ensures var (g, err) := Claim(HALF_LOST, 100, MultiKey(6, 0), 100, 50);
      err == NoError && Get(g.balance, MultiKey(6, 0)) == 100 && g.local == CONTRACT
  {
    hide S.Calc, Claim;
    HalfLostSettled();
    ClaimCredits(HALF_LOST, 100, MultiKey(6, 0), 100, 50);
  }

  lemma HalfLostSettled()
    ensures var (_, res, err) := S.Calc(HALF_LOST.proInfo[MultiKey(6, 0)], 100, 100, 50); res == 100 && err == NoError
  {
  }

  lemma ClaimCredits(f: Fs, now: u64, k: MultiKey, pay: int, lost: int)
    requires k in f.proInfo
    ensures var (_, res, err) := S.Calc(f.proInfo[k], now, pay, lost);
      var (g, err') := Claim(f, now, k, pay, lost);
      err' == err && g.local == f.local && (err == NoError ==> Get(g.balance, k) == Get(f.balance, k) + res)
  {
    hide S.Calc, S.Linear;
  }

  lemma HalfLostCounted()
    ensures Counted(HALF_LOST)
  {
    var f := HALF_LOST;
    SumRemove(f.count.Keys, CountIn(f.count), 7);
    assert f.count.Keys - {7} == {};
  }

  lemma HalfLostAgrees()
    ensures Agree(HALF_LOST)
  {
    hide UserPrices, HasOrders;
    HalfLostRecord();
    forall k: MultiKey
      ensures UserPrices(HALF_LOST.fs, k) == if k == MultiKey(6, 0) then 1 else 0
    {
      HalfLostPrices(k);
    }
  }

  lemma HalfLostRecord()
    ensures forall u: nat, k: MultiKey :: HasOrders(HALF_LOST.fs, u, k) ==> u == 5 && k == MultiKey(6, 0)
  {
  }

  lemma HalfLostPrices(k: MultiKey)
    ensures UserPrices(HALF_LOST.fs, k) == if k == MultiKey(6, 0) then 1 else 0
  {
    var f := HALF_LOST;
    SumRemove(f.fs.Keys, PriceIn(f.fs, k), 5);
    assert f.fs.Keys - {5} == {};
  }
}
