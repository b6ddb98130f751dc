// Two concrete inputs on which the pool code falls short of the promise, with the exact
// conditions proved elsewhere: PoolOps.FailedPledgeKeepsInv says when a failing pledge is
// harmless, and PoolOps.PledgeNonInterference what a pledge forfeits.
module PoolLimits {
  import opened Types
  import opened Sums
  import opened Erc
  import opened Pool
  import opened PoolOps
  import L = Ledger

  const POOL := Address(1)
  const OWNER := Address(2)
  const TOKEN := Address(3)
  const STAKER := Address(5)

  function TokenWith(local: Address, amount: int): L.Ledger {
    L.Ledger(local, OWNER, amount, map[POOL := amount, STAKER := 0], map[])
  }

  // One staker with 100 staked out of 100 seen.
  const ONE_STAKER := Pool(OWNER, POOL, [TOKEN], 1, 100,
                           map[MultiKey(0, 0) := RewardInfo(0, 100)],
                           map[0 := RewardInfo(0, 100)])

  lemma SumSingleton(s: set<nat>, f: nat -> int, k: nat)
    requires s == {k}
    ensures Sum(s, f) == f(k)
  {
    SumRemove(s, f, k);
    assert s - {k} == {};
  }

  lemma AllOne(n: nat)
    ensures n == 1 ==> All(n) == {0}
    ensures n == 2 ==> All(n) == {0, 1}
  {
    assert forall i: nat :: i in All(n) <==> i < n;
  }

  lemma OneStakerInv()
    ensures Inv(ONE_STAKER, map[TOKEN := TokenWith(TOKEN, 200)])
  {
    AllOne(1);
    var p := ONE_STAKER;
    assert MultiKey(0, 0) in p.amount;
    assert Stakers(p) == {0};
    SumSingleton(Stakers(p), StakeOf(p), 0);
    SumSingleton(Stakers(p), SettledOf(p, 0), 0);
  }

  // A pledge that fails for lack of an allowance, and then a deposit of 100: the pool holds
  // 300 and reports 400.
  lemma FailedPledgeLosesSolvency()
    ensures var w := map[TOKEN := TokenWith(TOKEN, 200)];
      var w2 := map[TOKEN := TokenWith(TOKEN, 300)];
      var (q, w1, err) := Pledge(ONE_STAKER, w, OWNER, STAKER, 0, 0);
      && Inv(ONE_STAKER, w)
      && err == ErrRes && w1 == w
      && 0 in q.tInfo && |q.tokens| == 1
      && Bal(q, w2, 0) == 300 && Reported(q, w2, 0) == 400
  {
    OneStakerInv();
    AllOne(1);
    var w := map[TOKEN := TokenWith(TOKEN, 200)];
    var w2 := map[TOKEN := TokenWith(TOKEN, 300)];
    var (q, w1, err) := Pledge(ONE_STAKER, w, OWNER, STAKER, 0, 0);
    SettledStake(ONE_STAKER, w, 0);
    assert View(ONE_STAKER, w, 0, 0) == 200;
    SettleEntries(ONE_STAKER, w, 0, All(1), true);
    assert q.tInfo[0] == RewardInfo(1, 200);
    assert MultiKey(0, 0).role == 0 && MultiKey(0, 0).token == 0;
    assert Stakers(q) == {0} by {
      assert q.amount.Keys == {MultiKey(0, 0)};
    }
    SumSingleton(Stakers(q), ViewOf(q, w2, 0), 0);
  }

  const LATE := Address(6)

  // A staker of 100 with no entry for a token that was added later and has since earned 1
  // per staked unit.
  const LATE_TOKEN := Pool(OWNER, POOL, [TOKEN, LATE], 2, 100,
                           map[MultiKey(0, 0) := RewardInfo(0, 100)],
                           map[0 := RewardInfo(0, 100), 1 := RewardInfo(1, 100)])

  // Its token 0, with an allowance for a pledge of nothing.
  const LATE_LEDGER := L.Ledger(TOKEN, OWNER, 100, map[POOL := 100, STAKER := 0], map[L.TwoKey(STAKER, POOL) := 0])
  const LATE_WORLD: World := map[TOKEN := LATE_LEDGER, LATE := TokenWith(LATE, 100)]

  lemma LateTokenSums()
    ensures 0 in LATE_TOKEN.tInfo && 1 in LATE_TOKEN.tInfo
    ensures TotalStake(LATE_TOKEN) == 100 && Owed(LATE_TOKEN, 0) == 100 && Owed(LATE_TOKEN, 1) == 100
  {
    var p := LATE_TOKEN;
    assert MultiKey(0, 0) in p.amount;
    assert Stakers(p) == {0};
    SumSingleton(Stakers(p), StakeOf(p), 0);
    SumSingleton(Stakers(p), SettledOf(p, 0), 0);
    SumSingleton(Stakers(p), SettledOf(p, 1), 0);
  }

  lemma LateTokenInv()
    ensures Inv(LATE_TOKEN, LATE_WORLD) && NoAllowances(LATE_WORLD, POOL)
  {
    hide Owed, TotalStake;
    AllOne(2);
    LateTokenSums();
    assert forall i :: i in LATE_TOKEN.tInfo ==> i == 0 || i == 1;
  }

  lemma LateTokenReport()
    ensures 1 in LATE_TOKEN.tInfo && View(LATE_TOKEN, LATE_WORLD, 0, 1) == 100
    ensures Forfeit(LATE_TOKEN, 0, 1, true) == 100
  {
    assert Stake(LATE_TOKEN, 0) == 100;
  }

  lemma LatePledgeSucceeds()
    requires Coherent(LATE_TOKEN)
    ensures Pledge(LATE_TOKEN, LATE_WORLD, OWNER, STAKER, 0, 0).2 == NoError
  {
    hide Settle, Book, Stake;
  }

  // Pledging once more costs such a staker the whole reported reward.
  lemma LateTokenIsForfeited()
    ensures Inv(LATE_TOKEN, LATE_WORLD)
    ensures 1 in LATE_TOKEN.tInfo && View(LATE_TOKEN, LATE_WORLD, 0, 1) == 100
    ensures var (q, w1, err) := Pledge(LATE_TOKEN, LATE_WORLD, OWNER, STAKER, 0, 0);
      err == NoError && 1 in q.tInfo && |q.tokens| == 2 && View(q, w1, 0, 1) == 0
  {
    hide Inv, Pledge, View, NoAllowances, Forfeit, Moved;
    LateTokenInv();
    LateTokenReport();
    var p, w := LATE_TOKEN, LATE_WORLD;
    PoolShape(p, w, 1);
    LatePledgeSucceeds();
    PledgeMoves(p, w, OWNER, STAKER, 0, 0);
    MovedShape(p, w, Pledge(p, w, OWNER, STAKER, 0, 0).0, 0, All(2), true, 0, 0);
    PledgeNonInterference(p, w, OWNER, STAKER, 0, 0, 0, 1);
  }
}
