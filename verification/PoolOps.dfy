// What each pool operation keeps and does: solvency, non-interference, agreement of the
// reported balance with the paid amount, and the effect of a pledge whose transfer fails.
module PoolOps {
  import opened Types
  import opened Sums
  import opened Erc
  import opened Pool
  import L = Ledger

  // The pool never approves anyone to spend its tokens.
  ghost predicate NoAllowances(w: World, a: Address) {
    forall t :: t in w ==> L.NoAllowance(w[t], a)
  }

  // ---------- Reported balances after a move ----------

  lemma GainAfter(p: Pool, w: World, q: Pool, w': World, s: nat, touched: set<nat>, restart: bool,
                  j: nat, d: int, i: nat)
    requires Coherent(p) && i in p.tInfo
    requires Moved(p, w, q, s, touched, restart, j, d)
    requires i in touched || q.total == p.total
    requires Bal(p, w', i) == Bal(p, w, i) + if i == j then d else 0
    ensures Gain(q, w', i) == if i in touched then 0 else Gain(p, w, i)
  {
    hide Claim, Credited, Stake;
  }

  lemma ViewsAfter(p: Pool, w: World, q: Pool, w': World, s: nat, touched: set<nat>, restart: bool,
                   j: nat, d: int, t: nat, i: nat)
    requires Coherent(p) && i in p.tInfo
    requires TouchOk(p, s, j, d, touched) && Moved(p, w, q, s, touched, restart, j, d)
    requires i in touched || q.total == p.total
    requires Bal(p, w', i) == Bal(p, w, i) + if i == j then d else 0
    ensures View(q, w', t, i) == View(p, w, t, i) + Delta(p, s, touched, restart, j, d, t, i)
  {
    hide Claim, Gain, Delta, Credited, Stake, Bal;
    ClaimsAfter(p, w, q, s, touched, restart, j, d, t, i);
    GainAfter(p, w, q, w', s, touched, restart, j, d, i);
    if i !in touched {
      ClaimIsLinear(q, t, i, q.tInfo[i].accum, Gain(q, w', i));
      ClaimIsLinear(p, t, i, p.tInfo[i].accum, Gain(p, w, i));
      StakeUnmoved(p, w, q, s, touched, restart, j, d, t);
    }
  }

  lemma StakeUnmoved(p: Pool, w: World, q: Pool, s: nat, touched: set<nat>, restart: bool, j: nat, d: int, t: nat)
    requires Coherent(p) && Moved(p, w, q, s, touched, restart, j, d)
    requires TouchOk(p, s, j, d, touched) && touched != All(|p.tokens|)
    ensures Stake(q, t) == Stake(p, t)
  {
    hide Claim, Gain, Credited, Bal, AccumNow;
    assert MultiKey(t, 0) in p.amount <==> MultiKey(t, 0) in q.amount;
  }

  // ---------- Pledge ----------

  lemma PledgeMoves(p: Pool, w: World, caller: Address, addr: Address, s: nat, money: int)
    requires Inv(p, w) && NoAllowances(w, p.local)
    requires Pledge(p, w, caller, addr, s, money).2 == NoError
    ensures var (q, w', _) := Pledge(p, w, caller, addr, s, money);
      && 0 <= money && addr != p.local
      && Moved(p, w, q, s, All(|p.tokens|), true, 0, money)
      && 0 <= q.amount[MultiKey(s, 0)].last
      && (forall i :: i in p.tInfo ==> Bal(p, w', i) == Bal(p, w, i) + if i == 0 then money else 0)
  {
    hide Inv, Settle, Book, Moved, Stake, SendFrom, NoAllowances, Bal;
    PoolShape(p, w, 0);
    var all := All(|p.tokens|);
    PledgedParts(p, w, caller, addr, s, money);
    KeysMember(s, all, MultiKey(s, 0));
    SettleShape(p, w, s, all, true);
    SettledLast(p, w, s, all);
    BookMoves(p, w, s, all, true, 0, money);
    BookedLast(Settle(p, w, s, all, true), s, 0, money, Stake(p, s));
    forall i | i in p.tInfo
      ensures Bal(p, Pledge(p, w, caller, addr, s, money).1, i) == Bal(p, w, i) + if i == 0 then money else 0
    {
      PledgedBalance(p, w, caller, addr, s, money, i);
    }
  }

  // A successful pledge is a settlement of every token, a transfer and a booking.
  lemma PledgedParts(p: Pool, w: World, caller: Address, addr: Address, s: nat, money: int)
    requires Coherent(p) && NoAllowances(w, p.local) && Pledge(p, w, caller, addr, s, money).2 == NoError
    ensures 0 <= money && addr != p.local
    ensures MultiKey(s, 0) in Settle(p, w, s, All(|p.tokens|), true).amount && 0 in p.tInfo
    ensures Pledge(p, w, caller, addr, s, money).0
            == Book(Settle(p, w, s, All(|p.tokens|), true), s, 0, money, Stake(p, s))
    ensures Pledge(p, w, caller, addr, s, money).1 == SendFrom(w, p.tokens[0], p.local, addr, p.local, money).0
    ensures SendFrom(w, p.tokens[0], p.local, addr, p.local, money).1 == NoError
  {
    hide Settle, Book, Stake;
    SendFromEffect(w, p.tokens[0], p.local, addr, p.local, money, p.tokens[0], p.local);
    SettledStake(p, w, s);
  }

  lemma PledgedBalance(p: Pool, w: World, caller: Address, addr: Address, s: nat, money: int, i: nat)
    requires Inv(p, w) && NoAllowances(w, p.local) && Pledge(p, w, caller, addr, s, money).2 == NoError && i in p.tInfo
    ensures i < |p.tokens|
    ensures Bal(p, Pledge(p, w, caller, addr, s, money).1, i) == Bal(p, w, i) + if i == 0 then money else 0
  {
    hide Inv, Pledge, SendFrom, NoAllowances, Settle, Book;
    PoolShape(p, w, i);
    SameToken(p, w, i, 0);
    PledgedParts(p, w, caller, addr, s, money);
    SendFromEffect(w, p.tokens[0], p.local, addr, p.local, money, p.tokens[i], p.local);
  }

  lemma PledgeKeepsInv(p: Pool, w: World, caller: Address, addr: Address, s: nat, money: int)
    requires Inv(p, w) && NoAllowances(w, p.local)
    requires Pledge(p, w, caller, addr, s, money).2 == NoError
    ensures var (q, w', _) := Pledge(p, w, caller, addr, s, money); Inv(q, w')
  {
    var (q, w', _) := Pledge(p, w, caller, addr, s, money);
    PledgeMoves(p, w, caller, addr, s, money);
    MovedKeepsInv(p, w, q, w', s, All(|p.tokens|), true, 0, money);
  }

  // A pledge leaves every other staker's reported balance alone, in every token. The
  // caller's own grows by the money in token 0, and loses only what a staker without an
  // entry forfeits.
  lemma PledgeNonInterference(p: Pool, w: World, caller: Address, addr: Address, s: nat, money: int, t: nat, i: nat)
    requires Inv(p, w) && NoAllowances(w, p.local) && i in p.tInfo
    requires Pledge(p, w, caller, addr, s, money).2 == NoError
    ensures var (q, w', _) := Pledge(p, w, caller, addr, s, money);
      && (t != s ==> View(q, w', t, i) == View(p, w, t, i))
      && View(q, w', s, i) == View(p, w, s, i) + (if i == 0 then money else 0) - Forfeit(p, s, i, true)
      && (MultiKey(s, i) in p.amount || MultiKey(s, 0) !in p.amount ==> Forfeit(p, s, i, true) == 0)
  {
    hide Pledge, View, Inv, Moved, Delta, Stake, Forfeit;
    PoolShape(p, w, i);
    var all := All(|p.tokens|);
    var (q, w', _) := Pledge(p, w, caller, addr, s, money);
    PledgeMoves(p, w, caller, addr, s, money);
    MovedShape(p, w, q, s, all, true, 0, money);
    ViewsAfter(p, w, q, w', s, all, true, 0, money, t, i);
    ViewsAfter(p, w, q, w', s, all, true, 0, money, s, i);
    PledgeDelta(p, s, money, t, i);
  }

  lemma PledgeDelta(p: Pool, s: nat, money: int, t: nat, i: nat)
    requires Coherent(p) && i in p.tInfo
    ensures var all := All(|p.tokens|);
      && Delta(p, s, all, true, 0, money, s, i) == (if i == 0 then money else 0) - Forfeit(p, s, i, true)
      && (t != s ==> Delta(p, s, all, true, 0, money, t, i) == 0)
    ensures MultiKey(s, i) in p.amount || MultiKey(s, 0) !in p.amount ==> Forfeit(p, s, i, true) == 0
  {
  }

  // ---------- A pledge whose transfer fails ----------

  lemma BookNothing(p: Pool, s: nat, j: nat)
    requires j in p.tInfo && MultiKey(s, j) in p.amount
    ensures Book(p, s, j, 0, Stake(p, s)) == p
  {
    var k := MultiKey(s, j);
    assert p.tInfo[j := p.tInfo[j].(last := p.tInfo[j].last + 0)] == p.tInfo;
    assert p.amount[k := p.amount[k].(last := p.amount[k].last + 0)] == p.amount;
  }

  lemma BookRetotals(p: Pool, s: nat, oldStake: int)
    requires Coherent(p) && MultiKey(s, 0) in p.amount
    ensures Book(p, s, 0, 0, oldStake) == p.(total := p.total - oldStake + Stake(p, s))
  {
    BookNothing(p, s, 0);
  }

  // The code settles the caller before it asks for the money and does not undo that when
  // the transfer fails. The total then misses the compounded reward, so the pool stays
  // sound exactly when the caller has no token-0 reward waiting.
  lemma FailedPledgeKeepsInv(p: Pool, w: World, caller: Address, addr: Address, s: nat, money: int)
    requires Inv(p, w) && caller == p.owner && 0 <= money
    requires Pledge(p, w, caller, addr, s, money).2 != NoError
    ensures var (q, w', _) := Pledge(p, w, caller, addr, s, money);
      w' == w && (Inv(q, w') <==> View(p, w, s, 0) == Stake(p, s))
  {
    var all := All(|p.tokens|);
    var q := Settle(p, w, s, all, true);
    assert Pledge(p, w, caller, addr, s, money).0 == q;
    SendFromEffect(w, p.tokens[0], p.local, addr, p.local, money, p.tokens[0], p.local);
    SettledStake(p, w, s);
    UnbookedSettlement(p, w, s, q);
  }

  // And when a reward is waiting, an outside deposit of n times totalPledge makes the pool
  // report more than it holds, as soon as n times the reward exceeds what was held beyond the
  // debts.
  lemma FailedPledgeThenDeposit(p: Pool, w: World, caller: Address, addr: Address, s: nat, money: int, w2: World,
                                n: nat)
    requires Inv(p, w) && caller == p.owner && 0 <= money
    requires Pledge(p, w, caller, addr, s, money).2 != NoError && 0 < p.total
    requires Bal(p, w2, 0) == Bal(p, w, 0) + n * p.total
    ensures var q := Pledge(p, w, caller, addr, s, money).0;
      && Coherent(q) && 0 in q.tInfo && 0 < |q.tokens|
      && Reported(q, w2, 0) - Bal(q, w2, 0)
         == n * (View(p, w, s, 0) - Stake(p, s)) - (Bal(p, w, 0) - Owed(q, 0))
  {
    hide Settle, View, Owed, Reported, TotalStake, Inv, Entries, Stake;
    PoolShape(p, w, 0);
    var q := Settle(p, w, s, All(|p.tokens|), true);
    SettledStake(p, w, s);
    SettledTotals(p, w, s);
    ReportedTotal(q, w2, 0);
    assert Gain(q, w2, 0) == n by { MultipleDiv(n, p.total); }
    Distribute(n, p.total, View(p, w, s, 0) - Stake(p, s));
  }

  lemma MultipleDiv(n: nat, t: int)
    requires 0 < t
    ensures 0 <= n * t && n * t / t == n && (n * t == 0 ==> n == 0)
  {
  }

  // After a settlement without a booking, the stakes exceed the total by the reward.
  lemma SettledTotals(p: Pool, w: World, s: nat)
    requires Inv(p, w)
    ensures Coherent(p)
    ensures var q := Settle(p, w, s, All(|p.tokens|), true);
      && 0 in q.tInfo && q.tInfo[0].last == Bal(p, w, 0)
      && TotalStake(q) == p.total + View(p, w, s, 0) - Stake(p, s)
  {
    hide Settle, Gain, Bal, View, Covered, Entries, TotalStake;
    var all := All(|p.tokens|);
    var q := Settle(p, w, s, all, true);
    SettleEntries(p, w, s, all, true);
    SettledStake(p, w, s);
    BookRetotals(q, s, Stake(p, s));
    BookMoves(p, w, s, all, true, 0, 0);
    TotalAfter(p, w, Book(q, s, 0, 0, Stake(p, s)), s, all, true, 0, 0);
    RetotalKeepsStakes(q, Book(q, s, 0, 0, Stake(p, s)).total);
  }

  // So after such a failure there is always a deposit that makes the pool insolvent.
  lemma FailedPledgeTurnsInsolvent(p: Pool, w: World, caller: Address, addr: Address, s: nat, money: int)
    returns (deposit: int)
    requires Inv(p, w) && caller == p.owner && 0 <= money
    requires Pledge(p, w, caller, addr, s, money).2 != NoError && Stake(p, s) < View(p, w, s, 0)
    ensures 0 < deposit
    ensures var q := Pledge(p, w, caller, addr, s, money).0;
      && Coherent(q) && 0 in q.tInfo && 0 < |q.tokens|
      && forall w2: World :: Bal(q, w2, 0) == Bal(p, w, 0) + deposit ==> Bal(q, w2, 0) < Reported(q, w2, 0)
  {
    hide View, Owed, Reported, TotalStake, Inv, Entries, Stake, Pledge, Bal;
    PoolShape(p, w, 0);
    if p.total <= 0 {
      IdleView(p, w, s, 0);
      NoTotalNoStake(p, w, s);
      StakeIsLast(p, s);
    }
    var q := Pledge(p, w, caller, addr, s, money).0;
    FailedShape(p, w, caller, addr, s, money);
    var reward := View(p, w, s, 0) - Stake(p, s);
    var n: nat := Max(1, Bal(p, w, 0) - Owed(q, 0) + 1);
    deposit := n * p.total;
    MultipleDiv(n, p.total);
    GrowsBy(n, reward);
    forall w2: World | Bal(q, w2, 0) == Bal(p, w, 0) + deposit
      ensures Bal(q, w2, 0) < Reported(q, w2, 0)
    {
      FailedPledgeThenDeposit(p, w, caller, addr, s, money, w2, n);
    }
  }

  lemma StakeIsLast(p: Pool, s: nat)
    ensures Stake(p, s) == if MultiKey(s, 0) in p.amount then p.amount[MultiKey(s, 0)].last else 0
  {
  }

  lemma GrowsBy(n: nat, k: int)
    requires 1 <= k
    ensures n <= n * k
  {
  }

  lemma FailedShape(p: Pool, w: World, caller: Address, addr: Address, s: nat, money: int)
    requires Inv(p, w) && caller == p.owner && 0 <= money
    requires Pledge(p, w, caller, addr, s, money).2 != NoError
    ensures var q := Pledge(p, w, caller, addr, s, money).0;
      && Coherent(p) && Coherent(q) && 0 in q.tInfo && 0 < |q.tokens|
      && forall w2: World :: Bal(q, w2, 0) == Bal(p, w2, 0)
  {
    hide Settle, View, Stake;
    SettledStake(p, w, s);
  }

  // Settling every token turns the reported token-0 balance into the stake.
  lemma SettledStake(p: Pool, w: World, s: nat)
    requires Coherent(p)
    ensures var q := Settle(p, w, s, All(|p.tokens|), true);
      && Coherent(q) && MultiKey(s, 0) in q.amount
      && q.tokens == p.tokens && q.local == p.local && q.owner == p.owner && q.total == p.total
      && Stake(q, s) == View(p, w, s, 0)
  {
    hide Settle, Gain, Bal;
    SettleEntries(p, w, s, All(|p.tokens|), true);
    assert MultiKey(s, 0) in Settle(p, w, s, All(|p.tokens|), true).amount;
    CreditedIsView(p, w, s, 0, true);
    if MultiKey(s, 0) !in p.amount {
      assert p.tInfo[0].accum * 0 == 0;
      assert AccumNow(p, w, 0) * 0 == 0;
    }
  }

  lemma UnbookedSettlement(p: Pool, w: World, s: nat, q: Pool)
    requires Inv(p, w) && q == Settle(p, w, s, All(|p.tokens|), true)
    requires Coherent(q) && MultiKey(s, 0) in q.amount && q.total == p.total
    requires q.tokens == p.tokens && Stake(q, s) == View(p, w, s, 0)
    ensures Inv(q, w) <==> View(p, w, s, 0) == Stake(p, s)
  {
    hide Inv, Settle, Bal, View, Stake, Book, Moved, TotalStake;
    PoolShape(p, w, 0);
    var all := All(|p.tokens|);
    var q' := Book(q, s, 0, 0, Stake(p, s));
    BookRetotals(q, s, Stake(p, s));
    BookMoves(p, w, s, all, true, 0, 0);
    SettledLast(p, w, s, all);
    MovedKeepsInv(p, w, q', w, s, all, true, 0, 0);
    OnlyTotal(q, w, q'.total);
  }

  // The invariant with a total that is right, and with another one.
  lemma OnlyTotal(p: Pool, w: World, total: int)
    requires Inv(p.(total := total), w)
    ensures total == TotalStake(p)
    ensures Inv(p, w) <==> p.total == TotalStake(p)
  {
    hide TotalStake, Owed;
    RetotalKeepsStakes(p, total);
    var q := p.(total := total);
    forall i | i in p.tInfo
      ensures Owed(p, i) == Owed(q, i) && Bal(p, w, i) == Bal(q, w, i)
    {
      RetotalKeepsOwed(p, total, i);
    }
  }

  lemma RetotalKeepsOwed(p: Pool, total: int, i: nat)
    requires i in p.tInfo
    ensures Owed(p.(total := total), i) == Owed(p, i)
  {
    SumAgree(Stakers(p), SettledOf(p, i), SettledOf(p.(total := total), i));
  }

  lemma SettledLast(p: Pool, w: World, s: nat, touched: set<nat>)
    requires Inv(p, w) && touched == All(|p.tokens|)
    requires MultiKey(s, 0) in Settle(p, w, s, touched, true).amount
    ensures 0 <= Settle(p, w, s, touched, true).amount[MultiKey(s, 0)].last
  {
    hide Settle, Gain, Bal, Credited;
    SettleEntries(p, w, s, touched, true);
    CreditedNonNegative(p, w, s, 0, true);
  }

  lemma RetotalKeepsStakes(p: Pool, total: int)
    ensures TotalStake(p.(total := total)) == TotalStake(p)
  {
    SumAgree(Stakers(p), StakeOf(p), StakeOf(p.(total := total)));
  }

  // ---------- Withdraw ----------

  lemma SettleNothing(p: Pool, w: World, s: nat, restart: bool)
    requires Coherent(p)
    ensures Settle(p, w, s, {}, restart) == p
  {
    hide AccumNow, Bal, Credited;
    var p1 := Settle(p, w, s, {}, restart);
    assert Keys(s, {}) == {};
    assert p1.amount == p.amount;
    assert p1.tInfo == p.tInfo;
  }

  // The guards of Withdraw; the last one says that s has, or gets, an entry for token j.
  predicate CanWithdraw(p: Pool, payee: Payee, s: nat, j: nat, money: int) {
    && 0 <= money && payee.Payee?
    && MultiKey(s, 0) in p.amount && j < |p.tokens|
    && (MultiKey(s, j) in p.amount || 0 < p.total)
  }

  // Amount that Withdraw pays, from the reported balance.
  function Paid(p: Pool, w: World, s: nat, j: nat, money: int, lock: int): int
    requires j < |p.tokens| && j in p.tInfo
  {
    Max(0, Payable(View(p, w, s, j), j, money, lock))
  }

  lemma NoTotalNoStake(p: Pool, w: World, s: nat)
    requires Inv(p, w) && p.total <= 0
    ensures Stake(p, s) == 0
  {
    hide Covered;
    forall t | t in Stakers(p)
      ensures 0 <= StakeOf(p)(t)
    {
    }
    SumNonNegative(Stakers(p), StakeOf(p));
    if MultiKey(s, 0) in p.amount {
      assert s in Stakers(p);
      assert StakeOf(p)(s) == 0;
    }
  }

  lemma IdleView(p: Pool, w: World, s: nat, j: nat)
    requires Inv(p, w) && p.total <= 0 && j < |p.tokens|
    ensures View(p, w, s, j) == if MultiKey(s, j) in p.amount then p.amount[MultiKey(s, j)].last else 0
  {
    hide Entries, Covered, Gain, Stake;
    NoTotalNoStake(p, w, s);
    if MultiKey(s, j) in p.amount {
      assert (AccumNow(p, w, j) - p.amount[MultiKey(s, j)].accum) * 0 == 0;
    } else {
      assert AccumNow(p, w, j) * 0 == 0;
    }
  }

  // The pool after the settlement of a withdrawal.
  function SettledFor(p: Pool, w: World, s: nat, j: nat): Pool
    requires Coherent(p)
  {
    Settle(p, w, s, Touched(p, j), false)
  }

  // Withdraw settles s to the reported balance before it pays.
  lemma WithdrawSettles(p: Pool, w: World, s: nat, j: nat)
    requires Inv(p, w) && MultiKey(s, 0) in p.amount && j < |p.tokens|
    ensures Coherent(p) && j in p.tInfo
    ensures var p1 := SettledFor(p, w, s, j);
      && Coherent(p1) && j in p1.tInfo
      && (MultiKey(s, j) in p1.amount <==> MultiKey(s, j) in p.amount || 0 < p.total)
      && (MultiKey(s, j) in p1.amount ==> p1.amount[MultiKey(s, j)].last == View(p, w, s, j))
  {
    hide Settle, Gain, Bal, View;
    var touched := Touched(p, j);
    SettleEntries(p, w, s, touched, false);
    if p.total <= 0 {
      IdleView(p, w, s, j);
    } else {
      CreditedIsView(p, w, s, j, false);
    }
  }

  lemma WithdrawTouchOk(p: Pool, w: World, s: nat, j: nat, money: int, lock: int)
    requires Inv(p, w) && 0 <= lock && MultiKey(s, 0) in p.amount && j < |p.tokens|
    ensures TouchOk(p, s, j, -Paid(p, w, s, j, money, lock), Touched(p, j))
  {
    hide Gain, Bal, View;
    if p.total <= 0 && j == 0 {
      NoTotalNoStake(p, w, s);
      IdleView(p, w, s, 0);
    }
  }

  // q is the pool after s was settled to the reported balance and rw was paid to it.
  predicate PaysFrom(p: Pool, w: World, q: Pool, s: nat, j: nat, rw: int)
    requires Coherent(p) && j < |p.tokens|
  {
    var p1 := SettledFor(p, w, s, j);
    && j in p1.tInfo && MultiKey(s, j) in p1.amount
    && p1.amount[MultiKey(s, j)].last == View(p, w, s, j)
    && q == Book(p1, s, j, -rw, Stake(p, s))
  }

  // Solvency pays off: with a lock that is not negative the transfer of Withdraw never
  // fails.
  lemma WithdrawResult(p: Pool, w: World, payee: Payee, s: nat, j: nat, money: int, lock: int)
    requires Inv(p, w) && 0 <= lock && CanWithdraw(p, payee, s, j, money)
    ensures var (q, w', err) := Withdraw(p, w, payee, s, j, money, lock);
      var rw := Paid(p, w, s, j, money, lock);
      && err == NoError
      && PaysFrom(p, w, q, s, j, rw)
      && 0 <= rw <= View(p, w, s, j)
      && (if 0 < rw then Send(w, p.tokens[j], p.local, payee.addr, rw) == (w', NoError) else w' == w)
  {
    hide Settle, Gain, View, Book, Reported, Entries, Covered;
    WithdrawSettles(p, w, s, j);
    Solvent(p, w, j);
    assert s in Stakers(p);
    var rw := Paid(p, w, s, j, money, lock);
    if 0 < rw {
      SendSucceeds(w, p.tokens[j], p.local, payee.addr, rw);
    }
  }

  lemma WithdrawMoves(p: Pool, w: World, payee: Payee, s: nat, j: nat, money: int, lock: int)
    requires Inv(p, w) && 0 <= lock && CanWithdraw(p, payee, s, j, money)
    ensures var q := Withdraw(p, w, payee, s, j, money, lock).0;
      && Moved(p, w, q, s, Touched(p, j), false, j, -Paid(p, w, s, j, money, lock))
      && 0 <= q.amount[MultiKey(s, j)].last
  {
    hide Inv, Settle, View, Withdraw, Paid, Book, Stake, Moved, Touched, CanWithdraw;
    PoolShape(p, w, j);
    PaidFrom(p, payee, s, j, money);
    var touched, rw := Touched(p, j), Paid(p, w, s, j, money, lock);
    WithdrawResult(p, w, payee, s, j, money, lock);
    BookMoves(p, w, s, touched, false, j, -rw);
    SettleShape(p, w, s, touched, false);
    BookedLast(Settle(p, w, s, touched, false), s, j, -rw, Stake(p, s));
  }

  lemma PaidFrom(p: Pool, payee: Payee, s: nat, j: nat, money: int)
    requires Coherent(p) && CanWithdraw(p, payee, s, j, money)
    ensures MultiKey(s, 0) in p.amount && j in p.tInfo && j < |p.tokens| && Touched(p, j) <= All(|p.tokens|)
  {
  }

  lemma SettleShape(p: Pool, w: World, s: nat, touched: set<nat>, restart: bool)
    requires Coherent(p) && touched <= All(|p.tokens|) && (MultiKey(s, 0) in p.amount || 0 in touched)
    ensures Coherent(Settle(p, w, s, touched, restart))
  {
    hide Settle;
    SettleEntries(p, w, s, touched, restart);
  }

  lemma BookedLast(p: Pool, s: nat, j: nat, d: int, oldStake: int)
    requires Coherent(p) && j in p.tInfo && MultiKey(s, j) in p.amount
    ensures MultiKey(s, j) in Book(p, s, j, d, oldStake).amount
    ensures Book(p, s, j, d, oldStake).amount[MultiKey(s, j)].last == p.amount[MultiKey(s, j)].last + d
  {
    hide Stake;
  }

  lemma TotalUnmoved(p: Pool, w: World, q: Pool, s: nat, touched: set<nat>, restart: bool, j: nat, d: int)
    requires Coherent(p) && Moved(p, w, q, s, touched, restart, j, d)
    requires TouchOk(p, s, j, d, touched) && touched != All(|p.tokens|)
    ensures q.total == p.total
  {
    hide Claim, Gain, Credited, Bal, AccumNow;
    StakeUnmoved(p, w, q, s, touched, restart, j, d, s);
  }

  // How balances move: rw from the pool to the payee, in token j alone.
  lemma WithdrawBalances(p: Pool, w: World, payee: Payee, s: nat, j: nat, money: int, lock: int, t: Address, a: Address)
    requires Inv(p, w) && 0 <= lock && CanWithdraw(p, payee, s, j, money)
    ensures var w' := Withdraw(p, w, payee, s, j, money, lock).1;
      var rw := Paid(p, w, s, j, money, lock);
      BalanceOf(w', t, a) == BalanceOf(w, t, a)
                             + (if t == p.tokens[j] && a == payee.addr then rw else 0)
                             - (if t == p.tokens[j] && a == p.local then rw else 0)
  {
    hide Withdraw, Send, View, Settle, Book;
    WithdrawResult(p, w, payee, s, j, money, lock);
    SendEffect(w, p.tokens[j], p.local, payee.addr, Paid(p, w, s, j, money, lock), t, a);
  }

  // In the remaining cases Withdraw fails and leaves pool and ledger as they were.
  lemma WithdrawRefused(p: Pool, w: World, payee: Payee, s: nat, j: nat, money: int, lock: int)
    requires Inv(p, w) && (payee.NoPayee? ==> payee.err != NoError)
    requires !CanWithdraw(p, payee, s, j, money)
    ensures var (q, w', err) := Withdraw(p, w, payee, s, j, money, lock);
      err != NoError && q == p && w' == w
  {
    hide Settle;
    if 0 <= money && payee.Payee? && MultiKey(s, 0) in p.amount && j <= |p.tokens| {
      assert Touched(p, j) == {};
      SettleNothing(p, w, s, false);
    }
  }

  lemma BalanceAfter(p: Pool, w: World, payee: Payee, s: nat, j: nat, money: int, lock: int, i: nat)
    requires Inv(p, w) && 0 <= lock && CanWithdraw(p, payee, s, j, money) && i in p.tInfo
    ensures i < |p.tokens| && j < |p.tokens| && j in p.tInfo
    ensures Bal(p, w, i) + (if i == j then -Paid(p, w, s, j, money, lock) else 0)
         <= Bal(p, Withdraw(p, w, payee, s, j, money, lock).1, i)
  {
    hide Inv, Withdraw, View;
    PoolShape(p, w, i);
    SameToken(p, w, i, j);
    WithdrawBalances(p, w, payee, s, j, money, lock, p.tokens[i], p.local);
  }

  lemma WithdrawKeepsInv(p: Pool, w: World, payee: Payee, s: nat, j: nat, money: int, lock: int)
    requires Inv(p, w) && 0 <= lock && (payee.NoPayee? ==> payee.err != NoError)
    ensures var (q, w', _) := Withdraw(p, w, payee, s, j, money, lock); Inv(q, w')
  {
    hide Inv, Withdraw, Moved, Paid, TouchOk, Touched, Bal;
    PoolShape(p, w, j);
    var (q, w', _) := Withdraw(p, w, payee, s, j, money, lock);
    if CanWithdraw(p, payee, s, j, money) {
      var rw := Paid(p, w, s, j, money, lock);
      WithdrawMoves(p, w, payee, s, j, money, lock);
      WithdrawTouchOk(p, w, s, j, money, lock);
      forall i | i in p.tInfo
        ensures Bal(p, w, i) + (if i == j then -rw else 0) <= Bal(p, w', i)
      {
        BalanceAfter(p, w, payee, s, j, money, lock, i);
      }
      MovedKeepsInv(p, w, q, w', s, Touched(p, j), false, j, -rw);
    } else {
      WithdrawRefused(p, w, payee, s, j, money, lock);
    }
  }

  // The view agrees with the action: Withdraw pays the payee exactly the reported balance
  // less the lock (token 0 only), capped by the money asked for when that is positive. It
  // fails exactly when s has no entry to pay from, and then nothing was reported either.
  lemma WithdrawPaysView(p: Pool, w: World, payee: Payee, s: nat, j: nat, money: int, lock: int)
    requires Inv(p, w) && 0 <= lock && 0 <= money && payee.Payee?
    requires MultiKey(s, 0) in p.amount && j < |p.tokens|
    ensures var (q, w', err) := Withdraw(p, w, payee, s, j, money, lock);
      var free := View(p, w, s, j) - if j == 0 then lock else 0;
      var rw := Max(0, if 0 < money then Min(money, free) else free);
      && (err == NoError <==> MultiKey(s, j) in p.amount || 0 < p.total)
      && (err != NoError ==> View(p, w, s, j) == 0)
      && (forall t, a :: BalanceOf(w', t, a) == BalanceOf(w, t, a)
            + (if t == p.tokens[j] && a == payee.addr then rw else 0)
            - (if t == p.tokens[j] && a == p.local then rw else 0))
  {
    hide Withdraw, View, Settle, Entries, Covered;
    if CanWithdraw(p, payee, s, j, money) {
      WithdrawResult(p, w, payee, s, j, money, lock);
      forall t, a {
        WithdrawBalances(p, w, payee, s, j, money, lock, t, a);
      }
    } else {
      WithdrawRefused(p, w, payee, s, j, money, lock);
      IdleView(p, w, s, j);
    }
  }

  lemma WithdrawDelta(p: Pool, s: nat, touched: set<nat>, j: nat, rw: int, t: nat, i: nat)
    requires i in p.tInfo
    ensures Delta(p, s, touched, false, j, -rw, t, i) == if t == s && i == j then -rw else 0
  {
  }

  // The reported balances when the money goes elsewhere or in another token.
  lemma PaidOut(p: Pool, w: World, payee: Payee, s: nat, j: nat, money: int, lock: int, t: nat, i: nat)
    requires Inv(p, w) && 0 <= lock && i in p.tInfo && CanWithdraw(p, payee, s, j, money)
    requires i != j || payee.addr != p.local
    ensures var (q, w', _) := Withdraw(p, w, payee, s, j, money, lock);
      && i in q.tInfo && i < |q.tokens|
      && View(q, w', t, i) == View(p, w, t, i) - if t == s && i == j then Paid(p, w, s, j, money, lock) else 0
  {
    hide Withdraw, View, Paid, Settle, Inv, AccumNow, Credited, Gain, TouchOk, Touched, Delta, Stake, Moved;
    PoolShape(p, w, i);
    var (q, w', _) := Withdraw(p, w, payee, s, j, money, lock);
    var touched, rw := Touched(p, j), Paid(p, w, s, j, money, lock);
    WithdrawMoves(p, w, payee, s, j, money, lock);
    MovedShape(p, w, q, s, touched, false, j, -rw);
    WithdrawTouchOk(p, w, s, j, money, lock);
    WithdrawBalances(p, w, payee, s, j, money, lock, p.tokens[i], p.local);
    SameToken(p, w, i, j);
    if i !in touched {
      NotAllTouched(p, j, i);
      TotalUnmoved(p, w, q, s, touched, false, j, -rw);
    }
    ViewsAfter(p, w, q, w', s, touched, false, j, -rw, t, i);
    WithdrawDelta(p, s, touched, j, rw, t, i);
  }

  // The reported balances in the token in which the pool pays itself.
  lemma PaidToItself(p: Pool, w: World, payee: Payee, s: nat, j: nat, money: int, lock: int, t: nat)
    requires Inv(p, w) && 0 <= lock && j in p.tInfo && CanWithdraw(p, payee, s, j, money) && payee.addr == p.local
    ensures var (q, w', _) := Withdraw(p, w, payee, s, j, money, lock);
      var rw := Paid(p, w, s, j, money, lock);
      && j in q.tInfo && j < |q.tokens|
      && View(q, w', t, j) == View(p, w, t, j) - (if t == s then rw else 0)
                              + (if 0 < q.total then rw / q.total * Stake(q, t) else 0)
  {
    hide Withdraw, Paid, Settle, Inv, Credited, TouchOk, Touched, Delta, Stake, Claim, Gain, Moved;
    PoolShape(p, w, j);
    var (q, w', _) := Withdraw(p, w, payee, s, j, money, lock);
    var touched, rw := Touched(p, j), Paid(p, w, s, j, money, lock);
    WithdrawMoves(p, w, payee, s, j, money, lock);
    MovedShape(p, w, q, s, touched, false, j, -rw);
    WithdrawTouchOk(p, w, s, j, money, lock);
    ClaimsAfter(p, w, q, s, touched, false, j, -rw, t, j);
    WithdrawDelta(p, s, touched, j, rw, t, j);
    ClaimIsLinear(q, t, j, q.tInfo[j].accum, Gain(q, w', j));
    ClaimIsLinear(p, t, j, p.tInfo[j].accum, Gain(p, w, j));
    SelfGain(p, w, payee, s, j, money, lock);
  }

  // What stays in the pool is the gain of the next update.
  lemma SelfGain(p: Pool, w: World, payee: Payee, s: nat, j: nat, money: int, lock: int)
    requires Inv(p, w) && 0 <= lock && j in p.tInfo && CanWithdraw(p, payee, s, j, money) && payee.addr == p.local
    ensures var (q, w', _) := Withdraw(p, w, payee, s, j, money, lock);
      && Coherent(q) && j in q.tInfo && j < |q.tokens|
      && Gain(q, w', j) == (if 0 < q.total then Paid(p, w, s, j, money, lock) / q.total else 0)
      && (j !in Touched(p, j) ==> Gain(p, w, j) == 0)
  {
    hide Inv, Withdraw, Paid, Touched, Stake, Moved, TouchOk, Gain, Bal, All;
    PoolShape(p, w, j);
    PaidRange(p, w, payee, s, j, money, lock);
    var (q, w', _) := Withdraw(p, w, payee, s, j, money, lock);
    var touched, rw := Touched(p, j), Paid(p, w, s, j, money, lock);
    WithdrawMoves(p, w, payee, s, j, money, lock);
    MovedLast(p, w, q, s, touched, j, -rw);
    SameBalance(p, w, payee, s, j, money, lock);
    SameAccount(p, q, w', j);
    if j in touched {
      GainOf(q, w', j, rw);
    } else {
      WithdrawTouchOk(p, w, s, j, money, lock);
      NotAllTouched(p, j, j);
      TotalUnmoved(p, w, q, s, touched, false, j, -rw);
      IdleTotal(p, j);
      NoGain(p, w, j);
      NoGain(q, w', j);
    }
  }

  lemma SameAccount(p: Pool, q: Pool, w: World, j: nat)
    requires j < |p.tokens| && j < |q.tokens| && q.tokens[j] == p.tokens[j] && q.local == p.local
    ensures Bal(q, w, j) == Bal(p, w, j)
  {
  }

  lemma GainOf(p: Pool, w: World, i: nat, rw: int)
    requires i in p.tInfo && i < |p.tokens| && 0 <= rw && Bal(p, w, i) == p.tInfo[i].last + rw
    ensures Gain(p, w, i) == if 0 < p.total then rw / p.total else 0
  {
  }

  lemma NoGain(p: Pool, w: World, i: nat)
    requires i in p.tInfo && i < |p.tokens| && p.total <= 0
    ensures Gain(p, w, i) == 0
  {
  }

  lemma PaidRange(p: Pool, w: World, payee: Payee, s: nat, j: nat, money: int, lock: int)
    requires Inv(p, w) && 0 <= lock && j in p.tInfo && CanWithdraw(p, payee, s, j, money)
    ensures j < |p.tokens| && 0 <= Paid(p, w, s, j, money, lock)
  {
  }

  lemma SameBalance(p: Pool, w: World, payee: Payee, s: nat, j: nat, money: int, lock: int)
    requires Inv(p, w) && 0 <= lock && CanWithdraw(p, payee, s, j, money) && payee.addr == p.local
    ensures Bal(p, Withdraw(p, w, payee, s, j, money, lock).1, j) == Bal(p, w, j)
  {
    hide Withdraw, Paid, Inv;
    PoolShape(p, w, j);
    WithdrawBalances(p, w, payee, s, j, money, lock, p.tokens[j], p.local);
  }

  lemma MovedLast(p: Pool, w: World, q: Pool, s: nat, touched: set<nat>, j: nat, d: int)
    requires Coherent(p) && j in p.tInfo && Moved(p, w, q, s, touched, false, j, d)
    ensures j in q.tInfo && j < |p.tokens| && Coherent(q)
    ensures q.tInfo[j].last == (if j in touched then Bal(p, w, j) else p.tInfo[j].last) + d
    ensures j < |q.tokens| && q.tokens[j] == p.tokens[j] && q.local == p.local
  {
    hide Credited, AccumNow, Stake;
  }

  lemma IdleTotal(p: Pool, j: nat)
    requires j < |p.tokens| && j !in Touched(p, j)
    ensures p.total <= 0
  {
  }

  lemma PoolShape(p: Pool, w: World, i: nat)
    requires Inv(p, w)
    ensures Coherent(p) && Distinct(p.tokens) && (i in p.tInfo <==> i < |p.tokens|)
  {
  }

  lemma MovedShape(p: Pool, w: World, q: Pool, s: nat, touched: set<nat>, restart: bool, j: nat, d: int)
    requires Coherent(p) && Moved(p, w, q, s, touched, restart, j, d)
    ensures Coherent(q) && q.tokens == p.tokens && q.local == p.local && q.tInfo.Keys == p.tInfo.Keys
  {
  }

  lemma SameToken(p: Pool, w: World, i: nat, j: nat)
    requires Inv(p, w) && i < |p.tokens| && j < |p.tokens|
    ensures p.tokens[i] == p.tokens[j] <==> i == j
  {
  }

  lemma NotAllTouched(p: Pool, j: nat, i: nat)
    requires i < |p.tokens| && i !in Touched(p, j)
    ensures Touched(p, j) != All(|p.tokens|)
  {
  }

  // A withdrawal leaves every other staker's reported balance alone, in every token, and
  // lowers the caller's own by exactly the amount paid, in the token paid. A payee registered
  // under the pool's own address turns the amount into a reward: it stays in the pool, and
  // every staker is then reported its part of it by stake.
  lemma WithdrawNonInterference(p: Pool, w: World, payee: Payee, s: nat, j: nat, money: int, lock: int, t: nat, i: nat)
    requires Inv(p, w) && 0 <= lock && i in p.tInfo && CanWithdraw(p, payee, s, j, money)
    ensures var (q, w', _) := Withdraw(p, w, payee, s, j, money, lock);
      var rw := Paid(p, w, s, j, money, lock);
      && i in q.tInfo && i < |q.tokens|
      && View(q, w', t, i) == View(p, w, t, i) - (if t == s && i == j then rw else 0)
                              + (if i == j && payee.addr == p.local && 0 < q.total then rw / q.total * Stake(q, t)
                                 else 0)
  {
    hide Withdraw, View, Paid, Inv, Stake;
    PoolShape(p, w, i);
    if i == j && payee.addr == p.local {
      PaidToItself(p, w, payee, s, j, money, lock, t);
    } else {
      PaidOut(p, w, payee, s, j, money, lock, t, i);
    }
  }

  // ---------- New tokens and the outside world ----------

  lemma AddTokenKeepsInv(p: Pool, w: World, caller: Address, taddr: Address, tokenIndex: nat)
    requires Inv(p, w) && taddr !in p.tokens && 0 <= BalanceOf(w, taddr, p.local)
    ensures Inv(AddToken(p, w, caller, taddr, tokenIndex).0, w)
    ensures caller == p.owner && tokenIndex == |p.tokens| ==>
      AddToken(p, w, caller, taddr, tokenIndex).1 == NoError
  {
    hide Stake, Claim, Covered, Gain, TotalStake;
    var (q, err) := AddToken(p, w, caller, taddr, tokenIndex);
    if err == NoError {
      var n := |p.tokens|;
      assert All(n + 1) == All(n) + {n};
      assert q.tInfo.Keys == p.tInfo.Keys + {n};
      StakesAfterAdd(p, q);
      AddTokenCovers(p, w, q, taddr);
    }
  }

  lemma AddTokenCovers(p: Pool, w: World, q: Pool, taddr: Address)
    requires Coherent(p) && Covered(p, w) && Coherent(q) && 0 <= BalanceOf(w, taddr, p.local)
    requires q.amount == p.amount && q.local == p.local && q.tokens == p.tokens + [taddr]
    requires q.tInfo == p.tInfo[|p.tokens| := RewardInfo(0, BalanceOf(w, taddr, p.local))]
    ensures Covered(q, w)
  {
    hide Stake, Claim, Gain, Owed;
    forall i | i in q.tInfo
      ensures Owed(q, i) <= q.tInfo[i].last <= Bal(q, w, i)
    {
      if i == |p.tokens| {
        NewTokenOwesNothing(q, i);
      } else {
        ClaimsAfterAdd(p, q, i);
      }
    }
  }

  lemma StakesAfterAdd(p: Pool, q: Pool)
    requires q.amount == p.amount
    ensures Stakers(q) == Stakers(p) && TotalStake(q) == TotalStake(p)
  {
    assert Stakers(q) == Stakers(p);
    SumAgree(Stakers(p), StakeOf(p), StakeOf(q));
  }

  lemma ClaimsAfterAdd(p: Pool, q: Pool, i: nat)
    requires q.amount == p.amount && i in p.tInfo && i in q.tInfo && q.tInfo[i] == p.tInfo[i]
    ensures Owed(q, i) == Owed(p, i)
  {
    assert Stakers(q) == Stakers(p);
    SumAgree(Stakers(p), SettledOf(p, i), SettledOf(q, i));
  }

  lemma NewTokenOwesNothing(q: Pool, n: nat)
    requires n in q.tInfo && q.tInfo[n].accum == 0
    requires forall k :: k in q.amount ==> k.token < n
    ensures Owed(q, n) == 0
  {
    SumZero(Stakers(q), SettledOf(q, n));
  }

  // Anything may happen outside as long as the pool's own balances do not fall.
  lemma OutsideKeepsInv(p: Pool, w: World, w': World)
    requires Inv(p, w)
    requires forall i :: i in p.tInfo ==> Bal(p, w, i) <= Bal(p, w', i)
    ensures Inv(p, w')
  {
  }

  lemma NewPoolInv(owner: Address, local: Address, ptoken: Address, w: World)
    requires 0 <= BalanceOf(w, ptoken, local)
    ensures Inv(NewPool(owner, local, ptoken, w), w)
  {
    var p := NewPool(owner, local, ptoken, w);
    assert All(1) == {0} by {
      assert forall i: nat :: i in All(1) <==> i < 1;
    }
    assert Stakers(p) == {};
    SumZero(Stakers(p), SettledOf(p, 0));
    SumZero(Stakers(p), StakeOf(p));
  }
}
