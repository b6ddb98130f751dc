// What the pledge pool tells and does to the outside: the reported balances of a staker, token
// by token, and who pays and who is paid.
module PoolReports {
  import opened Types
  import opened Sums
  import opened Erc
  import opened Pool
  import opened PoolOps
  import opened PoolRuns
  import opened LazyEager
  import E = Eager

  // What GetBalance reports to s for token i, 0 when it reports nothing.
  function ReportFor(p: Pool, w: World, s: nat, i: nat): int
    requires Coherent(p)
  {
    var r := GetBalance(p, w, s);
    if r.Balances? && i < |r.vals| then r.vals[i] else 0
  }

  lemma ReportIsView(p: Pool, w: World, s: nat)
    requires Coherent(p)
    ensures var r := GetBalance(p, w, s);
      && (r.NoBalances? <==> MultiKey(s, 0) !in p.amount)
      && (r.Balances? ==>
            && |r.vals| == |p.tokens|
            && forall i: nat :: i < |p.tokens| ==> i in p.tInfo && r.vals[i] == View(p, w, s, i))
  {
    hide View;
    assert forall i: nat :: i < |p.tokens| ==> i in p.tInfo;
  }

  // ---------- Over runs ----------

  // Some successful call of the run is a pledge of s.
  ghost predicate EverPledged(y: Sys, ops: seq<Op>, s: nat)
    requires Good(y) && AllowedRun(y, ops)
    decreases |ops|
  {
    ops != [] &&
    (PledgesNow(y, ops[0], s) || (StepKeepsGood(y, ops[0]); EverPledged(Step(y, ops[0]), ops[1..], s)))
  }

  ghost predicate PledgesNow(y: Sys, op: Op, s: nat)
    requires Coherent(y.p)
  {
    op.OpPledge? && op.s == s && Pledge(y.p, y.w, y.p.owner, op.addr, s, op.money).2 == NoError
  }

  lemma StepEntries(y: Sys, op: Op, s: nat)
    requires Good(y) && Allowed(y, op)
    ensures MultiKey(s, 0) in Step(y, op).p.amount <==> MultiKey(s, 0) in y.p.amount || PledgesNow(y, op, s)
  {
    hide Inv, Moved, Pledge, Withdraw, CanWithdraw, Touched, Paid, Settle, Book, View, Stake;
    InvShape(y.p, y.w);
    match op
    case OpPledge(addr, r, money) =>
      if Pledge(y.p, y.w, y.p.owner, addr, r, money).2 == NoError {
        PledgeMoves(y.p, y.w, y.p.owner, addr, r, money);
        MovedEntries(y.p, y.w, Step(y, op).p, r, All(|y.p.tokens|), true, 0, money, s);
      }
    case OpWithdraw(payee, r, j, money, lock) =>
      if CanWithdraw(y.p, payee, r, j, money) {
        WithdrawResult(y.p, y.w, payee, r, j, money, lock);
        WithdrawMoves(y.p, y.w, payee, r, j, money, lock);
        PaysStaker(y.p, payee, r, j, money);
        MovedEntries(y.p, y.w, Step(y, op).p, r, Touched(y.p, j), false, j, -Paid(y.p, y.w, r, j, money, lock), s);
      } else {
        WithdrawRefused(y.p, y.w, payee, r, j, money, lock);
      }
    case OpAddToken(_) =>
    case OpOutside(_) =>
  }

  lemma MovedEntries(p: Pool, w: World, q: Pool, r: nat, touched: set<nat>, restart: bool, j: nat, d: int, s: nat)
    requires Coherent(p) && Moved(p, w, q, r, touched, restart, j, d)
    ensures MultiKey(s, 0) in q.amount <==> MultiKey(s, 0) in p.amount || (s == r && 0 in touched)
  {
    hide Moved;
    SameKeys(p, w, q, r, touched, restart, j, d);
    KeysMember(r, touched, MultiKey(s, 0));
  }

  lemma {:induction false} RunEntries(y: Sys, ops: seq<Op>, s: nat)
    requires Good(y) && AllowedRun(y, ops)
    ensures MultiKey(s, 0) in Run(y, ops).p.amount <==> MultiKey(s, 0) in y.p.amount || EverPledged(y, ops, s)
    decreases |ops|
  {
    hide Good, Step, PledgesNow;
    if ops == [] {
    } else {
      StepKeepsGood(y, ops[0]);
      GoodShape(y);
      StepEntries(y, ops[0], s);
      RunEntries(Step(y, ops[0]), ops[1..], s);
    }
  }

  lemma GoodShape(y: Sys)
    requires Good(y)
    ensures Coherent(y.p)
  {
  }

  // From the creation of the pool, over every run: whoever never pledged is reported nothing,
  // and everybody else one amount for every token, which is what the naive ledger credited for
  // that token, brought up to date, less what was given up.
  lemma ReportsAreCredits(owner: Address, local: Address, ptoken: Address, w: World, ops: seq<Op>, s: nat)
    requires Good(Sys(NewPool(owner, local, ptoken, w), w))
    requires AllowedRun(Sys(NewPool(owner, local, ptoken, w), w), ops)
    ensures var y := Sys(NewPool(owner, local, ptoken, w), w);
      var e := EagerRun(y, E.New(BalanceOf(w, ptoken, local)), ops);
      var z := Run(y, ops);
      var now := E.Update(e, All(|z.p.tokens|), Bals(z.p, z.w));
      var r := GetBalance(z.p, z.w, s);
      && (r.Balances? <==> EverPledged(y, ops, s))
      && (r.Balances? ==>
            && |r.vals| == |z.p.tokens|
            && forall i: nat :: i < |z.p.tokens| ==> r.vals[i] == E.Net(now, MultiKey(s, i)))
  {
    hide *;
    var y := Sys(NewPool(owner, local, ptoken, w), w);
    var e0 := E.New(BalanceOf(w, ptoken, local));
    NewCredits(owner, local, ptoken, w);
    RunSame(y, e0, ops);
    RunEntries(y, ops, s);
    var z := Run(y, ops);
    GoodShape(z);
    ReportsMatch(z.p, z.w, EagerRun(y, e0, ops), s);
  }

  lemma NewCredits(owner: Address, local: Address, ptoken: Address, w: World)
    requires Good(Sys(NewPool(owner, local, ptoken, w), w))
    ensures Coherent(NewPool(owner, local, ptoken, w))
    ensures Same(NewPool(owner, local, ptoken, w), E.New(BalanceOf(w, ptoken, local)))
    ensures forall s: nat :: MultiKey(s, 0) !in NewPool(owner, local, ptoken, w).amount
  {
    hide Same;
    NewSame(Sys(NewPool(owner, local, ptoken, w), w), E.New(BalanceOf(w, ptoken, local)));
  }

  // In any state that equals a naive ledger.
  lemma ReportsMatch(p: Pool, w: World, e: E.Eager, s: nat)
    requires Coherent(p) && Same(p, e)
    ensures var now := E.Update(e, All(|p.tokens|), Bals(p, w));
      var r := GetBalance(p, w, s);
      && (r.Balances? <==> MultiKey(s, 0) in p.amount)
      && (r.Balances? ==>
            && |r.vals| == |p.tokens|
            && forall i: nat :: i < |p.tokens| ==> r.vals[i] == E.Net(now, MultiKey(s, i)))
  {
    hide E.Update, E.Net, View, Same, GetBalance, Bals;
    ReportIsView(p, w, s);
    forall i: nat | i < |p.tokens|
      ensures i in p.tInfo && View(p, w, s, i) == E.Net(E.Update(e, All(|p.tokens|), Bals(p, w)), MultiKey(s, i))
    {
      UpdateMatchesView(p, w, e, All(|p.tokens|), s, i);
    }
  }

  // ---------- Reports are covered and paid ----------

  ghost function ReportIn(p: Pool, w: World, i: nat): nat -> int
    requires Coherent(p)
  {
    (s: nat) => ReportFor(p, w, s, i)
  }

  // Whatever stakers are asked for, what GetBalance reports to them for a token is together no
  // more than the pool holds in it.
  lemma ReportsAreCovered(p: Pool, w: World, ss: set<nat>, i: nat)
    requires Inv(p, w) && i < |p.tokens|
    ensures Coherent(p)
    ensures 0 <= Sum(ss, ReportIn(p, w, i)) <= Bal(p, w, i)
  {
    hide Inv, View, Bal, GetBalance, ReportFor;
    PoolShape(p, w, i);
    Solvent(p, w, i);
    forall s: nat
      ensures ReportFor(p, w, s, i) == if s in Stakers(p) then View(p, w, s, i) else 0
      ensures 0 <= ReportFor(p, w, s, i)
    {
      ReportOf(p, w, s, i);
      StakerEntry(p, s);
      NothingNegative(p, w, s, i);
    }
    SumAgree(Stakers(p), ReportIn(p, w, i), ViewOf(p, w, i));
    SumWithin(ss, Stakers(p), ReportIn(p, w, i));
  }

  lemma ReportOf(p: Pool, w: World, s: nat, i: nat)
    requires Coherent(p) && i < |p.tokens|
    ensures i in p.tInfo
    ensures ReportFor(p, w, s, i) == if MultiKey(s, 0) in p.amount then View(p, w, s, i) else 0
  {
    hide View, GetBalance;
    ReportIsView(p, w, s);
  }

  lemma StakerEntry(p: Pool, s: nat)
    ensures s in Stakers(p) <==> MultiKey(s, 0) in p.amount
  {
  }

  lemma NothingNegative(p: Pool, w: World, s: nat, i: nat)
    requires Inv(p, w) && i < |p.tokens|
    ensures i in p.tInfo && (s in Stakers(p) ==> 0 <= View(p, w, s, i))
  {
    hide View, Bal, Entries, Covered;
    Solvent(p, w, i);
  }

  // Where f is 0 outside of b and nowhere negative, no sum exceeds the one over b.
  lemma SumWithin(a: set<nat>, b: set<nat>, f: nat -> int)
    requires forall s: nat :: 0 <= f(s) && (s !in b ==> f(s) == 0)
    ensures 0 <= Sum(a, f) <= Sum(b, f)
  {
    SumNonNegative(a, f);
    SumNonNegative(b - a, f);
    SumZero(a - b, f);
    SumParts(a - b, a * b, f);
    SumParts(b - a, a * b, f);
    assert a - b + a * b == a && b - a + a * b == b;
  }

  lemma {:induction false} SumParts(a: set<nat>, b: set<nat>, f: nat -> int)
    requires a !! b
    ensures Sum(a + b, f) == Sum(a, f) + Sum(b, f)
    decreases |a|
  {
    if a == {} {
      assert a + b == b;
    } else {
      var s :| s in a;
      SumRemove(a, f, s);
      SumRemove(a + b, f, s);
      assert a + b - {s} == (a - {s}) + b;
      SumParts(a - {s}, b, f);
    }
  }

  // A withdrawal of everything in token j pays what GetBalance reports for j, less the lock in
  // token 0, and afterwards just the lock is left in the report, or what was reported when
  // that is less.
  lemma WithdrawPaysReport(p: Pool, w: World, payee: Payee, s: nat, j: nat, lock: int, t: Address, a: Address)
    requires Inv(p, w) && 0 <= lock && payee.Payee? && payee.addr != p.local
    requires Coherent(p) && GetBalance(p, w, s).Balances? && j < |p.tokens|
    ensures var (q, w', err) := Withdraw(p, w, payee, s, j, 0, lock);
      var kept := if j == 0 then Min(lock, GetBalance(p, w, s).vals[j]) else 0;
      var paid := GetBalance(p, w, s).vals[j] - kept;
      && 0 <= paid
      && BalanceOf(w', t, a) == BalanceOf(w, t, a)
           + (if t == p.tokens[j] && a == payee.addr then paid else 0)
           - (if t == p.tokens[j] && a == p.local then paid else 0)
      && Coherent(q) && ReportFor(q, w', s, j) == kept
  {
    hide Withdraw, View, Inv, GetBalance, CanWithdraw, Paid, ReportFor;
    PoolShape(p, w, j);
    ReportIsView(p, w, s);
    StakerEntry(p, s);
    NothingNegative(p, w, s, j);
    WithdrawPaysView(p, w, payee, s, j, 0, lock);
    ReportAfter(p, w, payee, s, j, lock);
  }

  lemma ReportAfter(p: Pool, w: World, payee: Payee, s: nat, j: nat, lock: int)
    requires Inv(p, w) && 0 <= lock && payee.Payee? && payee.addr != p.local
    requires MultiKey(s, 0) in p.amount && j < |p.tokens| && j in p.tInfo && 0 <= View(p, w, s, j)
    ensures var (q, w', err) := Withdraw(p, w, payee, s, j, 0, lock);
      Coherent(q) && ReportFor(q, w', s, j) == if j == 0 then Min(lock, View(p, w, s, j)) else 0
  {
    hide Withdraw, View, Inv, GetBalance, ReportFor, Moved, Touched;
    PoolShape(p, w, j);
    var (q, w', err) := Withdraw(p, w, payee, s, j, 0, lock);
    if CanWithdraw(p, payee, s, j, 0) {
      WithdrawMoves(p, w, payee, s, j, 0, lock);
      MovedShape(p, w, q, s, Touched(p, j), false, j, -Paid(p, w, s, j, 0, lock));
      PaidOut(p, w, payee, s, j, 0, lock, s, j);
      MovedEntries(p, w, q, s, Touched(p, j), false, j, -Paid(p, w, s, j, 0, lock), s);
    } else {
      WithdrawRefused(p, w, payee, s, j, 0, lock);
      IdleView(p, w, s, j);
    }
    ReportOf(q, w', s, j);
  }

  // ---------- Who pays, and who may call ----------

  // A pledge succeeds exactly when the owner calls and the pool may take the money from addr in
  // the main token. Then the money, and that much of the allowance, leaves addr, and no other
  // account changes; otherwise no ledger does.
  lemma PledgePays(p: Pool, w: World, caller: Address, addr: Address, s: nat, money: int, t: Address, a: Address)
    requires Coherent(p)
    ensures var (_, w', err) := Pledge(p, w, caller, addr, s, money);
      && (err == NoError <==> caller == p.owner && CanTake(w, p.tokens[0], p.local, addr, money))
      && err == (if caller != p.owner then ErrPermission else if money < 0 then ErrRes
                 else TakeError(w, p.tokens[0], p.local, addr, money))
      && (err != NoError ==> w' == w)
      && (err == NoError ==>
            && BalanceOf(w', t, a) == BalanceOf(w, t, a)
                 - (if t == p.tokens[0] && a == addr then money else 0)
                 + (if t == p.tokens[0] && a == p.local then money else 0)
            && AllowanceOf(w', p.tokens[0], addr, p.local) == AllowanceOf(w, p.tokens[0], addr, p.local) - money)
  {
    hide Settle, Book, SendFrom, CanTake, TakeError;
    SendFromSucceeds(w, p.tokens[0], p.local, addr, p.local, money);
    SendFromEffect(w, p.tokens[0], p.local, addr, p.local, money, t, a);
    NoDebtTaken(w, p.tokens[0], p.local, addr, money);
  }

  lemma NoDebtTaken(w: World, t: Address, spender: Address, from: Address, money: int)
    ensures CanTake(w, t, spender, from, money) ==> 0 <= money
  {
  }

  // Only the owner adds a token, under the next index. Every report then ends with 0 for the new
  // token and is otherwise the one of before, whatever the pool owned of the token already.
  lemma AddTokenReports(p: Pool, w: World, caller: Address, taddr: Address, tokenIndex: nat, s: nat)
    requires Coherent(p)
    ensures var (q, err) := AddToken(p, w, caller, taddr, tokenIndex);
      && err == (if caller != p.owner then ErrPermission else if tokenIndex != |p.tokens| then ErrInput else NoError)
      && (err != NoError ==> q == p)
      && (err == NoError ==>
            && Coherent(q) && q.tokens == p.tokens + [taddr]
            && GetBalance(q, w, s).Balances? == GetBalance(p, w, s).Balances?
            && (GetBalance(p, w, s).Balances? ==> GetBalance(q, w, s).vals == GetBalance(p, w, s).vals + [0]))
  {
    hide View, GetBalance;
    var (q, err) := AddToken(p, w, caller, taddr, tokenIndex);
    if err == NoError {
      assert All(|p.tokens| + 1) == All(|p.tokens|) + {|p.tokens|};
      ReportIsView(p, w, s);
      ReportIsView(q, w, s);
      if MultiKey(s, 0) in p.amount {
        forall i: nat | i < |q.tokens|
          ensures i in q.tInfo && View(q, w, s, i) == if i < |p.tokens| then View(p, w, s, i) else 0
        {
          AddedView(p, w, q, taddr, s, i);
        }
        assert GetBalance(q, w, s).vals == GetBalance(p, w, s).vals + [0];
      }
    }
  }

  lemma AddedView(p: Pool, w: World, q: Pool, taddr: Address, s: nat, i: nat)
    requires Coherent(p) && i <= |p.tokens|
    requires q == p.(tInfo := p.tInfo[|p.tokens| := RewardInfo(0, BalanceOf(w, taddr, p.local))],
                     tokens := p.tokens + [taddr], token := |p.tokens| + 1)
    ensures i in q.tInfo && View(q, w, s, i) == if i < |p.tokens| then View(p, w, s, i) else 0
  {
    assert i < |p.tokens| ==> i in p.tInfo;
    if i == |p.tokens| {
      assert MultiKey(s, i) !in p.amount;
      assert 0 * Stake(q, s) == 0;
    }
  }
}
