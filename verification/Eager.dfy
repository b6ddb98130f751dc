// The naive ledger that the pledge pool stands for: it has no accumulators and no snapshots,
// and at every update of a token it credits every staker on the spot.
module Eager {
  import opened Types
  import opened Sums
  import Pool

  // credit is everything a staker was ever given less what was paid out; lost is the part a
  // staker gave up by pledging without an entry for the token (see Pledge); entered lists
  // the entries; seen is the balance at the last update of a token.
  datatype Eager = Eager(
    n: nat,
    stake: map<nat, int>,
    credit: MultiKey -> int,
    lost: MultiKey -> int,
    entered: set<MultiKey>,
    seen: map<nat, int>)

  ghost function New(bal: int): Eager {
    Eager(1, map[], _ => 0, _ => 0, {}, map[0 := bal])
  }

  ghost function StakeIn(e: Eager): nat -> int {
    (t: nat) => Get(e.stake, t)
  }

  ghost function Staked(e: Eager): int {
    Sum(e.stake.Keys, StakeIn(e))
  }

  ghost function Gain(e: Eager, i: nat, bal: int): int {
    var g := bal - Get(e.seen, i);
    if 0 < g && 0 < Staked(e) then g / Staked(e) else 0
  }

  // Credit every staker for the new money of every touched token.
  ghost function Update(e: Eager, touched: set<nat>, bals: nat -> int): Eager {
    e.(credit := (k: MultiKey) =>
         e.credit(k) + (if k.token in touched then Gain(e, k.token, bals(k.token)) * Get(e.stake, k.role) else 0),
       seen := map i | i in e.seen :: if i in touched then bals(i) else e.seen[i])
  }

  ghost function Net(e: Eager, k: MultiKey): int {
    e.credit(k) - e.lost(k)
  }

  // The credit of s in token j moves by d, and the stake of s becomes its token-0 credit.
  ghost function Adjust(e: Eager, s: nat, j: nat, d: int, compound: bool): Eager {
    var u := e.(credit := (k: MultiKey) => e.credit(k) + (if k == MultiKey(s, j) then d else 0),
                seen := e.seen[j := Get(e.seen, j) + d]);
    if compound then u.(stake := u.stake[s := Net(u, MultiKey(s, 0))]) else u
  }

  // Entries for the touched tokens. Restarting one that is missing gives up its credit.
  ghost function Enter(e: Eager, u: Eager, s: nat, touched: set<nat>, restart: bool): Eager {
    u.(entered := e.entered + Pool.Keys(s, touched),
       lost := (k: MultiKey) =>
         e.lost(k) + (if restart && k.role == s && k.token in touched && k !in e.entered then Net(e, k) else 0))
  }

  ghost function Move(e: Eager, bals: nat -> int, s: nat, touched: set<nat>, restart: bool, j: nat, d: int,
                      compound: bool): Eager {
    Adjust(Enter(e, Update(e, touched, bals), s, touched, restart), s, j, d, compound)
  }

  // A successful pledge.
  ghost function Pledge(e: Eager, bals: nat -> int, s: nat, money: int): Eager {
    Move(e, bals, s, Pool.All(e.n), true, 0, money, true)
  }

  ghost function Touched(e: Eager, j: nat): set<nat> {
    if Staked(e) <= 0 then {} else if j == 0 then Pool.All(e.n) else if j < e.n then {j} else {}
  }

  ghost predicate CanWithdraw(e: Eager, payee: Pool.Payee, s: nat, j: nat, money: int) {
    && 0 <= money && payee.Payee?
    && s in e.stake && j < e.n
    && (MultiKey(s, j) in e.entered || 0 < Staked(e))
  }

  // What the naive ledger pays out.
  ghost function Payout(e: Eager, bals: nat -> int, s: nat, j: nat, money: int, lock: int): int {
    Max(0, Pool.Payable(Net(Update(e, Touched(e, j), bals), MultiKey(s, j)), j, money, lock))
  }

  ghost function Withdraw(e: Eager, bals: nat -> int, s: nat, j: nat, money: int, lock: int): Eager {
    Move(e, bals, s, Touched(e, j), false, j, -Payout(e, bals, s, j, money, lock), j == 0)
  }

  ghost function AddToken(e: Eager, bal: int): Eager {
    e.(n := e.n + 1, seen := e.seen[e.n := bal])
  }
}

// Lazy equals eager, over every run of the pool.
module LazyEager {
  import opened Types
  import opened Sums
  import opened Erc
  import opened Pool
  import opened PoolOps
  import opened PoolRuns
  import E = Eager

  ghost function Bals(p: Pool, w: World): nat -> int {
    (i: nat) => if i < |p.tokens| then Bal(p, w, i) else 0
  }

  // The naive ledger learns from the outside only the token balances and whether a pledge
  // was paid for; payouts it computes from its own credits.
  ghost function EagerStep(y: Sys, e: E.Eager, op: Op): E.Eager
    requires Coherent(y.p)
  {
    var bals := Bals(y.p, y.w);
    match op
    case OpPledge(addr, s, money) =>
      if Pledge(y.p, y.w, y.p.owner, addr, s, money).2 == NoError then E.Pledge(e, bals, s, money) else e
    case OpWithdraw(payee, s, j, money, lock) =>
      if E.CanWithdraw(e, payee, s, j, money) then E.Withdraw(e, bals, s, j, money, lock) else e
    case OpAddToken(taddr) => E.AddToken(e, BalanceOf(y.w, taddr, y.p.local))
    case OpOutside(_) => e
  }

  ghost function EagerRun(y: Sys, e: E.Eager, ops: seq<Op>): E.Eager
    requires Good(y) && AllowedRun(y, ops)
    decreases |ops|
  {
    if ops == [] then e
    else
      StepKeepsGood(y, ops[0]);
      EagerRun(Step(y, ops[0]), EagerStep(y, e, ops[0]), ops[1..])
  }

  ghost predicate SameStakes(p: Pool, e: E.Eager) {
    && e.stake.Keys == Stakers(p)
    && (forall t :: t in e.stake ==> e.stake[t] == Stake(p, t))
  }

  ghost predicate SameCredits(p: Pool, e: E.Eager)
    requires Coherent(p)
  {
    && (forall t: nat, i: nat :: i in p.tInfo ==> E.Net(e, MultiKey(t, i)) == Settled(p, t, i))
    && (forall t: nat, i: nat :: i !in p.tInfo ==> e.credit(MultiKey(t, i)) == 0 && e.lost(MultiKey(t, i)) == 0)
  }

  ghost predicate Same(p: Pool, e: E.Eager)
    requires Coherent(p)
  {
    && e.n == |p.tokens|
    && SameStakes(p, e)
    && SameCredits(p, e)
    && e.entered == p.amount.Keys
    && e.seen.Keys == p.tInfo.Keys
    && (forall i :: i in p.tInfo ==> e.seen[i] == p.tInfo[i].last)
    && p.total == E.Staked(e)
  }

  lemma StakedIsTotal(p: Pool, e: E.Eager)
    requires SameStakes(p, e)
    ensures E.Staked(e) == TotalStake(p)
  {
    SumAgree(e.stake.Keys, E.StakeIn(e), StakeOf(p));
  }

  lemma GainsAgree(p: Pool, w: World, e: E.Eager, i: nat)
    requires Coherent(p) && Same(p, e) && i in p.tInfo
    ensures E.Gain(e, i, Bals(p, w)(i)) == Gain(p, w, i)
  {
    hide SameStakes, SameCredits, E.Staked;
  }

  lemma StakesAgree(p: Pool, e: E.Eager, t: nat)
    requires SameStakes(p, e)
    ensures Get(e.stake, t) == Stake(p, t)
  {
    assert t in Stakers(p) <==> MultiKey(t, 0) in p.amount;
  }

  // One update credits every staker exactly what the accumulator promises.
  lemma UpdateMatchesView(p: Pool, w: World, e: E.Eager, touched: set<nat>, t: nat, i: nat)
    requires Coherent(p) && Same(p, e) && i in p.tInfo
    ensures E.Net(E.Update(e, touched, Bals(p, w)), MultiKey(t, i))
         == if i in touched then View(p, w, t, i) else Settled(p, t, i)
  {
    hide Claim, Gain, E.Gain, Bals;
    StakesAgree(p, e, t);
    GainsAgree(p, w, e, i);
    ClaimIsLinear(p, t, i, p.tInfo[i].accum, Gain(p, w, i));
  }

  lemma MoveCredits(p: Pool, w: World, q: Pool, e: E.Eager, s: nat, touched: set<nat>, restart: bool,
                    j: nat, d: int, compound: bool, t: nat, i: nat)
    requires Coherent(p) && Same(p, e) && i in p.tInfo
    requires TouchOk(p, s, j, d, touched) && Moved(p, w, q, s, touched, restart, j, d)
    ensures E.Net(E.Move(e, Bals(p, w), s, touched, restart, j, d, compound), MultiKey(t, i)) == Settled(q, t, i)
  {
    hide Claim, Gain, E.Update, Bals, SameStakes, Moved, View;
    var k := MultiKey(t, i);
    UpdateMatchesView(p, w, e, touched, t, i);
    ClaimsAfter(p, w, q, s, touched, restart, j, d, t, i);
    UpdateKeepsLost(e, touched, Bals(p, w), k);
    MissingEntry(p, t, i);
    assert E.Net(e, k) == Settled(p, t, i);
  }

  lemma UpdateKeepsLost(e: E.Eager, touched: set<nat>, bals: nat -> int, k: MultiKey)
    ensures E.Update(e, touched, bals).lost(k) == e.lost(k)
  {
  }

  lemma MissingEntry(p: Pool, t: nat, i: nat)
    requires i in p.tInfo
    ensures MultiKey(t, i) !in p.amount ==> Settled(p, t, i) == Forfeit(p, t, i, true)
  {
  }

  // Tokens that are not registered have no credits.
  lemma MoveBeyond(e: E.Eager, bals: nat -> int, s: nat, touched: set<nat>, restart: bool,
                   j: nat, d: int, compound: bool, k: MultiKey)
    requires k.token !in touched && k.token != j
    ensures var e' := E.Move(e, bals, s, touched, restart, j, d, compound);
      e'.credit(k) == e.credit(k) && e'.lost(k) == e.lost(k)
  {
  }

  lemma SettledStakeClaim(q: Pool, s: nat)
    requires Coherent(q) && MultiKey(s, 0) in q.amount
    requires q.amount[MultiKey(s, 0)].accum == q.tInfo[0].accum || Stake(q, s) == 0
    ensures Settled(q, s, 0) == Stake(q, s)
  {
    assert (q.tInfo[0].accum - q.amount[MultiKey(s, 0)].accum) * Stake(q, s) == 0;
  }

  // Everything of a move but the credits.
  lemma MoveShape(e: E.Eager, bals: nat -> int, s: nat, touched: set<nat>, restart: bool, j: nat, d: int,
                  compound: bool)
    ensures var e' := E.Move(e, bals, s, touched, restart, j, d, compound);
      && e'.n == e.n
      && e'.entered == e.entered + Keys(s, touched)
      && (j in e.seen ==> e'.seen.Keys == e.seen.Keys)
      && (forall i :: i in e.seen ==>
            i in e'.seen && e'.seen[i] == (if i in touched then bals(i) else e.seen[i]) + if i == j then d else 0)
      && e'.stake == if compound then e.stake[s := E.Net(e', MultiKey(s, 0))] else e.stake
  {
    var u := E.Update(e, touched, bals);
    assert u.seen.Keys == e.seen.Keys;
  }

  lemma MoveStakes(p: Pool, w: World, q: Pool, e: E.Eager, s: nat, touched: set<nat>, restart: bool,
                   j: nat, d: int, compound: bool)
    requires Coherent(p) && Same(p, e)
    requires TouchOk(p, s, j, d, touched) && Moved(p, w, q, s, touched, restart, j, d)
    requires compound ==> 0 in touched || Stake(q, s) == 0
    requires !compound ==> touched != All(|p.tokens|)
    ensures SameStakes(q, E.Move(e, Bals(p, w), s, touched, restart, j, d, compound))
  {
    hide Moved, Bals, SameCredits, E.Net, E.Move, E.Staked, Settled, Stake, Stakers, TouchOk;
    StakersAfter(p, w, q, s, touched, restart, j, d);
    MoveShape(e, Bals(p, w), s, touched, restart, j, d, compound);
    if compound {
      MoveCredits(p, w, q, e, s, touched, restart, j, d, true, s, 0);
      CompoundStake(p, w, q, s, touched, restart, j, d);
    } else {
      StakeUnmoved(p, w, q, s, touched, restart, j, d, s);
      OldStaker(p, w, q, s, touched, restart, j, d);
    }
  }

  lemma CompoundStake(p: Pool, w: World, q: Pool, s: nat, touched: set<nat>, restart: bool, j: nat, d: int)
    requires Coherent(p) && Moved(p, w, q, s, touched, restart, j, d)
    requires 0 in touched || Stake(q, s) == 0
    ensures Settled(q, s, 0) == Stake(q, s)
  {
    hide AccumNow, Bal, Credited, Settled, Stake;
    SettledStakeClaim(q, s);
  }

  lemma OldStaker(p: Pool, w: World, q: Pool, s: nat, touched: set<nat>, restart: bool, j: nat, d: int)
    requires Coherent(p) && Moved(p, w, q, s, touched, restart, j, d)
    requires TouchOk(p, s, j, d, touched) && touched != All(|p.tokens|)
    ensures s in Stakers(p)
  {
    hide AccumNow, Bal, Credited, Stake;
    assert MultiKey(s, 0) in p.amount;
  }

  lemma MoveRest(p: Pool, w: World, q: Pool, e: E.Eager, s: nat, touched: set<nat>, restart: bool,
                 j: nat, d: int, compound: bool)
    requires Coherent(p) && Same(p, e) && j in p.tInfo
    requires TouchOk(p, s, j, d, touched) && Moved(p, w, q, s, touched, restart, j, d)
    ensures var e' := E.Move(e, Bals(p, w), s, touched, restart, j, d, compound);
      && e'.n == |q.tokens|
      && e'.entered == q.amount.Keys
      && e'.seen.Keys == q.tInfo.Keys
      && (forall i :: i in q.tInfo ==> e'.seen[i] == q.tInfo[i].last)
  {
    hide Stake, SameStakes, SameCredits, Credited, AccumNow, Bal, E.Move, E.Staked;
    MoveShape(e, Bals(p, w), s, touched, restart, j, d, compound);
    SameKeys(p, w, q, s, touched, restart, j, d);
  }

  lemma SameKeys(p: Pool, w: World, q: Pool, s: nat, touched: set<nat>, restart: bool, j: nat, d: int)
    requires Coherent(p) && Moved(p, w, q, s, touched, restart, j, d)
    ensures q.amount.Keys == p.amount.Keys + Keys(s, touched)
  {
    hide AccumNow, Bal, Credited, Stake;
    forall k: MultiKey
      ensures k in q.amount.Keys <==> k in p.amount.Keys + Keys(s, touched)
    {
      KeysMember(s, touched, k);
    }
  }

  // The simulation step: what Moved says of the pool, Move does to the naive ledger.
  lemma MoveSame(p: Pool, w: World, q: Pool, e: E.Eager, s: nat, touched: set<nat>, restart: bool,
                 j: nat, d: int, compound: bool)
    requires Coherent(p) && Same(p, e) && p.total == TotalStake(p)
    requires TouchOk(p, s, j, d, touched) && Moved(p, w, q, s, touched, restart, j, d)
    requires compound ==> 0 in touched || Stake(q, s) == 0
    requires !compound ==> touched != All(|p.tokens|)
    requires j in p.tInfo
    ensures Same(q, E.Move(e, Bals(p, w), s, touched, restart, j, d, compound))
  {
    hide SameStakes, SameCredits, Moved, TouchOk, Stake, E.Move, E.Staked, TotalStake, Bals, Keys, All;
    var e' := E.Move(e, Bals(p, w), s, touched, restart, j, d, compound);
    MovedShape(p, w, q, s, touched, restart, j, d);
    MoveStakes(p, w, q, e, s, touched, restart, j, d, compound);
    MoveRest(p, w, q, e, s, touched, restart, j, d, compound);
    StakedIsTotal(q, e');
    TotalAfter(p, w, q, s, touched, restart, j, d);
    MoveAllCredits(p, w, q, e, s, touched, restart, j, d, compound);
  }

  lemma MoveAllCredits(p: Pool, w: World, q: Pool, e: E.Eager, s: nat, touched: set<nat>, restart: bool,
                       j: nat, d: int, compound: bool)
    requires Coherent(p) && Same(p, e) && j in p.tInfo
    requires TouchOk(p, s, j, d, touched) && Moved(p, w, q, s, touched, restart, j, d)
    ensures Coherent(q) && SameCredits(q, E.Move(e, Bals(p, w), s, touched, restart, j, d, compound))
  {
    hide Moved, Stake, SameStakes, E.Net, E.Move, E.Staked, Settled, Bals;
    var e' := E.Move(e, Bals(p, w), s, touched, restart, j, d, compound);
    MovedShape(p, w, q, s, touched, restart, j, d);
    forall t: nat, i: nat
      ensures i in p.tInfo ==> E.Net(e', MultiKey(t, i)) == Settled(q, t, i)
      ensures i !in p.tInfo ==> e'.credit(MultiKey(t, i)) == 0 && e'.lost(MultiKey(t, i)) == 0
    {
      if i in p.tInfo {
        MoveCredits(p, w, q, e, s, touched, restart, j, d, compound, t, i);
      } else {
        MoveBeyond(e, Bals(p, w), s, touched, restart, j, d, compound, MultiKey(t, i));
      }
    }
  }

  // ---------- The operations ----------

  lemma PledgeSame(y: Sys, e: E.Eager, op: Op)
    requires Good(y) && op.OpPledge? && Same(y.p, e)
    ensures Coherent(Step(y, op).p) && Same(Step(y, op).p, EagerStep(y, e, op))
  {
    hide E.Move, Moved, Settle, Book, Entries, Covered, Same;
    var OpPledge(addr, s, money) := op;
    PledgeKeepsGood(y, addr, s, money);
    if Pledge(y.p, y.w, y.p.owner, addr, s, money).2 == NoError {
      PledgeMoves(y.p, y.w, y.p.owner, addr, s, money);
      assert e.n == |y.p.tokens| by { SameCount(y.p, e); }
      MoveSame(y.p, y.w, Step(y, op).p, e, s, All(|y.p.tokens|), true, 0, money, true);
    }
  }

  lemma SameCount(p: Pool, e: E.Eager)
    requires Coherent(p) && Same(p, e)
    ensures e.n == |p.tokens| && p.total == E.Staked(e)
    ensures forall s: nat :: s in e.stake <==> MultiKey(s, 0) in p.amount
    ensures e.entered == p.amount.Keys
  {
    forall s: nat
      ensures s in e.stake <==> MultiKey(s, 0) in p.amount
    {
      assert s in Stakers(p) <==> MultiKey(s, 0) in p.amount;
    }
  }

  // The naive ledger decides and pays withdrawals exactly as the pool does.
  lemma SamePayout(p: Pool, w: World, e: E.Eager, payee: Payee, s: nat, j: nat, money: int, lock: int)
    requires Inv(p, w) && Same(p, e)
    ensures E.CanWithdraw(e, payee, s, j, money) == CanWithdraw(p, payee, s, j, money)
    ensures E.Touched(e, j) == Touched(p, j)
    ensures CanWithdraw(p, payee, s, j, money) ==>
      E.Payout(e, Bals(p, w), s, j, money, lock) == Paid(p, w, s, j, money, lock)
  {
    hide Entries, Covered, Same, E.Update, View, E.Net, Bals, Settled;
    SameCount(p, e);
    if CanWithdraw(p, payee, s, j, money) {
      UpdateMatchesView(p, w, e, Touched(p, j), s, j);
      if p.total <= 0 {
        IdleView(p, w, s, j);
        NoTotalNoStake(p, w, s);
        IdleSettled(p, s, j);
      }
    }
  }

  lemma IdleSettled(p: Pool, s: nat, j: nat)
    requires Coherent(p) && j in p.tInfo && Stake(p, s) == 0
    ensures Settled(p, s, j) == if MultiKey(s, j) in p.amount then p.amount[MultiKey(s, j)].last else 0
  {
  }

  lemma WithdrawSame(y: Sys, e: E.Eager, op: Op)
    requires Good(y) && op.OpWithdraw? && Same(y.p, e) && Allowed(y, op)
    ensures Coherent(Step(y, op).p) && Same(Step(y, op).p, EagerStep(y, e, op))
  {
    hide Inv, Coherent, Same, Withdraw, CanWithdraw, Touched, Paid, E.CanWithdraw, E.Touched, E.Move, E.Payout, Bals;
    var OpWithdraw(payee, s, j, money, lock) := op;
    WithdrawKeepsGood(y, op);
    InvShape(y.p, y.w);
    SamePayout(y.p, y.w, e, payee, s, j, money, lock);
    if CanWithdraw(y.p, payee, s, j, money) {
      PayoutSame(y.p, y.w, e, payee, s, j, money, lock);
    } else {
      WithdrawRefused(y.p, y.w, payee, s, j, money, lock);
    }
  }

  lemma InvShape(p: Pool, w: World)
    requires Inv(p, w)
    ensures Coherent(p) && p.total == TotalStake(p)
  {
  }

  lemma PayoutSame(p: Pool, w: World, e: E.Eager, payee: Payee, s: nat, j: nat, money: int, lock: int)
    requires Inv(p, w) && Same(p, e) && 0 <= lock && CanWithdraw(p, payee, s, j, money)
    ensures var (q, _, err) := Withdraw(p, w, payee, s, j, money, lock);
      && err == NoError && Coherent(q) && j < |p.tokens| && j in p.tInfo
      && Same(q, E.Move(e, Bals(p, w), s, Touched(p, j), false, j, -Paid(p, w, s, j, money, lock), j == 0))
  {
    hide Inv, Same, Withdraw, Touched, Paid, Moved, TouchOk, Stake, Settle, Book, View, E.Move, Bals, TotalStake;
    InvShape(p, w);
    var q := Withdraw(p, w, payee, s, j, money, lock).0;
    var rw := Paid(p, w, s, j, money, lock);
    WithdrawResult(p, w, payee, s, j, money, lock);
    WithdrawMoves(p, w, payee, s, j, money, lock);
    MovedShape(p, w, q, s, Touched(p, j), false, j, -rw);
    WithdrawTouchOk(p, w, s, j, money, lock);
    TouchedKinds(p, j);
    if p.total <= 0 && j == 0 {
      IdleStakeAfter(p, w, payee, s, money, lock);
    }
    MoveSame(p, w, q, e, s, Touched(p, j), false, j, -rw, j == 0);
  }

  lemma TouchedKinds(p: Pool, j: nat)
    requires Coherent(p)
    ensures 0 < p.total && j == 0 ==> 0 in Touched(p, j)
    ensures j != 0 ==> Touched(p, j) != All(|p.tokens|)
  {
    if j != 0 {
      assert 0 in All(|p.tokens|) && 0 !in Touched(p, j);
    }
  }

  lemma IdleStakeAfter(p: Pool, w: World, payee: Payee, s: nat, money: int, lock: int)
    requires Inv(p, w) && 0 <= lock && p.total <= 0 && CanWithdraw(p, payee, s, 0, money)
    ensures Stake(Withdraw(p, w, payee, s, 0, money, lock).0, s) == 0
  {
    hide Entries, Covered, View, Paid, Withdraw, Settle, Book, Credited;
    WithdrawResult(p, w, payee, s, 0, money, lock);
    WithdrawMoves(p, w, payee, s, 0, money, lock);
    NoTotalNoStake(p, w, s);
    WithdrawTouchOk(p, w, s, 0, money, lock);
  }

  lemma AddTokenSame(y: Sys, e: E.Eager, op: Op)
    requires Good(y) && op.OpAddToken? && Same(y.p, e) && Allowed(y, op)
    ensures Coherent(Step(y, op).p) && Same(Step(y, op).p, EagerStep(y, e, op))
  {
    hide Entries, Covered, E.Staked, Stake, TotalStake, SameCredits;
    var p, q, e' := y.p, Step(y, op).p, EagerStep(y, e, op);
    AddTokenKeepsInv(p, y.w, p.owner, op.taddr, p.token);
    assert q.tInfo.Keys == p.tInfo.Keys + {|p.tokens|};
    StakesAfterAdd(p, q);
    assert SameStakes(q, e') by { AddTokenStakes(p, q, e, e'); }
    StakedIsTotal(q, e');
    AddTokenCredits(p, q, e, e');
  }

  lemma AddTokenStakes(p: Pool, q: Pool, e: E.Eager, e': E.Eager)
    requires SameStakes(p, e) && q.amount == p.amount && e'.stake == e.stake
    ensures SameStakes(q, e')
  {
    assert Stakers(q) == Stakers(p);
  }

  lemma AddTokenCredits(p: Pool, q: Pool, e: E.Eager, e': E.Eager)
    requires Coherent(p) && Coherent(q) && SameCredits(p, e) && q.amount == p.amount
    requires e'.credit == e.credit && e'.lost == e.lost
    requires |p.tokens| in q.tInfo && q.tInfo[|p.tokens|].accum == 0
    requires q.tInfo.Keys == p.tInfo.Keys + {|p.tokens|}
    requires forall i :: i in p.tInfo ==> q.tInfo[i] == p.tInfo[i]
    ensures SameCredits(q, e')
  {
    forall t: nat, i: nat
      ensures i in q.tInfo ==> E.Net(e', MultiKey(t, i)) == Settled(q, t, i)
    {
      if i in p.tInfo {
        assert Settled(q, t, i) == Settled(p, t, i);
      } else if i in q.tInfo {
        assert MultiKey(t, i) !in q.amount;
        assert Settled(q, t, i) == 0 * Stake(q, t);
      }
    }
  }

  lemma StepSame(y: Sys, e: E.Eager, op: Op)
    requires Good(y) && Same(y.p, e) && Allowed(y, op)
    ensures Coherent(Step(y, op).p) && Same(Step(y, op).p, EagerStep(y, e, op))
  {
    hide Same, Entries, Covered, TotalStake, Pledge, Withdraw, AddToken;
    match op
    case OpPledge(_, _, _) => PledgeSame(y, e, op);
    case OpWithdraw(_, _, _, _, _) => WithdrawSame(y, e, op);
    case OpAddToken(_) => AddTokenSame(y, e, op);
    case OpOutside(_) =>
  }

  lemma {:induction false} RunSame(y: Sys, e: E.Eager, ops: seq<Op>)
    requires Good(y) && AllowedRun(y, ops) && Same(y.p, e)
    ensures Same(Run(y, ops).p, EagerRun(y, e, ops))
    decreases |ops|
  {
    hide Same, Step, EagerStep;
    if ops == [] {
    } else {
      StepKeepsGood(y, ops[0]);
      StepSame(y, e, ops[0]);
      RunSame(Step(y, ops[0]), EagerStep(y, e, ops[0]), ops[1..]);
    }
  }

  // Lazy equals eager: from the creation of the pool, over every run, each staker's settled
  // amount plus accumulator growth times stake is what the naive ledger credited, less what
  // the staker gave up; and GetBalance is that credit brought up to date.
  lemma LazyEqualsEager(owner: Address, local: Address, ptoken: Address, w: World, ops: seq<Op>, s: nat, i: nat)
    requires Good(Sys(NewPool(owner, local, ptoken, w), w))
    requires AllowedRun(Sys(NewPool(owner, local, ptoken, w), w), ops)
    ensures var y := Sys(NewPool(owner, local, ptoken, w), w);
      var e := EagerRun(y, E.New(BalanceOf(w, ptoken, local)), ops);
      var z := Run(y, ops);
      i in z.p.tInfo ==>
        && Settled(z.p, s, i) == e.credit(MultiKey(s, i)) - e.lost(MultiKey(s, i))
        && View(z.p, z.w, s, i) == E.Net(E.Update(e, {i}, Bals(z.p, z.w)), MultiKey(s, i))
        && z.p.total == E.Staked(e)
  {
    hide Run, EagerRun, AllowedRun, E.Update, View;
    var y := Sys(NewPool(owner, local, ptoken, w), w);
    var e0 := E.New(BalanceOf(w, ptoken, local));
    NewSame(y, e0);
    RunSame(y, e0, ops);
    var z := Run(y, ops);
    if i in z.p.tInfo {
      UpdateMatchesView(z.p, z.w, EagerRun(y, e0, ops), {i}, s, i);
    }
  }

  lemma NewSame(y: Sys, e: E.Eager)
    requires Good(y) && y.p.amount == map[] && |y.p.tokens| == 1
    requires y.p.tInfo[0].accum == 0 && e == E.New(y.p.tInfo[0].last)
    ensures Same(y.p, e)
  {
    assert Stakers(y.p) == {};
    assert All(1) == {0} by {
      assert forall i: nat :: i in All(1) <==> i < 1;
    }
    StakedIsTotal(y.p, e);
  }

  // ---------- When nothing is given up ----------

  // Every staker has an entry for every token.
  ghost predicate Full(p: Pool) {
    forall s: nat, i: nat {:trigger MultiKey(s, i)} ::
      MultiKey(s, 0) in p.amount && i < |p.tokens| ==> MultiKey(s, i) in p.amount
  }

  ghost predicate NothingLost(e: E.Eager) {
    forall k :: e.lost(k) == 0
  }

  lemma MovedFull(p: Pool, w: World, q: Pool, s: nat, touched: set<nat>, restart: bool, j: nat, d: int)
    requires Coherent(p) && Full(p) && Moved(p, w, q, s, touched, restart, j, d)
    requires touched == All(|p.tokens|) || MultiKey(s, 0) in p.amount
    ensures Full(q)
  {
    hide AccumNow, Bal, Credited, Stake;
    forall t: nat, i: nat | MultiKey(t, 0) in q.amount && i < |q.tokens|
      ensures MultiKey(t, i) in q.amount
    {
      assert MultiKey(t, i).role == t && MultiKey(t, i).token == i;
      assert MultiKey(t, 0).role == t && MultiKey(t, 0).token == 0;
    }
  }

  lemma StepKeepsFull(y: Sys, e: E.Eager, op: Op)
    requires Good(y) && Allowed(y, op) && Same(y.p, e)
    requires Full(y.p) && NothingLost(e)
    requires op.OpAddToken? ==> y.p.amount == map[]
    ensures Full(Step(y, op).p) && NothingLost(EagerStep(y, e, op))
  {
    hide Inv, Moved, Pledge, Withdraw, CanWithdraw, Touched, Paid, Settle, Book, View, Stake, NothingLost, Same,
      E.CanWithdraw, E.Move, E.Touched, E.Payout, Bals;
    InvShape(y.p, y.w);
    match op
    case OpPledge(addr, s, money) =>
      if Pledge(y.p, y.w, y.p.owner, addr, s, money).2 == NoError {
        PledgeMoves(y.p, y.w, y.p.owner, addr, s, money);
        MovedFull(y.p, y.w, Step(y, op).p, s, All(|y.p.tokens|), true, 0, money);
        PledgeLosesNothing(y.p, e, Bals(y.p, y.w), s, money);
      }
    case OpWithdraw(payee, s, j, money, lock) =>
      SamePayout(y.p, y.w, e, payee, s, j, money, lock);
      if CanWithdraw(y.p, payee, s, j, money) {
        WithdrawResult(y.p, y.w, payee, s, j, money, lock);
        WithdrawMoves(y.p, y.w, payee, s, j, money, lock);
        PaysStaker(y.p, payee, s, j, money);
        MovedFull(y.p, y.w, Step(y, op).p, s, Touched(y.p, j), false, j, -Paid(y.p, y.w, s, j, money, lock));
        WithdrawLosesNothing(e, Bals(y.p, y.w), s, j, money, lock);
      } else {
        WithdrawRefused(y.p, y.w, payee, s, j, money, lock);
      }
    case OpAddToken(_) => AddingLosesNothing(e, BalanceOf(y.w, op.taddr, y.p.local));
    case OpOutside(_) =>
  }

  lemma PaysStaker(p: Pool, payee: Payee, s: nat, j: nat, money: int)
    requires CanWithdraw(p, payee, s, j, money)
    ensures MultiKey(s, 0) in p.amount && j < |p.tokens|
  {
  }

  lemma PledgeLosesNothing(p: Pool, e: E.Eager, bals: nat -> int, s: nat, money: int)
    requires Coherent(p) && Same(p, e) && Full(p) && NothingLost(e)
    ensures NothingLost(E.Pledge(e, bals, s, money))
  {
    hide Same, Full, E.Net, E.Gain, All;
    forall k: MultiKey
      ensures E.Pledge(e, bals, s, money).lost(k) == 0
    {
      SameCount(p, e);
      NoLoss(p, e, s, k);
      AllMember(e.n, k.token);
    }
  }

  lemma AllMember(n: nat, i: nat)
    ensures i in All(n) <==> i < n
  {
  }

  lemma WithdrawLosesNothing(e: E.Eager, bals: nat -> int, s: nat, j: nat, money: int, lock: int)
    requires NothingLost(e)
    ensures NothingLost(E.Withdraw(e, bals, s, j, money, lock))
  {
    hide E.Payout, E.Gain, E.Touched;
  }

  lemma AddingLosesNothing(e: E.Eager, bal: int)
    requires NothingLost(e)
    ensures NothingLost(E.AddToken(e, bal))
  {
  }

  lemma NoLoss(p: Pool, e: E.Eager, s: nat, k: MultiKey)
    requires Coherent(p) && Same(p, e) && Full(p)
    ensures k.role == s && k.token < e.n && k !in e.entered ==> E.Net(e, k) == 0
  {
    assert k == MultiKey(k.role, k.token);
    if k.role == s && k.token < e.n && k !in e.entered {
      assert MultiKey(s, 0) !in p.amount;
      assert Settled(p, k.role, k.token) == 0;
    }
  }

  // No token is added while somebody is staking.
  ghost predicate TokensFirst(y: Sys, ops: seq<Op>)
    requires Good(y) && AllowedRun(y, ops)
    decreases |ops|
  {
    ops == [] ||
    ((ops[0].OpAddToken? ==> y.p.amount == map[])
     && (StepKeepsGood(y, ops[0]); TokensFirst(Step(y, ops[0]), ops[1..])))
  }

  // On such runs the settled amounts are exactly the naive credits.
  lemma {:induction false} TokensFirstLosesNothing(y: Sys, e: E.Eager, ops: seq<Op>)
    requires Good(y) && AllowedRun(y, ops) && TokensFirst(y, ops)
    requires Same(y.p, e) && Full(y.p) && NothingLost(e)
    ensures NothingLost(EagerRun(y, e, ops))
    ensures forall s: nat, i: nat :: i in Run(y, ops).p.tInfo ==>
      Settled(Run(y, ops).p, s, i) == EagerRun(y, e, ops).credit(MultiKey(s, i))
    decreases |ops|
  {
    hide Step, EagerStep, Full;
    if ops == [] {
      forall s: nat, i: nat | i in y.p.tInfo
        ensures Settled(y.p, s, i) == e.credit(MultiKey(s, i))
      {
        assert E.Net(e, MultiKey(s, i)) == Settled(y.p, s, i);
      }
    } else {
      StepKeepsGood(y, ops[0]);
      StepSame(y, e, ops[0]);
      StepKeepsFull(y, e, ops[0]);
      TokensFirstLosesNothing(Step(y, ops[0]), EagerStep(y, e, ops[0]), ops[1..]);
    }
  }
}
