// The pledge pool of server/contract/pledge.go as a value: operations and the
// properties of a single operation. Whole runs are in PoolRuns.dfy.
module Pool {
  import opened Types
  import opened Sums
  import opened Erc

  // For a token: its reward accumulator and the pool balance seen at the last update.
  // For a staker and a token: the accumulator snapshot and the settled amount;
  // the settled amount of token 0 is the stake.
  datatype RewardInfo = RewardInfo(accum: int, last: int)

  datatype Pool = Pool(
    owner: Address,
    local: Address,
    tokens: seq<Address>,
    token: nat,
    total: int,
    amount: map<MultiKey, RewardInfo>,
    tInfo: map<nat, RewardInfo>)

  function NewPool(owner: Address, local: Address, ptoken: Address, w: World): Pool {
    Pool(owner, local, [ptoken], 1, 0, map[], map[0 := RewardInfo(0, BalanceOf(w, ptoken, local))])
  }

  // The token indices 0, ..., n - 1.
  function All(n: nat): (r: set<nat>)
    ensures forall i: nat :: i in r <==> i < n
  {
    if n == 0 then {} else All(n - 1) + {n - 1}
  }

  // Shape of the maps, kept by every operation whatever the amounts are.
  predicate Coherent(p: Pool) {
    && 1 <= |p.tokens| == p.token
    && p.tInfo.Keys == All(|p.tokens|)
    && (forall k :: k in p.amount ==> k.token < |p.tokens| && MultiKey(k.role, 0) in p.amount)
  }

  function Bal(p: Pool, w: World, i: nat): int
    requires i < |p.tokens|
  {
    BalanceOf(w, p.tokens[i], p.local)
  }

  // What one staked unit earns when token i is updated now.
  function Gain(p: Pool, w: World, i: nat): int
    requires i < |p.tokens| && i in p.tInfo
  {
    var g := Bal(p, w, i) - p.tInfo[i].last;
    if 0 < g && 0 < p.total then g / p.total else 0
  }

  function AccumNow(p: Pool, w: World, i: nat): int
    requires i < |p.tokens| && i in p.tInfo
  {
    p.tInfo[i].accum + Gain(p, w, i)
  }

  function Stake(p: Pool, s: nat): int {
    if MultiKey(s, 0) in p.amount then p.amount[MultiKey(s, 0)].last else 0
  }

  // Claim of s on token i when the accumulator of i stands at accum.
  function Claim(p: Pool, s: nat, i: nat, accum: int): int {
    var k := MultiKey(s, i);
    if k in p.amount
    then p.amount[k].last + (accum - p.amount[k].accum) * Stake(p, s)
    else accum * Stake(p, s)
  }

  // Claim as of the last update of token i.
  function Settled(p: Pool, s: nat, i: nat): int
    requires i in p.tInfo
  {
    Claim(p, s, i, p.tInfo[i].accum)
  }

  // Claim as GetBalance reports it.
  function View(p: Pool, w: World, s: nat, i: nat): int
    requires i < |p.tokens| && i in p.tInfo
  {
    Claim(p, s, i, AccumNow(p, w, i))
  }

  datatype Balances = NoBalances | Balances(vals: seq<int>)

  function GetBalance(p: Pool, w: World, s: nat): Balances
    requires Coherent(p)
  {
    if MultiKey(s, 0) !in p.amount then NoBalances
    else Balances(seq(|p.tokens|, i requires 0 <= i < |p.tokens| => View(p, w, s, i)))
  }

  // ---------- Operations ----------

  function AddToken(p: Pool, w: World, caller: Address, taddr: Address, tokenIndex: nat): (Pool, Error) {
    if caller != p.owner then (p, ErrPermission)
    else if p.token != tokenIndex then (p, ErrInput)
    else
      (p.(tInfo := p.tInfo[tokenIndex := RewardInfo(0, BalanceOf(w, taddr, p.local))],
          tokens := p.tokens + [taddr],
          token := tokenIndex + 1), NoError)
  }

  // Amount credited to s for token i when it is settled. A staker without an entry
  // starts from the current accumulator in Pledge (restart) and from 0 in Withdraw.
  function Credited(p: Pool, w: World, s: nat, i: nat, restart: bool): int
    requires i < |p.tokens| && i in p.tInfo
  {
    if MultiKey(s, i) !in p.amount && restart then Gain(p, w, i) * Stake(p, s)
    else View(p, w, s, i)
  }

  function Keys(s: nat, touched: set<nat>): set<MultiKey> {
    set i | i in touched :: MultiKey(s, i)
  }

  // Update the touched tokens and settle s in them. totalPledge is left alone.
  function Settle(p: Pool, w: World, s: nat, touched: set<nat>, restart: bool): Pool
    requires Coherent(p) && touched <= All(|p.tokens|)
  {
    p.(tInfo := map i | i in p.tInfo ::
                  if i in touched then RewardInfo(AccumNow(p, w, i), Bal(p, w, i)) else p.tInfo[i],
       amount := map k | k in p.amount.Keys + Keys(s, touched) ::
                   if k.role == s && k.token in touched
                   then RewardInfo(AccumNow(p, w, k.token), Credited(p, w, s, k.token, restart))
                   else p.amount[k])
  }

  // Money d enters (or, negative, leaves) on account of s in token j, and totalPledge
  // replaces the old stake of s by the new one.
  function Book(p: Pool, s: nat, j: nat, d: int, oldStake: int): Pool
    requires j in p.tInfo && MultiKey(s, j) in p.amount
  {
    var k := MultiKey(s, j);
    var q := p.(tInfo := p.tInfo[j := p.tInfo[j].(last := p.tInfo[j].last + d)],
                amount := p.amount[k := p.amount[k].(last := p.amount[k].last + d)]);
    q.(total := q.total - oldStake + Stake(q, s))
  }

  // The rewards are settled before the transfer, and stay settled when it fails.
  function Pledge(p: Pool, w: World, caller: Address, addr: Address, s: nat, money: int): (Pool, World, Error)
    requires Coherent(p)
  {
    if caller != p.owner then (p, w, ErrPermission)
    else if money < 0 then (p, w, ErrRes)
    else
      var p1 := Settle(p, w, s, All(|p.tokens|), true);
      var (w1, err) := SendFrom(w, p.tokens[0], p.local, addr, p.local, money);
      if err != NoError then (p1, w1, err)
      else
        assert MultiKey(s, 0) in Keys(s, All(|p.tokens|));
        (Book(p1, s, 0, money, Stake(p, s)), w1, NoError)
  }

  // What Withdraw may still pay out of a settled amount.
  function Payable(settled: int, j: nat, money: int, lock: int): int {
    var free := if j == 0 then settled - lock else settled;
    if 0 < money && money < free then money else free
  }

  function Touched(p: Pool, j: nat): set<nat> {
    if p.total <= 0 then {}
    else if j == 0 then All(|p.tokens|)
    else if j < |p.tokens| then {j} else {}
  }

  // payee is the address that the role manager has registered for s, if any.
  datatype Payee = NoPayee(err: Error) | Payee(addr: Address)

  function Withdraw(p: Pool, w: World, payee: Payee, s: nat, j: nat, money: int, lock: int): (Pool, World, Error)
    requires Coherent(p)
    requires payee.NoPayee? ==> payee.err != NoError
  {
    if money < 0 || |p.tokens| < j then (p, w, ErrInput)
    else if payee.NoPayee? then (p, w, payee.err)
    else if MultiKey(s, 0) !in p.amount then (p, w, ErrEmpty)
    else
      var p1 := Settle(p, w, s, Touched(p, j), false);
      if MultiKey(s, j) !in p1.amount then (p1, w, ErrEmpty)
      else
        assert MultiKey(s, j) in Keys(s, Touched(p, j)) ==> j in Touched(p, j);
        var rw := Payable(p1.amount[MultiKey(s, j)].last, j, money, lock);
        var (w1, err) := if 0 < rw then Send(w, p.tokens[j], p.local, payee.addr, rw) else (w, NoError);
        if err != NoError then (p1, w1, err)
        else (Book(p1, s, j, -Max(rw, 0), Stake(p, s)), w1, NoError)
  }

  // ---------- Invariant ----------

  ghost function Stakers(p: Pool): set<nat> {
    set k | k in p.amount && k.token == 0 :: k.role
  }

  ghost function StakeOf(p: Pool): nat -> int {
    (s: nat) => Stake(p, s)
  }

  ghost function TotalStake(p: Pool): int {
    Sum(Stakers(p), StakeOf(p))
  }

  ghost function SettledOf(p: Pool, i: nat): nat -> int
    requires i in p.tInfo
  {
    (s: nat) => Settled(p, s, i)
  }

  // Everything the pool owes in token i as of the last update of that token.
  ghost function Owed(p: Pool, i: nat): int
    requires i in p.tInfo
  {
    Sum(Stakers(p), SettledOf(p, i))
  }

  ghost function ViewOf(p: Pool, w: World, i: nat): nat -> int
    requires i < |p.tokens| && i in p.tInfo
  {
    (s: nat) => View(p, w, s, i)
  }

  // Everything GetBalance reports for token i, over all stakers.
  ghost function Reported(p: Pool, w: World, i: nat): int
    requires i < |p.tokens| && i in p.tInfo
  {
    Sum(Stakers(p), ViewOf(p, w, i))
  }

  ghost predicate Entries(p: Pool) {
    && (forall i :: i in p.tInfo ==> 0 <= p.tInfo[i].accum)
    && (forall k :: k in p.amount ==>
          && k.token in p.tInfo
          && 0 <= p.amount[k].accum <= p.tInfo[k.token].accum
          && 0 <= p.amount[k].last)
  }

  ghost predicate Covered(p: Pool, w: World)
    requires Coherent(p)
  {
    forall i :: i in p.tInfo ==> Owed(p, i) <= p.tInfo[i].last <= Bal(p, w, i)
  }

  ghost predicate Inv(p: Pool, w: World) {
    && Coherent(p)
    && Distinct(p.tokens)
    && Entries(p)
    && p.total == TotalStake(p)
    && Covered(p, w)
  }

  // ---------- Claims ----------

  lemma ClaimIsLinear(p: Pool, s: nat, i: nat, accum: int, gain: int)
    ensures Claim(p, s, i, accum + gain) == Claim(p, s, i, accum) + gain * Stake(p, s)
  {
    var k := MultiKey(s, i);
    if k in p.amount {
      var a, st := p.amount[k].accum, Stake(p, s);
      assert (accum + gain - a) * st == (accum - a) * st + gain * st;
    }
  }

  lemma ClaimNonNegative(p: Pool, s: nat, i: nat, accum: int)
    requires Coherent(p) && Entries(p) && i in p.tInfo && p.tInfo[i].accum <= accum
    ensures 0 <= Claim(p, s, i, accum) && 0 <= Stake(p, s)
  {
    var k := MultiKey(s, i);
    if k in p.amount {
      assert 0 <= (accum - p.amount[k].accum) * Stake(p, s);
    } else {
      assert 0 <= accum * Stake(p, s);
    }
  }

  lemma DivMul(g: int, t: int)
    requires 0 < t
    ensures g / t * t == g - g % t
  {
  }

  lemma GainTotal(p: Pool, w: World, i: nat)
    requires i < |p.tokens| && i in p.tInfo
    ensures 0 <= Gain(p, w, i)
    ensures var g := Bal(p, w, i) - p.tInfo[i].last;
      Gain(p, w, i) * p.total == if 0 < g && 0 < p.total then g - g % p.total else 0
  {
    var g := Bal(p, w, i) - p.tInfo[i].last;
    if 0 < g && 0 < p.total {
      DivMul(g, p.total);
    }
  }

  // The reported claims exceed the settled ones by the gain on the total stake.
  lemma ReportedTotal(p: Pool, w: World, i: nat)
    requires Coherent(p) && i in p.tInfo
    ensures Reported(p, w, i) == Owed(p, i) + Gain(p, w, i) * TotalStake(p)
  {
    hide Gain, Bal, Claim;
    var c := Gain(p, w, i);
    forall s | s in Stakers(p)
      ensures ViewOf(p, w, i)(s) == SettledOf(p, i)(s) + c * StakeOf(p)(s)
    {
      ClaimIsLinear(p, s, i, p.tInfo[i].accum, c);
    }
    SumLinear(Stakers(p), SettledOf(p, i), StakeOf(p), c, ViewOf(p, w, i));
  }

  // Solvency: the pool holds at least what it reports to all stakers together.
  lemma Solvent(p: Pool, w: World, i: nat)
    requires Inv(p, w) && i < |p.tokens|
    ensures Reported(p, w, i) <= Bal(p, w, i)
    ensures forall s :: s in Stakers(p) ==> 0 <= View(p, w, s, i) <= Bal(p, w, i)
  {
    hide Gain, Owed, Claim;
    ReportedTotal(p, w, i);
    GainTotal(p, w, i);
    forall s | s in Stakers(p)
      ensures 0 <= View(p, w, s, i) == ViewOf(p, w, i)(s)
    {
      ClaimNonNegative(p, s, i, AccumNow(p, w, i));
    }
    SumNonNegative(Stakers(p), ViewOf(p, w, i));
  }

  // Dust: of the money that arrived since the last update, exactly the remainder of the
  // division by totalPledge stays undistributed (all of it when nothing is staked).
  lemma Dust(p: Pool, w: World, i: nat)
    requires Inv(p, w) && i < |p.tokens|
    ensures var g := Bal(p, w, i) - p.tInfo[i].last;
      Bal(p, w, i) - Reported(p, w, i)
      == (p.tInfo[i].last - Owed(p, i)) + (if 0 < p.total then g % p.total else g)
  {
    hide Inv, Gain, Reported, Owed, Bal;
    InvTotals(p, w, i);
    hide Coherent;
    ReportedTotal(p, w, i);
    GainTotal(p, w, i);
  }

  lemma InvTotals(p: Pool, w: World, i: nat)
    requires Inv(p, w) && i < |p.tokens|
    ensures Coherent(p) && i in p.tInfo && p.total == TotalStake(p) && p.tInfo[i].last <= Bal(p, w, i)
  {
    hide TotalStake, Entries, Bal;
  }

  // ---------- One settlement ----------

  lemma KeysMember(s: nat, touched: set<nat>, k: MultiKey)
    ensures k in Keys(s, touched) <==> k.role == s && k.token in touched
  {
    if k.role == s && k.token in touched {
      assert k == MultiKey(s, k.token);
    }
  }

  // Reward that a staker without an entry for token i loses by pledging again.
  function Forfeit(p: Pool, s: nat, i: nat, restart: bool): int
    requires i in p.tInfo
  {
    if MultiKey(s, i) !in p.amount && restart then p.tInfo[i].accum * Stake(p, s) else 0
  }

  // touched is either every token, or leaves the stake alone.
  predicate TouchOk(p: Pool, s: nat, j: nat, d: int, touched: set<nat>) {
    && touched <= All(|p.tokens|)
    && (touched == All(|p.tokens|) || (0 !in touched && (j != 0 || d == 0)))
  }

  // q is p after the touched tokens were updated, s was settled in them, and d was booked
  // for s in token j: every map entry of q in terms of p.
  ghost predicate Moved(p: Pool, w: World, q: Pool, s: nat, touched: set<nat>, restart: bool, j: nat, d: int)
    requires Coherent(p)
  {
    && Coherent(q)
    && q.owner == p.owner && q.local == p.local && q.tokens == p.tokens
    && (MultiKey(s, 0) in q.amount && MultiKey(s, j) in q.amount)
    && q.total == p.total - Stake(p, s) + Stake(q, s)
    && (forall i :: i in p.tInfo ==>
          q.tInfo[i] == RewardInfo(
            if i in touched then AccumNow(p, w, i) else p.tInfo[i].accum,
            (if i in touched then Bal(p, w, i) else p.tInfo[i].last) + (if i == j then d else 0)))
    && (forall k: MultiKey :: (k.role == s && k.token in touched) || k in p.amount <==> k in q.amount)
    && (forall k :: k in q.amount && k.role == s && k.token in touched ==>
          k.token in p.tInfo
          && q.amount[k] == RewardInfo(AccumNow(p, w, k.token),
                                       Credited(p, w, s, k.token, restart) + if k.token == j then d else 0))
    && (forall k :: k in p.amount && !(k.role == s && k.token in touched) ==>
          q.amount[k] == RewardInfo(p.amount[k].accum,
                                    p.amount[k].last + if k == MultiKey(s, j) then d else 0))
  }

  // Entries after a settlement.
  lemma SettleEntries(p: Pool, w: World, s: nat, touched: set<nat>, restart: bool)
    requires Coherent(p) && touched <= All(|p.tokens|)
    requires MultiKey(s, 0) in p.amount || 0 in touched
    ensures var p1 := Settle(p, w, s, touched, restart);
      && Coherent(p1) && MultiKey(s, 0) in p1.amount
      && p1.owner == p.owner && p1.local == p.local && p1.tokens == p.tokens && p1.total == p.total
      && (forall i :: i in p.tInfo ==>
            p1.tInfo[i] == if i in touched then RewardInfo(AccumNow(p, w, i), Bal(p, w, i)) else p.tInfo[i])
      && (forall k: MultiKey :: k in p1.amount <==> k in p.amount || (k.role == s && k.token in touched))
      && (forall k: MultiKey :: k in p1.amount && k.role == s && k.token in touched ==>
            k.token in p.tInfo
            && p1.amount[k] == RewardInfo(AccumNow(p, w, k.token), Credited(p, w, s, k.token, restart)))
      && (forall k: MultiKey :: k in p.amount && !(k.role == s && k.token in touched) ==>
            p1.amount[k] == p.amount[k])
  {
    hide AccumNow, Bal, Credited;
    var p1 := Settle(p, w, s, touched, restart);
    assert p1.tInfo.Keys == p.tInfo.Keys;
    forall k: MultiKey
      ensures k in p1.amount <==> k in p.amount || (k.role == s && k.token in touched)
    {
      KeysMember(s, touched, k);
    }
  }

  // Entries after a booking.
  lemma BookEntries(p: Pool, s: nat, j: nat, d: int, oldStake: int)
    requires Coherent(p) && j in p.tInfo && MultiKey(s, j) in p.amount
    ensures var q := Book(p, s, j, d, oldStake);
      && Coherent(q)
      && q.owner == p.owner && q.local == p.local && q.tokens == p.tokens
      && q.total == p.total - oldStake + Stake(q, s)
      && q.amount.Keys == p.amount.Keys
      && (forall i :: i in p.tInfo ==>
            q.tInfo[i] == RewardInfo(p.tInfo[i].accum, p.tInfo[i].last + if i == j then d else 0))
      && (forall k :: k in p.amount ==>
            q.amount[k] == RewardInfo(p.amount[k].accum,
                                      p.amount[k].last + if k == MultiKey(s, j) then d else 0))
  {
    var q := Book(p, s, j, d, oldStake);
    assert q.amount.Keys == p.amount.Keys;
    assert q.tInfo.Keys == p.tInfo.Keys;
  }

  lemma BookMoves(p: Pool, w: World, s: nat, touched: set<nat>, restart: bool, j: nat, d: int)
    requires Coherent(p) && touched <= All(|p.tokens|) && j in p.tInfo
    requires MultiKey(s, 0) in p.amount || 0 in touched
    requires MultiKey(s, j) in Settle(p, w, s, touched, restart).amount
    ensures Moved(p, w, Book(Settle(p, w, s, touched, restart), s, j, d, Stake(p, s)), s, touched, restart, j, d)
  {
    hide Credited, AccumNow, Bal, Settle, Book, Stake, Coherent, All;
    var p1 := Settle(p, w, s, touched, restart);
    SettleEntries(p, w, s, touched, restart);
    SameInfoKeys(p, p1);
    BookEntries(p1, s, j, d, Stake(p, s));
    SameInfoKeys(p, Book(p1, s, j, d, Stake(p, s)));
  }

  lemma SameInfoKeys(p: Pool, q: Pool)
    requires Coherent(p) && Coherent(q) && q.tokens == p.tokens
    ensures forall i: nat :: i in q.tInfo <==> i in p.tInfo
  {
  }

  lemma StakersAfter(p: Pool, w: World, q: Pool, s: nat, touched: set<nat>, restart: bool, j: nat, d: int)
    requires Coherent(p) && Moved(p, w, q, s, touched, restart, j, d)
    ensures Stakers(q) == Stakers(p) + {s}
    ensures forall t: nat :: t != s ==> Stake(q, t) == Stake(p, t)
    ensures s !in Stakers(p) ==> Stake(p, s) == 0
  {
    forall t: nat
      ensures t in Stakers(q) <==> t in Stakers(p) || t == s
    {
      assert t in Stakers(q) <==> MultiKey(t, 0) in q.amount;
      assert t in Stakers(p) <==> MultiKey(t, 0) in p.amount;
    }
    assert MultiKey(s, 0) in p.amount ==> s in Stakers(p);
  }

  lemma CreditedIsView(p: Pool, w: World, s: nat, i: nat, restart: bool)
    requires i < |p.tokens| && i in p.tInfo
    ensures Credited(p, w, s, i, restart) == View(p, w, s, i) - Forfeit(p, s, i, restart)
  {
    ClaimIsLinear(p, s, i, p.tInfo[i].accum, Gain(p, w, i));
  }

  // Change of the claim of t on token i.
  function Delta(p: Pool, s: nat, touched: set<nat>, restart: bool, j: nat, d: int, t: nat, i: nat): int
    requires i in p.tInfo
  {
    if t != s then 0
    else (if i == j then d else 0) - (if i in touched then Forfeit(p, s, i, restart) else 0)
  }

  // Claims after a settlement and a booking of d for s in token j: everybody keeps the
  // claim reported before; only the claim of s changes, by d in token j.
  lemma ClaimsAfter(p: Pool, w: World, q: Pool, s: nat, touched: set<nat>, restart: bool, j: nat, d: int, t: nat,
                    i: nat)
    requires Coherent(p) && i in p.tInfo
    requires TouchOk(p, s, j, d, touched) && Moved(p, w, q, s, touched, restart, j, d)
    ensures Settled(q, t, i) == (if i in touched then View(p, w, t, i) else Settled(p, t, i))
                                + Delta(p, s, touched, restart, j, d, t, i)
  {
    hide Gain, Bal;
    var k := MultiKey(t, i);
    if t == s && i in touched {
      assert k in q.amount;
      assert Settled(q, s, i) == q.amount[k].last + 0 * Stake(q, s);
      CreditedIsView(p, w, s, i, restart);
    } else {
      assert MultiKey(t, 0) in p.amount <==> MultiKey(t, 0) in q.amount;
      assert Stake(q, t) == Stake(p, t);
      assert k in p.amount <==> k in q.amount;
    }
  }

  // ---------- The invariant is kept ----------

  lemma OwedAfter(p: Pool, w: World, q: Pool, s: nat, touched: set<nat>, restart: bool, j: nat, d: int, i: nat)
    requires Coherent(p) && i in p.tInfo
    requires TouchOk(p, s, j, d, touched) && Moved(p, w, q, s, touched, restart, j, d)
    ensures Owed(q, i) == (if i in touched then Reported(p, w, i) else Owed(p, i))
                          + Delta(p, s, touched, restart, j, d, s, i)
  {
    hide Gain, Bal, Claim, Credited, Forfeit;
    StakersAfter(p, w, q, s, touched, restart, j, d);
    var f := if i in touched then ViewOf(p, w, i) else SettledOf(p, i);
    forall t: nat
      ensures SettledOf(q, i)(t) == f(t) + Delta(p, s, touched, restart, j, d, t, i)
    {
      ClaimsAfter(p, w, q, s, touched, restart, j, d, t, i);
    }
    if s !in Stakers(p) {
      NoStakeNoClaim(p, s, i);
    }
    SumPut(Stakers(p), f, SettledOf(q, i), s);
  }

  lemma NoStakeNoClaim(p: Pool, s: nat, i: nat)
    requires Coherent(p) && s !in Stakers(p)
    ensures forall accum :: Claim(p, s, i, accum) == 0
  {
    assert MultiKey(s, 0) !in p.amount;
  }

  lemma TotalAfter(p: Pool, w: World, q: Pool, s: nat, touched: set<nat>, restart: bool, j: nat, d: int)
    requires Coherent(p) && Moved(p, w, q, s, touched, restart, j, d)
    ensures q.total - TotalStake(q) == p.total - TotalStake(p)
  {
    hide Gain, Bal, Claim, Credited;
    StakersAfter(p, w, q, s, touched, restart, j, d);
    SumPut(Stakers(p), StakeOf(p), StakeOf(q), s);
  }

  lemma CreditedNonNegative(p: Pool, w: World, s: nat, i: nat, restart: bool)
    requires Coherent(p) && Entries(p) && i in p.tInfo
    ensures 0 <= Credited(p, w, s, i, restart)
  {
    GainTotal(p, w, i);
    ClaimNonNegative(p, s, i, AccumNow(p, w, i));
    assert 0 <= Gain(p, w, i) * Stake(p, s);
  }

  lemma EntriesAfter(p: Pool, w: World, q: Pool, s: nat, touched: set<nat>, restart: bool, j: nat, d: int)
    requires Coherent(p) && Entries(p)
    requires Moved(p, w, q, s, touched, restart, j, d) && 0 <= q.amount[MultiKey(s, j)].last
    ensures Entries(q)
  {
    hide Gain, Bal, Claim, Credited;
    forall i | i in p.tInfo
      ensures p.tInfo[i].accum <= q.tInfo[i].accum
    {
      GainTotal(p, w, i);
    }
    forall k | k in q.amount
      ensures 0 <= q.amount[k].accum <= q.tInfo[k.token].accum && 0 <= q.amount[k].last
    {
      if k.role == s && k.token in touched {
        CreditedNonNegative(p, w, s, k.token, restart);
      }
    }
  }

  lemma ForfeitNonNegative(p: Pool, s: nat, i: nat, restart: bool)
    requires Coherent(p) && Entries(p) && i in p.tInfo
    ensures 0 <= Forfeit(p, s, i, restart)
  {
    assert 0 <= Stake(p, s);
    assert 0 <= p.tInfo[i].accum * Stake(p, s);
  }

  // A settlement with a booking of d keeps the invariant when the pool's balance moves
  // along by at least d.
  lemma MovedKeepsInv(p: Pool, w: World, q: Pool, w': World, s: nat, touched: set<nat>, restart: bool, j: nat, d: int)
    requires Inv(p, w)
    requires TouchOk(p, s, j, d, touched) && Moved(p, w, q, s, touched, restart, j, d)
    requires 0 <= q.amount[MultiKey(s, j)].last
    requires forall i :: i in p.tInfo ==> Bal(p, w, i) + (if i == j then d else 0) <= Bal(p, w', i)
    ensures Inv(q, w')
  {
    hide Gain, Claim, Owed, Reported, Credited, Forfeit, TotalStake, Entries;
    EntriesAfter(p, w, q, s, touched, restart, j, d);
    TotalAfter(p, w, q, s, touched, restart, j, d);
    forall i | i in q.tInfo
      ensures Owed(q, i) <= q.tInfo[i].last <= Bal(q, w', i)
    {
      OwedAfter(p, w, q, s, touched, restart, j, d, i);
      Solvent(p, w, i);
      ForfeitNonNegative(p, s, i, restart);
    }
  }
}
