// The orders behind the provider settlements of a storage manager, over its runs: what the
// lazy settlements amount to, and how far what can be claimed at once is covered.
module FsHistories {
  import opened Types
  import opened Sums
  import opened Erc
  import opened Fs
  import opened FsMoney
  import opened FsRecords
  import opened FsRuns
  import S = Settlements
  import E = Earnings

  // ---------- One settlement in one call ----------

  // An accepted order with the provider and token k.
  predicate Books(y: Sys, op: Op, k: MultiKey) {
    && op.OpAddOrder? && k == MultiKey(op.pro, op.t)
    && AddOrder(y.f, y.f.owner, op.kindex, op.user, op.pro, op.start, op.end, op.size, op.nonce, op.t, op.sprice).1
      == NoError
  }

  predicate Closes(y: Sys, now: u64, op: Op, k: MultiKey) {
    && op.OpSubOrder? && k == MultiKey(op.pro, op.t)
    && SubOrder(y.f, y.f.owner, now, op.kindex, op.user, op.pro, op.start, op.end, op.size, op.nonce, op.t, op.sprice).1
       == NoError
  }

  predicate Claims(y: Sys, op: Op, k: MultiKey) {
    op.OpProWithdraw? && k == MultiKey(op.pro, op.t) && k in y.f.proInfo
  }

  function Added(s: S.Settlement, start: u64, end: u64, size: u64, sprice: int): S.Settlement {
    S.Add(s, start, size, sprice, PayOf(start, end, sprice), PayOf(start, end, sprice) / 100 * MANAGE_RATE)
  }

  function Subbed(s: S.Settlement, start: u64, end: u64, size: u64, sprice: int): S.Settlement {
    var se := S.Sub(s, end, size, sprice);
    se.(endPaid := se.endPaid + S.EndFee(start, end, sprice))
  }

  function Paid(s: S.Settlement, now: u64, pay: int, lost: int): S.Settlement {
    var (se, _, err) := S.Calc(s, now, pay, lost);
    if err == NoError then S.Linear(se) else se
  }

  // The settlement k after a call.
  function Moved(y: Sys, now: u64, op: Op, k: MultiKey): S.Settlement {
    var s := SettlementOf(y.f, k);
    if Books(y, op, k) then Added(s, op.start, op.end, op.size, op.sprice)
    else if Closes(y, now, op, k) then Subbed(s, op.start, op.end, op.size, op.sprice)
    else if Claims(y, op, k) then Paid(s, now, op.pay, op.lost)
    else s
  }

  lemma StepMoves(y: Sys, now: u64, op: Op, k: MultiKey)
    ensures var f := Step(y, now, op).f;
      && SettlementOf(f, k) == Moved(y, now, op, k)
      && (k in f.proInfo <==> k in y.f.proInfo || Books(y, op, k))
      && (Closes(y, now, op, k) ==> k in y.f.proInfo)
  {
    hide Recharge, Withdraw, ProWithdraw, AddOrder, SubOrder, Added, Subbed, Paid;
    var (f, w, ts) := (y.f, y.w, y.tokens);
    match op
    case OpAddKeeper(kindex) =>
    case OpCreateFs(user) =>
    case OpAddOrder(kindex, user, pro, start, end, size, nonce, t, sprice) =>
      AddMoves(f, kindex, user, pro, start, end, size, nonce, t, sprice, k);
    case OpSubOrder(kindex, user, pro, start, end, size, nonce, t, sprice) =>
      SubMoves(f, now, kindex, user, pro, start, end, size, nonce, t, sprice, k);
    case OpRecharge(addr, index, t, money) => RechargeSettles(f, w, addr, index, ts, t, money);
    case OpWithdraw(info, index, t, amount) => WithdrawSettles(f, w, now, info, index, ts, t, amount);
    case OpProWithdraw(info, pro, t, pay, lost) => ClaimMoves(f, w, now, info, pro, ts, t, pay, lost, k);
    case OpRegisterToken(_) =>
    case OpOutside(_) =>
  }

  lemma AddMoves(f: Fs, kindex: nat, user: nat, pro: nat, start: u64, end: u64, size: u64, nonce: nat, t: nat,
                 sprice: int, k: MultiKey)
    ensures var (g, err) := AddOrder(f, f.owner, kindex, user, pro, start, end, size, nonce, t, sprice);
      if err == NoError && k == MultiKey(pro, t)
      then k in g.proInfo && g.proInfo[k] == Added(SettlementOf(f, k), start, end, size, sprice)
      else SettlementOf(g, k) == SettlementOf(f, k) && (k in g.proInfo <==> k in f.proInfo)
  {
    hide BookOrder, PayOf, Added, EnsureToken, OpenOrders;
    var f1 := EnsureToken(f, t);
    OpeningSettles(f, t, user, pro);
    if FsError(f1, user) == NoError {
      BookSettles(OpenOrders(f1, user, pro), kindex, user, pro, start, end, size, t, sprice);
    }
  }

  lemma OpeningSettles(f: Fs, t: nat, user: nat, pro: nat)
    ensures var f1 := EnsureToken(f, t);
      && f1.proInfo == f.proInfo
      && (user in f1.fs ==>
            var f2 := OpenOrders(f1, user, pro); f2.proInfo == f.proInfo && user in f2.fs && pro in f2.fs[user].ao)
  {
  }

  lemma BookSettles(f: Fs, kindex: nat, user: nat, pro: nat, start: u64, end: u64, size: u64, t: nat, sprice: int)
    requires user in f.fs && pro in f.fs[user].ao
    ensures BookOrder(f, kindex, user, pro, start, end, size, t, sprice).proInfo
         == f.proInfo[MultiKey(pro, t) := Added(SettlementOf(f, MultiKey(pro, t)), start, end, size, sprice)]
  {
    hide S.Add, Booked, PayOf;
  }

  lemma SubMoves(f: Fs, now: u64, kindex: nat, user: nat, pro: nat, start: u64, end: u64, size: u64, nonce: nat, t: nat,
                 sprice: int, k: MultiKey)
    ensures var (g, err) := SubOrder(f, f.owner, now, kindex, user, pro, start, end, size, nonce, t, sprice);
      if err == NoError && k == MultiKey(pro, t)
      then k in f.proInfo && k in g.proInfo && g.proInfo[k] == Subbed(f.proInfo[k], start, end, size, sprice)
      else SettlementOf(g, k) == SettlementOf(f, k) && (k in g.proInfo <==> k in f.proInfo)
  {
    hide S.Sub, S.EndFee, Closed;
  }

  lemma RechargeSettles(f: Fs, w: World, addr: Address, index: nat, tokens: seq<Address>, t: nat, money: int)
    ensures Recharge(f, w, f.owner, addr, index, tokens, t, money).0.proInfo == f.proInfo
  {
    hide SendFrom;
  }

  lemma WithdrawSettles(f: Fs, w: World, now: u64, info: Info, index: nat, tokens: seq<Address>, t: nat, amount: int)
    ensures Withdraw(f, w, now, info, index, tokens, t, amount).0.proInfo == f.proInfo
  {
    hide PayOut, Share;
    ShareLocal(f, now);
    if info.Info? {
      PayOutSettles(f, w, info.addr, index, tokens, t, amount);
      PayOutSettles(Share(f, now).0, w, info.addr, index, tokens, t, amount);
    }
  }

  lemma PayOutSettles(f: Fs, w: World, addr: Address, index: nat, tokens: seq<Address>, t: nat, amount: int)
    ensures PayOut(f, w, addr, index, tokens, t, amount).0.proInfo == f.proInfo
  {
    hide Send;
  }

  lemma ClaimMoves(f: Fs, w: World, now: u64, info: Info, pro: nat, tokens: seq<Address>, t: nat, pay: int, lost: int,
                   k: MultiKey)
    ensures var g := ProWithdraw(f, w, now, info, pro, tokens, t, pay, lost).0;
      && g.proInfo.Keys == f.proInfo.Keys
      && SettlementOf(g, k) == if k == MultiKey(pro, t) && k in f.proInfo then Paid(f.proInfo[k], now, pay, lost)
                               else SettlementOf(f, k)
  {
    hide Claim, PayAll, Paid;
    var j := MultiKey(pro, t);
    if j in f.proInfo {
      ClaimSettles(f, now, j, pay, lost);
      PayAllSettles(Claim(f, now, j, pay, lost).0, w, info, j, tokens);
    }
  }

  lemma ClaimSettles(f: Fs, now: u64, k: MultiKey, pay: int, lost: int)
    requires k in f.proInfo
    ensures Claim(f, now, k, pay, lost).0.proInfo == f.proInfo[k := Paid(f.proInfo[k], now, pay, lost)]
  {
    hide S.Calc, S.Linear;
  }

  lemma PayAllSettles(f: Fs, w: World, info: Info, k: MultiKey, tokens: seq<Address>)
    ensures PayAll(f, w, info, k, tokens).0.proInfo == f.proInfo
  {
    hide Send;
  }

  // ---------- The linear fee, in every run ----------

  ghost predicate AllLinear(f: Fs) {
    forall k :: k in f.proInfo ==> E.LinearFollows(f.proInfo[k])
  }

  lemma MovedLinear(s: S.Settlement, start: u64, end: u64, size: u64, sprice: int, now: u64, pay: int, lost: int)
    requires E.LinearFollows(s)
    ensures E.LinearFollows(Added(s, start, end, size, sprice))
    ensures E.LinearFollows(Subbed(s, start, end, size, sprice))
    ensures E.LinearFollows(Paid(s, now, pay, lost))
  {
    if s.hasPaid <= pay {
      assert s.hasPaid / 100 <= pay / 100;
    }
  }

  lemma StepKeepsAllLinear(y: Sys, now: u64, op: Op)
    requires AllLinear(y.f)
    ensures AllLinear(Step(y, now, op).f)
  {
    hide Step, Added, Subbed, Paid, AddOrder, SubOrder, E.LinearFollows;
    var f := Step(y, now, op).f;
    forall k | k in f.proInfo
      ensures E.LinearFollows(f.proInfo[k])
    {
      StepMoves(y, now, op, k);
      var s := SettlementOf(y.f, k);
      assert E.LinearFollows(s) by { EmptyLinear(); }
      match op
      case OpAddOrder(_, _, _, start, end, size, _, _, sprice) => MovedLinear(s, start, end, size, sprice, now, 0, 0);
      case OpSubOrder(_, _, _, start, end, size, _, _, sprice) => MovedLinear(s, start, end, size, sprice, now, 0, 0);
      case OpProWithdraw(_, _, _, pay, lost) => MovedLinear(s, 0, 0, 0, 0, now, pay, lost);
      case _ =>
        assert Moved(y, now, op, k) == s by { NoSettlementCall(y, now, op, k); }
    }
  }

  lemma EmptyLinear()
    ensures E.LinearFollows(S.EMPTY)
  {
  }

  lemma NoSettlementCall(y: Sys, now: u64, op: Op, k: MultiKey)
    requires !op.OpAddOrder? && !op.OpSubOrder? && !op.OpProWithdraw?
    ensures Moved(y, now, op, k) == SettlementOf(y.f, k)
  {
  }

  // In every state of every run of storage management, with orders in order or not, the
  // linear fee released is 4 for each full 100 paid.
  lemma {:induction false} LinearFeeFollows(y: Sys, ops: seq<Timed>)
    requires AllLinear(y.f)
    ensures AllLinear(Run(y, ops).f)
    decreases |ops|
  {
    hide AllLinear, Step;
    if ops == [] {
    } else {
      StepKeepsAllLinear(y, ops[0].now, ops[0].op);
      LinearFeeFollows(Step(y, ops[0].now, ops[0].op), ops[1..]);
    }
  }

  lemma NewIsLinear(owner: Address, local: Address, foundation: nat, now: u64)
    ensures AllLinear(NewFs(owner, local, foundation, now))
  {
  }

  // ---------- Orders behind the settlements ----------

  type Histories = map<MultiKey, seq<E.Order>>

  // Each settlement is the lazy summary of the orders with its provider in its token.
  ghost predicate Tracked(f: Fs, hs: Histories) {
    && (forall k :: k in hs <==> k in f.proInfo)
    && (forall k :: k in f.proInfo ==> hs[k] != [] && E.Summary(f.proInfo[k], hs[k]))
  }

  function HistoryAt(f: Fs, hs: Histories, k: MultiKey): E.History {
    E.History(SettlementOf(f, k), if k in hs then hs[k] else [])
  }

  // Where the order is in the list; its length when it is not there.
  function Find(h: seq<E.Order>, o: E.Order): nat
    decreases |h|
  {
    if h == [] || h[0] == o then 0 else 1 + Find(h[1..], o)
  }

  // What a call means for the orders of k, if anything. A closed order is one that was added
  // and is live.
  datatype Meaning = Nothing | Meaning(event: E.Event)

  function MeaningAt(y: Sys, hs: Histories, now: u64, op: Op, k: MultiKey): Meaning {
    if Books(y, op, k) then Meaning(E.EAdd(op.start, op.end, op.size, op.sprice))
    else if Closes(y, now, op, k) then
      Meaning(E.ESub(Find(HistoryAt(y.f, hs, k).h, E.Order(op.start, op.end, op.sprice, false)), op.size))
    else if Claims(y, op, k) then Meaning(E.EPay(now, op.pay, op.lost))
    else Nothing
  }

  // The call comes in order for every settlement, and what it closes was added.
  ghost predicate InOrder(y: Sys, hs: Histories, now: u64, op: Op) {
    forall k :: InOrderAt(y, hs, now, op, k)
  }

  ghost predicate InOrderAt(y: Sys, hs: Histories, now: u64, op: Op, k: MultiKey) {
    var m := MeaningAt(y, hs, now, op, k);
    m.Meaning? ==> E.InOrder(HistoryAt(y.f, hs, k), m.event) && Repeats(y, hs, now, op, k)
  }

  predicate Repeats(y: Sys, hs: Histories, now: u64, op: Op, k: MultiKey) {
    Closes(y, now, op, k) ==> E.Order(op.start, op.end, op.sprice, false) in HistoryAt(y.f, hs, k).h
  }

  function OrdersAfter(y: Sys, hs: Histories, now: u64, op: Op, k: MultiKey): seq<E.Order> {
    var h := HistoryAt(y.f, hs, k);
    match MeaningAt(y, hs, now, op, k)
    case Nothing => h.h
    case Meaning(e) => if E.Possible(h, e) then E.Step(h, e).h else h.h
  }

  ghost function After(y: Sys, hs: Histories, now: u64, op: Op): Histories {
    map k | k in Step(y, now, op).f.proInfo :: OrdersAfter(y, hs, now, op, k)
  }

  lemma {:induction false} Found(h: seq<E.Order>, o: E.Order)
    requires o in h
    ensures Find(h, o) < |h| && h[Find(h, o)] == o
    decreases |h|
  {
    if h[0] != o {
      Found(h[1..], o);
    }
  }

  // A call does to the settlement what its meaning says.
  lemma StepMeans(y: Sys, hs: Histories, now: u64, op: Op, k: MultiKey)
    requires InOrderAt(y, hs, now, op, k) && MeaningAt(y, hs, now, op, k).Meaning?
    ensures var h, e := HistoryAt(y.f, hs, k), MeaningAt(y, hs, now, op, k).event;
      && E.Possible(h, e) && E.InOrder(h, e)
      && E.Step(h, e).s == Moved(y, now, op, k)
  {
    hide AddOrder, SubOrder, Added, Subbed, Paid, Find, SettlementOf, E.InOrder, E.Step, E.Possible;
    var h := HistoryAt(y.f, hs, k);
    if Books(y, op, k) {
      AddMeans(h, op.start, op.end, op.size, op.sprice);
    } else if Closes(y, now, op, k) {
      var o := E.Order(op.start, op.end, op.sprice, false);
      Found(h.h, o);
      SubMeans(h, Find(h.h, o), op.size);
    } else {
      PayMeans(h, now, op.pay, op.lost);
    }
  }

  lemma AddMeans(h: E.History, start: u64, end: u64, size: u64, sprice: int)
    requires E.InOrder(h, E.EAdd(start, end, size, sprice))
    ensures var e := E.EAdd(start, end, size, sprice);
      E.Possible(h, e) && E.Step(h, e).s == Added(h.s, start, end, size, sprice)
  {
    hide S.Add, E.Open;
    assert sprice * (end - start) == PayOf(start, end, sprice);
  }

  lemma SubMeans(h: E.History, i: nat, size: u64)
    requires E.InOrder(h, E.ESub(i, size))
    ensures E.Possible(h, E.ESub(i, size))
    ensures E.Step(h, E.ESub(i, size)).s == Subbed(h.s, h.h[i].start, h.h[i].end, size, h.h[i].sprice)
  {
    hide S.Sub, S.EndFee, E.Open;
  }

  lemma PayMeans(h: E.History, now: u64, pay: int, lost: int)
    ensures E.Possible(h, E.EPay(now, pay, lost))
    ensures E.Step(h, E.EPay(now, pay, lost)).s == Paid(h.s, now, pay, lost)
  {
    hide S.Calc, S.Linear;
  }

  lemma StepTracks(y: Sys, hs: Histories, now: u64, op: Op)
    requires Tracked(y.f, hs) && InOrder(y, hs, now, op)
    ensures Tracked(Step(y, now, op).f, After(y, hs, now, op))
  {
    hide Step, Moved, InOrderAt, OrdersAfter, Books, Closes, E.Summary;
    var f, hs' := Step(y, now, op).f, After(y, hs, now, op);
    forall k | k in f.proInfo
      ensures hs'[k] != [] && E.Summary(f.proInfo[k], hs'[k])
    {
      StepMoves(y, now, op, k);
      assert InOrderAt(y, hs, now, op, k);
      SettlementTracks(y, hs, now, op, k);
    }
  }

  lemma SettlementTracks(y: Sys, hs: Histories, now: u64, op: Op, k: MultiKey)
    requires Tracked(y.f, hs) && InOrderAt(y, hs, now, op, k)
    requires k in y.f.proInfo || Books(y, op, k)
    ensures var h := OrdersAfter(y, hs, now, op, k);
      h != [] && E.Summary(Moved(y, now, op, k), h)
  {
    hide InOrderAt, Books, Closes, Claims, Find, E.Summary, E.InOrder, E.Step, E.Possible;
    var h := HistoryAt(y.f, hs, k);
    HistorySummary(y.f, hs, k);
    if MeaningAt(y, hs, now, op, k).Meaning? {
      var e := MeaningAt(y, hs, now, op, k).event;
      StepMeans(y, hs, now, op, k);
      E.StepKeepsSummary(h, e);
      StepLength(h, e);
    }
  }

  lemma HistorySummary(f: Fs, hs: Histories, k: MultiKey)
    requires Tracked(f, hs)
    ensures var h := HistoryAt(f, hs, k);
      E.Summary(h.s, h.h) && (k in f.proInfo <==> h.h != [])
  {
    hide *;
    HistoryParts(f, hs, k);
    E.EmptyIsSummary();
  }

  lemma HistoryParts(f: Fs, hs: Histories, k: MultiKey)
    requires Tracked(f, hs)
    ensures k in hs <==> k in f.proInfo
    ensures var h := HistoryAt(f, hs, k);
      if k in f.proInfo then h == E.History(f.proInfo[k], hs[k]) && hs[k] != [] && E.Summary(f.proInfo[k], hs[k])
      else h == E.History(S.EMPTY, [])
  {
    hide E.Summary;
  }

  lemma StepLength(h: E.History, e: E.Event)
    requires E.Possible(h, e)
    ensures |E.Step(h, e).h| == |h.h| + if e.EAdd? then 1 else 0
  {
    hide S.Add, S.Sub, S.Calc, S.Linear;
  }

  // ---------- Runs in order ----------

  ghost predicate InOrderRun(y: Sys, hs: Histories, ops: seq<Timed>)
    decreases |ops|
  {
    ops == [] ||
    var Timed(now, op) := ops[0];
    InOrder(y, hs, now, op) && InOrderRun(Step(y, now, op), After(y, hs, now, op), ops[1..])
  }

  ghost function HistoriesAfter(y: Sys, hs: Histories, ops: seq<Timed>): Histories
    decreases |ops|
  {
    if ops == [] then hs
    else
      var Timed(now, op) := ops[0];
      HistoriesAfter(Step(y, now, op), After(y, hs, now, op), ops[1..])
  }

  lemma {:induction false} RunTracks(y: Sys, hs: Histories, ops: seq<Timed>)
    requires Tracked(y.f, hs) && InOrderRun(y, hs, ops)
    ensures Tracked(Run(y, ops).f, HistoriesAfter(y, hs, ops))
    decreases |ops|
  {
    hide Tracked, Step, InOrder, After;
    if ops == [] {
    } else {
      var Timed(now, op) := ops[0];
      StepTracks(y, hs, now, op);
      RunTracks(Step(y, now, op), After(y, hs, now, op), ops[1..]);
    }
  }

  // ---------- Coverage ----------

  // Escrow of orders that was not paid to the providers yet.
  ghost function UnpaidIn(f: Fs, t: nat): MultiKey -> int {
    (k: MultiKey) => if k.token == t && k in f.proInfo then f.proInfo[k].maxPay - f.proInfo[k].hasPaid else 0
  }

  ghost function Unpaid(f: Fs, t: nat): int {
    Sum(f.proInfo.Keys, UnpaidIn(f, t))
  }

  // What the released keeper fee may exceed the collected one by: the end fees, and less than
  // 4 for each order but the first with a provider.
  ghost function ShortIn(f: Fs, hs: Histories, t: nat): MultiKey -> int {
    (k: MultiKey) =>
      if k.token == t && k in f.proInfo && k in hs then f.proInfo[k].endPaid + 4 * (|hs[k]| - 1) else 0
  }

  ghost function Short(f: Fs, hs: Histories, t: nat): int {
    Sum(f.proInfo.Keys, ShortIn(f, hs, t))
  }

  // What the contract can be asked to pay at once, and the unpaid escrow, exceed what it owes
  // by the fee shortfall at most.
  lemma ClaimsAreCovered(f: Fs, hs: Histories, t: nat)
    requires Tracked(f, hs)
    ensures Balances(f.balance, t) + Get(f.tAcc, t) + Unpaid(f, t) <= Owed(f, t) + Short(f, hs, t)
    ensures 0 <= Unpaid(f, t)
  {
    hide Balances, E.Summary, Tracked;
    forall k | k in f.proInfo
      ensures UnpaidIn(f, t)(k) <= EscrowIn(f.proInfo, t)(k) + 1 * ShortIn(f, hs, t)(k)
      ensures 0 <= UnpaidIn(f, t)(k)
    {
      HistoryParts(f, hs, k);
      E.KeeperFeeBounds(f.proInfo[k], hs[k]);
      E.EarnedAtMostMax(f.proInfo[k], hs[k]);
      SummaryPaid(f.proInfo[k], hs[k]);
    }
    SumNonNegative(f.proInfo.Keys, UnpaidIn(f, t));
    var covered := (k: MultiKey) => EscrowIn(f.proInfo, t)(k) + 1 * ShortIn(f, hs, t)(k);
    SumLinear(f.proInfo.Keys, EscrowIn(f.proInfo, t), ShortIn(f, hs, t), 1, covered);
    SumAtMost(f.proInfo.Keys, UnpaidIn(f, t), covered);
  }

  lemma SummaryPaid(s: S.Settlement, h: seq<E.Order>)
    requires E.Summary(s, h)
    ensures 0 <= s.hasPaid <= s.canPay
  {
  }

  // From the creation of the contract, over every run whose orders come in order and whose
  // closed orders were added: user, provider and keeper balances, the pot and the unpaid
  // escrow together exceed the money that came in by less than the fee shortfall. With orders
  // at made-up prices there is no such bound: see AnyPriceCloses.
  lemma ClaimsCoveredFromStart(owner: Address, local: Address, foundation: nat, now: u64, w: World,
                               tokens: seq<Address>, ops: seq<Timed>, u: nat)
    requires Distinct(tokens)
    requires var y := Sys(NewFs(owner, local, foundation, now), w, tokens);
      AllowedRun(y, ops) && InOrderRun(y, map[], ops) && u < |Run(y, ops).tokens|
    ensures var y := Sys(NewFs(owner, local, foundation, now), w, tokens);
      var z, hs := Run(y, ops), HistoriesAfter(y, map[], ops);
      && Tracked(z.f, hs)
      && 0 <= Unpaid(z.f, u)
      && Balances(z.f.balance, u) + Get(z.f.tAcc, u) + Unpaid(z.f, u)
         <= BalanceOf(z.w, z.tokens[u], local) - OwnedAtFirst(y, ops, u) - Gifts(y, ops, u) + Short(z.f, hs, u)
  {
    hide Run, AllowedRun, InOrderRun, HistoriesAfter, Gifts, OwnedAtFirst, Balances, Escrows, Unpaid, Short, Tracked;
    var y := Sys(NewFs(owner, local, foundation, now), w, tokens);
    NewIsTracked(owner, local, foundation, now);
    RunTracks(y, map[], ops);
    ConservationFromStart(owner, local, foundation, now, w, tokens, ops, u);
    ClaimsAreCovered(Run(y, ops).f, HistoriesAfter(y, map[], ops), u);
  }

  lemma NewIsTracked(owner: Address, local: Address, foundation: nat, now: u64)
    ensures Tracked(NewFs(owner, local, foundation, now), map[])
  {
  }

  // The code compares no more than the size of a closed order with what was added. Any order
  // whose size fits closes at any price, and puts a hundredth of that price times its duration
  // into the pot; what is owed stays the same, because the escrow falls by as much. So for
  // every amount there is a call that raises what keepers can claim by at least that.
  lemma AnyPriceCloses(f: Fs, now: u64, kindex: nat, user: nat, pro: nat, start: u64, end: u64, size: u64, t: nat,
                       amount: nat)
    requires Inv(f) && FsError(f, user) == NoError && pro in f.fs[user].ao && t in f.fs[user].ao[pro].sInfo
    requires 0 < size <= f.fs[user].ao[pro].sInfo[t].size && start < end <= now
    ensures var (g, err) := SubOrder(f, f.owner, now, kindex, user, pro, start, end, size,
                                     f.fs[user].ao[pro].subNonce, t, 100 * amount);
      && err == NoError && Inv(g)
      && g.balance == f.balance
      && Get(g.tAcc, t) == Get(f.tAcc, t) + amount * (end - start)
      && Get(f.tAcc, t) + amount <= Get(g.tAcc, t)
      && Owed(g, t) == Owed(f, t)
  {
    hide Inv, Owed, CloseOrder, S.EndFee;
    var nonce := f.fs[user].ao[pro].subNonce;
    CloseOrderCompletes(f, kindex, user, pro, start, end, size, t, 100 * amount);
    CloseFields(f, kindex, user, pro, start, end, size, t, 100 * amount);
    SubOrderOwed(f, f.owner, now, kindex, user, pro, start, end, size, nonce, t, 100 * amount, t);
    FeeAtPrice(start, end, amount);
  }

  lemma CloseFields(f: Fs, kindex: nat, user: nat, pro: nat, start: u64, end: u64, size: u64, t: nat, sprice: int)
    requires user in f.fs && pro in f.fs[user].ao && t in f.fs[user].ao[pro].sInfo
    ensures var (g, err) := CloseOrder(f, kindex, user, pro, start, end, size, t, sprice);
      err == NoError ==> g.balance == f.balance && Get(g.tAcc, t) == Get(f.tAcc, t) + S.EndFee(start, end, sprice)
  {
    hide S.Sub, S.EndFee, Closed;
  }

  lemma FeeAtPrice(start: u64, end: u64, amount: nat)
    requires start < end
    ensures S.EndFee(start, end, 100 * amount) == amount * (end - start) && amount <= amount * (end - start)
  {
    HundredTimes(amount, end - start);
    E.TimesGrows(amount, 1, end - start);
  }

  lemma HundredTimes(a: int, d: int)
    ensures 100 * a * d / 100 == a * d
  {
    Regroup(100, a, d);
    Hundredth(a * d);
  }

  lemma Regroup(a: int, b: int, c: int)
    ensures a * b * c == a * (b * c)
  {
  }

  lemma Hundredth(x: int)
    ensures 100 * x / 100 == x
  {
  }

  // A user with 105 orders 100 seconds at 1. Closing that order at 200 puts 200 into the
  // keepers' pot of a contract that owns 105, and what is owed is still 105.
  const DEPOSITED := Fs(Address(1), Address(2), 0, map[MultiKey(5, 0) := 105], [5], map[5 := FsInfo(true, [], map[])],
                        [], 0, map[0 := 0], 0, map[], map[], [0])

  lemma MadeUpPriceOverclaims()
    ensures var (f, err) := AddOrder(DEPOSITED, DEPOSITED.owner, 7, 5, 6, 0, 100, 1, 0, 0, 1);
      var (g, err2) := SubOrder(f, f.owner, 100, 7, 5, 6, 0, 100, 1, 0, 0, 200);
      && Inv(DEPOSITED) && Owed(DEPOSITED, 0) == 105
      && err == NoError && err2 == NoError
      && Get(g.tAcc, 0) == 200 && Owed(g, 0) == 105
      && (forall k :: k in g.balance ==> 0 <= g.balance[k])
  {
    hide Inv, Owed;
    DepositedInv();
    DepositedOrder();
    var f := AddOrder(DEPOSITED, DEPOSITED.owner, 7, 5, 6, 0, 100, 1, 0, 0, 1).0;
    AddOrderKeepsInv(DEPOSITED, DEPOSITED.owner, 7, 5, 6, 0, 100, 1, 0, 0, 1);
    AddOrderOwed(DEPOSITED, DEPOSITED.owner, 7, 5, 6, 0, 100, 1, 0, 0, 1, 0);
    hide AddOrder, SubOrder;
    AnyPriceCloses(f, 100, 7, 5, 6, 0, 100, 1, 0, 2);
  }

  lemma DepositedInv()
    ensures Inv(DEPOSITED) && Owed(DEPOSITED, 0) == 105
  {
    var f := DEPOSITED;
    SumZero(f.count.Keys, CountIn(f.count));
    SumRemove(f.balance.Keys, BalanceIn(f.balance, 0), MultiKey(5, 0));
    assert f.balance.Keys - {MultiKey(5, 0)} == {};
    forall k: MultiKey
      ensures UserPrices(f.fs, k) == 0
    {
      SumZero(f.fs.Keys, PriceIn(f.fs, k));
    }
  }

  lemma DepositedOrder()
    ensures var (f, err) := AddOrder(DEPOSITED, DEPOSITED.owner, 7, 5, 6, 0, 100, 1, 0, 0, 1);
      && err == NoError && f.owner == DEPOSITED.owner
      && FsError(f, 5) == NoError && 6 in f.fs[5].ao && 0 in f.fs[5].ao[6].sInfo
      && f.fs[5].ao[6].subNonce == 0 && f.fs[5].ao[6].sInfo[0].size == 1
      && Get(f.tAcc, 0) == 0 && (forall k :: k in f.balance ==> 0 <= f.balance[k])
  {
    hide S.Add;
    assert PayOf(0, 100, 1) == 100;
  }
}
