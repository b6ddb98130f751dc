// The running price that the role manager keeps for each group, against the settlements of the
// group's storage manager. An order adds its price in the main token only; closing an order
// subtracts its price whatever its token.
module SystemTotals {
  import opened Types
  import opened Sums
  import opened Erc
  import opened System
  import opened SystemRuns
  import opened SystemClaims
  import P = Pool
  import R = Registry
  import F = Fs
  import I = Issuance
  import FR = FsRecords
  import Runs = FsRuns
  import H = FsHistories
  import S = Settlements

  // ---------- One storage manager ----------

  ghost function MainPriceIn(f: F.Fs): MultiKey -> int {
    (k: MultiKey) => if k.token == 0 then F.SettlementOf(f, k).price else 0
  }

  // The running price of all settlements in the main token.
  ghost function MainPrice(f: F.Fs): int {
    Sum(f.proInfo.Keys, MainPriceIn(f))
  }

  // What a call adds to the running price of the settlement k.
  function PriceMove(y: Runs.Sys, now: u64, call: Runs.Op, k: MultiKey): int {
    if H.Books(y, call, k) then call.sprice else if H.Closes(y, now, call, k) then -call.sprice else 0
  }

  lemma PriceMoves(y: Runs.Sys, now: u64, call: Runs.Op, k: MultiKey)
    ensures var f := Runs.Step(y, now, call).f;
      && F.SettlementOf(f, k).price == F.SettlementOf(y.f, k).price + PriceMove(y, now, call, k)
      && (k in f.proInfo <==> k in y.f.proInfo || H.Books(y, call, k))
  {
    hide Runs.Step, H.Books, H.Closes, H.Claims, F.PayOf, S.EndFee;
    H.StepMoves(y, now, call, k);
  }

  lemma MainPriceMoves(y: Runs.Sys, now: u64, call: Runs.Op, k: MultiKey)
    requires forall j: MultiKey :: H.Books(y, call, j) || H.Closes(y, now, call, j) ==> j == k
    ensures MainPrice(Runs.Step(y, now, call).f)
            == MainPrice(y.f) + if k.token == 0 then PriceMove(y, now, call, k) else 0
  {
    hide Runs.Step, F.SettlementOf, PriceMove, H.Books, H.Closes;
    var f := Runs.Step(y, now, call).f;
    forall j: MultiKey
      ensures F.SettlementOf(f, j).price == F.SettlementOf(y.f, j).price + PriceMove(y, now, call, j)
      ensures j in f.proInfo <==> j in y.f.proInfo || H.Books(y, call, j)
      ensures j != k ==> PriceMove(y, now, call, j) == 0
    {
      PriceMoves(y, now, call, j);
      if j != k {
        NoPriceMove(y, now, call, j);
      }
    }
    Unlisted(y.f, k);
    Unlisted(f, k);
    SumPut(y.f.proInfo.Keys, MainPriceIn(y.f), MainPriceIn(f), k);
    if k in f.proInfo {
      assert f.proInfo.Keys == y.f.proInfo.Keys + {k};
    } else {
      assert f.proInfo.Keys == y.f.proInfo.Keys;
      SumInsert(f.proInfo.Keys, MainPriceIn(f), k);
    }
  }

  lemma NoPriceMove(y: Runs.Sys, now: u64, call: Runs.Op, k: MultiKey)
    requires !H.Books(y, call, k) && !H.Closes(y, now, call, k)
    ensures PriceMove(y, now, call, k) == 0
  {
    hide H.Books, H.Closes;
  }

  lemma Unlisted(f: F.Fs, k: MultiKey)
    ensures k !in f.proInfo ==> F.SettlementOf(f, k).price == 0
  {
  }

  // ---------- One operation ----------

  // How far the price that is kept for group g is above the settlements' running price.
  ghost function Drift(y: Sys, g: nat): int {
    if g < |y.fms| && g < |y.reg.groups| then y.reg.groups[g].price - MainPrice(y.fms[g]) else 0
  }

  // The price that group g loses by closing an order in another token.
  function Misbooked(y: Sys, now: u64, op: Op, g: nat): int
    requires Shape(y)
  {
    if op.OpSubOrder? && op.t != 0 && ReachOf(y, now, op, g).Reaches? then op.sprice else 0
  }

  // What a step adds to the price that is kept for group g.
  function GroupMove(y: Sys, now: u64, op: Op, g: nat): int
    requires Shape(y)
  {
    if !ReachOf(y, now, op, g).Reaches? then 0
    else if op.OpAddOrder? && op.t == 0 then op.sprice
    else if op.OpSubOrder? then -op.sprice
    else 0
  }

  // An order that reaches the storage manager in a successful step is booked or closed there.
  ghost predicate GroupMoves(y: Sys, now: u64, op: Op, g: nat)
    requires Shape(y) && g < |y.fms|
  {
    var z, r := Step(y, now, op), ReachOf(y, now, op, g);
    && |z.reg.groups| == |z.fms| && g < |z.fms|
    && z.reg.groups[g].price == y.reg.groups[g].price + GroupMove(y, now, op, g)
    && (r.Reaches? && r.call.OpAddOrder? ==> H.Books(FsSys(y, g), r.call, MultiKey(op.pro, op.t)))
    && (r.Reaches? && r.call.OpSubOrder? ==> H.Closes(FsSys(y, g), now, r.call, MultiKey(op.pro, op.t)))
  }

  // What a successful order leaves: the issuance moves neither groups nor storage managers.
  lemma AddedOrder(y: Sys, now: u64, op: Op)
    requires Shape(y) && op.OpAddOrder? && Do(y, now, op).1 == NoError
    ensures PartyError(y.reg, op.user, op.pro, false) == NoError
    ensures var g := R.InfoOf(y.reg, op.user).gIndex;
      var z := Step(y, now, op);
      var (f, err) := F.AddOrder(y.fms[g], y.reg.local, IndexOf(y.reg, op.caller), op.user, op.pro, op.start, op.end,
                                 op.size, op.nonce, op.t, op.sprice);
      && err == NoError && z.fms == y.fms[g := f]
      && z.reg == if op.t == 0 then R.AddToGroup(y.reg, g, op.size, op.sprice) else y.reg
  {
    hide P.Coherent, F.AddOrder, I.Book, I.Clock, Send, IndexOf, R.InfoError, R.AddToGroup;
  }

  lemma AddGroupMoves(y: Sys, now: u64, op: Op, g: nat)
    requires Shape(y) && g < |y.fms| && op.OpAddOrder? && y.fms[g].owner == y.reg.local
    ensures GroupMoves(y, now, op, g)
  {
    hide P.Coherent, F.AddOrder, Do, AddOrder, IndexOf, R.InfoError;
    if Do(y, now, op).1 == NoError {
      AddedOrder(y, now, op);
      hide Step;
    }
  }

  lemma SubGroupMoves(y: Sys, now: u64, op: Op, g: nat)
    requires Shape(y) && g < |y.fms| && op.OpSubOrder? && y.fms[g].owner == y.reg.local
    ensures GroupMoves(y, now, op, g)
  {
    hide P.Coherent, F.SubOrder, IndexOf;
  }

  lemma StorageGroupStays(y: Sys, now: u64, op: Op, g: nat)
    requires Shape(y) && g < |y.fms| && (op.OpRecharge? || op.OpWithdrawFromFs? || op.OpProWithdraw?)
    ensures GroupMoves(y, now, op, g)
  {
    hide P.Coherent, F.Recharge, F.Withdraw, F.ProWithdraw, F.SettlementOf, Approved;
  }

  lemma MembersGroupStays(y: Sys, now: u64, op: Op, g: nat)
    requires Shape(y) && g < |y.fms| && (op.OpRegisterUser? || op.OpCreateGroup? || op.OpAddKeeper?)
    ensures GroupMoves(y, now, op, g)
  {
    hide P.Coherent, F.CreateFs, F.AddKeeper;
  }

  lemma QuietGroupStays(y: Sys, now: u64, op: Op, g: nat)
    requires Shape(y) && g < |y.fms| && Quiet(op)
    ensures GroupMoves(y, now, op, g)
  {
    hide P.Coherent, P.Pledge, P.Withdraw, P.AddToken, PledgedIn, Approved, R.InfoError;
  }

  lemma StepMovesGroup(y: Sys, now: u64, op: Op, g: nat)
    requires Inv(y) && Shape(y) && g < |y.fms|
    ensures GroupMoves(y, now, op, g)
  {
    hide Inv, GroupMoves, Shape;
    InvOwner(y, g);
    match op
    case OpAddOrder(_, _, _, _, _, _, _, _, _) => AddGroupMoves(y, now, op, g);
    case OpSubOrder(_, _, _, _, _, _, _, _, _) => SubGroupMoves(y, now, op, g);
    case OpProWithdraw(_, _, _, _) => StorageGroupStays(y, now, op, g);
    case OpRecharge(_, _, _, _) => StorageGroupStays(y, now, op, g);
    case OpWithdrawFromFs(_, _, _) => StorageGroupStays(y, now, op, g);
    case OpRegisterUser(_, _) => MembersGroupStays(y, now, op, g);
    case OpCreateGroup(_, _, _) => MembersGroupStays(y, now, op, g);
    case OpAddKeeper(_, _) => MembersGroupStays(y, now, op, g);
    case _ => QuietGroupStays(y, now, op, g);
  }

  // A group that a step creates starts without price and without orders.
  lemma NewGroups(y: Sys, now: u64, op: Op, g: nat)
    requires Inv(y) && Shape(y) && |y.fms| <= g
    ensures Drift(Step(y, now, op), g) == 0
  {
    hide Inv, MainPrice, Step;
    if op.OpCreateGroup? {
      CreatedGroup(y, now, op, g);
    } else if Quiet(op) {
      QuietStep(y, now, op);
    } else if op.OpRegisterUser? || op.OpAddKeeper? {
      MembersStayIn(y, now, op);
    } else if op.OpAddOrder? || op.OpSubOrder? {
      OrdersStay(y, now, op);
    } else {
      StorageStays(y, now, op);
    }
  }

  lemma MembersStayIn(y: Sys, now: u64, op: Op)
    requires Shape(y) && (op.OpRegisterUser? || op.OpAddKeeper?)
    ensures |Step(y, now, op).fms| == |y.fms|
  {
    hide P.Coherent, R.RegisterUser, R.AddKeeperToGroup, F.CreateFs, F.AddKeeper;
  }

  lemma CreatedGroup(y: Sys, now: u64, op: Op, g: nat)
    requires Shape(y) && op.OpCreateGroup? && |y.fms| <= g
    ensures Drift(Step(y, now, op), g) == 0
  {
    hide P.Coherent;
  }

  lemma NewGroupUnreached(y: Sys, now: u64, op: Op, g: nat)
    requires Shape(y) && |y.fms| <= g
    ensures !ReachOf(y, now, op, g).Reaches?
  {
    hide P.Coherent, Do;
  }

  lemma SamePrices(f: F.Fs, f': F.Fs)
    requires f.proInfo == f'.proInfo
    ensures MainPrice(f) == MainPrice(f')
  {
    SumAgree(f.proInfo.Keys, MainPriceIn(f), MainPriceIn(f'));
  }

  // The settlements of the group that a successful order reaches move by its price, if it is
  // one in the main token.
  lemma ReachedMoves(y: Sys, now: u64, op: Op, g: nat)
    requires Shape(y) && g < |y.fms| && ReachOf(y, now, op, g).Reaches? && GroupMoves(y, now, op, g)
    ensures MainPrice(Runs.Step(FsSys(y, g), now, ReachOf(y, now, op, g).call).f)
            == MainPrice(y.fms[g]) + GroupMove(y, now, op, g) + Misbooked(y, now, op, g)
  {
    hide MainPrice, Runs.Step, Step, Shape, Do;
    var call := ReachOf(y, now, op, g).call;
    var k := MultiKey(call.pro, call.t);
    MainPriceMoves(FsSys(y, g), now, call, k);
  }

  // Every step moves a group's price as it moves the running price of the group's settlements
  // in the main token, but for the orders it closes in another token: their price is taken
  // away, and had never been added. So it keeps the two equal if and only if it closes no order
  // with a price in another token.
  lemma StepMovesTotal(y: Sys, now: u64, op: Op, g: nat)
    requires Inv(y) && Shape(y)
    ensures Drift(Step(y, now, op), g) == Drift(y, g) - Misbooked(y, now, op, g)
  {
    hide Inv, MainPrice, Step, ReachOf, P.Coherent, Runs.Step;
    if g < |y.fms| {
      StepSettles(y, now, op, g);
      StepMovesGroup(y, now, op, g);
      var z := Step(y, now, op);
      if ReachOf(y, now, op, g).Reaches? {
        ReachedMoves(y, now, op, g);
        SamePrices(Runs.Step(FsSys(y, g), now, ReachOf(y, now, op, g).call).f, z.fms[g]);
      } else {
        SamePrices(y.fms[g], z.fms[g]);
      }
    } else {
      NewGroups(y, now, op, g);
      NewGroupUnreached(y, now, op, g);
    }
  }

  // The condition fails in earnest: an order in another token that fits what was added closes at
  // any price, and the price kept for the group falls by as much.
  lemma OtherTokenLowersTotal(y: Sys, now: u64, caller: Address, user: nat, pro: nat, start: u64, end: u64, size: u64,
                              t: nat, amount: nat)
    requires Inv(y) && Shape(y) && PartyError(y.reg, user, pro, true) == NoError && t != 0
    requires var f := y.fms[R.InfoOf(y.reg, user).gIndex];
      && F.FsError(f, user) == NoError && pro in f.fs[user].ao && t in f.fs[user].ao[pro].sInfo
      && 0 < size <= f.fs[user].ao[pro].sInfo[t].size && start < end <= now
    ensures var g := R.InfoOf(y.reg, user).gIndex;
      var nonce := y.fms[g].fs[user].ao[pro].subNonce;
      var op := OpSubOrder(caller, user, pro, start, end, size, nonce, t, 100 * amount);
      && Do(y, now, op).1 == NoError
      && Drift(Step(y, now, op), g) == Drift(y, g) - 100 * amount
  {
    hide Inv, P.Coherent, FR.Inv, F.SubOrder, IndexOf, Drift, Step;
    var g := R.InfoOf(y.reg, user).gIndex;
    var nonce := y.fms[g].fs[user].ao[pro].subNonce;
    var op := OpSubOrder(caller, user, pro, start, end, size, nonce, t, 100 * amount);
    InvRecords(y, g);
    H.AnyPriceCloses(y.fms[g], now, IndexOf(y.reg, caller), user, pro, start, end, size, t, amount);
    StepMovesTotal(y, now, op, g);
  }

  lemma InvRecords(y: Sys, g: nat)
    requires Inv(y) && g < |y.fms|
    ensures FR.Inv(y.fms[g]) && y.fms[g].owner == y.reg.local
  {
    hide R.Coherent, P.Inv, FR.Inv, Backed, Guarded;
    InvFs(y, g);
  }

  // ---------- Runs ----------

  ghost function MisbookedOver(y: Sys, ops: seq<Timed>, g: nat): int
    requires Inv(y) && AllowedRun(y, ops)
    decreases |ops|
  {
    if ops == [] then 0
    else
      var Timed(now, op) := ops[0];
      StepKeepsInv(y, now, op);
      Misbooked(y, now, op, g) + MisbookedOver(Step(y, now, op), ops[1..], g)
  }

  lemma {:induction false} RunMovesTotal(y: Sys, ops: seq<Timed>, g: nat)
    requires Inv(y) && AllowedRun(y, ops)
    ensures Drift(Run(y, ops), g) == Drift(y, g) - MisbookedOver(y, ops, g)
    decreases |ops|
  {
    hide Inv, Step, Allowed, Drift, Misbooked;
    if ops == [] {
    } else {
      var Timed(now, op) := ops[0];
      StepKeepsInv(y, now, op);
      StepMovesTotal(y, now, op, g);
      RunMovesTotal(Step(y, now, op), ops[1..], g);
    }
  }

  // From creation: the price kept for a group is the running price of its settlements in the
  // main token, less the prices of the orders closed in other tokens. The two are equal if and
  // only if those prices add up to nothing.
  lemma GroupPriceFollows(w: World, local: Address, poolLocal: Address, admin: Address, foundation: Address,
                          ptoken: Address, kPledge: int, pPledge: int, start: u64, ops: seq<Timed>, g: nat)
    requires var y := NewSys(w, local, poolLocal, admin, foundation, ptoken, kPledge, pPledge, start);
      Inv(y) && AllowedRun(y, ops)
    ensures var y := NewSys(w, local, poolLocal, admin, foundation, ptoken, kPledge, pPledge, start);
      var z := Run(y, ops);
      && |z.reg.groups| == |z.fms|
      && (g < |z.fms| ==> z.reg.groups[g].price == MainPrice(z.fms[g]) - MisbookedOver(y, ops, g))
  {
    hide Inv, Run, AllowedRun, MainPrice, MisbookedOver;
    var y := NewSys(w, local, poolLocal, admin, foundation, ptoken, kPledge, pPledge, start);
    RunMovesTotal(y, ops, g);
    InvReg(Run(y, ops));
  }
}
