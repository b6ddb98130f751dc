// What users, providers and keepers can claim from the storage managers, over runs of the
// whole system whose orders come in order: it is covered by what the managers own, up to the
// keeper fee that was released beyond the collected one.
module SystemClaims {
  import opened Types
  import opened Erc
  import opened System
  import opened SystemRuns
  import P = Pool
  import R = Registry
  import F = Fs
  import I = Issuance
  import M = FsMoney
  import FR = FsRecords
  import Runs = FsRuns
  import H = FsHistories

  // The storage manager of a group with the world it acts in.
  function FsSys(y: Sys, g: nat): Runs.Sys
    requires g < |y.fms|
  {
    Runs.Sys(y.fms[g], y.w, y.reg.tokens)
  }

  datatype Reach = Elsewhere | Reaches(call: Runs.Op)

  // The order or claim that a successful operation takes to the storage manager of group g.
  function ReachOf(y: Sys, now: u64, op: Op, g: nat): Reach
    requires Shape(y)
  {
    if Do(y, now, op).1 != NoError then Elsewhere
    else
      match op
      case OpAddOrder(caller, user, pro, start, end, size, nonce, t, sprice) =>
        if PartyError(y.reg, user, pro, false) == NoError && g == R.InfoOf(y.reg, user).gIndex
        then Reaches(Runs.OpAddOrder(IndexOf(y.reg, caller), user, pro, start, end, size, nonce, t, sprice))
        else Elsewhere
      case OpSubOrder(caller, user, pro, start, end, size, nonce, t, sprice) =>
        if PartyError(y.reg, user, pro, true) == NoError && g == R.InfoOf(y.reg, user).gIndex
        then Reaches(Runs.OpSubOrder(IndexOf(y.reg, caller), user, pro, start, end, size, nonce, t, sprice))
        else Elsewhere
      case OpProWithdraw(index, t, pay, lost) =>
        if MemberError(y.reg, index, t) == NoError && g == R.InfoOf(y.reg, index).gIndex
        then Reaches(Runs.OpProWithdraw(InfoFor(y.reg, index), index, t, pay, lost)) else Elsewhere
      case _ => Elsewhere
  }

  // The settlements of group g after a step.
  ghost predicate SettlesAs(y: Sys, now: u64, op: Op, g: nat)
    requires Shape(y) && g < |y.fms|
  {
    var z, r := Step(y, now, op), ReachOf(y, now, op, g);
    && g < |z.fms|
    && z.fms[g].proInfo == if r.Reaches? then Runs.Step(FsSys(y, g), now, r.call).f.proInfo else y.fms[g].proInfo
  }

  lemma AddSettles(y: Sys, now: u64, op: Op, g: nat)
    requires Shape(y) && g < |y.fms| && op.OpAddOrder? && y.fms[g].owner == y.reg.local
    ensures SettlesAs(y, now, op, g)
  {
    hide P.Coherent, F.AddOrder, I.Book, I.Clock, Send, IndexOf, R.AddToGroup;
  }

  lemma SubSettles(y: Sys, now: u64, op: Op, g: nat)
    requires Shape(y) && g < |y.fms| && op.OpSubOrder? && y.fms[g].owner == y.reg.local
    ensures SettlesAs(y, now, op, g)
  {
    hide P.Coherent, F.SubOrder, IndexOf, R.AddToGroup;
  }

  lemma ClaimSettles(y: Sys, now: u64, op: Op, g: nat)
    requires Shape(y) && g < |y.fms| && op.OpProWithdraw? && y.fms[g].owner == y.reg.local
    ensures SettlesAs(y, now, op, g)
  {
    hide P.Coherent, F.ProWithdraw, F.SettlementOf;
  }

  lemma RechargeSettles(y: Sys, now: u64, op: Op, g: nat)
    requires Shape(y) && g < |y.fms| && op.OpRecharge? && y.fms[g].owner == y.reg.local
    ensures SettlesAs(y, now, op, g)
  {
    hide P.Coherent, F.Recharge, Approved;
    var r := y.reg;
    var OpRecharge(caller, index, t, money) := op;
    if MemberError(r, index, t) == NoError && g == R.InfoOf(r, index).gIndex {
      var addr := if caller == r.admin then r.local else r.addrs[index];
      var w := if caller == r.admin then Approved(y.w, r.tokens[t], r.local, y.fms[g].owner, money) else y.w;
      H.RechargeSettles(y.fms[g], w, addr, index, r.tokens, t, money);
    }
  }

  lemma WithdrawSettles(y: Sys, now: u64, op: Op, g: nat)
    requires Shape(y) && g < |y.fms| && op.OpWithdrawFromFs?
    ensures SettlesAs(y, now, op, g)
  {
    hide P.Coherent, F.Withdraw;
    var r := y.reg;
    var OpWithdrawFromFs(index, t, amount) := op;
    if MemberError(r, index, t) == NoError && g == R.InfoOf(r, index).gIndex {
      H.WithdrawSettles(y.fms[g], y.w, now, InfoFor(r, index), index, r.tokens, t, amount);
    }
  }

  // Operations that reach no storage manager.
  predicate Quiet(op: Op) {
    op.OpRegisterToken? || op.OpRegister? || op.OpRegisterKeeper? || op.OpRegisterProvider? || op.OpSetReady?
    || op.OpAddProvider? || op.OpSetPledgeMoney? || op.OpPledge? || op.OpWithdraw? || op.OpOutside?
  }

  lemma QuietStep(y: Sys, now: u64, op: Op)
    requires Shape(y) && Quiet(op)
    ensures Step(y, now, op).fms == y.fms
  {
    hide P.Coherent, P.Pledge, P.Withdraw, P.AddToken, R.Register, R.RegisterToken, R.RegisterRole, R.SetReady,
      R.AddProviderToGroup, PledgedIn, Approved, R.InfoError;
  }

  lemma QuietSettles(y: Sys, now: u64, op: Op, g: nat)
    requires Shape(y) && g < |y.fms| && Quiet(op)
    ensures SettlesAs(y, now, op, g)
  {
    hide Step, Do, Shape;
    QuietStep(y, now, op);
  }

  lemma MembersSettle(y: Sys, now: u64, op: Op, g: nat)
    requires Shape(y) && g < |y.fms| && (op.OpRegisterUser? || op.OpCreateGroup? || op.OpAddKeeper?)
    ensures SettlesAs(y, now, op, g)
  {
    hide P.Coherent, R.RegisterUser, R.AddKeeperToGroup;
  }

  lemma StepSettles(y: Sys, now: u64, op: Op, g: nat)
    requires Inv(y) && g < |y.fms|
    ensures Shape(y) && SettlesAs(y, now, op, g)
  {
    hide Inv, SettlesAs, Shape;
    InvReg(y);
    InvOwner(y, g);
    match op
    case OpAddOrder(_, _, _, _, _, _, _, _, _) => AddSettles(y, now, op, g);
    case OpSubOrder(_, _, _, _, _, _, _, _, _) => SubSettles(y, now, op, g);
    case OpProWithdraw(_, _, _, _) => ClaimSettles(y, now, op, g);
    case OpRecharge(_, _, _, _) => RechargeSettles(y, now, op, g);
    case OpWithdrawFromFs(_, _, _) => WithdrawSettles(y, now, op, g);
    case OpRegisterUser(_, _) => MembersSettle(y, now, op, g);
    case OpCreateGroup(_, _, _) => MembersSettle(y, now, op, g);
    case OpAddKeeper(_, _) => MembersSettle(y, now, op, g);
    case _ => QuietSettles(y, now, op, g);
  }

  lemma InvOwner(y: Sys, g: nat)
    requires Inv(y) && g < |y.fms|
    ensures y.fms[g].owner == y.reg.local
  {
    hide R.Coherent, P.Inv, FR.Inv, Backed, Guarded;
    InvFs(y, g);
  }

  // A new group has no settlements, and no group goes away.
  lemma GroupsStay(y: Sys, now: u64, op: Op)
    requires Inv(y)
    ensures Shape(y) && |y.fms| <= |Step(y, now, op).fms|
    ensures forall g: nat :: |y.fms| <= g < |Step(y, now, op).fms| ==> Step(y, now, op).fms[g].proInfo == map[]
  {
    hide Inv, Step, Shape;
    InvReg(y);
    if Quiet(op) {
      QuietStep(y, now, op);
    } else if op.OpRegisterUser? || op.OpCreateGroup? || op.OpAddKeeper? {
      MembersStay(y, now, op);
    } else if op.OpAddOrder? || op.OpSubOrder? {
      OrdersStay(y, now, op);
    } else {
      StorageStays(y, now, op);
    }
  }

  lemma MembersStay(y: Sys, now: u64, op: Op)
    requires Shape(y) && (op.OpRegisterUser? || op.OpCreateGroup? || op.OpAddKeeper?)
    ensures |y.fms| <= |Step(y, now, op).fms|
    ensures forall g: nat :: |y.fms| <= g < |Step(y, now, op).fms| ==> Step(y, now, op).fms[g].proInfo == map[]
  {
    hide P.Coherent, R.RegisterUser, R.AddKeeperToGroup, F.CreateFs, F.AddKeeper;
  }

  lemma OrdersStay(y: Sys, now: u64, op: Op)
    requires Shape(y) && (op.OpAddOrder? || op.OpSubOrder?)
    ensures |Step(y, now, op).fms| == |y.fms|
  {
    hide P.Coherent, F.AddOrder, F.SubOrder, I.Book, I.Clock, Send, R.AddToGroup, IndexOf;
  }

  lemma StorageStays(y: Sys, now: u64, op: Op)
    requires Shape(y) && (op.OpRecharge? || op.OpWithdrawFromFs? || op.OpProWithdraw?)
    ensures |Step(y, now, op).fms| == |y.fms|
  {
    hide P.Coherent, F.Recharge, F.Withdraw, F.ProWithdraw, F.SettlementOf, Approved;
  }

  // ---------- Orders behind the settlements of all groups ----------

  ghost predicate AllTracked(y: Sys, hss: seq<H.Histories>) {
    |hss| == |y.fms| && forall g: nat :: g < |y.fms| ==> H.Tracked(y.fms[g], hss[g])
  }

  // Whatever order or claim reaches a group comes in order for it, and what it closes was
  // added.
  ghost predicate InOrder(y: Sys, hss: seq<H.Histories>, now: u64, op: Op)
    requires Shape(y) && |hss| == |y.fms|
  {
    forall g: nat :: g < |y.fms| && ReachOf(y, now, op, g).Reaches? ==>
      H.InOrder(FsSys(y, g), hss[g], now, ReachOf(y, now, op, g).call)
  }

  ghost function AfterIn(y: Sys, hss: seq<H.Histories>, now: u64, op: Op, g: nat): H.Histories
    requires Shape(y) && |hss| == |y.fms|
  {
    if |y.fms| <= g then map[]
    else if ReachOf(y, now, op, g).Reaches? then H.After(FsSys(y, g), hss[g], now, ReachOf(y, now, op, g).call)
    else hss[g]
  }

  ghost function After(y: Sys, hss: seq<H.Histories>, now: u64, op: Op): (hss': seq<H.Histories>)
    requires Shape(y) && |hss| == |y.fms|
    ensures |hss'| == |Step(y, now, op).fms|
  {
    seq(|Step(y, now, op).fms|, (g: int) requires 0 <= g => AfterIn(y, hss, now, op, g))
  }

  lemma TrackedBySettlements(f: F.Fs, f': F.Fs, hs: H.Histories)
    requires H.Tracked(f, hs) && f'.proInfo == f.proInfo
    ensures H.Tracked(f', hs)
  {
  }

  lemma StepTracksAll(y: Sys, hss: seq<H.Histories>, now: u64, op: Op)
    requires Inv(y) && AllTracked(y, hss) && Shape(y) && InOrder(y, hss, now, op)
    ensures AllTracked(Step(y, now, op), After(y, hss, now, op))
  {
    hide Inv, Step, Shape, ReachOf, H.Tracked, H.InOrder, H.After, Runs.Step;
    var z, hss' := Step(y, now, op), After(y, hss, now, op);
    GroupsStay(y, now, op);
    forall g: nat | g < |z.fms|
      ensures H.Tracked(z.fms[g], hss'[g])
    {
      if g < |y.fms| {
        StepSettles(y, now, op, g);
        var r := ReachOf(y, now, op, g);
        if r.Reaches? {
          H.StepTracks(FsSys(y, g), hss[g], now, r.call);
          TrackedBySettlements(Runs.Step(FsSys(y, g), now, r.call).f, z.fms[g], hss'[g]);
        } else {
          TrackedBySettlements(y.fms[g], z.fms[g], hss[g]);
        }
      } else {
        NoOrders(z.fms[g]);
      }
    }
  }

  lemma NoOrders(f: F.Fs)
    requires f.proInfo == map[]
    ensures H.Tracked(f, map[])
  {
  }

  // ---------- Runs ----------

  ghost predicate InOrderRun(y: Sys, hss: seq<H.Histories>, ops: seq<Timed>)
    requires Inv(y) && AllowedRun(y, ops) && |hss| == |y.fms|
    decreases |ops|
  {
    ops == [] ||
    var Timed(now, op) := ops[0];
    (StepKeepsInv(y, now, op);
     InOrder(y, hss, now, op) && InOrderRun(Step(y, now, op), After(y, hss, now, op), ops[1..]))
  }

  ghost function HistoriesAfter(y: Sys, hss: seq<H.Histories>, ops: seq<Timed>): seq<H.Histories>
    requires Inv(y) && AllowedRun(y, ops) && |hss| == |y.fms|
    decreases |ops|
  {
    if ops == [] then hss
    else
      var Timed(now, op) := ops[0];
      StepKeepsInv(y, now, op);
      HistoriesAfter(Step(y, now, op), After(y, hss, now, op), ops[1..])
  }

  lemma {:induction false} RunTracksAll(y: Sys, hss: seq<H.Histories>, ops: seq<Timed>)
    requires Inv(y) && AllowedRun(y, ops) && AllTracked(y, hss) && InOrderRun(y, hss, ops)
    ensures AllTracked(Run(y, ops), HistoriesAfter(y, hss, ops))
    decreases |ops|
  {
    hide Inv, Step, Allowed, InOrder, After, H.Tracked;
    if ops == [] {
    } else {
      var Timed(now, op) := ops[0];
      StepKeepsInv(y, now, op);
      StepTracksAll(y, hss, now, op);
      RunTracksAll(Step(y, now, op), After(y, hss, now, op), ops[1..]);
    }
  }

  // In every reachable state of the whole system, as long as orders come in order and only
  // added orders are closed: the balances of users, providers and keepers, the keepers' pot
  // and the escrow that providers have not been paid are covered by what the storage manager
  // owns, but for the fee shortfall.
  lemma SystemClaimsCovered(y: Sys, hss: seq<H.Histories>, ops: seq<Timed>, g: nat, t: nat)
    requires Inv(y) && AllowedRun(y, ops) && AllTracked(y, hss) && InOrderRun(y, hss, ops)
    ensures var z, hss' := Run(y, ops), HistoriesAfter(y, hss, ops);
      && |hss'| == |z.fms|
      && (g < |z.fms| && t < |z.reg.tokens| ==>
            && 0 <= H.Unpaid(z.fms[g], t)
            && M.Balances(z.fms[g].balance, t) + Get(z.fms[g].tAcc, t) + H.Unpaid(z.fms[g], t)
               <= BalanceOf(z.w, z.reg.tokens[t], z.fms[g].local) + H.Short(z.fms[g], hss'[g], t))
  {
    hide Inv, Run, HistoriesAfter, InOrderRun, M.Owed, M.Balances, H.Unpaid, H.Short, H.Tracked;
    RunTracksAll(y, hss, ops);
    var z, hss' := Run(y, ops), HistoriesAfter(y, hss, ops);
    if g < |z.fms| && t < |z.reg.tokens| {
      SafeState(z, t, g);
      H.ClaimsAreCovered(z.fms[g], hss'[g], t);
    }
  }

  lemma NewIsAllTracked(w: World, local: Address, poolLocal: Address, admin: Address, foundation: Address,
                        ptoken: Address, kPledge: int, pPledge: int, now: u64)
    ensures AllTracked(NewSys(w, local, poolLocal, admin, foundation, ptoken, kPledge, pPledge, now), [])
  {
  }
}
