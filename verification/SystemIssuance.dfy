// Issuance inside whole-system runs: registration, pledging, storage payments and orders in
// other tokens come between the calls that issue, and none of them disturbs the totals. A run
// of the whole system issues exactly as its main-token orders do on their own.
module SystemIssuance {
  import opened Types
  import opened Sums
  import opened Erc
  import opened System
  import opened SystemRuns
  import P = Pool
  import R = Registry
  import F = Fs
  import I = Issuance

  // The issuance call of an order operation.
  function CallOf(now: u64, op: Op): I.Call
    requires op.OpAddOrder?
  {
    I.Call(now, op.start, op.end, op.size, op.sprice)
  }

  // op is an order in the main token, and it succeeds.
  predicate Issues(y: Sys, now: u64, op: Op)
    requires Shape(y)
  {
    op.OpAddOrder? && op.t == 0 && Do(y, now, op).1 == NoError
  }

  // The issuance calls of a run, in order.
  ghost function CallsIn(y: Sys, ops: seq<Timed>): seq<I.Call>
    requires Inv(y) && AllowedRun(y, ops)
    decreases |ops|
  {
    if ops == [] then []
    else
      var Timed(now, op) := ops[0];
      StepKeepsInv(y, now, op);
      var later := CallsIn(Step(y, now, op), ops[1..]);
      if Issues(y, now, op) then [CallOf(now, op)] + later else later
  }

  // The totals agree but for totalPaid, to which losses admitted by providers are added.
  predicate SameTotals(s: I.Issue, z: I.Issue) {
    z == s.(totalPaid := z.totalPaid)
  }

  // ---------- One step ----------

  // A successful main-token order is one issuance call.
  lemma OrderIssues(y: Sys, now: u64, op: Op)
    requires Shape(y) && Issues(y, now, op)
    ensures I.Accepted(CallOf(now, op)) && Step(y, now, op).iss == I.AddOrder(y.iss, CallOf(now, op))
  {
    hide P.Coherent, F.AddOrder, I.Book, I.Clock, Send, PartyError, R.AddToGroup;
  }

  // Every other step leaves the issuance totals alone, but for the losses that a provider
  // admits.
  lemma OthersDoNotIssue(y: Sys, now: u64, op: Op)
    requires Shape(y) && !Issues(y, now, op)
    ensures SameTotals(y.iss, Step(y, now, op).iss)
  {
    hide P.Coherent, P.Pledge, P.Withdraw, P.AddToken, F.Recharge, F.Withdraw, F.ProWithdraw, F.AddOrder, F.SubOrder,
      F.CreateFs, F.AddKeeper, I.Book, I.Clock, Send, Approved, PartyError, MemberError, PledgedIn, R.AddToGroup,
      R.Register, R.RegisterToken, R.RegisterRole, R.RegisterUser, R.CreateGroup, R.SetReady, R.AddKeeperToGroup,
      R.AddProviderToGroup, R.UserError, R.KeeperError, R.InfoError;
  }

  // Nothing that a call computes depends on totalPaid.
  lemma BookFromTotals(s: I.Issue, z: I.Issue, c: I.Call)
    requires SameTotals(s, z)
    ensures SameTotals(I.AddOrder(s, c), I.AddOrder(z, c))
    ensures I.Book(s, c).paid == I.Book(z, c).paid && I.Book(s, c).reward == I.Book(z, c).reward
  {
    hide I.MintLoop, I.Clock, I.Crosses, I.DayOf;
  }

  lemma SummaryFromTotals(s: I.Issue, z: I.Issue, h: seq<I.Order>, paid: int)
    requires I.Summary(s, h, paid) && SameTotals(s, z)
    ensures I.Summary(z, h, paid)
  {
  }

  // ---------- Refinement ----------

  // Over every run of the whole system, issuance is that of the issuance calls alone.
  lemma {:induction false} SystemRefinesIssuance(y: Sys, ops: seq<Timed>, r: I.Outcome)
    requires Inv(y) && AllowedRun(y, ops) && SameTotals(r.s, y.iss)
    ensures SameTotals(I.Run(r, CallsIn(y, ops)).s, Run(y, ops).iss)
    decreases |ops|
  {
    hide Inv, Step, Do, Allowed, I.Book, I.AddOrder, SameTotals;
    if ops == [] {
      assert CallsIn(y, ops) == [];
    } else {
      var Timed(now, op) := ops[0];
      StepKeepsInv(y, now, op);
      var y1 := Step(y, now, op);
      var later := CallsIn(y1, ops[1..]);
      if Issues(y, now, op) {
        var c := CallOf(now, op);
        OrderIssues(y, now, op);
        BookFromTotals(r.s, y.iss, c);
        assert ([c] + later)[1..] == later;
        SystemRefinesIssuance(y1, ops[1..], I.Apply(r, c));
      } else {
        OthersDoNotIssue(y, now, op);
        TotalsAgain(r.s, y.iss, y1.iss);
        SystemRefinesIssuance(y1, ops[1..], r);
      }
    }
  }

  lemma TotalsAgain(s: I.Issue, y: I.Issue, z: I.Issue)
    requires SameTotals(s, y) && SameTotals(y, z)
    ensures SameTotals(s, z)
  {
  }

  // Issuance is a per-order integral in every run of the whole system: the running price and
  // size are those of the accepted main-token orders that have not ended, and what was
  // reported as paid is each such order's price times the time since its booking.
  lemma SystemIssuesIntegral(y: Sys, ops: seq<Timed>, r: I.Outcome)
    requires Inv(y) && AllowedRun(y, ops) && SameTotals(r.s, y.iss)
    requires I.Summary(r.s, r.h, r.paid) && I.OnTime(r, CallsIn(y, ops))
    ensures var z := I.Run(r, CallsIn(y, ops));
      && I.Summary(Run(y, ops).iss, z.h, z.paid)
      && Run(y, ops).iss.price == SumSeq(z.h, I.Live(Run(y, ops).iss.lastMint))
      && Run(y, ops).iss.size == SumSeq(z.h, I.LiveSize(Run(y, ops).iss.lastMint))
      && z.paid == SumSeq(z.h, I.Integral(Run(y, ops).iss.lastMint))
  {
    hide Inv, Run, CallsIn, I.Run, I.OnTime, SumSeq;
    SystemRefinesIssuance(y, ops, r);
    I.IssuanceIsIntegral(r, CallsIn(y, ops));
    var z := I.Run(r, CallsIn(y, ops));
    SummaryFromTotals(z.s, Run(y, ops).iss, z.h, z.paid);
  }

  // ---------- Rewards ----------

  // The token transfer behind a main-token order.
  lemma OrderSends(y: Sys, now: u64, op: Op)
    requires Shape(y) && Issues(y, now, op)
    ensures 0 < |y.reg.tokens| && Step(y, now, op).pool == y.pool
    ensures var b := I.Book(y.iss, CallOf(now, op));
      if b.paid <= 0 then Step(y, now, op).w == y.w
      else Send(y.w, y.reg.tokens[0], y.reg.local, y.pool.local, b.reward) == (Step(y, now, op).w, NoError)
  {
    hide P.Coherent, F.AddOrder, I.Book, I.Clock, Send, PartyError;
    var b := I.Book(y.iss, CallOf(now, op));
    var (w, err) := Send(y.w, y.reg.tokens[0], y.reg.local, y.pool.local, b.reward);
    assert 0 < b.paid ==> err == NoError && w == Step(y, now, op).w;
  }

  // Main tokens that a step puts into the pledge pool by issuing.
  ghost function SentBy(y: Sys, now: u64, op: Op): int
    requires Inv(y)
  {
    InvTokens(y);
    if Issues(y, now, op) then P.Bal(y.pool, Step(y, now, op).w, 0) - P.Bal(y.pool, y.w, 0) else 0
  }

  ghost function AllSentBy(y: Sys, ops: seq<Timed>): int
    requires Inv(y) && AllowedRun(y, ops)
    decreases |ops|
  {
    if ops == [] then 0
    else
      StepKeepsInv(y, ops[0].now, ops[0].op);
      SentBy(y, ops[0].now, ops[0].op) + AllSentBy(Step(y, ops[0].now, ops[0].op), ops[1..])
  }

  lemma InvTokens(y: Sys)
    requires Inv(y)
    ensures Shape(y) && 0 < |y.reg.tokens| == |y.pool.tokens| && y.iss.mintLevel < |I.MINT|
  {
    hide R.Coherent, P.Inv;
    InvReg(y);
  }

  // The reward of a main-token order reaches the pledge pool in full, out of the role
  // manager's own account, and lies between the amount due and twice that.
  lemma RewardReachesPool(y: Sys, now: u64, op: Op)
    requires Inv(y) && Issues(y, now, op)
    ensures Shape(y) && 0 < |y.reg.tokens| && Step(y, now, op).pool == y.pool
    ensures var z, b := Step(y, now, op), I.Book(y.iss, CallOf(now, op));
      && SentBy(y, now, op) == b.reward
      && Max(0, b.paid) <= b.reward <= 2 * Max(0, b.paid)
      && BalanceOf(z.w, y.reg.tokens[0], y.reg.local) == BalanceOf(y.w, y.reg.tokens[0], y.reg.local) - b.reward
  {
    hide Step, Do, P.Coherent, P.Inv, I.Book, R.Coherent, Inv;
    InvReg(y);
    OrderSends(y, now, op);
    var b := I.Book(y.iss, CallOf(now, op));
    I.RewardBounds(y.iss, CallOf(now, op));
    var token := y.reg.tokens[0];
    SendEffect(y.w, token, y.reg.local, y.pool.local, b.reward, token, y.pool.local);
    SendEffect(y.w, token, y.reg.local, y.pool.local, b.reward, token, y.reg.local);
  }

  // Over every run, what the pool receives by issuing is the rewards of the issuance calls.
  lemma {:induction false} RewardsAreSent(y: Sys, ops: seq<Timed>, r: I.Outcome)
    requires Inv(y) && AllowedRun(y, ops) && SameTotals(r.s, y.iss)
    ensures I.Run(r, CallsIn(y, ops)).rewards == r.rewards + AllSentBy(y, ops)
    decreases |ops|
  {
    hide Inv, Step, Do, Allowed, SentBy, I.Book, I.AddOrder, SameTotals;
    if ops == [] {
      assert CallsIn(y, ops) == [];
    } else {
      var Timed(now, op) := ops[0];
      StepKeepsInv(y, now, op);
      var y1 := Step(y, now, op);
      var later := CallsIn(y1, ops[1..]);
      if Issues(y, now, op) {
        var c := CallOf(now, op);
        OrderIssues(y, now, op);
        BookFromTotals(r.s, y.iss, c);
        RewardReachesPool(y, now, op);
        assert ([c] + later)[1..] == later;
        RewardsAreSent(y1, ops[1..], I.Apply(r, c));
      } else {
        OthersDoNotIssue(y, now, op);
        TotalsAgain(r.s, y.iss, y1.iss);
        NothingSent(y, now, op);
        RewardsAreSent(y1, ops[1..], r);
      }
    }
  }

  lemma NothingSent(y: Sys, now: u64, op: Op)
    requires Inv(y) && Shape(y) && !Issues(y, now, op)
    ensures SentBy(y, now, op) == 0
  {
  }

  // The issuance bound in the whole system: from its creation, over every run of sound
  // main-token orders among any other calls, the pledge pool receives between what became due
  // and twice that by issuing, and never more than twice what the orders pay altogether.
  lemma SystemIssuanceBound(y: Sys, ops: seq<Timed>, now: int)
    requires Inv(y) && AllowedRun(y, ops) && y.iss == I.NewIssue(now)
    requires var r := I.Outcome(I.NewIssue(now), [], 0, 0, 0);
      I.OnTime(r, CallsIn(y, ops)) && I.SoundRun(r, CallsIn(y, ops))
    ensures var paid := I.Run(I.Outcome(I.NewIssue(now), [], 0, 0, 0), CallsIn(y, ops)).paid;
      && paid <= AllSentBy(y, ops) <= 2 * paid
      && AllSentBy(y, ops) <= 2 * Run(y, ops).iss.totalPay
  {
    hide Inv, Run, CallsIn, AllSentBy, I.Run, I.OnTime, I.SoundRun;
    var r := I.Outcome(I.NewIssue(now), [], 0, 0, 0);
    SystemRefinesIssuance(y, ops, r);
    RewardsAreSent(y, ops, r);
    I.IssuanceBound(now, CallsIn(y, ops));
  }
}
