// Orders over runs of the storage manager, with nothing undone: numbers are used once and in
// turn, no order is closed before its end, and records and keepers' counters say how many orders
// there were.
module FsCounts {
  import opened Types
  import opened Erc
  import opened Fs
  import opened FsRecords
  import opened FsRuns
  import opened FsEffects
  import S = Settlements

  // The call adds an order of user with pro,
  predicate Adds(y: Sys, op: Op, user: nat, pro: nat) {
    && op.OpAddOrder? && op.user == user && op.pro == pro
    && AddOrder(y.f, y.f.owner, op.kindex, user, pro, op.start, op.end, op.size, op.nonce, op.t, op.sprice).1 == NoError
  }

  // or closes one.
  predicate Closes(y: Sys, now: u64, op: Op, user: nat, pro: nat) {
    && op.OpSubOrder? && op.user == user && op.pro == pro
    && SubOrder(y.f, y.f.owner, now, op.kindex, user, pro, op.start, op.end, op.size, op.nonce, op.t, op.sprice).1
       == NoError
  }

  // What the call counts for the keeper k: its joining, or an order that it handles.
  function Handles(y: Sys, now: u64, op: Op, k: nat): nat {
    if op.OpAddKeeper? then if op.kindex == k then 1 else 0
    else if k in y.f.count && op.OpAddOrder? && op.kindex == k && Adds(y, op, op.user, op.pro) then 1
    else if k in y.f.count && op.OpSubOrder? && op.kindex == k && Closes(y, now, op, op.user, op.pro) then 1
    else 0
  }

  // What user stores with pro for t after the call.
  function Stored(y: Sys, now: u64, op: Op, user: nat, pro: nat, t: nat): StoreInfo {
    var rec := RecordOf(y.f.fs, user, pro, t);
    if Adds(y, op, user, pro) && op.t == t then StoreInfo(rec.time, Add64(rec.size, op.size), rec.price + op.sprice)
    else if Closes(y, now, op, user, pro) && op.t == t
    then StoreInfo(rec.time, Sub64(rec.size, op.size), rec.price - op.sprice)
    else rec
  }

  // ---------- One call ----------

  // The records and counters after a call.
  ghost predicate Follows(y: Sys, z: Sys, now: u64, op: Op, user: nat, pro: nat, t: nat, k: nat) {
    && NonceOf(z.f.fs, user, pro) == NonceOf(y.f.fs, user, pro) + (if Adds(y, op, user, pro) then 1 else 0)
    && SubNonceOf(z.f.fs, user, pro) == SubNonceOf(y.f.fs, user, pro) + (if Closes(y, now, op, user, pro) then 1 else 0)
    && RecordOf(z.f.fs, user, pro, t) == Stored(y, now, op, user, pro, t)
    && CountOf(z.f, k) == CountOf(y.f, k) + Handles(y, now, op, k)
  }

  lemma AddFollows(y: Sys, now: u64, op: Op, user: nat, pro: nat, t: nat, k: nat)
    requires op.OpAddOrder?
    ensures Follows(y, Step(y, now, op), now, op, user, pro, t, k)
  {
    hide AddOrder, NonceOf, SubNonceOf, RecordOf;
    AddOrderEffect(y.f, y.f.owner, op.kindex, op.user, op.pro, op.start, op.end, op.size, op.nonce, op.t, op.sprice);
  }

  lemma SubFollows(y: Sys, now: u64, op: Op, user: nat, pro: nat, t: nat, k: nat)
    requires Good(y) && op.OpSubOrder?
    ensures Follows(y, Step(y, now, op), now, op, user, pro, t, k)
  {
    hide Inv, SubOrder, NonceOf, SubNonceOf, RecordOf, PotMoves;
    SubOrderEffect(y.f, y.f.owner, now, op.kindex, op.user, op.pro, op.start, op.end, op.size, op.nonce, op.t,
                   op.sprice);
  }

  lemma MoneyFollows(y: Sys, now: u64, op: Op, user: nat, pro: nat, t: nat, k: nat)
    requires Good(y) && (op.OpRecharge? || op.OpWithdraw? || op.OpProWithdraw?)
    ensures Follows(y, Step(y, now, op), now, op, user, pro, t, k)
  {
    hide Inv, Recharge, Withdraw, ProWithdraw, NonceOf, SubNonceOf, RecordOf;
    MoneyLeavesRecords(y, now, op);
  }

  lemma MoneyLeavesRecords(y: Sys, now: u64, op: Op)
    requires Good(y) && (op.OpRecharge? || op.OpWithdraw? || op.OpProWithdraw?)
    ensures var z := Step(y, now, op); z.f.fs == y.f.fs && z.f.count == y.f.count && z.f.users == y.f.users
  {
    hide Inv, Share, Claim, Send, SendFrom, PayOut, Credit;
    var (f, w, ts) := (y.f, y.w, y.tokens);
    match op
    case OpRecharge(_, index, t, _) => CreditLeavesRecords(EnsureToken(f, t), MultiKey(index, t));
    case OpWithdraw(info, index, t, amount) =>
      if 0 <= amount && info.Info? {
        SharedEffect(f, now, info, amount);
        PayOutParts(if info.isKeeper then Share(f, now).0 else f, w, info.addr, index, ts, t, amount);
      }
    case OpProWithdraw(info, pro, t, pay, lost) =>
      if MultiKey(pro, t) in f.proInfo {
        ClaimEffect(f, now, MultiKey(pro, t), pay, lost);
        CreditLeavesRecords(Claim(f, now, MultiKey(pro, t), pay, lost).0, MultiKey(pro, t));
      }
  }

  lemma CreditLeavesRecords(f: Fs, k: MultiKey)
    ensures forall v: int :: Credit(f, k, v) == f.(balance := Credit(f, k, v).balance)
  {
  }

  lemma MembersFollow(y: Sys, now: u64, op: Op, user: nat, pro: nat, t: nat, k: nat)
    requires Good(y) && Allowed(y, op)
    requires op.OpAddKeeper? || op.OpCreateFs? || op.OpRegisterToken? || op.OpOutside?
    ensures Follows(y, Step(y, now, op), now, op, user, pro, t, k)
  {
    hide Agree, CreateFs, AddKeeper, NonceOf, SubNonceOf, RecordOf;
    if op.OpAddKeeper? {
      AddKeeperEffect(y.f, y.f.owner, op.kindex);
    } else if op.OpCreateFs? {
      CreateFsEffect(y.f, y.f.owner, op.user);
    }
  }

  lemma StepFollows(y: Sys, now: u64, op: Op, user: nat, pro: nat, t: nat, k: nat)
    requires Good(y) && Allowed(y, op)
    ensures Follows(y, Step(y, now, op), now, op, user, pro, t, k)
  {
    hide Good, Allowed, Follows, Step;
    if op.OpAddOrder? {
      AddFollows(y, now, op, user, pro, t, k);
    } else if op.OpSubOrder? {
      SubFollows(y, now, op, user, pro, t, k);
    } else if op.OpRecharge? || op.OpWithdraw? || op.OpProWithdraw? {
      MoneyFollows(y, now, op, user, pro, t, k);
    } else {
      MembersFollow(y, now, op, user, pro, t, k);
    }
  }

  // ---------- Runs ----------

  // The state before call i.
  ghost function StateAt(y: Sys, ops: seq<Timed>, i: nat): Sys
    requires i <= |ops|
    decreases i
  {
    if i == 0 then y else StateAt(Step(y, ops[0].now, ops[0].op), ops[1..], i - 1)
  }

  // How many of the first i calls add an order of user with pro,
  ghost function Added(y: Sys, ops: seq<Timed>, i: nat, user: nat, pro: nat): nat
    requires i <= |ops|
    decreases i
  {
    if i == 0 then 0
    else (if Adds(y, ops[0].op, user, pro) then 1 else 0)
         + Added(Step(y, ops[0].now, ops[0].op), ops[1..], i - 1, user, pro)
  }

  // close one,
  ghost function ClosedIn(y: Sys, ops: seq<Timed>, i: nat, user: nat, pro: nat): nat
    requires i <= |ops|
    decreases i
  {
    if i == 0 then 0
    else (if Closes(y, ops[0].now, ops[0].op, user, pro) then 1 else 0)
         + ClosedIn(Step(y, ops[0].now, ops[0].op), ops[1..], i - 1, user, pro)
  }

  // or count for the keeper k;
  ghost function Handled(y: Sys, ops: seq<Timed>, i: nat, k: nat): nat
    requires i <= |ops|
    decreases i
  {
    if i == 0 then 0
    else Handles(y, ops[0].now, ops[0].op, k) + Handled(Step(y, ops[0].now, ops[0].op), ops[1..], i - 1, k)
  }

  // and what they add to the size and the price that user stores with pro for t.
  ghost function SizeAdded(y: Sys, ops: seq<Timed>, i: nat, user: nat, pro: nat, t: nat): int
    requires i <= |ops|
    decreases i
  {
    if i == 0 then 0
    else
      var Timed(now, op) := ops[0];
      (if Adds(y, op, user, pro) && op.t == t then op.size
       else if Closes(y, now, op, user, pro) && op.t == t then -(op.size as int) else 0)
      + SizeAdded(Step(y, now, op), ops[1..], i - 1, user, pro, t)
  }

  ghost function PriceAdded(y: Sys, ops: seq<Timed>, i: nat, user: nat, pro: nat, t: nat): int
    requires i <= |ops|
    decreases i
  {
    if i == 0 then 0
    else
      var Timed(now, op) := ops[0];
      (if Adds(y, op, user, pro) && op.t == t then op.sprice
       else if Closes(y, now, op, user, pro) && op.t == t then -op.sprice else 0)
      + PriceAdded(Step(y, now, op), ops[1..], i - 1, user, pro, t)
  }

  // Equal as 64-bit numbers.
  predicate SameBits(a: int, b: int) {
    (a - b) % 18446744073709551616 == 0
  }

  lemma SameBitsAdd(a: u64, v: u64, b: int, c: int)
    ensures SameBits(b, (Add64(a, v) as int) + c) ==> SameBits(b, (a as int) + ((v as int) + c))
    ensures SameBits(b, (Sub64(a, v) as int) + c) ==> SameBits(b, (a as int) + (-(v as int) + c))
  {
  }

  // Over every run: the numbers of both kinds are the numbers of orders added and closed, the
  // record is what was added less what was closed (the size as a 64-bit number), and a
  // keeper's counter is its joining and the orders that it handled.
  lemma {:induction false} RecordsFollow(y: Sys, ops: seq<Timed>, i: nat, user: nat, pro: nat, t: nat, k: nat)
    requires Good(y) && AllowedRun(y, ops) && i <= |ops|
    ensures var z := StateAt(y, ops, i);
      && Good(z)
      && NonceOf(z.f.fs, user, pro) == NonceOf(y.f.fs, user, pro) + Added(y, ops, i, user, pro)
      && SubNonceOf(z.f.fs, user, pro) == SubNonceOf(y.f.fs, user, pro) + ClosedIn(y, ops, i, user, pro)
      && RecordOf(z.f.fs, user, pro, t).price
         == RecordOf(y.f.fs, user, pro, t).price + PriceAdded(y, ops, i, user, pro, t)
      && SameBits(RecordOf(z.f.fs, user, pro, t).size,
                  RecordOf(y.f.fs, user, pro, t).size + SizeAdded(y, ops, i, user, pro, t))
      && CountOf(z.f, k) == CountOf(y.f, k) + Handled(y, ops, i, k)
    decreases i
  {
    hide Good, Allowed, Step, Adds, Closes, Handles, NonceOf, SubNonceOf, RecordOf, SameBits;
    if i == 0 {
      SameBitsSelf(RecordOf(y.f.fs, user, pro, t).size);
    } else {
      var Timed(now, op) := ops[0];
      StepKeepsGood(y, now, op);
      StepFollows(y, now, op, user, pro, t, k);
      var z := Step(y, now, op);
      RecordsFollow(z, ops[1..], i - 1, user, pro, t, k);
      if op.OpAddOrder? || op.OpSubOrder? {
        SameBitsAdd(RecordOf(y.f.fs, user, pro, t).size, op.size,
                    RecordOf(StateAt(z, ops[1..], i - 1).f.fs, user, pro, t).size,
                    SizeAdded(z, ops[1..], i - 1, user, pro, t));
      }
      NoOrder(y, now, op, user, pro);
    }
  }

  lemma SameBitsSelf(a: int)
    ensures SameBits(a, a + 0)
  {
  }

  lemma NoOrder(y: Sys, now: u64, op: Op, user: nat, pro: nat)
    ensures Adds(y, op, user, pro) ==> op.OpAddOrder?
    ensures Closes(y, now, op, user, pro) ==> op.OpSubOrder?
  {
    hide AddOrder, SubOrder;
  }

  // In every run the orders of a user with a provider carry consecutive numbers, when they are
  // added and when they are closed; and an order that is closed has ended.
  lemma OrdersInTurn(y: Sys, ops: seq<Timed>, i: nat, user: nat, pro: nat)
    requires Good(y) && AllowedRun(y, ops) && i < |ops|
    ensures var z, op := StateAt(y, ops, i), ops[i].op;
      && (Adds(z, op, user, pro) ==> op.nonce == NonceOf(y.f.fs, user, pro) + Added(y, ops, i, user, pro))
      && (Closes(z, ops[i].now, op, user, pro) ==>
            && op.nonce == SubNonceOf(y.f.fs, user, pro) + ClosedIn(y, ops, i, user, pro)
            && op.start < op.end <= ops[i].now && 0 < op.size <= RecordOf(z.f.fs, user, pro, op.t).size)
  {
    hide Inv, AddOrder, SubOrder, NonceOf, SubNonceOf, RecordOf, AllowedRun, StateAt, Added, ClosedIn, SizeAdded,
      PriceAdded, Handled, RecordsMove, PotMoves, Counts;
    RecordsFollow(y, ops, i, user, pro, 0, 0);
    var z, op := StateAt(y, ops, i), ops[i].op;
    if op.OpAddOrder? {
      AddOrderEffect(z.f, z.f.owner, op.kindex, op.user, op.pro, op.start, op.end, op.size, op.nonce, op.t, op.sprice);
    } else if op.OpSubOrder? {
      SubOrderEffect(z.f, z.f.owner, ops[i].now, op.kindex, op.user, op.pro, op.start, op.end, op.size, op.nonce, op.t,
                     op.sprice);
    }
  }

  lemma {:induction false} CountsGrow(y: Sys, ops: seq<Timed>, i: nat, j: nat, user: nat, pro: nat)
    requires i < j <= |ops|
    ensures Added(y, ops, i, user, pro) + (if Adds(StateAt(y, ops, i), ops[i].op, user, pro) then 1 else 0)
            <= Added(y, ops, j, user, pro)
    ensures ClosedIn(y, ops, i, user, pro)
            + (if Closes(StateAt(y, ops, i), ops[i].now, ops[i].op, user, pro) then 1 else 0)
            <= ClosedIn(y, ops, j, user, pro)
    decreases i
  {
    hide Adds, Closes, Step;
    if i == 0 {
    } else {
      CountsGrow(Step(y, ops[0].now, ops[0].op), ops[1..], i - 1, j - 1, user, pro);
    }
  }

  // So no number is accepted twice: an order can neither be added nor be closed again.
  lemma NoNumberTwice(y: Sys, ops: seq<Timed>, i: nat, j: nat, user: nat, pro: nat)
    requires Good(y) && AllowedRun(y, ops) && i < j < |ops|
    ensures Adds(StateAt(y, ops, i), ops[i].op, user, pro) && Adds(StateAt(y, ops, j), ops[j].op, user, pro) ==>
      ops[i].op.nonce < ops[j].op.nonce
    ensures Closes(StateAt(y, ops, i), ops[i].now, ops[i].op, user, pro)
            && Closes(StateAt(y, ops, j), ops[j].now, ops[j].op, user, pro) ==>
      ops[i].op.nonce < ops[j].op.nonce
  {
    hide Good, AllowedRun, NonceOf, SubNonceOf, StateAt, Added, ClosedIn, AddOrder, SubOrder, RecordOf;
    OrdersInTurn(y, ops, i, user, pro);
    OrdersInTurn(y, ops, j, user, pro);
    CountsGrow(y, ops, i, j, user, pro);
  }

  // ---------- Lists ----------

  // The lists of users, and of each user's providers, name everybody with a record, once.
  ghost predicate Listed(f: Fs) {
    && Distinct(f.users) && (forall u :: u in f.users <==> u in f.fs)
    && (forall u :: u in f.fs ==>
          Distinct(f.fs[u].providers) && (forall p :: p in f.fs[u].providers <==> p in f.fs[u].ao))
  }

  lemma ListedOn(f: Fs, g: Fs)
    requires Listed(f) && g.users == f.users && g.fs.Keys == f.fs.Keys
    requires forall u :: u in f.fs ==> g.fs[u].providers == f.fs[u].providers && g.fs[u].ao.Keys == f.fs[u].ao.Keys
    ensures Listed(g)
  {
  }

  lemma OpeningKeepsListed(f: Fs, user: nat, pro: nat)
    requires Listed(f) && user in f.fs
    ensures Listed(OpenOrders(f, user, pro))
  {
  }

  lemma CreateKeepsListed(f: Fs, caller: Address, user: nat)
    requires Listed(f)
    ensures Listed(CreateFs(f, caller, user).0)
  {
    hide Listed, EnsureToken;
    var h := if user in f.fs then f.(fs := f.fs[user := f.fs[user].(isActive := true)])
             else f.(fs := f.fs[user := FsInfo(true, [], map[])], users := f.users + [user]);
    if user in f.fs {
      ListedOn(f, h);
    } else {
      UserListed(f, user);
    }
    PotOpened(h, 0);
    ListedOn(h, EnsureToken(h, 0));
  }

  lemma UserListed(f: Fs, user: nat)
    requires Listed(f) && user !in f.fs
    ensures Listed(f.(fs := f.fs[user := FsInfo(true, [], map[])], users := f.users + [user]))
  {
  }

  lemma AddKeepsListed(f: Fs, caller: Address, kindex: nat, user: nat, pro: nat, start: u64, end: u64, size: u64,
                       nonce: nat, t: nat, sprice: int)
    requires Listed(f)
    ensures Listed(AddOrder(f, caller, kindex, user, pro, start, end, size, nonce, t, sprice).0)
  {
    hide Listed, OpenOrders, BookOrder, PayOf, Booked;
    var f1 := EnsureToken(f, t);
    ListedOn(f, f1);
    if user in f.fs {
      var f2 := OpenOrders(f1, user, pro);
      OpeningKeepsListed(f1, user, pro);
      OpeningSettlesRecord(f1, user, pro);
      BookedLists(f2, kindex, user, pro, start, end, size, t, sprice);
      ListedOn(f2, BookOrder(f2, kindex, user, pro, start, end, size, t, sprice));
    }
  }

  lemma OpeningSettlesRecord(f: Fs, user: nat, pro: nat)
    requires user in f.fs
    ensures var g := OpenOrders(f, user, pro); user in g.fs && pro in g.fs[user].ao
  {
  }

  lemma BookedLists(f: Fs, kindex: nat, user: nat, pro: nat, start: u64, end: u64, size: u64, t: nat, sprice: int)
    requires user in f.fs && pro in f.fs[user].ao
    ensures var g := BookOrder(f, kindex, user, pro, start, end, size, t, sprice);
      && g.users == f.users && g.fs.Keys == f.fs.Keys
      && (forall u :: u in f.fs ==> g.fs[u].providers == f.fs[u].providers && g.fs[u].ao.Keys == f.fs[u].ao.Keys)
  {
    hide S.Add, Booked, PayOf;
  }

  lemma SubKeepsListed(f: Fs, caller: Address, now: u64, kindex: nat, user: nat, pro: nat, start: u64, end: u64,
                       size: u64, nonce: nat, t: nat, sprice: int)
    requires Listed(f)
    ensures Listed(SubOrder(f, caller, now, kindex, user, pro, start, end, size, nonce, t, sprice).0)
  {
    hide Listed, CloseOrder;
    if user in f.fs && pro in f.fs[user].ao && t in f.fs[user].ao[pro].sInfo {
      ClosedLists(f, kindex, user, pro, start, end, size, t, sprice);
      ListedOn(f, CloseOrder(f, kindex, user, pro, start, end, size, t, sprice).0);
    }
  }

  lemma ClosedLists(f: Fs, kindex: nat, user: nat, pro: nat, start: u64, end: u64, size: u64, t: nat, sprice: int)
    requires user in f.fs && pro in f.fs[user].ao && t in f.fs[user].ao[pro].sInfo
    ensures var g := CloseOrder(f, kindex, user, pro, start, end, size, t, sprice).0;
      && g.users == f.users && g.fs.Keys == f.fs.Keys
      && (forall u :: u in f.fs ==> g.fs[u].providers == f.fs[u].providers && g.fs[u].ao.Keys == f.fs[u].ao.Keys)
  {
    hide S.Sub, S.EndFee, Closed;
  }

  lemma MoneyKeepsLists(y: Sys, now: u64, op: Op)
    requires Good(y) && Listed(y.f) && (op.OpRecharge? || op.OpWithdraw? || op.OpProWithdraw?)
    ensures Listed(Step(y, now, op).f)
  {
    hide Good, Listed, Step;
    MoneyLeavesRecords(y, now, op);
    ListedOn(y.f, Step(y, now, op).f);
  }

  lemma StepKeepsListed(y: Sys, now: u64, op: Op)
    requires Good(y) && Listed(y.f)
    ensures Listed(Step(y, now, op).f)
  {
    hide Inv, Listed, AddOrder, SubOrder, Recharge, Withdraw, ProWithdraw, CreateFs;
    match op
    case OpAddOrder(kindex, user, pro, start, end, size, nonce, t, sprice) =>
      AddKeepsListed(y.f, y.f.owner, kindex, user, pro, start, end, size, nonce, t, sprice);
    case OpSubOrder(kindex, user, pro, start, end, size, nonce, t, sprice) =>
      SubKeepsListed(y.f, y.f.owner, now, kindex, user, pro, start, end, size, nonce, t, sprice);
    case OpCreateFs(user) => CreateKeepsListed(y.f, y.f.owner, user);
    case OpRecharge(_, _, _, _) => MoneyKeepsLists(y, now, op);
    case OpWithdraw(_, _, _, _) => MoneyKeepsLists(y, now, op);
    case OpProWithdraw(_, _, _, _, _) => MoneyKeepsLists(y, now, op);
    case OpAddKeeper(kindex) => ListedOn(y.f, Step(y, now, op).f);
    case OpRegisterToken(_) =>
    case OpOutside(_) =>
  }

  // From creation, over every run.
  lemma {:induction false} RunKeepsListed(y: Sys, ops: seq<Timed>)
    requires Good(y) && AllowedRun(y, ops) && Listed(y.f)
    ensures Listed(Run(y, ops).f)
    decreases |ops|
  {
    hide Good, Allowed, Step, Listed;
    if ops == [] {
    } else {
      StepKeepsGood(y, ops[0].now, ops[0].op);
      StepKeepsListed(y, ops[0].now, ops[0].op);
      RunKeepsListed(Step(y, ops[0].now, ops[0].op), ops[1..]);
    }
  }

  lemma NewIsListed(owner: Address, local: Address, foundation: nat, now: u64)
    ensures Listed(NewFs(owner, local, foundation, now))
  {
  }
}
