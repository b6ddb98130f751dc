// The ERC20 ledger of server/contract/erc20.go as a value, its operations,
// and what every run of them keeps.
module Ledger {
  import opened Types
  import opened Sums

  datatype TwoKey = TwoKey(owner: Address, spender: Address)

  datatype Ledger = Ledger(
    local: Address,
    admin: Address,
    totalSupply: int,
    money: map<Address, int>,
    allowed: map<TwoKey, int>)

  function BalanceOf(l: Ledger, a: Address): int {
    Get(l.money, a)
  }

  function Allowance(l: Ledger, owner: Address, spender: Address): int {
    Get(l.allowed, TwoKey(owner, spender))
  }

  // Debit from, then credit to; from and to may be the same account.
  function Move(money: map<Address, int>, from: Address, to: Address, value: int): map<Address, int>
    requires from in money
  {
    var debited := money[from := money[from] - value];
    debited[to := Get(debited, to) + value]
  }

  function Transfer(l: Ledger, caller: Address, to: Address, value: int): (Ledger, Error) {
    if value < 0 then (l, ErrValue)
    else if caller !in l.money then (l, ErrEmpty)
    else if l.money[caller] < value then (l, ErrBalanceNotEnough)
    else (l.(money := Move(l.money, caller, to, value)), NoError)
  }

  // Allowances accumulate; a value that is not positive is ignored.
  function Approve(l: Ledger, caller: Address, spender: Address, value: int): Ledger {
    if value <= 0 then l
    else l.(allowed := l.allowed[TwoKey(caller, spender) := Allowance(l, caller, spender) + value])
  }

  function TransferFrom(l: Ledger, caller: Address, from: Address, to: Address, value: int): (Ledger, Error) {
    var key := TwoKey(from, caller);
    if value < 0 then (l, ErrValue)
    else if from !in l.money then (l, ErrEmpty)
    else if l.money[from] < value then (l, ErrBalanceNotEnough)
    else if key !in l.allowed then (l, ErrRes)
    else if l.allowed[key] < value then (l, ErrPermission)
    else
      (l.(money := Move(l.money, from, to, value),
          allowed := l.allowed[key := l.allowed[key] - value]), NoError)
  }

  function MintToken(l: Ledger, caller: Address, target: Address, amount: int): (Ledger, Error) {
    if caller != l.admin then (l, ErrPermission)
    else
      (l.(money := l.money[target := BalanceOf(l, target) + amount],
          totalSupply := l.totalSupply + amount), NoError)
  }

  function Burn(l: Ledger, caller: Address, amount: int): (Ledger, Error) {
    if caller != l.admin then (l, ErrPermission)
    else if caller !in l.money then (l, ErrBalanceNotEnough)
    else if l.money[caller] < amount then (l, ErrBalanceNotEnough)
    else
      (l.(money := l.money[caller := l.money[caller] - amount],
          totalSupply := l.totalSupply - amount), NoError)
  }

  // One transfer per address; a failing transfer is skipped and does not stop the others.
  function Drops(l: Ledger, addrs: seq<Address>, money: int): Ledger
    decreases |addrs|
  {
    if addrs == [] then l
    else Drops(Transfer(l, l.admin, addrs[0], money).0, addrs[1..], money)
  }

  function AirDrop(l: Ledger, caller: Address, addrs: seq<Address>, money: int): (Ledger, Error) {
    if caller != l.admin then (l, ErrPermission)
    else (Drops(l, addrs, money), NoError)
  }

  // The account can be debited; even a payment of zero needs an entry.
  predicate CanPay(l: Ledger, from: Address, value: int) {
    from in l.money && 0 <= value <= BalanceOf(l, from)
  }

  // The spender may take the money out of the account.
  predicate CanTake(l: Ledger, spender: Address, from: Address, value: int) {
    CanPay(l, from, value) && TwoKey(from, spender) in l.allowed && value <= Allowance(l, from, spender)
  }

  // Why a transfer, or one on allowance, is refused.
  function PayError(l: Ledger, from: Address, value: int): Error {
    if value < 0 then ErrValue
    else if from !in l.money then ErrEmpty
    else if BalanceOf(l, from) < value then ErrBalanceNotEnough
    else NoError
  }

  function TakeError(l: Ledger, spender: Address, from: Address, value: int): Error {
    if PayError(l, from, value) != NoError then PayError(l, from, value)
    else if TwoKey(from, spender) !in l.allowed then ErrRes
    else if Allowance(l, from, spender) < value then ErrPermission
    else NoError
  }

  // ---------- Runs ----------

  datatype Op =
    | OpTransfer(caller: Address, to: Address, value: int)
    | OpApprove(caller: Address, spender: Address, value: int)
    | OpTransferFrom(caller: Address, from: Address, to: Address, value: int)
    | OpMint(caller: Address, target: Address, value: int)
    | OpBurn(caller: Address, value: int)
    | OpAirDrop(caller: Address, addrs: seq<Address>, value: int)

  function Step(l: Ledger, op: Op): Ledger {
    match op
    case OpTransfer(caller, to, value) => Transfer(l, caller, to, value).0
    case OpApprove(caller, spender, value) => Approve(l, caller, spender, value)
    case OpTransferFrom(caller, from, to, value) => TransferFrom(l, caller, from, to, value).0
    case OpMint(caller, target, value) => MintToken(l, caller, target, value).0
    case OpBurn(caller, value) => Burn(l, caller, value).0
    case OpAirDrop(caller, addrs, value) => AirDrop(l, caller, addrs, value).0
  }

  function Run(l: Ledger, ops: seq<Op>): Ledger
    decreases |ops|
  {
    if ops == [] then l else Run(Step(l, ops[0]), ops[1..])
  }

  // A ledger just created by NewErcToken.
  const INITIAL_SUPPLY: int := 1_000_000_000_000_000_000 * 10_000_000_000

  function NewLedger(local: Address, admin: Address): Ledger {
    Ledger(local, admin, INITIAL_SUPPLY, map[admin := INITIAL_SUPPLY], map[])
  }

  // ---------- Supply ----------

  ghost function MoneyOf(money: map<Address, int>): Address -> int {
    a => Get(money, a)
  }

  ghost function Total(money: map<Address, int>): int {
    Sum(money.Keys, MoneyOf(money))
  }

  ghost predicate Balanced(l: Ledger) {
    Total(l.money) == l.totalSupply
  }

  predicate NonNegative(l: Ledger) {
    && (forall a :: a in l.money ==> 0 <= l.money[a])
    && (forall k :: k in l.allowed ==> 0 <= l.allowed[k])
  }

  lemma TotalPut(money: map<Address, int>, a: Address, v: int)
    ensures Total(money[a := v]) == Total(money) - Get(money, a) + v
  {
    assert money[a := v].Keys == money.Keys + {a};
    SumPut(money.Keys, MoneyOf(money), MoneyOf(money[a := v]), a);
  }

  lemma MoveKeepsTotal(money: map<Address, int>, from: Address, to: Address, value: int)
    requires from in money
    ensures Total(Move(money, from, to, value)) == Total(money)
  {
    var debited := money[from := money[from] - value];
    TotalPut(money, from, money[from] - value);
    TotalPut(debited, to, Get(debited, to) + value);
  }

  lemma TransferKeepsSupply(l: Ledger, caller: Address, to: Address, value: int)
    requires Balanced(l)
    ensures Balanced(Transfer(l, caller, to, value).0)
  {
    if Transfer(l, caller, to, value).1 == NoError {
      MoveKeepsTotal(l.money, caller, to, value);
    }
  }

  lemma DropKeeps(l: Ledger, to: Address, money: int)
    ensures var l' := Transfer(l, l.admin, to, money).0;
      && (Balanced(l) ==> Balanced(l')) && (NonNegative(l) ==> NonNegative(l'))
      && l'.allowed == l.allowed && l'.admin == l.admin && l'.local == l.local
      && forall a :: a != l.admin ==> BalanceOf(l, a) <= BalanceOf(l', a)
  {
    hide Total;
    if Balanced(l) {
      TransferKeepsSupply(l, l.admin, to, money);
    }
  }

  lemma {:induction false} DropsKeep(l: Ledger, addrs: seq<Address>, money: int)
    ensures Balanced(l) ==> Balanced(Drops(l, addrs, money))
    ensures NonNegative(l) ==> NonNegative(Drops(l, addrs, money))
    ensures Drops(l, addrs, money).allowed == l.allowed
    ensures Drops(l, addrs, money).admin == l.admin && Drops(l, addrs, money).local == l.local
    ensures forall a :: a != l.admin ==> BalanceOf(l, a) <= BalanceOf(Drops(l, addrs, money), a)
    decreases |addrs|
  {
    hide Transfer, Balanced, NonNegative;
    if addrs == [] {
    } else {
      DropKeeps(l, addrs[0], money);
      DropsKeep(Transfer(l, l.admin, addrs[0], money).0, addrs[1..], money);
    }
  }

  lemma StepKeepsSupply(l: Ledger, op: Op)
    requires Balanced(l)
    ensures Balanced(Step(l, op))
  {
    match op
    case OpTransfer(caller, to, value) => TransferKeepsSupply(l, caller, to, value);
    case OpApprove(caller, spender, value) =>
    case OpTransferFrom(caller, from, to, value) =>
      if TransferFrom(l, caller, from, to, value).1 == NoError {
        MoveKeepsTotal(l.money, from, to, value);
      }
    case OpMint(caller, target, value) => TotalPut(l.money, target, BalanceOf(l, target) + value);
    case OpBurn(caller, value) => TotalPut(l.money, caller, BalanceOf(l, caller) - value);
    case OpAirDrop(caller, addrs, value) => DropsKeep(l, addrs, value);
  }

  predicate MintsNonNegative(ops: seq<Op>) {
    forall i :: 0 <= i < |ops| && ops[i].OpMint? ==> 0 <= ops[i].value
  }

  lemma StepKeepsNonNegative(l: Ledger, op: Op)
    requires NonNegative(l)
    requires op.OpMint? ==> 0 <= op.value
    ensures NonNegative(Step(l, op))
  {
    if op.OpAirDrop? {
      DropsKeep(l, op.addrs, op.value);
    }
  }

  // Over every run the balances add up to the recorded supply, and without negative
  // mints nothing ever goes below zero.
  lemma {:induction false} RunKeepsSupply(l: Ledger, ops: seq<Op>)
    requires Balanced(l)
    ensures Balanced(Run(l, ops))
    ensures NonNegative(l) && MintsNonNegative(ops) ==> NonNegative(Run(l, ops))
    decreases |ops|
  {
    if ops == [] {
    } else {
      StepKeepsSupply(l, ops[0]);
      if NonNegative(l) && MintsNonNegative(ops) {
        StepKeepsNonNegative(l, ops[0]);
        assert forall i :: 0 <= i < |ops[1..]| ==> ops[1..][i] == ops[i + 1];
      }
      RunKeepsSupply(Step(l, ops[0]), ops[1..]);
    }
  }

  lemma NewLedgerIsBalanced(local: Address, admin: Address)
    ensures Balanced(NewLedger(local, admin)) && NonNegative(NewLedger(local, admin))
  {
    var l := NewLedger(local, admin);
    TotalPut(map[], admin, INITIAL_SUPPLY);
    assert map[][admin := INITIAL_SUPPLY] == l.money;
  }

  // ---------- Allowances ----------

  function ApprovedBy(op: Op, key: TwoKey): int {
    if op.OpApprove? && TwoKey(op.caller, op.spender) == key && 0 < op.value then op.value else 0
  }

  function DrawnBy(l: Ledger, op: Op, key: TwoKey): int {
    if op.OpTransferFrom? && TwoKey(op.from, op.caller) == key
       && TransferFrom(l, op.caller, op.from, op.to, op.value).1 == NoError
    then op.value else 0
  }

  function Approved(ops: seq<Op>, key: TwoKey): int {
    if ops == [] then 0 else ApprovedBy(ops[0], key) + Approved(ops[1..], key)
  }

  function Drawn(l: Ledger, ops: seq<Op>, key: TwoKey): int
    decreases |ops|
  {
    if ops == [] then 0 else DrawnBy(l, ops[0], key) + Drawn(Step(l, ops[0]), ops[1..], key)
  }

  // What was ever approved is either drawn already or still allowed.
  lemma {:induction false} AllowanceAccounting(l: Ledger, ops: seq<Op>, key: TwoKey)
    ensures Get(l.allowed, key) + Approved(ops, key)
         == Get(Run(l, ops).allowed, key) + Drawn(l, ops, key)
    decreases |ops|
  {
    if ops == [] {
    } else {
      if ops[0].OpAirDrop? {
        DropsKeep(l, ops[0].addrs, ops[0].value);
      }
      AllowanceAccounting(Step(l, ops[0]), ops[1..], key);
    }
  }

  // Starting without allowances, a spender never draws more than was approved.
  lemma DrawnAtMostApproved(l: Ledger, ops: seq<Op>, key: TwoKey)
    requires Balanced(l) && NonNegative(l) && l.allowed == map[] && MintsNonNegative(ops)
    ensures Drawn(l, ops, key) <= Approved(ops, key)
  {
    AllowanceAccounting(l, ops, key);
    RunKeepsSupply(l, ops);
  }

  // ---------- Safety of a passive account ----------

  predicate NoAllowance(l: Ledger, a: Address) {
    forall k :: k in l.allowed ==> k.owner != a
  }

  // Nobody else can take money from an account that never approved anyone:
  // a step by another caller leaves its balance at least as high and its allowances empty.
  lemma OthersOnlyAdd(l: Ledger, op: Op, a: Address)
    requires NoAllowance(l, a) && op.caller != a
    requires op.OpMint? ==> 0 <= op.value
    ensures BalanceOf(l, a) <= BalanceOf(Step(l, op), a)
    ensures NoAllowance(Step(l, op), a)
  {
    if op.OpAirDrop? {
      DropsKeep(l, op.addrs, op.value);
    }
  }

  // ---------- What a call does ----------

  function ErrorOf(l: Ledger, op: Op): Error {
    match op
    case OpTransfer(caller, to, value) => Transfer(l, caller, to, value).1
    case OpApprove(_, _, _) => NoError
    case OpTransferFrom(caller, from, to, value) => TransferFrom(l, caller, from, to, value).1
    case OpMint(caller, target, value) => MintToken(l, caller, target, value).1
    case OpBurn(caller, value) => Burn(l, caller, value).1
    case OpAirDrop(caller, addrs, value) => AirDrop(l, caller, addrs, value).1
  }

  predicate Passes(l: Ledger, op: Op) {
    match op
    case OpTransfer(caller, _, value) => CanPay(l, caller, value)
    case OpApprove(_, _, _) => true
    case OpTransferFrom(caller, from, _, value) => CanTake(l, caller, from, value)
    case OpMint(caller, _, _) => caller == l.admin
    case OpBurn(caller, value) => caller == l.admin && caller in l.money && value <= BalanceOf(l, caller)
    case OpAirDrop(caller, _, _) => caller == l.admin
  }

  function Refusal(l: Ledger, op: Op): Error {
    match op
    case OpTransfer(caller, _, value) => PayError(l, caller, value)
    case OpApprove(_, _, _) => NoError
    case OpTransferFrom(caller, from, _, value) => TakeError(l, caller, from, value)
    case OpMint(caller, _, _) => if caller == l.admin then NoError else ErrPermission
    case OpBurn(caller, _) => if caller == l.admin then ErrBalanceNotEnough else ErrPermission
    case OpAirDrop(caller, _, _) => if caller == l.admin then NoError else ErrPermission
  }

  function If(b: bool, v: int): int {
    if b then v else 0
  }

  // What a call that passes gives to the account a, air drops aside.
  function Gains(l: Ledger, op: Op, a: Address): int {
    match op
    case OpTransfer(caller, to, value) => If(a == to, value) - If(a == caller, value)
    case OpApprove(_, _, _) => 0
    case OpTransferFrom(_, from, to, value) => If(a == to, value) - If(a == from, value)
    case OpMint(_, target, value) => If(a == target, value)
    case OpBurn(caller, value) => -If(a == caller, value)
    case OpAirDrop(_, _, _) => 0
  }

  function AllowanceGains(op: Op, owner: Address, spender: Address): int {
    match op
    case OpApprove(caller, s, value) => If(owner == caller && spender == s && 0 < value, value)
    case OpTransferFrom(caller, from, _, value) => -If(owner == from && spender == caller, value)
    case _ => 0
  }

  // Every call, air drops aside: exactly when it goes through, and then its effect on every
  // account, every allowance and the supply. A refused call changes nothing.
  lemma CallEffect(l: Ledger, op: Op, a: Address, spender: Address)
    requires !op.OpAirDrop?
    ensures var z := Step(l, op);
      && (ErrorOf(l, op) == NoError <==> Passes(l, op))
      && (!Passes(l, op) ==> z == l && ErrorOf(l, op) == Refusal(l, op))
      && (Passes(l, op) ==>
            && BalanceOf(z, a) == BalanceOf(l, a) + Gains(l, op, a)
            && Allowance(z, a, spender) == Allowance(l, a, spender) + AllowanceGains(op, a, spender)
            && (a in z.money <==> a in l.money || (op.OpTransfer? && a == op.to) || (op.OpTransferFrom? && a == op.to)
                                  || (op.OpMint? && a == op.target))
            && (TwoKey(a, spender) in z.allowed
                <==> TwoKey(a, spender) in l.allowed
                     || (op.OpApprove? && a == op.caller && spender == op.spender && 0 < op.value))
            && z.totalSupply == l.totalSupply + (if op.OpMint? then op.value else if op.OpBurn? then -op.value else 0)
            && z.admin == l.admin && z.local == l.local)
  {
  }

  function Count(addrs: seq<Address>, a: Address): nat {
    if addrs == [] then 0 else (if addrs[0] == a then 1 else 0) + Count(addrs[1..], a)
  }

  // An air drop: the first m drops are made, one for each time an address is listed, and all
  // others fail because the administrator can pay no more.
  lemma {:induction false} DropsEffect(l: Ledger, addrs: seq<Address>, value: int, a: Address) returns (m: nat)
    ensures m <= |addrs|
    ensures var z := Drops(l, addrs, value);
      && (m < |addrs| ==> !CanPay(z, l.admin, value))
      && (0 < m ==> 0 <= value)
      && BalanceOf(z, a) == BalanceOf(l, a) + value * Count(addrs[..m], a) - If(a == l.admin, value * m)
      && z.allowed == l.allowed && z.totalSupply == l.totalSupply && z.admin == l.admin
    decreases |addrs|
  {
    if addrs == [] || !CanPay(l, l.admin, value) {
      m := 0;
      NoDrops(l, addrs, value);
    } else {
      var l1 := Transfer(l, l.admin, addrs[0], value).0;
      var n := DropsEffect(l1, addrs[1..], value, a);
      m := n + 1;
      assert addrs[..m][1..] == addrs[1..][..n];
      Distribute(value, 1, n);
      Distribute(value, if addrs[0] == a then 1 else 0, Count(addrs[1..][..n], a));
    }
  }

  lemma {:induction false} NoDrops(l: Ledger, addrs: seq<Address>, value: int)
    requires addrs == [] || !CanPay(l, l.admin, value)
    ensures Drops(l, addrs, value) == l
    decreases |addrs|
  {
    if addrs == [] {
    } else {
      NoDrops(l, addrs[1..], value);
    }
  }

  // The supply of a new token is ten billion tokens of 18 decimals, all of it its creator's.
  lemma NewLedgerOwner(local: Address, admin: Address, a: Address)
    ensures BalanceOf(NewLedger(local, admin), a)
            == if a == admin then 10_000_000_000_000_000_000_000_000_000 else 0
    ensures NewLedger(local, admin).admin == admin
  {
  }
}
