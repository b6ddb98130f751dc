// The token contract object, and the part of the contract registry that finds tokens.
module Erc {
  import opened Types
  import L = Ledger

  // All token contracts by their address: the ERC20 part of globalMap.
  type World = map<Address, L.Ledger>

  function BalanceOf(w: World, taddr: Address, query: Address): int {
    if taddr in w then L.BalanceOf(w[taddr], query) else 0
  }

  function Send(w: World, taddr: Address, caller: Address, to: Address, money: int): (World, Error) {
    if taddr !in w then (w, ErrEmpty)
    else
      var (l, err) := L.Transfer(w[taddr], caller, to, money);
      (w[taddr := l], err)
  }

  function SendFrom(w: World, taddr: Address, caller: Address, from: Address, to: Address, money: int): (World, Error) {
    if taddr !in w then (w, ErrEmpty)
    else
      var (l, err) := L.TransferFrom(w[taddr], caller, from, to, money);
      (w[taddr := l], err)
  }

  function Approved(w: World, taddr: Address, caller: Address, spender: Address, money: int): World {
    if taddr in w then w[taddr := L.Approve(w[taddr], caller, spender, money)] else w
  }

  // A failing transfer changes nothing; a successful one moves exactly money from one
  // account to the other in that token alone.
  lemma SendEffect(w: World, taddr: Address, caller: Address, to: Address, money: int, t: Address, a: Address)
    ensures var (w', err) := Send(w, taddr, caller, to, money);
      && (err != NoError ==> w' == w)
      && (err == NoError ==>
            && 0 <= money
            && BalanceOf(w', t, a) == BalanceOf(w, t, a)
               - (if t == taddr && a == caller then money else 0)
               + (if t == taddr && a == to then money else 0))
  {
    if taddr in w && Send(w, taddr, caller, to, money).1 != NoError {
      assert w[taddr := w[taddr]] == w;
    }
  }

  lemma SendFromEffect(w: World, taddr: Address, caller: Address, from: Address, to: Address, money: int, t: Address,
                       a: Address)
    ensures var (w', err) := SendFrom(w, taddr, caller, from, to, money);
      && (err != NoError ==> w' == w)
      && (err == NoError ==>
            && 0 <= money
            && L.TwoKey(from, caller) in w[taddr].allowed
            && BalanceOf(w', t, a) == BalanceOf(w, t, a)
               - (if t == taddr && a == from then money else 0)
               + (if t == taddr && a == to then money else 0))
  {
    if taddr in w && SendFrom(w, taddr, caller, from, to, money).1 != NoError {
      assert w[taddr := w[taddr]] == w;
    }
  }

  function AllowanceOf(w: World, taddr: Address, owner: Address, spender: Address): int {
    if taddr in w then L.Allowance(w[taddr], owner, spender) else 0
  }

  predicate CanPay(w: World, taddr: Address, from: Address, money: int) {
    taddr in w && L.CanPay(w[taddr], from, money)
  }

  predicate CanTake(w: World, taddr: Address, spender: Address, from: Address, money: int) {
    taddr in w && L.CanTake(w[taddr], spender, from, money)
  }

  function PayError(w: World, taddr: Address, from: Address, money: int): Error {
    if taddr !in w then ErrEmpty else L.PayError(w[taddr], from, money)
  }

  function TakeError(w: World, taddr: Address, spender: Address, from: Address, money: int): Error {
    if taddr !in w then ErrEmpty else L.TakeError(w[taddr], spender, from, money)
  }

  // A transfer succeeds exactly when the sender owns that much in an existing token.
  // The account entry matters only for a payment of zero.
  lemma SendSucceeds(w: World, taddr: Address, caller: Address, to: Address, money: int)
    ensures Send(w, taddr, caller, to, money).1 == NoError <==> CanPay(w, taddr, caller, money)
    ensures Send(w, taddr, caller, to, money).1 == PayError(w, taddr, caller, money)
    ensures 0 < money ==> (CanPay(w, taddr, caller, money) <==> money <= BalanceOf(w, taddr, caller))
  {
  }

  // A transfer on allowance succeeds exactly when the spender may take the money, and uses up
  // that much of the allowance of this pair in this token alone.
  lemma SendFromSucceeds(w: World, taddr: Address, spender: Address, from: Address, to: Address, money: int)
    ensures var (w', err) := SendFrom(w, taddr, spender, from, to, money);
      && (err == NoError <==> CanTake(w, taddr, spender, from, money))
      && err == TakeError(w, taddr, spender, from, money)
      && (forall t, a, b :: AllowanceOf(w', t, a, b) == AllowanceOf(w, t, a, b)
            - if err == NoError && t == taddr && a == from && b == spender then money else 0)
  {
  }

  // An approval adds to the allowance of this pair in this token alone, unless the amount is
  // not positive. No balance changes, and nobody else may take more than before.
  lemma ApprovedEffect(w: World, taddr: Address, owner: Address, spender: Address, money: int)
    ensures var w' := Approved(w, taddr, owner, spender, money);
      && w'.Keys == w.Keys
      && (forall t, a, b :: AllowanceOf(w', t, a, b) == AllowanceOf(w, t, a, b)
            + if t == taddr && t in w && a == owner && b == spender && 0 < money then money else 0)
      && (forall t, a :: BalanceOf(w', t, a) == BalanceOf(w, t, a))
      && (forall t, a, b, m :: (t, a, b) != (taddr, owner, spender) ==>
            CanTake(w', t, b, a, m) == CanTake(w, t, b, a, m))
  {
  }

  class ErcToken {
    const local: Address
    const admin: Address
    var totalSupply: int
    var money: map<Address, int>
    var allowed: map<L.TwoKey, int>

    ghost function State(): L.Ledger
      reads this
    {
      L.Ledger(local, admin, totalSupply, money, allowed)
    }

    constructor (caller: Address, local: Address)
      ensures State() == L.NewLedger(local, caller)
    {
      this.local := local;
      admin := caller;
      totalSupply := L.INITIAL_SUPPLY;
      money := map[caller := L.INITIAL_SUPPLY];
      allowed := map[];
    }

    method BalanceOf(from: Address) returns (res: int)
      ensures res == L.BalanceOf(State(), from)
    {
      res := 0;
      if from in money {
        res := res + money[from];
      }
    }

    method Allowance(tokenOwner: Address, spender: Address) returns (res: int)
      ensures res == L.Allowance(State(), tokenOwner, spender)
    {
      res := 0;
      var tKey := L.TwoKey(tokenOwner, spender);
      if tKey in allowed {
        res := res + allowed[tKey];
      }
    }

    method Transfer(caller: Address, to: Address, value: int) returns (err: Error)
      modifies this`money
      ensures (State(), err) == L.Transfer(old(State()), caller, to, value)
    {
      if value < 0 {
        return ErrValue;
      }
      if caller !in money {
        return ErrEmpty;
      }
      if money[caller] < value {
        return ErrBalanceNotEnough;
      }
      money := money[caller := money[caller] - value];
      if to !in money {
        money := money[to := 0];
      }
      money := money[to := money[to] + value];
      assert money == L.Move(old(money), caller, to, value);
      return NoError;
    }

    method Approve(caller: Address, spender: Address, value: int)
      modifies this`allowed
      ensures State() == L.Approve(old(State()), caller, spender, value)
    {
      if 0 < value {
        var tKey := L.TwoKey(caller, spender);
        if tKey in allowed {
          allowed := allowed[tKey := allowed[tKey] + value];
        } else {
          allowed := allowed[tKey := value];
        }
      }
    }

    method TransferFrom(caller: Address, from: Address, to: Address, value: int) returns (err: Error)
      modifies this`money, this`allowed
      ensures (State(), err) == L.TransferFrom(old(State()), caller, from, to, value)
    {
      if value < 0 {
        return ErrValue;
      }
      if from !in money {
        return ErrEmpty;
      }
      if money[from] < value {
        return ErrBalanceNotEnough;
      }
      var tKey := L.TwoKey(from, caller);
      if tKey !in allowed {
        return ErrRes;
      }
      if allowed[tKey] < value {
        return ErrPermission;
      }
      money := money[from := money[from] - value];
      allowed := allowed[tKey := allowed[tKey] - value];
      if to !in money {
        money := money[to := 0];
      }
      money := money[to := money[to] + value];
      assert money == L.Move(old(money), from, to, value);
      return NoError;
    }

    method MintToken(caller: Address, target: Address, mintedAmount: int) returns (err: Error)
      modifies this`money, this`totalSupply
      ensures (State(), err) == L.MintToken(old(State()), caller, target, mintedAmount)
    {
      if caller != admin {
        return ErrPermission;
      }
      if target in money {
        money := money[target := money[target] + mintedAmount];
      } else {
        money := money[target := mintedAmount];
      }
      totalSupply := totalSupply + mintedAmount;
      return NoError;
    }

    method Burn(caller: Address, burnAmount: int) returns (err: Error)
      modifies this`money, this`totalSupply
      ensures (State(), err) == L.Burn(old(State()), caller, burnAmount)
    {
      if caller != admin {
        return ErrPermission;
      }
      if caller !in money {
        return ErrBalanceNotEnough;
      }
      if money[caller] < burnAmount {
        return ErrBalanceNotEnough;
      }
      money := money[caller := money[caller] - burnAmount];
      totalSupply := totalSupply - burnAmount;
      return NoError;
    }

    method AirDrop(caller: Address, addrs: seq<Address>, amount: int) returns (err: Error)
      modifies this`money
      ensures (State(), err) == L.AirDrop(old(State()), caller, addrs, amount)
    {
      if caller != admin {
        return ErrPermission;
      }
      for i := 0 to |addrs|
        invariant L.Drops(State(), addrs[i..], amount) == L.Drops(old(State()), addrs, amount)
      {
        assert addrs[i..][0] == addrs[i] && addrs[i..][1..] == addrs[i + 1..];
        var _ := Transfer(admin, addrs[i], amount);
      }
      return NoError;
    }
  }

  // globalMap restricted to token contracts.
  class GlobalMap {
    var ercs: map<Address, ErcToken>

    ghost predicate Valid()
      reads this
    {
      forall a :: a in ercs ==> ercs[a].local == a
    }

    ghost function World(): World
      reads this, ercs.Values
    {
      map a | a in ercs :: ercs[a].State()
    }

    constructor ()
      ensures Valid() && World() == map[]
    {
      ercs := map[];
    }

    method GetBalance(taddr: Address, query: Address) returns (bal: int)
      ensures bal == BalanceOf(World(), taddr, query)
    {
      if taddr !in ercs {
        return 0;
      }
      bal := ercs[taddr].BalanceOf(query);
    }

    method SendBalance(taddr: Address, caller: Address, to: Address, money: int) returns (err: Error)
      requires Valid()
      modifies ercs.Values
      ensures (World(), err) == Send(old(World()), taddr, caller, to, money)
    {
      if taddr !in ercs {
        return ErrEmpty;
      }
      err := ercs[taddr].Transfer(caller, to, money);
      assert World() == Send(old(World()), taddr, caller, to, money).0;
    }

    method SendBalanceFrom(taddr: Address, caller: Address, from: Address, to: Address, money: int) returns (err: Error)
      requires Valid()
      modifies ercs.Values
      ensures (World(), err) == SendFrom(old(World()), taddr, caller, from, to, money)
    {
      if taddr !in ercs {
        return ErrEmpty;
      }
      err := ercs[taddr].TransferFrom(caller, from, to, money);
      assert World() == SendFrom(old(World()), taddr, caller, from, to, money).0;
    }

    method Approve(taddr: Address, caller: Address, spender: Address, money: int) returns (err: Error)
      requires Valid()
      modifies ercs.Values
      ensures World() == Approved(old(World()), taddr, caller, spender, money)
      ensures err == if taddr in old(World()) then NoError else ErrEmpty
      ensures err != NoError ==> World() == old(World())
    {
      if taddr !in ercs {
        return ErrEmpty;
      }
      ercs[taddr].Approve(caller, spender, money);
      assert World() == Approved(old(World()), taddr, caller, spender, money);
      return NoError;
    }
  }
}
