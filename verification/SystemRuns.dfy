// Every run of the whole system: the registry stays coherent, the pledge pool stays solvent,
// and every storage manager holds what it owes, whatever the contracts do to each other.
module SystemRuns {
  import opened Types
  import opened Erc
  import opened System
  import P = Pool
  import PO = PoolOps
  import R = Registry
  import F = Fs
  import M = FsMoney
  import FR = FsRecords
  import Runs = FsRuns
  import I = Issuance

  // ---------- Invariant ----------

  ghost predicate IsContract(y: Sys, c: Address) {
    c == y.pool.local || exists g: nat :: g < |y.fms| && y.fms[g].local == c
  }

  // The contracts have different addresses.
  ghost predicate Apart(y: Sys) {
    && y.pool.local != y.reg.local
    && (forall g: nat :: g < |y.fms| ==> y.fms[g].local != y.reg.local && y.fms[g].local != y.pool.local)
    && (forall g: nat, h: nat :: g < h < |y.fms| ==> y.fms[g].local != y.fms[h].local)
  }

  // Nobody may spend from the account c, and it is nowhere in debt.
  ghost predicate Guarded(w: World, c: Address) {
    PO.NoAllowances(w, c) && (forall t :: 0 <= BalanceOf(w, t, c))
  }

  ghost predicate PoolOk(y: Sys) {
    && P.Inv(y.pool, y.w)
    && y.pool.owner == y.reg.local
    && y.pool.tokens == y.reg.tokens
  }

  // The storage manager holds what it owes in every listed token, and owes nothing in others.
  ghost predicate Backed(f: F.Fs, w: World, tokens: seq<Address>) {
    && (forall u: nat :: u < |tokens| ==> M.Owed(f, u) <= BalanceOf(w, tokens[u], f.local))
    && (forall u: nat :: |tokens| <= u ==> M.Owed(f, u) <= 0)
  }

  ghost predicate FsOk(y: Sys, g: nat)
    requires g < |y.fms| == |y.reg.groups|
  {
    && y.fms[g].owner == y.reg.local
    && y.fms[g].keepers == y.reg.groups[g].keepers
    && FR.Inv(y.fms[g])
    && Backed(y.fms[g], y.w, y.reg.tokens)
  }

  ghost predicate Inv(y: Sys) {
    && Shape(y)
    && R.Coherent(y.reg)
    && PoolOk(y)
    && (forall g: nat :: g < |y.fms| ==> FsOk(y, g))
    && Apart(y)
    && (forall c :: IsContract(y, c) ==> Guarded(y.w, c))
    && 0 <= y.reg.pledgeKeeper && 0 <= y.reg.pledgePro
    && y.iss.mintLevel < |I.MINT|
  }

  // ---------- The token world ----------

  // Account c is at least as well off.
  ghost predicate NoWorse(w: World, w': World, c: Address) {
    Guarded(w', c) && (forall t :: BalanceOf(w, t, c) <= BalanceOf(w', t, c))
  }

  lemma SendNoWorse(w: World, taddr: Address, caller: Address, to: Address, money: int, c: Address)
    requires Guarded(w, c)
    ensures Guarded(Send(w, taddr, caller, to, money).0, c)
    ensures caller != c ==> NoWorse(w, Send(w, taddr, caller, to, money).0, c)
  {
    var w' := Send(w, taddr, caller, to, money).0;
    forall t
      ensures 0 <= BalanceOf(w', t, c)
      ensures caller != c ==> BalanceOf(w, t, c) <= BalanceOf(w', t, c)
    {
      SendEffect(w, taddr, caller, to, money, t, c);
    }
  }

  lemma SendFromNoWorse(w: World, taddr: Address, caller: Address, from: Address, to: Address, money: int, c: Address)
    requires Guarded(w, c)
    ensures NoWorse(w, SendFrom(w, taddr, caller, from, to, money).0, c)
    ensures from == c ==> SendFrom(w, taddr, caller, from, to, money).1 != NoError
  {
    var w' := SendFrom(w, taddr, caller, from, to, money).0;
    forall t
      ensures BalanceOf(w, t, c) <= BalanceOf(w', t, c)
    {
      SendFromEffect(w, taddr, caller, from, to, money, t, c);
    }
  }

  lemma ApprovedNoWorse(w: World, taddr: Address, caller: Address, spender: Address, money: int, c: Address)
    requires Guarded(w, c) && caller != c
    ensures NoWorse(w, Approved(w, taddr, caller, spender, money), c)
    ensures forall t, a :: BalanceOf(Approved(w, taddr, caller, spender, money), t, a) == BalanceOf(w, t, a)
  {
    var w' := Approved(w, taddr, caller, spender, money);
    assert forall t :: t in w' <==> t in w;
    forall t, a
      ensures BalanceOf(w', t, a) == BalanceOf(w, t, a)
    {
    }
  }

  // ---------- How the parts move ----------

  lemma BackedNoWorse(f: F.Fs, w: World, w': World, tokens: seq<Address>)
    requires Backed(f, w, tokens) && NoWorse(w, w', f.local)
    ensures Backed(f, w', tokens)
  {
    forall u: nat | u < |tokens|
      ensures M.Owed(f, u) <= BalanceOf(w', tokens[u], f.local)
    {
      assert M.Owed(f, u) <= BalanceOf(w, tokens[u], f.local) <= BalanceOf(w', tokens[u], f.local);
    }
  }

  lemma PoolNoWorse(p: P.Pool, w: World, w': World)
    requires P.Inv(p, w) && NoWorse(w, w', p.local)
    ensures P.Inv(p, w')
  {
    PO.OutsideKeepsInv(p, w, w');
  }

  // The registry part of a change: what the other contracts rely on stays.
  ghost predicate SameTies(r: R.Registry, s: R.Registry) {
    && s.local == r.local && s.tokens == r.tokens
    && |s.groups| == |r.groups|
    && (forall g: nat :: g < |r.groups| ==> s.groups[g].keepers == r.groups[g].keepers)
    && s.pledgeKeeper == r.pledgeKeeper && s.pledgePro == r.pledgePro
  }

  // Only the registry and the issuance totals change.
  lemma RegistryMoves(y: Sys, reg: R.Registry, iss: I.Issue)
    requires Inv(y) && R.Coherent(reg) && SameTies(y.reg, reg) && iss.mintLevel < |I.MINT|
    ensures Inv(y.(reg := reg, iss := iss))
  {
    hide R.Coherent, P.Inv, FR.Inv, Backed, Guarded, P.Coherent;
    var z := y.(reg := reg, iss := iss);
    assert forall c :: IsContract(z, c) ==> IsContract(y, c);
    forall g: nat | g < |z.fms|
      ensures FsOk(z, g)
    {
      assert FsOk(y, g);
    }
  }

  // The token world changes, to the harm of no contract.
  lemma WorldMoves(y: Sys, w: World)
    requires Inv(y) && forall c :: IsContract(y, c) ==> NoWorse(y.w, w, c)
    ensures Inv(y.(w := w))
  {
    hide R.Coherent, P.Inv, FR.Inv, Backed, P.Coherent, Guarded;
    var z := y.(w := w);
    PoolNoWorse(y.pool, y.w, w);
    forall g: nat | g < |z.fms|
      ensures FsOk(z, g)
    {
      assert FsOk(y, g);
      assert IsContract(y, y.fms[g].local);
      BackedNoWorse(y.fms[g], y.w, w, y.reg.tokens);
    }
    assert forall c :: IsContract(z, c) ==> IsContract(y, c);
    forall c | IsContract(z, c)
      ensures Guarded(w, c)
    {
      assert NoWorse(y.w, w, c);
    }
  }

  // The pool acts.
  lemma PoolMoves(y: Sys, pool: P.Pool, w: World)
    requires Inv(y) && P.Inv(pool, w) && Guarded(w, y.pool.local)
    requires pool.local == y.pool.local && pool.owner == y.pool.owner && pool.tokens == y.pool.tokens
    requires forall c :: IsContract(y, c) && c != y.pool.local ==> NoWorse(y.w, w, c)
    ensures Inv(y.(pool := pool, w := w))
  {
    hide R.Coherent, FR.Inv, Backed, P.Entries, P.Covered, P.TotalStake, P.Coherent, Guarded;
    var z := y.(pool := pool, w := w);
    forall g: nat | g < |z.fms|
      ensures FsOk(z, g)
    {
      assert FsOk(y, g);
      assert IsContract(y, y.fms[g].local);
      BackedNoWorse(y.fms[g], y.w, w, y.reg.tokens);
    }
    forall c | IsContract(z, c)
      ensures Guarded(w, c)
    {
      assert IsContract(y, c);
    }
  }

  // The storage manager of group g acts.
  lemma FsMoves(y: Sys, g: nat, f: F.Fs, w: World)
    requires Inv(y) && g < |y.fms|
    requires Runs.SameContract(y.fms[g], f) && FR.Inv(f) && Backed(f, w, y.reg.tokens)
    requires Guarded(w, f.local)
    requires forall c :: IsContract(y, c) && c != f.local ==> NoWorse(y.w, w, c)
    ensures Inv(SetFs(y, g, f).(w := w))
  {
    hide R.Coherent, FR.Inv, Backed, P.Inv, P.Coherent, Guarded;
    var z := SetFs(y, g, f).(w := w);
    PoolNoWorse(y.pool, y.w, w);
    forall h: nat | h < |z.fms|
      ensures FsOk(z, h)
    {
      assert FsOk(y, h);
      if h != g {
        assert IsContract(y, y.fms[h].local);
        BackedNoWorse(y.fms[h], y.w, w, y.reg.tokens);
      }
    }
    SameLocals(y, z);
    forall c | IsContract(z, c)
      ensures Guarded(w, c)
    {
      if c != f.local {
        assert NoWorse(y.w, w, c);
      }
    }
  }

  lemma SameLocals(y: Sys, z: Sys)
    requires |z.fms| == |y.fms| && z.pool.local == y.pool.local && z.reg.local == y.reg.local
    requires forall g: nat :: g < |y.fms| ==> z.fms[g].local == y.fms[g].local
    ensures forall c :: IsContract(z, c) ==> IsContract(y, c)
    ensures Apart(y) ==> Apart(z)
  {
  }

  // ---------- Registration ----------

  lemma RegisterTokenKeeps(y: Sys, taddr: Address)
    requires Inv(y) && 0 <= BalanceOf(y.w, taddr, y.pool.local)
    requires forall g: nat :: g < |y.fms| ==> 0 <= BalanceOf(y.w, taddr, y.fms[g].local)
    ensures var (z, err) := RegisterToken(y, taddr);
      && Inv(z)
      && (err != NoError <==> taddr in y.reg.tIndex)
  {
    hide R.Coherent, P.Entries, P.Covered, P.TotalStake, P.Coherent, FR.Inv, Guarded, M.Owed, P.AddToken;
    R.RegisterTokenKeeps(y.reg, taddr);
    if taddr !in y.reg.tIndex {
      var z := RegisterToken(y, taddr).0;
      AddTokenFields(y.pool, y.w, y.reg.local, taddr, |y.reg.tokens|);
      PO.AddTokenKeepsInv(y.pool, y.w, y.reg.local, taddr, |y.reg.tokens|);
      forall g: nat | g < |z.fms|
        ensures FsOk(z, g)
      {
        assert FsOk(y, g);
        BackedInMore(y.fms[g], y.w, y.reg.tokens, taddr);
      }
      assert forall c :: IsContract(z, c) ==> IsContract(y, c);
    }
  }

  lemma AddTokenFields(p: P.Pool, w: World, caller: Address, taddr: Address, n: nat)
    requires P.Inv(p, w) && caller == p.owner && n == |p.tokens|
    ensures var (q, err) := P.AddToken(p, w, caller, taddr, n);
      && err == NoError && q.local == p.local && q.owner == p.owner && q.tokens == p.tokens + [taddr]
  {
    hide P.Entries, P.Covered, P.TotalStake;
  }

  lemma BackedInMore(f: F.Fs, w: World, tokens: seq<Address>, taddr: Address)
    requires Backed(f, w, tokens) && 0 <= BalanceOf(w, taddr, f.local)
    ensures Backed(f, w, tokens + [taddr])
  {
    hide M.Owed;
    var ts := tokens + [taddr];
    forall u: nat | u < |ts|
      ensures M.Owed(f, u) <= BalanceOf(w, ts[u], f.local)
    {
      if u < |tokens| {
        assert ts[u] == tokens[u];
      }
    }
  }

  lemma RegisterKeeps(y: Sys, addr: Address)
    requires Inv(y)
    ensures Inv(Register(y, addr).0)
  {
    hide R.Coherent, Inv;
    assert R.Coherent(y.reg) by { InvReg(y); }
    R.RegisterKeeps(y.reg, addr);
    InvReg(y);
    RegistryMoves(y, R.Register(y.reg, addr).0, y.iss);
  }

  lemma InvReg(y: Sys)
    requires Inv(y)
    ensures Shape(y) && R.Coherent(y.reg) && y.iss.mintLevel < |I.MINT|
    ensures 0 <= y.reg.pledgeKeeper && 0 <= y.reg.pledgePro
    ensures y.pool.local != y.reg.local && y.pool.owner == y.reg.local && y.pool.tokens == y.reg.tokens
    ensures P.Inv(y.pool, y.w)
    ensures Guarded(y.w, y.pool.local)
  {
    hide R.Coherent, P.Inv, FsOk, Guarded;
    assert IsContract(y, y.pool.local);
  }

  lemma InvFs(y: Sys, g: nat)
    requires Inv(y) && g < |y.fms|
    ensures g < |y.reg.groups| && FsOk(y, g) && Guarded(y.w, y.fms[g].local) && y.fms[g].local != y.reg.local
    ensures IsContract(y, y.fms[g].local)
    ensures Distinct(y.reg.tokens)
  {
    hide R.Coherent, P.Entries, P.Covered, P.TotalStake, P.Coherent, FsOk, Guarded;
    assert IsContract(y, y.fms[g].local);
  }

  lemma InvContract(y: Sys, c: Address)
    requires Inv(y) && IsContract(y, c)
    ensures Guarded(y.w, c) && c != y.reg.local
  {
    hide R.Coherent, P.Inv, FsOk, Guarded;
  }

  lemma RegisterRoleKeeps(y: Sys, index: nat, role: R.Role)
    requires Inv(y)
    ensures Shape(y) && Inv(RegisterRole(y, index, role).0)
  {
    hide R.Coherent, Inv;
    InvReg(y);
    var need := if role == R.Keeper then y.reg.pledgeKeeper else y.reg.pledgePro;
    R.RegisterRoleKeeps(y.reg, index, PledgedIn(y.pool, y.w, index), need, role);
    RegistryMoves(y, R.RegisterRole(y.reg, index, PledgedIn(y.pool, y.w, index), need, role).0, y.iss);
  }

  lemma SetReadyKeeps(y: Sys, g: nat, signatures: nat)
    requires Inv(y)
    ensures Inv(SetReady(y, g, signatures).0)
  {
    hide R.Coherent, Inv;
    InvReg(y);
    var (reg, err) := R.SetReady(y.reg, g, signatures);
    if err == NoError {
      R.SameMembersKeeps(y.reg, g, y.reg.groups[g].(isReady := true));
    }
    RegistryMoves(y, reg, y.iss);
  }

  lemma AddProviderKeeps(y: Sys, index: nat, g: nat)
    requires Inv(y)
    ensures Inv(AddProviderToGroup(y, index, g).0)
  {
    hide R.Coherent, Inv;
    InvReg(y);
    R.AddProviderToGroupKeeps(y.reg, index, g);
    RegistryMoves(y, R.AddProviderToGroup(y.reg, index, g).0, y.iss);
  }

  // A registry change together with a change of one storage manager that moves no money.
  lemma FsAndRegistryMove(y: Sys, g: nat, f: F.Fs, reg: R.Registry)
    requires Inv(y) && g < |y.fms|
    requires f.local == y.fms[g].local && f.owner == y.fms[g].owner
    requires FR.Inv(f) && forall u: nat :: M.Owed(f, u) == M.Owed(y.fms[g], u)
    requires R.Coherent(reg) && reg.local == y.reg.local && reg.tokens == y.reg.tokens
    requires reg.pledgeKeeper == y.reg.pledgeKeeper && reg.pledgePro == y.reg.pledgePro
    requires |reg.groups| == |y.reg.groups| && f.keepers == reg.groups[g].keepers
    requires forall h: nat :: h < |reg.groups| && h != g ==> reg.groups[h].keepers == y.reg.groups[h].keepers
    ensures Inv(SetFs(y, g, f).(reg := reg))
  {
    hide R.Coherent, P.Inv, FR.Inv, P.Coherent, Guarded, M.Owed;
    var z := SetFs(y, g, f).(reg := reg);
    SameLocals(y, z);
    forall h: nat | h < |z.fms|
      ensures FsOk(z, h)
    {
      assert FsOk(y, h);
    }
  }

  lemma RegisterUserKeeps(y: Sys, index: nat, g: nat)
    requires Inv(y)
    ensures Shape(y) && Inv(RegisterUser(y, index, g).0)
  {
    hide R.Coherent, Inv, FR.Inv, F.CreateFs;
    InvReg(y);
    if R.UserError(y.reg, index, g) == NoError {
      CreateFsRefused(y.fms[g], y.reg.local, index);
      SetSameFs(y, g);
      var f := F.CreateFs(y.fms[g], y.reg.local, index).0;
      InvFs(y, g);
      R.RegisterUserKeeps(y.reg, index, g);
      FR.CreateFsKeepsInv(y.fms[g], y.reg.local, index);
      Runs.CreateKeepsContract(y.fms[g], y.reg.local, index);
      CreateFsOwes(y.fms[g], y.reg.local, index);
      FsAndRegistryMove(y, g, f, R.RegisterUser(y.reg, index, g).0);
    }
  }

  lemma CreateFsRefused(f: F.Fs, caller: Address, user: nat)
    ensures F.CreateFs(f, caller, user).1 != NoError ==> F.CreateFs(f, caller, user).0 == f
  {
  }

  lemma SetSameFs(y: Sys, g: nat)
    requires g < |y.fms|
    ensures SetFs(y, g, y.fms[g]) == y
  {
    assert y.fms[g := y.fms[g]] == y.fms;
  }

  lemma CreateFsOwes(f: F.Fs, caller: Address, user: nat)
    ensures forall u: nat :: M.Owed(F.CreateFs(f, caller, user).0, u) == M.Owed(f, u)
  {
    hide M.Balances, M.Escrows;
  }

  lemma AddKeeperKeeps(y: Sys, index: nat, g: nat)
    requires Inv(y)
    ensures Shape(y) && Inv(AddKeeperToGroup(y, index, g).0)
  {
    hide R.Coherent, Inv, FR.Inv, M.Owed;
    InvReg(y);
    if R.KeeperError(y.reg, index, g) == NoError {
      SetSameFs(y, g);
      InvFs(y, g);
      R.AddKeeperToGroupKeeps(y.reg, index, g);
      FR.AddKeeperKeepsInv(y.fms[g], y.reg.local, index);
      AddKeeperOwes(y.fms[g], y.reg.local, index);
      FsAndRegistryMove(y, g, F.AddKeeper(y.fms[g], y.reg.local, index).0, R.AddKeeperToGroup(y.reg, index, g).0);
    }
  }

  lemma AddKeeperOwes(f: F.Fs, caller: Address, kindex: nat)
    ensures forall u: nat :: M.Owed(F.AddKeeper(f, caller, kindex).0, u) == M.Owed(f, u)
  {
    hide M.Balances, M.Escrows;
  }

  // The address of a new group's contract is new, and nobody holds an allowance on it.
  lemma CreateGroupKeeps(y: Sys, now: u64, caller: Address, level: nat, fsLocal: Address)
    requires Inv(y) && !IsContract(y, fsLocal) && fsLocal != y.reg.local && Guarded(y.w, fsLocal)
    ensures Inv(CreateGroup(y, now, caller, level, fsLocal).0)
  {
    hide R.Coherent, P.Inv, FR.Inv, P.Coherent, Guarded, M.Owed;
    R.CreateGroupKeeps(y.reg, caller, level);
    var (z, err) := CreateGroup(y, now, caller, level, fsLocal);
    if err == NoError {
      var n := |y.fms|;
      var f := F.NewFs(y.reg.local, fsLocal, 0, now);
      NewFsOwes(f, y.w, y.reg.tokens);
      forall g: nat | g < |z.fms|
        ensures FsOk(z, g)
      {
        if g < n {
          assert FsOk(y, g);
        }
      }
      forall g: nat | g < n
        ensures z.fms[g].local != fsLocal
      {
        assert IsContract(y, y.fms[g].local);
      }
      forall c | IsContract(z, c)
        ensures Guarded(z.w, c)
      {
        if c != fsLocal {
          assert IsContract(y, c);
        }
      }
    }
  }

  lemma NewFsOwes(f: F.Fs, w: World, tokens: seq<Address>)
    requires f == F.NewFs(f.owner, f.local, f.foundation, f.lastTime) && Guarded(w, f.local)
    ensures FR.Inv(f) && Backed(f, w, tokens)
  {
    Runs.NewFsGood(Runs.Sys(f, map[], []));
  }

  // ---------- Pledging ----------

  lemma PledgeKeeps(y: Sys, caller: Address, index: nat, money: int)
    requires Inv(y)
    ensures Shape(y) && (Pledge(y, caller, index, money).1 == NoError ==> Inv(Pledge(y, caller, index, money).0))
  {
    hide R.Coherent, Inv, Guarded, P.Pledge, Approved, P.Coherent, P.Inv;
    InvReg(y);
    var r := y.reg;
    var (z, err) := Pledge(y, caller, index, money);
    if err == NoError {
      var addr := if caller == r.admin then r.local else r.addrs[index];
      var w := if caller == r.admin then Approved(y.w, r.tokens[0], r.local, y.pool.owner, money) else y.w;
      var y1 := y.(w := w);
      ApprovalKeeps(y, r.tokens[0], y.pool.owner, money);
      assert Inv(y1);
      PoolPledges(y1, addr, index, money);
    }
  }

  lemma ApprovalKeeps(y: Sys, taddr: Address, spender: Address, money: int)
    requires Inv(y)
    ensures Inv(y.(w := Approved(y.w, taddr, y.reg.local, spender, money)))
  {
    hide Inv, Guarded, Approved;
    forall c | IsContract(y, c)
      ensures NoWorse(y.w, Approved(y.w, taddr, y.reg.local, spender, money), c)
    {
      InvContract(y, c);
      ApprovedNoWorse(y.w, taddr, y.reg.local, spender, money, c);
    }
    WorldMoves(y, Approved(y.w, taddr, y.reg.local, spender, money));
  }

  lemma PoolPledges(y: Sys, addr: Address, index: nat, money: int)
    requires Inv(y) && P.Coherent(y.pool)
    requires P.Pledge(y.pool, y.w, y.reg.local, addr, index, money).2 == NoError
    ensures var (pool, w, _) := P.Pledge(y.pool, y.w, y.reg.local, addr, index, money); Inv(y.(pool := pool, w := w))
  {
    hide Inv, P.Settle, P.Book, P.Entries, P.Covered, P.TotalStake, P.Moved;
    InvReg(y);
    var (pool, w, _) := P.Pledge(y.pool, y.w, y.reg.local, addr, index, money);
    PO.PledgeKeepsInv(y.pool, y.w, y.reg.local, addr, index, money);
    PledgeFields(y.pool, y.w, y.reg.local, addr, index, money);
    forall c | IsContract(y, c)
      ensures NoWorse(y.w, w, c)
    {
      InvContract(y, c);
      SendFromNoWorse(y.w, y.pool.tokens[0], y.pool.local, addr, y.pool.local, money, c);
    }
    assert IsContract(y, y.pool.local);
    PoolMoves(y, pool, w);
  }

  lemma PledgeFields(p: P.Pool, w: World, caller: Address, addr: Address, index: nat, money: int)
    requires P.Inv(p, w) && PO.NoAllowances(w, p.local) && P.Pledge(p, w, caller, addr, index, money).2 == NoError
    ensures var (q, w', _) := P.Pledge(p, w, caller, addr, index, money);
      && q.local == p.local && q.owner == p.owner && q.tokens == p.tokens
      && w' == SendFrom(w, p.tokens[0], p.local, addr, p.local, money).0
  {
    hide P.Settle, P.Book, P.Entries, P.Covered, P.TotalStake;
    PO.PledgeMoves(p, w, caller, addr, index, money);
  }

  lemma WithdrawKeeps(y: Sys, index: nat, t: nat, money: int)
    requires Inv(y)
    ensures Shape(y) && Inv(Withdraw(y, index, t, money).0)
  {
    hide R.Coherent, Inv, Guarded, P.Withdraw, P.Coherent, P.Inv;
    InvReg(y);
    var r := y.reg;
    if t < |r.tokens| && R.InfoError(r, index) == NoError {
      PoolWithdraws(y, r.addrs[index], index, t, money, LockOf(r, R.InfoOf(r, index).role));
    }
  }

  lemma PoolWithdraws(y: Sys, addr: Address, index: nat, t: nat, money: int, lock: int)
    requires Inv(y) && P.Coherent(y.pool) && 0 <= lock
    ensures var (pool, w, _) := P.Withdraw(y.pool, y.w, P.Payee(addr), index, t, money, lock);
      Inv(y.(pool := pool, w := w))
  {
    hide Inv, P.Withdraw, P.Moved, P.Entries, P.Covered, P.TotalStake, PO.Paid, PO.CanWithdraw, Send, P.Settle,
      P.Book, P.View;
    InvReg(y);
    var p := y.pool;
    var (pool, w, err) := P.Withdraw(p, y.w, P.Payee(addr), index, t, money, lock);
    PO.WithdrawKeepsInv(p, y.w, P.Payee(addr), index, t, money, lock);
    if !PO.CanWithdraw(p, P.Payee(addr), index, t, money) {
      PO.WithdrawRefused(p, y.w, P.Payee(addr), index, t, money, lock);
      return;
    }
    assert t < |p.tokens| && t in p.tInfo by { CanWithdrawToken(p, P.Payee(addr), index, t, money); }
    PO.WithdrawResult(p, y.w, P.Payee(addr), index, t, money, lock);
    WithdrawFields(p, y.w, P.Payee(addr), index, t, money, lock);
    var rw := PO.Paid(p, y.w, index, t, money, lock);
    forall c | IsContract(y, c)
      ensures Guarded(w, c) && (c != p.local ==> NoWorse(y.w, w, c))
    {
      InvContract(y, c);
      SendNoWorse(y.w, p.tokens[t], p.local, addr, rw, c);
    }
    assert IsContract(y, p.local);
    PoolMoves(y, pool, w);
  }

  lemma CanWithdrawToken(p: P.Pool, payee: P.Payee, index: nat, t: nat, money: int)
    requires P.Coherent(p) && PO.CanWithdraw(p, payee, index, t, money)
    ensures t < |p.tokens| && t in p.tInfo
  {
  }

  lemma WithdrawFields(p: P.Pool, w: World, payee: P.Payee, index: nat, t: nat, money: int, lock: int)
    requires P.Inv(p, w) && 0 <= lock && PO.CanWithdraw(p, payee, index, t, money)
    ensures var q := P.Withdraw(p, w, payee, index, t, money, lock).0;
      q.local == p.local && q.owner == p.owner && q.tokens == p.tokens
  {
    hide P.Withdraw, P.Entries, P.Covered, P.TotalStake, P.Credited, P.AccumNow, P.Bal, P.Stake;
    PO.WithdrawMoves(p, w, payee, index, t, money, lock);
  }

  // ---------- Storage ----------

  // Money operations of one storage manager: what it owes moves in token t only, and its
  // surplus does not fall.
  lemma StillBacked(f: F.Fs, g: F.Fs, w: World, w': World, tokens: seq<Address>, t: nat)
    requires Backed(f, w, tokens) && g.local == f.local && t < |tokens|
    requires forall u: nat :: u < |tokens| ==> M.Surplus(f, w, tokens, u) <= M.Surplus(g, w', tokens, u)
    requires forall u: nat :: u != t ==> M.Owed(g, u) == M.Owed(f, u)
    ensures Backed(g, w', tokens)
  {
    hide M.Owed;
    forall u: nat | u < |tokens|
      ensures M.Owed(g, u) <= BalanceOf(w', tokens[u], g.local)
    {
      assert M.Surplus(f, w, tokens, u) <= M.Surplus(g, w', tokens, u);
    }
  }

  lemma FsRecharges(y: Sys, g: nat, addr: Address, index: nat, t: nat, money: int)
    requires Inv(y) && g < |y.fms| && t < |y.reg.tokens|
    ensures var (f, w, _) := F.Recharge(y.fms[g], y.w, y.reg.local, addr, index, y.reg.tokens, t, money);
      Inv(SetFs(y, g, f).(w := w))
  {
    hide Inv, FR.Inv, Guarded, M.Owed, M.Surplus, Backed, SendFrom, F.EnsureToken, F.Credit;
    InvFs(y, g);
    var f0, ts := y.fms[g], y.reg.tokens;
    var (f, w, _) := F.Recharge(f0, y.w, y.reg.local, addr, index, ts, t, money);
    Runs.RechargeKeepsInv(f0, y.w, y.reg.local, addr, index, ts, t, money);
    Runs.MoneyKeepsContract(f0, y.w, 0, y.reg.local, F.Info(addr, false), addr, index, ts, t, money, 0);
    forall c | IsContract(y, c)
      ensures NoWorse(y.w, w, c)
    {
      InvContract(y, c);
      SendFromNoWorse(y.w, ts[t], f0.local, addr, f0.local, money, c);
    }
    SendFromNoWorse(y.w, ts[t], f0.local, addr, f0.local, money, f0.local);
    forall u: nat
      ensures u < |ts| ==> M.Surplus(f0, y.w, ts, u) <= M.Surplus(f, w, ts, u)
      ensures u != t ==> M.Owed(f, u) == M.Owed(f0, u)
    {
      if u < |ts| {
        RechargeBacks(f0, y.w, y.reg.local, addr, index, ts, t, money, u);
      }
      if u != t {
        M.OtherTokensOwed(f0, y.w, 0, y.reg.local, F.Info(addr, false), addr, index, ts, t, money, 0, u);
      }
    }
    StillBacked(f0, f, y.w, w, ts, t);
    FsMoves(y, g, f, w);
  }

  // The surplus stays, also when a recharge out of the contract's own account is refused.
  lemma RechargeBacks(f: F.Fs, w: World, caller: Address, addr: Address, index: nat, tokens: seq<Address>, t: nat,
                      money: int, u: nat)
    requires Guarded(w, f.local) && Distinct(tokens) && t < |tokens| && u < |tokens|
    ensures var (g, w', _) := F.Recharge(f, w, caller, addr, index, tokens, t, money);
      g.local == f.local && M.Surplus(g, w', tokens, u) == M.Surplus(f, w, tokens, u)
  {
    hide Guarded, M.Owed, SendFrom, F.Credit, F.EnsureToken;
    if addr != f.local {
      M.RechargeConserves(f, w, caller, addr, index, tokens, t, money, u);
    } else {
      SendFromNoWorse(w, tokens[t], f.local, addr, f.local, money, f.local);
      SendFromEffect(w, tokens[t], f.local, addr, f.local, money, tokens[u], f.local);
      M.OwedOfOpened(f, t, u);
      OpenedLocal(f, t);
    }
  }

  lemma OpenedLocal(f: F.Fs, t: nat)
    ensures F.EnsureToken(f, t).local == f.local
  {
  }

  lemma RechargeKeeps(y: Sys, caller: Address, index: nat, t: nat, money: int)
    requires Inv(y)
    ensures Shape(y) && Inv(Recharge(y, caller, index, t, money).0)
  {
    hide R.Coherent, Inv, Guarded, Approved, F.Recharge, P.Coherent, P.Inv;
    InvReg(y);
    var r := y.reg;
    if MemberError(r, index, t) == NoError {
      var g := R.InfoOf(r, index).gIndex;
      var addr := if caller == r.admin then r.local else r.addrs[index];
      var w := if caller == r.admin then Approved(y.w, r.tokens[t], r.local, y.fms[g].owner, money) else y.w;
      ApprovalKeeps(y, r.tokens[t], y.fms[g].owner, money);
      FsRecharges(y.(w := w), g, addr, index, t, money);
    }
  }

  lemma PayOutNoWorse(f: F.Fs, w: World, addr: Address, index: nat, tokens: seq<Address>, t: nat, amount: int,
                      c: Address)
    requires Guarded(w, c)
    ensures var w' := F.PayOut(f, w, addr, index, tokens, t, amount).1;
            Guarded(w', c) && (c != f.local ==> NoWorse(w, w', c))
  {
    hide Send, Guarded;
    var k := MultiKey(index, t);
    var f1 := F.Credit(f, k, 0);
    var pay := if amount == 0 || f1.balance[k] < amount then f1.balance[k] else amount;
    if t < |tokens| {
      SendNoWorse(w, tokens[t], f.local, addr, pay, c);
    }
    SameIsNoWorse(w, c);
  }

  lemma SameIsNoWorse(w: World, c: Address)
    requires Guarded(w, c)
    ensures NoWorse(w, w, c)
  {
  }

  lemma FsWithdraws(y: Sys, g: nat, now: u64, info: F.Info, index: nat, t: nat, amount: int)
    requires Inv(y) && g < |y.fms| && t < |y.reg.tokens|
    ensures var (f, w, _) := F.Withdraw(y.fms[g], y.w, now, info, index, y.reg.tokens, t, amount);
      Inv(SetFs(y, g, f).(w := w))
  {
    hide Inv, FR.Inv, Guarded, M.Owed, M.Surplus, Backed, F.PayOut, F.Share;
    InvFs(y, g);
    var f0, ts := y.fms[g], y.reg.tokens;
    var (f, w, _) := F.Withdraw(f0, y.w, now, info, index, ts, t, amount);
    Runs.WithdrawKeepsInv(f0, y.w, now, info, index, ts, t, amount);
    Runs.MoneyKeepsContract(f0, y.w, now, y.reg.local, info, f0.local, index, ts, t, amount, 0);
    M.ShareLocal(f0, now);
    forall c | IsContract(y, c)
      ensures Guarded(w, c) && (c != f0.local ==> NoWorse(y.w, w, c))
    {
      InvContract(y, c);
      SameIsNoWorse(y.w, c);
      if info.Info? {
        PayOutNoWorse(f0, y.w, info.addr, index, ts, t, amount, c);
        PayOutNoWorse(F.Share(f0, now).0, y.w, info.addr, index, ts, t, amount, c);
      }
    }
    forall u: nat
      ensures u < |ts| ==> M.Surplus(f0, y.w, ts, u) <= M.Surplus(f, w, ts, u)
      ensures u != t ==> M.Owed(f, u) == M.Owed(f0, u)
    {
      if u < |ts| {
        M.WithdrawConserves(f0, y.w, now, info, index, ts, t, amount, u);
      }
      if u != t {
        M.OtherTokensOwed(f0, y.w, now, y.reg.local, info, f0.local, index, ts, t, amount, 0, u);
      }
    }
    StillBacked(f0, f, y.w, w, ts, t);
    FsMoves(y, g, f, w);
  }

  lemma FsPaysProvider(y: Sys, g: nat, now: u64, info: F.Info, index: nat, t: nat, pay: int, lost: int)
    requires Inv(y) && g < |y.fms| && t < |y.reg.tokens|
    ensures var (f, w, _) := F.ProWithdraw(y.fms[g], y.w, now, info, index, y.reg.tokens, t, pay, lost);
      Inv(SetFs(y, g, f).(w := w))
  {
    hide Inv, FR.Inv, Guarded, M.Owed, M.Surplus, Backed, F.Claim, F.PayAll;
    InvFs(y, g);
    var f0, ts := y.fms[g], y.reg.tokens;
    var (f, w, _) := F.ProWithdraw(f0, y.w, now, info, index, ts, t, pay, lost);
    Runs.ProWithdrawKeepsInv(f0, y.w, now, info, index, ts, t, pay, lost);
    Runs.MoneyKeepsContract(f0, y.w, now, y.reg.local, info, f0.local, index, ts, t, pay, lost);
    forall c | IsContract(y, c)
      ensures Guarded(w, c) && (c != f0.local ==> NoWorse(y.w, w, c))
    {
      InvContract(y, c);
      ProWithdrawNoWorse(f0, y.w, now, info, index, ts, t, pay, lost, c);
    }
    forall u: nat
      ensures u < |ts| ==> M.Surplus(f0, y.w, ts, u) <= M.Surplus(f, w, ts, u)
      ensures u != t ==> M.Owed(f, u) == M.Owed(f0, u)
    {
      if u < |ts| {
        M.ProWithdrawConserves(f0, y.w, now, info, index, ts, t, pay, lost, u);
      }
      if u != t {
        M.OtherTokensOwed(f0, y.w, now, y.reg.local, info, f0.local, index, ts, t, pay, lost, u);
      }
    }
    StillBacked(f0, f, y.w, w, ts, t);
    FsMoves(y, g, f, w);
  }

  lemma ProWithdrawNoWorse(f: F.Fs, w: World, now: u64, info: F.Info, index: nat, tokens: seq<Address>, t: nat,
                           pay: int, lost: int, c: Address)
    requires Guarded(w, c)
    ensures var w' := F.ProWithdraw(f, w, now, info, index, tokens, t, pay, lost).1;
      Guarded(w', c) && (c != f.local ==> NoWorse(w, w', c))
  {
    hide Send, Guarded, F.Claim;
    var k := MultiKey(index, t);
    SameIsNoWorse(w, c);
    if k in f.proInfo {
      var f1 := F.Claim(f, now, k, pay, lost).0;
      Runs.ClaimKeepsContract(f, now, k, pay, lost);
      if info.Info? && t < |tokens| {
        SendNoWorse(w, tokens[t], f1.local, info.addr, Get(f1.balance, k), c);
      }
    }
  }

  lemma StorageKeeps(y: Sys, now: u64, index: nat, t: nat, x: int, lost: int)
    requires Inv(y)
    ensures Shape(y) && Inv(WithdrawFromFs(y, now, index, t, x).0) && Inv(ProWithdraw(y, now, index, t, x, lost).0)
  {
    hide R.Coherent, Inv, F.Withdraw, F.ProWithdraw, P.Coherent, P.Inv;
    InvReg(y);
    var r := y.reg;
    if MemberError(r, index, t) == NoError {
      var g := R.InfoOf(r, index).gIndex;
      FsWithdraws(y, g, now, InfoFor(r, index), index, t, x);
      FsPaysProvider(y, g, now, InfoFor(r, index), index, t, x, lost);
      var (f, w, _) := F.ProWithdraw(y.fms[g], y.w, now, InfoFor(r, index), index, r.tokens, t, x, lost);
      var y1 := SetFs(y, g, f).(w := w);
      InvReg(y1);
      var before := F.SettlementOf(y.fms[g], MultiKey(index, t)).lost;
      RegistryMoves(y1, r, y1.iss.(totalPaid := y1.iss.totalPaid + lost - before));
    }
  }

  // ---------- Orders ----------

  // A storage manager changes its records and no money moves.
  lemma FsRecordsMove(y: Sys, g: nat, f: F.Fs)
    requires Inv(y) && g < |y.fms|
    requires Runs.SameContract(y.fms[g], f) && FR.Inv(f) && forall u: nat :: M.Owed(f, u) == M.Owed(y.fms[g], u)
    ensures Inv(SetFs(y, g, f))
  {
    hide R.Coherent, P.Inv, FR.Inv, P.Coherent, Guarded, M.Owed;
    var z := SetFs(y, g, f);
    SameLocals(y, z);
    forall h: nat | h < |z.fms|
      ensures FsOk(z, h)
    {
      assert FsOk(y, h);
    }
  }

  lemma GroupTotalsKeep(y: Sys, g: nat, size: int, price: int)
    requires Inv(y) && g < |y.reg.groups|
    ensures Inv(y.(reg := R.AddToGroup(y.reg, g, size, price)))
  {
    hide R.Coherent, R.RolesStay, Inv, P.Coherent, P.Inv, Guarded;
    InvReg(y);
    var gi := y.reg.groups[g];
    R.SameMembersKeeps(y.reg, g, gi.(size := gi.size + size, price := gi.price + price));
    RegistryMoves(y, R.AddToGroup(y.reg, g, size, price), y.iss);
  }

  lemma IssueKeeps(y: Sys, c: I.Call)
    requires Inv(y) && 0 < |y.reg.tokens|
    ensures Inv(Issue(y, c).0)
  {
    hide Inv, R.Coherent, P.Inv, I.Book, Send, Guarded;
    InvReg(y);
    I.RewardBounds(y.iss, c);
    var b := I.Book(y.iss, c);
    var w := if b.paid <= 0 then y.w else Send(y.w, y.reg.tokens[0], y.reg.local, y.pool.local, b.reward).0;
    forall x | IsContract(y, x)
      ensures NoWorse(y.w, w, x)
    {
      InvContract(y, x);
      SameIsNoWorse(y.w, x);
      SendNoWorse(y.w, y.reg.tokens[0], y.reg.local, y.pool.local, b.reward, x);
    }
    WorldMoves(y, w);
    var y1 := y.(w := w);
    RegistryMoves(y1, y.reg, b.issue);
    RegistryMoves(y1, y.reg, b.issue.(lastMint := I.Clock(y.iss.lastMint, c.now)));
  }

  lemma AddOrderKeeps(y: Sys, now: u64, caller: Address, user: nat, pro: nat, start: u64, end: u64, size: u64,
                      nonce: nat, t: nat, sprice: int)
    requires Inv(y)
    ensures Shape(y) && Inv(AddOrder(y, now, caller, user, pro, start, end, size, nonce, t, sprice).0)
  {
    hide Inv, R.Coherent, P.Inv, P.Coherent, FR.Inv, F.AddOrder, Issue, M.Owed;
    InvReg(y);
    var r := y.reg;
    if PartyError(r, user, pro, false) == NoError {
      var g := R.InfoOf(r, user).gIndex;
      InvFs(y, g);
      var f := F.AddOrder(y.fms[g], r.local, IndexOf(r, caller), user, pro, start, end, size, nonce, t, sprice).0;
      FR.AddOrderKeepsInv(y.fms[g], r.local, IndexOf(r, caller), user, pro, start, end, size, nonce, t, sprice);
      Runs.OrdersKeepContract(y.fms[g], r.local, now, IndexOf(r, caller), user, pro, start, end, size, nonce, t,
                              sprice);
      forall u: nat
        ensures M.Owed(f, u) == M.Owed(y.fms[g], u)
      {
        M.AddOrderOwed(y.fms[g], r.local, IndexOf(r, caller), user, pro, start, end, size, nonce, t, sprice, u);
      }
      FsRecordsMove(y, g, f);
      var y1 := SetFs(y, g, f);
      GroupTotalsKeep(y1, g, size, sprice);
      if t < |r.tokens| {
        IssueKeeps(y1.(reg := R.AddToGroup(r, g, size, sprice)), I.Call(now, start, end, size, sprice));
      }
    }
  }

  lemma SubOrderKeeps(y: Sys, now: u64, caller: Address, user: nat, pro: nat, start: u64, end: u64, size: u64,
                      nonce: nat, t: nat, sprice: int)
    requires Inv(y)
    ensures Shape(y) && Inv(SubOrder(y, now, caller, user, pro, start, end, size, nonce, t, sprice).0)
  {
    hide Inv, R.Coherent, P.Inv, P.Coherent, FR.Inv, F.SubOrder, M.Owed;
    InvReg(y);
    var r := y.reg;
    if PartyError(r, user, pro, true) == NoError {
      var g := R.InfoOf(r, user).gIndex;
      InvFs(y, g);
      var f := F.SubOrder(y.fms[g], r.local, now, IndexOf(r, caller), user, pro, start, end, size, nonce, t, sprice).0;
      FR.SubOrderKeepsInv(y.fms[g], r.local, now, IndexOf(r, caller), user, pro, start, end, size, nonce, t, sprice);
      Runs.OrdersKeepContract(y.fms[g], r.local, now, IndexOf(r, caller), user, pro, start, end, size, nonce, t,
                              sprice);
      forall u: nat
        ensures M.Owed(f, u) == M.Owed(y.fms[g], u)
      {
        M.SubOrderOwed(y.fms[g], r.local, now, IndexOf(r, caller), user, pro, start, end, size, nonce, t, sprice, u);
      }
      FsRecordsMove(y, g, f);
      GroupTotalsKeep(SetFs(y, g, f), g, -(size as int), -sprice);
    }
  }

  // ---------- Runs ----------

  datatype Op =
    | OpRegisterToken(taddr: Address)
    | OpRegister(addr: Address)
    | OpRegisterKeeper(index: nat)
    | OpRegisterProvider(index: nat)
    | OpRegisterUser(index: nat, g: nat)
    | OpCreateGroup(caller: Address, level: nat, fsLocal: Address)
    | OpSetReady(g: nat, signatures: nat)
    | OpAddKeeper(index: nat, g: nat)
    | OpAddProvider(index: nat, g: nat)
    | OpSetPledgeMoney(kPledge: int, pPledge: int)
    | OpPledge(caller: Address, index: nat, money: int)
    | OpWithdraw(index: nat, t: nat, money: int)
    | OpRecharge(caller: Address, index: nat, t: nat, money: int)
    | OpWithdrawFromFs(index: nat, t: nat, amount: int)
    | OpProWithdraw(index: nat, t: nat, pay: int, lost: int)
    | OpAddOrder(caller: Address, user: nat, pro: nat, start: u64, end: u64, size: u64, nonce: nat, t: nat, sprice: int)
    | OpSubOrder(caller: Address, user: nat, pro: nat, start: u64, end: u64, size: u64, nonce: nat, t: nat, sprice: int)
    | OpOutside(w: World)

  function Do(y: Sys, now: u64, op: Op): (Sys, Error)
    requires Shape(y)
  {
    match op
    case OpRegisterToken(taddr) => RegisterToken(y, taddr)
    case OpRegister(addr) => Register(y, addr)
    case OpRegisterKeeper(index) => RegisterRole(y, index, R.Keeper)
    case OpRegisterProvider(index) => RegisterRole(y, index, R.Provider)
    case OpRegisterUser(index, g) => RegisterUser(y, index, g)
    case OpCreateGroup(caller, level, fsLocal) => CreateGroup(y, now, caller, level, fsLocal)
    case OpSetReady(g, signatures) => SetReady(y, g, signatures)
    case OpAddKeeper(index, g) => AddKeeperToGroup(y, index, g)
    case OpAddProvider(index, g) => AddProviderToGroup(y, index, g)
    case OpSetPledgeMoney(kPledge, pPledge) => SetPledgeMoney(y, kPledge, pPledge)
    case OpPledge(caller, index, money) => Pledge(y, caller, index, money)
    case OpWithdraw(index, t, money) => Withdraw(y, index, t, money)
    case OpRecharge(caller, index, t, money) => Recharge(y, caller, index, t, money)
    case OpWithdrawFromFs(index, t, amount) => WithdrawFromFs(y, now, index, t, amount)
    case OpProWithdraw(index, t, pay, lost) => ProWithdraw(y, now, index, t, pay, lost)
    case OpAddOrder(caller, user, pro, start, end, size, nonce, t, sprice) =>
      AddOrder(y, now, caller, user, pro, start, end, size, nonce, t, sprice)
    case OpSubOrder(caller, user, pro, start, end, size, nonce, t, sprice) =>
      SubOrder(y, now, caller, user, pro, start, end, size, nonce, t, sprice)
    case OpOutside(w) => (y.(w := w), NoError)
  }

  // A transaction that fails is undone.
  function Step(y: Sys, now: u64, op: Op): Sys
    requires Shape(y)
  {
    var (z, err) := Do(y, now, op);
    if err == NoError then z else y
  }

  // The only assumptions: derived contract addresses are new, pledge amounts are not
  // negative, no account starts in debt in a new token, and outsiders cannot act for a
  // contract (SystemOutside.OutsiderIsAllowed).
  ghost predicate Allowed(y: Sys, op: Op) {
    match op
    case OpRegisterToken(taddr) =>
      && 0 <= BalanceOf(y.w, taddr, y.pool.local)
      && (forall g: nat :: g < |y.fms| ==> 0 <= BalanceOf(y.w, taddr, y.fms[g].local))
    case OpCreateGroup(_, _, fsLocal) => !IsContract(y, fsLocal) && fsLocal != y.reg.local && Guarded(y.w, fsLocal)
    case OpSetPledgeMoney(kPledge, pPledge) => 0 <= kPledge && 0 <= pPledge
    case OpOutside(w) => forall c :: IsContract(y, c) ==> NoWorse(y.w, w, c)
    case _ => true
  }

  lemma SetPledgeMoneyKeeps(y: Sys, kPledge: int, pPledge: int)
    requires Inv(y) && 0 <= kPledge && 0 <= pPledge
    ensures Inv(SetPledgeMoney(y, kPledge, pPledge).0)
  {
    hide P.Inv, FR.Inv, Backed, Guarded, P.Coherent;
    var z := SetPledgeMoney(y, kPledge, pPledge).0;
    SameLocals(y, z);
    assert R.Coherent(z.reg) by { SameRegistry(y.reg, z.reg); }
    forall g: nat | g < |z.fms|
      ensures FsOk(z, g)
    {
      assert FsOk(y, g);
    }
  }

  lemma SameRegistry(r: R.Registry, s: R.Registry)
    requires R.Coherent(r) && s == r.(pledgeKeeper := s.pledgeKeeper, pledgePro := s.pledgePro)
    ensures R.Coherent(s) && R.RolesStay(r, s)
  {
    assert forall i: nat :: i < |r.addrs| ==> R.InfoOf(s, i) == R.InfoOf(r, i);
    assert forall g: nat, q: R.Role, i: nat :: R.Member(s, g, q, i) <==> R.Member(r, g, q, i);
  }

  lemma RegistrationKeepsInv(y: Sys, now: u64, op: Op)
    requires Inv(y) && Allowed(y, op)
    requires op.OpRegisterToken? || op.OpRegister? || op.OpRegisterKeeper? || op.OpRegisterProvider?
             || op.OpRegisterUser? || op.OpSetPledgeMoney?
    ensures Shape(y) && Inv(Step(y, now, op))
  {
    hide Inv, R.Coherent, P.Coherent, RegisterToken, Register, RegisterRole, RegisterUser, CreateGroup, SetReady,
      AddKeeperToGroup, AddProviderToGroup, SetPledgeMoney, Pledge, Withdraw, Recharge, WithdrawFromFs, ProWithdraw,
      AddOrder, SubOrder, NoWorse, Guarded, IsContract;
    InvReg(y);
    match op
    case OpRegisterToken(taddr) => RegisterTokenKeeps(y, taddr);
    case OpRegister(addr) => RegisterKeeps(y, addr);
    case OpRegisterKeeper(index) => RegisterRoleKeeps(y, index, R.Keeper);
    case OpRegisterProvider(index) => RegisterRoleKeeps(y, index, R.Provider);
    case OpRegisterUser(index, g) => RegisterUserKeeps(y, index, g);
    case OpSetPledgeMoney(kPledge, pPledge) => SetPledgeMoneyKeeps(y, kPledge, pPledge);
  }

  lemma GroupKeepsInv(y: Sys, now: u64, op: Op)
    requires Inv(y) && Allowed(y, op)
    requires op.OpCreateGroup? || op.OpSetReady? || op.OpAddKeeper? || op.OpAddProvider? || op.OpOutside?
    ensures Shape(y) && Inv(Step(y, now, op))
  {
    hide Inv, R.Coherent, P.Coherent, RegisterToken, Register, RegisterRole, RegisterUser, CreateGroup, SetReady,
      AddKeeperToGroup, AddProviderToGroup, SetPledgeMoney, Pledge, Withdraw, Recharge, WithdrawFromFs, ProWithdraw,
      AddOrder, SubOrder, NoWorse, Guarded, IsContract;
    InvReg(y);
    match op
    case OpCreateGroup(caller, level, fsLocal) => CreateGroupKeeps(y, now, caller, level, fsLocal);
    case OpSetReady(g, signatures) => SetReadyKeeps(y, g, signatures);
    case OpAddKeeper(index, g) => AddKeeperKeeps(y, index, g);
    case OpAddProvider(index, g) => AddProviderKeeps(y, index, g);
    case OpOutside(w) => WorldMoves(y, w);
  }

  lemma MoneyKeepsInv(y: Sys, now: u64, op: Op)
    requires Inv(y)
    requires op.OpPledge? || op.OpWithdraw? || op.OpRecharge? || op.OpWithdrawFromFs? || op.OpProWithdraw?
    ensures Shape(y) && Inv(Step(y, now, op))
  {
    hide Inv, R.Coherent, P.Coherent, RegisterToken, Register, RegisterRole, RegisterUser, CreateGroup, SetReady,
      AddKeeperToGroup, AddProviderToGroup, SetPledgeMoney, Pledge, Withdraw, Recharge, WithdrawFromFs, ProWithdraw,
      AddOrder, SubOrder, NoWorse, Guarded, IsContract;
    InvReg(y);
    match op
    case OpPledge(caller, index, money) => PledgeKeeps(y, caller, index, money);
    case OpWithdraw(index, t, money) => WithdrawKeeps(y, index, t, money);
    case OpRecharge(caller, index, t, money) => RechargeKeeps(y, caller, index, t, money);
    case OpWithdrawFromFs(index, t, amount) => StorageKeeps(y, now, index, t, amount, 0);
    case OpProWithdraw(index, t, pay, lost) => StorageKeeps(y, now, index, t, pay, lost);
  }

  lemma OrderKeepsInv(y: Sys, now: u64, op: Op)
    requires Inv(y) && (op.OpAddOrder? || op.OpSubOrder?)
    ensures Shape(y) && Inv(Step(y, now, op))
  {
    hide Inv, R.Coherent, P.Coherent, RegisterToken, Register, RegisterRole, RegisterUser, CreateGroup, SetReady,
      AddKeeperToGroup, AddProviderToGroup, SetPledgeMoney, Pledge, Withdraw, Recharge, WithdrawFromFs, ProWithdraw,
      AddOrder, SubOrder, NoWorse, Guarded, IsContract;
    InvReg(y);
    match op
    case OpAddOrder(caller, user, pro, start, end, size, nonce, t, sprice) =>
      AddOrderKeeps(y, now, caller, user, pro, start, end, size, nonce, t, sprice);
    case OpSubOrder(caller, user, pro, start, end, size, nonce, t, sprice) =>
      SubOrderKeeps(y, now, caller, user, pro, start, end, size, nonce, t, sprice);
  }

  lemma StepKeepsInv(y: Sys, now: u64, op: Op)
    requires Inv(y) && Allowed(y, op)
    ensures Shape(y) && Inv(Step(y, now, op))
  {
    hide Inv, Allowed, Step;
    match op
    case OpRegisterToken(_) => RegistrationKeepsInv(y, now, op);
    case OpRegister(_) => RegistrationKeepsInv(y, now, op);
    case OpRegisterKeeper(_) => RegistrationKeepsInv(y, now, op);
    case OpRegisterProvider(_) => RegistrationKeepsInv(y, now, op);
    case OpRegisterUser(_, _) => RegistrationKeepsInv(y, now, op);
    case OpSetPledgeMoney(_, _) => RegistrationKeepsInv(y, now, op);
    case OpCreateGroup(_, _, _) => GroupKeepsInv(y, now, op);
    case OpSetReady(_, _) => GroupKeepsInv(y, now, op);
    case OpAddKeeper(_, _) => GroupKeepsInv(y, now, op);
    case OpAddProvider(_, _) => GroupKeepsInv(y, now, op);
    case OpOutside(_) => GroupKeepsInv(y, now, op);
    case OpAddOrder(_, _, _, _, _, _, _, _, _) => OrderKeepsInv(y, now, op);
    case OpSubOrder(_, _, _, _, _, _, _, _, _) => OrderKeepsInv(y, now, op);
    case _ => MoneyKeepsInv(y, now, op);
  }

  datatype Timed = Timed(now: u64, op: Op)

  ghost predicate AllowedRun(y: Sys, ops: seq<Timed>)
    requires Inv(y)
    decreases |ops|
  {
    ops == [] ||
    (Allowed(y, ops[0].op)
     && (StepKeepsInv(y, ops[0].now, ops[0].op); AllowedRun(Step(y, ops[0].now, ops[0].op), ops[1..])))
  }

  ghost function Run(y: Sys, ops: seq<Timed>): (z: Sys)
    requires Inv(y) && AllowedRun(y, ops)
    ensures Inv(z)
    decreases |ops|
  {
    if ops == [] then y
    else
      StepKeepsInv(y, ops[0].now, ops[0].op);
      Run(Step(y, ops[0].now, ops[0].op), ops[1..])
  }

  lemma NewSysInv(w: World, local: Address, poolLocal: Address, admin: Address, foundation: Address, ptoken: Address,
                  kPledge: int, pPledge: int, now: u64)
    requires Guarded(w, poolLocal) && poolLocal != local && 0 <= kPledge && 0 <= pPledge
    ensures Inv(NewSys(w, local, poolLocal, admin, foundation, ptoken, kPledge, pPledge, now))
  {
    hide R.Coherent, P.Entries, P.Covered, P.TotalStake;
    R.NewIsCoherent(local, admin, foundation, ptoken, kPledge, pPledge);
    PO.NewPoolInv(local, poolLocal, ptoken, w);
  }

  // The whole system, over every run of its operations and of the outside world (NewSysInv
  // starts one): the pool holds what it reports to its stakers, each storage manager holds
  // what it owes, the pool's tokens are the registry's, without duplicates, and each group's
  // keepers are its storage manager's. What is owed nets the escrow of orders closed at
  // made-up prices, which is negative; see SystemClaims for runs without such orders.
  lemma SystemIsSafe(y: Sys, ops: seq<Timed>, t: nat, g: nat)
    requires Inv(y) && AllowedRun(y, ops)
    ensures var z := Run(y, ops);
      && P.Coherent(z.pool)
      && z.pool.tokens == z.reg.tokens && Distinct(z.reg.tokens) && Distinct(z.reg.addrs)
      && |z.fms| == |z.reg.groups|
      && (t < |z.reg.tokens| ==> P.Reported(z.pool, z.w, t) <= P.Bal(z.pool, z.w, t))
      && (g < |z.fms| ==> z.fms[g].keepers == z.reg.groups[g].keepers)
      && (g < |z.fms| && t < |z.reg.tokens| ==>
            M.Owed(z.fms[g], t) <= BalanceOf(z.w, z.reg.tokens[t], z.fms[g].local))
  {
    hide *;
    SafeState(Run(y, ops), t, g);
  }

  lemma SafeState(z: Sys, t: nat, g: nat)
    requires Inv(z)
    ensures P.Coherent(z.pool)
    ensures z.pool.tokens == z.reg.tokens && Distinct(z.reg.tokens) && Distinct(z.reg.addrs)
    ensures |z.fms| == |z.reg.groups|
    ensures t < |z.reg.tokens| ==> P.Reported(z.pool, z.w, t) <= P.Bal(z.pool, z.w, t)
    ensures g < |z.fms| ==> z.fms[g].keepers == z.reg.groups[g].keepers
    ensures g < |z.fms| && t < |z.reg.tokens| ==>
      M.Owed(z.fms[g], t) <= BalanceOf(z.w, z.reg.tokens[t], z.fms[g].local)
  {
    hide P.Reported, M.Owed, P.Entries, P.Covered, P.TotalStake, FR.Inv, Guarded;
    R.ListsAreDistinct(z.reg);
    if t < |z.reg.tokens| {
      P.Solvent(z.pool, z.w, t);
    }
    if g < |z.fms| {
      assert FsOk(z, g);
    }
  }

  // ---------- Roles ----------

  lemma RegistrationKeepsRoles(y: Sys, now: u64, op: Op)
    requires Inv(y)
    requires op.OpRegisterToken? || op.OpRegister? || op.OpRegisterKeeper? || op.OpRegisterProvider?
             || op.OpRegisterUser? || op.OpSetPledgeMoney? || op.OpCreateGroup? || op.OpSetReady?
             || op.OpAddKeeper? || op.OpAddProvider?
    ensures Shape(y) && R.Coherent(y.reg) && R.Coherent(Step(y, now, op).reg)
            && R.RolesStay(y.reg, Step(y, now, op).reg)
  {
    hide Inv, R.Coherent, P.Coherent, R.RolesStay, P.AddToken, F.CreateFs, F.AddKeeper,
      R.RegisterToken, R.Register, R.RegisterRole, R.RegisterUser, R.CreateGroup, R.AddKeeperToGroup,
      R.AddProviderToGroup;
    InvReg(y);
    SameRegistry(y.reg, y.reg);
    match op
    case OpRegisterToken(taddr) => R.RegisterTokenKeeps(y.reg, taddr);
    case OpRegister(addr) => R.RegisterKeeps(y.reg, addr);
    case OpRegisterKeeper(index) =>
      R.RegisterRoleKeeps(y.reg, index, PledgedIn(y.pool, y.w, index), y.reg.pledgeKeeper, R.Keeper);
    case OpRegisterProvider(index) =>
      R.RegisterRoleKeeps(y.reg, index, PledgedIn(y.pool, y.w, index), y.reg.pledgePro, R.Provider);
    case OpRegisterUser(index, g) => R.RegisterUserKeeps(y.reg, index, g);
    case OpSetPledgeMoney(kPledge, pPledge) =>
      SameRegistry(y.reg, y.reg.(pledgeKeeper := kPledge, pledgePro := pPledge));
    case OpCreateGroup(caller, level, _) => R.CreateGroupKeeps(y.reg, caller, level);
    case OpSetReady(g, signatures) =>
      if g < |y.reg.groups| {
        R.SameMembersKeeps(y.reg, g, y.reg.groups[g].(isReady := true));
      }
    case OpAddKeeper(index, g) => R.AddKeeperToGroupKeeps(y.reg, index, g);
    case OpAddProvider(index, g) => R.AddProviderToGroupKeeps(y.reg, index, g);
  }

  // The other operations leave the registry alone but for a group's totals.
  lemma OthersKeepRoles(y: Sys, now: u64, op: Op)
    requires Inv(y)
    requires op.OpPledge? || op.OpWithdraw? || op.OpRecharge? || op.OpWithdrawFromFs? || op.OpProWithdraw?
             || op.OpAddOrder? || op.OpSubOrder? || op.OpOutside?
    ensures Shape(y) && R.Coherent(y.reg) && R.Coherent(Step(y, now, op).reg)
            && R.RolesStay(y.reg, Step(y, now, op).reg)
  {
    hide Inv, R.Coherent, P.Coherent, R.RolesStay, P.Pledge, P.Withdraw, F.Recharge, F.Withdraw, F.ProWithdraw,
      F.AddOrder, F.SubOrder, I.Book, Send, Approved;
    InvReg(y);
    SameRegistry(y.reg, y.reg);
    forall g: nat, gi: R.GroupInfo | g < |y.reg.groups| && SameButTotals(y.reg.groups[g], gi)
      ensures R.Coherent(y.reg.(groups := y.reg.groups[g := gi]))
      ensures R.RolesStay(y.reg, y.reg.(groups := y.reg.groups[g := gi]))
    {
      R.SameMembersKeeps(y.reg, g, gi);
    }
    if op.OpAddOrder? || op.OpSubOrder? {
      OrderRegistry(y, now, op);
    }
  }

  ghost predicate SameButTotals(gi: R.GroupInfo, gj: R.GroupInfo) {
    gj == gi.(size := gj.size, price := gj.price)
  }

  lemma OrderRegistry(y: Sys, now: u64, op: Op)
    requires Shape(y) && (op.OpAddOrder? || op.OpSubOrder?)
    ensures var reg := Step(y, now, op).reg;
      reg == y.reg || exists g: nat, gi: R.GroupInfo ::
        g < |y.reg.groups| && SameButTotals(y.reg.groups[g], gi) && reg == y.reg.(groups := y.reg.groups[g := gi])
  {
    hide P.Coherent, F.AddOrder, F.SubOrder, I.Book, Send;
    var reg := Step(y, now, op).reg;
    if reg != y.reg {
      var g := R.InfoOf(y.reg, op.user).gIndex;
      assert SameButTotals(y.reg.groups[g], reg.groups[g]);
      assert reg == y.reg.(groups := y.reg.groups[g := reg.groups[g]]);
    }
  }

  lemma StepKeepsRoles(y: Sys, now: u64, op: Op)
    requires Inv(y)
    ensures Shape(y) && R.Coherent(y.reg) && R.Coherent(Step(y, now, op).reg)
            && R.RolesStay(y.reg, Step(y, now, op).reg)
  {
    hide Inv, Step, R.Coherent, R.RolesStay;
    match op
    case OpPledge(_, _, _) => OthersKeepRoles(y, now, op);
    case OpWithdraw(_, _, _) => OthersKeepRoles(y, now, op);
    case OpRecharge(_, _, _, _) => OthersKeepRoles(y, now, op);
    case OpWithdrawFromFs(_, _, _) => OthersKeepRoles(y, now, op);
    case OpProWithdraw(_, _, _, _) => OthersKeepRoles(y, now, op);
    case OpAddOrder(_, _, _, _, _, _, _, _, _) => OthersKeepRoles(y, now, op);
    case OpSubOrder(_, _, _, _, _, _, _, _, _) => OthersKeepRoles(y, now, op);
    case OpOutside(_) => OthersKeepRoles(y, now, op);
    case _ => RegistrationKeepsRoles(y, now, op);
  }

  lemma RolesStayOn(r: R.Registry, s: R.Registry, u: R.Registry)
    requires R.Coherent(r) && R.Coherent(s) && R.Coherent(u) && R.RolesStay(r, s) && R.RolesStay(s, u)
    ensures R.RolesStay(r, u)
  {
    forall i: nat | i < |r.addrs| && R.InfoOf(r, i).role != R.Account
      ensures R.InfoOf(u, i).role == R.InfoOf(r, i).role
    {
      assert R.InfoOf(s, i).role == R.InfoOf(r, i).role;
    }
  }

  // Registry coherence over whole runs: indices keep naming their addresses, and a role once
  // taken is never changed.
  lemma {:induction false} RolesNeverChange(y: Sys, ops: seq<Timed>)
    requires Inv(y) && AllowedRun(y, ops)
    ensures R.Coherent(y.reg) && R.Coherent(Run(y, ops).reg) && R.RolesStay(y.reg, Run(y, ops).reg)
    decreases |ops|
  {
    hide Inv, Step, Allowed, R.Coherent, R.RolesStay;
    InvReg(y);
    if ops == [] {
      SameRegistry(y.reg, y.reg);
    } else {
      var y1 := Step(y, ops[0].now, ops[0].op);
      StepKeepsInv(y, ops[0].now, ops[0].op);
      StepKeepsRoles(y, ops[0].now, ops[0].op);
      RolesNeverChange(y1, ops[1..]);
      RolesStayOn(y.reg, y1.reg, Run(y, ops).reg);
    }
  }
}
