// The registry part of the role manager (server/contract/role.go): addresses, roles, tokens
// and groups, and the coherence that every run keeps.
module Registry {
  import opened Types

  datatype Role = Account | User | Provider | Keeper

  datatype BaseInfo = BaseInfo(isActive: bool, isBanned: bool, role: Role, index: nat, gIndex: nat)

  datatype GroupInfo = GroupInfo(
    isActive: bool,
    isBanned: bool,
    isReady: bool,
    level: nat,
    keepers: seq<nat>,
    providers: seq<nat>,
    size: int,
    price: int)

  datatype Registry = Registry(
    local: Address,
    admin: Address,
    foundation: Address,
    addrs: seq<Address>,
    info: map<Address, BaseInfo>,
    groups: seq<GroupInfo>,
    tokens: seq<Address>,
    tIndex: map<Address, nat>,
    pledgeKeeper: int,
    pledgePro: int)

  function NewRegistry(local: Address, admin: Address, foundation: Address, ptoken: Address, kPledge: int,
                       pPledge: int): Registry {
    Registry(local, admin, foundation, [foundation],
             map[foundation := BaseInfo(false, false, Account, 0, 0)],
             [], [ptoken], map[ptoken := 0], kPledge, pPledge)
  }

  // ---------- Look-ups ----------

  function InfoError(r: Registry, index: nat): Error {
    if |r.addrs| <= index then ErrInput
    else if r.addrs[index] !in r.info then ErrEmpty
    else if r.info[r.addrs[index]].isBanned then ErrPermission
    else NoError
  }

  function InfoOf(r: Registry, index: nat): BaseInfo
    requires index < |r.addrs| && r.addrs[index] in r.info
  {
    r.info[r.addrs[index]]
  }

  function GroupError(r: Registry, g: nat): Error {
    if |r.groups| <= g then ErrInput
    else if !r.groups[g].isActive || r.groups[g].isBanned then ErrPermission
    else NoError
  }

  function SetInfo(r: Registry, index: nat, bi: BaseInfo): Registry
    requires index < |r.addrs|
  {
    r.(info := r.info[r.addrs[index] := bi])
  }

  // ---------- Registration ----------

  function RegisterToken(r: Registry, taddr: Address): (Registry, Error) {
    if taddr in r.tIndex then (r, ErrExist)
    else (r.(tIndex := r.tIndex[taddr := |r.tokens|], tokens := r.tokens + [taddr]), NoError)
  }

  function Register(r: Registry, addr: Address): (Registry, Error) {
    if addr in r.info then (r, ErrExist)
    else
      (r.(info := r.info[addr := BaseInfo(false, false, Account, |r.addrs|, 0)],
          addrs := r.addrs + [addr]), NoError)
  }

  // An account becomes a keeper or a provider when it has pledged need; pledged is its
  // reported token-0 balance, if it has any.
  datatype Pledged = NothingPledged | Pledged(amount: int)

  function RegisterRole(r: Registry, index: nat, pledged: Pledged, need: int, role: Role): (Registry, Error) {
    if InfoError(r, index) != NoError then (r, InfoError(r, index))
    else if InfoOf(r, index).role != Account then (r, ErrRoleType)
    else if pledged.NothingPledged? || pledged.amount < need then (r, ErrBalanceNotEnough)
    else (SetInfo(r, index, InfoOf(r, index).(role := role)), NoError)
  }

  // The checks of RegisterUser before the storage manager is asked.
  function UserError(r: Registry, index: nat, g: nat): Error {
    if InfoError(r, index) != NoError then InfoError(r, index)
    else if InfoOf(r, index).role != Account then ErrRoleType
    else GroupError(r, g)
  }

  function RegisterUser(r: Registry, index: nat, g: nat): (Registry, Error) {
    if UserError(r, index, g) != NoError then (r, UserError(r, index, g))
    else (SetInfo(r, index, InfoOf(r, index).(role := User, gIndex := g)), NoError)
  }

  // ---------- Groups ----------

  function CreateGroup(r: Registry, caller: Address, level: nat): (Registry, Error) {
    if caller != r.admin then (r, ErrPermission)
    else (r.(groups := r.groups + [GroupInfo(false, false, false, level, [], [], 0, 0)]), NoError)
  }

  function SetReady(r: Registry, g: nat, signatures: nat): (Registry, Error) {
    if |r.groups| <= g then (r, ErrInput)
    else if r.groups[g].isBanned || r.groups[g].isActive then (r, ErrPermission)
    else if signatures < r.groups[g].level then (r, ErrPermission)
    else (r.(groups := r.groups[g := r.groups[g].(isReady := true)]), NoError)
  }

  function KeeperError(r: Registry, index: nat, g: nat): Error {
    if |r.groups| <= g then ErrInput
    else if r.groups[g].isBanned then ErrPermission
    else if InfoError(r, index) != NoError then InfoError(r, index)
    else if InfoOf(r, index).role != Keeper then ErrRoleType
    else if InfoOf(r, index).isActive then ErrPermission
    else NoError
  }

  function AddKeeperToGroup(r: Registry, index: nat, g: nat): (Registry, Error) {
    if KeeperError(r, index, g) != NoError then (r, KeeperError(r, index, g))
    else
      var gi := r.groups[g];
      var keepers := gi.keepers + [index];
      var r1 := r.(groups := r.groups[g := gi.(keepers := keepers, isActive := gi.isActive || gi.level <= |keepers|)]);
      (SetInfo(r1, index, InfoOf(r, index).(gIndex := g, isActive := true)), NoError)
  }

  function ProviderError(r: Registry, index: nat, g: nat): Error {
    if |r.groups| <= g then ErrInput
    else if r.groups[g].isBanned then ErrPermission
    else if InfoError(r, index) != NoError then InfoError(r, index)
    else if InfoOf(r, index).isActive then ErrPermission
    else if InfoOf(r, index).role != Provider then ErrRoleType
    else NoError
  }

  function AddProviderToGroup(r: Registry, index: nat, g: nat): (Registry, Error) {
    if ProviderError(r, index, g) != NoError then (r, ProviderError(r, index, g))
    else
      var gi := r.groups[g];
      var r1 := r.(groups := r.groups[g := gi.(providers := gi.providers + [index])]);
      (SetInfo(r1, index, InfoOf(r, index).(gIndex := g, isActive := true)), NoError)
  }

  // An order moves the totals of its group.
  function AddToGroup(r: Registry, g: nat, size: int, price: int): Registry
    requires g < |r.groups|
  {
    var gi := r.groups[g];
    r.(groups := r.groups[g := gi.(size := gi.size + size, price := gi.price + price)])
  }

  // ---------- Coherence ----------

  // Indices and addresses name each other.
  ghost predicate Indexed(r: Registry) {
    && (forall i: nat :: i < |r.addrs| ==> r.addrs[i] in r.info && r.info[r.addrs[i]].index == i)
    && (forall a :: a in r.info ==> r.info[a].index < |r.addrs| && r.addrs[r.info[a].index] == a)
  }

  ghost predicate TokensListed(r: Registry) {
    && (forall t: nat :: t < |r.tokens| ==> r.tokens[t] in r.tIndex && r.tIndex[r.tokens[t]] == t)
    && (forall a :: a in r.tIndex ==> r.tIndex[a] < |r.tokens| && r.tokens[r.tIndex[a]] == a)
  }

  // The list of group g that an address of this role belongs to.
  function Members(gi: GroupInfo, role: Role): seq<nat> {
    if role == Keeper then gi.keepers else if role == Provider then gi.providers else []
  }

  // i is an active member of group g in this role.
  ghost predicate Member(r: Registry, g: nat, role: Role, i: nat)
    requires Indexed(r)
  {
    i < |r.addrs| && InfoOf(r, i).isActive && InfoOf(r, i).role == role && InfoOf(r, i).gIndex == g
  }

  // The lists of the groups are exactly the active members, each once.
  ghost predicate Grouped(r: Registry)
    requires Indexed(r)
  {
    && (forall g: nat :: g < |r.groups| ==> Distinct(r.groups[g].keepers) && Distinct(r.groups[g].providers))
    && (forall g: nat, role: Role, i: nat :: g < |r.groups| ==>
          (i in Members(r.groups[g], role) <==> (role == Keeper || role == Provider) && Member(r, g, role, i)))
    && (forall i: nat :: i < |r.addrs| && InfoOf(r, i).isActive ==>
          InfoOf(r, i).gIndex < |r.groups| && (InfoOf(r, i).role == Keeper || InfoOf(r, i).role == Provider))
    && (forall g: nat :: g < |r.groups| && r.groups[g].isActive ==> r.groups[g].level <= |r.groups[g].keepers|)
  }

  ghost predicate Coherent(r: Registry) {
    Indexed(r) && TokensListed(r) && Grouped(r)
  }

  // A role, once taken, stays, and so do the address of an index and those that the contract was
  // created with.
  ghost predicate RolesStay(r: Registry, s: Registry)
    requires Indexed(r) && Indexed(s)
  {
    && s.local == r.local && s.admin == r.admin && s.foundation == r.foundation
    && r.addrs <= s.addrs
    && (forall i: nat :: i < |r.addrs| && InfoOf(r, i).role != Account ==> InfoOf(s, i).role == InfoOf(r, i).role)
  }

  lemma NewIsCoherent(local: Address, admin: Address, foundation: Address, ptoken: Address, kPledge: int, pPledge: int)
    ensures Coherent(NewRegistry(local, admin, foundation, ptoken, kPledge, pPledge))
  {
  }

  // No address and no token is listed twice.
  lemma ListsAreDistinct(r: Registry)
    requires Coherent(r)
    ensures Distinct(r.addrs) && Distinct(r.tokens)
  {
  }

  // An index is in at most one list of at most one group.
  lemma OneGroupOnly(r: Registry, i: nat, g: nat, h: nat, role: Role, role': Role)
    requires Coherent(r) && g < |r.groups| && h < |r.groups|
    requires i in Members(r.groups[g], role) && i in Members(r.groups[h], role')
    ensures g == h && role == role'
  {
  }

  lemma SetInfoIndexed(r: Registry, index: nat, bi: BaseInfo)
    requires Indexed(r) && index < |r.addrs| && bi.index == index
    ensures var s := SetInfo(r, index, bi);
      && Indexed(s) && s.addrs == r.addrs
      && InfoOf(s, index) == bi
      && (forall i: nat :: i < |r.addrs| && i != index ==> InfoOf(s, i) == InfoOf(r, i))
  {
  }

  lemma RegisterKeeps(r: Registry, addr: Address)
    requires Coherent(r)
    ensures var s := Register(r, addr).0; Coherent(s) && RolesStay(r, s)
  {
    hide TokensListed;
    var s := Register(r, addr).0;
    if addr !in r.info {
      forall i: nat | i < |s.addrs|
        ensures s.addrs[i] in s.info && s.info[s.addrs[i]].index == i
      {
        if i < |r.addrs| {
          assert s.addrs[i] == r.addrs[i];
        }
      }
      assert forall i: nat :: i < |r.addrs| ==> InfoOf(s, i) == InfoOf(r, i);
      SameTokens(r, s);
    }
  }

  lemma SameTokens(r: Registry, s: Registry)
    requires TokensListed(r) && s.tokens == r.tokens && s.tIndex == r.tIndex
    ensures TokensListed(s)
  {
  }

  lemma RegisterTokenKeeps(r: Registry, taddr: Address)
    requires Coherent(r)
    ensures var (s, err) := RegisterToken(r, taddr);
      && Coherent(s) && RolesStay(r, s)
      && (err == NoError ==> taddr !in r.tokens && s.tokens == r.tokens + [taddr])
  {
    var s := RegisterToken(r, taddr).0;
    if taddr !in r.tIndex {
      assert forall i: nat :: i < |r.addrs| ==> InfoOf(s, i) == InfoOf(r, i);
    }
  }

  // An account that is not active takes a role.
  lemma TakeRoleKeeps(r: Registry, index: nat, role: Role, gIndex: nat)
    requires Coherent(r) && index < |r.addrs| && InfoOf(r, index).role == Account
    ensures var s := SetInfo(r, index, InfoOf(r, index).(role := role, gIndex := gIndex));
      Coherent(s) && RolesStay(r, s)
  {
    hide TokensListed;
    var s := SetInfo(r, index, InfoOf(r, index).(role := role, gIndex := gIndex));
    SetInfoIndexed(r, index, InfoOf(r, index).(role := role, gIndex := gIndex));
    assert !InfoOf(r, index).isActive;
    SameTokens(r, s);
    assert forall g: nat, q: Role, i: nat :: Member(s, g, q, i) <==> Member(r, g, q, i);
  }

  lemma RegisterRoleKeeps(r: Registry, index: nat, pledged: Pledged, need: int, role: Role)
    requires Coherent(r)
    ensures var s := RegisterRole(r, index, pledged, need, role).0; Coherent(s) && RolesStay(r, s)
  {
    hide Grouped, TokensListed;
    if InfoError(r, index) == NoError && InfoOf(r, index).role == Account {
      TakeRoleKeeps(r, index, role, InfoOf(r, index).gIndex);
    }
  }

  lemma RegisterUserKeeps(r: Registry, index: nat, g: nat)
    requires Coherent(r)
    ensures var s := RegisterUser(r, index, g).0; Coherent(s) && RolesStay(r, s)
  {
    hide Grouped, TokensListed;
    if UserError(r, index, g) == NoError {
      TakeRoleKeeps(r, index, User, g);
    }
  }

  lemma CreateGroupKeeps(r: Registry, caller: Address, level: nat)
    requires Coherent(r)
    ensures var s := CreateGroup(r, caller, level).0; Coherent(s) && RolesStay(r, s)
  {
    hide TokensListed;
    var (s, err) := CreateGroup(r, caller, level);
    if err == NoError {
      SameTokens(r, s);
      assert forall i: nat :: i < |r.addrs| ==> InfoOf(s, i) == InfoOf(r, i);
      assert forall g: nat, q: Role, i: nat :: Member(s, g, q, i) <==> Member(r, g, q, i);
      var n := |r.groups|;
      forall q: Role, i: nat
        ensures i !in Members(s.groups[n], q) && !Member(r, n, q, i)
      {
      }
      assert forall g: nat :: g < n ==> s.groups[g] == r.groups[g];
    }
  }

  // Group totals and flags may change freely.
  lemma SameMembersKeeps(r: Registry, g: nat, gi: GroupInfo)
    requires Coherent(r) && g < |r.groups|
    requires gi.keepers == r.groups[g].keepers && gi.providers == r.groups[g].providers
    requires gi.level == r.groups[g].level && gi.isActive == r.groups[g].isActive
    ensures var s := r.(groups := r.groups[g := gi]); Coherent(s) && RolesStay(r, s)
  {
    hide TokensListed;
    var s := r.(groups := r.groups[g := gi]);
    SameTokens(r, s);
    assert forall i: nat :: i < |r.addrs| ==> InfoOf(s, i) == InfoOf(r, i);
    assert forall h: nat, q: Role, i: nat :: Member(s, h, q, i) <==> Member(r, h, q, i);
    assert forall h: nat, q: Role :: h < |r.groups| ==> Members(s.groups[h], q) == Members(r.groups[h], q);
    assert forall h: nat :: h < |r.groups| ==>
      s.groups[h].keepers == r.groups[h].keepers && s.groups[h].providers == r.groups[h].providers
      && s.groups[h].isActive == r.groups[h].isActive && s.groups[h].level == r.groups[h].level;
  }

  // A keeper or provider that is in no group joins one.
  lemma JoinKeeps(r: Registry, index: nat, g: nat, gi: GroupInfo, role: Role)
    requires Coherent(r) && g < |r.groups| && index < |r.addrs|
    requires InfoOf(r, index).role == role && !InfoOf(r, index).isActive && (role == Keeper || role == Provider)
    requires gi.keepers == r.groups[g].keepers + if role == Keeper then [index] else []
    requires gi.providers == r.groups[g].providers + if role == Provider then [index] else []
    requires gi.level == r.groups[g].level && (gi.isActive ==> gi.level <= |gi.keepers|)
    ensures var s := SetInfo(r.(groups := r.groups[g := gi]), index, InfoOf(r, index).(gIndex := g, isActive := true));
      Coherent(s) && RolesStay(r, s)
  {
    hide TokensListed;
    var bi := InfoOf(r, index).(gIndex := g, isActive := true);
    var s := SetInfo(r.(groups := r.groups[g := gi]), index, bi);
    SetInfoIndexed(r.(groups := r.groups[g := gi]), index, bi);
    SameTokens(r, s);
    forall h: nat, q: Role, i: nat
      ensures Member(s, h, q, i) <==> Member(r, h, q, i) || (h == g && q == role && i == index)
    {
    }
    forall h: nat, q: Role, i: nat | h < |r.groups|
      ensures i in Members(s.groups[h], q) <==> i in Members(r.groups[h], q) || (h == g && q == role && i == index)
    {
    }
    NotMember(r, g, role, index);
    AppendDistinct(r.groups[g].keepers, index);
    AppendDistinct(r.groups[g].providers, index);
    if role == Keeper {
      assert gi.providers == r.groups[g].providers;
    } else {
      assert gi.keepers == r.groups[g].keepers;
    }
    assert forall h: nat :: h < |r.groups| && h != g ==> s.groups[h] == r.groups[h];
    assert s.groups[g] == gi;
    forall i: nat | i < |s.addrs| && InfoOf(s, i).isActive
      ensures InfoOf(s, i).gIndex < |s.groups| && (InfoOf(s, i).role == Keeper || InfoOf(s, i).role == Provider)
    {
      if i != index {
        assert InfoOf(s, i) == InfoOf(r, i);
      }
    }
  }

  lemma NotMember(r: Registry, g: nat, role: Role, index: nat)
    requires Coherent(r) && g < |r.groups| && index < |r.addrs| && !InfoOf(r, index).isActive
    ensures index !in r.groups[g].keepers && index !in r.groups[g].providers
  {
    assert index !in Members(r.groups[g], Keeper);
    assert index !in Members(r.groups[g], Provider);
  }

  lemma AppendDistinct<T(!new)>(xs: seq<T>, x: T)
    requires Distinct(xs) && x !in xs
    ensures Distinct(xs + [x])
  {
  }

  lemma AddKeeperToGroupKeeps(r: Registry, index: nat, g: nat)
    requires Coherent(r)
    ensures var (s, err) := AddKeeperToGroup(r, index, g);
      && Coherent(s) && RolesStay(r, s)
      && (err == NoError ==> g < |r.groups| && index !in r.groups[g].keepers)
  {
    hide Grouped, TokensListed;
    if KeeperError(r, index, g) == NoError {
      var gi := r.groups[g];
      var keepers := gi.keepers + [index];
      if gi.isActive {
        ActiveHasKeepers(r, g);
      }
      NotMember(r, g, Keeper, index);
      JoinKeeps(r, index, g, gi.(keepers := keepers, isActive := gi.isActive || gi.level <= |keepers|), Keeper);
    }
  }

  lemma ActiveHasKeepers(r: Registry, g: nat)
    requires Coherent(r) && g < |r.groups| && r.groups[g].isActive
    ensures r.groups[g].level <= |r.groups[g].keepers|
  {
  }

  lemma AddProviderToGroupKeeps(r: Registry, index: nat, g: nat)
    requires Coherent(r)
    ensures var s := AddProviderToGroup(r, index, g).0; Coherent(s) && RolesStay(r, s)
  {
    hide Grouped, TokensListed;
    if ProviderError(r, index, g) == NoError {
      var gi := r.groups[g];
      if gi.isActive {
        ActiveHasKeepers(r, g);
      }
      JoinKeeps(r, index, g, gi.(providers := gi.providers + [index]), Provider);
    }
  }
}
