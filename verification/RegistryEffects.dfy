// What each registration does to every index and every group, and why it is refused.
module RegistryEffects {
  import opened Types
  import opened Registry

  // Why an index, or a group, cannot take part.
  function IndexError(r: Registry, index: nat): Error
    requires Indexed(r)
  {
    if |r.addrs| <= index then ErrInput else if r.info[r.addrs[index]].isBanned then ErrPermission else NoError
  }

  function OpenError(r: Registry, g: nat): Error {
    if |r.groups| <= g then ErrInput
    else if r.groups[g].isBanned || !r.groups[g].isActive then ErrPermission
    else NoError
  }

  // Only index is described anew, as bi; addresses, groups, tokens and thresholds are the same.
  ghost predicate Redescribed(r: Registry, q: Registry, index: nat, bi: BaseInfo)
    requires Indexed(r)
  {
    && Indexed(q) && q == r.(info := q.info)
    && (forall i: nat :: i < |r.addrs| ==> InfoOf(q, i) == if i == index then bi else InfoOf(r, i))
  }

  lemma InfoSet(r: Registry, index: nat, bi: BaseInfo)
    requires Indexed(r) && index < |r.addrs| && bi.index == index
    ensures Redescribed(r, SetInfo(r, index, bi), index, bi)
  {
    var q := SetInfo(r, index, bi);
    forall i: nat | i < |r.addrs|
      ensures InfoOf(q, i) == if i == index then bi else InfoOf(r, i)
    {
      assert r.info[r.addrs[i]].index == i;
    }
  }

  lemma IndexErrorIs(r: Registry, index: nat)
    requires Indexed(r)
    ensures InfoError(r, index) == IndexError(r, index)
    ensures index < |r.addrs| ==> r.addrs[index] in r.info && InfoOf(r, index).index == index
  {
  }

  // A new address gets the next index, as an account that is neither active nor banned; a known
  // one is refused. All others keep what they are.
  lemma RegisterEffect(r: Registry, addr: Address)
    requires Indexed(r)
    ensures var (q, err) := Register(r, addr);
      && err == (if addr in r.addrs then ErrExist else NoError)
      && (err != NoError ==> q == r)
      && (err == NoError ==>
            && Indexed(q) && q.addrs == r.addrs + [addr] && q == r.(addrs := q.addrs, info := q.info)
            && InfoOf(q, |r.addrs|) == BaseInfo(false, false, Account, |r.addrs|, 0)
            && (forall i: nat :: i < |r.addrs| ==> InfoOf(q, i) == InfoOf(r, i)))
  {
    KnownAddress(r, addr);
  }

  lemma KnownAddress(r: Registry, addr: Address)
    requires Indexed(r)
    ensures addr in r.info <==> addr in r.addrs
  {
    if addr in r.info {
      assert r.addrs[r.info[addr].index] == addr;
    }
  }

  // An account takes exactly the role it asks for when what it has pledged reaches the need.
  lemma RegisterRoleEffect(r: Registry, index: nat, pledged: Pledged, need: int, role: Role)
    requires Indexed(r)
    ensures var (q, err) := RegisterRole(r, index, pledged, need, role);
      && err == (if IndexError(r, index) != NoError then IndexError(r, index)
                 else if InfoOf(r, index).role != Account then ErrRoleType
                 else if pledged.NothingPledged? || pledged.amount < need then ErrBalanceNotEnough
                 else NoError)
      && (err != NoError ==> q == r)
      && (err == NoError ==> index < |r.addrs| && Redescribed(r, q, index, InfoOf(r, index).(role := role)))
  {
    hide Redescribed;
    IndexErrorIs(r, index);
    if index < |r.addrs| {
      InfoSet(r, index, InfoOf(r, index).(role := role));
    }
  }

  // An account becomes a user of an open group, which is from then on the group that serves it.
  lemma RegisterUserEffect(r: Registry, index: nat, g: nat)
    requires Indexed(r)
    ensures UserError(r, index, g)
            == (if IndexError(r, index) != NoError then IndexError(r, index)
                else if InfoOf(r, index).role != Account then ErrRoleType
                else OpenError(r, g))
    ensures var (q, err) := RegisterUser(r, index, g);
      && err == UserError(r, index, g)
      && (err != NoError ==> q == r)
      && (err == NoError ==>
            && index < |r.addrs|
            && Redescribed(r, q, index, InfoOf(r, index).(role := User, gIndex := g)))
  {
    hide Redescribed;
    IndexErrorIs(r, index);
    if index < |r.addrs| {
      InfoSet(r, index, InfoOf(r, index).(role := User, gIndex := g));
    }
  }

  // Only group g changes, to gi.
  predicate OtherGroupsStay(r: Registry, q: Registry, g: nat, gi: GroupInfo) {
    g < |r.groups| && q.groups == r.groups[g := gi]
  }

  // The totals of group g move by size and price, and nothing else does.
  lemma AddToGroupEffect(r: Registry, g: nat, size: int, price: int)
    requires g < |r.groups|
    ensures var q := AddToGroup(r, g, size, price);
      && OtherGroupsStay(r, q, g, q.groups[g]) && q == r.(groups := q.groups)
      && q.groups[g].size == r.groups[g].size + size && q.groups[g].price == r.groups[g].price + price
      && q.groups[g] == r.groups[g].(size := q.groups[g].size, price := q.groups[g].price)
  {
  }

  // The administrator alone opens a group, without members.
  lemma CreateGroupEffect(r: Registry, caller: Address, level: nat)
    ensures var (q, err) := CreateGroup(r, caller, level);
      && err == (if caller == r.admin then NoError else ErrPermission)
      && q == (if err == NoError then r.(groups := r.groups + [GroupInfo(false, false, false, level, [], [], 0, 0)])
               else r)
  {
  }

  // A group gets ready once, before it is active, with as many signatures as its level asks for.
  lemma SetReadyEffect(r: Registry, g: nat, signatures: nat)
    ensures var (q, err) := SetReady(r, g, signatures);
      && err == (if |r.groups| <= g then ErrInput
                 else if r.groups[g].isBanned || r.groups[g].isActive || signatures < r.groups[g].level
                 then ErrPermission
                 else NoError)
      && (err != NoError ==> q == r)
      && (err == NoError ==>
            OtherGroupsStay(r, q, g, r.groups[g].(isReady := true)) && q == r.(groups := q.groups))
  {
  }

  // A keeper, or a provider, that is in no group yet joins one that is not banned, as the last of
  // its list, and is active from then on. Enough keepers make the group active.
  lemma AddKeeperEffect(r: Registry, index: nat, g: nat)
    requires Indexed(r)
    ensures KeeperError(r, index, g)
            == (if |r.groups| <= g then ErrInput
                else if r.groups[g].isBanned then ErrPermission
                else if IndexError(r, index) != NoError then IndexError(r, index)
                else if InfoOf(r, index).role != Keeper then ErrRoleType
                else if InfoOf(r, index).isActive then ErrPermission else NoError)
    ensures var (q, err) := AddKeeperToGroup(r, index, g);
      && err == KeeperError(r, index, g)
      && (err != NoError ==> q == r)
      && (err == NoError ==>
            && index < |r.addrs| && g < |r.groups|
            && OtherGroupsStay(r, q, g, r.groups[g].(
                 keepers := r.groups[g].keepers + [index],
                 isActive := r.groups[g].isActive || r.groups[g].level <= |r.groups[g].keepers| + 1))
            && Redescribed(r, q.(groups := r.groups), index, InfoOf(r, index).(gIndex := g, isActive := true)))
  {
    hide Redescribed;
    IndexErrorIs(r, index);
    if index < |r.addrs| {
      InfoSet(r, index, InfoOf(r, index).(gIndex := g, isActive := true));
    }
  }

  lemma AddProviderEffect(r: Registry, index: nat, g: nat)
    requires Indexed(r)
    ensures var (q, err) := AddProviderToGroup(r, index, g);
      && err == (if |r.groups| <= g then ErrInput
                 else if r.groups[g].isBanned then ErrPermission
                 else if IndexError(r, index) != NoError then IndexError(r, index)
                 else if InfoOf(r, index).isActive then ErrPermission
                 else if InfoOf(r, index).role != Provider then ErrRoleType else NoError)
      && (err != NoError ==> q == r)
      && (err == NoError ==>
            && index < |r.addrs| && g < |r.groups|
            && OtherGroupsStay(r, q, g, r.groups[g].(providers := r.groups[g].providers + [index]))
            && Redescribed(r, q.(groups := r.groups), index, InfoOf(r, index).(gIndex := g, isActive := true)))
  {
    hide Redescribed;
    IndexErrorIs(r, index);
    if index < |r.addrs| {
      InfoSet(r, index, InfoOf(r, index).(gIndex := g, isActive := true));
    }
  }
}
