// Records of storage management: provider settlements aggregate the users' records, and the
// keepers' counters add up, so that a distribution pays the pot out in full shares.
module FsRecords {
  import opened Types
  import opened Sums
  import opened Fs
  import S = Settlements

  predicate HasOrders(fs: map<nat, FsInfo>, u: nat, k: MultiKey) {
    u in fs && k.role in fs[u].ao && k.token in fs[u].ao[k.role].sInfo
  }

  // Price recorded by each user for the provider and token k.
  ghost function PriceIn(fs: map<nat, FsInfo>, k: MultiKey): nat -> int {
    (u: nat) => if HasOrders(fs, u, k) then fs[u].ao[k.role].sInfo[k.token].price else 0
  }

  ghost function UserPrices(fs: map<nat, FsInfo>, k: MultiKey): int {
    Sum(fs.Keys, PriceIn(fs, k))
  }

  // Settlements and users' records agree.
  ghost predicate Agree(f: Fs) {
    && (forall u: nat, k: MultiKey :: HasOrders(f.fs, u, k) ==>
          k in f.proInfo && f.fs[u].ao[k.role].sInfo[k.token].time == 0)
    && (forall k: MultiKey :: SettlementOf(f, k).price == UserPrices(f.fs, k))
    && (forall k: MultiKey :: k in f.proInfo ==> k.token in f.tAcc)
  }

  ghost function CountIn(count: map<nat, nat>): nat -> int {
    (k: nat) => if k in count then count[k] else 0
  }

  // The counters cover exactly the keepers, each once, and add up to totalCount; the token
  // list is the list of pots.
  ghost predicate Counted(f: Fs) {
    && Distinct(f.keepers)
    && (forall k :: k in f.count <==> k in f.keepers)
    && f.totalCount == Sum(f.count.Keys, CountIn(f.count))
    && Distinct(f.tokens)
    && (forall t :: t in f.tAcc <==> t in f.tokens)
  }

  ghost predicate Inv(f: Fs) {
    Agree(f) && Counted(f)
  }

  // ---------- Aggregate ----------

  // Replacing the record of user and pro moves only the sums for that provider.
  lemma PricesAfter(f: Fs, user: nat, pro: nat, a: AggOrder, k: MultiKey)
    requires user in f.fs
    ensures var fs' := SetOrders(f, user, pro, a).fs;
      && fs'.Keys == f.fs.Keys
      && UserPrices(fs', k) == UserPrices(f.fs, k)
         + if k.role == pro
           then (if k.token in a.sInfo then a.sInfo[k.token].price else 0) - PriceIn(f.fs, k)(user)
           else 0
  {
    var fs' := SetOrders(f, user, pro, a).fs;
    assert fs'.Keys == f.fs.Keys;
    SumChange(f.fs.Keys, PriceIn(f.fs, k), PriceIn(fs', k), user);
  }

  // Nobody's recorded prices change.
  lemma SameRecords(f: Fs, g: Fs)
    requires Agree(f) && g.proInfo == f.proInfo && g.fs.Keys == f.fs.Keys && f.tAcc.Keys <= g.tAcc.Keys
    requires forall u: nat, k: MultiKey :: HasOrders(g.fs, u, k) <==> HasOrders(f.fs, u, k)
    requires forall u: nat, k: MultiKey :: HasOrders(g.fs, u, k) ==>
      g.fs[u].ao[k.role].sInfo[k.token] == f.fs[u].ao[k.role].sInfo[k.token]
    ensures Agree(g)
  {
    forall k: MultiKey
      ensures UserPrices(g.fs, k) == UserPrices(f.fs, k)
    {
      SumAgree(f.fs.Keys, PriceIn(f.fs, k), PriceIn(g.fs, k));
    }
    assert forall k :: SettlementOf(g, k) == SettlementOf(f, k);
  }

  lemma OpenOrdersAgrees(f: Fs, user: nat, pro: nat)
    requires Inv(f) && user in f.fs
    ensures Inv(OpenOrders(f, user, pro))
  {
    hide Counted, UserPrices, SettlementOf;
    var g := OpenOrders(f, user, pro);
    assert g.fs.Keys == f.fs.Keys;
    SameRecords(f, g);
    CountedUnchanged(f, g);
  }

  lemma CountedUnchanged(f: Fs, g: Fs)
    requires Counted(f) && g.keepers == f.keepers && g.count == f.count && g.totalCount == f.totalCount
    requires g.tokens == f.tokens && g.tAcc.Keys == f.tAcc.Keys
    ensures Counted(g)
  {
  }

  lemma EnsureTokenKeeps(f: Fs, t: nat)
    requires Inv(f)
    ensures Inv(EnsureToken(f, t)) && t in EnsureToken(f, t).tAcc
  {
    hide UserPrices, CountIn;
  }

  lemma TouchKeeps(f: Fs, kindex: nat)
    requires Counted(f)
    ensures Counted(Touch(f, kindex))
    ensures Agree(f) ==> Agree(Touch(f, kindex))
  {
    var g := Touch(f, kindex);
    if kindex in f.count {
      assert g.count.Keys == f.count.Keys;
      SumChange(f.count.Keys, CountIn(f.count), CountIn(g.count), kindex);
    }
    assert forall k :: SettlementOf(g, k) == SettlementOf(f, k);
  }

  // Records after an order was booked or closed: user's price with pro in t moves by d, and
  // so does the settlement's.
  lemma MovePrice(f: Fs, g: Fs, user: nat, pro: nat, t: nat, a: AggOrder, d: int)
    requires Agree(f) && user in f.fs
    requires g.fs == SetOrders(f, user, pro, a).fs
    requires RecordMoves(f, user, pro, a, t, d)
    requires pro in f.fs[user].ao && f.fs[user].ao[pro].sInfo.Keys <= a.sInfo.Keys
    requires g.proInfo.Keys == f.proInfo.Keys + {MultiKey(pro, t)}
    requires forall k :: SettlementOf(g, k).price == SettlementOf(f, k).price + if k == MultiKey(pro, t) then d else 0
    requires f.tAcc.Keys <= g.tAcc.Keys && t in g.tAcc
    ensures Agree(g)
  {
    hide UserPrices, SettlementOf;
    forall k: MultiKey
      ensures SettlementOf(g, k).price == UserPrices(g.fs, k)
    {
      PricesAfter(f, user, pro, a, k);
      if k.role == pro && k.token != t {
        assert k == MultiKey(pro, k.token);
      }
    }
    forall u: nat, k: MultiKey | HasOrders(g.fs, u, k)
      ensures k in g.proInfo && g.fs[u].ao[k.role].sInfo[k.token].time == 0
    {
      assert k == MultiKey(k.role, k.token);
      if u != user || k.role != pro || k.token != t {
        assert HasOrders(f.fs, u, k);
      }
    }
  }

  // The record and the settlement with one more order, before anybody is credited.
  function Settled(f: Fs, user: nat, pro: nat, start: u64, size: u64, t: nat, sprice: int, pay: int, manage: int): Fs
    requires user in f.fs && pro in f.fs[user].ao
  {
    var f1 := SetOrders(f, user, pro, Booked(f.fs[user].ao[pro], size, t, sprice));
    var k := MultiKey(pro, t);
    f1.(proInfo := f1.proInfo[k := S.Add(SettlementOf(f1, k), start, size, sprice, pay, manage)])
  }

  lemma SettledAgrees(f: Fs, user: nat, pro: nat, start: u64, size: u64, t: nat, sprice: int, pay: int, manage: int)
    requires Inv(f) && user in f.fs && pro in f.fs[user].ao && t in f.tAcc
    ensures Inv(Settled(f, user, pro, start, size, t, sprice, pay, manage))
  {
    hide UserPrices, Counted, Agree, S.Add, SetOrders, Booked;
    var a := Booked(f.fs[user].ao[pro], size, t, sprice);
    SetOrdersRest(f, user, pro, a);
    AddPrice(SettlementOf(f, MultiKey(pro, t)), start, size, sprice, pay, manage);
    BookedRecord(f, user, pro, size, t, sprice);
    var se := S.Add(SettlementOf(f, MultiKey(pro, t)), start, size, sprice, pay, manage);
    BookRecordAgrees(f, Settled(f, user, pro, start, size, t, sprice, pay, manage), user, pro, a, t, se, sprice);
  }

  lemma CreditedKeeps(f: Fs, k: MultiKey, v: int, k2: MultiKey, v2: int, kindex: nat)
    requires Inv(f)
    ensures Inv(Touch(Credit(Credit(f, k, v), k2, v2), kindex))
  {
    hide Agree, Counted, Credit, Touch;
    CreditKeeps(f, k, v);
    CreditKeeps(Credit(f, k, v), k2, v2);
    TouchKeeps(Credit(Credit(f, k, v), k2, v2), kindex);
  }

  lemma BookOrderAgrees(f: Fs, kindex: nat, user: nat, pro: nat, start: u64, end: u64, size: u64, t: nat, sprice: int)
    requires Inv(f) && user in f.fs && pro in f.fs[user].ao && t in f.tAcc
    ensures Inv(BookOrder(f, kindex, user, pro, start, end, size, t, sprice))
  {
    hide Inv, Credit, Touch, S.Add, SetOrders, Booked, SettlementOf, PayOf;
    var pay := PayOf(start, end, sprice);
    var manage, tax := pay / 100 * MANAGE_RATE, pay / 100 * TAX_RATE;
    SettledAgrees(f, user, pro, start, size, t, sprice, pay, manage);
    var f2 := Settled(f, user, pro, start, size, t, sprice, pay, manage);
    CreditedKeeps(f2, MultiKey(f.foundation, t), tax, MultiKey(user, t), -(pay + manage + tax), kindex);
  }

  lemma AddPrice(s: S.Settlement, start: u64, size: u64, sprice: int, pay: int, manage: int)
    ensures S.Add(s, start, size, sprice, pay, manage).price == s.price + sprice
  {
  }

  lemma SetOrdersRest(f: Fs, user: nat, pro: nat, a: AggOrder)
    requires user in f.fs
    ensures var g := SetOrders(f, user, pro, a);
      && g.proInfo == f.proInfo && g.tAcc == f.tAcc && g.foundation == f.foundation
      && g.keepers == f.keepers && g.count == f.count && g.totalCount == f.totalCount && g.tokens == f.tokens
  {
  }

  // a is the record of user and pro with the price for t moved by d.
  ghost predicate RecordMoves(f: Fs, user: nat, pro: nat, a: AggOrder, t: nat, d: int) {
    && t in a.sInfo && a.sInfo[t].time == 0
    && a.sInfo[t].price == PriceIn(f.fs, MultiKey(pro, t))(user) + d
    && (forall i :: i in a.sInfo && i != t ==>
          HasOrders(f.fs, user, MultiKey(pro, i)) && a.sInfo[i] == f.fs[user].ao[pro].sInfo[i])
  }

  lemma BookedRecord(f: Fs, user: nat, pro: nat, size: u64, t: nat, sprice: int)
    requires Agree(f) && user in f.fs && pro in f.fs[user].ao
    ensures RecordMoves(f, user, pro, Booked(f.fs[user].ao[pro], size, t, sprice), t, sprice)
    ensures f.fs[user].ao[pro].sInfo.Keys <= Booked(f.fs[user].ao[pro], size, t, sprice).sInfo.Keys
  {
    hide UserPrices;
    assert t in f.fs[user].ao[pro].sInfo ==> HasOrders(f.fs, user, MultiKey(pro, t));
  }

  lemma ClosedRecord(f: Fs, user: nat, pro: nat, size: u64, t: nat, sprice: int, n: nat)
    requires Agree(f) && user in f.fs && pro in f.fs[user].ao && t in f.fs[user].ao[pro].sInfo
    ensures var a := Closed(f.fs[user].ao[pro], size, t, sprice);
      && RecordMoves(f, user, pro, a.(subNonce := n), t, -sprice)
      && f.fs[user].ao[pro].sInfo.Keys <= a.sInfo.Keys
  {
    hide UserPrices;
    assert HasOrders(f.fs, user, MultiKey(pro, t));
  }

  lemma BookRecordAgrees(f: Fs, g: Fs, user: nat, pro: nat, a: AggOrder, t: nat, se: S.Settlement, d: int)
    requires Inv(f) && user in f.fs && pro in f.fs[user].ao && t in f.tAcc
    requires RecordMoves(f, user, pro, a, t, d) && f.fs[user].ao[pro].sInfo.Keys <= a.sInfo.Keys
    requires g.fs == SetOrders(f, user, pro, a).fs && g.proInfo == f.proInfo[MultiKey(pro, t) := se]
    requires se.price == SettlementOf(f, MultiKey(pro, t)).price + d
    requires g.tAcc.Keys == f.tAcc.Keys && g.tokens == f.tokens
    requires g.keepers == f.keepers && g.count == f.count && g.totalCount == f.totalCount
    ensures Inv(g)
  {
    hide UserPrices, Counted, SetOrders, PriceIn, HasOrders;
    assert g.proInfo.Keys == f.proInfo.Keys + {MultiKey(pro, t)};
    MovePrice(f, g, user, pro, t, a, d);
    CountedUnchanged(f, g);
  }

  lemma CreditKeeps(f: Fs, k: MultiKey, v: int)
    ensures Agree(f) ==> Agree(Credit(f, k, v))
    ensures Counted(f) ==> Counted(Credit(f, k, v))
    ensures var g := Credit(f, k, v); g.foundation == f.foundation && g.count == f.count
  {
    assert forall j :: SettlementOf(Credit(f, k, v), j) == SettlementOf(f, j);
  }

  lemma AddOrderKeepsInv(f: Fs, caller: Address, kindex: nat, user: nat, pro: nat, start: u64, end: u64, size: u64,
                         nonce: nat, t: nat, sprice: int)
    requires Inv(f)
    ensures Inv(AddOrder(f, caller, kindex, user, pro, start, end, size, nonce, t, sprice).0)
  {
    hide Inv, BookOrder, OpenOrders;
    EnsureTokenKeeps(f, t);
    var f1 := EnsureToken(f, t);
    if FsError(f1, user) == NoError {
      OpenOrdersAgrees(f1, user, pro);
      var f2 := OpenOrders(f1, user, pro);
      OpenOrdersShape(f1, user, pro);
      BookOrderAgrees(f2, kindex, user, pro, start, end, size, t, sprice);
    }
  }

  lemma OpenOrdersShape(f: Fs, user: nat, pro: nat)
    requires user in f.fs
    ensures var g := OpenOrders(f, user, pro); user in g.fs && pro in g.fs[user].ao && g.tAcc == f.tAcc
  {
  }

  lemma FoundSettlement(f: Fs, user: nat, k: MultiKey)
    requires Agree(f) && HasOrders(f.fs, user, k)
    ensures k in f.proInfo && k.token in f.tAcc
  {
    hide UserPrices;
  }

  lemma SubPrice(s: S.Settlement, end: u64, size: u64, sprice: int)
    ensures S.Sub(s, end, size, sprice).price == s.price - sprice
  {
  }

  // An order that can be found can be closed: SubOrder never stops between the user's record
  // and the settlement.
  lemma CloseOrderCompletes(f: Fs, kindex: nat, user: nat, pro: nat, start: u64, end: u64, size: u64, t: nat,
                            sprice: int)
    requires Inv(f) && user in f.fs && pro in f.fs[user].ao && t in f.fs[user].ao[pro].sInfo
    ensures var (g, err) := CloseOrder(f, kindex, user, pro, start, end, size, t, sprice);
      err == NoError && Inv(g)
  {
    hide UserPrices, Counted, Agree, SetOrders, Closed, Touch, S.Sub, S.EndFee;
    var left := Closed(f.fs[user].ao[pro], size, t, sprice);
    var k := MultiKey(pro, t);
    FoundSettlement(f, user, k);
    var fee := S.EndFee(start, end, sprice);
    var se := S.Sub(f.proInfo[k], end, size, sprice);
    SubPrice(f.proInfo[k], end, size, sprice);
    var done := left.(subNonce := left.subNonce + 1);
    var f1 := SetOrders(f, user, pro, done);
    SetOrdersRest(f, user, pro, done);
    var f2 := f1.(proInfo := f1.proInfo[k := se.(endPaid := se.endPaid + fee)],
                  tAcc := f1.tAcc[t := Get(f1.tAcc, t) + fee]);
    ClosedRecord(f, user, pro, size, t, sprice, left.subNonce + 1);
    assert f2.tAcc.Keys == f.tAcc.Keys;
    BookRecordAgrees(f, f2, user, pro, done, t, se.(endPaid := se.endPaid + fee), -sprice);
    TouchKeeps(f2, kindex);
  }

  lemma SubOrderKeepsInv(f: Fs, caller: Address, now: u64, kindex: nat, user: nat, pro: nat, start: u64, end: u64,
                         size: u64, nonce: nat, t: nat, sprice: int)
    requires Inv(f)
    ensures Inv(SubOrder(f, caller, now, kindex, user, pro, start, end, size, nonce, t, sprice).0)
  {
    hide Inv, CloseOrder;
    if FsError(f, user) == NoError && pro in f.fs[user].ao && t in f.fs[user].ao[pro].sInfo {
      CloseOrderCompletes(f, kindex, user, pro, start, end, size, t, sprice);
    }
  }

  // ---------- Registration ----------

  lemma AddKeeperKeepsInv(f: Fs, caller: Address, kindex: nat)
    requires Inv(f) && kindex !in f.keepers
    ensures Inv(AddKeeper(f, caller, kindex).0)
  {
    hide UserPrices;
    var (g, err) := AddKeeper(f, caller, kindex);
    if err == NoError {
      assert g.count.Keys == f.count.Keys + {kindex};
      SumPut(f.count.Keys, CountIn(f.count), CountIn(g.count), kindex);
      assert forall k :: SettlementOf(g, k) == SettlementOf(f, k);
    }
  }

  lemma CreateFsKeepsInv(f: Fs, caller: Address, user: nat)
    requires Inv(f)
    ensures Inv(CreateFs(f, caller, user).0)
  {
    hide Agree, Counted, EnsureToken;
    var (r, err) := CreateFs(f, caller, user);
    if err == NoError {
      var g := if user in f.fs then f.(fs := f.fs[user := f.fs[user].(isActive := true)])
               else f.(fs := f.fs[user := FsInfo(true, [], map[])], users := f.users + [user]);
      UserAgrees(f, g, user);
      CountedUnchanged(f, g);
      EnsureTokenKeeps(g, 0);
    }
  }

  // A new or reactivated user without new orders.
  lemma UserAgrees(f: Fs, g: Fs, user: nat)
    requires Agree(f) && g.proInfo == f.proInfo && g.tAcc == f.tAcc
    requires g.fs == f.fs[user := if user in f.fs then f.fs[user].(isActive := true) else FsInfo(true, [], map[])]
    ensures Agree(g)
  {
    hide UserPrices;
    forall k: MultiKey
      ensures UserPrices(g.fs, k) == UserPrices(f.fs, k)
    {
      CreatePrices(f.fs, g.fs, user, k);
    }
    assert forall u: nat, k: MultiKey :: HasOrders(g.fs, u, k) ==> HasOrders(f.fs, u, k);
    assert forall k :: SettlementOf(g, k) == SettlementOf(f, k);
  }

  lemma CreatePrices(fs: map<nat, FsInfo>, fs': map<nat, FsInfo>, user: nat, k: MultiKey)
    requires fs' == fs[user := if user in fs then fs[user].(isActive := true) else FsInfo(true, [], map[])]
    ensures UserPrices(fs', k) == UserPrices(fs, k)
  {
    assert fs'.Keys == fs.Keys + {user};
    SumPut(fs.Keys, PriceIn(fs, k), PriceIn(fs', k), user);
  }
}
