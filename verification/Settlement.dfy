// The provider settlement of server/contract/fs.go: price times time, integrated lazily.
module Settlements {
  import opened Types

  datatype Settlement = Settlement(
    time: u64,
    size: u64,
    price: int,
    maxPay: int,
    hasPaid: int,
    canPay: int,
    lost: int,
    lostPaid: int,
    managePay: int,
    endPaid: int,
    linearPaid: int)

  const EMPTY := Settlement(0, 0, 0, 0, 0, 0, 0, 0, 0, 0, 0)

  // An order of this price joins. The accrual uses the price of before, also when start
  // lies before the settlement time; the size doubles.
  function Add(s: Settlement, start: u64, size: u64, sprice: int, pay: int, manage: int): Settlement {
    var hp := if s.time < start then start - s.time else s.time - start;
    s.(time := Max(s.time, start),
       canPay := s.canPay + hp * s.price,
       price := s.price + sprice,
       size := Add64(s.size, s.size),
       maxPay := s.maxPay + pay,
       managePay := s.managePay + manage)
  }

  // An order leaves at its end. The accrual wraps around when end lies before the
  // settlement time.
  function Sub(s: Settlement, end: u64, size: u64, sprice: int): Settlement {
    s.(canPay := s.canPay + Sub64(end, s.time) * s.price,
       time := Max(s.time, end),
       price := s.price - sprice,
       size := Sub64(s.size, size))
  }

  // Accrue up to now.
  function Accrue(s: Settlement, now: u64): Settlement {
    if s.time < now then s.(canPay := s.canPay + (now - s.time) * s.price, time := now) else s
  }

  // The provider claims pay in total; the result is the part not paid before.
  function Calc(s: Settlement, now: u64, pay: int, lost: int): (Settlement, int, Error) {
    if pay < s.hasPaid then (s, 0, ErrRes)
    else if lost < s.lost then (s, 0, ErrRes)
    else
      var s1 := Accrue(s.(lost := lost), now);
      if s1.canPay < pay then (s1, 0, ErrRes)
      else (s1.(hasPaid := pay), pay - s.hasPaid, NoError)
  }

  // Keeper fee released with payments to the provider: 4 per started 100.
  function Linear(s: Settlement): Settlement {
    s.(linearPaid := Max(s.linearPaid, s.hasPaid / 100 * 4))
  }

  // Keeper fee released at the end of an order.
  function EndFee(start: u64, end: u64, sprice: int): int {
    sprice * Sub64(end, start) / 100
  }

  class SettlementObject {
    var time: u64
    var size: u64
    var price: int
    var maxPay: int
    var hasPaid: int
    var canPay: int
    var lost: int
    var lostPaid: int
    var managePay: int
    var endPaid: int
    var linearPaid: int

    ghost function State(): Settlement
      reads this
    {
      Settlement(time, size, price, maxPay, hasPaid, canPay, lost, lostPaid, managePay, endPaid, linearPaid)
    }

    constructor ()
      ensures State() == EMPTY
    {
      time, size, price := 0, 0, 0;
      maxPay, hasPaid, canPay, lost, lostPaid := 0, 0, 0, 0, 0;
      managePay, endPaid, linearPaid := 0, 0, 0;
    }

    method AddOrder(start: u64, size: u64, sprice: int, pay: int, manage: int)
      modifies this
      ensures State() == Add(old(State()), start, size, sprice, pay, manage)
    {
      var hp := 0;
      if time < start {
        hp := start - time;
        time := start;
      } else if start < time {
        hp := time - start;
      }
      hp := hp * price;
      canPay := canPay + hp;
      price := price + sprice;
      this.size := Add64(this.size, this.size);
      maxPay := maxPay + pay;
      managePay := managePay + manage;
    }

    method SubOrder(end: u64, size: u64, sprice: int)
      modifies this
      ensures State() == Sub(old(State()), end, size, sprice)
    {
      var hp: int := Sub64(end, time);
      hp := hp * price;
      canPay := canPay + hp;
      if time < end {
        time := end;
      }
      price := price - sprice;
      this.size := Sub64(this.size, size);
    }

    method CalcPay(ntime: u64, pay: int, lost: int) returns (res: int, err: Error)
      modifies this
      ensures (State(), res, err) == Calc(old(State()), ntime, pay, lost)
    {
      res := 0;
      if pay < hasPaid {
        return res, ErrRes;
      }
      if lost < this.lost {
        return res, ErrRes;
      }
      this.lost := lost;
      if time < ntime {
        var hp: int := ntime - time;
        hp := hp * price;
        canPay := canPay + hp;
        time := ntime;
      }
      if canPay < pay {
        return res, ErrRes;
      }
      res := pay - hasPaid;
      hasPaid := pay;
      return res, NoError;
    }

    // The linear keeper fee of ProWithdraw; the result is what the keepers' pot receives.
    method ReleaseLinear() returns (lpay: int)
      modifies this
      ensures State() == Linear(old(State()))
      ensures lpay == State().linearPaid - old(State()).linearPaid
    {
      lpay := hasPaid / 100;
      lpay := lpay * 4;
      if linearPaid < lpay {
        lpay := lpay - linearPaid;
        linearPaid := linearPaid + lpay;
      } else {
        lpay := 0;
      }
    }
  }
}

// What the lazy integration amounts to on histories of orders.
module Earnings {
  import opened Types
  import opened Sums
  import opened Settlements

  datatype Order = Order(start: u64, end: u64, sprice: int, ended: bool)

  function Pay(o: Order): int {
    o.sprice * (o.end - o.start)
  }

  // What the order has earned by time t.
  ghost function Earned(t: int): Order -> int {
    (o: Order) => o.sprice * (Min(t, o.end) - o.start)
  }

  ghost function LivePrice(): Order -> int {
    (o: Order) => if o.ended then 0 else o.sprice
  }

  ghost function PayOf(): Order -> int {
    (o: Order) => Pay(o)
  }

  ghost function FloorOf(): Order -> int {
    (o: Order) => Pay(o) / 100
  }

  ghost function EndFloorOf(): Order -> int {
    (o: Order) => if o.ended then Pay(o) / 100 else 0
  }

  // The settlement s is the lazy summary of the orders h.
  ghost predicate Summary(s: Settlement, h: seq<Order>) {
    && (forall o :: o in h ==> 0 <= o.sprice && o.start < o.end)
    && (forall o :: o in h ==> if o.ended then o.end <= s.time else o.start <= s.time <= o.end)
    && s.price == SumSeq(h, LivePrice())
    && s.canPay == SumSeq(h, Earned(s.time))
    && s.maxPay == SumSeq(h, PayOf())
    && s.managePay == 4 * SumSeq(h, FloorOf())
    && s.endPaid == SumSeq(h, EndFloorOf())
    && 0 <= s.hasPaid <= s.canPay
    && s.linearPaid == s.hasPaid / 100 * 4
  }

  // ---------- Accrual ----------

  // Price accrued after the end of orders that are still live.
  ghost function Overrun(t: int): Order -> int {
    (o: Order) => if !o.ended && o.end < t then o.sprice * (t - o.end) else 0
  }

  lemma OrderAccrues(time: int, t: int, o: Order)
    requires time <= t
    requires if o.ended then o.end <= time else o.start <= time <= o.end
    ensures Earned(t)(o) == Earned(time)(o) + (t - time) * LivePrice()(o) + -1 * Overrun(t)(o)
  {
    if !o.ended {
      if o.end < t {
        assert o.sprice * (o.end - o.start) == o.sprice * (time - o.start) + o.sprice * (o.end - time);
        assert o.sprice * (o.end - time) == (t - time) * o.sprice - o.sprice * (t - o.end);
      } else {
        assert o.sprice * (t - o.start) == o.sprice * (time - o.start) + (t - time) * o.sprice;
      }
    }
  }

  // No live order that costs anything has its end before t.
  ghost predicate NotPassed(h: seq<Order>, t: int) {
    forall o :: o in h && !o.ended && o.end < t ==> o.sprice == 0
  }

  // Accruing the running price up to t is exact if and only if no live order's end is
  // passed; otherwise it credits too much.
  lemma AccrualExact(s: Settlement, h: seq<Order>, t: u64)
    requires Summary(s, h) && s.time <= t
    ensures s.canPay + (t - s.time) * s.price == SumSeq(h, Earned(t)) <==> NotPassed(h, t)
    ensures SumSeq(h, Earned(t)) <= s.canPay + (t - s.time) * s.price
  {
    hide SumSeq, Earned, LivePrice;
    forall o | o in h
      ensures Earned(t)(o) == Earned(s.time)(o) + (t - s.time) * LivePrice()(o) + -1 * Overrun(t)(o)
      ensures 0 <= Overrun(t)(o)
      ensures Overrun(t)(o) == 0 <==> (!o.ended && o.end < t ==> o.sprice == 0)
    {
      OrderAccrues(s.time, t, o);
      if 0 < o.sprice && o.end < t {
        assert 0 < o.sprice * (t - o.end);
      }
    }
    SumSeqCombine(h, Earned(s.time), t - s.time, LivePrice(), -1, Overrun(t), Earned(t));
    SumSeqZero(h, Overrun(t));
  }

  // ---------- Events ----------

  datatype Event =
    | EAdd(start: u64, end: u64, size: u64, sprice: int)
    | ESub(i: nat, size: u64)
    | EPay(now: u64, pay: int, lost: int)

  datatype History = History(s: Settlement, h: seq<Order>)

  function Step(y: History, e: Event): History
    requires e.EAdd? ==> e.start < e.end
    requires e.ESub? ==> e.i < |y.h|
  {
    match e
    case EAdd(start, end, size, sprice) =>
      var pay := sprice * (end - start);
      History(Add(y.s, start, size, sprice, pay, pay / 100 * 4), y.h + [Order(start, end, sprice, false)])
    case ESub(i, size) =>
      var o := y.h[i];
      var s := Sub(y.s, o.end, size, o.sprice);
      History(s.(endPaid := s.endPaid + EndFee(o.start, o.end, o.sprice)), y.h[i := o.(ended := true)])
    case EPay(now, pay, lost) =>
      var (s, _, err) := Calc(y.s, now, pay, lost);
      History(if err == NoError then Linear(s) else s, y.h)
  }

  // No live order ends before t.
  ghost predicate Open(h: seq<Order>, t: int) {
    forall o :: o in h && !o.ended ==> t <= o.end
  }

  // The event comes in order. An order starts no earlier than the settlement time, and no
  // live order ends before that; or it is back-dated with the running price and ends later. A
  // live order leaves when no live order ends before it. A claim comes when no live order has
  // ended, or is refused at once.
  ghost predicate InOrder(y: History, e: Event) {
    match e
    case EAdd(start, end, size, sprice) =>
      && 0 <= sprice && start < end
      && ((y.s.time <= start && Open(y.h, start)) || (start < y.s.time <= end && y.s.price == sprice))
    case ESub(i, size) => i < |y.h| && !y.h[i].ended && Open(y.h, y.h[i].end)
    case EPay(now, pay, lost) => Open(y.h, now) || pay < y.s.hasPaid || lost < y.s.lost
  }

  lemma TimesGrows(a: int, x: int, y: int)
    requires 0 <= a && x <= y
    ensures a * x <= a * y
  {
  }

  lemma EarnedGrows(o: Order, t: int, u: int)
    requires 0 <= o.sprice && t <= u
    ensures Earned(t)(o) <= Earned(u)(o) <= PayOf()(o)
  {
    TimesGrows(o.sprice, Min(t, o.end) - o.start, Min(u, o.end) - o.start);
    TimesGrows(o.sprice, Min(u, o.end) - o.start, o.end - o.start);
  }

  lemma OpenIsExact(s: Settlement, h: seq<Order>, t: u64)
    requires Summary(s, h) && s.time <= t && Open(h, t)
    ensures s.canPay + (t - s.time) * s.price == SumSeq(h, Earned(t))
    ensures s.canPay <= SumSeq(h, Earned(t))
  {
    hide SumSeq, Earned;
    AccrualExact(s, h, t);
    forall o | o in h
      ensures Earned(s.time)(o) <= Earned(t)(o)
    {
      EarnedGrows(o, s.time, t);
    }
    SumSeqAtMost(h, Earned(s.time), Earned(t));
  }

  // Booking an order keeps the summary if and only if it comes in order: the code accrues with
  // the price of before, forwards up to the start and, for a start in the past, once more
  // backwards.
  lemma AddKeepsSummary(y: History, e: Event)
    requires Summary(y.s, y.h) && e.EAdd? && e.start < e.end
    ensures var z := Step(y, e);
      Summary(z.s, z.h) <==> InOrder(y, e)
  {
    hide SumSeq;
    var o := Order(e.start, e.end, e.sprice, false);
    var t: u64 := Max(y.s.time, e.start);
    var z := Step(y, e);
    assert z.s.time == t && z.h == y.h + [o];
    assert forall x :: x in z.h <==> x in y.h || x == o;
    if Open(y.h, t) {
      OpenIsExact(y.s, y.h, t);
      AppendSums(y.h, o, t);
    }
    if e.start < y.s.time <= e.end {
      assert Earned(t)(o) == (y.s.time - e.start) * e.sprice;
      Cancel(y.s.time - e.start, y.s.price, e.sprice);
    } else if y.s.time <= e.start {
      assert Earned(t)(o) == e.sprice * 0;
    }
  }

  // An order of a day at 2 a second, booked half a day late behind one at 1: the past half is
  // accrued at 1, and 43200 are missing.
  lemma BackdatedEarnsLess()
    ensures var y := History(Settlement(43200, 0, 1, 86400, 0, 43200, 0, 0, 3456, 0, 0), [Order(0, 86400, 1, false)]);
      var z := Step(y, EAdd(0, 86400, 1, 2));
      && Summary(y.s, y.h) && !Summary(z.s, z.h)
      && z.s.canPay == 86400
      && SumSeq(z.h, Earned(z.s.time)) == 129600
  {
    var o, o2 := Order(0, 86400, 1, false), Order(0, 86400, 2, false);
    SumSeqOne(o, Earned(43200));
    SumSeqOne(o, LivePrice());
    SumSeqOne(o, PayOf());
    SumSeqOne(o, FloorOf());
    SumSeqOne(o, EndFloorOf());
    SumSeqAppend([o], o2, Earned(43200));
    assert [o] + [o2] == [o, o2];
  }

  lemma SumSeqOne(o: Order, f: Order -> int)
    ensures SumSeq([o], f) == f(o)
  {
    SumSeqAppend([], o, f);
    assert [] + [o] == [o];
  }

  lemma Cancel(k: int, a: int, b: int)
    requires 0 < k
    ensures k * a == k * b <==> a == b
  {
    if a < b {
      assert k * a < k * b;
    } else if b < a {
      assert k * b < k * a;
    }
  }

  lemma AppendSums(h: seq<Order>, o: Order, t: int)
    ensures SumSeq(h + [o], LivePrice()) == SumSeq(h, LivePrice()) + LivePrice()(o)
    ensures SumSeq(h + [o], Earned(t)) == SumSeq(h, Earned(t)) + Earned(t)(o)
    ensures SumSeq(h + [o], PayOf()) == SumSeq(h, PayOf()) + Pay(o)
    ensures SumSeq(h + [o], FloorOf()) == SumSeq(h, FloorOf()) + Pay(o) / 100
    ensures SumSeq(h + [o], EndFloorOf()) == SumSeq(h, EndFloorOf()) + EndFloorOf()(o)
  {
    SumSeqAppend(h, o, LivePrice());
    SumSeqAppend(h, o, Earned(t));
    SumSeqAppend(h, o, PayOf());
    SumSeqAppend(h, o, FloorOf());
    SumSeqAppend(h, o, EndFloorOf());
  }

  lemma UpdateSums(h: seq<Order>, i: nat, t: int)
    requires i < |h| && !h[i].ended
    ensures var g, o := h[i := h[i].(ended := true)], h[i];
      && SumSeq(g, LivePrice()) == SumSeq(h, LivePrice()) - o.sprice
      && SumSeq(g, Earned(t)) == SumSeq(h, Earned(t))
      && SumSeq(g, PayOf()) == SumSeq(h, PayOf())
      && SumSeq(g, FloorOf()) == SumSeq(h, FloorOf())
      && SumSeq(g, EndFloorOf()) == SumSeq(h, EndFloorOf()) + Pay(o) / 100
  {
    var x := h[i].(ended := true);
    SumSeqUpdate(h, i, x, LivePrice());
    SumSeqUpdate(h, i, x, Earned(t));
    SumSeqUpdate(h, i, x, PayOf());
    SumSeqUpdate(h, i, x, FloorOf());
    SumSeqUpdate(h, i, x, EndFloorOf());
  }

  // A live order leaves and keeps the summary if and only if no live order ends before it.
  lemma SubKeepsSummary(y: History, e: Event)
    requires Summary(y.s, y.h) && e.ESub? && e.i < |y.h| && !y.h[e.i].ended
    ensures var z := Step(y, e);
      Summary(z.s, z.h) <==> InOrder(y, e)
  {
    hide SumSeq, Earned, LivePrice, PayOf, FloorOf, EndFloorOf;
    var o := y.h[e.i];
    UpdateSums(y.h, e.i, o.end);
    var z := Step(y, e);
    assert z.s.time == o.end;
    forall j: nat | j < |y.h| && j != e.i
      ensures y.h[j] in z.h
    {
      assert z.h[j] == y.h[j];
    }
    forall x | x in z.h
      ensures x in y.h || x == o.(ended := true)
    {
    }
    if Open(y.h, o.end) {
      OpenIsExact(y.s, y.h, o.end);
    }
  }

  // A claim keeps the summary if and only if no live order has ended or it is refused before
  // it accrues anything.
  lemma PayKeepsSummary(y: History, e: Event)
    requires Summary(y.s, y.h) && e.EPay?
    ensures var z := Step(y, e);
      Summary(z.s, z.h) <==> InOrder(y, e)
  {
    hide SumSeq, Earned, LivePrice, PayOf, FloorOf, EndFloorOf;
    if y.s.time < e.now && Open(y.h, e.now) {
      OpenIsExact(y.s, y.h, e.now);
    }
  }

  // Any event that can happen to these orders.
  predicate Possible(y: History, e: Event) {
    (e.EAdd? ==> e.start < e.end) && (e.ESub? ==> e.i < |y.h| && !y.h[e.i].ended)
  }

  lemma StepKeepsSummary(y: History, e: Event)
    requires Summary(y.s, y.h) && Possible(y, e)
    ensures var z := Step(y, e);
      Summary(z.s, z.h) <==> InOrder(y, e)
  {
    hide Summary, Step, InOrder;
    match e
    case EAdd(_, _, _, _) => AddKeepsSummary(y, e);
    case ESub(_, _) => SubKeepsSummary(y, e);
    case EPay(_, _, _) => PayKeepsSummary(y, e);
  }

  // The fields that pay nothing. The size doubles with every order, so that it stays 0 until one is
  // closed; a claim leaves the loss that it admits also when it is refused for asking too much; and
  // nothing ever counts as paid for a loss.
  lemma SizeAndLoss(y: History, e: Event)
    requires Possible(y, e)
    ensures var s, z := y.s, Step(y, e).s;
      && z.size == (match e case EAdd(_, _, _, _) => 2 * s.size % 18446744073709551616
                            case ESub(_, size) => (s.size - size) % 18446744073709551616
                            case EPay(_, _, _) => s.size)
      && z.lost == (if e.EPay? && s.hasPaid <= e.pay && s.lost <= e.lost then e.lost else s.lost)
      && z.lostPaid == s.lostPaid
  {
  }

  lemma EmptyIsSummary()
    ensures Summary(EMPTY, [])
  {
  }

  ghost predicate InOrderRun(y: History, es: seq<Event>)
    decreases |es|
  {
    es == [] || (Possible(y, es[0]) && InOrder(y, es[0]) && InOrderRun(Step(y, es[0]), es[1..]))
  }

  ghost function Run(y: History, es: seq<Event>): (z: History)
    requires Summary(y.s, y.h) && InOrderRun(y, es)
    ensures Summary(z.s, z.h)
    decreases |es|
  {
    if es == [] then y
    else
      StepKeepsSummary(y, es[0]);
      Run(Step(y, es[0]), es[1..])
  }

  lemma EarnedAtMostMax(s: Settlement, h: seq<Order>)
    requires Summary(s, h)
    ensures s.canPay <= s.maxPay
  {
    hide SumSeq, Earned, PayOf;
    forall o | o in h
      ensures Earned(s.time)(o) <= PayOf()(o)
    {
      EarnedGrows(o, s.time, s.time);
    }
    SumSeqAtMost(h, Earned(s.time), PayOf());
  }

  // Provider earnings: on every in-order history the lazy amount is the sum over the orders
  // of price times the time served, so what was paid never exceeds what was earned, and that
  // never exceeds what the users put up.
  lemma ProviderEarnings(y: History, es: seq<Event>)
    requires Summary(y.s, y.h) && InOrderRun(y, es)
    ensures var z := Run(y, es);
      && z.s.canPay == SumSeq(z.h, Earned(z.s.time))
      && 0 <= z.s.hasPaid <= z.s.canPay <= z.s.maxPay
  {
    hide Run, SumSeq;
    var z := Run(y, es);
    EarnedAtMostMax(z.s, z.h);
  }

  // Out of order it fails: one order of a day at price 1, a claim of 0 one second after its
  // end, and then its expiry. The unsigned difference wraps around, and the provider may
  // claim more than 2^64 out of 86400.
  lemma LateSubOverpays()
    ensures var s1 := Add(EMPTY, 0, 1, 1, 86400, 3456);
      var s2 := Calc(s1, 86401, 0, 0).0;
      var s3 := Sub(s2, 86400, 1, 1);
      && s3.maxPay == 86400
      && s3.canPay == U64 + 86400
      && Calc(s3, 86401, U64 + 86400, 0).2 == NoError
  {
    var s1 := Add(EMPTY, 0, 1, 1, 86400, 3456);
    assert s1.price == 1 && s1.time == 0;
    var s2 := Calc(s1, 86401, 0, 0).0;
    assert s2.canPay == 86401 && s2.time == 86401;
  }

  // ---------- Keeper fees ----------

  // Flooring order by order loses less than one per order against flooring the sum.
  lemma {:induction false} SumOfFloors(h: seq<Order>)
    ensures SumSeq(h, FloorOf()) <= SumSeq(h, PayOf()) / 100
    ensures h != [] ==> SumSeq(h, PayOf()) / 100 <= SumSeq(h, FloorOf()) + |h| - 1
  {
    if h == [] {
    } else {
      SumOfFloors(h[..|h| - 1]);
    }
  }

  // The linear fee follows the payments.
  predicate LinearFollows(s: Settlement) {
    0 <= s.hasPaid && s.linearPaid == 4 * (s.hasPaid / 100)
  }

  // In every state, in order or not: each event keeps it.
  lemma StepKeepsLinear(y: History, e: Event)
    requires LinearFollows(y.s) && (e.EAdd? ==> e.start < e.end) && (e.ESub? ==> e.i < |y.h|)
    ensures LinearFollows(Step(y, e).s)
  {
    if e.EPay? && y.s.hasPaid <= e.pay {
      assert y.s.hasPaid / 100 <= e.pay / 100;
    }
  }

  // Bounds on the two parts of the keepers' fee against what was collected for it. What is
  // released of it early exceeds what was collected by less than 4 for each order.
  lemma KeeperFeeBounds(s: Settlement, h: seq<Order>)
    requires Summary(s, h)
    ensures 4 * s.endPaid <= s.managePay
    ensures h != [] ==> s.linearPaid <= s.managePay + 4 * (|h| - 1)
  {
    hide SumSeq, Earned, LivePrice, PayOf, FloorOf, EndFloorOf;
    EarnedAtMostMax(s, h);
    SumOfFloors(h);
    EndFloors(h);
  }

  lemma RunFeeBounds(y: History, es: seq<Event>)
    requires Summary(y.s, y.h) && InOrderRun(y, es)
    ensures var z := Run(y, es);
      && 4 * z.s.endPaid <= z.s.managePay
      && (z.h != [] ==> z.s.linearPaid <= z.s.managePay + 4 * (|z.h| - 1))
  {
    KeeperFeeBounds(Run(y, es).s, Run(y, es).h);
  }

  lemma EndFloors(h: seq<Order>)
    requires forall o :: o in h ==> 0 <= o.sprice && o.start < o.end
    ensures SumSeq(h, EndFloorOf()) <= SumSeq(h, FloorOf())
    ensures forall o :: o in h ==> 0 <= FloorOf()(o)
  {
    forall o | o in h
      ensures EndFloorOf()(o) <= FloorOf()(o) && 0 <= FloorOf()(o)
    {
      TimesGrows(o.sprice, 0, o.end - o.start);
    }
    SumSeqAtMost(h, EndFloorOf(), FloorOf());
  }

  // The fee collected covers the fee released only for small change: once every order has
  // ended and the provider is paid in full, exactly when the orders cost less than 100
  // altogether.
  lemma CollectedFeeCoversReleased(s: Settlement, h: seq<Order>)
    requires Summary(s, h) && s.hasPaid == s.maxPay
    requires forall o :: o in h ==> o.ended
    ensures s.endPaid + s.linearPaid <= s.managePay <==> s.maxPay < 100
  {
    hide SumSeq;
    SumOfFloors(h);
    EndedFees(h);
    EndFloors(h);
    SumSeqZero(h, FloorOf());
  }

  // One order of 100, ended and paid: 5 were released of the 4 collected.
  lemma FeeFallsShort()
    ensures var s, h := Settlement(100, 0, 0, 100, 100, 100, 0, 0, 4, 1, 4), [Order(0, 100, 1, true)];
      && Summary(s, h) && s.hasPaid == s.maxPay
      && s.endPaid + s.linearPaid == s.managePay + 1
  {
    var o := Order(0, 100, 1, true);
    SumSeqOne(o, Earned(100));
    SumSeqOne(o, LivePrice());
    SumSeqOne(o, PayOf());
    SumSeqOne(o, FloorOf());
    SumSeqOne(o, EndFloorOf());
  }

  lemma EndedFees(h: seq<Order>)
    requires forall o :: o in h ==> o.ended
    ensures SumSeq(h, EndFloorOf()) == SumSeq(h, FloorOf())
  {
    hide SumSeq;
    SumSeqAtMost(h, EndFloorOf(), FloorOf());
    SumSeqAtMost(h, FloorOf(), EndFloorOf());
  }
}
