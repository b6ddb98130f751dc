// Issuance in roleMgr.AddOrder (server/contract/role.go): one running price with per-day
// expiry buckets stands for the integral of every order's price over its own lifetime.
module Issuance {
  import opened Types
  import opened Sums

  datatype MintInfo = MintInfo(ratio: int, size: int, duration: int)

  const TIB: int := 1024 * 1024 * 1024 * 1024

  const MINT: seq<MintInfo> := [
    MintInfo(100, 1, 1),
    MintInfo(120, 100 * TIB, 100 * DAY),
    MintInfo(150, 1024 * TIB, 100 * DAY),
    MintInfo(200, 10 * 1024 * TIB, 100 * DAY)
  ]

  datatype Issue = Issue(
    price: int,
    size: int,
    spaceTime: int,
    totalPaid: int,
    totalPay: int,
    mintLevel: nat,
    lastMint: int,
    subP: map<int, int>,
    subS: map<int, int>)

  function NewIssue(now: int): Issue {
    Issue(0, 0, 0, 0, 0, 0, now, map[], map[])
  }

  datatype Call = Call(now: int, start: int, end: int, size: int, sprice: int)

  // The parameter checks at the head of AddOrder.
  predicate Accepted(c: Call) {
    0 < c.size && c.start < c.end && c.end / DAY * DAY == c.end
  }

  // The clock of a call: at most one day is made up per call. The difference is unsigned, so
  // that a clock before lastMint makes up a day, too.
  function Clock(lastMint: int, now: int): (n: int)
    ensures lastMint <= n <= lastMint + DAY
  {
    if now < lastMint || DAY < now - lastMint then lastMint + DAY else now
  }

  predicate Crosses(last: int, now: int) {
    last / DAY < now / DAY
  }

  function DayOf(now: int): int {
    now / DAY * DAY
  }

  // Loop over the mint levels from i on. The division overwrites spaceTime.
  function MintLoop(level: nat, spaceTime: int, size: int, i: nat): (nat, int)
    decreases |MINT| - i
  {
    if |MINT| <= i then (level, spaceTime)
    else
      var st := spaceTime / Max(MINT[i].size, size);
      if MINT[i].duration <= st then MintLoop(i, st, size, i + 1) else (level, st)
  }

  // paid is what became due since the last call, reward what is sent to the pledge pool.
  datatype Booked = Booked(issue: Issue, paid: int, reward: int)

  // Everything up to the reward transfer; lastMint is set after it.
  function Book(s: Issue, c: Call): Booked {
    var paid := PaidNow(s, c);
    var t := Totals(s, c, paid);
    var (level, st) := if paid <= 0 then (t.mintLevel, t.spaceTime)
                       else MintLoop(t.mintLevel, t.spaceTime, t.size, t.mintLevel + 1);
    var reward := if paid <= 0 || |MINT| <= level then 0 else paid * MINT[level].ratio / 100;
    Booked(t.(spaceTime := st, mintLevel := level), paid, reward)
  }

  // What lies under a day, when the clock n of a call has crossed one.
  function Crossed(last: int, n: int, sub: map<int, int>): int {
    if Crosses(last, n) then Get(sub, DayOf(n)) else 0
  }

  function AddTo(sub: map<int, int>, end: int, v: int): map<int, int> {
    sub[end := Get(sub, end) + v]
  }

  // The amount due at a call: the running price over the step, less what ended on the way.
  function PaidNow(s: Issue, c: Call): int {
    var n := Clock(s.lastMint, c.now);
    s.price * (n - s.lastMint) - Crossed(s.lastMint, n, AddTo(s.subP, c.end, c.sprice)) * (n - DayOf(n))
  }

  // The totals of a call, before its reward.
  function Totals(s: Issue, c: Call, paid: int): Issue {
    var n := Clock(s.lastMint, c.now);
    var subP, subS := AddTo(s.subP, c.end, c.sprice), AddTo(s.subS, c.end, c.size);
    s.(subP := subP, subS := subS,
       price := s.price - Crossed(s.lastMint, n, subP) + c.sprice,
       size := s.size - Crossed(s.lastMint, n, subS) + c.size,
       spaceTime := s.spaceTime + c.size * (c.end - c.start),
       totalPaid := s.totalPaid + paid,
       totalPay := s.totalPay + c.sprice * (c.end - c.start))
  }

  // A call whose reward transfer succeeds.
  function AddOrder(s: Issue, c: Call): Issue {
    Book(s, c).issue.(lastMint := Clock(s.lastMint, c.now))
  }

  // ---------- The orders behind the state ----------

  datatype Order = Order(sprice: int, size: int, start: int, end: int, booked: int)

  function OrderOf(s: Issue, c: Call): Order {
    Order(c.sprice, c.size, c.start, c.end, Clock(s.lastMint, c.now))
  }

  ghost function Live(t: int): Order -> int {
    (o: Order) => if t < o.end then o.sprice else 0
  }

  ghost function LiveSize(t: int): Order -> int {
    (o: Order) => if t < o.end then o.size else 0
  }

  ghost function Ending(d: int): Order -> int {
    (o: Order) => if o.end == d then o.sprice else 0
  }

  ghost function EndingSize(d: int): Order -> int {
    (o: Order) => if o.end == d then o.size else 0
  }

  // The price of an order integrated from its booking to t, but not beyond its end.
  ghost function Integral(t: int): Order -> int {
    (o: Order) => o.sprice * (Min(o.end, t) - o.booked)
  }

  ghost function FullPay(): Order -> int {
    (o: Order) => o.sprice * (o.end - o.start)
  }

  ghost predicate Aligned(h: seq<Order>) {
    forall o :: o in h ==> o.end / DAY * DAY == o.end
  }

  // The state is the summary of the orders h, of which paid was reported so far.
  ghost predicate Summary(s: Issue, h: seq<Order>, paid: int) {
    && Aligned(h)
    && s.mintLevel < |MINT|
    && s.price == SumSeq(h, Live(s.lastMint))
    && s.size == SumSeq(h, LiveSize(s.lastMint))
    && paid == SumSeq(h, Integral(s.lastMint))
    && s.totalPay == SumSeq(h, FullPay())
    && (forall d :: s.lastMint < d ==> Get(s.subP, d) == SumSeq(h, Ending(d)))
    && (forall d :: s.lastMint < d ==> Get(s.subS, d) == SumSeq(h, EndingSize(d)))
  }

  // ---------- One day bucket ----------

  // At most one day boundary lies in a call's step, and Crosses says whether there is one.
  lemma OneBoundary(last: int, n: int, e: int)
    requires last <= n <= last + DAY && e / DAY * DAY == e
    ensures last < e <= n <==> Crosses(last, n) && e == DayOf(n)
  {
  }

  lemma OrderAdvances(last: int, n: int, o: Order)
    requires last <= n <= last + DAY && o.end / DAY * DAY == o.end
    ensures var x := if Crosses(last, n) then 1 else 0;
      && Live(n)(o) == Live(last)(o) - x * Ending(DayOf(n))(o)
      && LiveSize(n)(o) == LiveSize(last)(o) - x * EndingSize(DayOf(n))(o)
      && Integral(n)(o) == Integral(last)(o) + (n - last) * Live(last)(o)
                           + (if Crosses(last, n) then DayOf(n) - n else 0) * Ending(DayOf(n))(o)
  {
    OneBoundary(last, n, o.end);
    if last < o.end {
      if o.end <= n {
        assert o.sprice * (o.end - o.booked) == o.sprice * (last - o.booked) + o.sprice * (o.end - last);
        assert o.sprice * (o.end - last) == (n - last) * o.sprice + (o.end - n) * o.sprice;
      } else {
        assert o.sprice * (n - o.booked) == o.sprice * (last - o.booked) + (n - last) * o.sprice;
      }
    }
  }

  // The same for all orders at once.
  lemma HistoryAdvances(last: int, n: int, h: seq<Order>)
    requires last <= n <= last + DAY && Aligned(h)
    ensures var x := if Crosses(last, n) then 1 else 0;
      && SumSeq(h, Live(n)) == SumSeq(h, Live(last)) - x * SumSeq(h, Ending(DayOf(n)))
      && SumSeq(h, LiveSize(n)) == SumSeq(h, LiveSize(last)) - x * SumSeq(h, EndingSize(DayOf(n)))
      && SumSeq(h, Integral(n)) == SumSeq(h, Integral(last)) + (n - last) * SumSeq(h, Live(last))
                                  + (if Crosses(last, n) then DayOf(n) - n else 0) * SumSeq(h, Ending(DayOf(n)))
  {
    hide Live, LiveSize, Integral, Ending, EndingSize;
    var x := if Crosses(last, n) then 1 else 0;
    forall o | o in h
      ensures Live(n)(o) == Live(last)(o) + -x * Ending(DayOf(n))(o) + 0 * Ending(DayOf(n))(o)
      ensures LiveSize(n)(o) == LiveSize(last)(o) + -x * EndingSize(DayOf(n))(o) + 0 * Ending(DayOf(n))(o)
      ensures Integral(n)(o) == Integral(last)(o) + (n - last) * Live(last)(o)
                                + (if Crosses(last, n) then DayOf(n) - n else 0) * Ending(DayOf(n))(o)
    {
      OrderAdvances(last, n, o);
    }
    SumSeqCombine(h, Live(last), -x, Ending(DayOf(n)), 0, Ending(DayOf(n)), Live(n));
    SumSeqCombine(h, LiveSize(last), -x, EndingSize(DayOf(n)), 0, Ending(DayOf(n)), LiveSize(n));
    SumSeqCombine(h, Integral(last), n - last, Live(last),
                 if Crosses(last, n) then DayOf(n) - n else 0, Ending(DayOf(n)), Integral(n));
  }

  // ---------- One call ----------

  lemma {:induction false} MintLoopRange(level: nat, spaceTime: int, size: int, i: nat)
    requires level < i <= |MINT|
    ensures level <= MintLoop(level, spaceTime, size, i).0 < |MINT|
    decreases |MINT| - i
  {
    if i < |MINT| {
      var st := spaceTime / Max(MINT[i].size, size);
      MintLoopRange(i, st, size, i + 1);
    }
  }

  // The level stays in range and never falls, and a positive amount due is multiplied by
  // between one and two.
  lemma RewardBounds(s: Issue, c: Call)
    requires s.mintLevel < |MINT|
    ensures var b := Book(s, c);
      && s.mintLevel <= b.issue.mintLevel < |MINT|
      && Max(0, b.paid) <= b.reward <= 2 * Max(0, b.paid)
  {
    var b := Book(s, c);
    if 0 < b.paid {
      var spaceTime := s.spaceTime + c.size * (c.end - c.start);
      MintLoopRange(s.mintLevel, spaceTime, b.issue.size, s.mintLevel + 1);
      var ratio := MINT[b.issue.mintLevel].ratio;
      assert 100 <= ratio <= 200;
      assert b.paid * 100 <= b.paid * ratio <= b.paid * 200;
    }
  }

  lemma BucketsAfter(s: Issue, h: seq<Order>, paid: int, c: Call, d: int)
    requires Summary(s, h, paid) && s.lastMint < d
    ensures var o := OrderOf(s, c);
      && Get(Book(s, c).issue.subP, d) == SumSeq(h + [o], Ending(d)) == SumSeq(h, Ending(d)) + Ending(d)(o)
      && Get(Book(s, c).issue.subS, d) == SumSeq(h + [o], EndingSize(d)) == SumSeq(h, EndingSize(d)) + EndingSize(d)(o)
  {
    hide SumSeq, MintLoop;
    SumSeqAppend(h, OrderOf(s, c), Ending(d));
    SumSeqAppend(h, OrderOf(s, c), EndingSize(d));
  }

  // The bucket that a call takes out of the totals, in terms of the orders.
  lemma BucketTaken(s: Issue, h: seq<Order>, paid: int, c: Call)
    requires Summary(s, h, paid) && Accepted(c)
    ensures var o, n, b := OrderOf(s, c), Clock(s.lastMint, c.now), Book(s, c).issue;
      Crosses(s.lastMint, n) ==>
        && Get(b.subP, DayOf(n)) == SumSeq(h, Ending(DayOf(n))) + Ending(DayOf(n))(o)
        && Get(b.subS, DayOf(n)) == SumSeq(h, EndingSize(DayOf(n))) + EndingSize(DayOf(n))(o)
  {
    hide Summary, SumSeq, Book, Ending, EndingSize;
    var n := Clock(s.lastMint, c.now);
    if Crosses(s.lastMint, n) {
      BucketsAfter(s, h, paid, c, DayOf(n));
    }
  }

  // What is due over the step, when live is the price and ending the part of it that ends at
  // mid.
  lemma DueOverStep(live: int, ending: int, own: int, last: int, mid: int, n: int)
    ensures live * (n - last) - (n - mid) * (ending + own)
         == (n - last) * live + (mid - n) * ending + -((n - mid) * own)
  {
    Distribute(n - mid, ending, own);
    assert (mid - n) * ending == -((n - mid) * ending);
  }

  // The amounts a call computes, in terms of the orders.
  lemma AmountsAfter(s: Issue, h: seq<Order>, paid: int, c: Call)
    requires Summary(s, h, paid) && Accepted(c)
    ensures var o, n, b := OrderOf(s, c), Clock(s.lastMint, c.now), Book(s, c);
      var late := c.end <= s.lastMint;
      && b.issue.price == SumSeq(h, Live(n)) + (if late then c.sprice else Live(n)(o))
      && b.issue.size == SumSeq(h, LiveSize(n)) + (if late then c.size else LiveSize(n)(o))
      && paid + b.paid == SumSeq(h, Integral(n)) + (if late then 0 else Integral(n)(o))
  {
    hide *;
    SummaryNow(s, h, paid);
    var o, n := OrderOf(s, c), Clock(s.lastMint, c.now);
    BookAmounts(s, c);
    HistoryAdvances(s.lastMint, n, h);
    NewOrderAmounts(s, c);
    BucketTaken(s, h, paid, c);
    DueOverStep(s.price, SumSeq(h, Ending(DayOf(n))), Ending(DayOf(n))(o), s.lastMint, DayOf(n), n);
  }

  lemma SummaryNow(s: Issue, h: seq<Order>, paid: int)
    requires Summary(s, h, paid)
    ensures Aligned(h)
    ensures s.price == SumSeq(h, Live(s.lastMint)) && s.size == SumSeq(h, LiveSize(s.lastMint))
    ensures paid == SumSeq(h, Integral(s.lastMint))
  {
  }

  lemma BookAmounts(s: Issue, c: Call)
    ensures var b, n := Book(s, c), Clock(s.lastMint, c.now);
      var sp := if Crosses(s.lastMint, n) then Get(b.issue.subP, DayOf(n)) else 0;
      var ssize := if Crosses(s.lastMint, n) then Get(b.issue.subS, DayOf(n)) else 0;
      && b.issue.price == s.price - sp + c.sprice
      && b.issue.size == s.size - ssize + c.size
      && b.paid == s.price * (n - s.lastMint) - (n - DayOf(n)) * sp
  {
    hide MintLoop;
  }

  // What the order of the call itself adds.
  lemma NewOrderAmounts(s: Issue, c: Call)
    requires Accepted(c)
    ensures var o, n := OrderOf(s, c), Clock(s.lastMint, c.now);
      var mid := DayOf(n);
      var late := c.end <= s.lastMint;
      var x := if Crosses(s.lastMint, n) then 1 else 0;
      && c.sprice == (if late then c.sprice else Live(n)(o)) + x * Ending(mid)(o)
      && c.size == (if late then c.size else LiveSize(n)(o)) + x * EndingSize(mid)(o)
      && (if late then 0 else Integral(n)(o)) == -(x * ((n - mid) * Ending(mid)(o)))
  {
    var o, n := OrderOf(s, c), Clock(s.lastMint, c.now);
    OneBoundary(s.lastMint, n, c.end);
    if s.lastMint < c.end <= n {
      assert c.sprice * (c.end - n) == -((n - c.end) * c.sprice);
    } else {
      assert c.sprice * (n - n) == 0;
    }
  }

  // A call keeps the summary exactly when the order ends after the last issuance time: the
  // bucket of an earlier day is never crossed again, so such an order would never leave the
  // running price and size.
  lemma AddOrderKeepsSummary(s: Issue, h: seq<Order>, paid: int, c: Call)
    requires Summary(s, h, paid) && Accepted(c)
    ensures Summary(AddOrder(s, c), h + [OrderOf(s, c)], paid + Book(s, c).paid) <==> s.lastMint < c.end
  {
    var o, n := OrderOf(s, c), Clock(s.lastMint, c.now);
    AmountsAfter(s, h, paid, c);
    RewardBounds(s, c);
    SummaryParts(s, h, paid, c);
  }

  lemma SummaryParts(s: Issue, h: seq<Order>, paid: int, c: Call)
    requires Summary(s, h, paid) && Accepted(c)
    requires var o, n, b := OrderOf(s, c), Clock(s.lastMint, c.now), Book(s, c);
      var late := c.end <= s.lastMint;
      && s.lastMint <= n <= s.lastMint + DAY
      && b.issue.price == SumSeq(h, Live(n)) + (if late then c.sprice else Live(n)(o))
      && b.issue.size == SumSeq(h, LiveSize(n)) + (if late then c.size else LiveSize(n)(o))
      && paid + b.paid == SumSeq(h, Integral(n)) + (if late then 0 else Integral(n)(o))
      && b.issue.mintLevel < |MINT|
    ensures Summary(AddOrder(s, c), h + [OrderOf(s, c)], paid + Book(s, c).paid) <==> s.lastMint < c.end
  {
    hide MintLoop, SumSeq;
    var o, n := OrderOf(s, c), Clock(s.lastMint, c.now);
    SumSeqAppend(h, o, Live(n));
    SumSeqAppend(h, o, LiveSize(n));
    SumSeqAppend(h, o, Integral(n));
    SumSeqAppend(h, o, FullPay());
    forall d | n < d
      ensures Get(Book(s, c).issue.subP, d) == SumSeq(h + [o], Ending(d))
      ensures Get(Book(s, c).issue.subS, d) == SumSeq(h + [o], EndingSize(d))
    {
      BucketsAfter(s, h, paid, c, d);
    }
  }

  // An order of the first day, booked on the third: its price of 1 joins the running price,
  // although no order is live, and is never taken out again.
  const BACKDATED := Call(2 * DAY, 0, DAY, 1, 1)

  lemma BackdatedOrderStays()
    ensures var s := NewIssue(2 * DAY);
      && Summary(s, [], 0) && Accepted(BACKDATED)
      && AddOrder(s, BACKDATED).price == 1
      && SumSeq([OrderOf(s, BACKDATED)], Live(AddOrder(s, BACKDATED).lastMint)) == 0
      && !Summary(AddOrder(s, BACKDATED), [OrderOf(s, BACKDATED)], Book(s, BACKDATED).paid)
  {
    hide SumSeq, MintLoop, Summary;
    var s := NewIssue(2 * DAY);
    NewIsSummary(2 * DAY);
    var o := OrderOf(s, BACKDATED);
    SumSeqAppend([], o, Live(2 * DAY));
    assert [] + [o] == [o];
    assert SumSeq([], Live(2 * DAY)) == 0 by { SumSeqNone(Live(2 * DAY)); }
    AddOrderKeepsSummary(s, [], 0, BACKDATED);
  }

  lemma SumSeqNone(f: Order -> int)
    ensures SumSeq([], f) == 0
  {
  }

  // ---------- A reward that cannot be sent ----------

  // A call that crosses a day with something in its bucket.
  predicate TakesBucket(s: Issue, c: Call) {
    var n, b := Clock(s.lastMint, c.now), Book(s, c).issue;
    Crosses(s.lastMint, n) && (Get(b.subP, DayOf(n)) != 0 || Get(b.subS, DayOf(n)) != 0)
  }

  // When the reward cannot be sent, the totals have moved and lastMint has not. The state is
  // still the summary of the orders, the new one included, with nothing reported, if and only
  // if no bucket was taken out of the totals. If one was, no booking time of the new order and
  // no amount reported makes it a summary of them.
  lemma FailedRewardKeepsSummary(s: Issue, h: seq<Order>, paid: int, c: Call)
    requires Summary(s, h, paid) && Accepted(c) && s.lastMint < c.end
    ensures Summary(Book(s, c).issue, h + [OrderOf(s, c).(booked := s.lastMint)], paid) <==> !TakesBucket(s, c)
    ensures TakesBucket(s, c) ==>
      forall t: int, sum: int :: !Summary(Book(s, c).issue, h + [OrderOf(s, c).(booked := t)], sum)
  {
    hide Book, SumSeq;
    FailedTotals(s, h, paid, c, s.lastMint);
    var b := Book(s, c).issue;
    forall t: int, sum: int | TakesBucket(s, c)
      ensures !Summary(b, h + [OrderOf(s, c).(booked := t)], sum)
    {
      FailedTotals(s, h, paid, c, t);
    }
    if !TakesBucket(s, c) {
      RewardBounds(s, c);
      FailedBuckets(s, h, paid, c, s.lastMint);
    }
  }

  // Price and size after a failed reward, against the sums over the orders.
  lemma FailedTotals(s: Issue, h: seq<Order>, paid: int, c: Call, t: int)
    requires Summary(s, h, paid) && Accepted(c) && s.lastMint < c.end
    ensures var o, b, n := OrderOf(s, c).(booked := t), Book(s, c).issue, Clock(s.lastMint, c.now);
      var x := Crosses(s.lastMint, n);
      && b.lastMint == s.lastMint
      && b.price == SumSeq(h + [o], Live(s.lastMint)) - (if x then Get(b.subP, DayOf(n)) else 0)
      && b.size == SumSeq(h + [o], LiveSize(s.lastMint)) - (if x then Get(b.subS, DayOf(n)) else 0)
      && SumSeq(h + [o], Integral(s.lastMint)) == paid + c.sprice * (s.lastMint - t)
      && b.totalPay == SumSeq(h + [o], FullPay())
  {
    hide SumSeq, MintLoop, Crosses, DayOf, Clock;
    var o := OrderOf(s, c).(booked := t);
    BookAmounts(s, c);
    SumSeqAppend(h, o, Live(s.lastMint));
    SumSeqAppend(h, o, LiveSize(s.lastMint));
    SumSeqAppend(h, o, Integral(s.lastMint));
    SumSeqAppend(h, o, FullPay());
  }

  lemma FailedBuckets(s: Issue, h: seq<Order>, paid: int, c: Call, t: int)
    requires Summary(s, h, paid) && Accepted(c)
    ensures var o, b := OrderOf(s, c).(booked := t), Book(s, c).issue;
      && Aligned(h + [o])
      && (forall d :: s.lastMint < d ==> Get(b.subP, d) == SumSeq(h + [o], Ending(d)))
      && (forall d :: s.lastMint < d ==> Get(b.subS, d) == SumSeq(h + [o], EndingSize(d)))
  {
    hide SumSeq, MintLoop, Crosses, Clock;
    var o := OrderOf(s, c).(booked := t);
    forall d | s.lastMint < d
      ensures Get(Book(s, c).issue.subP, d) == SumSeq(h + [o], Ending(d))
      ensures Get(Book(s, c).issue.subS, d) == SumSeq(h + [o], EndingSize(d))
    {
      SumSeqAppend(h, o, Ending(d));
      SumSeqAppend(h, o, EndingSize(d));
    }
  }

  // A failed reward that took no bucket, followed by a call that succeeds: the totals are the
  // summary of both orders, and only what the second call paid was paid. totalPaid counts the
  // amount of the failed call on top.
  lemma FailedRewardCountsAsPaid(s: Issue, h: seq<Order>, paid: int, c: Call, c2: Call)
    requires Summary(s, h, paid) && Accepted(c) && s.lastMint < c.end && !TakesBucket(s, c)
    requires Accepted(c2) && s.lastMint < c2.end
    ensures var f := Book(s, c).issue;
      var z, h2 := AddOrder(f, c2), h + [OrderOf(s, c).(booked := s.lastMint), OrderOf(f, c2)];
      && Summary(z, h2, paid + Book(f, c2).paid)
      && z.totalPaid - SumSeq(h2, Integral(z.lastMint)) == s.totalPaid - paid + Book(s, c).paid
  {
    hide SumSeq, Summary, TakesBucket;
    var f := Book(s, c).issue;
    var h1 := h + [OrderOf(s, c).(booked := s.lastMint)];
    FailedRewardKeepsSummary(s, h, paid, c);
    assert f.lastMint == s.lastMint;
    AddOrderKeepsSummary(f, h1, paid, c2);
    assert h1 + [OrderOf(f, c2)] == h + [OrderOf(s, c).(booked := s.lastMint), OrderOf(f, c2)];
    PaidIsIntegral(AddOrder(f, c2), h1 + [OrderOf(f, c2)], paid + Book(f, c2).paid);
  }

  lemma PaidIsIntegral(s: Issue, h: seq<Order>, paid: int)
    requires Summary(s, h, paid)
    ensures paid == SumSeq(h, Integral(s.lastMint))
  {
  }

  // Orders at 5 until the end of the first day and at 7 for longer, and two orders at 1 that
  // come just after midnight. The reward of the first of them fails, and the second takes the
  // same bucket out once more: the running price is 4, and the live orders cost 9.
  const DUE_TODAY := Order(5, 1, 0, DAY, 0)
  const DUE_LATER := Order(7, 1, 0, 3 * DAY, 0)
  const BEFORE_MIDNIGHT := Issue(12, 2, 0, 0, 26 * DAY, 0, DAY - 10,
                                 map[DAY := 5, 3 * DAY := 7], map[DAY := 1, 3 * DAY := 1])
  const AFTER_MIDNIGHT := Call(DAY + 10, DAY, 3 * DAY, 1, 1)

  lemma BeforeMidnightIsSummary()
    ensures Summary(BEFORE_MIDNIGHT, [DUE_TODAY, DUE_LATER], 12 * (DAY - 10))
  {
    hide SumSeq;
    forall f: Order -> int
      ensures SumSeq([DUE_TODAY, DUE_LATER], f) == f(DUE_TODAY) + f(DUE_LATER)
    {
      SumOfTwo(DUE_TODAY, DUE_LATER, f);
    }
  }

  lemma RetryTakesBucketTwice()
    ensures var s, c := BEFORE_MIDNIGHT, AFTER_MIDNIGHT;
      var f := Book(s, c).issue;
      var z := AddOrder(f, c);
      && Summary(s, [DUE_TODAY, DUE_LATER], 12 * (DAY - 10))
      && 0 < Book(s, c).paid
      && z.lastMint == DAY + 10
      && z.price == 4
      && SumSeq([DUE_TODAY, DUE_LATER, OrderOf(s, c), OrderOf(f, c)], Live(z.lastMint)) == 9
  {
    hide Summary, SumSeq, MintLoop;
    var s, c := BEFORE_MIDNIGHT, AFTER_MIDNIGHT;
    var f := Book(s, c).issue;
    BeforeMidnightIsSummary();
    assert Crosses(s.lastMint, DAY + 10) && DayOf(DAY + 10) == DAY;
    var h := [DUE_TODAY, DUE_LATER];
    SumOfTwo(DUE_TODAY, DUE_LATER, Live(DAY + 10));
    SumSeqAppend(h, OrderOf(s, c), Live(DAY + 10));
    SumSeqAppend(h + [OrderOf(s, c)], OrderOf(f, c), Live(DAY + 10));
    assert h + [OrderOf(s, c)] + [OrderOf(f, c)] == [DUE_TODAY, DUE_LATER, OrderOf(s, c), OrderOf(f, c)];
  }

  lemma SumOfTwo(a: Order, b: Order, f: Order -> int)
    ensures SumSeq([a, b], f) == f(a) + f(b)
  {
    SumSeqAppend([a], b, f);
    SumSeqAppend([], a, f);
    assert [a] + [b] == [a, b];
    assert [] + [a] == [a];
  }

  // ---------- Runs ----------

  // What the calls of a run leave behind.
  datatype Outcome = Outcome(s: Issue, h: seq<Order>, paid: int, positive: int, rewards: int)

  // A refused call changes nothing.
  function Apply(r: Outcome, c: Call): Outcome {
    if !Accepted(c) then r
    else
      var b := Book(r.s, c);
      Outcome(AddOrder(r.s, c), r.h + [OrderOf(r.s, c)], r.paid + b.paid,
              r.positive + Max(0, b.paid), r.rewards + b.reward)
  }

  function Run(r: Outcome, calls: seq<Call>): Outcome
    decreases |calls|
  {
    if calls == [] then r else Run(Apply(r, calls[0]), calls[1..])
  }

  // Every accepted order ends after the issuance time that its call finds.
  ghost predicate OnTime(r: Outcome, calls: seq<Call>)
    decreases |calls|
  {
    calls == [] || ((Accepted(calls[0]) ==> r.s.lastMint < calls[0].end) && OnTime(Apply(r, calls[0]), calls[1..]))
  }

  // Issuance is a per-order integral: over every run the running price and size are those
  // of the orders that have not ended, and everything reported as paid is each order's price
  // times the part of its lifetime since its booking.
  lemma {:induction false} IssuanceIsIntegral(r: Outcome, calls: seq<Call>)
    requires Summary(r.s, r.h, r.paid) && OnTime(r, calls)
    ensures var z := Run(r, calls);
      && Summary(z.s, z.h, z.paid)
      && z.s.price == SumSeq(z.h, Live(z.s.lastMint))
      && z.s.size == SumSeq(z.h, LiveSize(z.s.lastMint))
      && z.paid == SumSeq(z.h, Integral(z.s.lastMint))
    decreases |calls|
  {
    hide SumSeq, Book;
    if calls == [] {
    } else {
      if Accepted(calls[0]) {
        AddOrderKeepsSummary(r.s, r.h, r.paid, calls[0]);
      }
      IssuanceIsIntegral(Apply(r, calls[0]), calls[1..]);
    }
  }

  // The totalPaid field moves exactly with the reported amounts.
  lemma {:induction false} TotalPaidFollows(r: Outcome, calls: seq<Call>)
    ensures var z := Run(r, calls); z.s.totalPaid - z.paid == r.s.totalPaid - r.paid
    decreases |calls|
  {
    if calls == [] {
    } else {
      TotalPaidFollows(Apply(r, calls[0]), calls[1..]);
    }
  }

  lemma NewIsSummary(now: int)
    ensures Summary(NewIssue(now), [], 0)
  {
  }

  // ---------- The bound ----------

  // Prices are not negative, and an order starts no later than it is booked and ends no
  // earlier.
  predicate Sound(o: Order) {
    0 <= o.sprice && o.start <= o.booked <= o.end
  }

  ghost predicate AllSound(h: seq<Order>) {
    forall o :: o in h ==> Sound(o)
  }

  ghost predicate SoundRun(r: Outcome, calls: seq<Call>)
    decreases |calls|
  {
    calls == [] || ((Accepted(calls[0]) ==> Sound(OrderOf(r.s, calls[0]))) && SoundRun(Apply(r, calls[0]), calls[1..]))
  }

  // On every run, whatever the prices, the rewards lie between the positive amounts due and
  // twice that.
  lemma {:induction false} RewardsFollowPaid(r: Outcome, calls: seq<Call>)
    requires r.s.mintLevel < |MINT| && r.positive <= r.rewards <= 2 * r.positive
    ensures var z := Run(r, calls);
      z.positive <= z.rewards <= 2 * z.positive && r.s.mintLevel <= z.s.mintLevel < |MINT|
    decreases |calls|
  {
    hide Book;
    if calls == [] {
    } else {
      RewardBounds(r.s, calls[0]);
      RewardsFollowPaid(Apply(r, calls[0]), calls[1..]);
    }
  }

  lemma PaidNonNegative(s: Issue, h: seq<Order>, paid: int, c: Call)
    requires Summary(s, h, paid) && Accepted(c)
    requires s.lastMint < c.end && AllSound(h) && Sound(OrderOf(s, c))
    ensures 0 <= Book(s, c).paid
  {
    hide Book, SumSeq;
    var o, n := OrderOf(s, c), Clock(s.lastMint, c.now);
    AmountsAfter(s, h, paid, c);
    assert Integral(n)(o) == 0;
    forall x | x in h
      ensures Integral(s.lastMint)(x) <= Integral(n)(x)
    {
      assert x.sprice * (Min(x.end, s.lastMint) - x.booked) <= x.sprice * (Min(x.end, n) - x.booked);
    }
    SumSeqAtMost(h, Integral(s.lastMint), Integral(n));
  }

  lemma PaidAtMostTotalPay(s: Issue, h: seq<Order>, paid: int)
    requires Summary(s, h, paid) && AllSound(h)
    ensures paid <= s.totalPay
  {
    hide SumSeq;
    forall x | x in h
      ensures Integral(s.lastMint)(x) <= FullPay()(x)
    {
      assert x.sprice * (Min(x.end, s.lastMint) - x.booked) <= x.sprice * (x.end - x.start);
    }
    SumSeqAtMost(h, Integral(s.lastMint), FullPay());
  }

  lemma {:induction false} NothingNegative(r: Outcome, calls: seq<Call>)
    requires Summary(r.s, r.h, r.paid) && OnTime(r, calls)
    requires AllSound(r.h) && SoundRun(r, calls) && r.positive == r.paid
    ensures var z := Run(r, calls); z.positive == z.paid && AllSound(z.h)
    decreases |calls|
  {
    hide SumSeq, Book;
    if calls == [] {
    } else {
      if Accepted(calls[0]) {
        AddOrderKeepsSummary(r.s, r.h, r.paid, calls[0]);
        PaidNonNegative(r.s, r.h, r.paid, calls[0]);
      }
      NothingNegative(Apply(r, calls[0]), calls[1..]);
    }
  }

  // The issuance bound: from an empty role manager, on runs of sound orders, the pledge pool
  // never receives more than twice what the orders pay altogether.
  lemma IssuanceBound(now: int, calls: seq<Call>)
    requires var r := Outcome(NewIssue(now), [], 0, 0, 0);
      OnTime(r, calls) && SoundRun(r, calls)
    ensures var z := Run(Outcome(NewIssue(now), [], 0, 0, 0), calls);
      && z.paid <= z.rewards <= 2 * z.paid
      && z.rewards <= 2 * z.s.totalPay
  {
    hide Run;
    var r := Outcome(NewIssue(now), [], 0, 0, 0);
    NewIsSummary(now);
    IssuanceIsIntegral(r, calls);
    NothingNegative(r, calls);
    RewardsFollowPaid(r, calls);
    var z := Run(r, calls);
    PaidAtMostTotalPay(z.s, z.h, z.paid);
  }
}
