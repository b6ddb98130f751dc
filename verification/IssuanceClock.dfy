// How far issuance has come: each call makes up at most a day, so that after a pause several
// calls are needed until everything up to the clock has been issued.
module IssuanceClock {
  import opened Types
  import opened Sums
  import opened Issuance

  // A call moves the issuance time up to its clock, but by a day at most, and so it does for
  // the booking time of its order. A clock in the past counts as a full day.
  lemma CallMovesClock(s: Issue, c: Call)
    ensures var z := AddOrder(s, c);
      && z.lastMint == (if c.now < s.lastMint then s.lastMint + 86400 else Min(c.now, s.lastMint + 86400))
      && OrderOf(s, c).booked == z.lastMint
  {
    hide Book;
  }

  // How many calls of a run are accepted.
  function Orders(calls: seq<Call>): nat {
    if calls == [] then 0 else (if Accepted(calls[0]) then 1 else 0) + Orders(calls[1..])
  }

  ghost predicate AllAt(calls: seq<Call>, now: int) {
    forall c :: c in calls ==> c.now == now
  }

  lemma {:induction false} ClockCatchesUp(r: Outcome, calls: seq<Call>, now: int)
    requires r.s.lastMint <= now && AllAt(calls, now)
    ensures Run(r, calls).s.lastMint == Min(now, r.s.lastMint + 86400 * Orders(calls))
    decreases |calls|
  {
    hide Book;
    if calls == [] {
    } else {
      CallMovesClock(r.s, calls[0]);
      ClockCatchesUp(Apply(r, calls[0]), calls[1..], now);
    }
  }

  // Catching up: orders that come at one time bring issuance to that time if and only if there
  // are as many of them as days, begun ones included, have passed since the last one. Then
  // everything reported is the integral up to that time; before, it is the integral up to as
  // many days after the last issuance.
  lemma CatchUp(r: Outcome, calls: seq<Call>, now: int)
    requires Summary(r.s, r.h, r.paid) && OnTime(r, calls)
    requires r.s.lastMint <= now && AllAt(calls, now)
    ensures var z := Run(r, calls);
      var reached := Min(now, r.s.lastMint + 86400 * Orders(calls));
      && z.s.lastMint == reached
      && z.paid == SumSeq(z.h, Integral(reached))
      && (reached == now <==> (now - r.s.lastMint + 86399) / 86400 <= Orders(calls))
  {
    hide Run, SumSeq;
    ClockCatchesUp(r, calls, now);
    IssuanceIsIntegral(r, calls);
  }

  // The clocks of the calls do not fall, and no two neighbours, the last issuance included, are
  // more than a day apart.
  ghost predicate Daily(last: int, calls: seq<Call>)
    decreases |calls|
  {
    calls == [] || (last <= calls[0].now <= last + 86400 && Accepted(calls[0]) && Daily(calls[0].now, calls[1..]))
  }

  // With an order at least once a day issuance is never late: what was reported is the integral
  // up to the last order.
  lemma {:induction false} DailyIsPunctual(r: Outcome, calls: seq<Call>)
    requires Summary(r.s, r.h, r.paid) && OnTime(r, calls) && Daily(r.s.lastMint, calls) && calls != []
    ensures var z, now := Run(r, calls), calls[|calls| - 1].now;
      z.s.lastMint == now && z.paid == SumSeq(z.h, Integral(now))
    decreases |calls|
  {
    hide SumSeq, Book, Summary, AddOrder;
    CallMovesClock(r.s, calls[0]);
    var next := Apply(r, calls[0]);
    AddOrderKeepsSummary(r.s, r.h, r.paid, calls[0]);
    if |calls| == 1 {
      assert Run(next, []) == next;
      IssuanceIsIntegral(next, []);
    } else {
      DailyIsPunctual(next, calls[1..]);
    }
  }
}
