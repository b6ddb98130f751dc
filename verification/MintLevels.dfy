// The reward level of issuance in closed form. The loop of the contract divides the space-time
// that it accumulates by the size of one level after the other, and keeps the quotient.
module MintLevels {
  import opened Types
  import opened Issuance

  // Levels 1 to 3 need 100 TiB, 1 PiB and 10 PiB for 100 days; they multiply by 1.2, 1.5 and 2.
  const PERCENT: seq<int> := [100, 120, 150, 200]
  const NEEDED_SIZE: seq<int> := [1, 109951162777600, 1125899906842624, 11258999068426240]
  const NEEDED_TIME: seq<int> := [1, 8640000, 8640000, 8640000]

  // The product of the sizes of the levels after from, up to level i; a level counts with the
  // stored size when that is larger.
  function SizesUpTo(from: nat, size: int, i: nat): (n: int)
    requires i < 4
    ensures 0 < n
    decreases i
  {
    if i <= from then 1
    else
      var m := SizesUpTo(from, size, i - 1);
      PositiveProduct(m, Max(NEEDED_SIZE[i], size));
      m * Max(NEEDED_SIZE[i], size)
  }

  lemma PositiveProduct(a: int, b: int)
    requires 0 < a && 0 < b
    ensures 0 < a * b
  {
  }

  // Enough space-time for level i, starting from level from.
  predicate Reaches(from: nat, spaceTime: int, size: int, i: nat)
    requires i < 4
  {
    NEEDED_TIME[i] * SizesUpTo(from, size, i) <= spaceTime
  }

  lemma LargeMultiple(d: int, x: int)
    requires 0 < d && x != 0
    ensures d * x <= -d || d <= d * x
  {
    if 1 <= x {
      assert d * 1 <= d * x;
    } else {
      assert d * x <= d * -1;
    }
  }

  lemma DivUnique(a: int, d: int, q: int, r: int)
    requires 0 < d && a == d * q + r && 0 <= r < d
    ensures a / d == q
  {
    var q2, r2 := a / d, a % d;
    Difference(d, q, q2);
    if q != q2 {
      LargeMultiple(d, q - q2);
    }
  }

  lemma Difference(d: int, q: int, q2: int)
    ensures d * (q - q2) == d * q - d * q2
  {
  }

  // Dividing twice is dividing by the product.
  lemma NestedDiv(a: int, b: int, c: int)
    requires 0 < b && 0 < c
    ensures 0 < b * c && a / b / c == a / (b * c)
  {
    var q, r := a / b, a % b;
    var q2, r2 := q / c, q % c;
    PositiveProduct(b, c);
    assert a == b * q + r && q == c * q2 + r2;
    assert b * (c * q2 + r2) == b * c * q2 + b * r2;
    RemainderFits(b, c, r, r2);
    DivUnique(a, b * c, q2, b * r2 + r);
  }

  lemma RemainderFits(b: int, c: int, r: int, r2: int)
    requires 0 <= r < b && 0 <= r2 < c
    ensures 0 <= b * r2 + r < b * c
  {
    assert b * r2 <= b * (c - 1);
  }

  lemma AtLeast(a: int, d: int, k: int)
    requires 0 < d
    ensures k <= a / d <==> k * d <= a
  {
    var q, r := a / d, a % d;
    assert a == d * q + r;
    if k <= q {
      assert d * k <= d * q;
    } else {
      assert d * (q + 1) <= d * k;
    }
  }

  // The table of the contract.
  lemma Table()
    ensures |MINT| == 4
    ensures forall i :: 0 <= i < 4 ==>
      MINT[i].ratio == PERCENT[i] && MINT[i].size == NEEDED_SIZE[i] && MINT[i].duration == NEEDED_TIME[i]
  {
  }

  // The levels after from that are reached one after the other, and what the loop leaves of the
  // space-time: the level that is missed has divided it, too.
  lemma {:induction false} LoopLevels(from: nat, level: nat, total: int, size: int, i: nat)
    requires from <= level && i == level + 1 && i <= 4
    ensures var st := total / SizesUpTo(from, size, level);
      var (l, left) := MintLoop(level, st, size, i);
      && level <= l < 4
      && (forall n :: level < n <= l ==> Reaches(from, total, size, n))
      && (l < 3 ==> !Reaches(from, total, size, l + 1))
      && left == total / SizesUpTo(from, size, Min(l + 1, 3))
    decreases 4 - i
  {
    Table();
    if i < 4 {
      var d, m := SizesUpTo(from, size, level), Max(NEEDED_SIZE[i], size);
      NestedDiv(total, d, m);
      assert SizesUpTo(from, size, i) == d * m;
      AtLeast(total, d * m, NEEDED_TIME[i]);
      LoopLevels(from, i, total, size, i + 1);
    }
  }

  // The level of a call: it rises, one level at a time, as far as the space-time of all orders
  // reaches, when something positive is due, and stays otherwise. The reward is the amount due
  // times the percentage of the level reached.
  lemma CallReachesLevel(s: Issue, c: Call)
    requires s.mintLevel < 4
    ensures var b := Book(s, c);
      var z := b.issue;
      var total := s.spaceTime + c.size * (c.end - c.start);
      && s.mintLevel <= z.mintLevel < 4
      && (b.paid <= 0 ==> z.mintLevel == s.mintLevel && z.spaceTime == total && b.reward == 0)
      && (0 < b.paid ==>
            && (forall n :: s.mintLevel < n <= z.mintLevel ==> Reaches(s.mintLevel, total, z.size, n))
            && (z.mintLevel < 3 ==> !Reaches(s.mintLevel, total, z.size, z.mintLevel + 1))
            && z.spaceTime == total / SizesUpTo(s.mintLevel, z.size, Min(z.mintLevel + 1, 3))
            && b.reward == b.paid * PERCENT[z.mintLevel] / 100)
  {
    hide PaidNow, MintLoop, Reaches, SizesUpTo;
    Table();
    var b := Book(s, c);
    var total := s.spaceTime + c.size * (c.end - c.start);
    if 0 < b.paid {
      NoSizesYet(s.mintLevel, b.issue.size);
      LoopLevels(s.mintLevel, s.mintLevel, total, b.issue.size, s.mintLevel + 1);
    }
  }

  lemma NoSizesYet(from: nat, size: int)
    requires from < 4
    ensures SizesUpTo(from, size, from) == 1
  {
  }
}
