/** Expected value and edge of a game between a player order and a host
    order.

    Both the host and the player draw a raw value from [0, bound), every
    pair equally likely. The player wins the pair when the rank of their
    value is not below the rank of the host's value, and is then paid the
    weight of their value. The expected value is the average payout over the
    bound × bound grid; the edge over several rounds is one minus the chance
    of winning them all when the expected value is read as a probability. */
module Expectation {
  import opened Orders

  /** The payout of one (host value `h`, player value `x`) pair, each pair
      having probability `share`. A pair with a value missing from its order
      pays nothing here; the operation itself stops with an error before
      such a pair is reached. */
  function Gain(player: Order, host: Order, weight: int -> real, share: real, h: int, x: int): real
  {
    match (GetHeight(player, x), GetHeight(host, h))
    case (Ok(hp), Ok(hh)) => if hp < hh then 0.0 else share * weight(x)
    case _ => 0.0
  }

  /** The payouts of all pairs, as a function of (host value, player value). */
  function Gains(player: Order, host: Order, weight: int -> real, share: real): (int, int) -> real
  {
    (h: int, x: int) => Gain(player, host, weight, share, h, x)
  }

  /** `f(h, x)` summed over the player values x in [0, n). */
  function RowSum(f: (int, int) -> real, h: int, n: nat): real
  {
    if n == 0 then 0.0 else RowSum(f, h, n - 1) + f(h, n - 1)
  }

  /** `f` summed over the host values [0, m) and player values [0, n), row
      by row as the nested loop visits them. */
  function GridSum(f: (int, int) -> real, m: nat, n: nat): real
  {
    if m == 0 then 0.0 else GridSum(f, m - 1, n) + RowSum(f, m - 1, n)
  }

  /** `f(h, x)` summed over the host values h in [0, m). */
  function ColumnSum(f: (int, int) -> real, x: int, m: nat): real
  {
    if m == 0 then 0.0 else ColumnSum(f, x, m - 1) + f(m - 1, x)
  }

  /** The same grid summed column by column: player value first. */
  function GridByColumns(f: (int, int) -> real, m: nat, n: nat): real
  {
    if n == 0 then 0.0 else GridByColumns(f, m, n - 1) + ColumnSum(f, n - 1, m)
  }

  /** The probability of one pair of the bound × bound grid. calculator.js
      divides by zero for an empty grid, but then runs no iteration. */
  function PairShare(bound: nat): real
  {
    if bound == 0 then 0.0 else 1.0 / ((bound * bound) as real)
  }

  /** The exact expected value: every winning pair pays its weight times
      the probability of the pair. */
  function EV(player: Order, host: Order, weight: int -> real, bound: nat): real
  {
    GridSum(Gains(player, host, weight, PairShare(bound)), bound, bound)
  }

  /** The least value of [0, ..) that `order` does not rank. */
  ghost predicate LeastUnranked(order: Order, v: int)
  {
    0 <= v && GetHeight(order, v).NotRanked? && RankedBelow(order, v)
  }

  /** The nested loop of calculator.js and calc.py: host value outside,
      player value inside, a pair skipped when the player's rank is below
      the host's, and `weight(player) / bound²` added otherwise. The first
      rank lookup that fails ends the computation. */
  method GetEV(player: Order, host: Order, weight: int -> real, bound: nat) returns (r: Result<real>)
    ensures r.Ok? <==> RankedBelow(player, bound) && RankedBelow(host, bound)
    ensures r.Ok? ==> r.value == EV(player, host, weight, bound)
    ensures r.NotRanked? ==> r.missing < bound && (LeastUnranked(player, r.missing) || LeastUnranked(host, r.missing))
  {
    var ev := 0.0;
    var p := PairShare(bound);
    ghost var gains := Gains(player, host, weight, p);
    for hostNum := 0 to bound
      invariant RankedBelow(host, hostNum)
      invariant hostNum > 0 ==> RankedBelow(player, bound)
      invariant ev == GridSum(gains, hostNum, bound)
    {
      for playerNum := 0 to bound
        invariant RankedBelow(player, playerNum)
        invariant playerNum > 0 ==> GetHeight(host, hostNum).Ok?
        invariant ev == GridSum(gains, hostNum, bound) + RowSum(gains, hostNum, playerNum)
      {
        var playerHeight := GetHeight(player, playerNum);
        if playerHeight.NotRanked? {
          return NotRanked(playerNum);
        }
        var hostHeight := GetHeight(host, hostNum);
        if hostHeight.NotRanked? {
          return NotRanked(hostNum);
        }
        GainValue(player, host, weight, p, hostNum, playerNum, playerHeight.value, hostHeight.value);
        if playerHeight.value < hostHeight.value {
          continue;
        }
        ev := ev + p * weight(playerNum);
      }
    }
    r := Ok(ev);
  }

  /** The payout of a pair whose two values are ranked. */
  lemma GainValue(player: Order, host: Order, weight: int -> real, share: real, h: int, x: int, hp: nat, hh: nat)
    requires GetHeight(player, x) == Ok(hp) && GetHeight(host, h) == Ok(hh)
    ensures Gains(player, host, weight, share)(h, x) == if hp < hh then 0.0 else share * weight(x)
  {
  }

  // ---------------------------------------------------------------------
  // The expected value as an average

  lemma {:induction false} RowSumScale(f: (int, int) -> real, g: (int, int) -> real, share: real, h: int, n: nat)
    requires forall h', x :: g(h', x) == share * f(h', x)
    ensures RowSum(g, h, n) == share * RowSum(f, h, n)
  {
    if n > 0 {
      RowSumScale(f, g, share, h, n - 1);
      Distribute(share, RowSum(f, h, n - 1), f(h, n - 1));
    }
  }

  lemma {:induction false} GridSumScale(f: (int, int) -> real, g: (int, int) -> real, share: real, m: nat, n: nat)
    requires forall h, x :: g(h, x) == share * f(h, x)
    ensures GridSum(g, m, n) == share * GridSum(f, m, n)
  {
    if m > 0 {
      GridSumScale(f, g, share, m - 1, n);
      RowSumScale(f, g, share, m - 1, n);
      Distribute(share, GridSum(f, m - 1, n), RowSum(f, m - 1, n));
    }
  }

  lemma Distribute(a: real, b: real, c: real)
    ensures a * (b + c) == a * b + a * c
  {
  }

  /** The expected value is the total weight of the winning pairs divided
      by the number of pairs. */
  lemma EVAverage(player: Order, host: Order, weight: int -> real, bound: nat)
    requires bound > 0
    ensures EV(player, host, weight, bound) == GridSum(Gains(player, host, weight, 1.0), bound, bound) / ((bound * bound) as real)
  {
    var share := PairShare(bound);
    var f := Gains(player, host, weight, 1.0);
    var g := Gains(player, host, weight, share);
    forall h, x
      ensures g(h, x) == share * f(h, x)
    {
    }
    GridSumScale(f, g, share, bound, bound);
  }

  // ---------------------------------------------------------------------
  // Bounds

  /** With every entry of a row in [0, w] the first n sum to at most n·w. */
  lemma {:induction false} RowSumBounds(f: (int, int) -> real, h: int, n: nat, w: real)
    requires forall x :: 0 <= x < n ==> 0.0 <= f(h, x) <= w
    ensures 0.0 <= RowSum(f, h, n) <= (n as real) * w
  {
    if n > 0 {
      RowSumBounds(f, h, n - 1, w);
      StepBound(n - 1, w, RowSum(f, h, n - 1), f(h, n - 1));
    }
  }

  /** With every row in [0, c] the first m rows sum to at most m·c. */
  lemma {:induction false} GridSumBounds(f: (int, int) -> real, m: nat, n: nat, w: real)
    requires forall h, x :: 0 <= h < m && 0 <= x < n ==> 0.0 <= f(h, x) <= w
    ensures 0.0 <= GridSum(f, m, n) <= (m as real) * ((n as real) * w)
  {
    if m > 0 {
      GridSumBounds(f, m - 1, n, w);
      RowSumBounds(f, m - 1, n, w);
      StepBound(m - 1, (n as real) * w, GridSum(f, m - 1, n), RowSum(f, m - 1, n));
    }
  }

  lemma StepBound(k: nat, c: real, a: real, b: real)
    requires 0.0 <= a <= (k as real) * c
    requires 0.0 <= b <= c
    ensures 0.0 <= a + b <= ((k + 1) as real) * c
  {
    assert (k as real) * c + c == ((k + 1) as real) * c;
  }

  /** With every weight in [0, w] the expected value lies in [0, w]. */
  lemma EVBounds(player: Order, host: Order, weight: int -> real, bound: nat, w: real)
    requires forall x :: 0 <= x < bound ==> 0.0 <= weight(x) <= w
    requires 0.0 <= w
    ensures 0.0 <= EV(player, host, weight, bound) <= w
  {
    if bound > 0 {
      var f := Gains(player, host, weight, 1.0);
      forall h, x | 0 <= h < bound && 0 <= x < bound
        ensures 0.0 <= f(h, x) <= w
      {
        assert 0.0 <= weight(x) <= w;
      }
      EVAverage(player, host, weight, bound);
      GridSumBounds(f, bound, bound, w);
      Average(GridSum(f, bound, bound), bound, w);
    }
  }

  /** A total of at most b·b·w over b·b pairs averages at most w. */
  lemma Average(g: real, b: nat, w: real)
    requires b > 0
    requires 0.0 <= g <= (b as real) * ((b as real) * w)
    ensures 0.0 <= g / ((b * b) as real) <= w
  {
    var d := (b * b) as real;
    assert (b as real) * ((b as real) * w) == d * w;
    assert g / d * d == g;
  }

  // ---------------------------------------------------------------------
  // Summing by columns

  /** Adding one more player value adds one column to the grid. */
  lemma {:induction false} GridSumAddColumn(f: (int, int) -> real, m: nat, n: nat)
    ensures GridSum(f, m, n + 1) == GridSum(f, m, n) + ColumnSum(f, n, m)
  {
    if m > 0 {
      GridSumAddColumn(f, m - 1, n);
    }
  }

  lemma {:induction false} GridSumEmptyRows(f: (int, int) -> real, m: nat)
    ensures GridSum(f, m, 0) == 0.0
  {
    if m > 0 {
      GridSumEmptyRows(f, m - 1);
    }
  }

  /** Summing the grid row by row or column by column gives the same
      total. */
  lemma {:induction false} GridSumByColumns(f: (int, int) -> real, m: nat, n: nat)
    ensures GridSum(f, m, n) == GridByColumns(f, m, n)
  {
    if n == 0 {
      GridSumEmptyRows(f, m);
    } else {
      GridSumByColumns(f, m, n - 1);
      GridSumAddColumn(f, m, n - 1);
    }
  }

  // ---------------------------------------------------------------------
  // Edge

  function Pow(x: real, n: nat): real
  {
    if n == 0 then 1.0 else x * Pow(x, n - 1)
  }

  lemma Shrink(x: real, a: real)
    requires 0.0 <= x <= 1.0 && 0.0 <= a
    ensures 0.0 <= x * a <= a
  {
    assert a - x * a == (1.0 - x) * a;
  }

  /** For a base in [0, 1] every power lies in [0, 1] and each extra
      factor can only shrink it. */
  lemma {:induction false} PowUnitInterval(x: real, n: nat)
    requires 0.0 <= x <= 1.0
    ensures 0.0 <= Pow(x, n) <= 1.0
    ensures n > 0 ==> Pow(x, n) <= Pow(x, n - 1)
  {
    if n > 0 {
      var a := Pow(x, n - 1);
      PowUnitInterval(x, n - 1);
      Shrink(x, a);
      assert Pow(x, n) == x * a;
    }
  }

  lemma {:induction false} PowOne(n: nat)
    ensures Pow(1.0, n) == 1.0
  {
    if n > 0 {
      PowOne(n - 1);
      assert Pow(1.0, n) == 1.0 * Pow(1.0, n - 1);
    }
  }

  /** The opponent's edge over `rounds` rounds. calculator.js uses
      `Math.pow`, calc.py `Decimal` powers; both are the exact power here. */
  function GetEdge(ev: real, rounds: nat): (r: real)
    ensures 0.0 <= ev <= 1.0 ==> 0.0 <= r <= 1.0
    ensures rounds == 0 ==> r == 0.0
    ensures ev == 1.0 ==> r == 0.0
    ensures ev == 0.0 && rounds > 0 ==> r == 1.0
  {
    var r := 1.0 - Pow(ev, rounds);
    assert 0.0 <= ev <= 1.0 ==> 0.0 <= r <= 1.0 by {
      if 0.0 <= ev <= 1.0 { PowUnitInterval(ev, rounds); }
    }
    assert ev == 1.0 ==> r == 0.0 by {
      if ev == 1.0 { PowOne(rounds); }
    }
    r
  }

  /** For a base in [0, 1] the power does not grow with the exponent. */
  lemma {:induction false} PowAntitone(x: real, n1: nat, n2: nat)
    requires 0.0 <= x <= 1.0
    requires n1 <= n2
    ensures Pow(x, n2) <= Pow(x, n1)
  {
    if n1 < n2 {
      PowAntitone(x, n1, n2 - 1);
      PowUnitInterval(x, n2);
    }
  }

  /** More rounds never lower the edge when the expected value is in [0, 1]. */
  lemma EdgeMonotone(ev: real, r1: nat, r2: nat)
    requires 0.0 <= ev <= 1.0
    requires r1 <= r2
    ensures GetEdge(ev, r1) <= GetEdge(ev, r2)
  {
    PowAntitone(ev, r1, r2);
  }
}
