/**
 * The dashboard's staffing figure in the products section: it starts at 80
 * and, every two seconds while the section is in view, moves by a random
 * step of at most two points and is then clamped to [70, 90]. The two
 * `Math.random()` draws of one update are parameters in [0, 1).
 */
module Products {
  import opened Arith

  const Low: int := 70
  const High: int := 90
  const InitialPercentage: int := 80

  /** `Math.min(Math.max(v, lo), hi)`. */
  function Clamp(v: int, lo: int, hi: int): (r: int)
    requires lo <= hi
    ensures lo <= r <= hi
    ensures lo <= v <= hi ==> r == v
    ensures v < lo ==> r == lo
    ensures v > hi ==> r == hi
  {
    Min(Max(v, lo), hi)
  }

  /** Clamping is idempotent. */
  lemma ClampIdempotent(v: int, lo: int, hi: int)
    requires lo <= hi
    ensures Clamp(Clamp(v, lo, hi), lo, hi) == Clamp(v, lo, hi)
  {
  }

  /** A draw from `Math.random()`. */
  predicate IsDraw(r: real) {
    0.0 <= r < 1.0
  }

  /**
   * `(coin > 0.5 ? 1 : -1) * Math.floor(roll * 3)`: a sign and a magnitude in
   * {0, 1, 2}, drawn in that order.
   */
  function Delta(coin: real, roll: real): (d: int)
    requires IsDraw(coin) && IsDraw(roll)
    ensures -2 <= d <= 2
    ensures coin > 0.5 ==> d >= 0
    ensures coin <= 0.5 ==> d <= 0
  {
    var k := (roll * 3.0).Floor;
    assert 0 <= k <= 2;
    (if coin > 0.5 then 1 else -1) * k
  }

  /** One update of the figure. */
  function Update(prev: int, coin: real, roll: real): (next: int)
    requires IsDraw(coin) && IsDraw(roll)
    ensures Low <= next <= High
    ensures Low <= prev <= High ==> -2 <= next - prev <= 2
  {
    Clamp(prev + Delta(coin, roll), Low, High)
  }

  /** Every magnitude and both signs can be drawn: the steps are exactly {-2, ..., 2}. */
  lemma EveryStepDrawable(d: int)
    requires -2 <= d <= 2
    ensures exists coin: real, roll: real :: IsDraw(coin) && IsDraw(roll) && Delta(coin, roll) == d
  {
    var coin := if d >= 0 then 0.75 else 0.25;
    var k := if d >= 0 then d else -d;
    var roll := k as real / 3.0;
    assert (roll * 3.0).Floor == k;
    assert Delta(coin, roll) == d;
  }

  /** Successive pairs of draws, one pair per update. */
  predicate AllDraws(draws: seq<(real, real)>) {
    forall k :: 0 <= k < |draws| ==> IsDraw(draws[k].0) && IsDraw(draws[k].1)
  }

  /** The figure after a sequence of updates. */
  function Walk(start: int, draws: seq<(real, real)>): (v: int)
    requires AllDraws(draws)
    ensures draws != [] ==> Low <= v <= High
    decreases |draws|
  {
    if draws == [] then start else Walk(Update(start, draws[0].0, draws[0].1), draws[1..])
  }

  /** From a value in range, `n` updates stay in range and drift at most `2 * n` points. */
  lemma {:induction false} WalkDrift(start: int, draws: seq<(real, real)>)
    requires AllDraws(draws) && Low <= start <= High
    ensures Low <= Walk(start, draws) <= High
    ensures -2 * |draws| <= Walk(start, draws) - start <= 2 * |draws|
    decreases |draws|
  {
    if draws != [] {
      var next := Update(start, draws[0].0, draws[0].1);
      WalkDrift(next, draws[1..]);
    }
  }

  /** The `staffingPercentage` state. */
  class StaffingGauge {
    var percentage: int

    ghost predicate Valid()
      reads this
    {
      Low <= percentage <= High
    }

    /** `useState(80)`. */
    constructor ()
      ensures Valid() && percentage == InitialPercentage
    {
      percentage := InitialPercentage;
    }

    /** One firing of the two-second interval. */
    method Tick(coin: real, roll: real)
      requires Valid() && IsDraw(coin) && IsDraw(roll)
      modifies this
      ensures Valid() && percentage == Update(old(percentage), coin, roll)
      ensures -2 <= percentage - old(percentage) <= 2
    {
      var newValue := percentage + (if coin > 0.5 then 1 else -1) * (roll * 3.0).Floor;
      percentage := Min(Max(newValue, Low), High);
    }
  }
}
