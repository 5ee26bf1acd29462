// Weighted time: calc_delta_mine with its cached inverse weight, and the slices
// that a flat queue hands out (backup/fair_mp.c, 175-228, 626-665).
//
// 64-bit build, SCHED_LOAD_RESOLUTION 0. R is WMULT_CONST.

module WeightedTime {
  import opened Common
  import opened Words

  const R: int := 0x1_0000_0000
  const LONG_MAX: int := 0x7FFF_FFFF_FFFF_FFFF

  /** SRR(x, 16) and SRR(x, 32) on a u64 */
  function Round16(x: nat): nat {
    Wrap(x + 0x8000) / 0x1_0000
  }

  function Round32(x: nat): nat {
    Wrap(x + 0x8000_0000) / R
  }

  /** The inverse that calc_delta_mine computes when none is cached. */
  function Inverse(w: nat): nat {
    if w >= R then 1 else if w == 0 then R else R / w
  }

  /** calc_delta_mine from tmp on, with the given inverse */
  function Scale(tmp: nat, inv: nat): nat {
    Min(if tmp > R then Round16(Wrap(Round16(tmp) * inv)) else Round32(Wrap(tmp * inv)), LONG_MAX)
  }

  /** delta_exec * weight, where a weight up to 1 counts as 1 */
  function Weighted(delta: nat, weight: nat): nat {
    Wrap(if weight > 1 then delta * weight else delta)
  }

  // ----------------------------------------------------------------- accuracy

  /** res is within tmp/2^32 + 2^15/w + 1 of tmp/w, all multiplied by w * 2^32. */
  predicate Near(res: int, tmp: int, w: int) {
    -(tmp * w + (0x8000 + w) * R) <= (res * w - tmp) * R <= tmp * w + (0x8000 + w) * R
  }

  lemma InverseError(res: nat, tmp: nat, w: nat, inv: nat)
    requires inv * w <= R
    ensures (res * w - tmp) * R == (res * R - tmp * inv) * w - tmp * (R - inv * w)
  {
    assert (res * R - tmp * inv) * w == res * R * w - tmp * inv * w;
    assert tmp * (R - inv * w) == tmp * R - tmp * (inv * w);
    assert tmp * inv * w == tmp * (inv * w);
  }

  lemma BoundTimes(inv: nat, w: nat)
    ensures (0x8000_0000 + 0x8000 * inv) * w == 0x8000_0000 * w + 0x8000 * (inv * w)
  {
  }

  /** The two errors added up: that of the approximation and that of the inverse. */
  lemma ErrorsAdd(error: int, rounding: int, bound: int, rest: int, whole: int, tmpw: int, w: int)
    requires error == rounding - rest && -bound <= rounding <= bound
    requires bound == 0x8000_0000 * w + 0x8000 * whole && whole <= R && 0 <= rest <= tmpw && 0 < w
    ensures -(tmpw + (0x8000 + w) * R) <= error <= tmpw + (0x8000 + w) * R
  {
  }

  /** An approximation of tmp * inv / 2^32 that is off by at most half of one and
      2^15 inverses is near tmp / w. */
  lemma NearFromInverse(res: nat, tmp: nat, w: nat, inv: nat)
    requires 0 < w && R - w < inv * w <= R
    requires -(0x8000_0000 + 0x8000 * inv) <= res * R - tmp * inv <= 0x8000_0000 + 0x8000 * inv
    ensures Near(res, tmp, w)
  {
    var off, bound, rest := res * R - tmp * inv, 0x8000_0000 + 0x8000 * inv, R - inv * w;
    Times(off, bound, w);
    InverseError(res, tmp, w, inv);
    Product(tmp, rest, tmp, w);
    BoundTimes(inv, w);
    ErrorsAdd((res * w - tmp) * R, off * w, bound * w, tmp * rest, inv * w, tmp * w, w);
  }

  lemma Times(off: int, bound: nat, w: nat)
    requires off <= bound && 0 <= off + bound
    ensures off * w <= bound * w && 0 <= (off + bound) * w == off * w + bound * w
  {
  }

  lemma QuotientFits(n: nat, w: nat)
    requires w > 0
    ensures n - w < n / w * w <= n
  {
    assert n == n / w * w + n % w;
  }

  /** The inverse is 2^32 / w rounded down, but never 0; no weight counts as one. */
  lemma InverseRounds(w: nat)
    ensures var v := Max(w, 1);
            if v > R then Inverse(w) == 1 else Inverse(w) * v <= R < (Inverse(w) + 1) * v
  {
    if 0 < w < R { assert R == R / w * w + R % w; }
  }

  lemma InverseFits(w: nat)
    requires 2 <= w < R
    ensures R - w < Inverse(w) * w <= R && 1 <= Inverse(w) <= R / 2
  {
    var inv := Inverse(w);
    QuotientFits(R, w);
    Product(inv, 2, inv, w);
  }

  lemma LowScale(tmp: nat, inv: nat)
    requires tmp <= R && inv <= 0x8000_0000
    ensures 0 <= Scale(tmp, inv) * R - tmp * inv + 0x8000_0000 <= R
  {
    Product(tmp, inv, R, 0x8000_0000);
    LowRound(tmp * inv);
  }

  lemma LowRound(m: nat)
    requires m <= R * 0x8000_0000
    ensures 0 <= Min(Round32(Wrap(m)), LONG_MAX) * R - m + 0x8000_0000 <= R
  {
  }

  /** The product of the low branch always stays below 2^64. */
  lemma LowBranch(tmp: nat, w: nat, inv: nat)
    requires 0 < w && tmp <= R && R - w < inv * w <= R && inv <= 0x8000_0000
    ensures Near(Scale(tmp, inv), tmp, w)
  {
    LowScale(tmp, inv);
    NearFromInverse(Scale(tmp, inv), tmp, w, inv);
  }

  /** The high branch before any wrap-around. */
  function Plain(tmp: nat, inv: nat): nat {
    (Round16(tmp) * inv + 0x8000) / 0x1_0000
  }

  lemma PlainNear(tmp: nat, w: nat, inv: nat)
    requires 0 < w && tmp + 0x8000 < U64 && R - w < inv * w <= R
    ensures Near(Plain(tmp, inv), tmp, w)
  {
    var t := Round16(tmp);
    Times(t * 0x1_0000 - tmp, 0x8000, inv);
    assert (t * 0x1_0000 - tmp) * inv == t * inv * 0x1_0000 - tmp * inv;
    NearFromInverse(Plain(tmp, inv), tmp, w, inv);
  }

  lemma HighScale(tmp: nat, inv: nat, m: nat)
    requires tmp > R && m == Round16(tmp) * inv
    ensures (m + 0x8000 < U64 ==> Scale(tmp, inv) == Plain(tmp, inv))
    ensures Scale(tmp, inv) < 0x1_0000_0000_0000
    ensures (m + 0x8000 >= U64 ==> Plain(tmp, inv) - Scale(tmp, inv) >= 0x1_0000_0000_0000)
  {
  }

  /** Nothing wraps on the way through the high branch. */
  predicate Fits(tmp: nat, w: nat) {
    tmp <= R || (tmp + 0x8000 < U64 && Round16(tmp) * Inverse(w) + 0x8000 < U64)
  }

  lemma LostMultiple(res: nat, plain: nat, tmp: nat, w: nat)
    requires 1 <= w && tmp < U64 && Near(plain, tmp, w) && plain - res >= 0x1_0000_0000_0000
    ensures !Near(res, tmp, w)
  {
    var d: nat := plain - res;
    Product(0x1_0000_0000_0000, w, d, w);
    Product(tmp, w, U64, w);
    assert (res * w - tmp) * R == (plain * w - tmp) * R - d * w * R by {
      assert res * w == plain * w - d * w;
    }
  }

  /** At the very top the rounding of tmp itself wraps, and the result is 0. */
  lemma TopIsZero(tmp: nat, inv: nat)
    requires U64 - 0x8000 <= tmp < U64
    ensures Scale(tmp, inv) == 0
  {
    assert Round16(tmp) == 0;
    assert Wrap(0 * inv) == 0;
  }

  /** Zero is near such a tmp for the largest divisor only. */
  lemma ZeroNear(tmp: nat, w: nat)
    requires U64 - 0x8000 <= tmp < U64 && w < R
    ensures Near(0, tmp, w) <==> w == R - 1
  {
    assert Near(0, tmp, w) <==> tmp * R <= tmp * w + (0x8000 + w) * R;
    assert tmp * R == tmp * w + tmp * (R - w) by {
      assert R == w + (R - w);
    }
    if w < R - 1 {
      Product(2, tmp, R - w, tmp);
    }
  }

  lemma HighBranch(tmp: nat, w: nat, inv: nat)
    requires 0 < w && R < tmp < U64 - 0x8000 && R - w < inv * w <= R
    ensures Near(Scale(tmp, inv), tmp, w) <==> Round16(tmp) * inv + 0x8000 < U64
  {
    PlainNear(tmp, w, inv);
    HighScale(tmp, inv, Round16(tmp) * inv);
    if Round16(tmp) * inv + 0x8000 >= U64 {
      LostMultiple(Scale(tmp, inv), Plain(tmp, inv), tmp, w);
    }
  }

  lemma TopBranch(tmp: nat, w: nat, inv: nat)
    requires U64 - 0x8000 <= tmp < U64 && w < R
    ensures Near(Scale(tmp, inv), tmp, w) <==> w == R - 1
  {
    TopIsZero(tmp, inv);
    ZeroNear(tmp, w);
  }

  /** calc_delta_mine with a fresh inverse is within tmp/2^32 + 2^15/w + 1 of the
      exact quotient, exactly when nothing wraps; or, by luck, for the largest
      weight if tmp is within 2^15 of 2^64. */
  lemma ScaleAccurate(tmp: nat, w: nat)
    requires 2 <= w < R && tmp < U64
    ensures Near(Scale(tmp, Inverse(w)), tmp, w) <==> Fits(tmp, w) || (tmp >= U64 - 0x8000 && w == R - 1)
  {
    InverseFits(w);
    if tmp <= R {
      LowBranch(tmp, w, Inverse(w));
    } else if tmp < U64 - 0x8000 {
      HighBranch(tmp, w, Inverse(w));
    } else {
      TopBranch(tmp, w, Inverse(w));
    }
  }

  // ------------------------------------------------------------------- slices

  /** calc_delta_mine */
  function CalcDelta(delta: nat, weight: nat, w: nat): nat {
    Scale(Weighted(delta, weight), Inverse(w))
  }

  function Sum(ws: seq<nat>): nat {
    if ws == [] then 0 else ws[0] + Sum(ws[1..])
  }

  /** sched_slice for every entity of a flat queue of total weight w */
  function Slices(period: nat, ws: seq<nat>, w: nat): nat {
    if ws == [] then 0 else CalcDelta(period, ws[0], w) + Slices(period, ws[1..], w)
  }

  /** No product on the way to a slice wraps. */
  predicate SliceFits(period: nat, weight: nat, w: nat) {
    weight >= 2 && period * weight < U64 && Fits(period * weight, w)
  }

  /** total is within n single errors of share / w. */
  predicate NearSum(total: int, share: int, n: int, w: int) {
    -(share * w + n * ((0x8000 + w) * R)) <= (total * w - share) * R <= share * w + n * ((0x8000 + w) * R)
  }

  lemma Distribute(a: int, b: int, c: int)
    ensures (a + b) * c == a * c + b * c
  {
  }

  lemma AddNear(total: nat, share: nat, n: nat, w: nat, res: nat, tmp: nat)
    requires NearSum(total, share, n, w) && Near(res, tmp, w)
    ensures NearSum(res + total, tmp + share, n + 1, w)
  {
    Distribute(res, total, w);
    Distribute(tmp, share, w);
    Distribute(n, 1, (0x8000 + w) * R);
  }

  function Shares(period: nat, ws: seq<nat>): nat {
    if ws == [] then 0 else period * ws[0] + Shares(period, ws[1..])
  }

  lemma {:induction false} SharesAreSum(period: nat, ws: seq<nat>)
    ensures Shares(period, ws) == period * Sum(ws)
  {
    if ws != [] {
      SharesAreSum(period, ws[1..]);
      Distribute(ws[0], Sum(ws[1..]), period);
    }
  }

  lemma {:induction false} SlicesNear(period: nat, ws: seq<nat>, w: nat)
    requires 2 <= w < R && forall i :: 0 <= i < |ws| ==> SliceFits(period, ws[i], w)
    ensures NearSum(Slices(period, ws, w), Shares(period, ws), |ws|, w)
  {
    if ws != [] {
      SlicesNear(period, ws[1..], w);
      ScaleAccurate(period * ws[0], w);
      AddNear(Slices(period, ws[1..], w), Shares(period, ws[1..]), |ws| - 1, w, CalcDelta(period, ws[0], w), period * ws[0]);
    }
  }

  /** The slices of a flat queue add up to the period, give or take
      period * w / 2^32 + n * (2^15 / w + 1). */
  lemma SlicesFillPeriod(period: nat, ws: seq<nat>)
    requires 2 <= Sum(ws) < R && forall i :: 0 <= i < |ws| ==> SliceFits(period, ws[i], Sum(ws))
    ensures NearSum(Slices(period, ws, Sum(ws)), period * Sum(ws), |ws|, Sum(ws))
  {
    SlicesNear(period, ws, Sum(ws));
    SharesAreSum(period, ws);
  }

  // -------------------------------------------------------- the cached inverse

  /** struct load_weight; inverse 0 means that none is cached */
  class LoadWeight {
    var weight: nat
    var inverse: nat

    ghost predicate Valid()
      reads this
    {
      inverse == 0 || inverse == Inverse(weight)
    }

    constructor (w: nat)
      ensures Valid() && weight == w
    {
      weight, inverse := w, 0;
    }

    /** update_load_add */
    method Add(w: nat)
      modifies this
      ensures Valid() && weight == old(weight) + w
    {
      weight, inverse := weight + w, 0;
    }

    /** update_load_sub */
    method Sub(w: nat)
      requires w <= weight
      modifies this
      ensures Valid() && weight == old(weight) - w
    {
      weight, inverse := weight - w, 0;
    }

    /** calc_delta_mine: a cached inverse gives what a fresh one would */
    method CalcDeltaMine(delta: nat, w: nat) returns (r: nat)
      requires Valid()
      modifies this`inverse
      ensures Valid() && r == CalcDelta(delta, w, weight)
      ensures 2 <= weight < R && SliceFits(delta, w, weight) ==> Near(r, delta * w, weight)
    {
      var tmp: nat := if w > 1 then Wrap(delta * w) else Wrap(delta);
      if inverse == 0 {
        if weight >= R {
          inverse := 1;
        } else if weight == 0 {
          inverse := R;
        } else {
          inverse := R / weight;
        }
      }
      if 2 <= weight < R && SliceFits(delta, w, weight) { ScaleAccurate(delta * w, weight); }
      r := Scale(tmp, inverse);
    }
  }
}
