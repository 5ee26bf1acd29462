// Per-entity load tracking: the geometric decay in fixed point, the update of a
// sched_avg, and what is read from it (backup/fair_mp.c, 1138-1221, 1334-1457,
// 1570-1583, 4031-4043).

module LoadAvg {
  import opened Common
  import TimeScale
  import opened Words

  const U32: int := 0x1_0000_0000

  function Wrap32(x: int): nat {
    if 0 <= x < U32 then x else x % U32
  }

  const LOAD_AVG_PERIOD: nat := 32
  const LOAD_AVG_MAX: nat := 47742
  const LOAD_AVG_MAX_N: nat := 345

  /** runnable_avg_yN_inv: 2^32 * y^n */
  const Y_INV: seq<nat> := [
    0xffffffff, 0xfa83b2da, 0xf5257d14, 0xefe4b99a, 0xeac0c6e6, 0xe5b906e6,
    0xe0ccdeeb, 0xdbfbb796, 0xd744fcc9, 0xd2a81d91, 0xce248c14, 0xc9b9bd85,
    0xc5672a10, 0xc12c4cc9, 0xbd08a39e, 0xb8fbaf46, 0xb504f333, 0xb123f581,
    0xad583ee9, 0xa9a15ab4, 0xa5fed6a9, 0xa2704302, 0x9ef5325f, 0x9b8d39b9,
    0x9837f050, 0x94f4efa8, 0x91c3d373, 0x8ea4398a, 0x8b95c1e3, 0x88980e80,
    0x85aac367, 0x82cd8698]

  /** runnable_avg_yN_sum: 1024 * (y + ... + y^n), rounded down */
  const Y_SUM: seq<nat> := [
    0, 1002, 1982, 2941, 3880, 4798, 5697, 6576, 7437, 8279, 9103,
    9909, 10698, 11470, 12226, 12966, 13690, 14398, 15091, 15769, 16433, 17082,
    17718, 18340, 18949, 19545, 20128, 20698, 21256, 21802, 22336, 22859, 23371]

  /** x >> k */
  function Shr(x: nat, k: nat): (r: nat)
    ensures r <= x
  {
    if k == 0 then x else Shr(x, k - 1) / 2
  }

  /** val * y^i for less than one half-life, on a u64 */
  function Weigh(val: nat, i: nat): nat {
    Wrap(val * Y_INV[i % LOAD_AVG_PERIOD]) / U32
  }

  /** decay_load for any weight of a part of a half-life. */
  function DecayWith(w: (nat, nat) -> nat, val: nat, n: nat): nat {
    if n == 0 then val
    else if n > LOAD_AVG_PERIOD * 63 then 0
    else w(Shr(val, n / LOAD_AVG_PERIOD), n % LOAD_AVG_PERIOD)
  }

  /** decay_load: val * y^n on a u64 */
  function DecayLoad(val: nat, n: nat): nat {
    DecayWith(Weigh, val, n)
  }

  // ------------------------------------------------- decay is a monotone weight

  lemma TableFalls(i: nat)
    requires i < 31
    ensures Y_INV[i + 1] < Y_INV[i] < U32
    ensures 0x8000_0000 < Y_INV[31]
  {
  }

  lemma TableBound(i: nat)
    ensures 0 < Y_INV[i % 32] < U32
  {
  }

  /** A u32 times a table entry fits a u64. */
  lemma WeighExact(v: nat, i: nat)
    requires v < U32
    ensures Weigh(v, i) == v * Y_INV[i % 32] / U32 <= v
  {
    TableBound(i);
    MulMono(v, U32 - 1, Y_INV[i % 32]);
    MulMono(Y_INV[i % 32], U32 - 1, U32 - 1);
    MulMono(Y_INV[i % 32], U32, v);
  }

  /** Scaling down by 2^32 keeps the order. */
  lemma ScaleMono(v: nat, w: nat, a: nat, b: nat)
    requires v <= w && a <= b
    ensures v * a / U32 <= w * b / U32
  {
    MulMono(v, w, a);
    MulMono(a, b, w);
    DivMono(v * a, w * b);
  }

  lemma DivMono(a: nat, b: nat)
    requires a <= b
    ensures a / U32 <= b / U32
  {
  }

  lemma WeighMono(v: nat, w: nat, i: nat)
    requires v <= w < U32
    ensures Weigh(v, i) <= Weigh(w, i)
  {
    WeighExact(v, i);
    WeighExact(w, i);
    ScaleMono(v, w, Y_INV[i % 32], Y_INV[i % 32]);
  }

  lemma TableFallsAt(i: nat)
    requires i < 31
    ensures Y_INV[(i + 1) % 32] <= Y_INV[i % 32]
  {
    TableFalls(i);
    assert i % 32 == i && (i + 1) % 32 == i + 1;
  }

  lemma WeighFalls(v: nat, i: nat)
    requires v < U32 && i < 31
    ensures Weigh(v, i + 1) <= Weigh(v, i)
  {
    TableFallsAt(i);
    WeighOrder(v, i + 1, i);
  }

  lemma WeighOrder(v: nat, i: nat, j: nat)
    requires v < U32 && Y_INV[i % 32] <= Y_INV[j % 32]
    ensures Weigh(v, i) <= Weigh(v, j)
  {
    WeighExact(v, i);
    WeighExact(v, j);
    ScaleMono(v, v, Y_INV[i % 32], Y_INV[j % 32]);
  }

  /** From the end of the table to its start, where the value is halved. */
  lemma WeighWraps(v: nat)
    requires v < U32
    ensures Weigh(v / 2, 0) <= Weigh(v, 31)
  {
    WeighExact(v, 31);
    WeighExact(v / 2, 0);
    HalfScale(v);
    ScaleMono(v, v, 0x8000_0000, Y_INV[31]);
  }

  lemma HalfScale(v: nat)
    ensures v / 2 * 0xffff_ffff / U32 <= v * 0x8000_0000 / U32
  {
    DivMono(v / 2 * 0xffff_ffff, v * 0x8000_0000);
  }

  lemma WeighSuper(v: nat, w: nat, i: nat)
    requires v + w < U32
    ensures Weigh(v, i) + Weigh(w, i) <= Weigh(v + w, i)
  {
    WeighExact(v, i);
    WeighExact(w, i);
    WeighExact(v + w, i);
    assert (v + w) * Y_INV[i % 32] == v * Y_INV[i % 32] + w * Y_INV[i % 32];
    DivSuper(v * Y_INV[i % 32], w * Y_INV[i % 32]);
  }

  lemma WeighTogether(v: nat, w: nat, x: nat, i: nat)
    requires v + w <= x < U32
    ensures Weigh(v, i) + Weigh(w, i) <= Weigh(x, i)
  {
    WeighSuper(v, w, i);
    WeighMono(v + w, x, i);
  }

  lemma DivSuper(a: nat, b: nat)
    ensures a / U32 + b / U32 <= (a + b) / U32
  {
  }

  lemma {:induction false} ShrMono(x: nat, y: nat, k: nat)
    requires x <= y
    ensures Shr(x, k) <= Shr(y, k)
  {
    if k > 0 { ShrMono(x, y, k - 1); }
  }

  lemma DecayMono(v: nat, w: nat, n: nat)
    requires v <= w < U32
    ensures DecayLoad(v, n) <= DecayLoad(w, n)
  {
    ShrMono(v, w, n / 32);
    WeighMono(Shr(v, n / 32), Shr(w, n / 32), n % 32);
  }

  /** One more period never weighs more, across the wrap of the table, the first
      step and the cut-off. */
  lemma DecayStep(v: nat, n: nat)
    requires v < U32
    ensures DecayLoad(v, n + 1) <= DecayLoad(v, n) <= v
  {
    var k, i := n / 32, n % 32;
    WeighExact(Shr(v, k), i);
    WeighExact(v, 1);
    if i < 31 {
      WeighFalls(Shr(v, k), i);
    } else {
      WeighWraps(Shr(v, k));
    }
    DecayStepWith(Weigh, v, n);
  }

  lemma DecayStepWith(w: (nat, nat) -> nat, v: nat, n: nat)
    requires w(v, 1) <= v && w(Shr(v, n / 32), n % 32) <= Shr(v, n / 32)
    requires n % 32 < 31 ==> w(Shr(v, n / 32), n % 32 + 1) <= w(Shr(v, n / 32), n % 32)
    requires n % 32 == 31 ==> w(Shr(v, n / 32) / 2, 0) <= w(Shr(v, n / 32), 31)
    ensures DecayWith(w, v, n + 1) <= DecayWith(w, v, n) <= v
  {
    DecayIndex(n);
    if n % 32 == 31 { assert Shr(v, n / 32 + 1) == Shr(v, n / 32) / 2; }
  }

  lemma DecayIndex(n: nat)
    ensures if n % 32 < 31 then (n + 1) / 32 == n / 32 && (n + 1) % 32 == n % 32 + 1
            else (n + 1) / 32 == n / 32 + 1 && (n + 1) % 32 == 0
  {
  }

  lemma {:induction false} AntitoneWith(d: (nat, nat) -> nat, v: nat, n: nat, m: nat)
    requires n <= m && forall i: nat :: d(v, i + 1) <= d(v, i) <= v
    ensures d(v, m) <= d(v, n) <= v
    decreases m - n
  {
    if n < m { AntitoneWith(d, v, n + 1, m); }
  }

  lemma DecayAntitone(v: nat, n: nat, m: nat)
    requires v < U32 && n <= m
    ensures DecayLoad(v, m) <= DecayLoad(v, n) <= v
  {
    forall i: nat ensures DecayLoad(v, i + 1) <= DecayLoad(v, i) <= v {
      DecayStep(v, i);
    }
    AntitoneWith(DecayLoad, v, n, m);
  }

  lemma ShrSuper(v: nat, w: nat, k: nat)
    requires k <= 1
    ensures Shr(v, k) + Shr(w, k) <= Shr(v + w, k)
  {
    if k == 1 {
      assert Shr(v, 1) == Shr(v, 0) / 2 && Shr(w, 1) == Shr(w, 0) / 2 && Shr(v + w, 1) == Shr(v + w, 0) / 2;
    }
  }

  /** Decaying two parts apart keeps no more than decaying them together. */
  lemma DecaySuper(v: nat, w: nat, n: nat)
    requires v + w < U32 && n <= 32
    ensures DecayLoad(v, n) + DecayLoad(w, n) <= DecayLoad(v + w, n)
  {
    var k, i := n / 32, n % 32;
    ShrSuper(v, w, k);
    WeighTogether(Shr(v, k), Shr(w, k), Shr(v + w, k), i);
    DecaySuperWith(Weigh, v, w, n);
  }

  lemma DecaySuperWith(w: (nat, nat) -> nat, a: nat, b: nat, n: nat)
    requires w(Shr(a, n / 32), n % 32) + w(Shr(b, n / 32), n % 32) <= w(Shr(a + b, n / 32), n % 32)
    ensures DecayWith(w, a, n) + DecayWith(w, b, n) <= DecayWith(w, a + b, n)
  {
  }

  // --------------------------------------------------- the sum over whole periods

  /** What k turns of the loop in __compute_runnable_contrib leave. */
  function Halves(k: nat): (c: nat)
    ensures c <= 46742
  {
    if k == 0 then 0 else Halves(k - 1) / 2 + 23371
  }

  /** __compute_runnable_contrib for any decay. */
  function ContribWith(d: (nat, nat) -> nat, n: nat): nat {
    if n <= LOAD_AVG_PERIOD then Y_SUM[n]
    else if n >= LOAD_AVG_MAX_N then LOAD_AVG_MAX
    else d(Halves((n - 1) / 32), (n - 1) % 32 + 1) + Y_SUM[(n - 1) % 32 + 1]
  }

  /** __compute_runnable_contrib: 1024 * (y + ... + y^n) */
  function Contrib(n: nat): nat {
    ContribWith(DecayLoad, n)
  }

  lemma SumTableBound(i: nat)
    requires i <= 32
    ensures Y_SUM[i] <= 23371
  {
  }

  /** The loop, in place on a u32. */
  method ComputeRunnableContrib(n: nat) returns (contrib: nat)
    ensures contrib == Contrib(n)
  {
    contrib := 0;
    if n <= LOAD_AVG_PERIOD {
      return Y_SUM[n];
    } else if n >= LOAD_AVG_MAX_N {
      return LOAD_AVG_MAX;
    }
    var left := n;
    ghost var k := 0;
    while left > LOAD_AVG_PERIOD
      invariant left >= 1 && n == left + 32 * k
      invariant contrib == Halves(k)
    {
      contrib := contrib / 2;
      contrib := Wrap32(contrib + 23371);
      left := left - LOAD_AVG_PERIOD;
      k := k + 1;
    }
    assert k == (n - 1) / 32 && left == (n - 1) % 32 + 1;
    DecayAntitone(contrib, 0, left);
    SumTableBound(left);
    contrib := DecayLoad(contrib, left);
    contrib := Wrap32(contrib + Y_SUM[left]);
  }

  lemma IndexOf(k: nat, r: nat)
    requires 1 <= r <= 32
    ensures (32 * k + r) / 32 == (if r < 32 then k else k + 1)
    ensures (32 * k + r) % 32 == (if r < 32 then r else 0)
  {
  }

  lemma DecayAt(w: (nat, nat) -> nat, v: nat, n: nat, k: nat, i: nat)
    requires 0 < n <= 2016 && n / 32 == k && n % 32 == i
    ensures DecayWith(w, v, n) == w(Shr(v, k), i)
  {
  }

  lemma ShrOnce(v: nat, k: nat)
    ensures Shr(Shr(v, k), 1) == Shr(v, k + 1)
  {
  }

  /** Whole half-lives can be taken out of a decay first. */
  lemma DecaySplit(w: (nat, nat) -> nat, v: nat, k: nat, r: nat)
    requires 1 <= r < 32 && 32 * k + r <= 2016
    ensures DecayWith(w, v, 32 * k + r) == DecayWith(w, Shr(v, k), r)
  {
    IndexOf(k, r);
    IndexOf(0, r);
    DecayAt(w, v, 32 * k + r, k, r);
    DecayAt(w, Shr(v, k), r, 0, r);
  }

  lemma DecaySplitWhole(w: (nat, nat) -> nat, v: nat, k: nat)
    requires 32 * k + 32 <= 2016
    ensures DecayWith(w, v, 32 * k + 32) == DecayWith(w, Shr(v, k), 32)
  {
    IndexOf(k, 32);
    ShrOnce(v, k);
    DecayAt(w, v, 32 * k + 32, k + 1, 0);
    DecayAt(w, Shr(v, k), 32, 1, 0);
  }

  // ------------------------------------------------------------- the numeric bound

  /** 48 * 1024: no period count is ever this large, and none is larger when it
      has been rounded up to a whole period. */
  const FULL: nat := 49152

  lemma HeadTable(n: nat)
    requires n <= 30
    ensures FULL * Y_INV[n + 1] / U32 + Y_SUM[n] <= 48128
  {
  }

  lemma TailTable(r: nat)
    requires 1 <= r < 32
    ensures 47947 * Y_INV[r] / U32 + Y_SUM[r] <= 48128
  {
  }

  lemma HeadFits(n: nat)
    requires n <= 30
    ensures DecayLoad(FULL, n + 1) + Y_SUM[n] <= 48128
  {
    DecayAt(Weigh, FULL, n + 1, 0, n + 1);
    WeighExact(FULL, n + 1);
    HeadTable(n);
  }

  lemma HeadFitsLast()
    ensures DecayLoad(FULL, 32) + Y_SUM[31] <= 48128
    ensures DecayLoad(FULL, 33) + Y_SUM[32] <= 48128
  {
    ShrOnce(FULL, 0);
    DecayAt(Weigh, FULL, 32, 1, 0);
    DecayAt(Weigh, FULL, 33, 1, 1);
    WeighExact(Shr(FULL, 1), 0);
    WeighExact(Shr(FULL, 1), 1);
  }

  lemma TailFits(r: nat)
    requires 1 <= r < 32
    ensures DecayLoad(47947, r) + Y_SUM[r] <= 48128
  {
    DecayAt(Weigh, 47947, r, 0, r);
    WeighExact(47947, r);
    TailTable(r);
  }

  lemma TailFitsLast()
    ensures DecayLoad(47947, 32) + Y_SUM[32] <= 48128
  {
    DecayAt(Weigh, 47947, 32, 1, 0);
    WeighExact(Shr(47947, 1), 0);
  }

  lemma MiddleFits(k: nat)
    requires 1 <= k <= 10
    ensures Halves(k) + Shr(FULL, k) <= 47947
  {
    assert Halves(1) == 23371 && Halves(2) == 35056 && Halves(3) == 40899 && Halves(4) == 43820 && Halves(5) == 45281;
    assert Halves(6) == 46011 && Halves(7) == 46376 && Halves(8) == 46559 && Halves(9) == 46650 && Halves(10) == 46696;
    assert Shr(FULL, 1) == 24576 && Shr(FULL, 2) == 12288 && Shr(FULL, 3) == 6144 && Shr(FULL, 4) == 3072;
    assert Shr(FULL, 5) == 1536 && Shr(FULL, 6) == 768 && Shr(FULL, 7) == 384 && Shr(FULL, 8) == 192;
    assert Shr(FULL, 9) == 96 && Shr(FULL, 10) == 48;
  }

  /** The old history and the new periods decay together, below the tail bound. */
  lemma MiddleJoin(k: nat, r: nat)
    requires 1 <= k <= 10 && 1 <= r <= 32
    ensures DecayLoad(Shr(FULL, k), r) + DecayLoad(Halves(k), r) <= DecayLoad(47947, r)
  {
    MiddleFits(k);
    DecaySuper(Shr(FULL, k), Halves(k), r);
    DecayMono(Shr(FULL, k) + Halves(k), 47947, r);
  }

  lemma MiddleRoll(k: nat, r: nat)
    requires 1 <= k <= 10 && 1 <= r < 32
    ensures DecayLoad(FULL, 32 * k + r) + DecayLoad(Halves(k), r) + Y_SUM[r] <= 48128
  {
    DecaySplit(Weigh, FULL, k, r);
    MiddleJoin(k, r);
    TailFits(r);
  }

  lemma MiddleRollWhole(k: nat)
    requires 1 <= k <= 10
    ensures DecayLoad(FULL, 32 * k + 32) + DecayLoad(Halves(k), 32) + Y_SUM[32] <= 48128
  {
    DecaySplitWhole(Weigh, FULL, k);
    MiddleJoin(k, 32);
    TailFitsLast();
  }

  lemma LastDecay()
    ensures DecayLoad(FULL, 320) <= 96
  {
    DecaySplitWhole(Weigh, FULL, 9);
    assert Shr(FULL, 9) == 96 by { MiddleFits(9); }
    DecayAntitone(Shr(FULL, 9), 0, 32);
  }

  /** The three ways a roll-over can go, for any decay. */
  lemma RollOverCases(d: (nat, nat) -> nat, n: nat)
    requires n <= 32 ==> d(FULL, n + 1) + Y_SUM[n] <= 48128
    requires 32 < n < 345 ==>
               var k, r := (n - 1) / 32, (n - 1) % 32 + 1;
               d(FULL, n + 1) <= d(FULL, n) && d(FULL, n) + d(Halves(k), r) + Y_SUM[r] <= 48128
    requires n >= 345 ==> d(FULL, n + 1) <= 96
    ensures d(FULL, n + 1) + ContribWith(d, n) <= 48128
  {
  }

  lemma RollOverHead(n: nat)
    requires n <= 32
    ensures DecayLoad(FULL, n + 1) + Y_SUM[n] <= 48128
  {
    if n <= 30 { HeadFits(n); } else { HeadFitsLast(); }
  }

  lemma SplitMiddle(n: nat, k: nat, r: nat)
    requires 32 < n < 345 && k == (n - 1) / 32 && r == (n - 1) % 32 + 1
    ensures n == 32 * k + r && 1 <= k <= 10 && 1 <= r <= 32
  {
  }

  lemma RollOverMiddle(n: nat)
    requires 32 < n < 345
    ensures var k, r := (n - 1) / 32, (n - 1) % 32 + 1;
            DecayLoad(FULL, n) + DecayLoad(Halves(k), r) + Y_SUM[r] <= 48128
  {
    var k, r := (n - 1) / 32, (n - 1) % 32 + 1;
    SplitMiddle(n, k, r);
    if r < 32 { MiddleRoll(k, r); } else { MiddleRollWhole(k); }
  }

  lemma RollOverEnd(n: nat)
    requires n >= 345
    ensures DecayLoad(FULL, n + 1) <= 96
  {
    DecayAntitone(FULL, 320, n + 1);
    LastDecay();
  }

  /** However many periods an update spans, what is left of a full history plus
      the contribution of those periods leaves room for a partial period. */
  lemma RollOverFits(n: nat)
    ensures DecayLoad(FULL, n + 1) + Contrib(n) <= 48128
  {
    if n <= 32 {
      RollOverHead(n);
    } else if n < 345 {
      RollOverMiddle(n);
      DecayStep(FULL, n);
    } else {
      RollOverEnd(n);
    }
    RollOverCases(DecayLoad, n);
  }

  // ------------------------------------------------------------ the series closes

  /** Each entry of the table is the one before times y, and one more would be a half:
      32 periods are a half-life. */
  lemma TableGeometric(i: nat)
    requires i < 32
    ensures var next := if i < 31 then Y_INV[i + 1] * U32 else U32 * U32 / 2;
            Y_INV[i] * Y_INV[1] <= next <= Y_INV[i] * Y_INV[1] + 3 * U32
  {
  }

  /** 1024 * (y + y^2 + ...), as the tables have it. */
  const SERIES: nat := 46742

  lemma SeriesTable(r: nat)
    requires 1 <= r < 32
    ensures SERIES - 3 <= (SERIES - 1) * Y_INV[r] / U32 + Y_SUM[r] && SERIES * Y_INV[r] / U32 + Y_SUM[r] <= SERIES
  {
  }

  lemma SeriesHead(r: nat)
    requires 1 <= r < 32
    ensures SERIES - 3 <= DecayLoad(SERIES - 1, r) + Y_SUM[r] && DecayLoad(SERIES, r) + Y_SUM[r] <= SERIES
  {
    DecayAt(Weigh, SERIES, r, 0, r);
    DecayAt(Weigh, SERIES - 1, r, 0, r);
    WeighExact(SERIES, r);
    WeighExact(SERIES - 1, r);
    SeriesTable(r);
  }

  lemma ScaledParts(v: nat, a: nat, b: nat, y: nat)
    requires v <= a + b
    ensures v * y / U32 <= a * y / U32 + b * y / U32 + 1
  {
    MulMono(v, a + b, y);
    assert (a + b) * y == a * y + b * y;
    DivNearlyAdds(v * y, a * y, b * y);
  }

  lemma DivNearlyAdds(x: nat, a: nat, b: nat)
    requires x <= a + b
    ensures x / U32 <= a / U32 + b / U32 + 1
  {
  }

  /** Decaying in two parts loses at most one more. */
  lemma WeighNearlyAdds(v: nat, a: nat, b: nat, i: nat)
    requires v <= a + b && v < U32 && a < U32 && b < U32
    ensures Weigh(v, i) <= Weigh(a, i) + Weigh(b, i) + 1
  {
    WeighExact(v, i);
    WeighExact(a, i);
    WeighExact(b, i);
    ScaledParts(v, a, b, Y_INV[i % 32]);
  }

  lemma SeriesMeets(k: nat)
    requires 1 <= k <= 10
    ensures SERIES - 1 <= Halves(k) + Shr(SERIES, k) <= SERIES
  {
    assert Halves(1) == 23371 && Halves(2) == 35056 && Halves(3) == 40899 && Halves(4) == 43820 && Halves(5) == 45281;
    assert Halves(6) == 46011 && Halves(7) == 46376 && Halves(8) == 46559 && Halves(9) == 46650 && Halves(10) == 46696;
    assert Shr(SERIES, 1) == 23371 && Shr(SERIES, 2) == 11685 && Shr(SERIES, 3) == 5842 && Shr(SERIES, 4) == 2921;
    assert Shr(SERIES, 5) == 1460 && Shr(SERIES, 6) == 730 && Shr(SERIES, 7) == 365 && Shr(SERIES, 8) == 182;
    assert Shr(SERIES, 9) == 91 && Shr(SERIES, 10) == 45;
  }

  lemma PartsKeep(v: nat, a: nat, b: nat, r: nat)
    requires v <= a + b && v < U32 && a < U32 && b < U32 && 1 <= r < 32
    ensures DecayLoad(v, r) <= DecayLoad(a, r) + DecayLoad(b, r) + 1
  {
    WeighNearlyAdds(v, a, b, r);
    DecayAt(Weigh, v, r, 0, r);
    DecayAt(Weigh, a, r, 0, r);
    DecayAt(Weigh, b, r, 0, r);
  }

  lemma SeriesAbove(a: nat, b: nat, r: nat)
    requires a + b <= SERIES && 1 <= r < 32
    ensures DecayLoad(a, r) + DecayLoad(b, r) + Y_SUM[r] <= SERIES
  {
    SeriesHead(r);
    DecaySuper(a, b, r);
    DecayMono(a + b, SERIES, r);
  }

  lemma SeriesBelow(a: nat, b: nat, r: nat)
    requires SERIES - 1 <= a + b <= SERIES && 1 <= r < 32
    ensures SERIES - 4 <= DecayLoad(a, r) + DecayLoad(b, r) + Y_SUM[r]
  {
    SeriesHead(r);
    PartsKeep(SERIES - 1, a, b, r);
  }

  lemma SeriesMiddle(k: nat, r: nat)
    requires 1 <= k <= 10 && 1 <= r < 32
    ensures SERIES - 4 <= DecayLoad(SERIES, 32 * k + r) + DecayLoad(Halves(k), r) + Y_SUM[r] <= SERIES
  {
    DecaySplit(Weigh, SERIES, k, r);
    SeriesMeets(k);
    SeriesAbove(Shr(SERIES, k), Halves(k), r);
    SeriesBelow(Shr(SERIES, k), Halves(k), r);
  }

  /** After a whole half-life. */
  lemma DecayHalf(v: nat)
    requires 0 < v < U32
    ensures v / 2 - 1 <= DecayLoad(v, 32) <= v / 2
  {
    ShrOnce(v, 0);
    DecayAt(Weigh, v, 32, 1, 0);
    WeighExact(Shr(v, 1), 0);
    WholeWeight(v / 2);
  }

  lemma WholeWeight(x: nat)
    requires x < U32
    ensures x - 1 <= x * Y_INV[0] / U32 <= x
  {
    assert x * Y_INV[0] == x * U32 - x;
  }

  lemma SeriesWhole(k: nat)
    requires 1 <= k <= 10
    ensures SERIES - 4 <= DecayLoad(SERIES, 32 * k + 32) + DecayLoad(Halves(k), 32) + Y_SUM[32] <= SERIES
  {
    DecaySplitWhole(Weigh, SERIES, k);
    SeriesMeets(k);
    SeriesPositive(k);
    SeriesHalf(Shr(SERIES, k), Halves(k));
  }

  lemma SeriesPositive(k: nat)
    requires 1 <= k <= 10
    ensures Halves(k) > 0 && Shr(SERIES, k) > 0
  {
    SeriesMeets(k);
    HalvesGrow(k);
  }

  lemma HalvesGrow(k: nat)
    requires 1 <= k <= 10
    ensures 23371 <= Halves(k) <= 46696
  {
    assert Halves(1) == 23371 && Halves(2) == 35056 && Halves(3) == 40899 && Halves(4) == 43820 && Halves(5) == 45281;
    assert Halves(6) == 46011 && Halves(7) == 46376 && Halves(8) == 46559 && Halves(9) == 46650 && Halves(10) == 46696;
  }

  lemma SeriesHalf(a: nat, b: nat)
    requires SERIES - 1 <= a + b <= SERIES && a > 0 && b > 0
    ensures SERIES - 4 <= DecayLoad(a, 32) + DecayLoad(b, 32) + Y_SUM[32] <= SERIES
  {
    DecayHalf(a);
    DecayHalf(b);
  }

  /** The contribution by cases, for any decay. */
  lemma SeriesCases(d: (nat, nat) -> nat, n: nat)
    requires n < 345
    requires n == 0 ==> d(SERIES, 0) == SERIES
    requires 0 < n <= 32 ==> SERIES - 4 <= d(SERIES, n) + Y_SUM[n] <= SERIES
    requires 32 < n ==>
               var k, r := (n - 1) / 32, (n - 1) % 32 + 1;
               SERIES - 4 <= d(SERIES, n) + d(Halves(k), r) + Y_SUM[r] <= SERIES
    ensures SERIES - 4 <= ContribWith(d, n) + d(SERIES, n) <= SERIES
  {
  }

  /** The contribution of n periods is the geometric sum: with what is left after n
      periods of the whole series it makes up the whole series, within 4. From 345
      periods on it is the fixed maximum. */
  lemma SeriesCloses(n: nat)
    ensures n < 345 ==> SERIES - 4 <= Contrib(n) + DecayLoad(SERIES, n) <= SERIES
    ensures n >= 345 ==> Contrib(n) == 47742
  {
    if 0 < n < 32 {
      SeriesHead(n);
      DecayMono(SERIES - 1, SERIES, n);
    } else if n == 32 {
      DecayHalf(SERIES);
    } else if 32 < n < 345 {
      var k, r := (n - 1) / 32, (n - 1) % 32 + 1;
      SplitMiddle(n, k, r);
      if r < 32 { SeriesMiddle(k, r); } else { SeriesWhole(k); }
    }
    if n < 345 { SeriesCases(DecayLoad, n); }
  }

  // ------------------------------------------------------------------- the update

  /** last_runnable_update, runnable_avg_sum, usage_avg_sum, runnable_avg_period */
  datatype Avg = Avg(last: nat, sum: nat, usage: nat, period: nat)

  /** One call of __update_entity_runnable_avg. */
  datatype Tick = Tick(now: nat, runnable: bool, running: bool, scale: nat, multiplier: nat)

  /** The arithmetic an update uses: how a value decays over n periods, what n
      whole periods contribute, and how an amount is scaled by the frequency in
      32 and in 64 bits. */
  datatype Arith = Arith(decay: (nat, nat) -> nat, contrib: nat -> nat, scale32: nat -> nat, scale64: nat -> nat)

  /** The arithmetic of the code. */
  function Kernel(scale: nat): Arith {
    Arith(DecayLoad, Contrib, (x: nat) => Wrap32(x * scale) / 1024, (x: nat) => Wrap(x * scale) / 1024)
  }

  /** Add an amount to the period and, scaled, to the sums it counts for. */
  function Accrue(a: Avg, amount: nat, scaled: nat, t: Tick): Avg {
    Avg(a.last,
        if t.runnable then Wrap32(a.sum + scaled) else a.sum,
        if t.running then Wrap32(a.usage + scaled) else a.usage,
        Wrap32(a.period + amount))
  }

  /** Complete the current period. */
  function Fill(k: Arith, a: Avg, t: Tick): Avg {
    var w := 1024 - a.period % 1024;
    Accrue(a, w, k.scale32(w), t)
  }

  /** Age by n + 1 periods, n of which passed in full since the last update. */
  function Age(k: Arith, a: Avg, n: nat, t: Tick): Avg {
    var aged := Avg(a.last, Wrap32(k.decay(a.sum, n + 1)), Wrap32(k.decay(a.usage, n + 1)),
                    Wrap32(k.decay(a.period, n + 1)));
    Accrue(aged, k.contrib(n), k.scale32(k.contrib(n)), t)
  }

  /** What is left over after the last whole period. */
  function Rest(k: Arith, a: Avg, delta: nat, t: Tick): Avg {
    Accrue(a, delta, k.scale64(delta), t)
  }

  /** __update_entity_runnable_avg, in units of 1024 ns, once time has passed. */
  function Pass(k: Arith, a: Avg, delta: nat, t: Tick): Avg {
    if delta + a.period % 1024 >= 1024 then
      var rest := delta - (1024 - a.period % 1024);
      Rest(k, Age(k, Fill(k, a, t), rest / 1024, t), rest % 1024, t)
    else Rest(k, a, delta, t)
  }

  function Elapsed(a: Avg, t: Tick): nat {
    TimeScale.Convert(Wrap(t.now - a.last), t.multiplier)
  }

  function Step(k: Arith, a: Avg, elapsed: nat, t: Tick): Avg {
    if Signed(elapsed) < 0 then a.(last := t.now)
    else if elapsed / 1024 == 0 then a
    else Pass(k, a.(last := t.now), elapsed / 1024, t)
  }

  /** __update_entity_runnable_avg */
  function Advance(a: Avg, t: Tick): Avg {
    Step(Kernel(t.scale), a, Elapsed(a, t), t)
  }

  function AdvanceAll(a: Avg, ts: seq<Tick>): Avg
    decreases |ts|
  {
    if ts == [] then a else AdvanceAll(Advance(a, ts[0]), ts[1..])
  }

  /** The period stays below 48 * 1024 and neither sum exceeds it. */
  predicate Bounded(a: Avg) {
    a.sum <= a.period < FULL && a.usage <= a.period
  }

  /** Ordered: the sums do not exceed the period, nor the period the bound. */
  predicate Ordered(a: Avg, bound: nat) {
    a.sum <= a.period <= bound && a.usage <= a.period
  }

  /** All that the bound needs of the arithmetic. */
  ghost predicate Tame(k: Arith) {
    && (forall v: nat, w: nat, n: nat :: v <= w <= FULL ==> k.decay(v, n) <= k.decay(w, n))
    && (forall n: nat :: k.decay(FULL, n + 1) + k.contrib(n) <= 48128)
    && (forall x: nat :: x <= FULL ==> k.scale32(x) <= x && k.scale64(x) <= x)
  }

  lemma ScaledDown(x: nat, scale: nat)
    requires scale <= 1024 && x <= FULL
    ensures Wrap32(x * scale) / 1024 <= x && Wrap(x * scale) / 1024 <= x
  {
    MulMono(scale, 1024, x);
    TimesSmall(x, x * scale);
  }

  lemma TimesSmall(x: nat, y: nat)
    requires y <= x * 1024 && x <= FULL
    ensures Wrap32(y) / 1024 <= x && Wrap(y) / 1024 <= x
  {
  }

  lemma KernelIsTame(scale: nat)
    requires scale <= 1024
    ensures Tame(Kernel(scale))
  {
    KernelDecays();
    KernelRollsOver();
    forall x: nat | x <= FULL ensures Kernel(scale).scale32(x) <= x && Kernel(scale).scale64(x) <= x {
      ScaledDown(x, scale);
    }
  }

  lemma KernelDecays()
    ensures forall v: nat, w: nat, n: nat :: v <= w <= FULL ==> DecayLoad(v, n) <= DecayLoad(w, n)
  {
    forall v: nat, w: nat, n: nat | v <= w <= FULL ensures DecayLoad(v, n) <= DecayLoad(w, n) { DecayMono(v, w, n); }
  }

  lemma KernelRollsOver()
    ensures forall n: nat :: DecayLoad(FULL, n + 1) + Contrib(n) <= 48128
  {
    forall n: nat ensures DecayLoad(FULL, n + 1) + Contrib(n) <= 48128 { RollOverFits(n); }
  }

  lemma AccrueKeeps(a: Avg, amount: nat, scaled: nat, t: Tick, bound: nat)
    requires scaled <= amount && Ordered(a, a.period) && a.period + amount <= bound < U32
    ensures Ordered(Accrue(a, amount, scaled, t), bound)
  {
  }

  lemma FillKeeps(k: Arith, a: Avg, t: Tick)
    requires Bounded(a) && Tame(k)
    ensures Ordered(Fill(k, a, t), FULL)
  {
    var w := 1024 - a.period % 1024;
    AccrueKeeps(a, w, k.scale32(w), t, FULL);
  }

  lemma AgeKeeps(k: Arith, a: Avg, n: nat, t: Tick)
    requires Ordered(a, FULL) && Tame(k)
    ensures Ordered(Age(k, a, n, t), 48128)
  {
    assert k.decay(a.sum, n + 1) <= k.decay(a.period, n + 1);
    assert k.decay(a.usage, n + 1) <= k.decay(a.period, n + 1);
    assert k.decay(a.period, n + 1) <= k.decay(FULL, n + 1);
    assert k.decay(FULL, n + 1) + k.contrib(n) <= 48128;
    var aged := Avg(a.last, k.decay(a.sum, n + 1), k.decay(a.usage, n + 1), k.decay(a.period, n + 1));
    AccrueKeeps(aged, k.contrib(n), k.scale32(k.contrib(n)), t, 48128);
  }

  lemma RestKeeps(k: Arith, a: Avg, delta: nat, t: Tick)
    requires Ordered(a, a.period) && Tame(k) && a.period + delta < FULL
    ensures Bounded(Rest(k, a, delta, t))
  {
    AccrueKeeps(a, delta, k.scale64(delta), t, FULL - 1);
  }

  lemma CrossKeeps(k: Arith, a: Avg, n: nat, delta: nat, t: Tick)
    requires Bounded(a) && Tame(k) && delta < 1024
    ensures Bounded(Rest(k, Age(k, Fill(k, a, t), n, t), delta, t))
  {
    FillKeeps(k, a, t);
    AgeKeeps(k, Fill(k, a, t), n, t);
    RestKeeps(k, Age(k, Fill(k, a, t), n, t), delta, t);
  }

  lemma RoomLeft(period: nat, delta: nat)
    requires period < FULL && delta + period % 1024 < 1024
    ensures period + delta < FULL
  {
  }

  lemma PassKeeps(k: Arith, a: Avg, delta: nat, t: Tick)
    requires Bounded(a) && Tame(k)
    ensures Bounded(Pass(k, a, delta, t))
  {
    if delta + a.period % 1024 >= 1024 {
      var rest := delta - (1024 - a.period % 1024);
      CrossKeeps(k, a, rest / 1024, rest % 1024, t);
    } else {
      RoomLeft(a.period, delta);
      RestKeeps(k, a, delta, t);
    }
  }

  lemma StepKeeps(k: Arith, a: Avg, elapsed: nat, t: Tick)
    requires Bounded(a) && Tame(k)
    ensures Bounded(Step(k, a, elapsed, t))
  {
    PassKeeps(k, a.(last := t.now), elapsed / 1024, t);
  }

  /** Every sequence of updates, with any clock readings (also backwards), any
      time multiplier and any frequency scale up to 1024, keeps the bound. */
  lemma {:induction false} EveryRunBounded(a: Avg, ts: seq<Tick>)
    requires Bounded(a)
    requires forall i :: 0 <= i < |ts| ==> ts[i].scale <= 1024
    ensures Bounded(AdvanceAll(a, ts))
    decreases |ts|
  {
    if ts != [] {
      KernelIsTame(ts[0].scale);
      StepKeeps(Kernel(ts[0].scale), a, Elapsed(a, ts[0]), ts[0]);
      EveryRunBounded(Advance(a, ts[0]), ts[1..]);
    }
  }

  // -------------------------------------------------------- which sum is fed, and when

  /** Decaying never makes more of a value. */
  ghost predicate Shrinks(k: Arith) {
    forall v: nat, n: nat :: v <= FULL ==> k.decay(v, n) <= v
  }

  /** At full frequency nothing is scaled. */
  ghost predicate Unscaled(k: Arith) {
    forall x: nat :: x <= FULL ==> k.scale32(x) == x && k.scale64(x) == x
  }

  lemma KernelShrinks(scale: nat)
    ensures Shrinks(Kernel(scale))
  {
    forall v: nat, n: nat | v <= FULL ensures DecayLoad(v, n) <= v { DecayAntitone(v, n, n); }
  }

  lemma KernelUnscaled()
    ensures Unscaled(Kernel(1024))
  {
  }

  /** How one update moves a sum that goes from x to y while the period goes from p
      to q: not up if the time does not count for it, and along with the period if
      all of it counts and the sum was full. */
  predicate Fed(counts: bool, full: bool, x: nat, p: nat, y: nat, q: nat) {
    (!counts ==> y <= x) && (counts && full && x == p ==> y == q)
  }

  /** runnable time feeds the one sum, running time the other; and the share that was
      running stays within the one that was runnable. */
  predicate FedRight(t: Tick, full: bool, a: Avg, b: Avg) {
    && Fed(t.runnable, full, a.sum, a.period, b.sum, b.period)
    && Fed(t.running, full, a.usage, a.period, b.usage, b.period)
    && ((t.running ==> t.runnable) && a.usage <= a.sum ==> b.usage <= b.sum)
  }

  lemma FillFeeds(k: Arith, a: Avg, t: Tick)
    requires Bounded(a) && Tame(k)
    ensures FedRight(t, Unscaled(k), a, Fill(k, a, t))
  {
    FillKeeps(k, a, t);
  }

  lemma AgeFeeds(k: Arith, a: Avg, n: nat, t: Tick)
    requires Ordered(a, FULL) && Tame(k) && Shrinks(k)
    ensures FedRight(t, Unscaled(k), a, Age(k, a, n, t))
  {
    AgeKeeps(k, a, n, t);
    assert k.decay(a.period, n + 1) <= k.decay(FULL, n + 1) && k.decay(FULL, n + 1) + k.contrib(n) <= 48128;
    assert k.decay(a.sum, n + 1) <= a.sum && k.decay(a.usage, n + 1) <= a.usage;
    assert k.decay(a.sum, n + 1) <= k.decay(a.period, n + 1) && k.decay(a.usage, n + 1) <= k.decay(a.period, n + 1);
    assert a.usage <= a.sum ==> k.decay(a.usage, n + 1) <= k.decay(a.sum, n + 1);
  }

  lemma RestFeeds(k: Arith, a: Avg, delta: nat, t: Tick)
    requires Ordered(a, a.period) && Tame(k) && a.period + delta < FULL
    ensures FedRight(t, Unscaled(k), a, Rest(k, a, delta, t))
  {
  }

  lemma FedTwice(t: Tick, full: bool, a: Avg, b: Avg, c: Avg)
    requires FedRight(t, full, a, b) && FedRight(t, full, b, c)
    ensures FedRight(t, full, a, c)
  {
  }

  lemma CrossFeeds(k: Arith, a: Avg, n: nat, delta: nat, t: Tick)
    requires Bounded(a) && Tame(k) && Shrinks(k) && delta < 1024
    ensures FedRight(t, Unscaled(k), a, Rest(k, Age(k, Fill(k, a, t), n, t), delta, t))
  {
    var b := Fill(k, a, t);
    FillKeeps(k, a, t);
    AgeKeeps(k, b, n, t);
    FillFeeds(k, a, t);
    AgeFeeds(k, b, n, t);
    RestFeeds(k, Age(k, b, n, t), delta, t);
    FedTwice(t, Unscaled(k), a, b, Age(k, b, n, t));
    FedTwice(t, Unscaled(k), a, Age(k, b, n, t), Rest(k, Age(k, b, n, t), delta, t));
  }

  /** What holds of an update that crosses a boundary, and of one that does not, holds
      of every update. */
  lemma PassCases(k: Arith, a: Avg, delta: nat, t: Tick, p: Avg -> bool)
    requires delta + a.period % 1024 < 1024 ==> p(Rest(k, a, delta, t))
    requires forall n: nat, d: nat :: d < 1024 ==> p(Rest(k, Age(k, Fill(k, a, t), n, t), d, t))
    ensures p(Pass(k, a, delta, t))
  {
  }

  lemma PassFeeds(k: Arith, a: Avg, delta: nat, t: Tick)
    requires Bounded(a) && Tame(k) && Shrinks(k)
    ensures FedRight(t, Unscaled(k), a, Pass(k, a, delta, t))
  {
    var full := Unscaled(k);
    if delta + a.period % 1024 < 1024 {
      RoomLeft(a.period, delta);
      RestFeeds(k, a, delta, t);
    }
    forall n: nat, d: nat | d < 1024 ensures FedRight(t, full, a, Rest(k, Age(k, Fill(k, a, t), n, t), d, t)) {
      CrossFeeds(k, a, n, d, t);
    }
    PassCases(k, a, delta, t, b => FedRight(t, full, a, b));
  }

  lemma UpdateFeeds(a: Avg, t: Tick)
    requires Bounded(a) && t.scale <= 1024
    ensures Bounded(Advance(a, t)) && FedRight(t, t.scale == 1024, a, Advance(a, t))
  {
    var k := Kernel(t.scale);
    KernelIsTame(t.scale);
    KernelShrinks(t.scale);
    if t.scale == 1024 { KernelUnscaled(); }
    StepKeeps(k, a, Elapsed(a, t), t);
    PassFeeds(k, a.(last := t.now), Elapsed(a, t) / 1024, t);
  }

  predicate Scaled(ts: seq<Tick>) {
    forall i :: 0 <= i < |ts| ==> ts[i].scale <= 1024
  }

  /** Over every run: if nothing was runnable the runnable sum has not grown, if
      nothing was running the usage sum has not. */
  lemma {:induction false} SleepersFade(a: Avg, ts: seq<Tick>)
    requires Bounded(a) && Scaled(ts)
    ensures (forall i :: 0 <= i < |ts| ==> !ts[i].runnable) ==> AdvanceAll(a, ts).sum <= a.sum
    ensures (forall i :: 0 <= i < |ts| ==> !ts[i].running) ==> AdvanceAll(a, ts).usage <= a.usage
    decreases |ts|
  {
    if ts != [] {
      UpdateFeeds(a, ts[0]);
      SleepersFade(Advance(a, ts[0]), ts[1..]);
    }
  }

  /** Over every run at full frequency: a task that was runnable all the time keeps a
      full runnable sum, one that was running all the time a full usage sum. */
  lemma {:induction false} BusyStaysFull(a: Avg, ts: seq<Tick>)
    requires Bounded(a) && forall i :: 0 <= i < |ts| ==> ts[i].scale == 1024
    ensures a.sum == a.period && (forall i :: 0 <= i < |ts| ==> ts[i].runnable)
            ==> AdvanceAll(a, ts).sum == AdvanceAll(a, ts).period
    ensures a.usage == a.period && (forall i :: 0 <= i < |ts| ==> ts[i].running)
            ==> AdvanceAll(a, ts).usage == AdvanceAll(a, ts).period
    decreases |ts|
  {
    if ts != [] {
      UpdateFeeds(a, ts[0]);
      BusyStaysFull(Advance(a, ts[0]), ts[1..]);
    }
  }

  /** Over every run in which only what is runnable runs, usage stays within the
      runnable sum. */
  lemma {:induction false} UsageWithinSum(a: Avg, ts: seq<Tick>)
    requires Bounded(a) && Scaled(ts) && a.usage <= a.sum
    requires forall i :: 0 <= i < |ts| && ts[i].running ==> ts[i].runnable
    ensures AdvanceAll(a, ts).usage <= AdvanceAll(a, ts).sum
    decreases |ts|
  {
    if ts != [] {
      UpdateFeeds(a, ts[0]);
      UsageWithinSum(Advance(a, ts[0]), ts[1..]);
    }
  }

  /** The time that has passed is the difference of the clocks, times the multiplier in
      units of 2^-16. */
  lemma ElapsedIs(a: Avg, t: Tick)
    requires a.last <= t.now < U64 && t.multiplier < 0x8000_0000
    requires (t.now - a.last) * t.multiplier / 0x1_0000 < U64
    ensures Elapsed(a, t) == (t.now - a.last) * t.multiplier / 0x1_0000
  {
    TimeScale.ConvertIsScaling(t.now - a.last, t.multiplier);
  }

  /** A clock that went back is only noted, and an update that comes too soon is as if
      it had not been made: the time goes on counting from the last one that was. */
  lemma TooSoon(a: Avg, t: Tick)
    ensures Signed(Elapsed(a, t)) < 0 ==> Advance(a, t) == a.(last := t.now)
    ensures Elapsed(a, t) < 1024 ==> Advance(a, t) == a
  {
  }

  lemma SmallScale(x: nat, scale: nat)
    requires x < 1024 && scale <= 1024
    ensures Kernel(scale).scale64(x) == x * scale / 1024 <= x
  {
    MulMono(scale, 1024, x);
    SmallQuotient(x, x * scale);
  }

  lemma SmallQuotient(x: nat, y: nat)
    requires x < 1024 && y <= x * 1024
    ensures Wrap(y) / 1024 == y / 1024 <= x
  {
  }

  /** Within one period an update counts exactly the time passed: the period grows by
      it, each sum by its scaled amount if the time counts for that sum. */
  lemma WithinPeriod(a: Avg, t: Tick)
    requires Bounded(a) && t.scale <= 1024
    requires var delta := Elapsed(a, t) / 1024;
             Signed(Elapsed(a, t)) >= 0 && 0 < delta && delta + a.period % 1024 < 1024
    ensures var delta := Elapsed(a, t) / 1024;
            var b := Advance(a, t);
            && b.last == t.now && b.period == a.period + delta
            && b.sum == a.sum + (if t.runnable then delta * t.scale / 1024 else 0)
            && b.usage == a.usage + (if t.running then delta * t.scale / 1024 else 0)
  {
    var delta := Elapsed(a, t) / 1024;
    SmallScale(delta, t.scale);
    RoomLeft(a.period, delta);
  }

  /** An arithmetic in which ageing by n periods adds n marks of size c and nothing is
      scaled. */
  ghost predicate Marks(k: Arith, c: nat) {
    && (forall v: nat, n: nat :: k.decay(v, n) == v + n * c)
    && (forall n: nat :: k.contrib(n) == 1024 * n)
    && (forall x: nat :: k.scale32(x) == x && k.scale64(x) == x)
  }

  /** An update that crosses n boundaries. */
  lemma CrossMarks(k: Arith, c: nat, a: Avg, n: nat, rest: nat, t: Tick)
    requires Marks(k, c) && a.sum <= a.period && a.usage <= a.period && n > 0
    requires a.period + (1024 - a.period % 1024) + n * c + 1024 * (n - 1) + rest < U32
    ensures var w := 1024 - a.period % 1024;
            var b := Rest(k, Age(k, Fill(k, a, t), n - 1, t), rest, t);
            && b.period == a.period + w + 1024 * (n - 1) + rest + n * c
            && b.sum == a.sum + (if t.runnable then w + 1024 * (n - 1) + rest else 0) + n * c
            && b.usage == a.usage + (if t.running then w + 1024 * (n - 1) + rest else 0) + n * c
  {
    var w := 1024 - a.period % 1024;
    var f := Fill(k, a, t);
    assert f == Avg(a.last, a.sum + (if t.runnable then w else 0), a.usage + (if t.running then w else 0), a.period + w);
    assert k.decay(f.sum, n) == f.sum + n * c && k.decay(f.usage, n) == f.usage + n * c
        && k.decay(f.period, n) == f.period + n * c && k.contrib(n - 1) == 1024 * (n - 1);
  }

  lemma Boundaries(phase: nat, delta: nat) returns (n: nat, rest: nat)
    requires phase < 1024 && delta + phase >= 1024
    ensures n == (phase + delta) / 1024 > 0 && rest < 1024 && delta == (1024 - phase) + 1024 * (n - 1) + rest
    ensures var left := delta - (1024 - phase); left >= 0 && left / 1024 == n - 1 && left % 1024 == rest
  {
    n := (phase + delta) / 1024;
    rest := (delta - (1024 - phase)) % 1024;
  }

  /** No time is counted twice or left out, and every period boundary that is crossed
      ages everything once: under an arithmetic that only leaves marks, an update
      shows exactly the time passed and one mark for each boundary. */
  lemma TimeCountedOnce(k: Arith, c: nat, a: Avg, delta: nat, t: Tick, n: nat)
    requires Marks(k, c) && a.sum <= a.period && a.usage <= a.period
    requires n == (a.period % 1024 + delta) / 1024 && a.period + delta + n * c < U32
    ensures Pass(k, a, delta, t) == Avg(a.last, a.sum + (if t.runnable then delta else 0) + n * c,
                                        a.usage + (if t.running then delta else 0) + n * c, a.period + delta + n * c)
  {
    if delta + a.period % 1024 >= 1024 {
      var m, rest := PassCrosses(k, a, delta, t);
      CrossMarks(k, c, a, m, rest, t);
    } else {
      assert n == 0;
    }
  }

  lemma PassCrosses(k: Arith, a: Avg, delta: nat, t: Tick) returns (n: nat, rest: nat)
    requires delta + a.period % 1024 >= 1024
    ensures n == (a.period % 1024 + delta) / 1024 > 0 && delta == (1024 - a.period % 1024) + 1024 * (n - 1) + rest
    ensures Pass(k, a, delta, t) == Rest(k, Age(k, Fill(k, a, t), n - 1, t), rest, t)
  {
    n, rest := Boundaries(a.period % 1024, delta);
  }

  // ------------------------------------------------------------------------ the code

  /** The whole periods that lie between the end of the current one and now. */
  function Spanned(elapsed: nat, period: nat): nat {
    var delta := elapsed / 1024;
    if delta + period % 1024 >= 1024 then (delta - (1024 - period % 1024)) / 1024 else 0
  }

  lemma KernelContrib(scale: nat, n: nat)
    ensures Kernel(scale).contrib(n) == Contrib(n)
  {
  }

  /** The update from the parts in which the code makes it: delta is what is left to add
      after the boundaries, if any, have been crossed. */
  lemma StepShape(k: Arith, a: Avg, elapsed: nat, t: Tick, delta: nat)
    requires Signed(elapsed) >= 0 && elapsed / 1024 > 0
    requires var all := elapsed / 1024;
             delta == if all + a.period % 1024 >= 1024 then (all - (1024 - a.period % 1024)) % 1024 else all
    ensures var b := a.(last := t.now);
            Step(k, a, elapsed, t)
            == Rest(k, if elapsed / 1024 + a.period % 1024 >= 1024
                       then Age(k, Fill(k, b, t), Spanned(elapsed, a.period), t) else b, delta, t)
  {
  }

  /** A sched_avg, updated in place. */
  class SchedAvg {
    var last: nat
    var sum: nat
    var usage: nat
    var period: nat

    ghost function Now(): Avg
      reads this
    {
      Avg(last, sum, usage, period)
    }

    method Add(amount: nat, scaled: nat, t: Tick)
      modifies this
      ensures Now() == Accrue(old(Now()), amount, scaled, t)
    {
      if t.runnable { sum := Wrap32(sum + scaled); }
      if t.running { usage := Wrap32(usage + scaled); }
      period := Wrap32(period + amount);
    }

    /** Crossing a period boundary: complete the current period, age, add the
        contribution of the whole periods in between. */
    method Cross(k: Arith, periods: nat, contrib: nat, t: Tick)
      requires contrib == k.contrib(periods)
      modifies this
      ensures Now() == Age(k, Fill(k, old(Now()), t), periods, t)
    {
      var w := 1024 - period % 1024;
      Add(w, k.scale32(w), t);
      sum := Wrap32(k.decay(sum, periods + 1));
      period := Wrap32(k.decay(period, periods + 1));
      usage := Wrap32(k.decay(usage, periods + 1));
      Add(contrib, k.scale32(contrib), t);
    }

    /** The update once the elapsed time is known. `contrib` is what the whole
        periods it spans contribute. */
    method Run(k: Arith, elapsed: nat, contrib: nat, t: Tick) returns (decayed: bool)
      requires contrib == k.contrib(Spanned(elapsed, period))
      modifies this
      ensures Now() == Step(k, old(Now()), elapsed, t)
      ensures decayed <==> Signed(elapsed) >= 0 && elapsed / 1024 + old(period) % 1024 >= 1024
    {
      if Signed(elapsed) < 0 {
        last := t.now;
        return false;
      }
      var delta := elapsed / 1024;
      if delta == 0 { return false; }
      last := t.now;
      ghost var whole := Spanned(elapsed, period);
      var w := period % 1024;
      decayed := delta + w >= 1024;
      if decayed {
        delta := delta - (1024 - w);
        assert delta / 1024 == whole;
        Cross(k, delta / 1024, contrib, t);
        delta := delta % 1024;
      }
      StepShape(k, old(Now()), elapsed, t, delta);
      Add(delta, k.scale64(delta), t);
    }

    /** The update with the arithmetic of the code. */
    method RunKernel(elapsed: nat, t: Tick) returns (decayed: bool)
      modifies this
      ensures Now() == Step(Kernel(t.scale), old(Now()), elapsed, t)
      ensures decayed <==> Signed(elapsed) >= 0 && elapsed / 1024 + old(period) % 1024 >= 1024
    {
      var n := Spanned(elapsed, period);
      var contrib := ComputeRunnableContrib(n);
      KernelContrib(t.scale, n);
      decayed := Run(Kernel(t.scale), elapsed, contrib, t);
    }

    /** __update_entity_runnable_avg; the result tells whether a period ended. */
    method Update(t: Tick) returns (decayed: bool)
      modifies this
      ensures Now() == Advance(old(Now()), t)
      ensures var elapsed := Elapsed(old(Now()), t);
              decayed <==> Signed(elapsed) >= 0 && elapsed / 1024 + old(period) % 1024 >= 1024
    {
      var elapsed := TimeScale.Convert(Wrap(t.now - last), t.multiplier);
      decayed := RunKernel(elapsed, t);
    }
  }

  // ----------------------------------------------------------- what is read from it

  /** __update_task_entity_contrib: sum * weight / (period + 1) in 32 bits.
      load_avg_ratio is the case weight = 1024. */
  function LoadShare(a: Avg, weight: nat): nat {
    Wrap32(a.sum * weight) / (a.period + 1)
  }

  lemma ShareBelow(sum: nat, period: nat, weight: nat)
    requires sum <= period && weight > 0
    ensures sum * weight / (period + 1) < weight
  {
    assert sum * weight < (period + 1) * weight by { MulMono(sum, period, weight); }
    QuotientBelow(sum * weight, period + 1, weight);
  }

  lemma QuotientBelow(n: nat, d: nat, m: nat)
    requires d > 0 && n < d * m
    ensures n / d < m
  {
    assert n == n / d * d + n % d;
    if n / d >= m { MulMono(m, n / d, d); }
  }

  /** Whatever run led to it (EveryRunBounded), load_avg_ratio is at most 1023 and
      its product does not wrap. */
  lemma RatioBounded(a: Avg)
    requires Bounded(a)
    ensures a.sum * 1024 < U32 && LoadShare(a, 1024) == a.sum * 1024 / (a.period + 1) <= 1023
  {
    ShareBelow(a.sum, a.period, 1024);
  }

  /** load_avg_contrib is the exact quotient if and only if sum * weight fits 32
      bits. */
  lemma ContribExactIff(a: Avg, weight: nat)
    requires Bounded(a)
    ensures LoadShare(a, weight) == a.sum * weight / (a.period + 1) <==> a.sum * weight < U32
  {
    var x, d := a.sum * weight, a.period + 1;
    if x >= U32 {
      var y := Wrap32(x);
      assert y + U32 <= x;
      QuotientGap(y, x, d);
    }
  }

  /** A weight is safe for every bounded average if and only if it is at most
      87383. */
  lemma SafeWeights(weight: nat)
    ensures (forall a: Avg :: Bounded(a) ==> LoadShare(a, weight) == a.sum * weight / (a.period + 1))
            <==> weight <= 87383
  {
    if weight <= 87383 {
      forall a: Avg | Bounded(a) ensures LoadShare(a, weight) == a.sum * weight / (a.period + 1) {
        Product(a.sum, weight, FULL - 1, 87383);
        ContribExactIff(a, weight);
      }
    } else {
      var top := Avg(0, FULL - 1, 0, FULL - 1);
      Product(FULL - 1, 87384, FULL - 1, weight);
      ContribExactIff(top, weight);
    }
  }

  lemma QuotientGap(y: nat, x: nat, d: nat)
    requires 0 < d <= FULL && y + U32 <= x
    ensures y / d < x / d
  {
    assert y == y / d * d + y % d && x == x / d * d + x % d;
    if x / d <= y / d { MulMono(x / d, y / d, d); }
  }

  /** The heaviest task (nice -20 weighs 88761), new and then running without an
      update for 346 periods and a bit, gets a contribution of 686 instead of
      88759. */
  lemma HeaviestTaskWraps(a: Avg, t: Tick)
    requires a == Avg(0, 0, 0, 0)
    requires t == Tick(355327 * 1024, true, true, 1024, 0x1_0000)
    ensures var b := Advance(a, t);
            b.sum == b.period == 48765 && LoadShare(b, 88761) == 686 && b.sum * 88761 / (b.period + 1) == 88759
  {
    LongTime(a, t);
    KernelSleeps();
    LongSleep(Kernel(1024), a, t);
  }

  lemma LongTime(a: Avg, t: Tick)
    requires a.last == 0 && t.now == 355327 * 1024 && t.multiplier == 0x1_0000
    ensures Elapsed(a, t) == 355327 * 1024
  {
    TimeScale.ConvertIsScaling(t.now, t.multiplier);
  }

  lemma KernelSleeps()
    ensures var k := Kernel(1024);
            && k.decay(1024, 346) == 0 && k.contrib(345) == 47742
            && k.scale32(1024) == 1024 && k.scale32(47742) == 47742 && k.scale64(1023) == 1023
  {
    ShortDecay();
  }

  lemma LongSleep(k: Arith, a: Avg, t: Tick)
    requires k.decay(1024, 346) == 0 && k.contrib(345) == 47742
    requires k.scale32(1024) == 1024 && k.scale32(47742) == 47742 && k.scale64(1023) == 1023
    requires t.runnable && t.running && a == Avg(0, 0, 0, 0)
    ensures Step(k, a, 355327 * 1024, t) == Avg(t.now, 48765, 48765, 48765)
  {
    var b := a.(last := t.now);
    assert Fill(k, b, t) == Avg(t.now, 1024, 1024, 1024);
    assert Age(k, Avg(t.now, 1024, 1024, 1024), 345, t) == Avg(t.now, 47742, 47742, 47742);
  }

  lemma ShortDecay()
    ensures DecayLoad(1024, 346) == 0
  {
    DecaySplit(Weigh, 1024, 10, 26);
    assert Shr(1024, 5) == 32;
    assert Shr(1024, 10) == 1;
    DecayAt(Weigh, 1, 26, 0, 26);
    WeighExact(1, 26);
  }
}
