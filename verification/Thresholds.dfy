// The dynamic migration thresholds of the HMP balancer: adj_threshold and the
// decisions that use them (backup/big_little_hmp.c, 628-688, 2401-2593), in the
// configuration with invariant CPU capacity.
//
// Intermediate values are C ints and unsigned longs; HMP_MAX_LOAD is a long.

module Thresholds {
  import opened Common

  const MAX_LOAD: int := 1023

  /** The value of (int)x. */
  function Int32(x: int): int {
    if -0x8000_0000 <= x < 0x8000_0000 then x
    else if x % 0x1_0000_0000 < 0x8000_0000 then x % 0x1_0000_0000 else x % 0x1_0000_0000 - 0x1_0000_0000
  }

  /** C division of a value that is not negative; it truncates toward zero. */
  function Quot(a: nat, d: int): int
    requires d != 0
  {
    if d > 0 then a / d else -(a / -d)
  }

  // ------------------------------------------------------------ the thresholds

  /** What big and LITTLE have to spare: capacity and room for tasks, each an int
      that is not negative. */
  datatype Spare = Spare(bCap: nat, lCap: nat, bTask: nat, lTask: nat)

  /** The divisor that both thresholds share, computed as an int. */
  function Divisor(s: Spare): int {
    Int32(Int32(s.bCap + s.lCap) * Int32(s.bTask + s.lTask) + 1)
  }

  function Up(s: Spare): int
    requires Divisor(s) != 0
  {
    MAX_LOAD - Quot(MAX_LOAD * s.bCap * s.bTask, Divisor(s))
  }

  function Down(s: Spare): int
    requires Divisor(s) != 0
  {
    Quot(MAX_LOAD * s.lCap * s.lTask, Divisor(s))
  }

  /** No int overflows on the way to the divisor. */
  predicate NoOverflow(s: Spare) {
    && s.bCap + s.lCap < 0x8000_0000 && s.bTask + s.lTask < 0x8000_0000
    && (s.bCap + s.lCap) * (s.bTask + s.lTask) + 1 < 0x8000_0000
  }

  lemma Floors(a: nat, b: nat, d: nat, m: nat)
    requires d > 0 && a + b <= m * d
    ensures 0 <= a / d && 0 <= b / d && a / d + b / d <= m
  {
    assert a / d * d <= a && b / d * d <= b;
    assert (a / d + b / d) * d <= m * d;
  }

  /** Two parts of one product, divided by more than the whole. */
  lemma PartsBelowWhole(x: nat, y: nat, p: nat, q: nat, d: nat)
    requires d == (x + y) * (p + q) + 1
    ensures 0 <= MAX_LOAD * x * p / d && 0 <= MAX_LOAD * y * q / d
    ensures MAX_LOAD * x * p / d + MAX_LOAD * y * q / d <= MAX_LOAD
  {
    var a, b := MAX_LOAD * x * p, MAX_LOAD * y * q;
    assert (x + y) * (p + q) == x * p + x * q + y * p + y * q;
    assert 0 <= x * p && 0 <= x * q && 0 <= y * p && 0 <= y * q;
    assert a + b <= MAX_LOAD * d by {
      assert a == MAX_LOAD * (x * p) && b == MAX_LOAD * (y * q);
    }
    Floors(a, b, d, MAX_LOAD);
  }

  lemma DivisorExact(x: nat, y: nat, m: nat)
    requires x < 0x8000_0000 && y < 0x8000_0000 && m == x * y && m + 1 < 0x8000_0000
    ensures Int32(Int32(x) * Int32(y) + 1) == m + 1
  {
  }

  lemma QuotsOrdered(a: nat, b: nat, d: nat)
    requires d > 0 && a / d + b / d <= MAX_LOAD
    ensures 0 <= Quot(b, d) <= MAX_LOAD - Quot(a, d) <= MAX_LOAD
  {
  }

  /** For everything that does not overflow an int the thresholds are ordered and
      in range. */
  lemma Ordered(s: Spare)
    requires NoOverflow(s)
    ensures Divisor(s) > 0 && 0 <= Down(s) <= Up(s) <= MAX_LOAD
  {
    var d: nat := (s.bCap + s.lCap) * (s.bTask + s.lTask) + 1;
    DivisorExact(s.bCap + s.lCap, s.bTask + s.lTask, d - 1);
    PartsBelowWhole(s.bCap, s.lCap, s.bTask, s.lTask, d);
    QuotsOrdered(MAX_LOAD * s.bCap * s.bTask, MAX_LOAD * s.lCap * s.lTask, d);
  }

  /** Each threshold is the rounded quotient of the formula: what 1023 times the
      spare capacity and room of one cluster is of the product of the sums, plus one. */
  lemma Quotients(s: Spare) returns (d: nat)
    requires NoOverflow(s)
    ensures d == (s.bCap + s.lCap) * (s.bTask + s.lTask) + 1 && Divisor(s) == d > 0
    ensures Down(s) * d <= 1023 * s.lCap * s.lTask < (Down(s) + 1) * d
    ensures (1023 - Up(s)) * d <= 1023 * s.bCap * s.bTask < (1024 - Up(s)) * d
  {
    var a, b;
    a, b, d := Shares(s);
    Associate(s.bCap, s.bTask);
    Associate(s.lCap, s.lTask);
    QuotientBounds(MAX_LOAD * b, d);
    QuotientBounds(MAX_LOAD * a, d);
  }

  lemma QuotientBounds(a: nat, d: nat)
    requires d > 0
    ensures a / d * d <= a < (a / d + 1) * d
  {
    assert a == a / d * d + a % d;
  }

  /** Past that, the up threshold can leave the range of loads. */
  lemma OverflowExample()
    ensures var s := Spare(46341, 0, 46341, 0);
            Divisor(s) < 0 && Up(s) > MAX_LOAD
  {
  }

  // --------------------------------------------------------- spare of one CPU

  /** Capacity and load of the target CPU of a cluster; crowd is its load times its
      number of tasks, shifted right by two. */
  datatype Cpu = Cpu(capacity: nat, load: nat, crowd: nat)

  /** POSITIVE of an unsigned long, stored in an int */
  function Positive(x: int): (r: nat)
    ensures 0 <= x < 0x8000_0000 ==> r == x
    ensures -0x8000_0000 <= x < 0 ==> r == 0
  {
    if Int32(x) < 0 then 0 else Int32(x)
  }

  function SpareOf(b: Cpu, l: Cpu): Spare {
    Spare(Positive(b.capacity - b.load), Positive(l.capacity - l.load),
          Positive(b.capacity - b.crowd), Positive(l.capacity - l.crowd))
  }

  /** Capacities are normalized to 1024 and loads are far from 2^31. */
  predicate InRange(c: Cpu) {
    c.capacity <= 1024 && c.load < 0x8000_0000 && c.crowd < 0x8000_0000
  }

  lemma SmallFits(s: Spare)
    requires s.bCap <= 1024 && s.lCap <= 1024 && s.bTask <= 1024 && s.lTask <= 1024
    ensures NoOverflow(s)
  {
    Product(s.bCap + s.lCap, s.bTask + s.lTask, 2048, 2048);
  }

  lemma SpareBound(capacity: nat, used: nat)
    requires capacity <= 1024 && used < 0x8000_0000
    ensures Positive(capacity - used) <= capacity
  {
  }

  /** Normalized capacities never overflow. */
  lemma NormalizedFits(b: Cpu, l: Cpu)
    requires InRange(b) && InRange(l)
    ensures NoOverflow(SpareOf(b, l))
  {
    var s := SpareOf(b, l);
    SpareBound(b.capacity, b.load);
    SpareBound(l.capacity, l.load);
    SpareBound(b.capacity, b.crowd);
    SpareBound(l.capacity, l.crowd);
    SmallFits(s);
  }

  // ------------------------------------------------------ how the thresholds respond

  lemma Cancel(u: nat, v: nat, d: nat)
    requires d > 0 && u * d <= v * d
    ensures u <= v
  {
  }

  lemma QuotientAtLeast(p: nat, e: nat, b: nat)
    requires e > 0 && p * e <= b
    ensures p <= b / e
  {
    assert b == b / e * e + b % e;
    if p > b / e { MulMono(b / e + 1, p, e); }
  }

  lemma QuotientMono(a: nat, d: nat, b: nat, e: nat)
    requires d > 0 && e > 0 && a * e <= b * d
    ensures a / d <= b / e
  {
    var p := a / d;
    assert p * d <= a;
    MulMono(p * d, a, e);
    assert (p * d) * e == (p * e) * d;
    Cancel(p * e, b, d);
    QuotientAtLeast(p, e, b);
  }

  lemma Regroup(a: nat, b: nat, c: nat, d: nat)
    ensures (a * b) * (c * d) == (a * c) * (b * d)
  {
    assert (a * b) * (c * d) == a * (b * (c * d)) == a * (c * (b * d)) == (a * c) * (b * d);
  }

  lemma Distribute(x: nat, x': nat, y: nat)
    requires x <= x'
    ensures x * (x' + y) <= x' * (x + y)
  {
    MulMono(x, x', y);
    assert x * (x' + y) == x * x' + x * y && x' * (x + y) == x * x' + x' * y;
  }

  lemma PlusOne(a: nat, m: nat)
    ensures a * (m + 1) == a * m + a
  {
  }

  /** A share of a product plus one is larger where both factors are. */
  lemma ShareCross(x: nat, y: nat, p: nat, q: nat, x': nat, p': nat)
    requires x <= x' && p <= p'
    ensures (x * p) * ((x' + y) * (p' + q) + 1) <= (x' * p') * ((x + y) * (p + q) + 1)
  {
    Distribute(x, x', y);
    Distribute(p, p', q);
    Product(x * (x' + y), p * (p' + q), x' * (x + y), p' * (p + q));
    Product(x, p, x', p');
    Regroup(x, p, x' + y, p' + q);
    Regroup(x', p', x + y, p + q);
    PlusOne(x * p, (x' + y) * (p' + q));
    PlusOne(x' * p', (x + y) * (p + q));
  }

  lemma LoadQuotientMono(a: nat, d: nat, b: nat, e: nat)
    requires d > 0 && e > 0 && a * e <= b * d
    ensures MAX_LOAD * a / d <= MAX_LOAD * b / e
  {
    assert (MAX_LOAD * a) * e == MAX_LOAD * (a * e) && (MAX_LOAD * b) * d == MAX_LOAD * (b * d);
    QuotientMono(MAX_LOAD * a, d, MAX_LOAD * b, e);
  }

  /** The thresholds as shares of 1023. */
  lemma Shares(s: Spare) returns (a: nat, b: nat, d: nat)
    requires NoOverflow(s)
    ensures a == s.bCap * s.bTask && b == s.lCap * s.lTask && d == (s.bCap + s.lCap) * (s.bTask + s.lTask) + 1
    ensures Divisor(s) == d > 0 && Up(s) == MAX_LOAD - MAX_LOAD * a / d && Down(s) == MAX_LOAD * b / d
  {
    a, b, d := s.bCap * s.bTask, s.lCap * s.lTask, (s.bCap + s.lCap) * (s.bTask + s.lTask) + 1;
    DivisorExact(s.bCap + s.lCap, s.bTask + s.lTask, d - 1);
    Associate(s.bCap, s.bTask);
    Associate(s.lCap, s.lTask);
  }

  lemma Associate(x: nat, p: nat)
    ensures MAX_LOAD * x * p == MAX_LOAD * (x * p)
  {
  }

  /** The big cluster has more to spare in t than in s, the LITTLE one the same. */
  predicate MoreRoom(s: Spare, t: Spare) {
    s.bCap <= t.bCap && s.bTask <= t.bTask && s.lCap == t.lCap && s.lTask == t.lTask
  }

  /** What is to be compared then. */
  lemma RoomCross(s: Spare, t: Spare) returns (a: nat, a': nat, b: nat, d: nat, e: nat)
    requires NoOverflow(s) && NoOverflow(t) && MoreRoom(s, t)
    ensures Divisor(s) == d > 0 && Up(s) == MAX_LOAD - MAX_LOAD * a / d && Down(s) == MAX_LOAD * b / d
    ensures Divisor(t) == e > 0 && Up(t) == MAX_LOAD - MAX_LOAD * a' / e && Down(t) == MAX_LOAD * b / e
    ensures a * e <= a' * d && d <= e
  {
    a, b, d := Shares(s);
    var b';
    a', b', e := Shares(t);
    ShareCross(s.bCap, s.lCap, s.bTask, s.lTask, t.bCap, t.bTask);
    Product(s.bCap + s.lCap, s.bTask + s.lTask, t.bCap + t.lCap, t.bTask + t.lTask);
  }

  lemma RoomLowers(s: Spare, t: Spare)
    requires NoOverflow(s) && NoOverflow(t) && MoreRoom(s, t)
    ensures Divisor(s) > 0 && Divisor(t) > 0 && Up(t) <= Up(s) && Down(t) <= Down(s)
  {
    var a, a', b, d, e := RoomCross(s, t);
    LoadQuotientMono(a, d, a', e);
    MulMono(d, e, b);
    LoadQuotientMono(b, e, b, d);
  }

  function Mirror(s: Spare): Spare {
    Spare(s.lCap, s.bCap, s.lTask, s.bTask)
  }

  /** The two thresholds are each other's mirror image. */
  lemma MirrorImage(s: Spare)
    requires NoOverflow(s)
    ensures NoOverflow(Mirror(s)) && Divisor(s) == Divisor(Mirror(s)) > 0
    ensures Up(s) == MAX_LOAD - Down(Mirror(s)) && Down(s) == MAX_LOAD - Up(Mirror(s))
  {
    Ordered(s);
  }

  /** c has at least as much to spare as d. */
  predicate Freer(c: Cpu, d: Cpu) {
    c.capacity == d.capacity && c.load <= d.load && c.crowd <= d.crowd
  }

  lemma PositiveMono(capacity: nat, used: nat, less: nat)
    requires capacity <= 1024 && less <= used < 0x8000_0000
    ensures Positive(capacity - used) <= Positive(capacity - less)
  {
  }

  /** Less load on the big CPU lowers both thresholds, which sends tasks up. */
  lemma FreerBigPullsUp(b: Cpu, b': Cpu, l: Cpu)
    requires InRange(b) && InRange(b') && InRange(l) && Freer(b', b)
    ensures Divisor(SpareOf(b, l)) > 0 && Divisor(SpareOf(b', l)) > 0
    ensures Up(SpareOf(b', l)) <= Up(SpareOf(b, l)) && Down(SpareOf(b', l)) <= Down(SpareOf(b, l))
  {
    NormalizedFits(b, l);
    NormalizedFits(b', l);
    PositiveMono(b.capacity, b.load, b'.load);
    PositiveMono(b.capacity, b.crowd, b'.crowd);
    RoomLowers(SpareOf(b, l), SpareOf(b', l));
  }

  /** Less load on the LITTLE CPU raises both, which sends tasks down. */
  lemma FreerLittlePullsDown(b: Cpu, l: Cpu, l': Cpu)
    requires InRange(b) && InRange(l) && InRange(l') && Freer(l', l)
    ensures Divisor(SpareOf(b, l)) > 0 && Divisor(SpareOf(b, l')) > 0
    ensures Up(SpareOf(b, l)) <= Up(SpareOf(b, l')) && Down(SpareOf(b, l)) <= Down(SpareOf(b, l'))
  {
    NormalizedFits(b, l);
    NormalizedFits(b, l');
    PositiveMono(l.capacity, l.load, l'.load);
    PositiveMono(l.capacity, l.crowd, l'.crowd);
    MirrorImage(SpareOf(b, l));
    MirrorImage(SpareOf(b, l'));
    RoomLowers(Mirror(SpareOf(b, l)), Mirror(SpareOf(b, l')));
  }

  // ------------------------------------------------------------- the decisions

  /** What hmp_up_migration and hmp_down_migration look at besides the load:
      whether the move is possible at all and settled, the priority filter, the
      idle shortcut, and whether the capacity checks pass. */
  datatype Gate = Gate(possible: bool, filtered: bool, idle: bool, affordable: bool)

  function GoesUp(g: Gate, load: nat, up: int): bool {
    g.possible && !g.filtered && (g.idle || (g.affordable && load > up))
  }

  function GoesDown(g: Gate, load: nat, down: int): bool {
    g.possible && (g.idle || g.filtered || (g.affordable && down >= load))
  }

  /** Where no int overflows, no load passes both tests, so with the same thresholds
      a task is approved both ways only through an idle or a low-priority shortcut. */
  lemma NoPingPong(b: Cpu, l: Cpu, u: Gate, d: Gate, load: nat)
    requires NoOverflow(SpareOf(b, l))
    ensures Divisor(SpareOf(b, l)) > 0
    ensures var s := SpareOf(b, l);
            && !(load > Up(s) && load <= Down(s))
            && (GoesUp(u, load, Up(s)) && GoesDown(d, load, Down(s)) ==> u.idle || d.idle || d.filtered)
  {
    Ordered(SpareOf(b, l));
  }

  /** The thresholds part the loads into three: where a move is possible and affordable
      and no shortcut applies, a task goes up above the up threshold, down from the down
      threshold on, and stays in between. A shortcut overrides the load, and nothing
      overrides a move that is not possible. */
  lemma ThreeWays(b: Cpu, l: Cpu, g: Gate, load: nat)
    requires NoOverflow(SpareOf(b, l))
    ensures Divisor(SpareOf(b, l)) > 0
    ensures var s := SpareOf(b, l);
            var up, down := GoesUp(g, load, Up(s)), GoesDown(g, load, Down(s));
            && (!g.possible ==> !up && !down)
            && (g.possible && g.filtered ==> !up && down)
            && (g.possible && !g.filtered && g.idle ==> up && down)
            && (g.possible && !g.filtered && !g.idle && !g.affordable ==> !up && !down)
            && (g.possible && !g.filtered && !g.idle && g.affordable ==>
                  (up <==> load > Up(s)) && (down <==> load <= Down(s)) && (!up && !down <==> Down(s) < load <= Up(s)))
  {
    Ordered(SpareOf(b, l));
  }

  // ---------------------------------------------------------------- clb_env

  class ClbEnv {
    var upThreshold: int
    var downThreshold: int

    /** adj_threshold; where a cluster has no target CPU all its numbers are 0 */
    method AdjThreshold(big: Cpu, little: Cpu)
      requires NoOverflow(SpareOf(big, little))
      modifies this
      ensures Divisor(SpareOf(big, little)) > 0
      ensures upThreshold == Up(SpareOf(big, little)) && downThreshold == Down(SpareOf(big, little))
      ensures 0 <= downThreshold <= upThreshold <= MAX_LOAD
    {
      Ordered(SpareOf(big, little));
      var s := SpareOf(big, little);
      upThreshold := Up(s);
      downThreshold := Down(s);
    }
  }
}
