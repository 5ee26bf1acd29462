// Accounting of the request lists of a queue: limits, congestion, elevator
// private data and bypass (3.10/block/blk-core.c, 99-112, 381-495, 815-853,
// 904-1065).
//
// A step is one critical section of the queue lock; an allocation drops the
// lock in the middle, so a request passes through stages. nr_requests is fixed.
// The io_context's batching state is a choice of each call.

module RequestList {

  /** count, full and starved of one list in one direction */
  datatype Slot = Slot(count: int, full: bool, starved: bool)

  datatype RqList = RqList(async: Slot, sync: Slot)

  function At(l: RqList, sync: bool): Slot {
    if sync then l.sync else l.async
  }

  function Put(l: RqList, sync: bool, x: Slot): RqList {
    if sync then l.(sync := x) else l.(async := x)
  }

  /** The counters of the queue; list 0 is root_rl, the only one that congestion
      is about. */
  datatype Queue = Queue(lists: seq<RqList>, nrAsync: int, nrSync: int, elvpriv: int,
                         busyAsync: bool, busySync: bool)

  function Busy(q: Queue, sync: bool): bool {
    if sync then q.busySync else q.busyAsync
  }

  /** Replaces one slot and its congestion bit, and adds d to the total. */
  function Change(q: Queue, i: nat, sync: bool, x: Slot, busy: bool, d: int): (r: Queue)
    requires i < |q.lists|
    ensures |r.lists| == |q.lists|
  {
    var lists := q.lists[i := Put(q.lists[i], sync, x)];
    if sync then q.(lists := lists, nrSync := q.nrSync + d, busySync := busy)
    else q.(lists := lists, nrAsync := q.nrAsync + d, busyAsync := busy)
  }

  // ------------------------------------------------------------------- limits

  /** nr_requests, the congestion thresholds and the batchers' limit */
  datatype Limits = Limits(nr: int, on: int, off: int, cap: int)

  /** blk_queue_congestion_threshold, and 50% over nr_requests */
  function LimitsFor(nr: nat): Limits {
    var on := nr - nr / 8 + 1;
    var off := nr - nr / 8 - nr / 16 - 1;
    Limits(nr, if on > nr then nr else on, if off < 1 then 1 else off, 3 * nr / 2)
  }

  predicate Sane(lim: Limits) {
    1 <= lim.off <= lim.on <= lim.nr <= lim.cap
  }

  /** The thresholds leave room for hysteresis as soon as there are two requests. */
  lemma LimitsSane(nr: nat)
    requires nr >= 1
    ensures Sane(LimitsFor(nr)) && (nr > 1 ==> LimitsFor(nr).off < LimitsFor(nr).on)
  {
  }

  /** Congestion begins just above 7/8 of nr_requests and ends just below 13/16, and
      batchers may go half over: the rounding is off by less than two requests. */
  lemma LimitsShares(nr: nat)
    requires nr >= 1
    ensures var lim := LimitsFor(nr);
            && lim.nr == nr && 2 * lim.cap <= 3 * nr < 2 * lim.cap + 2
            && (7 * nr <= 8 * (lim.on - 1) < 7 * nr + 8 || (lim.on == nr && 8 * (nr - 1) < 7 * nr + 8))
            && (13 * nr <= 16 * (lim.off + 1) < 13 * nr + 30 || (lim.off == 1 && 13 * nr < 32))
  {
  }

  // ------------------------------------------------------ taking and freeing

  datatype May = No | Yes | Must

  /** __get_request for one slot: the slot, the congestion bit, and whether the
      allocation goes on */
  function AdmitSlot(lim: Limits, root: bool, x: Slot, busy: bool, may: May, batching: bool): (Slot, bool, bool) {
    if may.No? then (StarveSlot(x), busy, false)
    else if x.count + 1 >= lim.on && x.count + 1 >= lim.nr && x.full && !may.Must? && !batching then (x, busy, false)
    else
      var y := if x.count + 1 >= lim.on && x.count + 1 >= lim.nr then x.(full := true) else x;
      var b := busy || (root && x.count + 1 >= lim.on);
      if x.count >= lim.cap then (y, b, false) else (y.(count := x.count + 1, starved := false), b, true)
  }

  function StarveSlot(x: Slot): Slot {
    if x.count == 0 then x.(starved := true) else x
  }

  /** __freed_request for one slot */
  function RelaxSlot(lim: Limits, root: bool, x: Slot, busy: bool): (Slot, bool) {
    (if x.count + 1 <= lim.nr then x.(full := false) else x, if root && x.count < lim.off then false else busy)
  }

  function Admit(lim: Limits, q: Queue, i: nat, sync: bool, may: May, batching: bool): (Queue, bool)
    requires i < |q.lists|
  {
    var (x, busy, ok) := AdmitSlot(lim, i == 0, At(q.lists[i], sync), Busy(q, sync), may, batching);
    (Change(q, i, sync, x, busy, if ok then 1 else 0), ok)
  }

  function Starve(q: Queue, i: nat, sync: bool): Queue
    requires i < |q.lists|
  {
    Change(q, i, sync, StarveSlot(At(q.lists[i], sync)), Busy(q, sync), 0)
  }

  /** __freed_request, after taking d off the count */
  function Relax(lim: Limits, q: Queue, i: nat, sync: bool, d: int): (r: Queue)
    requires i < |q.lists|
    ensures |r.lists| == |q.lists|
  {
    var x := At(q.lists[i], sync);
    var (y, busy) := RelaxSlot(lim, i == 0, x.(count := x.count - d), Busy(q, sync));
    Change(q, i, sync, y, busy, -d)
  }

  /** freed_request */
  function Freed(lim: Limits, q: Queue, i: nat, sync: bool, elvpriv: bool): (r: Queue)
    requires i < |q.lists|
    ensures |r.lists| == |q.lists|
  {
    var p := Relax(lim, if elvpriv then q.(elvpriv := q.elvpriv - 1) else q, i, sync, 1);
    if At(p.lists[i], !sync).starved then Relax(lim, p, i, !sync, 0) else p
  }

  // ------------------------------------------------------------------- states

  /** Allocating: counted, the lock dropped, nothing allocated yet. Failing: the
      elevator data could not be set up, the flag is off, the counter not yet. */
  datatype Stage = Allocating | Failing | Live

  /** A request, or one on its way; priv says that elvpriv was counted for it. */
  datatype Item = Item(list: nat, sync: bool, priv: bool, stage: Stage)

  /** draining: the starter that found depth 0 is still waiting in its drain.
      drained: it has seen elvpriv at zero and returned. */
  datatype Bypass = Bypass(depth: nat, on: bool, draining: bool, drained: bool)

  datatype State = State(q: Queue, items: seq<Item>, bypass: Bypass)

  /** A start that finds depth 0 drains and returns at DrainDone; a nested one
      returns at once. An end belongs to a start that has returned. */
  datatype Event =
    | Get(list: nat, sync: bool, may: May, batching: bool, elevator: bool)
    | Allocated(j: nat)
    | AllocFails(j: nat)
    | PrivFails(j: nat)
    | PrivUndone(j: nat)
    | Free(j: nat)
    | BypassStart
    | DrainDone
    | BypassEnd

  function Bit(b: bool): nat {
    if b then 1 else 0
  }

  predicate Enabled(s: State, e: Event) {
    match e
    case Get(list, _, _, _, _) => list < |s.q.lists|
    case Allocated(j) => j < |s.items| && s.items[j].stage.Allocating?
    case AllocFails(j) => j < |s.items| && s.items[j].stage.Allocating? && s.items[j].list < |s.q.lists|
    case PrivFails(j) => j < |s.items| && s.items[j].stage.Allocating? && s.items[j].priv
    case PrivUndone(j) => j < |s.items| && s.items[j].stage.Failing?
    case Free(j) => j < |s.items| && s.items[j].stage.Live? && s.items[j].list < |s.q.lists|
    case BypassStart => true
    case DrainDone => s.bypass.draining && s.q.elvpriv == 0
    case BypassEnd => s.bypass.depth > Bit(s.bypass.draining)
  }

  function Without(items: seq<Item>, j: nat): seq<Item>
    requires j < |items|
  {
    items[..j] + items[j + 1..]
  }

  function Next(lim: Limits, s: State, e: Event): State
    requires Enabled(s, e)
  {
    match e
    case Get(list, sync, may, batching, elevator) =>
      var (q, ok) := Admit(lim, s.q, list, sync, may, batching);
      var priv := elevator && !s.bypass.on;
      if !ok then s.(q := q)
      else s.(q := if priv then q.(elvpriv := q.elvpriv + 1) else q, items := s.items + [Item(list, sync, priv, Allocating)])
    case Allocated(j) => s.(items := s.items[j := s.items[j].(stage := Live)])
    case AllocFails(j) =>
      var x := s.items[j];
      s.(q := Starve(Freed(lim, s.q, x.list, x.sync, x.priv), x.list, x.sync), items := Without(s.items, j))
    case PrivFails(j) => s.(items := s.items[j := s.items[j].(stage := Failing)])
    case PrivUndone(j) =>
      s.(q := s.q.(elvpriv := s.q.elvpriv - 1), items := s.items[j := s.items[j].(priv := false, stage := Live)])
    case Free(j) =>
      var x := s.items[j];
      s.(q := Freed(lim, s.q, x.list, x.sync, x.priv), items := Without(s.items, j))
    case BypassStart =>
      s.(bypass := s.bypass.(depth := s.bypass.depth + 1, on := true, draining := s.bypass.draining || s.bypass.depth == 0))
    case DrainDone => s.(bypass := s.bypass.(draining := false, drained := true))
    case BypassEnd =>
      s.(bypass := if s.bypass.depth == 1 then Bypass(0, false, false, false)
                   else s.bypass.(depth := s.bypass.depth - 1))
  }

  ghost predicate IsRun(lim: Limits, s: State, es: seq<Event>, t: State)
    decreases |es|
  {
    if es == [] then t == s else Enabled(s, es[0]) && IsRun(lim, Next(lim, s, es[0]), es[1..], t)
  }

  // --------------------------------------------------------------- invariants

  function CountItems(items: seq<Item>, i: nat, sync: bool): nat {
    if items == [] then 0
    else (if items[0].list == i && items[0].sync == sync then 1 else 0) + CountItems(items[1..], i, sync)
  }

  function CountPriv(items: seq<Item>): nat {
    if items == [] then 0 else (if items[0].priv then 1 else 0) + CountPriv(items[1..])
  }

  function SumCounts(lists: seq<RqList>, sync: bool): int {
    if lists == [] then 0 else At(lists[0], sync).count + SumCounts(lists[1..], sync)
  }

  /** The limits of one list in one direction. */
  predicate SlotSound(lim: Limits, x: Slot) {
    0 <= x.count <= lim.cap && (x.full <==> x.count >= lim.nr) && (x.starved ==> x.count == 0)
  }

  /** Congestion of the root list: set from the on threshold up, clear below the off threshold. */
  predicate BusySound(lim: Limits, q: Queue, sync: bool)
    requires |q.lists| > 0
  {
    var count := At(q.lists[0], sync).count;
    (count >= lim.on ==> Busy(q, sync)) && (Busy(q, sync) ==> count >= lim.off)
  }

  predicate QueueSound(lim: Limits, q: Queue) {
    && |q.lists| > 0
    && (forall i :: 0 <= i < |q.lists| ==> SlotSound(lim, q.lists[i].async) && SlotSound(lim, q.lists[i].sync))
    && BusySound(lim, q, false) && BusySound(lim, q, true)
    && q.nrAsync == SumCounts(q.lists, false) && q.nrSync == SumCounts(q.lists, true)
  }

  /** The counters count the requests. */
  ghost predicate Counted(s: State) {
    && (forall j :: 0 <= j < |s.items| ==> s.items[j].list < |s.q.lists|)
    && (forall i: nat :: i < |s.q.lists| ==>
          At(s.q.lists[i], false).count == CountItems(s.items, i, false)
          && At(s.q.lists[i], true).count == CountItems(s.items, i, true))
    && s.q.elvpriv == CountPriv(s.items)
    && (forall j :: 0 <= j < |s.items| && s.items[j].stage.Failing? ==> s.items[j].priv)
  }

  predicate BypassSound(s: State) {
    && (s.bypass.on <==> s.bypass.depth > 0)
    && (s.bypass.on <==> s.bypass.draining || s.bypass.drained)
    && !(s.bypass.draining && s.bypass.drained)
    && (s.bypass.drained ==> s.q.elvpriv == 0)
  }

  ghost predicate Inv(lim: Limits, s: State) {
    QueueSound(lim, s.q) && Counted(s) && BypassSound(s)
  }

  // ---------------------------------------------------------------- the queue

  lemma {:induction false} SumUpdate(lists: seq<RqList>, i: nat, l: RqList, sync: bool)
    requires i < |lists|
    ensures SumCounts(lists[i := l], sync) == SumCounts(lists, sync) - At(lists[i], sync).count + At(l, sync).count
  {
    if i == 0 {
      assert lists[i := l][1..] == lists[1..];
    } else {
      assert lists[i := l][1..] == lists[1..][i - 1 := l];
      SumUpdate(lists[1..], i - 1, l, sync);
    }
  }

  /** What one slot and its congestion bit must satisfy. */
  predicate Fits(lim: Limits, root: bool, x: Slot, busy: bool) {
    SlotSound(lim, x) && (root ==> (x.count >= lim.on ==> busy) && (busy ==> x.count >= lim.off))
  }

  /** A change is sound if what it puts in fits. */
  lemma ChangeSound(lim: Limits, q: Queue, i: nat, sync: bool, x: Slot, busy: bool, d: int)
    requires QueueSound(lim, q) && i < |q.lists|
    requires Fits(lim, i == 0, x, busy) && x.count == At(q.lists[i], sync).count + d
    requires i != 0 ==> busy == Busy(q, sync)
    ensures QueueSound(lim, Change(q, i, sync, x, busy, d))
  {
    var l := Put(q.lists[i], sync, x);
    SumUpdate(q.lists, i, l, true);
    SumUpdate(q.lists, i, l, false);
  }

  lemma AdmitFits(lim: Limits, root: bool, x: Slot, busy: bool, may: May, batching: bool)
    requires Sane(lim) && Fits(lim, root, x, busy)
    ensures var (y, b, ok) := AdmitSlot(lim, root, x, busy, may, batching);
            Fits(lim, root, y, b) && y.count == x.count + (if ok then 1 else 0) && (!root ==> b == busy)
  {
  }

  lemma RelaxFits(lim: Limits, root: bool, x: Slot, busy: bool, d: nat)
    requires Sane(lim) && Fits(lim, root, x, busy) && d <= 1 && d <= x.count
    ensures var (y, b) := RelaxSlot(lim, root, x.(count := x.count - d), busy);
            Fits(lim, root, y, b) && y.count == x.count - d && (!root ==> b == busy)
  {
  }

  lemma SlotFits(lim: Limits, q: Queue, i: nat, sync: bool)
    requires QueueSound(lim, q) && i < |q.lists|
    ensures Fits(lim, i == 0, At(q.lists[i], sync), Busy(q, sync))
  {
  }

  lemma AdmitSound(lim: Limits, q: Queue, i: nat, sync: bool, may: May, batching: bool)
    requires Sane(lim) && QueueSound(lim, q) && i < |q.lists|
    ensures QueueSound(lim, Admit(lim, q, i, sync, may, batching).0)
  {
    SlotFits(lim, q, i, sync);
    AdmitFits(lim, i == 0, At(q.lists[i], sync), Busy(q, sync), may, batching);
    var (x, busy, ok) := AdmitSlot(lim, i == 0, At(q.lists[i], sync), Busy(q, sync), may, batching);
    ChangeSound(lim, q, i, sync, x, busy, if ok then 1 else 0);
  }

  /** Who gets a request: whoever the elevator does not turn away, as long as there are
      fewer than nr_requests; beyond that only batchers and those the elevator insists
      on, up to half as many again. */
  lemma GetGranted(lim: Limits, q: Queue, i: nat, sync: bool, may: May, batching: bool)
    requires Sane(lim) && QueueSound(lim, q) && i < |q.lists|
    ensures var (r, ok) := Admit(lim, q, i, sync, may, batching);
            var x, y := At(q.lists[i], sync), At(r.lists[i], sync);
            && (ok <==> !may.No? && (x.count < lim.nr || (x.count < lim.cap && (may.Must? || batching))))
            && y.count == x.count + Bit(ok) && At(r.lists[i], !sync) == At(q.lists[i], !sync)
            && (y.starved <==> if may.No? then x.starved || x.count == 0 else x.starved && !ok)
            && (forall j :: 0 <= j < |q.lists| && j != i ==> r.lists[j] == q.lists[j]) && r.elvpriv == q.elvpriv
  {
    SlotFits(lim, q, i, sync);
  }

  /** The congestion bit of a direction has hysteresis: it is set from the on threshold
      up, cleared below the off threshold, and in between it stays what it was. */
  predicate Hysteresis(lim: Limits, q: Queue, r: Queue, sync: bool)
    requires |q.lists| > 0 && |r.lists| > 0
  {
    var count := At(r.lists[0], sync).count;
    Busy(r, sync) <==> count >= lim.on || (count >= lim.off && Busy(q, sync))
  }

  lemma RelaxSound(lim: Limits, q: Queue, i: nat, sync: bool, d: nat)
    requires Sane(lim) && QueueSound(lim, q) && i < |q.lists| && d <= 1 && d <= At(q.lists[i], sync).count
    ensures QueueSound(lim, Relax(lim, q, i, sync, d))
  {
    var x := At(q.lists[i], sync);
    SlotFits(lim, q, i, sync);
    RelaxFits(lim, i == 0, x, Busy(q, sync), d);
    var (y, busy) := RelaxSlot(lim, i == 0, x.(count := x.count - d), Busy(q, sync));
    ChangeSound(lim, q, i, sync, y, busy, 0 - d);
  }

  /** The other direction, if it is starved. */
  lemma OtherSound(lim: Limits, q: Queue, i: nat, sync: bool)
    requires Sane(lim) && QueueSound(lim, q) && i < |q.lists|
    ensures QueueSound(lim, if At(q.lists[i], sync).starved then Relax(lim, q, i, sync, 0) else q)
  {
    SlotFits(lim, q, i, sync);
    RelaxSound(lim, q, i, sync, 0);
  }

  lemma FreedSound(lim: Limits, q: Queue, i: nat, sync: bool, elvpriv: bool)
    requires Sane(lim) && QueueSound(lim, q) && i < |q.lists| && At(q.lists[i], sync).count >= 1
    ensures QueueSound(lim, Freed(lim, q, i, sync, elvpriv))
  {
    var r := if elvpriv then q.(elvpriv := q.elvpriv - 1) else q;
    assert QueueSound(lim, r);
    RelaxSound(lim, r, i, sync, 1);
    OtherSound(lim, Relax(lim, r, i, sync, 1), i, !sync);
  }

  lemma StarveSound(lim: Limits, q: Queue, i: nat, sync: bool)
    requires QueueSound(lim, q) && i < |q.lists|
    ensures QueueSound(lim, Starve(q, i, sync))
  {
    SlotFits(lim, q, i, sync);
    ChangeSound(lim, q, i, sync, StarveSlot(At(q.lists[i], sync)), Busy(q, sync), 0);
  }

  // ----------------------------------------------------------------- counting

  function One(x: Item, i: nat, sync: bool): nat {
    if x.list == i && x.sync == sync then 1 else 0
  }

  lemma {:induction false} CountAppend(items: seq<Item>, x: Item, i: nat, sync: bool)
    ensures CountItems(items + [x], i, sync) == CountItems(items, i, sync) + One(x, i, sync)
    ensures CountPriv(items + [x]) == CountPriv(items) + Bit(x.priv)
  {
    if items == [] {
      assert items + [x] == [x] && [x][1..] == [];
    } else {
      assert (items + [x])[1..] == items[1..] + [x];
      CountAppend(items[1..], x, i, sync);
    }
  }

  lemma {:induction false} CountWithout(items: seq<Item>, j: nat, i: nat, sync: bool)
    requires j < |items|
    ensures CountItems(items, i, sync) == CountItems(Without(items, j), i, sync) + One(items[j], i, sync)
    ensures CountPriv(items) == CountPriv(Without(items, j)) + Bit(items[j].priv)
  {
    if j == 0 {
      assert Without(items, 0) == items[1..];
    } else {
      assert Without(items, j)[0] == items[0] && Without(items, j)[1..] == Without(items[1..], j - 1);
      CountWithout(items[1..], j - 1, i, sync);
    }
  }

  lemma {:induction false} CountUpdate(items: seq<Item>, j: nat, x: Item, i: nat, sync: bool)
    requires j < |items| && x.list == items[j].list && x.sync == items[j].sync
    ensures CountItems(items[j := x], i, sync) == CountItems(items, i, sync)
    ensures CountPriv(items[j := x]) == CountPriv(items) - Bit(items[j].priv) + Bit(x.priv)
  {
    if j == 0 {
      assert items[j := x][1..] == items[1..];
    } else {
      assert items[j := x][1..] == items[1..][j - 1 := x];
      CountUpdate(items[1..], j - 1, x, i, sync);
    }
  }

  /** r has the counts of q, with d more in one slot. */
  predicate Shifted(q: Queue, r: Queue, k: nat, dir: bool, d: int) {
    && |r.lists| == |q.lists|
    && forall i :: 0 <= i < |q.lists| ==>
         && At(r.lists[i], dir).count == At(q.lists[i], dir).count + (if i == k then d else 0)
         && At(r.lists[i], !dir).count == At(q.lists[i], !dir).count
  }

  lemma AdmitShifts(lim: Limits, q: Queue, k: nat, dir: bool, may: May, batching: bool)
    requires k < |q.lists|
    ensures var (r, ok) := Admit(lim, q, k, dir, may, batching);
            Shifted(q, r, k, dir, Bit(ok)) && r.elvpriv == q.elvpriv
  {
  }

  lemma FreedShifts(lim: Limits, q: Queue, k: nat, dir: bool, elvpriv: bool)
    requires k < |q.lists|
    ensures var r := Freed(lim, q, k, dir, elvpriv);
            Shifted(q, r, k, dir, -1) && r.elvpriv == q.elvpriv - Bit(elvpriv)
  {
  }

  lemma StarveShifts(q: Queue, k: nat, dir: bool)
    requires k < |q.lists|
    ensures Shifted(q, Starve(q, k, dir), k, dir, 0) && Starve(q, k, dir).elvpriv == q.elvpriv
  {
  }

  // --------------------------------------------------------------- hysteresis

  lemma AdmitLags(lim: Limits, q: Queue, i: nat, sync: bool, may: May, batching: bool, dir: bool)
    requires Sane(lim) && QueueSound(lim, q) && i < |q.lists|
    ensures Hysteresis(lim, q, Admit(lim, q, i, sync, may, batching).0, dir)
  {
    SlotFits(lim, q, i, sync);
    SlotFits(lim, q, 0, dir);
  }

  lemma RelaxLags(lim: Limits, q: Queue, i: nat, sync: bool, d: nat, dir: bool)
    requires Sane(lim) && QueueSound(lim, q) && i < |q.lists| && d <= 1 && d <= At(q.lists[i], sync).count
    ensures Hysteresis(lim, q, Relax(lim, q, i, sync, d), dir)
  {
    SlotFits(lim, q, i, sync);
    SlotFits(lim, q, 0, dir);
  }

  lemma FreedLags(lim: Limits, q: Queue, i: nat, sync: bool, elvpriv: bool, dir: bool)
    requires Sane(lim) && QueueSound(lim, q) && i < |q.lists| && At(q.lists[i], sync).count >= 1
    ensures Hysteresis(lim, q, Freed(lim, q, i, sync, elvpriv), dir)
  {
    var r := if elvpriv then q.(elvpriv := q.elvpriv - 1) else q;
    assert QueueSound(lim, r);
    RelaxSound(lim, r, i, sync, 1);
    RelaxLags(lim, r, i, sync, 1, dir);
    var p := Relax(lim, r, i, sync, 1);
    SlotFits(lim, p, i, !sync);
    RelaxLags(lim, p, i, !sync, 0, dir);
  }

  lemma CountedItem(s: State, j: nat)
    requires Counted(s) && j < |s.items|
    ensures s.items[j].list < |s.q.lists| && At(s.q.lists[s.items[j].list], s.items[j].sync).count >= 1
  {
    CountWithout(s.items, j, s.items[j].list, s.items[j].sync);
  }

  lemma FreeLags(lim: Limits, s: State, j: nat, dir: bool)
    requires Sane(lim) && Inv(lim, s) && Enabled(s, Free(j))
    ensures |Next(lim, s, Free(j)).q.lists| == |s.q.lists| && Hysteresis(lim, s.q, Next(lim, s, Free(j)).q, dir)
  {
    CountedItem(s, j);
    FreedLags(lim, s.q, s.items[j].list, s.items[j].sync, s.items[j].priv, dir);
  }

  lemma AllocFailsLags(lim: Limits, s: State, j: nat, dir: bool)
    requires Sane(lim) && Inv(lim, s) && Enabled(s, AllocFails(j))
    ensures |Next(lim, s, AllocFails(j)).q.lists| == |s.q.lists| && Hysteresis(lim, s.q, Next(lim, s, AllocFails(j)).q, dir)
  {
    var x := s.items[j];
    CountedItem(s, j);
    FreedLags(lim, s.q, x.list, x.sync, x.priv, dir);
    StarveFrame(Freed(lim, s.q, x.list, x.sync, x.priv), x.list, x.sync, dir);
  }

  /** Marking a list as starved touches no count and no congestion bit. */
  lemma StarveFrame(q: Queue, i: nat, sync: bool, dir: bool)
    requires i < |q.lists|
    ensures var r := Starve(q, i, sync);
            |r.lists| == |q.lists| && At(r.lists[0], dir).count == At(q.lists[0], dir).count && Busy(r, dir) == Busy(q, dir)
  {
  }

  lemma SettledLags(lim: Limits, q: Queue, elvpriv: int, dir: bool)
    requires Sane(lim) && QueueSound(lim, q)
    ensures Hysteresis(lim, q, q.(elvpriv := elvpriv), dir)
  {
    SlotFits(lim, q, 0, dir);
  }

  /** Every step lets the congestion bits of both directions follow the thresholds with
      hysteresis. */
  lemma StepLags(lim: Limits, s: State, e: Event, dir: bool)
    requires Sane(lim) && Inv(lim, s) && Enabled(s, e)
    ensures |Next(lim, s, e).q.lists| == |s.q.lists| && Hysteresis(lim, s.q, Next(lim, s, e).q, dir)
  {
    SettledLags(lim, s.q, s.q.elvpriv, dir);
    match e
    case Get(list, sync, may, batching, _) => AdmitLags(lim, s.q, list, sync, may, batching, dir);
    case AllocFails(j) => AllocFailsLags(lim, s, j, dir);
    case Free(j) => FreeLags(lim, s, j, dir);
    case PrivUndone(_) => SettledLags(lim, s.q, s.q.elvpriv - 1, dir);
    case _ =>
  }

  /** One item more, counted. */
  lemma AddedCounted(s: State, t: State, x: Item)
    requires Counted(s) && x.list < |s.q.lists| && !x.stage.Failing?
    requires t.items == s.items + [x] && Shifted(s.q, t.q, x.list, x.sync, 1)
    requires t.q.elvpriv == s.q.elvpriv + Bit(x.priv)
    ensures Counted(t)
  {
    CountAppend(s.items, x, 0, false);
    forall i: nat | i < |t.q.lists|
      ensures At(t.q.lists[i], false).count == CountItems(t.items, i, false)
      ensures At(t.q.lists[i], true).count == CountItems(t.items, i, true)
    {
      CountAppend(s.items, x, i, false);
      CountAppend(s.items, x, i, true);
    }
  }

  /** One item less, counted. */
  lemma RemovedCounted(s: State, t: State, j: nat)
    requires Counted(s) && j < |s.items| && t.items == Without(s.items, j)
    requires Shifted(s.q, t.q, s.items[j].list, s.items[j].sync, -1)
    requires t.q.elvpriv == s.q.elvpriv - Bit(s.items[j].priv)
    ensures Counted(t)
  {
    CountWithout(s.items, j, 0, false);
    forall i: nat | i < |t.q.lists|
      ensures At(t.q.lists[i], false).count == CountItems(t.items, i, false)
      ensures At(t.q.lists[i], true).count == CountItems(t.items, i, true)
    {
      CountWithout(s.items, j, i, false);
      CountWithout(s.items, j, i, true);
    }
  }

  /** One item changed its stage and perhaps lost its private data. */
  lemma StagedCounted(s: State, t: State, j: nat, x: Item)
    requires Counted(s) && j < |s.items| && x.list == s.items[j].list && x.sync == s.items[j].sync
    requires t.items == s.items[j := x] && (x.stage.Failing? ==> x.priv)
    requires t.q == s.q.(elvpriv := s.q.elvpriv - Bit(s.items[j].priv) + Bit(x.priv))
    ensures Counted(t)
  {
    CountUpdate(s.items, j, x, 0, false);
    forall i: nat | i < |t.q.lists|
      ensures At(t.q.lists[i], false).count == CountItems(t.items, i, false)
      ensures At(t.q.lists[i], true).count == CountItems(t.items, i, true)
    {
      CountUpdate(s.items, j, x, i, false);
      CountUpdate(s.items, j, x, i, true);
    }
  }

  lemma {:induction false} Present(items: seq<Item>, j: nat)
    requires j < |items|
    ensures CountItems(items, items[j].list, items[j].sync) >= 1 && (items[j].priv ==> CountPriv(items) >= 1)
  {
    if j > 0 {
      Present(items[1..], j - 1);
    }
  }

  lemma GetCounted(lim: Limits, s: State, e: Event)
    requires Counted(s) && Enabled(s, e) && e.Get?
    ensures Counted(Next(lim, s, e))
  {
    var t := Next(lim, s, e);
    AdmitShifts(lim, s.q, e.list, e.sync, e.may, e.batching);
    if t.items != s.items {
      AddedCounted(s, t, t.items[|s.items|]);
    }
  }

  lemma GetBypass(lim: Limits, s: State, e: Event)
    requires BypassSound(s) && Enabled(s, e) && e.Get?
    ensures BypassSound(Next(lim, s, e))
  {
    AdmitShifts(lim, s.q, e.list, e.sync, e.may, e.batching);
  }

  /** elvpriv is not part of what makes the queue sound. */
  lemma ElvprivFree(lim: Limits, q: Queue, n: int)
    requires QueueSound(lim, q)
    ensures QueueSound(lim, q.(elvpriv := n))
  {
  }

  lemma GetKeeps(lim: Limits, s: State, e: Event)
    requires Sane(lim) && Inv(lim, s) && Enabled(s, e) && e.Get?
    ensures Inv(lim, Next(lim, s, e))
  {
    var q := Admit(lim, s.q, e.list, e.sync, e.may, e.batching).0;
    AdmitSound(lim, s.q, e.list, e.sync, e.may, e.batching);
    ElvprivFree(lim, q, q.elvpriv + 1);
    GetCounted(lim, s, e);
    GetBypass(lim, s, e);
  }

  lemma RemoveSound(lim: Limits, s: State, e: Event)
    requires Sane(lim) && Inv(lim, s) && Enabled(s, e) && (e.AllocFails? || e.Free?)
    ensures QueueSound(lim, Next(lim, s, e).q)
  {
    var x := s.items[e.j];
    var r := Freed(lim, s.q, x.list, x.sync, x.priv);
    Present(s.items, e.j);
    FreedSound(lim, s.q, x.list, x.sync, x.priv);
    StarveSound(lim, r, x.list, x.sync);
  }

  lemma RemoveCounted(lim: Limits, s: State, e: Event)
    requires Counted(s) && BypassSound(s) && Enabled(s, e) && (e.AllocFails? || e.Free?)
    ensures Counted(Next(lim, s, e)) && BypassSound(Next(lim, s, e))
  {
    var x := s.items[e.j];
    var r := Freed(lim, s.q, x.list, x.sync, x.priv);
    Present(s.items, e.j);
    FreedShifts(lim, s.q, x.list, x.sync, x.priv);
    StarveShifts(r, x.list, x.sync);
    RemovedCounted(s, Next(lim, s, e), e.j);
  }

  lemma RemoveKeeps(lim: Limits, s: State, e: Event)
    requires Sane(lim) && Inv(lim, s) && Enabled(s, e) && (e.AllocFails? || e.Free?)
    ensures Inv(lim, Next(lim, s, e))
  {
    RemoveSound(lim, s, e);
    RemoveCounted(lim, s, e);
  }

  lemma StageKeeps(lim: Limits, s: State, e: Event)
    requires Inv(lim, s) && Enabled(s, e) && (e.Allocated? || e.PrivFails? || e.PrivUndone?)
    ensures Inv(lim, Next(lim, s, e))
  {
    var t := Next(lim, s, e);
    Present(s.items, e.j);
    StagedCounted(s, t, e.j, t.items[e.j]);
  }

  lemma StepKeeps(lim: Limits, s: State, e: Event)
    requires Sane(lim) && Inv(lim, s) && Enabled(s, e)
    ensures Inv(lim, Next(lim, s, e))
  {
    if e.Get? { GetKeeps(lim, s, e); }
    else if e.AllocFails? || e.Free? { RemoveKeeps(lim, s, e); }
    else if e.Allocated? || e.PrivFails? || e.PrivUndone? { StageKeeps(lim, s, e); }
  }

  lemma {:induction false} RunKeeps(lim: Limits, s: State, es: seq<Event>, t: State)
    requires Sane(lim) && Inv(lim, s) && IsRun(lim, s, es, t)
    ensures Inv(lim, t)
    decreases |es|
  {
    if es != [] {
      StepKeeps(lim, s, es[0]);
      RunKeeps(lim, Next(lim, s, es[0]), es[1..], t);
    }
  }

  const EMPTY := RqList(Slot(0, false, false), Slot(0, false, false))

  /** A new queue with n lists. */
  function Fresh(n: nat): State {
    State(Queue(seq(n, _ => EMPTY), 0, 0, 0, false, false), [], Bypass(0, false, false, false))
  }

  lemma {:induction false} FreshSums(lists: seq<RqList>, sync: bool)
    requires forall i :: 0 <= i < |lists| ==> lists[i] == EMPTY
    ensures SumCounts(lists, sync) == 0
  {
    if lists != [] {
      FreshSums(lists[1..], sync);
    }
  }

  lemma FreshInv(lim: Limits, n: nat)
    requires Sane(lim) && n >= 1
    ensures Inv(lim, Fresh(n))
  {
    FreshSums(Fresh(n).q.lists, false);
    FreshSums(Fresh(n).q.lists, true);
  }

  /** At every release of the lock: no list exceeds one and a half times
      nr_requests, the totals are the sums, full means at least nr_requests,
      congestion follows the thresholds, elvpriv counts the requests that carry
      elevator data or are about to lose it, and from the end of a draining
      bypass start to the end of bypass mode there are none. */
  lemma EveryRunCounts(nr: nat, n: nat, es: seq<Event>, t: State)
    requires nr >= 1 && n >= 1 && IsRun(LimitsFor(nr), Fresh(n), es, t)
    ensures Inv(LimitsFor(nr), t)
  {
    LimitsSane(nr);
    FreshInv(LimitsFor(nr), n);
    RunKeeps(LimitsFor(nr), Fresh(n), es, t);
  }

  // ------------------------------------------------------------------- bypass

  /** Bypass mode is on after every single step. */
  ghost predicate StaysOn(lim: Limits, s: State, es: seq<Event>)
    decreases |es|
  {
    es != [] ==> Enabled(s, es[0]) && Next(lim, s, es[0]).bypass.on && StaysOn(lim, Next(lim, s, es[0]), es[1..])
  }

  lemma StepDoesNotGrow(lim: Limits, s: State, e: Event)
    requires Inv(lim, s) && Enabled(s, e) && s.bypass.on
    ensures Next(lim, s, e).q.elvpriv <= s.q.elvpriv
  {
    match e
    case Get(list, sync, may, batching, _) => AdmitShifts(lim, s.q, list, sync, may, batching);
    case AllocFails(j) => FreedShifts(lim, s.q, s.items[j].list, s.items[j].sync, s.items[j].priv);
    case Free(j) => FreedShifts(lim, s.q, s.items[j].list, s.items[j].sync, s.items[j].priv);
    case _ =>
  }

  /** From any start of bypass mode to its end the number of requests that carry
      elevator data never grows. */
  lemma {:induction false} BypassOnlyDrains(lim: Limits, s: State, es: seq<Event>, t: State)
    requires Sane(lim) && Inv(lim, s) && s.bypass.on && IsRun(lim, s, es, t) && StaysOn(lim, s, es)
    ensures Inv(lim, t) && CountPriv(t.items) <= CountPriv(s.items)
    decreases |es|
  {
    if es != [] {
      StepKeeps(lim, s, es[0]);
      StepDoesNotGrow(lim, s, es[0]);
      BypassOnlyDrains(lim, Next(lim, s, es[0]), es[1..], t);
    }
  }

  /** Once drained, no request carries elevator data until bypass mode ends, for
      all starts, ends, allocations and failures in between. */
  lemma {:induction false} DrainHolds(lim: Limits, s: State, es: seq<Event>, t: State)
    requires Sane(lim) && Inv(lim, s) && s.bypass.drained && IsRun(lim, s, es, t) && StaysOn(lim, s, es)
    ensures t.bypass.drained && CountPriv(t.items) == 0
    decreases |es|
  {
    if es != [] {
      StepKeeps(lim, s, es[0]);
      DrainHolds(lim, Next(lim, s, es[0]), es[1..], t);
    }
  }

  predicate NoDrainDone(es: seq<Event>) {
    forall i :: 0 <= i < |es| ==> !es[i].DrainDone?
  }

  lemma {:induction false} DrainWaits(lim: Limits, s: State, es: seq<Event>, t: State)
    requires Sane(lim) && Inv(lim, s) && s.bypass.draining && IsRun(lim, s, es, t) && NoDrainDone(es)
    ensures Inv(lim, t) && t.bypass.draining && t.bypass.on
    decreases |es|
  {
    if es != [] {
      StepKeeps(lim, s, es[0]);
      DrainWaits(lim, Next(lim, s, es[0]), es[1..], t);
    }
  }

  /** The start that finds depth 0: whatever happens before it returns, bypass mode
      stays on, it is still the one that drains, and when it does return no
      request carries elevator data. */
  lemma FirstStartPromise(lim: Limits, s: State, es: seq<Event>, t: State)
    requires Sane(lim) && Inv(lim, s) && s.bypass.depth == 0
    requires IsRun(lim, Next(lim, s, BypassStart), es, t) && NoDrainDone(es)
    ensures t.bypass.on && t.bypass.draining
    ensures Enabled(t, DrainDone) ==> var u := Next(lim, t, DrainDone);
                                      u.bypass.on && u.bypass.drained && CountPriv(u.items) == 0
  {
    StepKeeps(lim, s, BypassStart);
    DrainWaits(lim, Next(lim, s, BypassStart), es, t);
  }

  lemma {:induction false} RunAppend(lim: Limits, s: State, es: seq<Event>, t: State, e: Event)
    requires IsRun(lim, s, es, t) && Enabled(t, e)
    ensures IsRun(lim, s, es + [e], Next(lim, t, e))
    decreases |es|
  {
    if es == [] {
      assert ([] + [e])[1..] == [] && es + [e] == [e];
    } else {
      assert (es + [e])[1..] == es[1..] + [e];
      RunAppend(lim, Next(lim, s, es[0]), es[1..], t, e);
    }
  }

  /** A queue with one request in flight and d starts of bypass mode, the first of
      which has not returned. */
  ghost predicate Pending(lim: Limits, es: seq<Event>, t: State, d: nat) {
    && IsRun(lim, Fresh(1), es, t) && t.bypass == Bypass(d, d > 0, d > 0, false)
    && t.q.elvpriv == 1 && CountPriv(t.items) == 1
  }

  lemma {:induction false} PendingReached(lim: Limits, d: nat) returns (es: seq<Event>, t: State)
    requires Sane(lim)
    ensures Pending(lim, es, t, d)
  {
    if d == 0 {
      var get := Get(0, false, Must, true, true);
      t := Next(lim, Fresh(1), get);
      assert IsRun(lim, Fresh(1), [], Fresh(1));
      RunAppend(lim, Fresh(1), [], Fresh(1), get);
      es := [] + [get];
      CountAppend([], t.items[0], 0, false);
    } else {
      var es', t' := PendingReached(lim, d - 1);
      RunAppend(lim, Fresh(1), es', t', BypassStart);
      es, t := es' + [BypassStart], Next(lim, t', BypassStart);
    }
  }

  /** At every depth, a nested start can return, at once, while a request still
      carries elevator data. */
  lemma NestedStartReturnsEarly(lim: Limits, d: nat)
    requires Sane(lim) && d >= 1
    ensures exists es, t :: IsRun(lim, Fresh(1), es, t) && t.bypass.depth == d && !t.bypass.drained
                            && CountPriv(Next(lim, t, BypassStart).items) == 1
  {
    var es, t := PendingReached(lim, d);
  }

  /** Whatever run led to depth d, with the drain finished or not, a start returns
      with no request carrying elevator data. */
  ghost predicate Promised(lim: Limits, d: nat, drained: bool) {
    forall n: nat, es: seq<Event>, s: State ::
      n >= 1 && IsRun(lim, Fresh(n), es, s) && s.bypass.depth == d && s.bypass.drained == drained ==>
        CountPriv(Next(lim, s, BypassStart).items) == 0
  }

  /** The documented promise of blk_queue_bypass_start holds for a nested start, at
      any depth, if and only if the first start has finished its drain. */
  lemma NestedStartPromise(lim: Limits, d: nat, drained: bool)
    requires Sane(lim) && d >= 1
    ensures Promised(lim, d, drained) <==> drained
  {
    if drained {
      forall n: nat, es: seq<Event>, s: State |
        n >= 1 && IsRun(lim, Fresh(n), es, s) && s.bypass.depth == d && s.bypass.drained == drained
        ensures CountPriv(Next(lim, s, BypassStart).items) == 0
      {
        FreshInv(lim, n);
        RunKeeps(lim, Fresh(n), es, s);
      }
    } else {
      var es, t := PendingReached(lim, d);
      assert CountPriv(Next(lim, t, BypassStart).items) == 1;
    }
  }

  // ---------------------------------------------------------------- the queue

  // --------------------------------------------------------------- a request's life

  /** A Get, with the queue lock held: granted exactly to those GetGranted names; then
      there is one more request on its way, with elevator data exactly if it wants some
      and the queue is not bypassed. Refused, it leaves nothing but the mark that this
      direction is starved. */
  lemma GetStep(lim: Limits, s: State, e: Event)
    requires Sane(lim) && Inv(lim, s) && Enabled(s, e) && e.Get?
    ensures var t, x := Next(lim, s, e), At(s.q.lists[e.list], e.sync);
            var granted := !e.may.No? && (x.count < lim.nr || (x.count < lim.cap && (e.may.Must? || e.batching)));
            var priv := e.elevator && !s.bypass.on;
            && t.items == s.items + (if granted then [Item(e.list, e.sync, priv, Allocating)] else [])
            && t.q.elvpriv == s.q.elvpriv + Bit(granted && priv) && t.bypass == s.bypass
            && |t.q.lists| == |s.q.lists|
            && (At(t.q.lists[e.list], e.sync).starved
                <==> if e.may.No? then x.starved || x.count == 0 else x.starved && !granted)
  {
    GetGranted(lim, s.q, e.list, e.sync, e.may, e.batching);
  }

  /** What is counted the same. */
  predicate SameCounts(q: Queue, r: Queue) {
    && |r.lists| == |q.lists| && r.elvpriv == q.elvpriv
    && (forall i :: 0 <= i < |q.lists| ==>
          r.lists[i].async.count == q.lists[i].async.count && r.lists[i].sync.count == q.lists[i].sync.count)
  }

  /** The counters follow from the requests. */
  lemma CountsFollow(s: State, t: State)
    requires Counted(s) && Counted(t) && t.items == s.items && |t.q.lists| == |s.q.lists|
    ensures SameCounts(s.q, t.q)
  {
    forall i | 0 <= i < |s.q.lists|
      ensures t.q.lists[i].async.count == s.q.lists[i].async.count && t.q.lists[i].sync.count == s.q.lists[i].sync.count
    {
      assert At(s.q.lists[i], false).count == CountItems(s.items, i, false);
      assert At(s.q.lists[i], true).count == CountItems(s.items, i, true);
    }
  }

  /** Request j on its way becomes live. */
  lemma BecomesLive(lim: Limits, s: State, j: nat)
    requires Sane(lim) && Inv(lim, s) && Enabled(s, Allocated(j))
    ensures var t := Next(lim, s, Allocated(j));
            && Inv(lim, t) && t == s.(items := s.items[j := s.items[j].(stage := Live)])
            && Enabled(t, Free(j))
  {
    StepKeeps(lim, s, Allocated(j));
  }

  /** Its elevator data fails: it becomes live without, and the counter is taken back. */
  lemma LosesPriv(lim: Limits, s: State, j: nat)
    requires Sane(lim) && Inv(lim, s) && Enabled(s, PrivFails(j))
    ensures var m := Next(lim, s, PrivFails(j));
            Inv(lim, m) && m.q == s.q && Enabled(m, PrivUndone(j)) &&
            var t := Next(lim, m, PrivUndone(j));
            && Inv(lim, t) && t.items == s.items[j := s.items[j].(priv := false, stage := Live)]
            && t.q == s.q.(elvpriv := s.q.elvpriv - 1) && Enabled(t, Free(j))
  {
    StepKeeps(lim, s, PrivFails(j));
    var m := Next(lim, s, PrivFails(j));
    StepKeeps(lim, m, PrivUndone(j));
    assert m.items[j := m.items[j].(priv := false, stage := Live)] == s.items[j := s.items[j].(priv := false, stage := Live)];
  }

  /** Freeing a live request, or giving up one on its way, takes it off the books. */
  lemma TakenOff(lim: Limits, s: State, j: nat, e: Event)
    requires Sane(lim) && Inv(lim, s) && Enabled(s, e) && (e == Free(j) || e == AllocFails(j))
    ensures var t := Next(lim, s, e);
            Inv(lim, t) && t.items == s.items[..j] + s.items[j + 1..] && |t.q.lists| == |s.q.lists|
  {
    StepKeeps(lim, s, e);
    StepLags(lim, s, e, true);
  }

  /** A request that has been granted and is then freed, given up, or freed after losing
      its elevator data leaves all counters as they were. */
  lemma GrantedAndGone(lim: Limits, s: State, e: Event)
    requires Sane(lim) && Inv(lim, s) && Enabled(s, e) && e.Get? && |Next(lim, s, e).items| > |s.items|
    ensures var j, a := |s.items|, Next(lim, s, e);
            && Enabled(a, Allocated(j)) && Enabled(a, AllocFails(j)) && (Enabled(a, PrivFails(j)) <==> e.elevator && !s.bypass.on)
            && SameCounts(s.q, Next(lim, a, AllocFails(j)).q)
            && (var b := Next(lim, a, Allocated(j)); Enabled(b, Free(j)) && SameCounts(s.q, Next(lim, b, Free(j)).q))
            && (Enabled(a, PrivFails(j)) ==>
                  var m := Next(lim, a, PrivFails(j));
                  Enabled(m, PrivUndone(j)) &&
                  var b := Next(lim, m, PrivUndone(j));
                  Enabled(b, Free(j)) && SameCounts(s.q, Next(lim, b, Free(j)).q))
  {
    var j, a := |s.items|, Next(lim, s, e);
    GetStep(lim, s, e);
    StepKeeps(lim, s, e);
    GoneAgain(lim, s, a, j, AllocFails(j));
    BecomesLive(lim, a, j);
    GoneAgain(lim, s, Next(lim, a, Allocated(j)), j, Free(j));
    if Enabled(a, PrivFails(j)) {
      LosesPriv(lim, a, j);
      GoneAgain(lim, s, Next(lim, Next(lim, a, PrivFails(j)), PrivUndone(j)), j, Free(j));
    }
  }

  lemma GoneAgain(lim: Limits, s: State, a: State, j: nat, e: Event)
    requires Sane(lim) && Inv(lim, s) && Inv(lim, a) && Enabled(a, e) && (e == Free(j) || e == AllocFails(j))
    requires j == |s.items| && |a.items| == j + 1 && a.items[..j] == s.items && |a.q.lists| == |s.q.lists|
    ensures SameCounts(s.q, Next(lim, a, e).q)
  {
    TakenOff(lim, a, j, e);
    assert a.items[..j] + a.items[j + 1..] == s.items;
    CountsFollow(s, Next(lim, a, e));
  }

  // ---------------------------------------------------------------- depth of bypass

  function Starts(es: seq<Event>): nat {
    if es == [] then 0 else Bit(es[0].BypassStart?) + Starts(es[1..])
  }

  function Ends(es: seq<Event>): nat {
    if es == [] then 0 else Bit(es[0].BypassEnd?) + Ends(es[1..])
  }

  /** Over every run bypass_depth is the number of starts less the number of ends, and
      the queue is in bypass mode exactly while that is positive. */
  lemma {:induction false} DepthCounts(lim: Limits, s: State, es: seq<Event>, t: State)
    requires Sane(lim) && Inv(lim, s) && IsRun(lim, s, es, t)
    ensures t.bypass.depth == s.bypass.depth + Starts(es) - Ends(es) && (t.bypass.on <==> t.bypass.depth > 0)
    decreases |es|
  {
    if es != [] {
      StepKeeps(lim, s, es[0]);
      DepthStep(lim, s, es[0]);
      DepthCounts(lim, Next(lim, s, es[0]), es[1..], t);
    }
  }

  lemma DepthStep(lim: Limits, s: State, e: Event)
    requires Enabled(s, e)
    ensures Next(lim, s, e).bypass.depth == s.bypass.depth + Bit(e.BypassStart?) - Bit(e.BypassEnd?)
  {
  }

  class RequestQueue {
    const lim: Limits
    var lists: seq<RqList>
    var nrAsync: int
    var nrSync: int
    var elvpriv: int
    var busyAsync: bool
    var busySync: bool
    var bypassDepth: int
    var bypass: bool

    ghost function Now(): Queue
      reads this
    {
      Queue(lists, nrAsync, nrSync, elvpriv, busyAsync, busySync)
    }

    constructor (nr: nat, n: nat)
      requires nr >= 1 && n >= 1
      ensures Sane(lim) && Now() == Fresh(n).q && QueueSound(lim, Now()) && bypassDepth == 0 && !bypass
    {
      LimitsSane(nr);
      lim := LimitsFor(nr);
      lists := seq(n, _ => EMPTY);
      nrAsync, nrSync, elvpriv, busyAsync, busySync := 0, 0, 0, false, false;
      bypassDepth, bypass := 0, false;
      FreshSums(Fresh(n).q.lists, false);
      FreshSums(Fresh(n).q.lists, true);
    }

    /** Writes one slot, its congestion bit and the total of its direction. */
    method Store(i: nat, sync: bool, x: Slot, busy: bool, d: int)
      requires i < |lists|
      modifies this`lists, this`nrAsync, this`nrSync, this`busyAsync, this`busySync
      ensures Now() == Change(old(Now()), i, sync, x, busy, d)
    {
      lists := lists[i := Put(lists[i], sync, x)];
      if sync {
        nrSync, busySync := nrSync + d, busy;
      } else {
        nrAsync, busyAsync := nrAsync + d, busy;
      }
    }

    /** __freed_request, with the count taken down by d first */
    method FreedOne(i: nat, sync: bool, d: int)
      requires i < |lists|
      modifies this`lists, this`nrAsync, this`nrSync, this`busyAsync, this`busySync
      ensures Now() == Relax(lim, old(Now()), i, sync, d)
    {
      var x := At(lists[i], sync);
      x := x.(count := x.count - d);
      var busy := if sync then busySync else busyAsync;
      if i == 0 && x.count < lim.off { busy := false; }
      if x.count + 1 <= lim.nr { x := x.(full := false); }
      Store(i, sync, x, busy, -d);
    }

    /** freed_request */
    method FreedRequest(i: nat, sync: bool, flags: bool)
      requires i < |lists|
      modifies this`lists, this`nrAsync, this`nrSync, this`elvpriv, this`busyAsync, this`busySync
      ensures Now() == Freed(lim, old(Now()), i, sync, flags)
    {
      if flags { elvpriv := elvpriv - 1; }
      FreedOne(i, sync, 1);
      if At(lists[i], !sync).starved { FreedOne(i, !sync, 0); }
    }

    /** The checks of __get_request: the slot and the congestion bit after them,
        and whether the allocation goes on */
    method Decide(root: bool, slot: Slot, congested: bool, may: May, batching: bool)
      returns (x: Slot, busy: bool, ok: bool)
      ensures (x, busy, ok) == AdmitSlot(lim, root, slot, congested, may, batching)
    {
      x, busy, ok := slot, congested, false;
      if may.No? {
        if x.count == 0 { x := x.(starved := true); }
        return;
      }
      if x.count + 1 >= lim.on {
        if x.count + 1 >= lim.nr {
          if !x.full {
            x := x.(full := true);
          } else if !may.Must? && !batching {
            return;
          }
        }
        if root { busy := true; }
      }
      if x.count >= lim.cap { return; }
      x, ok := x.(count := x.count + 1, starved := false), true;
    }

    /** __get_request up to the release of the lock, on a queue that is not dying */
    method GetRequest(i: nat, sync: bool, may: May, batching: bool, elevator: bool) returns (ok: bool, priv: bool)
      requires i < |lists|
      modifies this`lists, this`nrAsync, this`nrSync, this`elvpriv, this`busyAsync, this`busySync
      ensures ok == Admit(lim, old(Now()), i, sync, may, batching).1
      ensures priv == (ok && elevator && !bypass)
      ensures Now() == Admit(lim, old(Now()), i, sync, may, batching).0.(elvpriv := old(elvpriv) + Bit(priv))
    {
      var x, busy;
      x, busy, ok := Decide(i == 0, At(lists[i], sync), if sync then busySync else busyAsync, may, batching);
      Store(i, sync, x, busy, if ok then 1 else 0);
      priv := ok && elevator && !bypass;
      if priv { elvpriv := elvpriv + 1; }
    }

    /** blk_queue_bypass_start up to the drain, and whether it drains */
    method BypassStartQueue() returns (drain: bool)
      requires bypassDepth >= 0
      modifies this`bypassDepth, this`bypass
      ensures bypassDepth == old(bypassDepth) + 1 && bypass && (drain <==> old(bypassDepth) == 0)
    {
      drain := bypassDepth == 0;
      bypassDepth := bypassDepth + 1;
      bypass := true;
    }

    /** blk_queue_bypass_end */
    method BypassEndQueue()
      requires bypassDepth > 0
      modifies this`bypassDepth, this`bypass
      ensures bypassDepth == old(bypassDepth) - 1 && bypass == (if bypassDepth == 0 then false else old(bypass))
    {
      bypassDepth := bypassDepth - 1;
      if bypassDepth == 0 { bypass := false; }
    }
  }
}
