// The task clock of a group's run queue, which stands still while the queue is
// inside a throttled hierarchy (backup/fair_mp.c, 2279-2285, 2423-2451).
//
// The raw clock never goes back and stays below 2^64.

module ThrottledClock {

  /** rq->clock_task, throttle_count, throttled_clock_task and
      throttled_clock_task_time */
  datatype Clock = Clock(raw: nat, count: nat, frozen: nat, lost: int)

  /** cfs_rq_clock_task */
  function Reading(k: Clock): int {
    if k.count > 0 then k.frozen else k.raw - k.lost
  }

  datatype Event = Pass(time: nat) | Throttle | Unthrottle

  predicate Enabled(k: Clock, e: Event) {
    e.Unthrottle? ==> k.count > 0
  }

  /** tg_throttle_down and tg_unthrottle_up; throttles may nest */
  function Next(k: Clock, e: Event): Clock
    requires Enabled(k, e)
  {
    match e
    case Pass(time) => k.(raw := k.raw + time)
    case Throttle => k.(count := k.count + 1, frozen := if k.count == 0 then k.raw else k.frozen)
    case Unthrottle =>
      k.(count := k.count - 1, lost := if k.count == 1 then k.lost + (k.raw - k.frozen) else k.lost)
  }

  ghost predicate IsRun(k: Clock, es: seq<Event>, m: Clock)
    decreases |es|
  {
    if es == [] then m == k else Enabled(k, es[0]) && IsRun(Next(k, es[0]), es[1..], m)
  }

  // -------------------------------------------------------------- the history

  function CountAfter(count: nat, e: Event): nat {
    match e
    case Pass(_) => count
    case Throttle => count + 1
    case Unthrottle => if count == 0 then 0 else count - 1
  }

  /** Time that passes in a history while no throttle is in force, and while at
      least one is: the length of the union of the throttled intervals. */
  function FreeTime(count: nat, es: seq<Event>): nat
    decreases |es|
  {
    if es == [] then 0
    else (if es[0].Pass? && count == 0 then es[0].time else 0) + FreeTime(CountAfter(count, es[0]), es[1..])
  }

  function ThrottledTime(count: nat, es: seq<Event>): nat
    decreases |es|
  {
    if es == [] then 0
    else (if es[0].Pass? && count > 0 then es[0].time else 0) + ThrottledTime(CountAfter(count, es[0]), es[1..])
  }

  /** Throttled time so far, counting an interval that is still open. */
  function Total(k: Clock): int {
    if k.count > 0 then k.lost + (k.raw - k.frozen) else k.lost
  }

  /** The books of the clock follow the history. */
  lemma {:induction false} BooksFollowHistory(k: Clock, es: seq<Event>, m: Clock)
    requires IsRun(k, es, m)
    ensures m.raw == k.raw + FreeTime(k.count, es) + ThrottledTime(k.count, es)
    ensures Total(m) == Total(k) + ThrottledTime(k.count, es)
    decreases |es|
  {
    if es != [] {
      BooksFollowHistory(Next(k, es[0]), es[1..], m);
    }
  }

  /** From a zero start, whenever no throttle is in force, the clock shows the raw
      clock less exactly the union of the throttled intervals. */
  lemma UnthrottledReading(k: Clock, es: seq<Event>, m: Clock)
    requires k.count == 0 && k.lost == 0 && IsRun(k, es, m) && m.count == 0
    ensures Reading(m) == m.raw - ThrottledTime(0, es) == Reading(k) + FreeTime(0, es)
  {
    BooksFollowHistory(k, es, m);
  }

  /** Between any two unthrottled moments the clock advances by the time that was
      not throttled: readings never go back, nor run ahead of the raw clock. */
  lemma ReadingsMonotone(k: Clock, es: seq<Event>, m: Clock)
    requires k.count == 0 && IsRun(k, es, m) && m.count == 0
    ensures Reading(m) - Reading(k) == FreeTime(0, es)
    ensures Reading(k) <= Reading(m) && Reading(m) - Reading(k) <= m.raw - k.raw
  {
    BooksFollowHistory(k, es, m);
  }

  /** What each event does to the reading, throttled or not: entering the throttled
      state it jumps ahead by all the time lost before, and at the end of the
      interval it goes back by as much. */
  lemma ReadingSteps(k: Clock, e: Event)
    requires Enabled(k, e)
    ensures Reading(Next(k, e)) - Reading(k)
         == match e
            case Pass(time) => if k.count == 0 then time else 0
            case Throttle => if k.count == 0 then k.lost else 0
            case Unthrottle => if k.count == 1 then -k.lost else 0
  {
  }

  /** Entering the throttled state is continuous only if nothing was lost yet. */
  lemma ThrottleJumps(k: Clock)
    requires k.count == 0
    ensures Reading(Next(k, Throttle)) - Reading(k) == k.lost
    ensures Reading(Next(k, Throttle)) == Reading(k) <==> k.lost == 0
  {
    ReadingSteps(k, Throttle);
  }

  /** The reading never goes back along the events. */
  ghost predicate NeverBack(k: Clock, es: seq<Event>)
    decreases |es|
  {
    es != [] && Enabled(k, es[0]) ==> Reading(k) <= Reading(Next(k, es[0])) && NeverBack(Next(k, es[0]), es[1..])
  }

  /** No throttled interval ends once time has been lost before: count and lost
      are the state at the start, open is the length of the interval so far. */
  predicate NoEndAfterLoss(count: nat, lost: nat, open: nat, es: seq<Event>)
    decreases |es|
  {
    es == [] ||
    match es[0]
    case Pass(time) => NoEndAfterLoss(count, lost, if count > 0 then open + time else 0, es[1..])
    case Throttle => NoEndAfterLoss(count + 1, lost, open, es[1..])
    case Unthrottle =>
      if count == 0 then true
      else if count > 1 then NoEndAfterLoss(count - 1, lost, open, es[1..])
      else lost == 0 && NoEndAfterLoss(0, open, 0, es[1..])
  }

  /** The clock's books are sane: no negative loss, no interval from the future. */
  predicate Sane(k: Clock) {
    k.lost >= 0 && (k.count > 0 ==> k.frozen <= k.raw)
  }

  /** Along any run the reading, throttled or not, never goes back if and only if
      no interval ends when time has been lost before. The condition is about
      the events alone. */
  lemma {:induction false} NeverBackIff(k: Clock, es: seq<Event>, m: Clock)
    requires Sane(k) && IsRun(k, es, m)
    ensures NeverBack(k, es) <==> NoEndAfterLoss(k.count, k.lost, if k.count > 0 then k.raw - k.frozen else 0, es)
    decreases |es|
  {
    if es != [] {
      ReadingSteps(k, es[0]);
      if !(es[0].Unthrottle? && k.count == 1 && k.lost > 0) {
        NeverBackIff(Next(k, es[0]), es[1..], m);
      }
    }
  }

  /** Two intervals, the first of length 7: inside the second the clock reads 8,
      and at its end 1. */
  lemma StepsBack()
    ensures var start, es := Clock(0, 0, 0, 0), [Throttle, Pass(7), Unthrottle, Pass(1), Throttle];
            exists k :: IsRun(start, es, k) && Reading(k) == 8 && Reading(Next(k, Unthrottle)) == 1
  {
    var k1, k2, k3 := Clock(0, 1, 0, 0), Clock(7, 1, 0, 0), Clock(7, 0, 0, 7);
    var k4, k5 := Clock(8, 0, 0, 7), Clock(8, 1, 8, 7);
    var es := [Throttle, Pass(7), Unthrottle, Pass(1), Throttle];
    assert es[4..][1..] == [];
    assert IsRun(k4, es[4..], k5);
    assert es[3..][1..] == es[4..] && IsRun(k3, es[3..], k5);
    assert es[2..][1..] == es[3..] && IsRun(k2, es[2..], k5);
    assert es[1..][1..] == es[2..] && IsRun(k1, es[1..], k5);
    assert IsRun(Clock(0, 0, 0, 0), es, k5);
  }

  /** One of a group's queues on a CPU. */
  class GroupQueue {
    var throttleCount: nat
    var throttledClockTask: nat
    var throttledClockTaskTime: int

    ghost function At(raw: nat): Clock
      reads this
    {
      Clock(raw, throttleCount, throttledClockTask, throttledClockTaskTime)
    }

    /** cfs_rq_clock_task */
    method ClockTask(raw: nat) returns (now: int)
      ensures now == Reading(At(raw))
    {
      if throttleCount != 0 { return throttledClockTask; }
      return raw - throttledClockTaskTime;
    }

    /** tg_throttle_down */
    method ThrottleDown(raw: nat)
      modifies this
      ensures At(raw) == Next(old(At(raw)), Throttle)
    {
      if throttleCount == 0 { throttledClockTask := raw; }
      throttleCount := throttleCount + 1;
    }

    /** tg_unthrottle_up */
    method UnthrottleUp(raw: nat)
      requires throttleCount > 0
      modifies this
      ensures At(raw) == Next(old(At(raw)), Unthrottle)
    {
      throttleCount := throttleCount - 1;
      if throttleCount == 0 {
        throttledClockTaskTime := throttledClockTaskTime + (raw - throttledClockTask);
      }
    }
  }
}
