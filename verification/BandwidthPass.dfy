// One uninterrupted pass of distribute_cfs_runtime over the throttled list, and
// the period callback around it (backup/fair_mp.c, 2539-2660). Between two
// locks other CPUs may run; what they can do is in BandwidthProtocol. Here
// nobody else runs, and the outcome is exact.

module BandwidthPass {
  import opened Words

  /** The local pool of one CPU's queue. */
  datatype Local = Local(cpu: nat, remaining: int)

  predicate S64(r: int) {
    -0x8000_0000_0000_0000 <= r < 0x8000_0000_0000_0000
  }

  predicate AllS64(qs: seq<Local>) {
    forall i :: 0 <= i < |qs| ==> S64(qs[i].remaining)
  }

  /** What is handed to a throttled queue. GrantIsU64 ties it to the u64
      expression of the code. */
  function Grant(remaining: int, left: nat): (g: nat)
    ensures g <= left
  {
    if remaining > 1 || 1 - remaining > left then left else 1 - remaining
  }

  /** The code computes `-cfs_rq->runtime_remaining + 1` as a u64 and clips it to
      what is left: for a queue with more than one nanosecond the difference
      wraps and the queue takes everything. */
  lemma GrantIsU64(r: int, left: nat)
    requires S64(r) && left < 0x8000_0000_0000_0000
    ensures Grant(r, left) == Min(Wrap(1 - r), left)
  {
    if r <= 1 { assert Wrap(1 - r) == 1 - r; } else { assert Wrap(1 - r) == U64 + 1 - r; }
  }

  function Served(q: Local, left: nat): Local {
    q.(remaining := q.remaining + Grant(q.remaining, left))
  }

  /** The throttled queues, in list order, after a pass with `left` to give. The
      pass stops as soon as it has nothing left. */
  function Pass(qs: seq<Local>, left: nat): (out: seq<Local>)
    ensures |out| == |qs|
  {
    if qs == [] || left == 0 then qs
    else [Served(qs[0], left)] + Pass(qs[1..], left - Grant(qs[0].remaining, left))
  }

  function Left(qs: seq<Local>, left: nat): (out: nat)
    ensures out <= left
  {
    if qs == [] || left == 0 then left else Left(qs[1..], left - Grant(qs[0].remaining, left))
  }

  /** How many queues, from the front of the list, are unthrottled. */
  function Freed(qs: seq<Local>, left: nat): (n: nat)
    ensures n <= |qs|
  {
    if qs == [] || left == 0 || Served(qs[0], left).remaining <= 0 then 0
    else 1 + Freed(qs[1..], left - Grant(qs[0].remaining, left))
  }

  // ------------------------------------------------------- what a pass achieves

  function Sum(qs: seq<Local>): int {
    if qs == [] then 0 else qs[0].remaining + Sum(qs[1..])
  }

  /** A pass moves money from the pot to the queues; nothing is lost or made. */
  lemma {:induction false} PassConserves(qs: seq<Local>, left: nat)
    ensures Left(qs, left) + Sum(Pass(qs, left)) == left + Sum(qs)
  {
    if qs != [] && left != 0 {
      PassConserves(qs[1..], left - Grant(qs[0].remaining, left));
      assert Pass(qs, left)[1..] == Pass(qs[1..], left - Grant(qs[0].remaining, left));
    }
  }

  predicate AllOne(qs: seq<Local>) {
    forall i :: 0 <= i < |qs| ==> qs[i].remaining == 1
  }

  lemma AllOneCons(q: Local, qs: seq<Local>)
    ensures AllOne([q] + qs) <==> q.remaining == 1 && AllOne(qs)
  {
    if AllOne([q] + qs) {
      assert ([q] + qs)[0] == q;
      forall i | 0 <= i < |qs| ensures qs[i].remaining == 1 { assert ([q] + qs)[i + 1] == qs[i]; }
    }
  }

  /** Either everything is spent, or every queue is freed and stands at exactly
      one nanosecond. */
  lemma {:induction false} PassSpendsOrFrees(qs: seq<Local>, left: nat)
    ensures Left(qs, left) == 0 || (Freed(qs, left) == |qs| && AllOne(Pass(qs, left)))
  {
    if qs != [] && left != 0 {
      PassSpendsOrFrees(qs[1..], left - Grant(qs[0].remaining, left));
      AllOneCons(Served(qs[0], left), Pass(qs[1..], left - Grant(qs[0].remaining, left)));
    }
  }

  function Debt(qs: seq<Local>): int {
    if qs == [] then 0 else 1 - qs[0].remaining + Debt(qs[1..])
  }

  /** When no queue on the list is solvent the pass is exact: the front of the
      list is lifted to one nanosecond each for as long as the money lasts, so
      every queue is freed if and only if the debts can be paid. */
  lemma {:induction false} IndebtedPass(qs: seq<Local>, left: nat)
    requires forall i :: 0 <= i < |qs| ==> qs[i].remaining <= 0
    ensures Debt(qs) >= |qs|
    ensures Left(qs, left) == Max(0, left - Debt(qs))
    ensures Debt(qs) <= left <==> AllOne(Pass(qs, left))
    ensures Debt(qs) <= left <==> Freed(qs, left) == |qs|
  {
    if qs != [] {
      IndebtedPass(qs[1..], left - Grant(qs[0].remaining, left));
      if left != 0 {
        AllOneCons(Served(qs[0], left), Pass(qs[1..], left - Grant(qs[0].remaining, left)));
      } else {
        assert Pass(qs, left)[0].remaining != 1;
      }
    }
  }

  /** Among indebted queues, each is freed exactly if the money covers its debt and
      all the debts ahead of it. */
  lemma {:induction false} FreedIff(qs: seq<Local>, left: nat, i: nat)
    requires i < |qs| && forall j :: 0 <= j < |qs| ==> qs[j].remaining <= 0
    ensures i < Freed(qs, left) <==> Debt(qs[..i + 1]) <= left
  {
    var need := 1 - qs[0].remaining;
    assert qs[..i + 1][1..] == qs[1..][..i];
    if i > 0 {
      IndebtedPass(qs[1..][..i], 0);
      if need <= left {
        FreedIff(qs[1..], left - need, i - 1);
      }
    } else {
      assert Debt(qs[1..][..i]) == 0;
    }
  }

  /** A queue can be throttled and solvent (a throttled entity that is forced to
      run may be assigned runtime). That one queue then takes the whole pot and
      the queues behind it get nothing. A queue gets what it is short of, and no
      more, if and only if it has at most one nanosecond. */
  lemma SolventQueueTakesAll(q: Local, rest: seq<Local>, left: nat)
    requires left > 0
    ensures q.remaining > 1 ==>
              && Pass([q] + rest, left) == [q.(remaining := q.remaining + left)] + rest
              && Left([q] + rest, left) == 0
    ensures Grant(q.remaining, left) == Min(Max(0, 1 - q.remaining), left) <==> q.remaining <= 1
  {
    assert ([q] + rest)[1..] == rest;
  }

  lemma SolventQueueStarvesDebtor()
    ensures Pass([Local(0, 5), Local(1, -3)], 10) == [Local(0, 15), Local(1, -3)]
    ensures Pass([Local(0, 0), Local(1, -3)], 10) == [Local(0, 1), Local(1, 1)]
  {
    SolventQueueTakesAll(Local(0, 5), [Local(1, -3)], 10);
    assert [Local(0, 5)] + [Local(1, -3)] == [Local(0, 5), Local(1, -3)];
    assert [Local(0, 0), Local(1, -3)][1..] == [Local(1, -3)];
    assert Pass([Local(1, -3)], 9) == [Local(1, 1)];
  }

  // ------------------------------------------------------------------ the code

  /** The throttled list, the queues unthrottled so far, and what is left. */
  datatype Pot = Pot(list: seq<Local>, freed: seq<Local>, left: nat) {
    function Turn(): Pot
      requires list != []
    {
      var q := Served(list[0], left);
      var left' := left - Grant(list[0].remaining, left);
      if q.remaining > 0 then Pot(list[1..], freed + [q], left') else Pot([q] + list[1..], freed, left')
    }
  }

  function Sweep(p: Pot): Pot
    decreases p.left, |p.list|
  {
    if p.list == [] || p.left == 0 then p else Sweep(p.Turn())
  }

  lemma Shift(q: Local, qs: seq<Local>, k: nat)
    requires k <= |qs|
    ensures ([q] + qs)[k + 1..] == qs[k..] && ([q] + qs)[..k + 1] == [q] + qs[..k]
  {
  }

  /** Serving heads until the list or the money runs out is a pass. */
  lemma {:induction false} SweepIsPass(qs: seq<Local>, freed: seq<Local>, left: nat)
    ensures Sweep(Pot(qs, freed, left))
         == Pot(Pass(qs, left)[Freed(qs, left)..], freed + Pass(qs, left)[..Freed(qs, left)], Left(qs, left))
    decreases |qs|
  {
    if qs != [] && left != 0 {
      var q, left' := Served(qs[0], left), left - Grant(qs[0].remaining, left);
      var rest := Pass(qs[1..], left');
      if q.remaining > 0 {
        SweepIsPass(qs[1..], freed + [q], left');
        Shift(q, rest, Freed(qs[1..], left'));
        assert freed + [q] + rest[..Freed(qs[1..], left')] == freed + ([q] + rest[..Freed(qs[1..], left')]);
      } else {
        SweepStuck(qs, freed, left);
      }
    }
  }

  /** A head that stays in debt has taken everything. */
  lemma SweepStuck(qs: seq<Local>, freed: seq<Local>, left: nat)
    requires qs != [] && left != 0 && Served(qs[0], left).remaining <= 0
    ensures Sweep(Pot(qs, freed, left)) == Pot(Pass(qs, left), freed, 0) && Left(qs, left) == 0
  {
    assert Pass(qs[1..], 0) == qs[1..];
  }

  class CfsBandwidth {
    const quota: nat
    var throttledList: seq<Local>   // the throttled queues, oldest first
    var unthrottled: seq<Local>     // the queues that unthrottle_cfs_rq has been called for
    var runtime: nat                // the shared pool
    var idle: bool
    var timerActive: bool

    /** distribute_cfs_runtime. Callers always have something to give. */
    method Distribute(budget: nat) returns (left: nat)
      requires 0 < budget < 0x8000_0000_0000_0000 && AllS64(throttledList)
      modifies this`throttledList, this`unthrottled
      ensures var was := old(throttledList);
              && left == Left(was, budget)
              && unthrottled == old(unthrottled) + Pass(was, budget)[..Freed(was, budget)]
              && throttledList == Pass(was, budget)[Freed(was, budget)..]
    {
      left := budget;
      SweepIsPass(throttledList, unthrottled, budget);
      ghost var sweep := Sweep(Pot(throttledList, unthrottled, budget));
      // A queue that stays on the list has taken all that was left, so the
      // cursor is always at the head.
      while throttledList != [] && left > 0
        invariant left <= budget
        invariant left > 0 ==> AllS64(throttledList)
        invariant Sweep(Pot(throttledList, unthrottled, left)) == sweep
        decreases left, |throttledList|
      {
        var q := throttledList[0];
        GrantIsU64(q.remaining, left);
        var amount := Min(Wrap(1 - q.remaining), left);
        left := left - amount;
        q := q.(remaining := q.remaining + amount);
        if q.remaining > 0 {
          unthrottled := unthrottled + [q];
          throttledList := throttledList[1..];
        } else {
          throttledList := [q] + throttledList[1..];
        }
      }
    }

    /** do_sched_cfs_period_timer with nobody else running. `passes` counts the
        turns of the while loop around distribute_cfs_runtime. */
    method PeriodTimer() returns (stop: bool, passes: nat)
      requires quota < 0x8000_0000_0000_0000 && AllS64(throttledList)
      modifies this
      ensures stop == (old(idle) && old(throttledList) == [])
      ensures timerActive == !stop
      ensures stop ==> runtime == old(runtime) && idle
      ensures !stop && old(throttledList) == [] ==> runtime == quota && idle
      ensures var was := old(throttledList);
              && runtime == (if stop then old(runtime) else Left(was, quota))
              && unthrottled == old(unthrottled) + Pass(was, quota)[..Freed(was, quota)]
              && throttledList == Pass(was, quota)[Freed(was, quota)..]
      ensures old(throttledList) != [] ==> !idle && (runtime == 0 || throttledList == [])
      ensures passes <= 1
    {
      passes := 0;
      var waiting := throttledList != [];
      stop := idle && !waiting;
      if stop {
        timerActive := false;
        return;
      }
      timerActive := true;
      runtime := quota;
      if !waiting {
        idle := true;
        return;
      }
      var left := runtime;
      runtime := 0;
      ghost var was := throttledList;
      while waiting && left > 0
        invariant passes <= 1 && waiting == (throttledList != []) && timerActive
        invariant passes == 0 ==> left == quota && throttledList == was && unthrottled == old(unthrottled)
        invariant passes == 1 ==>
                    && left == Left(was, quota)
                    && unthrottled == old(unthrottled) + Pass(was, quota)[..Freed(was, quota)]
                    && throttledList == Pass(was, quota)[Freed(was, quota)..]
                    && (left == 0 || throttledList == [])
        decreases 1 - passes
      {
        PassSpendsOrFrees(throttledList, left);
        left := Distribute(left);
        passes := passes + 1;
        waiting := throttledList != [];
      }
      runtime := left;
      idle := false;
    }
  }
}
