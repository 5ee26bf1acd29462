// The tree of run queues of one CPU and the counters its operations keep:
// enqueue and dequeue of a task, throttling and unthrottling of a group
// (backup/fair_mp.c, 2423-2537 and 3030-3132).
//
// Group 0 is the root. Groups are numbered so that a parent comes before its
// children. A group entity is queued on the run queue of the parent group.
// Weights are positive, so load.weight is zero exactly when nothing is queued.

module Hierarchy {

  /** A group's run queue and its entity: the tasks queued on it, nr_running,
      h_nr_running, on_rq of the group's entity, throttled, throttle_count. */
  datatype Group = Group(tasks: nat, queued: int, h: int, onRq: bool, throttled: bool, count: int)

  /** The groups of a CPU and the CFS part of rq->nr_running. */
  datatype Rq = Rq(gs: seq<Group>, nr: int)

  predicate Tree(parent: seq<nat>) {
    |parent| > 0 && forall g :: 0 < g < |parent| ==> parent[g] < g
  }

  // --------------------------------------------------------------- agreement

  function OnOf(x: Group): int { if x.onRq then 1 else 0 }
  function HOf(x: Group): int { if x.onRq then x.h else 0 }

  /** The sum of f over the children of g among the first k groups. */
  function ChildSum(parent: seq<nat>, gs: seq<Group>, g: nat, k: nat, f: Group -> int): int
    requires k <= |gs| == |parent|
  {
    if k <= 1 then 0
    else ChildSum(parent, gs, g, k - 1, f) + (if parent[k - 1] == g then f(gs[k - 1]) else 0)
  }

  /** Every group agrees with its children, except that h_nr_running of `hole`
      still misses d; and a group's entity is queued exactly when its queue is
      neither empty nor throttled, except for the groups in `ex`. */
  ghost predicate Agree(parent: seq<nat>, gs: seq<Group>, hole: int, d: int, ex: set<nat>) {
    && Tree(parent) && |gs| == |parent|
    && (forall g: nat :: g < |gs| ==>
          && gs[g].queued == gs[g].tasks + ChildSum(parent, gs, g, |gs|, OnOf)
          && gs[g].h + (if g == hole then d else 0) == gs[g].tasks + ChildSum(parent, gs, g, |gs|, HOf))
    && (forall g: nat :: 0 < g < |gs| && g !in ex ==> Fits(gs[g]))
    && !gs[0].throttled
  }

  predicate Fits(x: Group) {
    x.onRq <==> x.queued != 0 && !x.throttled
  }

  ghost predicate Sound(parent: seq<nat>, r: Rq) {
    && Agree(parent, r.gs, -1, 0, {})
    && CountsAgree(parent, r.gs)
    && r.nr == r.gs[0].h
  }

  /** throttle_count is the number of throttled queues on the path to the root. */
  ghost predicate CountsAgree(parent: seq<nat>, gs: seq<Group>) {
    && Tree(parent) && |gs| == |parent|
    && forall g: nat :: g < |gs| ==>
         gs[g].count == (if gs[g].throttled then 1 else 0) + (if g == 0 then 0 else gs[parent[g]].count)
  }

  // ------------------------------------------------------------ changing a group

  lemma {:induction false} SumAfter(parent: seq<nat>, gs: seq<Group>, x: nat, v: Group, g: nat, k: nat, f: Group -> int)
    requires k <= |gs| == |parent| && x < |gs|
    ensures ChildSum(parent, gs[x := v], g, k, f)
         == ChildSum(parent, gs, g, k, f) + (if 0 < x < k && parent[x] == g then f(v) - f(gs[x]) else 0)
  {
    if k > 1 { SumAfter(parent, gs, x, v, g, k - 1, f); }
  }

  lemma {:induction false} NothingQueuedNothingCounted(parent: seq<nat>, gs: seq<Group>, g: nat, k: nat)
    requires k <= |gs| == |parent|
    ensures ChildSum(parent, gs, g, k, OnOf) >= 0
    ensures ChildSum(parent, gs, g, k, OnOf) == 0 ==> ChildSum(parent, gs, g, k, HOf) == 0
  {
    if k > 1 { NothingQueuedNothingCounted(parent, gs, g, k - 1); }
  }

  lemma QueuedNonNegative(parent: seq<nat>, gs: seq<Group>, hole: int, d: int, ex: set<nat>, g: nat)
    requires Agree(parent, gs, hole, d, ex) && g < |gs|
    ensures gs[g].queued >= 0
    ensures gs[g].queued == 0 ==> gs[g].h + (if g == hole then d else 0) == 0
  {
    NothingQueuedNothingCounted(parent, gs, g, |gs|);
  }

  /** Replacing one group: what its parent must now find is shifted by the change
      in what the group contributes, everybody else is untouched. */
  lemma Replace(parent: seq<nat>, gs: seq<Group>, x: nat, v: Group)
    requires Tree(parent) && |gs| == |parent| && x < |gs|
    ensures forall g: nat :: g < |gs| ==>
              && ChildSum(parent, gs[x := v], g, |gs|, OnOf)
                 == ChildSum(parent, gs, g, |gs|, OnOf) + (if 0 < x && parent[x] == g then OnOf(v) - OnOf(gs[x]) else 0)
              && ChildSum(parent, gs[x := v], g, |gs|, HOf)
                 == ChildSum(parent, gs, g, |gs|, HOf) + (if 0 < x && parent[x] == g then HOf(v) - HOf(gs[x]) else 0)
  {
    forall g: nat | g < |gs|
      ensures ChildSum(parent, gs[x := v], g, |gs|, OnOf)
                 == ChildSum(parent, gs, g, |gs|, OnOf) + (if 0 < x && parent[x] == g then OnOf(v) - OnOf(gs[x]) else 0)
           && ChildSum(parent, gs[x := v], g, |gs|, HOf)
                 == ChildSum(parent, gs, g, |gs|, HOf) + (if 0 < x && parent[x] == g then HOf(v) - HOf(gs[x]) else 0)
    {
      SumAfter(parent, gs, x, v, g, |gs|, OnOf);
      SumAfter(parent, gs, x, v, g, |gs|, HOf);
    }
  }

  // ----------------------------------------------------------------- small steps

  function AddH(gs: seq<Group>, q: nat, d: int): seq<Group>
    requires q < |gs|
  {
    gs[q := gs[q].(h := gs[q].h + d)]
  }

  /** Filling the hole at q moves it to the parent if q is counted there. */
  lemma AddHMovesHole(parent: seq<nat>, gs: seq<Group>, q: nat, d: int, ex: set<nat>)
    requires Agree(parent, gs, q, d, ex) && q < |gs|
    ensures Agree(parent, AddH(gs, q, d), if q > 0 && gs[q].onRq then parent[q] else -1, d, ex)
  {
    Replace(parent, gs, q, gs[q].(h := gs[q].h + d));
  }

  /** account_entity_enqueue and on_rq = 1, for the entity of `child`, or for a
      task when there is no child. */
  function Link(gs: seq<Group>, q: nat, child: int): seq<Group>
    requires q < |gs| && -1 <= child < |gs| && child != q
  {
    if child < 0 then gs[q := gs[q].(tasks := gs[q].tasks + 1, queued := gs[q].queued + 1)]
    else gs[child := gs[child].(onRq := true)][q := gs[q].(queued := gs[q].queued + 1)]
  }

  /** A group that has just stopped being empty is not where Fits wants it. */
  function Woken(gs: seq<Group>, q: nat): set<nat>
    requires q < |gs|
  {
    if q > 0 && gs[q].queued == 0 && !gs[q].throttled then {q} else {}
  }

  lemma LinkTask(parent: seq<nat>, gs: seq<Group>, q: nat)
    requires Agree(parent, gs, -1, 0, {}) && q < |gs|
    ensures Agree(parent, Link(gs, q, -1), q, 1, Woken(gs, q))
  {
    Replace(parent, gs, q, Link(gs, q, -1)[q]);
    QueuedNonNegative(parent, gs, -1, 0, {}, q);
  }

  lemma LinkGroup(parent: seq<nat>, gs: seq<Group>, child: nat)
    requires 0 < child < |gs| && Agree(parent, gs, -1, 0, {child})
    requires !gs[child].onRq && gs[child].queued != 0 && !gs[child].throttled
    ensures Agree(parent, Link(gs, parent[child], child), parent[child], gs[child].h, Woken(gs, parent[child]))
  {
    var q := parent[child];
    var mid := gs[child := gs[child].(onRq := true)];
    var out := Link(gs, q, child);
    Replace(parent, gs, child, mid[child]);
    Replace(parent, mid, q, out[q]);
    QueuedNonNegative(parent, gs, -1, 0, {child}, q);
    assert out == mid[q := out[q]];
    assert forall g: nat :: g < |gs| && g != q && g != child ==> out[g] == gs[g];
  }

  function Unlink(gs: seq<Group>, q: nat, child: int): seq<Group>
    requires q < |gs| && -1 <= child < |gs| && child != q
    requires child < 0 ==> gs[q].tasks > 0
  {
    if child < 0 then gs[q := gs[q].(tasks := gs[q].tasks - 1, queued := gs[q].queued - 1)]
    else gs[child := gs[child].(onRq := false)][q := gs[q].(queued := gs[q].queued - 1)]
  }

  /** A queue that has just become empty while its entity is still queued. */
  function Drained(gs: seq<Group>, q: nat): set<nat>
    requires q < |gs|
  {
    if q > 0 && gs[q].queued == 0 && gs[q].onRq then {q} else {}
  }

  lemma UnlinkTask(parent: seq<nat>, gs: seq<Group>, q: nat)
    requires Agree(parent, gs, -1, 0, {}) && q < |gs| && gs[q].tasks > 0
    ensures Agree(parent, Unlink(gs, q, -1), q, -1, Drained(Unlink(gs, q, -1), q))
  {
    Replace(parent, gs, q, Unlink(gs, q, -1)[q]);
    NothingQueuedNothingCounted(parent, gs, q, |gs|);
  }

  /** Taking the entity of `child` off the parent's queue, when the parent's
      counter is still short of `miss`. */
  lemma UnlinkGroup(parent: seq<nat>, gs: seq<Group>, child: nat, hole: int, miss: int, ex: set<nat>)
    requires 0 < child < |gs| && Agree(parent, gs, hole, miss, ex + {child}) && gs[child].onRq
    requires hole == parent[child] || (hole == -1 && miss == 0)
    requires parent[child] !in ex
    ensures var q := parent[child];
            var gs' := Unlink(gs, q, child);
            Agree(parent, gs', q, miss - gs[child].h, ex + {child} + Drained(gs', q))
  {
    var q := parent[child];
    var mid := gs[child := gs[child].(onRq := false)];
    var out := Unlink(gs, q, child);
    Replace(parent, gs, child, mid[child]);
    Replace(parent, mid, q, out[q]);
    assert out == mid[q := out[q]];
    assert forall g: nat :: g < |gs| && g != q && g != child ==> out[g] == gs[g];
    CountedMeansQueued(parent, gs, child, |gs|);
  }

  lemma {:induction false} CountedMeansQueued(parent: seq<nat>, gs: seq<Group>, c: nat, k: nat)
    requires 0 < c < k <= |gs| == |parent| && gs[c].onRq
    ensures ChildSum(parent, gs, parent[c], k, OnOf) >= 1
  {
    if c == k - 1 { NothingQueuedNothingCounted(parent, gs, parent[c], k - 1); }
    else { CountedMeansQueued(parent, gs, c, k - 1); }
  }

  // -------------------------------------------------------------- throttle_count

  /** Is i in the subtree of q? */
  predicate Under(parent: seq<nat>, i: nat, q: nat)
    requires Tree(parent) && i < |parent|
    decreases i
  {
    i == q || (i > 0 && Under(parent, parent[i], q))
  }

  /** walk_tg_tree_from with tg_throttle_down (d = 1) or tg_unthrottle_up (d = -1). */
  function Bump(parent: seq<nat>, gs: seq<Group>, q: nat, d: int): (out: seq<Group>)
    requires Tree(parent) && |gs| == |parent|
    ensures |out| == |gs|
    ensures forall g: nat :: g < |gs| ==> out[g] == gs[g].(count := gs[g].count + (if Under(parent, g, q) then d else 0))
  {
    seq(|gs|, g requires 0 <= g < |gs| => gs[g].(count := gs[g].count + (if Under(parent, g, q) then d else 0)))
  }

  predicate SameButCounts(a: seq<Group>, b: seq<Group>) {
    |a| == |b| && forall g :: 0 <= g < |a| ==> a[g] == b[g].(count := a[g].count)
  }

  lemma {:induction false} SumIgnoresCounts(parent: seq<nat>, a: seq<Group>, b: seq<Group>, g: nat, k: nat)
    requires SameButCounts(a, b) && k <= |a| == |parent|
    ensures ChildSum(parent, a, g, k, OnOf) == ChildSum(parent, b, g, k, OnOf)
    ensures ChildSum(parent, a, g, k, HOf) == ChildSum(parent, b, g, k, HOf)
  {
    if k > 1 { SumIgnoresCounts(parent, a, b, g, k - 1); }
  }

  lemma AgreeIgnoresCounts(parent: seq<nat>, a: seq<Group>, b: seq<Group>, hole: int, d: int, ex: set<nat>)
    requires SameButCounts(a, b) && Agree(parent, b, hole, d, ex)
    ensures Agree(parent, a, hole, d, ex)
  {
    forall g: nat | g < |a|
      ensures a[g].queued == a[g].tasks + ChildSum(parent, a, g, |a|, OnOf)
           && a[g].h + (if g == hole then d else 0) == a[g].tasks + ChildSum(parent, a, g, |a|, HOf)
    {
      SumIgnoresCounts(parent, a, b, g, |a|);
    }
  }

  /** What sits below q does not include q's parent. */
  lemma {:induction false} UnderIsBelow(parent: seq<nat>, i: nat, q: nat)
    requires Tree(parent) && i < |parent| && Under(parent, i, q)
    ensures q <= i
    decreases i
  {
    if i != q { UnderIsBelow(parent, parent[i], q); }
  }

  /** Flipping the flag of q and walking its subtree keeps the counts right. */
  lemma FlipKeepsCounts(parent: seq<nat>, gs: seq<Group>, q: nat, on: bool)
    requires CountsAgree(parent, gs) && 0 < q < |gs| && gs[q].throttled != on
    ensures var b := Bump(parent, gs, q, if on then 1 else -1);
            CountsAgree(parent, b[q := b[q].(throttled := on)])
  {
    var b := Bump(parent, gs, q, if on then 1 else -1);
    var c := b[q := b[q].(throttled := on)];
    forall g: nat | g < |gs|
      ensures c[g].count == (if c[g].throttled then 1 else 0) + (if g == 0 then 0 else c[parent[g]].count)
    {
      if g > 0 {
        if Under(parent, parent[g], q) { UnderIsBelow(parent, parent[g], q); }
      }
    }
  }

  // -------------------------------------------------------------------- the walks

  /** The counting loop: the second loop of enqueue_task_fair (d = 1) and of
      dequeue_task_fair (d = -1). */
  function AddUp(parent: seq<nat>, r: Rq, q: nat, d: int): (out: Rq)
    requires Tree(parent) && |r.gs| == |parent| && q < |r.gs|
    ensures Framed(r.gs, out.gs)
    decreases q
  {
    var gs := AddH(r.gs, q, d);
    if gs[q].throttled then r.(gs := gs)
    else if q == 0 then Rq(gs, r.nr + d)
    else AddUp(parent, r.(gs := gs), parent[q], d)
  }

  /** Tasks, flags and counts are as they were. */
  predicate Framed(a: seq<Group>, b: seq<Group>) {
    |a| == |b| &&
    forall g :: 0 <= g < |a| ==> a[g].tasks == b[g].tasks && a[g].throttled == b[g].throttled && a[g].count == b[g].count
  }

  lemma {:induction false} AddUpRestores(parent: seq<nat>, r: Rq, q: nat, d: int)
    requires q < |r.gs| && Agree(parent, r.gs, q, d, {}) && r.nr == r.gs[0].h
    requires q > 0 ==> r.gs[q].queued != 0
    ensures Agree(parent, AddUp(parent, r, q, d).gs, -1, 0, {})
    ensures AddUp(parent, r, q, d).nr == AddUp(parent, r, q, d).gs[0].h
    decreases q
  {
    AddHMovesHole(parent, r.gs, q, d, {});
    var gs := AddH(r.gs, q, d);
    if !gs[q].throttled && q > 0 {
      assert Fits(r.gs[q]);
      CountedMeansQueued(parent, gs, q, |gs|);
      NothingQueuedNothingCounted(parent, gs, parent[q], |gs|);
      AddUpRestores(parent, r.(gs := gs), parent[q], d);
    }
  }

  /** The loop of throttle_cfs_rq, at the entity of `child`. */
  function ThrottleUp(parent: seq<nat>, r: Rq, child: nat, delta: int, dequeue: bool): (out: Rq)
    requires Tree(parent) && |r.gs| == |parent| && child < |r.gs|
    ensures Framed(r.gs, out.gs)
    decreases child
  {
    if child == 0 then r.(nr := r.nr - delta)
    else if !r.gs[child].onRq then r
    else
      var q := parent[child];
      var gs := AddH(if dequeue then Unlink(r.gs, q, child) else r.gs, q, -delta);
      ThrottleUp(parent, r.(gs := gs), q, delta, dequeue && gs[q].queued == 0)
  }

  /** throttle_cfs_rq */
  function Throttle(parent: seq<nat>, r: Rq, q: nat): (out: Rq)
    requires Tree(parent) && |r.gs| == |parent| && q < |r.gs|
    ensures |out.gs| == |r.gs|
  {
    var r1 := ThrottleUp(parent, r.(gs := Bump(parent, r.gs, q, 1)), q, r.gs[q].h, true);
    r1.(gs := r1.gs[q := r1.gs[q].(throttled := true)])
  }

  /** A group that fits needs no excuse. */
  lemma Excuse(parent: seq<nat>, gs: seq<Group>, hole: int, d: int, ex: set<nat>, ex': set<nat>)
    requires Agree(parent, gs, hole, d, ex)
    requires forall g: nat :: g in ex && g !in ex' && 0 < g < |gs| ==> Fits(gs[g])
    ensures Agree(parent, gs, hole, d, ex')
  {
  }

  function HoleAbove(parent: seq<nat>, gs: seq<Group>, child: nat): int
    requires child < |gs| == |parent|
  {
    if child > 0 && gs[child].onRq then parent[child] else -1
  }

  function Spare(child: nat, dequeue: bool): set<nat> {
    if dequeue then {child} else {}
  }

  /** What holds when the throttle loop stands at the entity of `child`, above
      the group that is being throttled: the parent of a counted group is short
      of what has been taken out below, and as long as the loop still dequeues,
      the queue it stands at has run empty. */
  ghost predicate Climbing(parent: seq<nat>, gs: seq<Group>, child: nat, delta: int, dequeue: bool, victim: nat) {
    && child < victim < |gs| == |parent|
    && Agree(parent, gs, HoleAbove(parent, gs, child), -delta, {victim} + Spare(child, dequeue))
    && (child > 0 && dequeue ==> gs[child].queued == 0)
    && !gs[victim].onRq
  }

  lemma ClimbOne(parent: seq<nat>, gs: seq<Group>, q: nat, delta: int, dequeue: bool, victim: nat, ex: set<nat>)
    requires q < victim < |gs| && Agree(parent, gs, q, -delta, ex) && !gs[victim].onRq
    requires ex <= {victim} + Drained(gs, q) && (!dequeue ==> ex <= {victim})
    ensures var gs' := AddH(gs, q, -delta);
            Climbing(parent, gs', q, delta, dequeue && gs'[q].queued == 0, victim)
  {
    AddHMovesHole(parent, gs, q, -delta, ex);
    var gs' := AddH(gs, q, -delta);
    Excuse(parent, gs', HoleAbove(parent, gs', q), -delta, ex, {victim} + Spare(q, dequeue && gs'[q].queued == 0));
  }

  lemma {:induction false} ThrottleUpRestores(parent: seq<nat>, r: Rq, child: nat, delta: int, dequeue: bool, victim: nat)
    requires Climbing(parent, r.gs, child, delta, dequeue, victim)
    requires r.nr == r.gs[0].h + if child == 0 then delta else 0
    ensures var out := ThrottleUp(parent, r, child, delta, dequeue);
            Agree(parent, out.gs, -1, 0, {victim}) && out.nr == out.gs[0].h && !out.gs[victim].onRq
    decreases child
  {
    if child == 0 || !r.gs[child].onRq {
      Excuse(parent, r.gs, -1, -delta, {victim} + Spare(child, dequeue), {victim});
      assert Agree(parent, r.gs, -1, 0, {victim});
    } else {
      var q := parent[child];
      var gs := r.gs;
      if dequeue {
        QueuedNonNegative(parent, gs, q, -delta, {victim} + {child}, child);
        UnlinkGroup(parent, gs, child, q, -delta, {victim});
        gs := Unlink(gs, q, child);
        Excuse(parent, gs, q, -delta, {victim} + {child} + Drained(gs, q), {victim} + Drained(gs, q));
        ClimbOne(parent, gs, q, delta, dequeue, victim, {victim} + Drained(gs, q));
      } else {
        ClimbOne(parent, gs, q, delta, dequeue, victim, {victim} + {});
      }
      gs := AddH(gs, q, -delta);
      ThrottleUpRestores(parent, r.(gs := gs), q, delta, dequeue && gs[q].queued == 0, victim);
    }
  }

  /** Putting the flag on a group whose entity is off the queue. */
  lemma FlagVictim(parent: seq<nat>, gs: seq<Group>, q: nat, hole: int, d: int)
    requires 0 < q < |gs| && Agree(parent, gs, hole, d, {q}) && !gs[q].onRq
    ensures Agree(parent, gs[q := gs[q].(throttled := true)], hole, d, {})
  {
    Replace(parent, gs, q, gs[q].(throttled := true));
  }

  lemma CountsFramed(parent: seq<nat>, a: seq<Group>, b: seq<Group>)
    requires CountsAgree(parent, a) && |a| == |b|
    requires forall g: nat :: g < |a| ==> a[g].throttled == b[g].throttled && a[g].count == b[g].count
    ensures CountsAgree(parent, b)
  {
  }

  /** The flag goes up and the counts below it too, whatever the loop did. */
  lemma ThrottleCounts(parent: seq<nat>, r: Rq, q: nat)
    requires CountsAgree(parent, r.gs) && 0 < q < |r.gs| && !r.gs[q].throttled
    ensures CountsAgree(parent, Throttle(parent, r, q).gs)
  {
    var b := Bump(parent, r.gs, q, 1);
    var r1 := ThrottleUp(parent, r.(gs := b), q, r.gs[q].h, true);
    FlipKeepsCounts(parent, r.gs, q, true);
    CountsFramed(parent, b[q := b[q].(throttled := true)], r1.gs[q := r1.gs[q].(throttled := true)]);
  }

  /** The first turn of the loop takes the victim itself off its parent. */
  lemma FirstClimb(parent: seq<nat>, b: seq<Group>, q: nat)
    requires 0 < q < |b| && Agree(parent, b, -1, 0, {}) && b[q].onRq
    ensures var gs := AddH(Unlink(b, parent[q], q), parent[q], -b[q].h);
            Climbing(parent, gs, parent[q], b[q].h, gs[parent[q]].queued == 0, q)
  {
    var up := parent[q];
    Excuse(parent, b, -1, 0, {}, {} + {q});
    UnlinkGroup(parent, b, q, -1, 0, {});
    var gs := Unlink(b, up, q);
    Excuse(parent, gs, up, -b[q].h, {} + {q} + Drained(gs, up), {q} + Drained(gs, up));
    ClimbOne(parent, gs, up, b[q].h, true, q, {q} + Drained(gs, up));
  }

  /** Where the loop stands after that turn. */
  lemma FirstTurn(parent: seq<nat>, r: Rq, q: nat)
    requires Tree(parent) && 0 < q < |r.gs| == |parent| && r.gs[q].onRq && r.nr == r.gs[0].h
    ensures var up, h := parent[q], r.gs[q].h;
            var gs := AddH(Unlink(r.gs, up, q), up, -h);
            && ThrottleUp(parent, r, q, h, true) == ThrottleUp(parent, r.(gs := gs), up, h, gs[up].queued == 0)
            && r.nr == gs[0].h + if up == 0 then h else 0
  {
  }

  lemma ThrottleLoop(parent: seq<nat>, r: Rq, q: nat)
    requires 0 < q < |r.gs| && Agree(parent, r.gs, -1, 0, {}) && r.nr == r.gs[0].h
    ensures var out := ThrottleUp(parent, r, q, r.gs[q].h, true);
            Agree(parent, out.gs, -1, 0, {q}) && out.nr == out.gs[0].h && !out.gs[q].onRq
  {
    if r.gs[q].onRq {
      FirstTurn(parent, r, q);
      FirstClimb(parent, r.gs, q);
      var up := parent[q];
      var gs := AddH(Unlink(r.gs, up, q), up, -r.gs[q].h);
      ThrottleUpRestores(parent, r.(gs := gs), up, r.gs[q].h, gs[up].queued == 0, q);
    } else {
      Excuse(parent, r.gs, -1, 0, {}, {q});
    }
  }

  lemma ThrottleKeepsSound(parent: seq<nat>, r: Rq, q: nat)
    requires Sound(parent, r) && 0 < q < |r.gs| && !r.gs[q].throttled
    ensures Sound(parent, Throttle(parent, r, q))
  {
    ThrottleCounts(parent, r, q);
    var b := Bump(parent, r.gs, q, 1);
    AgreeIgnoresCounts(parent, b, r.gs, -1, 0, {});
    ThrottleLoop(parent, r.(gs := b), q);
    var r1 := ThrottleUp(parent, r.(gs := b), q, r.gs[q].h, true);
    FlagVictim(parent, r1.gs, q, -1, 0);
  }

  /** check_enqueue_throttle can throttle a queue in the middle of an enqueue,
      before its counter has been raised: its entity is not queued then, so the
      loop of throttle_cfs_rq ends at once and the hole stays where it is. */
  lemma ThrottleInEnqueue(parent: seq<nat>, r: Rq, q: nat, d: int)
    requires 0 < q < |r.gs| && Agree(parent, r.gs, q, d, {q}) && !r.gs[q].onRq
    ensures Agree(parent, Throttle(parent, r, q).gs, q, d, {}) && Throttle(parent, r, q).nr == r.nr
    ensures Throttle(parent, r, q).gs[q].queued == r.gs[q].queued && Throttle(parent, r, q).gs[0].h == r.gs[0].h
  {
    var b := Bump(parent, r.gs, q, 1);
    AgreeIgnoresCounts(parent, b, r.gs, q, d, {q});
    FlagVictim(parent, b, q, q, d);
  }

  /** enqueue_entity: `dry` holds the groups that check_enqueue_throttle would
      throttle because their runtime is used up. */
  function EnqueueEntity(parent: seq<nat>, r: Rq, q: nat, child: int, dry: set<nat>): (out: Rq)
    requires Tree(parent) && |r.gs| == |parent| && q < |r.gs| && -1 <= child < |r.gs| && child != q
    ensures |out.gs| == |r.gs|
  {
    var r1 := r.(gs := Link(r.gs, q, child));
    if r1.gs[q].queued == 1 && q > 0 && q in dry && !r1.gs[q].throttled then Throttle(parent, r1, q) else r1
  }

  /** The loops of enqueue_task_fair (d = 1, first for the task, child = -1) and
      of unthrottle_cfs_rq (d = the tasks that come back with the group). */
  function EnqueueUp(parent: seq<nat>, r: Rq, q: nat, child: int, d: int, dry: set<nat>): (out: Rq)
    requires Tree(parent) && |r.gs| == |parent| && q < |r.gs| && -1 <= child < |r.gs| && child != q
    ensures |out.gs| == |r.gs|
    decreases q
  {
    if child >= 0 && r.gs[child].onRq then AddUp(parent, r, q, d) else
    var r1 := EnqueueEntity(parent, r, q, child, dry);
    if r1.gs[q].throttled then AddUp(parent, r1, q, d) else
    var gs := AddH(r1.gs, q, d);
    if q == 0 then Rq(gs, r1.nr + d) else EnqueueUp(parent, r1.(gs := gs), parent[q], q, d, dry)
  }

  /** What holds when the enqueue loop arrives at q: the child below is queued
      there already and q is short of d, or it is waiting to be queued and
      brings d tasks. */
  ghost predicate Arriving(parent: seq<nat>, gs: seq<Group>, q: nat, child: int, d: int) {
    && q < |gs| && -1 <= child < |gs| && child != q
    && (child < 0 ==> d == 1 && Agree(parent, gs, -1, 0, {}))
    && (child >= 0 ==> child > 0 && |gs| == |parent| && parent[child] == q)
    && (child >= 0 && gs[child].onRq ==> Agree(parent, gs, q, d, {}))
    && (child >= 0 && !gs[child].onRq ==>
          Agree(parent, gs, -1, 0, {child}) && gs[child].queued != 0 && !gs[child].throttled && gs[child].h == d)
  }

  lemma EnqueueEntityLinks(parent: seq<nat>, r: Rq, q: nat, child: int, d: int, dry: set<nat>)
    requires Arriving(parent, r.gs, q, child, d) && (child >= 0 ==> !r.gs[child].onRq)
    ensures var r1 := EnqueueEntity(parent, r, q, child, dry);
            && Agree(parent, r1.gs, q, d, if r1.gs[q].throttled then {} else Woken(r.gs, q))
            && r1.gs[q].queued == r.gs[q].queued + 1 > 0 && r1.nr == r.nr && r1.gs[0].h == r.gs[0].h
            && r1.gs[q].onRq == r.gs[q].onRq && r1.gs[q].h == r.gs[q].h
  {
    if child < 0 { LinkTask(parent, r.gs, q); } else { LinkGroup(parent, r.gs, child); }
    QueuedNonNegative(parent, r.gs, -1, 0, if child < 0 then {} else {child}, q);
    var r1 := r.(gs := Link(r.gs, q, child));
    if r1.gs[q].queued == 1 && q > 0 && q in dry && !r1.gs[q].throttled {
      ThrottleInEnqueue(parent, r1, q, d);
    } else if r1.gs[q].throttled {
      Excuse(parent, r1.gs, q, d, Woken(r.gs, q), {});
    }
  }

  lemma {:induction false} EnqueueUpRestores(parent: seq<nat>, r: Rq, q: nat, child: int, d: int, dry: set<nat>)
    requires Arriving(parent, r.gs, q, child, d) && r.nr == r.gs[0].h
    ensures var out := EnqueueUp(parent, r, q, child, d, dry);
            Agree(parent, out.gs, -1, 0, {}) && out.nr == out.gs[0].h
    decreases q
  {
    if child >= 0 && r.gs[child].onRq {
      CountedMeansQueued(parent, r.gs, child, |r.gs|);
      NothingQueuedNothingCounted(parent, r.gs, q, |r.gs|);
      AddUpRestores(parent, r, q, d);
    } else {
      EnqueueEntityLinks(parent, r, q, child, d, dry);
      var r1 := EnqueueEntity(parent, r, q, child, dry);
      if r1.gs[q].throttled {
        AddUpRestores(parent, r1, q, d);
      } else {
        AddHMovesHole(parent, r1.gs, q, d, Woken(r.gs, q));
        var gs := AddH(r1.gs, q, d);
        if q > 0 {
          QueuedNonNegative(parent, r.gs, -1, 0, if child < 0 then {} else {child}, q);
          assert Fits(r.gs[q]);
          assert Woken(r.gs, q) == {q} ==> Agree(parent, gs, -1, 0, {q});
          EnqueueUpRestores(parent, r1.(gs := gs), parent[q], q, d, dry);
        }
      }
    }
  }

  /** Counts stay right, and only groups in `dry` change their flag, upwards. */
  ghost predicate CountsKept(parent: seq<nat>, a: seq<Group>, b: seq<Group>, dry: set<nat>) {
    && CountsAgree(parent, b) && |a| == |b|
    && forall g: nat :: g < |a| && b[g].throttled != a[g].throttled ==> b[g].throttled && g in dry
  }

  lemma EnqueueEntityCounts(parent: seq<nat>, r: Rq, q: nat, child: int, dry: set<nat>)
    requires CountsAgree(parent, r.gs) && q < |r.gs| && -1 <= child < |r.gs| && child != q
    ensures CountsKept(parent, r.gs, EnqueueEntity(parent, r, q, child, dry).gs, dry)
  {
    var r0 := r.(gs := Link(r.gs, q, child));
    CountsFramed(parent, r.gs, r0.gs);
    if r0.gs[q].queued == 1 && q > 0 && q in dry && !r0.gs[q].throttled {
      ThrottleCounts(parent, r0, q);
    }
  }

  /** An enqueue only ever throttles groups that are dry, each of them soundly. */
  lemma {:induction false} EnqueueUpCounts(parent: seq<nat>, r: Rq, q: nat, child: int, d: int, dry: set<nat>)
    requires CountsAgree(parent, r.gs) && q < |r.gs| && -1 <= child < |r.gs| && child != q
    ensures CountsKept(parent, r.gs, EnqueueUp(parent, r, q, child, d, dry).gs, dry)
    decreases q
  {
    if child >= 0 && r.gs[child].onRq {
      CountsFramed(parent, r.gs, AddUp(parent, r, q, d).gs);
    } else {
      EnqueueEntityCounts(parent, r, q, child, dry);
      var r1 := EnqueueEntity(parent, r, q, child, dry);
      if r1.gs[q].throttled {
        CountsFramed(parent, r1.gs, AddUp(parent, r1, q, d).gs);
      } else {
        var r2 := r1.(gs := AddH(r1.gs, q, d));
        CountsFramed(parent, r1.gs, r2.gs);
        if q > 0 { EnqueueUpCounts(parent, r2, parent[q], q, d, dry); }
      }
    }
  }

  /** The walk moves entities and counters; the tasks stay where they are. */
  lemma {:induction false} EnqueueUpTasks(parent: seq<nat>, r: Rq, q: nat, child: int, d: int, dry: set<nat>, g: nat)
    requires Tree(parent) && |r.gs| == |parent| && q < |r.gs| && -1 <= child < |r.gs| && child != q && g < |r.gs|
    ensures EnqueueUp(parent, r, q, child, d, dry).gs[g].tasks == r.gs[g].tasks + if child < 0 && g == q then 1 else 0
    decreases q
  {
    if child < 0 || !r.gs[child].onRq {
      var r1 := EnqueueEntity(parent, r, q, child, dry);
      if !r1.gs[q].throttled && q > 0 {
        EnqueueUpTasks(parent, r1.(gs := AddH(r1.gs, q, d)), parent[q], q, d, dry, g);
      }
    }
  }

  // ------------------------------------------------------- who is throttled on the way

  /** The first queue from q up that was not empty, or throttled already, or is out
      of runtime. */
  function Stop(parent: seq<nat>, gs: seq<Group>, q: nat, dry: set<nat>): (g: nat)
    requires Tree(parent) && q < |gs| == |parent|
    ensures g <= q && (g > 0 ==> gs[g].queued != 0 || gs[g].throttled || g in dry)
    decreases q
  {
    if q == 0 || gs[q].queued != 0 || gs[q].throttled || q in dry then q else Stop(parent, gs, parent[q], dry)
  }

  /** Does something that wakes on queue q get g throttled? Everything from q up to g
      was empty, and g is the first group there that is out of runtime. */
  predicate Struck(parent: seq<nat>, gs: seq<Group>, q: nat, dry: set<nat>, g: nat)
    requires Tree(parent) && q < |gs| == |parent|
  {
    g == Stop(parent, gs, q, dry) && g > 0 && gs[g].queued == 0 && !gs[g].throttled && g in dry
  }

  lemma {:induction false} StopSame(parent: seq<nat>, a: seq<Group>, b: seq<Group>, q: nat, dry: set<nat>)
    requires Tree(parent) && q < |a| == |b| == |parent|
    requires forall x: nat :: x <= q ==> a[x].queued == b[x].queued && a[x].throttled == b[x].throttled
    ensures Stop(parent, a, q, dry) == Stop(parent, b, q, dry)
    decreases q
  {
    if q > 0 { StopSame(parent, a, b, parent[q], dry); }
  }

  /** One turn: where the queue was empty and is out of runtime it gets throttled. */
  lemma EntityFlags(parent: seq<nat>, r: Rq, q: nat, child: int, dry: set<nat>)
    requires Tree(parent) && |r.gs| == |parent| && q < |r.gs| && -1 <= child < |r.gs| && (child < 0 || child > q)
    ensures var out := EnqueueEntity(parent, r, q, child, dry);
            var hit := q > 0 && r.gs[q].queued == 0 && !r.gs[q].throttled && q in dry;
            && (forall g: nat :: g < |r.gs| ==> out.gs[g].throttled == (r.gs[g].throttled || (hit && g == q)))
            && (!hit ==> out.gs[q].onRq == r.gs[q].onRq && forall x: nat :: x < q ==> out.gs[x] == r.gs[x])
  {
  }

  /** Along the whole way up, exactly the group that is struck is throttled. */
  lemma {:induction false} EnqueueUpFlags(parent: seq<nat>, r: Rq, q: nat, child: int, d: int, dry: set<nat>)
    requires Tree(parent) && |r.gs| == |parent| && q < |r.gs| && -1 <= child < |r.gs| && (child < 0 || child > q)
    requires (child >= 0 ==> !r.gs[child].onRq) && forall x: nat :: 0 < x <= q ==> Fits(r.gs[x])
    ensures forall g: nat :: g < |r.gs| ==>
              EnqueueUp(parent, r, q, child, d, dry).gs[g].throttled
              == (r.gs[g].throttled || Struck(parent, r.gs, q, dry, g))
    decreases q
  {
    EntityFlags(parent, r, q, child, dry);
    var r1 := EnqueueEntity(parent, r, q, child, dry);
    if !r1.gs[q].throttled && q > 0 {
      var r2, up := r1.(gs := AddH(r1.gs, q, d)), parent[q];
      StopSame(parent, r.gs, r2.gs, up, dry);
      if r.gs[q].queued == 0 {
        EnqueueUpFlags(parent, r2, up, q, d, dry);
      } else {
        assert Fits(r.gs[q]);
      }
    }
  }

  // ------------------------------------------- tasks and flags determine the counters

  /** The same tasks and flags. */
  predicate SameTasks(a: seq<Group>, b: seq<Group>) {
    |a| == |b| && forall g: nat :: g < |a| ==> a[g].tasks == b[g].tasks && a[g].throttled == b[g].throttled
  }

  predicate SameEntity(x: Group, y: Group) {
    x.queued == y.queued && x.h == y.h && x.onRq == y.onRq
  }

  lemma {:induction false} SameChildren(parent: seq<nat>, a: seq<Group>, b: seq<Group>, g: nat, k: nat)
    requires Tree(parent) && k <= |a| == |b| == |parent|
    requires forall x: nat :: g < x < |a| ==> SameEntity(a[x], b[x])
    ensures ChildSum(parent, a, g, k, OnOf) == ChildSum(parent, b, g, k, OnOf)
    ensures ChildSum(parent, a, g, k, HOf) == ChildSum(parent, b, g, k, HOf)
  {
    if k > 1 { SameChildren(parent, a, b, g, k - 1); }
  }

  /** From the leaves up. */
  lemma {:induction false} SameEntities(parent: seq<nat>, a: seq<Group>, b: seq<Group>, g: nat)
    requires Agree(parent, a, -1, 0, {}) && Agree(parent, b, -1, 0, {}) && SameTasks(a, b) && g <= |a|
    ensures forall x: nat :: g <= x < |a| && x > 0 ==> SameEntity(a[x], b[x])
    ensures g == 0 ==> a[0].queued == b[0].queued && a[0].h == b[0].h
    decreases |a| - g
  {
    if g < |a| {
      SameEntities(parent, a, b, g + 1);
      SameChildren(parent, a, b, g, |a|);
      if g > 0 { assert Fits(a[g]) && Fits(b[g]); }
    }
  }

  /** From the root down. */
  lemma {:induction false} SameCounts(parent: seq<nat>, a: seq<Group>, b: seq<Group>, g: nat)
    requires CountsAgree(parent, a) && CountsAgree(parent, b) && SameTasks(a, b) && g < |a|
    ensures a[g].count == b[g].count
    decreases g
  {
    if g > 0 { SameCounts(parent, a, b, parent[g]); }
  }

  /** In a sound state the tasks and the throttled flags determine everything else:
      two sound states that have the same tasks and flags are the same. */
  lemma SoundDetermined(parent: seq<nat>, r: Rq, u: Rq)
    requires Sound(parent, r) && Sound(parent, u) && SameTasks(r.gs, u.gs)
    ensures r.nr == u.nr
    ensures forall g: nat :: g < |r.gs| ==> r.gs[g] == u.gs[g].(onRq := if g == 0 then r.gs[0].onRq else u.gs[g].onRq)
  {
    SameEntities(parent, r.gs, u.gs, 0);
    forall g: nat | g < |r.gs| ensures r.gs[g].count == u.gs[g].count { SameCounts(parent, r.gs, u.gs, g); }
  }

  lemma EnqueueKeepsSound(parent: seq<nat>, r: Rq, q: nat, dry: set<nat>)
    requires Sound(parent, r) && q < |r.gs|
    ensures Sound(parent, EnqueueUp(parent, r, q, -1, 1, dry))
  {
    EnqueueUpRestores(parent, r, q, -1, 1, dry);
    EnqueueUpCounts(parent, r, q, -1, 1, dry);
  }

  /** unthrottle_cfs_rq */
  function Unthrottle(parent: seq<nat>, r: Rq, q: nat, dry: set<nat>): (out: Rq)
    requires Tree(parent) && |r.gs| == |parent| && 0 < q < |r.gs|
    ensures |out.gs| == |r.gs|
  {
    var b := Bump(parent, r.gs, q, -1);
    var r1 := r.(gs := b[q := b[q].(throttled := false)]);
    if r1.gs[q].queued == 0 then r1 else EnqueueUp(parent, r1, parent[q], q, r1.gs[q].h, dry)
  }

  lemma UnthrottleKeepsSound(parent: seq<nat>, r: Rq, q: nat, dry: set<nat>)
    requires Sound(parent, r) && 0 < q < |r.gs| && r.gs[q].throttled
    ensures Sound(parent, Unthrottle(parent, r, q, dry))
  {
    var b := Bump(parent, r.gs, q, -1);
    AgreeIgnoresCounts(parent, b, r.gs, -1, 0, {});
    FlipKeepsCounts(parent, r.gs, q, false);
    Replace(parent, b, q, b[q].(throttled := false));
    var r1 := r.(gs := b[q := b[q].(throttled := false)]);
    assert Fits(r.gs[q]);
    assert Agree(parent, r1.gs, -1, 0, {q});
    if r1.gs[q].queued == 0 {
      Excuse(parent, r1.gs, -1, 0, {q}, {});
    } else {
      EnqueueUpRestores(parent, r1, parent[q], q, r1.gs[q].h, dry);
      EnqueueUpCounts(parent, r1, parent[q], q, r1.gs[q].h, dry);
    }
  }

  /** The loops of dequeue_task_fair. */
  function DequeueUp(parent: seq<nat>, r: Rq, q: nat, child: int): (out: Rq)
    requires Tree(parent) && |r.gs| == |parent| && q < |r.gs| && -1 <= child < |r.gs| && child != q
    requires child < 0 ==> r.gs[q].tasks > 0
    ensures |out.gs| == |r.gs|
    ensures forall g: nat :: g < |r.gs| ==>
              && out.gs[g].tasks == r.gs[g].tasks - (if child < 0 && g == q then 1 else 0)
              && out.gs[g].throttled == r.gs[g].throttled && out.gs[g].count == r.gs[g].count
    decreases q
  {
    var r1 := r.(gs := Unlink(r.gs, q, child));
    if r1.gs[q].throttled then AddUp(parent, r1, q, -1) else
    var r2 := r1.(gs := AddH(r1.gs, q, -1));
    if q == 0 then r2.(nr := r2.nr - 1)
    else if r2.gs[q].queued != 0 then AddUp(parent, r2, parent[q], -1)
    else DequeueUp(parent, r2, parent[q], q)
  }

  /** When the dequeue loop arrives at q from an emptied child, q is short by one
      task and the child's entity is still queued there. */
  ghost predicate Leaving(parent: seq<nat>, gs: seq<Group>, q: nat, child: int) {
    && q < |gs| && -1 <= child < |gs| && child != q
    && (child < 0 ==> Agree(parent, gs, -1, 0, {}) && gs[q].tasks > 0)
    && (child >= 0 ==>
          && child > 0 && |gs| == |parent| && parent[child] == q
          && Agree(parent, gs, q, -1, {child}) && gs[child].onRq && gs[child].queued == 0)
  }

  lemma UnlinkLeaves(parent: seq<nat>, gs: seq<Group>, q: nat, child: int)
    requires Leaving(parent, gs, q, child)
    ensures Agree(parent, Unlink(gs, q, child), q, -1, Drained(Unlink(gs, q, child), q))
  {
    if child < 0 {
      UnlinkTask(parent, gs, q);
    } else {
      QueuedNonNegative(parent, gs, q, -1, {child}, child);
      Excuse(parent, gs, q, -1, {child}, {} + {child});
      UnlinkGroup(parent, gs, child, q, -1, {});
      var gs' := Unlink(gs, q, child);
      Excuse(parent, gs', q, -1, {} + {child} + Drained(gs', q), Drained(gs', q));
    }
  }

  lemma {:induction false} DequeueUpRestores(parent: seq<nat>, r: Rq, q: nat, child: int)
    requires Leaving(parent, r.gs, q, child) && r.nr == r.gs[0].h
    ensures var out := DequeueUp(parent, r, q, child);
            Agree(parent, out.gs, -1, 0, {}) && out.nr == out.gs[0].h
    decreases q
  {
    UnlinkLeaves(parent, r.gs, q, child);
    var gs := Unlink(r.gs, q, child);
    var r2 := r.(gs := AddH(gs, q, -1));
    AddHMovesHole(parent, gs, q, -1, Drained(gs, q));
    if q > 0 && !gs[q].throttled && gs[q].queued != 0 {
      assert Fits(gs[q]);
      CountedMeansQueued(parent, r2.gs, q, |r2.gs|);
      AddUpRestores(parent, r2, parent[q], -1);
    } else if q > 0 && !gs[q].throttled {
      assert Fits(r.gs[q]);
      WasQueued(parent, r.gs, q, child);
      DequeueUpRestores(parent, r2, parent[q], q);
    }
  }

  lemma WasQueued(parent: seq<nat>, gs: seq<Group>, q: nat, child: int)
    requires Leaving(parent, gs, q, child)
    ensures gs[q].queued > 0
  {
    NothingQueuedNothingCounted(parent, gs, q, |gs|);
    if child > 0 { CountedMeansQueued(parent, gs, child, |gs|); }
  }

  lemma DequeueKeepsSound(parent: seq<nat>, r: Rq, q: nat)
    requires Sound(parent, r) && q < |r.gs| && r.gs[q].tasks > 0
    ensures Sound(parent, DequeueUp(parent, r, q, -1))
  {
    DequeueUpRestores(parent, r, q, -1);
    CountsFramed(parent, r.gs, DequeueUp(parent, r, q, -1).gs);
  }

  // --------------------------------------------- rq->nr_running counts what can run

  /** The queued tasks of the first k groups that are not below a throttled queue. */
  function Runnable(gs: seq<Group>, k: nat): int
    requires k <= |gs|
  {
    if k == 0 then 0 else Runnable(gs, k - 1) + if gs[k - 1].count == 0 then gs[k - 1].tasks else 0
  }

  function LiveH(gs: seq<Group>, k: nat): int
    requires k <= |gs|
  {
    if k == 0 then 0 else LiveH(gs, k - 1) + if gs[k - 1].count == 0 then gs[k - 1].h else 0
  }

  /** What the first m live groups find among the first k groups. */
  function Found(parent: seq<nat>, gs: seq<Group>, m: nat, k: nat): int
    requires m <= |gs| == |parent| && k <= |gs|
  {
    if m == 0 then 0
    else Found(parent, gs, m - 1, k) + if gs[m - 1].count == 0 then ChildSum(parent, gs, m - 1, k, HOf) else 0
  }

  /** The same sum by child instead of by parent. */
  function Given(parent: seq<nat>, gs: seq<Group>, k: nat): int
    requires k <= |gs| == |parent| && Tree(parent)
  {
    if k <= 1 then 0
    else Given(parent, gs, k - 1) + if gs[parent[k - 1]].count == 0 then HOf(gs[k - 1]) else 0
  }

  lemma {:induction false} FoundStep(parent: seq<nat>, gs: seq<Group>, m: nat, k: nat)
    requires Tree(parent) && m <= |gs| == |parent| && 1 < k <= |gs|
    ensures Found(parent, gs, m, k) == Found(parent, gs, m, k - 1)
            + if parent[k - 1] < m && gs[parent[k - 1]].count == 0 then HOf(gs[k - 1]) else 0
  {
    if m > 0 { FoundStep(parent, gs, m - 1, k); }
  }

  lemma {:induction false} FoundNothing(parent: seq<nat>, gs: seq<Group>, m: nat, k: nat)
    requires m <= |gs| == |parent| && k <= 1 && k <= |gs|
    ensures Found(parent, gs, m, k) == 0
  {
    if m > 0 { FoundNothing(parent, gs, m - 1, k); }
  }

  lemma {:induction false} FoundIsGiven(parent: seq<nat>, gs: seq<Group>, k: nat)
    requires Tree(parent) && k <= |gs| == |parent|
    ensures Found(parent, gs, |gs|, k) == Given(parent, gs, k)
  {
    if k <= 1 { FoundNothing(parent, gs, |gs|, k); }
    else { FoundStep(parent, gs, |gs|, k); FoundIsGiven(parent, gs, k - 1); }
  }

  lemma {:induction false} LiveHSplits(parent: seq<nat>, gs: seq<Group>, m: nat)
    requires Agree(parent, gs, -1, 0, {}) && m <= |gs|
    ensures LiveH(gs, m) == Runnable(gs, m) + Found(parent, gs, m, |gs|)
  {
    if m > 0 { LiveHSplits(parent, gs, m - 1); }
  }

  lemma {:induction false} CountsNonNegative(parent: seq<nat>, gs: seq<Group>, g: nat)
    requires CountsAgree(parent, gs) && g < |gs|
    ensures gs[g].count >= 0
    decreases g
  {
    if g > 0 { CountsNonNegative(parent, gs, parent[g]); }
  }

  /** A group is live exactly when its parent is and it is not throttled, and a
      group that is not counted by its live parent has nothing to count. */
  lemma LiveStep(parent: seq<nat>, gs: seq<Group>, x: nat)
    requires Agree(parent, gs, -1, 0, {}) && CountsAgree(parent, gs) && 0 < x < |gs|
    ensures (if gs[x].count == 0 then gs[x].h else 0) == (if gs[parent[x]].count == 0 then HOf(gs[x]) else 0)
  {
    CountsNonNegative(parent, gs, parent[x]);
    QueuedNonNegative(parent, gs, -1, 0, {}, x);
    assert Fits(gs[x]);
  }

  lemma {:induction false} LiveHIsGiven(parent: seq<nat>, gs: seq<Group>, k: nat)
    requires Tree(parent) && 0 < k <= |gs| == |parent| && gs[0].count == 0
    requires forall x: nat :: 0 < x < |gs| ==>
               (if gs[x].count == 0 then gs[x].h else 0) == (if gs[parent[x]].count == 0 then HOf(gs[x]) else 0)
    ensures LiveH(gs, k) == gs[0].h + Given(parent, gs, k)
  {
    if k == 1 { assert LiveH(gs, 0) == 0; } else { LiveHIsGiven(parent, gs, k - 1); }
  }

  /** In every sound state the CFS part of rq->nr_running is the number of queued
      tasks with no throttled queue on their path to the root. */
  lemma NrRunningIsRunnable(parent: seq<nat>, r: Rq)
    requires Sound(parent, r)
    ensures r.nr == Runnable(r.gs, |r.gs|)
  {
    LiveHSplits(parent, r.gs, |r.gs|);
    FoundIsGiven(parent, r.gs, |r.gs|);
    forall x: nat | 0 < x < |r.gs|
      ensures (if r.gs[x].count == 0 then r.gs[x].h else 0) == (if r.gs[parent[x]].count == 0 then HOf(r.gs[x]) else 0)
    {
      LiveStep(parent, r.gs, x);
    }
    LiveHIsGiven(parent, r.gs, |r.gs|);
  }

  // ---------------------------------------------------------------------- whole runs

  datatype Op =
    | Enqueue(q: nat, dry: set<nat>)
    | Dequeue(q: nat)
    | ThrottleOp(q: nat)
    | UnthrottleOp(q: nat, dry: set<nat>)

  predicate Possible(r: Rq, op: Op) {
    && op.q < |r.gs|
    && (op.Dequeue? ==> r.gs[op.q].tasks > 0)
    && (op.ThrottleOp? ==> op.q > 0 && !r.gs[op.q].throttled)
    && (op.UnthrottleOp? ==> op.q > 0 && r.gs[op.q].throttled)
  }

  function Do(parent: seq<nat>, r: Rq, op: Op): (out: Rq)
    requires Tree(parent) && |r.gs| == |parent| && Possible(r, op)
    ensures |out.gs| == |r.gs|
  {
    match op
    case Enqueue(q, dry) => EnqueueUp(parent, r, q, -1, 1, dry)
    case Dequeue(q) => DequeueUp(parent, r, q, -1)
    case ThrottleOp(q) => Throttle(parent, r, q)
    case UnthrottleOp(q, dry) => Unthrottle(parent, r, q, dry)
  }

  ghost predicate IsRun(parent: seq<nat>, r: Rq, ops: seq<Op>, out: Rq)
    requires Tree(parent) && |r.gs| == |parent|
    decreases |ops|
  {
    if ops == [] then out == r
    else Possible(r, ops[0]) && IsRun(parent, Do(parent, r, ops[0]), ops[1..], out)
  }

  /** After any sequence of operations all the redundant counters agree. */
  lemma {:induction false} EveryRunAgrees(parent: seq<nat>, r: Rq, ops: seq<Op>, out: Rq)
    requires Sound(parent, r) && IsRun(parent, r, ops, out)
    ensures Sound(parent, out) && out.nr == Runnable(out.gs, |out.gs|)
    decreases |ops|
  {
    if ops == [] {
      NrRunningIsRunnable(parent, r);
    } else {
      match ops[0] {
        case Enqueue(q, dry) => EnqueueKeepsSound(parent, r, q, dry);
        case Dequeue(q) => DequeueKeepsSound(parent, r, q);
        case ThrottleOp(q) => ThrottleKeepsSound(parent, r, q);
        case UnthrottleOp(q, dry) => UnthrottleKeepsSound(parent, r, q, dry);
      }
      EveryRunAgrees(parent, Do(parent, r, ops[0]), ops[1..], out);
    }
  }

  // ------------------------------------------------------------------------ the code

  class RunQueue {
    const parent: seq<nat>
    var gs: seq<Group>
    var nr: int

    ghost function Now(): Rq
      reads this
    {
      Rq(gs, nr)
    }

    ghost predicate Valid()
      reads this
    {
      Sound(parent, Now())
    }

    /** No task is queued anywhere. */
    constructor (parent: seq<nat>)
      requires Tree(parent)
      ensures Valid() && this.parent == parent && forall g :: 0 <= g < |gs| ==> gs[g].tasks == 0
    {
      this.parent := parent;
      gs := seq(|parent|, _ => Group(0, 0, 0, false, false, 0));
      nr := 0;
      new;
      EmptyAgrees(parent, gs, |gs|);
    }

    /** The loop of throttle_cfs_rq and the update of rq->nr_running after it. */
    method ThrottleClimb(q: nat, delta: int)
      requires Tree(parent) && |gs| == |parent| && q < |gs|
      modifies this
      ensures Now() == ThrottleUp(parent, old(Now()), q, delta, true)
    {
      ghost var goal := ThrottleUp(parent, Now(), q, delta, true);
      var child: nat, dequeue := q, true;
      while child != 0 && gs[child].onRq
        invariant |gs| == |parent| && child < |gs|
        invariant ThrottleUp(parent, Now(), child, delta, dequeue) == goal
        decreases child
      {
        var up := parent[child];
        if dequeue {
          gs := Unlink(gs, up, child);
        }
        gs := AddH(gs, up, -delta);
        if gs[up].queued != 0 {
          dequeue := false;
        }
        child := up;
      }
      if child == 0 {
        nr := nr - delta;
      }
    }

    /** throttle_cfs_rq, also when it is called in the middle of an enqueue. */
    method ThrottleWalk(q: nat)
      requires Tree(parent) && |gs| == |parent| && 0 < q < |gs|
      modifies this
      ensures Now() == Throttle(parent, old(Now()), q)
    {
      gs := Bump(parent, gs, q, 1);
      ThrottleClimb(q, gs[q].h);
      gs := gs[q := gs[q].(throttled := true)];
    }

    /** enqueue_entity, as far as the counters go. */
    method EnqueueOne(q: nat, child: int, dry: set<nat>)
      requires Tree(parent) && |gs| == |parent| && q < |gs| && -1 <= child < |gs| && child != q
      modifies this
      ensures Now() == EnqueueEntity(parent, old(Now()), q, child, dry)
    {
      gs := Link(gs, q, child);
      if gs[q].queued == 1 && q > 0 && q in dry && !gs[q].throttled {
        ThrottleWalk(q);
      }
    }

    /** The second loop of enqueue_task_fair and dequeue_task_fair, with the
        update of rq->nr_running that follows it. */
    method CountUp(q0: nat, d: int)
      requires Tree(parent) && |gs| == |parent| && q0 < |gs|
      modifies this
      ensures Now() == AddUp(parent, old(Now()), q0, d)
    {
      ghost var goal := AddUp(parent, Now(), q0, d);
      var q: nat, top := q0, false;
      while !top
        invariant |gs| == |parent| && q < |gs|
        invariant goal == if top then Rq(gs, nr + d) else AddUp(parent, Now(), q, d)
        decreases !top, q
      {
        gs := AddH(gs, q, d);
        if gs[q].throttled { break; }
        if q == 0 { top := true; } else { q := parent[q]; }
      }
      if top {
        nr := nr + d;
      }
    }

    method EnqueueWalk(q0: nat, dry: set<nat>)
      requires Tree(parent) && |gs| == |parent| && q0 < |gs|
      modifies this
      ensures Now() == EnqueueUp(parent, old(Now()), q0, -1, 1, dry)
    {
      ghost var goal := EnqueueUp(parent, Now(), q0, -1, 1, dry);
      var q: nat, child: int, top := q0, -1, false;
      while !top && !(child >= 0 && gs[child].onRq)
        invariant |gs| == |parent| && q < |gs| && -1 <= child < |gs| && child != q
        invariant goal == if top then Rq(gs, nr + 1) else EnqueueUp(parent, Now(), q, child, 1, dry)
        decreases !top, q
      {
        EnqueueOne(q, child, dry);
        if gs[q].throttled { break; }
        gs := AddH(gs, q, 1);
        if q == 0 { top := true; } else { q, child := parent[q], q; }
      }
      if top {
        nr := nr + 1;
      } else {
        CountUp(q, 1);
      }
    }

    method DequeueWalk(q0: nat)
      requires Tree(parent) && |gs| == |parent| && q0 < |gs| && gs[q0].tasks > 0
      modifies this
      ensures Now() == DequeueUp(parent, old(Now()), q0, -1)
    {
      ghost var goal := DequeueUp(parent, Now(), q0, -1);
      var q: nat, child: int, top := q0, -1, false;
      while !top
        invariant |gs| == |parent| && q < |gs| && -1 <= child < |gs| && child != q
        invariant child < 0 && !top ==> gs[q].tasks > 0
        invariant goal == if top then Rq(gs, nr - 1) else DequeueUp(parent, Now(), q, child)
        decreases !top, q
      {
        gs := Unlink(gs, q, child);
        if gs[q].throttled { break; }
        gs := AddH(gs, q, -1);
        var busy := gs[q].queued != 0;
        if q == 0 { top := true; } else { q, child := parent[q], q; }
        if busy { break; }
      }
      if top {
        nr := nr - 1;
      } else {
        CountUp(q, -1);
      }
    }

    method UnthrottleWalk(q0: nat, dry: set<nat>)
      requires Tree(parent) && |gs| == |parent| && 0 < q0 < |gs|
      modifies this
      ensures Now() == Unthrottle(parent, old(Now()), q0, dry)
    {
      gs := Bump(parent, gs, q0, -1);
      gs := gs[q0 := gs[q0].(throttled := false)];
      if gs[q0].queued == 0 { return; }
      var delta := gs[q0].h;
      ghost var goal := EnqueueUp(parent, Now(), parent[q0], q0, delta, dry);
      var q: nat, child: nat, top, enqueue := parent[q0], q0, false, true;
      while !top
        invariant |gs| == |parent| && q < |gs| && child < |gs| && child != q
        invariant goal == if top then Rq(gs, nr + delta)
                          else if enqueue then EnqueueUp(parent, Now(), q, child, delta, dry)
                          else AddUp(parent, Now(), q, delta)
        decreases !top, q
      {
        if gs[child].onRq {
          enqueue := false;
        }
        if enqueue {
          EnqueueOne(q, child, dry);
        }
        gs := AddH(gs, q, delta);
        if gs[q].throttled { break; }
        if q == 0 { top := true; } else { q, child := parent[q], q; }
      }
      if top {
        nr := nr + delta;
      }
    }

    /** throttle_cfs_rq as check_cfs_rq_runtime calls it. */
    method ThrottleGroup(q: nat)
      requires Valid() && 0 < q < |gs| && !gs[q].throttled
      modifies this
      ensures Valid() && |gs| == |old(gs)|
      ensures forall g: nat :: g < |gs| ==>
                gs[g].tasks == old(gs[g].tasks) && gs[g].throttled == (old(gs[g].throttled) || g == q)
      ensures nr == Runnable(gs, |gs|)
    {
      ThrottleKeepsSound(parent, Now(), q);
      ThrottleWalk(q);
      NrRunningIsRunnable(parent, Now());
    }

    /** enqueue_task_fair: one more task on q0's queue; on the way up, the first
        group that wakes out of runtime is throttled. */
    method EnqueueTask(q0: nat, dry: set<nat>)
      requires Valid() && q0 < |gs|
      modifies this
      ensures Valid() && |gs| == |old(gs)|
      ensures forall g: nat :: g < |gs| ==> gs[g].tasks == old(gs[g].tasks) + if g == q0 then 1 else 0
      ensures forall g: nat :: g < |gs| ==>
                gs[g].throttled == (old(gs[g].throttled) || Struck(parent, old(gs), q0, dry, g))
      ensures nr == Runnable(gs, |gs|)
    {
      ghost var was := Now();
      EnqueueWalk(q0, dry);
      EnqueueOutcome(parent, was, q0, dry);
    }

    /** dequeue_task_fair */
    method DequeueTask(q0: nat)
      requires Valid() && q0 < |gs| && gs[q0].tasks > 0
      modifies this
      ensures Valid() && |gs| == |old(gs)|
      ensures forall g: nat :: g < |gs| ==>
                && gs[g].tasks == old(gs[g].tasks) - (if g == q0 then 1 else 0)
                && gs[g].throttled == old(gs[g].throttled)
      ensures nr == Runnable(gs, |gs|)
    {
      DequeueKeepsSound(parent, Now(), q0);
      DequeueWalk(q0);
      NrRunningIsRunnable(parent, Now());
    }

    /** unthrottle_cfs_rq */
    method UnthrottleGroup(q0: nat, dry: set<nat>)
      requires Valid() && 0 < q0 < |gs| && gs[q0].throttled
      modifies this
      ensures Valid() && |gs| == |old(gs)|
      ensures forall g: nat :: g < |gs| ==> gs[g].tasks == old(gs[g].tasks)
      ensures forall g: nat :: g < |gs| ==>
                gs[g].throttled == ((old(gs[g].throttled) && g != q0)
                                    || (old(gs[q0].queued) != 0 && Struck(parent, old(gs), parent[q0], dry, g)))
      ensures nr == Runnable(gs, |gs|)
    {
      ghost var was := Now();
      UnthrottleWalk(q0, dry);
      UnthrottleOutcome(parent, was, q0, dry);
    }
  }

  lemma EnqueueOutcome(parent: seq<nat>, r: Rq, q: nat, dry: set<nat>)
    requires Sound(parent, r) && q < |r.gs|
    ensures var out := EnqueueUp(parent, r, q, -1, 1, dry);
            && Sound(parent, out) && out.nr == Runnable(out.gs, |out.gs|)
            && forall g: nat :: g < |r.gs| ==>
                 && out.gs[g].tasks == r.gs[g].tasks + (if g == q then 1 else 0)
                 && out.gs[g].throttled == (r.gs[g].throttled || Struck(parent, r.gs, q, dry, g))
  {
    var out := EnqueueUp(parent, r, q, -1, 1, dry);
    EnqueueKeepsSound(parent, r, q, dry);
    EnqueueUpFlags(parent, r, q, -1, 1, dry);
    NrRunningIsRunnable(parent, out);
    forall g: nat | g < |r.gs| ensures out.gs[g].tasks == r.gs[g].tasks + if g == q then 1 else 0 {
      EnqueueUpTasks(parent, r, q, -1, 1, dry, g);
    }
  }

  lemma UnthrottleOutcome(parent: seq<nat>, r: Rq, q: nat, dry: set<nat>)
    requires Sound(parent, r) && 0 < q < |r.gs| && r.gs[q].throttled
    ensures var out := Unthrottle(parent, r, q, dry);
            && Sound(parent, out) && out.nr == Runnable(out.gs, |out.gs|)
            && forall g: nat :: g < |r.gs| ==>
                 && out.gs[g].tasks == r.gs[g].tasks
                 && out.gs[g].throttled == ((r.gs[g].throttled && g != q)
                                            || (r.gs[q].queued != 0 && Struck(parent, r.gs, parent[q], dry, g)))
  {
    var out := Unthrottle(parent, r, q, dry);
    UnthrottleKeepsSound(parent, r, q, dry);
    NrRunningIsRunnable(parent, out);
    FlipKeepsCounts(parent, r.gs, q, false);
    var b := Bump(parent, r.gs, q, -1);
    var r1 := r.(gs := b[q := b[q].(throttled := false)]);
    assert Fits(r.gs[q]) && r1.gs[q].onRq == r.gs[q].onRq;
    assert forall x: nat :: 0 < x < q ==> Fits(r.gs[x]) && r1.gs[x] == r.gs[x].(count := r1.gs[x].count);
    if r.gs[q].queued != 0 {
      EnqueueUpFlags(parent, r1, parent[q], q, r1.gs[q].h, dry);
      StopSame(parent, r.gs, r1.gs, parent[q], dry);
    }
    forall g: nat | g < |r.gs| ensures out.gs[g].tasks == r.gs[g].tasks {
      EnqueueUpTasks(parent, r1, parent[q], q, r1.gs[q].h, dry, g);
    }
  }

  lemma {:induction false} EmptySums(parent: seq<nat>, gs: seq<Group>, g: nat, k: nat)
    requires k <= |gs| == |parent| && forall c :: 0 <= c < |gs| ==> !gs[c].onRq
    ensures ChildSum(parent, gs, g, k, OnOf) == 0 && ChildSum(parent, gs, g, k, HOf) == 0
  {
    if k > 1 { EmptySums(parent, gs, g, k - 1); }
  }

  lemma EmptyAgrees(parent: seq<nat>, gs: seq<Group>, n: nat)
    requires Tree(parent) && n == |gs| == |parent|
    requires forall c :: 0 <= c < |gs| ==> gs[c] == Group(0, 0, 0, false, false, 0)
    ensures Sound(parent, Rq(gs, 0))
  {
    forall g: nat | g < n
      ensures ChildSum(parent, gs, g, n, OnOf) == 0 && ChildSum(parent, gs, g, n, HOf) == 0
    {
      EmptySums(parent, gs, g, n);
    }
  }
}
