// The load sums of run queues and CPUs: runnable_load_avg of a cfs_rq and
// load_avg_ratio of an rq, kept by differences while entities tick, sleep, wake
// up and migrate (backup/fair_mp.c, 1460-1470, 1570-1650, 1696-1760, 1905-2030,
// 4536-4566, 4967-4973).
//
// The averages that an update computes, and the contribution that follows from
// them, are inputs: any values may come out of it. blocked_load_avg and
// removed_load are not modelled.

module LoadSums {
  import LoadAvg

  datatype Avg = Avg(contrib: nat, ratio: nat, decay: int)

  /** queue is the cfs_rq the entity belongs to. */
  datatype Entity = Entity(queue: nat, task: bool, onRq: bool, avg: Avg)

  datatype Queue = Queue(cpu: nat, runnable: int, counter: int)

  /** ratios holds rq->avg.load_avg_ratio of each CPU. */
  datatype State = State(entities: seq<Entity>, queues: seq<Queue>, ratios: seq<int>)

  /** Outcome of __update_entity_runnable_avg: no full period has passed, or the
      averages are now such that a contribution and a ratio are computed. */
  datatype Update = Unchanged | Fresh(contrib: nat, now: LoadAvg.Avg)

  predicate Sized(s: State) {
    && (forall e :: 0 <= e < |s.entities| ==> s.entities[e].queue < |s.queues|)
    && (forall q :: 0 <= q < |s.queues| ==> s.queues[q].cpu < |s.ratios|)
  }

  // --------------------------------------------------------------- operations

  /** __update_entity_load_avg_contrib; a group entity has no ratio of its own */
  function Recompute(task: bool, a: Avg, u: Update): Avg {
    match u
    case Unchanged => a
    case Fresh(contrib, now) => a.(contrib := contrib, ratio := if task then LoadAvg.LoadShare(now, 1024) else a.ratio)
  }

  /** Puts x in place of entity e and adds to the sums of its queue and CPU. */
  function Book(s: State, e: nat, x: Entity, contrib: int, ratio: int): State
    requires Sized(s) && e < |s.entities| && x.queue == s.entities[e].queue
  {
    var q := s.queues[x.queue];
    s.(entities := s.entities[e := x],
    queues := s.queues[x.queue := q.(runnable := q.runnable + contrib)],
    ratios := s.ratios[q.cpu := s.ratios[q.cpu] + ratio])
  }

  /** update_entity_load_avg(se, 1) */
  function UpdateLoad(s: State, e: nat, u: Update): State
    requires Sized(s) && e < |s.entities|
  {
    var x := s.entities[e];
    var a := Recompute(x.task, x.avg, u);
    if x.onRq then Book(s, e, x.(avg := a), a.contrib - x.avg.contrib, a.ratio - x.avg.ratio)
    else Book(s, e, x.(avg := a), 0, 0)
  }

  /** The averages with which enqueue_entity_load_avg takes the entity in. synced
      is the contribution decayed for the time asleep. */
  function Arriving(x: Entity, counter: int, wakeup: bool, synced: nat, u: Update): Avg {
    var a := x.avg;
    if a.decay < 0 then Recompute(x.task, a, u).(decay := 0)
    else if a.decay == 0 then a
    else
      var b := a.(contrib := if counter == a.decay then a.contrib else synced, decay := 0);
      if wakeup then Recompute(x.task, b, u) else b
  }

  /** enqueue_entity, as far as load goes */
  function Enqueued(s: State, e: nat, wakeup: bool, synced: nat, u: Update): State
    requires Sized(s) && e < |s.entities|
  {
    var x := s.entities[e];
    var a := Arriving(x, s.queues[x.queue].counter, wakeup, synced, u);
    Book(s, e, x.(avg := a, onRq := true), a.contrib, a.ratio)
  }

  /** What dequeue_entity does after update_entity_load_avg. */
  function Removed(s: State, e: nat, sleep: bool): State
    requires Sized(s) && e < |s.entities|
  {
    var x := s.entities[e];
    var a := if sleep then x.avg.(decay := s.queues[x.queue].counter) else x.avg;
    Book(s, e, x.(avg := a, onRq := false), 0 - x.avg.contrib, 0 - x.avg.ratio)
  }

  lemma BookSized(s: State, e: nat, x: Entity, contrib: int, ratio: int)
    requires Sized(s) && e < |s.entities| && x.queue == s.entities[e].queue
    ensures Sized(Book(s, e, x, contrib, ratio))
  {
  }

  /** dequeue_entity, as far as load goes */
  function Dequeued(s: State, e: nat, sleep: bool, u: Update): (t: State)
    requires Sized(s) && e < |s.entities|
    ensures Sized(t) && |t.entities| == |s.entities| && |t.queues| == |s.queues|
  {
    var x := s.entities[e];
    var a := Recompute(x.task, x.avg, u);
    BookSized(s, e, x.(avg := a), a.contrib - x.avg.contrib, a.ratio - x.avg.ratio);
    BookSized(s, e, x.(avg := a), 0, 0);
    Removed(UpdateLoad(s, e, u), e, sleep)
  }

  /** migrate_task_rq_fair, then set_task_rq: the task changes queue */
  function Moved(s: State, e: nat, to: nat, synced: nat): State
    requires Sized(s) && e < |s.entities| && to < |s.queues|
  {
    var x := s.entities[e];
    var decays := s.queues[x.queue].counter - x.avg.decay;
    var a := if x.avg.decay == 0 then x.avg
             else x.avg.(contrib := if decays == 0 then x.avg.contrib else synced, decay := -decays);
    s.(entities := s.entities[e := x.(avg := a, queue := to)])
  }

  // ------------------------------------------------------------------- sums

  function QueueSum(es: seq<Entity>, q: nat): int {
    if es == [] then 0 else (if es[0].onRq && es[0].queue == q then es[0].avg.contrib else 0) + QueueSum(es[1..], q)
  }

  function OnCpu(queues: seq<Queue>, x: Entity, c: nat): bool {
    x.onRq && x.queue < |queues| && queues[x.queue].cpu == c
  }

  function RatioSum(es: seq<Entity>, queues: seq<Queue>, c: nat): int {
    if es == [] then 0
    else (if OnCpu(queues, es[0], c) && es[0].task then es[0].avg.ratio else 0) + RatioSum(es[1..], queues, c)
  }

  predicate EntitySound(x: Entity) {
    (x.task || x.avg.ratio == 0) && (x.onRq ==> x.avg.decay == 0)
  }

  /** The sums are what they should be; a group entity's ratio stays 0; and an
      entity on its queue has no decays outstanding. */
  ghost predicate Agrees(s: State) {
    && Sized(s)
    && (forall q: nat :: q < |s.queues| ==> s.queues[q].runnable == QueueSum(s.entities, q))
    && (forall c: nat :: c < |s.ratios| ==> s.ratios[c] == RatioSum(s.entities, s.queues, c))
    && (forall e :: 0 <= e < |s.entities| ==> EntitySound(s.entities[e]))
  }

  function Share(x: Entity, q: nat): int {
    if x.onRq && x.queue == q then x.avg.contrib else 0
  }

  function RatioShare(queues: seq<Queue>, x: Entity, c: nat): int {
    if OnCpu(queues, x, c) && x.task then x.avg.ratio else 0
  }

  lemma {:induction false} QueueSumUpdate(es: seq<Entity>, e: nat, x: Entity, q: nat)
    requires e < |es|
    ensures QueueSum(es[e := x], q) == QueueSum(es, q) - Share(es[e], q) + Share(x, q)
  {
    if e == 0 {
      assert es[e := x][1..] == es[1..];
    } else {
      assert es[e := x][1..] == es[1..][e - 1 := x];
      QueueSumUpdate(es[1..], e - 1, x, q);
    }
  }

  lemma {:induction false} RatioSumUpdate(es: seq<Entity>, queues: seq<Queue>, e: nat, x: Entity, c: nat)
    requires e < |es|
    ensures RatioSum(es[e := x], queues, c) == RatioSum(es, queues, c) - RatioShare(queues, es[e], c) + RatioShare(queues, x, c)
  {
    if e == 0 {
      assert es[e := x][1..] == es[1..];
    } else {
      assert es[e := x][1..] == es[1..][e - 1 := x];
      RatioSumUpdate(es[1..], queues, e - 1, x, c);
    }
  }

  lemma {:induction false} RatioSumSame(es: seq<Entity>, qs: seq<Queue>, rs: seq<Queue>, c: nat)
    requires |qs| == |rs| && forall q :: 0 <= q < |qs| ==> rs[q].cpu == qs[q].cpu
    ensures RatioSum(es, rs, c) == RatioSum(es, qs, c)
  {
    if es != [] {
      RatioSumSame(es[1..], qs, rs, c);
    }
  }

  // ------------------------------------------------------------- preservation

  /** Booking is right when the differences are those of the entity's shares. */
  lemma BookAgrees(s: State, e: nat, x: Entity, contrib: int, ratio: int)
    requires Agrees(s) && e < |s.entities| && x.queue == s.entities[e].queue
    requires EntitySound(x)
    requires contrib == Share(x, x.queue) - Share(s.entities[e], x.queue)
    requires ratio == RatioShare(s.queues, x, s.queues[x.queue].cpu)
                      - RatioShare(s.queues, s.entities[e], s.queues[x.queue].cpu)
    ensures Agrees(Book(s, e, x, contrib, ratio))
  {
    var t := Book(s, e, x, contrib, ratio);
    forall q: nat | q < |t.queues| ensures t.queues[q].runnable == QueueSum(t.entities, q) {
      QueueSumUpdate(s.entities, e, x, q);
    }
    forall c: nat | c < |t.ratios| ensures t.ratios[c] == RatioSum(t.entities, t.queues, c) {
      RatioSumUpdate(s.entities, s.queues, e, x, c);
      RatioSumSame(t.entities, s.queues, t.queues, c);
    }
  }

  lemma UpdateAgrees(s: State, e: nat, u: Update)
    requires Agrees(s) && e < |s.entities|
    ensures Agrees(UpdateLoad(s, e, u))
  {
    var x := s.entities[e];
    var a := Recompute(x.task, x.avg, u);
    if x.onRq {
      BookAgrees(s, e, x.(avg := a), a.contrib - x.avg.contrib, a.ratio - x.avg.ratio);
    } else {
      BookAgrees(s, e, x.(avg := a), 0, 0);
    }
  }

  lemma EnqueueAgrees(s: State, e: nat, wakeup: bool, synced: nat, u: Update)
    requires Agrees(s) && e < |s.entities| && !s.entities[e].onRq
    ensures Agrees(Enqueued(s, e, wakeup, synced, u))
  {
    var x := s.entities[e];
    var a := Arriving(x, s.queues[x.queue].counter, wakeup, synced, u);
    BookAgrees(s, e, x.(avg := a, onRq := true), a.contrib, a.ratio);
  }

  lemma RemoveAgrees(s: State, e: nat, sleep: bool)
    requires Agrees(s) && e < |s.entities| && s.entities[e].onRq
    ensures Agrees(Removed(s, e, sleep))
  {
    var x := s.entities[e];
    var a := if sleep then x.avg.(decay := s.queues[x.queue].counter) else x.avg;
    BookAgrees(s, e, x.(avg := a, onRq := false), 0 - x.avg.contrib, 0 - x.avg.ratio);
  }

  lemma DequeueAgrees(s: State, e: nat, sleep: bool, u: Update)
    requires Agrees(s) && e < |s.entities| && s.entities[e].onRq
    ensures Agrees(Dequeued(s, e, sleep, u))
  {
    UpdateAgrees(s, e, u);
    RemoveAgrees(UpdateLoad(s, e, u), e, sleep);
  }

  lemma MoveAgrees(s: State, e: nat, to: nat, synced: nat)
    requires Agrees(s) && e < |s.entities| && to < |s.queues| && !s.entities[e].onRq
    ensures Agrees(Moved(s, e, to, synced))
  {
    var t := Moved(s, e, to, synced);
    forall q: nat | q < |t.queues| ensures t.queues[q].runnable == QueueSum(t.entities, q) {
      QueueSumUpdate(s.entities, e, t.entities[e], q);
    }
    forall c: nat | c < |t.ratios| ensures t.ratios[c] == RatioSum(t.entities, t.queues, c) {
      RatioSumUpdate(s.entities, s.queues, e, t.entities[e], c);
    }
  }

  // ------------------------------------------------------------- sleep and wake-up

  /** Whoever goes to sleep takes the queue's decay counter along; whoever leaves for
      another reason takes 0. */
  lemma LeavesWith(s: State, e: nat, sleep: bool, u: Update)
    requires Agrees(s) && e < |s.entities| && s.entities[e].onRq
    ensures var x := s.entities[e];
            Dequeued(s, e, sleep, u).entities[e]
            == x.(onRq := false, avg := Recompute(x.task, x.avg, u).(decay := if sleep then s.queues[x.queue].counter else 0))
  {
  }

  /** A tick that computes new averages gives the entity its new contribution and, if
      it is a task, its new ratio; a tick within a period changes nothing at all. */
  lemma TickSets(s: State, e: nat, u: Update)
    requires Sized(s) && e < |s.entities|
    ensures var x, y := s.entities[e], UpdateLoad(s, e, u).entities[e];
            && y == x.(avg := y.avg) && y.avg.decay == x.avg.decay
            && y.avg.contrib == (if u.Fresh? then u.contrib else x.avg.contrib)
            && y.avg.ratio == (if u.Fresh? && x.task then LoadAvg.LoadShare(u.now, 1024) else x.avg.ratio)
    ensures u.Unchanged? ==> UpdateLoad(s, e, u) == s
  {
    var x := s.entities[e];
    if u.Unchanged? {
      var q := s.queues[x.queue];
      assert s.entities[e := x] == s.entities && s.queues[x.queue := q] == s.queues;
      assert s.ratios[q.cpu := s.ratios[q.cpu]] == s.ratios;
    }
  }

  /** What an entity is taken in with. One that was not asleep comes as it is. A sleeper
      comes with the contribution decayed for the periods it slept, unless new averages
      are computed for it: after a migration always, on its own queue at a wake-up. */
  lemma ArrivesWith(s: State, e: nat, wakeup: bool, synced: nat, u: Update)
    requires Sized(s) && e < |s.entities|
    ensures var x, y := s.entities[e], Enqueued(s, e, wakeup, synced, u).entities[e];
            var computed := u.Fresh? && (x.avg.decay < 0 || (x.avg.decay > 0 && wakeup));
            var slept := x.avg.decay > 0 && s.queues[x.queue].counter != x.avg.decay;
            && y.onRq && y.queue == x.queue && y.task == x.task && y.avg.decay == 0
            && y.avg.contrib == (if computed then u.contrib else if slept then synced else x.avg.contrib)
            && y.avg.ratio == (if computed && x.task then LoadAvg.LoadShare(u.now, 1024) else x.avg.ratio)
  {
  }

  /** Passing periods on a queue. */
  function Decayed(s: State, q: nat, d: nat): (t: State)
    requires Sized(s) && q < |s.queues|
    ensures Sized(t)
  {
    s.(queues := s.queues[q := s.queues[q].(counter := s.queues[q].counter + d)])
  }

  /** Sleeping and waking up with no period passed and nothing new to compute undoes
      itself: the entity and all sums are as they were after the update that put it to
      sleep. If periods have passed, it comes back with the contribution decayed for
      them. */
  lemma SleepAndWake(s: State, e: nat, wakeup: bool, synced: nat, u: Update, d: nat)
    requires Agrees(s) && e < |s.entities| && s.entities[e].onRq && s.queues[s.entities[e].queue].counter > 0
    ensures var q, v := s.entities[e].queue, UpdateLoad(s, e, u);
            var t := Enqueued(Decayed(Dequeued(s, e, true, u), q, d), e, wakeup, synced, Unchanged);
            && t.entities[e] == v.entities[e].(avg := t.entities[e].avg)
            && t.entities[e].avg == v.entities[e].avg.(contrib := if d == 0 then v.entities[e].avg.contrib else synced)
            && t.queues[q].runnable == v.queues[q].runnable - v.entities[e].avg.contrib + t.entities[e].avg.contrib
            && t.ratios == v.ratios
  {
    LeavesWith(s, e, true, u);
  }

  /** A sleeper that migrates after d periods carries them along, negated, and its
      contribution decayed for them; an entity that is not asleep carries nothing. */
  lemma MigratesWith(s: State, e: nat, to: nat, synced: nat)
    requires Sized(s) && e < |s.entities| && to < |s.queues|
    ensures var x, y := s.entities[e], Moved(s, e, to, synced).entities[e];
            var d := s.queues[x.queue].counter - x.avg.decay;
            && y.queue == to && y.task == x.task && y.onRq == x.onRq && y.avg.ratio == x.avg.ratio
            && y.avg.decay == (if x.avg.decay == 0 then 0 else -d)
            && y.avg.contrib == (if x.avg.decay != 0 && d != 0 then synced else x.avg.contrib)
  {
  }

  // --------------------------------------------------------------- whole runs

  /** Throttling dequeues a group entity like any other; what is queued below it
      stays on its queue. */
  datatype Op =
    | Tick(e: nat, u: Update)
    | Enqueue(e: nat, wakeup: bool, synced: nat, u: Update)
    | Dequeue(e: nat, sleep: bool, u: Update)
    | Migrate(e: nat, to: nat, synced: nat)
    | Decay(q: nat, decays: nat)

  predicate Enabled(s: State, op: Op) {
    match op
    case Tick(e, _) => e < |s.entities|
    case Enqueue(e, _, _, _) => e < |s.entities| && !s.entities[e].onRq
    case Dequeue(e, _, _) => e < |s.entities| && s.entities[e].onRq
    case Migrate(e, to, _) => e < |s.entities| && to < |s.queues| && !s.entities[e].onRq
    case Decay(q, _) => q < |s.queues|
  }

  function Apply(s: State, op: Op): State
    requires Sized(s) && Enabled(s, op)
  {
    match op
    case Tick(e, u) => UpdateLoad(s, e, u)
    case Enqueue(e, wakeup, synced, u) => Enqueued(s, e, wakeup, synced, u)
    case Dequeue(e, sleep, u) => Dequeued(s, e, sleep, u)
    case Migrate(e, to, synced) => Moved(s, e, to, synced)
    case Decay(q, decays) => Decayed(s, q, decays)
  }

  lemma StepSized(s: State, op: Op)
    requires Sized(s) && Enabled(s, op)
    ensures Sized(Apply(s, op))
  {
  }

  ghost predicate IsRun(s: State, ops: seq<Op>, t: State)
    requires Sized(s)
    decreases |ops|
  {
    if ops == [] then t == s
    else Enabled(s, ops[0]) && (StepSized(s, ops[0]); IsRun(Apply(s, ops[0]), ops[1..], t))
  }

  lemma StepAgrees(s: State, op: Op)
    requires Agrees(s) && Enabled(s, op)
    ensures Agrees(Apply(s, op))
  {
    match op
    case Tick(e, u) => UpdateAgrees(s, e, u);
    case Enqueue(e, wakeup, synced, u) => EnqueueAgrees(s, e, wakeup, synced, u);
    case Dequeue(e, sleep, u) => DequeueAgrees(s, e, sleep, u);
    case Migrate(e, to, synced) => MoveAgrees(s, e, to, synced);
    case Decay(q, decays) =>
      var t := Apply(s, op);
      forall c: nat | c < |t.ratios| ensures t.ratios[c] == RatioSum(t.entities, t.queues, c) {
        RatioSumSame(t.entities, s.queues, t.queues, c);
      }
  }

  /** In every reachable state runnable_load_avg is the sum of the contributions
      of the entities on the queue, and load_avg_ratio of a CPU the sum of the
      ratios of all tasks queued there, throttled or not. */
  lemma {:induction false} EveryRunAgrees(s: State, ops: seq<Op>, t: State)
    requires Agrees(s) && IsRun(s, ops, t)
    ensures Agrees(t)
    decreases |ops|
  {
    if ops != [] {
      StepAgrees(s, ops[0]);
      EveryRunAgrees(Apply(s, ops[0]), ops[1..], t);
    }
  }

  function TasksOn(es: seq<Entity>, queues: seq<Queue>, c: nat): nat {
    if es == [] then 0 else (if OnCpu(queues, es[0], c) && es[0].task then 1 else 0) + TasksOn(es[1..], queues, c)
  }

  /** Every ratio is a share of 1024, less than the whole. */
  predicate RatiosWithin(es: seq<Entity>) {
    forall e :: 0 <= e < |es| ==> es[e].avg.ratio <= 1023
  }

  lemma {:induction false} RatioSumAtMost(es: seq<Entity>, queues: seq<Queue>, c: nat)
    requires RatiosWithin(es)
    ensures 0 <= RatioSum(es, queues, c) <= 1023 * TasksOn(es, queues, c)
  {
    if es != [] {
      RatioSumAtMost(es[1..], queues, c);
    }
  }

  /** The update has come out of averages that keep their bound, as all do that
      LoadAvg.EveryRunBounded is about. */
  predicate Computed(u: Update) {
    u.Fresh? ==> LoadAvg.Bounded(u.now)
  }

  predicate AllComputed(op: Op) {
    match op
    case Tick(_, u) => Computed(u)
    case Enqueue(_, _, _, u) => Computed(u)
    case Dequeue(_, _, u) => Computed(u)
    case _ => true
  }

  lemma RecomputeWithin(task: bool, a: Avg, u: Update)
    requires a.ratio <= 1023 && Computed(u)
    ensures Recompute(task, a, u).ratio <= 1023
  {
    if u.Fresh? {
      LoadAvg.RatioBounded(u.now);
    }
  }

  lemma StepWithin(s: State, op: Op)
    requires Sized(s) && Enabled(s, op) && RatiosWithin(s.entities) && AllComputed(op)
    ensures RatiosWithin(Apply(s, op).entities)
  {
    match op
    case Tick(e, u) => RecomputeWithin(s.entities[e].task, s.entities[e].avg, u);
    case Enqueue(e, _, synced, u) =>
      var x := s.entities[e];
      RecomputeWithin(x.task, x.avg, u);
      RecomputeWithin(x.task, x.avg.(contrib := x.avg.contrib, decay := 0), u);
      RecomputeWithin(x.task, x.avg.(contrib := synced, decay := 0), u);
    case Dequeue(e, _, u) => RecomputeWithin(s.entities[e].task, s.entities[e].avg, u);
    case _ =>
  }

  lemma {:induction false} RunWithin(s: State, ops: seq<Op>, t: State)
    requires Sized(s) && IsRun(s, ops, t) && RatiosWithin(s.entities)
    requires forall i :: 0 <= i < |ops| ==> AllComputed(ops[i])
    ensures RatiosWithin(t.entities)
    decreases |ops|
  {
    if ops != [] {
      StepSized(s, ops[0]);
      StepWithin(s, ops[0]);
      RunWithin(Apply(s, ops[0]), ops[1..], t);
    }
  }

  /** In every reachable state a CPU's load_avg_ratio is at most 1023 for each task
      queued there. */
  lemma RatioAtMost(s: State, ops: seq<Op>, t: State, c: nat)
    requires Agrees(s) && IsRun(s, ops, t) && RatiosWithin(s.entities) && c < |t.ratios|
    requires forall i :: 0 <= i < |ops| ==> AllComputed(ops[i])
    ensures 0 <= t.ratios[c] <= 1023 * TasksOn(t.entities, t.queues, c)
  {
    EveryRunAgrees(s, ops, t);
    RunWithin(s, ops, t);
    RatioSumAtMost(t.entities, t.queues, c);
  }

  // ----------------------------------------------------------------- the loads

  class Loads {
    var entities: seq<Entity>
    var queues: seq<Queue>
    var ratios: seq<int>

    ghost function Now(): State
      reads this
    {
      State(entities, queues, ratios)
    }

    /** Adds to runnable_load_avg of a queue and to load_avg_ratio of its CPU. */
    method AddTo(q: nat, contrib: int, ratio: int)
      requires Sized(Now()) && q < |queues|
      modifies this`queues, this`ratios
      ensures queues == old(queues[q := queues[q].(runnable := queues[q].runnable + contrib)])
      ensures ratios == old(ratios[queues[q].cpu := ratios[queues[q].cpu] + ratio])
    {
      var c := queues[q].cpu;
      queues := queues[q := queues[q].(runnable := queues[q].runnable + contrib)];
      ratios := ratios[c := ratios[c] + ratio];
    }

    /** update_entity_load_avg(se, 1) */
    method UpdateEntityLoadAvg(e: nat, u: Update)
      requires Agrees(Now()) && e < |entities|
      modifies this
      ensures Agrees(Now()) && Now() == UpdateLoad(old(Now()), e, u)
    {
      UpdateAgrees(Now(), e, u);
      var x := entities[e];
      if u.Unchanged? {
        assert entities[e := x] == entities && queues[x.queue := queues[x.queue]] == queues;
        assert ratios[queues[x.queue].cpu := ratios[queues[x.queue].cpu]] == ratios;
        return;
      }
      var a := x.avg.(contrib := u.contrib, ratio := if x.task then LoadAvg.LoadShare(u.now, 1024) else x.avg.ratio);
      var contribDelta, ratioDelta := a.contrib - x.avg.contrib, a.ratio - x.avg.ratio;
      entities := entities[e := x.(avg := a)];
      AddTo(x.queue, if x.onRq then contribDelta else 0, if x.onRq then ratioDelta else 0);
    }

    /** enqueue_entity_load_avg and on_rq = 1 */
    method EnqueueEntityLoadAvg(e: nat, wakeup: bool, synced: nat, u: Update)
      requires Agrees(Now()) && e < |entities| && !entities[e].onRq
      modifies this
      ensures Agrees(Now()) && Now() == Enqueued(old(Now()), e, wakeup, synced, u)
    {
      EnqueueAgrees(Now(), e, wakeup, synced, u);
      var x := entities[e];
      var a, wakes := x.avg, wakeup;
      if a.decay <= 0 {
        if a.decay != 0 { a := Recompute(x.task, a, u).(decay := 0); }
        wakes := false;
      } else {
        if queues[x.queue].counter != a.decay { a := a.(contrib := synced); }
        a := a.(decay := 0);
      }
      if wakes { a := Recompute(x.task, a, u); }
      entities := entities[e := x.(avg := a, onRq := true)];
      AddTo(x.queue, a.contrib, a.ratio);
    }

    /** dequeue_entity_load_avg and on_rq = 0 */
    method DequeueEntityLoadAvg(e: nat, sleep: bool, u: Update)
      requires Agrees(Now()) && e < |entities| && entities[e].onRq
      modifies this
      ensures Agrees(Now()) && Now() == Dequeued(old(Now()), e, sleep, u)
    {
      DequeueAgrees(Now(), e, sleep, u);
      UpdateEntityLoadAvg(e, u);
      var x := entities[e];
      var decay := if sleep then queues[x.queue].counter else x.avg.decay;
      entities := entities[e := x.(avg := x.avg.(decay := decay), onRq := false)];
      AddTo(x.queue, 0 - x.avg.contrib, 0 - x.avg.ratio);
    }
  }
}
