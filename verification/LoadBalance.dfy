// Pulling tasks: can_migrate_task, move_tasks and the retry loops of
// load_balance (backup/fair_mp.c, 4932-5189 and 6125-6262).
//
// Between two passes the run-queue locks are dropped, so what the busiest queue
// holds is given anew for every pass, and what find_busiest_group and
// find_busiest_queue find is given anew for every `redo`.

module LoadBalance {
  import opened Common

  /** What the balancer sees of a task: its load (task_h_load), the CPUs it may
      run on, whether its group is throttled on either side, whether it runs or
      is cache hot, and whether it is too light to bother (LB_MIN). */
  datatype Task = Task(load: nat, allowed: set<nat>, throttled: bool, stuck: bool, light: bool)

  const BREAK: nat := 32          // sched_nr_migrate_break

  /** The part of struct lb_env that a pass does not change. `group` is
      dst_grpmask, empty where the kernel has NULL; `stopAtFirst` is
      CPU_NEWLY_IDLE under CONFIG_PREEMPT. */
  datatype Target = Target(dst: nat, group: set<nat>, cpus: set<nat>, loopMax: nat, stopAtFirst: bool)

  datatype Flags = Flags(allPinned: bool, needBreak: bool, somePinned: bool, newDst: nat)

  /** struct lb_env, the list it pulls from, and what the pass has moved. */
  datatype Lb = Lb(to: Target, flags: Flags, imbalance: int, loop: nat, loopBreak: nat,
                   source: seq<Task>, moved: seq<Task>)

  /** The first CPU of a mask. */
  function Lowest(s: set<nat>): (m: nat)
    requires s != {}
    ensures m in s && forall x :: x in s ==> m <= x
  {
    var x :| x in s;
    LowestExists(s, x);
    var m :| m in s && forall x :: x in s ==> m <= x;
    m
  }

  lemma {:induction false} LowestExists(s: set<nat>, x: nat)
    requires x in s
    ensures exists m :: m in s && forall x :: x in s ==> m <= x
  {
    if y :| y in s && y < x {
      LowestExists(s, y);
    }
  }

  // ------------------------------------------------------------------- one pass

  /** can_migrate_task: the flags it leaves. */
  function Checked(to: Target, f: Flags, p: Task): Flags {
    if p.throttled then f
    else if to.dst !in p.allowed then
      var others := to.group * to.cpus * p.allowed;
      if f.somePinned || others == {} then f else f.(somePinned := true, newDst := Lowest(others))
    else f.(allPinned := false)
  }

  /** can_migrate_task: may the task move? */
  predicate MayMove(to: Target, p: Task) {
    !p.throttled && to.dst in p.allowed && !p.stuck
  }

  /** Is the first task pulled? */
  predicate Takes(e: Lb)
    requires e.source != []
  {
    var p := e.source[0];
    MayMove(e.to, p) && !p.light && p.load / 2 <= e.imbalance
  }

  /** The first task is moved, or goes to the end of the list. */
  function Considered(e: Lb): Lb
    requires e.source != []
  {
    var p := e.source[0];
    var flags := Checked(e.to, e.flags, p);
    if Takes(e) then Lb(e.to, flags, e.imbalance - p.load, e.loop + 1, e.loopBreak, e.source[1..], e.moved + [p])
    else Lb(e.to, flags, e.imbalance, e.loop + 1, e.loopBreak, e.source[1..] + [p], e.moved)
  }

  /** Does the loop get as far as looking at the first task? */
  predicate Goes(e: Lb) {
    e.source != [] && e.loop < e.to.loopMax && e.loop < e.loopBreak
  }

  /** Leaving the loop before that. */
  function Halted(e: Lb): Lb {
    if e.source == [] then e
    else if e.loop >= e.to.loopMax then e.(loop := e.loop + 1)
    else e.(loop := e.loop + 1, loopBreak := e.loopBreak + BREAK, flags := e.flags.(needBreak := true))
  }

  /** The loop of move_tasks. */
  function Sweep(e: Lb): Lb
    decreases e.to.loopMax - e.loop
  {
    if !Goes(e) then Halted(e) else
    var f := Considered(e);
    if Takes(e) && (e.to.stopAtFirst || f.imbalance <= 0) then f else Sweep(f)
  }

  /** move_tasks */
  function MovePass(e: Lb): Lb {
    var e0 := e.(moved := []);
    if e.imbalance <= 0 then e0 else Sweep(e0)
  }

  function Load(ts: seq<Task>): nat {
    if ts == [] then 0 else ts[0].load + Load(ts[1..])
  }

  lemma {:induction false} LoadAppend(ts: seq<Task>, t: Task)
    ensures Load(ts + [t]) == Load(ts) + t.load
  {
    if ts == [] {
      assert ts + [t] == [t];
    } else {
      assert (ts + [t])[1..] == ts[1..] + [t];
      LoadAppend(ts[1..], t);
    }
  }

  predicate AllMayMove(to: Target, ts: seq<Task>) {
    forall i :: 0 <= i < |ts| ==> MayMove(to, ts[i])
  }

  lemma SplitFirst(s: seq<Task>, m: seq<Task>)
    requires s != []
    ensures multiset(s[1..]) + multiset(m + [s[0]]) == multiset(s) + multiset(m)
    ensures multiset(s[1..] + [s[0]]) == multiset(s)
  {
    assert s == [s[0]] + s[1..];
  }

  /** The tasks are the tasks there were, those moved may run where they went,
      and the imbalance is charged what was moved. */
  predicate Kept(e: Lb, f: Lb) {
    && multiset(f.source) + multiset(f.moved) == multiset(e.source) + multiset(e.moved)
    && f.imbalance + Load(f.moved) == e.imbalance + Load(e.moved)
    && (AllMayMove(e.to, e.moved) ==> AllMayMove(e.to, f.moved))
    && f.to == e.to
  }

  lemma ConsideredKeeps(e: Lb)
    requires e.source != []
    ensures Kept(e, Considered(e))
  {
    SplitFirst(e.source, e.moved);
    LoadAppend(e.moved, e.source[0]);
  }

  lemma {:induction false} SweepKeeps(e: Lb)
    ensures Kept(e, Sweep(e))
    decreases e.to.loopMax - e.loop
  {
    if Goes(e) {
      ConsideredKeeps(e);
      SweepKeeps(Considered(e));
    }
  }

  /** The last task pulled may overshoot, by no more than what was still missing
      plus one: the imbalance does not fall below its negative, less one. */
  lemma {:induction false} SweepOvershoot(e: Lb, bound: int)
    requires 0 < e.imbalance <= bound
    ensures -bound - 1 <= Sweep(e).imbalance <= bound
    decreases e.to.loopMax - e.loop
  {
    if Goes(e) && Considered(e).imbalance > 0 {
      SweepOvershoot(Considered(e), bound);
    }
  }

  /** How far a pass gets and what the flags it leaves mean. */
  predicate Effect(e: Lb, f: Lb) {
    && e.loop <= f.loop
    && (f.flags.needBreak ==> e.flags.needBreak || e.loop < f.loop <= e.to.loopMax)
    && (f.flags.allPinned ==> e.flags.allPinned && f.moved == e.moved && f.imbalance == e.imbalance)
    && (f.flags.somePinned ==> e.flags.somePinned || f.flags.newDst in e.to.group * e.to.cpus)
    && (e.flags.somePinned ==> f.flags.somePinned && f.flags.newDst == e.flags.newDst)
  }

  lemma {:induction false} SweepEffect(e: Lb)
    ensures Effect(e, Sweep(e))
    decreases e.to.loopMax - e.loop
  {
    if Goes(e) { SweepEffect(Considered(e)); }
  }

  /** One call of move_tasks, all together. */
  lemma PassOutcome(e: Lb)
    ensures var f := MovePass(e);
            && Effect(e.(moved := []), f) && f.to == e.to
            && multiset(f.source) + multiset(f.moved) == multiset(e.source)
            && AllMayMove(e.to, f.moved)
            && f.imbalance == e.imbalance - Load(f.moved)
            && (e.imbalance <= 0 ==> f.moved == [])
            && (e.imbalance > 0 ==> -e.imbalance - 1 <= f.imbalance && Load(f.moved) <= 2 * e.imbalance + 1)
  {
    var e0 := e.(moved := []);
    SweepKeeps(e0);
    SweepEffect(e0);
    if e.imbalance > 0 { SweepOvershoot(e0, e.imbalance); }
  }

  /** move_tasks has no use for the task: its group is throttled, it may not run on the
      destination, it is running or cache hot, it is too light to bother, or more than
      half of its load is beyond the imbalance. */
  predicate Refused(to: Target, p: Task, imbalance: int) {
    p.throttled || to.dst !in p.allowed || p.stuck || p.light || p.load / 2 > imbalance
  }

  predicate NoneRefused(to: Target, ts: seq<Task>, imbalance: int) {
    forall i :: 0 <= i < |ts| ==> !Refused(to, ts[i], imbalance)
  }

  /** The task could run on the destination; or only on another CPU of the group. */
  predicate FitsHere(to: Target, p: Task) {
    !p.throttled && to.dst in p.allowed
  }

  predicate FitsElsewhere(to: Target, p: Task) {
    !p.throttled && to.dst !in p.allowed && to.group * to.cpus * p.allowed != {}
  }

  /** The task has been looked at and left, and the flags know about it. */
  predicate Settled(e: Lb, p: Task) {
    && Refused(e.to, p, e.imbalance)
    && (e.flags.allPinned ==> !FitsHere(e.to, p))
    && (!e.flags.somePinned ==> !FitsElsewhere(e.to, p))
  }

  predicate AllSettled(e: Lb, ts: seq<Task>) {
    forall i :: 0 <= i < |ts| ==> Settled(e, ts[i])
  }

  lemma {:induction false} SweepMovesWorthy(e: Lb, bound: int)
    requires e.imbalance <= bound && NoneRefused(e.to, e.moved, bound)
    ensures NoneRefused(e.to, Sweep(e).moved, bound)
    decreases e.to.loopMax - e.loop
  {
    if Goes(e) { SweepMovesWorthy(Considered(e), bound); }
  }

  /** The last k tasks of the list have been looked at; the loop has time for the
      others. */
  predicate LookedAt(e: Lb, k: nat) {
    && k <= |e.source| <= k + e.to.loopMax - e.loop
    && AllSettled(e, e.source[|e.source| - k..])
  }

  /** Who is settled stays settled, and whoever is passed over is settled. */
  lemma ConsideredSettles(e: Lb, p: Task)
    requires e.source != []
    ensures Settled(e, p) ==> Settled(Considered(e), p)
    ensures !Takes(e) ==> Settled(Considered(e), e.source[0])
    ensures Settled(e, e.source[0]) ==> !Takes(e)
  {
  }

  lemma AllStaySettled(e: Lb, ts: seq<Task>)
    requires e.source != [] && AllSettled(e, ts)
    ensures AllSettled(Considered(e), ts)
    ensures !Takes(e) ==> AllSettled(Considered(e), ts + [e.source[0]])
  {
    forall i | 0 <= i < |ts| ensures Settled(Considered(e), ts[i]) { ConsideredSettles(e, ts[i]); }
    ConsideredSettles(e, e.source[0]);
  }

  lemma Slices(ts: seq<Task>, k: nat)
    requires k <= |ts| && ts != []
    ensures k == |ts| ==> ts[|ts| - k..] == ts
    ensures k < |ts| ==> ts[1..][|ts| - 1 - k..] == ts[|ts| - k..]
    ensures k < |ts| ==> (ts[1..] + [ts[0]])[|ts| - (k + 1)..] == ts[|ts| - k..] + [ts[0]]
  {
  }

  lemma ConsideredLooksAt(e: Lb, k: nat)
    requires Goes(e) && LookedAt(e, k)
    ensures LookedAt(Considered(e), if Takes(e) || k == |e.source| then k else k + 1)
  {
    var ts := e.source;
    Slices(ts, k);
    AllStaySettled(e, ts[|ts| - k..]);
    ConsideredSettles(e, ts[0]);
    if k == |ts| {
      var r := ts[1..] + [ts[0]];
      assert Considered(e).source == r && r[0..] == r;
      forall i | 0 <= i < |r| ensures Settled(Considered(e), r[i]) {
        assert r[i] == ts[if i < |ts| - 1 then i + 1 else 0];
      }
    }
  }

  lemma {:induction false} SweepThorough(e: Lb, k: nat)
    requires e.imbalance > 0 && LookedAt(e, k)
    ensures var f := Sweep(e);
            f.flags.needBreak || f.imbalance <= 0 || (e.to.stopAtFirst && |f.moved| > |e.moved|)
            || AllSettled(f, f.source)
    decreases e.to.loopMax - e.loop
  {
    if !Goes(e) {
      if e.source != [] { Slices(e.source, k); }
    } else {
      ConsideredLooksAt(e, k);
      var f := Considered(e);
      if !(Takes(e) && (e.to.stopAtFirst || f.imbalance <= 0)) {
        SweepThorough(f, if Takes(e) || k == |e.source| then k else k + 1);
        SweepAdds(f);
      }
    }
  }

  /** Tasks that have been moved stay moved. */
  lemma {:induction false} SweepAdds(e: Lb)
    ensures |e.moved| <= |Sweep(e).moved|
    ensures e.to.stopAtFirst ==> |Sweep(e).moved| <= |e.moved| + 1
    decreases e.to.loopMax - e.loop
  {
    if Goes(e) { SweepAdds(Considered(e)); }
  }

  /** A pass looks at the list up to the next break and no further than loop_max; it
      takes a break exactly if the break comes first and tasks are left, and the next
      break is 32 tasks further on. */
  predicate Pauses(e: Lb, f: Lb) {
    && f.loop <= e.loopBreak + 1 && f.loop <= e.to.loopMax + 1
    && (if f.flags.needBreak
        then f.loop == e.loopBreak + 1 && f.loopBreak == e.loopBreak + BREAK && e.loopBreak < e.to.loopMax && f.source != []
        else f.loopBreak == e.loopBreak)
    && (f.loop == e.loopBreak + 1 && e.loopBreak < e.to.loopMax ==> f.flags.needBreak)
  }

  lemma {:induction false} SweepPauses(e: Lb)
    requires !e.flags.needBreak && e.loop <= e.loopBreak && e.loop <= e.to.loopMax
    ensures Pauses(e, Sweep(e))
    decreases e.to.loopMax - e.loop
  {
    if Goes(e) { SweepPauses(Considered(e)); }
  }

  /** A flag that changes has a reason on the list. */
  predicate Reasons(e: Lb, f: Lb) {
    && (e.flags.allPinned && !f.flags.allPinned ==> exists p :: p in e.source && FitsHere(e.to, p))
    && (!e.flags.somePinned && f.flags.somePinned ==>
          exists p :: p in e.source && p in f.source && FitsElsewhere(e.to, p)
                      && f.flags.newDst == Lowest(e.to.group * e.to.cpus * p.allowed))
  }

  /** Who may not move to the destination is on the list to the end. */
  lemma {:induction false} SweepLeaves(e: Lb, p: Task)
    requires p in e.source && !MayMove(e.to, p)
    ensures p in Sweep(e).source
    decreases e.to.loopMax - e.loop
  {
    if Goes(e) {
      assert e.source == [e.source[0]] + e.source[1..];
      SweepLeaves(Considered(e), p);
    }
  }

  lemma {:induction false} SweepReasons(e: Lb)
    ensures Reasons(e, Sweep(e))
    decreases e.to.loopMax - e.loop
  {
    if Goes(e) {
      var p, c, f := e.source[0], Considered(e), Sweep(e);
      assert e.source == [p] + e.source[1..];
      SweepReasons(c);
      SweepEffect(c);
      assert forall q :: q in c.source ==> q in e.source;
      if e.flags.allPinned && !c.flags.allPinned {
        assert p in e.source && FitsHere(e.to, p);
      }
      if !e.flags.somePinned && c.flags.somePinned {
        assert FitsElsewhere(e.to, p) && p in c.source;
        SweepLeaves(e, p);
      }
    }
  }

  /** The other half of a pass. It moves only what is worth moving, one task if it is
      to stop at the first. A pass with time for the whole list that ends short of the
      imbalance, without a break and without having stopped at the first task, leaves
      nothing behind that it had a use for; then LBF_ALL_PINNED means that nothing left
      could run on the destination, and no LBF_SOME_PINNED that nothing left could run
      on another CPU of the group instead. A flag changes only for a reason, and breaks
      come every 32 tasks. */
  lemma PassThorough(e: Lb)
    ensures var f := MovePass(e);
            && NoneRefused(e.to, f.moved, e.imbalance)
            && (e.to.stopAtFirst ==> |f.moved| <= 1)
            && (&& |e.source| <= e.to.loopMax - e.loop && 0 < f.imbalance && !f.flags.needBreak
                && (e.to.stopAtFirst ==> f.moved == [])
                ==> AllSettled(f, f.source))
            && Reasons(e, f)
            && (!e.flags.needBreak && e.loop <= e.loopBreak && e.loop <= e.to.loopMax ==> Pauses(e, f))
  {
    var e0 := e.(moved := []);
    SweepMovesWorthy(e0, e.imbalance);
    SweepAdds(e0);
    SweepReasons(e0);
    if !e.flags.needBreak && e.loop <= e.loopBreak && e.loop <= e.to.loopMax { SweepPauses(e0); }
    if e.imbalance > 0 && |e.source| <= e.to.loopMax - e.loop { SweepThorough(e0, 0); }
  }

  // ------------------------------------------------------------- the retry loops

  /** The busiest queue that was found: its CPU, how many tasks it runs, and the
      imbalance that was computed. */
  datatype Found = Found(cpu: nat, nrRunning: nat, imbalance: int)

  /** Everything load_balance cannot foresee: what the search finds on its n-th
      call, and the list of the busiest queue when the n-th pass takes the locks. */
  datatype World = World(busiest: (nat, set<nat>) -> Option<Found>, queue: nat -> seq<Task>)

  /** find_busiest_queue only looks at CPUs in the mask, and never at the group
      that is doing the pulling. */
  function Search(w: World, n: nat, cpus: set<nat>, group: set<nat>): (r: Option<Found>)
    ensures r.Some? ==> r.value.cpu in cpus && r.value.cpu !in group
  {
    match w.busiest(n, cpus)
    case None => None
    case Some(f) => if f.cpu in cpus && f.cpu !in group then Some(f) else None
  }

  /** How many tasks a source ran, the imbalance it started with and the load pulled
      from it. */
  datatype Round = Round(running: nat, imbalance: int, load: nat)

  /** A lone task is left alone, and pulling stops close to the imbalance. */
  predicate Restrained(r: Round) {
    r.running > 1 && r.load <= if r.imbalance > 0 then 2 * r.imbalance + 1 else 0
  }

  lemma CardMinus(s: set<nat>, x: nat)
    requires x in s
    ensures |s - {x}| == |s| - 1
  {
  }

  /** The passes that n destinations can take, m + 1 each. */
  function Budget(n: nat, m: nat): nat {
    if n == 0 then 0 else Budget(n - 1, m) + m + 1
  }

  lemma {:induction false} BudgetIsProduct(n: nat, m: nat)
    ensures Budget(n, m) == n * (m + 1)
  {
    if n > 0 { BudgetIsProduct(n - 1, m); assert n * (m + 1) == (n - 1) * (m + 1) + (m + 1); }
  }

  lemma {:induction false} BudgetAdds(a: nat, b: nat, m: nat, most: nat)
    requires m <= most
    ensures Budget(a, most) + Budget(b, m) <= Budget(a + b, most)
  {
    if b > 0 { BudgetAdds(a, b - 1, m, most); }
  }

  /** What all passes against one source leave, pull and cost. */
  datatype Pull = Pull(e: Lb, pulled: nat, passes: nat, load: nat)

  predicate Ready(e: Lb) {
    !e.flags.needBreak && (e.flags.somePinned ==> e.flags.newDst in e.to.group * e.to.cpus)
  }

  /** One more pass, with what is on the queue now. */
  function Again(w: World, e: Lb, n: nat): Lb {
    MovePass(e.(source := w.queue(n)))
  }

  function Resumed(f: Lb): Lb {
    f.(flags := f.flags.(needBreak := false))
  }

  /** Going on with another CPU of the group, which leaves the mask. */
  function Redirected(f: Lb): Lb {
    var to := f.to.(dst := f.flags.newDst, cpus := f.to.cpus - {f.flags.newDst});
    f.(to := to, flags := f.flags.(somePinned := false), loop := 0, loopBreak := BREAK)
  }

  /** Is there another pass against the same source? */
  predicate GoesOn(f: Lb) {
    f.flags.needBreak || (f.flags.somePinned && f.imbalance > 0)
  }

  function After(f: Lb): Lb {
    if f.flags.needBreak then Resumed(f) else Redirected(f)
  }

  function WithMore(p: Pull, pulled: nat, load: nat): Pull {
    p.(pulled := pulled + p.pulled, load := load + p.load)
  }

  /** Either the loop of move_tasks has got further, or a CPU of the pulling group
      has left the mask. */
  predicate Nearer(e: Lb, g: Lb) {
    && g.to.group == e.to.group && g.to.loopMax == e.to.loopMax
    && (|| (g.to.cpus == e.to.cpus && e.loop < g.loop <= e.to.loopMax)
        || (g.loop == 0 && exists c :: c in e.to.group * e.to.cpus && g.to.cpus == e.to.cpus - {c}))
  }

  /** One turn back to the label more_balance. */
  lemma TurnOutcome(w: World, e: Lb, n: nat)
    requires Ready(e)
    ensures var f := Again(w, e, n);
            && f.imbalance == e.imbalance - Load(f.moved) && f.to == e.to && e.loop <= f.loop
            && Load(f.moved) <= (if e.imbalance > 0 then 2 * e.imbalance + 1 else 0)
            && (f.flags.allPinned ==> e.flags.allPinned && f.moved == [])
            && (f.flags.somePinned ==> f.flags.newDst in e.to.group * e.to.cpus)
            && (e.flags.somePinned ==> f.flags.somePinned)
            && (GoesOn(f) ==> Ready(After(f)) && Nearer(e, After(f)))
  {
    PassOutcome(e.(source := w.queue(n)));
  }

  /** Going on with another destination makes sense: it was not tried before and will
      not be again, and a task that is still on the list may run there. */
  lemma RedirectHelps(w: World, e: Lb, n: nat)
    requires Ready(e) && !e.flags.somePinned
    ensures var f := Again(w, e, n);
            GoesOn(f) && !f.flags.needBreak ==>
            var g := After(f);
            && g.imbalance == f.imbalance > 0 && g.loop == 0 && g.loopBreak == BREAK && !g.flags.somePinned
            && g.to.dst in e.to.group * e.to.cpus && g.to.dst !in g.to.cpus
            && exists p :: p in f.source && FitsHere(g.to, p)
  {
    var e0 := e.(source := w.queue(n));
    TurnOutcome(w, e, n);
    PassThorough(e0);
    var f := Again(w, e, n);
    if GoesOn(f) && !f.flags.needBreak {
      var p :| p in e0.source && p in f.source && FitsElsewhere(e0.to, p)
               && f.flags.newDst == Lowest(e0.to.group * e0.to.cpus * p.allowed);
      assert FitsHere(After(f).to, p);
    }
  }

  lemma NearerCpus(e: Lb, g: Lb)
    requires Nearer(e, g)
    ensures g.to.cpus <= e.to.cpus && forall c :: c in e.to.cpus && c !in e.to.group ==> c in g.to.cpus
    ensures if g.to.cpus == e.to.cpus then |g.to.cpus| == |e.to.cpus| && e.loop < g.loop <= e.to.loopMax
            else g.loop == 0 && |g.to.cpus| == |e.to.cpus| - 1
  {
    if g.to.cpus != e.to.cpus {
      var c :| c in e.to.group * e.to.cpus && g.to.cpus == e.to.cpus - {c};
      CardMinus(e.to.cpus, c);
    }
  }

  /** From the label more_balance to the end of the passes against one source.
      Each way back to the label makes the pair (CPUs in the mask, loop_max -
      loop) smaller. */
  function PullFrom(w: World, e: Lb, n: nat): Pull
    requires Ready(e)
    decreases |e.to.cpus|, e.to.loopMax - e.loop
  {
    TurnOutcome(w, e, n);
    var f := Again(w, e, n);
    if GoesOn(f) then
      NearerCpus(e, After(f));
      WithMore(PullFrom(w, After(f), n + 1), |f.moved|, Load(f.moved))
    else Pull(f, |f.moved|, n + 1, Load(f.moved))
  }

  /** Over all passes against one source, from an imbalance I > 0, no more than
      2 * I + 1 is moved, and nothing at all from one that is not positive. */
  lemma {:induction false} PullOvershoot(w: World, e: Lb, n: nat)
    requires Ready(e)
    ensures var p := PullFrom(w, e, n);
            && p.load <= (if e.imbalance > 0 then 2 * e.imbalance + 1 else 0)
            && p.e.imbalance == e.imbalance - p.load
            && (p.e.flags.allPinned ==> e.flags.allPinned && p.pulled == 0 && p.load == 0)
    decreases |e.to.cpus|, e.to.loopMax - e.loop
  {
    TurnOutcome(w, e, n);
    var f := Again(w, e, n);
    if GoesOn(f) {
      NearerCpus(e, After(f));
      PullOvershoot(w, After(f), n + 1);
    }
  }

  /** The mask only loses CPUs of the pulling group; each of them, and the CPU
      one started with, costs at most loop_max + 1 passes. */
  lemma {:induction false} PullCost(w: World, e: Lb, n: nat)
    requires Ready(e) && e.loop <= e.to.loopMax
    ensures var p := PullFrom(w, e, n);
            && p.e.to.cpus <= e.to.cpus && |p.e.to.cpus| <= |e.to.cpus|
            && (forall c :: c in e.to.cpus && c !in e.to.group ==> c in p.e.to.cpus)
            && p.e.to.group == e.to.group && p.e.to.loopMax == e.to.loopMax
            && n < p.passes <= n + Budget(|e.to.cpus| - |p.e.to.cpus| + 1, e.to.loopMax) - e.loop
    decreases |e.to.cpus|, e.to.loopMax - e.loop
  {
    TurnOutcome(w, e, n);
    var f := Again(w, e, n);
    if GoesOn(f) {
      NearerCpus(e, After(f));
      PullCost(w, After(f), n + 1);
    } else {
      assert Budget(1, e.to.loopMax) == Budget(0, e.to.loopMax) + e.to.loopMax + 1;
    }
  }

  /** LBF_SOME_PINNED is never stale when the search starts over. */
  lemma {:induction false} PullFlags(w: World, e: Lb, n: nat)
    requires Ready(e)
    ensures var p := PullFrom(w, e, n);
            Ready(p.e) && (p.e.flags.allPinned && p.e.flags.somePinned ==> e.flags.somePinned && e.imbalance <= 0)
    decreases |e.to.cpus|, e.to.loopMax - e.loop
  {
    TurnOutcome(w, e, n);
    var f := Again(w, e, n);
    if GoesOn(f) {
      NearerCpus(e, After(f));
      PullFlags(w, After(f), n + 1);
    }
  }

  /** Pulling from a source ends only with a pass that took no break, and that reached
      the imbalance or knew of no other destination. */
  lemma {:induction false} PullEnds(w: World, e: Lb, n: nat) returns (last: Lb)
    requires Ready(e)
    ensures var p := PullFrom(w, e, n);
            && p.passes > n && p.e == Again(w, last, p.passes - 1) && Ready(last)
            && !p.e.flags.needBreak && (p.e.flags.somePinned ==> p.e.imbalance <= 0)
    decreases |e.to.cpus|, e.to.loopMax - e.loop
  {
    TurnOutcome(w, e, n);
    var f := Again(w, e, n);
    if GoesOn(f) {
      NearerCpus(e, After(f));
      last := PullEnds(w, After(f), n + 1);
    } else {
      last := e;
    }
  }

  // ------------------------------------------------------------ starting over

  /** What load_balance ends with: the environment, what was pulled from the last
      source, the passes made, and the round of each source. */
  datatype Outcome = Outcome(e: Lb, pulled: nat, passes: nat, rounds: seq<Round>)

  predicate Clean(e: Lb) {
    !e.flags.needBreak && !e.flags.somePinned && e.loop == 0 && e.loopBreak == BREAK
  }

  /** Setting up for a source. */
  function SetUp(e: Lb, found: Found, nrMigrate: nat): Lb {
    e.(imbalance := found.imbalance, flags := e.flags.(allPinned := true),
    to := e.to.(loopMax := if nrMigrate < found.nrRunning then nrMigrate else found.nrRunning))
  }

  /** All pinned: the source leaves the mask. */
  function Dropped(e: Lb, cpu: nat): Lb {
    e.(to := e.to.(cpus := e.to.cpus - {cpu}), loop := 0, loopBreak := BREAK)
  }

  predicate AllRestrained(rounds: seq<Round>) {
    forall i :: 0 <= i < |rounds| ==> Restrained(rounds[i])
  }

  /** One source costs no more than its share, and stays in the mask. */
  lemma SourceOutcome(w: World, e: Lb, found: Found, nrMigrate: nat, n: nat)
    requires Clean(e)
    ensures var p := PullFrom(w, SetUp(e, found, nrMigrate), n);
            && (found.nrRunning > 1 ==> Restrained(Round(found.nrRunning, found.imbalance, p.load)))
            && p.e.to.loopMax <= nrMigrate && p.e.to.loopMax <= found.nrRunning
            && (p.e.to.loopMax == nrMigrate || p.e.to.loopMax == found.nrRunning)
            && !p.e.flags.needBreak && (p.e.flags.allPinned ==> !p.e.flags.somePinned && p.pulled == 0 && p.load == 0)
            && |p.e.to.cpus| <= |e.to.cpus| && p.e.to.group == e.to.group
            && (found.cpu in e.to.cpus && found.cpu !in e.to.group ==> found.cpu in p.e.to.cpus)
            && p.passes <= n + Budget(|e.to.cpus| - |p.e.to.cpus| + 1, nrMigrate)
  {
    var e1 := SetUp(e, found, nrMigrate);
    PullOvershoot(w, e1, n);
    PullCost(w, e1, n);
    PullFlags(w, e1, n);
    BudgetAdds(0, |e.to.cpus| - |PullFrom(w, e1, n).e.to.cpus| + 1, e1.to.loopMax, nrMigrate);
  }

  /** The task could run on the destination or elsewhere in the group. */
  predicate Welcome(dst: nat, group: set<nat>, p: Task) {
    !p.throttled && exists c :: c in p.allowed && (c == dst || c in group)
  }

  /** A pass from number n up to m saw such a task. */
  ghost predicate SawWelcome(w: World, n: nat, m: nat, dst: nat, group: set<nat>) {
    exists k: nat, p: Task :: n <= k < m && p in w.queue(k) && Welcome(dst, group, p)
  }

  lemma SawHere(w: World, e: Lb, n: nat, m: nat)
    requires Ready(e) && e.flags.allPinned && !Again(w, e, n).flags.allPinned && n < m
    ensures SawWelcome(w, n, m, e.to.dst, e.to.group)
  {
    var e0 := e.(source := w.queue(n));
    PassThorough(e0);
    var p :| p in e0.source && FitsHere(e0.to, p);
    assert p in w.queue(n) && Welcome(e.to.dst, e.to.group, p);
  }

  lemma SawLater(w: World, n: nat, m: nat, dst: nat, other: nat, group: set<nat>)
    requires SawWelcome(w, n + 1, m, other, group) && (other == dst || other in group)
    ensures SawWelcome(w, n, m, dst, group)
  {
    var k: nat, p: Task :| n + 1 <= k < m && p in w.queue(k) && Welcome(other, group, p);
    assert Welcome(dst, group, p);
  }

  /** If LBF_ALL_PINNED is cleared while pulling, there was a task that could run here. */
  lemma {:induction false} PullReasons(w: World, e: Lb, n: nat)
    requires Ready(e) && e.flags.allPinned && !PullFrom(w, e, n).e.flags.allPinned
    ensures SawWelcome(w, n, PullFrom(w, e, n).passes, e.to.dst, e.to.group)
    decreases |e.to.cpus|, e.to.loopMax - e.loop
  {
    TurnOutcome(w, e, n);
    var f := Again(w, e, n);
    var last := PullEnds(w, e, n);
    if !f.flags.allPinned {
      SawHere(w, e, n, PullFrom(w, e, n).passes);
    } else {
      NearerCpus(e, After(f));
      PullReasons(w, After(f), n + 1);
      SawLater(w, n, PullFrom(w, e, n).passes, e.to.dst, After(f).to.dst, e.to.group);
    }
  }

  /** Not everything was pinned: a task of this source could run here. */
  lemma SourceReasons(w: World, e: Lb, found: Found, nrMigrate: nat, n: nat)
    requires Clean(e)
    ensures var p := PullFrom(w, SetUp(e, found, nrMigrate), n);
            !p.e.flags.allPinned ==> SawWelcome(w, n, p.passes, e.to.dst, e.to.group)
  {
    var e1 := SetUp(e, found, nrMigrate);
    if !PullFrom(w, e1, n).e.flags.allPinned { PullReasons(w, e1, n); }
  }

  /** From the label redo: search, pull, and start over with a smaller mask as
      long as everything found is pinned. */
  function Rounds(w: World, e: Lb, nrMigrate: nat, n: nat, searches: nat, before: seq<Round>): Outcome
    requires Clean(e)
    decreases |e.to.cpus|
  {
    var found := Search(w, searches, e.to.cpus, e.to.group);
    if found.None? || found.value.nrRunning <= 1 then Outcome(e, 0, n, before)
    else
      SourceOutcome(w, e, found.value, nrMigrate, n);
      var p := PullFrom(w, SetUp(e, found.value, nrMigrate), n);
      var rounds := before + [Round(found.value.nrRunning, found.value.imbalance, p.load)];
      if !p.e.flags.allPinned then Outcome(p.e, p.pulled, p.passes, rounds)
      else
        CardMinus(p.e.to.cpus, found.value.cpu);
        var next := Dropped(p.e, found.value.cpu);
        if next.to.cpus == {} then Outcome(next, p.pulled, p.passes, rounds)
        else Rounds(w, next, nrMigrate, p.passes, searches + 1, rounds)
  }

  /** load_balance terminates on every input: every source is pulled from with
      restraint, and the whole takes a bounded number of passes, one more
      destination than there are CPUs and nr_migrate + 1 passes each. */
  lemma {:induction false} RoundsBounded(w: World, e: Lb, nrMigrate: nat, n: nat, searches: nat, before: seq<Round>)
    requires Clean(e) && AllRestrained(before)
    ensures var o := Rounds(w, e, nrMigrate, n, searches, before);
            && AllRestrained(o.rounds)
            && o.passes <= n + Budget(|e.to.cpus| + 1, nrMigrate)
    decreases |e.to.cpus|
  {
    var found := Search(w, searches, e.to.cpus, e.to.group);
    if found.Some? && found.value.nrRunning > 1 {
      SourceOutcome(w, e, found.value, nrMigrate, n);
      var p := PullFrom(w, SetUp(e, found.value, nrMigrate), n);
      var round := Round(found.value.nrRunning, found.value.imbalance, p.load);
      assert AllRestrained(before + [round]);
      BudgetAdds(|e.to.cpus| - |p.e.to.cpus| + 1, |p.e.to.cpus|, nrMigrate, nrMigrate);
      if p.e.flags.allPinned {
        CardMinus(p.e.to.cpus, found.value.cpu);
        var next := Dropped(p.e, found.value.cpu);
        if next.to.cpus != {} {
          RoundsBounded(w, next, nrMigrate, p.passes, searches + 1, before + [round]);
        }
      }
    }
  }

  /** Nothing to balance: no queue was found, or one with a single task. */
  predicate Hopeless(found: Option<Found>) {
    found.None? || found.value.nrRunning <= 1
  }

  /** load_balance gives up only if something it saw could have run here, if the search
      comes up with nothing to balance, or if no CPU is left to search. */
  lemma {:induction false} RoundsEnd(w: World, e: Lb, nrMigrate: nat, n: nat, searches: nat, before: seq<Round>)
    requires Clean(e)
    ensures var o := Rounds(w, e, nrMigrate, n, searches, before);
            || o.e.to.cpus == {} || !o.e.flags.allPinned
            || exists k: nat :: k >= searches && Hopeless(Search(w, k, o.e.to.cpus, o.e.to.group))
    ensures var o := Rounds(w, e, nrMigrate, n, searches, before);
            |before| <= |o.rounds| && (|o.rounds| == |before| ==> o.pulled == 0 && o.e == e && o.passes == n)
    decreases |e.to.cpus|
  {
    var found := Search(w, searches, e.to.cpus, e.to.group);
    if !Hopeless(found) {
      SourceOutcome(w, e, found.value, nrMigrate, n);
      var p := PullFrom(w, SetUp(e, found.value, nrMigrate), n);
      if p.e.flags.allPinned {
        CardMinus(p.e.to.cpus, found.value.cpu);
        var next := Dropped(p.e, found.value.cpu);
        if next.to.cpus != {} {
          var round := Round(found.value.nrRunning, found.value.imbalance, p.load);
          RoundsEnd(w, next, nrMigrate, p.passes, searches + 1, before + [round]);
        }
      }
    }
  }

  class Balancer {
    const group: set<nat>
    const stopAtFirst: bool
    var dst: nat
    var cpus: set<nat>
    var imbalance: int
    var flags: Flags
    var loop: nat
    var loopBreak: nat
    var loopMax: nat
    var source: seq<Task>
    var moved: seq<Task>

    constructor (thisCpu: nat, group: set<nat>, active: set<nat>, stopAtFirst: bool)
      ensures dst == thisCpu && this.group == group && cpus == active && this.stopAtFirst == stopAtFirst
      ensures flags == Flags(false, false, false, 0) && loop == 0 && loopBreak == BREAK
    {
      dst := thisCpu;
      this.group := group;
      this.stopAtFirst := stopAtFirst;
      cpus := active;
      flags := Flags(false, false, false, 0);
      loop, loopBreak, loopMax, imbalance := 0, BREAK, 0, 0;
      source, moved := [], [];
    }

    ghost function Now(): Lb
      reads this
    {
      Lb(Target(dst, group, cpus, loopMax, stopAtFirst), flags, imbalance, loop, loopBreak, source, moved)
    }

    /** can_migrate_task */
    method CanMigrate(p: Task) returns (ok: bool)
      modifies this`flags
      ensures flags == Checked(Now().to, old(flags), p) && ok == MayMove(Now().to, p)
    {
      if p.throttled { return false; }
      if dst !in p.allowed {
        if flags.somePinned { return false; }
        var others := group * cpus * p.allowed;
        if others != {} {
          flags := flags.(somePinned := true, newDst := Lowest(others));
        }
        return false;
      }
      flags := flags.(allPinned := false);
      return !p.stuck;
    }

    /** move_tasks */
    method MoveTasks() returns (pulled: nat)
      modifies this`flags, this`imbalance, this`loop, this`loopBreak, this`source, this`moved
      ensures Now() == MovePass(old(Now())) && pulled == |moved|
    {
      pulled := 0;
      moved := [];
      if imbalance <= 0 { return; }
      ghost var goal := Sweep(Now());
      while source != []
        invariant Sweep(Now()) == goal && pulled == |moved|
        decreases loopMax - loop
      {
        var p := source[0];
        loop := loop + 1;
        if loop > loopMax { break; }
        if loop > loopBreak {
          loopBreak := loopBreak + BREAK;
          flags := flags.(needBreak := true);
          break;
        }
        var ok := CanMigrate(p);
        if ok && !p.light && p.load / 2 <= imbalance {
          moved := moved + [p];
          source := source[1..];
          pulled := pulled + 1;
          imbalance := imbalance - p.load;
          if stopAtFirst || imbalance <= 0 { break; }
        } else {
          source := source[1..] + [p];
        }
      }
    }

    /** Take the locks and make one pass. */
    method OnePass(w: World, n: nat) returns (pulled: nat)
      modifies this`flags, this`imbalance, this`loop, this`loopBreak, this`source, this`moved
      ensures Now() == Again(w, old(Now()), n) && pulled == |moved|
    {
      source := w.queue(n);
      pulled := MoveTasks();
    }

    /** The two ways back to more_balance. */
    method TurnBack() returns (again: bool)
      modifies this`flags, this`dst, this`loop, this`loopBreak, this`cpus
      ensures again == GoesOn(old(Now())) && Now() == if again then After(old(Now())) else old(Now())
    {
      if flags.needBreak {
        flags := flags.(needBreak := false);
        return true;
      }
      if flags.somePinned && imbalance > 0 {
        dst := flags.newDst;
        flags := flags.(somePinned := false);
        loop, loopBreak := 0, BREAK;
        cpus := cpus - {dst};
        return true;
      }
      return false;
    }

    /** load_balance's passes against one busiest queue. */
    method PullAll(w: World, start: nat) returns (pulled: nat, passes: nat, load: nat)
      requires Ready(Now())
      modifies this
      ensures Pull(Now(), pulled, passes, load) == PullFrom(w, old(Now()), start)
    {
      pulled, passes, load := 0, start, 0;
      ghost var goal := PullFrom(w, Now(), start);
      while true
        invariant Ready(Now())
        invariant WithMore(PullFrom(w, Now(), passes), pulled, load) == goal
        decreases |cpus|, loopMax - loop
      {
        ghost var before := Now();
        TurnOutcome(w, before, passes);
        var n := OnePass(w, passes);
        pulled, load, passes := pulled + n, load + Load(moved), passes + 1;
        var again := TurnBack();
        if !again { break; }
        NearerCpus(before, Now());
      }
    }

    /** One source: set up and pull. */
    method Source(w: World, found: Found, nrMigrate: nat, start: nat) returns (pulled: nat, passes: nat, load: nat)
      requires Clean(Now())
      modifies this
      ensures Pull(Now(), pulled, passes, load) == PullFrom(w, SetUp(old(Now()), found, nrMigrate), start)
    {
      imbalance := found.imbalance;
      flags := flags.(allPinned := true);
      loopMax := if nrMigrate < found.nrRunning then nrMigrate else found.nrRunning;
      pulled, passes, load := PullAll(w, start);
    }

    method Drop(cpu: nat)
      modifies this`cpus, this`loop, this`loopBreak
      ensures Now() == Dropped(old(Now()), cpu)
    {
      cpus := cpus - {cpu};
      loop, loopBreak := 0, BREAK;
    }

    /** load_balance up to the decision about active balancing */
    method Balance(w: World, nrMigrate: nat) returns (pulled: nat, passes: nat, rounds: seq<Round>)
      requires Clean(Now())
      modifies this
      ensures Outcome(Now(), pulled, passes, rounds) == Rounds(w, old(Now()), nrMigrate, 0, 0, [])
    {
      pulled, passes, rounds := 0, 0, [];
      var searches := 0;
      ghost var goal := Rounds(w, Now(), nrMigrate, 0, 0, []);
      while true
        invariant Clean(Now())
        invariant Rounds(w, Now(), nrMigrate, passes, searches, rounds) == goal
        decreases |cpus|
      {
        var found := Search(w, searches, cpus, group);
        searches := searches + 1;
        pulled := 0;
        if found.None? || found.value.nrRunning <= 1 { break; }
        var load;
        SourceOutcome(w, Now(), found.value, nrMigrate, passes);
        pulled, passes, load := Source(w, found.value, nrMigrate, passes);
        rounds := rounds + [Round(found.value.nrRunning, found.value.imbalance, load)];
        if !flags.allPinned { break; }
        CardMinus(cpus, found.value.cpu);
        Drop(found.value.cpu);
        if cpus == {} { break; }
      }
    }
  }
}
