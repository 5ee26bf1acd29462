// Active balancing and HMP migration as a protocol between balancing threads
// and CPU stoppers (backup/fair_mp.c, 6275-6306, 6419-6498, 7009-7158,
// 7166-7349).
//
// A step is one critical section of the source queue's rq->lock. Where
// double_lock_balance may drop that lock the section ends, and the reference that
// a stopper puts after its section is a step of its own. The stopper list of
// a CPU is a sequence, so that "at most one" is something to prove. The
// hmp_force_migration spinlock is not relied on.

module ActiveMigration {

  /** Which stop function runs: the ordinary one or the one of HMP. */
  datatype Kind = Ordinary | Forced

  datatype Stage =
    | Due                               // decided on, not yet queued
    | Waiting                           // queued
    | Started(target: nat)              // push_cpu read, lock not yet taken
    | Locked(target: nat, task: nat)    // inside double_lock_balance

  /** dst and nominee remember what the stopper was set up for. */
  datatype Stopper = Stopper(kind: Kind, dst: nat, nominee: nat, stage: Stage)

  /** One rq: active_balance, push_cpu, migrate_task, cfs_tasks. */
  datatype Cpu = Cpu(active: bool, push: nat, migrateTask: nat, tasks: set<nat>, stoppers: seq<Stopper>)

  datatype Task = Task(cpu: nat, onRq: bool, running: bool, allowed: set<nat>, refs: int)

  /** A direct move that is inside double_lock_balance. */
  datatype Mover = Mover(src: nat, dst: nat, task: nat)

  /** puts holds the tasks whose stopper has dropped the lock and is about to put
      its reference. */
  datatype State = State(cpus: seq<Cpu>, tasks: seq<Task>, movers: seq<Mover>, puts: seq<nat>, bug: bool)

  /** The HMP domains, fastest first, and the domain each CPU belongs to. */
  datatype Config = Config(domains: seq<set<nat>>, home: seq<nat>)

  predicate WellFormed(cfg: Config) {
    forall c :: 0 <= c < |cfg.home| ==> cfg.home[c] < |cfg.domains| && c in cfg.domains[cfg.home[c]]
  }

  /** t is in the domain one slower than that of c. */
  predicate Slower(cfg: Config, c: nat, t: nat)
    requires WellFormed(cfg)
  {
    c < |cfg.home| && cfg.home[c] + 1 < |cfg.domains| && t in cfg.domains[cfg.home[c] + 1]
  }

  // ------------------------------------------------------------------- pieces

  function SetCpu(s: State, c: nat, x: Cpu): State
    requires c < |s.cpus|
  {
    s.(cpus := s.cpus[c := x])
  }

  /** get_task_struct and put_task_struct */
  function AddRef(s: State, p: nat, d: int): State {
    if p < |s.tasks| then s.(tasks := s.tasks[p := s.tasks[p].(refs := s.tasks[p].refs + d)]) else s
  }

  /** Sets up a stopper. */
  function Activate(x: Cpu, kind: Kind, dst: nat, p: nat): Cpu {
    x.(active := true, push := dst, migrateTask := if kind.Forced? then p else x.migrateTask,
    stoppers := x.stoppers + [Stopper(kind, dst, p, Due)])
  }

  function SetStage(x: Cpu, k: nat, stage: Stage): Cpu
    requires k < |x.stoppers|
  {
    x.(stoppers := x.stoppers[k := x.stoppers[k].(stage := stage)])
  }

  /** The stopper clears active_balance and ends. */
  function Retire(x: Cpu, k: nat): Cpu
    requires k < |x.stoppers|
  {
    x.(active := false, stoppers := x.stoppers[..k] + x.stoppers[k + 1..])
  }

  /** move_task */
  function Move(s: State, p: nat, dst: nat): State
    requires p < |s.tasks| && s.tasks[p].cpu < |s.cpus| && dst < |s.cpus|
  {
    var src := s.tasks[p].cpu;
    var out := s.cpus[src := s.cpus[src].(tasks := s.cpus[src].tasks - {p})];
    s.(cpus := out[dst := out[dst].(tasks := out[dst].tasks + {p})], tasks := s.tasks[p := s.tasks[p].(cpu := dst)])
  }

  predicate Allowed(s: State, src: nat, dst: nat, p: nat) {
    && src < |s.cpus| && dst < |s.cpus| && p < |s.tasks| && s.tasks[p].cpu < |s.cpus|
    && p in s.cpus[src].tasks && dst in s.tasks[p].allowed
  }

  /** May p go from src to dst: on the list, allowed there, and not running? */
  predicate Movable(s: State, src: nat, dst: nat, p: nat) {
    Allowed(s, src, dst, p) && !s.tasks[p].running
  }

  /** move_specific_task and move_one_task; ok says that a domain spans both and
      that the pair is not throttled. */
  function TryMove(s: State, src: nat, dst: nat, p: nat, ok: bool): State {
    if ok && Movable(s, src, dst, p) then Move(s, p, dst) else s
  }

  /** A move changes nothing but where the task is. */
  lemma TryMoveFrame(s: State, src: nat, dst: nat, p: nat, ok: bool)
    ensures var t := TryMove(s, src, dst, p, ok);
            && |t.cpus| == |s.cpus| && |t.tasks| == |s.tasks| && t.movers == s.movers && t.puts == s.puts && t.bug == s.bug
            && (forall c :: 0 <= c < |s.cpus| ==> s.cpus[c] == t.cpus[c].(tasks := s.cpus[c].tasks))
            && (forall q :: 0 <= q < |s.tasks| ==> s.tasks[q] == t.tasks[q].(cpu := s.tasks[q].cpu))
  {
  }

  // ------------------------------------------------------------------- events

  datatype Event =
    | Force(c: nat, p: nat, target: nat, crowded: bool)     // hmp_force_up_migration
    | NoTarget(c: nat, none: nat)                           // the same, nowhere to go
    | IdlePull(c: nat, p: nat, here: nat, crowded: bool)   // hmp_idle_pull
    | FinishMove(m: nat, ok: bool)                          // end of a direct move
    | Kick(c: nat, here: nat)                              // load_balance
    | Queue(c: nat, k: nat)                                 // stop_one_cpu_nowait
    | Start(c: nat, k: nat)                                 // the stopper reads push_cpu
    | Enter(c: nat, k: nat, crowded: bool)                  // and takes the lock
    | Finish(c: nat, k: nat, choice: nat, ok: bool)         // moves and clears
    | Put(i: nat)                                           // and puts its reference
    | Sleep(p: nat)
    | Wake(p: nat, c: nat)
    | Run(p: nat, running: bool)
    | SetAffinity(p: nat, mask: set<nat>)
    | Balance(p: nat, dst: nat)                             // move_tasks

  predicate AtStage(s: State, c: nat, k: nat) {
    c < |s.cpus| && k < |s.cpus[c].stoppers|
  }

  ghost predicate Enabled(cfg: Config, s: State, e: Event)
    requires WellFormed(cfg)
  {
    match e
    case Force(c, p, target, _) =>
      && c < |s.cpus| && !s.cpus[c].active && p < |s.tasks| && p in s.cpus[c].tasks
      && target < |s.cpus| && Slower(cfg, c, target)
    case NoTarget(c, none) => c < |s.cpus| && !s.cpus[c].active && |s.cpus| <= none
    case IdlePull(c, p, here, _) =>
      c < |s.cpus| && p < |s.tasks| && here < |s.cpus| && Slower(cfg, here, c)
    case FinishMove(m, _) => m < |s.movers|
    case Kick(c, here) => c < |s.cpus| && here < |s.cpus| && here != c
    case Queue(c, k) => AtStage(s, c, k) && s.cpus[c].stoppers[k].stage.Due?
    case Start(c, k) => AtStage(s, c, k) && s.cpus[c].stoppers[k].stage.Waiting?
    case Enter(c, k, _) => AtStage(s, c, k) && s.cpus[c].stoppers[k].stage.Started?
    case Finish(c, k, _, _) => AtStage(s, c, k) && s.cpus[c].stoppers[k].stage.Locked?
    case Put(i) => i < |s.puts|
    case Sleep(p) => p < |s.tasks| && s.tasks[p].onRq && s.tasks[p].cpu < |s.cpus|
    case Wake(p, c) => p < |s.tasks| && !s.tasks[p].onRq && c < |s.cpus| && c in s.tasks[p].allowed
    case Run(p, _) => p < |s.tasks|
    case SetAffinity(p, _) => p < |s.tasks|
    case Balance(p, dst) => p < |s.tasks| && Movable(s, s.tasks[p].cpu, dst, p)
  }

  /** hmp_migrate_runnable_task up to double_lock_balance, with the reference
      already taken. The checks that fail put the reference again. */
  function Direct(s: State, c: nat, crowded: bool): State
    requires c < |s.cpus|
  {
    var p, dst := s.cpus[c].migrateTask, s.cpus[c].push;
    if s.cpus[c].active || !crowded || p >= |s.tasks| || s.tasks[p].cpu != c then AddRef(s, p, -1)
    else s.(movers := s.movers + [Mover(c, dst, p)], bug := s.bug || c == dst)
  }

  /** Nominate p for dst: a direct move if it is not running, a stopper if it is. */
  function Nominate(s: State, c: nat, p: nat, dst: nat, crowded: bool): State
    requires c < |s.cpus| && p < |s.tasks|
  {
    var r := AddRef(s, p, 1);
    if s.tasks[p].running then SetCpu(r, c, Activate(r.cpus[c], Forced, dst, p))
    else Direct(SetCpu(r, c, r.cpus[c].(push := dst, migrateTask := p)), c, crowded)
  }

  /** The stopper's exit, with p as it read it; one of HMP still has to put p. */
  function Leave(s: State, c: nat, k: nat, p: nat): State
    requires AtStage(s, c, k)
  {
    var r := SetCpu(s, c, Retire(s.cpus[c], k));
    if s.cpus[c].stoppers[k].kind.Forced? then r.(puts := r.puts + [p]) else r
  }

  /** __do_active_load_balance_cpu_stop up to double_lock_balance */
  function Entered(s: State, c: nat, k: nat, crowded: bool): State
    requires AtStage(s, c, k) && s.cpus[c].stoppers[k].stage.Started?
  {
    var x := s.cpus[c];
    var p, target := x.migrateTask, x.stoppers[k].stage.target;
    if !x.active || !crowded || (x.stoppers[k].kind.Forced? && !(p < |s.tasks| && s.tasks[p].cpu == c))
    then Leave(s, c, k, p)
    else SetCpu(s, c, SetStage(x, k, Locked(target, p))).(bug := s.bug || c == target)
  }

  /** The rest of it: an ordinary stopper moves a task of its choice, one of HMP
      the nominated one. */
  function Finished(s: State, c: nat, k: nat, choice: nat, ok: bool): State
    requires AtStage(s, c, k) && s.cpus[c].stoppers[k].stage.Locked?
  {
    var st := s.cpus[c].stoppers[k];
    var p := if st.kind.Forced? then st.stage.task else choice;
    TryMoveFrame(s, c, st.stage.target, p, ok);
    Leave(TryMove(s, c, st.stage.target, p, ok), c, k, st.stage.task)
  }

  /** The rest of a direct move. */
  function FinishedMove(s: State, m: nat, ok: bool): State
    requires m < |s.movers|
  {
    var v := s.movers[m];
    AddRef(TryMove(s.(movers := s.movers[..m] + s.movers[m + 1..]), v.src, v.dst, v.task, ok), v.task, -1)
  }

  function Next(cfg: Config, s: State, e: Event): State
    requires WellFormed(cfg) && Enabled(cfg, s, e)
  {
    match e
    case Force(c, p, target, crowded) => Nominate(s, c, p, target, crowded)
    case NoTarget(c, none) => SetCpu(s, c, s.cpus[c].(push := none))
    case IdlePull(c, p, here, crowded) =>
      if !s.cpus[c].active && s.tasks[p].cpu == c then Nominate(s, c, p, here, crowded) else s
    case FinishMove(m, ok) => FinishedMove(s, m, ok)
    case Kick(c, here) =>
      if s.cpus[c].active then s else SetCpu(s, c, Activate(s.cpus[c], Ordinary, here, 0))
    case Queue(c, k) => SetCpu(s, c, SetStage(s.cpus[c], k, Waiting))
    case Start(c, k) => SetCpu(s, c, SetStage(s.cpus[c], k, Started(s.cpus[c].push)))
    case Enter(c, k, crowded) => Entered(s, c, k, crowded)
    case Finish(c, k, choice, ok) => Finished(s, c, k, choice, ok)
    case Put(i) => AddRef(s.(puts := s.puts[..i] + s.puts[i + 1..]), s.puts[i], -1)
    case Sleep(p) =>
      var c := s.tasks[p].cpu;
      SetCpu(s, c, s.cpus[c].(tasks := s.cpus[c].tasks - {p}))
        .(tasks := s.tasks[p := s.tasks[p].(onRq := false, running := false)])
    case Wake(p, c) =>
      SetCpu(s, c, s.cpus[c].(tasks := s.cpus[c].tasks + {p})).(tasks := s.tasks[p := s.tasks[p].(onRq := true, cpu := c)])
    case Run(p, running) => s.(tasks := s.tasks[p := s.tasks[p].(running := running)])
    case SetAffinity(p, mask) => s.(tasks := s.tasks[p := s.tasks[p].(allowed := mask)])
    case Balance(p, dst) => Move(s, p, dst)
  }

  ghost predicate IsRun(cfg: Config, s: State, es: seq<Event>, t: State)
    requires WellFormed(cfg)
    decreases |es|
  {
    if es == [] then t == s else Enabled(cfg, s, es[0]) && IsRun(cfg, Next(cfg, s, es[0]), es[1..], t)
  }

  // --------------------------------------------------------------- invariants

  /** The fields still say what the stopper was set up for. */
  predicate Matches(x: Cpu, st: Stopper) {
    && x.push == st.dst
    && (st.kind.Forced? ==> x.migrateTask == st.nominee)
    && (st.stage.Started? ==> st.stage.target == st.dst)
    && (st.stage.Locked? ==> st.stage.target == st.dst && (st.kind.Forced? ==> st.stage.task == st.nominee))
  }

  /** active_balance is set iff exactly one stopper is due, queued or running. */
  predicate Handshake(x: Cpu) {
    && |x.stoppers| == (if x.active then 1 else 0)
    && (forall k :: 0 <= k < |x.stoppers| ==> Matches(x, x.stoppers[k]))
  }

  predicate Handshakes(s: State) {
    forall c :: 0 <= c < |s.cpus| ==> Handshake(s.cpus[c])
  }

  predicate OnList(s: State, c: nat, p: nat) {
    c < |s.cpus| && p in s.cpus[c].tasks
  }

  /** Every queued task is on the list of its own CPU and on no other. */
  ghost predicate Placed(s: State) {
    && (forall p :: 0 <= p < |s.tasks| && s.tasks[p].onRq ==> s.tasks[p].cpu < |s.cpus|)
    && (forall c: nat, p: nat :: c < |s.cpus| && p < |s.tasks| ==>
          (OnList(s, c, p) <==> s.tasks[p].onRq && s.tasks[p].cpu == c))
  }

  function HeldByStoppers(ss: seq<Stopper>, p: nat): nat {
    if ss == [] then 0
    else (if ss[0].kind.Forced? && ss[0].nominee == p then 1 else 0) + HeldByStoppers(ss[1..], p)
  }

  function HeldByCpus(cs: seq<Cpu>, p: nat): nat {
    if cs == [] then 0 else HeldByStoppers(cs[0].stoppers, p) + HeldByCpus(cs[1..], p)
  }

  function HeldByMovers(ms: seq<Mover>, p: nat): nat {
    if ms == [] then 0 else (if ms[0].task == p then 1 else 0) + HeldByMovers(ms[1..], p)
  }

  function HeldByPuts(ps: seq<nat>, p: nat): nat {
    if ps == [] then 0 else (if ps[0] == p then 1 else 0) + HeldByPuts(ps[1..], p)
  }

  /** Who holds a reference on a nominated task. */
  function Held(s: State, p: nat): nat {
    HeldByCpus(s.cpus, p) + HeldByMovers(s.movers, p) + HeldByPuts(s.puts, p)
  }

  predicate Referenced(s: State) {
    forall p: nat :: p < |s.tasks| ==> s.tasks[p].refs == Held(s, p)
  }

  // ------------------------------------------------------------ the handshake

  lemma RetireShakes(x: Cpu, k: nat)
    requires Handshake(x) && k < |x.stoppers|
    ensures Handshake(Retire(x, k)) && Retire(x, k).stoppers == []
  {
  }

  lemma DirectFrame(s: State, c: nat, crowded: bool)
    requires c < |s.cpus|
    ensures Direct(s, c, crowded).cpus == s.cpus
  {
  }

  lemma NominateShakes(s: State, c: nat, p: nat, dst: nat, crowded: bool)
    requires Handshakes(s) && c < |s.cpus| && p < |s.tasks| && !s.cpus[c].active
    ensures Handshakes(Nominate(s, c, p, dst, crowded))
  {
    var r := AddRef(s, p, 1);
    var x := r.cpus[c].(push := dst, migrateTask := p);
    DirectFrame(SetCpu(r, c, x), c, crowded);
  }

  lemma LeaveShakes(s: State, c: nat, k: nat, p: nat)
    requires Handshakes(s) && AtStage(s, c, k)
    ensures Handshakes(Leave(s, c, k, p))
  {
    RetireShakes(s.cpus[c], k);
  }

  lemma StageShakes(s: State, c: nat, k: nat, stage: Stage)
    requires Handshakes(s) && AtStage(s, c, k)
    requires var st := s.cpus[c].stoppers[k]; Matches(s.cpus[c], st.(stage := stage))
    ensures Handshakes(SetCpu(s, c, SetStage(s.cpus[c], k, stage)))
  {
  }

  predicate ByStopper(e: Event) {
    e.Queue? || e.Start? || e.Enter? || e.Finish?
  }

  predicate ByBalancer(e: Event) {
    e.Force? || e.NoTarget? || e.IdlePull? || e.FinishMove? || e.Kick?
  }

  lemma TryMoveShakes(s: State, src: nat, dst: nat, p: nat, ok: bool)
    requires Handshakes(s)
    ensures Handshakes(TryMove(s, src, dst, p, ok))
  {
    TryMoveFrame(s, src, dst, p, ok);
    var t := TryMove(s, src, dst, p, ok);
    forall c | 0 <= c < |t.cpus| ensures Handshake(t.cpus[c]) {
      assert s.cpus[c] == t.cpus[c].(tasks := s.cpus[c].tasks) && Handshake(s.cpus[c]);
    }
  }

  lemma StopperShakes(cfg: Config, s: State, e: Event)
    requires WellFormed(cfg) && Handshakes(s) && Enabled(cfg, s, e) && ByStopper(e)
    ensures Handshakes(Next(cfg, s, e))
  {
    match e
    case Queue(c, k) => StageShakes(s, c, k, Waiting);
    case Start(c, k) => StageShakes(s, c, k, Started(s.cpus[c].push));
    case Enter(c, k, crowded) =>
      var p, target := s.cpus[c].migrateTask, s.cpus[c].stoppers[k].stage.target;
      assert Matches(s.cpus[c], s.cpus[c].stoppers[k]);
      LeaveShakes(s, c, k, p);
      StageShakes(s, c, k, Locked(target, p));
    case Finish(c, k, choice, ok) =>
      var st := s.cpus[c].stoppers[k];
      var p := if st.kind.Forced? then st.stage.task else choice;
      TryMoveFrame(s, c, st.stage.target, p, ok);
      TryMoveShakes(s, c, st.stage.target, p, ok);
      LeaveShakes(TryMove(s, c, st.stage.target, p, ok), c, k, st.stage.task);
  }

  lemma BalancerShakes(cfg: Config, s: State, e: Event)
    requires WellFormed(cfg) && Handshakes(s) && Enabled(cfg, s, e) && ByBalancer(e)
    ensures Handshakes(Next(cfg, s, e))
  {
    match e
    case Force(c, p, target, crowded) => NominateShakes(s, c, p, target, crowded);
    case NoTarget(c, none) =>
    case IdlePull(c, p, here, crowded) =>
      if !s.cpus[c].active { NominateShakes(s, c, p, here, crowded); }
    case FinishMove(m, ok) =>
      var v := s.movers[m];
      TryMoveShakes(s.(movers := s.movers[..m] + s.movers[m + 1..]), v.src, v.dst, v.task, ok);
    case Kick(c, here) =>
  }

  lemma StepShakes(cfg: Config, s: State, e: Event)
    requires WellFormed(cfg) && Handshakes(s) && Enabled(cfg, s, e)
    ensures Handshakes(Next(cfg, s, e))
  {
    if ByStopper(e) { StopperShakes(cfg, s, e); }
    else if ByBalancer(e) { BalancerShakes(cfg, s, e); }
    else if e.Balance? { TryMoveShakes(s, s.tasks[e.p].cpu, e.dst, e.p, true); }
  }

  /** While active_balance stays set, nobody touches push_cpu or migrate_task. */
  predicate Stable(s: State, t: State) {
    && |t.cpus| == |s.cpus|
    && forall c :: 0 <= c < |s.cpus| && s.cpus[c].active && t.cpus[c].active ==>
         t.cpus[c].push == s.cpus[c].push && t.cpus[c].migrateTask == s.cpus[c].migrateTask
  }

  lemma FinishStable(s: State, c: nat, k: nat, choice: nat, ok: bool)
    requires AtStage(s, c, k) && s.cpus[c].stoppers[k].stage.Locked?
    ensures Stable(s, Finished(s, c, k, choice, ok))
  {
    var st := s.cpus[c].stoppers[k];
    TryMoveFrame(s, c, st.stage.target, if st.kind.Forced? then st.stage.task else choice, ok);
  }

  lemma NominateStable(s: State, c: nat, p: nat, dst: nat, crowded: bool)
    requires c < |s.cpus| && p < |s.tasks| && !s.cpus[c].active
    ensures Stable(s, Nominate(s, c, p, dst, crowded))
  {
  }

  lemma EnterStable(s: State, c: nat, k: nat, crowded: bool)
    requires AtStage(s, c, k) && s.cpus[c].stoppers[k].stage.Started?
    ensures Stable(s, Entered(s, c, k, crowded))
  {
  }

  lemma SetCpuStable(s: State, c: nat, x: Cpu)
    requires c < |s.cpus| && (s.cpus[c].active && x.active ==> x.push == s.cpus[c].push && x.migrateTask == s.cpus[c].migrateTask)
    ensures Stable(s, SetCpu(s, c, x))
  {
  }

  lemma FinishMoveStable(s: State, m: nat, ok: bool)
    requires m < |s.movers|
    ensures Stable(s, FinishedMove(s, m, ok))
  {
    var v := s.movers[m];
    TryMoveFrame(s.(movers := s.movers[..m] + s.movers[m + 1..]), v.src, v.dst, v.task, ok);
  }

  lemma BalancerStable(cfg: Config, s: State, e: Event)
    requires WellFormed(cfg) && Enabled(cfg, s, e) && ByBalancer(e)
    ensures Stable(s, Next(cfg, s, e))
  {
    match e
    case Force(c, p, target, crowded) => NominateStable(s, c, p, target, crowded);
    case NoTarget(c, none) => SetCpuStable(s, c, s.cpus[c].(push := none));
    case IdlePull(c, p, here, crowded) => if !s.cpus[c].active { NominateStable(s, c, p, here, crowded); }
    case FinishMove(m, ok) => FinishMoveStable(s, m, ok);
    case Kick(c, here) => if !s.cpus[c].active { SetCpuStable(s, c, Activate(s.cpus[c], Ordinary, here, 0)); }
  }

  lemma StopperStable(cfg: Config, s: State, e: Event)
    requires WellFormed(cfg) && Enabled(cfg, s, e) && ByStopper(e)
    ensures Stable(s, Next(cfg, s, e))
  {
    match e
    case Queue(c, k) => SetCpuStable(s, c, SetStage(s.cpus[c], k, Waiting));
    case Start(c, k) => SetCpuStable(s, c, SetStage(s.cpus[c], k, Started(s.cpus[c].push)));
    case Enter(c, k, crowded) => EnterStable(s, c, k, crowded);
    case Finish(c, k, choice, ok) => FinishStable(s, c, k, choice, ok);
  }

  lemma StepStable(cfg: Config, s: State, e: Event)
    requires WellFormed(cfg) && Enabled(cfg, s, e)
    ensures Stable(s, Next(cfg, s, e))
  {
    if ByBalancer(e) { BalancerStable(cfg, s, e); }
    else if ByStopper(e) { StopperStable(cfg, s, e); }
    else if e.Balance? { TryMoveFrame(s, s.tasks[e.p].cpu, e.dst, e.p, true); }
  }

  // ------------------------------------------------------------------- places

  /** Whoever changes CPU goes to one that is allowed. */
  predicate MovesAllowed(s: State, t: State) {
    && |t.tasks| == |s.tasks|
    && forall p :: 0 <= p < |s.tasks| && t.tasks[p].cpu != s.tasks[p].cpu ==> t.tasks[p].cpu in s.tasks[p].allowed
  }

  lemma TryMovePlaced(s: State, src: nat, dst: nat, p: nat, ok: bool)
    requires Placed(s)
    ensures Placed(TryMove(s, src, dst, p, ok)) && MovesAllowed(s, TryMove(s, src, dst, p, ok))
  {
    var t := TryMove(s, src, dst, p, ok);
    if ok && Movable(s, src, dst, p) {
      forall c: nat, q: nat | c < |t.cpus| && q < |t.tasks|
        ensures OnList(t, c, q) <==> t.tasks[q].onRq && t.tasks[q].cpu == c
      {
        assert OnList(s, c, q) <==> s.tasks[q].onRq && s.tasks[q].cpu == c;
        assert OnList(s, src, p) <==> s.tasks[p].onRq && s.tasks[p].cpu == src;
      }
    }
  }

  /** Neither the lists nor the places of tasks change. */
  predicate SamePlaces(s: State, t: State) {
    && |t.cpus| == |s.cpus| && |t.tasks| == |s.tasks|
    && (forall c :: 0 <= c < |s.cpus| ==> t.cpus[c].tasks == s.cpus[c].tasks)
    && (forall p :: 0 <= p < |s.tasks| ==> t.tasks[p].cpu == s.tasks[p].cpu && t.tasks[p].onRq == s.tasks[p].onRq)
  }

  lemma SamePlacesPlaced(s: State, t: State)
    requires Placed(s) && SamePlaces(s, t)
    ensures Placed(t)
  {
    forall c: nat, q: nat | c < |t.cpus| && q < |t.tasks|
      ensures OnList(t, c, q) <==> t.tasks[q].onRq && t.tasks[q].cpu == c
    {
      assert OnList(s, c, q) <==> s.tasks[q].onRq && s.tasks[q].cpu == c;
    }
  }

  lemma SleepPlaced(cfg: Config, s: State, p: nat)
    requires WellFormed(cfg) && Placed(s) && Enabled(cfg, s, Sleep(p))
    ensures Placed(Next(cfg, s, Sleep(p)))
  {
    var t := Next(cfg, s, Sleep(p));
    forall c: nat, q: nat | c < |t.cpus| && q < |t.tasks|
      ensures OnList(t, c, q) <==> t.tasks[q].onRq && t.tasks[q].cpu == c
    {
      assert OnList(s, c, q) <==> s.tasks[q].onRq && s.tasks[q].cpu == c;
    }
  }

  lemma WakePlaced(cfg: Config, s: State, p: nat, to: nat)
    requires WellFormed(cfg) && Placed(s) && Enabled(cfg, s, Wake(p, to))
    ensures Placed(Next(cfg, s, Wake(p, to)))
  {
    var t := Next(cfg, s, Wake(p, to));
    forall c: nat, q: nat | c < |t.cpus| && q < |t.tasks|
      ensures OnList(t, c, q) <==> t.tasks[q].onRq && t.tasks[q].cpu == c
    {
      assert OnList(s, c, q) <==> s.tasks[q].onRq && s.tasks[q].cpu == c;
    }
  }

  lemma NominatePlaces(s: State, c: nat, p: nat, dst: nat, crowded: bool)
    requires c < |s.cpus| && p < |s.tasks|
    ensures SamePlaces(s, Nominate(s, c, p, dst, crowded))
  {
  }

  lemma LeavePlaces(s: State, c: nat, k: nat, p: nat)
    requires AtStage(s, c, k)
    ensures SamePlaces(s, Leave(s, c, k, p))
  {
  }

  /** Steps of the protocol that move nothing. */
  lemma StillSteps(cfg: Config, s: State, e: Event)
    requires WellFormed(cfg) && Enabled(cfg, s, e)
    requires !(e.FinishMove? || e.Finish? || e.Balance? || e.Sleep? || e.Wake?)
    ensures SamePlaces(s, Next(cfg, s, e))
  {
    match e
    case Force(c, p, target, crowded) => NominatePlaces(s, c, p, target, crowded);
    case IdlePull(c, p, here, crowded) => NominatePlaces(s, c, p, here, crowded);
    case Enter(c, k, _) => LeavePlaces(s, c, k, s.cpus[c].migrateTask);
    case _ =>
  }

  lemma FinishMovePlaced(cfg: Config, s: State, e: Event)
    requires WellFormed(cfg) && Placed(s) && Enabled(cfg, s, e) && e.FinishMove?
    ensures Placed(Next(cfg, s, e)) && MovesAllowed(s, Next(cfg, s, e))
  {
    var v := s.movers[e.m];
    var r := s.(movers := s.movers[..e.m] + s.movers[e.m + 1..]);
    SamePlacesPlaced(s, r);
    TryMovePlaced(r, v.src, v.dst, v.task, e.ok);
    SamePlacesPlaced(TryMove(r, v.src, v.dst, v.task, e.ok), Next(cfg, s, e));
  }

  lemma FinishPlaced(s: State, c: nat, k: nat, choice: nat, ok: bool)
    requires Placed(s) && AtStage(s, c, k) && s.cpus[c].stoppers[k].stage.Locked?
    ensures Placed(Finished(s, c, k, choice, ok)) && MovesAllowed(s, Finished(s, c, k, choice, ok))
  {
    var st := s.cpus[c].stoppers[k];
    var p := if st.kind.Forced? then st.stage.task else choice;
    TryMovePlaced(s, c, st.stage.target, p, ok);
    TryMoveFrame(s, c, st.stage.target, p, ok);
    LeavePlaces(TryMove(s, c, st.stage.target, p, ok), c, k, st.stage.task);
    SamePlacesPlaced(TryMove(s, c, st.stage.target, p, ok), Finished(s, c, k, choice, ok));
  }

  lemma StepPlaced(cfg: Config, s: State, e: Event)
    requires WellFormed(cfg) && Placed(s) && Enabled(cfg, s, e)
    ensures Placed(Next(cfg, s, e)) && MovesAllowed(s, Next(cfg, s, e))
  {
    match e
    case FinishMove(_, _) => FinishMovePlaced(cfg, s, e);
    case Finish(c, k, choice, ok) => FinishPlaced(s, c, k, choice, ok);
    case Balance(p, dst) => TryMovePlaced(s, s.tasks[p].cpu, dst, p, true);
    case Sleep(p) => SleepPlaced(cfg, s, p);
    case Wake(p, c) => WakePlaced(cfg, s, p, c);
    case _ =>
      StillSteps(cfg, s, e);
      SamePlacesPlaced(s, Next(cfg, s, e));
  }

  // --------------------------------------------------------------- references

  lemma {:induction false} HeldUpdate(cs: seq<Cpu>, c: nat, x: Cpu, p: nat)
    requires c < |cs|
    ensures HeldByCpus(cs[c := x], p)
         == HeldByCpus(cs, p) - HeldByStoppers(cs[c].stoppers, p) + HeldByStoppers(x.stoppers, p)
  {
    if c > 0 {
      assert cs[c := x][1..] == cs[1..][c - 1 := x];
      HeldUpdate(cs[1..], c - 1, x, p);
    } else {
      assert cs[c := x][1..] == cs[1..];
    }
  }

  lemma {:induction false} HeldSame(cs: seq<Cpu>, ds: seq<Cpu>, p: nat)
    requires |cs| == |ds| && forall c :: 0 <= c < |cs| ==> ds[c].stoppers == cs[c].stoppers
    ensures HeldByCpus(cs, p) == HeldByCpus(ds, p)
  {
    if cs != [] {
      HeldSame(cs[1..], ds[1..], p);
    }
  }

  lemma {:induction false} MoversAppend(ms: seq<Mover>, v: Mover, p: nat)
    ensures HeldByMovers(ms + [v], p) == HeldByMovers(ms, p) + if v.task == p then 1 else 0
  {
    if ms != [] {
      assert (ms + [v])[1..] == ms[1..] + [v];
      MoversAppend(ms[1..], v, p);
    }
  }

  lemma {:induction false} MoversRemove(ms: seq<Mover>, m: nat, p: nat)
    requires m < |ms|
    ensures HeldByMovers(ms, p) == HeldByMovers(ms[..m] + ms[m + 1..], p) + if ms[m].task == p then 1 else 0
  {
    if m == 0 {
      assert ms[..0] + ms[1..] == ms[1..];
    } else {
      assert (ms[..m] + ms[m + 1..])[1..] == ms[1..][..m - 1] + ms[1..][m..];
      MoversRemove(ms[1..], m - 1, p);
    }
  }

  lemma {:induction false} PutsAppend(ps: seq<nat>, p: nat, q: nat)
    ensures HeldByPuts(ps + [p], q) == HeldByPuts(ps, q) + if p == q then 1 else 0
  {
    if ps != [] {
      assert (ps + [p])[1..] == ps[1..] + [p];
      PutsAppend(ps[1..], p, q);
    }
  }

  lemma {:induction false} PutsRemove(ps: seq<nat>, i: nat, q: nat)
    requires i < |ps|
    ensures HeldByPuts(ps, q) == HeldByPuts(ps[..i] + ps[i + 1..], q) + if ps[i] == q then 1 else 0
  {
    if i == 0 {
      assert ps[..0] + ps[1..] == ps[1..];
    } else {
      assert (ps[..i] + ps[i + 1..])[1..] == ps[1..][..i - 1] + ps[1..][i..];
      PutsRemove(ps[1..], i - 1, q);
    }
  }

  lemma HeldSetCpu(s: State, c: nat, x: Cpu)
    requires c < |s.cpus|
    ensures forall q: nat :: Held(SetCpu(s, c, x), q)
                          == Held(s, q) - HeldByStoppers(s.cpus[c].stoppers, q) + HeldByStoppers(x.stoppers, q)
  {
    forall q: nat ensures Held(SetCpu(s, c, x), q)
                       == Held(s, q) - HeldByStoppers(s.cpus[c].stoppers, q) + HeldByStoppers(x.stoppers, q) {
      HeldUpdate(s.cpus, c, x, q);
    }
  }

  lemma DirectHeld(s: State, c: nat, crowded: bool)
    requires c < |s.cpus| && s.cpus[c].migrateTask < |s.tasks|
    ensures var t, p := Direct(s, c, crowded), s.cpus[c].migrateTask;
            && t.cpus == s.cpus && |t.tasks| == |s.tasks|
            && forall q: nat :: q < |s.tasks| ==>
                 t.tasks[q].refs - Held(t, q) == s.tasks[q].refs - Held(s, q) - if q == p then 1 else 0
  {
    var t := Direct(s, c, crowded);
    forall q: nat | t.movers != s.movers
      ensures HeldByMovers(t.movers, q) == HeldByMovers(s.movers, q) + if s.cpus[c].migrateTask == q then 1 else 0
    {
      MoversAppend(s.movers, t.movers[|s.movers|], q);
    }
  }

  lemma HeldByOne(ss: seq<Stopper>, q: nat)
    requires |ss| == 1
    ensures HeldByStoppers(ss, q) == if ss[0].kind.Forced? && ss[0].nominee == q then 1 else 0
  {
    assert ss[1..] == [];
  }

  lemma NominateReferenced(s: State, c: nat, p: nat, dst: nat, crowded: bool)
    requires Referenced(s) && Handshakes(s) && c < |s.cpus| && p < |s.tasks| && !s.cpus[c].active
    ensures Referenced(Nominate(s, c, p, dst, crowded))
  {
    var r := AddRef(s, p, 1);
    assert Handshake(s.cpus[c]);
    if s.tasks[p].running {
      var x := Activate(r.cpus[c], Forced, dst, p);
      HeldSetCpu(r, c, x);
      forall q: nat | q < |s.tasks| ensures SetCpu(r, c, x).tasks[q].refs == Held(SetCpu(r, c, x), q) {
        HeldByOne(x.stoppers, q);
        assert Held(r, q) == Held(s, q);
      }
    } else {
      var x := r.cpus[c].(push := dst, migrateTask := p);
      HeldSetCpu(r, c, x);
      DirectHeld(SetCpu(r, c, x), c, crowded);
    }
  }

  lemma LeaveReferenced(s: State, c: nat, k: nat, p: nat)
    requires Referenced(s) && Handshakes(s) && AtStage(s, c, k)
    requires s.cpus[c].stoppers[k].kind.Forced? ==> p == s.cpus[c].stoppers[k].nominee
    ensures Referenced(Leave(s, c, k, p))
  {
    var x, t := s.cpus[c], Leave(s, c, k, p);
    RetireShakes(x, k);
    HeldSetCpu(s, c, Retire(x, k));
    forall q: nat | q < |s.tasks| ensures t.tasks[q].refs == Held(t, q) {
      HeldByOne(x.stoppers, q);
      PutsAppend(s.puts, p, q);
    }
  }

  lemma TryMoveReferenced(s: State, src: nat, dst: nat, p: nat, ok: bool)
    requires Referenced(s)
    ensures Referenced(TryMove(s, src, dst, p, ok))
  {
    var t := TryMove(s, src, dst, p, ok);
    TryMoveFrame(s, src, dst, p, ok);
    forall q: nat | q < |s.tasks| ensures t.tasks[q].refs == Held(t, q) {
      assert s.tasks[q] == t.tasks[q].(cpu := s.tasks[q].cpu);
      HeldSame(s.cpus, t.cpus, q);
    }
  }

  lemma StageReferenced(s: State, c: nat, k: nat, stage: Stage)
    requires Referenced(s) && Handshakes(s) && AtStage(s, c, k)
    ensures Referenced(SetCpu(s, c, SetStage(s.cpus[c], k, stage)))
  {
    var x := SetStage(s.cpus[c], k, stage);
    assert Handshake(s.cpus[c]) && s.cpus[c].stoppers == [s.cpus[c].stoppers[k]] && x.stoppers == [x.stoppers[k]];
    HeldSetCpu(s, c, x);
  }

  lemma StopperReferenced(cfg: Config, s: State, e: Event)
    requires WellFormed(cfg) && Handshakes(s) && Referenced(s) && Enabled(cfg, s, e) && ByStopper(e)
    ensures Referenced(Next(cfg, s, e))
  {
    var c, k := e.c, e.k;
    assert Matches(s.cpus[c], s.cpus[c].stoppers[k]);
    match e
    case Queue(_, _) => StageReferenced(s, c, k, Waiting);
    case Start(_, _) => StageReferenced(s, c, k, Started(s.cpus[c].push));
    case Enter(_, _, crowded) =>
      LeaveReferenced(s, c, k, s.cpus[c].migrateTask);
      StageReferenced(s, c, k, Locked(s.cpus[c].stoppers[k].stage.target, s.cpus[c].migrateTask));
    case Finish(_, _, choice, ok) =>
      var st := s.cpus[c].stoppers[k];
      var p := if st.kind.Forced? then st.stage.task else choice;
      TryMoveFrame(s, c, st.stage.target, p, ok);
      TryMoveShakes(s, c, st.stage.target, p, ok);
      TryMoveReferenced(s, c, st.stage.target, p, ok);
      LeaveReferenced(TryMove(s, c, st.stage.target, p, ok), c, k, st.stage.task);
  }

  /** Ending a direct move: one holder less, and one reference put. */
  lemma FinishMoveReferenced(s: State, m: nat, ok: bool)
    requires Referenced(s) && m < |s.movers|
    ensures var v := s.movers[m];
            var r := TryMove(s.(movers := s.movers[..m] + s.movers[m + 1..]), v.src, v.dst, v.task, ok);
            Referenced(AddRef(r, v.task, -1))
  {
    var v := s.movers[m];
    var r := s.(movers := s.movers[..m] + s.movers[m + 1..]);
    var t := TryMove(r, v.src, v.dst, v.task, ok);
    TryMoveFrame(r, v.src, v.dst, v.task, ok);
    forall q: nat | q < |s.tasks| ensures AddRef(t, v.task, -1).tasks[q].refs == Held(t, q) {
      assert r.tasks[q] == t.tasks[q].(cpu := r.tasks[q].cpu);
      MoversRemove(s.movers, m, q);
      HeldSame(r.cpus, t.cpus, q);
    }
  }

  lemma KickReferenced(s: State, c: nat, here: nat)
    requires Referenced(s) && Handshakes(s) && c < |s.cpus| && !s.cpus[c].active
    ensures Referenced(SetCpu(s, c, Activate(s.cpus[c], Ordinary, here, 0)))
  {
    var x := Activate(s.cpus[c], Ordinary, here, 0);
    assert Handshake(s.cpus[c]);
    HeldSetCpu(s, c, x);
    forall q: nat | q < |s.tasks| ensures Held(SetCpu(s, c, x), q) == Held(s, q) {
      HeldByOne(x.stoppers, q);
    }
  }

  /** No reference and no holder changes. */
  lemma SameReferenced(s: State, t: State)
    requires Referenced(s) && |t.cpus| == |s.cpus| && |t.tasks| == |s.tasks| && t.movers == s.movers && t.puts == s.puts
    requires forall c :: 0 <= c < |s.cpus| ==> t.cpus[c].stoppers == s.cpus[c].stoppers
    requires forall p :: 0 <= p < |s.tasks| ==> t.tasks[p].refs == s.tasks[p].refs
    ensures Referenced(t)
  {
    forall q: nat | q < |t.tasks| ensures t.tasks[q].refs == Held(t, q) {
      HeldSame(s.cpus, t.cpus, q);
    }
  }

  lemma BalancerReferenced(cfg: Config, s: State, e: Event)
    requires WellFormed(cfg) && Handshakes(s) && Referenced(s) && Enabled(cfg, s, e) && ByBalancer(e)
    ensures Referenced(Next(cfg, s, e))
  {
    match e
    case Force(c, p, target, crowded) => NominateReferenced(s, c, p, target, crowded);
    case NoTarget(c, none) => SameReferenced(s, Next(cfg, s, e));
    case IdlePull(c, p, here, crowded) =>
      if !s.cpus[c].active { NominateReferenced(s, c, p, here, crowded); }
    case FinishMove(m, ok) => FinishMoveReferenced(s, m, ok);
    case Kick(c, here) => if !s.cpus[c].active { KickReferenced(s, c, here); }
  }

  /** A stopper that is done puts the reference it was counted for. */
  lemma PutReferenced(s: State, i: nat)
    requires Referenced(s) && i < |s.puts|
    ensures Referenced(AddRef(s.(puts := s.puts[..i] + s.puts[i + 1..]), s.puts[i], -1))
  {
    var t := AddRef(s.(puts := s.puts[..i] + s.puts[i + 1..]), s.puts[i], -1);
    forall q: nat | q < |s.tasks| ensures t.tasks[q].refs == Held(t, q) {
      PutsRemove(s.puts, i, q);
    }
  }

  lemma StepReferenced(cfg: Config, s: State, e: Event)
    requires WellFormed(cfg) && Handshakes(s) && Referenced(s) && Enabled(cfg, s, e)
    ensures Referenced(Next(cfg, s, e))
  {
    if ByStopper(e) { StopperReferenced(cfg, s, e); }
    else if ByBalancer(e) { BalancerReferenced(cfg, s, e); }
    else if e.Balance? { TryMoveReferenced(s, s.tasks[e.p].cpu, e.dst, e.p, true); }
    else if e.Put? { PutReferenced(s, e.i); }
    else { SameReferenced(s, Next(cfg, s, e)); }
  }

  // ------------------------------------------------------------------- BUG_ON

  /** No CPU is in the domain slower than its own. */
  predicate NoSelf(cfg: Config)
    requires WellFormed(cfg)
  {
    forall c :: 0 <= c < |cfg.home| ==> !Slower(cfg, c, c)
  }

  lemma DisjointNoSelf(cfg: Config)
    requires WellFormed(cfg)
    requires forall i, j :: 0 <= i < j < |cfg.domains| ==> cfg.domains[i] !! cfg.domains[j]
    ensures NoSelf(cfg)
  {
    forall c | 0 <= c < |cfg.home| ensures !Slower(cfg, c, c) {
      if cfg.home[c] + 1 < |cfg.domains| {
        assert cfg.domains[cfg.home[c]] !! cfg.domains[cfg.home[c] + 1];
      }
    }
  }

  /** No BUG_ON was hit and no stopper is set up for its own CPU. */
  predicate NoBug(s: State) {
    && !s.bug
    && forall c, k :: 0 <= c < |s.cpus| && 0 <= k < |s.cpus[c].stoppers| ==> s.cpus[c].stoppers[k].dst != c
  }

  lemma NominateNoBug(s: State, c: nat, p: nat, dst: nat, crowded: bool)
    requires NoBug(s) && c < |s.cpus| && p < |s.tasks| && c != dst
    ensures NoBug(Nominate(s, c, p, dst, crowded))
  {
  }

  lemma LeaveNoBug(s: State, c: nat, k: nat, p: nat)
    requires NoBug(s) && Handshakes(s) && AtStage(s, c, k)
    ensures NoBug(Leave(s, c, k, p))
  {
    RetireShakes(s.cpus[c], k);
  }

  lemma TryMoveNoBug(s: State, src: nat, dst: nat, p: nat, ok: bool)
    requires NoBug(s)
    ensures NoBug(TryMove(s, src, dst, p, ok))
  {
    TryMoveFrame(s, src, dst, p, ok);
  }

  lemma SetCpuNoBug(s: State, c: nat, x: Cpu)
    requires NoBug(s) && c < |s.cpus| && forall k :: 0 <= k < |x.stoppers| ==> x.stoppers[k].dst != c
    ensures NoBug(SetCpu(s, c, x))
  {
  }

  lemma StageNoBug(s: State, c: nat, k: nat, stage: Stage)
    requires NoBug(s) && AtStage(s, c, k)
    ensures NoBug(SetCpu(s, c, SetStage(s.cpus[c], k, stage)))
  {
    SetCpuNoBug(s, c, SetStage(s.cpus[c], k, stage));
  }

  lemma EnterNoBug(s: State, c: nat, k: nat, crowded: bool)
    requires NoBug(s) && Handshakes(s) && AtStage(s, c, k) && s.cpus[c].stoppers[k].stage.Started?
    ensures NoBug(Entered(s, c, k, crowded))
  {
    var p, target := s.cpus[c].migrateTask, s.cpus[c].stoppers[k].stage.target;
    assert Handshake(s.cpus[c]) && Matches(s.cpus[c], s.cpus[c].stoppers[k]);
    LeaveNoBug(s, c, k, p);
    StageNoBug(s, c, k, Locked(target, p));
  }

  lemma FinishNoBug(s: State, c: nat, k: nat, choice: nat, ok: bool)
    requires NoBug(s) && Handshakes(s) && AtStage(s, c, k) && s.cpus[c].stoppers[k].stage.Locked?
    ensures NoBug(Finished(s, c, k, choice, ok))
  {
    var st := s.cpus[c].stoppers[k];
    var p := if st.kind.Forced? then st.stage.task else choice;
    TryMoveFrame(s, c, st.stage.target, p, ok);
    TryMoveNoBug(s, c, st.stage.target, p, ok);
    TryMoveShakes(s, c, st.stage.target, p, ok);
    LeaveNoBug(TryMove(s, c, st.stage.target, p, ok), c, k, st.stage.task);
  }

  lemma BalancerNoBug(cfg: Config, s: State, e: Event)
    requires WellFormed(cfg) && NoSelf(cfg) && Handshakes(s) && NoBug(s) && Enabled(cfg, s, e) && ByBalancer(e)
    ensures NoBug(Next(cfg, s, e))
  {
    match e
    case Force(c, p, target, crowded) => NominateNoBug(s, c, p, target, crowded);
    case NoTarget(c, none) => SetCpuNoBug(s, c, s.cpus[c].(push := none));
    case IdlePull(c, p, here, crowded) => NominateNoBug(s, c, p, here, crowded);
    case FinishMove(m, ok) =>
      var v := s.movers[m];
      TryMoveNoBug(s.(movers := s.movers[..m] + s.movers[m + 1..]), v.src, v.dst, v.task, ok);
    case Kick(c, here) => SetCpuNoBug(s, c, Activate(s.cpus[c], Ordinary, here, 0));
  }

  lemma StopperNoBug(cfg: Config, s: State, e: Event)
    requires WellFormed(cfg) && Handshakes(s) && NoBug(s) && Enabled(cfg, s, e) && ByStopper(e)
    ensures NoBug(Next(cfg, s, e))
  {
    match e
    case Queue(c, k) => StageNoBug(s, c, k, Waiting);
    case Start(c, k) => StageNoBug(s, c, k, Started(s.cpus[c].push));
    case Enter(c, k, crowded) => EnterNoBug(s, c, k, crowded);
    case Finish(c, k, choice, ok) => FinishNoBug(s, c, k, choice, ok);
  }

  lemma StepNoBug(cfg: Config, s: State, e: Event)
    requires WellFormed(cfg) && NoSelf(cfg) && Handshakes(s) && NoBug(s) && Enabled(cfg, s, e)
    ensures NoBug(Next(cfg, s, e))
  {
    if ByBalancer(e) { BalancerNoBug(cfg, s, e); }
    else if ByStopper(e) { StopperNoBug(cfg, s, e); }
    else if e.Balance? { TryMoveNoBug(s, s.tasks[e.p].cpu, e.dst, e.p, true); }
  }

  // --------------------------------------------------------------- whole runs

  ghost predicate Inv(cfg: Config, s: State)
    requires WellFormed(cfg)
  {
    Handshakes(s) && Placed(s) && Referenced(s) && (NoSelf(cfg) ==> NoBug(s))
  }

  /** Nothing pending, nothing held, every task where it belongs. */
  ghost predicate Initial(s: State) {
    && Placed(s) && s.movers == [] && s.puts == [] && !s.bug
    && (forall c :: 0 <= c < |s.cpus| ==> !s.cpus[c].active && s.cpus[c].stoppers == [])
    && (forall p :: 0 <= p < |s.tasks| ==> s.tasks[p].refs == 0)
  }

  lemma {:induction false} NobodyHolds(cs: seq<Cpu>, p: nat)
    requires forall c :: 0 <= c < |cs| ==> cs[c].stoppers == []
    ensures HeldByCpus(cs, p) == 0
  {
    if cs != [] {
      NobodyHolds(cs[1..], p);
    }
  }

  lemma StepKeepsInv(cfg: Config, s: State, e: Event)
    requires WellFormed(cfg) && Inv(cfg, s) && Enabled(cfg, s, e)
    ensures Inv(cfg, Next(cfg, s, e))
  {
    StepShakes(cfg, s, e);
    StepPlaced(cfg, s, e);
    StepReferenced(cfg, s, e);
    if NoSelf(cfg) { StepNoBug(cfg, s, e); }
  }

  lemma {:induction false} RunKeepsInv(cfg: Config, s: State, es: seq<Event>, t: State)
    requires WellFormed(cfg) && Inv(cfg, s) && IsRun(cfg, s, es, t)
    ensures Inv(cfg, t)
    decreases |es|
  {
    if es != [] {
      StepKeepsInv(cfg, s, es[0]);
      RunKeepsInv(cfg, Next(cfg, s, es[0]), es[1..], t);
    }
  }

  /** Over every interleaving: active_balance is set iff exactly one stopper is
      due, queued or running, and that stopper finds what it was set up with;
      references equal holders, so none is lost and none dropped twice; every
      queued task is on exactly one list; and without a CPU that is slower than
      itself no BUG_ON is reached. */
  lemma HandshakeHolds(cfg: Config, s: State, es: seq<Event>, t: State)
    requires WellFormed(cfg) && Initial(s) && IsRun(cfg, s, es, t)
    ensures Handshakes(t) && Placed(t) && Referenced(t)
    ensures NoSelf(cfg) ==> !t.bug
    ensures t.movers == [] && t.puts == [] && (forall c :: 0 <= c < |t.cpus| ==> !t.cpus[c].active)
            ==> forall p :: 0 <= p < |t.tasks| ==> t.tasks[p].refs == 0
  {
    forall p: nat | p < |s.tasks| ensures Held(s, p) == 0 {
      NobodyHolds(s.cpus, p);
    }
    RunKeepsInv(cfg, s, es, t);
    if t.movers == [] && t.puts == [] && (forall c :: 0 <= c < |t.cpus| ==> !t.cpus[c].active) {
      forall c | 0 <= c < |t.cpus| ensures t.cpus[c].stoppers == [] {
        assert Handshake(t.cpus[c]);
      }
      forall p: nat | p < |t.tasks| ensures t.tasks[p].refs == 0 {
        NobodyHolds(t.cpus, p);
      }
    }
  }

  /** A move that is possible puts the task on the other list and nowhere else,
      and leaves every other task alone. */
  lemma MoveArrives(s: State, src: nat, dst: nat, p: nat)
    requires Placed(s) && Movable(s, src, dst, p) && src != dst
    ensures var t := TryMove(s, src, dst, p, true);
            && t.tasks[p].cpu == dst && OnList(t, dst, p) && !OnList(t, src, p)
            && (forall q :: 0 <= q < |s.tasks| && q != p ==> t.tasks[q] == s.tasks[q])
  {
    assert OnList(s, src, p);
  }

  /** Task p is where it was nominated for, and on no other list, and
      active_balance is clear. */
  predicate Arrived(t: State, c: nat, dst: nat, p: nat) {
    c < |t.cpus| && p < |t.tasks| && t.tasks[p].cpu == dst && OnList(t, dst, p) && !OnList(t, c, p) && !t.cpus[c].active
  }

  /** It has arrived, and one reference on it is gone. */
  predicate Delivered(s: State, t: State, c: nat, dst: nat, p: nat) {
    Arrived(t, c, dst, p) && p < |s.tasks| && t.tasks[p].refs == s.tasks[p].refs - 1 && t.puts == s.puts
  }

  lemma FinishArrives(s: State, c: nat)
    requires Placed(s) && c < |s.cpus| && |s.cpus[c].stoppers| == 1
    requires var st := s.cpus[c].stoppers[0];
             st.kind.Forced? && st.stage == Locked(st.dst, st.nominee) && st.dst != c && Movable(s, c, st.dst, st.nominee)
    ensures var st, t := s.cpus[c].stoppers[0], Finished(s, c, 0, 0, true);
            && Arrived(t, c, st.dst, st.nominee) && t.tasks[st.nominee].refs == s.tasks[st.nominee].refs
            && t.puts == s.puts + [st.nominee]
  {
    var st := s.cpus[c].stoppers[0];
    MoveArrives(s, c, st.dst, st.nominee);
    TryMoveFrame(s, c, st.dst, st.nominee, true);
  }

  lemma PutDelivers(cfg: Config, s: State, t: State, c: nat, dst: nat, p: nat)
    requires WellFormed(cfg) && Arrived(t, c, dst, p) && t.puts == s.puts + [p]
    requires p < |s.tasks| && t.tasks[p].refs == s.tasks[p].refs
    ensures Enabled(cfg, t, Put(|s.puts|)) && Delivered(s, Next(cfg, t, Put(|s.puts|)), c, dst, p)
  {
    var n := |s.puts|;
    assert t.puts[..n] + t.puts[n + 1..] == s.puts;
  }

  /** What the stages before the move leave alone. */
  predicate Staged(s: State, t: State, c: nat, stage: Stage) {
    && c < |s.cpus| == |t.cpus| && |s.cpus[c].stoppers| == 1 && t.tasks == s.tasks && t.puts == s.puts
    && t.cpus == s.cpus[c := SetStage(s.cpus[c], 0, stage)]
  }

  lemma StagedKeeps(s: State, t: State, c: nat, stage: Stage)
    requires Staged(s, t, c, stage) && Placed(s)
    ensures Placed(t)
    ensures forall dst: nat, p: nat ::
              (Movable(s, c, dst, p) ==> Movable(t, c, dst, p)) && (Allowed(s, c, dst, p) ==> Allowed(t, c, dst, p))
  {
    SamePlacesPlaced(s, t);
  }

  lemma RunCons(cfg: Config, s: State, e: Event, es: seq<Event>, t: State)
    requires WellFormed(cfg) && Enabled(cfg, s, e) && IsRun(cfg, Next(cfg, s, e), es, t)
    ensures IsRun(cfg, s, [e] + es, t)
  {
    assert ([e] + es)[1..] == es;
  }

  /** From the moment a queued stopper reads push_cpu. */
  lemma WaitingDelivers(cfg: Config, s: State, c: nat) returns (es: seq<Event>, t: State)
    requires WellFormed(cfg) && Handshakes(s) && Placed(s) && c < |s.cpus| && |s.cpus[c].stoppers| == 1
    requires var st := s.cpus[c].stoppers[0];
             st.kind.Forced? && st.stage.Waiting? && st.dst != c && Movable(s, c, st.dst, st.nominee)
    ensures IsRun(cfg, s, es, t) && Delivered(s, t, c, s.cpus[c].stoppers[0].dst, s.cpus[c].stoppers[0].nominee)
  {
    var st := s.cpus[c].stoppers[0];
    var p := st.nominee;
    assert Handshake(s.cpus[c]) && Matches(s.cpus[c], st) && OnList(s, c, p);
    var s1 := Next(cfg, s, Start(c, 0));
    var s2 := Entered(s1, c, 0, true);
    StagedKeeps(s, s1, c, Started(st.dst));
    StagedKeeps(s1, s2, c, Locked(st.dst, p));
    var s3 := Finished(s2, c, 0, 0, true);
    FinishArrives(s2, c);
    PutDelivers(cfg, s, s3, c, st.dst, p);
    var e := Put(|s.puts|);
    t := Next(cfg, s3, e);
    es := [];
    RunCons(cfg, s3, e, es, t);
    es := [e] + es;
    RunCons(cfg, s2, Finish(c, 0, 0, true), es, t);
    es := [Finish(c, 0, 0, true)] + es;
    RunCons(cfg, s1, Enter(c, 0, true), es, t);
    es := [Enter(c, 0, true)] + es;
    RunCons(cfg, s, Start(c, 0), es, t);
    es := [Start(c, 0)] + es;
  }

  /** The stopper of a nomination, run to its end with nothing in between, moves
      the nominated task to where it was nominated for, if that is still allowed;
      it clears active_balance and then drops the reference. The task may be
      running: the stopper takes the CPU from it. */
  lemma StopperDelivers(cfg: Config, s: State, c: nat) returns (es: seq<Event>, t: State)
    requires WellFormed(cfg) && Handshakes(s) && Placed(s) && c < |s.cpus| && |s.cpus[c].stoppers| == 1
    requires var st := s.cpus[c].stoppers[0];
             st.kind.Forced? && st.stage.Due? && st.dst != c && Allowed(s, c, st.dst, st.nominee)
    ensures IsRun(cfg, s, es, t) && Delivered(s, t, c, s.cpus[c].stoppers[0].dst, s.cpus[c].stoppers[0].nominee)
  {
    var p := s.cpus[c].stoppers[0].nominee;
    var s1 := Next(cfg, s, Queue(c, 0));
    StagedKeeps(s, s1, c, Waiting);
    var s2 := Next(cfg, s1, Run(p, false));
    StepShakes(cfg, s, Queue(c, 0));
    StepShakes(cfg, s1, Run(p, false));
    StepPlaced(cfg, s1, Run(p, false));
    es, t := WaitingDelivers(cfg, s2, c);
    RunCons(cfg, s1, Run(p, false), es, t);
    es := [Run(p, false)] + es;
    RunCons(cfg, s, Queue(c, 0), es, t);
    es := [Queue(c, 0)] + es;
  }

  // ------------------------------------------------------------- what direct moves do

  /** A direct move that ends: the task is on the other list only, its reference is
      put, and every other task is as it was. */
  lemma DirectDelivers(cfg: Config, s: State, m: nat)
    requires WellFormed(cfg) && Placed(s) && m < |s.movers| && s.movers[m].src != s.movers[m].dst
    requires Movable(s, s.movers[m].src, s.movers[m].dst, s.movers[m].task)
    ensures var v, t := s.movers[m], Next(cfg, s, FinishMove(m, true));
            && |t.tasks| == |s.tasks| && t.tasks[v.task].cpu == v.dst
            && OnList(t, v.dst, v.task) && !OnList(t, v.src, v.task)
            && t.tasks[v.task].refs == s.tasks[v.task].refs - 1
            && (forall q :: 0 <= q < |s.tasks| && q != v.task ==> t.tasks[q] == s.tasks[q])
            && t.movers == s.movers[..m] + s.movers[m + 1..]
  {
    var v := s.movers[m];
    var r := s.(movers := s.movers[..m] + s.movers[m + 1..]);
    SamePlacesPlaced(s, r);
    MoveArrives(r, v.src, v.dst, v.task);
    TryMoveFrame(r, v.src, v.dst, v.task, true);
  }

  /** If the task may not go, it stays, and the reference is put all the same. */
  lemma DirectRefused(cfg: Config, s: State, m: nat, ok: bool)
    requires WellFormed(cfg) && m < |s.movers|
    requires !ok || !Movable(s, s.movers[m].src, s.movers[m].dst, s.movers[m].task)
    ensures var v, t := s.movers[m], Next(cfg, s, FinishMove(m, ok));
            && SamePlaces(s, t) && t.movers == s.movers[..m] + s.movers[m + 1..]
            && forall q :: 0 <= q < |s.tasks| ==> t.tasks[q].refs == s.tasks[q].refs - if q == v.task then 1 else 0
  {
  }

  /** Nominating a task that is not running puts a direct move on its way. */
  lemma NominateMoves(s: State, c: nat, p: nat, dst: nat)
    requires Handshakes(s) && c < |s.cpus| && p < |s.tasks| && !s.cpus[c].active && s.tasks[p].cpu == c && !s.tasks[p].running
    ensures var t := Nominate(s, c, p, dst, true);
            && t.movers == s.movers + [Mover(c, dst, p)] && |t.cpus| == |s.cpus| && |t.tasks| == |s.tasks|
            && t.tasks[p] == s.tasks[p].(refs := s.tasks[p].refs + 1) && SamePlaces(s, t)
            && !t.cpus[c].active
  {
  }

  /** Nominating a task that is running sets up the stopper for it. */
  lemma NominateStops(s: State, c: nat, p: nat, dst: nat)
    requires Handshakes(s) && c < |s.cpus| && p < |s.tasks| && !s.cpus[c].active && s.tasks[p].running
    ensures var t := Nominate(s, c, p, dst, true);
            && t.cpus == s.cpus[c := t.cpus[c]] && t.cpus[c].stoppers == [Stopper(Forced, dst, p, Due)]
            && |t.tasks| == |s.tasks| && t.tasks[p] == s.tasks[p].(refs := s.tasks[p].refs + 1) && SamePlaces(s, t)
            && t.puts == s.puts
  {
    assert Handshake(s.cpus[c]);
  }

  /** The task that is nominated, upwards or by an idle CPU, gets there: some run that
      begins with the nomination brings it to the target, whether it is running or not,
      and no reference is left behind. */
  lemma NominationDelivers(cfg: Config, s: State, e: Event, c: nat, p: nat, dst: nat) returns (es: seq<Event>, t: State)
    requires WellFormed(cfg) && Handshakes(s) && Placed(s) && Enabled(cfg, s, e)
    requires e == Force(c, p, dst, true) || (e == IdlePull(c, p, dst, true) && p in s.cpus[c].tasks && !s.cpus[c].active)
    requires c != dst && dst in s.tasks[p].allowed
    ensures es != [] && es[0] == e && IsRun(cfg, s, es, t)
    ensures Arrived(t, c, dst, p) && t.tasks[p].refs == s.tasks[p].refs
  {
    var s1 := Next(cfg, s, e);
    assert OnList(s, c, p);
    StepShakes(cfg, s, e);
    StepPlaced(cfg, s, e);
    if s.tasks[p].running {
      NominateStops(s, c, p, dst);
      es, t := StopperDelivers(cfg, s1, c);
    } else {
      NominateMoves(s, c, p, dst);
      var m := |s.movers|;
      assert s1.movers[m] == Mover(c, dst, p);
      DirectDelivers(cfg, s1, m);
      BalancerStable(cfg, s1, FinishMove(m, true));
      t := Next(cfg, s1, FinishMove(m, true));
      DirectLeavesFlag(s1, m, c);
      es := [];
      RunCons(cfg, s1, FinishMove(m, true), es, t);
      es := [FinishMove(m, true)] + es;
    }
    RunCons(cfg, s, e, es, t);
    es := [e] + es;
  }

  lemma DirectLeavesFlag(s: State, m: nat, c: nat)
    requires m < |s.movers| && c < |s.cpus|
    ensures c < |FinishedMove(s, m, true).cpus| && FinishedMove(s, m, true).cpus[c].active == s.cpus[c].active
  {
    var v := s.movers[m];
    var r := s.(movers := s.movers[..m] + s.movers[m + 1..]);
    TryMoveFrame(r, v.src, v.dst, v.task, true);
    assert r.cpus[c] == TryMove(r, v.src, v.dst, v.task, true).cpus[c].(tasks := r.cpus[c].tasks);
  }

  // ------------------------------------------------------- what ordinary stoppers do

  /** The end of an ordinary stopper: the task it chose is on the target's list only,
      nobody else has moved, and no reference has changed. */
  lemma OrdinaryFinishes(s: State, c: nat, choice: nat)
    requires Placed(s) && c < |s.cpus| && |s.cpus[c].stoppers| == 1
    requires var st := s.cpus[c].stoppers[0];
             st.kind.Ordinary? && st.stage.Locked? && st.stage.target == st.dst != c && Movable(s, c, st.dst, choice)
    ensures var t := Finished(s, c, 0, choice, true);
            && Arrived(t, c, s.cpus[c].stoppers[0].dst, choice) && |t.tasks| == |s.tasks|
            && t.tasks[choice].refs == s.tasks[choice].refs && t.puts == s.puts
            && (forall q :: 0 <= q < |s.tasks| && q != choice ==> t.tasks[q] == s.tasks[q])
  {
    var dst := s.cpus[c].stoppers[0].dst;
    MoveArrives(s, c, dst, choice);
    TryMoveFrame(s, c, dst, choice, true);
  }

  /** Active balancing of load_balance, run to its end with nothing in between, pulls
      one task that may go. */
  lemma KickDelivers(cfg: Config, s: State, c: nat, here: nat, choice: nat) returns (es: seq<Event>, t: State)
    requires WellFormed(cfg) && Handshakes(s) && Placed(s) && Enabled(cfg, s, Kick(c, here)) && !s.cpus[c].active
    requires Movable(s, c, here, choice)
    ensures es != [] && es[0] == Kick(c, here) && IsRun(cfg, s, es, t)
    ensures Arrived(t, c, here, choice) && |t.tasks| == |s.tasks| && t.puts == s.puts
    ensures forall q :: 0 <= q < |s.tasks| && q != choice ==> t.tasks[q] == s.tasks[q]
  {
    assert Handshake(s.cpus[c]);
    var s1 := Next(cfg, s, Kick(c, here));
    assert s1.cpus[c].stoppers == [Stopper(Ordinary, here, 0, Due)];
    SamePlacesPlaced(s, s1);
    var s2 := Next(cfg, s1, Queue(c, 0));
    StagedKeeps(s1, s2, c, Waiting);
    var s3 := Next(cfg, s2, Start(c, 0));
    StagedKeeps(s2, s3, c, Started(here));
    var s4 := Entered(s3, c, 0, true);
    StagedKeeps(s3, s4, c, Locked(here, s.cpus[c].migrateTask));
    OrdinaryFinishes(s4, c, choice);
    t := Finished(s4, c, 0, choice, true);
    es := [];
    RunCons(cfg, s4, Finish(c, 0, choice, true), es, t);
    es := [Finish(c, 0, choice, true)] + es;
    RunCons(cfg, s3, Enter(c, 0, true), es, t);
    es := [Enter(c, 0, true)] + es;
    RunCons(cfg, s2, Start(c, 0), es, t);
    es := [Start(c, 0)] + es;
    RunCons(cfg, s1, Queue(c, 0), es, t);
    es := [Queue(c, 0)] + es;
    RunCons(cfg, s, Kick(c, here), es, t);
    es := [Kick(c, here)] + es;
  }

  /** A stopper whose task may not go, or that finds no domain, moves nobody. */
  lemma StopperRefused(s: State, c: nat, k: nat, choice: nat, ok: bool)
    requires AtStage(s, c, k) && s.cpus[c].stoppers[k].stage.Locked?
    requires var st := s.cpus[c].stoppers[k];
             !ok || !Movable(s, c, st.stage.target, if st.kind.Forced? then st.stage.task else choice)
    ensures SamePlaces(s, Finished(s, c, k, choice, ok)) && !Finished(s, c, k, choice, ok).cpus[c].active
  {
  }

  /** A stopper that finds nothing to do, because its queue has only one task or the
      nominee has gone elsewhere, clears active_balance and ends without moving anybody;
      one of HMP still owes its put. */
  lemma StopperGivesUp(cfg: Config, s: State, c: nat, k: nat, crowded: bool)
    requires WellFormed(cfg) && Handshakes(s) && Enabled(cfg, s, Enter(c, k, crowded))
    requires var st := s.cpus[c].stoppers[k];
             !crowded || (st.kind.Forced? && !(st.nominee < |s.tasks| && s.tasks[st.nominee].cpu == c))
    ensures var st, t := s.cpus[c].stoppers[k], Next(cfg, s, Enter(c, k, crowded));
            && SamePlaces(s, t) && t.tasks == s.tasks && t.bug == s.bug && t.movers == s.movers
            && !t.cpus[c].active && t.cpus[c].stoppers == []
            && t.puts == s.puts + (if st.kind.Forced? then [st.nominee] else [])
  {
    assert Handshake(s.cpus[c]) && Matches(s.cpus[c], s.cpus[c].stoppers[k]);
    LeavePlaces(s, c, k, s.cpus[c].migrateTask);
    assert s.puts + [] == s.puts;
  }

  /** A nomination that comes to nothing, because the queue has only one task, leaves
      every task, every reference and every pending move as it was. */
  lemma NominationGivesUp(s: State, c: nat, p: nat, dst: nat)
    requires c < |s.cpus| && p < |s.tasks| && !s.cpus[c].active && !s.tasks[p].running
    ensures var t := Nominate(s, c, p, dst, false);
            t.tasks == s.tasks && t.movers == s.movers && t.puts == s.puts && SamePlaces(s, t) && !t.cpus[c].active
  {
    assert s.tasks[p := s.tasks[p]] == s.tasks;
  }

  /** A pending stopper is not disturbed: neither a nomination by an idle CPU nor a kick
      does anything while active_balance is set. */
  lemma PendingIsLeftAlone(cfg: Config, s: State, e: Event)
    requires WellFormed(cfg) && Enabled(cfg, s, e) && (e.IdlePull? || e.Kick?) && s.cpus[e.c].active
    ensures Next(cfg, s, e) == s
  {
  }

  /** What happens to tasks otherwise: one that sleeps is on no list, one that wakes is
      on the list of its new CPU only, one that load balancing moves on the destination's
      only; nobody else moves. */
  lemma TaskSteps(cfg: Config, s: State, e: Event, q: nat)
    requires WellFormed(cfg) && Placed(s) && Enabled(cfg, s, e) && (e.Sleep? || e.Wake? || e.Balance?)
    requires e.Balance? ==> e.dst != s.tasks[e.p].cpu
    ensures var t := Next(cfg, s, e);
            && Placed(t) && |t.tasks| == |s.tasks| && |t.cpus| == |s.cpus|
            && t.tasks[e.p].onRq == !e.Sleep? && (e.Sleep? ==> !t.tasks[e.p].running)
            && (e.Wake? ==> t.tasks[e.p].cpu == e.c) && (e.Balance? ==> t.tasks[e.p].cpu == e.dst)
            && (q < |s.tasks| && q != e.p ==> t.tasks[q] == s.tasks[q])
            && (q < |s.cpus| ==> (OnList(t, q, e.p) <==> !e.Sleep? && q == t.tasks[e.p].cpu))
  {
    StepPlaced(cfg, s, e);
    if e.Balance? { assert OnList(s, s.tasks[e.p].cpu, e.p); }
  }

  /** The condition is needed: a CPU in its own slower domain can reach BUG_ON. */
  lemma SelfReachesBug(cfg: Config, s: State, c: nat, p: nat)
    requires WellFormed(cfg) && Initial(s) && c < |s.cpus| && Slower(cfg, c, c)
    requires p < |s.tasks| && p in s.cpus[c].tasks && !s.tasks[p].running
    ensures var e := Force(c, p, c, true);
            Enabled(cfg, s, e) && Next(cfg, s, e).bug
  {
    assert OnList(s, c, p);
  }

  /** A new affinity holds at once, for moves that are pending too; and with nowhere to
      go push_cpu names no CPU. */
  lemma MaskHolds(cfg: Config, s: State, e: Event, src: nat, dst: nat)
    requires WellFormed(cfg) && Enabled(cfg, s, e) && (e.SetAffinity? || e.NoTarget?)
    ensures var t := Next(cfg, s, e);
            && SamePlaces(s, t) && t.movers == s.movers
            && (e.SetAffinity? && dst !in e.mask ==> !Movable(t, src, dst, e.p))
            && (e.SetAffinity? && dst in e.mask && Movable(s, src, dst, e.p) ==> Movable(t, src, dst, e.p))
            && (e.NoTarget? ==> t.cpus[e.c].push >= |t.cpus|)
  {
  }

  /** A stopper that goes on hits its BUG_ON exactly if it is set up for its own CPU. */
  lemma EnterBugIff(cfg: Config, s: State, c: nat, k: nat)
    requires WellFormed(cfg) && Handshakes(s) && Enabled(cfg, s, Enter(c, k, true))
    requires var st := s.cpus[c].stoppers[k];
             st.kind.Forced? ==> st.nominee < |s.tasks| && s.tasks[st.nominee].cpu == c
    ensures var st, t := s.cpus[c].stoppers[k], Next(cfg, s, Enter(c, k, true));
            t.cpus[c].stoppers[k].stage.Locked? && (t.bug <==> s.bug || st.dst == c)
  {
    assert Handshake(s.cpus[c]) && Matches(s.cpus[c], s.cpus[c].stoppers[k]);
  }

  /** So can the BUG_ON of the stopper, if the task is running. */
  lemma SelfReachesStopperBug(cfg: Config, s: State, c: nat, p: nat) returns (es: seq<Event>, t: State)
    requires WellFormed(cfg) && Initial(s) && c < |s.cpus| && Slower(cfg, c, c)
    requires p < |s.tasks| && p in s.cpus[c].tasks && s.tasks[p].running
    ensures IsRun(cfg, s, es, t) && t.bug
  {
    assert OnList(s, c, p);
    var s1 := Next(cfg, s, Force(c, p, c, true));
    NominateStops(s, c, p, c);
    StepShakes(cfg, s, Force(c, p, c, true));
    var s2 := Next(cfg, s1, Queue(c, 0));
    StepShakes(cfg, s1, Queue(c, 0));
    var s3 := Next(cfg, s2, Start(c, 0));
    StepShakes(cfg, s2, Start(c, 0));
    EnterBugIff(cfg, s3, c, 0);
    t := Next(cfg, s3, Enter(c, 0, true));
    es := [];
    RunCons(cfg, s3, Enter(c, 0, true), es, t);
    es := [Enter(c, 0, true)] + es;
    RunCons(cfg, s2, Start(c, 0), es, t);
    es := [Start(c, 0)] + es;
    RunCons(cfg, s1, Queue(c, 0), es, t);
    es := [Queue(c, 0)] + es;
    RunCons(cfg, s, Force(c, p, c, true), es, t);
    es := [Force(c, p, c, true)] + es;
  }
}
