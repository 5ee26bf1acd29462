// CFS bandwidth control of one task group as a protocol: a shared pool, one
// local pool per CPU, a period timer and a slack timer (backup/fair_mp.c,
// 2261-2894).
//
// A step is one critical section of cfs_b->lock together with the code that
// runs under the rq->lock of a single CPU around it. The fields of one queue
// are read and written under that CPU's rq->lock only, so nobody can tell such
// a step apart from its pieces. Wherever cfs_b->lock is dropped in
// mid-operation the step ends and anything may run before the next one.

module BandwidthProtocol {
  import opened Words

  /** Quota per period, the slice a CPU asks for, the amount a CPU keeps when it
      gives slack back, the period length and the length of a tick. */
  datatype Config = Config(quota: nat, slice: nat, keep: nat, period: nat, tick: nat)

  /** What the thread that holds this CPU's rq->lock is doing. `Free` means that
      the lock is not held across a gap. */
  datatype Phase =
    | Free
    | Assigning          // charged, about to take cfs_b->lock in assign_cfs_rq_runtime
    | StartForAssign     // bouncing inside __start_cfs_bandwidth, called from assign
    | StartForThrottle   // bouncing inside __start_cfs_bandwidth, called from throttle

  datatype Queue = Queue(remaining: int, expires: nat, throttled: bool, phase: Phase)

  /** The period timer's callback. `idle` is the value it would return now, so
      AtLoop(true) is a callback that has decided on HRTIMER_NORESTART unless it
      finds another overrun. */
  datatype Callback =
    | Absent
    | AtLoop(idle: bool)
    | Handing(runtime: nat, until: nat)

  datatype Slack = Resting | Giving(runtime: nat, until: nat)

  /** `refills` and `charged` only keep the books. */
  datatype State = State(
    queues: seq<Queue>,
    throttledList: seq<nat>,
    pool: nat,
    poolExpires: nat,
    idle: bool,
    timerActive: bool,
    timerQueued: bool,
    callback: Callback,
    slackQueued: bool,
    slack: Slack,
    refills: nat,
    charged: nat)

  datatype Event =
    | Charge(c: nat, delta: nat, clock: nat)
    | Assign(c: nat, clock: nat)
    | Throttle(c: nat)
    | Retry(c: nat)
    | GiveBack(c: nat, nearRefresh: bool)
    | TimerFires
    | PeriodElapsed(clock: nat)
    | CallbackReturns
    | HandTo(c: nat)
    | PassEnds
    | SlackFires(nearRefresh: bool)
    | SlackHandTo(c: nat)
    | SlackEnds

  // ---------------------------------------------------------------- the steps

  /** Where rq->lock can be taken: the CPU exists and nobody holds its lock. */
  predicate Unlocked(s: State, c: nat) {
    c < |s.queues| && s.queues[c].phase.Free?
  }

  predicate Bouncing(s: State, c: nat) {
    c < |s.queues| && (s.queues[c].phase.StartForAssign? || s.queues[c].phase.StartForThrottle?)
  }

  predicate Enabled(s: State, e: Event) {
    match e
    case Charge(c, _, _) => Unlocked(s, c)
    case Assign(c, _) => c < |s.queues| && s.queues[c].phase.Assigning?
    case Throttle(c) => Unlocked(s, c) && !s.queues[c].throttled && s.queues[c].remaining <= 0
    case Retry(c) => Bouncing(s, c)
    case GiveBack(c, _) => Unlocked(s, c)
    case TimerFires => s.timerQueued && s.callback.Absent?
    case PeriodElapsed(_) => s.callback.AtLoop?
    case CallbackReturns => s.callback.AtLoop?
    case HandTo(c) => s.callback.Handing? && s.callback.runtime > 0 && Unlocked(s, c)
    case PassEnds => s.callback.Handing?
    case SlackFires(_) => s.slackQueued && s.slack.Resting?
    case SlackHandTo(c) => s.slack.Giving? && s.slack.runtime > 0 && Unlocked(s, c)
    case SlackEnds => s.slack.Giving?
  }

  function SetQueue(s: State, c: nat, q: Queue): State
    requires c < |s.queues|
  {
    s.(queues := s.queues[c := q])
  }

  function SetPhase(s: State, c: nat, p: Phase): State
    requires c < |s.queues|
  {
    SetQueue(s, c, s.queues[c].(phase := p))
  }

  /** __refill_cfs_bandwidth_runtime */
  function Refill(cfg: Config, s: State, clock: nat): State {
    s.(pool := cfg.quota, poolExpires := Wrap(clock + cfg.period), refills := s.refills + 1)
  }

  /** expire_cfs_rq_runtime */
  function Expire(cfg: Config, s: State, q: Queue, clock: nat): Queue {
    if Signed(clock - q.expires) < 0 || q.remaining < 0 then q
    else if Signed(q.expires - s.poolExpires) >= 0 then q.(expires := Wrap(q.expires + cfg.tick))
    else q.(remaining := 0)
  }

  /** The part of assign_cfs_rq_runtime that follows the timer check. */
  function Take(cfg: Config, s: State, c: nat): State
    requires c < |s.queues|
  {
    var q := s.queues[c];
    var amount := Min(s.pool, Wrap(cfg.slice - q.remaining));
    var q' := Queue(q.remaining + amount,
                    if Signed(s.poolExpires - q.expires) > 0 then s.poolExpires else q.expires,
                    q.throttled, Free);
    SetQueue(s, c, q').(pool := s.pool - amount, idle := s.idle && s.pool == 0)
  }

  /** One turn of the loop in __start_cfs_bandwidth, with timer_active seen as 0:
      hrtimer_try_to_cancel fails exactly while the callback runs. */
  function StartTimer(s: State): State {
    s.(timerActive := true, timerQueued := true)
  }

  /** distribute_cfs_runtime's body for one queue. The request is computed in
      u64, so it is enormous for a queue that has more than one nanosecond. */
  function Request(q: Queue, left: nat): (r: nat)
    ensures r <= left
  {
    if !q.throttled then 0 else Min(Wrap(1 - q.remaining), left)
  }

  function Serve(s: State, c: nat, left: nat, until: nat): State
    requires c < |s.queues|
  {
    var q := s.queues[c];
    if !q.throttled then s else
    var remaining := q.remaining + Request(q, left);
    SetQueue(s, c, Queue(remaining, until, remaining <= 0, q.phase))
      .(throttledList := if remaining > 0 then Without(s.throttledList, c) else s.throttledList)
  }

  function Without(l: seq<nat>, c: nat): seq<nat> {
    if l == [] then [] else (if l[0] == c then [] else [l[0]]) + Without(l[1..], c)
  }

  /** Steps of the threads that hold one CPU's rq->lock; steps of the period
      timer; the rest belongs to the slack timer. */
  predicate ByThread(e: Event) {
    e.Charge? || e.Assign? || e.Throttle? || e.Retry? || e.GiveBack?
  }

  predicate ByPeriodTimer(e: Event) {
    e.TimerFires? || e.PeriodElapsed? || e.CallbackReturns? || e.HandTo? || e.PassEnds?
  }

  function NextThread(cfg: Config, s: State, e: Event): State
    requires Enabled(s, e) && ByThread(e)
  {
    match e
    case Charge(c, delta, clock) =>
      var q := s.queues[c];
      var q' := Expire(cfg, s, q.(remaining := q.remaining - delta), clock);
      SetQueue(s, c, q'.(phase := if q'.remaining > 0 then Free else Assigning))
        .(charged := s.charged + delta)
    case Assign(c, clock) =>
      if s.timerActive then Take(cfg, s, c)
      else if s.callback.Absent? then Take(cfg, StartTimer(Refill(cfg, s, clock)), c)
      else SetPhase(Refill(cfg, s, clock), c, StartForAssign)
    case Throttle(c) =>
      var s' := SetQueue(s, c, s.queues[c].(throttled := true))
                  .(throttledList := s.throttledList + [c]);
      if s'.timerActive then s'
      else if s'.callback.Absent? then StartTimer(s')
      else SetPhase(s', c, StartForThrottle)
    case Retry(c) =>
      if !s.timerActive && !s.callback.Absent? then s else
      var s' := if s.timerActive then s else StartTimer(s);
      if s.queues[c].phase.StartForAssign? then Take(cfg, s', c) else SetPhase(s', c, Free)
    case GiveBack(c, nearRefresh) =>
      var q := s.queues[c];
      var slack := q.remaining - cfg.keep;
      if slack <= 0 then s
      else if q.expires != s.poolExpires then SetQueue(s, c, q.(remaining := cfg.keep))
      else
        var kick := s.pool + slack > cfg.slice && s.throttledList != []
                    && s.callback.Absent? && !nearRefresh;
        SetQueue(s, c, q.(remaining := cfg.keep))
          .(pool := s.pool + slack, slackQueued := s.slackQueued || kick)
  }

  function NextPeriod(cfg: Config, s: State, e: Event): State
    requires Enabled(s, e) && ByPeriodTimer(e)
  {
    match e
    case TimerFires =>
      s.(timerQueued := false, callback := AtLoop(false))
    case PeriodElapsed(clock) =>
      if s.idle && s.throttledList == [] then s.(timerActive := false, callback := AtLoop(true)) else
      var s' := Refill(cfg, s, clock).(timerActive := true);
      if s.throttledList == [] then s'.(idle := true, callback := AtLoop(false))
      else if s'.pool > 0 then s'.(pool := 0, callback := Handing(s'.pool, s'.poolExpires))
      else s'.(idle := false, callback := AtLoop(false))
    case CallbackReturns =>
      s.(timerQueued := !s.callback.idle, callback := Absent)
    case HandTo(c) =>
      var left := s.callback.runtime - Request(s.queues[c], s.callback.runtime);
      Serve(s, c, s.callback.runtime, s.callback.until).(callback := s.callback.(runtime := left))
    case PassEnds =>
      if s.throttledList != [] && s.callback.runtime > 0 then s
      else s.(pool := s.callback.runtime, idle := false, callback := AtLoop(false))
  }

  function NextSlack(cfg: Config, s: State, e: Event): State
    requires Enabled(s, e) && !ByThread(e) && !ByPeriodTimer(e)
  {
    match e
    case SlackFires(nearRefresh) =>
      var s' := s.(slackQueued := false);
      if !s.callback.Absent? || nearRefresh || s.pool <= cfg.slice || s.pool == 0 then s'
      else s'.(pool := 0, slack := Giving(s.pool, s.poolExpires))
    case SlackHandTo(c) =>
      var left := s.slack.runtime - Request(s.queues[c], s.slack.runtime);
      Serve(s, c, s.slack.runtime, s.slack.until).(slack := s.slack.(runtime := left))
    case SlackEnds =>
      s.(pool := if s.slack.until == s.poolExpires then s.slack.runtime else s.pool,
         slack := Resting)
  }

  function Next(cfg: Config, s: State, e: Event): State
    requires Enabled(s, e)
  {
    if ByThread(e) then NextThread(cfg, s, e)
    else if ByPeriodTimer(e) then NextPeriod(cfg, s, e)
    else NextSlack(cfg, s, e)
  }

  /** A run is a start state and the events that happen one after the other. */
  ghost predicate IsRun(cfg: Config, s: State, es: seq<Event>, t: State)
    decreases |es|
  {
    if es == [] then t == s
    else Enabled(s, es[0]) && IsRun(cfg, Next(cfg, s, es[0]), es[1..], t)
  }

  predicate Initial(s: State) {
    && (forall c :: 0 <= c < |s.queues| ==> !s.queues[c].throttled && s.queues[c].phase.Free?)
    && s.throttledList == []
    && !s.timerActive && !s.timerQueued && s.callback.Absent?
    && !s.slackQueued && s.slack.Resting?
    && s.refills == 0 && s.charged == 0
  }

  // -------------------------------------------------------- no lost unthrottle

  predicate NoRepeats(l: seq<nat>) {
    forall i, j :: 0 <= i < j < |l| ==> l[i] != l[j]
  }

  /** The throttled list names each throttled queue once and nothing else. */
  ghost predicate ListAgrees(s: State) {
    && NoRepeats(s.throttledList)
    && (forall c :: c in s.throttledList ==> c < |s.queues| && s.queues[c].throttled)
    && (forall c :: 0 <= c < |s.queues| && s.queues[c].throttled ==> c in s.throttledList)
  }

  /** The period timer is queued, or its callback runs and will not return
      HRTIMER_NORESTART as things stand. */
  predicate TimerLive(s: State) {
    s.timerQueued || s.callback == AtLoop(false) || s.callback.Handing?
  }

  ghost predicate SomeoneStarting(s: State) {
    exists c :: Bouncing(s, c)
  }

  predicate TimerAgrees(s: State) {
    && (s.timerActive <==> TimerLive(s))
    && (s.timerQueued ==> s.callback.Absent?)
  }

  ghost predicate Inv(s: State) {
    ListAgrees(s) && TimerAgrees(s) && (s.throttledList != [] ==> s.timerActive || SomeoneStarting(s))
  }

  lemma {:induction false} WithoutMembers(l: seq<nat>, c: nat)
    ensures forall x :: x in Without(l, c) <==> x in l && x != c
    ensures NoRepeats(l) ==> NoRepeats(Without(l, c))
  {
    if l != [] {
      WithoutMembers(l[1..], c);
      var w := Without(l[1..], c);
      assert forall x :: x in l <==> x == l[0] || x in l[1..];
      assert forall x :: x in Without(l, c) <==> (x == l[0] && x != c) || x in w;
      if NoRepeats(l) {
        assert NoRepeats(l[1..]) by {
          forall i, j | 0 <= i < j < |l[1..]| ensures l[1..][i] != l[1..][j] {
            assert l[1..][i] == l[i + 1] && l[1..][j] == l[j + 1];
          }
        }
        assert l[0] !in w;
        if l[0] != c { assert Without(l, c) == [l[0]] + w; } else { assert Without(l, c) == w; }
      }
    }
  }

  /** Serving a queue keeps the list and the flags in agreement and leaves
      everybody's phase alone. */
  lemma ServeKeepsList(s: State, c: nat, left: nat, until: nat)
    requires ListAgrees(s) && Unlocked(s, c)
    ensures ListAgrees(Serve(s, c, left, until))
    ensures forall d :: Bouncing(s, d) <==> Bouncing(Serve(s, c, left, until), d)
    ensures Serve(s, c, left, until).throttledList != [] ==> s.throttledList != []
  {
    WithoutMembers(s.throttledList, c);
  }

  lemma ExpireFrame(cfg: Config, s: State, q: Queue, clock: nat)
    ensures Expire(cfg, s, q, clock).throttled == q.throttled
  {
  }

  lemma TakeFrame(cfg: Config, s: State, c: nat)
    requires c < |s.queues|
    ensures var t := Take(cfg, s, c);
            t.queues == s.queues[c := t.queues[c]] && t.queues[c].throttled == s.queues[c].throttled
            && t.queues[c].phase.Free? && t.throttledList == s.throttledList
            && t.timerActive == s.timerActive && t.timerQueued == s.timerQueued && t.callback == s.callback
  {
  }

  /** Only queue c changes, and throttling is the only thing that changes the flag
      or the list. */
  predicate Touches(s: State, t: State, c: nat, throttle: bool) {
    && c < |s.queues| == |t.queues|
    && (forall d :: 0 <= d < |s.queues| && d != c ==> t.queues[d] == s.queues[d])
    && t.queues[c].throttled == (throttle || s.queues[c].throttled)
    && t.throttledList == s.throttledList + (if throttle then [c] else [])
  }

  lemma AssignFrame(cfg: Config, s: State, c: nat, clock: nat)
    requires Enabled(s, Assign(c, clock))
    ensures Touches(s, NextThread(cfg, s, Assign(c, clock)), c, false)
  {
    TakeFrame(cfg, s, c);
    TakeFrame(cfg, StartTimer(Refill(cfg, s, clock)), c);
  }

  lemma RetryFrame(cfg: Config, s: State, c: nat)
    requires Enabled(s, Retry(c))
    ensures Touches(s, NextThread(cfg, s, Retry(c)), c, false)
  {
    TakeFrame(cfg, s, c);
    TakeFrame(cfg, StartTimer(s), c);
  }

  lemma ThreadFrame(cfg: Config, s: State, e: Event)
    requires Enabled(s, e) && ByThread(e)
    ensures Touches(s, NextThread(cfg, s, e), e.c, e.Throttle?)
  {
    match e
    case Charge(c, delta, clock) =>
      ExpireFrame(cfg, s, s.queues[c].(remaining := s.queues[c].remaining - delta), clock);
    case Assign(c, clock) => AssignFrame(cfg, s, c, clock);
    case Throttle(c) =>
    case Retry(c) => RetryFrame(cfg, s, c);
    case GiveBack(c, _) =>
  }

  lemma ThreadKeepsList(cfg: Config, s: State, e: Event)
    requires ListAgrees(s) && Enabled(s, e) && ByThread(e)
    ensures ListAgrees(NextThread(cfg, s, e))
  {
    ThreadFrame(cfg, s, e);
    var t := NextThread(cfg, s, e);
    ListAgreesAfter(s, t, e.c, e.Throttle?);
  }

  lemma ListAgreesAfter(s: State, t: State, c: nat, throttle: bool)
    requires ListAgrees(s) && Touches(s, t, c, throttle)
    requires throttle ==> !s.queues[c].throttled
    ensures ListAgrees(t)
  {
  }

  lemma StepKeepsList(cfg: Config, s: State, e: Event)
    requires ListAgrees(s) && Enabled(s, e)
    ensures ListAgrees(Next(cfg, s, e))
  {
    if ByThread(e) { ThreadKeepsList(cfg, s, e); }
    if e.HandTo? { ServeKeepsList(s, e.c, s.callback.runtime, s.callback.until); }
    if e.SlackHandTo? { ServeKeepsList(s, e.c, s.slack.runtime, s.slack.until); }
  }

  lemma ThreadKeepsTimer(cfg: Config, s: State, e: Event, d: nat)
    requires TimerAgrees(s) && Enabled(s, e) && ByThread(e)
    ensures TimerAgrees(NextThread(cfg, s, e))
    ensures Bouncing(s, d) ==> Bouncing(NextThread(cfg, s, e), d) || NextThread(cfg, s, e).timerActive
  {
    ThreadFrame(cfg, s, e);
    match e
    case Charge(_, _, _) =>
    case GiveBack(_, _) =>
    case Assign(_, _) =>
    case Throttle(_) =>
    case Retry(_) =>
  }

  lemma PeriodKeepsTimer(cfg: Config, s: State, e: Event, d: nat)
    requires TimerAgrees(s) && Enabled(s, e) && ByPeriodTimer(e)
    ensures TimerAgrees(NextPeriod(cfg, s, e))
    ensures Bouncing(s, d) ==> Bouncing(NextPeriod(cfg, s, e), d) || NextPeriod(cfg, s, e).timerActive
  {
  }

  /** timer_active goes on telling the truth, and nobody leaves
      __start_cfs_bandwidth with the timer inactive. */
  lemma StepKeepsTimer(cfg: Config, s: State, e: Event, d: nat)
    requires TimerAgrees(s) && Enabled(s, e)
    ensures TimerAgrees(Next(cfg, s, e))
    ensures Bouncing(s, d) ==> Bouncing(Next(cfg, s, e), d) || Next(cfg, s, e).timerActive
  {
    if ByThread(e) {
      ThreadKeepsTimer(cfg, s, e, d);
    } else if ByPeriodTimer(e) {
      PeriodKeepsTimer(cfg, s, e, d);
    } else {
      assert NextSlack(cfg, s, e).callback == s.callback;
    }
  }

  lemma StepKeepsRescue(cfg: Config, s: State, e: Event)
    requires Inv(s) && Enabled(s, e)
    ensures var t := Next(cfg, s, e); t.throttledList != [] ==> t.timerActive || SomeoneStarting(t)
  {
    if SomeoneStarting(s) {
      var d :| Bouncing(s, d);
      StepKeepsTimer(cfg, s, e, d);
    }
    if e.Throttle? && !Next(cfg, s, e).timerActive {
      assert Bouncing(Next(cfg, s, e), e.c);
    }
  }

  lemma StepKeepsInv(cfg: Config, s: State, e: Event)
    requires Inv(s) && Enabled(s, e)
    ensures Inv(Next(cfg, s, e))
  {
    StepKeepsList(cfg, s, e);
    StepKeepsTimer(cfg, s, e, 0);
    StepKeepsRescue(cfg, s, e);
  }

  lemma {:induction false} RunKeepsInv(cfg: Config, s: State, es: seq<Event>, t: State)
    requires Inv(s) && IsRun(cfg, s, es, t)
    ensures Inv(t)
    decreases |es|
  {
    if es != [] {
      StepKeepsInv(cfg, s, es[0]);
      RunKeepsInv(cfg, Next(cfg, s, es[0]), es[1..], t);
    }
  }

  /** In every interleaving, a throttled queue is never forgotten: the period
      timer is on its way to it, or a thread inside __start_cfs_bandwidth is
      still to arm it. timer_active tells the truth about the timer, and the
      throttled list about the throttled queues. */
  lemma NoLostUnthrottle(cfg: Config, s: State, es: seq<Event>, t: State)
    requires Initial(s) && IsRun(cfg, s, es, t)
    ensures (exists c :: 0 <= c < |t.queues| && t.queues[c].throttled) ==> TimerLive(t) || SomeoneStarting(t)
    ensures t.timerActive <==> TimerLive(t)
    ensures ListAgrees(t)
  {
    RunKeepsInv(cfg, s, es, t);
  }

  /** A thread that goes on bouncing waits for a callback that has decided to
      stop, holds no lock and needs none to return, after which the thread arms
      the timer. In particular it never waits for a callback that is handing out
      runtime, which may itself be waiting for the rq->lock the thread holds:
      the two cannot wait for each other. */
  lemma BouncingEnds(cfg: Config, s: State, es: seq<Event>, t: State, c: nat)
    requires Initial(s) && IsRun(cfg, s, es, t) && Bouncing(t, c)
    ensures Bouncing(Next(cfg, t, Retry(c)), c) <==> t.callback == AtLoop(true)
    ensures t.callback == AtLoop(true) ==>
              && Enabled(t, CallbackReturns)
              && var u := Next(cfg, t, CallbackReturns);
                 Bouncing(u, c) && Unlocked(Next(cfg, u, Retry(c)), c) && Next(cfg, u, Retry(c)).timerQueued
    ensures t.callback.Handing? ==> Unlocked(Next(cfg, t, Retry(c)), c)
  {
    RunKeepsInv(cfg, s, es, t);
  }

  /** Assigning fills a queue up to the slice, or takes all there is. */
  lemma TakeFills(cfg: Config, s: State, c: nat)
    requires c < |s.queues| && s.queues[c].remaining <= cfg.slice && cfg.slice - s.queues[c].remaining < U64
    ensures var t := Take(cfg, s, c);
            && t.queues[c].remaining == Min(cfg.slice, s.queues[c].remaining + s.pool)
            && t.pool + t.queues[c].remaining == s.pool + s.queues[c].remaining
            && (t.queues[c].remaining < cfg.slice ==> t.pool == 0)
  {
  }

  /** The step completes assign_cfs_rq_runtime: at once, or at the end of a bounce. */
  predicate CompletesAssign(s: State, e: Event)
    requires Enabled(s, e)
  {
    (e.Assign? || (e.Retry? && s.queues[e.c].phase.StartForAssign?)) && (s.timerActive || s.callback.Absent?)
  }

  /** Whoever asks for runtime gets it up to the slice, as far as the pool goes, after a
      refill if the timer was not active; the timer is active from then on, and the lock
      is released. */
  lemma AssignFills(cfg: Config, s: State, e: Event)
    requires Enabled(s, e) && CompletesAssign(s, e)
    requires s.queues[e.c].remaining <= cfg.slice && cfg.slice - s.queues[e.c].remaining < U64
    ensures var q, t := s.queues[e.c], Next(cfg, s, e);
            var pool := if e.Assign? && !s.timerActive then cfg.quota else s.pool;
            && t.queues[e.c].remaining == Min(cfg.slice, q.remaining + pool)
            && t.pool == pool - (t.queues[e.c].remaining - q.remaining)
            && t.queues[e.c].phase.Free? && t.timerActive && t.queues[e.c].throttled == q.throttled
  {
    var r := if e.Assign? && !s.timerActive then Refill(cfg, s, e.clock) else s;
    TakeFills(cfg, if s.timerActive then s else StartTimer(r), e.c);
  }

  // -------------------------------------------------------- quota conservation

  function SumRemaining(qs: seq<Queue>): int {
    if qs == [] then 0 else qs[0].remaining + SumRemaining(qs[1..])
  }

  lemma {:induction false} SumAfterUpdate(qs: seq<Queue>, c: nat, q: Queue)
    requires c < |qs|
    ensures SumRemaining(qs[c := q]) == SumRemaining(qs) - qs[c].remaining + q.remaining
  {
    if c == 0 {
      assert qs[c := q][1..] == qs[1..];
    } else {
      assert qs[c := q][1..] == qs[1..][c - 1 := q];
      SumAfterUpdate(qs[1..], c - 1, q);
    }
  }

  function InFlight(s: State): nat {
    (if s.callback.Handing? then s.callback.runtime else 0) + (if s.slack.Giving? then s.slack.runtime else 0)
  }

  /** Everything that was ever handed out and where it is now: in the shared
      pool, in the hands of a timer, in the local pools, or used up. */
  function Books(s: State): int {
    s.pool + InFlight(s) + SumRemaining(s.queues) + s.charged
  }

  lemma SetQueueBooks(s: State, c: nat, q: Queue)
    requires c < |s.queues|
    ensures Books(SetQueue(s, c, q)) == Books(s) - s.queues[c].remaining + q.remaining
  {
    SumAfterUpdate(s.queues, c, q);
  }

  lemma TakeConserves(cfg: Config, s: State, c: nat)
    requires c < |s.queues|
    ensures Books(Take(cfg, s, c)) == Books(s)
  {
    SumAfterUpdate(s.queues, c, Take(cfg, s, c).queues[c]);
  }

  lemma ServeMoves(s: State, c: nat, left: nat, until: nat)
    requires c < |s.queues|
    ensures SumRemaining(Serve(s, c, left, until).queues) == SumRemaining(s.queues) + Request(s.queues[c], left)
  {
    if s.queues[c].throttled {
      SumAfterUpdate(s.queues, c, Serve(s, c, left, until).queues[c]);
    }
  }

  /** The queue's deadline has passed on this clock, and the pool's is ahead of it. */
  predicate Stale(s: State, q: Queue, clock: nat) {
    Signed(clock - q.expires) >= 0 && Signed(q.expires - s.poolExpires) < 0
  }

  /** Runtime of an earlier period that is still in a queue when it is charged. */
  function Expired(s: State, e: Event): nat
    requires Enabled(s, e)
  {
    if e.Charge? && s.queues[e.c].remaining > e.delta && Stale(s, s.queues[e.c], e.clock)
    then s.queues[e.c].remaining - e.delta else 0
  }

  /** Does the step start a new period's quota? */
  predicate Refills(s: State, e: Event) {
    || (e.Assign? && !s.timerActive)
    || (e.PeriodElapsed? && !(s.idle && s.throttledList == []))
  }

  /** What is in the pool when a refill or the end of a timer's pass overwrites it. */
  function Overwritten(s: State, e: Event): nat
    requires Enabled(s, e)
  {
    if || Refills(s, e)
       || (e.PassEnds? && (s.throttledList == [] || s.callback.runtime == 0))
       || (e.SlackEnds? && s.slack.until == s.poolExpires)
    then s.pool else 0
  }

  /** What comes back from an earlier period: a queue's slack, or what is left of
      the slack timer's pass. */
  function TooLate(cfg: Config, s: State, e: Event): nat
    requires Enabled(s, e)
  {
    if e.GiveBack? && s.queues[e.c].remaining > cfg.keep && s.queues[e.c].expires != s.poolExpires
    then s.queues[e.c].remaining - cfg.keep
    else if e.SlackEnds? && s.slack.until != s.poolExpires then s.slack.runtime
    else 0
  }

  function Forfeited(cfg: Config, s: State, e: Event): nat
    requires Enabled(s, e)
  {
    Expired(s, e) + Overwritten(s, e) + TooLate(cfg, s, e)
  }

  /** The exact effect of a step on the books. */
  ghost predicate Balanced(cfg: Config, s: State, e: Event, t: State)
    requires Enabled(s, e)
  {
    && t.refills == s.refills + (if Refills(s, e) then 1 else 0)
    && Books(t) == Books(s) + (if Refills(s, e) then cfg.quota else 0) - Forfeited(cfg, s, e)
  }

  /** What charging leaves in a queue: runtime of an earlier period is gone, and
      whoever has none left goes on to be assigned some. */
  lemma ChargeExpires(cfg: Config, s: State, c: nat, delta: nat, clock: nat)
    requires Enabled(s, Charge(c, delta, clock))
    ensures var q, q' := s.queues[c], Next(cfg, s, Charge(c, delta, clock)).queues[c];
            && q'.remaining == q.remaining - delta - Expired(s, Charge(c, delta, clock))
            && (q'.remaining > 0 ==> Signed(clock - q.expires) < 0 || Signed(q.expires - s.poolExpires) >= 0)
            && (q'.phase.Free? <==> q'.remaining > 0) && q'.throttled == q.throttled
            && q'.expires == if Signed(clock - q.expires) >= 0 && q.remaining >= delta && Signed(q.expires - s.poolExpires) >= 0
                             then Wrap(q.expires + cfg.tick) else q.expires
  {
  }

  lemma RetryConserves(cfg: Config, s: State, c: nat)
    requires Enabled(s, Retry(c))
    ensures Balanced(cfg, s, Retry(c), NextThread(cfg, s, Retry(c)))
  {
    if s.timerActive || s.callback.Absent? {
      var s' := if s.timerActive then s else StartTimer(s);
      TakeConserves(cfg, s', c);
      SetQueueBooks(s', c, s.queues[c].(phase := Free));
    }
  }

  lemma AssignConserves(cfg: Config, s: State, c: nat, clock: nat)
    requires Enabled(s, Assign(c, clock))
    ensures Balanced(cfg, s, Assign(c, clock), NextThread(cfg, s, Assign(c, clock)))
  {
    var r := Refill(cfg, s, clock);
    assert Books(r) == Books(s) + cfg.quota - s.pool;
    TakeConserves(cfg, s, c);
    TakeConserves(cfg, StartTimer(r), c);
    SetQueueBooks(r, c, r.queues[c].(phase := StartForAssign));
  }

  lemma ChargeConserves(cfg: Config, s: State, c: nat, delta: nat, clock: nat)
    requires Enabled(s, Charge(c, delta, clock))
    ensures Balanced(cfg, s, Charge(c, delta, clock), NextThread(cfg, s, Charge(c, delta, clock)))
  {
    ChargeExpires(cfg, s, c, delta, clock);
    SetQueueBooks(s, c, NextThread(cfg, s, Charge(c, delta, clock)).queues[c]);
  }

  lemma GiveBackConserves(cfg: Config, s: State, c: nat, nearRefresh: bool)
    requires Enabled(s, GiveBack(c, nearRefresh))
    ensures Balanced(cfg, s, GiveBack(c, nearRefresh), NextThread(cfg, s, GiveBack(c, nearRefresh)))
  {
    SetQueueBooks(s, c, s.queues[c].(remaining := cfg.keep));
  }

  lemma ThrottleConserves(cfg: Config, s: State, c: nat)
    requires Enabled(s, Throttle(c))
    ensures Balanced(cfg, s, Throttle(c), NextThread(cfg, s, Throttle(c)))
  {
    var q := NextThread(cfg, s, Throttle(c)).queues[c];
    SetQueueBooks(s, c, q);
    assert s.queues[c := s.queues[c].(throttled := true)][c := q] == s.queues[c := q];
  }

  lemma ThreadStepConserves(cfg: Config, s: State, e: Event)
    requires Enabled(s, e) && ByThread(e)
    ensures Balanced(cfg, s, e, NextThread(cfg, s, e))
  {
    match e
    case Charge(c, delta, clock) => ChargeConserves(cfg, s, c, delta, clock);
    case GiveBack(c, nearRefresh) => GiveBackConserves(cfg, s, c, nearRefresh);
    case Throttle(c) => ThrottleConserves(cfg, s, c);
    case Retry(c) => RetryConserves(cfg, s, c);
    case Assign(c, clock) => AssignConserves(cfg, s, c, clock);
  }

  /** Serving a queue touches nothing but that queue and the list. */
  lemma ServeFrame(s: State, c: nat, left: nat, until: nat)
    requires c < |s.queues|
    ensures var t := Serve(s, c, left, until);
            s == t.(queues := s.queues, throttledList := s.throttledList)
  {
  }

  lemma HandToConserves(cfg: Config, s: State, c: nat)
    requires Enabled(s, HandTo(c))
    ensures Balanced(cfg, s, HandTo(c), NextPeriod(cfg, s, HandTo(c)))
  {
    ServeMoves(s, c, s.callback.runtime, s.callback.until);
    ServeFrame(s, c, s.callback.runtime, s.callback.until);
  }

  lemma PeriodElapsedConserves(cfg: Config, s: State, clock: nat)
    requires Enabled(s, PeriodElapsed(clock))
    ensures Balanced(cfg, s, PeriodElapsed(clock), NextPeriod(cfg, s, PeriodElapsed(clock)))
  {
  }

  lemma PassEndsConserves(cfg: Config, s: State)
    requires Enabled(s, PassEnds)
    ensures Balanced(cfg, s, PassEnds, NextPeriod(cfg, s, PassEnds))
  {
  }

  lemma PeriodStepConserves(cfg: Config, s: State, e: Event)
    requires Enabled(s, e) && ByPeriodTimer(e)
    ensures Balanced(cfg, s, e, NextPeriod(cfg, s, e))
  {
    match e
    case HandTo(c) => HandToConserves(cfg, s, c);
    case PeriodElapsed(clock) => PeriodElapsedConserves(cfg, s, clock);
    case PassEnds => PassEndsConserves(cfg, s);
    case TimerFires =>
    case CallbackReturns =>
  }

  lemma SlackStepConserves(cfg: Config, s: State, e: Event)
    requires Enabled(s, e) && !ByThread(e) && !ByPeriodTimer(e)
    ensures Balanced(cfg, s, e, NextSlack(cfg, s, e))
  {
    if e.SlackHandTo? {
      ServeMoves(s, e.c, s.slack.runtime, s.slack.until);
      ServeFrame(s, e.c, s.slack.runtime, s.slack.until);
    }
  }

  /** What a step does to the books, exactly: a refill adds the quota, and what is
      taken out is what expired in a queue, what the pool held when it was
      overwritten, and what came back too late. */
  lemma StepConserves(cfg: Config, s: State, e: Event)
    requires Enabled(s, e)
    ensures Balanced(cfg, s, e, Next(cfg, s, e))
  {
    if ByThread(e) { ThreadStepConserves(cfg, s, e); }
    else if ByPeriodTimer(e) { PeriodStepConserves(cfg, s, e); }
    else { SlackStepConserves(cfg, s, e); }
  }

  /** What is forfeited along a run. */
  ghost function Lost(cfg: Config, s: State, es: seq<Event>, t: State): nat
    requires IsRun(cfg, s, es, t)
    decreases |es|
  {
    if es == [] then 0 else Forfeited(cfg, s, es[0]) + Lost(cfg, Next(cfg, s, es[0]), es[1..], t)
  }

  lemma OneMoreStep(quota: nat, r0: nat, r1: nat, r2: nat, b0: int, b1: int, b2: int, f: nat, rest: nat)
    requires r0 <= r1 <= r0 + 1 && r1 <= r2
    requires b1 == b0 + (if r1 > r0 then quota else 0) - f && b2 == b1 + quota * (r2 - r1) - rest
    ensures b2 == b0 + quota * (r2 - r0) - (f + rest)
  {
    if r1 > r0 {
      assert quota * (r2 - r0) == quota * (r2 - r1) + quota;
    }
  }

  lemma {:induction false} RunConserves(cfg: Config, s: State, es: seq<Event>, t: State)
    requires IsRun(cfg, s, es, t)
    ensures s.refills <= t.refills
    ensures Books(t) == Books(s) + cfg.quota * (t.refills - s.refills) - Lost(cfg, s, es, t)
    decreases |es|
  {
    if es != [] {
      var m := Next(cfg, s, es[0]);
      StepConserves(cfg, s, es[0]);
      RunConserves(cfg, m, es[1..], t);
      OneMoreStep(cfg.quota, s.refills, m.refills, t.refills, Books(s), Books(m), Books(t),
                  Forfeited(cfg, s, es[0]), Lost(cfg, m, es[1..], t));
    }
  }

  /** Over whole runs what the group has used, holds and has on its way is what it
      started with plus one quota per refill, less exactly what was forfeited on
      the way, although three windows leave the pool unlocked. */
  lemma QuotaConserved(cfg: Config, s: State, es: seq<Event>, t: State)
    requires Initial(s) && IsRun(cfg, s, es, t)
    ensures t.pool + InFlight(t) + SumRemaining(t.queues) + t.charged
         == s.pool + SumRemaining(s.queues) + cfg.quota * t.refills - Lost(cfg, s, es, t)
  {
    RunConserves(cfg, s, es, t);
  }

  // ------------------------------------------------------------------ deadlines

  /** The pool's deadline moves with a refill and with nothing else. */
  lemma DeadlineMoves(cfg: Config, s: State, e: Event)
    requires Enabled(s, e)
    ensures Next(cfg, s, e).poolExpires
         == if Refills(s, e) then Wrap((if e.Assign? then e.clock else if e.PeriodElapsed? then e.clock else 0) + cfg.period)
            else s.poolExpires
  {
  }

  /** Runtime that has just been assigned is not stale, whatever the clock says, if and
      only if the two deadlines were not exactly half the range of a u64 apart. */
  lemma AssignedIsFresh(cfg: Config, s: State, c: nat)
    requires c < |s.queues| && s.poolExpires < U64 && s.queues[c].expires < U64
    ensures var t := Take(cfg, s, c);
            (forall clock: nat :: !Stale(t, t.queues[c], clock)) <==> Wrap(s.poolExpires - s.queues[c].expires) != U64 / 2
    ensures var x := Take(cfg, s, c).queues[c].expires; x == s.poolExpires || x == s.queues[c].expires
  {
    var t, d := Take(cfg, s, c), s.poolExpires - s.queues[c].expires;
    SameDeadline();
    NegatedSign(d);
    if Wrap(d) == U64 / 2 {
      assert t.queues[c].expires == s.queues[c].expires;
      assert Stale(t, t.queues[c], t.queues[c].expires);
    }
  }

  lemma SameDeadline()
    ensures Signed(0) == 0
  {
  }

  lemma Remainder(d: int)
    requires -U64 < d < U64
    ensures d % U64 == if d >= 0 then d else d + U64
  {
    if d < 0 { assert (d + U64) % U64 == d % U64; }
  }

  lemma NegatedSign(d: int)
    requires -U64 < d < U64
    ensures Wrap(d) != U64 / 2 ==> Signed(0 - d) == 0 - Signed(d)
    ensures Wrap(d) == U64 / 2 ==> Signed(d) == Signed(0 - d) == 0 - U64 / 2
  {
    Remainder(d);
    Remainder(0 - d);
  }

  /** While the period timer hands out runtime, the deadline it hands out is the pool's. */
  predicate HandsFresh(s: State) {
    s.callback.Handing? ==> s.callback.until == s.poolExpires
  }

  lemma StepHandsFresh(cfg: Config, s: State, e: Event)
    requires TimerAgrees(s) && HandsFresh(s) && Enabled(s, e)
    ensures HandsFresh(Next(cfg, s, e))
  {
    DeadlineMoves(cfg, s, e);
  }

  lemma {:induction false} RunHandsFresh(cfg: Config, s: State, es: seq<Event>, t: State)
    requires Inv(s) && HandsFresh(s) && IsRun(cfg, s, es, t)
    ensures HandsFresh(t)
    decreases |es|
  {
    if es != [] {
      StepKeepsInv(cfg, s, es[0]);
      StepHandsFresh(cfg, s, es[0]);
      RunHandsFresh(cfg, Next(cfg, s, es[0]), es[1..], t);
    }
  }

  /** Over every run: what the period timer hands to a queue expires with the pool. */
  lemma HandedExpiresWithPool(cfg: Config, s0: State, es: seq<Event>, s: State, c: nat)
    requires Initial(s0) && IsRun(cfg, s0, es, s) && Enabled(s, HandTo(c)) && s.queues[c].throttled
    ensures var t := Next(cfg, s, HandTo(c)); t.queues[c].expires == t.poolExpires == s.poolExpires
  {
    RunHandsFresh(cfg, s0, es, s);
  }

  // ----------------------------------------------------------- when the timer stops

  /** The step assigns runtime from a pool that is not empty. */
  predicate HandsOut(cfg: Config, s: State, e: Event)
    requires Enabled(s, e)
  {
    || (e.Assign? && if s.timerActive then s.pool > 0 else s.callback.Absent? && cfg.quota > 0)
    || (e.Retry? && s.queues[e.c].phase.StartForAssign? && (s.timerActive || s.callback.Absent?) && s.pool > 0)
  }

  /** How cfs_b->idle changes. */
  lemma IdleChanges(cfg: Config, s: State, e: Event)
    requires Enabled(s, e)
    ensures Next(cfg, s, e).idle
            <==> if e.PeriodElapsed? then s.throttledList == [] || (s.idle && cfg.quota > 0)
                 else if e.PassEnds? then s.idle && s.throttledList != [] && s.callback.runtime > 0
                 else s.idle && !HandsOut(cfg, s, e)
  {
    match e
    case Assign(c, clock) => IdleAfterAssign(cfg, s, c, clock);
    case Retry(c) =>
    case PeriodElapsed(_) =>
    case PassEnds =>
    case _ =>
  }

  lemma IdleAfterAssign(cfg: Config, s: State, c: nat, clock: nat)
    requires Enabled(s, Assign(c, clock))
    ensures Next(cfg, s, Assign(c, clock)).idle <==> s.idle && !HandsOut(cfg, s, Assign(c, clock))
  {
  }

  /** Nothing is handed out along the run. */
  ghost predicate Quiet(cfg: Config, s: State, es: seq<Event>, t: State)
    requires IsRun(cfg, s, es, t)
    decreases |es|
  {
    es != [] ==> !HandsOut(cfg, s, es[0]) && Quiet(cfg, Next(cfg, s, es[0]), es[1..], t)
  }

  /** If cfs_b->idle is still set when the period ends, nothing was handed out since it
      was set; so the timer stops only after a period in which nobody needed it. */
  lemma {:induction false} IdleMeansQuiet(cfg: Config, s: State, es: seq<Event>, t: State)
    requires IsRun(cfg, s, es, t) && t.idle && forall i :: 0 <= i < |es| ==> !es[i].PeriodElapsed?
    ensures s.idle && Quiet(cfg, s, es, t)
    decreases |es|
  {
    if es != [] {
      IdleMeansQuiet(cfg, Next(cfg, s, es[0]), es[1..], t);
      IdleChanges(cfg, s, es[0]);
    }
  }

  /** The callback stops the timer exactly if the group is idle and nothing is
      throttled. */
  lemma StopsIff(cfg: Config, s: State, clock: nat)
    requires Enabled(s, PeriodElapsed(clock))
    ensures Next(cfg, s, PeriodElapsed(clock)).callback == AtLoop(true) <==> s.idle && s.throttledList == []
    ensures Next(cfg, s, PeriodElapsed(clock)).timerActive <==> !(s.idle && s.throttledList == [])
  {
  }

  // ------------------------------------------------------------------ giving back

  /** A queue that gives back keeps at most cfg.keep. What it gives is offered to the
      throttled queues by the slack timer, if there is then more than a slice in the pool,
      unless the period timer is at work or about to be. */
  lemma GiveBackOffers(cfg: Config, s: State, c: nat, nearRefresh: bool)
    requires Enabled(s, GiveBack(c, nearRefresh))
    ensures var q, t := s.queues[c], Next(cfg, s, GiveBack(c, nearRefresh));
            var given := q.remaining > cfg.keep && q.expires == s.poolExpires;
            && t.queues[c] == q.(remaining := Min(q.remaining, cfg.keep))
            && t.pool == s.pool + (if given then q.remaining - cfg.keep else 0)
            && (t.slackQueued <==> s.slackQueued || (given && t.pool > cfg.slice && s.throttledList != []
                                                     && s.callback.Absent? && !nearRefresh))
  {
  }

  /** The slack timer takes the whole pool if it holds more than a slice and the period
      timer is neither at work nor about to be; otherwise it leaves everything alone. */
  lemma SlackTakes(cfg: Config, s: State, nearRefresh: bool)
    requires Enabled(s, SlackFires(nearRefresh))
    ensures var t := Next(cfg, s, SlackFires(nearRefresh));
            && !t.slackQueued && t.queues == s.queues && t.throttledList == s.throttledList
            && (if s.callback.Absent? && !nearRefresh && s.pool > cfg.slice
                then t.slack == Giving(s.pool, s.poolExpires) && t.pool == 0
                else t.slack == Resting && t.pool == s.pool)
  {
  }
}
