// What bandwidth control does for a throttled queue, over runs in which the
// throttled list is served in order, as distribute_cfs_runtime does
// (backup/fair_mp.c, 2539-2660, 2745-2773).
//
// BandwidthProtocol lets a pass serve any queue and stop at any time. That only
// adds runs, so what it proves of all runs holds; what is shown here to be
// possible, or to be the outcome of a pass, is about runs in list order.

module BandwidthOrder {
  import opened BandwidthProtocol
  import opened Words
  import P = BandwidthPass

  // ------------------------------------------------------------ runs in order

  /** A pass serves the head of the list, and ends when the list or the money has
      run out. A queue that stays on the list has taken all the money, so the
      next one served is always the head. */
  predicate InOrder(s: State, e: Event) {
    match e
    case HandTo(c) => s.throttledList != [] && c == s.throttledList[0]
    case SlackHandTo(c) => s.throttledList != [] && c == s.throttledList[0]
    case PassEnds => s.throttledList == [] || (s.callback.Handing? && s.callback.runtime == 0)
    case SlackEnds => s.throttledList == [] || (s.slack.Giving? && s.slack.runtime == 0)
    case _ => true
  }

  ghost predicate OrderedRun(cfg: Config, s: State, es: seq<Event>, t: State)
    decreases |es|
  {
    if es == [] then t == s
    else Enabled(s, es[0]) && InOrder(s, es[0]) && OrderedRun(cfg, Next(cfg, s, es[0]), es[1..], t)
  }

  lemma {:induction false} OrderedIsRun(cfg: Config, s: State, es: seq<Event>, t: State)
    requires OrderedRun(cfg, s, es, t)
    ensures IsRun(cfg, s, es, t)
    decreases |es|
  {
    if es != [] {
      OrderedIsRun(cfg, Next(cfg, s, es[0]), es[1..], t);
    }
  }

  lemma OrderedCons(cfg: Config, s: State, e: Event, es: seq<Event>, t: State)
    requires Enabled(s, e) && InOrder(s, e) && OrderedRun(cfg, Next(cfg, s, e), es, t)
    ensures OrderedRun(cfg, s, [e] + es, t)
  {
    assert ([e] + es)[1..] == es;
  }

  lemma {:induction false} OrderedAppend(cfg: Config, s: State, es: seq<Event>, m: State, fs: seq<Event>, t: State)
    requires OrderedRun(cfg, s, es, m) && OrderedRun(cfg, m, fs, t)
    ensures OrderedRun(cfg, s, es + fs, t)
    decreases |es|
  {
    if es == [] {
      assert es + fs == fs;
    } else {
      assert (es + fs)[1..] == es[1..] + fs;
      OrderedAppend(cfg, Next(cfg, s, es[0]), es[1..], m, fs, t);
    }
  }

  // ------------------------------------------------------------- one queue served

  /** Queue c is throttled, and its debt is that of an s64. */
  predicate Waits(s: State, c: nat) {
    c < |s.queues| && s.queues[c].throttled && 1 - s.queues[c].remaining < U64
  }

  /** The queue runs again, has time left, and is off the list. */
  predicate Rescued(s: State, c: nat) {
    c < |s.queues| && !s.queues[c].throttled && s.queues[c].remaining > 0 && c !in s.throttledList
  }

  /** What serving a queue achieves: it is freed if it is solvent or the money
      covers its debt; otherwise it takes all the money and stays. */
  lemma ServeOutcome(s: State, c: nat, left: nat, until: nat)
    requires Waits(s, c)
    ensures var t, need := Serve(s, c, left, until), 1 - s.queues[c].remaining;
            && t.queues[c].phase == s.queues[c].phase
            && (need <= left ==> Rescued(t, c))
            && (0 <= need <= left ==> t.queues[c].remaining == 1 && Request(s.queues[c], left) == need)
            && (need > left ==> Waits(t, c) && t.queues[c].remaining == s.queues[c].remaining + left
                                && Request(s.queues[c], left) == left && t.throttledList == s.throttledList)
  {
    WithoutMembers(s.throttledList, c);
  }

  lemma {:induction false} WithoutAbsent(l: seq<nat>, c: nat)
    requires c !in l
    ensures Without(l, c) == l
  {
    if l != [] {
      WithoutAbsent(l[1..], c);
    }
  }

  lemma WithoutHead(l: seq<nat>)
    requires NoRepeats(l) && l != []
    ensures Without(l, l[0]) == l[1..] && l[0] !in l[1..] && NoRepeats(l[1..])
  {
    WithoutAbsent(l[1..], l[0]);
  }

  // ------------------------------------------------------------------ whole passes

  /** Whose pass it is: the period timer's or the slack timer's. */
  datatype Giver = Period | Slacker

  predicate Gives(s: State, g: Giver) {
    if g.Period? then s.callback.Handing? else s.slack.Giving?
  }

  function Money(s: State, g: Giver): nat
    requires Gives(s, g)
  {
    if g.Period? then s.callback.runtime else s.slack.runtime
  }

  function Hand(g: Giver, c: nat): Event {
    if g.Period? then HandTo(c) else SlackHandTo(c)
  }

  predicate AllFree(s: State) {
    forall c :: 0 <= c < |s.queues| ==> s.queues[c].phase.Free?
  }

  function RemainingOf(qs: seq<Queue>, c: nat): int {
    if c < |qs| then qs[c].remaining else 0
  }

  /** The throttled queues as a pass sees them, in list order. */
  function Locals(qs: seq<Queue>, l: seq<nat>): (ls: seq<P.Local>)
    ensures |ls| == |l|
  {
    if l == [] then [] else [P.Local(l[0], RemainingOf(qs, l[0]))] + Locals(qs, l[1..])
  }

  lemma {:induction false} LocalsSame(qs: seq<Queue>, rs: seq<Queue>, l: seq<nat>)
    requires forall c: nat :: c in l ==> RemainingOf(rs, c) == RemainingOf(qs, c)
    ensures Locals(rs, l) == Locals(qs, l)
  {
    if l != [] {
      LocalsSame(qs, rs, l[1..]);
    }
  }

  ghost predicate Listed(s: State) {
    && ListAgrees(s)
    && (forall i :: 0 <= i < |s.throttledList| ==> s.throttledList[i] < |s.queues| && s.queues[s.throttledList[i]].throttled)
  }

  lemma AgreesListed(s: State)
    requires ListAgrees(s)
    ensures Listed(s)
  {
    forall i | 0 <= i < |s.throttledList| ensures s.throttledList[i] < |s.queues| && s.queues[s.throttledList[i]].throttled {
      assert s.throttledList[i] in s.throttledList;
    }
  }

  /** From queues qs with list l, BandwidthPass.Pass makes rs with list r, and over
      is left. */
  ghost predicate PaidLists(qs: seq<Queue>, l: seq<nat>, rs: seq<Queue>, r: seq<nat>, left: nat, over: nat) {
    var ls := Locals(qs, l);
    && |rs| == |qs| && Locals(rs, l) == P.Pass(ls, left) && r == l[P.Freed(ls, left)..] && over == P.Left(ls, left)
    && (forall c: nat :: c < |qs| && c !in l ==> rs[c] == qs[c])
  }

  ghost predicate Paid(s: State, t: State, left: nat, over: nat) {
    PaidLists(s.queues, s.throttledList, t.queues, t.throttledList, left, over)
  }

  /** Money and debts are s64 values. */
  predicate InRange(s: State, left: nat) {
    && left < U64 / 2
    && forall c :: 0 <= c < |s.queues| && s.queues[c].throttled ==> P.S64(s.queues[c].remaining)
  }

  /** What serving the head h makes of queues and list. */
  predicate HeadServed(s: State, t: State, left: nat)
    requires s.throttledList != [] && s.throttledList[0] < |s.queues|
  {
    var h := s.throttledList[0];
    var q := P.Served(P.Local(h, s.queues[h].remaining), left);
    && |t.queues| == |s.queues| && t.queues == s.queues[h := t.queues[h]]
    && t.queues[h].remaining == q.remaining && (t.queues[h].throttled <==> q.remaining <= 0)
    && t.queues[h].phase == s.queues[h].phase
    && t.throttledList == if q.remaining > 0 then s.throttledList[1..] else s.throttledList
  }

  lemma ServeHead(s: State, left: nat, until: nat)
    requires Listed(s) && s.throttledList != [] && InRange(s, left)
    ensures var h := s.throttledList[0];
            HeadServed(s, Serve(s, h, left, until), left)
            && Request(s.queues[h], left) == P.Grant(s.queues[h].remaining, left)
  {
    P.GrantIsU64(s.queues[s.throttledList[0]].remaining, left);
    WithoutHead(s.throttledList);
  }

  /** What the step does, and nothing else. */
  lemma HandIsServe(cfg: Config, s: State, g: Giver, h: nat)
    requires Gives(s, g) && Enabled(s, Hand(g, h))
    ensures var left, until := Money(s, g), if g.Period? then s.callback.until else s.slack.until;
            var t := Next(cfg, s, Hand(g, h));
            && t.queues == Serve(s, h, left, until).queues && t.throttledList == Serve(s, h, left, until).throttledList
            && Gives(t, g) && Money(t, g) == left - Request(s.queues[h], left)
  {
  }

  lemma ServedFree(s: State, t: State, left: nat)
    requires s.throttledList != [] && s.throttledList[0] < |s.queues| && HeadServed(s, t, left) && AllFree(s)
    ensures AllFree(t)
  {
  }

  lemma HandStep(cfg: Config, s: State, g: Giver)
    requires Listed(s) && s.throttledList != [] && AllFree(s) && Gives(s, g) && Money(s, g) > 0 && InRange(s, Money(s, g))
    ensures var h, left := s.throttledList[0], Money(s, g);
            Enabled(s, Hand(g, h)) && InOrder(s, Hand(g, h)) &&
            var t := Next(cfg, s, Hand(g, h));
            && HeadServed(s, t, left) && Listed(t) && AllFree(t) && Gives(t, g)
            && Money(t, g) == left - P.Grant(s.queues[h].remaining, left)
  {
    var h, left := s.throttledList[0], Money(s, g);
    var until := if g.Period? then s.callback.until else s.slack.until;
    var t := Next(cfg, s, Hand(g, h));
    HandIsServe(cfg, s, g, h);
    ServeHead(s, left, until);
    StepKeepsList(cfg, s, Hand(g, h));
    AgreesListed(t);
    ServedFree(s, t, left);
  }

  lemma LocalsTail(s: State, t: State)
    requires Listed(s) && s.throttledList != [] && |t.queues| == |s.queues|
    requires t.queues == s.queues[s.throttledList[0] := t.queues[s.throttledList[0]]]
    ensures Locals(t.queues, s.throttledList[1..]) == Locals(s.queues, s.throttledList)[1..]
  {
    WithoutHead(s.throttledList);
    LocalsSame(s.queues, t.queues, s.throttledList[1..]);
  }

  /** One turn of a pass, on the list that it is about. */
  lemma PassTurn(ls: seq<P.Local>, left: nat)
    requires ls != [] && left > 0
    ensures var q, rest := P.Served(ls[0], left), left - P.Grant(ls[0].remaining, left);
            && P.Pass(ls, left) == [q] + P.Pass(ls[1..], rest) && P.Left(ls, left) == P.Left(ls[1..], rest)
            && P.Freed(ls, left) == if q.remaining > 0 then 1 + P.Freed(ls[1..], rest) else 0
  {
  }

  /** After the head has been served, the pass sees the rest of the list as before. */
  lemma TurnOfHead(qs: seq<Queue>, l: seq<nat>, ms: seq<Queue>, left: nat)
    requires NoRepeats(l) && l != [] && l[0] < |qs| == |ms| && left > 0 && ms == qs[l[0] := ms[l[0]]]
    requires ms[l[0]].remaining == P.Served(P.Local(l[0], qs[l[0]].remaining), left).remaining > 0
    ensures var ls, ms', rest := Locals(qs, l), Locals(ms, l[1..]), left - P.Grant(qs[l[0]].remaining, left);
            && P.Pass(ls, left) == [P.Local(l[0], ms[l[0]].remaining)] + P.Pass(ms', rest)
            && P.Left(ls, left) == P.Left(ms', rest) && P.Freed(ls, left) == 1 + P.Freed(ms', rest)
  {
    WithoutHead(l);
    LocalsSame(qs, ms, l[1..]);
    PassTurn(Locals(qs, l), left);
  }

  /** The head is freed, and the rest of the pass goes on from there. */
  lemma PaidGoesOn(qs: seq<Queue>, l: seq<nat>, ms: seq<Queue>, rs: seq<Queue>, r: seq<nat>, left: nat, over: nat)
    requires NoRepeats(l) && l != [] && l[0] < |qs| == |ms| && left > 0 && ms == qs[l[0] := ms[l[0]]]
    requires ms[l[0]].remaining == P.Served(P.Local(l[0], qs[l[0]].remaining), left).remaining > 0
    requires PaidLists(ms, l[1..], rs, r, left - P.Grant(qs[l[0]].remaining, left), over)
    ensures PaidLists(qs, l, rs, r, left, over)
  {
    TurnOfHead(qs, l, ms, left);
    WithoutHead(l);
    Drop(l, P.Freed(Locals(qs, l), left));
    forall c: nat | c < |qs| && c !in l ensures rs[c] == qs[c] {
      assert c !in l[1..];
    }
  }

  lemma Drop(l: seq<nat>, n: nat)
    requires 1 <= n <= |l|
    ensures l[1..][n - 1..] == l[n..]
  {
  }

  /** The head has taken everything and stays. */
  lemma PaidStuck(qs: seq<Queue>, l: seq<nat>, rs: seq<Queue>, left: nat)
    requires NoRepeats(l) && l != [] && l[0] < |qs| == |rs| && left > 0 && rs == qs[l[0] := rs[l[0]]]
    requires rs[l[0]].remaining == P.Served(P.Local(l[0], qs[l[0]].remaining), left).remaining <= 0
    ensures PaidLists(qs, l, rs, l, left, 0)
  {
    var ls := Locals(qs, l);
    WithoutHead(l);
    LocalsSame(qs, rs, l[1..]);
    PassTurn(ls, left);
    assert P.Pass(ls[1..], 0) == ls[1..];
    assert l[0..] == l;
  }

  lemma PaidNothing(qs: seq<Queue>, l: seq<nat>, left: nat)
    requires l == [] || left == 0
    ensures PaidLists(qs, l, qs, l, left, left)
  {
    assert l[0..] == l;
  }

  /** A pass from s, put together from its first hand, which leads to m, and the
      rest, which leads to t with money over. */
  lemma PaidFirst(s: State, m: State, t: State, left: nat, over: nat)
    requires NoRepeats(s.throttledList) && s.throttledList != [] && s.throttledList[0] < |s.queues|
    requires left > 0 && HeadServed(s, m, left)
    requires if m.queues[s.throttledList[0]].remaining > 0
             then Paid(m, t, left - P.Grant(s.queues[s.throttledList[0]].remaining, left), over)
             else t == m && over == 0
    ensures Paid(s, t, left, over)
  {
    var l := s.throttledList;
    if m.queues[l[0]].remaining > 0 {
      PaidGoesOn(s.queues, l, m.queues, t.queues, t.throttledList, left, over);
    } else {
      PaidStuck(s.queues, l, m.queues, left);
    }
  }

  /** The events of one pass. */
  predicate AllHands(g: Giver, es: seq<Event>) {
    forall i :: 0 <= i < |es| ==> if g.Period? then es[i].HandTo? else es[i].SlackHandTo?
  }

  predicate PassOver(s: State, g: Giver) {
    Gives(s, g) && (s.throttledList == [] || Money(s, g) == 0)
  }

  lemma ServedStaysInRange(s: State, t: State, left: nat, rest: nat)
    requires Listed(s) && s.throttledList != [] && HeadServed(s, t, left) && InRange(s, left) && rest <= left
    ensures InRange(t, rest)
  {
  }

  lemma {:induction false} ListStays(cfg: Config, s: State, es: seq<Event>, t: State)
    requires ListAgrees(s) && OrderedRun(cfg, s, es, t)
    ensures ListAgrees(t)
    decreases |es|
  {
    if es != [] {
      StepKeepsList(cfg, s, es[0]);
      ListStays(cfg, Next(cfg, s, es[0]), es[1..], t);
    }
  }

  /** A relation between a state, a later one, the money and what is over. */
  type Relation = (State, State, nat, nat) -> bool

  predicate HeadStands(s: State) {
    NoRepeats(s.throttledList) && s.throttledList != [] && s.throttledList[0] < |s.queues|
  }

  /** The rest of a pass after its first hand has led from s to m. */
  predicate RestOf(r: Relation, s: State, m: State, t: State, left: nat, over: nat)
    requires HeadStands(s)
  {
    && left > 0 && HeadServed(s, m, left)
    && if m.queues[s.throttledList[0]].remaining > 0
       then r(m, t, left - P.Grant(s.queues[s.throttledList[0]].remaining, left), over)
       else t == m && over == 0
  }

  /** The relation holds of a pass with nothing to do, and of a pass if it holds of
      what follows the first hand. */
  ghost predicate Inductive(r: Relation) {
    && (forall s: State, left: nat :: s.throttledList == [] || left == 0 ==> r(s, s, left, left))
    && (forall s: State, m: State, t: State, left: nat, over: nat ::
          HeadStands(s) && RestOf(r, s, m, t, left, over) ==> r(s, t, left, over))
  }

  /** A pass by g can start: its money and the debts are in range, and nobody is in
      the way. */
  ghost predicate Ready(s: State, g: Giver) {
    Listed(s) && AllFree(s) && Gives(s, g) && InRange(s, Money(s, g))
  }

  /** The first hand of a pass: what is left of it after that. */
  lemma FirstHand(cfg: Config, s: State, g: Giver, es: seq<Event>, t: State) returns (m: State)
    requires Ready(s, g) && es != [] && OrderedRun(cfg, s, es, t) && AllHands(g, es)
    ensures HeadStands(s) && Money(s, g) > 0 && HeadServed(s, m, Money(s, g)) && Ready(m, g)
    ensures Money(m, g) == Money(s, g) - P.Grant(s.queues[s.throttledList[0]].remaining, Money(s, g))
    ensures OrderedRun(cfg, m, es[1..], t) && AllHands(g, es[1..])
  {
    assert es[0] == Hand(g, s.throttledList[0]);
    HandStep(cfg, s, g);
    m := Next(cfg, s, es[0]);
    ServedStaysInRange(s, m, Money(s, g), Money(m, g));
  }

  /** A head that stays has taken all the money. */
  lemma StuckIsSpent(s: State, m: State, left: nat)
    requires HeadStands(s) && HeadServed(s, m, left) && m.queues[s.throttledList[0]].remaining <= 0
    ensures left == P.Grant(s.queues[s.throttledList[0]].remaining, left)
  {
  }

  lemma {:induction false} PassInduction(r: Relation, cfg: Config, s: State, g: Giver, es: seq<Event>, t: State)
    requires Inductive(r) && Ready(s, g) && OrderedRun(cfg, s, es, t) && AllHands(g, es) && PassOver(t, g)
    ensures r(s, t, Money(s, g), Money(t, g))
    decreases |es|
  {
    if es != [] {
      var m := FirstHand(cfg, s, g, es, t);
      if m.queues[s.throttledList[0]].remaining > 0 {
        PassInduction(r, cfg, m, g, es[1..], t);
      } else {
        StuckIsSpent(s, m, Money(s, g));
        StuckEnds(cfg, m, g, es[1..], t);
      }
      assert RestOf(r, s, m, t, Money(s, g), Money(t, g));
    }
  }

  lemma PaidInductive()
    ensures Inductive(Paid)
  {
    forall s: State, left: nat | s.throttledList == [] || left == 0 ensures Paid(s, s, left, left) {
      PaidNothing(s.queues, s.throttledList, left);
    }
    forall s: State, m: State, t: State, left: nat, over: nat | HeadStands(s) && RestOf(Paid, s, m, t, left, over)
      ensures Paid(s, t, left, over)
    {
      PaidFirst(s, m, t, left, over);
    }
  }

  /** Every pass in list order that nobody interrupts, by either timer, leaves the
      queues, the list and the money as BandwidthPass says; the queues that are
      then throttled are those still on the list. */
  lemma EveryPassPays(cfg: Config, s: State, g: Giver, es: seq<Event>, t: State)
    requires Ready(s, g) && OrderedRun(cfg, s, es, t) && AllHands(g, es) && PassOver(t, g)
    ensures Paid(s, t, Money(s, g), Money(t, g)) && ListAgrees(t)
  {
    ListStays(cfg, s, es, t);
    PaidInductive();
    PassInduction(Paid, cfg, s, g, es, t);
  }

  lemma StuckEnds(cfg: Config, s: State, g: Giver, es: seq<Event>, t: State)
    requires Gives(s, g) && Money(s, g) == 0 && OrderedRun(cfg, s, es, t) && AllHands(g, es)
    ensures es == [] && t == s
  {
  }

  /** The next hand of a pass that is not over. */
  lemma NextHand(cfg: Config, s: State, g: Giver) returns (m: State)
    requires Ready(s, g) && !PassOver(s, g)
    ensures var e := Hand(g, s.throttledList[0]); Enabled(s, e) && InOrder(s, e) && m == Next(cfg, s, e)
    ensures Ready(m, g) && |m.throttledList| <= |s.throttledList|
    ensures |m.throttledList| == |s.throttledList| ==> Money(m, g) < Money(s, g)
  {
    HandStep(cfg, s, g);
    m := Next(cfg, s, Hand(g, s.throttledList[0]));
    ServedStaysInRange(s, m, Money(s, g), Money(m, g));
  }

  /** Such a pass can always be made. */
  lemma {:induction false} PassExists(cfg: Config, s: State, g: Giver) returns (es: seq<Event>, t: State)
    requires Ready(s, g)
    ensures OrderedRun(cfg, s, es, t) && AllHands(g, es) && PassOver(t, g)
    decreases |s.throttledList|, Money(s, g)
  {
    if PassOver(s, g) {
      es, t := [], s;
    } else {
      var e := Hand(g, s.throttledList[0]);
      var m := NextHand(cfg, s, g);
      es, t := PassExists(cfg, m, g);
      OrderedCons(cfg, s, e, es, t);
      es := [e] + es;
    }
  }

  // ------------------------------------------------------------- what a timer pays

  /** No throttled queue has time to spend. */
  predicate Indebted(s: State) {
    forall c :: 0 <= c < |s.queues| && s.queues[c].throttled ==> s.queues[c].remaining <= 0
  }

  lemma {:induction false} LocalsAt(qs: seq<Queue>, l: seq<nat>, i: nat)
    requires i < |l|
    ensures Locals(qs, l)[i] == P.Local(l[i], RemainingOf(qs, l[i]))
  {
    if i > 0 {
      LocalsAt(qs, l[1..], i - 1);
    }
  }

  /** Where no queue is solvent, each is unthrottled exactly if the money covers its
      debt and the debts of those ahead of it in the list. */
  ghost predicate PaidInOrder(s: State, t: State, left: nat) {
    forall i :: 0 <= i < |s.throttledList| && s.throttledList[i] < |t.queues| ==>
      (t.queues[s.throttledList[i]].throttled <==> P.Debt(Locals(s.queues, s.throttledList)[..i + 1]) > left)
  }

  lemma PaidMeansOrder(s: State, t: State, left: nat, over: nat)
    requires Listed(s) && Indebted(s) && Paid(s, t, left, over) && ListAgrees(t)
    ensures PaidInOrder(s, t, left)
  {
    var l, ls := s.throttledList, Locals(s.queues, s.throttledList);
    var n := P.Freed(ls, left);
    forall j | 0 <= j < |ls| ensures ls[j].remaining <= 0 {
      LocalsAt(s.queues, l, j);
    }
    forall i | 0 <= i < |l| && l[i] < |t.queues|
      ensures t.queues[l[i]].throttled <==> P.Debt(ls[..i + 1]) > left
    {
      P.FreedIff(ls, left, i);
      InTail(l, i, n);
    }
  }

  lemma InTail(l: seq<nat>, i: nat, n: nat)
    requires NoRepeats(l) && i < |l| && n <= |l|
    ensures l[i] in l[n..] <==> i >= n
  {
    if i >= n {
      assert l[n..][i - n] == l[i];
    }
  }

  /** The period timer, when it fires: every uninterrupted pass in list order pays
      the queues as BandwidthPass says with one quota. */
  lemma PeriodPays(cfg: Config, s: State, clock: nat, es: seq<Event>, t: State)
    requires Inv(s) && s.timerQueued && s.throttledList != [] && AllFree(s) && cfg.quota > 0 && InRange(s, cfg.quota)
    requires var b := Next(cfg, s, TimerFires);
             OrderedRun(cfg, Next(cfg, b, PeriodElapsed(clock)), es, t) && AllHands(Period, es) && PassOver(t, Period)
    ensures Paid(s, t, cfg.quota, Money(t, Period)) && (Indebted(s) ==> PaidInOrder(s, t, cfg.quota))
  {
    var b := Next(cfg, s, TimerFires);
    var a := Next(cfg, b, PeriodElapsed(clock));
    assert a.queues == s.queues && a.throttledList == s.throttledList && Gives(a, Period) && Money(a, Period) == cfg.quota;
    AgreesListed(s);
    EveryPassPays(cfg, a, Period, es, t);
    if Indebted(s) {
      PaidMeansOrder(s, t, cfg.quota, Money(t, Period));
    }
  }

  /** The slack timer does the same with what the pool holds, if it holds more than
      a slice. */
  lemma SlackPays(cfg: Config, s: State, es: seq<Event>, t: State)
    requires ListAgrees(s) && s.slackQueued && s.slack.Resting? && s.callback.Absent? && s.pool > cfg.slice
    requires AllFree(s) && InRange(s, s.pool)
    requires OrderedRun(cfg, Next(cfg, s, SlackFires(false)), es, t) && AllHands(Slacker, es) && PassOver(t, Slacker)
    ensures Paid(s, t, s.pool, Money(t, Slacker)) && (Indebted(s) ==> PaidInOrder(s, t, s.pool))
  {
    var a := Next(cfg, s, SlackFires(false));
    assert a.queues == s.queues && a.throttledList == s.throttledList && Gives(a, Slacker) && Money(a, Slacker) == s.pool;
    AgreesListed(s);
    EveryPassPays(cfg, a, Slacker, es, t);
    if Indebted(s) {
      PaidMeansOrder(s, t, s.pool, Money(t, Slacker));
    }
  }

  // -------------------------------------------------------------- the way back

  /** Every throttled queue's runtime_remaining is an s64. */
  predicate AllWait(s: State) {
    forall c :: 0 <= c < |s.queues| && s.queues[c].throttled ==> 1 - s.queues[c].remaining < U64
  }

  /** The callback is between two periods or in the middle of a pass. */
  predicate Working(s: State) {
    s.callback == AtLoop(false) || s.callback.Handing?
  }

  /** Nobody holds a lock, and the callback is at work. */
  ghost predicate TimerTurn(s: State) {
    Inv(s) && AllFree(s) && AllWait(s) && Working(s)
  }

  lemma HeadIn(s: State)
    requires ListAgrees(s) && s.throttledList != []
    ensures var h := s.throttledList[0]; h < |s.queues| && s.queues[h].throttled && h in s.throttledList
  {
  }

  /** Serving the head in the middle of a pass: it is freed, or its debt shrinks and
      the money is gone. */
  lemma HeadStep(cfg: Config, s: State)
    requires TimerTurn(s) && s.callback.Handing? && s.callback.runtime > 0 && s.throttledList != []
    ensures var h := s.throttledList[0];
            h < |s.queues| && Enabled(s, HandTo(h)) && InOrder(s, HandTo(h)) &&
            var t := Next(cfg, s, HandTo(h));
            && TimerTurn(t) && t.callback.Handing? && |t.queues| == |s.queues|
            && if Rescued(t, h) then t.throttledList == s.throttledList[1..]
               else t.throttledList == s.throttledList && t.callback.runtime == 0
                    && s.queues[h].remaining < t.queues[h].remaining <= 0
  {
    var h := s.throttledList[0];
    HeadIn(s);
    StepKeepsInv(cfg, s, HandTo(h));
    ServeOutcome(s, h, s.callback.runtime, s.callback.until);
    WithoutHead(s.throttledList);
  }

  function HeadDebt(s: State): nat {
    if s.throttledList == [] || s.throttledList[0] >= |s.queues| then 0
    else Max(0, 1 - s.queues[s.throttledList[0]].remaining)
  }

  function Rank(s: State): nat {
    if !s.callback.Handing? then 1 else if s.callback.runtime > 0 then 0 else 2
  }

  lemma PassSpent(cfg: Config, s: State)
    requires TimerTurn(s) && s.callback.Handing? && s.callback.runtime == 0
    ensures Enabled(s, PassEnds) && InOrder(s, PassEnds)
    ensures var t := Next(cfg, s, PassEnds);
            TimerTurn(t) && t.callback == AtLoop(false) && t.queues == s.queues && t.throttledList == s.throttledList
  {
    StepKeepsInv(cfg, s, PassEnds);
  }

  lemma PeriodBegins(cfg: Config, s: State)
    requires TimerTurn(s) && s.callback == AtLoop(false) && s.throttledList != [] && cfg.quota > 0
    ensures Enabled(s, PeriodElapsed(0)) && InOrder(s, PeriodElapsed(0))
    ensures var t := Next(cfg, s, PeriodElapsed(0));
            && TimerTurn(t) && t.callback.Handing? && t.callback.runtime == cfg.quota
            && t.queues == s.queues && t.throttledList == s.throttledList
  {
    StepKeepsInv(cfg, s, PeriodElapsed(0));
  }

  predicate TimerAlone(es: seq<Event>) {
    forall i :: 0 <= i < |es| ==> ByPeriodTimer(es[i])
  }

  /** The callback works down the list: period after period it pays the head's debt,
      frees it, and goes on with the next, until the turn of c has come. */
  lemma {:induction false} WorkRescues(cfg: Config, s: State, c: nat) returns (es: seq<Event>, t: State)
    requires cfg.quota > 0 && TimerTurn(s) && c in s.throttledList
    ensures OrderedRun(cfg, s, es, t) && Rescued(t, c) && TimerAlone(es)
    decreases |s.throttledList|, HeadDebt(s), Rank(s)
  {
    var e := if s.callback.Handing? then (if s.callback.runtime > 0 then HandTo(s.throttledList[0]) else PassEnds)
             else PeriodElapsed(0);
    if !s.callback.Handing? {
      PeriodBegins(cfg, s);
    } else if s.callback.runtime == 0 {
      PassSpent(cfg, s);
    } else {
      HeadStep(cfg, s);
    }
    var m := Next(cfg, s, e);
    if e.HandTo? && Rescued(m, c) {
      es, t := [], m;
    } else {
      es, t := WorkRescues(cfg, m, c);
    }
    OrderedCons(cfg, s, e, es, t);
    es := [e] + es;
  }

  /** What a live timer is good for. */
  lemma TimerRescues(cfg: Config, s: State, c: nat) returns (es: seq<Event>, t: State)
    requires cfg.quota > 0 && Inv(s) && AllFree(s) && AllWait(s) && TimerLive(s) && c in s.throttledList
    ensures OrderedRun(cfg, s, es, t) && Rescued(t, c) && TimerAlone(es)
  {
    if s.timerQueued {
      StepKeepsInv(cfg, s, TimerFires);
      es, t := WorkRescues(cfg, Next(cfg, s, TimerFires), c);
      OrderedCons(cfg, s, TimerFires, es, t);
      es := [TimerFires] + es;
    } else {
      es, t := WorkRescues(cfg, s, c);
    }
  }

  // ------------------------------------------------------------- getting locks free

  function LockedCount(qs: seq<Queue>): nat {
    if qs == [] then 0 else (if qs[0].phase.Free? then 0 else 1) + LockedCount(qs[1..])
  }

  lemma {:induction false} LockedUpdate(qs: seq<Queue>, c: nat, q: Queue)
    requires c < |qs| && !qs[c].phase.Free? && q.phase.Free?
    ensures LockedCount(qs[c := q]) == LockedCount(qs) - 1
  {
    if c == 0 {
      assert qs[c := q][1..] == qs[1..];
    } else {
      assert qs[c := q][1..] == qs[1..][c - 1 := q];
      LockedUpdate(qs[1..], c - 1, q);
    }
  }

  lemma {:induction false} NoneLocked(qs: seq<Queue>)
    requires LockedCount(qs) == 0
    ensures forall c :: 0 <= c < |qs| ==> qs[c].phase.Free?
  {
    if qs != [] {
      NoneLocked(qs[1..]);
    }
  }

  lemma {:induction false} SomeLocked(qs: seq<Queue>) returns (c: nat)
    requires LockedCount(qs) > 0
    ensures c < |qs| && !qs[c].phase.Free?
  {
    if !qs[0].phase.Free? {
      c := 0;
    } else {
      var d := SomeLocked(qs[1..]);
      c := d + 1;
    }
  }

  /** Nobody who holds a lock has to wait for the callback. */
  ghost predicate Moving(s: State) {
    Inv(s) && AllWait(s) && (s.timerActive || s.callback.Absent?)
  }

  /** What the holder of queue c's lock does next. */
  function Release(s: State, c: nat): Event
    requires c < |s.queues|
  {
    if s.queues[c].phase.Assigning? then Assign(c, 0) else Retry(c)
  }

  /** The holder of a lock gets on and lets it go, with no queue worse off. */
  lemma ReleaseFrees(cfg: Config, s: State, c: nat)
    requires Moving(s) && c < |s.queues| && !s.queues[c].phase.Free?
    ensures Enabled(s, Release(s, c)) && InOrder(s, Release(s, c))
    ensures var t := Next(cfg, s, Release(s, c));
            && Moving(t) && t.throttledList == s.throttledList && |t.queues| == |s.queues|
            && t.queues[c].phase.Free? && t.queues == s.queues[c := t.queues[c]]
  {
    var e := Release(s, c);
    StepKeepsInv(cfg, s, e);
    ThreadFrame(cfg, s, e);
    var t := Next(cfg, s, e);
    assert t.queues[c].remaining >= s.queues[c].remaining;
    assert t.queues == s.queues[c := t.queues[c]];
  }

  lemma {:induction false} LocksGetFree(cfg: Config, s: State) returns (es: seq<Event>, t: State)
    requires Moving(s)
    ensures OrderedRun(cfg, s, es, t) && Moving(t) && AllFree(t) && t.throttledList == s.throttledList
    decreases LockedCount(s.queues)
  {
    if LockedCount(s.queues) == 0 {
      NoneLocked(s.queues);
      es, t := [], s;
    } else {
      var c := SomeLocked(s.queues);
      ReleaseFrees(cfg, s, c);
      var m := Next(cfg, s, Release(s, c));
      LockedUpdate(s.queues, c, m.queues[c]);
      es, t := LocksGetFree(cfg, m);
      OrderedCons(cfg, s, Release(s, c), es, t);
      es := [Release(s, c)] + es;
    }
  }

  lemma MovingRescues(cfg: Config, s: State, c: nat) returns (es: seq<Event>, t: State)
    requires cfg.quota > 0 && Moving(s) && c in s.throttledList
    ensures OrderedRun(cfg, s, es, t) && Rescued(t, c)
  {
    var es1, m := LocksGetFree(cfg, s);
    assert !SomeoneStarting(m);
    var es2, u := TimerRescues(cfg, m, c);
    OrderedAppend(cfg, s, es1, m, es2, u);
    es, t := es1 + es2, u;
  }

  /** No dead end: from every reachable state, whoever holds which lock, however long
      the list and deep the debts, as long as there is a quota some run that serves
      the list in order unthrottles any given throttled queue. */
  lemma RescueStaysPossible(cfg: Config, s0: State, before: seq<Event>, s: State, c: nat) returns (es: seq<Event>, t: State)
    requires cfg.quota > 0 && Initial(s0) && IsRun(cfg, s0, before, s) && AllWait(s)
    requires c < |s.queues| && s.queues[c].throttled
    ensures OrderedRun(cfg, s, es, t) && Rescued(t, c)
  {
    RunKeepsInv(cfg, s0, before, s);
    assert c in s.throttledList;
    if s.callback == AtLoop(true) {
      StepKeepsInv(cfg, s, CallbackReturns);
      es, t := MovingRescues(cfg, Next(cfg, s, CallbackReturns), c);
      OrderedCons(cfg, s, CallbackReturns, es, t);
      es := [CallbackReturns] + es;
    } else {
      es, t := MovingRescues(cfg, s, c);
    }
  }

  // --------------------------------------------------------- a solvent queue

  /** A throttled queue that is solvent takes all that is being handed out. */
  lemma SolventTakesAll(cfg: Config, s: State, c: nat)
    requires Enabled(s, HandTo(c)) && s.queues[c].throttled && 1 < s.queues[c].remaining <= U64 / 2
    requires s.callback.runtime < U64 / 2
    ensures var t := Next(cfg, s, HandTo(c));
            && t.callback.Handing? && t.callback.runtime == 0
            && t.queues[c].remaining == s.queues[c].remaining + s.callback.runtime && Rescued(t, c)
  {
    WithoutMembers(s.throttledList, c);
  }

  /** One step of a run that is written out. */
  ghost predicate Leads(s: State, e: Event, t: State) {
    Enabled(s, e) && InOrder(s, e) && Next(EXAMPLE, s, e) == t
  }

  const EXAMPLE := Config(10, 5, 0, 100, 10)

  /** A group that nothing has happened to yet, on three CPUs. */
  const FRESH := State([Queue(0, 0, false, Free), Queue(0, 0, false, Free), Queue(0, 0, false, Free)],
                       [], 0, 0, false, false, false, Absent, false, Resting, 0, 0)

  /** Queue 1 has nothing left and asks for a slice. */
  const ASKING := FRESH.(queues := FRESH.queues[1 := Queue(0, 10, false, Assigning)])

  /** Queue 1 has been assigned a slice. */
  const FUNDED := State([Queue(0, 0, false, Free), Queue(5, 200, false, Free), Queue(0, 0, false, Free)],
                        [], 5, 200, false, true, true, Absent, false, Resting, 1, 0)

  /** Queue 0 has run up a debt, been assigned all there is, and been throttled. */
  const ONE := State([Queue(-1, 200, true, Free), Queue(5, 200, false, Free), Queue(0, 0, false, Free)],
                     [0], 0, 200, false, true, true, Absent, false, Resting, 1, 6)

  /** So has queue 2. */
  const BOTH := State([Queue(-1, 200, true, Free), Queue(5, 200, false, Free), Queue(-4, 200, true, Free)],
                      [0, 2], 0, 200, false, true, true, Absent, false, Resting, 1, 10)

  /** Queue 1 has given back what it had. */
  const GIVEN := BOTH.(queues := BOTH.queues[1 := Queue(0, 200, false, Free)], pool := 5)

  /** Queue 0 was made to run once more and assigned a slice; it is still throttled,
      and has 4 to spend. */
  const SOLVENT := GIVEN.(queues := GIVEN.queues[0 := Queue(4, 200, true, Free)], pool := 0)

  lemma {:induction false} OneMore(es: seq<Event>, s: State, e: Event, t: State)
    requires OrderedRun(EXAMPLE, FRESH, es, s) && Leads(s, e, t)
    ensures OrderedRun(EXAMPLE, FRESH, es + [e], t)
  {
    assert [e][1..] == [];
    OrderedAppend(EXAMPLE, FRESH, es, s, [e], t);
  }

  /** The clock is ahead of a deadline that the pool shares: the deadline moves on
      by a tick. */
  lemma StillValid(s: State, q: Queue, clock: nat)
    requires q.remaining >= 0 && q.expires == s.poolExpires <= clock < U64 / 2
    ensures Expire(EXAMPLE, s, q, clock) == q.(expires := q.expires + 10)
  {
  }

  lemma FirstCharge()
    ensures Leads(FRESH, Charge(1, 0, 100), ASKING)
  {
    StillValid(FRESH, FRESH.queues[1], 100);
  }

  lemma FirstSlice()
    ensures Leads(ASKING, Assign(1, 100), FUNDED)
  {
    var s := StartTimer(Refill(EXAMPLE, ASKING, 100));
    assert s.pool == 10 && s.poolExpires == 200 && s.queues[1] == Queue(0, 10, false, Assigning);
  }

  lemma FirstDebtor() returns (s1: State, s2: State)
    ensures Leads(FUNDED, Charge(0, 6, 100), s1) && Leads(s1, Assign(0, 100), s2) && Leads(s2, Throttle(0), ONE)
  {
    s1 := Next(EXAMPLE, FUNDED, Charge(0, 6, 100));
    assert s1.queues[0] == Queue(-6, 0, false, Assigning);
    s2 := Next(EXAMPLE, s1, Assign(0, 100));
    assert s2.queues[0] == Queue(-1, 200, false, Free);
  }

  lemma SecondDebtor() returns (s1: State, s2: State)
    ensures Leads(ONE, Charge(2, 4, 100), s1) && Leads(s1, Assign(2, 100), s2) && Leads(s2, Throttle(2), BOTH)
  {
    s1 := Next(EXAMPLE, ONE, Charge(2, 4, 100));
    assert s1.queues[2] == Queue(-4, 0, false, Assigning);
    s2 := Next(EXAMPLE, s1, Assign(2, 100));
    assert s2.queues[2] == Queue(-4, 200, false, Free);
  }

  lemma Gift()
    ensures Leads(BOTH, GiveBack(1, true), GIVEN)
  {
  }

  lemma ForcedRun() returns (s: State)
    ensures Leads(GIVEN, Charge(0, 0, 100), s) && Leads(s, Assign(0, 100), SOLVENT)
  {
    s := Next(EXAMPLE, GIVEN, Charge(0, 0, 100));
    assert s.queues[0] == Queue(-1, 200, true, Assigning);
  }

  lemma ThreeMore(es: seq<Event>, s: State, e1: Event, s1: State, e2: Event, s2: State, e3: Event, t: State)
    requires OrderedRun(EXAMPLE, FRESH, es, s) && Leads(s, e1, s1) && Leads(s1, e2, s2) && Leads(s2, e3, t)
    ensures OrderedRun(EXAMPLE, FRESH, es + [e1] + [e2] + [e3], t)
  {
    OneMore(es, s, e1, s1);
    OneMore(es + [e1], s1, e2, s2);
    OneMore(es + [e1] + [e2], s2, e3, t);
  }

  lemma Two(s: State, e1: Event, m: State, e2: Event, t: State) returns (es: seq<Event>)
    requires Leads(s, e1, m) && Leads(m, e2, t)
    ensures OrderedRun(EXAMPLE, s, es, t)
  {
    es := [e1, e2];
    assert es[1..] == [e2] && [e2][1..] == [];
  }

  lemma FundedReached() returns (es: seq<Event>)
    ensures OrderedRun(EXAMPLE, FRESH, es, FUNDED)
  {
    FirstCharge();
    FirstSlice();
    es := Two(FRESH, Charge(1, 0, 100), ASKING, Assign(1, 100), FUNDED);
  }

  lemma OneReached() returns (es: seq<Event>)
    ensures OrderedRun(EXAMPLE, FRESH, es, ONE)
  {
    es := FundedReached();
    var s1, s2 := FirstDebtor();
    ThreeMore(es, FUNDED, Charge(0, 6, 100), s1, Assign(0, 100), s2, Throttle(0), ONE);
    es := es + [Charge(0, 6, 100)] + [Assign(0, 100)] + [Throttle(0)];
  }

  lemma BothReached() returns (es: seq<Event>)
    ensures OrderedRun(EXAMPLE, FRESH, es, BOTH)
  {
    es := OneReached();
    var s1, s2 := SecondDebtor();
    ThreeMore(es, ONE, Charge(2, 4, 100), s1, Assign(2, 100), s2, Throttle(2), BOTH);
    es := es + [Charge(2, 4, 100)] + [Assign(2, 100)] + [Throttle(2)];
  }

  /** From a fresh group: a throttled queue that is made to run once more is
      assigned what another one has given back, and is then throttled and solvent. */
  lemma SolventReached() returns (es: seq<Event>)
    ensures Initial(FRESH) && OrderedRun(EXAMPLE, FRESH, es, SOLVENT)
  {
    es := BothReached();
    Gift();
    var c := ForcedRun();
    ThreeMore(es, BOTH, GiveBack(1, true), GIVEN, Charge(0, 0, 100), c, Assign(0, 100), SOLVENT);
    es := es + [GiveBack(1, true)] + [Charge(0, 0, 100)] + [Assign(0, 100)];
  }

  lemma WholeQuota() returns (s1: State, s2: State, t: State)
    ensures Leads(SOLVENT, TimerFires, s1) && Leads(s1, PeriodElapsed(200), s2) && Leads(s2, HandTo(0), t)
    ensures t.callback == Handing(0, 300) && t.throttledList == [2]
    ensures t.queues == SOLVENT.queues[0 := Queue(14, 300, false, Free)]
  {
    s1 := Next(EXAMPLE, SOLVENT, TimerFires);
    s2 := Next(EXAMPLE, s1, PeriodElapsed(200));
    assert s2.callback == Handing(10, 300) && s2.queues == SOLVENT.queues;
    t := Next(EXAMPLE, s2, HandTo(0));
    SolventTakesAll(EXAMPLE, s2, 0);
    assert [0, 2][1..] == [2] && [2][1..] == [];
  }

  /** A run in which the period's whole quota of 10 goes to a queue that needs
      nothing, while one that is short of 5 stays throttled and gets nothing. */
  lemma SolventStarvesDebtor() returns (es: seq<Event>, t: State)
    ensures Initial(FRESH) && OrderedRun(EXAMPLE, FRESH, es, t)
    ensures t.callback == Handing(0, 300) && t.throttledList == [2]
    ensures t.queues == [Queue(14, 300, false, Free), Queue(0, 200, false, Free), Queue(-4, 200, true, Free)]
  {
    es := SolventReached();
    var s1, s2, u := WholeQuota();
    ThreeMore(es, SOLVENT, TimerFires, s1, PeriodElapsed(200), s2, HandTo(0), u);
    es, t := es + [TimerFires] + [PeriodElapsed(200)] + [HandTo(0)], u;
  }
}
