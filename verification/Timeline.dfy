// The timeline of a run queue: a search tree ordered by vruntime under 64-bit
// wrap-around, the cached leftmost entity, min_vruntime and the choice of the
// next entity (backup/fair_mp.c, 446-565, 2113-2143, 4567-4615).
//
// Red-black rebalancing is any function on trees that keeps the in-order
// sequence. A queued entity carries the number of the enqueue that queued it.

module Timeline {
  import opened Common
  import opened Words

  datatype Entity = Entity(arrival: nat, vruntime: nat)

  datatype Tree = Leaf | Node(left: Tree, entry: Entity, right: Tree)

  function Inorder(t: Tree): seq<Entity> {
    match t
    case Leaf => []
    case Node(l, e, r) => Inorder(l) + [e] + Inorder(r)
  }

  // --------------------------------------------------- order under wrap-around

  type Order = (Entity, Entity) -> bool
  type Key = Entity -> int

  /** entity_before */
  predicate Before(a: Entity, b: Entity) {
    Signed(a.vruntime - b.vruntime) < 0
  }

  /** How far past base an entity is, going round. */
  function Off(base: nat, e: Entity): int {
    (e.vruntime - base) % U64
  }

  /** Everything lies in the half circle that starts at base. */
  predicate InWindow(base: nat, s: seq<Entity>) {
    forall i :: 0 <= i < |s| ==> Off(base, s[i]) < U64 / 2
  }

  /** A window smaller than 2^63 holds all of them. */
  ghost predicate Windowed(s: seq<Entity>) {
    exists base: nat :: InWindow(base, s)
  }

  lemma ModOf(k: int, d: int)
    requires -U64 / 2 < d < U64 / 2
    ensures (k * U64 + d) % U64 == if d >= 0 then d else d + U64
  {
  }

  /** Inside a window the wrapping difference is the real one, so the wrapping
      comparison is a real order. */
  lemma BeforeIsLess(base: nat, a: Entity, b: Entity)
    requires Off(base, a) < U64 / 2 && Off(base, b) < U64 / 2
    ensures Signed(a.vruntime - b.vruntime) == Off(base, a) - Off(base, b)
    ensures Before(a, b) <==> Off(base, a) < Off(base, b)
  {
    var x, y := a.vruntime - base, b.vruntime - base;
    assert x == x / U64 * U64 + x % U64 && y == y / U64 * U64 + y % U64;
    assert a.vruntime - b.vruntime == (x / U64 - y / U64) * U64 + (x % U64 - y % U64);
    ModOf(x / U64 - y / U64, x % U64 - y % U64);
  }

  /** On the members of s, lt is asymmetric and transitive. */
  predicate StrictOrder(lt: Order, s: seq<Entity>) {
    && (forall a, b :: a in s && b in s && lt(a, b) ==> !lt(b, a))
    && (forall a, b, c :: a in s && b in s && c in s && lt(a, b) && lt(b, c) ==> lt(a, c))
  }

  /** Nothing in s comes before m. */
  predicate Least(lt: Order, s: seq<Entity>, m: Entity) {
    m in s && forall x :: x in s ==> !lt(x, m)
  }

  lemma {:induction false} LeastExists(lt: Order, s: seq<Entity>) returns (m: Entity)
    requires StrictOrder(lt, s) && s != []
    ensures Least(lt, s, m)
  {
    if |s| == 1 {
      m := s[0];
    } else {
      m := LeastExists(lt, s[1..]);
      var first := s[0];
      assert s == [first] + s[1..];
      if lt(first, m) {
        forall x | x in s ensures !lt(x, first) {
          assert x == first || x in s[1..];
        }
        m := first;
      }
    }
  }

  lemma WindowOrders(base: nat, s: seq<Entity>)
    requires InWindow(base, s)
    ensures StrictOrder(Before, s)
  {
    forall a, b | a in s && b in s ensures Before(a, b) <==> Off(base, a) < Off(base, b) {
      BeforeIsLess(base, a, b);
    }
  }

  /** The vruntime of a least entity starts a window. */
  lemma LeastStartsWindow(s: seq<Entity>, m: Entity)
    requires Least(Before, s, m)
    ensures InWindow(m.vruntime, s)
  {
    forall i | 0 <= i < |s| ensures Off(m.vruntime, s[i]) < U64 / 2 {
      assert !Before(s[i], m);
    }
  }

  /** The wrapping comparison orders a set of entities exactly when a window
      smaller than 2^63 holds them all. */
  lemma OrderIffWindowed(s: seq<Entity>)
    ensures StrictOrder(Before, s) <==> Windowed(s)
  {
    if Windowed(s) {
      var base: nat :| InWindow(base, s);
      WindowOrders(base, s);
    }
    if StrictOrder(Before, s) {
      if s == [] {
        assert InWindow(0, s);
      } else {
        var m := LeastExists(Before, s);
        LeastStartsWindow(s, m);
      }
    }
  }

  /** Three entities that no window holds, each before the next. */
  lemma WindowNeeded()
    ensures var a, b, c := Entity(0, 0), Entity(1, 0x6000_0000_0000_0000), Entity(2, 0xC000_0000_0000_0000);
            Before(a, b) && Before(b, c) && Before(c, a) && !Windowed([a, b, c])
  {
    var a, b, c := Entity(0, 0), Entity(1, 0x6000_0000_0000_0000), Entity(2, 0xC000_0000_0000_0000);
    assert a in [a, b, c] && b in [a, b, c] && c in [a, b, c];
    OrderIffWindowed([a, b, c]);
  }

  // ------------------------------------------------------------------ inserting

  /** What the tree stands for: a list in which a new entity goes behind all
      those it is not before. */
  function Insert(lt: Order, s: seq<Entity>, se: Entity): seq<Entity> {
    if s == [] then [se]
    else if lt(se, s[0]) then [se] + s
    else [s[0]] + Insert(lt, s[1..], se)
  }

  /** The descent of __enqueue_entity: where the new leaf goes. */
  function Descend(lt: Order, t: Tree, se: Entity): Tree {
    match t
    case Leaf => Node(Leaf, se, Leaf)
    case Node(l, e, r) =>
      if lt(se, e) then Node(Descend(lt, l, se), e, r) else Node(l, e, Descend(lt, r, se))
  }

  /** The leftmost flag of the descent: did it never turn right? */
  predicate NeverRight(lt: Order, t: Tree, se: Entity) {
    match t
    case Leaf => true
    case Node(l, e, _) => lt(se, e) && NeverRight(lt, l, se)
  }

  lemma {:induction false} InsertLeft(lt: Order, a: seq<Entity>, b: seq<Entity>, se: Entity)
    requires b != [] && lt(se, b[0])
    ensures Insert(lt, a + b, se) == Insert(lt, a, se) + b
  {
    if a == [] {
      assert a + b == b;
    } else {
      assert (a + b)[1..] == a[1..] + b;
      InsertLeft(lt, a[1..], b, se);
    }
  }

  lemma {:induction false} InsertRight(lt: Order, a: seq<Entity>, b: seq<Entity>, se: Entity)
    requires forall i :: 0 <= i < |a| ==> !lt(se, a[i])
    ensures Insert(lt, a + b, se) == a + Insert(lt, b, se)
  {
    if a == [] {
      assert a + b == b && a + Insert(lt, b, se) == Insert(lt, b, se);
    } else {
      assert (a + b)[1..] == a[1..] + b;
      InsertRight(lt, a[1..], b, se);
    }
  }

  /** On the entities of s, lt compares keys. */
  predicate Compares(lt: Order, key: Key, s: seq<Entity>) {
    forall a, b :: a in s && b in s ==> (lt(a, b) <==> key(a) < key(b))
  }

  /** lt compares keys with se, and s is in key order. */
  predicate Ordered(lt: Order, key: Key, s: seq<Entity>, se: Entity) {
    && (forall i, j :: 0 <= i < j < |s| ==> key(s[i]) <= key(s[j]))
    && (forall i :: 0 <= i < |s| ==> (lt(se, s[i]) <==> key(se) < key(s[i])))
  }

  lemma Slice(lt: Order, key: Key, s: seq<Entity>, lo: nat, hi: nat, se: Entity)
    requires Ordered(lt, key, s, se) && lo <= hi <= |s|
    ensures Ordered(lt, key, s[lo..hi], se)
  {
    var t := s[lo..hi];
    forall i, j | 0 <= i < j < |t| ensures key(t[i]) <= key(t[j]) {
      assert t[i] == s[lo + i] && t[j] == s[lo + j];
    }
  }

  lemma Parts(lt: Order, key: Key, a: seq<Entity>, e: Entity, b: seq<Entity>, se: Entity)
    requires Ordered(lt, key, a + [e] + b, se)
    ensures Ordered(lt, key, a, se) && Ordered(lt, key, b, se)
    ensures lt(se, e) <==> key(se) < key(e)
    ensures forall i :: 0 <= i < |a| ==> key(a[i]) <= key(e)
  {
    var s, n := a + [e] + b, |a|;
    assert s[n] == e && s[0..n] == a && s[n + 1..|s|] == b;
    Slice(lt, key, s, 0, n, se);
    Slice(lt, key, s, n + 1, |s|, se);
    forall i | 0 <= i < n ensures key(a[i]) <= key(e) {
      assert s[i] == a[i];
    }
  }

  lemma InsertBeforeMiddle(lt: Order, a: seq<Entity>, e: Entity, b: seq<Entity>, se: Entity)
    requires lt(se, e)
    ensures Insert(lt, a + [e] + b, se) == Insert(lt, a, se) + [e] + b
  {
    InsertLeft(lt, a, [e] + b, se);
    assert a + [e] + b == a + ([e] + b);
    assert Insert(lt, a, se) + [e] + b == Insert(lt, a, se) + ([e] + b);
  }

  lemma InsertBehindMiddle(lt: Order, a: seq<Entity>, e: Entity, b: seq<Entity>, se: Entity)
    requires !lt(se, e) && forall i :: 0 <= i < |a| ==> !lt(se, a[i])
    ensures Insert(lt, a + [e] + b, se) == a + [e] + Insert(lt, b, se)
    ensures !lt(se, (a + [e] + b)[0])
  {
    InsertRight(lt, a + [e], b, se);
    assert (a + [e] + b)[0] == (a + [e])[0];
  }

  /** Whatever the shape of the tree, the descent inserts into the list, and the
      flag says whether the new entity is before the whole list. */
  lemma {:induction false} DescendInserts(lt: Order, key: Key, t: Tree, se: Entity)
    requires Ordered(lt, key, Inorder(t), se)
    ensures Inorder(Descend(lt, t, se)) == Insert(lt, Inorder(t), se)
    ensures NeverRight(lt, t, se) <==> (Inorder(t) == [] || lt(se, Inorder(t)[0]))
  {
    match t
    case Leaf =>
    case Node(l, e, r) =>
      var a, b := Inorder(l), Inorder(r);
      Parts(lt, key, a, e, b, se);
      if lt(se, e) {
        DescendInserts(lt, key, l, se);
        InsertBeforeMiddle(lt, a, e, b, se);
      } else {
        DescendInserts(lt, key, r, se);
        InsertBehindMiddle(lt, a, e, b, se);
      }
  }

  /** a comes ahead of b: it is before it, or level with it and queued earlier. */
  predicate Ahead(lt: Order, a: Entity, b: Entity) {
    lt(a, b) || (!lt(b, a) && a.arrival < b.arrival)
  }

  predicate InLine(lt: Order, s: seq<Entity>) {
    forall i, j :: 0 <= i < j < |s| ==> Ahead(lt, s[i], s[j])
  }

  /** Nothing queued arrived later than se. */
  predicate Newest(s: seq<Entity>, se: Entity) {
    forall i :: 0 <= i < |s| ==> s[i].arrival < se.arrival
  }

  lemma {:induction false} InsertMembers(lt: Order, s: seq<Entity>, se: Entity)
    ensures multiset(Insert(lt, s, se)) == multiset(s) + multiset{se}
  {
    if s != [] && !lt(se, s[0]) {
      InsertMembers(lt, s[1..], se);
      assert s == [s[0]] + s[1..];
    }
  }

  lemma Cons(lt: Order, e: Entity, s: seq<Entity>)
    requires InLine(lt, s) && forall x :: x in s ==> Ahead(lt, e, x)
    ensures InLine(lt, [e] + s)
  {
    var t := [e] + s;
    forall i, j | 0 <= i < j < |t| ensures Ahead(lt, t[i], t[j]) {
      assert t[j] == s[j - 1];
      if i > 0 { assert t[i] == s[i - 1]; }
    }
  }

  lemma Tail(lt: Order, s: seq<Entity>)
    requires InLine(lt, s) && s != []
    ensures InLine(lt, s[1..]) && forall x :: x in s[1..] ==> Ahead(lt, s[0], x)
  {
    var t := s[1..];
    forall i, j | 0 <= i < j < |t| ensures Ahead(lt, t[i], t[j]) {
      assert t[i] == s[i + 1] && t[j] == s[j + 1];
    }
  }

  /** Inserting keeps the line: sorted, and first come first served among equals. */
  lemma {:induction false} InsertKeepsLine(lt: Order, key: Key, s: seq<Entity>, se: Entity)
    requires Compares(lt, key, s + [se])
    requires InLine(lt, s) && Newest(s, se)
    ensures InLine(lt, Insert(lt, s, se))
  {
    if s == [] {
    } else if lt(se, s[0]) {
      Tail(lt, s);
      forall x | x in s ensures Ahead(lt, se, x) {
      }
      Cons(lt, se, s);
    } else {
      Tail(lt, s);
      InsertKeepsLine(lt, key, s[1..], se);
      InsertMembers(lt, s[1..], se);
      forall x | x in Insert(lt, s[1..], se) ensures Ahead(lt, s[0], x) {
        assert x in multiset(s[1..]) + multiset{se};
      }
      Cons(lt, s[0], Insert(lt, s[1..], se));
    }
  }

  // ------------------------------------------------------------------- erasing

  function Join(l: Tree, r: Tree): Tree {
    if r.Leaf? then l else Node(Join(l, r.left), r.entry, r.right)
  }

  function Erase(t: Tree, se: Entity): Tree {
    match t
    case Leaf => Leaf
    case Node(l, e, r) =>
      if se in Inorder(l) then Node(Erase(l, se), e, r)
      else if e == se then Join(l, r)
      else Node(l, e, Erase(r, se))
  }

  function Without(s: seq<Entity>, se: Entity): seq<Entity> {
    if s == [] then [] else if s[0] == se then s[1..] else [s[0]] + Without(s[1..], se)
  }

  /** rb_next: what follows se in the list. */
  function Follower(s: seq<Entity>, se: Entity): Option<Entity> {
    if s == [] then None
    else if s[0] != se then Follower(s[1..], se)
    else if |s| > 1 then Some(s[1]) else None
  }

  lemma {:induction false} JoinInorder(l: Tree, r: Tree)
    ensures Inorder(Join(l, r)) == Inorder(l) + Inorder(r)
  {
    if r.Node? {
      JoinInorder(l, r.left);
    }
  }

  lemma {:induction false} WithoutLeft(a: seq<Entity>, b: seq<Entity>, se: Entity)
    requires se in a
    ensures Without(a + b, se) == Without(a, se) + b
  {
    if a[0] == se {
      assert (a + b)[1..] == a[1..] + b;
    } else {
      assert (a + b)[1..] == a[1..] + b;
      WithoutLeft(a[1..], b, se);
    }
  }

  lemma {:induction false} WithoutRight(a: seq<Entity>, b: seq<Entity>, se: Entity)
    requires se !in a
    ensures Without(a + b, se) == a + Without(b, se)
  {
    if a == [] {
      assert a + b == b && a + Without(b, se) == Without(b, se);
    } else {
      assert (a + b)[1..] == a[1..] + b;
      WithoutRight(a[1..], b, se);
    }
  }

  lemma WithoutMiddle(a: seq<Entity>, e: Entity, b: seq<Entity>, se: Entity)
    ensures Without(a + [e] + b, se)
         == if se in a then Without(a, se) + [e] + b else if e == se then a + b else a + [e] + Without(b, se)
  {
    assert a + [e] + b == a + ([e] + b) && ([e] + b)[1..] == b;
    if se in a {
      WithoutLeft(a, [e] + b, se);
      assert Without(a, se) + [e] + b == Without(a, se) + ([e] + b);
    } else {
      WithoutRight(a, [e] + b, se);
      assert a + [e] + Without(b, se) == a + ([e] + Without(b, se));
    }
  }

  /** Erasing from the tree is taking out of the list. */
  lemma {:induction false} EraseRemoves(t: Tree, se: Entity)
    ensures Inorder(Erase(t, se)) == Without(Inorder(t), se)
  {
    match t
    case Leaf =>
    case Node(l, e, r) =>
      WithoutMiddle(Inorder(l), e, Inorder(r), se);
      EraseRemoves(l, se);
      EraseRemoves(r, se);
      JoinInorder(l, r);
  }

  lemma {:induction false} WithoutMembers(s: seq<Entity>, se: Entity)
    ensures forall x :: x in Without(s, se) ==> x in s
  {
    if s != [] && s[0] != se {
      WithoutMembers(s[1..], se);
    }
  }

  lemma {:induction false} WithoutKeepsLine(lt: Order, s: seq<Entity>, se: Entity)
    requires InLine(lt, s)
    ensures InLine(lt, Without(s, se))
  {
    if s != [] {
      Tail(lt, s);
      if s[0] != se {
        WithoutKeepsLine(lt, s[1..], se);
        WithoutMembers(s[1..], se);
        Cons(lt, s[0], Without(s[1..], se));
      }
    }
  }

  // --------------------------------------------------------------- whole runs

  /** tasks_timeline, rb_leftmost and min_vruntime. */
  datatype Line = Line(tree: Tree, leftmost: Option<Entity>, min: nat)

  function First(s: seq<Entity>): Option<Entity> {
    if s == [] then None else Some(s[0])
  }

  /** The tree is in line under the wrapping comparison and the cache is right. */
  predicate Sound(l: Line) {
    InLine(Before, Inorder(l.tree)) && l.leftmost == First(Inorder(l.tree))
  }

  /** __enqueue_entity before rebalancing. */
  function Enqueued(l: Line, se: Entity): Line {
    l.(tree := Descend(Before, l.tree, se), leftmost := if NeverRight(Before, l.tree, se) then Some(se) else l.leftmost)
  }

  /** __dequeue_entity before rebalancing. */
  function Dequeued(l: Line, se: Entity): Line {
    l.(tree := Erase(l.tree, se),
    leftmost := if l.leftmost == Some(se) then Follower(Inorder(l.tree), se) else l.leftmost)
  }

  function LaterOf(min: nat, v: nat): nat {
    if Signed(v - min) > 0 then v else min
  }

  function EarlierOf(min: nat, v: nat): nat {
    if Signed(v - min) < 0 then v else min
  }

  /** update_min_vruntime with the given vruntime of the running entity */
  function MinUpdated(l: Line, curr: Option<nat>): Line {
    var v := match (curr, l.leftmost)
      case (None, None) => l.min
      case (None, Some(e)) => e.vruntime
      case (Some(c), None) => c
      case (Some(c), Some(e)) => EarlierOf(c, e.vruntime);
    l.(min := LaterOf(l.min, v))
  }

  datatype Op =
    | Enqueue(se: Entity)
    | Dequeue(se: Entity)
    | UpdateMin(curr: Option<nat>)
    | Rebalance(shape: Tree)

  ghost predicate Enabled(l: Line, op: Op) {
    match op
    case Enqueue(se) => Windowed(Inorder(l.tree) + [se]) && Newest(Inorder(l.tree), se)
    case Dequeue(se) => se in Inorder(l.tree)
    case UpdateMin(_) => true
    case Rebalance(shape) => Inorder(shape) == Inorder(l.tree)
  }

  function Apply(l: Line, op: Op): Line {
    match op
    case Enqueue(se) => Enqueued(l, se)
    case Dequeue(se) => Dequeued(l, se)
    case UpdateMin(curr) => MinUpdated(l, curr)
    case Rebalance(shape) => l.(tree := shape)
  }

  ghost predicate IsRun(l: Line, ops: seq<Op>, m: Line)
    decreases |ops|
  {
    if ops == [] then m == l else Enabled(l, ops[0]) && IsRun(Apply(l, ops[0]), ops[1..], m)
  }

  /** The same run on a plain list. */
  function OnList(s: seq<Entity>, ops: seq<Op>): seq<Entity>
    decreases |ops|
  {
    if ops == [] then s else OnList(StepOnList(s, ops[0]), ops[1..])
  }

  function StepOnList(s: seq<Entity>, op: Op): seq<Entity> {
    match op
    case Enqueue(se) => Insert(Before, s, se)
    case Dequeue(se) => Without(s, se)
    case _ => s
  }

  lemma WindowCompares(s: seq<Entity>) returns (key: Key)
    requires Windowed(s)
    ensures Compares(Before, key, s)
  {
    var base: nat :| InWindow(base, s);
    key := (e: Entity) => Off(base, e);
    forall a, b | a in s && b in s ensures Before(a, b) <==> key(a) < key(b) {
      BeforeIsLess(base, a, b);
    }
  }

  lemma LineIsOrdered(lt: Order, key: Key, s: seq<Entity>, se: Entity)
    requires Compares(lt, key, s + [se]) && InLine(lt, s)
    ensures Ordered(lt, key, s, se)
  {
    forall i, j | 0 <= i < j < |s| ensures key(s[i]) <= key(s[j]) {
      assert Ahead(lt, s[i], s[j]) && s[i] in s + [se] && s[j] in s + [se];
    }
    forall i | 0 <= i < |s| ensures lt(se, s[i]) <==> key(se) < key(s[i]) {
      assert s[i] in s + [se] && se in s + [se];
    }
  }

  lemma EnqueueKeeps(l: Line, se: Entity)
    requires Sound(l) && Windowed(Inorder(l.tree) + [se]) && Newest(Inorder(l.tree), se)
    ensures Sound(Enqueued(l, se))
    ensures Inorder(Enqueued(l, se).tree) == Insert(Before, Inorder(l.tree), se)
  {
    var s := Inorder(l.tree);
    var key := WindowCompares(s + [se]);
    LineIsOrdered(Before, key, s, se);
    DescendInserts(Before, key, l.tree, se);
    InsertKeepsLine(Before, key, s, se);
  }

  lemma DequeueKeeps(l: Line, se: Entity)
    requires Sound(l) && se in Inorder(l.tree)
    ensures Sound(Dequeued(l, se))
    ensures Inorder(Dequeued(l, se).tree) == Without(Inorder(l.tree), se)
  {
    EraseRemoves(l.tree, se);
    WithoutKeepsLine(Before, Inorder(l.tree), se);
  }

  lemma StepKeeps(l: Line, op: Op)
    requires Sound(l) && Enabled(l, op)
    ensures Sound(Apply(l, op)) && Inorder(Apply(l, op).tree) == StepOnList(Inorder(l.tree), op)
  {
    match op
    case Enqueue(se) => EnqueueKeeps(l, se);
    case Dequeue(se) => DequeueKeeps(l, se);
    case _ =>
  }

  /** Over every sequence of enqueues, dequeues and rebalancings the tree is the
      list that the same sequence makes, in line, with the cache on its head. */
  lemma {:induction false} EveryRunSound(l: Line, ops: seq<Op>, m: Line)
    requires Sound(l) && IsRun(l, ops, m)
    ensures Sound(m) && Inorder(m.tree) == OnList(Inorder(l.tree), ops)
    decreases |ops|
  {
    if ops != [] {
      StepKeeps(l, ops[0]);
      EveryRunSound(Apply(l, ops[0]), ops[1..], m);
    }
  }

  /** min_vruntime never goes back, whatever the running entity and the cache
      say; and where everything lies in one window it becomes the larger of its
      old value and the smallest vruntime around. */
  lemma MinUpdate(l: Line, curr: Option<nat>, base: nat)
    ensures Signed(MinUpdated(l, curr).min - l.min) >= 0
    ensures var off := (v: nat) => Off(base, Entity(0, v));
            && off(l.min) < U64 / 2
            && (curr.Some? ==> off(curr.value) < U64 / 2)
            && (l.leftmost.Some? ==> off(l.leftmost.value.vruntime) < U64 / 2)
            ==> off(MinUpdated(l, curr).min)
                == match (curr, l.leftmost)
                   case (None, None) => off(l.min)
                   case (None, Some(e)) => Max(off(l.min), off(e.vruntime))
                   case (Some(c), None) => Max(off(l.min), off(c))
                   case (Some(c), Some(e)) => Max(off(l.min), Min(off(c), off(e.vruntime)))
  {
    var at := (v: nat) => Entity(0, v);
    var m := at(l.min);
    var c := at(if curr.Some? then curr.value else l.min);
    var e := at(if l.leftmost.Some? then l.leftmost.value.vruntime else l.min);
    if Off(base, m) < U64 / 2 && Off(base, c) < U64 / 2 && Off(base, e) < U64 / 2 {
      BeforeIsLess(base, c, m);
      BeforeIsLess(base, e, m);
      BeforeIsLess(base, e, c);
    }
  }

  // ------------------------------------------------------------------- picking

  /** wakeup_preempt_entity, with the granularity in the units of se */
  function Preempt(curr: Entity, se: Entity, gran: int): int {
    var vdiff := Signed(curr.vruntime - se.vruntime);
    if vdiff <= 0 then -1 else if vdiff > gran then 1 else 0
  }

  predicate Eligible(buddy: Option<Entity>, left: Entity, gran: int) {
    buddy.Some? && Preempt(buddy.value, left, gran) < 1
  }

  datatype Buddies = Buddies(skip: Option<Entity>, last: Option<Entity>, next: Option<Entity>)

  /** pick_next_entity on a list that is not empty */
  function Pick(s: seq<Entity>, b: Buddies, gran: int): Entity
    requires s != []
  {
    var left := s[0];
    var second := Follower(s, left);
    if Eligible(b.next, left, gran) then b.next.value
    else if Eligible(b.last, left, gran) then b.last.value
    else if b.skip == Some(left) && Eligible(second, left, gran) then second.value
    else left
  }

  predicate Queued(s: seq<Entity>, e: Option<Entity>) {
    e.Some? ==> e.value in s
  }

  /** Fairness of the choice, for every combination of buddies. The pick is at
      most one granularity past the leftmost; if the buddies are queued, it is a
      queued entity and at most one granularity past anything queued; and the
      skip buddy runs only if it is nominated as well or no other would be fair. */
  lemma PickFair(s: seq<Entity>, b: Buddies, gran: int)
    requires s != []
    ensures var r := Pick(s, b, gran);
            && Signed(r.vruntime - s[0].vruntime) <= Max(gran, 0)
            && (b.skip == Some(s[0]) && r == s[0] ==>
                  b.next == Some(r) || b.last == Some(r)
                  || |s| == 1 || s[1] == s[0] || Signed(s[1].vruntime - s[0].vruntime) > Max(gran, 0))
    ensures Windowed(s) && InLine(Before, s) && Queued(s, b.next) && Queued(s, b.last)
            ==> var r := Pick(s, b, gran);
                r in s && forall x :: x in s ==> Signed(r.vruntime - x.vruntime) <= Max(gran, 0)
  {
    var r := Pick(s, b, gran);
    assert Follower(s, s[0]) == if |s| > 1 then Some(s[1]) else None;
    if Windowed(s) && InLine(Before, s) && Queued(s, b.next) && Queued(s, b.last) {
      var base: nat :| InWindow(base, s);
      forall x | x in s ensures Signed(r.vruntime - x.vruntime) <= Max(gran, 0) {
        LeftmostIsLeast(base, s, x);
        BeforeIsLess(base, r, x);
        BeforeIsLess(base, r, s[0]);
      }
    }
  }

  /** Running e in place of the leftmost entity is not too unfair. */
  predicate FairEnough(left: Entity, e: Entity, gran: int) {
    Signed(e.vruntime - left.vruntime) <= Max(gran, 0)
  }

  /** The order of preference: a next buddy, a last buddy, whoever comes after a
      leftmost entity that is to be skipped, the leftmost; each only if that is fair
      enough. */
  lemma PickPrefers(s: seq<Entity>, b: Buddies, gran: int)
    requires s != []
    ensures var r, left := Pick(s, b, gran), s[0];
            var next := b.next.Some? && FairEnough(left, b.next.value, gran);
            var last := b.last.Some? && FairEnough(left, b.last.value, gran);
            var skipped := b.skip == Some(left) && |s| > 1 && FairEnough(left, s[1], gran);
            && (next ==> r == b.next.value)
            && (!next && last ==> r == b.last.value)
            && (!next && !last && skipped ==> r == s[1])
            && (!next && !last && !skipped ==> r == left)
  {
    assert Follower(s, s[0]) == if |s| > 1 then Some(s[1]) else None;
  }

  lemma LeftmostIsLeast(base: nat, s: seq<Entity>, x: Entity)
    requires InWindow(base, s) && InLine(Before, s) && x in s
    ensures Off(base, s[0]) <= Off(base, x)
  {
    if x != s[0] {
      assert Ahead(Before, s[0], x);
      BeforeIsLess(base, s[0], x);
      BeforeIsLess(base, x, s[0]);
    }
  }

  // ----------------------------------------------------------------- the queue

  /** The place the descent has reached: the tree around a hole. */
  datatype Path = Top | WentLeft(up: Path, entry: Entity, right: Tree) | WentRight(up: Path, left: Tree, entry: Entity)

  /** rb_link_node: the tree with t in the hole */
  function Plug(path: Path, t: Tree): Tree {
    match path
    case Top => t
    case WentLeft(up, e, r) => Plug(up, Node(t, e, r))
    case WentRight(up, l, e) => Plug(up, Node(l, e, t))
  }

  class CfsRq {
    var tree: Tree
    var leftmost: Option<Entity>
    var minVruntime: nat
    var buddies: Buddies

    ghost function Now(): Line
      reads this
    {
      Line(tree, leftmost, minVruntime)
    }

    constructor ()
      ensures Sound(Now()) && Inorder(tree) == []
    {
      tree, leftmost, minVruntime := Leaf, None, 0;
      buddies := Buddies(None, None, None);
    }

    /** __enqueue_entity */
    method EnqueueEntity(se: Entity, rebalance: Tree -> Tree)
      requires Sound(Now()) && Windowed(Inorder(tree) + [se]) && Newest(Inorder(tree), se)
      requires forall t: Tree :: Inorder(rebalance(t)) == Inorder(t)
      modifies this`tree, this`leftmost
      ensures Sound(Now())
      ensures Inorder(tree) == Insert(Before, old(Inorder(tree)), se)
    {
      EnqueueKeeps(Now(), se);
      var at, path, first := tree, Top, true;
      while at.Node?
        invariant Plug(path, Descend(Before, at, se)) == Descend(Before, tree, se)
        invariant first && NeverRight(Before, at, se) <==> NeverRight(Before, tree, se)
        decreases at
      {
        if Before(se, at.entry) {
          path, at := WentLeft(path, at.entry, at.right), at.left;
        } else {
          path, at, first := WentRight(path, at.left, at.entry), at.right, false;
        }
      }
      if first { leftmost := Some(se); }
      tree := rebalance(Plug(path, Node(Leaf, se, Leaf)));
    }

    /** __dequeue_entity */
    method DequeueEntity(se: Entity, rebalance: Tree -> Tree)
      requires Sound(Now()) && se in Inorder(tree)
      requires forall t: Tree :: Inorder(rebalance(t)) == Inorder(t)
      modifies this`tree, this`leftmost
      ensures Sound(Now())
      ensures Inorder(tree) == Without(old(Inorder(tree)), se)
    {
      DequeueKeeps(Now(), se);
      if leftmost == Some(se) {
        leftmost := Follower(Inorder(tree), se);
      }
      tree := rebalance(Erase(tree, se));
    }

    /** update_min_vruntime */
    method UpdateMinVruntime(curr: Option<nat>)
      modifies this`minVruntime
      ensures Now() == MinUpdated(old(Now()), curr)
    {
      var vruntime := minVruntime;
      if curr.Some? { vruntime := curr.value; }
      if leftmost.Some? {
        var v := leftmost.value.vruntime;
        vruntime := if curr.None? then v else EarlierOf(vruntime, v);
      }
      minVruntime := LaterOf(minVruntime, vruntime);
    }

    /** pick_next_entity on a queue that is not empty */
    method PickNextEntity(gran: int) returns (se: Entity)
      requires Sound(Now()) && leftmost.Some?
      modifies this`buddies
      ensures se == Pick(Inorder(tree), old(buddies), gran)
      ensures Some(se) !in {buddies.skip, buddies.last, buddies.next}
      ensures buddies.skip in {old(buddies.skip), None}
      ensures buddies.last in {old(buddies.last), None} && buddies.next in {old(buddies.next), None}
    {
      var left := leftmost.value;
      se := left;
      if buddies.skip == Some(se) {
        var second := Follower(Inorder(tree), se);
        if second.Some? && Preempt(second.value, left, gran) < 1 { se := second.value; }
      }
      if buddies.last.Some? && Preempt(buddies.last.value, left, gran) < 1 { se := buddies.last.value; }
      if buddies.next.Some? && Preempt(buddies.next.value, left, gran) < 1 { se := buddies.next.value; }
      if buddies.last == Some(se) { buddies := buddies.(last := None); }
      if buddies.next == Some(se) { buddies := buddies.(next := None); }
      if buddies.skip == Some(se) { buddies := buddies.(skip := None); }
    }
  }
}
