// The registry of block cgroup / request queue pairs (blkgs) of one queue: a
// radix tree, a list per block cgroup, a list per queue, a lookup hint, parent
// links and reference counts (3.10/block/blk-cgroup.c, 161-419, 798-820;
// 3.10/block/blk-cgroup.h, 262-338).
//
// Everything here runs under the queue lock. The hint of a block cgroup is
// shared with other queues, so they may put it on a blkg of theirs. Blkgs are
// numbered in the order in which they were allocated.

module BlkgRegistry {
  import opened Common

  /** requests counts the request holders (blk_get_rl); live is false once the
      count has dropped to zero and the blkg was released. */
  datatype Blkg = Blkg(cg: nat, parent: Option<nat>, refcnt: int, requests: nat, live: bool)

  /** blkg_hint: null, a blkg of this queue, or a blkg of another queue */
  datatype Hint = Null | Mine(b: nat) | Other

  /** What the registry knows of one block cgroup: its entry of the radix tree,
      its blkg_list (both for this queue), its hint, and whether it is gone. */
  datatype Cg = Cg(entry: Option<nat>, list: seq<nat>, hint: Hint, offline: bool)

  datatype State = State(heap: seq<Blkg>, cgs: seq<Cg>, list: seq<nat>)

  /** The parent of each cgroup; cgroups are numbered parents first. */
  type Tree = seq<Option<nat>>

  predicate WellFormed(up: Tree) {
    forall c :: 0 <= c < |up| && up[c].Some? ==> up[c].value < c
  }

  // ------------------------------------------------------------------ lookups

  /** __blkg_lookup: the hint if it is of this queue, or the radix tree */
  function Lookup(s: State, c: nat): Option<nat>
    requires c < |s.cgs|
  {
    if s.cgs[c].hint.Mine? then Some(s.cgs[c].hint.b) else s.cgs[c].entry
  }

  function SetCg(s: State, c: nat, g: Cg): State
    requires c < |s.cgs|
  {
    s.(cgs := s.cgs[c := g])
  }

  /** A lookup that updates the hint. */
  function Hinted(s: State, c: nat): State
    requires c < |s.cgs|
  {
    var r := Lookup(s, c);
    if r.Some? then SetCg(s, c, s.cgs[c].(hint := Mine(r.value))) else s
  }

  // --------------------------------------------------------- reference counts

  function SetBlkg(s: State, b: nat, x: Blkg): State
    requires b < |s.heap|
  {
    s.(heap := s.heap[b := x])
  }

  /** blkg_get */
  function Get(s: State, b: nat): State
    requires b < |s.heap|
  {
    SetBlkg(s, b, s.heap[b].(refcnt := s.heap[b].refcnt + 1))
  }

  /** blkg_put with __blkg_release: the last reference gone, the blkg is released
      and its reference on the parent put in turn. */
  function Put(s: State, b: nat): State
    requires b < |s.heap|
    decreases b
  {
    var x := s.heap[b].(refcnt := s.heap[b].refcnt - 1);
    if x.refcnt != 0 then SetBlkg(s, b, x)
    else
      var r := SetBlkg(s, b, x.(live := false));
      if x.parent.Some? && x.parent.value < b then Put(r, x.parent.value) else r
  }

  // -------------------------------------------------------- create and destroy

  /** What blkg_create may run into besides a cgroup that is gone. */
  datatype Luck = Fine | NoMemory | InsertFails

  datatype Outcome = Created(b: nat) | Failed | MissingParent

  function Link(s: State, c: nat, b: nat): State
    requires c < |s.cgs|
  {
    SetCg(s, c, s.cgs[c].(entry := Some(b), list := [b] + s.cgs[c].list)).(list := [b] + s.list)
  }

  /** Allocation, with the reference on the parent. */
  function Allocate(s: State, c: nat, parent: Option<nat>): State {
    var r := s.(heap := s.heap + [Blkg(c, parent, 1, 0, true)]);
    if parent.Some? && parent.value < |s.heap| then Get(r, parent.value) else r
  }

  /** blkg_create */
  function Create(up: Tree, s: State, c: nat, luck: Luck): (State, Outcome)
    requires WellFormed(up) && |up| == |s.cgs| && c < |s.cgs|
  {
    var parent := if up[c].Some? then Lookup(s, up[c].value) else None;
    if s.cgs[c].offline || luck.NoMemory? then (s, Failed)
    else if up[c].Some? && parent.None? then (s, MissingParent)
    else
      var b, r := |s.heap|, Allocate(s, c, parent);
      if luck.InsertFails? || s.cgs[c].entry.Some? then (Put(r, b), Failed) else (Link(r, c, b), Created(b))
  }

  function Remove(l: seq<nat>, b: nat): seq<nat> {
    if l == [] then [] else if l[0] == b then l[1..] else [l[0]] + Remove(l[1..], b)
  }

  /** The removals of blkg_destroy, before it puts its reference. */
  function Unlink(s: State, b: nat): State
    requires b < |s.heap| && s.heap[b].cg < |s.cgs|
  {
    var c := s.heap[b].cg;
    var g := s.cgs[c];
    SetCg(s, c, g.(entry := None, list := Remove(g.list, b), hint := if g.hint == Mine(b) then Null else g.hint))
      .(list := Remove(s.list, b))
  }

  /** blkg_destroy */
  function Destroy(s: State, b: nat): State
    requires b < |s.heap| && s.heap[b].cg < |s.cgs|
  {
    Put(Unlink(s, b), b)
  }

  // --------------------------------------------------------------- invariants

  predicate Sized(up: Tree, s: State) {
    && |s.cgs| == |up|
    && (forall i :: 0 <= i < |s.heap| ==> s.heap[i].cg < |up|)
  }

  /** One cgroup: tree and blkcg list say the same, and the hint is null, of
      another queue, or a member. */
  predicate CgSound(s: State, c: nat)
    requires c < |s.cgs|
  {
    var g := s.cgs[c];
    && g.list == (if g.entry.Some? then [g.entry.value] else [])
    && (g.entry.Some? ==> g.entry.value < |s.heap| && s.heap[g.entry.value].cg == c)
    && (g.hint.Mine? ==> g.entry == Some(g.hint.b))
  }

  predicate Member(s: State, b: nat) {
    b < |s.heap| && s.heap[b].cg < |s.cgs| && s.cgs[s.heap[b].cg].entry == Some(b)
  }

  /** The queue list holds the members, youngest first. */
  ghost predicate ListSound(s: State) {
    && (forall i, j :: 0 <= i < j < |s.list| ==> s.list[i] > s.list[j])
    && (forall b: nat :: b in s.list <==> Member(s, b))
  }

  /** A blkg's parent is an older blkg of the parent cgroup; while the blkg is a
      member, so is its parent. */
  predicate ParentSound(up: Tree, s: State, b: nat)
    requires Sized(up, s) && b < |s.heap|
  {
    var x := s.heap[b];
    && (x.parent.Some? <==> up[x.cg].Some?)
    && (x.parent.Some? ==> x.parent.value < b && s.heap[x.parent.value].cg == up[x.cg].value)
    && (x.parent.Some? && Member(s, b) ==> Member(s, x.parent.value))
  }

  /** A cgroup that is gone has only children that are gone and emptied. */
  predicate OfflineSound(up: Tree, s: State)
    requires WellFormed(up) && Sized(up, s)
  {
    forall c :: 0 <= c < |up| && up[c].Some? && s.cgs[up[c].value].offline ==>
      s.cgs[c].offline && s.cgs[c].entry.None?
  }

  function Children(heap: seq<Blkg>, b: nat): nat {
    if heap == [] then 0
    else (if heap[0].live && heap[0].parent == Some(b) then 1 else 0) + Children(heap[1..], b)
  }

  /** Membership, unreleased children and request holders. */
  function Owed(s: State, b: nat): nat
    requires b < |s.heap|
  {
    (if Member(s, b) then 1 else 0) + Children(s.heap, b) + s.heap[b].requests
  }

  /** The count of b is right, with d references more than owed. */
  predicate Counted(s: State, b: nat, d: nat)
    requires b < |s.heap|
  {
    s.heap[b].refcnt == Owed(s, b) + d && (s.heap[b].live <==> s.heap[b].refcnt > 0)
  }

  predicate AllCounted(s: State) {
    forall b: nat :: b < |s.heap| ==> Counted(s, b, 0)
  }

  /** Every count is right but that of h, which is one too high. */
  predicate CountedBut(s: State, h: nat) {
    && h < |s.heap| && Counted(s, h, 1)
    && (forall b: nat :: b < |s.heap| && b != h ==> Counted(s, b, 0))
  }

  ghost predicate Linked(up: Tree, s: State)
    requires WellFormed(up)
  {
    && Sized(up, s)
    && (forall c :: 0 <= c < |s.cgs| ==> CgSound(s, c))
    && ListSound(s)
    && (forall b: nat :: b < |s.heap| ==> ParentSound(up, s, b))
    && OfflineSound(up, s)
  }

  ghost predicate Inv(up: Tree, s: State)
    requires WellFormed(up)
  {
    Linked(up, s) && AllCounted(s)
  }

  /** Hinted lookup is tree lookup. */
  lemma HintIsTree(up: Tree, s: State, c: nat)
    requires WellFormed(up) && Linked(up, s) && c < |s.cgs|
    ensures Lookup(s, c) == s.cgs[c].entry
  {
    assert CgSound(s, c);
  }

  // ---------------------------------------------------------------- releasing

  lemma {:induction false} ChildrenUpdate(heap: seq<Blkg>, i: nat, x: Blkg, b: nat)
    requires i < |heap|
    ensures Children(heap[i := x], b)
         == Children(heap, b) - (if heap[i].live && heap[i].parent == Some(b) then 1 else 0)
            + (if x.live && x.parent == Some(b) then 1 else 0)
  {
    if i == 0 {
      assert heap[i := x][1..] == heap[1..];
    } else {
      assert heap[i := x][1..] == heap[1..][i - 1 := x];
      ChildrenUpdate(heap[1..], i - 1, x, b);
    }
  }

  lemma {:induction false} ChildrenAppend(heap: seq<Blkg>, x: Blkg, b: nat)
    ensures Children(heap + [x], b) == Children(heap, b) + if x.live && x.parent == Some(b) then 1 else 0
  {
    if heap == [] {
      assert heap + [x] == [x] && [x][1..] == [];
    } else {
      assert (heap + [x])[1..] == heap[1..] + [x];
      ChildrenAppend(heap[1..], x, b);
    }
  }

  /** What a put may change: counts and the live flag. */
  predicate SameButCounts(s: State, t: State) {
    && t.cgs == s.cgs && t.list == s.list && |t.heap| == |s.heap|
    && (forall b :: 0 <= b < |s.heap| ==>
          t.heap[b] == s.heap[b].(refcnt := t.heap[b].refcnt, live := t.heap[b].live))
    && (forall b :: 0 <= b < |s.heap| && t.heap[b].live ==> s.heap[b].live)
  }

  predicate Older(s: State) {
    forall b :: 0 <= b < |s.heap| && s.heap[b].parent.Some? ==> s.heap[b].parent.value < b
  }

  /** One reference less, with others left. */
  lemma PutOne(s: State, h: nat)
    requires CountedBut(s, h) && s.heap[h].refcnt != 1
    ensures AllCounted(SetBlkg(s, h, s.heap[h].(refcnt := s.heap[h].refcnt - 1)))
  {
    var x := s.heap[h].(refcnt := s.heap[h].refcnt - 1);
    var t := SetBlkg(s, h, x);
    forall b: nat | b < |t.heap| ensures Counted(t, b, 0) {
      ChildrenUpdate(s.heap, h, x, b);
      assert b != h ==> Counted(s, b, 0);
    }
  }

  /** The last reference gone: the one too many is now on the parent. */
  lemma PutLast(s: State, h: nat)
    requires CountedBut(s, h) && Older(s) && s.heap[h].refcnt == 1
    ensures var t, parent := SetBlkg(s, h, s.heap[h].(refcnt := 0, live := false)), s.heap[h].parent;
            if parent.Some? then CountedBut(t, parent.value) else AllCounted(t)
  {
    var x := s.heap[h].(refcnt := 0, live := false);
    var t := SetBlkg(s, h, x);
    forall b: nat | b < |t.heap| && x.parent != Some(b) ensures Counted(t, b, 0) {
      ChildrenUpdate(s.heap, h, x, b);
      assert b != h ==> Counted(s, b, 0);
    }
    if x.parent.Some? {
      ChildrenUpdate(s.heap, h, x, x.parent.value);
      assert Counted(s, x.parent.value, 0);
    }
  }

  /** Putting the one reference too many makes every count right again, however
      far up the releases run. */
  lemma {:induction false} PutRestores(s: State, h: nat)
    requires CountedBut(s, h) && Older(s)
    ensures SameButCounts(s, Put(s, h)) && AllCounted(Put(s, h))
    decreases h
  {
    if s.heap[h].refcnt != 1 {
      PutOne(s, h);
    } else {
      var r := SetBlkg(s, h, s.heap[h].(refcnt := 0, live := false));
      PutLast(s, h);
      if s.heap[h].parent.Some? {
        var p := s.heap[h].parent.value;
        PutRestores(r, p);
        assert Put(s, h) == Put(r, p);
      } else {
        assert Put(s, h) == r;
      }
    }
  }

  lemma LinkedSame(up: Tree, s: State, t: State)
    requires WellFormed(up) && Linked(up, s) && SameButCounts(s, t)
    ensures Linked(up, t)
  {
    assert forall b: nat :: Member(t, b) <==> Member(s, b);
    forall c | 0 <= c < |t.cgs| ensures CgSound(t, c) {
      assert CgSound(s, c);
    }
    forall b: nat | b < |t.heap| ensures ParentSound(up, t, b) {
      assert ParentSound(up, s, b);
    }
  }

  lemma LinkedOlder(up: Tree, s: State)
    requires WellFormed(up) && Linked(up, s)
    ensures Older(s)
  {
    forall b | 0 <= b < |s.heap| && s.heap[b].parent.Some? ensures s.heap[b].parent.value < b {
      assert ParentSound(up, s, b);
    }
  }

  // ----------------------------------------------------------------- creating

  predicate FitParent(up: Tree, s: State, c: nat, parent: Option<nat>)
    requires |up| == |s.cgs| && c < |up|
  {
    && (parent.Some? <==> up[c].Some?)
    && (parent.Some? ==> Member(s, parent.value) && s.heap[parent.value].cg == up[c].value)
  }

  lemma AllocateLinked(up: Tree, s: State, c: nat, parent: Option<nat>)
    requires WellFormed(up) && Linked(up, s) && c < |up| && FitParent(up, s, c, parent)
    ensures Linked(up, Allocate(s, c, parent))
  {
    var r := Allocate(s, c, parent);
    assert forall b: nat :: Member(r, b) <==> Member(s, b) by {
      forall b: nat ensures Member(r, b) <==> Member(s, b) {
        if Member(r, b) { assert CgSound(s, r.heap[b].cg); }
      }
    }
    forall d | 0 <= d < |r.cgs| ensures CgSound(r, d) {
      assert CgSound(s, d);
    }
    forall b: nat | b < |r.heap| ensures ParentSound(up, r, b) {
      if b < |s.heap| { assert ParentSound(up, s, b); }
    }
  }

  /** The new blkg has one reference more than anyone accounts for yet. */
  lemma AllocateCounted(up: Tree, s: State, c: nat, parent: Option<nat>)
    requires WellFormed(up) && Inv(up, s) && c < |up| && FitParent(up, s, c, parent)
    ensures CountedBut(Allocate(s, c, parent), |s.heap|)
  {
    var n, x := |s.heap|, Blkg(c, parent, 1, 0, true);
    var a, r := s.heap + [x], Allocate(s, c, parent);
    forall b: nat | b <= n ensures Children(r.heap, b) == Children(s.heap, b) + if parent == Some(b) then 1 else 0 {
      ChildrenAppend(s.heap, x, b);
      if parent.Some? {
        ChildrenUpdate(a, parent.value, r.heap[parent.value], b);
      }
    }
    NoChildren(up, s, n);
    forall b: nat | b < n ensures Counted(r, b, 0) {
      assert Counted(s, b, 0);
      assert Member(r, b) <==> Member(s, b);
    }
    assert !Member(r, n) by {
      assert CgSound(s, c);
    }
  }

  /** Nobody's parent is a blkg that does not exist yet. */
  lemma NoChildren(up: Tree, s: State, n: nat)
    requires WellFormed(up) && Linked(up, s) && |s.heap| <= n
    ensures Children(s.heap, n) == 0
  {
    forall b: nat | b < |s.heap| ensures s.heap[b].parent != Some(n) {
      assert ParentSound(up, s, b);
    }
    NoneOf(s.heap, n);
  }

  lemma {:induction false} NoneOf(heap: seq<Blkg>, n: nat)
    requires forall b :: 0 <= b < |heap| ==> heap[b].parent != Some(n) || !heap[b].live
    ensures Children(heap, n) == 0
  {
    if heap != [] {
      NoneOf(heap[1..], n);
    }
  }

  lemma LinkLinked(up: Tree, s: State, c: nat, b: nat)
    requires WellFormed(up) && Linked(up, s) && c < |up| && s.cgs[c].entry.None? && !s.cgs[c].offline
    requires b < |s.heap| && s.heap[b].cg == c && (forall i :: 0 <= i < |s.list| ==> s.list[i] < b)
    requires FitParent(up, s, c, s.heap[b].parent)
    ensures Linked(up, Link(s, c, b))
    ensures forall x: nat :: Member(Link(s, c, b), x) <==> Member(s, x) || x == b
  {
    var r := Link(s, c, b);
    forall x: nat ensures Member(r, x) <==> Member(s, x) || x == b {
    }
    forall d | 0 <= d < |r.cgs| ensures CgSound(r, d) {
      assert CgSound(s, d);
    }
    forall x: nat | x < |r.heap| ensures ParentSound(up, r, x) {
      assert ParentSound(up, s, x);
    }
    forall x: nat ensures x in r.list <==> Member(r, x) {
      assert x in s.list <==> Member(s, x);
    }
  }

  lemma LinkCounted(up: Tree, s: State, c: nat, b: nat)
    requires WellFormed(up) && Linked(up, s) && c < |up| && CountedBut(s, b) && !Member(s, b)
    requires forall x: nat :: Member(Link(s, c, b), x) <==> Member(s, x) || x == b
    ensures AllCounted(Link(s, c, b))
  {
    var r := Link(s, c, b);
    forall x: nat | x < |r.heap| ensures Counted(r, x, 0) {
      assert Member(r, x) <==> Member(s, x) || x == b;
      if x != b { assert Counted(s, x, 0); }
    }
  }

  /** blkg_create keeps the registry sound on every path, and the missing-parent
      path is taken only if the parent is missing. */
  lemma CreateKeeps(up: Tree, s: State, c: nat, luck: Luck)
    requires WellFormed(up) && Inv(up, s) && c < |up|
    ensures var (t, o) := Create(up, s, c, luck);
            && Inv(up, t)
            && (o.Created? ==> o.b == |s.heap| && t.cgs == s.cgs[c := t.cgs[c]] && t.cgs[c].entry == Some(o.b))
            && (!o.Created? ==> t.cgs == s.cgs)
            && (o.MissingParent? ==> up[c].Some? && s.cgs[up[c].value].entry.None?)
  {
    var parent := if up[c].Some? then Lookup(s, up[c].value) else None;
    if up[c].Some? { HintIsTree(up, s, up[c].value); assert CgSound(s, up[c].value); }
    if !s.cgs[c].offline && !luck.NoMemory? && (up[c].Some? ==> parent.Some?) {
      var b, r := |s.heap|, Allocate(s, c, parent);
      AllocateLinked(up, s, c, parent);
      AllocateCounted(up, s, c, parent);
      if luck.InsertFails? || s.cgs[c].entry.Some? {
        LinkedOlder(up, r);
        PutRestores(r, b);
        LinkedSame(up, r, Put(r, b));
      } else {
        forall i | 0 <= i < |r.list| ensures r.list[i] < b {
          assert Member(s, s.list[i]);
        }
        LinkLinked(up, r, c, b);
        LinkCounted(up, r, c, b);
      }
    }
  }

  // --------------------------------------------------------------- destroying

  lemma {:induction false} RemoveDecreasing(l: seq<nat>, b: nat)
    requires forall i, j :: 0 <= i < j < |l| ==> l[i] > l[j]
    ensures var r := Remove(l, b);
            && (forall x: nat :: x in r <==> x in l && x != b)
            && (forall i, j :: 0 <= i < j < |r| ==> r[i] > r[j])
  {
    if l != [] {
      RemoveDecreasing(l[1..], b);
      assert l == [l[0]] + l[1..];
      if l[0] != b {
        var r := Remove(l[1..], b);
        forall i | 0 <= i < |r| ensures l[0] > r[i] {
          assert r[i] in l[1..];
        }
      }
    }
  }

  /** No member has b as its parent. */
  ghost predicate Childless(s: State, b: nat) {
    forall x: nat :: Member(s, x) ==> s.heap[x].parent != Some(b)
  }

  lemma UnlinkLinked(up: Tree, s: State, b: nat)
    requires WellFormed(up) && Linked(up, s) && Member(s, b) && Childless(s, b)
    ensures Linked(up, Unlink(s, b))
    ensures forall x: nat :: Member(Unlink(s, b), x) <==> Member(s, x) && x != b
  {
    var r := Unlink(s, b);
    forall x: nat ensures Member(r, x) <==> Member(s, x) && x != b {
    }
    RemoveDecreasing(s.list, b);
    forall d | 0 <= d < |r.cgs| ensures CgSound(r, d) {
      assert CgSound(s, d);
    }
    forall x: nat | x < |r.heap| ensures ParentSound(up, r, x) {
      assert ParentSound(up, s, x);
    }
    forall x: nat ensures x in r.list <==> Member(r, x) {
      assert x in s.list <==> Member(s, x);
    }
  }

  /** blkg_destroy takes the blkg out of all three indexes and the hint, and
      puts exactly the reference of its membership. */
  lemma DestroyKeeps(up: Tree, s: State, b: nat)
    requires WellFormed(up) && Inv(up, s) && Member(s, b) && Childless(s, b)
    ensures var t := Destroy(s, b);
            && Inv(up, t) && SameButCounts(Unlink(s, b), t)
            && (forall x: nat :: Member(t, x) <==> Member(s, x) && x != b)
  {
    var r := Unlink(s, b);
    UnlinkLinked(up, s, b);
    forall x: nat | x < |r.heap| && x != b ensures Counted(r, x, 0) {
      assert Counted(s, x, 0) && (Member(r, x) <==> Member(s, x));
    }
    assert Counted(s, b, 0);
    LinkedOlder(up, r);
    PutRestores(r, b);
    LinkedSame(up, r, Put(r, b));
  }

  /** blkg_destroy_all: walks the queue list from its head */
  function DestroyEach(s: State, todo: seq<nat>): State
    decreases |todo|
  {
    if todo == [] || todo[0] >= |s.heap| || s.heap[todo[0]].cg >= |s.cgs| then s
    else DestroyEach(Destroy(s, todo[0]), todo[1..])
  }

  /** The head of the queue list has no member below it. */
  lemma HeadChildless(up: Tree, s: State)
    requires WellFormed(up) && Linked(up, s) && s.list != []
    ensures Member(s, s.list[0]) && Childless(s, s.list[0])
  {
    var b := s.list[0];
    assert b in s.list;
    forall x: nat | Member(s, x) ensures s.heap[x].parent != Some(b) {
      assert x in s.list && ParentSound(up, s, x);
    }
  }

  /** Children go first, so every single destruction is in order; at the end no
      member is left. */
  lemma {:induction false} DestroyAllKeeps(up: Tree, s: State, todo: seq<nat>)
    requires WellFormed(up) && Inv(up, s) && todo == s.list
    ensures var t := DestroyEach(s, todo);
            && Inv(up, t) && t.list == [] && |t.heap| == |s.heap|
            && (forall b: nat :: !Member(t, b))
            && (forall b :: 0 <= b < |s.heap| ==> t.heap[b].requests == s.heap[b].requests)
    decreases |todo|
  {
    if todo == [] {
      forall b: nat ensures !Member(s, b) {
        assert b !in s.list;
      }
    } else {
      var b := todo[0];
      HeadChildless(up, s);
      DestroyKeeps(up, s, b);
      DestroyAllKeeps(up, Destroy(s, b), todo[1..]);
    }
  }

  /** Nothing leaks: with no members and no request holders left, every blkg that
      was ever allocated has been released. */
  lemma {:induction false} NothingLeaks(up: Tree, s: State, n: nat)
    requires WellFormed(up) && Inv(up, s) && n <= |s.heap|
    requires forall b: nat :: !Member(s, b)
    requires forall b :: 0 <= b < |s.heap| ==> s.heap[b].requests == 0
    ensures forall b :: n <= b < |s.heap| ==> !s.heap[b].live
    decreases |s.heap| - n
  {
    if n < |s.heap| {
      NothingLeaks(up, s, n + 1);
      forall b: nat | b < |s.heap| ensures s.heap[b].parent != Some(n) || !s.heap[b].live {
        assert ParentSound(up, s, b);
      }
      NoneOf(s.heap, n);
      assert Counted(s, n, 0);
    }
  }

  // -------------------------------------------------------- lookup and create

  /** The inner loop of blkg_lookup_create: the topmost ancestor, starting at c,
      whose parent has a blkg or which is the root */
  function TopMissing(up: Tree, s: State, c: nat): nat
    requires WellFormed(up) && |up| == |s.cgs| && c < |up|
    ensures TopMissing(up, s, c) < |up|
    decreases c
  {
    if up[c].Some? && Lookup(s, up[c].value).None? then TopMissing(up, s, up[c].value) else c
  }

  /** How many cgroups from c up to the root have no blkg. */
  function Missing(up: Tree, s: State, c: nat): nat
    requires WellFormed(up) && |up| == |s.cgs| && c < |up|
    decreases c
  {
    (if s.cgs[c].entry.None? then 1 else 0) + if up[c].Some? then Missing(up, s, up[c].value) else 0
  }

  lemma {:induction false} MissingSame(up: Tree, s: State, t: State, c: nat, pos: nat)
    requires WellFormed(up) && |up| == |s.cgs| && c < |up| && c < pos < |up|
    requires |t.cgs| == |s.cgs| && t.cgs == s.cgs[pos := t.cgs[pos]]
    ensures Missing(up, t, c) == Missing(up, s, c)
    decreases c
  {
    if up[c].Some? {
      MissingSame(up, s, t, up[c].value, pos);
    }
  }

  /** Creating the topmost missing blkg leaves one less to create. */
  lemma {:induction false} MissingShrinks(up: Tree, s: State, t: State, c: nat)
    requires WellFormed(up) && Linked(up, s) && c < |up| && s.cgs[c].entry.None?
    requires var pos := TopMissing(up, s, c);
             |t.cgs| == |s.cgs| && t.cgs == s.cgs[pos := t.cgs[pos]] && t.cgs[pos].entry.Some?
    ensures Missing(up, t, c) == Missing(up, s, c) - 1
    decreases c
  {
    if up[c].Some? {
      var p := up[c].value;
      HintIsTree(up, s, p);
      if s.cgs[p].entry.None? {
        MissingShrinks(up, s, t, p);
        TopMissingBelow(up, s, p);
      } else {
        MissingSame(up, s, t, p, c);
      }
    }
  }

  lemma {:induction false} TopMissingBelow(up: Tree, s: State, c: nat)
    requires WellFormed(up) && Linked(up, s) && c < |up|
    ensures var pos := TopMissing(up, s, c);
            pos <= c && (up[pos].Some? ==> s.cgs[up[pos].value].entry.Some?)
    decreases c
  {
    if up[c].Some? {
      HintIsTree(up, s, up[c].value);
      if s.cgs[up[c].value].entry.None? {
        TopMissingBelow(up, s, up[c].value);
      }
    }
  }

  /** The outer loop: create the topmost missing one until it is c itself */
  function FillIn(up: Tree, s: State, c: nat, luck: nat -> Luck): (State, Outcome)
    requires WellFormed(up) && Inv(up, s) && c < |up| && s.cgs[c].entry.None?
    decreases Missing(up, s, c)
  {
    var pos := TopMissing(up, s, c);
    var (t, o) := Create(up, s, pos, luck(pos));
    CreateKeeps(up, s, pos, luck(pos));
    if pos == c || !o.Created? then (t, o)
    else
      MissingShrinks(up, s, t, c);
      FillIn(up, t, c, luck)
  }

  /** blkg_lookup_create creates every missing ancestor from the top, never meets
      a missing parent, and hands back the blkg of c or an error. */
  lemma {:induction false} FillInKeeps(up: Tree, s: State, c: nat, luck: nat -> Luck)
    requires WellFormed(up) && Inv(up, s) && c < |up| && s.cgs[c].entry.None?
    ensures var (t, o) := FillIn(up, s, c, luck);
            && Inv(up, t) && !o.MissingParent?
            && (o.Created? ==> t.cgs[c].entry == Some(o.b) && !s.cgs[c].offline)
            && |t.heap| >= |s.heap| && (forall b :: 0 <= b < |s.heap| ==> t.heap[b].requests == s.heap[b].requests)
    decreases Missing(up, s, c)
  {
    var pos := TopMissing(up, s, c);
    var (t, o) := Create(up, s, pos, luck(pos));
    CreateKeeps(up, s, pos, luck(pos));
    TopMissingBelow(up, s, c);
    CreateRequests(up, s, pos, luck(pos));
    if pos != c && o.Created? {
      MissingShrinks(up, s, t, c);
      FillInKeeps(up, t, c, luck);
    }
  }

  lemma CreateRequests(up: Tree, s: State, c: nat, luck: Luck)
    requires WellFormed(up) && Inv(up, s) && c < |up|
    ensures var t := Create(up, s, c, luck).0;
            |t.heap| >= |s.heap| && forall b :: 0 <= b < |s.heap| ==> t.heap[b].requests == s.heap[b].requests
  {
    var parent := if up[c].Some? then Lookup(s, up[c].value) else None;
    if up[c].Some? { HintIsTree(up, s, up[c].value); assert CgSound(s, up[c].value); }
    if up[c].Some? ==> parent.Some? {
      var r := Allocate(s, c, parent);
      AllocateLinked(up, s, c, parent);
      AllocateCounted(up, s, c, parent);
      LinkedOlder(up, r);
      PutRestores(r, |s.heap|);
    }
  }

  lemma {:induction false} OnlineAncestors(up: Tree, s: State, c: nat)
    requires WellFormed(up) && Linked(up, s) && c < |up| && !s.cgs[c].offline
    ensures !s.cgs[TopMissing(up, s, c)].offline
    decreases c
  {
    if up[c].Some? {
      assert !s.cgs[up[c].value].offline;
      OnlineAncestors(up, s, up[c].value);
    }
  }

  /** If memory does not run out, it fails only for a cgroup that is gone. */
  lemma {:induction false} FillInSucceeds(up: Tree, s: State, c: nat, luck: nat -> Luck)
    requires WellFormed(up) && Inv(up, s) && c < |up| && s.cgs[c].entry.None?
    requires !s.cgs[c].offline && forall d :: luck(d).Fine?
    ensures FillIn(up, s, c, luck).1.Created?
    decreases Missing(up, s, c)
  {
    var pos := TopMissing(up, s, c);
    var (t, o) := Create(up, s, pos, luck(pos));
    CreateKeeps(up, s, pos, luck(pos));
    TopMissingBelow(up, s, c);
    OnlineAncestors(up, s, c);
    MissingTop(up, s, c);
    if up[pos].Some? { HintIsTree(up, s, up[pos].value); }
    assert o.Created?;
    if pos != c {
      MissingShrinks(up, s, t, c);
      FillInSucceeds(up, t, c, luck);
    }
  }

  lemma {:induction false} MissingTop(up: Tree, s: State, c: nat)
    requires WellFormed(up) && Linked(up, s) && c < |up| && s.cgs[c].entry.None?
    ensures s.cgs[TopMissing(up, s, c)].entry.None?
    decreases c
  {
    if up[c].Some? {
      HintIsTree(up, s, up[c].value);
      if s.cgs[up[c].value].entry.None? {
        MissingTop(up, s, up[c].value);
      }
    }
  }

  // ---------------------------------------------------------- request holders

  /** blk_get_rl, once it has the blkg */
  function Hold(s: State, b: nat): State
    requires b < |s.heap|
  {
    SetBlkg(s, b, s.heap[b].(refcnt := s.heap[b].refcnt + 1, requests := s.heap[b].requests + 1))
  }

  /** blk_put_rl for a list that is not the root's */
  function Drop(s: State, b: nat): State
    requires b < |s.heap| && s.heap[b].requests > 0
  {
    Put(SetBlkg(s, b, s.heap[b].(requests := s.heap[b].requests - 1)), b)
  }

  predicate SameLinks(s: State, t: State) {
    && t.cgs == s.cgs && t.list == s.list && |t.heap| == |s.heap|
    && (forall b :: 0 <= b < |s.heap| ==> t.heap[b].cg == s.heap[b].cg && t.heap[b].parent == s.heap[b].parent)
  }

  lemma SameLinksLinked(up: Tree, s: State, t: State)
    requires WellFormed(up) && Linked(up, s) && SameLinks(s, t)
    ensures Linked(up, t) && forall b: nat :: Member(t, b) <==> Member(s, b)
  {
    forall c | 0 <= c < |t.cgs| ensures CgSound(t, c) {
      assert CgSound(s, c);
    }
    forall b: nat | b < |t.heap| ensures ParentSound(up, t, b) {
      assert ParentSound(up, s, b);
    }
  }

  lemma HoldKeeps(up: Tree, s: State, b: nat)
    requires WellFormed(up) && Inv(up, s) && Member(s, b)
    ensures Inv(up, Hold(s, b))
  {
    var t := Hold(s, b);
    SameLinksLinked(up, s, t);
    forall x: nat | x < |t.heap| ensures Counted(t, x, 0) {
      ChildrenUpdate(s.heap, b, t.heap[b], x);
      assert Counted(s, x, 0) && Counted(s, b, 0);
    }
  }

  lemma DropKeeps(up: Tree, s: State, b: nat)
    requires WellFormed(up) && Inv(up, s) && b < |s.heap| && s.heap[b].requests > 0
    ensures Inv(up, Drop(s, b))
  {
    var r := SetBlkg(s, b, s.heap[b].(requests := s.heap[b].requests - 1));
    SameLinksLinked(up, s, r);
    forall x: nat | x < |r.heap| && x != b ensures Counted(r, x, 0) {
      ChildrenUpdate(s.heap, b, r.heap[b], x);
      assert Counted(s, x, 0);
    }
    ChildrenUpdate(s.heap, b, r.heap[b], b);
    assert Counted(s, b, 0);
    LinkedOlder(up, r);
    PutRestores(r, b);
    LinkedSame(up, r, Put(r, b));
  }

  // --------------------------------------------------------------- whole runs

  datatype Op =
    | Find(c: nat)                          // a lookup that updates the hint
    | FindCreate(c: nat, luck: nat -> Luck) // blkg_lookup_create of a missing one
    | Holding(c: nat)                       // blk_get_rl of a present one
    | Dropping(b: nat)                      // blk_put_rl
    | DestroyAll                            // blkg_destroy_all
    | GoOffline(c: nat)                     // the cgroup is being removed
    | Offline(c: nat)                       // blkcg_css_offline
    | OtherQueue(c: nat, hint: Hint)        // another queue moves the hint

  ghost predicate Enabled(up: Tree, s: State, op: Op)
    requires WellFormed(up) && Inv(up, s)
  {
    match op
    case Find(c) => c < |up|
    case FindCreate(c, _) => c < |up| && s.cgs[c].entry.None?
    case Holding(c) => c < |up| && s.cgs[c].entry.Some?
    case Dropping(b) => b < |s.heap| && s.heap[b].requests > 0
    case DestroyAll => true
    case GoOffline(c) =>
      c < |up| && forall d :: 0 <= d < |up| && up[d] == Some(c) ==> s.cgs[d].offline && s.cgs[d].entry.None?
    case Offline(c) => c < |up| && s.cgs[c].offline && s.cgs[c].entry.Some?
    case OtherQueue(c, hint) => c < |up| && (hint.Other? || (hint.Null? && s.cgs[c].hint.Other?))
  }

  function Apply(up: Tree, s: State, op: Op): State
    requires WellFormed(up) && Inv(up, s) && Enabled(up, s, op)
  {
    match op
    case Find(c) => Hinted(s, c)
    case FindCreate(c, luck) => FillIn(up, s, c, luck).0
    case Holding(c) => assert CgSound(s, c); Hold(s, s.cgs[c].entry.value)
    case Dropping(b) => Drop(s, b)
    case DestroyAll => DestroyEach(s, s.list)
    case GoOffline(c) => SetCg(s, c, s.cgs[c].(offline := true))
    case Offline(c) => assert CgSound(s, c); Destroy(s, s.cgs[c].entry.value)
    case OtherQueue(c, hint) => SetCg(s, c, s.cgs[c].(hint := hint))
  }

  /** Hints and the offline mark, nothing else. */
  predicate SameEntries(s: State, t: State) {
    && t.heap == s.heap && t.list == s.list && |t.cgs| == |s.cgs|
    && (forall c :: 0 <= c < |s.cgs| ==> t.cgs[c].entry == s.cgs[c].entry && t.cgs[c].list == s.cgs[c].list)
  }

  lemma SameEntriesInv(up: Tree, s: State, t: State)
    requires WellFormed(up) && Inv(up, s) && SameEntries(s, t) && OfflineSound(up, t)
    requires forall c :: 0 <= c < |t.cgs| && t.cgs[c].hint.Mine? ==> t.cgs[c].entry == Some(t.cgs[c].hint.b)
    ensures Inv(up, t)
  {
    forall b: nat ensures Member(t, b) <==> Member(s, b) {
    }
    forall c | 0 <= c < |t.cgs| ensures CgSound(t, c) {
      assert CgSound(s, c);
    }
    forall b: nat | b < |t.heap| ensures ParentSound(up, t, b) && Counted(t, b, 0) {
      assert ParentSound(up, s, b) && Counted(s, b, 0);
    }
  }

  /** The cgroup being removed has no member below it. */
  lemma OfflineChildless(up: Tree, s: State, c: nat)
    requires WellFormed(up) && Inv(up, s) && c < |up| && s.cgs[c].offline && s.cgs[c].entry.Some?
    ensures Member(s, s.cgs[c].entry.value) && Childless(s, s.cgs[c].entry.value)
  {
    var b := s.cgs[c].entry.value;
    assert CgSound(s, c);
    forall x: nat | Member(s, x) ensures s.heap[x].parent != Some(b) {
      assert ParentSound(up, s, x);
    }
  }

  lemma StepKeeps(up: Tree, s: State, op: Op)
    requires WellFormed(up) && Inv(up, s) && Enabled(up, s, op)
    ensures Inv(up, Apply(up, s, op))
  {
    match op
    case Find(c) =>
      HintIsTree(up, s, c);
      HintsSound(s);
      SameEntriesInv(up, s, Hinted(s, c));
    case FindCreate(c, luck) => FillInKeeps(up, s, c, luck);
    case Holding(c) =>
      assert CgSound(s, c);
      HoldKeeps(up, s, s.cgs[c].entry.value);
    case Dropping(b) => DropKeeps(up, s, b);
    case DestroyAll => DestroyAllKeeps(up, s, s.list);
    case GoOffline(c) =>
      HintsSound(s);
      SameEntriesInv(up, s, Apply(up, s, op));
    case Offline(c) =>
      OfflineChildless(up, s, c);
      DestroyKeeps(up, s, s.cgs[c].entry.value);
    case OtherQueue(c, hint) =>
      HintsSound(s);
      SameEntriesInv(up, s, Apply(up, s, op));
  }

  lemma HintsSound(s: State)
    requires forall c :: 0 <= c < |s.cgs| ==> CgSound(s, c)
    ensures forall c :: 0 <= c < |s.cgs| && s.cgs[c].hint.Mine? ==> s.cgs[c].entry == Some(s.cgs[c].hint.b)
  {
    forall c | 0 <= c < |s.cgs| && s.cgs[c].hint.Mine? ensures s.cgs[c].entry == Some(s.cgs[c].hint.b) {
      assert CgSound(s, c);
    }
  }

  ghost predicate IsRun(up: Tree, s: State, ops: seq<Op>, t: State)
    requires WellFormed(up) && Inv(up, s)
    decreases |ops|
  {
    if ops == [] then t == s
    else
      Enabled(up, s, ops[0]) &&
      (StepKeeps(up, s, ops[0]);
       IsRun(up, Apply(up, s, ops[0]), ops[1..], t))
  }

  lemma {:induction false} RunKeeps(up: Tree, s: State, ops: seq<Op>, t: State)
    requires WellFormed(up) && Inv(up, s) && IsRun(up, s, ops, t)
    ensures Inv(up, t)
    decreases |ops|
  {
    if ops != [] {
      StepKeeps(up, s, ops[0]);
      RunKeeps(up, Apply(up, s, ops[0]), ops[1..], t);
    }
  }

  /** The registry of a new queue. */
  function Fresh(up: Tree): (s: State)
    requires WellFormed(up)
    ensures Inv(up, s) && s.heap == [] && forall c :: 0 <= c < |up| ==> !s.cgs[c].offline
  {
    State([], seq(|up|, c => Cg(None, [], Null, false)), [])
  }

  /** In every state that any sequence of operations can reach: tree, blkcg list
      and queue list have the same members, hinted lookup is tree lookup, the
      parent of a member is a member and stands behind it in the queue list, and
      each count is membership plus unreleased children plus request holders. */
  lemma RegistrySound(up: Tree, ops: seq<Op>, t: State, b: nat)
    requires WellFormed(up) && IsRun(up, Fresh(up), ops, t) && b < |t.heap|
    ensures t.heap[b].cg < |t.cgs|
    ensures var c := t.heap[b].cg;
            && Lookup(t, c) == t.cgs[c].entry
            && (t.cgs[c].entry == Some(b) <==> b in t.cgs[c].list)
            && (t.cgs[c].entry == Some(b) <==> b in t.list)
            && (b in t.list && t.heap[b].parent.Some? ==>
                  exists i, j :: 0 <= i < j < |t.list| && t.list[i] == b && t.list[j] == t.heap[b].parent.value)
            && t.heap[b].refcnt == (if b in t.list then 1 else 0) + Children(t.heap, b) + t.heap[b].requests
            && (t.heap[b].live <==> t.heap[b].refcnt > 0)
  {
    RunKeeps(up, Fresh(up), ops, t);
    var c := t.heap[b].cg;
    assert CgSound(t, c) && ParentSound(up, t, b) && Counted(t, b, 0) && (b in t.list <==> Member(t, b));
    if b in t.list && t.heap[b].parent.Some? {
      ParentBehind(up, t, b);
    }
  }

  lemma ParentBehind(up: Tree, s: State, b: nat)
    requires WellFormed(up) && Linked(up, s) && b in s.list && b < |s.heap| && s.heap[b].parent.Some?
    ensures exists i, j :: 0 <= i < j < |s.list| && s.list[i] == b && s.list[j] == s.heap[b].parent.value
  {
    assert ParentSound(up, s, b) && Member(s, b);
    var p := s.heap[b].parent.value;
    assert p in s.list;
    var i :| 0 <= i < |s.list| && s.list[i] == b;
    var j :| 0 <= j < |s.list| && s.list[j] == p;
  }

  /** Tearing a queue down after any run: no member is left, and if no request is
      held every blkg ever made has been released. */
  lemma TeardownReleases(up: Tree, ops: seq<Op>, t: State)
    requires WellFormed(up) && IsRun(up, Fresh(up), ops, t)
    ensures var u := DestroyEach(t, t.list);
            && u.list == [] && (forall b: nat :: !Member(u, b))
            && ((forall b :: 0 <= b < |t.heap| ==> t.heap[b].requests == 0) ==>
                  forall b :: 0 <= b < |u.heap| ==> !u.heap[b].live)
  {
    RunKeeps(up, Fresh(up), ops, t);
    DestroyAllKeeps(up, t, t.list);
    if forall b :: 0 <= b < |t.heap| ==> t.heap[b].requests == 0 {
      NothingLeaks(up, DestroyEach(t, t.list), 0);
    }
  }

  // ------------------------------------------------------------- the registry

  // --------------------------------------------------------- what each operation does

  /** A lookup finds what the tree has, and leaves the hint on it. */
  lemma FindSets(up: Tree, s: State, c: nat)
    requires WellFormed(up) && Linked(up, s) && c < |up|
    ensures Hinted(s, c) == if s.cgs[c].entry.Some? then SetCg(s, c, s.cgs[c].(hint := Mine(s.cgs[c].entry.value))) else s
  {
    HintIsTree(up, s, c);
  }

  /** A request holder takes one reference, and dropping it undoes that. */
  lemma HoldThenDrop(up: Tree, s: State, b: nat)
    requires WellFormed(up) && Inv(up, s) && Member(s, b)
    ensures Hold(s, b).heap[b] == s.heap[b].(refcnt := s.heap[b].refcnt + 1, requests := s.heap[b].requests + 1)
    ensures Drop(Hold(s, b), b) == s
  {
    assert Counted(s, b, 0);
    assert Drop(Hold(s, b), b).heap == s.heap;
  }

  /** Taking back an allocation: the new blkg is released, and everything else is as if
      it had never been. */
  lemma TakenBack(s: State, c: nat, parent: Option<nat>)
    requires parent.Some? ==> parent.value < |s.heap| && s.heap[parent.value].refcnt > 0
    ensures Put(Allocate(s, c, parent), |s.heap|) == s.(heap := s.heap + [Blkg(c, parent, 0, 0, false)])
  {
    var b, r := |s.heap|, Allocate(s, c, parent);
    var x := Blkg(c, parent, 0, 0, false);
    assert r.heap[b] == Blkg(c, parent, 1, 0, true);
    if parent.Some? {
      assert Put(r, b) == Put(SetBlkg(r, b, x), parent.value);
      assert Put(r, b).heap == s.heap + [x];
    } else {
      assert Put(r, b).heap == s.heap + [x];
    }
  }

  /** blkg_create: when it succeeds, when it finds no parent, and that otherwise it
      leaves nothing behind but a blkg that is released already. */
  lemma CreateIff(up: Tree, s: State, c: nat, luck: Luck)
    requires WellFormed(up) && Inv(up, s) && c < |up|
    ensures var (t, o) := Create(up, s, c, luck);
            var allowed := !s.cgs[c].offline && !luck.NoMemory?;
            var orphan := up[c].Some? && s.cgs[up[c].value].entry.None?;
            && (o.Created? <==> allowed && !orphan && !luck.InsertFails? && s.cgs[c].entry.None?)
            && (o.MissingParent? <==> allowed && orphan)
            && (o.Created? ==> t.list == [o.b] + s.list && t.heap[o.b].live && t.heap[o.b].cg == c
                               && t.heap[o.b].parent == if up[c].Some? then s.cgs[up[c].value].entry else None)
            && (!o.Created? ==> t.cgs == s.cgs && t.list == s.list && |s.heap| <= |t.heap| <= |s.heap| + 1
                                && t.heap[..|s.heap|] == s.heap && (|t.heap| > |s.heap| ==> !t.heap[|s.heap|].live))
  {
    var parent := if up[c].Some? then Lookup(s, up[c].value) else None;
    if up[c].Some? { HintIsTree(up, s, up[c].value); assert CgSound(s, up[c].value); }
    if parent.Some? { assert Member(s, parent.value) && Counted(s, parent.value, 0); }
    if up[c].Some? ==> parent.Some? { TakenBack(s, c, parent); }
  }

  /** a is c or one of its ancestors. */
  predicate Above(up: Tree, a: nat, c: nat)
    requires WellFormed(up) && c < |up|
    decreases c
  {
    a == c || (up[c].Some? && Above(up, a, up[c].value))
  }

  lemma {:induction false} TopMissingAbove(up: Tree, s: State, c: nat)
    requires WellFormed(up) && Linked(up, s) && c < |up| && s.cgs[c].entry.None?
    ensures Above(up, TopMissing(up, s, c), c) && s.cgs[TopMissing(up, s, c)].entry.None?
    decreases c
  {
    if up[c].Some? {
      HintIsTree(up, s, up[c].value);
      if s.cgs[up[c].value].entry.None? { TopMissingAbove(up, s, up[c].value); }
    }
  }

  /** blkg_lookup_create makes entries for c and its ancestors where they are missing,
      and touches no other cgroup. */
  lemma {:induction false} FillInOnlyAncestors(up: Tree, s: State, c: nat, luck: nat -> Luck)
    requires WellFormed(up) && Inv(up, s) && c < |up| && s.cgs[c].entry.None?
    ensures var t := FillIn(up, s, c, luck).0;
            |t.cgs| == |s.cgs| && forall d :: 0 <= d < |s.cgs| && t.cgs[d] != s.cgs[d] ==>
              Above(up, d, c) && s.cgs[d].entry.None? && t.cgs[d].entry.Some?
    decreases Missing(up, s, c)
  {
    var pos := TopMissing(up, s, c);
    var (t, o) := Create(up, s, pos, luck(pos));
    CreateKeeps(up, s, pos, luck(pos));
    TopMissingAbove(up, s, c);
    if pos != c && o.Created? {
      MissingShrinks(up, s, t, c);
      FillInOnlyAncestors(up, t, c, luck);
    }
  }

  /** What is true of a cgroup for good: it is gone, and if it has no blkg it will have
      none again. */
  predicate GoneAs(s: State, t: State, c: nat) {
    && c < |s.cgs| == |t.cgs| && t.cgs[c].offline && (s.cgs[c].entry.None? ==> t.cgs[c].entry.None?)
  }

  lemma {:induction false} FillInSparesGone(up: Tree, s: State, c: nat, luck: nat -> Luck, d: nat)
    requires WellFormed(up) && Inv(up, s) && c < |up| && s.cgs[c].entry.None? && d < |up| && s.cgs[d].offline
    ensures GoneAs(s, FillIn(up, s, c, luck).0, d)
    decreases Missing(up, s, c)
  {
    var pos := TopMissing(up, s, c);
    var (t, o) := Create(up, s, pos, luck(pos));
    CreateKeeps(up, s, pos, luck(pos));
    CreateIff(up, s, pos, luck(pos));
    if pos != c && o.Created? {
      MissingShrinks(up, s, t, c);
      FillInSparesGone(up, t, c, luck, d);
    }
  }

  lemma DestroySparesGone(up: Tree, s: State, b: nat, d: nat)
    requires WellFormed(up) && Inv(up, s) && Member(s, b) && Childless(s, b) && d < |up| && s.cgs[d].offline
    ensures GoneAs(s, Destroy(s, b), d)
  {
    DestroyKeeps(up, s, b);
  }

  lemma {:induction false} DestroyAllSparesGone(up: Tree, s: State, todo: seq<nat>, d: nat)
    requires WellFormed(up) && Inv(up, s) && todo == s.list && d < |up| && s.cgs[d].offline
    ensures GoneAs(s, DestroyEach(s, todo), d)
    decreases |todo|
  {
    if todo != [] {
      var b := todo[0];
      HeadChildless(up, s);
      DestroyKeeps(up, s, b);
      DestroySparesGone(up, s, b, d);
      assert Destroy(s, b).list == todo[1..];
      DestroyAllSparesGone(up, Destroy(s, b), todo[1..], d);
    }
  }

  lemma StepSparesGone(up: Tree, s: State, op: Op, d: nat)
    requires WellFormed(up) && Inv(up, s) && Enabled(up, s, op) && d < |up|
    requires s.cgs[d].offline || op == GoOffline(d)
    ensures GoneAs(s, Apply(up, s, op), d)
  {
    match op
    case FindCreate(c, luck) => FillInSparesGone(up, s, c, luck, d);
    case DestroyAll => DestroyAllSparesGone(up, s, s.list, d);
    case Offline(c) =>
      OfflineChildless(up, s, c);
      DestroySparesGone(up, s, s.cgs[c].entry.value, d);
    case Dropping(b) =>
      var r := SetBlkg(s, b, s.heap[b].(requests := s.heap[b].requests - 1));
      DropKeeps(up, s, b);
      PutFrame(r, b);
    case _ =>
  }

  lemma {:induction false} PutFrame(s: State, b: nat)
    requires b < |s.heap|
    ensures Put(s, b).cgs == s.cgs && Put(s, b).list == s.list && |Put(s, b).heap| == |s.heap|
    decreases b
  {
    var x := s.heap[b].(refcnt := s.heap[b].refcnt - 1);
    if x.refcnt == 0 && x.parent.Some? && x.parent.value < b {
      PutFrame(SetBlkg(s, b, x.(live := false)), x.parent.value);
    }
  }

  /** Over every run: a cgroup that is being removed stays gone, and once it has no blkg
      nothing makes one for it again. */
  lemma {:induction false} GoneForGood(up: Tree, s: State, ops: seq<Op>, t: State, d: nat)
    requires WellFormed(up) && Inv(up, s) && IsRun(up, s, ops, t) && d < |up|
    requires s.cgs[d].offline || (ops != [] && ops[0] == GoOffline(d))
    ensures GoneAs(s, t, d)
    decreases |ops|
  {
    if ops != [] {
      StepKeeps(up, s, ops[0]);
      StepSparesGone(up, s, ops[0], d);
      GoneForGood(up, Apply(up, s, ops[0]), ops[1..], t, d);
    }
  }

  class Registry {
    const up: Tree
    var heap: seq<Blkg>
    var cgs: seq<Cg>
    var list: seq<nat>

    ghost function Now(): State
      reads this
    {
      State(heap, cgs, list)
    }

    ghost predicate Valid()
      reads this
    {
      WellFormed(up) && Inv(up, Now())
    }

    constructor (tree: Tree)
      requires WellFormed(tree)
      ensures Valid() && up == tree && Now() == Fresh(tree)
    {
      up := tree;
      heap, cgs, list := [], seq(|tree|, c => Cg(None, [], Null, false)), [];
    }

    /** __blkg_lookup without update_hint */
    method Peek(c: nat) returns (r: Option<nat>)
      requires Valid() && c < |up|
      ensures r == Lookup(Now(), c) == cgs[c].entry
    {
      HintIsTree(up, Now(), c);
      if cgs[c].hint.Mine? { return Some(cgs[c].hint.b); }
      r := cgs[c].entry;
    }

    /** __blkg_lookup with update_hint */
    method LookupBlkg(c: nat) returns (r: Option<nat>)
      requires Valid() && c < |up|
      modifies this`cgs
      ensures Valid() && Now() == Hinted(old(Now()), c) && r == old(cgs[c].entry) == cgs[c].entry
    {
      StepKeeps(up, Now(), Find(c));
      HintIsTree(up, Now(), c);
      if cgs[c].hint.Mine? {
        assert cgs[c := cgs[c].(hint := cgs[c].hint)] == cgs;
        return Some(cgs[c].hint.b);
      }
      r := cgs[c].entry;
      if r.Some? { cgs := cgs[c := cgs[c].(hint := Mine(r.value))]; }
    }

    /** blkg_put and __blkg_release, up the chain of parents */
    method PutBlkg(b: nat)
      requires b < |heap|
      modifies this`heap
      ensures Now() == Put(old(Now()), b)
    {
      ghost var goal := Put(Now(), b);
      var at: nat, more := b, true;
      while more
        invariant at < |heap| && cgs == old(cgs) && list == old(list)
        invariant goal == if more then Put(Now(), at) else Now()
        decreases more, at
      {
        var x := heap[at].(refcnt := heap[at].refcnt - 1);
        more := x.refcnt == 0 && x.parent.Some? && x.parent.value < at;
        heap := heap[at := if x.refcnt == 0 then x.(live := false) else x];
        if more { at := x.parent.value; }
      }
    }

    /** blkg_create */
    method CreateBlkg(c: nat, luck: Luck) returns (o: Outcome)
      requires Valid() && c < |up|
      modifies this
      ensures Valid() && (Now(), o) == Create(up, old(Now()), c, luck)
    {
      CreateKeeps(up, Now(), c, luck);
      if cgs[c].offline || luck.NoMemory? { return Failed; }
      var parent := None;
      if up[c].Some? {
        parent := Peek(up[c].value);
        if parent.None? { return MissingParent; }
        assert CgSound(Now(), up[c].value);
      }
      var b := |heap|;
      var taken := cgs[c].entry.Some?;
      heap := heap + [Blkg(c, parent, 1, 0, true)];
      if parent.Some? {
        heap := heap[parent.value := heap[parent.value].(refcnt := heap[parent.value].refcnt + 1)];
      }
      assert Now() == Allocate(old(Now()), c, parent);
      if luck.InsertFails? || taken {
        PutBlkg(b);
        return Failed;
      }
      cgs := cgs[c := cgs[c].(entry := Some(b), list := [b] + cgs[c].list)];
      list := [b] + list;
      return Created(b);
    }

    /** The inner loop of blkg_lookup_create */
    method FindTop(c: nat) returns (pos: nat)
      requires Valid() && c < |up|
      ensures pos == TopMissing(up, Now(), c)
    {
      pos := c;
      while up[pos].Some?
        invariant pos < |up| && TopMissing(up, Now(), pos) == TopMissing(up, Now(), c)
        decreases pos
      {
        var above := Peek(up[pos].value);
        if above.Some? { break; }
        pos := up[pos].value;
      }
    }

    /** The outer loop of blkg_lookup_create */
    method CreateChain(c: nat, luck: nat -> Luck) returns (o: Outcome)
      requires Valid() && c < |up| && cgs[c].entry.None?
      modifies this
      ensures Valid() && (Now(), o) == FillIn(up, old(Now()), c, luck)
    {
      ghost var goal := FillIn(up, Now(), c, luck);
      while true
        invariant Valid() && cgs[c].entry.None? && FillIn(up, Now(), c, luck) == goal
        decreases Missing(up, Now(), c)
      {
        ghost var before := Now();
        var pos := FindTop(c);
        CreateKeeps(up, before, pos, luck(pos));
        o := CreateBlkg(pos, luck(pos));
        if pos == c || !o.Created? { return; }
        MissingShrinks(up, before, Now(), c);
      }
    }

    /** blkg_lookup_create on a queue that is not bypassing */
    method LookupCreate(c: nat, luck: nat -> Luck) returns (o: Outcome)
      requires Valid() && c < |up|
      modifies this
      ensures Valid() && !o.MissingParent?
      ensures o.Created? ==> cgs[c].entry == Some(o.b)
      ensures old(cgs[c].entry).None? ==> (Now(), o) == FillIn(up, old(Now()), c, luck)
      ensures old(cgs[c].entry).Some? ==> Now() == Hinted(old(Now()), c) && o.Created?
    {
      HintIsTree(up, Now(), c);
      var found := LookupBlkg(c);
      if found.Some? { return Created(found.value); }
      FillInKeeps(up, Now(), c, luck);
      o := CreateChain(c, luck);
    }

    /** blkg_destroy */
    method DestroyBlkg(b: nat)
      requires Valid() && Member(Now(), b) && Childless(Now(), b)
      modifies this
      ensures Valid() && Now() == Destroy(old(Now()), b) && list == Remove(old(list), b)
      ensures forall x: nat :: Member(Now(), x) <==> old(Member(Now(), x)) && x != b
    {
      DestroyKeeps(up, Now(), b);
      var c := heap[b].cg;
      var g := cgs[c];
      cgs := cgs[c := g.(entry := None, list := Remove(g.list, b), hint := if g.hint == Mine(b) then Null else g.hint)];
      list := Remove(list, b);
      assert Now() == Unlink(old(Now()), b);
      PutBlkg(b);
    }

    /** blkg_destroy_all */
    method DestroyAllBlkgs()
      requires Valid()
      modifies this
      ensures Valid() && Now() == DestroyEach(old(Now()), old(list))
      ensures list == [] && forall b: nat :: !Member(Now(), b)
    {
      DestroyAllKeeps(up, Now(), list);
      ghost var goal := DestroyEach(Now(), list);
      while list != []
        invariant Valid() && DestroyEach(Now(), list) == goal
        decreases |list|
      {
        HeadChildless(up, Now());
        ghost var rest := list[1..];
        DestroyBlkg(list[0]);
        assert list == rest;
      }
    }
  }
}
