// executeSingleThreaded on linked objects: a tree is run on the calling thread.
module SingleThreaded {
  // Some tasks may have been executed before: they are passed over. A group that has not been executed
  // must have its task list as it was built, as the source checks.

  import opened Counting
  import opened TaskTree
  import opened Ledger
  import opened LedgerFacts
  import opened Hierarchy

  // ------------------------------------------------------------------ what is called

  /** What a run on the calling thread does: every function below `t` in depth-first order, each
      returning before the next begins. */
  function Calls(leaves: seq<nat>): seq<Event> {
    if leaves == [] then [] else [Start(leaves[0]), Finish(leaves[0])] + Calls(leaves[1..])
  }

  lemma {:induction false} CallsAppend(a: seq<nat>, b: seq<nat>)
    ensures Calls(a + b) == Calls(a) + Calls(b)
  {
    if a == [] {
      assert a + b == b;
    } else {
      assert (a + b)[1..] == a[1..] + b;
      CallsAppend(a[1..], b);
    }
  }

  /** A single-threaded run and a complete concurrent run make the same calls: both are the leaves
      in depth-first order, here exactly, there up to reordering. */
  lemma {:induction false} CallsInOrder(leaves: seq<nat>)
    ensures StartOrder(Calls(leaves)) == leaves && FinishOrder(Calls(leaves)) == leaves
  {
    if leaves != [] {
      var rest := Calls(leaves[1..]);
      var calls := Calls(leaves);
      assert calls == [Start(leaves[0])] + ([Finish(leaves[0])] + rest);
      assert calls[1..] == [Finish(leaves[0])] + rest && calls[1..][1..] == rest;
      CallsInOrder(leaves[1..]);
    }
  }

  /** The unit tasks that a run of `t` comes to, in order, when the tasks marked in `held` have been grabbed. */
  ghost function OpenLeaves(T: Tree, held: seq<bool>, t: nat): seq<nat>
    requires T.Valid() && |held| == T.Size() && t < T.Size()
    decreases T.Height(t), |T.children[t]| + 1
  {
    if held[t] then [] else if T.kind[t].Unit? then [t] else OpenLeavesOf(T, held, t, |T.children[t]|)
  }

  ghost function OpenLeavesOf(T: Tree, held: seq<bool>, g: nat, n: nat): seq<nat>
    requires T.Valid() && |held| == T.Size() && g < T.Size() && n <= |T.children[g]|
    decreases T.Height(g), n
  {
    if n == 0 then []
    else
      T.ChildHeight(g, n - 1);
      OpenLeavesOf(T, held, g, n - 1) + OpenLeaves(T, held, T.Child(g, n - 1))
  }

  /** On a fresh tree these are all of them. */
  lemma {:induction false} FreshLeaves(T: Tree, held: seq<bool>, t: nat)
    requires T.Valid() && |held| == T.Size() && t < T.Size() && forall x :: 0 <= x < T.Size() ==> !held[x]
    ensures OpenLeaves(T, held, t) == T.Leaves(t)
    decreases T.Height(t), |T.children[t]| + 1
  {
    if !T.kind[t].Unit? {
      FreshLeavesOf(T, held, t, |T.children[t]|);
    }
  }

  lemma {:induction false} FreshLeavesOf(T: Tree, held: seq<bool>, g: nat, n: nat)
    requires T.Valid() && |held| == T.Size() && g < T.Size() && n <= |T.children[g]|
    requires forall x :: 0 <= x < T.Size() ==> !held[x]
    ensures OpenLeavesOf(T, held, g, n) == T.LeavesOf(g, n)
    decreases T.Height(g), n
  {
    if n > 0 {
      T.ChildHeight(g, n - 1);
      FreshLeavesOf(T, held, g, n - 1);
      FreshLeaves(T, held, T.Child(g, n - 1));
    }
  }

  // ------------------------------------------------------------------ what it does to the objects

  /** The flags as they are before the run. */
  datatype Marks = Marks(held: seq<bool>, done: seq<bool>, event: seq<nat>)

  ghost predicate Fits(T: Tree, m: Marks) {
    T.Valid() && |m.held| == |m.done| == |m.event| == T.Size()
  }

  /** A run of `t` comes to `x`: nothing on the way down from `t` had been grabbed. */
  ghost predicate Reached(T: Tree, held: seq<bool>, x: nat, t: nat)
    requires T.Valid() && |held| == T.Size() && x < T.Size()
    decreases T.depth[x]
  {
    x == t || (T.parent[x].Some? && !held[T.Group(x)] && Reached(T, held, T.Group(x), t))
  }

  lemma {:induction false} ReachedThrough(T: Tree, held: seq<bool>, x: nat, g: nat, i: nat)
    requires T.Valid() && |held| == T.Size() && x < T.Size() && g < T.Size() && i < |T.children[g]| &&
        T.Under(x, T.Child(g, i))
    ensures Reached(T, held, x, g) <==> !held[g] && Reached(T, held, x, T.Child(g, i))
    decreases T.depth[x]
  {
    var c := T.Child(g, i);
    NotUnderDeeper(T, g, c);
    if x == c {
      assert T.Group(x) == g && Reached(T, held, g, g);
    } else {
      ReachedThrough(T, held, T.Group(x), g, i);
    }
  }

  /** The objects of `t` and everything below it. */
  ghost function Region(T: Tree, nodes: seq<Task>, t: nat): set<Task>
    requires T.Valid() && |nodes| == T.Size()
  {
    set x | 0 <= x < |nodes| && T.Under(x, t) :: nodes[x]
  }

  /** `t` and everything below it is linked as the tree says and has the given marks. */
  ghost predicate Ready(T: Tree, nodes: seq<Task>, m: Marks, t: nat)
    requires Fits(T, m) && |nodes| == T.Size()
    reads nodes
  {
    && (forall i, j :: 0 <= i < j < |nodes| ==> nodes[i] != nodes[j])
    && forall x :: 0 <= x < |nodes| && T.Under(x, t) ==> NodeReady(T, nodes, m, x)
  }

  ghost predicate NodeReady(T: Tree, nodes: seq<Task>, m: Marks, x: nat)
    requires Fits(T, m) && |nodes| == T.Size() && x < |nodes|
    reads nodes[x]
  {
    && nodes[x].uid == x && nodes[x].kind == T.kind[x] && nodes[x].waitable == T.waitable[x]
    && nodes[x].grabbed == m.held[x] && nodes[x].done == m.done[x] && nodes[x].event == m.event[x]
    && (!m.held[x] ==> ListFits(T, nodes, x) && nodes[x].active == if T.kind[x].Parallel? then |nodes[x].tasks| else 0)
  }

  /** Whether a run of `t` sets the done flag of `x` and signals its event: it does for whatever it comes to,
      except for the unit tasks that have been grabbed. */
  ghost predicate Completes(T: Tree, m: Marks, t: nat, x: nat)
    requires Fits(T, m) && x < T.Size()
  {
    Reached(T, m.held, x, t) && (!m.held[x] || !T.kind[x].Unit?)
  }

  /** Node `x` after a run of `t`. */
  ghost predicate NodeAfter(T: Tree, nodes: seq<Task>, m: Marks, t: nat, x: nat)
    requires Fits(T, m) && |nodes| == T.Size() && x < |nodes|
    reads nodes[x]
  {
    && nodes[x].grabbed == (m.held[x] || Reached(T, m.held, x, t))
    && nodes[x].done == (m.done[x] || Completes(T, m, t, x))
    && nodes[x].event == m.event[x] + Bit(Completes(T, m, t, x) && T.waitable[x])
  }

  /** Whatever is below a group is the group or below one of its children. */
  lemma BelowSome(T: Tree, g: nat, x: nat)
    requires T.Valid() && g < T.Size() && x < T.Size() && T.Under(x, g) && x != g
    ensures Branch(T, x, g) < |T.children[g]| && T.Under(x, T.Child(g, Branch(T, x, g)))
  {
    BranchBound(T, x, g);
    UnderChild(T, x, g, Branch(T, x, g));
  }

  /** The first `n` branches below group `g` have been run, the others have not been touched. */
  ghost predicate Progressed(T: Tree, nodes: seq<Task>, m: Marks, g: nat, n: nat)
    requires Fits(T, m) && |nodes| == T.Size() && g < |nodes|
    reads nodes
  {
    forall x: nat :: x < |nodes| && T.Under(x, g) && x != g ==> BranchAt(T, nodes, m, g, n, x)
  }

  ghost predicate BranchAt(T: Tree, nodes: seq<Task>, m: Marks, g: nat, n: nat, x: nat)
    requires Fits(T, m) && |nodes| == T.Size() && g < |nodes| && x < |nodes| && T.Under(x, g) && x != g
    reads nodes[x]
  {
    var i := Branch(T, x, g);
    if i < n && i < |T.children[g]| then NodeAfter(T, nodes, m, T.Child(g, i), x) else NodeReady(T, nodes, m, x)
  }

  /** Branch `n` can be run. */
  lemma NextReady(T: Tree, nodes: seq<Task>, m: Marks, g: nat, n: nat)
    requires Fits(T, m) && |nodes| == T.Size() && g < |nodes| && n < |T.children[g]|
    requires forall i, j :: 0 <= i < j < |nodes| ==> nodes[i] != nodes[j]
    requires Progressed(T, nodes, m, g, n)
    ensures Ready(T, nodes, m, T.Child(g, n))
    ensures forall x :: 0 <= x < |nodes| ==>
        (nodes[x] in Region(T, nodes, T.Child(g, n)) <==> T.Under(x, T.Child(g, n)))
    ensures nodes[g] !in Region(T, nodes, T.Child(g, n)) && Region(T, nodes, T.Child(g, n)) <= Region(T, nodes, g)
  {
    var c := T.Child(g, n);
    hide NodeReady, NodeAfter;
    forall x: nat | x < |nodes| ensures T.Under(x, c) <==> T.Under(x, g) && x != g && Branch(T, x, g) == n {
      UnderChild(T, x, g, n);
    }
    forall x | 0 <= x < |nodes| && T.Under(x, c) ensures NodeReady(T, nodes, m, x) {
      assert BranchAt(T, nodes, m, g, n, x);
    }
  }

  // ------------------------------------------------------------------ which functions are called, and in what order

  /** Nothing above `x`, up to and including `t`, has been grabbed. */
  ghost predicate NoneGrabbedAbove(T: Tree, held: seq<bool>, x: nat, t: nat)
    requires T.Valid() && |held| == T.Size() && x < T.Size()
  {
    T.Under(x, t) && forall a: nat :: a < T.Size() && a != x && T.Under(x, a) && T.Under(a, t) ==> !held[a]
  }

  /** That is what a run of `t` comes to. */
  lemma {:induction false} ReachedMeans(T: Tree, held: seq<bool>, x: nat, t: nat)
    requires T.Valid() && |held| == T.Size() && x < T.Size() && t < T.Size()
    ensures Reached(T, held, x, t) <==> NoneGrabbedAbove(T, held, x, t)
    decreases T.depth[x]
  {
    if x == t {
      forall a: nat | a < T.Size() && a != x && T.Under(x, a) ensures !T.Under(a, t) {
        StrictlyAbove(T, x, a);
      }
    } else if T.parent[x].Some? {
      var g := T.Group(x);
      ReachedMeans(T, held, g, t);
      assert T.Under(g, g);
      assert forall a: nat :: a < T.Size() && a != x ==> (T.Under(x, a) <==> T.Under(g, a));
      NotUnderDeeper(T, g, x);
      if NoneGrabbedAbove(T, held, x, t) {
        assert !held[g];
        assert NoneGrabbedAbove(T, held, g, t);
      }
      if !held[g] && NoneGrabbedAbove(T, held, g, t) {
        assert NoneGrabbedAbove(T, held, x, t);
      }
    }
  }

  lemma {:induction false} StrictlyAbove(T: Tree, x: nat, a: nat)
    requires T.Valid() && x < T.Size() && a < T.Size() && T.Under(x, a) && x != a
    ensures !T.Under(a, x)
  {
    DeeperBelow(T, x, a);
    NotUnderDeeper(T, a, x);
  }

  lemma {:induction false} DeeperBelow(T: Tree, x: nat, a: nat)
    requires T.Valid() && x < T.Size() && a < T.Size() && T.Under(x, a) && x != a
    ensures T.depth[a] < T.depth[x]
    decreases T.depth[x]
  {
    if T.Group(x) != a {
      DeeperBelow(T, T.Group(x), a);
    }
  }

  /** The run calls the functions of the unit tasks it comes to that have not been grabbed, once each, and no others. */
  lemma {:induction false} OpenLeavesCount(T: Tree, held: seq<bool>, t: nat, x: nat)
    requires T.Valid() && |held| == T.Size() && t < T.Size()
    ensures multiset(OpenLeaves(T, held, t))[x] ==
            Bit(x < T.Size() && T.kind[x].Unit? && T.Under(x, t) && Reached(T, held, x, t) && !held[x])
    decreases T.Height(t), |T.children[t]| + 1
  {
    assert T.LinksDown(t);
    if !held[t] && !T.kind[t].Unit? {
      OpenLeavesOfCount(T, held, t, |T.children[t]|, x);
    }
    if x < T.Size() && T.Under(x, t) && x != t {
      BelowSome(T, t, x);
      ReachedThrough(T, held, x, t, Branch(T, x, t));
    }
  }

  lemma {:induction false} OpenLeavesOfCount(T: Tree, held: seq<bool>, g: nat, n: nat, x: nat)
    requires T.Valid() && |held| == T.Size() && g < T.Size() && n <= |T.children[g]| && !held[g]
    ensures multiset(OpenLeavesOf(T, held, g, n))[x] ==
            Bit(x < T.Size() && T.kind[x].Unit? && T.Under(x, g) && x != g && Branch(T, x, g) < n &&
                Reached(T, held, x, g) && !held[x])
    decreases T.Height(g), n
  {
    if n > 0 {
      T.ChildHeight(g, n - 1);
      OpenLeavesOfCount(T, held, g, n - 1, x);
      OpenLeavesCount(T, held, T.Child(g, n - 1), x);
      if x < T.Size() {
        UnderChild(T, x, g, n - 1);
        if T.Under(x, T.Child(g, n - 1)) {
          ReachedThrough(T, held, x, g, n - 1);
        }
      }
    }
  }

  /** Some group has `x` and `y` under two of its children, `x` under the one that was added earlier. */
  ghost predicate LeftOf(T: Tree, x: nat, y: nat)
    requires T.Valid() && x < T.Size() && y < T.Size()
  {
    exists a: nat, b: nat :: a < T.Size() && b < T.Size() && T.parent[a].Some? && T.parent[a] == T.parent[b]
      && T.slot[a] < T.slot[b] && T.Under(x, a) && T.Under(y, b)
  }

  /** They are called from left to right. */
  lemma {:induction false} OpenLeavesOrdered(T: Tree, held: seq<bool>, t: nat, i: nat, j: nat)
    requires T.Valid() && |held| == T.Size() && t < T.Size() && i < j < |OpenLeaves(T, held, t)|
    ensures var leaves := OpenLeaves(T, held, t);
            leaves[i] < T.Size() && leaves[j] < T.Size() && LeftOf(T, leaves[i], leaves[j])
    decreases T.Height(t), |T.children[t]| + 1
  {
    OpenLeavesOfOrdered(T, held, t, |T.children[t]|, i, j);
  }

  lemma {:induction false} OpenLeavesOfOrdered(T: Tree, held: seq<bool>, g: nat, n: nat, i: nat, j: nat)
    requires T.Valid() && |held| == T.Size() && g < T.Size() && n <= |T.children[g]| && !held[g]
    requires i < j < |OpenLeavesOf(T, held, g, n)|
    ensures var leaves := OpenLeavesOf(T, held, g, n);
            leaves[i] < T.Size() && leaves[j] < T.Size() && LeftOf(T, leaves[i], leaves[j])
    decreases T.Height(g), n
  {
    T.ChildHeight(g, n - 1);
    var c := T.Child(g, n - 1);
    var before, last := OpenLeavesOf(T, held, g, n - 1), OpenLeaves(T, held, c);
    hide LeftOf;
    if j < |before| {
      OpenLeavesOfOrdered(T, held, g, n - 1, i, j);
    } else if i >= |before| {
      OpenLeavesOrdered(T, held, c, i - |before|, j - |before|);
    } else {
      AcrossBranches(T, held, g, n, before[i], last[j - |before|]);
    }
  }

  lemma AcrossBranches(T: Tree, held: seq<bool>, g: nat, n: nat, x: nat, y: nat)
    requires T.Valid() && |held| == T.Size() && g < T.Size() && 0 < n <= |T.children[g]| && !held[g]
    requires x in OpenLeavesOf(T, held, g, n - 1) && y in OpenLeaves(T, held, T.Child(g, n - 1))
    ensures x < T.Size() && y < T.Size() && LeftOf(T, x, y)
  {
    hide OpenLeavesOf, OpenLeaves;
    var c := T.Child(g, n - 1);
    assert x in multiset(OpenLeavesOf(T, held, g, n - 1)) && y in multiset(OpenLeaves(T, held, c));
    OpenLeavesOfCount(T, held, g, n - 1, x);
    OpenLeavesCount(T, held, c, y);
    BelowSome(T, g, x);
    var a := T.Child(g, Branch(T, x, g));
    assert T.parent[a] == T.parent[c] && T.slot[a] < T.slot[c] && T.Under(x, a) && T.Under(y, c);
  }

  // ------------------------------------------------------------------ the methods

  /** The functions of all tasks the run comes to are called in depth-first order, one at a time; what the
      run comes to is grabbed, done and signalled afterwards, and nothing else below `t` has changed. */
  method ExecuteSingleThreaded(hTask: Task, ghost T: Tree, ghost nodes: seq<Task>, ghost m: Marks, ghost t: nat)
    returns (calls: seq<Event>)
    requires Fits(T, m) && |nodes| == T.Size() && t < |nodes| && nodes[t] == hTask && Ready(T, nodes, m, t)
    modifies Region(T, nodes, t)
    ensures calls == Calls(OpenLeaves(T, m.held, t))
    ensures forall x :: 0 <= x < |nodes| && T.Under(x, t) ==> NodeAfter(T, nodes, m, t, x)
    decreases T.Height(t), 3
  {
    assert T.Under(t, t) && NodeReady(T, nodes, m, t);
    assert hTask in Region(T, nodes, t);
    if hTask.kind.Unit? {
      calls := ExecuteUnit(hTask);
      assert T.LinksDown(t);
      forall x: nat | x < |nodes| && T.Under(x, t) ensures NodeAfter(T, nodes, m, t, x) {
        if x != t {
          BelowSome(T, t, x);
        }
      }
    } else if hTask.kind.Parallel? {
      calls := ExecuteParallel(hTask, T, nodes, m, t);
    } else {
      calls := ExecuteSequence(hTask, T, nodes, m, t);
    }
  }

  /** task::executeSingleThreaded. */
  method ExecuteUnit(hTask: Task) returns (calls: seq<Event>)
    modifies hTask`grabbed, hTask`done, hTask`event
    ensures hTask.grabbed
    ensures old(hTask.grabbed) ==> calls == [] && unchanged(hTask)
    ensures !old(hTask.grabbed) ==>
              && calls == [Start(hTask.uid), Finish(hTask.uid)]
              && hTask.done && hTask.event == old(hTask.event) + Bit(hTask.waitable)
  {
    calls := [];
    var won := hTask.TryGrab();
    if won {
      calls := [Start(hTask.uid), Finish(hTask.uid)];
      hTask.SetDoneAndNotify();
    }
  }

  lemma InRegion(T: Tree, nodes: seq<Task>, m: Marks, t: nat)
    requires Fits(T, m) && |nodes| == T.Size() && t < |nodes|
    ensures nodes[t] in Region(T, nodes, t)
  {
    assert T.Under(t, t);
  }

  /** One child of a group, and everything below it. */
  method ExecuteChild(child: Task, ghost T: Tree, ghost nodes: seq<Task>, ghost m: Marks, ghost g: nat, ghost n: nat)
    returns (calls: seq<Event>)
    requires Fits(T, m) && |nodes| == T.Size() && g < |nodes| && n < |T.children[g]| && child == nodes[T.Child(g, n)]
    requires forall i, j :: 0 <= i < j < |nodes| ==> nodes[i] != nodes[j]
    requires Progressed(T, nodes, m, g, n)
    modifies Region(T, nodes, T.Child(g, n))
    ensures Progressed(T, nodes, m, g, n + 1)
    ensures Calls(OpenLeavesOf(T, m.held, g, n + 1)) == Calls(OpenLeavesOf(T, m.held, g, n)) + calls
    ensures nodes[g] !in Region(T, nodes, T.Child(g, n)) && Region(T, nodes, T.Child(g, n)) <= Region(T, nodes, g)
    decreases T.Height(g), 1
  {
    ghost var c := T.Child(g, n);
    NextReady(T, nodes, m, g, n);
    T.ChildHeight(g, n);
    calls := ExecuteSingleThreaded(child, T, nodes, m, c);
    hide NodeReady, NodeAfter, Ready, Region;
    forall x: nat | x < |nodes| && T.Under(x, g) && x != g ensures BranchAt(T, nodes, m, g, n + 1, x) {
      UnderChild(T, x, g, n);
      assert old(BranchAt(T, nodes, m, g, n, x));
    }
    CallsAppend(OpenLeavesOf(T, m.held, g, n), OpenLeaves(T, m.held, c));
  }

  /** A group has been run when all its branches have, its token is taken and its flag is set. */
  lemma GroupAfter(T: Tree, nodes: seq<Task>, m: Marks, g: nat)
    requires Fits(T, m) && |nodes| == T.Size() && g < |nodes| && NodeAfter(T, nodes, m, g, g)
    requires Progressed(T, nodes, m, g, if m.held[g] then 0 else |T.children[g]|)
    ensures forall x :: 0 <= x < |nodes| && T.Under(x, g) ==> NodeAfter(T, nodes, m, g, x)
  {
    forall x: nat | x < |nodes| && T.Under(x, g) && x != g ensures NodeAfter(T, nodes, m, g, x) {
      assert BranchAt(T, nodes, m, g, if m.held[g] then 0 else |T.children[g]|, x);
      BelowSome(T, g, x);
      ReachedThrough(T, m.held, x, g, Branch(T, x, g));
    }
  }

  lemma RegionWithin(T: Tree, nodes: seq<Task>, g: nat, n: nat)
    requires T.Valid() && |nodes| == T.Size() && g < |nodes| && n < |T.children[g]|
    requires forall i, j :: 0 <= i < j < |nodes| ==> nodes[i] != nodes[j]
    ensures nodes[g] !in Region(T, nodes, T.Child(g, n)) && Region(T, nodes, T.Child(g, n)) <= Region(T, nodes, g)
  {
    forall x: nat | x < |nodes| ensures T.Under(x, T.Child(g, n)) ==> T.Under(x, g) && x != g {
      UnderChild(T, x, g, n);
    }
  }

  /** What is the same about group `g` throughout the loop over its children. */
  ghost predicate InLoop(T: Tree, nodes: seq<Task>, m: Marks, g: nat)
    requires Fits(T, m) && |nodes| == T.Size() && g < |nodes|
    reads nodes[g]
  {
    nodes[g].grabbed && nodes[g].done == m.done[g] && nodes[g].event == m.event[g] && nodes[g].waitable == T.waitable[g]
  }

  ghost predicate Listed(T: Tree, nodes: seq<Task>, g: nat, list: seq<Task>)
    requires T.Valid() && |nodes| == T.Size() && g < |nodes|
  {
    |list| == |T.children[g]| && forall i :: 0 <= i < |list| ==> list[i] == nodes[T.Child(g, i)]
  }

  lemma ListedAt(T: Tree, nodes: seq<Task>, g: nat, list: seq<Task>, i: nat)
    requires T.Valid() && |nodes| == T.Size() && g < |nodes| && Listed(T, nodes, g, list) && i < |list|
    ensures i < |T.children[g]| && list[i] == nodes[T.Child(g, i)]
  {
  }

  /** The token of a group. */
  method GrabGroup(hTask: Task, ghost T: Tree, ghost nodes: seq<Task>, ghost m: Marks, ghost g: nat) returns (won: bool)
    requires Fits(T, m) && |nodes| == T.Size() && g < |nodes| && nodes[g] == hTask && Ready(T, nodes, m, g) &&
        !T.kind[g].Unit?
    modifies hTask`grabbed
    ensures won == !m.held[g] && hTask.grabbed && Progressed(T, nodes, m, g, 0)
    ensures won ==> |hTask.tasks| == |T.children[g]| > 0 && (T.kind[g].Parallel? ==> hTask.active == |hTask.tasks|)
    ensures forall i, j :: 0 <= i < j < |nodes| ==> nodes[i] != nodes[j]
    ensures won ==> Listed(T, nodes, g, hTask.tasks)
    ensures InLoop(T, nodes, m, g) && hTask.active == old(hTask.active) && hTask.tasks == old(hTask.tasks)
  {
    assert T.Under(g, g) && NodeReady(T, nodes, m, g) && T.LinksDown(g);
    won := hTask.TryGrab();
    forall x: nat | x < |nodes| && T.Under(x, g) && x != g ensures BranchAt(T, nodes, m, g, 0, x) {
      assert old(NodeReady(T, nodes, m, x));
    }
  }

  method ClearTasks(hTask: Task, ghost T: Tree, ghost nodes: seq<Task>, ghost m: Marks, ghost g: nat, ghost n: nat)
    requires Fits(T, m) && |nodes| == T.Size() && g < |nodes| && nodes[g] == hTask
    requires forall i, j :: 0 <= i < j < |nodes| ==> nodes[i] != nodes[j]
    requires Progressed(T, nodes, m, g, n) && InLoop(T, nodes, m, g)
    modifies hTask`tasks
    ensures Progressed(T, nodes, m, g, n) && InLoop(T, nodes, m, g)
  {
    hTask.tasks := [];
    forall x: nat | x < |nodes| && T.Under(x, g) && x != g ensures BranchAt(T, nodes, m, g, n, x) {
      assert old(BranchAt(T, nodes, m, g, n, x));
    }
  }

  /** The end of a group's run, whether it won the token or not. */
  method FinishGroup(hTask: Task, ghost T: Tree, ghost nodes: seq<Task>, ghost m: Marks, ghost g: nat)
    requires Fits(T, m) && |nodes| == T.Size() && g < |nodes| && nodes[g] == hTask && !T.kind[g].Unit?
    requires forall i, j :: 0 <= i < j < |nodes| ==> nodes[i] != nodes[j]
    requires InLoop(T, nodes, m, g) && Progressed(T, nodes, m, g, if m.held[g] then 0 else |T.children[g]|)
    modifies hTask`done, hTask`event
    ensures forall x :: 0 <= x < |nodes| && T.Under(x, g) ==> NodeAfter(T, nodes, m, g, x)
  {
    hTask.SetDoneAndNotify();
    forall x: nat | x < |nodes| && T.Under(x, g) && x != g
      ensures BranchAt(T, nodes, m, g, if m.held[g] then 0 else |T.children[g]|, x)
    {
      assert old(BranchAt(T, nodes, m, g, if m.held[g] then 0 else |T.children[g]|, x));
    }
    GroupAfter(T, nodes, m, g);
  }

  /** parallel_group: children one after the other, in the order they were added. */
  method ExecuteParallel(hTask: Task, ghost T: Tree, ghost nodes: seq<Task>, ghost m: Marks, ghost g: nat)
    returns (calls: seq<Event>)
    requires Fits(T, m) && |nodes| == T.Size() && g < |nodes| && nodes[g] == hTask && Ready(T, nodes, m, g) &&
        T.kind[g].Parallel?
    modifies Region(T, nodes, g)
    ensures calls == Calls(OpenLeaves(T, m.held, g))
    ensures forall x :: 0 <= x < |nodes| && T.Under(x, g) ==> NodeAfter(T, nodes, m, g, x)
    decreases T.Height(g), 2
  {
    hide Progressed, InLoop, Ready, Listed, T.Under, Region, NodeReady, NodeAfter, T.LinksUp, T.LinksDown;
    InRegion(T, nodes, m, g);
    calls := [];
    var won := GrabGroup(hTask, T, nodes, m, g);
    if won {
      var taskCount := |hTask.tasks|;
      ghost var list := hTask.tasks;
      assert taskCount > 0 && taskCount == hTask.active;
      for i := 0 to taskCount
        invariant taskCount == |T.children[g]| && hTask.tasks == list
        invariant InLoop(T, nodes, m, g) && Progressed(T, nodes, m, g, i)
        invariant calls == Calls(OpenLeavesOf(T, m.held, g, i))
      {
        RegionWithin(T, nodes, g, i);
        ListedAt(T, nodes, g, list, i);
        var more := ExecuteChild(hTask.tasks[i], T, nodes, m, g, i);
        calls := calls + more;
      }
      ClearTasks(hTask, T, nodes, m, g, taskCount);
    }
    FinishGroup(hTask, T, nodes, m, g);
  }

  /** The queue of sequence `g` after `n` pops. */
  ghost predicate Queued(T: Tree, nodes: seq<Task>, g: nat, n: nat)
    requires T.Valid() && |nodes| == T.Size() && g < |nodes| && n <= |T.children[g]|
    reads nodes[g]
  {
    && |nodes[g].tasks| == |T.children[g]| - n
    && forall i :: n <= i < |T.children[g]| ==> nodes[g].tasks[i - n] == nodes[T.Child(g, i)]
  }

  method PopTask(hTask: Task, ghost T: Tree, ghost nodes: seq<Task>, ghost m: Marks, ghost g: nat, ghost n: nat)
    returns (child: Task)
    requires Fits(T, m) && |nodes| == T.Size() && g < |nodes| && n < |T.children[g]| && nodes[g] == hTask
    requires forall i, j :: 0 <= i < j < |nodes| ==> nodes[i] != nodes[j]
    requires Queued(T, nodes, g, n) && Progressed(T, nodes, m, g, n) && InLoop(T, nodes, m, g)
    modifies hTask`tasks
    ensures child == nodes[T.Child(g, n)] && Queued(T, nodes, g, n + 1)
    ensures Progressed(T, nodes, m, g, n) && InLoop(T, nodes, m, g)
  {
    assert hTask.tasks[n - n] == nodes[T.Child(g, n)];
    child := hTask.tasks[0];
    hTask.tasks := hTask.tasks[1..];
    forall i | n + 1 <= i < |T.children[g]| ensures hTask.tasks[i - (n + 1)] == nodes[T.Child(g, i)] {
      assert old(nodes[g].tasks[i - n]) == nodes[T.Child(g, i)];
    }
    forall x: nat | x < |nodes| && T.Under(x, g) && x != g ensures BranchAt(T, nodes, m, g, n, x) {
      assert old(BranchAt(T, nodes, m, g, n, x));
    }
  }

  /** sequence_group: pop and run until the queue is empty. */
  method ExecuteSequence(hTask: Task, ghost T: Tree, ghost nodes: seq<Task>, ghost m: Marks, ghost g: nat)
    returns (calls: seq<Event>)
    requires Fits(T, m) && |nodes| == T.Size() && g < |nodes| && nodes[g] == hTask && Ready(T, nodes, m, g) &&
        T.kind[g].Sequence?
    modifies Region(T, nodes, g)
    ensures calls == Calls(OpenLeaves(T, m.held, g))
    ensures forall x :: 0 <= x < |nodes| && T.Under(x, g) ==> NodeAfter(T, nodes, m, g, x)
    decreases T.Height(g), 2
  {
    assert T.Under(g, g);
    assert hTask in Region(T, nodes, g);
    calls := [];
    var won := GrabGroup(hTask, T, nodes, m, g);
    hide Progressed, InLoop, Ready, T.Under, Region, NodeReady, NodeAfter;
    if won {
      ghost var i := 0;
      while hTask.tasks != []
        invariant i <= |T.children[g]| && Queued(T, nodes, g, i)
        invariant InLoop(T, nodes, m, g) && Progressed(T, nodes, m, g, i)
        invariant calls == Calls(OpenLeavesOf(T, m.held, g, i))
        decreases |hTask.tasks|
      {
        var child := PopTask(hTask, T, nodes, m, g, i);
        RegionWithin(T, nodes, g, i);
        var more := ExecuteChild(child, T, nodes, m, g, i);
        calls := calls + more;
        i := i + 1;
      }
      assert i == |T.children[g]|;
    }
    FinishGroup(hTask, T, nodes, m, g);
  }
}
