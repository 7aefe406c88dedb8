// Tasks and groups as linked objects.
module Hierarchy {
  // Adding a task to a group, and resolving an inherited priority along the parent links.

  import opened Counting
  import opened TaskTree
  import opened Ledger
  import opened LedgerFacts

  /** task_base with the task list of a group. `active` is activeTasksCount_ of a parallel group. */
  class Task {
    const uid: nat
    const kind: Kind
    const priority: Priority
    const waitable: bool
    var parentGroup: Task?
    var tasks: seq<Task>
    var active: nat
    var grabbed: bool
    var done: bool
    var event: nat

    constructor (uid: nat, kind: Kind, priority: Priority, waitable: bool)
      ensures this.uid == uid && this.kind == kind && this.priority == priority && this.waitable == waitable
      ensures parentGroup == null && tasks == [] && Fresh()
    {
      this.uid, this.kind, this.priority, this.waitable := uid, kind, priority, waitable;
      parentGroup, tasks, active := null, [], 0;
      grabbed, done, event := false, false, 0;
    }

    /** Nobody has touched the task, and the counter matches the list. */
    predicate Fresh()
      reads this
    {
      !grabbed && !done && event == 0 && active == if kind.Parallel? then |tasks| else 0
    }

    /** What the pump and the loops of a group look for. */
    predicate Runnable()
      reads this
    {
      !grabbed && !done
    }

    method TryGrab() returns (won: bool)
      modifies this`grabbed
      ensures won <==> !old(grabbed)
      ensures grabbed
    {
      won := !grabbed;
      grabbed := true;
    }

    method SetDoneAndNotify()
      modifies this`done, this`event
      ensures done && event == old(event) + Bit(waitable)
    {
      done := true;
      if waitable {
        event := event + 1;
      }
    }

    /** addTask of a group: refused for a task that is bound to a group already. */
    method AddTask(hTask: Task?)
      requires !kind.Unit?
      modifies this`tasks, this`active, if hTask == null then {} else {hTask}
      ensures hTask == null || old(hTask.parentGroup) != null ==>
                tasks == old(tasks) && active == old(active) && (hTask != null ==> unchanged(hTask))
      ensures hTask != null && old(hTask.parentGroup) == null ==>
                && hTask.parentGroup == this && tasks == old(tasks) + [hTask]
                && active == old(active) + Bit(kind.Parallel?)
                && hTask.grabbed == old(hTask.grabbed) && hTask.done == old(hTask.done)
                && hTask.event == old(hTask.event)
                && (hTask != this ==> hTask.tasks == old(hTask.tasks) && hTask.active == old(hTask.active))
    {
      if hTask != null {
        if hTask.parentGroup == null {
          hTask.parentGroup := this;
          tasks := tasks + [hTask];
          if kind.Parallel? {
            active := active + 1;
          }
        }
      }
    }
  }

  // ------------------------------------------------------------------ objects and trees

  /** The objects `nodes` are linked as the tree `T` says. */
  ghost predicate Represents(T: Tree, nodes: seq<Task>)
    reads nodes
  {
    && T.Shaped() && |nodes| == T.Size()
    && (forall i, j :: 0 <= i < j < |nodes| ==> nodes[i] != nodes[j])
    && (forall t :: 0 <= t < |nodes| ==> NodeFits(T, nodes, t))
  }

  ghost predicate NodeFits(T: Tree, nodes: seq<Task>, t: nat)
    requires T.Shaped() && |nodes| == T.Size() && t < |nodes|
    reads nodes[t]
  {
    && nodes[t].kind == T.kind[t] && nodes[t].priority == T.priority[t] && nodes[t].waitable == T.waitable[t]
    && nodes[t].parentGroup == (if T.parent[t].Some? && T.parent[t].value < |nodes| then nodes[T.parent[t].value]
                                else null)
    && ListFits(T, nodes, t)
  }

  ghost predicate ListFits(T: Tree, nodes: seq<Task>, t: nat)
    requires T.Shaped() && |nodes| == T.Size() && t < |nodes|
    reads nodes[t]
  {
    && |nodes[t].tasks| == |T.children[t]|
    && forall i :: 0 <= i < |T.children[t]| ==>
        T.children[t][i] < |nodes| && nodes[t].tasks[i] == nodes[T.children[t][i]]
  }

  // ------------------------------------------------------------------ resolveTaskPriority

  /** The loop up the parent links ends, with the priority of the nearest node that does not inherit. */
  method ResolveTaskPriority(hTask: Task, ghost T: Tree, ghost nodes: seq<Task>, ghost t: nat)
    returns (priority: Priority)
    requires T.Climbable() && Represents(T, nodes) && t < |nodes| && nodes[t] == hTask
    ensures T.HasPriority(t, priority) && priority == T.Resolve(t)
    ensures QueueOf(priority) < PRIO_COUNT && priority != Inherit
  {
    priority := hTask.priority;
    T.ResolveIsNearest(t, T.Resolve(t));
    hide T.HasPriority;
    assert NodeFits(T, nodes, t);
    if priority == Inherit {
      var pParentGroup := hTask.parentGroup;
      ghost var at: nat := t;
      while true
        invariant at < |nodes| && T.Resolve(t) == T.Resolve(at) && T.priority[at] == Inherit
        invariant pParentGroup == nodes[at].parentGroup
        decreases T.depth[at]
      {
        assert NodeFits(T, nodes, at) && T.LinksUp(at);
        if pParentGroup == null {
          priority := Normal;
          break;
        }
        at := T.parent[at].value;
        assert NodeFits(T, nodes, at);
        priority := pParentGroup.priority;
        pParentGroup := pParentGroup.parentGroup;
        if priority != Inherit {
          break;
        }
      }
    }
  }

  // ------------------------------------------------------------------ building a tree

  /** Like Valid, but groups may still be empty and there is no root yet. */
  ghost predicate Linked(T: Tree) {
    && T.Shaped()
    && (forall t :: 0 <= t < T.Size() ==> T.LinksUp(t))
    && (forall g :: 0 <= g < T.Size() ==> HasOnly(T, g))
  }

  ghost predicate HasOnly(T: Tree, g: nat)
    requires T.Shaped() && g < T.Size()
  {
    && (T.kind[g].Unit? ==> T.children[g] == [])
    && forall i :: 0 <= i < |T.children[g]| ==>
         var c := T.children[g][i];
         c < T.Size() && T.parent[c] == Some(g) && T.slot[c] == i
  }

  /** Following parent links from `x` one comes to `c`. */
  ghost predicate Above(T: Tree, x: nat, c: nat)
    requires Linked(T) && x < T.Size()
    decreases T.depth[x]
  {
    assert T.LinksUp(x);
    x == c || (T.parent[x].Some? && Above(T, T.parent[x].value, c))
  }

  /** The tree after addTask(c) on group `g`. The ranks of everything below `c` move up by `lift`. */
  ghost function Added(T: Tree, g: nat, c: nat): Tree
    requires Linked(T) && g < T.Size() && c < T.Size()
  {
    T.(children := T.children[g := T.children[g] + [c]],
       parent := T.parent[c := Some(g)],
       slot := T.slot[c := |T.children[g]|],
       depth := seq(T.Size(), x requires 0 <= x < T.Size() => if Above(T, x, c) then T.depth[x] + T.depth[g] + 1
                                                              else T.depth[x]))
  }

  /** addTask keeps the parent links acyclic exactly when the task is not the group itself or one of
      its ancestors: then the grown hierarchy is linked as it should be ... */
  lemma AddKeepsLinked(T: Tree, g: nat, c: nat)
    requires Linked(T) && g < T.Size() && c < T.Size() && T.parent[c].None? && !T.kind[g].Unit?
    requires !Above(T, g, c)
    ensures Linked(Added(T, g, c))
  {
    var T' := Added(T, g, c);
    assert HasOnly(T, g);
    forall t: nat | t < T.Size() ensures T'.LinksUp(t) {
      assert T.LinksUp(t);
    }
    forall h: nat | h < T.Size() ensures HasOnly(T', h) {
      assert HasOnly(T, h);
    }
  }

  /** The objects follow: the method does to them what Added says, and nothing to any other. */
  method AddTaskTo(group: Task, hTask: Task, ghost T: Tree, ghost nodes: seq<Task>, ghost g: nat, ghost c: nat)
    requires Linked(T) && Represents(T, nodes) && g < |nodes| && c < |nodes| && nodes[g] == group && nodes[c] == hTask
    requires !T.kind[g].Unit? && T.parent[c].None?
    modifies group, hTask
    ensures Represents(Added(T, g, c), nodes)
    ensures old(group.Fresh()) && (group != hTask ==> old(hTask.Fresh())) ==> group.Fresh() && hTask.Fresh()
  {
    assert NodeFits(T, nodes, g) && NodeFits(T, nodes, c) && HasOnly(T, g);
    assert hTask.parentGroup == null;
    group.AddTask(hTask);
    ghost var T' := Added(T, g, c);
    forall t | 0 <= t < |nodes| ensures NodeFits(T', nodes, t) {
      assert old(NodeFits(T, nodes, t));
      assert T.LinksUp(t);
    }
  }

  /** A chain of parent links, from `path[0]` up. */
  ghost predicate Chain(T: Tree, path: seq<nat>)
    requires T.Shaped()
  {
    && path != []
    && (forall i :: 0 <= i < |path| ==> path[i] < T.Size())
    && forall i, j :: 0 <= i && j == i + 1 && j < |path| ==> T.parent[path[i]] == Some(path[j])
  }

  lemma {:induction false} AbovePath(T: Tree, x: nat, c: nat) returns (path: seq<nat>)
    requires Linked(T) && x < T.Size() && Above(T, x, c)
    ensures Chain(T, path) && path[0] == x && path[|path| - 1] == c
    ensures forall i :: 0 <= i < |path| - 1 ==> path[i] != c
    decreases T.depth[x]
  {
    if x == c {
      path := [x];
    } else {
      assert T.LinksUp(x);
      var rest := AbovePath(T, T.parent[x].value, c);
      path := [x] + rest;
      assert forall i :: 0 <= i < |rest| ==> path[i + 1] == rest[i];
    }
  }

  /** ... and otherwise adding it closes a cycle, which no ranks can witness away. */
  lemma AddAncestorMakesCycle(T: Tree, g: nat, c: nat) returns (cycle: seq<nat>)
    requires Linked(T) && g < T.Size() && c < T.Size() && T.parent[c].None? && Above(T, g, c)
    ensures Chain(Added(T, g, c), cycle) && |cycle| >= 2 && cycle[0] == cycle[|cycle| - 1] == c
    ensures !Linked(Added(T, g, c))
  {
    var path := AbovePath(T, g, c);
    var T' := Added(T, g, c);
    cycle := [c] + path;
    assert Chain(T', cycle);
    if Linked(T') {
      ChainRises(T', cycle, |cycle| - 1);
    }
  }

  lemma {:induction false} ChainRises(T: Tree, path: seq<nat>, i: nat)
    requires Linked(T) && Chain(T, path) && i < |path|
    ensures T.depth[path[i]] + i <= T.depth[path[0]]
  {
    if i > 0 {
      ChainRises(T, path, i - 1);
      assert T.LinksUp(path[i - 1]);
    }
  }
}
