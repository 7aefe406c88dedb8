// Unit tasks, parallel groups and sequence groups, linked into a tree.
module TaskTree {
  // The tree is fixed once it has been built; what changes while it runs lives in module Ledger.

  datatype Option<+T> = None | Some(value: T)

  /** `limit` is maxSimultaneousTasks; a value <= 0 means no limit. */
  datatype Kind = Unit | Parallel(limit: int) | Sequence

  datatype Priority = High | AboveNormal | Normal | BelowNormal | Low | Inherit

  const PRIO_COUNT: nat := 5

  /** The queues in the order in which they are looked at, the most urgent first. */
  const PRIORITIES: seq<Priority> := [High, AboveNormal, Normal, BelowNormal, Low]

  /** The queue a priority selects. Only called on priorities other than Inherit. */
  function QueueOf(p: Priority): nat {
    match p
    case High => 0
    case AboveNormal => 1
    case Normal => 2
    case BelowNormal => 3
    case Low => 4
    case Inherit => 2
  }

  /** Each queue has its priority. */
  lemma QueuesInOrder(p: Priority)
    requires !p.Inherit?
    ensures |PRIORITIES| == PRIO_COUNT && QueueOf(p) < PRIO_COUNT && PRIORITIES[QueueOf(p)] == p
    ensures forall q :: 0 <= q < PRIO_COUNT && PRIORITIES[q] == p ==> q == QueueOf(p)
  {
  }

  /**
   * `slot[t]` is the position of `t` in its parent's child list. `depth` is a rank that
   * witnesses that parent chains are acyclic; nothing executes on it.
   */
  datatype Tree = Tree(
    kind: seq<Kind>,
    children: seq<seq<nat>>,
    parent: seq<Option<nat>>,
    slot: seq<nat>,
    depth: seq<nat>,
    priority: seq<Priority>,
    waitable: seq<bool>,
    root: nat)
  {
    function Size(): nat { |kind| }

    predicate Shaped() {
      && |children| == |parent| == |slot| == |depth| == |priority| == |waitable| == |kind|
      && root < |kind|
    }

    predicate LinksUp(t: nat)
      requires Shaped() && t < Size()
    {
      parent[t].Some? ==>
        var g := parent[t].value;
        && g < Size()
        && depth[g] < depth[t]
        && slot[t] < |children[g]|
        && children[g][slot[t]] == t
    }

    predicate LinksDown(g: nat)
      requires Shaped() && g < Size()
    {
      && (kind[g].Unit? <==> children[g] == [])
      && forall i :: 0 <= i < |children[g]| ==>
           var c := children[g][i];
           c < Size() && parent[c] == Some(g) && slot[c] == i
    }

    /** Every group is non-empty and parent and child links mirror each other. */
    ghost predicate Valid() {
      && Shaped()
      && parent[root] == None
      && (forall t :: 0 <= t < Size() ==> LinksUp(t))
      && (forall g :: 0 <= g < Size() ==> LinksDown(g))
    }

    /** The child of `g` at position `i`. */
    ghost function Child(g: nat, i: nat): (c: nat)
      requires Valid() && g < Size() && i < |children[g]|
      ensures c < Size() && parent[c] == Some(g) && slot[c] == i && depth[g] < depth[c]
    {
      assert LinksDown(g) && LinksUp(children[g][i]);
      children[g][i]
    }

    /** The group `t` was added to. */
    ghost function Group(t: nat): (g: nat)
      requires Valid() && t < Size() && parent[t].Some?
      ensures g < Size() && parent[t] == Some(g) && slot[t] < |children[g]| && Child(g, slot[t]) == t
      ensures depth[g] < depth[t] && !kind[g].Unit?
    {
      assert LinksUp(t) && LinksDown(parent[t].value);
      parent[t].value
    }

    /** `x` is `c` or one of its descendants. */
    ghost predicate Under(x: nat, c: nat)
      requires Valid() && x < Size()
      decreases depth[x]
    {
      x == c || (parent[x].Some? && Under(Group(x), c))
    }

    /** Every proper ancestor of `t` is a parallel group and the topmost one is the root. */
    ghost predicate Exposed(t: nat)
      requires Valid() && t < Size()
      decreases depth[t]
    {
      || t == root
      || (parent[t].Some? && kind[Group(t)].Parallel? && Exposed(Group(t)))
    }

    /** Parent chains are acyclic; groups may be empty still. */
    ghost predicate Climbable() {
      Shaped() && forall t :: 0 <= t < Size() ==> LinksUp(t)
    }

    /** Priority of the nearest node that does not inherit, Normal if there is none. */
    ghost function Resolve(t: nat): (p: Priority)
      requires Climbable() && t < Size()
      ensures !p.Inherit?
      decreases depth[t]
    {
      assert LinksUp(t);
      if !priority[t].Inherit? then priority[t]
      else if parent[t].None? then Normal
      else Resolve(parent[t].value)
    }

    /** Along `path`, which follows parent links, priority `p` is found: all nodes before the last inherit, and the last
        has priority `p`, or inherits as well, has no parent, and `p` is Normal. */
    ghost predicate Along(path: seq<nat>, p: Priority)
      requires Shaped()
    {
      && path != [] && (forall i :: 0 <= i < |path| ==> path[i] < Size())
      && (forall i :: 0 <= i < |path| - 1 ==> priority[path[i]].Inherit? && parent[path[i]] == Some(path[i + 1]))
      && var x := path[|path| - 1];
         if priority[x].Inherit? then parent[x].None? && p.Normal? else p == priority[x]
    }

    /** The nearest node from `t` up that does not inherit has priority `p`; Normal stands for none. */
    ghost predicate HasPriority(t: nat, p: Priority)
      requires Shaped()
    {
      exists path :: Along(path, p) && path[0] == t
    }

    lemma {:induction false} ResolveFinds(t: nat) returns (path: seq<nat>)
      requires Climbable() && t < Size()
      ensures Along(path, Resolve(t)) && path[0] == t
      decreases depth[t]
    {
      assert LinksUp(t);
      if !priority[t].Inherit? || parent[t].None? {
        path := [t];
      } else {
        var rest := ResolveFinds(parent[t].value);
        path := [t] + rest;
        assert forall i :: 0 < i < |path| ==> path[i] == rest[i - 1];
      }
    }

    /** So the priority of a task is what it resolves to, and nothing else. */
    lemma ResolveIsNearest(t: nat, p: Priority)
      requires Climbable() && t < Size()
      ensures HasPriority(t, p) <==> p == Resolve(t)
    {
      var found := ResolveFinds(t);
      if HasPriority(t, p) {
        var path :| Along(path, p) && path[0] == t;
        OnePriority(path, p, found, Resolve(t));
      }
    }

    lemma {:induction false} OnePriority(a: seq<nat>, p: Priority, b: seq<nat>, q: Priority)
      requires Climbable() && Along(a, p) && Along(b, q) && a[0] == b[0]
      ensures p == q
      decreases |a|
    {
      assert |a| > 1 ==> priority[a[0]].Inherit? && parent[a[0]] == Some(a[1]);
      assert |b| > 1 ==> priority[b[0]].Inherit? && parent[b[0]] == Some(b[1]);
      if |a| > 1 && |b| > 1 {
        OnePriority(a[1..], p, b[1..], q);
      }
    }

    /** The unit tasks under `t`, in the order of a depth-first walk. */
    ghost function Leaves(t: nat): seq<nat>
      requires Valid() && t < Size()
      decreases Height(t), |children[t]| + 1
    {
      if kind[t].Unit? then [t] else LeavesOf(t, |children[t]|)
    }

    /** The unit tasks under the first `n` children of `g`. */
    ghost function LeavesOf(g: nat, n: nat): seq<nat>
      requires Valid() && g < Size() && n <= |children[g]|
      decreases Height(g), n
    {
      if n == 0 then []
      else
        ChildHeight(g, n - 1);
        LeavesOf(g, n - 1) + Leaves(Child(g, n - 1))
    }

    /** How far `t` is above the deepest rank in use. Falls from a group to its children. */
    ghost function Height(t: nat): (h: nat)
      requires Valid() && t < Size()
    {
      DepthBound(t, |depth|);
      MaxDepth(|depth|) - depth[t]
    }

    ghost function MaxDepth(n: nat): nat
      requires n <= |depth|
    {
      if n == 0 then 0 else
      var m := MaxDepth(n - 1);
      if depth[n - 1] > m then depth[n - 1] else m
    }

    lemma {:induction false} DepthBound(t: nat, n: nat)
      requires t < n <= |depth|
      ensures depth[t] <= MaxDepth(n)
      decreases n
    {
      if t < n - 1 {
        DepthBound(t, n - 1);
      }
    }

    lemma ChildHeight(g: nat, i: nat)
      requires Valid() && g < Size() && i < |children[g]|
      ensures Height(Child(g, i)) < Height(g)
    {
      DepthBound(Child(g, i), |depth|);
    }
  }
}
