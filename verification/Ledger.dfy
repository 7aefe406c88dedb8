// The state of a running task tree, the duties that are still owed on it, and the
// balance every reachable state keeps between the two.
//
// A duty is the part of an agent's continuation that matters to the tree: who owns a
// grabbed task, who is still looping over a group's children, who has a task to offer
// to the scheduler, who has a completion to pass upwards. Duties are counted in a
// multiset, so the balance does not depend on which agent holds them.
module Ledger {
  import opened Counting
  import opened TaskTree

  datatype Event = Start(task: nat) | Finish(task: nat)

  /**
   * What one task or group holds. `event` is the value of its event semaphore. `active` and
   * `next` belong to parallel groups; `scheduled` is the local counter of the one executeImpl
   * activation of the group. `unlinked` says that the parent pointer has been reset. `notified`
   * and `offered` are history: the task has called its parent; the indices of the children the
   * group has passed to the scheduler.
   */
  datatype Cell = Cell(
    grabbed: bool,
    done: bool,
    event: nat,
    notified: bool,
    unlinked: bool,
    offered: set<nat>,
    active: int,
    next: nat,
    scheduled: nat)

  /** All cells, the queue `rest` of every sequence, and the function calls so far. */
  datatype Board = Board(cell: seq<Cell>, rest: seq<seq<nat>>, trace: seq<Event>)

  datatype Duty =
    | Own(t: nat)        // holds the token of t and has not started running it
    | Running(t: nat)    // inside the function of unit task t
    | ToDone(t: nat)     // about to set the done flag of t
    | ToSignal(t: nat)   // about to notify the event of t
    | ToNotify(t: nat)   // about to call the parent of t
    | Repost(t: nat)     // woken by the event of t, about to post it again
    | Forking(t: nat)    // in the scheduling loop of executeImpl of parallel group t
    | First(t: nat)      // about to grab child 0 of parallel group t
    | Refilling(t: nat)  // in the loop of oneTaskDone of parallel group t
    | Pick(t: nat, i: nat)  // claimed index i of parallel group t, not yet offered or skipped
    | Offer(t: nat)      // has t to add, or popped it, or it sits in a queue
    | Step(t: nat)       // in oneTaskDone of sequence t

  ghost predicate Shape(T: Tree, k: Board) {
    && T.Valid()
    && |k.cell| == |k.rest| == T.Size()
    && (forall g :: 0 <= g < T.Size() ==> |k.rest[g]| <= |T.children[g]|)
  }

  /** Number of children the queue of sequence `g` has already given out. */
  ghost function Popped(T: Tree, rest: seq<seq<nat>>, g: nat): int
    requires T.Valid() && g < T.Size() && |rest| == T.Size()
  {
    |T.children[g]| - |rest[g]|
  }

  /** `t` may be touched: every sequence above it has popped the branch that leads to it. */
  ghost predicate Open(T: Tree, rest: seq<seq<nat>>, t: nat)
    requires T.Valid() && t < T.Size() && |rest| == T.Size()
    decreases T.depth[t]
  {
    || t == T.root
    || (T.parent[t].Some? &&
        var g := T.Group(t);
        && Open(T, rest, g)
        && (T.kind[g].Sequence? ==> T.slot[t] < Popped(T, rest, g)))
  }

  ghost function Closing(k: Board, duties: multiset<Duty>, t: nat): nat
    requires t < |k.cell|
  {
    duties[ToDone(t)] + duties[ToSignal(t)] + duties[ToNotify(t)] + Bit(k.cell[t].notified)
  }

  /** Which children of `g` have not yet called oneTaskDone. */
  ghost function Unfinished(T: Tree, k: Board, g: nat): (bits: seq<bool>)
    requires Shape(T, k) && g < T.Size()
    ensures |bits| == |T.children[g]|
    ensures forall i :: 0 <= i < |bits| ==> bits[i] == !k.cell[T.Child(g, i)].notified
  {
    seq(|T.children[g]|, i requires 0 <= i < |T.children[g]| => !k.cell[T.Child(g, i)].notified)
  }

  // ------------------------------------------------------------------ per-node balance

  /** The done flag and the event follow the completion chain of `t`. */
  ghost predicate FlagsOk(T: Tree, k: Board, duties: multiset<Duty>, t: nat)
    requires Shape(T, k) && t < T.Size()
  {
    var signalled := duties[ToNotify(t)] + Bit(k.cell[t].notified);
    && Closing(k, duties, t) <= 1
    && (k.cell[t].done <==> duties[ToSignal(t)] + signalled >= 1)
    && k.cell[t].event + duties[Repost(t)] == Bit(T.waitable[t] && signalled >= 1)
  }

  /** A unit task: its token is held by one agent, at one stage, and each stage leaves its mark. */
  ghost predicate UnitOk(T: Tree, k: Board, duties: multiset<Duty>, t: nat)
    requires Shape(T, k) && t < T.Size()
  {
    && duties[Own(t)] + duties[Running(t)] + Closing(k, duties, t) == Bit(k.cell[t].grabbed)
    && multiset(k.trace)[Start(t)] + duties[Own(t)] == Bit(k.cell[t].grabbed)
    && multiset(k.trace)[Finish(t)] + duties[Own(t)] + duties[Running(t)] == Bit(k.cell[t].grabbed)
  }

  /** A parallel group: the counter is the number of unfinished children, zero closes the group. */
  ghost predicate ForkOk(T: Tree, k: Board, duties: multiset<Duty>, g: nat)
    requires Shape(T, k) && g < T.Size()
  {
    && k.cell[g].active == CountTrue(Unfinished(T, k, g))
    && Closing(k, duties, g) == Bit(k.cell[g].active == 0)
    && duties[Own(g)] + duties[Forking(g)] + duties[First(g)] <= Bit(k.cell[g].grabbed)
    && 1 <= k.cell[g].next
  }

  /** Child `c` is being looked after: owned, finished, queued, or about to be queued. */
  ghost predicate Cared(k: Board, duties: multiset<Duty>, c: nat)
    requires c < |k.cell|
  {
    k.cell[c].grabbed || k.cell[c].done || duties[Offer(c)] > 0
  }

  ghost predicate ClaimedAndUnfinished(T: Tree, k: Board, g: nat, i: nat)
    requires Shape(T, k) && g < T.Size()
  {
    && 1 <= i < |T.children[g]|
    && i < k.cell[g].next
    && !k.cell[T.Child(g, i)].notified
  }

  /** Nobody abandons the children of a grabbed parallel group: while indices are unclaimed
      there is a loop that will claim them, or a claimed child whose completion starts one. */
  ghost predicate FeedOk(T: Tree, k: Board, duties: multiset<Duty>, g: nat)
    requires Shape(T, k) && g < T.Size()
  {
    k.cell[g].grabbed && k.cell[g].active != 0 && duties[Own(g)] == 0 ==>
      && (duties[Forking(g)] > 0 || duties[First(g)] > 0
          || (T.children[g] != [] && k.cell[T.Child(g, 0)].grabbed))
      && (duties[Forking(g)] > 0 || duties[Refilling(g)] > 0 || k.cell[g].next >= |T.children[g]|
          || (T.kind[g].Parallel? && T.kind[g].limit > 0
              && exists i :: ClaimedAndUnfinished(T, k, g, i)))
  }

  /** Every claimed child is cared for; every index is claimed, and its child offered, at most once. */
  ghost predicate ClaimOk(T: Tree, k: Board, duties: multiset<Duty>, g: nat)
    requires Shape(T, k) && g < T.Size()
  {
    forall i :: 0 <= i < |T.children[g]| ==>
      var c := T.Child(g, i);
      && (1 <= i < k.cell[g].next ==> Cared(k, duties, c) || duties[Pick(g, i)] > 0)
      && duties[Pick(g, i)] + Bit(i in k.cell[g].offered) <= Bit(1 <= i < k.cell[g].next)
  }

  /** The child a sequence has popped last and that has not yet called back. */
  ghost predicate InFlight(T: Tree, k: Board, g: nat)
    requires Shape(T, k) && g < T.Size()
  {
    var p := Popped(T, k.rest, g);
    1 <= p && !k.cell[T.Child(g, p - 1)].notified
  }

  /** A sequence: one agent at a time advances it, the queue is a suffix of the children,
      everything before the child in flight has called back. */
  ghost predicate SequenceOk(T: Tree, k: Board, duties: multiset<Duty>, g: nat)
    requires Shape(T, k) && g < T.Size()
  {
    var p := Popped(T, k.rest, g);
    var started := duties[Step(g)] + Bit(InFlight(T, k, g)) + Closing(k, duties, g);
    && k.rest[g] == T.children[g][p..]
    && started == Bit(p > 0)
    && duties[Own(g)] + Bit(p > 0) == Bit(k.cell[g].grabbed)
    && (p > 0 ==> Cared(k, duties, T.Child(g, p - 1)))
    && (Closing(k, duties, g) > 0 ==> k.rest[g] == [])
    && (forall i :: 0 <= i < p - 1 ==> k.cell[T.Child(g, i)].notified)
  }

  ghost predicate GroupOk(T: Tree, k: Board, duties: multiset<Duty>, g: nat)
    requires Shape(T, k) && g < T.Size()
  {
    match T.kind[g]
    case Unit => true
    case Parallel(_) => ForkOk(T, k, duties, g) && FeedOk(T, k, duties, g) && ClaimOk(T, k, duties, g)
    case Sequence => SequenceOk(T, k, duties, g)
  }

  ghost predicate NodeOk(T: Tree, k: Board, duties: multiset<Duty>, t: nat)
    requires Shape(T, k) && t < T.Size()
  {
    && FlagsOk(T, k, duties, t)
    && (k.cell[t].grabbed || k.cell[t].notified ==> Open(T, k.rest, t))
    && (T.kind[t].Unit? ==> UnitOk(T, k, duties, t))
    && GroupOk(T, k, duties, t)
  }

  /** Every duty is about an open node of the right kind. */
  ghost predicate DutyOk(T: Tree, rest: seq<seq<nat>>, d: Duty)
    requires T.Valid() && |rest| == T.Size()
  {
    && d.t < T.Size()
    && Open(T, rest, d.t)
    && (d.Running? ==> T.kind[d.t].Unit?)
    && (d.Forking? || d.First? || d.Refilling? || d.Pick? ==> T.kind[d.t].Parallel?)
    && (d.Refilling? ==> T.kind[d.t].limit > 0)
    && (d.Step? ==> T.kind[d.t].Sequence?)
    && (d.Pick? ==> d.i < |T.children[d.t]|)
  }

  /** `x` must be over before `y` starts: a sequence has them under two children, `x` first. */
  ghost predicate Precedes(T: Tree, x: nat, y: nat)
    requires T.Valid() && x < T.Size() && y < T.Size()
  {
    exists a: nat, b: nat :: a < T.Size() && b < T.Size() && Elder(T, a, b) && T.Under(x, a) && T.Under(y, b)
  }

  /** `a` and `b` are children of one sequence, `a` earlier. */
  ghost predicate Elder(T: Tree, a: nat, b: nat)
    requires T.Valid() && a < T.Size() && b < T.Size()
  {
    && T.parent[a].Some? && T.parent[a] == T.parent[b]
    && T.kind[T.Group(a)].Sequence?
    && T.slot[a] < T.slot[b]
  }

  ghost predicate TraceOk(T: Tree, trace: seq<Event>)
    requires T.Valid()
  {
    forall j :: 0 <= j < |trace| ==>
      && trace[j].task < T.Size()
      && T.kind[trace[j].task].Unit?
      && (trace[j].Start? ==>
            forall x: nat :: x < T.Size() && T.kind[x].Unit? && Precedes(T, x, trace[j].task)
              ==> Finish(x) in trace[..j])
  }

  ghost predicate Balanced(T: Tree, k: Board, duties: multiset<Duty>) {
    && Shape(T, k)
    && (forall t :: 0 <= t < T.Size() ==> NodeOk(T, k, duties, t))
    && (forall d {:trigger DutyOk(T, k.rest, d)} :: duties[d] > 0 ==> DutyOk(T, k.rest, d))
    && TraceOk(T, k.trace)
    && Cared(k, duties, T.root)
  }
}
