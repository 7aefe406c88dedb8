// Every run is bounded.
module Termination {
  // A measure that every step of a serving scheduler lowers: no run spins, and every maximal run ends with
  // the root done.

  import opened Counting
  import opened TaskTree
  import opened Ledger
  import opened LedgerFacts
  import opened Machine
  import opened MachineShape
  import opened MachineLedger
  import opened MachineBalance
  import opened MachineStacks
  import opened WakeUps
  import opened Runs
  import opened Progress

  // ------------------------------------------------------------------ weights

  const TOKEN: nat := 9
  const ENTRY: nat := 2

  /** An add that is still to be announced to the workers from `w` on. */
  function Announcing(C: Config, w: nat): nat {
    if w <= C.Workers() then 10 * (C.Workers() - w) + 1 else 0
  }

  /** One push, and the announcement that follows. */
  function Pushing(C: Config): nat {
    Announcing(C, 0) + ENTRY + 1
  }

  /** The walk up the parent links from `x`, and the push. */
  function Climbing(C: Config, x: nat): nat {
    Pushing(C) + 1 + Rank(C, x)
  }

  function Rank(C: Config, x: nat): nat {
    if x < |C.T.depth| then C.T.depth[x] else 0
  }

  /** One scheduler::add, from its first test on. */
  ghost function Adding(C: Config): nat {
    Pushing(C) + 3 + C.T.MaxDepth(|C.T.depth|)
  }

  /** The completion of `t` and of whatever it completes above. */
  function Calling(C: Config, t: nat): nat {
    1 + 8 * Rank(C, t)
  }

  /** What an operation may still lead to. With `live` the workers go round their loop; without, their
      flags are clear and they are on their way out of it. */
  ghost function Weight(C: Config, live: bool, op: Op): nat
  {
    match op
    case Reset(_) => 1
    case Notify(t) => Calling(C, t)
    case Signal(t) => Calling(C, t) + 1
    case SetDone(t) => Calling(C, t) + 2
    case End(t) => Calling(C, t) + 3
    case Begin(t) => Calling(C, t) + 4
    case Execute(t) => Calling(C, t) + 5
    case GrabFirst(_) => 1
    case Fork(_) => 2
    case ForkDone(_, _) => Adding(C) + 3
    case ForkGrabbed(_, _) => Adding(C) + 4
    case Refill(_) => 1
    case RefillDone(_, _) => Adding(C) + 2
    case RefillGrabbed(_, _) => Adding(C) + 3
    case Advance(t) => Calling(C, t) + 3
    case TryExecute(_) => 1
    case AddGrabbed(_) => Adding(C)
    case AddDone(_) => Adding(C) - 1
    case Climb(_, x) => Climbing(C, x)
    case Push(_, _) => Pushing(C)
    case WakeUp(_, w) => Announcing(C, w)
    case PostAgain(_) => 1
    case Wait(_) => 2
    case AwaitChild(t, i) => if t < |C.T.children| && i <= |C.T.children[t]| then 2 + |C.T.children[t]| - i else 0
    case ActiveWait(t) => if t < |C.T.children| then |C.T.children[t]| + 3 else 0
    case Sleep(_) => 1
    case Scan(_, p) => Scanning(p)
    case TryGrab(_, p, _) => Scanning(p) + 1
    case Pump(_) => 8
    case Drain(_) => 9
    case Loop(_) => if live then 10 else 1
    case Back(_) => if live then 11 else 2
    case Launch(_, t) => Calling(C, t) + 16
    case ConfirmDone(_, t) => Calling(C, t) + 17
    case Confirm(_, t) => Calling(C, t) + 18
    case GotTask(_, t) => Calling(C, t) + 19
    case CheckDone(_, _, t) => Calling(C, t) + 20
    case Exited(_) => 0
    case StopScheduler => Joining(C) + Announcing(C, 0) + C.Workers() + 3
    case StopWorker(w) => if w <= C.Workers() then Joining(C) + Announcing(C, 0) + C.Workers() - w + 2 else 0
    case WakeAll(w) => Joining(C) + Announcing(C, w)
    case Join(w) => if w <= C.Workers() then C.Workers() - w + 1 else 0
  }

  /** The joins of one stop(). */
  function Joining(C: Config): nat {
    C.Workers() + 1
  }

  function Scanning(p: nat): nat {
    if p <= PRIO_COUNT then 7 - p else 0
  }

  /** What a node still has in store: its token, its unclaimed or unpopped children. */
  ghost function NodeWeight(C: Config, k: Board, t: nat): nat
    requires t < |k.cell| == |k.rest| && t < |C.T.children|
  {
    (if k.cell[t].grabbed then 0 else 20 + 8 * Rank(C, t))
    + (Adding(C) + 4) * Unclaimed(C.T, k, t)
    + Adding(C) * |k.rest[t]|
  }

  function Unclaimed(T: Tree, k: Board, t: nat): nat
    requires t < |k.cell| && t < |T.children|
  {
    if k.cell[t].next < |T.children[t]| then |T.children[t]| - k.cell[t].next else 0
  }

  ghost function BoardWeight(C: Config, k: Board): nat
    requires |k.cell| == |k.rest| == |C.T.children|
  {
    Sum(NodeWeights(C, k))
  }

  ghost function NodeWeights(C: Config, k: Board): (s: seq<nat>)
    requires |k.cell| == |k.rest| == |C.T.children|
    ensures |s| == |k.cell| && forall t :: 0 <= t < |s| ==> s[t] == NodeWeight(C, k, t)
  {
    seq(|k.cell|, t requires 0 <= t < |k.cell| => NodeWeight(C, k, t))
  }

  ghost function StackWeight(C: Config, live: bool, stack: seq<Op>): nat {
    if stack == [] then 0 else Weight(C, live, stack[0]) + StackWeight(C, live, stack[1..])
  }

  ghost function AgentWeights(C: Config, live: bool, agents: seq<seq<Op>>): (s: seq<nat>)
    ensures |s| == |agents| && forall a :: 0 <= a < |s| ==> s[a] == StackWeight(C, live, agents[a])
  {
    seq(|agents|, a requires 0 <= a < |agents| => StackWeight(C, live, agents[a]))
  }

  ghost function QueueLengths(queues: seq<seq<nat>>): (s: seq<nat>)
    ensures |s| == |queues| && forall p :: 0 <= p < |s| ==> s[p] == |queues[p]|
  {
    seq(|queues|, p requires 0 <= p < |queues| => |queues[p]|)
  }

  ghost function SchedWeight(q: Sched): nat {
    ENTRY * Sum(QueueLengths(q.queues)) + TOKEN * Sum(q.sem)
  }

  /** All that is left to do. */
  ghost function Measure(C: Config, live: bool, s: State): nat
    requires StateOk(C, s)
  {
    BoardWeight(C, s.k) + SchedWeight(s.q) + Sum(AgentWeights(C, live, s.agents))
  }

  // ------------------------------------------------------------------ the board

  lemma NodeChanges(C: Config, k: Board, k': Board, t: nat)
    requires |k.cell| == |k.rest| == |k'.cell| == |k'.rest| == |C.T.children| && t < |k.cell|
    requires forall v :: 0 <= v < |k.cell| && v != t ==> NodeWeight(C, k', v) == NodeWeight(C, k, v)
    ensures BoardWeight(C, k') + NodeWeight(C, k, t) == BoardWeight(C, k) + NodeWeight(C, k', t)
  {
    hide NodeWeight;
    SumUpdate(NodeWeights(C, k), t, NodeWeight(C, k', t));
    assert NodeWeights(C, k') == NodeWeights(C, k)[t := NodeWeight(C, k', t)];
  }

  lemma OneLess(x: nat, n: nat)
    requires n > 0
    ensures x * n == x * (n - 1) + x
  {
  }

  lemma SameWeight(C: Config, k: Board, k': Board)
    requires |k.cell| == |k.rest| == |k'.cell| == |k'.rest| == |C.T.children|
    requires forall v :: 0 <= v < |k.cell| ==> NodeWeight(C, k', v) == NodeWeight(C, k, v)
    ensures BoardWeight(C, k') == BoardWeight(C, k)
  {
    hide NodeWeight;
    assert NodeWeights(C, k') == NodeWeights(C, k);
  }

  /** A won token is worth more than whatever its owner does before it starts the task. */
  lemma GrabPays(C: Config, k: Board, t: nat)
    requires |k.cell| == |k.rest| == |C.T.children| && t < |k.cell| && !k.cell[t].grabbed
    ensures BoardWeight(C, Grabbing(k, t)) + 20 + 8 * Rank(C, t) == BoardWeight(C, k)
  {
    NodeChanges(C, k, Grabbing(k, t), t);
  }

  lemma PopPays(C: Config, k: Board, g: nat)
    requires |k.cell| == |k.rest| == |C.T.children| && g < |k.rest| && k.rest[g] != []
    ensures BoardWeight(C, k.(rest := k.rest[g := k.rest[g][1..]])) + Adding(C) == BoardWeight(C, k)
  {
    OneLess(Adding(C), |k.rest[g]|);
    hide Adding;
    NodeChanges(C, k, k.(rest := k.rest[g := k.rest[g][1..]]), g);
  }

  lemma ClaimPays(C: Config, k: Board, g: nat)
    requires |k.cell| == |k.rest| == |C.T.children| && g < |k.cell|
    ensures var claimed := WithCell(k, g, k.cell[g].(next := k.cell[g].next + 1));
            BoardWeight(C, claimed) + (if k.cell[g].next < |C.T.children[g]| then Adding(C) + 4 else 0) ==
                BoardWeight(C, k)
  {
    var claimed := WithCell(k, g, k.cell[g].(next := k.cell[g].next + 1));
    if k.cell[g].next < |C.T.children[g]| {
      OneLess(Adding(C) + 4, Unclaimed(C.T, k, g));
    }
    assert Unclaimed(C.T, claimed, g) == if k.cell[g].next < |C.T.children[g]| then Unclaimed(C.T, k, g) - 1 else 0;
    hide Adding, Unclaimed;
    forall v | 0 <= v < |k.cell| && v != g ensures NodeWeight(C, claimed, v) == NodeWeight(C, k, v) {
      assert Unclaimed(C.T, claimed, v) == Unclaimed(C.T, k, v) by { OtherUnclaimed(C, k, claimed, v); }
    }
    NodeChanges(C, k, claimed, g);
  }

  lemma OtherUnclaimed(C: Config, k: Board, k': Board, v: nat)
    requires v < |k.cell| == |k'.cell| == |C.T.children| && k.cell[v] == k'.cell[v]
    ensures Unclaimed(C.T, k, v) == Unclaimed(C.T, k', v)
  {
  }

  /** Writes to other fields cost nothing. */
  lemma MarkPays(C: Config, k: Board, t: nat, c: Cell)
    requires |k.cell| == |k.rest| == |C.T.children| && t < |k.cell|
    requires c.grabbed == k.cell[t].grabbed && c.next == k.cell[t].next
    ensures BoardWeight(C, WithCell(k, t, c)) == BoardWeight(C, k)
  {
    hide Adding;
    SameWeight(C, k, WithCell(k, t, c));
  }

  lemma Small(C: Config, live: bool, next: seq<Op>)
    requires |next| <= 2
    ensures StackWeight(C, live, next) == (if next == [] then 0 else if |next| == 1 then Weight(C, live, next[0])
        else Weight(C, live, next[0]) + Weight(C, live, next[1]))
  {
    hide Weight;
    if |next| == 2 {
      assert next[1..] == [next[1]];
    }
  }

  // ------------------------------------------------------------------ every operation pays

  lemma TaskPays(C: Config, live: bool, k: Board, op: Op)
    requires C.Valid() && BoardOk(C, k) && OpOk(C, k, op) && TaskOp(op)
    ensures var (k', next) := TaskStep(C, k, op);
            |k'.cell| == |k'.rest| == |C.T.children| && BoardWeight(C, k') +
                StackWeight(C, live, next) < BoardWeight(C, k) + Weight(C, live, op)
  {
    hide BoardOk, OpOk, TaskStep, BoardWeight, StackWeight, Weight;
    match op
    case Notify(t) => NotifyPays(C, live, k, t);
    case Execute(t) => ExecutePays(C, live, k, t);
    case Advance(t) => AdvancePays(C, live, k, t);
    case _ => RunPaysOff(C, live, k, op);
  }

  lemma ExecutePays(C: Config, live: bool, k: Board, t: nat)
    requires C.Valid() && BoardOk(C, k) && OpOk(C, k, Execute(t))
    ensures var (k', next) := TaskStep(C, k, Execute(t));
            |k'.cell| == |k'.rest| == |C.T.children| && BoardWeight(C, k') +
                StackWeight(C, live, next) < BoardWeight(C, k) + Weight(C, live, Execute(t))
  {
    Sizes(C, k);
    Small(C, live, TaskStep(C, k, Execute(t)).1);
    if k.rest[t] != [] {
      PopPays(C, k, t);
    }
    hide BoardWeight, StackWeight, BoardOk, Adding, C.Valid;
  }

  lemma AdvancePays(C: Config, live: bool, k: Board, t: nat)
    requires C.Valid() && BoardOk(C, k) && OpOk(C, k, Advance(t))
    ensures var (k', next) := TaskStep(C, k, Advance(t));
            |k'.cell| == |k'.rest| == |C.T.children| && BoardWeight(C, k') +
                StackWeight(C, live, next) < BoardWeight(C, k) + Weight(C, live, Advance(t))
  {
    Sizes(C, k);
    Small(C, live, TaskStep(C, k, Advance(t)).1);
    if k.rest[t] != [] {
      PopPays(C, k, t);
    }
    hide BoardWeight, StackWeight, BoardOk, Adding, C.Valid;
  }

  lemma RunPaysOff(C: Config, live: bool, k: Board, op: Op)
    requires C.Valid() && BoardOk(C, k) && OpOk(C, k, op)
    requires op.Begin? || op.End? || op.SetDone? || op.Signal? || op.Reset? || op.TryExecute?
    ensures var (k', next) := TaskStep(C, k, op);
            |k'.cell| == |k'.rest| == |C.T.children| && BoardWeight(C, k') +
                StackWeight(C, live, next) < BoardWeight(C, k) + Weight(C, live, op)
  {
    Sizes(C, k);
    var t := op.t;
    var (k', next) := TaskStep(C, k, op);
    Small(C, live, next);
    hide BoardWeight, StackWeight, BoardOk, Adding, C.Valid;
    if op.TryExecute? {
      if !k.cell[t].grabbed {
        GrabPays(C, k, t);
      }
    } else if op.SetDone? || op.Signal? || op.Reset? {
      MarkPays(C, k, t, k'.cell[t]);
    } else {
      SameWeight(C, k, k');
    }
  }

  lemma NotifyPays(C: Config, live: bool, k: Board, t: nat)
    requires C.Valid() && BoardOk(C, k) && OpOk(C, k, Notify(t))
    ensures var (k', next) := TaskStep(C, k, Notify(t));
            |k'.cell| == |k'.rest| == |C.T.children| && BoardWeight(C, k') +
                StackWeight(C, live, next) < BoardWeight(C, k) + Weight(C, live, Notify(t))
  {
    var (k', next) := TaskStep(C, k, Notify(t));
    var told := WithCell(k, t, k.cell[t].(notified := true));
    Sizes(C, k);
    Small(C, live, next);
    MarkPays(C, k, t, told.cell[t]);
    hide BoardWeight, StackWeight, BoardOk, Adding;
    if C.T.parent[t].Some? {
      var g := C.T.Group(t);
      assert Rank(C, g) + 1 <= Rank(C, t);
      if C.T.kind[g].Parallel? {
        MarkPays(C, told, g, k'.cell[g]);
      }
    }
  }

  lemma ParallelPays(C: Config, live: bool, k: Board, op: Op)
    requires C.Valid() && BoardOk(C, k) && OpOk(C, k, op) && ParallelOp(op)
    ensures var (k', next) := ParallelStep(C, k, op);
            |k'.cell| == |k'.rest| == |C.T.children| && BoardWeight(C, k') +
                StackWeight(C, live, next) < BoardWeight(C, k) + Weight(C, live, op)
  {
    if op.Fork? || op.Refill? || op.GrabFirst? {
      LoopPays(C, live, k, op);
    } else {
      OfferPays(C, live, k, op);
    }
  }

  lemma LoopPays(C: Config, live: bool, k: Board, op: Op)
    requires C.Valid() && BoardOk(C, k) && OpOk(C, k, op) && (op.Fork? || op.Refill? || op.GrabFirst?)
    ensures var (k', next) := ParallelStep(C, k, op);
            |k'.cell| == |k'.rest| == |C.T.children| && BoardWeight(C, k') +
                StackWeight(C, live, next) < BoardWeight(C, k) + Weight(C, live, op)
  {
    Sizes(C, k);
    if op.GrabFirst? {
      FirstPays(C, live, k, op.t);
    } else {
      var (k', next) := ParallelStep(C, k, op);
      Small(C, live, next);
      ClaimPays(C, k, op.t);
      hide BoardWeight, StackWeight, BoardOk, Adding, C.Valid;
    }
  }

  lemma FirstPays(C: Config, live: bool, k: Board, g: nat)
    requires C.Valid() && BoardOk(C, k) && OpOk(C, k, GrabFirst(g))
    ensures var (k', next) := ParallelStep(C, k, GrabFirst(g));
            |k'.cell| == |k'.rest| == |C.T.children| && BoardWeight(C, k') +
                StackWeight(C, live, next) < BoardWeight(C, k) + Weight(C, live, GrabFirst(g))
  {
    Sizes(C, k);
    assert C.T.LinksDown(g);
    var c := C.T.Child(g, 0);
    Small(C, live, []);
    Small(C, live, [Execute(c)]);
    assert Weight(C, live, Execute(c)) == 6 + 8 * Rank(C, c) && Weight(C, live, GrabFirst(g)) == 1;
    if !k.cell[c].grabbed {
      GrabPays(C, k, c);
    }
    hide BoardWeight, StackWeight, BoardOk, Adding, Weight;
  }

  lemma OfferPays(C: Config, live: bool, k: Board, op: Op)
    requires C.Valid() && BoardOk(C, k) && OpOk(C, k, op) &&
        (op.ForkGrabbed? || op.ForkDone? || op.RefillGrabbed? || op.RefillDone?)
    ensures var (k', next) := ParallelStep(C, k, op);
            |k'.cell| == |k'.rest| == |C.T.children| && BoardWeight(C, k') +
                StackWeight(C, live, next) < BoardWeight(C, k) + Weight(C, live, op)
  {
    Sizes(C, k);
    OfferMarks(C, k, op);
    assert Shape(C.T, k);
    hide BoardWeight, BoardOk, ParallelStep, Shape;
    OfferNextPays(C, live, k, op);
  }

  lemma OfferMarks(C: Config, k: Board, op: Op)
    requires C.Valid() && BoardOk(C, k) && OpOk(C, k, op) &&
        (op.ForkGrabbed? || op.ForkDone? || op.RefillGrabbed? || op.RefillDone?)
    ensures var k' := ParallelStep(C, k, op).0;
            |k'.cell| == |k'.rest| == |C.T.children| && BoardWeight(C, k') == BoardWeight(C, k)
  {
    Sizes(C, k);
    var k' := ParallelStep(C, k, op).0;
    hide BoardWeight, BoardOk;
    if k' != k {
      MarkPays(C, k, op.t, k'.cell[op.t]);
    }
  }

  lemma OfferNextPays(C: Config, live: bool, k: Board, op: Op)
    requires C.Valid() && Shape(C.T, k) && OpOk(C, k, op) &&
        (op.ForkGrabbed? || op.ForkDone? || op.RefillGrabbed? || op.RefillDone?)
    ensures StackWeight(C, live, ParallelStep(C, k, op).1) < Weight(C, live, op)
  {
    Small(C, live, ParallelStep(C, k, op).1);
    hide StackWeight, Adding, Shape;
  }

  lemma CallerPays(C: Config, live: bool, k: Board, op: Op)
    requires C.Valid() && BoardOk(C, k) && OpOk(C, k, op) && CallerOp(op) && Ready(C, k, op)
    ensures var (k', next) := CallerStep(C, k, op);
            |k'.cell| == |k'.rest| == |C.T.children| && BoardWeight(C, k') +
                StackWeight(C, live, next) < BoardWeight(C, k) + Weight(C, live, op)
  {
    match op
    case ActiveWait(t) => ActiveWaitPays(C, live, k, t);
    case AwaitChild(t, i) => AwaitChildPays(C, live, k, t, i);
    case _ => WaitPays(C, live, k, op);
  }

  lemma WaitPays(C: Config, live: bool, k: Board, op: Op)
    requires C.Valid() && BoardOk(C, k) && OpOk(C, k, op) && (op.Wait? || op.PostAgain?) && Ready(C, k, op)
    ensures var (k', next) := CallerStep(C, k, op);
            |k'.cell| == |k'.rest| == |C.T.children| && BoardWeight(C, k') +
                StackWeight(C, live, next) < BoardWeight(C, k) + Weight(C, live, op)
  {
    hide BoardWeight, StackWeight, BoardOk, Adding, C.Valid, Weight;
    Sizes(C, k);
    var (k', next) := CallerStep(C, k, op);
    MarkPays(C, k, op.t, k'.cell[op.t]);
    Small(C, live, next);
    CallerWeights(C, live, op);
    if next != [] {
      CallerWeights(C, live, next[0]);
    }
  }

  /** The weights of a caller's operations. */
  lemma CallerWeights(C: Config, live: bool, op: Op)
    ensures op.Execute? ==> Weight(C, live, op) == Calling(C, op.t) + 5
    ensures op.PostAgain? ==> Weight(C, live, op) == 1
    ensures op.Wait? ==> Weight(C, live, op) == 2
    ensures op.AwaitChild? && op.t < |C.T.children| && op.i <= |C.T.children[op.t]| ==>
              Weight(C, live, op) == 2 + |C.T.children[op.t]| - op.i
    ensures op.ActiveWait? && op.t < |C.T.children| ==> Weight(C, live, op) == |C.T.children[op.t]| + 3
  {
    hide Calling;
  }

  lemma ActiveWaitPays(C: Config, live: bool, k: Board, t: nat)
    requires C.Valid() && BoardOk(C, k) && OpOk(C, k, ActiveWait(t))
    ensures var (k', next) := CallerStep(C, k, ActiveWait(t));
            |k'.cell| == |k'.rest| == |C.T.children| && BoardWeight(C, k') +
                StackWeight(C, live, next) < BoardWeight(C, k) + Weight(C, live, ActiveWait(t))
  {
    hide BoardWeight, StackWeight, BoardOk, Adding, C.Valid, Weight;
    Sizes(C, k);
    var (k', next) := CallerStep(C, k, ActiveWait(t));
    Small(C, live, next);
    CallerWeights(C, live, ActiveWait(t));
    CallerWeights(C, live, next[0]);
    if !k.cell[t].grabbed {
      GrabPays(C, k, t);
    }
  }

  lemma AwaitChildPays(C: Config, live: bool, k: Board, g: nat, i: nat)
    requires C.Valid() && BoardOk(C, k) && OpOk(C, k, AwaitChild(g, i)) && Ready(C, k, AwaitChild(g, i))
    ensures var (k', next) := CallerStep(C, k, AwaitChild(g, i));
            |k'.cell| == |k'.rest| == |C.T.children| && BoardWeight(C, k') +
                StackWeight(C, live, next) < BoardWeight(C, k) + Weight(C, live, AwaitChild(g, i))
  {
    hide BoardWeight, StackWeight, BoardOk, Adding, Weight;
    Sizes(C, k);
    var (k', next) := CallerStep(C, k, AwaitChild(g, i));
    Small(C, live, next);
    CallerWeights(C, live, AwaitChild(g, i));
    CallerWeights(C, live, next[0]);
    CallerWeights(C, live, AwaitChild(g, i + 1));
    if i == |C.T.children[g]| {
      MarkPays(C, k, g, k'.cell[g]);
    } else if !k.cell[C.T.Child(g, i)].grabbed {
      GrabPays(C, k, C.T.Child(g, i));
    }
  }

  // ------------------------------------------------------------------ the scheduler's part

  lemma QueueChanges(q: Sched, p: nat, queue: seq<nat>)
    requires p < |q.queues|
    ensures SchedWeight(q.(queues := q.queues[p := queue])) + ENTRY * |q.queues[p]| == SchedWeight(q) + ENTRY * |queue|
  {
    var lengths := QueueLengths(q.queues);
    SumUpdate(lengths, p, |queue|);
    assert QueueLengths(q.queues[p := queue]) == lengths[p := |queue|];
  }

  lemma TokenChanges(q: Sched, w: nat, n: nat)
    requires w < |q.sem|
    ensures SchedWeight(q.(sem := q.sem[w := n])) + TOKEN * q.sem[w] == SchedWeight(q) + TOKEN * n
  {
    SumUpdate(q.sem, w, n);
  }

  lemma AddPays(C: Config, live: bool, k: Board, q: Sched, op: Op)
    requires C.Valid() && BoardOk(C, k) && SchedShape(C, q) && OpOk(C, k, op) && AddOp(op)
    ensures var e := AddStep(C, k, q, op);
            e.k == k && SchedWeight(e.q) + StackWeight(C, live, e.next) < SchedWeight(q) + Weight(C, live, op)
  {
    hide StackWeight, BoardOk, Weight, SchedWeight, AddStep;
    match op
    case Climb(t, x) => ClimbPays(C, live, k, q, t, x);
    case Push(t, p) => PushPays(C, live, k, q, t, p);
    case WakeUp(p, w) => WakeUpPays(C, live, k, q, p, w);
    case _ => TestPays(C, live, k, q, op);
  }

  lemma ClimbPays(C: Config, live: bool, k: Board, q: Sched, t: nat, x: nat)
    requires C.Valid() && BoardOk(C, k) && SchedShape(C, q) && OpOk(C, k, Climb(t, x))
    ensures var e := AddStep(C, k, q, Climb(t, x));
            e.k == k && e.q == q && StackWeight(C, live, e.next) < Weight(C, live, Climb(t, x))
  {
    Small(C, live, AddStep(C, k, q, Climb(t, x)).next);
    hide StackWeight, BoardOk, Pushing, Adding;
    if C.T.parent[x].Some? {
      assert Rank(C, C.T.Group(x)) + 1 <= Rank(C, x);
    }
  }

  lemma PushPays(C: Config, live: bool, k: Board, q: Sched, t: nat, p: nat)
    requires C.Valid() && BoardOk(C, k) && SchedShape(C, q) && OpOk(C, k, Push(t, p))
    ensures var e := AddStep(C, k, q, Push(t, p));
            e.k == k && SchedWeight(e.q) + StackWeight(C, live, e.next) < SchedWeight(q) + Weight(C, live, Push(t, p))
  {
    Small(C, live, AddStep(C, k, q, Push(t, p)).next);
    hide SchedWeight, StackWeight, BoardOk;
    QueueChanges(q, p, q.queues[p] + [t]);
  }

  /** A task is no deeper than the deepest. */
  lemma TestPays(C: Config, live: bool, k: Board, q: Sched, op: Op)
    requires C.Valid() && BoardOk(C, k) && SchedShape(C, q) && OpOk(C, k, op) && (op.AddGrabbed? || op.AddDone?)
    ensures var e := AddStep(C, k, q, op);
            e.k == k && e.q == q && StackWeight(C, live, e.next) < Weight(C, live, op)
  {
    Small(C, live, AddStep(C, k, q, op).next);
    C.T.DepthBound(op.t, |C.T.depth|);
    hide StackWeight, BoardOk, Pushing, C.T.MaxDepth;
  }

  lemma WakeUpPays(C: Config, live: bool, k: Board, q: Sched, p: nat, w: nat)
    requires C.Valid() && BoardOk(C, k) && SchedShape(C, q) && OpOk(C, k, WakeUp(p, w))
    ensures var e := AddStep(C, k, q, WakeUp(p, w));
            e.k == k && SchedWeight(e.q) + StackWeight(C, live, e.next) < SchedWeight(q) + Weight(C, live, WakeUp(p, w))
  {
    Small(C, live, AddStep(C, k, q, WakeUp(p, w)).next);
    hide SchedWeight, StackWeight, BoardOk;
    if w < C.Workers() {
      TokenChanges(q, w, q.sem[w] + 1);
    }
  }

  /** The scheduler and all workers run, or all of them have been told to stop. */
  ghost predicate Going(q: Sched, live: bool) {
    q.running == live && forall w :: 0 <= w < |q.alive| ==> q.alive[w] == live
  }

  lemma WorkerPays(C: Config, live: bool, k: Board, q: Sched, op: Op)
    requires C.Valid() && BoardOk(C, k) && SchedShape(C, q) && OpOk(C, k, op) && WorkerOp(op) && Going(q, live)
    requires !op.Exited? && (op.Sleep? ==> q.sem[op.w] > 0)
    ensures var e := WorkerStep(C, k, q, op);
            |e.k.cell| == |e.k.rest| == |C.T.children|
            && BoardWeight(C, e.k) + SchedWeight(e.q) + StackWeight(C, live, e.next) < BoardWeight(C, k) +
                SchedWeight(q) + Weight(C, live, op)
  {
    if op.Drain? || op.Sleep? || op.Scan? {
      PumpPays(C, live, k, q, op);
    } else {
      TaskFoundPays(C, live, k, q, op);
      SameStore(q, WorkerStep(C, k, q, op).q);
      hide SchedWeight, WorkerStep;
    }
  }

  lemma PumpPays(C: Config, live: bool, k: Board, q: Sched, op: Op)
    requires C.Valid() && BoardOk(C, k) && SchedShape(C, q) && OpOk(C, k, op) && (op.Drain? || op.Sleep? || op.Scan?)
    requires op.Sleep? ==> q.sem[op.w] > 0
    ensures var e := WorkerStep(C, k, q, op);
            e.k == k && SchedWeight(e.q) + StackWeight(C, live, e.next) < SchedWeight(q) + Weight(C, live, op)
  {
    hide StackWeight, BoardOk, SchedWeight, Weight;
    match op
    case Scan(w, p) => ScanPays(C, live, k, q, w, p);
    case _ => TokenPays(C, live, k, q, op);
  }

  lemma ScanPays(C: Config, live: bool, k: Board, q: Sched, w: nat, p: nat)
    requires C.Valid() && BoardOk(C, k) && SchedShape(C, q) && OpOk(C, k, Scan(w, p))
    ensures var e := WorkerStep(C, k, q, Scan(w, p));
            e.k == k && SchedWeight(e.q) + StackWeight(C, live, e.next) < SchedWeight(q) + Weight(C, live, Scan(w, p))
  {
    hide SchedWeight, StackWeight, BoardOk, Weight;
    Sizes(C, k);
    Small(C, live, WorkerStep(C, k, q, Scan(w, p)).next);
    WorkerWeights(C, live, Scan(w, p));
    WorkerWeights(C, live, WorkerStep(C, k, q, Scan(w, p)).next[0]);
    if p < PRIO_COUNT && q.queues[p] != [] {
      QueueChanges(q, p, q.queues[p][1..]);
    }
  }

  lemma TokenPays(C: Config, live: bool, k: Board, q: Sched, op: Op)
    requires C.Valid() && BoardOk(C, k) && SchedShape(C, q) && OpOk(C, k, op) && (op.Drain? || op.Sleep?)
    requires op.Sleep? ==> q.sem[op.w] > 0
    ensures var e := WorkerStep(C, k, q, op);
            e.k == k && SchedWeight(e.q) + StackWeight(C, live, e.next) < SchedWeight(q) + Weight(C, live, op)
  {
    hide SchedWeight, StackWeight, BoardOk, C.Valid, Weight;
    Sizes(C, k);
    Small(C, live, WorkerStep(C, k, q, op).next);
    WorkerWeights(C, live, op);
    WorkerWeights(C, live, WorkerStep(C, k, q, op).next[0]);
    if q.sem[op.w] > 0 {
      TokenChanges(q, op.w, q.sem[op.w] - 1);
    }
  }

  lemma TaskFoundPays(C: Config, live: bool, k: Board, q: Sched, op: Op)
    requires C.Valid() && BoardOk(C, k) && SchedShape(C, q) && OpOk(C, k, op) && WorkerOp(op) && Going(q, live)
    requires !op.Exited? && !op.Drain? && !op.Sleep? && !op.Scan?
    ensures var e := WorkerStep(C, k, q, op);
            e.q.queues == q.queues && e.q.sem == q.sem && |e.k.cell| == |e.k.rest| == |C.T.children|
            && BoardWeight(C, e.k) + StackWeight(C, live, e.next) < BoardWeight(C, k) + Weight(C, live, op)
  {
    hide StackWeight, BoardOk, BoardWeight, Weight;
    match op
    case TryGrab(w, p, t) => TryGrabPays(C, live, k, q, w, p, t);
    case CheckDone(w, p, t) => CheckDonePays(C, live, k, q, w, p, t);
    case GotTask(_, _) => HandPays(C, live, k, q, op);
    case Confirm(_, _) => HandPays(C, live, k, q, op);
    case ConfirmDone(_, _) => HandPays(C, live, k, q, op);
    case Launch(_, _) => LaunchPays(C, live, k, q, op);
    case _ => IdlePays(C, live, k, q, op);
  }

  lemma TryGrabPays(C: Config, live: bool, k: Board, q: Sched, w: nat, p: nat, t: nat)
    requires C.Valid() && BoardOk(C, k) && SchedShape(C, q) && OpOk(C, k, TryGrab(w, p, t))
    ensures var e := WorkerStep(C, k, q, TryGrab(w, p, t));
            e.q == q && |e.k.cell| == |e.k.rest| == |C.T.children|
            && BoardWeight(C, e.k) + StackWeight(C, live, e.next) < BoardWeight(C, k) +
                Weight(C, live, TryGrab(w, p, t))
  {
    Sizes(C, k);
    Small(C, live, WorkerStep(C, k, q, TryGrab(w, p, t)).next);
    if !k.cell[t].grabbed {
      GrabPays(C, k, t);
    }
    hide BoardWeight, StackWeight, BoardOk, C.Valid;
  }

  lemma CheckDonePays(C: Config, live: bool, k: Board, q: Sched, w: nat, p: nat, t: nat)
    requires C.Valid() && BoardOk(C, k) && SchedShape(C, q) && OpOk(C, k, CheckDone(w, p, t))
    ensures var e := WorkerStep(C, k, q, CheckDone(w, p, t));
            e.q == q && e.k == k && |k.cell| == |k.rest| == |C.T.children|
            && StackWeight(C, live, e.next) < Weight(C, live, CheckDone(w, p, t))
  {
    Sizes(C, k);
    Small(C, live, WorkerStep(C, k, q, CheckDone(w, p, t)).next);
    hide StackWeight, BoardOk, C.Valid;
  }

  lemma HandPays(C: Config, live: bool, k: Board, q: Sched, op: Op)
    requires C.Valid() && BoardOk(C, k) && SchedShape(C, q) && OpOk(C, k, op) && Going(q, live) &&
        (op.GotTask? || op.Confirm? || op.ConfirmDone?)
    ensures var e := WorkerStep(C, k, q, op);
            && e.q.queues == q.queues && e.q.sem == q.sem && e.k == k && |k.cell| == |k.rest| == |C.T.children|
            && StackWeight(C, live, e.next) < Weight(C, live, op)
  {
    hide StackWeight, BoardOk, C.Valid, Calling, Going, Weight;
    Sizes(C, k);
    assert q.running == live by { Lively(q, live); }
    Small(C, live, WorkerStep(C, k, q, op).next);
    WorkerWeights(C, live, op);
    WorkerWeights(C, live, WorkerStep(C, k, q, op).next[0]);
  }

  lemma Lively(q: Sched, live: bool)
    requires Going(q, live)
    ensures q.running == live && forall w :: 0 <= w < |q.alive| ==> q.alive[w] == live
  {
  }

  /** The weights of a worker's operations. */
  lemma WorkerWeights(C: Config, live: bool, op: Op)
    ensures op.Loop? ==> Weight(C, live, op) == if live then 10 else 1
    ensures op.Back? ==> Weight(C, live, op) == if live then 11 else 2
    ensures op.Pump? ==> Weight(C, live, op) == 8
    ensures op.Drain? ==> Weight(C, live, op) == 9
    ensures op.Sleep? ==> Weight(C, live, op) == 1
    ensures op.Exited? ==> Weight(C, live, op) == 0
    ensures op.Scan? ==> Weight(C, live, op) == Scanning(op.p)
    ensures op.TryGrab? ==> Weight(C, live, op) == Scanning(op.p) + 1
    ensures op.CheckDone? ==> Weight(C, live, op) == Calling(C, op.t) + 20
    ensures op.GotTask? ==> Weight(C, live, op) == Calling(C, op.t) + 19
    ensures op.Confirm? ==> Weight(C, live, op) == Calling(C, op.t) + 18
    ensures op.ConfirmDone? ==> Weight(C, live, op) == Calling(C, op.t) + 17
    ensures op.Launch? ==> Weight(C, live, op) == Calling(C, op.t) + 16
  {
    hide Calling, Scanning;
  }

  lemma LaunchPays(C: Config, live: bool, k: Board, q: Sched, op: Op)
    requires C.Valid() && BoardOk(C, k) && SchedShape(C, q) && OpOk(C, k, op) && Going(q, live) && op.Launch?
    ensures var e := WorkerStep(C, k, q, op);
            && e.q.queues == q.queues && e.q.sem == q.sem && e.k == k && |k.cell| == |k.rest| == |C.T.children|
            && StackWeight(C, live, e.next) < Weight(C, live, op)
  {
    Sizes(C, k);
    Small(C, live, WorkerStep(C, k, q, op).next);
    hide StackWeight, BoardOk, C.Valid, Calling;
  }

  lemma IdlePays(C: Config, live: bool, k: Board, q: Sched, op: Op)
    requires C.Valid() && BoardOk(C, k) && SchedShape(C, q) && OpOk(C, k, op) && Going(q, live)
    requires op.Loop? || op.Pump? || op.Back?
    ensures var e := WorkerStep(C, k, q, op);
            && e.q == q && e.k == k && |k.cell| == |k.rest| == |C.T.children|
            && StackWeight(C, live, e.next) < Weight(C, live, op)
  {
    hide StackWeight, BoardOk, C.Valid, Calling, Weight;
    Sizes(C, k);
    Small(C, live, WorkerStep(C, k, q, op).next);
    assert op.Loop? ==> q.alive[op.w] == live;
    WorkerWeights(C, live, op);
    WorkerWeights(C, live, WorkerStep(C, k, q, op).next[0]);
  }

  lemma PerformPays(C: Config, live: bool, k: Board, q: Sched, op: Op)
    requires C.Valid() && BoardOk(C, k) && SchedShape(C, q) && OpOk(C, k, op) && Going(q, live)
    requires Ready(C, k, op) && (op.Sleep? ==> q.sem[op.w] > 0) && !op.Exited? && (live ==> !StopOp(op))
    ensures var e := Perform(C, k, q, op);
            |e.k.cell| == |e.k.rest| == |C.T.children|
            && BoardWeight(C, e.k) + SchedWeight(e.q) + StackWeight(C, live, e.next) < BoardWeight(C, k) +
                SchedWeight(q) + Weight(C, live, op)
  {
    hide OpOk, SchedShape, TaskStep, ParallelStep, CallerStep, AddStep, WorkerStep, BoardOk, C.Valid, Weight,
        StackWeight, BoardWeight, SchedWeight;
    assert |k.cell| == |k.rest| == |C.T.children| by { Sizes(C, k); }
    if TaskOp(op) {
      TaskPays(C, live, k, op);
    } else if ParallelOp(op) {
      ParallelPays(C, live, k, op);
    } else if CallerOp(op) {
      CallerPays(C, live, k, op);
    } else if AddOp(op) {
      AddPays(C, live, k, q, op);
    } else if WorkerOp(op) {
      WorkerPays(C, live, k, q, op);
    } else {
      StopPays(C, k, q, op);
    }
  }

  /** Once the flags are clear, so do the steps of stop(). */
  lemma StopPays(C: Config, k: Board, q: Sched, op: Op)
    requires C.Valid() && BoardOk(C, k) && SchedShape(C, q) && OpOk(C, k, op) && StopOp(op)
    ensures var e := StopStep(C, k, q, op);
            e.k == k && SchedWeight(e.q) + StackWeight(C, false, e.next) < SchedWeight(q) + Weight(C, false, op)
  {
    assert Shape(C.T, k);
    hide BoardOk, SchedWeight, Weight, StackWeight, StopStep;
    if op.WakeAll? {
      PostPays(C, k, q, op.w);
    } else {
      FlagPays(C, k, q, op);
    }
  }

  lemma FlagPays(C: Config, k: Board, q: Sched, op: Op)
    requires C.Valid() && Shape(C.T, k) && SchedShape(C, q) && OpOk(C, k, op) && StopOp(op) && !op.WakeAll?
    ensures var e := StopStep(C, k, q, op);
            e.k == k && SchedWeight(e.q) == SchedWeight(q) && StackWeight(C, false, e.next) < Weight(C, false, op)
  {
    var e := StopStep(C, k, q, op);
    SameStore(q, e.q);
    Small(C, false, e.next);
    StopWeights(C, op);
    FlagNext(C, k, q, op);
    if e.next != [] {
      StopWeights(C, e.next[0]);
    }
    hide StackWeight, C.Valid, Announcing, SchedWeight, Shape, Weight, StopStep;
  }

  lemma FlagNext(C: Config, k: Board, q: Sched, op: Op)
    requires C.Valid() && Shape(C.T, k) && SchedShape(C, q) && OpOk(C, k, op) && StopOp(op) && !op.WakeAll?
    ensures StopStep(C, k, q, op).next == (match op
              case StopScheduler => [StopWorker(0)]
              case StopWorker(w) => [if w == C.Workers() then WakeAll(0) else StopWorker(w + 1)]
              case Join(w) => if w == C.Workers() then [] else [Join(w + 1)]
              case _ => [])
  {
    hide C.Valid, Shape;
  }

  lemma StopWeights(C: Config, op: Op)
    ensures op.StopScheduler? ==> Weight(C, false, op) == Announcing(C, 0) + 2 * C.Workers() + 4
    ensures op.StopWorker? && op.w <= C.Workers() ==>
        Weight(C, false, op) == Announcing(C, 0) + 2 * C.Workers() + 3 - op.w
    ensures op.WakeAll? ==> Weight(C, false, op) == Announcing(C, op.w) + C.Workers() + 1
    ensures op.Join? && op.w <= C.Workers() ==> Weight(C, false, op) == C.Workers() + 1 - op.w
  {
  }

  lemma PostPays(C: Config, k: Board, q: Sched, w: nat)
    requires C.Valid() && Shape(C.T, k) && SchedShape(C, q) && w <= C.Workers()
    ensures var e := StopStep(C, k, q, WakeAll(w));
            e.k == k && SchedWeight(e.q) + StackWeight(C, false, e.next) < SchedWeight(q) + Weight(C, false, WakeAll(w))
  {
    var e := StopStep(C, k, q, WakeAll(w));
    Small(C, false, e.next);
    StopWeights(C, WakeAll(w));
    StopWeights(C, if w < C.Workers() then WakeAll(w + 1) else Join(0));
    hide StackWeight, C.Valid, Announcing, SchedWeight, Shape, Weight;
    if w < C.Workers() {
      TokenChanges(q, w, q.sem[w] + 1);
      SameStore(q.(sem := q.sem[w := q.sem[w] + 1]), e.q);
      AnnouncingFalls(C, w);
    } else {
      AnnouncingEnds(C);
    }
  }

  lemma AnnouncingFalls(C: Config, w: nat)
    requires w < C.Workers()
    ensures Announcing(C, w) == Announcing(C, w + 1) + 10
  {
  }

  lemma AnnouncingEnds(C: Config)
    ensures Announcing(C, C.Workers()) == 1
  {
  }

  lemma SameStore(q: Sched, q': Sched)
    requires q'.queues == q.queues && q'.sem == q.sem
    ensures SchedWeight(q') == SchedWeight(q)
  {
  }

  lemma Sizes(C: Config, k: Board)
    requires BoardOk(C, k)
    ensures Shape(C.T, k) && |k.cell| == |k.rest| == |C.T.children|
  {
  }

  // ------------------------------------------------------------------ every step pays

  lemma {:induction false} StackAppend(C: Config, live: bool, a: seq<Op>, b: seq<Op>)
    ensures StackWeight(C, live, a + b) == StackWeight(C, live, a) + StackWeight(C, live, b)
  {
    hide Weight;
    if a == [] {
      assert a + b == b;
    } else {
      assert (a + b)[1..] == a[1..] + b;
      StackAppend(C, live, a[1..], b);
    }
  }

  lemma AgentPays(C: Config, live: bool, agents: seq<seq<Op>>, a: nat, next: seq<Op>)
    requires a < |agents| && agents[a] != []
    ensures Sum(AgentWeights(C, live, agents[a := next + agents[a][1..]])) + Weight(C, live, agents[a][0])
            == Sum(AgentWeights(C, live, agents)) + StackWeight(C, live, next)
  {
    var stack := next + agents[a][1..];
    var weights := AgentWeights(C, live, agents);
    StackAppend(C, live, next, agents[a][1..]);
    hide Weight;
    assert StackWeight(C, live, agents[a]) == Weight(C, live, agents[a][0]) + StackWeight(C, live, agents[a][1..]);
    hide StackWeight;
    SumUpdate(weights, a, StackWeight(C, live, stack));
    assert AgentWeights(C, live, agents[a := stack]) == weights[a := StackWeight(C, live, stack)];
  }

  /** Every step lowers the measure while the scheduler serves, and again once stop() has cleared all
      flags: nobody spins, nobody adds work that is not already accounted for. */
  lemma StepPays(C: Config, live: bool, s: State, a: nat)
    requires StateOk(C, s) && CanStep(C, s, a) && StateOk(C, StepOf(C, s, a)) && Going(s.q, live)
    requires live ==> !StopOp(s.agents[a][0])
    ensures Measure(C, live, StepOf(C, s, a)) < Measure(C, live, s)
  {
    var op := s.agents[a][0];
    assert OpOk(C, s.k, op);
    assert StepOf(C, s, a).agents == s.agents[a := Perform(C, s.k, s.q, op).next + s.agents[a][1..]];
    hide StateOk, OpOk;
    PerformPays(C, live, s.k, s.q, op);
    AgentPays(C, live, s.agents, a, Perform(C, s.k, s.q, op).next);
    hide Perform, Weight, StackWeight, BoardWeight, SchedWeight;
  }

  lemma StepsPay(C: Config, s: State, a: nat, s': State)
    requires Inv(C, s) && Inv(C, s') && Steps(C, s, a, s') && s'.q.running
    ensures s.q.running && Measure(C, true, s') < Measure(C, true, s)
  {
    hide NoLostWakeUp;
    StopEndsService(C, s, a);
    assert Going(s.q, true);
    hide Structured, StopHeard, StateOk;
    StepPays(C, true, s, a);
  }

  lemma RunPays(C: Config, run: seq<State>, i: nat)
    requires Run(C, run) && 0 < i < |run| && run[i].q.running
    ensures StateOk(C, run[i - 1]) && StateOk(C, run[i]) && run[i - 1].q.running
    ensures Measure(C, true, run[i]) < Measure(C, true, run[i - 1])
  {
    hide Initial, Measure, Inv, StateOk, Steps;
    RunInv(C, run, i);
    RunInv(C, run, i - 1);
    assert Follows(C, run, i - 1);
    hide Run;
    var a: nat :| Steps(C, run[i - 1], a, run[i]);
    StepsPay(C, run[i - 1], a, run[i]);
    InvOk(C, run[i - 1]);
    InvOk(C, run[i]);
  }

  lemma InvOk(C: Config, s: State)
    requires Inv(C, s)
    ensures StateOk(C, s)
  {
    hide StateOk;
  }

  /** A run of a serving scheduler is no longer than the measure of its first state. */
  lemma {:induction false} RunIsBounded(C: Config, run: seq<State>, i: nat)
    requires Run(C, run) && i < |run| && run[i].q.running
    ensures StateOk(C, run[0]) && StateOk(C, run[i])
    ensures i + Measure(C, true, run[i]) <= Measure(C, true, run[0])
  {
    hide Run, Measure, StateOk, Inv;
    if i == 0 {
      RunInv(C, run, 0);
      InvOk(C, run[0]);
    } else {
      RunPays(C, run, i);
      RunIsBounded(C, run, i - 1);
    }
  }

  /** No run of a serving scheduler goes on for ever; and one that cannot be continued, and whose callers
      kept to the rule for activeWait, has finished the root: all functions under it have run exactly
      once. */
  lemma MaximalRunsFinish(C: Config, run: seq<State>)
    requires Run(C, run) && run[|run| - 1].q.running
    ensures StateOk(C, run[0]) && |run| <= Measure(C, true, run[0]) + 1
    ensures var last := run[|run| - 1];
            && StateOk(C, last)
            && (TurnsKept(C.T, run[0]) && Halted(C, last) ==>
                  && |last.k.cell| == C.T.Size() && last.k.cell[C.T.root].done
                  && multiset(FinishOrder(last.k.trace)) == multiset(C.T.Leaves(C.T.root)))
  {
    var last := run[|run| - 1];
    RunIsBounded(C, run, |run| - 1);
    hide Run, Halted, Measure, TurnsKept, InService;
    if TurnsKept(C.T, run[0]) && Halted(C, last) {
      hide StateOk;
      LastInService(C, run);
      HaltsOnlyWhenDone(C, last);
    }
  }

  lemma LastInService(C: Config, run: seq<State>)
    requires Run(C, run) && TurnsKept(C.T, run[0]) && run[|run| - 1].q.running
    ensures InService(C, run[|run| - 1]) && C.T.Valid() && |run[|run| - 1].k.cell| == C.T.Size()
  {
    hide Run, TurnsKept, Disciplined;
    RunReaches(C, run);
  }
}
