// What becomes of the entries of the scheduler's queues, and who never enters them.
module Queueing {
  // Each queue is first in, first out, over any stretch of any run. And a task that has been taken, or is over, is
  // refused by every test that is still to come: it is not offered by its group, not pushed, not fetched.

  import opened Counting
  import opened TaskTree
  import opened Ledger
  import opened Machine
  import opened MachineShape
  import opened MachineLedger
  import opened MachineStacks
  import opened Runs

  // ------------------------------------------------------------------ what a step does to a queue

  /** A queue stays as it is, gets one more entry at its end, or loses its first entry to the worker that takes it. */
  ghost predicate QueueMoves(q: Sched, op: Op, e: Effect, p: nat) {
    p < |q.queues| == |e.q.queues| &&
    if op.Push? && op.p == p then e.q.queues[p] == q.queues[p] + [op.t]
    else
      || e.q.queues[p] == q.queues[p]
      || (op.Scan? && op.p == p && q.queues[p] != [] && e.q.queues[p] == q.queues[p][1..]
          && e.next == [TryGrab(op.w, p, q.queues[p][0])])
  }

  lemma PerformQueues(C: Config, k: Board, q: Sched, op: Op, p: nat)
    requires C.Valid() && BoardOk(C, k) && SchedShape(C, q) && OpOk(C, k, op) && p < PRIO_COUNT
    requires Ready(C, k, op) && (op.Sleep? ==> q.sem[op.w] > 0)
    ensures QueueMoves(q, op, Perform(C, k, q, op), p)
  {
    hide OpOk, BoardOk, Shape, TaskStep, ParallelStep, CallerStep, AddStep, WorkerStep, StopStep, QueueMoves, C.Valid,
        Ready, StopOp, BodyOp, Perform, SchedShape;
    BoardShape(C, k);
    PerformIs(C, k, q, op);
    KindsOf(op);
    if AddOp(op) {
      AddQueues(C, k, q, op, p);
    } else if WorkerOp(op) {
      WorkerQueues(C, k, q, op, p);
    } else if StopOp(op) {
      StopQueues(C, k, q, op, p);
    } else {
      SameQueues(C, q, op, Perform(C, k, q, op), p);
    }
  }

  lemma SameQueues(C: Config, q: Sched, op: Op, e: Effect, p: nat)
    requires SchedShape(C, q) && e.q == q && !op.Push? && p < PRIO_COUNT
    ensures QueueMoves(q, op, e, p)
  {
  }

  lemma AddQueues(C: Config, k: Board, q: Sched, op: Op, p: nat)
    requires C.Valid() && Shape(C.T, k) && SchedShape(C, q) && OpOk(C, k, op) && AddOp(op) && p < PRIO_COUNT
    ensures QueueMoves(q, op, AddStep(C, k, q, op), p)
  {
    hide C.Valid, Shape;
  }

  lemma WorkerQueues(C: Config, k: Board, q: Sched, op: Op, p: nat)
    requires C.Valid() && Shape(C.T, k) && SchedShape(C, q) && OpOk(C, k, op) && WorkerOp(op) && p < PRIO_COUNT
    requires op.Sleep? ==> q.sem[op.w] > 0
    ensures QueueMoves(q, op, WorkerStep(C, k, q, op), p)
  {
    hide Shape;
  }

  lemma StopQueues(C: Config, k: Board, q: Sched, op: Op, p: nat)
    requires C.Valid() && Shape(C.T, k) && SchedShape(C, q) && OpOk(C, k, op) && StopOp(op) && p < PRIO_COUNT
    ensures QueueMoves(q, op, StopStep(C, k, q, op), p)
  {
    hide C.Valid, Shape;
  }

  lemma StepQueues(C: Config, s: State, a: nat, s': State, p: nat)
    requires Steps(C, s, a, s') && p < PRIO_COUNT
    ensures a < |s.agents| && s.agents[a] != [] && p < |s.q.queues| == |s'.q.queues|
    ensures var op := s.agents[a][0];
            if op.Push? && op.p == p then s'.q.queues[p] == s.q.queues[p] + [op.t]
            else
              || s'.q.queues[p] == s.q.queues[p]
              || (op.Scan? && op.p == p && s.q.queues[p] != [] && s'.q.queues[p] == s.q.queues[p][1..]
                  && s'.agents == s.agents[a := [TryGrab(op.w, p, s.q.queues[p][0])] + s.agents[a][1..]])
  {
    hide StateOk, CanStep, StepOf, OpOk, BoardOk, SchedShape, Perform, C.Valid, Ready;
    StepPieces(C, s, a);
    PerformQueues(C, s.k, s.q, s.agents[a][0], p);
  }

  // ------------------------------------------------------------------ first in, first out

  /** How many entries have been taken from queue `p` between states `i` and `j`. */
  ghost function Taken(run: seq<State>, i: nat, j: nat, p: nat): nat
    requires i <= j < |run| && forall l :: i <= l <= j ==> p < |run[l].q.queues|
  {
    if i == j then 0
    else Taken(run, i, j - 1, p) + Bit(|run[j].q.queues[p]| < |run[j - 1].q.queues[p]|)
  }

  lemma {:induction false} QueuesThere(C: Config, run: seq<State>, i: nat, p: nat)
    requires Run(C, run) && i < |run| && p < PRIO_COUNT
    ensures p < |run[i].q.queues|
  {
    hide Initial, Steps;
    if i == 0 {
      StartsEmpty(C, run[0]);
    } else {
      assert Follows(C, run, i - 1);
      hide Run;
      var a: nat :| Steps(C, run[i - 1], a, run[i]);
      StepQueues(C, run[i - 1], a, run[i], p);
    }
  }

  lemma StartsEmpty(C: Config, s: State)
    requires Initial(C, s)
    ensures |s.q.queues| == PRIO_COUNT
  {
  }

  /** An entry is added, or taken, or nothing happens. */
  lemma StillFirst(first: seq<nat>, n: nat, before: seq<nat>, after: seq<nat>)
    requires n <= |first| && first[n..] <= before
    requires before <= after || (before != [] && after == before[1..])
    ensures if |after| < |before| then n < |first| ==> first[n + 1..] <= after else first[n..] <= after
  {
    if |after| < |before| && n < |first| {
      assert first[n..][1..] == first[n + 1..];
    }
  }

  /** As long as not all entries of a queue have been taken, what is left of them comes first and in the same order:
      the entries taken were the oldest. */
  lemma {:induction false} FirstInFirstOut(C: Config, run: seq<State>, i: nat, j: nat, p: nat)
    requires Run(C, run) && i <= j < |run| && p < PRIO_COUNT
    ensures forall l :: i <= l <= j ==> p < |run[l].q.queues|
    ensures var n := Taken(run, i, j, p);
            n <= |run[i].q.queues[p]| ==> run[i].q.queues[p][n..] <= run[j].q.queues[p]
    decreases j
  {
    hide Initial, Steps;
    forall l | i <= l <= j ensures p < |run[l].q.queues| {
      QueuesThere(C, run, l, p);
    }
    if i < j {
      FirstInFirstOut(C, run, i, j - 1, p);
      assert Follows(C, run, j - 1);
      hide Run;
      var a: nat :| Steps(C, run[j - 1], a, run[j]);
      StepQueues(C, run[j - 1], a, run[j], p);
      var n := Taken(run, i, j - 1, p);
      if n <= |run[i].q.queues[p]| {
        StillFirst(run[i].q.queues[p], n, run[j - 1].q.queues[p], run[j].q.queues[p]);
      }
    }
  }

  // ------------------------------------------------------------------ tests that are passed no more

  /** Who has found task `t` not grabbed: in scheduler::add, ... */
  predicate AddsFree(op: Op, t: nat) {
    (op.AddDone? && op.t == t) || AddsOpen(op, t)
  }

  /** ... and not done, ... */
  predicate AddsOpen(op: Op, t: nat) {
    (op.Climb? || op.Push?) && op.t == t
  }

  /** ... or in a loop of its group. */
  ghost predicate PicksFree(T: Tree, op: Op, t: nat) {
    (op.ForkDone? || op.RefillDone?)
    && op.t < |T.children| && op.i < |T.children[op.t]| && T.children[op.t][op.i] == t
  }

  /** Which worker has won `t` and found it not done: when it fetched it, ... */
  predicate FetchesOpen(op: Op, t: nat) {
    (op.GotTask? || op.Confirm? || op.ConfirmDone? || op.Launch?) && op.t == t
  }

  /** ... and once more before it runs it. */
  predicate LaunchesOpen(op: Op, t: nat) {
    op.Launch? && op.t == t
  }

  /** Nobody gets from before such a test of `t` to behind it once `t` is grabbed, or done. */
  ghost predicate Refused(T: Tree, k: Board, t: nat, op: Op, x: Op)
    requires t < |k.cell|
  {
    && (k.cell[t].grabbed && AddsFree(x, t) ==> AddsFree(op, t))
    && (k.cell[t].done && AddsOpen(x, t) ==> AddsOpen(op, t))
    && (k.cell[t].grabbed && PicksFree(T, x, t) ==> PicksFree(T, op, t))
    && (k.cell[t].done && FetchesOpen(x, t) ==> FetchesOpen(op, t))
    && (k.cell[t].done && LaunchesOpen(x, t) ==> LaunchesOpen(op, t))
  }

  /** Group `g` passes on no child that it has not tested for being grabbed, and none that is done. */
  ghost predicate OffersOpen(T: Tree, k: Board, k': Board, t: nat, op: Op)
    requires T.Valid() && t < T.Size() == |k.cell| == |k'.cell| && T.parent[t].Some?
  {
    var g, i := T.Group(t), T.slot[t];
    i in k'.cell[g].offered ==> i in k.cell[g].offered || (PicksFree(T, op, t) && !k.cell[t].done)
  }

  ghost predicate Refuses(T: Tree, k: Board, op: Op, k': Board, next: seq<Op>, t: nat)
    requires T.Valid() && t < T.Size() == |k.cell|
  {
    && |k'.cell| == |k.cell|
    && (forall j :: 0 <= j < |next| ==> Refused(T, k, t, op, next[j]))
    && (T.parent[t].Some? ==> OffersOpen(T, k, k', t, op))
  }

  /** Stages that are behind no test. */
  predicate Untested(op: Op) {
    !op.AddDone? && !op.Climb? && !op.Push? && !op.ForkDone? && !op.RefillDone?
    && !op.GotTask? && !op.Confirm? && !op.ConfirmDone? && !op.Launch?
  }

  lemma UntestedIsRefused(T: Tree, k: Board, t: nat, op: Op, x: Op)
    requires t < |k.cell| && Untested(x)
    ensures Refused(T, k, t, op, x)
  {
    assert !AddsFree(x, t) && !AddsOpen(x, t) && !PicksFree(T, x, t) && !FetchesOpen(x, t) && !LaunchesOpen(x, t);
    hide AddsFree, AddsOpen, PicksFree, FetchesOpen, LaunchesOpen, Untested;
  }

  predicate AllUntested(next: seq<Op>) {
    forall j :: 0 <= j < |next| ==> Untested(next[j])
  }

  predicate SameOffers(k: Board, k': Board) {
    |k'.cell| == |k.cell| && forall g :: 0 <= g < |k.cell| ==> k'.cell[g].offered == k.cell[g].offered
  }

  lemma NothingTested(T: Tree, k: Board, op: Op, k': Board, next: seq<Op>, t: nat)
    requires T.Valid() && t < T.Size() == |k.cell| && AllUntested(next) && SameOffers(k, k')
    ensures Refuses(T, k, op, k', next, t)
  {
    hide Refused, Untested, T.Valid;
    forall j | 0 <= j < |next| ensures Refused(T, k, t, op, next[j]) {
      UntestedIsRefused(T, k, t, op, next[j]);
    }
  }

  lemma TaskRefuses(C: Config, k: Board, op: Op)
    requires C.Valid() && Shape(C.T, k) && OpOk(C, k, op) && TaskOp(op)
    ensures var (k', next) := TaskStep(C, k, op);
            AllUntested(next) && SameOffers(k, k')
  {
    hide C.Valid;
  }

  lemma CallerRefuses(C: Config, k: Board, op: Op)
    requires C.Valid() && Shape(C.T, k) && OpOk(C, k, op) && CallerOp(op) && Ready(C, k, op)
    ensures var (k', next) := CallerStep(C, k, op);
            AllUntested(next) && SameOffers(k, k')
  {
    hide C.Valid;
  }

  lemma ParallelRefuses(C: Config, k: Board, op: Op, t: nat)
    requires C.Valid() && Shape(C.T, k) && OpOk(C, k, op) && ParallelOp(op) && t < C.T.Size() == |k.cell|
    ensures C.T.Valid()
    ensures var (k', next) := ParallelStep(C, k, op);
            Refuses(C.T, k, op, k', next, t)
  {
    CellsFit(C.T, k);
    hide C.Valid, Shape, OpOk, ParallelStep, Refuses, AllUntested, SameOffers;
    if op.ForkGrabbed? || op.RefillGrabbed? {
      TestRefuses(C, k, op, t);
    } else if op.ForkDone? || op.RefillDone? {
      OfferRefuses(C, k, op, t);
    } else {
      ClaimRefuses(C, k, op);
      NothingTested(C.T, k, op, ParallelStep(C, k, op).0, ParallelStep(C, k, op).1, t);
    }
  }

  lemma ClaimRefuses(C: Config, k: Board, op: Op)
    requires C.Valid() && Shape(C.T, k) && OpOk(C, k, op) && (op.Fork? || op.Refill? || op.GrabFirst?)
    ensures var (k', next) := ParallelStep(C, k, op);
            AllUntested(next) && SameOffers(k, k')
  {
    hide C.Valid;
  }

  lemma TestRefuses(C: Config, k: Board, op: Op, t: nat)
    requires C.Valid() && Shape(C.T, k) && OpOk(C, k, op) && (op.ForkGrabbed? || op.RefillGrabbed?)
    requires C.T.Valid() && t < C.T.Size() == |k.cell|
    ensures var (k', next) := ParallelStep(C, k, op);
            Refuses(C.T, k, op, k', next, t)
  {
    hide C.Valid, Refused, Shape;
    var next := ParallelStep(C, k, op).1;
    if Untested(next[0]) {
      UntestedIsRefused(C.T, k, t, op, next[0]);
    } else {
      PickIsRefused(C.T, k, t, op, next[0]);
    }
  }

  /** A loop has just found child `i` of `g` not grabbed. */
  lemma PickIsRefused(T: Tree, k: Board, t: nat, op: Op, x: Op)
    requires t < |k.cell| && (x.ForkDone? || x.RefillDone?)
    requires x.t < |T.children| && x.i < |T.children[x.t]|
    requires T.children[x.t][x.i] < |k.cell| && !k.cell[T.children[x.t][x.i]].grabbed
    ensures Refused(T, k, t, op, x)
  {
    assert !AddsFree(x, t) && !AddsOpen(x, t) && !FetchesOpen(x, t) && !LaunchesOpen(x, t);
    hide AddsFree, AddsOpen, FetchesOpen, LaunchesOpen;
  }

  lemma OfferRefuses(C: Config, k: Board, op: Op, t: nat)
    requires C.Valid() && Shape(C.T, k) && OpOk(C, k, op) && (op.ForkDone? || op.RefillDone?)
    requires C.T.Valid() && t < C.T.Size() == |k.cell|
    ensures var (k', next) := ParallelStep(C, k, op);
            Refuses(C.T, k, op, k', next, t)
  {
    hide C.Valid, Refused, Shape;
    var (k', next) := ParallelStep(C, k, op);
    assert |k'.cell| == |k.cell| && AllUntested(next);
    forall j | 0 <= j < |next| ensures Refused(C.T, k, t, op, next[j]) {
      UntestedIsRefused(C.T, k, t, op, next[j]);
    }
    hide Untested;
    OffersOne(C, k, op, t);
  }

  lemma OffersOne(C: Config, k: Board, op: Op, t: nat)
    requires C.Valid() && Shape(C.T, k) && OpOk(C, k, op) && (op.ForkDone? || op.RefillDone?)
    requires C.T.Valid() && t < C.T.Size() == |k.cell| == |ParallelStep(C, k, op).0.cell|
    ensures C.T.parent[t].Some? ==> OffersOpen(C.T, k, ParallelStep(C, k, op).0, t, op)
  {
    hide C.Valid;
  }

  lemma AddRefuses(C: Config, k: Board, q: Sched, op: Op, t: nat)
    requires C.Valid() && Shape(C.T, k) && SchedShape(C, q) && OpOk(C, k, op) && AddOp(op) && t < C.T.Size() == |k.cell|
    ensures C.T.Valid()
    ensures var e := AddStep(C, k, q, op);
            Refuses(C.T, k, op, e.k, e.next, t)
  {
    hide C.Valid;
  }

  lemma WorkerRefuses(C: Config, k: Board, q: Sched, op: Op, t: nat)
    requires C.Valid() && Shape(C.T, k) && SchedShape(C, q) && OpOk(C, k, op) && WorkerOp(op)
    requires t < C.T.Size() == |k.cell| && (op.Sleep? ==> q.sem[op.w] > 0)
    ensures C.T.Valid()
    ensures var e := WorkerStep(C, k, q, op);
            Refuses(C.T, k, op, e.k, e.next, t)
  {
    CellsFit(C.T, k);
    hide C.Valid, Shape, OpOk, SchedShape, WorkerStep, Refuses, AllUntested, SameOffers;
    if op.CheckDone? || op.GotTask? || op.Confirm? || op.ConfirmDone? || op.Launch? {
      HolderRefuses(C, k, q, op, t);
    } else {
      IdleRefuses(C, k, q, op);
      NothingTested(C.T, k, op, WorkerStep(C, k, q, op).k, WorkerStep(C, k, q, op).next, t);
    }
  }

  lemma IdleRefuses(C: Config, k: Board, q: Sched, op: Op)
    requires C.Valid() && Shape(C.T, k) && SchedShape(C, q) && OpOk(C, k, op) && WorkerOp(op)
    requires !op.CheckDone? && !op.GotTask? && !op.Confirm? && !op.ConfirmDone? && !op.Launch?
    requires op.Sleep? ==> q.sem[op.w] > 0
    ensures var e := WorkerStep(C, k, q, op);
            AllUntested(e.next) && SameOffers(k, e.k)
  {
    hide C.Valid;
  }

  lemma HolderRefuses(C: Config, k: Board, q: Sched, op: Op, t: nat)
    requires C.Valid() && Shape(C.T, k) && SchedShape(C, q) && OpOk(C, k, op)
    requires op.CheckDone? || op.GotTask? || op.Confirm? || op.ConfirmDone? || op.Launch?
    requires C.T.Valid() && t < C.T.Size() == |k.cell|
    ensures var e := WorkerStep(C, k, q, op);
            Refuses(C.T, k, op, e.k, e.next, t)
  {
    hide C.Valid, Refused, Shape;
    var e := WorkerStep(C, k, q, op);
    assert e.k == k && 1 <= |e.next| <= 2;
    forall j | 0 <= j < |e.next| ensures Refused(C.T, k, t, op, e.next[j]) {
      if Untested(e.next[j]) {
        UntestedIsRefused(C.T, k, t, op, e.next[j]);
      } else {
        HolderIsRefused(C.T, k, t, op, e.next[j]);
      }
    }
  }

  /** A worker goes on with its task. */
  lemma HolderIsRefused(T: Tree, k: Board, t: nat, op: Op, x: Op)
    requires t < |k.cell| && (op.CheckDone? || op.GotTask? || op.Confirm? || op.ConfirmDone? || op.Launch?)
    requires op.t < |k.cell| && (op.CheckDone? || op.ConfirmDone? ==> !k.cell[op.t].done)
    requires (op.CheckDone? && x == GotTask(op.w, op.t)) || (op.GotTask? && x == Confirm(op.w, op.t))
             || (op.Confirm? && x == ConfirmDone(op.w, op.t)) || (op.ConfirmDone? && x == Launch(op.w, op.t))
    ensures Refused(T, k, t, op, x)
  {
    assert !AddsFree(x, t) && !AddsOpen(x, t) && !PicksFree(T, x, t);
    hide AddsFree, AddsOpen, PicksFree;
  }

  lemma StopRefuses(C: Config, k: Board, q: Sched, op: Op)
    requires C.Valid() && Shape(C.T, k) && SchedShape(C, q) && OpOk(C, k, op) && StopOp(op)
    ensures var e := StopStep(C, k, q, op);
            AllUntested(e.next) && SameOffers(k, e.k)
  {
    hide C.Valid, Shape;
  }

  lemma PerformRefuses(C: Config, k: Board, q: Sched, op: Op, t: nat)
    requires C.Valid() && Shape(C.T, k) && SchedShape(C, q) && OpOk(C, k, op) && t < C.T.Size() == |k.cell|
    requires Ready(C, k, op) && (op.Sleep? ==> q.sem[op.w] > 0)
    ensures C.T.Valid()
    ensures var e := Perform(C, k, q, op);
            Refuses(C.T, k, op, e.k, e.next, t)
  {
    CellsFit(C.T, k);
    hide TaskStep, ParallelStep, CallerStep, AddStep, WorkerStep, StopStep, OpOk, Shape, SchedShape, C.Valid, Ready,
        StopOp, BodyOp, Refuses, AllUntested, SameOffers, Perform;
    KindsOf(op);
    PerformIs(C, k, q, op);
    if ParallelOp(op) {
      ParallelRefuses(C, k, op, t);
    } else if AddOp(op) {
      AddRefuses(C, k, q, op, t);
    } else if WorkerOp(op) {
      WorkerRefuses(C, k, q, op, t);
    } else {
      if TaskOp(op) {
        TaskRefuses(C, k, op);
      } else if CallerOp(op) {
        CallerRefuses(C, k, op);
      } else {
        StopRefuses(C, k, q, op);
      }
      NothingTested(C.T, k, op, Perform(C, k, q, op).k, Perform(C, k, q, op).next, t);
    }
  }

  /** The tests in the way of a task: in scheduler::add, in the two loops of its group, and where a worker fetches and
      launches it. */
  datatype Test = AddFree | AddOpen | LoopFree | FetchOpen | LaunchOpen

  predicate Fails(test: Test, c: Cell) {
    if test.AddFree? || test.LoopFree? then c.grabbed else c.done
  }

  /** The operation comes after the test of `t` has been passed. */
  ghost predicate Behind(T: Tree, test: Test, op: Op, t: nat) {
    match test
    case AddFree => AddsFree(op, t)
    case AddOpen => AddsOpen(op, t)
    case LoopFree => PicksFree(T, op, t)
    case FetchOpen => FetchesOpen(op, t)
    case LaunchOpen => LaunchesOpen(op, t)
  }

  ghost predicate NobodyBehind(T: Tree, s: State, test: Test, t: nat) {
    forall a, j :: 0 <= a < |s.agents| && 0 <= j < |s.agents[a]| ==> !Behind(T, test, s.agents[a][j], t)
  }

  lemma RefusedByTest(T: Tree, k: Board, t: nat, op: Op, x: Op, test: Test)
    requires t < |k.cell| && Refused(T, k, t, op, x) && Fails(test, k.cell[t]) && Behind(T, test, x, t)
    ensures Behind(T, test, op, t)
  {
    hide AddsFree, AddsOpen, PicksFree, FetchesOpen, LaunchesOpen;
  }

  lemma StepRefuses(C: Config, s: State, a: nat, s': State, t: nat)
    requires Steps(C, s, a, s') && t < C.T.Size()
    ensures C.T.Valid() && |s.k.cell| == C.T.Size() == |s'.k.cell| && a < |s.agents| && s.agents[a] != []
    ensures s.k.cell[t].grabbed ==> s'.k.cell[t].grabbed
    ensures s.k.cell[t].done ==> s'.k.cell[t].done
    ensures C.T.parent[t].Some? ==> OffersOpen(C.T, s.k, s'.k, t, s.agents[a][0])
    ensures forall test ::
              Fails(test, s.k.cell[t]) && NobodyBehind(C.T, s, test, t) ==> NobodyBehind(C.T, s', test, t)
  {
    hide StateOk, CanStep, StepOf, OpOk, BoardOk, SchedShape, Perform, C.Valid, Ready, Shape, Refused, Behind, Fails,
        OffersOpen;
    StepPieces(C, s, a);
    BoardShape(C, s.k);
    CellsFit(C.T, s.k);
    var op := s.agents[a][0];
    PerformShape(C, s.k, s.q, op);
    PerformRefuses(C, s.k, s.q, op, t);
    var next := Perform(C, s.k, s.q, op).next;
    forall test, b, j |
      0 <= b < |s'.agents| && 0 <= j < |s'.agents[b]| && Fails(test, s.k.cell[t]) && NobodyBehind(C.T, s, test, t)
      ensures !Behind(C.T, test, s'.agents[b][j], t)
    {
      if b == a && j < |next| {
        assert Refused(C.T, s.k, t, op, next[j]);
        if Behind(C.T, test, next[j], t) {
          RefusedByTest(C.T, s.k, t, op, next[j], test);
        }
      } else if b == a {
        assert s'.agents[b][j] == s.agents[b][j - |next| + 1];
      }
    }
  }

  lemma StepStays(C: Config, s: State, a: nat, s': State, test: Test, t: nat)
    requires Steps(C, s, a, s') && t < C.T.Size() && t < |s.k.cell| && Fails(test, s.k.cell[t])
    requires NobodyBehind(C.T, s, test, t)
    ensures t < |s'.k.cell| && Fails(test, s'.k.cell[t]) && NobodyBehind(C.T, s', test, t)
  {
    hide Steps, Behind, OffersOpen, C.T.Valid;
    StepRefuses(C, s, a, s', t);
  }

  /** A task that would fail a test, and that nobody has got past it, is refused there for ever. */
  lemma {:induction false} RefusedForEver(C: Config, run: seq<State>, i: nat, j: nat, test: Test, t: nat)
    requires Run(C, run) && i <= j < |run| && t < C.T.Size()
    requires t < |run[i].k.cell| && Fails(test, run[i].k.cell[t]) && NobodyBehind(C.T, run[i], test, t)
    ensures t < |run[j].k.cell| && Fails(test, run[j].k.cell[t]) && NobodyBehind(C.T, run[j], test, t)
    decreases j
  {
    hide Initial, Steps, Fails, NobodyBehind;
    if i < j {
      RefusedForEver(C, run, i, j - 1, test, t);
      assert Follows(C, run, j - 1);
      hide Run;
      var a: nat :| Steps(C, run[j - 1], a, run[j]);
      StepStays(C, run[j - 1], a, run[j], test, t);
    }
  }

  /** A task that is grabbed or done, and not on its way into a queue, gets into none any more. */
  lemma {:induction false} NoNewEntries(C: Config, run: seq<State>, i: nat, j: nat, test: Test, t: nat, p: nat)
    requires Run(C, run) && i <= j < |run| && t < C.T.Size() && p < PRIO_COUNT && (test.AddFree? || test.AddOpen?)
    requires t < |run[i].k.cell| && Fails(test, run[i].k.cell[t]) && NobodyBehind(C.T, run[i], test, t)
    ensures p < |run[i].q.queues| && p < |run[j].q.queues|
    ensures multiset(run[j].q.queues[p])[t] <= multiset(run[i].q.queues[p])[t]
    decreases j
  {
    hide Initial, Steps, Fails, NobodyBehind;
    QueuesThere(C, run, i, p);
    if i < j {
      NoNewEntries(C, run, i, j - 1, test, t, p);
      RefusedForEver(C, run, i, j - 1, test, t);
      assert Follows(C, run, j - 1);
      hide Run;
      var a: nat :| Steps(C, run[j - 1], a, run[j]);
      StepEntries(C, run[j - 1], a, run[j], test, t, p);
    }
  }

  lemma StepEntries(C: Config, s: State, a: nat, s': State, test: Test, t: nat, p: nat)
    requires Steps(C, s, a, s') && p < PRIO_COUNT && (test.AddFree? || test.AddOpen?) && NobodyBehind(C.T, s, test, t)
    ensures p < |s.q.queues| && p < |s'.q.queues|
    ensures multiset(s'.q.queues[p])[t] <= multiset(s.q.queues[p])[t]
  {
    StepQueues(C, s, a, s', p);
    hide Steps;
    assert !Behind(C.T, test, s.agents[a][0], t);
    var queue := s.q.queues[p];
    if queue != [] {
      assert queue == [queue[0]] + queue[1..];
      assert multiset(queue) == multiset([queue[0]]) + multiset(queue[1..]);
    }
  }

  /** A group does not pass on a child that is done, nor one that is grabbed and that no loop has found free. */
  lemma {:induction false} NoNewOffers(C: Config, run: seq<State>, i: nat, j: nat, t: nat)
    requires Run(C, run) && i <= j < |run| && t < C.T.Size() == |run[i].k.cell| && C.T.Valid() && C.T.parent[t].Some?
    requires run[i].k.cell[t].done || (run[i].k.cell[t].grabbed && NobodyBehind(C.T, run[i], LoopFree, t))
    requires C.T.slot[t] !in run[i].k.cell[C.T.Group(t)].offered
    ensures |run[j].k.cell| == C.T.Size() && C.T.slot[t] !in run[j].k.cell[C.T.Group(t)].offered
    ensures run[j].k.cell[t].done || (run[j].k.cell[t].grabbed && NobodyBehind(C.T, run[j], LoopFree, t))
    decreases j
  {
    hide Initial, Steps, NobodyBehind, C.T.Valid;
    if i < j {
      NoNewOffers(C, run, i, j - 1, t);
      assert Follows(C, run, j - 1);
      hide Run;
      var a: nat :| Steps(C, run[j - 1], a, run[j]);
      StepOffers(C, run[j - 1], a, run[j], t);
    }
  }

  lemma StepOffers(C: Config, s: State, a: nat, s': State, t: nat)
    requires Steps(C, s, a, s') && t < C.T.Size() == |s.k.cell| && C.T.Valid() && C.T.parent[t].Some?
    requires s.k.cell[t].done || (s.k.cell[t].grabbed && NobodyBehind(C.T, s, LoopFree, t))
    requires C.T.slot[t] !in s.k.cell[C.T.Group(t)].offered
    ensures |s'.k.cell| == C.T.Size() && C.T.slot[t] !in s'.k.cell[C.T.Group(t)].offered
    ensures s'.k.cell[t].done || (s'.k.cell[t].grabbed && NobodyBehind(C.T, s', LoopFree, t))
  {
    hide Steps, PicksFree, C.T.Valid;
    StepRefuses(C, s, a, s', t);
    assert OffersOpen(C.T, s.k, s'.k, t, s.agents[a][0]);
    if !s.k.cell[t].done {
      assert Fails(LoopFree, s.k.cell[t]);
      assert !Behind(C.T, LoopFree, s.agents[a][0], t);
      StepStays(C, s, a, s', LoopFree, t);
    }
  }
}
