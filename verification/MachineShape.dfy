// Every step keeps the machine well formed: pending operations stay meaningful, grab tokens
// and history only grow, and each agent's stack keeps its form. Nothing here depends on the
// ledger, so all of it also holds while the scheduler is being stopped.
module MachineShape {
  import opened TaskTree
  import opened Ledger
  import opened Machine

  /** Tokens, completions and calls are never taken back, queues of sequences only shrink. */
  ghost predicate Grows(C: Config, k: Board, k': Board)
    requires C.Valid() && BoardOk(C, k)
  {
    && BoardOk(C, k')
    && (forall t :: 0 <= t < C.T.Size() && k.cell[t].grabbed ==> k'.cell[t].grabbed)
    && (forall t :: 0 <= t < C.T.Size() && k.cell[t].notified ==> k'.cell[t].notified)
    && (forall t :: 0 <= t < C.T.Size() && k.cell[t].done ==> k'.cell[t].done)
  }

  lemma BoardShape(C: Config, k: Board)
    requires BoardOk(C, k)
    ensures C.T.Valid() && Shape(C.T, k)
    ensures forall t :: 0 <= t < C.T.Size() && k.cell[t].unlinked ==> k.cell[t].notified
  {
  }

  lemma OpStays(C: Config, k: Board, k': Board, op: Op)
    requires C.Valid() && BoardOk(C, k) && Grows(C, k, k') && OpOk(C, k, op)
    ensures OpOk(C, k', op)
  {
  }

  ghost predicate NextOk(C: Config, k': Board, next: seq<Op>)
    requires C.Valid() && Shape(C.T, k')
  {
    |next| <= 2 && forall j :: 0 <= j < |next| ==> OpOk(C, k', next[j])
  }

  /** A board on which at most cell `t` differs, its token not given back. */
  lemma CellShape(C: Config, k: Board, t: nat, c: Cell)
    requires C.Valid() && BoardOk(C, k) && t < C.T.Size() && (k.cell[t].grabbed ==> c.grabbed)
    requires (k.cell[t].done ==> c.done) && (k.cell[t].notified ==> c.notified) && (c.unlinked ==> c.notified)
    ensures Grows(C, k, WithCell(k, t, c))
  {
  }

  lemma RestShape(C: Config, k: Board, g: nat)
    requires C.Valid() && BoardOk(C, k) && g < C.T.Size() && k.rest[g] != []
    ensures Grows(C, k, k.(rest := k.rest[g := k.rest[g][1..]]))
    ensures k.rest[g][0] < C.T.Size()
  {
    assert k.rest[g][0] == C.T.Child(g, |C.T.children[g]| - |k.rest[g]|);
  }

  lemma PopShape(C: Config, k: Board, op: Op)
    requires C.Valid() && BoardOk(C, k) && OpOk(C, k, op) && (op.Execute? || op.Advance?)
    ensures var (k', next) := TaskStep(C, k, op);
            Grows(C, k, k') && NextOk(C, k', next)
  {
    var g := op.t;
    assert BoardOk(C, k) && Shape(C.T, k);
    if k.rest[g] != [] {
      RestShape(C, k, g);
    }
    hide BoardOk, C.Valid;
  }

  lemma NotifyShape(C: Config, k: Board, op: Op)
    requires C.Valid() && BoardOk(C, k) && OpOk(C, k, op) && (op.Notify?)
    ensures var (k', next) := TaskStep(C, k, op);
            Grows(C, k, k') && NextOk(C, k', next)
  {
    hide BoardOk, OpOk, NextOk, TaskStep, Grows, C.Valid, Shape;
    BoardShape(C, k);
    var t := op.t;
    var (k', next) := TaskStep(C, k, op);
    NotifyBoard(C, k, t);
    var told := WithCell(k, t, k.cell[t].(notified := true));
    CellShape(C, k, t, told.cell[t]);
    GrownOk(C, k, told);
    BoardShape(C, told);
    if C.T.parent[t].Some? && C.T.kind[C.T.Group(t)].Parallel? {
      CellShape(C, told, C.T.Group(t), k'.cell[C.T.Group(t)]);
      GrowsOn(C, k, told, k');
    }
    GrownOk(C, k, k');
    NotifyNextOk(C, k, t, k');
  }

  lemma GrownOk(C: Config, k: Board, k': Board)
    requires C.Valid() && BoardOk(C, k) && Grows(C, k, k')
    ensures BoardOk(C, k') && Shape(C.T, k')
  {
    hide C.Valid;
  }

  lemma GrowsOn(C: Config, k: Board, k1: Board, k2: Board)
    requires C.Valid() && BoardOk(C, k) && BoardOk(C, k1) && Grows(C, k, k1) && Grows(C, k1, k2)
    ensures Grows(C, k, k2)
  {
    assert |k.cell| == |k1.cell| == |k2.cell| == C.T.Size();
    hide BoardOk, C.Valid;
  }

  lemma NotifyBoard(C: Config, k: Board, t: nat)
    requires C.Valid() && Shape(C.T, k) && OpOk(C, k, Notify(t))
    ensures C.T.Valid() && t < C.T.Size() == |k.cell| && (C.T.parent[t].Some? ==>
        C.T.Group(t) < C.T.Size() && C.T.Group(t) != t)
    ensures var k' := TaskStep(C, k, Notify(t)).0;
            var told := WithCell(k, t, k.cell[t].(notified := true));
            if C.T.parent[t].Some? && C.T.kind[C.T.Group(t)].Parallel? then
              var g := C.T.Group(t);
              g < |k'.cell| && k' == WithCell(told, g, k'.cell[g]) &&
                  k'.cell[g] == k.cell[g].(active := k'.cell[g].active)
            else k' == told
  {
  }

  lemma NotifyNextOk(C: Config, k: Board, t: nat, k': Board)
    requires C.Valid() && Shape(C.T, k) && OpOk(C, k, Notify(t)) && Shape(C.T, k') && k' == TaskStep(C, k, Notify(t)).0
    ensures NextOk(C, k', TaskStep(C, k, Notify(t)).1)
  {
    assert k'.cell[t].notified by { NotifyBoard(C, k, t); }
    hide Shape;
  }

  lemma RunShape(C: Config, k: Board, op: Op)
    requires C.Valid() && BoardOk(C, k) && OpOk(C, k, op) && (TaskOp(op) && !op.Execute? && !op.Advance? && !op.Notify?)
    ensures var (k', next) := TaskStep(C, k, op);
            Grows(C, k, k') && NextOk(C, k', next)
  {
  }

  lemma TaskShape(C: Config, k: Board, op: Op)
    requires C.Valid() && BoardOk(C, k) && OpOk(C, k, op) && (TaskOp(op))
    ensures var (k', next) := TaskStep(C, k, op);
            Grows(C, k, k') && NextOk(C, k', next)
  {
    if op.Execute? || op.Advance? {
      PopShape(C, k, op);
    } else if op.Notify? {
      NotifyShape(C, k, op);
    } else {
      RunShape(C, k, op);
    }
  }

  lemma LoopShape(C: Config, k: Board, op: Op)
    requires C.Valid() && BoardOk(C, k) && OpOk(C, k, op) && (op.Fork? || op.Refill? || op.GrabFirst?)
    ensures var (k', next) := ParallelStep(C, k, op);
            Grows(C, k, k') && NextOk(C, k', next)
  {
    assert C.T.LinksDown(op.t);
  }

  lemma SameBoard(C: Config, k: Board)
    requires C.Valid() && BoardOk(C, k)
    ensures Grows(C, k, k) && Shape(C.T, k)
  {
  }

  lemma NextStays(C: Config, k: Board, k': Board, next: seq<Op>)
    requires C.Valid() && BoardOk(C, k) && Grows(C, k, k') && NextOk(C, k, next)
    ensures NextOk(C, k', next)
  {
    assert BoardOk(C, k') && Shape(C.T, k');
    hide OpOk, BoardOk;
    forall j | 0 <= j < |next| ensures OpOk(C, k', next[j]) {
      OpStays(C, k, k', next[j]);
    }
  }

  lemma TestShape(C: Config, k: Board, op: Op)
    requires C.Valid() && BoardOk(C, k) && OpOk(C, k, op) && (op.ForkGrabbed? || op.RefillGrabbed?)
    ensures var (k', next) := ParallelStep(C, k, op);
            Grows(C, k, k') && NextOk(C, k', next)
  {
    SameBoard(C, k);
    hide BoardOk, C.Valid, Shape;
  }

  lemma OfferShape(C: Config, k: Board, op: Op)
    requires C.Valid() && BoardOk(C, k) && OpOk(C, k, op) && (op.ForkDone? || op.RefillDone?)
    ensures var (k', next) := ParallelStep(C, k, op);
            Grows(C, k, k') && NextOk(C, k', next)
  {
    SameBoard(C, k);
    var (k', next) := ParallelStep(C, k, op);
    if k' != k {
      CellShape(C, k, op.t, k'.cell[op.t]);
    }
    OfferNext(C, k, op);
    hide ParallelStep, BoardOk, NextOk;
    NextStays(C, k, k', next);
  }

  lemma OfferNext(C: Config, k: Board, op: Op)
    requires C.Valid() && Shape(C.T, k) && OpOk(C, k, op) && (op.ForkDone? || op.RefillDone?)
    ensures NextOk(C, k, ParallelStep(C, k, op).1)
  {
  }

  lemma ParallelShape(C: Config, k: Board, op: Op)
    requires C.Valid() && BoardOk(C, k) && OpOk(C, k, op) && (ParallelOp(op))
    ensures var (k', next) := ParallelStep(C, k, op);
            Grows(C, k, k') && NextOk(C, k', next)
  {
    if op.Fork? || op.Refill? || op.GrabFirst? {
      LoopShape(C, k, op);
    } else if op.ForkGrabbed? || op.RefillGrabbed? {
      TestShape(C, k, op);
    } else {
      OfferShape(C, k, op);
    }
  }

  lemma CallerShape(C: Config, k: Board, op: Op)
    requires C.Valid() && BoardOk(C, k) && OpOk(C, k, op) && CallerOp(op) && Ready(C, k, op)
    ensures var (k', next) := CallerStep(C, k, op);
            Grows(C, k, k') && NextOk(C, k', next)
  {
    if op.AwaitChild? {
      AwaitShape(C, k, op.t, op.i);
    } else {
      WaitShape(C, k, op);
    }
  }

  lemma WaitShape(C: Config, k: Board, op: Op)
    requires C.Valid() && BoardOk(C, k) && OpOk(C, k, op) && CallerOp(op) && !op.AwaitChild? && Ready(C, k, op)
    ensures var (k', next) := CallerStep(C, k, op);
            Grows(C, k, k') && NextOk(C, k', next)
  {
    SameBoard(C, k);
    var (k', next) := CallerStep(C, k, op);
    if k' != k {
      CellShape(C, k, op.t, k'.cell[op.t]);
    }
    WaitNext(C, k, op);
    hide CallerStep, BoardOk, NextOk;
    NextStays(C, k, k', next);
  }

  lemma WaitNext(C: Config, k: Board, op: Op)
    requires C.Valid() && Shape(C.T, k) && OpOk(C, k, op) && CallerOp(op) && !op.AwaitChild? && Ready(C, k, op)
    ensures NextOk(C, k, CallerStep(C, k, op).1)
  {
  }

  lemma AwaitShape(C: Config, k: Board, g: nat, i: nat)
    requires C.Valid() && BoardOk(C, k) && OpOk(C, k, AwaitChild(g, i)) && Ready(C, k, AwaitChild(g, i))
    ensures var (k', next) := CallerStep(C, k, AwaitChild(g, i));
            Grows(C, k, k') && NextOk(C, k', next)
  {
    if i < |C.T.children[g]| {
      var c := C.T.Child(g, i);
      CellShape(C, k, c, k.cell[c].(grabbed := true));
    } else {
      CellShape(C, k, g, k.cell[g].(event := k.cell[g].event - 1));
    }
    hide BoardOk;
  }

  lemma AddShape(C: Config, k: Board, q: Sched, op: Op)
    requires C.Valid() && BoardOk(C, k) && SchedShape(C, q) && OpOk(C, k, op) && AddOp(op)
    ensures var e := AddStep(C, k, q, op);
            e.k == k && SchedShape(C, e.q) && NextOk(C, k, e.next)
  {
    hide BoardOk, AddStep, SchedShape, OpOk, C.Valid, NextOk;
    BoardShape(C, k);
    AddSched(C, k, q, op);
    AddNext(C, k, q, op);
  }

  lemma AddSched(C: Config, k: Board, q: Sched, op: Op)
    requires C.Valid() && Shape(C.T, k) && SchedShape(C, q) && OpOk(C, k, op) && AddOp(op)
    ensures AddStep(C, k, q, op).k == k && SchedShape(C, AddStep(C, k, q, op).q)
  {
    hide Shape, C.T.Valid;
  }

  lemma AddNext(C: Config, k: Board, q: Sched, op: Op)
    requires C.Valid() && Shape(C.T, k) && SchedShape(C, q) && OpOk(C, k, op) && AddOp(op)
    ensures NextOk(C, k, AddStep(C, k, q, op).next)
  {
    hide Shape, SchedShape;
  }

  lemma WorkerShape(C: Config, k: Board, q: Sched, op: Op)
    requires C.Valid() && BoardOk(C, k) && SchedShape(C, q) && OpOk(C, k, op) && WorkerOp(op)
    requires op.Sleep? ==> q.sem[op.w] > 0
    ensures var e := WorkerStep(C, k, q, op);
            Grows(C, k, e.k) && SchedShape(C, e.q) && NextOk(C, e.k, e.next)
  {
    if op.TryGrab? {
      TryGrabShape(C, k, q, op);
    } else {
      PumpShape(C, k, q, op);
    }
  }

  lemma TryGrabShape(C: Config, k: Board, q: Sched, op: Op)
    requires C.Valid() && BoardOk(C, k) && SchedShape(C, q) && OpOk(C, k, op) && op.TryGrab?
    ensures var e := WorkerStep(C, k, q, op);
            Grows(C, k, e.k) && e.q == q && NextOk(C, e.k, e.next)
  {
    CellShape(C, k, op.t, k.cell[op.t].(grabbed := true));
    hide BoardOk, C.Valid, SchedShape;
  }

  lemma PumpShape(C: Config, k: Board, q: Sched, op: Op)
    requires C.Valid() && BoardOk(C, k) && SchedShape(C, q) && OpOk(C, k, op) && WorkerOp(op) && !op.TryGrab?
    requires op.Sleep? ==> q.sem[op.w] > 0
    ensures var e := WorkerStep(C, k, q, op);
            e.k == k && Grows(C, k, k) && SchedShape(C, e.q) && NextOk(C, k, e.next)
  {
    SameBoard(C, k);
    hide BoardOk, NextOk;
    PumpSched(C, k, q, op);
    PumpNext(C, k, q, op);
    hide SchedShape, WorkerStep;
  }

  lemma PumpSched(C: Config, k: Board, q: Sched, op: Op)
    requires C.Valid() && Shape(C.T, k) && SchedShape(C, q) && OpOk(C, k, op) && WorkerOp(op) && !op.TryGrab?
    requires op.Sleep? ==> q.sem[op.w] > 0
    ensures WorkerStep(C, k, q, op).k == k && SchedShape(C, WorkerStep(C, k, q, op).q)
  {
    hide Shape;
  }

  lemma PumpNext(C: Config, k: Board, q: Sched, op: Op)
    requires C.Valid() && Shape(C.T, k) && SchedShape(C, q) && OpOk(C, k, op) && WorkerOp(op) && !op.TryGrab?
    requires op.Sleep? ==> q.sem[op.w] > 0
    ensures NextOk(C, k, WorkerStep(C, k, q, op).next)
  {
    hide NextOk;
    if op.CheckDone? || op.GotTask? || op.Confirm? || op.ConfirmDone? || op.Launch? {
      HandleNext(C, k, q, op);
    } else {
      IdleNext(C, k, q, op);
    }
  }

  lemma HandleNext(C: Config, k: Board, q: Sched, op: Op)
    requires C.Valid() && Shape(C.T, k) && SchedShape(C, q) && OpOk(C, k, op)
    requires op.CheckDone? || op.GotTask? || op.Confirm? || op.ConfirmDone? || op.Launch?
    ensures NextOk(C, k, WorkerStep(C, k, q, op).next)
  {
    hide NextOk, WorkerStep, OpOk, SchedShape, C.Valid, Shape;
    if op.CheckDone? {
      CheckDoneNext(C, k, q, op);
    } else if op.GotTask? {
      GotTaskNext(C, k, q, op);
    } else if op.Confirm? || op.ConfirmDone? {
      ConfirmNext(C, k, q, op);
    } else {
      LaunchNext(C, k, q, op);
    }
  }

  lemma CheckDoneNext(C: Config, k: Board, q: Sched, op: Op)
    requires C.Valid() && Shape(C.T, k) && SchedShape(C, q) && OpOk(C, k, op) && op.CheckDone?
    ensures NextOk(C, k, WorkerStep(C, k, q, op).next)
  {
    hide Shape, C.Valid;
  }

  lemma GotTaskNext(C: Config, k: Board, q: Sched, op: Op)
    requires C.Valid() && Shape(C.T, k) && SchedShape(C, q) && OpOk(C, k, op) && op.GotTask?
    ensures NextOk(C, k, WorkerStep(C, k, q, op).next)
  {
    hide Shape, C.Valid;
  }

  lemma ConfirmNext(C: Config, k: Board, q: Sched, op: Op)
    requires C.Valid() && Shape(C.T, k) && SchedShape(C, q) && OpOk(C, k, op) && (op.Confirm? || op.ConfirmDone?)
    ensures NextOk(C, k, WorkerStep(C, k, q, op).next)
  {
    hide Shape, C.Valid;
  }

  lemma LaunchNext(C: Config, k: Board, q: Sched, op: Op)
    requires C.Valid() && Shape(C.T, k) && SchedShape(C, q) && OpOk(C, k, op) && op.Launch?
    ensures NextOk(C, k, WorkerStep(C, k, q, op).next)
  {
    hide Shape, C.Valid;
  }

  lemma IdleNext(C: Config, k: Board, q: Sched, op: Op)
    requires C.Valid() && Shape(C.T, k) && SchedShape(C, q) && OpOk(C, k, op)
    requires op.Loop? || op.Drain? || op.Pump? || op.Scan? || op.Sleep? || op.Back? || op.Exited?
    requires op.Sleep? ==> q.sem[op.w] > 0
    ensures NextOk(C, k, WorkerStep(C, k, q, op).next)
  {
    hide NextOk, WorkerStep, OpOk, SchedShape, C.Valid, Shape;
    if op.Scan? {
      ScanNext(C, k, q, op);
    } else if op.Pump? || op.Sleep? {
      SleepFits(C, k, q, op);
      WaitingNext(C, k, q, op);
    } else {
      LoopNext(C, k, q, op);
    }
  }

  lemma SleepFits(C: Config, k: Board, q: Sched, op: Op)
    requires C.Valid() && Shape(C.T, k) && SchedShape(C, q) && OpOk(C, k, op) && (op.Pump? || op.Sleep?)
    ensures op.w < |q.sem|
  {
    hide C.Valid, Shape;
  }

  lemma ScanNext(C: Config, k: Board, q: Sched, op: Op)
    requires C.Valid() && Shape(C.T, k) && SchedShape(C, q) && OpOk(C, k, op) && op.Scan?
    ensures NextOk(C, k, WorkerStep(C, k, q, op).next)
  {
    hide Shape;
  }

  lemma WaitingNext(C: Config, k: Board, q: Sched, op: Op)
    requires C.Valid() && Shape(C.T, k) && SchedShape(C, q) && OpOk(C, k, op) &&
        (op.Pump? || (op.Sleep? && op.w < |q.sem| && q.sem[op.w] > 0))
    ensures NextOk(C, k, WorkerStep(C, k, q, op).next)
  {
    hide Shape, C.Valid;
  }

  lemma LoopNext(C: Config, k: Board, q: Sched, op: Op)
    requires C.Valid() && Shape(C.T, k) && SchedShape(C, q) && OpOk(C, k, op) &&
        (op.Loop? || op.Drain? || op.Back? || op.Exited?)
    ensures NextOk(C, k, WorkerStep(C, k, q, op).next)
  {
    hide Shape, C.Valid;
  }

  lemma StopShape(C: Config, k: Board, q: Sched, op: Op)
    requires C.Valid() && BoardOk(C, k) && SchedShape(C, q) && OpOk(C, k, op)
    requires op.StopScheduler? || op.StopWorker? || op.WakeAll? || op.Join?
    ensures var e := StopStep(C, k, q, op);
            e.k == k && SchedShape(C, e.q) && NextOk(C, k, e.next)
  {
    SameBoard(C, k);
    hide BoardOk, NextOk;
    StopSched(C, k, q, op);
    StopNext(C, k, q, op);
    hide SchedShape, StopStep;
  }

  lemma StopSched(C: Config, k: Board, q: Sched, op: Op)
    requires C.Valid() && Shape(C.T, k) && SchedShape(C, q) && OpOk(C, k, op)
    requires op.StopScheduler? || op.StopWorker? || op.WakeAll? || op.Join?
    ensures StopStep(C, k, q, op).k == k && SchedShape(C, StopStep(C, k, q, op).q)
  {
    hide Shape, C.Valid;
  }

  lemma StopNext(C: Config, k: Board, q: Sched, op: Op)
    requires C.Valid() && Shape(C.T, k) && SchedShape(C, q) && OpOk(C, k, op)
    requires op.StopScheduler? || op.StopWorker? || op.WakeAll? || op.Join?
    ensures NextOk(C, k, StopStep(C, k, q, op).next)
  {
    hide NextOk, StopStep, OpOk, SchedShape, C.Valid, Shape;
    if op.StopScheduler? || op.StopWorker? {
      FlagNext(C, k, q, op);
    } else {
      JoinNext(C, k, q, op);
    }
  }

  lemma FlagNext(C: Config, k: Board, q: Sched, op: Op)
    requires C.Valid() && Shape(C.T, k) && SchedShape(C, q) && OpOk(C, k, op) && (op.StopScheduler? || op.StopWorker?)
    ensures NextOk(C, k, StopStep(C, k, q, op).next)
  {
    hide Shape, C.Valid;
  }

  lemma JoinNext(C: Config, k: Board, q: Sched, op: Op)
    requires C.Valid() && Shape(C.T, k) && SchedShape(C, q) && OpOk(C, k, op) && (op.WakeAll? || op.Join?)
    ensures NextOk(C, k, StopStep(C, k, q, op).next)
  {
    hide Shape, C.Valid;
  }

  /** An operation is of one of six kinds, and performed as such. */
  lemma PerformIs(C: Config, k: Board, q: Sched, op: Op)
    requires C.Valid() && Shape(C.T, k) && SchedShape(C, q) && OpOk(C, k, op)
    requires Ready(C, k, op) && (op.Sleep? ==> q.sem[op.w] > 0)
    ensures TaskOp(op) ==> var (k', next) := TaskStep(C, k, op); Perform(C, k, q, op) == Effect(k', q, next)
    ensures ParallelOp(op) ==> var (k', next) := ParallelStep(C, k, op); Perform(C, k, q, op) == Effect(k', q, next)
    ensures CallerOp(op) ==> var (k', next) := CallerStep(C, k, op); Perform(C, k, q, op) == Effect(k', q, next)
    ensures AddOp(op) ==> Perform(C, k, q, op) == AddStep(C, k, q, op)
    ensures WorkerOp(op) ==> Perform(C, k, q, op) == WorkerStep(C, k, q, op)
    ensures op.StopScheduler? || op.StopWorker? || op.WakeAll? || op.Join? ==>
        Perform(C, k, q, op) == StopStep(C, k, q, op)
    ensures !TaskOp(op) && !ParallelOp(op) && !CallerOp(op) && !AddOp(op) && !WorkerOp(op) ==>
              op.StopScheduler? || op.StopWorker? || op.WakeAll? || op.Join?
  {
    hide Perform, C.Valid, Shape, SchedShape, OpOk, Ready, TaskStep, ParallelStep, CallerStep, AddStep, WorkerStep,
        StopStep;
    hide TaskOp, ParallelOp, CallerOp, AddOp, WorkerOp;
    if TaskOp(op) {
      PerformTask(C, k, q, op);
    } else if ParallelOp(op) {
      PerformParallel(C, k, q, op);
    } else if CallerOp(op) {
      PerformCaller(C, k, q, op);
    } else if AddOp(op) {
      PerformAdd(C, k, q, op);
    } else if WorkerOp(op) {
      PerformWorker(C, k, q, op);
    } else {
      PerformStop(C, k, q, op);
    }
    OneKind(op);
  }

  lemma OneKind(op: Op)
    ensures TaskOp(op) ==> !ParallelOp(op) && !CallerOp(op) && !AddOp(op) && !WorkerOp(op)
    ensures ParallelOp(op) ==> !CallerOp(op) && !AddOp(op) && !WorkerOp(op)
    ensures CallerOp(op) ==> !AddOp(op) && !WorkerOp(op)
    ensures AddOp(op) ==> !WorkerOp(op)
    ensures op.StopScheduler? || op.StopWorker? || op.WakeAll? || op.Join? <==>
              !TaskOp(op) && !ParallelOp(op) && !CallerOp(op) && !AddOp(op) && !WorkerOp(op)
  {
  }

  lemma PerformTask(C: Config, k: Board, q: Sched, op: Op)
    requires C.Valid() && Shape(C.T, k) && SchedShape(C, q) && OpOk(C, k, op)
    requires Ready(C, k, op) && (op.Sleep? ==> q.sem[op.w] > 0)
    requires TaskOp(op)
    ensures var (k', next) := TaskStep(C, k, op); Perform(C, k, q, op) == Effect(k', q, next)
  {
    hide C.Valid, Shape, SchedShape, OpOk, Ready, TaskStep, ParallelStep, CallerStep, AddStep, WorkerStep, StopStep;
  }

  lemma PerformParallel(C: Config, k: Board, q: Sched, op: Op)
    requires C.Valid() && Shape(C.T, k) && SchedShape(C, q) && OpOk(C, k, op)
    requires Ready(C, k, op) && (op.Sleep? ==> q.sem[op.w] > 0)
    requires ParallelOp(op) && !TaskOp(op)
    ensures var (k', next) := ParallelStep(C, k, op); Perform(C, k, q, op) == Effect(k', q, next)
  {
    hide C.Valid, Shape, SchedShape, OpOk, Ready, TaskStep, ParallelStep, CallerStep, AddStep, WorkerStep, StopStep;
  }

  lemma PerformCaller(C: Config, k: Board, q: Sched, op: Op)
    requires C.Valid() && Shape(C.T, k) && SchedShape(C, q) && OpOk(C, k, op)
    requires Ready(C, k, op) && (op.Sleep? ==> q.sem[op.w] > 0)
    requires CallerOp(op) && !TaskOp(op) && !ParallelOp(op)
    ensures var (k', next) := CallerStep(C, k, op); Perform(C, k, q, op) == Effect(k', q, next)
  {
    hide C.Valid, Shape, SchedShape, OpOk, Ready, TaskStep, ParallelStep, CallerStep, AddStep, WorkerStep, StopStep;
  }

  lemma PerformAdd(C: Config, k: Board, q: Sched, op: Op)
    requires C.Valid() && Shape(C.T, k) && SchedShape(C, q) && OpOk(C, k, op)
    requires Ready(C, k, op) && (op.Sleep? ==> q.sem[op.w] > 0)
    requires AddOp(op) && !TaskOp(op) && !ParallelOp(op) && !CallerOp(op)
    ensures Perform(C, k, q, op) == AddStep(C, k, q, op)
  {
    hide C.Valid, Shape, SchedShape, OpOk, Ready, TaskStep, ParallelStep, CallerStep, AddStep, WorkerStep, StopStep;
  }

  lemma PerformWorker(C: Config, k: Board, q: Sched, op: Op)
    requires C.Valid() && Shape(C.T, k) && SchedShape(C, q) && OpOk(C, k, op)
    requires Ready(C, k, op) && (op.Sleep? ==> q.sem[op.w] > 0)
    requires WorkerOp(op) && !TaskOp(op) && !ParallelOp(op) && !CallerOp(op) && !AddOp(op)
    ensures Perform(C, k, q, op) == WorkerStep(C, k, q, op)
  {
    hide C.Valid, Shape, SchedShape, OpOk, Ready, TaskStep, ParallelStep, CallerStep, AddStep, WorkerStep, StopStep;
  }

  lemma PerformStop(C: Config, k: Board, q: Sched, op: Op)
    requires C.Valid() && Shape(C.T, k) && SchedShape(C, q) && OpOk(C, k, op)
    requires Ready(C, k, op) && (op.Sleep? ==> q.sem[op.w] > 0)
    requires !TaskOp(op) && !ParallelOp(op) && !CallerOp(op) && !AddOp(op) && !WorkerOp(op)
    ensures (op.StopScheduler? || op.StopWorker? || op.WakeAll? || op.Join?) &&
        Perform(C, k, q, op) == StopStep(C, k, q, op)
  {
    hide C.Valid, Shape, SchedShape, OpOk, Ready, TaskStep, ParallelStep, CallerStep, AddStep, WorkerStep, StopStep;
  }

  lemma PerformShape(C: Config, k: Board, q: Sched, op: Op)
    requires C.Valid() && BoardOk(C, k) && SchedShape(C, q) && OpOk(C, k, op)
    requires Ready(C, k, op) && (op.Sleep? ==> q.sem[op.w] > 0)
    ensures var e := Perform(C, k, q, op);
            Grows(C, k, e.k) && SchedShape(C, e.q) && NextOk(C, e.k, e.next)
  {
    hide OpOk, SchedShape, TaskStep, ParallelStep, CallerStep, AddStep, WorkerStep, StopStep, NextOk, BoardOk, C.Valid;
    if TaskOp(op) {
      TaskShape(C, k, op);
    } else if ParallelOp(op) {
      ParallelShape(C, k, op);
    } else if CallerOp(op) {
      CallerShape(C, k, op);
    } else if AddOp(op) {
      AddShape(C, k, q, op);
    } else if WorkerOp(op) {
      WorkerShape(C, k, q, op);
    } else {
      StopShape(C, k, q, op);
    }
  }

  /** What can be known about a step without knowing the operation. */
  lemma StepPieces(C: Config, s: State, a: nat)
    requires StateOk(C, s) && CanStep(C, s, a)
    ensures a < |s.agents| && s.agents[a] != []
    ensures C.Valid() && BoardOk(C, s.k) && SchedShape(C, s.q) && OpOk(C, s.k, s.agents[a][0])
    ensures Ready(C, s.k, s.agents[a][0]) && (s.agents[a][0].Sleep? ==> s.q.sem[s.agents[a][0].w] > 0)
    ensures var e := Perform(C, s.k, s.q, s.agents[a][0]);
            StepOf(C, s, a) == State(e.k, e.q, s.agents[a := e.next + s.agents[a][1..]])
  {
    assert OpOk(C, s.k, s.agents[a][0]);
    hide BoardOk, OpOk, Perform;
  }

  /** A step leads from a well-formed state to a well-formed state. */
  lemma StepShape(C: Config, s: State, a: nat)
    requires StateOk(C, s) && CanStep(C, s, a)
    ensures StateOk(C, StepOf(C, s, a))
  {
    var op := s.agents[a][0];
    var s' := StepOf(C, s, a);
    PerformShape(C, s.k, s.q, op);
    hide OpOk, Perform;
    forall b, j | 0 <= b < |s'.agents| && 0 <= j < |s'.agents[b]| ensures OpOk(C, s'.k, s'.agents[b][j]) {
      if b == a && j < |Perform(C, s.k, s.q, op).next| {
      } else if b == a {
        var i := j - |Perform(C, s.k, s.q, op).next| + 1;
        assert s'.agents[b][j] == s.agents[a][i];
        OpStays(C, s.k, s'.k, s.agents[a][i]);
      } else {
        OpStays(C, s.k, s'.k, s.agents[b][j]);
      }
    }
  }
}
