// Priorities: in which queue a task is filed, and who gets it from there.
module Filing {
  // A task is queued under the priority it resolves to, unless it has been run, and has called its
  // parent, while the add was still on its way; and only workers that serve a task's priority launch it.

  import opened TaskTree
  import opened Ledger
  import opened LedgerMoves
  import opened Machine
  import opened MachineShape
  import opened MachineLedger
  import opened MachineBalance
  import opened MachineStacks
  import opened WakeUps
  import opened Runs

  /** The queue `t` belongs to: that of the nearest node, from `t` up, that does not inherit. */
  ghost function Home(T: Tree, t: nat): nat
    requires T.Valid() && t < T.Size()
  {
    QueueOf(T.Resolve(t))
  }

  /** Task `t` is where it belongs, or has called its parent. */
  ghost predicate FiledAt(T: Tree, k: Board, t: nat, p: nat)
    requires Shape(T, k)
  {
    t < T.Size() && (Home(T, t) == p || k.cell[t].notified)
  }

  ghost predicate CanServe(C: Config, w: nat, p: nat) {
    w < |C.canWork| && p < |C.canWork[w]| && C.canWork[w][p]
  }

  /** What a pending operation has found out about the priority of its task. */
  ghost predicate Serves(C: Config, k: Board, op: Op)
    requires C.Valid() && Shape(C.T, k)
  {
    var T := C.T;
    match op
    case Climb(t, x) =>
      t < T.Size() && x < T.Size() && (k.cell[t].notified || (T.Under(t, x) && Home(T, x) == Home(T, t)))
    case Push(t, p) => FiledAt(T, k, t, p)
    case TryGrab(w, p, t) => FiledAt(T, k, t, p) && CanServe(C, w, p)
    case CheckDone(w, p, t) => FiledAt(T, k, t, p) && CanServe(C, w, p)
    case GotTask(w, t) => t < T.Size() && CanServe(C, w, Home(T, t))
    case Confirm(w, t) => t < T.Size() && CanServe(C, w, Home(T, t))
    case ConfirmDone(w, t) => t < T.Size() && CanServe(C, w, Home(T, t))
    case Launch(w, t) => t < T.Size() && CanServe(C, w, Home(T, t))
    case _ => true
  }

  ghost predicate QueuesFiled(C: Config, k: Board, q: Sched)
    requires C.Valid() && Shape(C.T, k)
  {
    forall p, j :: 0 <= p < |q.queues| && 0 <= j < |q.queues[p]| ==> FiledAt(C.T, k, q.queues[p][j], p)
  }

  ghost predicate Filed(C: Config, s: State)
    requires StateOk(C, s)
  {
    && QueuesFiled(C, s.k, s.q)
    && forall a, j :: 0 <= a < |s.agents| && 0 <= j < |s.agents[a]| ==> Serves(C, s.k, s.agents[a][j])
  }

  // ------------------------------------------------------------------ what the ledger says

  lemma {:induction false} UnderGroup(T: Tree, t: nat, x: nat)
    requires T.Valid() && t < T.Size() && x < T.Size() && T.Under(t, x) && T.parent[x].Some?
    ensures T.Under(t, T.Group(x))
    decreases T.depth[t]
  {
    if t != x {
      UnderGroup(T, T.Group(t), x);
    } else {
      assert T.Under(T.Group(x), T.Group(x));
    }
  }

  /** A parent pointer on the way up is reset only after the task itself has called its parent. */
  lemma LinksHold(T: Tree, k: Board, duties: multiset<Duty>, t: nat, x: nat)
    requires Balanced(T, k, duties) && t < T.Size() && x < T.Size() && T.Under(t, x) && k.cell[x].notified
    ensures k.cell[t].notified
  {
    if t != x {
      hide Balanced;
      ClosedBelow(T, k, duties, x, t);
    }
  }

  /** Who is not done has not called his parent. */
  lemma NotDoneNotTold(T: Tree, k: Board, duties: multiset<Duty>, t: nat)
    requires Balanced(T, k, duties) && t < T.Size() && !k.cell[t].done
    ensures !k.cell[t].notified
  {
    assert NodeOk(T, k, duties, t);
    hide GroupOk, UnitOk, Open, TraceOk;
  }

  // ------------------------------------------------------------------ one step

  lemma ServesLater(C: Config, k: Board, k': Board, op: Op)
    requires C.Valid() && BoardOk(C, k) && Grows(C, k, k') && Serves(C, k, op)
    ensures Shape(C.T, k') && Serves(C, k', op)
  {
    hide C.Valid, C.T.Valid, CanServe, Home, C.T.Under;
  }

  lemma QueuesLater(C: Config, k: Board, k': Board, q: Sched)
    requires C.Valid() && BoardOk(C, k) && Grows(C, k, k') && QueuesFiled(C, k, q)
    ensures Shape(C.T, k') && QueuesFiled(C, k', q)
  {
    hide C.Valid, C.T.Valid, Home;
  }

  lemma ClimbServes(C: Config, k: Board, q: Sched, duties: multiset<Duty>, t: nat, x: nat)
    requires C.Valid() && BoardOk(C, k) && SchedShape(C, q) && Balanced(C.T, k, duties)
    requires OpOk(C, k, Climb(t, x)) && Serves(C, k, Climb(t, x))
    ensures var next := AddStep(C, k, q, Climb(t, x)).next;
            |next| == 1 && Serves(C, k, next[0])
  {
    assert Shape(C.T, k) && (k.cell[x].unlinked ==> k.cell[x].notified);
    hide Balanced, BoardOk, Shape, SchedShape;
    if !k.cell[t].notified {
      if k.cell[x].unlinked {
        LinksHold(C.T, k, duties, t, x);
      }
      if C.T.parent[x].Some? {
        UnderGroup(C.T, t, x);
      }
    }
  }

  lemma AddServes(C: Config, k: Board, q: Sched, duties: multiset<Duty>, op: Op)
    requires C.Valid() && BoardOk(C, k) && SchedShape(C, q) && Balanced(C.T, k, duties)
    requires OpOk(C, k, op) && AddOp(op) && QueuesFiled(C, k, q) && Serves(C, k, op)
    ensures var e := AddStep(C, k, q, op);
            && e.k == k && QueuesFiled(C, k, e.q)
            && forall j :: 0 <= j < |e.next| ==> Serves(C, k, e.next[j])
  {
    assert Shape(C.T, k);
    hide Balanced, BoardOk, Shape;
    if op.Climb? {
      ClimbServes(C, k, q, duties, op.t, op.x);
    } else {
      hide C.T.Under, Home, CanServe;
      assert op.AddDone? ==> C.T.Under(op.t, op.t) by { UnderItself(C.T); }
    }
  }

  lemma UnderItself(T: Tree)
    requires T.Valid()
    ensures forall t :: 0 <= t < T.Size() ==> T.Under(t, t)
  {
  }

  lemma WorkerServes(C: Config, k: Board, q: Sched, duties: multiset<Duty>, op: Op)
    requires C.Valid() && BoardOk(C, k) && SchedShape(C, q) && Balanced(C.T, k, duties)
    requires OpOk(C, k, op) && WorkerOp(op) && QueuesFiled(C, k, q) && Serves(C, k, op) &&
        (op.Sleep? ==> q.sem[op.w] > 0)
    ensures var e := WorkerStep(C, k, q, op);
            && QueuesFiled(C, k, e.q)
            && forall j :: 0 <= j < |e.next| ==> Serves(C, k, e.next[j])
  {
    hide Balanced, BoardOk, Shape, Home;
    BoardShape(C, k);
    if op.CheckDone? {
      CheckServes(C, k, q, duties, op);
    } else if op.Scan? {
      ScanServes(C, k, q, op);
    } else {
      HandServes(C, k, q, op);
    }
    hide WorkerStep, Serves, QueuesFiled;
  }

  lemma CheckServes(C: Config, k: Board, q: Sched, duties: multiset<Duty>, op: Op)
    requires C.Valid() && Shape(C.T, k) && SchedShape(C, q) && Balanced(C.T, k, duties)
    requires OpOk(C, k, op) && op.CheckDone? && Serves(C, k, op)
    ensures var e := WorkerStep(C, k, q, op);
            e.q == q && forall j :: 0 <= j < |e.next| ==> Serves(C, k, e.next[j])
  {
    hide Balanced, Home, C.Valid, C.T.Valid;
    if !k.cell[op.t].done {
      NotDoneNotTold(C.T, k, duties, op.t);
    }
  }

  lemma ScanServes(C: Config, k: Board, q: Sched, op: Op)
    requires C.Valid() && Shape(C.T, k) && SchedShape(C, q)
    requires OpOk(C, k, op) && op.Scan? && QueuesFiled(C, k, q)
    ensures var e := WorkerStep(C, k, q, op);
            QueuesFiled(C, k, e.q) && forall j :: 0 <= j < |e.next| ==> Serves(C, k, e.next[j])
  {
    hide Shape, FiledAt;
  }

  lemma HandServes(C: Config, k: Board, q: Sched, op: Op)
    requires C.Valid() && Shape(C.T, k) && SchedShape(C, q) && QueuesFiled(C, k, q)
    requires OpOk(C, k, op) && WorkerOp(op) && !op.CheckDone? && !op.Scan? && Serves(C, k, op)
    requires op.Sleep? ==> q.sem[op.w] > 0
    ensures var e := WorkerStep(C, k, q, op);
            QueuesFiled(C, k, e.q) && forall j :: 0 <= j < |e.next| ==> Serves(C, k, e.next[j])
  {
    hide Shape, FiledAt, CanServe, Home;
  }

  lemma PerformServes(C: Config, k: Board, q: Sched, duties: multiset<Duty>, op: Op)
    requires C.Valid() && BoardOk(C, k) && SchedShape(C, q) && OpOk(C, k, op) && Balanced(C.T, k, duties)
    requires Ready(C, k, op) && (op.Sleep? ==> q.sem[op.w] > 0)
    requires QueuesFiled(C, k, q) && Serves(C, k, op)
    ensures var e := Perform(C, k, q, op);
            && QueuesFiled(C, k, e.q)
            && forall j :: 0 <= j < |e.next| ==> Serves(C, k, e.next[j])
  {
    hide OpOk, SchedShape, BoardOk, TaskStep, ParallelStep, CallerStep, AddStep, WorkerStep, StopStep, Serves;
    hide QueuesFiled, Balanced, C.Valid, Shape, Ready;
    hide Perform, TaskOp, ParallelOp, CallerOp, AddOp, WorkerOp;
    BoardShape(C, k);
    PerformIs(C, k, q, op);
    KindsOfOps(op);
    if WorkerOp(op) {
      WorkerServes(C, k, q, duties, op);
    } else if AddOp(op) {
      AddServes(C, k, q, duties, op);
    } else {
      OthersServe(C, k, q, op);
    }
  }

  lemma OthersServe(C: Config, k: Board, q: Sched, op: Op)
    requires C.Valid() && BoardOk(C, k) && SchedShape(C, q) && OpOk(C, k, op) && QueuesFiled(C, k, q)
    requires Ready(C, k, op) && (TaskOp(op) || ParallelOp(op) || CallerOp(op) || StopOp(op))
    ensures var e := Perform(C, k, q, op);
            && QueuesFiled(C, k, e.q)
            && forall j :: 0 <= j < |e.next| ==> Serves(C, k, e.next[j])
  {
    var e := Perform(C, k, q, op);
    SameQueues(C, k, q, op);
    hide BoardOk, Home, FiledAt, Perform, OpOk, SchedShape, C.Valid, Ready;
    forall j | 0 <= j < |e.next| ensures Serves(C, k, e.next[j]) {
      PlainNext(C, k, q, op, j);
      PlainServes(C, k, e.next[j]);
    }
  }

  /** Operations that have not asked for the priority of a task, and hold none from a queue. */
  predicate Plain(op: Op) {
    !op.Climb? && !op.Push? && !WorkerOp(op)
  }

  lemma PlainServes(C: Config, k: Board, op: Op)
    requires C.Valid() && Shape(C.T, k) && Plain(op)
    ensures Serves(C, k, op)
  {
  }

  lemma PlainNext(C: Config, k: Board, q: Sched, op: Op, j: nat)
    requires C.Valid() && BoardOk(C, k) && SchedShape(C, q) && OpOk(C, k, op)
    requires Ready(C, k, op) && (TaskOp(op) || ParallelOp(op) || CallerOp(op) || StopOp(op))
    requires j < |Perform(C, k, q, op).next|
    ensures Plain(Perform(C, k, q, op).next[j])
  {
    hide BoardOk, SchedShape, AddStep, WorkerStep, TaskStep, ParallelStep, CallerStep, StopStep, C.Valid, Shape, OpOk,
        Plain;
    BoardShape(C, k);
    if TaskOp(op) {
      PlainTask(C, k, op, j);
    } else if ParallelOp(op) {
      PlainParallel(C, k, op, j);
    } else if CallerOp(op) {
      PlainCaller(C, k, op, j);
    } else {
      PlainStop(C, k, q, op, j);
    }
  }

  lemma PlainTask(C: Config, k: Board, op: Op, j: nat)
    requires C.Valid() && Shape(C.T, k) && OpOk(C, k, op) && TaskOp(op) && j < |TaskStep(C, k, op).1|
    ensures Plain(TaskStep(C, k, op).1[j])
  {
    hide C.Valid, Shape;
  }

  lemma PlainParallel(C: Config, k: Board, op: Op, j: nat)
    requires C.Valid() && Shape(C.T, k) && OpOk(C, k, op) && ParallelOp(op) && j < |ParallelStep(C, k, op).1|
    ensures Plain(ParallelStep(C, k, op).1[j])
  {
    hide C.Valid, Shape;
  }

  lemma PlainCaller(C: Config, k: Board, op: Op, j: nat)
    requires C.Valid() && Shape(C.T, k) && OpOk(C, k, op) && CallerOp(op) && Ready(C, k, op) &&
        j < |CallerStep(C, k, op).1|
    ensures Plain(CallerStep(C, k, op).1[j])
  {
    hide C.Valid, Shape;
  }

  lemma PlainStop(C: Config, k: Board, q: Sched, op: Op, j: nat)
    requires C.Valid() && Shape(C.T, k) && SchedShape(C, q) && OpOk(C, k, op) && StopOp(op) &&
        j < |StopStep(C, k, q, op).next|
    ensures Plain(StopStep(C, k, q, op).next[j])
  {
    hide C.Valid, Shape, SchedShape;
  }

  lemma SameQueues(C: Config, k: Board, q: Sched, op: Op)
    requires C.Valid() && BoardOk(C, k) && SchedShape(C, q) && OpOk(C, k, op)
    requires Ready(C, k, op) && (TaskOp(op) || ParallelOp(op) || CallerOp(op) || StopOp(op))
    ensures Perform(C, k, q, op).q.queues == q.queues
  {
    assert Shape(C.T, k);
    hide TaskStep, ParallelStep, CallerStep, AddStep, WorkerStep, BoardOk, Shape;
  }

  lemma StepFiles(C: Config, s: State, a: nat)
    requires StateOk(C, s) && CanStep(C, s, a) && StateOk(C, StepOf(C, s, a)) && Filed(C, s)
    requires Balanced(C.T, s.k, AllDuties(s))
    ensures Filed(C, StepOf(C, s, a))
  {
    hide Perform, OpOk, StateOk, Serves, QueuesFiled, Balanced, AllDuties, CanStep, StepOf, BoardOk, SchedShape, Shape,
        C.Valid, Ready;
    StepPieces(C, s, a);
    BoardShape(C, s.k);
    var op := s.agents[a][0];
    var s' := StepOf(C, s, a);
    var e := Perform(C, s.k, s.q, op);
    assert Serves(C, s.k, op) && QueuesFiled(C, s.k, s.q);
    PerformServes(C, s.k, s.q, AllDuties(s), op);
    PerformShape(C, s.k, s.q, op);
    QueuesLater(C, s.k, e.k, e.q);
    forall b, j | 0 <= b < |s'.agents| && 0 <= j < |s'.agents[b]| ensures Serves(C, s'.k, s'.agents[b][j]) {
      var x := s'.agents[b][j];
      if b == a && j < |e.next| {
        assert x == e.next[j];
      } else {
        assert x == s.agents[b][if b == a then j - |e.next| + 1 else j];
      }
      ServesLater(C, s.k, e.k, x);
    }
  }

  lemma StepsFile(C: Config, s: State, a: nat, s': State)
    requires Steps(C, s, a, s') && StateOk(C, s') && Filed(C, s) && Balanced(C.T, s.k, AllDuties(s))
    ensures Filed(C, s')
  {
    hide StateOk, Filed, CanStep, StepOf, Balanced, AllDuties;
    StepFiles(C, s, a);
  }

  lemma InitialFiled(C: Config, s: State)
    requires Initial(C, s) && StateOk(C, s)
    ensures Filed(C, s)
  {
    hide StateOk, OpOk;
  }

  lemma {:induction false} RunFiled(C: Config, run: seq<State>, i: nat)
    requires Run(C, run) && TurnsKept(C.T, run[0]) && i < |run|
    ensures StateOk(C, run[i]) && Filed(C, run[i])
  {
    hide Kept, Initial, Steps, Filed, StateOk, Balanced, TurnsKept;
    RunKept(C, run, i);
    KeptFacts(C, run[i]);
    if i == 0 {
      InitialFiled(C, run[0]);
    } else {
      RunFiled(C, run, i - 1);
      RunKept(C, run, i - 1);
      KeptFacts(C, run[i - 1]);
      assert Follows(C, run, i - 1);
      hide Run;
      var a: nat :| Steps(C, run[i - 1], a, run[i]);
      StepsFile(C, run[i - 1], a, run[i]);
    }
  }

  lemma DisciplinedFiled(C: Config, s: State)
    requires Disciplined(C, s)
    ensures StateOk(C, s) && Filed(C, s)
  {
    hide Initial, Follows, Filed, StateOk, TurnsKept;
    var run :| Run(C, run) && TurnsKept(C.T, run[0]) && run[|run| - 1] == s;
    hide Run;
    RunFiled(C, run, |run| - 1);
  }

  // ------------------------------------------------------------------ the theorems

  lemma HomeHas(T: Tree, t: nat)
    requires T.Valid() && t < T.Size()
    ensures Home(T, t) < PRIO_COUNT && T.HasPriority(t, PRIORITIES[Home(T, t)])
  {
    T.ResolveIsNearest(t, T.Resolve(t));
    QueuesInOrder(T.Resolve(t));
  }

  /** Every entry of a queue is a task whose nearest priority is that of the queue, or has called its parent
      in the meantime (LateAdds shows how such a task gets into another queue) ... */
  lemma QueuedWhereItBelongs(C: Config, s: State, p: nat, j: nat)
    requires Disciplined(C, s) && p < |s.q.queues| && j < |s.q.queues[p]|
    ensures Shape(C.T, s.k) && s.q.queues[p][j] < C.T.Size() && p < PRIO_COUNT
    ensures C.T.HasPriority(s.q.queues[p][j], PRIORITIES[p]) || s.k.cell[s.q.queues[p][j]].notified
  {
    hide Disciplined, Home, C.T.HasPriority;
    DisciplinedFiled(C, s);
    FiledQueue(C, s, p, j);
    HomeHas(C.T, s.q.queues[p][j]);
  }

  lemma FiledQueue(C: Config, s: State, p: nat, j: nat)
    requires StateOk(C, s) && Filed(C, s) && p < |s.q.queues| && j < |s.q.queues[p]|
    ensures C.T.Valid() && Shape(C.T, s.k) && s.q.queues[p][j] < C.T.Size() && p < PRIO_COUNT
    ensures Home(C.T, s.q.queues[p][j]) == p || s.k.cell[s.q.queues[p][j]].notified
  {
    hide Home, Shape;
    assert FiledAt(C.T, s.k, s.q.queues[p][j], p);
  }

  /** ... and a worker only launches tasks whose nearest priority it serves. */
  lemma LaunchesWhatItServes(C: Config, s: State, w: nat, t: nat) returns (p: nat)
    requires Disciplined(C, s) && w < |s.agents| && s.agents[w] != [] && s.agents[w][0] == Launch(w, t)
    ensures C.T.Valid() && t < C.T.Size() && w < |C.canWork| && p < |C.canWork[w]| && p < PRIO_COUNT
    ensures C.T.HasPriority(t, PRIORITIES[p]) && C.canWork[w][p]
  {
    hide Disciplined, Home, C.T.HasPriority;
    DisciplinedFiled(C, s);
    FiledLaunch(C, s, w, t);
    HomeHas(C.T, t);
    p := Home(C.T, t);
  }

  lemma FiledLaunch(C: Config, s: State, w: nat, t: nat)
    requires StateOk(C, s) && Filed(C, s) && w < |s.agents| && s.agents[w] != [] && s.agents[w][0] == Launch(w, t)
    ensures C.T.Valid() && t < C.T.Size() && w < |C.canWork|
    ensures Home(C.T, t) < |C.canWork[w]| && C.canWork[w][Home(C.T, t)]
  {
    hide Home, Shape;
    assert Serves(C, s.k, s.agents[w][0]);
  }
}
