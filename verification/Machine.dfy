// The running system: agents (worker threads and callers) that share a task tree, the
// scheduler's queues and the workers' semaphores. Each agent holds a stack of pending
// operations, one atomic access each; a step lets one agent perform its top operation.
module Machine {
  import opened TaskTree
  import opened Ledger

  datatype Op =
    // task and task_group
    | Execute(t: nat) | Begin(t: nat) | End(t: nat) | SetDone(t: nat) | Signal(t: nat) | Notify(t: nat)
    | Reset(t: nat)
    // parallel_group: executeImpl, then oneTaskDone
    | Fork(t: nat) | ForkGrabbed(t: nat, i: nat) | ForkDone(t: nat, i: nat) | GrabFirst(t: nat)
    | Refill(t: nat) | RefillGrabbed(t: nat, i: nat) | RefillDone(t: nat, i: nat)
    // sequence_group: oneTaskDone, and the grab in executeImpl
    | Advance(t: nat) | TryExecute(t: nat)
    // scheduler::add
    | AddGrabbed(t: nat) | AddDone(t: nat) | Climb(t: nat, x: nat) | Push(t: nat, p: nat) | WakeUp(p: nat, w: nat)
    // callers: activeWait, wait and the re-post of the event
    | ActiveWait(t: nat) | AwaitChild(t: nat, i: nat) | Wait(t: nat) | PostAgain(t: nat)
    // worker::run and scheduler::signalAvailableWorker of worker w
    | Loop(w: nat) | Drain(w: nat) | Pump(w: nat) | Scan(w: nat, p: nat) | TryGrab(w: nat, p: nat, t: nat)
    | CheckDone(w: nat, p: nat, t: nat) | Sleep(w: nat) | GotTask(w: nat, t: nat) | Confirm(w: nat, t: nat)
    | ConfirmDone(w: nat, t: nat) | Launch(w: nat, t: nat) | Back(w: nat) | Exited(w: nat)
    // scheduler::stop
    | StopScheduler | StopWorker(w: nat) | WakeAll(w: nat) | Join(w: nat)

  /** `canWork[w][p]` is can_work_on_priority for worker `w` and the queue `p`. */
  datatype Config = Config(T: Tree, canWork: seq<seq<bool>>) {
    function Workers(): nat { |canWork| }

    /** The tree is built, and every priority has a worker, as start() checks. */
    ghost predicate Valid() {
      && T.Valid()
      && (forall w :: 0 <= w < |canWork| ==> |canWork[w]| == PRIO_COUNT)
      && (forall p :: 0 <= p < PRIO_COUNT ==> Served(p))
    }

    ghost predicate Served(p: nat) {
      exists w :: 0 <= w < |canWork| && p < |canWork[w]| && canWork[w][p]
    }
  }

  /** The scheduler's queues and flag, the workers' semaphores and flags. `posted` and `dropped` are
      history: stop() has woken the worker; the tasks that workers had won and let go of. */
  datatype Sched = Sched(
    queues: seq<seq<nat>>,
    sem: seq<nat>,
    running: bool,
    alive: seq<bool>,
    posted: seq<bool>,
    dropped: seq<nat>)

  datatype State = State(k: Board, q: Sched, agents: seq<seq<Op>>)

  datatype Effect = Effect(k: Board, q: Sched, next: seq<Op>)

  ghost predicate SchedShape(C: Config, q: Sched) {
    |q.queues| == PRIO_COUNT && |q.sem| == |q.alive| == |q.posted| == C.Workers()
    && (forall p, j :: 0 <= p < |q.queues| && 0 <= j < |q.queues[p]| ==> q.queues[p][j] < C.T.Size())
    && (forall j :: 0 <= j < |q.dropped| ==> q.dropped[j] < C.T.Size())
  }

  /** What an operation may rely on wherever it is pending. */
  ghost predicate OpOk(C: Config, k: Board, op: Op)
    requires C.Valid() && Shape(C.T, k)
  {
    var T := C.T;
    match op
    case Execute(t) => t < T.Size()
    case Begin(t) => t < T.Size() && T.kind[t].Unit?
    case End(t) => t < T.Size() && T.kind[t].Unit?
    case SetDone(t) => t < T.Size()
    case Signal(t) => t < T.Size()
    case Notify(t) => t < T.Size()
    case Reset(t) => t < T.Size() && k.cell[t].notified
    case Fork(t) => t < T.Size() && T.kind[t].Parallel?
    case ForkGrabbed(t, i) => t < T.Size() && T.kind[t].Parallel? && i < |T.children[t]|
    case ForkDone(t, i) => t < T.Size() && T.kind[t].Parallel? && i < |T.children[t]|
    case GrabFirst(t) => t < T.Size() && T.kind[t].Parallel?
    case Refill(t) => t < T.Size() && T.kind[t].Parallel?
    case RefillGrabbed(t, i) => t < T.Size() && T.kind[t].Parallel? && i < |T.children[t]|
    case RefillDone(t, i) => t < T.Size() && T.kind[t].Parallel? && i < |T.children[t]|
    case Advance(t) => t < T.Size() && T.kind[t].Sequence?
    case TryExecute(t) => t < T.Size()
    case AddGrabbed(t) => t < T.Size()
    case AddDone(t) => t < T.Size()
    case Climb(t, x) => t < T.Size() && x < T.Size()
    case Push(t, p) => t < T.Size() && p < PRIO_COUNT
    case WakeUp(p, w) => p < PRIO_COUNT && w <= C.Workers()
    case ActiveWait(t) => t < T.Size() && T.waitable[t]
    case AwaitChild(t, i) =>
      && t < T.Size() && T.kind[t].Parallel? && T.waitable[t] && i <= |T.children[t]|
      && forall j :: 0 <= j < i ==> k.cell[T.Child(t, j)].grabbed
    case Wait(t) => t < T.Size() && T.waitable[t]
    case PostAgain(t) => t < T.Size()
    case Loop(w) => w < C.Workers()
    case Drain(w) => w < C.Workers()
    case Pump(w) => w < C.Workers()
    case Scan(w, p) => w < C.Workers() && p <= PRIO_COUNT
    case TryGrab(w, p, t) => w < C.Workers() && p < PRIO_COUNT && t < T.Size()
    case CheckDone(w, p, t) => w < C.Workers() && p < PRIO_COUNT && t < T.Size()
    case Sleep(w) => w < C.Workers()
    case GotTask(w, t) => w < C.Workers() && t < T.Size()
    case Confirm(w, t) => w < C.Workers() && t < T.Size()
    case ConfirmDone(w, t) => w < C.Workers() && t < T.Size()
    case Launch(w, t) => w < C.Workers() && t < T.Size()
    case Back(w) => w < C.Workers()
    case Exited(w) => w < C.Workers()
    case StopScheduler => true
    case StopWorker(w) => w <= C.Workers()
    case WakeAll(w) => w <= C.Workers()
    case Join(w) => w <= C.Workers()
  }

  /** The board has the right size, each sequence's queue is a suffix of its children, and a parent
      pointer is reset only after the parent has been called. */
  ghost predicate BoardOk(C: Config, k: Board) {
    && C.T.Valid()
    && Shape(C.T, k)
    && (forall g :: 0 <= g < C.T.Size() ==> k.rest[g] == C.T.children[g][|C.T.children[g]| - |k.rest[g]|..])
    && (forall t :: 0 <= t < C.T.Size() && k.cell[t].unlinked ==> k.cell[t].notified)
  }

  ghost predicate StateOk(C: Config, s: State) {
    && C.Valid()
    && BoardOk(C, s.k)
    && SchedShape(C, s.q)
    && |s.agents| >= C.Workers()
    && (forall a, j :: 0 <= a < |s.agents| && 0 <= j < |s.agents[a]| ==> OpOk(C, s.k, s.agents[a][j]))
  }

  // ------------------------------------------------------------------ the operations

  function WithCell(k: Board, t: nat, c: Cell): Board
    requires t < |k.cell|
  {
    k.(cell := k.cell[t := c])
  }

  function Grabbing(k: Board, t: nat): Board
    requires t < |k.cell|
  {
    WithCell(k, t, k.cell[t].(grabbed := true))
  }

  /** A compare-exchange of `grabbed_`: `won` is pending if it succeeds, `lost` otherwise. */
  function TryToGrab(k: Board, t: nat, won: seq<Op>, lost: seq<Op>): (Board, seq<Op>)
    requires t < |k.cell|
  {
    if k.cell[t].grabbed then (k, lost) else (Grabbing(k, t), won)
  }

  predicate TaskOp(op: Op) {
    op.Execute? || op.Begin? || op.End? || op.SetDone? || op.Signal? || op.Notify? || op.Reset? || op.Advance?
    || op.TryExecute?
  }

  /** task::execute, invoke, notifyParent; task_group::notifyGroupDone; sequence_group. */
  ghost function TaskStep(C: Config, k: Board, op: Op): (Board, seq<Op>)
    requires C.Valid() && Shape(C.T, k) && OpOk(C, k, op) && TaskOp(op)
  {
    var T := C.T;
    match op
    case Execute(t) =>
      (match T.kind[t]
       case Unit => (k, if k.cell[t].grabbed then [Begin(t)] else [])
       case Parallel(_) => (k, [Fork(t)])
       case Sequence => if k.rest[t] == [] then (k, [])
                        else (k.(rest := k.rest[t := k.rest[t][1..]]), [TryExecute(k.rest[t][0])]))
    case Begin(t) => (k.(trace := k.trace + [Start(t)]), [End(t)])
    case End(t) => (k.(trace := k.trace + [Finish(t)]), [SetDone(t)])
    case SetDone(t) => (WithCell(k, t, k.cell[t].(done := true)), [Signal(t)])
    case Signal(t) =>
      (WithCell(k, t, k.cell[t].(event := if T.waitable[t] then k.cell[t].event + 1 else k.cell[t].event)), [Notify(t)])
    case Notify(t) =>
      var told := WithCell(k, t, k.cell[t].(notified := true));
      if T.parent[t].None? then (told, [])
      else
        var g := T.Group(t);
        (match T.kind[g]
         case Parallel(limit) =>
           var left := told.cell[g].active - 1;
           (WithCell(told, g, told.cell[g].(active := left)),
            if left == 0 then [SetDone(g), Reset(t)] else if limit > 0 then [Refill(g), Reset(t)] else [Reset(t)])
         case _ => (told, [Advance(g), Reset(t)]))
    case Reset(t) => (WithCell(k, t, k.cell[t].(unlinked := true)), [])
    case Advance(t) =>
      if k.rest[t] == [] then (k, [SetDone(t)])
      else (k.(rest := k.rest[t := k.rest[t][1..]]), [AddGrabbed(k.rest[t][0])])
    case TryExecute(t) => TryToGrab(k, t, [Execute(t)], [])
  }

  predicate ParallelOp(op: Op) {
    op.Fork? || op.ForkGrabbed? || op.ForkDone? || op.GrabFirst? || op.Refill? || op.RefillGrabbed? || op.RefillDone?
  }

  /** Whether `++scheduledTasks >= maxSimultaneousTasks_ - 1` ends the scheduling loop. */
  predicate LimitReached(limit: int, scheduled: nat) {
    limit > 0 && scheduled >= limit - 1
  }

  /** parallel_group::executeImpl and the refill loop of oneTaskDone. */
  ghost function ParallelStep(C: Config, k: Board, op: Op): (Board, seq<Op>)
    requires C.Valid() && Shape(C.T, k) && OpOk(C, k, op) && ParallelOp(op)
  {
    var T := C.T;
    var g := op.t;
    var me := k.cell[g];
    var claimed := WithCell(k, g, me.(next := me.next + 1));
    match op
    case Fork(_) => (claimed, if me.next < |T.children[g]| then [ForkGrabbed(g, me.next)] else [GrabFirst(g)])
    case ForkGrabbed(_, i) => (k, if k.cell[T.Child(g, i)].grabbed then [Fork(g)] else [ForkDone(g, i)])
    case ForkDone(_, i) =>
      var c := T.Child(g, i);
      if k.cell[c].done then (k, [Fork(g)])
      else
        var scheduled := if T.kind[g].limit > 0 then me.scheduled + 1 else me.scheduled;
        (WithCell(k, g, me.(offered := me.offered + {i}, scheduled := scheduled)),
         [AddGrabbed(c), if LimitReached(T.kind[g].limit, scheduled) then GrabFirst(g) else Fork(g)])
    case GrabFirst(_) =>
      assert T.LinksDown(g);
      TryToGrab(k, T.Child(g, 0), [Execute(T.Child(g, 0))], [])
    case Refill(_) => (claimed, if me.next < |T.children[g]| then [RefillGrabbed(g, me.next)] else [])
    case RefillGrabbed(_, i) => (k, if k.cell[T.Child(g, i)].grabbed then [Refill(g)] else [RefillDone(g, i)])
    case RefillDone(_, i) =>
      var c := T.Child(g, i);
      if k.cell[c].done then (k, [Refill(g)])
      else (WithCell(k, g, me.(offered := me.offered + {i})), [AddGrabbed(c)])
  }

  predicate CallerOp(op: Op) {
    op.ActiveWait? || op.AwaitChild? || op.Wait? || op.PostAgain?
  }

  /** task::activeWait, parallel_group::activeWait, and wait on a manual-reset event. */
  ghost function CallerStep(C: Config, k: Board, op: Op): (Board, seq<Op>)
    requires C.Valid() && Shape(C.T, k) && OpOk(C, k, op) && CallerOp(op) && Ready(C, k, op)
  {
    var T := C.T;
    var t := op.t;
    match op
    case ActiveWait(_) =>
      (match T.kind[t]
       case Unit => TryToGrab(k, t, [Execute(t)], [Wait(t)])
       case Parallel(_) => (k, [AwaitChild(t, 0)])
       case Sequence => (k, [Wait(t)]))
    case AwaitChild(_, i) =>
      if i < |T.children[t]| then
        TryToGrab(k, T.Child(t, i), [Execute(T.Child(t, i)), AwaitChild(t, i + 1)], [AwaitChild(t, i + 1)])
      else (WithCell(k, t, k.cell[t].(event := k.cell[t].event - 1)), [PostAgain(t)])
    case Wait(_) => (WithCell(k, t, k.cell[t].(event := k.cell[t].event - 1)), [PostAgain(t)])
    case PostAgain(_) => (WithCell(k, t, k.cell[t].(event := k.cell[t].event + 1)), [])
  }

  /** sem_wait on an event blocks at value 0. */
  ghost predicate Ready(C: Config, k: Board, op: Op)
    requires C.Valid() && Shape(C.T, k) && OpOk(C, k, op)
  {
    && (op.Wait? ==> k.cell[op.t].event > 0)
    && (op.AwaitChild? && op.i == |C.T.children[op.t]| ==> k.cell[op.t].event > 0)
  }

  predicate AddOp(op: Op) {
    op.AddGrabbed? || op.AddDone? || op.Climb? || op.Push? || op.WakeUp?
  }

  /** scheduler::add, with the walk of resolveTaskPriority up the parent pointers one node a step, and
      wakeUpWorkersWithPriority. */
  ghost function AddStep(C: Config, k: Board, q: Sched, op: Op): Effect
    requires C.Valid() && Shape(C.T, k) && SchedShape(C, q) && OpOk(C, k, op) && AddOp(op)
  {
    match op
    case AddGrabbed(t) => Effect(k, q, if k.cell[t].grabbed then [] else [AddDone(t)])
    case AddDone(t) => Effect(k, q, if k.cell[t].done then [] else [Climb(t, t)])
    case Climb(t, x) =>
      Effect(k, q,
             if !C.T.priority[x].Inherit? then [Push(t, QueueOf(C.T.priority[x]))]
             else if C.T.parent[x].None? || k.cell[x].unlinked then [Push(t, QueueOf(Normal))]
             else [Climb(t, C.T.Group(x))])
    case Push(t, p) => Effect(k, q.(queues := q.queues[p := q.queues[p] + [t]]), [WakeUp(p, 0)])
    case WakeUp(p, w) =>
      if w == C.Workers() then Effect(k, q, [])
      else Effect(k, if C.canWork[w][p] then q.(sem := q.sem[w := q.sem[w] + 1]) else q, [WakeUp(p, w + 1)])
  }

  predicate WorkerOp(op: Op) {
    op.Loop? || op.Drain? || op.Pump? || op.Scan? || op.TryGrab? || op.CheckDone? || op.Sleep? || op.GotTask?
    || op.Confirm? || op.ConfirmDone? || op.Launch? || op.Back? || op.Exited?
  }

  /** worker::run, scheduler::signalAvailableWorker, waitForNextTask and pumpTask. */
  ghost function WorkerStep(C: Config, k: Board, q: Sched, op: Op): Effect
    requires C.Valid() && Shape(C.T, k) && SchedShape(C, q) && OpOk(C, k, op) && WorkerOp(op)
    requires op.Sleep? ==> q.sem[op.w] > 0
  {
    var w := op.w;
    match op
    case Loop(_) => Effect(k, q, if q.alive[w] then [Drain(w)] else [Exited(w)])
    case Drain(_) => if q.sem[w] > 0 then Effect(k, q.(sem := q.sem[w := q.sem[w] - 1]), [Drain(w)])
                     else Effect(k, q, [Pump(w)])
    case Pump(_) => Effect(k, q, if q.running then [Scan(w, 0)] else [Back(w)])
    case Scan(_, p) =>
      if p == PRIO_COUNT then Effect(k, q, [Sleep(w)])
      else if C.canWork[w][p] && q.queues[p] != [] then
        Effect(k, q.(queues := q.queues[p := q.queues[p][1..]]), [TryGrab(w, p, q.queues[p][0])])
      else Effect(k, q, [Scan(w, p + 1)])
    case TryGrab(_, p, t) => var (k', next) := TryToGrab(k, t, [CheckDone(w, p, t)], [Scan(w, p)]); Effect(k', q, next)
    case CheckDone(_, p, t) => Effect(k, q, if k.cell[t].done then [Scan(w, p)] else [GotTask(w, t)])
    case Sleep(_) => Effect(k, q.(sem := q.sem[w := q.sem[w] - 1]), [Drain(w)])
    case GotTask(_, t) =>
      if q.running then Effect(k, q, [Confirm(w, t)]) else Effect(k, q.(dropped := q.dropped + [t]), [Back(w)])
    case Confirm(_, t) => Effect(k, q, if k.cell[t].grabbed then [ConfirmDone(w, t)] else [Drain(w)])
    case ConfirmDone(_, t) => Effect(k, q, if k.cell[t].done then [Drain(w)] else [Launch(w, t)])
    case Launch(_, t) =>
      if q.alive[w] then Effect(k, q, [Execute(t), Loop(w)])
      else Effect(k, q.(dropped := q.dropped + [t]), [Loop(w)])
    case Back(_) => Effect(k, q, [Loop(w)])
    case Exited(_) => Effect(k, q, [op])
  }

  /** scheduler::stop. */
  ghost function StopStep(C: Config, k: Board, q: Sched, op: Op): Effect
    requires C.Valid() && Shape(C.T, k) && SchedShape(C, q) && OpOk(C, k, op)
    requires op.StopScheduler? || op.StopWorker? || op.WakeAll? || op.Join?
  {
    match op
    case StopScheduler => Effect(k, q.(running := false), [StopWorker(0)])
    case StopWorker(w) =>
      if w == C.Workers() then Effect(k, q, [WakeAll(0)])
      else Effect(k, q.(alive := q.alive[w := false]), [StopWorker(w + 1)])
    case WakeAll(w) =>
      if w == C.Workers() then Effect(k, q, [Join(0)])
      else Effect(k, q.(sem := q.sem[w := q.sem[w] + 1], posted := q.posted[w := true]), [WakeAll(w + 1)])
    case Join(w) => Effect(k, q, if w == C.Workers() then [] else [Join(w + 1)])
  }

  ghost function Perform(C: Config, k: Board, q: Sched, op: Op): Effect
    requires C.Valid() && Shape(C.T, k) && SchedShape(C, q) && OpOk(C, k, op)
    requires Ready(C, k, op) && (op.Sleep? ==> q.sem[op.w] > 0)
  {
    if TaskOp(op) then var (k', next) := TaskStep(C, k, op); Effect(k', q, next)
    else if ParallelOp(op) then var (k', next) := ParallelStep(C, k, op); Effect(k', q, next)
    else if CallerOp(op) then var (k', next) := CallerStep(C, k, op); Effect(k', q, next)
    else if AddOp(op) then AddStep(C, k, q, op)
    else if WorkerOp(op) then WorkerStep(C, k, q, op)
    else StopStep(C, k, q, op)
  }

  // ------------------------------------------------------------------ runs

  /** Agent `a` has an operation pending and is not blocked in it. */
  ghost predicate CanStep(C: Config, s: State, a: nat)
    requires StateOk(C, s)
  {
    && a < |s.agents| && s.agents[a] != []
    && var op := s.agents[a][0];
       && (assert OpOk(C, s.k, op); Ready(C, s.k, op))
       && (op.Sleep? ==> s.q.sem[op.w] > 0)
       && !op.Exited?
       && (op.Join? && op.w < C.Workers() ==> s.agents[op.w] == [Exited(op.w)])
  }

  ghost function StepOf(C: Config, s: State, a: nat): State
    requires StateOk(C, s) && CanStep(C, s, a)
  {
    assert OpOk(C, s.k, s.agents[a][0]);
    var e := Perform(C, s.k, s.q, s.agents[a][0]);
    State(e.k, e.q, s.agents[a := e.next + s.agents[a][1..]])
  }
}
