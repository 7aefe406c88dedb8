// The form of every agent's stack: a worker ends in exactly one position of its own loop, a
// caller's blocking waits lie below everything else it has to do.
module MachineStacks {
  import opened TaskTree
  import opened Ledger
  import opened Machine
  import opened MachineShape

  predicate AwaitOp(op: Op) {
    op.ActiveWait? || op.AwaitChild? || op.Wait?
  }

  predicate StopOp(op: Op) {
    op.StopScheduler? || op.StopWorker? || op.WakeAll? || op.Join?
  }

  /** Operations that arise from executing tasks. */
  predicate BodyOp(op: Op) {
    TaskOp(op) || ParallelOp(op) || AddOp(op)
  }

  /** Worker `w`: work on a task on top, one position of worker::run at the bottom. */
  ghost predicate WorkerStack(w: nat, stack: seq<Op>) {
    && stack != []
    && WorkerOp(stack[|stack| - 1]) && stack[|stack| - 1].w == w
    && forall j :: 0 <= j < |stack| - 1 ==> BodyOp(stack[j])
  }

  /** A caller: below an activeWait or a wait there are only more of them. */
  ghost predicate CallerStack(stack: seq<Op>) {
    && (forall j :: 0 <= j < |stack| ==> !WorkerOp(stack[j]))
    && (forall i, j :: 0 <= i <= j < |stack| && AwaitOp(stack[i]) ==> AwaitOp(stack[j]))
  }

  ghost predicate Structured(C: Config, s: State) {
    && |s.agents| >= C.Workers()
    && (forall w :: 0 <= w < C.Workers() ==> WorkerStack(w, s.agents[w]))
    && (forall a :: C.Workers() <= a < |s.agents| ==> CallerStack(s.agents[a]))
  }

  /** Where worker `w` is in its loop. */
  ghost function Position(s: State, w: nat): Op
    requires w < |s.agents| && s.agents[w] != []
  {
    s.agents[w][|s.agents[w]| - 1]
  }

  /** What an operation can be followed by. */
  lemma NextKinds(C: Config, k: Board, q: Sched, op: Op)
    requires C.Valid() && BoardOk(C, k) && SchedShape(C, q) && OpOk(C, k, op)
    requires Ready(C, k, op) && (op.Sleep? ==> q.sem[op.w] > 0)
    ensures var next := Perform(C, k, q, op).next;
            && |next| <= 2
            && (BodyOp(op) ==> forall j :: 0 <= j < |next| ==> BodyOp(next[j]))
            && (WorkerOp(op) ==> WorkerStack(op.w, next))
            && (!WorkerOp(op) ==>
                CallerStack(next) && (!AwaitOp(op) ==> forall j :: 0 <= j < |next| ==> !AwaitOp(next[j])))
  {
    hide OpOk, SchedShape, BoardOk, TaskStep, ParallelStep, CallerStep, AddStep, WorkerStep, StopStep, C.Valid,
        CallerStack, WorkerStack;
    hide Perform, TaskOp, ParallelOp, CallerOp, AddOp, WorkerOp, StopOp, AwaitOp, BodyOp, Shape, Ready;
    BoardShape(C, k);
    PerformIs(C, k, q, op);
    KindsOf(op);
    if TaskOp(op) {
      NextTask(C, k, op);
    } else if ParallelOp(op) {
      NextParallel(C, k, op);
    } else if WorkerOp(op) {
      NextWorker(C, k, q, op);
    } else if AddOp(op) {
      NextAdd(C, k, q, op);
    } else if CallerOp(op) {
      NextCaller(C, k, op);
    } else {
      NextStop(C, k, q, op);
    }
  }

  /** How the kinds of operations go together. */
  lemma KindsOf(op: Op)
    ensures StopOp(op) <==> op.StopScheduler? || op.StopWorker? || op.WakeAll? || op.Join?
    ensures BodyOp(op) <==> TaskOp(op) || ParallelOp(op) || AddOp(op)
    ensures WorkerOp(op) ==> !BodyOp(op) && !CallerOp(op) && !AwaitOp(op)
    ensures AwaitOp(op) ==> CallerOp(op)
    ensures CallerOp(op) || StopOp(op) ==> !BodyOp(op)
    ensures StopOp(op) ==> !CallerOp(op)
    ensures BodyOp(op) || WorkerOp(op) || CallerOp(op) || StopOp(op)
  {
  }

  lemma NextAdd(C: Config, k: Board, q: Sched, op: Op)
    requires C.Valid() && BoardOk(C, k) && SchedShape(C, q) && OpOk(C, k, op) && AddOp(op)
    ensures var next := AddStep(C, k, q, op).next;
            |next| <= 1 && CallerStack(next) && forall j :: 0 <= j < |next| ==> BodyOp(next[j]) && !AwaitOp(next[j])
  {
  }

  lemma NextCaller(C: Config, k: Board, op: Op)
    requires C.Valid() && BoardOk(C, k) && OpOk(C, k, op) && CallerOp(op) && Ready(C, k, op)
    ensures var next := CallerStep(C, k, op).1;
            |next| <= 2 && CallerStack(next) && (!AwaitOp(op) ==> next == [])
  {
  }

  lemma NextStop(C: Config, k: Board, q: Sched, op: Op)
    requires C.Valid() && BoardOk(C, k) && SchedShape(C, q) && OpOk(C, k, op) && StopOp(op)
    ensures var next := StopStep(C, k, q, op).next;
            |next| <= 1 && CallerStack(next) && forall j :: 0 <= j < |next| ==> !AwaitOp(next[j])
  {
  }

  lemma NextTask(C: Config, k: Board, op: Op)
    requires C.Valid() && BoardOk(C, k) && OpOk(C, k, op) && TaskOp(op)
    ensures var next := TaskStep(C, k, op).1;
            |next| <= 2 && CallerStack(next) && forall j :: 0 <= j < |next| ==> BodyOp(next[j]) && !AwaitOp(next[j])
  {
    hide BoardOk, C.Valid, Shape, OpOk, TaskStep, CallerStack, BodyOp, AwaitOp;
    BoardShape(C, k);
    TaskGoesOn(C, k, op);
    OnlyBody(TaskStep(C, k, op).1);
  }

  lemma TaskGoesOn(C: Config, k: Board, op: Op)
    requires C.Valid() && Shape(C.T, k) && OpOk(C, k, op) && TaskOp(op)
    ensures var next := TaskStep(C, k, op).1;
            |next| <= 2 && forall j :: 0 <= j < |next| ==> BodyOp(next[j])
  {
    hide Shape, C.Valid;
  }

  /** Work on tasks is never a wait. */
  lemma OnlyBody(next: seq<Op>)
    requires forall j :: 0 <= j < |next| ==> BodyOp(next[j])
    ensures CallerStack(next) && forall j :: 0 <= j < |next| ==> !AwaitOp(next[j])
  {
    hide BodyOp, AwaitOp, WorkerOp;
    forall j | 0 <= j < |next| ensures !AwaitOp(next[j]) && !WorkerOp(next[j]) {
      BodyIsNoWait(next[j]);
    }
  }

  lemma BodyIsNoWait(op: Op)
    ensures BodyOp(op) ==> !AwaitOp(op) && !WorkerOp(op)
  {
  }

  lemma NextParallel(C: Config, k: Board, op: Op)
    requires C.Valid() && BoardOk(C, k) && OpOk(C, k, op) && ParallelOp(op)
    ensures var next := ParallelStep(C, k, op).1;
            |next| <= 2 && CallerStack(next) && forall j :: 0 <= j < |next| ==> BodyOp(next[j]) && !AwaitOp(next[j])
  {
    hide BoardOk, C.Valid, Shape, OpOk, ParallelStep, CallerStack, BodyOp, AwaitOp;
    BoardShape(C, k);
    ParallelGoesOn(C, k, op);
    OnlyBody(ParallelStep(C, k, op).1);
  }

  lemma ParallelGoesOn(C: Config, k: Board, op: Op)
    requires C.Valid() && Shape(C.T, k) && OpOk(C, k, op) && ParallelOp(op)
    ensures var next := ParallelStep(C, k, op).1;
            |next| <= 2 && forall j :: 0 <= j < |next| ==> BodyOp(next[j])
  {
    hide Shape, C.Valid;
  }

  lemma NextWorker(C: Config, k: Board, q: Sched, op: Op)
    requires C.Valid() && BoardOk(C, k) && SchedShape(C, q) && OpOk(C, k, op) && WorkerOp(op)
    requires op.Sleep? ==> q.sem[op.w] > 0
    ensures var next := WorkerStep(C, k, q, op).next;
            |next| <= 2 && WorkerStack(op.w, next)
  {
  }

  lemma StepStructured(C: Config, s: State, a: nat)
    requires StateOk(C, s) && CanStep(C, s, a) && Structured(C, s)
    ensures Structured(C, StepOf(C, s, a))
  {
    var op := s.agents[a][0];
    assert OpOk(C, s.k, op);
    NextKinds(C, s.k, s.q, op);
    var next := Perform(C, s.k, s.q, op).next;
    var rest := s.agents[a][1..];
    hide Perform, OpOk, StateOk;
    assert StepOf(C, s, a).agents == s.agents[a := next + rest];
    hide StepOf;
    if a < C.Workers() {
      WorkerGoesOn(a, s.agents[a], next);
    } else {
      CallerGoesOn(s.agents[a], next);
    }
  }

  lemma WorkerGoesOn(w: nat, stack: seq<Op>, next: seq<Op>)
    requires WorkerStack(w, stack)
    requires WorkerOp(stack[0]) ==> WorkerStack(stack[0].w, next)
    requires BodyOp(stack[0]) ==> forall j :: 0 <= j < |next| ==> BodyOp(next[j])
    ensures WorkerStack(w, next + stack[1..])
  {
    if |stack| == 1 {
      assert next + stack[1..] == next;
    }
  }

  lemma CallerGoesOn(stack: seq<Op>, next: seq<Op>)
    requires stack != [] && CallerStack(stack) && CallerStack(next)
    requires !AwaitOp(stack[0]) ==> forall j :: 0 <= j < |next| ==> !AwaitOp(next[j])
    ensures CallerStack(next + stack[1..])
  {
    var stack' := next + stack[1..];
    forall i, j | 0 <= i <= j < |stack'| && AwaitOp(stack'[i]) ensures AwaitOp(stack'[j]) {
      if i < |next| <= j {
        assert stack'[j] == stack[j - |next| + 1] && AwaitOp(stack[0]);
      } else if |next| <= i {
        assert stack'[i] == stack[i - |next| + 1] && stack'[j] == stack[j - |next| + 1];
      }
    }
  }
}
