// Sleeping and stopping: what the wake-up invariants mean for runs.
module Stopping {
  import opened TaskTree
  import opened Ledger
  import opened Machine
  import opened MachineShape
  import opened MachineStacks
  import opened WakeUps
  import opened Runs

  /** No lost wake-up: when a queue that the worker serves, and has passed in its current pump, is not
      empty, the worker's semaphore holds a token or some adder has pushed there and not yet come to
      notify that worker. In particular no worker sleeps beside announced work. */
  lemma NoSleepBesideWork(C: Config, s: State, w: nat, p: nat)
    requires Reachable(C, s) && w < C.Workers() && p < PRIO_COUNT && StateOk(C, s) && Structured(C, s)
    requires Passed(Position(s, w), p) && C.canWork[w][p] && s.q.queues[p] != []
    ensures s.q.sem[w] > 0 || Announced(s, p, w)
  {
    hide Reachable;
    ReachableInv(C, s);
    hide Structured, StateOk;
    assert Heard(C, s, w, p);
  }

  /** After stop() has posted to a worker, it is never blocked with zero tokens, whatever it drained. */
  lemma PostedIsNotBlocked(C: Config, s: State, w: nat)
    requires Reachable(C, s) && w < C.Workers() && StateOk(C, s) && Structured(C, s)
    requires s.q.posted[w] && Position(s, w) == Sleep(w)
    ensures s.q.sem[w] > 0
  {
    hide Reachable;
    ReachableInv(C, s);
  }

  // ------------------------------------------------------------------ how far stop() has come

  /** The steps of stop() before this one are in effect. */
  ghost predicate StopProgress(C: Config, s: State, op: Op)
    requires StateOk(C, s)
  {
    && (op.StopWorker? || op.WakeAll? || op.Join? ==> !s.q.running)
    && (op.StopWorker? ==> forall w :: 0 <= w < op.w && w < C.Workers() ==> !s.q.alive[w])
    && (op.WakeAll? || op.Join? ==> forall w :: 0 <= w < C.Workers() ==> !s.q.alive[w])
    && (op.WakeAll? ==> forall w :: 0 <= w < op.w && w < C.Workers() ==> s.q.posted[w])
    && (op.Join? ==> forall w :: 0 <= w < C.Workers() ==> s.q.posted[w])
    && (op.Join? ==> forall w :: 0 <= w < op.w && w < C.Workers() ==> s.agents[w] == [Exited(w)])
  }

  ghost predicate StopsInOrder(C: Config, s: State)
    requires StateOk(C, s)
  {
    forall a, j {:trigger s.agents[a][j]} :: 0 <= a < |s.agents| && 0 <= j < |s.agents[a]| ==>
        StopProgress(C, s, s.agents[a][j])
  }

  /** Flags only fall, posts only accumulate, whoever has left the loop stays out. */
  ghost predicate Later(C: Config, s: State, s': State)
    requires StateOk(C, s) && StateOk(C, s')
  {
    && (s'.q.running ==> s.q.running)
    && (forall w :: 0 <= w < C.Workers() && s'.q.alive[w] ==> s.q.alive[w])
    && (forall w :: 0 <= w < C.Workers() && s.q.posted[w] ==> s'.q.posted[w])
    && (forall w :: 0 <= w < C.Workers() && s.agents[w] == [Exited(w)] ==> s'.agents[w] == [Exited(w)])
  }

  lemma StepIsLater(C: Config, s: State, a: nat)
    requires StateOk(C, s) && CanStep(C, s, a) && StateOk(C, StepOf(C, s, a))
    ensures Later(C, s, StepOf(C, s, a))
  {
    var op := s.agents[a][0];
    assert OpOk(C, s.k, op);
    PerformFlags(C, s.k, s.q, op);
    PostsStay(C, s.k, s.q, op);
    hide Perform, OpOk, StateOk;
  }

  lemma PostsStay(C: Config, k: Board, q: Sched, op: Op)
    requires C.Valid() && BoardOk(C, k) && SchedShape(C, q) && OpOk(C, k, op)
    requires Ready(C, k, op) && (op.Sleep? ==> q.sem[op.w] > 0)
    ensures var e := Perform(C, k, q, op);
            SchedShape(C, e.q) && forall w :: 0 <= w < C.Workers() && q.posted[w] ==> e.q.posted[w]
  {
    hide Perform, TaskStep, ParallelStep, CallerStep, AddStep, WorkerStep, StopStep, BoardOk, OpOk, C.Valid, Shape,
        Ready, StopOp;
    BoardShape(C, k);
    PerformFlags(C, k, q, op);
    if StopOp(op) {
      PerformIs(C, k, q, op);
      KindsOfOps(op);
      StopPosts(C, k, q, op);
    }
  }

  lemma StopPosts(C: Config, k: Board, q: Sched, op: Op)
    requires C.Valid() && Shape(C.T, k) && SchedShape(C, q) && OpOk(C, k, op) && StopOp(op)
    ensures var e := StopStep(C, k, q, op);
            |e.q.posted| == |q.posted| && forall w :: 0 <= w < C.Workers() && q.posted[w] ==> e.q.posted[w]
  {
    hide C.Valid, Shape;
  }

  lemma StaysInProgress(C: Config, s: State, s': State, op: Op)
    requires StateOk(C, s) && StateOk(C, s') && Later(C, s, s') && StopProgress(C, s, op)
    ensures StopProgress(C, s', op)
  {
  }

  lemma NextInProgress(C: Config, s: State, a: nat, j: nat)
    requires StateOk(C, s) && CanStep(C, s, a) && StateOk(C, StepOf(C, s, a)) && Later(C, s, StepOf(C, s, a))
    requires StopProgress(C, s, s.agents[a][0])
    requires OpOk(C, s.k, s.agents[a][0]) && j < |Perform(C, s.k, s.q, s.agents[a][0]).next|
    ensures StopProgress(C, StepOf(C, s, a), Perform(C, s.k, s.q, s.agents[a][0]).next[j])
  {
    var op := s.agents[a][0];
    if StopOp(op) {
      StopsProgress(C, s, a, j);
    } else {
      PerformFlags(C, s.k, s.q, op);
      hide Perform, StateOk, StepOf, OpOk;
    }
  }

  lemma StopsProgress(C: Config, s: State, a: nat, j: nat)
    requires StateOk(C, s) && CanStep(C, s, a) && StateOk(C, StepOf(C, s, a)) && Later(C, s, StepOf(C, s, a))
    requires StopOp(s.agents[a][0]) && StopProgress(C, s, s.agents[a][0])
    requires OpOk(C, s.k, s.agents[a][0]) && j < |Perform(C, s.k, s.q, s.agents[a][0]).next|
    ensures StopProgress(C, StepOf(C, s, a), Perform(C, s.k, s.q, s.agents[a][0]).next[j])
  {
    hide TaskStep, ParallelStep, CallerStep, AddStep, WorkerStep, StopStep, StateOk, CanStep, StepOf, Perform, Later,
        OpOk;
    hide C.Valid, Shape, SchedShape, Ready, BoardOk, StopOp;
    StepPieces(C, s, a);
    BoardShape(C, s.k);
    var op := s.agents[a][0];
    KindsOfOps(op);
    PerformIs(C, s.k, s.q, op);
    OneKind(op);
    if op.StopScheduler? || op.StopWorker? {
      FlagsProgress(C, s, a, j);
    } else {
      JoinsProgress(C, s, a, j);
    }
  }

  lemma FlagsProgress(C: Config, s: State, a: nat, j: nat)
    requires StateOk(C, s) && CanStep(C, s, a) && StateOk(C, StepOf(C, s, a)) && Later(C, s, StepOf(C, s, a))
    requires (s.agents[a][0].StopScheduler? || s.agents[a][0].StopWorker?) && StopProgress(C, s, s.agents[a][0])
    requires C.Valid() && Shape(C.T, s.k) && SchedShape(C, s.q) && OpOk(C, s.k, s.agents[a][0])
    requires var e := StopStep(C, s.k, s.q, s.agents[a][0]);
             j < |e.next| && StepOf(C, s, a) == State(e.k, e.q, s.agents[a := e.next + s.agents[a][1..]])
    ensures StopProgress(C, StepOf(C, s, a), StopStep(C, s.k, s.q, s.agents[a][0]).next[j])
  {
    hide StateOk, CanStep, StepOf, C.Valid, Shape;
  }

  lemma JoinsProgress(C: Config, s: State, a: nat, j: nat)
    requires StateOk(C, s) && CanStep(C, s, a) && StateOk(C, StepOf(C, s, a)) && Later(C, s, StepOf(C, s, a))
    requires (s.agents[a][0].WakeAll? || s.agents[a][0].Join?) && StopProgress(C, s, s.agents[a][0])
    requires C.Valid() && Shape(C.T, s.k) && SchedShape(C, s.q) && OpOk(C, s.k, s.agents[a][0])
    requires var e := StopStep(C, s.k, s.q, s.agents[a][0]);
             j < |e.next| && StepOf(C, s, a) == State(e.k, e.q, s.agents[a := e.next + s.agents[a][1..]])
    ensures StopProgress(C, StepOf(C, s, a), StopStep(C, s.k, s.q, s.agents[a][0]).next[j])
  {
    hide StateOk, StepOf, C.Valid, Shape;
  }

  lemma StepInOrder(C: Config, s: State, a: nat)
    requires StateOk(C, s) && CanStep(C, s, a) && StateOk(C, StepOf(C, s, a)) && StopsInOrder(C, s)
    ensures StopsInOrder(C, StepOf(C, s, a))
  {
    hide StateOk, CanStep, StepOf, StopProgress, Later;
    var s' := StepOf(C, s, a);
    StepIsLater(C, s, a);
    forall b, j | 0 <= b < |s'.agents| && 0 <= j < |s'.agents[b]| ensures StopProgress(C, s', s'.agents[b][j]) {
      OpInOrder(C, s, a, b, j);
    }
  }

  lemma OpInOrder(C: Config, s: State, a: nat, b: nat, j: nat)
    requires StateOk(C, s) && CanStep(C, s, a) && StateOk(C, StepOf(C, s, a)) && StopsInOrder(C, s)
    requires Later(C, s, StepOf(C, s, a))
    requires b < |StepOf(C, s, a).agents| && j < |StepOf(C, s, a).agents[b]|
    ensures StopProgress(C, StepOf(C, s, a), StepOf(C, s, a).agents[b][j])
  {
    var op := s.agents[a][0];
    var s' := StepOf(C, s, a);
    assert OpOk(C, s.k, op) && StopProgress(C, s, op);
    var next := Perform(C, s.k, s.q, op).next;
    assert s'.agents == s.agents[a := next + s.agents[a][1..]];
    hide StepOf, Perform, StateOk, OpOk, StopProgress, Later;
    if b == a && j < |next| {
      NextInProgress(C, s, a, j);
    } else {
      var i := if b == a then j - |next| + 1 else j;
      assert s'.agents[b][j] == s.agents[b][i];
      assert StopProgress(C, s, s.agents[b][i]);
      StaysInProgress(C, s, s', s.agents[b][i]);
    }
  }

  lemma InitialInOrder(C: Config, s: State)
    requires Initial(C, s) && StateOk(C, s)
    ensures StopsInOrder(C, s)
  {
    hide StateOk, OpOk;
  }

  lemma {:induction false} RunInOrder(C: Config, run: seq<State>, i: nat)
    requires Run(C, run) && i < |run|
    ensures StateOk(C, run[i]) && StopsInOrder(C, run[i])
  {
    hide Inv, Initial, Steps, StopsInOrder;
    InvShape(C, run, i);
    if i == 0 {
      InitialInOrder(C, run[0]);
    } else {
      RunInOrder(C, run, i - 1);
      assert Follows(C, run, i - 1);
      var a: nat :| Steps(C, run[i - 1], a, run[i]);
      InOrderLater(C, run[i - 1], a, run[i]);
    }
  }

  lemma InvShape(C: Config, run: seq<State>, i: nat)
    requires Run(C, run) && i < |run|
    ensures StateOk(C, run[i]) && Structured(C, run[i]) && StopHeard(C, run[i])
  {
    hide Run, StateOk, Structured, NoLostWakeUp, StopHeard, Balanced;
    RunInv(C, run, i);
  }

  lemma InOrderLater(C: Config, s: State, a: nat, s': State)
    requires Steps(C, s, a, s') && StateOk(C, s') && StopsInOrder(C, s)
    ensures StopsInOrder(C, s') && Later(C, s, s')
  {
    StepInOrder(C, s, a);
    StepIsLater(C, s, a);
  }

  lemma ReachableInOrder(C: Config, s: State)
    requires Reachable(C, s)
    ensures StateOk(C, s) && Structured(C, s) && StopHeard(C, s) && StopsInOrder(C, s)
  {
    hide StateOk, Structured, StopHeard, StopsInOrder, Initial, Follows;
    var run :| Run(C, run) && run[|run| - 1] == s;
    RunInOrder(C, run, |run| - 1);
    InvShape(C, run, |run| - 1);
  }

  /** stop() is never stuck: a worker it is joining has left its loop, or is able to go on. */
  lemma JoinIsNotStuck(C: Config, s: State, a: nat, w: nat)
    requires Reachable(C, s) && StateOk(C, s) && a < |s.agents| && s.agents[a] != [] && s.agents[a][0] == Join(w) &&
        w < C.Workers()
    ensures !s.q.running && !s.q.alive[w] && s.q.posted[w]
    ensures s.agents[w] == [Exited(w)] || CanStep(C, s, w)
  {
    hide Reachable;
    ReachableInOrder(C, s);
    assert StopProgress(C, s, s.agents[a][0]);
    hide StopsInOrder;
    WorkerGoes(C, s, w);
  }

  lemma WorkerGoes(C: Config, s: State, w: nat)
    requires StateOk(C, s) && Structured(C, s) && StopHeard(C, s) && w < C.Workers() && s.q.posted[w]
    ensures s.agents[w] == [Exited(w)] || CanStep(C, s, w)
  {
    assert WorkerStack(w, s.agents[w]);
    hide StateOk, Structured, OpOk;
    if |s.agents[w]| > 1 {
      assert BodyOp(s.agents[w][0]);
    } else {
      assert s.agents[w] == [Position(s, w)];
    }
  }

  // ------------------------------------------------------------------ no sleep after the flag

  lemma StaysAwake(C: Config, s: State, a: nat, s': State, w: nat)
    requires Steps(C, s, a, s') && Inv(C, s) && Inv(C, s') && w < C.Workers()
    requires !s.q.running && !MaySleep(Position(s, w))
    ensures !s'.q.running && !MaySleep(Position(s', w))
  {
    hide NoLostWakeUp, StopHeard, Balanced;
    StepIsLater(C, s, a);
    StepParts(C, s, a, w, 0);
    hide StepOf, Perform, StateOk, OpOk, Structured, Waking;
  }

  /** Once a worker is outside its pump after stop() has cleared the flag, it never waits again. */
  lemma {:induction false} NeverSleepsAgain(C: Config, run: seq<State>, i: nat, j: nat, w: nat)
    requires Run(C, run) && i <= j < |run| && w < C.Workers()
    requires Inv(C, run[i]) && !run[i].q.running && !MaySleep(Position(run[i], w))
    ensures Inv(C, run[j]) && !run[j].q.running && !MaySleep(Position(run[j], w))
  {
    hide Inv, Steps;
    if i < j {
      NeverSleepsAgain(C, run, i, j - 1, w);
      RunInv(C, run, j);
      assert Follows(C, run, j - 1);
      var a: nat :| Steps(C, run[j - 1], a, run[j]);
      StaysAwake(C, run[j - 1], a, run[j], w);
    }
  }

  // ------------------------------------------------------------------ no task after the flags

  /** A worker is going to run the task it has in hand, unless it finds it done or its own flag down. */
  predicate InHand(op: Op) {
    op.Confirm? || op.ConfirmDone? || op.Launch?
  }

  /** The worker has been told to stop, and is not at work on a task. */
  ghost predicate OutOfWork(s: State, w: nat) {
    w < |s.agents| && w < |s.q.alive| && !s.q.alive[w] && |s.agents[w]| == 1
  }

  /** The scheduler has been told to stop, and the worker has no task in hand. */
  ghost predicate EmptyHanded(s: State, w: nat) {
    w < |s.agents| && !s.q.running && s.agents[w] != [] && !InHand(Position(s, w))
  }

  lemma StoppedGoesOn(C: Config, k: Board, q: Sched, op: Op)
    requires C.Valid() && Shape(C.T, k) && SchedShape(C, q) && OpOk(C, k, op) && WorkerOp(op)
    requires op.Sleep? ==> q.sem[op.w] > 0
    ensures var next := WorkerStep(C, k, q, op).next;
            && next != [] && op.w < |q.alive| && (!q.alive[op.w] ==> |next| == 1)
            && (!q.running && !InHand(op) ==> |next| == 1 && !InHand(next[0]))
  {
    hide Shape;
  }

  lemma SchedFits(C: Config, q: Sched)
    requires SchedShape(C, q)
    ensures |q.alive| == C.Workers()
  {
  }

  lemma StaysOut(C: Config, s: State, a: nat, s': State, w: nat)
    requires Steps(C, s, a, s') && Inv(C, s) && w < C.Workers()
    ensures OutOfWork(s, w) ==> OutOfWork(s', w)
    ensures EmptyHanded(s, w) ==> EmptyHanded(s', w)
  {
    hide NoLostWakeUp, StopHeard, OpOk, BoardOk, Perform, SchedShape, C.Valid, InHand, Ready;
    StepPieces(C, s, a);
    BoardShape(C, s.k);
    var op := s.agents[a][0];
    PerformFlags(C, s.k, s.q, op);
    SchedFits(C, Perform(C, s.k, s.q, op).q);
    assert w < |s.agents| && WorkerStack(w, s.agents[w]);
    if a == w && |s.agents[w]| == 1 {
      assert WorkerOp(op) && op.w == w;
      PerformIs(C, s.k, s.q, op);
      StoppedGoesOn(C, s.k, s.q, op);
      var next := Perform(C, s.k, s.q, op).next;
      assert next + s.agents[a][1..] == next;
    }
  }

  /** A worker told to stop that is not at work on a task takes up none any more; and once the scheduler has been told
      to stop, a worker that has not confirmed a task confirms none. */
  lemma {:induction false} TakesUpNothing(C: Config, run: seq<State>, i: nat, j: nat, w: nat)
    requires Run(C, run) && i <= j < |run| && w < C.Workers()
    ensures OutOfWork(run[i], w) ==> OutOfWork(run[j], w)
    ensures EmptyHanded(run[i], w) ==> EmptyHanded(run[j], w)
    decreases j
  {
    hide Inv, Steps, OutOfWork, EmptyHanded, Initial;
    if i < j {
      TakesUpNothing(C, run, i, j - 1, w);
      RunInv(C, run, j - 1);
      assert Follows(C, run, j - 1);
      hide Run;
      var a: nat :| Steps(C, run[j - 1], a, run[j]);
      StaysOut(C, run[j - 1], a, run[j], w);
    }
  }
}
