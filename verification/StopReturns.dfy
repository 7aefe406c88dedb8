// stop() returns: from the moment it has cleared all flags.
module StopReturns {
  // Between clearing the scheduler's flag and clearing the workers' own, the workers may go round their
  // loops any number of times; from then on every step of anybody lowers a measure, and when no step is
  // left all workers have left their loops and the call is over.

  import opened TaskTree
  import opened Ledger
  import opened Machine
  import opened MachineShape
  import opened MachineStacks
  import opened MachineLedger
  import opened WakeUps
  import opened Runs
  import opened Stopping
  import opened Progress
  import opened Termination

  /** A step of stop() after the first. */
  predicate Midway(op: Op) {
    op.StopWorker? || op.WakeAll? || op.Join?
  }

  lemma MidwayStops(op: Op)
    ensures Midway(op) ==> StopOp(op)
  {
  }

  ghost predicate Underway(s: State) {
    exists a: nat, j: nat :: a < |s.agents| && j < |s.agents[a]| && Midway(s.agents[a][j])
  }

  /** All workers have left their loops. */
  ghost predicate AllOut(C: Config, s: State) {
    |s.agents| >= C.Workers() && forall w :: 0 <= w < C.Workers() ==> s.agents[w] == [Exited(w)]
  }

  /** Once begun, stop() is under way until all workers are out. */
  ghost predicate CarriedOut(C: Config, s: State) {
    s.q.running || Underway(s) || AllOut(C, s)
  }

  ghost predicate FlagsClear(q: Sched) {
    !q.running && forall w :: 0 <= w < |q.alive| ==> !q.alive[w]
  }

  // ------------------------------------------------------------------ it is carried out

  /** What a step of stop() goes on with. */
  lemma StopGoesOn(C: Config, k: Board, q: Sched, op: Op)
    requires C.Valid() && Shape(C.T, k) && SchedShape(C, q) && OpOk(C, k, op) && StopOp(op)
    ensures var next := StopStep(C, k, q, op).next;
            if op == Join(C.Workers()) then next == [] else |next| == 1 && Midway(next[0])
  {
    hide C.Valid, Shape, SchedShape;
  }

  lemma StepCarries(C: Config, s: State, a: nat, s': State)
    requires StateOk(C, s) && Structured(C, s) && StateOk(C, s') && StopsInOrder(C, s) && Steps(C, s, a, s') &&
        CarriedOut(C, s)
    ensures CarriedOut(C, s')
  {
    hide StateOk, Structured, StopsInOrder, Steps, OpOk, StopOp, StopProgress;
    var next := StepGoes(C, s, a, s');
    var op := s.agents[a][0];
    WorkersDoNotStop(C, s, a);
    if StopOp(op) {
      if next != [] {
        assert s'.agents[a][0] == next[0] && Midway(s'.agents[a][0]);
      } else {
        AllJoined(C, s, a);
      }
    } else if Underway(s) {
      assert !Midway(op) by { MidwayStops(op); }
      var b: nat, j: nat :| b < |s.agents| && j < |s.agents[b]| && Midway(s.agents[b][j]);
      var i := if b == a then |next| + j - 1 else j;
      assert s'.agents[b][i] == s.agents[b][j];
    }
  }

  lemma AllJoined(C: Config, s: State, a: nat)
    requires StateOk(C, s) && StopsInOrder(C, s) && a < |s.agents| && s.agents[a] != [] &&
        s.agents[a][0] == Join(C.Workers())
    ensures AllOut(C, s)
  {
    assert StopProgress(C, s, s.agents[a][0]);
    hide OpOk;
  }

  lemma WorkersDoNotStop(C: Config, s: State, a: nat)
    requires StateOk(C, s) && Structured(C, s) && a < |s.agents| && s.agents[a] != []
    ensures a < C.Workers() ==> !StopOp(s.agents[a][0])
  {
    hide StateOk;
    assert a < C.Workers() ==> WorkerStack(a, s.agents[a]);
  }

  lemma StepGoes(C: Config, s: State, a: nat, s': State) returns (next: seq<Op>)
    requires StateOk(C, s) && StateOk(C, s') && Steps(C, s, a, s')
    ensures a < |s.agents| && s.agents[a] != [] && s'.agents == s.agents[a := next + s.agents[a][1..]]
    ensures var op := s.agents[a][0];
            && (!StopOp(op) ==> s'.q.running == s.q.running)
            && (StopOp(op) ==> if op == Join(C.Workers()) then next == [] else |next| == 1 && Midway(next[0]))
    ensures forall w :: 0 <= w < C.Workers() && s.agents[w] == [Exited(w)] ==> s'.agents[w] == [Exited(w)]
  {
    var op := s.agents[a][0];
    assert OpOk(C, s.k, op);
    next := Perform(C, s.k, s.q, op).next;
    assert s' == StepOf(C, s, a);
    assert C.Valid() && BoardOk(C, s.k) && SchedShape(C, s.q) && Ready(C, s.k, op) && (op.Sleep? ==> s.q.sem[op.w] > 0);
    hide OpOk, Perform, BoardOk, StateOk, SchedShape, Shape, C.Valid, Ready, StepOf;
    BoardShape(C, s.k);
    StepIsLater(C, s, a);
    PerformFlags(C, s.k, s.q, op);
    if StopOp(op) {
      StopGoesOn(C, s.k, s.q, op);
    }
    StepsTo(C, s, a);
  }

  lemma StepsTo(C: Config, s: State, a: nat)
    requires StateOk(C, s) && CanStep(C, s, a) && OpOk(C, s.k, s.agents[a][0])
    ensures var e := Perform(C, s.k, s.q, s.agents[a][0]);
            StepOf(C, s, a) == State(e.k, e.q, s.agents[a := e.next + s.agents[a][1..]])
    ensures StopOp(s.agents[a][0]) ==> Perform(C, s.k, s.q, s.agents[a][0]) == StopStep(C, s.k, s.q, s.agents[a][0])
  {
    hide OpOk, TaskStep, ParallelStep, CallerStep, AddStep, WorkerStep, StopStep;
  }

  lemma {:induction false} RunCarries(C: Config, run: seq<State>, i: nat)
    requires Run(C, run) && i < |run|
    ensures CarriedOut(C, run[i])
  {
    hide Initial, Steps, CarriedOut, StateOk, Structured, StopHeard, StopsInOrder;
    if i == 0 {
      StartsRunning(C, run[0]);
    } else {
      RunCarries(C, run, i - 1);
      InvShape(C, run, i - 1);
      InvShape(C, run, i);
      RunInOrder(C, run, i - 1);
      assert Follows(C, run, i - 1);
      hide Run;
      var a: nat :| Steps(C, run[i - 1], a, run[i]);
      StepCarries(C, run[i - 1], a, run[i]);
    }
  }

  lemma StartsRunning(C: Config, s: State)
    requires Initial(C, s)
    ensures CarriedOut(C, s)
  {
  }

  // ------------------------------------------------------------------ nobody is stuck in it

  /** A caller in the middle of stop() is not blocked in anything else, and in its joins only as long as
      the worker it joins can go on. */
  lemma StopperGoes(C: Config, s: State, a: nat, j: nat)
    requires StateOk(C, s) && Structured(C, s) && StopHeard(C, s) && StopsInOrder(C, s)
    requires a < |s.agents| && j < |s.agents[a]| && StopOp(s.agents[a][j])
    ensures !Halted(C, s)
  {
    var op := s.agents[a][0];
    StopperTop(C, s, a, j);
    if op.Join? && op.w < C.Workers() {
      assert StopProgress(C, s, op);
      hide StateOk, Structured, StopsInOrder, StopHeard;
      WorkerGoes(C, s, op.w);
      if s.agents[op.w] == [Exited(op.w)] {
        JoinGoes(C, s, a);
      }
    }
  }

  lemma JoinGoes(C: Config, s: State, a: nat)
    requires StateOk(C, s) && a < |s.agents| && s.agents[a] != [] && s.agents[a][0].Join?
    requires s.agents[a][0].w < C.Workers() ==>
        C.Workers() <= |s.agents| && s.agents[s.agents[a][0].w] == [Exited(s.agents[a][0].w)]
    ensures CanStep(C, s, a)
  {
    hide StateOk;
  }

  lemma StopperTop(C: Config, s: State, a: nat, j: nat)
    requires StateOk(C, s) && Structured(C, s) && a < |s.agents| && j < |s.agents[a]| && StopOp(s.agents[a][j])
    ensures CanStep(C, s, a) || (s.agents[a][0].Join? && s.agents[a][0].w < C.Workers())
  {
    hide StateOk, Structured, CanStep, AwaitOp, WorkerOp, StopOp;
    StackTop(C, s, a, j);
    FreeToGo(C, s, a);
  }

  /** Nothing that blocks lies on top of a step of stop(). */
  lemma StackTop(C: Config, s: State, a: nat, j: nat)
    requires Structured(C, s) && a < |s.agents| && j < |s.agents[a]| && StopOp(s.agents[a][j])
    ensures !AwaitOp(s.agents[a][0]) && !WorkerOp(s.agents[a][0])
  {
    KindsOf(s.agents[a][j]);
    hide StopOp, AwaitOp, WorkerOp, BodyOp;
    assert a < C.Workers() ==> WorkerStack(a, s.agents[a]);
    assert a >= C.Workers() ==> CallerStack(s.agents[a]);
  }

  lemma FreeToGo(C: Config, s: State, a: nat)
    requires StateOk(C, s) && a < |s.agents| && s.agents[a] != [] && !AwaitOp(s.agents[a][0]) &&
        !WorkerOp(s.agents[a][0])
    ensures CanStep(C, s, a) || (s.agents[a][0].Join? && s.agents[a][0].w < C.Workers())
  {
    hide StateOk;
  }

  // ------------------------------------------------------------------ and it comes to an end

  lemma ClearStays(C: Config, s: State, a: nat, s': State)
    requires Inv(C, s) && Inv(C, s') && Steps(C, s, a, s') && FlagsClear(s.q)
    ensures FlagsClear(s'.q) && StateOk(C, s) && StateOk(C, s') && Measure(C, false, s') < Measure(C, false, s)
  {
    hide Structured, NoLostWakeUp, StopHeard, StateOk, Measure, StepOf, CanStep;
    StillClear(C, s, a, s');
    assert Going(s.q, false);
    StepPays(C, false, s, a);
  }

  lemma StillClear(C: Config, s: State, a: nat, s': State)
    requires StateOk(C, s) && StateOk(C, s') && Steps(C, s, a, s') && FlagsClear(s.q)
    ensures FlagsClear(s'.q)
  {
    assert |s.q.alive| == |s'.q.alive| == C.Workers();
    hide StateOk, StepOf, CanStep;
    StepIsLater(C, s, a);
  }

  /** After the flags have been cleared a run is no longer than the measure says. */
  lemma {:induction false} StopIsBounded(C: Config, run: seq<State>, i: nat, j: nat)
    requires Run(C, run) && i <= j < |run| && FlagsClear(run[i].q)
    ensures FlagsClear(run[j].q) && StateOk(C, run[i]) && StateOk(C, run[j])
    ensures j - i + Measure(C, false, run[j]) <= Measure(C, false, run[i])
    decreases j
  {
    hide Initial, Steps, Inv, FlagsClear, Measure, StateOk;
    RunInv(C, run, j);
    InvOk(C, run[j]);
    if i < j {
      StopIsBounded(C, run, i, j - 1);
      RunInv(C, run, j - 1);
      assert Follows(C, run, j - 1);
      hide Run;
      var a: nat :| Steps(C, run[j - 1], a, run[j]);
      ClearStays(C, run[j - 1], a, run[j]);
    }
  }

  /** When nothing is left to do after stop() has begun, all workers have left their loops, and nobody is
      inside stop() any more. */
  lemma StopIsOver(C: Config, run: seq<State>)
    requires Run(C, run) && !run[|run| - 1].q.running
    requires StateOk(C, run[|run| - 1]) && Halted(C, run[|run| - 1])
    ensures var s := run[|run| - 1];
            && AllOut(C, s)
            && forall a: nat, j: nat :: a < |s.agents| && j < |s.agents[a]| ==> !StopOp(s.agents[a][j])
  {
    var s := run[|run| - 1];
    hide Initial, Follows, Halted, StateOk, Structured, StopHeard, StopsInOrder, AllOut, StopOp;
    LastFacts(C, run);
    hide Run;
    forall a: nat, j: nat | a < |s.agents| && j < |s.agents[a]| ensures !StopOp(s.agents[a][j]) {
      if StopOp(s.agents[a][j]) {
        StopperGoes(C, s, a, j);
      }
    }
    assert !Underway(s) by { NotUnderway(s); }
  }

  lemma NotUnderway(s: State)
    requires forall a: nat, j: nat :: a < |s.agents| && j < |s.agents[a]| ==> !StopOp(s.agents[a][j])
    ensures !Underway(s)
  {
  }

  lemma LastFacts(C: Config, run: seq<State>)
    requires Run(C, run)
    ensures var s := run[|run| - 1];
            StateOk(C, s) && Structured(C, s) && StopHeard(C, s) && StopsInOrder(C, s) && CarriedOut(C, s)
  {
    hide Initial, Follows, StateOk, Structured, StopHeard, StopsInOrder, CarriedOut;
    RunCarries(C, run, |run| - 1);
    InvShape(C, run, |run| - 1);
    RunInOrder(C, run, |run| - 1);
  }

  /** stop() returns. Once it has cleared the flags, the run has a bounded number of steps left; and when
      there is none, every worker has left its loop and the call is over. */
  lemma StopReturnsAtLast(C: Config, run: seq<State>, i: nat)
    requires Run(C, run) && i < |run| && FlagsClear(run[i].q)
    ensures StateOk(C, run[i]) && |run| <= i + 1 + Measure(C, false, run[i])
    ensures var s := run[|run| - 1];
            && StateOk(C, s)
            && (Halted(C, s) ==>
                  && AllOut(C, s)
                  && forall a: nat, j: nat :: a < |s.agents| && j < |s.agents[a]| ==> !StopOp(s.agents[a][j]))
  {
    hide Run, Halted, StateOk, Measure, AllOut, StopOp;
    LastIsClear(C, run, i);
    if Halted(C, run[|run| - 1]) {
      StopIsOver(C, run);
    }
  }

  lemma LastIsClear(C: Config, run: seq<State>, i: nat)
    requires Run(C, run) && i < |run| && FlagsClear(run[i].q)
    ensures StateOk(C, run[i]) && StateOk(C, run[|run| - 1]) && !run[|run| - 1].q.running
    ensures |run| <= i + 1 + Measure(C, false, run[i])
  {
    hide Run, StateOk, Measure;
    StopIsBounded(C, run, i, |run| - 1);
  }
}
