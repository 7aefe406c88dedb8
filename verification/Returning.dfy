// A wait comes back only when what it waits for is over.
module Returning {
  // Whoever calls activeWait or wait on a task may run it, or children of it, meanwhile; the call returns only when
  // the task is done, and with it all that is below it.

  import opened TaskTree
  import opened Ledger
  import opened Machine
  import opened MachineShape
  import opened MachineLedger
  import opened MachineBalance
  import opened Runs
  import opened Safety

  /** The call of activeWait or wait on `t` is not over: it waits, or runs the unit task itself. */
  ghost predicate InCall(T: Tree, k: Board, op: Op, t: nat)
    requires t < |k.cell|
  {
    || op == ActiveWait(t) || op == Wait(t) || (op.AwaitChild? && op.t == t) || op == PostAgain(t)
    || (t < |T.kind| && T.kind[t].Unit?
        && ((op == Execute(t) && k.cell[t].grabbed) || op == Begin(t) || op == End(t) || op == SetDone(t)))
  }

  /** Task `t` is done, or agent `a` is in its call, with `d` other calls to come afterwards. */
  ghost predicate WaitsOn(T: Tree, s: State, a: nat, d: nat, t: nat) {
    && a < |s.agents| && t < |s.k.cell|
    && (s.k.cell[t].done
        || (d < |s.agents[a]| && InCall(T, s.k, s.agents[a][|s.agents[a]| - 1 - d], t)))
  }

  lemma TaskInCall(C: Config, k: Board, op: Op, t: nat)
    requires C.Valid() && Shape(C.T, k) && OpOk(C, k, op) && TaskOp(op) && t < C.T.Size() == |k.cell|
    requires InCall(C.T, k, op, t)
    ensures var (k', next) := TaskStep(C, k, op);
            && |k'.cell| == |k.cell|
            && (k'.cell[t].done || (next != [] && InCall(C.T, k', next[|next| - 1], t)))
  {
    hide C.Valid;
  }

  lemma CallerInCall(C: Config, k: Board, op: Op, t: nat)
    requires C.Valid() && Shape(C.T, k) && OpOk(C, k, op) && CallerOp(op) && Ready(C, k, op)
    requires t < C.T.Size() == |k.cell| == |C.T.children| && InCall(C.T, k, op, t) && !Released(C.T, op, t)
    ensures var (k', next) := CallerStep(C, k, op);
            && |k'.cell| == |k.cell|
            && next != [] && InCall(C.T, k', next[|next| - 1], t)
  {
    hide C.Valid;
  }

  /** What the top operation of the call goes on with. */
  lemma StaysInCall(C: Config, s: State, a: nat, t: nat)
    requires StateOk(C, s) && Balanced(C.T, s.k, AllDuties(s)) && CanStep(C, s, a)
    requires t < C.T.Size() == |s.k.cell| && InCall(C.T, s.k, s.agents[a][0], t) && !s.k.cell[t].done
    ensures OpOk(C, s.k, s.agents[a][0])
    ensures var e := Perform(C, s.k, s.q, s.agents[a][0]);
            && |e.k.cell| == |s.k.cell|
            && (e.k.cell[t].done || (e.next != [] && InCall(C.T, e.k, e.next[|e.next| - 1], t)))
  {
    hide StateOk, Balanced, AllDuties, CanStep, StepOf, OpOk, Perform, C.Valid, Shape, SchedShape, BoardOk, Ready,
        InCall, TaskStep, CallerStep, Released;
    StepPieces(C, s, a);
    BoardShape(C, s.k);
    CellsFit(C.T, s.k);
    var op := s.agents[a][0];
    PerformIs(C, s.k, s.q, op);
    CallKinds(C.T, s.k, op, t);
    if TaskOp(op) {
      TaskInCall(C, s.k, op, t);
    } else {
      ChildrenFit(C.T);
      if Released(C.T, op, t) {
        ReleasedIsDone(C, s, a, t);
      } else {
        CallerInCall(C, s.k, op, t);
      }
    }
  }

  lemma ChildrenFit(T: Tree)
    requires T.Valid()
    ensures |T.children| == T.Size()
  {
  }

  lemma CallKinds(T: Tree, k: Board, op: Op, t: nat)
    requires t < |k.cell| && InCall(T, k, op, t)
    ensures TaskOp(op) || CallerOp(op)
  {
  }

  lemma StillWaits(C: Config, s: State, b: nat, s': State, a: nat, d: nat, t: nat)
    requires Kept(C, s) && Steps(C, s, b, s') && WaitsOn(C.T, s, a, d, t) && t < C.T.Size()
    ensures WaitsOn(C.T, s', a, d, t)
  {
    hide Kept, StateOk, Balanced, AllDuties, CanStep, StepOf, OpOk, Perform, C.Valid, Shape, SchedShape, BoardOk, Ready,
        InCall;
    KeptFacts(C, s);
    StepPieces(C, s, b);
    CellsFit(C.T, s.k);
    var op := s.agents[b][0];
    PerformShape(C, s.k, s.q, op);
    GrownCells(C, s.k, s'.k, t);
    if !s.k.cell[t].done {
      var stack, stack' := s.agents[a], s'.agents[a];
      var e := Perform(C, s.k, s.q, op);
      InCallStays(C.T, s.k, s'.k, stack[|stack| - 1 - d], t);
      if b == a && |stack| == d + 1 {
        StaysInCall(C, s, a, t);
        assert stack' == e.next + stack[1..];
      } else if b == a {
        assert stack' == e.next + stack[1..];
        assert stack'[|stack'| - 1 - d] == stack[|stack| - 1 - d];
      }
    }
  }

  lemma GrownCells(C: Config, k: Board, k': Board, t: nat)
    requires C.Valid() && BoardOk(C, k) && Grows(C, k, k') && t < C.T.Size()
    ensures |k.cell| == |k'.cell| == C.T.Size()
    ensures (k.cell[t].grabbed ==> k'.cell[t].grabbed) && (k.cell[t].done ==> k'.cell[t].done)
  {
    hide C.Valid;
  }

  lemma InCallStays(T: Tree, k: Board, k': Board, op: Op, t: nat)
    requires t < |k.cell| && t < |k'.cell| && InCall(T, k, op, t) && (k.cell[t].grabbed ==> k'.cell[t].grabbed)
    ensures InCall(T, k', op, t)
  {
  }

  lemma {:induction false} RunWaits(C: Config, run: seq<State>, i: nat, j: nat, a: nat, d: nat, t: nat)
    requires Run(C, run) && TurnsKept(C.T, run[0]) && i <= j < |run| && t < C.T.Size() && WaitsOn(C.T, run[i], a, d, t)
    ensures WaitsOn(C.T, run[j], a, d, t)
    decreases j
  {
    hide Kept, Steps, WaitsOn, Initial, TurnsKept;
    if i < j {
      RunWaits(C, run, i, j - 1, a, d, t);
      RunKept(C, run, j - 1);
      assert Follows(C, run, j - 1);
      hide Run;
      var b: nat :| Steps(C, run[j - 1], b, run[j]);
      StillWaits(C, run[j - 1], b, run[j], a, d, t);
    }
  }

  /** A call of activeWait or wait on `t` has returned only when `t` is done and all unit tasks below it have run. */
  lemma ReturnsOnlyWhenDone(C: Config, run: seq<State>, i: nat, j: nat, a: nat, t: nat, x: nat)
    requires Run(C, run) && TurnsKept(C.T, run[0]) && i <= j < |run| && C.T.Valid() && t < C.T.Size()
    requires a < |run[i].agents| && run[i].agents[a] != []
    requires run[i].agents[a][0] == ActiveWait(t) || run[i].agents[a][0] == Wait(t)
    requires a < |run[j].agents| && |run[j].agents[a]| < |run[i].agents[a]|
    requires x < C.T.Size() && C.T.Under(x, t)
    ensures |run[j].k.cell| == C.T.Size() && run[j].k.cell[x].done
    ensures C.T.kind[x].Unit? ==> Finish(x) in run[j].k.trace
  {
    hide Kept, Run, TurnsKept, AllDuties, Inv, StateOk, Balanced, C.T.Under, Shape;
    RunKept(C, run, i);
    KeptFacts(C, run[i]);
    CellsFit(C.T, run[i].k);
    RunWaits(C, run, i, j, a, |run[i].agents[a]| - 1, t);
    RunKept(C, run, j);
    KeptFacts(C, run[j]);
    CellsFit(C.T, run[j].k);
    if x == t {
      DoneHasRun(C.T, run[j].k, AllDuties(run[j]), t);
    } else {
      OverBelow(C.T, run[j].k, AllDuties(run[j]), t, x);
    }
  }

  lemma DoneHasRun(T: Tree, k: Board, duties: multiset<Duty>, t: nat)
    requires Balanced(T, k, duties) && t < T.Size() && k.cell[t].done
    ensures T.kind[t].Unit? ==> Finish(t) in k.trace
  {
    assert NodeOk(T, k, duties, t);
    assert T.kind[t].Unit? ==> Finish(t) in multiset(k.trace);
  }
}
